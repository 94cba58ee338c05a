/** The filter values a search is compiled from (the `FilterCriteria` class). */
module Criteria {

  datatype Option<T> = None | Some(value: T)

  /** A `java.util.Date`, known by its `getTime()` milliseconds; otherwise opaque here. */
  datatype Date = Date(millis: int)

  /** The sentinel selection meaning "no restriction on this dimension". */
  const ALL := "All"

  /** The four dimension tables a search can be restricted by. */
  datatype Dimension = Shift | Method | Offense | Block

  /** An immutable snapshot of the filter bar: a date range (a null date,
      here `None`, leaves that side unbounded) and one selection list per
      dimension. */
  datatype FilterCriteria = FilterCriteria(
    fromDate: Option<Date>,
    toDate: Option<Date>,
    shifts: seq<string>,
    methods: seq<string>,
    offenses: seq<string>,
    blocks: seq<string>)
  {
    /** The getter for one dimension's list. */
    function Selection(d: Dimension): seq<string>
    {
      match d
      case Shift => shifts
      case Method => methods
      case Offense => offenses
      case Block => blocks
    }

    /** What `applyMultiFilter` relies on: `vals.get(0)` exists for every list. */
    predicate Searchable()
    {
      |shifts| > 0 && |methods| > 0 && |offenses| > 0 && |blocks| > 0
    }
  }

  /** The criteria with the default selections for a given date window. */
  function Defaults(weekAgo: Date, today: Date): FilterCriteria
  {
    FilterCriteria(Some(weekAgo), Some(today), [ALL], [ALL], [ALL], [ALL])
  }
}
