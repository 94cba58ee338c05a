/** The search compiler of `MainFrame.onSearch` and `applyMultiFilter`: it
    turns the filter criteria into one SQL text with `?` markers and the
    ordered list of values bound to them. */
module Search {
  import opened Sql
  import opened Criteria
  import Filters

  // The fixed query onSearch starts from, concatenated as the source writes
  // it; each long literal is split once more into shorter literals of the
  // same text.
  const SelectDates := "SELECT f.ccn, f.report_dt, " + "f.start_dt, f.end_dt, "
  const SelectCodes := "s.shift_code Shift, " + "m.method_code Method, "
  const SelectPlace := "o.offense_code Offense, " + "b.block Block, f.x, f.y, " + "f.latitude, f.longitude "
  const FromFact := "FROM fact_incident f "
  const JoinShift := "LEFT JOIN dim_shift s " + "ON f.shift_code=s.shift_code "
  const JoinMethod := "LEFT JOIN dim_method m " + "ON f.method_code=m.method_code "
  const JoinOffense := "LEFT JOIN dim_offense o " + "ON f.offense_code=o.offense_code "
  const JoinBlock := "LEFT JOIN dim_block b " + "ON f.block=b.block WHERE 1=1"

  /** The base query, ending in the `WHERE 1=1` anchor every clause is appended to. */
  const Base := SelectDates + SelectCodes + SelectPlace + FromFact
                + JoinShift + JoinMethod + JoinOffense + JoinBlock

  /** The lower and upper date bounds. */
  const FromDateSql := " AND f.report_dt>=" + "?"
  const ToDateSql := " AND f.report_dt<=" + "?"

  /** The column each dimension's `IN` list restricts. */
  function Column(d: Dimension): string
  {
    match d
    case Shift => "s.shift_code"
    case Method => "m.method_code"
    case Offense => "o.offense_code"
    case Block => "b.block"
  }

  lemma SelectDatesClean() ensures '?' !in SelectDates {}
  lemma SelectCodesClean() ensures '?' !in SelectCodes {}
  lemma SelectPlaceClean() ensures '?' !in SelectPlace {}
  lemma FromFactClean() ensures '?' !in FromFact {}
  lemma JoinShiftClean() ensures '?' !in JoinShift {}
  lemma JoinMethodClean() ensures '?' !in JoinMethod {}
  lemma JoinOffenseClean() ensures '?' !in JoinOffense {}
  lemma JoinBlockClean() ensures '?' !in JoinBlock {}

  /** The base query binds nothing. */
  lemma BaseHasNoMarkers()
    ensures Markers(Base) == 0
  {
    SelectDatesClean(); SelectCodesClean(); SelectPlaceClean(); FromFactClean();
    JoinShiftClean(); JoinMethodClean(); JoinOffenseClean(); JoinBlockClean();
    assert '?' !in Base;
    MarkerFree(Base);
  }

  /** Each date bound carries exactly one marker. */
  lemma DateSqlMarkers()
    ensures Markers(FromDateSql) == 1 && Markers(ToDateSql) == 1
  {
    OneMarker();
    MarkerFree(" AND f.report_dt>=");
    MarkerFree(" AND f.report_dt<=");
    MarkersConcat(" AND f.report_dt>=", "?");
    MarkersConcat(" AND f.report_dt<=", "?");
  }

  /** The condition of `applyMultiFilter`: does this selection restrict its
      dimension? (`vals.get(0)` needs a non-empty list.) */
  predicate Restricts(vals: seq<string>)
    requires |vals| > 0
  {
    |vals| > 1 || vals[0] != ALL
  }

  /** Exactly the lists other than `["All"]` restrict. */
  lemma RestrictsUnlessAll(vals: seq<string>)
    requires |vals| > 0
    ensures Restricts(vals) <==> vals != [ALL]
  {
    if vals != [ALL] && |vals| == 1 {
      assert vals == [vals[0]];
    }
  }

  /** The selection values as statement parameters, in their list order. */
  function TextParams(vals: seq<string>): (ps: seq<Param>)
    ensures |ps| == |vals|
    ensures forall i :: 0 <= i < |vals| ==> ps[i] == TextParam(vals[i])
  {
    seq(|vals|, i requires 0 <= i < |vals| => TextParam(vals[i]))
  }

  /** ` AND <column> IN (?,…,?)` for `n` values. */
  function InList(column: string, n: nat): string
  {
    " AND " + column + " IN (" + MarkerList(n) + ")"
  }

  /** The text `applyMultiFilter` appends for one dimension. */
  function InSql(vals: seq<string>, column: string): string
    requires |vals| > 0
  {
    if Restricts(vals) then InList(column, |vals|) else ""
  }

  /** The parameters `applyMultiFilter` appends for one dimension. */
  function InParams(vals: seq<string>): seq<Param>
    requires |vals| > 0
  {
    if Restricts(vals) then TextParams(vals) else []
  }

  /** The text appended for an optional date bound. */
  function DateSql(bound: Option<Date>, sql: string): string
  {
    if bound.Some? then sql else ""
  }

  /** The parameter appended for an optional date bound. */
  function DateParams(bound: Option<Date>): seq<Param>
  {
    if bound.Some? then [TimestampParam(bound.value.millis)] else []
  }

  // ---------------------------------------------------------------------
  // Specification: the search as a list of clauses

  /** What a clause filters on, in the order clauses are emitted. */
  datatype Filter = FromDate | ToDate | In(dim: Dimension)

  function Rank(f: Filter): nat
  {
    match f
    case FromDate => 0
    case ToDate => 1
    case In(Shift) => 2
    case In(Method) => 3
    case In(Offense) => 4
    case In(Block) => 5
  }

  /** Whether a filter is in force for criteria `c`: a present date, or a
      selection other than `["All"]`. */
  predicate Active(c: FilterCriteria, f: Filter)
  {
    match f
    case FromDate => c.fromDate.Some?
    case ToDate => c.toDate.Some?
    case In(d) => c.Selection(d) != [ALL]
  }

  /** The values a filter in force binds: the date as a timestamp, or the
      selected values in their list order. */
  function BoundValues(c: FilterCriteria, f: Filter): seq<Param>
  {
    match f
    case FromDate => DateParams(c.fromDate)
    case ToDate => DateParams(c.toDate)
    case In(d) => TextParams(c.Selection(d))
  }

  /** The condition a filter in force adds. */
  function FilterSql(c: FilterCriteria, f: Filter): string
  {
    match f
    case FromDate => FromDateSql
    case ToDate => ToDateSql
    case In(d) => InList(Column(d), |c.Selection(d)|)
  }

  /** One `AND …` condition together with the values bound to its markers. */
  datatype Clause = Clause(filter: Filter, sql: string, params: seq<Param>)

  function ClauseFor(c: FilterCriteria, f: Filter): Clause
  {
    Clause(f, FilterSql(c, f), BoundValues(c, f))
  }

  /** The clauses one filter contributes: its clause when it is in force. */
  function Group(c: FilterCriteria, f: Filter): seq<Clause>
  {
    if Active(c, f) then [ClauseFor(c, f)] else []
  }

  /** The clauses of a search, in emission order. */
  function Clauses(c: FilterCriteria): seq<Clause>
  {
    Group(c, FromDate) + Group(c, ToDate) + Group(c, In(Shift))
    + Group(c, In(Method)) + Group(c, In(Offense)) + Group(c, In(Block))
  }

  function SqlOf(cls: seq<Clause>): string
  {
    if cls == [] then "" else SqlOf(cls[..|cls| - 1]) + cls[|cls| - 1].sql
  }

  function ParamsOf(cls: seq<Clause>): seq<Param>
  {
    if cls == [] then [] else ParamsOf(cls[..|cls| - 1]) + cls[|cls| - 1].params
  }

  lemma {:induction false} SqlOfConcat(a: seq<Clause>, b: seq<Clause>)
    ensures SqlOf(a + b) == SqlOf(a) + SqlOf(b)
  {
    if b == [] {
      assert a + b == a;
    } else {
      var n := |b| - 1;
      assert (a + b)[..|a + b| - 1] == a + b[..n];
      SqlOfConcat(a, b[..n]);
    }
  }

  lemma {:induction false} ParamsOfConcat(a: seq<Clause>, b: seq<Clause>)
    ensures ParamsOf(a + b) == ParamsOf(a) + ParamsOf(b)
  {
    if b == [] {
      assert a + b == a;
    } else {
      var n := |b| - 1;
      assert (a + b)[..|a + b| - 1] == a + b[..n];
      ParamsOfConcat(a, b[..n]);
    }
  }

  lemma SingleClause(cl: Clause)
    ensures SqlOf([cl]) == cl.sql && ParamsOf([cl]) == cl.params
  {
    assert [cl][..0] == [];
  }

  /** The text of the clauses is that of the six groups in turn. */
  lemma TextByGroup(c: FilterCriteria)
    ensures SqlOf(Clauses(c)) == SqlOf(Group(c, FromDate)) + SqlOf(Group(c, ToDate))
              + SqlOf(Group(c, In(Shift))) + SqlOf(Group(c, In(Method)))
              + SqlOf(Group(c, In(Offense))) + SqlOf(Group(c, In(Block)))
  {
    var a, b := Group(c, FromDate), Group(c, ToDate);
    var s, m := Group(c, In(Shift)), Group(c, In(Method));
    var o, k := Group(c, In(Offense)), Group(c, In(Block));
    SqlOfConcat(a, b);
    SqlOfConcat(a + b, s);
    SqlOfConcat(a + b + s, m);
    SqlOfConcat(a + b + s + m, o);
    SqlOfConcat(a + b + s + m + o, k);
  }

  /** The parameters of the clauses are those of the six groups in turn. */
  lemma ParamsByGroup(c: FilterCriteria)
    ensures ParamsOf(Clauses(c)) == ParamsOf(Group(c, FromDate)) + ParamsOf(Group(c, ToDate))
              + ParamsOf(Group(c, In(Shift))) + ParamsOf(Group(c, In(Method)))
              + ParamsOf(Group(c, In(Offense))) + ParamsOf(Group(c, In(Block)))
  {
    var a, b := Group(c, FromDate), Group(c, ToDate);
    var s, m := Group(c, In(Shift)), Group(c, In(Method));
    var o, k := Group(c, In(Offense)), Group(c, In(Block));
    ParamsOfConcat(a, b);
    ParamsOfConcat(a + b, s);
    ParamsOfConcat(a + b + s, m);
    ParamsOfConcat(a + b + s + m, o);
    ParamsOfConcat(a + b + s + m + o, k);
  }

  /** Six parts equal in turn give equal concatenations. */
  lemma Concat6<T>(x1: seq<T>, x2: seq<T>, x3: seq<T>, x4: seq<T>, x5: seq<T>, x6: seq<T>,
                   y1: seq<T>, y2: seq<T>, y3: seq<T>, y4: seq<T>, y5: seq<T>, y6: seq<T>)
    requires x1 == y1 && x2 == y2 && x3 == y3 && x4 == y4 && x5 == y5 && x6 == y6
    ensures x1 + x2 + x3 + x4 + x5 + x6 == y1 + y2 + y3 + y4 + y5 + y6
  {
  }

  /** The SQL text of the search for criteria `c`. */
  function SearchSql(c: FilterCriteria): string
  {
    Base + SqlOf(Clauses(c))
  }

  /** The positional parameters of the search for criteria `c`. */
  function SearchParams(c: FilterCriteria): seq<Param>
  {
    ParamsOf(Clauses(c))
  }

  /** Every clause binds as many values as it has markers. */
  ghost predicate Balanced(cls: seq<Clause>)
  {
    forall i :: 0 <= i < |cls| ==> Markers(cls[i].sql) == |cls[i].params|
  }

  /** An `IN` list for `n` values has `n` markers. */
  lemma InListMarkers(column: string, n: nat)
    requires '?' !in column
    ensures Markers(InList(column, n)) == n
  {
    MarkerListShape(n);
    MarkerFree(" AND ");
    MarkerFree(column);
    MarkerFree(" IN (");
    MarkerFree(")");
    MarkersConcat(" AND ", column);
    MarkersConcat(" AND " + column, " IN (");
    MarkersConcat(" AND " + column + " IN (", MarkerList(n));
    MarkersConcat(" AND " + column + " IN (" + MarkerList(n), ")");
  }

  /** A filter's clause has one marker per value it binds. */
  lemma ClauseForBalanced(c: FilterCriteria, f: Filter)
    requires Active(c, f)
    ensures Markers(ClauseFor(c, f).sql) == |ClauseFor(c, f).params|
  {
    match f
    case FromDate => DateSqlMarkers();
    case ToDate => DateSqlMarkers();
    case In(d) => InListMarkers(Column(d), |c.Selection(d)|);
  }

  lemma GroupBalanced(c: FilterCriteria, f: Filter)
    ensures Balanced(Group(c, f))
  {
    if Active(c, f) {
      ClauseForBalanced(c, f);
    }
  }

  lemma BalancedConcat(a: seq<Clause>, b: seq<Clause>)
    requires Balanced(a) && Balanced(b)
    ensures Balanced(a + b)
  {
    forall i | 0 <= i < |a + b|
      ensures Markers((a + b)[i].sql) == |(a + b)[i].params|
    {
      if i >= |a| {
        assert (a + b)[i] == b[i - |a|];
      }
    }
  }

  lemma ClausesBalanced(c: FilterCriteria)
    ensures Balanced(Clauses(c))
  {
    var a, b := Group(c, FromDate), Group(c, ToDate);
    var s, m := Group(c, In(Shift)), Group(c, In(Method));
    var o, k := Group(c, In(Offense)), Group(c, In(Block));
    GroupBalanced(c, FromDate);
    GroupBalanced(c, ToDate);
    GroupBalanced(c, In(Shift));
    GroupBalanced(c, In(Method));
    GroupBalanced(c, In(Offense));
    GroupBalanced(c, In(Block));
    BalancedConcat(a, b);
    BalancedConcat(a + b, s);
    BalancedConcat(a + b + s, m);
    BalancedConcat(a + b + s + m, o);
    BalancedConcat(a + b + s + m + o, k);
  }

  lemma {:induction false} BalancedMarkers(cls: seq<Clause>)
    requires Balanced(cls)
    ensures Markers(SqlOf(cls)) == |ParamsOf(cls)|
  {
    if cls != [] {
      var n := |cls| - 1;
      BalancedMarkers(cls[..n]);
      MarkersConcat(SqlOf(cls[..n]), cls[n].sql);
    }
  }

  /** The search has exactly one parameter per `?` marker. */
  lemma SearchWellBound(c: FilterCriteria)
    ensures Markers(SearchSql(c)) == |SearchParams(c)|
  {
    ClausesBalanced(c);
    BalancedMarkers(Clauses(c));
    BaseHasNoMarkers();
    MarkersConcat(Base, SqlOf(Clauses(c)));
  }

  /** Positional binding lines up: before clause `i` the SQL text holds as
      many markers as there are parameters before clause `i`'s values, and
      the clause's text and its values sit at that point of the text and of
      the parameter list respectively. */
  lemma PositionalBinding(c: FilterCriteria, i: nat)
    requires i < |Clauses(c)|
    ensures var cls := Clauses(c);
            Markers(Base + SqlOf(cls[..i])) == |ParamsOf(cls[..i])| &&
            SearchSql(c) == Base + (SqlOf(cls[..i]) + cls[i].sql + SqlOf(cls[i + 1..])) &&
            SearchParams(c) == ParamsOf(cls[..i]) + cls[i].params + ParamsOf(cls[i + 1..]) &&
            Markers(cls[i].sql) == |cls[i].params|
  {
    var cls := Clauses(c);
    ClausesBalanced(c);
    SplitTextAt(cls, i);
    SplitParamsAt(cls, i);
    assert Balanced(cls[..i]);
    BalancedMarkers(cls[..i]);
    BaseHasNoMarkers();
    MarkersConcat(Base, SqlOf(cls[..i]));
  }

  /** The text of a clause list splits around clause `i`. */
  lemma SplitTextAt(cls: seq<Clause>, i: nat)
    requires i < |cls|
    ensures SqlOf(cls) == SqlOf(cls[..i]) + cls[i].sql + SqlOf(cls[i + 1..])
  {
    var front, back := cls[..i + 1], cls[i + 1..];
    assert cls == front + back;
    assert front[..i] == cls[..i];
    SqlOfConcat(front, back);
  }

  /** The parameters of a clause list split around clause `i` alike. */
  lemma SplitParamsAt(cls: seq<Clause>, i: nat)
    requires i < |cls|
    ensures ParamsOf(cls) == ParamsOf(cls[..i]) + cls[i].params + ParamsOf(cls[i + 1..])
  {
    var front, back := cls[..i + 1], cls[i + 1..];
    assert cls == front + back;
    assert front[..i] == cls[..i];
    ParamsOfConcat(front, back);
  }

  // ---------------------------------------------------------------------
  // The search as the builder produces it, step by step

  /** A date filter's group is what its `if (date != null)` block appends. */
  lemma DateStep(c: FilterCriteria, f: Filter, bound: Option<Date>, sql: string)
    requires (f == FromDate && bound == c.fromDate) || (f == ToDate && bound == c.toDate)
    requires sql == FilterSql(c, f)
    ensures SqlOf(Group(c, f)) == DateSql(bound, sql)
    ensures ParamsOf(Group(c, f)) == DateParams(bound)
  {
    if Active(c, f) {
      SingleClause(ClauseFor(c, f));
    }
  }

  /** A dimension's group is what `applyMultiFilter` appends for it. */
  lemma InStep(c: FilterCriteria, d: Dimension, vals: seq<string>)
    requires vals == c.Selection(d) && |vals| > 0
    ensures SqlOf(Group(c, In(d))) == InSql(vals, Column(d))
    ensures ParamsOf(Group(c, In(d))) == InParams(vals)
  {
    RestrictsUnlessAll(vals);
    if Active(c, In(d)) {
      SingleClause(ClauseFor(c, In(d)));
    }
  }

  // ---------------------------------------------------------------------
  // The order of the clauses

  /** The clauses appear in the fixed order fromDate, toDate, shift, method,
      offense, block. */
  lemma ClauseOrder(c: FilterCriteria)
    ensures forall i, j :: 0 <= i < j < |Clauses(c)| ==>
              Rank(Clauses(c)[i].filter) < Rank(Clauses(c)[j].filter)
  {
    var cls := Clauses(c);
    forall i, j | 0 <= i < j < |cls|
      ensures Rank(cls[i].filter) < Rank(cls[j].filter)
    {
      RankedConcat(Group(c, FromDate), Group(c, ToDate), Group(c, In(Shift)),
                   Group(c, In(Method)), Group(c, In(Offense)), Group(c, In(Block)), i, j);
    }
  }

  /** A group of at most one clause, whose clause has rank `r`. */
  predicate RankedGroup(g: seq<Clause>, r: nat)
  {
    |g| <= 1 && (|g| == 1 ==> Rank(g[0].filter) == r)
  }

  /** Concatenating groups ranked 0 to 5 gives strictly increasing ranks. */
  lemma RankedConcat(a: seq<Clause>, b: seq<Clause>, s: seq<Clause>,
                     m: seq<Clause>, o: seq<Clause>, k: seq<Clause>, i: nat, j: nat)
    requires RankedGroup(a, 0) && RankedGroup(b, 1) && RankedGroup(s, 2)
    requires RankedGroup(m, 3) && RankedGroup(o, 4) && RankedGroup(k, 5)
    requires i < j < |a + b + s + m + o + k|
    ensures Rank((a + b + s + m + o + k)[i].filter) < Rank((a + b + s + m + o + k)[j].filter)
  {
    RankAt(a, b, s, m, o, k, i);
    RankAt(a, b, s, m, o, k, j);
  }

  /** The rank at position `p` is that of the group `p` falls in. */
  lemma RankAt(a: seq<Clause>, b: seq<Clause>, s: seq<Clause>,
               m: seq<Clause>, o: seq<Clause>, k: seq<Clause>, p: nat)
    requires RankedGroup(a, 0) && RankedGroup(b, 1) && RankedGroup(s, 2)
    requires RankedGroup(m, 3) && RankedGroup(o, 4) && RankedGroup(k, 5)
    requires p < |a + b + s + m + o + k|
    ensures var e0 := |a|;
            var e1 := e0 + |b|;
            var e2 := e1 + |s|;
            var e3 := e2 + |m|;
            var e4 := e3 + |o|;
            Rank((a + b + s + m + o + k)[p].filter) ==
              if p < e0 then 0 else if p < e1 then 1 else if p < e2 then 2
              else if p < e3 then 3 else if p < e4 then 4 else 5
  {
    var cls := a + b + s + m + o + k;
    var e0 := |a|;
    var e1 := e0 + |b|;
    var e2 := e1 + |s|;
    var e3 := e2 + |m|;
    var e4 := e3 + |o|;
    if p < e0 {
      assert cls[p] == a[p];
    } else if p < e1 {
      assert cls[p] == b[p - e0];
    } else if p < e2 {
      assert cls[p] == s[p - e1];
    } else if p < e3 {
      assert cls[p] == m[p - e2];
    } else if p < e4 {
      assert cls[p] == o[p - e3];
    } else {
      assert cls[p] == k[p - e4];
    }
  }

  // ---------------------------------------------------------------------
  // What the search binds and what its text depends on

  /** A filter has a clause exactly when it is in force, and that clause
      binds the filter's values. */
  lemma ClausePresence(c: FilterCriteria, f: Filter)
    ensures (exists cl :: cl in Clauses(c) && cl.filter == f) <==> Active(c, f)
    ensures forall cl :: cl in Clauses(c) && cl.filter == f ==> cl.params == BoundValues(c, f)
  {
    forall cl | cl in Clauses(c)
      ensures Active(c, cl.filter) && cl == ClauseFor(c, cl.filter)
    {
      OwnGroup(c, cl);
    }
    if Active(c, f) {
      InClausesOf(c, f);
    }
  }

  /** Every clause of a search is the clause of an active filter. */
  lemma OwnGroup(c: FilterCriteria, cl: Clause)
    requires cl in Clauses(c)
    ensures Active(c, cl.filter) && cl == ClauseFor(c, cl.filter)
  {
    if cl in Group(c, FromDate) {
    } else if cl in Group(c, ToDate) {
    } else if cl in Group(c, In(Shift)) {
    } else if cl in Group(c, In(Method)) {
    } else if cl in Group(c, In(Offense)) {
    } else {
      assert cl in Group(c, In(Block));
    }
  }

  /** An active filter's clause belongs to the search. */
  lemma InClausesOf(c: FilterCriteria, f: Filter)
    requires Active(c, f)
    ensures ClauseFor(c, f) in Clauses(c)
  {
    assert ClauseFor(c, f) in Group(c, f);
  }

  /** Neither bound present and every selection `["All"]`. */
  predicate Unfiltered(c: FilterCriteria)
  {
    c.fromDate.None? && c.toDate.None? && forall d :: c.Selection(d) == [ALL]
  }

  /** A criteria with no filter in force yields the bare base query and no
      parameters, and only such criteria do. */
  lemma UnfilteredIsBase(c: FilterCriteria)
    requires c.Searchable()
    ensures SearchSql(c) == Base <==> Unfiltered(c)
    ensures SearchParams(c) == [] <==> Unfiltered(c)
  {
    NoClauses(c);
    AppendsNothing(Base, SqlOf(Clauses(c)));
  }

  /** No filter in force is the same as no clause text and no parameter. */
  lemma NoClauses(c: FilterCriteria)
    requires c.Searchable()
    ensures SqlOf(Clauses(c)) == [] <==> Unfiltered(c)
    ensures ParamsOf(Clauses(c)) == [] <==> Unfiltered(c)
  {
    TextByGroup(c);
    ParamsByGroup(c);
    GroupNonEmpty(c, FromDate);
    GroupNonEmpty(c, ToDate);
    GroupNonEmpty(c, In(Shift));
    GroupNonEmpty(c, In(Method));
    GroupNonEmpty(c, In(Offense));
    GroupNonEmpty(c, In(Block));
    assert Unfiltered(c) <==>
      !Active(c, FromDate) && !Active(c, ToDate) && !Active(c, In(Shift)) &&
      !Active(c, In(Method)) && !Active(c, In(Offense)) && !Active(c, In(Block));
  }

  /** A group has text, and values, exactly when its filter is in force. */
  lemma GroupNonEmpty(c: FilterCriteria, f: Filter)
    requires c.Searchable()
    ensures SqlOf(Group(c, f)) != [] <==> Active(c, f)
    ensures ParamsOf(Group(c, f)) != [] <==> Active(c, f)
  {
    if Active(c, f) {
      SingleClause(ClauseFor(c, f));
      match f
      case FromDate =>
      case ToDate =>
      case In(d) =>
        assert |BoundValues(c, f)| == |c.Selection(d)| > 0;
    }
  }

  lemma AppendsNothing<T>(s: seq<T>, x: seq<T>)
    ensures s + x == s <==> x == []
  {
    if s + x == s {
      assert |s + x| == |s| + |x|;
    }
  }

  /** How many values a selection binds: none for `["All"]`. */
  function Width(vals: seq<string>): nat
    requires |vals| > 0
  {
    if vals == [ALL] then 0 else |vals|
  }

  /** All the search text is allowed to depend on. */
  datatype Shape = Shape(hasFrom: bool, hasTo: bool, widths: seq<nat>)

  function ShapeOf(c: FilterCriteria): Shape
    requires c.Searchable()
  {
    Shape(c.fromDate.Some?, c.toDate.Some?,
          [Width(c.shifts), Width(c.methods), Width(c.offenses), Width(c.blocks)])
  }

  /** The SQL text depends only on which dates are present and on how many
      values each dimension binds, never on the dates or values themselves:
      those reach the database only as parameters. */
  lemma TextIgnoresValues(c1: FilterCriteria, c2: FilterCriteria)
    requires c1.Searchable() && c2.Searchable()
    requires ShapeOf(c1) == ShapeOf(c2)
    ensures SearchSql(c1) == SearchSql(c2)
  {
    TextByGroup(c1);
    TextByGroup(c2);
    SameShapeSameText(c1, c2, FromDate);
    SameShapeSameText(c1, c2, ToDate);
    SameShapeSameText(c1, c2, In(Shift));
    SameShapeSameText(c1, c2, In(Method));
    SameShapeSameText(c1, c2, In(Offense));
    SameShapeSameText(c1, c2, In(Block));
    Concat6(SqlOf(Group(c1, FromDate)), SqlOf(Group(c1, ToDate)),
            SqlOf(Group(c1, In(Shift))), SqlOf(Group(c1, In(Method))),
            SqlOf(Group(c1, In(Offense))), SqlOf(Group(c1, In(Block))),
            SqlOf(Group(c2, FromDate)), SqlOf(Group(c2, ToDate)),
            SqlOf(Group(c2, In(Shift))), SqlOf(Group(c2, In(Method))),
            SqlOf(Group(c2, In(Offense))), SqlOf(Group(c2, In(Block))));
  }

  /** Two criteria that agree on whether a filter is in force, and on how
      many values a dimension binds, give that filter the same text. */
  lemma SameShapeSameText(c1: FilterCriteria, c2: FilterCriteria, f: Filter)
    requires c1.Searchable() && c2.Searchable()
    requires ShapeOf(c1) == ShapeOf(c2)
    ensures SqlOf(Group(c1, f)) == SqlOf(Group(c2, f))
  {
    GroupText(c1, f);
    GroupText(c2, f);
    var w1, w2 := ShapeOf(c1).widths, ShapeOf(c2).widths;
    match f
    case FromDate =>
    case ToDate =>
    case In(Shift) =>
      assert w1[0] == w2[0];
      SameWidth(c1, c2, Shift);
    case In(Method) =>
      assert w1[1] == w2[1];
      SameWidth(c1, c2, Method);
    case In(Offense) =>
      assert w1[2] == w2[2];
      SameWidth(c1, c2, Offense);
    case In(Block) =>
      assert w1[3] == w2[3];
      SameWidth(c1, c2, Block);
  }

  lemma SameWidth(c1: FilterCriteria, c2: FilterCriteria, d: Dimension)
    requires |c1.Selection(d)| > 0 && |c2.Selection(d)| > 0
    requires Width(c1.Selection(d)) == Width(c2.Selection(d))
    ensures Active(c1, In(d)) == Active(c2, In(d))
    ensures Active(c1, In(d)) ==> FilterSql(c1, In(d)) == FilterSql(c2, In(d))
  {
  }

  /** A group's text is its filter's condition when the filter is in force. */
  lemma GroupText(c: FilterCriteria, f: Filter)
    ensures SqlOf(Group(c, f)) == if Active(c, f) then FilterSql(c, f) else ""
  {
    if Active(c, f) {
      SingleClause(ClauseFor(c, f));
    }
  }

  // ---------------------------------------------------------------------
  // The builder: onSearch and applyMultiFilter

  /** The `StringBuilder` the search text grows in. */
  class SqlText {
    var text: string

    constructor (init: string)
      ensures text == init
    {
      text := init;
    }

    method Append(s: string)
      modifies this
      ensures text == old(text) + s
    {
      text := text + s;
    }
  }

  /** The `ArrayList<Object>` of positional parameters. */
  class ParamList {
    var items: seq<Param>

    constructor ()
      ensures items == []
    {
      items := [];
    }

    method Add(p: Param)
      modifies this
      ensures items == old(items) + [p]
    {
      items := items + [p];
    }

    method AddAll(ps: seq<Param>)
      modifies this
      ensures items == old(items) + ps
    {
      items := items + ps;
    }
  }

  /** `applyMultiFilter`: a list other than `["All"]` appends
      ` AND <column> IN (?,…,?)` with one marker per value, and appends the
      values themselves, in order, to the parameters. */
  method ApplyMultiFilter(sb: SqlText, params: ParamList, vals: seq<string>, column: string)
    requires |vals| > 0
    modifies sb, params
    ensures sb.text == old(sb.text) + InSql(vals, column)
    ensures params.items == old(params.items) + InParams(vals)
    ensures vals == [ALL] ==> sb.text == old(sb.text) && params.items == old(params.items)
    ensures vals != [ALL] ==> sb.text == old(sb.text) + InList(column, |vals|)
    ensures vals != [ALL] ==> params.items == old(params.items) + TextParams(vals)
  {
    RestrictsUnlessAll(vals);
    if |vals| > 1 || vals[0] != ALL {
      ghost var t0 := sb.text;
      var ph := MarkerList(|vals|);
      sb.Append(" AND ");
      sb.Append(column);
      sb.Append(" IN (");
      sb.Append(ph);
      sb.Append(")");
      Chain(t0, " AND ", column, " IN (", ph, ")");
      params.AddAll(TextParams(vals));
    }
  }

  /** Five appends in a row add their concatenation. */
  lemma Chain<T>(t: seq<T>, a: seq<T>, b: seq<T>, c: seq<T>, d: seq<T>, e: seq<T>)
    ensures t + a + b + c + d + e == t + (a + b + c + d + e)
  {
  }

  /** Appending step by step builds the same text as appending the joined steps. */
  lemma BuiltText<T>(base: seq<T>, f: seq<T>, t: seq<T>, s: seq<T>, m: seq<T>, o: seq<T>, k: seq<T>)
    ensures base + f + t + s + m + o + k == base + (f + t + s + m + o + k)
  {
  }

  /** One `if (date != null)` block of onSearch: a present bound appends its
      condition and binds the date as a timestamp. */
  method ApplyDateBound(sb: SqlText, params: ParamList, bound: Option<Date>, sql: string)
    modifies sb, params
    ensures sb.text == old(sb.text) + DateSql(bound, sql)
    ensures params.items == old(params.items) + DateParams(bound)
  {
    if bound.Some? {
      sb.Append(sql);
      params.Add(TimestampParam(bound.value.millis));
    }
  }

  /** The body of `onSearch` after the base query: append the two date
      bounds and the four `IN` lists, in that order, to the text and the
      parameters. What it adds is exactly the search's clauses. */
  method AppendFilters(sb: SqlText, params: ParamList, c: FilterCriteria)
    requires c.Searchable()
    modifies sb, params
    ensures sb.text == old(sb.text) + SqlOf(Clauses(c))
    ensures params.items == old(params.items) + SearchParams(c)
  {
    ghost var t0, p0 := sb.text, params.items;
    ApplyDateBound(sb, params, c.fromDate, FromDateSql);
    DateStep(c, FromDate, c.fromDate, FromDateSql);
    ApplyDateBound(sb, params, c.toDate, ToDateSql);
    DateStep(c, ToDate, c.toDate, ToDateSql);
    ApplyDimension(sb, params, c, Shift);
    ApplyDimension(sb, params, c, Method);
    ApplyDimension(sb, params, c, Offense);
    ApplyDimension(sb, params, c, Block);
    TextByGroup(c);
    ParamsByGroup(c);
    BuiltText(t0, SqlOf(Group(c, FromDate)), SqlOf(Group(c, ToDate)),
              SqlOf(Group(c, In(Shift))), SqlOf(Group(c, In(Method))),
              SqlOf(Group(c, In(Offense))), SqlOf(Group(c, In(Block))));
    BuiltText(p0, ParamsOf(Group(c, FromDate)), ParamsOf(Group(c, ToDate)),
              ParamsOf(Group(c, In(Shift))), ParamsOf(Group(c, In(Method))),
              ParamsOf(Group(c, In(Offense))), ParamsOf(Group(c, In(Block))));
  }

  /** One `applyMultiFilter(sb, params, c.getX(), "<column>")` call of onSearch. */
  method ApplyDimension(sb: SqlText, params: ParamList, c: FilterCriteria, d: Dimension)
    requires |c.Selection(d)| > 0
    modifies sb, params
    ensures sb.text == old(sb.text) + SqlOf(Group(c, In(d)))
    ensures params.items == old(params.items) + ParamsOf(Group(c, In(d)))
  {
    ApplyMultiFilter(sb, params, c.Selection(d), Column(d));
    InStep(c, d, c.Selection(d));
  }

  /** `onSearch`: read the panel's criteria, start from the base query and
      append the filters; the statement handed to `performSearch` is the
      specified search, prepared, with one parameter per marker. */
  method OnSearch(panel: Filters.FilterPanel) returns (st: Statement)
    requires panel.Valid()
    ensures st.prepared && WellBound(st)
    ensures st.sql == SearchSql(panel.GetCriteria())
    ensures st.params == SearchParams(panel.GetCriteria())
  {
    var c := panel.GetCriteria();
    panel.ValidIsSearchable();
    var sb := new SqlText(Base);
    var params := new ParamList();
    AppendFilters(sb, params, c);
    SearchWellBound(c);
    st := Statement(sb.text, params.items, true);
  }




}
