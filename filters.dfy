/** The filter bar's selection state (`FilterPanel`): four selection lists,
    the multi-select dialogs' OK handler that rewrites them, and Clear. */
module Filters {
  import opened Criteria

  /** One check box of a multi-select dialog: its label and whether it is ticked. */
  datatype CheckBox = CheckBox(text: string, selected: bool)

  /** The labels of the ticked boxes, in box order. */
  function Checked(boxes: seq<CheckBox>): (labels: seq<string>)
    ensures |labels| <= |boxes|
  {
    if boxes == [] then []
    else
      var last := boxes[|boxes| - 1];
      Checked(boxes[..|boxes| - 1]) + (if last.selected then [last.text] else [])
  }

  /** Reference definition: the positions of the ticked boxes, ascending. */
  function TickedIndices(boxes: seq<CheckBox>): (ix: seq<nat>)
    ensures forall j :: 0 <= j < |ix| ==> ix[j] < |boxes| && boxes[ix[j]].selected
    ensures forall j, k :: 0 <= j < k < |ix| ==> ix[j] < ix[k]
    ensures forall i :: 0 <= i < |boxes| && boxes[i].selected ==> i in ix
  {
    if boxes == [] then []
    else
      var n := |boxes| - 1;
      TickedIndices(boxes[..n]) + (if boxes[n].selected then [n] else [])
  }

  /** `Checked` lists exactly the ticked boxes' labels, in box order. */
  lemma {:induction false} CheckedInBoxOrder(boxes: seq<CheckBox>)
    ensures |Checked(boxes)| == |TickedIndices(boxes)|
    ensures forall j :: 0 <= j < |Checked(boxes)| ==>
              Checked(boxes)[j] == boxes[TickedIndices(boxes)[j]].text
  {
    if boxes != [] {
      var n := |boxes| - 1;
      CheckedInBoxOrder(boxes[..n]);
    }
  }

  /** The list an OK click leaves behind: the ticked labels, or `["All"]`
      when nothing is ticked. It is never empty. */
  function OkSelection(boxes: seq<CheckBox>): (sel: seq<string>)
    ensures |sel| > 0
    ensures sel == [ALL] || sel == Checked(boxes)
  {
    if Checked(boxes) == [] then [ALL] else Checked(boxes)
  }

  /** A `java.util.ArrayList<String>` selection list, shared by reference. */
  class SelectionList {
    var items: seq<string>

    /** `new ArrayList<>(Collections.singletonList(x))`. */
    constructor Singleton(x: string)
      ensures items == [x]
    {
      items := [x];
    }

    method Clear()
      modifies this
      ensures items == []
    {
      items := [];
    }

    method Add(x: string)
      modifies this
      ensures items == old(items) + [x]
    {
      items := items + [x];
    }
  }

  class FilterPanel {
    var fromDate: Date
    var toDate: Date
    var selectedShifts: SelectionList
    var selectedMethods: SelectionList
    var selectedOffenses: SelectionList
    var selectedBlocks: SelectionList
    /** The list object each multi-select button's OK handler captured when
        the button was created. */
    const shiftDialog: SelectionList
    const methodDialog: SelectionList
    const offenseDialog: SelectionList
    const blockDialog: SelectionList

    /** The list field `getCriteria` reads for a dimension. */
    function Selected(d: Dimension): SelectionList
      reads this
    {
      match d
      case Shift => selectedShifts
      case Method => selectedMethods
      case Offense => selectedOffenses
      case Block => selectedBlocks
    }

    /** The list a dimension's OK handler edits. */
    function DialogList(d: Dimension): SelectionList
    {
      match d
      case Shift => shiftDialog
      case Method => methodDialog
      case Offense => offenseDialog
      case Block => blockDialog
    }

    ghost function Lists(): set<SelectionList>
      reads this
    {
      {selectedShifts, selectedMethods, selectedOffenses, selectedBlocks,
       shiftDialog, methodDialog, offenseDialog, blockDialog}
    }

    /** Every selection list is non-empty, and no two dimensions share a list. */
    ghost predicate Valid()
      reads this, Lists()
    {
      |selectedShifts.items| > 0 && |selectedMethods.items| > 0 &&
      |selectedOffenses.items| > 0 && |selectedBlocks.items| > 0 &&
      |shiftDialog.items| > 0 && |methodDialog.items| > 0 &&
      |offenseDialog.items| > 0 && |blockDialog.items| > 0 &&
      Distinct(selectedShifts, selectedMethods, selectedOffenses, selectedBlocks) &&
      Distinct(shiftDialog, methodDialog, offenseDialog, blockDialog)
    }

    /** Every OK handler still edits the very list `getCriteria` reads. */
    ghost predicate Linked()
      reads this
    {
      forall d :: DialogList(d) == Selected(d)
    }

    /** `getCriteria`: the spinner dates (never null) and the four lists. */
    function GetCriteria(): (c: FilterCriteria)
      reads this, selectedShifts, selectedMethods, selectedOffenses, selectedBlocks
      ensures forall d :: c.Selection(d) == Selected(d).items
      ensures c.fromDate == Some(fromDate) && c.toDate == Some(toDate)
    {
      FilterCriteria(Some(fromDate), Some(toDate),
        selectedShifts.items, selectedMethods.items,
        selectedOffenses.items, selectedBlocks.items)
    }

    /** A valid panel always yields criteria the search builder accepts. */
    lemma ValidIsSearchable()
      requires Valid()
      ensures GetCriteria().Searchable()
    {
    }

    /** The constructor: every list starts as `["All"]`, each button's handler
        is given the panel's own list, and the dates are today and a week
        earlier (the clock and calendar arithmetic are parameters). */
    constructor (weekAgo: Date, today: Date)
      ensures Valid() && Linked()
      ensures GetCriteria() == Defaults(weekAgo, today)
      ensures fresh(Lists())
    {
      var s := new SelectionList.Singleton(ALL);
      var m := new SelectionList.Singleton(ALL);
      var o := new SelectionList.Singleton(ALL);
      var b := new SelectionList.Singleton(ALL);
      selectedShifts, selectedMethods, selectedOffenses, selectedBlocks := s, m, o, b;
      shiftDialog, methodDialog, offenseDialog, blockDialog := s, m, o, b;
      toDate := today;
      fromDate := weekAgo;
    }

    /** The OK handler of dimension `d`'s dialog, run on the list it
        captured. Every dimension whose field is that list sees the new
        selection; the others keep theirs. */
    method OnOk(d: Dimension, boxes: seq<CheckBox>)
      requires Valid()
      modifies DialogList(d)
      ensures Valid()
      ensures DialogList(d).items == OkSelection(boxes)
      ensures forall e :: GetCriteria().Selection(e) ==
                (if Selected(e) == DialogList(d) then OkSelection(boxes)
                 else old(GetCriteria()).Selection(e))
    {
      ApplySelection(DialogList(d), boxes);
    }

    /** `resetFilters` as written: it points the four fields at NEW lists,
        so the buttons' handlers are left holding the old ones. */
    method ResetFilters(weekAgo: Date, today: Date)
      requires Valid()
      modifies this
      ensures Valid()
      ensures GetCriteria() == Defaults(weekAgo, today)
      ensures forall d :: fresh(Selected(d))
    {
      toDate := today;
      fromDate := weekAgo;
      selectedShifts := new SelectionList.Singleton(ALL);
      selectedMethods := new SelectionList.Singleton(ALL);
      selectedOffenses := new SelectionList.Singleton(ALL);
      selectedBlocks := new SelectionList.Singleton(ALL);
    }

    /** `resetFilters` corrected: restore `["All"]` inside the existing lists,
        so every handler keeps editing the list `getCriteria` reads. */
    method ResetFiltersInPlace(weekAgo: Date, today: Date)
      requires Valid()
      modifies this, Lists()
      ensures Valid()
      ensures GetCriteria() == Defaults(weekAgo, today)
      ensures forall d :: Selected(d) == old(Selected(d))
      ensures old(Linked()) ==> Linked()
    {
      toDate := today;
      fromDate := weekAgo;
      ResetList(selectedShifts);
      ResetList(selectedMethods);
      ResetList(selectedOffenses);
      ResetList(selectedBlocks);
    }
  }

  /** Four different list objects. */
  predicate Distinct(a: SelectionList, b: SelectionList, c: SelectionList, d: SelectionList)
  {
    a != b && a != c && a != d && b != c && b != d && c != d
  }

  /** The body of a multi-select dialog's OK handler: clear the list, add
      each ticked label in box order, and fall back to `["All"]` when none is
      ticked. */
  method ApplySelection(list: SelectionList, boxes: seq<CheckBox>)
    modifies list
    ensures list.items == OkSelection(boxes)
  {
    list.Clear();
    for i := 0 to |boxes|
      invariant list.items == Checked(boxes[..i])
    {
      assert boxes[..i + 1][..i] == boxes[..i];
      if boxes[i].selected {
        list.Add(boxes[i].text);
      }
    }
    assert boxes[..|boxes|] == boxes;
    if |list.items| == 0 {
      list.Add(ALL);
    }
  }

  /** `list.clear(); list.add("All")`. */
  method ResetList(list: SelectionList)
    modifies list
    ensures list.items == [ALL]
  {
    list.Clear();
    list.Add(ALL);
  }

  /** Clear, then tick some shifts and press OK, with the panel as written:
      the dialog's list holds the new selection, but the criteria a search
      reads still say "All" for every dimension. */
  method SelectAfterReset(weekAgo: Date, today: Date, boxes: seq<CheckBox>)
    returns (dialog: seq<string>, c: FilterCriteria)
    ensures dialog == OkSelection(boxes)
    ensures c == Defaults(weekAgo, today)
  {
    var panel := new FilterPanel(weekAgo, today);
    var handlerList := panel.DialogList(Shift);
    panel.ResetFilters(weekAgo, today);
    assert forall e :: panel.Selected(e) != handlerList;
    var cleared := panel.GetCriteria();
    panel.OnOk(Shift, boxes);
    dialog := panel.DialogList(Shift).items;
    c := panel.GetCriteria();
    assert c.Selection(Shift) == cleared.Selection(Shift);
    assert c.Selection(Method) == cleared.Selection(Method);
    assert c.Selection(Offense) == cleared.Selection(Offense);
    assert c.Selection(Block) == cleared.Selection(Block);
  }

  /** One ticked shift after Clear is lost from the search criteria. */
  lemma SelectAfterResetLosesSelection()
    ensures var boxes := [CheckBox("DAY", true)];
            OkSelection(boxes) == ["DAY"] && [ALL] != ["DAY"]
  {
    var boxes := [CheckBox("DAY", true)];
    assert Checked(boxes) == Checked([]) + ["DAY"];
    assert ALL[0] != "DAY"[0];
  }

  /** The same steps with the corrected Clear: the search criteria carry the
      ticked shifts and nothing else changes. */
  method SelectAfterResetInPlace(weekAgo: Date, today: Date, boxes: seq<CheckBox>)
    returns (dialog: seq<string>, c: FilterCriteria)
    ensures dialog == OkSelection(boxes)
    ensures c == Defaults(weekAgo, today).(shifts := OkSelection(boxes))
  {
    var panel := new FilterPanel(weekAgo, today);
    panel.ResetFiltersInPlace(weekAgo, today);
    panel.OnOk(Shift, boxes);
    dialog := panel.DialogList(Shift).items;
    c := panel.GetCriteria();
  }
}
