/** The lot ledger grid: a four-column tri-state sort record, a single
    inline-edit cursor, the page cursor and the row numbering. */
module LedgerGrid {
  import opened Wrappers
  import Pagination

  datatype SortKey = UniqueIdReverse | DateReverse | PolishDateReverse | HPHTDateReverse

  datatype Dir = Asc | Desc | Default

  /** The sort record sent with every ledger query. */
  type SortData = map<SortKey, Dir>

  const AllSortKeys: set<SortKey> := {UniqueIdReverse, DateReverse, PolishDateReverse, HPHTDateReverse}

  /** Unique id ascending, every other column unsorted. */
  const InitialSort: SortData := map[
    UniqueIdReverse := Asc, DateReverse := Default,
    PolishDateReverse := Default, HPHTDateReverse := Default]

  /** The columns whose direction is not `default`. */
  function ActiveKeys(s: SortData): set<SortKey> {
    set k | k in s && s[k] != Default
  }

  /** Every column present, and exactly one of them sorted. */
  predicate WellFormed(s: SortData) {
    s.Keys == AllSortKeys && |ActiveKeys(s)| == 1
  }

  /** The record built by the key loop: `value` for `field`, `default` for
      every other key of the previous record. */
  function Assigned(keys: set<SortKey>, field: SortKey, value: Dir): (r: SortData)
    ensures r.Keys == keys
    ensures field in keys ==> r[field] == value
    ensures forall k :: k in keys && k != field ==> r[k] == Default
  {
    map k | k in keys :: if k == field then value else Default
  }

  /** The sort record after `handleSort(field, value)`. The reset branch's
      guard reads a property named `field`, which the record never has, so
      asking for `default` always restores the initial record. */
  function SortResult(prev: SortData, field: SortKey, value: Dir): (r: SortData)
    ensures value == Default ==> r == InitialSort
    ensures value != Default ==> r.Keys == prev.Keys
    ensures value != Default && field in prev ==> r[field] == value
    ensures value != Default ==> forall k :: k in r && k != field ==> r[k] == Default
  {
    if value == Default then InitialSort else Assigned(prev.Keys, field, value)
  }

  lemma InitialSortWellFormed()
    ensures ActiveKeys(InitialSort) == {UniqueIdReverse}
    ensures WellFormed(InitialSort)
  {
    assert forall k :: k in ActiveKeys(InitialSort) ==> k == UniqueIdReverse;
  }

  /** Sorting by a column with a real direction leaves that column as the only
      sorted one. */
  lemma AssignedActive(keys: set<SortKey>, field: SortKey, value: Dir)
    requires field in keys && value != Default
    ensures ActiveKeys(Assigned(keys, field, value)) == {field}
  {
    var r := Assigned(keys, field, value);
    assert field in ActiveKeys(r);
    assert forall k :: k in ActiveKeys(r) ==> k == field;
  }

  /** Every sort request keeps exactly one column sorted. */
  lemma SortResultWellFormed(prev: SortData, field: SortKey, value: Dir)
    requires WellFormed(prev)
    ensures WellFormed(SortResult(prev, field, value))
    ensures value != Default ==> ActiveKeys(SortResult(prev, field, value)) == {field}
    ensures value != Default ==> SortResult(prev, field, value)[field] == value
  {
    InitialSortWellFormed();
    if value != Default {
      AssignedActive(prev.Keys, field, value);
    }
  }

  /** Repeating a sort request changes nothing further. */
  lemma SortResultIdempotent(prev: SortData, field: SortKey, value: Dir)
    ensures SortResult(SortResult(prev, field, value), field, value) == SortResult(prev, field, value)
  {
  }

  /** The direction requested by a column's sort icon: ascending flips to
      descending and back, and an unsorted column starts ascending. */
  function IconClick(d: Dir): (r: Dir)
    ensures r != Default
    ensures r != d
    ensures d == Default ==> r == Asc
  {
    match d
    case Asc => Desc
    case Desc => Asc
    case Default => Asc
  }

  /** Two clicks on a sorted column's icon restore its direction. */
  lemma IconClickTwice(d: Dir)
    requires d != Default
    ensures IconClick(IconClick(d)) == d
  {
  }

  /** The inline-edit cursor: the lot id, the field name and the value typed. */
  datatype BoxValue = BoxValue(id: string, field: string, currentValue: string)

  const EmptyBox := BoxValue("", "", "")

  /** A single-field lot update `{[field]: value}` for one lot. */
  datatype LotUpdate = LotUpdate(id: string, field: string, value: string)

  const DateFields: seq<string> := ["polishDate", "HPHTDate", "date"]

  /** The number shown in a row's first column. On page `page` of `record`
      rows, a row's number lies in (page-1)*record+1 .. page*record. */
  function RowNumber(page: int, record: int, index: int): (n: int)
    ensures page >= 1 && 0 <= index < record ==> (page - 1) * record < n <= page * record
  {
    assert page * record == (page - 1) * record + record;
    (page - 1) * record + (index + 1)
  }

  /** Rows of a page are numbered consecutively, and the next page continues
      from one past this page's last row. */
  lemma RowNumberContiguous(page: int, record: int, index: int)
    requires page >= 1 && record >= 1 && 0 <= index < record
    ensures RowNumber(page, record, index + 1) == RowNumber(page, record, index) + 1
    ensures RowNumber(page + 1, record, 0) == RowNumber(page, record, record - 1) + 1
  {
    assert page * record == (page - 1) * record + record;
  }

  lemma MulMonotone(a: int, b: int, r: int)
    requires a <= b && r >= 0
    ensures a * r <= b * r
  {
    assert b * r - a * r == (b - a) * r;
  }

  /** Distinct rows on distinct pages, or at distinct positions, never share
      a number. */
  lemma RowNumberInjective(p1: int, i1: int, p2: int, i2: int, record: int)
    requires record >= 1 && p1 >= 1 && p2 >= 1
    requires 0 <= i1 < record && 0 <= i2 < record
    requires RowNumber(p1, record, i1) == RowNumber(p2, record, i2)
    ensures p1 == p2 && i1 == i2
  {
    RowNumberContiguous(p1, record, i1);
    RowNumberContiguous(p2, record, i2);
    if p1 < p2 {
      MulMonotone(p1, p2 - 1, record);
    } else if p2 < p1 {
      MulMonotone(p2, p1 - 1, record);
    }
  }

  /** The grid's own previous arrow: guarded by `page > 1`, then clamped at
      1. It moves exactly like the shared pager's previous button. */
  function GridPrev(page: int): (r: int)
    ensures r == Pagination.Prev(page)
  {
    if page > 1 then (if page - 1 > 1 then page - 1 else 1) else page
  }

  /** The grid's own next arrow: guarded by `page < totalPages`, then guarded
      again inside the updater. It moves exactly like the shared pager's next
      button. */
  function GridNext(page: int, totalPages: Option<int>): (r: int)
    ensures r == Pagination.Next(page, totalPages)
  {
    if Pagination.Below(page, totalPages) then
      (if Pagination.Below(page, totalPages) then page + 1 else page)
    else page
  }

  /** The key loop of `handleSort`: visits every key of the previous record
      once, writing `value` for `field` and `default` for the rest. */
  method BuildSort(prev: SortData, field: SortKey, value: Dir) returns (newSort: SortData)
    ensures newSort == Assigned(prev.Keys, field, value)
  {
    newSort := map[];
    var todo := prev.Keys;
    while todo != {}
      invariant todo <= prev.Keys
      invariant newSort.Keys == prev.Keys - todo
      invariant forall k :: k in newSort ==> newSort[k] == (if k == field then value else Default)
      decreases todo
    {
      var key :| key in todo;
      newSort := newSort[key := if key == field then value else Default];
      todo := todo - {key};
    }
  }

  class Grid {
    var sortData: SortData
    var box: BoxValue
    var page: int

    ghost predicate Valid()
      reads this
    {
      WellFormed(sortData) && page >= 1
    }

    constructor ()
      ensures Valid()
      ensures sortData == InitialSort && box == EmptyBox && page == 1
    {
      sortData := InitialSort;
      box := EmptyBox;
      page := 1;
      InitialSortWellFormed();
    }

    /** `handleSort(field, value)`. */
    method HandleSort(field: SortKey, value: Dir)
      requires Valid()
      modifies this
      ensures Valid()
      ensures sortData == SortResult(old(sortData), field, value)
      ensures box == old(box) && page == old(page)
    {
      SortResultWellFormed(sortData, field, value);
      if value == Default {
        sortData := InitialSort;
      } else {
        sortData := BuildSort(sortData, field, value);
      }
    }

    /** A click on a column's sort icon. */
    method ClickSortIcon(key: SortKey)
      requires Valid()
      modifies this
      ensures Valid()
      ensures ActiveKeys(sortData) == {key}
      ensures sortData[key] == IconClick(old(sortData)[key])
      ensures box == old(box) && page == old(page)
    {
      HandleSort(key, IconClick(sortData[key]));
      SortResultWellFormed(old(sortData), key, IconClick(old(sortData)[key]));
    }

    /** A double click on a cell opens the single editor on that cell; a
        non-empty value of a date field is shown as its calendar day. */
    method DoubleClick(id: string, field: string, currentValue: string, isoDay: string -> string)
      modifies this
      ensures box.id == id && box.field == field
      ensures box.currentValue ==
        (if field in DateFields && currentValue != "" then isoDay(currentValue) else currentValue)
      ensures sortData == old(sortData) && page == old(page)
    {
      var formattedValue := currentValue;
      if field in DateFields && currentValue != "" {
        formattedValue := isoDay(currentValue);
      }
      box := BoxValue(id, field, formattedValue);
    }

    /** Typing into the open editor. */
    method EditValue(v: string)
      modifies this
      ensures box == old(box).(currentValue := v)
      ensures sortData == old(sortData) && page == old(page)
    {
      box := box.(currentValue := v);
    }

    /** A key press: Enter on an open editor emits one update for its cell and
        closes the editor; anything else changes nothing. */
    method PressKey(key: string) returns (update: Option<LotUpdate>)
      modifies this
      ensures key == "Enter" && old(box).id != "" && old(box).field != "" ==>
        update == Some(LotUpdate(old(box).id, old(box).field, old(box).currentValue)) && box == EmptyBox
      ensures !(key == "Enter" && old(box).id != "" && old(box).field != "") ==>
        update == None && box == old(box)
      ensures sortData == old(sortData) && page == old(page)
    {
      if key == "Enter" && box.id != "" && box.field != "" {
        update := Some(LotUpdate(box.id, box.field, box.currentValue));
        box := EmptyBox;
      } else {
        update := None;
      }
    }

    /** A mouse-down outside the mounted editor discards the edit. */
    method ClickOutside(editorMounted: bool, targetInEditor: bool)
      modifies this
      ensures box == (if editorMounted && !targetInEditor then EmptyBox else old(box))
      ensures sortData == old(sortData) && page == old(page)
    {
      if editorMounted && !targetInEditor {
        box := EmptyBox;
      }
    }

    method PrevPage()
      requires Valid()
      modifies this
      ensures Valid()
      ensures page == GridPrev(old(page))
      ensures sortData == old(sortData) && box == old(box)
    {
      if page > 1 {
        page := if page - 1 > 1 then page - 1 else 1;
      }
    }

    method NextPage(totalPages: Option<int>)
      requires Valid()
      modifies this
      ensures Valid()
      ensures page == GridNext(old(page), totalPages)
      ensures sortData == old(sortData) && box == old(box)
    {
      if Pagination.Below(page, totalPages) {
        page := if Pagination.Below(page, totalPages) then page + 1 else page;
      }
    }
  }

  /** Opening an editor and pressing Enter twice emits exactly one update. */
  method EnterTwiceEmitsOnce(id: string, v: string) returns (first: Option<LotUpdate>, second: Option<LotUpdate>)
    requires id != ""
    ensures first == Some(LotUpdate(id, "remark", v))
    ensures second == None
  {
    var g := new Grid();
    g.DoubleClick(id, "remark", v, s => s);
    first := g.PressKey("Enter");
    second := g.PressKey("Enter");
  }
}
