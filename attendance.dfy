/** The monthly attendance grid: one row per employee and one column per day
    of the selected month, a single selected cell whose status picker saves
    one mark, and a bulk "mark all present" for today. */
module Attendance {
  import opened Wrappers

  predicate IsLeap(y: int) {
    y % 4 == 0 && (y % 100 != 0 || y % 400 == 0)
  }

  /** The number of days of the 0-based month `month` of year `year`
      (day 0 of the following month is the last day of this one). */
  function DaysInMonth(year: int, month: int): (n: int)
    requires 0 <= month < 12
    ensures 28 <= n <= 31
    ensures n == 28 <==> month == 1 && !IsLeap(year)
    ensures n == 29 <==> month == 1 && IsLeap(year)
    ensures n == 30 <==> month in {3, 5, 8, 10}
  {
    if month == 1 then (if IsLeap(year) then 29 else 28)
    else if month in {3, 5, 8, 10} then 30
    else 31
  }

  /** The twelve months add up to the length of the year. */
  lemma YearLength(year: int)
    ensures DaysInMonth(year, 0) + DaysInMonth(year, 1) + DaysInMonth(year, 2) + DaysInMonth(year, 3)
          + DaysInMonth(year, 4) + DaysInMonth(year, 5) + DaysInMonth(year, 6) + DaysInMonth(year, 7)
          + DaysInMonth(year, 8) + DaysInMonth(year, 9) + DaysInMonth(year, 10) + DaysInMonth(year, 11)
          == if IsLeap(year) then 366 else 365
  {
  }

  /** The year picker's options: the eleven years around `year`, ascending. */
  method Years(year: int) returns (arr: seq<int>)
    ensures |arr| == 11
    ensures forall i :: 0 <= i < 11 ==> arr[i] == year - 5 + i
    ensures year in arr
  {
    arr := [];
    var y := year - 5;
    while y <= year + 5
      invariant year - 5 <= y <= year + 6
      invariant |arr| == y - (year - 5)
      invariant forall i :: 0 <= i < |arr| ==> arr[i] == year - 5 + i
      decreases year + 5 - y
    {
      arr := arr + [y];
      y := y + 1;
    }
    assert arr[5] == year;
  }

  /** A saved mark as listed for an employee: its day of the month and its
      status. */
  datatype Mark = Mark(day: int, status: string)

  /** The day-to-status table after writing the marks in order: it has an
      entry exactly for the days that have a mark. */
  function StatusMap(marks: seq<Mark>): (m: map<int, string>)
    ensures forall d :: d in m <==> exists i :: 0 <= i < |marks| && marks[i].day == d
    decreases |marks|
  {
    if marks == [] then map[]
    else StatusMap(marks[..|marks| - 1])[marks[|marks| - 1].day := marks[|marks| - 1].status]
  }

  /** Mark `i` is the last mark for day `d`. */
  ghost predicate IsLastMark(marks: seq<Mark>, i: int, d: int) {
    0 <= i < |marks| && marks[i].day == d && forall j :: i < j < |marks| ==> marks[j].day != d
  }

  /** Each entry of the table is the status of the last mark for its day. */
  lemma {:induction false} StatusMapSpec(marks: seq<Mark>)
    ensures forall d :: d in StatusMap(marks) ==>
      exists i :: IsLastMark(marks, i, d) && StatusMap(marks)[d] == marks[i].status
    decreases |marks|
  {
    if marks != [] {
      var init := marks[..|marks| - 1];
      var last := marks[|marks| - 1];
      StatusMapSpec(init);
      assert forall i :: 0 <= i < |init| ==> init[i] == marks[i];
      forall d | d in StatusMap(marks)
        ensures exists i :: IsLastMark(marks, i, d) && StatusMap(marks)[d] == marks[i].status
      {
        if d == last.day {
          assert IsLastMark(marks, |marks| - 1, d);
        } else {
          var i :| IsLastMark(init, i, d) && StatusMap(init)[d] == init[i].status;
          assert IsLastMark(marks, i, d);
        }
      }
    }
  }

  /** `mapAttendance`: writes each mark's status under its day, in order. */
  method MapAttendance(marks: seq<Mark>) returns (m: map<int, string>)
    ensures m == StatusMap(marks)
  {
    m := map[];
    var k := 0;
    while k < |marks|
      invariant 0 <= k <= |marks|
      invariant m == StatusMap(marks[..k])
    {
      assert marks[..k + 1][..k] == marks[..k];
      m := m[marks[k].day := marks[k].status];
      k := k + 1;
    }
    assert marks[..k] == marks;
  }

  /** The letter shown in a cell that is not being edited. */
  function StatusLetter(value: Option<string>): (r: string)
    ensures value == Some("Present") <==> r == "P"
    ensures value == Some("Absent") <==> r == "A"
    ensures value == Some("Halfday") <==> r == "H"
    ensures r in {"P", "A", "H", "-"}
  {
    if value == Some("Present") then "P"
    else if value == Some("Absent") then "A"
    else if value == Some("Halfday") then "H"
    else "-"
  }

  /** A calendar day; `month` is 0-based as in the picker. */
  datatype CalDate = CalDate(year: int, month: int, day: int)

  /** A later calendar day. */
  predicate After(a: CalDate, b: CalDate) {
    a.year > b.year
    || (a.year == b.year && (a.month > b.month || (a.month == b.month && a.day > b.day)))
  }

  /** A day is in the future when it comes after today: its midnight is past
      the current instant exactly then. */
  predicate IsFuture(cell: CalDate, today: CalDate)
    ensures IsFuture(cell, today) ==> cell != today && !After(today, cell)
    ensures !IsFuture(cell, today) && cell != today ==> After(today, cell)
  {
    After(cell, today)
  }

  lemma AfterIsStrictOrder(a: CalDate, b: CalDate, c: CalDate)
    ensures !After(a, a)
    ensures After(a, b) ==> !After(b, a)
    ensures After(a, b) && After(b, c) ==> After(a, c)
    ensures a != b ==> After(a, b) || After(b, a)
  {
  }

  predicate ValidDate(d: CalDate) {
    0 <= d.month < 12 && 1 <= d.day <= DaysInMonth(d.year, d.month)
  }

  /** The calendar day `new Date(year, month, day)` denotes for a day of
      the month up to 31: a day past the end of a shorter month carries into
      the next month. */
  function Rollover(year: int, month: int, day: int): (r: CalDate)
    requires 0 <= month < 12 && 1 <= day <= 31
    ensures ValidDate(r)
    ensures day <= DaysInMonth(year, month) ==> r == CalDate(year, month, day)
    ensures day > DaysInMonth(year, month) ==>
      r.day == day - DaysInMonth(year, month)
      && r == (if month == 11 then CalDate(year + 1, 0, r.day) else CalDate(year, month + 1, r.day))
  {
    var n := DaysInMonth(year, month);
    if day <= n then CalDate(year, month, day)
    else if month == 11 then CalDate(year + 1, 0, day - n)
    else CalDate(year, month + 1, day - n)
  }

  /** A bulk save request for one employee. */
  datatype Payload = Payload(employeeId: string, date: CalDate, status: string)

  /** `markAllPresent`: one "Present" save per listed employee, in list
      order, dated today's day of the month within the displayed month. */
  method MarkAllPresent(employeeIds: seq<string>, year: int, month: int, todayDate: int)
    returns (sent: seq<Payload>)
    requires 0 <= month < 12 && 1 <= todayDate <= 31
    ensures |sent| == |employeeIds|
    ensures forall i :: 0 <= i < |sent| ==>
      sent[i] == Payload(employeeIds[i], Rollover(year, month, todayDate), "Present")
  {
    sent := [];
    for k := 0 to |employeeIds|
      invariant |sent| == k
      invariant forall i :: 0 <= i < k ==>
        sent[i] == Payload(employeeIds[i], Rollover(year, month, todayDate), "Present")
    {
      sent := sent + [Payload(employeeIds[k], Rollover(year, month, todayDate), "Present")];
    }
  }

  /** Viewing February 2026 on the 31st of a month, the bulk marks are dated
      3 March 2026, not a day of February. */
  lemma MarkAllPresentLeavesShortMonth()
    ensures Rollover(2026, 1, 31) == CalDate(2026, 2, 3)
  {
  }

  /** The selected cell: an employee, a day and the status being chosen. */
  datatype Cell = Cell(employeeId: Option<string>, date: Option<CalDate>, status: string)

  const NoCell := Cell(None, None, "")

  class Grid {
    var year: int
    var month: int
    var selected: Cell

    ghost predicate Valid()
      reads this
    {
      0 <= month < 12
    }

    constructor (year: int, month: int)
      requires 0 <= month < 12
      ensures Valid()
      ensures this.year == year && this.month == month && selected == NoCell
    {
      this.year := year;
      this.month := month;
      selected := NoCell;
    }

    /** The month picker; the selected cell is kept. */
    method SetMonth(m: int)
      requires 0 <= m < 12
      modifies this`month
      ensures Valid() && month == m
    {
      month := m;
    }

    method SetYear(y: int)
      modifies this`year
      ensures year == y
    {
      year := y;
    }

    /** `isActive`: the cell's employee is the selected one and its day of
        the month is the selected day; the month and year of the selection
        are not compared. An active cell shows the status picker only when it
        is not in the future (`PickerShown`). */
    predicate IsActive(employeeId: string, day: int)
      reads this
      ensures IsActive(employeeId, day) ==> selected != NoCell && selected.employeeId == Some(employeeId)
    {
      selected.employeeId == Some(employeeId) && selected.date.Some? && selected.date.value.day == day
    }

    /** The status picker is mounted in a cell of the displayed month: the
        future test comes first and shows "-", and only a non-future active
        cell renders the select. */
    predicate PickerShown(employeeId: string, day: int, today: CalDate)
      reads this
      ensures PickerShown(employeeId, day, today) ==>
        IsActive(employeeId, day) && (CalDate(year, month, day) == today || After(today, CalDate(year, month, day)))
    {
      !IsFuture(CalDate(year, month, day), today) && IsActive(employeeId, day)
    }

    /** A click on a day cell: a future day ignores it; any other day becomes
        the selected cell with no status chosen. */
    method SelectCell(day: int, employeeId: string, today: CalDate)
      requires Valid() && 1 <= day <= DaysInMonth(year, month)
      modifies this`selected
      ensures IsFuture(CalDate(year, month, day), today) ==> selected == old(selected)
      ensures !IsFuture(CalDate(year, month, day), today) ==>
        selected == Cell(Some(employeeId), Some(CalDate(year, month, day)), "")
        && IsActive(employeeId, day)
    {
      if !IsFuture(CalDate(year, month, day), today) {
        selected := Cell(Some(employeeId), Some(CalDate(year, month, day)), "");
      }
    }

    /** Choosing a status in the picker: the choice is recorded, and it is
        sent only when an employee, a day and a status are all present. */
    method ChooseStatus(status: string) returns (req: Option<Payload>)
      modifies this`selected
      ensures selected == old(selected).(status := status)
      ensures req.Some? <==> old(selected).employeeId.Some? && old(selected).employeeId.value != ""
                             && old(selected).date.Some? && status != ""
      ensures req.Some? ==>
        req.value == Payload(old(selected).employeeId.value, old(selected).date.value, status)
    {
      selected := selected.(status := status);
      if selected.employeeId.None? || selected.employeeId.value == "" || selected.date.None? || status == "" {
        return None;
      }
      req := Some(Payload(selected.employeeId.value, selected.date.value, status));
    }

    method SaveSucceeded()
      modifies this`selected
      ensures selected == NoCell
    {
      selected := NoCell;
    }

    /** A mouse-down outside the mounted picker clears the selection. */
    method ClickOutside(pickerMounted: bool, targetInPicker: bool)
      modifies this`selected
      ensures selected == (if pickerMounted && !targetInPicker then NoCell else old(selected))
    {
      if pickerMounted && !targetInPicker {
        selected := NoCell;
      }
    }
  }

  /** Selecting a past day and choosing a status sends exactly that mark; a
      future day cannot be selected, so choosing a status then sends nothing. */
  method SelectThenChoose(employeeId: string, day: int, today: CalDate, status: string)
    returns (past: Option<Payload>, future: Option<Payload>)
    requires employeeId != "" && status != ""
    requires 0 <= today.month < 12 && 1 <= day <= DaysInMonth(today.year, today.month) && day <= today.day
    ensures past == Some(Payload(employeeId, CalDate(today.year, today.month, day), status))
    ensures future == None
  {
    var g := new Grid(today.year, today.month);
    g.SelectCell(day, employeeId, today);
    past := g.ChooseStatus(status);
    var h := new Grid(today.year + 1, today.month);
    h.SelectCell(1, employeeId, today);
    future := h.ChooseStatus(status);
  }

  /** The picker follows the selected day of the month, not the selected
      date: after switching back to an earlier month, whose cells are all
      past, the same day's cell of that employee shows the picker, and
      choosing a status there saves the date picked in the later month. */
  method ActiveAfterMonthChange(employeeId: string, day: int, today: CalDate, status: string)
    returns (shown: bool, req: Option<Payload>)
    requires employeeId != "" && status != ""
    requires 1 <= today.month < 12 && 1 <= day <= 28 && day <= today.day
    ensures shown
    ensures req == Some(Payload(employeeId, CalDate(today.year, today.month, day), status))
  {
    var g := new Grid(today.year, today.month);
    g.SelectCell(day, employeeId, today);
    g.SetMonth(today.month - 1);
    shown := g.PickerShown(employeeId, day, today);
    req := g.ChooseStatus(status);
  }
}
