/** The reference-data management pages (employees, colors, statuses,
    clarities, shapes, parties, payment statuses): one page state machine
    with a name form in a modal, per-row activation toggles, a delete
    confirmation, a status filter and a pager. The pages come in two
    variants that differ in when the modal closes and in whether toggles are
    guarded by an in-flight slot. */
module RefDataPage {
  import opened Wrappers
  import opened JsText
  import Pagination
  import LedgerGrid

  /** Employees, colors and statuses close the modal only when the server
      confirms, and disable a row's toggle while an update for that row is in
      flight. Clarities, shapes, parties and payment statuses close the modal
      as soon as the request is sent and never disable a toggle. */
  datatype Variant = CloseOnSuccess | CloseOnSubmit

  datatype RefPage = Employee | Color | Status | Clarity | Shape | PartyList | PaymentStatus

  function VariantOf(p: RefPage): (v: Variant)
    ensures v == CloseOnSuccess <==> p in {Employee, Color, Status}
  {
    match p
    case Employee => CloseOnSuccess
    case Color => CloseOnSuccess
    case Status => CloseOnSuccess
    case _ => CloseOnSubmit
  }

  datatype StatusFilter = All | Active | Deactive

  /** A listed record. */
  datatype Row = Row(id: string, name: string, active: bool)

  /** The requests a page emits. */
  datatype Request =
    | Create(name: string, active: bool)
    | Rename(id: string, name: string)
    | SetActive(id: string, active: bool)
    | Delete(id: string)

  /** The delete-confirmation slot; an empty id means the dialog is closed. */
  datatype DeleteTarget = DeleteTarget(name: string, id: string)

  const NoTarget := DeleteTarget("", "")

  /** JavaScript truthiness of the nullable edit id: only `null` and the
      empty string are falsy. */
  predicate Truthy(editId: Option<string>)
    ensures !Truthy(editId) <==> editId == None || editId == Some("")
  {
    editId.Some? && editId.value != ""
  }

  /** The request the name form sends: nothing for a blank name, a rename of
      the record being edited, or a new active record. The guard
      `!name.trim()` is written as `Blank(name)`, which `TrimEmptyIffBlank`
      proves to be the same test. */
  function SubmitRequest(name: string, editId: Option<string>): (r: Option<Request>)
    ensures r.None? <==> Blank(name)
    ensures !Blank(name) && Truthy(editId) ==> r == Some(Rename(editId.value, name))
    ensures !Blank(name) && !Truthy(editId) ==> r == Some(Create(name, true))
  {
    if Blank(name) then None
    else if Truthy(editId) then Some(Rename(editId.value, name))
    else Some(Create(name, true))
  }

  /** The number in a row's first column: five rows a page, numbered as
      the ledger grid numbers its rows, so page p shows (p-1)*5+1 .. p*5. */
  function RowNumber(page: int, idx: int): (n: int)
    ensures n == LedgerGrid.RowNumber(page, 5, idx)
    ensures page >= 1 && 0 <= idx < 5 ==> (page - 1) * 5 < n <= page * 5
  {
    (page - 1) * 5 + (idx + 1)
  }

  /** The request a row's toggle sends: the row's own id, its flag inverted. */
  function ToggleRequest(row: Row): (r: Request)
    ensures r.SetActive? && r.id == row.id && r.active != row.active
  {
    SetActive(row.id, !row.active)
  }

  class Page {
    const variant: Variant
    var page: int
    var name: string
    var editId: Option<string>
    var openModal: bool
    var updatingId: Option<string>
    var deleteTarget: DeleteTarget
    var status: StatusFilter
    var search: string

    /** The page is at least 1, and only the guarded variant ever fills the
        in-flight slot. */
    ghost predicate Valid()
      reads this
    {
      page >= 1 && (variant == CloseOnSubmit ==> updatingId == None)
    }

    /** A row's toggle is disabled while an update for that row is in flight. */
    predicate ToggleDisabled(row: Row)
      reads this
      ensures ToggleDisabled(row) && Valid() ==> variant == CloseOnSuccess
    {
      updatingId == Some(row.id)
    }

    constructor (variant: Variant)
      ensures Valid() && this.variant == variant
      ensures page == 1 && name == "" && editId == None && !openModal
      ensures updatingId == None && deleteTarget == NoTarget && status == All && search == ""
    {
      this.variant := variant;
      page := 1;
      name := "";
      editId := None;
      openModal := false;
      updatingId := None;
      deleteTarget := NoTarget;
      status := All;
      search := "";
    }

    /** `closeModal`: hides the modal and clears the form. */
    method CloseModal()
      requires Valid()
      modifies this
      ensures Valid()
      ensures !openModal && name == "" && editId == None
      ensures page == old(page) && updatingId == old(updatingId)
      ensures deleteTarget == old(deleteTarget) && status == old(status) && search == old(search)
    {
      openModal := false;
      name := "";
      editId := None;
    }

    /** The Add button. The guarded pages clear only the edit id, so a name
        left in the form is kept; the others clear the name too. */
    method OpenAdd()
      requires Valid()
      modifies this
      ensures Valid()
      ensures openModal && editId == None
      ensures name == (if variant == CloseOnSuccess then old(name) else "")
      ensures page == old(page) && updatingId == old(updatingId)
      ensures deleteTarget == old(deleteTarget) && status == old(status) && search == old(search)
    {
      editId := None;
      if variant == CloseOnSubmit {
        name := "";
      }
      openModal := true;
    }

    /** A row's Edit button loads the row into the form. */
    method StartEdit(row: Row)
      requires Valid()
      modifies this
      ensures Valid()
      ensures openModal && editId == Some(row.id) && name == row.name
      ensures page == old(page) && updatingId == old(updatingId)
      ensures deleteTarget == old(deleteTarget) && status == old(status) && search == old(search)
    {
      editId := Some(row.id);
      name := row.name;
      openModal := true;
    }

    method SetName(v: string)
      requires Valid()
      modifies this
      ensures Valid()
      ensures name == v
      ensures openModal == old(openModal) && editId == old(editId)
      ensures page == old(page) && updatingId == old(updatingId)
      ensures deleteTarget == old(deleteTarget) && status == old(status) && search == old(search)
    {
      name := v;
    }

    /** The form's submit. A blank name sends nothing and changes nothing.
        Otherwise the request is sent; a guarded page marks a rename as in
        flight and keeps the modal open, an unguarded page clears the form
        and closes the modal whatever the outcome. */
    method Submit() returns (req: Option<Request>)
      requires Valid()
      modifies this
      ensures Valid()
      ensures req == SubmitRequest(old(name), old(editId))
      ensures req.None? ==> name == old(name) && editId == old(editId)
                            && openModal == old(openModal) && updatingId == old(updatingId)
      ensures req.Some? && variant == CloseOnSuccess ==>
        name == old(name) && editId == old(editId) && openModal == old(openModal)
        && updatingId == (if req.value.Rename? then Some(req.value.id) else old(updatingId))
      ensures req.Some? && variant == CloseOnSubmit ==>
        name == "" && editId == None && !openModal && updatingId == old(updatingId)
      ensures page == old(page) && deleteTarget == old(deleteTarget)
      ensures status == old(status) && search == old(search)
    {
      req := SubmitRequest(name, editId);
      if req.None? {
        return;
      }
      if variant == CloseOnSuccess {
        if req.value.Rename? {
          updatingId := Some(req.value.id);
        }
      } else {
        name := "";
        editId := None;
        openModal := false;
      }
    }

    /** A row's activation toggle. On a guarded page a disabled toggle sends
        nothing; otherwise the update is sent and, on a guarded page, the
        single in-flight slot now names this row. */
    method Toggle(row: Row) returns (req: Option<Request>)
      requires Valid()
      modifies this
      ensures Valid()
      ensures variant == CloseOnSuccess && old(ToggleDisabled(row)) ==>
        req == None && updatingId == old(updatingId)
      ensures !(variant == CloseOnSuccess && old(ToggleDisabled(row))) ==>
        req == Some(ToggleRequest(row))
        && updatingId == (if variant == CloseOnSuccess then Some(row.id) else None)
      ensures name == old(name) && editId == old(editId) && openModal == old(openModal)
      ensures page == old(page) && deleteTarget == old(deleteTarget)
      ensures status == old(status) && search == old(search)
    {
      if variant == CloseOnSuccess && ToggleDisabled(row) {
        req := None;
      } else {
        req := Some(ToggleRequest(row));
        if variant == CloseOnSuccess {
          updatingId := Some(row.id);
        }
      }
    }

    /** The modal's Cancel: a guarded page runs `closeModal`, the others only
        hide the modal and keep the form. */
    method CancelModal()
      requires Valid()
      modifies this
      ensures Valid()
      ensures !openModal
      ensures variant == CloseOnSuccess ==> name == "" && editId == None
      ensures variant == CloseOnSubmit ==> name == old(name) && editId == old(editId)
      ensures page == old(page) && updatingId == old(updatingId)
      ensures deleteTarget == old(deleteTarget) && status == old(status) && search == old(search)
    {
      if variant == CloseOnSuccess {
        CloseModal();
      } else {
        openModal := false;
      }
    }

    /** The server confirmed a create or an update (a rename or a toggle):
        a guarded page closes and clears the modal; the others already did. */
    method MutationSucceeded()
      requires Valid()
      modifies this
      ensures Valid()
      ensures variant == CloseOnSuccess ==> !openModal && name == "" && editId == None
      ensures variant == CloseOnSubmit ==>
        openModal == old(openModal) && name == old(name) && editId == old(editId)
      ensures page == old(page) && updatingId == old(updatingId)
      ensures deleteTarget == old(deleteTarget) && status == old(status) && search == old(search)
    {
      if variant == CloseOnSuccess {
        CloseModal();
      }
    }

    /** An update finished, successfully or not: the in-flight slot empties. */
    method UpdateSettled()
      requires Valid()
      modifies this
      ensures Valid()
      ensures updatingId == None
      ensures name == old(name) && editId == old(editId) && openModal == old(openModal)
      ensures page == old(page) && deleteTarget == old(deleteTarget)
      ensures status == old(status) && search == old(search)
    {
      updatingId := None;
    }

    /** Choosing a status filter returns to the first page. */
    method SetStatus(s: StatusFilter)
      requires Valid()
      modifies this
      ensures Valid()
      ensures status == s && page == 1
      ensures name == old(name) && editId == old(editId) && openModal == old(openModal)
      ensures updatingId == old(updatingId) && deleteTarget == old(deleteTarget) && search == old(search)
    {
      status := s;
      page := 1;
    }

    /** Typing in the search box; the page is not reset. */
    method SetSearch(s: string)
      requires Valid()
      modifies this
      ensures Valid()
      ensures search == s
      ensures name == old(name) && editId == old(editId) && openModal == old(openModal)
      ensures page == old(page) && updatingId == old(updatingId)
      ensures deleteTarget == old(deleteTarget) && status == old(status)
    {
      search := s;
    }

    /** A row's Delete button opens the confirmation for that row. */
    method AskDelete(row: Row)
      requires Valid()
      modifies this
      ensures Valid()
      ensures deleteTarget == DeleteTarget(row.name, row.id)
      ensures name == old(name) && editId == old(editId) && openModal == old(openModal)
      ensures page == old(page) && updatingId == old(updatingId)
      ensures status == old(status) && search == old(search)
    {
      deleteTarget := DeleteTarget(row.name, row.id);
    }

    /** The confirmation's Cancel closes it without sending anything. */
    method CancelDelete()
      requires Valid()
      modifies this
      ensures Valid()
      ensures deleteTarget == NoTarget
      ensures name == old(name) && editId == old(editId) && openModal == old(openModal)
      ensures page == old(page) && updatingId == old(updatingId)
      ensures status == old(status) && search == old(search)
    {
      deleteTarget := NoTarget;
    }

    /** The confirmation's Delete, shown only while the slot holds an id:
        deletes that id and closes the confirmation. */
    method ConfirmDelete() returns (req: Option<Request>)
      requires Valid()
      modifies this
      ensures Valid()
      ensures old(deleteTarget).id != "" ==> req == Some(Delete(old(deleteTarget).id)) && deleteTarget == NoTarget
      ensures old(deleteTarget).id == "" ==> req == None && deleteTarget == old(deleteTarget)
      ensures name == old(name) && editId == old(editId) && openModal == old(openModal)
      ensures page == old(page) && updatingId == old(updatingId)
      ensures status == old(status) && search == old(search)
    {
      if deleteTarget.id != "" {
        req := Some(Delete(deleteTarget.id));
        deleteTarget := NoTarget;
      } else {
        req := None;
      }
    }

    method PrevPage()
      requires Valid()
      modifies this
      ensures Valid()
      ensures page == Pagination.Prev(old(page))
      ensures name == old(name) && editId == old(editId) && openModal == old(openModal)
      ensures updatingId == old(updatingId) && deleteTarget == old(deleteTarget)
      ensures status == old(status) && search == old(search)
    {
      if page > 1 {
        page := page - 1;
      }
    }

    method NextPage(totalPages: Option<int>)
      requires Valid()
      modifies this
      ensures Valid()
      ensures page == Pagination.Next(old(page), totalPages)
      ensures name == old(name) && editId == old(editId) && openModal == old(openModal)
      ensures updatingId == old(updatingId) && deleteTarget == old(deleteTarget)
      ensures status == old(status) && search == old(search)
    {
      if Pagination.Below(page, totalPages) {
        page := page + 1;
      }
    }
  }

  /** On a guarded page a second click on a row whose update is in flight
      sends nothing. */
  method SecondClickBlocked(row: Row) returns (first: Option<Request>, second: Option<Request>)
    ensures first == Some(SetActive(row.id, !row.active))
    ensures second == None
  {
    var p := new Page(CloseOnSuccess);
    first := p.Toggle(row);
    second := p.Toggle(row);
  }

  /** The in-flight slot holds one row: toggling A, then B, re-enables A, so
      a third click sends a second update for A while the first may still be
      in flight. On an unguarded page nothing is ever blocked. */
  method SingleSlot(a: Row, b: Row) returns (r1: Option<Request>, r2: Option<Request>, r3: Option<Request>)
    requires a.id != b.id
    ensures r1 == Some(ToggleRequest(a)) && r2 == Some(ToggleRequest(b)) && r3 == Some(ToggleRequest(a))
  {
    var p := new Page(CloseOnSuccess);
    r1 := p.Toggle(a);
    r2 := p.Toggle(b);
    r3 := p.Toggle(a);
  }

  /** A successful rename on a guarded page: the modal stays open until the
      server confirms, then closes with the form cleared and the slot empty. */
  method RenameRoundTrip(row: Row, newName: string) returns (req: Option<Request>, closed: bool, cleared: bool)
    requires row.id != "" && !Blank(newName)
    ensures req == Some(Rename(row.id, newName))
    ensures closed && cleared
  {
    var p := new Page(CloseOnSuccess);
    p.StartEdit(row);
    p.SetName(newName);
    req := p.Submit();
    assert p.openModal && p.updatingId == Some(row.id);
    p.MutationSucceeded();
    p.UpdateSettled();
    closed := !p.openModal;
    cleared := p.name == "" && p.editId == None && p.updatingId == None;
  }
}
