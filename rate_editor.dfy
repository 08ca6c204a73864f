/** The rate editor: per-party rate tiers, each with dated rate items. A tier
    is created from a four-field form; items are added to a tier, edited, or
    deleted after confirmation. */
module RateEditor {
  import opened Wrappers

  /** The new-tier form. */
  datatype TierForm = TierForm(startingValue: string, endingValue: string, rate: string, date: string)

  const EmptyTierForm := TierForm("", "", "", "")

  datatype TierField = StartingValue | EndingValue | TierRate | TierDate

  /** The add-item and edit-item forms. */
  datatype RateForm = RateForm(rate: string, date: string)

  const EmptyRateForm := RateForm("", "")

  datatype RateField = Rate | Date

  /** A rate item as listed under its tier; `date` is the server's timestamp. */
  datatype RateItem = RateItem(id: string, rate: string, date: string)

  /** The body sent to a tier's update endpoint: a new item, or a changed
      item named by its id. Adding and editing use the same endpoint. */
  datatype ItemData = NewItem(rate: string, date: string) | EditedItem(itemId: string, rate: string, date: string)

  datatype RateRequest =
    | CreateRate(startingValue: string, endingValue: string, rate: string, date: string, partyId: string)
    | AddRate(tierId: string, data: ItemData)
    | DeleteRateItem(tierId: string, itemId: string)

  /** The delete-confirmation slot; an empty tier id means it is closed. */
  datatype DeleteSlot = DeleteSlot(tierId: string, itemId: string)

  const NoSlot := DeleteSlot("", "")

  function GetTierField(f: TierForm, field: TierField): string {
    match field
    case StartingValue => f.startingValue
    case EndingValue => f.endingValue
    case TierRate => f.rate
    case TierDate => f.date
  }

  /** `{ ...form, [field]: value }`. */
  function WithTierField(f: TierForm, field: TierField, v: string): (r: TierForm)
    ensures GetTierField(r, field) == v
    ensures forall g :: g != field ==> GetTierField(r, g) == GetTierField(f, g)
  {
    match field
    case StartingValue => f.(startingValue := v)
    case EndingValue => f.(endingValue := v)
    case TierRate => f.(rate := v)
    case TierDate => f.(date := v)
  }

  function WithRateField(f: RateForm, field: RateField, v: string): (r: RateForm)
    ensures field == Rate ==> r == RateForm(v, f.date)
    ensures field == Date ==> r == RateForm(f.rate, v)
  {
    match field
    case Rate => f.(rate := v)
    case Date => f.(date := v)
  }

  /** All four tier fields are filled in. */
  predicate TierComplete(f: TierForm)
    ensures TierComplete(f) <==> forall g :: GetTierField(f, g) != ""
  {
    assert GetTierField(f, StartingValue) == f.startingValue && GetTierField(f, EndingValue) == f.endingValue;
    assert GetTierField(f, TierRate) == f.rate && GetTierField(f, TierDate) == f.date;
    f.startingValue != "" && f.endingValue != "" && f.rate != "" && f.date != ""
  }

  /** A cleared form is never complete, so submitting twice in a row sends
      one tier. */
  lemma EmptyTierIncomplete()
    ensures !TierComplete(EmptyTierForm)
    ensures forall field, v :: !TierComplete(WithTierField(EmptyTierForm, field, v))
  {
    forall field, v ensures !TierComplete(WithTierField(EmptyTierForm, field, v)) {
      var g := if field == StartingValue then EndingValue else StartingValue;
      assert GetTierField(WithTierField(EmptyTierForm, field, v), g) == "";
    }
  }

  /** `date.split("T")[0]`: the text before the first "T", or all of it. */
  function DatePrefix(s: string): (r: string)
    ensures |r| <= |s| && r == s[..|r|]
    ensures 'T' !in r
    ensures |r| < |s| ==> s[|r|] == 'T'
  {
    if s == [] || s[0] == 'T' then []
    else
      var rest := DatePrefix(s[1..]);
      assert [s[0]] + rest == s[..|rest| + 1];
      [s[0]] + rest
  }

  /** A timestamp `day + "T" + time` yields its day, and a bare day is kept. */
  lemma {:induction false} DatePrefixOfTimestamp(day: string, time: string)
    requires 'T' !in day
    ensures DatePrefix(day + "T" + time) == day
    ensures DatePrefix(day) == day
  {
    if day != [] {
      assert (day + "T" + time)[1..] == day[1..] + "T" + time;
      DatePrefixOfTimestamp(day[1..], time);
    }
  }

  /** Taking the prefix again changes nothing. */
  lemma DatePrefixIdempotent(s: string)
    ensures DatePrefix(DatePrefix(s)) == DatePrefix(s)
  {
    DatePrefixOfTimestamp(DatePrefix(s), "");
  }

  class RateEditorPage {
    var partyId: string
    var openModal: bool
    var openAddModal: bool
    var openEditModal: bool
    var selectedRateId: string
    var deleteSlot: DeleteSlot
    var form: TierForm
    var addForm: RateForm
    var editForm: RateForm
    var editRateId: string
    var editItemId: string

    /** The new-tier modal is open only with a party selected: its Create
        button is rendered only then, and while the modal is open its own
        party select is disabled and it covers the page's party select. */
    ghost predicate Valid()
      reads this`openModal, this`partyId
    {
      openModal ==> partyId != ""
    }

    constructor ()
      ensures Valid()
      ensures partyId == "" && !openModal && !openAddModal && !openEditModal
      ensures selectedRateId == "" && deleteSlot == NoSlot
      ensures form == EmptyTierForm && addForm == EmptyRateForm && editForm == EmptyRateForm
      ensures editRateId == "" && editItemId == ""
    {
      partyId := "";
      openModal := false;
      openAddModal := false;
      openEditModal := false;
      selectedRateId := "";
      deleteSlot := NoSlot;
      form := EmptyTierForm;
      addForm := EmptyRateForm;
      editForm := EmptyRateForm;
      editRateId := "";
      editItemId := "";
    }

    /** The page's party select, reachable only while the new-tier modal is
        closed. */
    method SelectParty(id: string)
      requires !openModal
      modifies this`partyId
      ensures Valid() && partyId == id
    {
      partyId := id;
    }

    /** The Create button, rendered only while a party is selected. */
    method OpenCreateModal()
      requires partyId != ""
      modifies this`openModal
      ensures Valid() && openModal
    {
      openModal := true;
    }

    method CancelCreateModal()
      modifies this`openModal
      ensures Valid() && !openModal
    {
      openModal := false;
    }

    /** Typing into one field of the new-tier form. */
    method SetTierField(field: TierField, v: string)
      modifies this`form
      ensures form == WithTierField(old(form), field, v)
    {
      form := WithTierField(form, field, v);
    }

    /** The new-tier submit: an incomplete form sends nothing and is kept; a
        complete one is sent with the selected party, and the form is cleared
        at once, whatever the outcome. */
    method HandleSubmit() returns (req: Option<RateRequest>)
      requires Valid() && openModal
      modifies this`form
      ensures req.Some? ==> req.value.CreateRate? && req.value.partyId != ""
      ensures !TierComplete(old(form)) ==> req == None && form == old(form)
      ensures TierComplete(old(form)) ==>
        req == Some(CreateRate(old(form).startingValue, old(form).endingValue,
                               old(form).rate, old(form).date, partyId))
        && form == EmptyTierForm
    {
      if form.startingValue == "" || form.endingValue == "" || form.rate == "" || form.date == "" {
        return None;
      }
      req := Some(CreateRate(form.startingValue, form.endingValue, form.rate, form.date, partyId));
      form := EmptyTierForm;
    }

    method CreateSucceeded()
      modifies this`openModal
      ensures Valid() && !openModal
    {
      openModal := false;
    }

    /** A tier's add button: remembers the tier, clears the add form and
        opens it. */
    method OpenAddForm(tierId: string)
      modifies this`selectedRateId, this`addForm, this`openAddModal
      ensures selectedRateId == tierId && addForm == EmptyRateForm && openAddModal
    {
      selectedRateId := tierId;
      addForm := EmptyRateForm;
      openAddModal := true;
    }

    method SetAddField(field: RateField, v: string)
      modifies this`addForm
      ensures addForm == WithRateField(old(addForm), field, v)
    {
      addForm := WithRateField(addForm, field, v);
    }

    /** The add-item submit: nothing unless both rate and date are filled in;
        otherwise a new item for the remembered tier. */
    method HandleAddSubmit() returns (req: Option<RateRequest>)
      ensures (addForm.rate == "" || addForm.date == "") ==> req == None
      ensures addForm.rate != "" && addForm.date != "" ==>
        req == Some(AddRate(selectedRateId, NewItem(addForm.rate, addForm.date)))
    {
      if addForm.rate == "" || addForm.date == "" {
        return None;
      }
      req := Some(AddRate(selectedRateId, NewItem(addForm.rate, addForm.date)));
    }

    method AddSucceeded()
      modifies this`openAddModal
      ensures !openAddModal
    {
      openAddModal := false;
    }

    method CancelAddModal()
      modifies this`openAddModal
      ensures !openAddModal
    {
      openAddModal := false;
    }

    /** An item's Edit button: remembers the tier and the item, loads the rate
        and the day part of the item's date, and opens the edit form. */
    method HandleEdit(tierId: string, item: RateItem)
      modifies this`editRateId, this`editItemId, this`editForm, this`openEditModal
      ensures editRateId == tierId && editItemId == item.id
      ensures editForm == RateForm(item.rate, DatePrefix(item.date))
      ensures openEditModal
    {
      editRateId := tierId;
      editItemId := item.id;
      editForm := RateForm(item.rate, DatePrefix(item.date));
      openEditModal := true;
    }

    method SetEditField(field: RateField, v: string)
      modifies this`editForm
      ensures editForm == WithRateField(old(editForm), field, v)
    {
      editForm := WithRateField(editForm, field, v);
    }

    /** The edit submit: nothing unless both rate and date are filled in;
        otherwise the remembered item's new values, sent to the remembered
        tier. */
    method HandleEditSubmit() returns (req: Option<RateRequest>)
      ensures (editForm.rate == "" || editForm.date == "") ==> req == None
      ensures editForm.rate != "" && editForm.date != "" ==>
        req == Some(AddRate(editRateId, EditedItem(editItemId, editForm.rate, editForm.date)))
    {
      if editForm.rate == "" || editForm.date == "" {
        return None;
      }
      req := Some(AddRate(editRateId, EditedItem(editItemId, editForm.rate, editForm.date)));
    }

    method EditSucceeded()
      modifies this`openEditModal
      ensures !openEditModal
    {
      openEditModal := false;
    }

    method CancelEditModal()
      modifies this`openEditModal
      ensures !openEditModal
    {
      openEditModal := false;
    }

    /** An item's Delete button opens the confirmation for that item. */
    method AskDelete(tierId: string, itemId: string)
      modifies this`deleteSlot
      ensures deleteSlot == DeleteSlot(tierId, itemId)
    {
      deleteSlot := DeleteSlot(tierId, itemId);
    }

    method CancelDelete()
      modifies this`deleteSlot
      ensures deleteSlot == NoSlot
    {
      deleteSlot := NoSlot;
    }

    /** The confirmation's Delete, shown only while the slot names a tier:
        deletes that item from that tier and closes the confirmation. */
    method ConfirmDelete() returns (req: Option<RateRequest>)
      modifies this`deleteSlot
      ensures old(deleteSlot).tierId != "" ==>
        req == Some(DeleteRateItem(old(deleteSlot).tierId, old(deleteSlot).itemId)) && deleteSlot == NoSlot
      ensures old(deleteSlot).tierId == "" ==> req == None && deleteSlot == old(deleteSlot)
    {
      if deleteSlot.tierId != "" {
        req := Some(DeleteRateItem(deleteSlot.tierId, deleteSlot.itemId));
        deleteSlot := NoSlot;
      } else {
        req := None;
      }
    }
  }

  /** Submitting a complete tier form twice sends one tier: the second
      submit finds the form cleared. */
  method DoubleSubmitSendsOnce(f: TierForm, partyId: string) returns (first: Option<RateRequest>, second: Option<RateRequest>)
    requires TierComplete(f) && partyId != ""
    ensures first == Some(CreateRate(f.startingValue, f.endingValue, f.rate, f.date, partyId))
    ensures second == None
  {
    var p := new RateEditorPage();
    p.SelectParty(partyId);
    p.OpenCreateModal();
    p.SetTierField(StartingValue, f.startingValue);
    p.SetTierField(EndingValue, f.endingValue);
    p.SetTierField(TierRate, f.rate);
    p.SetTierField(TierDate, f.date);
    first := p.HandleSubmit();
    second := p.HandleSubmit();
  }

  /** Editing an item whose date is a full timestamp and submitting it
      unchanged sends the item's day, not the timestamp. */
  method EditSendsDay(tierId: string, item: RateItem, day: string, time: string) returns (req: Option<RateRequest>)
    requires item.rate != "" && day != "" && 'T' !in day && item.date == day + "T" + time
    ensures req == Some(AddRate(tierId, EditedItem(item.id, item.rate, day)))
  {
    var p := new RateEditorPage();
    p.HandleEdit(tierId, item);
    DatePrefixOfTimestamp(day, time);
    req := p.HandleEditSubmit();
  }
}
