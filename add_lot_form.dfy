/** The add-lot form: a party, a kapan number typed or picked from the
    party's kapans, and an editable list of packet items submitted as one
    request. */
module AddLotForm {
  import opened Wrappers
  import opened MasterData

  /** One packet line; every field is the text of its input. */
  datatype Item = Item(pktNumber: string, issueWeight: string, expectedWeight: string,
                       shapeId: string, date: string)

  datatype ItemField = PKTNumber | IssueWeight | ExpectedWeight | ShapeId | Date

  /** The request body sent on submit: the whole form. */
  datatype LotRequest = LotRequest(partyId: string, kapanNumber: string, items: seq<Item>)

  /** A new line: every field blank except the date, which is today's. */
  function EmptyItem(today: string): (it: Item)
    ensures forall f :: f != Date ==> Get(it, f) == ""
    ensures Get(it, Date) == today
  {
    Item("", "", "", "", today)
  }

  function Get(it: Item, f: ItemField): string {
    match f
    case PKTNumber => it.pktNumber
    case IssueWeight => it.issueWeight
    case ExpectedWeight => it.expectedWeight
    case ShapeId => it.shapeId
    case Date => it.date
  }

  /** `{ ...it, [field]: value }`. */
  function WithField(it: Item, f: ItemField, v: string): (r: Item)
    ensures Get(r, f) == v
    ensures forall g :: g != f ==> Get(r, g) == Get(it, g)
  {
    match f
    case PKTNumber => it.(pktNumber := v)
    case IssueWeight => it.(issueWeight := v)
    case ExpectedWeight => it.(expectedWeight := v)
    case ShapeId => it.(shapeId := v)
    case Date => it.(date := v)
  }

  /** `items.filter((_, i) => i !== index)` over the positions from `offset`. */
  function DropFrom(s: seq<Item>, index: int, offset: int): (r: seq<Item>)
    ensures offset <= index < offset + |s| ==> r == s[..index - offset] + s[index - offset + 1..]
    ensures !(offset <= index < offset + |s|) ==> r == s
    decreases |s|
  {
    if s == [] then []
    else
      var rest := DropFrom(s[1..], index, offset + 1);
      if offset != index then
        assert offset < index < offset + |s| ==> [s[0]] + rest == s[..index - offset] + s[index - offset + 1..] by {
          if offset < index < offset + |s| {
            assert s[..index - offset] == [s[0]] + s[1..][..index - offset - 1];
            assert s[index - offset + 1..] == s[1..][index - offset..];
          }
        }
        [s[0]] + rest
      else
        rest
  }

  /** `removeItem(index)`: every line except the one at `index`, in order. */
  function DropIndex(s: seq<Item>, index: int): (r: seq<Item>)
    ensures 0 <= index < |s| ==> r == s[..index] + s[index + 1..] && |r| == |s| - 1
    ensures !(0 <= index < |s|) ==> r == s
  {
    DropFrom(s, index, 0)
  }

  /** `handleItemChange(index, field, value)`: the same lines, with one field
      of the line at `index` replaced. */
  function UpdateAt(s: seq<Item>, index: int, f: ItemField, v: string): (r: seq<Item>)
    ensures |r| == |s|
    ensures forall i :: 0 <= i < |s| && i != index ==> r[i] == s[i]
    ensures 0 <= index < |s| ==> Get(r[index], f) == v
    ensures 0 <= index < |s| ==> forall g :: g != f ==> Get(r[index], g) == Get(s[index], g)
  {
    seq(|s|, i requires 0 <= i < |s| => if i == index then WithField(s[i], f, v) else s[i])
  }

  /** Removing the line just appended restores the list. */
  lemma DropAppended(s: seq<Item>, e: Item)
    ensures DropIndex(s + [e], |s|) == s
  {
    assert (s + [e])[..|s|] == s;
  }

  /** Writing back a field's old value undoes an edit. */
  lemma UpdateAtUndo(s: seq<Item>, index: int, f: ItemField, v: string)
    requires 0 <= index < |s|
    ensures UpdateAt(UpdateAt(s, index, f, v), index, f, Get(s[index], f)) == s
  {
    var once := UpdateAt(s, index, f, v);
    var twice := UpdateAt(once, index, f, Get(s[index], f));
    assert Get(twice[index], f) == Get(s[index], f);
    assert forall g :: Get(twice[index], g) == Get(s[index], g);
    assert twice[index] == s[index] by {
      assert Get(twice[index], PKTNumber) == Get(s[index], PKTNumber);
      assert Get(twice[index], IssueWeight) == Get(s[index], IssueWeight);
      assert Get(twice[index], ExpectedWeight) == Get(s[index], ExpectedWeight);
      assert Get(twice[index], ShapeId) == Get(s[index], ShapeId);
      assert Get(twice[index], Date) == Get(s[index], Date);
    }
  }

  /** Every required field of a line is filled in. */
  predicate Complete(it: Item)
    ensures Complete(it) <==> forall f :: Get(it, f) != ""
  {
    assert Get(it, PKTNumber) == it.pktNumber && Get(it, IssueWeight) == it.issueWeight;
    assert Get(it, ExpectedWeight) == it.expectedWeight && Get(it, ShapeId) == it.shapeId;
    assert Get(it, Date) == it.date;
    it.pktNumber != "" && it.issueWeight != "" && it.expectedWeight != ""
    && it.shapeId != "" && it.date != ""
  }

  /** `items.every(...)`. */
  function Every(items: seq<Item>): (r: bool)
    ensures r <==> forall i :: 0 <= i < |items| ==> Complete(items[i])
  {
    if items == [] then true
    else
      var rest := Every(items[1..]);
      assert forall i :: 1 <= i < |items| ==> items[i] == items[1..][i - 1];
      Complete(items[0]) && rest
  }

  /** `validateItems`: at least one line, and every line complete. */
  function ValidateItems(items: seq<Item>): (r: bool)
    ensures r <==> |items| > 0 && forall i :: 0 <= i < |items| ==> Complete(items[i])
  {
    |items| > 0 && Every(items)
  }

  /** A fresh line never passes validation, since its PKT number is blank. */
  lemma FreshLineIncomplete(items: seq<Item>, today: string)
    ensures !ValidateItems(items + [EmptyItem(today)])
  {
    assert (items + [EmptyItem(today)])[|items|] == EmptyItem(today);
  }

  /** The kapan dropdown's options: the selected party's kapan numbers, or
      none when no party has the selected id. */
  function KapanOptions(parties: seq<Party>, partyId: string): (r: seq<string>)
    ensures (forall i :: 0 <= i < |parties| ==> parties[i].id != partyId) ==> r == []
    ensures forall i :: (0 <= i < |parties| && parties[i].id == partyId
                         && forall j :: 0 <= j < i ==> parties[j].id != partyId)
                        ==> r == parties[i].kapanNumbers
  {
    match FindParty(parties, partyId)
    case None => []
    case Some(p) => p.kapanNumbers
  }

  class LotForm {
    var partyId: string
    var kapanNumber: string
    var items: seq<Item>
    var openKapan: bool
    var showTable: bool

    /** The remove buttons are disabled on the last line, so the list is
        never empty. */
    ghost predicate Valid()
      reads this
    {
      |items| >= 1
    }

    function Request(): LotRequest
      reads this
    {
      LotRequest(partyId, kapanNumber, items)
    }

    constructor (today: string)
      ensures Valid()
      ensures Request() == LotRequest("", "", [EmptyItem(today)])
      ensures !openKapan && !showTable
    {
      partyId := "";
      kapanNumber := "";
      items := [EmptyItem(today)];
      openKapan := false;
      showTable := false;
    }

    method SelectParty(id: string)
      modifies this
      ensures Request() == old(Request()).(partyId := id)
      ensures openKapan == old(openKapan) && showTable == old(showTable)
    {
      partyId := id;
    }

    method TypeKapan(v: string)
      modifies this
      ensures Request() == old(Request()).(kapanNumber := v)
      ensures openKapan == old(openKapan) && showTable == old(showTable)
    {
      kapanNumber := v;
    }

    /** `addItem`: one fresh line at the end, the others untouched. */
    method AddItem(today: string)
      requires Valid()
      modifies this
      ensures Valid()
      ensures items == old(items) + [EmptyItem(today)]
      ensures partyId == old(partyId) && kapanNumber == old(kapanNumber)
      ensures openKapan == old(openKapan) && showTable == old(showTable)
    {
      items := items + [EmptyItem(today)];
    }

    /** `removeItem(index)`. */
    method RemoveItem(index: int)
      modifies this
      ensures items == DropIndex(old(items), index)
      ensures partyId == old(partyId) && kapanNumber == old(kapanNumber)
      ensures openKapan == old(openKapan) && showTable == old(showTable)
    {
      items := DropIndex(items, index);
    }

    /** A line's remove button: disabled while it is the only line. */
    method ClickRemove(index: int)
      requires Valid() && 0 <= index < |items|
      modifies this
      ensures Valid()
      ensures |old(items)| == 1 ==> items == old(items)
      ensures |old(items)| > 1 ==> items == old(items)[..index] + old(items)[index + 1..]
      ensures partyId == old(partyId) && kapanNumber == old(kapanNumber)
      ensures openKapan == old(openKapan) && showTable == old(showTable)
    {
      if |items| != 1 {
        RemoveItem(index);
      }
    }

    /** `handleItemChange(index, field, value)`. */
    method ChangeItem(index: int, f: ItemField, v: string)
      requires Valid()
      modifies this
      ensures Valid()
      ensures items == UpdateAt(old(items), index, f, v)
      ensures partyId == old(partyId) && kapanNumber == old(kapanNumber)
      ensures openKapan == old(openKapan) && showTable == old(showTable)
    {
      items := UpdateAt(items, index, f, v);
    }

    /** A click on the kapan box toggles the dropdown, but only while no
        kapan is entered and the party has kapans to offer. */
    method ClickKapanBox(parties: seq<Party>)
      modifies this
      ensures openKapan == (if kapanNumber == "" && |KapanOptions(parties, partyId)| > 0
                            then !old(openKapan) else old(openKapan))
      ensures Request() == old(Request()) && showTable == old(showTable)
    {
      if kapanNumber == "" && |KapanOptions(parties, partyId)| > 0 {
        openKapan := !openKapan;
      }
    }

    /** Focusing the kapan input opens the dropdown when there is something
        to offer. */
    method FocusKapanInput(parties: seq<Party>)
      modifies this
      ensures openKapan == (|KapanOptions(parties, partyId)| > 0 || old(openKapan))
      ensures Request() == old(Request()) && showTable == old(showTable)
    {
      if |KapanOptions(parties, partyId)| > 0 {
        openKapan := true;
      }
    }

    /** Picking an option fills the kapan number and closes the dropdown. */
    method PickKapan(kn: string)
      modifies this
      ensures Request() == old(Request()).(kapanNumber := kn)
      ensures !openKapan && showTable == old(showTable)
    {
      kapanNumber := kn;
      openKapan := false;
    }

    /** A mouse-down outside the kapan box closes an open dropdown. */
    method KapanOutsideClick(boxMounted: bool, targetInBox: bool)
      modifies this
      ensures openKapan == (old(openKapan) && !(boxMounted && !targetInBox))
      ensures Request() == old(Request()) && showTable == old(showTable)
    {
      if openKapan && boxMounted && !targetInBox {
        openKapan := false;
      }
    }

    /** Submit: nothing without a party and a kapan number and complete lines;
        otherwise exactly the current form. */
    method HandleSubmit() returns (req: Option<LotRequest>)
      ensures req.Some? <==> partyId != "" && kapanNumber != "" && ValidateItems(items)
      ensures req.Some? ==> req.value == Request()
    {
      if partyId == "" || kapanNumber == "" {
        return None;
      }
      if !ValidateItems(items) {
        return None;
      }
      req := Some(Request());
    }

    /** A successful create switches to the result table. */
    method CreateSucceeded()
      modifies this
      ensures showTable
      ensures Request() == old(Request()) && openKapan == old(openKapan)
    {
      showTable := true;
    }

    /** Back: the form returns to its initial state and the table is hidden. */
    method HandleBack(today: string)
      modifies this
      ensures Valid()
      ensures Request() == LotRequest("", "", [EmptyItem(today)])
      ensures !showTable && openKapan == old(openKapan)
    {
      showTable := false;
      partyId := "";
      kapanNumber := "";
      items := [EmptyItem(today)];
    }
  }

  /** A freshly opened form has no party, so submitting it sends nothing. */
  method FreshFormSubmitsNothing(today: string) returns (req: Option<LotRequest>)
    ensures req == None
  {
    var form := new LotForm(today);
    req := form.HandleSubmit();
  }
}
