/** The filter panel: kapan options derived from the selected parties, the
    pruning of kapan selections those options no longer offer, and checkbox /
    chip handlers over the four multi-select lists of the filter store. */
module FilterPanel {
  import opened Lists
  import opened MasterData
  import opened FilterContext

  /** `parties.filter(p => partyId.includes(p._id))`. */
  function SelectedParties(parties: seq<Party>, partyId: seq<string>): (r: seq<Party>)
    ensures forall p :: p in r <==> p in parties && p.id in partyId
  {
    if parties == [] then []
    else (if parties[0].id in partyId then [parties[0]] else []) + SelectedParties(parties[1..], partyId)
  }

  /** `.flatMap(p => p.kapanNumbers)`. */
  function AllKapans(ps: seq<Party>): (r: seq<string>)
    ensures forall k :: k in r <==> exists p :: p in ps && k in p.kapanNumbers
  {
    if ps == [] then []
    else
      var rest := AllKapans(ps[1..]);
      assert forall p :: p in ps[1..] ==> p in ps;
      assert forall p :: p in ps ==> p == ps[0] || p in ps[1..];
      ps[0].kapanNumbers + rest
  }

  /** The kapan options: the selected parties' kapan numbers, each kept at its
      first occurrence. */
  function KapanList(parties: seq<Party>, partyId: seq<string>): (r: seq<string>)
    ensures forall k :: k in r <==> exists p :: p in parties && p.id in partyId && k in p.kapanNumbers
  {
    FirstOccurrences(AllKapans(SelectedParties(parties, partyId)))
  }

  /** The options carry no duplicates, offer exactly the kapan numbers of the
      selected parties, and keep the order in which they first appear. */
  lemma KapanListSpec(parties: seq<Party>, partyId: seq<string>)
    ensures NoDups(KapanList(parties, partyId))
    ensures InFirstOccurrenceOrder(AllKapans(SelectedParties(parties, partyId)),
      KapanList(parties, partyId), |AllKapans(SelectedParties(parties, partyId))|)
  {
    var flat := AllKapans(SelectedParties(parties, partyId));
    FirstOccurrencesNoDups(flat);
    FirstOccurrencesOrdered(flat, |flat|);
  }

  /** The kapan selection is within the options, and every list is duplicate-free. */
  ghost predicate Consistent(f: Filters, parties: seq<Party>) {
    && NoDups(f.partyId) && NoDups(f.kapanNumber) && NoDups(f.statusId) && NoDups(f.paymentStatusId)
    && forall k :: k in f.kapanNumber ==> k in KapanList(parties, f.partyId)
  }

  /** The reset leaves nothing selected, so the invariant holds. */
  lemma ClearedFiltersConsistent(parties: seq<Party>)
    ensures Consistent(InitialFilters, parties)
  {
  }

  /** The pruning effect: the kapan selection filtered, in order, to the options. */
  function Pruned(f: Filters, parties: seq<Party>): (r: Filters)
    ensures r.(kapanNumber := f.kapanNumber) == f
    ensures forall k :: k in r.kapanNumber <==> k in f.kapanNumber && k in KapanList(parties, f.partyId)
  {
    f.(kapanNumber := KeepIn(f.kapanNumber, KapanList(parties, f.partyId)))
  }

  /** A party checkbox followed by the pruning effect. */
  function PartyToggled(f: Filters, parties: seq<Party>, id: string): (r: Filters)
    ensures id in r.partyId <==> id !in f.partyId
    ensures forall q :: q != id ==> (q in r.partyId <==> q in f.partyId)
    ensures forall k :: k in r.kapanNumber <==> k in f.kapanNumber && k in KapanList(parties, r.partyId)
    ensures r.(partyId := f.partyId, kapanNumber := f.kapanNumber) == f
  {
    Pruned(f.(partyId := Toggle(f.partyId, id)), parties)
  }

  /** A party chip followed by the pruning effect. */
  function PartyRemoved(f: Filters, parties: seq<Party>, id: string): (r: Filters)
    ensures id !in r.partyId
    ensures forall q :: q != id ==> (q in r.partyId <==> q in f.partyId)
    ensures forall k :: k in r.kapanNumber <==> k in f.kapanNumber && k in KapanList(parties, r.partyId)
    ensures r.(partyId := f.partyId, kapanNumber := f.kapanNumber) == f
  {
    Pruned(f.(partyId := Without(f.partyId, id)), parties)
  }

  /** Pruning restores the invariant from any duplicate-free lists, keeps every
      selected kapan that is still offered, and changes nothing else. */
  lemma {:induction false} PrunedConsistent(f: Filters, parties: seq<Party>)
    requires NoDups(f.partyId) && NoDups(f.kapanNumber) && NoDups(f.statusId) && NoDups(f.paymentStatusId)
    ensures Consistent(Pruned(f, parties), parties)
    ensures forall k :: k in f.kapanNumber && k in KapanList(parties, f.partyId) ==> k in Pruned(f, parties).kapanNumber
    ensures Pruned(f, parties).partyId == f.partyId
  {
    KeepInNoDups(f.kapanNumber, KapanList(parties, f.partyId));
  }

  /** Pruning an already consistent selection removes nothing. */
  lemma {:induction false} PrunedIdle(f: Filters, parties: seq<Party>)
    requires Consistent(f, parties)
    ensures Pruned(f, parties) == f
  {
    KeepInAllAllowed(f.kapanNumber, KapanList(parties, f.partyId));
  }

  /** A party checkbox keeps the invariant; the party ends up selected exactly
      when it was not. */
  lemma {:induction false} PartyToggledConsistent(f: Filters, parties: seq<Party>, id: string)
    requires Consistent(f, parties)
    ensures Consistent(PartyToggled(f, parties, id), parties)
    ensures id in PartyToggled(f, parties, id).partyId <==> id !in f.partyId
  {
    ToggleSpec(f.partyId, id);
    PrunedConsistent(f.(partyId := Toggle(f.partyId, id)), parties);
  }

  /** A party chip keeps the invariant and unselects that party. */
  lemma {:induction false} PartyRemovedConsistent(f: Filters, parties: seq<Party>, id: string)
    requires Consistent(f, parties)
    ensures Consistent(PartyRemoved(f, parties, id), parties)
    ensures id !in PartyRemoved(f, parties, id).partyId
  {
    WithoutNoDups(f.partyId, id);
    PrunedConsistent(f.(partyId := Without(f.partyId, id)), parties);
  }

  /** Toggling an offered kapan, or removing a kapan chip, keeps the invariant. */
  lemma {:induction false} KapanChangeConsistent(f: Filters, parties: seq<Party>, kp: string)
    requires Consistent(f, parties)
    requires kp in KapanList(parties, f.partyId)
    ensures Consistent(f.(kapanNumber := Toggle(f.kapanNumber, kp)), parties)
    ensures Consistent(f.(kapanNumber := Without(f.kapanNumber, kp)), parties)
  {
    ToggleSpec(f.kapanNumber, kp);
    WithoutNoDups(f.kapanNumber, kp);
  }

  /** Toggling or removing a status or a payment status keeps the invariant. */
  lemma {:induction false} StatusChangeConsistent(f: Filters, parties: seq<Party>, id: string)
    requires Consistent(f, parties)
    ensures Consistent(f.(statusId := Toggle(f.statusId, id)), parties)
    ensures Consistent(f.(statusId := Without(f.statusId, id)), parties)
    ensures Consistent(f.(paymentStatusId := Toggle(f.paymentStatusId, id)), parties)
    ensures Consistent(f.(paymentStatusId := Without(f.paymentStatusId, id)), parties)
  {
    ToggleSpec(f.statusId, id);
    WithoutNoDups(f.statusId, id);
    ToggleSpec(f.paymentStatusId, id);
    WithoutNoDups(f.paymentStatusId, id);
  }

  /** The effect that runs whenever the party selection changes. */
  method PruneKapans(store: FilterStore, parties: seq<Party>)
    modifies store
    ensures store.Snapshot() == Pruned(old(store.Snapshot()), parties)
  {
    var options := KapanList(parties, store.partyId);
    store.kapanNumber := KeepIn(store.kapanNumber, options);
  }

  /** A party's checkbox: append it when unselected, remove it when selected;
      then the pruning effect runs. */
  method ToggleParty(store: FilterStore, parties: seq<Party>, id: string)
    modifies store
    ensures store.Snapshot() == PartyToggled(old(store.Snapshot()), parties, id)
  {
    var isSelected := id in store.partyId;
    if isSelected {
      store.partyId := Without(store.partyId, id);
    } else {
      store.partyId := store.partyId + [id];
    }
    PruneKapans(store, parties);
  }

  /** A party chip: removes exactly that party; then the pruning effect runs. */
  method RemovePartyChip(store: FilterStore, parties: seq<Party>, id: string)
    modifies store
    ensures store.Snapshot() == PartyRemoved(old(store.Snapshot()), parties, id)
  {
    store.partyId := Without(store.partyId, id);
    PruneKapans(store, parties);
  }

  /** A kapan checkbox. */
  method ToggleKapan(store: FilterStore, kp: string)
    modifies store
    ensures store.Snapshot() == old(store.Snapshot()).(kapanNumber := Toggle(old(store.kapanNumber), kp))
  {
    var isSelected := kp in store.kapanNumber;
    if isSelected {
      store.kapanNumber := Without(store.kapanNumber, kp);
    } else {
      store.kapanNumber := store.kapanNumber + [kp];
    }
  }

  /** A kapan chip: removes exactly that kapan number. */
  method RemoveKapanChip(store: FilterStore, kp: string)
    modifies store
    ensures store.Snapshot() == old(store.Snapshot()).(kapanNumber := Without(old(store.kapanNumber), kp))
  {
    store.kapanNumber := Without(store.kapanNumber, kp);
  }

  /** A status checkbox. */
  method ToggleStatus(store: FilterStore, id: string)
    modifies store
    ensures store.Snapshot() == old(store.Snapshot()).(statusId := Toggle(old(store.statusId), id))
  {
    var isSelected := id in store.statusId;
    if isSelected {
      store.statusId := Without(store.statusId, id);
    } else {
      store.statusId := store.statusId + [id];
    }
  }

  /** A status chip. */
  method RemoveStatusChip(store: FilterStore, id: string)
    modifies store
    ensures store.Snapshot() == old(store.Snapshot()).(statusId := Without(old(store.statusId), id))
  {
    store.statusId := Without(store.statusId, id);
  }

  /** A payment-status checkbox. */
  method TogglePaymentStatus(store: FilterStore, id: string)
    modifies store
    ensures store.Snapshot() == old(store.Snapshot()).(paymentStatusId := Toggle(old(store.paymentStatusId), id))
  {
    var isSelected := id in store.paymentStatusId;
    if isSelected {
      store.paymentStatusId := Without(store.paymentStatusId, id);
    } else {
      store.paymentStatusId := store.paymentStatusId + [id];
    }
  }

  /** A payment-status chip. */
  method RemovePaymentStatusChip(store: FilterStore, id: string)
    modifies store
    ensures store.Snapshot() == old(store.Snapshot()).(paymentStatusId := Without(old(store.paymentStatusId), id))
  {
    store.paymentStatusId := Without(store.paymentStatusId, id);
  }

  /** With only party B (kapans K2, K3) selected out of A (K1, K2) and B, the
      options are B's kapans, in B's order. */
  lemma OptionsAfterDeselect(a: Party, b: Party)
    requires a.id == "A" && a.kapanNumbers == ["K1", "K2"]
    requires b.id == "B" && b.kapanNumbers == ["K2", "K3"]
    ensures KapanList([a, b], ["B"]) == ["K2", "K3"]
  {
    assert SelectedParties([a, b], ["B"]) == [b] by {
      assert [a, b][1..] == [b];
      assert [b][1..] == [];
      assert SelectedParties([b], ["B"]) == [b] + SelectedParties([], ["B"]);
      assert SelectedParties([a, b], ["B"]) == [] + SelectedParties([b], ["B"]);
    }
    assert AllKapans([b]) == ["K2", "K3"];
    var s := ["K2", "K3"];
    assert IndexOf(s, s[0]) == 0;
    assert IndexOf(s, s[1]) == 1;
    assert FirstOccurrencesUpTo(s, 1) == [s[0]];
  }

  /** With parties A (kapans K1, K2) and B (K2, K3) and kapan K1 selected,
      deselecting A leaves the options [K2, K3] and prunes K1. */
  method DeselectPrunesKapan(a: Party, b: Party) returns (options: seq<string>, kapans: seq<string>)
    requires a.id == "A" && a.kapanNumbers == ["K1", "K2"]
    requires b.id == "B" && b.kapanNumbers == ["K2", "K3"]
    ensures options == ["K2", "K3"]
    ensures kapans == []
  {
    var store := new FilterStore();
    store.partyId := ["A", "B"];
    store.kapanNumber := ["K1"];
    ToggleParty(store, [a, b], "A");
    assert store.partyId == ["B"] by {
      assert Toggle(["A", "B"], "A") == ["B"];
    }
    OptionsAfterDeselect(a, b);
    options := KapanList([a, b], ["B"]);
    assert store.kapanNumber == KeepIn(["K1"], options);
    assert KeepIn(["K1"], ["K2", "K3"]) == [];
    kapans := store.kapanNumber;
  }
}
