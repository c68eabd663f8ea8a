/** The part of viz::ClientResourceProvider that the demo clients rely on, and the two orders
    in which they call it when the parent hands resources back.

    A provider is a table with one slot per resource id. Every call touches the slots of the
    ids it names and no other slot, so a provider is determined by its slots (SameSlots) and
    each proof below first looks at a single slot.
 */
module ResourceProvider {
  import opened Options

  datatype Entry = Entry(exported: nat, marked: bool)

  /** viz::ReturnedResource: the parent gives back `count` of its references to `id`. */
  datatype Returned = Returned(id: nat, count: nat)

  /** `released` counts the release callbacks that ran, `faults` the calls that named an
      id the provider does not hold (or took back more references than were out). */
  datatype Provider = Provider(
    nextId: nat,
    entries: map<nat, Entry>,
    released: multiset<nat>,
    faults: multiset<nat>)

  const EMPTY := Provider(0, map[], multiset{}, multiset{})

  datatype Slot = Slot(entry: Option<Entry>, released: nat, faults: nat)

  function At(p: Provider, id: nat): Slot {
    Slot(if id in p.entries then Some(p.entries[id]) else None, p.released[id], p.faults[id])
  }

  function Put(p: Provider, id: nat, s: Slot): Provider {
    p.(entries := if s.entry.Some? then p.entries[id := s.entry.value] else p.entries - {id},
       released := p.released[id := s.released],
       faults := p.faults[id := s.faults])
  }

  lemma AtPut(p: Provider, id: nat, s: Slot, j: nat)
    ensures At(Put(p, id, s), j) == if j == id then s else At(p, j)
  {
  }

  lemma SameSlots(p: Provider, q: Provider)
    requires p.nextId == q.nextId
    requires forall id: nat :: At(p, id) == At(q, id)
    ensures p == q
  {
    forall id: nat
      ensures id in p.entries <==> id in q.entries
      ensures id in p.entries ==> p.entries[id] == q.entries[id]
      ensures p.released[id] == q.released[id] && p.faults[id] == q.faults[id]
    {
      assert At(p, id) == At(q, id);
    }
    assert p.entries == q.entries;
    assert p.released == q.released;
    assert p.faults == q.faults;
  }

  // ----- the calls, slot by slot -----

  function Faulted(s: Slot): Slot { s.(faults := s.faults + 1) }

  function Freed(s: Slot): Slot { s.(entry := None, released := s.released + 1) }

  function SlotSend(s: Slot): Slot {
    match s.entry
    case None => Faulted(s)
    case Some(e) => s.(entry := Some(e.(exported := e.exported + 1)))
  }

  function SlotReturn(s: Slot, count: nat): Slot {
    match s.entry
    case None => Faulted(s)
    case Some(e) =>
      if count > e.exported then Faulted(s)
      else if count == e.exported && e.marked then Freed(s)
      else s.(entry := Some(e.(exported := e.exported - count)))
  }

  function SlotRemove(s: Slot): Slot {
    match s.entry
    case None => Faulted(s)
    case Some(e) =>
      if e.exported == 0 then Freed(s)
      else s.(entry := Some(e.(marked := true)))
  }

  function Import(p: Provider): Provider {
    p.(nextId := p.nextId + 1, entries := p.entries[p.nextId := Entry(0, false)])
  }

  function Send(p: Provider, id: nat): Provider { Put(p, id, SlotSend(At(p, id))) }

  function Return(p: Provider, r: Returned): Provider { Put(p, r.id, SlotReturn(At(p, r.id), r.count)) }

  function Remove(p: Provider, id: nat): Provider { Put(p, id, SlotRemove(At(p, id))) }

  function ReturnAll(p: Provider, batch: seq<Returned>): Provider
    decreases batch
  {
    if batch == [] then p else ReturnAll(Return(p, batch[0]), batch[1..])
  }

  function RemoveAll(p: Provider, ids: seq<nat>): Provider
    decreases ids
  {
    if ids == [] then p else RemoveAll(Remove(p, ids[0]), ids[1..])
  }

  function Ids(batch: seq<Returned>): (ids: seq<nat>)
    ensures |ids| == |batch| && forall i :: 0 <= i < |ids| ==> ids[i] == batch[i].id
  {
    seq(|batch|, i requires 0 <= i < |batch| => batch[i].id)
  }

  /** demo_viz_layer: take the returns first, then drop every id of the batch. */
  function LayerReclaim(p: Provider, batch: seq<Returned>): Provider {
    RemoveAll(ReturnAll(p, batch), Ids(batch))
  }

  /** demo_viz_gui: drop every id of the batch first, then take the returns. */
  function GuiReclaim(p: Provider, batch: seq<Returned>): Provider {
    ReturnAll(RemoveAll(p, Ids(batch)), batch)
  }

  // ----- what a batch does to one slot -----

  /** The counts that `batch` carries for `id`, in order. */
  function Counts(batch: seq<Returned>, id: nat): seq<nat> {
    if batch == [] then []
    else (if batch[0].id == id then [batch[0].count] else []) + Counts(batch[1..], id)
  }

  function Sum(counts: seq<nat>): nat {
    if counts == [] then 0 else counts[0] + Sum(counts[1..])
  }

  function Total(batch: seq<Returned>, id: nat): nat { Sum(Counts(batch, id)) }

  function SlotReturns(s: Slot, counts: seq<nat>): Slot
    decreases counts
  {
    if counts == [] then s else SlotReturns(SlotReturn(s, counts[0]), counts[1..])
  }

  function SlotRemoves(s: Slot, n: nat): Slot
    decreases n
  {
    if n == 0 then s else SlotRemoves(SlotRemove(s), n - 1)
  }

  lemma CountsStep(batch: seq<Returned>, id: nat)
    requires batch != []
    ensures batch[0].id != id ==> Counts(batch, id) == Counts(batch[1..], id)
    ensures batch[0].id == id ==>
              && Counts(batch, id) != []
              && Counts(batch, id)[0] == batch[0].count && Counts(batch, id)[1..] == Counts(batch[1..], id)
  {
  }

  lemma {:induction false} ReturnAllAt(p: Provider, batch: seq<Returned>, id: nat)
    ensures At(ReturnAll(p, batch), id) == SlotReturns(At(p, id), Counts(batch, id))
    ensures ReturnAll(p, batch).nextId == p.nextId
    decreases batch
  {
    if batch != [] {
      var q := Return(p, batch[0]);
      AtPut(p, batch[0].id, SlotReturn(At(p, batch[0].id), batch[0].count), id);
      ReturnAllAt(q, batch[1..], id);
      CountsStep(batch, id);
    }
  }

  lemma {:induction false} RemoveAllAt(p: Provider, ids: seq<nat>, id: nat)
    ensures At(RemoveAll(p, ids), id) == SlotRemoves(At(p, id), multiset(ids)[id])
    ensures RemoveAll(p, ids).nextId == p.nextId
    decreases ids
  {
    if ids != [] {
      AtPut(p, ids[0], SlotRemove(At(p, ids[0])), id);
      RemoveAllAt(Remove(p, ids[0]), ids[1..], id);
      assert ids == [ids[0]] + ids[1..];
    }
  }

  lemma {:induction false} IdsCount(batch: seq<Returned>, id: nat)
    ensures multiset(Ids(batch))[id] == |Counts(batch, id)|
  {
    if batch != [] {
      IdsCount(batch[1..], id);
      assert Ids(batch) == [batch[0].id] + Ids(batch[1..]);
    }
  }

  ghost predicate Positive(batch: seq<Returned>) {
    forall r :: r in batch ==> r.count >= 1
  }

  lemma {:induction false} PositiveCounts(batch: seq<Returned>, id: nat)
    requires Positive(batch)
    ensures forall i :: 0 <= i < |Counts(batch, id)| ==> Counts(batch, id)[i] >= 1
    ensures |Counts(batch, id)| <= Total(batch, id)
    ensures Counts(batch, id) != [] <==> id in Ids(batch)
  {
    if batch != [] {
      PositiveCounts(batch[1..], id);
      assert id in Ids(batch) <==> id == batch[0].id || id in Ids(batch[1..]) by {
        assert Ids(batch) == [batch[0].id] + Ids(batch[1..]);
      }
      CountsStep(batch, id);
      assert batch[0] in batch;
    }
  }

  /** Where a slot ends up after legal returns: the last reference frees it only if it was marked. */
  lemma {:induction false} ReturnsClosedForm(s: Slot, counts: seq<nat>)
    requires s.entry.Some? && Sum(counts) <= s.entry.value.exported
    requires forall i :: 0 <= i < |counts| ==> counts[i] >= 1
    ensures var e := s.entry.value;
            SlotReturns(s, counts) ==
            if counts != [] && e.marked && Sum(counts) == e.exported then Freed(s)
            else s.(entry := Some(Entry(e.exported - Sum(counts), e.marked)))
    decreases counts
  {
    if counts != [] {
      if counts[1..] != [] {
        assert Sum(counts[1..]) >= counts[1..][0] >= 1;
      }
      if SlotReturn(s, counts[0]).entry.Some? {
        ReturnsClosedForm(SlotReturn(s, counts[0]), counts[1..]);
      }
    }
  }

  lemma {:induction false} RemovesOfAbsent(s: Slot, n: nat)
    requires s.entry.None?
    ensures SlotRemoves(s, n) == s.(faults := s.faults + n)
    decreases n
  {
    if n > 0 {
      RemovesOfAbsent(SlotRemove(s), n - 1);
    }
  }

  lemma {:induction false} RemovesOfExported(s: Slot, n: nat)
    requires s.entry.Some? && s.entry.value.exported > 0
    ensures SlotRemoves(s, n) == if n == 0 then s else s.(entry := Some(s.entry.value.(marked := true)))
    decreases n
  {
    if n > 0 {
      RemovesOfExported(SlotRemove(s), n - 1);
    }
  }

  lemma SlotLayer(s: Slot, counts: seq<nat>)
    requires s.entry.Some? && counts != [] && Sum(counts) <= s.entry.value.exported
    requires forall i :: 0 <= i < |counts| ==> counts[i] >= 1
    ensures var e := s.entry.value;
            SlotRemoves(SlotReturns(s, counts), |counts|) ==
            if Sum(counts) < e.exported then s.(entry := Some(Entry(e.exported - Sum(counts), true)))
            else Freed(s).(faults := s.faults + |counts| - if e.marked then 0 else 1)
  {
    ReturnsClosedForm(s, counts);
    var r := SlotReturns(s, counts);
    if r.entry.None? {
      RemovesOfAbsent(r, |counts|);
    } else if r.entry.value.exported > 0 {
      RemovesOfExported(r, |counts|);
    } else {
      RemovesOfAbsent(SlotRemove(r), |counts| - 1);
    }
  }

  lemma SlotGui(s: Slot, counts: seq<nat>)
    requires s.entry.Some? && counts != [] && Sum(counts) <= s.entry.value.exported
    requires forall i :: 0 <= i < |counts| ==> counts[i] >= 1
    ensures var e := s.entry.value;
            SlotReturns(SlotRemoves(s, |counts|), counts) ==
            if Sum(counts) < e.exported then s.(entry := Some(Entry(e.exported - Sum(counts), true)))
            else Freed(s)
  {
    assert Sum(counts) >= counts[0] >= 1;
    RemovesOfExported(s, |counts|);
    ReturnsClosedForm(SlotRemoves(s, |counts|), counts);
  }

  // ----- the two orders -----

  /** The parent returns only references it holds, at least one with each entry. */
  ghost predicate Legal(p: Provider, batch: seq<Returned>) {
    && Positive(batch)
    && forall id :: id in Ids(batch) ==> id in p.entries && Total(batch, id) <= p.entries[id].exported
  }

  /** If the counts return an id completely, it is unmarked and named once. */
  predicate Agrees(e: Entry, counts: seq<nat>) {
    Sum(counts) == e.exported ==> !e.marked && |counts| == 1
  }

  /** Every id that `batch` brings back completely is unmarked and named once. */
  ghost predicate OrderFree(p: Provider, batch: seq<Returned>)
    requires Legal(p, batch)
  {
    forall id :: id in Ids(batch) ==> Agrees(p.entries[id], Counts(batch, id))
  }

  lemma ReclaimAt(p: Provider, batch: seq<Returned>, id: nat)
    ensures At(LayerReclaim(p, batch), id)
         == SlotRemoves(SlotReturns(At(p, id), Counts(batch, id)), |Counts(batch, id)|)
    ensures At(GuiReclaim(p, batch), id)
         == SlotReturns(SlotRemoves(At(p, id), |Counts(batch, id)|), Counts(batch, id))
    ensures LayerReclaim(p, batch).nextId == GuiReclaim(p, batch).nextId == p.nextId
  {
    IdsCount(batch, id);
    ReturnAllAt(p, batch, id);
    RemoveAllAt(ReturnAll(p, batch), Ids(batch), id);
    RemoveAllAt(p, Ids(batch), id);
    ReturnAllAt(RemoveAll(p, Ids(batch)), batch, id);
  }

  lemma OtherSlot(p: Provider, batch: seq<Returned>, id: nat)
    requires Positive(batch) && id !in Ids(batch)
    ensures At(LayerReclaim(p, batch), id) == At(GuiReclaim(p, batch), id) == At(p, id)
  {
    PositiveCounts(batch, id);
    ReclaimAt(p, batch, id);
  }

  lemma SlotsAgree(s: Slot, counts: seq<nat>)
    requires s.entry.Some? && counts != [] && Sum(counts) <= s.entry.value.exported
    requires forall i :: 0 <= i < |counts| ==> counts[i] >= 1
    ensures var layer, gui := SlotRemoves(SlotReturns(s, counts), |counts|), SlotReturns(SlotRemoves(s, |counts|), counts);
            && (layer == gui <==> Agrees(s.entry.value, counts))
            && (layer.faults == s.faults <==> Agrees(s.entry.value, counts))
            && gui.faults == s.faults
  {
    SlotLayer(s, counts);
    SlotGui(s, counts);
  }

  lemma ReclaimSlot(p: Provider, batch: seq<Returned>, id: nat)
    requires Legal(p, batch) && id in Ids(batch)
    ensures var layer, gui := At(LayerReclaim(p, batch), id), At(GuiReclaim(p, batch), id);
            && (layer == gui <==> Agrees(p.entries[id], Counts(batch, id)))
            && (layer.faults == p.faults[id] <==> Agrees(p.entries[id], Counts(batch, id)))
            && gui.faults == p.faults[id]
  {
    PositiveCounts(batch, id);
    ReclaimAt(p, batch, id);
    SlotsAgree(At(p, id), Counts(batch, id));
  }

  /** The two reclaim orders leave the same provider, with the same callbacks run, exactly when
      no fully returned id was already marked or is named twice. */
  lemma ReclaimOrdersAgree(p: Provider, batch: seq<Returned>)
    requires Legal(p, batch)
    ensures LayerReclaim(p, batch) == GuiReclaim(p, batch) <==> OrderFree(p, batch)
  {
    ReclaimAt(p, batch, 0);
    forall id: nat
      ensures At(LayerReclaim(p, batch), id) == At(GuiReclaim(p, batch), id)
         <==> (id in Ids(batch) ==> Agrees(p.entries[id], Counts(batch, id)))
    {
      if id in Ids(batch) {
        ReclaimSlot(p, batch, id);
      } else {
        OtherSlot(p, batch, id);
      }
    }
    if OrderFree(p, batch) {
      SameSlots(LayerReclaim(p, batch), GuiReclaim(p, batch));
    }
  }

  /** The same condition decides whether the layer order names an absent id;
      the gui order never does. */
  lemma ReclaimFaults(p: Provider, batch: seq<Returned>)
    requires Legal(p, batch)
    ensures LayerReclaim(p, batch).faults == p.faults <==> OrderFree(p, batch)
    ensures GuiReclaim(p, batch).faults == p.faults
  {
    var layer, gui := LayerReclaim(p, batch), GuiReclaim(p, batch);
    forall id: nat
      ensures gui.faults[id] == p.faults[id]
      ensures layer.faults[id] == p.faults[id] <==> (id in Ids(batch) ==> Agrees(p.entries[id], Counts(batch, id)))
    {
      assert At(layer, id).faults == layer.faults[id] && At(gui, id).faults == gui.faults[id];
      if id in Ids(batch) {
        ReclaimSlot(p, batch, id);
      } else {
        OtherSlot(p, batch, id);
      }
    }
    assert gui.faults == p.faults;
    if OrderFree(p, batch) {
      assert layer.faults == p.faults;
    }
  }

  lemma HalfBatch(id: nat)
    ensures var half := [Returned(id, 1)];
            && Positive(half) && Ids(half) == [id] && Counts(half, id) == [1] && Sum([1]) == 1
  {
    var half := [Returned(id, 1)];
    assert half[1..] == [] && Counts(half[1..], id) == [];
    assert [1][1..] == [];
  }

  /** One of the two references to an id comes back, twice: the first return is taken alike in both orders,
      with the second the layer order names an absent id and the gui order does not. */
  lemma PartialReturnsBreakLayerOrder(id: nat)
    ensures var p, q := Provider(id + 1, map[id := Entry(2, false)], multiset{}, multiset{}),
                        Provider(id + 1, map[id := Entry(1, true)], multiset{}, multiset{});
            var half := [Returned(id, 1)];
            && Legal(p, half) && LayerReclaim(p, half) == GuiReclaim(p, half) == q
            && Legal(q, half) && LayerReclaim(q, half).faults != multiset{} && GuiReclaim(q, half).faults == multiset{}
  {
    var p := Provider(id + 1, map[id := Entry(2, false)], multiset{}, multiset{});
    var q := Provider(id + 1, map[id := Entry(1, true)], multiset{}, multiset{});
    var half := [Returned(id, 1)];
    HalfBatch(id);
    assert Legal(p, half) && Legal(q, half);
    ReclaimOrdersAgree(p, half);
    ReclaimFaults(q, half);
    assert !Agrees(q.entries[id], Counts(half, id)) && id in Ids(half);
    forall j: nat ensures At(GuiReclaim(p, half), j) == At(q, j) {
      if j == id {
        ReclaimAt(p, half, id);
        SlotGui(At(p, id), [1]);
      } else {
        OtherSlot(p, half, j);
      }
    }
    ReclaimAt(p, half, id);
    SameSlots(GuiReclaim(p, half), q);
  }

  // ----- the provider as the clients hold it -----

  class ClientResourceProvider {
    var nextId: nat
    var entries: map<nat, Entry>
    var released: multiset<nat>
    var faults: multiset<nat>

    function Value(): Provider
      reads this
    {
      Provider(nextId, entries, released, faults)
    }

    constructor ()
      ensures Value() == EMPTY
    {
      nextId, entries, released, faults := 0, map[], multiset{}, multiset{};
    }

    method ImportResource() returns (id: nat)
      modifies this
      ensures id == old(nextId)
      ensures Value() == Import(old(Value()))
    {
      id := nextId;
      entries := entries[id := Entry(0, false)];
      nextId := nextId + 1;
    }

    method Fault(id: nat)
      modifies this
      ensures Value() == Put(old(Value()), id, Faulted(At(old(Value()), id)))
    {
      assert if id in entries then entries[id := entries[id]] == entries else entries - {id} == entries;
      faults := faults[id := faults[id] + 1];
    }

    method Store(id: nat, e: Entry)
      modifies `entries
      ensures Value() == Put(old(Value()), id, At(old(Value()), id).(entry := Some(e)))
    {
      entries := entries[id := e];
    }

    method Free(id: nat)
      modifies this
      ensures Value() == Put(old(Value()), id, Freed(At(old(Value()), id)))
    {
      entries := entries - {id};
      released := released[id := released[id] + 1];
    }

    method PrepareSendToParent(id: nat)
      modifies this
      ensures Value() == Send(old(Value()), id)
    {
      if id in entries {
        Store(id, entries[id].(exported := entries[id].exported + 1));
      } else {
        Fault(id);
      }
    }

    method ReceiveReturn(r: Returned)
      modifies this
      ensures Value() == Return(old(Value()), r)
    {
      if r.id !in entries || r.count > entries[r.id].exported {
        Fault(r.id);
      } else if r.count == entries[r.id].exported && entries[r.id].marked {
        Free(r.id);
      } else {
        Store(r.id, entries[r.id].(exported := entries[r.id].exported - r.count));
      }
    }

    method ReceiveReturnsFromParent(batch: seq<Returned>)
      modifies this
      ensures Value() == ReturnAll(old(Value()), batch)
    {
      for i := 0 to |batch|
        invariant ReturnAll(Value(), batch[i..]) == ReturnAll(old(Value()), batch)
      {
        assert batch[i..][1..] == batch[i + 1..];
        ReceiveReturn(batch[i]);
      }
    }

    method RemoveImportedResource(id: nat)
      modifies this
      ensures Value() == Remove(old(Value()), id)
    {
      if id !in entries {
        Fault(id);
      } else if entries[id].exported == 0 {
        Free(id);
      } else {
        Store(id, entries[id].(marked := true));
      }
    }

    /** The loop of demo_viz_layer's DidReceiveCompositorFrameAck and ReclaimResources. */
    method ReclaimAsLayer(resources: seq<Returned>)
      modifies this
      ensures Value() == LayerReclaim(old(Value()), resources)
    {
      ReceiveReturnsFromParent(resources);
      RemoveEach(resources);
    }

    /** demo_viz_gui's ReclaimResources. */
    method ReclaimAsGui(resources: seq<Returned>)
      modifies this
      ensures Value() == GuiReclaim(old(Value()), resources)
    {
      RemoveEach(resources);
      ReceiveReturnsFromParent(resources);
    }

    method RemoveEach(resources: seq<Returned>)
      modifies this
      ensures Value() == RemoveAll(old(Value()), Ids(resources))
    {
      for i := 0 to |resources|
        invariant RemoveAll(Value(), Ids(resources)[i..]) == RemoveAll(old(Value()), Ids(resources))
      {
        assert Ids(resources)[i..][1..] == Ids(resources)[i + 1..];
        RemoveImportedResource(resources[i].id);
      }
    }
  }
}
