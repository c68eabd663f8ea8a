/** The life of every resource a demo_viz_layer client makes, over all runs.

    The client runs its tasks (begin-frame, ack, reclaim) to completion on one thread, one provider
    call at a time; the parent returns references whenever it likes, in batches of any shape, and
    its messages wait in a pipe. Nothing is assumed of the parent except that it returns only
    references it holds. One step of the run is one provider call or one message.
 */
module ResourceRun {
  import opened Options
  import opened ResourceProvider

  /** What the client thread still has to do of its current task. */
  datatype Task =
    | Idle
    | Building(unsent: Option<nat>, left: nat)
    | Returning(batch: seq<Returned>)
    | Removing(ids: seq<nat>)

  /** `building` is the resource list of the frame under construction, `frames` the lists of the
      submitted frames, `held` the references at the parent, `inflight` the batches on their way back. */
  datatype World = World(
    provider: Provider,
    task: Task,
    building: seq<nat>,
    frames: seq<seq<nat>>,
    held: multiset<nat>,
    inflight: seq<seq<Returned>>)

  datatype Event = BeginFrame(resources: nat) | Continue | ParentReturns(batch: seq<Returned>) | Deliver

  const START := World(EMPTY, Idle, [], [], multiset{}, [])

  /** The parent gives back only what it holds, and at least one reference with each entry. */
  ghost predicate Fits(batch: seq<Returned>, held: multiset<nat>) {
    Positive(batch) && forall id :: id in Ids(batch) ==> Total(batch, id) <= held[id]
  }

  ghost predicate Enabled(w: World, e: Event) {
    match e
    case BeginFrame(_) => w.task.Idle?
    case Continue => !w.task.Idle?
    case ParentReturns(batch) => Fits(batch, w.held)
    case Deliver => w.task.Idle? && w.inflight != []
  }

  function Continued(w: World): World {
    match w.task
    case Idle => w
    case Building(Some(id), left) =>
      w.(provider := Send(w.provider, id), task := Building(None, left), building := w.building + [id])
    case Building(None, left) =>
      if left > 0 then
        w.(provider := Import(w.provider), task := Building(Some(w.provider.nextId), left - 1))
      else
        w.(task := Idle, building := [], frames := w.frames + [w.building],
           held := w.held + multiset(w.building))
    case Returning(batch) => w.(provider := ReturnAll(w.provider, batch), task := Removing(Ids(batch)))
    case Removing(ids) =>
      if ids == [] then w.(task := Idle)
      else w.(provider := Remove(w.provider, ids[0]), task := Removing(ids[1..]))
  }

  function Without(held: multiset<nat>, batch: seq<Returned>): multiset<nat> {
    if batch == [] then held
    else
      var r := batch[0];
      Without(held[r.id := if held[r.id] >= r.count then held[r.id] - r.count else 0], batch[1..])
  }

  function Apply(w: World, e: Event): World {
    match e
    case BeginFrame(n) => w.(task := Building(None, n))
    case Continue => Continued(w)
    case ParentReturns(batch) => w.(held := Without(w.held, batch), inflight := w.inflight + [batch])
    case Deliver => if w.inflight == [] then w else w.(task := Returning(w.inflight[0]), inflight := w.inflight[1..])
  }

  function Exec(events: seq<Event>): World {
    if events == [] then START
    else Apply(Exec(events[..|events| - 1]), events[|events| - 1])
  }

  ghost predicate Feasible(events: seq<Event>) {
    events != [] ==>
      && Feasible(events[..|events| - 1])
      && Enabled(Exec(events[..|events| - 1]), events[|events| - 1])
  }

  // ----- counting the references to one id -----

  function InFlight(batches: seq<seq<Returned>>, id: nat): nat {
    if batches == [] then 0 else Total(batches[0], id) + InFlight(batches[1..], id)
  }

  function InFrames(frames: seq<seq<nat>>, id: nat): nat {
    if frames == [] then 0 else InFrames(frames[..|frames| - 1], id) + multiset(frames[|frames| - 1])[id]
  }

  function Handling(t: Task, id: nat): nat { if t.Returning? then Total(t.batch, id) else 0 }

  /** References to `id` that are out of the provider: in the frame being built, at the parent,
      on the way back, or in the batch the client is handling. */
  function Tokens(w: World, id: nat): nat {
    multiset(w.building)[id] + w.held[id] + InFlight(w.inflight, id) + Handling(w.task, id)
  }

  function Removals(t: Task, id: nat): nat {
    match t
    case Returning(batch) => |Counts(batch, id)|
    case Removing(ids) => multiset(ids)[id]
    case _ => 0
  }

  function Sent(w: World, id: nat): nat { multiset(w.building)[id] + InFrames(w.frames, id) }

  predicate Waiting(w: World, id: nat) { w.task.Building? && w.task.unsent == Some(id) }

  /** `Back` is the moment between taking a return and dropping the id. */
  datatype Phase = Unborn | Unsent | Exported | Back | Released

  predicate InPhase(w: World, id: nat, ph: Phase) {
    var s := At(w.provider, id);
    match ph
    case Unborn => s == Slot(None, 0, 0) && !Waiting(w, id) && Tokens(w, id) == Removals(w.task, id) == Sent(w, id) == 0
    case Unsent => s == Slot(Some(Entry(0, false)), 0, 0) && Waiting(w, id) && Tokens(w, id) == Removals(w.task, id) == Sent(w, id) == 0
    case Exported => s == Slot(Some(Entry(1, false)), 0, 0) && !Waiting(w, id) && Tokens(w, id) == Sent(w, id) == 1
                     && Removals(w.task, id) == Handling(w.task, id)
    case Back => s == Slot(Some(Entry(0, false)), 0, 0) && w.task.Removing? && Tokens(w, id) == 0
                     && Removals(w.task, id) == Sent(w, id) == 1
    case Released => s == Slot(None, 1, 0) && !Waiting(w, id) && Sent(w, id) == 1 && Tokens(w, id) == Removals(w.task, id) == 0
  }

  predicate Accounted(w: World, id: nat) {
    if id >= w.provider.nextId then InPhase(w, id, Unborn)
    else InPhase(w, id, Unsent) || InPhase(w, id, Exported) || InPhase(w, id, Back) || InPhase(w, id, Released)
  }

  ghost predicate Inv(w: World) {
    && (forall id: nat :: Accounted(w, id))
    && (forall i :: 0 <= i < |w.inflight| ==> Positive(w.inflight[i]))
    && (w.task.Returning? ==> Positive(w.task.batch))
    && (!w.task.Building? ==> w.building == [])
  }

  // ----- the invariant is kept by every step -----

  lemma {:induction false} InFlightAppend(batches: seq<seq<Returned>>, b: seq<Returned>, id: nat)
    ensures InFlight(batches + [b], id) == InFlight(batches, id) + Total(b, id)
  {
    if batches == [] {
      assert batches + [b] == [b];
    } else {
      assert (batches + [b])[1..] == batches[1..] + [b];
      InFlightAppend(batches[1..], b, id);
    }
  }

  lemma {:induction false} WithoutTotal(held: multiset<nat>, batch: seq<Returned>, id: nat)
    requires Total(batch, id) <= held[id]
    ensures Without(held, batch)[id] == held[id] - Total(batch, id)
    decreases batch
  {
    if batch != [] {
      CountsStep(batch, id);
      var r := batch[0];
      var rest := held[r.id := if held[r.id] >= r.count then held[r.id] - r.count else 0];
      WithoutTotal(rest, batch[1..], id);
    }
  }

  lemma {:induction false} NoCounts(batch: seq<Returned>, id: nat)
    requires Positive(batch)
    ensures Total(batch, id) == 0 <==> Counts(batch, id) == []
    ensures Total(batch, id) == 1 ==> Counts(batch, id) == [1]
  {
    PositiveCounts(batch, id);
    var cs := Counts(batch, id);
    if cs != [] {
      if cs[1..] != [] {
        assert Sum(cs[1..]) >= cs[1..][0] >= 1;
      }
      assert Total(batch, id) == 1 ==> cs == [1];
    }
  }

  lemma SentOther(w: World, id: nat)
    requires w.task.Building? && w.task.unsent.Some? && id != w.task.unsent.value
    ensures var w' := Continued(w);
            && At(w'.provider, id) == At(w.provider, id) && w'.provider.nextId == w.provider.nextId
            && Tokens(w', id) == Tokens(w, id) && Sent(w', id) == Sent(w, id)
  {
    var x := w.task.unsent.value;
    AtPut(w.provider, x, SlotSend(At(w.provider, x)), id);
    assert multiset(w.building + [x])[id] == multiset(w.building)[id];
  }

  lemma SentNow(w: World)
    requires w.task.Building? && w.task.unsent.Some? && InPhase(w, w.task.unsent.value, Unsent)
    ensures InPhase(Continued(w), w.task.unsent.value, Exported)
    ensures Continued(w).provider.nextId == w.provider.nextId
  {
    var x := w.task.unsent.value;
    AtPut(w.provider, x, SlotSend(At(w.provider, x)), x);
    assert multiset(w.building + [x])[x] == multiset(w.building)[x] + 1;
  }

  lemma SendStep(w: World, id: nat)
    requires Inv(w) && w.task.Building? && w.task.unsent.Some?
    ensures Accounted(Continued(w), id)
  {
    assert Accounted(w, id);
    if id == w.task.unsent.value {
      SentNow(w);
    } else {
      SentOther(w, id);
    }
  }

  lemma ImportStep(w: World, id: nat)
    requires Inv(w) && w.task.Building? && w.task.unsent.None? && w.task.left > 0
    ensures Accounted(Continued(w), id)
  {
    assert Accounted(w, id);
    assert id != w.provider.nextId ==> At(Import(w.provider), id) == At(w.provider, id);
  }

  lemma SubmitStep(w: World, id: nat)
    requires Inv(w) && w.task.Building? && w.task.unsent.None? && w.task.left == 0
    ensures Accounted(Continued(w), id)
  {
    assert Accounted(w, id);
    var w' := Continued(w);
    assert w'.frames[..|w'.frames| - 1] == w.frames;
    assert Sent(w', id) == Sent(w, id) && Tokens(w', id) == Tokens(w, id);
  }

  lemma ReturnOnce(s: Slot)
    ensures SlotReturns(s, []) == s && SlotReturns(s, [1]) == SlotReturn(s, 1)
  {
    var t := SlotReturn(s, 1);
    assert [1][1..] == [] && SlotReturns(t, []) == t;
  }

  /** What the batch being handled says of one id: nothing, or one reference of an exported one. */
  lemma BatchOf(w: World, id: nat)
    requires Inv(w) && w.task.Returning?
    ensures var counts := Counts(w.task.batch, id);
            counts == [] || (counts == [1] && InPhase(w, id, Exported))
    ensures Total(w.task.batch, id) == |Counts(w.task.batch, id)|
  {
    assert Accounted(w, id);
    NoCounts(w.task.batch, id);
  }

  lemma ReturnStep(w: World, id: nat)
    requires Inv(w) && w.task.Returning?
    ensures Accounted(Continued(w), id)
  {
    var batch, w' := w.task.batch, Continued(w);
    BatchOf(w, id);
    assert At(w'.provider, id) == SlotReturns(At(w.provider, id), Counts(batch, id)) by {
      ReturnAllAt(w.provider, batch, id);
    }
    ReturnOnce(At(w.provider, id));
    assert w'.provider.nextId == w.provider.nextId by {
      ReturnAllAt(w.provider, batch, id);
    }
    assert Removals(w'.task, id) == |Counts(batch, id)| by {
      IdsCount(batch, id);
    }
    assert Accounted(w, id);
    assert Counts(batch, id) == [1] ==> InPhase(w', id, Back);
  }

  lemma RemoveStep(w: World, id: nat)
    requires Inv(w) && w.task.Removing?
    ensures Accounted(Continued(w), id)
  {
    var ids, w' := w.task.ids, Continued(w);
    assert Accounted(w, id);
    if ids != [] {
      assert multiset(ids)[id] == multiset(ids[1..])[id] + if id == ids[0] then 1 else 0 by {
        assert ids == [ids[0]] + ids[1..];
      }
      AtPut(w.provider, ids[0], SlotRemove(At(w.provider, ids[0])), id);
      assert id == ids[0] ==> InPhase(w, id, Back) && InPhase(w', id, Released);
    }
  }

  lemma BeginStep(w: World, n: nat, id: nat)
    requires Inv(w) && Enabled(w, BeginFrame(n))
    ensures Accounted(Apply(w, BeginFrame(n)), id)
  {
    assert Accounted(w, id);
  }

  /** References only move from the parent into the pipe. */
  lemma ParentTokens(w: World, batch: seq<Returned>, id: nat)
    requires Fits(batch, w.held)
    ensures Tokens(Apply(w, ParentReturns(batch)), id) == Tokens(w, id)
  {
    assert Total(batch, id) <= w.held[id] by {
      PositiveCounts(batch, id);
    }
    WithoutTotal(w.held, batch, id);
    InFlightAppend(w.inflight, batch, id);
  }

  lemma SameAccount(w: World, w': World, id: nat)
    requires Inv(w) && w' == w.(held := w'.held, inflight := w'.inflight) && Tokens(w', id) == Tokens(w, id)
    ensures Accounted(w', id)
  {
    assert Accounted(w, id);
  }

  lemma ParentStep(w: World, batch: seq<Returned>, id: nat)
    requires Inv(w) && Enabled(w, ParentReturns(batch))
    ensures Accounted(Apply(w, ParentReturns(batch)), id)
  {
    ParentTokens(w, batch, id);
    SameAccount(w, Apply(w, ParentReturns(batch)), id);
  }

  lemma DeliverTokens(w: World, id: nat)
    requires w.task.Idle? && w.inflight != [] && Positive(w.inflight[0])
    ensures var w' := Apply(w, Deliver);
            && Tokens(w', id) == Tokens(w, id)
            && (Tokens(w, id) <= 1 ==> Removals(w'.task, id) == Handling(w'.task, id))
  {
    NoCounts(w.inflight[0], id);
  }

  lemma DeliverStep(w: World, id: nat)
    requires Inv(w) && Enabled(w, Deliver)
    ensures Accounted(Apply(w, Deliver), id)
  {
    DeliverTokens(w, id);
    assert Accounted(w, id);
  }

  lemma StepInv(w: World, e: Event)
    requires Inv(w) && Enabled(w, e)
    ensures Inv(Apply(w, e))
  {
    forall id: nat ensures Accounted(Apply(w, e), id) {
      if e.BeginFrame? {
        BeginStep(w, e.resources, id);
      } else if e.ParentReturns? {
        ParentStep(w, e.batch, id);
      } else if e.Deliver? {
        DeliverStep(w, id);
      } else if w.task.Building? {
        if w.task.unsent.Some? {
          SendStep(w, id);
        } else if w.task.left > 0 {
          ImportStep(w, id);
        } else {
          SubmitStep(w, id);
        }
      } else if w.task.Returning? {
        ReturnStep(w, id);
      } else {
        RemoveStep(w, id);
      }
    }
  }

  lemma {:induction false} RunInv(events: seq<Event>)
    requires Feasible(events)
    ensures Inv(Exec(events))
  {
    if events != [] {
      RunInv(events[..|events| - 1]);
      StepInv(Exec(events[..|events| - 1]), events[|events| - 1]);
    }
  }

  // ----- what it means -----

  /** At every state of every run each id ever made is in exactly one phase, and the ids to come in none. */
  lemma {:induction false} OnePhase(events: seq<Event>, id: nat)
    requires Feasible(events)
    ensures var w := Exec(events);
            if id < w.provider.nextId then
              exists ph :: ph != Unborn && InPhase(w, id, ph) && forall other :: InPhase(w, id, other) ==> other == ph
            else forall ph :: InPhase(w, id, ph) <==> ph == Unborn
  {
    RunInv(events);
    var w := Exec(events);
    assert Accounted(w, id);
    var ph := if id >= w.provider.nextId then Unborn
              else if InPhase(w, id, Unsent) then Unsent
              else if InPhase(w, id, Exported) then Exported
              else if InPhase(w, id, Back) then Back
              else Released;
    assert InPhase(w, id, ph);
  }

  lemma Faultless(w: World, id: nat)
    requires Accounted(w, id)
    ensures w.provider.faults[id] == 0 && w.provider.released[id] <= 1
  {
    assert At(w.provider, id).faults == w.provider.faults[id];
  }

  /** No run makes the provider fault, so RemoveImportedResource never names an absent id;
      and no release callback runs twice. */
  lemma {:induction false} NoFaults(events: seq<Event>)
    requires Feasible(events)
    ensures Exec(events).provider.faults == multiset{}
    ensures forall id: nat :: Exec(events).provider.released[id] <= 1
  {
    RunInv(events);
    var p := Exec(events).provider;
    forall id: nat ensures p.faults[id] == 0 && p.released[id] <= 1 {
      Faultless(Exec(events), id);
    }
    assert p.faults == multiset{};
  }

  /** Between tasks the client holds no half-made or half-dropped resource. */
  lemma {:induction false} BetweenTasks(events: seq<Event>, id: nat)
    requires Feasible(events) && Exec(events).task.Idle? && id < Exec(events).provider.nextId
    ensures InPhase(Exec(events), id, Exported) || InPhase(Exec(events), id, Released)
  {
    RunInv(events);
    assert Accounted(Exec(events), id);
  }

  lemma {:induction false} OnlyFrame(frames: seq<seq<nat>>, id: nat)
    ensures InFrames(frames, id) == 0 ==> forall k :: 0 <= k < |frames| ==> id !in frames[k]
    ensures InFrames(frames, id) == 1 ==>
              exists k :: 0 <= k < |frames| && id in frames[k] && multiset(frames[k])[id] == 1
                          && forall j :: 0 <= j < |frames| && j != k ==> id !in frames[j]
  {
    if frames != [] {
      var n := |frames| - 1;
      var front, last := frames[..n], frames[n];
      OnlyFrame(front, id);
      assert multiset(last)[id] == 0 <==> id !in last;
      assert forall j :: 0 <= j < n ==> front[j] == frames[j];
      if InFrames(frames, id) == 1 {
        if multiset(last)[id] == 1 {
          assert id in frames[n];
        } else {
          var k :| 0 <= k < |front| && id in front[k] && multiset(front[k])[id] == 1
                 && forall j :: 0 <= j < |front| && j != k ==> id !in front[j];
          assert id in frames[k] && multiset(frames[k])[id] == 1;
        }
      }
    }
  }

  /** Between tasks every id is in the resource list of exactly one submitted frame, once. */
  lemma {:induction false} SentInOneFrame(events: seq<Event>, id: nat)
    requires Feasible(events) && Exec(events).task.Idle? && id < Exec(events).provider.nextId
    ensures var frames := Exec(events).frames;
            exists k :: 0 <= k < |frames| && id in frames[k] && multiset(frames[k])[id] == 1
                        && forall j :: 0 <= j < |frames| && j != k ==> id !in frames[j]
  {
    BetweenTasks(events, id);
    RunInv(events);
    OnlyFrame(Exec(events).frames, id);
  }

  /** Once the parent has returned everything, the provider is empty and every callback ran once. */
  lemma {:induction false} Drained(events: seq<Event>)
    requires Feasible(events)
    requires var w := Exec(events); w.task.Idle? && w.held == multiset{} && w.inflight == []
    ensures var p := Exec(events).provider;
            p.entries == map[] && forall id: nat :: p.released[id] == if id < p.nextId then 1 else 0
  {
    RunInv(events);
    var w := Exec(events);
    forall id: nat
      ensures id !in w.provider.entries && w.provider.released[id] == if id < w.provider.nextId then 1 else 0
    {
      assert Accounted(w, id);
      assert At(w.provider, id).released == w.provider.released[id];
    }
  }

  lemma TokensAreExports(w: World, id: nat)
    requires Accounted(w, id)
    ensures Tokens(w, id) == if id in w.provider.entries then w.provider.entries[id].exported else 0
  {
    var e := At(w.provider, id).entry;
    assert e.Some? <==> id in w.provider.entries;
  }

  /** References are conserved: what the provider counts as exported is what is out. */
  lemma {:induction false} Conservation(events: seq<Event>, id: nat)
    requires Feasible(events)
    ensures var w := Exec(events);
            Tokens(w, id) == if id in w.provider.entries then w.provider.entries[id].exported else 0
  {
    RunInv(events);
    TokensAreExports(Exec(events), id);
  }

  lemma BatchEntry(w: World, id: nat)
    requires Inv(w) && w.task.Returning? && id in Ids(w.task.batch)
    ensures id in w.provider.entries && Total(w.task.batch, id) == 1 == w.provider.entries[id].exported
    ensures !w.provider.entries[id].marked && |Counts(w.task.batch, id)| == 1
  {
    PositiveCounts(w.task.batch, id);
    BatchOf(w, id);
  }

  /** The batches that reach a client satisfy the condition under which the two reclaim orders agree,
      so demo_viz_gui's order would serve these clients as well. */
  lemma {:induction false} BatchesAreOrderFree(events: seq<Event>)
    requires Feasible(events) && Exec(events).task.Returning?
    ensures var w := Exec(events);
            && Legal(w.provider, w.task.batch) && OrderFree(w.provider, w.task.batch)
            && LayerReclaim(w.provider, w.task.batch) == GuiReclaim(w.provider, w.task.batch)
  {
    RunInv(events);
    var w := Exec(events);
    var batch := w.task.batch;
    forall id | id in Ids(batch)
      ensures id in w.provider.entries && Total(batch, id) == 1 == w.provider.entries[id].exported
      ensures !w.provider.entries[id].marked && |Counts(batch, id)| == 1
    {
      BatchEntry(w, id);
    }
    ReclaimOrdersAgree(w.provider, batch);
  }

  // ----- the client's own methods are these steps -----

  function ContinueN(w: World, n: nat): World
    decreases n
  {
    if n == 0 then w else ContinueN(Continued(w), n - 1)
  }

  lemma {:induction false} RemovingRun(w: World)
    requires w.task.Removing?
    ensures ContinueN(w, |w.task.ids| + 1) == w.(provider := RemoveAll(w.provider, w.task.ids), task := Idle)
    decreases if w.task.Removing? then |w.task.ids| else 0
  {
    if w.task.ids == [] {
      assert ContinueN(Continued(w), 0) == Continued(w);
    } else {
      RemovingRun(Continued(w));
    }
  }

  /** Handling a batch step by step is the reclaim method of the client run in one go. */
  lemma ReclaimIsSteps(w: World)
    requires w.task.Returning?
    ensures ContinueN(w, |w.task.batch| + 2)
         == w.(provider := LayerReclaim(w.provider, w.task.batch), task := Idle)
  {
    RemovingRun(Continued(w));
  }

  /** The provider after `n` resources were imported and sent, and the ids they got. */
  function Created(p: Provider, n: nat): Provider
    decreases n
  {
    if n == 0 then p else Created(Send(Import(p), p.nextId), n - 1)
  }

  function Fresh(first: nat, n: nat): seq<nat>
    decreases n
  {
    if n == 0 then [] else [first] + Fresh(first + 1, n - 1)
  }

  /** The frame under construction completed with `n` fresh resources and submitted. */
  function Submitted(w: World, n: nat): World {
    var list := w.building + Fresh(w.provider.nextId, n);
    w.(provider := Created(w.provider, n), task := Idle, building := [],
       frames := w.frames + [list], held := w.held + multiset(list))
  }

  lemma CreateOne(w: World)
    requires w.task.Building? && w.task.unsent.None? && w.task.left > 0
    ensures Continued(Continued(w))
         == w.(provider := Send(Import(w.provider), w.provider.nextId),
               task := Building(None, w.task.left - 1), building := w.building + [w.provider.nextId])
  {
  }

  lemma TwoSteps(w: World, k: nat)
    ensures ContinueN(w, k + 2) == ContinueN(Continued(Continued(w)), k)
  {
    assert ContinueN(w, k + 2) == ContinueN(Continued(w), k + 1);
  }

  /** The two steps that make the first of `n` resources. */
  lemma FirstOf(w: World, n: nat) returns (w2: World)
    requires w.task == Building(None, n) && n > 0
    ensures w2 == w.(provider := Send(Import(w.provider), w.provider.nextId),
                     task := Building(None, n - 1), building := w.building + [w.provider.nextId])
    ensures ContinueN(w, 2 * n + 1) == ContinueN(w2, 2 * (n - 1) + 1)
  {
    CreateOne(w);
    w2 := Continued(Continued(w));
    TwoSteps(w, 2 * (n - 1) + 1);
  }

  lemma SubmittedStep(w: World, w2: World, n: nat)
    requires n > 0
    requires w2 == w.(provider := Send(Import(w.provider), w.provider.nextId),
                      task := w2.task, building := w.building + [w.provider.nextId])
    ensures Submitted(w2, n - 1) == Submitted(w, n)
  {
    assert w.building + Fresh(w.provider.nextId, n) == w2.building + Fresh(w2.provider.nextId, n - 1);
  }

  lemma LastStep(w: World)
    requires w.task == Building(None, 0)
    ensures ContinueN(w, 1) == Submitted(w, 0)
  {
    assert w.building + Fresh(w.provider.nextId, 0) == w.building;
    assert ContinueN(Continued(w), 0) == Continued(w);
  }

  lemma {:induction false} BuildingRun(w: World, n: nat)
    requires w.task == Building(None, n)
    ensures ContinueN(w, 2 * n + 1) == Submitted(w, n)
    decreases n
  {
    if n == 0 {
      LastStep(w);
    } else {
      var w2 := FirstOf(w, n);
      BuildingRun(w2, n - 1);
      SubmittedStep(w, w2, n);
    }
  }

  // ----- the clients' tasks as stretches of a run -----

  /** A run that has come to rest with provider `p`, `held` at the parent, the resource lists `frames` submitted and
      nothing on its way back. */
  ghost predicate AtRest(events: seq<Event>, p: Provider, held: multiset<nat>, frames: seq<seq<nat>>) {
    && Feasible(events)
    && var w := Exec(events);
       w.provider == p && w.held == held && w.frames == frames && w.task.Idle? && w.building == [] && w.inflight == []
  }

  lemma {:induction false} Append(events: seq<Event>, e: Event)
    requires Feasible(events) && Enabled(Exec(events), e)
    ensures Feasible(events + [e]) && Exec(events + [e]) == Apply(Exec(events), e)
  {
    assert (events + [e])[..|events|] == events;
  }

  lemma {:induction false} IdleStays(w: World, n: nat)
    requires w.task.Idle?
    ensures ContinueN(w, n) == w
    decreases n
  {
    if n > 0 {
      IdleStays(w, n - 1);
    }
  }

  /** The client thread goes on for `n` steps, or until its task is done. */
  lemma {:induction false} GoesOn(events: seq<Event>, n: nat) returns (more: seq<Event>)
    requires Feasible(events)
    ensures Feasible(more) && Exec(more) == ContinueN(Exec(events), n)
    decreases n
  {
    more := events;
    if n > 0 {
      if Exec(events).task.Idle? {
        IdleStays(Exec(events), n);
      } else {
        Append(events, Continue);
        more := GoesOn(events + [Continue], n - 1);
      }
    }
  }

  /** A begin-frame that makes `n` resources and submits them. */
  lemma {:induction false} SubmitRun(events: seq<Event>, p: Provider, held: multiset<nat>, frames: seq<seq<nat>>, n: nat)
    returns (more: seq<Event>)
    requires AtRest(events, p, held, frames)
    ensures AtRest(more, Created(p, n), held + multiset(Fresh(p.nextId, n)), frames + [Fresh(p.nextId, n)])
  {
    var w := Exec(events).(task := Building(None, n));
    Append(events, BeginFrame(n));
    more := GoesOn(events + [BeginFrame(n)], 2 * n + 1);
    BuildingRun(w, n);
    assert w.building + Fresh(p.nextId, n) == Fresh(p.nextId, n);
  }

  /** A batch goes back and is handled. */
  lemma {:induction false} ReclaimRun(events: seq<Event>, p: Provider, held: multiset<nat>, frames: seq<seq<nat>>, batch: seq<Returned>)
    returns (more: seq<Event>)
    requires AtRest(events, p, held, frames) && Fits(batch, held)
    ensures AtRest(more, LayerReclaim(p, batch), Without(held, batch), frames)
  {
    Append(events, ParentReturns(batch));
    var sent := events + [ParentReturns(batch)];
    assert Exec(sent).inflight == [batch];
    Append(sent, Deliver);
    more := GoesOn(sent + [Deliver], |batch| + 2);
    ReclaimIsSteps(Exec(sent + [Deliver]));
  }

  /** No call on this provider named an absent id, no callback ran twice, and with nothing at the parent
      the provider is empty and every callback has run. */
  ghost predicate Balanced(p: Provider, held: multiset<nat>) {
    && p.faults == multiset{}
    && (forall id: nat :: p.released[id] <= 1)
    && (held == multiset{} ==> p.entries == map[] && forall id: nat :: p.released[id] == if id < p.nextId then 1 else 0)
  }

  lemma {:induction false} RestIsBalanced(events: seq<Event>, p: Provider, held: multiset<nat>, frames: seq<seq<nat>>)
    requires AtRest(events, p, held, frames)
    ensures Balanced(p, held)
  {
    NoFaults(events);
    if held == multiset{} {
      Drained(events);
    }
  }

  // ----- the ledger of one client -----

  /** What a client's tasks do to its resources: send the list of a frame, or reclaim a batch. */
  datatype Move = Sends(ids: seq<nat>) | Reclaims(batch: seq<Returned>)

  function ProviderOf(moves: seq<Move>): Provider {
    if moves == [] then EMPTY
    else
      var p := ProviderOf(moves[..|moves| - 1]);
      match moves[|moves| - 1]
      case Sends(ids) => Created(p, |ids|)
      case Reclaims(batch) => LayerReclaim(p, batch)
  }

  /** References the parent holds. */
  function Held(moves: seq<Move>): multiset<nat> {
    if moves == [] then multiset{}
    else
      var held := Held(moves[..|moves| - 1]);
      match moves[|moves| - 1]
      case Sends(ids) => held + multiset(ids)
      case Reclaims(batch) => Without(held, batch)
  }

  /** The resource lists of the frames. */
  function Lists(moves: seq<Move>): seq<seq<nat>> {
    if moves == [] then []
    else
      var m := moves[|moves| - 1];
      Lists(moves[..|moves| - 1]) + if m.Sends? then [m.ids] else []
  }

  /** Each frame sends the resources made for it. */
  predicate Numbered(moves: seq<Move>) {
    moves != [] ==>
      var before, m := moves[..|moves| - 1], moves[|moves| - 1];
      Numbered(before) && (m.Sends? ==> m.ids == Fresh(ProviderOf(before).nextId, |m.ids|))
  }

  /** The parent returns only references it holds. */
  ghost predicate Honest(moves: seq<Move>) {
    moves != [] ==>
      var before, m := moves[..|moves| - 1], moves[|moves| - 1];
      Honest(before) && (m.Reclaims? ==> Fits(m.batch, Held(before)))
  }

  lemma Entered(moves: seq<Move>, m: Move)
    ensures var p := ProviderOf(moves);
            && Lists(moves + [m]) == Lists(moves) + (if m.Sends? then [m.ids] else [])
            && ProviderOf(moves + [m]) == (if m.Sends? then Created(p, |m.ids|) else LayerReclaim(p, m.batch))
            && (Numbered(moves + [m]) <==> Numbered(moves) && (m.Sends? ==> m.ids == Fresh(p.nextId, |m.ids|)))
  {
    assert (moves + [m])[..|moves|] == moves;
  }

  /** Every ledger is that of a run. */
  lemma {:induction false} LedgerRun(moves: seq<Move>) returns (run: seq<Event>)
    requires Numbered(moves) && Honest(moves)
    ensures AtRest(run, ProviderOf(moves), Held(moves), Lists(moves))
  {
    run := [];
    if moves != [] {
      var before, m := moves[..|moves| - 1], moves[|moves| - 1];
      run := LedgerRun(before);
      if m.Sends? {
        run := SubmitRun(run, ProviderOf(before), Held(before), Lists(before), |m.ids|);
      } else {
        run := ReclaimRun(run, ProviderOf(before), Held(before), Lists(before), m.batch);
      }
    }
  }

  lemma {:induction false} LedgerBalances(moves: seq<Move>)
    requires Numbered(moves) && Honest(moves)
    ensures Balanced(ProviderOf(moves), Held(moves))
  {
    var run := LedgerRun(moves);
    RestIsBalanced(run, ProviderOf(moves), Held(moves), Lists(moves));
  }

  lemma {:induction false} FreshOnce(first: nat, n: nat, id: nat)
    ensures |Fresh(first, n)| == n && multiset(Fresh(first, n))[id] == if first <= id < first + n then 1 else 0
    decreases n
  {
    if n > 0 {
      FreshOnce(first + 1, n - 1, id);
    }
  }

  lemma {:induction false} CreatedNext(p: Provider, n: nat)
    ensures Created(p, n).nextId == p.nextId + n
    decreases n
  {
    if n > 0 {
      CreatedNext(Send(Import(p), p.nextId), n - 1);
    }
  }

  lemma ReclaimNext(p: Provider, batch: seq<Returned>)
    ensures LayerReclaim(p, batch).nextId == p.nextId
  {
    ReturnAllAt(p, batch, 0);
    RemoveAllAt(ReturnAll(p, batch), Ids(batch), 0);
  }

  lemma ListAdded(lists: seq<seq<nat>>, ids: seq<nat>, id: nat)
    ensures InFrames(lists + [ids], id) == InFrames(lists, id) + multiset(ids)[id]
  {
    assert (lists + [ids])[..|lists|] == lists;
  }

  /** Whatever the parent returns, every id made is in the lists once. */
  lemma {:induction false} ListedOnce(moves: seq<Move>, id: nat)
    requires Numbered(moves)
    ensures InFrames(Lists(moves), id) == if id < ProviderOf(moves).nextId then 1 else 0
  {
    if moves != [] {
      var before, m := moves[..|moves| - 1], moves[|moves| - 1];
      var p := ProviderOf(before);
      ListedOnce(before, id);
      if m.Sends? {
        ListAdded(Lists(before), m.ids, id);
        FreshOnce(p.nextId, |m.ids|, id);
        CreatedNext(p, |m.ids|);
      } else {
        ReclaimNext(p, m.batch);
        assert Lists(before) + [] == Lists(before);
      }
    }
  }

  /** `id` is in just one of the lists, and once. */
  ghost predicate InOneList(lists: seq<seq<nat>>, id: nat) {
    exists k :: 0 <= k < |lists| && id in lists[k] && multiset(lists[k])[id] == 1
                && forall j :: 0 <= j < |lists| && j != k ==> id !in lists[j]
  }

  lemma {:induction false} SentInOneList(moves: seq<Move>, id: nat)
    requires Numbered(moves)
    ensures if id < ProviderOf(moves).nextId then InOneList(Lists(moves), id)
            else forall k :: 0 <= k < |Lists(moves)| ==> id !in Lists(moves)[k]
  {
    ListedOnce(moves, id);
    OnlyFrame(Lists(moves), id);
  }
}
