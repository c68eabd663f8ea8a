/** The root LayerTreeFrameSink of demo_viz_layer: it answers every begin-frame tick, submits on one
    tick in sixty, embeds the child's surface, and makes two resources for each frame once it
    has a context provider.
 */
module RootSink {
  import opened Options
  import opened ResourceProvider
  import opened FrameTokens
  import opened Replies
  import ResourceRun

  const PERIOD := 60

  /** A frame sink and the number of the surface embedded under it. */
  datatype SurfaceId = SurfaceId(sink: nat, surface: nat)

  datatype Frame = Frame(
    token: nat, child: Option<SurfaceId>, tile: seq<Color>, texture: seq<Color>, background: Color,
    resources: seq<nat>)

  datatype Sink = Sink(
    token: nat, child: Option<nat>, surface: nat, context: bool, provider: Provider, sent: seq<Message<Frame>>)

  const BOUND := Sink(0, None, 0, false, EMPTY, [])

  function FrameFor(s: Sink): Frame {
    var j := s.token / PERIOD;
    Frame(s.token,
          if s.child.Some? then Some(SurfaceId(s.child.value, s.surface)) else None,
          if s.context then [Paint(j + 1), Paint(j + 2), Paint(j + 3)] else [],
          if s.context then [Paint(j + 2), Paint(j + 3), Paint(j + 1)] else [],
          Paint(j),
          if s.context then ResourceRun.Fresh(s.provider.nextId, 2) else [])
  }

  function Ticked(s: Sink, args: nat): Sink {
    var s' := s.(token := Next(s.token));
    if s'.token % PERIOD == 1 then
      s'.(sent := s.sent + [Submit(args, FrameFor(s'))],
          provider := if s.context then ResourceRun.Created(s.provider, 2) else s.provider)
    else s'.(sent := s.sent + [DidNotProduce(args)])
  }

  datatype Event = Tick(args: nat) | Embed(child: nat) | SetContext(context: bool) | Reclaim(batch: seq<Returned>)

  function Apply(s: Sink, e: Event): Sink {
    match e
    case Tick(args) => Ticked(s, args)
    case Embed(child) => s.(child := Some(child), surface := s.surface + 1)
    case SetContext(context) => s.(context := context)
    case Reclaim(batch) => s.(provider := LayerReclaim(s.provider, batch))
  }

  function Exec(events: seq<Event>): Sink {
    if events == [] then BOUND else Apply(Exec(events[..|events| - 1]), events[|events| - 1])
  }

  /** The arguments of the ticks among `events`, in order. */
  function TickArgs(events: seq<Event>): seq<nat> {
    if events == [] then []
    else
      var e := events[|events| - 1];
      TickArgs(events[..|events| - 1]) + if e.Tick? then [e.args] else []
  }

  lemma {:induction false} Extend(events: seq<Event>, e: Event)
    ensures Exec(events + [e]) == Apply(Exec(events), e)
    ensures TickArgs(events + [e]) == TickArgs(events) + if e.Tick? then [e.args] else []
  {
    assert (events + [e])[..|events|] == events;
  }

  // ----- how many frames -----

  function Ceiling(n: nat): nat { (n + PERIOD - 1) / PERIOD }

  /** Frames submitted from one wrap of the token to the next: Ceiling(LAST_TOKEN). */
  const CYCLE := 71_582_789

  /** Frames submitted in `n` ticks, whatever the number of wraps. */
  function Submissions(n: nat): nat { n / LAST_TOKEN * CYCLE + Ceiling(n % LAST_TOKEN) }

  /** The place of the i-th frame in its cycle. */
  function Place(i: nat): nat { i % CYCLE }

  lemma EarlyPlace(i: nat)
    requires i < CYCLE
    ensures Place(i) == i
  {
    assert i == i / CYCLE * CYCLE + i % CYCLE;
    assert i / CYCLE == 0;
  }

  lemma NextTick(n: nat)
    ensures n % LAST_TOKEN + 1 < LAST_TOKEN ==> (n + 1) / LAST_TOKEN == n / LAST_TOKEN && (n + 1) % LAST_TOKEN == n % LAST_TOKEN + 1
    ensures n % LAST_TOKEN + 1 == LAST_TOKEN ==> (n + 1) / LAST_TOKEN == n / LAST_TOKEN + 1 && (n + 1) % LAST_TOKEN == 0
  {
  }

  /** One tick more within a cycle. */
  lemma NextCeiling(r: nat)
    requires r < LAST_TOKEN
    ensures (r + 1) % PERIOD == 1 <==> r % PERIOD == 0
    ensures r % PERIOD == 0 ==> Ceiling(r) == r / PERIOD < CYCLE && Ceiling(r + 1) == Ceiling(r) + 1
    ensures r % PERIOD != 0 ==> Ceiling(r + 1) == Ceiling(r)
    ensures r + 1 == LAST_TOKEN ==> Ceiling(r + 1) == CYCLE
  {
  }

  lemma InCycle(q: nat, j: nat)
    requires j < CYCLE
    ensures (q * CYCLE + j) % CYCLE == j
  {
  }

  /** Every wrap comes 45 ticks too soon for its cycle's last frame. */
  lemma CyclesGainFrames(q: nat, r: nat)
    requires q >= 2 && r < LAST_TOKEN
    ensures Ceiling(q * LAST_TOKEN + r) < q * CYCLE + Ceiling(r)
  {
    assert q * LAST_TOKEN == PERIOD * (q * CYCLE) - 45 * q;
  }

  lemma SecondCycle(r: nat)
    requires r < LAST_TOKEN
    ensures Ceiling(LAST_TOKEN + r) == CYCLE + Ceiling(r) <==> r % PERIOD == 0 || r % PERIOD > 45
  {
    assert LAST_TOKEN == PERIOD * (CYCLE - 1) + 15;
    var k, d := r / PERIOD, r % PERIOD;
    assert Ceiling(LAST_TOKEN + r) == CYCLE - 1 + k + (d + 15 + 59) / PERIOD;
    assert Ceiling(r) == k + (d + 59) / PERIOD;
  }

  lemma InSecondCycle(n: nat)
    ensures n / LAST_TOKEN == 1 <==> LAST_TOKEN <= n < 2 * LAST_TOKEN
    ensures n / LAST_TOKEN == 0 <==> n < LAST_TOKEN
    ensures LAST_TOKEN <= n < 2 * LAST_TOKEN ==> n % LAST_TOKEN == n - LAST_TOKEN
    ensures n < LAST_TOKEN ==> n % LAST_TOKEN == n
  {
    assert n == n / LAST_TOKEN * LAST_TOKEN + n % LAST_TOKEN;
  }

  /** Exactly when n ticks give ceil(n / 60) frames: until the token wraps, and in the next cycle only for the last
      tick counts of each sixty. */
  lemma CeilingOfTicks(n: nat)
    ensures Submissions(n) == Ceiling(n) <==>
            || n <= LAST_TOKEN
            || (n < 2 * LAST_TOKEN && ((n - LAST_TOKEN) % PERIOD == 0 || (n - LAST_TOKEN) % PERIOD > 45))
  {
    var q, r := n / LAST_TOKEN, n % LAST_TOKEN;
    InSecondCycle(n);
    if q == 1 {
      SecondCycle(r);
    } else if q >= 2 {
      assert n == q * LAST_TOKEN + r;
      CyclesGainFrames(q, r);
    }
  }

  /** The first tick after the wrap comes early: one frame more than ceil(n / 60). */
  lemma EarlyAfterTheWrap()
    ensures Submissions(LAST_TOKEN + 1) == Ceiling(LAST_TOKEN + 1) + 1
  {
  }

  lemma OneMoreTick(n: nat)
    ensures After(n + 1) % PERIOD == 1 ==>
              Submissions(n + 1) == Submissions(n) + 1 && After(n + 1) == PERIOD * (Place(Submissions(n))) + 1
    ensures After(n + 1) % PERIOD != 1 ==> Submissions(n + 1) == Submissions(n)
  {
    NextTick(n);
    var q, r := n / LAST_TOKEN, n % LAST_TOKEN;
    NextCeiling(r);
    if r % PERIOD == 0 {
      InCycle(q, r / PERIOD);
    }
  }

  /** A permutation of the palette. */
  predicate EachOnce(colors: seq<Color>) {
    |colors| == 3 && Red in colors && Green in colors && Yellow in colors
  }

  /** What is promised of a frame besides its place: whether a context had been set, and the child embedded. */
  datatype Promise = Promise(context: bool, child: Option<SurfaceId>)

  /** The colour after `c` in the palette, which goes round. */
  function Successor(c: Color): Color {
    match c
    case Red => Green
    case Green => Yellow
    case Yellow => Red
  }

  /** The frame with place `j` in its cycle: its token, background and child, and with a context tile and texture
      circles of each colour once, the tile's from the colour after the background on and the texture's from the one
      after that, sent as two resources; without a context neither. */
  predicate AsPromised(f: Frame, j: nat, p: Promise) {
    var next := Successor(f.background);
    && f.token == 60 * j + 1
    && f.background == [Red, Green, Yellow][j % 3]
    && f.child == p.child
    && if p.context then
         && EachOnce(f.tile) && f.tile == [next, Successor(next), f.background]
         && EachOnce(f.texture) && f.texture == [Successor(next), f.background, next]
         && |f.resources| == 2 && f.resources[0] != f.resources[1]
       else f.tile == f.texture == [] && f.resources == []
  }

  lemma PaintNext(j: nat)
    ensures Paint(j + 1) == Successor(Paint(j))
  {
    assert |PALETTE| == 3;
    assert (j + 1) % 3 == if j % 3 == 2 then 0 else j % 3 + 1;
  }

  function ChildOf(s: Sink): Option<SurfaceId> { if s.child.Some? then Some(SurfaceId(s.child.value, s.surface)) else None }

  lemma FrameAsPromised(s: Sink, j: nat)
    requires s.token == PERIOD * j + 1
    ensures AsPromised(FrameFor(s), j, Promise(s.context, ChildOf(s)))
  {
    assert s.token / PERIOD == j;
    PaintNext(j);
    PaintNext(j + 1);
    PaintNext(j + 2);
    var a, b, c := Paint(j + 1), Paint(j + 2), Paint(j + 3);
    assert ResourceRun.Fresh(s.provider.nextId, 2) == [s.provider.nextId] + ResourceRun.Fresh(s.provider.nextId + 1, 1);
    assert [a, b, c][0] == a && [a, b, c][1] == b && [a, b, c][2] == c;
    assert [b, c, a][0] == b && [b, c, a][1] == c && [b, c, a][2] == a;
  }

  // ----- the replies of a run -----

  ghost predicate Inv(s: Sink, n: nat) {
    s.token == After(n) && |Frames(s.sent)| == Submissions(n)
  }

  lemma TickedFrames(s: Sink, args: nat)
    ensures var v := s.(token := Next(s.token));
            Frames(Ticked(s, args).sent) == Frames(s.sent) + if v.token % PERIOD == 1 then [FrameFor(v)] else []
  {
    FramesStep(s.sent, Ticked(s, args).sent[|s.sent|]);
  }

  lemma TickInv(s: Sink, n: nat, args: nat)
    requires Inv(s, n)
    ensures Inv(Ticked(s, args), n + 1)
  {
    NextAfter(n);
    OneMoreTick(n);
    TickedFrames(s, args);
  }

  lemma {:induction false} RunInv(events: seq<Event>)
    ensures Inv(Exec(events), |TickArgs(events)|)
  {
    if events != [] {
      var before, e := events[..|events| - 1], events[|events| - 1];
      RunInv(before);
      if e.Tick? {
        TickInv(Exec(before), |TickArgs(before)|, e.args);
      }
    }
  }

  /** Each tick of any run gets exactly one reply, in order and with its own arguments. */
  lemma {:induction false} OneReplyPerTick(events: seq<Event>)
    ensures |Exec(events).sent| == |TickArgs(events)|
    ensures forall k :: 0 <= k < |TickArgs(events)| ==> Exec(events).sent[k].args == TickArgs(events)[k]
  {
    if events != [] {
      OneReplyPerTick(events[..|events| - 1]);
    }
  }

  // ----- the frames of a run -----

  function Embeddings(events: seq<Event>): nat {
    if events == [] then 0
    else Embeddings(events[..|events| - 1]) + if events[|events| - 1].Embed? then 1 else 0
  }

  /** The child embedded latest, with its surface. */
  function Embedded(events: seq<Event>): Option<SurfaceId> {
    if events == [] then None
    else
      var before, e := events[..|events| - 1], events[|events| - 1];
      if e.Embed? then Some(SurfaceId(e.child, Embeddings(before) + 1)) else Embedded(before)
  }

  /** Whether the context provider set latest, if any, is one. */
  function HasContext(events: seq<Event>): bool {
    events != [] &&
    var e := events[|events| - 1];
    if e.SetContext? then e.context else HasContext(events[..|events| - 1])
  }

  /** What the frames of a run should be: one for each tick whose token leaves remainder 1, with the context and the
      child there were at that tick. */
  function Promises(events: seq<Event>): seq<Promise> {
    if events == [] then []
    else
      var before, e := events[..|events| - 1], events[|events| - 1];
      Promises(before) +
      if e.Tick? && After(|TickArgs(before)| + 1) % PERIOD == 1 then [Promise(HasContext(before), Embedded(before))] else []
  }

  lemma {:induction false} StateOfRun(events: seq<Event>)
    ensures var s := Exec(events);
            s.surface == Embeddings(events) && ChildOf(s) == Embedded(events) && s.context == HasContext(events)
  {
    if events != [] {
      StateOfRun(events[..|events| - 1]);
    }
  }

  ghost predicate Kept(frames: seq<Frame>, promises: seq<Promise>) {
    |frames| == |promises| && forall i :: 0 <= i < |frames| ==> AsPromised(frames[i], Place(i), promises[i])
  }

  lemma KeptOnceMore(frames: seq<Frame>, promises: seq<Promise>, f: Frame, p: Promise)
    requires Kept(frames, promises) && AsPromised(f, Place(|frames|), p)
    ensures Kept(frames + [f], promises + [p])
  {
  }

  /** The frame of a tick, if it submits one, is the promised one at its place. */
  lemma TickKeeps(s: Sink, n: nat, args: nat, promises: seq<Promise>)
    requires Inv(s, n) && Kept(Frames(s.sent), promises)
    ensures Kept(Frames(Ticked(s, args).sent),
                 promises + if After(n + 1) % PERIOD == 1 then [Promise(s.context, ChildOf(s))] else [])
  {
    NextAfter(n);
    TickedFrames(s, args);
    if After(n + 1) % PERIOD == 1 {
      OneMoreTick(n);
      var v := s.(token := Next(s.token));
      FrameAsPromised(v, Place(Submissions(n)));
      KeptOnceMore(Frames(s.sent), promises, FrameFor(v), Promise(s.context, ChildOf(s)));
    } else {
      assert promises + [] == promises;
    }
  }

  /** The number of frames, and of each its token, colours, circles, resources and child, through every wrap of the token. */
  lemma {:induction false} FramesSubmitted(events: seq<Event>)
    ensures |Frames(Exec(events).sent)| == Submissions(|TickArgs(events)|)
    ensures Kept(Frames(Exec(events).sent), Promises(events))
  {
    RunInv(events);
    if events != [] {
      var before, e := events[..|events| - 1], events[|events| - 1];
      FramesSubmitted(before);
      if e.Tick? {
        RunInv(before);
        StateOfRun(before);
        TickKeeps(Exec(before), |TickArgs(before)|, e.args, Promises(before));
      }
    }
  }

  lemma EarlyFrames(frames: seq<Frame>, promises: seq<Promise>, i: nat)
    requires Kept(frames, promises) && i < |frames| && i < CYCLE
    ensures frames[i].token == 60 * i + 1 && frames[i].background == [Red, Green, Yellow][i % 3]
  {
    assert AsPromised(frames[i], Place(i), promises[i]);
    EarlyPlace(i);
  }

  /** There are ceil(n / 60) frames exactly under the condition of CeilingOfTicks; until the token wraps, the i-th has
      token 60 i + 1 and palette colour i mod 3. */
  lemma {:induction false} BeforeTheWrap(events: seq<Event>, i: nat)
    ensures var n, frames := |TickArgs(events)|, Frames(Exec(events).sent);
            && (|frames| == (n + 59) / 60 <==>
                  || n <= 0xFFFF_FFFF
                  || (n < 2 * 0xFFFF_FFFF && ((n - 0xFFFF_FFFF) % 60 == 0 || (n - 0xFFFF_FFFF) % 60 > 45)))
            && (i < |frames| && i < CYCLE ==>
                  frames[i].token == 60 * i + 1 && frames[i].background == [Red, Green, Yellow][i % 3])
  {
    FramesSubmitted(events);
    CeilingOfTicks(|TickArgs(events)|);
    if i < |Frames(Exec(events).sent)| && i < CYCLE {
      EarlyFrames(Frames(Exec(events).sent), Promises(events), i);
    }
  }

  // ----- its resources -----

  lemma TwoCreated(p: Provider)
    ensures var q := Send(Import(p), p.nextId);
            && ResourceRun.Created(p, 2) == Send(Import(q), q.nextId)
            && ResourceRun.Fresh(p.nextId, 2) == [p.nextId, q.nextId]
  {
    var q := Send(Import(p), p.nextId);
    var r := Send(Import(q), q.nextId);
    assert ResourceRun.Created(q, 1) == ResourceRun.Created(r, 0) == r;
    assert ResourceRun.Fresh(p.nextId + 1, 1) == [p.nextId + 1] + ResourceRun.Fresh(p.nextId + 2, 0);
  }

  /** The ledger of a run: the resource list of each frame submitted, and the batches reclaimed. */
  function Moves(events: seq<Event>): seq<ResourceRun.Move> {
    if events == [] then []
    else
      var before, e := events[..|events| - 1], events[|events| - 1];
      var sent := Exec(events).sent;
      Moves(before) +
      if e.Reclaim? then [ResourceRun.Reclaims(e.batch)]
      else if e.Tick? && sent != [] && sent[|sent| - 1].Submit? then [ResourceRun.Sends(sent[|sent| - 1].frame.resources)]
      else []
  }

  /** What one event enters into the ledger. */
  function Move(s: Sink, e: Event): seq<ResourceRun.Move> {
    match e
    case Tick(_) =>
      if Next(s.token) % PERIOD == 1 then [ResourceRun.Sends(ResourceRun.Fresh(s.provider.nextId, if s.context then 2 else 0))]
      else []
    case Reclaim(batch) => [ResourceRun.Reclaims(batch)]
    case _ => []
  }

  lemma {:induction false} MovesStep(before: seq<Event>, e: Event)
    ensures Moves(before + [e]) == Moves(before) + Move(Exec(before), e)
  {
    Extend(before, e);
    assert (before + [e])[..|before|] == before;
  }

  lemma LedgerStep(s: Sink, e: Event, moves: seq<ResourceRun.Move>)
    requires s.provider == ResourceRun.ProviderOf(moves) && ResourceRun.Numbered(moves)
    ensures Apply(s, e).provider == ResourceRun.ProviderOf(moves + Move(s, e)) && ResourceRun.Numbered(moves + Move(s, e))
  {
    var move := Move(s, e);
    if move == [] {
      assert moves + move == moves;
      assert ResourceRun.Created(s.provider, 0) == s.provider;
    } else {
      ResourceRun.Entered(moves, move[0]);
      TwoCreated(s.provider);
      assert ResourceRun.Created(s.provider, 0) == s.provider;
    }
  }

  /** The sink's provider is what its ledger says. */
  lemma {:induction false} KeepsLedger(events: seq<Event>)
    ensures Exec(events).provider == ResourceRun.ProviderOf(Moves(events)) && ResourceRun.Numbered(Moves(events))
  {
    if events != [] {
      var before, e := events[..|events| - 1], events[|events| - 1];
      assert events == before + [e];
      KeepsLedger(before);
      Extend(before, e);
      MovesStep(before, e);
      LedgerStep(Exec(before), e, Moves(before));
    }
  }

  /** The resource lists of the frames submitted. */
  function ResourceLists(frames: seq<Frame>): (lists: seq<seq<nat>>)
    ensures |lists| == |frames| && forall i :: 0 <= i < |frames| ==> lists[i] == frames[i].resources
  {
    seq(|frames|, i requires 0 <= i < |frames| => frames[i].resources)
  }

  lemma ListAdded(frames: seq<Frame>, f: Frame)
    ensures ResourceLists(frames + [f]) == ResourceLists(frames) + [f.resources]
  {
  }

  lemma ListStep(s: Sink, e: Event, moves: seq<ResourceRun.Move>)
    requires ResourceLists(Frames(s.sent)) == ResourceRun.Lists(moves)
    ensures ResourceLists(Frames(Apply(s, e).sent)) == ResourceRun.Lists(moves + Move(s, e))
  {
    if Move(s, e) == [] {
      assert moves + Move(s, e) == moves;
    } else {
      ResourceRun.Entered(moves, Move(s, e)[0]);
    }
    if e.Tick? {
      TickedFrames(s, e.args);
      ListAdded(Frames(s.sent), FrameFor(s.(token := Next(s.token))));
    }
  }

  lemma {:induction false} ListsOfRun(events: seq<Event>)
    ensures ResourceLists(Frames(Exec(events).sent)) == ResourceRun.Lists(Moves(events))
  {
    if events != [] {
      var before, e := events[..|events| - 1], events[|events| - 1];
      assert events == before + [e];
      ListsOfRun(before);
      Extend(before, e);
      MovesStep(before, e);
      ListStep(Exec(before), e, Moves(before));
    }
  }

  /** Whatever the parent returns, each resource made is in the list of just one submitted frame, once. */
  lemma {:induction false} SentInOneFrame(events: seq<Event>, id: nat)
    requires id < Exec(events).provider.nextId
    ensures ResourceRun.InOneList(ResourceLists(Frames(Exec(events).sent)), id)
  {
    KeepsLedger(events);
    ListsOfRun(events);
    ResourceRun.SentInOneList(Moves(events), id);
  }

  /** So as long as the parent returns only what it holds, the sink never names an absent id and releases each resource
      at most once, and all of them once everything has come back. */
  lemma {:induction false} ResourcesBalance(events: seq<Event>)
    requires ResourceRun.Honest(Moves(events))
    ensures ResourceRun.Balanced(Exec(events).provider, ResourceRun.Held(Moves(events)))
  {
    KeepsLedger(events);
    ResourceRun.LedgerBalances(Moves(events));
  }

  // ----- the sink itself -----

  /** Which of its two remotes the sink is bound to. */
  datatype Link = Unbound | Associated | Direct

  class LayerTreeFrameSink {
    var token: nat
    var childFrameSinkId: Option<nat>
    var surface: nat
    var contextProvider: bool
    var receiverBound: bool
    var link: Link
    var wantsFrames: bool
    var provider: ClientResourceProvider?
    var sent: seq<Message<Frame>>

    function Value(): Sink
      requires provider != null
      reads this, provider
    {
      Sink(token, childFrameSinkId, surface, contextProvider, provider.Value(), sent)
    }

    constructor ()
      ensures provider == null && token == 0 && childFrameSinkId == None && surface == 0 && !contextProvider && sent == []
      ensures !receiverBound && link == Unbound && !wantsFrames
    {
      receiverBound, link, wantsFrames := false, Unbound, false;
      token, childFrameSinkId, surface, contextProvider, sent := 0, None, 0, false, [];
      provider := null;
    }

    /** Exactly one remote is bound, and it is the one that is asked for begin-frames. */
    method BindOnThread(associated: bool)
      requires !receiverBound && link == Unbound
      modifies `receiverBound, `link, `wantsFrames, `provider
      ensures receiverBound && wantsFrames && link == if associated then Associated else Direct
      ensures provider != null && fresh(provider) && provider.Value() == EMPTY
    {
      receiverBound := true;
      if associated {
        link := Associated;
      } else {
        link := Direct;
      }
      wantsFrames := true;
      provider := new ClientResourceProvider();
    }

    method SetContextProvider(context: bool)
      modifies `contextProvider
      ensures provider != null ==> Value() == Apply(old(Value()), SetContext(context))
    {
      contextProvider := context;
    }

    method EmbedChild(child: nat) returns (id: SurfaceId)
      modifies `childFrameSinkId, `surface
      ensures childFrameSinkId == Some(child) && surface == old(surface) + 1 && id == SurfaceId(child, surface)
      ensures provider != null ==> Value() == Apply(old(Value()), Embed(child))
    {
      childFrameSinkId := Some(child);
      surface := surface + 1;
      id := SurfaceId(child, surface);
    }

    method CreateResource() returns (id: nat)
      requires provider != null
      modifies provider
      ensures id == old(provider.nextId)
      ensures provider.Value() == Send(Import(old(provider.Value())), id)
    {
      id := provider.ImportResource();
      provider.PrepareSendToParent(id);
    }

    method AppendTileDrawQuad() returns (circles: seq<Color>, id: nat)
      requires provider != null
      modifies provider
      ensures var j := token / PERIOD; circles == [Paint(j + 1), Paint(j + 2), Paint(j + 3)]
      ensures id == old(provider.nextId) && provider.Value() == Send(Import(old(provider.Value())), id)
    {
      var j := token / PERIOD;
      circles := [Paint(j + 1), Paint(j + 2), Paint(j + 3)];
      id := CreateResource();
    }

    method AppendTextureDrawQuad() returns (circles: seq<Color>, id: nat)
      requires provider != null
      modifies provider
      ensures var j := token / PERIOD; circles == [Paint(j + 2), Paint(j + 3), Paint(j + 1)]
      ensures id == old(provider.nextId) && provider.Value() == Send(Import(old(provider.Value())), id)
    {
      var j := token / PERIOD;
      circles := [Paint(j + 2), Paint(j + 3), Paint(j + 1)];
      id := CreateResource();
    }

    /** The quads of a frame that need a context. */
    method AppendContextQuads() returns (tile: seq<Color>, texture: seq<Color>, resources: seq<nat>)
      requires provider != null
      modifies provider
      ensures var j := token / PERIOD;
              tile == [Paint(j + 1), Paint(j + 2), Paint(j + 3)] && texture == [Paint(j + 2), Paint(j + 3), Paint(j + 1)]
      ensures resources == ResourceRun.Fresh(old(provider.nextId), 2)
      ensures provider.Value() == ResourceRun.Created(old(provider.Value()), 2)
    {
      TwoCreated(provider.Value());
      var first, second;
      tile, first := AppendTileDrawQuad();
      texture, second := AppendTextureDrawQuad();
      resources := [first, second];
    }

    method CreateFrame() returns (frame: Frame)
      requires provider != null
      modifies provider
      ensures frame == FrameFor(old(Value()))
      ensures provider.Value() == if contextProvider then ResourceRun.Created(old(provider.Value()), 2) else old(provider.Value())
    {
      var child := if childFrameSinkId.Some? then Some(SurfaceId(childFrameSinkId.value, surface)) else None;
      var tile, texture, resources: seq<nat> := [], [], [];
      if contextProvider {
        tile, texture, resources := AppendContextQuads();
      }
      frame := Frame(token, child, tile, texture, Paint(token / PERIOD), resources);
    }

    method OnBeginFrame(args: nat)
      requires provider != null
      modifies this, provider
      ensures provider == old(provider) && Value() == Ticked(old(Value()), args)
    {
      token := Next(token);
      if token % PERIOD == 1 {
        var frame := CreateFrame();
        sent := sent + [Submit(args, frame)];
      } else {
        sent := sent + [DidNotProduce(args)];
      }
    }

    /** DidReceiveCompositorFrameAck and ReclaimResources do the same. */
    method ReclaimResources(resources: seq<Returned>)
      requires provider != null
      modifies provider
      ensures Value() == Apply(old(Value()), Reclaim(resources))
    {
      provider.ReclaimAsLayer(resources);
    }
  }
}
