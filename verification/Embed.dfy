/** The surface a root frame embeds, when EmbedChild on the UI thread and OnBeginFrame on the client
    thread run at the same time.

    Every read and write of the shared fields is a step of its own, and the two threads' steps
    interleave freely, except that each call holds lock_ from its first access to its last.
    `locking` says whether the lock is honoured, so that what it is there for can be stated.
 */
module Embed {
  import opened Options

  /** The pair a surface quad names, and the pair a child submits under. */
  datatype Pair = Pair(sink: nat, surface: nat)

  datatype UiStep =
    | UiIdle
    | SetChild(sink: nat)
    | GenerateId(sink: nat)
    | ReadId(sink: nat)
    | Unlock(pair: Pair)
    | MakeChild(pair: Pair)

  datatype ClientStep =
    | ClientIdle
    | CheckChild
    | ReadChild
    | ReadSurface(sink: nat)
    | SubmitFrame(quad: Option<Pair>)
    | Release

  datatype Holder = Nobody | Ui | Client

  /** `child` and `surface` are the root's child_frame_sink_id_ and its local surface id allocator;
      `children` are the pairs given to child clients, `quads` the surface quads of submitted root frames,
      `childFrames` the pairs children have submitted frames under. */
  datatype World = World(
    lock: Holder, ui: UiStep, client: ClientStep,
    nextSink: nat, child: Option<nat>, surface: nat,
    children: seq<Pair>, quads: seq<Pair>, childFrames: seq<Pair>)

  const START := World(Nobody, UiIdle, ClientIdle, 0, None, 0, [], [], [])

  datatype Event = EmbedChild | UiRuns | BeginFrame | ClientRuns | ChildSubmits(which: nat)

  predicate Enabled(locking: bool, w: World, e: Event) {
    match e
    case EmbedChild => w.ui == UiIdle && (locking ==> w.lock == Nobody)
    case UiRuns => w.ui != UiIdle
    case BeginFrame => w.client == ClientIdle && (locking ==> w.lock == Nobody)
    case ClientRuns => w.client != ClientIdle
    case ChildSubmits(k) => k < |w.children|
  }

  function UiStepped(w: World): World {
    match w.ui
    case UiIdle => w
    case SetChild(sink) => w.(child := Some(sink), ui := GenerateId(sink))
    case GenerateId(sink) => w.(surface := w.surface + 1, ui := ReadId(sink))
    case ReadId(sink) => w.(ui := Unlock(Pair(sink, w.surface)))
    case Unlock(pair) => w.(lock := Nobody, ui := MakeChild(pair))
    case MakeChild(pair) => w.(children := w.children + [pair], ui := UiIdle)
  }

  function ClientStepped(w: World): World {
    match w.client
    case ClientIdle => w
    case CheckChild => w.(client := if w.child.Some? then ReadChild else SubmitFrame(None))
    case ReadChild => if w.child.Some? then w.(client := ReadSurface(w.child.value)) else w
    case ReadSurface(sink) => w.(client := SubmitFrame(Some(Pair(sink, w.surface))))
    case SubmitFrame(quad) => w.(quads := if quad.Some? then w.quads + [quad.value] else w.quads, client := Release)
    case Release => w.(lock := Nobody, client := ClientIdle)
  }

  /** EmbedChild gets a frame sink id no one else has. */
  function Apply(w: World, e: Event): World {
    match e
    case EmbedChild => w.(lock := Ui, ui := SetChild(w.nextSink), nextSink := w.nextSink + 1)
    case UiRuns => UiStepped(w)
    case BeginFrame => w.(lock := Client, client := CheckChild)
    case ClientRuns => ClientStepped(w)
    case ChildSubmits(k) => if k < |w.children| then w.(childFrames := w.childFrames + [w.children[k]]) else w
  }

  function Exec(w: World, events: seq<Event>): World
    decreases events
  {
    if events == [] then w else Exec(Apply(w, events[0]), events[1..])
  }

  predicate Feasible(locking: bool, w: World, events: seq<Event>)
    decreases events
  {
    events != [] ==> Enabled(locking, w, events[0]) && Feasible(locking, Apply(w, events[0]), events[1..])
  }

  /** The pair EmbedChild has fixed but not yet turned into a child client. */
  function Pending(w: World): seq<Pair> {
    match w.ui
    case Unlock(pair) => [pair]
    case MakeChild(pair) => [pair]
    case ReadId(sink) => [Pair(sink, w.surface)]
    case _ => []
  }

  /** Every pair embedded so far, oldest first. */
  function Embedded(w: World): seq<Pair> { w.children + Pending(w) }

  /** The pair embedded last, if any. */
  function Latest(w: World): Option<Pair> {
    if Embedded(w) == [] then None else Some(Embedded(w)[|Embedded(w)| - 1])
  }

  /** The n pairs embedded are (0, 1), (1, 2) and so on, and the fields are those of the last, except while a call
      is setting them; each side holds the lock while it looks at them. */
  ghost predicate Inv(w: World) {
    var n := |Embedded(w)|;
    && (!w.ui.UiIdle? && !w.ui.MakeChild? <==> w.lock == Ui)
    && (w.client != ClientIdle <==> w.lock == Client)
    && (forall i :: 0 <= i < n ==> Embedded(w)[i] == Pair(i, i + 1))
    && w.nextSink == n + (if w.ui.SetChild? || w.ui.GenerateId? then 1 else 0)
    && (w.ui.SetChild? || w.ui.GenerateId? ==> w.ui.sink == n)
    && w.surface == n
    && w.child == (if w.ui.GenerateId? then Some(n) else if n == 0 then None else Some(n - 1))
    && (w.client.ReadChild? ==> n > 0)
    && (w.client.ReadSurface? ==> n > 0 && w.client.sink == n - 1)
    && (w.client.SubmitFrame? ==> w.client.quad == Latest(w))
    && (forall q :: q in w.quads ==> q in Embedded(w))
    && (forall q :: q in w.childFrames ==> q in w.children)
  }

  lemma UiInv(w: World)
    requires Inv(w) && w.ui != UiIdle
    ensures Inv(UiStepped(w))
  {
    var w' := UiStepped(w);
    if w.ui.GenerateId? {
      assert Embedded(w) == w.children && Embedded(w') == w.children + [Pair(w.ui.sink, w'.surface)];
    } else {
      assert Embedded(w') == Embedded(w);
    }
  }

  lemma ClientInv(w: World)
    requires Inv(w) && w.client != ClientIdle
    ensures Inv(ClientStepped(w))
  {
    assert Embedded(ClientStepped(w)) == Embedded(w);
  }

  lemma StepInv(w: World, e: Event)
    requires Inv(w) && Enabled(true, w, e)
    ensures Inv(Apply(w, e))
  {
    match e
    case UiRuns => UiInv(w);
    case ClientRuns => ClientInv(w);
    case _ => assert Embedded(Apply(w, e)) == Embedded(w);
  }

  lemma {:induction false} RunInv(w: World, events: seq<Event>)
    requires Inv(w) && Feasible(true, w, events)
    ensures Inv(Exec(w, events))
    decreases events
  {
    if events != [] {
      StepInv(w, events[0]);
      RunInv(Apply(w, events[0]), events[1..]);
    }
  }

  lemma SameSink(w: World, a: Pair, b: Pair)
    requires Inv(w) && a in Embedded(w) && b in Embedded(w) && a.sink == b.sink
    ensures a == b
  {
  }

  /** With the lock, in every interleaving and for any number of children: each surface quad names a pair
      that EmbedChild fixed for a child, and whatever that child submits is submitted under that very pair. */
  lemma {:induction false} QuadsNameTheChild(events: seq<Event>, quad: Pair)
    requires Feasible(true, START, events) && quad in Exec(START, events).quads
    ensures var w := Exec(START, events);
            && quad in Embedded(w)
            && forall f :: f in w.childFrames && f.sink == quad.sink ==> f == quad
  {
    RunInv(START, events);
    var w := Exec(START, events);
    forall f | f in w.childFrames && f.sink == quad.sink ensures f == quad {
      assert f in w.children;
      SameSink(w, f, quad);
    }
  }

  /** Calls of EmbedChild begun. */
  function Calls(events: seq<Event>): nat {
    if events == [] then 0 else (if events[0].EmbedChild? then 1 else 0) + Calls(events[1..])
  }

  lemma {:induction false} CallsAreSinks(w: World, events: seq<Event>)
    requires Inv(w) && Feasible(true, w, events)
    ensures Exec(w, events).nextSink == w.nextSink + Calls(events)
    decreases events
  {
    if events != [] {
      StepInv(w, events[0]);
      CallsAreSinks(Apply(w, events[0]), events[1..]);
    }
  }

  /** The pairs embedded are (0, 1), (1, 2) and so on, one for each call of EmbedChild that has got its surface id. */
  lemma {:induction false} OnePairPerCall(events: seq<Event>)
    requires Feasible(true, START, events)
    ensures var w := Exec(START, events);
            && |Embedded(w)| == Calls(events) - (if w.ui.SetChild? || w.ui.GenerateId? then 1 else 0)
            && forall i :: 0 <= i < |Embedded(w)| ==> Embedded(w)[i] == Pair(i, i + 1)
  {
    RunInv(START, events);
    CallsAreSinks(START, events);
  }

  /** A frame always embeds the child embedded last, and has no surface quad exactly when there is none yet. */
  lemma {:induction false} QuadIsLatest(events: seq<Event>)
    requires Feasible(true, START, events) && Exec(START, events).client.SubmitFrame?
    ensures var w := Exec(START, events);
            ClientStepped(w).quads == w.quads + if Embedded(w) == [] then [] else [Embedded(w)[|Embedded(w)| - 1]]
  {
    RunInv(START, events);
  }

  lemma NamesEmbedded(w: World, p: Pair)
    requires Inv(w) && (p in w.quads || p in w.childFrames)
    ensures p in Embedded(w)
  {
  }

  lemma SameElement(pairs: seq<Pair>, a: Pair, b: Pair)
    requires |pairs| <= 1 && a in pairs && b in pairs
    ensures a == b
  {
  }

  /** As in the demo, with a single embedded child: all quads and all child frames name the same pair. */
  lemma {:induction false} OneChildOnePair(events: seq<Event>, a: Pair, b: Pair)
    requires Feasible(true, START, events) && |Embedded(Exec(START, events))| <= 1
    requires var w := Exec(START, events); (a in w.quads || a in w.childFrames) && (b in w.quads || b in w.childFrames)
    ensures a == b
  {
    RunInv(START, events);
    SameElement(Embedded(Exec(START, events)), a, b) by {
      NamesEmbedded(Exec(START, events), a);
      NamesEmbedded(Exec(START, events), b);
    }
  }

  lemma Four(w: World, a: Event, b: Event, c: Event, d: Event, rest: seq<Event>)
    ensures Exec(w, [a, b, c, d] + rest) == Exec(Apply(Apply(Apply(Apply(w, a), b), c), d), rest)
    ensures Feasible(false, w, [a, b, c, d] + rest) <==>
            && Enabled(false, w, a) && Enabled(false, Apply(w, a), b)
            && Enabled(false, Apply(Apply(w, a), b), c) && Enabled(false, Apply(Apply(Apply(w, a), b), c), d)
            && Feasible(false, Apply(Apply(Apply(Apply(w, a), b), c), d), rest)
  {
    assert ([a, b, c, d] + rest)[1..] == [b, c, d] + rest && ([b, c, d] + rest)[1..] == [c, d] + rest;
    assert ([c, d] + rest)[1..] == [d] + rest && ([d] + rest)[1..] == rest;
    var w1 := Apply(w, a);
    var w2 := Apply(w1, b);
    var w3 := Apply(w2, c);
    assert Exec(w, [a, b, c, d] + rest) == Exec(w1, [b, c, d] + rest);
    assert Exec(w1, [b, c, d] + rest) == Exec(w2, [c, d] + rest);
    assert Exec(w2, [c, d] + rest) == Exec(w3, [d] + rest);
    assert Feasible(false, w3, [d] + rest) <==> Enabled(false, w3, d) && Feasible(false, Apply(w3, d), rest);
    assert Feasible(false, w2, [c, d] + rest) <==> Enabled(false, w2, c) && Feasible(false, w3, [d] + rest);
    assert Feasible(false, w1, [b, c, d] + rest) <==> Enabled(false, w1, b) && Feasible(false, w2, [c, d] + rest);
  }

  /** Without the lock a frame can name the child before its surface id exists: the quad names surface 0 while
      the child submits under surface 1. */
  lemma TornWithoutLock()
    ensures var events := [EmbedChild, UiRuns, BeginFrame, ClientRuns] + ([ClientRuns, ClientRuns, ClientRuns, UiRuns]
                          + ([UiRuns, UiRuns, UiRuns, ChildSubmits(0)] + []));
            && Feasible(false, START, events)
            && Exec(START, events).quads == [Pair(0, 0)] && Exec(START, events).childFrames == [Pair(0, 1)]
  {
    var last := [UiRuns, UiRuns, UiRuns, ChildSubmits(0)] + [];
    var middle := [ClientRuns, ClientRuns, ClientRuns, UiRuns] + last;
    Four(START, EmbedChild, UiRuns, BeginFrame, ClientRuns, middle);
    var w4 := World(Client, GenerateId(0), ReadChild, 1, Some(0), 0, [], [], []);
    assert Apply(Apply(Apply(Apply(START, EmbedChild), UiRuns), BeginFrame), ClientRuns) == w4;
    Four(w4, ClientRuns, ClientRuns, ClientRuns, UiRuns, last);
    var w8 := World(Client, ReadId(0), Release, 1, Some(0), 1, [], [Pair(0, 0)], []);
    assert Apply(Apply(Apply(Apply(w4, ClientRuns), ClientRuns), ClientRuns), UiRuns) == w8;
    Four(w8, UiRuns, UiRuns, UiRuns, ChildSubmits(0), []);
    var w12 := World(Nobody, UiIdle, Release, 1, Some(0), 1, [Pair(0, 1)], [Pair(0, 0)], [Pair(0, 1)]);
    assert Apply(Apply(Apply(Apply(w8, UiRuns), UiRuns), UiRuns), ChildSubmits(0)) == w12;
  }
}
