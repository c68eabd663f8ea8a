/** The ink client of demo_viz_layer: every Draw extends the path and asks for a redraw, every
    begin-frame submits if there is something new and passes otherwise.

    A bitmap is known by what was last drawn on it after clearing; stroking a path that only has
    its starting point leaves it blank.
 */
module Ink {
  import opened ResourceProvider
  import opened FrameTokens
  import opened Replies
  import ResourceRun

  datatype Point = Point(x: int, y: int)

  const ORIGIN := Point(0, 0)

  datatype Content = Blank | Stroked(path: seq<Point>)

  function Drawing(path: seq<Point>): Content { if |path| <= 1 then Blank else Stroked(path) }

  datatype Frame = Frame(token: nat, content: Content, background: Color, resources: seq<nat>)

  datatype Client = Client(
    path: seq<Point>, bitmap: Content, needRedraw: bool, token: nat, provider: Provider, sent: seq<Message<Frame>>)

  const BOUND := Client([ORIGIN], Blank, true, 0, EMPTY, [])

  function Drawn(c: Client, p: Point): Client {
    var path := c.path + [p];
    c.(path := path, bitmap := Drawing(path), needRedraw := true)
  }

  function FrameFor(c: Client): Frame {
    Frame(c.token, c.bitmap, Paint(c.token / 60 + 1), ResourceRun.Fresh(c.provider.nextId, 1))
  }

  function Ticked(c: Client, args: nat): Client {
    if c.needRedraw then
      var c' := c.(token := Next(c.token));
      c'.(needRedraw := false, sent := c.sent + [Submit(args, FrameFor(c'))],
          provider := ResourceRun.Created(c.provider, 1))
    else c.(needRedraw := false, sent := c.sent + [DidNotProduce(args)])
  }

  datatype Event = Draw(at: Point) | BeginFrame(args: nat) | Reclaim(batch: seq<Returned>)

  function Apply(c: Client, e: Event): Client {
    match e
    case Draw(p) => Drawn(c, p)
    case BeginFrame(args) => Ticked(c, args)
    case Reclaim(batch) => c.(provider := LayerReclaim(c.provider, batch))
  }

  function Exec(events: seq<Event>): Client {
    if events == [] then BOUND else Apply(Exec(events[..|events| - 1]), events[|events| - 1])
  }

  /** The points of all Draw events, in order. */
  function Points(events: seq<Event>): seq<Point> {
    if events == [] then []
    else
      var e := events[|events| - 1];
      Points(events[..|events| - 1]) + if e.Draw? then [e.at] else []
  }

  /** Whether the client has anything new to show: a Draw since the latest begin-frame, or no begin-frame yet. */
  predicate Fresh(events: seq<Event>) {
    events == [] ||
    (var e := events[|events| - 1];
     e.Draw? || (!e.BeginFrame? && Fresh(events[..|events| - 1])))
  }

  /** The token counts the frames, and a client that wants no redraw has shown its whole path. */
  predicate Counted(c: Client) {
    && c.token == After(|Frames(c.sent)|)
    && (!c.needRedraw ==> Frames(c.sent) != [] && Frames(c.sent)[|Frames(c.sent)| - 1].content == Drawing(c.path))
  }

  ghost predicate Inv(events: seq<Event>, c: Client) {
    && c.path == [ORIGIN] + Points(events)
    && c.bitmap == Drawing(c.path)
    && c.needRedraw == Fresh(events)
    && Counted(c)
  }

  lemma {:induction false} Extend(events: seq<Event>, e: Event)
    ensures Exec(events + [e]) == Apply(Exec(events), e)
    ensures Points(events + [e]) == Points(events) + if e.Draw? then [e.at] else []
    ensures Fresh(events + [e]) == (e.Draw? || (!e.BeginFrame? && Fresh(events)))
  {
    assert (events + [e])[..|events|] == events;
  }

  lemma {:induction false} DrawInv(before: seq<Event>, p: Point)
    requires Inv(before, Exec(before))
    ensures Inv(before + [Draw(p)], Exec(before + [Draw(p)]))
  {
    Extend(before, Draw(p));
    assert [ORIGIN] + (Points(before) + [p]) == [ORIGIN] + Points(before) + [p];
  }

  lemma TickedFrames(c: Client, args: nat)
    ensures Frames(Ticked(c, args).sent)
         == Frames(c.sent) + if c.needRedraw then [FrameFor(c.(token := Next(c.token)))] else []
  {
    FramesStep(c.sent, Ticked(c, args).sent[|c.sent|]);
  }

  lemma TickedCounted(c: Client, args: nat)
    requires Counted(c) && c.bitmap == Drawing(c.path)
    ensures Counted(Ticked(c, args))
  {
    NextAfter(|Frames(c.sent)|);
    TickedFrames(c, args);
  }

  lemma {:induction false} BeginFrameInv(before: seq<Event>, args: nat)
    requires Inv(before, Exec(before))
    ensures Inv(before + [BeginFrame(args)], Exec(before + [BeginFrame(args)]))
  {
    Extend(before, BeginFrame(args));
    TickedCounted(Exec(before), args);
  }

  lemma {:induction false} RunInv(events: seq<Event>)
    ensures Inv(events, Exec(events))
  {
    if events != [] {
      var before, e := events[..|events| - 1], events[|events| - 1];
      assert events == before + [e];
      RunInv(before);
      match e
      case Draw(p) => DrawInv(before, p);
      case BeginFrame(args) => BeginFrameInv(before, args);
      case Reclaim(_) => Extend(before, e);
    }
  }

  lemma DrawingFromOrigin(points: seq<Point>)
    ensures Drawing([ORIGIN] + points) == if points == [] then Blank else Stroked([Point(0, 0)] + points)
  {
    assert [ORIGIN] + [] == [ORIGIN];
  }

  /** No ink is lost: whenever no redraw is wanted, a frame has been submitted and the last one
      shows the whole path, from the origin through every point drawn. */
  lemma {:induction false} UpToDate(events: seq<Event>)
    requires !Exec(events).needRedraw
    ensures var frames, points := Frames(Exec(events).sent), Points(events);
            && frames != []
            && frames[|frames| - 1].content == if points == [] then Blank else Stroked([Point(0, 0)] + points)
  {
    RunInv(events);
    DrawingFromOrigin(Points(events));
  }

  /** A begin-frame is answered once, with its own arguments: by a frame exactly when something was drawn
      since the one before. Draws in between are shown together. */
  lemma {:induction false} AnswersOnce(before: seq<Event>, args: nat)
    ensures var sent := Exec(before).sent;
            var sent' := Exec(before + [BeginFrame(args)]).sent;
            && |sent'| == |sent| + 1 && sent'[..|sent|] == sent && sent'[|sent|].args == args
            && (sent'[|sent|].Submit? <==> Fresh(before))
  {
    RunInv(before);
    assert (before + [BeginFrame(args)])[..|before|] == before;
  }

  /** What the frames of a run should show: for each begin-frame with something new, the points of all draws before it. */
  function Shown(events: seq<Event>): seq<seq<Point>> {
    if events == [] then []
    else
      var before, e := events[..|events| - 1], events[|events| - 1];
      Shown(before) + if e.BeginFrame? && Fresh(before) then [Points(before)] else []
  }

  /** The i-th frame shows the i-th points, joined from the origin; its token counts the frames so far, skipping
      zero where 32 bits wrap, and its background goes one colour further with every sixty tokens. */
  ghost predicate Kept(frames: seq<Frame>, shown: seq<seq<Point>>) {
    && |frames| == |shown|
    && forall i :: 0 <= i < |frames| ==>
         && frames[i].content == (if shown[i] == [] then Blank else Stroked([Point(0, 0)] + shown[i]))
         && frames[i].token == i % 0xFFFF_FFFF + 1
         && frames[i].background == [Red, Green, Yellow][(frames[i].token / 60 + 1) % 3]
  }

  lemma KeptOnceMore(frames: seq<Frame>, shown: seq<seq<Point>>, f: Frame, points: seq<Point>)
    requires Kept(frames, shown) && f.content == Drawing([ORIGIN] + points)
    requires f.token == After(|frames| + 1) && f.background == Paint(f.token / 60 + 1)
    ensures Kept(frames + [f], shown + [points])
  {
    DrawingFromOrigin(points);
  }

  lemma BeginFrameKeeps(c: Client, args: nat, points: seq<Point>, shown: seq<seq<Point>>)
    requires c.bitmap == Drawing([ORIGIN] + points) && c.token == After(|Frames(c.sent)|) && Kept(Frames(c.sent), shown)
    ensures Kept(Frames(Ticked(c, args).sent), shown + if c.needRedraw then [points] else [])
  {
    NextAfter(|Frames(c.sent)|);
    TickedFrames(c, args);
    if c.needRedraw {
      KeptOnceMore(Frames(c.sent), shown, FrameFor(c.(token := Next(c.token))), points);
    } else {
      assert shown + [] == shown;
    }
  }

  lemma {:induction false} KeptStep(before: seq<Event>, e: Event)
    requires Kept(Frames(Exec(before).sent), Shown(before))
    ensures Kept(Frames(Exec(before + [e]).sent), Shown(before + [e]))
  {
    RunInv(before);
    Extend(before, e);
    assert Shown(before + [e]) == Shown(before) + if e.BeginFrame? && Fresh(before) then [Points(before)] else [] by {
      assert (before + [e])[..|before|] == before;
    }
    if e.BeginFrame? {
      BeginFrameKeeps(Exec(before), e.args, Points(before), Shown(before));
    } else {
      assert Shown(before) + [] == Shown(before);
    }
  }

  /** Each submitted frame shows exactly the points of all draws before its begin-frame, and there is one for each
      begin-frame with something new. */
  lemma {:induction false} EachFrame(events: seq<Event>)
    ensures Kept(Frames(Exec(events).sent), Shown(events))
  {
    if events != [] {
      EachFrame(events[..|events| - 1]);
      KeptStep(events[..|events| - 1], events[|events| - 1]);
      assert events == events[..|events| - 1] + [events[|events| - 1]];
    }
  }

  // ----- its resources -----

  lemma OneCreated(p: Provider)
    ensures ResourceRun.Created(p, 1) == Send(Import(p), p.nextId) && ResourceRun.Fresh(p.nextId, 1) == [p.nextId]
  {
    assert ResourceRun.Created(p, 1) == ResourceRun.Created(Send(Import(p), p.nextId), 0);
    assert ResourceRun.Fresh(p.nextId, 1) == [p.nextId] + ResourceRun.Fresh(p.nextId + 1, 0);
  }

  /** The ledger of a run: the resource list of each frame submitted, and the batches reclaimed. */
  function Moves(events: seq<Event>): seq<ResourceRun.Move> {
    if events == [] then []
    else
      var before, e := events[..|events| - 1], events[|events| - 1];
      var sent := Exec(events).sent;
      Moves(before) +
      if e.Reclaim? then [ResourceRun.Reclaims(e.batch)]
      else if e.BeginFrame? && sent != [] && sent[|sent| - 1].Submit? then [ResourceRun.Sends(sent[|sent| - 1].frame.resources)]
      else []
  }

  /** What one event enters into the ledger. */
  function Move(c: Client, e: Event): seq<ResourceRun.Move> {
    match e
    case BeginFrame(_) => if c.needRedraw then [ResourceRun.Sends(ResourceRun.Fresh(c.provider.nextId, 1))] else []
    case Reclaim(batch) => [ResourceRun.Reclaims(batch)]
    case Draw(_) => []
  }

  lemma {:induction false} MovesStep(before: seq<Event>, e: Event)
    ensures Moves(before + [e]) == Moves(before) + Move(Exec(before), e)
  {
    Extend(before, e);
    assert (before + [e])[..|before|] == before;
  }

  lemma LedgerStep(c: Client, e: Event, moves: seq<ResourceRun.Move>)
    requires c.provider == ResourceRun.ProviderOf(moves) && ResourceRun.Numbered(moves)
    ensures Apply(c, e).provider == ResourceRun.ProviderOf(moves + Move(c, e)) && ResourceRun.Numbered(moves + Move(c, e))
  {
    if Move(c, e) == [] {
      assert moves + Move(c, e) == moves;
    } else {
      ResourceRun.Entered(moves, Move(c, e)[0]);
      assert |ResourceRun.Fresh(c.provider.nextId, 1)| == 1 by {
        OneCreated(c.provider);
      }
    }
  }

  /** The client's provider is what its ledger says. */
  lemma {:induction false} KeepsLedger(events: seq<Event>)
    ensures Exec(events).provider == ResourceRun.ProviderOf(Moves(events)) && ResourceRun.Numbered(Moves(events))
  {
    if events != [] {
      var before, e := events[..|events| - 1], events[|events| - 1];
      assert events == before + [e];
      KeepsLedger(before);
      Extend(before, e);
      MovesStep(before, e);
      LedgerStep(Exec(before), e, Moves(before));
    }
  }

  /** The resource lists of the frames submitted. */
  function ResourceLists(frames: seq<Frame>): (lists: seq<seq<nat>>)
    ensures |lists| == |frames| && forall i :: 0 <= i < |frames| ==> lists[i] == frames[i].resources
  {
    seq(|frames|, i requires 0 <= i < |frames| => frames[i].resources)
  }

  lemma ListAdded(frames: seq<Frame>, f: Frame)
    ensures ResourceLists(frames + [f]) == ResourceLists(frames) + [f.resources]
  {
  }

  lemma ListStep(c: Client, e: Event, moves: seq<ResourceRun.Move>)
    requires ResourceLists(Frames(c.sent)) == ResourceRun.Lists(moves)
    ensures ResourceLists(Frames(Apply(c, e).sent)) == ResourceRun.Lists(moves + Move(c, e))
  {
    if Move(c, e) == [] {
      assert moves + Move(c, e) == moves;
    } else {
      ResourceRun.Entered(moves, Move(c, e)[0]);
    }
    if e.BeginFrame? {
      TickedFrames(c, e.args);
      ListAdded(Frames(c.sent), FrameFor(c.(token := Next(c.token))));
    }
  }

  lemma {:induction false} ListsOfRun(events: seq<Event>)
    ensures ResourceLists(Frames(Exec(events).sent)) == ResourceRun.Lists(Moves(events))
  {
    if events != [] {
      var before, e := events[..|events| - 1], events[|events| - 1];
      assert events == before + [e];
      ListsOfRun(before);
      Extend(before, e);
      MovesStep(before, e);
      ListStep(Exec(before), e, Moves(before));
    }
  }

  /** Whatever the parent returns, each resource made is in the list of just one submitted frame, once. */
  lemma {:induction false} SentInOneFrame(events: seq<Event>, id: nat)
    requires id < Exec(events).provider.nextId
    ensures ResourceRun.InOneList(ResourceLists(Frames(Exec(events).sent)), id)
  {
    KeepsLedger(events);
    ListsOfRun(events);
    ResourceRun.SentInOneList(Moves(events), id);
  }

  /** So as long as the parent returns only what it holds, the client never names an absent id and releases each resource
      at most once, and all of them once everything has come back. */
  lemma {:induction false} ResourcesBalance(events: seq<Event>)
    requires ResourceRun.Honest(Moves(events))
    ensures ResourceRun.Balanced(Exec(events).provider, ResourceRun.Held(Moves(events)))
  {
    KeepsLedger(events);
    ResourceRun.LedgerBalances(Moves(events));
  }

  // ----- the client itself -----

  class InkClient {
    var path: seq<Point>
    var bitmap: Content
    var needRedraw: bool
    var token: nat
    var wantsFrames: bool
    var provider: ClientResourceProvider?
    var sent: seq<Message<Frame>>

    function Value(): Client
      requires provider != null
      reads this, provider
    {
      Client(path, bitmap, needRedraw, token, provider.Value(), sent)
    }

    constructor ()
      ensures provider == null && token == 0 && sent == [] && path == []
    {
      path, bitmap, needRedraw, token, wantsFrames, sent := [], Blank, false, 0, false, [];
      provider := null;
    }

    /** The part of Bind that runs on the client's own thread. */
    method Bind()
      requires provider == null && token == 0 && sent == [] && path == []
      modifies this
      ensures provider != null && fresh(provider) && Value() == BOUND && wantsFrames
    {
      wantsFrames := true;
      provider := new ClientResourceProvider();
      bitmap := Blank;
      path := [ORIGIN];
      needRedraw := true;
    }

    method DrawPoint(location: Point)
      requires provider != null
      modifies `path, `bitmap, `needRedraw, `wantsFrames
      ensures Value() == Drawn(old(Value()), location) && wantsFrames
      ensures path == old(path) + [location] && (old(path) != [] ==> bitmap == Stroked(path))
    {
      bitmap := Blank;
      path := path + [location];
      bitmap := Drawing(path);
      needRedraw := true;
      wantsFrames := true;
    }

    method CreateFrame() returns (frame: Frame)
      requires provider != null
      modifies `token, provider
      ensures token == Next(old(token))
      ensures frame == FrameFor(old(Value()).(token := token))
      ensures provider.Value() == ResourceRun.Created(old(provider.Value()), 1)
    {
      token := Next(token);
      var id := provider.ImportResource();
      provider.PrepareSendToParent(id);
      OneCreated(old(provider.Value()));
      frame := Frame(token, bitmap, Paint(token / 60 + 1), [id]);
    }

    method OnBeginFrame(args: nat)
      requires provider != null
      modifies this, provider
      ensures provider == old(provider) && Value() == Ticked(old(Value()), args)
    {
      if needRedraw {
        var frame := CreateFrame();
        sent := sent + [Submit(args, frame)];
      } else {
        sent := sent + [DidNotProduce(args)];
      }
      needRedraw := false;
    }

    method ReclaimResources(resources: seq<Returned>)
      requires provider != null
      modifies provider
      ensures Value() == Apply(old(Value()), Reclaim(resources))
    {
      provider.ReclaimAsLayer(resources);
    }
  }
}
