/** The touch-driven render loop of demo_skia's SkiaCanvas: two flags and one delayed task that
    posts itself again.

    Times are microseconds. The clock readings a task takes while it runs are inputs, in the order
    the task takes them; a run is any sequence of touches and ticks in which time does not go
    backwards and no delayed task runs before it is due.
 */
module RenderLoop {
  import opened Options

  const FRAME_DELAY := 16_000
  const UINT32 := 0x1_0000_0000

  datatype Point = Point(x: real, y: real)

  datatype Clock = Clock(
    begin: int, touch: int, post: int, frame: int,
    paintStart: int, paintEnd: int, swapStart: int, swapEnd: int)
  {
    predicate Ordered() {
      begin <= touch <= post <= frame <= paintStart <= paintEnd <= swapStart <= swapEnd
    }
  }

  /** One drawing pass: when it posted its successor, the time it recorded, what it painted, and how long painting and
      swapping took. */
  datatype Pass = Pass(post: int, frame: int, path: seq<Point>, circles: seq<Point>, paint: int, swap: int)

  /** The sums and counts that ShowFrameRateOnRenderThread divides. */
  datatype Report = Report(frameTime: int, paintTime: int, swapTime: int, frames: nat, touchTime: int, touches: nat)

  /** The four averages it shows, in milliseconds; None where the divisor is zero. */
  datatype Info = Info(frame: Option<int>, paint: Option<int>, swap: Option<int>, touch: Option<int>)

  /** Integer division rounds toward zero. */
  function Quotient(a: int, n: nat): int
    requires n > 0
  {
    if a >= 0 then a / n else -((-a) / n)
  }

  function Average(total: int, count: nat): Option<int> {
    if count == 0 then None else Some(Quotient(Quotient(total, count), 1000))
  }

  function InfoOf(r: Report): Info {
    Info(Average(r.frameTime, r.frames), Average(r.paintTime, r.frames), Average(r.swapTime, r.frames),
         Average(r.touchTime, r.touches))
  }

  lemma Multiples(e: int, d: nat)
    ensures e >= 1 ==> e * d >= d
    ensures e <= -1 ==> e * d + d <= 0
  {
  }

  lemma DivisionIsUnique(a: nat, d: nat, q: nat, r: nat)
    requires a == q * d + r && r < d
    ensures a / d == q
  {
    var e := a / d - q;
    assert a == a / d * d + a % d;
    assert e * d == a / d * d - q * d;
    Multiples(e, d);
  }

  lemma Distribute(h: nat, r: nat, n: nat)
    requires r < 1000
    ensures (h * 1000 + r) * n == h * (1000 * n) + r * n
    ensures r * n + n <= 1000 * n
  {
    assert h * 1000 * n == h * (1000 * n);
    Multiples(1000 - r, n);
    assert (1000 - r) * n == 1000 * n - r * n;
  }

  lemma NestedDivision(a: nat, n: nat)
    requires n > 0
    ensures a / n / 1000 == a / (1000 * n)
  {
    var q, r := a / n, a % n;
    var h, r' := q / 1000, q % 1000;
    assert a == q * n + r;
    Distribute(h, r', n);
    DivisionIsUnique(a, 1000 * n, h, r' * n + r);
  }

  /** Rounding twice is rounding once: an average is the total over `count` milliseconds' worth, rounded toward zero,
      and there is none exactly when nothing was counted. */
  lemma AverageRoundsOnce(total: int, count: nat)
    ensures Average(total, count).None? <==> count == 0
    ensures count > 0 ==> Average(total, count) == Some(Quotient(total, 1000 * count))
  {
    if count > 0 {
      NestedDivision(if total >= 0 then total else -total, count);
    }
  }

  /** The fields of SkiaCanvas; `pending` are the due times of its posted render tasks, `passes` and
      `reports` what it has shown. */
  datatype Canvas = Canvas(
    path: seq<Point>, needRedraw: bool, isDrawing: bool,
    frameCount: nat, lastFrame: int, totalFrame: int, totalPaint: int, totalSwap: int,
    touchCount: nat, touchStart: int, totalTouch: int,
    pending: seq<int>, passes: seq<Pass>, reports: seq<Report>)

  const BLANK := Canvas([], false, false, 0, 0, 0, 0, 0, 0, 0, 0, [], [], [])

  function Increment(n: nat): nat { (n + 1) % UINT32 }

  /** SkPath::lineTo on an empty path starts it at the origin. */
  function LineTo(path: seq<Point>, p: Point): seq<Point> {
    if path == [] then [Point(0.0, 0.0), p] else path + [p]
  }

  function Render(c: Canvas, k: Clock): Canvas {
    if !c.needRedraw then c.(isDrawing := false, frameCount := 0)
    else
      c.(isDrawing := true,
         pending := c.pending + [k.post + FRAME_DELAY],
         totalFrame := if c.frameCount > 0 then c.totalFrame + (k.frame - c.lastFrame) else c.totalFrame,
         frameCount := Increment(c.frameCount),
         lastFrame := k.frame,
         passes := c.passes + [Pass(k.post, k.frame, c.path, c.path, k.paintEnd - k.paintStart, k.swapEnd - k.swapStart)],
         totalPaint := c.totalPaint + (k.paintEnd - k.paintStart),
         totalSwap := c.totalSwap + (k.swapEnd - k.swapStart))
  }

  function SetRedraw(c: Canvas, need: bool, k: Clock): Canvas {
    var c' := c.(needRedraw := need);
    if need && !c.isDrawing then Render(c', k) else c'
  }

  function ReportOf(c: Canvas): Report {
    Report(c.totalFrame, c.totalPaint, c.totalSwap, c.frameCount, c.totalTouch, c.touchCount)
  }

  const DOWN := 0
  const UP := 1
  const MOVE := 2

  function Rewound(c: Canvas, p: Point, touch: int): Canvas {
    c.(path := [p], frameCount := 0, lastFrame := 0, totalFrame := 0, totalPaint := 0, totalSwap := 0,
       touchCount := 1, touchStart := touch, totalTouch := 0)
  }

  function Touched(c: Canvas, action: int, p: Point, k: Clock): Canvas {
    if action == DOWN then
      SetRedraw(Rewound(c, p, k.touch), true, k)
    else if action == MOVE || action == UP then
      var c' := c.(path := LineTo(c.path, p), totalTouch := k.touch - c.touchStart, touchCount := Increment(c.touchCount));
      if action == UP then
        var c'' := SetRedraw(c', false, k);
        c''.(reports := c''.reports + [ReportOf(c'')])
      else c'
    else c
  }

  // ----- runs -----

  datatype Event = Touch(action: int, at: Point, clock: Clock) | Tick(which: nat, clock: Clock)

  /** `mark` counts the passes before the latest down, `touches` the touches from it on. */
  datatype World = World(canvas: Canvas, now: int, mark: nat, touches: nat)

  const START := World(BLANK, 0, 0, 0)

  predicate Enabled(w: World, e: Event) {
    && w.now <= e.clock.begin
    && e.clock.Ordered()
    && (e.Tick? ==> e.which < |w.canvas.pending| && w.canvas.pending[e.which] <= e.clock.begin)
  }

  function Apply(w: World, e: Event): World {
    match e
    case Touch(action, p, k) =>
      World(Touched(w.canvas, action, p, k), k.swapEnd, if action == DOWN then |w.canvas.passes| else w.mark,
            if action == DOWN then 1 else if action == MOVE || action == UP then w.touches + 1 else w.touches)
    case Tick(i, k) =>
      var c := w.canvas;
      World(Render(if i < |c.pending| then c.(pending := c.pending[..i] + c.pending[i + 1..]) else c, k), k.swapEnd, w.mark, w.touches)
  }

  function Continue(w: World, events: seq<Event>): World
    decreases events
  {
    if events == [] then w else Continue(Apply(w, events[0]), events[1..])
  }

  predicate Feasible(w: World, events: seq<Event>)
    decreases events
  {
    events != [] ==> Enabled(w, events[0]) && Feasible(Apply(w, events[0]), events[1..])
  }

  // ----- the invariant -----

  predicate Wraps(n: nat) { n % UINT32 == 0 }

  /** No time passes between the two passes around a wrap of the frame counter. */
  ghost predicate NoTimeLost(passes: seq<Pass>) {
    |passes| <= 1 ||
    (var n := |passes| - 1;
     NoTimeLost(passes[..n]) && (Wraps(n) ==> passes[n].frame == passes[n - 1].frame))
  }

  /** The frame time the loop accounts for: every gap between neighbouring passes, except where the
      32-bit frame counter wrapped to zero. */
  function FrameTime(passes: seq<Pass>): int {
    if |passes| <= 1 then 0
    else
      var n := |passes| - 1;
      FrameTime(passes[..n]) + if Wraps(n) then 0 else passes[n].frame - passes[n - 1].frame
  }

  function PaintTime(passes: seq<Pass>): int {
    if passes == [] then 0 else PaintTime(passes[..|passes| - 1]) + passes[|passes| - 1].paint
  }

  function SwapTime(passes: seq<Pass>): int {
    if passes == [] then 0 else SwapTime(passes[..|passes| - 1]) + passes[|passes| - 1].swap
  }

  /** Posts are 16 ms apart per pass between them, and recorded times do not go backwards. */
  ghost predicate Spaced(passes: seq<Pass>) {
    forall i, j :: 0 <= i < j < |passes| ==>
      passes[j].post - passes[i].post >= (j - i) * FRAME_DELAY && passes[i].frame <= passes[j].frame
  }

  function Draws(w: World): seq<Pass> { if w.mark <= |w.canvas.passes| then w.canvas.passes[w.mark..] else [] }

  ghost predicate LoopInv(c: Canvas, now: int) {
    && (c.needRedraw ==> c.isDrawing)
    && |c.pending| == (if c.isDrawing then 1 else 0)
    && Spaced(c.passes)
    && (c.isDrawing ==> c.passes != [] && c.pending[0] == c.passes[|c.passes| - 1].post + FRAME_DELAY)
    && (c.passes != [] ==>
          var last := c.passes[|c.passes| - 1];
          last.post <= last.frame <= now && (!c.isDrawing ==> last.post + FRAME_DELAY <= now))
  }

  ghost predicate CountInv(w: World) {
    var c, draws := w.canvas, Draws(w);
    && w.mark <= |c.passes|
    && c.frameCount == (if c.isDrawing then |draws| % UINT32 else 0)
    && c.touchCount == w.touches % UINT32
    && c.totalFrame == FrameTime(draws)
    && (draws != [] ==> c.lastFrame == draws[|draws| - 1].frame)
    && c.totalPaint == PaintTime(draws) >= 0 && c.totalSwap == SwapTime(draws) >= 0
    && c.totalPaint + c.totalSwap <= w.now - c.touchStart
  }

  ghost predicate Inv(w: World) { LoopInv(w.canvas, w.now) && CountInv(w) }

  lemma {:induction false} SpacedAppend(passes: seq<Pass>, p: Pass)
    requires Spaced(passes)
    requires passes != [] ==>
               var last := passes[|passes| - 1]; p.post - last.post >= FRAME_DELAY && last.frame <= p.frame
    ensures Spaced(passes + [p])
  {
    var n, all := |passes|, passes + [p];
    forall i, j | 0 <= i < j < |all|
      ensures all[j].post - all[i].post >= (j - i) * FRAME_DELAY && all[i].frame <= all[j].frame
    {
      if j == n && i < n - 1 {
        assert passes[n - 1].post - passes[i].post >= (n - 1 - i) * FRAME_DELAY && passes[i].frame <= passes[n - 1].frame;
      }
    }
  }

  lemma RenderLoopInv(c: Canvas, k: Clock, now: int)
    requires k.Ordered() && Spaced(c.passes) && c.pending == []
    requires c.passes != [] ==>
               var last := c.passes[|c.passes| - 1];
               last.post <= last.frame <= now <= k.begin && last.post + FRAME_DELAY <= k.begin
    ensures LoopInv(Render(c, k), k.swapEnd)
  {
    if c.needRedraw {
      SpacedAppend(c.passes, Render(c, k).passes[|c.passes|]);
    }
  }

  lemma TickLoopInv(w: World, e: Event)
    requires LoopInv(w.canvas, w.now) && Enabled(w, e) && e.Tick?
    ensures LoopInv(Apply(w, e).canvas, Apply(w, e).now)
  {
    var c := w.canvas;
    assert c.pending[..e.which] + c.pending[e.which + 1..] == [];
    RenderLoopInv(c.(pending := []), e.clock, w.now);
  }

  lemma TouchLoopInv(w: World, e: Event)
    requires LoopInv(w.canvas, w.now) && Enabled(w, e) && e.Touch?
    ensures LoopInv(Apply(w, e).canvas, Apply(w, e).now)
  {
    var c, k := w.canvas, e.clock;
    if e.action == DOWN && !c.isDrawing {
      var c' := Rewound(c, e.at, k.touch).(needRedraw := true);
      assert c'.pending == [];
      RenderLoopInv(c', k, w.now);
    }
  }

  lemma CountUp(n: nat)
    ensures Increment(n % UINT32) == (n + 1) % UINT32
  {
  }

  lemma OnePassMore(draws: seq<Pass>, p: Pass)
    ensures PaintTime(draws + [p]) == PaintTime(draws) + p.paint && SwapTime(draws + [p]) == SwapTime(draws) + p.swap
    ensures FrameTime(draws + [p])
         == FrameTime(draws) + if draws == [] || Wraps(|draws|) then 0 else p.frame - draws[|draws| - 1].frame
  {
    assert (draws + [p])[..|draws|] == draws;
  }

  lemma RenderDraws(w: World, k: Clock)
    requires w.canvas.needRedraw && w.mark <= |w.canvas.passes|
    ensures var c' := Render(w.canvas, k); Draws(w.(canvas := c', now := k.swapEnd)) == Draws(w) + [c'.passes[|w.canvas.passes|]]
  {
  }

  lemma RenderCounts(w: World, c: Canvas, k: Clock)
    requires w.canvas == c && k.Ordered() && c.needRedraw && w.mark <= |c.passes|
    requires c.touchCount == w.touches % UINT32
    requires c.frameCount == |Draws(w)| % UINT32 && c.totalFrame == FrameTime(Draws(w))
    requires Draws(w) != [] ==> c.lastFrame == Draws(w)[|Draws(w)| - 1].frame
    requires c.totalPaint == PaintTime(Draws(w)) >= 0 && c.totalSwap == SwapTime(Draws(w)) >= 0
    requires c.totalPaint + c.totalSwap <= k.post - c.touchStart
    ensures var w' := w.(canvas := Render(c, k), now := k.swapEnd);
            CountInv(w') && |Draws(w')| == |Draws(w)| + 1
  {
    var c' := Render(c, k);
    var draws, p := Draws(w), c'.passes[|c.passes|];
    RenderDraws(w, k);
    OnePassMore(draws, p);
    CountUp(|draws|);
    assert c'.frameCount == |draws + [p]| % UINT32;
    assert c.frameCount > 0 <==> draws != [] && !Wraps(|draws|);
    assert c'.totalFrame == FrameTime(draws + [p]);
    assert (draws + [p])[|draws|] == p;
  }

  lemma TickCountInv(w: World, e: Event)
    requires Inv(w) && Enabled(w, e) && e.Tick?
    ensures CountInv(Apply(w, e))
    ensures |Draws(Apply(w, e))| == |Draws(w)| + if w.canvas.needRedraw then 1 else 0
  {
    var c := w.canvas;
    var c' := c.(pending := c.pending[..e.which] + c.pending[e.which + 1..]);
    var v := w.(canvas := c');
    assert Draws(v) == Draws(w);
    if c.needRedraw {
      RenderCounts(v, c', e.clock);
    }
  }

  lemma DownCountInv(w: World, e: Event)
    requires Inv(w) && Enabled(w, e) && e.Touch? && e.action == DOWN
    ensures CountInv(Apply(w, e)) && Apply(w, e).canvas.needRedraw
    ensures |Draws(Apply(w, e))| == if w.canvas.isDrawing then 0 else 1
  {
    var c, k := w.canvas, e.clock;
    var c' := Rewound(c, e.at, k.touch).(needRedraw := true);
    var v := World(c', k.begin, |c.passes|, 1);
    assert Draws(v) == [];
    if !c.isDrawing {
      RenderCounts(v, c', k);
    }
  }

  lemma OtherTouch(w: World, e: Event)
    requires Inv(w) && Enabled(w, e) && e.Touch? && e.action != DOWN
    ensures CountInv(Apply(w, e)) && Draws(Apply(w, e)) == Draws(w)
    ensures Apply(w, e).canvas.needRedraw == (w.canvas.needRedraw && e.action != UP)
  {
    var c, c' := w.canvas, Apply(w, e).canvas;
    assert c'.passes == c.passes && c'.frameCount == c.frameCount && c'.lastFrame == c.lastFrame;
    assert c'.totalFrame == c.totalFrame && c'.totalPaint == c.totalPaint && c'.totalSwap == c.totalSwap;
    assert Draws(Apply(w, e)) == Draws(w);
    CountUp(w.touches);
  }

  lemma StepInv(w: World, e: Event)
    requires Inv(w) && Enabled(w, e)
    ensures Inv(Apply(w, e))
  {
    if e.Tick? {
      TickLoopInv(w, e);
      TickCountInv(w, e);
    } else {
      TouchLoopInv(w, e);
      if e.action == DOWN {
        DownCountInv(w, e);
      } else {
        OtherTouch(w, e);
      }
    }
  }

  lemma {:induction false} ContinueInv(w: World, events: seq<Event>)
    requires Inv(w) && Feasible(w, events)
    ensures Inv(Continue(w, events))
    decreases events
  {
    if events != [] {
      StepInv(w, events[0]);
      ContinueInv(Apply(w, events[0]), events[1..]);
    }
  }

  lemma StartInv()
    ensures Inv(START)
  {
  }

  // ----- the flags and the one pending task -----

  /** After every step of every run: one pending render task while drawing and none otherwise,
      and a wanted redraw is always being served. */
  lemma {:induction false} OnePendingTask(events: seq<Event>)
    requires Feasible(START, events)
    ensures var c := Continue(START, events).canvas;
            |c.pending| == (if c.isDrawing then 1 else 0) && (c.needRedraw ==> c.isDrawing)
  {
    StartInv();
    ContinueInv(START, events);
  }

  // ----- spacing -----

  /** Any two passes of any run start at least 16 ms apart per pass between them. */
  lemma {:induction false} PassesApart(events: seq<Event>, i: nat, j: nat)
    requires Feasible(START, events) && i < j < |Continue(START, events).canvas.passes|
    ensures var passes := Continue(START, events).canvas.passes;
            passes[j].post - passes[i].post >= (j - i) * 16_000
  {
    StartInv();
    ContinueInv(START, events);
  }

  function InWindow(passes: seq<Pass>, from: int, length: nat): nat {
    if passes == [] then 0
    else
      var n := |passes| - 1;
      InWindow(passes[..n], from, length) + if from <= passes[n].post <= from + length then 1 else 0
  }

  /** The passes of a window are neighbours, the last of them at the end unless the log went past it. */
  ghost predicate Span(passes: seq<Pass>, from: int, length: nat, first: nat) {
    var n := InWindow(passes, from, length);
    n > 0 ==>
      && first + n <= |passes|
      && from <= passes[first].post
      && passes[first + n - 1].post <= from + length
      && (first + n == |passes| || passes[|passes| - 1].post > from + length)
  }

  lemma {:induction false} WindowSpan(passes: seq<Pass>, from: int, length: nat) returns (first: nat)
    requires Spaced(passes)
    ensures Span(passes, from, length, first)
  {
    first := 0;
    if passes != [] {
      var n := |passes| - 1;
      var front := passes[..n];
      first := WindowSpan(front, from, length);
      if InWindow(front, from, length) == 0 {
        first := n;
      } else {
        assert front[n - 1] == passes[n - 1];
        assert passes[n].post - passes[n - 1].post >= (n - (n - 1)) * FRAME_DELAY;
      }
    }
  }

  /** A window of `length` microseconds holds at most length / 16 ms + 1 passes. */
  lemma {:induction false} PassesPerWindow(events: seq<Event>, from: int, length: nat)
    requires Feasible(START, events)
    ensures InWindow(Continue(START, events).canvas.passes, from, length) <= length / 16_000 + 1
  {
    StartInv();
    ContinueInv(START, events);
    var passes := Continue(START, events).canvas.passes;
    var first := WindowSpan(passes, from, length);
    var n := InWindow(passes, from, length);
    if n > 0 {
      assert n > 1 ==> passes[first + n - 1].post - passes[first].post >= (n - 1) * FRAME_DELAY;
    }
  }

  // ----- stopping -----

  function Ticks(events: seq<Event>): nat {
    if events == [] then 0 else (if events[0].Tick? then 1 else 0) + Ticks(events[1..])
  }

  predicate NoDown(events: seq<Event>) {
    forall e :: e in events ==> e.Touch? ==> e.action != DOWN
  }

  ghost predicate Quieter(c: Canvas, c': Canvas, ticks: nat) {
    && c'.passes == c.passes && !c'.needRedraw
    && ticks == (if c.isDrawing && !c'.isDrawing then 1 else 0)
    && (c'.isDrawing ==> c.isDrawing && c'.pending == c.pending)
  }

  lemma QuietStep(w: World, e: Event)
    requires Inv(w) && !w.canvas.needRedraw && Enabled(w, e) && (e.Touch? ==> e.action != DOWN)
    ensures Quieter(w.canvas, Apply(w, e).canvas, if e.Tick? then 1 else 0)
  {
  }

  lemma {:induction false} QuietRun(w: World, events: seq<Event>)
    requires Inv(w) && !w.canvas.needRedraw && Feasible(w, events) && NoDown(events)
    ensures Quieter(w.canvas, Continue(w, events).canvas, Ticks(events))
    decreases events
  {
    if events != [] {
      var w' := Apply(w, events[0]);
      StepInv(w, events[0]);
      assert events[0] in events;
      if events[0].Touch? {
        OtherTouch(w, events[0]);
      }
      QuietStep(w, events[0]);
      QuietRun(w', events[1..]);
    }
  }

  lemma ContinueOne(w: World, e: Event)
    ensures Continue(w, [e]) == Apply(w, e) && (Feasible(w, [e]) <==> Enabled(w, e))
  {
    var w' := Apply(w, e);
    assert [e][1..] == [];
    assert Continue(w', []) == w' && Feasible(w', []);
  }

  lemma {:induction false} ContinueAppend(w: World, a: seq<Event>, b: seq<Event>)
    ensures Continue(w, a + b) == Continue(Continue(w, a), b)
    ensures Feasible(w, a + b) <==> Feasible(w, a) && Feasible(Continue(w, a), b)
    decreases a
  {
    if a == [] {
      assert a + b == b;
    } else {
      assert (a + b)[1..] == a[1..] + b;
      ContinueAppend(Apply(w, a[0]), a[1..], b);
    }
  }

  lemma {:induction false} AfterPrefix(before: seq<Event>, e: Event)
    requires Feasible(START, before + [e])
    ensures Feasible(START, before) && Inv(Continue(START, before)) && Enabled(Continue(START, before), e)
    ensures Continue(START, before + [e]) == Apply(Continue(START, before), e)
  {
    StartInv();
    ContinueAppend(START, before, [e]);
    ContinueOne(Continue(START, before), e);
    ContinueInv(START, before);
  }

  /** After an up and until the next down nothing is drawn; at most one more tick runs, it is due
      within 16 ms, and it leaves the loop idle with no task pending. */
  lemma {:induction false} QuietAfterUp(before: seq<Event>, up: Event, after: seq<Event>)
    requires Feasible(START, before + [up] + after) && up.Touch? && up.action == UP && NoDown(after)
    ensures var w := Continue(START, before + [up]);
            var c := Continue(START, before + [up] + after).canvas;
            && c.passes == w.canvas.passes
            && Ticks(after) <= 1
            && (w.canvas.isDrawing ==> |w.canvas.pending| == 1 && w.canvas.pending[0] <= w.now + 16_000)
            && (Ticks(after) == 1 || !w.canvas.isDrawing ==> !c.isDrawing && c.pending == [])
  {
    ContinueAppend(START, before + [up], after);
    AfterPrefix(before, up);
    var w := Continue(START, before + [up]);
    StepInv(Continue(START, before), up);
    QuietRun(w, after);
    ContinueInv(w, after);
  }

  // ----- the counters -----

  lemma {:induction false} Telescope(passes: seq<Pass>)
    requires Spaced(passes) && passes != []
    ensures var span := passes[|passes| - 1].frame - passes[0].frame;
            FrameTime(passes) <= span && (FrameTime(passes) == span <==> NoTimeLost(passes))
  {
    if |passes| > 1 {
      var n := |passes| - 1;
      var front := passes[..n];
      assert front[n - 1] == passes[n - 1] && front[0] == passes[0];
      Telescope(front);
      assert passes[n - 1].frame <= passes[n].frame;
    }
  }

  lemma {:induction false} ShortLosesNothing(passes: seq<Pass>)
    requires |passes| <= UINT32
    ensures NoTimeLost(passes)
  {
    if |passes| > 1 {
      ShortLosesNothing(passes[..|passes| - 1]);
    }
  }

  lemma SpacedDraws(w: World)
    requires Spaced(w.canvas.passes)
    ensures Spaced(Draws(w))
  {
    if w.mark <= |w.canvas.passes| {
      assert forall i :: 0 <= i < |Draws(w)| ==> Draws(w)[i] == w.canvas.passes[w.mark + i];
      forall i, j | 0 <= i < j < |Draws(w)|
        ensures Draws(w)[j].post - Draws(w)[i].post >= (j - i) * FRAME_DELAY && Draws(w)[i].frame <= Draws(w)[j].frame
      {
        assert w.canvas.passes[w.mark + j].post - w.canvas.passes[w.mark + i].post >= (w.mark + j - (w.mark + i)) * FRAME_DELAY;
      }
    }
  }

  /** Whenever a frame is counted, the total frame time is last minus first drawing time since the
      latest down, exactly as long as no pass fell on a wrap of the frame counter with time passing;
      below 2^32 passes that is always. */
  lemma {:induction false} FrameTimeIsSpan(events: seq<Event>)
    requires Feasible(START, events) && Continue(START, events).canvas.frameCount > 0
    ensures var w := Continue(START, events);
            var draws := Draws(w);
            && draws != []
            && (|draws| <= UINT32 ==> NoTimeLost(draws))
            && (w.canvas.totalFrame == draws[|draws| - 1].frame - draws[0].frame <==> NoTimeLost(draws))
  {
    StartInv();
    ContinueInv(START, events);
    var w := Continue(START, events);
    var draws := Draws(w);
    assert draws != [];
    SpacedDraws(w);
    Telescope(draws);
    if |draws| <= UINT32 {
      ShortLosesNothing(draws);
    }
  }

  /** Painting and swapping never take more than the time since the latest down. */
  lemma {:induction false} PaintAndSwapFit(events: seq<Event>)
    requires Feasible(START, events)
    ensures var w := Continue(START, events);
            w.canvas.totalPaint + w.canvas.totalSwap <= w.now - w.canvas.touchStart
  {
    StartInv();
    ContinueInv(START, events);
  }

  // ----- the stroke on the screen -----

  /** The touches from the latest down on, or all if there was none. */
  function Stretch(events: seq<Event>): seq<Event> {
    if events == [] then []
    else
      var before, e := Stretch(events[..|events| - 1]), events[|events| - 1];
      if e.Tick? || (e.action != 0 && e.action != 1 && e.action != 2) then before
      else if e.action == 0 then [e]
      else before + [e]
  }

  function Points(touches: seq<Event>): seq<Point>
    requires forall e :: e in touches ==> e.Touch?
  {
    seq(|touches|, i requires 0 <= i < |touches| => touches[i].at)
  }

  lemma {:induction false} StretchIsTouches(events: seq<Event>)
    ensures forall e :: e in Stretch(events) ==> e.Touch?
  {
    if events != [] {
      StretchIsTouches(events[..|events| - 1]);
    }
  }

  /** Where the touches went, one after another; without a down the path starts at the origin. */
  ghost predicate Follows(path: seq<Point>, touches: seq<Event>) {
    && (forall e :: e in touches ==> e.Touch?)
    && if touches == [] then path == []
       else if touches[0].action == 0 then path == Points(touches)
       else path == [Point(0.0, 0.0)] + Points(touches)
  }

  /** When the latest down came, if one did. */
  function Began(touches: seq<Event>): int {
    if touches != [] && touches[0].Touch? && touches[0].action == 0 then touches[0].clock.touch else 0
  }

  function LatestTouch(touches: seq<Event>): int {
    if touches == [] then 0 else touches[|touches| - 1].clock.touch
  }

  /** Whether the latest of the downs and ups was a down. */
  predicate Pressed(events: seq<Event>) {
    events != [] &&
    var e := events[|events| - 1];
    if e.Touch? && e.action == 0 then true
    else if e.Touch? && e.action == 1 then false
    else Pressed(events[..|events| - 1])
  }

  ghost predicate Remembers(w: World, touches: seq<Event>, pressed: bool) {
    var c := w.canvas;
    && Follows(c.path, touches)
    && w.touches == |touches|
    && c.touchStart == Began(touches)
    && c.totalTouch == LatestTouch(touches) - Began(touches)
    && c.needRedraw == pressed
  }

  lemma PointsAppend(touches: seq<Event>, e: Event)
    requires e.Touch? && forall x :: x in touches ==> x.Touch?
    ensures Points(touches + [e]) == Points(touches) + [e.at]
  {
  }

  lemma FollowsOn(path: seq<Point>, touches: seq<Event>, e: Event)
    requires Follows(path, touches) && e.Touch? && (touches == [] ==> e.action != 0)
    ensures Follows(LineTo(path, e.at), touches + [e])
  {
    PointsAppend(touches, e);
    assert (touches + [e])[0] == if touches == [] then e else touches[0];
    if touches == [] {
      assert Points([]) == [] && [] + [e] == [e];
    }
  }

  lemma MovesOn(w: World, e: Event, touches: seq<Event>, pressed: bool)
    requires Remembers(w, touches, pressed) && e.Touch? && (e.action == 1 || e.action == 2)
    ensures Remembers(Apply(w, e), touches + [e], if e.action == 1 then false else pressed)
  {
    FollowsOn(w.canvas.path, touches, e);
    assert (touches + [e])[0] == if touches == [] then e else touches[0];
  }

  lemma StartsAgain(w: World, e: Event)
    requires e.Touch? && e.action == 0
    ensures Remembers(Apply(w, e), [e], true)
  {
    assert Points([e]) == [e.at];
  }

  lemma Untouched(w: World, e: Event, touches: seq<Event>, pressed: bool)
    requires Remembers(w, touches, pressed) && (e.Tick? || (e.action != 0 && e.action != 1 && e.action != 2))
    ensures Remembers(Apply(w, e), touches, pressed)
  {
  }

  lemma {:induction false} StrokeStep(w: World, before: seq<Event>, e: Event)
    requires Remembers(w, Stretch(before), Pressed(before))
    ensures Remembers(Apply(w, e), Stretch(before + [e]), Pressed(before + [e]))
  {
    assert (before + [e])[..|before|] == before;
    if e.Tick? || (e.action != 0 && e.action != 1 && e.action != 2) {
      Untouched(w, e, Stretch(before), Pressed(before));
    } else if e.action == 0 {
      StartsAgain(w, e);
    } else {
      MovesOn(w, e, Stretch(before), Pressed(before));
    }
  }

  /** In every run the path is where the touches of the current stroke went, and the touch times are its own; a redraw is
      wanted exactly while the finger is down. */
  lemma {:induction false} StrokeOfRun(events: seq<Event>)
    requires Feasible(START, events)
    ensures Remembers(Continue(START, events), Stretch(events), Pressed(events))
  {
    if events != [] {
      var before, e := events[..|events| - 1], events[|events| - 1];
      assert events == before + [e];
      AfterPrefix(before, e);
      StrokeOfRun(before);
      StrokeStep(Continue(START, before), before, e);
    }
  }

  /** Whether the step draws: a tick while the finger is down, or a down that finds the loop idle. */
  predicate DrawsAt(before: seq<Event>, e: Event, idle: bool) {
    if e.Tick? then Pressed(before) else e.action == 0 && idle
  }

  lemma PassAdded(w: World, e: Event)
    ensures var c, c', k := w.canvas, Apply(w, e).canvas, e.clock;
            if (e.Tick? && c.needRedraw) || (e.Touch? && e.action == 0 && !c.isDrawing) then
              c'.passes == c.passes + [Pass(k.post, k.frame, c'.path, c'.path, k.paintEnd - k.paintStart, k.swapEnd - k.swapStart)]
            else c'.passes == c.passes
  {
  }

  /** Every pass draws the current stroke and a circle at each of its points, at the time and for as long as the clock
      says, and there is a pass for each step that should draw and for no other. */
  lemma {:induction false} EachPass(before: seq<Event>, e: Event)
    requires Feasible(START, before + [e])
    ensures var c, c', k := Continue(START, before).canvas, Continue(START, before + [e]).canvas, e.clock;
            && Follows(c'.path, Stretch(before + [e]))
            && if DrawsAt(before, e, !c.isDrawing) then
                 c'.passes == c.passes + [Pass(k.post, k.frame, c'.path, c'.path, k.paintEnd - k.paintStart, k.swapEnd - k.swapStart)]
               else c'.passes == c.passes
  {
    AfterPrefix(before, e);
    StrokeOfRun(before);
    StrokeOfRun(before + [e]);
    PassAdded(Continue(START, before), e);
  }

  // ----- what an up reports -----

  function LastReport(c: Canvas): Option<Report> {
    if c.reports == [] then None else Some(c.reports[|c.reports| - 1])
  }

  predicate DividesByZero(r: Report) { r.frames == 0 || r.touches == 0 }

  /** The report of an up in world `w`: the passes since the latest down, all forgotten once the loop has
      stopped, and the touches since then with the up itself, both modulo 2^32. */
  predicate Reports(w: World, up: Event, r: Report) {
    && r.frames == (if w.canvas.isDrawing then |Draws(w)| % UINT32 else 0)
    && r.touches == (w.touches + 1) % UINT32
    && r.frameTime == FrameTime(Draws(w))
    && r.paintTime == PaintTime(Draws(w)) && r.swapTime == SwapTime(Draws(w))
    && r.touchTime == up.clock.touch - w.canvas.touchStart
  }

  lemma UpReports(w: World, up: Event)
    requires Inv(w) && Enabled(w, up) && up.Touch? && up.action == UP
    ensures exists r :: Apply(w, up).canvas.reports == w.canvas.reports + [r] && Reports(w, up, r)
  {
    CountUp(w.touches);
    var c' := Apply(w, up).canvas;
    var r := c'.reports[|w.canvas.reports|];
    assert c'.reports == w.canvas.reports + [r] && Reports(w, up, r);
  }

  /** Every up of every run adds one report, of just these sums and counts, since the latest down and its time. */
  lemma {:induction false} FramesReported(before: seq<Event>, up: Event)
    requires Feasible(START, before + [up]) && up.Touch? && up.action == UP
    ensures var w := Continue(START, before);
            exists r :: Continue(START, before + [up]).canvas.reports == w.canvas.reports + [r] && Reports(w, up, r)
    ensures Continue(START, before).touches == |Stretch(before)|
    ensures Continue(START, before).canvas.touchStart == Began(Stretch(before))
  {
    AfterPrefix(before, up);
    UpReports(Continue(START, before), up);
    StrokeOfRun(before);
  }

  /** An up divides by zero exactly when it finds the loop idle, or no pass was made since the latest down, or one of the
      two counts has just wrapped to zero. */
  lemma {:induction false} DivisionFails(before: seq<Event>, up: Event)
    requires Feasible(START, before + [up]) && up.Touch? && up.action == UP
    ensures var w := Continue(START, before);
            var last := LastReport(Continue(START, before + [up]).canvas);
            && last.Some?
            && (DividesByZero(last.value) <==>
                  !w.canvas.isDrawing || Wraps(|Draws(w)|) || Wraps(w.touches + 1))
  {
    FramesReported(before, up);
  }

  predicate Stroke(events: seq<Event>) {
    forall e :: e in events ==> e.Touch? ==> e.action != DOWN && e.action != UP
  }

  lemma {:induction false} StrokeDraws(w: World, events: seq<Event>)
    requires Inv(w) && w.canvas.needRedraw && Feasible(w, events) && Stroke(events)
    ensures var w' := Continue(w, events);
            w'.canvas.needRedraw && |Draws(w')| == |Draws(w)| + Ticks(events)
    decreases events
  {
    if events != [] {
      assert events[0] in events;
      StepInv(w, events[0]);
      if events[0].Tick? {
        TickCountInv(w, events[0]);
      } else {
        OtherTouch(w, events[0]);
      }
      StrokeDraws(Apply(w, events[0]), events[1..]);
    }
  }

  /** After a down and no other down or up, the loop draws; it has made one pass if the down found it idle, and one
      for each tick since. With FramesReported, this is what the first up after a down reports. */
  lemma {:induction false} StrokePasses(before: seq<Event>, down: Event, stroke: seq<Event>)
    requires Feasible(START, before + [down] + stroke)
    requires down.Touch? && down.action == DOWN && Stroke(stroke)
    ensures var idle := !Continue(START, before).canvas.isDrawing;
            var w := Continue(START, before + [down] + stroke);
            w.canvas.isDrawing && |Draws(w)| == (if idle then 1 else 0) + Ticks(stroke)
  {
    ContinueAppend(START, before + [down], stroke);
    AfterPrefix(before, down);
    var w0 := Continue(START, before);
    var w1 := Apply(w0, down);
    assert Inv(w1) && w1.canvas.needRedraw && |Draws(w1)| == if w0.canvas.isDrawing then 0 else 1 by {
      StepInv(w0, down);
      DownCountInv(w0, down);
    }
    StrokeDraws(w1, stroke);
    ContinueInv(w1, stroke);
  }

  /** All readings at time `t`. */
  function At(t: int): Clock { Clock(t, t, t, t, t, t, t, t) }

  lemma TwoMore(w: World, a: Event, b: Event, rest: seq<Event>)
    ensures Continue(w, [a, b] + rest) == Continue(Apply(Apply(w, a), b), rest)
    ensures Feasible(w, [a, b] + rest) <==>
            Enabled(w, a) && Enabled(Apply(w, a), b) && Feasible(Apply(Apply(w, a), b), rest)
  {
    assert ([a, b] + rest)[1..] == [b] + rest && ([b] + rest)[1..] == rest;
    assert Continue(w, [a, b] + rest) == Continue(Apply(w, a), [b] + rest);
  }

  lemma UpWithoutFrames(w: World, up: Event)
    requires up.Touch? && up.action == UP
    ensures var c := Apply(w, up).canvas;
            |c.reports| == |w.canvas.reports| + 1 && c.reports[|w.canvas.reports|].frames == w.canvas.frameCount
    ensures Apply(w, up).canvas.isDrawing == w.canvas.isDrawing && Apply(w, up).canvas.pending == w.canvas.pending
  {
  }

  lemma DownWhileDrawing(w: World, down: Event)
    requires w.canvas.isDrawing && down.Touch? && down.action == DOWN
    ensures var c := Apply(w, down).canvas;
            c.isDrawing && c.frameCount == 0 && c.reports == w.canvas.reports && c.pending == w.canvas.pending
  {
  }

  /** A down that finds the loop still drawing and an up before the next tick report no frame. */
  lemma TapWhileDrawing(w: World, down: Event, up: Event)
    requires w.canvas.isDrawing && down.Touch? && down.action == DOWN && up.Touch? && up.action == UP
    ensures var c := Apply(Apply(w, down), up).canvas;
            c.isDrawing && |c.reports| == |w.canvas.reports| + 1 && c.reports[|w.canvas.reports|].frames == 0
  {
    DownWhileDrawing(w, down);
    UpWithoutFrames(Apply(w, down), up);
  }

  lemma DownWhenIdle(w: World, down: Event)
    requires !w.canvas.isDrawing && w.canvas.pending == [] && down.Touch? && down.action == DOWN
    ensures var c := Apply(w, down).canvas;
            c.isDrawing && c.reports == w.canvas.reports && c.pending == [down.clock.post + FRAME_DELAY]
  {
  }

  /** Down, up, down, up at one instant: a run whose second stroke reports no frame at all. */
  lemma QuickDoubleTap(k: Clock, p: Point)
    requires k.Ordered() && 0 <= k.begin == k.swapEnd
    ensures var d, u := Touch(DOWN, p, k), Touch(UP, p, k);
            var reports := Continue(START, [d, u] + ([d, u] + [])).canvas.reports;
            Feasible(START, [d, u] + ([d, u] + [])) && |reports| == 2 && reports[1].frames == 0
  {
    var d, u := Touch(DOWN, p, k), Touch(UP, p, k);
    var w1 := Apply(START, d);
    var w2 := Apply(w1, u);
    DownWhenIdle(START, d);
    UpWithoutFrames(w1, u);
    TapWhileDrawing(w2, d, u);
    TwoMore(START, d, u, [d, u] + []);
    TwoMore(w2, d, u, []);
  }

  /** Two fingers go down, one comes up, the loop stops, the other comes up: the second up finds the loop idle
      and reports no frame. */
  lemma TwoFingers(p: Point, q: Point)
    ensures var d, e := Touch(DOWN, p, At(0)), Touch(DOWN, q, At(0));
            var u, stop, v := Touch(UP, p, At(0)), Tick(0, At(FRAME_DELAY)), Touch(UP, q, At(FRAME_DELAY));
            var events := [d, e] + ([u, stop] + [v]);
            var c := Continue(START, events).canvas;
            Feasible(START, events) && !c.isDrawing && |c.reports| == 2 && c.reports[1].frames == 0
  {
    var d, e := Touch(DOWN, p, At(0)), Touch(DOWN, q, At(0));
    var u, stop, v := Touch(UP, p, At(0)), Tick(0, At(FRAME_DELAY)), Touch(UP, q, At(FRAME_DELAY));
    var w1 := Apply(START, d);
    var w2 := Apply(w1, e);
    var w3 := Apply(w2, u);
    var w4 := Apply(w3, stop);
    DownWhenIdle(START, d);
    DownWhileDrawing(w1, e);
    UpWithoutFrames(w2, u);
    assert w3.canvas.pending == [FRAME_DELAY] && !w3.canvas.needRedraw && w3.now == 0;
    assert !w4.canvas.isDrawing && w4.canvas.frameCount == 0;
    UpWithoutFrames(w4, v);
    TwoMore(START, d, e, [u, stop] + [v]);
    TwoMore(w2, u, stop, [v]);
    ContinueOne(w4, v);
  }

  // ----- time at a wrap of the frame counter -----

  /** The latest of at least one pass was drawn just now, and the next is due in 16 ms. */
  predicate Beating(w: World) {
    && w.canvas.needRedraw && w.canvas.isDrawing && w.canvas.pending == [w.now + FRAME_DELAY]
    && Draws(w) != [] && Draws(w)[|Draws(w)| - 1].frame == w.now
  }

  lemma OneMore(w: World, e: Event, v: World, rest: seq<Event>)
    requires v == Apply(w, e) && Enabled(w, e) && Feasible(v, rest)
    ensures Feasible(w, [e] + rest) && Continue(w, [e] + rest) == Continue(v, rest)
  {
    assert ([e] + rest)[1..] == rest;
  }

  /** `v` is `w` with `n` more passes, the last of them 16 ms after the one before. */
  predicate Beaten(w: World, n: nat, v: World) {
    && Beating(v) && |Draws(v)| == |Draws(w)| + n
    && (n > 0 && |Draws(v)| > 1 ==> Draws(v)[|Draws(v)| - 2].frame == v.now - FRAME_DELAY)
  }

  lemma Beat(w: World) returns (e: Event, v: World)
    requires Beating(w)
    ensures Enabled(w, e) && v == Apply(w, e) && Beaten(w, 1, v)
  {
    var c := w.canvas;
    e := Tick(0, At(w.now + FRAME_DELAY));
    v := Apply(w, e);
    assert c.pending[..0] + c.pending[1..] == [];
    assert Draws(v)[..|Draws(w)|] == Draws(w);
  }

  lemma BeatenOn(w: World, u: World, n: nat, v: World)
    requires Beaten(w, 1, u) && Beaten(u, n, v) && (n == 0 ==> v == u)
    ensures Beaten(w, n + 1, v)
  {
  }

  /** Ticks that each come 16 ms after the one before. */
  lemma {:induction false} Beats(w: World, n: nat) returns (ticks: seq<Event>, v: World)
    requires Beating(w)
    ensures |ticks| == n && Feasible(w, ticks) && v == Continue(w, ticks)
    ensures Beaten(w, n, v) && (n == 0 ==> v == w)
    decreases n
  {
    if n == 0 {
      ticks, v := [], w;
    } else {
      var e, u := Beat(w);
      ticks, v := Beats(u, n - 1);
      OneMore(w, e, u, ticks);
      BeatenOn(w, u, n - 1, v);
      ticks := [e] + ticks;
    }
  }

  lemma FirstPass(p: Point)
    ensures var d := Touch(DOWN, p, At(0));
            && Enabled(START, d) && Beating(Apply(START, d))
            && Apply(START, d).now == 0 && |Draws(Apply(START, d))| == 1
  {
    assert Draws(Apply(START, Touch(DOWN, p, At(0)))) == [Pass(0, 0, [p], [p], 0, 0)];
  }

  lemma LateBeat(w: World, n: nat)
    requires Inv(w) && Beating(w) && n > 0 && Wraps(n) && |Draws(w)| == n + 1
    requires Draws(w)[n - 1].frame == w.now - FRAME_DELAY
    ensures !NoTimeLost(Draws(w)) && w.canvas.frameCount > 0
  {
  }

  /** A stroke held until the counter has wrapped at `n`: time is missing from its total frame time. */
  lemma TimeLostAtAWrap(p: Point, n: nat) returns (events: seq<Event>)
    requires n > 0 && Wraps(n)
    ensures Feasible(START, events) && |Draws(Continue(START, events))| == n + 1
    ensures var w := Continue(START, events);
            w.canvas.frameCount > 0 && w.canvas.totalFrame != Draws(w)[n].frame - Draws(w)[0].frame
  {
    var d := Touch(DOWN, p, At(0));
    FirstPass(p);
    var ticks, w := Beats(Apply(START, d), n);
    OneMore(START, d, Apply(START, d), ticks);
    events := [d] + ticks;
    StartInv();
    ContinueInv(START, events);
    LateBeat(w, n);
    FrameTimeIsSpan(events);
  }

  // ----- the canvas itself -----

  class SkiaCanvas {
    var path: seq<Point>
    var needRedraw: bool
    var isDrawing: bool
    var frameCount: nat
    var lastFrame: int
    var totalFrame: int
    var totalPaint: int
    var totalSwap: int
    var touchCount: nat
    var touchStart: int
    var totalTouch: int
    var pending: seq<int>
    var passes: seq<Pass>
    var reports: seq<Report>

    function Value(): Canvas
      reads this
    {
      Canvas(path, needRedraw, isDrawing, frameCount, lastFrame, totalFrame, totalPaint, totalSwap,
             touchCount, touchStart, totalTouch, pending, passes, reports)
    }

    constructor ()
      ensures Value() == BLANK
    {
      path, needRedraw, isDrawing := [], false, false;
      frameCount, lastFrame, totalFrame, totalPaint, totalSwap := 0, 0, 0, 0, 0;
      touchCount, touchStart, totalTouch := 0, 0, 0;
      pending, passes, reports := [], [], [];
    }

    /** The loop over the path's points that draws a circle at each. */
    method DrawCircles() returns (circles: seq<Point>)
      ensures circles == path
    {
      circles := [];
      for i := 0 to |path|
        invariant circles == path[..i]
      {
        circles := circles + [path[i]];
      }
    }

    method CountFrame(now: int)
      modifies `totalFrame, `frameCount, `lastFrame
      ensures totalFrame == old(totalFrame) + if old(frameCount) > 0 then now - old(lastFrame) else 0
      ensures frameCount == Increment(old(frameCount)) && lastFrame == now
    {
      if frameCount > 0 {
        totalFrame := totalFrame + (now - lastFrame);
      }
      frameCount := Increment(frameCount);
      lastFrame := now;
    }

    method PaintAndSwap(k: Clock)
      modifies `passes, `totalPaint, `totalSwap
      ensures passes == old(passes) + [Pass(k.post, k.frame, path, path, k.paintEnd - k.paintStart, k.swapEnd - k.swapStart)]
      ensures totalPaint == old(totalPaint) + (k.paintEnd - k.paintStart)
      ensures totalSwap == old(totalSwap) + (k.swapEnd - k.swapStart)
    {
      var circles := DrawCircles();
      passes := passes + [Pass(k.post, k.frame, path, circles, k.paintEnd - k.paintStart, k.swapEnd - k.swapStart)];
      totalPaint := totalPaint + (k.paintEnd - k.paintStart);
      totalSwap := totalSwap + (k.swapEnd - k.swapStart);
    }

    method OnRenderOnRenderThread(k: Clock)
      modifies this
      ensures Value() == Render(old(Value()), k)
    {
      if !needRedraw {
        isDrawing := false;
        frameCount := 0;
        return;
      }
      isDrawing := true;
      pending := pending + [k.post + FRAME_DELAY];
      CountFrame(k.frame);
      PaintAndSwap(k);
    }

    /** Both callers run on the render thread; off it, the task would be posted without delay. */
    method SetNeedsRedraw(need: bool, onRenderThread: bool, k: Clock)
      modifies this
      ensures onRenderThread ==> Value() == SetRedraw(old(Value()), need, k)
      ensures !onRenderThread ==>
                Value() == old(Value()).(needRedraw := need,
                                         pending := old(pending) + if need && !old(isDrawing) then [k.post] else [])
    {
      needRedraw := need;
      if need && !isDrawing {
        if onRenderThread {
          OnRenderOnRenderThread(k);
        } else {
          pending := pending + [k.post];
        }
      }
    }

    method ShowFrameRateOnRenderThread() returns (info: Info)
      modifies `reports
      ensures reports == old(reports) + [ReportOf(old(Value()))] && info == InfoOf(ReportOf(old(Value())))
      ensures info.frame.None? <==> old(frameCount) == 0
      ensures info.touch.None? <==> old(touchCount) == 0
      ensures frameCount > 0 ==>
                && info.frame == Some(Quotient(totalFrame, 1000 * frameCount))
                && info.paint == Some(Quotient(totalPaint, 1000 * frameCount))
                && info.swap == Some(Quotient(totalSwap, 1000 * frameCount))
      ensures touchCount > 0 ==> info.touch == Some(Quotient(totalTouch, 1000 * touchCount))
    {
      reports := reports + [Report(totalFrame, totalPaint, totalSwap, frameCount, totalTouch, touchCount)];
      info := Info(Average(totalFrame, frameCount), Average(totalPaint, frameCount), Average(totalSwap, frameCount),
                   Average(totalTouch, touchCount));
      AverageRoundsOnce(totalFrame, frameCount);
      AverageRoundsOnce(totalPaint, frameCount);
      AverageRoundsOnce(totalSwap, frameCount);
      AverageRoundsOnce(totalTouch, touchCount);
    }

    method ClearFrameTotals()
      modifies `frameCount, `lastFrame, `totalFrame, `totalPaint, `totalSwap
      ensures frameCount == lastFrame == totalFrame == totalPaint == totalSwap == 0
    {
      frameCount, lastFrame, totalFrame, totalPaint, totalSwap := 0, 0, 0, 0, 0;
    }

    method Rewind(p: Point, touch: int)
      modifies `path, `frameCount, `lastFrame, `totalFrame, `totalPaint, `totalSwap, `touchCount, `touchStart, `totalTouch
      ensures Value() == Rewound(old(Value()), p, touch)
    {
      path := [p];
      ClearFrameTotals();
      touchCount, touchStart, totalTouch := 1, touch, 0;
    }

    method OnTouchOnRenderThread(action: int, p: Point, k: Clock)
      modifies this
      ensures Value() == Touched(old(Value()), action, p, k)
    {
      if action == DOWN {
        Rewind(p, k.touch);
        SetNeedsRedraw(true, true, k);
      } else if action == MOVE || action == UP {
        path := LineTo(path, p);
        totalTouch := k.touch - touchStart;
        touchCount := Increment(touchCount);
        if action == UP {
          SetNeedsRedraw(false, true, k);
          var info := ShowFrameRateOnRenderThread();
        }
      }
    }
  }
}
