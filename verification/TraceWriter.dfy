/** The trace writer of the Android canvas: positional writes at a running offset, a re-entrancy
    flag, and a callback that receives the trace in chunks.

    A write's outcome is an input: -1 for failure, otherwise the number of leading bytes that
    reached the file. A write at a negative offset always fails.

    Every canvas has a render thread of its own on which it flushes the trace, so FlushTrace is two steps: a thread
    finds the flag clear, and later raises it and starts its flush. A flush calls back on the thread that started it.
 */
module TraceWriter {

  type Bytes = string

  function Zeros(n: nat): Bytes { seq(n, i => '\0') }

  /** base::File::Write at a position, of which `n` bytes are taken. */
  function Overwrite(file: Bytes, offset: nat, data: Bytes): Bytes {
    var padded := if offset <= |file| then file else file + Zeros(offset - |file|);
    if offset + |data| <= |padded| then padded[..offset] + data + padded[offset + |data|..]
    else padded[..offset] + data
  }

  /** `entered` are the threads that have found the flag clear and not yet gone on, `flushes` the threads of the
      flushes in progress. `log` is what an append-only writer would have written; `allFull` says that every write so
      far took all its bytes. These are not read by the code; they are what it is compared with. */
  datatype Trace = Trace(
    file: Bytes, offset: int, flushing: bool, enabled: bool, started: bool,
    entered: set<nat>, flushes: multiset<nat>, log: Bytes, allFull: bool)

  const BEFORE := Trace("", 0, false, false, false, {}, multiset{}, "", true)

  predicate Outcome(t: Trace, data: Bytes, n: int) {
    -1 <= n <= |data| && (t.offset < 0 ==> n == -1)
  }

  function Write(t: Trace, data: Bytes, n: int): Trace
    requires Outcome(t, data, n)
  {
    t.(file := if n < 0 then t.file else Overwrite(t.file, t.offset, data[..n]),
       offset := t.offset + n,
       log := t.log + data,
       allFull := t.allFull && n == |data|)
  }

  datatype Event =
    | DemoMain(n: int)
    | Check(thread: nat)
    | Begin(thread: nat)
    | Chunk(thread: nat, data: Bytes, more: bool, n1: int, n2: int, n3: int)

  const SEPARATOR: Bytes := ",\n"

  function Chunked(t: Trace, e: Event): Trace
    requires e.Chunk? && Outcome(t, e.data, e.n1) && Outcome(Write(t, e.data, e.n1), SEPARATOR, e.n2)
  {
    Write(Write(t, e.data, e.n1), SEPARATOR, e.n2)
  }

  /** DemoMain runs once, first; a thread between its two steps does nothing else; a flush in progress calls back. */
  predicate Enabled(t: Trace, e: Event) {
    match e
    case DemoMain(n) => !t.started && Outcome(t, "[", n)
    case Check(th) => t.started && th !in t.entered
    case Begin(th) => th in t.entered
    case Chunk(th, data, more, n1, n2, n3) =>
      && th in t.flushes && th !in t.entered
      && Outcome(t, data, n1) && Outcome(Write(t, data, n1), SEPARATOR, n2)
      && (!more ==> Outcome(Chunked(t, e), "\n", n3))
  }

  function Apply(t: Trace, e: Event): Trace
    requires Enabled(t, e)
  {
    match e
    case DemoMain(n) => Write(t, "[", n).(started := true, enabled := true)
    case Check(th) => if t.flushing then t else t.(entered := t.entered + {th})
    case Begin(th) =>
      t.(entered := t.entered - {th}, flushing := true, enabled := false, flushes := t.flushes + multiset{th})
    case Chunk(th, _, more, _, _, n3) =>
      if more then Chunked(t, e)
      else Write(Chunked(t, e), "\n", n3).(enabled := true, flushing := false, flushes := t.flushes - multiset{th})
  }

  ghost predicate Feasible(events: seq<Event>)
    decreases |events|, 0
  {
    events != [] ==>
      && Feasible(events[..|events| - 1])
      && Enabled(Exec(events[..|events| - 1]), events[|events| - 1])
  }

  ghost function Exec(events: seq<Event>): Trace
    requires Feasible(events)
    decreases |events|, 1
  {
    if events == [] then BEFORE
    else Apply(Exec(events[..|events| - 1]), events[|events| - 1])
  }

  // ----- one write -----

  /** While every write was full, the offset is the file's length and the file is the log.
      Otherwise the offset has fallen behind the log for good. */
  predicate Tracks(t: Trace) {
    && t.offset <= |t.file| <= |t.log|
    && (t.allFull ==> t.file == t.log && t.offset == |t.file|)
    && (!t.allFull ==> t.offset < |t.log|)
  }

  lemma OverwriteLength(file: Bytes, offset: nat, data: Bytes)
    ensures |Overwrite(file, offset, data)| == if offset + |data| <= |file| then |file| else offset + |data|
    ensures offset == |file| ==> Overwrite(file, offset, data) == file + data
  {
  }

  lemma WriteTracks(t: Trace, data: Bytes, n: int)
    requires Tracks(t) && Outcome(t, data, n)
    ensures Tracks(Write(t, data, n))
    ensures data != [] && !Write(t, data, n).allFull ==> |Write(t, data, n).file| < |Write(t, data, n).log|
  {
    if n >= 0 {
      OverwriteLength(t.file, t.offset, data[..n]);
      assert n == |data| ==> data[..n] == data;
    }
  }

  ghost predicate Inv(t: Trace) {
    && Tracks(t)
    && (t.enabled <==> t.started && !t.flushing)
    && (t.flushing || t.entered != {} || t.flushes != multiset{} ==> t.started)
    && (!t.allFull ==> |t.file| < |t.log|)
  }

  lemma StepInv(t: Trace, e: Event)
    requires Inv(t) && Enabled(t, e)
    ensures Inv(Apply(t, e))
  {
    match e
    case DemoMain(n) => WriteTracks(t, "[", n);
    case Check(_) =>
    case Begin(_) =>
    case Chunk(_, data, more, n1, n2, n3) =>
      WriteTracks(t, data, n1);
      WriteTracks(Write(t, data, n1), SEPARATOR, n2);
      if !more {
        WriteTracks(Chunked(t, e), "\n", n3);
      }
  }

  lemma {:induction false} RunInv(events: seq<Event>)
    requires Feasible(events)
    ensures Inv(Exec(events))
  {
    if events != [] {
      RunInv(events[..|events| - 1]);
      StepInv(Exec(events[..|events| - 1]), events[|events| - 1]);
    }
  }

  // ----- what a run leaves in the file -----

  /** The text of an append-only log of the run: "[", then every chunk ended by ",\n", and one more
      "\n" at the end of each finished flush. */
  function Written(e: Event): Bytes {
    match e
    case DemoMain(_) => "["
    case Chunk(_, data, more, _, _, _) => data + ",\n" + if more then "" else "\n"
    case _ => ""
  }

  function LogOf(events: seq<Event>): Bytes {
    if events == [] then "" else LogOf(events[..|events| - 1]) + Written(events[|events| - 1])
  }

  predicate EventFull(e: Event) {
    match e
    case DemoMain(n) => n == 1
    case Chunk(_, data, more, n1, n2, n3) => n1 == |data| && n2 == 2 && (!more ==> n3 == 1)
    case _ => true
  }

  predicate AllFull(events: seq<Event>) {
    events != [] ==> AllFull(events[..|events| - 1]) && EventFull(events[|events| - 1])
  }

  lemma StepLog(t: Trace, e: Event)
    requires Enabled(t, e)
    ensures Apply(t, e).log == t.log + Written(e)
    ensures Apply(t, e).allFull <==> t.allFull && EventFull(e)
  {
    if e.Chunk? {
      assert t.log + e.data + SEPARATOR == t.log + (e.data + ",\n");
      if e.more {
        assert e.data + ",\n" + "" == e.data + ",\n";
      } else {
        assert t.log + e.data + SEPARATOR + "\n" == t.log + (e.data + ",\n" + "\n");
      }
    }
  }

  lemma {:induction false} LogOfRun(events: seq<Event>)
    requires Feasible(events)
    ensures Exec(events).log == LogOf(events)
  {
    if events != [] {
      var before, e := events[..|events| - 1], events[|events| - 1];
      LogOfRun(before);
      StepLog(Exec(before), e);
    }
  }

  lemma {:induction false} OutcomesOfRun(events: seq<Event>)
    requires Feasible(events)
    ensures Exec(events).allFull <==> AllFull(events)
  {
    if events != [] {
      var before, e := events[..|events| - 1], events[|events| - 1];
      OutcomesOfRun(before);
      StepLog(Exec(before), e);
    }
  }

  /** At every step boundary of every run the file is the append-only log exactly when every write
      took all its bytes; then the running offset is the file's length. */
  lemma {:induction false} FileIsLog(events: seq<Event>)
    requires Feasible(events)
    ensures Exec(events).file == LogOf(events) <==> AllFull(events)
    ensures AllFull(events) ==> Exec(events).offset == |LogOf(events)|
  {
    RunInv(events);
    LogOfRun(events);
    OutcomesOfRun(events);
  }

  // ----- tracing and flushing -----

  /** Tracing is off exactly while the flag is up. */
  lemma {:induction false} DisabledIffFlagged(events: seq<Event>)
    requires Feasible(events) && Exec(events).started
    ensures Exec(events).enabled <==> !Exec(events).flushing
  {
    RunInv(events);
  }

  predicate Ends(e: Event) { e.Chunk? && !e.more }

  /** Flushes begun and not ended. */
  function InProgress(events: seq<Event>): int {
    if events == [] then 0
    else
      var e := events[|events| - 1];
      InProgress(events[..|events| - 1]) + if e.Begin? then 1 else if Ends(e) then -1 else 0
  }

  /** A flush ended while another was in progress, and none has begun since. */
  predicate Overtaken(events: seq<Event>) {
    events != [] &&
    var before, e := events[..|events| - 1], events[|events| - 1];
    if e.Begin? then false else if Ends(e) then InProgress(before) > 1 else Overtaken(before)
  }

  ghost predicate Counted(events: seq<Event>, t: Trace) {
    && |t.flushes| == InProgress(events)
    && (t.flushing ==> |t.flushes| > 0)
    && (!t.flushing && |t.flushes| > 0 <==> Overtaken(events))
  }

  lemma CountStep(before: seq<Event>, t: Trace, e: Event)
    requires Enabled(t, e) && Counted(before, t)
    ensures Counted(before + [e], Apply(t, e))
  {
    assert (before + [e])[..|before|] == before;
  }

  lemma {:induction false} CountRun(events: seq<Event>)
    requires Feasible(events)
    ensures Counted(events, Exec(events))
  {
    if events != [] {
      var before, e := events[..|events| - 1], events[|events| - 1];
      CountRun(before);
      CountStep(before, Exec(before), e);
      assert events == before + [e];
    }
  }

  /** Tracing is off exactly while a flush is in progress, unless a flush has been overtaken. */
  lemma {:induction false} DisabledIffInProgress(events: seq<Event>)
    requires Feasible(events) && Exec(events).started
    ensures (Exec(events).enabled <==> InProgress(events) == 0) <==> !Overtaken(events)
  {
    RunInv(events);
    CountRun(events);
  }

  /** With one canvas, all of it happens on one thread. */
  predicate OneCanvas(events: seq<Event>, th: nat) {
    forall e :: e in events ==> e.DemoMain? || e.thread == th
  }

  ghost predicate Alone(t: Trace, th: nat) {
    && t.entered <= {th}
    && t.flushes == (if t.flushing then multiset{th} else multiset{})
    && (t.entered != {} ==> !t.flushing)
  }

  lemma AloneStep(t: Trace, th: nat, e: Event)
    requires Alone(t, th) && Enabled(t, e) && (e.DemoMain? || e.thread == th)
    ensures Alone(Apply(t, e), th)
  {
  }

  lemma {:induction false} AloneRun(events: seq<Event>, th: nat)
    requires Feasible(events) && OneCanvas(events, th)
    ensures Alone(Exec(events), th)
  {
    if events != [] {
      var before, e := events[..|events| - 1], events[|events| - 1];
      AloneRun(before, th);
      assert e in events;
      AloneStep(Exec(before), th, e);
    }
  }

  /** With one canvas at most one flush is in progress, none is overtaken, and tracing is off exactly while one is. */
  lemma {:induction false} OneFlushAtATime(events: seq<Event>, th: nat)
    requires Feasible(events) && OneCanvas(events, th) && Exec(events).started
    ensures 0 <= InProgress(events) <= 1 && !Overtaken(events)
    ensures Exec(events).enabled <==> InProgress(events) == 0
  {
    RunInv(events);
    CountRun(events);
    AloneRun(events, th);
  }

  lemma Extend(events: seq<Event>, e: Event, t: Trace)
    requires Feasible(events) && Exec(events) == t && Enabled(t, e)
    ensures Feasible(events + [e]) && Exec(events + [e]) == Apply(t, e)
  {
    assert (events + [e])[..|events|] == events;
  }

  /** DemoMain with its bracket written. */
  lemma Opened() returns (t: Trace)
    ensures Feasible([DemoMain(1)]) && Exec([DemoMain(1)]) == t
    ensures t == Trace("[", 1, false, true, true, {}, multiset{}, "[", true)
  {
    assert "["[..1] == "[";
    assert Overwrite("", 0, "[") == "[";
    Extend([], DemoMain(1), BEFORE);
    assert [] + [DemoMain(1)] == [DemoMain(1)];
    t := Apply(BEFORE, DemoMain(1));
  }

  /** Two canvases both find the flag clear; the first flush to end turns tracing on while the other is in progress. */
  lemma TwoCanvasesOverlap(a: nat, b: nat)
    requires a != b
    ensures var events := [DemoMain(1)] + [Check(a)] + [Check(b)] + [Begin(a)] + [Begin(b)] + [Chunk(a, "", false, 0, 2, 1)];
            Feasible(events) && Exec(events).enabled && Exec(events).flushes == multiset{b}
  {
    var t0 := Opened();
    var r1 := [DemoMain(1)] + [Check(a)];
    Extend([DemoMain(1)], Check(a), t0);
    var t1 := t0.(entered := {a});
    Extend(r1, Check(b), t1);
    var t2 := t0.(entered := {a, b});
    Extend(r1 + [Check(b)], Begin(a), t2);
    var t3 := t0.(entered := {b}, flushing := true, enabled := false, flushes := multiset{a});
    Extend(r1 + [Check(b)] + [Begin(a)], Begin(b), t3);
    var t4 := t3.(entered := {}, flushes := multiset{a, b});
    Extend(r1 + [Check(b)] + [Begin(a)] + [Begin(b)], Chunk(a, "", false, 0, 2, 1), t4);
  }

  /** A full write after full writes only appends, so no write overlaps another. */
  lemma FullWritesAppend(t: Trace, data: Bytes)
    requires Tracks(t) && t.allFull
    ensures Outcome(t, data, |data|) && Write(t, data, |data|).file == t.file + data
  {
    OverwriteLength(t.file, t.offset, data);
    assert data[..|data|] == data;
  }

  /** One failed write moves the offset back into the file, and the next write destroys a byte. */
  lemma FailedWriteCorrupts(th: nat)
    ensures var events := [DemoMain(1)] + [Check(th)] + [Begin(th)] + [Chunk(th, "a", true, -1, 2, 0)];
            Feasible(events) && Exec(events).file == ",\n"
  {
    var t0 := Opened();
    Extend([DemoMain(1)], Check(th), t0);
    var t1 := t0.(entered := {th});
    Extend([DemoMain(1)] + [Check(th)], Begin(th), t1);
    var t2 := t0.(flushing := true, enabled := false, flushes := multiset{th});
    var t3 := Write(t2, "a", -1);
    assert t3.offset == 0 && t3.file == "[";
    assert SEPARATOR[..2] == SEPARATOR;
    assert Overwrite("[", 0, SEPARATOR) == SEPARATOR;
    Extend([DemoMain(1)] + [Check(th)] + [Begin(th)], Chunk(th, "a", true, -1, 2, 0), t2);
  }

  // ----- the writer itself -----

  class Writer {
    var file: Bytes
    var offset: int
    var flushing: bool
    var enabled: bool
    var started: bool
    ghost var entered: set<nat>
    ghost var flushes: multiset<nat>
    ghost var log: Bytes
    ghost var allFull: bool

    ghost function Value(): Trace
      reads this
    {
      Trace(file, offset, flushing, enabled, started, entered, flushes, log, allFull)
    }

    constructor ()
      ensures Value() == BEFORE
    {
      file, offset, flushing, enabled, started := "", 0, false, false, false;
      entered, flushes, log, allFull := {}, multiset{}, "", true;
    }

    /** `g_write_offset += g_trace_file->Write(g_write_offset, data)` */
    method WriteAtOffset(data: Bytes, n: int)
      requires Outcome(Value(), data, n)
      modifies this
      ensures Value() == Write(old(Value()), data, n)
    {
      if n >= 0 {
        file := Overwrite(file, offset, data[..n]);
      }
      offset := offset + n;
      log := log + data;
      allFull := allFull && n == |data|;
    }

    method StartTrace()
      modifies `enabled
      ensures enabled
    {
      enabled := true;
    }

    method Open(n: int)
      requires Enabled(Value(), DemoMain(n))
      modifies this
      ensures Value() == Apply(old(Value()), DemoMain(n))
    {
      WriteAtOffset("[", n);
      started := true;
      StartTrace();
    }

    method CheckFlag(thread: nat) returns (go: bool)
      requires Enabled(Value(), Check(thread))
      modifies `entered
      ensures Value() == Apply(old(Value()), Check(thread)) && go == !flushing && (go <==> thread in entered)
    {
      go := !flushing;
      if go {
        entered := entered + {thread};
      }
    }

    method BeginFlush(thread: nat)
      requires Enabled(Value(), Begin(thread))
      modifies `entered, `flushing, `enabled, `flushes
      ensures Value() == Apply(old(Value()), Begin(thread))
    {
      entered := entered - {thread};
      flushing := true;
      enabled := false;
      flushes := flushes + multiset{thread};
    }

    /** FlushTrace when no other thread comes in between. */
    method Flush(thread: nat)
      requires Enabled(Value(), Check(thread))
      modifies `entered, `flushing, `enabled, `flushes
      ensures var checked := Apply(old(Value()), Check(thread));
              Value() == if old(flushing) then checked else Apply(checked, Begin(thread))
    {
      var go := CheckFlag(thread);
      if go {
        BeginFlush(thread);
      }
    }

    method OnChunk(thread: nat, data: Bytes, hasMoreEvents: bool, n1: int, n2: int, n3: int)
      requires Enabled(Value(), Chunk(thread, data, hasMoreEvents, n1, n2, n3))
      modifies this
      ensures Value() == Apply(old(Value()), Chunk(thread, data, hasMoreEvents, n1, n2, n3))
    {
      WriteAtOffset(data, n1);
      WriteAtOffset(SEPARATOR, n2);
      if !hasMoreEvents {
        StartTrace();
        WriteAtOffset("\n", n3);
        flushing := false;
        flushes := flushes - multiset{thread};
      }
    }
  }
}
