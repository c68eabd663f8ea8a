/** How demo_viz_layer starts: six threads, no locks, and pointers that are set on one thread and used
    on another, with only the order of posted tasks to keep the uses after the sets.

    A thread runs its tasks in the order they were posted, each to its end, so it is the sequence of
    instructions it has still to run; posting a task appends its instructions. In a run the threads'
    instructions interleave freely, and mouse events, begin-frames, the associated-interface
    request and the reply to EstablishGpuChannel arrive whenever they can.
 */
module Startup {

  datatype Thread = UI | HostIO | GpuIO | GpuMain | RootThread | InkThread

  /** What must be in place before it is used: pointers, bound receivers, and the end of a client's bind task.
      `Launched` records that InitVizHost was posted, `HandedOver` that OnEstablishedOnMain has run to its end. */
  datatype Flag =
    | RootClient | ChildClient | Observing | HostRunner | Launched
    | ServerChannel | ClientChannel | ChannelReady | VizMain | VizMainBound | GpuHost | GpuChannelHost
    | RootReceiver | RootReady | InkReceiver | InkReady
    | HandedOver | RootContext | InkContext

  datatype Task =
    | InitializeDemo
    | InitIPCServer | InitIPCClient | InitVizMain | InitVizHost
    | ForwardRequest | BindVizMain
    | OnEstablishedOnIO(valid: bool) | OnEstablishedOnMain(valid: bool)
    | BindRoot | SetRootContext | RootBeginFrame
    | BindInk | SetInkContext | InkBeginFrame | InkDraw
    | MouseMoved

  datatype Instr =
    | Set(flag: Flag)
    | Use(flag: Flag)
    | Post(to: Thread, task: Task)
    | RequestVizMain
    | EstablishGpuChannel
    | DispatchMouse

  /** Each client gets its context provider, on its own thread. */
  const HANDOVER := [Use(RootClient), Post(RootThread, SetRootContext), Use(ChildClient), Post(InkThread, SetInkContext),
                     Set(HandedOver)]

  /** The accesses and posts of each task, in program order. */
  function Code(task: Task): seq<Instr> {
    match task
    case InitializeDemo =>
      [Set(RootClient), Use(RootClient), Post(RootThread, BindRoot), Use(RootClient),
       Set(ChildClient), Use(ChildClient), Set(Observing), Post(InkThread, BindInk),
       Set(HostRunner), Post(HostIO, InitIPCServer), Post(GpuMain, InitVizMain), Post(HostIO, InitVizHost)]
    case InitIPCServer => [Set(ServerChannel), Post(GpuMain, InitIPCClient), Use(ServerChannel)]
    case InitIPCClient => [Set(ClientChannel), Use(ClientChannel), Set(ChannelReady)]
    case InitVizMain => [Set(VizMain), Use(VizMain)]
    case InitVizHost => [Use(ServerChannel), RequestVizMain, Set(GpuHost), Use(GpuHost), EstablishGpuChannel]
    case ForwardRequest => [Post(GpuMain, BindVizMain)]
    case BindVizMain => [Use(VizMain), Set(VizMainBound)]
    case OnEstablishedOnIO(valid) =>
      (if valid then [Set(GpuChannelHost)] else []) + [Use(HostRunner), Post(UI, OnEstablishedOnMain(valid))]
    case OnEstablishedOnMain(valid) =>
      (if valid then [Use(GpuChannelHost)] else []) + HANDOVER
    case BindRoot => [Set(RootReceiver), Set(RootReady)]
    case SetRootContext => [Use(RootReady), Set(RootContext)]
    case RootBeginFrame => [Use(RootReady)]
    case BindInk => [Set(InkReceiver), Set(InkReady)]
    case SetInkContext => [Use(InkReady), Set(InkContext)]
    case InkBeginFrame => [Use(InkReady)]
    case InkDraw => [Use(InkReady)]
    case MouseMoved => [DispatchMouse]
  }

  /** `requests` and `calls` count the associated-interface requests and EstablishGpuChannel calls under
      way; `fault` is a use of something not in place. */
  datatype Memory = Memory(flags: set<Flag>, requests: nat, calls: nat, fault: bool)

  function Execute(m: Memory, i: Instr): Memory {
    match i
    case Set(f) => m.(flags := m.flags + {f})
    case Use(f) => if f in m.flags then m else m.(fault := true)
    case Post(to, task) => if to == HostIO && task == InitVizHost then m.(flags := m.flags + {Launched}) else m
    case RequestVizMain => m.(requests := m.requests + 1)
    case EstablishGpuChannel => m.(calls := m.calls + 1)
    case DispatchMouse => m
  }

  /** The post an instruction makes, if any: a mouse event reaches the ink client once it observes. */
  function Posts(m: Memory, i: Instr): seq<(Thread, Task)> {
    match i
    case Post(to, task) => [(to, task)]
    case DispatchMouse => if Observing in m.flags then [(InkThread, InkDraw)] else []
    case _ => []
  }

  datatype Threads = Threads(
    ui: seq<Instr>, hostIO: seq<Instr>, gpuIO: seq<Instr>, gpuMain: seq<Instr>, root: seq<Instr>, ink: seq<Instr>)
  {
    function At(t: Thread): seq<Instr> {
      match t
      case UI => ui
      case HostIO => hostIO
      case GpuIO => gpuIO
      case GpuMain => gpuMain
      case RootThread => root
      case InkThread => ink
    }

    function With(t: Thread, code: seq<Instr>): Threads {
      match t
      case UI => this.(ui := code)
      case HostIO => this.(hostIO := code)
      case GpuIO => this.(gpuIO := code)
      case GpuMain => this.(gpuMain := code)
      case RootThread => this.(root := code)
      case InkThread => this.(ink := code)
    }
  }

  datatype World = World(threads: Threads, memory: Memory, started: bool)

  const START := World(Threads([], [], [], [], [], []), Memory({}, 0, 0, false), false)

  datatype Event =
    | Create
    | Run(t: Thread)
    | Mouse
    | RootTick
    | InkTick
    | DeliverRequest(direct: bool)
    | Established(valid: bool)

  /** A begin-frame needs the bound receiver; the request needs the client channel; a valid channel handle
      needs a bound VizMain. */
  predicate Enabled(w: World, e: Event) {
    match e
    case Create => !w.started
    case Run(t) => w.threads.At(t) != []
    case Mouse => true
    case RootTick => RootReceiver in w.memory.flags
    case InkTick => InkReceiver in w.memory.flags
    case DeliverRequest(_) => w.memory.requests > 0 && ChannelReady in w.memory.flags
    case Established(valid) => w.memory.calls > 0 && (valid ==> VizMainBound in w.memory.flags)
  }

  function Posted(w: World, t: Thread, task: Task): World {
    w.(threads := w.threads.With(t, w.threads.At(t) + Code(task)))
  }

  function Ran(w: World, t: Thread): World
    requires w.threads.At(t) != []
  {
    var code := w.threads.At(t);
    var w' := w.(threads := w.threads.With(t, code[1..]), memory := Execute(w.memory, code[0]));
    var posts := Posts(w.memory, code[0]);
    if posts == [] then w' else Posted(w', posts[0].0, posts[0].1)
  }

  function Apply(w: World, e: Event): World
    requires Enabled(w, e)
  {
    match e
    case Create => Posted(w.(started := true), UI, InitializeDemo)
    case Run(t) => Ran(w, t)
    case Mouse => Posted(w, UI, MouseMoved)
    case RootTick => Posted(w, RootThread, RootBeginFrame)
    case InkTick => Posted(w, InkThread, InkBeginFrame)
    case DeliverRequest(direct) =>
      var w' := w.(memory := w.memory.(requests := w.memory.requests - 1));
      if direct then Posted(w', GpuMain, BindVizMain) else Posted(w', GpuIO, ForwardRequest)
    case Established(valid) =>
      Posted(w.(memory := w.memory.(calls := w.memory.calls - 1)), HostIO, OnEstablishedOnIO(valid))
  }

  ghost predicate Feasible(w: World, events: seq<Event>)
    decreases events
  {
    events != [] ==> Enabled(w, events[0]) && Feasible(Apply(w, events[0]), events[1..])
  }

  ghost function Exec(w: World, events: seq<Event>): World
    requires Feasible(w, events)
    decreases events
  {
    if events == [] then w else Exec(Apply(w, events[0]), events[1..])
  }

  // ----- guards: what must come before what on one thread -----

  /** A guard watches one thread: an instruction that needs it comes after one that opens it,
      unless it is already open. */
  datatype Guard =
    | NeedServer | NeedRunner | NeedGpuHost | SetBeforeReport      // on host IO
    | NeedClient | NeedVizMain                                     // on gpu main
    | NeedRoot | NeedChild | NeedChannelHost                       // on the UI thread
    | RunnerFirst | ServerFirst | VizMainFirst | RootFirst | InkFirst | ObserverFirst
    | RootContextFirst | InkContextFirst
    | NeedRootReady | NeedInkReady | RootReceiverFirst | InkReceiverFirst  // on the clients' threads

  function Where(g: Guard): Thread {
    match g
    case NeedServer => HostIO
    case NeedRunner => HostIO
    case NeedGpuHost => HostIO
    case SetBeforeReport => HostIO
    case NeedClient => GpuMain
    case NeedVizMain => GpuMain
    case NeedRootReady => RootThread
    case NeedInkReady => InkThread
    case RootReceiverFirst => RootThread
    case InkReceiverFirst => InkThread
    case _ => UI
  }

  predicate Opens(g: Guard, i: Instr) {
    match g
    case NeedServer => i == Set(ServerChannel)
    case NeedRunner => false
    case NeedGpuHost => i == Set(GpuHost)
    case SetBeforeReport => i == Set(GpuChannelHost)
    case NeedClient => i == Set(ClientChannel)
    case NeedVizMain => i == Set(VizMain)
    case NeedRoot => i == Set(RootClient)
    case NeedChild => i == Set(ChildClient)
    case NeedChannelHost => false
    case RunnerFirst => i == Set(HostRunner)
    case ServerFirst => i == Post(HostIO, InitIPCServer)
    case VizMainFirst => i == Post(GpuMain, InitVizMain)
    case RootFirst => i == Post(RootThread, BindRoot)
    case InkFirst => i == Post(InkThread, BindInk)
    case ObserverFirst => i == Set(Observing)
    case RootContextFirst => i == Post(RootThread, SetRootContext)
    case InkContextFirst => i == Post(InkThread, SetInkContext)
    case NeedRootReady => i == Set(RootReady)
    case NeedInkReady => i == Set(InkReady)
    case RootReceiverFirst => i == Set(RootReceiver)
    case InkReceiverFirst => i == Set(InkReceiver)
  }

  const LAUNCH := Post(HostIO, InitVizHost)

  predicate Needs(g: Guard, i: Instr) {
    match g
    case NeedServer => i == Use(ServerChannel)
    case NeedRunner => i == Use(HostRunner)
    case NeedGpuHost => i == Use(GpuHost)
    case SetBeforeReport => i == Post(UI, OnEstablishedOnMain(true))
    case NeedClient => i == Use(ClientChannel) || i == Set(ChannelReady)
    case NeedVizMain => i == Use(VizMain)
    case NeedRoot => i == Use(RootClient) || i == LAUNCH
    case NeedChild => i == Use(ChildClient) || i == LAUNCH
    case NeedChannelHost => i == Use(GpuChannelHost)
    case RunnerFirst => i == LAUNCH
    case ServerFirst => i == LAUNCH
    case VizMainFirst => i == LAUNCH
    case RootFirst => i == LAUNCH || i == Post(RootThread, SetRootContext)
    case InkFirst => i == LAUNCH || i == Post(InkThread, SetInkContext)
    case ObserverFirst => i == LAUNCH
    case RootContextFirst => i == Set(HandedOver)
    case InkContextFirst => i == Set(HandedOver)
    case NeedRootReady => i == Use(RootReady)
    case NeedInkReady => i == Use(InkReady)
    case RootReceiverFirst => i == Set(RootReady)
    case InkReceiverFirst => i == Set(InkReady)
  }

  /** In place, or sure to be before anything posted to thread `t` from now on. */
  predicate Promised(w: World, t: Thread, f: Flag) { f in w.memory.flags || Set(f) in w.threads.At(t) }

  predicate Open(g: Guard, w: World) {
    match g
    case NeedServer => ServerChannel in w.memory.flags
    case NeedRunner => HostRunner in w.memory.flags
    case NeedGpuHost => GpuHost in w.memory.flags
    case SetBeforeReport => GpuChannelHost in w.memory.flags
    case NeedClient => ClientChannel in w.memory.flags
    case NeedVizMain => VizMain in w.memory.flags
    case NeedRoot => RootClient in w.memory.flags
    case NeedChild => ChildClient in w.memory.flags
    case NeedChannelHost => GpuChannelHost in w.memory.flags
    case RunnerFirst => HostRunner in w.memory.flags
    case ServerFirst => Promised(w, HostIO, ServerChannel)
    case VizMainFirst => Promised(w, GpuMain, VizMain)
    case RootFirst => Promised(w, RootThread, RootReady)
    case InkFirst => Promised(w, InkThread, InkReady)
    case ObserverFirst => Observing in w.memory.flags
    case RootContextFirst => Promised(w, RootThread, RootContext)
    case InkContextFirst => Promised(w, InkThread, InkContext)
    case NeedRootReady => RootReady in w.memory.flags
    case NeedInkReady => InkReady in w.memory.flags
    case RootReceiverFirst => RootReceiver in w.memory.flags
    case InkReceiverFirst => InkReceiver in w.memory.flags
  }

  predicate OpenedBefore(g: Guard, code: seq<Instr>, n: nat)
    requires n <= |code|
  {
    exists j :: 0 <= j < n && Opens(g, code[j])
  }

  predicate Opened(g: Guard, code: seq<Instr>) { OpenedBefore(g, code, |code|) }

  predicate Guarded(g: Guard, code: seq<Instr>, open: bool) {
    forall i :: 0 <= i < |code| && Needs(g, code[i]) ==> open || OpenedBefore(g, code, i)
  }

  lemma GuardedAppend(g: Guard, a: seq<Instr>, b: seq<Instr>, open: bool)
    requires Guarded(g, a, open) && Guarded(g, b, open || Opened(g, a))
    ensures Guarded(g, a + b, open)
  {
    var c := a + b;
    forall i | 0 <= i < |c| && Needs(g, c[i]) ensures open || OpenedBefore(g, c, i) {
      if !open {
        if i < |a| {
          var j :| 0 <= j < i && Opens(g, a[j]);
          assert Opens(g, c[j]);
        } else if Opened(g, a) {
          var j :| 0 <= j < |a| && Opens(g, a[j]);
          assert Opens(g, c[j]);
        } else {
          assert Needs(g, b[i - |a|]);
          var j :| 0 <= j < i - |a| && Opens(g, b[j]);
          assert Opens(g, c[|a| + j]);
        }
      }
    }
  }

  lemma GuardedPop(g: Guard, code: seq<Instr>, open: bool)
    requires code != [] && Guarded(g, code, open) && (Opens(g, code[0]) ==> open)
    ensures Guarded(g, code[1..], open)
  {
    forall i | 0 <= i < |code[1..]| && Needs(g, code[1..][i]) ensures open || OpenedBefore(g, code[1..], i) {
      if !open {
        assert Needs(g, code[i + 1]);
        var j :| 0 <= j < i + 1 && Opens(g, code[j]);
        assert Opens(g, code[1..][j - 1]);
      }
    }
  }

  // ----- the invariant -----

  /** Instructions that come only from tasks InitVizHost leads to. */
  predicate Downstream(i: Instr) {
    i == RequestVizMain || i == EstablishGpuChannel || i == Post(GpuMain, BindVizMain)
    || i == Post(UI, OnEstablishedOnMain(true)) || i == Post(UI, OnEstablishedOnMain(false))
  }

  /** Instructions with a fixed successor. */
  predicate Paired(a: Instr, b: Instr) {
    && (a == Set(RootReceiver) ==> b == Set(RootReady))
    && (a == Set(InkReceiver) ==> b == Set(InkReady))
    && (a == Set(Observing) ==> b == Post(InkThread, BindInk))
    && (a == Set(ServerChannel) ==> b == Post(GpuMain, InitIPCClient))
  }

  predicate Leads(a: Instr) {
    a == Set(RootReceiver) || a == Set(InkReceiver) || a == Set(Observing) || a == Set(ServerChannel)
  }

  predicate PairAt(code: seq<Instr>, i: nat)
    requires i < |code|
  {
    Leads(code[i]) ==> i + 1 < |code| && Paired(code[i], code[i + 1])
  }

  predicate InPairs(code: seq<Instr>) { forall i :: 0 <= i < |code| ==> PairAt(code, i) }

  /** Which instructions a thread ever has to run. */
  predicate Belongs(t: Thread, i: Instr) {
    match t
    case UI =>
      i in {Set(RootClient), Use(RootClient), Set(ChildClient), Use(ChildClient), Set(Observing), Set(HostRunner),
            Use(GpuChannelHost), DispatchMouse, LAUNCH, Post(RootThread, BindRoot), Post(InkThread, BindInk),
            Post(HostIO, InitIPCServer), Post(GpuMain, InitVizMain), Post(RootThread, SetRootContext),
            Post(InkThread, SetInkContext), Set(HandedOver)}
    case HostIO =>
      i in {Set(ServerChannel), Use(ServerChannel), Post(GpuMain, InitIPCClient), RequestVizMain, Set(GpuHost),
            Use(GpuHost), EstablishGpuChannel, Set(GpuChannelHost), Use(HostRunner),
            Post(UI, OnEstablishedOnMain(true)), Post(UI, OnEstablishedOnMain(false))}
    case GpuIO => i == Post(GpuMain, BindVizMain)
    case GpuMain =>
      i in {Set(ClientChannel), Use(ClientChannel), Set(ChannelReady), Set(VizMain), Use(VizMain), Set(VizMainBound)}
    case RootThread => i in {Set(RootReceiver), Set(RootReady), Use(RootReady), Set(RootContext)}
    case InkThread => i in {Set(InkReceiver), Set(InkReady), Use(InkReady), Set(InkContext)}
  }

  /** What holds from the post of InitVizHost on. */
  predicate LaunchedFacts(w: World) {
    && RootClient in w.memory.flags && ChildClient in w.memory.flags && Observing in w.memory.flags
    && HostRunner in w.memory.flags && Promised(w, HostIO, ServerChannel) && Promised(w, GpuMain, VizMain)
    && Promised(w, RootThread, RootReady) && Promised(w, InkThread, InkReady)
  }

  ghost predicate Calm(w: World) {
    && w.memory.requests == w.memory.calls == 0
    && forall t: Thread, i :: i in w.threads.At(t) ==> !Downstream(i)
  }

  predicate InkComing(w: World) {
    var ui := w.threads.ui;
    ui != [] && (ui[0] == Set(Observing) || ui[0] == Post(InkThread, BindInk))
  }

  /** What stands behind a flag that is set last. */
  predicate Ordered(w: World) {
    && (HandedOver in w.memory.flags ==> Promised(w, RootThread, RootContext) && Promised(w, InkThread, InkContext))
    && (ChannelReady in w.memory.flags ==> ClientChannel in w.memory.flags)
    && (RootReady in w.memory.flags ==> RootReceiver in w.memory.flags)
    && (InkReady in w.memory.flags ==> InkReceiver in w.memory.flags)
  }

  ghost predicate Inv(w: World) {
    && !w.memory.fault
    && (forall g: Guard :: Guarded(g, w.threads.At(Where(g)), Open(g, w)))
    && (if Launched in w.memory.flags then LaunchedFacts(w) else Calm(w))
    && (forall t: Thread :: InPairs(w.threads.At(t)))
    && (forall t: Thread, i :: i in w.threads.At(t) ==> Belongs(t, i))
    && (RootReceiver in w.memory.flags ==> Promised(w, RootThread, RootReady))
    && (InkReceiver in w.memory.flags ==> Promised(w, InkThread, InkReady))
    && (Observing in w.memory.flags ==> Promised(w, InkThread, InkReady) || InkComing(w))
    && Ordered(w)
  }

  // ----- posting a task -----

  ghost predicate Fits(w: World, t: Thread, task: Task) {
    var code := Code(task);
    && (forall i :: i in code ==> Belongs(t, i) && (Downstream(i) ==> Launched in w.memory.flags))
    && InPairs(code)
    && (forall g: Guard :: Where(g) == t ==> Guarded(g, code, Open(g, w) || Opened(g, w.threads.At(t))))
  }

  lemma AtWith(ts: Threads, t: Thread, code: seq<Instr>, u: Thread)
    ensures ts.With(t, code).At(u) == if u == t then code else ts.At(u)
  {
  }

  lemma InPairsAppend(a: seq<Instr>, b: seq<Instr>)
    requires InPairs(a) && InPairs(b)
    ensures InPairs(a + b)
  {
    var c := a + b;
    forall i | 0 <= i < |c| ensures PairAt(c, i) {
      assert if i < |a| then PairAt(a, i) else PairAt(b, i - |a|);
    }
  }

  lemma PostInv(w: World, t: Thread, task: Task)
    requires Inv(w) && Fits(w, t, task)
    ensures Inv(Posted(w, t, task))
  {
    var w' := Posted(w, t, task);
    var code := Code(task);
    forall u: Thread
      ensures w'.threads.At(u) == if u == t then w.threads.At(t) + code else w.threads.At(u)
      ensures InPairs(w'.threads.At(u))
      ensures forall i :: i in w'.threads.At(u) ==> Belongs(u, i) && (Downstream(i) ==> Launched in w.memory.flags)
    {
      AtWith(w.threads, t, w.threads.At(t) + code, u);
      InPairsAppend(w.threads.At(t), code);
    }
    forall g: Guard ensures Guarded(g, w'.threads.At(Where(g)), Open(g, w')) {
      assert Open(g, w) ==> Open(g, w');
      if Where(g) == t {
        GuardedAppend(g, w.threads.At(t), code, Open(g, w));
      }
    }
  }

  // ----- running an instruction: its effect, its post, its removal -----

  function Effect(w: World, t: Thread): World
    requires w.threads.At(t) != []
  {
    w.(memory := Execute(w.memory, w.threads.At(t)[0]))
  }

  function Popped(w: World, t: Thread): World
    requires w.threads.At(t) != []
  {
    w.(threads := w.threads.With(t, w.threads.At(t)[1..]))
  }

  lemma RanInThreeSteps(w: World, t: Thread)
    requires w.threads.At(t) != []
    ensures var posts := Posts(w.memory, w.threads.At(t)[0]);
            if posts == [] then Ran(w, t) == Popped(Effect(w, t), t)
            else
              var v := Posted(Effect(w, t), posts[0].0, posts[0].1);
              v.threads.At(t) != [] && Ran(w, t) == Popped(v, t)
  {
    var code := w.threads.At(t);
    var posts := Posts(w.memory, code[0]);
    if posts != [] {
      var (to, task) := posts[0];
      assert to == t ==> (code + Code(task))[1..] == code[1..] + Code(task);
    }
  }

  lemma GuardOf(w: World, t: Thread, g: Guard)
    requires Inv(w) && w.threads.At(t) != [] && Where(g) == t && Needs(g, w.threads.At(t)[0])
    ensures Open(g, w)
  {
    assert Guarded(g, w.threads.At(t), Open(g, w));
    assert !OpenedBefore(g, w.threads.At(t), 0);
  }

  /** No use faults: the guard of its thread is open. */
  lemma UseInPlace(w: World, t: Thread)
    requires Inv(w) && w.threads.At(t) != [] && w.threads.At(t)[0].Use?
    ensures w.threads.At(t)[0].flag in w.memory.flags
  {
    var i := w.threads.At(t)[0];
    assert Belongs(t, i);
    match t
    case UI => GuardOf(w, t, if i == Use(RootClient) then NeedRoot else if i == Use(ChildClient) then NeedChild else NeedChannelHost);
    case HostIO => GuardOf(w, t, if i == Use(ServerChannel) then NeedServer else if i == Use(GpuHost) then NeedGpuHost else NeedRunner);
    case GpuMain => GuardOf(w, t, if i == Use(ClientChannel) then NeedClient else NeedVizMain);
    case RootThread => GuardOf(w, t, NeedRootReady);
    case InkThread => GuardOf(w, t, NeedInkReady);
  }

  lemma LaunchFlags(w: World)
    requires Inv(w) && w.threads.ui != [] && w.threads.ui[0] == LAUNCH
    ensures {RootClient, ChildClient, Observing, HostRunner} <= w.memory.flags
  {
    GuardOf(w, UI, NeedRoot);
    GuardOf(w, UI, NeedChild);
    GuardOf(w, UI, ObserverFirst);
    GuardOf(w, UI, RunnerFirst);
  }

  /** InitVizHost is posted only when everything it leads to is in place or promised. */
  lemma LaunchReady(w: World)
    requires Inv(w) && w.threads.ui != [] && w.threads.ui[0] == LAUNCH
    ensures LaunchedFacts(w)
  {
    LaunchFlags(w);
    GuardOf(w, UI, ServerFirst);
    GuardOf(w, UI, VizMainFirst);
    GuardOf(w, UI, RootFirst);
    GuardOf(w, UI, InkFirst);
  }

  lemma StillGuarded(w: World, v: World, g: Guard)
    requires Inv(w) && v.threads == w.threads && w.memory.flags <= v.memory.flags
    ensures Guarded(g, v.threads.At(Where(g)), Open(g, v))
  {
    assert Guarded(g, w.threads.At(Where(g)), Open(g, w));
    assert Open(g, w) ==> Open(g, v);
  }

  lemma EffectLaunches(w: World, t: Thread)
    requires Inv(w) && w.threads.At(t) != []
    ensures var v := Effect(w, t); if Launched in v.memory.flags then LaunchedFacts(v) else Calm(v)
  {
    var i := w.threads.At(t)[0];
    assert i in w.threads.At(t) && Belongs(t, i);
    assert Launched !in w.memory.flags ==> !Downstream(i);
    if i == LAUNCH {
      LaunchReady(w);
    }
  }

  lemma StillPromised(w: World, v: World, u: Thread, f: Flag)
    requires v.threads == w.threads && w.memory.flags <= v.memory.flags && Promised(w, u, f)
    ensures Promised(v, u, f)
  {
  }

  lemma ContextsPromised(w: World, t: Thread)
    requires Inv(w) && w.threads.At(t) != [] && HandedOver in Effect(w, t).memory.flags
    ensures Promised(w, RootThread, RootContext) && Promised(w, InkThread, InkContext)
  {
    var i := w.threads.At(t)[0];
    assert i in w.threads.At(t) && Belongs(t, i);
    if i == Set(HandedOver) {
      GuardOf(w, UI, RootContextFirst);
      GuardOf(w, UI, InkContextFirst);
    }
  }

  lemma ReceiversBound(w: World, t: Thread)
    requires Inv(w) && w.threads.At(t) != []
    ensures var flags := Effect(w, t).memory.flags;
            (RootReady in flags ==> RootReceiver in flags) && (InkReady in flags ==> InkReceiver in flags)
            && (ChannelReady in flags ==> ClientChannel in flags)
  {
    var i := w.threads.At(t)[0];
    assert i in w.threads.At(t) && Belongs(t, i);
    if i == Set(RootReady) {
      GuardOf(w, RootThread, RootReceiverFirst);
    } else if i == Set(InkReady) {
      GuardOf(w, InkThread, InkReceiverFirst);
    } else if i == Set(ChannelReady) {
      GuardOf(w, GpuMain, NeedClient);
    }
  }

  lemma EffectOrdered(w: World, t: Thread)
    requires Inv(w) && w.threads.At(t) != []
    ensures Ordered(Effect(w, t))
  {
    ReceiversBound(w, t);
    if HandedOver in Effect(w, t).memory.flags {
      ContextsPromised(w, t);
      StillPromised(w, Effect(w, t), RootThread, RootContext);
      StillPromised(w, Effect(w, t), InkThread, InkContext);
    }
  }

  /** A flag with a fixed successor leaves the successor to come. */
  lemma EffectLeads(w: World, t: Thread)
    requires Inv(w) && w.threads.At(t) != []
    ensures var v := Effect(w, t);
            && (RootReceiver in v.memory.flags ==> Promised(v, RootThread, RootReady))
            && (InkReceiver in v.memory.flags ==> Promised(v, InkThread, InkReady))
            && (Observing in v.memory.flags ==> Promised(v, InkThread, InkReady) || InkComing(v))
  {
    var code := w.threads.At(t);
    assert code[0] in code && Belongs(t, code[0]);
    assert PairAt(code, 0) && (Leads(code[0]) ==> code[1] in code);
  }

  lemma EffectInv(w: World, t: Thread)
    requires Inv(w) && w.threads.At(t) != []
    ensures Inv(Effect(w, t))
  {
    if w.threads.At(t)[0].Use? {
      UseInPlace(w, t);
    }
    EffectLaunches(w, t);
    EffectOrdered(w, t);
    EffectLeads(w, t);
    forall g: Guard ensures Guarded(g, w.threads.At(Where(g)), Open(g, Effect(w, t))) {
      StillGuarded(w, Effect(w, t), g);
    }
  }

  lemma InkStaysComing(w: World, t: Thread)
    requires Inv(w) && w.threads.At(t) != [] && Observing in w.memory.flags
    requires Opens(InkFirst, w.threads.At(t)[0]) && t == UI ==> Open(InkFirst, w)
    ensures Promised(w, InkThread, InkReady) || InkComing(Popped(w, t))
  {
    assert t == UI ==> PairAt(w.threads.ui, 0);
  }

  lemma PopInv(w: World, t: Thread)
    requires Inv(w) && w.threads.At(t) != []
    requires w.threads.At(t)[0].Set? ==> w.threads.At(t)[0].flag in w.memory.flags
    requires forall g: Guard :: Where(g) == t && Opens(g, w.threads.At(t)[0]) ==> Open(g, w)
    ensures Inv(Popped(w, t))
  {
    var code := w.threads.At(t);
    var w' := Popped(w, t);
    forall u: Thread
      ensures w'.threads.At(u) == if u == t then code[1..] else w.threads.At(u)
      ensures InPairs(w'.threads.At(u))
      ensures forall i :: i in w'.threads.At(u) ==> i in w.threads.At(u)
    {
      AtWith(w.threads, t, code[1..], u);
      assert InPairs(w.threads.At(u));
      forall k | 0 <= k < |code[1..]| ensures PairAt(code[1..], k) {
        assert PairAt(code, k + 1);
      }
    }
    forall u: Thread, f | Promised(w, u, f) ensures Promised(w', u, f) {
      if f !in w.memory.flags {
        assert Set(f) in w.threads.At(u);
        assert u == t ==> Set(f) != code[0];
      }
    }
    forall g: Guard ensures Guarded(g, w'.threads.At(Where(g)), Open(g, w')) {
      assert Guarded(g, w.threads.At(Where(g)), Open(g, w));
      assert Open(g, w) ==> Open(g, w');
      if Where(g) == t {
        GuardedPop(g, code, Open(g, w));
      }
    }
    if Observing in w.memory.flags {
      InkStaysComing(w, t);
    }
  }

  // ----- every post fits -----

  lemma MouseFits(w: World)
    ensures Fits(w, UI, MouseMoved)
  {
    assert Code(MouseMoved) == [DispatchMouse];
  }

  lemma ForwardFits(w: World)
    requires Launched in w.memory.flags
    ensures Fits(w, GpuIO, ForwardRequest)
  {
    assert Code(ForwardRequest) == [Post(GpuMain, BindVizMain)];
  }

  /** Where InitializeDemo opens each guard of its thread. */
  function OpenerIn(g: Guard): nat {
    match g
    case NeedRoot => 0
    case RootFirst => 2
    case NeedChild => 4
    case ObserverFirst => 6
    case InkFirst => 7
    case RunnerFirst => 8
    case ServerFirst => 9
    case VizMainFirst => 10
    case _ => 0
  }

  lemma DemoCode(k: nat)
    requires k < 12
    ensures |Code(InitializeDemo)| == 12
    ensures forall g: Guard :: Where(g) == UI && Needs(g, Code(InitializeDemo)[k]) ==>
              OpenerIn(g) < k && Opens(g, Code(InitializeDemo)[OpenerIn(g)])
    ensures Belongs(UI, Code(InitializeDemo)[k]) && !Downstream(Code(InitializeDemo)[k]) && PairAt(Code(InitializeDemo), k)
  {
  }

  lemma DemoFits(w: World)
    ensures Fits(w, UI, InitializeDemo)
  {
    var c := Code(InitializeDemo);
    DemoCode(0);
    forall k | 0 <= k < 12
      ensures Belongs(UI, c[k]) && !Downstream(c[k]) && PairAt(c, k)
      ensures forall g: Guard :: Where(g) == UI && Needs(g, c[k]) ==> OpenedBefore(g, c, k)
    {
      DemoCode(k);
    }
  }

  lemma ServerFits(w: World)
    ensures Fits(w, HostIO, InitIPCServer)
  {
    assert Opens(NeedServer, Code(InitIPCServer)[0]);
  }

  lemma VizHostFits(w: World)
    requires Launched in w.memory.flags && Promised(w, HostIO, ServerChannel)
    ensures Fits(w, HostIO, InitVizHost)
  {
    assert Opens(NeedGpuHost, Code(InitVizHost)[2]);
    if ServerChannel !in w.memory.flags {
      var j :| 0 <= j < |w.threads.hostIO| && w.threads.hostIO[j] == Set(ServerChannel);
      assert Opens(NeedServer, w.threads.At(HostIO)[j]);
    }
  }

  lemma EstablishedFits(w: World, valid: bool)
    requires Launched in w.memory.flags && HostRunner in w.memory.flags
    ensures Fits(w, HostIO, OnEstablishedOnIO(valid))
  {
    var c := Code(OnEstablishedOnIO(valid));
    if valid {
      assert c == [Set(GpuChannelHost), Use(HostRunner), Post(UI, OnEstablishedOnMain(true))];
      assert Opens(SetBeforeReport, c[0]);
    } else {
      assert c == [Use(HostRunner), Post(UI, OnEstablishedOnMain(false))];
    }
  }

  lemma GpuMainFits(w: World, task: Task)
    requires task.InitIPCClient? || task.InitVizMain? || task.BindVizMain?
    requires task.BindVizMain? ==> Promised(w, GpuMain, VizMain)
    ensures Fits(w, GpuMain, task)
  {
    var c := Code(task);
    match task
    case InitIPCClient => assert Opens(NeedClient, c[0]);
    case InitVizMain => assert Opens(NeedVizMain, c[0]);
    case BindVizMain =>
      if VizMain !in w.memory.flags {
        var j :| 0 <= j < |w.threads.gpuMain| && w.threads.gpuMain[j] == Set(VizMain);
        assert Opens(NeedVizMain, w.threads.At(GpuMain)[j]);
      }
  }

  lemma HandoverCode(w: World, k: nat)
    requires LaunchedFacts(w) && k < 5
    ensures Belongs(UI, HANDOVER[k]) && !Downstream(HANDOVER[k]) && PairAt(HANDOVER, k)
    ensures forall g: Guard :: Where(g) == UI && Needs(g, HANDOVER[k]) ==> Open(g, w) || OpenedBefore(g, HANDOVER, k)
  {
    if k == 4 {
      assert Opens(RootContextFirst, HANDOVER[1]) && Opens(InkContextFirst, HANDOVER[3]);
    }
  }

  lemma HandoverFits(w: World)
    requires LaunchedFacts(w)
    ensures InPairs(HANDOVER) && forall i :: i in HANDOVER ==> Belongs(UI, i) && !Downstream(i)
    ensures forall g: Guard :: Where(g) == UI ==> Guarded(g, HANDOVER, Open(g, w))
  {
    forall k: nat | k < 5
      ensures Belongs(UI, HANDOVER[k]) && !Downstream(HANDOVER[k]) && PairAt(HANDOVER, k)
      ensures forall g: Guard :: Where(g) == UI && Needs(g, HANDOVER[k]) ==> Open(g, w) || OpenedBefore(g, HANDOVER, k)
    {
      HandoverCode(w, k);
    }
  }

  lemma MoreOpen(g: Guard, code: seq<Instr>, open: bool, more: bool)
    requires Guarded(g, code, open) && (open ==> more)
    ensures Guarded(g, code, more)
  {
  }

  lemma ReportFits(w: World, valid: bool)
    requires Launched in w.memory.flags && LaunchedFacts(w) && (valid ==> GpuChannelHost in w.memory.flags)
    ensures Fits(w, UI, OnEstablishedOnMain(valid))
  {
    var use: seq<Instr> := if valid then [Use(GpuChannelHost)] else [];
    HandoverFits(w);
    InPairsAppend(use, HANDOVER);
    forall g: Guard | Where(g) == UI
      ensures Guarded(g, Code(OnEstablishedOnMain(valid)), Open(g, w) || Opened(g, w.threads.ui))
    {
      var open := Open(g, w) || Opened(g, w.threads.ui);
      MoreOpen(g, HANDOVER, Open(g, w), open || Opened(g, use));
      GuardedAppend(g, use, HANDOVER, open);
    }
  }

  lemma RootFits(w: World, task: Task)
    requires task.BindRoot? || task.SetRootContext? || task.RootBeginFrame?
    requires !task.BindRoot? ==> Promised(w, RootThread, RootReady)
    ensures Fits(w, RootThread, task)
  {
    var c := Code(task);
    if task.BindRoot? {
      assert c[0] == Set(RootReceiver) && c[1] == Set(RootReady);
    } else if RootReady !in w.memory.flags {
      var j :| 0 <= j < |w.threads.root| && w.threads.root[j] == Set(RootReady);
      assert Opens(NeedRootReady, w.threads.At(RootThread)[j]);
    }
  }

  lemma InkFits(w: World, task: Task)
    requires task.BindInk? || task.SetInkContext? || task.InkBeginFrame? || task.InkDraw?
    requires !task.BindInk? ==> Promised(w, InkThread, InkReady)
    ensures Fits(w, InkThread, task)
  {
    var c := Code(task);
    if task.BindInk? {
      assert c[0] == Set(InkReceiver) && c[1] == Set(InkReady);
    } else if InkReady !in w.memory.flags {
      var j :| 0 <= j < |w.threads.ink| && w.threads.ink[j] == Set(InkReady);
      assert Opens(NeedInkReady, w.threads.At(InkThread)[j]);
    }
  }

  /** The task an instruction posts fits where it is posted. */
  lemma PostFits(w: World, t: Thread)
    requires Inv(w) && w.threads.At(t) != [] && Posts(w.memory, w.threads.At(t)[0]) != []
    ensures var (to, task) := Posts(w.memory, w.threads.At(t)[0])[0]; Fits(Effect(w, t), to, task)
  {
    var i := w.threads.At(t)[0];
    var v := Effect(w, t);
    EffectInv(w, t);
    assert i in w.threads.At(t) && Belongs(t, i);
    assert Downstream(i) ==> Launched in w.memory.flags;
    match t
    case UI =>
      if i == LAUNCH {
        VizHostFits(v);
      } else if i == Post(HostIO, InitIPCServer) {
        ServerFits(v);
      } else if i == Post(GpuMain, InitVizMain) {
        GpuMainFits(v, InitVizMain);
      } else if i == Post(RootThread, BindRoot) {
        RootFits(v, BindRoot);
      } else if i == Post(RootThread, SetRootContext) {
        GuardOf(v, UI, RootFirst);
        RootFits(v, SetRootContext);
      } else if i == Post(InkThread, BindInk) {
        InkFits(v, BindInk);
      } else if i == Post(InkThread, SetInkContext) {
        GuardOf(v, UI, InkFirst);
        InkFits(v, SetInkContext);
      } else {
        InkFits(v, InkDraw);
      }
    case HostIO =>
      if i == Post(GpuMain, InitIPCClient) {
        GpuMainFits(v, InitIPCClient);
      } else if i == Post(UI, OnEstablishedOnMain(true)) {
        GuardOf(v, HostIO, SetBeforeReport);
        ReportFits(v, true);
      } else {
        ReportFits(v, false);
      }
    case _ => GpuMainFits(v, BindVizMain);
  }

  lemma Contains(w: World, t: Thread, task: Task, f: Flag)
    requires Set(f) in Code(task)
    ensures Promised(Posted(w, t, task), t, f)
  {
    AtWith(w.threads, t, w.threads.At(t) + Code(task), t);
  }

  /** A post that opens a guard keeps the promise it stands for. */
  lemma PostOpens(w: World, t: Thread, g: Guard)
    requires w.threads.At(t) != [] && Opens(g, w.threads.At(t)[0]) && w.threads.At(t)[0].Post?
    ensures var i := w.threads.At(t)[0]; Open(g, Posted(Effect(w, t), i.to, i.task))
  {
    var v := Effect(w, t);
    match g
    case ServerFirst => Contains(v, HostIO, InitIPCServer, ServerChannel);
    case VizMainFirst => Contains(v, GpuMain, InitVizMain, VizMain);
    case RootFirst => assert Code(BindRoot)[1] == Set(RootReady); Contains(v, RootThread, BindRoot, RootReady);
    case InkFirst => assert Code(BindInk)[1] == Set(InkReady); Contains(v, InkThread, BindInk, InkReady);
    case RootContextFirst =>
      assert Code(SetRootContext)[1] == Set(RootContext);
      Contains(v, RootThread, SetRootContext, RootContext);
    case InkContextFirst =>
      assert Code(SetInkContext)[1] == Set(InkContext);
      Contains(v, InkThread, SetInkContext, InkContext);
  }

  lemma PostingInv(w: World, t: Thread, to: Thread, task: Task)
    requires Inv(w) && w.threads.At(t) != [] && Posts(w.memory, w.threads.At(t)[0]) == [(to, task)]
    requires Posted(Effect(w, t), to, task).threads.At(t) != []
    ensures Inv(Popped(Posted(Effect(w, t), to, task), t))
  {
    var code := w.threads.At(t);
    var v := Posted(Effect(w, t), to, task);
    EffectInv(w, t);
    PostFits(w, t);
    PostInv(Effect(w, t), to, task);
    AtWith(w.threads, to, w.threads.At(to) + Code(task), t);
    assert v.threads.At(t)[0] == code[0];
    if code[0].Post? {
      forall g: Guard | Where(g) == t && Opens(g, code[0]) ensures Open(g, v) {
        PostOpens(w, t, g);
      }
    }
    PopInv(v, t);
  }

  lemma RanInv(w: World, t: Thread)
    requires Inv(w) && w.threads.At(t) != []
    ensures Inv(Ran(w, t))
  {
    RanInThreeSteps(w, t);
    var posts := Posts(w.memory, w.threads.At(t)[0]);
    if posts == [] {
      EffectInv(w, t);
      PopInv(Effect(w, t), t);
    } else {
      PostingInv(w, t, posts[0].0, posts[0].1);
    }
  }

  lemma ArrivalInv(w: World, e: Event)
    requires Inv(w) && Enabled(w, e) && (e.Create? || e.Mouse? || e.RootTick? || e.InkTick?)
    ensures Inv(Apply(w, e))
  {
    match e
    case Create =>
      DemoFits(w);
      PostInv(w, UI, InitializeDemo);
    case Mouse =>
      MouseFits(w);
      PostInv(w, UI, MouseMoved);
    case RootTick =>
      RootFits(w, RootBeginFrame);
      PostInv(w, RootThread, RootBeginFrame);
    case InkTick =>
      InkFits(w, InkBeginFrame);
      PostInv(w, InkThread, InkBeginFrame);
  }

  lemma FewerMessages(w: World, v: World)
    requires Inv(w) && v == w.(memory := v.memory) && w.memory.requests + w.memory.calls > 0
    requires v.memory.flags == w.memory.flags && v.memory.fault == w.memory.fault
    ensures Inv(v) && Launched in v.memory.flags
  {
    forall g: Guard ensures Guarded(g, v.threads.At(Where(g)), Open(g, v)) {
      assert Open(g, v) == Open(g, w);
    }
  }

  lemma RequestInv(w: World, direct: bool)
    requires Inv(w) && Enabled(w, DeliverRequest(direct))
    ensures Inv(Apply(w, DeliverRequest(direct)))
  {
    var v := w.(memory := w.memory.(requests := w.memory.requests - 1));
    FewerMessages(w, v);
    if direct {
      GpuMainFits(v, BindVizMain);
      PostInv(v, GpuMain, BindVizMain);
    } else {
      ForwardFits(v);
      PostInv(v, GpuIO, ForwardRequest);
    }
  }

  lemma EstablishedInv(w: World, valid: bool)
    requires Inv(w) && Enabled(w, Established(valid))
    ensures Inv(Apply(w, Established(valid)))
  {
    var v := w.(memory := w.memory.(calls := w.memory.calls - 1));
    FewerMessages(w, v);
    EstablishedFits(v, valid);
    PostInv(v, HostIO, OnEstablishedOnIO(valid));
  }

  lemma StepInv(w: World, e: Event)
    requires Inv(w) && Enabled(w, e)
    ensures Inv(Apply(w, e))
  {
    match e
    case Run(t) => RanInv(w, t);
    case DeliverRequest(direct) => RequestInv(w, direct);
    case Established(valid) => EstablishedInv(w, valid);
    case _ => ArrivalInv(w, e);
  }

  lemma {:induction false} RunInv(w: World, events: seq<Event>)
    requires Inv(w) && Feasible(w, events)
    ensures Inv(Exec(w, events))
    decreases events
  {
    if events != [] {
      StepInv(w, events[0]);
      RunInv(Apply(w, events[0]), events[1..]);
    }
  }

  lemma StartInv()
    ensures Inv(START)
  {
  }

  // ----- running a task's instructions in one go -----

  /** The memory they leave and the tasks they post. */
  function ExecuteAll(m: Memory, code: seq<Instr>): Memory
    decreases code
  {
    if code == [] then m else ExecuteAll(Execute(m, code[0]), code[1..])
  }

  function PostsOf(m: Memory, code: seq<Instr>): seq<(Thread, Task)>
    decreases code
  {
    if code == [] then [] else Posts(m, code[0]) + PostsOf(Execute(m, code[0]), code[1..])
  }

  /** Running `code` on `m` leaves `after` and posts `posts`. */
  ghost predicate Effects(m: Memory, code: seq<Instr>, after: Memory, posts: seq<(Thread, Task)>) {
    ExecuteAll(m, code) == after && PostsOf(m, code) == posts
  }

  lemma RunsFirst(m: Memory, code: seq<Instr>, i: Instr, rest: seq<Instr>)
    requires code == [i] + rest
    ensures ExecuteAll(m, code) == ExecuteAll(Execute(m, i), rest)
    ensures PostsOf(m, code) == Posts(m, i) + PostsOf(Execute(m, i), rest)
  {
    assert code[0] == i && code[1..] == rest;
  }

  lemma {:induction false} RunsAppend(m: Memory, a: seq<Instr>, b: seq<Instr>)
    ensures ExecuteAll(m, a + b) == ExecuteAll(ExecuteAll(m, a), b)
    ensures PostsOf(m, a + b) == PostsOf(m, a) + PostsOf(ExecuteAll(m, a), b)
    decreases a
  {
    if a == [] {
      assert a + b == b;
    } else {
      assert a + b == [a[0]] + (a[1..] + b);
      RunsFirst(m, a + b, a[0], a[1..] + b);
      RunsAppend(Execute(m, a[0]), a[1..], b);
    }
  }

  lemma Then(m: Memory, a: seq<Instr>, m1: Memory, p1: seq<(Thread, Task)>, b: seq<Instr>, m2: Memory, p2: seq<(Thread, Task)>)
    requires Effects(m, a, m1, p1) && Effects(m1, b, m2, p2)
    ensures Effects(m, a + b, m2, p1 + p2)
  {
    RunsAppend(m, a, b);
  }

  lemma RunsOne(m: Memory, i: Instr)
    ensures Effects(m, [i], Execute(m, i), Posts(m, i))
  {
    var m1 := Execute(m, i);
    assert [i][1..] == [];
    assert ExecuteAll(m1, []) == m1 && PostsOf(m1, []) == [];
  }

  lemma RunsTwo(m: Memory, a: Instr, b: Instr, m1: Memory)
    requires m1 == Execute(m, a)
    ensures Effects(m, [a, b], Execute(m1, b), Posts(m, a) + Posts(m1, b))
  {
    RunsOne(m, a);
    RunsOne(m1, b);
    Then(m, [a], m1, Posts(m, a), [b], Execute(m1, b), Posts(m1, b));
    assert [a] + [b] == [a, b];
  }

  lemma RunsThree(m: Memory, a: Instr, b: Instr, c: Instr, m1: Memory, m2: Memory)
    requires m1 == Execute(m, a) && m2 == Execute(m1, b)
    ensures Effects(m, [a, b, c], Execute(m2, c), Posts(m, a) + Posts(m1, b) + Posts(m2, c))
  {
    RunsTwo(m, a, b, m1);
    RunsOne(m2, c);
    Then(m, [a, b], m2, Posts(m, a) + Posts(m1, b), [c], Execute(m2, c), Posts(m2, c));
    assert [a, b] + [c] == [a, b, c];
  }

  function With(m: Memory, flags: set<Flag>): Memory { m.(flags := m.flags + flags) }

  lemma ServerEffect(m: Memory)
    ensures Effects(m, Code(InitIPCServer), With(m, {ServerChannel}), [(GpuMain, InitIPCClient)])
  {
    var m1 := With(m, {ServerChannel});
    RunsThree(m, Set(ServerChannel), Post(GpuMain, InitIPCClient), Use(ServerChannel), m1, m1);
  }

  lemma ClientEffect(m: Memory)
    ensures Effects(m, Code(InitIPCClient), With(m, {ClientChannel, ChannelReady}), [])
  {
    var m1 := With(m, {ClientChannel});
    RunsThree(m, Set(ClientChannel), Use(ClientChannel), Set(ChannelReady), m1, m1);
    assert With(m1, {ChannelReady}) == With(m, {ClientChannel, ChannelReady});
  }

  lemma VizMainEffect(m: Memory)
    ensures Effects(m, Code(InitVizMain), With(m, {VizMain}), [])
  {
    RunsTwo(m, Set(VizMain), Use(VizMain), With(m, {VizMain}));
  }

  lemma VizHostEffect(m: Memory)
    requires ServerChannel in m.flags
    ensures Effects(m, Code(InitVizHost), With(m, {GpuHost}).(requests := m.requests + 1, calls := m.calls + 1), [])
  {
    var m1 := m.(requests := m.requests + 1);
    var m2 := With(m1, {GpuHost});
    var m3 := m2.(calls := m2.calls + 1);
    RunsTwo(m, Use(ServerChannel), RequestVizMain, m);
    RunsThree(m1, Set(GpuHost), Use(GpuHost), EstablishGpuChannel, m2, m2);
    Then(m, [Use(ServerChannel), RequestVizMain], m1, [], [Set(GpuHost), Use(GpuHost), EstablishGpuChannel], m3, []);
  }

  lemma BindVizMainEffect(m: Memory)
    requires VizMain in m.flags
    ensures Effects(m, Code(BindVizMain), With(m, {VizMainBound}), [])
  {
    RunsTwo(m, Use(VizMain), Set(VizMainBound), m);
  }

  lemma ForwardEffect(m: Memory)
    ensures Effects(m, Code(ForwardRequest), m, [(GpuMain, BindVizMain)])
  {
    RunsOne(m, Post(GpuMain, BindVizMain));
  }

  lemma EstablishedEffect(m: Memory, valid: bool)
    requires HostRunner in m.flags
    ensures Effects(m, Code(OnEstablishedOnIO(valid)), if valid then With(m, {GpuChannelHost}) else m,
                    [(UI, OnEstablishedOnMain(valid))])
  {
    var report := Post(UI, OnEstablishedOnMain(valid));
    if valid {
      var m1 := With(m, {GpuChannelHost});
      RunsThree(m, Set(GpuChannelHost), Use(HostRunner), report, m1, m1);
      assert Code(OnEstablishedOnIO(valid)) == [Set(GpuChannelHost), Use(HostRunner), report];
    } else {
      RunsTwo(m, Use(HostRunner), report, m);
      assert Code(OnEstablishedOnIO(valid)) == [Use(HostRunner), report];
    }
  }

  /** InitializeDemo creates the host, with its two clients, and then the service. */
  const HOSTPART := [Set(RootClient), Use(RootClient), Post(RootThread, BindRoot), Use(RootClient),
                     Set(ChildClient), Use(ChildClient), Set(Observing), Post(InkThread, BindInk)]

  const SERVICEPART := [Set(HostRunner), Post(HostIO, InitIPCServer), Post(GpuMain, InitVizMain), LAUNCH]

  const FORKED := [Set(HostRunner), Post(HostIO, InitIPCServer)]

  lemma DemoParts()
    ensures Code(InitializeDemo) == HOSTPART + SERVICEPART
    ensures SERVICEPART == FORKED + [Post(GpuMain, InitVizMain), LAUNCH]
  {
  }

  lemma ServicePartEffect(m: Memory)
    ensures Effects(m, SERVICEPART, With(m, {HostRunner, Launched}),
                    [(HostIO, InitIPCServer), (GpuMain, InitVizMain), (HostIO, InitVizHost)])
  {
    var m1 := With(m, {HostRunner});
    RunsTwo(m, Set(HostRunner), Post(HostIO, InitIPCServer), m1);
    RunsTwo(m1, Post(GpuMain, InitVizMain), LAUNCH, m1);
    Then(m, FORKED, m1, [(HostIO, InitIPCServer)],
         [Post(GpuMain, InitVizMain), LAUNCH], With(m1, {Launched}), [(GpuMain, InitVizMain), (HostIO, InitVizHost)]);
    assert With(m1, {Launched}) == With(m, {HostRunner, Launched});
    DemoParts();
  }

  const CLIENTSET := [Set(RootClient), Use(RootClient), Post(RootThread, BindRoot), Use(RootClient), Set(ChildClient)]

  lemma RootEffect(m: Memory)
    ensures Effects(m, CLIENTSET, With(With(m, {RootClient}), {ChildClient}), [(RootThread, BindRoot)])
  {
    var m1 := With(m, {RootClient});
    var m2 := With(m1, {ChildClient});
    RunsThree(m, Set(RootClient), Use(RootClient), Post(RootThread, BindRoot), m1, m1);
    RunsTwo(m1, Use(RootClient), Set(ChildClient), m1);
    Then(m, [Set(RootClient), Use(RootClient), Post(RootThread, BindRoot)], m1, [(RootThread, BindRoot)],
         [Use(RootClient), Set(ChildClient)], m2, []);
  }

  lemma WithThree(m: Memory, a: Flag, b: Flag, c: Flag)
    ensures With(With(With(m, {a}), {b}), {c}) == With(m, {a, b, c})
  {
    assert m.flags + {a} + {b} + {c} == m.flags + {a, b, c};
  }

  lemma HostPartEffect(m: Memory)
    ensures Effects(m, HOSTPART, With(m, {RootClient, ChildClient, Observing}), [(RootThread, BindRoot), (InkThread, BindInk)])
  {
    var m2 := With(With(m, {RootClient}), {ChildClient});
    var m3 := With(m2, {Observing});
    RootEffect(m);
    RunsThree(m2, Use(ChildClient), Set(Observing), Post(InkThread, BindInk), m2, m3);
    Then(m, CLIENTSET, m2, [(RootThread, BindRoot)],
         [Use(ChildClient), Set(Observing), Post(InkThread, BindInk)], m3, [(InkThread, BindInk)]);
    WithThree(m, RootClient, ChildClient, Observing);
  }

  // ----- reachable worlds -----

  ghost predicate Reachable(w: World) {
    exists events :: Feasible(START, events) && Exec(START, events) == w
  }

  lemma {:induction false} ExecAppend(w: World, events: seq<Event>, e: Event)
    requires Feasible(w, events) && Enabled(Exec(w, events), e)
    ensures Feasible(w, events + [e]) && Exec(w, events + [e]) == Apply(Exec(w, events), e)
    decreases events
  {
    if events == [] {
      var v := Apply(w, e);
      assert events + [e] == [e] && [e][1..] == [];
      assert Feasible(v, []) && Exec(v, []) == v;
    } else {
      assert (events + [e])[1..] == events[1..] + [e];
      ExecAppend(Apply(w, events[0]), events[1..], e);
    }
  }

  lemma Reach(w: World, e: Event)
    requires Reachable(w) && Enabled(w, e)
    ensures Reachable(Apply(w, e))
  {
    var events :| Feasible(START, events) && Exec(START, events) == w;
    ExecAppend(START, events, e);
  }

  lemma ReachStart()
    ensures Reachable(START)
  {
    assert Feasible(START, []) && Exec(START, []) == START;
  }

  /** The instructions that `posts` append to thread `u`. */
  function Queued(posts: seq<(Thread, Task)>, u: Thread): seq<Instr> {
    if posts == [] then []
    else (if posts[0].0 == u then Code(posts[0].1) else []) + Queued(posts[1..], u)
  }

  lemma OnePosted(w: World, t: Thread, u: Thread)
    requires w.threads.At(t) != []
    ensures var posts := Posts(w.memory, w.threads.At(t)[0]);
            && Ran(w, t).threads.At(u) == (if u == t then w.threads.At(t)[1..] else w.threads.At(u)) + Queued(posts, u)
            && Ran(w, t).memory == Execute(w.memory, w.threads.At(t)[0]) && Ran(w, t).started == w.started
  {
    var code := w.threads.At(t);
    var posts := Posts(w.memory, code[0]);
    AtWith(w.threads, t, code[1..], u);
    if posts != [] {
      var v := w.(threads := w.threads.With(t, code[1..]), memory := Execute(w.memory, code[0]));
      AtWith(v.threads, posts[0].0, v.threads.At(posts[0].0) + Code(posts[0].1), u);
      AtWith(w.threads, t, code[1..], posts[0].0);
      assert posts[1..] == [] && Queued(posts[1..], u) == [];
      assert Queued(posts, u) == if posts[0].0 == u then Code(posts[0].1) else [];
    }
  }

  lemma {:induction false} QueuedAppend(a: seq<(Thread, Task)>, b: seq<(Thread, Task)>, u: Thread)
    ensures Queued(a + b, u) == Queued(a, u) + Queued(b, u)
    decreases a
  {
    if a == [] {
      assert a + b == b;
    } else {
      assert (a + b)[1..] == a[1..] + b;
      QueuedAppend(a[1..], b, u);
    }
  }

  /** A queue from which `n` instructions were taken if it is the running thread's, the first before `a` came in and
      the rest before `b` did. */
  lemma QueueAfter(queue: seq<Instr>, a: seq<Instr>, b: seq<Instr>, mine: bool, n: nat)
    requires mine ==> 0 < n <= |queue|
    ensures var mid := (if mine then queue[1..] else queue) + a;
            (if mine then mid[n - 1..] else mid) + b == (if mine then queue[n..] else queue) + (a + b)
  {
    if mine {
      assert (queue[1..] + a)[n - 1..] == queue[n..] + a;
    }
  }

  lemma PostsFirst(m: Memory, code: seq<Instr>, u: Thread)
    requires code != []
    ensures Queued(PostsOf(m, code), u)
         == Queued(Posts(m, code[0]), u) + Queued(PostsOf(Execute(m, code[0]), code[1..]), u)
  {
    QueuedAppend(Posts(m, code[0]), PostsOf(Execute(m, code[0]), code[1..]), u);
  }

  /** What thread `u` has to run after thread `t` of `w` has run `code`. */
  function QueueOf(w: World, t: Thread, code: seq<Instr>, u: Thread): seq<Instr>
    requires code <= w.threads.At(t)
  {
    (if u == t then w.threads.At(t)[|code|..] else w.threads.At(u)) + Queued(PostsOf(w.memory, code), u)
  }

  /** The first instruction, and then the rest. */
  lemma RanOn(w: World, t: Thread, code: seq<Instr>, u: Thread)
    requires code != [] && code <= w.threads.At(t) && code[1..] <= Ran(w, t).threads.At(t)
    ensures QueueOf(Ran(w, t), t, code[1..], u) == QueueOf(w, t, code, u)
  {
    OnePosted(w, t, u);
    PostsFirst(w.memory, code, u);
    QueueAfter(w.threads.At(u), Queued(Posts(w.memory, code[0]), u),
               Queued(PostsOf(Execute(w.memory, code[0]), code[1..]), u), u == t, |code|);
  }

  lemma StillToRun(w: World, t: Thread, code: seq<Instr>)
    requires code != [] && code <= w.threads.At(t)
    ensures code[1..] <= Ran(w, t).threads.At(t) && Ran(w, t).memory == Execute(w.memory, code[0])
  {
    OnePosted(w, t, t);
    assert code[1..] <= w.threads.At(t)[1..];
  }

  /** Nothing keeps a thread from running what it has to run. */
  lemma {:induction false} RunCode(w: World, t: Thread, code: seq<Instr>) returns (v: World)
    requires Reachable(w) && code <= w.threads.At(t)
    ensures Reachable(v) && v.memory == ExecuteAll(w.memory, code)
    ensures forall u: Thread :: v.threads.At(u) == QueueOf(w, t, code, u)
    decreases code
  {
    if code == [] {
      v := w;
      assert w.threads.At(t)[0..] == w.threads.At(t);
    } else {
      Reach(w, Run(t));
      StillToRun(w, t, code);
      v := RunCode(Ran(w, t), t, code[1..]);
      forall u: Thread ensures v.threads.At(u) == QueueOf(w, t, code, u) {
        RanOn(w, t, code, u);
      }
    }
  }

  lemma SameThreads(a: Threads, b: Threads)
    requires forall u: Thread :: a.At(u) == b.At(u)
    ensures a == b
  {
    assert a.At(UI) == b.At(UI) && a.At(HostIO) == b.At(HostIO) && a.At(GpuIO) == b.At(GpuIO);
    assert a.At(GpuMain) == b.At(GpuMain) && a.At(RootThread) == b.At(RootThread) && a.At(InkThread) == b.At(InkThread);
  }

  function Enqueue(ts: Threads, to: Thread, task: Task): Threads { ts.With(to, ts.At(to) + Code(task)) }

  function EnqueueAll(ts: Threads, posts: seq<(Thread, Task)>): Threads
    decreases posts
  {
    if posts == [] then ts else EnqueueAll(Enqueue(ts, posts[0].0, posts[0].1), posts[1..])
  }

  /** What the first post puts in the queue of `u`. */
  lemma EnqueueFirst(ts: Threads, posts: seq<(Thread, Task)>, u: Thread) returns (code: seq<Instr>)
    requires posts != []
    ensures Enqueue(ts, posts[0].0, posts[0].1).At(u) == ts.At(u) + code
    ensures Queued(posts, u) == code + Queued(posts[1..], u)
  {
    var (to, task) := posts[0];
    AtWith(ts, to, ts.At(to) + Code(task), u);
    code := if to == u then Code(task) else [];
  }

  lemma Associative(a: seq<Instr>, b: seq<Instr>, c: seq<Instr>)
    ensures a + b + c == a + (b + c)
  {
  }

  lemma {:induction false} EnqueueAllAt(ts: Threads, posts: seq<(Thread, Task)>, u: Thread)
    ensures EnqueueAll(ts, posts).At(u) == ts.At(u) + Queued(posts, u)
    decreases posts
  {
    if posts == [] {
      assert ts.At(u) + [] == ts.At(u);
    } else {
      var code := EnqueueFirst(ts, posts, u);
      EnqueueAllAt(Enqueue(ts, posts[0].0, posts[0].1), posts[1..], u);
      Associative(ts.At(u), code, Queued(posts[1..], u));
    }
  }

  /** Thread `t` runs `code` and leaves `tail`. */
  lemma Runs(w: World, t: Thread, code: seq<Instr>, tail: seq<Instr>, after: Memory, posts: seq<(Thread, Task)>) returns (v: World)
    requires Reachable(w) && w.threads.At(t) == code + tail && Effects(w.memory, code, after, posts)
    ensures Reachable(v) && v.memory == after && v.threads == EnqueueAll(w.threads.With(t, tail), posts)
  {
    v := RunCode(w, t, code);
    var ts := w.threads.With(t, tail);
    forall u: Thread ensures v.threads.At(u) == EnqueueAll(ts, posts).At(u) {
      AtWith(w.threads, t, tail, u);
      EnqueueAllAt(ts, posts, u);
    }
    SameThreads(v.threads, EnqueueAll(ts, posts));
  }

  lemma EnqueueOne(ts: Threads, to: Thread, task: Task)
    ensures EnqueueAll(ts, [(to, task)]) == Enqueue(ts, to, task)
  {
    assert [(to, task)][1..] == [];
  }

  lemma RunsPosting(w: World, t: Thread, code: seq<Instr>, tail: seq<Instr>, after: Memory, to: Thread, task: Task)
    returns (v: World)
    requires Reachable(w) && w.threads.At(t) == code + tail && Effects(w.memory, code, after, [(to, task)])
    ensures Reachable(v) && v.memory == after && v.threads == Enqueue(w.threads.With(t, tail), to, task)
  {
    v := Runs(w, t, code, tail, after, [(to, task)]);
    EnqueueOne(w.threads.With(t, tail), to, task);
  }

  // ----- start-up comes to its end -----

  predicate Left(w: World, t: Thread, i: Instr) { i in w.threads.At(t) }

  predicate VizMainComing(w: World) {
    || Left(w, HostIO, RequestVizMain) || w.memory.requests > 0
    || Left(w, GpuIO, Post(GpuMain, BindVizMain)) || Promised(w, GpuMain, VizMainBound)
  }

  predicate ReportComing(w: World) {
    || Left(w, HostIO, EstablishGpuChannel) || w.memory.calls > 0
    || Left(w, HostIO, Post(UI, OnEstablishedOnMain(true))) || Left(w, HostIO, Post(UI, OnEstablishedOnMain(false)))
    || Promised(w, UI, HandedOver)
  }

  /** Every stage of start-up that has not been reached is on its way: an instruction that brings it about, or an earlier
      one, is in a queue, or a message that leads to it is. */
  predicate OnItsWay(w: World) {
    && (w.started ==> Launched in w.memory.flags || Left(w, UI, LAUNCH))
    && (Launched in w.memory.flags ==> Promised(w, HostIO, GpuHost) && VizMainComing(w) && ReportComing(w))
    && (ServerChannel in w.memory.flags ==> Left(w, HostIO, Post(GpuMain, InitIPCClient)) || Promised(w, GpuMain, ChannelReady))
  }

  /** An instruction stays in its queue until it is run. */
  lemma Stays(w: World, t: Thread, u: Thread, i: Instr)
    requires w.threads.At(t) != [] && Left(w, u, i) && (u == t ==> i != w.threads.At(t)[0])
    ensures Left(Ran(w, t), u, i)
  {
    OnePosted(w, t, u);
  }

  /** A post brings all the instructions of its task. */
  lemma Brings(w: World, t: Thread, to: Thread, task: Task, i: Instr)
    requires w.threads.At(t) != [] && w.threads.At(t)[0] == Post(to, task) && i in Code(task)
    ensures Left(Ran(w, t), to, i)
  {
    OnePosted(w, t, to);
    assert [(to, task)][1..] == [] && Queued([], to) == [];
    assert Queued([(to, task)], to) == Code(task);
  }

  lemma Remains(w: World, t: Thread, u: Thread, f: Flag)
    requires w.threads.At(t) != [] && Promised(w, u, f)
    ensures Promised(Ran(w, t), u, f)
  {
    OnePosted(w, t, u);
    if f !in w.memory.flags && !(u == t && w.threads.At(t)[0] == Set(f)) {
      Stays(w, t, u, Set(f));
    }
  }

  lemma RequestStep(w: World, t: Thread)
    requires w.threads.At(t) != [] && Left(w, HostIO, RequestVizMain)
    ensures VizMainComing(Ran(w, t))
  {
    if t == HostIO && w.threads.At(t)[0] == RequestVizMain {
      OnePosted(w, t, t);
    } else {
      Stays(w, t, HostIO, RequestVizMain);
    }
  }

  lemma ForwardStep(w: World, t: Thread)
    requires w.threads.At(t) != [] && Left(w, GpuIO, Post(GpuMain, BindVizMain))
    ensures VizMainComing(Ran(w, t))
  {
    if t == GpuIO && w.threads.At(t)[0] == Post(GpuMain, BindVizMain) {
      assert Code(BindVizMain)[1] == Set(VizMainBound);
      Brings(w, t, GpuMain, BindVizMain, Set(VizMainBound));
    } else {
      Stays(w, t, GpuIO, Post(GpuMain, BindVizMain));
    }
  }

  lemma VizMainStep(w: World, t: Thread)
    requires w.threads.At(t) != [] && VizMainComing(w)
    ensures VizMainComing(Ran(w, t))
  {
    if Promised(w, GpuMain, VizMainBound) {
      Remains(w, t, GpuMain, VizMainBound);
    } else if Left(w, HostIO, RequestVizMain) {
      RequestStep(w, t);
    } else if Left(w, GpuIO, Post(GpuMain, BindVizMain)) {
      ForwardStep(w, t);
    } else {
      OnePosted(w, t, t);
    }
  }

  lemma ReportStep(w: World, t: Thread, valid: bool)
    requires Inv(w) && w.threads.At(t) != [] && Left(w, HostIO, Post(UI, OnEstablishedOnMain(valid)))
    ensures ReportComing(Ran(w, t))
  {
    var post := Post(UI, OnEstablishedOnMain(valid));
    if t == HostIO && w.threads.At(t)[0] == post {
      assert HANDOVER[4] == Set(HandedOver) && Set(HandedOver) in Code(OnEstablishedOnMain(valid));
      Brings(w, t, UI, OnEstablishedOnMain(valid), Set(HandedOver));
    } else {
      Stays(w, t, HostIO, post);
    }
  }

  lemma EstablishStep(w: World, t: Thread)
    requires Inv(w) && w.threads.At(t) != [] && ReportComing(w)
    ensures ReportComing(Ran(w, t))
  {
    OnePosted(w, t, t);
    if Promised(w, UI, HandedOver) {
      Remains(w, t, UI, HandedOver);
    } else if Left(w, HostIO, Post(UI, OnEstablishedOnMain(true))) {
      ReportStep(w, t, true);
    } else if Left(w, HostIO, Post(UI, OnEstablishedOnMain(false))) {
      ReportStep(w, t, false);
    } else if Left(w, HostIO, EstablishGpuChannel) && !(t == HostIO && w.threads.At(t)[0] == EstablishGpuChannel) {
      Stays(w, t, HostIO, EstablishGpuChannel);
    }
  }

  lemma LaunchStep(w: World, t: Thread)
    requires Inv(w) && w.threads.At(t) != [] && w.threads.At(t)[0] == LAUNCH
    ensures var v := Ran(w, t);
            Launched in v.memory.flags && Promised(v, HostIO, GpuHost) && VizMainComing(v) && ReportComing(v)
  {
    var c := Code(InitVizHost);
    OnePosted(w, t, t);
    assert c[1] == RequestVizMain && c[2] == Set(GpuHost) && c[4] == EstablishGpuChannel;
    Brings(w, t, HostIO, InitVizHost, RequestVizMain);
    Brings(w, t, HostIO, InitVizHost, Set(GpuHost));
    Brings(w, t, HostIO, InitVizHost, EstablishGpuChannel);
  }

  lemma ServerSet(w: World, t: Thread)
    requires Inv(w) && w.threads.At(t) != [] && w.threads.At(t)[0] == Set(ServerChannel)
    ensures Left(Ran(w, t), HostIO, Post(GpuMain, InitIPCClient))
  {
    var code := w.threads.At(t);
    assert code[0] in code && Belongs(t, code[0]) && PairAt(code, 0);
    assert code[1..][0] == Post(GpuMain, InitIPCClient);
    OnePosted(w, t, t);
  }

  lemma ServerStep(w: World, t: Thread)
    requires Inv(w) && w.threads.At(t) != [] && OnItsWay(w) && ServerChannel in Ran(w, t).memory.flags
    ensures var v := Ran(w, t); Left(v, HostIO, Post(GpuMain, InitIPCClient)) || Promised(v, GpuMain, ChannelReady)
  {
    var i, post := w.threads.At(t)[0], Post(GpuMain, InitIPCClient);
    if i == Set(ServerChannel) {
      ServerSet(w, t);
    } else if i == post {
      assert Code(InitIPCClient)[2] == Set(ChannelReady);
      Brings(w, t, GpuMain, InitIPCClient, Set(ChannelReady));
    } else {
      OnePosted(w, t, t);
      if Promised(w, GpuMain, ChannelReady) {
        Remains(w, t, GpuMain, ChannelReady);
      } else {
        Stays(w, t, HostIO, post);
      }
    }
  }

  lemma RanOnItsWay(w: World, t: Thread)
    requires Inv(w) && w.threads.At(t) != [] && OnItsWay(w)
    ensures OnItsWay(Ran(w, t))
  {
    OnePosted(w, t, t);
    assert w.threads.At(t)[0] in w.threads.At(t) && Belongs(t, w.threads.At(t)[0]);
    if ServerChannel in Ran(w, t).memory.flags {
      ServerStep(w, t);
    }
    if w.threads.At(t)[0] == LAUNCH {
      LaunchStep(w, t);
    } else {
      if Launched in w.memory.flags {
        Remains(w, t, HostIO, GpuHost);
        VizMainStep(w, t);
        EstablishStep(w, t);
      } else if w.started {
        Stays(w, t, UI, LAUNCH);
      }
    }
  }

  /** More in the queues is no less on its way. */
  lemma PostedOnItsWay(w: World, t: Thread, task: Task)
    requires OnItsWay(w)
    ensures OnItsWay(Posted(w, t, task))
    ensures forall i :: i in Code(task) ==> Left(Posted(w, t, task), t, i)
  {
    forall u: Thread, i | Left(w, u, i) ensures Left(Posted(w, t, task), u, i) {
      AtWith(w.threads, t, w.threads.At(t) + Code(task), u);
    }
    AtWith(w.threads, t, w.threads.At(t) + Code(task), t);
    assert Posted(w, t, task).memory == w.memory;
  }

  lemma ArrivalOnItsWay(w: World, e: Event)
    requires Inv(w) && Enabled(w, e) && OnItsWay(w) && (e.Create? || e.Mouse? || e.RootTick? || e.InkTick?)
    ensures OnItsWay(Apply(w, e))
  {
    match e
    case Create =>
      AtWith(w.threads, UI, w.threads.ui + Code(InitializeDemo), UI);
      assert Code(InitializeDemo)[11] == LAUNCH;
      var v := Posted(w, UI, InitializeDemo);
      PostedOnItsWay(w, UI, InitializeDemo);
      assert Left(v, UI, LAUNCH);
      assert Apply(w, e) == v.(started := true);
    case Mouse => PostedOnItsWay(w, UI, MouseMoved);
    case RootTick => PostedOnItsWay(w, RootThread, RootBeginFrame);
    case InkTick => PostedOnItsWay(w, InkThread, InkBeginFrame);
  }

  /** A message that arrives is replaced by the task it posts. */
  lemma RequestOnItsWay(w: World, direct: bool)
    requires Inv(w) && Enabled(w, DeliverRequest(direct)) && OnItsWay(w)
    ensures OnItsWay(Apply(w, DeliverRequest(direct)))
  {
    var t, task := if direct then GpuMain else GpuIO, if direct then BindVizMain else ForwardRequest;
    var v := Posted(w, t, task);
    PostedOnItsWay(w, t, task);
    assert Code(BindVizMain)[1] == Set(VizMainBound) && Code(ForwardRequest)[0] == Post(GpuMain, BindVizMain);
    assert Left(v, t, if direct then Set(VizMainBound) else Post(GpuMain, BindVizMain));
    assert Apply(w, DeliverRequest(direct)) == v.(memory := w.memory.(requests := w.memory.requests - 1));
  }

  lemma EstablishedOnItsWay(w: World, valid: bool)
    requires Inv(w) && Enabled(w, Established(valid)) && OnItsWay(w)
    ensures OnItsWay(Apply(w, Established(valid)))
  {
    var v := Posted(w, HostIO, OnEstablishedOnIO(valid));
    PostedOnItsWay(w, HostIO, OnEstablishedOnIO(valid));
    assert Code(OnEstablishedOnIO(valid))[if valid then 2 else 1] == Post(UI, OnEstablishedOnMain(valid));
    assert Left(v, HostIO, Post(UI, OnEstablishedOnMain(valid)));
    assert Apply(w, Established(valid)) == v.(memory := w.memory.(calls := w.memory.calls - 1));
  }

  lemma {:induction false} OnItsWayRun(w: World, events: seq<Event>)
    requires Inv(w) && OnItsWay(w) && Feasible(w, events)
    ensures OnItsWay(Exec(w, events))
    decreases events
  {
    if events != [] {
      var e := events[0];
      StepInv(w, e);
      match e {
        case Run(t) => RanOnItsWay(w, t);
        case DeliverRequest(direct) => RequestOnItsWay(w, direct);
        case Established(valid) => EstablishedOnItsWay(w, valid);
        case _ => ArrivalOnItsWay(w, e);
      }
      OnItsWayRun(Apply(w, e), events[1..]);
    }
  }

  /** Nothing is left to run, and no message is under way. */
  predicate AtRest(w: World) {
    w.threads == Threads([], [], [], [], [], []) && w.memory.requests == w.memory.calls == 0
  }

  // ----- what each task finds -----

  function Place(task: Task): Thread {
    match task
    case InitializeDemo => UI
    case OnEstablishedOnMain(_) => UI
    case MouseMoved => UI
    case InitIPCServer => HostIO
    case InitVizHost => HostIO
    case OnEstablishedOnIO(_) => HostIO
    case InitIPCClient => GpuMain
    case InitVizMain => GpuMain
    case BindVizMain => GpuMain
    case ForwardRequest => GpuIO
    case BindRoot => RootThread
    case SetRootContext => RootThread
    case RootBeginFrame => RootThread
    case _ => InkThread
  }

  /** What the source uses in each task without having set it there. */
  function Needed(task: Task): set<Flag> {
    match task
    case InitVizHost => {ServerChannel}
    case BindVizMain => {VizMain}
    case OnEstablishedOnIO(_) => {HostRunner}
    case OnEstablishedOnMain(valid) => {RootClient, ChildClient} + if valid then {GpuChannelHost} else {}
    case SetRootContext => {RootReady}
    case RootBeginFrame => {RootReady}
    case SetInkContext => {InkReady}
    case InkBeginFrame => {InkReady}
    case InkDraw => {InkReady}
    case _ => {}
  }

  lemma NeedAt(w: World, t: Thread, g: Guard, k: nat)
    requires Inv(w) && k < |w.threads.At(t)| && Where(g) == t && Needs(g, w.threads.At(t)[k])
    requires forall j :: 0 <= j < k ==> !Opens(g, w.threads.At(t)[j])
    ensures Open(g, w)
  {
    assert Guarded(g, w.threads.At(t), Open(g, w));
    assert !OpenedBefore(g, w.threads.At(t), k);
  }

  lemma ReportNeeds(w: World, valid: bool)
    requires Inv(w) && Code(OnEstablishedOnMain(valid)) <= w.threads.ui
    ensures Needed(OnEstablishedOnMain(valid)) <= w.memory.flags
  {
    var c, n := Code(OnEstablishedOnMain(valid)), if valid then 1 else 0;
    assert c[n] == HANDOVER[0] && c[n + 1] == HANDOVER[1] && c[n + 2] == HANDOVER[2];
    NeedAt(w, UI, NeedRoot, n);
    NeedAt(w, UI, NeedChild, n + 2);
    if valid {
      NeedAt(w, UI, NeedChannelHost, 0);
    }
  }

  lemma SimpleNeeds(w: World, task: Task)
    requires Inv(w) && Code(task) <= w.threads.At(Place(task)) && !task.OnEstablishedOnMain? && !task.OnEstablishedOnIO?
    ensures Needed(task) <= w.memory.flags
  {
    match task
    case InitVizHost => NeedAt(w, HostIO, NeedServer, 0);
    case BindVizMain => NeedAt(w, GpuMain, NeedVizMain, 0);
    case SetRootContext => NeedAt(w, RootThread, NeedRootReady, 0);
    case RootBeginFrame => NeedAt(w, RootThread, NeedRootReady, 0);
    case SetInkContext => NeedAt(w, InkThread, NeedInkReady, 0);
    case InkBeginFrame => NeedAt(w, InkThread, NeedInkReady, 0);
    case InkDraw => NeedAt(w, InkThread, NeedInkReady, 0);
    case _ =>
  }

  // ----- runs to their end -----

  const CLIENTFLAGS: set<Flag> := {RootClient, ChildClient, Observing}

  lemma BindTasks(ts: Threads)
    requires ts == Threads(SERVICEPART, [], [], [], [], [])
    ensures EnqueueAll(ts, [(RootThread, BindRoot), (InkThread, BindInk)])
         == Threads(SERVICEPART, [], [], [], Code(BindRoot), Code(BindInk))
  {
    assert [(RootThread, BindRoot), (InkThread, BindInk)][1..] == [(InkThread, BindInk)];
    EnqueueOne(Enqueue(ts, RootThread, BindRoot), InkThread, BindInk);
  }

  /** The UI thread has posted InitIPCServer but not yet InitVizMain. */
  lemma Forked() returns (w: World)
    ensures Reachable(w) && w.memory == Memory(CLIENTFLAGS + {HostRunner}, 0, 0, false)
    ensures w.threads == Threads([Post(GpuMain, InitVizMain), LAUNCH], Code(InitIPCServer), [], [], Code(BindRoot), Code(BindInk))
  {
    var rest := [Post(GpuMain, InitVizMain), LAUNCH];
    var m1 := Memory(CLIENTFLAGS, 0, 0, false);
    ReachStart();
    Reach(START, Create);
    var w0 := Apply(START, Create);
    DemoParts();
    HostPartEffect(w0.memory);
    assert With(w0.memory, CLIENTFLAGS) == m1;
    var w1 := Runs(w0, UI, HOSTPART, SERVICEPART, m1, [(RootThread, BindRoot), (InkThread, BindInk)]);
    BindTasks(w0.threads.With(UI, SERVICEPART));
    RunsTwo(m1, Set(HostRunner), Post(HostIO, InitIPCServer), With(m1, {HostRunner}));
    w := RunsPosting(w1, UI, FORKED, rest, With(m1, {HostRunner}), HostIO, InitIPCServer);
  }

  ghost predicate ReadyToLaunch(w: World, gpuMain: seq<Instr>) {
    && Reachable(w) && w.memory == Memory(CLIENTFLAGS + {HostRunner} + {ServerChannel}, 0, 0, false)
    && w.threads == Threads([LAUNCH], [], [], gpuMain, Code(BindRoot), Code(BindInk))
  }

  lemma ServerTask(w: World, ui: seq<Instr>, gpuMain: seq<Instr>, root: seq<Instr>, ink: seq<Instr>) returns (v: World)
    requires Reachable(w) && w.threads == Threads(ui, Code(InitIPCServer), [], gpuMain, root, ink)
    ensures Reachable(v) && v.threads == Threads(ui, [], [], gpuMain + Code(InitIPCClient), root, ink)
    ensures v.memory == With(w.memory, {ServerChannel})
  {
    ServerEffect(w.memory);
    v := RunsPosting(w, HostIO, Code(InitIPCServer), [], With(w.memory, {ServerChannel}), GpuMain, InitIPCClient);
  }

  lemma PostVizMain(w: World, hostIO: seq<Instr>, gpuMain: seq<Instr>, root: seq<Instr>, ink: seq<Instr>) returns (v: World)
    requires Reachable(w) && w.threads == Threads([Post(GpuMain, InitVizMain), LAUNCH], hostIO, [], gpuMain, root, ink)
    ensures Reachable(v) && v.threads == Threads([LAUNCH], hostIO, [], gpuMain + Code(InitVizMain), root, ink)
    ensures v.memory == w.memory
  {
    RunsOne(w.memory, Post(GpuMain, InitVizMain));
    v := RunsPosting(w, UI, [Post(GpuMain, InitVizMain)], [LAUNCH], w.memory, GpuMain, InitVizMain);
  }

  lemma VizMainFirstRun() returns (w: World)
    ensures ReadyToLaunch(w, Code(InitVizMain) + Code(InitIPCClient))
  {
    w := Forked();
    w := PostVizMain(w, Code(InitIPCServer), [], Code(BindRoot), Code(BindInk));
    assert [] + Code(InitVizMain) == Code(InitVizMain);
    w := ServerTask(w, [LAUNCH], Code(InitVizMain), Code(BindRoot), Code(BindInk));
  }

  lemma ClientFirstRun() returns (w: World)
    ensures ReadyToLaunch(w, Code(InitIPCClient) + Code(InitVizMain))
  {
    w := Forked();
    w := ServerTask(w, [Post(GpuMain, InitVizMain), LAUNCH], [], Code(BindRoot), Code(BindInk));
    assert [] + Code(InitIPCClient) == Code(InitIPCClient);
    w := PostVizMain(w, [], Code(InitIPCClient), Code(BindRoot), Code(BindInk));
  }

  lemma Launch() returns (w: World)
    ensures Reachable(w) && w.threads.ui == w.threads.hostIO == w.threads.gpuIO == []
    ensures w.threads.gpuMain == Code(InitVizMain) + Code(InitIPCClient)
    ensures w.memory.requests == w.memory.calls == 1 && {HostRunner, RootClient, ChildClient} <= w.memory.flags
    ensures w.threads.root == Code(BindRoot) && w.threads.ink == Code(BindInk)
  {
    var w0 := VizMainFirstRun();
    var m := With(w0.memory, {Launched});
    RunsOne(w0.memory, LAUNCH);
    var w1 := RunsPosting(w0, UI, [LAUNCH], [], m, HostIO, InitVizHost);
    VizHostEffect(m);
    w := Runs(w1, HostIO, Code(InitVizHost), [], With(m, {GpuHost}).(requests := 1, calls := 1), []);
  }

  /** The host has asked for VizMain and for the gpu channel, and gpu-main has made VizMain and its channel. */
  lemma Asked() returns (w: World)
    ensures Reachable(w) && w.threads.ui == w.threads.hostIO == w.threads.gpuIO == w.threads.gpuMain == []
    ensures w.memory.requests == w.memory.calls == 1
    ensures {HostRunner, RootClient, ChildClient, VizMain, ChannelReady} <= w.memory.flags
    ensures w.threads.root == Code(BindRoot) && w.threads.ink == Code(BindInk)
  {
    var w0 := Launch();
    var m := With(w0.memory, {VizMain});
    VizMainEffect(w0.memory);
    var w1 := Runs(w0, GpuMain, Code(InitVizMain), Code(InitIPCClient), m, []);
    ClientEffect(m);
    w := Runs(w1, GpuMain, Code(InitIPCClient), [], With(m, {ClientChannel, ChannelReady}), []);
  }

  lemma Bound() returns (w: World)
    ensures Reachable(w) && w.threads.ui == w.threads.hostIO == w.threads.gpuIO == w.threads.gpuMain == []
    ensures w.memory.requests == 0 && w.memory.calls == 1 && {HostRunner, RootClient, ChildClient, VizMainBound} <= w.memory.flags
    ensures w.threads.root == Code(BindRoot) && w.threads.ink == Code(BindInk)
  {
    var w0 := Asked();
    Reach(w0, DeliverRequest(false));
    var w1 := Apply(w0, DeliverRequest(false));
    ForwardEffect(w1.memory);
    var w2 := RunsPosting(w1, GpuIO, Code(ForwardRequest), [], w1.memory, GpuMain, BindVizMain);
    BindVizMainEffect(w2.memory);
    w := Runs(w2, GpuMain, Code(BindVizMain), [], With(w2.memory, {VizMainBound}), []);
  }

  const CONTEXTPOSTS := [(RootThread, SetRootContext), (InkThread, SetInkContext)]

  lemma HandoverOnly(m: Memory)
    requires {RootClient, ChildClient} <= m.flags
    ensures Effects(m, HANDOVER, With(m, {HandedOver}), CONTEXTPOSTS)
  {
    var a, b := [Use(RootClient), Post(RootThread, SetRootContext)], [Use(ChildClient), Post(InkThread, SetInkContext), Set(HandedOver)];
    RunsTwo(m, Use(RootClient), Post(RootThread, SetRootContext), m);
    RunsThree(m, Use(ChildClient), Post(InkThread, SetInkContext), Set(HandedOver), m, m);
    Then(m, a, m, [(RootThread, SetRootContext)], b, With(m, {HandedOver}), [(InkThread, SetInkContext)]);
    assert HANDOVER == a + b;
  }

  lemma HandoverEffect(m: Memory, valid: bool)
    requires {RootClient, ChildClient} <= m.flags && (valid ==> GpuChannelHost in m.flags)
    ensures Effects(m, Code(OnEstablishedOnMain(valid)), With(m, {HandedOver}), CONTEXTPOSTS)
  {
    HandoverOnly(m);
    if valid {
      RunsOne(m, Use(GpuChannelHost));
      Then(m, [Use(GpuChannelHost)], m, [], HANDOVER, With(m, {HandedOver}), CONTEXTPOSTS);
      assert [] + CONTEXTPOSTS == CONTEXTPOSTS;
    } else {
      assert [] + HANDOVER == HANDOVER;
    }
  }

  /** The service's answer is in, with a valid handle. */
  lemma Answered() returns (w: World)
    ensures Reachable(w) && w.threads.hostIO == w.threads.gpuIO == w.threads.gpuMain == []
    ensures w.threads.ui == Code(OnEstablishedOnMain(true)) && w.memory.requests == w.memory.calls == 0
    ensures w.threads.root == Code(BindRoot) && w.threads.ink == Code(BindInk)
    ensures {RootClient, ChildClient, GpuChannelHost} <= w.memory.flags
  {
    var w0 := Bound();
    Reach(w0, Established(true));
    var w1 := Apply(w0, Established(true));
    EstablishedEffect(w1.memory, true);
    w := RunsPosting(w1, HostIO, Code(OnEstablishedOnIO(true)), [], With(w1.memory, {GpuChannelHost}), UI, OnEstablishedOnMain(true));
  }

  lemma ContextTasks(ts: Threads)
    ensures EnqueueAll(ts, CONTEXTPOSTS)
         == Enqueue(Enqueue(ts, RootThread, SetRootContext), InkThread, SetInkContext)
  {
    assert CONTEXTPOSTS[1..] == [(InkThread, SetInkContext)];
    EnqueueOne(Enqueue(ts, RootThread, SetRootContext), InkThread, SetInkContext);
  }

  lemma Reported() returns (w: World)
    ensures Reachable(w) && w.memory.requests == w.memory.calls == 0
    ensures w.threads == Threads([], [], [], [], Code(BindRoot) + Code(SetRootContext), Code(BindInk) + Code(SetInkContext))
    ensures {GpuChannelHost, HandedOver} <= w.memory.flags
  {
    var w0 := Answered();
    HandoverEffect(w0.memory, true);
    ContextTasks(w0.threads.With(UI, []));
    w := Runs(w0, UI, Code(OnEstablishedOnMain(true)), [], With(w0.memory, {HandedOver}), CONTEXTPOSTS);
  }

  /** Two instructions that post nothing. */
  lemma RunsPair(w: World, t: Thread, a: Instr, b: Instr, tail: seq<Instr>, m1: Memory) returns (v: World)
    requires Reachable(w) && w.threads.At(t) == [a, b] + tail && m1 == Execute(w.memory, a)
    requires Posts(w.memory, a) == Posts(m1, b) == []
    ensures Reachable(v) && v.memory == Execute(m1, b) && v.threads == w.threads.With(t, tail)
  {
    RunsTwo(w.memory, a, b, m1);
    v := Runs(w, t, [a, b], tail, Execute(m1, b), []);
  }

  lemma InkBinds(w: World) returns (v: World)
    requires Reachable(w) && w.threads.ink == Code(BindInk) + Code(SetInkContext)
    ensures Reachable(v) && v.memory == With(With(w.memory, {InkReceiver}), {InkReady})
    ensures v.threads == w.threads.(ink := Code(SetInkContext))
  {
    v := RunsPair(w, InkThread, Set(InkReceiver), Set(InkReady), Code(SetInkContext), With(w.memory, {InkReceiver}));
  }

  lemma InkGetsContext(w: World) returns (v: World)
    requires Reachable(w) && w.threads.ink == Code(SetInkContext) && InkReady in w.memory.flags
    ensures Reachable(v) && v.memory == With(w.memory, {InkContext}) && v.threads == w.threads.(ink := [])
  {
    assert Code(SetInkContext) == Code(SetInkContext) + [];
    v := RunsPair(w, InkThread, Use(InkReady), Set(InkContext), [], w.memory);
  }

  lemma RootBinds(w: World) returns (v: World)
    requires Reachable(w) && w.threads.root == Code(BindRoot) + Code(SetRootContext)
    ensures Reachable(v) && v.memory == With(With(w.memory, {RootReceiver}), {RootReady})
    ensures v.threads == w.threads.(root := Code(SetRootContext))
  {
    v := RunsPair(w, RootThread, Set(RootReceiver), Set(RootReady), Code(SetRootContext), With(w.memory, {RootReceiver}));
  }

  lemma RootGetsContext(w: World) returns (v: World)
    requires Reachable(w) && w.threads.root == Code(SetRootContext) && RootReady in w.memory.flags
    ensures Reachable(v) && v.memory == With(w.memory, {RootContext}) && v.threads == w.threads.(root := [])
  {
    assert Code(SetRootContext) == Code(SetRootContext) + [];
    v := RunsPair(w, RootThread, Use(RootReady), Set(RootContext), [], w.memory);
  }

  // ----- the service itself -----

  /** The name VizMain goes by, `viz.mojom.VizMain`. */
  const VIZMAINNAME := "viz.mojom.VizMain"

  class GpuService {
    var hostMainThreadRunner: bool
    var serverChannel: bool
    var clientChannel: bool
    var channelReady: bool
    var vizMain: bool
    var vizMainBound: bool
    var gpuHost: bool
    var gpuChannelHost: bool
    var requests: nat
    var calls: nat
    var posted: seq<(Thread, Task)>

    predicate Has(f: Flag)
      reads this
    {
      match f
      case HostRunner => hostMainThreadRunner
      case ServerChannel => serverChannel
      case ClientChannel => clientChannel
      case ChannelReady => channelReady
      case VizMain => vizMain
      case VizMainBound => vizMainBound
      case GpuHost => gpuHost
      case GpuChannelHost => gpuChannelHost
      case _ => false
    }

    function Flags(): set<Flag>
      reads this
    {
      set f: Flag | Has(f)
    }

    /** The memory, when the pointers of the other objects are `rest`. */
    function Value(rest: set<Flag>): Memory
      reads this
    {
      Memory(Flags() + rest, requests, calls, false)
    }

    ghost predicate Did(m: Memory, before: seq<(Thread, Task)>, code: seq<Instr>, rest: set<Flag>)
      reads this
    {
      Value(rest) == ExecuteAll(m, code) && posted == before + PostsOf(m, code)
    }

    /** What the service's part of InitializeDemo does: the runner, then three tasks in this order. */
    constructor (ghost rest: set<Flag>)
      ensures Did(Memory(rest, 0, 0, false), [], SERVICEPART, rest + {Launched})
      ensures Has(HostRunner) && forall f :: Has(f) ==> f == HostRunner
    {
      hostMainThreadRunner := true;
      serverChannel, clientChannel, channelReady, vizMain, vizMainBound := false, false, false, false, false;
      gpuHost, gpuChannelHost := false, false;
      requests, calls := 0, 0;
      posted := [(HostIO, InitIPCServer), (GpuMain, InitVizMain), (HostIO, InitVizHost)];
      new;
      ServicePartEffect(Memory(rest, 0, 0, false));
      assert Flags() == {HostRunner};
      assert Flags() + (rest + {Launched}) == rest + {HostRunner, Launched};
    }

    method PostTask(to: Thread, task: Task)
      modifies `posted
      ensures posted == old(posted) + [(to, task)]
    {
      posted := posted + [(to, task)];
    }

    method RunInitIPCServer(ghost rest: set<Flag>)
      modifies `serverChannel, `posted
      ensures Did(old(Value(rest)), old(posted), Code(InitIPCServer), rest)
    {
      ServerEffect(Value(rest));
      serverChannel := true;
      PostTask(GpuMain, InitIPCClient);
      assert Flags() == old(Flags()) + {ServerChannel};
    }

    method RunInitIPCClient(ghost rest: set<Flag>)
      modifies `clientChannel, `channelReady
      ensures Did(old(Value(rest)), old(posted), Code(InitIPCClient), rest)
    {
      ClientEffect(Value(rest));
      clientChannel := true;
      assert clientChannel;
      channelReady := true;
      assert Flags() == old(Flags()) + {ClientChannel, ChannelReady};
    }

    method RunInitVizMain(ghost rest: set<Flag>)
      modifies `vizMain
      ensures Did(old(Value(rest)), old(posted), Code(InitVizMain), rest)
    {
      VizMainEffect(Value(rest));
      vizMain := true;
      assert vizMain;
      assert Flags() == old(Flags()) + {VizMain};
    }

    /** What the code demands of the posting order, as a precondition. */
    method RunInitVizHost(ghost rest: set<Flag>)
      requires serverChannel
      modifies `requests, `gpuHost, `calls
      ensures Did(old(Value(rest)), old(posted), Code(InitVizHost), rest)
    {
      assert Has(ServerChannel);
      VizHostEffect(Value(rest));
      requests := requests + 1;
      gpuHost := true;
      assert gpuHost;
      calls := calls + 1;
      assert Flags() == old(Flags()) + {GpuHost};
    }

    method RunBindVizMain(ghost rest: set<Flag>)
      requires vizMain
      modifies `vizMainBound
      ensures Did(old(Value(rest)), old(posted), Code(BindVizMain), rest)
    {
      assert Has(VizMain);
      BindVizMainEffect(Value(rest));
      vizMainBound := true;
      assert Flags() == old(Flags()) + {VizMainBound};
    }

    /** A request for VizMain is bound at once on gpu-main, and posted there from any other thread; a request for
        another interface is ignored. */
    method OnAssociatedInterfaceRequest(interfaceName: string, onGpuMain: bool, ghost rest: set<Flag>)
      requires interfaceName == VIZMAINNAME && onGpuMain ==> vizMain
      modifies `vizMainBound, `posted
      ensures interfaceName == VIZMAINNAME ==>
                Did(old(Value(rest)), old(posted), Code(if onGpuMain then BindVizMain else ForwardRequest), rest)
      ensures interfaceName != VIZMAINNAME ==> Value(rest) == old(Value(rest)) && posted == old(posted)
    {
      if interfaceName != VIZMAINNAME {
        return;
      }
      if onGpuMain {
        RunBindVizMain(rest);
      } else {
        ForwardEffect(Value(rest));
        PostTask(GpuMain, BindVizMain);
        assert Flags() == old(Flags());
      }
    }

    method RunOnEstablishedOnIO(valid: bool, ghost rest: set<Flag>)
      requires hostMainThreadRunner
      modifies `gpuChannelHost, `posted
      ensures Did(old(Value(rest)), old(posted), Code(OnEstablishedOnIO(valid)), rest)
    {
      assert Has(HostRunner);
      EstablishedEffect(Value(rest), valid);
      if valid {
        gpuChannelHost := true;
      }
      PostTask(UI, OnEstablishedOnMain(valid));
      assert Flags() == old(Flags()) + if valid then {GpuChannelHost} else {};
    }

    /** Both clients are given a context provider, on their own threads. */
    method RunOnEstablishedOnMain(valid: bool, ghost rest: set<Flag>)
      requires {RootClient, ChildClient} <= rest && (valid ==> gpuChannelHost)
      modifies `posted
      ensures Did(old(Value(rest)), old(posted), Code(OnEstablishedOnMain(valid)), rest + {HandedOver})
    {
      assert valid ==> Has(GpuChannelHost);
      HandoverEffect(Value(rest), valid);
      PostTask(RootThread, SetRootContext);
      PostTask(InkThread, SetInkContext);
      assert posted == old(posted) + CONTEXTPOSTS;
      assert Flags() == old(Flags());
      assert Flags() + (rest + {HandedOver}) == Flags() + rest + {HandedOver};
    }
  }
}
