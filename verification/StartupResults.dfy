/** What the start-up of demo_viz_layer keeps over every run, whatever the interleaving, and that it gets to its end. */
module StartupResults {
  import opened Startup

  /** In no interleaving does any task use what is not yet in place. */
  lemma {:induction false} NothingUsedUnset(events: seq<Event>)
    requires Feasible(START, events)
    ensures !Exec(START, events).memory.fault
  {
    StartInv();
    RunInv(START, events);
  }

  /** Whenever a thread is about to use a pointer it is set: InitVizHost finds server_channel_, Bind finds viz_main_,
      every client task finds its client bound, and OnEstablishedOnMain finds both clients and, for a
      valid handle, gpu_channel_host_. */
  lemma {:induction false} InPlaceWhenUsed(events: seq<Event>, t: Thread, f: Flag)
    requires Feasible(START, events)
    requires Exec(START, events).threads.At(t) != [] && Exec(START, events).threads.At(t)[0] == Use(f)
    ensures f in Exec(START, events).memory.flags
  {
    StartInv();
    RunInv(START, events);
    UseInPlace(Exec(START, events), t);
  }

  /** In every run, when InitVizHost is about to be posted both clients and the runner are set, and the server channel,
      viz_main_ and both bind tasks are done or in a queue ahead of whatever it leads to. */
  lemma {:induction false} LaunchInPlace(events: seq<Event>)
    requires Feasible(START, events)
    requires var ui := Exec(START, events).threads.ui; ui != [] && ui[0] == LAUNCH
    ensures LaunchedFacts(Exec(START, events))
  {
    StartInv();
    RunInv(START, events);
    LaunchReady(Exec(START, events));
  }

  /** In every run, a task that is about to begin finds all it needs in place. */
  lemma {:induction false} TaskInPlace(events: seq<Event>, task: Task)
    requires Feasible(START, events) && Code(task) <= Exec(START, events).threads.At(Place(task))
    ensures Needed(task) <= Exec(START, events).memory.flags
  {
    StartInv();
    RunInv(START, events);
    var w := Exec(START, events);
    if task.OnEstablishedOnMain? {
      ReportNeeds(w, task.valid);
    } else if task.OnEstablishedOnIO? {
      var c := Code(task);
      assert c[if task.valid then 1 else 0] == Use(HostRunner);
      NeedAt(w, HostIO, NeedRunner, if task.valid then 1 else 0);
    } else {
      SimpleNeeds(w, task);
    }
  }

  /** A client whose OnEstablishedOnMain has run has its context, or the task that sets it in its queue. */
  lemma {:induction false} ContextsHandedOver(events: seq<Event>)
    requires Feasible(START, events) && HandedOver in Exec(START, events).memory.flags
    ensures var w := Exec(START, events); Promised(w, RootThread, RootContext) && Promised(w, InkThread, InkContext)
  {
    StartInv();
    RunInv(START, events);
  }

  /** In whatever order things happened, when everything has come to rest start-up is complete: every object is there, both
      clients are bound and have their contexts, and no step was left out. Only gpu_channel_host_ depends on the reply. */
  lemma {:induction false} StartUpCompletes(events: seq<Event>)
    requires Feasible(START, events) && Exec(START, events).started && AtRest(Exec(START, events))
    ensures {RootClient, ChildClient, Observing, HostRunner, Launched, ServerChannel, ClientChannel, ChannelReady, VizMain,
             VizMainBound, GpuHost, RootReceiver, RootReady, InkReceiver, InkReady, HandedOver, RootContext, InkContext}
            <= Exec(START, events).memory.flags
  {
    StartInv();
    RunInv(START, events);
    OnItsWayRun(START, events);
  }

  /** Once the client observes, and so from the launch on, every mouse event queues a draw on its thread, where it is bound
      by then. */
  lemma {:induction false} MouseDraws(events: seq<Event>)
    requires Feasible(START, events) && Launched in Exec(START, events).memory.flags
    requires var ui := Exec(START, events).threads.ui; ui != [] && ui[0] == DispatchMouse
    ensures var w := Exec(START, events);
            && Ran(w, UI).threads.ink == w.threads.ink + [Use(InkReady)]
            && Ran(w, UI).threads.ui == w.threads.ui[1..]
  {
    StartInv();
    RunInv(START, events);
  }

  /** InitIPCClient and InitVizMain really reach gpu-main in either order. */
  lemma EitherOrder()
    ensures exists w :: ReadyToLaunch(w, Code(InitVizMain) + Code(InitIPCClient))
    ensures exists w :: ReadyToLaunch(w, Code(InitIPCClient) + Code(InitVizMain))
  {
    var a := VizMainFirstRun();
    var b := ClientFirstRun();
  }

  /** Start-up really gets to its end: a run that comes to rest with both clients' contexts set and a channel host. */
  lemma StartsUp() returns (w: World)
    ensures Reachable(w) && AtRest(w) && {GpuChannelHost, HandedOver, RootContext, InkContext} <= w.memory.flags
  {
    w := Reported();
    w := RootBinds(w);
    w := RootGetsContext(w);
    w := InkBinds(w);
    w := InkGetsContext(w);
  }
}
