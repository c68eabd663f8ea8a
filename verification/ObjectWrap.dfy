/** node::ObjectWrap: a native wrapper tied to a JS object by a persistent handle that is weak until
    someone takes a reference, and a collector that may run between any two steps.

    Wrappers and JS objects are numbered as they are made. `roots` are the objects JS can reach;
    which of them JS lets go, and when the collector takes what, is left open.
 */
module ObjectWrap {
  import opened Options

  /** `target` is the object the persistent handle names. */
  datatype Wrapper = Wrapper(refs: int, target: Option<nat>, weak: bool)

  const UNWRAPPED := Wrapper(0, None, false)

  function Wrapped(x: Wrapper, obj: nat): Wrapper { x.(target := Some(obj), weak := true) }

  function Reffed(x: Wrapper): Wrapper { x.(weak := false, refs := x.refs + 1) }

  function Unreffed(x: Wrapper): Wrapper {
    x.(refs := x.refs - 1, weak := x.weak || x.refs - 1 == 0)
  }

  /** `field` is an object's internal field 0. `built` remembers the wrapper made for each object,
      `called` which wrapper each call of hello reached, `failed` a broken assert or a use of
      a deleted wrapper, `deleted` every deletion. */
  datatype World = World(
    wrappers: map<nat, Wrapper>, nextWrapper: nat,
    field: map<nat, Option<nat>>, nextObject: nat, roots: set<nat>,
    built: map<nat, nat>, called: seq<(nat, nat)>, deleted: multiset<nat>, failed: bool)

  const START := World(map[], 0, map[], 0, {}, map[], [], multiset{}, false)

  datatype Event =
    | NewObject
    | V8New(obj: nat)
    | V8Hello(obj: nat)
    | Ref(wrapper: nat)
    | Unref(wrapper: nat)
    | Drop(obj: nat)
    | Reach(obj: nat)
    | Collect(obj: nat)

  function Failed(w: World): World { w.(failed := true) }

  function Holders(w: World, obj: nat): set<nat> {
    set x | x in w.wrappers && w.wrappers[x].target == Some(obj)
  }

  function Apply(w: World, e: Event): World {
    match e
    case NewObject =>
      w.(field := w.field[w.nextObject := None], roots := w.roots + {w.nextObject}, nextObject := w.nextObject + 1)
    case V8New(obj) =>
      w.(wrappers := w.wrappers[w.nextWrapper := Wrapped(UNWRAPPED, obj)],
         field := w.field[obj := Some(w.nextWrapper)],
         built := w.built[obj := w.nextWrapper],
         nextWrapper := w.nextWrapper + 1)
    case V8Hello(obj) =>
      if obj in w.field && w.field[obj].Some? && w.field[obj].value in w.wrappers then
        w.(called := w.called + [(obj, w.field[obj].value)])
      else Failed(w)
    case Ref(x) =>
      if x !in w.wrappers || w.wrappers[x].target.None? then Failed(w)
      else w.(wrappers := w.wrappers[x := Reffed(w.wrappers[x])])
    case Unref(x) =>
      if x !in w.wrappers || w.wrappers[x].target.None? || w.wrappers[x].weak || w.wrappers[x].refs <= 0 then Failed(w)
      else w.(wrappers := w.wrappers[x := Unreffed(w.wrappers[x])])
    case Drop(obj) => w.(roots := w.roots - {obj})
    case Reach(obj) => w.(roots := w.roots + {obj})
    case Collect(obj) =>
      var gone := Holders(w, obj);
      w.(wrappers := w.wrappers - gone, field := w.field - {obj}, deleted := w.deleted + multiset(gone),
         failed := w.failed || exists x :: x in gone && w.wrappers[x].refs != 0)
  }

  /** References taken on `x` and not given back. */
  function Outstanding(events: seq<Event>, x: nat): int {
    if events == [] then 0
    else
      Outstanding(events[..|events| - 1], x)
      + match events[|events| - 1] case Ref(y) => (if x == y then 1 else 0) case Unref(y) => (if x == y then -1 else 0) case _ => 0
  }

  /** Native code reaches a wrapper through an object JS can reach, or through a reference it took. */
  ghost predicate Usable(w: World, before: seq<Event>, x: nat) {
    (exists obj :: obj in w.roots && obj in w.built && w.built[obj] == x) || Outstanding(before, x) > 0
  }

  /** V8New runs once per object, in its construct call. References are balanced: Unref gives back one
      that was taken. The collector takes only what neither JS nor a strong handle holds. */
  ghost predicate Enabled(before: seq<Event>, w: World, e: Event) {
    match e
    case NewObject => true
    case V8New(obj) => obj in w.roots && obj !in w.built
    case V8Hello(obj) => obj in w.roots && obj in w.built
    case Ref(x) => Usable(w, before, x)
    case Unref(x) => Outstanding(before, x) > 0
    case Drop(obj) => true
    case Reach(obj) => obj in w.built && Outstanding(before, w.built[obj]) > 0
    case Collect(obj) =>
      obj in w.field && obj !in w.roots && forall x :: x in w.wrappers && w.wrappers[x].target == Some(obj) ==> w.wrappers[x].weak
  }

  function Exec(events: seq<Event>): World {
    if events == [] then START else Apply(Exec(events[..|events| - 1]), events[|events| - 1])
  }

  ghost predicate Feasible(events: seq<Event>) {
    events != [] ==>
      var before := events[..|events| - 1];
      Feasible(before) && Enabled(before, Exec(before), events[|events| - 1])
  }

  // ----- the invariant -----

  /** A live wrapper and its object name each other, and its handle is weak exactly without references. */
  predicate Tied(w: World, x: nat) {
    x in w.wrappers ==>
      var t := w.wrappers[x];
      && t.target.Some? && x < w.nextWrapper
      && t.target.value in w.field && w.field[t.target.value] == Some(x)
      && t.target.value in w.built && w.built[t.target.value] == x
      && t.refs >= 0 && (t.weak <==> t.refs == 0)
  }

  predicate ObjectTied(w: World, obj: nat) {
    && (obj in w.field ==>
          && obj < w.nextObject
          && w.field[obj] == (if obj in w.built then Some(w.built[obj]) else None)
          && (obj in w.built ==> w.built[obj] in w.wrappers && w.wrappers[w.built[obj]].target == Some(obj)))
    && (obj in w.roots ==> obj in w.field)
    && (obj in w.built ==> obj < w.nextObject && w.built[obj] < w.nextWrapper)
  }

  predicate Counted(w: World, outstanding: int, x: nat) {
    && outstanding == (if x in w.wrappers then w.wrappers[x].refs else 0)
    && w.deleted[x] == (if x < w.nextWrapper && x !in w.wrappers then 1 else 0)
  }

  ghost predicate Injective(m: map<nat, nat>) {
    forall a, b :: a in m && b in m && m[a] == m[b] ==> a == b
  }

  ghost predicate Inv(events: seq<Event>, w: World) {
    && !w.failed
    && (forall x: nat :: Tied(w, x) && Counted(w, Outstanding(events, x), x))
    && (forall obj: nat :: ObjectTied(w, obj))
    && Injective(w.built)
    && (forall c :: c in w.called ==> c.0 in w.built && w.built[c.0] == c.1)
  }

  lemma {:induction false} OutstandingStep(before: seq<Event>, e: Event, x: nat)
    ensures Outstanding(before + [e], x) == Outstanding(before, x)
            + match e case Ref(y) => (if x == y then 1 else 0) case Unref(y) => (if x == y then -1 else 0) case _ => 0
  {
    assert (before + [e])[..|before|] == before;
  }

  lemma {:induction false} CollectStep(before: seq<Event>, w: World, obj: nat)
    requires Inv(before, w) && Enabled(before, w, Collect(obj))
    ensures Inv(before + [Collect(obj)], Apply(w, Collect(obj)))
  {
    var w' := Apply(w, Collect(obj));
    var gone := Holders(w, obj);
    assert ObjectTied(w, obj);
    forall x | x in gone ensures w.wrappers[x].refs == 0 && obj in w.built && x == w.built[obj] {
      assert Tied(w, x);
    }
    forall x: nat ensures Tied(w', x) && Counted(w', Outstanding(before + [Collect(obj)], x), x) {
      OutstandingStep(before, Collect(obj), x);
      assert Tied(w, x) && Counted(w, Outstanding(before, x), x);
    }
    forall o: nat ensures ObjectTied(w', o) {
      assert ObjectTied(w, o);
    }
  }

  lemma {:induction false} ReferenceStep(before: seq<Event>, w: World, e: Event)
    requires Inv(before, w) && Enabled(before, w, e) && (e.Ref? || e.Unref?)
    ensures Inv(before + [e], Apply(w, e))
  {
    var w', y := Apply(w, e), e.wrapper;
    assert Counted(w, Outstanding(before, y), y) && Tied(w, y);
    if e.Ref? {
      if obj :| obj in w.roots && obj in w.built && w.built[obj] == y {
        assert ObjectTied(w, obj);
      }
    }
    forall x: nat ensures Tied(w', x) && Counted(w', Outstanding(before + [e], x), x) {
      OutstandingStep(before, e, x);
      assert Tied(w, x) && Counted(w, Outstanding(before, x), x);
    }
    forall o: nat ensures ObjectTied(w', o) {
      assert ObjectTied(w, o);
    }
  }

  lemma {:induction false} NewStep(before: seq<Event>, w: World, obj: nat)
    requires Inv(before, w) && Enabled(before, w, V8New(obj))
    ensures Inv(before + [V8New(obj)], Apply(w, V8New(obj)))
  {
    var e := V8New(obj);
    var w' := Apply(w, e);
    assert ObjectTied(w, obj);
    forall x: nat ensures Tied(w', x) && Counted(w', Outstanding(before + [e], x), x) {
      OutstandingStep(before, e, x);
      assert Tied(w, x) && Counted(w, Outstanding(before, x), x);
    }
    forall o: nat ensures ObjectTied(w', o) && (o in w.built ==> w.built[o] != w.nextWrapper) {
      assert ObjectTied(w, o);
    }
  }

  lemma {:induction false} OtherStep(before: seq<Event>, w: World, e: Event)
    requires Inv(before, w) && Enabled(before, w, e) && (e.NewObject? || e.V8Hello? || e.Drop? || e.Reach?)
    ensures Inv(before + [e], Apply(w, e))
  {
    var w' := Apply(w, e);
    match e {
      case NewObject => assert ObjectTied(w, w.nextObject);
      case V8Hello(obj) => assert ObjectTied(w, obj);
      case Reach(obj) =>
        assert ObjectTied(w, obj) && Tied(w, w.built[obj]) && Counted(w, Outstanding(before, w.built[obj]), w.built[obj]);
      case _ =>
    }
    forall x: nat ensures Tied(w', x) && Counted(w', Outstanding(before + [e], x), x) {
      OutstandingStep(before, e, x);
      assert Tied(w, x) && Counted(w, Outstanding(before, x), x);
    }
    forall o: nat ensures ObjectTied(w', o) {
      assert ObjectTied(w, o);
    }
  }

  lemma {:induction false} RunInv(events: seq<Event>)
    requires Feasible(events)
    ensures Inv(events, Exec(events))
  {
    if events != [] {
      var n := |events| - 1;
      RunInv(events[..n]);
      assert events == events[..n] + [events[n]];
      var w, e := Exec(events[..n]), events[n];
      if e.Collect? {
        CollectStep(events[..n], w, e.obj);
      } else if e.V8New? {
        NewStep(events[..n], w, e.obj);
      } else if e.Ref? || e.Unref? {
        ReferenceStep(events[..n], w, e);
      } else {
        OtherStep(events[..n], w, e);
      }
    }
  }

  // ----- what it means -----

  /** In every run with balanced references no assert fails and no deleted wrapper is used. */
  lemma {:induction false} AssertsHold(events: seq<Event>)
    requires Feasible(events)
    ensures !Exec(events).failed
  {
    RunInv(events);
  }

  /** A live wrapper's count is the references outstanding on it, and its handle is weak exactly at zero;
      a wrapper with references outstanding is alive. */
  lemma {:induction false} WeakIffUnreferenced(events: seq<Event>, x: nat)
    requires Feasible(events)
    ensures var w := Exec(events);
            && (x in w.wrappers ==>
                  && w.wrappers[x].refs == Outstanding(events, x)
                  && (w.wrappers[x].weak <==> Outstanding(events, x) == 0))
            && (Outstanding(events, x) > 0 ==> x in w.wrappers)
  {
    RunInv(events);
    var w := Exec(events);
    assert Tied(w, x) && Counted(w, Outstanding(events, x), x);
  }

  /** Each wrapper ever made is either alive or was deleted once. */
  lemma {:induction false} DeletedOnce(events: seq<Event>, x: nat)
    requires Feasible(events)
    ensures var w := Exec(events);
            w.deleted[x] == if x < w.nextWrapper && x !in w.wrappers then 1 else 0
  {
    RunInv(events);
    assert Counted(Exec(events), Outstanding(events, x), x);
  }

  /** A live wrapper and a live object it was built for name each other: `x` is tied to its own object,
      and `obj` to its own wrapper. */
  lemma {:induction false} Bijection(events: seq<Event>, x: nat, obj: nat)
    requires Feasible(events)
    ensures var w := Exec(events);
            && (x in w.wrappers ==>
                  w.wrappers[x].target.Some? && w.wrappers[x].target.value in w.field
                  && w.field[w.wrappers[x].target.value] == Some(x))
            && (obj in w.field && w.field[obj].Some? ==>
                  w.field[obj].value in w.wrappers && w.wrappers[w.field[obj].value].target == Some(obj))
  {
    RunInv(events);
    assert Tied(Exec(events), x) && ObjectTied(Exec(events), obj);
  }

  /** Every call of hello reached the wrapper that V8New built for its object, and a call made now would too. */
  lemma {:induction false} HelloReachesItsBinding(events: seq<Event>, obj: nat)
    requires Feasible(events)
    ensures var w := Exec(events);
            && (forall c :: c in w.called ==> c.0 in w.built && w.built[c.0] == c.1)
            && (obj in w.roots && obj in w.built ==>
                  obj in w.field && w.field[obj] == Some(w.built[obj])
                  && Apply(w, V8Hello(obj)) == w.(called := w.called + [(obj, w.built[obj])]))
  {
    RunInv(events);
    assert ObjectTied(Exec(events), obj);
  }

  // ----- what the events say -----

  /** The objects hello was called on, in order. */
  function Hellos(events: seq<Event>): seq<nat> {
    if events == [] then []
    else
      var e := events[|events| - 1];
      Hellos(events[..|events| - 1]) + if e.V8Hello? then [e.obj] else []
  }

  function Made(events: seq<Event>): nat {
    if events == [] then 0 else Made(events[..|events| - 1]) + if events[|events| - 1].NewObject? then 1 else 0
  }

  function Builds(events: seq<Event>): nat {
    if events == [] then 0 else Builds(events[..|events| - 1]) + if events[|events| - 1].V8New? then 1 else 0
  }

  /** The objects that are there are those made and not collected, the wrappers those of V8New calls, and
      every call of hello was made. */
  ghost predicate Recorded(events: seq<Event>, w: World, obj: nat) {
    && w.nextObject == Made(events) && w.nextWrapper == Builds(events)
    && (obj in w.field <==> obj < Made(events) && Collect(obj) !in events)
    && (obj in w.built <==> V8New(obj) in events)
    && |w.called| == |Hellos(events)| && forall i :: 0 <= i < |w.called| ==> w.called[i].0 == Hellos(events)[i]
  }

  lemma {:induction false} InAppend(before: seq<Event>, e: Event, x: Event)
    ensures x in before + [e] <==> x in before || x == e
  {
  }

  lemma {:induction false} RecordedStep(before: seq<Event>, w: World, e: Event, obj: nat)
    requires Inv(before, w) && Enabled(before, w, e) && Recorded(before, w, obj) && Collect(Made(before)) !in before
    ensures Recorded(before + [e], Apply(w, e), obj)
  {
    assert (before + [e])[..|before|] == before;
    InAppend(before, e, Collect(obj));
    InAppend(before, e, V8New(obj));
    match e
    case NewObject => assert ObjectTied(w, w.nextObject);
    case V8New(o) => assert ObjectTied(w, o);
    case V8Hello(o) => assert ObjectTied(w, o);
    case Ref(x) => assert Tied(w, x);
    case _ =>
  }

  lemma {:induction false} MadeOfRun(events: seq<Event>)
    ensures Exec(events).nextObject == Made(events)
  {
    if events != [] {
      MadeOfRun(events[..|events| - 1]);
    }
  }

  /** No object comes back once it has been collected. */
  lemma {:induction false} NotMadeYet(events: seq<Event>, obj: nat)
    requires Feasible(events) && obj >= Made(events)
    ensures Collect(obj) !in events && V8New(obj) !in events
  {
    if events != [] {
      var before, e := events[..|events| - 1], events[|events| - 1];
      assert events == before + [e];
      NotMadeYet(before, obj);
      RunInv(before);
      MadeOfRun(before);
      assert ObjectTied(Exec(before), obj);
    }
  }

  lemma {:induction false} HistoryOfRun(events: seq<Event>, obj: nat)
    requires Feasible(events)
    ensures Recorded(events, Exec(events), obj)
  {
    if events != [] {
      var before, e := events[..|events| - 1], events[|events| - 1];
      assert events == before + [e];
      HistoryOfRun(before, obj);
      RunInv(before);
      NotMadeYet(before, Made(before));
      RecordedStep(before, Exec(before), e, obj);
    }
  }

  /** The wrapper V8New built for an object lives exactly until the object is collected, and is deleted then. */
  lemma {:induction false} LivesWithItsObject(events: seq<Event>, obj: nat)
    requires Feasible(events) && V8New(obj) in events
    ensures var w := Exec(events);
            && obj in w.built
            && (w.built[obj] in w.wrappers <==> Collect(obj) !in events)
            && w.deleted[w.built[obj]] == if Collect(obj) in events then 1 else 0
  {
    RunInv(events);
    HistoryOfRun(events, obj);
    var w := Exec(events);
    assert ObjectTied(w, obj);
    var x := w.built[obj];
    assert Tied(w, x) && Counted(w, Outstanding(events, x), x);
  }

  lemma {:induction false} Extend(events: seq<Event>, e: Event, w: World)
    requires Feasible(events) && Exec(events) == w && Enabled(events, w, e)
    ensures Feasible(events + [e]) && Exec(events + [e]) == Apply(w, e)
  {
    assert (events + [e])[..|events|] == events;
  }

  lemma MadeOne(w: World)
    requires w == World(map[], 0, map[0 := None], 1, {0}, map[], [], multiset{}, false)
    ensures Feasible([NewObject]) && Exec([NewObject]) == w
  {
    assert [NewObject][..0] == [];
    assert Feasible([]) && Exec([]) == START;
    assert Apply(START, NewObject) == w;
  }

  lemma BuiltOne(w: World, v: World)
    requires w == World(map[], 0, map[0 := None], 1, {0}, map[], [], multiset{}, false)
    requires v == World(map[0 := Wrapper(0, Some(0), true)], 1, map[0 := Some(0)], 1, {0}, map[0 := 0], [], multiset{}, false)
    ensures Enabled([NewObject], w, V8New(0)) && Apply(w, V8New(0)) == v
  {
  }

  /** An object is made and wrapped. */
  lemma Built(w: World)
    requires w == World(map[0 := Wrapper(0, Some(0), true)], 1, map[0 := Some(0)], 1, {0}, map[0 := 0], [], multiset{}, false)
    ensures Feasible([NewObject] + [V8New(0)]) && Exec([NewObject] + [V8New(0)]) == w
  {
    var w1 := World(map[], 0, map[0 := None], 1, {0}, map[], [], multiset{}, false);
    MadeOne(w1);
    BuiltOne(w1, w);
    Extend([NewObject], V8New(0), w1);
  }

  /** It greets, and then nobody holds it any more. */
  lemma Dropped(w: World)
    requires w == World(map[0 := Wrapper(0, Some(0), true)], 1, map[0 := Some(0)], 1, {}, map[0 := 0], [(0, 0)], multiset{}, false)
    ensures var events := [NewObject] + [V8New(0)] + [V8Hello(0)] + [Drop(0)];
            Feasible(events) && Exec(events) == w
  {
    var w2 := w.(roots := {0}, called := []);
    var w3 := w.(roots := {0});
    Built(w2);
    Extend([NewObject] + [V8New(0)], V8Hello(0), w2);
    assert Apply(w2, V8Hello(0)) == w3;
    Extend([NewObject] + [V8New(0)] + [V8Hello(0)], Drop(0), w3);
    assert Apply(w3, Drop(0)) == w;
  }

  /** A run in which an object is wrapped, greets, and is collected, and its wrapper with it. */
  lemma Lifetime()
    ensures var events := [NewObject] + [V8New(0)] + [V8Hello(0)] + [Drop(0)] + [Collect(0)];
            var w := Exec(events);
            Feasible(events) && w.called == [(0, 0)] && w.deleted == multiset{0} && w.wrappers == map[] && w.field == map[]
  {
    var w := World(map[0 := Wrapper(0, Some(0), true)], 1, map[0 := Some(0)], 1, {}, map[0 := 0], [(0, 0)], multiset{}, false);
    Dropped(w);
    assert Holders(w, 0) == {0};
    Extend([NewObject] + [V8New(0)] + [V8Hello(0)] + [Drop(0)], Collect(0), w);
  }

  // ----- the class itself -----

  class JsObject {
    var field0: Native?
  }

  /** `greetings` are the messages sent on the wrapper's remote. */
  class Native {
    var refs: int
    var handle: JsObject?
    var weak: bool
    var greetings: seq<string>

    /** This wrapper's value when its object goes by the number `name`. */
    function Value(name: nat): Wrapper
      reads this
    {
      Wrapper(refs, if handle == null then None else Some(name), weak)
    }

    constructor ()
      ensures (forall name :: Value(name) == UNWRAPPED) && greetings == []
    {
      refs := 0;
      handle := null;
      weak := false;
      greetings := [];
    }

    method Wrap(obj: JsObject)
      requires handle == null && refs == 0
      modifies `handle, `weak, obj
      ensures handle == obj && obj.field0 == this
      ensures forall name :: Value(name) == Wrapped(old(Value(name)), name)
    {
      obj.field0 := this;
      handle := obj;
      MakeWeak();
    }

    method MakeWeak()
      modifies `weak
      ensures weak
    {
      weak := true;
    }

    method Ref()
      requires handle != null
      modifies `weak, `refs
      ensures forall name :: Value(name) == Reffed(old(Value(name)))
    {
      weak := false;
      refs := refs + 1;
    }

    method Unref()
      requires handle != null && !weak && refs > 0
      modifies `weak, `refs
      ensures forall name :: Value(name) == Unreffed(old(Value(name)))
    {
      refs := refs - 1;
      if refs == 0 {
        MakeWeak();
      }
    }

    /** WeakCallback and the destructor it runs: the handle is already empty when the latter looks. */
    method WeakCallback()
      requires refs == 0
      modifies `handle, `weak
      ensures handle == null && !weak
    {
      handle := null;
      weak := false;
      Destroy();
    }

    method Destroy()
      modifies `handle, `weak
      ensures handle == null
      ensures weak == (old(weak) && old(handle) == null)
    {
      if handle == null {
        return;
      }
      weak := false;
      handle := null;
    }

    method Hello(message: string)
      modifies `greetings
      ensures greetings == old(greetings) + [message]
    {
      greetings := greetings + [message];
    }
  }

  /** The wrapper that Wrap left in the object's internal field. */
  method Unwrap(obj: JsObject) returns (x: Native)
    requires obj.field0 != null
    ensures x == obj.field0
  {
    x := obj.field0;
  }

  /** V8New: in a construct call, the fresh wrapper and the object it was made for find each other; any other
      call throws a TypeError. */
  method V8NewOn(obj: JsObject, constructCall: bool) returns (x: Native?)
    modifies obj
    ensures x != null <==> constructCall
    ensures constructCall ==>
              fresh(x) && x.handle == obj && obj.field0 == x && x.weak && x.refs == 0 && x.greetings == []
    ensures !constructCall ==> obj.field0 == old(obj.field0)
  {
    if !constructCall {
      return null;
    }
    x := new Native();
    assert x.Value(0) == UNWRAPPED;
    x.Wrap(obj);
    assert x.Value(0) == Wrapped(UNWRAPPED, 0);
  }

  /** V8Hello: one argument, a string, goes to the wrapper of the object it is called on; any other arguments
      (None stands for one that is no string) throw a TypeError. */
  method V8HelloOn(obj: JsObject, args: seq<Option<string>>) returns (ok: bool)
    requires obj.field0 != null
    modifies obj.field0`greetings
    ensures ok <==> |args| == 1 && args[0].Some?
    ensures obj.field0.greetings == old(obj.field0.greetings) + if ok then [args[0].value] else []
  {
    if |args| != 1 || args[0].None? {
      return false;
    }
    var x := Unwrap(obj);
    x.Hello(args[0].value);
    return true;
  }

  /** Two objects built one after the other: what is said to either reaches its own wrapper and not the other's. */
  method TwoBindings(a: JsObject, b: JsObject, toA: string, toB: string) returns (x: Native, y: Native)
    requires a != b
    modifies a, b
    ensures fresh(x) && fresh(y) && x != y && x.handle == a && y.handle == b
    ensures x.greetings == [toA] && y.greetings == [toB]
  {
    x := V8NewOn(a, true);
    y := V8NewOn(b, true);
    var okB := V8HelloOn(b, [Some(toB)]);
    var okA := V8HelloOn(a, [Some(toA)]);
  }
}
