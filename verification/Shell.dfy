/** The Android shell's views: a manager that shows one shell at a time, and a render view that moves
    from shell to shell. Views are objects with parent pointers, and adding a view that already has
    a parent is an error: it is the precondition of the two AddView methods. Windows, native shells and
    web contents are numbers, 0 standing for none.
 */
module ShellViews {
  import opened Options

  class RenderView {
    var parent: Shell?
    var alive: bool
    var current: nat

    constructor ()
      ensures parent == null && alive && current == 0
    {
      parent := null;
      alive := true;
      current := 0;
    }

    method SetCurrentWebContents(web: nat)
      modifies `current
      ensures current == web
    {
      current := web;
    }

    method Destroy()
      modifies `alive
      ensures !alive
    {
      alive := false;
    }
  }

  /** `views` without its first occurrence of `v`. */
  function Without<V(==)>(views: seq<V>, v: V): (r: seq<V>)
    ensures v !in views ==> r == views
    ensures v in views ==> |r| == |views| - 1 && multiset(r) == multiset(views) - multiset{v}
  {
    if views == [] then []
    else if views[0] == v then
      assert views == [v] + views[1..];
      views[1..]
    else
      assert views == [views[0]] + views[1..];
      [views[0]] + Without(views[1..], v)
  }

  class Shell {
    var parent: ShellManager?
    var holder: seq<RenderView>
    var contents: seq<nat>
    var renderView: RenderView?
    var window: nat
    var nativeShell: nat
    var webContents: nat
    var told: seq<nat>
    var cleared: seq<nat>

    constructor ()
      ensures parent == null && holder == [] && contents == [] && renderView == null
      ensures window == nativeShell == webContents == 0 && told == cleared == []
    {
      told, cleared := [], [];
      parent := null;
      holder, contents := [], [];
      renderView := null;
      window, nativeShell, webContents := 0, 0, 0;
    }

    method HolderAddView(v: RenderView)
      requires v.parent == null
      modifies `holder, v`parent
      ensures holder == old(holder) + [v] && v.parent == this
    {
      holder := holder + [v];
      v.parent := this;
    }

    method HolderRemoveView(v: RenderView)
      modifies `holder, v`parent
      ensures holder == Without(old(holder), v)
      ensures v.parent == if v in old(holder) then null else old(v.parent)
    {
      if v in holder {
        v.parent := null;
      }
      holder := Without(holder, v);
    }

    ghost static function Opt(v: RenderView?): set<RenderView> { if v == null then {} else {v} }

    method SetContentViewRenderView(v: RenderView?)
      requires v != null ==> v.parent == null
      modifies `holder, `renderView, (Opt(v) + Opt(renderView))`parent
      ensures renderView == v
      ensures v != null ==> holder == old(holder) + [v] && v.parent == this
      ensures v != null && old(renderView) != null && old(renderView) != v ==>
                old(renderView).parent == old(renderView.parent)
      ensures v == null && old(renderView) == null ==> holder == old(holder)
      ensures v == null && old(renderView) != null ==>
                && holder == Without<RenderView>(old(holder), old(renderView))
                && old(renderView).parent == if old(renderView) in old(holder) then null else old(renderView.parent)
    {
      var current := renderView;
      renderView := v;
      if v != null {
        HolderAddView(v);
      } else if current != null {
        HolderRemoveView(current);
      }
    }

    method Initialize(native: nat, window: nat)
      modifies `nativeShell, `window
      ensures nativeShell == native && this.window == window
    {
      nativeShell := native;
      this.window := window;
    }

    /** The native shell asked to close, unless it is already gone; the native side does nothing yet. */
    method Close() returns (asked: nat)
      ensures asked == nativeShell
    {
      if nativeShell == 0 {
        return 0;
      }
      return nativeShell;
    }

    method OnNativeDestroyed()
      modifies `window, `nativeShell, `webContents
      ensures window == nativeShell == webContents == 0
    {
      window, nativeShell, webContents := 0, 0, 0;
    }

    /** The contents are told that they are shown. */
    method OnShow()
      modifies `told
      ensures told == old(told) + [webContents]
    {
      told := told + [webContents];
    }

    /** The old contents lose their native side, and the new ones are told that they are shown if the shell is.
        `ok` is false when the last line finds no render view to hand them to: the rest is done, and then the
        call ends in an exception. */
    method InitFromNativeTabContents(web: nat) returns (ok: bool)
      requires web != 0 && web != webContents
      modifies `webContents, `contents, `told, `cleared, Opt(renderView)`current
      ensures webContents == web && contents == old(contents) + [web]
      ensures cleared == old(cleared) + if old(webContents) != 0 then [old(webContents)] else []
      ensures told == old(told) + if parent != null then [web] else []
      ensures renderView != null ==> ok && renderView.current == web
      ensures renderView == null ==> !ok
    {
      if webContents != 0 {
        cleared := cleared + [webContents];
      }
      webContents := web;
      if parent != null {
        OnShow();
      }
      contents := contents + [web];
      if renderView == null {
        return false;
      }
      renderView.SetCurrentWebContents(web);
      return true;
    }
  }

  /** What the shell shows, and what its contents were told, is as before. */
  twostate predicate SameContents(s: Shell)
    reads s
  {
    && s.nativeShell == old(s.nativeShell) && s.window == old(s.window) && s.webContents == old(s.webContents)
    && s.contents == old(s.contents) && s.told == old(s.told) && s.cleared == old(s.cleared)
  }

  twostate predicate SameView(v: RenderView)
    reads v
  {
    v.alive == old(v.alive) && v.current == old(v.current)
  }

  datatype Op =
    | SetWindow(window: nat)
    | Create(native: nat)
    | Remove(which: nat)
    | Launch(native: nat)
    | Destroy
    | NativeDestroyed(which: nat)
    | Contents(which: nat, web: nat)

  /** Which of the shells made so far is shown, if any, whether there is a render view, and whether it is
      the one on display. */
  datatype Shown = Shown(made: nat, active: Option<nat>, view: bool, attached: bool)

  function After(s: Shown, op: Op): Shown {
    match op
    case SetWindow(_) => s.(view := true, attached := false)
    case Create(_) => Shown(s.made + 1, Some(s.made), true, true)
    case Launch(_) => Shown(s.made + 1, Some(s.made), true, true)
    case Remove(k) => if s.active == Some(k) then s.(active := None, attached := false) else s
    case Destroy => Shown(s.made, None, false, false)
    case _ => s
  }

  /** What is shown after setWindow and then `ops`. */
  function ShownAfter(ops: seq<Op>): Shown {
    if ops == [] then Shown(0, None, true, false) else After(ShownAfter(ops[..|ops| - 1]), ops[|ops| - 1])
  }

  predicate ReplacedAt(ops: seq<Op>, k: nat)
    requires k < |ops|
  {
    ops[k].SetWindow? && ShownAfter(ops[..k]).active.Some? && ShownAfter(ops[..k]).active == ShownAfter(ops).active
  }

  /** setWindow was called while the shell now shown was already shown. */
  predicate WindowReplaced(ops: seq<Op>) {
    exists k :: 0 <= k < |ops| && ReplacedAt(ops, k)
  }

  /** Shells are numbered as they are made, so a shell shown before some are made is not one of these. */
  lemma {:induction false} ShownIsMade(ops: seq<Op>, k: nat)
    requires k <= |ops|
    ensures var past, now := ShownAfter(ops[..k]), ShownAfter(ops);
            && past.made <= now.made
            && (past.active.Some? ==> past.active.value < past.made)
            && (now.active.Some? ==> now.active.value < now.made)
  {
    if k < |ops| {
      assert ops[..|ops| - 1][..k] == ops[..k];
      ShownIsMade(ops[..|ops| - 1], k);
    } else {
      assert ops[..k] == ops;
      if ops != [] {
        ShownIsMade(ops[..|ops| - 1], |ops| - 1);
      }
    }
  }

  /** Replacing goes on as long as the shell stays, begins with a setWindow while one is shown, and ends with the shell. */
  lemma ReplacedStep(before: seq<Op>, op: Op)
    ensures var was, now := ShownAfter(before), ShownAfter(before + [op]);
            WindowReplaced(before + [op]) <==>
              now.active.Some? && now.active == was.active && (op.SetWindow? || WindowReplaced(before))
  {
    var ops := before + [op];
    assert ops[..|before|] == before;
    if k :| 0 <= k < |before| && ReplacedAt(ops, k) {
      assert ops[..k] == before[..k];
      ShownIsMade(before, k);
      assert ReplacedAt(before, k);
    }
    if WindowReplaced(before) && ShownAfter(ops).active == ShownAfter(before).active {
      var k :| 0 <= k < |before| && ReplacedAt(before, k);
      assert ops[..k] == before[..k];
      assert ReplacedAt(ops, k);
    }
    if op.SetWindow? && ShownAfter(before).active.Some? {
      assert ReplacedAt(ops, |before|);
    }
    ShownIsMade(before, |before|);
  }

  /** The manager's render view is on display exactly when a shell is shown and setWindow has not been called
      since that shell came up. */
  lemma {:induction false} AttachedIffShown(ops: seq<Op>)
    ensures ShownAfter(ops).attached <==> ShownAfter(ops).active.Some? && !WindowReplaced(ops)
  {
    if ops != [] {
      var before, op := ops[..|ops| - 1], ops[|ops| - 1];
      assert ops == before + [op];
      AttachedIffShown(before);
      ReplacedStep(before, op);
      ShownIsMade(before, |before|);
    }
  }

  lemma SecondWindowDetaches(native: nat, window: nat)
    ensures var s := ShownAfter([Create(native)] + [SetWindow(window)]); s.active.Some? && s.view && !s.attached
  {
    var ops := [Create(native)] + [SetWindow(window)];
    assert ops[..1] == [Create(native)] && [Create(native)][..0] == [];
  }

  class ShellManager {
    var window: nat
    var children: seq<Shell>
    var active: Shell?
    var renderView: RenderView?
    ghost var shells: set<Shell>
    ghost var views: set<RenderView>

    ghost function Footprint(): set<object>
      reads this
    {
      {this} + shells + views
    }

    /** The only shell shown is the active one; it and only it holds a render view, which shows its contents, and they
        have been told so. That is the manager's own unless setWindow has replaced it since. No shell was ever told that it shows no contents. */
    ghost predicate Valid()
      reads this, Footprint()
    {
      && (active == null ==> children == [])
      && (active != null ==>
            && active in shells && children == [active] && active.parent == this
            && active.renderView != null && active.renderView in views
            && active.renderView.parent == active && active.holder == [active.renderView]
            && (active.webContents != 0 ==> active.renderView.current == active.webContents && active.webContents in active.told)
            && renderView != null)
      && (renderView != null ==> renderView in views && renderView.alive)
      && (forall v :: v in views && v.parent != null ==> active != null && v == active.renderView)
      && (forall s :: s in shells && s != active ==> s.parent == null && s.renderView == null && s.holder == [])
      && (forall s :: s in shells ==> 0 !in s.told)
    }

    constructor ()
      ensures Valid() && active == null && renderView == null && shells == {} && fresh(Footprint())
    {
      window := 0;
      children := [];
      active, renderView := null, null;
      shells, views := {}, {};
    }

    /** Replaces the render view, even the one on display, which stays with its shell. */
    method SetWindow(w: nat)
      requires Valid() && w != 0
      modifies `window, `renderView, `views
      ensures Valid() && window == w
      ensures renderView != null && fresh(renderView) && renderView.parent == null && views == old(views) + {renderView}
    {
      window := w;
      renderView := new RenderView();
      views := views + {renderView};
    }

    method AddView(s: Shell)
      requires s.parent == null
      modifies `children, s`parent
      ensures children == old(children) + [s] && s.parent == this
    {
      children := children + [s];
      s.parent := this;
    }

    method RemoveView(s: Shell)
      requires s in children
      modifies `children, s`parent
      ensures children == Without(old(children), s) && s.parent == null
    {
      children := Without(children, s);
      s.parent := null;
    }

    method RemoveShell(s: Shell)
      requires Valid() && s in shells
      modifies Footprint()
      ensures Valid() && shells == old(shells) && views == old(views) && renderView == old(renderView) && window == old(window)
      ensures active == if s == old(active) then null else old(active)
      ensures s != old(active) ==> unchanged(old(Footprint()))
      ensures s.parent == null && s.holder == [] && s.renderView == null
      ensures forall t :: t in shells ==> SameContents(t)
      ensures forall v :: v in views ==> SameView(v)
    {
      if s == active {
        active := null;
      }
      if s.parent == null {
        return;
      }
      s.SetContentViewRenderView(null);
      RemoveView(s);
    }

    method ShowShell(s: Shell)
      requires Valid() && active == null && renderView != null && s in shells
      modifies Footprint()
      ensures Valid() && active == s && renderView == old(renderView) && s.renderView == renderView
      ensures s.told == old(s.told) + if s.webContents != 0 then [s.webContents] else []
      ensures renderView.current == if s.webContents != 0 then s.webContents else old(renderView.current)
      ensures s.nativeShell == old(s.nativeShell) && s.window == old(s.window) && s.webContents == old(s.webContents)
      ensures s.contents == old(s.contents) && s.cleared == old(s.cleared)
      ensures shells == old(shells) && views == old(views) && window == old(window)
      ensures forall t :: t in shells && t != s ==> SameContents(t)
      ensures forall v :: v in views && v != renderView ==> SameView(v)
    {
      s.SetContentViewRenderView(renderView);
      AddView(s);
      active := s;
      if s.webContents != 0 {
        renderView.SetCurrentWebContents(s.webContents);
        s.OnShow();
      }
    }

    method NeedRenderView()
      requires Valid()
      modifies this
      ensures Valid() && renderView != null
      ensures window == old(window) && active == old(active) && shells == old(shells)
      ensures old(renderView) != null ==> renderView == old(renderView) && views == old(views)
      ensures old(renderView) == null ==> fresh(renderView) && renderView.current == 0 && views == old(views) + {renderView}
    {
      if renderView == null {
        renderView := new RenderView();
        views := views + {renderView};
      }
    }

    method InflateShell(native: nat) returns (s: Shell)
      requires Valid()
      modifies `shells
      ensures Valid() && fresh(s) && shells == old(shells) + {s}
      ensures s.nativeShell == native && s.window == window
      ensures s.webContents == 0 && s.told == s.cleared == s.contents == []
    {
      s := new Shell();
      s.Initialize(native, window);
      shells := shells + {s};
    }

    method CreateShell(native: nat) returns (s: Shell)
      requires Valid()
      modifies Footprint()
      ensures Valid() && fresh(Footprint() - old(Footprint())) && window == old(window)
      ensures fresh(s) && shells == old(shells) + {s} && active == s && s.renderView == renderView
      ensures s.nativeShell == native && s.window == window
      ensures s.webContents == 0 && s.told == s.cleared == s.contents == []
      ensures old(renderView) != null ==> renderView == old(renderView) && views == old(views)
      ensures old(renderView) == null ==> fresh(renderView) && renderView.current == 0 && views == old(views) + {renderView}
      ensures forall t :: t in old(shells) ==> SameContents(t)
      ensures forall v :: v in old(views) ==> SameView(v)
    {
      NeedRenderView();
      s := InflateShell(native);
      if active != null {
        RemoveShell(active);
      }
      ShowShell(s);
    }

    /** `asked` is the native shell of the one shown before, if it still has one, which is asked to close. */
    method LaunchShell(native: nat) returns (s: Shell, asked: nat)
      requires Valid()
      modifies Footprint()
      ensures Valid() && fresh(Footprint() - old(Footprint()))
      ensures fresh(s) && shells == old(shells) + {s} && active == s && s.renderView == renderView
      ensures s.nativeShell == native && s.window == window
      ensures s.webContents == 0 && s.told == s.cleared == s.contents == []
      ensures forall t :: t in old(shells) ==> SameContents(t)
      ensures forall v :: v in old(views) ==> SameView(v)
      ensures asked == if old(active) == null then 0 else old(active.nativeShell)
    {
      var previous := active;
      s := CreateShell(native);
      asked := 0;
      if previous != null {
        asked := previous.Close();
      }
    }

    /** A second call finds nothing to do. */
    method DestroyManager()
      requires Valid()
      modifies Footprint()
      ensures Valid() && active == null && renderView == null && shells == old(shells) && views == old(views)
      ensures old(active) == null && old(renderView) == null ==> unchanged(old(Footprint()))
      ensures old(renderView) != null ==>
                !old(renderView).alive && old(renderView).parent == null && old(renderView).current == old(renderView.current)
      ensures forall t :: t in shells ==> SameContents(t)
      ensures forall v :: v in views && v != old(renderView) ==> SameView(v)
    {
      if active != null {
        RemoveShell(active);
      }
      if renderView != null {
        assert renderView in views && renderView.parent == null;
        renderView.Destroy();
        renderView := null;
      }
    }

    /** The shell shown is `made[shown.active]`, and there is a render view, on display or not, as `shown` says. */
    ghost predicate Shows(shown: Shown, made: seq<Shell>)
      reads this, shells, renderView
    {
      && |made| == shown.made
      && (forall i, j :: 0 <= i < j < |made| ==> made[i] != made[j])
      && (shown.active.Some? ==> shown.active.value < |made| && active == made[shown.active.value])
      && (shown.active.None? ==> active == null)
      && (shown.view <==> renderView != null)
      && (shown.attached <==> renderView != null && renderView.parent != null)
    }

    /** createShell or launchShell among the calls. */
    method PerformCreate(op: Op, made: seq<Shell>, ghost shown: Shown) returns (made': seq<Shell>)
      requires op.Create? || op.Launch?
      requires Valid() && shells == (set s | s in made) && Shows(shown, made)
      modifies Footprint()
      ensures Valid() && shells == (set s | s in made') && Shows(After(shown, op), made')
      ensures fresh(Footprint() - old(Footprint()))
      ensures forall k :: 0 <= k < |made| ==> SameContents(made[k])
    {
      var s;
      if op.Create? {
        s := CreateShell(op.native);
      } else {
        var asked;
        s, asked := LaunchShell(op.native);
      }
      made' := made + [s];
    }

    /** initFromNativeTabContents on one of the shells. */
    method PerformContents(which: nat, web: nat, made: seq<Shell>, ghost shown: Shown) returns (ok: bool)
      requires which < |made| && web != 0 && web != made[which].webContents
      requires Valid() && shells == (set s | s in made) && Shows(shown, made)
      modifies Footprint()
      ensures Valid() && shells == old(shells) && views == old(views) && Shows(shown, made)
      ensures ok <==> shown.active == Some(which)
      ensures made[which].webContents == web
      ensures made[which].told == old(made[which].told) + if ok then [web] else []
      ensures forall k :: 0 <= k < |made| && k != which ==> SameContents(made[k])
    {
      ok := made[which].InitFromNativeTabContents(web);
    }

    /** One call: it shows what it should, and handing contents to a shell succeeds exactly when it is the active one. */
    method Perform(op: Op, made: seq<Shell>, ghost shown: Shown) returns (made': seq<Shell>, ok: bool)
      requires Valid() && shells == (set s | s in made) && Shows(shown, made)
      requires op.SetWindow? ==> op.window != 0
      modifies Footprint()
      ensures Valid() && shells == (set s | s in made') && Shows(After(shown, op), made')
      ensures fresh(Footprint() - old(Footprint()))
      ensures op.Contents? && op.which < |made| && op.web != 0 && op.web != old(made[op.which].webContents) ==>
                && (ok <==> shown.active == Some(op.which))
                && made[op.which].webContents == op.web
                && made[op.which].told == old(made[op.which].told) + (if ok then [op.web] else [])
      ensures forall k :: 0 <= k < |made| && !((op.Contents? || op.NativeDestroyed?) && k == op.which) ==> SameContents(made[k])
    {
      made', ok := made, true;
      match op {
        case SetWindow(w) =>
          SetWindow(w);
        case Remove(k) =>
          if k < |made| {
            RemoveShell(made[k]);
          }
        case Destroy =>
          DestroyManager();
        case NativeDestroyed(k) =>
          if k < |made| {
            made[k].OnNativeDestroyed();
          }
        case Contents(k, web) =>
          if k < |made| && web != 0 && web != made[k].webContents {
            ok := PerformContents(k, web, made, shown);
          }
        case _ =>
          made' := PerformCreate(op, made, shown);
      }
    }

    /** Any sequence of calls after setWindow keeps the views valid and shows the shell it should; no call ever
        adds a view that has a parent. */
    method Drive(w: nat, ops: seq<Op>) returns (made: seq<Shell>)
      requires Valid() && active == null && shells == {}
      requires w != 0 && forall op :: op in ops && op.SetWindow? ==> op.window != 0
      modifies Footprint()
      ensures Valid()
      ensures shells == set s | s in made
      ensures Shows(ShownAfter(ops), made)
      ensures forall s :: s in made ==> 0 !in s.told
      ensures |children| <= 1 && (children == if active == null then [] else [active])
      ensures renderView != null && renderView.parent != null ==>
                active != null && renderView.parent == active && active.holder == [renderView]
      ensures renderView != null ==> (renderView.parent != null <==> active != null && !WindowReplaced(ops))
    {
      made := [];
      SetWindow(w);
      for i := 0 to |ops|
        invariant Valid() && shells == (set s | s in made) && Shows(ShownAfter(ops[..i]), made)
        invariant fresh(Footprint() - old(Footprint()))
      {
        assert ops[..i + 1][..i] == ops[..i] && ops[..i + 1][i] == ops[i];
        var ok;
        made, ok := Perform(ops[i], made, ShownAfter(ops[..i]));
      }
      assert ops[..|ops|] == ops;
      AttachedIffShown(ops);
    }

    /** Create, create, and contents for the first shell: a run that ends in the exception. */
    method ContentsForHiddenShell(w: nat) returns (ok: bool)
      requires Valid() && w != 0
      modifies Footprint()
      ensures !ok
    {
      SetWindow(w);
      var first := CreateShell(1);
      var second := CreateShell(2);
      ok := first.InitFromNativeTabContents(1);
    }
  }
}
