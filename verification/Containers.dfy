/** The service container: plugins, isolated children and disposal of the whole tree
    (crux-kernel/container/container.go). */
module Containers {
  import opened Wrappers
  import opened Fiber

  datatype Phase = Starting | Running | Gone

  datatype GetError = ContainerDisposed | ServiceNotFound

  /** All containers of a process, and the container each plugin was registered in. */
  datatype World = World(all: set<Container>, home: map<PluginFiber, Container>)

  /** What a plugin fiber holds, and the disposers it has called. */
  datatype Memory = Memory(fields: Fields, ran: seq<nat>)

  /** A disposer call: the plugin, its place in the registration order of its container, the disposer. */
  datatype DisposerCall = DisposerCall(plugin: PluginFiber, slot: nat, disposer: nat)

  // ---------------------------------------------------------------- the tree

  /** `a` is `c` or one of its ancestors. */
  ghost predicate Above(a: Container, c: Container)
    decreases c.depth
  {
    a == c || (c.parent != null && c.parent.depth < c.depth && Above(a, c.parent))
  }

  /** A container is in the tree of its parent under its own name. */
  ghost predicate HasParent(all: set<Container>, c: Container)
    reads all`isolates
  {
    c.parent != null ==>
      && c.parent in all && c.depth == c.parent.depth + 1
      && c.name in c.parent.isolates && c.parent.isolates[c.name] == c
  }

  ghost predicate HasChildren(all: set<Container>, c: Container)
    reads c`isolates
  {
    forall n | n in c.isolates :: IsChild(all, c, n, c.isolates[n])
  }

  ghost predicate IsChild(all: set<Container>, c: Container, n: string, child: Container) {
    child in all && child.parent == c && child.name == n
  }

  ghost predicate HasPlugins(home: map<PluginFiber, Container>, c: Container)
    reads c`fibers, c`order
  {
    PluginTable(home, c, c.fibers, c.order)
  }

  /** Names lead to the plugin registered under them, and each name is in the order once. */
  ghost predicate PluginTable(home: map<PluginFiber, Container>, c: Container, fibers: map<string, PluginFiber>,
                              order: seq<string>) {
    && (forall n | n in fibers :: IsPlugin(home, c, n, fibers[n]) && n in order)
    && (forall k | 0 <= k < |order| :: order[k] in fibers)
    && (forall j, k | 0 <= j < k < |order| :: order[j] != order[k])
  }

  lemma TableGrows(home: map<PluginFiber, Container>, c: Container, fibers: map<string, PluginFiber>,
                   order: seq<string>, n: string, f: PluginFiber)
    requires PluginTable(home, c, fibers, order) && n !in fibers && f !in home && f.name == n
    ensures PluginTable(home[f := c], c, fibers[n := f], order + [n])
  {
    var longer := order + [n];
    assert longer[|order|] == n;
    forall m | m in fibers
      ensures m in longer
    {
      var k :| 0 <= k < |order| && order[k] == m;
      assert longer[k] == m;
    }
  }

  lemma TableStays(home: map<PluginFiber, Container>, c: Container, fibers: map<string, PluginFiber>,
                   order: seq<string>, d: Container, f: PluginFiber)
    requires PluginTable(home, c, fibers, order) && d != c && f !in home
    ensures PluginTable(home[f := d], c, fibers, order)
  {
  }

  ghost predicate IsPlugin(home: map<PluginFiber, Container>, c: Container, n: string, f: PluginFiber) {
    f in home && home[f] == c && f.name == n
  }

  lemma NoPlugins(home: map<PluginFiber, Container>, c: Container)
    requires c.fibers == map[] && c.order == []
    ensures HasPlugins(home, c)
  {
  }

  ghost predicate Linked(w: World, c: Container)
    reads w.all`isolates, c`isolates, c`fibers, c`order
  {
    HasParent(w.all, c) && HasChildren(w.all, c) && HasPlugins(w.home, c)
  }

  ghost predicate Registered(w: World, f: PluginFiber)
    requires f in w.home
    reads w.home.Values`fibers
  {
    w.home[f] in w.all && f.name in w.home[f].fibers && w.home[f].fibers[f.name] == f
  }

  ghost predicate WellFormed(w: World)
    reads w.all`isolates, w.all`fibers, w.all`order, w.home.Values`fibers
  {
    (forall c | c in w.all :: Linked(w, c)) && forall f | f in w.home :: Registered(w, f)
  }

  ghost function Now(f: PluginFiber): Memory
    reads f
  {
    Memory(f.Value(), f.ran)
  }

  function Released(m: Memory): (r: Memory)
    ensures CanDispose(m.fields) || m.fields.state.Disposed? ==> r.fields.state.Disposed?
    ensures CanDispose(m.fields) ==> r.fields.disposer.None?
  {
    Memory(DisposeDone(m.fields),
           if CanDispose(m.fields) && m.fields.disposer.Some? then m.ran + [m.fields.disposer.value] else m.ran)
  }

  /** No load is in flight, and a disposed container has disposed plugins. */
  predicate SettledMemory(m: Memory, phase: Phase) {
    && (CanDispose(m.fields) || m.fields.state.Disposed?)
    && (m.fields.disposer.Some? ==> m.fields.state.Active?)
    && (phase.Gone? ==> m.fields.state.Disposed?)
  }

  // ---------------------------------------------------------------- order of disposal

  /** Plugins of one container go in reverse order; those of an ancestor never go first. */
  ghost predicate Precedes(w: World, a: DisposerCall, b: DisposerCall) {
    && a.plugin in w.home && b.plugin in w.home
    && if w.home[a.plugin] == w.home[b.plugin] then a.slot > b.slot
       else !Above(w.home[a.plugin], w.home[b.plugin])
  }

  ghost predicate Lifo(w: World, log: seq<DisposerCall>) {
    forall i, j | 0 <= i < j < |log| :: Precedes(w, log[i], log[j])
  }

  /** The call runs the disposer that a plugin of `c` held. */
  ghost predicate CallIn(w: World, before: map<PluginFiber, Memory>, c: Container, e: DisposerCall)
    reads c`order
  {
    && e.plugin in w.home && w.home[e.plugin] == c && e.slot < |c.order| && c.order[e.slot] == e.plugin.name
    && e.plugin in before && before[e.plugin].fields.disposer == Some(e.disposer)
  }

  /** Every entry runs the disposer a registered plugin held. */
  ghost predicate CallsWithin(w: World, before: map<PluginFiber, Memory>, log: seq<DisposerCall>)
    reads w.home.Values`order
  {
    forall k | 0 <= k < |log| :: log[k].plugin in w.home && CallIn(w, before, w.home[log[k].plugin], log[k])
  }

  ghost predicate Calls(log: seq<DisposerCall>, f: PluginFiber) {
    exists k | 0 <= k < |log| :: log[k].plugin == f
  }

  /** Two ancestors at the same depth are the same container. */
  lemma {:induction false} OneAncestorPerDepth(a: Container, b: Container, c: Container)
    requires Above(a, c) && Above(b, c) && a.depth == b.depth
    ensures a == b
    decreases c.depth
  {
    if c != a && c != b {
      OneAncestorPerDepth(a, b, c.parent);
    } else {
      AboveIsHigher(a, c);
      AboveIsHigher(b, c);
    }
  }

  lemma {:induction false} AboveIsHigher(a: Container, c: Container)
    requires Above(a, c)
    ensures a == c || a.depth < c.depth
    decreases c.depth
  {
    if a != c {
      AboveIsHigher(a, c.parent);
    }
  }

  lemma AboveIsReflexive(c: Container)
    ensures Above(c, c)
  {
  }

  lemma {:induction false} AboveIsTransitive(a: Container, b: Container, c: Container)
    requires Above(a, b) && Above(b, c)
    ensures Above(a, c)
    decreases c.depth
  {
    if b != c {
      AboveIsTransitive(a, b, c.parent);
    }
  }

  /** Everything below a container, other than itself, is below exactly one of its children. */
  lemma {:induction false} BelowAChild(w: World, a: Container, c: Container) returns (n: string)
    requires WellFormed(w) && a in w.all && c in w.all && Above(a, c) && a != c
    ensures n in a.isolates && Above(a.isolates[n], c)
    decreases c.depth
  {
    assert Linked(w, c);
    if c.parent == a {
      n := c.name;
    } else {
      n := BelowAChild(w, a, c.parent);
      AboveIsTransitive(a.isolates[n], c.parent, c);
    }
  }

  lemma ChildFacts(w: World, a: Container, n: string)
    requires WellFormed(w) && a in w.all && n in a.isolates
    ensures a.isolates[n] in w.all && a.isolates[n].depth == a.depth + 1 && Above(a, a.isolates[n])
    ensures a.isolates[n] != a && !Above(a.isolates[n], a)
    ensures forall c | Above(a.isolates[n], c) :: Above(a, c) && c != a
    ensures forall m, c | m in a.isolates && m != n && Above(a.isolates[n], c) :: !Above(a.isolates[m], c)
  {
    var child := a.isolates[n];
    assert Linked(w, a) && IsChild(w.all, a, n, child);
    assert Linked(w, child);
    if Above(child, a) {
      AboveIsHigher(child, a);
    }
    forall c | Above(child, c)
      ensures Above(a, c) && c != a
    {
      AboveIsTransitive(a, child, c);
    }
    forall m, c | m in a.isolates && m != n && Above(child, c)
      ensures !Above(a.isolates[m], c)
    {
      assert IsChild(w.all, a, m, a.isolates[m]) && Linked(w, a.isolates[m]);
      if Above(a.isolates[m], c) {
        OneAncestorPerDepth(child, a.isolates[m], c);
      }
    }
  }

  class Container {
    const name: string
    const parent: Container?
    ghost const depth: nat
    var services: map<string, nat>          // by type name
    var fibers: map<string, PluginFiber>
    var order: seq<string>
    var isolates: map<string, Container>
    var phase: Phase

    constructor (name: string, parent: Container?, ghost depth: nat)
      ensures this.name == name && this.parent == parent && this.depth == depth
      ensures services == map[] && fibers == map[] && order == [] && isolates == map[] && phase == Starting
    {
      this.name, this.parent, this.depth := name, parent, depth;
      services, fibers, order, isolates, phase := map[], map[], [], map[], Starting;
    }

    /** The child of that name, created on first use; a disposed container has none to give. */
    method Isolate(n: string, ghost w: World) returns (child: Container?, ghost w': World)
      requires WellFormed(w) && this in w.all
      modifies this`isolates
      ensures WellFormed(w')
      ensures phase.Gone? ==> child == null && w' == w && isolates == old(isolates)
      ensures !phase.Gone? ==> child != null && isolates == old(isolates)[n := child]
      ensures !phase.Gone? ==> child.parent == this && child.name == n
      ensures !phase.Gone? && n in old(isolates) ==> child == old(isolates)[n] && w' == w
      ensures !phase.Gone? && n !in old(isolates) ==>
                fresh(child) && child.phase.Starting? && child.order == [] && w' == World(w.all + {child}, w.home)
    {
      hide HasPlugins, HasParent;
      child, w' := null, w;
      if phase.Gone? {
        return;
      }
      assert Linked(w, this);
      if n in isolates {
        assert IsChild(w.all, this, n, isolates[n]);
        child := isolates[n];
        return;
      }
      child := new Container(n, this, depth + 1);
      w' := Adopt(child, w);
    }

    /** Enters a new container in the tree. */
    method Adopt(child: Container, ghost w: World) returns (ghost w': World)
      requires WellFormed(w) && this in w.all && child !in w.all && child.name !in isolates
      requires child.parent == this && child.depth == depth + 1
      requires child.isolates == map[] && child.fibers == map[] && child.order == []
      modifies this`isolates
      ensures WellFormed(w') && w' == World(w.all + {child}, w.home)
      ensures isolates == old(isolates)[child.name := child]
    {
      hide HasPlugins;
      isolates := isolates[child.name := child];
      w' := World(w.all + {child}, w.home);
      NoPlugins(w.home, child);
      assert Linked(w', child);
      forall c | c in w.all
        ensures Linked(w', c)
      {
        assert old(Linked(w, c));
      }
      assert forall f | f in w.home :: old(Registered(w, f));
    }

    /** Up to the call of the plugin function, which may itself use the container: a new name is registered
        last, and its fiber is loading; otherwise the caller gets a failed fiber of its own. */
    method BeginPlugin(n: string, config: Option<string>, loader: nat, ghost w: World)
      returns (f: PluginFiber, registered: bool, ghost w': World)
      requires WellFormed(w) && this in w.all
      modifies this`fibers, this`order
      ensures fresh(f) && f.name == n && WellFormed(w')
      ensures registered <==> !phase.Gone? && n !in old(fibers)
      ensures !registered ==>
                f.state.Failed? && f.disposer.None? && w' == w && fibers == old(fibers) && order == old(order)
      ensures registered ==>
                && fibers == old(fibers)[n := f] && order == old(order) + [n]
                && w' == World(w.all, w.home[f := this])
                && f.Value() == LoadBegun(Fiber.New(loader, config)) && f.state.Loading?
    {
      hide WellFormed, Released;
      w', registered := w, false;
      if phase.Gone? || n in fibers {
        f := NewFailedFiber(n, config, loader);
        return;
      }
      f := new PluginFiber(n, loader, config);
      w' := Enlist(n, f, w);
      registered := true;
      var _ := f.BeginLoad();
    }

    /** Registration and load, when the plugin function leaves the container alone. */
    method PluginWithConfig(n: string, config: Option<string>, loader: nat, outcome: LoaderOutcome, ghost w: World)
      returns (f: PluginFiber, ghost w': World)
      requires WellFormed(w) && this in w.all
      modifies this`fibers, this`order
      ensures fresh(f) && f.name == n && WellFormed(w')
      ensures phase.Gone? || n in old(fibers) ==>
                f.state.Failed? && f.disposer.None? && w' == w && fibers == old(fibers) && order == old(order)
      ensures !phase.Gone? && n !in old(fibers) ==>
                && fibers == old(fibers)[n := f] && order == old(order) + [n]
                && w' == World(w.all, w.home[f := this])
                && f.Value() == LoadEnded(LoadBegun(Fiber.New(loader, config)), outcome)
    {
      hide WellFormed, Released, LoadEnded, LoadBegun;
      var registered;
      f, registered, w' := BeginPlugin(n, config, loader, w);
      if registered {
        var _ := f.EndLoad(outcome);
      }
    }

    method Enlist(n: string, f: PluginFiber, ghost w: World) returns (ghost w': World)
      requires WellFormed(w) && this in w.all && n !in fibers && f !in w.home && f.name == n
      modifies this`fibers, this`order
      ensures WellFormed(w') && w' == World(w.all, w.home[f := this])
      ensures fibers == old(fibers)[n := f] && order == old(order) + [n]
    {
      hide HasParent, HasChildren, PluginTable;
      assert Linked(w, this);
      TableGrows(w.home, this, fibers, order, n, f);
      forall c | c in w.all && c != this
        ensures PluginTable(w.home[f := this], c, c.fibers, c.order)
      {
        assert Linked(w, c);
        TableStays(w.home, c, c.fibers, c.order, this, f);
      }
      fibers := fibers[n := f];
      order := order + [n];
      w' := World(w.all, w.home[f := this]);
      forall c | c in w'.all
        ensures Linked(w', c)
      {
        assert old(Linked(w, c));
      }
      assert forall g | g in w.home :: old(Registered(w, g));
    }

    /** The service of the nearest container on the way up that has one, unless a disposed container comes first. */
    method Get(t: string, ghost w: World) returns (r: Result<nat, GetError>)
      requires WellFormed(w) && this in w.all
      decreases depth
      ensures r.Ok? ==>
                exists a :: NearestAbove(w, a, this, t) && !a.phase.Gone? && t in a.services && r.value == a.services[t]
      ensures r == Err(ContainerDisposed) ==> exists a :: NearestAbove(w, a, this, t) && a.phase.Gone?
      ensures r == Err(ServiceNotFound) ==>
                forall a | a in w.all && Above(a, this) :: !a.phase.Gone? && t !in a.services
    {
      if phase.Gone? {
        OnlySelf(w, t);
        return Err(ContainerDisposed);
      }
      if t in services {
        OnlySelf(w, t);
        return Ok(services[t]);
      }
      if parent == null {
        return Err(ServiceNotFound);
      }
      assert Linked(w, this);
      r := parent.Get(t, w);
      AboveIsReflexive(parent);
      forall a | NearestAbove(w, a, parent, t)
        ensures NearestAbove(w, a, this, t)
      {
        AboveIsTransitive(a, parent, this);
      }
    }

    lemma OnlySelf(w: World, t: string)
      requires this in w.all
      ensures NearestAbove(w, this, this, t)
    {
      forall b | b in w.all && Above(b, this) && Above(this, b)
        ensures b == this
      {
        AboveIsHigher(b, this);
        AboveIsHigher(this, b);
      }
    }

    /** The registered plugins in order. */
    ghost predicate Plugins(w: World, plugins: seq<PluginFiber>)
      reads this`order, this`fibers
    {
      && |plugins| == |order|
      && (forall k | 0 <= k < |order| ::
            order[k] in fibers && plugins[k] == fibers[order[k]] && IsPlugin(w.home, this, order[k], plugins[k]))
      && forall f | f in w.home && w.home[f] == this :: f in plugins
    }

    lemma PluginsOf(w: World) returns (plugins: seq<PluginFiber>)
      requires WellFormed(w) && this in w.all
      ensures Plugins(w, plugins)
      ensures forall j, k | 0 <= j < k < |plugins| :: plugins[j] != plugins[k]
    {
      assert Linked(w, this);
      plugins := Collect(order, fibers);
      forall f | f in w.home && w.home[f] == this
        ensures f in plugins
      {
        assert Registered(w, f);
        var k :| 0 <= k < |order| && order[k] == f.name;
        assert plugins[k] == f;
      }
    }

    method DisposePlugin(ghost before: Memory, i: nat, fails: nat -> Option<string>)
      returns (failed: bool, ghost log: seq<DisposerCall>)
      requires i < |order| && order[i] in fibers
      requires Now(fibers[order[i]]) == before && SettledMemory(before, Starting)
      modifies fibers[order[i]]
      ensures Now(fibers[order[i]]) == Released(before)
      ensures log == OneCall(fibers[order[i]], i, before)
      ensures failed <==> AnyFails(log, fails)
    {
      var f := fibers[order[i]];
      log := OneCall(f, i, before);
      var e := f.Dispose(if f.disposer.Some? then fails(f.disposer.value) else None);
      failed := e.Some?;
      assert log != [] ==> log[0].disposer == before.fields.disposer.value;
    }

    /** Disposes the plugins in the reverse of their registration order. */
    method DisposePlugins(ghost w: World, ghost before: map<PluginFiber, Memory>, ghost plugins: seq<PluginFiber>,
                          fails: nat -> Option<string>)
      returns (failed: bool, ghost log: seq<DisposerCall>)
      requires Plugins(w, plugins) && forall j, k | 0 <= j < k < |plugins| :: plugins[j] != plugins[k]
      requires forall k | 0 <= k < |plugins| :: plugins[k] in before && Now(plugins[k]) == before[plugins[k]]
                                                && SettledMemory(before[plugins[k]], Starting)
      modifies set k | 0 <= k < |plugins| :: plugins[k]
      ensures forall k | 0 <= k < |plugins| :: Now(plugins[k]) == Released(before[plugins[k]])
      ensures log == OwnCalls(plugins, before, 0)
      ensures failed <==> AnyFails(log, fails)
    {
      hide AnyFails, Released, SettledMemory, OwnCalls, IsPlugin;
      NoCalls(plugins, before, fails);
      failed, log := false, [];
      var i := |order|;
      while i > 0
        invariant 0 <= i <= |order|
        invariant forall k | 0 <= k < i :: Now(plugins[k]) == before[plugins[k]]
        invariant forall k | i <= k < |plugins| :: Now(plugins[k]) == Released(before[plugins[k]])
        invariant log == OwnCalls(plugins, before, i)
        invariant failed <==> AnyFails(log, fails)
      {
        i := i - 1;
        ghost var one;
        var e;
        e, one := DisposePlugin(before[plugins[i]], i, fails);
        failed := failed || e;
        AnyFailsAppends(log, one, fails);
        OneMoreCall(plugins, before, i);
        log := log + one;
      }
    }

    /** The containers strictly below this one whose child is no longer waiting. */
    ghost predicate Done(left: set<string>, c: Container)
      reads this`isolates
    {
      Above(this, c) && c != this && forall n | n in left && n in isolates :: !Above(isolates[n], c)
    }

    lemma NoneDone(w: World)
      requires WellFormed(w) && this in w.all
      ensures forall c | c in w.all :: !Done(isolates.Keys, c)
      ensures forall f | f in w.home :: w.home[f] in w.all
    {
      assert forall f | f in w.home :: Registered(w, f);
      forall c | c in w.all
        ensures !Done(isolates.Keys, c)
      {
        if Done(isolates.Keys, c) {
          var n := BelowAChild(w, this, c);
        }
      }
    }

    lemma OneMoreDone(w: World, left: set<string>, n: string)
      requires WellFormed(w) && this in w.all && left <= isolates.Keys && n in left
      ensures forall c :: Done(left - {n}, c) <==> Done(left, c) || Above(isolates[n], c)
      ensures forall c | Above(isolates[n], c) :: !Done(left, c) && Above(this, c) && c != this
      ensures forall c, d | d in w.all && d.parent == c && c != this && !Above(isolates[n], c) :: !Above(isolates[n], d)
    {
      ChildFacts(w, this, n);
      assert Linked(w, this) && IsChild(w.all, this, n, isolates[n]);
    }

    lemma ChildLast(w: World, left: set<string>, n: string, a: seq<DisposerCall>, b: seq<DisposerCall>)
      requires WellFormed(w) && this in w.all && left <= isolates.Keys && n in left
      requires forall k | 0 <= k < |a| :: a[k].plugin in w.home && Done(left, w.home[a[k].plugin])
      requires forall k | 0 <= k < |b| :: b[k].plugin in w.home && Above(isolates[n], w.home[b[k].plugin])
      requires Lifo(w, a) && Lifo(w, b)
      ensures Lifo(w, a + b)
    {
      NoneDone(w);
      hide WellFormed;
      OneMoreDone(w, left, n);
      forall i, j | 0 <= i < |a| && 0 <= j < |b|
        ensures Precedes(w, a[i], b[j])
      {
        var c, d := w.home[a[i].plugin], w.home[b[j].plugin];
        ChildFacts(w, this, n);
        if Above(c, d) {
          DoneIsClosed(w, left, n, c, d);
        }
      }
      Appended(w, a, b);
    }

    /** What is below a finished child is not below a waiting one. */
    lemma DoneIsClosed(w: World, left: set<string>, n: string, c: Container, d: Container)
      requires WellFormed(w) && this in w.all && n in left && left <= isolates.Keys && c in w.all
      requires Done(left, c) && Above(isolates[n], d)
      ensures !Above(c, d)
    {
      if Above(c, d) {
        var m := BelowAChild(w, this, c);
        AboveIsTransitive(isolates[m], c, d);
        ChildFacts(w, this, n);
      }
    }

    /** Finished children are disposed; all else below this container is as it was. */
    ghost predicate Progress(w: World, before: map<PluginFiber, Memory>, left: set<string>, bound: nat,
                             phases: map<Container, Phase>, memories: map<PluginFiber, Memory>)
      reads this`isolates, w.all`phase, w.home.Keys
    {
      && left <= isolates.Keys && phases.Keys == w.all && memories.Keys == before.Keys == w.home.Keys
      && (forall c | c in w.all :: c.phase == if Done(left, c) then Gone else phases[c])
      && (forall f | f in w.home :: Now(f) == if Done(left, w.home[f]) then Released(before[f]) else memories[f])
      && (forall c | c in w.all && Above(this, c) && c != this && !Done(left, c) :: Ready(w, before, c, bound))
    }

    /** The log is that of the finished children. */
    ghost predicate LogOf(w: World, before: map<PluginFiber, Memory>, left: set<string>, log: seq<DisposerCall>)
      reads this`isolates, w.home.Values`order
    {
      && Lifo(w, log) && CallsWithin(w, before, log)
      && (forall k | 0 <= k < |log| :: Done(left, w.home[log[k].plugin]))
      && before.Keys == w.home.Keys
      && forall f | f in w.home && Done(left, w.home[f]) && before[f].fields.disposer.Some? :: Calls(log, f)
    }

    lemma ExtendLog(w: World, before: map<PluginFiber, Memory>, left: set<string>, n: string,
                    log: seq<DisposerCall>, one: seq<DisposerCall>)
      requires WellFormed(w) && this in w.all && left <= isolates.Keys && n in left && LogOf(w, before, left, log)
      requires Lifo(w, one) && CallsWithin(w, before, one)
      requires forall k | 0 <= k < |one| :: Above(isolates[n], w.home[one[k].plugin])
      requires forall f | f in w.home && Above(isolates[n], w.home[f]) && before[f].fields.disposer.Some? ::
                 Calls(one, f)
      ensures LogOf(w, before, left - {n}, log + one)
    {
      hide WellFormed, Lifo, Calls, CallIn;
      OneMoreDone(w, left, n);
      ChildLast(w, left, n, log, one);
      CallsGrow(log, one);
    }

    method DisposeChild(ghost w: World, ghost before: map<PluginFiber, Memory>, ghost bound: nat,
                        fails: nat -> Option<string>, n: string, ghost left: set<string>,
                        ghost phases: map<Container, Phase>, ghost memories: map<PluginFiber, Memory>)
      returns (failed: bool, ghost log: seq<DisposerCall>)
      requires WellFormed(w) && this in w.all && depth <= bound && n in left
      requires Progress(w, before, left, bound, phases, memories)
      modifies w.all`phase, w.home.Keys
      decreases bound - depth, 0
      ensures Progress(w, before, left - {n}, bound, phases, memories)
      ensures Lifo(w, log) && CallsWithin(w, before, log)
      ensures forall k | 0 <= k < |log| :: Above(isolates[n], w.home[log[k].plugin])
      ensures forall f | f in w.home && Above(isolates[n], w.home[f]) && before[f].fields.disposer.Some? ::
                Calls(log, f)
      ensures failed <==> AnyFails(log, fails)
    {
      hide WellFormed, Lifo, CallsWithin, Calls, AnyFails, Released, SettledMemory, Above, Now, Done;
      ChildFacts(w, this, n);
      OneMoreDone(w, left, n);
      failed, log := isolates[n].Dispose(w, before, bound, fails);
      forall c | c in w.all && Above(this, c) && c != this && !Done(left - {n}, c)
        ensures Ready(w, before, c, bound)
      {
        assert !Above(isolates[n], c) && !Done(left, c);
      }
    }

    /** Disposes the children, in the order in which the map yields them. */
    method DisposeChildren(ghost w: World, ghost before: map<PluginFiber, Memory>, ghost bound: nat,
                           fails: nat -> Option<string>, ghost phases: map<Container, Phase>,
                           ghost memories: map<PluginFiber, Memory>)
      returns (failed: bool, ghost log: seq<DisposerCall>)
      requires WellFormed(w) && this in w.all && depth <= bound
      requires Progress(w, before, isolates.Keys, bound, phases, memories) && LogOf(w, before, isolates.Keys, [])
      modifies w.all`phase, w.home.Keys
      decreases bound - depth, 1
      ensures Progress(w, before, {}, bound, phases, memories)
      ensures LogOf(w, before, {}, log)
      ensures failed <==> AnyFails(log, fails)
    {
      hide WellFormed, Progress, LogOf, Lifo, CallsWithin, Calls, AnyFails, Above;
      EmptyLog(w, before, fails);
      failed, log := false, [];
      var left := isolates.Keys;
      while left != {}
        invariant left <= isolates.Keys
        invariant Progress(w, before, left, bound, phases, memories)
        invariant LogOf(w, before, left, log)
        invariant failed <==> AnyFails(log, fails)
      {
        var n :| n in left;
        ghost var one;
        var e;
        e, one := DisposeChild(w, before, bound, fails, n, left, phases, memories);
        failed := failed || e;
        AnyFailsAppends(log, one, fails);
        ExtendLog(w, before, left, n, log, one);
        log := log + one;
        left := left - {n};
      }
    }

    /** Disposes everything strictly below this container. */
    method Cascade(ghost w: World, ghost before: map<PluginFiber, Memory>, ghost bound: nat,
                   fails: nat -> Option<string>)
      returns (failed: bool, ghost log: seq<DisposerCall>)
      requires WellFormed(w) && this in w.all && depth <= bound && before.Keys == w.home.Keys
      requires forall c | c in w.all && Above(this, c) && c != this :: Ready(w, before, c, bound)
      modifies w.all`phase, w.home.Keys
      decreases bound - depth, 2
      ensures forall c | c in w.all :: c.phase == if Done({}, c) then Gone else old(c.phase)
      ensures forall f | f in w.home :: Now(f) == if Done({}, w.home[f]) then Released(before[f]) else old(Now(f))
      ensures LogOf(w, before, {}, log)
      ensures failed <==> AnyFails(log, fails)
    {
      hide WellFormed, Progress, LogOf, AnyFails, Above, Ready, Released, Now;
      ghost var phases, memories := BeginProgress(w, before, bound);
      NothingLogged(w, before);
      failed, log := DisposeChildren(w, before, bound, fails, phases, memories);
      EndProgress(w, before, bound, phases, memories);
    }

    lemma BeginProgress(w: World, before: map<PluginFiber, Memory>, bound: nat)
      returns (phases: map<Container, Phase>, memories: map<PluginFiber, Memory>)
      requires WellFormed(w) && this in w.all && before.Keys == w.home.Keys
      requires forall c | c in w.all && Above(this, c) && c != this :: Ready(w, before, c, bound)
      ensures Progress(w, before, isolates.Keys, bound, phases, memories)
      ensures forall c | c in w.all :: c in phases && phases[c] == c.phase
      ensures forall f | f in w.home :: f in memories && memories[f] == Now(f)
    {
      phases := map c | c in w.all :: c.phase;
      memories := map f | f in w.home :: Now(f);
      NoneDone(w);
      hide WellFormed, Above, Ready, Released, Now;
    }

    lemma EndProgress(w: World, before: map<PluginFiber, Memory>, bound: nat,
                      phases: map<Container, Phase>, memories: map<PluginFiber, Memory>)
      requires Progress(w, before, {}, bound, phases, memories)
      ensures before.Keys == memories.Keys == w.home.Keys && phases.Keys == w.all
      ensures forall c | c in w.all :: c.phase == if Done({}, c) then Gone else phases[c]
      ensures forall f | f in w.home :: Now(f) == if Done({}, w.home[f]) then Released(before[f]) else memories[f]
    {
      hide Above, Ready, Released, Now, Done;
    }

    lemma NothingLogged(w: World, before: map<PluginFiber, Memory>)
      requires WellFormed(w) && this in w.all && before.Keys == w.home.Keys
      ensures LogOf(w, before, isolates.Keys, [])
    {
      NoneDone(w);
    }

    /** Disposes the container's own plugins. */
    method DisposeOwn(ghost w: World, ghost before: map<PluginFiber, Memory>, fails: nat -> Option<string>)
      returns (failed: bool, ghost log: seq<DisposerCall>)
      requires WellFormed(w) && this in w.all && before.Keys == w.home.Keys
      requires forall f | f in w.home && w.home[f] == this :: Now(f) == before[f] && SettledMemory(before[f], Starting)
      modifies w.home.Keys
      ensures forall f | f in w.home :: Now(f) == if w.home[f] == this then Released(before[f]) else old(Now(f))
      ensures Lifo(w, log) && CallsWithin(w, before, log)
      ensures forall k | 0 <= k < |log| :: w.home[log[k].plugin] == this
      ensures forall f | f in w.home && w.home[f] == this && before[f].fields.disposer.Some? :: Calls(log, f)
      ensures failed <==> AnyFails(log, fails)
    {
      hide WellFormed, AnyFails, Calls, Released, Above, CallsWithin, Lifo, OwnCalls, Linked;
      ghost var plugins := PluginsOf(w);
      OwnCallsAre(w, before, plugins);
      failed, log := DisposePlugins(w, before, plugins, fails);
    }

    lemma OwnCallsAre(w: World, before: map<PluginFiber, Memory>, plugins: seq<PluginFiber>)
      requires Plugins(w, plugins) && before.Keys == w.home.Keys
      ensures forall k | 0 <= k < |plugins| :: plugins[k] in w.home && w.home[plugins[k]] == this
      ensures var log := OwnCalls(plugins, before, 0);
              && Lifo(w, log) && CallsWithin(w, before, log)
              && (forall k | 0 <= k < |log| :: w.home[log[k].plugin] == this)
              && forall f | f in w.home && w.home[f] == this && before[f].fields.disposer.Some? :: Calls(log, f)
    {
      assert forall k | 0 <= k < |plugins| :: IsPlugin(w.home, this, order[k], plugins[k]);
    }

    lemma OwnLast(w: World, before: map<PluginFiber, Memory>, children: seq<DisposerCall>, own: seq<DisposerCall>)
      requires WellFormed(w) && this in w.all && LogOf(w, before, {}, children)
      requires Lifo(w, own) && CallsWithin(w, before, own)
      requires forall k | 0 <= k < |own| :: w.home[own[k].plugin] == this
      ensures Lifo(w, children + own) && CallsWithin(w, before, children + own)
      ensures forall k | 0 <= k < |children + own| :: Above(this, w.home[(children + own)[k].plugin])
      ensures forall f | Calls(children, f) || Calls(own, f) :: Calls(children + own, f)
      ensures forall f | f in w.home && Done({}, w.home[f]) && before[f].fields.disposer.Some? :: Calls(children, f)
    {
      hide WellFormed, CallIn, Calls;
      CallsGrow(children, own);
      forall i, j | 0 <= i < |children| && 0 <= j < |own|
        ensures Precedes(w, children[i], own[j])
      {
        var c := w.home[children[i].plugin];
        if Above(c, this) {
          AboveIsHigher(c, this);
          AboveIsHigher(this, c);
        }
      }
      Appended(w, children, own);
    }

    /** Disposes the tree below this container. */
    method Dispose(ghost w: World, ghost before: map<PluginFiber, Memory>, ghost bound: nat,
                   fails: nat -> Option<string>)
      returns (failed: bool, ghost log: seq<DisposerCall>)
      requires WellFormed(w) && this in w.all && before.Keys == w.home.Keys
      requires forall c | c in w.all && Above(this, c) :: Ready(w, before, c, bound)
      modifies w.all`phase, w.home.Keys
      decreases bound - depth, 3
      ensures forall c | c in w.all :: c.phase == if Above(this, c) then Gone else old(c.phase)
      ensures forall f | f in w.home :: Now(f) == if Above(this, w.home[f]) then Released(before[f]) else old(Now(f))
      ensures Lifo(w, log) && CallsWithin(w, before, log)
      ensures forall k | 0 <= k < |log| :: Above(this, w.home[log[k].plugin])
      ensures forall f | f in w.home && Above(this, w.home[f]) && before[f].fields.disposer.Some? :: Calls(log, f)
      ensures failed <==> AnyFails(log, fails)
      ensures old(phase).Gone? ==> log == [] && !failed && forall f | f in w.home :: unchanged(f)
    {
      hide WellFormed, LogOf, Lifo, CallsWithin, Calls, AnyFails, Released, Above, Now;
      AboveIsReflexive(this);
      if phase.Gone? {
        AllGone(w, before, this, bound);
        EmptyLog(w, before, fails);
        return false, [];
      }
      phase := Gone;
      failed, log := Cascade(w, before, bound, fails);
      ghost var own;
      var e;
      e, own := DisposeOwn(w, before, fails);
      failed := failed || e;
      AnyFailsAppends(log, own, fails);
      OwnLast(w, before, log, own);
      log := log + own;
    }
  }

  /** `a` is above `c`, and nothing below `a` on that way is disposed or has the service. */
  ghost predicate NearestAbove(w: World, a: Container, c: Container, t: string)
    reads w.all
  {
    && a in w.all && Above(a, c)
    && forall b | b in w.all && Above(b, c) && Above(a, b) && b != a :: !b.phase.Gone? && t !in b.services
  }

  /** A fiber whose only load has failed. */
  method NewFailedFiber(n: string, config: Option<string>, loader: nat) returns (f: PluginFiber)
    ensures fresh(f) && f.name == n && f.state.Failed? && f.disposer.None?
  {
    f := new PluginFiber(n, loader, config);
    var _ := f.Load(LoaderOutcome(None, Some("container disposed, or plugin exists")));
  }

  /** The container and its plugins are as recorded, no load is in flight, and what is disposed is disposed
      all the way down. */
  ghost predicate Ready(w: World, before: map<PluginFiber, Memory>, c: Container, bound: nat)
    reads c`phase, w.all`phase, w.home.Keys
  {
    && c.depth <= bound
    && (c.phase.Gone? ==> forall d | d in w.all && d.parent == c :: d.phase.Gone?)
    && forall f | f in w.home && w.home[f] == c ::
         f in before && Now(f) == before[f] && SettledMemory(before[f], c.phase)
  }

  /** Below a disposed container everything is disposed. */
  lemma AllGone(w: World, before: map<PluginFiber, Memory>, root: Container, bound: nat)
    requires WellFormed(w) && root in w.all && root.phase.Gone?
    requires forall c | c in w.all && Above(root, c) :: Ready(w, before, c, bound)
    ensures forall c | c in w.all && Above(root, c) :: c.phase.Gone?
    ensures forall f | f in w.home && Above(root, w.home[f]) ::
              f in before && Now(f) == before[f] == Released(before[f]) && before[f].fields.disposer.None?
  {
    assert forall f | f in w.home :: Registered(w, f);
    forall c | c in w.all && Above(root, c)
      ensures c.phase.Gone?
    {
      GoneAt(w, before, root, bound, c);
    }
  }

  lemma {:induction false} GoneAt(w: World, before: map<PluginFiber, Memory>, root: Container, bound: nat, c: Container)
    requires WellFormed(w) && root in w.all && root.phase.Gone? && c in w.all && Above(root, c)
    requires forall c | c in w.all && Above(root, c) :: Ready(w, before, c, bound)
    ensures c.phase.Gone?
    decreases c.depth
  {
    if c != root {
      assert Linked(w, c);
      GoneAt(w, before, root, bound, c.parent);
    }
  }

  lemma EmptyLog(w: World, before: map<PluginFiber, Memory>, fails: nat -> Option<string>)
    ensures Lifo(w, []) && CallsWithin(w, before, []) && !AnyFails([], fails)
  {
  }

  lemma Appended(w: World, a: seq<DisposerCall>, b: seq<DisposerCall>)
    requires Lifo(w, a) && Lifo(w, b)
    requires forall i, j | 0 <= i < |a| && 0 <= j < |b| :: Precedes(w, a[i], b[j])
    ensures Lifo(w, a + b)
  {
    hide Precedes;
    forall i, j | 0 <= i < j < |a + b|
      ensures Precedes(w, (a + b)[i], (a + b)[j])
    {
      assert i < |a| <= j ==> Precedes(w, a[i], b[j - |a|]);
    }
  }

  // ---------------------------------------------------------------- logs of disposer calls

  ghost function Collect(order: seq<string>, fibers: map<string, PluginFiber>): (r: seq<PluginFiber>)
    requires forall k | 0 <= k < |order| :: order[k] in fibers
    ensures |r| == |order| && forall k | 0 <= k < |order| :: r[k] == fibers[order[k]]
  {
    if order == [] then [] else Collect(order[..|order| - 1], fibers) + [fibers[order[|order| - 1]]]
  }

  ghost function OneCall(f: PluginFiber, slot: nat, before: Memory): seq<DisposerCall> {
    if before.fields.disposer.Some? then [DisposerCall(f, slot, before.fields.disposer.value)] else []
  }

  /** The calls for the plugins from the last down to `from`. */
  ghost function OwnCalls(plugins: seq<PluginFiber>, before: map<PluginFiber, Memory>,
                          from: nat): (log: seq<DisposerCall>)
    requires from <= |plugins| && forall k | 0 <= k < |plugins| :: plugins[k] in before
    ensures forall k | 0 <= k < |log| ::
              && from <= log[k].slot < |plugins| && log[k].plugin == plugins[log[k].slot]
              && before[log[k].plugin].fields.disposer == Some(log[k].disposer)
    ensures forall j, k | 0 <= j < k < |log| :: log[j].slot > log[k].slot
    ensures forall i | from <= i < |plugins| && before[plugins[i]].fields.disposer.Some? :: Calls(log, plugins[i])
    decreases |plugins| - from
  {
    if from == |plugins| then []
    else
      var log := OwnCalls(plugins, before, from + 1);
      var one := OneCall(plugins[from], from, before[plugins[from]]);
      CallsGrow(log, one);
      assert one != [] ==> one[0].plugin == plugins[from];
      log + one
  }

  lemma NoCalls(plugins: seq<PluginFiber>, before: map<PluginFiber, Memory>, fails: nat -> Option<string>)
    requires forall k | 0 <= k < |plugins| :: plugins[k] in before
    ensures OwnCalls(plugins, before, |plugins|) == [] && !AnyFails([], fails)
  {
  }

  lemma OneMoreCall(plugins: seq<PluginFiber>, before: map<PluginFiber, Memory>, i: nat)
    requires i < |plugins| && forall k | 0 <= k < |plugins| :: plugins[k] in before
    ensures OwnCalls(plugins, before, i) == OwnCalls(plugins, before, i + 1)
              + OneCall(plugins[i], i, before[plugins[i]])
  {
  }

  lemma CallsGrow(a: seq<DisposerCall>, b: seq<DisposerCall>)
    ensures forall f | Calls(a, f) :: Calls(a + b, f)
    ensures forall f | Calls(b, f) :: Calls(a + b, f)
    ensures forall k | 0 <= k < |b| :: Calls(a + b, b[k].plugin)
  {
    forall f | Calls(a, f)
      ensures Calls(a + b, f)
    {
      var k :| 0 <= k < |a| && a[k].plugin == f;
      assert (a + b)[k].plugin == f;
    }
    forall k | 0 <= k < |b|
      ensures Calls(a + b, b[k].plugin)
    {
      assert (a + b)[|a| + k] == b[k];
    }
  }

  ghost predicate AnyFails(log: seq<DisposerCall>, fails: nat -> Option<string>) {
    exists k | 0 <= k < |log| :: fails(log[k].disposer).Some?
  }

  lemma AnyFailsAppends(a: seq<DisposerCall>, b: seq<DisposerCall>, fails: nat -> Option<string>)
    ensures AnyFails(a + b, fails) <==> AnyFails(a, fails) || AnyFails(b, fails)
  {
    if k :| 0 <= k < |a| && fails(a[k].disposer).Some? {
      assert (a + b)[k] == a[k];
    }
    if k :| 0 <= k < |b| && fails(b[k].disposer).Some? {
      assert (a + b)[|a| + k] == b[k];
    }
  }

  /** A log in this order calls no plugin twice. */
  lemma EachOnce(w: World, before: map<PluginFiber, Memory>, log: seq<DisposerCall>)
    requires WellFormed(w) && Lifo(w, log) && CallsWithin(w, before, log)
    ensures forall i, j | 0 <= i < j < |log| :: log[i].plugin != log[j].plugin
  {
    forall i, j | 0 <= i < j < |log|
      ensures log[i].plugin != log[j].plugin
    {
      var c := w.home[log[i].plugin];
      assert Registered(w, log[i].plugin) && Linked(w, c) && Precedes(w, log[i], log[j]);
      assert CallIn(w, before, c, log[i]) && CallIn(w, before, w.home[log[j].plugin], log[j]);
      if w.home[log[j].plugin] == c {
        assert c.order[log[j].slot] != c.order[log[i].slot];
      }
    }
  }
}
