/** The plugin loader: every discovered plugin installs its UI, then hands its
    interceptors to the registry, plugin after plugin. */
module Plugins {
  import opened Common
  import opened PluginApi
  import opened Effects
  import opened Registry
  import opened Stages

  /** What a discovered plugin does when the loader calls it: the menu items its
      `InitUI` installs, in order, and what its `GetInterceptors` returns
      (`None` for a null enumerable). */
  datatype Plugin = Plugin(menuItems: seq<MenuItem>, interceptors: Option<seq<EffectsInterceptor>>)

  /** A call the loader makes, tagged with the plugin's position in the input. */
  datatype LoadStep =
    | InitialisedUI(plugin: nat)
    | Registered(plugin: nat, interceptor: EffectsInterceptor)

  /** What loading has produced so far: the host's menu, the registry's
      dictionary and the calls made, in order. */
  datatype Loading = Loading(
    menu: seq<MenuItem>,
    registered: map<Category, seq<EffectsInterceptor>>,
    steps: seq<LoadStep>)

  /** A loading state together with how loading ended. */
  datatype Loaded = Loaded(state: Loading, outcome: Outcome)

  /** `GetInterceptors() ?? Enumerable.Empty`: a null result stands for no interceptors. */
  function Offered(p: Plugin): seq<EffectsInterceptor> {
    match p.interceptors
    case None => []
    case Some(xs) => xs
  }

  // ---------------------------------------------------------------------------
  // The loader as a fold: each step is what the loops below do once.

  /** Registration of the interceptors `xs` of plugin `k`, one after the other;
      the first registration that throws ends the fold with its fault. */
  function RegisterEach(known: seq<Category>, st: Loading, k: nat, xs: seq<EffectsInterceptor>): Loaded
    decreases |xs|
  {
    if xs == [] then Loaded(st, Pass)
    else
      var prev := RegisterEach(known, st, k, xs[..|xs| - 1]);
      if prev.outcome.Fail? then prev
      else
        var x := xs[|xs| - 1];
        match Register(known, prev.state.registered, x, x.Implemented)
        case Ok(m) => Loaded(prev.state.(registered := m, steps := prev.state.steps + [Registered(k, x)]), Pass)
        case Err(f) => Loaded(prev.state, Fail(f))
  }

  /** `LoadPlugin` on plugin `k`: its UI first, then its interceptors. */
  function LoadOne(known: seq<Category>, st: Loading, k: nat, p: Plugin): Loaded {
    var ui := st.(menu := st.menu + p.menuItems, steps := st.steps + [InitialisedUI(k)]);
    RegisterEach(known, ui, k, Offered(p))
  }

  /** `LoadPlugins` on the plugin sequence `ps`: plugins in order, stopped by
      the first fault. */
  function LoadEach(known: seq<Category>, st: Loading, ps: seq<Plugin>): Loaded
    decreases |ps|
  {
    if ps == [] then Loaded(st, Pass)
    else
      var prev := LoadEach(known, st, ps[..|ps| - 1]);
      if prev.outcome.Fail? then prev
      else LoadOne(known, prev.state, |ps| - 1, ps[|ps| - 1])
  }

  /** Once a registration has thrown, the rest of the interceptors are not looked at. */
  lemma {:induction false} RegisterFaultPersists(known: seq<Category>, st: Loading, k: nat, xs: seq<EffectsInterceptor>, j: nat)
    requires j <= |xs| && RegisterEach(known, st, k, xs[..j]).outcome.Fail?
    ensures RegisterEach(known, st, k, xs) == RegisterEach(known, st, k, xs[..j])
    decreases |xs| - j
  {
    if j < |xs| {
      var front := xs[..|xs| - 1];
      assert front[..j] == xs[..j];
      RegisterFaultPersists(known, st, k, front, j);
    } else {
      assert xs[..j] == xs;
    }
  }

  /** Once a plugin has thrown, the later plugins are not loaded. */
  lemma {:induction false} LoadFaultPersists(known: seq<Category>, st: Loading, ps: seq<Plugin>, j: nat)
    requires j <= |ps| && LoadEach(known, st, ps[..j]).outcome.Fail?
    ensures LoadEach(known, st, ps) == LoadEach(known, st, ps[..j])
    decreases |ps| - j
  {
    if j < |ps| {
      var front := ps[..|ps| - 1];
      assert front[..j] == ps[..j];
      LoadFaultPersists(known, st, front, j);
    } else {
      assert ps[..j] == ps;
    }
  }

  // ---------------------------------------------------------------------------
  // Reference definitions: what a complete load yields.

  /** The menu items of all plugins, plugin by plugin. */
  function MenuOf(ps: seq<Plugin>): seq<MenuItem>
    decreases |ps|
  {
    if ps == [] then [] else MenuOf(ps[..|ps| - 1]) + ps[|ps| - 1].menuItems
  }

  /** The interceptors of all plugins, plugin by plugin, each in the order it yields them. */
  function AllOffered(ps: seq<Plugin>): seq<EffectsInterceptor>
    decreases |ps|
  {
    if ps == [] then [] else AllOffered(ps[..|ps| - 1]) + Offered(ps[|ps| - 1])
  }

  /** The dictionary after `xs` were filed under the preprocessing category. */
  function Filed(m: map<Category, seq<EffectsInterceptor>>, xs: seq<EffectsInterceptor>): map<Category, seq<EffectsInterceptor>> {
    if xs == [] then m else m[Preprocessing := Lookup(m, Preprocessing) + xs]
  }

  /** Registering an interceptor when the preprocessing category resolves files it there. */
  lemma RegisterFiles(known: seq<Category>, m: map<Category, seq<EffectsInterceptor>>, x: EffectsInterceptor)
    requires Resolve(known, {Preprocessing}).Unique?
    ensures Register(known, m, x, x.Implemented) == Ok(Filed(m, [x]))
  {
    assert x.Implemented == {Preprocessing};
    assert Resolve(known, {Preprocessing}).category == Preprocessing;
  }

  lemma Assoc<T>(a: seq<T>, b: seq<T>, c: seq<T>)
    ensures a + b + c == a + (b + c)
  {
  }

  lemma FiledTwice(m: map<Category, seq<EffectsInterceptor>>, a: seq<EffectsInterceptor>, b: seq<EffectsInterceptor>)
    ensures Filed(Filed(m, a), b) == Filed(m, a + b)
  {
    if a == [] {
      assert a + b == b;
    } else if b == [] {
      assert a + b == a;
    } else {
      var l := Lookup(m, Preprocessing);
      assert Lookup(Filed(m, a), Preprocessing) + b == l + (a + b);
      assert m[Preprocessing := l + a][Preprocessing := l + (a + b)] == m[Preprocessing := l + (a + b)];
    }
  }

  /** The registration calls for the interceptors `xs` of plugin `k`. */
  function Registrations(k: nat, xs: seq<EffectsInterceptor>): (r: seq<LoadStep>)
    ensures |r| == |xs|
    ensures forall i :: 0 <= i < |xs| ==> r[i] == Registered(k, xs[i])
  {
    seq(|xs|, i requires 0 <= i < |xs| => Registered(k, xs[i]))
  }

  /** The calls of a complete load: per plugin, its `InitUI` and then its registrations. */
  function Trace(ps: seq<Plugin>): seq<LoadStep>
    decreases |ps|
  {
    if ps == [] then []
    else Trace(ps[..|ps| - 1]) + [InitialisedUI(|ps| - 1)] + Registrations(|ps| - 1, Offered(ps[|ps| - 1]))
  }

  /** The plugins whose `InitUI` the calls `steps` make, in call order. */
  function InitsOf(steps: seq<LoadStep>): seq<nat>
    decreases |steps|
  {
    if steps == [] then []
    else InitsOf(steps[..|steps| - 1]) + (if steps[|steps| - 1].InitialisedUI? then [steps[|steps| - 1].plugin] else [])
  }

  /** The interceptors the calls `steps` register, in call order. */
  function RegisteredOf(steps: seq<LoadStep>): seq<EffectsInterceptor>
    decreases |steps|
  {
    if steps == [] then []
    else RegisteredOf(steps[..|steps| - 1]) + (if steps[|steps| - 1].Registered? then [steps[|steps| - 1].interceptor] else [])
  }

  /** 0, 1, ..., n - 1. */
  function Upto(n: nat): (r: seq<nat>)
    ensures |r| == n && forall i :: 0 <= i < n ==> r[i] == i
  {
    seq(n, i => i)
  }

  // ---------------------------------------------------------------------------
  // Properties of loading.

  /** When the registry resolves the preprocessing category, a plugin's
      interceptors are all filed, in order, and each registration is recorded. */
  lemma {:induction false} RegisterEachSucceeds(known: seq<Category>, st: Loading, k: nat, xs: seq<EffectsInterceptor>)
    requires Resolve(known, {Preprocessing}).Unique?
    ensures RegisterEach(known, st, k, xs)
      == Loaded(st.(registered := Filed(st.registered, xs), steps := st.steps + Registrations(k, xs)), Pass)
    decreases |xs|
  {
    if xs != [] {
      var front := xs[..|xs| - 1];
      var x := xs[|xs| - 1];
      var prev := st.(registered := Filed(st.registered, front), steps := st.steps + Registrations(k, front));
      RegisterFiles(known, prev.registered, x);
      assert RegisterEach(known, st, k, xs)
        == Loaded(prev.(registered := Filed(prev.registered, [x]), steps := prev.steps + [Registered(k, x)]), Pass) by {
        RegisterEachSucceeds(known, st, k, front);
      }
      assert prev.steps + [Registered(k, x)] == st.steps + Registrations(k, xs) by {
        assert Registrations(k, xs) == Registrations(k, front) + [Registered(k, x)];
        Assoc(st.steps, Registrations(k, front), [Registered(k, x)]);
      }
      assert front + [x] == xs;
      FiledTwice(st.registered, front, [x]);
    }
  }

  /** When the registry resolves the preprocessing category, loading succeeds:
      the menu holds every plugin's items in plugin order, the preprocessing
      list ends with every plugin's interceptors in plugin order, each in the
      order the plugin yields them, and the calls are exactly `Trace(ps)`. */
  lemma {:induction false} LoadSucceeds(known: seq<Category>, st: Loading, ps: seq<Plugin>)
    requires Resolve(known, {Preprocessing}).Unique?
    ensures LoadEach(known, st, ps)
      == Loaded(Loading(st.menu + MenuOf(ps), Filed(st.registered, AllOffered(ps)), st.steps + Trace(ps)), Pass)
    decreases |ps|
  {
    if ps != [] {
      var front := ps[..|ps| - 1];
      var p := ps[|ps| - 1];
      var k := |ps| - 1;
      var prev := Loading(st.menu + MenuOf(front), Filed(st.registered, AllOffered(front)), st.steps + Trace(front));
      var ui := prev.(menu := prev.menu + p.menuItems, steps := prev.steps + [InitialisedUI(k)]);
      assert LoadEach(known, st, ps) == RegisterEach(known, ui, k, Offered(p)) by {
        LoadSucceeds(known, st, front);
      }
      RegisterEachSucceeds(known, ui, k, Offered(p));
      assert ui.menu == st.menu + MenuOf(ps) by {
        Assoc(st.menu, MenuOf(front), p.menuItems);
      }
      assert ui.steps + Registrations(k, Offered(p)) == st.steps + Trace(ps) by {
        var regs := Registrations(k, Offered(p));
        Assoc(st.steps + Trace(front), [InitialisedUI(k)], regs);
        Assoc(st.steps, Trace(front), [InitialisedUI(k)] + regs);
        Assoc(Trace(front), [InitialisedUI(k)], regs);
      }
      FiledTwice(st.registered, AllOffered(front), Offered(p));
    }
  }

  /** When the registry cannot resolve the preprocessing category, nothing is
      filed, and loading fails exactly when some plugin offers an interceptor. */
  lemma {:induction false} LoadFailsOnFirstOffer(known: seq<Category>, st: Loading, ps: seq<Plugin>)
    requires !Resolve(known, {Preprocessing}).Unique?
    ensures LoadEach(known, st, ps).state.registered == st.registered
    ensures LoadEach(known, st, ps).outcome.Pass? <==> AllOffered(ps) == []
    decreases |ps|
  {
    if ps != [] {
      var front := ps[..|ps| - 1];
      var p := ps[|ps| - 1];
      LoadFailsOnFirstOffer(known, st, front);
      var prev := LoadEach(known, st, front);
      if prev.outcome.Pass? {
        var ui := prev.state.(menu := prev.state.menu + p.menuItems, steps := prev.state.steps + [InitialisedUI(|ps| - 1)]);
        RegisterEachFailsAtOnce(known, ui, |ps| - 1, Offered(p));
      }
    }
  }

  lemma {:induction false} RegisterEachFailsAtOnce(known: seq<Category>, st: Loading, k: nat, xs: seq<EffectsInterceptor>)
    requires !Resolve(known, {Preprocessing}).Unique?
    ensures RegisterEach(known, st, k, xs).state == st
    ensures RegisterEach(known, st, k, xs).outcome.Pass? <==> xs == []
    decreases |xs|
  {
    if xs != [] {
      RegisterEachFailsAtOnce(known, st, k, xs[..|xs| - 1]);
    }
  }

  /** A plugin whose `GetInterceptors` returns null only installs its UI:
      nothing is registered and no fault occurs. */
  lemma NullInterceptorsRegisterNothing(known: seq<Category>, st: Loading, k: nat, p: Plugin)
    requires p.interceptors.None?
    ensures LoadOne(known, st, k, p)
      == Loaded(st.(menu := st.menu + p.menuItems, steps := st.steps + [InitialisedUI(k)]), Pass)
  {
  }

  /** In a complete load every plugin's `InitUI` is called exactly once, in input order. */
  lemma {:induction false} EachPluginInitialisedOnce(ps: seq<Plugin>)
    ensures InitsOf(Trace(ps)) == Upto(|ps|)
    decreases |ps|
  {
    if ps != [] {
      var front := ps[..|ps| - 1];
      var k := |ps| - 1;
      var regs := Registrations(k, Offered(ps[k]));
      var tail := [InitialisedUI(k)] + regs;
      assert Trace(ps) == Trace(front) + tail by {
        Assoc(Trace(front), [InitialisedUI(k)], regs);
      }
      assert InitsOf(tail) == [k] by {
        InitsOfAppend([InitialisedUI(k)], regs);
        NoInitsInRegistrations(k, Offered(ps[k]));
        assert [InitialisedUI(k)][..0] == [];
      }
      InitsOfAppend(Trace(front), tail);
      EachPluginInitialisedOnce(front);
      assert Upto(|ps|) == Upto(|front|) + [|ps| - 1];
    }
  }

  /** In a complete load the interceptors are registered plugin by plugin, each
      plugin's in the order it yields them. */
  lemma {:induction false} RegisteredInPluginOrder(ps: seq<Plugin>)
    ensures RegisteredOf(Trace(ps)) == AllOffered(ps)
    decreases |ps|
  {
    if ps != [] {
      var front := ps[..|ps| - 1];
      var k := |ps| - 1;
      var xs := Offered(ps[k]);
      var tail := [InitialisedUI(k)] + Registrations(k, xs);
      assert Trace(ps) == Trace(front) + tail by {
        Assoc(Trace(front), [InitialisedUI(k)], Registrations(k, xs));
      }
      assert RegisteredOf(tail) == xs by {
        RegisteredOfAppend([InitialisedUI(k)], Registrations(k, xs));
        RegisteredOfRegistrations(k, xs);
        assert [InitialisedUI(k)][..0] == [];
      }
      RegisteredOfAppend(Trace(front), tail);
      RegisteredInPluginOrder(front);
    }
  }

  /** In a complete load every registration of a plugin's interceptor comes
      after that plugin's `InitUI`. */
  lemma {:induction false} InitUIBeforeRegistration(ps: seq<Plugin>, j: nat)
    requires j < |Trace(ps)| && Trace(ps)[j].Registered?
    ensures exists i :: 0 <= i < j && Trace(ps)[i] == InitialisedUI(Trace(ps)[j].plugin)
    decreases |ps|
  {
    var front := ps[..|ps| - 1];
    var t := Trace(ps);
    var n := |Trace(front)|;
    assert t[..n] == Trace(front);
    if j < n {
      InitUIBeforeRegistration(front, j);
      var i :| 0 <= i < j && Trace(front)[i] == InitialisedUI(Trace(front)[j].plugin);
      assert t[i] == Trace(front)[i];
    } else {
      assert t[n] == InitialisedUI(|ps| - 1);
      assert j != n;
      assert t[j] == Registrations(|ps| - 1, Offered(ps[|ps| - 1]))[j - n - 1];
    }
  }

  lemma {:induction false} InitsOfAppend(a: seq<LoadStep>, b: seq<LoadStep>)
    ensures InitsOf(a + b) == InitsOf(a) + InitsOf(b)
    decreases |b|
  {
    if b != [] {
      var b' := b[..|b| - 1];
      assert (a + b)[..|a + b| - 1] == a + b';
      InitsOfAppend(a, b');
    } else {
      assert a + b == a;
    }
  }

  lemma {:induction false} RegisteredOfAppend(a: seq<LoadStep>, b: seq<LoadStep>)
    ensures RegisteredOf(a + b) == RegisteredOf(a) + RegisteredOf(b)
    decreases |b|
  {
    if b != [] {
      var b' := b[..|b| - 1];
      assert (a + b)[..|a + b| - 1] == a + b';
      RegisteredOfAppend(a, b');
    } else {
      assert a + b == a;
    }
  }

  lemma {:induction false} NoInitsInRegistrations(k: nat, xs: seq<EffectsInterceptor>)
    ensures InitsOf(Registrations(k, xs)) == []
    decreases |xs|
  {
    if xs != [] {
      NoInitsInRegistrations(k, xs[..|xs| - 1]);
      assert Registrations(k, xs)[..|xs| - 1] == Registrations(k, xs[..|xs| - 1]);
    }
  }

  lemma {:induction false} RegisteredOfRegistrations(k: nat, xs: seq<EffectsInterceptor>)
    ensures RegisteredOf(Registrations(k, xs)) == xs
    decreases |xs|
  {
    if xs != [] {
      RegisteredOfRegistrations(k, xs[..|xs| - 1]);
      assert Registrations(k, xs)[..|xs| - 1] == Registrations(k, xs[..|xs| - 1]);
    }
  }

  /** At start-up the registry knows the one category the repository defines,
      so loading from an empty registry files every offered interceptor, in
      plugin order, and installs every plugin's menu items. */
  lemma StartupLoad(ps: seq<Plugin>)
    ensures var r := LoadEach([Preprocessing], Loading([], map[], []), ps);
      && r.outcome == Pass
      && r.state.menu == MenuOf(ps)
      && Lookup(r.state.registered, Preprocessing) == AllOffered(ps)
  {
    ResolveUnique([Preprocessing], {Preprocessing}, Preprocessing);
    LoadSucceeds([Preprocessing], Loading([], map[], []), ps);
  }

  // ---------------------------------------------------------------------------
  // The host and the loader.

  /** The window a plugin extends: the menu items installed so far. */
  class UIHost {
    var items: seq<MenuItem>

    constructor ()
      ensures items == []
    {
      items := [];
    }

    /** Installs `item` at the end of the menu of its site. */
    method AddMenuItem(item: MenuItem)
      modifies this
      ensures items == old(items) + [item]
    {
      items := items + [item];
    }
  }

  /** `plugin.InitUI(host)`: the plugin installs its menu items, in order. */
  method InitUI(p: Plugin, host: UIHost)
    modifies host
    ensures host.items == old(host.items) + p.menuItems
  {
    for i := 0 to |p.menuItems|
      invariant host.items == old(host.items) + p.menuItems[..i]
    {
      host.AddMenuItem(p.menuItems[i]);
      assert p.menuItems[..i + 1] == p.menuItems[..i] + [p.menuItems[i]];
    }
    assert p.menuItems[..|p.menuItems|] == p.menuItems;
  }

  class PluginManager {
    const host: UIHost
    const registry: PreprocessingRegistry
    /** The calls made so far, for stating the order of loading. */
    ghost var steps: seq<LoadStep>

    constructor (host: UIHost, registry: PreprocessingRegistry)
      ensures this.host == host && this.registry == registry && steps == []
    {
      this.host := host;
      this.registry := registry;
      steps := [];
    }

    ghost function Current(): Loading
      reads this, host, registry
    {
      Loading(host.items, registry.interceptors, steps)
    }

    /** Loads every plugin of `plugins`, in order; a fault ends loading and is
        passed to the caller. */
    method LoadPlugins(plugins: seq<Plugin>) returns (r: Outcome)
      modifies this`steps, host, registry
      ensures Loaded(Current(), r) == LoadEach(registry.known, old(Current()), plugins)
    {
      r := Pass;
      var i := 0;
      while i < |plugins|
        invariant 0 <= i <= |plugins|
        invariant r == Pass
        invariant Loaded(Current(), Pass) == LoadEach(registry.known, old(Current()), plugins[..i])
      {
        assert plugins[..i + 1][..i] == plugins[..i];
        assert LoadEach(registry.known, old(Current()), plugins[..i + 1])
          == LoadOne(registry.known, Current(), i, plugins[i]);
        r := LoadPlugin(i, plugins[i]);
        if r.Fail? {
          assert LoadEach(registry.known, old(Current()), plugins[..i + 1]) == Loaded(Current(), r);
          LoadFaultPersists(registry.known, old(Current()), plugins, i + 1);
          return;
        }
        i := i + 1;
      }
      assert plugins[..i] == plugins;
    }

    /** The plugin at position `k` installs its UI, then its interceptors are registered. */
    method LoadPlugin(ghost k: nat, p: Plugin) returns (r: Outcome)
      modifies this`steps, host, registry
      ensures Loaded(Current(), r) == LoadOne(registry.known, old(Current()), k, p)
    {
      InitUI(p, host);
      steps := steps + [InitialisedUI(k)];
      r := LoadPluginInterceptors(k, p);
    }

    /** Registers the interceptors of plugin `k`, a null enumerable as none, in
        the order the plugin yields them; the first fault ends the loop. */
    method LoadPluginInterceptors(ghost k: nat, p: Plugin) returns (r: Outcome)
      modifies this`steps, registry
      ensures Loaded(Current(), r) == RegisterEach(registry.known, old(Current()), k, Offered(p))
    {
      var interceptors := if p.interceptors.Some? then p.interceptors.value else [];
      assert interceptors == Offered(p);
      r := Pass;
      var i := 0;
      while i < |interceptors|
        invariant 0 <= i <= |interceptors|
        invariant r == Pass
        invariant Loaded(Current(), Pass) == RegisterEach(registry.known, old(Current()), k, interceptors[..i])
      {
        var x := interceptors[i];
        assert interceptors[..i + 1][..i] == interceptors[..i];
        ghost var before := Current();
        r := registry.RegisterInterceptor(x, x.Implemented);
        assert RegisterEach(registry.known, old(Current()), k, interceptors[..i + 1])
          == (match Register(registry.known, before.registered, x, x.Implemented)
              case Ok(m) => Loaded(before.(registered := m, steps := before.steps + [Registered(k, x)]), Pass)
              case Err(f) => Loaded(before, Fail(f)));
        if r.Fail? {
          assert RegisterEach(registry.known, old(Current()), k, interceptors[..i + 1]) == Loaded(Current(), r);
          RegisterFaultPersists(registry.known, old(Current()), k, interceptors, i + 1);
          return;
        }
        steps := steps + [Registered(k, x)];
        i := i + 1;
      }
      assert interceptors[..i] == interceptors;
    }
  }
}
