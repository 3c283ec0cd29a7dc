/** Loading, unloading and reloading of plugins, and the registrations that plugins make through
    their API handles. A handle outlives the plugin it was made for: whoever holds it can still use it. */
module PluginLoader {
  import opened Common
  import opened ToolRegistry

  type ApiId = nat

  datatype Status = Active | Reloading

  datatype Info = Info(directory: Name, status: Status)

  /** A handle: the plugin it speaks for and the event handlers registered through it. */
  datatype Api = Api(plugin: Name, handlers: set<Name>)

  datatype LifeEvent = Loaded(plugin: Name) | Unloaded(plugin: Name)

  /** `apis` gives the installed handle of each plugin; `handles` all handles ever made, the next one
      being number `|handles|`; `owners` is the shared handler registry. */
  datatype Loader = Loader(plugins: map<Name, Info>, apis: map<Name, ApiId>, handles: seq<Api>,
                           owners: map<Name, Name>, registry: Registry, events: seq<LifeEvent>)

  /** `manifest` is the name found in the plugin directory, none if the manifest cannot be read. */
  function Load(l: Loader, directory: Name, manifest: Option<Name>): Loader {
    if manifest.None? || manifest.value in l.plugins then l else
    var name := manifest.value;
    l.(plugins := l.plugins[name := Info(directory, Active)], apis := l.apis[name := |l.handles|],
       handles := l.handles + [Api(name, {})], events := l.events + [Loaded(name)])
  }

  /** Remove everything that the handle's plugin has registered. */
  function Cleanup(l: Loader, id: ApiId, order: seq<Name>): Loader
    requires id < |l.handles|
  {
    var plugin := l.handles[id].plugin;
    l.(registry := UnregisterPlugin(l.registry, plugin, order),
       handles := l.handles[id := Api(plugin, {})],
       owners := map h | h in l.owners && l.owners[h] != plugin :: l.owners[h])
  }

  function Unload(l: Loader, name: Name, order: seq<Name>): Loader {
    var cleaned := if name in l.apis && l.apis[name] < |l.handles|
                   then Cleanup(l, l.apis[name], order).(apis := l.apis - {name}) else l;
    if name !in l.plugins then cleaned
    else cleaned.(plugins := l.plugins - {name}, events := l.events + [Unloaded(name)])
  }

  function Reload(l: Loader, name: Name, manifest: Option<Name>, order: seq<Name>): Loader {
    if name !in l.plugins then l else
    var directory := l.plugins[name].directory;
    Load(Unload(l.(plugins := l.plugins[name := Info(directory, Reloading)]), name, order), directory, manifest)
  }

  function RegisterTool(l: Loader, id: ApiId, tool: Name): Loader
    requires id < |l.handles|
  {
    l.(registry := RegisterPlugin(l.registry, l.handles[id].plugin, tool))
  }

  function RegisterHandler(l: Loader, id: ApiId, handler: Name): Loader
    requires id < |l.handles|
  {
    if handler in l.owners then l else
    var api := l.handles[id];
    l.(owners := l.owners[handler := api.plugin], handles := l.handles[id := Api(api.plugin, api.handlers + {handler})])
  }

  // Correctness.

  /** Whether the last event about the plugin says that it is loaded. */
  function Live(events: seq<LifeEvent>, p: Name): bool {
    if events == [] then false else
    var last := events[|events| - 1];
    if last.plugin == p then last.Loaded? else Live(events[..|events| - 1], p)
  }

  /** The events about the plugin alternate, starting with loaded. */
  predicate Alternates(events: seq<LifeEvent>, p: Name) {
    events != [] ==>
      var init, last := events[..|events| - 1], events[|events| - 1];
      Alternates(init, p) && (last.plugin == p ==> last.Loaded? != Live(init, p))
  }

  predicate Installed(l: Loader, id: ApiId)
    requires id < |l.handles|
  {
    l.handles[id].plugin in l.apis && l.apis[l.handles[id].plugin] == id
  }

  predicate MapsAgree(l: Loader) {
    && l.plugins.Keys == l.apis.Keys
    && forall p | p in l.apis :: l.apis[p] < |l.handles| && l.handles[l.apis[p]].plugin == p
  }

  predicate Owns(l: Loader, p: Name, h: Name) {
    p in l.apis && l.apis[p] < |l.handles| && h in l.handles[l.apis[p]].handlers
  }

  /** The handlers known to a plugin's handle are exactly those that the shared registry gives it. */
  ghost predicate HandlersAgree(l: Loader) {
    && (forall h | h in l.owners :: Owns(l, l.owners[h], h))
    && (forall p, h | Owns(l, p, h) :: h in l.owners && l.owners[h] == p)
  }

  predicate ToolsAreOwned(l: Loader) {
    forall n | n in l.registry.tools && l.registry.tools[n].Some? :: l.registry.tools[n].value in l.plugins
  }

  ghost predicate EventsAgree(l: Loader) {
    forall p :: Alternates(l.events, p) && Live(l.events, p) == (p in l.plugins)
  }

  ghost predicate Valid(l: Loader) {
    MapsAgree(l) && HandlersAgree(l) && Consistent(l.registry) && ToolsAreOwned(l) && EventsAgree(l)
  }

  lemma LiveAfter(events: seq<LifeEvent>, event: LifeEvent, p: Name)
    ensures Live(events + [event], p) == if event.plugin == p then event.Loaded? else Live(events, p)
    ensures Alternates(events + [event], p) <==>
              Alternates(events, p) && (event.plugin == p ==> event.Loaded? != Live(events, p))
  {
    var all := events + [event];
    assert all[..|all| - 1] == events;
  }

  lemma LoadIsValid(l: Loader, directory: Name, manifest: Option<Name>)
    requires Valid(l)
    ensures Valid(Load(l, directory, manifest))
  {
    if manifest.Some? && manifest.value !in l.plugins {
      var name, l' := manifest.value, Load(l, directory, manifest);
      forall p ensures Alternates(l'.events, p) && Live(l'.events, p) == (p in l'.plugins) {
        LiveAfter(l.events, Loaded(name), p);
      }
      assert forall p, h :: Owns(l', p, h) <==> Owns(l, p, h);
    }
  }

  /** `l'` is `l` without the tools and handlers of `name`, and everybody else's untouched. */
  predicate WithoutPlugin(l: Loader, name: Name, l': Loader) {
    && l'.plugins == l.plugins - {name} && l'.apis == l.apis - {name}
    && l'.registry.tools ==
       (map n | n in l.registry.tools && l.registry.tools[n] != Some(name) :: l.registry.tools[n])
    && l'.owners == (map h | h in l.owners && l.owners[h] != name :: l.owners[h])
    && |l'.handles| == |l.handles|
    && forall id | 0 <= id < |l.handles| && l.handles[id].plugin != name :: l'.handles[id] == l.handles[id]
  }

  lemma UnloadRemoves(l: Loader, name: Name, order: seq<Name>)
    requires Valid(l) && Lists(order, NamesOf(l.registry.index, name))
    ensures WithoutPlugin(l, name, Unload(l, name, order)) && Consistent(Unload(l, name, order).registry)
  {
    if name in l.plugins {
      UnregisterPluginExact(l.registry, name, order);
    } else {
      NoTracesLeft(l, name);
    }
  }

  lemma UnloadKeepsEvents(l: Loader, name: Name, order: seq<Name>)
    requires Valid(l)
    ensures EventsAgree(Unload(l, name, order))
  {
    var l' := Unload(l, name, order);
    if name in l.plugins {
      forall p ensures Alternates(l'.events, p) && Live(l'.events, p) == (p in l'.plugins) {
        LiveAfter(l.events, Unloaded(name), p);
      }
    }
  }

  lemma WithoutPluginHandlers(l: Loader, name: Name, l': Loader)
    requires MapsAgree(l) && HandlersAgree(l) && WithoutPlugin(l, name, l')
    ensures MapsAgree(l') && HandlersAgree(l')
  {
    assert forall p, h :: Owns(l', p, h) <==> p != name && Owns(l, p, h);
  }

  /** Unloading a plugin removes its tools and handlers and nobody else's. */
  lemma UnloadIsExact(l: Loader, name: Name, order: seq<Name>)
    requires Valid(l) && Lists(order, NamesOf(l.registry.index, name))
    ensures Valid(Unload(l, name, order)) && WithoutPlugin(l, name, Unload(l, name, order))
  {
    UnloadRemoves(l, name, order);
    UnloadKeepsEvents(l, name, order);
    WithoutPluginHandlers(l, name, Unload(l, name, order));
  }

  lemma IndexedIsLoaded(l: Loader)
    requires Consistent(l.registry) && ToolsAreOwned(l)
    ensures forall p | p in l.registry.index :: p in l.plugins
  {
    forall p | p in l.registry.index
      ensures p in l.plugins
    {
      var n :| n in l.registry.index[p];
      assert Indexed(l.registry, p, n) && Belongs(l.registry, p, n);
    }
  }

  /** A plugin that is not loaded owns nothing. */
  lemma NoTracesLeft(l: Loader, name: Name)
    requires Valid(l) && name !in l.plugins
    ensures l.registry.tools ==
            (map n | n in l.registry.tools && l.registry.tools[n] != Some(name) :: l.registry.tools[n])
    ensures l.owners == (map h | h in l.owners && l.owners[h] != name :: l.owners[h])
    ensures name !in l.registry.index
  {
    IndexedIsLoaded(l);
    forall h | h in l.owners ensures l.owners[h] != name {
      assert Owns(l, l.owners[h], h);
    }
  }

  lemma ReloadIsValid(l: Loader, name: Name, manifest: Option<Name>, order: seq<Name>)
    requires Valid(l) && Lists(order, NamesOf(l.registry.index, name))
    ensures Valid(Reload(l, name, manifest, order))
  {
    if name in l.plugins {
      var directory := l.plugins[name].directory;
      var marked := l.(plugins := l.plugins[name := Info(directory, Reloading)]);
      MarkIsValid(l, name, Info(directory, Reloading));
      UnloadIsExact(marked, name, order);
      LoadIsValid(Unload(marked, name, order), directory, manifest);
    }
  }

  lemma MarkIsValid(l: Loader, name: Name, info: Info)
    requires Valid(l) && name in l.plugins
    ensures Valid(l.(plugins := l.plugins[name := info]))
  {
    var marked := l.(plugins := l.plugins[name := info]);
    assert marked.plugins.Keys == l.plugins.Keys;
    assert forall p, h :: Owns(marked, p, h) <==> Owns(l, p, h);
    assert forall p :: p in marked.plugins <==> p in l.plugins;
  }

  /** Registering a tool keeps the invariant exactly when it is rejected or its plugin is loaded. */
  lemma RegisterToolValidIff(l: Loader, id: ApiId, tool: Name)
    requires Valid(l) && id < |l.handles|
    ensures Valid(RegisterTool(l, id, tool)) <==> tool in l.registry.tools || l.handles[id].plugin in l.plugins
  {
    var l' := RegisterTool(l, id, tool);
    RegisterPluginConsistent(l.registry, l.handles[id].plugin, tool);
    assert forall p, h :: Owns(l', p, h) <==> Owns(l, p, h);
    if tool !in l.registry.tools {
      assert l'.registry.tools[tool] == Some(l.handles[id].plugin);
    }
  }

  /** Registering a handler keeps the invariant exactly when it is rejected or the handle is the
      installed one. */
  lemma RegisterHandlerValidIff(l: Loader, id: ApiId, handler: Name)
    requires Valid(l) && id < |l.handles|
    ensures Valid(RegisterHandler(l, id, handler)) <==> handler in l.owners || Installed(l, id)
  {
    var l', plugin := RegisterHandler(l, id, handler), l.handles[id].plugin;
    if handler !in l.owners {
      assert !Owns(l, plugin, handler);
      if Installed(l, id) {
        assert forall p, h :: Owns(l', p, h) <==> Owns(l, p, h) || (p == plugin && h == handler);
      } else {
        assert l'.owners[handler] == plugin;
        assert !Owns(l', plugin, handler);
      }
    }
  }

  datatype Step =
    | DoLoad(directory: Name, manifest: Option<Name>)
    | DoUnload(name: Name, order: seq<Name>)
    | DoReload(name: Name, manifest: Option<Name>, order: seq<Name>)
    | DoRegisterTool(id: ApiId, tool: Name)
    | DoRegisterHandler(id: ApiId, handler: Name)

  /** The step is possible: orders enumerate index sets, and handles exist. */
  predicate Enabled(l: Loader, step: Step) {
    match step
    case DoLoad(_, _) => true
    case DoUnload(name, order) => Lists(order, NamesOf(l.registry.index, name))
    case DoReload(name, _, order) => Lists(order, NamesOf(l.registry.index, name))
    case DoRegisterTool(id, _) => id < |l.handles|
    case DoRegisterHandler(id, _) => id < |l.handles|
  }

  function Next(l: Loader, step: Step): Loader
    requires Enabled(l, step)
  {
    match step
    case DoLoad(directory, manifest) => Load(l, directory, manifest)
    case DoUnload(name, order) => Unload(l, name, order)
    case DoReload(name, manifest, order) => Reload(l, name, manifest, order)
    case DoRegisterTool(id, tool) => RegisterTool(l, id, tool)
    case DoRegisterHandler(id, handler) => RegisterHandler(l, id, handler)
  }

  /** An accepted tool belongs to a loaded plugin (through whichever of its handles it came), and an
      accepted handler comes through the handle that is installed for its plugin. */
  predicate LeavesNoTrace(l: Loader, step: Step)
    requires Enabled(l, step)
  {
    && (step.DoRegisterTool? ==> step.tool in l.registry.tools || l.handles[step.id].plugin in l.plugins)
    && (step.DoRegisterHandler? ==> step.handler in l.owners || Installed(l, step.id))
  }

  predicate Possible(l: Loader, steps: seq<Step>)
    decreases steps
  {
    steps != [] ==> Enabled(l, steps[0]) && Possible(Next(l, steps[0]), steps[1..])
  }

  ghost predicate AlwaysValid(l: Loader, steps: seq<Step>)
    requires Possible(l, steps)
    decreases steps
  {
    Valid(l) && (steps != [] ==> AlwaysValid(Next(l, steps[0]), steps[1..]))
  }

  predicate AllLeaveNoTrace(l: Loader, steps: seq<Step>)
    requires Possible(l, steps)
    decreases steps
  {
    steps != [] ==> LeavesNoTrace(l, steps[0]) && AllLeaveNoTrace(Next(l, steps[0]), steps[1..])
  }

  lemma NextValidIff(l: Loader, step: Step)
    requires Valid(l) && Enabled(l, step)
    ensures Valid(Next(l, step)) <==> LeavesNoTrace(l, step)
  {
    match step
    case DoLoad(directory, manifest) => LoadIsValid(l, directory, manifest);
    case DoUnload(name, order) => UnloadIsExact(l, name, order);
    case DoReload(name, manifest, order) => ReloadIsValid(l, name, manifest, order);
    case DoRegisterTool(id, tool) => RegisterToolValidIff(l, id, tool);
    case DoRegisterHandler(id, handler) => RegisterHandlerValidIff(l, id, handler);
  }

  /** Over every run the lifecycle is exact at every point if and only if every accepted tool of the
      run is registered for a loaded plugin and every accepted handler through an installed handle. */
  lemma {:induction false} LifecycleIsExactIff(l: Loader, steps: seq<Step>)
    requires Valid(l) && Possible(l, steps)
    ensures AlwaysValid(l, steps) <==> AllLeaveNoTrace(l, steps)
    decreases |steps|
  {
    if steps != [] {
      NextValidIff(l, steps[0]);
      var next := Next(l, steps[0]);
      if Valid(next) {
        LifecycleIsExactIff(next, steps[1..]);
      } else {
        assert !AlwaysValid(next, steps[1..]);
      }
    }
  }

  /** Without that condition it is not: a handler registered through the handle of an unloaded plugin
      stays with a plugin that is not there. */
  lemma StaleHandleLeavesTrace()
    ensures var empty := Loader(map[], map[], [], map[], Empty, []);
            var l := Unload(Load(empty, "dir", Some("p")), "p", []);
            l.plugins == map[] && RegisterHandler(l, 0, "h").owners == map["h" := "p"]
  {
    var empty := Loader(map[], map[], [], map[], Empty, []);
    var loaded := Load(empty, "dir", Some("p"));
    assert loaded.apis["p"] == 0 && loaded.handles[0].plugin == "p";
    var l := Unload(loaded, "p", []);
    assert l.handles[0].plugin == "p" && l.owners == map[] && l.plugins == map[];
  }

  class Plugins {
    const registry: Tools
    var plugins: map<Name, Info>
    var apis: map<Name, ApiId>
    var handles: seq<Api>
    var owners: map<Name, Name>
    var events: seq<LifeEvent>

    ghost function View(): Loader
      reads this, registry
    {
      Loader(plugins, apis, handles, owners, registry.View(), events)
    }

    constructor (registry: Tools)
      ensures this.registry == registry
      ensures View() == Loader(map[], map[], [], map[], registry.View(), [])
    {
      this.registry := registry;
      plugins, apis, handles, owners, events := map[], map[], [], map[], [];
    }

    method LoadPlugin(directory: Name, manifest: Option<Name>) returns (ok: bool)
      modifies this
      ensures View() == Load(old(View()), directory, manifest)
      ensures ok <==> manifest.Some? && manifest.value !in old(plugins)
    {
      if manifest.None? { return false; }
      var name := manifest.value;
      if name in plugins { return false; }
      var id := |handles|;
      handles := handles + [Api(name, {})];
      plugins := plugins[name := Info(directory, Active)];
      apis := apis[name := id];
      events := events + [Loaded(name)];
      return true;
    }

    method UnloadPlugin(name: Name) returns (ok: bool, order: seq<Name>)
      requires Valid(View())
      modifies this, registry
      ensures Lists(order, NamesOf(old(registry.index), name))
      ensures View() == Unload(old(View()), name, order)
      ensures ok <==> name in old(plugins)
    {
      ghost var l := View();
      if name !in apis {
        NoTracesLeft(l, name);
        return false, [];
      }
      var id := apis[name];
      apis := apis - {name};
      order := registry.UnregisterPluginTools(name);
      handles := handles[id := Api(name, {})];
      owners := map h | h in owners && owners[h] != name :: owners[h];
      plugins := plugins - {name};
      events := events + [Unloaded(name)];
      ok := true;
    }

    method ReloadPlugin(name: Name, manifest: Option<Name>) returns (ok: bool, order: seq<Name>)
      requires Valid(View())
      modifies this, registry
      ensures Lists(order, NamesOf(old(registry.index), name)) || name !in old(plugins)
      ensures View() == Reload(old(View()), name, manifest, order)
      ensures ok <==> name in old(plugins) && manifest.Some?
                      && (manifest.value == name || manifest.value !in old(plugins))
      ensures ok ==>
                && manifest.value in plugins && plugins[manifest.value] == Info(old(plugins)[name].directory, Active)
                && manifest.value in apis && apis[manifest.value] == |old(handles)|
                && |handles| == |old(handles)| + 1 && handles[|old(handles)|] == Api(manifest.value, {})
      ensures name in old(plugins) && !(ok && manifest.value == name) ==> name !in plugins && name !in apis
    {
      if name !in plugins { return false, []; }
      var directory := plugins[name].directory;
      MarkIsValid(View(), name, Info(directory, Reloading));
      plugins := plugins[name := Info(directory, Reloading)];
      var unloaded;
      unloaded, order := UnloadPlugin(name);
      ok := LoadPlugin(directory, manifest);
    }

    method ApiRegisterTool(id: ApiId, tool: Name) returns (ok: bool)
      requires id < |handles|
      modifies registry
      ensures View() == RegisterTool(old(View()), id, tool)
      ensures ok <==> tool !in old(registry.tools)
    {
      ok := registry.RegisterPluginTool(handles[id].plugin, tool);
    }

    method ApiRegisterHandler(id: ApiId, handler: Name) returns (ok: bool)
      requires id < |handles|
      modifies this
      ensures View() == RegisterHandler(old(View()), id, handler)
      ensures ok <==> handler !in old(owners)
    {
      if handler in owners { return false; }
      var api := handles[id];
      owners := owners[handler := api.plugin];
      handles := handles[id := Api(api.plugin, api.handlers + {handler})];
      return true;
    }
  }
}
