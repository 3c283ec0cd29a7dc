/** What the registry and loader operations leave behind, table by table. */
module PluginEffects {
  import opened Common
  import opened ToolRegistry
  import opened PluginLoader

  // The registry.

  /** A new name is entered for its owner and published; a known one changes nothing. */
  ghost predicate Enters(r: Registry, name: Name, owner: Option<Name>, r': Registry) {
    if name in r.tools then r' == r
    else
      && r'.tools == r.tools[name := owner]
      && r'.events == r.events + [Registered(name, owner)]
      && (forall p :: NamesOf(r'.index, p) == NamesOf(r.index, p) + if owner == Some(p) then {name} else {})
  }

  lemma RegisterEffect(r: Registry, name: Name)
    ensures Enters(r, name, None, Register(r, name))
  {
  }

  lemma RegisterPluginEffect(r: Registry, plugin: Name, name: Name)
    ensures Enters(r, name, Some(plugin), RegisterPlugin(r, plugin, name))
  {
  }

  /** A known name is removed from the table and from its owner's names, and published. */
  lemma UnregisterEffect(r: Registry, name: Name)
    requires IndexAgrees(r)
    ensures var r' := Unregister(r, name);
            if name !in r.tools then r' == r
            else
              && r'.tools == r.tools - {name}
              && r'.events == r.events + [Unregistered(name, r.tools[name])]
              && (forall p :: NamesOf(r'.index, p) == NamesOf(r.index, p) - {name})
  {
    forall p ensures NamesOf(Unregister(r, name).index, p) == NamesOf(r.index, p) - {name} {
      assert Indexed(r, p, name) <==> Belongs(r, p, name);
    }
  }

  // The loader.

  /** Plugin `name` is there with its directory, active, with a new handle that has no handlers. */
  predicate FreshlyLoaded(l: Loader, name: Name, directory: Name, id: ApiId) {
    && name in l.plugins && l.plugins[name] == Info(directory, Active)
    && name in l.apis && l.apis[name] == id && id < |l.handles| && l.handles[id] == Api(name, {})
  }

  /** Everything about the plugins other than those in `names` is as before. */
  ghost predicate OthersKept(l: Loader, names: set<Name>, l': Loader) {
    && l'.plugins - names == l.plugins - names && l'.apis - names == l.apis - names
    && |l.handles| <= |l'.handles|
    && (forall id | 0 <= id < |l.handles| && l.handles[id].plugin !in names :: l'.handles[id] == l.handles[id])
    && (forall n | n in l.registry.tools && !Of(l.registry.tools[n], names) ::
          n in l'.registry.tools && l'.registry.tools[n] == l.registry.tools[n])
    && (forall h | h in l.owners && l.owners[h] !in names :: h in l'.owners && l'.owners[h] == l.owners[h])
  }

  predicate Of(owner: Option<Name>, names: set<Name>) {
    owner.Some? && owner.value in names
  }

  /** The plugin owns neither tools nor handlers. */
  predicate OwnsNothing(l: Loader, name: Name) {
    && (forall n | n in l.registry.tools :: l.registry.tools[n] != Some(name))
    && (forall h | h in l.owners :: l.owners[h] != name)
  }

  /** A load of a new name enters the plugin with a new handle and publishes it; nothing else changes. */
  lemma LoadEffect(l: Loader, directory: Name, manifest: Option<Name>)
    ensures var l' := Load(l, directory, manifest);
            if manifest.None? || manifest.value in l.plugins then l' == l
            else
              && FreshlyLoaded(l', manifest.value, directory, |l.handles|)
              && OthersKept(l, {manifest.value}, l')
              && l'.registry == l.registry && l'.owners == l.owners
              && l'.events == l.events + [Loaded(manifest.value)]
  {
  }

  /** An unload of a loaded plugin removes it with all it owns, and publishes that. */
  lemma UnloadEffect(l: Loader, name: Name, order: seq<Name>)
    requires Valid(l) && name in l.plugins && Lists(order, NamesOf(l.registry.index, name))
    ensures var l' := Unload(l, name, order);
            && name !in l'.plugins && name !in l'.apis && OwnsNothing(l', name)
            && OthersKept(l, {name}, l')
            && |l'.handles| == |l.handles| && l'.handles[l.apis[name]] == Api(name, {})
            && l'.events == l.events + [Unloaded(name)]
  {
    UnloadRemoves(l, name, order);
  }

  /** What the first half of a reload leaves. */
  lemma ReloadUnloads(l: Loader, name: Name, manifest: Option<Name>, order: seq<Name>) returns (unloaded: Loader)
    requires Valid(l) && name in l.plugins && Lists(order, NamesOf(l.registry.index, name))
    ensures Reload(l, name, manifest, order) == Load(unloaded, l.plugins[name].directory, manifest)
    ensures unloaded.plugins == l.plugins - {name} && unloaded.apis == l.apis - {name}
    ensures OwnsNothing(unloaded, name) && OthersKept(l, {name}, unloaded)
    ensures forall p | p !in l.plugins :: OwnsNothing(unloaded, p)
    ensures |unloaded.handles| == |l.handles| && unloaded.events == l.events + [Unloaded(name)]
    ensures forall id | 0 <= id < |l.handles| :: unloaded.handles[id].plugin == l.handles[id].plugin
  {
    var info := Info(l.plugins[name].directory, Reloading);
    var marked := l.(plugins := l.plugins[name := info]);
    MarkIsValid(l, name, info);
    UnloadEffect(marked, name, order);
    UnloadRemoves(marked, name, order);
    unloaded := Unload(marked, name, order);
    assert marked.plugins - {name} == l.plugins - {name};
    forall p | p !in l.plugins ensures OwnsNothing(unloaded, p) {
      NoTracesLeft(l, p);
    }
  }

  lemma MapsKept<V>(a: map<Name, V>, b: map<Name, V>, c: map<Name, V>, x: Name, y: Name)
    requires b - {x} == a - {x} && c - {y} == b - {y}
    ensures c - {x, y} == a - {x, y}
  {
    assert c - {x, y} == (c - {y}) - {x} == (b - {y}) - {x};
    assert (b - {y}) - {x} == (b - {x}) - {y} == a - {x, y};
  }

  lemma TwoKept(l: Loader, x: Name, m: Loader, y: Name, n: Loader)
    requires OthersKept(l, {x}, m) && OthersKept(m, {y}, n)
    requires forall id | 0 <= id < |l.handles| :: id < |m.handles| && m.handles[id].plugin == l.handles[id].plugin
    ensures OthersKept(l, {x, y}, n)
  {
    MapsKept(l.plugins, m.plugins, n.plugins, x, y);
    MapsKept(l.apis, m.apis, n.apis, x, y);
    ToolsKept(l.registry.tools, m.registry.tools, n.registry.tools, x, y);
  }

  lemma ToolsKept(a: map<Name, Option<Name>>, b: map<Name, Option<Name>>, c: map<Name, Option<Name>>, x: Name, y: Name)
    requires forall n | n in a && !Of(a[n], {x}) :: n in b && b[n] == a[n]
    requires forall n | n in b && !Of(b[n], {y}) :: n in c && c[n] == b[n]
    ensures forall n | n in a && !Of(a[n], {x, y}) :: n in c && c[n] == a[n]
  {
    forall n | n in a && !Of(a[n], {x, y}) ensures n in c && c[n] == a[n] {
      assert !Of(a[n], {x}) && !Of(b[n], {y});
    }
  }

  /** A reload that succeeds leaves the plugin that the manifest names, from the same directory, active,
      owning nothing, with a new handle; the events tell of the unload and of the load. */
  lemma ReloadEffect(l: Loader, name: Name, manifest: Option<Name>, order: seq<Name>)
    requires Valid(l) && name in l.plugins && Lists(order, NamesOf(l.registry.index, name))
    requires manifest.Some? && (manifest.value == name || manifest.value !in l.plugins)
    ensures var l' := Reload(l, name, manifest, order);
            && FreshlyLoaded(l', manifest.value, l.plugins[name].directory, |l.handles|)
            && OwnsNothing(l', manifest.value) && OwnsNothing(l', name)
            && (name != manifest.value ==> name !in l'.plugins && name !in l'.apis)
            && l'.events == l.events + [Unloaded(name), Loaded(manifest.value)]
  {
    var unloaded := ReloadUnloads(l, name, manifest, order);
    LoadEffect(unloaded, l.plugins[name].directory, manifest);
    assert [Unloaded(name)] + [Loaded(manifest.value)] == [Unloaded(name), Loaded(manifest.value)];
  }

  /** All other plugins keep what they have, whether or not the reload succeeds. */
  lemma ReloadKeepsOthers(l: Loader, name: Name, manifest: Option<Name>, order: seq<Name>)
    requires Valid(l) && name in l.plugins && Lists(order, NamesOf(l.registry.index, name))
    ensures var l' := Reload(l, name, manifest, order);
            if manifest.Some? && (manifest.value == name || manifest.value !in l.plugins)
            then OthersKept(l, {name, manifest.value}, l') else OthersKept(l, {name}, l')
  {
    var unloaded := ReloadUnloads(l, name, manifest, order);
    LoadEffect(unloaded, l.plugins[name].directory, manifest);
    if manifest.Some? && (manifest.value == name || manifest.value !in l.plugins) {
      TwoKept(l, name, unloaded, manifest.value, Reload(l, name, manifest, order));
    }
  }

  /** A reload that cannot load again leaves the plugin unloaded; one of an unknown plugin does nothing. */
  lemma FailedReload(l: Loader, name: Name, manifest: Option<Name>, order: seq<Name>)
    requires Valid(l) && Lists(order, NamesOf(l.registry.index, name))
    requires name in l.plugins ==> manifest.None? || (manifest.value != name && manifest.value in l.plugins)
    ensures var l' := Reload(l, name, manifest, order);
            if name !in l.plugins then l' == l
            else
              && l'.plugins == l.plugins - {name} && l'.apis == l.apis - {name} && OwnsNothing(l', name)
              && l'.events == l.events + [Unloaded(name)]
  {
    if name in l.plugins {
      var unloaded := ReloadUnloads(l, name, manifest, order);
      LoadEffect(unloaded, l.plugins[name].directory, manifest);
    }
  }

  /** An accepted registration gives the tool to the plugin of the handle. */
  lemma RegisterToolEffect(l: Loader, id: ApiId, tool: Name)
    requires id < |l.handles|
    ensures var l' := RegisterTool(l, id, tool);
            && Enters(l.registry, tool, Some(l.handles[id].plugin), l'.registry)
            && l' == l.(registry := l'.registry)
  {
    RegisterPluginEffect(l.registry, l.handles[id].plugin, tool);
  }

  /** An accepted handler belongs to the plugin of the handle, and the handle holds it. */
  lemma RegisterHandlerEffect(l: Loader, id: ApiId, handler: Name)
    requires id < |l.handles|
    ensures var l' := RegisterHandler(l, id, handler);
            if handler in l.owners then l' == l
            else
              && l'.owners == l.owners[handler := l.handles[id].plugin]
              && |l'.handles| == |l.handles| && l'.handles[id].plugin == l.handles[id].plugin
              && l'.handles[id].handlers == l.handles[id].handlers + {handler}
              && (forall i | 0 <= i < |l.handles| && i != id :: l'.handles[i] == l.handles[i])
              && l'.plugins == l.plugins && l'.apis == l.apis && l'.registry == l.registry && l'.events == l.events
  {
  }
}
