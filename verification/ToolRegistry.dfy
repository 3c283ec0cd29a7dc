/** The tool registry: tools by name, an index of them by plugin, and the published events. */
module ToolRegistry {
  import opened Common

  type Name = string

  /** A published lifecycle event, with the plugin that owns the tool (none for built-in tools). */
  datatype Event = Registered(name: Name, owner: Option<Name>) | Unregistered(name: Name, owner: Option<Name>)

  /** `tools` gives the owner of each registered name, `index` the names of each plugin. */
  datatype Registry = Registry(tools: map<Name, Option<Name>>, index: map<Name, set<Name>>, events: seq<Event>)

  const Empty := Registry(map[], map[], [])

  function Register(r: Registry, name: Name): Registry {
    if name in r.tools then r
    else r.(tools := r.tools[name := None], events := r.events + [Registered(name, None)])
  }

  function NamesOf(index: map<Name, set<Name>>, plugin: Name): set<Name> {
    if plugin in index then index[plugin] else {}
  }

  function RegisterPlugin(r: Registry, plugin: Name, name: Name): Registry {
    if name in r.tools then r
    else Registry(r.tools[name := Some(plugin)], r.index[plugin := NamesOf(r.index, plugin) + {name}],
                  r.events + [Registered(name, Some(plugin))])
  }

  /** An index set that becomes empty is removed. */
  function Unindex(index: map<Name, set<Name>>, plugin: Name, name: Name): map<Name, set<Name>> {
    if plugin !in index then index
    else if index[plugin] - {name} == {} then index - {plugin}
    else index[plugin := index[plugin] - {name}]
  }

  function Unregister(r: Registry, name: Name): Registry {
    if name !in r.tools then r else
    var owner := r.tools[name];
    Registry(r.tools - {name}, if owner.None? then r.index else Unindex(r.index, owner.value, name),
             r.events + [Unregistered(name, owner)])
  }

  function Elements(names: seq<Name>): set<Name> {
    set n | n in names
  }

  function UnregisteredEvents(names: seq<Name>, plugin: Name): seq<Event> {
    if names == [] then [] else
    UnregisteredEvents(names[..|names| - 1], plugin) + [Unregistered(names[|names| - 1], Some(plugin))]
  }

  /** The names are removed one by one, in the order in which the hash set lists them. */
  function UnregisterPlugin(r: Registry, plugin: Name, order: seq<Name>): Registry {
    if plugin !in r.index then r
    else Registry(r.tools - Elements(order), r.index - {plugin}, r.events + UnregisteredEvents(order, plugin))
  }

  /** `order` lists exactly the elements of `names`, each once. */
  predicate Lists(order: seq<Name>, names: set<Name>) {
    Elements(order) == names && forall i, j | 0 <= i < j < |order| :: order[i] != order[j]
  }

  /** What a subscriber that has seen all events believes about the registry. */
  function Replay(events: seq<Event>): map<Name, Option<Name>> {
    if events == [] then map[] else
    var before, event := Replay(events[..|events| - 1]), events[|events| - 1];
    if event.Registered? then before[event.name := event.owner] else before - {event.name}
  }

  /** A name is in a plugin's index set exactly when the tool table gives it that owner, and no
      index set is empty. */
  ghost predicate IndexAgrees(r: Registry) {
    && (forall p, n :: Indexed(r, p, n) <==> Belongs(r, p, n))
    && (forall p | p in r.index :: r.index[p] != {})
  }

  predicate Indexed(r: Registry, p: Name, n: Name) {
    p in r.index && n in r.index[p]
  }

  predicate Belongs(r: Registry, p: Name, n: Name) {
    n in r.tools && r.tools[n] == Some(p)
  }

  /** A subscriber believes what is true. */
  predicate EventsTell(r: Registry) {
    Replay(r.events) == r.tools
  }

  ghost predicate Consistent(r: Registry) {
    IndexAgrees(r) && EventsTell(r)
  }

  datatype Op =
    | DoRegister(name: Name)
    | DoRegisterPlugin(plugin: Name, name: Name)
    | DoUnregister(name: Name)
    | DoUnregisterPlugin(plugin: Name, order: seq<Name>)

  /** A listing order is possible only if it enumerates the plugin's index set. */
  function Apply(r: Registry, op: Op): Registry {
    match op
    case DoRegister(name) => Register(r, name)
    case DoRegisterPlugin(plugin, name) => RegisterPlugin(r, plugin, name)
    case DoUnregister(name) => Unregister(r, name)
    case DoUnregisterPlugin(plugin, order) =>
      if Lists(order, NamesOf(r.index, plugin)) then UnregisterPlugin(r, plugin, order) else r
  }

  function Run(r: Registry, ops: seq<Op>): Registry
    decreases ops
  {
    if ops == [] then r else Run(Apply(r, ops[0]), ops[1..])
  }

  /** `removed` lists the part of `all` that is not in `names` any more. */
  predicate Taken(all: set<Name>, removed: seq<Name>, names: set<Name>) {
    names == all - Elements(removed) && Elements(removed) <= all && Lists(removed, Elements(removed))
  }

  lemma TakeOne(all: set<Name>, removed: seq<Name>, names: set<Name>, name: Name)
    requires Taken(all, removed, names) && name in names
    ensures Taken(all, removed + [name], names - {name})
  {
    var more := removed + [name];
    assert Elements(more) == Elements(removed) + {name};
    assert name !in removed;
  }

  lemma StillThere(
    tools: map<Name, Option<Name>>, all: set<Name>, removed: seq<Name>, names: set<Name>, name: Name)
    requires Taken(all, removed, names) && name in names && all <= tools.Keys
    ensures name in tools - Elements(removed)
  {
  }

  lemma OneMoreEvent(events: seq<Event>, removed: seq<Name>, name: Name, plugin: Name)
    ensures events + UnregisteredEvents(removed + [name], plugin) ==
            (events + UnregisteredEvents(removed, plugin)) + [Unregistered(name, Some(plugin))]
  {
    assert (removed + [name])[..|removed|] == removed;
  }

  lemma NothingLeft(all: set<Name>, removed: seq<Name>)
    requires Taken(all, removed, {})
    ensures Lists(removed, all)
  {
    assert forall n | n in all && n !in Elements(removed) :: n in all - Elements(removed);
    assert Elements(removed) == all;
  }

  lemma ReplayLast(events: seq<Event>, event: Event)
    ensures Replay(events + [event]) ==
            if event.Registered? then Replay(events)[event.name := event.owner] else Replay(events) - {event.name}
  {
    var all := events + [event];
    assert all[..|all| - 1] == events;
  }

  lemma RemoveMore(tools: map<Name, Option<Name>>, names: seq<Name>, name: Name)
    ensures (tools - Elements(names)) - {name} == tools - Elements(names + [name])
  {
    assert Elements(names + [name]) == Elements(names) + {name};
  }

  lemma {:induction false} ReplayRemovals(events: seq<Event>, names: seq<Name>, plugin: Name)
    ensures Replay(events + UnregisteredEvents(names, plugin)) == Replay(events) - Elements(names)
    decreases |names|
  {
    if names == [] {
      assert events + [] == events;
      assert Replay(events) - {} == Replay(events);
    } else {
      var init, last := names[..|names| - 1], names[|names| - 1];
      ReplayRemovals(events, init, plugin);
      var event := Unregistered(last, Some(plugin));
      var before := events + UnregisteredEvents(init, plugin);
      assert events + UnregisteredEvents(names, plugin) == before + [event];
      ReplayLast(before, event);
      RemoveMore(Replay(events), init, last);
      assert names == init + [last];
    }
  }

  lemma RegisterAgrees(r: Registry, name: Name)
    requires IndexAgrees(r)
    ensures IndexAgrees(Register(r, name))
  {
    var r' := Register(r, name);
    forall p, n ensures Indexed(r', p, n) <==> Belongs(r', p, n) {
      assert Indexed(r, p, n) <==> Belongs(r, p, n);
    }
  }

  lemma RegisterPluginConsistent(r: Registry, plugin: Name, name: Name)
    requires Consistent(r)
    ensures Consistent(RegisterPlugin(r, plugin, name))
  {
    if name !in r.tools {
      ReplayLast(r.events, Registered(name, Some(plugin)));
      var r' := RegisterPlugin(r, plugin, name);
      forall p, n ensures Indexed(r', p, n) <==> Belongs(r', p, n) {
        assert Indexed(r, p, n) <==> Belongs(r, p, n);
      }
    }
  }

  lemma UnregisterConsistent(r: Registry, name: Name)
    requires Consistent(r)
    ensures Consistent(Unregister(r, name))
  {
    if name in r.tools {
      ReplayLast(r.events, Unregistered(name, r.tools[name]));
      var r' := Unregister(r, name);
      forall p, n ensures Indexed(r', p, n) <==> Belongs(r', p, n) {
        assert Indexed(r, p, n) <==> Belongs(r, p, n);
      }
    }
  }

  /** Unregistering a plugin removes its tools, all of them and no others. */
  lemma UnregisterPluginExact(r: Registry, plugin: Name, order: seq<Name>)
    requires Consistent(r) && Lists(order, NamesOf(r.index, plugin))
    ensures var r' := UnregisterPlugin(r, plugin, order);
            && Consistent(r')
            && r'.tools == (map n | n in r.tools && r.tools[n] != Some(plugin) :: r.tools[n])
            && r'.index == r.index - {plugin}
  {
    var r' := UnregisterPlugin(r, plugin, order);
    forall n ensures Belongs(r, plugin, n) <==> n in Elements(order) {
      assert Indexed(r, plugin, n) <==> Belongs(r, plugin, n);
    }
    if plugin in r.index {
      ReplayRemovals(r.events, order, plugin);
    }
    assert r'.tools == (map n | n in r.tools && r.tools[n] != Some(plugin) :: r.tools[n]) by {
      assert forall n | n in r.tools :: r.tools[n] == Some(plugin) <==> Belongs(r, plugin, n);
    }
    forall p, n ensures Indexed(r', p, n) <==> Belongs(r', p, n) {
      assert Indexed(r, p, n) <==> Belongs(r, p, n);
    }
  }

  /** In every reachable state index and table agree, and replaying the events rebuilds the table. */
  lemma {:induction false} RunIsConsistent(r: Registry, ops: seq<Op>)
    requires Consistent(r)
    ensures Consistent(Run(r, ops))
    decreases |ops|
  {
    if ops != [] {
      match ops[0] {
        case DoRegister(name) =>
          RegisterAgrees(r, name);
          ReplayLast(r.events, Registered(name, None));
        case DoRegisterPlugin(plugin, name) => RegisterPluginConsistent(r, plugin, name);
        case DoUnregister(name) => UnregisterConsistent(r, name);
        case DoUnregisterPlugin(plugin, order) =>
          if Lists(order, NamesOf(r.index, plugin)) { UnregisterPluginExact(r, plugin, order); }
      }
      RunIsConsistent(Apply(r, ops[0]), ops[1..]);
    }
  }

  class Tools {
    var tools: map<Name, Option<Name>>
    var index: map<Name, set<Name>>
    var events: seq<Event>

    ghost function View(): Registry
      reads this
    {
      Registry(tools, index, events)
    }

    constructor ()
      ensures View() == Empty && Consistent(View())
    {
      tools, index, events := map[], map[], [];
    }

    method RegisterBuiltIn(name: Name) returns (ok: bool)
      modifies this
      ensures View() == Register(old(View()), name)
      ensures ok <==> name !in old(tools)
    {
      if name in tools { return false; }
      tools := tools[name := None];
      events := events + [Registered(name, None)];
      return true;
    }

    method RegisterPluginTool(plugin: Name, name: Name) returns (ok: bool)
      modifies this
      ensures View() == RegisterPlugin(old(View()), plugin, name)
      ensures ok <==> name !in old(tools)
    {
      if name in tools { return false; }
      tools := tools[name := Some(plugin)];
      if plugin !in index {
        index := index[plugin := {}];
      }
      index := index[plugin := index[plugin] + {name}];
      events := events + [Registered(name, Some(plugin))];
      assert index == old(index)[plugin := NamesOf(old(index), plugin) + {name}];
      return true;
    }

    method UnregisterTool(name: Name) returns (ok: bool)
      modifies this
      ensures View() == Unregister(old(View()), name)
      ensures ok <==> name in old(tools)
    {
      if name !in tools { return false; }
      var owner := tools[name];
      tools := tools - {name};
      if owner.Some? && owner.value in index {
        var names := index[owner.value] - {name};
        index := if names == {} then index - {owner.value} else index[owner.value := names];
      }
      events := events + [Unregistered(name, owner)];
      return true;
    }

    /** The loop takes the names in any order; `removed` tells which. */
    method UnregisterPluginTools(plugin: Name) returns (removed: seq<Name>)
      requires Consistent(View())
      modifies this
      ensures Lists(removed, NamesOf(old(index), plugin))
      ensures View() == UnregisterPlugin(old(View()), plugin, removed)
    {
      removed := [];
      if plugin !in index { return; }
      var names := index[plugin];
      ghost var all := names;
      forall n | n in all ensures n in tools {
        assert Indexed(View(), plugin, n) && Belongs(View(), plugin, n);
      }
      assert all <= tools.Keys;
      index := index - {plugin};
      while names != {}
        invariant Taken(all, removed, names)
        invariant index == old(index) - {plugin}
        invariant tools == old(tools) - Elements(removed)
        invariant events == old(events) + UnregisteredEvents(removed, plugin)
        decreases names
      {
        var name :| name in names;
        TakeOne(all, removed, names, name);
        StillThere(old(tools), all, removed, names, name);
        names := names - {name};
        if name in tools {
          RemoveMore(old(tools), removed, name);
          OneMoreEvent(old(events), removed, name, plugin);
          tools := tools - {name};
          events := events + [Unregistered(name, Some(plugin))];
          removed := removed + [name];
        }
      }
      NothingLeft(all, removed);
    }
  }
}
