/** The plugin lifecycle with every call split at its locks: loads, unloads and registrations overlap in
    any way, for the same plugin or for different ones. */
module PluginInterleaving {
  import opened Common
  import opened ToolRegistry
  import opened PluginLoader

  type CallId = nat

  /** A load has found the name free, has entered the plugin, or has installed its handle. */
  datatype LoadStage = Checked | Listed | Handled

  /** An unload has taken the handle out; then the plugin's tools, the handlers of the handle and the
      shared handler names are cleared, and the entry is removed, each under its own lock. */
  datatype UnloadStage = Detached | ToolsCleared | HandlersCleared | NamesCleared | Delisted

  /** A call under way. An unload that found no handle has nothing to clear. */
  datatype Call =
    | Loading(name: Name, directory: Name, at: LoadStage)
    | Unloading(name: Name, handle: Option<ApiId>, stage: UnloadStage)

  /** `pending` holds the handler registrations whose name is claimed and whose handler is not stored yet. */
  datatype State = State(loader: Loader, calls: map<CallId, Call>, pending: multiset<(ApiId, Name)>)

  datatype Action =
    | CheckName(call: CallId, directory: Name, name: Name)
    | ListPlugin(call: CallId, name: Name)
    | InstallHandle(call: CallId)
    | PublishLoaded(call: CallId)
    | MarkReloading(name: Name)
    | Detach(call: CallId, name: Name)
    | ClearTools(call: CallId, order: seq<Name>)
    | ClearHandlers(call: CallId)
    | ClearNames(call: CallId)
    | Delist(call: CallId)
    | PublishUnloaded(call: CallId)
    | AddTool(id: ApiId, tool: Name)
    | ClaimName(id: ApiId, handler: Name)
    | StoreHandler(id: ApiId, handler: Name)

  predicate LoadAt(s: State, call: CallId, at: LoadStage) {
    call in s.calls && s.calls[call].Loading? && s.calls[call].at == at
  }

  predicate UnloadAt(s: State, call: CallId, stage: UnloadStage) {
    call in s.calls && s.calls[call].Unloading? && s.calls[call].stage == stage
  }

  /** The action is possible: calls go through their stages in order, and a handler is stored only
      after its name was claimed. */
  predicate Can(s: State, a: Action) {
    var handles := s.loader.handles;
    match a
    case CheckName(call, _, _) => call !in s.calls
    case ListPlugin(call, name) => LoadAt(s, call, Checked) && s.calls[call].name == name
    case InstallHandle(call) => LoadAt(s, call, Listed)
    case PublishLoaded(call) => LoadAt(s, call, Handled)
    case MarkReloading(_) => true
    case Detach(call, _) => call !in s.calls
    case ClearTools(call, order) =>
      UnloadAt(s, call, Detached) && Lists(order, NamesOf(s.loader.registry.index, s.calls[call].name))
    case ClearHandlers(call) =>
      && UnloadAt(s, call, ToolsCleared)
      && s.calls[call].handle.Some? && s.calls[call].handle.value < |handles|
    case ClearNames(call) => UnloadAt(s, call, HandlersCleared)
    case Delist(call) => UnloadAt(s, call, NamesCleared)
    case PublishUnloaded(call) => UnloadAt(s, call, Delisted)
    case AddTool(id, _) => id < |handles|
    case ClaimName(id, _) => id < |handles|
    case StoreHandler(id, handler) => id < |handles| && (id, handler) in s.pending
  }

  function WithHandlers(l: Loader, id: ApiId, handlers: set<Name>): Loader
    requires id < |l.handles|
  {
    l.(handles := l.handles[id := l.handles[id].(handlers := handlers)])
  }

  function Marked(l: Loader, name: Name): Loader {
    if name in l.plugins then l.(plugins := l.plugins[name := l.plugins[name].(status := Reloading)]) else l
  }

  function Without(owners: map<Name, Name>, plugin: Name): map<Name, Name> {
    map h | h in owners && owners[h] != plugin :: owners[h]
  }

  /** What the action does to the loader. */
  function LoaderAfter(s: State, a: Action): Loader
    requires Can(s, a)
  {
    var l := s.loader;
    match a
    case CheckName(_, _, _) => l
    case ListPlugin(call, name) => l.(plugins := l.plugins[name := Info(s.calls[call].directory, Active)])
    case InstallHandle(call) =>
      l.(apis := l.apis[s.calls[call].name := |l.handles|], handles := l.handles + [Api(s.calls[call].name, {})])
    case PublishLoaded(call) => l.(events := l.events + [Loaded(s.calls[call].name)])
    case MarkReloading(name) => Marked(l, name)
    case Detach(_, name) => l.(apis := l.apis - {name})
    case ClearTools(call, order) => l.(registry := UnregisterPlugin(l.registry, s.calls[call].name, order))
    case ClearHandlers(call) => WithHandlers(l, s.calls[call].handle.value, {})
    case ClearNames(call) => l.(owners := Without(l.owners, s.calls[call].name))
    case Delist(call) => l.(plugins := l.plugins - {s.calls[call].name})
    case PublishUnloaded(call) => l.(events := l.events + [Unloaded(s.calls[call].name)])
    case AddTool(id, tool) => RegisterTool(l, id, tool)
    case ClaimName(id, handler) =>
      if handler in l.owners then l else l.(owners := l.owners[handler := l.handles[id].plugin])
    case StoreHandler(id, handler) => WithHandlers(l, id, l.handles[id].handlers + {handler})
  }

  /** How the calls go on. A load of a listed name and an unload of an unlisted one end with an error. */
  function CallsAfter(s: State, a: Action): map<CallId, Call>
    requires Can(s, a)
  {
    var l := s.loader;
    match a
    case CheckName(call, directory, name) =>
      if name in l.plugins then s.calls else s.calls[call := Loading(name, directory, Checked)]
    case ListPlugin(call, _) => s.calls[call := s.calls[call].(at := Listed)]
    case InstallHandle(call) => s.calls[call := s.calls[call].(at := Handled)]
    case PublishLoaded(call) => s.calls - {call}
    case Detach(call, name) =>
      s.calls[call := if name in l.apis then Unloading(name, Some(l.apis[name]), Detached)
                      else Unloading(name, None, NamesCleared)]
    case ClearTools(call, _) => s.calls[call := s.calls[call].(stage := ToolsCleared)]
    case ClearHandlers(call) => s.calls[call := s.calls[call].(stage := HandlersCleared)]
    case ClearNames(call) => s.calls[call := s.calls[call].(stage := NamesCleared)]
    case Delist(call) =>
      if s.calls[call].name in l.plugins then s.calls[call := s.calls[call].(stage := Delisted)] else s.calls - {call}
    case PublishUnloaded(call) => s.calls - {call}
    case _ => s.calls
  }

  function PendingAfter(s: State, a: Action): multiset<(ApiId, Name)>
    requires Can(s, a)
  {
    match a
    case ClaimName(id, handler) =>
      if handler in s.loader.owners then s.pending else s.pending + multiset{(id, handler)}
    case StoreHandler(id, handler) => s.pending - multiset{(id, handler)}
    case _ => s.pending
  }

  function After(s: State, a: Action): State
    requires Can(s, a)
  {
    State(LoaderAfter(s, a), CallsAfter(s, a), PendingAfter(s, a))
  }

  /** Entries change only when a load enters its plugin, active and with its directory, when a reload
      marks one, and when an unload removes one; a check changes nothing that is known of plugins. */
  lemma EntriesAfter(s: State, a: Action, p: Name)
    requires Can(s, a)
    ensures var before, after := s.loader.plugins, After(s, a).loader.plugins;
            match a
            case ListPlugin(call, name) =>
              if p == name then p in after && after[p] == Info(s.calls[call].directory, Active)
              else Entry(after, p) == Entry(before, p)
            case MarkReloading(name) =>
              if p == name && p in before then p in after && after[p] == Info(before[p].directory, Reloading)
              else Entry(after, p) == Entry(before, p)
            case Delist(call) => Entry(after, p) == if p == s.calls[call].name then None else Entry(before, p)
            case _ => after == before
    ensures a.CheckName? ==> After(s, a).loader == s.loader && After(s, a).pending == s.pending
  {
  }

  function Entry(plugins: map<Name, Info>, p: Name): Option<Info> {
    if p in plugins then Some(plugins[p]) else None
  }

  // What holds between any two actions.

  /** The call has begun to change what is known about its plugin. */
  predicate Works(call: Call) {
    match call
    case Loading(_, _, at) => at != Checked
    case Unloading(_, handle, stage) => handle.Some? || stage == Delisted
  }

  predicate WorksOn(s: State, c: CallId, p: Name) {
    c in s.calls && s.calls[c].name == p && Works(s.calls[c])
  }

  ghost predicate Busy(s: State, p: Name) {
    exists c :: WorksOn(s, c, p)
  }

  predicate In(l: Loader, p: Name, listed: bool, handled: bool, live: bool) {
    (p in l.plugins <==> listed) && (p in l.apis <==> handled) && (Live(l.events, p) <==> live)
  }

  /** The plugin is where the call has left it. */
  predicate CallFits(l: Loader, call: Call) {
    match call
    case Loading(p, _, at) => at != Checked ==> In(l, p, true, at == Handled, false)
    case Unloading(p, handle, stage) =>
      if stage == Delisted then In(l, p, false, false, true)
      else if handle.None? then stage == NamesCleared
      else In(l, p, true, false, true) && handle.value < |l.handles| && l.handles[handle.value].plugin == p
  }

  predicate CallsFit(s: State) {
    forall c | c in s.calls :: CallFits(s.loader, s.calls[c])
  }

  /** No two calls are at work on the same plugin. */
  ghost predicate Alone(s: State) {
    forall c, d, p | WorksOn(s, c, p) && WorksOn(s, d, p) :: c == d
  }

  /** A plugin that no call works on is loaded, by its entry, its handle and its events, or it is not. */
  ghost predicate IdleFit(s: State) {
    forall p | !Busy(s, p) :: In(s.loader, p, p in s.loader.plugins, p in s.loader.plugins, p in s.loader.plugins)
  }

  ghost predicate PhasesFit(s: State) {
    && CallsFit(s) && Alone(s) && IdleFit(s)
    && forall p :: Alternates(s.loader.events, p)
  }

  predicate HandlesFit(s: State) {
    var l := s.loader;
    && (forall p | p in l.apis :: l.apis[p] < |l.handles| && l.handles[l.apis[p]].plugin == p)
    && (forall x | x in s.pending :: x.0 < |l.handles|)
  }

  predicate ClearedTools(call: Call) {
    call.Unloading? && call.handle.Some? && call.stage in {ToolsCleared, HandlersCleared, NamesCleared}
  }

  /** The plugin may own tools: it is listed, and no unload has cleared its tools. */
  predicate MayOwnTools(s: State, p: Name) {
    p in s.loader.plugins && forall c | c in s.calls && s.calls[c].name == p :: !ClearedTools(s.calls[c])
  }

  predicate AllOwned(s: State, tools: map<Name, Option<Name>>) {
    forall n | n in tools && tools[n].Some? :: MayOwnTools(s, tools[n].value)
  }

  ghost predicate ToolsFit(s: State) {
    Consistent(s.loader.registry) && AllOwned(s, s.loader.registry.tools)
  }

  /** The installed handle of the plugin holds the handler, or is about to. */
  predicate Claims(s: State, p: Name, h: Name) {
    var l := s.loader;
    && p in l.apis && l.apis[p] < |l.handles|
    && (h in l.handles[l.apis[p]].handlers || (l.apis[p], h) in s.pending)
  }

  predicate WillClearNames(call: Call) {
    call.Unloading? && call.handle.Some? && call.stage in {Detached, ToolsCleared, HandlersCleared}
  }

  predicate NamesDoomed(s: State, p: Name) {
    exists c | c in s.calls :: s.calls[c].name == p && WillClearNames(s.calls[c])
  }

  /** Handler names belong to the installed handles that claim them, or to unloads that will clear them. */
  ghost predicate NamesFit(s: State) {
    var owners := s.loader.owners;
    && (forall h | h in owners :: Claims(s, owners[h], h) || NamesDoomed(s, owners[h]))
    && (forall p, h | Claims(s, p, h) :: h in owners && owners[h] == p)
  }

  ghost predicate Fits(s: State) {
    PhasesFit(s) && HandlesFit(s) && ToolsFit(s) && NamesFit(s)
  }

  /** Nothing is under way. */
  predicate Quiet(s: State) {
    s.calls == map[] && s.pending == multiset{}
  }

  /** Between operations the invariant of the loader holds. */
  lemma QuietIsValid(s: State)
    requires Fits(s) && Quiet(s)
    ensures Valid(s.loader)
  {
    var l := s.loader;
    assert forall p, h :: Owns(l, p, h) <==> Claims(s, p, h);
    assert forall p :: !Busy(s, p);
    assert forall p :: In(l, p, p in l.plugins, p in l.plugins, p in l.plugins);
    assert l.plugins.Keys == l.apis.Keys by {
      assert forall p :: p in l.plugins <==> p in l.apis;
    }
    assert forall p :: NamesDoomed(s, p) ==> false;
  }

  // What goes wrong.

  /** A load enters a plugin that is listed by now, or whose unload is not published yet; an unload
      takes the handle of a plugin whose load is not published yet; or an unload that found no handle
      finds the plugin listed after all. */
  ghost predicate Clashes(s: State, a: Action)
    requires Can(s, a)
  {
    match a
    case ListPlugin(_, name) => name in s.loader.plugins || Busy(s, name)
    case Detach(_, name) => name in s.loader.apis && Busy(s, name)
    case Delist(call) => s.calls[call].handle.None? && s.calls[call].name in s.loader.plugins
    case _ => false
  }

  /** A tool is accepted after the plugin's tools were cleared, or a handler name after its names were. */
  predicate Late(s: State, a: Action)
    requires Can(s, a)
  {
    match a
    case AddTool(id, tool) => tool !in s.loader.registry.tools && !MayOwnTools(s, s.loader.handles[id].plugin)
    case ClaimName(id, handler) =>
      handler !in s.loader.owners && !Installed(s.loader, id) && !NamesDoomed(s, s.loader.handles[id].plugin)
    case _ => false
  }

  // Phases.

  /** Calls that do the same work leave the plugins as busy as they were. */
  lemma SameWork(s: State, t: State)
    requires forall c, p :: WorksOn(s, c, p) <==> WorksOn(t, c, p)
    ensures forall p :: Busy(s, p) <==> Busy(t, p)
    ensures Alone(s) <==> Alone(t)
  {
    forall p ensures Busy(s, p) <==> Busy(t, p) {
      if c :| WorksOn(s, c, p) { assert WorksOn(t, c, p); }
      if c :| WorksOn(t, c, p) { assert WorksOn(s, c, p); }
    }
  }

  /** Nothing changes that the phases speak of. */
  predicate SamePhases(l: Loader, m: Loader) {
    && m.plugins.Keys == l.plugins.Keys && m.apis.Keys == l.apis.Keys && m.events == l.events
    && |m.handles| == |l.handles|
    && forall i | 0 <= i < |l.handles| :: m.handles[i].plugin == l.handles[i].plugin
  }

  lemma PhasesStay(s: State, t: State)
    requires PhasesFit(s) && SamePhases(s.loader, t.loader)
    requires forall c | c in s.calls && Works(s.calls[c]) :: c in t.calls
    requires forall c | c in t.calls ::
               if c in s.calls
               then t.calls[c].name == s.calls[c].name && Works(t.calls[c]) == Works(s.calls[c]) &&
                    (CallFits(s.loader, s.calls[c]) ==> CallFits(s.loader, t.calls[c]))
               else !Works(t.calls[c]) && CallFits(s.loader, t.calls[c])
    ensures PhasesFit(t)
  {
    var l, m := s.loader, t.loader;
    assert forall p :: (p in m.plugins <==> p in l.plugins) && (p in m.apis <==> p in l.apis);
    SameWork(s, t);
    forall c | c in t.calls ensures CallFits(m, t.calls[c]) {
      assert CallFits(l, t.calls[c]);
    }
    forall p | !Busy(t, p) ensures In(m, p, p in m.plugins, p in m.plugins, p in m.plugins) {
      assert !Busy(s, p);
    }
  }

  /** Only call `c` and what is known about plugin `p` change. */
  ghost predicate MovesOnly(s: State, t: State, c: CallId, p: Name) {
    var l, m := s.loader, t.loader;
    && (forall d | d != c :: d in t.calls <==> d in s.calls)
    && (forall d | d != c && d in s.calls :: t.calls[d] == s.calls[d])
    && (c in s.calls ==> s.calls[c].name == p) && (c in t.calls ==> t.calls[c].name == p)
    && (forall q | q != p :: In(m, q, q in l.plugins, q in l.apis, Live(l.events, q)))
    && |l.handles| <= |m.handles|
    && (forall i | 0 <= i < |l.handles| :: m.handles[i].plugin == l.handles[i].plugin)
  }

  lemma OthersFit(s: State, t: State, c: CallId, p: Name, d: CallId)
    requires CallsFit(s) && MovesOnly(s, t, c, p) && d != c && d in t.calls && !WorksOn(s, d, p)
    ensures CallFits(t.loader, t.calls[d])
  {
    assert CallFits(s.loader, s.calls[d]);
  }

  lemma OthersWork(s: State, t: State, c: CallId, p: Name)
    requires MovesOnly(s, t, c, p)
    ensures forall d, q | d != c :: WorksOn(t, d, q) <==> WorksOn(s, d, q)
    ensures forall q | q != p :: Busy(t, q) <==> Busy(s, q)
  {
    forall q | q != p ensures Busy(t, q) <==> Busy(s, q) {
      if d :| WorksOn(s, d, q) { assert WorksOn(t, d, q); }
      if d :| WorksOn(t, d, q) { assert WorksOn(s, d, q); }
    }
  }

  /** A call that is alone on its plugin may take it along. */
  lemma PhaseMoves(s: State, t: State, c: CallId, p: Name)
    requires PhasesFit(s) && MovesOnly(s, t, c, p)
    requires forall d | d != c :: !WorksOn(s, d, p)
    requires forall q :: Alternates(t.loader.events, q)
    requires c in t.calls ==> CallFits(t.loader, t.calls[c])
    requires WorksOn(t, c, p) || exists b :: In(t.loader, p, b, b, b)
    ensures PhasesFit(t)
  {
    var m := t.loader;
    OthersWork(s, t, c, p);
    forall d | d in t.calls ensures CallFits(m, t.calls[d]) {
      if d != c { OthersFit(s, t, c, p, d); }
    }
    forall q | !Busy(t, q) ensures In(m, q, q in m.plugins, q in m.plugins, q in m.plugins) {
      if q == p {
        assert !WorksOn(t, c, p);
        var b :| In(m, p, b, b, b);
      } else {
        assert !Busy(s, q);
      }
    }
  }

  lemma IdleIs(s: State, p: Name)
    requires IdleFit(s) && !Busy(s, p)
    ensures In(s.loader, p, p in s.loader.plugins, p in s.loader.plugins, p in s.loader.plugins)
    ensures forall c :: !WorksOn(s, c, p)
  {
  }

  lemma TwoAtWork(t: State, c: CallId, d: CallId, p: Name)
    requires c != d && WorksOn(t, c, p) && WorksOn(t, d, p)
    ensures !PhasesFit(t)
  {
  }

  lemma ListPhasesIff(s: State, c: CallId, p: Name)
    requires PhasesFit(s) && Can(s, ListPlugin(c, p))
    ensures PhasesFit(After(s, ListPlugin(c, p))) <==> !Clashes(s, ListPlugin(c, p))
  {
    var t := After(s, ListPlugin(c, p));
    assert WorksOn(t, c, p);
    if d :| WorksOn(s, d, p) {
      assert WorksOn(t, d, p);
      TwoAtWork(t, c, d, p);
    } else {
      assert !Busy(s, p);
      IdleIs(s, p);
      if p in s.loader.plugins {
        assert !CallFits(t.loader, t.calls[c]);
      } else {
        assert MovesOnly(s, t, c, p);
        PhaseMoves(s, t, c, p);
      }
    }
  }

  lemma InstallPhases(s: State, c: CallId)
    requires PhasesFit(s) && Can(s, InstallHandle(c))
    ensures PhasesFit(After(s, InstallHandle(c)))
  {
    var t, p := After(s, InstallHandle(c)), s.calls[c].name;
    assert WorksOn(s, c, p) && WorksOn(t, c, p) && CallFits(s.loader, s.calls[c]);
    assert MovesOnly(s, t, c, p);
    PhaseMoves(s, t, c, p);
  }

  lemma PublishLoadedPhases(s: State, c: CallId)
    requires PhasesFit(s) && Can(s, PublishLoaded(c))
    ensures PhasesFit(After(s, PublishLoaded(c)))
  {
    var t, p := After(s, PublishLoaded(c)), s.calls[c].name;
    assert WorksOn(s, c, p) && CallFits(s.loader, s.calls[c]);
    var events := t.loader.events;
    forall q ensures Alternates(events, q) && Live(events, q) == (q == p || Live(s.loader.events, q)) {
      LiveAfter(s.loader.events, Loaded(p), q);
    }
    assert MovesOnly(s, t, c, p) && In(t.loader, p, true, true, true);
    PhaseMoves(s, t, c, p);
  }

  lemma DetachPhasesIff(s: State, c: CallId, p: Name)
    requires PhasesFit(s) && HandlesFit(s) && Can(s, Detach(c, p))
    ensures PhasesFit(After(s, Detach(c, p))) <==> !Clashes(s, Detach(c, p))
  {
    var t := After(s, Detach(c, p));
    if p !in s.loader.apis {
      PhasesStay(s, t);
    } else {
      assert WorksOn(t, c, p);
      if d :| WorksOn(s, d, p) {
        assert WorksOn(t, d, p);
        TwoAtWork(t, c, d, p);
      } else {
        assert !Busy(s, p);
        IdleIs(s, p);
        assert MovesOnly(s, t, c, p);
        PhaseMoves(s, t, c, p);
      }
    }
  }

  lemma DelistPhasesIff(s: State, c: CallId)
    requires PhasesFit(s) && Can(s, Delist(c))
    ensures PhasesFit(After(s, Delist(c))) <==> !Clashes(s, Delist(c))
  {
    var t, p := After(s, Delist(c)), s.calls[c].name;
    assert CallFits(s.loader, s.calls[c]);
    if s.calls[c].handle.Some? {
      assert WorksOn(s, c, p) && WorksOn(t, c, p) && MovesOnly(s, t, c, p);
      PhaseMoves(s, t, c, p);
    } else if p !in s.loader.plugins {
      PhasesStay(s, t);
    } else {
      assert WorksOn(t, c, p);
      if d :| WorksOn(s, d, p) {
        assert WorksOn(t, d, p);
        TwoAtWork(t, c, d, p);
      } else {
        assert !Busy(s, p);
        IdleIs(s, p);
        assert !CallFits(t.loader, t.calls[c]);
      }
    }
  }

  lemma PublishUnloadedPhases(s: State, c: CallId)
    requires PhasesFit(s) && Can(s, PublishUnloaded(c))
    ensures PhasesFit(After(s, PublishUnloaded(c)))
  {
    var t, p := After(s, PublishUnloaded(c)), s.calls[c].name;
    assert WorksOn(s, c, p) && CallFits(s.loader, s.calls[c]);
    var events := t.loader.events;
    forall q ensures Alternates(events, q) && Live(events, q) == (q != p && Live(s.loader.events, q)) {
      LiveAfter(s.loader.events, Unloaded(p), q);
    }
    assert MovesOnly(s, t, c, p) && In(t.loader, p, false, false, false);
    PhaseMoves(s, t, c, p);
  }

  lemma ClearPhases(s: State, a: Action)
    requires PhasesFit(s) && Can(s, a) && (a.ClearTools? || a.ClearHandlers? || a.ClearNames?)
    ensures PhasesFit(After(s, a))
  {
    assert CallFits(s.loader, s.calls[a.call]);
    PhasesStay(s, After(s, a));
  }

  predicate Registers(a: Action) {
    a.AddTool? || a.ClaimName? || a.StoreHandler?
  }

  lemma RegistrationPhases(s: State, a: Action)
    requires PhasesFit(s) && Can(s, a) && Registers(a)
    ensures PhasesFit(After(s, a))
  {
    PhasesStay(s, After(s, a));
  }

  lemma CheckPhases(s: State, a: Action)
    requires PhasesFit(s) && Can(s, a) && (a.CheckName? || a.MarkReloading?)
    ensures PhasesFit(After(s, a))
  {
    var t := After(s, a);
    assert t.loader.plugins.Keys == s.loader.plugins.Keys;
    PhasesStay(s, t);
  }

  lemma PhasesIff(s: State, a: Action)
    requires PhasesFit(s) && HandlesFit(s) && Can(s, a)
    ensures PhasesFit(After(s, a)) <==> !Clashes(s, a)
  {
    match a
    case CheckName(_, _, _) => CheckPhases(s, a);
    case ListPlugin(c, p) => ListPhasesIff(s, c, p);
    case InstallHandle(c) => InstallPhases(s, c);
    case PublishLoaded(c) => PublishLoadedPhases(s, c);
    case MarkReloading(_) => CheckPhases(s, a);
    case Detach(c, p) => DetachPhasesIff(s, c, p);
    case ClearTools(_, _) => ClearPhases(s, a);
    case ClearHandlers(_) => ClearPhases(s, a);
    case ClearNames(_) => ClearPhases(s, a);
    case Delist(c) => DelistPhasesIff(s, c);
    case PublishUnloaded(c) => PublishUnloadedPhases(s, c);
    case AddTool(_, _) => RegistrationPhases(s, a);
    case ClaimName(_, _) => RegistrationPhases(s, a);
    case StoreHandler(_, _) => RegistrationPhases(s, a);
  }

  /** Handles keep their plugins, and new entries name handles of their own plugin. */
  lemma HandlesCarry(s: State, t: State)
    requires HandlesFit(s) && |s.loader.handles| <= |t.loader.handles|
    requires forall i | 0 <= i < |s.loader.handles| :: t.loader.handles[i].plugin == s.loader.handles[i].plugin
    requires forall p | p in t.loader.apis && !(p in s.loader.apis && t.loader.apis[p] == s.loader.apis[p]) ::
               t.loader.apis[p] < |t.loader.handles| && t.loader.handles[t.loader.apis[p]].plugin == p
    requires forall x | x in t.pending :: x in s.pending || x.0 < |t.loader.handles|
    ensures HandlesFit(t)
  {
  }

  lemma RegistrationHandles(s: State, a: Action)
    requires HandlesFit(s) && Can(s, a) && Registers(a)
    ensures HandlesFit(After(s, a))
  {
    HandlesCarry(s, After(s, a));
  }

  lemma CallHandles(s: State, a: Action)
    requires HandlesFit(s) && Can(s, a) && !Registers(a)
    ensures HandlesFit(After(s, a))
  {
    HandlesCarry(s, After(s, a));
  }

  lemma HandlesKeep(s: State, a: Action)
    requires HandlesFit(s) && Can(s, a)
    ensures HandlesFit(After(s, a))
  {
    if Registers(a) {
      RegistrationHandles(s, a);
    } else {
      CallHandles(s, a);
    }
  }

  // Tools.

  lemma OwnedBy(s: State, t: State, tools: map<Name, Option<Name>>)
    requires AllOwned(s, tools) && forall p | MayOwnTools(s, p) :: MayOwnTools(t, p)
    ensures AllOwned(t, tools)
  {
  }

  lemma OwnedOneMore(s: State, tools: map<Name, Option<Name>>, tool: Name, plugin: Name)
    requires AllOwned(s, tools)
    ensures AllOwned(s, tools[tool := Some(plugin)]) <==> MayOwnTools(s, plugin)
  {
    assert tools[tool := Some(plugin)][tool] == Some(plugin);
  }

  lemma AddToolToolsIff(s: State, id: ApiId, tool: Name)
    requires ToolsFit(s) && Can(s, AddTool(id, tool))
    ensures ToolsFit(After(s, AddTool(id, tool))) <==> !Late(s, AddTool(id, tool))
  {
    var t, plugin, r := After(s, AddTool(id, tool)), s.loader.handles[id].plugin, s.loader.registry;
    RegisterPluginConsistent(r, plugin, tool);
    assert forall p :: MayOwnTools(t, p) <==> MayOwnTools(s, p);
    if tool !in r.tools {
      OwnedOneMore(s, r.tools, tool, plugin);
      assert AllOwned(t, t.loader.registry.tools) <==> AllOwned(s, t.loader.registry.tools);
    } else {
      OwnedBy(s, t, r.tools);
    }
  }

  lemma ClearToolsTools(s: State, c: CallId, order: seq<Name>)
    requires ToolsFit(s) && Can(s, ClearTools(c, order))
    ensures ToolsFit(After(s, ClearTools(c, order)))
  {
    var t, p := After(s, ClearTools(c, order)), s.calls[c].name;
    UnregisterPluginExact(s.loader.registry, p, order);
    forall q | q != p && MayOwnTools(s, q) ensures MayOwnTools(t, q) {
    }
  }

  /** Delisting takes the right to own tools only from a plugin that had lost it. */
  lemma DelistTools(s: State, c: CallId)
    requires ToolsFit(s) && Can(s, Delist(c)) && !Clashes(s, Delist(c))
    ensures ToolsFit(After(s, Delist(c)))
  {
    var t, p := After(s, Delist(c)), s.calls[c].name;
    if s.calls[c].handle.Some? {
      assert ClearedTools(s.calls[c]) && !MayOwnTools(s, p);
    }
    forall q | MayOwnTools(s, q) ensures MayOwnTools(t, q) {
    }
    OwnedBy(s, t, s.loader.registry.tools);
  }

  lemma OtherTools(s: State, a: Action)
    requires ToolsFit(s) && Can(s, a) && !a.AddTool? && !a.ClearTools? && !a.Delist?
    ensures ToolsFit(After(s, a))
  {
    var t := After(s, a);
    forall q | MayOwnTools(s, q) ensures MayOwnTools(t, q) {
    }
    OwnedBy(s, t, s.loader.registry.tools);
  }

  lemma ToolsIff(s: State, a: Action)
    requires ToolsFit(s) && Can(s, a) && !Clashes(s, a)
    ensures ToolsFit(After(s, a)) <==> !(a.AddTool? && Late(s, a))
  {
    match a
    case AddTool(id, tool) => AddToolToolsIff(s, id, tool);
    case ClearTools(c, order) => ClearToolsTools(s, c, order);
    case Delist(c) => DelistTools(s, c);
    case _ => OtherTools(s, a);
  }

  // Handler names.

  lemma NamesStay(s: State, t: State)
    requires NamesFit(s) && t.loader.owners == s.loader.owners
    requires forall p, h :: Claims(t, p, h) <==> Claims(s, p, h)
    requires forall p | NamesDoomed(s, p) :: NamesDoomed(t, p)
    ensures NamesFit(t)
  {
  }

  /** Calls that would clear names go on to do so, but for call `c`. */
  lemma StillDoomed(s: State, t: State, c: CallId, p: Name)
    requires forall d | d in s.calls && d != c :: d in t.calls && t.calls[d] == s.calls[d]
    requires c in s.calls && s.calls[c].name == p && WillClearNames(s.calls[c]) ==>
               c in t.calls && t.calls[c].name == p && WillClearNames(t.calls[c])
    ensures NamesDoomed(s, p) ==> NamesDoomed(t, p)
  {
    if d :| d in s.calls && s.calls[d].name == p && WillClearNames(s.calls[d]) {
      assert d in t.calls && t.calls[d].name == p && WillClearNames(t.calls[d]);
    }
  }

  lemma InstallNames(s: State, c: CallId)
    requires PhasesFit(s) && HandlesFit(s) && NamesFit(s) && Can(s, InstallHandle(c))
    ensures NamesFit(After(s, InstallHandle(c)))
  {
    var t := After(s, InstallHandle(c));
    assert CallFits(s.loader, s.calls[c]);
    assert forall p, h :: Claims(t, p, h) <==> Claims(s, p, h);
    forall p | NamesDoomed(s, p) ensures NamesDoomed(t, p) { StillDoomed(s, t, c, p); }
    NamesStay(s, t);
  }

  lemma DetachNames(s: State, c: CallId, p: Name)
    requires NamesFit(s) && Can(s, Detach(c, p))
    ensures NamesFit(After(s, Detach(c, p)))
  {
    var t := After(s, Detach(c, p));
    forall q | NamesDoomed(s, q) ensures NamesDoomed(t, q) { StillDoomed(s, t, c, q); }
    assert forall q, h :: Claims(t, q, h) <==> q != p && Claims(s, q, h);
    if p in s.loader.apis {
      assert c in t.calls && t.calls[c].name == p && WillClearNames(t.calls[c]);
      assert NamesDoomed(t, p);
    }
  }

  lemma ClearHandlersNames(s: State, c: CallId)
    requires PhasesFit(s) && HandlesFit(s) && NamesFit(s) && Can(s, ClearHandlers(c))
    ensures NamesFit(After(s, ClearHandlers(c)))
  {
    var t := After(s, ClearHandlers(c));
    assert CallFits(s.loader, s.calls[c]);
    assert forall p, h :: Claims(t, p, h) <==> Claims(s, p, h);
    forall p | NamesDoomed(s, p) ensures NamesDoomed(t, p) { StillDoomed(s, t, c, p); }
    NamesStay(s, t);
  }

  lemma ClearNamesNames(s: State, c: CallId)
    requires PhasesFit(s) && NamesFit(s) && Can(s, ClearNames(c))
    ensures NamesFit(After(s, ClearNames(c)))
  {
    var t, p := After(s, ClearNames(c)), s.calls[c].name;
    assert CallFits(s.loader, s.calls[c]) && p !in s.loader.apis;
    assert forall q, h :: Claims(t, q, h) <==> Claims(s, q, h);
    forall q | q != p && NamesDoomed(s, q) ensures NamesDoomed(t, q) { StillDoomed(s, t, c, q); }
  }

  lemma ClaimNameNamesIff(s: State, id: ApiId, handler: Name)
    requires HandlesFit(s) && NamesFit(s) && Can(s, ClaimName(id, handler))
    ensures NamesFit(After(s, ClaimName(id, handler))) <==> !Late(s, ClaimName(id, handler))
  {
    var t, plugin := After(s, ClaimName(id, handler)), s.loader.handles[id].plugin;
    if handler !in s.loader.owners {
      assert forall p :: NamesDoomed(t, p) <==> NamesDoomed(s, p);
      assert !Claims(s, plugin, handler);
      assert t.loader.owners[handler] == plugin;
      assert forall p, h :: Claims(t, p, h) <==>
        Claims(s, p, h) || (Installed(s.loader, id) && p == plugin && h == handler);
    }
  }

  lemma StoreHandlerNames(s: State, id: ApiId, handler: Name)
    requires NamesFit(s) && Can(s, StoreHandler(id, handler))
    ensures NamesFit(After(s, StoreHandler(id, handler)))
  {
    var t := After(s, StoreHandler(id, handler));
    assert forall p, h :: Claims(t, p, h) <==> Claims(s, p, h);
    assert forall p :: NamesDoomed(t, p) <==> NamesDoomed(s, p);
    NamesStay(s, t);
  }

  /** The action is a step of a call, and touches neither handles nor handler names. */
  predicate Passes(a: Action) {
    a.CheckName? || a.ListPlugin? || a.PublishLoaded? || a.ClearTools? || a.Delist? || a.PublishUnloaded?
  }

  lemma PassingNames(s: State, a: Action)
    requires NamesFit(s) && Can(s, a) && Passes(a)
    ensures NamesFit(After(s, a))
  {
    var t := After(s, a);
    assert forall p, h :: Claims(t, p, h) <==> Claims(s, p, h);
    forall p | NamesDoomed(s, p) ensures NamesDoomed(t, p) { StillDoomed(s, t, a.call, p); }
    NamesStay(s, t);
  }

  lemma RegistryNames(s: State, a: Action)
    requires NamesFit(s) && Can(s, a) && (a.AddTool? || a.MarkReloading?)
    ensures NamesFit(After(s, a))
  {
    var t := After(s, a);
    assert forall p, h :: Claims(t, p, h) <==> Claims(s, p, h);
    assert forall p :: NamesDoomed(t, p) <==> NamesDoomed(s, p);
    NamesStay(s, t);
  }

  lemma NamesIff(s: State, a: Action)
    requires PhasesFit(s) && HandlesFit(s) && NamesFit(s) && Can(s, a)
    ensures NamesFit(After(s, a)) <==> !(a.ClaimName? && Late(s, a))
  {
    match a
    case InstallHandle(c) => InstallNames(s, c);
    case Detach(c, p) => DetachNames(s, c, p);
    case ClearHandlers(c) => ClearHandlersNames(s, c);
    case ClearNames(c) => ClearNamesNames(s, c);
    case ClaimName(id, handler) => ClaimNameNamesIff(s, id, handler);
    case StoreHandler(id, handler) => StoreHandlerNames(s, id, handler);
    case AddTool(_, _) => RegistryNames(s, a);
    case MarkReloading(_) => RegistryNames(s, a);
    case _ => PassingNames(s, a);
  }

  // Runs.

  lemma AfterFitsIff(s: State, a: Action)
    requires Fits(s) && Can(s, a)
    ensures Fits(After(s, a)) <==> !Clashes(s, a) && !Late(s, a)
  {
    PhasesIff(s, a);
    HandlesKeep(s, a);
    if !Clashes(s, a) {
      ToolsIff(s, a);
      NamesIff(s, a);
    }
  }

  /** An action that is not possible does nothing. */
  function Next(s: State, a: Action): State {
    if Can(s, a) then After(s, a) else s
  }

  function Run(s: State, actions: seq<Action>): State
    decreases actions
  {
    if actions == [] then s else Run(Next(s, actions[0]), actions[1..])
  }

  /** All actions of the run are possible. */
  predicate CanRun(s: State, actions: seq<Action>)
    decreases actions
  {
    actions != [] ==> Can(s, actions[0]) && CanRun(Next(s, actions[0]), actions[1..])
  }

  ghost predicate AlwaysFits(s: State, actions: seq<Action>)
    decreases actions
  {
    Fits(s) && (actions != [] ==> AlwaysFits(Next(s, actions[0]), actions[1..]))
  }

  ghost predicate NeverClashesOrLate(s: State, actions: seq<Action>)
    decreases actions
  {
    actions != [] ==>
      && (Can(s, actions[0]) ==> !Clashes(s, actions[0]) && !Late(s, actions[0]))
      && NeverClashesOrLate(Next(s, actions[0]), actions[1..])
  }

  /** In every interleaving the lifecycle is exact at every point if and only if no two calls clash on
      a plugin and no registration is accepted after the unload of its plugin has cleared its kind. */
  lemma {:induction false} FitsIff(s: State, actions: seq<Action>)
    requires Fits(s)
    ensures AlwaysFits(s, actions) <==> NeverClashesOrLate(s, actions)
    decreases |actions|
  {
    if actions != [] {
      if Can(s, actions[0]) {
        AfterFitsIff(s, actions[0]);
      }
      var next := Next(s, actions[0]);
      if Fits(next) {
        FitsIff(next, actions[1..]);
      } else {
        assert !AlwaysFits(next, actions[1..]);
      }
    }
  }

  lemma RunThree(s: State, a: Action, b: Action, c: Action)
    requires Can(s, a) && Can(After(s, a), b) && Can(After(After(s, a), b), c)
    ensures CanRun(s, [a, b, c]) && Run(s, [a, b, c]) == After(After(After(s, a), b), c)
  {
    var s1 := After(s, a);
    var s2 := After(s1, b);
    var s3 := After(s2, c);
    assert [a, b, c][1..] == [b, c] && [b, c][1..] == [c] && [c][1..] == [];
    assert CanRun(s3, []) && Run(s3, []) == s3;
    assert CanRun(s2, [c]) && Run(s2, [c]) == Run(s3, []);
    assert CanRun(s1, [b, c]) && Run(s1, [b, c]) == Run(s2, [c]);
  }

  // Calls that nothing disturbs do what the loader's single-step calls do.

  function LoadActions(c: CallId, name: Name): seq<Action> {
    [ListPlugin(c, name), InstallHandle(c), PublishLoaded(c)]
  }

  lemma DropCall(calls: map<CallId, Call>, c: CallId, call: Call)
    ensures calls[c := call] - {c} == calls - {c}
  {
  }

  /** The three actions of a load behind its check. */
  lemma LoadRun(s: State, c: CallId, name: Name)
    requires Can(s, ListPlugin(c, name))
    ensures CanRun(s, LoadActions(c, name))
    ensures var l, info := s.loader, Info(s.calls[c].directory, Active);
            Run(s, LoadActions(c, name)) ==
            State(l.(plugins := l.plugins[name := info], apis := l.apis[name := |l.handles|],
                     handles := l.handles + [Api(name, {})], events := l.events + [Loaded(name)]),
                  s.calls - {c}, s.pending)
  {
    RunThree(s, ListPlugin(c, name), InstallHandle(c), PublishLoaded(c));
    var listed := s.calls[c].(at := Listed);
    DropCall(s.calls[c := listed], c, listed.(at := Handled));
    DropCall(s.calls, c, listed);
  }

  lemma UndisturbedLoad(s: State, c: CallId, directory: Name, name: Name)
    requires c !in s.calls && name !in s.loader.plugins
    ensures var t := After(s, CheckName(c, directory, name));
            && CanRun(t, LoadActions(c, name))
            && Run(t, LoadActions(c, name)) == s.(loader := Load(s.loader, directory, Some(name)))
  {
    var t := After(s, CheckName(c, directory, name));
    LoadRun(t, c, name);
    DropCall(s.calls, c, Loading(name, directory, Checked));
    assert s.calls - {c} == s.calls;
  }

  function Beginning(c: CallId, name: Name, order: seq<Name>): seq<Action> {
    [Detach(c, name), ClearTools(c, order), ClearHandlers(c)]
  }

  function Ending(c: CallId): seq<Action> {
    [ClearNames(c), Delist(c), PublishUnloaded(c)]
  }

  lemma BeginningRun(s: State, c: CallId, name: Name, order: seq<Name>)
    requires c !in s.calls && name in s.loader.apis && s.loader.apis[name] < |s.loader.handles|
    requires Lists(order, NamesOf(s.loader.registry.index, name))
    ensures CanRun(s, Beginning(c, name, order))
    ensures var l := s.loader;
            Run(s, Beginning(c, name, order)) ==
            State(WithHandlers(l, l.apis[name], {}).(apis := l.apis - {name},
                                                     registry := UnregisterPlugin(l.registry, name, order)),
                  s.calls[c := Unloading(name, Some(l.apis[name]), HandlersCleared)], s.pending)
  {
    RunThree(s, Detach(c, name), ClearTools(c, order), ClearHandlers(c));
  }

  lemma EndingRun(s: State, c: CallId)
    requires UnloadAt(s, c, HandlersCleared) && s.calls[c].name in s.loader.plugins
    ensures CanRun(s, Ending(c))
    ensures var l, name := s.loader, s.calls[c].name;
            Run(s, Ending(c)) ==
            State(l.(plugins := l.plugins - {name}, owners := Without(l.owners, name),
                     events := l.events + [Unloaded(name)]),
                  s.calls - {c}, s.pending)
  {
    RunThree(s, ClearNames(c), Delist(c), PublishUnloaded(c));
    var cleared := s.calls[c].(stage := NamesCleared);
    DropCall(s.calls[c := cleared], c, cleared.(stage := Delisted));
    DropCall(s.calls, c, cleared);
  }

  lemma UnloadInParts(l: Loader, name: Name, order: seq<Name>)
    requires name in l.plugins && name in l.apis && l.apis[name] < |l.handles| && l.handles[l.apis[name]].plugin == name
    ensures Unload(l, name, order) ==
            WithHandlers(l, l.apis[name], {}).(
              apis := l.apis - {name}, registry := UnregisterPlugin(l.registry, name, order),
              plugins := l.plugins - {name}, owners := Without(l.owners, name), events := l.events + [Unloaded(name)])
  {
  }

  lemma UndisturbedUnload(s: State, c: CallId, name: Name, order: seq<Name>)
    requires HandlesFit(s) && c !in s.calls && name in s.loader.plugins && name in s.loader.apis
    requires Lists(order, NamesOf(s.loader.registry.index, name))
    ensures CanRun(s, Beginning(c, name, order)) && CanRun(Run(s, Beginning(c, name, order)), Ending(c))
    ensures Run(Run(s, Beginning(c, name, order)), Ending(c)) == s.(loader := Unload(s.loader, name, order))
  {
    BeginningRun(s, c, name, order);
    EndingRun(Run(s, Beginning(c, name, order)), c);
    UnloadInParts(s.loader, name, order);
    DropCall(s.calls, c, Unloading(name, Some(s.loader.apis[name]), HandlersCleared));
    assert s.calls - {c} == s.calls;
  }

  // What the clashes lead to.

  /** An unload between the two insertions of a load leaves a handle without a plugin. */
  lemma UnloadInsideLoad(s: State, c: CallId, d: CallId)
    requires Fits(s) && LoadAt(s, c, Listed) && d !in s.calls
    ensures var p := s.calls[c].name;
            var unload := [Detach(d, p), Delist(d), PublishUnloaded(d)];
            && CanRun(s, unload) && Can(Run(s, unload), InstallHandle(c))
            && var l := After(Run(s, unload), InstallHandle(c)).loader;
               p in l.apis && p !in l.plugins
  {
    var p := s.calls[c].name;
    assert CallFits(s.loader, s.calls[c]);
    RunThree(s, Detach(d, p), Delist(d), PublishUnloaded(d));
  }

  /** Two loads that have both found the name free publish it twice. */
  lemma TwoLoadsPublishTwice(s: State, c: CallId, d: CallId)
    requires LoadAt(s, c, Checked) && LoadAt(s, d, Checked) && c != d && s.calls[c].name == s.calls[d].name
    ensures var p := s.calls[c].name;
            && CanRun(s, LoadActions(c, p)) && CanRun(Run(s, LoadActions(c, p)), LoadActions(d, p))
            && !Alternates(Run(Run(s, LoadActions(c, p)), LoadActions(d, p)).loader.events, p)
  {
    var p := s.calls[c].name;
    LoadRun(s, c, p);
    LoadRun(Run(s, LoadActions(c, p)), d, p);
    var events := s.loader.events;
    LiveAfter(events, Loaded(p), p);
    LiveAfter(events + [Loaded(p)], Loaded(p), p);
  }

  /** Events that do not alternate never do again. */
  lemma {:induction false} BrokenForGood(s: State, actions: seq<Action>, p: Name)
    requires !Alternates(s.loader.events, p)
    ensures !Alternates(Run(s, actions).loader.events, p)
    decreases |actions|
  {
    if actions != [] {
      BrokenNext(s, actions[0], p);
      BrokenForGood(Next(s, actions[0]), actions[1..], p);
    }
  }

  lemma BrokenNext(s: State, a: Action, p: Name)
    requires !Alternates(s.loader.events, p)
    ensures !Alternates(Next(s, a).loader.events, p)
  {
    if Can(s, a) {
      match a
      case PublishLoaded(c) => LiveAfter(s.loader.events, Loaded(s.calls[c].name), p);
      case PublishUnloaded(c) => LiveAfter(s.loader.events, Unloaded(s.calls[c].name), p);
      case _ => assert After(s, a).loader.events == s.loader.events;
    }
  }

  // A late tool outlives its plugin.

  /** The tool belongs to a plugin that nobody is loading, and whose tools nobody is going to clear. */
  ghost predicate Leaked(s: State, p: Name, tool: Name) {
    OwnsTool(s.loader.registry, p, tool) && Abandoned(s, p)
  }

  ghost predicate OwnsTool(r: Registry, p: Name, tool: Name) {
    Consistent(r) && tool in r.tools && r.tools[tool] == Some(p)
  }

  predicate Abandoned(s: State, p: Name) {
    && p !in s.loader.apis
    && forall c | c in s.calls && s.calls[c].name == p :: !LoadAt(s, c, Listed) && !UnloadAt(s, c, Detached)
  }

  predicate Relists(a: Action, p: Name) {
    a.ListPlugin? && a.name == p
  }

  lemma OwnsToolAfter(s: State, a: Action, p: Name, tool: Name)
    requires Leaked(s, p, tool) && Can(s, a)
    ensures OwnsTool(After(s, a).loader.registry, p, tool)
  {
    match a
    case ClearTools(c, order) => UnregisterPluginExact(s.loader.registry, s.calls[c].name, order);
    case AddTool(id, n) => RegisterPluginConsistent(s.loader.registry, s.loader.handles[id].plugin, n);
    case _ => assert After(s, a).loader.registry == s.loader.registry;
  }

  lemma AbandonedAfter(s: State, a: Action, p: Name)
    requires Abandoned(s, p) && Can(s, a) && !Relists(a, p)
    ensures Abandoned(After(s, a), p)
  {
    var t := After(s, a);
    forall c | c in t.calls && t.calls[c].name == p ensures !LoadAt(t, c, Listed) && !UnloadAt(t, c, Detached) {
    }
  }

  lemma LeakedAfter(s: State, a: Action, p: Name, tool: Name)
    requires Leaked(s, p, tool) && Can(s, a) && !Relists(a, p)
    ensures Leaked(After(s, a), p, tool)
  {
    OwnsToolAfter(s, a, p, tool);
    AbandonedAfter(s, a, p);
  }

  lemma {:induction false} LeakedStays(s: State, p: Name, tool: Name, actions: seq<Action>)
    requires Leaked(s, p, tool)
    requires forall i | 0 <= i < |actions| :: !Relists(actions[i], p)
    ensures Leaked(Run(s, actions), p, tool)
    decreases |actions|
  {
    if actions != [] {
      if Can(s, actions[0]) {
        LeakedAfter(s, actions[0], p, tool);
      }
      LeakedStays(Next(s, actions[0]), p, tool, actions[1..]);
    }
  }

  lemma LateToolLeaks(s: State, id: ApiId, tool: Name)
    requires Fits(s) && Can(s, AddTool(id, tool)) && Late(s, AddTool(id, tool))
    ensures Leaked(After(s, AddTool(id, tool)), s.loader.handles[id].plugin, tool)
  {
    var p := s.loader.handles[id].plugin;
    RegisterPluginConsistent(s.loader.registry, p, tool);
    NotOwning(s, p);
  }

  /** A plugin that may not own tools has no handle, and no call is about to give it one or to clear
      its tools. */
  lemma NotOwning(s: State, p: Name)
    requires PhasesFit(s) && !MayOwnTools(s, p)
    ensures Abandoned(s, p)
  {
    forall c | c in s.calls && s.calls[c].name == p ensures !LoadAt(s, c, Listed) && !UnloadAt(s, c, Detached) {
      assert CallFits(s.loader, s.calls[c]);
      if LoadAt(s, c, Listed) || UnloadAt(s, c, Detached) {
        assert WorksOn(s, c, p) && p in s.loader.plugins;
        var d :| d in s.calls && s.calls[d].name == p && ClearedTools(s.calls[d]);
        assert WorksOn(s, d, p);
        assert false;
      }
    }
    if p in s.loader.plugins {
      var d :| d in s.calls && s.calls[d].name == p && ClearedTools(s.calls[d]);
      assert CallFits(s.loader, s.calls[d]);
    } else if c :| WorksOn(s, c, p) {
      assert CallFits(s.loader, s.calls[c]);
    } else {
      assert !Busy(s, p);
    }
  }

  /** A tool registered after the clean-up belongs to its plugin in every later state, also when the
      plugin is gone, until the plugin is listed again. */
  lemma LateToolStays(s: State, id: ApiId, tool: Name, actions: seq<Action>)
    requires Fits(s) && Can(s, AddTool(id, tool)) && Late(s, AddTool(id, tool))
    requires forall i | 0 <= i < |actions| :: !Relists(actions[i], s.loader.handles[id].plugin)
    ensures Leaked(Run(After(s, AddTool(id, tool)), actions), s.loader.handles[id].plugin, tool)
  {
    LateToolLeaks(s, id, tool);
    LeakedStays(After(s, AddTool(id, tool)), s.loader.handles[id].plugin, tool, actions);
  }

  /** A tool can be late although its plugin is still listed: between the clean-up of its tools and
      its removal. Once the unload is over, the tool has an owner that is not loaded. */
  lemma ToolRegisteredDuringUnload(s: State, c: CallId, id: ApiId, tool: Name)
    requires Fits(s) && UnloadAt(s, c, HandlersCleared)
    requires Can(s, AddTool(id, tool)) && tool !in s.loader.registry.tools
    requires s.loader.handles[id].plugin == s.calls[c].name
    ensures var p, t := s.calls[c].name, After(s, AddTool(id, tool));
            && LeavesNoTrace(s.loader, DoRegisterTool(id, tool)) && CanRun(t, Ending(c))
            && var l := Run(t, Ending(c)).loader;
               p !in l.plugins && tool in l.registry.tools && l.registry.tools[tool] == Some(p)
  {
    assert CallFits(s.loader, s.calls[c]);
    EndingRun(After(s, AddTool(id, tool)), c);
  }
}
