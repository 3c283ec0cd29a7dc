/** Runs of the fallback store with every call split at its waits. Saves, restores and the passes of
    retry loops overlap in any way; each failure starts a retry loop of its own. */
module FallbackRuns {
  import opened Common
  import opened SessionFallback

  type CallId = nat

  /** A save has entered its state into the cache, has found the flag up, or has failed to write. */
  datatype Stage = Cached | Writing | Failed

  datatype Saving = Saving(id: Id, data: Data, stage: Stage)

  /** A pass of a retry loop: the states it copied from the cache, those still to be written, and
      whether all writes succeeded so far. For the record it also keeps the rows that the database had
      at the copy, the last save of each session since then, and the last row that another call wrote
      for each session since the copy and since the pass wrote that row itself. */
  datatype Pass = Pass(snapshot: Table, todo: set<Id>, allFlushed: bool, begun: Table, since: Table, over: Table)

  /** `readers` counts the restores that have found the flag up, `waiting` the retry loops that sleep. */
  datatype Store = Store(cache: Table, database: Table, available: bool,
                         saves: map<CallId, Saving>, readers: nat, waiting: nat, passes: map<CallId, Pass>)

  datatype Action =
    | BeginSave(call: CallId, id: Id, data: Data)
    | ReadFlag(call: CallId)
    | WriteRow(call: CallId, ok: bool)
    | LowerFlag(call: CallId)
    | BeginRestore(id: Id)
    | EndRestore(ok: bool)
    | BeginPass(pass: CallId)
    | FlushRow(pass: CallId, id: Id, ok: bool)
    | EndPass(pass: CallId)

  predicate SaveAt(s: Store, call: CallId, stage: Stage) {
    call in s.saves && s.saves[call].stage == stage
  }

  predicate Can(s: Store, a: Action) {
    match a
    case BeginSave(call, _, _) => call !in s.saves
    case ReadFlag(call) => SaveAt(s, call, Cached)
    case WriteRow(call, _) => SaveAt(s, call, Writing)
    case LowerFlag(call) => SaveAt(s, call, Failed)
    case BeginRestore(_) => true
    case EndRestore(_) => s.readers > 0
    case BeginPass(pass) => s.waiting > 0 && pass !in s.passes
    case FlushRow(pass, id, _) => pass in s.passes && id in s.passes[pass].todo && id in s.passes[pass].snapshot
    case EndPass(pass) => pass in s.passes && s.passes[pass].todo == {}
  }

  function NoteSave(passes: map<CallId, Pass>, id: Id, data: Data): map<CallId, Pass> {
    map f | f in passes :: passes[f].(since := passes[f].since[id := data])
  }

  function NoteRow(passes: map<CallId, Pass>, id: Id, data: Data): map<CallId, Pass> {
    map f | f in passes :: passes[f].(over := passes[f].over[id := data])
  }

  /** The pass after it has tried to write a row. */
  function Tried(f: Pass, id: Id, ok: bool): Pass {
    f.(todo := f.todo - {id}, allFlushed := f.allFlushed && ok, over := if ok then f.over - {id} else f.over)
  }

  function After(s: Store, a: Action): Store
    requires Can(s, a)
  {
    match a
    case BeginSave(call, id, data) =>
      s.(cache := s.cache[id := data], saves := s.saves[call := Saving(id, data, Cached)],
         passes := NoteSave(s.passes, id, data))
    case ReadFlag(call) =>
      s.(saves := if s.available then s.saves[call := s.saves[call].(stage := Writing)] else s.saves - {call})
    case WriteRow(call, ok) =>
      var save := s.saves[call];
      if ok then
        s.(database := s.database[save.id := save.data], saves := s.saves - {call},
           passes := NoteRow(s.passes, save.id, save.data))
      else s.(saves := s.saves[call := save.(stage := Failed)])
    case LowerFlag(call) => s.(available := false, saves := s.saves - {call}, waiting := s.waiting + 1)
    case BeginRestore(id) => s.(readers := if id !in s.cache && s.available then s.readers + 1 else s.readers)
    case EndRestore(ok) =>
      if ok then s.(readers := s.readers - 1)
      else s.(readers := s.readers - 1, available := false, waiting := s.waiting + 1)
    case BeginPass(pass) =>
      s.(waiting := s.waiting - 1,
         passes := s.passes[pass := Pass(s.cache, s.cache.Keys, true, s.database, map[], map[])])
    case FlushRow(pass, id, ok) =>
      var f := s.passes[pass];
      if ok then
        s.(database := s.database[id := f.snapshot[id]],
           passes := NoteRow(s.passes, id, f.snapshot[id])[pass := Tried(f, id, true)])
      else s.(passes := s.passes[pass := Tried(f, id, false)])
    case EndPass(pass) =>
      if s.passes[pass].allFlushed then s.(available := true, passes := s.passes - {pass})
      else s.(waiting := s.waiting + 1, passes := s.passes - {pass})
  }

  function Row(table: Table, id: Id): Option<Data> {
    if id in table then Some(table[id]) else None
  }

  /** A save of the session is under way. */
  predicate Busy(s: Store, id: Id) {
    exists k | k in s.saves :: s.saves[k].id == id
  }

  predicate BusyElsewhere(s: Store, call: CallId, id: Id) {
    exists k | k in s.saves && k != call :: s.saves[k].id == id
  }

  predicate Fresh(s: Store, id: Id) {
    id in s.cache ==> Row(s.database, id) == Some(s.cache[id])
  }

  /** While the flag is up, the database has the cached state of every session that is not being saved. */
  ghost predicate Coherent(s: Store) {
    s.available ==> forall id | !Busy(s, id) :: Fresh(s, id)
  }

  /** The last save of the session that the pass knows of. */
  function Latest(f: Pass, id: Id): Option<Data> {
    if id in f.since then Some(f.since[id]) else Row(f.snapshot, id)
  }

  /** The last row of the session that was written, once the pass has written its own. */
  function LastRow(f: Pass, id: Id): Option<Data> {
    if id in f.over then Some(f.over[id]) else if id in f.snapshot then Some(f.snapshot[id]) else Row(f.begun, id)
  }

  /** What holds while a pass is under way: the cache is the copy and the saves since, and rows are as
      last written: those that were not copied, and those that the pass has written. */
  ghost predicate PassOk(s: Store, f: Pass) {
    && (forall id :: Row(s.cache, id) == Latest(f, id))
    && (forall id | id !in f.snapshot || (f.allFlushed && id !in f.todo) :: Row(s.database, id) == LastRow(f, id))
  }

  ghost predicate Ok(s: Store) {
    && (forall k | k in s.saves :: s.saves[k].id in s.cache)
    && (forall f | f in s.passes :: PassOk(s, s.passes[f]))
  }

  // The two ways to lose an update.

  /** A save is the last one under way for its session, and a later save has another state. */
  predicate Overtaken(s: Store, call: CallId) {
    && call in s.saves && s.available
    && !BusyElsewhere(s, call, s.saves[call].id)
    && Row(s.cache, s.saves[call].id) != Some(s.saves[call].data)
  }

  /** The flag is up already, and the copy of the pass is older than the last save. */
  predicate Outdated(s: Store, f: Pass, id: Id) {
    s.available && !Busy(s, id) && id in f.since && Row(f.snapshot, id) != Some(f.since[id])
  }

  /** The last save since the copy is neither what the pass has written, or what the database had, nor
      what another call has written since. */
  predicate Missed(s: Store, f: Pass, id: Id) {
    !Busy(s, id) && Latest(f, id).Some? && Latest(f, id) != LastRow(f, id)
  }

  ghost predicate LosesUpdate(s: Store, a: Action)
    requires Can(s, a)
  {
    match a
    case WriteRow(call, ok) => ok && Overtaken(s, call)
    case FlushRow(pass, id, ok) => ok && Outdated(s, s.passes[pass], id)
    case EndPass(pass) => s.passes[pass].allFlushed && exists id :: Missed(s, s.passes[pass], id)
    case _ => false
  }

  lemma SaveKeepsPass(s: Store, f: Pass, id: Id, data: Data)
    requires PassOk(s, f)
    ensures PassOk(s.(cache := s.cache[id := data]), f.(since := f.since[id := data]))
  {
    var t, g := s.(cache := s.cache[id := data]), f.(since := f.since[id := data]);
    forall x ensures Row(t.cache, x) == Latest(g, x) {
      assert Row(s.cache, x) == Latest(f, x);
    }
    assert forall x :: LastRow(g, x) == LastRow(f, x);
  }

  lemma SaveKeepsOk(s: Store, a: Action)
    requires Ok(s) && Can(s, a) && a.BeginSave?
    ensures Ok(After(s, a))
  {
    var t := After(s, a);
    forall f | f in t.passes ensures PassOk(t, t.passes[f]) {
      SaveKeepsPass(s, s.passes[f], a.id, a.data);
    }
  }

  lemma RowKeepsPass(s: Store, f: Pass, id: Id, data: Data)
    requires PassOk(s, f)
    ensures PassOk(s.(database := s.database[id := data]), f.(over := f.over[id := data]))
  {
  }

  lemma WriteKeepsOk(s: Store, a: Action)
    requires Ok(s) && Can(s, a) && a.WriteRow?
    ensures Ok(After(s, a))
  {
    var t, save := After(s, a), s.saves[a.call];
    forall f | f in t.passes ensures PassOk(t, t.passes[f]) {
      if a.ok {
        RowKeepsPass(s, s.passes[f], save.id, save.data);
      }
    }
  }

  lemma TriedIsOk(s: Store, f: Pass, id: Id)
    requires PassOk(s, f) && id in f.snapshot
    ensures PassOk(s, Tried(f, id, false))
    ensures PassOk(s.(database := s.database[id := f.snapshot[id]]), Tried(f, id, true))
  {
  }

  lemma FlushKeepsOk(s: Store, a: Action)
    requires Ok(s) && Can(s, a) && a.FlushRow?
    ensures Ok(After(s, a))
  {
    var t, g := After(s, a), s.passes[a.pass];
    forall f | f in t.passes ensures PassOk(t, t.passes[f]) {
      if f == a.pass {
        TriedIsOk(s, g, a.id);
      } else if a.ok {
        RowKeepsPass(s, s.passes[f], a.id, g.snapshot[a.id]);
      }
    }
  }

  lemma BeginKeepsOk(s: Store, a: Action)
    requires Ok(s) && Can(s, a) && a.BeginPass?
    ensures Ok(After(s, a))
  {
    var t := After(s, a);
    forall f | f in t.passes ensures PassOk(t, t.passes[f]) {
      if f in s.passes { assert PassOk(s, s.passes[f]); }
    }
  }

  lemma FewerIsOk(s: Store, t: Store)
    requires Ok(s) && t.cache == s.cache && t.database == s.database
    requires forall k | k in t.saves :: k in s.saves && t.saves[k].id == s.saves[k].id
    requires forall f | f in t.passes :: f in s.passes && t.passes[f] == s.passes[f]
    ensures Ok(t)
  {
    forall f | f in t.passes ensures PassOk(t, t.passes[f]) {
      assert PassOk(s, s.passes[f]);
    }
  }

  lemma OtherKeepsOk(s: Store, a: Action)
    requires Ok(s) && Can(s, a) && !a.BeginSave? && !a.WriteRow? && !a.BeginPass? && !a.FlushRow?
    ensures Ok(After(s, a))
  {
    FewerIsOk(s, After(s, a));
  }

  lemma AfterIsOk(s: Store, a: Action)
    requires Ok(s) && Can(s, a)
    ensures Ok(After(s, a))
  {
    if a.BeginSave? {
      SaveKeepsOk(s, a);
    } else if a.WriteRow? {
      WriteKeepsOk(s, a);
    } else if a.BeginPass? {
      BeginKeepsOk(s, a);
    } else if a.FlushRow? {
      FlushKeepsOk(s, a);
    } else {
      OtherKeepsOk(s, a);
    }
  }

  // Coherence.

  lemma EndedSave(s: Store, t: Store, call: CallId, id: Id)
    requires t.saves == s.saves - {call}
    ensures Busy(t, id) <==> BusyElsewhere(s, call, id)
    ensures call in s.saves && s.saves[call].id != id ==> (Busy(t, id) <==> Busy(s, id))
  {
    if k :| k in s.saves && k != call && s.saves[k].id == id { assert k in t.saves && t.saves[k].id == id; }
    if k :| k in t.saves && t.saves[k].id == id { assert k in s.saves && k != call && s.saves[k].id == id; }
    if k :| k in s.saves && s.saves[k].id == id { assert k == call || (k in t.saves && t.saves[k].id == id); }
  }

  lemma KeptSaves(s: Store, t: Store, id: Id)
    requires forall k | k in s.saves :: k in t.saves && t.saves[k].id == s.saves[k].id
    ensures Busy(s, id) ==> Busy(t, id)
  {
    if k :| k in s.saves && s.saves[k].id == id { assert k in t.saves && t.saves[k].id == id; }
  }

  lemma BeginCoherent(s: Store, a: Action)
    requires Coherent(s) && Can(s, a) && a.BeginSave?
    ensures Coherent(After(s, a))
  {
    var t := After(s, a);
    assert t.saves[a.call].id == a.id;
    forall id | t.available && !Busy(t, id) ensures Fresh(t, id) {
      KeptSaves(s, t, id);
      assert Fresh(s, id);
    }
  }

  lemma WriteCoherentIff(s: Store, a: Action)
    requires Coherent(s) && Ok(s) && Can(s, a) && a.WriteRow? && a.ok
    ensures Coherent(After(s, a)) <==> !Overtaken(s, a.call)
  {
    var t, save := After(s, a), s.saves[a.call];
    forall id ensures Busy(t, id) <==> BusyElsewhere(s, a.call, id) { EndedSave(s, t, a.call, id); }
    forall id | s.available && id != save.id && !Busy(t, id) ensures Fresh(t, id) {
      EndedSave(s, t, a.call, id);
      assert Fresh(s, id);
    }
    assert Fresh(t, save.id) <==> Row(s.cache, save.id) == Some(save.data);
  }

  lemma FlushCoherentIff(s: Store, a: Action)
    requires Coherent(s) && Ok(s) && Can(s, a) && a.FlushRow? && a.ok
    ensures Coherent(After(s, a)) <==> !Outdated(s, s.passes[a.pass], a.id)
  {
    var t, f := After(s, a), s.passes[a.pass];
    assert PassOk(s, f) && Row(s.cache, a.id) == Latest(f, a.id);
    assert forall id :: Busy(t, id) <==> Busy(s, id);
    assert forall id | id != a.id :: Fresh(t, id) <==> Fresh(s, id);
    assert Fresh(t, a.id) <==> Latest(f, a.id) == Row(f.snapshot, a.id);
  }

  lemma EndCoherentIff(s: Store, a: Action)
    requires Coherent(s) && Ok(s) && Can(s, a) && a.EndPass? && s.passes[a.pass].allFlushed
    ensures Coherent(After(s, a)) <==> !exists id :: Missed(s, s.passes[a.pass], id)
  {
    var t, f := After(s, a), s.passes[a.pass];
    assert PassOk(s, f);
    forall id ensures !Busy(t, id) && !Fresh(t, id) <==> Missed(s, f, id) {
      assert Row(s.cache, id) == Latest(f, id) && Row(s.database, id) == LastRow(f, id);
      assert Busy(t, id) <==> Busy(s, id);
    }
  }

  lemma ReadCoherent(s: Store, a: Action)
    requires Coherent(s) && Can(s, a) && (a.ReadFlag? || (a.WriteRow? && !a.ok))
    ensures Coherent(After(s, a))
  {
    var t := After(s, a);
    forall id | t.available && !Busy(t, id) ensures Fresh(t, id) {
      KeptSaves(s, t, id);
      assert Fresh(s, id);
    }
  }

  lemma AfterCoherentIff(s: Store, a: Action)
    requires Coherent(s) && Ok(s) && Can(s, a)
    ensures Coherent(After(s, a)) <==> !LosesUpdate(s, a)
  {
    match a
    case BeginSave(_, _, _) => BeginCoherent(s, a);
    case ReadFlag(_) => ReadCoherent(s, a);
    case WriteRow(_, ok) => if ok { WriteCoherentIff(s, a); } else { ReadCoherent(s, a); }
    case FlushRow(_, _, ok) =>
      if ok { FlushCoherentIff(s, a); } else { SameStore(s, After(s, a)); }
    case EndPass(f) =>
      if s.passes[f].allFlushed { EndCoherentIff(s, a); } else { SameStore(s, After(s, a)); }
    case LowerFlag(_) =>
    case EndRestore(ok) => if ok { SameStore(s, After(s, a)); }
    case _ => SameStore(s, After(s, a));
  }

  lemma SameStore(s: Store, t: Store)
    requires t.cache == s.cache && t.database == s.database && t.available == s.available && t.saves == s.saves
    ensures Coherent(t) <==> Coherent(s)
  {
    assert forall id :: (Busy(t, id) <==> Busy(s, id)) && (Fresh(t, id) <==> Fresh(s, id));
  }

  // Runs.

  predicate CanRun(s: Store, actions: seq<Action>)
    decreases actions
  {
    actions != [] ==> Can(s, actions[0]) && CanRun(After(s, actions[0]), actions[1..])
  }

  function Run(s: Store, actions: seq<Action>): Store
    requires CanRun(s, actions)
    decreases actions
  {
    if actions == [] then s else Run(After(s, actions[0]), actions[1..])
  }

  ghost predicate NeverLosesUpdate(s: Store, actions: seq<Action>)
    requires CanRun(s, actions)
    decreases actions
  {
    actions != [] ==> !LosesUpdate(s, actions[0]) && NeverLosesUpdate(After(s, actions[0]), actions[1..])
  }

  ghost predicate AlwaysCoherent(s: Store, actions: seq<Action>)
    requires CanRun(s, actions)
    decreases actions
  {
    Coherent(s) && (actions != [] ==> AlwaysCoherent(After(s, actions[0]), actions[1..]))
  }

  /** A new store; if the database cannot be reached, a retry loop starts at once. */
  function Start(database: Table, available: bool): Store {
    Store(map[], database, available, map[], 0, if available then 0 else 1, map[])
  }

  lemma StartIsCoherent(database: Table, available: bool)
    ensures Coherent(Start(database, available)) && Ok(Start(database, available))
    ensures UpToDate(Start(database, available)) && (available || Retrying(Start(database, available)))
  {
  }

  /** While the flag is up the database has the cached state of every session that is not being saved,
      at every point of every interleaving, if and only if no save writes after being overtaken, no
      pass writes an outdated copy, and no pass ends well after missing a save. */
  lemma {:induction false} CoherentIffNoLostUpdate(s: Store, actions: seq<Action>)
    requires Coherent(s) && Ok(s) && CanRun(s, actions)
    ensures AlwaysCoherent(s, actions) <==> NeverLosesUpdate(s, actions)
    decreases |actions|
  {
    if actions != [] {
      AfterCoherentIff(s, actions[0]);
      AfterIsOk(s, actions[0]);
      var next := After(s, actions[0]);
      if Coherent(next) {
        CoherentIffNoLostUpdate(next, actions[1..]);
      } else {
        assert !AlwaysCoherent(next, actions[1..]);
      }
    }
  }

  /** A retry loop is alive: it sleeps, or a pass of it is under way. */
  predicate Retrying(s: Store) {
    s.waiting > 0 || s.passes != map[]
  }

  lemma PassesCount(passes: map<CallId, Pass>, f: CallId, pass: Pass)
    ensures |passes.Keys + {f}| == |passes.Keys| + (if f in passes then 0 else 1)
    ensures |passes.Keys - {f}| == |passes.Keys| - (if f in passes then 1 else 0)
    ensures passes[f := pass].Keys == passes.Keys + {f} && (passes - {f}).Keys == passes.Keys - {f}
  {
    if f in passes {
      assert passes.Keys + {f} == passes.Keys;
    } else {
      assert passes.Keys - {f} == passes.Keys;
    }
  }

  lemma PassKeysAfter(s: Store, a: Action)
    requires Can(s, a)
    ensures After(s, a).passes.Keys ==
            if a.BeginPass? then s.passes.Keys + {a.pass}
            else if a.EndPass? then s.passes.Keys - {a.pass} else s.passes.Keys
  {
  }

  lemma WaitingAfter(s: Store, a: Action)
    requires Can(s, a)
    ensures After(s, a).waiting ==
            if a.BeginPass? then s.waiting - 1
            else if a.LowerFlag? || (a.EndRestore? && !a.ok) || (a.EndPass? && !s.passes[a.pass].allFlushed)
            then s.waiting + 1 else s.waiting
  {
  }

  /** The number of retry loops alive: a failure adds one, a pass that ends well takes one away, and
      nothing else changes it. */
  lemma LoopsAfter(s: Store, a: Action)
    requires Can(s, a)
    ensures var t := After(s, a);
            var begun := a.LowerFlag? || (a.EndRestore? && !a.ok);
            var ended := a.EndPass? && s.passes[a.pass].allFlushed;
            t.waiting + |t.passes.Keys| + (if ended then 1 else 0) ==
            s.waiting + |s.passes.Keys| + (if begun then 1 else 0)
  {
    PassKeysAfter(s, a);
    WaitingAfter(s, a);
    if a.BeginPass? || a.EndPass? {
      PassesCount(s.passes, a.pass, Pass(map[], {}, true, map[], map[], map[]));
    }
  }

  lemma AfterRetries(s: Store, a: Action)
    requires (s.available || Retrying(s)) && Can(s, a)
    ensures After(s, a).available || Retrying(After(s, a))
  {
    var t := After(s, a);
    if s.passes != map[] {
      var f :| f in s.passes;
      if !a.EndPass? {
        assert f in t.passes;
      }
    } else if a.BeginPass? {
      assert a.pass in t.passes;
    }
  }

  /** In every interleaving, while the store counts as unavailable, some retry loop is alive. */
  lemma {:induction false} RetryNeverStops(s: Store, actions: seq<Action>)
    requires CanRun(s, actions) && (s.available || Retrying(s))
    ensures Run(s, actions).available || Retrying(Run(s, actions))
    decreases |actions|
  {
    if actions != [] {
      AfterRetries(s, actions[0]);
      RetryNeverStops(After(s, actions[0]), actions[1..]);
    }
  }

  // Runs in which nothing overlaps.

  /** Saves of one session do not overlap, and no save overlaps a pass. */
  predicate Orderly(s: Store, a: Action) {
    match a
    case BeginSave(_, id, _) => s.passes == map[] && !Busy(s, id)
    case BeginPass(_) => s.saves == map[]
    case _ => true
  }

  predicate AllOrderly(s: Store, actions: seq<Action>)
    requires CanRun(s, actions)
    decreases actions
  {
    actions != [] ==> Orderly(s, actions[0]) && AllOrderly(After(s, actions[0]), actions[1..])
  }

  /** Every save under way has the latest state, and passes write nothing else. */
  ghost predicate UpToDate(s: Store) {
    && (s.passes != map[] ==> s.saves == map[])
    && (forall k | k in s.saves :: Row(s.cache, s.saves[k].id) == Some(s.saves[k].data))
    && (forall j, k | j in s.saves && k in s.saves && s.saves[j].id == s.saves[k].id :: j == k)
    && (forall f | f in s.passes :: PassUpToDate(s.cache, s.passes[f]))
  }

  predicate PassUpToDate(cache: Table, f: Pass) {
    f.since == map[] && f.snapshot == cache && forall id | id in f.over :: Row(cache, id) == Some(f.over[id])
  }

  lemma OrderlySave(s: Store, a: Action)
    requires UpToDate(s) && Can(s, a) && Orderly(s, a) && a.BeginSave?
    ensures UpToDate(After(s, a))
  {
    var t := After(s, a);
    forall k | k in s.saves ensures s.saves[k].id != a.id {
      assert !Busy(s, a.id);
    }
    assert t.passes == map[];
  }

  lemma OrderlyRow(s: Store, a: Action)
    requires UpToDate(s) && Can(s, a) && a.FlushRow?
    ensures UpToDate(After(s, a))
  {
    var t, g := After(s, a), s.passes[a.pass];
    assert PassUpToDate(s.cache, g);
    forall f | f in t.passes ensures PassUpToDate(t.cache, t.passes[f]) {
      assert PassUpToDate(s.cache, s.passes[f]);
    }
  }

  lemma OrderlyPass(s: Store, a: Action)
    requires UpToDate(s) && Can(s, a) && (a.BeginPass? || a.EndPass?) && Orderly(s, a)
    ensures UpToDate(After(s, a))
  {
    var t := After(s, a);
    forall f | f in t.passes ensures PassUpToDate(t.cache, t.passes[f]) {
      if f in s.passes { assert PassUpToDate(s.cache, s.passes[f]); }
    }
  }

  lemma FewerSaves(s: Store, t: Store)
    requires UpToDate(s) && t.cache == s.cache && t.passes == s.passes
    requires forall k | k in t.saves ::
               k in s.saves && t.saves[k].id == s.saves[k].id && t.saves[k].data == s.saves[k].data
    ensures UpToDate(t)
  {
  }

  lemma OrderlyOther(s: Store, a: Action)
    requires UpToDate(s) && Can(s, a) && !a.BeginSave? && !a.FlushRow? && !a.BeginPass? && !a.EndPass?
    ensures UpToDate(After(s, a))
  {
    if a.WriteRow? {
      assert s.passes == map[];
      assert NoteRow(s.passes, s.saves[a.call].id, s.saves[a.call].data) == s.passes;
    }
    FewerSaves(s, After(s, a));
  }

  lemma OrderlyIsUpToDate(s: Store, a: Action)
    requires UpToDate(s) && Can(s, a) && Orderly(s, a)
    ensures UpToDate(After(s, a))
  {
    if a.BeginSave? {
      OrderlySave(s, a);
    } else if a.FlushRow? {
      OrderlyRow(s, a);
    } else if a.BeginPass? || a.EndPass? {
      OrderlyPass(s, a);
    } else {
      OrderlyOther(s, a);
    }
  }

  lemma UpToDateLosesNothing(s: Store, a: Action)
    requires UpToDate(s) && Ok(s) && Can(s, a)
    ensures !LosesUpdate(s, a)
  {
    if a.EndPass? {
      var f := s.passes[a.pass];
      assert PassUpToDate(s.cache, f);
      forall id ensures !Missed(s, f, id) {
        assert Latest(f, id) == Row(s.cache, id);
      }
    } else if a.FlushRow? {
      assert PassUpToDate(s.cache, s.passes[a.pass]);
    }
  }

  /** Without such overlaps the store is coherent at every point, whatever fails. */
  lemma {:induction false} UndisturbedIsCoherent(s: Store, actions: seq<Action>)
    requires Coherent(s) && Ok(s) && UpToDate(s) && CanRun(s, actions) && AllOrderly(s, actions)
    ensures AlwaysCoherent(s, actions)
    decreases |actions|
  {
    if actions != [] {
      UpToDateLosesNothing(s, actions[0]);
      AfterCoherentIff(s, actions[0]);
      AfterIsOk(s, actions[0]);
      OrderlyIsUpToDate(s, actions[0]);
      UndisturbedIsCoherent(After(s, actions[0]), actions[1..]);
    }
  }

  // The latest save.

  /** The latest state saved for each session, by the log of actions. */
  function LatestSaved(saved: Table, actions: seq<Action>): Table
    decreases actions
  {
    if actions == [] then saved else
    LatestSaved(if actions[0].BeginSave? then saved[actions[0].id := actions[0].data] else saved, actions[1..])
  }

  function View(s: Store): State {
    State(s.cache, s.database, s.available)
  }

  /** In every interleaving and under every failure pattern the cache holds the latest save of each
      session, so a restore returns it. */
  lemma {:induction false} RestoreReturnsLatest(s: Store, actions: seq<Action>, id: Id, ok: bool)
    requires CanRun(s, actions) && id in LatestSaved(s.cache, actions)
    ensures var t := Run(s, actions);
            && t.cache == LatestSaved(s.cache, actions)
            && Restore(View(t), id, ok) == (View(t), Some(LatestSaved(s.cache, actions)[id]))
    decreases |actions|
  {
    if actions != [] {
      RestoreReturnsLatest(After(s, actions[0]), actions[1..], id, ok);
    }
  }

  // Undisturbed calls do what the single-step calls do.

  lemma RunStep(s: Store, a: Action, rest: seq<Action>)
    requires Can(s, a) && CanRun(After(s, a), rest)
    ensures CanRun(s, [a] + rest) && Run(s, [a] + rest) == Run(After(s, a), rest)
  {
    assert ([a] + rest)[1..] == rest;
  }

  lemma RunTwo(s: Store, a: Action, b: Action)
    requires Can(s, a) && Can(After(s, a), b)
    ensures CanRun(s, [a, b]) && Run(s, [a, b]) == After(After(s, a), b)
  {
    var next := After(s, a);
    RunStep(next, b, []);
    assert [b] + [] == [b] && [a] + [b] == [a, b];
    RunStep(s, a, [b]);
  }

  /** The actions of a save behind its first one. */
  function SaveActions(s: Store, call: CallId, ok: bool): seq<Action> {
    if !s.available then [ReadFlag(call)]
    else if ok then [ReadFlag(call), WriteRow(call, true)]
    else [ReadFlag(call), WriteRow(call, false)] + [LowerFlag(call)]
  }

  lemma DropSave(saves: map<CallId, Saving>, call: CallId, save: Saving)
    requires call !in saves
    ensures saves[call := save] - {call} == saves
  {
  }

  lemma UndisturbedSave(s: Store, call: CallId, id: Id, data: Data, ok: bool)
    requires call !in s.saves
    ensures var begun := After(s, BeginSave(call, id, data));
            && CanRun(begun, SaveActions(s, call, ok))
            && View(Run(begun, SaveActions(s, call, ok))) == Save(View(s), id, data, ok)
            && Run(begun, SaveActions(s, call, ok)).saves == s.saves
  {
    var begun := After(s, BeginSave(call, id, data));
    var read := After(begun, ReadFlag(call));
    DropSave(s.saves, call, Saving(id, data, Cached));
    DropSave(s.saves, call, Saving(id, data, Writing));
    DropSave(s.saves, call, Saving(id, data, Failed));
    if !s.available {
      RunStep(begun, ReadFlag(call), []);
      assert [ReadFlag(call)] + [] == [ReadFlag(call)];
    } else if ok {
      assert read.saves == s.saves[call := Saving(id, data, Writing)];
      RunTwo(begun, ReadFlag(call), WriteRow(call, true));
    } else {
      assert read.saves == s.saves[call := Saving(id, data, Writing)];
      var failed := After(read, WriteRow(call, false));
      assert failed.saves == s.saves[call := Saving(id, data, Failed)];
      RunTwo(read, WriteRow(call, false), LowerFlag(call));
      RunStep(begun, ReadFlag(call), [WriteRow(call, false), LowerFlag(call)]);
      assert SaveActions(s, call, ok) == [ReadFlag(call)] + [WriteRow(call, false), LowerFlag(call)];
    }
  }

  /** The two actions of a restore have the effect of the single-step one; the second is only there if
      the first has found the flag up and nothing in the cache. */
  lemma UndisturbedRestore(s: Store, id: Id, ok: bool)
    ensures var begun := After(s, BeginRestore(id));
            if id in s.cache || !s.available then begun == s && View(s) == Restore(View(s), id, ok).0
            else
              && Can(begun, EndRestore(ok))
              && var t := After(begun, EndRestore(ok));
                 && View(t) == Restore(View(s), id, ok).0 && t.readers == s.readers
                 && t.waiting == s.waiting + (if ok then 0 else 1)
  {
  }

  function PassActions(pass: CallId, order: seq<Id>, failing: set<Id>): seq<Action> {
    if order == [] then [EndPass(pass)]
    else [FlushRow(pass, order[0], order[0] !in failing)] + PassActions(pass, order[1..], failing)
  }

  /** `order` lists exactly the elements of `ids`, each once. */
  predicate Lists(order: seq<Id>, ids: set<Id>) {
    if order == [] then ids == {} else order[0] in ids && Lists(order[1..], ids - {order[0]})
  }

  /** The pass has written all of the cache but `todo` and what failed, on top of `base`. */
  ghost predicate Partway(s: Store, pass: CallId, base: Table, failing: set<Id>) {
    && pass in s.passes && s.passes.Keys == {pass}
    && var f := s.passes[pass];
       && f.snapshot == s.cache && f.todo <= s.cache.Keys
       && s.database == base + Written(s.cache, failing + f.todo)
       && (f.allFlushed <==> (s.cache.Keys - f.todo) !! failing)
  }

  lemma PartwayOneMore(s: Store, pass: CallId, base: Table, failing: set<Id>, id: Id)
    requires Partway(s, pass, base, failing) && id in s.passes[pass].todo
    ensures Partway(After(s, FlushRow(pass, id, id !in failing)), pass, base, failing)
  {
    var f := s.passes[pass];
    if id in failing {
      assert failing + f.todo == failing + (f.todo - {id});
    } else {
      WriteOneMore(base, s.cache, failing + f.todo, id);
      assert failing + f.todo - {id} == failing + (f.todo - {id});
    }
  }

  lemma {:induction false} PassFlushes(s: Store, pass: CallId, base: Table, order: seq<Id>, failing: set<Id>)
    requires Partway(s, pass, base, failing) && Lists(order, s.passes[pass].todo) && !s.available
    ensures CanRun(s, PassActions(pass, order, failing))
    ensures var t := Run(s, PassActions(pass, order, failing));
            View(t) == Flushed(State(s.cache, base, false), failing) && t.passes == map[] && t.saves == s.saves
    decreases |order|
  {
    var f := s.passes[pass];
    if order == [] {
      assert failing + f.todo == failing && s.cache.Keys - f.todo == s.cache.Keys;
      RunStep(s, EndPass(pass), []);
      assert [EndPass(pass)] + [] == [EndPass(pass)];
    } else {
      var a := FlushRow(pass, order[0], order[0] !in failing);
      PartwayOneMore(s, pass, base, failing, order[0]);
      PassFlushes(After(s, a), pass, base, order[1..], failing);
      RunStep(s, a, PassActions(pass, order[1..], failing));
    }
  }

  /** Begin, write each cached state in any order, end: the effect of one undisturbed pass. */
  lemma UndisturbedFlush(s: Store, pass: CallId, order: seq<Id>, failing: set<Id>)
    requires s.waiting > 0 && s.passes == map[] && !s.available && Lists(order, s.cache.Keys)
    ensures var begun := After(s, BeginPass(pass));
            && CanRun(begun, PassActions(pass, order, failing))
            && var t := Run(begun, PassActions(pass, order, failing));
               View(t) == Flushed(View(s), failing) && t.passes == map[] && t.saves == s.saves
  {
    var begun := After(s, BeginPass(pass));
    assert s.database + Written(s.cache, failing + s.cache.Keys) == s.database;
    PassFlushes(begun, pass, s.database, order, failing);
  }

  // The conditions are needed.

  /** Two overlapping saves of one session leave the older state in the database, with the flag up and
      without any pass. */
  lemma OverlappingSavesLoseUpdate(s: Store, j: CallId, k: CallId, id: Id, first: Data, second: Data)
    requires s.available && j !in s.saves && k !in s.saves && j != k && !Busy(s, id) && first != second
    ensures var begun := After(After(s, BeginSave(j, id, first)), BeginSave(k, id, second));
            && CanRun(begun, [ReadFlag(j), ReadFlag(k)])
            && var both := Run(begun, [ReadFlag(j), ReadFlag(k)]);
               && CanRun(both, [WriteRow(k, true), WriteRow(j, true)])
               && var t := Run(both, [WriteRow(k, true), WriteRow(j, true)]);
                  t.available && !Busy(t, id) && Row(t.cache, id) == Some(second) && Row(t.database, id) == Some(first)
  {
    var begun := After(After(s, BeginSave(j, id, first)), BeginSave(k, id, second));
    RunTwo(begun, ReadFlag(j), ReadFlag(k));
    var both := Run(begun, [ReadFlag(j), ReadFlag(k)]);
    assert both.saves == s.saves[j := Saving(id, first, Writing)][k := Saving(id, second, Writing)];
    RunTwo(both, WriteRow(k, true), WriteRow(j, true));
    var t := Run(both, [WriteRow(k, true), WriteRow(j, true)]);
    assert t.saves == s.saves;
  }

  /** A save between the copy and the end of a pass is lost to the database. */
  lemma SaveDuringFlushIsLost(s: Store, pass: CallId, call: CallId, id: Id, first: Data, second: Data)
    requires !s.available && s.saves == map[] && s.passes == map[] && s.waiting > 0
    requires s.cache == map[id := first] && first != second
    ensures var written := After(After(s, BeginPass(pass)), FlushRow(pass, id, true));
            && CanRun(written, [BeginSave(call, id, second), ReadFlag(call)])
            && var saved := Run(written, [BeginSave(call, id, second), ReadFlag(call)]);
               && Can(saved, EndPass(pass))
               && var t := After(saved, EndPass(pass));
                  t.available && !Busy(t, id) && Row(t.cache, id) == Some(second) && Row(t.database, id) == Some(first)
  {
    var written := After(After(s, BeginPass(pass)), FlushRow(pass, id, true));
    assert written.passes[pass].todo == {};
    RunTwo(written, BeginSave(call, id, second), ReadFlag(call));
  }
}
