/** Adding messages, with each call split at its locks: the push, the check, and the summarisation
    that the check asks for. Calls for the same session overlap freely. Restoring a session pushes a
    message without a check. */
module SessionCalls {
  import opened Common
  import opened SessionManager
  import Log = SessionProperties

  type CallId = nat

  /** A call that has pushed its message and has yet to check, or has found a summarisation due. */
  datatype Call = Call(id: SessionId, due: bool)

  datatype State = State(log: Log.State, calls: map<CallId, Call>)

  datatype Action =
    | Open(id: SessionId)
    | Push(call: CallId, id: SessionId, message: Message)
    | Check(call: CallId)
    | Summarise(call: CallId)
    | RestorePush(id: SessionId, message: Message)
    | Learn(id: SessionId, entry: KnowledgeEntry)
    | Remove(id: SessionId)

  predicate Can(s: State, a: Action) {
    match a
    case Push(call, _, _) => call !in s.calls
    case Check(call) => call in s.calls && !s.calls[call].due
    case Summarise(call) => call in s.calls && s.calls[call].due
    case _ => true
  }

  predicate IsDue(s: State, c: Config, id: SessionId) {
    id in s.log.sessions && NeedsSummary(s.log.sessions[id], c)
  }

  /** What the action does to the sessions and their logs; a check does nothing to them. */
  function Steps(s: State, a: Action): seq<Log.Step>
    requires Can(s, a)
  {
    match a
    case Open(id) => [Log.Open(id)]
    case Push(_, id, m) => [Log.Push(id, m)]
    case Check(_) => []
    case Summarise(call) => [Log.Summarise(s.calls[call].id)]
    case RestorePush(id, m) => [Log.Push(id, m)]
    case Learn(id, entry) => [Log.Learn(id, entry)]
    case Remove(id) => [Log.Remove(id)]
  }

  function Calls(s: State, c: Config, a: Action): map<CallId, Call>
    requires Can(s, a)
  {
    match a
    case Push(call, id, _) => s.calls[call := Call(id, false)]
    case Check(call) =>
      if IsDue(s, c, s.calls[call].id) then s.calls[call := Call(s.calls[call].id, true)] else s.calls - {call}
    case Summarise(call) => s.calls - {call}
    case _ => s.calls
  }

  function After(s: State, c: Config, a: Action): State
    requires Can(s, a)
  {
    State(if a.Check? then s.log else Log.Next(s.log, c, Steps(s, a)[0]), Calls(s, c, a))
  }

  /** Each action is one step on the sessions; a check is none. */
  lemma ActionEffect(s: State, c: Config, a: Action)
    requires Can(s, a)
    ensures After(s, c, a).log ==
            match a
            case Open(id) => Log.Next(s.log, c, Log.Open(id))
            case Push(_, id, m) => Log.Next(s.log, c, Log.Push(id, m))
            case Check(_) => s.log
            case Summarise(call) => Log.Next(s.log, c, Log.Summarise(s.calls[call].id))
            case RestorePush(id, m) => Log.Next(s.log, c, Log.Push(id, m))
            case Learn(id, entry) => Log.Next(s.log, c, Log.Learn(id, entry))
            case Remove(id) => Log.Next(s.log, c, Log.Remove(id))
  {
  }

  /** A call for the session is under way. */
  predicate Busy(s: State, id: SessionId) {
    exists k | k in s.calls :: s.calls[k].id == id
  }

  predicate Bounded(ctx: Context, c: Config) {
    ctx.totalTokens <= Threshold(c) || |ctx.messages| <= PRESERVED_TURNS + 1
  }

  /** Every session without a call under way is within the threshold, or as short as it can be. */
  ghost predicate AllBounded(s: State, c: Config) {
    forall id | id in s.log.sessions && !Busy(s, id) :: Bounded(s.log.sessions[id], c)
  }

  /** A restored message takes an idle session over the threshold although there is something to fold. */
  predicate Unchecked(s: State, c: Config, a: Action) {
    && a.RestorePush? && a.id in s.log.sessions && !Busy(s, a.id)
    && var ctx := s.log.sessions[a.id];
       Wrap(ctx.totalTokens + a.message.tokens) > Threshold(c) && |ctx.messages| > PRESERVED_TURNS
  }

  lemma KeptCalls(s: State, t: State, id: SessionId)
    requires forall k | k in s.calls :: k in t.calls && t.calls[k].id == s.calls[k].id
    ensures Busy(s, id) ==> Busy(t, id)
  {
    if k :| k in s.calls && s.calls[k].id == id {
      assert k in t.calls && t.calls[k].id == id;
    }
  }

  lemma PushBounded(s: State, c: Config, a: Action)
    requires Can(s, a) && a.Push? && AllBounded(s, c)
    ensures AllBounded(After(s, c, a), c)
  {
    var t := After(s, c, a);
    assert t.calls[a.call].id == a.id;
    forall id | id in t.log.sessions && !Busy(t, id) ensures Bounded(t.log.sessions[id], c) {
      assert id != a.id;
      KeptCalls(s, t, id);
    }
  }

  /** A call that ends leaves every other session as busy as it was. */
  lemma EndedCall(s: State, t: State, call: CallId, id: SessionId)
    requires call in s.calls && t.calls == s.calls - {call} && id != s.calls[call].id
    ensures Busy(t, id) <==> Busy(s, id)
  {
    if k :| k in s.calls && s.calls[k].id == id { assert k in t.calls && t.calls[k].id == id; }
  }

  lemma CheckBounded(s: State, c: Config, a: Action)
    requires Can(s, a) && a.Check? && AllBounded(s, c)
    ensures AllBounded(After(s, c, a), c)
  {
    var t, call := After(s, c, a), s.calls[a.call];
    forall id | id in t.log.sessions && !Busy(t, id) ensures Bounded(t.log.sessions[id], c) {
      if IsDue(s, c, call.id) {
        KeptCalls(s, t, id);
      } else if id != call.id {
        EndedCall(s, t, a.call, id);
      }
    }
  }

  lemma SummariseBounded(s: State, c: Config, a: Action)
    requires Can(s, a) && a.Summarise? && AllBounded(s, c) && s.log.sessions.Keys == s.log.logs.Keys
    ensures AllBounded(After(s, c, a), c)
  {
    var t, call := After(s, c, a), s.calls[a.call];
    forall id | id in t.log.sessions && !Busy(t, id) ensures Bounded(t.log.sessions[id], c) {
      if id == call.id {
        Log.SummarizedIsShort(s.log.sessions[id]);
      } else {
        EndedCall(s, t, a.call, id);
      }
    }
  }

  lemma RestoreBoundedIff(s: State, c: Config, a: Action)
    requires Can(s, a) && a.RestorePush? && AllBounded(s, c) && s.log.sessions.Keys == s.log.logs.Keys
    ensures AllBounded(After(s, c, a), c) <==> !Unchecked(s, c, a)
  {
    var t := After(s, c, a);
    assert forall id :: Busy(t, id) <==> Busy(s, id);
    if a.id in s.log.sessions {
      assert t.log.sessions[a.id] == Pushed(s.log.sessions[a.id], a.message);
      assert Bounded(t.log.sessions[a.id], c) || Busy(t, a.id) <==> !Unchecked(s, c, a);
    }
  }

  lemma OtherBounded(s: State, c: Config, a: Action)
    requires Can(s, a) && (a.Open? || a.Learn? || a.Remove?) && AllBounded(s, c)
    ensures AllBounded(After(s, c, a), c)
  {
    var t := After(s, c, a);
    assert forall id :: Busy(t, id) <==> Busy(s, id);
  }

  lemma AfterBoundedIff(s: State, c: Config, a: Action)
    requires Can(s, a) && AllBounded(s, c) && s.log.sessions.Keys == s.log.logs.Keys
    ensures AllBounded(After(s, c, a), c) <==> !Unchecked(s, c, a)
  {
    match a
    case Push(_, _, _) => PushBounded(s, c, a);
    case Check(_) => CheckBounded(s, c, a);
    case Summarise(_) => SummariseBounded(s, c, a);
    case RestorePush(_, _) => RestoreBoundedIff(s, c, a);
    case _ => OtherBounded(s, c, a);
  }

  predicate CanRun(s: State, c: Config, actions: seq<Action>)
    decreases actions
  {
    actions != [] ==> Can(s, actions[0]) && CanRun(After(s, c, actions[0]), c, actions[1..])
  }

  function Run(s: State, c: Config, actions: seq<Action>): State
    requires CanRun(s, c, actions)
    decreases actions
  {
    if actions == [] then s else Run(After(s, c, actions[0]), c, actions[1..])
  }

  ghost predicate AlwaysBounded(s: State, c: Config, actions: seq<Action>)
    requires CanRun(s, c, actions)
    decreases actions
  {
    AllBounded(s, c) && (actions != [] ==> AlwaysBounded(After(s, c, actions[0]), c, actions[1..]))
  }

  predicate NeverUnchecked(s: State, c: Config, actions: seq<Action>)
    requires CanRun(s, c, actions)
    decreases actions
  {
    actions != [] ==> !Unchecked(s, c, actions[0]) && NeverUnchecked(After(s, c, actions[0]), c, actions[1..])
  }

  lemma AfterRefines(s: State, c: Config, a: Action)
    requires Can(s, a) && Log.Refines(s.log, c)
    ensures Log.Refines(After(s, c, a).log, c)
  {
    if !a.Check? {
      Log.NextRefines(s.log, c, Steps(s, a)[0]);
    }
  }

  /** In every interleaving of calls, at every point, each session without a call under way is within
      80% of the limit or has at most eleven messages, if and only if no restore of the run pushes an
      idle session of more than ten messages over the threshold. */
  lemma {:induction false} BoundedIffNeverUnchecked(s: State, c: Config, actions: seq<Action>)
    requires CanRun(s, c, actions) && Log.Refines(s.log, c) && AllBounded(s, c)
    ensures AlwaysBounded(s, c, actions) <==> NeverUnchecked(s, c, actions)
    decreases |actions|
  {
    if actions != [] {
      AfterBoundedIff(s, c, actions[0]);
      AfterRefines(s, c, actions[0]);
      var next := After(s, c, actions[0]);
      if AllBounded(next, c) {
        BoundedIffNeverUnchecked(next, c, actions[1..]);
      } else {
        assert !AlwaysBounded(next, c, actions[1..]);
      }
    }
  }

  // A call that nothing disturbs.

  /** The actions of one call behind its first one: a summarisation comes last if it is due. */
  function PushActions(ctx: Context, c: Config, call: CallId, id: SessionId, m: Message): seq<Action> {
    [Push(call, id, m)] + ([Check(call)] + if NeedsSummary(Pushed(ctx, m), c) then [Summarise(call)] else [])
  }

  lemma RunStep(s: State, c: Config, a: Action, rest: seq<Action>)
    requires Can(s, a) && CanRun(After(s, c, a), c, rest)
    ensures CanRun(s, c, [a] + rest) && Run(s, c, [a] + rest) == Run(After(s, c, a), c, rest)
  {
    assert ([a] + rest)[1..] == rest;
  }

  lemma OpenedSession(s: State, c: Config, id: SessionId)
    requires s.log.sessions.Keys == s.log.logs.Keys && Create(s.log.sessions, c, id).Some?
    ensures var t := After(s, c, Open(id));
            && t.log.sessions == Create(s.log.sessions, c, id).value && t.calls == s.calls
            && id in t.log.sessions && id in t.log.logs
  {
  }

  /** After the push and the check the call is over, or a summarisation is due. */
  lemma PushedAndChecked(s: State, c: Config, call: CallId, id: SessionId, m: Message)
    requires call !in s.calls && id in s.log.sessions && id in s.log.logs
    ensures var ctx, rest := Pushed(s.log.sessions[id], m), After(s, c, Push(call, id, m));
            && Can(rest, Check(call)) && var t := After(rest, c, Check(call));
            && t.log.sessions == s.log.sessions[id := ctx] && id in t.log.logs
            && t.calls == if NeedsSummary(ctx, c) then s.calls[call := Call(id, true)] else s.calls
  {
  }

  lemma LastPart(s: State, c: Config, call: CallId, id: SessionId, before: map<CallId, Call>)
    requires id in s.log.sessions && id in s.log.logs && call !in before && s.calls == before[call := Call(id, true)]
    ensures var t := After(s, c, Summarise(call));
            t.log.sessions == s.log.sessions[id := Summarized(s.log.sessions[id])] && t.calls == before
  {
  }

  lemma UndisturbedEnd(s: State, c: Config, call: CallId, id: SessionId, before: map<CallId, Call>, due: bool)
    requires id in s.log.sessions && id in s.log.logs && call !in before
    requires s.calls == if due then before[call := Call(id, true)] else before
    ensures var last := if due then [Summarise(call)] else [];
            && CanRun(s, c, last)
            && var t, ctx := Run(s, c, last), s.log.sessions[id];
               && t.log.sessions == s.log.sessions[id := if due then Summarized(ctx) else ctx]
               && t.calls == before
  {
    if due {
      LastPart(s, c, call, id, before);
      RunStep(s, c, Summarise(call), []);
      assert [Summarise(call)] + [] == [Summarise(call)];
    }
  }

  lemma UndisturbedPush(s: State, c: Config, call: CallId, id: SessionId, m: Message)
    requires call !in s.calls && id in s.log.sessions && id in s.log.logs
    ensures var ctx := s.log.sessions[id];
            && CanRun(s, c, PushActions(ctx, c, call, id, m))
            && var t := Run(s, c, PushActions(ctx, c, call, id, m));
               t.log.sessions == s.log.sessions[id := Added(ctx, c, m)] && t.calls == s.calls
  {
    var ctx := s.log.sessions[id];
    var due := NeedsSummary(Pushed(ctx, m), c);
    PushedAndChecked(s, c, call, id, m);
    var pushed := After(s, c, Push(call, id, m));
    var checked := After(pushed, c, Check(call));
    var last := if due then [Summarise(call)] else [];
    UndisturbedEnd(checked, c, call, id, s.calls, due);
    RunStep(pushed, c, Check(call), last);
    RunStep(s, c, Push(call, id, m), [Check(call)] + last);
  }

  /** A call whose steps nothing comes between does what `add_message` promises. */
  lemma UndisturbedAdd(s: State, c: Config, call: CallId, id: SessionId, m: Message)
    requires Log.Refines(s.log, c) && call !in s.calls && Create(s.log.sessions, c, id).Some?
    ensures var created := Create(s.log.sessions, c, id).value;
            var actions := [Open(id)] + PushActions(created[id], c, call, id, m);
            && CanRun(s, c, actions)
            && var t := Run(s, c, actions);
               t.log.sessions == created[id := Added(created[id], c, m)] && t.calls == s.calls
  {
    OpenedSession(s, c, id);
    var opening := After(s, c, Open(id));
    UndisturbedPush(opening, c, call, id, m);
    RunStep(s, c, Open(id), PushActions(opening.log.sessions[id], c, call, id, m));
  }

  function Restores(id: SessionId, m: Message, n: nat): seq<Action> {
    if n == 0 then [] else [RestorePush(id, m)] + Restores(id, m, n - 1)
  }

  lemma {:induction false} RestoresAddUp(s: State, c: Config, id: SessionId, m: Message, n: nat)
    requires id in s.log.sessions && id in s.log.logs && m.tokens == 1
    requires s.log.sessions[id].totalTokens + n < U32_SIZE
    ensures CanRun(s, c, Restores(id, m, n))
    ensures var t := Run(s, c, Restores(id, m, n));
            && t.calls == s.calls && id in t.log.sessions
            && |t.log.sessions[id].messages| == |s.log.sessions[id].messages| + n
            && t.log.sessions[id].totalTokens == s.log.sessions[id].totalTokens + n
    decreases n
  {
    if n > 0 {
      var actions, next := Restores(id, m, n), After(s, c, RestorePush(id, m));
      assert actions[0] == RestorePush(id, m) && actions[1..] == Restores(id, m, n - 1);
      RestoresAddUp(next, c, id, m, n - 1);
    }
  }

  /** The condition is needed: restoring a session twelve times, one token each, takes it past a
      threshold of eight tokens, and no call is left to check. */
  lemma RestoresPassTheThreshold(c: Config, m: Message)
    requires c.tokenLimit == 10 && c.maxSessions > 0 && m.tokens == 1
    ensures var s := After(State(Log.State(map[], map[]), map[]), c, Open(1));
            CanRun(s, c, Restores(1, m, 12)) && !AllBounded(Run(s, c, Restores(1, m, 12)), c)
  {
    var s := After(State(Log.State(map[], map[]), map[]), c, Open(1));
    assert s.log.sessions[1] == EmptyContext;
    RestoresAddUp(s, c, 1, m, 12);
    var t := Run(s, c, Restores(1, m, 12));
    assert !Busy(t, 1) && Threshold(c) == 8;
  }

  // The same for the true sums.

  /** The steps of the sessions that a run of actions amounts to. */
  function AllSteps(s: State, c: Config, actions: seq<Action>): seq<Log.Step>
    requires CanRun(s, c, actions)
    decreases actions
  {
    if actions == [] then []
    else Steps(s, actions[0]) + AllSteps(After(s, c, actions[0]), c, actions[1..])
  }

  lemma ActionIsSteps(s: State, c: Config, a: Action, rest: seq<Log.Step>)
    requires Can(s, a)
    ensures Log.Run(s.log, c, Steps(s, a) + rest) == Log.Run(After(s, c, a).log, c, rest)
  {
    var steps := Steps(s, a) + rest;
    if a.Check? {
      assert steps == rest;
    } else {
      assert steps[0] == Steps(s, a)[0] && steps[1..] == rest;
    }
  }

  /** A run of split calls is a run of session steps, so what is proved about those holds here too. */
  lemma {:induction false} RunIsSteps(s: State, c: Config, actions: seq<Action>)
    requires CanRun(s, c, actions)
    ensures Run(s, c, actions).log == Log.Run(s.log, c, AllSteps(s, c, actions))
    decreases |actions|
  {
    if actions != [] {
      var next := After(s, c, actions[0]);
      RunIsSteps(next, c, actions[1..]);
      ActionIsSteps(s, c, actions[0], AllSteps(next, c, actions[1..]));
    }
  }

  lemma {:induction false} BoundedAtEnd(s: State, c: Config, actions: seq<Action>)
    requires CanRun(s, c, actions) && AlwaysBounded(s, c, actions)
    ensures AllBounded(Run(s, c, actions), c)
    decreases |actions|
  {
    if actions != [] {
      BoundedAtEnd(After(s, c, actions[0]), c, actions[1..]);
    }
  }

  /** After any run without a panic, an overflow or an unchecked restore, the counts held by an idle
      session really add up to at most 80% of the limit, or at most eleven messages remain. */
  lemma IdleSessionsAreSmall(s: State, c: Config, actions: seq<Action>, id: SessionId)
    requires CanRun(s, c, actions) && AllBounded(s, c)
    requires Log.Refines(s.log, c) && Log.AllTidy(s.log) && Log.AllTrue(s.log)
    requires NeverUnchecked(s, c, actions) && Log.NeverPanicsOrOverflows(s.log, c, AllSteps(s, c, actions))
    requires var t := Run(s, c, actions); id in t.log.sessions && !Busy(t, id)
    ensures var messages := Run(s, c, actions).log.sessions[id].messages;
            SumTokens(messages) <= Threshold(c) || |messages| <= PRESERVED_TURNS + 1
  {
    BoundedIffNeverUnchecked(s, c, actions);
    BoundedAtEnd(s, c, actions);
    RunIsSteps(s, c, actions);
    var steps := AllSteps(s, c, actions);
    Log.TotalsAreTrueIff(s.log, c, steps);
    TrueAtEnd(s.log, c, steps);
  }

  lemma {:induction false} TrueAtEnd(s: Log.State, c: Config, steps: seq<Log.Step>)
    requires Log.AlwaysTidyAndTrue(s, c, steps)
    ensures Log.AllTrue(Log.Run(s, c, steps))
    decreases |steps|
  {
    if steps != [] {
      TrueAtEnd(Log.Next(s, c, steps[0]), c, steps[1..]);
    }
  }
}
