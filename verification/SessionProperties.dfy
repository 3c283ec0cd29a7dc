/** Session contexts refine the log of pushed messages in every interleaving of calls.

    Each call takes the lock several times; a step is what happens under one lock. A summarisation
    may follow its check at any distance, so it is a step that can come at any time. */
module SessionProperties {
  import opened Common
  import opened SessionManager
  import Decimal

  datatype Step =
    | Open(id: SessionId)
    | Push(id: SessionId, message: Message)
    | Summarise(id: SessionId)
    | Learn(id: SessionId, entry: KnowledgeEntry)
    | Remove(id: SessionId)

  /** The sessions, and for each one all messages pushed since it was created. */
  datatype State = State(sessions: Sessions, logs: map<SessionId, seq<Message>>)

  function Next(s: State, c: Config, step: Step): State {
    var id := step.id;
    if step.Open? then
      if id in s.sessions || Create(s.sessions, c, id).None? then s
      else State(Create(s.sessions, c, id).value, s.logs[id := []])
    else if id !in s.sessions || id !in s.logs then s
    else
      var ctx := s.sessions[id];
      match step
      case Push(_, m) => State(s.sessions[id := Pushed(ctx, m)], s.logs[id := s.logs[id] + [m]])
      case Summarise(_) => s.(sessions := s.sessions[id := Summarized(ctx)])
      case Learn(_, entry) => s.(sessions := s.sessions[id := ctx.(knowledge := ctx.knowledge + [entry])])
      case Remove(_) => State(s.sessions - {id}, s.logs - {id})
  }

  function Run(s: State, c: Config, steps: seq<Step>): State
    decreases steps
  {
    if steps == [] then s else Run(Next(s, c, steps[0]), c, steps[1..])
  }

  predicate IsTail(messages: seq<Message>, log: seq<Message>) {
    |messages| <= |log| && messages == log[|log| - |messages|..]
  }

  /** The total is the sum of the counts held, as far as `u32` can tell. */
  predicate Exact(ctx: Context) {
    ctx.totalTokens == Wrap(SumTokens(ctx.messages))
  }

  /** One summary in place of at least one message, then at least ten messages verbatim. */
  predicate SummaryThenTail(messages: seq<Message>, log: seq<Message>) {
    && PRESERVED_TURNS < |messages| <= |log|
    && messages[0].role == System
    && messages[0].tokens == EstimateTokens(messages[0].content)
    && IsTail(messages[1..], log)
  }

  predicate Tidy(ctx: Context, log: seq<Message>) {
    Exact(ctx) && if ctx.hasSummary then SummaryThenTail(ctx.messages, log) else ctx.messages == log
  }

  /** What a panic during summarisation leaves behind: a tail of the log without a summary. */
  predicate Cut(ctx: Context, log: seq<Message>) {
    PRESERVED_TURNS <= |ctx.messages| < |log| && IsTail(ctx.messages, log)
  }

  ghost predicate Refines(s: State, c: Config) {
    && s.sessions.Keys == s.logs.Keys
    && |s.sessions| <= c.maxSessions
    && forall id | id in s.sessions :: Tidy(s.sessions[id], s.logs[id]) || Cut(s.sessions[id], s.logs[id])
  }

  ghost predicate AllTidy(s: State) {
    forall id | id in s.sessions && id in s.logs :: Tidy(s.sessions[id], s.logs[id])
  }

  lemma {:induction false} SumCons(m: Message, rest: seq<Message>)
    ensures SumTokens([m] + rest) == m.tokens + SumTokens(rest)
    decreases |rest|
  {
    var all := [m] + rest;
    if rest == [] {
      assert all[..0] == [];
    } else {
      assert all[..|all| - 1] == [m] + rest[..|rest| - 1];
      SumCons(m, rest[..|rest| - 1]);
    }
  }

  lemma SumPush(messages: seq<Message>, m: Message)
    ensures SumTokens(messages + [m]) == SumTokens(messages) + m.tokens
  {
    var more := messages + [m];
    assert more[..|more| - 1] == messages;
  }

  lemma PushKeepsExact(ctx: Context, m: Message)
    requires Exact(ctx)
    ensures Exact(Pushed(ctx, m))
  {
    SumPush(ctx.messages, m);
  }

  lemma PushKeepsSummary(messages: seq<Message>, log: seq<Message>, m: Message)
    requires SummaryThenTail(messages, log)
    ensures SummaryThenTail(messages + [m], log + [m])
  {
    TailGrows(messages[1..], log, m);
    assert (messages + [m])[1..] == messages[1..] + [m];
  }

  lemma PushKeepsTidy(ctx: Context, log: seq<Message>, m: Message)
    requires Tidy(ctx, log)
    ensures Tidy(Pushed(ctx, m), log + [m])
  {
    PushKeepsExact(ctx, m);
    if ctx.hasSummary {
      PushKeepsSummary(ctx.messages, log, m);
    }
  }

  lemma PushKeepsCut(ctx: Context, log: seq<Message>, m: Message)
    requires Cut(ctx, log)
    ensures Cut(Pushed(ctx, m), log + [m])
  {
    TailGrows(ctx.messages, log, m);
  }

  lemma TailGrows(messages: seq<Message>, log: seq<Message>, m: Message)
    requires IsTail(messages, log)
    ensures IsTail(messages + [m], log + [m])
  {
  }

  lemma TailOfTail(messages: seq<Message>, log: seq<Message>, n: nat)
    requires IsTail(messages, log) && n <= |messages|
    ensures IsTail(messages[n..], log)
  {
  }

  /** The ten messages that summarisation keeps are the last ten of the log. */
  lemma RecentIsTail(ctx: Context, log: seq<Message>)
    requires Tidy(ctx, log) || Cut(ctx, log)
    requires |ctx.messages| > PRESERVED_TURNS
    ensures |log| > PRESERVED_TURNS && IsTail(Recent(ctx), log)
  {
    var n := |ctx.messages| - PRESERVED_TURNS;
    if Tidy(ctx, log) && ctx.hasSummary {
      TailOfTail(ctx.messages[1..], log, n - 1);
      assert ctx.messages[1..][n - 1..] == Recent(ctx);
    } else {
      assert IsTail(ctx.messages, log);
      TailOfTail(ctx.messages, log, n);
    }
  }

  lemma WithSummaryIsTidy(ctx: Context, log: seq<Message>, text: string)
    requires |ctx.messages| > PRESERVED_TURNS && |log| > PRESERVED_TURNS && IsTail(Recent(ctx), log)
    ensures Tidy(WithSummary(ctx, text), log)
  {
    var summary, recent := Message(System, text, EstimateTokens(text)), Recent(ctx);
    SumCons(summary, recent);
    WrapInner(summary.tokens, SumTokens(recent));
    assert ([summary] + recent)[1..] == recent;
  }

  lemma WrapInner(a: nat, b: nat)
    ensures Wrap(a + Wrap(b)) == Wrap(a + b)
  {
  }

  lemma DrainedIsCut(ctx: Context, log: seq<Message>)
    requires |ctx.messages| > PRESERVED_TURNS && |log| > PRESERVED_TURNS && IsTail(Recent(ctx), log)
    ensures var drained := ctx.(messages := Recent(ctx));
            Cut(drained, log) && !Tidy(drained, log)
  {
  }

  /** Summarising always leaves a window on the log, also after an earlier panic, and a tidy one if
      and only if no listed message has a character across byte 100. */
  lemma SummariseIsTidyIffNoPanic(ctx: Context, log: seq<Message>)
    requires Tidy(ctx, log) || Cut(ctx, log)
    requires |ctx.messages| > PRESERVED_TURNS
    ensures Tidy(Summarized(ctx), log) <==> !Panics(Older(ctx))
    ensures Tidy(Summarized(ctx), log) || Cut(Summarized(ctx), log)
  {
    RecentIsTail(ctx, log);
    DrainedIsCut(ctx, log);
    if !Panics(Older(ctx)) {
      WithSummaryIsTidy(ctx, log, Summary(Older(ctx)));
    }
  }

  /** The step summarises, and the cut panics. */
  predicate PanicStep(s: State, step: Step) {
    && step.Summarise? && step.id in s.sessions
    && |s.sessions[step.id].messages| > PRESERVED_TURNS
    && Panics(Older(s.sessions[step.id]))
  }

  /** Replacing the context and the log of one session by a matching pair keeps the rest. */
  lemma UpdateRefines(s: State, c: Config, id: SessionId, ctx: Context, log: seq<Message>)
    requires Refines(s, c) && id in s.sessions
    requires Tidy(ctx, log) || Cut(ctx, log)
    ensures var t := State(s.sessions[id := ctx], s.logs[id := log]);
            Refines(t, c) && (AllTidy(s) ==> (AllTidy(t) <==> Tidy(ctx, log)))
  {
    var t := State(s.sessions[id := ctx], s.logs[id := log]);
    assert t.sessions.Keys == s.sessions.Keys && t.logs.Keys == s.logs.Keys;
    assert id in t.sessions;
  }

  lemma SummarisedFits(ctx: Context, log: seq<Message>)
    requires Tidy(ctx, log) || Cut(ctx, log)
    ensures Tidy(Summarized(ctx), log) || Cut(Summarized(ctx), log)
    ensures Tidy(ctx, log) ==>
              (Tidy(Summarized(ctx), log) <==> !(|ctx.messages| > PRESERVED_TURNS && Panics(Older(ctx))))
  {
    if |ctx.messages| > PRESERVED_TURNS {
      SummariseIsTidyIffNoPanic(ctx, log);
    }
  }

  lemma SummariseRefines(s: State, c: Config, id: SessionId)
    requires Refines(s, c) && id in s.sessions
    ensures var t := State(s.sessions[id := Summarized(s.sessions[id])], s.logs);
            && Refines(t, c)
            && (AllTidy(s) ==> (AllTidy(t) <==> !PanicStep(s, Summarise(id))))
  {
    var ctx, log := s.sessions[id], s.logs[id];
    SummarisedFits(ctx, log);
    UpdateRefines(s, c, id, Summarized(ctx), log);
    assert s.logs[id := log] == s.logs;
  }

  lemma PushRefines(s: State, c: Config, id: SessionId, m: Message)
    requires Refines(s, c) && id in s.sessions
    ensures var t := State(s.sessions[id := Pushed(s.sessions[id], m)], s.logs[id := s.logs[id] + [m]]);
            Refines(t, c) && (AllTidy(s) ==> AllTidy(t))
  {
    var ctx, log := s.sessions[id], s.logs[id];
    if Tidy(ctx, log) {
      PushKeepsTidy(ctx, log, m);
    } else {
      PushKeepsCut(ctx, log, m);
    }
    UpdateRefines(s, c, id, Pushed(ctx, m), log + [m]);
  }

  lemma LearnRefines(s: State, c: Config, id: SessionId, entry: KnowledgeEntry)
    requires Refines(s, c) && id in s.sessions
    ensures var ctx := s.sessions[id];
            var t := State(s.sessions[id := ctx.(knowledge := ctx.knowledge + [entry])], s.logs);
            Refines(t, c) && (AllTidy(s) ==> AllTidy(t))
  {
    var ctx, log := s.sessions[id], s.logs[id];
    UpdateRefines(s, c, id, ctx.(knowledge := ctx.knowledge + [entry]), log);
    assert s.logs[id := log] == s.logs;
  }

  lemma OpenRefines(s: State, c: Config, id: SessionId)
    requires Refines(s, c) && id !in s.sessions
    ensures var t := Next(s, c, Open(id));
            Refines(t, c) && (AllTidy(s) ==> AllTidy(t))
  {
    if |s.sessions| < c.maxSessions {
      EmptyIsTidy();
      NewSessionRefines(s, c, id, EmptyContext, []);
    }
  }

  lemma EmptyIsTidy()
    ensures Tidy(EmptyContext, [])
  {
  }

  lemma NewSessionRefines(s: State, c: Config, id: SessionId, ctx: Context, log: seq<Message>)
    requires Refines(s, c) && id !in s.sessions && |s.sessions| < c.maxSessions && Tidy(ctx, log)
    ensures var t := State(s.sessions[id := ctx], s.logs[id := log]);
            Refines(t, c) && (AllTidy(s) ==> AllTidy(t))
  {
    var t := State(s.sessions[id := ctx], s.logs[id := log]);
    assert t.sessions.Keys == s.sessions.Keys + {id} && t.logs.Keys == s.logs.Keys + {id};
  }

  lemma RemoveRefines(s: State, c: Config, id: SessionId)
    requires Refines(s, c) && id in s.sessions
    ensures var t := State(s.sessions - {id}, s.logs - {id});
            Refines(t, c) && (AllTidy(s) ==> AllTidy(t))
  {
    assert |s.sessions.Keys - {id}| < |s.sessions.Keys|;
    assert (s.sessions - {id}).Keys == s.sessions.Keys - {id};
  }

  lemma NextRefines(s: State, c: Config, step: Step)
    requires Refines(s, c)
    ensures Refines(Next(s, c, step), c)
    ensures AllTidy(s) ==> (AllTidy(Next(s, c, step)) <==> !PanicStep(s, step))
  {
    var id := step.id;
    if id !in s.sessions {
      OpenRefines(s, c, id);
    } else {
      match step {
        case Push(_, m) =>
          PushRefines(s, c, id, m);
        case Summarise(_) => SummariseRefines(s, c, id);
        case Learn(_, entry) =>
          LearnRefines(s, c, id, entry);
        case Remove(_) => RemoveRefines(s, c, id);
        case Open(_) =>
      }
    }
  }

  /** A step touches only its own session, and only `Learn` touches knowledge. */
  lemma StepsAreLocal(s: State, c: Config, step: Step, id: SessionId)
    requires id in s.sessions
    ensures var t := Next(s, c, step);
            && (id != step.id ==> id in t.sessions && t.sessions[id] == s.sessions[id])
            && (id == step.id && !step.Remove? ==>
                  id in t.sessions &&
                  t.sessions[id].knowledge == s.sessions[id].knowledge
                                              + if step.Learn? && id in s.logs then [step.entry] else [])
  {
  }

  /** What a step does to its own session and log. */
  lemma StepEffect(s: State, c: Config, step: Step)
    requires s.sessions.Keys == s.logs.Keys
    ensures var t, id := Next(s, c, step), step.id;
            && t.sessions.Keys == t.logs.Keys
            && (step.Remove? ==> t.sessions.Keys == s.sessions.Keys - {id})
            && (step.Open? && id !in s.sessions ==>
                  if |s.sessions| < c.maxSessions
                  then id in t.sessions && t.sessions[id] == Context([], [], 0, false) && t.logs[id] == []
                  else t == s)
            && (!step.Open? && id !in s.sessions ==> t == s)
            && (!step.Remove? && id in s.sessions ==>
                  && t.sessions.Keys == s.sessions.Keys
                  && (step.Push? ==>
                        && t.sessions[id].messages == s.sessions[id].messages + [step.message]
                        && t.logs[id] == s.logs[id] + [step.message])
                  && (!step.Push? ==> t.logs == s.logs)
                  && (step.Summarise? ==> t.sessions[id] == Summarized(s.sessions[id]))
                  && (step.Open? || step.Learn? ==> t.sessions[id].messages == s.sessions[id].messages))
  {
  }

  predicate NeverPanics(s: State, c: Config, steps: seq<Step>)
    decreases steps
  {
    steps != [] ==> !PanicStep(s, steps[0]) && NeverPanics(Next(s, c, steps[0]), c, steps[1..])
  }

  ghost predicate AlwaysTidy(s: State, c: Config, steps: seq<Step>)
    decreases steps
  {
    AllTidy(s) && (steps != [] ==> AlwaysTidy(Next(s, c, steps[0]), c, steps[1..]))
  }

  /** In every interleaving each context is a window on its log; and the window is tidy (the whole
      log, or one summary and a tail of at least ten, with an exact total) at every point of the run
      if and only if no summarisation of the run panics. */
  lemma {:induction false} ContextRefinesLog(s: State, c: Config, steps: seq<Step>)
    requires Refines(s, c) && AllTidy(s)
    ensures AlwaysTidy(s, c, steps) <==> NeverPanics(s, c, steps)
    decreases |steps|
  {
    if steps != [] {
      NextRefines(s, c, steps[0]);
      var next := Next(s, c, steps[0]);
      if AllTidy(next) {
        ContextRefinesLog(next, c, steps[1..]);
      } else {
        assert !AlwaysTidy(next, c, steps[1..]);
      }
    }
  }

  lemma {:induction false} RunRefines(s: State, c: Config, steps: seq<Step>)
    requires Refines(s, c)
    ensures Refines(Run(s, c, steps), c)
    decreases |steps|
  {
    if steps != [] {
      NextRefines(s, c, steps[0]);
      RunRefines(Next(s, c, steps[0]), c, steps[1..]);
    }
  }

  /** The condition is needed: a two-byte character across byte 100 makes the cut panic. */
  lemma SplitCharacterPanics()
    ensures var m := Message(User, seq(99, _ => 'a') + [0xC3 as char, 0xA9 as char], 26);
            Panics([m])
  {
    var m := Message(User, seq(99, _ => 'a') + [0xC3 as char, 0xA9 as char], 26);
    assert WithRole([m], User) == [m] by {
      assert [m][..0] == [];
      assert WithRole([m][..0], User) == [];
    }
    assert !CanAbbreviate([m][0]);
  }

  // The total against the true sum of the counts held.

  /** The total is the sum of the counts held. */
  predicate TrueTotal(ctx: Context) {
    ctx.totalTokens == SumTokens(ctx.messages)
  }

  /** An exact total is the true one if and only if the sum held fits into `u32`. */
  lemma TotalIsTrueIff(ctx: Context)
    requires Exact(ctx)
    ensures TrueTotal(ctx) <==> SumTokens(ctx.messages) < U32_SIZE
  {
  }

  ghost predicate AllTrue(s: State) {
    forall id | id in s.sessions :: TrueTotal(s.sessions[id])
  }

  /** The sum of the counts after the step does not fit into `u32`. */
  predicate OverflowStep(s: State, step: Step) {
    && step.id in s.sessions
    && var ctx := s.sessions[step.id];
       match step
       case Push(_, m) => SumTokens(ctx.messages) + m.tokens >= U32_SIZE
       case Summarise(_) =>
         && |ctx.messages| > PRESERVED_TURNS
         && EstimateTokens(Summary(Older(ctx))) + SumTokens(Recent(ctx)) >= U32_SIZE
       case _ => false
  }

  lemma PushTrueIff(ctx: Context, m: Message)
    requires TrueTotal(ctx)
    ensures TrueTotal(Pushed(ctx, m)) <==> SumTokens(ctx.messages) + m.tokens < U32_SIZE
  {
    SumPush(ctx.messages, m);
  }

  lemma SummaryTrueIff(ctx: Context, text: string)
    requires |ctx.messages| > PRESERVED_TURNS
    ensures TrueTotal(WithSummary(ctx, text)) <==> EstimateTokens(text) + SumTokens(Recent(ctx)) < U32_SIZE
  {
    var summary, recent := Message(System, text, EstimateTokens(text)), Recent(ctx);
    SumCons(summary, recent);
    WrapInner(summary.tokens, SumTokens(recent));
  }

  lemma UpdateTrueIff(s: State, id: SessionId, ctx: Context, logs: map<SessionId, seq<Message>>)
    requires AllTrue(s)
    ensures AllTrue(State(s.sessions[id := ctx], logs)) <==> TrueTotal(ctx)
  {
    assert id in s.sessions[id := ctx];
  }

  lemma NextTrueIff(s: State, c: Config, step: Step)
    requires s.sessions.Keys == s.logs.Keys && AllTrue(s) && !PanicStep(s, step)
    ensures AllTrue(Next(s, c, step)) <==> !OverflowStep(s, step)
  {
    var id := step.id;
    if id in s.sessions {
      var ctx := s.sessions[id];
      match step {
        case Push(_, m) =>
          PushTrueIff(ctx, m);
          UpdateTrueIff(s, id, Pushed(ctx, m), s.logs[id := s.logs[id] + [m]]);
        case Summarise(_) =>
          if |ctx.messages| > PRESERVED_TURNS { SummaryTrueIff(ctx, Summary(Older(ctx))); }
          UpdateTrueIff(s, id, Summarized(ctx), s.logs);
        case Learn(_, entry) =>
          UpdateTrueIff(s, id, ctx.(knowledge := ctx.knowledge + [entry]), s.logs);
        case _ =>
      }
    }
  }

  predicate NeverPanicsOrOverflows(s: State, c: Config, steps: seq<Step>)
    decreases steps
  {
    steps != [] ==>
      && !PanicStep(s, steps[0]) && !OverflowStep(s, steps[0])
      && NeverPanicsOrOverflows(Next(s, c, steps[0]), c, steps[1..])
  }

  ghost predicate AlwaysTidyAndTrue(s: State, c: Config, steps: seq<Step>)
    decreases steps
  {
    AllTidy(s) && AllTrue(s) && (steps != [] ==> AlwaysTidyAndTrue(Next(s, c, steps[0]), c, steps[1..]))
  }

  /** In every interleaving each context is tidy and its total is the true sum of the counts it holds,
      at every point, if and only if no summarisation panics and no sum of the run reaches 2^32. */
  lemma {:induction false} TotalsAreTrueIff(s: State, c: Config, steps: seq<Step>)
    requires Refines(s, c) && AllTidy(s) && AllTrue(s)
    ensures AlwaysTidyAndTrue(s, c, steps) <==> NeverPanicsOrOverflows(s, c, steps)
    decreases |steps|
  {
    if steps != [] {
      NextRefines(s, c, steps[0]);
      if !PanicStep(s, steps[0]) { NextTrueIff(s, c, steps[0]); }
      var next := Next(s, c, steps[0]);
      if AllTidy(next) && AllTrue(next) {
        TotalsAreTrueIff(next, c, steps[1..]);
      } else {
        assert !AlwaysTidyAndTrue(next, c, steps[1..]);
      }
    }
  }

  lemma RunThree(s: State, c: Config, a: Step, b: Step, d: Step)
    ensures Run(s, c, [a, b, d]) == Next(Next(Next(s, c, a), c, b), c, d)
  {
    assert [a, b, d][1..] == [b, d] && [b, d][1..] == [d] && [d][1..] == [];
    var s1 := Next(s, c, a);
    var s2 := Next(s1, c, b);
    assert Run(s2, c, [d]) == Run(Next(s2, c, d), c, []);
    assert Run(s1, c, [b, d]) == Run(s2, c, [d]);
  }

  /** The condition is needed: two messages whose counts add up to 2^32 leave a total of zero. */
  lemma TotalWrapsToZero(c: Config, m: Message, n: Message)
    requires c.maxSessions > 0 && m.tokens == 0xFFFF_FFFF && n.tokens == 1
    ensures var s := Run(State(map[], map[]), c, [Open(1), Push(1, m), Push(1, n)]);
            && 1 in s.sessions && s.sessions[1].messages == [m, n]
            && s.sessions[1].totalTokens == 0 && SumTokens(s.sessions[1].messages) == U32_SIZE
  {
    RunThree(State(map[], map[]), c, Open(1), Push(1, m), Push(1, n));
    var s1 := Next(State(map[], map[]), c, Open(1));
    assert s1 == State(map[1 := EmptyContext], map[1 := []]);
    var s2 := Next(s1, c, Push(1, m));
    assert s2.sessions[1] == Pushed(EmptyContext, m);
    var s3 := Next(s2, c, Push(1, n));
    assert s3.sessions[1] == Pushed(Pushed(EmptyContext, m), n);
    SumPush([], m);
    SumPush([m], n);
    assert [] + [m] == [m] && [m] + [n] == [m, n];
  }

  /** The sum overflows, what remains of it passes for a small one, and there are too many messages. */
  predicate WrapsBelowThreshold(ctx: Context, c: Config, m: Message) {
    var sum := SumTokens(ctx.messages) + m.tokens;
    sum >= U32_SIZE && Wrap(sum) <= Threshold(c) && |ctx.messages| > PRESERVED_TURNS
  }

  /** After adding a message, the total is at most 80% of the limit or at most eleven messages remain.
      The same holds for the true sum of the counts held if and only if the sum does not wrap to a
      small total. */
  lemma AddedIsBounded(ctx: Context, c: Config, m: Message)
    ensures var ctx' := Added(ctx, c, m);
            && (ctx'.totalTokens <= Threshold(c) || |ctx'.messages| <= PRESERVED_TURNS + 1)
            && (Exact(ctx) ==>
                  (SumTokens(ctx'.messages) <= Threshold(c) || |ctx'.messages| <= PRESERVED_TURNS + 1 <==>
                   !WrapsBelowThreshold(ctx, c, m)))
  {
    SummarizedIsShort(Pushed(ctx, m));
    if Exact(ctx) {
      TrueBoundIff(ctx, c, m);
    }
  }

  lemma TrueBoundIff(ctx: Context, c: Config, m: Message)
    requires Exact(ctx)
    ensures var messages := Added(ctx, c, m).messages;
            SumTokens(messages) <= Threshold(c) || |messages| <= PRESERVED_TURNS + 1 <==>
            !WrapsBelowThreshold(ctx, c, m)
  {
    var pushed := Pushed(ctx, m);
    PushedSum(ctx, m);
    if NeedsSummary(pushed, c) {
      SummarizedIsShort(pushed);
    } else {
      WithinIff(SumTokens(pushed.messages), Threshold(c));
      assert Added(ctx, c, m) == pushed;
    }
  }

  lemma PushedSum(ctx: Context, m: Message)
    requires Exact(ctx)
    ensures SumTokens(Pushed(ctx, m).messages) == SumTokens(ctx.messages) + m.tokens
    ensures Pushed(ctx, m).totalTokens == Wrap(SumTokens(ctx.messages) + m.tokens)
  {
    SumPush(ctx.messages, m);
    WrapInner(m.tokens, SumTokens(ctx.messages));
  }

  lemma SummarizedIsShort(ctx: Context)
    ensures |Summarized(ctx).messages| <= PRESERVED_TURNS + 1
  {
  }

  lemma WithinIff(sum: nat, threshold: nat)
    requires threshold < U32_SIZE
    ensures sum <= threshold <==> sum < U32_SIZE && Wrap(sum) <= threshold
  {
  }

  // What one call does to its session.

  /** The wrapped total after the message, and whether it asks for a summary. */
  predicate OverThreshold(ctx: Context, c: Config, m: Message) {
    5 * ((ctx.totalTokens + m.tokens) % 0x1_0000_0000) > 4 * c.tokenLimit
  }

  /** A message that leaves the total within 80% of the limit, or the session with at most ten messages,
      is appended, and its tokens are added. */
  lemma AddedAppends(ctx: Context, c: Config, m: Message)
    requires !OverThreshold(ctx, c, m) || |ctx.messages| < 10
    ensures Added(ctx, c, m) == Appended(ctx, m)
    ensures !AddPanics(ctx, c, m)
  {
  }

  /** `ctx'` is `ctx` with the first `n` messages folded into one system message with their summary; if
      the summary panics, they are gone and nothing else is changed. */
  ghost predicate Folded(ctx: Context, n: nat, ctx': Context) {
    && n <= |ctx.messages| && ctx'.knowledge == ctx.knowledge
    && if Panics(ctx.messages[..n]) then ctx' == ctx.(messages := ctx.messages[n..])
       else
         var text := Summary(ctx.messages[..n]);
         && ctx'.messages == [Message(System, text, EstimateTokens(text))] + ctx.messages[n..]
         && ctx'.hasSummary
         && ctx'.totalTokens == SumTokens(ctx'.messages) % 0x1_0000_0000
  }

  /** Summarising folds all but the last ten messages, and nothing if there are no more. */
  lemma SummarizedFolds(ctx: Context)
    ensures |ctx.messages| <= 10 ==> Summarized(ctx) == ctx
    ensures |ctx.messages| > 10 ==> Folded(ctx, |ctx.messages| - 10, Summarized(ctx))
  {
    if |ctx.messages| > 10 {
      var text := Summary(Older(ctx));
      SumCons(Message(System, text, EstimateTokens(text)), Recent(ctx));
      WrapInner(EstimateTokens(text), SumTokens(Recent(ctx)));
    }
  }

  /** The context with the message appended and its tokens added. */
  function Appended(ctx: Context, m: Message): Context {
    Context(ctx.messages + [m], ctx.knowledge, (ctx.totalTokens + m.tokens) % 0x1_0000_0000, ctx.hasSummary)
  }

  lemma NeedsSummaryIff(ctx: Context, c: Config, m: Message)
    ensures Pushed(ctx, m) == Appended(ctx, m)
    ensures NeedsSummary(Appended(ctx, m), c) <==> OverThreshold(ctx, c, m) && |ctx.messages| >= 10
  {
  }

  /** Otherwise the message is appended and all but the last ten messages are folded. */
  lemma AddedFolds(ctx: Context, c: Config, m: Message)
    requires OverThreshold(ctx, c, m) && |ctx.messages| >= 10
    ensures Folded(Appended(ctx, m), |ctx.messages| - 9, Added(ctx, c, m))
  {
    NeedsSummaryIff(ctx, c, m);
    var pushed := Appended(ctx, m);
    SummarizedFolds(pushed);
    assert |pushed.messages| - 10 == |ctx.messages| - 9;
  }

  lemma AddPanicsIff(ctx: Context, c: Config, m: Message)
    ensures AddPanics(ctx, c, m) <==>
            OverThreshold(ctx, c, m) && |ctx.messages| >= 10 && Panics((ctx.messages + [m])[..|ctx.messages| - 9])
  {
    NeedsSummaryIff(ctx, c, m);
  }

  /** A session that exists is kept, a new one is empty, and there is one unless the limit is reached. */
  lemma CreateEffect(s: Sessions, c: Config, id: SessionId)
    ensures Create(s, c, id).None? <==> id !in s && |s| >= c.maxSessions
    ensures Create(s, c, id).Some? ==>
              var t := Create(s, c, id).value;
              && t.Keys == s.Keys + {id}
              && (forall other | other in s :: t[other] == s[other])
              && (id !in s ==> t[id] == Context([], [], 0, false))
  {
  }

  // The content and the size of a summary.

  /** Selecting by role keeps exactly the messages of that role, each as often as it occurs. */
  lemma {:induction false} WithRoleSelects(messages: seq<Message>, role: Role, m: Message)
    ensures multiset(WithRole(messages, role))[m] == if m.role == role then multiset(messages)[m] else 0
  {
    if messages != [] {
      var init, last := messages[..|messages| - 1], messages[|messages| - 1];
      assert messages == init + [last];
      WithRoleSelects(init, role, m);
    }
  }

  /** The chosen messages stand at the increasing positions `at`, and no other message has the role. */
  ghost predicate Positions(messages: seq<Message>, role: Role, chosen: seq<Message>, at: seq<nat>) {
    && |at| == |chosen|
    && (forall k | 0 <= k < |at| :: at[k] < |messages| && messages[at[k]] == chosen[k])
    && (forall j, k | 0 <= j < k < |at| :: at[j] < at[k])
    && (forall i | 0 <= i < |messages| && messages[i].role == role :: i in at)
  }

  lemma PositionsGrow(init: seq<Message>, m: Message, role: Role, chosen: seq<Message>, at: seq<nat>)
    requires Positions(init, role, chosen, at)
    ensures m.role == role ==> Positions(init + [m], role, chosen + [m], at + [|init|])
    ensures m.role != role ==> Positions(init + [m], role, chosen, at)
  {
    var messages := init + [m];
    forall i | 0 <= i < |messages| && messages[i].role == role && i < |init| ensures i in at {
      assert messages[i] == init[i];
    }
  }

  /** Selecting by role also keeps the order of the messages. */
  lemma {:induction false} WithRoleKeepsOrder(messages: seq<Message>, role: Role) returns (at: seq<nat>)
    ensures Positions(messages, role, WithRole(messages, role), at)
  {
    if messages == [] {
      at := [];
    } else {
      var init, m := messages[..|messages| - 1], messages[|messages| - 1];
      at := WithRoleKeepsOrder(init, role);
      PositionsGrow(init, m, role, WithRole(init, role), at);
      assert init + [m] == messages;
      if m.role == role {
        at := at + [|init|];
      } else {
        assert WithRole(init, role) + [] == WithRole(init, role);
      }
    }
  }

  lemma {:induction false} BulletAt(messages: seq<Message>, i: nat)
    requires i < |messages|
    ensures |Bullets(messages)| == |messages| && Bullets(messages)[i] == Bullet(messages[i])
    decreases |messages|
  {
    var init := messages[..|messages| - 1];
    BulletsAreShort(init);
    if i < |init| {
      BulletAt(init, i);
    }
  }

  lemma MiddlePart(first: string, middle: seq<string>, rest: seq<string>, i: nat)
    requires i < |middle|
    ensures var all := [first] + middle + rest;
            |all| > i + 1 && all[i + 1] == middle[i]
  {
  }

  lemma UserPartAt(users: seq<Message>, i: nat)
    requires i < |users| && i < 20 && |Bullets(Take(users, 20))| == |Take(users, 20)|
    ensures var parts := UserParts(users);
            |parts| > i + 1 && parts[0] == TopicLine(|users|) && parts[i + 1] == Bullets(Take(users, 20))[i]
  {
    var more := if |users| > 20 then [MoreLine(|users| - 20)] else [];
    MiddlePart(TopicLine(|users|), Bullets(Take(users, 20)), more, i);
  }

  /** The summary lists the first twenty user messages in order, behind its header and their count. */
  lemma SummaryListsTopics(messages: seq<Message>, i: nat)
    requires i < |WithRole(messages, User)| && i < 20
    ensures var users, parts := WithRole(messages, User), SummaryParts(messages);
            |parts| > i + 2 && parts[1] == TopicLine(|users|) && parts[i + 2] == Bullet(users[i])
  {
    var users := WithRole(messages, User);
    BulletAt(Take(users, 20), i);
    UserPartAt(users, i);
    MiddlePart(HEADER, UserParts(users), OtherParts(WithRole(messages, Assistant), WithRole(messages, Tool)), 0);
    MiddlePart(HEADER, UserParts(users), OtherParts(WithRole(messages, Assistant), WithRole(messages, Tool)), i + 1);
  }

  const PART_LIMIT: nat := 105
  const PARTS_LIMIT: nat := 25
  const SUMMARY_TOKENS: nat := 663

  lemma {:induction false} WithRoleIsShorter(messages: seq<Message>, role: Role)
    ensures |WithRole(messages, role)| <= |messages|
  {
    if messages != [] {
      WithRoleIsShorter(messages[..|messages| - 1], role);
    }
  }

  predicate Short(parts: seq<string>) {
    forall i | 0 <= i < |parts| :: |parts[i]| <= PART_LIMIT
  }

  lemma {:induction false} BulletsAreShort(messages: seq<Message>)
    ensures Short(Bullets(messages)) && |Bullets(messages)| == |messages|
  {
    if messages != [] {
      BulletsAreShort(messages[..|messages| - 1]);
    }
  }

  lemma CountIsShort(n: nat)
    requires n <= USIZE_MAX
    ensures |Decimal.Print(n)| <= 20
  {
    assert Decimal.Pow10(10) == 10000000000;
    assert Decimal.Pow10(20) == 100000000000000000000;
    Decimal.PrintLength(n, 20);
  }

  lemma PartsAreShort(messages: seq<Message>)
    requires |messages| <= USIZE_MAX
    ensures Short(SummaryParts(messages)) && 0 < |SummaryParts(messages)| <= PARTS_LIMIT
  {
    var users, assistants, tools := WithRole(messages, User), WithRole(messages, Assistant), WithRole(messages, Tool);
    WithRoleIsShorter(messages, User);
    WithRoleIsShorter(messages, Assistant);
    WithRoleIsShorter(messages, Tool);
    CountIsShort(|users|);
    CountIsShort(|assistants|);
    CountIsShort(|tools|);
    if |users| > 20 { CountIsShort(|users| - 20); }
    BulletsAreShort(Take(users, 20));
    assert Short(UserParts(users)) && |UserParts(users)| <= 22;
    assert Short(OtherParts(assistants, tools)) && |OtherParts(assistants, tools)| <= 2;
  }

  lemma {:induction false} JoinLength(parts: seq<string>)
    requires Short(parts) && parts != []
    ensures |Join(parts)| <= |parts| * (PART_LIMIT + 1) - 1
    decreases |parts|
  {
    if |parts| > 1 {
      JoinLength(parts[..|parts| - 1]);
    }
  }

  /** However many messages are folded and however long they are, the summary stays within a
      constant number of tokens. */
  lemma SummaryIsBounded(messages: seq<Message>)
    requires |messages| <= USIZE_MAX
    ensures EstimateTokens(Summary(messages)) <= SUMMARY_TOKENS
  {
    PartsAreShort(messages);
    JoinLength(SummaryParts(messages));
  }
}
