/** Admission control of the shell executor: any number of `execute` and `execute_streaming` calls
    interleave at their atomic operations on one shared counter. */
module ShellAdmission {
  import opened Common

  type Id = nat

  datatype Kind = Execute | Streaming

  datatype Exit = SpawnFailed | PipeMissing | Completed | TimedOut | WaitFailed | Dropped

  /** Where a call stands. `Loaded` remembers the loaded value and how many counter changes the log
      held at that moment. */
  datatype Phase =
    | PreCheck
    | LoopHead
    | Loaded(seen: nat, stamp: nat)
    | Spawning
    | Detached
    | Denied
    | Rejected(limit: nat, observed: nat)
    | Ended(exit: Exit)

  datatype Call = Call(kind: Kind, phase: Phase) {
    predicate Holds() {
      phase.Spawning? || phase.Detached?
    }
  }

  /** A successful change of the counter. */
  datatype Change = Acquired(id: Id) | Freed(id: Id)

  datatype State = State(active: nat, calls: map<Id, Call>, log: seq<Change>)

  datatype Step =
    | Invoke(id: Id, kind: Kind, permitted: bool)
    | Load(id: Id)
    | Exchange(id: Id)
    | Detach(id: Id)
    | Finish(id: Id, exit: Exit)

  const Start := State(0, map[], [])

  function Move(s: State, id: Id, phase: Phase): State
    requires id in s.calls
  {
    s.(calls := s.calls[id := s.calls[id].(phase := phase)])
  }

  /** The ways out of a call that was admitted: `execute` frees its slot by a scope guard on every
      way out, `execute_streaming` by hand before the background task exists and in that task after. */
  predicate CanFinish(call: Call, exit: Exit) {
    match call.phase
    case Spawning => call.kind.Execute? || exit.SpawnFailed? || exit.PipeMissing?
    case Detached => exit.Completed? || exit.TimedOut?
    case _ => false
  }

  /** Subtracting one from 0 wraps around. */
  function FetchSub(active: nat): nat {
    if active == 0 then USIZE_MAX else active - 1
  }

  /** One atomic step of one call. A step that the call is not ready for changes nothing. */
  function Next(s: State, max: nat, step: Step): State {
    if step.Invoke? then
      if step.id in s.calls then s else
      var phase := if !step.permitted then Denied else if step.kind.Execute? then PreCheck else LoopHead;
      s.(calls := s.calls[step.id := Call(step.kind, phase)])
    else if step.id !in s.calls then s
    else
      var call := s.calls[step.id];
      match step
      case Load(id) =>
        if !call.phase.PreCheck? && !call.phase.LoopHead? then s
        else if s.active >= max then Move(s, id, Rejected(max, s.active))
        else if call.phase.PreCheck? then Move(s, id, LoopHead)
        else Move(s, id, Loaded(s.active, |s.log|))
      case Exchange(id) =>
        if !call.phase.Loaded? then s
        else if s.active != call.phase.seen then Move(s, id, LoopHead)
        else Move(s, id, Spawning).(active := s.active + 1, log := s.log + [Acquired(id)])
      case Detach(id) =>
        if call.kind.Streaming? && call.phase.Spawning? then Move(s, id, Detached) else s
      case Finish(id, exit) =>
        if !CanFinish(call, exit) then s
        else Move(s, id, Ended(exit)).(active := FetchSub(s.active), log := s.log + [Freed(id)])
  }

  function Run(s: State, max: nat, steps: seq<Step>): State
    decreases steps
  {
    if steps == [] then s else Run(Next(s, max, steps[0]), max, steps[1..])
  }

  /** The calls between their successful exchange and their release. */
  function Holders(s: State): set<Id> {
    set id | id in s.calls && s.calls[id].Holds()
  }

  function Finished(s: State): set<Id> {
    set id | id in s.calls && s.calls[id].phase.Ended?
  }

  function Times(s: State, change: Change): nat {
    multiset(s.log)[change]
  }

  /** A call changes the counter at most twice: it acquires once, and then frees once. */
  predicate ChangesOnce(s: State, id: Id) {
    var held := id in s.calls && s.calls[id].Holds();
    var ended := id in s.calls && s.calls[id].phase.Ended?;
    && Times(s, Acquired(id)) == (if held || ended then 1 else 0)
    && Times(s, Freed(id)) == (if ended then 1 else 0)
  }

  predicate PhaseOk(s: State, max: nat, phase: Phase) {
    && (phase.Loaded? ==> phase.seen < max && phase.stamp <= |s.log|
                          && (phase.stamp == |s.log| ==> phase.seen == s.active))
    && (phase.Rejected? ==> phase.limit == phase.observed == max)
  }

  predicate Counted(s: State, max: nat) {
    && s.active == |Holders(s)|
    && s.active <= max
    && |s.log| == |Holders(s)| + 2 * |Finished(s)|
  }

  ghost predicate Safe(s: State, max: nat) {
    && Counted(s, max)
    && (forall id | id in s.calls :: PhaseOk(s, max, s.calls[id].phase))
    && (forall id :: ChangesOnce(s, id))
  }

  function One(b: bool): nat { if b then 1 else 0 }

  lemma MoveCounts(s: State, id: Id, phase: Phase)
    requires id in s.calls
    ensures var t := Move(s, id, phase);
            && |Holders(t)| + One(s.calls[id].Holds()) == |Holders(s)| + One(t.calls[id].Holds())
            && |Finished(t)| + One(s.calls[id].phase.Ended?) == |Finished(s)| + One(phase.Ended?)
  {
    var t := Move(s, id, phase);
    assert Holders(t) - {id} == Holders(s) - {id};
    assert Finished(t) - {id} == Finished(s) - {id};
    RemoveOne(Holders(s), id);
    RemoveOne(Holders(t), id);
    RemoveOne(Finished(s), id);
    RemoveOne(Finished(t), id);
  }

  lemma RemoveOne(a: set<Id>, x: Id)
    ensures |a| == |a - {x}| + One(x in a)
  {
    if x !in a {
      assert a - {x} == a;
    }
  }

  lemma LogGrows(s: State, t: State, change: Change)
    requires t.log == s.log + [change]
    ensures forall c :: Times(t, c) == Times(s, c) + (if c == change then 1 else 0)
  {
  }

  lemma NextIsCounted(s: State, max: nat, step: Step)
    requires Counted(s, max) && forall id | id in s.calls :: PhaseOk(s, max, s.calls[id].phase)
    ensures Counted(Next(s, max, step), max)
  {
    var t := Next(s, max, step);
    if step.id !in s.calls || step.Invoke? {
      assert Holders(t) == Holders(s) && Finished(t) == Finished(s);
    } else if t != s {
      var phase := t.calls[step.id].phase;
      assert t.calls == Move(s, step.id, phase).calls;
      assert Holders(t) == Holders(Move(s, step.id, phase));
      assert Finished(t) == Finished(Move(s, step.id, phase));
      MoveCounts(s, step.id, phase);
    }
  }

  lemma NextPhasesOk(s: State, max: nat, step: Step)
    requires Counted(s, max) && forall id | id in s.calls :: PhaseOk(s, max, s.calls[id].phase)
    ensures var t := Next(s, max, step);
            forall id | id in t.calls :: PhaseOk(t, max, t.calls[id].phase)
  {
  }

  lemma NextChangesOnce(s: State, max: nat, step: Step, id: Id)
    requires ChangesOnce(s, id)
    ensures ChangesOnce(Next(s, max, step), id)
  {
    var t := Next(s, max, step);
    if t.log != s.log {
      LogGrows(s, t, t.log[|s.log|]);
    }
  }

  /** Every atomic step keeps the counter exact and within the limit, and a release never wraps. */
  lemma NextIsSafe(s: State, max: nat, step: Step)
    requires Safe(s, max)
    ensures Safe(Next(s, max, step), max)
  {
    NextIsCounted(s, max, step);
    NextPhasesOk(s, max, step);
    forall id ensures ChangesOnce(Next(s, max, step), id) {
      NextChangesOnce(s, max, step, id);
    }
  }

  lemma {:induction false} RunIsSafe(s: State, max: nat, steps: seq<Step>)
    requires Safe(s, max)
    ensures Safe(Run(s, max, steps), max)
    decreases |steps|
  {
    if steps != [] {
      NextIsSafe(s, max, steps[0]);
      RunIsSafe(Next(s, max, steps[0]), max, steps[1..]);
    }
  }

  /** In every interleaving the counter is the number of admitted and not yet released calls, never
      above the limit, and each call acquires and frees at most once. */
  lemma AdmissionIsSafe(max: nat, steps: seq<Step>)
    ensures Safe(Run(Start, max, steps), max)
  {
    assert Holders(Start) == Finished(Start) == {};
    RunIsSafe(Start, max, steps);
  }

  /** A release finds a positive counter and takes exactly one from it. */
  lemma ReleaseNeverWraps(s: State, max: nat, id: Id, exit: Exit)
    requires Safe(s, max) && id in s.calls && CanFinish(s.calls[id], exit)
    ensures s.active > 0 && Next(s, max, Finish(id, exit)).active == s.active - 1
  {
    assert id in Holders(s);
  }

  /** A call is turned away exactly when the load it acts on finds `max` calls admitted. */
  lemma RejectedIffFull(s: State, max: nat, step: Step)
    requires Safe(s, max) && step.id in s.calls
    requires s.calls[step.id].phase.PreCheck? || s.calls[step.id].phase.LoopHead?
    ensures Next(s, max, step).calls[step.id].phase.Rejected? <==> step.Load? && |Holders(s)| == max
  {
  }

  /** The loop is lock-free: an exchange fails only because another call changed the counter
      between this call's load and its exchange. */
  lemma FailedExchangeMeansProgress(s: State, max: nat, id: Id)
    requires Safe(s, max) && id in s.calls && s.calls[id].phase.Loaded?
    requires Next(s, max, Exchange(id)).calls[id].phase.LoopHead?
    ensures var stamp := s.calls[id].phase.stamp;
            stamp < |s.log| && s.log[stamp].id != id
  {
    var stamp := s.calls[id].phase.stamp;
    assert PhaseOk(s, max, s.calls[id].phase);
    assert ChangesOnce(s, id);
    assert s.log[stamp] in multiset(s.log);
  }

  predicate FailsExchange(s: State, max: nat, step: Step, id: Id) {
    step == Exchange(id) && id in s.calls && s.calls[id].phase.Loaded? && s.active != s.calls[id].phase.seen
  }

  function Retries(s: State, max: nat, steps: seq<Step>, id: Id): nat
    decreases steps
  {
    if steps == [] then 0 else
    One(FailsExchange(s, max, steps[0], id)) + Retries(Next(s, max, steps[0]), max, steps[1..], id)
  }

  /** The number of counter changes that this call's next exchange is not affected by. */
  function Mark(s: State, id: Id): nat {
    if id in s.calls && s.calls[id].phase.Loaded? then s.calls[id].phase.stamp else |s.log|
  }

  lemma MarkGrows(s: State, max: nat, step: Step, id: Id)
    requires Safe(s, max)
    ensures Mark(s, id) <= |s.log|
    ensures Mark(s, id) + One(FailsExchange(s, max, step, id)) <= Mark(Next(s, max, step), id)
  {
    if id in s.calls {
      assert PhaseOk(s, max, s.calls[id].phase);
    }
  }

  lemma {:induction false} RetriesCountChanges(s: State, max: nat, steps: seq<Step>, id: Id)
    requires Safe(s, max)
    ensures Mark(s, id) + Retries(s, max, steps, id) <= |Run(s, max, steps).log|
    decreases |steps|
  {
    if steps == [] {
      MarkGrows(s, max, Load(id), id);
    } else {
      MarkGrows(s, max, steps[0], id);
      NextIsSafe(s, max, steps[0]);
      RetriesCountChanges(Next(s, max, steps[0]), max, steps[1..], id);
    }
  }

  /** So in every run a call retries at most twice per call that was ever made. */
  lemma RetriesAreBounded(max: nat, steps: seq<Step>, id: Id)
    ensures Retries(Start, max, steps, id) <= 2 * |Run(Start, max, steps).calls|
  {
    AdmissionIsSafe(max, []);
    RetriesCountChanges(Start, max, steps, id);
    AdmissionIsSafe(max, steps);
    var s := Run(Start, max, steps);
    assert Holders(s) + Finished(s) <= s.calls.Keys && Holders(s) !! Finished(s);
    SubsetSize(Holders(s) + Finished(s), s.calls.Keys);
  }

  lemma {:induction false} SubsetSize(a: set<Id>, b: set<Id>)
    requires a <= b
    ensures |a| <= |b|
  {
    if a != {} {
      var x :| x in a;
      SubsetSize(a - {x}, b - {x});
    }
  }

  // Admission happens.

  /** A new call is denied exactly if it is not permitted; `execute` looks at the counter once before
      its loop, `execute_streaming` goes straight to it. */
  lemma InvokeEffect(s: State, max: nat, id: Id, kind: Kind, permitted: bool)
    requires id !in s.calls
    ensures var t := Next(s, max, Invoke(id, kind, permitted));
            && t.active == s.active && t.log == s.log && t.calls.Keys == s.calls.Keys + {id} && t.calls[id].kind == kind
            && (t.calls[id].phase.Denied? <==> !permitted)
            && (permitted && kind.Execute? ==> t.calls[id].phase == PreCheck)
            && (permitted && kind.Streaming? ==> t.calls[id].phase == LoopHead)
  {
  }

  /** No other step denies a call. */
  lemma DeniedIff(s: State, max: nat, step: Step, id: Id)
    ensures var t := Next(s, max, step);
            (id in t.calls && t.calls[id].phase.Denied?) <==>
            || (id in s.calls && s.calls[id].phase.Denied?)
            || (id !in s.calls && step.Invoke? && step.id == id && !step.permitted)
  {
  }

  /** A load with room lets the call go on, and remembers what it saw. */
  lemma LoadEffect(s: State, max: nat, id: Id)
    requires id in s.calls && s.active < max
    ensures var phase, t := s.calls[id].phase, Next(s, max, Load(id));
            && t.active == s.active && t.log == s.log
            && (phase == PreCheck ==> t.calls == s.calls[id := Call(s.calls[id].kind, LoopHead)])
            && (phase == LoopHead ==> t.calls == s.calls[id := Call(s.calls[id].kind, Loaded(s.active, |s.log|))])
  {
  }

  /** An exchange that finds the value it has loaded admits the call and counts it, once. */
  lemma ExchangeAdmits(s: State, max: nat, id: Id)
    requires id in s.calls && s.calls[id].phase.Loaded? && s.calls[id].phase.seen == s.active
    ensures var t := Next(s, max, Exchange(id));
            && Holders(t) == Holders(s) + {id}
            && t.active == s.active + 1 && t.log == s.log + [Acquired(id)]
            && t.calls == s.calls[id := Call(s.calls[id].kind, Spawning)]
  {
  }

  /** One that finds another value sends the call back to the head of its loop and changes nothing else. */
  lemma FailedExchangeRetries(s: State, max: nat, id: Id)
    requires id in s.calls && s.calls[id].phase.Loaded? && s.calls[id].phase.seen != s.active
    ensures Next(s, max, Exchange(id)) == s.(calls := s.calls[id := Call(s.calls[id].kind, LoopHead)])
  {
  }

  /** The steps of a permitted call up to its exchange. */
  function AdmissionSteps(id: Id, kind: Kind): seq<Step> {
    [Invoke(id, kind, true)] + (if kind.Execute? then [Load(id)] else []) + [Load(id)] + [Exchange(id)]
  }

  lemma RunStep(s: State, max: nat, step: Step, rest: seq<Step>)
    ensures Run(s, max, [step] + rest) == Run(Next(s, max, step), max, rest)
  {
    assert ([step] + rest)[1..] == rest;
  }

  lemma LoopAdmits(s: State, max: nat, id: Id)
    requires id in s.calls && s.calls[id].phase == LoopHead && s.active < max
    ensures var t := Run(s, max, [Load(id)] + [Exchange(id)]);
            && Holders(t) == Holders(s) + {id} && t.active == s.active + 1
            && t.calls == s.calls[id := Call(s.calls[id].kind, Spawning)]
  {
    var loaded := Next(s, max, Load(id));
    LoadEffect(s, max, id);
    assert Holders(loaded) == Holders(s);
    ExchangeAdmits(loaded, max, id);
    RunStep(s, max, Load(id), [Exchange(id)]);
    RunStep(loaded, max, Exchange(id), []);
    assert [Exchange(id)] + [] == [Exchange(id)];
  }

  lemma CheckAdmits(s: State, max: nat, id: Id)
    requires id in s.calls && s.calls[id].phase == PreCheck && s.active < max
    ensures var t := Run(s, max, [Load(id)] + ([Load(id)] + [Exchange(id)]));
            && Holders(t) == Holders(s) + {id} && t.active == s.active + 1
            && t.calls == s.calls[id := Call(s.calls[id].kind, Spawning)]
  {
    var checked := Next(s, max, Load(id));
    LoadEffect(s, max, id);
    assert Holders(checked) == Holders(s);
    LoopAdmits(checked, max, id);
    RunStep(s, max, Load(id), [Load(id)] + [Exchange(id)]);
  }

  /** While there is room, a permitted call that nothing disturbs is admitted. */
  lemma UndisturbedCallIsAdmitted(s: State, max: nat, id: Id, kind: Kind)
    requires Safe(s, max) && |Holders(s)| < max && id !in s.calls
    ensures var t := Run(s, max, AdmissionSteps(id, kind));
            && Holders(t) == Holders(s) + {id} && t.active == s.active + 1
            && t.calls == s.calls[id := Call(kind, Spawning)]
  {
    var invoked := Next(s, max, Invoke(id, kind, true));
    assert Holders(invoked) == Holders(s);
    var loop := [Load(id)] + [Exchange(id)];
    if kind.Execute? {
      CheckAdmits(invoked, max, id);
      RunStep(s, max, Invoke(id, kind, true), [Load(id)] + loop);
      assert AdmissionSteps(id, kind) == [Invoke(id, kind, true)] + ([Load(id)] + loop);
    } else {
      LoopAdmits(invoked, max, id);
      RunStep(s, max, Invoke(id, kind, true), loop);
      assert AdmissionSteps(id, kind) == [Invoke(id, kind, true)] + loop;
    }
  }

  /** Every way out frees the slot: `execute` has all of them at any time, `execute_streaming` fails to
      start or, once its task runs, completes or times out. */
  lemma ExitFreesSlot(s: State, max: nat, id: Id, exit: Exit)
    requires Safe(s, max) && id in s.calls
    requires || s.calls[id] == Call(Execute, Spawning)
             || (s.calls[id] == Call(Streaming, Spawning) && exit in {SpawnFailed, PipeMissing})
             || (s.calls[id] == Call(Streaming, Detached) && exit in {Completed, TimedOut})
    ensures var t := Next(s, max, Finish(id, exit));
            && Holders(t) == Holders(s) - {id} && id in Holders(s) && t.active == s.active - 1
            && t.calls == s.calls[id := Call(s.calls[id].kind, Ended(exit))] && t.log == s.log + [Freed(id)]
  {
    ReleaseNeverWraps(s, max, id, exit);
  }

  /** A streaming call hands its slot over to its task, and keeps it. */
  lemma DetachKeepsSlot(s: State, max: nat, id: Id)
    requires id in s.calls && s.calls[id] == Call(Streaming, Spawning)
    ensures var t := Next(s, max, Detach(id));
            t.calls == s.calls[id := Call(Streaming, Detached)] && t.active == s.active && Holders(t) == Holders(s)
  {
  }

  predicate Over(phase: Phase) {
    phase.Denied? || phase.Rejected? || phase.Ended?
  }

  /** Steps of other calls do not move a call, and nothing moves one that is over. */
  lemma OnlyOwnSteps(s: State, max: nat, step: Step, id: Id)
    requires id in s.calls && (step.id != id || Over(s.calls[id].phase))
    ensures var t := Next(s, max, step);
            id in t.calls && t.calls[id] == s.calls[id]
  {
  }
}
