/** What undo achieves over whole runs of tracked operations, undos, evictions and failures. */
module UndoProperties {
  import opened Common
  import opened FileStore
  import opened UndoHistory

  datatype Event = Do(op: Op, f: Faults) | Rollback(count: nat, faults: seq<bool>)

  /** One entry of the unbounded operation stack, with the files as they were before the operation. */
  datatype Frame = Frame(entry: Entry, before: Files)

  /** A world with the stack of all operations performed and not yet undone. */
  datatype Log = Log(world: World, stack: seq<Frame>)

  function Step(l: Log, limits: Limits, event: Event): Log {
    match event
    case Do(op, f) => (
      match Perform(l.world.files, limits.maxFileSize, op, f)
      case Failed(_) => l
      case Done(_, entry) => Log(Apply(l.world, limits, op, f), l.stack + [Frame(entry, l.world.files)]))
    case Rollback(count, faults) =>
      var w := Undo(l.world, count, faults).world;
      var undone := |l.world.entries| - |w.entries|;
      Log(w, if 0 <= undone <= |l.stack| then l.stack[..|l.stack| - undone] else l.stack)
  }

  function Run(l: Log, limits: Limits, events: seq<Event>): Log
    decreases events
  {
    if events == [] then l else Run(Step(l, limits, events[0]), limits, events[1..])
  }

  /** `entry` describes the step from `before` to `after`. */
  ghost predicate Describes(entry: Entry, before: Files, after: Files) {
    match entry
    case Created(path, content) => after == before[path := content]
    case Edited(path, old_, new_) => path in before && before[path] == old_ && after == before[path := new_]
    case Deleted(path, content) => path in before && before[path] == content && after == before - {path}
  }

  /** The create of this frame did not overwrite a file. */
  predicate Fresh(frame: Frame) {
    frame.entry.Created? ==> frame.entry.path !in frame.before
  }

  /** Performing the operations of `stack` one after the other leads from `base` to `files`. */
  ghost predicate Chain(stack: seq<Frame>, base: Files, files: Files) {
    if stack == [] then files == base else
    var top := stack[|stack| - 1];
    Describes(top.entry, top.before, files) && Chain(stack[..|stack| - 1], base, top.before)
  }

  function Max(a: nat, b: nat): nat { if a < b then b else a }

  function Min(a: nat, b: nat): nat { if a < b then a else b }

  /** The retained entries are the newest ones of the stack, and the stack explains the files. */
  ghost predicate Linked(l: Log, base: Files, capacity: nat) {
    var n, m := |l.world.entries|, |l.stack|;
    && n <= m
    && n <= Max(capacity, 1)
    && (forall i | 0 <= i < n :: l.world.entries[i] == l.stack[m - n + i].entry)
    && Chain(l.stack, base, l.world.files)
  }

  /** The files as they were `k` operations ago. */
  function Snapshot(l: Log, k: nat): Files
    requires k <= |l.stack|
  {
    if k == 0 then l.world.files else l.stack[|l.stack| - k].before
  }

  /** The newest `count` frames, as far as the history can still undo them, are fresh. */
  predicate FreshTop(l: Log, count: nat) {
    forall i | 0 <= i < |l.stack| && |l.stack| - count <= i && |l.stack| - |l.world.entries| <= i :: Fresh(l.stack[i])
  }

  /** Every frame that the history can still undo is fresh. */
  predicate Undoable(l: Log) {
    FreshTop(l, |l.world.entries|)
  }

  /** The event is a create that succeeds on a path where a file exists. */
  predicate Overwrites(l: Log, limits: Limits, event: Event) {
    && event.Do? && event.op.DoCreate? && event.op.path in l.world.files
    && Perform(l.world.files, limits.maxFileSize, event.op, event.f).Done?
  }

  predicate NeverOverwrites(l: Log, limits: Limits, events: seq<Event>)
    decreases events
  {
    events != [] ==>
      !Overwrites(l, limits, events[0]) && NeverOverwrites(Step(l, limits, events[0]), limits, events[1..])
  }

  lemma PerformDescribes(files: Files, maxSize: nat, op: Op, f: Faults)
    requires Perform(files, maxSize, op, f).Done?
    ensures var done := Perform(files, maxSize, op, f);
            && Describes(done.entry, files, done.files)
            && (done.entry.Created? ==> op == DoCreate(done.entry.path, done.entry.content))
  {
  }

  /** The exact conditions under which a tracked operation succeeds; otherwise it changes nothing. */
  lemma PerformSucceedsIff(files: Files, maxSize: nat, op: Op, f: Faults)
    ensures Perform(files, maxSize, op, f).Done? <==>
            && !f.writeDenied && !f.writeFails
            && (!op.DoCreate? ==> !f.readDenied && !f.readFails && op.path in files && |files[op.path]| <= maxSize)
            && (op.DoCreate? || op.DoWrite? ==> |op.content| <= maxSize)
            && (op.DoEdit? ==>
                  && !f.rereadFails
                  && (exists i :: OccursAt(files[op.path], op.oldText, i))
                  && |files[op.path]| - |op.oldText| + |op.newText| <= maxSize)
  {
    if op.DoEdit? && op.path in files {
      var text := files[op.path];
      var at := FindFrom(text, op.oldText, 0);
      assert at.Some? <==> exists i :: OccursAt(text, op.oldText, i);
    }
  }

  /** Recording keeps the newest entries, at most max(capacity, 1) of them, and drops one only when full. */
  lemma RecordKeepsNewest(entries: seq<Entry>, entry: Entry, capacity: nat)
    requires |entries| <= Max(capacity, 1)
    ensures var all, kept := entries + [entry], Record(entries, entry, capacity);
            |kept| == Min(|all|, Max(capacity, 1)) && kept == all[|all| - |kept|..]
  {
  }

  /** Undoing a described step gives back the files exactly when no file was overwritten by a create. */
  lemma UndoOneIffFresh(frame: Frame, after: Files)
    requires Describes(frame.entry, frame.before, after)
    ensures ApplyUndo(after, frame.entry, false) == Some(frame.before) <==> Fresh(frame)
  {
    match frame.entry
    case Created(path, content) =>
      assert (after - {path} == frame.before) <==> path !in frame.before;
    case Edited(path, before, _) =>
      assert after[path := before] == frame.before;
    case Deleted(path, content) =>
      assert after[path := content] == frame.before;
  }

  /** A tracked operation keeps the link, whatever it does and whether or not it succeeds. */
  lemma DoKeepsLinked(l: Log, base: Files, limits: Limits, op: Op, f: Faults)
    requires Linked(l, base, limits.capacity)
    ensures Linked(Step(l, limits, Do(op, f)), base, limits.capacity)
    ensures Undoable(l) ==> (Undoable(Step(l, limits, Do(op, f))) <==> !Overwrites(l, limits, Do(op, f)))
  {
    if Perform(l.world.files, limits.maxFileSize, op, f).Done? {
      PerformDescribes(l.world.files, limits.maxFileSize, op, f);
      var l' := Step(l, limits, Do(op, f));
      assert l'.stack[..|l'.stack| - 1] == l.stack;
      assert Fresh(l'.stack[|l.stack|]) <==> !Overwrites(l, limits, Do(op, f));
    }
  }

  /** One successful undo step moves the log one frame down. */
  function Pop(l: Log): Log
    requires l.world.entries != [] && l.stack != []
  {
    var top := l.stack[|l.stack| - 1];
    Log(World(top.before, l.world.entries[..|l.world.entries| - 1]), l.stack[..|l.stack| - 1])
  }

  lemma PopKeepsLinked(l: Log, base: Files, capacity: nat)
    requires Linked(l, base, capacity) && l.world.entries != [] && Fresh(l.stack[|l.stack| - 1])
    ensures Linked(Pop(l), base, capacity)
    ensures Undoable(l) ==> Undoable(Pop(l))
    ensures ApplyUndo(l.world.files, Top(l.world), false) == Some(Pop(l).world.files)
    ensures Pop(l).world == Below(l.world, Pop(l).world.files)
  {
    UndoOneIffFresh(l.stack[|l.stack| - 1], l.world.files);
  }

  lemma PopKeepsFreshTop(l: Log, count: nat)
    requires 0 < count && |l.world.entries| <= |l.stack| && l.world.entries != [] && FreshTop(l, count)
    ensures Fresh(l.stack[|l.stack| - 1]) && FreshTop(Pop(l), count - 1)
  {
  }

  lemma FaultlessStep(w: World, count: nat, files: Files)
    requires 0 < count && w.entries != [] && ApplyUndo(w.files, Top(w), false) == Some(files)
    ensures Undo(w, count, []).world == Undo(Below(w, files), count - 1, []).world
  {
  }

  /** The log that an undo attempt sequence from `l` ends in, `undone` frames further down. */
  function Down(l: Log, undone: nat): Log
    requires undone <= |l.world.entries| && undone <= |l.stack|
  {
    Log(World(Snapshot(l, undone), l.world.entries[..|l.world.entries| - undone]), l.stack[..|l.stack| - undone])
  }

  lemma DownPop(l: Log, undone: nat)
    requires l.world.entries != [] && l.stack != []
    requires undone < |l.world.entries| && undone < |l.stack|
    ensures Down(Pop(l), undone) == Down(l, undone + 1)
  {
    var p := Pop(l);
    assert p.world.entries[..|p.world.entries| - undone] == l.world.entries[..|p.world.entries| - undone];
    assert p.stack[..|p.stack| - undone] == l.stack[..|p.stack| - undone];
  }

  predicate Quiet(faults: seq<bool>) {
    forall i | 0 <= i < |faults| :: !faults[i]
  }

  lemma PoppedUndo(w: World, files: Files, count: nat, faults: seq<bool>)
    requires 0 < count && w.entries != [] && !NextFails(faults) && ApplyUndo(w.files, Top(w), false) == Some(files)
    ensures var undo, rest := Undo(w, count, faults), Undo(Below(w, files), count - 1, Rest(faults));
            undo.world == rest.world && |undo.results| == |rest.results| + 1
    ensures Quiet(faults) ==> Quiet(Rest(faults))
  {
  }

  /** Undo has moved the log `undone` frames down, where it is as sound as it was. */
  ghost predicate Reaches(l: Log, base: Files, capacity: nat, undo: Undone, undone: nat) {
    && undone <= |l.world.entries| && undone <= |l.stack|
    && undo.world == Down(l, undone).world
    && Linked(Down(l, undone), base, capacity)
    && (Undoable(l) ==> Undoable(Down(l, undone)))
  }

  lemma ReachesThroughPop(l: Log, base: Files, capacity: nat, undo: Undone, rest: Undone, undone: nat)
    requires Linked(l, base, capacity) && l.world.entries != [] && Fresh(l.stack[|l.stack| - 1])
    requires Reaches(Pop(l), base, capacity, rest, undone) && undo.world == rest.world
    ensures Reaches(l, base, capacity, undo, undone + 1)
  {
    PopKeepsLinked(l, base, capacity);
    DownPop(l, undone);
  }

  lemma NothingReached(l: Log, base: Files, capacity: nat)
    requires Linked(l, base, capacity)
    ensures Reaches(l, base, capacity, Undone(l.world, []), 0)
  {
    assert Down(l, 0) == l;
  }

  lemma UndoStops(w: World, count: nat, faults: seq<bool>)
    requires count == 0 || w.entries == [] || NextFails(faults)
    ensures Undo(w, count, faults).world == w
  {
  }

  lemma ReachesOneMore(l: Log, base: Files, capacity: nat, count: nat, faults: seq<bool>, undone: nat)
    requires Linked(l, base, capacity) && FreshTop(l, count)
    requires 0 < count && l.world.entries != [] && !NextFails(faults)
    requires Reaches(Pop(l), base, capacity, Undo(Pop(l).world, count - 1, Rest(faults)), undone)
    ensures Reaches(l, base, capacity, Undo(l.world, count, faults), undone + 1)
  {
    PopKeepsLinked(l, base, capacity);
    var p := Pop(l);
    PoppedUndo(l.world, p.world.files, count, faults);
    ReachesThroughPop(l, base, capacity, Undo(l.world, count, faults), Undo(p.world, count - 1, Rest(faults)), undone);
  }

  lemma {:induction false} UndoMovesDown(l: Log, base: Files, capacity: nat, count: nat, faults: seq<bool>)
    returns (undone: nat)
    requires Linked(l, base, capacity) && FreshTop(l, count)
    ensures undone <= count && Reaches(l, base, capacity, Undo(l.world, count, faults), undone)
    decreases count
  {
    if count == 0 || l.world.entries == [] || NextFails(faults) {
      undone := 0;
      UndoStops(l.world, count, faults);
      NothingReached(l, base, capacity);
    } else {
      PopKeepsFreshTop(l, count);
      PopKeepsLinked(l, base, capacity);
      undone := UndoMovesDown(Pop(l), base, capacity, count - 1, Rest(faults));
      ReachesOneMore(l, base, capacity, count, faults, undone);
      undone := undone + 1;
    }
  }

  lemma {:induction false} QuietUndoFinishes(l: Log, base: Files, capacity: nat, count: nat, faults: seq<bool>)
    requires Linked(l, base, capacity) && FreshTop(l, count) && Quiet(faults)
    ensures var undo, n := Undo(l.world, count, faults), |l.world.entries|;
            |undo.results| == Min(count, n) && |undo.world.entries| == n - Min(count, n)
    decreases count
  {
    if count > 0 && l.world.entries != [] {
      PopKeepsFreshTop(l, count);
      PopKeepsLinked(l, base, capacity);
      var p := Pop(l);
      assert |p.world.entries| == |l.world.entries| - 1;
      PoppedUndo(l.world, p.world.files, count, faults);
      QuietUndoFinishes(p, base, capacity, count - 1, Rest(faults));
    } else {
      assert Undo(l.world, count, faults) == Undone(l.world, []);
    }
  }

  /** Undo stops early only for an I/O fault, and always leaves the log at an earlier snapshot. */
  lemma UndoReachesSnapshot(l: Log, base: Files, capacity: nat, count: nat, faults: seq<bool>) returns (undone: nat)
    requires Linked(l, base, capacity) && FreshTop(l, count)
    ensures undone <= count && Reaches(l, base, capacity, Undo(l.world, count, faults), undone)
    ensures Quiet(faults) ==>
              undone == Min(count, |l.world.entries|) == |Undo(l.world, count, faults).results|
  {
    undone := UndoMovesDown(l, base, capacity, count, faults);
    if Quiet(faults) {
      QuietUndoFinishes(l, base, capacity, count, faults);
    }
  }

  lemma RollbackKeepsLinked(l: Log, base: Files, limits: Limits, count: nat, faults: seq<bool>)
    requires Linked(l, base, limits.capacity) && FreshTop(l, count)
    ensures var l' := Step(l, limits, Rollback(count, faults));
            Linked(l', base, limits.capacity) && (Undoable(l) ==> Undoable(l'))
  {
    var undone := UndoReachesSnapshot(l, base, limits.capacity, count, faults);
    assert Step(l, limits, Rollback(count, faults)) == Down(l, undone);
  }

  lemma {:induction false} RunKeepsLinked(l: Log, base: Files, limits: Limits, events: seq<Event>)
    requires Linked(l, base, limits.capacity) && Undoable(l) && NeverOverwrites(l, limits, events)
    ensures var l' := Run(l, limits, events);
            Linked(l', base, limits.capacity) && Undoable(l')
    decreases |events|
  {
    if events != [] {
      match events[0] {
        case Do(op, f) => DoKeepsLinked(l, base, limits, op, f);
        case Rollback(count, faults) => RollbackKeepsLinked(l, base, limits, count, faults);
      }
      RunKeepsLinked(Step(l, limits, events[0]), base, limits, events[1..]);
    }
  }

  /** Undo is an inverse over whole runs. After any interleaving of operations, undos, evictions and
      failures in which no create overwrote a file, the entries are a bounded suffix of the
      operation stack, the stack leads from the initial files to the current ones, and undoing `k`
      operations gives back exactly the files of min(k, length) operations ago. */
  lemma UndoIsInverse(files: Files, limits: Limits, events: seq<Event>, k: nat)
    requires NeverOverwrites(Log(World(files, []), []), limits, events)
    ensures var l := Run(Log(World(files, []), []), limits, events);
            var undone := Min(k, |l.world.entries|);
            && Linked(l, files, limits.capacity)
            && Undo(l.world, k, []).world == Down(l, undone).world
            && |Undo(l.world, k, []).results| == undone
  {
    var start := Log(World(files, []), []);
    RunKeepsLinked(start, files, limits, events);
    var undone := UndoReachesSnapshot(Run(start, limits, events), files, limits.capacity, k, []);
  }

  /** Every undo depth restores the snapshot of that many operations ago. */
  ghost predicate ExactUndo(l: Log) {
    && |l.world.entries| <= |l.stack|
    && forall k: nat | k <= |l.world.entries| :: Undo(l.world, k, []).world.files == Snapshot(l, k)
  }

  /** That is so if and only if none of the retained operations was a create over an existing file. */
  lemma UndoExactIffFresh(l: Log, base: Files, capacity: nat)
    requires Linked(l, base, capacity)
    ensures ExactUndo(l) <==> Undoable(l)
  {
    if Undoable(l) {
      forall k: nat | k <= |l.world.entries|
        ensures Undo(l.world, k, []).world.files == Snapshot(l, k)
      {
        var undone := UndoReachesSnapshot(l, base, capacity, k, []);
      }
    } else {
      var k := OverwriteIsNotRestored(l, base, capacity);
    }
  }

  ghost predicate AlwaysExact(l: Log, limits: Limits, events: seq<Event>)
    decreases events
  {
    ExactUndo(l) && (events != [] ==> AlwaysExact(Step(l, limits, events[0]), limits, events[1..]))
  }

  lemma StepExactIff(l: Log, base: Files, limits: Limits, event: Event)
    requires Linked(l, base, limits.capacity) && Undoable(l)
    ensures var l' := Step(l, limits, event);
            && Linked(l', base, limits.capacity)
            && (Undoable(l') <==> !Overwrites(l, limits, event))
            && (ExactUndo(l') <==> !Overwrites(l, limits, event))
  {
    match event {
      case Do(op, f) => DoKeepsLinked(l, base, limits, op, f);
      case Rollback(count, faults) => RollbackKeepsLinked(l, base, limits, count, faults);
    }
    UndoExactIffFresh(Step(l, limits, event), base, limits.capacity);
  }

  /** The condition of `UndoIsInverse` is exact. Over every run of operations, undos, evictions and
      failures, undo is exact at every point if and only if no create of the run overwrites a file. */
  lemma {:induction false} ExactIffNeverOverwrites(l: Log, base: Files, limits: Limits, events: seq<Event>)
    requires Linked(l, base, limits.capacity) && Undoable(l)
    ensures AlwaysExact(l, limits, events) <==> NeverOverwrites(l, limits, events)
    decreases |events|
  {
    UndoExactIffFresh(l, base, limits.capacity);
    if events != [] {
      StepExactIff(l, base, limits, events[0]);
      var next := Step(l, limits, events[0]);
      if Overwrites(l, limits, events[0]) {
        assert !AlwaysExact(next, limits, events[1..]);
      } else {
        ExactIffNeverOverwrites(next, base, limits, events[1..]);
      }
    }
  }

  /** No undo of the run reaches an overwriting create. */
  predicate UndoesOnlyFresh(l: Log, limits: Limits, events: seq<Event>)
    decreases events
  {
    events != [] ==>
      && (events[0].Rollback? ==> FreshTop(l, events[0].count))
      && UndoesOnlyFresh(Step(l, limits, events[0]), limits, events[1..])
  }

  /** An overwrite does harm only as long as it can be undone: in runs whose undos stay above the
      overwriting creates, undo is exact at the end if and only if no create that is still retained
      overwrote a file. In particular this holds for all runs without undos. */
  lemma {:induction false} OperationsAreUndoneIffFresh(l: Log, base: Files, limits: Limits, events: seq<Event>)
    requires Linked(l, base, limits.capacity) && UndoesOnlyFresh(l, limits, events)
    ensures var l' := Run(l, limits, events);
            Linked(l', base, limits.capacity) && (ExactUndo(l') <==> Undoable(l'))
    decreases |events|
  {
    if events == [] {
      UndoExactIffFresh(l, base, limits.capacity);
    } else {
      match events[0] {
        case Do(op, f) => DoKeepsLinked(l, base, limits, op, f);
        case Rollback(count, faults) => RollbackKeepsLinked(l, base, limits, count, faults);
      }
      OperationsAreUndoneIffFresh(Step(l, limits, events[0]), base, limits, events[1..]);
    }
  }

  lemma OverwriteIsNotUndone(l: Log, base: Files, capacity: nat)
    requires Linked(l, base, capacity) && l.world.entries != [] && !Fresh(l.stack[|l.stack| - 1])
    ensures Undo(l.world, 1, []).world.files != Snapshot(l, 1)
  {
    var top := l.stack[|l.stack| - 1];
    assert Top(l.world) == top.entry;
    assert top.entry.path in top.before;
    var rest := Below(l.world, l.world.files - {top.entry.path});
    assert Undo(l.world, 1, []).world == Undo(rest, 0, []).world;
  }

  /** The newest overwriting create is a depth at which undo goes wrong. */
  lemma {:induction false} OverwriteIsNotRestored(l: Log, base: Files, capacity: nat) returns (k: nat)
    requires Linked(l, base, capacity) && !Undoable(l)
    ensures 0 < k <= |l.world.entries| && Undo(l.world, k, []).world.files != Snapshot(l, k)
    decreases |l.world.entries|
  {
    var m := |l.stack|;
    if Fresh(l.stack[m - 1]) {
      PopKeepsLinked(l, base, capacity);
      var p := Pop(l);
      k := OverwriteIsNotRestored(p, base, capacity);
      FaultlessStep(l.world, k + 1, p.world.files);
      assert Snapshot(p, k) == Snapshot(l, k + 1);
      k := k + 1;
    } else {
      OverwriteIsNotUndone(l, base, capacity);
      k := 1;
    }
  }

  /** A concrete overwrite: the file that the create replaced is lost. */
  lemma OverwrittenFileIsLost()
    ensures var limits := Limits(10, 5);
            var none := Faults(false, false, false, false, false);
            var before := map["a" := "old"];
            var w := Apply(World(before, []), limits, DoCreate("a", "new"), none);
            Undo(w, 1, []).world.files == map[] != before
  {
    var before: Files := map["a" := "old"];
    var after: Files := map["a" := "new"];
    assert before["a" := "new"] == after;
    assert after - {"a"} == map[];
    assert "a" in before;
  }

  predicate AllOk(results: seq<UndoResult>) {
    forall i | 0 <= i < |results| :: results[i].ok
  }

  /** No fault in the first `n` attempts, then `faults`. */
  function Delay(n: nat, faults: seq<bool>): seq<bool> {
    seq(n, _ => false) + faults
  }

  lemma DelayPasses(n: nat, faults: seq<bool>)
    requires 0 < n
    ensures !NextFails(Delay(n, faults)) && Rest(Delay(n, faults)) == Delay(n - 1, faults)
  {
  }

  lemma FirstUndoOk(w: World, a: nat) returns (w': World)
    requires 0 < a && w.entries != [] && AllOk(Undo(w, a, []).results)
    ensures ApplyUndo(w.files, Top(w), false).Some?
    ensures w' == Below(w, ApplyUndo(w.files, Top(w), false).value)
    ensures AllOk(Undo(w', a - 1, []).results)
    ensures Continues(Undo(w, a, []), [UndoResult(Top(w), true)], Undo(w', a - 1, []))
  {
    var results := Undo(w, a, []).results;
    assert results[0].ok;
    w' := Below(w, ApplyUndo(w.files, Top(w), false).value);
    var rest := Undo(w', a - 1, []).results;
    assert forall i | 0 <= i < |rest| :: rest[i] == results[i + 1];
  }

  /** Undoing `a` and then `b` operations is undoing `a + b`, for any failures in the second part. */
  lemma UndoComposes(w: World, a: nat, b: nat, faults: seq<bool>)
    requires AllOk(Undo(w, a, []).results)
    ensures var first := Undo(w, a, []);
            Continues(Undo(w, a + b, Delay(a, faults)), first.results, Undo(first.world, b, faults))
  {
    var undo := Undo(w, a + b, Delay(a, faults));
    assert Continues(undo, [], undo);
    UndoSplits(undo, [], w, a, b, faults);
    assert [] + Undo(w, a, []).results == Undo(w, a, []).results;
  }

  lemma ContinuesThrough(
    undo: Undone, done: seq<UndoResult>, ok: seq<UndoResult>, first: Undone, first': Undone, second: Undone)
    requires Continues(first, ok, first') && Continues(undo, (done + ok) + first'.results, second)
    ensures Continues(undo, done + first.results, second)
  {
    assert done + (ok + first'.results) == (done + ok) + first'.results;
  }

  lemma {:induction false} UndoSplits(undo: Undone, done: seq<UndoResult>, w: World, a: nat, b: nat, faults: seq<bool>)
    requires AllOk(Undo(w, a, []).results)
    requires Continues(undo, done, Undo(w, a + b, Delay(a, faults)))
    ensures Continues(undo, done + Undo(w, a, []).results, Undo(Undo(w, a, []).world, b, faults))
    decreases a
  {
    if a == 0 {
      assert Delay(a, faults) == faults;
      assert done + [] == done;
    } else if w.entries == [] {
      assert done + [] == done;
    } else {
      var w' := FirstUndoOk(w, a);
      DelayPasses(a, faults);
      UndoContinues(undo, done, w, a + b, Delay(a, faults));
      var ok := [UndoResult(Top(w), true)];
      UndoSplits(undo, done + ok, w', a - 1, b, faults);
      var first, first' := Undo(w, a, []), Undo(w', a - 1, []);
      ContinuesThrough(undo, done, ok, first, first', Undo(first.world, b, faults));
    }
  }

  /** `results` are `done` successes on the newest entries, possibly followed by one failure. */
  predicate Reports(entries: seq<Entry>, results: seq<UndoResult>, done: nat) {
    && done <= |results| <= done + 1
    && |results| <= |entries|
    && forall i | 0 <= i < |results| :: results[i] == UndoResult(entries[|entries| - 1 - i], i < done)
  }

  /** How an undo of `count` entries of `w` ends after `done` successes: the failed entry, if any, is
      on top, and undoing the remaining count ends where an uninterrupted undo would have ended. */
  ghost predicate Resumable(w: World, count: nat, undo: Undone, done: nat) {
    && done <= Min(count, |w.entries|)
    && undo.world.entries == w.entries[..|w.entries| - done]
    && Reports(w.entries, undo.results, done)
    && (|undo.results| == done ==> done == Min(count, |w.entries|))
    && Undo(undo.world, count - done, []).world == Undo(w, count, []).world
  }

  /** An undo cut short by a failure reports its successes and then that failure, and can be resumed. */
  lemma {:induction false} UndoResumes(w: World, count: nat, faults: seq<bool>) returns (done: nat)
    ensures Resumable(w, count, Undo(w, count, faults), done)
    decreases count
  {
    if count == 0 || w.entries == [] || ApplyUndo(w.files, Top(w), NextFails(faults)).None? {
      done := 0;
      NothingUndone(w, count, faults);
    } else {
      var files := ApplyUndo(w.files, Top(w), NextFails(faults)).value;
      done := UndoResumes(Below(w, files), count - 1, Rest(faults));
      UndoContinues(Undo(w, count, faults), [], w, count, faults);
      ResumableOneMore(w, count, files, Undo(w, count, faults), Undo(Below(w, files), count - 1, Rest(faults)), done);
      done := done + 1;
    }
  }

  lemma NothingUndone(w: World, count: nat, faults: seq<bool>)
    requires count == 0 || w.entries == [] || ApplyUndo(w.files, Top(w), NextFails(faults)).None?
    ensures Resumable(w, count, Undo(w, count, faults), 0)
  {
  }

  lemma ResumableOneMore(w: World, count: nat, files: Files, undo: Undone, rest: Undone, done: nat)
    requires 0 < count && w.entries != [] && ApplyUndo(w.files, Top(w), false) == Some(files)
    requires Continues(undo, [UndoResult(Top(w), true)], rest)
    requires Resumable(Below(w, files), count - 1, rest, done)
    ensures Resumable(w, count, undo, done + 1)
  {
    var w' := Below(w, files);
    ReportsOneMore(w, files, rest.results, done);
    assert w'.entries[..|w'.entries| - done] == w.entries[..|w'.entries| - done];
    FaultlessStep(w, count, files);
  }

  lemma ReportsOneMore(w: World, files: Files, results: seq<UndoResult>, done: nat)
    requires w.entries != [] && Reports(Below(w, files).entries, results, done)
    ensures Reports(w.entries, [UndoResult(Top(w), true)] + results, done + 1)
  {
  }

  /** Every file is within the limit, and so is every content that an undo would write back. */
  ghost predicate WithinLimit(w: World, maxSize: nat) {
    && (forall p | p in w.files :: |w.files[p]| <= maxSize)
    && (forall e | e in w.entries ::
          (e.Edited? ==> |e.before| <= maxSize) && (e.Deleted? ==> |e.content| <= maxSize))
  }

  lemma {:induction false} UndoKeepsLimit(w: World, maxSize: nat, count: nat, faults: seq<bool>)
    requires WithinLimit(w, maxSize)
    ensures WithinLimit(Undo(w, count, faults).world, maxSize)
    decreases count
  {
    if count != 0 && w.entries != [] {
      var last := |w.entries| - 1;
      var attempt := ApplyUndo(w.files, w.entries[last], NextFails(faults));
      if attempt.Some? {
        UndoKeepsLimit(Below(w, attempt.value), maxSize, count - 1, Rest(faults));
      }
    }
  }

  /** The size limit is an invariant of every run, overwriting creates and failures included. */
  lemma {:induction false} RunKeepsLimit(l: Log, limits: Limits, events: seq<Event>)
    requires WithinLimit(l.world, limits.maxFileSize)
    ensures WithinLimit(Run(l, limits, events).world, limits.maxFileSize)
    decreases |events|
  {
    if events != [] {
      if events[0].Rollback? {
        UndoKeepsLimit(l.world, limits.maxFileSize, events[0].count, events[0].faults);
      }
      RunKeepsLimit(Step(l, limits, events[0]), limits, events[1..]);
    }
  }
}
