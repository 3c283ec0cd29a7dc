/** What becomes of the entries and of the size limit on disk. */
module LoggerDisk {
  import opened Common
  import opened StructuredLogger
  import opened LoggerProperties

  ghost predicate OnDisk(disk: map<Path, File>, e: Entry) {
    exists p :: p in disk && e in disk[p].lines
  }

  /** Every entry that was ever written is still in some file. */
  ghost predicate Preserved(s: State) {
    forall e | e in s.written :: OnDisk(s.disk, e)
  }

  /** Files hold only written entries, and no two files hold the same one. */
  ghost predicate FilesOk(s: State) {
    && (forall p, e | p in s.disk && e in s.disk[p].lines :: e in s.written)
    && (forall p, q, e | p in s.disk && q in s.disk && e in s.disk[p].lines && e in s.disk[q].lines :: p == q)
  }

  /** Waiting entries are not written yet, and they are all different. */
  ghost predicate Apart(s: State) {
    Increasing(s.ring) && forall e | e in s.ring :: e !in s.written
  }

  /** `t` holds the files of `s` in good order, and has lost an entry exactly if `s` has. */
  ghost predicate AsPreserved(s: State, t: State) {
    FilesOk(t) && (Preserved(t) <==> Preserved(s))
  }

  lemma OnDiskAfterAppend(s: State, e: Entry, x: Entry)
    requires s.file.Some? && s.file.value in s.disk
    ensures OnDisk(Append(s, e).disk, x) <==> OnDisk(s.disk, x) || x == e
  {
    var t, f := Append(s, e), s.file.value;
    assert t.disk[f].lines == s.disk[f].lines + [e];
    if p :| p in s.disk && x in s.disk[p].lines {
      assert p in t.disk && x in t.disk[p].lines;
    }
  }

  lemma AppendPreserves(s: State, e: Entry)
    requires s.file.Some? && s.file.value in s.disk && FilesOk(s) && e !in s.written
    ensures AsPreserved(s, Append(s, e))
  {
    var t, f := Append(s, e), s.file.value;
    assert t.disk[f].lines == s.disk[f].lines + [e];
    forall x | x in t.written
      ensures OnDisk(t.disk, x) <==> OnDisk(s.disk, x) || x == e
    {
      OnDiskAfterAppend(s, e, x);
    }
    assert forall x | x in s.written :: x in t.written;
  }

  lemma OpenPreserves(s: State, path: Path)
    requires FilesOk(s)
    ensures AsPreserved(s, OpenLog(s, path))
  {
    var t := OpenLog(s, path);
    forall x ensures OnDisk(t.disk, x) <==> OnDisk(s.disk, x) {
      if p :| p in s.disk && x in s.disk[p].lines {
        assert p in t.disk && x in t.disk[p].lines;
      }
      if p :| p in t.disk && x in t.disk[p].lines {
        assert p in s.disk && x in s.disk[p].lines;
      }
    }
  }

  lemma {:induction false} FlushPreserves(s: State, faults: seq<bool>)
    requires FilesOk(s) && FileTracked(s) && Apart(s)
    ensures AsPreserved(s, Flush(s, faults))
    decreases |s.ring|
  {
    if s.ring != [] && s.file.Some? && !(faults != [] && faults[0]) {
      var popped := s.(ring := s.ring[1..]);
      var next := Append(popped, s.ring[0]);
      AppendPreserves(popped, s.ring[0]);
      AppendKeepsTracked(popped, s.ring[0]);
      assert Apart(next);
      FlushPreserves(next, if faults == [] then [] else faults[1..]);
    }
  }

  /** The rotated name belongs to another file, and that file holds entries of this logger. */
  predicate RenamesOver(s: State, io: Io) {
    && s.path.Some? && io.rename.Some?
    && var to := io.rename.value;
       to != s.path.value && to in s.disk && s.disk[to].lines != []
  }

  lemma RenamePreservesIff(s: State, io: Io)
    requires FilesOk(s) && Preserved(s) && s.path.Some? && s.path.value in s.disk && io.rename.Some?
    ensures var t := s.(disk := Renamed(s.disk, s.path.value, io.rename.value));
            FilesOk(t) && (Preserved(t) <==> !RenamesOver(s, io))
  {
    var from, to := s.path.value, io.rename.value;
    var disk := Renamed(s.disk, from, to);
    assert disk[to] == s.disk[from];
    if RenamesOver(s, io) {
      var e := s.disk[to].lines[0];
      assert e in s.disk[to].lines && e in s.written;
      assert !OnDisk(disk, e);
    } else {
      forall e | e in s.written ensures OnDisk(disk, e) {
        var p :| p in s.disk && e in s.disk[p].lines;
        var q := if p == from then to else p;
        assert q in disk && e in disk[q].lines;
      }
    }
  }

  lemma RotatePreservesIff(s: State, io: Io)
    requires FilesOk(s) && Preserved(s) && FileTracked(s) && s.file.Some?
    ensures FilesOk(Rotate(s, io)) && (Preserved(Rotate(s, io)) <==> !RenamesOver(s, io))
  {
    if io.rename.Some? {
      RenamePreservesIff(s, io);
      var renamed := s.(file := None, disk := Renamed(s.disk, s.path.value, io.rename.value));
      if io.open.Some? {
        OpenPreserves(renamed, io.open.value);
      }
    }
  }

  /** The call rotates the log file onto a file that holds entries. */
  predicate Clobbers(s: State, c: Config, e: Entry, io: Io) {
    s.file.Some? && NeedsRotation(s.size, c, e) && RenamesOver(s, io)
  }

  lemma ReadyPreservesIff(s: State, c: Config, e: Entry, io: Io)
    requires FilesOk(s) && Preserved(s) && FileTracked(s) && s.file.Some?
    ensures var ready := Ready(s, c, e, io);
            && FilesOk(ready) && FileTracked(ready)
            && ready.ring == s.ring && ready.written == s.written
            && (Preserved(ready) <==> !Clobbers(s, c, e, io))
  {
    if NeedsRotation(s.size, c, e) {
      RotatePreservesIff(s, io);
    }
  }

  lemma DirectPreserves(ready: State, e: Entry, io: Io)
    requires FilesOk(ready) && FileTracked(ready) && Apart(ready) && ready.file.Some?
    requires e !in ready.written && e !in ready.ring
    ensures AsPreserved(ready, Flush(Append(ready, e), io.flush))
  {
    AppendPreserves(ready, e);
    AppendKeepsTracked(ready, e);
    FlushPreserves(Append(ready, e), io.flush);
  }

  lemma RecoverPreserves(s: State, io: Io)
    requires FilesOk(s) && FileTracked(s) && Apart(s)
    ensures AsPreserved(s, Flush(Recover(s, io), io.flush))
  {
    if io.open.Some? {
      OpenPreserves(s, io.open.value);
    }
    FlushPreserves(Recover(s, io), io.flush);
  }

  lemma ReopenPreserves(s: State, c: Config, e: Entry, io: Io)
    requires FilesOk(s) && FileTracked(s) && Apart(s) && s.file.None?
    requires e !in s.written && e !in s.ring
    ensures AsPreserved(s, WriteEntry(s, c, e, io))
  {
    RecoverPreserves(s, io);
    var n := FlushMovesPrefix(Recover(s, io), io.flush);
    var flushed := Flush(Recover(s, io), io.flush);
    if flushed.file.Some? && !io.writeFails {
      assert e !in flushed.written;
      AppendPreserves(flushed, e);
    }
  }

  lemma WritePreservesIff(s: State, c: Config, e: Entry, io: Io)
    requires FilesOk(s) && Preserved(s) && FileTracked(s) && Apart(s)
    requires e !in s.written && e !in s.ring
    ensures var t := WriteEntry(s, c, e, io);
            FilesOk(t) && (Preserved(t) <==> !Clobbers(s, c, e, io))
  {
    if s.file.None? {
      ReopenPreserves(s, c, e, io);
    } else {
      ReadyPreservesIff(s, c, e, io);
      if Direct(s, c, e, io) {
        DirectPreserves(Ready(s, c, e, io), e, io);
      }
    }
  }

  /** In a conserved log the places of entries do not overlap. */
  lemma ConservedIsApart(l: Log, c: Config)
    requires Conserved(l, c)
    ensures Apart(l.state)
    ensures forall e | e in l.state.ring || e in l.state.written :: e.serial < |l.emitted|
  {
    var s := l.state;
    forall e | e in s.ring || e in s.written ensures e.serial < |l.emitted| { HeldWasEmitted(l, c, e); }
    forall e | e in s.ring ensures e !in s.written {
      assert e in multiset(l.emitted);
      SerialsAreUnique(l.emitted, e);
      assert Held(s)[e] == 1;
    }
  }

  predicate ClobberingStep(l: Log, c: Config, event: Event) {
    event.Emit? && Clobbers(l.state, c, Entry(|l.emitted|, event.json), event.io)
  }

  lemma StepPreservesIff(l: Log, c: Config, event: Event)
    requires Conserved(l, c) && FilesOk(l.state) && Preserved(l.state)
    ensures var t := Step(l, c, event).state;
            FilesOk(t) && (Preserved(t) <==> !ClobberingStep(l, c, event))
  {
    ConservedIsApart(l, c);
    match event
    case Emit(json, io) => WritePreservesIff(l.state, c, Entry(|l.emitted|, json), io);
    case Force(io) =>
      if l.state.file.Some? {
        FlushPreserves(l.state, io.flush);
      } else {
        RecoverPreserves(l.state, io);
      }
  }

  predicate NeverClobbers(l: Log, c: Config, events: seq<Event>)
    decreases events
  {
    events != [] ==> !ClobberingStep(l, c, events[0]) && NeverClobbers(Step(l, c, events[0]), c, events[1..])
  }

  ghost predicate AlwaysPreserved(l: Log, c: Config, events: seq<Event>)
    decreases events
  {
    Preserved(l.state) && (events != [] ==> AlwaysPreserved(Step(l, c, events[0]), c, events[1..]))
  }

  /** Over every run and every pattern of failures, each entry that was written stays on disk if and
      only if no rotation of the run renames the log onto a file that holds entries. */
  lemma {:induction false} EntriesStayIffNoClobber(l: Log, c: Config, events: seq<Event>)
    requires c.Valid() && Conserved(l, c) && FilesOk(l.state) && Preserved(l.state)
    ensures AlwaysPreserved(l, c, events) <==> NeverClobbers(l, c, events)
    decreases |events|
  {
    if events != [] {
      StepPreservesIff(l, c, events[0]);
      StepConserves(l, c, events[0]);
      var next := Step(l, c, events[0]);
      if Preserved(next.state) {
        EntriesStayIffNoClobber(next, c, events[1..]);
      } else {
        assert !AlwaysPreserved(next, c, events[1..]);
      }
    }
  }

  /** A new logger, on a disk with any old files, starts out this way. */
  lemma StartIsPreserved(c: Config, disk: map<Path, File>, dirCreated: bool, open: Option<Path>)
    requires forall p | p in disk :: disk[p].lines == []
    ensures var l := Log(Start(disk, dirCreated, open), []);
            Conserved(l, c) && FilesOk(l.state) && Preserved(l.state)
  {
  }

  lemma RunThree(l: Log, c: Config, a: Event, b: Event, d: Event)
    ensures Run(l, c, [a, b, d]) == Step(Step(Step(l, c, a), c, b), c, d)
  {
    assert [a, b, d][1..] == [b, d] && [b, d][1..] == [d] && [d][1..] == [];
    var l1 := Step(l, c, a);
    var l2 := Step(l1, c, b);
    assert Run(l2, c, [d]) == Run(Step(l2, c, d), c, []);
    assert Run(l1, c, [b, d]) == Run(l2, c, [d]);
  }

  /** A logger with an open file, an empty buffer and nothing evicted. */
  function Open(size: nat, disk: map<Path, File>, written: seq<Entry>): State {
    State(Some("log"), Some("log"), size, [], true, disk, written, [])
  }

  lemma DirectStep(size: nat, file: File, disk: map<Path, File>, written: seq<Entry>, c: Config, e: Entry, io: Io)
    requires disk == map["log" := file] && !NeedsRotation(size, c, e) && !io.writeFails
    ensures WriteEntry(Open(size, disk, written), c, e, io) ==
            Open(size + LineLength(e), map["log" := WithLine(file, e)], written + [e])
  {
  }

  /** A rotation to "log.1", whatever that held, and a write to the new file. */
  lemma RotatingStep(size: nat, file: File, disk: map<Path, File>, written: seq<Entry>, c: Config, e: Entry, io: Io)
    requires disk.Keys <= {"log", "log.1"} && "log" in disk && disk["log"] == file
    requires NeedsRotation(size, c, e) && io == Io(Some("log.1"), Some("log"), false, [])
    ensures WriteEntry(Open(size, disk, written), c, e, io) ==
            Open(LineLength(e), map["log" := File(0, [e]), "log.1" := file], written + [e])
  {
    var s := Open(size, disk, written);
    var renamed := Renamed(disk, "log", "log.1");
    assert renamed == map["log.1" := file];
    var rotated := Rotate(s, io);
    assert rotated.disk == renamed["log" := File(0, [])];
    assert rotated.file == Some("log") && FileAt(rotated.disk, "log") == File(0, []);
    assert WithLine(File(0, []), e) == File(0, [e]);
    assert WriteEntry(s, c, e, io) == Append(rotated, e);
    assert rotated.disk["log" := File(0, [e])] == map["log" := File(0, [e]), "log.1" := file];
  }

  /** The log after an entry and a rotation. */
  lemma OneRotation(c: Config, io: Io, a: Entry, x: Entry)
    requires io == Io(Some("log.1"), Some("log"), false, []) && a.serial == 0 && x.serial == 1
    requires LineLength(a) <= Limit(c) && NeedsRotation(LineLength(a), c, x)
    ensures var l := Log(Start(map[], true, Some("log")), []);
            Step(Step(l, c, Emit(a.json, io)), c, Emit(x.json, io)) ==
            Log(Open(LineLength(x), map["log" := File(0, [x]), "log.1" := File(0, [a])], [a, x]), [a, x])
  {
    var l0 := Log(Start(map[], true, Some("log")), []);
    assert l0.state == Open(0, map["log" := File(0, [])], []);
    DirectStep(0, File(0, []), l0.state.disk, [], c, a, io);
    assert WithLine(File(0, []), a) == File(0, [a]) && [] + [a] == [a] && [a] + [x] == [a, x];
    RotatingStep(LineLength(a), File(0, [a]), map["log" := File(0, [a])], [a], c, x, io);
  }

  /** The condition is needed: two rotations within one millisecond take the same name, and the second
      one loses what the first one has put there. It is enough that the middle one of three lines
      fills the file. */
  lemma SameNameLosesEntry(c: Config, a: string, x: string, b: string)
    requires |a| < Limit(c) && |x| + 1 == Limit(c)
    ensures var io, first := Io(Some("log.1"), Some("log"), false, []), Entry(0, a);
            var l := Run(Log(Start(map[], true, Some("log")), []), c, [Emit(a, io), Emit(x, io), Emit(b, io)]);
            first in l.state.written && !OnDisk(l.state.disk, first)
  {
    var io := Io(Some("log.1"), Some("log"), false, []);
    var first, second, third := Entry(0, a), Entry(1, x), Entry(2, b);
    var disk := map["log" := File(0, [second]), "log.1" := File(0, [first])];
    OneRotation(c, io, first, second);
    RotatingStep(LineLength(second), File(0, [second]), disk, [first, second], c, third, io);
    RunThree(Log(Start(map[], true, Some("log")), []), c, Emit(a, io), Emit(x, io), Emit(b, io));
    assert first in [first, second] + [third];
  }

  // The size limit.

  lemma {:induction false} FlushAddsRing(s: State, faults: seq<bool>)
    requires s.file.Some? && Flush(s, faults).file.Some?
    ensures Flush(s, faults).size == s.size + Bytes(s.ring)
    decreases |s.ring|
  {
    if s.ring != [] {
      FlushAddsRing(Append(s.(ring := s.ring[1..]), s.ring[0]), if faults == [] then [] else faults[1..]);
    }
  }

  /** The length of the file that the call goes on with: the open one if there is room for the entry,
      otherwise the one it opens, after the rename if it rotates. */
  function StartSize(s: State, c: Config, e: Entry, io: Io): nat
    requires io.open.Some? || (s.file.Some? && !NeedsRotation(s.size, c, e))
  {
    if s.file.None? then Size(FileAt(s.disk, io.open.value))
    else if !NeedsRotation(s.size, c, e) then s.size
    else if s.path.Some? && io.rename.Some? then
      Size(FileAt(Renamed(s.disk, s.path.value, io.rename.value), io.open.value))
    else Size(FileAt(s.disk, io.open.value))
  }

  /** The bytes that the call adds: the whole buffer, and the entry unless its write fails. */
  function AddedBytes(s: State, e: Entry, io: Io): nat {
    Bytes(s.ring) + if io.writeFails then 0 else LineLength(e)
  }

  /** Neither a flush nor a write after a reopen checks the limit. If a file is open after the call, it
      is within the limit if and only if the file it started with has room for all that was added. */
  lemma WriteWithinLimitIff(s: State, c: Config, e: Entry, io: Io)
    requires WriteEntry(s, c, e, io).file.Some?
    ensures io.open.Some? || (s.file.Some? && !NeedsRotation(s.size, c, e))
    ensures WriteEntry(s, c, e, io).size <= Limit(c) <==> StartSize(s, c, e, io) + AddedBytes(s, e, io) <= Limit(c)
  {
    if s.file.Some? {
      FlushAddsRing(Append(Ready(s, c, e, io), e), io.flush);
    } else {
      FlushAddsRing(Recover(s, io), io.flush);
    }
  }

  /** So with an empty buffer and without rotation the limit holds. */
  lemma DrainedWriteWithinLimit(s: State, c: Config, e: Entry, io: Io)
    requires s.file.Some? && s.ring == [] && !NeedsRotation(s.size, c, e)
    ensures var t := WriteEntry(s, c, e, io);
            t.file.Some? ==> t.size <= Limit(c)
  {
    if WriteEntry(s, c, e, io).file.Some? {
      WriteWithinLimitIff(s, c, e, io);
    }
  }

  /** The limit can be exceeded: a line that fills the file waits in the buffer and is flushed before
      the next one is written. */
  lemma FlushIgnoresLimit()
    ensures var c := Config(1, 10);
            var line := seq(Limit(c) - 1, _ => 'x');
            var fail, work := Io(None, None, false, []), Io(None, Some("log"), false, []);
            var l := Run(Log(Start(map[], true, None), []), c, [Emit(line, fail), Emit("b", work)]);
            l.state.file.Some? && l.state.size > Limit(c)
  {
    var c := Config(1, 10);
    var line := seq(Limit(c) - 1, _ => 'x');
    var fail, work := Io(None, None, false, []), Io(None, Some("log"), false, []);
    var l0 := Log(Start(map[], true, None), []);
    var big := Entry(0, line);
    var l1 := Step(l0, c, Emit(line, fail));
    assert l1 == Log(State(None, None, 0, [big], true, map[], [], []), [big]);
    var reopened := Recover(l1.state, work);
    var flushed := Append(reopened.(ring := []), big);
    assert reopened.ring[1..] == [] && Flush(reopened, []) == Flush(flushed, []) == flushed;
    var l2 := Step(l1, c, Emit("b", work));
    assert l2.state == Append(flushed, Entry(1, "b"));
    assert [Emit(line, fail), Emit("b", work)][1..] == [Emit("b", work)] && [Emit("b", work)][1..] == [];
    assert Run(l1, c, [Emit("b", work)]) == Run(l2, c, []) == l2;
  }
}
