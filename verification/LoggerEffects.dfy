/** What the operations of the logger do to its files, byte for byte. */
module LoggerEffects {
  import opened Common
  import opened StructuredLogger
  import opened LoggerProperties

  /** The length of a file: what it had when the logger started, and the lines written since. */
  function Length(file: File): nat {
    file.base + Bytes(file.lines)
  }

  /** `after` has every file of `before` as it was, and at most the one at `path` in addition, empty. */
  predicate OpensOnly(before: map<Path, File>, path: Path, after: map<Path, File>) {
    && (forall p | p in before :: p in after && after[p] == before[p])
    && (forall p | p in after :: p in before || (p == path && after[p] == File(0, [])))
    && path in after
  }

  /** A new logger has its file open exactly if the directory exists and the file could be opened; it
      goes on behind what the file held, and changes no file. */
  lemma StartEffect(disk: map<Path, File>, dirCreated: bool, open: Option<Path>)
    ensures var s := Start(disk, dirCreated, open);
            && s.file == s.path == (if dirCreated then open else None)
            && s.available == dirCreated && s.ring == s.written == s.evicted == []
            && (s.file.None? ==> s.size == 0 && s.disk == disk)
            && (s.file.Some? ==>
                  && OpensOnly(disk, s.file.value, s.disk)
                  && s.size == (if s.file.value in disk then Length(disk[s.file.value]) else 0))
  {
  }

  /** A reopen does the same, and keeps the buffer. */
  lemma RecoverEffect(s: State, io: Io)
    ensures var t := Recover(s, io);
            && t.ring == s.ring && t.written == s.written && t.evicted == s.evicted
            && (io.open.None? ==> t == s)
            && (io.open.Some? ==>
                  && t.file == t.path == io.open && t.available
                  && OpensOnly(s.disk, io.open.value, t.disk)
                  && t.size == (if io.open.value in s.disk then Length(s.disk[io.open.value]) else 0))
  {
  }

  /** A rotation whose rename fails only closes the file; one whose reopen fails has renamed it. */
  lemma FailedRotation(s: State, io: Io, path: Path)
    requires FileTracked(s) && s.file.Some? && (io.rename.None? || io.open.None?)
    ensures var t := Rotate(s, io);
            && t.file.None? && t.path == s.path && t.available == s.available
            && t.ring == s.ring && t.written == s.written && t.evicted == s.evicted
            && (io.rename.None? ==> t.disk == s.disk)
            && (io.rename.Some? ==>
                  FileAt(t.disk, path) ==
                  if path == io.rename.value then s.disk[s.file.value]
                  else if path == s.file.value then File(0, []) else FileAt(s.disk, path))
  {
  }

  lemma AppendEffect(s: State, e: Entry)
    requires s.file.Some?
    ensures var t, f := Append(s, e), s.file.value;
            && t.size == s.size + |e.json| + 1 && t.written == s.written + [e] && t.ring == s.ring
            && f in t.disk && t.disk[f] == File(FileAt(s.disk, f).base, FileAt(s.disk, f).lines + [e])
            && forall p | p != f :: FileAt(t.disk, p) == FileAt(s.disk, p)
  {
  }

  /** No write fails before the n-th one, and that one does if there are more. */
  predicate FailsAt(faults: seq<bool>, n: nat, total: nat) {
    && n <= total
    && (forall i | 0 <= i < n && i < |faults| :: !faults[i])
    && (n < total ==> n < |faults| && faults[n])
  }

  /** `t` is `s` with the first `n` buffered entries at the end of the open file. */
  ghost predicate Moved(s: State, n: nat, t: State)
    requires s.file.Some? && n <= |s.ring|
  {
    var f := s.file.value;
    && t.written == s.written + s.ring[..n] && t.ring == s.ring[n..] && t.evicted == s.evicted
    && FileAt(t.disk, f) == File(FileAt(s.disk, f).base, FileAt(s.disk, f).lines + s.ring[..n])
    && (forall p | p != f :: FileAt(t.disk, p) == FileAt(s.disk, p))
    && if n == |s.ring| then t.file == s.file && t.available == s.available
       else t.file.None? && !t.available
  }

  lemma FailsLater(faults: seq<bool>, n: nat, total: nat)
    requires 0 < n && FailsAt(faults, n, total)
    ensures FailsAt(if faults == [] then [] else faults[1..], n - 1, total - 1)
  {
  }

  lemma MovedOneMore(s: State, next: State, n: nat, t: State)
    requires s.file.Some? && 0 < n <= |s.ring|
    requires next == Append(s.(ring := s.ring[1..]), s.ring[0]) && Moved(next, n - 1, t)
    ensures Moved(s, n, t)
  {
    MoveOne(s.written, s.ring, n - 1);
    AppendEffect(s.(ring := s.ring[1..]), s.ring[0]);
    var lines := FileAt(s.disk, s.file.value).lines;
    MoveOne(lines, s.ring, n - 1);
  }

  /** A flush appends the buffered entries to the open file in order, up to the first write that
      fails; then the file is closed and the rest stays in the buffer. */
  lemma {:induction false} FlushAppends(s: State, faults: seq<bool>, n: nat)
    requires s.file.Some? && FailsAt(faults, n, |s.ring|)
    ensures Moved(s, n, Flush(s, faults))
    decreases n
  {
    if n == 0 {
      assert s.ring[..0] == [] && s.ring[0..] == s.ring && s.written + [] == s.written;
      assert FileAt(s.disk, s.file.value).lines + [] == FileAt(s.disk, s.file.value).lines;
    } else {
      var next := Append(s.(ring := s.ring[1..]), s.ring[0]);
      FailsLater(faults, n, |s.ring|);
      FlushAppends(next, if faults == [] then [] else faults[1..], n - 1);
      MovedOneMore(s, next, n, Flush(s, faults));
    }
  }

  /** A forced flush with an open file, or one that can be reopened, and without write errors puts the
      whole buffer into the file, behind what it held; without a file it changes nothing. */
  lemma ForceFlushAppends(s: State, io: Io)
    ensures s.file.None? && io.open.None? ==> ForceFlush(s, io) == s
    ensures s.file.Some? && FailsAt(io.flush, |s.ring|, |s.ring|) ==> Moved(s, |s.ring|, ForceFlush(s, io))
    ensures s.file.None? && io.open.Some? && FailsAt(io.flush, |s.ring|, |s.ring|) ==>
              Moved(Recover(s, io), |s.ring|, ForceFlush(s, io))
  {
    if FailsAt(io.flush, |s.ring|, |s.ring|) {
      if s.file.Some? {
        FlushAppends(s, io.flush, |s.ring|);
      } else if io.open.Some? {
        FlushAppends(Recover(s, io), io.flush, |s.ring|);
      }
    }
  }

  /** The limit is the configured number of mebibytes. */
  predicate Full(s: State, c: Config, e: Entry) {
    s.size + |e.json| + 1 > c.maxFileSizeMb * 1048576
  }

  /** With room in the open file, an entry goes to its end, and the buffer, if any, behind it. */
  lemma WriteWithRoom(s: State, c: Config, e: Entry, io: Io, n: nat)
    requires s.file.Some? && !Full(s, c, e) && !io.writeFails && FailsAt(io.flush, n, |s.ring|)
    ensures Moved(s.(ring := [e] + s.ring), n + 1, WriteEntry(s, c, e, io).(ring := s.ring[n..]))
    ensures WriteEntry(s, c, e, io).ring == s.ring[n..]
  {
    var all := s.(ring := [e] + s.ring);
    var next := Append(s, e);
    FlushAppends(next, io.flush, n);
    assert all.ring[1..] == s.ring;
    MovedOneMore(all, next, n + 1, Flush(next, io.flush));
  }

  /** A write that fails closes the file, and the entry waits at the end of the buffer. */
  lemma FailedWrite(s: State, c: Config, e: Entry, io: Io)
    requires s.file.Some? && !Full(s, c, e) && io.writeFails
    ensures var t := WriteEntry(s, c, e, io);
            && t.file.None? && t.path.None? && !t.available && t.disk == s.disk && t.written == s.written
            && t.ring == (if |s.ring| >= c.maxBufferSize && s.ring != [] then s.ring[1..] else s.ring) + [e]
  {
  }

  /** Without a file that can be opened, the entry waits at the end of the buffer. */
  lemma WriteWithoutFile(s: State, c: Config, e: Entry, io: Io)
    requires s.file.None? && io.open.None?
    ensures var t := WriteEntry(s, c, e, io);
            && t.file.None? && t.available == s.available && t.disk == s.disk && t.written == s.written
            && t.ring == (if |s.ring| >= c.maxBufferSize && s.ring != [] then s.ring[1..] else s.ring) + [e]
            && t.evicted == s.evicted + if |s.ring| >= c.maxBufferSize && s.ring != [] then [s.ring[0]] else []
  {
  }

  /** Without room and with an empty buffer, the file is renamed and the entry starts a new one. */
  lemma WriteWithoutRoom(s: State, c: Config, e: Entry, io: Io, path: Path)
    requires FileTracked(s) && s.file.Some? && s.ring == [] && Full(s, c, e) && !io.writeFails
    requires io.rename.Some? && io.open == s.file && io.rename != io.open
    ensures var t := WriteEntry(s, c, e, io);
            && t.file == s.file && t.written == s.written + [e] && t.size == |e.json| + 1
            && FileAt(t.disk, path) ==
               if path == io.rename.value then s.disk[s.file.value]
               else if path == s.file.value then File(0, [e]) else FileAt(s.disk, path)
  {
    var rotated := Rotate(s, io);
    assert FileAt(rotated.disk, s.file.value) == File(0, []);
    AppendEffect(rotated, e);
    assert [] + [e] == [e];
  }

  /** Without an open file, the entry is written behind the buffer to the reopened one. */
  lemma WriteAfterReopen(s: State, c: Config, e: Entry, io: Io)
    requires s.file.None? && io.open.Some? && !io.writeFails && FailsAt(io.flush, |s.ring|, |s.ring|)
    ensures var t, f := WriteEntry(s, c, e, io), io.open.value;
            && t.file == io.open && t.available && t.ring == [] && t.written == s.written + s.ring + [e]
            && FileAt(t.disk, f) == File(FileAt(s.disk, f).base, FileAt(s.disk, f).lines + s.ring + [e])
            && forall p | p != f :: FileAt(t.disk, p) == FileAt(s.disk, p)
  {
    var reopened := Recover(s, io);
    FlushAppends(reopened, io.flush, |s.ring|);
    var flushed := Flush(reopened, io.flush);
    assert s.ring[..|s.ring|] == s.ring;
    AppendEffect(flushed, e);
  }
}
