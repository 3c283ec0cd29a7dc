/** Conservation, ordering and size tracking of the logger over every run and every fault pattern. */
module LoggerProperties {
  import opened Common
  import opened StructuredLogger

  datatype Event = Emit(json: string, io: Io) | Force(io: Io)

  /** A logger state with the list of all accepted entries. */
  datatype Log = Log(state: State, emitted: seq<Entry>)

  function Step(l: Log, c: Config, event: Event): Log {
    match event
    case Emit(json, io) =>
      var e := Entry(|l.emitted|, json);
      Log(WriteEntry(l.state, c, e, io), l.emitted + [e])
    case Force(io) => Log(ForceFlush(l.state, io), l.emitted)
  }

  function Run(l: Log, c: Config, events: seq<Event>): Log
    decreases events
  {
    if events == [] then l else Run(Step(l, c, events[0]), c, events[1..])
  }

  ghost predicate Increasing(es: seq<Entry>) {
    forall i, j | 0 <= i < j < |es| :: es[i].serial < es[j].serial
  }

  /** The recorded size is the length of the open file, and a logger with an open file calls itself
      available. */
  predicate FileTracked(s: State) {
    s.file.Some? ==> s.path == s.file && s.file.value in s.disk && Size(s.disk[s.file.value]) == s.size && s.available
  }

  /** Nothing is lost or duplicated: the accepted entries are the written, the buffered and the
      evicted ones; the buffer is bounded and in emission order. */
  ghost predicate Conserved(l: Log, c: Config) {
    var s := l.state;
    && (forall i | 0 <= i < |l.emitted| :: l.emitted[i].serial == i)
    && Held(s) == multiset(l.emitted)
    && |s.ring| <= c.maxBufferSize
    && Increasing(s.ring)
    && FileTracked(s)
  }

  ghost predicate InOrder(s: State) {
    Increasing(s.written + s.ring)
  }

  lemma {:induction false} BytesAppend(lines: seq<Entry>, e: Entry)
    ensures Bytes(lines + [e]) == Bytes(lines) + LineLength(e)
    decreases |lines|
  {
    var more := lines + [e];
    if lines == [] {
      assert more[1..] == [];
    } else {
      assert more[1..] == lines[1..] + [e];
      BytesAppend(lines[1..], e);
    }
  }

  lemma AppendKeepsTracked(s: State, e: Entry)
    requires s.file.Some? && FileTracked(s)
    ensures FileTracked(Append(s, e))
  {
    BytesAppend(s.disk[s.file.value].lines, e);
  }

  lemma MoveOne(written: seq<Entry>, ring: seq<Entry>, n: nat)
    requires n < |ring|
    ensures (written + [ring[0]]) + ring[1..][..n] == written + ring[..n + 1]
    ensures ring[1..][n..] == ring[n + 1..]
  {
    assert ring[..n + 1] == [ring[0]] + ring[1..][..n];
  }

  /** A flush moves a prefix of the buffer to the file; if the file stays open the buffer is empty. */
  lemma {:induction false} FlushMovesPrefix(s: State, faults: seq<bool>) returns (n: nat)
    ensures n <= |s.ring|
    ensures var t := Flush(s, faults);
            && t.written == s.written + s.ring[..n]
            && t.ring == s.ring[n..]
            && t.evicted == s.evicted
            && (t.file.Some? ==> t.ring == [] && t.file == s.file)
            && (s.file.None? ==> n == 0)
            && (FileTracked(s) ==> FileTracked(t))
    decreases |s.ring|
  {
    if s.ring == [] || s.file.None? || (faults != [] && faults[0]) {
      n := 0;
    } else {
      var next := Append(s.(ring := s.ring[1..]), s.ring[0]);
      if FileTracked(s) {
        AppendKeepsTracked(s.(ring := s.ring[1..]), s.ring[0]);
      }
      n := FlushMovesPrefix(next, if faults == [] then [] else faults[1..]);
      MoveOne(s.written, s.ring, n);
      n := n + 1;
    }
  }

  /** The entry goes straight to a file that was open when the call began. */
  predicate Direct(s: State, c: Config, e: Entry, io: Io) {
    s.file.Some? && Ready(s, c, e, io).file.Some? && !io.writeFails
  }

  /** After a successful reopen and a complete flush, the write of the new entry fails. */
  predicate FailsAfterReopen(s: State, io: Io) {
    s.file.None? && Flush(Recover(s, io), io.flush).file.Some? && io.writeFails
  }

  /** A direct write overtakes the `n` entries that it then flushes. */
  ghost predicate WroteDirectly(s: State, e: Entry, t: State, n: nat) {
    && n <= |s.ring|
    && t.written == s.written + [e] + s.ring[..n]
    && t.ring == s.ring[n..]
    && t.evicted == s.evicted
  }

  ghost predicate Drained(s: State, e: Entry, t: State) {
    t.written == s.written + s.ring + [e] && t.ring == [] && t.evicted == s.evicted
  }

  ghost predicate Buffered(s: State, c: Config, e: Entry, t: State, n: nat) {
    && n <= |s.ring|
    && |s.ring| - n < c.maxBufferSize
    && t.written == s.written + s.ring[..n]
    && t.ring == s.ring[n..] + [e]
    && t.evicted == s.evicted
  }

  /** An eviction happens only when the buffer is full before the call, and drops its oldest entry. */
  ghost predicate Evicting(s: State, c: Config, e: Entry, t: State) {
    && 0 < |s.ring| == c.maxBufferSize
    && t.written == s.written
    && t.ring == s.ring[1..] + [e]
    && t.evicted == s.evicted + [s.ring[0]]
  }

  lemma BufferEffect(s: State, c: Config, flushed: State, e: Entry, n: nat)
    requires c.Valid() && |s.ring| <= c.maxBufferSize && n <= |s.ring|
    requires flushed.written == s.written + s.ring[..n] && flushed.ring == s.ring[n..] && flushed.evicted == s.evicted
    ensures var t := Buffer(flushed, c, e);
            (exists k :: Buffered(s, c, e, t, k)) || Evicting(s, c, e, t)
  {
    var t := Buffer(flushed, c, e);
    if |flushed.ring| < c.maxBufferSize {
      assert Buffered(s, c, e, t, n);
    } else {
      assert n == 0 && s.written + s.ring[..0] == s.written && s.ring[0..] == s.ring;
      assert Evicting(s, c, e, t);
    }
  }

  lemma DirectEffect(s: State, c: Config, e: Entry, io: Io)
    requires Direct(s, c, e, io)
    ensures exists n :: WroteDirectly(s, e, WriteEntry(s, c, e, io), n)
  {
    var n := FlushMovesPrefix(Append(Ready(s, c, e, io), e), io.flush);
    assert WroteDirectly(s, e, WriteEntry(s, c, e, io), n);
  }

  lemma ClosedEffect(s: State, c: Config, e: Entry, io: Io)
    requires c.Valid() && |s.ring| <= c.maxBufferSize && s.file.Some? && !Direct(s, c, e, io)
    ensures var t := WriteEntry(s, c, e, io);
            (exists n :: Buffered(s, c, e, t, n)) || Evicting(s, c, e, t)
  {
    var ready := Ready(s, c, e, io);
    var closed := if ready.file.None? then ready else ready.(available := false, file := None, path := None);
    assert s.written + s.ring[..0] == s.written && s.ring[0..] == s.ring;
    BufferEffect(s, c, closed, e, 0);
  }

  lemma RecoverEffect(s: State, c: Config, e: Entry, io: Io)
    requires c.Valid() && |s.ring| <= c.maxBufferSize && s.file.None?
    ensures var t := WriteEntry(s, c, e, io);
            Drained(s, e, t) || (exists n :: Buffered(s, c, e, t, n)) || Evicting(s, c, e, t)
  {
    var n := FlushMovesPrefix(Recover(s, io), io.flush);
    var flushed := Flush(Recover(s, io), io.flush);
    if flushed.file.Some? && !io.writeFails {
      assert s.ring[..n] == s.ring;
    } else {
      BufferEffect(s, c, flushed, e, n);
    }
  }

  /** The four things that one logging call can do to the entries, and which of them are direct. */
  lemma WriteEffect(s: State, c: Config, e: Entry, io: Io)
    requires c.Valid() && |s.ring| <= c.maxBufferSize
    ensures var t := WriteEntry(s, c, e, io);
            if Direct(s, c, e, io) then exists n :: WroteDirectly(s, e, t, n)
            else Drained(s, e, t) || (exists n :: Buffered(s, c, e, t, n)) || Evicting(s, c, e, t)
  {
    if Direct(s, c, e, io) {
      DirectEffect(s, c, e, io);
    } else if s.file.Some? {
      ClosedEffect(s, c, e, io);
    } else {
      RecoverEffect(s, c, e, io);
    }
  }

  /** The size of the open file stays known, and a file that is open after the call has drained the
      buffer unless the write right after a reopen failed. */
  lemma WriteKeepsFile(s: State, c: Config, e: Entry, io: Io)
    ensures var t := WriteEntry(s, c, e, io);
            && (FileTracked(s) ==> FileTracked(t))
            && (t.file.Some? ==> t.ring == [] || FailsAfterReopen(s, io))
  {
    if Direct(s, c, e, io) {
      var ready := Ready(s, c, e, io);
      if FileTracked(s) { AppendKeepsTracked(ready, e); }
      var n := FlushMovesPrefix(Append(ready, e), io.flush);
    } else if s.file.None? {
      var n := FlushMovesPrefix(Recover(s, io), io.flush);
      var flushed := Flush(Recover(s, io), io.flush);
      if FileTracked(s) && flushed.file.Some? { AppendKeepsTracked(flushed, e); }
    }
  }

  /** A successful rotation keeps the old file, with its content, under the rotated name, leaves all
      other files alone, and goes on with the newly opened one. */
  lemma RotationKeepsFiles(s: State, io: Io, path: Path)
    requires FileTracked(s) && s.file.Some? && io.rename.Some? && io.open.Some? && io.rename != io.open
    ensures var t := Rotate(s, io);
            && t.file == io.open && FileTracked(t)
            && FileAt(t.disk, io.rename.value) == s.disk[s.file.value]
            && (path != s.file.value && path != io.rename.value ==> FileAt(t.disk, path) == FileAt(s.disk, path))
  {
  }

  /** A direct write keeps the file within the limit unless it goes to a file opened by this call. */
  lemma DirectWriteWithinLimit(s: State, c: Config, e: Entry, io: Io)
    requires Direct(s, c, e, io)
    ensures var t := Append(Ready(s, c, e, io), e);
            t.size <= Limit(c) || (t.file == io.open && io.open.Some?)
  {
  }

  lemma PrefixMultiset(es: seq<Entry>, n: nat)
    requires n <= |es|
    ensures multiset(es) == multiset(es[..n]) + multiset(es[n..])
  {
    assert es == es[..n] + es[n..];
  }

  /** Entries that are held anywhere were emitted before the next one. */
  lemma HeldWasEmitted(l: Log, c: Config, e: Entry)
    requires Conserved(l, c) && (e in l.state.ring || e in l.state.written)
    ensures e.serial < |l.emitted| && l.emitted[e.serial] == e
  {
    assert e in multiset(l.emitted);
  }

  /** What a logging call can do to the entries. */
  ghost predicate Effect(s: State, c: Config, e: Entry, t: State) {
    || (exists n :: WroteDirectly(s, e, t, n))
    || Drained(s, e, t)
    || (exists n :: Buffered(s, c, e, t, n))
    || Evicting(s, c, e, t)
  }

  function Held(s: State): multiset<Entry> {
    multiset(s.written) + multiset(s.ring) + multiset(s.evicted)
  }

  lemma DirectConserves(s: State, e: Entry, t: State, n: nat)
    requires WroteDirectly(s, e, t, n)
    ensures Held(t) == Held(s) + multiset{e}
  {
    PrefixMultiset(s.ring, n);
  }

  lemma BufferedConserves(s: State, c: Config, e: Entry, t: State, n: nat)
    requires Buffered(s, c, e, t, n)
    ensures Held(t) == Held(s) + multiset{e}
  {
    PrefixMultiset(s.ring, n);
  }

  lemma EvictingConserves(s: State, c: Config, e: Entry, t: State)
    requires Evicting(s, c, e, t)
    ensures Held(t) == Held(s) + multiset{e}
  {
    PrefixMultiset(s.ring, 1);
    assert s.ring[..1] == [s.ring[0]];
  }

  lemma EffectConserves(s: State, c: Config, e: Entry, t: State)
    requires Effect(s, c, e, t)
    ensures Held(t) == Held(s) + multiset{e}
  {
    if n: nat :| WroteDirectly(s, e, t, n) {
      DirectConserves(s, e, t, n);
    } else if Drained(s, e, t) {
    } else if n: nat :| Buffered(s, c, e, t, n) {
      BufferedConserves(s, c, e, t, n);
    } else {
      EvictingConserves(s, c, e, t);
    }
  }

  lemma TailThenNewest(ring: seq<Entry>, n: nat, e: Entry)
    requires n <= |ring| && Increasing(ring) && forall x | x in ring :: x.serial < e.serial
    ensures Increasing(ring[n..]) && Increasing(ring[n..] + [e])
  {
    assert forall x | x in ring[n..] :: x in ring;
  }

  lemma EffectKeepsRing(s: State, c: Config, e: Entry, t: State)
    requires c.Valid() && Effect(s, c, e, t)
    requires |s.ring| <= c.maxBufferSize && Increasing(s.ring) && forall x | x in s.ring :: x.serial < e.serial
    ensures |t.ring| <= c.maxBufferSize && Increasing(t.ring)
  {
    if n: nat :| WroteDirectly(s, e, t, n) {
      TailThenNewest(s.ring, n, e);
    } else if Drained(s, e, t) {
    } else if n: nat :| Buffered(s, c, e, t, n) {
      TailThenNewest(s.ring, n, e);
    } else {
      TailThenNewest(s.ring, 1, e);
    }
  }

  /** A new entry in the hands of a state with the right effect is conserved. */
  lemma EffectIsConserved(l: Log, c: Config, e: Entry, t: State)
    requires c.Valid() && Conserved(l, c) && e.serial == |l.emitted|
    requires Effect(l.state, c, e, t) && FileTracked(t)
    ensures Conserved(Log(t, l.emitted + [e]), c)
  {
    EffectConserves(l.state, c, e, t);
    forall x | x in l.state.ring ensures x.serial < e.serial { HeldWasEmitted(l, c, x); }
    EffectKeepsRing(l.state, c, e, t);
  }

  lemma EmitConserves(l: Log, c: Config, e: Entry, io: Io)
    requires c.Valid() && Conserved(l, c) && e.serial == |l.emitted|
    ensures Conserved(Log(WriteEntry(l.state, c, e, io), l.emitted + [e]), c)
  {
    WriteEffect(l.state, c, e, io);
    WriteKeepsFile(l.state, c, e, io);
    EffectIsConserved(l, c, e, WriteEntry(l.state, c, e, io));
  }

  lemma StepConserves(l: Log, c: Config, event: Event)
    requires c.Valid() && Conserved(l, c)
    ensures Conserved(Step(l, c, event), c)
  {
    match event
    case Force(io) => ForceConserves(l, c, io);
    case Emit(json, io) => EmitConserves(l, c, Entry(|l.emitted|, json), io);
  }

  lemma MovedIsHeld(s: State, t: State, n: nat)
    requires n <= |s.ring|
    requires t.written == s.written + s.ring[..n] && t.ring == s.ring[n..] && t.evicted == s.evicted
    ensures Held(t) == Held(s)
  {
    PrefixMultiset(s.ring, n);
  }

  lemma ForceConserves(l: Log, c: Config, io: Io)
    requires c.Valid() && Conserved(l, c)
    ensures Conserved(Log(ForceFlush(l.state, io), l.emitted), c)
  {
    var s := l.state;
    var n := FlushMovesPrefix(if s.file.Some? then s else Recover(s, io), io.flush);
    MovedIsHeld(s, ForceFlush(s, io), n);
  }

  lemma {:induction false} RunConserves(l: Log, c: Config, events: seq<Event>)
    requires c.Valid() && Conserved(l, c)
    ensures Conserved(Run(l, c, events), c)
    decreases |events|
  {
    if events != [] {
      StepConserves(l, c, events[0]);
      RunConserves(Step(l, c, events[0]), c, events[1..]);
    }
  }

  /** From the start of the logger on, under every pattern of failures: each accepted entry is in
      exactly one place, the buffer is bounded and ordered, and the file size is tracked. */
  lemma EveryEntryExactlyOnce(
    c: Config, disk: map<Path, File>, dirCreated: bool, open: Option<Path>, events: seq<Event>)
    requires c.Valid()
    ensures var l := Run(Log(Start(disk, dirCreated, open), []), c, events);
            && Conserved(l, c)
            && forall e | e in l.emitted ::
                 multiset(l.state.written)[e] + multiset(l.state.ring)[e] + multiset(l.state.evicted)[e] == 1
  {
    var start := Log(Start(disk, dirCreated, open), []);
    RunConserves(start, c, events);
    var l := Run(start, c, events);
    forall e | e in l.emitted
      ensures multiset(l.emitted)[e] == 1
    {
      SerialsAreUnique(l.emitted, e);
    }
    forall e | e in l.emitted
      ensures multiset(l.state.written)[e] + multiset(l.state.ring)[e] + multiset(l.state.evicted)[e] == 1
    {
      assert Held(l.state)[e] == 1;
    }
  }

  lemma {:induction false} SerialsAreUnique(es: seq<Entry>, e: Entry)
    requires e in es && Increasing(es)
    ensures multiset(es)[e] == 1
  {
    var last := |es| - 1;
    var init := es[..last];
    assert es == init + [es[last]];
    if e == es[last] {
      assert e !in init;
    } else {
      SerialsAreUnique(init, e);
    }
  }

  /** The call writes a new entry to the file while older ones wait in the buffer. */
  predicate Overtakes(l: Log, c: Config, event: Event) {
    event.Emit? && l.state.ring != [] && Direct(l.state, c, Entry(|l.emitted|, event.json), event.io)
  }

  predicate NeverOvertakes(l: Log, c: Config, events: seq<Event>)
    decreases events
  {
    events != [] ==> !Overtakes(l, c, events[0]) && NeverOvertakes(Step(l, c, events[0]), c, events[1..])
  }

  /** Written and buffered entries are in emission order after every call of the run. */
  ghost predicate AlwaysInOrder(l: Log, c: Config, events: seq<Event>)
    decreases events
  {
    InOrder(l.state) && (events != [] ==> AlwaysInOrder(Step(l, c, events[0]), c, events[1..]))
  }

  lemma StepOrderIff(l: Log, c: Config, event: Event)
    requires c.Valid() && Conserved(l, c) && InOrder(l.state)
    ensures InOrder(Step(l, c, event).state) <==> !Overtakes(l, c, event)
  {
    var s := l.state;
    match event
    case Force(io) => ForceKeepsOrder(s, io);
    case Emit(json, io) =>
      var e := Entry(|l.emitted|, json);
      var t := WriteEntry(s, c, e, io);
      WriteEffect(s, c, e, io);
      forall x | x in s.ring || x in s.written ensures x.serial < e.serial { HeldWasEmitted(l, c, x); }
      if Direct(s, c, e, io) {
        var n :| WroteDirectly(s, e, t, n);
        DirectOrder(s, e, t, n);
      } else {
        OtherOrder(s, c, e, t);
      }
  }

  lemma ForceKeepsOrder(s: State, io: Io)
    requires InOrder(s)
    ensures InOrder(ForceFlush(s, io))
  {
    var n := FlushMovesPrefix(if s.file.Some? then s else Recover(s, io), io.flush);
    RejoinRing(s.written, s.ring, n);
  }

  lemma RejoinRing(written: seq<Entry>, ring: seq<Entry>, n: nat)
    requires n <= |ring|
    ensures (written + ring[..n]) + ring[n..] == written + ring
  {
  }

  lemma DirectOrder(s: State, e: Entry, t: State, n: nat)
    requires InOrder(s) && WroteDirectly(s, e, t, n)
    requires forall x | x in s.ring || x in s.written :: x.serial < e.serial
    ensures InOrder(t) <==> s.ring == []
  {
    var w := |s.written|;
    assert t.written + t.ring == s.written + [e] + s.ring;
    assert s.ring == [] ==> t.written + t.ring == (s.written + s.ring) + [e];
    if s.ring != [] {
      assert (t.written + t.ring)[w] == e && (t.written + t.ring)[w + 1] == s.ring[0];
    }
  }

  lemma OtherOrder(s: State, c: Config, e: Entry, t: State)
    requires InOrder(s)
    requires Drained(s, e, t) || (exists n :: Buffered(s, c, e, t, n)) || Evicting(s, c, e, t)
    requires forall x | x in s.ring || x in s.written :: x.serial < e.serial
    ensures InOrder(t)
  {
    if Evicting(s, c, e, t) {
      SkipKeepsOrder(s.written, s.ring, e);
    } else {
      var es := s.written + s.ring;
      assert t.written + t.ring == es + [e];
      assert forall x | x in es :: x.serial < e.serial;
    }
  }

  lemma SkipKeepsOrder(written: seq<Entry>, ring: seq<Entry>, e: Entry)
    requires ring != [] && Increasing(written + ring)
    requires forall x | x in ring || x in written :: x.serial < e.serial
    ensures Increasing(written + (ring[1..] + [e]))
  {
    var es, fs, w := written + ring, written + (ring[1..] + [e]), |written|;
    forall i, j | 0 <= i < j < |fs|
      ensures fs[i].serial < fs[j].serial
    {
      assert fs[i] == if i < w then es[i] else if i < |fs| - 1 then es[i + 1] else e;
      assert fs[j] == if j < w then es[j] else if j < |fs| - 1 then es[j + 1] else e;
    }
  }

  /** Order holds after every call of a run if and only if no call of the run overtakes. */
  lemma {:induction false} OrderIffNoOvertaking(l: Log, c: Config, events: seq<Event>)
    requires c.Valid() && Conserved(l, c) && InOrder(l.state)
    ensures AlwaysInOrder(l, c, events) <==> NeverOvertakes(l, c, events)
    decreases |events|
  {
    if events != [] {
      StepOrderIff(l, c, events[0]);
      StepConserves(l, c, events[0]);
      var next := Step(l, c, events[0]);
      if InOrder(next.state) {
        OrderIffNoOvertaking(next, c, events[1..]);
      } else {
        assert !AlwaysInOrder(next, c, events[1..]);
      }
    }
  }

  /** No write fails right after a successful reopen. */
  predicate ReopensAreUsable(l: Log, c: Config, events: seq<Event>)
    decreases events
  {
    events != [] ==>
      && (events[0].Emit? ==> !FailsAfterReopen(l.state, events[0].io))
      && ReopensAreUsable(Step(l, c, events[0]), c, events[1..])
  }

  /** In such runs an open file means an empty buffer between calls, so order always holds. */
  lemma {:induction false} UsableReopensKeepOrder(l: Log, c: Config, events: seq<Event>)
    requires c.Valid() && Conserved(l, c) && InOrder(l.state)
    requires l.state.file.Some? ==> l.state.ring == []
    requires ReopensAreUsable(l, c, events)
    ensures var l' := Run(l, c, events);
            l'.state.file.Some? ==> l'.state.ring == []
    ensures AlwaysInOrder(l, c, events)
    decreases |events|
  {
    if events != [] {
      StepOrderIff(l, c, events[0]);
      StepConserves(l, c, events[0]);
      match events[0] {
        case Emit(json, io) => WriteKeepsFile(l.state, c, Entry(|l.emitted|, json), io);
        case Force(io) =>
          var n := FlushMovesPrefix(if l.state.file.Some? then l.state else Recover(l.state, io), io.flush);
      }
      UsableReopensKeepOrder(Step(l, c, events[0]), c, events[1..]);
    }
  }

  /** Without that condition order can break: the write after a reopen fails, the next one succeeds. */
  lemma OrderCanBreak()
    ensures var c := Config(1, 10);
            var fail := Io(None, Some("log"), true, []);
            var work := Io(None, None, false, []);
            var l := Run(Log(Start(map[], true, None), []), c, [Emit("a", fail), Emit("b", work)]);
            l.state.written == [Entry(1, "b"), Entry(0, "a")]
  {
    var c := Config(1, 10);
    var fail := Io(None, Some("log"), true, []);
    var work := Io(None, None, false, []);
    var l0 := Log(Start(map[], true, None), []);
    var e1, e2 := Emit("a", fail), Emit("b", work);
    assert [e1, e2][1..] == [e2] && [e2][1..] == [];
    var l1 := Step(l0, c, e1);
    assert l1.state.ring == [Entry(0, "a")] && l1.state.written == [] && l1.state.file == Some("log");
    var l2 := Step(l1, c, e2);
    assert Run(l1, c, [e2]) == Run(l2, c, []) == l2;
    var direct := Append(l1.state, Entry(1, "b"));
    assert l2.state == Flush(direct, []);
    var flushed := Append(direct.(ring := direct.ring[1..]), direct.ring[0]);
    assert flushed.ring == [] && Flush(direct, []) == Flush(flushed, []) == flushed;
  }
}
