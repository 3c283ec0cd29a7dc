/** The structured logger: one open log file, rotation, and a ring buffer for the times when the
    disk refuses. Each disk operation succeeds or fails as a whole, as its `Io` input says. */
module StructuredLogger {
  import opened Common

  type Path = string

  /** An accepted log entry: its emission number and its one-line JSON text. */
  datatype Entry = Entry(serial: nat, json: string)

  /** A validated configuration: both sizes are positive. */
  datatype Config = Config(maxFileSizeMb: nat, maxBufferSize: nat) {
    predicate Valid() {
      maxFileSizeMb > 0 && maxBufferSize > 0
    }
  }

  /** A file on disk: the bytes it had when the logger started, and the entries written to it since. */
  datatype File = File(base: nat, lines: seq<Entry>)

  /** The logger and the disk: `disk` gives the content of each file, `written` the entries written
      to any file so far, and `evicted` the ones that the ring buffer had to drop. */
  datatype State = State(file: Option<Path>, path: Option<Path>, size: nat, ring: seq<Entry>, available: bool,
                         disk: map<Path, File>, written: seq<Entry>, evicted: seq<Entry>)

  /** How the disk answers during one call. `rename` and `open` hold the name used when the
      operation succeeds (both names contain the time of day); `flush[i]` tells whether the i-th
      write of a buffer flush fails. */
  datatype Io = Io(rename: Option<Path>, open: Option<Path>, writeFails: bool, flush: seq<bool>)

  function LineLength(e: Entry): nat {
    |e.json| + 1
  }

  function Bytes(lines: seq<Entry>): nat {
    if lines == [] then 0 else LineLength(lines[0]) + Bytes(lines[1..])
  }

  function Size(file: File): nat {
    file.base + Bytes(file.lines)
  }

  /** The file that opening `path` gives: the existing one, or a new empty one. */
  function FileAt(disk: map<Path, File>, path: Path): File {
    if path in disk then disk[path] else File(0, [])
  }

  function WithLine(file: File, e: Entry): File {
    File(file.base, file.lines + [e])
  }

  function Append(s: State, e: Entry): State
    requires s.file.Some?
  {
    s.(size := s.size + LineLength(e), written := s.written + [e],
       disk := s.disk[s.file.value := WithLine(FileAt(s.disk, s.file.value), e)])
  }

  function OpenLog(s: State, path: Path): State {
    var file := FileAt(s.disk, path);
    s.(file := Some(path), path := Some(path), size := Size(file), disk := s.disk[path := file])
  }

  function Buffer(s: State, c: Config, e: Entry): State {
    if |s.ring| >= c.maxBufferSize && s.ring != [] then
      s.(ring := s.ring[1..] + [e], evicted := s.evicted + [s.ring[0]])
    else
      s.(ring := s.ring + [e])
  }

  function Recover(s: State, io: Io): State {
    if io.open.Some? then OpenLog(s, io.open.value).(available := true) else s
  }

  /** Renaming replaces whatever file had the new name. */
  function Renamed(disk: map<Path, File>, from: Path, to: Path): map<Path, File> {
    (disk - {from})[to := FileAt(disk, from)]
  }

  /** The file is closed first, so a failed rotation leaves no file open. */
  function Rotate(s: State, io: Io): State {
    var closed := s.(file := None);
    if s.path.Some? && io.rename.None? then closed else
    var renamed := if s.path.None? then closed else
                   closed.(disk := Renamed(s.disk, s.path.value, io.rename.value));
    if io.open.None? then renamed else OpenLog(renamed, io.open.value)
  }

  function Flush(s: State, faults: seq<bool>): State
    decreases |s.ring|
  {
    if s.ring == [] || s.file.None? then s
    else if faults != [] && faults[0] then s.(available := false, file := None)
    else Flush(Append(s.(ring := s.ring[1..]), s.ring[0]), if faults == [] then [] else faults[1..])
  }

  function Limit(c: Config): nat {
    c.maxFileSizeMb * 1024 * 1024
  }

  predicate NeedsRotation(size: nat, c: Config, e: Entry) {
    size + LineLength(e) > Limit(c)
  }

  function Ready(s: State, c: Config, e: Entry, io: Io): State {
    if NeedsRotation(s.size, c, e) then Rotate(s, io) else s
  }

  function WriteEntry(s: State, c: Config, e: Entry, io: Io): State {
    if s.file.Some? then
      var ready := Ready(s, c, e, io);
      if ready.file.None? then Buffer(ready, c, e)
      else if io.writeFails then Buffer(ready.(available := false, file := None, path := None), c, e)
      else Flush(Append(ready, e), io.flush)
    else
      var flushed := Flush(Recover(s, io), io.flush);
      if flushed.file.Some? && !io.writeFails then Append(flushed, e) else Buffer(flushed, c, e)
  }

  function ForceFlush(s: State, io: Io): State {
    Flush(if s.file.Some? then s else Recover(s, io), io.flush)
  }

  function Start(disk: map<Path, File>, dirCreated: bool, open: Option<Path>): State {
    var closed := State(None, None, 0, [], dirCreated, disk, [], []);
    if dirCreated && open.Some? then OpenLog(closed, open.value) else closed
  }

  class Logger {
    const config: Config
    var file: Option<Path>
    var path: Option<Path>
    var size: nat
    var ring: seq<Entry>
    var available: bool
    var disk: map<Path, File>
    ghost var written: seq<Entry>
    ghost var evicted: seq<Entry>

    ghost function View(): State
      reads this
    {
      State(file, path, size, ring, available, disk, written, evicted)
    }

    constructor (config: Config, disk: map<Path, File>, dirCreated: bool, open: Option<Path>)
      requires config.Valid()
      ensures this.config == config
      ensures View() == Start(disk, dirCreated, open)
      ensures file == path == if dirCreated then open else None
      ensures available == dirCreated && ring == []
      ensures size == if file.Some? && file.value in disk then Size(disk[file.value]) else 0
      ensures forall p | p in disk :: p in this.disk && this.disk[p] == disk[p]
      ensures forall p | p in this.disk :: p in disk || file == Some(p)
    {
      this.config := config;
      var current := if dirCreated then open else None;
      file, path, available := current, current, dirCreated;
      size := if current.Some? then Size(FileAt(disk, current.value)) else 0;
      this.disk := if current.Some? then disk[current.value := FileAt(disk, current.value)] else disk;
      ring, written, evicted := [], [], [];
    }

    method AppendLine(e: Entry)
      requires file.Some?
      modifies this
      ensures View() == Append(old(View()), e)
    {
      disk := disk[file.value := WithLine(FileAt(disk, file.value), e)];
      size := size + LineLength(e);
      written := written + [e];
    }

    method BufferEntry(e: Entry)
      modifies this
      ensures View() == Buffer(old(View()), config, e)
    {
      if |ring| >= config.maxBufferSize && |ring| > 0 {
        evicted := evicted + [ring[0]];
        ring := ring[1..];
      }
      ring := ring + [e];
    }

    method TryRecoverFs(io: Io) returns (ok: bool)
      modifies this
      ensures ok == io.open.Some?
      ensures View() == Recover(old(View()), io)
    {
      if io.open.None? { return false; }
      size := Size(FileAt(disk, io.open.value));
      disk := disk[io.open.value := FileAt(disk, io.open.value)];
      file, path, available := io.open, io.open, true;
      return true;
    }

    method FlushBuffer(faults: seq<bool>)
      modifies this
      ensures View() == Flush(old(View()), faults)
    {
      var pending := faults;
      while ring != []
        invariant Flush(View(), pending) == Flush(old(View()), faults)
        decreases |ring|
      {
        var entry := ring[0];
        ghost var s := View();
        ring := ring[1..];
        if file.None? {
          ring := [entry] + ring;
          assert View() == s;
          break;
        }
        if pending != [] && pending[0] {
          ring := [entry] + ring;
          assert ring == s.ring;
          available, file := false, None;
          break;
        }
        AppendLine(entry);
        pending := if pending == [] then [] else pending[1..];
      }
    }

    method RotateLogFile(io: Io) returns (ok: bool)
      modifies this
      ensures View() == Rotate(old(View()), io)
      ensures ok == file.Some?
    {
      file := None;
      if path.Some? {
        if io.rename.None? { return false; }
        disk := Renamed(disk, path.value, io.rename.value);
      }
      if io.open.None? { return false; }
      size := Size(FileAt(disk, io.open.value));
      disk := disk[io.open.value := FileAt(disk, io.open.value)];
      file, path := io.open, io.open;
      return true;
    }

    method Write(e: Entry, io: Io)
      modifies this
      ensures View() == WriteEntry(old(View()), config, e, io)
    {
      if file.Some? {
        if NeedsRotation(size, config, e) {
          var rotated := RotateLogFile(io);
          if !rotated {
            BufferEntry(e);
            return;
          }
        }
        if io.writeFails {
          available, file, path := false, None, None;
          BufferEntry(e);
        } else {
          AppendLine(e);
          if ring != [] {
            FlushBuffer(io.flush);
          }
        }
      } else {
        var recovered := TryRecoverFs(io);
        if recovered {
          FlushBuffer(io.flush);
          if file.Some? && !io.writeFails {
            AppendLine(e);
            return;
          }
        }
        BufferEntry(e);
      }
    }

    method ForceFlushBuffer(io: Io) returns (ok: bool)
      modifies this
      ensures View() == ForceFlush(old(View()), io)
      ensures ok ==> ring == []
      ensures !ok ==> ring != [] || (old(file).None? && io.open.None?)
    {
      if file.None? {
        var recovered := TryRecoverFs(io);
        if !recovered { return false; }
      }
      FlushBuffer(io.flush);
      ok := ring == [];
    }
  }
}
