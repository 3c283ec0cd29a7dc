/** The bounded undo history over tracked file operations. */
module UndoHistory {
  import opened Common
  import opened FileStore

  datatype Entry =
    | Created(path: Path, content: Content)
    | Edited(path: Path, before: Content, after: Content)
    | Deleted(path: Path, content: Content)

  datatype UndoResult = UndoResult(entry: Entry, ok: bool)

  datatype Limits = Limits(maxFileSize: nat, capacity: nat)

  /** The files and the entries that can still be undone, oldest first. */
  datatype World = World(files: Files, entries: seq<Entry>)

  datatype Op =
    | DoCreate(path: Path, content: Content)
    | DoWrite(path: Path, content: Content)
    | DoEdit(path: Path, oldText: Content, newText: Content)
    | DoDelete(path: Path)

  datatype Outcome = Done(files: Files, entry: Entry) | Failed(error: Error)

  function Perform(files: Files, maxSize: nat, op: Op, f: Faults): Outcome {
    match op
    case DoCreate(path, content) => (
      match Create(files, maxSize, path, content, f)
      case Err(e) => Failed(e)
      case Ok(files') => Done(files', Created(path, content)))
    case DoWrite(path, content) => (
      match Read(files, maxSize, path, f)
      case Err(e) => Failed(e)
      case Ok(before) =>
        match Write(files, maxSize, path, content, f)
        case Err(e) => Failed(e)
        case Ok(files') => Done(files', Edited(path, before, content)))
    case DoEdit(path, oldText, newText) => (
      match Read(files, maxSize, path, f)
      case Err(e) => Failed(e)
      case Ok(before) =>
        match Edit(files, maxSize, path, oldText, newText, f)
        case Err(e) => Failed(e)
        case Ok(after) => Done(files[path := after], Edited(path, before, after)))
    case DoDelete(path) => (
      match Read(files, maxSize, path, f)
      case Err(e) => Failed(e)
      case Ok(before) =>
        match Delete(files, path, f)
        case Err(e) => Failed(e)
        case Ok(files') => Done(files', Deleted(path, before)))
  }

  /** At capacity the oldest entry goes first; an empty history has none to drop, even at capacity 0. */
  function Record(entries: seq<Entry>, entry: Entry, capacity: nat): seq<Entry> {
    (if |entries| >= capacity && entries != [] then entries[1..] else entries) + [entry]
  }

  function Apply(w: World, limits: Limits, op: Op, f: Faults): World {
    match Perform(w.files, limits.maxFileSize, op, f)
    case Failed(_) => w
    case Done(files, entry) => World(files, Record(w.entries, entry, limits.capacity))
  }

  /** Removing a file that is not there is an error; writing one back creates it if need be. */
  function ApplyUndo(files: Files, entry: Entry, fails: bool): Option<Files> {
    match entry
    case Created(path, _) => if fails || path !in files then None else Some(files - {path})
    case Edited(path, before, _) => if fails then None else Some(files[path := before])
    case Deleted(path, content) => if fails then None else Some(files[path := content])
  }

  function Rest(faults: seq<bool>): seq<bool> {
    if faults == [] then [] else faults[1..]
  }

  predicate NextFails(faults: seq<bool>) {
    faults != [] && faults[0]
  }

  datatype Undone = Undone(world: World, results: seq<UndoResult>)

  /** Undo up to `count` entries, newest first, stopping at the first failure. The i-th attempt
      meets an I/O error when `faults[i]`; attempts past the end of `faults` meet none. */
  function Undo(w: World, count: nat, faults: seq<bool>): Undone
    decreases count
  {
    if count == 0 || w.entries == [] then Undone(w, []) else
    var entry := Top(w);
    match ApplyUndo(w.files, entry, NextFails(faults))
    case None => Undone(w, [UndoResult(entry, false)])
    case Some(files) =>
      var rest := Undo(Below(w, files), count - 1, Rest(faults));
      Undone(rest.world, [UndoResult(entry, true)] + rest.results)
  }

  function Top(w: World): Entry
    requires w.entries != []
  {
    w.entries[|w.entries| - 1]
  }

  function Below(w: World, files: Files): World
    requires w.entries != []
  {
    World(files, w.entries[..|w.entries| - 1])
  }

  /** `undo` reports `done` first and then goes on as `rest` does. */
  ghost predicate Continues(undo: Undone, done: seq<UndoResult>, rest: Undone) {
    undo == Undone(rest.world, done + rest.results)
  }

  lemma UndoContinues(undo: Undone, done: seq<UndoResult>, w: World, count: nat, faults: seq<bool>)
    requires 0 < count && w.entries != [] && Continues(undo, done, Undo(w, count, faults))
    ensures match ApplyUndo(w.files, Top(w), NextFails(faults))
            case None => undo == Undone(w, done + [UndoResult(Top(w), false)])
            case Some(files) =>
              Continues(undo, done + [UndoResult(Top(w), true)], Undo(Below(w, files), count - 1, Rest(faults)))
  {
    var attempt := ApplyUndo(w.files, Top(w), NextFails(faults));
    if attempt.Some? {
      var rest := Undo(Below(w, attempt.value), count - 1, Rest(faults)).results;
      assert done + ([UndoResult(Top(w), true)] + rest) == (done + [UndoResult(Top(w), true)]) + rest;
    }
  }

  class FileOperations {
    var files: Files
    const maxFileSize: nat

    constructor (files: Files, maxFileSize: nat)
      ensures this.files == files && this.maxFileSize == maxFileSize
    {
      this.files := files;
      this.maxFileSize := maxFileSize;
    }

    method CreateFile(path: Path, content: Content, f: Faults) returns (r: Result<()>)
      modifies this
      ensures match Create(old(files), maxFileSize, path, content, f)
              case Ok(files') => r == Ok(()) && files == files'
              case Err(e) => r == Err(e) && files == old(files)
    {
      if |content| > maxFileSize { return Err(TooLarge); }
      if f.writeDenied { return Err(AccessDenied); }
      if f.writeFails { return Err(WriteFailed); }
      files := files[path := content];
      r := Ok(());
    }

    method WriteFile(path: Path, content: Content, f: Faults) returns (r: Result<()>)
      modifies this
      ensures match Write(old(files), maxFileSize, path, content, f)
              case Ok(files') => r == Ok(()) && files == files'
              case Err(e) => r == Err(e) && files == old(files)
    {
      if |content| > maxFileSize { return Err(TooLarge); }
      if f.writeDenied { return Err(AccessDenied); }
      if !Fits(files, maxFileSize, path) { return Err(TooLarge); }
      if f.writeFails { return Err(WriteFailed); }
      files := files[path := content];
      r := Ok(());
    }

    method EditFile(path: Path, oldText: Content, newText: Content, f: Faults) returns (r: Result<Content>)
      modifies this
      ensures r == Edit(old(files), maxFileSize, path, oldText, newText, f)
      ensures files == if r.Ok? then old(files)[path := r.value] else old(files)
      ensures r.Ok? ==> path in old(files) && Replaced(old(files)[path], oldText, newText, r.value)
    {
      if f.writeDenied { return Err(AccessDenied); }
      if !Fits(files, maxFileSize, path) { return Err(TooLarge); }
      if path !in files || f.rereadFails { return Err(ReadFailed); }
      var at := FindFrom(files[path], oldText, 0);
      if at.None? { return Err(NoMatch); }
      var edited := ReplaceAt(files[path], oldText, newText, at.value);
      if |edited| > maxFileSize { return Err(TooLarge); }
      if f.writeFails { return Err(WriteFailed); }
      assert FirstAt(files[path], oldText, at.value);
      files := files[path := edited];
      r := Ok(edited);
    }

    method DeleteFile(path: Path, f: Faults) returns (r: Result<()>)
      modifies this
      ensures match Delete(old(files), path, f)
              case Ok(files') => r == Ok(()) && files == files'
              case Err(e) => r == Err(e) && files == old(files)
    {
      if f.writeDenied { return Err(AccessDenied); }
      if path !in files || f.writeFails { return Err(WriteFailed); }
      files := files - {path};
      r := Ok(());
    }
  }

  class TrackedFileOperations {
    const ops: FileOperations
    const capacity: nat
    var entries: seq<Entry>

    constructor (ops: FileOperations, capacity: nat)
      ensures this.ops == ops && this.capacity == capacity && entries == []
    {
      this.ops := ops;
      this.capacity := capacity;
      entries := [];
    }

    ghost function View(): World
      reads this, ops
    {
      World(ops.files, entries)
    }

    ghost function Bounds(): Limits {
      Limits(ops.maxFileSize, capacity)
    }

    method RecordEntry(entry: Entry)
      modifies this
      ensures entries == Record(old(entries), entry, capacity)
    {
      if |entries| >= capacity && |entries| > 0 {
        entries := entries[1..];
      }
      entries := entries + [entry];
    }

    method CreateFile(path: Path, content: Content, f: Faults) returns (r: Result<()>)
      modifies this, ops
      ensures View() == Apply(old(View()), Bounds(), DoCreate(path, content), f)
      ensures match Perform(old(ops.files), ops.maxFileSize, DoCreate(path, content), f)
              case Done(_, _) => r == Ok(())
              case Failed(e) => r == Err(e)
    {
      r := ops.CreateFile(path, content, f);
      if r.Err? { return; }
      RecordEntry(Created(path, content));
    }

    method WriteFile(path: Path, content: Content, f: Faults) returns (r: Result<()>)
      modifies this, ops
      ensures View() == Apply(old(View()), Bounds(), DoWrite(path, content), f)
      ensures match Perform(old(ops.files), ops.maxFileSize, DoWrite(path, content), f)
              case Done(_, _) => r == Ok(())
              case Failed(e) => r == Err(e)
    {
      var before := Read(ops.files, ops.maxFileSize, path, f);
      if before.Err? { return Err(before.error); }
      r := ops.WriteFile(path, content, f);
      if r.Err? { return; }
      RecordEntry(Edited(path, before.value, content));
    }

    method EditFile(path: Path, oldText: Content, newText: Content, f: Faults) returns (r: Result<Content>)
      modifies this, ops
      ensures View() == Apply(old(View()), Bounds(), DoEdit(path, oldText, newText), f)
      ensures match Perform(old(ops.files), ops.maxFileSize, DoEdit(path, oldText, newText), f)
              case Done(files, _) => path in files && r == Ok(files[path])
              case Failed(e) => r == Err(e)
    {
      var before := Read(ops.files, ops.maxFileSize, path, f);
      if before.Err? { return Err(before.error); }
      r := ops.EditFile(path, oldText, newText, f);
      if r.Err? { return; }
      RecordEntry(Edited(path, before.value, r.value));
    }

    method DeleteFile(path: Path, f: Faults) returns (r: Result<()>)
      modifies this, ops
      ensures View() == Apply(old(View()), Bounds(), DoDelete(path), f)
      ensures match Perform(old(ops.files), ops.maxFileSize, DoDelete(path), f)
              case Done(_, _) => r == Ok(())
              case Failed(e) => r == Err(e)
    {
      var content := Read(ops.files, ops.maxFileSize, path, f);
      if content.Err? { return Err(content.error); }
      r := ops.DeleteFile(path, f);
      if r.Err? { return; }
      RecordEntry(Deleted(path, content.value));
    }

    /** Undo the newest entry; if that fails, put it back. */
    method UndoNewest(fails: bool) returns (result: UndoResult)
      requires entries != []
      modifies this, ops
      ensures match ApplyUndo(old(ops.files), Top(old(View())), fails)
              case None => View() == old(View()) && result == UndoResult(Top(old(View())), false)
              case Some(files) => View() == Below(old(View()), files) && result == UndoResult(Top(old(View())), true)
    {
      var last := |entries| - 1;
      var entry := entries[last];
      entries := entries[..last];
      var undone := ApplyUndo(ops.files, entry, fails);
      result := UndoResult(entry, undone.Some?);
      if undone.None? {
        entries := entries + [entry];
        assert entries == old(entries);
      } else {
        ops.files := undone.value;
      }
    }

    method UndoLast(count: nat, faults: seq<bool>) returns (results: seq<UndoResult>)
      modifies this, ops
      ensures View() == Undo(old(View()), count, faults).world
      ensures results == Undo(old(View()), count, faults).results
    {
      results := [];
      var actual := if count < |entries| then count else |entries|;
      var pending := faults;
      ghost var undo := Undo(View(), count, faults);
      var i := 0;
      while i < actual
        invariant i <= actual && actual - i <= |entries| && (count > actual ==> actual - i == |entries|)
        invariant Continues(undo, results, Undo(View(), count - i, pending))
      {
        UndoContinues(undo, results, View(), count - i, pending);
        var result := UndoNewest(NextFails(pending));
        results := results + [result];
        if !result.ok { return; }
        pending := Rest(pending);
        i := i + 1;
      }
    }
  }
}
