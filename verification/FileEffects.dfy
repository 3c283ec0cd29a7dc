/** What the file operations and their undo do to the files, operation by operation. */
module FileEffects {
  import opened Common
  import opened FileStore
  import opened UndoHistory
  import opened UndoProperties

  /** The tracked operations read their file first. */
  predicate Readable(files: Files, maxSize: nat, path: Path, f: Faults) {
    path in files && |files[path]| <= maxSize && !f.readDenied && !f.readFails
  }

  ghost predicate Occurs(text: Content, pattern: Content) {
    exists i :: OccursAt(text, pattern, i)
  }

  /** The files and the recorded entry after each operation that succeeds. */
  lemma PerformEffect(files: Files, maxSize: nat, op: Op, f: Faults)
    requires Perform(files, maxSize, op, f).Done?
    ensures var Done(after, entry) := Perform(files, maxSize, op, f);
            match op
            case DoCreate(path, content) => after == files[path := content] && entry == Created(path, content)
            case DoWrite(path, content) =>
              path in files && after == files[path := content] && entry == Edited(path, files[path], content)
            case DoEdit(path, oldText, newText) =>
              && path in files && path in after
              && Replaced(files[path], oldText, newText, after[path])
              && after == files[path := after[path]]
              && entry == Edited(path, files[path], after[path])
            case DoDelete(path) =>
              path in files && after == files - {path} && entry == Deleted(path, files[path])
  {
    if op.DoEdit? {
      var at := FindFrom(files[op.path], op.oldText, 0);
      assert FirstAt(files[op.path], op.oldText, at.value);
    }
  }

  lemma FindsIffOccurs(text: Content, pattern: Content)
    ensures FindFrom(text, pattern, 0).Some? <==> Occurs(text, pattern)
  {
  }

  /** The size of the file that the operation writes. */
  function NewSize(files: Files, op: Op): int {
    match op
    case DoCreate(_, content) => |content|
    case DoWrite(_, content) => |content|
    case DoEdit(path, oldText, newText) => if path in files then |files[path]| - |oldText| + |newText| else 0
    case DoDelete(_) => 0
  }

  /** The exact conditions for each error of a tracked operation. */
  lemma PerformFailsWith(files: Files, maxSize: nat, op: Op, f: Faults)
    ensures var outcome, readable := Perform(files, maxSize, op, f), Readable(files, maxSize, op.path, f);
            var rereadable := readable && !f.writeDenied && (op.DoEdit? ==> !f.rereadFails);
            var found := op.DoEdit? && op.path in files && Occurs(files[op.path], op.oldText);
            && (outcome == Failed(NoMatch) <==> op.DoEdit? && rereadable && !found)
            && (outcome == Failed(ReadFailed) <==>
                  && !op.DoCreate? && !f.readDenied
                  && (op.path !in files || (|files[op.path]| <= maxSize && f.readFails)
                      || (readable && op.DoEdit? && !f.writeDenied && f.rereadFails)))
            && (outcome == Failed(AccessDenied) <==>
                  if op.DoCreate? then NewSize(files, op) <= maxSize && f.writeDenied
                  else f.readDenied || (readable && f.writeDenied && (op.DoWrite? ==> NewSize(files, op) <= maxSize)))
            && (outcome == Failed(TooLarge) <==>
                  || (op.DoCreate? && NewSize(files, op) > maxSize)
                  || (!op.DoCreate? && !f.readDenied && op.path in files && |files[op.path]| > maxSize)
                  || (op.DoWrite? && readable && NewSize(files, op) > maxSize)
                  || (found && rereadable && NewSize(files, op) > maxSize))
            && (outcome == Failed(WriteFailed) <==>
                  && f.writeFails && !f.writeDenied && NewSize(files, op) <= maxSize
                  && (op.DoCreate? || rereadable) && (op.DoEdit? ==> found))
  {
    if op.DoEdit? && op.path in files {
      FindsIffOccurs(files[op.path], op.oldText);
    }
  }

  /** A successful operation adds its entry to the newest ones kept; a failing one changes nothing. */
  lemma ApplyEffect(w: World, limits: Limits, op: Op, f: Faults)
    requires |w.entries| <= Max(limits.capacity, 1)
    ensures match Perform(w.files, limits.maxFileSize, op, f)
            case Failed(_) => Apply(w, limits, op, f) == w
            case Done(files, entry) =>
              var w', all := Apply(w, limits, op, f), w.entries + [entry];
              && w'.files == files
              && |w'.entries| == Min(|all|, Max(limits.capacity, 1)) && w'.entries == all[|all| - |w'.entries|..]
  {
    var outcome := Perform(w.files, limits.maxFileSize, op, f);
    if outcome.Done? {
      RecordKeepsNewest(w.entries, outcome.entry, limits.capacity);
    }
  }

  /** Undoing an entry removes the file again or puts the old content back, fails only for an I/O error
      or because a created file is gone, and touches no other file. */
  lemma UndoEffect(files: Files, entry: Entry, fails: bool, path: Path)
    ensures ApplyUndo(files, entry, fails).None? <==> fails || (entry.Created? && entry.path !in files)
    ensures ApplyUndo(files, entry, fails).Some? ==>
              var undone := ApplyUndo(files, entry, fails).value;
              if path != entry.path then FileAt(undone, path) == FileAt(files, path)
              else FileAt(undone, path) == match entry
                                           case Created(_, _) => None
                                           case Edited(_, before, _) => Some(before)
                                           case Deleted(_, content) => Some(content)
  {
  }

  function FileAt(files: Files, path: Path): Option<Content> {
    if path in files then Some(files[path]) else None
  }

  // The same operations without the history.

  lemma CreateEffect(files: Files, maxSize: nat, path: Path, content: Content, f: Faults)
    ensures var r := Create(files, maxSize, path, content, f);
            && (r == Err(TooLarge) <==> |content| > maxSize)
            && (r == Err(AccessDenied) <==> |content| <= maxSize && f.writeDenied)
            && (r == Err(WriteFailed) <==> |content| <= maxSize && !f.writeDenied && f.writeFails)
            && (r.Ok? <==> |content| <= maxSize && !f.writeDenied && !f.writeFails)
            && (r.Ok? ==> forall p :: FileAt(r.value, p) == if p == path then Some(content) else FileAt(files, p))
  {
  }

  /** Writing does not need an existing file, but an existing one that is too large is not overwritten. */
  lemma WriteEffect(files: Files, maxSize: nat, path: Path, content: Content, f: Faults)
    ensures var r := Write(files, maxSize, path, content, f);
            var large := path in files && |files[path]| > maxSize;
            && (r == Err(TooLarge) <==> |content| > maxSize || (!f.writeDenied && large))
            && (r == Err(AccessDenied) <==> |content| <= maxSize && f.writeDenied)
            && (r == Err(WriteFailed) <==> |content| <= maxSize && !f.writeDenied && !large && f.writeFails)
            && (r.Ok? <==> |content| <= maxSize && !f.writeDenied && !large && !f.writeFails)
            && (r.Ok? ==> forall p :: FileAt(r.value, p) == if p == path then Some(content) else FileAt(files, p))
  {
  }

  lemma EditEffect(files: Files, maxSize: nat, path: Path, oldText: Content, newText: Content, f: Faults)
    ensures var r := Edit(files, maxSize, path, oldText, newText, f);
            var open := !f.writeDenied && path in files && |files[path]| <= maxSize && !f.rereadFails;
            var size := if path in files then |files[path]| - |oldText| + |newText| else 0;
            && (r == Err(AccessDenied) <==> f.writeDenied)
            && (r == Err(ReadFailed) <==>
                  !f.writeDenied && (path !in files || (|files[path]| <= maxSize && f.rereadFails)))
            && (r == Err(NoMatch) <==> open && !Occurs(files[path], oldText))
            && (r == Err(TooLarge) <==>
                  || (!f.writeDenied && path in files && |files[path]| > maxSize)
                  || (open && Occurs(files[path], oldText) && size > maxSize))
            && (r == Err(WriteFailed) <==> open && Occurs(files[path], oldText) && size <= maxSize && f.writeFails)
            && (r.Ok? ==> open && Replaced(files[path], oldText, newText, r.value))
  {
    if path in files {
      FindsIffOccurs(files[path], oldText);
      var at := FindFrom(files[path], oldText, 0);
      if at.Some? {
        assert FirstAt(files[path], oldText, at.value);
      }
    }
  }

  lemma DeleteEffect(files: Files, path: Path, f: Faults)
    ensures var r := Delete(files, path, f);
            && (r == Err(AccessDenied) <==> f.writeDenied)
            && (r == Err(WriteFailed) <==> !f.writeDenied && (path !in files || f.writeFails))
            && (r.Ok? <==> !f.writeDenied && path in files && !f.writeFails)
            && (r.Ok? ==> forall p :: FileAt(r.value, p) == if p == path then None else FileAt(files, p))
  {
  }
}
