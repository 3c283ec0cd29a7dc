/** Tracking of file changes over a session, for cumulative diffs. */
module ChangeTracker {
  import opened Common
  import opened UnifiedDiff
  import opened DiffProperties

  type Path = string

  const BINARY_CHECK_SIZE: nat := 8192

  datatype FileState = FileState(original: Option<string>, current: Option<string>, isBinary: bool)

  datatype Change = Change(path: Path, before: Option<string>, after: Option<string>, isBinary: bool)

  predicate IsBinaryContent(content: string) {
    '\0' in content[..if |content| < BINARY_CHECK_SIZE then |content| else BINARY_CHECK_SIZE]
  }

  predicate IsBinary(content: Option<string>) {
    content.Some? && IsBinaryContent(content.value)
  }

  function ContentOrEmpty(content: Option<string>): string {
    if content.Some? then content.value else ""
  }

  /** The first change of a file fixes its original state, every change its current one. */
  function Track(states: map<Path, FileState>, c: Change): map<Path, FileState> {
    var state := if c.path in states then states[c.path] else FileState(c.before, None, c.isBinary);
    states[c.path := FileState(state.original, c.after, state.isBinary || c.isBinary)]
  }

  function Replay(changes: seq<Change>): map<Path, FileState> {
    if changes == [] then map[] else Track(Replay(changes[..|changes| - 1]), changes[|changes| - 1])
  }

  lemma ReplayNext(changes: seq<Change>, c: Change)
    ensures Replay(changes + [c]) == Track(Replay(changes), c)
  {
    assert (changes + [c])[..|changes|] == changes;
  }

  /** The changes of one file, in order. */
  function Of(changes: seq<Change>, path: Path): seq<Change> {
    if changes == [] then [] else
    var last := changes[|changes| - 1];
    Of(changes[..|changes| - 1], path) + (if last.path == path then [last] else [])
  }

  predicate AnyBinary(changes: seq<Change>) {
    exists i :: 0 <= i < |changes| && changes[i].isBinary
  }

  lemma AnyBinaryAppend(changes: seq<Change>, c: Change)
    ensures AnyBinary(changes + [c]) <==> AnyBinary(changes) || c.isBinary
  {
    var more := changes + [c];
    assert more[|changes|] == c;
    if i :| 0 <= i < |changes| && changes[i].isBinary {
      assert more[i] == changes[i];
    }
  }

  /** However the changes of different files interleave, the state of a file spans its own changes:
      from what was before the first to what came after the last. */
  lemma {:induction false} StateSpansSession(changes: seq<Change>, path: Path)
    ensures var own := Of(changes, path);
            && (path in Replay(changes) <==> own != [])
            && (own != [] ==>
                  Replay(changes)[path] == FileState(own[0].before, own[|own| - 1].after, AnyBinary(own)))
  {
    if changes != [] {
      var init, last := changes[..|changes| - 1], changes[|changes| - 1];
      StateSpansSession(init, path);
      var own := Of(init, path);
      if last.path == path {
        AnyBinaryAppend(own, last);
      } else {
        assert own + [] == own;
      }
    }
  }

  /** What the diff library returns for two texts: their lines and a grouped edit script. */
  datatype Script = Script(oldLines: seq<string>, newLines: seq<string>, groups: seq<seq<Op>>) {
    predicate For(oldText: string, newText: string) {
      && Concat(oldLines) == oldText && Concat(newLines) == newText
      && NonEmpty(groups) && Covers(groups, oldLines, newLines, 0, 0)
    }
  }

  /** The diff leads from the text before the first of the changes to the text after the last one;
      for binary content it has no hunks. */
  predicate SpansSession(own: seq<Change>, script: Script, d: Diff) {
    && own != []
    && script.For(ContentOrEmpty(own[0].before), ContentOrEmpty(own[|own| - 1].after))
    && d.isBinary == AnyBinary(own)
    && d.added == |AddedAt(AllLines(d.hunks))| && d.removed == |RemovedAt(AllLines(d.hunks))|
    && if d.isBinary then d.hunks == []
       else
         && d.hunks == HunksOf(script.groups, script.oldLines, script.newLines)
         && Patch(Texts(script.oldLines), d.hunks, 0) == Some(Texts(script.newLines))
  }

  lemma DiffSpansSession(own: seq<Change>, script: Script)
    requires own != [] && !AnyBinary(own)
    requires script.For(ContentOrEmpty(own[0].before), ContentOrEmpty(own[|own| - 1].after))
    ensures SpansSession(own, script, DiffOf(script.groups, script.oldLines, script.newLines))
  {
    DiffPreservesMeaning(script.groups, script.oldLines, script.newLines);
    TotalsAreNumbers(script.groups, script.oldLines, script.newLines);
  }

  lemma EmptyDiffSpansSession(own: seq<Change>, script: Script)
    requires own != [] && AnyBinary(own)
    requires script.For(ContentOrEmpty(own[0].before), ContentOrEmpty(own[|own| - 1].after))
    ensures SpansSession(own, script, Diff(true, [], 0, 0))
  {
    CountersAreNumbers([]);
  }

  /** Content is binary exactly if one of its first 8192 bytes is zero; a file that is not there is not,
      and counts as empty. */
  lemma BinaryIff(content: Option<string>)
    ensures IsBinary(content) <==>
            content.Some? && exists i | 0 <= i < |content.value| && i < 8192 :: content.value[i] == '\0'
    ensures content == Some(ContentOrEmpty(content)) || (content.None? && ContentOrEmpty(content) == "")
  {
    if content.Some? {
      var text := content.value;
      var start := text[..if |text| < 8192 then |text| else 8192];
      if i :| 0 <= i < |text| && i < 8192 && text[i] == '\0' {
        assert start[i] == '\0';
      }
    }
  }

  class Tracker {
    var fileStates: map<Path, FileState>
    var modifications: seq<Change>

    ghost predicate Valid()
      reads this
    {
      fileStates == Replay(modifications)
    }

    constructor ()
      ensures Valid() && modifications == []
    {
      fileStates, modifications := map[], [];
    }

    method RecordChange(path: Path, before: Option<string>, after: Option<string>)
      requires Valid()
      modifies this
      ensures Valid()
      ensures modifications == old(modifications) + [Change(path, before, after, IsBinary(before) || IsBinary(after))]
    {
      var isBinary := IsBinary(before) || IsBinary(after);
      var change := Change(path, before, after, isBinary);
      ReplayNext(modifications, change);
      if path !in fileStates {
        fileStates := fileStates[path := FileState(before, None, isBinary)];
      }
      var state := fileStates[path];
      fileStates := fileStates[path := FileState(state.original, after, state.isBinary || isBinary)];
      assert fileStates == Track(old(fileStates), change);
      modifications := modifications + [change];
    }

    method Clear()
      modifies this
      ensures Valid() && modifications == []
    {
      fileStates, modifications := map[], [];
    }

    /** The cumulative diff of a file turns its text before the first change of the session into its
        text after the last one. */
    method GetCumulativeDiff(path: Path, script: Script) returns (r: Option<Diff>)
      requires Valid()
      requires path in fileStates ==>
                 script.For(ContentOrEmpty(fileStates[path].original), ContentOrEmpty(fileStates[path].current))
      ensures r.None? <==> Of(modifications, path) == []
      ensures r.Some? ==> SpansSession(Of(modifications, path), script, r.value)
    {
      StateSpansSession(modifications, path);
      if path !in fileStates { return None; }
      if fileStates[path].isBinary {
        EmptyDiffSpansSession(Of(modifications, path), script);
        return Some(Diff(true, [], 0, 0));
      }
      DiffSpansSession(Of(modifications, path), script);
      var d := GenerateUnifiedDiff(script.groups, script.oldLines, script.newLines);
      return Some(d);
    }
  }
}
