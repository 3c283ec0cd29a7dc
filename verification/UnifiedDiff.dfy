/** Building unified diffs from a grouped edit script.

    The edit script itself comes from a library; it is an input that has to satisfy `Covers`. */
module UnifiedDiff {

  datatype Tag = Equal | Insert | Delete | Replace

  /** An edit operation on the old lines `oldFrom..oldTo` and the new lines `newFrom..newTo`. */
  datatype Op = Op(tag: Tag, oldFrom: nat, oldTo: nat, newFrom: nat, newTo: nat)

  datatype DiffLine = Context(text: string) | Addition(text: string) | Removal(text: string)

  datatype Hunk = Hunk(oldStart: nat, oldCount: nat, newStart: nat, newCount: nat, lines: seq<DiffLine>)

  datatype Diff = Diff(isBinary: bool, hunks: seq<Hunk>, added: nat, removed: nat)

  /** A line without its trailing newlines. */
  function Text(line: string): string {
    if line != [] && line[|line| - 1] == '\n' then Text(line[..|line| - 1]) else line
  }

  function Texts(lines: seq<string>): (ts: seq<string>)
    ensures |ts| == |lines| && forall i | 0 <= i < |lines| :: ts[i] == Text(lines[i])
  {
    seq(|lines|, i requires 0 <= i < |lines| => Text(lines[i]))
  }

  /** The text that was split into the lines. */
  function Concat(lines: seq<string>): string {
    if lines == [] then "" else lines[0] + Concat(lines[1..])
  }

  /** The operation is within the files and, if it claims equality, the lines are equal. */
  predicate ValidOp(op: Op, old_: seq<string>, new_: seq<string>) {
    && op.oldFrom <= op.oldTo <= |old_|
    && op.newFrom <= op.newTo <= |new_|
    && match op.tag
       case Equal => old_[op.oldFrom..op.oldTo] == new_[op.newFrom..op.newTo]
       case Insert => op.oldFrom == op.oldTo
       case Delete => op.newFrom == op.newTo
       case Replace => true
  }

  /** The operations follow each other without a gap, starting at line `i` of the old and `j` of
      the new file. */
  predicate Contiguous(ops: seq<Op>, old_: seq<string>, new_: seq<string>, i: nat, j: nat)
    decreases ops
  {
    ops != [] ==>
      && ops[0].oldFrom == i && ops[0].newFrom == j
      && ValidOp(ops[0], old_, new_)
      && Contiguous(ops[1..], old_, new_, ops[0].oldTo, ops[0].newTo)
  }

  /** The group is contiguous, and only equal lines lie between line `i`, line `j` and its start. */
  predicate GroupFollows(g: seq<Op>, old_: seq<string>, new_: seq<string>, i: nat, j: nat) {
    && g != []
    && i <= g[0].oldFrom <= |old_| && j <= g[0].newFrom <= |new_|
    && old_[i..g[0].oldFrom] == new_[j..g[0].newFrom]
    && Contiguous(g, old_, new_, g[0].oldFrom, g[0].newFrom)
  }

  /** A grouped edit script: only equal lines lie outside the groups. */
  predicate Covers(groups: seq<seq<Op>>, old_: seq<string>, new_: seq<string>, i: nat, j: nat)
    decreases groups
  {
    if groups == [] then i <= |old_| && j <= |new_| && old_[i..] == new_[j..] else
    var g := groups[0];
    && GroupFollows(g, old_, new_, i, j)
    && Covers(groups[1..], old_, new_, g[|g| - 1].oldTo, g[|g| - 1].newTo)
  }

  function OldSide(lines: seq<DiffLine>): seq<string> {
    if lines == [] then []
    else (if lines[0].Addition? then [] else [lines[0].text]) + OldSide(lines[1..])
  }

  function NewSide(lines: seq<DiffLine>): seq<string> {
    if lines == [] then []
    else (if lines[0].Removal? then [] else [lines[0].text]) + NewSide(lines[1..])
  }

  function Additions(lines: seq<DiffLine>): nat {
    if lines == [] then 0 else (if lines[0].Addition? then 1 else 0) + Additions(lines[1..])
  }

  function Removals(lines: seq<DiffLine>): nat {
    if lines == [] then 0 else (if lines[0].Removal? then 1 else 0) + Removals(lines[1..])
  }

  function Unchanged(lines: seq<string>): seq<DiffLine> {
    if lines == [] then [] else [Context(Text(lines[0]))] + Unchanged(lines[1..])
  }

  function Removed(lines: seq<string>): seq<DiffLine> {
    if lines == [] then [] else [Removal(Text(lines[0]))] + Removed(lines[1..])
  }

  function Added(lines: seq<string>): seq<DiffLine> {
    if lines == [] then [] else [Addition(Text(lines[0]))] + Added(lines[1..])
  }

  /** The changes of one operation: what is deleted comes before what is inserted. */
  function OpLines(op: Op, old_: seq<string>, new_: seq<string>): seq<DiffLine> {
    if !ValidOp(op, old_, new_) then []
    else if op.tag.Equal? then Unchanged(old_[op.oldFrom..op.oldTo])
    else Removed(old_[op.oldFrom..op.oldTo]) + Added(new_[op.newFrom..op.newTo])
  }

  function GroupLines(ops: seq<Op>, old_: seq<string>, new_: seq<string>): seq<DiffLine> {
    if ops == [] then [] else OpLines(ops[0], old_, new_) + GroupLines(ops[1..], old_, new_)
  }

  /** The header of an empty file is `0,0`; other files count lines from 1. */
  function HunkOf(group: seq<Op>, old_: seq<string>, new_: seq<string>): Hunk
    requires group != []
  {
    var lines := GroupLines(group, old_, new_);
    var oldStart, newStart := group[0].oldFrom + 1, group[0].newFrom + 1;
    var noOld, noNew := old_ == [] && oldStart == 1, new_ == [] && newStart == 1;
    Hunk(if noOld then 0 else oldStart, if noOld then 0 else |OldSide(lines)|,
         if noNew then 0 else newStart, if noNew then 0 else |NewSide(lines)|, lines)
  }

  predicate NonEmpty(groups: seq<seq<Op>>) {
    forall k | 0 <= k < |groups| :: groups[k] != []
  }

  function HunksOf(groups: seq<seq<Op>>, old_: seq<string>, new_: seq<string>): seq<Hunk>
    requires NonEmpty(groups)
  {
    if groups == [] then [] else [HunkOf(groups[0], old_, new_)] + HunksOf(groups[1..], old_, new_)
  }

  function TotalAdditions(hunks: seq<Hunk>): nat {
    if hunks == [] then 0 else Additions(hunks[0].lines) + TotalAdditions(hunks[1..])
  }

  function TotalRemovals(hunks: seq<Hunk>): nat {
    if hunks == [] then 0 else Removals(hunks[0].lines) + TotalRemovals(hunks[1..])
  }

  function DiffOf(groups: seq<seq<Op>>, old_: seq<string>, new_: seq<string>): Diff
    requires NonEmpty(groups)
  {
    var hunks := HunksOf(groups, old_, new_);
    Diff(false, hunks, TotalAdditions(hunks), TotalRemovals(hunks))
  }

  lemma {:induction false} OldSideAppend(a: seq<DiffLine>, b: seq<DiffLine>)
    ensures OldSide(a + b) == OldSide(a) + OldSide(b)
    decreases |a|
  {
    if a == [] {
      assert a + b == b;
    } else {
      OldSideAppend(a[1..], b);
      assert (a + b)[1..] == a[1..] + b;
      var first := if a[0].Addition? then [] else [a[0].text];
      assert first + (OldSide(a[1..]) + OldSide(b)) == (first + OldSide(a[1..])) + OldSide(b);
    }
  }

  lemma {:induction false} NewSideAppend(a: seq<DiffLine>, b: seq<DiffLine>)
    ensures NewSide(a + b) == NewSide(a) + NewSide(b)
    decreases |a|
  {
    if a == [] {
      assert a + b == b;
    } else {
      NewSideAppend(a[1..], b);
      assert (a + b)[1..] == a[1..] + b;
      var first := if a[0].Removal? then [] else [a[0].text];
      assert first + (NewSide(a[1..]) + NewSide(b)) == (first + NewSide(a[1..])) + NewSide(b);
    }
  }

  lemma {:induction false} CountsAppend(a: seq<DiffLine>, b: seq<DiffLine>)
    ensures Additions(a + b) == Additions(a) + Additions(b)
    ensures Removals(a + b) == Removals(a) + Removals(b)
    decreases |a|
  {
    if a == [] {
      assert a + b == b;
    } else {
      CountsAppend(a[1..], b);
      assert (a + b)[1..] == a[1..] + b;
    }
  }

  lemma {:induction false} GroupLinesAppend(a: seq<Op>, op: Op, old_: seq<string>, new_: seq<string>)
    ensures GroupLines(a + [op], old_, new_) == GroupLines(a, old_, new_) + OpLines(op, old_, new_)
    decreases |a|
  {
    if a == [] {
      assert (a + [op])[1..] == [];
    } else {
      assert (a + [op])[1..] == a[1..] + [op];
      GroupLinesAppend(a[1..], op, old_, new_);
    }
  }

  lemma {:induction false} HunksAppend(a: seq<seq<Op>>, g: seq<Op>, old_: seq<string>, new_: seq<string>)
    requires NonEmpty(a) && g != []
    ensures HunksOf(a + [g], old_, new_) == HunksOf(a, old_, new_) + [HunkOf(g, old_, new_)]
    decreases |a|
  {
    if a == [] {
      assert (a + [g])[1..] == [];
    } else {
      assert (a + [g])[1..] == a[1..] + [g];
      HunksAppend(a[1..], g, old_, new_);
    }
  }

  lemma {:induction false} TotalsAppend(hunks: seq<Hunk>, h: Hunk)
    ensures TotalAdditions(hunks + [h]) == TotalAdditions(hunks) + Additions(h.lines)
    ensures TotalRemovals(hunks + [h]) == TotalRemovals(hunks) + Removals(h.lines)
    decreases |hunks|
  {
    if hunks == [] {
      assert (hunks + [h])[1..] == [];
    } else {
      assert (hunks + [h])[1..] == hunks[1..] + [h];
      TotalsAppend(hunks[1..], h);
    }
  }

  /** One growing hunk: its lines and the counters kept beside them. */
  datatype Builder = Builder(lines: seq<DiffLine>, oldCount: nat, newCount: nat, added: nat, removed: nat) {
    ghost predicate Counts() {
      && oldCount == |OldSide(lines)| && newCount == |NewSide(lines)|
      && added == Additions(lines) && removed == Removals(lines)
    }
  }

  method AddChange(b: Builder, line: DiffLine) returns (b': Builder)
    requires b.Counts()
    ensures b'.Counts() && b'.lines == b.lines + [line]
  {
    OldSideAppend(b.lines, [line]);
    NewSideAppend(b.lines, [line]);
    CountsAppend(b.lines, [line]);
    match line {
      case Context(_) =>
        b' := Builder(b.lines + [line], b.oldCount + 1, b.newCount + 1, b.added, b.removed);
      case Addition(_) =>
        b' := Builder(b.lines + [line], b.oldCount, b.newCount + 1, b.added + 1, b.removed);
      case Removal(_) =>
        b' := Builder(b.lines + [line], b.oldCount + 1, b.newCount, b.added, b.removed + 1);
    }
  }

  method AddChanges(b: Builder, changes: seq<DiffLine>) returns (b': Builder)
    requires b.Counts()
    ensures b'.Counts() && b'.lines == b.lines + changes
  {
    b' := b;
    for i := 0 to |changes|
      invariant b'.Counts() && b'.lines == b.lines + changes[..i]
    {
      b' := AddChange(b', changes[i]);
    }
  }

  method BuildHunk(group: seq<Op>, old_: seq<string>, new_: seq<string>) returns (h: Hunk, added: nat, removed: nat)
    requires group != []
    ensures h == HunkOf(group, old_, new_)
    ensures added == Additions(h.lines) && removed == Removals(h.lines)
  {
    var b := Builder([], 0, 0, 0, 0);
    var oldStart, newStart, first := 0, 0, true;
    for k := 0 to |group|
      invariant b.Counts() && b.lines == GroupLines(group[..k], old_, new_)
      invariant first == (k == 0)
      invariant !first ==> oldStart == group[0].oldFrom + 1 && newStart == group[0].newFrom + 1
    {
      var op := group[k];
      if first {
        oldStart, newStart, first := op.oldFrom + 1, op.newFrom + 1, false;
      }
      b := AddChanges(b, OpLines(op, old_, new_));
      assert group[..k + 1] == group[..k] + [op];
      GroupLinesAppend(group[..k], op, old_, new_);
    }
    assert group[..|group|] == group;
    var oldCount, newCount := b.oldCount, b.newCount;
    if |old_| == 0 && oldStart == 1 {
      oldStart, oldCount := 0, 0;
    }
    if |new_| == 0 && newStart == 1 {
      newStart, newCount := 0, 0;
    }
    h := Hunk(oldStart, oldCount, newStart, newCount, b.lines);
    added, removed := b.added, b.removed;
  }

  method GenerateUnifiedDiff(groups: seq<seq<Op>>, old_: seq<string>, new_: seq<string>) returns (d: Diff)
    requires NonEmpty(groups)
    ensures d == DiffOf(groups, old_, new_)
  {
    var hunks: seq<Hunk> := [];
    var added, removed := 0, 0;
    for k := 0 to |groups|
      invariant hunks == HunksOf(groups[..k], old_, new_)
      invariant added == TotalAdditions(hunks) && removed == TotalRemovals(hunks)
    {
      var h, a, r := BuildHunk(groups[k], old_, new_);
      assert groups[..k + 1] == groups[..k] + [groups[k]];
      HunksAppend(groups[..k], groups[k], old_, new_);
      TotalsAppend(hunks, h);
      hunks := hunks + [h];
      added, removed := added + a, removed + r;
    }
    assert groups[..|groups|] == groups;
    d := Diff(false, hunks, added, removed);
  }
}
