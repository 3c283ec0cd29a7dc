/** A unified diff means what it says: its headers name the lines they claim, and applying it turns
    the old text into the new one, and back. */
module DiffProperties {
  import opened Common
  import opened UnifiedDiff

  /** The 0-based position that a header start stands for. */
  function At(start: nat): nat {
    if start == 0 then 0 else start - 1
  }

  /** `lines` are the `count` lines of `text` from the header's `start` on; exactly an empty file starts at 0. */
  predicate Denotes(start: nat, count: nat, lines: seq<string>, text: seq<string>) {
    && At(start) + count <= |text|
    && lines == text[At(start)..At(start) + count]
    && (start == 0 <==> text == [])
  }

  predicate HunkAgrees(h: Hunk, old_: seq<string>, new_: seq<string>) {
    Denotes(h.oldStart, h.oldCount, OldSide(h.lines), old_) && Denotes(h.newStart, h.newCount, NewSide(h.lines), new_)
  }

  /** Between line `i` of the old, line `j` of the new text and the hunk, nothing differs. */
  predicate HunkFits(h: Hunk, old_: seq<string>, new_: seq<string>, i: nat, j: nat) {
    && HunkAgrees(h, old_, new_)
    && i <= At(h.oldStart) && j <= At(h.newStart)
    && old_[i..At(h.oldStart)] == new_[j..At(h.newStart)]
  }

  /** From line `i` of the old and `j` of the new text on, the hunks account for all differences. */
  predicate Aligned(hunks: seq<Hunk>, old_: seq<string>, new_: seq<string>, i: nat, j: nat)
    decreases hunks
  {
    if hunks == [] then i <= |old_| && j <= |new_| && old_[i..] == new_[j..] else
    var h := hunks[0];
    && HunkFits(h, old_, new_, i, j)
    && Aligned(hunks[1..], old_, new_, At(h.oldStart) + h.oldCount, At(h.newStart) + h.newCount)
  }

  // How a patch tool applies hunks, checking every context and removed line.

  datatype Patched = Mismatch | Applied(output: seq<string>, next: nat)

  function PatchLines(text: seq<string>, at: nat, lines: seq<DiffLine>): Patched
    decreases lines
  {
    if lines == [] then Applied([], at)
    else if lines[0].Addition? then
      match PatchLines(text, at, lines[1..])
      case Mismatch => Mismatch
      case Applied(output, next) => Applied([lines[0].text] + output, next)
    else if at < |text| && text[at] == lines[0].text then
      match PatchLines(text, at + 1, lines[1..])
      case Mismatch => Mismatch
      case Applied(output, next) => Applied((if lines[0].Context? then [lines[0].text] else []) + output, next)
    else Mismatch
  }

  function Patch(text: seq<string>, hunks: seq<Hunk>, from: nat): Option<seq<string>>
    requires from <= |text|
    decreases hunks
  {
    if hunks == [] then Some(text[from..]) else
    var start := At(hunks[0].oldStart);
    if !(from <= start <= |text|) then None else
    match PatchLines(text, start, hunks[0].lines)
    case Mismatch => None
    case Applied(output, next) =>
      if next > |text| then None else
      match Patch(text, hunks[1..], next)
      case None => None
      case Some(more) => Some(text[from..start] + output + more)
  }

  function FlipLine(line: DiffLine): DiffLine {
    match line
    case Context(_) => line
    case Addition(text) => Removal(text)
    case Removal(text) => Addition(text)
  }

  function FlipLines(lines: seq<DiffLine>): seq<DiffLine> {
    if lines == [] then [] else [FlipLine(lines[0])] + FlipLines(lines[1..])
  }

  function FlipHunk(h: Hunk): Hunk {
    Hunk(h.newStart, h.newCount, h.oldStart, h.oldCount, FlipLines(h.lines))
  }

  /** The same diff read backwards. */
  function Flip(hunks: seq<Hunk>): seq<Hunk> {
    if hunks == [] then [] else [FlipHunk(hunks[0])] + Flip(hunks[1..])
  }

  lemma {:induction false} MarkedSides(lines: seq<string>)
    ensures OldSide(Unchanged(lines)) == NewSide(Unchanged(lines)) == Texts(lines)
    ensures OldSide(Removed(lines)) == Texts(lines) && NewSide(Removed(lines)) == []
    ensures OldSide(Added(lines)) == [] && NewSide(Added(lines)) == Texts(lines)
  {
    if lines != [] {
      MarkedSides(lines[1..]);
      assert Texts(lines) == [Text(lines[0])] + Texts(lines[1..]);
    }
  }

  lemma TextsOfSlice(lines: seq<string>, from: nat, to: nat)
    requires from <= to <= |lines|
    ensures Texts(lines)[from..to] == Texts(lines[from..to])
  {
  }

  lemma OpSides(op: Op, old_: seq<string>, new_: seq<string>)
    requires ValidOp(op, old_, new_)
    ensures OldSide(OpLines(op, old_, new_)) == Texts(old_)[op.oldFrom..op.oldTo]
    ensures NewSide(OpLines(op, old_, new_)) == Texts(new_)[op.newFrom..op.newTo]
  {
    var before, after := old_[op.oldFrom..op.oldTo], new_[op.newFrom..op.newTo];
    MarkedSides(before);
    MarkedSides(after);
    OldSideAppend(Removed(before), Added(after));
    NewSideAppend(Removed(before), Added(after));
    TextsOfSlice(old_, op.oldFrom, op.oldTo);
    TextsOfSlice(new_, op.newFrom, op.newTo);
  }

  lemma JoinSlices(lines: seq<string>, a: nat, b: nat, c: nat)
    requires a <= b <= c <= |lines|
    ensures lines[a..b] + lines[b..c] == lines[a..c]
  {
  }

  lemma {:induction false} GroupSides(ops: seq<Op>, old_: seq<string>, new_: seq<string>, i: nat, j: nat)
    requires ops != [] && Contiguous(ops, old_, new_, i, j)
    ensures var last := ops[|ops| - 1];
            && i <= last.oldTo <= |old_| && j <= last.newTo <= |new_|
            && OldSide(GroupLines(ops, old_, new_)) == Texts(old_)[i..last.oldTo]
            && NewSide(GroupLines(ops, old_, new_)) == Texts(new_)[j..last.newTo]
    decreases |ops|
  {
    var op, rest, last := ops[0], ops[1..], ops[|ops| - 1];
    OpSides(op, old_, new_);
    OldSideAppend(OpLines(op, old_, new_), GroupLines(rest, old_, new_));
    NewSideAppend(OpLines(op, old_, new_), GroupLines(rest, old_, new_));
    if rest == [] {
      assert GroupLines(rest, old_, new_) == [];
    } else {
      GroupSides(rest, old_, new_, op.oldTo, op.newTo);
      JoinSlices(Texts(old_), i, op.oldTo, last.oldTo);
      JoinSlices(Texts(new_), j, op.newTo, last.newTo);
    }
  }

  /** The hunk agrees with the texts and stands where the group does. */
  predicate HunkMatches(h: Hunk, g: seq<Op>, old_: seq<string>, new_: seq<string>) {
    && g != []
    && HunkAgrees(h, old_, new_)
    && At(h.oldStart) == g[0].oldFrom && At(h.oldStart) + h.oldCount == g[|g| - 1].oldTo
    && At(h.newStart) == g[0].newFrom && At(h.newStart) + h.newCount == g[|g| - 1].newTo
  }

  lemma HunkSides(group: seq<Op>, old_: seq<string>, new_: seq<string>)
    requires group != [] && Contiguous(group, old_, new_, group[0].oldFrom, group[0].newFrom)
    ensures HunkMatches(HunkOf(group, old_, new_), group, Texts(old_), Texts(new_))
  {
    GroupSides(group, old_, new_, group[0].oldFrom, group[0].newFrom);
  }

  lemma EqualTexts(old_: seq<string>, new_: seq<string>, i: nat, i': nat, j: nat, j': nat)
    requires i <= i' <= |old_| && j <= j' <= |new_| && old_[i..i'] == new_[j..j']
    ensures Texts(old_)[i..i'] == Texts(new_)[j..j']
  {
    TextsOfSlice(old_, i, i');
    TextsOfSlice(new_, j, j');
  }

  lemma TailIsEqual(old_: seq<string>, new_: seq<string>, i: nat, j: nat)
    requires i <= |old_| && j <= |new_| && old_[i..] == new_[j..]
    ensures Texts(old_)[i..] == Texts(new_)[j..]
  {
    EqualTexts(old_, new_, i, |old_|, j, |new_|);
  }

  lemma GroupFits(h: Hunk, g: seq<Op>, old_: seq<string>, new_: seq<string>, i: nat, j: nat)
    requires GroupFollows(g, old_, new_, i, j) && HunkMatches(h, g, Texts(old_), Texts(new_))
    ensures HunkFits(h, Texts(old_), Texts(new_), i, j)
  {
    EqualTexts(old_, new_, i, g[0].oldFrom, j, g[0].newFrom);
  }

  lemma AlignedCons(h: Hunk, rest: seq<Hunk>, old_: seq<string>, new_: seq<string>, i: nat, j: nat)
    requires HunkFits(h, old_, new_, i, j)
    requires Aligned(rest, old_, new_, At(h.oldStart) + h.oldCount, At(h.newStart) + h.newCount)
    ensures Aligned([h] + rest, old_, new_, i, j)
  {
    assert ([h] + rest)[1..] == rest;
  }

  /** Hunks that match the groups of an edit script account for all differences. */
  lemma {:induction false} MatchingIsAligned(
    groups: seq<seq<Op>>, hunks: seq<Hunk>, old_: seq<string>, new_: seq<string>, i: nat, j: nat)
    requires Covers(groups, old_, new_, i, j) && |hunks| == |groups|
    requires forall k | 0 <= k < |groups| :: HunkMatches(hunks[k], groups[k], Texts(old_), Texts(new_))
    ensures Aligned(hunks, Texts(old_), Texts(new_), i, j)
    decreases |groups|
  {
    if groups == [] {
      TailIsEqual(old_, new_, i, j);
    } else {
      var g, h := groups[0], hunks[0];
      assert HunkMatches(h, g, Texts(old_), Texts(new_));
      MatchingIsAligned(groups[1..], hunks[1..], old_, new_, g[|g| - 1].oldTo, g[|g| - 1].newTo);
      GroupFits(h, g, old_, new_, i, j);
    }
  }

  lemma {:induction false} HunksMatch(
    groups: seq<seq<Op>>, old_: seq<string>, new_: seq<string>, i: nat, j: nat, k: nat)
    requires NonEmpty(groups) && Covers(groups, old_, new_, i, j) && k < |groups|
    ensures var hunks := HunksOf(groups, old_, new_);
            |hunks| == |groups| && HunkMatches(hunks[k], groups[k], Texts(old_), Texts(new_))
    decreases |groups|
  {
    var g, rest := groups[0], groups[1..];
    HunksAreAsMany(groups, old_, new_);
    if k == 0 {
      HunkSides(g, old_, new_);
    } else {
      HunksMatch(rest, old_, new_, g[|g| - 1].oldTo, g[|g| - 1].newTo, k - 1);
    }
  }

  lemma {:induction false} HunksAreAsMany(groups: seq<seq<Op>>, old_: seq<string>, new_: seq<string>)
    requires NonEmpty(groups)
    ensures |HunksOf(groups, old_, new_)| == |groups|
    decreases |groups|
  {
    if groups != [] {
      HunksAreAsMany(groups[1..], old_, new_);
    }
  }

  lemma CoversIsAligned(groups: seq<seq<Op>>, old_: seq<string>, new_: seq<string>)
    requires NonEmpty(groups) && Covers(groups, old_, new_, 0, 0)
    ensures Aligned(HunksOf(groups, old_, new_), Texts(old_), Texts(new_), 0, 0)
  {
    var hunks := HunksOf(groups, old_, new_);
    HunksAreAsMany(groups, old_, new_);
    forall k | 0 <= k < |groups|
      ensures HunkMatches(hunks[k], groups[k], Texts(old_), Texts(new_))
    {
      HunksMatch(groups, old_, new_, 0, 0, k);
    }
    MatchingIsAligned(groups, hunks, old_, new_, 0, 0);
  }

  /** Lines whose old side is what stands at `at` apply there and leave their new side. */
  lemma {:induction false} PatchLinesBySides(text: seq<string>, at: nat, lines: seq<DiffLine>)
    requires at + |OldSide(lines)| <= |text| && OldSide(lines) == text[at..at + |OldSide(lines)|]
    ensures PatchLines(text, at, lines) == Applied(NewSide(lines), at + |OldSide(lines)|)
    decreases |lines|
  {
    if lines != [] {
      var rest := OldSide(lines[1..]);
      if lines[0].Addition? {
        assert OldSide(lines) == rest;
        PatchLinesBySides(text, at, lines[1..]);
      } else {
        assert text[at..at + |OldSide(lines)|][0] == text[at];
        assert rest == OldSide(lines)[1..] == text[at + 1..at + 1 + |rest|];
        PatchLinesBySides(text, at + 1, lines[1..]);
      }
    }
  }

  lemma SplitInThree(text: seq<string>, i: nat, j: nat, k: nat)
    requires i <= j <= k <= |text|
    ensures text[i..] == text[i..j] + text[j..k] + text[k..]
  {
  }

  lemma PatchFitting(hunks: seq<Hunk>, old_: seq<string>, new_: seq<string>, i: nat, j: nat)
    requires hunks != [] && HunkFits(hunks[0], old_, new_, i, j)
    requires var a, b := At(hunks[0].oldStart) + hunks[0].oldCount, At(hunks[0].newStart) + hunks[0].newCount;
             Patch(old_, hunks[1..], a) == Some(new_[b..])
    ensures Patch(old_, hunks, i) == Some(new_[j..])
  {
    var h := hunks[0];
    PatchLinesBySides(old_, At(h.oldStart), h.lines);
    SplitInThree(new_, j, At(h.newStart), At(h.newStart) + h.newCount);
  }

  lemma {:induction false} AlignedApplies(hunks: seq<Hunk>, old_: seq<string>, new_: seq<string>, i: nat, j: nat)
    requires Aligned(hunks, old_, new_, i, j) && i <= |old_| && j <= |new_|
    ensures Patch(old_, hunks, i) == Some(new_[j..])
    decreases |hunks|
  {
    if hunks != [] {
      var h := hunks[0];
      var a, b := At(h.oldStart), At(h.newStart);
      AlignedApplies(hunks[1..], old_, new_, a + h.oldCount, b + h.newCount);
      PatchFitting(hunks, old_, new_, i, j);
    }
  }

  lemma {:induction false} FlipSides(lines: seq<DiffLine>)
    ensures OldSide(FlipLines(lines)) == NewSide(lines) && NewSide(FlipLines(lines)) == OldSide(lines)
  {
    if lines != [] {
      FlipSides(lines[1..]);
    }
  }

  lemma FlipFits(h: Hunk, old_: seq<string>, new_: seq<string>, i: nat, j: nat)
    requires HunkFits(h, old_, new_, i, j)
    ensures HunkFits(FlipHunk(h), new_, old_, j, i)
  {
    FlipSides(h.lines);
  }

  lemma FlippedCons(h: Hunk, flipped: seq<Hunk>, old_: seq<string>, new_: seq<string>, i: nat, j: nat)
    requires HunkFits(h, old_, new_, i, j)
    requires Aligned(flipped, new_, old_, At(h.newStart) + h.newCount, At(h.oldStart) + h.oldCount)
    ensures Aligned([FlipHunk(h)] + flipped, new_, old_, j, i)
  {
    FlipFits(h, old_, new_, i, j);
    AlignedCons(FlipHunk(h), flipped, new_, old_, j, i);
  }

  lemma {:induction false} AlignedFlips(hunks: seq<Hunk>, old_: seq<string>, new_: seq<string>, i: nat, j: nat)
    requires Aligned(hunks, old_, new_, i, j)
    ensures Aligned(Flip(hunks), new_, old_, j, i)
    decreases |hunks|
  {
    if hunks != [] {
      var h := hunks[0];
      AlignedFlips(hunks[1..], old_, new_, At(h.oldStart) + h.oldCount, At(h.newStart) + h.newCount);
      FlippedCons(h, Flip(hunks[1..]), old_, new_, i, j);
    }
  }

  lemma {:induction false} SideCounts(lines: seq<DiffLine>)
    ensures |NewSide(lines)| + Removals(lines) == |OldSide(lines)| + Additions(lines)
  {
    if lines != [] {
      SideCounts(lines[1..]);
    }
  }

  lemma {:induction false} AlignedTotals(hunks: seq<Hunk>, old_: seq<string>, new_: seq<string>, i: nat, j: nat)
    requires Aligned(hunks, old_, new_, i, j) && i <= |old_| && j <= |new_|
    ensures TotalAdditions(hunks) + |old_| - i == TotalRemovals(hunks) + |new_| - j
    decreases |hunks|
  {
    if hunks == [] {
      assert |old_[i..]| == |new_[j..]|;
    } else {
      var h := hunks[0];
      SideCounts(h.lines);
      assert |old_[i..At(h.oldStart)]| == |new_[j..At(h.newStart)]|;
      AlignedTotals(hunks[1..], old_, new_, At(h.oldStart) + h.oldCount, At(h.newStart) + h.newCount);
    }
  }

  lemma {:induction false} AlignedHunksAgree(hunks: seq<Hunk>, old_: seq<string>, new_: seq<string>, i: nat, j: nat)
    requires Aligned(hunks, old_, new_, i, j)
    ensures forall k | 0 <= k < |hunks| :: HunkAgrees(hunks[k], old_, new_)
    decreases |hunks|
  {
    if hunks != [] {
      var h := hunks[0];
      AlignedHunksAgree(hunks[1..], old_, new_, At(h.oldStart) + h.oldCount, At(h.newStart) + h.newCount);
    }
  }

  /** For every edit script that drops only equal lines: the diff turns the old text into the new
      one, read backwards it turns the new text into the old one, each header names exactly the
      lines of its hunk, and the line counts differ by what was added and removed. */
  lemma DiffPreservesMeaning(groups: seq<seq<Op>>, old_: seq<string>, new_: seq<string>)
    requires NonEmpty(groups) && Covers(groups, old_, new_, 0, 0)
    ensures var d := DiffOf(groups, old_, new_);
            && Patch(Texts(old_), d.hunks, 0) == Some(Texts(new_))
            && Patch(Texts(new_), Flip(d.hunks), 0) == Some(Texts(old_))
            && (forall k | 0 <= k < |d.hunks| :: HunkAgrees(d.hunks[k], Texts(old_), Texts(new_)))
            && d.added + |old_| == d.removed + |new_|
  {
    var d := DiffOf(groups, old_, new_);
    var before, after := Texts(old_), Texts(new_);
    CoversIsAligned(groups, old_, new_);
    AlignedApplies(d.hunks, before, after, 0, 0);
    AlignedFlips(d.hunks, before, after, 0, 0);
    AlignedApplies(Flip(d.hunks), after, before, 0, 0);
    AlignedHunksAgree(d.hunks, before, after, 0, 0);
    AlignedTotals(d.hunks, before, after, 0, 0);
    assert before[0..] == before && after[0..] == after;
  }

  // What the counters of a diff count.

  function AllLines(hunks: seq<Hunk>): seq<DiffLine> {
    if hunks == [] then [] else hunks[0].lines + AllLines(hunks[1..])
  }

  /** The positions of the added and of the removed lines. */
  function AddedAt(lines: seq<DiffLine>): set<nat> {
    set i: nat | i < |lines| && lines[i].Addition?
  }

  function RemovedAt(lines: seq<DiffLine>): set<nat> {
    set i: nat | i < |lines| && lines[i].Removal?
  }

  lemma OneMoreAdded(lines: seq<DiffLine>, line: DiffLine)
    ensures |AddedAt(lines + [line])| == |AddedAt(lines)| + if line.Addition? then 1 else 0
  {
    var more, n := lines + [line], |lines|;
    assert more[n] == line && forall i | 0 <= i < n :: more[i] == lines[i];
    if line.Addition? {
      assert AddedAt(more) == AddedAt(lines) + {n};
    } else {
      assert AddedAt(more) == AddedAt(lines);
    }
  }

  lemma OneMoreRemoved(lines: seq<DiffLine>, line: DiffLine)
    ensures |RemovedAt(lines + [line])| == |RemovedAt(lines)| + if line.Removal? then 1 else 0
  {
    var more, n := lines + [line], |lines|;
    assert more[n] == line && forall i | 0 <= i < n :: more[i] == lines[i];
    if line.Removal? {
      assert RemovedAt(more) == RemovedAt(lines) + {n};
    } else {
      assert RemovedAt(more) == RemovedAt(lines);
    }
  }

  /** The counters are the numbers of added and of removed lines; context lines are in neither. */
  lemma {:induction false} CountersAreNumbers(lines: seq<DiffLine>)
    ensures Additions(lines) == |AddedAt(lines)| && Removals(lines) == |RemovedAt(lines)|
    decreases |lines|
  {
    if lines == [] {
      assert AddedAt(lines) == RemovedAt(lines) == {};
    } else {
      var n := |lines| - 1;
      CountersAreNumbers(lines[..n]);
      CountsAppend(lines[..n], [lines[n]]);
      OneMoreAdded(lines[..n], lines[n]);
      OneMoreRemoved(lines[..n], lines[n]);
      assert lines == lines[..n] + [lines[n]];
    }
  }

  lemma {:induction false} TotalsOfAllLines(hunks: seq<Hunk>)
    ensures TotalAdditions(hunks) == Additions(AllLines(hunks)) && TotalRemovals(hunks) == Removals(AllLines(hunks))
    decreases |hunks|
  {
    if hunks != [] {
      TotalsOfAllLines(hunks[1..]);
      CountsAppend(hunks[0].lines, AllLines(hunks[1..]));
    }
  }

  /** The totals of a diff are the numbers of added and of removed lines in all its hunks. */
  lemma TotalsAreNumbers(groups: seq<seq<Op>>, old_: seq<string>, new_: seq<string>)
    requires NonEmpty(groups)
    ensures var d := DiffOf(groups, old_, new_);
            && !d.isBinary
            && d.added == |AddedAt(AllLines(d.hunks))| && d.removed == |RemovedAt(AllLines(d.hunks))|
  {
    var d := DiffOf(groups, old_, new_);
    TotalsOfAllLines(d.hunks);
    CountersAreNumbers(AllLines(d.hunks));
  }

  // From lines to text.

  /** The text of a file in which every line ends with a newline. */
  function Render(texts: seq<string>): string {
    if texts == [] then "" else (texts[0] + "\n") + Render(texts[1..])
  }

  predicate Terminated(line: string) {
    line != [] && line[|line| - 1] == '\n'
  }

  predicate AllTerminated(lines: seq<string>) {
    forall i | 0 <= i < |lines| :: Terminated(lines[i])
  }

  predicate IsLine(line: string) {
    line != [] && forall j | 0 <= j < |line| - 1 :: line[j] != '\n'
  }

  /** What splitting a text gives: no line is empty, and a newline ends its line. */
  predicate AreLines(lines: seq<string>) {
    forall i | 0 <= i < |lines| :: IsLine(lines[i])
  }

  /** Only newlines end lines, so only the last line can lack one. */
  predicate SplitAtNewlines(lines: seq<string>) {
    AreLines(lines) && forall i | 0 <= i < |lines| - 1 :: Terminated(lines[i])
  }

  lemma NothingToStrip(line: string)
    requires !Terminated(line)
    ensures Text(line) == line
  {
  }

  lemma InitOfLine(line: string)
    requires IsLine(line) && Terminated(line)
    ensures !Terminated(line[..|line| - 1]) && line[..|line| - 1] + "\n" == line
  {
    var init := line[..|line| - 1];
    if init != [] {
      assert init[|init| - 1] == line[|line| - 2];
    }
  }

  lemma TextOfLine(line: string)
    requires IsLine(line)
    ensures if Terminated(line) then Text(line) + "\n" == line else Text(line) == line
  {
    if Terminated(line) {
      InitOfLine(line);
      NothingToStrip(line[..|line| - 1]);
    } else {
      NothingToStrip(line);
    }
  }

  lemma PrefixesDiffer(a: string, a': string, b: string, b': string)
    requires |a| > |a'| && |b| >= |b'|
    ensures |a + b| > |a' + b'| && a + b != a' + b'
  {
    assert |a + b| == |a| + |b| && |a' + b'| == |a'| + |b'|;
  }

  lemma SamePrefix(a: string, b: string, b': string)
    ensures a + b == a + b' <==> b == b'
  {
    assert (a + b)[|a|..] == b && (a + b')[|a|..] == b';
  }

  /** Ending every line with a newline gives back the text if and only if every line had one. */
  lemma {:induction false} RenderIff(lines: seq<string>)
    requires AreLines(lines)
    ensures |Render(Texts(lines))| >= |Concat(lines)|
    ensures Render(Texts(lines)) == Concat(lines) <==> AllTerminated(lines)
    decreases |lines|
  {
    if lines != [] {
      var line, rest := lines[0], lines[1..];
      assert Texts(lines)[1..] == Texts(rest);
      RenderIff(rest);
      TextOfLine(line);
      assert AllTerminated(lines) <==> Terminated(line) && AllTerminated(rest);
      if Terminated(line) {
        SamePrefix(line, Render(Texts(rest)), Concat(rest));
      } else {
        PrefixesDiffer(Text(line) + "\n", line, Render(Texts(rest)), Concat(rest));
      }
    }
  }

  lemma EndOfConcat(a: string, b: string)
    requires b != ""
    ensures a + b != "" && (Terminated(a + b) <==> Terminated(b))
  {
    assert (a + b)[|a + b| - 1] == b[|b| - 1];
  }

  lemma {:induction false} ConcatEndsWithLastLine(lines: seq<string>)
    requires lines != [] && forall i | 0 <= i < |lines| :: lines[i] != ""
    ensures Concat(lines) != "" && (Terminated(Concat(lines)) <==> Terminated(lines[|lines| - 1]))
    decreases |lines|
  {
    if |lines| == 1 {
      assert lines[0] + Concat(lines[1..]) == lines[0];
    } else {
      var rest := lines[1..];
      ConcatEndsWithLastLine(rest);
      EndOfConcat(lines[0], Concat(rest));
    }
  }

  /** With newlines as the only line ends, that means that the text is empty or ends with one. */
  lemma RenderIsTextIff(lines: seq<string>)
    requires SplitAtNewlines(lines)
    ensures Render(Texts(lines)) == Concat(lines) <==> Concat(lines) == "" || Terminated(Concat(lines))
  {
    RenderIff(lines);
    if lines != [] {
      ConcatEndsWithLastLine(lines);
    }
  }

  /** Applying the diff and ending every line with a newline gives the new text if and only if all its
      lines end with a newline, and backwards the old text under the same condition on that. A line may
      also end with a carriage return, which is then not a newline. */
  lemma DiffRestoresTextIff(groups: seq<seq<Op>>, old_: seq<string>, new_: seq<string>)
    requires NonEmpty(groups) && Covers(groups, old_, new_, 0, 0)
    requires AreLines(old_) && AreLines(new_)
    ensures var hunks := DiffOf(groups, old_, new_).hunks;
            var there, back := Patch(Texts(old_), hunks, 0), Patch(Texts(new_), Flip(hunks), 0);
            && there.Some? && back.Some?
            && (Render(there.value) == Concat(new_) <==> AllTerminated(new_))
            && (Render(back.value) == Concat(old_) <==> AllTerminated(old_))
  {
    DiffPreservesMeaning(groups, old_, new_);
    RenderIff(old_);
    RenderIff(new_);
  }

  /** If the new text has no other line ends than newlines, that means that it is empty or ends with
      one. */
  lemma DiffRestoresNewlineText(groups: seq<seq<Op>>, old_: seq<string>, new_: seq<string>)
    requires NonEmpty(groups) && Covers(groups, old_, new_, 0, 0)
    requires AreLines(old_) && SplitAtNewlines(new_)
    ensures var there := Patch(Texts(old_), DiffOf(groups, old_, new_).hunks, 0);
            && there.Some?
            && (Render(there.value) == Concat(new_) <==> Concat(new_) == "" || Terminated(Concat(new_)))
  {
    DiffRestoresTextIff(groups, old_, new_);
    RenderIff(new_);
    RenderIsTextIff(new_);
  }
}
