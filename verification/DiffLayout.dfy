/** Layout of rendered diffs: vertical positions and the line numbers in the margin. */
module DiffLayout {
  import opened Common
  import opened UnifiedDiff
  import opened DiffProperties

  const LINE_HEIGHT: nat := 20
  const PADDING_TOP: nat := 10
  const HEADER_HEIGHT: nat := 32
  const FILE_SEPARATOR_HEIGHT: nat := 16

  /** What is drawn, with its top edge. A row shows a line and its old and new line numbers. */
  datatype Item =
    | FileHeader(y: nat)
    | HunkHeader(y: nat)
    | Row(y: nat, left: Option<nat>, right: Option<nat>, line: DiffLine)
    | BinaryNote(y: nat)
    | Border(y: nat)
  {
    function Bottom(): nat {
      match this
      case FileHeader(_) => y + HEADER_HEIGHT
      case Border(_) => y
      case _ => y + LINE_HEIGHT
    }
  }

  function RowOf(line: DiffLine, oldLine: nat, newLine: nat, y: nat): Item {
    Row(y, if line.Addition? then None else Some(oldLine), if line.Removal? then None else Some(newLine), line)
  }

  function Rows(lines: seq<DiffLine>, oldLine: nat, newLine: nat, y: nat): seq<Item>
    decreases lines
  {
    if lines == [] then [] else
    [RowOf(lines[0], oldLine, newLine, y)] +
    Rows(lines[1..], oldLine + (if lines[0].Addition? then 0 else 1), newLine + (if lines[0].Removal? then 0 else 1),
         y + LINE_HEIGHT)
  }

  function HunkItems(h: Hunk, y: nat): seq<Item> {
    [HunkHeader(y)] + Rows(h.lines, h.oldStart, h.newStart, y + LINE_HEIGHT)
  }

  function HunkHeight(h: Hunk): nat {
    LINE_HEIGHT + |h.lines| * LINE_HEIGHT
  }

  function AllHunkItems(hunks: seq<Hunk>, y: nat): seq<Item>
    decreases hunks
  {
    if hunks == [] then [] else HunkItems(hunks[0], y) + AllHunkItems(hunks[1..], y + HunkHeight(hunks[0]))
  }

  function HunksHeight(hunks: seq<Hunk>): nat {
    if hunks == [] then 0 else HunkHeight(hunks[0]) + HunksHeight(hunks[1..])
  }

  function Section(d: Diff, y: nat): seq<Item> {
    [FileHeader(y)] +
    if d.isBinary then [BinaryNote(y + HEADER_HEIGHT)]
    else AllHunkItems(d.hunks, y + HEADER_HEIGHT) + [Border(y + HEADER_HEIGHT + HunksHeight(d.hunks))]
  }

  function Height(d: Diff): nat {
    HEADER_HEIGHT +
    if d.isBinary || d.hunks == [] then LINE_HEIGHT else HunksHeight(d.hunks)
  }

  function Sections(diffs: seq<Diff>, y: nat): seq<Item>
    decreases diffs
  {
    if diffs == [] then [] else
    Section(diffs[0], y) + Sections(diffs[1..], y + Height(diffs[0]) + FILE_SEPARATOR_HEIGHT)
  }

  function Heights(diffs: seq<Diff>): nat {
    if diffs == [] then 0 else Height(diffs[0]) + FILE_SEPARATOR_HEIGHT + Heights(diffs[1..])
  }

  lemma {:induction false} HeightsAppend(diffs: seq<Diff>, d: Diff)
    ensures Heights(diffs + [d]) == Heights(diffs) + Height(d) + FILE_SEPARATOR_HEIGHT
    decreases |diffs|
  {
    if diffs == [] {
      assert (diffs + [d])[1..] == [];
    } else {
      assert (diffs + [d])[1..] == diffs[1..] + [d];
      HeightsAppend(diffs[1..], d);
    }
  }

  lemma {:induction false} HunksHeightAppend(hunks: seq<Hunk>, h: Hunk)
    ensures HunksHeight(hunks + [h]) == HunksHeight(hunks) + HunkHeight(h)
    decreases |hunks|
  {
    if hunks == [] {
      assert (hunks + [h])[1..] == [];
    } else {
      assert (hunks + [h])[1..] == hunks[1..] + [h];
      HunksHeightAppend(hunks[1..], h);
    }
  }

  lemma Regroup(a: seq<Item>, b: seq<Item>, c: seq<Item>)
    ensures a + (b + c) == (a + b) + c
  {
  }

  lemma {:induction false} SectionsAppend(diffs: seq<Diff>, d: Diff, y: nat)
    ensures Sections(diffs + [d], y) == Sections(diffs, y) + Section(d, y + Heights(diffs))
    decreases |diffs|
  {
    var all := diffs + [d];
    if diffs == [] {
      assert all[1..] == [];
    } else {
      var next := y + Height(diffs[0]) + FILE_SEPARATOR_HEIGHT;
      SectionsAppend(diffs[1..], d, next);
      assert all[1..] == diffs[1..] + [d];
      Regroup(Section(diffs[0], y), Sections(diffs[1..], next), Section(d, y + Heights(diffs)));
    }
  }

  method CalculateDiffHeight(d: Diff) returns (height: nat)
    ensures height == Height(d)
  {
    height := HEADER_HEIGHT;
    if d.isBinary {
      height := height + LINE_HEIGHT;
      return;
    }
    for k := 0 to |d.hunks|
      invariant height == HEADER_HEIGHT + HunksHeight(d.hunks[..k])
    {
      height := height + LINE_HEIGHT;
      height := height + |d.hunks[k].lines| * LINE_HEIGHT;
      assert d.hunks[..k + 1] == d.hunks[..k] + [d.hunks[k]];
      HunksHeightAppend(d.hunks[..k], d.hunks[k]);
    }
    assert d.hunks[..|d.hunks|] == d.hunks;
    if d.hunks == [] {
      height := height + LINE_HEIGHT;
    }
  }

  method RenderHunk(h: Hunk, y0: nat) returns (items: seq<Item>, y: nat)
    ensures items == HunkItems(h, y0) && y == y0 + HunkHeight(h)
  {
    items, y := [HunkHeader(y0)], y0 + LINE_HEIGHT;
    var oldLine, newLine := h.oldStart, h.newStart;
    for i := 0 to |h.lines|
      invariant y == y0 + LINE_HEIGHT + i * LINE_HEIGHT
      invariant items + Rows(h.lines[i..], oldLine, newLine, y) == HunkItems(h, y0)
    {
      var line := h.lines[i];
      ghost var rest := Rows(h.lines[i..], oldLine, newLine, y);
      assert h.lines[i..][1..] == h.lines[i + 1..];
      items := items + [RowOf(line, oldLine, newLine, y)];
      match line {
        case Context(_) => oldLine, newLine := oldLine + 1, newLine + 1;
        case Addition(_) => newLine := newLine + 1;
        case Removal(_) => oldLine := oldLine + 1;
      }
      y := y + LINE_HEIGHT;
      assert rest == [items[|items| - 1]] + Rows(h.lines[i + 1..], oldLine, newLine, y);
    }
    assert h.lines[|h.lines|..] == [];
  }

  method RenderDiffSection(d: Diff, yOffset: nat) returns (items: seq<Item>)
    ensures items == Section(d, yOffset)
  {
    var y: nat := yOffset;
    items := [FileHeader(y)];
    y := y + HEADER_HEIGHT;
    if d.isBinary {
      return items + [BinaryNote(y)];
    }
    for k := 0 to |d.hunks|
      invariant y + HunksHeight(d.hunks[k..]) == yOffset + HEADER_HEIGHT + HunksHeight(d.hunks)
      invariant items + AllHunkItems(d.hunks[k..], y) ==
                [FileHeader(yOffset)] + AllHunkItems(d.hunks, yOffset + HEADER_HEIGHT)
    {
      ghost var rest := AllHunkItems(d.hunks[k..], y);
      assert d.hunks[k..][1..] == d.hunks[k + 1..];
      var drawn, y' := RenderHunk(d.hunks[k], y);
      assert rest == drawn + AllHunkItems(d.hunks[k + 1..], y');
      items, y := items + drawn, y';
    }
    assert d.hunks[|d.hunks|..] == [];
    assert items == [FileHeader(yOffset)] + AllHunkItems(d.hunks, yOffset + HEADER_HEIGHT);
    items := items + [Border(y)];
  }

  method MeasureSections(diffs: seq<Diff>) returns (height: nat, heights: seq<nat>)
    ensures |heights| == |diffs| && forall i | 0 <= i < |diffs| :: heights[i] == Height(diffs[i])
    ensures height == PADDING_TOP + Heights(diffs)
  {
    height, heights := PADDING_TOP, [];
    for k := 0 to |diffs|
      invariant |heights| == k && forall i | 0 <= i < k :: heights[i] == Height(diffs[i])
      invariant height == PADDING_TOP + Heights(diffs[..k])
    {
      var h := CalculateDiffHeight(diffs[k]);
      heights := heights + [h];
      height := height + h + FILE_SEPARATOR_HEIGHT;
      assert diffs[..k + 1] == diffs[..k] + [diffs[k]];
      HeightsAppend(diffs[..k], diffs[k]);
    }
    assert diffs[..|diffs|] == diffs;
  }

  method DrawSections(diffs: seq<Diff>, heights: seq<nat>, yOffset: nat) returns (items: seq<Item>)
    requires |heights| == |diffs| && forall i | 0 <= i < |diffs| :: heights[i] == Height(diffs[i])
    ensures items == Sections(diffs, yOffset)
  {
    items := [];
    var y: nat := yOffset;
    for k := 0 to |diffs|
      invariant items == Sections(diffs[..k], yOffset)
      invariant y == yOffset + Heights(diffs[..k])
    {
      var drawn := RenderDiffSection(diffs[k], y);
      assert diffs[..k + 1] == diffs[..k] + [diffs[k]];
      SectionsAppend(diffs[..k], diffs[k], yOffset);
      HeightsAppend(diffs[..k], diffs[k]);
      items := items + drawn;
      y := y + heights[k] + FILE_SEPARATOR_HEIGHT;
    }
    assert diffs[..|diffs|] == diffs;
  }

  /** The items of the combined image and its total height; no image for no diffs. */
  method RenderCombined(diffs: seq<Diff>) returns (items: seq<Item>, height: nat)
    ensures diffs == [] ==> items == [] && height == 0
    ensures diffs != [] ==> items == Sections(diffs, PADDING_TOP)
    ensures diffs != [] ==> height == PADDING_TOP + Heights(diffs) - FILE_SEPARATOR_HEIGHT + PADDING_TOP
  {
    if diffs == [] { return [], 0; }
    var total, heights := MeasureSections(diffs);
    height := total - FILE_SEPARATOR_HEIGHT + PADDING_TOP;
    items := DrawSections(diffs, heights, PADDING_TOP);
  }

  /** From `top` on, each item starts at or below the bottom of the one before it, down to `end`. */
  predicate Stacked(items: seq<Item>, top: nat, end: nat)
    decreases items
  {
    if items == [] then top <= end
    else top <= items[0].y && Stacked(items[1..], items[0].Bottom(), end)
  }

  lemma {:induction false} StackedAppend(a: seq<Item>, b: seq<Item>, top: nat, mid: nat, end: nat)
    requires Stacked(a, top, mid) && Stacked(b, mid, end)
    ensures Stacked(a + b, top, end)
    decreases |a|
  {
    if a == [] {
      assert a + b == b;
      StackedHigher(b, mid, top, end);
    } else {
      StackedAppend(a[1..], b, a[0].Bottom(), mid, end);
      assert (a + b)[1..] == a[1..] + b;
    }
  }

  lemma {:induction false} StackedHigher(items: seq<Item>, low: nat, top: nat, end: nat)
    requires top <= low && Stacked(items, low, end)
    ensures Stacked(items, top, end)
  {
  }

  lemma {:induction false} RowsStacked(lines: seq<DiffLine>, oldLine: nat, newLine: nat, y: nat)
    ensures Stacked(Rows(lines, oldLine, newLine, y), y, y + |lines| * LINE_HEIGHT)
    decreases |lines|
  {
    if lines != [] {
      RowsStacked(lines[1..], oldLine + (if lines[0].Addition? then 0 else 1),
                  newLine + (if lines[0].Removal? then 0 else 1), y + LINE_HEIGHT);
      var rows := Rows(lines, oldLine, newLine, y);
      assert y + LINE_HEIGHT + |lines[1..]| * LINE_HEIGHT == y + |lines| * LINE_HEIGHT;
    }
  }

  lemma {:induction false} HunksStacked(hunks: seq<Hunk>, y: nat)
    ensures Stacked(AllHunkItems(hunks, y), y, y + HunksHeight(hunks))
    decreases |hunks|
  {
    if hunks != [] {
      var h := hunks[0];
      RowsStacked(h.lines, h.oldStart, h.newStart, y + LINE_HEIGHT);
      assert HunkItems(h, y)[1..] == Rows(h.lines, h.oldStart, h.newStart, y + LINE_HEIGHT);
      HunksStacked(hunks[1..], y + HunkHeight(h));
      StackedAppend(HunkItems(h, y), AllHunkItems(hunks[1..], y + HunkHeight(h)),
                    y, y + HunkHeight(h), y + HunksHeight(hunks));
    }
  }

  /** A section stays within the height computed for it, and nothing in it overlaps. */
  lemma SectionStacked(d: Diff, y: nat)
    ensures Stacked(Section(d, y), y, y + Height(d))
  {
    var top, end := y + HEADER_HEIGHT, y + Height(d);
    if d.isBinary {
      var note := [BinaryNote(top)];
      assert note[1..] == [] && Stacked(note, top, end);
      assert Section(d, y)[1..] == note;
    } else {
      var border := Border(top + HunksHeight(d.hunks));
      HunksStacked(d.hunks, top);
      assert [border][1..] == [] && Stacked([border], border.y, end);
      StackedAppend(AllHunkItems(d.hunks, top), [border], top, border.y, end);
      assert Section(d, y)[1..] == AllHunkItems(d.hunks, top) + [border];
    }
  }

  /** The computed height is exact: the last item ends at it, unless there is nothing to show. */
  lemma HeightIsTight(d: Diff, y: nat)
    requires d.isBinary || d.hunks != []
    ensures var items := Section(d, y);
            items[|items| - 1].Bottom() == y + Height(d)
  {
  }

  /** Sections never overlap, and the last one ends a padding above the bottom of the image. */
  lemma {:induction false} SectionsStacked(diffs: seq<Diff>, y: nat)
    requires diffs != []
    ensures Heights(diffs) >= FILE_SEPARATOR_HEIGHT
    ensures Stacked(Sections(diffs, y), y, y + Heights(diffs) - FILE_SEPARATOR_HEIGHT)
    decreases |diffs|
  {
    var d, rest := diffs[0], diffs[1..];
    var next := y + Height(d) + FILE_SEPARATOR_HEIGHT;
    SectionStacked(d, y);
    if rest == [] {
      assert Sections(rest, next) == [];
      assert Sections(diffs, y) == Section(d, y);
    } else {
      SectionsStacked(rest, next);
      var end := next + Heights(rest) - FILE_SEPARATOR_HEIGHT;
      StackedHigher(Sections(rest, next), next, y + Height(d), end);
      StackedAppend(Section(d, y), Sections(rest, next), y, y + Height(d), end);
    }
  }

  // What is shown.

  /** The lines of the rows among the items. */
  function Shown(items: seq<Item>): seq<DiffLine> {
    if items == [] then [] else (if items[0].Row? then [items[0].line] else []) + Shown(items[1..])
  }

  function HunkHeaders(items: seq<Item>): nat {
    if items == [] then 0 else (if items[0].HunkHeader? then 1 else 0) + HunkHeaders(items[1..])
  }

  lemma {:induction false} ShownAppend(a: seq<Item>, b: seq<Item>)
    ensures Shown(a + b) == Shown(a) + Shown(b) && HunkHeaders(a + b) == HunkHeaders(a) + HunkHeaders(b)
    decreases |a|
  {
    if a == [] {
      assert a + b == b;
    } else {
      ShownAppend(a[1..], b);
      assert (a + b)[1..] == a[1..] + b;
      var first := if a[0].Row? then [a[0].line] else [];
      assert first + (Shown(a[1..]) + Shown(b)) == (first + Shown(a[1..])) + Shown(b);
    }
  }

  /** Every line gets a row, one below the other. */
  lemma {:induction false} RowAt(lines: seq<DiffLine>, oldLine: nat, newLine: nat, y: nat, i: nat)
    requires i < |lines|
    ensures var rows := Rows(lines, oldLine, newLine, y);
            |rows| == |lines| && rows[i].Row? && rows[i].line == lines[i] && rows[i].y == y + 20 * i
    decreases |lines|
  {
    var line, rest := lines[0], lines[1..];
    var a, b := oldLine + (if line.Addition? then 0 else 1), newLine + (if line.Removal? then 0 else 1);
    if rest == [] {
      assert Rows(rest, a, b, y + LINE_HEIGHT) == [];
    } else {
      RowAt(rest, a, b, y + LINE_HEIGHT, if i == 0 then 0 else i - 1);
    }
  }

  lemma {:induction false} RowsShow(lines: seq<DiffLine>, oldLine: nat, newLine: nat, y: nat)
    ensures Shown(Rows(lines, oldLine, newLine, y)) == lines && HunkHeaders(Rows(lines, oldLine, newLine, y)) == 0
    decreases |lines|
  {
    if lines != [] {
      var line, rest := lines[0], lines[1..];
      var a, b := oldLine + (if line.Addition? then 0 else 1), newLine + (if line.Removal? then 0 else 1);
      RowsShow(rest, a, b, y + LINE_HEIGHT);
      assert Rows(lines, oldLine, newLine, y)[1..] == Rows(rest, a, b, y + LINE_HEIGHT);
    }
  }

  lemma HunkShows(h: Hunk, y: nat)
    ensures Shown(HunkItems(h, y)) == h.lines && HunkHeaders(HunkItems(h, y)) == 1
  {
    RowsShow(h.lines, h.oldStart, h.newStart, y + LINE_HEIGHT);
    assert HunkItems(h, y)[1..] == Rows(h.lines, h.oldStart, h.newStart, y + LINE_HEIGHT);
  }

  lemma {:induction false} HunksShow(hunks: seq<Hunk>, y: nat)
    ensures Shown(AllHunkItems(hunks, y)) == AllLines(hunks) && HunkHeaders(AllHunkItems(hunks, y)) == |hunks|
    decreases |hunks|
  {
    if hunks != [] {
      var h := hunks[0];
      HunkShows(h, y);
      HunksShow(hunks[1..], y + HunkHeight(h));
      ShownAppend(HunkItems(h, y), AllHunkItems(hunks[1..], y + HunkHeight(h)));
    }
  }

  lemma ShowsNothing(item: Item)
    requires item.BinaryNote? || item.Border?
    ensures Shown([item]) == [] && HunkHeaders([item]) == 0
  {
    assert [item][1..] == [];
  }

  /** A section starts with its header and shows all lines of the diff in order, with one header for
      each hunk; for binary content it has a note instead. */
  lemma SectionShows(d: Diff, y: nat)
    ensures var items := Section(d, y);
            && items != [] && items[0] == FileHeader(y)
            && Shown(items) == (if d.isBinary then [] else AllLines(d.hunks))
            && HunkHeaders(items) == (if d.isBinary then 0 else |d.hunks|)
            && (d.isBinary ==> items == [FileHeader(y), BinaryNote(y + 32)])
  {
    var items := Section(d, y);
    if d.isBinary {
      ShowsNothing(BinaryNote(y + HEADER_HEIGHT));
      assert items[1..] == [BinaryNote(y + HEADER_HEIGHT)];
    } else {
      var border := Border(y + HEADER_HEIGHT + HunksHeight(d.hunks));
      HunksShow(d.hunks, y + HEADER_HEIGHT);
      ShownAppend(AllHunkItems(d.hunks, y + HEADER_HEIGHT), [border]);
      ShowsNothing(border);
      assert items[1..] == AllHunkItems(d.hunks, y + HEADER_HEIGHT) + [border];
    }
  }

  lemma {:induction false} HunksHeightIs(hunks: seq<Hunk>)
    ensures HunksHeight(hunks) == 20 * (|hunks| + |AllLines(hunks)|)
    decreases |hunks|
  {
    if hunks != [] {
      HunksHeightIs(hunks[1..]);
    }
  }

  function SumOfHeights(diffs: seq<Diff>): nat {
    if diffs == [] then 0 else Height(diffs[0]) + SumOfHeights(diffs[1..])
  }

  /** The image is as high as its sections, with 16 between them and 10 above and below. */
  lemma {:induction false} CombinedHeight(diffs: seq<Diff>)
    ensures Heights(diffs) == SumOfHeights(diffs) + 16 * |diffs|
    ensures diffs != [] ==>
              PADDING_TOP + Heights(diffs) - FILE_SEPARATOR_HEIGHT + PADDING_TOP ==
              10 + SumOfHeights(diffs) + 16 * (|diffs| - 1) + 10
    decreases |diffs|
  {
    if diffs != [] {
      CombinedHeight(diffs[1..]);
    }
  }

  /** The sections show the lines of all diffs that are not binary, in order. */
  lemma {:induction false} SectionsShow(diffs: seq<Diff>, y: nat)
    ensures Shown(Sections(diffs, y)) == LinesOf(diffs)
    decreases |diffs|
  {
    if diffs != [] {
      var next := y + Height(diffs[0]) + FILE_SEPARATOR_HEIGHT;
      SectionShows(diffs[0], y);
      SectionsShow(diffs[1..], next);
      ShownAppend(Section(diffs[0], y), Sections(diffs[1..], next));
    }
  }

  function LinesOf(diffs: seq<Diff>): seq<DiffLine> {
    if diffs == [] then [] else (if diffs[0].isBinary then [] else AllLines(diffs[0].hunks)) + LinesOf(diffs[1..])
  }

  /** The height is the header's and one line for each hunk and each of its lines, at least one. */
  lemma HeightIs(d: Diff)
    ensures Height(d) == 32 + 20 * (if d.isBinary || d.hunks == [] then 1 else |d.hunks| + |AllLines(d.hunks)|)
  {
    HunksHeightIs(d.hunks);
  }

  /** `lines` are the lines of `text` numbered from `first` on. */
  predicate NumberedFrom(lines: seq<string>, text: seq<string>, first: nat) {
    lines == [] || (1 <= first && first - 1 + |lines| <= |text| && lines == text[first - 1..first - 1 + |lines|])
  }

  /** The number beside a line is the index, from 1, of that very line in the text. */
  predicate TrueNumber(number: Option<nat>, line: string, text: seq<string>) {
    number.Some? ==> 1 <= number.value <= |text| && text[number.value - 1] == line
  }

  predicate RowIsTrue(item: Item, old_: seq<string>, new_: seq<string>) {
    item.Row? ==>
      && TrueNumber(item.left, item.line.text, old_) && TrueNumber(item.right, item.line.text, new_)
      && (item.left.None? <==> item.line.Addition?) && (item.right.None? <==> item.line.Removal?)
  }

  lemma NumberedTail(lines: seq<string>, text: seq<string>, first: nat)
    requires lines != [] && NumberedFrom(lines, text, first)
    ensures NumberedFrom(lines[1..], text, first + 1) && TrueNumber(Some(first), lines[0], text)
  {
    assert lines[0] == text[first - 1..first - 1 + |lines|][0];
    assert lines[1..] == text[first..first + |lines| - 1];
  }

  /** The rest of the lines is numbered on, and the first one truly. */
  lemma OldTail(lines: seq<DiffLine>, text: seq<string>, first: nat)
    requires lines != [] && NumberedFrom(OldSide(lines), text, first)
    ensures var added := lines[0].Addition?;
            && NumberedFrom(OldSide(lines[1..]), text, first + if added then 0 else 1)
            && (!added ==> TrueNumber(Some(first), lines[0].text, text))
  {
    if !lines[0].Addition? {
      NumberedTail(OldSide(lines), text, first);
      assert OldSide(lines)[1..] == OldSide(lines[1..]);
    } else {
      assert OldSide(lines) == OldSide(lines[1..]);
    }
  }

  lemma NewTail(lines: seq<DiffLine>, text: seq<string>, first: nat)
    requires lines != [] && NumberedFrom(NewSide(lines), text, first)
    ensures var removed := lines[0].Removal?;
            && NumberedFrom(NewSide(lines[1..]), text, first + if removed then 0 else 1)
            && (!removed ==> TrueNumber(Some(first), lines[0].text, text))
  {
    if !lines[0].Removal? {
      NumberedTail(NewSide(lines), text, first);
      assert NewSide(lines)[1..] == NewSide(lines[1..]);
    } else {
      assert NewSide(lines) == NewSide(lines[1..]);
    }
  }

  lemma {:induction false} RowsAreTrue(
    lines: seq<DiffLine>, a: nat, b: nat, y: nat, old_: seq<string>, new_: seq<string>)
    requires NumberedFrom(OldSide(lines), old_, a) && NumberedFrom(NewSide(lines), new_, b)
    ensures forall item | item in Rows(lines, a, b, y) :: RowIsTrue(item, old_, new_)
    decreases |lines|
  {
    if lines != [] {
      var line, rest := lines[0], lines[1..];
      OldTail(lines, old_, a);
      NewTail(lines, new_, b);
      RowsAreTrue(rest, a + (if line.Addition? then 0 else 1), b + (if line.Removal? then 0 else 1),
                  y + LINE_HEIGHT, old_, new_);
    }
  }

  lemma HunkRowsAreTrue(h: Hunk, y: nat, old_: seq<string>, new_: seq<string>)
    requires HunkAgrees(h, old_, new_)
    ensures forall item | item in HunkItems(h, y) :: RowIsTrue(item, old_, new_)
  {
    RowsAreTrue(h.lines, h.oldStart, h.newStart, y + LINE_HEIGHT, old_, new_);
  }

  lemma {:induction false} HunksAreTrue(hunks: seq<Hunk>, y: nat, old_: seq<string>, new_: seq<string>)
    requires forall k | 0 <= k < |hunks| :: HunkAgrees(hunks[k], old_, new_)
    ensures forall item | item in AllHunkItems(hunks, y) :: RowIsTrue(item, old_, new_)
    decreases |hunks|
  {
    if hunks != [] {
      HunkRowsAreTrue(hunks[0], y, old_, new_);
      HunksAreTrue(hunks[1..], y + HunkHeight(hunks[0]), old_, new_);
    }
  }

  /** Every number printed beside a line of a generated diff is that line's true index. */
  lemma RenderedNumbersAreTrue(groups: seq<seq<Op>>, old_: seq<string>, new_: seq<string>, y: nat)
    requires NonEmpty(groups) && Covers(groups, old_, new_, 0, 0)
    ensures forall item | item in Section(DiffOf(groups, old_, new_), y) ::
              RowIsTrue(item, Texts(old_), Texts(new_))
  {
    DiffPreservesMeaning(groups, old_, new_);
    HunksAreTrue(DiffOf(groups, old_, new_).hunks, y + HEADER_HEIGHT, Texts(old_), Texts(new_));
  }
}
