/** How reading fails on malformed streams, and what trimming and parsing accept. */
module LspErrors {
  import opened Common
  import opened LspFraming
  import opened LspProperties
  import Decimal

  /** `s` writes the number `n`: decimal digits, possibly behind a plus sign, within the range. */
  ghost predicate Writes(s: string, n: nat) {
    exists digits: string ::
      && (s == digits || s == "+" + digits)
      && digits != [] && Decimal.AllDigits(digits) && Decimal.Value(digits) == n <= USIZE_MAX
  }

  lemma ParseUsizeIff(s: string, n: nat)
    ensures ParseUsize(s) == Some(n) <==> Writes(s, n)
  {
    var plain := if |s| > 1 && s[0] == '+' then s[1..] else s;
    assert s == plain || s == "+" + plain;
    if digits: string :| (s == digits || s == "+" + digits) && digits != [] && Decimal.AllDigits(digits)
                         && Decimal.Value(digits) == n <= USIZE_MAX {
      if s == digits {
        assert s[0] != '+';
      } else {
        assert s[1..] == digits;
      }
      assert plain == digits;
    }
  }

  /** A content length that is no number, wherever it comes in the header, fails the read. */
  lemma BadLengthFails(before: seq<string>, field: string, rest: string, length: Option<nat>)
    requires forall h | h in before :: ExtraField(h)
    requires '\n' !in field && ValidUtf8(field) && LENGTH_FIELD <= Trim(field)
    requires forall n :: !Writes(Trim(Trim(field)[|LENGTH_FIELD|..]), n)
    ensures ReadFrom(Lines(before) + (field + "\r\n" + rest), length) == Failed(BadLength)
  {
    var number := Trim(Trim(field)[|LENGTH_FIELD|..]);
    if ParseUsize(number).Some? {
      ParseUsizeIff(number, ParseUsize(number).value);
    }
    SkipExtraFields(before, field + "\r\n" + rest, length);
    ReadStep(field, rest, length);
  }

  /** The header of a message, and then whatever stands in place of its body. */
  lemma ReadHeader(before: seq<string>, after: seq<string>, n: nat, tail: string)
    requires n <= USIZE_MAX && (forall h | h in before :: ExtraField(h)) && (forall h | h in after :: ExtraField(h))
    ensures ReadFrom(Lines(before) + (LengthLine(n) + "\r\n" + (Lines(after) + ("\r\n" + tail))), None) ==
            ReadBody(tail, Some(n))
  {
    var afterLength := Lines(after) + ("\r\n" + tail);
    SkipExtraFields(before, LengthLine(n) + "\r\n" + afterLength, None);
    ReadLengthLine(n, afterLength, None);
    SkipExtraFields(after, "\r\n" + tail, Some(n));
    ReadEmptyLine(tail, Some(n));
  }

  /** Behind a header with content length `n`, the next `n` bytes are the body. The read fails exactly if
      there are fewer, or if they are not UTF-8. */
  lemma BodyOutcome(before: seq<string>, after: seq<string>, n: nat, tail: string)
    requires n <= USIZE_MAX && (forall h | h in before :: ExtraField(h)) && (forall h | h in after :: ExtraField(h))
    ensures var r := ReadFrom(Lines(before) + (LengthLine(n) + "\r\n" + (Lines(after) + ("\r\n" + tail))), None);
            && (r == Failed(ShortBody) <==> |tail| < n)
            && (r == Failed(NotUtf8) <==> n <= |tail| && !ValidUtf8(tail[..n]))
            && (r.Message? <==> n <= |tail| && ValidUtf8(tail[..n]))
            && (r.Message? ==> r.body == tail[..n] && r.rest == tail[n..])
  {
    ReadHeader(before, after, n, tail);
  }

  lemma Regroup(line: string, end: string, body: string, rest: string)
    ensures ([] + (line + end + ([] + (end + body)))) + rest == line + end + (end + (body + rest))
  {
  }

  /** Of two content lengths the later one counts. */
  lemma LaterLengthCounts(n: nat, body: string, rest: string)
    requires n <= USIZE_MAX && ValidUtf8(body) && |body| <= USIZE_MAX
    ensures ReadFrom(LengthLine(n) + "\r\n" + (Frame(body) + rest), None) == Message(body, rest)
  {
    ReadLengthLine(n, Frame(body) + rest, None);
    FrameIsPacket(body);
    Regroup(LengthLine(|body|), "\r\n", body, rest);
    ReadLengthLine(|body|, "\r\n" + (body + rest), Some(n));
    ReadEmptyLine(body + rest, Some(|body|));
    assert (body + rest)[..|body|] == body && (body + rest)[|body|..] == rest;
  }

  /** A header line that is not UTF-8 fails the read, and so does a stream that ends in the header. */
  lemma BadHeaderFails(before: seq<string>, line: string, rest: string)
    requires (forall h | h in before :: ExtraField(h)) && '\n' !in line && !ValidUtf8(line + "\n")
    ensures ReadFrom(Lines(before) + (line + "\n" + rest), None) == Failed(BadHeader)
    ensures ReadFrom(Lines(before) + "", None) == Failed(Closed)
  {
    var s := line + "\n" + rest;
    SkipExtraFields(before, s, None);
    SkipExtraFields(before, "", None);
    LineLengthOf(line, rest);
    assert s[..|line| + 1] == line + "\n";
  }

  // Trimming.

  /** Only white space characters. */
  ghost predicate Blank(s: string)
    decreases |s|
  {
    s == [] || (SpaceAtStart(s) > 0 && Blank(s[SpaceAtStart(s)..]))
  }

  ghost predicate BlankFromEnd(s: string)
    decreases |s|
  {
    s == [] || (SpaceAtEnd(s) > 0 && BlankFromEnd(s[..|s| - SpaceAtEnd(s)]))
  }

  lemma SpaceStays(s: string, more: string)
    requires SpaceAtStart(s) > 0
    ensures SpaceAtStart(s[..SpaceAtStart(s)] + more) == SpaceAtStart(s)
  {
  }

  lemma SpaceStaysAtEnd(s: string, more: string)
    requires SpaceAtEnd(s) > 0
    ensures SpaceAtEnd(more + s[|s| - SpaceAtEnd(s)..]) == SpaceAtEnd(s)
  {
  }

  lemma BlankStep(s: string, n: nat, more: string)
    requires n == SpaceAtStart(s) > 0 && Blank(more)
    ensures Blank(s[..n] + more)
  {
    SpaceStays(s, more);
    assert (s[..n] + more)[n..] == more;
  }

  lemma BlankStepAtEnd(s: string, n: nat, more: string)
    requires n == SpaceAtEnd(s) > 0 && BlankFromEnd(more)
    ensures BlankFromEnd(more + s[|s| - n..])
  {
    SpaceStaysAtEnd(s, more);
    var t := more + s[|s| - n..];
    assert t[..|t| - n] == more;
  }

  lemma Rejoin(s: string, n: nat, a: string, b: string)
    requires n <= |s|
    ensures s[n..] == a + b ==> s == (s[..n] + a) + b
    ensures s[..n] == a + b ==> s == a + (b + s[n..])
  {
    assert s == s[..n] + s[n..];
  }

  lemma {:induction false} TrimStartSplits(s: string) returns (blank: string)
    ensures s == blank + TrimStart(s) && Blank(blank) && SpaceAtStart(TrimStart(s)) == 0
    decreases |s|
  {
    var n := SpaceAtStart(s);
    if n == 0 {
      blank := [];
    } else {
      var more := TrimStartSplits(s[n..]);
      BlankStep(s, n, more);
      Rejoin(s, n, more, TrimStart(s));
      blank := s[..n] + more;
    }
  }

  lemma {:induction false} TrimEndSplits(s: string) returns (blank: string)
    ensures s == TrimEnd(s) + blank && BlankFromEnd(blank) && SpaceAtEnd(TrimEnd(s)) == 0
    decreases |s|
  {
    var n := SpaceAtEnd(s);
    if n == 0 {
      blank := [];
    } else {
      var more := TrimEndSplits(s[..|s| - n]);
      BlankStepAtEnd(s, n, more);
      Rejoin(s, |s| - n, TrimEnd(s), more);
      blank := more + s[|s| - n..];
    }
  }

  /** Trimming takes white space, and nothing else, off both ends until there is none. */
  lemma TrimSplits(s: string) returns (left: string, right: string)
    ensures s == left + Trim(s) + right && Blank(left) && BlankFromEnd(right) && SpaceAtStart(Trim(s)) == 0
  {
    right := TrimEndSplits(s);
    left := TrimStartSplits(TrimEnd(s));
  }
}
