/** Reading undoes writing: the round trip of framed messages, and what a cut-off frame gives. */
module LspProperties {
  import opened Common
  import opened LspFraming
  import Decimal

  predicate Ascii(s: string) {
    forall i | 0 <= i < |s| :: s[i] as int < 0x80
  }

  lemma {:induction false} AsciiIsValid(s: string)
    requires Ascii(s)
    ensures ValidUtf8(s)
    decreases |s|
  {
    if s != [] {
      AsciiIsValid(s[1..]);
    }
  }

  lemma CharLengthExtends(a: string, b: string)
    requires CharLength(a) > 0
    ensures CharLength(a + b) == CharLength(a)
  {
    assert forall i | 0 <= i < |a| :: (a + b)[i] == a[i];
  }

  /** Validity goes character by character. */
  lemma ValidStep(s: string, n: nat)
    requires 0 < n == CharLength(s) && ValidUtf8(s[n..])
    ensures ValidUtf8(s)
  {
  }

  lemma FirstChar(s: string) returns (n: nat)
    requires s != [] && ValidUtf8(s)
    ensures 0 < n == CharLength(s) && ValidUtf8(s[n..])
  {
    n := CharLength(s);
  }

  lemma DropFirst(a: string, b: string, n: nat)
    requires n <= |a|
    ensures (a + b)[n..] == a[n..] + b
  {
  }

  lemma {:induction false} ValidConcat(a: string, b: string)
    requires ValidUtf8(a) && ValidUtf8(b)
    ensures ValidUtf8(a + b)
    decreases |a|
  {
    if a == [] {
      assert a + b == b;
    } else {
      var n := FirstChar(a);
      CharLengthExtends(a, b);
      ValidConcat(a[n..], b);
      DropFirst(a, b, n);
      ValidStep(a + b, n);
    }
  }

  /** A line ends at its only newline. */
  lemma {:induction false} LineLengthOf(line: string, rest: string)
    requires '\n' !in line
    ensures LineLength(line + "\n" + rest) == |line| + 1
    decreases |line|
  {
    var s := line + "\n" + rest;
    if line != [] {
      LineLengthOf(line[1..], rest);
      assert s[1..] == line[1..] + "\n" + rest;
    }
  }

  lemma {:induction false} LineLengthWhole(s: string)
    requires '\n' !in s
    ensures LineLength(s) == |s|
  {
    if s != [] {
      LineLengthWhole(s[1..]);
    }
  }

  lemma TrimEndOfLine(line: string)
    ensures TrimEnd(line + "\r\n") == TrimEnd(line)
  {
    var s, t := line + "\r\n", line + "\r";
    assert s[|s| - 1] == '\n' && s[..|s| - 1] == t;
    assert t[|t| - 1] == '\r' && t[..|t| - 1] == line;
    assert TrimEnd(s) == TrimEnd(t);
  }

  predicate Solid(c: char) {
    0x20 < c as int < 0x80
  }

  lemma SolidStart(s: string)
    requires s != [] && Solid(s[0])
    ensures SpaceAtStart(s) == 0 && TrimStart(s) == s
  {
  }

  lemma SolidEnd(s: string)
    requires s != [] && Solid(s[|s| - 1])
    ensures SpaceAtEnd(s) == 0 && TrimEnd(s) == s
  {
  }

  /** Trimming the end of a text that starts with a visible character leaves that character. */
  lemma {:induction false} TrimEndKeepsStart(s: string)
    requires s != [] && Solid(s[0])
    ensures TrimEnd(s) != [] && TrimEnd(s)[0] == s[0]
    decreases |s|
  {
    var n := SpaceAtEnd(s);
    if n > 0 {
      TrimEndKeepsStart(s[..|s| - n]);
    }
  }

  const FIELD_START := "Content-Length: "

  function LengthLine(n: nat): string {
    FIELD_START + Decimal.Print(n)
  }

  lemma FieldStartFacts()
    ensures FIELD_START == LENGTH_FIELD + " " && Ascii(FIELD_START) && '\n' !in FIELD_START && Solid(FIELD_START[0])
  {
  }

  lemma DigitsFacts(n: nat)
    ensures var digits := Decimal.Print(n);
            && digits != [] && Ascii(digits) && '\n' !in digits
            && Solid(digits[0]) && Solid(digits[|digits| - 1])
  {
    Decimal.PrintThenValue(n);
    var digits := Decimal.Print(n);
    assert forall i | 0 <= i < |digits| :: Decimal.IsDigit(digits[i]);
  }

  lemma TrimDigits(digits: string)
    requires digits != [] && Solid(digits[0]) && Solid(digits[|digits| - 1])
    ensures Trim(" " + digits) == digits
  {
    var s := " " + digits;
    SolidEnd(s);
    assert s[0] == ' ' && s[1..] == digits;
    SolidStart(digits);
  }

  lemma LengthLineFacts(n: nat)
    ensures var line := LengthLine(n);
            && Ascii(line) && '\n' !in line
            && line != [] && Solid(line[0]) && Solid(line[|line| - 1])
            && LENGTH_FIELD <= line
            && Trim(line[|LENGTH_FIELD|..]) == Decimal.Print(n)
  {
    FieldStartFacts();
    DigitsFacts(n);
    var digits := Decimal.Print(n);
    TrimDigits(digits);
    var line := LengthLine(n);
    assert line == LENGTH_FIELD + (" " + digits);
    assert line[|LENGTH_FIELD|..] == " " + digits;
  }

  lemma ParsePrinted(n: nat)
    requires n <= USIZE_MAX
    ensures ParseUsize(Decimal.Print(n)) == Some(n)
  {
    Decimal.PrintThenValue(n);
  }

  lemma LineIsValid(line: string)
    requires ValidUtf8(line)
    ensures ValidUtf8(line + "\r\n")
  {
    AsciiIsValid("\r\n");
    ValidConcat(line, "\r\n");
  }

  /** The reader takes one whole line off the stream. */
  lemma ReadOneLine(line: string, rest: string)
    requires '\n' !in line
    ensures var s := line + "\r\n" + rest;
            var n := LineLength(s);
            s[..n] == line + "\r\n" && s[n..] == rest
  {
    var s := line + "\r\n" + rest;
    assert s == (line + "\r") + "\n" + rest;
    LineLengthOf(line + "\r", rest);
  }

  /** One header line, as the reader sees it. */
  lemma ReadStep(line: string, rest: string, length: Option<nat>)
    requires '\n' !in line && ValidUtf8(line)
    ensures ReadFrom(line + "\r\n" + rest, length) ==
            if Trim(line) == [] then ReadBody(rest, length)
            else if LENGTH_FIELD <= Trim(line) then
              var parsed := ParseUsize(Trim(Trim(line)[|LENGTH_FIELD|..]));
              if parsed.None? then Failed(BadLength) else ReadFrom(rest, parsed)
            else ReadFrom(rest, length)
  {
    LineIsValid(line);
    ReadOneLine(line, rest);
    TrimEndOfLine(line);
  }

  lemma ReadLengthLine(n: nat, rest: string, length: Option<nat>)
    requires n <= USIZE_MAX
    ensures ReadFrom(LengthLine(n) + "\r\n" + rest, length) == ReadFrom(rest, Some(n))
  {
    var line := LengthLine(n);
    LengthLineFacts(n);
    AsciiIsValid(line);
    ReadStep(line, rest, length);
    SolidEnd(line);
    SolidStart(line);
    ParsePrinted(n);
  }

  lemma ReadEmptyLine(rest: string, length: Option<nat>)
    ensures ReadFrom("\r\n" + rest, length) == ReadBody(rest, length)
  {
    ReadStep([], rest, length);
    assert [] + "\r\n" + rest == "\r\n" + rest;
  }

  /** A further header field: one line, not blank, and not a content length. */
  predicate ExtraField(h: string) {
    '\n' !in h && ValidUtf8(h) && Trim(h) != [] && !(LENGTH_FIELD <= Trim(h))
  }

  function Lines(fields: seq<string>): string {
    if fields == [] then [] else fields[0] + "\r\n" + Lines(fields[1..])
  }

  lemma {:induction false} SkipExtraFields(fields: seq<string>, rest: string, length: Option<nat>)
    requires forall h | h in fields :: ExtraField(h)
    ensures ReadFrom(Lines(fields) + rest, length) == ReadFrom(rest, length)
    decreases |fields|
  {
    if fields == [] {
      assert Lines(fields) + rest == rest;
    } else {
      var more := Lines(fields[1..]) + rest;
      assert Lines(fields) + rest == fields[0] + "\r\n" + more;
      assert fields[0] in fields;
      ReadStep(fields[0], more, length);
      SkipExtraFields(fields[1..], rest, length);
    }
  }

  /** Without a content length of that exact spelling there is no message, whatever follows. */
  lemma NoLengthNoMessage(fields: seq<string>, rest: string)
    requires forall h | h in fields :: ExtraField(h)
    ensures ReadFrom(Lines(fields) + ("\r\n" + rest), None) == Failed(NoLength)
  {
    SkipExtraFields(fields, "\r\n" + rest, None);
    ReadEmptyLine(rest, None);
  }

  /** The name of the field is compared case-sensitively: in lower case it is just another field. */
  lemma LowerCaseIsIgnored(n: nat, rest: string)
    ensures ReadFrom(Lines(["content-length: " + Decimal.Print(n)]) + ("\r\n" + rest), None) == Failed(NoLength)
  {
    var start := "content-length: ";
    var h := start + Decimal.Print(n);
    DigitsFacts(n);
    assert Ascii(start) && '\n' !in start && Solid(start[0]) && start[0] == 'c';
    assert h[0] == 'c' && Solid(h[|h| - 1]);
    AsciiIsValid(h);
    SolidEnd(h);
    SolidStart(h);
    assert !(LENGTH_FIELD <= h);
    NoLengthNoMessage([h], rest);
  }

  /** A message on the wire, with any further header fields around its content length. */
  datatype Packet = Packet(before: seq<string>, after: seq<string>, body: string) {
    predicate Valid() {
      && (forall h | h in before :: ExtraField(h))
      && (forall h | h in after :: ExtraField(h))
      && ValidUtf8(body) && |body| <= USIZE_MAX
    }

    function Bytes(): string {
      Lines(before) + (LengthLine(|body|) + "\r\n" + (Lines(after) + ("\r\n" + body)))
    }
  }

  lemma FrameIsPacket(body: string)
    ensures Frame(body) == Packet([], [], body).Bytes()
  {
    var digits := Decimal.Print(|body|);
    assert "\r\n\r\n" == "\r\n" + "\r\n";
    calc {
      Packet([], [], body).Bytes();
      "Content-Length: " + digits + "\r\n" + ("\r\n" + body);
      "Content-Length: " + digits + ("\r\n" + "\r\n") + body;
    }
  }

  lemma ReadPacket(p: Packet, rest: string)
    requires p.Valid()
    ensures ReadFrom(p.Bytes() + rest, None) == Message(p.body, rest)
  {
    var n := |p.body|;
    var tail := p.body + rest;
    var afterLength := Lines(p.after) + ("\r\n" + tail);
    var fromLength := LengthLine(n) + "\r\n" + afterLength;
    assert p.Bytes() + rest == Lines(p.before) + fromLength;
    SkipExtraFields(p.before, fromLength, None);
    ReadLengthLine(n, afterLength, None);
    SkipExtraFields(p.after, "\r\n" + tail, Some(n));
    ReadEmptyLine(tail, Some(n));
    assert tail[..n] == p.body && tail[n..] == rest;
  }

  function Stream(packets: seq<Packet>): string {
    if packets == [] then [] else packets[0].Bytes() + Stream(packets[1..])
  }

  function Bodies(packets: seq<Packet>): seq<string> {
    if packets == [] then [] else [packets[0].body] + Bodies(packets[1..])
  }

  /** Read `count` messages in a row: their bodies and the bytes left over. */
  function ReadMany(s: string, count: nat): Option<(seq<string>, string)>
    decreases count
  {
    if count == 0 then Some(([], s)) else
    match ReadFrom(s, None)
    case Failed(_) => None
    case Message(body, rest) =>
      match ReadMany(rest, count - 1)
      case None => None
      case Some((bodies, left)) => Some(([body] + bodies, left))
  }

  /** Reading back any sequence of messages gives exactly their bodies and leaves the bytes behind
      them untouched, with any further header fields and for every content length. */
  lemma {:induction false} RoundTrip(packets: seq<Packet>, rest: string)
    requires forall p | p in packets :: p.Valid()
    ensures ReadMany(Stream(packets) + rest, |packets|) == Some((Bodies(packets), rest))
    decreases |packets|
  {
    if packets == [] {
      assert Stream(packets) + rest == rest;
    } else {
      var more := packets[1..];
      assert Stream(packets) + rest == packets[0].Bytes() + (Stream(more) + rest);
      ReadPacket(packets[0], Stream(more) + rest);
      RoundTrip(more, rest);
    }
  }

  /** What the client writes, the reader reads. */
  lemma FrameRoundTrip(body: string, rest: string)
    requires ValidUtf8(body) && |body| <= USIZE_MAX
    ensures ReadFrom(Frame(body) + rest, None) == Message(body, rest)
  {
    FrameIsPacket(body);
    ReadPacket(Packet([], [], body), rest);
  }

  /** A successful read either ends its headers at the first line or goes on behind it. */
  lemma ReadGoesOn(s: string, length: Option<nat>) returns (n: nat, ends: bool, known: Option<nat>)
    requires ReadFrom(s, length).Message?
    ensures 0 < n <= |s|
    ensures ReadFrom(s, length) == if ends then ReadBody(s[n..], length) else ReadFrom(s[n..], known)
  {
    n := LineLength(s);
    var field := Trim(s[..n]);
    ends := field == [];
    known := if LENGTH_FIELD <= field then ParseUsize(Trim(field[|LENGTH_FIELD|..])) else length;
  }

  /** The stream from `at` on is the body of the message followed by what it leaves behind. */
  predicate SplitsAt(s: string, at: nat, m: Outcome)
    requires m.Message?
  {
    at <= |s| && s[at..] == m.body + m.rest
  }

  lemma SplitsFurther(s: string, n: nat, at: nat, m: Outcome)
    requires n <= |s| && m.Message? && SplitsAt(s[n..], at, m)
    ensures SplitsAt(s, n + at, m)
  {
    assert s[n..][at..] == s[n + at..];
  }

  lemma BodySplits(s: string, length: Option<nat>)
    requires ReadBody(s, length).Message?
    ensures SplitsAt(s, 0, ReadBody(s, length))
  {
  }

  /** On any stream at all, a message that is read lies behind at least one header byte, and the
      stream goes on exactly where the body ends. */
  lemma {:induction false} ReadSplitsStream(s: string, length: Option<nat>) returns (at: nat)
    requires ReadFrom(s, length).Message?
    ensures 0 < at && SplitsAt(s, at, ReadFrom(s, length))
    decreases |s|
  {
    var n, ends, known := ReadGoesOn(s, length);
    var m := ReadFrom(s, length);
    at := 0;
    if ends {
      BodySplits(s[n..], length);
    } else {
      at := ReadSplitsStream(s[n..], known);
    }
    SplitsFurther(s, n, at, m);
    at := n + at;
  }

  /** The last line of a stream, without its newline: the stream ends there. */
  lemma LastLineFails(s: string, length: Option<nat>)
    requires s != [] && '\n' !in s && Solid(s[0])
    ensures ReadFrom(s, length).Failed?
  {
    LineLengthWhole(s);
    TrimEndKeepsStart(s);
    SolidStart(TrimEnd(s));
    assert s[..|s|] == s && s[|s|..] == [];
  }

  lemma CutInLengthLine(n: nat, k: nat, length: Option<nat>)
    requires 0 < k <= |LengthLine(n)| + 1
    ensures ReadFrom((LengthLine(n) + "\r\n")[..k], length).Failed?
  {
    LengthLineFacts(n);
    var s := (LengthLine(n) + "\r\n")[..k];
    var t := LengthLine(n) + "\r";
    assert s == t[..k];
    LastLineFails(s, length);
  }

  lemma LoneCarriageReturn(length: Option<nat>)
    ensures ReadFrom("\r", length) == ReadBody([], length)
  {
    var s := "\r";
    LineLengthWhole(s);
    AsciiIsValid(s);
    assert s[..1] == s && s[1..] == [] && s[..0] == [];
    assert TrimEnd(s) == TrimEnd(s[..0]) == [];
  }

  /** The stream ends within the empty line or the body. */
  lemma CutAfterLengthLine(body: string, j: nat)
    requires j < 2 + |body|
    ensures ReadFrom(("\r\n" + body)[..j], Some(|body|)).Message? <==> body == [] && j == 1
  {
    var tail := ("\r\n" + body)[..j];
    if j == 1 {
      assert tail == "\r";
      LoneCarriageReturn(Some(|body|));
    } else if j >= 2 {
      var cut := body[..j - 2];
      assert tail == "\r\n" + cut;
      ReadEmptyLine(cut, Some(|body|));
    }
  }

  lemma CutPacketFails(body: string, k: nat)
    requires |body| <= USIZE_MAX && k < |LengthLine(|body|)| + 4 + |body|
    ensures ReadFrom((LengthLine(|body|) + "\r\n" + ("\r\n" + body))[..k], None).Message?
            <==> body == [] && k == |LengthLine(|body|)| + 3
  {
    var head, tail := LengthLine(|body|) + "\r\n", "\r\n" + body;
    if 0 < k < |head| {
      assert (head + tail)[..k] == head[..k];
      CutInLengthLine(|body|, k, None);
    } else if k >= |head| {
      var j := k - |head|;
      assert (head + tail)[..k] == head + tail[..j];
      ReadLengthLine(|body|, tail[..j], None);
      CutAfterLengthLine(body, j);
    }
  }

  /** A frame that is cut off is never taken for a message, with exactly one exception: an empty
      body whose final newline is missing. */
  lemma CutFrameFails(body: string, k: nat)
    requires |body| <= USIZE_MAX && k < |Frame(body)|
    ensures ReadFrom(Frame(body)[..k], None).Message? <==> body == [] && k == |Frame(body)| - 1
  {
    FrameIsPacket(body);
    var frame := LengthLine(|body|) + "\r\n" + ("\r\n" + body);
    assert Packet([], [], body).Bytes() == frame;
    assert |frame| == |LengthLine(|body|)| + 4 + |body|;
    CutPacketFails(body, k);
  }
}
