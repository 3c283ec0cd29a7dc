/** Framing of the Language Server Protocol base protocol: a header part of `\r\n`-terminated
    fields, an empty line, and a body of `Content-Length` bytes. A stream is a byte sequence, one
    `char` per byte. */
module LspFraming {
  import opened Common
  import Decimal

  datatype Failure = Closed | BadHeader | BadLength | NoLength | ShortBody | NotUtf8

  datatype Outcome = Message(body: string, rest: string) | Failed(failure: Failure)

  // UTF-8 well-formedness, as in the table of section 4 of RFC 3629.

  predicate Between(s: string, i: nat, low: int, high: int) {
    i < |s| && low <= s[i] as int <= high
  }

  predicate Tails(s: string, from: nat, to: nat) {
    to <= |s| && forall i | from <= i < to :: 0x80 <= s[i] as int <= 0xBF
  }

  /** The length of the well-formed character that `s` starts with, or 0. */
  function CharLength(s: string): (n: nat)
    ensures n <= |s|
  {
    if Between(s, 0, 0x00, 0x7F) then 1
    else if Between(s, 0, 0xC2, 0xDF) && Tails(s, 1, 2) then 2
    else if Between(s, 0, 0xE0, 0xE0) && Between(s, 1, 0xA0, 0xBF) && Tails(s, 2, 3) then 3
    else if Between(s, 0, 0xED, 0xED) && Between(s, 1, 0x80, 0x9F) && Tails(s, 2, 3) then 3
    else if Between(s, 0, 0xE1, 0xEF) && !Between(s, 0, 0xED, 0xED) && Tails(s, 1, 3) then 3
    else if Between(s, 0, 0xF0, 0xF0) && Between(s, 1, 0x90, 0xBF) && Tails(s, 2, 4) then 4
    else if Between(s, 0, 0xF1, 0xF3) && Tails(s, 1, 4) then 4
    else if Between(s, 0, 0xF4, 0xF4) && Between(s, 1, 0x80, 0x8F) && Tails(s, 2, 4) then 4
    else 0
  }

  predicate ValidUtf8(s: string)
    decreases |s|
  {
    s == [] || (CharLength(s) > 0 && ValidUtf8(s[CharLength(s)..]))
  }

  // Trimming of Unicode white space on the UTF-8 bytes.

  predicate Space1(a: char) {
    0x09 <= a as int <= 0x0D || a == ' '
  }

  predicate Space2(a: char, b: char) {
    a as int == 0xC2 && (b as int == 0x85 || b as int == 0xA0)
  }

  predicate Space3(a: char, b: char, c: char) {
    var x, y, z := a as int, b as int, c as int;
    || (x == 0xE1 && y == 0x9A && z == 0x80)
    || (x == 0xE2 && y == 0x80 && (0x80 <= z <= 0x8A || z == 0xA8 || z == 0xA9 || z == 0xAF))
    || (x == 0xE2 && y == 0x81 && z == 0x9F)
    || (x == 0xE3 && y == 0x80 && z == 0x80)
  }

  /** The length of the white space character that `s` starts with, or 0. */
  function SpaceAtStart(s: string): (n: nat)
    ensures n <= |s|
  {
    if |s| >= 1 && Space1(s[0]) then 1
    else if |s| >= 2 && Space2(s[0], s[1]) then 2
    else if |s| >= 3 && Space3(s[0], s[1], s[2]) then 3
    else 0
  }

  function SpaceAtEnd(s: string): (n: nat)
    ensures n <= |s|
  {
    var m := |s|;
    if m >= 1 && Space1(s[m - 1]) then 1
    else if m >= 2 && Space2(s[m - 2], s[m - 1]) then 2
    else if m >= 3 && Space3(s[m - 3], s[m - 2], s[m - 1]) then 3
    else 0
  }

  function TrimStart(s: string): string
    decreases |s|
  {
    if SpaceAtStart(s) == 0 then s else TrimStart(s[SpaceAtStart(s)..])
  }

  function TrimEnd(s: string): string
    decreases |s|
  {
    if SpaceAtEnd(s) == 0 then s else TrimEnd(s[..|s| - SpaceAtEnd(s)])
  }

  function Trim(s: string): string {
    TrimStart(TrimEnd(s))
  }

  const LENGTH_FIELD := "Content-Length:"

  /** Rust's `parse::<usize>`: an optional plus sign and at least one digit, within range. */
  function ParseUsize(s: string): Option<nat> {
    var digits := if |s| > 1 && s[0] == '+' then s[1..] else s;
    if digits != [] && Decimal.AllDigits(digits) && Decimal.Value(digits) <= USIZE_MAX
    then Some(Decimal.Value(digits)) else None
  }

  /** The length of the first line, its `\n` included; the whole stream if there is no `\n`. */
  function LineLength(s: string): (n: nat)
    ensures n <= |s| && (s != [] ==> n > 0)
  {
    if s == [] then 0 else if s[0] == '\n' then 1 else 1 + LineLength(s[1..])
  }

  function ReadBody(s: string, length: Option<nat>): Outcome {
    if length.None? then Failed(NoLength)
    else if |s| < length.value then Failed(ShortBody)
    else if !ValidUtf8(s[..length.value]) then Failed(NotUtf8)
    else Message(s[..length.value], s[length.value..])
  }

  /** Read header lines up to an empty one, keeping the last content length, then the body. */
  function ReadFrom(s: string, length: Option<nat>): Outcome
    decreases |s|
  {
    if s == [] then Failed(Closed) else
    var n := LineLength(s);
    var field := Trim(s[..n]);
    if !ValidUtf8(s[..n]) then Failed(BadHeader)
    else if field == [] then ReadBody(s[n..], length)
    else if LENGTH_FIELD <= field then
      var parsed := ParseUsize(Trim(field[|LENGTH_FIELD|..]));
      if parsed.None? then Failed(BadLength) else ReadFrom(s[n..], parsed)
    else ReadFrom(s[n..], length)
  }

  function Frame(body: string): string {
    "Content-Length: " + Decimal.Print(|body|) + "\r\n\r\n" + body
  }

  /** A pipe: one side sends framed messages, the other reads them back. */
  class Channel {
    var bytes: string

    constructor ()
      ensures bytes == []
    {
      bytes := [];
    }

    method Send(body: string)
      modifies this
      ensures bytes == old(bytes) + Frame(body)
    {
      bytes := bytes + ("Content-Length: " + Decimal.Print(|body|) + "\r\n\r\n" + body);
    }

    method ReadMessage() returns (r: Outcome)
      modifies this
      ensures r == ReadFrom(old(bytes), None)
      ensures r.Message? ==> bytes == r.rest
    {
      var length: Option<nat> := None;
      while true
        invariant ReadFrom(bytes, length) == ReadFrom(old(bytes), None)
        decreases |bytes|
      {
        if bytes == [] { return Failed(Closed); }
        var n := LineLength(bytes);
        var line := bytes[..n];
        if !ValidUtf8(line) { return Failed(BadHeader); }
        bytes := bytes[n..];
        var field := Trim(line);
        if field == [] { break; }
        if LENGTH_FIELD <= field {
          var parsed := ParseUsize(Trim(field[|LENGTH_FIELD|..]));
          if parsed.None? { return Failed(BadLength); }
          length := parsed;
        }
      }
      if length.None? { return Failed(NoLength); }
      if |bytes| < length.value { return Failed(ShortBody); }
      var body := bytes[..length.value];
      bytes := bytes[length.value..];
      if !ValidUtf8(body) { return Failed(NotUtf8); }
      return Message(body, bytes);
    }
  }
}
