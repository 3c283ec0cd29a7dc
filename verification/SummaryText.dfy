/** The text of a summary, part by part and byte by byte. */
module SummaryText {
  import opened Common
  import opened SessionManager
  import opened SessionProperties
  import Decimal

  /** Where part `i` starts in the joined text. */
  function Offset(parts: seq<string>, i: nat): nat
    requires i <= |parts|
  {
    if i == 0 then 0 else Offset(parts, i - 1) + |parts[i - 1]| + 1
  }

  lemma {:induction false} OffsetOfPrefix(parts: seq<string>, n: nat, i: nat)
    requires i <= n <= |parts|
    ensures Offset(parts[..n], i) == Offset(parts, i)
    decreases i
  {
    if i > 0 {
      OffsetOfPrefix(parts, n, i - 1);
    }
  }

  lemma {:induction false} JoinedLength(parts: seq<string>)
    requires parts != []
    ensures |Join(parts)| + 1 == Offset(parts, |parts|)
    decreases |parts|
  {
    var n := |parts| - 1;
    if n == 0 {
      assert Offset(parts, 1) == Offset(parts, 0) + |parts[0]| + 1;
    } else {
      JoinedLength(parts[..n]);
      OffsetOfPrefix(parts, n, n);
    }
  }

  /** The text has the bytes of `part` at `at`, behind a newline unless it starts with them. */
  predicate HasPart(text: string, part: string, at: nat) {
    && at + |part| <= |text|
    && (forall j | 0 <= j < |part| :: text[at + j] == part[j])
    && (at > 0 ==> text[at - 1] == '\n')
  }

  lemma EarlierPart(text: string, init: string, last: string, part: string, at: nat)
    requires text == init + "\n" + last && HasPart(init, part, at)
    ensures HasPart(text, part, at)
  {
  }

  lemma LastPartOf(text: string, init: string, last: string)
    requires text == init + "\n" + last
    ensures HasPart(text, last, |init| + 1)
  {
  }

  lemma JoinStep(parts: seq<string>, init: seq<string>, last: string)
    requires |parts| > 1 && init == parts[..|parts| - 1] && last == parts[|parts| - 1]
    ensures Join(parts) == Join(init) + "\n" + last && |Join(init)| + 1 == Offset(parts, |parts| - 1)
  {
    JoinedLength(init);
    OffsetOfPrefix(parts, |parts| - 1, |parts| - 1);
  }

  /** The joined text is the parts, one after the other, with one newline between them. */
  lemma {:induction false} JoinHasPart(parts: seq<string>, i: nat)
    requires i < |parts|
    ensures HasPart(Join(parts), parts[i], Offset(parts, i))
    decreases |parts|
  {
    if |parts| > 1 {
      var n := |parts| - 1;
      var init, last := parts[..n], parts[n];
      JoinStep(parts, init, last);
      if i < n {
        JoinHasPart(init, i);
        OffsetOfPrefix(parts, n, i);
        EarlierPart(Join(parts), Join(init), last, parts[i], Offset(parts, i));
      } else {
        LastPartOf(Join(parts), Join(init), last);
      }
    }
  }

  /** A listed message is a dash and its first hundred bytes, with an ellipsis if it is longer. */
  lemma BulletShows(m: Message)
    ensures |m.content| <= 100 ==> Bullet(m) == "- " + m.content
    ensures |m.content| > 100 ==>
              |Bullet(m)| == 105 && Bullet(m)[..2] == "- " && Bullet(m)[2..102] == m.content[..100]
              && Bullet(m)[102..] == "..."
  {
    if |m.content| > 100 {
      assert Bullet(m) == "- " + m.content[..100] + "...";
    }
  }

  predicate CutsCharacter(m: Message) {
    |m.content| > 100 && 0x80 <= m.content[100] as int <= 0xBF
  }

  lemma CutIff(m: Message)
    ensures CanAbbreviate(m) <==> !CutsCharacter(m)
  {
  }

  predicate SomeCut(users: seq<Message>) {
    exists i :: 0 <= i < |users| && i < 20 && CutsCharacter(users[i])
  }

  lemma ListedCut(users: seq<Message>)
    ensures AllCanAbbreviate(Take(users, 20)) <==> !SomeCut(users)
  {
    var listed := Take(users, 20);
    assert |listed| == if |users| < 20 then |users| else 20;
    forall i | 0 <= i < |listed| ensures CanAbbreviate(listed[i]) <==> !CutsCharacter(users[i]) {
      assert listed[i] == users[i];
      CutIff(users[i]);
    }
    if AllCanAbbreviate(listed) {
      forall i | 0 <= i < |users| && i < 20 ensures !CutsCharacter(users[i]) {
        assert CanAbbreviate(listed[i]);
      }
    } else {
      var i :| 0 <= i < |listed| && !CanAbbreviate(listed[i]);
      assert CutsCharacter(users[i]);
    }
  }

  /** The summary panics exactly if one of the first twenty user messages is longer than a hundred
      bytes and has a continuation byte there. */
  lemma PanicsIff(messages: seq<Message>)
    ensures Panics(messages) <==> SomeCut(WithRole(messages, User))
  {
    ListedCut(WithRole(messages, User));
  }

  /** `parts` is one line, then `users`, then `others`. */
  ghost predicate InThree(parts: seq<string>, first: string, users: seq<string>, others: seq<string>) {
    && |parts| == 1 + |users| + |others| && parts[0] == first
    && (forall i | 0 <= i < |users| :: parts[1 + i] == users[i])
    && (forall i | 0 <= i < |others| :: parts[1 + |users| + i] == others[i])
  }

  lemma ThreeParts(first: string, users: seq<string>, others: seq<string>)
    ensures InThree([first] + users + others, first, users, others)
  {
  }

  /** The number of user messages, twenty lines for them, and the number of the rest. */
  predicate ListsTopics(lines: seq<string>, n: nat) {
    && |lines| == (if n == 0 then 0 else if n <= 20 then n + 1 else 22)
    && (n > 0 ==> lines[0] == "User discussed " + Decimal.Print(n) + " topic(s):")
    && (n > 20 ==> lines[21] == "  ...and " + Decimal.Print(n - 20) + " more messages")
  }

  /** The numbers of responses and of tool executions, if there were any. */
  predicate ListsOthers(lines: seq<string>, answers: nat, tools: nat) {
    && |lines| == (if answers == 0 then 0 else 1) + (if tools == 0 then 0 else 1)
    && (answers > 0 ==> lines[0] == "Assistant provided " + Decimal.Print(answers) + " response(s).")
    && (tools > 0 ==> lines[|lines| - 1] == Decimal.Print(tools) + " tool execution(s) were performed.")
  }

  lemma UserLines(users: seq<Message>)
    ensures ListsTopics(UserParts(users), |users|)
  {
    BulletsAreShort(Take(users, 20));
  }

  lemma OtherLines(assistants: seq<Message>, tools: seq<Message>)
    ensures ListsOthers(OtherParts(assistants, tools), |assistants|, |tools|)
  {
  }

  /** The lines of a summary: the heading; the user messages with their number and, beyond twenty, the
      number of the rest; then the numbers of responses and of tool executions. */
  lemma SummaryLines(messages: seq<Message>) returns (users: seq<string>, others: seq<string>)
    ensures InThree(SummaryParts(messages), "[Context Summary] The following is a summary of the earlier conversation:",
                    users, others)
    ensures ListsTopics(users, |WithRole(messages, User)|)
    ensures ListsOthers(others, |WithRole(messages, Assistant)|, |WithRole(messages, Tool)|)
  {
    var asked, answered, ran := WithRole(messages, User), WithRole(messages, Assistant), WithRole(messages, Tool);
    users, others := UserParts(asked), OtherParts(answered, ran);
    UserLines(asked);
    OtherLines(answered, ran);
    ThreeParts(HEADER, users, others);
  }
}
