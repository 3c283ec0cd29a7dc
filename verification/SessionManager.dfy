/** Session contexts: a token-counted window on an unbounded message log.

    Text is a sequence of UTF-8 bytes, one `char` per byte. Token counts are `u32` and wrap, as in a
    build without overflow checks; with them an addition that wraps here would panic. */
module SessionManager {
  import opened Common
  import Decimal

  type SessionId = nat

  const U32_SIZE: nat := 0x1_0000_0000

  type U32 = n: nat | n < 0x1_0000_0000

  const PRESERVED_TURNS: nat := 10

  datatype Role = User | Assistant | System | Tool

  datatype Message = Message(role: Role, content: string, tokens: U32)

  datatype KnowledgeEntry = KnowledgeEntry(title: string, content: string)

  datatype Context = Context(messages: seq<Message>, knowledge: seq<KnowledgeEntry>, totalTokens: U32, hasSummary: bool)

  datatype Config = Config(tokenLimit: U32, maxSessions: nat)

  type Sessions = map<SessionId, Context>

  const EmptyContext := Context([], [], 0, false)

  function Wrap(n: nat): U32 {
    n % U32_SIZE
  }

  /** 80% of the limit, rounded down. */
  function Threshold(c: Config): (t: nat)
    ensures 5 * t <= 4 * c.tokenLimit < 5 * (t + 1)
  {
    4 * c.tokenLimit / 5
  }

  function SumTokens(messages: seq<Message>): nat {
    if messages == [] then 0 else SumTokens(messages[..|messages| - 1]) + messages[|messages| - 1].tokens
  }

  /** One token for every four bytes, rounded up; the conversion to `u32` saturates. */
  function EstimateTokens(text: string): (n: U32)
    ensures |text| <= 4 * (U32_SIZE - 1) ==> |text| <= 4 * n < |text| + 4
    ensures |text| > 4 * (U32_SIZE - 1) ==> n == U32_SIZE - 1
  {
    var n := (|text| + 3) / 4;
    if n < U32_SIZE then n else U32_SIZE - 1
  }

  // The summary text.

  const HEADER := "[Context Summary] The following is a summary of the earlier conversation:"

  function WithRole(messages: seq<Message>, role: Role): seq<Message> {
    if messages == [] then [] else
    WithRole(messages[..|messages| - 1], role) +
    (if messages[|messages| - 1].role == role then [messages[|messages| - 1]] else [])
  }

  function Take(messages: seq<Message>, n: nat): seq<Message> {
    if |messages| <= n then messages else messages[..n]
  }

  /** Cutting at byte 100 is possible only between two characters, that is, not in front of a
      continuation byte. Cutting within a character panics. */
  predicate CanAbbreviate(m: Message) {
    |m.content| > 100 ==> !(0x80 <= m.content[100] as int <= 0xBF)
  }

  function Bullet(m: Message): string {
    "- " + if |m.content| > 100 then m.content[..100] + "..." else m.content
  }

  function Bullets(messages: seq<Message>): seq<string> {
    if messages == [] then [] else Bullets(messages[..|messages| - 1]) + [Bullet(messages[|messages| - 1])]
  }

  function TopicLine(n: nat): string {
    "User discussed " + Decimal.Print(n) + " topic(s):"
  }

  function MoreLine(n: nat): string {
    "  ...and " + Decimal.Print(n) + " more messages"
  }

  function ResponseLine(n: nat): string {
    "Assistant provided " + Decimal.Print(n) + " response(s)."
  }

  function ToolLine(n: nat): string {
    Decimal.Print(n) + " tool execution(s) were performed."
  }

  predicate AllCanAbbreviate(messages: seq<Message>) {
    forall i | 0 <= i < |messages| :: CanAbbreviate(messages[i])
  }

  predicate Panics(messages: seq<Message>) {
    !AllCanAbbreviate(Take(WithRole(messages, User), 20))
  }

  function UserParts(users: seq<Message>): seq<string> {
    if users == [] then [] else
    [TopicLine(|users|)] + Bullets(Take(users, 20)) + (if |users| > 20 then [MoreLine(|users| - 20)] else [])
  }

  function OtherParts(assistants: seq<Message>, tools: seq<Message>): seq<string> {
    (if assistants == [] then [] else [ResponseLine(|assistants|)]) + (if tools == [] then [] else [ToolLine(|tools|)])
  }

  function SummaryParts(messages: seq<Message>): seq<string> {
    [HEADER] + UserParts(WithRole(messages, User)) + OtherParts(WithRole(messages, Assistant), WithRole(messages, Tool))
  }

  function Join(parts: seq<string>): string {
    if parts == [] then "" else if |parts| == 1 then parts[0] else
    Join(parts[..|parts| - 1]) + "\n" + parts[|parts| - 1]
  }

  function Summary(messages: seq<Message>): string {
    Join(SummaryParts(messages))
  }

  // What happens to one context.

  function Pushed(ctx: Context, m: Message): Context {
    ctx.(messages := ctx.messages + [m], totalTokens := Wrap(ctx.totalTokens + m.tokens))
  }

  function Older(ctx: Context): seq<Message>
    requires |ctx.messages| > PRESERVED_TURNS
  {
    ctx.messages[..|ctx.messages| - PRESERVED_TURNS]
  }

  function Recent(ctx: Context): seq<Message>
    requires |ctx.messages| > PRESERVED_TURNS
  {
    ctx.messages[|ctx.messages| - PRESERVED_TURNS..]
  }

  /** The older messages are drained before the summary is generated, so a panic loses them and
      leaves the old token total. */
  function Summarized(ctx: Context): Context {
    if |ctx.messages| <= PRESERVED_TURNS then ctx
    else if Panics(Older(ctx)) then ctx.(messages := Recent(ctx))
    else WithSummary(ctx, Summary(Older(ctx)))
  }

  function WithSummary(ctx: Context, text: string): Context
    requires |ctx.messages| > PRESERVED_TURNS
  {
    var summary := Message(System, text, EstimateTokens(text));
    ctx.(messages := [summary] + Recent(ctx), hasSummary := true,
         totalTokens := Wrap(summary.tokens + Wrap(SumTokens(Recent(ctx)))))
  }

  predicate NeedsSummary(ctx: Context, c: Config) {
    ctx.totalTokens > Threshold(c) && |ctx.messages| > PRESERVED_TURNS
  }

  datatype Outcome = Success | MaxSessionsReached | SessionNotFound | Panicked

  function Create(s: Sessions, c: Config, id: SessionId): Option<Sessions> {
    if id in s then Some(s) else if |s| >= c.maxSessions then None else Some(s[id := EmptyContext])
  }

  function Added(ctx: Context, c: Config, m: Message): Context {
    var pushed := Pushed(ctx, m);
    if NeedsSummary(pushed, c) then Summarized(pushed) else pushed
  }

  /** The addition calls for a summary, and the summary panics. */
  predicate AddPanics(ctx: Context, c: Config, m: Message) {
    NeedsSummary(Pushed(ctx, m), c) && Panics(Older(Pushed(ctx, m)))
  }

  class Manager {
    const config: Config
    var sessions: Sessions

    constructor (config: Config)
      ensures this.config == config && sessions == map[]
    {
      this.config := config;
      sessions := map[];
    }

    static method ListTopics(users: seq<Message>) returns (parts: Option<seq<string>>)
      requires users != []
      ensures parts == if AllCanAbbreviate(Take(users, 20)) then Some(UserParts(users)) else None
    {
      var lines := [TopicLine(|users|)];
      var listed := Take(users, 20);
      for i := 0 to |listed|
        invariant lines == [TopicLine(|users|)] + Bullets(listed[..i])
        invariant AllCanAbbreviate(listed[..i])
      {
        if !CanAbbreviate(listed[i]) { return None; }
        lines := lines + [Bullet(listed[i])];
        assert listed[..i + 1][..i] == listed[..i];
      }
      assert listed[..|listed|] == listed;
      if |users| > 20 {
        lines := lines + [MoreLine(|users| - 20)];
      }
      assert lines == UserParts(users);
      parts := Some(lines);
    }

    static method GenerateSummary(messages: seq<Message>) returns (text: Option<string>)
      ensures text == if Panics(messages) then None else Some(Summary(messages))
    {
      var parts := [HEADER];
      var users := WithRole(messages, User);
      if users != [] {
        var topics := ListTopics(users);
        if topics.None? { return None; }
        parts := parts + topics.value;
      }
      var assistants, tools := WithRole(messages, Assistant), WithRole(messages, Tool);
      if assistants != [] {
        parts := parts + [ResponseLine(|assistants|)];
      }
      if tools != [] {
        parts := parts + [ToolLine(|tools|)];
      }
      assert parts == SummaryParts(messages);
      text := Some(Join(parts));
    }

    static method SumOf(messages: seq<Message>) returns (sum: U32)
      ensures sum == Wrap(SumTokens(messages))
    {
      sum := 0;
      for i := 0 to |messages|
        invariant sum == Wrap(SumTokens(messages[..i]))
      {
        assert messages[..i + 1][..i] == messages[..i];
        sum := Wrap(sum + messages[i].tokens);
      }
      assert messages[..|messages|] == messages;
    }

    method CreateSession(id: SessionId) returns (ok: bool)
      modifies this
      ensures ok == Create(old(sessions), config, id).Some?
      ensures sessions == if ok then Create(old(sessions), config, id).value else old(sessions)
    {
      if id in sessions { return true; }
      if |sessions| >= config.maxSessions { return false; }
      sessions := sessions[id := EmptyContext];
      return true;
    }

    static method PrependSummary(ctx: Context, text: string) returns (ctx': Context)
      requires |ctx.messages| > PRESERVED_TURNS
      ensures ctx' == WithSummary(ctx, text)
    {
      var recent := ctx.messages[|ctx.messages| - PRESERVED_TURNS..];
      var preserved := SumOf(recent);
      var summary := Message(System, text, EstimateTokens(text));
      ctx' := ctx.(messages := [summary] + recent, hasSummary := true,
                   totalTokens := Wrap(summary.tokens + preserved));
    }

    static method Summarize(ctx: Context) returns (ctx': Context, panicked: bool)
      ensures ctx' == Summarized(ctx)
      ensures panicked <==> |ctx.messages| > PRESERVED_TURNS && Panics(Older(ctx))
    {
      if |ctx.messages| <= PRESERVED_TURNS { return ctx, false; }
      var split := |ctx.messages| - PRESERVED_TURNS;
      var text := GenerateSummary(ctx.messages[..split]);
      panicked := text.None?;
      if panicked {
        ctx' := ctx.(messages := ctx.messages[split..]);
      } else {
        ctx' := PrependSummary(ctx, text.value);
      }
    }

    method SummarizeContext(id: SessionId) returns (outcome: Outcome)
      modifies this
      ensures sessions ==
              if id in old(sessions) then old(sessions)[id := Summarized(old(sessions)[id])] else old(sessions)
      ensures outcome.Success? || outcome.Panicked?
      ensures outcome.Panicked? <==>
                && id in old(sessions)
                && |old(sessions)[id].messages| > PRESERVED_TURNS && Panics(Older(old(sessions)[id]))
    {
      if id !in sessions { return Success; }
      var ctx, panicked := Summarize(sessions[id]);
      sessions := sessions[id := ctx];
      outcome := if panicked then Panicked else Success;
    }

    method AddMessage(id: SessionId, m: Message) returns (outcome: Outcome)
      modifies this
      ensures match Create(old(sessions), config, id)
              case None => outcome == MaxSessionsReached && sessions == old(sessions)
              case Some(s) =>
                && sessions == s[id := Added(s[id], config, m)]
                && outcome == if AddPanics(s[id], config, m) then Panicked else Success
    {
      var ok := CreateSession(id);
      if !ok { return MaxSessionsReached; }
      ghost var created := sessions;
      sessions := sessions[id := Pushed(sessions[id], m)];
      if NeedsSummary(sessions[id], config) {
        outcome := SummarizeContext(id);
      } else {
        outcome := Success;
      }
      assert sessions == created[id := Added(created[id], config, m)];
    }

    method AddKnowledge(id: SessionId, entry: KnowledgeEntry) returns (outcome: Outcome)
      modifies this
      ensures outcome == if id in old(sessions) then Success else SessionNotFound
      ensures sessions ==
              if id in old(sessions)
              then old(sessions)[id := old(sessions)[id].(knowledge := old(sessions)[id].knowledge + [entry])]
              else old(sessions)
    {
      if id !in sessions { return SessionNotFound; }
      var ctx := sessions[id];
      sessions := sessions[id := ctx.(knowledge := ctx.knowledge + [entry])];
      return Success;
    }

    method RemoveSession(id: SessionId) returns (removed: bool)
      modifies this
      ensures removed == (id in old(sessions)) && sessions == old(sessions) - {id}
    {
      removed := id in sessions;
      sessions := sessions - {id};
    }
  }
}
