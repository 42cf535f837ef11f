// internal/usecase/session.go (the message list of a session) and internal/usecase/compressor.go.
module Compression {
  import opened Sequences
  import opened Messages
  import opened TranscriptRepair
  import opened RepairTheorems
  import opened HistoryTruncation
  import opened TruncationTheorems
  import opened ContextBuilding

  function SummaryMessage(content: string): Message {
    Message(Assistant, content, SUMMARY_NAME, [], "")
  }

  // A summary in place of all but the last `keepRecent` messages.
  function Compressed(ms: seq<Message>, content: string, keepRecent: nat): seq<Message> {
    if |ms| <= keepRecent then ms else [SummaryMessage(content)] + ms[|ms| - keepRecent..]
  }

  class Session {
    var id: string
    var externalKey: string
    var tenantID: string
    var msgs: seq<Message>

    constructor (id: string, externalKey: string)
      ensures this.id == id && this.externalKey == externalKey && tenantID == "" && msgs == []
    {
      this.id, this.externalKey, tenantID, msgs := id, externalKey, "", [];
    }

    method AddMessage(m: Message)
      modifies this`msgs
      ensures msgs == old(msgs) + [m]
    {
      msgs := msgs + [m];
    }

    method CompressMessages(summaryContent: string, keepRecent: nat)
      modifies this`msgs
      ensures msgs == Compressed(old(msgs), summaryContent, keepRecent)
    {
      if |msgs| <= keepRecent {
        return;
      }
      var recent := msgs[|msgs| - keepRecent..];
      msgs := [SummaryMessage(summaryContent)] + recent;
    }
  }

  // ---- the text sent for summarisation ----

  function RoleText(r: Role): string {
    match r
    case System => "system"
    case User => "user"
    case Assistant => "assistant"
    case Tool => "tool"
    case Other(text) => text
  }

  function Line(m: Message): string {
    RoleText(m.role) + ": " + m.content + "\n"
  }

  function ConversationText(ms: seq<Message>): string {
    if ms == [] then ""
    else if ms[|ms| - 1].role == System then ConversationText(ms[..|ms| - 1])
    else ConversationText(ms[..|ms| - 1]) + Line(ms[|ms| - 1])
  }

  // White space as Go's unicode.IsSpace has it.
  predicate IsSpace(c: char) {
    || '\t' <= c <= '\r' || c == ' ' || c == '\U{85}' || c == '\U{A0}' || c == '\U{1680}'
    || '\U{2000}' <= c <= '\U{200A}' || c == '\U{2028}' || c == '\U{2029}' || c == '\U{202F}'
    || c == '\U{205F}' || c == '\U{3000}'
  }

  predicate Blank(s: string) {
    forall i :: 0 <= i < |s| ==> IsSpace(s[i])
  }

  function TrimLeft(s: string): string {
    if s != "" && IsSpace(s[0]) then TrimLeft(s[1..]) else s
  }

  function TrimRight(s: string): string {
    if s != "" && IsSpace(s[|s| - 1]) then TrimRight(s[..|s| - 1]) else s
  }

  function TrimSpace(s: string): string {
    TrimRight(TrimLeft(s))
  }

  // ---- the compressor ----

  datatype SummaryReply = SummaryFailed | SummaryText(content: string)

  datatype Prompt = NotAsked | Asked(text: string)

  // The messages a compression would replace.
  function Older(ms: seq<Message>, keepRecent: nat): seq<Message>
    requires keepRecent <= |ms|
  {
    ms[..|ms| - keepRecent]
  }

  // There is something to summarise: a message other than a system message would be dropped.
  predicate Summarises(ms: seq<Message>, keepRecent: nat) {
    |ms| > keepRecent && exists m :: m in Older(ms, keepRecent) && m.role != System
  }

  // The session after a compression; it changes only if the model answers with some text.
  function AfterCompression(ms: seq<Message>, keepRecent: nat, reply: SummaryReply): seq<Message> {
    if Summarises(ms, keepRecent) && reply.SummaryText? && !Blank(reply.content)
    then Compressed(ms, TrimSpace(reply.content), keepRecent)
    else ms
  }

  // The model is asked exactly when there is something to summarise, with the text of all that would
  // be dropped.
  function PromptFor(ms: seq<Message>, keepRecent: nat): Prompt {
    if Summarises(ms, keepRecent) then Asked(ConversationText(Older(ms, keepRecent))) else NotAsked
  }

  ghost predicate IsCompression(before: seq<Message>, keepRecent: nat, reply: SummaryReply, prompt: Prompt,
                                failed: bool, after: seq<Message>) {
    && prompt == PromptFor(before, keepRecent)
    && (failed <==> prompt.Asked? && reply.SummaryFailed?)
    && after == AfterCompression(before, keepRecent, reply)
  }

  // `t` is `s` without blanks at the ends.
  ghost predicate IsTrimOf(t: string, s: string) {
    && (exists a, b :: s == a + t + b && Blank(a) && Blank(b))
    && (t != "" ==> !IsSpace(t[0]) && !IsSpace(t[|t| - 1]))
  }

  // The message passes on what the summarising model answered.
  ghost predicate IsSummaryOf(m: Message, text: string) {
    && m.role == Assistant && m.name == "context_compression" && m.toolCalls == [] && m.thinking == ""
    && IsTrimOf(m.content, text)
  }

  // The older messages have given way to a summary of this text, the last ones are as they were.
  ghost predicate HoldsSummary(before: seq<Message>, keepRecent: nat, text: string, after: seq<Message>) {
    && |before| > keepRecent && |after| == keepRecent + 1
    && IsSummaryOf(after[0], text) && after[1..] == before[|before| - keepRecent..]
  }

  class Compressor {
    const threshold: int
    const keepRecent: nat

    constructor (threshold: int, keepRecent: int)
      ensures this.threshold == (if threshold <= 0 then 30 else threshold)
      ensures this.keepRecent == if keepRecent <= 0 then 10 else keepRecent
    {
      this.threshold := if threshold <= 0 then 30 else threshold;
      this.keepRecent := if keepRecent <= 0 then 10 else keepRecent;
    }

    predicate ShouldCompress(session: Session)
      reads session
    {
      |session.msgs| > threshold
    }

    // `reply` is what the summarising model answers if it is asked. What is dropped from the session
    // is exactly what the model was shown, system messages apart, and what it answered takes its place.
    method ForceCompress(session: Session, reply: SummaryReply) returns (prompt: Prompt, failed: bool)
      modifies session`msgs
      ensures IsCompression(old(session.msgs), keepRecent, reply, prompt, failed, session.msgs)
      ensures if prompt.Asked? && reply.SummaryText? && !Blank(reply.content)
              then HoldsSummary(old(session.msgs), keepRecent, reply.content, session.msgs)
              else session.msgs == old(session.msgs)
      ensures prompt.Asked? <==>
              |old(session.msgs)| > keepRecent &&
              exists m :: m in old(session.msgs)[..|old(session.msgs)| - keepRecent] && m.role != System
      ensures |session.msgs| <= |old(session.msgs)|
    {
      prompt, failed := NotAsked, false;
      var msgs := session.msgs;
      if |msgs| <= keepRecent {
        return;
      }
      var toSummarize := msgs[..|msgs| - keepRecent];
      var text := "";
      for i := 0 to |toSummarize|
        invariant text == ConversationText(toSummarize[..i])
      {
        assert toSummarize[..i + 1][..i] == toSummarize[..i];
        if toSummarize[i].role == System {
          continue;
        }
        text := text + Line(toSummarize[i]);
      }
      assert toSummarize[..|toSummarize|] == toSummarize;
      TextBlankIff(toSummarize);
      TrimmedEmptyIff(text);
      if TrimSpace(text) == "" {
        return;
      }
      prompt := Asked(text);
      if reply.SummaryFailed? {
        failed := true;
        return;
      }
      var summary := TrimSpace(reply.content);
      TrimmedEmptyIff(reply.content);
      if summary == "" {
        return;
      }
      session.CompressMessages(summary, keepRecent);
      CompressionStoresReply(msgs, keepRecent, reply);
    }

    method Compress(session: Session, reply: SummaryReply) returns (prompt: Prompt, failed: bool)
      modifies session`msgs
      ensures |old(session.msgs)| <= threshold ==> prompt.NotAsked? && !failed && session.msgs == old(session.msgs)
      ensures |old(session.msgs)| > threshold ==>
              IsCompression(old(session.msgs), keepRecent, reply, prompt, failed, session.msgs)
    {
      if !ShouldCompress(session) {
        return NotAsked, false;
      }
      prompt, failed := ForceCompress(session, reply);
    }
  }

  // ---- the answer is stored ----

  lemma CompressionStoresReply(ms: seq<Message>, keepRecent: nat, reply: SummaryReply)
    ensures if Summarises(ms, keepRecent) && reply.SummaryText? && !Blank(reply.content)
            then HoldsSummary(ms, keepRecent, reply.content, AfterCompression(ms, keepRecent, reply))
            else AfterCompression(ms, keepRecent, reply) == ms
  {
    if Summarises(ms, keepRecent) && reply.SummaryText? && !Blank(reply.content) {
      var a, b := TrimSpaceSplits(reply.content);
    }
  }

  // ---- nothing dropped goes unread ----

  lemma {:induction false} TextConcat(a: seq<Message>, b: seq<Message>)
    ensures ConversationText(a + b) == ConversationText(a) + ConversationText(b)
    decreases |b|
  {
    if b == [] {
      assert a + b == a;
    } else {
      var n := |b| - 1;
      TextConcat(a, b[..n]);
      ConcatSnoc(a, b);
      Front(a + b[..n], b[n]);
      Assoc3(ConversationText(a), ConversationText(b[..n]), Line(b[n]));
    }
  }

  lemma TextOfOne(m: Message)
    ensures ConversationText([m]) == if m.role == System then "" else Line(m)
  {
    assert [m][..0] == [];
    assert "" + Line(m) == Line(m);
  }

  // Every message that is not a system message has its line in the text, at its place.
  lemma TextShowsMessage(ms: seq<Message>, i: nat)
    requires i < |ms| && ms[i].role != System
    ensures ConversationText(ms) == ConversationText(ms[..i]) + Line(ms[i]) + ConversationText(ms[i + 1..])
    ensures Line(ms[i]) == RoleText(ms[i].role) + ": " + ms[i].content + "\n"
  {
    TextOfOne(ms[i]);
    TextConcat(ms[..i], [ms[i]]);
    TextConcat(ms[..i] + [ms[i]], ms[i + 1..]);
    SplitAround(ms, i);
  }

  ghost predicate HasLine(text: string, m: Message) {
    exists a, b :: text == a + Line(m) + b
  }

  ghost predicate Shows(prompt: Prompt, m: Message) {
    prompt.Asked? && HasLine(prompt.text, m)
  }

  lemma OlderHasLine(older: seq<Message>, m: Message)
    requires m in older && m.role != System
    ensures HasLine(ConversationText(older), m)
  {
    var i :| 0 <= i < |older| && older[i] == m;
    TextShowsMessage(older, i);
  }

  // What a compression drops, the summarising model was shown.
  lemma DroppedIsShown(ms: seq<Message>, keepRecent: nat, reply: SummaryReply, m: Message)
    requires m in ms && m.role != System
    ensures m in AfterCompression(ms, keepRecent, reply) || Shows(PromptFor(ms, keepRecent), m)
  {
    if |ms| > keepRecent {
      SplitAt(ms, |ms| - keepRecent);
      if m in Older(ms, keepRecent) {
        OlderHasLine(Older(ms, keepRecent), m);
      }
    }
  }

  lemma LineIsNotBlank(m: Message)
    ensures !Blank(Line(m))
  {
    var i := |RoleText(m.role)|;
    assert Line(m)[i] == ':';
  }

  lemma BlankConcat(a: string, b: string)
    ensures Blank(a + b) <==> Blank(a) && Blank(b)
  {
    assert forall i :: 0 <= i < |a| ==> (a + b)[i] == a[i];
    assert forall i :: 0 <= i < |b| ==> (a + b)[|a| + i] == b[i];
  }

  lemma {:induction false} TextBlankIff(ms: seq<Message>)
    ensures Blank(ConversationText(ms)) <==> forall m :: m in ms ==> m.role == System
  {
    if ms != [] {
      var n := |ms| - 1;
      TextBlankIff(ms[..n]);
      Snoc(ms);
      BlankConcat(ConversationText(ms[..n]), Line(ms[n]));
      LineIsNotBlank(ms[n]);
      assert forall m :: m in ms <==> m in ms[..n] || m == ms[n];
    }
  }

  lemma {:induction false} TrimLeftBlank(s: string)
    ensures Blank(TrimLeft(s)) <==> Blank(s)
    ensures TrimLeft(s) == "" <==> Blank(s)
  {
    if s != "" && IsSpace(s[0]) {
      TrimLeftBlank(s[1..]);
      BlankConcat([s[0]], s[1..]);
      assert s == [s[0]] + s[1..];
    }
  }

  lemma {:induction false} TrimRightBlank(s: string)
    ensures TrimRight(s) == "" <==> Blank(s)
  {
    if s != "" && IsSpace(s[|s| - 1]) {
      TrimRightBlank(s[..|s| - 1]);
      BlankConcat(s[..|s| - 1], [s[|s| - 1]]);
      Snoc(s);
    }
  }

  lemma TrimmedEmptyIff(s: string)
    ensures TrimSpace(s) == "" <==> Blank(s)
  {
    TrimLeftBlank(s);
    TrimRightBlank(TrimLeft(s));
  }

  lemma {:induction false} TrimLeftSplits(s: string) returns (a: string)
    ensures s == a + TrimLeft(s) && Blank(a)
    ensures TrimLeft(s) != "" ==> !IsSpace(TrimLeft(s)[0])
  {
    if s != "" && IsSpace(s[0]) {
      var rest := TrimLeftSplits(s[1..]);
      a := [s[0]] + rest;
      assert s == [s[0]] + s[1..];
      Assoc3([s[0]], rest, TrimLeft(s));
    } else {
      a := "";
    }
  }

  lemma {:induction false} TrimRightSplits(s: string) returns (b: string)
    ensures s == TrimRight(s) + b && Blank(b)
    ensures TrimRight(s) != "" ==> !IsSpace(TrimRight(s)[|TrimRight(s)| - 1])
  {
    if s != "" && IsSpace(s[|s| - 1]) {
      var rest := TrimRightSplits(s[..|s| - 1]);
      b := rest + [s[|s| - 1]];
      Snoc(s);
      Assoc3(TrimRight(s), rest, [s[|s| - 1]]);
    } else {
      b := "";
    }
  }

  // Trimming takes white space off both ends and leaves none there.
  lemma TrimSpaceSplits(s: string) returns (a: string, b: string)
    ensures var t := TrimSpace(s);
            && s == a + t + b && Blank(a) && Blank(b)
            && (t != "" ==> !IsSpace(t[0]) && !IsSpace(t[|t| - 1]))
  {
    a := TrimLeftSplits(s);
    b := TrimRightSplits(TrimLeft(s));
    Assoc3(a, TrimSpace(s), b);
    assert TrimSpace(s) != "" ==> TrimLeft(s)[0] == TrimSpace(s)[0];
  }

  // ---- compression and repair ----

  function LeadingTools(ms: seq<Message>): (n: nat)
    ensures n <= |ms|
    ensures AllTools(ms[..n]) && StartsTurn(ms[n..])
  {
    if ms == [] || !IsTool(ms[0]) then 0
    else
      var n := LeadingTools(ms[1..]);
      assert ms[1..][..n] == ms[1..n + 1] && ms[1..][n..] == ms[n + 1..];
      assert forall i :: 1 <= i < n + 1 ==> ms[i] == ms[1..][..n][i - 1];
      n + 1
  }

  lemma SummaryTurns(s: Message, kept: seq<Message>)
    requires !IsTool(s)
    ensures var n := LeadingTools(kept);
            TurnsOf([s] + kept) == [Turn(s, kept[..n])] + TurnsOf(kept[n..])
  {
    var n := LeadingTools(kept);
    TurnsOfOneMore([], Turn(s, kept[..n]));
    TurnsOfConcat([s] + kept[..n], kept[n..]);
    assert [] + [s] == [s];
    SplitAt(kept, n);
    Assoc3([s], kept[..n], kept[n..]);
  }

  lemma {:induction false} KeptForNothing(run: seq<Message>)
    ensures Kept(run, {}) == []
  {
    if run != [] {
      KeptForNothing(run[..|run| - 1]);
    }
  }

  lemma SummaryTurnRepaired(s: Message, run: seq<Message>, u: Turn)
    requires CallIds(s) == {} && RepairsTurn(Turn(s, run), u)
    ensures u == Turn(s, [])
  {
    KeptForNothing(run);
    assert Unanswered(Turn(s, run)).Keys == {};
    AnswersSize({}, u.run[0..]);
  }

  // A cut through a well-formed transcript leaves well-formed turns after the orphaned results.
  lemma SuffixAfterOrphans(ms: seq<Message>, cut: nat)
    requires WellFormed(ms) && cut <= |ms|
    ensures WellFormed(ms[cut..][LeadingTools(ms[cut..])..])
  {
    var d := cut + LeadingTools(ms[cut..]);
    var rest := ms[d..];
    assert ms[cut..][LeadingTools(ms[cut..])..] == rest;
    TurnsOfConcat(ms[..d], rest);
    SplitAt(ms, d);
    forall i | 0 <= i < |TurnsOf(rest)|
      ensures Answered(TurnsOf(rest)[i])
    {
      assert TurnsOf(rest)[i] == TurnsOf(ms)[|TurnsOf(ms[..d])| + i];
    }
  }

  lemma UnturnAfter(m: Message, ts: seq<Turn>)
    ensures Unturn([Turn(m, [])] + ts) == [m] + Unturn(ts)
  {
    UnturnConcat([Turn(m, [])], ts);
    UnturnAppend([], Turn(m, []));
    assert [] + [Turn(m, [])] == [Turn(m, [])];
  }

  lemma SummaryTurnsRepaired(s: Message, orphans: seq<Message>, rest: seq<Turn>, us: seq<Turn>)
    requires CallIds(s) == {} && forall i :: 0 <= i < |rest| ==> Answered(rest[i])
    requires var ts := [Turn(s, orphans)] + rest;
             |us| == |ts| && forall i :: 0 <= i < |ts| ==> RepairsTurn(ts[i], us[i])
    ensures us == [Turn(s, [])] + rest
  {
    var ts := [Turn(s, orphans)] + rest;
    SummaryTurnRepaired(s, orphans, us[0]);
    forall i | 1 <= i < |us|
      ensures us[i] == rest[i - 1]
    {
      assert ts[i] == rest[i - 1];
      RepairingAnsweredTurn(rest[i - 1], us[i]);
    }
  }

  lemma RepairAfterSummary(s: Message, kept: seq<Message>, out: seq<Message>)
    requires !IsTool(s) && CallIds(s) == {}
    requires WellFormed(kept[LeadingTools(kept)..])
    requires Repaired([s] + kept, out)
    ensures out == [s] + kept[LeadingTools(kept)..]
  {
    var n := LeadingTools(kept);
    SummaryTurns(s, kept);
    SummaryTurnsRepaired(s, kept[..n], TurnsOf(kept[n..]), TurnsOf(out));
    UnturnTurnsOf(out);
    UnturnTurnsOf(kept[n..]);
    UnturnAfter(s, TurnsOf(kept[n..]));
  }

  // Compressing a well-formed transcript wherever the cut falls, and repairing it in whatever order,
  // gives the summary and the kept suffix without exactly its leading, orphaned tool results.
  lemma CompressThenRepair(ms: seq<Message>, content: string, keepRecent: nat, out: seq<Message>)
    requires WellFormed(ms) && keepRecent < |ms|
    requires Repaired(Compressed(ms, content, keepRecent), out)
    ensures var kept := ms[|ms| - keepRecent..];
            out == [SummaryMessage(content)] + kept[LeadingTools(kept)..]
  {
    SuffixAfterOrphans(ms, |ms| - keepRecent);
    RepairAfterSummary(SummaryMessage(content), ms[|ms| - keepRecent..], out);
  }

  // ---- the start of a session stays plain ----

  ghost predicate HasPlainStart(ms: seq<Message>) {
    TurnsOf(ms) != [] && PlainStart(ms)
  }

  lemma AppendKeepsPlainStart(ms: seq<Message>, m: Message)
    ensures HasPlainStart(ms) ==> HasPlainStart(ms + [m])
    ensures PlainStart(ms) && !IsTool(m) && PlainSummary(m) ==> HasPlainStart(ms + [m])
  {
    TurnsOfAppend(ms, m);
    if TurnsOf(ms) != [] {
      AddKeepsFirst(TurnsOf(ms), m);
    }
  }

  lemma CompressionKeepsPlainStart(ms: seq<Message>, keepRecent: nat, reply: SummaryReply)
    requires HasPlainStart(ms)
    ensures HasPlainStart(AfterCompression(ms, keepRecent, reply))
  {
    var after := AfterCompression(ms, keepRecent, reply);
    if after != ms {
      FirstHead(after);
    }
  }
}
