// What the sessions of a run hold: what an iteration appends, what a compression leaves, where every
// message comes from, and that no result gets lost on the way to the model.
module AgentSessions {
  import opened Options
  import opened Sequences
  import opened Messages
  import opened TranscriptRepair
  import opened RepairTheorems
  import opened HistoryTruncation
  import opened ContextBuilding
  import opened Compression
  import opened Streaming
  import opened AgentTrace
  import opened AgentTheorems

  // ---- what an iteration appends ----

  // When streaming, the reply is an assistant message with the joined contents of the deltas and, for
  // each position, the last ID and name and the joined arguments.
  lemma ReceivedIs(outcome: LLMOutcome, streaming: bool)
    requires outcome.Replied?
    ensures var m, ds := Received(outcome, streaming), outcome.deltas;
            if !streaming then m == outcome.reply
            else
              && m.role == Assistant && m.content == Joined(Contents(ds)) && m.name == "" && m.thinking == ""
              && IsLargest(|m.toolCalls|, ds)
              && forall j :: 0 <= j < |m.toolCalls| ==>
                   && m.toolCalls[j].id == LastNonEmpty(Ids(Column(ds, j)))
                   && m.toolCalls[j].name == LastNonEmpty(Names(Column(ds, j)))
                   && m.toolCalls[j].arguments == Joined(Arguments(Column(ds, j)))
  {
    AccumulatedState(outcome.deltas);
  }

  // The reply comes first, then for each of its calls, in order, a tool message with the call's ID and
  // name and with what the tool gave.
  lemma BlockIs(r: Run, i: nat, outcome: LLMOutcome)
    requires outcome.Replied?
    ensures var b, reply := Block(r, i, outcome), Received(outcome, r.streaming);
            && |b| == 1 + |reply.toolCalls| && b[0] == reply
            && forall j :: 1 <= j < |b| ==>
                 && b[j].role == Tool && b[j].content == r.env.tool(i, j - 1).text
                 && b[j].name == reply.toolCalls[j - 1].name && b[j].thinking == "" && |b[j].toolCalls| == 1
                 && b[j].toolCalls[0].id == reply.toolCalls[j - 1].id
                 && b[j].toolCalls[0].name == reply.toolCalls[j - 1].name
  {
    var b, calls := Block(r, i, outcome), Received(outcome, r.streaming).toolCalls;
    forall j | 1 <= j < |b|
      ensures b[j] == ToolMessage(calls[j - 1], r.env.tool(i, j - 1))
    {
      assert b[j] == ToolResults(r.env, i, calls)[j - 1];
    }
  }

  // ---- what a compression leaves ----

  // What the session held before gives way to what the summarising model answered, if it was asked and
  // answered with some text.
  ghost predicate GivesWay(before: seq<Message>, keepRecent: nat, reply: SummaryReply, after: seq<Message>) {
    if Summarises(before, keepRecent) && reply.SummaryText? && !Blank(reply.content)
    then HoldsSummary(before, keepRecent, reply.content, after)
    else after == before
  }

  // Between two attempts the session changes exactly by a compression after an overflow.
  lemma OverflowCompresses(r: Run, its: seq<seq<Attempt>>, i: nat, k: nat)
    requires IsChain(r, its) && i < |its| && k < |its[i]| - 1
    ensures var e, s := r.env.llm(i, k), r.settings.compressor;
            && e.Failed?
            && if e.error.overflow && s.Some?
               then GivesWay(its[i][k].session, s.value.keepRecent, r.env.summary(OnOverflow(i, k)), its[i][k + 1].session)
               else its[i][k + 1] == its[i][k]
  {
    IterationAt(r, its, i);
    assert Followed(r, i, its[i], k);
    if r.settings.compressor.Some? {
      CompressionStoresReply(its[i][k].session, r.settings.compressor.value.keepRecent, r.env.summary(OnOverflow(i, k)));
    }
  }

  // At a checkpoint it changes exactly by a compression of a session over the limit.
  lemma CheckpointCompresses(r: Run, its: seq<seq<Attempt>>, n: nat)
    requires n <= |its|
    ensures var g, ms, after := r.settings.guard, Before(r, its, n), Opening(r, its, n);
            if g.Some? && g.value.count(ms) > g.value.limit && g.value.keepRecent.Some?
            then GivesWay(ms, g.value.keepRecent.value, r.env.summary(if n == 0 then OnStart else OnTools(n - 1)), after)
            else after == ms
  {
    var g := r.settings.guard;
    if g.Some? && g.value.keepRecent.Some? {
      CompressionStoresReply(Before(r, its, n), g.value.keepRecent.value, CheckpointReply(r, n));
    }
  }

  // An answer leaves the session with the reply, compressed if it is over the threshold.
  lemma AnswerCompresses(r: Run, its: seq<seq<Attempt>>, content: string, final: seq<Message>)
    requires IsChain(r, its) && Ends(r, its, Answer(content), final)
    ensures its != [] && its[|its| - 1] != []
    ensures var i, k := |its| - 1, |its[|its| - 1]| - 1;
            r.env.llm(i, k).Replied? &&
            var ms, s := its[i][k].session + [Received(r.env.llm(i, k), r.streaming)], r.settings.compressor;
            if s.Some? && |ms| > s.value.threshold
            then GivesWay(ms, s.value.keepRecent, r.env.summary(OnAnswer(i)), final)
            else final == ms
  {
    var i := |its| - 1;
    IterationAt(r, its, i);
    var o := Outcome(r, i, its[i]);
    var ms := LastSession(its[i]) + [Received(o, r.streaming)];
    assert Block(r, i, o) == [Received(o, r.streaming)];
    if r.settings.compressor.Some? {
      CompressionStoresReply(ms, r.settings.compressor.value.keepRecent, r.env.summary(OnAnswer(i)));
    }
  }

  // An iteration whose last attempt is answered appends its block to the session of that attempt.
  lemma IterationAppends(r: Run, its: seq<seq<Attempt>>, i: nat)
    requires IsChain(r, its) && i < |its|
    ensures its[i] != []
    ensures var k := |its[i]| - 1;
            r.env.llm(i, k).Replied? ==> Before(r, its, i + 1) == its[i][k].session + Block(r, i, r.env.llm(i, k))
  {
    IterationAt(r, its, i);
  }

  // A run that fails leaves the session of its last attempt, compressed if that overflowed retryably.
  lemma FailureLeaves(r: Run, its: seq<seq<Attempt>>, error: LLMError, final: seq<Message>)
    requires IsChain(r, its) && Ends(r, its, LLMFailed(error), final)
    ensures its != [] && its[|its| - 1] != []
    ensures var i, k, s := |its| - 1, |its[|its| - 1]| - 1, r.settings.compressor;
            if r.settings.hasClassifier && error.retryable && error.overflow && s.Some?
            then GivesWay(its[i][k].session, s.value.keepRecent, r.env.summary(OnOverflow(i, k)), final)
            else final == its[i][k].session
  {
    var i := |its| - 1;
    IterationAt(r, its, i);
    if r.settings.compressor.Some? {
      CompressionStoresReply(LastSession(its[i]), r.settings.compressor.value.keepRecent,
                             r.env.summary(OnOverflow(i, |its[i]| - 1)));
    }
  }

  // ---- where messages come from ----

  ghost predicate IsSummary(r: Run, m: Message) {
    exists o :: r.env.summary(o).SummaryText? && IsSummaryOf(m, r.env.summary(o).content)
  }

  ghost predicate IsAppended(r: Run, its: seq<seq<Attempt>>, m: Message) {
    exists i :: 0 <= i < |its| && Outcome(r, i, its[i]).Replied? && m in Block(r, i, Outcome(r, i, its[i]))
  }

  ghost predicate HasOrigin(r: Run, its: seq<seq<Attempt>>, m: Message) {
    m in r.start || IsAppended(r, its, m) || IsSummary(r, m)
  }

  ghost function AllHaveOrigin(r: Run, its: seq<seq<Attempt>>): seq<Message> -> bool {
    (ms: seq<Message>) => forall m :: m in ms ==> HasOrigin(r, its, m)
  }

  lemma OriginAfterCompression(r: Run, its: seq<seq<Attempt>>, ms: seq<Message>, keep: nat, o: Occasion, m: Message)
    requires AllHaveOrigin(r, its)(ms) && m in AfterCompression(ms, keep, r.env.summary(o))
    ensures HasOrigin(r, its, m)
  {
    var after := AfterCompression(ms, keep, r.env.summary(o));
    CompressionStoresReply(ms, keep, r.env.summary(o));
    if after != ms {
      var i :| 0 <= i < |after| && after[i] == m;
      if i > 0 {
        assert m == after[1..][i - 1] == ms[|ms| - keep..][i - 1];
      }
    }
  }

  lemma OriginIsKept(r: Run, its: seq<seq<Attempt>>)
    ensures IsKept(r, its, AllHaveOrigin(r, its))
  {
    var inv := AllHaveOrigin(r, its);
    forall ms, keep: nat, o | inv(ms)
      ensures inv(AfterCompression(ms, keep, r.env.summary(o)))
    {
      forall m | m in AfterCompression(ms, keep, r.env.summary(o))
        ensures HasOrigin(r, its, m)
      {
        OriginAfterCompression(r, its, ms, keep, o, m);
      }
    }
    forall ms, i | 0 <= i < |its| && inv(ms)
      ensures inv(WithBlock(r, its, i, ms))
    {
      forall m | m in WithBlock(r, its, i, ms)
        ensures HasOrigin(r, its, m)
      {
        assert m in ms || (Outcome(r, i, its[i]).Replied? && m in Block(r, i, Outcome(r, i, its[i])));
      }
    }
  }

  // Every message in the session a run leaves was there at the start, was appended by an iteration, or
  // passes on what the summarising model answered on some occasion.
  lemma EveryMessageHasOrigin(r: Run, its: seq<seq<Attempt>>, result: RunResult, final: seq<Message>, m: Message)
    requires IsRun(r, its) && Ends(r, its, result, final) && m in final
    ensures m in r.start || IsAppended(r, its, m) || IsSummary(r, m)
  {
    OriginIsKept(r, its);
    HoldsAtEnd(r, its, AllHaveOrigin(r, its), result, final);
  }

  // ---- no result gets lost ----

  // The calls of the reply carry IDs, all of them different.
  ghost predicate IsProperReply(m: Message) {
    && m.role == Assistant
    && (forall j :: 0 <= j < |m.toolCalls| ==> m.toolCalls[j].id != "")
    && (forall j, k :: 0 <= j < k < |m.toolCalls| ==> m.toolCalls[j].id != m.toolCalls[k].id)
  }

  ghost predicate RepliesAreProper(r: Run, its: seq<seq<Attempt>>) {
    forall i :: 0 <= i < |its| && Outcome(r, i, its[i]).Replied? ==> IsProperReply(Received(Outcome(r, i, its[i]), r.streaming))
  }

  lemma ResultIds(env: Environment, i: nat, calls: seq<ToolCall>, j: nat)
    requires j < |calls|
    ensures IsTool(ToolResults(env, i, calls)[j]) && FirstId(ToolResults(env, i, calls)[j]) == calls[j].id
  {
    assert ToolResults(env, i, calls)[j] == ToolMessage(calls[j], env.tool(i, j));
  }

  lemma ResultsOccur(env: Environment, i: nat, reply: Message, id: string)
    requires IsProperReply(reply)
    ensures id in CallIds(reply) <==> Occurs(id, ToolResults(env, i, reply.toolCalls))
  {
    var calls, results := reply.toolCalls, ToolResults(env, i, reply.toolCalls);
    if id in CallIds(reply) {
      var j :| 0 <= j < |calls| && calls[j].id == id;
      ResultIds(env, i, calls, j);
    }
    if Occurs(id, results) {
      var j :| 0 <= j < |results| && FirstId(results[j]) == id;
      ResultIds(env, i, calls, j);
      assert calls[j] in calls;
    }
  }

  lemma ResultsAreDistinct(env: Environment, i: nat, reply: Message)
    requires IsProperReply(reply)
    ensures DistinctIds(ToolResults(env, i, reply.toolCalls)) && AllTools(ToolResults(env, i, reply.toolCalls))
  {
    var results := ToolResults(env, i, reply.toolCalls);
    forall j | 0 <= j < |results|
      ensures IsTool(results[j]) && FirstId(results[j]) == reply.toolCalls[j].id
    {
      ResultIds(env, i, reply.toolCalls, j);
    }
  }

  lemma ResultsAnswer(env: Environment, i: nat, reply: Message)
    requires IsProperReply(reply)
    ensures Answers(CallIds(reply), ToolResults(env, i, reply.toolCalls))
  {
    ResultsAreDistinct(env, i, reply);
    forall id
      ensures id in CallIds(reply) <==> Occurs(id, ToolResults(env, i, reply.toolCalls))
    {
      ResultsOccur(env, i, reply, id);
    }
    AnswersMeansOnceEach(CallIds(reply), ToolResults(env, i, reply.toolCalls));
  }

  // A block of a proper reply is a turn with all calls answered.
  lemma BlockIsTurn(r: Run, i: nat, o: LLMOutcome, ms: seq<Message>)
    requires o.Replied? && IsProperReply(Received(o, r.streaming))
    ensures var reply := Received(o, r.streaming);
            var t := Turn(reply, ToolResults(r.env, i, reply.toolCalls));
            Answered(t) && TurnsOf(ms + Block(r, i, o)) == TurnsOf(ms) + [t]
    ensures StartsTurn(ms) ==> StartsTurn(ms + Block(r, i, o))
  {
    var reply := Received(o, r.streaming);
    var results := ToolResults(r.env, i, reply.toolCalls);
    ResultsAnswer(r.env, i, reply);
    ResultsAreDistinct(r.env, i, reply);
    TurnsOfOneMore(ms, Turn(reply, results));
    Assoc3(ms, [reply], results);
  }

  lemma BlockKeepsWellFormed(r: Run, i: nat, o: LLMOutcome, ms: seq<Message>)
    requires o.Replied? && IsProperReply(Received(o, r.streaming)) && WellFormed(ms)
    ensures WellFormed(ms + Block(r, i, o))
  {
    BlockIsTurn(r, i, o, ms);
  }

  ghost predicate BlocksFit(r: Run, its: seq<seq<Attempt>>, n: nat)
    requires n <= |its|
  {
    WellFormed(r.start + Blocks(r, its, n))
  }

  lemma BlocksFitNext(r: Run, its: seq<seq<Attempt>>, n: nat)
    requires RepliesAreProper(r, its) && n < |its| && BlocksFit(r, its, n)
    ensures BlocksFit(r, its, n + 1)
  {
    var o := Outcome(r, n, its[n]);
    if o.Replied? {
      BlockKeepsWellFormed(r, n, o, r.start + Blocks(r, its, n));
      Assoc3(r.start, Blocks(r, its, n), Block(r, n, o));
    } else {
      assert Blocks(r, its, n) + [] == Blocks(r, its, n);
    }
  }

  lemma {:induction false} BlocksAreWellFormed(r: Run, its: seq<seq<Attempt>>, n: nat)
    requires WellFormed(r.start) && RepliesAreProper(r, its) && n <= |its|
    ensures BlocksFit(r, its, n)
    decreases n
  {
    if n == 0 {
      assert r.start + [] == r.start;
    } else {
      BlocksAreWellFormed(r, its, n - 1);
      BlocksFitNext(r, its, n - 1);
    }
  }

  // Without compression, from a well-formed start and with proper replies, every session an attempt is
  // made for is well formed; so repair changes nothing, and the request holds the end of the session as
  // it is, with every result.
  lemma SessionsStayWellFormed(r: Run, its: seq<seq<Attempt>>, i: nat, k: nat)
    requires NeverCompresses(r.settings) && IsRun(r, its) && WellFormed(r.start) && RepliesAreProper(r, its)
    requires i < |its| && k < |its[i]|
    ensures WellFormed(its[i][k].session)
    ensures its[i][k].request.messages != []
    ensures Truncated(its[i][k].session, r.settings.maxMessages, its[i][k].request.messages[1..])
  {
    SessionAt(r, its, i);
    BlocksAreWellFormed(r, its, i);
    IterationAt(r, its, i);
    SameSession(r, i, Before(r, its, i), its[i], k);
    assert IsBuilt(r.settings, its[i][k]);
    TailOfWellFormed(its[i][k].session, r.settings.maxMessages, its[i][k].request.messages[1..]);
  }

  lemma TailOfWellFormed(session: seq<Message>, max: int, tail: seq<Message>)
    requires IsTailFor(session, max, tail) && WellFormed(session)
    ensures Truncated(session, max, tail)
  {
    var repaired :| Repaired(session, repaired) && Truncated(repaired, max, tail);
    RepairIsIdentityIffWellFormed(session, repaired);
  }

  // ---- nor with compression, but for results whose call is dropped ----

  // All calls are answered; only after the first message, if it makes no calls, there may be results
  // that answer nothing: those a compression cuts off from their call.
  ghost predicate IsNearlyWellFormed(ms: seq<Message>) {
    StartsTurn(ms) && forall i :: 0 <= i < |TurnsOf(ms)| ==> IsNearlyAnswered(TurnsOf(ms), i)
  }

  ghost predicate IsNearlyAnswered(ts: seq<Turn>, i: nat)
    requires i < |ts|
  {
    Answered(ts[i]) || (i == 0 && CallIds(ts[i].head) == {})
  }

  lemma BlockKeepsNearly(r: Run, i: nat, o: LLMOutcome, ms: seq<Message>)
    requires o.Replied? && IsProperReply(Received(o, r.streaming)) && IsNearlyWellFormed(ms)
    ensures IsNearlyWellFormed(ms + Block(r, i, o))
  {
    BlockIsTurn(r, i, o, ms);
    var ts, all := TurnsOf(ms), TurnsOf(ms + Block(r, i, o));
    forall j | 0 <= j < |all|
      ensures IsNearlyAnswered(all, j)
    {
      assert j < |ts| ==> all[j] == ts[j] && IsNearlyAnswered(ts, j);
    }
  }

  // What follows the results cut off by a compression are whole turns of the old session.
  lemma RestIsAnswered(ms: seq<Message>, d: nat)
    requires IsNearlyWellFormed(ms) && 0 < d <= |ms| && StartsTurn(ms[d..])
    ensures forall i :: 0 <= i < |TurnsOf(ms[d..])| ==> Answered(TurnsOf(ms[d..])[i])
  {
    var rest, before := TurnsOf(ms[d..]), TurnsOf(ms[..d]);
    TurnsOfConcat(ms[..d], ms[d..]);
    SplitAt(ms, d);
    UnturnTurnsOf(ms[..d]);
    forall i | 0 <= i < |rest|
      ensures Answered(rest[i])
    {
      assert TurnsOf(ms)[|before| + i] == rest[i];
      assert IsNearlyAnswered(TurnsOf(ms), |before| + i);
    }
  }

  lemma SummaryKeepsNearly(ms: seq<Message>, s: Message, cut: nat)
    requires IsNearlyWellFormed(ms) && 0 < cut <= |ms| && !IsTool(s) && CallIds(s) == {}
    ensures IsNearlyWellFormed([s] + ms[cut..])
  {
    var kept := ms[cut..];
    var n := LeadingTools(kept);
    SummaryTurns(s, kept);
    assert kept[n..] == ms[cut + n..];
    RestIsAnswered(ms, cut + n);
    var ts, rest := TurnsOf([s] + kept), TurnsOf(kept[n..]);
    forall i | 0 <= i < |ts|
      ensures IsNearlyAnswered(ts, i)
    {
      assert i > 0 ==> ts[i] == rest[i - 1];
    }
  }

  lemma CompressionKeepsNearly(ms: seq<Message>, keep: nat, reply: SummaryReply)
    requires IsNearlyWellFormed(ms)
    ensures IsNearlyWellFormed(AfterCompression(ms, keep, reply))
  {
    var after := AfterCompression(ms, keep, reply);
    if after != ms {
      SummaryKeepsNearly(ms, after[0], |ms| - keep);
    }
  }

  ghost function Nearly(): seq<Message> -> bool {
    (ms: seq<Message>) => IsNearlyWellFormed(ms)
  }

  lemma NearlyIsKept(r: Run, its: seq<seq<Attempt>>)
    requires RepliesAreProper(r, its)
    ensures IsKept(r, its, Nearly())
  {
    forall ms, keep: nat, o | Nearly()(ms)
      ensures Nearly()(AfterCompression(ms, keep, r.env.summary(o)))
    {
      CompressionKeepsNearly(ms, keep, r.env.summary(o));
    }
    forall ms, i | 0 <= i < |its| && Nearly()(ms)
      ensures Nearly()(WithBlock(r, its, i, ms))
    {
      if Outcome(r, i, its[i]).Replied? {
        BlockKeepsNearly(r, i, Outcome(r, i, its[i]), ms);
      }
    }
  }

  // Repair of such a session drops the results after the first message if that makes no calls, and
  // changes nothing else.
  lemma RepairDropsOnlyCutOff(ms: seq<Message>, out: seq<Message>, i: nat)
    requires IsNearlyWellFormed(ms) && Repaired(ms, out) && i < |TurnsOf(ms)|
    ensures TurnsOf(out)[i] ==
            if i == 0 && CallIds(TurnsOf(ms)[0].head) == {} then Turn(TurnsOf(ms)[0].head, []) else TurnsOf(ms)[i]
  {
    var t, u := TurnsOf(ms)[i], TurnsOf(out)[i];
    assert IsNearlyAnswered(TurnsOf(ms), i) && RepairsTurn(t, u);
    if i == 0 && CallIds(t.head) == {} {
      SummaryTurnRepaired(t.head, t.run, u);
    } else {
      RepairingAnsweredTurn(t, u);
    }
  }

  // In every run from such a session and with proper replies, compressed or not, the request of every
  // attempt is the truncation of the session, in which only results that a compression has cut off from
  // their call are missing.
  lemma OnlyCutOffResultsAreLost(r: Run, its: seq<seq<Attempt>>, i: nat, k: nat) returns (repaired: seq<Message>)
    requires IsRun(r, its) && IsNearlyWellFormed(r.start) && RepliesAreProper(r, its) && i < |its| && k < |its[i]|
    ensures IsNearlyWellFormed(its[i][k].session) && StartsTurn(repaired)
    ensures its[i][k].request.messages != []
    ensures Truncated(repaired, r.settings.maxMessages, its[i][k].request.messages[1..])
    ensures var ts, us := TurnsOf(its[i][k].session), TurnsOf(repaired);
            && |us| == |ts|
            && forall j :: 0 <= j < |ts| ==>
                 us[j] == if j == 0 && CallIds(ts[0].head) == {} then Turn(ts[0].head, []) else ts[j]
  {
    NearlyIsKept(r, its);
    HoldsAtAttempt(r, its, Nearly(), i, k);
    repaired := RepairOf(r.settings, its[i], k);
    forall j | 0 <= j < |TurnsOf(its[i][k].session)|
      ensures var ts := TurnsOf(its[i][k].session);
              TurnsOf(repaired)[j] == if j == 0 && CallIds(ts[0].head) == {} then Turn(ts[0].head, []) else ts[j]
    {
      RepairDropsOnlyCutOff(its[i][k].session, repaired, j);
    }
  }

  lemma RepairOf(s: Settings, attempts: seq<Attempt>, k: nat) returns (repaired: seq<Message>)
    requires AllBuilt(s, attempts) && k < |attempts|
    ensures attempts[k].request.messages != []
    ensures Repaired(attempts[k].session, repaired) && Truncated(repaired, s.maxMessages, attempts[k].request.messages[1..])
  {
    assert IsBuilt(s, attempts[k]);
    repaired :| Repaired(attempts[k].session, repaired) && Truncated(repaired, s.maxMessages, attempts[k].request.messages[1..]);
  }
}
