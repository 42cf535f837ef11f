// What holds of every run of the agent loop.
module AgentTheorems {
  import opened Options
  import opened Sequences
  import opened Messages
  import opened ContextBuilding
  import opened InjectionOrder
  import opened Compression
  import opened AgentTrace

  // ---- what every session of a run has in common ----

  lemma IterationAt(r: Run, its: seq<seq<Attempt>>, i: nat)
    requires IsChain(r, its) && i < |its|
    ensures IsIteration(r, i, Opening(r, its, i), its[i])
  {
    assert Fits(r, its, i);
  }

  lemma NextSession(r: Run, i: nat, opening: seq<Message>, attempts: seq<Attempt>, k: nat)
    requires Linked(r, i, opening, attempts) && 0 < k < |attempts|
    ensures attempts[k].session == AfterFailure(r, i, k - 1, attempts[k - 1].session)
  {
    assert Followed(r, i, attempts, k - 1);
  }

  // Compressions, whatever the summarising model answers, and what the iterations append keep `inv`.
  ghost predicate IsKept(r: Run, its: seq<seq<Attempt>>, inv: seq<Message> -> bool) {
    && (forall ms, keep: nat, o :: inv(ms) ==> inv(AfterCompression(ms, keep, r.env.summary(o))))
    && (forall ms, i :: 0 <= i < |its| && inv(ms) ==> inv(WithBlock(r, its, i, ms)))
  }

  function WithBlock(r: Run, its: seq<seq<Attempt>>, i: nat, ms: seq<Message>): seq<Message>
    requires i < |its|
  {
    var o := Outcome(r, i, its[i]);
    if o.Replied? then ms + Block(r, i, o) else ms
  }

  lemma CheckpointKeepsInv(r: Run, its: seq<seq<Attempt>>, inv: seq<Message> -> bool, n: nat)
    requires IsKept(r, its, inv) && n <= |its| && inv(Before(r, its, n))
    ensures inv(Opening(r, its, n))
  {
    var g, ms := r.settings.guard, Before(r, its, n);
    if !WithinLimit(g, ms) && g.value.keepRecent.Some? {
      var o := if n == 0 then OnStart else OnTools(n - 1);
      assert inv(AfterCompression(ms, g.value.keepRecent.value, r.env.summary(o)));
    }
  }

  lemma FailureKeepsInv(r: Run, its: seq<seq<Attempt>>, inv: seq<Message> -> bool, i: nat, k: nat, ms: seq<Message>)
    requires IsKept(r, its, inv) && inv(ms)
    ensures inv(AfterFailure(r, i, k, ms))
  {
    if Overflows(r.settings, r.env.llm(i, k)) {
      assert inv(AfterCompression(ms, r.settings.compressor.value.keepRecent, r.env.summary(OnOverflow(i, k))));
    }
  }

  lemma {:induction false} HoldsInIteration(r: Run, its: seq<seq<Attempt>>, inv: seq<Message> -> bool, i: nat, k: nat)
    requires IsKept(r, its, inv) && i < |its| && k < |its[i]|
    requires Linked(r, i, Opening(r, its, i), its[i]) && inv(Opening(r, its, i))
    ensures inv(its[i][k].session)
    decreases k
  {
    if k > 0 {
      HoldsInIteration(r, its, inv, i, k - 1);
      NextSession(r, i, Opening(r, its, i), its[i], k);
      FailureKeepsInv(r, its, inv, i, k - 1, its[i][k - 1].session);
    }
  }

  lemma IterationKeepsInv(r: Run, its: seq<seq<Attempt>>, inv: seq<Message> -> bool, i: nat)
    requires IsKept(r, its, inv) && IsChain(r, its) && i < |its| && inv(Opening(r, its, i))
    ensures inv(Before(r, its, i + 1))
  {
    IterationAt(r, its, i);
    var k := Last(its[i]);
    HoldsInIteration(r, its, inv, i, k);
    if Outcome(r, i, its[i]).Replied? {
      assert inv(WithBlock(r, its, i, its[i][k].session));
    } else {
      FailureKeepsInv(r, its, inv, i, k, its[i][k].session);
    }
  }

  lemma {:induction false} HoldsAtCheckpoint(r: Run, its: seq<seq<Attempt>>, inv: seq<Message> -> bool, n: nat)
    requires IsKept(r, its, inv) && IsChain(r, its) && inv(r.start) && n <= |its|
    ensures inv(Before(r, its, n)) && inv(Opening(r, its, n))
    decreases n
  {
    if n > 0 {
      HoldsAtCheckpoint(r, its, inv, n - 1);
      IterationKeepsInv(r, its, inv, n - 1);
    }
    CheckpointKeepsInv(r, its, inv, n);
  }

  // What the start has and every change keeps, every session an attempt is made for has.
  lemma HoldsAtAttempt(r: Run, its: seq<seq<Attempt>>, inv: seq<Message> -> bool, i: nat, k: nat)
    requires IsKept(r, its, inv) && IsChain(r, its) && inv(r.start) && i < |its| && k < |its[i]|
    ensures inv(its[i][k].session)
  {
    HoldsAtCheckpoint(r, its, inv, i);
    IterationAt(r, its, i);
    HoldsInIteration(r, its, inv, i, k);
  }

  // And so has the session the run leaves.
  lemma HoldsAtEnd(r: Run, its: seq<seq<Attempt>>, inv: seq<Message> -> bool, result: RunResult, final: seq<Message>)
    requires IsKept(r, its, inv) && IsChain(r, its) && inv(r.start) && Ends(r, its, result, final)
    ensures inv(final)
  {
    HoldsAtCheckpoint(r, its, inv, |its|);
    if result.Answer? && final != Before(r, its, |its|) {
      assert inv(AfterCompression(Before(r, its, |its|), r.settings.compressor.value.keepRecent,
                                  r.env.summary(OnAnswer(|its| - 1))));
    }
  }

  // ---- every request is well formed ----

  lemma {:induction false} AppendingKeepsPlain(ms: seq<Message>, more: seq<Message>)
    requires HasPlainStart(ms)
    ensures HasPlainStart(ms + more)
    decreases |more|
  {
    if more == [] {
      assert ms + more == ms;
    } else {
      AppendingKeepsPlain(ms, more[..|more| - 1]);
      AppendKeepsPlainStart(ms + more[..|more| - 1], more[|more| - 1]);
      ConcatSnoc(ms, more);
    }
  }

  ghost function Plain(): seq<Message> -> bool {
    (ms: seq<Message>) => HasPlainStart(ms)
  }

  lemma PlainIsKept(r: Run, its: seq<seq<Attempt>>)
    ensures IsKept(r, its, Plain())
  {
    forall ms, keep: nat, o | Plain()(ms)
      ensures Plain()(AfterCompression(ms, keep, r.env.summary(o)))
    {
      CompressionKeepsPlainStart(ms, keep, r.env.summary(o));
    }
    forall ms, i | 0 <= i < |its| && Plain()(ms)
      ensures Plain()(WithBlock(r, its, i, ms))
    {
      var o := Outcome(r, i, its[i]);
      if o.Replied? {
        AppendingKeepsPlain(ms, Block(r, i, o));
      }
    }
  }

  // Every request of a run that starts plainly is the system message followed by a transcript in which
  // every call is answered exactly once and directly: whatever the model replies, the tools give, the
  // retries and compressions do.
  lemma EveryRequestIsWellFormed(r: Run, its: seq<seq<Attempt>>, i: nat, k: nat)
    requires IsRun(r, its) && HasPlainStart(r.start) && i < |its| && k < |its[i]|
    ensures var ms := its[i][k].request.messages;
            ms != [] && ms[0] == r.settings.common.system && WellFormed(ms[1..])
  {
    PlainIsKept(r, its);
    HoldsAtAttempt(r, its, Plain(), i, k);
    BuiltIsWellFormed(r.settings, its[i], k);
  }

  lemma BuiltIsWellFormed(s: Settings, attempts: seq<Attempt>, k: nat)
    requires AllBuilt(s, attempts) && k < |attempts| && HasPlainStart(attempts[k].session)
    ensures var ms := attempts[k].request.messages;
            ms != [] && ms[0] == s.common.system && WellFormed(ms[1..])
  {
    var a := attempts[k];
    assert IsBuilt(s, a);
    TailIsWellFormed(a.session, s.maxMessages, a.request.messages[1..]);
  }

  ghost predicate RequestsAreWellFormed(its: seq<seq<Attempt>>) {
    forall i, k :: 0 <= i < |its| && 0 <= k < |its[i]| ==>
      its[i][k].request.messages != [] && WellFormed(its[i][k].request.messages[1..])
  }

  // A run keeps its session plain, so that the next run starts plainly too.
  lemma RunStaysPlain(r: Run, its: seq<seq<Attempt>>, result: RunResult, final: seq<Message>)
    requires IsRun(r, its) && Ends(r, its, result, final) && HasPlainStart(r.start)
    ensures RequestsAreWellFormed(its) && HasPlainStart(final)
  {
    forall i, k | 0 <= i < |its| && 0 <= k < |its[i]|
      ensures its[i][k].request.messages != [] && WellFormed(its[i][k].request.messages[1..])
    {
      EveryRequestIsWellFormed(r, its, i, k);
    }
    PlainIsKept(r, its);
    HoldsAtEnd(r, its, Plain(), result, final);
  }

  // ---- attempts and results ----
  //
  // Up to GuardFailsAfterCompression most lemmas read off what IsRun and Ends say of the run that
  // HandleInner is proved to be.

  // The first attempt of every iteration is made for a session within the guard's limit.
  lemma FirstAttemptsAreGuarded(r: Run, its: seq<seq<Attempt>>, i: nat)
    requires IsChain(r, its) && i < |its|
    ensures its[i] != []
    ensures r.settings.guard.Some? ==> r.settings.guard.value.count(its[i][0].session) <= r.settings.guard.value.limit
  {
    assert Fits(r, its, i);
  }

  // When streaming, no iteration starts once the run is cancelled.
  lemma StartsUncancelled(r: Run, its: seq<seq<Attempt>>, i: nat)
    requires IsChain(r, its) && i < |its| && r.streaming
    ensures !r.env.cancelled(i)
  {
    assert Fits(r, its, i);
  }

  // Every attempt but the last of its iteration failed retryably and was not cancelled while waiting,
  // which is not done after an overflow that is answered by a compression; and every iteration but the last
  // brought a reply that makes calls.
  lemma EarlierAttemptsFail(r: Run, its: seq<seq<Attempt>>, i: nat, k: nat)
    requires IsChain(r, its) && i < |its| && k < |its[i]|
    ensures k < |its[i]| - 1 ==>
            && r.settings.hasClassifier && r.env.llm(i, k).Failed? && r.env.llm(i, k).error.retryable
            && (!r.env.llm(i, k).cancelledWhileWaiting || (r.env.llm(i, k).error.overflow && r.settings.compressor.Some?))
    ensures i < |its| - 1 && k == |its[i]| - 1 ==>
            r.env.llm(i, k).Replied? && Received(r.env.llm(i, k), r.streaming).toolCalls != []
  {
    assert Fits(r, its, i);
    if k < |its[i]| - 1 {
      assert Followed(r, i, its[i], k);
    }
    if i < |its| - 1 {
      assert CallsAt(r, its, i);
    }
  }

  function Attempts(its: seq<seq<Attempt>>): nat {
    if its == [] then 0 else Attempts(its[..|its| - 1]) + |its[|its| - 1]|
  }

  lemma IterationIsBounded(r: Run, its: seq<seq<Attempt>>, i: nat)
    requires IsChain(r, its) && i < |its|
    ensures i < r.settings.maxIterations && 1 <= |its[i]| <= MaxAttempts(r.settings)
  {
    assert Fits(r, its, i);
  }

  lemma {:induction false} AttemptsUpTo(r: Run, its: seq<seq<Attempt>>, n: nat)
    requires IsChain(r, its) && n <= |its|
    ensures n <= Attempts(its[..n]) <= MAX_LLM_RETRIES * n
    ensures !r.settings.hasClassifier ==> Attempts(its[..n]) == n
    decreases n
  {
    if n > 0 {
      AttemptsUpTo(r, its, n - 1);
      IterationIsBounded(r, its, n - 1);
      assert its[..n][..n - 1] == its[..n - 1];
    }
  }

  // At most three attempts for each iteration, one without a classifier.
  lemma AttemptsAreBounded(r: Run, its: seq<seq<Attempt>>)
    requires IsChain(r, its)
    ensures |its| <= r.settings.maxIterations
    ensures forall i :: 0 <= i < |its| ==> 1 <= |its[i]| <= if r.settings.hasClassifier then 3 else 1
    ensures Attempts(its) <= 3 * r.settings.maxIterations
    ensures !r.settings.hasClassifier ==> Attempts(its) == |its|
  {
    AttemptsUpTo(r, its, |its|);
    assert its[..|its|] == its;
    if its != [] {
      IterationIsBounded(r, its, |its| - 1);
    }
    forall i | 0 <= i < |its|
      ensures 1 <= |its[i]| <= if r.settings.hasClassifier then 3 else 1
    {
      IterationIsBounded(r, its, i);
    }
  }

  lemma EndsWithReply(r: Run, its: seq<seq<Attempt>>, result: RunResult, final: seq<Message>)
    requires Ends(r, its, result, final)
    ensures result.Answer? <==>
            its != [] && Outcome(r, |its| - 1, its[|its| - 1]).Replied? && !Calls(r, |its| - 1, its[|its| - 1])
    ensures result.Answer? ==>
            its != [] && Outcome(r, |its| - 1, its[|its| - 1]).Replied? &&
            result.content == Received(Outcome(r, |its| - 1, its[|its| - 1]), r.streaming).content
  {
  }

  // A run answers exactly when its last reply makes no calls, and answers with that reply's content.
  lemma AnswersExactlyWithoutCalls(r: Run, its: seq<seq<Attempt>>, result: RunResult, final: seq<Message>)
    requires IsChain(r, its) && Ends(r, its, result, final)
    ensures its != [] ==> its[|its| - 1] != []
    ensures result.Answer? <==>
            its != [] && its[|its| - 1] != [] && var o := r.env.llm(|its| - 1, |its[|its| - 1]| - 1);
            o.Replied? && Received(o, r.streaming).toolCalls == []
    ensures result.Answer? ==>
            its != [] && its[|its| - 1] != [] && var o := r.env.llm(|its| - 1, |its[|its| - 1]| - 1);
            o.Replied? && result.content == Received(o, r.streaming).content
  {
    EndsWithReply(r, its, result, final);
    if its != [] {
      IterationAt(r, its, |its| - 1);
    }
  }

  // A run is cancelled before an iteration when streaming, or while waiting to retry an attempt that
  // failed retryably, was not the last one allowed and is not answered by a compression.
  lemma CancelledBetweenAttempts(r: Run, its: seq<seq<Attempt>>, final: seq<Message>)
    requires IsChain(r, its) && Ends(r, its, Cancelled, final)
    ensures (r.streaming && r.env.cancelled(|its|) && final == Opening(r, its, |its|)) ||
            (its != [] && its[|its| - 1] != [] && var o := r.env.llm(|its| - 1, |its[|its| - 1]| - 1);
             && o.Failed? && o.cancelledWhileWaiting && r.settings.hasClassifier && o.error.retryable
             && !(o.error.overflow && r.settings.compressor.Some?) && |its[|its| - 1]| < 3
             && final == its[|its| - 1][|its[|its| - 1]| - 1].session)
  {
    if its != [] {
      IterationAt(r, its, |its| - 1);
    }
  }

  // It gives up only after as many replies, all of them making calls, as there may be iterations.
  lemma GivesUpAfterAllIterations(r: Run, its: seq<seq<Attempt>>, final: seq<Message>)
    requires IsChain(r, its) && Ends(r, its, MaxIterationsReached, final)
    ensures |its| == r.settings.maxIterations && forall i :: 0 <= i < |its| ==> CallsAt(r, its, i)
    ensures final == Opening(r, its, |its|)
  {
    AttemptsAreBounded(r, its);
  }

  // It fails with the error of an attempt that is not to be retried, or is the last one allowed.
  lemma FailsWithoutRetry(r: Run, its: seq<seq<Attempt>>, error: LLMError, final: seq<Message>)
    requires IsChain(r, its) && Ends(r, its, LLMFailed(error), final)
    ensures its != [] && its[|its| - 1] != [] && var o := r.env.llm(|its| - 1, |its[|its| - 1]| - 1);
            o.Failed? && o.error == error &&
            (!r.settings.hasClassifier || !error.retryable || |its[|its| - 1]| == 3)
  {
    IterationAt(r, its, |its| - 1);
  }

  // It fails at the guard only with a session over the limit, and if the guard has a compressor only
  // after that has failed or has left the session over the limit.
  lemma GuardFailsAfterCompression(r: Run, its: seq<seq<Attempt>>, g: GuardResult, final: seq<Message>)
    requires Ends(r, its, GuardFailed(g), final)
    ensures r.settings.guard.Some? && var guard, ms := r.settings.guard.value, Before(r, its, |its|);
            && guard.count(final) > guard.limit
            && (guard.keepRecent.Some? ==> final == AfterCompression(ms, guard.keepRecent.value, CheckpointReply(r, |its|)))
            && (g == CompressionFailed <==>
                guard.keepRecent.Some? && Summarises(ms, guard.keepRecent.value) && CheckpointReply(r, |its|).SummaryFailed?)
  {
  }

  // ---- without compression ----

  predicate NeverCompresses(s: Settings) {
    s.compressor.None? && (s.guard.Some? ==> s.guard.value.keepRecent.None?)
  }

  // What the first `n` iterations append.
  function Blocks(r: Run, its: seq<seq<Attempt>>, n: nat): seq<Message>
    requires n <= |its|
  {
    if n == 0 then []
    else
      var o := Outcome(r, n - 1, its[n - 1]);
      Blocks(r, its, n - 1) + if o.Replied? then Block(r, n - 1, o) else []
  }

  lemma {:induction false} SameSession(r: Run, i: nat, opening: seq<Message>, attempts: seq<Attempt>, k: nat)
    requires NeverCompresses(r.settings) && Linked(r, i, opening, attempts) && k < |attempts|
    ensures attempts[k].session == opening
    decreases k
  {
    if k > 0 {
      SameSession(r, i, opening, attempts, k - 1);
      assert Followed(r, i, attempts, k - 1);
    }
  }

  lemma LastSessionIsOpening(r: Run, its: seq<seq<Attempt>>, n: nat)
    requires NeverCompresses(r.settings) && IsChain(r, its) && n < |its|
    ensures LastSession(its[n]) == Before(r, its, n)
  {
    IterationAt(r, its, n);
    SameSession(r, n, Before(r, its, n), its[n], Last(its[n]));
  }

  // The session at checkpoint `n` is the start and the blocks so far.
  ghost predicate HasBlocks(r: Run, its: seq<seq<Attempt>>, n: nat)
    requires n <= |its|
  {
    Before(r, its, n) == r.start + Blocks(r, its, n)
  }

  lemma HasNoBlocks(r: Run, its: seq<seq<Attempt>>)
    ensures HasBlocks(r, its, 0)
  {
    assert r.start + [] == r.start;
  }

  lemma HasBlocksNext(r: Run, its: seq<seq<Attempt>>, n: nat)
    requires NeverCompresses(r.settings) && IsChain(r, its) && n < |its| && HasBlocks(r, its, n)
    ensures HasBlocks(r, its, n + 1)
  {
    LastSessionIsOpening(r, its, n);
    OneMoreBlock(r, its, n + 1);
  }

  lemma {:induction false} SessionAt(r: Run, its: seq<seq<Attempt>>, n: nat)
    requires NeverCompresses(r.settings) && IsChain(r, its) && n <= |its|
    ensures HasBlocks(r, its, n)
    decreases n
  {
    if n == 0 {
      HasNoBlocks(r, its);
    } else {
      SessionAt(r, its, n - 1);
      HasBlocksNext(r, its, n - 1);
    }
  }

  lemma OneMoreBlock(r: Run, its: seq<seq<Attempt>>, n: nat)
    requires 0 < n <= |its| && NeverCompresses(r.settings)
    requires LastSession(its[n - 1]) == r.start + Blocks(r, its, n - 1)
    ensures Before(r, its, n) == r.start + Blocks(r, its, n)
  {
    var o := Outcome(r, n - 1, its[n - 1]);
    Assoc3(r.start, Blocks(r, its, n - 1), if o.Replied? then Block(r, n - 1, o) else []);
    assert Blocks(r, its, n - 1) + [] == Blocks(r, its, n - 1);
  }

  // Without compression every attempt is made for the old session, the user's message and the blocks
  // so far, one reply and its results each; and this is what the run leaves.
  lemma WithoutCompression(r: Run, its: seq<seq<Attempt>>, result: RunResult, final: seq<Message>)
    requires NeverCompresses(r.settings) && IsChain(r, its) && Ends(r, its, result, final)
    ensures forall i, k :: 0 <= i < |its| && 0 <= k < |its[i]| ==> its[i][k].session == r.start + Blocks(r, its, i)
    ensures final == r.start + Blocks(r, its, |its|)
  {
    forall i, k | 0 <= i < |its| && 0 <= k < |its[i]|
      ensures its[i][k].session == r.start + Blocks(r, its, i)
    {
      SessionAt(r, its, i);
      assert Fits(r, its, i);
      SameSession(r, i, Before(r, its, i), its[i], k);
    }
    SessionAt(r, its, |its|);
  }

  // ---- the order in which repair injects does not matter to a run ----

  ghost predicate SameSessions(a: seq<Attempt>, b: seq<Attempt>) {
    |a| == |b| && forall k :: 0 <= k < |a| ==> a[k].session == b[k].session
  }

  lemma {:induction false} SameUpTo(r: Run, i: nat, opening: seq<Message>, a: seq<Attempt>, b: seq<Attempt>, k: nat)
    requires Linked(r, i, opening, a) && Linked(r, i, opening, b) && k < |a| && k < |b|
    ensures a[k].session == b[k].session
    decreases k
  {
    if k > 0 {
      SameUpTo(r, i, opening, a, b, k - 1);
      assert Followed(r, i, a, k - 1) && Followed(r, i, b, k - 1);
    }
  }

  lemma GoesOnAt(r: Run, i: nat, opening: seq<Message>, attempts: seq<Attempt>, k: nat)
    requires IsIteration(r, i, opening, attempts) && k < |attempts| - 1
    ensures GoesOn(r.settings, r.env.llm(i, k)) && k + 1 < MaxAttempts(r.settings)
  {
    assert Followed(r, i, attempts, k);
  }

  lemma NoLonger(r: Run, i: nat, opening: seq<Message>, a: seq<Attempt>, b: seq<Attempt>)
    requires IsIteration(r, i, opening, a) && IsIteration(r, i, opening, b)
    ensures |a| <= |b|
  {
    if |b| < |a| {
      GoesOnAt(r, i, opening, a, |b| - 1);
    }
  }

  lemma SameIteration(r: Run, i: nat, opening: seq<Message>, a: seq<Attempt>, b: seq<Attempt>)
    requires IsIteration(r, i, opening, a) && IsIteration(r, i, opening, b)
    ensures SameSessions(a, b)
    ensures AfterIteration(r, i, a) == AfterIteration(r, i, b) && Outcome(r, i, a) == Outcome(r, i, b)
  {
    NoLonger(r, i, opening, a, b);
    NoLonger(r, i, opening, b, a);
    forall k | 0 <= k < |a|
      ensures a[k].session == b[k].session
    {
      SameUpTo(r, i, opening, a, b, k);
    }
  }

  lemma SameOpenings(r: Run, a: seq<seq<Attempt>>, b: seq<seq<Attempt>>, n: nat)
    requires n <= |a| && n <= |b| && Before(r, a, n) == Before(r, b, n)
    ensures Opening(r, a, n) == Opening(r, b, n)
  {
  }

  lemma SameNext(r: Run, a: seq<seq<Attempt>>, b: seq<seq<Attempt>>, n: nat)
    requires IsChain(r, a) && IsChain(r, b) && n < |a| && n < |b| && Opening(r, a, n) == Opening(r, b, n)
    ensures Before(r, a, n + 1) == Before(r, b, n + 1)
    ensures SameSessions(a[n], b[n]) && Outcome(r, n, a[n]) == Outcome(r, n, b[n])
  {
    IterationAt(r, a, n);
    IterationAt(r, b, n);
    SameIteration(r, n, Opening(r, a, n), a[n], b[n]);
  }

  ghost predicate Agree(r: Run, a: seq<seq<Attempt>>, b: seq<seq<Attempt>>, n: nat)
    requires n <= |a| && n <= |b|
  {
    Before(r, a, n) == Before(r, b, n)
  }

  lemma AgreeNext(r: Run, a: seq<seq<Attempt>>, b: seq<seq<Attempt>>, n: nat)
    requires IsChain(r, a) && IsChain(r, b) && n < |a| && n < |b| && Agree(r, a, b, n)
    ensures Agree(r, a, b, n + 1)
  {
    SameOpenings(r, a, b, n);
    SameNext(r, a, b, n);
  }

  lemma {:induction false} SameBefore(r: Run, a: seq<seq<Attempt>>, b: seq<seq<Attempt>>, n: nat)
    requires IsChain(r, a) && IsChain(r, b) && n <= |a| && n <= |b|
    ensures Agree(r, a, b, n)
    decreases n
  {
    if n > 0 {
      SameBefore(r, a, b, n - 1);
      AgreeNext(r, a, b, n - 1);
    }
  }

  lemma SameAt(r: Run, a: seq<seq<Attempt>>, b: seq<seq<Attempt>>, n: nat)
    requires IsChain(r, a) && IsChain(r, b) && n < |a| && n < |b|
    ensures SameSessions(a[n], b[n]) && Outcome(r, n, a[n]) == Outcome(r, n, b[n])
  {
    SameBefore(r, a, b, n);
    SameOpenings(r, a, b, n);
    SameNext(r, a, b, n);
  }

  // After `n` iterations the two runs are at the same point.
  ghost predicate AtSamePoint(r: Run, a: seq<seq<Attempt>>, b: seq<seq<Attempt>>, n: nat)
    requires n <= |a| && n <= |b|
  {
    && Agree(r, a, b, n)
    && (n > 0 ==> |a[n - 1]| == |b[n - 1]| && Outcome(r, n - 1, a[n - 1]) == Outcome(r, n - 1, b[n - 1]))
  }

  lemma RunsAreAtSamePoint(r: Run, a: seq<seq<Attempt>>, b: seq<seq<Attempt>>, n: nat)
    requires IsChain(r, a) && IsChain(r, b) && n <= |a| && n <= |b|
    ensures AtSamePoint(r, a, b, n)
  {
    SameBefore(r, a, b, n);
    if n > 0 {
      SameAt(r, a, b, n - 1);
    }
  }

  lemma EndedStops(r: Run, its: seq<seq<Attempt>>, result: RunResult, final: seq<Message>)
    requires Ends(r, its, result, final)
    ensures !(Open(r, its) && Starts(r, its, |its|))
  {
  }

  lemma GoesOnFrom(r: Run, its: seq<seq<Attempt>>, n: nat)
    requires IsChain(r, its) && n < |its|
    ensures Starts(r, its, n) && (n > 0 ==> Calls(r, n - 1, its[n - 1]))
  {
    assert Fits(r, its, n);
    assert n > 0 ==> CallsAt(r, its, n - 1);
  }

  lemma StartsAtSamePoint(r: Run, a: seq<seq<Attempt>>, b: seq<seq<Attempt>>)
    requires |a| < |b| && AtSamePoint(r, a, b, |a|) && Starts(r, b, |a|) && (a != [] ==> Calls(r, |a| - 1, b[|a| - 1]))
    ensures Open(r, a) && Starts(r, a, |a|)
  {
    SameOpenings(r, a, b, |a|);
  }

  // A run that has ended does not go on.
  lemma EndedIsMaximal(r: Run, a: seq<seq<Attempt>>, b: seq<seq<Attempt>>, result: RunResult, final: seq<Message>)
    requires IsChain(r, a) && IsChain(r, b) && Ends(r, a, result, final)
    ensures |b| <= |a|
  {
    EndedStops(r, a, result, final);
    if |a| < |b| {
      GoesOnFrom(r, b, |a|);
      RunsAreAtSamePoint(r, a, b, |a|);
      StartsAtSamePoint(r, a, b);
    }
  }

  lemma EndsAtSamePoint(r: Run, a: seq<seq<Attempt>>, b: seq<seq<Attempt>>, result: RunResult, final: seq<Message>)
    requires |a| == |b| && AtSamePoint(r, a, b, |a|) && Ends(r, a, result, final)
    ensures Ends(r, b, result, final)
  {
    SameOpenings(r, a, b, |a|);
  }

  // The result and the session left are determined by the iterations.
  lemma OneEnd(r: Run, its: seq<seq<Attempt>>, result: RunResult, final: seq<Message>, result': RunResult, final': seq<Message>)
    requires Ends(r, its, result, final) && Ends(r, its, result', final')
    ensures result == result' && final == final'
  {
  }

  ghost predicate SameRequest(a: ChatRequest, b: ChatRequest) {
    && a.messages != [] && b.messages != []
    && b == a.(messages := b.messages) && b.messages[0] == a.messages[0]
    && SameUpToOrder(a.messages[1..], b.messages[1..])
  }

  ghost predicate SameAttempt(a: Attempt, b: Attempt) {
    a.session == b.session && SameRequest(a.request, b.request)
  }

  ghost predicate SameAttempts(a: seq<Attempt>, b: seq<Attempt>) {
    |a| == |b| && forall k :: 0 <= k < |a| ==> SameAttempt(a[k], b[k])
  }

  lemma BuiltTheSame(s: Settings, a: Attempt, b: Attempt)
    requires IsBuilt(s, a) && IsBuilt(s, b) && a.session == b.session
    ensures SameAttempt(a, b)
  {
    TailsAgree(a.session, s.maxMessages, a.request.messages[1..], b.request.messages[1..]);
  }

  lemma AllBuiltTheSame(s: Settings, a: seq<Attempt>, b: seq<Attempt>)
    requires AllBuilt(s, a) && AllBuilt(s, b) && SameSessions(a, b)
    ensures SameAttempts(a, b)
  {
    forall k | 0 <= k < |a|
      ensures SameAttempt(a[k], b[k])
    {
      BuiltTheSame(s, a[k], b[k]);
    }
  }

  // Two runs in the same environment make the same attempts for the same sessions, end with the same
  // result and leave the same session. Their requests differ at most in the order of the results
  // within each turn, which is that of the injected errors.
  lemma RunsAreDetermined(r: Run, a: seq<seq<Attempt>>, result: RunResult, final: seq<Message>,
                          b: seq<seq<Attempt>>, result': RunResult, final': seq<Message>)
    requires IsRun(r, a) && Ends(r, a, result, final) && IsRun(r, b) && Ends(r, b, result', final')
    ensures result == result' && final == final'
    ensures |a| == |b| && forall i :: 0 <= i < |a| ==> SameAttempts(a[i], b[i])
  {
    EndedIsMaximal(r, a, b, result, final);
    EndedIsMaximal(r, b, a, result', final');
    forall i | 0 <= i < |a|
      ensures SameAttempts(a[i], b[i])
    {
      SameAt(r, a, b, i);
      AllBuiltTheSame(r.settings, a[i], b[i]);
    }
    RunsAreAtSamePoint(r, a, b, |a|);
    EndsAtSamePoint(r, a, b, result, final);
    OneEnd(r, b, result, final, result', final');
  }

  // ---- nothing that is dropped goes unread ----

  ghost predicate ShownIn(p: Prompts, m: Message) {
    Shows(p.afterReply, m) || exists k :: 0 <= k < |p.afterAttempts| && Shows(p.afterAttempts[k], m)
  }

  // The summarising model was asked to summarise a text that has the message's line.
  ghost predicate Shown(r: Run, its: seq<seq<Attempt>>, m: Message) {
    || Shows(GuardPrompt(r.settings.guard, r.start), m)
    || exists i :: 0 <= i < |its| && ShownIn(RunPrompts(r, its)[i], m)
  }

  lemma ShownAfterAttempt(r: Run, its: seq<seq<Attempt>>, i: nat, k: nat, m: Message)
    requires i < |its| && k < |its[i]| && Shows(OverflowPrompt(r, i, k, its[i][k].session), m)
    ensures Shown(r, its, m)
  {
    assert Shows(IterationPrompts(r, i, its[i]).afterAttempts[k], m);
    assert ShownIn(RunPrompts(r, its)[i], m);
  }

  lemma ShownAfterReply(r: Run, its: seq<seq<Attempt>>, i: nat, m: Message)
    requires i < |its| && Shows(ReplyPrompt(r, i, its[i]), m)
    ensures Shown(r, its, m)
  {
    assert ShownIn(RunPrompts(r, its)[i], m);
  }

  lemma CheckpointKeeps(r: Run, its: seq<seq<Attempt>>, n: nat, m: Message)
    requires n <= |its| && (n > 0 ==> Calls(r, n - 1, its[n - 1])) && m in Before(r, its, n) && m.role != System
    ensures m in Opening(r, its, n) || Shown(r, its, m)
  {
    var g, ms := r.settings.guard, Before(r, its, n);
    if !WithinLimit(g, ms) && g.value.keepRecent.Some? {
      DroppedIsShown(ms, g.value.keepRecent.value, CheckpointReply(r, n), m);
      if n > 0 && Shows(GuardPrompt(g, ms), m) {
        ShownAfterReply(r, its, n - 1, m);
      }
    }
  }

  lemma AttemptKeeps(r: Run, its: seq<seq<Attempt>>, i: nat, k: nat, m: Message)
    requires i < |its| && k < |its[i]| && m in its[i][k].session && m.role != System
    ensures m in AfterFailure(r, i, k, its[i][k].session) || Shown(r, its, m)
  {
    if Overflows(r.settings, r.env.llm(i, k)) {
      var ms, keep := its[i][k].session, r.settings.compressor.value.keepRecent;
      DroppedIsShown(ms, keep, r.env.summary(OnOverflow(i, k)), m);
      if Shows(PromptFor(ms, keep), m) {
        ShownAfterAttempt(r, its, i, k, m);
      }
    }
  }

  lemma {:induction false} AttemptsKeep(r: Run, its: seq<seq<Attempt>>, i: nat, k: nat, l: nat, m: Message)
    requires i < |its| && Linked(r, i, Opening(r, its, i), its[i]) && k <= l < |its[i]|
    requires m in its[i][k].session && m.role != System
    ensures m in its[i][l].session || Shown(r, its, m)
    decreases l
  {
    if k < l {
      AttemptsKeep(r, its, i, k, l - 1, m);
      if !Shown(r, its, m) {
        AttemptKeeps(r, its, i, l - 1, m);
        NextSession(r, i, Opening(r, its, i), its[i], l);
      }
    }
  }

  lemma SessionKeeps(r: Run, its: seq<seq<Attempt>>, i: nat, k: nat, m: Message)
    requires IsChain(r, its) && i < |its| && k < |its[i]| && m in its[i][k].session && m.role != System
    ensures m in Before(r, its, i + 1) || Shown(r, its, m)
  {
    IterationAt(r, its, i);
    AttemptsKeep(r, its, i, k, Last(its[i]), m);
    if !Shown(r, its, m) {
      AttemptKeeps(r, its, i, Last(its[i]), m);
    }
  }

  lemma OpeningKeeps(r: Run, its: seq<seq<Attempt>>, i: nat, m: Message)
    requires IsChain(r, its) && i < |its| && m in Opening(r, its, i) && m.role != System
    ensures m in Before(r, its, i + 1) || Shown(r, its, m)
  {
    IterationAt(r, its, i);
    SessionKeeps(r, its, i, 0, m);
  }

  lemma IterationKeeps(r: Run, its: seq<seq<Attempt>>, i: nat, m: Message)
    requires IsChain(r, its) && i < |its| && m in Before(r, its, i) && m.role != System
    ensures m in Before(r, its, i + 1) || Shown(r, its, m)
  {
    GoesOnFrom(r, its, i);
    CheckpointKeeps(r, its, i, m);
    if !Shown(r, its, m) {
      OpeningKeeps(r, its, i, m);
    }
  }

  lemma {:induction false} RunKeeps(r: Run, its: seq<seq<Attempt>>, i: nat, n: nat, m: Message)
    requires IsChain(r, its) && i <= n <= |its| && m in Before(r, its, i) && m.role != System
    ensures m in Before(r, its, n) || Shown(r, its, m)
    decreases n
  {
    if i < n {
      RunKeeps(r, its, i, n - 1, m);
      if !Shown(r, its, m) {
        IterationKeeps(r, its, n - 1, m);
      }
    }
  }

  lemma AnswerKeeps(r: Run, its: seq<seq<Attempt>>, m: Message)
    requires its != [] && Outcome(r, |its| - 1, its[|its| - 1]).Replied? && !Calls(r, |its| - 1, its[|its| - 1])
    requires m in Before(r, its, |its|) && m.role != System
    ensures m in AfterAnswer(r, |its| - 1, Before(r, its, |its|)) || Shown(r, its, m)
  {
    var n, ms := |its| - 1, Before(r, its, |its|);
    if r.settings.compressor.Some? && |ms| > r.settings.compressor.value.threshold {
      DroppedIsShown(ms, r.settings.compressor.value.keepRecent, r.env.summary(OnAnswer(n)), m);
      if Shows(AnswerPrompt(r.settings, ms), m) {
        ShownAfterReply(r, its, n, m);
      }
    }
  }

  lemma EndKeeps(r: Run, its: seq<seq<Attempt>>, result: RunResult, final: seq<Message>, m: Message)
    requires Ends(r, its, result, final) && m in Before(r, its, |its|) && m.role != System
    ensures m in final || Shown(r, its, m)
  {
    if Open(r, its) {
      CheckpointKeeps(r, its, |its|, m);
    } else if result.Answer? {
      AnswerKeeps(r, its, m);
    }
  }

  // The message is in the session at some point of the run: before or after a checkpoint, or when an
  // attempt is made.
  ghost predicate Appears(r: Run, its: seq<seq<Attempt>>, m: Message) {
    || m in r.start
    || exists i :: 0 <= i < |its| && AppearsIn(r, its, i, m)
  }

  ghost predicate AppearsIn(r: Run, its: seq<seq<Attempt>>, i: nat, m: Message)
    requires i < |its|
  {
    || m in Opening(r, its, i)
    || (exists k :: 0 <= k < |its[i]| && m in its[i][k].session)
    || m in AfterIteration(r, i, its[i])
  }

  lemma OccurrenceKeeps(r: Run, its: seq<seq<Attempt>>, i: nat, m: Message)
    requires IsChain(r, its) && i < |its| && AppearsIn(r, its, i, m) && m.role != System
    ensures m in Before(r, its, i + 1) || Shown(r, its, m)
  {
    if m in Opening(r, its, i) {
      OpeningKeeps(r, its, i, m);
    } else if k :| 0 <= k < |its[i]| && m in its[i][k].session {
      SessionKeeps(r, its, i, k, m);
    }
  }

  // Whatever is in the session at some point of a run is in the session the run leaves, or was shown
  // to the summarising model; system messages apart. This covers the messages the session started
  // with, every reply, every result and every summary.
  lemma NothingGoesUnread(r: Run, its: seq<seq<Attempt>>, result: RunResult, final: seq<Message>, m: Message)
    requires IsRun(r, its) && Ends(r, its, result, final) && m.role != System && Appears(r, its, m)
    ensures m in final || Shown(r, its, m)
  {
    var n: nat := 0;
    if m !in r.start {
      var i :| 0 <= i < |its| && AppearsIn(r, its, i, m);
      OccurrenceKeeps(r, its, i, m);
      n := i + 1;
    }
    if !Shown(r, its, m) {
      RunKeeps(r, its, n, |its|, m);
    }
    if !Shown(r, its, m) {
      EndKeeps(r, its, result, final, m);
    }
  }
}
