// What a run of the agent loop does (internal/usecase/agent.go, internal/usecase/context_guard.go), as
// a relation on the requests it sends and on the sessions it sends them for.
//
// The model, the summarising model, the tools and cancellation are arbitrary: `Environment` fixes what
// each answers at each point of a run, and everything holds for all environments.
module AgentTrace {
  import opened Options
  import opened Messages
  import opened ContextBuilding
  import opened Compression
  import opened Streaming

  const MAX_LLM_RETRIES := 3

  // A failed call: whether the classifier calls it retryable, and whether it is a context overflow.
  datatype LLMError = LLMError(text: string, retryable: bool, overflow: bool)

  // The answer to one attempt: `reply` when called synchronously, `deltas` when streaming.
  datatype LLMOutcome =
    | Replied(reply: Message, deltas: seq<Delta>)
    | Failed(error: LLMError, cancelledWhileWaiting: bool)

  datatype ToolOutcome = NotFound(text: string) | NotApproved(text: string) | ExecFailed(text: string) | Done(text: string)

  // The points of a run at which a session may be compressed: at a checkpoint of the guard, at the
  // start or after the tools of an iteration; after an attempt that overflows; after the answer.
  datatype Occasion = OnStart | OnTools(i: nat) | OnOverflow(i: nat, k: nat) | OnAnswer(i: nat)

  // `llm(i, k)` answers attempt `k` of iteration `i`, `tool(i, j)` is what its call `j` gives, and
  // `cancelled(i)` whether the run is cancelled before it.
  datatype Environment = Environment(
    lockAcquired: bool,
    llm: (nat, nat) -> LLMOutcome,
    summary: Occasion -> SummaryReply,
    tool: (nat, nat) -> ToolOutcome,
    cancelled: nat -> bool)

  datatype GuardResult = Within | CompressionFailed | Overflow

  datatype RunResult =
    | LockFailed
    | GuardFailed(guard: GuardResult)
    | Cancelled
    | LLMFailed(error: LLMError)
    | Answer(content: string)
    | MaxIterationsReached

  datatype Summariser = Summariser(threshold: int, keepRecent: nat)

  datatype Guard = Guard(limit: int, count: seq<Message> -> int, keepRecent: Option<nat>)

  // What all requests of a run share; `system` is their system message.
  datatype Common = Common(system: Message, model: string, tools: seq<string>, thinkingBudget: int)

  datatype Settings = Settings(common: Common, maxMessages: int, maxIterations: nat, hasClassifier: bool,
                               compressor: Option<Summariser>, guard: Option<Guard>)

  // A run; `start` is the session with the user's message.
  datatype Run = Run(settings: Settings, env: Environment, streaming: bool, start: seq<Message>)

  // One attempt to call the model: the session it was made for and the request that was sent.
  datatype Attempt = Attempt(session: seq<Message>, request: ChatRequest)

  // ---- the model and the tools ----

  // The message an attempt yields.
  function Received(outcome: LLMOutcome, streaming: bool): Message
    requires outcome.Replied?
  {
    if streaming then
      var s := From(EMPTY, outcome.deltas);
      Message(Assistant, s.content, "", s.toolCalls, "")
    else outcome.reply
  }

  // However a call ends, its result is a tool message that carries the call's ID and name, and what
  // the tool gave.
  function ToolMessage(call: ToolCall, outcome: ToolOutcome): (m: Message)
    ensures IsTool(m) && FirstId(m) == call.id && m.name == call.name && m.content == outcome.text
  {
    Message(Tool, outcome.text, call.name, [ToolCall(call.id, call.name, "")], "")
  }

  // One result for each call, in the order of the calls.
  function ToolResults(env: Environment, i: nat, calls: seq<ToolCall>): seq<Message> {
    seq(|calls|, j requires 0 <= j < |calls| => ToolMessage(calls[j], env.tool(i, j)))
  }

  // What an iteration appends: the reply and the results of its calls.
  function Block(r: Run, i: nat, outcome: LLMOutcome): seq<Message>
    requires outcome.Replied?
  {
    var reply := Received(outcome, r.streaming);
    [reply] + ToolResults(r.env, i, reply.toolCalls)
  }

  // ---- the guard ----

  predicate WithinLimit(g: Option<Guard>, ms: seq<Message>) {
    g.Some? ==> g.value.count(ms) <= g.value.limit
  }

  // A session over the limit is compressed, if there is something to compress it with.
  function AfterGuard(g: Option<Guard>, ms: seq<Message>, reply: SummaryReply): seq<Message> {
    if !WithinLimit(g, ms) && g.value.keepRecent.Some?
    then AfterCompression(ms, g.value.keepRecent.value, reply)
    else ms
  }

  function Verdict(g: Option<Guard>, ms: seq<Message>, reply: SummaryReply): GuardResult {
    if WithinLimit(g, AfterGuard(g, ms, reply)) then Within
    else if g.value.keepRecent.Some? && Summarises(ms, g.value.keepRecent.value) && reply.SummaryFailed?
    then CompressionFailed
    else Overflow
  }

  // ---- one iteration ----

  function MaxAttempts(s: Settings): nat {
    if s.hasClassifier then MAX_LLM_RETRIES else 1
  }

  // Only a failure that the classifier calls retryable is followed by another attempt.
  predicate RetriesAfter(s: Settings, outcome: LLMOutcome) {
    outcome.Failed? && s.hasClassifier && outcome.error.retryable
  }

  // The session is compressed before the next attempt.
  predicate Overflows(s: Settings, outcome: LLMOutcome) {
    RetriesAfter(s, outcome) && outcome.error.overflow && s.compressor.Some?
  }

  predicate GoesOn(s: Settings, outcome: LLMOutcome) {
    RetriesAfter(s, outcome) && (Overflows(s, outcome) || !outcome.cancelledWhileWaiting)
  }

  function Last(attempts: seq<Attempt>): nat {
    if attempts == [] then 0 else |attempts| - 1
  }

  function LastSession(attempts: seq<Attempt>): seq<Message> {
    if attempts == [] then [] else attempts[|attempts| - 1].session
  }

  function Outcome(r: Run, i: nat, attempts: seq<Attempt>): LLMOutcome {
    r.env.llm(i, Last(attempts))
  }

  // The session after attempt `k`, made for `ms`, has failed.
  function AfterFailure(r: Run, i: nat, k: nat, ms: seq<Message>): seq<Message> {
    if Overflows(r.settings, r.env.llm(i, k))
    then AfterCompression(ms, r.settings.compressor.value.keepRecent, r.env.summary(OnOverflow(i, k)))
    else ms
  }

  // A request starts with the system message, and what follows is the session's history repaired and
  // truncated.
  ghost predicate IsBuilt(s: Settings, a: Attempt) {
    && a.request.messages != []
    && Common(a.request.messages[0], a.request.model, a.request.tools, a.request.thinkingBudget) == s.common
    && IsTailFor(a.session, s.maxMessages, a.request.messages[1..])
  }

  // Attempt `k` is followed by another: for the compressed session after an overflow, with the same
  // request after any other retryable failure.
  ghost predicate Followed(r: Run, i: nat, attempts: seq<Attempt>, k: nat)
    requires k < |attempts| - 1
  {
    && GoesOn(r.settings, r.env.llm(i, k))
    && attempts[k + 1].session == AfterFailure(r, i, k, attempts[k].session)
    && (!Overflows(r.settings, r.env.llm(i, k)) ==> attempts[k + 1].request == attempts[k].request)
  }

  ghost predicate Linked(r: Run, i: nat, opening: seq<Message>, attempts: seq<Attempt>) {
    && (attempts != [] ==> attempts[0].session == opening)
    && (forall k :: 0 <= k < |attempts| - 1 ==> Followed(r, i, attempts, k))
  }

  ghost predicate AllBuilt(s: Settings, attempts: seq<Attempt>) {
    forall k :: 0 <= k < |attempts| ==> IsBuilt(s, attempts[k])
  }

  // The attempts of an iteration that starts from `opening`: the last one is the first that is not to
  // be followed, or the last one allowed.
  ghost predicate IsIteration(r: Run, i: nat, opening: seq<Message>, attempts: seq<Attempt>) {
    && 1 <= |attempts| <= MaxAttempts(r.settings)
    && Linked(r, i, opening, attempts)
    && (!GoesOn(r.settings, Outcome(r, i, attempts)) || |attempts| == MaxAttempts(r.settings))
  }

  predicate CancelledWaiting(r: Run, i: nat, attempts: seq<Attempt>) {
    var o := Outcome(r, i, attempts);
    && RetriesAfter(r.settings, o) && !Overflows(r.settings, o) && o.cancelledWhileWaiting
    && |attempts| < MaxAttempts(r.settings)
  }

  function AfterIteration(r: Run, i: nat, attempts: seq<Attempt>): seq<Message> {
    var o := Outcome(r, i, attempts);
    if o.Replied? then LastSession(attempts) + Block(r, i, o)
    else AfterFailure(r, i, Last(attempts), LastSession(attempts))
  }

  // The reply makes calls, so the run goes on.
  predicate Calls(r: Run, i: nat, attempts: seq<Attempt>) {
    var o := Outcome(r, i, attempts);
    o.Replied? && Received(o, r.streaming).toolCalls != []
  }

  // ---- the run ----

  // The session at checkpoint `i`, before the guard looks at it and after.
  function Before(r: Run, its: seq<seq<Attempt>>, i: nat): seq<Message>
    requires i <= |its|
  {
    if i == 0 then r.start else AfterIteration(r, i - 1, its[i - 1])
  }

  function CheckpointReply(r: Run, i: nat): SummaryReply {
    r.env.summary(if i == 0 then OnStart else OnTools(i - 1))
  }

  function Opening(r: Run, its: seq<seq<Attempt>>, i: nat): seq<Message>
    requires i <= |its|
  {
    AfterGuard(r.settings.guard, Before(r, its, i), CheckpointReply(r, i))
  }

  // Iteration `i` starts from a session the guard has let pass, and only if the run is not cancelled.
  ghost predicate Starts(r: Run, its: seq<seq<Attempt>>, i: nat)
    requires i <= |its|
  {
    && i < r.settings.maxIterations
    && WithinLimit(r.settings.guard, Opening(r, its, i))
    && !(r.streaming && r.env.cancelled(i))
  }

  ghost predicate Fits(r: Run, its: seq<seq<Attempt>>, i: nat)
    requires i < |its|
  {
    Starts(r, its, i) && IsIteration(r, i, Opening(r, its, i), its[i])
  }

  predicate CallsAt(r: Run, its: seq<seq<Attempt>>, i: nat)
    requires i < |its|
  {
    Calls(r, i, its[i])
  }

  // The iterations follow from each other.
  ghost predicate IsChain(r: Run, its: seq<seq<Attempt>>) {
    && (forall i :: 0 <= i < |its| ==> Fits(r, its, i))
    && (forall i :: 0 <= i < |its| - 1 ==> CallsAt(r, its, i))
  }

  ghost predicate IsRun(r: Run, its: seq<seq<Attempt>>) {
    IsChain(r, its) && forall i :: 0 <= i < |its| ==> AllBuilt(r.settings, its[i])
  }

  // No iteration has been run yet, or the last one made calls.
  predicate Open(r: Run, its: seq<seq<Attempt>>) {
    its == [] || Calls(r, |its| - 1, its[|its| - 1])
  }

  function AfterAnswer(r: Run, i: nat, ms: seq<Message>): seq<Message> {
    if r.settings.compressor.Some? && |ms| > r.settings.compressor.value.threshold
    then AfterCompression(ms, r.settings.compressor.value.keepRecent, r.env.summary(OnAnswer(i)))
    else ms
  }

  // How a run ends after the iterations `its`, and the session it leaves.
  ghost predicate Ends(r: Run, its: seq<seq<Attempt>>, result: RunResult, final: seq<Message>) {
    var n := |its|;
    match result
    case LockFailed => false
    case GuardFailed(g) =>
      && Open(r, its) && g != Within && final == Opening(r, its, n)
      && g == Verdict(r.settings.guard, Before(r, its, n), CheckpointReply(r, n))
    case MaxIterationsReached =>
      && Open(r, its) && WithinLimit(r.settings.guard, Opening(r, its, n)) && final == Opening(r, its, n)
      && n >= r.settings.maxIterations
    case Cancelled =>
      || (&& Open(r, its) && WithinLimit(r.settings.guard, Opening(r, its, n)) && final == Opening(r, its, n)
          && n < r.settings.maxIterations && r.streaming && r.env.cancelled(n))
      || (n > 0 && CancelledWaiting(r, n - 1, its[n - 1]) && final == AfterIteration(r, n - 1, its[n - 1]))
    case LLMFailed(e) =>
      && n > 0 && !CancelledWaiting(r, n - 1, its[n - 1]) && final == AfterIteration(r, n - 1, its[n - 1])
      && Outcome(r, n - 1, its[n - 1]).Failed? && e == Outcome(r, n - 1, its[n - 1]).error
    case Answer(content) =>
      && n > 0 && Outcome(r, n - 1, its[n - 1]).Replied? && !Calls(r, n - 1, its[n - 1])
      && content == Received(Outcome(r, n - 1, its[n - 1]), r.streaming).content
      && final == AfterAnswer(r, n - 1, AfterIteration(r, n - 1, its[n - 1]))
  }

  lemma LinkedAppend(r: Run, i: nat, opening: seq<Message>, attempts: seq<Attempt>, a: Attempt)
    requires Linked(r, i, opening, attempts) && (attempts == [] ==> a.session == opening)
    requires attempts != [] ==> Followed(r, i, attempts + [a], |attempts| - 1)
    ensures Linked(r, i, opening, attempts + [a])
  {
    var all := attempts + [a];
    forall k | 0 <= k < |all| - 1
      ensures Followed(r, i, all, k)
    {
      if k < |attempts| - 1 {
        assert Followed(r, i, attempts, k);
        assert all[k] == attempts[k] && all[k + 1] == attempts[k + 1];
      }
    }
  }

  lemma BuiltAppend(s: Settings, attempts: seq<Attempt>, a: Attempt)
    requires AllBuilt(s, attempts) && IsBuilt(s, a)
    ensures AllBuilt(s, attempts + [a])
  {
  }

  // Iterations yet to come do not change what came before.
  lemma SameOpening(r: Run, its: seq<seq<Attempt>>, more: seq<Attempt>, i: nat)
    requires i <= |its|
    ensures Opening(r, its + [more], i) == Opening(r, its, i)
  {
  }

  lemma FitsLonger(r: Run, its: seq<seq<Attempt>>, more: seq<Attempt>, i: nat)
    requires i < |its| && Fits(r, its, i)
    ensures Fits(r, its + [more], i)
  {
    SameOpening(r, its, more, i);
    assert (its + [more])[i] == its[i];
  }

  lemma FitsLast(r: Run, its: seq<seq<Attempt>>, attempts: seq<Attempt>)
    requires Starts(r, its, |its|) && IsIteration(r, |its|, Opening(r, its, |its|), attempts)
    ensures Fits(r, its + [attempts], |its|)
  {
    SameOpening(r, its, attempts, |its|);
    assert (its + [attempts])[|its|] == attempts;
  }

  lemma AllFit(r: Run, its: seq<seq<Attempt>>, attempts: seq<Attempt>, i: nat)
    requires IsChain(r, its) && Starts(r, its, |its|) && i <= |its|
    requires IsIteration(r, |its|, Opening(r, its, |its|), attempts)
    ensures Fits(r, its + [attempts], i)
  {
    if i < |its| {
      assert Fits(r, its, i);
      FitsLonger(r, its, attempts, i);
    } else {
      FitsLast(r, its, attempts);
    }
  }

  lemma ChainAppend(r: Run, its: seq<seq<Attempt>>, attempts: seq<Attempt>)
    requires IsChain(r, its) && Open(r, its) && Starts(r, its, |its|)
    requires IsIteration(r, |its|, Opening(r, its, |its|), attempts)
    ensures IsChain(r, its + [attempts])
  {
    var all := its + [attempts];
    forall i | 0 <= i < |all|
      ensures Fits(r, all, i)
    {
      AllFit(r, its, attempts, i);
    }
    forall i | 0 <= i < |all| - 1
      ensures CallsAt(r, all, i)
    {
      CallsLonger(r, its, attempts, i);
    }
  }

  lemma CallsLonger(r: Run, its: seq<seq<Attempt>>, attempts: seq<Attempt>, i: nat)
    requires IsChain(r, its) && Open(r, its) && i < |its|
    ensures CallsAt(r, its + [attempts], i)
  {
    assert i < |its| - 1 ==> CallsAt(r, its, i);
    assert (its + [attempts])[i] == its[i];
  }

  lemma RunAppend(r: Run, its: seq<seq<Attempt>>, attempts: seq<Attempt>)
    requires IsRun(r, its) && Open(r, its) && Starts(r, its, |its|)
    requires IsIteration(r, |its|, Opening(r, its, |its|), attempts) && AllBuilt(r.settings, attempts)
    ensures IsRun(r, its + [attempts])
  {
    ChainAppend(r, its, attempts);
  }

  // A run ends with an iteration whose attempts fail.
  lemma FailureEnds(r: Run, its: seq<seq<Attempt>>, attempts: seq<Attempt>)
    requires Outcome(r, |its|, attempts).Failed?
    ensures Ends(r, its + [attempts],
                 if CancelledWaiting(r, |its|, attempts) then Cancelled
                 else LLMFailed(Outcome(r, |its|, attempts).error),
                 AfterIteration(r, |its|, attempts))
  {
    assert (its + [attempts])[|its|] == attempts;
  }

  // A reply that makes no calls is the answer.
  lemma ReplyEnds(r: Run, its: seq<seq<Attempt>>)
    requires its != [] && Outcome(r, |its| - 1, its[|its| - 1]).Replied? && !Calls(r, |its| - 1, its[|its| - 1])
    ensures Ends(r, its, Answer(Received(Outcome(r, |its| - 1, its[|its| - 1]), r.streaming).content),
                 AfterAnswer(r, |its| - 1, AfterIteration(r, |its| - 1, its[|its| - 1])))
  {
  }

  // What holds before each iteration.
  ghost predicate AtHead(r: Run, its: seq<seq<Attempt>>, msgs: seq<Message>) {
    && IsRun(r, its) && Open(r, its)
    && msgs == Opening(r, its, |its|) && WithinLimit(r.settings.guard, msgs)
  }

  // After a reply that makes calls the guard decides.
  lemma GuardDecides(r: Run, its: seq<seq<Attempt>>, verdict: GuardResult, after: seq<Message>)
    requires its != [] && Calls(r, |its| - 1, its[|its| - 1]) && IsRun(r, its)
    requires verdict == Verdict(r.settings.guard, Before(r, its, |its|), CheckpointReply(r, |its|))
    requires after == AfterGuard(r.settings.guard, Before(r, its, |its|), CheckpointReply(r, |its|))
    ensures if verdict == Within then AtHead(r, its, after) else Ends(r, its, GuardFailed(verdict), after)
  {
  }

  // ---- the attempts so far ----

  // `a` may be the next attempt of the iteration.
  ghost predicate IsNext(r: Run, i: nat, opening: seq<Message>, attempts: seq<Attempt>, a: Attempt) {
    && Linked(r, i, opening, attempts + [a])
    && AllBuilt(r.settings, attempts + [a])
    && |attempts| < MaxAttempts(r.settings)
  }

  // The first attempt.
  lemma FirstIsNext(r: Run, i: nat, a: Attempt)
    requires IsBuilt(r.settings, a)
    ensures IsNext(r, i, a.session, [], a)
  {
    assert [] + [a] == [a];
  }

  // An attempt that is not followed, or is the last one allowed, completes the iteration.
  lemma Completes(r: Run, i: nat, opening: seq<Message>, attempts: seq<Attempt>, a: Attempt)
    requires IsNext(r, i, opening, attempts, a)
    ensures var all := attempts + [a];
            && LastSession(all) == a.session && Outcome(r, i, all) == r.env.llm(i, |attempts|)
            && (!GoesOn(r.settings, r.env.llm(i, |attempts|)) || |all| == MaxAttempts(r.settings) ==>
                IsIteration(r, i, opening, all))
  {
  }

  // An attempt after one that failed retryably.
  lemma FollowsNext(r: Run, i: nat, opening: seq<Message>, attempts: seq<Attempt>, a: Attempt)
    requires attempts != [] && |attempts| < MaxAttempts(r.settings)
    requires Linked(r, i, opening, attempts) && AllBuilt(r.settings, attempts) && IsBuilt(r.settings, a)
    requires Followed(r, i, attempts + [a], |attempts| - 1)
    ensures IsNext(r, i, opening, attempts, a)
  {
    LinkedAppend(r, i, opening, attempts, a);
    BuiltAppend(r.settings, attempts, a);
  }

  // ---- what the summarising model is asked ----

  function GuardPrompt(g: Option<Guard>, ms: seq<Message>): Prompt {
    if !WithinLimit(g, ms) && g.value.keepRecent.Some? then PromptFor(ms, g.value.keepRecent.value) else NotAsked
  }

  function OverflowPrompt(r: Run, i: nat, k: nat, ms: seq<Message>): Prompt {
    if Overflows(r.settings, r.env.llm(i, k)) then PromptFor(ms, r.settings.compressor.value.keepRecent) else NotAsked
  }

  function AnswerPrompt(s: Settings, ms: seq<Message>): Prompt {
    if s.compressor.Some? && |ms| > s.compressor.value.threshold then PromptFor(ms, s.compressor.value.keepRecent)
    else NotAsked
  }

  // After each attempt of an iteration, and after its reply: at the checkpoint if it makes calls, when
  // tidying up if it is the answer.
  datatype Prompts = Prompts(afterAttempts: seq<Prompt>, afterReply: Prompt)

  function AttemptPrompts(r: Run, i: nat, attempts: seq<Attempt>): seq<Prompt> {
    seq(|attempts|, k requires 0 <= k < |attempts| => OverflowPrompt(r, i, k, attempts[k].session))
  }

  function ReplyPrompt(r: Run, i: nat, attempts: seq<Attempt>): Prompt {
    if Outcome(r, i, attempts).Failed? then NotAsked
    else if Calls(r, i, attempts) then GuardPrompt(r.settings.guard, AfterIteration(r, i, attempts))
    else AnswerPrompt(r.settings, AfterIteration(r, i, attempts))
  }

  function IterationPrompts(r: Run, i: nat, attempts: seq<Attempt>): Prompts {
    Prompts(AttemptPrompts(r, i, attempts), ReplyPrompt(r, i, attempts))
  }

  // All that is asked in the iterations of a run.
  function RunPrompts(r: Run, its: seq<seq<Attempt>>): seq<Prompts> {
    seq(|its|, i requires 0 <= i < |its| => IterationPrompts(r, i, its[i]))
  }

  lemma PromptsAppend(r: Run, its: seq<seq<Attempt>>, attempts: seq<Attempt>)
    ensures RunPrompts(r, its + [attempts]) == RunPrompts(r, its) + [IterationPrompts(r, |its|, attempts)]
  {
  }

  lemma AttemptPromptsAppend(r: Run, i: nat, attempts: seq<Attempt>, a: Attempt)
    ensures AttemptPrompts(r, i, attempts + [a]) ==
            AttemptPrompts(r, i, attempts) + [OverflowPrompt(r, i, |attempts|, a.session)]
  {
  }

  // ---- calling the model ----

  // The iteration is at the point of making attempt `a`.
  ghost predicate Ready(r: Run, i: nat, opening: seq<Message>, attempts: seq<Attempt>, prompts: seq<Prompt>, a: Attempt) {
    IsNext(r, i, opening, attempts, a) && IsBuilt(r.settings, a) && prompts == AttemptPrompts(r, i, attempts)
  }

  // What the attempts of an iteration come to: a message, a cancellation or a failure, and the session.
  ghost predicate ComesTo(r: Run, i: nat, opening: seq<Message>, attempts: seq<Attempt>, prompts: seq<Prompt>,
                          msg: Message, cancelled: bool, msgs: seq<Message>) {
    && IsIteration(r, i, opening, attempts) && AllBuilt(r.settings, attempts)
    && prompts == AttemptPrompts(r, i, attempts)
    && (cancelled <==> CancelledWaiting(r, i, attempts))
    && if Outcome(r, i, attempts).Replied?
       then msg == Received(Outcome(r, i, attempts), r.streaming) && msgs == LastSession(attempts)
       else msgs == AfterIteration(r, i, attempts)
  }

  // A reply, or a failure that is not retried, is the end of it.
  lemma NotRetried(r: Run, i: nat, opening: seq<Message>, attempts: seq<Attempt>, prompts: seq<Prompt>, a: Attempt,
                   msg: Message)
    requires Ready(r, i, opening, attempts, prompts, a) && !RetriesAfter(r.settings, r.env.llm(i, |attempts|))
    requires r.env.llm(i, |attempts|).Replied? ==> msg == Received(r.env.llm(i, |attempts|), r.streaming)
    ensures ComesTo(r, i, opening, attempts + [a], prompts + [NotAsked], msg, false, a.session)
  {
    Completes(r, i, opening, attempts, a);
    AttemptPromptsAppend(r, i, attempts, a);
  }

  // A retryable failure is followed by the next attempt, unless waiting is cancelled or the attempts
  // are used up.
  lemma Retried(r: Run, i: nat, opening: seq<Message>, attempts: seq<Attempt>, prompts: seq<Prompt>, a: Attempt,
                next: Attempt, msg: Message)
    requires Ready(r, i, opening, attempts, prompts, a) && RetriesAfter(r.settings, r.env.llm(i, |attempts|))
    requires IsBuilt(r.settings, next) && next.session == AfterFailure(r, i, |attempts|, a.session)
    requires !Overflows(r.settings, r.env.llm(i, |attempts|)) ==> next.request == a.request
    ensures var all, asked := attempts + [a], prompts + [OverflowPrompt(r, i, |attempts|, a.session)];
            if CancelledWaiting(r, i, all) || |all| == MaxAttempts(r.settings)
            then ComesTo(r, i, opening, all, asked, msg, CancelledWaiting(r, i, all), next.session)
            else Ready(r, i, opening, all, asked, next)
  {
    var all := attempts + [a];
    Completes(r, i, opening, attempts, a);
    AttemptPromptsAppend(r, i, attempts, a);
    if !CancelledWaiting(r, i, all) && |all| < MaxAttempts(r.settings) {
      FollowsNext(r, i, opening, all, next);
    }
  }
}
