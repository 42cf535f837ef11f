// internal/usecase/agent.go and internal/usecase/context_guard.go: the receive-think-act loop.
// AgentTrace says what a run is, AgentTheorems what follows for every run.
module AgentLoop {
  import opened Options
  import opened Sequences
  import opened Messages
  import opened ContextBuilding
  import opened Compression
  import opened Streaming
  import opened AgentTrace
  import opened AgentTheorems

  // ---- tools ----

  function Indices(n: nat): (r: set<nat>)
    ensures forall j: nat :: j in r <==> j < n
  {
    if n == 0 then {} else Indices(n - 1) + {n - 1}
  }

  // The goroutines finish in any order; each writes the slot of its own call.
  method ExecuteTools(calls: seq<ToolCall>, env: Environment, iteration: nat) returns (results: seq<Message>)
    ensures results == ToolResults(env, iteration, calls)
  {
    var toolMsgs := new Message[|calls|](_ => Message(User, "", "", [], ""));
    var running := Indices(|calls|);
    while running != {}
      invariant running <= Indices(|calls|)
      invariant forall j :: 0 <= j < |calls| && j !in running ==> toolMsgs[j] == ToolMessage(calls[j], env.tool(iteration, j))
      decreases |running|
    {
      var idx :| idx in running;
      toolMsgs[idx] := ToolMessage(calls[idx], env.tool(iteration, idx));
      running := running - {idx};
    }
    results := toolMsgs[..];
  }

  // ---- context guard ----

  class ContextGuard {
    const limit: int
    const count: seq<Message> -> int
    const compressor: Compressor?

    constructor (limit: int, count: seq<Message> -> int, compressor: Compressor?)
      ensures this.limit == limit && this.count == count && this.compressor == compressor
    {
      this.limit, this.count, this.compressor := limit, count, compressor;
    }

    function Value(): Guard {
      Guard(limit, count, if compressor == null then None else Some(compressor.keepRecent))
    }

    // Succeeds exactly when the session ends up within the limit; fails only if there is no
    // compressor, its attempt failed, or it still left the session over the limit.
    method Check(session: Session, reply: SummaryReply) returns (result: GuardResult, prompt: Prompt)
      modifies session`msgs
      ensures result == Verdict(Some(Value()), old(session.msgs), reply)
      ensures session.msgs == AfterGuard(Some(Value()), old(session.msgs), reply)
      ensures prompt == GuardPrompt(Some(Value()), old(session.msgs))
      ensures result == Within <==> count(session.msgs) <= limit
      ensures result == CompressionFailed ==> compressor != null && prompt.Asked? && reply.SummaryFailed?
      ensures result == Overflow && compressor != null ==>
              session.msgs == AfterCompression(old(session.msgs), compressor.keepRecent, reply)
    {
      prompt := NotAsked;
      var tokens := count(session.msgs);
      if tokens <= limit {
        return Within, prompt;
      }
      if compressor != null {
        var failed;
        prompt, failed := compressor.ForceCompress(session, reply);
        if failed {
          return CompressionFailed, prompt;
        }
        tokens := count(session.msgs);
        if tokens <= limit {
          return Within, prompt;
        }
      }
      return Overflow, prompt;
    }
  }

  // ---- the agent ----

  class Agent {
    const builder: ContextBuilder
    const maxIterations: nat
    const compressor: Compressor?
    const guard: ContextGuard?
    const hasClassifier: bool

    constructor (builder: ContextBuilder, maxIterations: int, identityMaxIter: int, compressor: Compressor?,
                 guard: ContextGuard?, hasClassifier: bool)
      ensures this.maxIterations ==
              if identityMaxIter > 0 then identityMaxIter else if maxIterations > 0 then maxIterations else 10
      ensures this.builder == builder && this.compressor == compressor && this.guard == guard
      ensures this.hasClassifier == hasClassifier
    {
      var iterations := maxIterations;
      if identityMaxIter > 0 {
        iterations := identityMaxIter;
      }
      if iterations <= 0 {
        iterations := 10;
      }
      this.maxIterations := iterations;
      this.builder, this.compressor, this.guard, this.hasClassifier := builder, compressor, guard, hasClassifier;
    }

    function SettingsFor(memories: seq<string>, tools: seq<string>): Settings
      reads builder
    {
      Settings(Common(SystemMessage(builder.systemPrompt, memories, builder.skills), builder.model, tools,
                      builder.thinkingBudget),
               builder.maxMessages, maxIterations, hasClassifier,
               if compressor == null then None else Some(Summariser(compressor.threshold, compressor.keepRecent)),
               if guard == null then None else Some(guard.Value()))
    }

    // The settings of a run are those of the agent, its builder, compressor and guard.
    lemma SettingsAre(memories: seq<string>, tools: seq<string>)
      ensures var s := SettingsFor(memories, tools);
              && s.common.system == SystemMessage(builder.systemPrompt, memories, builder.skills)
              && s.common.model == builder.model && s.common.tools == tools
              && s.common.thinkingBudget == builder.thinkingBudget && s.maxMessages == builder.maxMessages
              && s.maxIterations == maxIterations && s.hasClassifier == hasClassifier
              && (s.compressor.Some? <==> compressor != null) && (s.guard.Some? <==> guard != null)
              && (compressor != null ==> s.compressor.value.threshold == compressor.threshold)
              && (compressor != null ==> s.compressor.value.keepRecent == compressor.keepRecent)
              && (guard != null ==> s.guard.value.limit == guard.limit && s.guard.value.count == guard.count)
              && (guard != null ==> (s.guard.value.keepRecent.Some? <==> guard.compressor != null))
              && (guard != null && guard.compressor != null ==>
                    s.guard.value.keepRecent.value == guard.compressor.keepRecent)
    {
    }

    method CallModel(outcome: LLMOutcome, streaming: bool) returns (msg: Message)
      requires outcome.Replied?
      ensures msg == Received(outcome, streaming)
    {
      if !streaming {
        return outcome.reply;
      }
      var acc := new StreamAccumulator();
      for i := 0 to |outcome.deltas|
        invariant acc.Value() == From(EMPTY, outcome.deltas[..i])
      {
        assert outcome.deltas[..i + 1][..i] == outcome.deltas[..i];
        acc.AddDelta(outcome.deltas[i]);
      }
      assert outcome.deltas[..|outcome.deltas|] == outcome.deltas;
      var usage;
      msg, usage := acc.Build();
    }

    method BuildRequest(session: Session, memories: seq<string>, tools: seq<string>) returns (request: ChatRequest)
      ensures IsBuilt(SettingsFor(memories, tools), Attempt(session.msgs, request))
    {
      request := builder.Build(session.msgs, memories, tools);
    }

    method CompressAndRebuild(session: Session, memories: seq<string>, tools: seq<string>, reply: SummaryReply)
      returns (request: ChatRequest, prompt: Prompt)
      requires compressor != null
      modifies session`msgs
      ensures prompt == PromptFor(old(session.msgs), compressor.keepRecent)
      ensures session.msgs == AfterCompression(old(session.msgs), compressor.keepRecent, reply)
      ensures IsBuilt(SettingsFor(memories, tools), Attempt(session.msgs, request))
    {
      var failed;
      prompt, failed := compressor.ForceCompress(session, reply);
      request := BuildRequest(session, memories, tools);
    }

    // The attempts of an iteration: each sends a request built for the session as it then is, also the
    // ones rebuilt after a forced compression.
    method CallLLMWithRetry(session: Session, r: Run, firstRequest: ChatRequest, memories: seq<string>,
                            tools: seq<string>, i: nat)
      returns (msg: Message, cancelled: bool, attempts: seq<Attempt>, prompts: seq<Prompt>)
      requires r.settings == SettingsFor(memories, tools)
      requires IsBuilt(r.settings, Attempt(session.msgs, firstRequest))
      modifies session`msgs
      ensures ComesTo(r, i, old(session.msgs), attempts, prompts, msg, cancelled, session.msgs)
    {
      var request, done := firstRequest, false;
      attempts, prompts, cancelled := [], [], false;
      msg := Message(Assistant, "", "", [], "");
      FirstIsNext(r, i, Attempt(session.msgs, request));
      while !done
        invariant if done then ComesTo(r, i, old(session.msgs), attempts, prompts, msg, cancelled, session.msgs)
                  else Ready(r, i, old(session.msgs), attempts, prompts, Attempt(session.msgs, request))
        decreases !done, MaxAttempts(r.settings) - |attempts|
      {
        done, msg, cancelled, request, attempts, prompts :=
          TryOnce(session, r, memories, tools, i, old(session.msgs), Attempt(session.msgs, request), attempts, prompts);
      }
    }

    // One attempt: it succeeds, fails for good, or leaves the next one to be made.
    method TryOnce(session: Session, r: Run, memories: seq<string>, tools: seq<string>, i: nat,
                   ghost opening: seq<Message>, a: Attempt, attempts: seq<Attempt>, prompts: seq<Prompt>)
      returns (done: bool, msg: Message, cancelled: bool, request: ChatRequest, attempts': seq<Attempt>,
               prompts': seq<Prompt>)
      requires r.settings == SettingsFor(memories, tools) && session.msgs == a.session
      requires Ready(r, i, opening, attempts, prompts, a)
      modifies session`msgs
      ensures |attempts'| == |attempts| + 1
      ensures if done then ComesTo(r, i, opening, attempts', prompts', msg, cancelled, session.msgs)
              else Ready(r, i, opening, attempts', prompts', Attempt(session.msgs, request))
    {
      var result := r.env.llm(i, |attempts|);
      attempts', request := attempts + [a], a.request;
      msg, cancelled := Message(Assistant, "", "", [], ""), false;
      if result.Replied? || !hasClassifier || !result.error.retryable {
        if result.Replied? {
          msg := CallModel(result, r.streaming);
        }
        NotRetried(r, i, opening, attempts, prompts, a, msg);
        return true, msg, false, request, attempts', prompts + [NotAsked];
      }
      var prompt;
      request, prompt, cancelled := Recover(session, r, memories, tools, i, |attempts|, a);
      Retried(r, i, opening, attempts, prompts, a, Attempt(session.msgs, request), msg);
      prompts' := prompts + [prompt];
      done := cancelled || |attempts'| == MaxAttempts(r.settings);
    }

    // After a retryable failure: compresses the session if it was an overflow, waits otherwise.
    method Recover(session: Session, r: Run, memories: seq<string>, tools: seq<string>, i: nat, attempt: nat, a: Attempt)
      returns (request: ChatRequest, prompt: Prompt, cancelled: bool)
      requires r.settings == SettingsFor(memories, tools) && attempt < MaxAttempts(r.settings)
      requires session.msgs == a.session && IsBuilt(r.settings, a) && RetriesAfter(r.settings, r.env.llm(i, attempt))
      modifies session`msgs
      ensures session.msgs == AfterFailure(r, i, attempt, a.session) && IsBuilt(r.settings, Attempt(session.msgs, request))
      ensures prompt == OverflowPrompt(r, i, attempt, a.session)
      ensures !Overflows(r.settings, r.env.llm(i, attempt)) ==> request == a.request
      ensures cancelled <==>
              && !Overflows(r.settings, r.env.llm(i, attempt)) && r.env.llm(i, attempt).cancelledWhileWaiting
              && attempt < MaxAttempts(r.settings) - 1
    {
      var result := r.env.llm(i, attempt);
      request, prompt, cancelled := a.request, NotAsked, false;
      if result.error.overflow && compressor != null {
        request, prompt := CompressAndRebuild(session, memories, tools, r.env.summary(OnOverflow(i, attempt)));
      } else if attempt < MaxAttempts(r.settings) - 1 {
        cancelled := result.cancelledWhileWaiting;
      }
    }

    // Runs the calls of a reply and appends their results in the order of the calls.
    method Act(session: Session, calls: seq<ToolCall>, env: Environment, iteration: nat)
      modifies session`msgs
      ensures session.msgs == old(session.msgs) + ToolResults(env, iteration, calls)
    {
      var results := ExecuteTools(calls, env, iteration);
      for j := 0 to |results|
        invariant session.msgs == old(session.msgs) + results[..j]
      {
        session.AddMessage(results[j]);
        NextOf(old(session.msgs), results, j);
      }
      assert results[..|results|] == results;
    }

    // Appends the reply and the results of its calls.
    method Respond(session: Session, r: Run, i: nat, outcome: LLMOutcome, msg: Message)
      requires outcome.Replied? && msg == Received(outcome, r.streaming)
      modifies session`msgs
      ensures session.msgs == old(session.msgs) + Block(r, i, outcome)
    {
      session.AddMessage(msg);
      if |msg.toolCalls| > 0 {
        Act(session, msg.toolCalls, r.env, i);
      }
      Assoc3(old(session.msgs), [msg], ToolResults(r.env, i, msg.toolCalls));
    }

    // A guard checkpoint, if there is a guard.
    method Checkpoint(session: Session, ghost s: Settings, ghost memories: seq<string>, ghost tools: seq<string>,
                      reply: SummaryReply)
      returns (result: GuardResult, prompt: Prompt)
      requires s == SettingsFor(memories, tools)
      modifies session`msgs
      ensures result == Verdict(s.guard, old(session.msgs), reply)
      ensures session.msgs == AfterGuard(s.guard, old(session.msgs), reply)
      ensures prompt == GuardPrompt(s.guard, old(session.msgs))
      ensures result == Within <==> WithinLimit(s.guard, session.msgs)
    {
      if guard == null {
        return Within, NotAsked;
      }
      result, prompt := guard.Check(session, reply);
    }

    // A session over the threshold is compressed; a failure to do so is only logged.
    method FinalCompression(session: Session, r: Run, ghost memories: seq<string>, ghost tools: seq<string>, i: nat)
      returns (prompt: Prompt)
      requires r.settings == SettingsFor(memories, tools)
      modifies session`msgs
      ensures session.msgs == AfterAnswer(r, i, old(session.msgs))
      ensures prompt == AnswerPrompt(r.settings, old(session.msgs))
    {
      if compressor == null || !compressor.ShouldCompress(session) {
        return NotAsked;
      }
      var failed;
      prompt, failed := compressor.Compress(session, r.env.summary(OnAnswer(i)));
    }

    // One iteration: think, and either answer, fail, or act and go on.
    method Iterate(session: Session, r: Run, memories: seq<string>, tools: seq<string>, its: seq<seq<Attempt>>)
      returns (result: Option<RunResult>, its': seq<seq<Attempt>>, prompts: Prompts)
      requires r.settings == SettingsFor(memories, tools) && AtHead(r, its, session.msgs)
      requires |its| < maxIterations && !(r.streaming && r.env.cancelled(|its|))
      modifies session`msgs
      ensures |its'| == |its| + 1 && its' == its + [its'[|its|]]
      ensures prompts == IterationPrompts(r, |its|, its'[|its|])
      ensures result.None? ==> AtHead(r, its', session.msgs)
      ensures result.Some? ==> IsRun(r, its') && Ends(r, its', result.value, session.msgs)
    {
      var i := |its|;
      var request := BuildRequest(session, memories, tools);
      var msg, cancelled, attempts, asked := CallLLMWithRetry(session, r, request, memories, tools, i);
      RunAppend(r, its, attempts);
      its' := its + [attempts];
      var outcome := r.env.llm(i, |attempts| - 1);
      if outcome.Failed? {
        FailureEnds(r, its, attempts);
        result := Some(if cancelled then Cancelled else LLMFailed(outcome.error));
        return result, its', Prompts(asked, NotAsked);
      }
      Respond(session, r, i, outcome, msg);
      var prompt;
      result, prompt := Conclude(session, r, memories, tools, its', msg);
      prompts := Prompts(asked, prompt);
    }

    // Answers with a reply that makes no calls; otherwise goes on if the guard agrees.
    method Conclude(session: Session, r: Run, ghost memories: seq<string>, ghost tools: seq<string>,
                    its: seq<seq<Attempt>>, msg: Message)
      returns (result: Option<RunResult>, prompt: Prompt)
      requires r.settings == SettingsFor(memories, tools) && IsRun(r, its) && its != []
      requires Outcome(r, |its| - 1, its[|its| - 1]).Replied?
      requires msg == Received(Outcome(r, |its| - 1, its[|its| - 1]), r.streaming)
      requires session.msgs == AfterIteration(r, |its| - 1, its[|its| - 1])
      modifies session`msgs
      ensures prompt == ReplyPrompt(r, |its| - 1, its[|its| - 1])
      ensures result.None? ==> AtHead(r, its, session.msgs)
      ensures result.Some? ==> Ends(r, its, result.value, session.msgs)
    {
      if |msg.toolCalls| == 0 {
        ReplyEnds(r, its);
        prompt := FinalCompression(session, r, memories, tools, |its| - 1);
        return Some(Answer(msg.content)), prompt;
      }
      var checked;
      checked, prompt := Checkpoint(session, r.settings, memories, tools, r.env.summary(OnTools(|its| - 1)));
      GuardDecides(r, its, checked, session.msgs);
      result := if checked == Within then None else Some(GuardFailed(checked));
    }

    method Loop(session: Session, r: Run, memories: seq<string>, tools: seq<string>)
      returns (result: RunResult, its: seq<seq<Attempt>>, prompts: seq<Prompts>)
      requires r.settings == SettingsFor(memories, tools) && AtHead(r, [], session.msgs)
      modifies session`msgs
      ensures IsRun(r, its) && Ends(r, its, result, session.msgs) && prompts == RunPrompts(r, its)
    {
      its, prompts := [], [];
      for i := 0 to maxIterations
        invariant |its| == i && AtHead(r, its, session.msgs) && prompts == RunPrompts(r, its)
      {
        if r.streaming && r.env.cancelled(i) {
          return Cancelled, its, prompts;
        }
        var ended, more, asked := Iterate(session, r, memories, tools, its);
        PromptsAppend(r, its, more[i]);
        its, prompts := more, prompts + [asked];
        if ended.Some? {
          return ended.value, its, prompts;
        }
      }
      result := MaxIterationsReached;
    }

    // The whole run. For any environment its iterations form a run as AgentTrace defines it, it ends as
    // defined there and leaves the session given there, and the summarising model is asked what is
    // given there: `first` at the first checkpoint, `prompts` in the iterations. From a plain start
    // every request continues with a well-formed transcript, and the session stays plain.
    method HandleInner(session: Session, userMsg: string, memories: seq<string>, tools: seq<string>,
                       streaming: bool, env: Environment)
      returns (result: RunResult, its: seq<seq<Attempt>>, first: Prompt, prompts: seq<Prompts>)
      modifies session`msgs
      ensures result.LockFailed? <==> !env.lockAcquired
      ensures result.LockFailed? ==>
              its == [] && first == NotAsked && prompts == [] && session.msgs == old(session.msgs)
      ensures var r := Run(SettingsFor(memories, tools), env, streaming, old(session.msgs) + [UserMessage(userMsg)]);
              !result.LockFailed? ==>
                && IsRun(r, its) && Ends(r, its, result, session.msgs)
                && first == GuardPrompt(r.settings.guard, r.start) && prompts == RunPrompts(r, its)
      ensures PlainStart(old(session.msgs)) ==> PlainStart(session.msgs)
      ensures PlainStart(old(session.msgs)) ==> RequestsAreWellFormed(its)
    {
      if !env.lockAcquired {
        return LockFailed, [], NotAsked, [];
      }
      var r := Run(SettingsFor(memories, tools), env, streaming, session.msgs + [UserMessage(userMsg)]);
      ghost var plain := PlainStart(session.msgs);
      AppendKeepsPlainStart(session.msgs, UserMessage(userMsg));
      session.AddMessage(UserMessage(userMsg));
      result, its, first, prompts := HandleWithMessage(session, r, memories, tools);
      if plain {
        RunStaysPlain(r, its, result, session.msgs);
      }
    }

    method HandleWithMessage(session: Session, r: Run, memories: seq<string>, tools: seq<string>)
      returns (result: RunResult, its: seq<seq<Attempt>>, first: Prompt, prompts: seq<Prompts>)
      requires r.settings == SettingsFor(memories, tools) && session.msgs == r.start
      modifies session`msgs
      ensures IsRun(r, its) && Ends(r, its, result, session.msgs)
      ensures first == GuardPrompt(r.settings.guard, r.start) && prompts == RunPrompts(r, its)
    {
      var checked;
      checked, first := Checkpoint(session, r.settings, memories, tools, r.env.summary(OnStart));
      if checked != Within {
        return GuardFailed(checked), [], first, [];
      }
      result, its, prompts := Loop(session, r, memories, tools);
    }
  }

  function UserMessage(text: string): (m: Message)
    ensures m.role == User && m.content == text && m.name == "" && m.toolCalls == []
  {
    Message(User, text, "", [], "")
  }
}
