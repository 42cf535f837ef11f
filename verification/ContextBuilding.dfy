// internal/usecase/context_builder.go: the request sent to the model.
module ContextBuilding {
  import opened Sequences
  import opened Messages
  import opened TranscriptRepair
  import opened RepairTheorems
  import opened HistoryTruncation
  import opened TruncationTheorems
  import opened InjectionOrder

  datatype ChatRequest = ChatRequest(model: string, messages: seq<Message>, tools: seq<string>, thinkingBudget: int)

  function Concat(lines: seq<string>): string {
    if lines == [] then "" else Concat(lines[..|lines| - 1]) + lines[|lines| - 1]
  }

  // Memory entries and skills come rendered, one line each.
  function SystemMessage(prompt: string, memory: seq<string>, skills: seq<string>): Message {
    var withMemory := if memory != [] then prompt + "\n\n## Relevant Memory Context\n" + Concat(memory) else prompt;
    var content := if skills != [] then withMemory + "\n\n## Available Skills\n" + Concat(skills) else withMemory;
    Message(System, content, "", [], "")
  }

  lemma {:induction false} ConcatShows(lines: seq<string>, i: nat) returns (a: string, b: string)
    requires i < |lines|
    ensures Concat(lines) == a + lines[i] + b
  {
    var n := |lines| - 1;
    if i == n {
      a, b := Concat(lines[..n]), "";
      assert a + lines[n] + b == a + lines[n];
    } else {
      a, b := ConcatShows(lines[..n], i);
      b := b + lines[n];
      Assoc3(a + lines[i], b[..|b| - |lines[n]|], lines[n]);
      assert b[..|b| - |lines[n]|] + lines[n] == b;
    }
  }

  // The system message is the prompt alone if there is nothing to add to it.
  lemma SystemMessageIsPrompt(prompt: string, memory: seq<string>, skills: seq<string>)
    ensures var m := SystemMessage(prompt, memory, skills);
            && m.role == System && m.toolCalls == [] && m.name == "" && prompt <= m.content
            && (memory == [] && skills == [] ==> m.content == prompt)
  {
  }

  // After the prompt it shows every memory line below its heading.
  lemma SystemMessageShowsMemory(prompt: string, memory: seq<string>, skills: seq<string>, i: nat)
    returns (a: string, b: string)
    requires i < |memory|
    ensures SystemMessage(prompt, memory, skills).content ==
            prompt + "\n\n## Relevant Memory Context\n" + a + memory[i] + b
  {
    a, b := ConcatShows(memory, i);
    var head := prompt + "\n\n## Relevant Memory Context\n";
    Assoc(head, a, memory[i], b);
    if skills != [] {
      var more := "\n\n## Available Skills\n" + Concat(skills);
      Assoc3(head + a + memory[i], b, more);
      Assoc3(head + Concat(memory), "\n\n## Available Skills\n", Concat(skills));
      b := b + more;
    }
  }

  // Last it shows every skill below its heading.
  lemma SystemMessageShowsSkill(prompt: string, memory: seq<string>, skills: seq<string>, i: nat)
    returns (before: string, a: string, b: string)
    requires i < |skills|
    ensures prompt <= before
    ensures SystemMessage(prompt, memory, skills).content == before + "\n\n## Available Skills\n" + a + skills[i] + b
  {
    a, b := ConcatShows(skills, i);
    before := SystemMessage(prompt, memory, []).content;
    Assoc(before + "\n\n## Available Skills\n", a, skills[i], b);
  }

  // The first message that is no tool result does not pass a call off as a compression summary.
  predicate PlainStart(ms: seq<Message>) {
    TurnsOf(ms) != [] ==> PlainSummary(TurnsOf(ms)[0].head)
  }

  ghost predicate IsTailFor(history: seq<Message>, max: int, tail: seq<Message>) {
    exists repaired :: Repaired(history, repaired) && Truncated(repaired, max, tail)
  }

  class ContextBuilder {
    var systemPrompt: string
    var maxMessages: int
    var model: string
    var skills: seq<string>
    var thinkingBudget: int

    constructor (systemPrompt: string, model: string, maxMessages: int)
      ensures this.systemPrompt == systemPrompt && this.model == model && this.maxMessages == maxMessages
      ensures skills == [] && thinkingBudget == 0
    {
      this.systemPrompt, this.model, this.maxMessages := systemPrompt, model, maxMessages;
      skills, thinkingBudget := [], 0;
    }

    // The request is the system message followed by a transcript in which every call is answered
    // exactly once and directly: whatever the history holds, unless truncation re-adds as the summary
    // a message that makes calls. A plain start rules that out, and the order of injection has no part
    // in it.
    method Build(history: seq<Message>, memoryContext: seq<string>, tools: seq<string>) returns (req: ChatRequest)
      ensures req.messages != [] && req.messages[0] == SystemMessage(systemPrompt, memoryContext, skills)
      ensures IsTailFor(history, maxMessages, req.messages[1..])
      ensures PlainStart(history) ==> WellFormed(req.messages[1..])
      ensures forall repaired :: Repaired(history, repaired) ==>
              (WellFormed(req.messages[1..]) <==> !ReAddsCaller(repaired, maxMessages))
      ensures req.model == model && req.tools == tools && req.thinkingBudget == thinkingBudget
    {
      var messages := [SystemMessage(systemPrompt, memoryContext, skills)];
      var hist := RepairTranscript(history);
      ghost var repaired := hist;
      hist := TruncateHistory(hist, maxMessages);
      messages := messages + hist;
      assert messages[1..] == hist;
      BuildIsWellFormed(history, repaired, maxMessages, hist);
      BuildIsWellFormedIff(history, maxMessages, hist);
      req := ChatRequest(model, messages, tools, thinkingBudget);
    }
  }

  lemma BuildIsWellFormed(history: seq<Message>, repaired: seq<Message>, max: int, tail: seq<Message>)
    requires Repaired(history, repaired) && Truncated(repaired, max, tail)
    ensures WellFormed(tail) <==> !ReAddsCaller(repaired, max)
    ensures PlainStart(history) ==> WellFormed(tail)
  {
    RepairIsWellFormed(history, repaired);
    TruncationWellFormedIff(repaired, max, tail);
    if PlainStart(history) {
      if repaired != [] {
        FirstHead(repaired);
        assert RepairsTurn(TurnsOf(history)[0], TurnsOf(repaired)[0]);
      }
      TruncationPreservesWellFormed(repaired, max, tail);
    }
  }

  lemma TailIsWellFormed(history: seq<Message>, max: int, tail: seq<Message>)
    requires IsTailFor(history, max, tail) && PlainStart(history)
    ensures WellFormed(tail)
  {
    var repaired :| Repaired(history, repaired) && Truncated(repaired, max, tail);
    BuildIsWellFormed(history, repaired, max, tail);
  }

  // The exact condition, in terms of whichever repair.
  lemma BuildIsWellFormedIff(history: seq<Message>, max: int, tail: seq<Message>)
    requires IsTailFor(history, max, tail)
    ensures forall repaired :: Repaired(history, repaired) ==> (WellFormed(tail) <==> !ReAddsCaller(repaired, max))
  {
    var x :| Repaired(history, x) && Truncated(x, max, tail);
    forall y | Repaired(history, y)
      ensures WellFormed(tail) <==> !ReAddsCaller(y, max)
    {
      var b := SomeTruncation(y, max);
      BuildIsWellFormed(history, y, max, b);
      TailsDifferInOrder(history, max, x, tail, y, b);
    }
  }

  // Requests built for one history differ at most in the order of the results within each turn.
  lemma TailsAgree(history: seq<Message>, max: int, a: seq<Message>, b: seq<Message>)
    requires IsTailFor(history, max, a) && IsTailFor(history, max, b)
    ensures SameUpToOrder(a, b)
  {
    var x :| Repaired(history, x) && Truncated(x, max, a);
    var y :| Repaired(history, y) && Truncated(y, max, b);
    TailsDifferInOrder(history, max, x, a, y, b);
  }
}
