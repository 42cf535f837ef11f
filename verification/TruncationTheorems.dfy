// What truncation keeps: length, well-formedness, and a leading compression summary.
module TruncationTheorems {
  import opened Sequences
  import opened Messages
  import opened HistoryTruncation

  lemma CutIsUnique(gs: seq<seq<Message>>, max: int, k: nat, l: nat)
    requires IsCut(gs, max, k) && IsCut(gs, max, l)
    ensures k == l
  {
  }

  // Truncation is a function of the history: the cut is unique.
  lemma TruncationIsDetermined(history: seq<Message>, max: int, a: seq<Message>, b: seq<Message>)
    requires Truncated(history, max, a) && Truncated(history, max, b)
    ensures a == b
  {
    if max > 0 && |history| > max {
      var gs := Groups(history);
      var k: nat :| IsCut(gs, max, k) && a == WithSummary(history, Flatten(gs[k..]));
      var l: nat :| IsCut(gs, max, l) && b == WithSummary(history, Flatten(gs[l..]));
      CutIsUnique(gs, max, k, l);
    }
  }

  // There always is a cut.
  lemma {:induction false} SomeCut(gs: seq<seq<Message>>, max: int, n: nat) returns (k: nat)
    requires n < |gs| && forall j :: 0 <= j < n ==> SizeFrom(gs, j) > max
    ensures IsCut(gs, max, k)
    decreases |gs| - n
  {
    if SizeFrom(gs, n) <= max || n == |gs| - 1 {
      k := n;
    } else {
      k := SomeCut(gs, max, n + 1);
    }
  }

  lemma SomeTruncation(history: seq<Message>, max: int) returns (result: seq<Message>)
    ensures Truncated(history, max, result)
  {
    result := history;
    if 0 < max < |history| {
      FlattenGroups(history);
      var k := SomeCut(Groups(history), max, 0);
      result := WithSummary(history, Flatten(Groups(history)[k..]));
    }
  }

  // The budget is exceeded only by a last group that does not fit, and by a re-added summary.
  lemma TruncationFitsBudget(history: seq<Message>, max: int, result: seq<Message>)
    requires Truncated(history, max, result) && max > 0
    ensures |history| <= max ==> result == history
    ensures |history| > max ==>
            var gs := Groups(history);
            gs != [] && |result| <= 1 + if max < |gs[|gs| - 1]| then |gs[|gs| - 1]| else max
  {
    if |history| > max {
      var gs := Groups(history);
      var k: nat :| IsCut(gs, max, k) && result == WithSummary(history, Flatten(gs[k..]));
      if k == |gs| - 1 {
        FlattenFrom(gs, k);
        assert gs[k + 1..] == [];
      }
    }
  }

  // Without a re-added summary the result is the end of the history, and never starts inside a group.
  lemma TruncationIsSuffix(history: seq<Message>, max: int, k: nat)
    requires IsCut(Groups(history), max, k)
    ensures history == Flatten(Groups(history)[..k]) + Flatten(Groups(history)[k..])
    ensures Flatten(Groups(history)[k..]) != []
  {
    var gs := Groups(history);
    FlattenGroups(history);
    FlattenConcat(gs[..k], gs[k..]);
    SplitAt(gs, k);
    FlattenFrom(gs, k);
  }

  // A leading compression summary is still leading after truncation.
  lemma TruncationKeepsSummary(history: seq<Message>, max: int, result: seq<Message>)
    requires Truncated(history, max, result)
    requires history != [] && history[0].name == SUMMARY_NAME
    ensures result != [] && result[0].name == SUMMARY_NAME
  {
    if max > 0 && |history| > max {
      var k: nat :| IsCut(Groups(history), max, k) &&
                    result == WithSummary(history, Flatten(Groups(history)[k..]));
      TruncationIsSuffix(history, max, k);
    }
  }

  // ---- groups of a well-formed transcript are its turns ----

  function Group(t: Turn): seq<Message> {
    [t.head] + t.run
  }

  ghost predicate Anchored(t: Turn) {
    t.run != [] ==> OpensGroup(t.head)
  }

  ghost predicate GroupsAreTurns(gs: seq<seq<Message>>, ts: seq<Turn>) {
    |gs| == |ts| && forall i :: 0 <= i < |ts| ==> gs[i] == Group(ts[i])
  }

  lemma AddKeepsGroups(gs: seq<seq<Message>>, ts: seq<Turn>, m: Message)
    requires GroupsAreTurns(gs, ts)
    requires IsTool(m) ==> ts != [] && OpensGroup(ts[|ts| - 1].head)
    ensures GroupsAreTurns(AddToGroups(gs, m), AddToTurns(ts, m))
  {
    if IsTool(m) {
      var t := ts[|ts| - 1];
      Assoc3([t.head], t.run, [m]);
    } else {
      assert [m] + [] == [m];
    }
  }

  ghost predicate AllAnchored(ts: seq<Turn>) {
    forall i :: 0 <= i < |ts| ==> Anchored(ts[i])
  }

  lemma AnchoredBefore(ts: seq<Turn>, m: Message)
    requires AllAnchored(AddToTurns(ts, m)) && (IsTool(m) ==> ts != [])
    ensures AllAnchored(ts)
    ensures IsTool(m) ==> OpensGroup(ts[|ts| - 1].head)
  {
    var all := AddToTurns(ts, m);
    assert |ts| <= |all|;
    forall i | 0 <= i < |ts|
      ensures Anchored(ts[i])
      ensures IsTool(m) && i == |ts| - 1 ==> OpensGroup(ts[i].head)
    {
      assert Anchored(all[i]);
      assert i < |ts| - 1 ==> all[i] == all[..|ts| - 1][i] == ts[..|ts| - 1][i];
    }
  }

  lemma {:induction false} AnchoredGroups(ms: seq<Message>)
    requires StartsTurn(ms) && AllAnchored(TurnsOf(ms))
    ensures GroupsAreTurns(Groups(ms), TurnsOf(ms))
  {
    if ms != [] {
      var n := |ms| - 1;
      UnturnTurnsOf(ms[..n]);
      AnchoredBefore(TurnsOf(ms[..n]), ms[n]);
      AnchoredGroups(ms[..n]);
      AddKeepsGroups(Groups(ms[..n]), TurnsOf(ms[..n]), ms[n]);
    }
  }

  lemma WellFormedGroups(ms: seq<Message>)
    requires WellFormed(ms)
    ensures GroupsAreTurns(Groups(ms), TurnsOf(ms))
  {
    forall i | 0 <= i < |TurnsOf(ms)|
      ensures Anchored(TurnsOf(ms)[i])
    {
      var t := TurnsOf(ms)[i];
      AnswersSize(CallIds(t.head), t.run);
      if t.run != [] {
        assert CallIds(t.head) != {};
        var id :| id in CallIds(t.head);
      }
    }
    AnchoredGroups(ms);
  }

  lemma {:induction false} FlattenIsUnturn(gs: seq<seq<Message>>, ts: seq<Turn>)
    requires GroupsAreTurns(gs, ts)
    ensures Flatten(gs) == Unturn(ts)
  {
    if gs != [] {
      var n := |gs| - 1;
      FlattenIsUnturn(gs[..n], ts[..n]);
      Assoc3(Flatten(gs[..n]), [ts[n].head], ts[n].run);
    }
  }

  // What is kept of a well-formed history is the turns from the cut on.
  lemma BodyTurns(history: seq<Message>, max: int, k: nat)
    requires WellFormed(history) && IsCut(Groups(history), max, k)
    ensures |Groups(history)| == |TurnsOf(history)|
    ensures Flatten(Groups(history)[k..]) == Unturn(TurnsOf(history)[k..])
    ensures TurnsOf(Flatten(Groups(history)[k..])) == TurnsOf(history)[k..]
    ensures StartsTurn(Flatten(Groups(history)[k..]))
  {
    var ts := TurnsOf(history);
    WellFormedGroups(history);
    FlattenIsUnturn(Groups(history)[k..], ts[k..]);
    TurnsFrom(history, k);
  }

  lemma AnsweredWithNothing(m: Message)
    ensures Answered(Turn(m, [])) <==> CallIds(m) == {}
  {
    if Answers(CallIds(m), []) {
      AnswersSize(CallIds(m), []);
    }
  }

  // Putting an unanswered message in front is harmless exactly when it makes no calls.
  lemma WellFormedPrepend(m: Message, body: seq<Message>)
    requires WellFormed(body) && !IsTool(m)
    ensures WellFormed([m] + body) <==> CallIds(m) == {}
  {
    var all := TurnsOf([m] + body);
    TurnsOfConcat([m], body);
    TurnsOfAppend([], m);
    assert [] + [m] == [m];
    AnsweredWithNothing(m);
    assert all[0] == Turn(m, []);
    assert forall i :: 1 <= i < |all| ==> all[i] == TurnsOf(body)[i - 1];
  }

  lemma CutWellFormedIff(history: seq<Message>, max: int, k: nat)
    requires WellFormed(history) && IsCut(Groups(history), max, k)
    ensures var body := Flatten(Groups(history)[k..]);
            WellFormed(WithSummary(history, body)) <==>
            !(ReAddsSummary(history, body) && CallIds(history[0]) != {})
  {
    var body := Flatten(Groups(history)[k..]);
    BodyTurns(history, max, k);
    assert WellFormed(body);
    if ReAddsSummary(history, body) {
      WellFormedPrepend(history[0], body);
    }
  }

  // The history does not fit, and truncation re-adds as its summary a message that makes calls.
  ghost predicate ReAddsCaller(history: seq<Message>, max: int) {
    && 0 < max < |history| && CallIds(history[0]) != {}
    && exists k: nat :: IsCut(Groups(history), max, k) && ReAddsSummary(history, Flatten(Groups(history)[k..]))
  }

  // Truncation keeps a well-formed history well formed except when it re-adds, as the summary, a
  // message that makes calls: the guard of that branch is the exact condition.
  lemma TruncationWellFormedIff(history: seq<Message>, max: int, result: seq<Message>)
    requires WellFormed(history) && Truncated(history, max, result)
    ensures WellFormed(result) <==> !ReAddsCaller(history, max)
  {
    if 0 < max < |history| {
      var k: nat :| IsCut(Groups(history), max, k) &&
                    result == WithSummary(history, Flatten(Groups(history)[k..]));
      CutWellFormedIff(history, max, k);
      if ReAddsCaller(history, max) {
        var l: nat :| IsCut(Groups(history), max, l) && ReAddsSummary(history, Flatten(Groups(history)[l..]));
        CutIsUnique(Groups(history), max, k, l);
      }
    }
  }

  // A message that carries the summary's name makes no calls, as the compressor builds it.
  predicate PlainSummary(m: Message) {
    m.name == SUMMARY_NAME ==> CallIds(m) == {}
  }

  lemma TruncationPreservesWellFormed(history: seq<Message>, max: int, result: seq<Message>)
    requires WellFormed(history) && Truncated(history, max, result)
    requires history != [] ==> PlainSummary(history[0])
    ensures WellFormed(result)
  {
    TruncationWellFormedIff(history, max, result);
  }

  // ---- the condition can fail ----

  function Caller(call: ToolCall): Message {
    Message(Assistant, "", SUMMARY_NAME, [call], "")
  }

  function Result(call: ToolCall): Message {
    Message(Tool, "", call.name, [call], "")
  }

  lemma CallerIsAnswered(call: ToolCall)
    requires call.id != ""
    ensures CallIds(Caller(call)) == {call.id}
    ensures Answered(Turn(Caller(call), [Result(call)]))
  {
    assert call in Caller(call).toolCalls;
    assert CallIds(Caller(call)) == {call.id};
    AnswersAppend({}, [], Result(call));
    assert {} + {call.id} == {call.id};
    assert [] + [Result(call)] == [Result(call)];
  }

  lemma CallerTurns(call: ToolCall, u: Message)
    requires !IsTool(u)
    ensures TurnsOf([Caller(call), Result(call), u]) == [Turn(Caller(call), [Result(call)]), Turn(u, [])]
  {
    var a, r := Caller(call), Result(call);
    var ts := [Turn(a, [r])];
    TurnsOfOneMore([], Turn(a, [r]));
    assert [] + [a] + [r] == [a, r];
    TurnsOfAppend([a, r], u);
    assert [a, r] + [u] == [a, r, u];
  }

  // A well-formed history whose truncation to one message is not well formed.
  lemma TruncationCanBreakTranscript(call: ToolCall, u: Message)
    requires call.id != "" && u.role == User && u.name != SUMMARY_NAME
    ensures WellFormed([Caller(call), Result(call), u])
    ensures Truncated([Caller(call), Result(call), u], 1, [Caller(call), u])
    ensures !WellFormed([Caller(call), u])
  {
    var history := [Caller(call), Result(call), u];
    CallerTurns(call, u);
    CallerIsAnswered(call);
    AnsweredWithNothing(u);
    WellFormedGroups(history);
    var gs := Groups(history);
    FlattenGroups(history);
    assert gs[0..] == gs;
    FlattenFrom(gs, 1);
    assert gs[2..] == [] && gs[1] + [] == [u];
    assert IsCut(gs, 1, 1);
    assert WithSummary(history, Flatten(gs[1..])) == [Caller(call), u];
    CutWellFormedIff(history, 1, 1);
  }
}
