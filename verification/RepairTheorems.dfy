// What RepairTranscript guarantees, for every input and every order of injection.
module RepairTheorems {
  import opened Sequences
  import opened Messages
  import opened TranscriptRepair

  // ---- the result is well formed ----

  lemma MeetAdd(ids: set<string>, found: set<string>, id: string)
    ensures ids * (found + {id}) == if id in ids - found then ids * found + {id} else ids * found
  {
  }

  lemma MeetAndMinus(ids: set<string>, found: set<string>)
    ensures ids * found + (ids - found) == ids && ids * found !! ids - found
  {
  }

  lemma KeptAnswersNext(run: seq<Message>, m: Message, ids: set<string>)
    requires Answers(ids * AnsweredIds(run), Kept(run, ids))
    ensures Answers(ids * AnsweredIds(run + [m]), Kept(run + [m], ids))
  {
    AnsweredIdsAppend(run, m);
    MeetAdd(ids, AnsweredIds(run), FirstId(m));
    Front(run, m);
    if FirstId(m) in ids - AnsweredIds(run) {
      AnswersAppend(ids * AnsweredIds(run), Kept(run, ids), m);
    }
  }

  lemma {:induction false} KeptAnswers(run: seq<Message>, ids: set<string>)
    ensures Answers(ids * AnsweredIds(run), Kept(run, ids))
  {
    if run == [] {
      assert ids * AnsweredIds(run) == {};
    } else {
      var n := |run| - 1;
      KeptAnswers(run[..n], ids);
      KeptAnswersNext(run[..n], run[n], ids);
      Snoc(run);
    }
  }

  // A repaired turn answers every call of its head exactly once.
  lemma RepairedTurnIsAnswered(t: Turn, u: Turn)
    requires RepairsTurn(t, u)
    ensures Answered(u)
  {
    var ids, found := CallIds(t.head), AnsweredIds(t.run);
    var kept := Kept(t.run, ids);
    KeptAnswers(t.run, ids);
    MeetAndMinus(ids, found);
    AnswersConcat(ids * found, kept, ids - found, u.run[|kept|..]);
    PrefixThenRest(kept, u.run);
  }

  // Whatever the history holds, its repair is well formed.
  lemma RepairIsWellFormed(ms: seq<Message>, out: seq<Message>)
    requires Repaired(ms, out)
    ensures WellFormed(out)
  {
    forall i | 0 <= i < |TurnsOf(out)|
      ensures Answered(TurnsOf(out)[i])
    {
      RepairedTurnIsAnswered(TurnsOf(ms)[i], TurnsOf(out)[i]);
    }
  }

  // ---- what is kept, dropped and added ----

  // Message `i` of the input survives when it is no tool result, or is the first result in its turn
  // for a call of the message that opened the turn.
  predicate Survives(ms: seq<Message>, i: nat)
    requires i < |ms|
  {
    var ts := TurnsOf(ms[..i]);
    !IsTool(ms[i]) ||
    (ts != [] && FirstId(ms[i]) in CallIds(ts[|ts| - 1].head) - AnsweredIds(ts[|ts| - 1].run))
  }

  function Survivors(ms: seq<Message>): seq<Message> {
    if ms == [] then []
    else if Survives(ms, |ms| - 1) then Survivors(ms[..|ms| - 1]) + [ms[|ms| - 1]]
    else Survivors(ms[..|ms| - 1])
  }

  // The number of distinct calls left unanswered in their own turn.
  function Missing(ts: seq<Turn>): nat {
    if ts == [] then 0 else Missing(ts[..|ts| - 1]) + |Unanswered(ts[|ts| - 1])|
  }

  function KeptTurn(t: Turn): Turn {
    Turn(t.head, Kept(t.run, CallIds(t.head)))
  }

  function KeptTurns(ts: seq<Turn>): (r: seq<Turn>)
    ensures |r| == |ts|
  {
    if ts == [] then [] else KeptTurns(ts[..|ts| - 1]) + [KeptTurn(ts[|ts| - 1])]
  }

  lemma KeptTurnsExtendLast(ts: seq<Turn>, m: Message)
    requires ts != [] && IsTool(m)
    ensures var kept := Unturn(KeptTurns(ts));
            Unturn(KeptTurns(ExtendLast(ts, [m]))) ==
            if FirstId(m) in Unanswered(ts[|ts| - 1]) then kept + [m] else kept
  {
    var k := |ts| - 1;
    var front, t := KeptTurns(ts[..k]), Turn(ts[k].head, ts[k].run + [m]);
    ReadResult(ts[k], m);
    UnturnAppend(front, KeptTurn(ts[k]));
    UnturnAppend(front, KeptTurn(t));
    if FirstId(m) in Unanswered(ts[k]) {
      Assoc3(Unturn(front) + [t.head], KeptTurn(ts[k]).run, [m]);
    }
  }

  lemma {:induction false} SurvivorsAreKept(ms: seq<Message>)
    ensures Survivors(ms) == Unturn(KeptTurns(TurnsOf(ms)))
  {
    if ms != [] {
      var n := |ms| - 1;
      var ts := TurnsOf(ms[..n]);
      SurvivorsAreKept(ms[..n]);
      if !IsTool(ms[n]) {
        Front(ts, Turn(ms[n], []));
        UnturnAppend(KeptTurns(ts), Turn(ms[n], []));
      } else if ts != [] {
        KeptTurnsExtendLast(ts, ms[n]);
      }
    }
  }

  lemma {:induction false} SurvivorsSubsequence(ms: seq<Message>)
    ensures IsSubsequence(Survivors(ms), ms)
  {
    if ms != [] {
      var n := |ms| - 1;
      SurvivorsSubsequence(ms[..n]);
      Snoc(ms);
      if Survives(ms, n) {
        SubsequenceMatch(Survivors(ms[..n]), ms[..n], ms[n]);
      } else {
        SubsequenceSkip(Survivors(ms[..n]), ms[..n], ms[n]);
      }
    }
  }

  // A repaired turn is its kept part with the errors appended.
  lemma RepairedTurnExtends(t: Turn, u: Turn)
    requires RepairsTurn(t, u)
    ensures IsSubsequence(KeptTurn(t).run, u.run)
    ensures |u.run| == |KeptTurn(t).run| + |Unanswered(t)|
  {
    var kept := KeptTurn(t).run;
    var added := u.run[|kept|..];
    AnswersSize(Unanswered(t).Keys, added);
    assert |Unanswered(t)| == |Unanswered(t).Keys|;
    PrefixIsSubsequence(kept, u.run);
  }

  lemma {:induction false} RepairedTurnsExtend(ts: seq<Turn>, us: seq<Turn>)
    requires |us| == |ts| && forall i :: 0 <= i < |ts| ==> RepairsTurn(ts[i], us[i])
    ensures IsSubsequence(Unturn(KeptTurns(ts)), Unturn(us))
    ensures |Unturn(us)| == |Unturn(KeptTurns(ts))| + Missing(ts)
  {
    if ts != [] {
      var k := |ts| - 1;
      RepairedTurnsExtend(ts[..k], us[..k]);
      RepairedTurnExtends(ts[k], us[k]);
      var a, b := Unturn(KeptTurns(ts[..k])), Unturn(us[..k]);
      SubsequenceMatch(a, b, ts[k].head);
      SubsequenceConcat(a + [ts[k].head], b + [us[k].head], KeptTurn(ts[k]).run, us[k].run);
      UnturnAppend(KeptTurns(ts[..k]), KeptTurn(ts[k]));
    }
  }

  // Repair keeps every non-tool message in place, keeps exactly the surviving tool results in their
  // order, and adds as many messages as there are distinct calls left unanswered in their turn.
  // Which error answers which call is part of `RepairsTurn`.
  lemma RepairConserves(ms: seq<Message>, out: seq<Message>)
    requires Repaired(ms, out)
    ensures NonTools(out) == NonTools(ms)
    ensures IsSubsequence(Survivors(ms), ms) && IsSubsequence(Survivors(ms), out)
    ensures |out| == |Survivors(ms)| + Missing(TurnsOf(ms))
  {
    HeadsAreNonTools(ms);
    HeadsAreNonTools(out);
    SameHeads(TurnsOf(ms), TurnsOf(out));
    SurvivorsSubsequence(ms);
    SurvivorsAreKept(ms);
    UnturnTurnsOf(out);
    RepairedTurnsExtend(TurnsOf(ms), TurnsOf(out));
  }

  // ---- what is injected ----

  // The last call of `m` with this ID.
  ghost predicate IsLastCall(m: Message, id: string, k: nat) {
    k < |m.toolCalls| && m.toolCalls[k].id == id && forall j :: k < j < |m.toolCalls| ==> m.toolCalls[j].id != id
  }

  // In each turn of a repaired transcript the results after the kept ones are tool messages that
  // report an error for a call of the turn's head: they carry the name of the last call with that ID,
  // the ID and that name, and nothing else.
  lemma InjectedErrors(ms: seq<Message>, out: seq<Message>, i: nat, j: nat) returns (k: nat)
    requires Repaired(ms, out) && i < |TurnsOf(ms)|
    requires |Kept(TurnsOf(ms)[i].run, CallIds(TurnsOf(ms)[i].head))| <= j < |TurnsOf(out)[i].run|
    ensures var head, e := TurnsOf(ms)[i].head, TurnsOf(out)[i].run[j];
            && head.role == Assistant && IsLastCall(head, FirstId(e), k) && FirstId(e) != ""
            && e.role == Tool && e.content == "[error] tool call did not produce a result"
            && e.name == head.toolCalls[k].name && e.thinking == ""
            && |e.toolCalls| == 1 && e.toolCalls[0].id == head.toolCalls[k].id
            && e.toolCalls[0].name == head.toolCalls[k].name && e.toolCalls[0].arguments == ""
  {
    var t, u := TurnsOf(ms)[i], TurnsOf(out)[i];
    k := InjectedInTurn(t, u, j);
  }

  lemma InjectedInTurn(t: Turn, u: Turn, j: nat) returns (k: nat)
    requires RepairsTurn(t, u) && |Kept(t.run, CallIds(t.head))| <= j < |u.run|
    ensures var e := u.run[j];
            && t.head.role == Assistant && IsLastCall(t.head, FirstId(e), k) && FirstId(e) != ""
            && e == Message(Tool, "[error] tool call did not produce a result", t.head.toolCalls[k].name,
                            [ToolCall(FirstId(e), t.head.toolCalls[k].name, "")], "")
  {
    var kept := Kept(t.run, CallIds(t.head));
    k := InjectedError(t, u.run[|kept|..], j - |kept|);
  }

  lemma InjectedError(t: Turn, injected: seq<Message>, j: nat) returns (k: nat)
    requires IsInjection(Unanswered(t), injected) && j < |injected|
    ensures var e := injected[j];
            && t.head.role == Assistant && IsLastCall(t.head, FirstId(e), k) && FirstId(e) != ""
            && e == Message(Tool, "[error] tool call did not produce a result", t.head.toolCalls[k].name,
                            [ToolCall(FirstId(e), t.head.toolCalls[k].name, "")], "")
  {
    assert IsErrorFor(Unanswered(t), injected[j]);
    k := TrackKeepsLast(t.head.toolCalls, FirstId(injected[j]));
  }

  // ---- identity and idempotence ----

  lemma {:induction false} KeptWhenDistinct(run: seq<Message>, ids: set<string>)
    requires AnsweredIds(run) <= ids
    requires DistinctIds(run)
    ensures Kept(run, ids) == run
  {
    if run != [] {
      var n := |run| - 1;
      Snoc(run);
      AnsweredIdsAppend(run[..n], run[n]);
      KeptWhenDistinct(run[..n], ids);
      FirstIdsLength(run[..n]);
      forall i | 0 <= i < n
        ensures FirstIds(run[..n])[i] != FirstId(run[n])
      {
        FirstIdsAt(run[..n], i);
      }
      assert FirstId(run[n]) !in FirstIds(run[..n]);
    }
  }

  lemma AnsweredTurnIsFixed(t: Turn)
    requires Answered(t)
    ensures KeptTurn(t) == t && Unanswered(t) == map[]
  {
    AnswersCoversIds(CallIds(t.head), t.run);
    AnswersMeansOnceEach(CallIds(t.head), t.run);
    KeptWhenDistinct(t.run, CallIds(t.head));
  }

  lemma RepairingAnsweredTurn(t: Turn, u: Turn)
    requires Answered(t) && RepairsTurn(t, u)
    ensures u == t
  {
    AnsweredTurnIsFixed(t);
    AnswersSize({}, u.run[|t.run|..]);
    PrefixThenRest(t.run, u.run);
  }

  // Repair changes a transcript exactly when it is not well formed, whichever order it injects in.
  lemma RepairIsIdentityIffWellFormed(ms: seq<Message>, out: seq<Message>)
    requires Repaired(ms, out)
    ensures out == ms <==> WellFormed(ms)
  {
    RepairIsWellFormed(ms, out);
    if WellFormed(ms) {
      forall i | 0 <= i < |TurnsOf(ms)|
        ensures TurnsOf(out)[i] == TurnsOf(ms)[i]
      {
        RepairingAnsweredTurn(TurnsOf(ms)[i], TurnsOf(out)[i]);
      }
      assert TurnsOf(out) == TurnsOf(ms);
      UnturnTurnsOf(ms);
      UnturnTurnsOf(out);
    }
  }

  // Repairing twice is repairing once, even when the two walks use different orders.
  lemma RepairIsIdempotent(ms: seq<Message>, once: seq<Message>, twice: seq<Message>)
    requires Repaired(ms, once) && Repaired(once, twice)
    ensures twice == once
  {
    RepairIsWellFormed(ms, once);
    RepairIsIdentityIffWellFormed(once, twice);
  }
}
