// internal/usecase/transcript_repair.go: RepairTranscript and its helpers.
//
// The source walks a Go map when it injects the missing results, so their order is not determined.
// Repair is therefore a relation between input and output; the loop below takes the entries in an
// arbitrary order, and every theorem holds for each output the relation allows.
module TranscriptRepair {
  import opened Sequences
  import opened Messages

  const NO_RESULT := "[error] tool call did not produce a result"

  function ErrorResult(id: string, call: ToolCall): Message {
    Message(Tool, NO_RESULT, call.name, [ToolCall(id, call.name, "")], "")
  }

  // The pending calls after an assistant message: a later call replaces an earlier one of the same ID.
  function Track(calls: seq<ToolCall>): (pending: map<string, ToolCall>)
    ensures pending.Keys == set c | c in calls && c.id != "" :: c.id
  {
    if calls == [] then map[]
    else
      var last := calls[|calls| - 1];
      var before := Track(calls[..|calls| - 1]);
      Snoc(calls);
      if last.id != "" then before[last.id := last] else before
  }

  function Pending(m: Message): (pending: map<string, ToolCall>)
    ensures pending.Keys == CallIds(m)
  {
    if m.role == Assistant then Track(m.toolCalls) else map[]
  }

  // ---- what repair means ----

  function AnsweredIds(run: seq<Message>): set<string> {
    set id | id in FirstIds(run)
  }

  // A tool result stays when it answers one of `ids` and no earlier result of its run did.
  function Kept(run: seq<Message>, ids: set<string>): seq<Message> {
    if run == [] then []
    else
      var n := |run| - 1;
      if FirstId(run[n]) in ids - AnsweredIds(run[..n]) then Kept(run[..n], ids) + [run[n]] else Kept(run[..n], ids)
  }

  function Unanswered(t: Turn): map<string, ToolCall> {
    Pending(t.head) - AnsweredIds(t.run)
  }

  // `out` holds one error result for each pending call, in some order.
  ghost predicate IsInjection(pending: map<string, ToolCall>, out: seq<Message>) {
    Answers(pending.Keys, out) && forall i :: 0 <= i < |out| ==> IsErrorFor(pending, out[i])
  }

  ghost predicate IsErrorFor(pending: map<string, ToolCall>, m: Message) {
    FirstId(m) in pending && m == ErrorResult(FirstId(m), pending[FirstId(m)])
  }

  // A turn keeps its head and its first answers, and gets an error for each call left unanswered.
  ghost predicate RepairsTurn(t: Turn, u: Turn) {
    var kept := Kept(t.run, CallIds(t.head));
    && u.head == t.head
    && kept <= u.run
    && IsInjection(Unanswered(t), u.run[|kept|..])
  }

  ghost predicate Repaired(ms: seq<Message>, out: seq<Message>) {
    && StartsTurn(out)
    && |TurnsOf(out)| == |TurnsOf(ms)|
    && forall i :: 0 <= i < |TurnsOf(ms)| ==> RepairsTurn(TurnsOf(ms)[i], TurnsOf(out)[i])
  }

  // ---- the code ----

  // The walk over the pending map takes the entries in any order.
  method InjectMissingResults(msgs: seq<Message>, pending: map<string, ToolCall>) returns (result: seq<Message>)
    ensures msgs <= result
    ensures IsInjection(pending, result[|msgs|..])
  {
    result := msgs;
    ghost var injected: seq<Message> := [];
    var todo := pending.Keys;
    while todo != {}
      invariant todo <= pending.Keys
      invariant result == msgs + injected
      invariant IsInjection(pending - todo, injected)
      decreases |todo|
    {
      var id :| id in todo;
      InjectionAppend(pending, todo, id, injected);
      injected := injected + [ErrorResult(id, pending[id])];
      result := result + [ErrorResult(id, pending[id])];
      todo := todo - {id};
    }
    assert pending - todo == pending;
    assert result[|msgs|..] == injected;
  }

  method RepairTranscript(messages: seq<Message>) returns (result: seq<Message>)
    ensures Repaired(messages, result)
  {
    if |messages| == 0 {
      return messages;
    }
    result := [];
    var pending: map<string, ToolCall> := map[];
    ghost var us: seq<Turn> := [];
    for i := 0 to |messages|
      invariant InProgress(TurnsOf(messages[..i]), us, pending, result)
    {
      var msg := messages[i];
      ghost var ts := TurnsOf(messages[..i]);
      TurnsOfNext(messages, i);
      if IsTool(msg) {
        if FirstId(msg) != "" && FirstId(msg) in pending {
          us := KeepResult(ts, us, pending, result, msg);
          pending := pending - {FirstId(msg)};
          result := result + [msg];
        } else {
          DropResult(ts, us, pending, result, msg);
        }
      } else {
        ghost var before := result;
        result := InjectMissingResults(result, pending);
        us := CloseTurn(ts, us, pending, before, result);
        OpenTurn(ts, us, result, msg);
        pending := Pending(msg);
        result := result + [msg];
        us := us + [Turn(msg, [])];
      }
    }
    assert messages[..|messages|] == messages;
    ghost var before := result;
    result := InjectMissingResults(result, pending);
    us := CloseTurn(TurnsOf(messages), us, pending, before, result);
    ClosedIsRepaired(messages, us, result);
  }

  // ---- the loop's invariant and its steps ----

  ghost predicate IsOpen(t: Turn, u: Turn, pending: map<string, ToolCall>) {
    u.head == t.head && u.run == Kept(t.run, CallIds(t.head)) && pending == Unanswered(t)
  }

  // The turns read so far are repaired, except that the last one still waits for `pending`.
  ghost predicate InProgress(ts: seq<Turn>, us: seq<Turn>, pending: map<string, ToolCall>, result: seq<Message>) {
    && result == Unturn(us)
    && |us| == |ts|
    && (forall i :: 0 <= i < |ts| - 1 ==> RepairsTurn(ts[i], us[i]))
    && (if ts == [] then pending == map[] else IsOpen(ts[|ts| - 1], us[|us| - 1], pending))
  }

  ghost predicate Closed(ts: seq<Turn>, us: seq<Turn>, result: seq<Message>) {
    && result == Unturn(us)
    && |us| == |ts|
    && (forall i :: 0 <= i < |ts| ==> RepairsTurn(ts[i], us[i]))
  }

  // A pending call is the last of the message with its ID.
  lemma {:induction false} TrackKeepsLast(calls: seq<ToolCall>, id: string) returns (k: nat)
    requires id in Track(calls)
    ensures k < |calls| && calls[k].id == id && Track(calls)[id] == calls[k]
    ensures forall j :: k < j < |calls| ==> calls[j].id != id
  {
    var n := |calls| - 1;
    if calls[n].id == id {
      k := n;
    } else {
      k := TrackKeepsLast(calls[..n], id);
    }
  }

  lemma InjectionAppend(pending: map<string, ToolCall>, todo: set<string>, id: string, injected: seq<Message>)
    requires id in todo && todo <= pending.Keys && IsInjection(pending - todo, injected)
    ensures IsInjection(pending - (todo - {id}), injected + [ErrorResult(id, pending[id])])
  {
    var m := ErrorResult(id, pending[id]);
    var less, more := pending - todo, pending - (todo - {id});
    AnswersAppend(less.Keys, injected, m);
    assert more.Keys == less.Keys + {id};
    forall i | 0 <= i < |injected|
      ensures IsErrorFor(more, injected[i])
    {
      assert IsErrorFor(less, injected[i]);
    }
  }

  lemma AnsweredIdsAppend(run: seq<Message>, m: Message)
    ensures AnsweredIds(run + [m]) == AnsweredIds(run) + {FirstId(m)}
  {
    FirstIdsAppend(run, m);
  }

  // A tool result read in the last turn: kept when its call is pending, dropped otherwise.
  lemma ReadResult(t: Turn, m: Message)
    requires IsTool(m)
    ensures var t' := Turn(t.head, t.run + [m]);
            && Kept(t'.run, CallIds(t.head)) ==
               (if FirstId(m) in Unanswered(t) then Kept(t.run, CallIds(t.head)) + [m] else Kept(t.run, CallIds(t.head)))
            && Unanswered(t') == Unanswered(t) - {FirstId(m)}
  {
    Front(t.run, m);
    AnsweredIdsAppend(t.run, m);
  }

  lemma KeepResult(ts: seq<Turn>, us: seq<Turn>, pending: map<string, ToolCall>, result: seq<Message>, m: Message)
    returns (us': seq<Turn>)
    requires InProgress(ts, us, pending, result) && IsTool(m) && FirstId(m) in pending
    ensures InProgress(AddToTurns(ts, m), us', pending - {FirstId(m)}, result + [m])
  {
    var k := |ts| - 1;
    ReadResult(ts[k], m);
    us' := ExtendLast(us, [m]);
    UnturnExtendLast(us, [m]);
  }

  lemma DropResult(ts: seq<Turn>, us: seq<Turn>, pending: map<string, ToolCall>, result: seq<Message>, m: Message)
    requires InProgress(ts, us, pending, result) && IsTool(m) && (FirstId(m) == "" || FirstId(m) !in pending)
    ensures InProgress(AddToTurns(ts, m), us, pending, result)
  {
    if ts != [] {
      ReadResult(ts[|ts| - 1], m);
      assert pending - {FirstId(m)} == pending;
    }
  }

  lemma CloseTurn(ts: seq<Turn>, us: seq<Turn>, pending: map<string, ToolCall>, before: seq<Message>,
                  result: seq<Message>)
    returns (us': seq<Turn>)
    requires InProgress(ts, us, pending, before)
    requires before <= result && IsInjection(pending, result[|before|..])
    ensures Closed(ts, us', result)
  {
    us' := CloseTurnWith(ts, us, pending, before, result[|before|..]);
    PrefixThenRest(before, result);
  }

  lemma CloseTurnWith(ts: seq<Turn>, us: seq<Turn>, pending: map<string, ToolCall>, before: seq<Message>,
                      injected: seq<Message>)
    returns (us': seq<Turn>)
    requires InProgress(ts, us, pending, before) && IsInjection(pending, injected)
    ensures Closed(ts, us', before + injected)
  {
    if ts == [] {
      AnswersSize({}, injected);
      us' := us;
    } else {
      var k := |ts| - 1;
      us' := ExtendLast(us, injected);
      UnturnExtendLast(us, injected);
      assert us'[k].run[|us[k].run|..] == injected;
    }
  }

  lemma OpenTurn(ts: seq<Turn>, us: seq<Turn>, result: seq<Message>, m: Message)
    requires Closed(ts, us, result) && !IsTool(m)
    ensures InProgress(AddToTurns(ts, m), us + [Turn(m, [])], Pending(m), result + [m])
  {
    UnturnAppend(us, Turn(m, []));
    assert Unanswered(Turn(m, [])) == Pending(m);
  }

  lemma ClosedIsRepaired(ms: seq<Message>, us: seq<Turn>, result: seq<Message>)
    requires Closed(TurnsOf(ms), us, result)
    ensures Repaired(ms, result)
  {
    forall i | 0 <= i < |us|
      ensures Proper(us[i])
    {
      TurnsAreProper(ms, i);
      RepairedTurnIsProper(TurnsOf(ms)[i], us[i]);
    }
    TurnsOfUnturn(us);
  }

  lemma {:induction false} KeptFromRun(run: seq<Message>, ids: set<string>, m: Message)
    requires m in Kept(run, ids)
    ensures m in run
  {
    var n := |run| - 1;
    if m in Kept(run[..n], ids) {
      KeptFromRun(run[..n], ids, m);
    }
  }

  lemma RepairedTurnIsProper(t: Turn, u: Turn)
    requires Proper(t) && RepairsTurn(t, u)
    ensures Proper(u)
  {
    var kept := Kept(t.run, CallIds(t.head));
    forall i | 0 <= i < |u.run|
      ensures IsTool(u.run[i])
    {
      if i < |kept| {
        assert u.run[i] == kept[i];
        KeptFromRun(t.run, CallIds(t.head), kept[i]);
      } else {
        assert u.run[i] == u.run[|kept|..][i - |kept|];
      }
    }
  }
}
