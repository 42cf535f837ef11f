// Conversation messages (internal/domain/message.go, internal/domain/tool.go) and what it means for a
// transcript to be acceptable to a chat model: every call is answered, once, directly after it is made.
module Messages {
  import opened Sequences

  // The source keeps the role as a string. The four named roles get constructors of their own and
  // every other string is `Other`.
  datatype Role = System | User | Assistant | Tool | Other(text: string)

  datatype ToolCall = ToolCall(id: string, name: string, arguments: string)

  datatype Message = Message(role: Role, content: string, name: string,
                             toolCalls: seq<ToolCall>, thinking: string)

  predicate IsTool(m: Message) {
    m.role == Tool
  }

  // The call a tool result answers is the ID of its first tool call, "" when it carries none.
  function FirstId(m: Message): string {
    if |m.toolCalls| > 0 then m.toolCalls[0].id else ""
  }

  function FirstIds(run: seq<Message>): seq<string> {
    if run == [] then [] else FirstIds(run[..|run| - 1]) + [FirstId(run[|run| - 1])]
  }

  // The calls of a message that must be answered: those of an assistant that carry an ID.
  function CallIds(m: Message): set<string> {
    if m.role == Assistant then set c | c in m.toolCalls && c.id != "" :: c.id else {}
  }

  // `run` answers each of `ids` exactly once and answers nothing else; AnswersMeansOnceEach gives the
  // reading by position.
  ghost predicate Answers(ids: set<string>, run: seq<Message>) {
    if run == [] then ids == {}
    else
      var id := FirstId(run[|run| - 1]);
      id in ids && Answers(ids - {id}, run[..|run| - 1])
  }

  // A message that is not a tool result, with the tool results directly after it.
  datatype Turn = Turn(head: Message, run: seq<Message>)

  // The turns of a transcript, read left to right; tool messages before the first turn belong to none.
  function TurnsOf(ms: seq<Message>): (ts: seq<Turn>)
  {
    if ms == [] then [] else AddToTurns(TurnsOf(ms[..|ms| - 1]), ms[|ms| - 1])
  }

  function AddToTurns(ts: seq<Turn>, m: Message): seq<Turn> {
    if !IsTool(m) then ts + [Turn(m, [])]
    else if ts == [] then []
    else ExtendLast(ts, [m])
  }

  function ExtendLast(ts: seq<Turn>, more: seq<Message>): (r: seq<Turn>)
    requires ts != []
    ensures |r| == |ts| && r[..|ts| - 1] == ts[..|ts| - 1]
    ensures r[|ts| - 1] == Turn(ts[|ts| - 1].head, ts[|ts| - 1].run + more)
  {
    ts[|ts| - 1 := Turn(ts[|ts| - 1].head, ts[|ts| - 1].run + more)]
  }

  function Unturn(ts: seq<Turn>): seq<Message> {
    if ts == [] then [] else Unturn(ts[..|ts| - 1]) + [ts[|ts| - 1].head] + ts[|ts| - 1].run
  }

  predicate StartsTurn(ms: seq<Message>) {
    ms == [] || !IsTool(ms[0])
  }

  ghost predicate Answered(t: Turn) {
    Answers(CallIds(t.head), t.run)
  }

  // Each non-tool message is followed by exactly the answers to its calls, and tool messages occur
  // nowhere else.
  ghost predicate WellFormed(ms: seq<Message>) {
    StartsTurn(ms) && forall i :: 0 <= i < |TurnsOf(ms)| ==> Answered(TurnsOf(ms)[i])
  }

  ghost predicate AllTools(run: seq<Message>) {
    forall i :: 0 <= i < |run| ==> IsTool(run[i])
  }

  ghost predicate Proper(t: Turn) {
    !IsTool(t.head) && AllTools(t.run)
  }

  function NonTools(ms: seq<Message>): seq<Message> {
    if ms == [] then []
    else if IsTool(ms[|ms| - 1]) then NonTools(ms[..|ms| - 1])
    else NonTools(ms[..|ms| - 1]) + [ms[|ms| - 1]]
  }

  function Heads(ts: seq<Turn>): seq<Message> {
    if ts == [] then [] else Heads(ts[..|ts| - 1]) + [ts[|ts| - 1].head]
  }

  // ---- answers ----

  lemma FirstIdsAppend(run: seq<Message>, m: Message)
    ensures FirstIds(run + [m]) == FirstIds(run) + [FirstId(m)]
  {
    Front(run, m);
  }

  lemma {:induction false} FirstIdsConcat(a: seq<Message>, b: seq<Message>)
    ensures FirstIds(a + b) == FirstIds(a) + FirstIds(b)
    decreases |b|
  {
    if b == [] {
      assert a + b == a;
    } else {
      var n := |b| - 1;
      FirstIdsConcat(a, b[..n]);
      FirstIdsAppend(a + b[..n], b[n]);
      ConcatSnoc(a, b);
      Assoc3(FirstIds(a), FirstIds(b[..n]), [FirstId(b[n])]);
    }
  }

  lemma {:induction false} FirstIdsAt(run: seq<Message>, i: nat)
    requires i < |run|
    ensures |FirstIds(run)| == |run| && FirstIds(run)[i] == FirstId(run[i])
  {
    var n := |run| - 1;
    if n == 0 {
      assert run[..0] == [];
    } else {
      FirstIdsAt(run[..n], if i < n then i else 0);
    }
  }

  lemma {:induction false} FirstIdsLength(run: seq<Message>)
    ensures |FirstIds(run)| == |run|
  {
    if run != [] {
      FirstIdsLength(run[..|run| - 1]);
    }
  }

  lemma {:induction false} AnswersSize(ids: set<string>, run: seq<Message>)
    requires Answers(ids, run)
    ensures |run| == |ids|
  {
    if run != [] {
      AnswersSize(ids - {FirstId(run[|run| - 1])}, run[..|run| - 1]);
    }
  }

  lemma AnswersAppend(ids: set<string>, run: seq<Message>, m: Message)
    requires Answers(ids, run) && FirstId(m) !in ids
    ensures Answers(ids + {FirstId(m)}, run + [m])
  {
    Front(run, m);
    assert ids + {FirstId(m)} - {FirstId(m)} == ids;
  }

  lemma {:induction false} AnswersConcat(s: set<string>, a: seq<Message>, t: set<string>, b: seq<Message>)
    requires Answers(s, a) && Answers(t, b) && s !! t
    ensures Answers(s + t, a + b)
    decreases |b|
  {
    if b == [] {
      assert a + b == a && s + t == s;
    } else {
      var n, id := |b| - 1, FirstId(b[|b| - 1]);
      AnswersConcat(s, a, t - {id}, b[..n]);
      AnswersAppend(s + (t - {id}), a + b[..n], b[n]);
      ConcatSnoc(a, b);
      assert s + (t - {id}) + {id} == s + t;
    }
  }

  lemma {:induction false} AnswersCoversIds(ids: set<string>, run: seq<Message>)
    requires Answers(ids, run)
    ensures (set id | id in FirstIds(run)) == ids
  {
    if run != [] {
      var n := |run| - 1;
      var id := FirstId(run[n]);
      AnswersCoversIds(ids - {id}, run[..n]);
      assert (set x | x in FirstIds(run)) == (set x | x in FirstIds(run[..n])) + {id};
    }
  }

  ghost predicate DistinctIds(run: seq<Message>) {
    forall i, j :: 0 <= i < j < |run| ==> FirstId(run[i]) != FirstId(run[j])
  }

  ghost predicate Occurs(id: string, run: seq<Message>) {
    exists i :: 0 <= i < |run| && FirstId(run[i]) == id
  }

  lemma OccursAppend(id: string, run: seq<Message>, m: Message)
    ensures Occurs(id, run + [m]) <==> Occurs(id, run) || FirstId(m) == id
  {
    if Occurs(id, run) {
      var i :| 0 <= i < |run| && FirstId(run[i]) == id;
      assert (run + [m])[i] == run[i];
    } else if FirstId(m) == id {
      assert (run + [m])[|run|] == m;
    }
  }

  lemma DistinctAppend(run: seq<Message>, m: Message)
    ensures DistinctIds(run + [m]) <==> DistinctIds(run) && !Occurs(FirstId(m), run)
  {
    var all := run + [m];
    assert forall i :: 0 <= i < |run| ==> all[i] == run[i];
    if DistinctIds(all) {
      assert forall i :: 0 <= i < |run| ==> FirstId(all[i]) != FirstId(all[|run|]);
    }
  }

  // The definition read by position: the first IDs are pairwise distinct and are exactly `ids`.
  lemma {:induction false} AnswersMeansOnceEach(ids: set<string>, run: seq<Message>)
    ensures Answers(ids, run) <==> DistinctIds(run) && forall id :: id in ids <==> Occurs(id, run)
  {
    if run != [] {
      var n := |run| - 1;
      var last := FirstId(run[n]);
      AnswersMeansOnceEach(ids - {last}, run[..n]);
      Snoc(run);
      DistinctAppend(run[..n], run[n]);
      forall id
        ensures Occurs(id, run) <==> Occurs(id, run[..n]) || id == last
      {
        OccursAppend(id, run[..n], run[n]);
      }
    }
  }

  // ---- turns ----

  lemma TurnsOfAppend(ms: seq<Message>, m: Message)
    ensures TurnsOf(ms + [m]) == AddToTurns(TurnsOf(ms), m)
  {
    Front(ms, m);
  }

  lemma TurnsOfNext(ms: seq<Message>, i: nat)
    requires i < |ms|
    ensures TurnsOf(ms[..i + 1]) == AddToTurns(TurnsOf(ms[..i]), ms[i])
  {
    assert ms[..i + 1][..i] == ms[..i];
  }

  lemma {:induction false} TurnsAreProper(ms: seq<Message>, i: nat)
    requires i < |TurnsOf(ms)|
    ensures Proper(TurnsOf(ms)[i])
    decreases |ms|
  {
    var ts := TurnsOf(ms[..|ms| - 1]);
    if i < |ts| {
      TurnsAreProper(ms[..|ms| - 1], i);
    }
  }

  lemma UnturnAppend(ts: seq<Turn>, t: Turn)
    ensures Unturn(ts + [t]) == Unturn(ts) + [t.head] + t.run
  {
    Front(ts, t);
  }

  lemma {:induction false} UnturnConcat(a: seq<Turn>, b: seq<Turn>)
    ensures Unturn(a + b) == Unturn(a) + Unturn(b)
    decreases |b|
  {
    if b == [] {
      assert a + b == a;
    } else {
      var n := |b| - 1;
      UnturnConcat(a, b[..n]);
      UnturnAppend(a + b[..n], b[n]);
      ConcatSnoc(a, b);
      Assoc(Unturn(a), Unturn(b[..n]), [b[n].head], b[n].run);
    }
  }

  lemma UnturnExtendLast(ts: seq<Turn>, more: seq<Message>)
    requires ts != []
    ensures Unturn(ExtendLast(ts, more)) == Unturn(ts) + more
  {
    var k := |ts| - 1;
    Assoc3(Unturn(ts[..k]) + [ts[k].head], ts[k].run, more);
  }

  lemma {:induction false} TurnsOfAppendRun(ms: seq<Message>, run: seq<Message>)
    requires TurnsOf(ms) != [] && AllTools(run)
    ensures TurnsOf(ms + run) == ExtendLast(TurnsOf(ms), run)
    decreases |run|
  {
    var ts := TurnsOf(ms);
    if run == [] {
      assert ms + run == ms && ts[|ts| - 1].run + run == ts[|ts| - 1].run;
      assert ExtendLast(ts, run) == ts;
    } else {
      var n := |run| - 1;
      TurnsOfAppendRun(ms, run[..n]);
      TurnsOfAppend(ms + run[..n], run[n]);
      ConcatSnoc(ms, run);
      ConcatSnoc(ts[|ts| - 1].run, run);
    }
  }

  lemma TurnsOfOneMore(ms: seq<Message>, t: Turn)
    requires Proper(t)
    ensures TurnsOf(ms + [t.head] + t.run) == TurnsOf(ms) + [t]
  {
    TurnsOfAppend(ms, t.head);
    TurnsOfAppendRun(ms + [t.head], t.run);
    assert [] + t.run == t.run;
  }

  lemma AddAfter(a: seq<Turn>, b: seq<Turn>, m: Message)
    requires IsTool(m) ==> b != []
    ensures AddToTurns(a + b, m) == a + AddToTurns(b, m)
  {
  }

  // Where a new turn starts, the turns before and after do not interact.
  lemma {:induction false} TurnsOfConcat(a: seq<Message>, b: seq<Message>)
    requires StartsTurn(b)
    ensures TurnsOf(a + b) == TurnsOf(a) + TurnsOf(b)
    decreases |b|
  {
    if b == [] {
      assert a + b == a;
    } else {
      var n := |b| - 1;
      TurnsOfConcat(a, b[..n]);
      UnturnTurnsOf(b[..n]);
      TurnsOfAppend(a + b[..n], b[n]);
      AddAfter(TurnsOf(a), TurnsOf(b[..n]), b[n]);
      ConcatSnoc(a, b);
    }
  }

  // Reading turns and writing them out are inverse to each other.
  lemma {:induction false} TurnsOfUnturn(ts: seq<Turn>)
    requires forall i :: 0 <= i < |ts| ==> Proper(ts[i])
    ensures TurnsOf(Unturn(ts)) == ts
    ensures StartsTurn(Unturn(ts))
  {
    if ts != [] {
      var n := |ts| - 1;
      TurnsOfUnturn(ts[..n]);
      TurnsOfOneMore(Unturn(ts[..n]), ts[n]);
      Snoc(ts);
    }
  }

  // The turns from `k` on make a transcript of their own.
  lemma TurnsFrom(ms: seq<Message>, k: nat)
    requires k <= |TurnsOf(ms)|
    ensures TurnsOf(Unturn(TurnsOf(ms)[k..])) == TurnsOf(ms)[k..]
    ensures StartsTurn(Unturn(TurnsOf(ms)[k..]))
  {
    forall i | k <= i < |TurnsOf(ms)|
      ensures Proper(TurnsOf(ms)[i])
    {
      TurnsAreProper(ms, i);
    }
    TurnsOfUnturn(TurnsOf(ms)[k..]);
  }

  lemma {:induction false} UnturnTurnsOf(ms: seq<Message>)
    requires StartsTurn(ms)
    ensures Unturn(TurnsOf(ms)) == ms
    ensures ms != [] ==> TurnsOf(ms) != []
  {
    if ms != [] {
      var n := |ms| - 1;
      Snoc(ms);
      UnturnTurnsOf(ms[..n]);
      var ts := TurnsOf(ms[..n]);
      if !IsTool(ms[n]) {
        UnturnAppend(ts, Turn(ms[n], []));
      } else {
        UnturnExtendLast(ts, [ms[n]]);
      }
    }
  }

  lemma {:induction false} FirstHead(ms: seq<Message>)
    requires StartsTurn(ms) && ms != []
    ensures TurnsOf(ms) != [] && TurnsOf(ms)[0].head == ms[0]
  {
    if |ms| > 1 {
      FirstHead(ms[..|ms| - 1]);
      AddKeepsFirst(TurnsOf(ms[..|ms| - 1]), ms[|ms| - 1]);
    } else {
      assert ms[..0] == [];
    }
  }

  lemma AddKeepsFirst(ts: seq<Turn>, m: Message)
    requires ts != []
    ensures AddToTurns(ts, m) != [] && AddToTurns(ts, m)[0].head == ts[0].head
  {
    assert |ts| > 1 ==> AddToTurns(ts, m)[..|ts| - 1][0] == ts[..|ts| - 1][0];
  }

  lemma {:induction false} HeadsAreNonTools(ms: seq<Message>)
    ensures Heads(TurnsOf(ms)) == NonTools(ms)
  {
    if ms != [] {
      var n := |ms| - 1;
      HeadsAreNonTools(ms[..n]);
      var ts := TurnsOf(ms[..n]);
      if !IsTool(ms[n]) {
        Front(ts, Turn(ms[n], []));
      }
    }
  }

  lemma {:induction false} SameHeads(a: seq<Turn>, b: seq<Turn>)
    requires |a| == |b| && forall i :: 0 <= i < |a| ==> a[i].head == b[i].head
    ensures Heads(a) == Heads(b)
  {
    if a != [] {
      SameHeads(a[..|a| - 1], b[..|b| - 1]);
    }
  }
}
