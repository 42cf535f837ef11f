// Repair injects errors in the order of a Go map walk. What that order can change: the order of the
// results within a turn, and nothing else.
module InjectionOrder {
  import opened Sequences
  import opened Messages
  import opened TranscriptRepair
  import opened RepairTheorems
  import opened HistoryTruncation
  import opened TruncationTheorems

  ghost predicate SameTurn(t: Turn, u: Turn) {
    t.head == u.head && multiset(t.run) == multiset(u.run)
  }

  ghost predicate SameTurns(ts: seq<Turn>, us: seq<Turn>) {
    |ts| == |us| && forall i :: 0 <= i < |ts| ==> SameTurn(ts[i], us[i])
  }

  // The two transcripts are the same but for the order of the results within each turn.
  ghost predicate SameUpToOrder(a: seq<Message>, b: seq<Message>) {
    StartsTurn(a) && StartsTurn(b) && SameTurns(TurnsOf(a), TurnsOf(b))
  }

  // ---- repair ----

  lemma {:induction false} AnswersMembers(ids: set<string>, run: seq<Message>, i: nat)
    requires Answers(ids, run) && i < |run|
    ensures FirstId(run[i]) in ids
  {
    var n := |run| - 1;
    if i < n {
      AnswersMembers(ids - {FirstId(run[n])}, run[..n], i);
    }
  }

  lemma InjectionFront(pending: map<string, ToolCall>, out: seq<Message>)
    requires IsInjection(pending, out) && out != []
    ensures IsInjection(pending - {FirstId(out[|out| - 1])}, out[..|out| - 1])
  {
    var n := |out| - 1;
    var less := pending - {FirstId(out[n])};
    assert less.Keys == pending.Keys - {FirstId(out[n])};
    forall i | 0 <= i < n
      ensures IsErrorFor(less, out[..n][i])
    {
      AnswersMembers(less.Keys, out[..n], i);
      assert IsErrorFor(pending, out[i]);
    }
  }

  // Each error is injected once.
  lemma {:induction false} InjectionCount(pending: map<string, ToolCall>, out: seq<Message>, m: Message)
    requires IsInjection(pending, out)
    ensures multiset(out)[m] == if IsErrorFor(pending, m) then 1 else 0
    decreases |out|
  {
    if out == [] {
      AnswersSize(pending.Keys, out);
    } else {
      var n := |out| - 1;
      InjectionFront(pending, out);
      InjectionCount(pending - {FirstId(out[n])}, out[..n], m);
      Snoc(out);
      assert IsErrorFor(pending, out[n]);
    }
  }

  lemma SameInjection(pending: map<string, ToolCall>, a: seq<Message>, b: seq<Message>)
    requires IsInjection(pending, a) && IsInjection(pending, b)
    ensures multiset(a) == multiset(b)
  {
    forall m
      ensures multiset(a)[m] == multiset(b)[m]
    {
      InjectionCount(pending, a, m);
      InjectionCount(pending, b, m);
    }
  }

  lemma RepairsOfOneTurn(t: Turn, u: Turn, v: Turn)
    requires RepairsTurn(t, u) && RepairsTurn(t, v)
    ensures SameTurn(u, v)
  {
    var kept := Kept(t.run, CallIds(t.head));
    SameInjection(Unanswered(t), u.run[|kept|..], v.run[|kept|..]);
    PrefixThenRest(kept, u.run);
    PrefixThenRest(kept, v.run);
  }

  // Two repairs of one history differ at most in the order of the results within each turn.
  lemma RepairsDifferInOrder(ms: seq<Message>, a: seq<Message>, b: seq<Message>)
    requires Repaired(ms, a) && Repaired(ms, b)
    ensures SameUpToOrder(a, b)
  {
    forall i | 0 <= i < |TurnsOf(ms)|
      ensures SameTurn(TurnsOf(a)[i], TurnsOf(b)[i])
    {
      RepairsOfOneTurn(TurnsOf(ms)[i], TurnsOf(a)[i], TurnsOf(b)[i]);
    }
  }

  // ---- truncation ----

  lemma {:induction false} SameSizes(gs: seq<seq<Message>>, hs: seq<seq<Message>>, k: nat)
    requires SameLengths(gs, hs) && k <= |gs|
    ensures SizeFrom(gs, k) == SizeFrom(hs, k)
    decreases |gs| - k
  {
    if k < |gs| {
      SameSizes(gs, hs, k + 1);
      FlattenFrom(gs, k);
      FlattenFrom(hs, k);
    } else {
      assert gs[k..] == [] && hs[k..] == [];
    }
  }

  ghost predicate SameLengths(gs: seq<seq<Message>>, hs: seq<seq<Message>>) {
    |gs| == |hs| && forall i :: 0 <= i < |gs| ==> |gs[i]| == |hs[i]|
  }

  lemma SameTurnLengths(gs: seq<seq<Message>>, ts: seq<Turn>, hs: seq<seq<Message>>, us: seq<Turn>)
    requires GroupsAreTurns(gs, ts) && GroupsAreTurns(hs, us) && SameTurns(ts, us)
    ensures SameLengths(gs, hs)
  {
    forall i | 0 <= i < |gs|
      ensures |gs[i]| == |hs[i]|
    {
      SameLength(ts[i], us[i]);
    }
  }

  lemma SameGroupSizes(a: seq<Message>, b: seq<Message>)
    requires SameUpToOrder(a, b) && WellFormed(a) && WellFormed(b)
    ensures SameLengths(Groups(a), Groups(b)) && |a| == |b|
  {
    WellFormedGroups(a);
    WellFormedGroups(b);
    SameTurnLengths(Groups(a), TurnsOf(a), Groups(b), TurnsOf(b));
    SameTotal(a, b);
  }

  lemma SameTotal(a: seq<Message>, b: seq<Message>)
    requires SameLengths(Groups(a), Groups(b))
    ensures |a| == |b|
  {
    var gs, hs := Groups(a), Groups(b);
    SameSizes(gs, hs, 0);
    FlattenGroups(a);
    FlattenGroups(b);
    assert gs[0..] == gs && hs[0..] == hs;
  }

  lemma SameLength(t: Turn, u: Turn)
    requires SameTurn(t, u)
    ensures |Group(t)| == |Group(u)|
  {
    assert |multiset(t.run)| == |multiset(u.run)|;
  }

  // Both are cut at the same place.
  lemma SameCut(a: seq<Message>, b: seq<Message>, max: int, k: nat)
    requires SameUpToOrder(a, b) && WellFormed(a) && WellFormed(b) && IsCut(Groups(a), max, k)
    ensures IsCut(Groups(b), max, k)
  {
    SameGroupSizes(a, b);
    SameGroupCut(Groups(a), Groups(b), max, k);
  }

  lemma SameGroupCut(gs: seq<seq<Message>>, hs: seq<seq<Message>>, max: int, k: nat)
    requires SameLengths(gs, hs) && IsCut(gs, max, k)
    ensures IsCut(hs, max, k)
  {
    forall j | 0 <= j <= k
      ensures SizeFrom(gs, j) == SizeFrom(hs, j)
    {
      SameSizes(gs, hs, j);
    }
  }

  // What is kept after the cut, and how it starts.
  lemma BodyStarts(a: seq<Message>, max: int, k: nat)
    requires WellFormed(a) && IsCut(Groups(a), max, k)
    ensures var body := Flatten(Groups(a)[k..]);
            k < |TurnsOf(a)| && body != [] && body[0] == TurnsOf(a)[k].head && StartsTurn(body) && TurnsOf(body) == TurnsOf(a)[k..]
    ensures a != [] && !IsTool(a[0]) && a[0] == TurnsOf(a)[0].head
  {
    BodyTurns(a, max, k);
    TruncationIsSuffix(a, max, k);
    FirstHead(Flatten(Groups(a)[k..]));
    FirstHead(a);
  }

  lemma TurnsOfPrepend(m: Message, body: seq<Message>)
    requires !IsTool(m) && StartsTurn(body)
    ensures TurnsOf([m] + body) == [Turn(m, [])] + TurnsOf(body) && StartsTurn([m] + body)
  {
    TurnsOfConcat([m], body);
    TurnsOfAppend([], m);
    assert [] + [m] == [m];
  }

  lemma CutsDifferInOrder(x: seq<Message>, y: seq<Message>, max: int, k: nat)
    requires SameUpToOrder(x, y) && WellFormed(x) && WellFormed(y)
    requires IsCut(Groups(x), max, k) && IsCut(Groups(y), max, k)
    ensures var a, b := Flatten(Groups(x)[k..]), Flatten(Groups(y)[k..]);
            && (ReAddsSummary(x, a) <==> ReAddsSummary(y, b))
            && SameUpToOrder(WithSummary(x, a), WithSummary(y, b))
  {
    var a, b := Flatten(Groups(x)[k..]), Flatten(Groups(y)[k..]);
    BodyStarts(x, max, k);
    BodyStarts(y, max, k);
    assert SameTurn(TurnsOf(x)[0], TurnsOf(y)[0]) && SameTurn(TurnsOf(x)[k], TurnsOf(y)[k]);
    SameSuffix(TurnsOf(x), TurnsOf(y), k);
    if ReAddsSummary(x, a) {
      TurnsOfPrepend(x[0], a);
      TurnsOfPrepend(x[0], b);
      SamePrepend(Turn(x[0], []), TurnsOf(a), TurnsOf(b));
    }
  }

  lemma SameSuffix(ts: seq<Turn>, us: seq<Turn>, k: nat)
    requires SameTurns(ts, us) && k <= |ts|
    ensures SameTurns(ts[k..], us[k..])
  {
  }

  lemma SamePrepend(t: Turn, ts: seq<Turn>, us: seq<Turn>)
    requires SameTurns(ts, us)
    ensures SameTurns([t] + ts, [t] + us)
  {
  }

  // Truncation keeps two well-formed histories the same up to order, and breaks both or neither.
  lemma TruncationsDifferInOrder(x: seq<Message>, y: seq<Message>, max: int, a: seq<Message>, b: seq<Message>)
    requires SameUpToOrder(x, y) && WellFormed(x) && WellFormed(y) && Truncated(x, max, a) && Truncated(y, max, b)
    ensures SameUpToOrder(a, b)
    ensures WellFormed(a) <==> WellFormed(b)
  {
    SameGroupSizes(x, y);
    if 0 < max < |x| {
      var k: nat :| IsCut(Groups(x), max, k) && a == WithSummary(x, Flatten(Groups(x)[k..]));
      var l: nat :| IsCut(Groups(y), max, l) && b == WithSummary(y, Flatten(Groups(y)[l..]));
      SameCut(x, y, max, k);
      CutIsUnique(Groups(y), max, k, l);
      CutsDifferInOrder(x, y, max, k);
      CutWellFormedIff(x, max, k);
      CutWellFormedIff(y, max, k);
      BodyStarts(x, max, k);
      BodyStarts(y, max, k);
      assert SameTurn(TurnsOf(x)[0], TurnsOf(y)[0]);
    }
  }

  // The truncated repairs of one history differ at most in the order of the results within each turn,
  // and are well formed both or neither.
  lemma TailsDifferInOrder(history: seq<Message>, max: int, x: seq<Message>, a: seq<Message>, y: seq<Message>, b: seq<Message>)
    requires Repaired(history, x) && Truncated(x, max, a) && Repaired(history, y) && Truncated(y, max, b)
    ensures SameUpToOrder(a, b)
    ensures WellFormed(a) <==> WellFormed(b)
  {
    RepairIsWellFormed(history, x);
    RepairIsWellFormed(history, y);
    RepairsDifferInOrder(history, x, y);
    TruncationsDifferInOrder(x, y, max, a, b);
  }
}
