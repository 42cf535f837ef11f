// internal/usecase/agent.go: streamAccumulator, which turns streamed deltas into one message.
module Streaming {
  import opened Sequences
  import opened Messages

  const MAX_SLOTS := 50

  datatype Usage = Usage(promptTokens: int, completionTokens: int, totalTokens: int)

  datatype UsageReport = NoUsage | Reported(usage: Usage)

  datatype Delta = Delta(content: string, toolCalls: seq<ToolCall>, usage: UsageReport)

  const NO_CALL := ToolCall("", "", "")

  const NO_TOKENS := Usage(0, 0, 0)

  function Min(a: nat, b: nat): nat { if a < b then a else b }

  function Max(a: nat, b: nat): nat { if a < b then b else a }

  // ---- one delta ----

  function CallAt(calls: seq<ToolCall>, i: nat): ToolCall {
    if i < |calls| then calls[i] else NO_CALL
  }

  function MergeCall(a: ToolCall, b: ToolCall): ToolCall {
    ToolCall(if b.id != "" then b.id else a.id, if b.name != "" then b.name else a.name, a.arguments + b.arguments)
  }

  function MergeCalls(a: seq<ToolCall>, b: seq<ToolCall>): seq<ToolCall> {
    seq(Max(|a|, |b|), i requires 0 <= i => MergeCall(CallAt(a, i), CallAt(b, i)))
  }

  // Positions beyond the bound are dropped.
  function Slots(calls: seq<ToolCall>): seq<ToolCall> {
    calls[..Min(|calls|, MAX_SLOTS)]
  }

  datatype State = State(content: string, toolCalls: seq<ToolCall>, usage: Usage)

  const EMPTY := State("", [], NO_TOKENS)

  function Add(s: State, d: Delta): State {
    State(s.content + d.content,
          MergeCalls(s.toolCalls, Slots(d.toolCalls)),
          if d.usage.Reported? then d.usage.usage else s.usage)
  }

  function From(s: State, ds: seq<Delta>): State {
    if ds == [] then s else Add(From(s, ds[..|ds| - 1]), ds[|ds| - 1])
  }

  class StreamAccumulator {
    var content: string
    var toolCalls: seq<ToolCall>
    var usage: Usage

    constructor ()
      ensures Value() == EMPTY
    {
      content, toolCalls, usage := "", [], NO_TOKENS;
    }

    function Value(): State
      reads this
    {
      State(content, toolCalls, usage)
    }

    method AddDelta(delta: Delta)
      modifies this
      ensures Value() == Add(old(Value()), delta)
    {
      content := content + delta.content;
      ghost var before := toolCalls;
      MergeNothing(before);
      var idx := 0;
      while idx < |delta.toolCalls|
        invariant 0 <= idx <= |Slots(delta.toolCalls)|
        invariant toolCalls == MergeCalls(before, Slots(delta.toolCalls)[..idx])
        invariant content == old(content) + delta.content && usage == old(usage)
      {
        if idx >= MAX_SLOTS {
          break;
        }
        var tc := delta.toolCalls[idx];
        ghost var merged := toolCalls;
        while |toolCalls| <= idx
          invariant |merged| <= |toolCalls| <= Max(|merged|, idx + 1) && toolCalls[..|merged|] == merged
          invariant forall i :: |merged| <= i < |toolCalls| ==> toolCalls[i] == NO_CALL
          invariant content == old(content) + delta.content && usage == old(usage)
        {
          toolCalls := toolCalls + [NO_CALL];
        }
        var existing := toolCalls[idx];
        if tc.id != "" {
          existing := existing.(id := tc.id);
        }
        if tc.name != "" {
          existing := existing.(name := tc.name);
        }
        if |tc.arguments| > 0 {
          existing := existing.(arguments := existing.arguments + tc.arguments);
        }
        assert existing.arguments == toolCalls[idx].arguments + tc.arguments;
        assert existing == MergeCall(toolCalls[idx], Slots(delta.toolCalls)[idx]);
        MergeOne(before, Slots(delta.toolCalls), idx, merged, toolCalls);
        toolCalls := toolCalls[idx := existing];
        idx := idx + 1;
      }
      assert Slots(delta.toolCalls)[..idx] == Slots(delta.toolCalls);
      if delta.usage.Reported? {
        usage := delta.usage.usage;
      }
    }

    method Build() returns (msg: Message, total: Usage)
      ensures msg == Message(Assistant, content, "", toolCalls, "") && total == usage
    {
      return Message(Assistant, content, "", toolCalls, ""), usage;
    }
  }

  lemma MergeNothing(a: seq<ToolCall>)
    ensures MergeCalls(a, []) == a
  {
    forall i | 0 <= i < |a|
      ensures MergeCall(a[i], NO_CALL) == a[i]
    {
      MergeNone(a[i]);
    }
  }

  lemma MergeNone(c: ToolCall)
    ensures MergeCall(c, NO_CALL) == c
  {
    assert c.arguments + "" == c.arguments;
  }

  lemma MergeOne(a: seq<ToolCall>, b: seq<ToolCall>, idx: nat, merged: seq<ToolCall>, grown: seq<ToolCall>)
    requires idx < |b| && merged == MergeCalls(a, b[..idx])
    requires |grown| == Max(|merged|, idx + 1) && grown[..|merged|] == merged
    requires forall i :: |merged| <= i < |grown| ==> grown[i] == NO_CALL
    ensures grown[idx := MergeCall(grown[idx], b[idx])] == MergeCalls(a, b[..idx + 1])
  {
    var all := MergeCalls(a, b[..idx + 1]);
    assert grown[idx] == CallAt(a, idx) by {
      if idx < |merged| {
        assert grown[..|merged|][idx] == merged[idx];
        MergeNone(a[idx]);
      }
    }
    forall i | 0 <= i < |grown| && i != idx
      ensures grown[i] == all[i]
    {
      assert i < |merged| && grown[..|merged|][i] == merged[i];
      assert CallAt(b[..idx], i) == CallAt(b[..idx + 1], i);
    }
  }

  // ---- any sequence of deltas ----

  function LastNonEmpty(s: seq<string>): string {
    if s == [] then "" else if s[|s| - 1] != "" then s[|s| - 1] else LastNonEmpty(s[..|s| - 1])
  }

  function Joined(s: seq<string>): string {
    if s == [] then "" else Joined(s[..|s| - 1]) + s[|s| - 1]
  }

  // Position `i` of each delta, in order; a delta that does not reach it contributes an empty call.
  function Column(ds: seq<Delta>, i: nat): seq<ToolCall> {
    seq(|ds|, k requires 0 <= k < |ds| => CallAt(Slots(ds[k].toolCalls), i))
  }

  function Ids(calls: seq<ToolCall>): seq<string> { seq(|calls|, k requires 0 <= k < |calls| => calls[k].id) }

  function Names(calls: seq<ToolCall>): seq<string> { seq(|calls|, k requires 0 <= k < |calls| => calls[k].name) }

  function Arguments(calls: seq<ToolCall>): seq<string> {
    seq(|calls|, k requires 0 <= k < |calls| => calls[k].arguments)
  }

  function Contents(ds: seq<Delta>): seq<string> { seq(|ds|, k requires 0 <= k < |ds| => ds[k].content) }

  function LastUsage(ds: seq<Delta>): Usage {
    if ds == [] then NO_TOKENS
    else if ds[|ds| - 1].usage.Reported? then ds[|ds| - 1].usage.usage
    else LastUsage(ds[..|ds| - 1])
  }

  ghost predicate IsLargest(n: nat, ds: seq<Delta>) {
    && (forall k :: 0 <= k < |ds| ==> Min(|ds[k].toolCalls|, 50) <= n)
    && (n == 0 || exists k :: 0 <= k < |ds| && Min(|ds[k].toolCalls|, 50) == n)
  }

  lemma ColumnSnoc(ds: seq<Delta>, d: Delta, i: nat)
    ensures var c, all := Column(ds, i), Column(ds + [d], i);
            var last := CallAt(Slots(d.toolCalls), i);
            && Ids(all) == Ids(c) + [last.id]
            && Names(all) == Names(c) + [last.name]
            && Arguments(all) == Arguments(c) + [last.arguments]
  {
  }

  lemma LastNonEmptySnoc(s: seq<string>, x: string)
    ensures LastNonEmpty(s + [x]) == if x != "" then x else LastNonEmpty(s)
    ensures Joined(s + [x]) == Joined(s) + x
  {
    Front(s, x);
  }

  function ColumnCall(ds: seq<Delta>, i: nat): ToolCall {
    var c := Column(ds, i);
    ToolCall(LastNonEmpty(Ids(c)), LastNonEmpty(Names(c)), Joined(Arguments(c)))
  }

  lemma ColumnCallSnoc(ds: seq<Delta>, d: Delta, i: nat)
    ensures ColumnCall(ds + [d], i) == MergeCall(ColumnCall(ds, i), CallAt(Slots(d.toolCalls), i))
  {
    var c, last := Column(ds, i), CallAt(Slots(d.toolCalls), i);
    ColumnSnoc(ds, d, i);
    LastNonEmptySnoc(Ids(c), last.id);
    LastNonEmptySnoc(Names(c), last.name);
    LastNonEmptySnoc(Arguments(c), last.arguments);
  }

  lemma ColumnCallOutside(ds: seq<Delta>, i: nat)
    requires forall k :: 0 <= k < |ds| ==> |Slots(ds[k].toolCalls)| <= i
    ensures ColumnCall(ds, i) == NO_CALL
    decreases |ds|
  {
    if ds != [] {
      var n := |ds| - 1;
      ColumnCallOutside(ds[..n], i);
      ColumnCallSnoc(ds[..n], ds[n], i);
      Snoc(ds);
    }
  }

  // After any deltas the content is their contents joined; slot `i` holds the last ID and the last
  // name that are not empty at position `i` and the joined arguments of that position; there are as
  // many slots as the longest delta has, up to the bound; and the usage is the last one reported.
  lemma {:induction false} AccumulatedState(ds: seq<Delta>)
    ensures var s := From(EMPTY, ds);
            && s.content == Joined(Contents(ds))
            && s.usage == LastUsage(ds)
            && IsLargest(|s.toolCalls|, ds)
            && forall i :: 0 <= i < |s.toolCalls| ==> s.toolCalls[i] == ColumnCall(ds, i)
  {
    if ds != [] {
      var n := |ds| - 1;
      var before := From(EMPTY, ds[..n]);
      AccumulatedState(ds[..n]);
      Snoc(ds);
      assert Contents(ds) == Contents(ds[..n]) + [ds[n].content];
      LastNonEmptySnoc(Contents(ds[..n]), ds[n].content);
      AccumulatedSlots(ds[..n], ds[n], before.toolCalls);
    }
  }

  lemma AccumulatedSlots(ds: seq<Delta>, d: Delta, calls: seq<ToolCall>)
    requires IsLargest(|calls|, ds) && forall i :: 0 <= i < |calls| ==> calls[i] == ColumnCall(ds, i)
    ensures var all := MergeCalls(calls, Slots(d.toolCalls));
            && IsLargest(|all|, ds + [d])
            && forall i :: 0 <= i < |all| ==> all[i] == ColumnCall(ds + [d], i)
  {
    var all := MergeCalls(calls, Slots(d.toolCalls));
    LargestSnoc(|calls|, ds, d);
    forall i | 0 <= i < |all|
      ensures all[i] == ColumnCall(ds + [d], i)
    {
      ColumnCallSnoc(ds, d, i);
      if i >= |calls| {
        ColumnCallOutside(ds, i);
      }
    }
  }

  lemma LargestSnoc(n: nat, ds: seq<Delta>, d: Delta)
    requires IsLargest(n, ds)
    ensures IsLargest(Max(n, Min(|d.toolCalls|, 50)), ds + [d])
  {
    var all := ds + [d];
    assert all[|ds|] == d;
    if n > 0 {
      var k :| 0 <= k < |ds| && Min(|ds[k].toolCalls|, 50) == n;
      assert all[k] == ds[k];
    }
  }

  // ---- how the stream is cut does not matter ----

  function MergeDelta(a: Delta, b: Delta): Delta {
    Delta(a.content + b.content, MergeCalls(a.toolCalls, b.toolCalls), if b.usage.Reported? then b.usage else a.usage)
  }

  lemma MergeCallAssoc(a: ToolCall, b: ToolCall, c: ToolCall)
    ensures MergeCall(MergeCall(a, b), c) == MergeCall(a, MergeCall(b, c))
  {
    Assoc3(a.arguments, b.arguments, c.arguments);
  }

  lemma MergeCallsAssoc(a: seq<ToolCall>, b: seq<ToolCall>, c: seq<ToolCall>)
    ensures MergeCalls(MergeCalls(a, b), c) == MergeCalls(a, MergeCalls(b, c))
  {
    var l, r := MergeCalls(MergeCalls(a, b), c), MergeCalls(a, MergeCalls(b, c));
    forall i | 0 <= i < |l|
      ensures l[i] == r[i]
    {
      CallAtMerge(a, b, i);
      CallAtMerge(b, c, i);
      MergeCallAssoc(CallAt(a, i), CallAt(b, i), CallAt(c, i));
    }
  }

  lemma CallAtMerge(a: seq<ToolCall>, b: seq<ToolCall>, i: nat)
    ensures CallAt(MergeCalls(a, b), i) == MergeCall(CallAt(a, i), CallAt(b, i))
  {
  }

  lemma SlotsMerge(a: seq<ToolCall>, b: seq<ToolCall>)
    ensures MergeCalls(Slots(a), Slots(b)) == Slots(MergeCalls(a, b))
  {
    var l, r := MergeCalls(Slots(a), Slots(b)), Slots(MergeCalls(a, b));
    forall i | 0 <= i < |l|
      ensures l[i] == r[i]
    {
      assert CallAt(Slots(a), i) == CallAt(a, i) && CallAt(Slots(b), i) == CallAt(b, i);
    }
  }

  // Two deltas in a row act as their merge.
  lemma TwoDeltasAsOne(s: State, a: Delta, b: Delta)
    ensures Add(Add(s, a), b) == Add(s, MergeDelta(a, b))
  {
    Assoc3(s.content, a.content, b.content);
    MergeCallsAssoc(s.toolCalls, Slots(a.toolCalls), Slots(b.toolCalls));
    SlotsMerge(a.toolCalls, b.toolCalls);
  }

  // A delta cut in two: the text at `p`, the arguments of call `i` at `q[i]`; IDs, names and the
  // number of positions stay with the first part, the usage report with the second.
  function FirstPart(d: Delta, p: nat, q: seq<nat>): Delta
    requires p <= |d.content| && |q| == |d.toolCalls|
    requires forall i :: 0 <= i < |q| ==> q[i] <= |d.toolCalls[i].arguments|
  {
    Delta(d.content[..p],
          seq(|q|, i requires 0 <= i < |q| => d.toolCalls[i].(arguments := d.toolCalls[i].arguments[..q[i]])),
          NoUsage)
  }

  function SecondPart(d: Delta, p: nat, q: seq<nat>): Delta
    requires p <= |d.content| && |q| == |d.toolCalls|
    requires forall i :: 0 <= i < |q| ==> q[i] <= |d.toolCalls[i].arguments|
  {
    Delta(d.content[p..],
          seq(|q|, i requires 0 <= i < |q| => ToolCall("", "", d.toolCalls[i].arguments[q[i]..])),
          d.usage)
  }

  lemma PartsMerge(d: Delta, p: nat, q: seq<nat>)
    requires p <= |d.content| && |q| == |d.toolCalls|
    requires forall i :: 0 <= i < |q| ==> q[i] <= |d.toolCalls[i].arguments|
    ensures MergeDelta(FirstPart(d, p, q), SecondPart(d, p, q)) == d
  {
    SplitAt(d.content, p);
    var a, b := FirstPart(d, p, q), SecondPart(d, p, q);
    forall i | 0 <= i < |q|
      ensures MergeCall(a.toolCalls[i], b.toolCalls[i]) == d.toolCalls[i]
    {
      SplitAt(d.toolCalls[i].arguments, q[i]);
    }
    assert MergeCalls(a.toolCalls, b.toolCalls) == d.toolCalls;
  }

  lemma {:induction false} FromConcat(s: State, a: seq<Delta>, b: seq<Delta>)
    ensures From(s, a + b) == From(From(s, a), b)
    decreases |b|
  {
    if b == [] {
      assert a + b == a;
    } else {
      FromConcat(s, a, b[..|b| - 1]);
      ConcatSnoc(a, b);
      Front(a + b[..|b| - 1], b[|b| - 1]);
    }
  }

  lemma FromOne(s: State, a: Delta)
    ensures From(s, [a]) == Add(s, a)
  {
    assert [a][..0] == [];
  }

  lemma FromPair(s: State, a: Delta, b: Delta)
    ensures From(s, [a, b]) == Add(Add(s, a), b)
  {
    FromOne(s, a);
    assert [a, b][..1] == [a];
  }

  // Cutting a delta anywhere in a stream does not change what is built.
  lemma CuttingIsInvisible(before: seq<Delta>, d: Delta, p: nat, q: seq<nat>, after: seq<Delta>)
    requires p <= |d.content| && |q| == |d.toolCalls|
    requires forall i :: 0 <= i < |q| ==> q[i] <= |d.toolCalls[i].arguments|
    ensures From(EMPTY, before + [FirstPart(d, p, q), SecondPart(d, p, q)] + after) ==
            From(EMPTY, before + [d] + after)
  {
    var a, b := FirstPart(d, p, q), SecondPart(d, p, q);
    var s := From(EMPTY, before);
    FromConcat(EMPTY, before, [a, b]);
    FromConcat(EMPTY, before, [d]);
    FromConcat(EMPTY, before + [a, b], after);
    FromConcat(EMPTY, before + [d], after);
    FromPair(s, a, b);
    FromOne(s, d);
    TwoDeltasAsOne(s, a, b);
    PartsMerge(d, p, q);
    assert From(EMPTY, before + [a, b]) == From(EMPTY, before + [d]);
  }
}
