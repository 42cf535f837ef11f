// internal/usecase/context_builder.go: grouping messages and truncating history.
module HistoryTruncation {
  import opened Sequences
  import opened Messages

  // The name that marks the summary a compression leaves (internal/usecase/compressor.go:123).
  const SUMMARY_NAME := "context_compression"

  // ---- what grouping and truncation mean ----

  predicate OpensGroup(m: Message) {
    m.role == Assistant && |m.toolCalls| > 0
  }

  function AddToGroups(gs: seq<seq<Message>>, m: Message): seq<seq<Message>> {
    var k := |gs| - 1;
    if IsTool(m) && gs != [] && gs[k] != [] && OpensGroup(gs[k][0]) then gs[k := gs[k] + [m]] else gs + [[m]]
  }

  // An assistant message with calls forms a group with the tool messages directly after it; every
  // other message is a group of its own.
  function Groups(ms: seq<Message>): (gs: seq<seq<Message>>)
    ensures forall i :: 0 <= i < |gs| ==> gs[i] != []
  {
    if ms == [] then [] else AddToGroups(Groups(ms[..|ms| - 1]), ms[|ms| - 1])
  }

  function Flatten(gs: seq<seq<Message>>): seq<Message> {
    if gs == [] then [] else Flatten(gs[..|gs| - 1]) + gs[|gs| - 1]
  }

  // From `k` on the groups fit into `max` messages, or only the last group is left; no longer
  // group-aligned suffix fits.
  ghost predicate IsCut(gs: seq<seq<Message>>, max: int, k: nat) {
    && k < |gs|
    && (SizeFrom(gs, k) <= max || k == |gs| - 1)
    && (forall j :: 0 <= j < k ==> SizeFrom(gs, j) > max)
  }

  function SizeFrom(gs: seq<seq<Message>>, k: nat): nat
    requires k <= |gs|
  {
    |Flatten(gs[k..])|
  }

  predicate ReAddsSummary(history: seq<Message>, body: seq<Message>) {
    history != [] && history[0].name == SUMMARY_NAME && (body == [] || body[0].name != SUMMARY_NAME)
  }

  function WithSummary(history: seq<Message>, body: seq<Message>): seq<Message> {
    if ReAddsSummary(history, body) then [history[0]] + body else body
  }

  ghost predicate Truncated(history: seq<Message>, max: int, result: seq<Message>) {
    if max <= 0 || |history| <= max then result == history
    else exists k: nat :: IsCut(Groups(history), max, k) && result == WithSummary(history, Flatten(Groups(history)[k..]))
  }

  // ---- the code ----

  method GroupMessages(msgs: seq<Message>) returns (groups: seq<seq<Message>>)
    ensures groups == Groups(msgs)
  {
    groups := [];
    var i := 0;
    while i < |msgs|
      invariant 0 <= i <= |msgs|
      invariant groups == Groups(msgs[..i])
      invariant i > 0 ==> groups != [] && groups[|groups| - 1] != []
      invariant i < |msgs| && IsTool(msgs[i]) && i > 0 ==> !OpensGroup(groups[|groups| - 1][0])
    {
      var msg := msgs[i];
      GroupsStart(msgs, i, groups);
      if OpensGroup(msg) {
        var group := [msg];
        var j := i + 1;
        while j < |msgs| && IsTool(msgs[j])
          invariant i < j <= |msgs|
          invariant group != [] && group[0] == msg
          invariant Groups(msgs[..j]) == groups + [group]
        {
          GroupsExtend(msgs, j, groups, group);
          group := group + [msgs[j]];
          j := j + 1;
        }
        groups := groups + [group];
        i := j;
      } else {
        groups := groups + [[msg]];
        i := i + 1;
      }
    }
    assert msgs[..i] == msgs;
  }

  lemma GroupsNext(msgs: seq<Message>, i: nat)
    requires i < |msgs|
    ensures Groups(msgs[..i + 1]) == AddToGroups(Groups(msgs[..i]), msgs[i])
    ensures i > 0 ==> Groups(msgs[..i]) != []
  {
    assert msgs[..i + 1][..i] == msgs[..i];
  }

  lemma GroupsStart(msgs: seq<Message>, i: nat, groups: seq<seq<Message>>)
    requires i < |msgs| && groups == Groups(msgs[..i])
    requires IsTool(msgs[i]) && i > 0 ==> !OpensGroup(groups[|groups| - 1][0])
    ensures Groups(msgs[..i + 1]) == groups + [[msgs[i]]]
  {
    GroupsNext(msgs, i);
  }

  lemma GroupsExtend(msgs: seq<Message>, j: nat, groups: seq<seq<Message>>, group: seq<Message>)
    requires j < |msgs| && IsTool(msgs[j]) && group != [] && OpensGroup(group[0])
    requires Groups(msgs[..j]) == groups + [group]
    ensures Groups(msgs[..j + 1]) == groups + [group + [msgs[j]]]
  {
    GroupsNext(msgs, j);
    assert (groups + [group])[|groups| := group + [msgs[j]]] == groups + [group + [msgs[j]]];
  }

  method TruncateHistory(history: seq<Message>, maxMessages: int) returns (result: seq<Message>)
    ensures Truncated(history, maxMessages, result)
  {
    if maxMessages <= 0 || |history| <= maxMessages {
      return history;
    }
    var groups := GroupMessages(history);
    FlattenGroups(history);
    var kept, k := KeepFromEnd(groups, maxMessages);
    kept := Reverse(kept);
    assert kept == groups[k..];
    result := FlattenAll(kept);
    if |history| > 0 && history[0].name == SUMMARY_NAME {
      if |result| == 0 || result[0].name != SUMMARY_NAME {
        result := [history[0]] + result;
      }
    }
  }

  // Keeps groups from the end until the budget would be exceeded; the last group is always kept.
  method KeepFromEnd(groups: seq<seq<Message>>, maxMessages: int) returns (kept: seq<seq<Message>>, k: nat)
    requires groups != [] && maxMessages > 0
    requires forall i :: 0 <= i < |groups| ==> groups[i] != []
    ensures IsCut(groups, maxMessages, k)
    ensures |kept| == |groups| - k && forall x :: 0 <= x < |kept| ==> kept[x] == groups[|groups| - 1 - x]
  {
    kept := [];
    var total := 0;
    var i := |groups| - 1;
    while i >= 0
      invariant -1 <= i < |groups|
      invariant |kept| == |groups| - 1 - i && forall x :: 0 <= x < |kept| ==> kept[x] == groups[|groups| - 1 - x]
      invariant total == SizeFrom(groups, i + 1)
      invariant total > 0 <==> i < |groups| - 1
      invariant total <= maxMessages || i == |groups| - 2
    {
      var groupLen := |groups[i]|;
      FlattenFrom(groups, i);
      if total + groupLen > maxMessages && total > 0 {
        break;
      }
      kept := kept + [groups[i]];
      total := total + groupLen;
      i := i - 1;
    }
    k := i + 1;
    if i >= 0 {
      SuffixesGrow(groups, i);
    }
  }

  method Reverse<T>(items: seq<T>) returns (kept: seq<T>)
    ensures |kept| == |items| && forall x :: 0 <= x < |kept| ==> kept[x] == items[|items| - 1 - x]
  {
    kept := items;
    var i, j := 0, |kept| - 1;
    while i < j
      invariant 0 <= i <= j + 1 && i + j == |items| - 1
      invariant |kept| == |items|
      invariant forall x :: 0 <= x < i || j < x < |items| ==> kept[x] == items[|items| - 1 - x]
      invariant forall x :: i <= x <= j ==> kept[x] == items[x]
    {
      kept := kept[i := kept[j]][j := kept[i]];
      i, j := i + 1, j - 1;
    }
  }

  method FlattenAll(groups: seq<seq<Message>>) returns (result: seq<Message>)
    ensures result == Flatten(groups)
  {
    result := [];
    for i := 0 to |groups|
      invariant result == Flatten(groups[..i])
    {
      assert groups[..i + 1][..i] == groups[..i];
      result := result + groups[i];
    }
    assert groups[..|groups|] == groups;
  }

  // ---- grouping loses nothing ----

  lemma FlattenAppend(gs: seq<seq<Message>>, g: seq<Message>)
    ensures Flatten(gs + [g]) == Flatten(gs) + g
  {
    Front(gs, g);
  }

  lemma {:induction false} FlattenConcat(a: seq<seq<Message>>, b: seq<seq<Message>>)
    ensures Flatten(a + b) == Flatten(a) + Flatten(b)
    decreases |b|
  {
    if b == [] {
      assert a + b == a;
    } else {
      var n := |b| - 1;
      FlattenConcat(a, b[..n]);
      FlattenAppend(a + b[..n], b[n]);
      ConcatSnoc(a, b);
      Assoc3(Flatten(a), Flatten(b[..n]), b[n]);
    }
  }

  lemma FlattenFrom(gs: seq<seq<Message>>, i: nat)
    requires i < |gs|
    ensures Flatten(gs[i..]) == gs[i] + Flatten(gs[i + 1..])
  {
    assert gs[i..] == [gs[i]] + gs[i + 1..];
    FlattenConcat([gs[i]], gs[i + 1..]);
    FlattenAppend([], gs[i]);
    assert [] + [gs[i]] == [gs[i]] && [] + gs[i] == gs[i];
  }

  lemma {:induction false} SuffixesGrow(gs: seq<seq<Message>>, i: nat)
    requires i < |gs|
    ensures forall j :: 0 <= j <= i ==> SizeFrom(gs, j) >= SizeFrom(gs, i)
  {
    if i > 0 {
      SuffixesGrow(gs, i - 1);
      FlattenFrom(gs, i - 1);
    }
  }

  lemma FlattenExtendLast(gs: seq<seq<Message>>, m: Message)
    requires gs != []
    ensures Flatten(gs[|gs| - 1 := gs[|gs| - 1] + [m]]) == Flatten(gs) + [m]
  {
    var k := |gs| - 1;
    assert gs[k := gs[k] + [m]][..k] == gs[..k];
    Assoc3(Flatten(gs[..k]), gs[k], [m]);
  }

  lemma {:induction false} FlattenGroups(ms: seq<Message>)
    ensures Flatten(Groups(ms)) == ms
    ensures ms != [] ==> Groups(ms) != []
  {
    if ms != [] {
      var n := |ms| - 1;
      FlattenGroups(ms[..n]);
      var gs, k := Groups(ms[..n]), |Groups(ms[..n])| - 1;
      Snoc(ms);
      if IsTool(ms[n]) && gs != [] && OpensGroup(gs[k][0]) {
        FlattenExtendLast(gs, ms[n]);
      } else {
        FlattenAppend(gs, [ms[n]]);
      }
    }
  }
}
