// Where a history may be cut, said of its messages and not of its groups, and what truncation returns.
module GroupBorders {
  import opened Sequences
  import opened Messages
  import opened HistoryTruncation
  import opened TruncationTheorems

  // Message `c` is a tool message directly after an assistant message with calls, or directly after
  // such a tool message.
  predicate InsideGroup(ms: seq<Message>, c: nat)
    requires c < |ms|
  {
    && c > 0 && ms[c].role == Tool
    && ((ms[c - 1].role == Assistant && ms[c - 1].toolCalls != []) || InsideGroup(ms, c - 1))
  }

  function GroupStart(gs: seq<seq<Message>>, k: nat): nat
    requires k <= |gs|
  {
    |Flatten(gs[..k])|
  }

  lemma {:induction false} InsidePrefix(ms: seq<Message>, n: nat, c: nat)
    requires c < n <= |ms|
    ensures InsideGroup(ms[..n], c) <==> InsideGroup(ms, c)
    decreases c
  {
    if c > 0 {
      InsidePrefix(ms, n, c - 1);
    }
  }

  // A tool message joins the last group exactly if it comes inside a group.
  lemma {:induction false} LastGroupOpens(ms: seq<Message>)
    requires ms != []
    ensures var gs := Groups(ms);
            gs != [] && (OpensGroup(gs[|gs| - 1][0]) <==> OpensGroup(ms[|ms| - 1]) || InsideGroup(ms, |ms| - 1))
    decreases |ms|
  {
    var n := |ms| - 1;
    if n > 0 {
      LastGroupOpens(ms[..n]);
      InsidePrefix(ms, n, n - 1);
    }
  }

  lemma JoinsIffInside(ms: seq<Message>)
    requires ms != []
    ensures var n, gs := |ms| - 1, Groups(ms[..|ms| - 1]);
            Groups(ms) == if InsideGroup(ms, n) then gs[|gs| - 1 := gs[|gs| - 1] + [ms[n]]] else gs + [[ms[n]]]
    ensures InsideGroup(ms, |ms| - 1) ==> Groups(ms[..|ms| - 1]) != []
  {
    var n := |ms| - 1;
    if n > 0 {
      LastGroupOpens(ms[..n]);
      InsidePrefix(ms, n, n - 1);
    }
  }

  ghost predicate IsStart(gs: seq<seq<Message>>, b: nat) {
    exists k :: 0 <= k < |gs| && GroupStart(gs, k) == b
  }

  lemma StartsAppend(gs: seq<seq<Message>>, g: seq<Message>, b: nat)
    ensures IsStart(gs + [g], b) <==> IsStart(gs, b) || b == |Flatten(gs)|
  {
    var all := gs + [g];
    forall k | 0 <= k <= |gs|
      ensures GroupStart(all, k) == if k < |gs| then GroupStart(gs, k) else |Flatten(gs)|
    {
      assert all[..k] == gs[..k];
      assert k == |gs| ==> gs[..k] == gs;
    }
    if k :| 0 <= k < |gs| && GroupStart(gs, k) == b {
      assert GroupStart(all, k) == b;
    }
    assert GroupStart(all, |gs|) == |Flatten(gs)|;
  }

  lemma StartsExtend(gs: seq<seq<Message>>, g: seq<Message>, b: nat)
    requires gs != []
    ensures IsStart(gs[|gs| - 1 := g], b) <==> IsStart(gs, b)
  {
    var all := gs[|gs| - 1 := g];
    forall k | 0 <= k < |gs|
      ensures GroupStart(all, k) == GroupStart(gs, k)
    {
      assert all[..k] == gs[..k];
    }
  }

  ghost predicate HasStart(ms: seq<Message>, b: nat) {
    IsStart(Groups(ms), b)
  }

  lemma HasStartNext(ms: seq<Message>, b: nat)
    requires ms != []
    ensures HasStart(ms, b) <==> HasStart(ms[..|ms| - 1], b) || (b == |ms| - 1 && !InsideGroup(ms, |ms| - 1))
  {
    var n := |ms| - 1;
    var gs := Groups(ms[..n]);
    JoinsIffInside(ms);
    if InsideGroup(ms, n) {
      StartsExtend(gs, gs[|gs| - 1] + [ms[n]], b);
    } else {
      FlattenGroups(ms[..n]);
      StartsAppend(gs, [ms[n]], b);
    }
  }

  // The groups start exactly at the messages that are not inside a group.
  lemma {:induction false} StartsAreBorders(ms: seq<Message>, b: nat)
    ensures HasStart(ms, b) <==> b < |ms| && !InsideGroup(ms, b)
    decreases |ms|
  {
    if ms == [] {
      assert Groups(ms) == [];
    } else {
      var n := |ms| - 1;
      StartsAreBorders(ms[..n], b);
      HasStartNext(ms, b);
      if b < n {
        InsidePrefix(ms, n, b);
      }
    }
  }

  // ---- what truncation returns ----

  // The history from `c` on is the longest end of it that is not cut inside a group and fits, or the
  // shortest such end if none fits.
  ghost predicate IsLongestEnd(history: seq<Message>, max: int, c: nat) {
    && c < |history| && !InsideGroup(history, c)
    && (|history| - c <= max || forall b :: c < b < |history| ==> InsideGroup(history, b))
    && (forall b :: 0 <= b < c && !InsideGroup(history, b) ==> |history| - b > max)
  }

  lemma CutIsLongestEnd(history: seq<Message>, max: int, k: nat)
    requires IsCut(Groups(history), max, k)
    ensures var c := GroupStart(Groups(history), k);
            IsLongestEnd(history, max, c) && history[c..] == Flatten(Groups(history)[k..])
  {
    var gs := Groups(history);
    var c := GroupStart(gs, k);
    StartAndSize(history, k);
    assert IsStart(gs, c);
    StartsAreBorders(history, c);
    forall b | 0 <= b < c && !InsideGroup(history, b)
      ensures |history| - b > max
    {
      StartsAreBorders(history, b);
      var j :| 0 <= j < |gs| && GroupStart(gs, j) == b;
      StartAndSize(history, j);
      StartsGrow(history, k, j);
    }
    if k == |gs| - 1 {
      forall b | c < b < |history|
        ensures InsideGroup(history, b)
      {
        StartsAreBorders(history, b);
        if IsStart(gs, b) {
          var j :| 0 <= j < |gs| && GroupStart(gs, j) == b;
          StartsGrow(history, j, k);
        }
      }
    }
  }

  lemma StartAndSize(history: seq<Message>, k: nat)
    requires k < |Groups(history)|
    ensures var gs := Groups(history);
            && GroupStart(gs, k) + SizeFrom(gs, k) == |history|
            && GroupStart(gs, k) < |history| && history[GroupStart(gs, k)..] == Flatten(gs[k..])
  {
    var gs := Groups(history);
    FlattenGroups(history);
    FlattenConcat(gs[..k], gs[k..]);
    SplitAt(gs, k);
    FlattenFrom(gs, k);
  }

  // Later groups start later.
  lemma StartsGrow(history: seq<Message>, k: nat, j: nat)
    requires k < |Groups(history)| && j < |Groups(history)|
    ensures k <= j ==> GroupStart(Groups(history), k) <= GroupStart(Groups(history), j)
  {
    var gs := Groups(history);
    if k <= j {
      FlattenConcat(gs[..k], gs[k..j]);
      assert gs[..j] == gs[..k] + gs[k..j];
    }
  }

  // A history that does not fit is truncated to its longest end that fits, not cut inside a group; the
  // first message is put back in front exactly if it is a compression summary and the end does not
  // start with one.
  lemma TruncationReturnsLongestEnd(history: seq<Message>, max: int, result: seq<Message>) returns (c: nat)
    requires Truncated(history, max, result)
    ensures max <= 0 || |history| <= max ==> result == history
    ensures 0 < max < |history| ==>
            && IsLongestEnd(history, max, c)
            && result == if history[0].name == "context_compression" && history[c].name != "context_compression"
                         then [history[0]] + history[c..] else history[c..]
  {
    c := 0;
    if 0 < max < |history| {
      var k: nat :| IsCut(Groups(history), max, k) &&
                    result == WithSummary(history, Flatten(Groups(history)[k..]));
      CutIsLongestEnd(history, max, k);
      c := GroupStart(Groups(history), k);
    }
  }

  // The longest end is unique.
  lemma LongestEndIsUnique(history: seq<Message>, max: int, c: nat, d: nat)
    requires IsLongestEnd(history, max, c) && IsLongestEnd(history, max, d)
    ensures c == d
  {
  }
}
