// Lists kept in order of last use: the most recently used element is at the back.
module Recency {
  import opened Sequences

  ghost predicate Distinct<T>(s: seq<T>) {
    forall i, j :: 0 <= i < j < |s| ==> s[i] != s[j]
  }

  function Remove<T(==)>(s: seq<T>, x: T): seq<T> {
    if s == [] then []
    else if s[|s| - 1] == x then s[..|s| - 1]
    else Remove(s[..|s| - 1], x) + [s[|s| - 1]]
  }

  function Touch<T(==)>(s: seq<T>, x: T): seq<T> {
    Remove(s, x) + [x]
  }

  // The distinct elements of a history in the order of their last occurrence.
  function ByLastUse<T(==)>(history: seq<T>): seq<T> {
    if history == [] then [] else Touch(ByLastUse(history[..|history| - 1]), history[|history| - 1])
  }

  function LastN<T>(s: seq<T>, n: nat): seq<T> {
    if |s| <= n then s else s[|s| - n..]
  }

  // ---- removal ----

  lemma {:induction false} RemoveFacts<T>(s: seq<T>, x: T)
    requires Distinct(s)
    ensures Distinct(Remove(s, x))
    ensures forall y :: y in Remove(s, x) <==> y in s && y != x
    ensures |Remove(s, x)| == if x in s then |s| - 1 else |s|
    ensures x !in s ==> Remove(s, x) == s
  {
    if s != [] {
      var n := |s| - 1;
      Snoc(s);
      RemoveFacts(s[..n], x);
      assert forall y :: y in s <==> y in s[..n] || y == s[n];
      assert s[n] !in s[..n];
    }
  }

  lemma TouchFacts<T>(s: seq<T>, x: T)
    requires Distinct(s)
    ensures Distinct(Touch(s, x))
    ensures forall y :: y in Touch(s, x) <==> y in s || y == x
    ensures |Touch(s, x)| == if x in s then |s| else |s| + 1
  {
    RemoveFacts(s, x);
    assert forall y :: y in Touch(s, x) <==> y in Remove(s, x) || y == x;
  }

  lemma TouchMember<T>(s: seq<T>, x: T, y: T)
    requires Distinct(s) && y in Touch(s, x)
    ensures y in s || y == x
  {
    RemoveFacts(s, x);
    assert y in Remove(s, x) || y == x;
  }

  lemma {:induction false} RemoveConcat<T>(a: seq<T>, b: seq<T>, x: T)
    ensures x in b ==> Remove(a + b, x) == a + Remove(b, x)
    ensures x !in b ==> Remove(a + b, x) == Remove(a, x) + b
    decreases |b|
  {
    if b == [] {
      assert a + b == a;
    } else {
      var n := |b| - 1;
      RemoveConcat(a, b[..n], x);
      ConcatSnoc(a, b);
      Front(a + b[..n], b[n]);
      Snoc(b);
      assert x in b <==> x in b[..n] || x == b[n];
      Assoc3(Remove(a, x), b[..n], [b[n]]);
      Assoc3(a, Remove(b[..n], x), [b[n]]);
    }
  }

  lemma {:induction false} ByLastUseDistinct<T>(history: seq<T>)
    ensures Distinct(ByLastUse(history))
    ensures forall x :: x in ByLastUse(history) <==> x in history
  {
    if history != [] {
      var n := |history| - 1;
      ByLastUseDistinct(history[..n]);
      TouchFacts(ByLastUse(history[..n]), history[n]);
      Snoc(history);
      assert forall x :: x in history <==> x in history[..n] || x == history[n];
    }
  }

  // ---- what the order means ----

  // The position of the last occurrence.
  function LastIndex<T(==)>(history: seq<T>, x: T): (i: int)
    requires x in history
    ensures 0 <= i < |history| && history[i] == x && x !in history[i + 1..]
  {
    var n := |history| - 1;
    if history[n] == x then n
    else
      Snoc(history);
      var i := LastIndex(history[..n], x);
      assert history[i + 1..] == history[..n][i + 1..] + [history[n]];
      i
  }

  ghost predicate InOrder<T>(history: seq<T>, s: seq<T>) {
    && (forall i :: 0 <= i < |s| ==> s[i] in history)
    && (forall i, j :: 0 <= i < j < |s| ==> LastIndex(history, s[i]) < LastIndex(history, s[j]))
  }

  lemma LastIndexSnoc<T>(history: seq<T>, y: T, x: T)
    requires x in history || x == y
    ensures x in history + [y]
    ensures LastIndex(history + [y], x) == if x == y then |history| else LastIndex(history, x)
  {
    Front(history, y);
    assert (history + [y])[|history|] == y;
    if x in history {
      assert x in history + [y];
    }
  }

  lemma InOrderAppend<T>(history: seq<T>, s: seq<T>, x: T)
    requires InOrder(history, s) && x in history
    requires forall y :: y in s ==> y in history && LastIndex(history, y) < LastIndex(history, x)
    ensures InOrder(history, s + [x])
  {
    var all := s + [x];
    forall i | 0 <= i < |s|
      ensures all[i] == s[i] && s[i] in s
    {
    }
  }

  lemma InOrderLonger<T>(history: seq<T>, y: T, s: seq<T>)
    requires InOrder(history, s) && y !in s
    ensures InOrder(history + [y], s)
    ensures forall x :: x in s ==> x in history + [y] && LastIndex(history + [y], x) < |history|
  {
    forall x | x in s
      ensures x in history && x in history + [y] && LastIndex(history + [y], x) == LastIndex(history, x)
    {
      LastIndexSnoc(history, y, x);
    }
  }

  lemma {:induction false} RemoveInOrder<T>(history: seq<T>, s: seq<T>, x: T)
    requires InOrder(history, s)
    ensures InOrder(history, Remove(s, x))
    ensures forall y :: y in Remove(s, x) ==> y in s
  {
    if s != [] {
      var n := |s| - 1;
      RemoveInOrder(history, s[..n], x);
      if s[n] != x {
        InOrderAppend(history, Remove(s[..n], x), s[n]);
      }
    }
  }

  // ByLastUse lists exactly the elements of the history, each once, by their last occurrence.
  lemma {:induction false} ByLastUseMeans<T>(history: seq<T>)
    ensures InOrder(history, ByLastUse(history)) && Distinct(ByLastUse(history))
    ensures forall x :: x in history <==> x in ByLastUse(history)
  {
    ByLastUseDistinct(history);
    if history != [] {
      var n := |history| - 1;
      ByLastUseMeans(history[..n]);
      TouchInOrder(history[..n], ByLastUse(history[..n]), history[n]);
      Snoc(history);
    }
  }

  lemma TouchInOrder<T>(history: seq<T>, s: seq<T>, y: T)
    requires InOrder(history, s) && Distinct(s)
    ensures InOrder(history + [y], Touch(s, y))
  {
    RemoveInOrder(history, s, y);
    RemoveFacts(s, y);
    InOrderLonger(history, y, Remove(s, y));
    LastIndexSnoc(history, y, y);
    InOrderAppend(history + [y], Remove(s, y), y);
  }

  // ---- a bounded list ----

  // Using `x` with room for `max` elements: move it to the back, or append it, dropping the front
  // if the list is full.
  function Use<T(==)>(s: seq<T>, x: T, max: nat): seq<T>
    requires max > 0
  {
    if x in s then Touch(s, x) else (if |s| >= max then s[1..] else s) + [x]
  }

  lemma UsePresent<T>(a: seq<T>, b: seq<T>, x: T, max: nat)
    requires Distinct(b) && x in b && (|b| == max || (|b| < max && a == []))
    ensures LastN(Touch(a + b, x), max) == Touch(b, x)
  {
    RemoveConcat(a, b, x);
    RemoveFacts(b, x);
    Assoc3(a, Remove(b, x), [x]);
    LastNOfConcat(a, Touch(b, x), max);
  }

  lemma UseAbsent<T>(a: seq<T>, b: seq<T>, x: T, max: nat)
    requires x !in b && max > 0 && (|b| == max || (|b| < max && a == []))
    ensures LastN(Touch(a + b, x), max) == (if |b| >= max then b[1..] else b) + [x]
  {
    RemoveConcat(a, b, x);
    var rest := Remove(a, x);
    if |b| == max {
      assert rest + b + [x] == (rest + [b[0]]) + (b[1..] + [x]);
      LastNOfConcat(rest + [b[0]], b[1..] + [x], max);
    } else {
      assert rest + b == b;
    }
  }

  // Dropping the least recently used element is exactly what keeping the last `max` distinct
  // elements takes.
  lemma UseKeepsLastN<T>(s: seq<T>, x: T, max: nat)
    requires Distinct(s) && max > 0
    ensures Use(LastN(s, max), x, max) == LastN(Touch(s, x), max)
  {
    var k := if |s| <= max then 0 else |s| - max;
    SplitAt(s, k);
    assert LastN(s, max) == s[k..];
    if x in s[k..] {
      UsePresent(s[..k], s[k..], x, max);
    } else {
      UseAbsent(s[..k], s[k..], x, max);
    }
  }

  lemma LastNOfConcat<T>(a: seq<T>, b: seq<T>, n: nat)
    requires |b| == n || (|b| < n && a == [])
    ensures LastN(a + b, n) == b
  {
  }

  // ---- a larger list holds everything a smaller one does ----

  // A request for `key`; if it is not on the list it is fetched, and that may fail.
  datatype Request<T> = Request(key: T, succeeds: bool)

  function Serve<T(==)>(s: seq<T>, r: Request<T>, max: nat): seq<T>
    requires max > 0
  {
    if r.key in s || r.succeeds then Use(s, r.key, max) else s
  }

  function ServeAll<T(==)>(requests: seq<Request<T>>, max: nat): seq<T>
    requires max > 0
  {
    if requests == [] then []
    else Serve(ServeAll(requests[..|requests| - 1], max), requests[|requests| - 1], max)
  }

  lemma {:induction false} SubsequenceMembers<T>(a: seq<T>, b: seq<T>)
    requires IsSubsequence(a, b)
    ensures forall x :: x in a ==> x in b
    decreases |b|
  {
    if a != [] {
      var m, n := |a| - 1, |b| - 1;
      if a[m] == b[n] && IsSubsequence(a[..m], b[..n]) {
        SubsequenceMembers(a[..m], b[..n]);
        Snoc(a);
      } else {
        SubsequenceMembers(a, b[..n]);
      }
      Snoc(b);
    }
  }

  lemma {:induction false} SubsequenceRemove<T>(a: seq<T>, b: seq<T>, x: T)
    requires IsSubsequence(a, b) && Distinct(a) && Distinct(b)
    ensures IsSubsequence(Remove(a, x), Remove(b, x))
    decreases |b|
  {
    if a != [] {
      var m, n := |a| - 1, |b| - 1;
      if a[m] == b[n] && IsSubsequence(a[..m], b[..n]) {
        SubsequenceRemove(a[..m], b[..n], x);
        if b[n] != x {
          SubsequenceMatch(Remove(a[..m], x), Remove(b[..n], x), b[n]);
        }
      } else {
        SubsequenceRemove(a, b[..n], x);
        if b[n] == x {
          SubsequenceMembers(a, b[..n]);
          RemoveFacts(a, x);
        } else {
          SubsequenceSkip(Remove(a, x), Remove(b[..n], x), b[n]);
        }
      }
    }
  }

  lemma {:induction false} SubsequenceRest<T>(a: seq<T>, b: seq<T>)
    requires IsSubsequence(a, b) && a != []
    ensures IsSubsequence(a[1..], b[1..])
    decreases |b|
  {
    var m, n := |a| - 1, |b| - 1;
    if m > 0 {
      if a[m] == b[n] && IsSubsequence(a[..m], b[..n]) {
        SubsequenceRest(a[..m], b[..n]);
        SubsequenceMatch(a[..m][1..], b[..n][1..], b[n]);
        assert a[..m][1..] + [b[n]] == a[1..];
      } else {
        SubsequenceRest(a, b[..n]);
        SubsequenceSkip(a[1..], b[..n][1..], b[n]);
      }
      assert n > 0 ==> b[..n][1..] + [b[n]] == b[1..];
    }
  }

  lemma {:induction false} SubsequenceDropFirst<T>(a: seq<T>, b: seq<T>)
    requires IsSubsequence(a, b) && a != []
    ensures IsSubsequence(a[1..], b)
    decreases |b|
  {
    var m, n := |a| - 1, |b| - 1;
    Snoc(b);
    if m > 0 {
      if a[m] == b[n] && IsSubsequence(a[..m], b[..n]) {
        SubsequenceDropFirst(a[..m], b[..n]);
        SubsequenceMatch(a[..m][1..], b[..n], b[n]);
        assert a[..m][1..] + [b[n]] == a[1..];
      } else {
        SubsequenceDropFirst(a, b[..n]);
        SubsequenceSkip(a[1..], b[..n], b[n]);
      }
    }
  }

  // The smaller list is the larger one with some elements taken out, and it is all of it until it is full.
  ghost predicate Contained<T>(s: seq<T>, small: nat, l: seq<T>, large: nat) {
    && Distinct(s) && Distinct(l) && |s| <= small && |l| <= large
    && IsSubsequence(s, l) && (|s| == small || s == l)
  }

  lemma UseFacts<T>(s: seq<T>, x: T, max: nat)
    requires Distinct(s) && |s| <= max && max > 0
    ensures Distinct(Use(s, x, max)) && |Use(s, x, max)| <= max
    ensures |Use(s, x, max)| == if x in s || |s| == max then |s| else |s| + 1
  {
    if x in s {
      TouchFacts(s, x);
    }
  }

  lemma FullUse<T>(s: seq<T>, small: nat, l: seq<T>, large: nat, x: T)
    requires Contained(s, small, l, large) && 0 < small <= large && |s| == small
    ensures IsSubsequence(Use(s, x, small), Use(l, x, large))
  {
    SubsequenceMembers(s, l);
    SubsequenceRemove(s, l, x);
    if x in s {
      SubsequenceMatch(Remove(s, x), Remove(l, x), x);
    } else if x in l {
      RemoveFacts(s, x);
      SubsequenceDropFirst(s, Remove(l, x));
      SubsequenceMatch(s[1..], Remove(l, x), x);
    } else if |l| >= large {
      SubsequenceRest(s, l);
      SubsequenceMatch(s[1..], l[1..], x);
    } else {
      SubsequenceDropFirst(s, l);
      SubsequenceMatch(s[1..], l, x);
    }
  }

  lemma UseBoth<T>(s: seq<T>, small: nat, l: seq<T>, large: nat, x: T)
    requires Contained(s, small, l, large) && 0 < small <= large
    ensures Contained(Use(s, x, small), small, Use(l, x, large), large)
  {
    UseFacts(s, x, small);
    UseFacts(l, x, large);
    if |s| == small {
      FullUse(s, small, l, large, x);
    } else {
      SubsequenceRefl(Use(s, x, small));
    }
  }

  // Only the larger list has the key, and the smaller one fails to fetch it.
  lemma UseLarger<T>(s: seq<T>, small: nat, l: seq<T>, large: nat, x: T)
    requires Contained(s, small, l, large) && 0 < small <= large && x in l && x !in s
    ensures Contained(s, small, Use(l, x, large), large)
  {
    UseFacts(l, x, large);
    SubsequenceRemove(s, l, x);
    RemoveFacts(s, x);
    SubsequenceSkip(s, Remove(l, x), x);
  }

  // Two lists that serve the same requests, with the same failures where both have to fetch: the
  // larger one always holds what the smaller one does, in the same order.
  lemma {:induction false} LargerHoldsMore<T>(requests: seq<Request<T>>, small: nat, large: nat)
    requires 0 < small <= large
    ensures Contained(ServeAll(requests, small), small, ServeAll(requests, large), large)
  {
    if requests != [] {
      var n := |requests| - 1;
      LargerHoldsMore(requests[..n], small, large);
      var s, l, r := ServeAll(requests[..n], small), ServeAll(requests[..n], large), requests[n];
      SubsequenceMembers(s, l);
      if r.key in s || r.succeeds {
        UseBoth(s, small, l, large, r.key);
      } else if r.key in l {
        UseLarger(s, small, l, large, r.key);
      }
    }
  }
}
