// internal/adapter/embedding/cached.go: CachedEmbedder used by many callers at once.
//
// A hit reads the map under the read lock, releases it, and only then moves the element to the back
// under the write lock; by then another caller may have evicted it. Each section under a lock, the
// inner call and the final read of the vector is one step; a run is any interleaving.
module EmbeddingRaces {
  import opened Embeddings
  import opened Recency

  datatype Entry = Entry(key: Key, vec: Vector)

  datatype Caller =
    | Hit(text: string, elem: nat)
    | Promoted(text: string, elem: nat)
    | Missed(text: string)
    | Embedded(text: string, vec: Vector)
    | Returned(text: string, vec: Vector)
    | GaveUp(text: string)

  // `entries` holds every list element ever made; `order` lists the ones in the list.
  datatype State = State(entries: map<nat, Entry>, cache: map<Key, nat>, order: seq<nat>, callers: map<nat, Caller>)

  // `texts` are the texts that are ever embedded.
  datatype Config = Config(inner: string -> Vector, hash: string -> Key, maxSize: nat, texts: set<string>)

  const INITIAL := State(map[], map[], [], map[])

  datatype Step =
    | Lookup(t: nat, text: string)
    | Promote(t: nat)
    | ReadVector(t: nat)
    | CallInner(t: nat, succeeds: bool)
    | Put(t: nat, unused: nat)

  // container/list: MoveToBack does nothing to an element that is no longer in the list.
  function MoveToBack(order: seq<nat>, e: nat): seq<nat> {
    if e in order then Touch(order, e) else order
  }

  predicate Enabled(c: Config, s: State, step: Step) {
    match step
    case Lookup(t, text) => t !in s.callers && text in c.texts
    case Promote(t) => t in s.callers && s.callers[t].Hit?
    case ReadVector(t) => t in s.callers && s.callers[t].Promoted? && s.callers[t].elem in s.entries
    case CallInner(t, _) => t in s.callers && s.callers[t].Missed?
    case Put(t, unused) =>
      && t in s.callers && s.callers[t].Embedded?
      && var key := c.hash(s.callers[t].text);
         if key in s.cache then s.cache[key] in s.entries
         else unused !in s.entries && (|s.order| >= c.maxSize ==> s.order != [] && s.order[0] in s.entries)
  }

  function Store(c: Config, s: State, key: Key, vec: Vector, unused: nat): State
    requires key !in s.cache ==> |s.order| >= c.maxSize ==> s.order != [] && s.order[0] in s.entries
    requires key in s.cache ==> s.cache[key] in s.entries
  {
    if key in s.cache then
      var e := s.cache[key];
      s.(entries := s.entries[e := Entry(s.entries[e].key, vec)], order := MoveToBack(s.order, e))
    else
      var s1 := MakeRoom(c, s);
      s1.(entries := s1.entries[unused := Entry(key, vec)], cache := s1.cache[key := unused], order := s1.order + [unused])
  }

  function MakeRoom(c: Config, s: State): State
    requires |s.order| >= c.maxSize ==> s.order != [] && s.order[0] in s.entries
  {
    if |s.order| >= c.maxSize
    then s.(cache := s.cache - {s.entries[s.order[0]].key}, order := s.order[1..])
    else s
  }

  function Apply(c: Config, s: State, step: Step): State
    requires Enabled(c, s, step)
  {
    match step
    case Lookup(t, text) =>
      s.(callers := s.callers[t := if c.hash(text) in s.cache then Hit(text, s.cache[c.hash(text)]) else Missed(text)])
    case Promote(t) =>
      s.(order := MoveToBack(s.order, s.callers[t].elem),
         callers := s.callers[t := Promoted(s.callers[t].text, s.callers[t].elem)])
    case ReadVector(t) =>
      s.(callers := s.callers[t := Returned(s.callers[t].text, s.entries[s.callers[t].elem].vec)])
    case CallInner(t, succeeds) =>
      var text := s.callers[t].text;
      s.(callers := s.callers[t := if succeeds then Embedded(text, c.inner(text)) else GaveUp(text)])
    case Put(t, unused) =>
      var caller := s.callers[t];
      var s1 := Store(c, s, c.hash(caller.text), caller.vec, unused);
      s1.(callers := s1.callers[t := Returned(caller.text, caller.vec)])
  }

  ghost predicate IsRun(c: Config, ss: seq<State>, steps: seq<Step>) {
    |ss| == |steps| + 1 && forall i :: 0 <= i < |steps| ==> Follows(c, ss, steps, i)
  }

  ghost predicate Follows(c: Config, ss: seq<State>, steps: seq<Step>, i: nat)
    requires |ss| == |steps| + 1 && i < |steps|
  {
    Enabled(c, ss[i], steps[i]) && ss[i + 1] == Apply(c, ss[i], steps[i])
  }

  // ---- the map and the list stay in step ----

  predicate Linked(s: State, e: nat) {
    e in s.entries && s.entries[e].key in s.cache && s.cache[s.entries[e].key] == e
  }

  ghost predicate Consistent(c: Config, s: State) {
    && Distinct(s.order)
    && (forall e :: e in s.order ==> Linked(s, e))
    && (forall k :: k in s.cache ==> s.cache[k] in s.order && s.cache[k] in s.entries && s.entries[s.cache[k]].key == k)
    && |s.order| <= c.maxSize
  }

  lemma MovedBack(order: seq<nat>, e: nat)
    requires Distinct(order)
    ensures Distinct(MoveToBack(order, e)) && |MoveToBack(order, e)| == |order|
    ensures forall x :: x in MoveToBack(order, e) <==> x in order
  {
    TouchFacts(order, e);
    if e in order {
      forall x
        ensures x in Touch(order, e) <==> x in order
      {
      }
    }
  }

  lemma MakeRoomConsistent(c: Config, s: State)
    requires Consistent(c, s) && c.maxSize > 0
    ensures |s.order| >= c.maxSize ==> s.order != [] && s.order[0] in s.entries
    ensures Consistent(c, MakeRoom(c, s)) && |MakeRoom(c, s).order| < c.maxSize
    ensures forall e :: e in MakeRoom(c, s).order ==> e in s.order
    ensures forall k :: k in MakeRoom(c, s).cache ==> k in s.cache
  {
    if |s.order| >= c.maxSize {
      var e := s.order[0];
      assert Linked(s, e);
      assert s.order == [e] + s.order[1..];
      assert forall x :: x in s.order <==> x == e || x in s.order[1..];
      assert e !in s.order[1..];
      var r := MakeRoom(c, s);
      forall x | x in r.order
        ensures Linked(r, x)
      {
        assert Linked(s, x);
      }
    }
  }

  lemma StoreConsistent(c: Config, s: State, key: Key, vec: Vector, unused: nat)
    requires Consistent(c, s) && c.maxSize > 0 && unused !in s.entries
    ensures key !in s.cache ==> |s.order| >= c.maxSize ==> s.order != [] && s.order[0] in s.entries
    ensures key in s.cache ==> s.cache[key] in s.entries
    ensures Consistent(c, Store(c, s, key, vec, unused))
  {
    MakeRoomConsistent(c, s);
    var r := Store(c, s, key, vec, unused);
    if key in s.cache {
      StoreExisting(c, s, key, vec, unused);
    } else {
      InsertConsistent(c, MakeRoom(c, s), key, vec, unused);
    }
  }

  lemma StoreExisting(c: Config, s: State, key: Key, vec: Vector, unused: nat)
    requires Consistent(c, s) && key in s.cache
    ensures s.cache[key] in s.entries && Consistent(c, Store(c, s, key, vec, unused))
  {
    var r := Store(c, s, key, vec, unused);
    MovedBack(s.order, s.cache[key]);
    forall e | e in r.order
      ensures Linked(r, e)
    {
      assert Linked(s, e);
    }
  }

  lemma InsertConsistent(c: Config, s: State, key: Key, vec: Vector, unused: nat)
    requires Consistent(c, s) && |s.order| < c.maxSize && key !in s.cache && unused !in s.entries
    ensures Consistent(c, s.(entries := s.entries[unused := Entry(key, vec)], cache := s.cache[key := unused],
                             order := s.order + [unused]))
  {
    var r := s.(entries := s.entries[unused := Entry(key, vec)], cache := s.cache[key := unused],
                order := s.order + [unused]);
    assert unused !in s.order by {
      assert unused in s.order ==> Linked(s, unused);
    }
    assert forall e :: e in r.order <==> e in s.order || e == unused;
    forall e | e in r.order
      ensures Linked(r, e)
    {
      assert e in s.order ==> Linked(s, e);
    }
  }

  lemma ConsistentNext(c: Config, s: State, step: Step)
    requires Consistent(c, s) && c.maxSize > 0 && Enabled(c, s, step)
    ensures Consistent(c, Apply(c, s, step))
  {
    match step
    case Lookup(_, _) => SameCache(c, s, Apply(c, s, step));
    case Promote(t) => PromoteConsistent(c, s, t);
    case ReadVector(_) => SameCache(c, s, Apply(c, s, step));
    case CallInner(_, _) => SameCache(c, s, Apply(c, s, step));
    case Put(t, unused) =>
      var caller := s.callers[t];
      if c.hash(caller.text) in s.cache {
        StoreExisting(c, s, c.hash(caller.text), caller.vec, unused);
      } else {
        StoreConsistent(c, s, c.hash(caller.text), caller.vec, unused);
      }
      SameCache(c, Store(c, s, c.hash(caller.text), caller.vec, unused), Apply(c, s, step));
  }

  lemma SameCache(c: Config, s: State, s': State)
    requires Consistent(c, s) && s'.entries == s.entries && s'.cache == s.cache && s'.order == s.order
    ensures Consistent(c, s')
  {
    forall e | e in s'.order
      ensures Linked(s', e)
    {
      assert Linked(s, e);
    }
  }

  lemma PromoteConsistent(c: Config, s: State, t: nat)
    requires Consistent(c, s) && Enabled(c, s, Promote(t))
    ensures Consistent(c, Apply(c, s, Promote(t)))
  {
    var s' := Apply(c, s, Promote(t));
    MovedBack(s.order, s.callers[t].elem);
    forall e | e in s'.order
      ensures Linked(s', e)
    {
      assert Linked(s, e);
    }
  }

  // ---- what callers get ----

  // No two texts of the run share a hash, unless their embeddings agree anyway.
  ghost predicate HashesAgree(c: Config) {
    forall x, y :: x in c.texts && y in c.texts && c.hash(x) == c.hash(y) ==> c.inner(x) == c.inner(y)
  }

  ghost predicate VectorOk(c: Config, en: Entry) {
    forall x :: x in c.texts && c.hash(x) == en.key ==> en.vec == c.inner(x)
  }

  ghost predicate CallerOk(c: Config, s: State, caller: Caller) {
    && caller.text in c.texts
    && (caller.Hit? || caller.Promoted? ==> caller.elem in s.entries && s.entries[caller.elem].key == c.hash(caller.text))
    && (caller.Embedded? || caller.Returned? ==> caller.vec == c.inner(caller.text))
  }

  ghost predicate Faithful(c: Config, s: State) {
    && (forall e :: e in s.entries ==> VectorOk(c, s.entries[e]))
    && (forall t :: t in s.callers ==> CallerOk(c, s, s.callers[t]))
  }

  // Elements are never freed, and keep their key.
  lemma EntriesKept(c: Config, s: State, step: Step, e: nat)
    requires Enabled(c, s, step) && e in s.entries
    ensures e in Apply(c, s, step).entries && Apply(c, s, step).entries[e].key == s.entries[e].key
  {
  }

  lemma VectorNext(c: Config, s: State, step: Step, e: nat)
    requires HashesAgree(c) && Consistent(c, s) && Faithful(c, s) && Enabled(c, s, step)
    requires e in Apply(c, s, step).entries
    ensures VectorOk(c, Apply(c, s, step).entries[e])
  {
    if e in s.entries {
      assert VectorOk(c, s.entries[e]);
    }
    if step.Put? {
      assert CallerOk(c, s, s.callers[step.t]);
    }
  }

  lemma CallerNext(c: Config, s: State, step: Step, t: nat)
    requires Consistent(c, s) && Faithful(c, s) && Enabled(c, s, step)
    requires t in Apply(c, s, step).callers
    ensures CallerOk(c, Apply(c, s, step), Apply(c, s, step).callers[t])
  {
    if t in s.callers {
      assert CallerOk(c, s, s.callers[t]);
      if s.callers[t].Hit? || s.callers[t].Promoted? {
        assert VectorOk(c, s.entries[s.callers[t].elem]);
        EntriesKept(c, s, step, s.callers[t].elem);
      }
    }
  }

  lemma FaithfulNext(c: Config, s: State, step: Step)
    requires HashesAgree(c) && Consistent(c, s) && Faithful(c, s) && Enabled(c, s, step)
    ensures Faithful(c, Apply(c, s, step))
  {
    var s' := Apply(c, s, step);
    forall e | e in s'.entries
      ensures VectorOk(c, s'.entries[e])
    {
      VectorNext(c, s, step, e);
    }
    forall t | t in s'.callers
      ensures CallerOk(c, s', s'.callers[t])
    {
      CallerNext(c, s, step, t);
    }
  }

  // In every interleaving the map and the list hold the same elements, at most maxSize of them.
  lemma {:induction false} AlwaysConsistent(c: Config, ss: seq<State>, steps: seq<Step>, i: nat)
    requires IsRun(c, ss, steps) && ss[0] == INITIAL && c.maxSize > 0 && i < |ss|
    ensures Consistent(c, ss[i])
    decreases i
  {
    if i > 0 {
      AlwaysConsistent(c, ss, steps, i - 1);
      assert Follows(c, ss, steps, i - 1);
      ConsistentNext(c, ss[i - 1], steps[i - 1]);
    }
  }

  lemma {:induction false} AlwaysFaithful(c: Config, ss: seq<State>, steps: seq<Step>, i: nat)
    requires IsRun(c, ss, steps) && ss[0] == INITIAL && c.maxSize > 0 && i < |ss| && HashesAgree(c)
    ensures Faithful(c, ss[i])
    decreases i
  {
    if i > 0 {
      AlwaysFaithful(c, ss, steps, i - 1);
      AlwaysConsistent(c, ss, steps, i - 1);
      assert Follows(c, ss, steps, i - 1);
      FaithfulNext(c, ss[i - 1], steps[i - 1]);
    }
  }

  // Whatever is returned, from the cache or not, is the inner provider's embedding of the text.
  lemma ReturnsInnerEmbedding(c: Config, ss: seq<State>, steps: seq<Step>, i: nat, t: nat)
    requires IsRun(c, ss, steps) && ss[0] == INITIAL && c.maxSize > 0 && i < |ss| && HashesAgree(c)
    requires t in ss[i].callers && ss[i].callers[t].Returned?
    ensures ss[i].callers[t].vec == c.inner(ss[i].callers[t].text)
  {
    AlwaysFaithful(c, ss, steps, i);
    assert CallerOk(c, ss[i], ss[i].callers[t]);
  }

  // A caller can always take its next step.
  lemma CallersNeverStuck(c: Config, s: State, t: nat, unused: nat)
    requires Consistent(c, s) && Faithful(c, s) && c.maxSize > 0 && t in s.callers && unused !in s.entries
    ensures match s.callers[t]
            case Hit(_, _) => Enabled(c, s, Promote(t))
            case Promoted(_, _) => Enabled(c, s, ReadVector(t))
            case Missed(_) => Enabled(c, s, CallInner(t, true)) && Enabled(c, s, CallInner(t, false))
            case Embedded(_, _) => Enabled(c, s, Put(t, unused))
            case Returned(_, _) => true
            case GaveUp(_) => true
  {
    assert CallerOk(c, s, s.callers[t]);
    if |s.order| >= c.maxSize {
      assert Linked(s, s.order[0]);
    }
  }

  // Anyone can look a text up, at any time. A text whose key is cached is a hit, on the element that
  // the map and the list hold for it, and is answered without asking the inner provider; any other text
  // is a miss. Looking up changes nothing else.
  lemma CachedIsHit(c: Config, ss: seq<State>, steps: seq<Step>, i: nat, t: nat, text: string)
    requires IsRun(c, ss, steps) && ss[0] == INITIAL && c.maxSize > 0 && i < |ss| && t !in ss[i].callers && text in c.texts
    ensures Enabled(c, ss[i], Lookup(t, text))
    ensures var s, s' := ss[i], Apply(c, ss[i], Lookup(t, text));
            && s'.cache == s.cache && s'.order == s.order && s'.entries == s.entries && t in s'.callers
            && s'.callers == s.callers[t := s'.callers[t]]
            && s'.callers[t].text == text
            && (c.hash(text) in s.cache ==>
                  && s'.callers[t].Hit? && s'.callers[t].elem in s.order
                  && s'.callers[t].elem in s.entries && s.entries[s'.callers[t].elem].key == c.hash(text))
            && (c.hash(text) !in s.cache ==> s'.callers[t].Missed?)
  {
    AlwaysConsistent(c, ss, steps, i);
  }

  // A caller that has embedded a text leaves its key cached, as the most recently used one.
  lemma PutIsCached(c: Config, s: State, t: nat, unused: nat)
    requires Consistent(c, s) && c.maxSize > 0 && Enabled(c, s, Put(t, unused))
    ensures var s', key := Apply(c, s, Put(t, unused)), c.hash(s.callers[t].text);
            && key in s'.cache && s'.order != [] && s'.order[|s'.order| - 1] == s'.cache[key]
            && s'.cache[key] in s'.entries && s'.entries[s'.cache[key]].vec == s.callers[t].vec
            && s'.callers[t] == Returned(s.callers[t].text, s.callers[t].vec)
  {
    var key := c.hash(s.callers[t].text);
    if key in s.cache {
      assert s.cache[key] in s.order;
    }
  }

  // ---- evicted elements stay out ----

  lemma OutNext(c: Config, s: State, step: Step, e: nat)
    requires Consistent(c, s) && c.maxSize > 0 && Enabled(c, s, step) && e in s.entries && e !in s.order
    ensures e in Apply(c, s, step).entries && e !in Apply(c, s, step).order
  {
    EntriesKept(c, s, step, e);
    match step
    case Lookup(_, _) =>
    case Promote(t) => MovedBack(s.order, s.callers[t].elem);
    case ReadVector(_) =>
    case CallInner(_, _) =>
    case Put(t, unused) =>
      if c.hash(s.callers[t].text) in s.cache {
        MovedBack(s.order, s.cache[c.hash(s.callers[t].text)]);
      } else {
        MakeRoomConsistent(c, s);
        assert e !in MakeRoom(c, s).order + [unused];
      }
  }

  // An element that was evicted while a hit still held on to it is never put back into the list.
  lemma {:induction false} EvictedStaysOut(c: Config, ss: seq<State>, steps: seq<Step>, i: nat, j: nat, e: nat)
    requires IsRun(c, ss, steps) && ss[0] == INITIAL && c.maxSize > 0 && i <= j < |ss|
    requires e in ss[i].entries && e !in ss[i].order
    ensures e in ss[j].entries && e !in ss[j].order
    decreases j
  {
    if i < j {
      EvictedStaysOut(c, ss, steps, i, j - 1, e);
      AlwaysConsistent(c, ss, steps, j - 1);
      assert Follows(c, ss, steps, j - 1);
      OutNext(c, ss[j - 1], steps[j - 1], e);
    }
  }
}
