// internal/adapter/memory/cached.go: CachedMemory used by one caller at a time, and its keys.
// QueryCacheRaces models the interleavings.
module QueryCache {
  import opened Sequences

  // ---- keys ----

  function Digit(d: nat): char
    requires d < 10
  {
    "0123456789"[d]
  }

  function NatText(n: nat): string {
    if n < 10 then [Digit(n)] else NatText(n / 10) + [Digit(n % 10)]
  }

  function IntText(n: int): string {
    if n < 0 then "-" + NatText(-n) else NatText(n)
  }

  // The text that is hashed into a cache key.
  function KeyText(query: string, limit: int): string {
    query + ":" + IntText(limit)
  }

  lemma {:induction false} NatTextDigits(n: nat)
    ensures NatText(n) != "" && forall i :: 0 <= i < |NatText(n)| ==> NatText(n)[i] != ':' && NatText(n)[i] != '-'
  {
    if n >= 10 {
      NatTextDigits(n / 10);
    }
  }

  lemma {:induction false} NatTextInjective(a: nat, b: nat)
    requires NatText(a) == NatText(b)
    ensures a == b
  {
    NatTextDigits(a / 10);
    NatTextDigits(b / 10);
    var s := NatText(a);
    if a >= 10 && b >= 10 {
      SnocInjective(NatText(a / 10), Digit(a % 10), NatText(b / 10), Digit(b % 10));
      NatTextInjective(a / 10, b / 10);
    } else {
      assert a < 10 && b < 10;
      assert s[0] == Digit(a) == Digit(b);
    }
  }

  lemma SnocInjective<T>(a: seq<T>, x: T, b: seq<T>, y: T)
    requires a + [x] == b + [y]
    ensures a == b && x == y
  {
    assert (a + [x])[|a|] == x && (b + [y])[|b|] == y;
    Front(a, x);
    Front(b, y);
  }

  lemma IntTextNoColon(n: int)
    ensures forall i :: 0 <= i < |IntText(n)| ==> IntText(n)[i] != ':'
  {
    NatTextDigits(if n < 0 then -n else n);
  }

  lemma IntTextInjective(a: int, b: int)
    requires IntText(a) == IntText(b)
    ensures a == b
  {
    NatTextDigits(if a < 0 then -a else a);
    NatTextDigits(if b < 0 then -b else b);
    if a < 0 && b < 0 {
      assert IntText(a)[1..] == NatText(-a) && IntText(b)[1..] == NatText(-b);
      NatTextInjective(-a, -b);
    } else if a >= 0 && b >= 0 {
      NatTextInjective(a, b);
    }
    assert a < 0 ==> IntText(a)[0] == '-';
    assert b < 0 ==> IntText(b)[0] == '-';
  }

  // A query may itself contain colons; the last one still separates it from the limit.
  lemma KeyTextInjective(q1: string, l1: int, q2: string, l2: int)
    requires KeyText(q1, l1) == KeyText(q2, l2)
    ensures q1 == q2 && l1 == l2
  {
    LastColon(q1, l1, q2, l2);
    LastColon(q2, l2, q1, l1);
    var s := KeyText(q1, l1);
    assert s[..|q1|] == q1 && s[..|q2|] == q2;
    assert s[|q1| + 1..] == IntText(l1) && s[|q2| + 1..] == IntText(l2);
    IntTextInjective(l1, l2);
  }

  lemma LastColon(q1: string, l1: int, q2: string, l2: int)
    requires KeyText(q1, l1) == KeyText(q2, l2)
    ensures |q2| <= |q1|
  {
    IntTextNoColon(l1);
    var s := KeyText(q1, l1);
    assert s[|q2|] == ':';
    assert forall i :: |q1| < i < |s| ==> s[i] == IntText(l1)[i - |q1| - 1];
  }

  // ---- the inner provider ----

  datatype Op = Store(item: string) | Batch(items: seq<string>) | Delete(id: string) | Curate(messages: seq<string>)

  datatype Reply = Failed | Entries(entries: seq<string>)

  // A deterministic provider: `query` reads its state, `write` gives the next state and success.
  datatype Inner<!Db> = Inner(query: (Db, string, int) -> Reply, write: (Db, Op) -> (Db, bool), storesBatches: bool)

  ghost predicate FailuresChangeNothing<Db(!new)>(inner: Inner<Db>) {
    forall db, op :: !inner.write(db, op).1 ==> inner.write(db, op).0 == db
  }

  // Storing one by one up to the first failure: the state reached and the number stored.
  function StoreEach<Db>(inner: Inner<Db>, db: Db, items: seq<string>): (r: (Db, nat))
    ensures r.1 <= |items|
  {
    if items == [] then (db, 0)
    else
      var n := |items| - 1;
      var (mid, k) := StoreEach(inner, db, items[..n]);
      if k < n then (mid, k)
      else
        var (db', ok) := inner.write(mid, Store(items[n]));
        if ok then (db', n + 1) else (db', n)
  }

  // The items before the first refusal are stored one after the other, the refused one and those
  // after it are not; without a refusal all are stored.
  lemma {:induction false} StoresUpToRefusal<Db>(inner: Inner<Db>, db: Db, items: seq<string>, i: nat)
    requires i < |items|
    ensures var k := StoreEach(inner, db, items).1;
            && (i < k ==>
                  && StoreEach(inner, db, items[..i]).1 == i
                  && inner.write(StoreEach(inner, db, items[..i]).0, Store(items[i])).1
                  && StoreEach(inner, db, items[..i + 1]).0 == inner.write(StoreEach(inner, db, items[..i]).0, Store(items[i])).0)
            && (i == k ==>
                  && StoreEach(inner, db, items[..k]).1 == k
                  && !inner.write(StoreEach(inner, db, items[..k]).0, Store(items[k])).1
                  && StoreEach(inner, db, items).0 == inner.write(StoreEach(inner, db, items[..k]).0, Store(items[k])).0)
    decreases |items|
  {
    var n := |items| - 1;
    if i < n {
      StoresUpToRefusal(inner, db, items[..n], i);
      assert items[..n][..i] == items[..i] && items[..n][..i + 1] == items[..i + 1];
    } else {
      assert items[..i + 1] == items;
    }
  }

  // ---- the cache ----

  datatype Cached = Cached(entries: seq<string>, expiresAt: int)

  datatype Question = Question(text: string, limit: int)

  function KeyOf(digest: string -> string, q: Question): string {
    digest(KeyText(q.text, q.limit))
  }

  // No two of the queries share a digest.
  ghost predicate NoCollisions(digest: string -> string, asked: set<Question>) {
    forall a, b :: a in asked && b in asked && KeyOf(digest, a) == KeyOf(digest, b) ==>
      KeyText(a.text, a.limit) == KeyText(b.text, b.limit)
  }

  // The cached answer is what the inner provider would answer to `q` now, and `q` was asked.
  ghost predicate IsAnswerTo<Db>(inner: Inner<Db>, digest: string -> string, db: Db, k: string, v: Cached, q: Question) {
    KeyOf(digest, q) == k && inner.query(db, q.text, q.limit) == Entries(v.entries)
  }

  ghost predicate Current<Db>(inner: Inner<Db>, digest: string -> string, db: Db, k: string, v: Cached, asked: set<Question>) {
    exists q :: q in asked && IsAnswerTo(inner, digest, db, k, v, q)
  }

  ghost predicate Coherent<Db>(inner: Inner<Db>, digest: string -> string, db: Db, cache: map<string, Cached>,
                               asked: set<Question>) {
    forall k :: k in cache ==> Current(inner, digest, db, k, cache[k], asked)
  }

  lemma HitIsFresh<Db>(inner: Inner<Db>, digest: string -> string, db: Db, cache: map<string, Cached>,
                       asked: set<Question>, q: Question)
    requires Coherent(inner, digest, db, cache, asked) && KeyOf(digest, q) in cache
    requires NoCollisions(digest, asked + {q})
    ensures inner.query(db, q.text, q.limit) == Entries(cache[KeyOf(digest, q)].entries)
  {
    var k := KeyOf(digest, q);
    assert Current(inner, digest, db, k, cache[k], asked);
    var a :| a in asked && IsAnswerTo(inner, digest, db, k, cache[k], a);
    assert a in asked + {q} && q in asked + {q};
    KeyTextInjective(a.text, a.limit, q.text, q.limit);
  }

  lemma MoreAsked<Db>(inner: Inner<Db>, digest: string -> string, db: Db, cache: map<string, Cached>,
                      asked: set<Question>, q: Question)
    requires Coherent(inner, digest, db, cache, asked)
    ensures Coherent(inner, digest, db, cache, asked + {q})
  {
    forall k | k in cache
      ensures Current(inner, digest, db, k, cache[k], asked + {q})
    {
      assert Current(inner, digest, db, k, cache[k], asked);
      var a :| a in asked && IsAnswerTo(inner, digest, db, k, cache[k], a);
      assert a in asked + {q};
    }
  }

  lemma Filled<Db>(inner: Inner<Db>, digest: string -> string, db: Db, cache: map<string, Cached>,
                   asked: set<Question>, q: Question, v: Cached)
    requires Coherent(inner, digest, db, cache, asked) && q in asked
    requires IsAnswerTo(inner, digest, db, KeyOf(digest, q), v, q)
    ensures Coherent(inner, digest, db, cache[KeyOf(digest, q) := v], asked)
  {
    assert Current(inner, digest, db, KeyOf(digest, q), v, asked);
  }

  ghost predicate SameAnswers<Db>(inner: Inner<Db>, db: Db, db': Db) {
    forall q: Question :: Same(inner, db, db', q)
  }

  predicate Same<Db>(inner: Inner<Db>, db: Db, db': Db, q: Question) {
    inner.query(db, q.text, q.limit).Entries? ==>
    inner.query(db', q.text, q.limit) == inner.query(db, q.text, q.limit)
  }

  // A change of the provider that does not drop the cache, such as a synchronisation or a batch that
  // fails part-way, keeps every coherent cache coherent exactly when it changes no answer.
  lemma StaysCoherentIff<Db>(inner: Inner<Db>, digest: string -> string, db: Db, db': Db)
    ensures (forall cache, asked :: Coherent(inner, digest, db, cache, asked) ==> Coherent(inner, digest, db', cache, asked))
            <==> SameAnswers(inner, db, db')
  {
    if SameAnswers(inner, db, db') {
      forall cache, asked | Coherent(inner, digest, db, cache, asked)
        ensures Coherent(inner, digest, db', cache, asked)
      {
        UnchangedAnswers(inner, digest, db, db', cache, asked);
      }
    }
    if forall cache, asked :: Coherent(inner, digest, db, cache, asked) ==> Coherent(inner, digest, db', cache, asked) {
      forall q: Question
        ensures Same(inner, db, db', q)
      {
        if inner.query(db, q.text, q.limit).Entries? {
          var v := Cached(inner.query(db, q.text, q.limit).entries, 0);
          var cache := map[KeyOf(digest, q) := v];
          assert IsAnswerTo(inner, digest, db, KeyOf(digest, q), v, q) && q in {q};
          assert Coherent(inner, digest, db, cache, {q});
          assert Current(inner, digest, db', KeyOf(digest, q), cache[KeyOf(digest, q)], {q});
        }
      }
    }
  }

  lemma UnchangedAnswers<Db>(inner: Inner<Db>, digest: string -> string, db: Db, db': Db,
                             cache: map<string, Cached>, asked: set<Question>)
    requires SameAnswers(inner, db, db') && Coherent(inner, digest, db, cache, asked)
    ensures Coherent(inner, digest, db', cache, asked)
  {
    forall k | k in cache
      ensures Current(inner, digest, db', k, cache[k], asked)
    {
      assert Current(inner, digest, db, k, cache[k], asked);
      var q :| q in asked && IsAnswerTo(inner, digest, db, k, cache[k], q);
      assert Same(inner, db, db', q);
      assert IsAnswerTo(inner, digest, db', k, cache[k], q);
    }
  }

  class CachedMemory<Db(!new)> {
    const inner: Inner<Db>
    const digest: string -> string
    const ttl: int
    // The inner provider's state.
    var db: Db
    var cache: map<string, Cached>
    // The queries made so far.
    ghost var asked: set<Question>

    // Every cached answer is what the inner provider would answer now.
    ghost predicate IsCoherent()
      reads this
    {
      Coherent(inner, digest, db, cache, asked)
    }

    constructor (inner: Inner<Db>, digest: string -> string, ttl: int, db: Db)
      ensures this.inner == inner && this.digest == digest && this.ttl == ttl
      ensures this.db == db && cache == map[] && asked == {} && IsCoherent()
    {
      this.inner, this.digest, this.ttl, this.db, cache, asked := inner, digest, ttl, db, map[], {};
    }

    // `now` is read when looking up, `later` when filling. On a coherent cache the answer is what a
    // fresh inner query would give, whatever the clock says.
    method Query(text: string, limit: int, now: int, later: int) returns (reply: Reply)
      modifies this`cache, this`asked
      ensures asked == old(asked) + {Question(text, limit)}
      ensures var key := KeyOf(digest, Question(text, limit));
              if key in old(cache) && now < old(cache)[key].expiresAt then
                reply == Entries(old(cache)[key].entries) && cache == old(cache)
              else
                && reply == inner.query(db, text, limit)
                && cache == if reply.Failed? then old(cache) else old(cache)[key := Cached(reply.entries, later + ttl)]
      ensures old(IsCoherent()) ==> IsCoherent()
      ensures old(IsCoherent()) && NoCollisions(digest, asked) ==> reply == inner.query(db, text, limit)
    {
      var q := Question(text, limit);
      var key := KeyOf(digest, q);
      ghost var coherent := IsCoherent();
      if coherent {
        MoreAsked(inner, digest, db, cache, asked, q);
        if key in cache && NoCollisions(digest, asked + {q}) {
          HitIsFresh(inner, digest, db, cache, asked, q);
        }
      }
      asked := asked + {q};
      if key in cache && now < cache[key].expiresAt {
        return Entries(cache[key].entries);
      }
      reply := inner.query(db, text, limit);
      if reply.Failed? {
        return;
      }
      if coherent {
        Filled(inner, digest, db, cache, asked, q, Cached(reply.entries, later + ttl));
      }
      cache := cache[key := Cached(reply.entries, later + ttl)];
    }

    // Store, Delete and Curate: on success the whole cache is dropped.
    method Write(op: Op) returns (ok: bool)
      modifies this`cache, this`db
      ensures (db, ok) == inner.write(old(db), op)
      ensures cache == if ok then map[] else old(cache)
      ensures old(IsCoherent()) && FailuresChangeNothing(inner) ==> IsCoherent()
    {
      var r := inner.write(db, op);
      db, ok := r.0, r.1;
      if ok {
        cache := map[];
      }
    }

    // A batch, as one call if the provider supports it and one by one otherwise. In the second case
    // a failure after the first item leaves the cache as it was over a changed provider; the cache
    // stays coherent if all items or none are stored, and only then (BatchIsSafeIff).
    method StoreBatch(items: seq<string>) returns (ok: bool)
      modifies this`cache, this`db
      ensures inner.storesBatches ==> (db, ok) == inner.write(old(db), Batch(items))
      ensures !inner.storesBatches ==>
              db == StoreEach(inner, old(db), items).0 && (ok <==> StoreEach(inner, old(db), items).1 == |items|)
      ensures cache == if ok then map[] else old(cache)
      ensures inner.storesBatches || StoreEach(inner, old(db), items).1 in {0, |items|} ==>
              old(IsCoherent()) && FailuresChangeNothing(inner) ==> IsCoherent()
    {
      if inner.storesBatches {
        ok := Write(Batch(items));
        return;
      }
      ghost var was := db;
      for i := 0 to |items|
        invariant StoreEach(inner, was, items[..i]) == (db, i)
        invariant cache == old(cache) && asked == old(asked)
      {
        assert items[..i + 1][..i] == items[..i];
        var r := inner.write(db, Store(items[i]));
        if !r.1 {
          StoppedAt(inner, was, items, i);
          db := r.0;
          return false;
        }
        db := r.0;
      }
      assert items[..|items|] == items;
      cache := map[];
      ok := true;
    }
  }

  lemma {:induction false} StoppedAt<Db>(inner: Inner<Db>, db: Db, items: seq<string>, i: nat)
    requires i < |items| && StoreEach(inner, db, items[..i]).1 == i
    requires !inner.write(StoreEach(inner, db, items[..i]).0, Store(items[i])).1
    ensures StoreEach(inner, db, items) == (inner.write(StoreEach(inner, db, items[..i]).0, Store(items[i])).0, i)
    decreases |items|
  {
    var n := |items| - 1;
    if i < n {
      assert items[..n][..i] == items[..i];
      StoppedAt(inner, db, items[..n], i);
    }
  }

  // ---- a part-way failure makes the cache stale ----

  // The cache after a batch stored one by one.
  function AfterBatch<Db>(inner: Inner<Db>, db: Db, items: seq<string>, cache: map<string, Cached>): map<string, Cached> {
    if StoreEach(inner, db, items).1 == |items| then map[] else cache
  }

  // For a given provider: a batch keeps every coherent cache coherent exactly if all items are stored
  // or the items stored change no answer.
  lemma BatchKeepsCoherentIff<Db>(inner: Inner<Db>, digest: string -> string, db: Db, items: seq<string>)
    ensures var db' := StoreEach(inner, db, items).0;
            (forall cache, asked :: Coherent(inner, digest, db, cache, asked) ==>
                                    Coherent(inner, digest, db', AfterBatch(inner, db, items, cache), asked))
            <==> StoreEach(inner, db, items).1 == |items| || SameAnswers(inner, db, db')
  {
    StaysCoherentIff(inner, digest, db, StoreEach(inner, db, items).0);
    if StoreEach(inner, db, items).1 != |items| {
      assert forall cache :: AfterBatch(inner, db, items, cache) == cache;
    }
  }

  // A provider that keeps a list and refuses everything once it holds `k` items.
  function Refusing(k: nat): Inner<seq<string>> {
    Inner((db: seq<string>, q: string, l: int) => Entries(db),
          (db: seq<string>, op: Op) => if op.Store? && |db| < k then (db + [op.item], true) else (db, false),
          false)
  }

  lemma {:induction false} RefusesAt(k: nat, items: seq<string>)
    ensures StoreEach(Refusing(k), [], items) == if k <= |items| then (items[..k], k) else (items, |items|)
    decreases |items|
  {
    if items != [] {
      var n := |items| - 1;
      RefusesAt(k, items[..n]);
      Snoc(items);
      if k <= n {
        assert items[..n][..k] == items[..k];
      } else {
        assert k == n + 1 ==> items[..k] == items;
      }
    }
  }

  // Whatever the provider, as long as its failures change nothing: a batch of which `k` items are
  // stored before the first refusal keeps every coherent cache coherent.
  ghost predicate KeepsCoherent<Db(!new)>(inner: Inner<Db>, digest: string -> string, db: Db, items: seq<string>, k: nat) {
    !inner.storesBatches && FailuresChangeNothing(inner) && StoreEach(inner, db, items).1 == k ==>
    forall cache, asked :: Coherent(inner, digest, db, cache, asked) ==>
                           Coherent(inner, digest, StoreEach(inner, db, items).0, AfterBatch(inner, db, items, cache), asked)
  }

  lemma {:induction false} NothingStored<Db(!new)>(inner: Inner<Db>, db: Db, items: seq<string>)
    requires FailuresChangeNothing(inner) && StoreEach(inner, db, items).1 == 0
    ensures StoreEach(inner, db, items).0 == db
  {
    if |items| > 1 {
      NothingStored(inner, db, items[..|items| - 1]);
    }
  }

  lemma AllOrNothingIsSafe<Db(!new)>(inner: Inner<Db>, digest: string -> string, db: Db, items: seq<string>, k: nat)
    requires k == 0 || k == |items|
    ensures KeepsCoherent(inner, digest, db, items, k)
  {
    if FailuresChangeNothing(inner) && StoreEach(inner, db, items).1 == k == 0 {
      NothingStored(inner, db, items);
    }
  }

  // Some provider gives a stale cache for every other `k`.
  lemma PartWayIsUnsafe(digest: string -> string, items: seq<string>, k: nat)
    requires 0 < k < |items|
    ensures FailuresChangeNothing(Refusing(k)) && StoreEach(Refusing(k), [], items) == (items[..k], k)
    ensures !KeepsCoherent(Refusing(k), digest, [], items, k)
  {
    RefusesAt(k, items);
    var q := Question("", 0);
    assert !Same(Refusing(k), [], items[..k], q);
    BatchKeepsCoherentIff(Refusing(k), digest, [], items);
  }

  // The guard of the branch that fails: a batch is safe for every provider exactly if all of its items
  // are stored or none.
  lemma BatchIsSafeIff(digest: string -> string, items: seq<string>, k: nat)
    requires k <= |items|
    ensures (forall inner: Inner<seq<string>>, db :: KeepsCoherent(inner, digest, db, items, k)) <==> k == 0 || k == |items|
  {
    if k == 0 || k == |items| {
      forall inner: Inner<seq<string>>, db
        ensures KeepsCoherent(inner, digest, db, items, k)
      {
        AllOrNothingIsSafe(inner, digest, db, items, k);
      }
    } else {
      PartWayIsUnsafe(digest, items, k);
    }
  }

  // After a batch of which `k` items are stored, some but not all, a query still answers the empty
  // list from the cache, the provider itself does not.
  method StaleAfterPartialBatch(items: seq<string>, k: nat) returns (cached: Reply, direct: Reply, ok: bool)
    requires 0 < k < |items|
    ensures FailuresChangeNothing(Refusing(k))
    ensures !ok && cached == Entries([]) && direct == Entries(items[..k])
  {
    var m := new CachedMemory<seq<string>>(Refusing(k), (s: string) => s, 10, []);
    var first := m.Query("q", 5, 0, 0);
    RefusesAt(k, items);
    ok := m.StoreBatch(items);
    cached := m.Query("q", 5, 1, 1);
    direct := m.inner.query(m.db, "q", 5);
  }
}
