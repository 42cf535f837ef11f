// internal/adapter/embedding/cached.go: CachedEmbedder used by one caller at a time.
// EmbeddingRaces models the interleavings.
module Embeddings {
  type Key = nat
  type Vector = seq<real>
}

module EmbeddingCache {
  import opened Embeddings
  import opened Sequences
  import opened Recency

  datatype Reply = Error | Vectors(vectors: seq<Vector>)

  // An element of the recency list; the cache maps each key to its element.
  class LruEntry {
    const key: Key
    var vec: Vector

    constructor (key: Key, vec: Vector)
      ensures this.key == key && this.vec == vec
    {
      this.key, this.vec := key, vec;
    }
  }

  function Keys(order: seq<LruEntry>): (ks: seq<Key>)
    ensures |ks| == |order|
  {
    if order == [] then [] else Keys(order[..|order| - 1]) + [order[|order| - 1].key]
  }

  class CachedEmbedder {
    const maxSize: nat
    const hash: string -> Key
    var cache: map<Key, LruEntry>
    var order: seq<LruEntry>
    // The keys of the single-text calls that succeeded, in the order of the calls.
    ghost var history: seq<Key>
    // All single-text calls, with whether the inner provider would have answered.
    ghost var requests: seq<Request<Key>>
    // What the inner provider last answered for a key.
    ghost var answers: map<Key, Vector>

    // The list is the last `maxSize` distinct keys used, least recently used first.
    ghost predicate Ordered()
      reads this
    {
      && maxSize > 0
      && Bijection(cache, order)
      && Keys(order) == LastN(ByLastUse(history), maxSize)
    }

    // Each entry holds what the provider last answered for its key.
    ghost predicate Faithful()
      reads this, order
    {
      forall e :: e in order ==> e.key in answers && e.vec == answers[e.key]
    }

    ghost predicate Valid()
      reads this, order
    {
      Ordered() && Faithful() && Keys(order) == ServeAll(requests, maxSize)
    }

    constructor (maxSize: nat, hash: string -> Key)
      requires maxSize > 0
      ensures Valid() && history == [] && requests == [] && answers == map[]
      ensures this.maxSize == maxSize && this.hash == hash
    {
      this.maxSize, this.hash := maxSize, hash;
      cache, order, history, requests, answers := map[], [], [], [], map[];
    }

    // `reply` is what the inner provider answers if it is asked. A hit returns what it last answered
    // for the key.
    method Embed(texts: seq<string>, reply: Reply) returns (result: Reply)
      requires Valid()
      modifies this, order
      ensures Valid()
      ensures |texts| != 1 ==>
              result == reply && cache == old(cache) && order == old(order) &&
              history == old(history) && requests == old(requests) && answers == old(answers)
      ensures |texts| == 1 ==> requests == old(requests) + [Request(hash(texts[0]), reply.Vectors? && reply.vectors != [])]
      ensures |texts| == 1 && hash(texts[0]) in old(cache) ==>
              && hash(texts[0]) in old(answers) && result == Vectors([old(answers)[hash(texts[0])]])
              && cache == old(cache) && history == old(history) + [hash(texts[0])] && answers == old(answers)
      ensures |texts| == 1 && hash(texts[0]) !in old(cache) ==> result == reply
      ensures |texts| == 1 && hash(texts[0]) !in old(cache) && reply.Vectors? && reply.vectors != [] ==>
              && history == old(history) + [hash(texts[0])]
              && hash(texts[0]) in cache && answers == old(answers)[hash(texts[0]) := reply.vectors[0]]
      ensures |texts| == 1 && hash(texts[0]) !in old(cache) && (reply.Error? || reply.vectors == []) ==>
              cache == old(cache) && history == old(history) && answers == old(answers)
    {
      if |texts| != 1 {
        return reply;
      }
      var key := hash(texts[0]);
      if key in cache {
        var vec := Hit(key, reply.Vectors? && reply.vectors != []);
        return Vectors([vec]);
      }
      result := reply;
      Miss(key, reply);
    }

    method Hit(key: Key, ghost ok: bool) returns (vec: Vector)
      requires Valid() && key in cache
      modifies this`order, this`history, this`requests
      ensures Valid() && history == old(history) + [key] && requests == old(requests) + [Request(key, ok)]
      ensures key in answers && vec == answers[key]
    {
      KeyListed(cache, order, key);
      ServeNext(requests, Request(key, ok), maxSize);
      var elem := cache[key];
      assert elem in order;
      Promote(elem);
      requests := requests + [Request(key, ok)];
      vec := elem.vec;
    }

    // Stores the answer of the inner provider, if it gives one.
    method Miss(key: Key, reply: Reply)
      requires Valid() && key !in cache
      modifies this, order
      ensures Valid()
      ensures var ok := reply.Vectors? && reply.vectors != [];
              && requests == old(requests) + [Request(key, ok)]
              && (ok ==> key in cache && history == old(history) + [key] && answers == old(answers)[key := reply.vectors[0]])
              && (!ok ==> cache == old(cache) && history == old(history) && answers == old(answers))
    {
      ghost var r := Request(key, reply.Vectors? && reply.vectors != []);
      KeyListed(cache, order, key);
      ServeNext(requests, r, maxSize);
      requests := requests + [r];
      if reply.Error? || |reply.vectors| == 0 {
        return;
      }
      Put(key, reply.vectors[0]);
    }

    // Moves an element of the list to the back.
    method Promote(elem: LruEntry)
      requires Ordered() && Linked(cache, elem)
      modifies this`order, this`history
      ensures Ordered() && history == old(history) + [elem.key]
      ensures order == Touch(old(order), elem) && Keys(order) == Touch(Keys(old(order)), elem.key)
      ensures forall e :: e in order <==> e in old(order)
    {
      UsedAndMoved(cache, order, history, elem, maxSize);
      Moved(cache, order, elem);
      TouchFacts(order, elem);
      order := Touch(order, elem);
      history := history + [elem.key];
    }

    // Stores `vec` under `key`: an entry already there gets the new vector and moves to the back.
    // All entries hold the last answers again, so those for other keys keep their vectors.
    method Put(key: Key, vec: Vector)
      requires Ordered() && Faithful()
      modifies this`cache, this`order, this`history, this`answers, order
      ensures Ordered() && Faithful() && history == old(history) + [key] && answers == old(answers)[key := vec]
      ensures key in cache && Keys(order) == Use(Keys(old(order)), key, maxSize)
    {
      KeyListed(cache, order, key);
      if key in cache {
        Refresh(key, vec);
      } else {
        AddNew(key, vec);
      }
    }

    method AddNew(key: Key, vec: Vector)
      requires Ordered() && Faithful() && key !in cache
      modifies this`cache, this`order, this`history, this`answers
      ensures Ordered() && Faithful() && history == old(history) + [key] && answers == old(answers)[key := vec]
      ensures key in cache
      ensures Keys(order) == (if |old(order)| >= maxSize then Keys(old(order))[1..] else Keys(old(order))) + [key]
    {
      Used(cache, order, history, key, maxSize);
      MakeRoom();
      Insert(key, vec);
    }

    method Refresh(key: Key, vec: Vector)
      requires Ordered() && Faithful() && key in cache
      modifies this`order, this`history, this`answers, cache[key]
      ensures Ordered() && Faithful() && history == old(history) + [key] && answers == old(answers)[key := vec]
      ensures Keys(order) == Touch(Keys(old(order)), key)
    {
      var elem := cache[key];
      Promote(elem);
      elem.vec := vec;
      answers := answers[key := vec];
      forall e | e in order && e != elem
        ensures e.key != key
      {
        assert Linked(cache, e);
      }
    }

    // Drops the least recently used entry if the cache is full.
    method MakeRoom()
      requires maxSize > 0 && Bijection(cache, order)
      modifies this`cache, this`order
      ensures Bijection(cache, order)
      ensures Keys(order) == if |old(order)| >= maxSize then Keys(old(order))[1..] else Keys(old(order))
      ensures forall k :: k in cache ==> k in old(cache) && cache[k] == old(cache)[k]
      ensures old(Faithful()) ==> Faithful()
    {
      if |order| >= maxSize {
        var oldest := order[0];
        Evicted(cache, order);
        order := order[1..];
        cache := cache - {oldest.key};
      }
    }

    method Insert(key: Key, vec: Vector)
      requires Bijection(cache, order) && key !in cache
      requires maxSize > 0 && Keys(order) + [key] == LastN(ByLastUse(history + [key]), maxSize)
      modifies this`cache, this`order, this`history, this`answers
      ensures Ordered() && history == old(history) + [key] && answers == old(answers)[key := vec]
      ensures key in cache && cache == old(cache)[key := cache[key]]
      ensures Keys(order) == old(Keys(order)) + [key]
      ensures old(Faithful()) ==> Faithful()
    {
      var entry := new LruEntry(key, vec);
      Inserted(cache, order, entry);
      order := order + [entry];
      cache := cache[key := entry];
      history := history + [key];
      answers := answers[key := vec];
    }
  }

  // ---- the map and the list ----

  predicate Linked(cache: map<Key, LruEntry>, e: LruEntry) {
    e.key in cache && cache[e.key] == e
  }

  // The map and the list hold the same elements, one for each key.
  ghost predicate Bijection(cache: map<Key, LruEntry>, order: seq<LruEntry>) {
    && Distinct(order)
    && (forall e :: e in order ==> Linked(cache, e))
    && (forall k :: k in cache ==> cache[k].key == k && cache[k] in order)
  }

  lemma ServeNext(requests: seq<Request<Key>>, r: Request<Key>, max: nat)
    requires max > 0
    ensures ServeAll(requests + [r], max) == Serve(ServeAll(requests, max), r, max)
  {
    Front(requests, r);
  }

  // Two caches fed the same calls, with the same answers and the same errors of the provider where
  // both have to ask it: the larger one holds every key the smaller one holds, also when errors are
  // seen by the smaller one only.
  lemma LargerCacheHoldsMore(small: CachedEmbedder, large: CachedEmbedder)
    requires small.Valid() && large.Valid() && small.maxSize <= large.maxSize && small.requests == large.requests
    ensures small.cache.Keys <= large.cache.Keys
  {
    LargerHoldsMore(small.requests, small.maxSize, large.maxSize);
    SubsequenceMembers(Keys(small.order), Keys(large.order));
    forall k | k in small.cache
      ensures k in large.cache
    {
      KeyListed(small.cache, small.order, k);
      KeyListed(large.cache, large.order, k);
    }
  }

  lemma {:induction false} KeysAt(order: seq<LruEntry>, i: nat)
    requires i < |order|
    ensures Keys(order)[i] == order[i].key
  {
    if i < |order| - 1 {
      KeysAt(order[..|order| - 1], i);
    }
  }

  lemma KeyListed(cache: map<Key, LruEntry>, order: seq<LruEntry>, key: Key)
    requires Bijection(cache, order)
    ensures key in cache <==> key in Keys(order)
  {
    if key in cache {
      var i :| 0 <= i < |order| && order[i] == cache[key];
      KeysAt(order, i);
    }
    if key in Keys(order) {
      var i :| 0 <= i < |order| && Keys(order)[i] == key;
      KeysAt(order, i);
      assert order[i] in order;
    }
  }

  // Using a key is one step of the bounded recency list.
  lemma Used(cache: map<Key, LruEntry>, order: seq<LruEntry>, history: seq<Key>, key: Key, maxSize: nat)
    requires maxSize > 0 && Bijection(cache, order) && Keys(order) == LastN(ByLastUse(history), maxSize)
    ensures LastN(ByLastUse(history + [key]), maxSize) ==
            if key in cache then Touch(Keys(order), key)
            else (if |order| >= maxSize then Keys(order)[1..] else Keys(order)) + [key]
  {
    ByLastUseDistinct(history);
    UseKeepsLastN(ByLastUse(history), key, maxSize);
    Front(history, key);
    KeyListed(cache, order, key);
    assert ByLastUse(history + [key]) == Touch(ByLastUse(history), key);
    assert LastN(ByLastUse(history + [key]), maxSize) == Use(Keys(order), key, maxSize);
  }

  lemma Moved(cache: map<Key, LruEntry>, order: seq<LruEntry>, elem: LruEntry)
    requires Bijection(cache, order) && Linked(cache, elem)
    ensures Bijection(cache, Touch(order, elem))
    ensures Keys(Touch(order, elem)) == Touch(Keys(order), elem.key)
  {
    TouchFacts(order, elem);
    assert elem in order;
    forall i | 0 <= i < |order| && order[i].key == elem.key
      ensures order[i] == elem
    {
      assert order[i] in order;
    }
    KeysTouch(order, elem);
    forall e | e in Touch(order, elem)
      ensures Linked(cache, e)
    {
      TouchMember(order, elem, e);
      assert e in order;
    }
  }

  lemma UsedAndMoved(cache: map<Key, LruEntry>, order: seq<LruEntry>, history: seq<Key>, elem: LruEntry, maxSize: nat)
    requires maxSize > 0 && Bijection(cache, order) && Keys(order) == LastN(ByLastUse(history), maxSize)
    requires Linked(cache, elem)
    ensures Bijection(cache, Touch(order, elem))
    ensures Keys(Touch(order, elem)) == LastN(ByLastUse(history + [elem.key]), maxSize)
  {
    Used(cache, order, history, elem.key, maxSize);
    Moved(cache, order, elem);
  }

  lemma Evicted(cache: map<Key, LruEntry>, order: seq<LruEntry>)
    requires Bijection(cache, order) && order != []
    ensures Bijection(cache - {order[0].key}, order[1..])
    ensures Keys(order[1..]) == Keys(order)[1..]
  {
    assert order == [order[0]] + order[1..];
    KeysTail(order[0], order[1..]);
    assert Linked(cache, order[0]);
    var less := cache - {order[0].key};
    forall e | e in order[1..]
      ensures Linked(less, e)
    {
      var i :| 1 <= i < |order| && order[i] == e;
      assert Linked(cache, e) && e != order[0];
    }
    forall k | k in less
      ensures less[k].key == k && less[k] in order[1..]
    {
      assert cache[k] in order && cache[k] != order[0];
    }
  }

  lemma {:induction false} KeysTail(e: LruEntry, rest: seq<LruEntry>)
    ensures Keys([e] + rest) == [e.key] + Keys(rest)
    decreases |rest|
  {
    if rest == [] {
      assert [e] + rest == [e] && [e][..0] == [];
    } else {
      KeysTail(e, rest[..|rest| - 1]);
      ConcatSnoc([e], rest);
      Front([e] + rest[..|rest| - 1], rest[|rest| - 1]);
      Assoc3([e.key], Keys(rest[..|rest| - 1]), [rest[|rest| - 1].key]);
    }
  }

  lemma Inserted(cache: map<Key, LruEntry>, order: seq<LruEntry>, entry: LruEntry)
    requires Bijection(cache, order) && entry.key !in cache
    ensures Bijection(cache[entry.key := entry], order + [entry])
    ensures Keys(order + [entry]) == Keys(order) + [entry.key]
  {
    Front(order, entry);
    assert entry !in order by {
      assert entry in order ==> Linked(cache, entry);
    }
    assert forall e :: e in order + [entry] <==> e in order || e == entry;
    assert forall e :: e in order ==> Linked(cache, e);
  }

  // Elements on the list are determined by their keys here.
  lemma KeysTouch(order: seq<LruEntry>, elem: LruEntry)
    requires forall i :: 0 <= i < |order| && order[i].key == elem.key ==> order[i] == elem
    ensures Keys(Touch(order, elem)) == Touch(Keys(order), elem.key)
  {
    KeysRemove(order, elem);
    Front(Remove(order, elem), elem);
  }

  lemma {:induction false} KeysRemove(order: seq<LruEntry>, elem: LruEntry)
    requires forall i :: 0 <= i < |order| && order[i].key == elem.key ==> order[i] == elem
    ensures Keys(Remove(order, elem)) == Remove(Keys(order), elem.key)
  {
    if order != [] {
      var n := |order| - 1;
      KeysRemove(order[..n], elem);
      Front(Keys(order[..n]), order[n].key);
      if order[n] != elem {
        Front(Remove(order[..n], elem), order[n]);
      }
    }
  }
}
