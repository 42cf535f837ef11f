// internal/adapter/memory/cached.go: CachedMemory used by many callers at once.
//
// Looking up, asking the inner provider, filling, writing and dropping the cache are separate steps; a
// run is any interleaving of them. Which steps are taken does not depend on what the provider answers,
// so an answer is represented by where it comes from: the question, and the version of the provider
// that answered it. An answer function then gives the entries.
module QueryCacheRaces {
  import opened QueryCache

  type Key = nat
  type Answer = seq<string>

  // An answer of the inner provider: to this question, at this version.
  datatype Stamp = Stamp(q: Question, version: nat)

  // A caller asks the inner provider; has its answer and not filled yet; has written and not dropped
  // yet; or is done.
  datatype Caller = Asking(q: Question) | ToFill(stamp: Stamp) | ToDrop | Finished

  // Every change of the provider makes a new version.
  datatype State = State(version: nat, cache: map<Key, Stamp>, callers: map<nat, Caller>)

  const INITIAL := State(0, map[], map[])

  // `PartialBatch` is a batch that fails after storing some of its items: no drop follows.
  datatype Step =
    | LookupHit(t: nat, q: Question)
    | LookupMiss(t: nat, q: Question)
    | Ask(t: nat, succeeds: bool)
    | Fill(t: nat)
    | Write(t: nat)
    | Drop(t: nat)
    | PartialBatch(t: nat)

  // A present entry may also have expired, so a miss is always possible.
  predicate Enabled(key: Question -> Key, s: State, step: Step) {
    match step
    case LookupHit(t, q) => t !in s.callers && key(q) in s.cache
    case LookupMiss(t, q) => t !in s.callers
    case Ask(t, _) => t in s.callers && s.callers[t].Asking?
    case Fill(t) => t in s.callers && s.callers[t].ToFill?
    case Write(t) => t !in s.callers
    case Drop(t) => t in s.callers && s.callers[t].ToDrop?
    case PartialBatch(t) => t !in s.callers
  }

  function Apply(key: Question -> Key, s: State, step: Step): State
    requires Enabled(key, s, step)
  {
    match step
    case LookupHit(t, q) => s.(callers := s.callers[t := Finished])
    case LookupMiss(t, q) => s.(callers := s.callers[t := Asking(q)])
    case Ask(t, succeeds) =>
      s.(callers := s.callers[t := if succeeds then ToFill(Stamp(s.callers[t].q, s.version)) else Finished])
    case Fill(t) =>
      var stamp := s.callers[t].stamp;
      s.(cache := s.cache[key(stamp.q) := stamp], callers := s.callers[t := Finished])
    case Write(t) => s.(version := s.version + 1, callers := s.callers[t := ToDrop])
    case Drop(t) => s.(cache := map[], callers := s.callers[t := Finished])
    case PartialBatch(t) => s.(version := s.version + 1, callers := s.callers[t := Finished])
  }

  ghost predicate Follows(key: Question -> Key, ss: seq<State>, steps: seq<Step>, i: nat)
    requires |ss| == |steps| + 1 && i < |steps|
  {
    Enabled(key, ss[i], steps[i]) && ss[i + 1] == Apply(key, ss[i], steps[i])
  }

  ghost predicate IsRun(key: Question -> Key, ss: seq<State>, steps: seq<Step>) {
    && |ss| == |steps| + 1 && ss[0] == INITIAL
    && forall i :: 0 <= i < |steps| ==> Follows(key, ss, steps, i)
  }

  ghost predicate Injective(key: Question -> Key) {
    forall p, q :: key(p) == key(q) ==> p == q
  }

  // ---- where entries come from ----

  // Step `a` asked for this answer, on behalf of caller `t`.
  ghost predicate AskedAt(ss: seq<State>, steps: seq<Step>, t: nat, stamp: Stamp, a: nat)
    requires |ss| == |steps| + 1
  {
    && a < |steps| && steps[a] == Ask(t, true)
    && t in ss[a].callers && ss[a].callers[t] == Asking(stamp.q) && ss[a].version == stamp.version
  }

  // Step `i` replaces or drops the entry for `k`.
  ghost predicate Clears(key: Question -> Key, s: State, step: Step, k: Key) {
    step.Drop? ||
    (step.Fill? && step.t in s.callers && s.callers[step.t].ToFill? && key(s.callers[step.t].stamp.q) == k)
  }

  // The entry for `k` after `n` steps: asked for at `a`, filled in at `f` by the same caller, and
  // neither dropped nor replaced since.
  ghost predicate BackedBy(key: Question -> Key, ss: seq<State>, steps: seq<Step>, n: nat, k: Key, stamp: Stamp,
                           a: nat, f: nat)
    requires |ss| == |steps| + 1
  {
    && a < f < n <= |steps|
    && steps[f].Fill? && AskedAt(ss, steps, steps[f].t, stamp, a) && key(stamp.q) == k
    && forall i :: f < i < n ==> !Clears(key, ss[i], steps[i], k)
  }

  lemma {:induction false} FillerHasAsked(key: Question -> Key, ss: seq<State>, steps: seq<Step>, n: nat, t: nat) returns (a: nat)
    requires IsRun(key, ss, steps) && n <= |steps| && t in ss[n].callers && ss[n].callers[t].ToFill?
    ensures a < n && AskedAt(ss, steps, t, ss[n].callers[t].stamp, a)
  {
    assert n > 0;
    assert Follows(key, ss, steps, n - 1);
    if t in ss[n - 1].callers && ss[n - 1].callers[t].ToFill? {
      a := FillerHasAsked(key, ss, steps, n - 1, t);
    } else {
      a := n - 1;
    }
  }

  lemma {:induction false} EntryIsBacked(key: Question -> Key, ss: seq<State>, steps: seq<Step>, n: nat, k: Key)
    returns (a: nat, f: nat)
    requires IsRun(key, ss, steps) && n <= |steps| && k in ss[n].cache
    ensures BackedBy(key, ss, steps, n, k, ss[n].cache[k], a, f)
  {
    assert n > 0;
    var s, step := ss[n - 1], steps[n - 1];
    assert Follows(key, ss, steps, n - 1);
    if Clears(key, s, step, k) {
      f := n - 1;
      a := FillerHasAsked(key, ss, steps, n - 1, step.t);
    } else {
      a, f := EntryIsBacked(key, ss, steps, n - 1, k);
    }
  }

  // ---- what a hit is ----

  ghost predicate IsHit(key: Question -> Key, ss: seq<State>, steps: seq<Step>, h: nat) {
    IsRun(key, ss, steps) && h < |steps| && steps[h].LookupHit?
  }

  lemma HitIsEnabled(key: Question -> Key, ss: seq<State>, steps: seq<Step>, h: nat)
    requires IsHit(key, ss, steps, h)
    ensures key(steps[h].q) in ss[h].cache
  {
    assert Follows(key, ss, steps, h);
  }

  // The answer of the hit at step `h`.
  ghost function HitStamp(key: Question -> Key, ss: seq<State>, steps: seq<Step>, h: nat): Stamp
    requires IsHit(key, ss, steps, h)
  {
    HitIsEnabled(key, ss, steps, h);
    ss[h].cache[key(steps[h].q)]
  }

  // In every interleaving a hit is an answer that the inner provider gave for that key, filled in by
  // the caller that asked for it, and neither dropped nor replaced between the fill and the hit.
  lemma HitsAreBacked(key: Question -> Key, ss: seq<State>, steps: seq<Step>, h: nat) returns (a: nat, f: nat)
    requires IsHit(key, ss, steps, h)
    ensures BackedBy(key, ss, steps, h, key(steps[h].q), HitStamp(key, ss, steps, h), a, f)
    ensures Injective(key) ==> HitStamp(key, ss, steps, h).q == steps[h].q
  {
    HitIsEnabled(key, ss, steps, h);
    a, f := EntryIsBacked(key, ss, steps, h, key(steps[h].q));
  }

  // ---- when a hit is up to date ----

  predicate Changes(step: Step) {
    step.Write? || step.PartialBatch?
  }

  ghost predicate NoChange(steps: seq<Step>, a: nat, h: nat) {
    forall i :: a <= i < h && i < |steps| ==> !Changes(steps[i])
  }

  lemma {:induction false} VersionsCount(key: Question -> Key, ss: seq<State>, steps: seq<Step>, a: nat, h: nat)
    requires IsRun(key, ss, steps) && a <= h <= |steps|
    ensures ss[a].version <= ss[h].version
    ensures ss[a].version == ss[h].version <==> NoChange(steps, a, h)
  {
    if a < h {
      VersionsCount(key, ss, steps, a, h - 1);
      assert Follows(key, ss, steps, h - 1);
      if NoChange(steps, a, h - 1) && !Changes(steps[h - 1]) {
        assert NoChange(steps, a, h);
      }
    }
  }

  // With this provider the answer is what a fresh query would give at `version`.
  predicate IsFresh(answer: (nat, Question) -> Answer, stamp: Stamp, version: nat) {
    answer(stamp.version, stamp.q) == answer(version, stamp.q)
  }

  lemma FreshForAllIff(stamp: Stamp, version: nat)
    ensures (forall answer :: IsFresh(answer, stamp, version)) <==> stamp.version == version
  {
    if stamp.version != version {
      var differing := (v: nat, q: Question) => if v == version then [] else ["old"];
      assert !IsFresh(differing, stamp, version);
    }
  }

  // In a given interleaving a hit equals a fresh query, whatever the provider answers, exactly if the
  // provider does not change between the step that asked for the cached answer and the hit.
  lemma HitIsFreshIff(key: Question -> Key, ss: seq<State>, steps: seq<Step>, h: nat) returns (a: nat, f: nat)
    requires IsHit(key, ss, steps, h) && Injective(key)
    ensures BackedBy(key, ss, steps, h, key(steps[h].q), HitStamp(key, ss, steps, h), a, f)
    ensures HitStamp(key, ss, steps, h).q == steps[h].q
    ensures (forall answer :: IsFresh(answer, HitStamp(key, ss, steps, h), ss[h].version)) <==> NoChange(steps, a, h)
  {
    a, f := HitsAreBacked(key, ss, steps, h);
    VersionsCount(key, ss, steps, a, h);
    FreshForAllIff(HitStamp(key, ss, steps, h), ss[h].version);
  }

  // ---- a discipline under which every hit is up to date ----

  ghost predicate Dropping(s: State) {
    exists t :: t in s.callers && s.callers[t].ToDrop?
  }

  // An answer is filled in at the version that gave it, nobody looks up between a write and its drop,
  // and no batch fails part-way.
  ghost predicate Disciplined(s: State, step: Step) {
    && (step.Fill? && step.t in s.callers && s.callers[step.t].ToFill? ==> s.callers[step.t].stamp.version == s.version)
    && (step.LookupHit? ==> !Dropping(s))
    && !step.PartialBatch?
  }

  ghost predicate UpToDate(s: State) {
    forall k :: k in s.cache ==> s.cache[k].version == s.version
  }

  lemma DisciplineNext(key: Question -> Key, s: State, step: Step)
    requires Enabled(key, s, step) && Disciplined(s, step) && (Dropping(s) || UpToDate(s))
    ensures Dropping(Apply(key, s, step)) || UpToDate(Apply(key, s, step))
  {
    var s' := Apply(key, s, step);
    if step.Write? {
      assert step.t in s'.callers && s'.callers[step.t].ToDrop?;
    } else if !step.Drop? && Dropping(s) {
      var t :| t in s.callers && s.callers[t].ToDrop?;
      assert t in s'.callers && s'.callers[t].ToDrop?;
    }
  }

  lemma {:induction false} DisciplineKeeps(key: Question -> Key, ss: seq<State>, steps: seq<Step>, n: nat)
    requires IsRun(key, ss, steps) && n <= |steps|
    requires forall i :: 0 <= i < n ==> Disciplined(ss[i], steps[i])
    ensures Dropping(ss[n]) || UpToDate(ss[n])
  {
    if n > 0 {
      DisciplineKeeps(key, ss, steps, n - 1);
      assert Follows(key, ss, steps, n - 1);
      DisciplineNext(key, ss[n - 1], steps[n - 1]);
    }
  }

  // In a disciplined run every hit equals a fresh query, for every provider.
  lemma DisciplinedHitsAreFresh(key: Question -> Key, ss: seq<State>, steps: seq<Step>, h: nat,
                                answer: (nat, Question) -> Answer)
    requires IsHit(key, ss, steps, h) && Injective(key)
    requires forall i :: 0 <= i <= h ==> Disciplined(ss[i], steps[i])
    ensures HitStamp(key, ss, steps, h).q == steps[h].q
    ensures IsFresh(answer, HitStamp(key, ss, steps, h), ss[h].version)
  {
    HitIsEnabled(key, ss, steps, h);
    DisciplineKeeps(key, ss, steps, h);
    assert Disciplined(ss[h], steps[h]);
    var a, f := HitsAreBacked(key, ss, steps, h);
  }

  // ---- without it a hit may be out of date ----

  // A caller asks, another writes and drops the cache, and only then the first one fills: the entry
  // is older than the drop, and later lookups hit it although the write has long returned.
  lemma HitCanBeStale(key: Question -> Key, q: Question) returns (ss: seq<State>, steps: seq<Step>)
    ensures |steps| == 6 && IsHit(key, ss, steps, 5) && steps[5] == LookupHit(2, q)
    ensures forall t :: t in ss[5].callers ==> ss[5].callers[t] == Finished
    ensures HitStamp(key, ss, steps, 5) == Stamp(q, 0) && ss[5].version == 1
  {
    steps := [LookupMiss(0, q), Ask(0, true), Write(1), Drop(1), Fill(0), LookupHit(2, q)];
    var s0 := INITIAL;
    var s1 := Apply(key, s0, steps[0]);
    var s2 := Apply(key, s1, steps[1]);
    var s3 := Apply(key, s2, steps[2]);
    var s4 := Apply(key, s3, steps[3]);
    var s5 := Apply(key, s4, steps[4]);
    var s6 := Apply(key, s5, steps[5]);
    ss := [s0, s1, s2, s3, s4, s5, s6];
  }
}
