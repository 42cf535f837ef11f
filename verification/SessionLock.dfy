// internal/usecase/session_lock.go: SessionLocker, a reference-counted map of mutexes with
// cancellable acquisition.
//
// Each call of Lock is a caller and a helper goroutine, and after a cancellation a clean-up goroutine
// that takes the caller's place. A section under the locker's own mutex is one step. A run is any
// interleaving of the steps of any number of calls; each unlock function is called once.
module SessionLock {
  import opened Options

  // The helper blocks on the session mutex, then holds it, then has closed the `acquired` channel.
  datatype Helper = Blocked | Locked | Signalled

  // The caller waits in its select; holds the lock; or was cancelled and left a clean-up goroutine.
  // After the mutex is unlocked the reference is still counted until the last step.
  datatype Caller = Selecting | Holding | CleaningUp | Unlocked | Finished

  datatype Call = Call(sid: string, mutex: nat, helper: Helper, caller: Caller)

  datatype Mutex = Mutex(owner: Option<nat>, refCount: int)

  // `mutexes` is the heap: every session mutex ever made, whether or not `locks` still refers to it.
  datatype State = State(locks: map<string, nat>, mutexes: map<nat, Mutex>, calls: map<nat, Call>)

  const INITIAL := State(map[], map[], map[])

  datatype Step =
    | Register(t: nat, sid: string, unusedMutex: nat)
    | HelperLock(t: nat)
    | HelperSignal(t: nat)
    | TakeLock(t: nat)
    | Cancel(t: nat)
    | Unlock(t: nat)
    | Decrement(t: nat)

  predicate Enabled(s: State, step: Step) {
    if step.Register? then
      step.t !in s.calls && if step.sid in s.locks then s.locks[step.sid] in s.mutexes else step.unusedMutex !in s.mutexes
    else
      && step.t in s.calls
      && s.calls[step.t].mutex in s.mutexes
      && var c := s.calls[step.t];
         match step
         case HelperLock(_) => c.helper == Blocked && s.mutexes[c.mutex].owner == None
         case HelperSignal(_) => c.helper == Locked
         case TakeLock(_) => c.caller == Selecting && c.helper == Signalled
         case Cancel(_) => c.caller == Selecting
         case Unlock(_) => c.caller == Holding || (c.caller == CleaningUp && c.helper == Signalled)
         case Decrement(_) => c.caller == Unlocked
         case Register(_, _, _) => false
  }

  function Apply(s: State, step: Step): State
    requires Enabled(s, step)
  {
    if step.Register? then
      if step.sid in s.locks then
        var m := s.locks[step.sid];
        s.(mutexes := s.mutexes[m := s.mutexes[m].(refCount := s.mutexes[m].refCount + 1)],
           calls := s.calls[step.t := Call(step.sid, m, Blocked, Selecting)])
      else
        State(s.locks[step.sid := step.unusedMutex],
              s.mutexes[step.unusedMutex := Mutex(None, 1)],
              s.calls[step.t := Call(step.sid, step.unusedMutex, Blocked, Selecting)])
    else
      var c := s.calls[step.t];
      var m := s.mutexes[c.mutex];
      match step
      case HelperLock(t) =>
        s.(mutexes := s.mutexes[c.mutex := m.(owner := Some(t))], calls := s.calls[t := c.(helper := Locked)])
      case HelperSignal(t) => s.(calls := s.calls[t := c.(helper := Signalled)])
      case TakeLock(t) => s.(calls := s.calls[t := c.(caller := Holding)])
      case Cancel(t) => s.(calls := s.calls[t := c.(caller := CleaningUp)])
      case Unlock(t) =>
        s.(mutexes := s.mutexes[c.mutex := m.(owner := None)], calls := s.calls[t := c.(caller := Unlocked)])
      case Decrement(t) =>
        State(if m.refCount - 1 == 0 then s.locks - {c.sid} else s.locks,
              s.mutexes[c.mutex := m.(refCount := m.refCount - 1)],
              s.calls[t := c.(caller := Finished)])
  }

  // A run: `ss[i + 1]` follows from `ss[i]` by `steps[i]`.
  ghost predicate IsRun(ss: seq<State>, steps: seq<Step>) {
    |ss| == |steps| + 1 && forall i :: 0 <= i < |steps| ==> Follows(ss, steps, i)
  }

  ghost predicate Follows(ss: seq<State>, steps: seq<Step>, i: nat)
    requires |ss| == |steps| + 1 && i < |steps|
  {
    Enabled(ss[i], steps[i]) && ss[i + 1] == Apply(ss[i], steps[i])
  }

  // ---- the invariant ----

  predicate Counts(s: State, t: nat, m: nat) {
    t in s.calls && s.calls[t].mutex == m && s.calls[t].caller != Finished
  }

  // The calls that count a reference on mutex `m`.
  function Outstanding(s: State, m: nat): set<nat> {
    set t | t in s.calls && Counts(s, t, m)
  }

  predicate OwnsMutex(c: Call) {
    c.helper != Blocked && (c.caller == Selecting || c.caller == Holding || c.caller == CleaningUp)
  }

  // An unfinished call refers to the mutex that the map holds for its session; a caller that has the
  // lock, or had it, was signalled by its helper.
  predicate CallOk(s: State, t: nat)
    requires t in s.calls
  {
    var c := s.calls[t];
    && c.mutex in s.mutexes
    && (c.caller != Finished ==> c.sid in s.locks && s.locks[c.sid] == c.mutex)
    && (c.caller == Holding || c.caller == Unlocked || c.caller == Finished ==> c.helper == Signalled)
  }

  // The owner of a mutex is the one call on it that is between acquiring and unlocking.
  predicate OwnerOk(s: State, m: nat, t: nat)
    requires m in s.mutexes
  {
    s.mutexes[m].owner == Some(t) <==> t in s.calls && s.calls[t].mutex == m && OwnsMutex(s.calls[t])
  }

  predicate Uses(s: State, t: nat, sid: string) {
    t in s.calls && s.calls[t].sid == sid && s.calls[t].caller != Finished
  }

  ghost predicate CallsOk(s: State) {
    forall t :: t in s.calls ==> CallOk(s, t)
  }

  ghost predicate RefCounted(s: State) {
    forall m :: m in s.mutexes ==> s.mutexes[m].refCount == |Outstanding(s, m)|
  }

  // The map holds no entry without a call that uses it.
  ghost predicate EntriesUsed(s: State) {
    forall sid :: sid in s.locks ==> s.locks[sid] in s.mutexes && exists t :: Uses(s, t, sid)
  }

  ghost predicate EntriesDistinct(s: State) {
    forall a, b :: a in s.locks && b in s.locks && s.locks[a] == s.locks[b] ==> a == b
  }

  ghost predicate OwnersOk(s: State) {
    forall m, t :: m in s.mutexes ==> OwnerOk(s, m, t)
  }

  ghost predicate Inv(s: State) {
    CallsOk(s) && RefCounted(s) && EntriesUsed(s) && EntriesDistinct(s) && OwnersOk(s)
  }

  // ---- every step keeps it ----

  // The mutex a step acts on.
  function MutexOf(s: State, step: Step): nat
    requires Enabled(s, step)
  {
    Apply(s, step).calls[step.t].mutex
  }

  lemma CountsNext(s: State, step: Step, u: nat, m: nat)
    requires Enabled(s, step)
    ensures var s' := Apply(s, step);
            && (u != step.t || m != MutexOf(s, step) ==> (Counts(s', u, m) <==> Counts(s, u, m)))
            && (step.Register? ==> Counts(s', step.t, MutexOf(s, step)) && !Counts(s, step.t, m))
            && (step.Decrement? ==> !Counts(s', step.t, m) && Counts(s, step.t, MutexOf(s, step)))
            && (!step.Register? && !step.Decrement? && s.calls[step.t].caller != Finished ==>
                (Counts(s', u, m) <==> Counts(s, u, m)))
  {
  }

  lemma OutstandingNext(s: State, step: Step, m: nat)
    requires Enabled(s, step) && (step.HelperLock? || step.HelperSignal? ==> s.calls[step.t].caller != Finished)
    ensures Outstanding(Apply(s, step), m) ==
            if m != MutexOf(s, step) then Outstanding(s, m)
            else if step.Register? then Outstanding(s, m) + {step.t}
            else if step.Decrement? then Outstanding(s, m) - {step.t}
            else Outstanding(s, m)
  {
    var s' := Apply(s, step);
    forall u
      ensures Counts(s', u, m) <==>
              if u != step.t || m != MutexOf(s, step) then Counts(s, u, m)
              else step.Register? || (!step.Decrement? && Counts(s, u, m))
    {
      CountsNext(s, step, u, m);
    }
    CountsNext(s, step, step.t, m);
  }

  lemma UnfinishedHelper(s: State, step: Step)
    requires CallsOk(s) && Enabled(s, step)
    ensures step.HelperLock? || step.HelperSignal? ==> s.calls[step.t].caller != Finished
  {
    if !step.Register? {
      assert CallOk(s, step.t);
    }
  }

  lemma RefCountNext(s: State, step: Step, m: nat)
    requires CallsOk(s) && RefCounted(s) && Enabled(s, step) && m in Apply(s, step).mutexes
    ensures Apply(s, step).mutexes[m].refCount == |Outstanding(Apply(s, step), m)|
  {
    UnfinishedHelper(s, step);
    OutstandingNext(s, step, m);
    if step.Decrement? {
      CountsNext(s, step, step.t, m);
    }
    if m !in s.mutexes {
      NothingOnUnused(s, m);
    }
  }

  lemma NothingOnUnused(s: State, m: nat)
    requires CallsOk(s) && m !in s.mutexes
    ensures Outstanding(s, m) == {}
  {
    forall t | t in s.calls
      ensures !Counts(s, t, m)
    {
      assert CallOk(s, t);
    }
  }

  // An entry is deleted only when no other unfinished call refers to its mutex.
  lemma DeletedIsUnused(s: State, t: nat, u: nat)
    requires CallsOk(s) && RefCounted(s) && Enabled(s, Decrement(t))
    requires s.mutexes[s.calls[t].mutex].refCount == 1 && Uses(s, u, s.calls[t].sid)
    ensures u == t
  {
    var m := s.calls[t].mutex;
    assert CallOk(s, t) && CallOk(s, u);
    assert Counts(s, t, m) && Counts(s, u, m);
    OneElement(Outstanding(s, m), t, u);
  }

  lemma OneElement(x: set<nat>, t: nat, u: nat)
    requires |x| == 1 && t in x && u in x
    ensures u == t
  {
    assert |x - {t}| == 0;
    assert u !in x - {t};
  }

  lemma CallOkNext(s: State, step: Step, u: nat)
    requires CallsOk(s) && RefCounted(s) && Enabled(s, step) && u in Apply(s, step).calls
    ensures CallOk(Apply(s, step), u)
  {
    if u in s.calls {
      assert CallOk(s, u);
    }
    if !step.Register? {
      assert CallOk(s, step.t);
    }
    if step.Decrement? && s.mutexes[s.calls[step.t].mutex].refCount == 1 && Uses(s, u, s.calls[step.t].sid) {
      DeletedIsUnused(s, step.t, u);
    }
  }

  lemma OwnerOkNext(s: State, step: Step, m: nat, u: nat)
    requires CallsOk(s) && OwnersOk(s) && Enabled(s, step) && m in Apply(s, step).mutexes
    ensures OwnerOk(Apply(s, step), m, u)
  {
    if m in s.mutexes {
      assert OwnerOk(s, m, u);
      if !step.Register? {
        assert OwnerOk(s, s.calls[step.t].mutex, step.t);
      }
    }
    if u in s.calls {
      assert CallOk(s, u);
    }
  }

  // If the entry survives a decrement, some other call still uses it.
  lemma AnotherUser(s: State, t: nat) returns (u: nat)
    requires CallsOk(s) && RefCounted(s) && EntriesDistinct(s) && Enabled(s, Decrement(t))
    requires s.mutexes[s.calls[t].mutex].refCount != 1
    ensures u != t && Uses(s, u, s.calls[t].sid)
  {
    var m := s.calls[t].mutex;
    assert CallOk(s, t) && Counts(s, t, m);
    u := OtherElement(Outstanding(s, m), t);
    assert CallOk(s, u) && Counts(s, u, m);
  }

  lemma UsesNext(s: State, step: Step, t: nat, sid: string)
    requires Enabled(s, step) && Uses(s, t, sid) && !(step.Decrement? && t == step.t)
    ensures Uses(Apply(s, step), t, sid)
  {
  }

  lemma UserNext(s: State, step: Step, sid: string) returns (t: nat)
    requires CallsOk(s) && RefCounted(s) && EntriesUsed(s) && EntriesDistinct(s) && Enabled(s, step)
    requires sid in Apply(s, step).locks
    ensures Uses(Apply(s, step), t, sid)
  {
    if step.Register? && sid == step.sid {
      t := step.t;
    } else {
      assert sid in s.locks;
      t :| Uses(s, t, sid);
      if step.Decrement? && t == step.t {
        t := AnotherUser(s, t);
      }
      UsesNext(s, step, t, sid);
    }
  }

  lemma EntryUsedNext(s: State, step: Step, sid: string)
    requires CallsOk(s) && RefCounted(s) && EntriesUsed(s) && EntriesDistinct(s) && Enabled(s, step)
    requires sid in Apply(s, step).locks
    ensures Apply(s, step).locks[sid] in Apply(s, step).mutexes && exists t :: Uses(Apply(s, step), t, sid)
  {
    var t := UserNext(s, step, sid);
  }

  lemma EntriesDistinctNext(s: State, step: Step)
    requires EntriesUsed(s) && EntriesDistinct(s) && Enabled(s, step)
    ensures EntriesDistinct(Apply(s, step))
  {
  }

  lemma InvNext(s: State, step: Step)
    requires Inv(s) && Enabled(s, step)
    ensures Inv(Apply(s, step))
  {
    var s' := Apply(s, step);
    forall t | t in s'.calls
      ensures CallOk(s', t)
    {
      CallOkNext(s, step, t);
    }
    forall m | m in s'.mutexes
      ensures s'.mutexes[m].refCount == |Outstanding(s', m)|
    {
      RefCountNext(s, step, m);
    }
    forall sid | sid in s'.locks
      ensures s'.locks[sid] in s'.mutexes && exists t :: Uses(s', t, sid)
    {
      EntryUsedNext(s, step, sid);
    }
    forall m, t | m in s'.mutexes
      ensures OwnerOk(s', m, t)
    {
      OwnerOkNext(s, step, m, t);
    }
    EntriesDistinctNext(s, step);
  }

  lemma {:induction false} InvThroughout(ss: seq<State>, steps: seq<Step>, i: nat)
    requires IsRun(ss, steps) && Inv(ss[0]) && i < |ss|
    ensures Inv(ss[i])
    decreases i
  {
    if i > 0 {
      InvThroughout(ss, steps, i - 1);
      assert Follows(ss, steps, i - 1);
      InvNext(ss[i - 1], steps[i - 1]);
    }
  }

  // ---- safety ----

  // In every interleaving at most one caller holds the lock of a session, also when its entry was
  // deleted and made again in between.
  lemma MutualExclusion(ss: seq<State>, steps: seq<Step>, i: nat, a: nat, b: nat)
    requires IsRun(ss, steps) && ss[0] == INITIAL && i < |ss|
    requires a in ss[i].calls && b in ss[i].calls
    requires ss[i].calls[a].caller == Holding && ss[i].calls[b].caller == Holding
    requires ss[i].calls[a].sid == ss[i].calls[b].sid
    ensures a == b
  {
    InvThroughout(ss, steps, i);
    var s := ss[i];
    assert CallOk(s, a) && CallOk(s, b);
    var m := s.calls[a].mutex;
    assert OwnerOk(s, m, a) && OwnerOk(s, m, b);
  }

  // In every reachable state each mutex counts exactly the unfinished calls on it, each such call is
  // on the mutex the map holds for its session, and the map has an entry for exactly the sessions
  // that unfinished calls use; with none unfinished it is empty.
  lemma ReferencesExact(ss: seq<State>, steps: seq<Step>, i: nat)
    requires IsRun(ss, steps) && ss[0] == INITIAL && i < |ss|
    ensures var s := ss[i];
            && (forall m :: m in s.mutexes ==> s.mutexes[m].refCount == |Outstanding(s, m)|)
            && (forall t :: t in s.calls && s.calls[t].caller != Finished ==>
                  s.calls[t].sid in s.locks && s.locks[s.calls[t].sid] == s.calls[t].mutex)
            && (forall sid :: sid in s.locks <==> exists t :: Uses(s, t, sid))
            && ((forall t :: t in s.calls ==> s.calls[t].caller == Finished) ==> s.locks == map[])
  {
    InvThroughout(ss, steps, i);
    var s := ss[i];
    forall t | t in s.calls && s.calls[t].caller != Finished
      ensures s.calls[t].sid in s.locks && s.locks[s.calls[t].sid] == s.calls[t].mutex
    {
      assert CallOk(s, t);
    }
    forall sid
      ensures sid in s.locks <==> exists t :: Uses(s, t, sid)
    {
    }
  }

  // ---- what a call can do ----

  // A caller that waits can always be cancelled, whatever its helper does. It then leaves a clean-up
  // goroutine behind; the mutexes, their owners and counts, the map and the other calls are as before.
  lemma WaitingCanBeCancelled(ss: seq<State>, steps: seq<Step>, i: nat, t: nat)
    requires IsRun(ss, steps) && ss[0] == INITIAL && i < |ss|
    requires t in ss[i].calls && ss[i].calls[t].caller == Selecting
    ensures Enabled(ss[i], Cancel(t))
    ensures var s, s' := ss[i], Apply(ss[i], Cancel(t));
            && s'.mutexes == s.mutexes && s'.locks == s.locks && s'.calls == s.calls[t := s'.calls[t]]
            && s'.calls[t].caller == CleaningUp && s'.calls[t].helper == s.calls[t].helper
            && s'.calls[t].sid == s.calls[t].sid && s'.calls[t].mutex == s.calls[t].mutex
  {
    InvThroughout(ss, steps, i);
    assert CallOk(ss[i], t);
  }

  // The holder of a lock can always release it, and a free mutex can be taken by any helper that
  // waits for it.
  lemma HolderCanUnlock(ss: seq<State>, steps: seq<Step>, i: nat, t: nat)
    requires IsRun(ss, steps) && ss[0] == INITIAL && i < |ss| && t in ss[i].calls
    ensures ss[i].calls[t].mutex in ss[i].mutexes
    ensures ss[i].calls[t].caller == Holding ==>
            && Enabled(ss[i], Unlock(t)) && ss[i].mutexes[ss[i].calls[t].mutex].owner == Some(t)
            && Apply(ss[i], Unlock(t)).mutexes[ss[i].calls[t].mutex].owner == None
    ensures ss[i].calls[t].helper == Blocked && ss[i].mutexes[ss[i].calls[t].mutex].owner == None ==>
            && Enabled(ss[i], HelperLock(t))
            && Apply(ss[i], HelperLock(t)).mutexes[ss[i].calls[t].mutex].owner == Some(t)
  {
    InvThroughout(ss, steps, i);
    assert CallOk(ss[i], t);
    assert OwnerOk(ss[i], ss[i].calls[t].mutex, t);
  }

  lemma {:induction false} UnusedNumber(used: set<nat>) returns (n: nat)
    ensures forall u :: u in used ==> u < n
    decreases |used|
  {
    if used == {} {
      n := 0;
    } else {
      var u :| u in used;
      var m := UnusedNumber(used - {u});
      n := if u < m then m else u + 1;
      assert forall x :: x in used ==> x == u || x in used - {u};
    }
  }

  // A new call can always register, for any session, whether or not it is in use: on the mutex the map
  // holds for the session, with one more reference, or on a new one.
  lemma AnyoneCanRegister(ss: seq<State>, steps: seq<Step>, i: nat, t: nat, sid: string) returns (step: Step)
    requires IsRun(ss, steps) && ss[0] == INITIAL && i < |ss| && t !in ss[i].calls
    ensures Enabled(ss[i], step) && step.Register? && step.t == t && step.sid == sid
    ensures var s, s' := ss[i], Apply(ss[i], step);
            && t in s'.calls && s'.calls == s.calls[t := s'.calls[t]]
            && s'.calls[t].sid == sid && s'.calls[t].helper == Blocked && s'.calls[t].caller == Selecting
            && sid in s'.locks && s'.locks[sid] == s'.calls[t].mutex && s'.calls[t].mutex in s'.mutexes
            && (sid in s.locks ==> s'.locks == s.locks)
            && (sid in s.locks ==> s'.mutexes[s.locks[sid]].refCount == s.mutexes[s.locks[sid]].refCount + 1)
            && (sid !in s.locks ==> s'.calls[t].mutex !in s.mutexes && s'.mutexes[s'.calls[t].mutex].refCount == 1)
  {
    InvThroughout(ss, steps, i);
    var n := UnusedNumber(ss[i].mutexes.Keys);
    step := Register(t, sid, n);
  }

  predicate IsBeingCleanedUp(c: Call) {
    c.caller == CleaningUp || c.caller == Unlocked
  }

  lemma CallStays(s: State, step: Step, t: nat)
    requires Enabled(s, step) && t in s.calls
    ensures var s' := Apply(s, step);
            && t in s'.calls && s'.calls[t].sid == s.calls[t].sid && s'.calls[t].mutex == s.calls[t].mutex
            && (IsBeingCleanedUp(s.calls[t]) && step != Decrement(t) ==> IsBeingCleanedUp(s'.calls[t]))
  {
  }

  lemma {:induction false} CallStaysThroughout(ss: seq<State>, steps: seq<Step>, i: nat, j: nat, t: nat)
    requires IsRun(ss, steps) && i <= j < |ss| && t in ss[i].calls
    ensures t in ss[j].calls && ss[j].calls[t].sid == ss[i].calls[t].sid && ss[j].calls[t].mutex == ss[i].calls[t].mutex
    ensures IsBeingCleanedUp(ss[i].calls[t]) && (forall n :: i <= n < j ==> steps[n] != Decrement(t)) ==>
            IsBeingCleanedUp(ss[j].calls[t])
    decreases j
  {
    if i < j {
      CallStaysThroughout(ss, steps, i, j - 1, t);
      assert Follows(ss, steps, j - 1);
      CallStays(ss[j - 1], steps[j - 1], t);
    }
  }

  // A call stays on its mutex, and the map holds that mutex for its session until the call's own
  // decrement, also after it was cancelled.
  lemma EntrySurvives(ss: seq<State>, steps: seq<Step>, i: nat, j: nat, t: nat)
    requires IsRun(ss, steps) && ss[0] == INITIAL && i <= j < |ss|
    requires t in ss[i].calls && ss[i].calls[t].caller == CleaningUp
    requires forall n :: i <= n < j ==> steps[n] != Decrement(t)
    ensures var c := ss[i].calls[t]; c.sid in ss[j].locks && ss[j].locks[c.sid] == c.mutex
  {
    CallStaysThroughout(ss, steps, i, j, t);
    InvThroughout(ss, steps, j);
    assert CallOk(ss[j], t);
  }

  // ---- progress ----

  function CallRank(c: Call): nat {
    (match c.helper case Blocked => 2 case Locked => 1 case Signalled => 0) +
    (match c.caller case Selecting => 3 case Holding => 2 case CleaningUp => 2 case Unlocked => 1 case Finished => 0)
  }

  // The steps still ahead: call `t` has the pairs (t, 0), ..., (t, rank - 1).
  function Ahead(s: State): set<(nat, nat)> {
    set t, k | t in s.calls && k in {0, 1, 2, 3, 4} && k < CallRank(s.calls[t]) :: (t, k)
  }

  // Every step but a new call uses up exactly one of the steps ahead.
  lemma StepUsesOne(s: State, step: Step)
    requires CallsOk(s) && Enabled(s, step) && !step.Register?
    ensures |Ahead(Apply(s, step))| == |Ahead(s)| - 1
  {
    var s' := Apply(s, step);
    var r := CallRank(s.calls[step.t]);
    assert CallRank(s'.calls[step.t]) == r - 1;
    assert Ahead(s') == Ahead(s) - {(step.t, r - 1)};
    assert (step.t, r - 1) in Ahead(s);
  }

  // A step of an unfinished call that needs no cancellation: the call's own, or that of the owner
  // it waits for.
  lemma SomeStepEnabled(s: State, t: nat) returns (step: Step)
    requires Inv(s) && t in s.calls && s.calls[t].caller != Finished
    ensures Enabled(s, step) && !step.Register? && !step.Cancel?
  {
    var c := s.calls[t];
    assert CallOk(s, t);
    if c.helper == Blocked && s.mutexes[c.mutex].owner.Some? {
      var u := s.mutexes[c.mutex].owner.value;
      assert OwnerOk(s, c.mutex, u);
      step := OwnStep(s, u);
    } else {
      step := OwnStep(s, t);
    }
  }

  lemma OwnStep(s: State, t: nat) returns (step: Step)
    requires t in s.calls && CallOk(s, t) && s.calls[t].caller != Finished
    requires s.calls[t].helper == Blocked ==> s.mutexes[s.calls[t].mutex].owner == None
    ensures Enabled(s, step) && !step.Register? && !step.Cancel?
  {
    var c := s.calls[t];
    if c.caller == Unlocked {
      step := Decrement(t);
    } else if c.helper == Blocked {
      step := HelperLock(t);
    } else if c.helper == Locked {
      step := HelperSignal(t);
    } else if c.caller == Selecting {
      step := TakeLock(t);
    } else {
      step := Unlock(t);
    }
  }

  lemma RunPrefix(ss: seq<State>, steps: seq<Step>, n: nat)
    requires IsRun(ss, steps) && n <= |steps|
    ensures IsRun(ss[..n + 1], steps[..n])
  {
    var before, first := ss[..n + 1], steps[..n];
    forall i | 0 <= i < n
      ensures Follows(before, first, i)
    {
      assert Follows(ss, steps, i);
    }
  }

  // With no new calls every run is as long as the steps it uses up, so it comes to an end.
  lemma {:induction false} RunsAreBounded(ss: seq<State>, steps: seq<Step>)
    requires IsRun(ss, steps) && Inv(ss[0]) && forall i :: 0 <= i < |steps| ==> !steps[i].Register?
    ensures |steps| == |Ahead(ss[0])| - |Ahead(ss[|steps|])|
    decreases |steps|
  {
    if steps != [] {
      var n := |steps| - 1;
      RunPrefix(ss, steps, n);
      RunsAreBounded(ss[..n + 1], steps[..n]);
      assert ss[..n + 1][n] == ss[n] && Follows(ss, steps, n);
      InvThroughout(ss, steps, n);
      StepUsesOne(ss[n], steps[n]);
    }
  }

  // It can only end with every call finished and an empty map, even if nothing is ever cancelled.
  lemma EndsDrained(ss: seq<State>, steps: seq<Step>)
    requires IsRun(ss, steps) && ss[0] == INITIAL
    requires forall step: Step :: Enabled(ss[|steps|], step) ==> step.Register? || step.Cancel?
    ensures forall t :: t in ss[|steps|].calls ==> ss[|steps|].calls[t].caller == Finished
    ensures ss[|steps|].locks == map[]
  {
    var s := ss[|steps|];
    InvThroughout(ss, steps, |steps|);
    forall t | t in s.calls
      ensures s.calls[t].caller == Finished
    {
      if s.calls[t].caller != Finished {
        var step := SomeStepEnabled(s, t);
      }
    }
    ReferencesExact(ss, steps, |steps|);
  }

  lemma OtherElement(x: set<nat>, t: nat) returns (u: nat)
    requires t in x && |x| != 1
    ensures u in x && u != t
  {
    assert |x - {t}| == |x| - 1;
    u :| u in x - {t};
  }
}
