// internal/usecase/tenant_quota.go: many callers racing on the counters while the date stays the same.
//
// A caller looks the tenant up under the read lock; if it is missing it takes the write lock, looks
// again and creates the counters object. Adding to the object is one atomic step.
module QuotaRaces {
  import opened Sequences

  // An increment or an addition of tokens to one of the three counters.
  datatype Amount = Amount(sessions: int, toolCalls: int, llmTokens: int)

  function Plus(a: Amount, b: Amount): Amount {
    Amount(a.sessions + b.sessions, a.toolCalls + b.toolCalls, a.llmTokens + b.llmTokens)
  }

  const ZERO := Amount(0, 0, 0)

  datatype Phase = Missed | Got(cell: nat) | Added(cell: nat)

  datatype Caller = Caller(tenant: string, amount: Amount, phase: Phase)

  // `cells` are the counters objects; `log` lists the callers that have added, in order.
  datatype State = State(counters: map<string, nat>, cells: map<nat, Amount>, callers: map<nat, Caller>, log: seq<nat>)

  const INITIAL := State(map[], map[], map[], [])

  datatype Step =
    | Lookup(t: nat, tenant: string, amount: Amount)
    | Create(t: nat, unused: nat)
    | Add(t: nat)

  predicate Enabled(s: State, step: Step) {
    match step
    case Lookup(t, _, _) => t !in s.callers
    case Create(t, unused) => t in s.callers && s.callers[t].phase.Missed? && unused !in s.cells
    case Add(t) => t in s.callers && s.callers[t].phase.Got? && s.callers[t].phase.cell in s.cells
  }

  function Apply(s: State, step: Step): State
    requires Enabled(s, step)
  {
    match step
    case Lookup(t, tenant, amount) =>
      var phase := if tenant in s.counters then Got(s.counters[tenant]) else Missed;
      s.(callers := s.callers[t := Caller(tenant, amount, phase)])
    case Create(t, unused) =>
      var c := s.callers[t];
      if c.tenant in s.counters
      then s.(callers := s.callers[t := c.(phase := Got(s.counters[c.tenant]))])
      else s.(counters := s.counters[c.tenant := unused], cells := s.cells[unused := ZERO],
              callers := s.callers[t := c.(phase := Got(unused))])
    case Add(t) =>
      var c := s.callers[t];
      s.(cells := s.cells[c.phase.cell := Plus(s.cells[c.phase.cell], c.amount)],
         callers := s.callers[t := c.(phase := Added(c.phase.cell))],
         log := s.log + [t])
  }

  ghost predicate IsRun(ss: seq<State>, steps: seq<Step>) {
    |ss| == |steps| + 1 && forall i :: 0 <= i < |steps| ==> Follows(ss, steps, i)
  }

  ghost predicate Follows(ss: seq<State>, steps: seq<Step>, i: nat)
    requires |ss| == |steps| + 1 && i < |steps|
  {
    Enabled(ss[i], steps[i]) && ss[i + 1] == Apply(ss[i], steps[i])
  }

  // What the logged callers added for `tenant`.
  function Total(callers: map<nat, Caller>, log: seq<nat>, tenant: string): Amount
    requires forall i :: 0 <= i < |log| ==> log[i] in callers
  {
    if log == [] then ZERO
    else
      var before, c := Total(callers, log[..|log| - 1], tenant), callers[log[|log| - 1]];
      if c.tenant == tenant then Plus(before, c.amount) else before
  }

  predicate CallerOk(s: State, c: Caller) {
    c.phase.Missed? || (c.tenant in s.counters && s.counters[c.tenant] == c.phase.cell)
  }

  // Each caller that has added is in the log once.
  ghost predicate LogExact(s: State) {
    && (forall i :: 0 <= i < |s.log| ==> s.log[i] in s.callers && s.callers[s.log[i]].phase.Added?)
    && (forall i, j :: 0 <= i < j < |s.log| ==> s.log[i] != s.log[j])
    && (forall t :: t in s.callers && s.callers[t].phase.Added? ==> t in s.log)
  }

  ghost predicate CellsDistinct(s: State) {
    && (forall a :: a in s.counters ==> s.counters[a] in s.cells)
    && (forall a, b :: a in s.counters && b in s.counters && s.counters[a] == s.counters[b] ==> a == b)
  }

  ghost predicate Inv(s: State) {
    && (forall t :: t in s.callers ==> CallerOk(s, s.callers[t]))
    && LogExact(s)
    && CellsDistinct(s)
    && (forall tenant :: Balanced(s, tenant))
  }

  // Nothing is lost: the tenant's object holds all that was added for it.
  ghost predicate Balanced(s: State, tenant: string)
    requires LogExact(s) && CellsDistinct(s)
  {
    Total(s.callers, s.log, tenant) == if tenant in s.counters then s.cells[s.counters[tenant]] else ZERO
  }

  // A change of phases does not change the totals.
  lemma {:induction false} TotalSame(a: map<nat, Caller>, b: map<nat, Caller>, log: seq<nat>, tenant: string)
    requires forall i :: 0 <= i < |log| ==>
      log[i] in a && log[i] in b && a[log[i]].tenant == b[log[i]].tenant && a[log[i]].amount == b[log[i]].amount
    ensures Total(a, log, tenant) == Total(b, log, tenant)
  {
    if log != [] {
      TotalSame(a, b, log[..|log| - 1], tenant);
    }
  }

  lemma CallersNext(s: State, step: Step, t: nat)
    requires Inv(s) && Enabled(s, step) && t in Apply(s, step).callers
    ensures CallerOk(Apply(s, step), Apply(s, step).callers[t])
  {
    if t in s.callers {
      assert CallerOk(s, s.callers[t]);
    }
  }

  lemma LogNext(s: State, step: Step)
    requires Inv(s) && Enabled(s, step)
    ensures LogExact(Apply(s, step))
  {
    var s' := Apply(s, step);
    if step.Add? {
      assert step.t !in s.log;
      assert forall t :: t in s'.log <==> t in s.log || t == step.t;
    }
  }

  lemma CellsNext(s: State, step: Step)
    requires Inv(s) && Enabled(s, step)
    ensures CellsDistinct(Apply(s, step))
  {
  }

  lemma AddBalanced(s: State, t: nat, tenant: string)
    requires Inv(s) && Enabled(s, Add(t)) && LogExact(Apply(s, Add(t))) && CellsDistinct(Apply(s, Add(t)))
    ensures Balanced(Apply(s, Add(t)), tenant)
  {
    var s', c := Apply(s, Add(t)), s.callers[t];
    assert Balanced(s, tenant) && CallerOk(s, c);
    TotalSame(s.callers, s'.callers, s.log, tenant);
    TotalSnoc(s'.callers, s.log, t, tenant);
  }

  lemma TotalSnoc(callers: map<nat, Caller>, log: seq<nat>, t: nat, tenant: string)
    requires (forall i :: 0 <= i < |log| ==> log[i] in callers) && t in callers
    ensures forall i :: 0 <= i < |log + [t]| ==> (log + [t])[i] in callers
    ensures Total(callers, log + [t], tenant) ==
            if callers[t].tenant == tenant then Plus(Total(callers, log, tenant), callers[t].amount)
            else Total(callers, log, tenant)
  {
    Front(log, t);
  }

  lemma BalancedNext(s: State, step: Step, tenant: string)
    requires Inv(s) && Enabled(s, step) && LogExact(Apply(s, step)) && CellsDistinct(Apply(s, step))
    ensures Balanced(Apply(s, step), tenant)
  {
    if step.Add? {
      AddBalanced(s, step.t, tenant);
    } else {
      assert Balanced(s, tenant);
      TotalSame(s.callers, Apply(s, step).callers, s.log, tenant);
    }
  }

  lemma InvNext(s: State, step: Step)
    requires Inv(s) && Enabled(s, step)
    ensures Inv(Apply(s, step))
  {
    var s' := Apply(s, step);
    LogNext(s, step);
    CellsNext(s, step);
    forall t | t in s'.callers
      ensures CallerOk(s', s'.callers[t])
    {
      CallersNext(s, step, t);
    }
    forall tenant
      ensures Balanced(s', tenant)
    {
      BalancedNext(s, step, tenant);
    }
  }

  lemma {:induction false} InvThroughout(ss: seq<State>, steps: seq<Step>, i: nat)
    requires IsRun(ss, steps) && ss[0] == INITIAL && i < |ss|
    ensures Inv(ss[i])
  {
    if i > 0 {
      InvThroughout(ss, steps, i - 1);
      assert Follows(ss, steps, i - 1);
      InvNext(ss[i - 1], steps[i - 1]);
    }
  }

  // Callers racing on the first use of a tenant all get the same counters object.
  lemma SameObject(ss: seq<State>, steps: seq<Step>, i: nat, a: nat, b: nat)
    requires IsRun(ss, steps) && ss[0] == INITIAL && i < |ss|
    requires a in ss[i].callers && b in ss[i].callers && ss[i].callers[a].tenant == ss[i].callers[b].tenant
    requires !ss[i].callers[a].phase.Missed? && !ss[i].callers[b].phase.Missed?
    ensures ss[i].callers[a].phase.cell == ss[i].callers[b].phase.cell
  {
    InvThroughout(ss, steps, i);
    assert CallerOk(ss[i], ss[i].callers[a]) && CallerOk(ss[i], ss[i].callers[b]);
  }

  // What each logged caller added for the tenant, by counter.
  function Additions(callers: map<nat, Caller>, log: seq<nat>, tenant: string): seq<Amount>
    requires forall i :: 0 <= i < |log| ==> log[i] in callers
  {
    seq(|log|, i requires 0 <= i < |log| => if callers[log[i]].tenant == tenant then callers[log[i]].amount else Amount(0, 0, 0))
  }

  function SessionsIn(s: seq<Amount>): seq<int> { seq(|s|, i requires 0 <= i < |s| => s[i].sessions) }

  function ToolCallsIn(s: seq<Amount>): seq<int> { seq(|s|, i requires 0 <= i < |s| => s[i].toolCalls) }

  function TokensIn(s: seq<Amount>): seq<int> { seq(|s|, i requires 0 <= i < |s| => s[i].llmTokens) }

  lemma SumsAppend(s: seq<Amount>, a: Amount)
    ensures Sum(SessionsIn(s + [a])) == Sum(SessionsIn(s)) + a.sessions
    ensures Sum(ToolCallsIn(s + [a])) == Sum(ToolCallsIn(s)) + a.toolCalls
    ensures Sum(TokensIn(s + [a])) == Sum(TokensIn(s)) + a.llmTokens
  {
    assert SessionsIn(s + [a]) == SessionsIn(s) + [a.sessions];
    assert ToolCallsIn(s + [a]) == ToolCallsIn(s) + [a.toolCalls];
    assert TokensIn(s + [a]) == TokensIn(s) + [a.llmTokens];
    SumAppend(SessionsIn(s), a.sessions);
    SumAppend(ToolCallsIn(s), a.toolCalls);
    SumAppend(TokensIn(s), a.llmTokens);
  }

  // The total is the sum, counter by counter.
  lemma {:induction false} TotalIsSum(callers: map<nat, Caller>, log: seq<nat>, tenant: string)
    requires forall i :: 0 <= i < |log| ==> log[i] in callers
    ensures var total, added := Total(callers, log, tenant), Additions(callers, log, tenant);
            && total.sessions == Sum(SessionsIn(added)) && total.toolCalls == Sum(ToolCallsIn(added))
            && total.llmTokens == Sum(TokensIn(added))
    decreases |log|
  {
    if log != [] {
      var n := |log| - 1;
      TotalIsSum(callers, log[..n], tenant);
      var a := if callers[log[n]].tenant == tenant then callers[log[n]].amount else Amount(0, 0, 0);
      assert Additions(callers, log, tenant) == Additions(callers, log[..n], tenant) + [a];
      SumsAppend(Additions(callers, log[..n], tenant), a);
    }
  }

  // At any moment a tenant's object holds exactly the sum over the callers that have added to it,
  // each of them once.
  lemma NoAdditionLost(ss: seq<State>, steps: seq<Step>, i: nat, tenant: string)
    requires IsRun(ss, steps) && ss[0] == INITIAL && i < |ss|
    ensures LogExact(ss[i]) && CellsDistinct(ss[i]) && Balanced(ss[i], tenant)
    ensures tenant in ss[i].counters ==>
            var cell, added := ss[i].cells[ss[i].counters[tenant]], Additions(ss[i].callers, ss[i].log, tenant);
            && cell.sessions == Sum(SessionsIn(added)) && cell.toolCalls == Sum(ToolCallsIn(added))
            && cell.llmTokens == Sum(TokensIn(added))
  {
    InvThroughout(ss, steps, i);
    TotalIsSum(ss[i].callers, ss[i].log, tenant);
  }
}
