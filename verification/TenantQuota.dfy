// internal/usecase/tenant_quota.go: TenantQuotaTracker used by one caller at a time.
// QuotaRaces models the races on the first use of a tenant.
module TenantQuota {
  import opened Sequences

  datatype Counters = Counters(sessions: int, toolCalls: int, llmTokens: int)

  const ZERO := Counters(0, 0, 0)

  datatype Op = IncrementSession | DecrementSession | IncrementToolCall | AddTokens(count: int)

  datatype Use = Use(tenant: string, op: Op)

  function Update(c: Counters, op: Op): Counters {
    match op
    case IncrementSession => c.(sessions := c.sessions + 1)
    case DecrementSession => if c.sessions > 0 then c.(sessions := c.sessions - 1) else c
    case IncrementToolCall => c.(toolCalls := c.toolCalls + 1)
    case AddTokens(n) => c.(llmTokens := c.llmTokens + n)
  }

  // The counters of a tenant after a history of uses, all tenants' uses interleaved.
  function Replay(history: seq<Use>, tenant: string): Counters {
    if history == [] then ZERO
    else
      var before, last := Replay(history[..|history| - 1], tenant), history[|history| - 1];
      if last.tenant == tenant then Update(before, last.op) else before
  }

  class TenantQuotaTracker {
    var counters: map<string, Counters>
    var resetDate: string
    // The uses since the last reset.
    ghost var history: seq<Use>

    // A tenant's counters are the replay of all uses since the last reset.
    ghost predicate Valid()
      reads this
    {
      forall tenant :: Count(tenant) == Replay(history, tenant)
    }

    function Count(tenant: string): Counters
      reads this
    {
      if tenant in counters then counters[tenant] else ZERO
    }

    constructor (today: string)
      ensures Valid() && resetDate == today && history == []
    {
      counters, resetDate, history := map[], today, [];
    }

    method ResetIfNewDay(today: string)
      requires Valid()
      modifies this
      ensures Valid() && resetDate == today
      ensures history == if today == old(resetDate) then old(history) else []
    {
      if today == resetDate {
        return;
      }
      counters, resetDate, history := map[], today, [];
    }

    method GetCounters(tenant: string, today: string) returns (c: Counters)
      requires Valid()
      modifies this
      ensures Valid() && resetDate == today && tenant in counters && counters[tenant] == c
      ensures history == if today == old(resetDate) then old(history) else []
    {
      ResetIfNewDay(today);
      if tenant !in counters {
        counters := counters[tenant := ZERO];
      }
      c := counters[tenant];
    }

    method Record(tenant: string, op: Op, today: string)
      requires Valid()
      modifies this
      ensures Valid() && resetDate == today
      ensures history == (if today == old(resetDate) then old(history) else []) + [Use(tenant, op)]
    {
      var c := GetCounters(tenant, today);
      ReplayNext(history, Use(tenant, op));
      counters := counters[tenant := Update(c, op)];
      history := history + [Use(tenant, op)];
    }

    // The limit checks: an error exactly when a limit is set and the uses since the last reset reach it.
    method CheckLimit(tenant: string, limit: int, of: Counters -> int, today: string) returns (hit: bool)
      requires Valid()
      modifies this
      ensures Valid() && history == if limit <= 0 || today == old(resetDate) then old(history) else []
      ensures hit <==> limit > 0 && of(Replay(history, tenant)) >= limit
    {
      if limit <= 0 {
        return false;
      }
      var c := GetCounters(tenant, today);
      assert Count(tenant) == c;
      hit := of(c) >= limit;
    }
  }

  lemma ReplayNext(history: seq<Use>, u: Use)
    ensures forall tenant :: Replay(history + [u], tenant) ==
              if tenant == u.tenant then Update(Replay(history, tenant), u.op) else Replay(history, tenant)
  {
    Front(history, u);
  }

  // ---- what the clamped count means ----

  function Net(history: seq<Use>, tenant: string): int {
    if history == [] then 0
    else
      var last := history[|history| - 1];
      Net(history[..|history| - 1], tenant) +
      if last.tenant != tenant then 0
      else if last.op.IncrementSession? then 1
      else if last.op.DecrementSession? then -1
      else 0
  }

  function NetFrom(history: seq<Use>, tenant: string, k: nat): int
    requires k <= |history|
  {
    Net(history[k..], tenant)
  }

  lemma NetFromSnoc(history: seq<Use>, u: Use, tenant: string, k: nat)
    requires k <= |history|
    ensures NetFrom(history + [u], tenant, k) == NetFrom(history, tenant, k) + Net([u], tenant)
  {
    assert (history + [u])[k..] == history[k..] + [u];
    Front(history[k..], u);
    assert [u][..0] == [];
  }

  // The session count is the largest number of sessions that any end part of the history opened more
  // than it closed; so it is never negative, and a surplus of decrements is forgotten.
  lemma {:induction false} SessionsAreLargestSurplus(history: seq<Use>, tenant: string)
    ensures forall k :: 0 <= k <= |history| ==> NetFrom(history, tenant, k) <= Replay(history, tenant).sessions
    ensures exists k :: 0 <= k <= |history| && NetFrom(history, tenant, k) == Replay(history, tenant).sessions
  {
    var n := |history|;
    assert history[n..] == [] && NetFrom(history, tenant, n) == 0;
    if n > 0 {
      var front, u := history[..n - 1], history[n - 1];
      SessionsAreLargestSurplus(front, tenant);
      Snoc(history);
      SurplusNext(front, u, tenant);
    }
  }

  lemma SurplusNext(front: seq<Use>, u: Use, tenant: string)
    requires forall k :: 0 <= k <= |front| ==> NetFrom(front, tenant, k) <= Replay(front, tenant).sessions
    requires exists k :: 0 <= k <= |front| && NetFrom(front, tenant, k) == Replay(front, tenant).sessions
    ensures forall k :: 0 <= k <= |front| + 1 ==>
              NetFrom(front + [u], tenant, k) <= Replay(front + [u], tenant).sessions
    ensures exists k :: 0 <= k <= |front| + 1 && NetFrom(front + [u], tenant, k) == Replay(front + [u], tenant).sessions
  {
    var all, n := front + [u], |front| + 1;
    ReplayNext(front, u);
    var step := Net([u], tenant);
    assert [u][..0] == [];
    assert all[n..] == [] && NetFrom(all, tenant, n) == 0;
    assert NetFrom(front, tenant, |front|) == 0 by { assert front[|front|..] == []; }
    forall k | 0 <= k <= |front|
      ensures NetFrom(all, tenant, k) == NetFrom(front, tenant, k) + step
    {
      NetFromSnoc(front, u, tenant, k);
    }
    var k :| 0 <= k <= |front| && NetFrom(front, tenant, k) == Replay(front, tenant).sessions;
    if Replay(all, tenant).sessions == Replay(front, tenant).sessions + step {
      assert NetFrom(all, tenant, k) == Replay(all, tenant).sessions;
    } else {
      assert NetFrom(all, tenant, n) == Replay(all, tenant).sessions;
    }
  }

  // The tokens each use adds for the tenant.
  function Tokens(history: seq<Use>, tenant: string): seq<int> {
    seq(|history|, i requires 0 <= i < |history| =>
      if history[i].tenant == tenant && history[i].op.AddTokens? then history[i].op.count else 0)
  }

  // The tokens of the tenant since the last reset are summed.
  lemma {:induction false} TokensAreSummed(history: seq<Use>, tenant: string)
    ensures Replay(history, tenant).llmTokens == Sum(Tokens(history, tenant))
  {
    if history != [] {
      var n := |history| - 1;
      TokensAreSummed(history[..n], tenant);
      var u := history[n];
      var x := if u.tenant == tenant && u.op.AddTokens? then u.op.count else 0;
      assert Tokens(history, tenant) == Tokens(history[..n], tenant) + [x];
      SumAppend(Tokens(history[..n], tenant), x);
    }
  }

  function Calls(history: seq<Use>, tenant: string): set<nat> {
    set i | 0 <= i < |history| && history[i] == Use(tenant, IncrementToolCall)
  }

  // Every tool call of the tenant since the last reset is counted once.
  lemma {:induction false} ToolCallsAreCounted(history: seq<Use>, tenant: string)
    ensures Replay(history, tenant).toolCalls == |Calls(history, tenant)|
  {
    if history != [] {
      var n := |history| - 1;
      ToolCallsAreCounted(history[..n], tenant);
      assert n !in Calls(history[..n], tenant);
      assert Calls(history, tenant) ==
             if history[n] == Use(tenant, IncrementToolCall) then Calls(history[..n], tenant) + {n}
             else Calls(history[..n], tenant);
    }
  }
}
