/** Tenant quotas: the store's per-metric reservations and the engine that reserves several metrics at once. */
module Quota {
  import opened Wrappers

  datatype Metric = InstanceCount | Vcpu | MemoryMB | StorageMB | Ipv4

  /** The names the engine stores its metrics under. */
  function Name(m: Metric): string {
    match m
    case InstanceCount => "instance_count"
    case Vcpu => "vcpu_hours"
    case MemoryMB => "ram_gb_hours"
    case StorageMB => "storage_gb_months"
    case Ipv4 => "ipv4_addresses"
  }

  datatype Item = Item(limit: int, usage: int)

  /** The store, one item for each tenant and metric that has been touched. */
  type Quotas = map<(string, Metric), Item>

  datatype Spec = Spec(instances: int, vcpu: int, memoryMB: int, storageMB: int, ipv4: int)

  datatype Plan = Plan(maxInstances: int, maxVcpu: int, maxMemoryMB: int, maxStorageMB: int)

  /** A missing item reads as no usage. */
  function Usage(q: Quotas, tenant: string, m: Metric): int {
    if (tenant, m) in q then q[(tenant, m)].usage else 0
  }

  function Positive(amount: int): nat {
    if amount > 0 then amount else 0
  }

  /** The amount a reservation asks for in a metric; amounts of zero or less, and addresses, are not asked for. */
  function Asked(spec: Spec, m: Metric): nat {
    match m
    case InstanceCount => Positive(spec.instances)
    case Vcpu => Positive(spec.vcpu)
    case MemoryMB => Positive(spec.memoryMB)
    case StorageMB => Positive(spec.storageMB)
    case Ipv4 => 0
  }

  /** The amount a release gives back; unlike a reservation it counts addresses. */
  function Returned(spec: Spec, m: Metric): nat {
    if m.Ipv4? then Positive(spec.ipv4) else Asked(spec, m)
  }

  function Limit(plan: Plan, m: Metric): int {
    match m
    case InstanceCount => plan.maxInstances
    case Vcpu => plan.maxVcpu
    case MemoryMB => plan.maxMemoryMB
    case StorageMB => plan.maxStorageMB
    case Ipv4 => 0
  }

  /** The item a reservation looks at: created if missing, its limit replaced by a positive one. */
  function Prepared(q: Quotas, tenant: string, m: Metric, limit: int): Item {
    if (tenant, m) !in q then Item(limit, 0)
    else if limit > 0 then q[(tenant, m)].(limit := limit)
    else q[(tenant, m)]
  }

  predicate Room(i: Item, delta: int) {
    i.limit > 0 ==> i.usage + delta <= i.limit
  }

  function StoreReserve(q: Quotas, tenant: string, m: Metric, delta: int, limit: int): (Quotas, bool) {
    var i := Prepared(q, tenant, m, limit);
    if Room(i, delta) then (q[(tenant, m) := i.(usage := i.usage + delta)], true)
    else (q[(tenant, m) := i], false)
  }

  function Clamped(x: int): int {
    if x < 0 then 0 else x
  }

  function StoreRelease(q: Quotas, tenant: string, m: Metric, delta: int): Quotas {
    if (tenant, m) in q
    then q[(tenant, m) := q[(tenant, m)].(usage := Clamped(q[(tenant, m)].usage - delta))] else q
  }

  ghost predicate NonNegative(q: Quotas) {
    forall k | k in q :: 0 <= q[k].usage
  }

  ghost predicate SameUsage(q: Quotas, r: Quotas) {
    forall t, m :: Usage(q, t, m) == Usage(r, t, m)
  }

  /** Usages after a reservation, or a release, of a whole request by one tenant. */
  ghost predicate Raised(q: Quotas, r: Quotas, tenant: string, spec: Spec) {
    forall t, m :: Usage(r, t, m) == Usage(q, t, m) + if t == tenant then Asked(spec, m) else 0
  }

  ghost predicate Lowered(q: Quotas, r: Quotas, tenant: string, spec: Spec) {
    forall t, m :: Usage(r, t, m) == if t == tenant then Clamped(Usage(q, t, m) - Returned(spec, m)) else Usage(q, t, m)
  }

  class QuotaRepo {
    var quotas: Quotas

    constructor ()
      ensures quotas == map[]
    {
      quotas := map[];
    }

    method ReserveQuota(tenant: string, m: Metric, delta: int, limit: int) returns (ok: bool)
      modifies this
      ensures (quotas, ok) == StoreReserve(old(quotas), tenant, m, delta, limit)
    {
      if (tenant, m) !in quotas {
        quotas := quotas[(tenant, m) := Item(limit, 0)];
      }
      if limit > 0 && quotas[(tenant, m)].limit != limit {
        quotas := quotas[(tenant, m) := quotas[(tenant, m)].(limit := limit)];
      }
      var i := quotas[(tenant, m)];
      assert quotas == old(quotas)[(tenant, m) := i] && i == Prepared(old(quotas), tenant, m, limit);
      ok := !(i.limit > 0 && i.usage + delta > i.limit);
      if ok {
        quotas := quotas[(tenant, m) := i.(usage := i.usage + delta)];
        assert quotas == old(quotas)[(tenant, m) := i.(usage := i.usage + delta)];
      }
    }

    method ReleaseQuota(tenant: string, m: Metric, delta: int)
      modifies this
      ensures quotas == StoreRelease(old(quotas), tenant, m, delta)
    {
      if (tenant, m) in quotas {
        var i := quotas[(tenant, m)];
        i := i.(usage := i.usage - delta);
        if i.usage < 0 {
          i := i.(usage := 0);
        }
        quotas := quotas[(tenant, m) := i];
      }
    }
  }

  /** Usages of the tenant raised by the request in the metrics already reserved; other tenants' as before. */
  ghost predicate Partly(q: Quotas, r: Quotas, tenant: string, spec: Spec, done: set<Metric>) {
    forall t, m :: Usage(r, t, m) == Usage(q, t, m) + if t == tenant && m in done then Asked(spec, m) else 0
  }

  /** Within its own limit wherever that is positive. */
  ghost predicate Bounded(q: Quotas, tenant: string, spec: Spec, plan: Plan, done: set<Metric>) {
    forall m | m in done && Asked(spec, m) > 0 ::
      && (tenant, m) in q
      && (q[(tenant, m)].limit > 0 ==> q[(tenant, m)].usage <= q[(tenant, m)].limit)
      && (Limit(plan, m) > 0 ==> q[(tenant, m)].limit == Limit(plan, m))
  }

  ghost predicate PartlyLowered(q: Quotas, r: Quotas, tenant: string, spec: Spec, done: set<Metric>) {
    forall t, m :: Usage(r, t, m) ==
                   if t == tenant && m in done then Clamped(Usage(q, t, m) - Returned(spec, m)) else Usage(q, t, m)
  }

  /** A metric of a request that can be granted as the store stands. */
  ghost predicate Grantable(q: Quotas, tenant: string, spec: Spec, plan: Plan, m: Metric) {
    Asked(spec, m) == 0 || Room(Prepared(q, tenant, m, Limit(plan, m)), Asked(spec, m))
  }

  /** The store after one metric of a request was tried: nothing is done for a metric not asked for. */
  function Tried(q: Quotas, tenant: string, spec: Spec, plan: Plan, m: Metric): (Quotas, bool) {
    if Asked(spec, m) > 0 then StoreReserve(q, tenant, m, Asked(spec, m), Limit(plan, m)) else (q, true)
  }

  lemma TriedUsage(q: Quotas, r: Quotas, tenant: string, spec: Spec, plan: Plan, m: Metric, done: set<Metric>)
    requires Partly(q, r, tenant, spec, done) && m !in done && NonNegative(r)
    ensures var (after, ok) := Tried(r, tenant, spec, plan, m);
            && NonNegative(after)
            && Partly(q, after, tenant, spec, if ok then done + {m} else done)
            && (ok <==> Grantable(r, tenant, spec, plan, m))
  {
    var (after, ok) := Tried(r, tenant, spec, plan, m);
    TriedEffect(r, tenant, spec, plan, m);
    assert Partly(q, after, tenant, spec, if ok then done + {m} else done) by {
      hide Tried, Usage, Asked;
    }
  }

  lemma TriedEffect(r: Quotas, tenant: string, spec: Spec, plan: Plan, m: Metric)
    ensures var (after, ok) := Tried(r, tenant, spec, plan, m);
            forall t, n ::
              Usage(after, t, n) == Usage(r, t, n) + if ok && t == tenant && n == m then Asked(spec, m) else 0
  {
  }

  lemma ReleasedUsage(r: Quotas, tenant: string, spec: Spec, m: Metric)
    requires NonNegative(r)
    ensures var after := StoreRelease(r, tenant, m, Returned(spec, m));
            && NonNegative(after)
            && forall t, n ::
                 Usage(after, t, n) ==
                 if t == tenant && n == m then Clamped(Usage(r, t, n) - Returned(spec, m)) else Usage(r, t, n)
  {
  }

  lemma AddressesAreGranted(q: Quotas, tenant: string, spec: Spec, plan: Plan)
    ensures Grantable(q, tenant, spec, plan, Ipv4)
  {
  }

  lemma NothingDone(q: Quotas, tenant: string, spec: Spec, plan: Plan)
    ensures Partly(q, q, tenant, spec, {}) && Bounded(q, tenant, spec, plan, {})
  {
  }

  lemma AllUndone(q: Quotas, r: Quotas, tenant: string, spec: Spec)
    requires Partly(q, r, tenant, spec, {})
    ensures SameUsage(q, r)
  {
  }

  lemma AllDone(q: Quotas, r: Quotas, tenant: string, spec: Spec)
    requires Partly(q, r, tenant, spec, {InstanceCount, Vcpu, MemoryMB, StorageMB})
    ensures Raised(q, r, tenant, spec)
  {
  }

  lemma TriedBounds(r: Quotas, tenant: string, spec: Spec, plan: Plan, m: Metric, done: set<Metric>)
    requires Bounded(r, tenant, spec, plan, done) && m !in done
    ensures var (after, ok) := Tried(r, tenant, spec, plan, m); ok ==> Bounded(after, tenant, spec, plan, done + {m})
  {
  }

  lemma TriedOthers(r: Quotas, tenant: string, spec: Spec, plan: Plan, m: Metric)
    ensures forall n | n != m ::
              Grantable(Tried(r, tenant, spec, plan, m).0, tenant, spec, plan, n) <==>
                Grantable(r, tenant, spec, plan, n)
  {
  }

  class QuotaEngine {
    const repo: QuotaRepo

    constructor (repo: QuotaRepo)
      ensures this.repo == repo
    {
      this.repo := repo;
    }

    /** One metric of a request: nothing to do unless it asks for something. */
    method TryMetric(tenant: string, spec: Spec, plan: Plan, m: Metric, ghost q: Quotas, ghost done: set<Metric>)
      returns (ok: bool)
      requires Partly(q, repo.quotas, tenant, spec, done) && m !in done
      requires Bounded(repo.quotas, tenant, spec, plan, done)
      requires NonNegative(repo.quotas)
      modifies repo
      ensures NonNegative(repo.quotas)
      ensures Partly(q, repo.quotas, tenant, spec, if ok then done + {m} else done)
      ensures ok ==> Bounded(repo.quotas, tenant, spec, plan, done + {m})
      ensures ok <==> Grantable(old(repo.quotas), tenant, spec, plan, m)
      ensures forall n | n != m :: Grantable(repo.quotas, tenant, spec, plan, n) <==>
              Grantable(old(repo.quotas), tenant, spec, plan, n)
    {
      hide NonNegative, Partly, Bounded, Grantable, StoreReserve;
      TriedUsage(q, repo.quotas, tenant, spec, plan, m, done);
      TriedBounds(repo.quotas, tenant, spec, plan, m, done);
      TriedOthers(repo.quotas, tenant, spec, plan, m);
      ok := true;
      if Asked(spec, m) > 0 {
        ok := repo.ReserveQuota(tenant, m, Asked(spec, m), Limit(plan, m));
      }
    }

    method Undo(tenant: string, spec: Spec, m: Metric, ghost q: Quotas, ghost done: set<Metric>)
      requires NonNegative(q) && NonNegative(repo.quotas)
      requires Partly(q, repo.quotas, tenant, spec, done) && m in done
      modifies repo
      ensures NonNegative(repo.quotas)
      ensures Partly(q, repo.quotas, tenant, spec, done - {m})
    {
      if Asked(spec, m) > 0 {
        assert Usage(q, tenant, m) >= 0;
        repo.ReleaseQuota(tenant, m, Asked(spec, m));
      }
    }

    /**
     All four metrics or none: on failure every usage is as before, of every tenant; on success each is raised
     by what was asked, and each metric asked for is within its positive limit.
     */
    method ReserveQuota(tenant: string, spec: Spec, plan: Option<Plan>) returns (ok: bool)
      requires NonNegative(repo.quotas)
      modifies repo
      ensures NonNegative(repo.quotas)
      ensures !ok ==> SameUsage(old(repo.quotas), repo.quotas)
      ensures ok ==> plan.Some? && Raised(old(repo.quotas), repo.quotas, tenant, spec)
                     && Bounded(repo.quotas, tenant, spec, plan.value, {InstanceCount, Vcpu, MemoryMB, StorageMB})
      ensures ok <==> plan.Some? && forall m :: Grantable(old(repo.quotas), tenant, spec, plan.value, m)
    {
      if plan.None? {
        return false;
      }
      hide Usage, Asked, NonNegative, Partly, Bounded, Grantable, SameUsage, Raised;
      ghost var q := repo.quotas;
      NothingDone(q, tenant, spec, plan.value);
      AddressesAreGranted(q, tenant, spec, plan.value);
      ok := TryMetric(tenant, spec, plan.value, InstanceCount, q, {});
      if !ok {
        AllUndone(q, repo.quotas, tenant, spec);
        return;
      }
      assert {} + {InstanceCount} == {InstanceCount};
      ok := TryMetric(tenant, spec, plan.value, Vcpu, q, {InstanceCount});
      if !ok {
        Undo(tenant, spec, InstanceCount, q, {InstanceCount});
        AllUndone(q, repo.quotas, tenant, spec);
        return;
      }
      assert {InstanceCount} + {Vcpu} == {InstanceCount, Vcpu};
      ok := TryMetric(tenant, spec, plan.value, MemoryMB, q, {InstanceCount, Vcpu});
      if !ok {
        Undo(tenant, spec, InstanceCount, q, {InstanceCount, Vcpu});
        assert {InstanceCount, Vcpu} - {InstanceCount} == {Vcpu};
        Undo(tenant, spec, Vcpu, q, {Vcpu});
        AllUndone(q, repo.quotas, tenant, spec);
        return;
      }
      assert {InstanceCount, Vcpu} + {MemoryMB} == {InstanceCount, Vcpu, MemoryMB};
      ok := TryMetric(tenant, spec, plan.value, StorageMB, q, {InstanceCount, Vcpu, MemoryMB});
      if !ok {
        Undo(tenant, spec, InstanceCount, q, {InstanceCount, Vcpu, MemoryMB});
        assert {InstanceCount, Vcpu, MemoryMB} - {InstanceCount} == {Vcpu, MemoryMB};
        Undo(tenant, spec, Vcpu, q, {Vcpu, MemoryMB});
        assert {Vcpu, MemoryMB} - {Vcpu} == {MemoryMB};
        Undo(tenant, spec, MemoryMB, q, {MemoryMB});
        AllUndone(q, repo.quotas, tenant, spec);
        return;
      }
      assert {InstanceCount, Vcpu, MemoryMB} + {StorageMB} == {InstanceCount, Vcpu, MemoryMB, StorageMB};
      AllDone(q, repo.quotas, tenant, spec);
    }

    method ReleaseMetric(tenant: string, spec: Spec, m: Metric, ghost q: Quotas, ghost done: set<Metric>)
      requires NonNegative(repo.quotas)
      requires PartlyLowered(q, repo.quotas, tenant, spec, done) && m !in done
      modifies repo
      ensures NonNegative(repo.quotas)
      ensures PartlyLowered(q, repo.quotas, tenant, spec, done + {m})
    {
      assert Usage(repo.quotas, tenant, m) >= 0;
      ReleasedUsage(repo.quotas, tenant, spec, m);
      hide StoreRelease, Returned, Usage;
      if Returned(spec, m) > 0 {
        repo.ReleaseQuota(tenant, m, Returned(spec, m));
      }
    }

    method ReleaseQuota(tenant: string, spec: Spec)
      requires NonNegative(repo.quotas)
      modifies repo
      ensures NonNegative(repo.quotas)
      ensures Lowered(old(repo.quotas), repo.quotas, tenant, spec)
    {
      ghost var q := repo.quotas;
      ReleaseMetric(tenant, spec, InstanceCount, q, {});
      ReleaseMetric(tenant, spec, Vcpu, q, {InstanceCount});
      ReleaseMetric(tenant, spec, MemoryMB, q, {InstanceCount, Vcpu});
      ReleaseMetric(tenant, spec, StorageMB, q, {InstanceCount, Vcpu, MemoryMB});
      ReleaseMetric(tenant, spec, Ipv4, q, {InstanceCount, Vcpu, MemoryMB, StorageMB});
    }
  }

  // ---- What is granted and taken, metric by metric ----

  /** A reservation raises each metric by the request's own amount in it, and nothing else of anyone. */
  lemma RaisedIff(q: Quotas, r: Quotas, tenant: string, spec: Spec)
    ensures Raised(q, r, tenant, spec) <==>
            && Usage(r, tenant, InstanceCount) ==
               Usage(q, tenant, InstanceCount) + (if spec.instances > 0 then spec.instances else 0)
            && Usage(r, tenant, Vcpu) == Usage(q, tenant, Vcpu) + (if spec.vcpu > 0 then spec.vcpu else 0)
            && Usage(r, tenant, MemoryMB) ==
               Usage(q, tenant, MemoryMB) + (if spec.memoryMB > 0 then spec.memoryMB else 0)
            && Usage(r, tenant, StorageMB) ==
               Usage(q, tenant, StorageMB) + (if spec.storageMB > 0 then spec.storageMB else 0)
            && Usage(r, tenant, Ipv4) == Usage(q, tenant, Ipv4)
            && forall t, m | t != tenant :: Usage(r, t, m) == Usage(q, t, m)
  {
    hide Usage;
    forall m
      ensures Asked(spec, m) == match m
                                case InstanceCount => if spec.instances > 0 then spec.instances else 0
                                case Vcpu => if spec.vcpu > 0 then spec.vcpu else 0
                                case MemoryMB => if spec.memoryMB > 0 then spec.memoryMB else 0
                                case StorageMB => if spec.storageMB > 0 then spec.storageMB else 0
                                case Ipv4 => 0
    {
    }
  }

  /** Lowered by an amount, if that is positive, but not below zero. */
  function Less(usage: int, amount: int): int {
    var left := if amount > 0 then usage - amount else usage;
    if left < 0 then 0 else left
  }

  /** A release lowers each of the five by the request's own amount in it, down to zero. */
  lemma LoweredIff(q: Quotas, r: Quotas, tenant: string, spec: Spec)
    ensures Lowered(q, r, tenant, spec) <==>
            && Usage(r, tenant, InstanceCount) == Less(Usage(q, tenant, InstanceCount), spec.instances)
            && Usage(r, tenant, Vcpu) == Less(Usage(q, tenant, Vcpu), spec.vcpu)
            && Usage(r, tenant, MemoryMB) == Less(Usage(q, tenant, MemoryMB), spec.memoryMB)
            && Usage(r, tenant, StorageMB) == Less(Usage(q, tenant, StorageMB), spec.storageMB)
            && Usage(r, tenant, Ipv4) == Less(Usage(q, tenant, Ipv4), spec.ipv4)
            && forall t, m | t != tenant :: Usage(r, t, m) == Usage(q, t, m)
  {
    hide Usage;
    forall m
      ensures Clamped(Usage(q, tenant, m) - Returned(spec, m)) == match m
                case InstanceCount => Less(Usage(q, tenant, m), spec.instances)
                case Vcpu => Less(Usage(q, tenant, m), spec.vcpu)
                case MemoryMB => Less(Usage(q, tenant, m), spec.memoryMB)
                case StorageMB => Less(Usage(q, tenant, m), spec.storageMB)
                case Ipv4 => Less(Usage(q, tenant, m), spec.ipv4)
    {
    }
  }

  /** The plan's limit decides if it is positive; else the stored one, if there is one and it is. */
  predicate FitsLimit(q: Quotas, tenant: string, m: Metric, amount: int, planned: int) {
    || amount <= 0
    || (planned > 0 && Usage(q, tenant, m) + amount <= planned)
    || (planned <= 0 && (tenant, m) !in q)
    || (planned <= 0 && (tenant, m) in q
        && (q[(tenant, m)].limit <= 0 || q[(tenant, m)].usage + amount <= q[(tenant, m)].limit))
  }

  /**
   A request is granted exactly when each of its four amounts, with what is used of that metric, stays within or just
   reaches the limit of that metric.
   */
  lemma GrantedIff(q: Quotas, tenant: string, spec: Spec, plan: Plan)
    ensures (forall m :: Grantable(q, tenant, spec, plan, m)) <==>
            && FitsLimit(q, tenant, InstanceCount, spec.instances, plan.maxInstances)
            && FitsLimit(q, tenant, Vcpu, spec.vcpu, plan.maxVcpu)
            && FitsLimit(q, tenant, MemoryMB, spec.memoryMB, plan.maxMemoryMB)
            && FitsLimit(q, tenant, StorageMB, spec.storageMB, plan.maxStorageMB)
  {
    GrantableIff(q, tenant, spec, plan);
    hide Grantable, FitsLimit;
    if forall m :: Grantable(q, tenant, spec, plan, m) {
      assert Grantable(q, tenant, spec, plan, InstanceCount) && Grantable(q, tenant, spec, plan, Vcpu)
             && Grantable(q, tenant, spec, plan, MemoryMB) && Grantable(q, tenant, spec, plan, StorageMB);
    }
  }

  lemma GrantableIff(q: Quotas, tenant: string, spec: Spec, plan: Plan)
    ensures forall m :: Grantable(q, tenant, spec, plan, m) <==>
              match m
              case InstanceCount => FitsLimit(q, tenant, InstanceCount, spec.instances, plan.maxInstances)
              case Vcpu => FitsLimit(q, tenant, Vcpu, spec.vcpu, plan.maxVcpu)
              case MemoryMB => FitsLimit(q, tenant, MemoryMB, spec.memoryMB, plan.maxMemoryMB)
              case StorageMB => FitsLimit(q, tenant, StorageMB, spec.storageMB, plan.maxStorageMB)
              case Ipv4 => true
  {
  }

  // ---- Conservation over runs ----

  /** What callers do: reserve, with the outcome, or give back the i-th reservation still held. */
  datatype Event = Reserve(tenant: string, spec: Spec, granted: bool) | Release(i: nat)

  function StillHeld(held: seq<(string, Spec)>, e: Event): seq<(string, Spec)> {
    match e
    case Reserve(tenant, spec, granted) => if granted then held + [(tenant, spec)] else held
    case Release(i) => if i < |held| then held[..i] + held[i + 1..] else held
  }

  /** The reservations granted and not given back, oldest first. */
  function Outstanding(events: seq<Event>): seq<(string, Spec)> {
    if events == [] then [] else StillHeld(Outstanding(events[..|events| - 1]), events[|events| - 1])
  }

  function Owed(held: seq<(string, Spec)>, t: string, m: Metric): nat {
    if held == [] then 0 else
    var last := held[|held| - 1];
    Owed(held[..|held| - 1], t, m) + if last.0 == t then Asked(last.1, m) else 0
  }

  lemma {:induction false} OwedWithout(held: seq<(string, Spec)>, i: nat, t: string, m: Metric)
    requires i < |held|
    ensures Owed(held, t, m) ==
            Owed(held[..i] + held[i + 1..], t, m) + if held[i].0 == t then Asked(held[i].1, m) else 0
  {
    var n := |held| - 1;
    var rest := held[..i] + held[i + 1..];
    if i == n {
      assert rest == held[..n];
    } else {
      OwedWithout(held[..n], i, t, m);
      assert held[..n][..i] + held[..n][i + 1..] == rest[..|rest| - 1];
      assert rest[|rest| - 1] == held[n];
    }
  }

  /** Nothing reserves addresses, so none are ever owed. */
  lemma {:induction false} NoAddressesOwed(held: seq<(string, Spec)>, t: string)
    ensures Owed(held, t, Ipv4) == 0
  {
    if held != [] {
      NoAddressesOwed(held[..|held| - 1], t);
    }
  }

  /** A step of a run: what the engine's two methods guarantee, a release being of a reservation still held. */
  ghost predicate Follows(q: Quotas, held: seq<(string, Spec)>, e: Event, r: Quotas) {
    match e
    case Reserve(tenant, spec, granted) => if granted then Raised(q, r, tenant, spec) else SameUsage(q, r)
    case Release(i) => i < |held| && Lowered(q, r, held[i].0, held[i].1)
  }

  ghost predicate IsRun(states: seq<Quotas>, events: seq<Event>) {
    && |states| == |events| + 1
    && states[0] == map[]
    && forall k | 0 <= k < |events| :: Follows(states[k], Outstanding(events[..k]), events[k], states[k + 1])
  }

  lemma StepKeepsSum(q: Quotas, held: seq<(string, Spec)>, e: Event, r: Quotas, t: string, m: Metric)
    requires Follows(q, held, e, r) && Usage(q, t, m) == Owed(held, t, m)
    ensures Usage(r, t, m) == Owed(StillHeld(held, e), t, m)
  {
    NoAddressesOwed(held, t);
    hide Asked, Usage;
    if e.Release? {
      OwedWithout(held, e.i, t, m);
    } else if e.granted {
      assert (held + [(e.tenant, e.spec)])[..|held|] == held;
    }
  }

  /**
   Over any run of reservations and matched releases, under any changes of plan, the usage of every tenant in
   every metric is the sum of what it still holds.
   */
  lemma {:induction false} UsageIsOutstanding(states: seq<Quotas>, events: seq<Event>, n: nat, t: string, m: Metric)
    requires IsRun(states, events) && n <= |events|
    ensures Usage(states[n], t, m) == Owed(Outstanding(events[..n]), t, m)
  {
    hide Follows, Usage, Asked, StillHeld, Owed;
    if n > 0 {
      UsageIsOutstanding(states, events, n - 1, t, m);
      assert events[..n][..n - 1] == events[..n - 1];
      assert Follows(states[n - 1], Outstanding(events[..n - 1]), events[n - 1], states[n]);
      StepKeepsSum(states[n - 1], Outstanding(events[..n - 1]), events[n - 1], states[n], t, m);
    } else {
      NothingOwed(t, m);
    }
  }

  lemma NothingOwed(t: string, m: Metric)
    ensures Usage(map[], t, m) == Owed([], t, m)
  {
  }

  /** So a release never takes more of what was reserved than is there. */
  lemma ClampNeverActs(states: seq<Quotas>, events: seq<Event>, n: nat, m: Metric)
    requires IsRun(states, events) && n < |events| && events[n].Release?
    ensures var held := Outstanding(events[..n]);
            events[n].i < |held| && Asked(held[events[n].i].1, m) <= Usage(states[n], held[events[n].i].0, m)
  {
    var held, i := Outstanding(events[..n]), events[n].i;
    assert Follows(states[n], held, events[n], states[n + 1]);
    UsageIsOutstanding(states, events, n, held[i].0, m);
    OwedWithout(held, i, held[i].0, m);
  }

  /** It takes more than is there, and the clamp at zero acts, exactly where it gives back addresses. */
  lemma ClampActsIff(states: seq<Quotas>, events: seq<Event>, n: nat, m: Metric)
    requires IsRun(states, events) && n < |events| && events[n].Release?
    ensures var held := Outstanding(events[..n]);
            events[n].i < |held|
            && var (tenant, spec) := held[events[n].i];
               Usage(states[n], tenant, m) < Returned(spec, m) <==> m.Ipv4? && spec.ipv4 > 0
  {
    ClampNeverActs(states, events, n, m);
    var tenant := Outstanding(events[..n])[events[n].i].0;
    UsageIsOutstanding(states, events, n, tenant, m);
    NoAddressesOwed(Outstanding(events[..n]), tenant);
  }
}
