/**
 The reconciler: it compares the stores with each other, repairs what is safe and reports the rest. Times are
 instants in nanoseconds, and one pass reads the clock once.
 */
module Reconcile {
  import opened Wrappers
  import opened Domain
  import opened Sums
  import J = JobQueue
  import M = Migration
  import Q = Quota

  /** What the reconciler counts for a tenant. */
  datatype Resource = Instances | Vcpu | MemoryMB | StorageMB

  function Key(r: Resource): string {
    match r
    case Instances => "instances"
    case Vcpu => "vcpu"
    case MemoryMB => "memory_mb"
    case StorageMB => "storage_mb"
  }

  /** Quota items by tenant and metric name. */
  type Quotas = map<(string, string), Q.Item>

  datatype Transfer = Transfer(status: M.MigrationStatus, updatedAt: int)

  /** What a pass may change; nodes and migrations are only read. */
  datatype State = State(instances: map<string, Instance>, quotas: Quotas, jobs: J.Jobs)

  const MEGABYTE := 1024 * 1024
  const LEASE_GRACE := 30 * J.SECOND
  const TRANSFER_GRACE := 300 * J.SECOND
  const JOB_PAGE := 500
  const MIGRATION_PAGE := 100

  // ---- What a pass does to each store ----

  predicate Counts(i: Instance) {
    i.status.Running? || i.status.Stopped?
  }

  function Amount(i: Instance, r: Resource): int {
    match r
    case Instances => 1
    case Vcpu => i.cpuCores
    case MemoryMB => TruncatedDiv(i.memoryBytes, MEGABYTE)
    case StorageMB => TruncatedDiv(i.storageBytes, MEGABYTE)
  }

  /** Deleted instances are skipped; a stopped instance may sit on an offline node, but on no missing one. */
  predicate Orphaned(nodes: map<string, Node>, i: Instance) {
    && !i.status.Deleted?
    && (i.node !in nodes || (nodes[i.node].status.Offline? && i.status.Running?))
  }

  function RepairedInstances(nodes: map<string, Node>, instances: map<string, Instance>): map<string, Instance> {
    map id | id in instances ::
      if Orphaned(nodes, instances[id]) then instances[id].(status := InstanceStatus.Error) else instances[id]
  }

  /** What each of some instances adds to a tenant's use of a resource. */
  ghost function Shares(instances: map<string, Instance>, ids: set<string>, tenant: string, r: Resource)
    : map<string, int>
  {
    map id | id in ids && id in instances && Counts(instances[id]) && instances[id].user == tenant ::
      Amount(instances[id], r)
  }

  ghost function Usage(instances: map<string, Instance>, tenant: string, r: Resource): int {
    Total(Shares(instances, instances.Keys, tenant, r))
  }

  ghost predicate Active(instances: map<string, Instance>, ids: set<string>, tenant: string) {
    exists id :: id in ids && id in instances && Counts(instances[id]) && instances[id].user == tenant
  }

  /** The items a pass compares are those of active tenants under the reconciler's own metric names. */
  ghost predicate Compared(instances: map<string, Instance>, k: (string, string), r: Resource) {
    k.1 == Key(r) && Active(instances, instances.Keys, k.0)
  }

  ghost function Corrected(q: Quotas, instances: map<string, Instance>, k: (string, string)): Q.Item
    requires k in q
  {
    if exists r :: Compared(instances, k, r)
    then var r :| Compared(instances, k, r); q[k].(usage := Usage(instances, k.0, r))
    else q[k]
  }

  ghost function RepairedQuotas(q: Quotas, instances: map<string, Instance>): Quotas {
    map k | k in q :: Corrected(q, instances, k)
  }

  predicate Stale(j: J.Job, now: int) {
    j.lockedUntil.Some? && j.lockedUntil.value < now - LEASE_GRACE
  }

  ghost predicate AnyStale(jobs: J.Jobs, page: set<string>, now: int) {
    exists id :: id in page && id in jobs && Stale(jobs[id], now)
  }

  /** One stale lease on the page makes the pass reclaim every job whose lease has run out. */
  ghost function RepairedJobs(jobs: J.Jobs, page: set<string>, now: int): J.Jobs {
    if AnyStale(jobs, page, now) then J.Reclaimed(jobs, now) else jobs
  }

  /** A real pass; usage is taken from the instances as they were before any was marked. */
  ghost function Pass(nodes: map<string, Node>, s: State, page: set<string>, now: int): State {
    State(
      RepairedInstances(nodes, s.instances),
      RepairedQuotas(s.quotas, s.instances),
      RepairedJobs(s.jobs, page, now))
  }

  function RunningJobs(jobs: J.Jobs): set<string> {
    set id | id in jobs && jobs[id].status.Running?
  }

  /** A store's page of the matching records: all of them, or as many as the limit allows. */
  ghost predicate IsPage(page: set<string>, matching: set<string>, limit: nat) {
    page <= matching && |page| == if |matching| < limit then |matching| else limit
  }

  // ---- Convergence ----

  lemma InstancesSettle(nodes: map<string, Node>, instances: map<string, Instance>)
    ensures var once := RepairedInstances(nodes, instances); RepairedInstances(nodes, once) == once
  {
  }

  lemma CorrectedTo(q: Quotas, instances: map<string, Instance>, k: (string, string), r: Resource)
    requires k in q && Compared(instances, k, r)
    ensures Corrected(q, instances, k) == q[k].(usage := Usage(instances, k.0, r))
  {
    KeysDiffer();
  }

  lemma KeysDiffer()
    ensures forall r, s :: Key(r) == Key(s) ==> r == s
  {
    assert Key(Instances)[0] == 'i' && Key(Vcpu)[0] == 'v' && Key(MemoryMB)[0] == 'm' && Key(StorageMB)[0] == 's';
  }

  lemma QuotasSettle(q: Quotas, instances: map<string, Instance>)
    ensures var once := RepairedQuotas(q, instances); RepairedQuotas(once, instances) == once
  {
    var once := RepairedQuotas(q, instances);
    forall k | k in q
      ensures Corrected(once, instances, k) == once[k]
    {
      if r :| Compared(instances, k, r) {
        CorrectedTo(q, instances, k, r);
        CorrectedTo(once, instances, k, r);
      }
    }
  }

  lemma JobsSettle(jobs: J.Jobs, first: set<string>, second: set<string>, now: int)
    requires IsPage(first, RunningJobs(jobs), JOB_PAGE) && |RunningJobs(jobs)| <= JOB_PAGE
    ensures var once := RepairedJobs(jobs, first, now);
            second <= RunningJobs(once) ==> RepairedJobs(once, second, now) == once
  {
    SubsetBySize(first, RunningJobs(jobs));
  }

  /**
   Two real passes at one clock reading, with at most a page of running jobs, reach a state that no further pass
   changes.
   */
  lemma TwoPassesSettle(nodes: map<string, Node>, s: State, p1: set<string>, p2: set<string>, p3: set<string>, now: int)
    requires |RunningJobs(s.jobs)| <= JOB_PAGE
    requires IsPage(p1, RunningJobs(s.jobs), JOB_PAGE)
    requires var s1 := Pass(nodes, s, p1, now);
             && IsPage(p2, RunningJobs(s1.jobs), JOB_PAGE)
             && IsPage(p3, RunningJobs(Pass(nodes, s1, p2, now).jobs), JOB_PAGE)
    ensures var s2 := Pass(nodes, Pass(nodes, s, p1, now), p2, now); Pass(nodes, s2, p3, now) == s2
  {
    var s1 := Pass(nodes, s, p1, now);
    JobsSettle(s.jobs, p1, p2, now);
    JobsSettle(s.jobs, p1, p3, now);
    InstancesSettle(nodes, s.instances);
    QuotasSettle(s1.quotas, s1.instances);
  }

  // ---- When one pass is enough ----

  function OrphanIds(nodes: map<string, Node>, instances: map<string, Instance>): set<string> {
    set id | id in instances && Orphaned(nodes, instances[id])
  }

  /** What a tenant's orphaned instances still add to the usage that the same pass writes. */
  ghost function Lost(nodes: map<string, Node>, instances: map<string, Instance>, tenant: string, r: Resource): int {
    Total(Shares(instances, OrphanIds(nodes, instances), tenant, r))
  }

  lemma SharesGrow(instances: map<string, Instance>, ids: set<string>, id: string, tenant: string, r: Resource)
    requires id in instances && id !in ids
    ensures Total(Shares(instances, ids + {id}, tenant, r))
            == Total(Shares(instances, ids, tenant, r))
               + if Counts(instances[id]) && instances[id].user == tenant then Amount(instances[id], r) else 0
  {
    var before, after := Shares(instances, ids, tenant, r), Shares(instances, ids + {id}, tenant, r);
    if Counts(instances[id]) && instances[id].user == tenant {
      assert after == before[id := Amount(instances[id], r)];
      TotalUpdate(before, id, Amount(instances[id], r));
      assert before - {id} == before;
    } else {
      assert after == before;
    }
  }

  lemma {:induction false} SharesSplit(instances: map<string, Instance>, a: set<string>, b: set<string>,
      tenant: string, r: Resource)
    requires a !! b && a <= instances.Keys && b <= instances.Keys
    ensures Total(Shares(instances, a + b, tenant, r))
            == Total(Shares(instances, a, tenant, r)) + Total(Shares(instances, b, tenant, r))
    decreases b
  {
    if b == {} {
      assert a + b == a;
      assert Shares(instances, b, tenant, r) == map[];
    } else {
      var id :| id in b;
      var rest := b - {id};
      SharesSplit(instances, a, rest, tenant, r);
      SharesGrow(instances, a + rest, id, tenant, r);
      SharesGrow(instances, rest, id, tenant, r);
      assert a + rest + {id} == a + b && rest + {id} == b;
    }
  }

  lemma UsageAfterRepair(nodes: map<string, Node>, instances: map<string, Instance>, tenant: string, r: Resource)
    ensures Usage(instances, tenant, r)
            == Usage(RepairedInstances(nodes, instances), tenant, r) + Lost(nodes, instances, tenant, r)
  {
    var orphans := OrphanIds(nodes, instances);
    var kept := instances.Keys - orphans;
    assert kept + orphans == instances.Keys;
    SharesSplit(instances, kept, orphans, tenant, r);
    KeptShares(nodes, instances, tenant, r);
  }

  /** After the repair only the instances that were not orphaned count, and those as before. */
  lemma KeptShares(nodes: map<string, Node>, instances: map<string, Instance>, tenant: string, r: Resource)
    ensures var once := RepairedInstances(nodes, instances);
            Shares(once, once.Keys, tenant, r)
            == Shares(instances, instances.Keys - OrphanIds(nodes, instances), tenant, r)
  {
    var once := RepairedInstances(nodes, instances);
    forall id | id in instances
      ensures Counts(once[id]) <==> Counts(instances[id]) && id !in OrphanIds(nodes, instances)
      ensures id !in OrphanIds(nodes, instances) ==> once[id] == instances[id]
    {
    }
    hide RepairedInstances, OrphanIds, Counts, Amount;
  }

  /** A quota item that the next pass will change again: its tenant stays active and lost something in it. */
  ghost predicate Drifts(nodes: map<string, Node>, s: State, k: (string, string), r: Resource) {
    k in s.quotas && Compared(RepairedInstances(nodes, s.instances), k, r) && Lost(nodes, s.instances, k.0, r) != 0
  }

  lemma SecondCorrection(nodes: map<string, Node>, s: State, k: (string, string), r: Resource)
    requires k in s.quotas && Compared(RepairedInstances(nodes, s.instances), k, r)
    ensures var once, q := RepairedInstances(nodes, s.instances), RepairedQuotas(s.quotas, s.instances);
            Corrected(q, once, k) == q[k] <==> Lost(nodes, s.instances, k.0, r) == 0
  {
    var once, q := RepairedInstances(nodes, s.instances), RepairedQuotas(s.quotas, s.instances);
    var id :| id in once && Counts(once[id]) && once[id].user == k.0;
    assert Compared(s.instances, k, r) by {
      assert id in s.instances && Counts(s.instances[id]);
    }
    CorrectedTo(s.quotas, s.instances, k, r);
    CorrectedTo(q, once, k, r);
    UsageAfterRepair(nodes, s.instances, k.0, r);
  }

  /**
   One pass is enough exactly when no quota item of a tenant that stays active loses usage to an orphaned
   instance: such usage is written once more before the instance stops being counted.
   */
  lemma OnePassSettlesIff(nodes: map<string, Node>, s: State, p1: set<string>, p2: set<string>, now: int)
    requires |RunningJobs(s.jobs)| <= JOB_PAGE && IsPage(p1, RunningJobs(s.jobs), JOB_PAGE)
    requires IsPage(p2, RunningJobs(Pass(nodes, s, p1, now).jobs), JOB_PAGE)
    ensures var s1 := Pass(nodes, s, p1, now);
            Pass(nodes, s1, p2, now) == s1 <==> !exists k, r :: Drifts(nodes, s, k, r)
  {
    var s1 := Pass(nodes, s, p1, now);
    JobsSettle(s.jobs, p1, p2, now);
    InstancesSettle(nodes, s.instances);
    var again := RepairedQuotas(s1.quotas, s1.instances);
    assert Pass(nodes, s1, p2, now) == s1 <==> again == s1.quotas;
    if k, r :| Drifts(nodes, s, k, r) {
      SecondCorrection(nodes, s, k, r);
      assert again[k] != s1.quotas[k];
    } else {
      forall k | k in s.quotas
        ensures again[k] == s1.quotas[k]
      {
        if r :| Compared(s1.instances, k, r) {
          assert !Drifts(nodes, s, k, r);
          SecondCorrection(nodes, s, k, r);
        }
      }
    }
  }

  function LiveInstance(): Instance {
    Instance("a", "t", "n1", Container, InstanceStatus.Running, 2, 0, 0)
  }

  /** One instance on a live node and one running on a node that is gone. */
  function TwoInstances(): map<string, Instance> {
    map["a" := LiveInstance(), "b" := LiveInstance().(name := "b", node := "n2")]
  }

  function OneNode(): map<string, Node> {
    map["n1" := Node("here", NodeStatus.Online, 8, 0, 0, 1.0, 1.0, None, None, false, false, None)]
  }

  lemma TwoVcpuLost()
    ensures Lost(OneNode(), TwoInstances(), "t", Vcpu) == 2
  {
    assert OrphanIds(OneNode(), TwoInstances()) == {"b"};
    var lost := Shares(TwoInstances(), {"b"}, "t", Vcpu);
    assert lost == map["b" := 2];
    TotalWithout(lost, "b");
    assert lost - {"b"} == map[];
  }

  lemma StillActive()
    ensures Compared(RepairedInstances(OneNode(), TwoInstances()), ("t", Key(Vcpu)), Vcpu)
  {
    var once := RepairedInstances(OneNode(), TwoInstances());
    assert "a" in once.Keys && once["a"] == LiveInstance();
  }

  /** There are states that one pass does not settle, with no jobs at all. */
  lemma OnePassNeedNotSettle()
    ensures exists nodes, s, k, r :: Drifts(nodes, s, k, r) && s.jobs == map[] && |s.quotas| == 1
  {
    hide RepairedInstances, Compared, Lost, OneNode, TwoInstances;
    var k := ("t", Key(Vcpu));
    var s := State(TwoInstances(), map[k := Q.Item(0, 0)], map[]);
    TwoVcpuLost();
    StillActive();
    assert Drifts(OneNode(), s, k, Vcpu);
  }

  /** The quota engine counts under other metric names, so items it wrote are never corrected. */
  lemma EngineQuotasAreNotCompared(q: Quotas, instances: map<string, Instance>)
    requires forall k | k in q :: exists m :: k.1 == Q.Name(m)
    ensures RepairedQuotas(q, instances) == q
  {
    assert |Key(Instances)| == 9 && |Key(Vcpu)| == 4 && |Key(MemoryMB)| == 9 && |Key(StorageMB)| == 10;
    assert Key(Instances)[0] == 'i' && Key(MemoryMB)[0] == 'm';
    forall k, r | k in q
      ensures !Compared(instances, k, r)
    {
      var m :| k.1 == Q.Name(m);
      assert |Q.Name(m)| >= 10 && (|Q.Name(m)| == 10 ==> Q.Name(m)[0] == 'v');
    }
  }

  // ---- When a wrong item is corrected ----

  /**
   An item under one of the reconciler's names holds the usage after a pass exactly when it did before or its tenant
   is active.
   */
  lemma CorrectedIff(q: Quotas, instances: map<string, Instance>, k: (string, string), r: Resource)
    requires k in q && k.1 == Key(r)
    ensures RepairedQuotas(q, instances)[k].usage == Usage(instances, k.0, r) <==>
            q[k].usage == Usage(instances, k.0, r) || Active(instances, instances.Keys, k.0)
  {
    if Compared(instances, k, r) {
      CorrectedTo(q, instances, k, r);
    } else {
      KeysDiffer();
    }
  }

  /** Any item changes in a pass exactly when it is compared and wrong; items under other names never do. */
  lemma ItemChangesIff(q: Quotas, instances: map<string, Instance>, k: (string, string))
    requires k in q
    ensures RepairedQuotas(q, instances)[k] != q[k] <==>
            exists r :: Compared(instances, k, r) && q[k].usage != Usage(instances, k.0, r)
  {
    if r :| Compared(instances, k, r) {
      CorrectedTo(q, instances, k, r);
      KeysDiffer();
    }
  }

  /**
   A tenant whose last running or stopped instance is gone uses nothing, yet its items keep their usage: no
   pass over instances in which it stays without one changes them.
   */
  lemma {:induction false} IdleTenantKeepsUsage(q: Quotas, passes: seq<map<string, Instance>>, k: (string, string),
      r: Resource)
    requires k in q && k.1 == Key(r)
    requires forall i | 0 <= i < |passes| :: !Active(passes[i], passes[i].Keys, k.0)
    ensures k in AfterPasses(q, passes) && AfterPasses(q, passes)[k] == q[k]
    ensures forall i | 0 <= i < |passes| :: Usage(passes[i], k.0, r) == 0
  {
    if passes != [] {
      var last := passes[|passes| - 1];
      IdleTenantKeepsUsage(q, passes[..|passes| - 1], k, r);
      assert !Active(last, last.Keys, k.0);
      assert forall s :: !Compared(last, k, s);
      forall i | 0 <= i < |passes|
        ensures Usage(passes[i], k.0, r) == 0
      {
        assert Shares(passes[i], passes[i].Keys, k.0, r) == map[];
      }
    }
  }

  /** The quotas after passes that found these instances, in order. */
  ghost function AfterPasses(q: Quotas, passes: seq<map<string, Instance>>): Quotas {
    if passes == [] then q else RepairedQuotas(AfterPasses(q, passes[..|passes| - 1]), passes[|passes| - 1])
  }

  /**
   It happens: a tenant's only instance, counted by one pass, is deleted, and the next passes leave the count at one.
   */
  lemma DeletedInstanceStaysCounted(later: nat)
    ensures var k := ("t", Key(Instances));
            var alone := map["a" := LiveInstance()];
            var gone := alone["a" := LiveInstance().(status := InstanceStatus.Deleted)];
            var q := AfterPasses(map[k := Q.Item(5, 0)], [alone] + seq(later, _ => gone));
            k in q && q[k].usage == 1 && Usage(gone, "t", Instances) == 0
  {
    var k := ("t", Key(Instances));
    var alone := map["a" := LiveInstance()];
    var gone := alone["a" := LiveInstance().(status := InstanceStatus.Deleted)];
    var q := map[k := Q.Item(5, 0)];
    OneCounted();
    assert AfterPasses(q, [alone]) == RepairedQuotas(q, alone) by {
      assert [alone][..0] == [];
    }
    CorrectedTo(q, alone, k, Instances);
    PassesInTurn(q, [alone], seq(later, _ => gone));
    assert !Active(gone, gone.Keys, "t");
    IdleTenantKeepsUsage(AfterPasses(q, [alone]), seq(later, _ => gone), k, Instances);
    assert Shares(gone, gone.Keys, "t", Instances) == map[];
  }

  lemma OneCounted()
    ensures var alone := map["a" := LiveInstance()];
            Compared(alone, ("t", Key(Instances)), Instances) && Usage(alone, "t", Instances) == 1
  {
    var alone := map["a" := LiveInstance()];
    assert "a" in alone.Keys && Counts(alone["a"]);
    var shares := Shares(alone, alone.Keys, "t", Instances);
    assert shares == map["a" := 1];
    TotalWithout(shares, "a");
    assert shares - {"a"} == map[];
  }

  lemma {:induction false} PassesInTurn(q: Quotas, first: seq<map<string, Instance>>,
                                            second: seq<map<string, Instance>>)
    ensures AfterPasses(q, first + second) == AfterPasses(AfterPasses(q, first), second)
  {
    hide RepairedQuotas;
    if second == [] {
      assert first + second == first;
    } else {
      var n := |second| - 1;
      PassesInTurn(q, first, second[..n]);
      assert (first + second)[..|first| + n] == first + second[..n];
      assert (first + second)[|first| + n] == second[n];
    }
  }

  // ---- The report ----

  datatype Subject =
    | AnInstance(id: string)
    | AQuota(tenant: string, metric: string)
    | AJob(id: string)
    | AMigration(id: string)

  datatype Category = OfInstances | OfQuotas | OfJobs | OfMigrations

  function CategoryOf(s: Subject): Category {
    match s
    case AnInstance(_) => OfInstances
    case AQuota(_, _) => OfQuotas
    case AJob(_) => OfJobs
    case AMigration(_) => OfMigrations
  }

  function Of(all: set<Subject>, c: Category): set<Subject> {
    set s | s in all && CategoryOf(s) == c
  }

  datatype Discrepancy = Discrepancy(subject: Subject, needsAdmin: bool, repaired: bool)

  datatype Report = Report(
    orphanedInstances: nat,
    inconsistentQuotas: nat,
    staleJobs: nat,
    abandonedMigrations: nat,
    total: nat,
    repaired: nat,
    needAdmin: nat,
    discrepancies: seq<Discrepancy>)

  const EMPTY := Report(0, 0, 0, 0, 0, 0, 0, [])

  function Subjects(r: Report): set<Subject> {
    set d | d in r.discrepancies :: d.subject
  }

  /**
   The counters agree with the list and with each other, and everything but a migration is repaired by a real pass.
   */
  ghost predicate Sound(r: Report, dryRun: bool) {
    && r.total == |r.discrepancies| == |Subjects(r)|
    && r.total == r.orphanedInstances + r.inconsistentQuotas + r.staleJobs + r.abandonedMigrations
    && r.orphanedInstances == |Of(Subjects(r), OfInstances)|
    && r.inconsistentQuotas == |Of(Subjects(r), OfQuotas)|
    && r.staleJobs == |Of(Subjects(r), OfJobs)|
    && r.abandonedMigrations == |Of(Subjects(r), OfMigrations)|
    && r.needAdmin == r.abandonedMigrations
    && r.repaired == (if dryRun then 0 else r.total - r.needAdmin)
    && forall d | d in r.discrepancies ::
         d.needsAdmin == d.subject.AMigration? && d.repaired == (!dryRun && !d.needsAdmin)
  }

  /** One more discrepancy: its own counter, the totals and the list. */
  function Noted(r: Report, s: Subject, dryRun: bool): Report {
    var admin := s.AMigration?;
    var fixed := !dryRun && !admin;
    var counted := match s
      case AnInstance(_) => r.(orphanedInstances := r.orphanedInstances + 1)
      case AQuota(_, _) => r.(inconsistentQuotas := r.inconsistentQuotas + 1)
      case AJob(_) => r.(staleJobs := r.staleJobs + 1)
      case AMigration(_) => r.(abandonedMigrations := r.abandonedMigrations + 1);
    counted.(
      total := r.total + 1,
      repaired := r.repaired + if fixed then 1 else 0,
      needAdmin := r.needAdmin + if admin then 1 else 0,
      discrepancies := r.discrepancies + [Discrepancy(s, admin, fixed)])
  }

  /** A sound report of exactly what earlier checks and this one found. */
  ghost predicate Lists(r: Report, dryRun: bool, earlier: set<Subject>, found: set<Subject>) {
    Sound(r, dryRun) && Subjects(r) == earlier + found
  }

  lemma NextCheck(r: Report, dryRun: bool, earlier: set<Subject>, found: set<Subject>)
    requires Lists(r, dryRun, earlier, found)
    ensures Lists(r, dryRun, earlier + found, {})
  {
    assert earlier + found + {} == earlier + found;
  }

  lemma ReportEnds(r: Report, dryRun: bool, earlier: set<Subject>, found: set<Subject>)
    requires Lists(r, dryRun, earlier, found)
    ensures Sound(r, dryRun) && Subjects(r) == earlier + found
  {
  }

  /** A range over a finite set: what is left and what was seen. */
  ghost predicate Ranges<T>(all: set<T>, rest: set<T>, seen: set<T>) {
    seen !! rest && seen + rest == all
  }

  lemma RangeStarts<T>(all: set<T>)
    ensures Ranges(all, all, {})
  {
  }

  lemma RangeStep<T>(all: set<T>, rest: set<T>, seen: set<T>, x: T)
    requires Ranges(all, rest, seen) && x in rest
    ensures x in all && x !in seen && Ranges(all, rest - {x}, seen + {x})
  {
  }

  lemma RangeEnds<T>(all: set<T>, seen: set<T>)
    requires Ranges(all, {}, seen)
    ensures seen == all
  {
  }

  lemma NotedLists(r: Report, dryRun: bool, earlier: set<Subject>, found: set<Subject>, s: Subject)
    requires Lists(r, dryRun, earlier, found) && s !in earlier && s !in found
    ensures Lists(Noted(r, s, dryRun), dryRun, earlier, found + {s})
  {
    NotedSubjects(r, s, dryRun);
    forall c
      ensures |Of(Subjects(r) + {s}, c)| == |Of(Subjects(r), c)| + if CategoryOf(s) == c then 1 else 0
    {
      CategoryGrows(Subjects(r), s, c);
    }
  }

  lemma NotedSubjects(r: Report, s: Subject, dryRun: bool)
    ensures Subjects(Noted(r, s, dryRun)) == Subjects(r) + {s}
  {
    var after := Noted(r, s, dryRun);
    assert after.discrepancies[|r.discrepancies|].subject == s;
    forall d | d in r.discrepancies
      ensures d in after.discrepancies
    {
    }
  }

  lemma NothingListed(dryRun: bool)
    ensures Lists(EMPTY, dryRun, {}, {})
  {
  }

  lemma CategoryGrows(all: set<Subject>, s: Subject, c: Category)
    requires s !in all
    ensures |Of(all + {s}, c)| == |Of(all, c)| + if CategoryOf(s) == c then 1 else 0
  {
    assert Of(all + {s}, c) == if CategoryOf(s) == c then Of(all, c) + {s} else Of(all, c);
  }

  ghost function OrphanSubjects(nodes: map<string, Node>, instances: map<string, Instance>, ids: set<string>)
    : set<Subject>
  {
    set id | id in ids && id in instances && Orphaned(nodes, instances[id]) :: AnInstance(id)
  }

  /** The quota items whose usage is not what the tenant's instances add up to. */
  ghost function WrongSubjects(q: Quotas, instances: map<string, Instance>): set<Subject> {
    set k | k in q && Corrected(q, instances, k) != q[k] :: AQuota(k.0, k.1)
  }

  ghost function StaleSubjects(jobs: J.Jobs, ids: set<string>, now: int): set<Subject> {
    set id | id in ids && id in jobs && Stale(jobs[id], now) :: AJob(id)
  }

  function Transferring(migrations: map<string, Transfer>): set<string> {
    set id | id in migrations && migrations[id].status.Transferring?
  }

  predicate Abandoned(t: Transfer, now: int) {
    t.updatedAt < now - TRANSFER_GRACE
  }

  ghost function AbandonedSubjects(migrations: map<string, Transfer>, ids: set<string>, now: int): set<Subject> {
    set id | id in ids && id in migrations && Abandoned(migrations[id], now) :: AMigration(id)
  }

  /** Everything a pass reports; quotas are not looked at in a dry run. */
  ghost function Findings(
    nodes: map<string, Node>, migrations: map<string, Transfer>, s: State, dryRun: bool,
    jobPage: set<string>, migrationPage: set<string>, now: int): set<Subject>
  {
    OrphanSubjects(nodes, s.instances, s.instances.Keys)
    + (if dryRun then {} else WrongSubjects(s.quotas, s.instances))
    + StaleSubjects(s.jobs, jobPage, now)
    + AbandonedSubjects(migrations, migrationPage, now)
  }

  lemma ReclaimChanges(jobs: J.Jobs, page: set<string>, now: int)
    requires page <= RunningJobs(jobs) && AnyStale(jobs, page, now)
    ensures RepairedJobs(jobs, page, now) != jobs
  {
    var id :| id in page && id in jobs && Stale(jobs[id], now);
    assert J.Reclaimed(jobs, now)[id].status.Pending?;
  }

  lemma CorrectionChanges(q: Quotas, instances: map<string, Instance>, k: (string, string))
    requires k in q && Corrected(q, instances, k) != q[k]
    ensures RepairedQuotas(q, instances) != q
  {
    assert RepairedQuotas(q, instances)[k] != q[k];
  }

  lemma Kinds(s: State, nodes: map<string, Node>, migrations: map<string, Transfer>, jobPage: set<string>, now: int)
    ensures forall x | x in OrphanSubjects(nodes, s.instances, s.instances.Keys) :: x.AnInstance?
    ensures forall x | x in WrongSubjects(s.quotas, s.instances) :: x.AQuota?
    ensures forall x | x in StaleSubjects(s.jobs, jobPage, now) :: x.AJob?
  {
  }

  lemma NothingFound(nodes: map<string, Node>, migrations: map<string, Transfer>, s: State, now: int)
    ensures OrphanSubjects(nodes, s.instances, {}) == {}
    ensures StaleSubjects(s.jobs, {}, now) == {} && RepairedJobs(s.jobs, {}, now) == s.jobs
    ensures AbandonedSubjects(migrations, {}, now) == {}
  {
  }

  /** The store when some of the listed instances have been dealt with. */
  ghost predicate Marked(
    nodes: map<string, Node>, listed: map<string, Instance>, current: map<string, Instance>, seen: set<string>,
    dryRun: bool)
  {
    && current.Keys == listed.Keys
    && forall id | id in listed ::
         current[id] == if id in seen && !dryRun then RepairedInstances(nodes, listed)[id] else listed[id]
  }

  lemma MarkStarts(nodes: map<string, Node>, listed: map<string, Instance>, dryRun: bool)
    ensures Marked(nodes, listed, listed, {}, dryRun)
  {
  }

  lemma MarkStep(
    nodes: map<string, Node>, listed: map<string, Instance>, current: map<string, Instance>, seen: set<string>,
    dryRun: bool, id: string)
    requires Marked(nodes, listed, current, seen, dryRun) && id in listed && id !in seen
    ensures id in current
    ensures if Orphaned(nodes, listed[id]) && !dryRun
            then Marked(nodes, listed, current[id := current[id].(status := InstanceStatus.Error)], seen + {id}, dryRun)
            else Marked(nodes, listed, current, seen + {id}, dryRun)
  {
  }

  lemma MarkEnds(nodes: map<string, Node>, listed: map<string, Instance>, current: map<string, Instance>, dryRun: bool)
    requires Marked(nodes, listed, current, listed.Keys, dryRun)
    ensures current == if dryRun then listed else RepairedInstances(nodes, listed)
  {
  }

  lemma OrphanStep(nodes: map<string, Node>, instances: map<string, Instance>, ids: set<string>, id: string)
    requires id in instances && id !in ids
    ensures AnInstance(id) !in OrphanSubjects(nodes, instances, ids)
    ensures OrphanSubjects(nodes, instances, ids + {id})
            == if Orphaned(nodes, instances[id]) then OrphanSubjects(nodes, instances, ids) + {AnInstance(id)}
               else OrphanSubjects(nodes, instances, ids)
  {
  }

  lemma StaleStep(jobs: J.Jobs, ids: set<string>, now: int, id: string)
    requires id in jobs && id !in ids
    ensures AJob(id) !in StaleSubjects(jobs, ids, now)
    ensures StaleSubjects(jobs, ids + {id}, now)
            == if Stale(jobs[id], now) then StaleSubjects(jobs, ids, now) + {AJob(id)}
              else StaleSubjects(jobs, ids, now)
    ensures RepairedJobs(jobs, ids + {id}, now)
            == if Stale(jobs[id], now) then J.Reclaimed(RepairedJobs(jobs, ids, now), now)
              else RepairedJobs(jobs, ids, now)
  {
  }

  lemma AbandonedStep(migrations: map<string, Transfer>, ids: set<string>, now: int, id: string)
    requires id in migrations && id !in ids
    ensures AMigration(id) !in AbandonedSubjects(migrations, ids, now)
    ensures AbandonedSubjects(migrations, ids + {id}, now)
            == if Abandoned(migrations[id], now) then AbandonedSubjects(migrations, ids, now) + {AMigration(id)}
               else AbandonedSubjects(migrations, ids, now)
  {
  }

  /** Once settled, all that a real pass still finds are instances whose node is gone and transfers that stalled. */
  lemma SettledFindings(
    nodes: map<string, Node>, migrations: map<string, Transfer>, s: State,
    jobPage: set<string>, migrationPage: set<string>, now: int, x: Subject)
    requires jobPage <= RunningJobs(s.jobs) && Pass(nodes, s, jobPage, now) == s
    requires x in Findings(nodes, migrations, s, false, jobPage, migrationPage, now)
    ensures x.AnInstance? || x.AMigration?
    ensures x.AnInstance? ==>
              x.id in s.instances && s.instances[x.id].status.Error? && s.instances[x.id].node !in nodes
  {
    if AnyStale(s.jobs, jobPage, now) {
      ReclaimChanges(s.jobs, jobPage, now);
    }
    if k :| k in s.quotas && Corrected(s.quotas, s.instances, k) != s.quotas[k] {
      CorrectionChanges(s.quotas, s.instances, k);
    }
    if x in OrphanSubjects(nodes, s.instances, s.instances.Keys) {
      var id :| id in s.instances && Orphaned(nodes, s.instances[id]) && x == AnInstance(id);
      assert RepairedInstances(nodes, s.instances)[id] == s.instances[id];
    }
  }

  // ---- What a real pass leaves, store by store ----

  /**
   After a real pass nothing is recorded as running where it cannot be. An instance on a known node changes exactly
   when it ran on one that is offline, and one on an unknown node unless it is deleted; each then only to error.
   */
  lemma PassLeavesNoOrphan(nodes: map<string, Node>, s: State, page: set<string>, now: int, id: string)
    requires id in s.instances
    ensures var instances := Pass(nodes, s, page, now).instances;
            && instances.Keys == s.instances.Keys
            && var before, after := s.instances[id], instances[id];
            && (before.node in nodes ==>
                  if before.status.Running? && nodes[before.node].status.Offline?
                  then after == before.(status := InstanceStatus.Error) else after == before)
            && (before.node !in nodes ==>
                  if before.status.Deleted? then after == before else after == before.(status := InstanceStatus.Error))
            && !(after.status.Running? && (after.node !in nodes || nodes[after.node].status.Offline?))
            && (after.node !in nodes ==> after.status.Error? || after.status.Deleted?)
  {
  }

  /** What a pass reports of the instances, dry run or not, is exactly what a real pass would change or has in error. */
  lemma InstanceIsReportedIff(
    nodes: map<string, Node>, migrations: map<string, Transfer>, s: State, dryRun: bool,
    jobPage: set<string>, migrationPage: set<string>, now: int, id: string)
    ensures AnInstance(id) in Findings(nodes, migrations, s, dryRun, jobPage, migrationPage, now) <==>
            && id in s.instances
            && var i := s.instances[id];
            if i.node in nodes then i.status.Running? && nodes[i.node].status.Offline? else !i.status.Deleted?
  {
    Kinds(s, nodes, migrations, jobPage, now);
    hide Corrected;
  }

  /** Jobs are reported when the lease is more than thirty seconds over, transfers after five minutes without news. */
  lemma StalledIsReportedIff(
    nodes: map<string, Node>, migrations: map<string, Transfer>, s: State, dryRun: bool,
    jobPage: set<string>, migrationPage: set<string>, now: int, id: string)
    requires IsPage(jobPage, RunningJobs(s.jobs), JOB_PAGE) && |RunningJobs(s.jobs)| <= JOB_PAGE
    requires IsPage(migrationPage, Transferring(migrations), MIGRATION_PAGE)
             && |Transferring(migrations)| <= MIGRATION_PAGE
    ensures var found := Findings(nodes, migrations, s, dryRun, jobPage, migrationPage, now);
            && (AJob(id) in found <==>
                && id in s.jobs && s.jobs[id].status.Running?
                && s.jobs[id].lockedUntil.Some? && s.jobs[id].lockedUntil.value < now - 30_000_000_000)
            && (AMigration(id) in found <==>
                && id in migrations && migrations[id].status.Transferring?
                && migrations[id].updatedAt < now - 300_000_000_000)
  {
    SubsetBySize(jobPage, RunningJobs(s.jobs));
    SubsetBySize(migrationPage, Transferring(migrations));
    Kinds(s, nodes, migrations, jobPage, now);
    hide Corrected, Orphaned;
  }

  /** A running job whose lease was over for more than thirty seconds. */
  predicate LongOver(j: J.Job, now: int) {
    j.status.Running? && j.lockedUntil.Some? && j.lockedUntil.value < now - 30_000_000_000
  }

  /**
   With at most a page of running jobs, one lease more than thirty seconds over makes a real pass put every running job
   whose lease is over back to pending; without one no job changes. Afterwards no such lease is left.
   */
  lemma PassReclaims(nodes: map<string, Node>, s: State, page: set<string>, now: int, id: string)
    requires IsPage(page, RunningJobs(s.jobs), JOB_PAGE) && |RunningJobs(s.jobs)| <= JOB_PAGE && id in s.jobs
    ensures var jobs := Pass(nodes, s, page, now).jobs;
            && jobs.Keys == s.jobs.Keys
            && var j := s.jobs[id];
            && (if && (exists v :: v in s.jobs && LongOver(s.jobs[v], now))
                   && j.status.Running? && j.lockedUntil.Some? && j.lockedUntil.value < now
                then jobs[id] == j.(status := J.Pending, worker := "", lockedUntil := None)
                else jobs[id] == j)
            && !LongOver(jobs[id], now)
  {
    SubsetBySize(page, RunningJobs(s.jobs));
    hide RepairedQuotas, RepairedInstances;
    if v :| v in s.jobs && LongOver(s.jobs[v], now) {
      assert v in page && Stale(s.jobs[v], now);
    }
  }

  lemma NothingIsUsed(tenant: string, r: Resource)
    ensures Usage(map[], tenant, r) == 0
  {
    var none: map<string, Instance> := map[];
    assert Shares(none, none.Keys, tenant, r) == map[];
  }

  /**
   With the one before, what usage is: each running or stopped instance adds one, its cores and its whole megabytes.
   */
  lemma UsageGrows(instances: map<string, Instance>, id: string, i: Instance, tenant: string, r: Resource)
    requires id !in instances && 0 <= i.memoryBytes && 0 <= i.storageBytes
    ensures Usage(instances[id := i], tenant, r) == Usage(instances, tenant, r) +
            if i.user == tenant && (i.status.Running? || i.status.Stopped?) then
              match r
              case Instances => 1
              case Vcpu => i.cpuCores
              case MemoryMB => i.memoryBytes / 1_048_576
              case StorageMB => i.storageBytes / 1_048_576
            else 0
  {
    var all := instances[id := i];
    SharesGrow(all, instances.Keys, id, tenant, r);
    assert instances.Keys + {id} == all.Keys;
    assert Shares(all, instances.Keys, tenant, r) == Shares(instances, instances.Keys, tenant, r);
  }

  ghost predicate Occupied(instances: map<string, Instance>, tenant: string) {
    exists id :: id in instances && instances[id].user == tenant
                 && (instances[id].status.Running? || instances[id].status.Stopped?)
  }

  /**
   A real pass sets the usage of each of the four items of a tenant with a running or stopped instance to the sum over
   its instances, keeps their limits, and leaves every other item alone.
   */
  lemma PassSetsUsage(nodes: map<string, Node>, s: State, page: set<string>, now: int, k: (string, string))
    requires k in s.quotas
    ensures var quotas := Pass(nodes, s, page, now).quotas;
            && quotas.Keys == s.quotas.Keys
            && quotas[k] ==
               if Occupied(s.instances, k.0)
               then
                 if k.1 == "instances" then s.quotas[k].(usage := Usage(s.instances, k.0, Instances))
                 else if k.1 == "vcpu" then s.quotas[k].(usage := Usage(s.instances, k.0, Vcpu))
                 else if k.1 == "memory_mb" then s.quotas[k].(usage := Usage(s.instances, k.0, MemoryMB))
                 else if k.1 == "storage_mb" then s.quotas[k].(usage := Usage(s.instances, k.0, StorageMB))
                 else s.quotas[k]
               else s.quotas[k]
  {
    assert Active(s.instances, s.instances.Keys, k.0) <==> Occupied(s.instances, k.0);
    assert Key(Instances) == "instances" && Key(Vcpu) == "vcpu" && Key(MemoryMB) == "memory_mb"
           && Key(StorageMB) == "storage_mb";
    hide RepairedInstances, RepairedJobs, Usage, Key, Active, Occupied;
    if r :| Compared(s.instances, k, r) {
      CorrectedTo(s.quotas, s.instances, k, r);
      KeysDiffer();
      match r {
        case Instances =>
        case Vcpu =>
        case MemoryMB =>
        case StorageMB =>
      }
    } else {
      NoneCompared(s.instances, k);
    }
  }

  lemma NoneCompared(instances: map<string, Instance>, k: (string, string))
    requires forall r :: !Compared(instances, k, r)
    ensures Active(instances, instances.Keys, k.0) ==>
              k.1 != Key(Instances) && k.1 != Key(Vcpu) && k.1 != Key(MemoryMB) && k.1 != Key(StorageMB)
  {
    assert !Compared(instances, k, Instances) && !Compared(instances, k, Vcpu) && !Compared(instances, k, MemoryMB)
           && !Compared(instances, k, StorageMB);
  }

  /** A real pass reports exactly the items it changes, and a dry run none. */
  lemma QuotaIsReportedIff(
    nodes: map<string, Node>, migrations: map<string, Transfer>, s: State, dryRun: bool,
    jobPage: set<string>, migrationPage: set<string>, now: int, k: (string, string))
    ensures AQuota(k.0, k.1) in Findings(nodes, migrations, s, dryRun, jobPage, migrationPage, now) <==>
            !dryRun && k in s.quotas && Pass(nodes, s, jobPage, now).quotas[k] != s.quotas[k]
  {
    Kinds(s, nodes, migrations, jobPage, now);
    hide Corrected, Orphaned;
    assert (k.0, k.1) == k;
  }

  // ---- Tallying ----

  type Tally = map<(string, Resource), int>

  function Got(tally: Tally, k: (string, Resource)): int {
    if k in tally then tally[k] else 0
  }

  /** The tally of some instances: their active tenants, each with its four sums. */
  ghost predicate IsTally(tally: Tally, instances: map<string, Instance>, ids: set<string>) {
    && (forall t, r :: (t, r) in tally <==> Active(instances, ids, t))
    && (forall t, r :: Got(tally, (t, r)) == Total(Shares(instances, ids, t, r)))
  }

  /** The tally with one more counted instance. */
  method AddToTally(tally: Tally, i: Instance) returns (after: Tally)
    ensures forall t, r :: (t, r) in after <==> (t, r) in tally || t == i.user
    ensures forall t, r :: Got(after, (t, r)) == Got(tally, (t, r)) + if t == i.user then Amount(i, r) else 0
  {
    after := tally[(i.user, Instances) := Got(tally, (i.user, Instances)) + 1];
    after := after[(i.user, Vcpu) := Got(tally, (i.user, Vcpu)) + i.cpuCores];
    after := after[(i.user, MemoryMB) := Got(tally, (i.user, MemoryMB)) + TruncatedDiv(i.memoryBytes, MEGABYTE)];
    after := after[(i.user, StorageMB) := Got(tally, (i.user, StorageMB)) + TruncatedDiv(i.storageBytes, MEGABYTE)];
    forall t, r
      ensures (t, r) in after <==> (t, r) in tally || t == i.user
      ensures Got(after, (t, r)) == Got(tally, (t, r)) + if t == i.user then Amount(i, r) else 0
    {
      match r
      case Instances =>
      case Vcpu =>
      case MemoryMB =>
      case StorageMB =>
    }
  }

  method Tallied(tally: Tally, ghost id: string, i: Instance, ghost instances: map<string, Instance>,
      ghost ids: set<string>)
    returns (after: Tally)
    requires IsTally(tally, instances, ids) && id in instances && id !in ids && instances[id] == i
    ensures IsTally(after, instances, ids + {id})
  {
    hide IsTally;
    after := tally;
    if i.status == InstanceStatus.Running || i.status == InstanceStatus.Stopped {
      after := AddToTally(tally, i);
    }
    TallyGrows(tally, after, instances, ids, id);
  }

  lemma NothingTallied(instances: map<string, Instance>)
    ensures IsTally(map[], instances, {})
  {
    forall t, r
      ensures Shares(instances, {}, t, r) == map[]
    {
    }
  }

  lemma TallyGrows(tally: Tally, after: Tally, instances: map<string, Instance>, ids: set<string>, id: string)
    requires IsTally(tally, instances, ids) && id in instances && id !in ids
    requires Counts(instances[id]) ==>
               && (forall t, r :: (t, r) in after <==> (t, r) in tally || t == instances[id].user)
               && (forall t, r :: Got(after, (t, r)) ==
                                  Got(tally, (t, r)) + if t == instances[id].user then Amount(instances[id], r) else 0)
    requires !Counts(instances[id]) ==> after == tally
    ensures IsTally(after, instances, ids + {id})
  {
    forall t, r
      ensures Got(after, (t, r)) == Total(Shares(instances, ids + {id}, t, r))
    {
      SharesGrow(instances, ids, id, t, r);
    }
    forall t
      ensures Active(instances, ids + {id}, t) <==>
              Active(instances, ids, t) || (Counts(instances[id]) && instances[id].user == t)
    {
    }
  }

  /** The store with the tallies seen so far written over the items it has. */
  ghost predicate SetTo(q: Quotas, current: Quotas, tally: Tally, seen: set<(string, Resource)>) {
    && current.Keys == q.Keys
    && (forall t, r | (t, r) in seen && (t, Key(r)) in q ::
          current[(t, Key(r))] == q[(t, Key(r))].(usage := Got(tally, (t, r))))
    && (forall k | k in q && (forall r :: k.1 == Key(r) ==> (k.0, r) !in seen) :: current[k] == q[k])
  }

  ghost function Differing(q: Quotas, tally: Tally, seen: set<(string, Resource)>): set<Subject> {
    set k | k in seen && (k.0, Key(k.1)) in q && q[(k.0, Key(k.1))].usage != Got(tally, k) :: AQuota(k.0, Key(k.1))
  }

  lemma NothingSet(q: Quotas, tally: Tally)
    ensures SetTo(q, q, tally, {}) && Differing(q, tally, {}) == {}
  {
  }

  lemma SetStep(q: Quotas, current: Quotas, tally: Tally, seen: set<(string, Resource)>, k: (string, Resource))
    requires k in tally && k !in seen && SetTo(q, current, tally, seen)
    ensures var item := (k.0, Key(k.1));
            && (item in q ==> current[item] == q[item])
            && AQuota(k.0, Key(k.1)) !in Differing(q, tally, seen)
            && current.Keys == q.Keys
            && (if item in q && q[item].usage != tally[k]
                then && Differing(q, tally, seen + {k}) == Differing(q, tally, seen) + {AQuota(k.0, Key(k.1))}
                     && SetTo(q, current[item := current[item].(usage := tally[k])], tally, seen + {k})
                else && Differing(q, tally, seen + {k}) == Differing(q, tally, seen)
                     && SetTo(q, current, tally, seen + {k}))
  {
    KeysDiffer();
    assert (k.0, k.1) == k;
  }

  lemma AllSet(q: Quotas, current: Quotas, tally: Tally, instances: map<string, Instance>)
    requires IsTally(tally, instances, instances.Keys) && SetTo(q, current, tally, tally.Keys)
    ensures current == RepairedQuotas(q, instances)
    ensures Differing(q, tally, tally.Keys) == WrongSubjects(q, instances)
  {
    forall k | k in q
      ensures current[k] == Corrected(q, instances, k)
      ensures AQuota(k.0, k.1) in Differing(q, tally, tally.Keys) <==> Corrected(q, instances, k) != q[k]
    {
      KeysDiffer();
      if r :| Compared(instances, k, r) {
        CorrectedTo(q, instances, k, r);
        var at := (k.0, r);
        assert at in tally && Got(tally, at) == Usage(instances, k.0, r);
        assert (at.0, Key(at.1)) == k;
      } else {
        forall r | Key(r) == k.1
          ensures (k.0, r) !in tally
        {
          assert !Compared(instances, k, r);
        }
      }
    }
  }

  // ---- The service ----

  class Service {
    const nodes: map<string, Node>
    const migrations: map<string, Transfer>
    const jobRepo: J.MemoryJobRepo
    var instances: map<string, Instance>
    var quotas: Quotas

    constructor (nodes: map<string, Node>, migrations: map<string, Transfer>, jobRepo: J.MemoryJobRepo, s: State)
      ensures this.nodes == nodes && this.migrations == migrations && this.jobRepo == jobRepo
      ensures instances == s.instances && quotas == s.quotas
    {
      this.nodes, this.migrations, this.jobRepo := nodes, migrations, jobRepo;
      instances, quotas := s.instances, s.quotas;
    }

    ghost function Contents(): State
      reads this, jobRepo
    {
      State(instances, quotas, jobRepo.jobs)
    }

    /** One listed instance: counted if it runs or is stopped, marked if it is orphaned. */
    method CheckInstance(id: string, i: Instance, dryRun: bool, start: Report, before: Tally,
                         ghost listed: map<string, Instance>, ghost seen: set<string>)
      returns (report: Report, tally: Tally)
      requires id in listed && id !in seen && listed[id] == i
      requires Marked(nodes, listed, instances, seen, dryRun)
      requires IsTally(before, listed, seen) && Lists(start, dryRun, {}, OrphanSubjects(nodes, listed, seen))
      modifies this`instances
      ensures Marked(nodes, listed, instances, seen + {id}, dryRun)
      ensures IsTally(tally, listed, seen + {id})
      ensures Lists(report, dryRun, {}, OrphanSubjects(nodes, listed, seen + {id}))
    {
      hide Lists, Noted, IsTally, OrphanSubjects, Marked;
      MarkStep(nodes, listed, instances, seen, dryRun, id);
      OrphanStep(nodes, listed, seen, id);
      report := start;
      tally := Tallied(before, id, i, listed, seen);
      if i.status != InstanceStatus.Deleted {
        if i.node !in nodes || (nodes[i.node].status == NodeStatus.Offline && i.status == InstanceStatus.Running) {
          NotedLists(report, dryRun, {}, OrphanSubjects(nodes, listed, seen), AnInstance(id));
          report := Noted(report, AnInstance(id), dryRun);
          if !dryRun {
            instances := instances[id := instances[id].(status := InstanceStatus.Error)];
          }
        }
      }
    }

    /** The first pass over the instances: tally what counts, mark what is orphaned. */
    method CheckInstances(dryRun: bool) returns (report: Report, tally: Tally)
      modifies this`instances
      ensures instances == if dryRun then old(instances) else RepairedInstances(nodes, old(instances))
      ensures IsTally(tally, old(instances), old(instances).Keys)
      ensures Lists(report, dryRun, {}, OrphanSubjects(nodes, old(instances), old(instances).Keys))
    {
      hide Lists, Ranges, Noted, IsTally, OrphanSubjects, Marked, RepairedInstances;
      NothingListed(dryRun);
      NothingTallied(instances);
      NothingFound(nodes, migrations, Contents(), 0);
      report, tally := EMPTY, map[];
      var listed := instances;
      var rest := listed.Keys;
      ghost var seen: set<string> := {};
      RangeStarts(listed.Keys);
      MarkStarts(nodes, listed, dryRun);
      while rest != {}
        invariant Ranges(listed.Keys, rest, seen)
        invariant Marked(nodes, listed, instances, seen, dryRun)
        invariant IsTally(tally, listed, seen)
        invariant Lists(report, dryRun, {}, OrphanSubjects(nodes, listed, seen))
        decreases |rest|
      {
        var id :| id in rest;
        RangeStep(listed.Keys, rest, seen, id);
        report, tally := CheckInstance(id, listed[id], dryRun, report, tally, listed, seen);
        rest := rest - {id};
        seen := seen + {id};
      }
      RangeEnds(listed.Keys, seen);
      MarkEnds(nodes, listed, instances, dryRun);
    }

    /** Real passes only: each tallied item the store has is set to its tally. */
    method CheckQuotas(tally: Tally, start: Report, ghost earlier: set<Subject>, ghost was: map<string, Instance>)
      returns (report: Report)
      requires IsTally(tally, was, was.Keys)
      requires Lists(start, false, earlier, {}) && forall s | s in earlier :: !s.AQuota?
      modifies this`quotas
      ensures quotas == RepairedQuotas(old(quotas), was)
      ensures Lists(report, false, earlier, WrongSubjects(old(quotas), was))
    {
      hide Lists, Ranges, Noted, IsTally, SetTo, Differing, RepairedQuotas, WrongSubjects, Key;
      report := start;
      var rest := tally.Keys;
      ghost var q, seen: set<(string, Resource)> := quotas, {};
      NothingSet(q, tally);
      RangeStarts(tally.Keys);
      while rest != {}
        invariant Ranges(tally.Keys, rest, seen)
        invariant SetTo(q, quotas, tally, seen)
        invariant Lists(report, false, earlier, Differing(q, tally, seen))
        decreases |rest|
      {
        var k :| k in rest;
        RangeStep(tally.Keys, rest, seen, k);
        var item := (k.0, Key(k.1));
        SetStep(q, quotas, tally, seen, k);
        if item in quotas && quotas[item].usage != tally[k] {
          NotedLists(report, false, earlier, Differing(q, tally, seen), AQuota(k.0, Key(k.1)));
          report := Noted(report, AQuota(k.0, Key(k.1)), false);
          quotas := quotas[item := quotas[item].(usage := tally[k])];
        }
        rest := rest - {k};
        seen := seen + {k};
      }
      RangeEnds(tally.Keys, seen);
      AllSet(q, quotas, tally, was);
    }

    /** Job leases that ran out more than the grace period ago, as they were when the page was listed. */
    method CheckJobs(dryRun: bool, now: int, page: set<string>, start: Report, ghost earlier: set<Subject>)
      returns (report: Report)
      requires IsPage(page, RunningJobs(jobRepo.jobs), JOB_PAGE)
      requires Lists(start, dryRun, earlier, {}) && forall s | s in earlier :: !s.AJob?
      modifies jobRepo
      ensures jobRepo.jobs == if dryRun then old(jobRepo.jobs) else RepairedJobs(old(jobRepo.jobs), page, now)
      ensures Lists(report, dryRun, earlier, StaleSubjects(old(jobRepo.jobs), page, now))
    {
      hide Lists, Ranges, Noted, StaleSubjects, RepairedJobs, J.Reclaimed;
      NothingFound(nodes, migrations, Contents(), now);
      report := start;
      var listed := jobRepo.jobs;
      var rest := page;
      ghost var seen: set<string> := {};
      RangeStarts(page);
      while rest != {}
        invariant Ranges(page, rest, seen)
        invariant jobRepo.jobs == if dryRun then listed else RepairedJobs(listed, seen, now)
        invariant Lists(report, dryRun, earlier, StaleSubjects(listed, seen, now))
        decreases |rest|
      {
        var id :| id in rest;
        RangeStep(page, rest, seen, id);
        StaleStep(listed, seen, now, id);
        var j := listed[id];
        if j.lockedUntil.Some? && j.lockedUntil.value < now - LEASE_GRACE {
          NotedLists(report, dryRun, earlier, StaleSubjects(listed, seen, now), AJob(id));
          report := Noted(report, AJob(id), dryRun);
          if !dryRun {
            var _ := jobRepo.ReclaimAbandonedJobs(now, now);
          }
        }
        rest := rest - {id};
        seen := seen + {id};
      }
      RangeEnds(page, seen);
    }

    /** Transfers without progress are only reported. */
    method CheckMigrations(dryRun: bool, now: int, page: set<string>, start: Report, ghost earlier: set<Subject>)
      returns (report: Report)
      requires IsPage(page, Transferring(migrations), MIGRATION_PAGE)
      requires Lists(start, dryRun, earlier, {}) && forall s | s in earlier :: !s.AMigration?
      ensures Lists(report, dryRun, earlier, AbandonedSubjects(migrations, page, now))
    {
      hide Lists, Ranges, Noted, AbandonedSubjects;
      NothingFound(nodes, migrations, Contents(), now);
      report := start;
      var rest := page;
      ghost var seen: set<string> := {};
      RangeStarts(page);
      while rest != {}
        invariant Ranges(page, rest, seen)
        invariant Lists(report, dryRun, earlier, AbandonedSubjects(migrations, seen, now))
        decreases |rest|
      {
        var id :| id in rest;
        RangeStep(page, rest, seen, id);
        AbandonedStep(migrations, seen, now, id);
        if migrations[id].updatedAt < now - TRANSFER_GRACE {
          NotedLists(report, dryRun, earlier, AbandonedSubjects(migrations, seen, now), AMigration(id));
          report := Noted(report, AMigration(id), dryRun);
        }
        rest := rest - {id};
        seen := seen + {id};
      }
      RangeEnds(page, seen);
    }

    /**
     A pass over all four. A dry run leaves every store alone and does not look at quotas; a real pass makes the
     repairs of Pass. The report lists each finding once, and its counters add up.
     */
    method Reconcile(dryRun: bool, now: int, jobPage: set<string>, migrationPage: set<string>) returns (report: Report)
      requires IsPage(jobPage, RunningJobs(jobRepo.jobs), JOB_PAGE)
      requires IsPage(migrationPage, Transferring(migrations), MIGRATION_PAGE)
      modifies this, jobRepo
      ensures Contents() == if dryRun then old(Contents()) else Pass(nodes, old(Contents()), jobPage, now)
      ensures Sound(report, dryRun)
      ensures Subjects(report) == Findings(nodes, migrations, old(Contents()), dryRun, jobPage, migrationPage, now)
    {
      hide Lists, IsTally, IsPage, RepairedInstances, RepairedQuotas, RepairedJobs;
      hide OrphanSubjects, WrongSubjects, StaleSubjects, AbandonedSubjects;
      ghost var was := Contents();
      Kinds(was, nodes, migrations, jobPage, now);
      ghost var orphans := OrphanSubjects(nodes, was.instances, was.instances.Keys);
      ghost var wrong := if dryRun then {} else WrongSubjects(was.quotas, was.instances);
      ghost var stale := StaleSubjects(was.jobs, jobPage, now);
      var tally: Tally;
      report, tally := CheckInstances(dryRun);
      NextCheck(report, dryRun, {}, orphans);
      if !dryRun {
        report := CheckQuotas(tally, report, {} + orphans, was.instances);
      }
      NextCheck(report, dryRun, {} + orphans, wrong);
      report := CheckJobs(dryRun, now, jobPage, report, {} + orphans + wrong);
      NextCheck(report, dryRun, {} + orphans + wrong, stale);
      report := CheckMigrations(dryRun, now, migrationPage, report, {} + orphans + wrong + stale);
      ReportEnds(report, dryRun, {} + orphans + wrong + stale, AbandonedSubjects(migrations, migrationPage, now));
    }
  }
}
