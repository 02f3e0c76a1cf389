/** Placement: per-node allocation sums, eligibility, scores, selection and the migration preflight. */
module Scheduler {
  import opened Wrappers
  import opened Domain

  datatype Request = Request(
    kind: InstanceType,
    cpuCores: int,
    memoryBytes: int,
    storageBytes: int,
    architecture: string,
    location: string,
    preferred: string,
    excluded: seq<string>)

  datatype Allocation = Allocation(cpuCores: int, memoryBytes: int, storageBytes: int, count: int)

  const NONE := Allocation(0, 0, 0, 0)

  datatype Reason = Excluded | InMaintenance | InDrain | Unhealthy | WrongLocation | WrongArchitecture | NoKvm
    | NoCpu | NoMemory | NoStorage

  datatype Candidate = Candidate(
    node: string,
    availableCpu: real,
    availableMemoryMB: int,
    availableStorageGB: int,
    instances: int,
    score: real,
    reason: Option<Reason>)

  const MB := 1024 * 1024
  const GB := 1024 * 1024 * 1024

  // ---- Allocation sums ----

  predicate Counts(i: Instance, node: string) {
    !i.status.Deleted? && !i.status.Pending? && i.node == node
  }

  function Plus(a: Allocation, i: Instance): Allocation {
    Allocation(a.cpuCores + i.cpuCores, a.memoryBytes + i.memoryBytes, a.storageBytes + i.storageBytes, a.count + 1)
  }

  /** What the instances that occupy a node take up together. */
  function Load(instances: seq<Instance>, node: string): Allocation {
    if instances == [] then NONE else
    var rest, last := Load(instances[..|instances| - 1], node), instances[|instances| - 1];
    if Counts(last, node) then Plus(rest, last) else rest
  }

  function Indexed(index: map<string, Allocation>, node: string): Allocation {
    if node in index then index[node] else NONE
  }

  /** One pass over all instances gives every node its sum. */
  method IndexAllocations(instances: seq<Instance>) returns (index: map<string, Allocation>)
    ensures forall n :: Indexed(index, n) == Load(instances, n)
  {
    index := map[];
    for k := 0 to |instances|
      invariant forall n :: Indexed(index, n) == Load(instances[..k], n)
    {
      var i := instances[k];
      assert instances[..k + 1][..k] == instances[..k];
      if i.status == Deleted || i.status == Pending {
        continue;
      }
      var alloc := if i.node in index then index[i.node] else NONE;
      alloc := Allocation(alloc.cpuCores + i.cpuCores, alloc.memoryBytes + i.memoryBytes,
                          alloc.storageBytes + i.storageBytes, alloc.count + 1);
      index := index[i.node := alloc];
    }
    assert instances[..|instances|] == instances;
  }

  // ---- Constraints ----

  function Lower(s: string): string {
    seq(|s|, i requires 0 <= i < |s| => if 'A' <= s[i] <= 'Z' then s[i] - 'A' + 'a' else s[i])
  }

  function Truncated(x: real): int {
    if x < 0.0 then -((-x).Floor) else x.Floor
  }

  function Architecture(n: Node): string {
    match n.architecture
    case Some(a) => if a == "" then "x86_64" else Lower(a)
    case None => "x86_64"
  }

  function MaxCpu(n: Node): real {
    var ratio := if n.cpuOvercommit <= 0.0 then 1.0 else n.cpuOvercommit;
    var cores := n.cpuCores as real * ratio;
    if cores <= 0.0 then 128.0 else cores
  }

  function MaxMemory(n: Node): int {
    var ratio := if n.memoryOvercommit <= 0.0 then 1.0 else n.memoryOvercommit;
    var bytes := Truncated(n.memoryBytes as real * ratio);
    if bytes <= 0 then 512 * GB else bytes
  }

  function MaxStorage(n: Node): int {
    if n.storageBytes <= 0 then 2000 * GB else n.storageBytes
  }

  predicate FitsCpu(n: Node, a: Allocation) { a.cpuCores as real <= MaxCpu(n) }
  predicate FitsMemory(n: Node, a: Allocation) { a.memoryBytes <= MaxMemory(n) }
  predicate FitsStorage(n: Node, a: Allocation) { a.storageBytes <= MaxStorage(n) }

  /** The load with the requested workload added. */
  function With(a: Allocation, req: Request): Allocation {
    Allocation(a.cpuCores + req.cpuCores, a.memoryBytes + req.memoryBytes, a.storageBytes + req.storageBytes,
               a.count + 1)
  }

  /** What a placement demands of a node, said without the order in which the scheduler looks. */
  predicate Meets(id: string, n: Node, req: Request, a: Allocation) {
    && id !in req.excluded
    && IsSchedulable(n)
    && (req.location != "" ==> n.location == req.location)
    && (req.architecture != "" ==> Lower(req.architecture) == Lower(Architecture(n)))
    && !(req.kind.VirtualMachine? && n.kvmSupported == Some(false))
    && FitsCpu(n, With(a, req)) && FitsMemory(n, With(a, req)) && FitsStorage(n, With(a, req))
  }

  function BaseScore(n: Node, req: Request, a: Allocation): real {
    var cpu := (a.cpuCores + req.cpuCores) as real / MaxCpu(n);
    var memory := (a.memoryBytes + req.memoryBytes) as real / (MaxMemory(n) as real);
    ((1.0 - cpu) * 0.5 + (1.0 - memory) * 0.5) * 100.0
  }

  function Score(id: string, n: Node, req: Request, a: Allocation): real {
    BaseScore(n, req, a) + if req.preferred == id then 15.0 else 0.0
  }

  /** Half of a share of what is left: between 0 and 50. */
  lemma HalfShare(used: real, limit: real)
    requires 0.0 <= used <= limit && 0.0 < limit
    ensures 0.0 <= (1.0 - used / limit) * 0.5 <= 0.5
  {
  }

  /** Before the boost for a preferred node, a node that meets the request scores between 0 and 100. */
  lemma ScoreInRange(id: string, n: Node, req: Request, a: Allocation)
    requires Meets(id, n, req, a)
    requires 0 <= a.cpuCores + req.cpuCores && 0 <= a.memoryBytes + req.memoryBytes
    ensures 0.0 <= BaseScore(n, req, a) <= 100.0
  {
    HalfShare((a.cpuCores + req.cpuCores) as real, MaxCpu(n));
    HalfShare((a.memoryBytes + req.memoryBytes) as real, MaxMemory(n) as real);
  }

  lemma ProductSign(a: real, b: real)
    requires b > 0.0
    ensures a > 0.0 <==> a * b > 0.0
  {
    if a <= 0.0 {
      assert a * b <= 0.0;
    }
  }

  /** What a node can carry: its own figures times the overcommit, or a default where they say nothing. */
  lemma CpuLimitIs(n: Node)
    ensures n.cpuCores > 0 && n.cpuOvercommit > 0.0 ==> MaxCpu(n) == n.cpuCores as real * n.cpuOvercommit
    ensures n.cpuCores > 0 && n.cpuOvercommit <= 0.0 ==> MaxCpu(n) == n.cpuCores as real
    ensures n.cpuCores <= 0 ==> MaxCpu(n) == 128.0
    ensures MaxCpu(n) > 0.0
  {
    if n.cpuOvercommit > 0.0 {
      ProductSign(n.cpuCores as real, n.cpuOvercommit);
      CoresTimes(n, n.cpuCores as real * n.cpuOvercommit);
    }
  }

  lemma CoresTimes(n: Node, cores: real)
    requires n.cpuOvercommit > 0.0 && cores == n.cpuCores as real * n.cpuOvercommit
    ensures MaxCpu(n) == if cores <= 0.0 then 128.0 else cores
  {
  }

  lemma TruncatedIs(x: real)
    ensures x >= 1.0 ==> Truncated(x) > 0 && Truncated(x) as real <= x < Truncated(x) as real + 1.0
    ensures x <= 0.0 ==> Truncated(x) <= 0
  {
  }

  lemma MemoryLimitIs(n: Node)
    ensures n.memoryBytes > 0 && n.memoryOvercommit <= 0.0 ==> MaxMemory(n) == n.memoryBytes
    ensures n.memoryOvercommit > 0.0 && n.memoryBytes as real * n.memoryOvercommit >= 1.0 ==>
              MaxMemory(n) as real <= n.memoryBytes as real * n.memoryOvercommit < MaxMemory(n) as real + 1.0
    ensures n.memoryBytes <= 0 ==> MaxMemory(n) == 549_755_813_888
    ensures MaxMemory(n) > 0
  {
    var ratio := if n.memoryOvercommit > 0.0 then n.memoryOvercommit else 1.0;
    ProductSign(n.memoryBytes as real, ratio);
    TruncatedIs(n.memoryBytes as real * ratio);
    if n.memoryOvercommit <= 0.0 {
      assert n.memoryBytes as real * 1.0 == n.memoryBytes as real;
      assert n.memoryBytes > 0 ==> Truncated(n.memoryBytes as real) == n.memoryBytes;
    }
    hide Truncated;
  }

  lemma StorageLimitIs(n: Node)
    ensures MaxStorage(n) == if n.storageBytes > 0 then n.storageBytes else 2_147_483_648_000
  {
  }

  /** The same letters, be they small or capital. */
  predicate SameLetters(s: string, t: string) {
    |s| == |t| && forall i | 0 <= i < |s| ::
      || s[i] == t[i]
      || ('A' <= s[i] <= 'Z' && t[i] as int == s[i] as int + 32)
      || ('A' <= t[i] <= 'Z' && s[i] as int == t[i] as int + 32)
  }

  lemma LowerAgreesIff(s: string, t: string)
    ensures Lower(s) == Lower(t) <==> SameLetters(s, t)
  {
    var x, y := Lower(s), Lower(t);
    assert |x| == |s| && |y| == |t|;
    assert forall i | 0 <= i < |s| :: x[i] as int == if 'A' <= s[i] <= 'Z' then s[i] as int + 32 else s[i] as int;
    assert forall i | 0 <= i < |t| :: y[i] as int == if 'A' <= t[i] <= 'Z' then t[i] as int + 32 else t[i] as int;
    if SameLetters(s, t) {
      assert forall i | 0 <= i < |s| :: x[i] as int == y[i] as int;
      assert x == y;
    }
  }

  /**
   Which nodes will do: online or degraded, set to neither maintenance nor drain, at the location and of the
   architecture asked for, with KVM for a machine, and with room for the request in all three dimensions.
   */
  lemma MeetsIff(id: string, n: Node, req: Request, a: Allocation)
    ensures var own := if n.architecture.None? || n.architecture.value == "" then "x86_64" else n.architecture.value;
            Meets(id, n, req, a) <==>
            && (n.status.Online? || n.status.Degraded?) && !n.maintenanceMode && !n.drainMode
            && id !in req.excluded && (req.location == "" || n.location == req.location)
            && (req.architecture == "" || SameLetters(req.architecture, own))
            && (req.kind.VirtualMachine? ==> n.kvmSupported.None? || n.kvmSupported.value)
            && (a.cpuCores + req.cpuCores) as real <= MaxCpu(n) && a.memoryBytes + req.memoryBytes <= MaxMemory(n)
            && a.storageBytes + req.storageBytes <= MaxStorage(n)
  {
    var own := if n.architecture.None? || n.architecture.value == "" then "x86_64" else n.architecture.value;
    LowerAgreesIff(req.architecture, own);
    LowerTwice(own);
    assert Lower("x86_64") == "x86_64";
    hide MaxCpu, MaxMemory, MaxStorage, Lower, SameLetters;
  }

  lemma LowerTwice(s: string)
    ensures Lower(Lower(s)) == Lower(s)
  {
    var x := Lower(s);
    assert forall i | 0 <= i < |s| :: x[i] as int == if 'A' <= s[i] <= 'Z' then s[i] as int + 32 else s[i] as int;
    assert forall i | 0 <= i < |s| :: !('A' <= x[i] <= 'Z');
  }

  lemma ShareFalls(used: real, more: real, limit: real)
    requires used <= more && 0.0 < limit
    ensures used / limit <= more / limit
    ensures used < more ==> used / limit < more / limit
  {
    var rest := (more - used) / limit;
    assert more / limit == used / limit + rest;
    assert used < more ==> rest > 0.0;
  }

  /** Of two nodes with the same limits the one with less on it scores higher. */
  lemma LessLoadedScoresHigher(m: Node, n: Node, req: Request, a: Allocation, b: Allocation)
    requires MaxCpu(m) == MaxCpu(n) && MaxMemory(m) == MaxMemory(n)
    requires a.cpuCores <= b.cpuCores && a.memoryBytes <= b.memoryBytes
    requires a.cpuCores < b.cpuCores || a.memoryBytes < b.memoryBytes
    ensures BaseScore(m, req, a) > BaseScore(n, req, b)
  {
    CpuLimitIs(n);
    MemoryLimitIs(n);
    ShareFalls((a.cpuCores + req.cpuCores) as real, (b.cpuCores + req.cpuCores) as real, MaxCpu(n));
    ShareFalls((a.memoryBytes + req.memoryBytes) as real, (b.memoryBytes + req.memoryBytes) as real,
               MaxMemory(n) as real);
    hide MaxCpu, MaxMemory;
  }

  lemma Whole(limit: real)
    requires 0.0 < limit
    ensures 0.0 / limit == 0.0 && limit / limit == 1.0
  {
  }

  /** An empty node scores 100, a full one 0, and one whose processors or memory alone are all taken 50. */
  lemma ScoresAtTheEnds(n: Node, req: Request, a: Allocation, cpuFull: bool, memoryFull: bool)
    requires (a.cpuCores + req.cpuCores) as real == if cpuFull then MaxCpu(n) else 0.0
    requires a.memoryBytes + req.memoryBytes == if memoryFull then MaxMemory(n) else 0
    ensures BaseScore(n, req, a) == (if cpuFull then 0.0 else 50.0) + (if memoryFull then 0.0 else 50.0)
  {
    CpuLimitIs(n);
    MemoryLimitIs(n);
    hide MaxCpu, MaxMemory;
    Whole(MaxCpu(n));
    Whole(MaxMemory(n) as real);
  }

  /** The preferred node gains fifteen points, every other none. */
  lemma PreferredGains(id: string, n: Node, req: Request, a: Allocation)
    ensures Score(id, n, req, a) == if id == req.preferred then BaseScore(n, req, a) + 15.0 else BaseScore(n, req, a)
  {
  }

  // ---- Evaluation ----

  /** The constraint that a reported reason says is broken. */
  predicate Breaks(r: Reason, id: string, n: Node, req: Request, a: Allocation) {
    match r
    case Excluded => id in req.excluded
    case InMaintenance => n.maintenanceMode
    case InDrain => n.drainMode && !n.maintenanceMode
    case Unhealthy => !n.status.Online? && !n.status.Degraded?
    case WrongLocation => req.location != "" && n.location != req.location
    case WrongArchitecture => req.architecture != "" && Lower(req.architecture) != Lower(Architecture(n))
    case NoKvm => req.kind.VirtualMachine? && n.kvmSupported == Some(false)
    case NoCpu => !FitsCpu(n, With(a, req))
    case NoMemory => !FitsMemory(n, With(a, req))
    case NoStorage => !FitsStorage(n, With(a, req))
  }

  /** What the scheduler reports for a node: room is computed once the constraints before capacity are met. */
  predicate Describes(c: Candidate, id: string, n: Node, req: Request, a: Allocation) {
    && c.node == id
    && (c.reason.None? <==> Meets(id, n, req, a))
    && (c.reason.None? ==> c.score == Score(id, n, req, a))
    && (c.reason.Some? ==> Breaks(c.reason.value, id, n, req, a))
    && (c.reason.None? || c.reason.value in {NoCpu, NoMemory, NoStorage} ==>
          && c.availableCpu == MaxCpu(n) - a.cpuCores as real
          && c.availableMemoryMB == TruncatedDiv(MaxMemory(n) - a.memoryBytes, MB)
          && c.availableStorageGB == TruncatedDiv(MaxStorage(n) - a.storageBytes, GB)
          && c.instances == a.count)
  }

  method Evaluate(id: string, n: Node, req: Request, a: Allocation) returns (c: Candidate)
    ensures Describes(c, id, n, req, a)
  {
    c := Candidate(id, 0.0, 0, 0, 0, 0.0, None);
    if id in req.excluded {
      return c.(reason := Some(Excluded));
    }
    if !IsSchedulable(n) {
      return c.(reason := Some(if n.maintenanceMode then InMaintenance else if n.drainMode then InDrain
        else Reason.Unhealthy));
    }
    if req.location != "" && n.location != req.location {
      return c.(reason := Some(WrongLocation));
    }
    var nodeArch := "x86_64";
    if n.architecture.Some? && n.architecture.value != "" {
      nodeArch := Lower(n.architecture.value);
    }
    if req.architecture != "" && Lower(req.architecture) != Lower(nodeArch) {
      return c.(reason := Some(WrongArchitecture));
    }
    if req.kind == VirtualMachine && n.kvmSupported.Some? && !n.kvmSupported.value {
      return c.(reason := Some(NoKvm));
    }
    var maxCpu, maxMemory, maxStorage := MaxCpu(n), MaxMemory(n), MaxStorage(n);
    c := c.(instances := a.count,
            availableCpu := maxCpu - a.cpuCores as real,
            availableMemoryMB := TruncatedDiv(maxMemory - a.memoryBytes, MB),
            availableStorageGB := TruncatedDiv(maxStorage - a.storageBytes, GB));
    if req.cpuCores as real > c.availableCpu {
      return c.(reason := Some(NoCpu));
    }
    if req.memoryBytes > maxMemory - a.memoryBytes {
      return c.(reason := Some(NoMemory));
    }
    if req.storageBytes > maxStorage - a.storageBytes {
      return c.(reason := Some(NoStorage));
    }
    var cpuRatio := (a.cpuCores + req.cpuCores) as real / maxCpu;
    var memRatio := (a.memoryBytes + req.memoryBytes) as real / (maxMemory as real);
    var score := ((1.0 - cpuRatio) * 0.5 + (1.0 - memRatio) * 0.5) * 100.0;
    if req.preferred == id {
      score := score + 15.0;
    }
    c := c.(score := score);
  }

  /** A listing of the nodes, each with its identifier. */
  type Listing = seq<(string, Node)>

  method EvaluateCandidates(nodes: Listing, instances: seq<Instance>, req: Request) returns (results: seq<Candidate>)
    ensures |results| == |nodes|
    ensures forall k | 0 <= k < |nodes| ::
            Describes(results[k], nodes[k].0, nodes[k].1, req, Load(instances, nodes[k].0))
  {
    var index := IndexAllocations(instances);
    results := [];
    for k := 0 to |nodes|
      invariant |results| == k
      invariant forall j | 0 <= j < k :: Describes(results[j], nodes[j].0, nodes[j].1, req, Load(instances, nodes[j].0))
    {
      var (id, n) := nodes[k];
      var alloc := if id in index then index[id] else NONE;
      assert alloc == Indexed(index, id);
      var c := Evaluate(id, n, req, alloc);
      results := results + [c];
    }
  }

  // ---- Selection ----

  predicate Descending(cs: seq<Candidate>) {
    |cs| < 2 || (cs[0].score >= cs[1].score && Descending(cs[1..]))
  }

  lemma {:induction false} FirstIsBest(cs: seq<Candidate>, k: nat)
    requires Descending(cs) && k < |cs|
    ensures cs[k].score <= cs[0].score
  {
    if k > 0 {
      FirstIsBest(cs[1..], k - 1);
    }
  }

  function Insert(c: Candidate, cs: seq<Candidate>): (r: seq<Candidate>)
    requires Descending(cs)
    ensures Descending(r)
    ensures r != [] && (r[0] == c || (cs != [] && r[0] == cs[0]))
    ensures forall x :: x in r <==> x == c || x in cs
    ensures multiset(r) == multiset(cs) + multiset{c}
  {
    if cs == [] || c.score >= cs[0].score then
      var r := [c] + cs;
      assert r[1..] == cs;
      r
    else
      var r := [cs[0]] + Insert(c, cs[1..]);
      assert r[1..] == Insert(c, cs[1..]);
      assert cs == [cs[0]] + cs[1..];
      r
  }

  /** Highest score first; which of equal candidates comes first is left to the sort. */
  function SortByScore(cs: seq<Candidate>): (r: seq<Candidate>)
    ensures Descending(r)
    ensures forall x :: x in r <==> x in cs
    ensures multiset(r) == multiset(cs)
  {
    if cs == [] then [] else
    assert cs == [cs[0]] + cs[1..];
    Insert(cs[0], SortByScore(cs[1..]))
  }

  ghost predicate Placeable(nodes: Listing, instances: seq<Instance>, req: Request, k: nat)
    requires k < |nodes|
  {
    Meets(nodes[k].0, nodes[k].1, req, Load(instances, nodes[k].0))
  }

  ghost function ScoreAt(nodes: Listing, instances: seq<Instance>, req: Request, k: nat): real
    requires k < |nodes|
  {
    Score(nodes[k].0, nodes[k].1, req, Load(instances, nodes[k].0))
  }

  /** Fails exactly when no node meets the request, and otherwise picks one that does with the highest score. */
  method SelectNode(nodes: Listing, instances: seq<Instance>, req: Request) returns (selected: Option<nat>)
    ensures selected.None? <==> forall k | 0 <= k < |nodes| :: !Placeable(nodes, instances, req, k)
    ensures selected.Some? ==>
              && selected.value < |nodes|
              && Placeable(nodes, instances, req, selected.value)
              && forall k | 0 <= k < |nodes| && Placeable(nodes, instances, req, k) ::
                   ScoreAt(nodes, instances, req, k) <= ScoreAt(nodes, instances, req, selected.value)
  {
    hide Meets, Score, Load, SortByScore;
    var candidates := EvaluateCandidates(nodes, instances, req);
    assert forall k | 0 <= k < |nodes| :: candidates[k].reason.None? <==> Placeable(nodes, instances, req, k);
    assert forall k | 0 <= k < |nodes| && candidates[k].reason.None? ::
           candidates[k].score == ScoreAt(nodes, instances, req, k);
    hide Placeable, ScoreAt, Describes;
    var eligible: seq<Candidate> := [];
    for k := 0 to |candidates|
      invariant forall j | 0 <= j < k && candidates[j].reason.None? :: candidates[j] in eligible
      invariant forall c | c in eligible :: c in candidates && c.reason.None?
    {
      if candidates[k].reason.None? {
        eligible := eligible + [candidates[k]];
      }
    }
    if |eligible| == 0 {
      return None;
    }
    var sorted := SortByScore(eligible);
    assert eligible[0] in sorted;
    var best := sorted[0];
    forall c | c in eligible
      ensures c.score <= best.score
    {
      var k :| 0 <= k < |sorted| && sorted[k] == c;
      FirstIsBest(sorted, k);
    }
    var s :| 0 <= s < |candidates| && candidates[s] == best;
    selected := Some(s);
  }

  /** So of two nodes that will do, alike but for their load, the more loaded one is not picked unless preferred. */
  lemma LoadedIsNotBest(nodes: Listing, instances: seq<Instance>, req: Request, j: nat, k: nat)
    requires j < |nodes| && k < |nodes| && req.preferred != nodes[k].0
    requires MaxCpu(nodes[j].1) == MaxCpu(nodes[k].1) && MaxMemory(nodes[j].1) == MaxMemory(nodes[k].1)
    requires var a, b := Load(instances, nodes[j].0), Load(instances, nodes[k].0);
             && a.cpuCores <= b.cpuCores && a.memoryBytes <= b.memoryBytes
             && (a.cpuCores < b.cpuCores || a.memoryBytes < b.memoryBytes)
    ensures ScoreAt(nodes, instances, req, k) < ScoreAt(nodes, instances, req, j)
  {
    var a, b := Load(instances, nodes[j].0), Load(instances, nodes[k].0);
    LessLoadedScoresHigher(nodes[j].1, nodes[k].1, req, a, b);
    hide BaseScore, Load, MaxCpu, MaxMemory;
  }

  /** What an instance adds: its figures to the load of its node, unless it is pending or deleted. */
  lemma LoadGrows(instances: seq<Instance>, i: Instance, node: string)
    ensures Load([], node) == Allocation(0, 0, 0, 0)
    ensures var before, after := Load(instances, node), Load(instances + [i], node);
            after == if i.node == node && !i.status.Deleted? && !i.status.Pending?
                     then Allocation(before.cpuCores + i.cpuCores, before.memoryBytes + i.memoryBytes,
                                     before.storageBytes + i.storageBytes, before.count + 1)
                     else before
  {
    assert (instances + [i])[..|instances|] == instances;
  }

  /** After the placement the node's limits still hold, and no other node's load has changed. */
  lemma PlacementFits(nodes: Listing, instances: seq<Instance>, req: Request, s: nat, placed: Instance)
    requires s < |nodes| && Meets(nodes[s].0, nodes[s].1, req, Load(instances, nodes[s].0))
    requires placed.node == nodes[s].0 && !placed.status.Deleted? && !placed.status.Pending?
    requires placed.cpuCores == req.cpuCores && placed.memoryBytes == req.memoryBytes
             && placed.storageBytes == req.storageBytes
    ensures var load := Load(instances + [placed], nodes[s].0);
            FitsCpu(nodes[s].1, load) && FitsMemory(nodes[s].1, load) && FitsStorage(nodes[s].1, load)
    ensures forall n | n != nodes[s].0 :: Load(instances + [placed], n) == Load(instances, n)
  {
    assert (instances + [placed])[..|instances|] == instances;
  }

  // ---- Migration preflight ----

  datatype Preflight = Preflight(
    compatibleArch: bool, destinationHealthy: bool,
    cpuOk: bool, memoryOk: bool, storageOk: bool, failed: bool)

  /** The image, storage and network flags of the source are always set. */
  predicate Passed(p: Preflight) {
    p.compatibleArch && p.destinationHealthy && p.cpuOk && p.memoryOk && p.storageOk && !p.failed
  }

  function PreflightRequest(i: Instance): Request {
    Request(i.kind, i.cpuCores, i.memoryBytes, i.storageBytes, "", "", "", [])
  }

  predicate SameArchitecture(source: Option<Node>, dest: Node) {
    match source
    case None => true
    case Some(n) =>
      n.architecture.None? || dest.architecture.None? || n.architecture.value == "" || dest.architecture.value == ""
      || n.architecture.value == dest.architecture.value
  }

  /** Whole units: a size that fits once it is rounded up to megabytes or gigabytes. */
  predicate FitsInUnits(size: int, room: int, unit: int)
    requires 0 < unit
  {
    size <= TruncatedDiv(room, unit) * unit
  }

  /** What the preflight demands of a destination. */
  predicate PreflightMeets(inst: Instance, source: Option<Node>, id: string, dest: Node, load: Allocation) {
    && SameArchitecture(source, dest)
    && Meets(id, dest, PreflightRequest(inst), load)
    && FitsInUnits(inst.memoryBytes, MaxMemory(dest) - load.memoryBytes, MB)
    && FitsInUnits(inst.storageBytes, MaxStorage(dest) - load.storageBytes, GB)
  }

  /** What the preflight demands, of the workload's own figures; architectures differ only if both nodes name one. */
  lemma PreflightMeetsIff(inst: Instance, source: Option<Node>, id: string, dest: Node, load: Allocation)
    ensures PreflightMeets(inst, source, id, dest, load) <==>
            && (dest.status.Online? || dest.status.Degraded?) && !dest.maintenanceMode && !dest.drainMode
            && !(&& source.Some? && source.value.architecture.Some? && dest.architecture.Some?
                 && source.value.architecture.value != "" && dest.architecture.value != ""
                 && source.value.architecture.value != dest.architecture.value)
            && (inst.kind.VirtualMachine? ==> dest.kvmSupported.None? || dest.kvmSupported.value)
            && (load.cpuCores + inst.cpuCores) as real <= MaxCpu(dest)
            && load.memoryBytes + inst.memoryBytes <= MaxMemory(dest)
            && load.storageBytes + inst.storageBytes <= MaxStorage(dest)
            && inst.memoryBytes <= TruncatedDiv(MaxMemory(dest) - load.memoryBytes, 1_048_576) * 1_048_576
            && inst.storageBytes <= TruncatedDiv(MaxStorage(dest) - load.storageBytes, 1_073_741_824) * 1_073_741_824
  {
    MeetsIff(id, dest, PreflightRequest(inst), load);
    hide Meets, MaxCpu, MaxMemory, MaxStorage, TruncatedDiv;
  }

  /** A size that fits is refused in whole units exactly when it reaches into the last, partial unit. */
  lemma RefusedInUnitsIff(size: int, room: int, unit: int)
    requires 0 <= size <= room && 0 < unit
    ensures !FitsInUnits(size, room, unit) <==> room - room % unit < size
  {
    assert room == room / unit * unit + room % unit;
  }

  /**
   A node that the scheduler would pick fails the preflight exactly when its architecture differs, or the
   workload reaches into the last partial megabyte of memory or gigabyte of storage.
   */
  lemma PlaceableIsRefusedIff(inst: Instance, source: Option<Node>, id: string, dest: Node, load: Allocation)
    requires Meets(id, dest, PreflightRequest(inst), load) && 0 <= inst.memoryBytes && 0 <= inst.storageBytes
    ensures var memory, storage := MaxMemory(dest) - load.memoryBytes, MaxStorage(dest) - load.storageBytes;
            !PreflightMeets(inst, source, id, dest, load) <==>
            || !SameArchitecture(source, dest)
            || memory - memory % MB < inst.memoryBytes
            || storage - storage % GB < inst.storageBytes
  {
    RefusedInUnitsIff(inst.memoryBytes, MaxMemory(dest) - load.memoryBytes, MB);
    RefusedInUnitsIff(inst.storageBytes, MaxStorage(dest) - load.storageBytes, GB);
    hide FitsInUnits, MaxMemory, MaxStorage, SameArchitecture;
  }

  /** It happens: a workload of a megabyte and a byte, on an idle node with just that much memory. */
  lemma PlaceableIsRefused()
    ensures var dest := Node("", NodeStatus.Online, 1, MB + 1, GB, 1.0, 1.0, None, None, false, false, None);
            var inst := Instance("a", "t", "n1", Container, InstanceStatus.Running, 1, MB + 1, GB);
            Meets("n2", dest, PreflightRequest(inst), NONE) && !PreflightMeets(inst, None, "n2", dest, NONE)
  {
    var dest := Node("", NodeStatus.Online, 1, MB + 1, GB, 1.0, 1.0, None, None, false, false, None);
    assert MaxMemory(dest) == MB + 1 && MaxCpu(dest) == 1.0;
    assert (MB + 1) / MB * MB == MB;
  }

  /** A listing of a node store: each node once, in some order. */
  ghost predicate ListingOf(store: map<string, Node>, nodes: Listing) {
    && (forall k | 0 <= k < |nodes| :: nodes[k].0 in store && store[nodes[k].0] == nodes[k].1)
    && (forall id | id in store :: exists k :: 0 <= k < |nodes| && nodes[k].0 == id)
    && (forall j, k | 0 <= j < k < |nodes| :: nodes[j].0 != nodes[k].0)
  }

  datatype PreflightError = InstanceNotFound | DestinationNotFound

  /**
   The preflight passes exactly when the architectures agree, the destination meets the workload's own
   request, and memory and storage still fit when the free space is counted in whole megabytes and gigabytes.
   */
  method PreflightCheck(instance: Option<Instance>, dest: string, store: map<string, Node>, nodes: Listing,
                        instances: seq<Instance>)
    returns (r: Result<Preflight, PreflightError>)
    requires ListingOf(store, nodes)
    ensures r == Failure(InstanceNotFound) <==> instance.None?
    ensures r == Failure(DestinationNotFound) <==> instance.Some? && dest !in store
    ensures r.Success? ==>
              var inst := instance.value;
              var source := if inst.node in store then Some(store[inst.node]) else None;
              Passed(r.value) <==> PreflightMeets(inst, source, dest, store[dest], Load(instances, dest))
  {
    if instance.None? {
      return Failure(InstanceNotFound);
    }
    if dest !in store {
      return Failure(DestinationNotFound);
    }
    var inst, destNode := instance.value, store[dest];
    var p := Preflight(true, IsSchedulable(destNode), false, false, false, false);
    if !IsSchedulable(destNode) {
      return Success(p.(failed := true));
    }
    var source := if inst.node in store then Some(store[inst.node]) else None;
    if !SameArchitecture(source, destNode) {
      return Success(p.(compatibleArch := false, failed := true));
    }
    var candidates := EvaluateCandidates(nodes, instances, PreflightRequest(inst));
    ghost var d :| 0 <= d < |nodes| && nodes[d].0 == dest;
    var k := 0;
    while candidates[k].node != dest
      invariant 0 <= k <= d
      decreases d - k
    {
      k := k + 1;
    }
    assert k == d;
    var c := candidates[k];
    p := p.(cpuOk := c.availableCpu >= inst.cpuCores as real,
            memoryOk := c.availableMemoryMB * MB >= inst.memoryBytes,
            storageOk := c.availableStorageGB * GB >= inst.storageBytes,
            failed := c.reason.Some?);
    r := Success(p);
  }
}
