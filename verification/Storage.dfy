/** Storage pools and volumes: space accounting, attachment, and the names that must not clash. */
module Storage {
  import opened Wrappers
  import opened Sums

  datatype Pool = Pool(node: string, name: string, total: int, used: int)

  datatype VolumeStatus = Ready | Attached

  datatype Volume = Volume(
    pool: string,
    name: string,
    size: int,
    mountPath: string,
    readOnly: bool,
    instance: Option<string>,
    status: VolumeStatus)

  datatype State = State(pools: map<string, Pool>, volumes: map<string, Volume>)

  /**
   A request, with the fresh ID drawn for it, or the node of the instance it names (None if there is no such
   instance).
   */
  datatype Event =
    | CreatePool(id: string, node: string, nodeExists: bool, name: string, total: int)
    | CreateVolume(id: string, pool: string, name: string, size: int, mountPath: string, readOnly: bool)
    | Attach(id: string, instance: string, host: Option<string>, mountPath: string, readOnly: bool)
    | Detach(id: string, instanceExists: bool)
    | Resize(id: string, size: int)
    | Delete(id: string)

  predicate IsAttached(v: Volume) {
    v.instance.Some? && v.instance.value != ""
  }

  predicate PoolNameTaken(pools: map<string, Pool>, node: string, name: string) {
    exists p :: p in pools && pools[p].node == node && pools[p].name == name
  }

  predicate VolumeNameTaken(volumes: map<string, Volume>, pool: string, name: string) {
    exists v :: v in volumes && volumes[v].pool == pool && volumes[v].name == name
  }

  /** Whether a request succeeds; one that does not changes nothing. */
  predicate Accepted(s: State, e: Event) {
    match e
    case CreatePool(id, node, nodeExists, name, _) =>
      node != "" && name != "" && nodeExists && !PoolNameTaken(s.pools, node, name)
    case CreateVolume(id, pool, name, size, _, _) =>
      pool != "" && name != "" && size > 0 && pool in s.pools && !VolumeNameTaken(s.volumes, pool, name)
    case Attach(id, _, host, _, _) =>
      && id in s.volumes && !IsAttached(s.volumes[id]) && host.Some?
      && s.volumes[id].pool in s.pools && s.pools[s.volumes[id].pool].node == host.value
    case Detach(id, instanceExists) => id in s.volumes && IsAttached(s.volumes[id]) && instanceExists
    case Resize(id, size) => id in s.volumes && s.volumes[id].size <= size && s.volumes[id].pool in s.pools
    case Delete(id) => id in s.volumes && !IsAttached(s.volumes[id]) && s.volumes[id].pool in s.pools
  }

  function Clamped(x: int): int {
    if x < 0 then 0 else x
  }

  function Used(pools: map<string, Pool>, p: string, used: int): map<string, Pool>
    requires p in pools
  {
    pools[p := pools[p].(used := used)]
  }

  function Next(s: State, e: Event): State {
    if !Accepted(s, e) then s else
    match e
    case CreatePool(id, node, _, name, total) => s.(pools := s.pools[id := Pool(node, name, total, 0)])
    case CreateVolume(id, pool, name, size, mountPath, readOnly) =>
      var path := if mountPath == "" then "/mnt/" + name else mountPath;
      State(Used(s.pools, pool, s.pools[pool].used + size),
            s.volumes[id := Volume(pool, name, size, path, readOnly, None, Ready)])
    case Attach(id, instance, _, mountPath, readOnly) =>
      var v := s.volumes[id];
      var path := if mountPath == "" then v.mountPath else mountPath;
      s.(volumes := s.volumes[id :=
        v.(mountPath := path, readOnly := readOnly, instance := Some(instance), status := Attached)])
    case Detach(id, _) => s.(volumes := s.volumes[id := s.volumes[id].(instance := None, status := Ready)])
    case Resize(id, size) =>
      var v := s.volumes[id];
      State(Used(s.pools, v.pool, s.pools[v.pool].used + (size - v.size)), s.volumes[id := v.(size := size)])
    case Delete(id) =>
      var v := s.volumes[id];
      State(Used(s.pools, v.pool, Clamped(s.pools[v.pool].used - v.size)), s.volumes - {id})
  }

  function Run(log: seq<Event>): State {
    if log == [] then State(map[], map[]) else Next(Run(log[..|log| - 1]), log[|log| - 1])
  }

  /** IDs drawn for new pools and volumes are new, and instances have non-empty IDs. */
  predicate Proper(s: State, e: Event) {
    && (e.CreatePool? ==> e.id !in s.pools)
    && (e.CreateVolume? ==> e.id !in s.volumes)
    && (e.Attach? ==> e.instance != "")
  }

  ghost predicate AllProper(log: seq<Event>) {
    forall i | 0 <= i < |log| :: Proper(Run(log[..i]), log[i])
  }

  // ---- What every request keeps ----

  function SizesIn(volumes: map<string, Volume>, p: string): map<string, int> {
    map v | v in volumes && volumes[v].pool == p :: volumes[v].size
  }

  predicate VolumeOk(s: State, v: Volume) {
    && v.pool in s.pools && 0 < v.size
    && (v.status.Attached? <==> v.instance.Some?)
    && (v.instance.Some? ==> v.instance.value != "")
  }

  ghost predicate Accounted(s: State) {
    forall p | p in s.pools :: s.pools[p].used == Total(SizesIn(s.volumes, p))
  }

  ghost predicate VolumesOk(s: State) {
    forall v | v in s.volumes :: VolumeOk(s, s.volumes[v])
  }

  ghost predicate NamesOk(s: State) {
    && (forall p, q | p in s.pools && q in s.pools && p != q ::
          s.pools[p].node != s.pools[q].node || s.pools[p].name != s.pools[q].name)
    && (forall v, w | v in s.volumes && w in s.volumes && v != w ::
          s.volumes[v].pool != s.volumes[w].pool || s.volumes[v].name != s.volumes[w].name)
  }

  /** One volume's size set to a number changes one pool's sum, and only that. */
  lemma SizeChanges(before: map<string, Volume>, after: map<string, Volume>, id: string, p: string)
    requires id in after && after == before[id := after[id]]
    requires id in before ==> before[id].pool == after[id].pool
    ensures Total(SizesIn(after, p)) == Total(SizesIn(before, p))
            + if after[id].pool != p then 0 else if id in before then after[id].size - before[id].size
              else after[id].size
  {
    var m, n := SizesIn(before, p), SizesIn(after, p);
    if after[id].pool == p {
      assert n == m[id := after[id].size];
      TotalUpdate(m, id, after[id].size);
      if id in before {
        TotalWithout(m, id);
      } else {
        assert m - {id} == m;
      }
    } else {
      assert n == m;
    }
  }

  lemma SizeLeaves(volumes: map<string, Volume>, id: string, p: string)
    requires id in volumes
    ensures Total(SizesIn(volumes, p))
            == Total(SizesIn(volumes - {id}, p)) + if volumes[id].pool == p then volumes[id].size else 0
  {
    var m := SizesIn(volumes, p);
    assert SizesIn(volumes - {id}, p) == m - {id};
    if volumes[id].pool == p {
      TotalWithout(m, id);
    } else {
      assert m - {id} == m;
    }
  }

  /** A volume is never larger than what its pool has in use. */
  lemma VolumeWithinUsed(s: State, id: string)
    requires Accounted(s) && VolumesOk(s) && id in s.volumes
    ensures s.volumes[id].size <= s.pools[s.volumes[id].pool].used
  {
    var p := s.volumes[id].pool;
    assert VolumeOk(s, s.volumes[id]);
    var m := SizesIn(s.volumes, p);
    forall v | v in m
      ensures 0 <= m[v]
    {
      assert VolumeOk(s, s.volumes[v]);
    }
    TotalNonNegative(m);
    assert m[id] == s.volumes[id].size;
  }

  lemma StepKeepsAccounts(s: State, e: Event)
    requires Accounted(s) && VolumesOk(s) && Proper(s, e)
    ensures Accounted(Next(s, e))
  {
    var after := Next(s, e);
    if Accepted(s, e) {
      if e.Delete? {
        VolumeWithinUsed(s, e.id);
      }
      forall p | p in after.pools
        ensures after.pools[p].used == Total(SizesIn(after.volumes, p))
      {
        match e
        case CreatePool(id, _, _, _, _) =>
          if p == id {
            NoVolumes(s, p);
          }
        case Delete(id) => SizeLeaves(s.volumes, id, p);
        case _ => SizeChanges(s.volumes, after.volumes, e.id, p);
      }
    }
  }

  lemma NoVolumes(s: State, p: string)
    requires VolumesOk(s) && p !in s.pools
    ensures Total(SizesIn(s.volumes, p)) == 0
  {
    forall v | v in s.volumes
      ensures s.volumes[v].pool != p
    {
      assert VolumeOk(s, s.volumes[v]);
    }
    assert SizesIn(s.volumes, p) == map[];
  }

  lemma StepKeepsVolumes(s: State, e: Event)
    requires VolumesOk(s) && Proper(s, e)
    ensures VolumesOk(Next(s, e))
  {
    forall v | v in Next(s, e).volumes
      ensures VolumeOk(Next(s, e), Next(s, e).volumes[v])
    {
      assert v in s.volumes ==> VolumeOk(s, s.volumes[v]);
    }
  }

  lemma StepKeepsNames(s: State, e: Event)
    requires NamesOk(s) && Proper(s, e)
    ensures NamesOk(Next(s, e))
  {
  }

  /**
   In every reachable state each pool's used bytes are the sum of its volumes' sizes, a volume's status is
   attached exactly when it names an instance, and names are unique on their node and in their pool.
   */
  lemma {:induction false} UsedIsSumOfVolumes(log: seq<Event>)
    requires AllProper(log)
    ensures Accounted(Run(log)) && VolumesOk(Run(log)) && NamesOk(Run(log))
  {
    if log != [] {
      var before := log[..|log| - 1];
      assert forall i | 0 <= i < |before| :: before[..i] == log[..i];
      UsedIsSumOfVolumes(before);
      StepKeepsAccounts(Run(before), log[|log| - 1]);
      StepKeepsVolumes(Run(before), log[|log| - 1]);
      StepKeepsNames(Run(before), log[|log| - 1]);
    }
  }

  /** So the clamp at zero never acts: a deletion gives back exactly the volume's size. */
  lemma DeletionNeverClamps(log: seq<Event>, id: string)
    requires AllProper(log) && Accepted(Run(log), Delete(id))
    ensures var s := Run(log); var p := s.volumes[id].pool;
            Next(s, Delete(id)).pools[p].used == s.pools[p].used - s.volumes[id].size >= 0
  {
    UsedIsSumOfVolumes(log);
    VolumeWithinUsed(Run(log), id);
  }

  // ---- What each request brings about ----

  lemma RunOneMore(log: seq<Event>, e: Event)
    ensures Run(log + [e]) == Next(Run(log), e)
  {
    assert (log + [e])[..|log|] == log;
  }

  /** A pool is made exactly on a known node under a name new there, and starts with nothing in use. */
  lemma MakesPoolIff(log: seq<Event>, id: string, node: string, nodeExists: bool, name: string, total: int)
    ensures var s, after := Run(log), Run(log + [CreatePool(id, node, nodeExists, name, total)]);
            if && node != "" && name != "" && nodeExists
               && forall p | p in s.pools && s.pools[p].node == node :: s.pools[p].name != name
            then after == s.(pools := s.pools[id := Pool(node, name, total, 0)])
            else after == s
  {
    RunOneMore(log, CreatePool(id, node, nodeExists, name, total));
    PoolNameIsFree(Run(log).pools, node, name);
    hide Run, PoolNameTaken;
  }

  lemma PoolNameIsFree(pools: map<string, Pool>, node: string, name: string)
    ensures !PoolNameTaken(pools, node, name) <==>
            forall p | p in pools && pools[p].node == node :: pools[p].name != name
  {
  }

  lemma VolumeIsOk(log: seq<Event>, id: string)
    requires AllProper(log) && id in Run(log).volumes
    ensures var s := Run(log); var v := s.volumes[id];
            v.pool in s.pools && v.size <= s.pools[v.pool].used && (IsAttached(v) <==> v.instance.Some?)
  {
    UsedIsSumOfVolumes(log);
    VolumeWithinUsed(Run(log), id);
    assert VolumeOk(Run(log), Run(log).volumes[id]);
    hide Run;
  }

  /** A volume is made exactly in a known pool, under a name new there and with a positive size, which the pool adds. */
  lemma CreatesIff(log: seq<Event>, id: string, pool: string, name: string, size: int, path: string, readOnly: bool)
    ensures var s, after := Run(log), Run(log + [CreateVolume(id, pool, name, size, path, readOnly)]);
            var v := Volume(pool, name, size, if path == "" then "/mnt/" + name else path, readOnly, None, Ready);
            if && pool != "" && name != "" && size > 0 && pool in s.pools
               && forall v | v in s.volumes && s.volumes[v].pool == pool :: s.volumes[v].name != name
            then after == State(s.pools[pool := s.pools[pool].(used := s.pools[pool].used + size)], s.volumes[id := v])
            else after == s
  {
    RunOneMore(log, CreateVolume(id, pool, name, size, path, readOnly));
    NameIsFree(Run(log).volumes, pool, name);
    hide Run, VolumeNameTaken;
  }

  lemma NameIsFree(volumes: map<string, Volume>, pool: string, name: string)
    ensures !VolumeNameTaken(volumes, pool, name) <==>
            forall v | v in volumes && volumes[v].pool == pool :: volumes[v].name != name
  {
  }

  /** A volume is attached exactly when it is free and the instance is known and sits on the node of its pool. */
  lemma AttachesIff(log: seq<Event>, id: string, instance: string, host: Option<string>, path: string, readOnly: bool)
    requires AllProper(log) && id in Run(log).volumes
    ensures var s, after := Run(log), Run(log + [Attach(id, instance, host, path, readOnly)]);
            var v := s.volumes[id];
            && v.pool in s.pools
            && if v.instance.None? && host == Some(s.pools[v.pool].node)
               then after == s.(volumes := s.volumes[id := v.(
                                  mountPath := if path == "" then v.mountPath else path, readOnly := readOnly,
                                  instance := Some(instance), status := Attached)])
               else after == s
  {
    hide Run, AllProper, IsAttached;
    VolumeIsOk(log, id);
    RunOneMore(log, Attach(id, instance, host, path, readOnly));
  }

  /** A detachment frees an attached volume; a free one, or one whose instance is gone, is refused. */
  lemma DetachesIff(log: seq<Event>, id: string, instanceExists: bool)
    requires AllProper(log) && id in Run(log).volumes
    ensures var s, after := Run(log), Run(log + [Detach(id, instanceExists)]);
            if s.volumes[id].instance.Some? && instanceExists
            then after == s.(volumes := s.volumes[id := s.volumes[id].(instance := None, status := Ready)])
            else after == s
  {
    hide Run, AllProper, IsAttached;
    VolumeIsOk(log, id);
    RunOneMore(log, Detach(id, instanceExists));
  }

  /** A volume takes any size but a smaller one, and its pool's use moves with it. */
  lemma ResizesIff(log: seq<Event>, id: string, size: int)
    requires AllProper(log) && id in Run(log).volumes
    ensures var s, after := Run(log), Run(log + [Resize(id, size)]);
            var v := s.volumes[id];
            && v.pool in s.pools
            && var p := s.pools[v.pool];
               if size >= v.size
               then after == State(s.pools[v.pool := p.(used := p.used + (size - v.size))],
                                   s.volumes[id := v.(size := size)])
               else after == s
  {
    hide Run, AllProper, IsAttached;
    VolumeIsOk(log, id);
    RunOneMore(log, Resize(id, size));
  }

  /** A volume is deleted exactly when it is free, and then its pool's use falls by its size. */
  lemma DeletesIff(log: seq<Event>, id: string)
    requires AllProper(log) && id in Run(log).volumes
    ensures var s, after := Run(log), Run(log + [Delete(id)]);
            var v := s.volumes[id];
            && v.pool in s.pools
            && var p := s.pools[v.pool];
               if v.instance.None?
               then after == State(s.pools[v.pool := p.(used := p.used - v.size)], s.volumes - {id})
               else after == s
  {
    hide Run, AllProper, IsAttached;
    VolumeIsOk(log, id);
    RunOneMore(log, Delete(id));
  }

  lemma StepKeepsAttached(s: State, e: Event, id: string)
    requires Proper(s, e) && id in s.volumes && IsAttached(s.volumes[id])
    requires e.Detach? ==> e.id != id
    ensures id in Next(s, e).volumes
    ensures var v, w := s.volumes[id], Next(s, e).volumes[id];
            w.instance == v.instance && w.pool == v.pool && v.size <= w.size
  {
  }

  /** Until it is detached, an attached volume is not deleted, handed to another instance or made smaller. */
  lemma {:induction false} AttachedIsKept(log: seq<Event>, n: nat, id: string)
    requires AllProper(log) && n <= |log| && id in Run(log[..n]).volumes && Run(log[..n]).volumes[id].instance.Some?
    requires forall k | n <= k < |log| && log[k].Detach? :: log[k].id != id
    ensures id in Run(log).volumes
    ensures var v, w := Run(log[..n]).volumes[id], Run(log).volumes[id];
            w.instance == v.instance && w.pool == v.pool && v.size <= w.size
    decreases |log|
  {
    hide Next, Proper;
    if n == |log| {
      assert log[..n] == log;
    } else {
      var before := log[..|log| - 1];
      assert forall i | 0 <= i <= |before| :: before[..i] == log[..i];
      AttachedIsKept(before, n, id);
      UsedIsSumOfVolumes(before);
      assert VolumeOk(Run(before), Run(before).volumes[id]);
      assert Proper(Run(log[..|before|]), log[|before|]);
      StepKeepsAttached(Run(before), log[|before|], id);
    }
  }

  // ---- The pool's total ----

  ghost predicate WithinTotal(s: State) {
    forall p | p in s.pools :: s.pools[p].used <= s.pools[p].total
  }

  /** What a caller can check before a request; the service does not. */
  predicate Fits(s: State, e: Event) {
    match e
    case CreatePool(_, _, _, _, total) => 0 <= total
    case CreateVolume(_, pool, _, size, _, _) => pool in s.pools ==> s.pools[pool].used + size <= s.pools[pool].total
    case Resize(id, size) =>
      id in s.volumes && s.volumes[id].pool in s.pools ==>
        var v := s.volumes[id];
        s.pools[v.pool].used + (size - v.size) <= s.pools[v.pool].total
    case _ => true
  }

  /** An accepted request keeps every pool within its total exactly when it fits. */
  lemma StaysWithinTotalIff(s: State, e: Event)
    requires Accounted(s) && VolumesOk(s) && Proper(s, e) && Accepted(s, e) && WithinTotal(s)
    ensures WithinTotal(Next(s, e)) <==> Fits(s, e)
  {
    var after := Next(s, e);
    match e
    case CreatePool(id, _, _, _, total) => assert after.pools[id].total == total;
    case CreateVolume(_, pool, _, _, _, _) => assert after.pools[pool].total == s.pools[pool].total;
    case Resize(id, _) => assert after.pools[s.volumes[id].pool].total == s.pools[s.volumes[id].pool].total;
    case Delete(id) => VolumeWithinUsed(s, id);
    case _ =>
  }

  /** A run stays within the totals throughout exactly when each request it accepts fits at its point of the run. */
  lemma {:induction false} RunStaysWithinTotalIff(log: seq<Event>)
    requires AllProper(log)
    ensures (forall n | 0 <= n <= |log| :: WithinTotal(Run(log[..n]))) <==>
            forall n | 0 <= n < |log| && Accepted(Run(log[..n]), log[n]) :: Fits(Run(log[..n]), log[n])
  {
    if log == [] {
      assert WithinTotal(Run(log[..0]));
    } else {
      var last := |log| - 1;
      var before, s := log[..last], Run(log[..last]);
      assert forall n | 0 <= n <= last :: before[..n] == log[..n];
      assert forall n | 0 <= n < last :: before[n] == log[n];
      RunStaysWithinTotalIff(before);
      UsedIsSumOfVolumes(before);
      assert log[..|log|] == log && Run(log) == Next(s, log[last]);
      if Accepted(s, log[last]) && WithinTotal(s) {
        StaysWithinTotalIff(s, log[last]);
      }
      RangeSplits(log);
    }
  }

  /** All points of a run, and all requests of it, are the earlier ones and the last. */
  lemma RangeSplits(log: seq<Event>)
    requires log != []
    ensures (forall n | 0 <= n <= |log| :: WithinTotal(Run(log[..n]))) <==>
            (forall n | 0 <= n <= |log| - 1 :: WithinTotal(Run(log[..n]))) && WithinTotal(Run(log[..|log|]))
    ensures (forall n | 0 <= n < |log| && Accepted(Run(log[..n]), log[n]) :: Fits(Run(log[..n]), log[n])) <==>
            && (forall n | 0 <= n < |log| - 1 && Accepted(Run(log[..n]), log[n]) :: Fits(Run(log[..n]), log[n]))
            && (Accepted(Run(log[..|log| - 1]), log[|log| - 1]) ==> Fits(Run(log[..|log| - 1]), log[|log| - 1]))
  {
    hide *;
  }

  /** A pool with room for one volume, which is then resized; the service accepts all three requests. */
  function ResizeLog(total: int, size: int, resized: int): seq<Event> {
    [CreatePool("p", "n", true, "ssd", total), CreateVolume("v", "p", "data", size, "", false), Resize("v", resized)]
  }

  lemma ResizeLogRuns(total: int, size: int, resized: int)
    requires 0 < size <= resized
    ensures AllProper(ResizeLog(total, size, resized))
    ensures var log := ResizeLog(total, size, resized);
            && Run(log[..2]).pools == map["p" := Pool("n", "ssd", total, size)]
            && Run(log).pools == map["p" := Pool("n", "ssd", total, resized)]
  {
    var log := ResizeLog(total, size, resized);
    assert log[..0] == [] && log[..1] == [log[0]] && log[..2] == [log[0], log[1]];
    assert log[..2][..1] == log[..1] && log[..1][..0] == [];
    var s0 := State(map[], map[]);
    assert Run(log[..0]) == s0;
    var s1 := Next(s0, log[0]);
    assert s1.pools == map["p" := Pool("n", "ssd", total, 0)] && s1.volumes == map[];
    assert Run(log[..1]) == s1;
    var s2 := Next(s1, log[1]);
    assert s2.pools == map["p" := Pool("n", "ssd", total, size)] && "v" in s2.volumes;
    assert Run(log[..2]) == s2;
    assert Run(log) == Next(s2, log[2]);
  }

  /** Capacity is not checked: whatever a pool's total, creating and resizing both take its use beyond it. */
  lemma CapacityIsNotChecked(total: int, size: int)
    requires total < size && 0 < size
    ensures var log := ResizeLog(total, size, size)[..2];
            AllProper(log) && Run(log).pools == map["p" := Pool("n", "ssd", total, size)] && !WithinTotal(Run(log))
    ensures 0 < total ==>
              var log := ResizeLog(total, total, size);
              AllProper(log) && WithinTotal(Run(log[..2])) && !WithinTotal(Run(log))
              && Run(log).pools == map["p" := Pool("n", "ssd", total, size)]
  {
    ResizeLogRuns(total, size, size);
    var log := ResizeLog(total, size, size);
    assert forall i | 0 <= i < 2 :: log[..2][..i] == log[..i];
    assert "p" in Run(log[..2]).pools;
    if 0 < total {
      ResizeLogRuns(total, total, size);
    }
  }

  // ---- The service ----

  class Service {
    var pools: map<string, Pool>
    var volumes: map<string, Volume>

    constructor ()
      ensures Contents() == State(map[], map[])
    {
      pools, volumes := map[], map[];
    }

    ghost function Contents(): State
      reads this
    {
      State(pools, volumes)
    }

    method CreateStoragePool(id: string, node: string, nodeExists: bool, name: string, total: int) returns (ok: bool)
      modifies this
      ensures var e := CreatePool(id, node, nodeExists, name, total);
              ok == Accepted(old(Contents()), e) && Contents() == Next(old(Contents()), e)
    {
      if node == "" || name == "" || !nodeExists {
        return false;
      }
      var rest := pools.Keys;
      while rest != {}
        invariant rest <= pools.Keys && Contents() == old(Contents())
        invariant forall p | p in pools && p !in rest :: pools[p].node != node || pools[p].name != name
        decreases |rest|
      {
        var p :| p in rest;
        rest := rest - {p};
        if pools[p].node == node && pools[p].name == name {
          return false;
        }
      }
      pools := pools[id := Pool(node, name, total, 0)];
      ok := true;
    }

    method CreateVolume(id: string, pool: string, name: string, size: int, mountPath: string, readOnly: bool)
      returns (ok: bool)
      modifies this
      ensures var e := Event.CreateVolume(id, pool, name, size, mountPath, readOnly);
              ok == Accepted(old(Contents()), e) && Contents() == Next(old(Contents()), e)
    {
      if pool == "" || name == "" || size <= 0 || pool !in pools {
        return false;
      }
      var path := mountPath;
      if path == "" {
        path := "/mnt/" + name;
      }
      var rest := volumes.Keys;
      while rest != {}
        invariant rest <= volumes.Keys && Contents() == old(Contents())
        invariant forall v | v in volumes && v !in rest :: volumes[v].pool != pool || volumes[v].name != name
        decreases |rest|
      {
        var v :| v in rest;
        rest := rest - {v};
        if volumes[v].pool == pool && volumes[v].name == name {
          return false;
        }
      }
      volumes := volumes[id := Volume(pool, name, size, path, readOnly, None, Ready)];
      pools := pools[pool := pools[pool].(used := pools[pool].used + size)];
      ok := true;
    }

    method AttachVolume(id: string, instance: string, host: Option<string>, mountPath: string, readOnly: bool)
      returns (ok: bool)
      modifies this
      ensures var e := Attach(id, instance, host, mountPath, readOnly);
              ok == Accepted(old(Contents()), e) && Contents() == Next(old(Contents()), e)
    {
      if id !in volumes || IsAttached(volumes[id]) || host.None? {
        return false;
      }
      var v := volumes[id];
      if v.pool !in pools || pools[v.pool].node != host.value {
        return false;
      }
      if mountPath != "" {
        v := v.(mountPath := mountPath);
      }
      volumes := volumes[id := v.(readOnly := readOnly, instance := Some(instance), status := Attached)];
      ok := true;
    }

    method DetachVolume(id: string, instanceExists: bool) returns (ok: bool)
      modifies this
      ensures var e := Detach(id, instanceExists);
              ok == Accepted(old(Contents()), e) && Contents() == Next(old(Contents()), e)
    {
      if id !in volumes || !IsAttached(volumes[id]) || !instanceExists {
        return false;
      }
      volumes := volumes[id := volumes[id].(instance := None, status := Ready)];
      ok := true;
    }

    method ResizeVolume(id: string, size: int) returns (ok: bool)
      modifies this
      ensures var e := Resize(id, size);
              ok == Accepted(old(Contents()), e) && Contents() == Next(old(Contents()), e)
    {
      if id !in volumes {
        return false;
      }
      var v := volumes[id];
      if size < v.size || v.pool !in pools {
        return false;
      }
      var delta := size - v.size;
      volumes := volumes[id := v.(size := size)];
      pools := pools[v.pool := pools[v.pool].(used := pools[v.pool].used + delta)];
      ok := true;
    }

    method DeleteVolume(id: string) returns (ok: bool)
      modifies this
      ensures var e := Delete(id);
              ok == Accepted(old(Contents()), e) && Contents() == Next(old(Contents()), e)
    {
      if id !in volumes || IsAttached(volumes[id]) || volumes[id].pool !in pools {
        return false;
      }
      var v := volumes[id];
      volumes := volumes - {id};
      var used := pools[v.pool].used - v.size;
      if used < 0 {
        used := 0;
      }
      pools := pools[v.pool := pools[v.pool].(used := used)];
      ok := true;
    }
  }
}
