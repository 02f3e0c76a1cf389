/**
 The allocation store under concurrent callers. A caller first lists its pool and searches for a free
 address, and later creates the allocation; any other steps may come between the two.
 */
module Allocations {
  import opened Wrappers
  import opened Ipam
  import Sums
  import opened Text

  datatype Allocation = Allocation(pool: string, ip: string, reserved: bool, released: bool)

  /** What a caller carries from its search to its create. */
  datatype Pending = Pending(pool: string, ip: string)

  datatype State = State(
    pools: map<string, Pool>,
    allocations: map<string, Allocation>,
    callers: map<string, Pending>)

  datatype Step =
    | Search(caller: string, pool: string)
    | Create(caller: string, id: string, reserved: bool)
    | Release(id: string)

  predicate ActiveIn(a: Allocation, pool: string) {
    a.pool == pool && !a.released
  }

  function ActiveIds(allocations: map<string, Allocation>, pool: string): set<string> {
    set id | id in allocations && ActiveIn(allocations[id], pool)
  }

  function Taken(allocations: map<string, Allocation>, pool: string): set<string> {
    set id | id in allocations && ActiveIn(allocations[id], pool) :: allocations[id].ip
  }

  predicate Held(allocations: map<string, Allocation>, ip: string) {
    exists id | id in allocations :: allocations[id].ip == ip && !allocations[id].released
  }

  /** The address a search of the pool comes to, if any. */
  function Found(s: State, pool: string): Option<string>
    requires pool in s.pools && Network(s.pools[pool])
  {
    LeastFreeName(s.pools[pool], Taken(s.allocations, pool) + {s.pools[pool].gateway})
  }

  /** A refused create, like a finished one, ends the caller's attempt. */
  function Next(s: State, e: Step): State {
    match e
    case Search(caller, pool) =>
      if pool in s.pools && Network(s.pools[pool]) && Found(s, pool).Some?
      then s.(callers := s.callers[caller := Pending(pool, Found(s, pool).value)]) else s
    case Create(caller, id, reserved) =>
      if caller !in s.callers || id in s.allocations then s else
      var want := s.callers[caller];
      s.(callers := s.callers - {caller},
         allocations := if Held(s.allocations, want.ip) then s.allocations
                        else s.allocations[id := Allocation(want.pool, want.ip, reserved, false)])
    case Release(id) =>
      if id !in s.allocations then s
      else s.(allocations := s.allocations[id := s.allocations[id].(released := true)])
  }

  function Run(s: State, steps: seq<Step>): State {
    if steps == [] then s else Next(Run(s, steps[..|steps| - 1]), steps[|steps| - 1])
  }

  /** The texts of the addresses from lo up to hi. */
  function Names(lo: int, hi: int): set<string>
    requires 0 <= lo && hi <= TWO_32
    decreases hi - lo
  {
    if hi <= lo then {} else Names(lo, hi - 1) + {Dotted(hi - 1)}
  }

  lemma {:induction false} NamesInclude(lo: int, hi: int, a: int)
    requires 0 <= lo <= a < hi <= TWO_32
    ensures Dotted(a) in Names(lo, hi)
    decreases hi - lo
  {
    if a < hi - 1 {
      NamesInclude(lo, hi - 1, a);
    }
  }

  lemma {:induction false} NamesName(lo: int, hi: int, name: string) returns (a: int)
    requires 0 <= lo && hi <= TWO_32 && name in Names(lo, hi)
    ensures lo <= a < hi && name == Dotted(a)
    decreases hi - lo
  {
    hide Dotted;
    a := hi - 1;
    if name != Dotted(a) {
      a := NamesName(lo, hi - 1, name);
    }
  }

  lemma {:induction false} NamesCount(lo: int, hi: int)
    requires 0 <= lo <= hi <= TWO_32
    ensures |Names(lo, hi)| == hi - lo
    decreases hi - lo
  {
    hide Dotted;
    if lo < hi {
      NamesCount(lo, hi - 1);
      if Dotted(hi - 1) in Names(lo, hi - 1) {
        var a := NamesName(lo, hi - 1, Dotted(hi - 1));
        DottedInjective(a, hi - 1);
      }
    }
  }

  /** The texts of the host addresses of a network. */
  function HostNames(p: Pool): set<string>
    requires Network(p)
  {
    NetworkFits(p);
    Names(p.base + 1, p.base + Size(p) - 1)
  }

  predicate Located(pools: map<string, Pool>, pool: string, ip: string) {
    && pool in pools && Network(pools[pool])
    && ip in HostNames(pools[pool])
    && ip != pools[pool].gateway
  }

  ghost predicate Unique(allocations: map<string, Allocation>) {
    forall i, j | i in allocations && j in allocations && i != j && !allocations[i].released
      && !allocations[j].released ::
      allocations[i].ip != allocations[j].ip
  }

  ghost predicate Inv(s: State) {
    && Unique(s.allocations)
    && (forall i | i in s.allocations :: Located(s.pools, s.allocations[i].pool, s.allocations[i].ip))
    && (forall c | c in s.callers :: Located(s.pools, s.callers[c].pool, s.callers[c].ip))
  }

  lemma SearchFindsLocated(s: State, pool: string)
    requires pool in s.pools && Network(s.pools[pool]) && Found(s, pool).Some?
    ensures Located(s.pools, pool, Found(s, pool).value)
    ensures Found(s, pool).value !in Taken(s.allocations, pool)
  {
    hide Dotted, Pow2;
    var p := s.pools[pool];
    var taken := Taken(s.allocations, pool) + {p.gateway};
    LeastFreeIsLeast(p, taken);
    NamesInclude(p.base + 1, p.base + Size(p) - 1, LeastFree(p, taken).value);
  }

  lemma StepKeeps(s: State, e: Step)
    requires Inv(s)
    ensures Inv(Next(s, e))
  {
    hide HostNames, Network, LeastFreeName;
    if e.Search? && e.pool in s.pools && Network(s.pools[e.pool]) && Found(s, e.pool).Some? {
      SearchFindsLocated(s, e.pool);
    }
  }

  lemma StepKeepsPools(s: State, e: Step)
    ensures Next(s, e).pools == s.pools
  {
  }

  lemma NothingHeld(s: State)
    requires s.allocations == map[] && s.callers == map[]
    ensures Inv(s)
  {
  }

  /**
   However callers interleave, and wherever releases fall, no two active allocations share an address, even
   of overlapping pools, and each lies strictly inside its network and is not the text of its gateway.
   */
  lemma {:induction false} NoAddressTwice(s: State, steps: seq<Step>)
    requires s.allocations == map[] && s.callers == map[]
    ensures Unique(Run(s, steps).allocations)
    ensures Run(s, steps).pools == s.pools
    ensures var t := Run(s, steps);
            forall i | i in t.allocations :: Located(s.pools, t.allocations[i].pool, t.allocations[i].ip)
    ensures Inv(Run(s, steps))
  {
    hide Next, Unique, Located;
    if steps != [] {
      NoAddressTwice(s, steps[..|steps| - 1]);
      StepKeepsPools(Run(s, steps[..|steps| - 1]), steps[|steps| - 1]);
      StepKeeps(Run(s, steps[..|steps| - 1]), steps[|steps| - 1]);
    } else {
      NothingHeld(s);
    }
  }

  /** Told by what the texts read as: addresses strictly inside their networks, and different ones while active. */
  lemma AllocatedAddresses(s: State, steps: seq<Step>, i: string, j: string)
    requires s.allocations == map[] && s.callers == map[]
    requires i in Run(s, steps).allocations && j in Run(s, steps).allocations
    ensures var t := Run(s, steps);
            var a, b := t.allocations[i], t.allocations[j];
            && a.pool in s.pools && Network(s.pools[a.pool])
            && IsHostText(s.pools[a.pool], a.ip) && a.ip != s.pools[a.pool].gateway
            && ReadAddress(b.ip).Some?
            && (i != j && !a.released && !b.released ==> ReadAddress(a.ip).value != ReadAddress(b.ip).value)
  {
    NoAddressTwice(s, steps);
    var t := Run(s, steps);
    var a, b := t.allocations[i], t.allocations[j];
    assert Located(s.pools, a.pool, a.ip) && Located(s.pools, b.pool, b.ip);
    LocatedReads(s.pools, a.pool, a.ip);
    LocatedReads(s.pools, b.pool, b.ip);
    if ReadAddress(a.ip) == ReadAddress(b.ip) {
      ReadIsDotted(a.ip);
      ReadIsDotted(b.ip);
    }
    hide Run, Located, ReadAddress, Dotted;
  }

  lemma LocatedReads(pools: map<string, Pool>, pool: string, ip: string)
    requires Located(pools, pool, ip)
    ensures pools[pool].mask <= 32 && IsHostText(pools[pool], ip)
  {
    var p := pools[pool];
    NetworkFits(p);
    var a := NamesName(p.base + 1, p.base + Size(p) - 1, ip);
    hide Dotted, Names, Pow2;
    ReadDotted(a);
  }

  /** A host address that a search of the pool may offer: not its gateway, and in no active allocation of the pool. */
  ghost predicate Free(s: State, pool: string, ip: string) {
    && pool in s.pools && s.pools[pool].mask <= 32
    && IsHostText(s.pools[pool], ip) && ip != s.pools[pool].gateway
    && forall id | id in s.allocations && s.allocations[id].pool == pool && s.allocations[id].ip == ip ::
         s.allocations[id].released
  }

  lemma FoundIsLowestFree(s: State, pool: string)
    requires pool in s.pools && Network(s.pools[pool])
    ensures Found(s, pool).Some? ==> Free(s, pool, Found(s, pool).value)
    ensures forall ip | Free(s, pool, ip) ::
              Found(s, pool).Some? && ReadAddress(Found(s, pool).value).value <= ReadAddress(ip).value
  {
    var p := s.pools[pool];
    var taken := Taken(s.allocations, pool) + {p.gateway};
    LeastFreeNameIsLeast(p, taken);
    forall ip | IsHostText(p, ip)
      ensures Free(s, pool, ip) <==> ip !in taken
    {
      assert ip in Taken(s.allocations, pool) <==>
             exists id :: id in s.allocations && ActiveIn(s.allocations[id], pool) && s.allocations[id].ip == ip;
    }
    FreeIsHost(s, pool);
    hide LeastFreeName, IsHostText, Free, Taken;
  }

  /** A search offers the lowest free address of its pool, and nothing exactly when none is free. */
  lemma SearchOffersLowest(s: State, caller: string, pool: string)
    requires pool in s.pools && Network(s.pools[pool])
    ensures var after := Next(s, Search(caller, pool));
            && (forall ip | Free(s, pool, ip) ::
                  && caller in after.callers && after.callers[caller].pool == pool
                  && Free(s, pool, after.callers[caller].ip)
                  && ReadAddress(after.callers[caller].ip).value <= ReadAddress(ip).value
                  && after == s.(callers := s.callers[caller := after.callers[caller]]))
            && ((forall ip :: !Free(s, pool, ip)) ==> after == s)
  {
    FoundIsLowestFree(s, pool);
    hide Found, Free, ReadAddress;
  }

  lemma FreeIsHost(s: State, pool: string)
    requires pool in s.pools && s.pools[pool].mask <= 32
    ensures forall ip | Free(s, pool, ip) :: IsHostText(s.pools[pool], ip)
  {
  }

  /** A create stores its caller's address unless that is active in any pool; a release ends one allocation. */
  lemma CreateAndRelease(s: State, caller: string, id: string, reserved: bool)
    ensures caller in s.callers && id !in s.allocations ==>
              var after, want := Next(s, Create(caller, id, reserved)), s.callers[caller];
              && after.pools == s.pools && after.callers == s.callers - {caller}
              && after.allocations ==
                 if exists i :: i in s.allocations && s.allocations[i].ip == want.ip && !s.allocations[i].released
                 then s.allocations else s.allocations[id := Allocation(want.pool, want.ip, reserved, false)]
    ensures Next(s, Release(id)) ==
            if id in s.allocations then s.(allocations := s.allocations[id := s.allocations[id].(released := true)])
            else s
  {
  }

  // ---- Utilization and exhaustion ----

  /** The number of addresses the utilization report counts a network to have. */
  function TotalHostIPs(p: Pool): int
    requires p.mask <= 32
  {
    if p.mask >= 31 then 2 else Size(p) - 2
  }

  /** A /31 or /32 is reported to have two addresses, and has none that a search could offer. */
  lemma SmallNetworksHaveNone(p: Pool)
    requires Network(p) && 31 <= p.mask
    ensures TotalHostIPs(p) == 2 && forall ip :: !IsHostText(p, ip)
  {
    assert Pow2(0) == 1 && Pow2(1) == 2;
  }

  lemma HostCount(p: Pool)
    requires Network(p) && p.mask <= 30
    ensures |HostNames(p)| == TotalHostIPs(p)
  {
    NetworkFits(p);
    assert Pow2(2) == 4;
    Pow2Splits(2, 30 - p.mask);
    assert Size(p) == 4 * Pow2(30 - p.mask);
    hide Names, Pow2;
    NamesCount(p.base + 1, p.base + Size(p) - 1);
  }

  lemma TakenCount(allocations: map<string, Allocation>, pool: string)
    requires Unique(allocations)
    ensures |Taken(allocations, pool)| == |ActiveIds(allocations, pool)|
  {
    var names := map id | id in ActiveIds(allocations, pool) :: allocations[id].ip;
    Sums.InjectiveSize(names);
    assert names.Keys == ActiveIds(allocations, pool);
    forall ip
      ensures ip in names.Values <==> ip in Taken(allocations, pool)
    {
      if ip in Taken(allocations, pool) {
        var id :| id in allocations && ActiveIn(allocations[id], pool) && allocations[id].ip == ip;
        assert id in names;
      }
    }
    assert names.Values == Taken(allocations, pool);
  }

  lemma TakenLocated(s: State, pool: string)
    requires Inv(s) && pool in s.pools && Network(s.pools[pool])
    ensures Taken(s.allocations, pool) <= HostNames(s.pools[pool]) - {s.pools[pool].gateway}
  {
    hide HostNames, Network;
    forall ip | ip in Taken(s.allocations, pool)
      ensures Located(s.pools, pool, ip)
    {
      var id :| id in s.allocations && ActiveIn(s.allocations[id], pool) && s.allocations[id].ip == ip;
    }
  }

  lemma HostsTaken(p: Pool, taken: set<string>)
    requires Network(p)
    ensures LeastFreeName(p, taken).None? <==> HostNames(p) <= taken
  {
    hide Dotted, Pow2, Names;
    NetworkFits(p);
    LeastFreeIsLeast(p, taken);
    var lo, hi := p.base + 1, p.base + Size(p) - 1;
    if LeastFree(p, taken).Some? {
      NamesInclude(lo, hi, LeastFree(p, taken).value);
    } else {
      forall name | name in Names(lo, hi)
        ensures name in taken
      {
        var a := NamesName(lo, hi, name);
      }
    }
  }

  /**
   A search reports exhaustion exactly when the active allocations of the pool number the reported total, less
   one if the gateway is one of its host addresses.
   */
  lemma ExhaustedIffFull(s: State, pool: string)
    requires Inv(s) && pool in s.pools && Network(s.pools[pool]) && s.pools[pool].mask <= 30
    ensures var p := s.pools[pool];
            Found(s, pool).None? <==>
            |ActiveIds(s.allocations, pool)| == TotalHostIPs(p) - if p.gateway in HostNames(p) then 1 else 0
  {
    var p := s.pools[pool];
    var hosts, taken := HostNames(p), Taken(s.allocations, pool);
    assert Found(s, pool) == LeastFreeName(p, taken + {p.gateway});
    assert taken <= hosts - {p.gateway} by {
      TakenLocated(s, pool);
    }
    hide HostNames, LeastFreeName, Network, TotalHostIPs;
    HostCount(p);
    TakenCount(s.allocations, pool);
    HostsTaken(p, taken + {p.gateway});
    hide Taken, ActiveIds, Unique, Inv, Found;
    Sums.SubsetBySize(taken, hosts - {p.gateway});
  }

  /**
   Where no other pool overlaps this one, an allocation made without interruption fails only for want of room;
   where pools overlap it also fails when the address found is held through another pool.
   */
  lemma FoundIsFreeUnlessShared(s: State, pool: string)
    requires Inv(s) && pool in s.pools && Network(s.pools[pool]) && Found(s, pool).Some?
    ensures (forall q | q in s.pools && q != pool && Network(s.pools[q]) ::
            HostNames(s.pools[q]) !! HostNames(s.pools[pool]))
            ==> !Held(s.allocations, Found(s, pool).value)
    ensures Held(s.allocations, Found(s, pool).value) <==>
            exists id | id in s.allocations :: && s.allocations[id].ip == Found(s, pool).value
                                               && !s.allocations[id].released && s.allocations[id].pool != pool
  {
    SearchFindsLocated(s, pool);
    var ip := Found(s, pool).value;
    forall id | id in s.allocations && s.allocations[id].ip == ip && !s.allocations[id].released
      ensures s.allocations[id].pool != pool && Located(s.pools, s.allocations[id].pool, ip)
    {
      assert s.allocations[id].pool == pool ==> ip in Taken(s.allocations, pool);
    }
  }

  // ---- When a gateway is offered ----

  /** From an empty store, one caller has been given every address of a pool below a, the gateway's text left out. */
  ghost predicate FilledBelow(s: State, t: State, pool: string, a: int)
    requires pool in s.pools && Network(s.pools[pool]) && s.pools[pool].base < a <= TWO_32
  {
    && t.pools == s.pools && t.callers == map[]
    && Taken(t.allocations, pool) == Names(s.pools[pool].base + 1, a) - {s.pools[pool].gateway}
    && forall id | id in t.allocations :: t.allocations[id] == Allocation(pool, id, false, false)
  }

  lemma NotNamedBelow(lo: int, a: int)
    requires 0 <= lo <= a < TWO_32
    ensures Dotted(a) !in Names(lo, a)
  {
    hide Dotted;
    if Dotted(a) in Names(lo, a) {
      var b := NamesName(lo, a, Dotted(a));
      DottedInjective(a, b);
    }
  }

  /** With everything below it taken and itself free, an address is the one that the search finds. */
  lemma LeastIs(p: Pool, taken: set<string>, a: int)
    requires Network(p) && IsHost(p, a) && 0 <= a < TWO_32 && Dotted(a) !in taken
    requires Names(p.base + 1, a) <= taken
    ensures LeastFreeName(p, taken) == Some(Dotted(a))
  {
    LeastFreeIsLeast(p, taken);
    hide Dotted, Pow2;
    forall b | p.base < b < a
      ensures Dotted(b) in taken
    {
      NamesInclude(p.base + 1, a, b);
    }
    assert LeastFree(p, taken) == Some(a);
  }

  lemma FoundNext(s: State, t: State, pool: string, a: int)
    requires pool in s.pools && Network(s.pools[pool]) && IsHost(s.pools[pool], a) && a < TWO_32
    requires FilledBelow(s, t, pool, a)
    requires Dotted(a) != s.pools[pool].gateway
    ensures Found(t, pool) == Some(Dotted(a))
    ensures !Held(t.allocations, Dotted(a)) && Dotted(a) !in t.allocations
  {
    var p := s.pools[pool];
    NotNamedBelow(p.base + 1, a);
    LeastIs(p, Taken(t.allocations, pool) + {p.gateway}, a);
    hide Dotted, Pow2, Names, LeastFreeName;
    forall id | id in t.allocations
      ensures t.allocations[id].ip in Taken(t.allocations, pool)
    {
      assert ActiveIn(t.allocations[id], pool);
    }
  }

  lemma TakeNext(s: State, t: State, pool: string, a: int)
    requires pool in s.pools && Network(s.pools[pool]) && IsHost(s.pools[pool], a) && a < TWO_32
    requires FilledBelow(s, t, pool, a)
    requires Dotted(a) != s.pools[pool].gateway
    ensures FilledBelow(s, Next(Next(t, Search("c", pool)), Create("c", Dotted(a), false)), pool, a + 1)
  {
    FoundNext(s, t, pool, a);
    hide Dotted, Pow2, LeastFreeName;
    var ip := Dotted(a);
    var u := Next(t, Search("c", pool));
    assert u == t.(callers := map["c" := Pending(pool, ip)]);
    var v := Next(u, Create("c", ip, false));
    assert v.allocations == t.allocations[ip := Allocation(pool, ip, false, false)];
    TakenGrows(t.allocations, pool, ip, ip);
    assert v.callers == map[];
  }

  lemma TakenGrows(allocations: map<string, Allocation>, pool: string, id: string, ip: string)
    requires id !in allocations
    ensures var after := allocations[id := Allocation(pool, ip, false, false)];
            && Taken(after, pool) == Taken(allocations, pool) + {ip}
            && forall q | q != pool :: Taken(after, q) == Taken(allocations, q)
  {
    var after := allocations[id := Allocation(pool, ip, false, false)];
    forall q, j | j in allocations && ActiveIn(allocations[j], q)
      ensures allocations[j].ip in Taken(after, q)
    {
      assert after[j] == allocations[j];
    }
    assert after[id].ip in Taken(after, pool);
  }

  /** One caller allocating again and again comes to any host address. */
  lemma {:induction false} FillBelow(s: State, pool: string, a: int) returns (steps: seq<Step>)
    requires pool in s.pools && Network(s.pools[pool]) && IsHost(s.pools[pool], a) && a < TWO_32
    requires s.allocations == map[] && s.callers == map[]
    ensures FilledBelow(s, Run(s, steps), pool, a)
    decreases a - s.pools[pool].base
  {
    hide Dotted, Pow2, Next, Found;
    if a == s.pools[pool].base + 1 {
      steps := [];
    } else {
      var earlier := FillBelow(s, pool, a - 1);
      var t := Run(s, earlier);
      if Dotted(a - 1) == s.pools[pool].gateway {
        steps := earlier;
        assert Names(s.pools[pool].base + 1, a) == Names(s.pools[pool].base + 1, a - 1) + {Dotted(a - 1)};
      } else {
        TakeNext(s, t, pool, a - 1);
        var search, create := Search("c", pool), Create("c", Dotted(a - 1), false);
        steps := earlier + [search] + [create];
        assert steps[..|steps| - 1] == earlier + [search];
        assert (earlier + [search])[..|earlier|] == earlier;
      }
    }
  }

  lemma {:induction false} PoolsStay(s: State, steps: seq<Step>)
    ensures Run(s, steps).pools == s.pools
  {
    if steps != [] {
      PoolsStay(s, steps[..|steps| - 1]);
      StepKeepsPools(Run(s, steps[..|steps| - 1]), steps[|steps| - 1]);
    }
  }

  /**
   A host address of a pool can be offered, in some run from an empty store, exactly when its text is not the
   gateway's.
   */
  lemma OfferedIff(s: State, pool: string, g: int)
    requires pool in s.pools && Network(s.pools[pool]) && IsHost(s.pools[pool], g) && g < TWO_32
    requires s.allocations == map[] && s.callers == map[]
    ensures (exists steps :: Run(s, steps).pools == s.pools && Found(Run(s, steps), pool) == Some(Dotted(g)))
            <==> s.pools[pool].gateway != Dotted(g)
  {
    hide Dotted, Pow2, Found, FilledBelow;
    if s.pools[pool].gateway != Dotted(g) {
      var steps := FillBelow(s, pool, g);
      PoolsStay(s, steps);
      FoundNext(s, Run(s, steps), pool, g);
    }
    forall steps | Run(s, steps).pools == s.pools && Found(Run(s, steps), pool).Some?
      ensures Found(Run(s, steps), pool).value != s.pools[pool].gateway
    {
      SearchFindsLocated(Run(s, steps), pool);
    }
  }

  /** Two of the texts that are parsed as an address: dotted quad, and the same as an IPv4-mapped IPv6 address. */
  predicate Spells(text: string, a: int)
    requires 0 <= a < TWO_32
  {
    text == Dotted(a) || text == Mapped(a)
  }

  function Mapped(a: int): string
    requires 0 <= a < TWO_32
  {
    "::ffff:" + Dotted(a)
  }

  /** A pool's own gateway can be given to an instance exactly when the pool spells it in the mapped form. */
  lemma GatewayOfferedIffMapped(s: State, pool: string, g: int)
    requires pool in s.pools && Network(s.pools[pool]) && IsHost(s.pools[pool], g) && 0 <= g < TWO_32
    requires Spells(s.pools[pool].gateway, g)
    requires s.allocations == map[] && s.callers == map[]
    ensures (exists steps :: Run(s, steps).pools == s.pools && Found(Run(s, steps), pool) == Some(Dotted(g)))
            <==> s.pools[pool].gateway == Mapped(g)
  {
    OfferedIff(s, pool, g);
    assert |Mapped(g)| == 7 + |Dotted(g)|;
  }

  function Network10(mask: nat, gateway: string): Pool {
    Pool(0x0A00_0000, mask, gateway)
  }

  lemma Network10Is()
    ensures forall gateway: string :: Network(Network10(30, gateway)) && Size(Network10(30, gateway)) == 4
    ensures forall gateway: string :: Network(Network10(29, gateway)) && Size(Network10(29, gateway)) == 8
  {
    assert Pow2(2) == 4 && Pow2(3) == 8;
  }

  lemma FirstOf10()
    ensures Dotted(0x0A00_0001) == "10.0.0.1"
  {
    assert Digits(0) == "0" && Digits(1) == "1";
    assert Digits(10) == Digits(1) + Digits(0) == "10";
    assert 0x0A00_0001 / 0x100_0000 == 10 && 0x0A00_0001 / 0x1_0000 % 0x100 == 0;
    assert 0x0A00_0001 / 0x100 % 0x100 == 0 && 0x0A00_0001 % 0x100 == 1;
    hide Digits;
  }

  /** In 10.0.0.0/30 with the gateway written ::ffff:10.0.0.1, the first search of an empty store comes to 10.0.0.1. */
  lemma MappedGatewayFound(s: State)
    requires s.pools == map["p" := Network10(30, "::ffff:10.0.0.1")] && s.allocations == map[]
    ensures Network(s.pools["p"]) && Spells(s.pools["p"].gateway, 0x0A00_0001)
    ensures Found(s, "p") == Some("10.0.0.1")
  {
    Network10Is();
    FirstOf10();
    var p := s.pools["p"];
    assert Mapped(0x0A00_0001) == "::ffff:10.0.0.1";
    assert Taken(s.allocations, "p") + {p.gateway} == {p.gateway};
    assert |p.gateway| == 15 && |Dotted(0x0A00_0001)| == 8;
    hide Dotted, Pow2, Size;
    LeastFreeIsLeast(p, {p.gateway});
    assert IsHost(p, 0x0A00_0001);
    assert LeastFree(p, {p.gateway}) == Some(0x0A00_0001);
  }

  // ---- When overlap blocks a pool ----

  /** The pool's next address is held through another pool. */
  ghost predicate Stuck(s: State, pool: string, ip: string) {
    pool in s.pools && Network(s.pools[pool]) && Found(s, pool) == Some(ip) && Held(s.allocations, ip)
  }

  /** No caller under way carries another address of the pool. */
  predicate NoneOther(s: State, pool: string, ip: string) {
    forall c | c in s.callers && s.callers[c].pool == pool :: s.callers[c].ip == ip
  }

  /** A release that may unblock the pool: of one of its own addresses, or of the address it is waiting for. */
  predicate Frees(s: State, e: Step, pool: string, ip: string) {
    e.Release? && e.id in s.allocations && !s.allocations[e.id].released
    && (s.allocations[e.id].pool == pool || s.allocations[e.id].ip == ip)
  }

  lemma LeastStays(p: Pool, taken: set<string>, more: set<string>, ip: string)
    requires Network(p) && taken <= more && ip !in more && LeastFreeName(p, taken) == Some(ip)
    ensures LeastFreeName(p, more) == Some(ip)
  {
    LeastFreeIsLeast(p, taken);
    LeastFreeIsLeast(p, more);
    hide Dotted, Pow2;
    assert LeastFree(p, more) == LeastFree(p, taken);
  }

  /** What a step adds to a pool: nothing, or one address that nobody held; and the holders of ip stay. */
  lemma StepKeepsHolders(s: State, e: Step, pool: string, ip: string)
    requires Held(s.allocations, ip) && !Frees(s, e, pool, ip)
    ensures Held(Next(s, e).allocations, ip)
    ensures Taken(s.allocations, pool) <= Taken(Next(s, e).allocations, pool)
    ensures ip in Taken(Next(s, e).allocations, pool) ==> ip in Taken(s.allocations, pool)
    ensures NoneOther(s, pool, ip) ==> ActiveIds(Next(s, e).allocations, pool) == ActiveIds(s.allocations, pool)
  {
    hide LeastFreeName, Network;
    var after := Next(s, e).allocations;
    forall id | id in s.allocations && !s.allocations[id].released
      ensures id in after
      ensures s.allocations[id].pool == pool || s.allocations[id].ip == ip ==> after[id] == s.allocations[id]
    {
    }
    forall name | name in Taken(s.allocations, pool)
      ensures name in Taken(after, pool)
    {
      var id :| id in s.allocations && ActiveIn(s.allocations[id], pool) && s.allocations[id].ip == name;
      assert ActiveIn(after[id], pool);
    }
  }

  lemma StepStaysStuck(s: State, e: Step, pool: string, ip: string)
    requires Stuck(s, pool, ip) && !Frees(s, e, pool, ip)
    ensures Stuck(Next(s, e), pool, ip)
    ensures NoneOther(s, pool, ip) ==> NoneOther(Next(s, e), pool, ip)
  {
    var gateway := s.pools[pool].gateway;
    var taken, more := Taken(s.allocations, pool) + {gateway}, Taken(Next(s, e).allocations, pool) + {gateway};
    SearchFindsLocated(s, pool);
    StepKeepsPools(s, e);
    StepKeepsHolders(s, e, pool, ip);
    hide LeastFreeName, Network, Taken;
    LeastStays(s.pools[pool], taken, more, ip);
  }

  /**
   A pool whose next address is held through another pool is blocked. Whatever any callers of any pools do, it
   goes on finding that address and the address goes on being held, until an allocation of the pool itself or of
   that address is released; and unless a caller already carried another of its addresses, the pool allocates
   nothing.
   */
  lemma {:induction false} BlockedUntilRelease(s: State, steps: seq<Step>, pool: string, ip: string)
    requires Stuck(s, pool, ip)
    requires forall k | 0 <= k < |steps| :: !Frees(Run(s, steps[..k]), steps[k], pool, ip)
    ensures Stuck(Run(s, steps), pool, ip)
    ensures NoneOther(s, pool, ip) ==>
              && NoneOther(Run(s, steps), pool, ip)
              && ActiveIds(Run(s, steps).allocations, pool) == ActiveIds(s.allocations, pool)
  {
    hide Stuck, NoneOther, Next, Frees, ActiveIds;
    if steps != [] {
      var before := steps[..|steps| - 1];
      assert forall k | 0 <= k < |before| :: before[..k] == steps[..k];
      BlockedUntilRelease(s, before, pool, ip);
      StuckIsHeld(Run(s, before), pool, ip);
      StepStaysStuck(Run(s, before), steps[|before|], pool, ip);
      StepKeepsHolders(Run(s, before), steps[|before|], pool, ip);
    }
  }

  lemma StuckIsHeld(s: State, pool: string, ip: string)
    requires Stuck(s, pool, ip)
    ensures Held(s.allocations, ip)
  {
  }

  // ---- Which pools block each other ----

  lemma {:induction false} LongerThanAll(keys: set<string>) returns (n: nat)
    ensures forall k | k in keys :: |k| < n
    decreases |keys|
  {
    if keys == {} {
      n := 0;
    } else {
      var k :| k in keys;
      var m := LongerThanAll(keys - {k});
      n := if m <= |k| then |k| + 1 else m;
      assert forall j | j in keys :: j == k || j in keys - {k};
    }
  }

  lemma FreshId(allocations: map<string, Allocation>) returns (id: string)
    ensures id !in allocations
  {
    var n := LongerThanAll(allocations.Keys);
    id := seq(n, _ => 'x');
  }

  lemma {:induction false} RunParts(s: State, a: seq<Step>, b: seq<Step>)
    ensures Run(s, a + b) == Run(Run(s, a), b)
  {
    hide Next;
    if b == [] {
      assert a + b == a;
    } else {
      RunParts(s, a, b[..|b| - 1]);
      assert (a + b)[..|a + b| - 1] == a + b[..|b| - 1];
    }
  }

  /** A search of a pool comes to an address no later than one that is free in it. */
  lemma FoundUpTo(s: State, pool: string, a: int) returns (found: int)
    requires pool in s.pools && Network(s.pools[pool]) && IsHost(s.pools[pool], a) && 0 <= a < TWO_32
    requires Dotted(a) !in Taken(s.allocations, pool) && Dotted(a) != s.pools[pool].gateway
    ensures IsHost(s.pools[pool], found) && 0 <= found <= a && Found(s, pool) == Some(Dotted(found))
    ensures Dotted(found) !in Taken(s.allocations, pool) + {s.pools[pool].gateway}
    ensures forall b | IsHost(s.pools[pool], b) && b < found ::
              0 <= b && Dotted(b) in Taken(s.allocations, pool) + {s.pools[pool].gateway}
  {
    var p := s.pools[pool];
    LeastFreeIsLeast(p, Taken(s.allocations, pool) + {p.gateway});
    hide Dotted, Pow2, Taken;
    found := LeastFree(p, Taken(s.allocations, pool) + {p.gateway}).value;
  }

  /** A caller allocates the address that a search finds, if nobody holds it. */
  lemma AllocateFound(s: State, pool: string, ip: string) returns (steps: seq<Step>)
    requires pool in s.pools && Network(s.pools[pool]) && s.callers == map[]
    requires Found(s, pool) == Some(ip) && !Held(s.allocations, ip)
    ensures var t := Run(s, steps);
            && t.pools == s.pools && t.callers == map[]
            && Held(t.allocations, ip) && (forall x :: Held(s.allocations, x) ==> Held(t.allocations, x))
            && Taken(t.allocations, pool) == Taken(s.allocations, pool) + {ip}
            && forall q | q != pool :: Taken(t.allocations, q) == Taken(s.allocations, q)
  {
    hide LeastFreeName, Network;
    var id := FreshId(s.allocations);
    var search, create := Search("c", pool), Create("c", id, false);
    steps := [search, create];
    assert steps[..1] == [search] && [search][..0] == [];
    var u := Next(s, search);
    assert u == s.(callers := map["c" := Pending(pool, ip)]);
    var t := Next(u, create);
    assert Run(s, [search]) == u && Run(s, steps) == t;
    assert t.allocations == s.allocations[id := Allocation(pool, ip, false, false)] && t.callers == map[];
    forall x | Held(s.allocations, x)
      ensures Held(t.allocations, x)
    {
      var j :| j in s.allocations && s.allocations[j].ip == x && !s.allocations[j].released;
      assert t.allocations[j] == s.allocations[j];
    }
    assert t.allocations[id].ip == ip;
    TakenGrows(s.allocations, pool, id, ip);
  }

  /** With an address held elsewhere and free in a pool, allocating from the pool runs into a held address. */
  lemma {:induction false} RunIntoHeld(s: State, pool: string, a: int, low: int) returns (steps: seq<Step>)
    requires pool in s.pools && Network(s.pools[pool]) && s.callers == map[]
    requires IsHost(s.pools[pool], a) && 0 <= a < TWO_32 && 0 <= low <= a
    requires Dotted(a) !in Taken(s.allocations, pool) && Dotted(a) != s.pools[pool].gateway
             && Held(s.allocations, Dotted(a))
    requires forall b | IsHost(s.pools[pool], b) && b < low ::
               0 <= b && Dotted(b) in Taken(s.allocations, pool) + {s.pools[pool].gateway}
    ensures Run(s, steps).pools == s.pools
    ensures Found(Run(s, steps), pool).Some? && Held(Run(s, steps).allocations, Found(Run(s, steps), pool).value)
    decreases a - low
  {
    hide Dotted, Pow2, Taken, Held, Next, Found;
    var found := FoundUpTo(s, pool, a);
    var ip := Dotted(found);
    if Held(s.allocations, ip) {
      steps := [];
    } else {
      assert found < a;
      assert low <= found;
      var first := AllocateFound(s, pool, ip);
      var t := Run(s, first);
      NameOf(a, found);
      var rest := RunIntoHeld(t, pool, a, found + 1);
      steps := first + rest;
      RunParts(s, first, rest);
    }
  }

  lemma NameOf(a: int, b: int)
    requires 0 <= a < TWO_32 && 0 <= b < TWO_32 && a != b
    ensures Dotted(a) != Dotted(b)
  {
    if Dotted(a) == Dotted(b) {
      DottedInjective(a, b);
    }
  }

  /** Two pools share a host address whose text is neither one's gateway. */
  ghost predicate ShareAddress(pools: map<string, Pool>, p: string, q: string, a: int) {
    && p != q && p in pools && q in pools && Network(pools[p]) && Network(pools[q])
    && 0 <= a < TWO_32 && IsHost(pools[p], a) && IsHost(pools[q], a)
    && Dotted(a) != pools[p].gateway && Dotted(a) != pools[q].gateway
  }

  /** A state in which a search of the pool finds an address that a create is then refused. */
  ghost predicate Refusing(s: State, pool: string) {
    && pool in s.pools && Network(s.pools[pool])
    && Found(s, pool).Some? && Held(s.allocations, Found(s, pool).value)
  }

  lemma SharedIsRefused(s: State, p: string, q: string, a: int) returns (steps: seq<Step>)
    requires s.allocations == map[] && s.callers == map[] && ShareAddress(s.pools, p, q, a)
    ensures Refusing(Run(s, steps), q)
  {
    hide Dotted, Pow2, Next, Found, Names;
    var first := FillBelow(s, p, a);
    var t := Run(s, first);
    FoundNext(s, t, p, a);
    assert Taken(t.allocations, q) == {};
    var second := AllocateFound(t, p, Dotted(a));
    var u := Run(t, second);
    assert Taken(u.allocations, q) == {};
    hide Taken, Held;
    var third := RunIntoHeld(u, q, a, 0);
    RunParts(s, first, second);
    RunParts(s, first + second, third);
    steps := first + second + third;
    PoolsStay(s, steps);
  }

  lemma RefusedIsShared(s: State, steps: seq<Step>, q: string)
    requires s.allocations == map[] && s.callers == map[] && Refusing(Run(s, steps), q)
    ensures exists p, a :: ShareAddress(s.pools, p, q, a)
  {
    var t := Run(s, steps);
    NoAddressTwice(s, steps);
    FoundIsFreeUnlessShared(t, q);
    SearchFindsLocated(t, q);
    var ip := Found(t, q).value;
    var id :| && id in t.allocations && t.allocations[id].ip == ip
              && !t.allocations[id].released && t.allocations[id].pool != q;
    var p := t.allocations[id].pool;
    assert Located(s.pools, p, ip) && Located(s.pools, q, ip);
    hide Dotted, Pow2, Next, Found, Taken;
    var a := HostNamed(s.pools[p], ip);
    var b := HostNamed(s.pools[q], ip);
    if a != b {
      NameOf(a, b);
    }
    assert ShareAddress(s.pools, p, q, a);
  }

  lemma HostNamed(p: Pool, name: string) returns (a: int)
    requires Network(p) && name in HostNames(p)
    ensures 0 <= a < TWO_32 && IsHost(p, a) && Dotted(a) == name
  {
    NetworkFits(p);
    hide Dotted, Pow2;
    a := NamesName(p.base + 1, p.base + Size(p) - 1, name);
  }

  /**
   From an empty store, some run comes to a search of the pool whose address is then refused exactly when another
   pool shares with it a host address that is neither one's gateway.
   */
  lemma RefusalIffShared(s: State, q: string)
    requires s.allocations == map[] && s.callers == map[]
    ensures (exists steps :: Refusing(Run(s, steps), q)) <==> exists p, a :: ShareAddress(s.pools, p, q, a)
  {
    hide Refusing, ShareAddress, Next;
    if steps :| Refusing(Run(s, steps), q) {
      RefusedIsShared(s, steps, q);
    }
    if p, a :| ShareAddress(s.pools, p, q, a) {
      var steps := SharedIsRefused(s, p, q, a);
    }
  }

  /** Two networks from one base: the first allocation of the one blocks the other, which has not allocated anything. */
  lemma OverlapBlocks(s: State, p: string, q: string)
    requires p != q && p in s.pools && q in s.pools && Network(s.pools[p]) && Network(s.pools[q])
    requires s.pools[p].base == s.pools[q].base
    requires IsHost(s.pools[p], s.pools[p].base + 1) && IsHost(s.pools[q], s.pools[p].base + 1)
    requires s.pools[p].base + 1 < TWO_32
    requires Dotted(s.pools[p].base + 1) !in {s.pools[p].gateway, s.pools[q].gateway}
    requires s.allocations == map[] && s.callers == map[]
    ensures var ip := Dotted(s.pools[p].base + 1);
            var t := Run(s, [Search("c", p), Create("c", ip, false)]);
            && t.allocations.Keys == {ip} && ActiveIds(t.allocations, q) == {} && Stuck(t, q, ip) && NoneOther(t, q, ip)
            && (s.pools[q].mask <= 30 ==>
                  0 < TotalHostIPs(s.pools[q]) - if s.pools[q].gateway in HostNames(s.pools[q]) then 1 else 0)
  {
    var a := s.pools[p].base + 1;
    var ip := Dotted(a);
    hide Dotted, Pow2, Names, LeastFreeName, Run;
    TakeFirst(s, p);
    var t := Run(s, [Search("c", p), Create("c", ip, false)]);
    FirstFound(t, q);
    assert ActiveIds(t.allocations, q) == {};
    if s.pools[q].mask <= 30 {
      EmptyHasRoom(t, q);
    }
  }

  /** The first allocation of a pool from an empty store takes its first host address. */
  lemma TakeFirst(s: State, pool: string)
    requires pool in s.pools && Network(s.pools[pool]) && s.pools[pool].base + 1 < TWO_32
    requires IsHost(s.pools[pool], s.pools[pool].base + 1) && Dotted(s.pools[pool].base + 1) != s.pools[pool].gateway
    requires s.allocations == map[] && s.callers == map[]
    ensures var ip := Dotted(s.pools[pool].base + 1);
            Run(s, [Search("c", pool), Create("c", ip, false)])
            == State(s.pools, map[ip := Allocation(pool, ip, false, false)], map[])
  {
    var a := s.pools[pool].base + 1;
    var ip := Dotted(a);
    var search, create := Search("c", pool), Create("c", ip, false);
    assert [search, create][..1] == [search] && [search][..0] == [];
    assert FilledBelow(s, s, pool, a);
    FoundNext(s, s, pool, a);
    hide Dotted, Pow2, Found;
    assert Run(s, [search]) == Next(s, search);
    assert Next(s, search).callers == map["c" := Pending(pool, ip)];
    assert Run(s, [search, create]) == Next(Next(s, search), create);
  }

  /** With nothing allocated in a pool, a search comes to its first host address, whatever other pools hold. */
  lemma FirstFound(t: State, pool: string)
    requires pool in t.pools && Network(t.pools[pool]) && t.pools[pool].base + 1 < TWO_32
    requires IsHost(t.pools[pool], t.pools[pool].base + 1) && Dotted(t.pools[pool].base + 1) != t.pools[pool].gateway
    requires forall id | id in t.allocations :: t.allocations[id].pool != pool
    ensures Found(t, pool) == Some(Dotted(t.pools[pool].base + 1))
  {
    var p := t.pools[pool];
    assert Taken(t.allocations, pool) == {};
    hide Dotted, Pow2;
    LeastFreeIsLeast(p, {} + {p.gateway});
    assert LeastFree(p, {} + {p.gateway}) == Some(p.base + 1);
  }

  /** A network up to /30 has room for an allocation while it has none. */
  lemma EmptyHasRoom(t: State, pool: string)
    requires pool in t.pools && Network(t.pools[pool]) && t.pools[pool].mask <= 30
    ensures 0 < TotalHostIPs(t.pools[pool]) - if t.pools[pool].gateway in HostNames(t.pools[pool]) then 1 else 0
  {
    var p := t.pools[pool];
    NetworkFits(p);
    Pow2Splits(2, 30 - p.mask);
    assert Pow2(2) == 4;
    Pow2Positive(30 - p.mask);
  }

  lemma {:induction false} Pow2Positive(n: nat)
    ensures 1 <= Pow2(n)
  {
    if n > 0 {
      Pow2Positive(n - 1);
    }
  }

  /** It happens: 10.0.0.0/29 and 10.0.0.0/30, each with a gateway of its own, and one allocation in the first. */
  lemma OverlapHappens(s: State)
    requires s.pools == map["a" := Network10(29, "10.0.0.6"), "b" := Network10(30, "10.0.0.2")]
    requires s.allocations == map[] && s.callers == map[]
    ensures var t := Run(s, [Search("c", "a"), Create("c", "10.0.0.1", false)]);
            ActiveIds(t.allocations, "b") == {} && Stuck(t, "b", "10.0.0.1") && Refuses(t, "b", "10.0.0.1")
  {
    Network10Is();
    FirstOf10();
    assert "a"[0] != "b"[0];
    assert "10.0.0.1"[7] != "10.0.0.2"[7] && "10.0.0.1"[7] != "10.0.0.6"[7];
    hide Dotted, Pow2, Run, Stuck, Refuses, ActiveIds;
    OverlapBlocks(s, "a", "b");
    var t := Run(s, [Search("c", "a"), Create("c", "10.0.0.1", false)]);
    assert |"id"| == 2 && |"10.0.0.1"| == 8;
    RefusedWhileStuck(t, "b", "10.0.0.1");
  }

  /** A further caller of the pool finds the address, and its create stores nothing. */
  ghost predicate Refuses(t: State, pool: string, ip: string) {
    var searched := Next(t, Search("d", pool));
    var refused := Next(searched, Create("d", "id", false));
    && "d" in searched.callers && searched.callers["d"] == Pending(pool, ip)
    && "d" !in refused.callers && refused.allocations == t.allocations
  }

  lemma RefusedWhileStuck(t: State, pool: string, ip: string)
    requires Stuck(t, pool, ip) && "id" !in t.allocations
    ensures Refuses(t, pool, ip)
  {
    hide LeastFreeName, Network;
  }

  /** The nearest hundredth. */
  function Rounded(x: real): (r: real)
    ensures x - 0.005 <= r <= x + 0.005
  {
    (x * 100.0 + 0.5).Floor as real / 100.0
  }

  datatype AllocError = PoolNotFound | PoolExhausted | AlreadyAllocated | AllocationNotFound

  class IpamService {
    var pools: map<string, Pool>
    var allocations: map<string, Allocation>

    constructor (pools: map<string, Pool>)
      ensures this.pools == pools && allocations == map[]
    {
      this.pools, allocations := pools, map[];
    }

    /** The addresses of the pool's active allocations. */
    method ListByPoolID(pool: string) returns (taken: set<string>)
      ensures taken == Taken(allocations, pool)
    {
      taken := {};
      var rest := allocations.Keys;
      while rest != {}
        invariant rest <= allocations.Keys
        invariant taken == set id | id in allocations && id !in rest && ActiveIn(allocations[id], pool) ::
                  allocations[id].ip
        decreases |rest|
      {
        var id :| id in rest;
        if allocations[id].pool == pool && !allocations[id].released {
          taken := taken + {allocations[id].ip};
        }
        rest := rest - {id};
      }
    }

    method CreateAllocation(id: string, pool: string, ip: string, reserved: bool) returns (ok: bool)
      requires id !in allocations
      modifies this`allocations
      ensures ok <==> !Held(old(allocations), ip)
      ensures allocations == if ok then old(allocations)[id := Allocation(pool, ip, reserved, false)]
              else old(allocations)
    {
      var rest := allocations.Keys;
      while rest != {}
        invariant rest <= allocations.Keys
        invariant forall i | i in allocations && i !in rest :: allocations[i].ip != ip || allocations[i].released
        decreases |rest|
      {
        var i :| i in rest;
        if allocations[i].ip == ip && !allocations[i].released {
          return false;
        }
        rest := rest - {i};
      }
      allocations := allocations[id := Allocation(pool, ip, reserved, false)];
      ok := true;
    }

    /** An uninterrupted allocation is the search step followed by the create step of one caller. */
    method AllocateIP(caller: string, id: string, pool: string, reserved: bool) returns (r: Result<string, AllocError>)
      requires id !in allocations
      requires forall q | q in pools :: Network(pools[q])
      modifies this`allocations
      ensures pool !in pools ==> r == Failure(PoolNotFound)
      ensures pool in pools ==>
                var s := State(pools, old(allocations), map[]);
                var t := Next(Next(s, Search(caller, pool)), Create(caller, id, reserved));
                && allocations == t.allocations
                && r == (match Found(s, pool)
                         case None => Failure(PoolExhausted)
                         case Some(ip) => if Held(s.allocations, ip) then Failure(AlreadyAllocated) else Success(ip))
      ensures r.Failure? ==> allocations == old(allocations)
      ensures r.Success? ==>
                && Free(State(pools, old(allocations), map[]), pool, r.value)
                && (forall i | i in old(allocations) && old(allocations)[i].ip == r.value ::
                      old(allocations)[i].released)
                && allocations == old(allocations)[id := Allocation(pool, r.value, reserved, false)]
      ensures r == Failure(PoolExhausted) <==>
              pool in pools && forall ip :: !Free(State(pools, old(allocations), map[]), pool, ip)
    {
      if pool !in pools {
        return Failure(PoolNotFound);
      }
      FoundIsLowestFree(State(pools, allocations, map[]), pool);
      hide Free, LeastFreeName;
      var taken := ListByPoolID(pool);
      taken := taken + {pools[pool].gateway};
      var found := FindNextAvailableIP(pools[pool], taken);
      if found.None? {
        return Failure(PoolExhausted);
      }
      var ok := CreateAllocation(id, pool, found.value, reserved);
      if !ok {
        return Failure(AlreadyAllocated);
      }
      r := Success(found.value);
    }

    method ReleaseIP(id: string) returns (r: Result<string, AllocError>)
      modifies this`allocations
      ensures r.Success? <==> id in old(allocations)
      ensures allocations == Next(State(pools, old(allocations), map[]), Release(id)).allocations
    {
      if id !in allocations {
        return Failure(AllocationNotFound);
      }
      allocations := allocations[id := allocations[id].(released := true)];
      r := Success(id);
    }

    /** The pool's active allocations, leased and reserved. */
    method CountActive(pool: string) returns (leased: nat, reserved: nat)
      ensures leased + reserved == |ActiveIds(allocations, pool)|
      ensures reserved == |set id | id in ActiveIds(allocations, pool) && allocations[id].reserved|
    {
      leased, reserved := 0, 0;
      var rest := allocations.Keys;
      ghost var seen, kept: set<string> := {}, {};
      while rest != {}
        invariant rest <= allocations.Keys
        invariant seen == set id | id in ActiveIds(allocations, pool) && id !in rest
        invariant kept == set id | id in ActiveIds(allocations, pool) && id !in rest && allocations[id].reserved
        invariant leased + reserved == |seen| && reserved == |kept|
        decreases |rest|
      {
        var id :| id in rest;
        if allocations[id].pool == pool && !allocations[id].released {
          seen := seen + {id};
          if allocations[id].reserved {
            reserved := reserved + 1;
            kept := kept + {id};
          } else {
            leased := leased + 1;
          }
        }
        rest := rest - {id};
      }
      assert seen == ActiveIds(allocations, pool);
      assert kept == set id | id in ActiveIds(allocations, pool) && allocations[id].reserved;
    }

    /** Total, leased, reserved and spare counts of a pool, and the share in use in whole hundredths of a percent. */
    method GetPoolUtilization(pool: string)
      returns (total: int, leased: int, reserved: int, spare: int, percent: real)
      requires pool in pools && Network(pools[pool])
      ensures total == TotalHostIPs(pools[pool])
      ensures leased + reserved == |ActiveIds(allocations, pool)|
      ensures reserved == |set id | id in ActiveIds(allocations, pool) && allocations[id].reserved|
      ensures spare == if total < leased + reserved then 0 else total - (leased + reserved)
      ensures percent == Rounded(if total > 0 then (leased + reserved) as real / total as real * 100.0 else 0.0)
    {
      hide Rounded, ActiveIds;
      total := if pools[pool].mask >= 31 then 2 else Size(pools[pool]) - 2;
      leased, reserved := CountActive(pool);
      spare := total - (leased + reserved);
      if spare < 0 {
        spare := 0;
      }
      percent := 0.0;
      if total > 0 {
        percent := (leased + reserved) as real / total as real * 100.0;
      }
      percent := Rounded(percent);
    }
  }
}
