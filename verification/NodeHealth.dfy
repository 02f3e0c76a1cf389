/**
 Node status: what streams, operators and the health supervisor make of it. Times are instants in nanoseconds;
 each event is atomic, a tick of the supervisor over all nodes included.
 */
module NodeHealth {
  import opened Wrappers
  import opened Domain

  const SECOND := 1_000_000_000
  const STALE_LIMIT := 15 * SECOND
  const UNHEALTHY_LIMIT := 35 * SECOND

  /** The node store, the nodes with a registered stream, and the supervisor's counters. */
  datatype State = State(nodes: map<string, Node>, connected: set<string>, missed: map<string, nat>)

  /** The capabilities that other services look up; a heartbeat may bring a new set. */
  datatype Capabilities = Capabilities(architecture: Option<string>, kvmSupported: Option<bool>)

  datatype Event =
    | Enroll(id: string, node: Node)
    | Connect(id: string)
    | Disconnect(id: string)
    | Heartbeat(id: string, now: int, capabilities: Option<Capabilities>)
    | SetMaintenance(id: string, on: bool)
    | SetDrain(id: string, on: bool)
    | Revoke(id: string)
    | Tick(now: int)

  // ---- Streams and operators ----

  /** Enrollment registers a node with neither flag set and no heartbeat yet; the rest is refused of revoked nodes. */
  predicate Accepted(s: State, e: Event) {
    match e
    case Enroll(id, n) =>
      id !in s.nodes && n.status.Enrolling? && !n.maintenanceMode && !n.drainMode && n.lastHeartbeat.None?
    case Disconnect(_) => true
    case Tick(_) => true
    case Revoke(id) => id in s.nodes
    case _ => e.id in s.nodes && !s.nodes[e.id].status.Revoked?
  }

  function Maintained(n: Node, on: bool): Node {
    n.(maintenanceMode := on, status := if on then Maintenance else Online)
  }

  function Drained(n: Node, on: bool): Node {
    n.(drainMode := on,
       status := if on && n.status.Online? then Draining else if !on && n.status.Draining? then Online else n.status)
  }

  function Heard(n: Node, now: int, capabilities: Option<Capabilities>): Node {
    var seen := n.(lastHeartbeat := Some(now));
    match capabilities
    case None => seen
    case Some(c) => seen.(architecture := c.architecture, kvmSupported := c.kvmSupported)
  }

  function Next(s: State, e: Event): State {
    if !Accepted(s, e) then s else
    match e
    case Enroll(id, n) => s.(nodes := s.nodes[id := n])
    case Connect(id) =>
      var n := s.nodes[id];
      s.(nodes := s.nodes[id := n.(status := if n.maintenanceMode then Maintenance else Online)],
         connected := s.connected + {id})
    case Disconnect(id) =>
      s.(nodes := if id in s.nodes && !s.nodes[id].status.Revoked?
                  then s.nodes[id := s.nodes[id].(status := Offline)] else s.nodes,
         connected := s.connected - {id})
    case Heartbeat(id, now, capabilities) => s.(nodes := s.nodes[id := Heard(s.nodes[id], now, capabilities)])
    case SetMaintenance(id, on) => s.(nodes := s.nodes[id := Maintained(s.nodes[id], on)])
    case SetDrain(id, on) => s.(nodes := s.nodes[id := Drained(s.nodes[id], on)])
    case Revoke(id) => State(s.nodes[id := s.nodes[id].(status := Revoked)], s.connected - {id}, s.missed)
    case Tick(now) => Ticked(s, now)
  }

  // ---- The supervisor ----

  /** Nodes the supervisor leaves alone, forgetting their count. */
  predicate Skipped(n: Node) {
    n.status.Revoked? || n.status.Enrolling? || n.maintenanceMode
  }

  /** A node that has never sent a heartbeat counts as unseen for longer than any limit. */
  predicate OlderThan(n: Node, now: int, limit: int) {
    n.lastHeartbeat.None? || now - n.lastHeartbeat.value > limit
  }

  predicate Stale(n: Node, now: int) {
    !Skipped(n) && OlderThan(n, now, STALE_LIMIT)
  }

  function Count(missed: map<string, nat>, id: string): nat {
    if id in missed then missed[id] else 0
  }

  /** The node's status after a tick that brings its count of missed heartbeats to a number. */
  function Judged(n: Node, now: int, count: nat): NodeStatus {
    if Skipped(n) then n.status
    else if OlderThan(n, now, STALE_LIMIT) then
      if OlderThan(n, now, UNHEALTHY_LIMIT) || count >= 3 then Unhealthy
      else if count >= 2 && !n.status.Unhealthy? then Degraded
      else n.status
    else if (n.status.Unhealthy? || n.status.Degraded?) && !n.drainMode then Online
    else n.status
  }

  /** The count a tick leaves behind; None where it forgets one. */
  function CountAfter(n: Node, now: int, count: nat): Option<nat> {
    if Skipped(n) then None else Some(if Stale(n, now) then count + 1 else 0)
  }

  function Ticked(s: State, now: int): State {
    State(
      map id | id in s.nodes :: s.nodes[id].(status := Judged(s.nodes[id], now, Count(s.missed, id) + 1)),
      s.connected,
      map id | id in s.nodes.Keys + s.missed.Keys &&
               (id in s.nodes ==> CountAfter(s.nodes[id], now, Count(s.missed, id)).Some?) ::
        if id in s.nodes then CountAfter(s.nodes[id], now, Count(s.missed, id)).value else s.missed[id])
  }

  function Run(log: seq<Event>): State {
    if log == [] then State(map[], {}, map[]) else Next(Run(log[..|log| - 1]), log[|log| - 1])
  }

  // ---- The status machine ----

  predicate NodeOk(n: Node) {
    && (n.status.Draining? ==> n.drainMode)
    && (n.maintenanceMode ==> n.status.Maintenance? || n.status.Offline? || n.status.Revoked?)
    && (n.status.Maintenance? ==> n.maintenanceMode)
  }

  lemma StepKeepsFlags(s: State, e: Event)
    requires forall id | id in s.nodes :: NodeOk(s.nodes[id])
    ensures var after := Next(s, e); forall id | id in after.nodes :: NodeOk(after.nodes[id])
  {
  }

  /**
   In every run: a draining node has the drain flag; a node with the maintenance flag is in maintenance, offline
   or revoked; and a node in maintenance has the flag.
   */
  lemma FlagsMatchStatus(log: seq<Event>, id: string)
    requires id in Run(log).nodes
    ensures NodeOk(Run(log).nodes[id])
  {
    AllFlagsMatch(log);
  }

  lemma {:induction false} AllFlagsMatch(log: seq<Event>)
    ensures forall id | id in Run(log).nodes :: NodeOk(Run(log).nodes[id])
  {
    if log != [] {
      AllFlagsMatch(log[..|log| - 1]);
      StepKeepsFlags(Run(log[..|log| - 1]), log[|log| - 1]);
    }
  }

  predicate RevokedAt(s: State, id: string) {
    id in s.nodes && s.nodes[id].status.Revoked?
  }

  lemma StepKeepsRevoked(s: State, e: Event, id: string)
    requires RevokedAt(s, id) && id !in s.connected
    ensures RevokedAt(Next(s, e), id) && id !in Next(s, e).connected
    ensures s.nodes[id] == Next(s, e).nodes[id]
  {
  }

  lemma {:induction false} RevokedIsDisconnected(log: seq<Event>, id: string)
    requires RevokedAt(Run(log), id)
    ensures id !in Run(log).connected
  {
    var before, e := Run(log[..|log| - 1]), log[|log| - 1];
    if RevokedAt(before, id) {
      RevokedIsDisconnected(log[..|log| - 1], id);
      StepKeepsRevoked(before, e, id);
    }
  }

  /** Revocation is final: whatever follows, the node stays revoked, unchanged and without a stream. */
  lemma {:induction false} RevokedIsFinal(log: seq<Event>, n: nat, id: string)
    requires n <= |log| && RevokedAt(Run(log[..n]), id)
    ensures RevokedAt(Run(log), id) && id !in Run(log).connected && Run(log).nodes[id] == Run(log[..n]).nodes[id]
    decreases |log|
  {
    if n == |log| {
      assert log[..n] == log;
      RevokedIsDisconnected(log, id);
    } else {
      var before := log[..|log| - 1];
      assert before[..n] == log[..n];
      RevokedIsFinal(before, n, id);
      StepKeepsRevoked(Run(before), log[|log| - 1], id);
    }
  }

  // ---- What streams and operators bring about ----

  lemma RunOneMore(log: seq<Event>, e: Event)
    ensures Run(log + [e]) == Next(Run(log), e)
  {
    assert (log + [e])[..|log|] == log;
  }

  /** A stream brings a node online, unless it is in maintenance; its end takes the node offline. */
  lemma StreamsDecide(log: seq<Event>, id: string)
    requires id in Run(log).nodes && !Run(log).nodes[id].status.Revoked?
    ensures var n, after := Run(log).nodes[id], Run(log + [Connect(id)]);
            && id in after.connected && id in after.nodes
            && after.nodes[id] == n.(status := if n.maintenanceMode then Maintenance else Online)
    ensures var n, after := Run(log).nodes[id], Run(log + [Disconnect(id)]);
            id !in after.connected && id in after.nodes && after.nodes[id] == n.(status := Offline)
  {
    RunOneMore(log, Connect(id));
    RunOneMore(log, Disconnect(id));
  }

  /**
   Maintenance sets the status at once, both ways; draining moves an online node to draining and back, and leaves any
   other status to the supervisor.
   */
  lemma OperatorsDecide(log: seq<Event>, id: string)
    requires id in Run(log).nodes && !Run(log).nodes[id].status.Revoked?
    ensures var n := Run(log).nodes[id];
            && Run(log + [SetMaintenance(id, true)]).nodes ==
               Run(log).nodes[id := n.(maintenanceMode := true, status := Maintenance)]
            && Run(log + [SetMaintenance(id, false)]).nodes ==
               Run(log).nodes[id := n.(maintenanceMode := false, status := Online)]
    ensures var n := Run(log).nodes[id];
            && Run(log + [SetDrain(id, true)]).nodes ==
               Run(log).nodes[id := n.(drainMode := true, status := if n.status.Online? then Draining else n.status)]
            && Run(log + [SetDrain(id, false)]).nodes ==
               Run(log).nodes[id := n.(drainMode := false, status := if n.status.Draining? then Online else n.status)]
    ensures var n, after := Run(log).nodes[id], Run(log + [Event.Revoke(id)]);
            after.nodes == Run(log).nodes[id := n.(status := Revoked)] && id !in after.connected
  {
    RunOneMore(log, SetMaintenance(id, true));
    RunOneMore(log, SetMaintenance(id, false));
    RunOneMore(log, SetDrain(id, true));
    RunOneMore(log, SetDrain(id, false));
    RunOneMore(log, Event.Revoke(id));
  }

  /** A heartbeat sets its time and, if it brings them, the capabilities; the status is not its business. */
  lemma HeartbeatRecords(log: seq<Event>, id: string, now: int, capabilities: Option<Capabilities>)
    requires id in Run(log).nodes && !Run(log).nodes[id].status.Revoked?
    ensures var n, after := Run(log).nodes[id], Run(log + [Heartbeat(id, now, capabilities)]);
            && id in after.nodes
            && var m := after.nodes[id];
               && m.lastHeartbeat == Some(now) && m.status == n.status
               && (capabilities.None? ==> m == n.(lastHeartbeat := Some(now)))
               && (capabilities.Some? ==> m.architecture == capabilities.value.architecture
                                          && m.kvmSupported == capabilities.value.kvmSupported)
  {
    RunOneMore(log, Heartbeat(id, now, capabilities));
  }

  lemma StepKeepsWithdrawn(s: State, e: Event, id: string)
    requires id in s.nodes
    ensures var after := Next(s, e);
            && id in after.nodes
            && (s.nodes[id].maintenanceMode && e != SetMaintenance(id, false) ==> after.nodes[id].maintenanceMode)
            && (s.nodes[id].drainMode && e != SetDrain(id, false) ==> after.nodes[id].drainMode)
  {
  }

  /**
   A node withdrawn by an operator takes no placements, whatever its streams, heartbeats and the supervisor do, until an
   operator takes that back.
   */
  lemma {:induction false} WithdrawnIsNotSchedulable(log: seq<Event>, n: nat, id: string)
    requires n <= |log| && id in Run(log[..n]).nodes
    ensures id in Run(log).nodes
    ensures Run(log[..n]).nodes[id].maintenanceMode
            && (forall k | n <= k < |log| :: log[k] != SetMaintenance(id, false))
            ==> Run(log).nodes[id].maintenanceMode && !IsSchedulable(Run(log).nodes[id])
    ensures Run(log[..n]).nodes[id].drainMode && (forall k | n <= k < |log| :: log[k] != SetDrain(id, false))
            ==> Run(log).nodes[id].drainMode && !IsSchedulable(Run(log).nodes[id])
    decreases |log|
  {
    hide Next;
    if n == |log| {
      assert log[..n] == log;
    } else {
      var before := log[..|log| - 1];
      assert before[..n] == log[..n];
      WithdrawnIsNotSchedulable(before, n, id);
      StepKeepsWithdrawn(Run(before), log[|log| - 1], id);
    }
  }

  // ---- What the supervisor's verdicts rest on ----

  predicate StaleAt(s: State, id: string, now: int) {
    id in s.nodes && Stale(s.nodes[id], now)
  }

  /** The last k ticks each found the node stale. */
  predicate StaleFor(log: seq<Event>, id: string, k: nat) {
    k == 0 || (
      log != [] &&
      var before, e := log[..|log| - 1], log[|log| - 1];
      if e.Tick? then StaleAt(Run(before), id, e.now) && StaleFor(before, id, k - 1) else StaleFor(before, id, k))
  }

  lemma {:induction false} UnknownIsUncounted(log: seq<Event>, id: string)
    requires id !in Run(log).nodes
    ensures id !in Run(log).missed
  {
    if log != [] {
      UnknownIsUncounted(log[..|log| - 1], id);
    }
  }

  /** The supervisor's counter is exactly the number of consecutive stale ticks up to now. */
  lemma {:induction false} CounterIsStaleTicks(log: seq<Event>, id: string, k: nat)
    ensures StaleFor(log, id, k) <==> k <= Count(Run(log).missed, id)
  {
    if log != [] && k > 0 {
      var before, e := log[..|log| - 1], log[|log| - 1];
      if e.Tick? {
        CounterIsStaleTicks(before, id, k - 1);
        UnknownIsUncountedAt(before, id);
      } else {
        CounterIsStaleTicks(before, id, k);
      }
    }
  }

  lemma UnknownIsUncountedAt(log: seq<Event>, id: string)
    ensures id !in Run(log).nodes ==> id !in Run(log).missed
  {
    if id !in Run(log).nodes {
      UnknownIsUncounted(log, id);
    }
  }

  /**
   What a tick does to a watched node, in terms of the ticks before it. Unhealthy: exactly when it is stale and
   unseen past the limit or for three ticks, or was so already and is still stale or draining. Degraded anew: only
   after exactly two stale ticks. Online anew: only from these two, on a fresh heartbeat and not draining.
   */
  lemma TickVerdict(log: seq<Event>, now: int, id: string)
    requires id in Run(log).nodes && !Skipped(Run(log).nodes[id])
    ensures var n, full := Run(log).nodes[id], log + [Tick(now)];
            var status := Run(full).nodes[id].status;
            && (status.Unhealthy? <==>
                  || (Stale(n, now) && (OlderThan(n, now, UNHEALTHY_LIMIT) || StaleFor(full, id, 3)))
                  || (n.status.Unhealthy? && (Stale(n, now) || n.drainMode)))
            && (status.Degraded? && !n.status.Degraded? ==> StaleFor(full, id, 2) && !StaleFor(full, id, 3))
            && (StaleFor(full, id, 2) ==> status.Degraded? || status.Unhealthy?)
            && (status.Online? && !n.status.Online? ==>
                  !Stale(n, now) && !n.drainMode && (n.status.Unhealthy? || n.status.Degraded?))
            && (status != n.status ==> status in {Unhealthy, Degraded, Online})
  {
    hide StaleFor, OlderThan, Run;
    var full := log + [Tick(now)];
    TickAtEnd(log, now);
    CounterIsStaleTicks(full, id, 2);
    CounterIsStaleTicks(full, id, 3);
    OldIsStale(Run(log).nodes[id], now);
  }

  lemma TickAtEnd(log: seq<Event>, now: int)
    ensures Run(log + [Tick(now)]) == Ticked(Run(log), now)
  {
    hide Ticked;
    assert (log + [Tick(now)])[..|log|] == log;
  }

  lemma OldIsStale(n: Node, now: int)
    ensures OlderThan(n, now, UNHEALTHY_LIMIT) ==> OlderThan(n, now, STALE_LIMIT)
  {
  }

  /** The two limits: a watched node is stale after 15 seconds without a heartbeat and unhealthy after 35. */
  lemma SilenceDecides(log: seq<Event>, now: int, id: string)
    requires id in Run(log).nodes
    requires var n := Run(log).nodes[id]; !n.status.Revoked? && !n.status.Enrolling? && !n.maintenanceMode
    ensures var n, status := Run(log).nodes[id], Run(log + [Tick(now)]).nodes[id].status;
            var silent := now - (if n.lastHeartbeat.Some? then n.lastHeartbeat.value else now);
            && (n.lastHeartbeat.None? || silent > 35_000_000_000 ==> status.Unhealthy?)
            && (n.lastHeartbeat.Some? && silent <= 15_000_000_000 ==>
                  status == if (n.status.Unhealthy? || n.status.Degraded?) && !n.drainMode then Online else n.status)
            && (n.lastHeartbeat.Some? && 15_000_000_000 < silent <= 35_000_000_000 ==>
                  if StaleFor(log + [Tick(now)], id, 3) then status.Unhealthy?
                  else if StaleFor(log + [Tick(now)], id, 2) && !n.status.Unhealthy? then status.Degraded?
                  else status == n.status)
  {
    hide StaleFor, Run;
    TickAtEnd(log, now);
    CounterIsStaleTicks(log + [Tick(now)], id, 2);
    CounterIsStaleTicks(log + [Tick(now)], id, 3);
  }

  /**
   The supervisor watches offline nodes too. One that lost its stream becomes degraded, and with that schedulable,
   at a second stale tick in a row within 35 seconds of its last heartbeat, although it has no stream.
   */
  lemma OfflineBecomesSchedulableIff(log: seq<Event>, now: int, id: string)
    requires id in Run(log).nodes && Run(log).nodes[id].status.Offline?
    ensures var n, after := Run(log).nodes[id], Run(log + [Tick(now)]);
            && after.connected == Run(log).connected
            && (IsSchedulable(after.nodes[id]) <==>
                && !n.maintenanceMode && !n.drainMode
                && n.lastHeartbeat.Some? && 15_000_000_000 < now - n.lastHeartbeat.value <= 35_000_000_000
                && StaleFor(log + [Tick(now)], id, 2) && !StaleFor(log + [Tick(now)], id, 3))
  {
    hide StaleFor;
    TickAtEnd(log, now);
    if !Run(log).nodes[id].maintenanceMode {
      SilenceDecides(log, now, id);
    }
    hide Run;
  }

  /** It happens: a node sends its last heartbeat at 0 and loses its stream, and the supervisor looks twice. */
  lemma DisconnectedIsSchedulable(id: string, node: Node)
    requires Accepted(State(map[], {}, map[]), Enroll(id, node))
    ensures var s := Run([Enroll(id, node), Connect(id), Heartbeat(id, 0, None), Disconnect(id),
                          Tick(20_000_000_000), Tick(30_000_000_000)]);
            id in s.nodes && id !in s.connected && s.nodes[id].status.Degraded? && IsSchedulable(s.nodes[id])
  {
    var log := [Enroll(id, node), Connect(id), Heartbeat(id, 0, None), Disconnect(id)];
    var s := Run(log);
    LostItsStream(id, node);
    hide Run, Next, Accepted;
    TickAtEnd(log, 20_000_000_000);
    TickAtEnd(log + [Tick(20_000_000_000)], 30_000_000_000);
    TwoTicksDegrade(s, id);
    assert log + [Tick(20_000_000_000)] + [Tick(30_000_000_000)] ==
           [Enroll(id, node), Connect(id), Heartbeat(id, 0, None), Disconnect(id),
            Tick(20_000_000_000), Tick(30_000_000_000)];
  }

  lemma LostItsStream(id: string, node: Node)
    requires Accepted(State(map[], {}, map[]), Enroll(id, node))
    ensures Run([Enroll(id, node), Connect(id), Heartbeat(id, 0, None), Disconnect(id)]) ==
            State(map[id := node.(lastHeartbeat := Some(0), status := Offline)], {}, map[])
  {
    var log := [Enroll(id, node), Connect(id), Heartbeat(id, 0, None), Disconnect(id)];
    assert log[..0] == [] && log[..4] == log;
    RunStep(log, 0);
    RunStep(log, 1);
    RunStep(log, 2);
    RunStep(log, 3);
    hide Run, Ticked;
    assert Run(log[..1]) == State(map[id := node], {}, map[]);
    assert Run(log[..2]) == State(map[id := node.(status := Online)], {id}, map[]);
    assert Run(log[..3]) == State(map[id := node.(status := Online, lastHeartbeat := Some(0))], {id}, map[]);
  }

  lemma TwoTicksDegrade(s: State, id: string)
    requires s.nodes.Keys == {id} && s.missed == map[] && id !in s.connected
    requires s.nodes[id].status.Offline? && !s.nodes[id].maintenanceMode && !s.nodes[id].drainMode
    requires s.nodes[id].lastHeartbeat == Some(0)
    ensures var after := Ticked(Ticked(s, 20_000_000_000), 30_000_000_000);
            && id in after.nodes && id !in after.connected && after.nodes[id].status.Degraded?
            && IsSchedulable(after.nodes[id])
  {
    var once := Ticked(s, 20_000_000_000);
    TickedAt(s, 20_000_000_000, id);
    TickedAt(once, 30_000_000_000, id);
    assert Count(once.missed, id) == 1 by {
      assert At(once.missed, id) == Some(1);
    }
    hide Ticked;
  }

  lemma RunStep(log: seq<Event>, k: nat)
    requires k < |log|
    ensures Run(log[..k + 1]) == Next(Run(log[..k]), log[k])
  {
    assert log[..k + 1][..k] == log[..k];
  }

  // ---- The store, the service and the supervisor ----

  function At(missed: map<string, nat>, id: string): Option<nat> {
    if id in missed then Some(missed[id]) else None
  }

  /** One counter set, or removed. */
  ghost predicate Sets(before: map<string, nat>, after: map<string, nat>, id: string, count: Option<nat>) {
    forall x :: At(after, x) == if x == id then count else At(before, x)
  }

  /** A tick that has the nodes in rest still to look at. */
  ghost predicate Midway(was: State, nodes: map<string, Node>, missed: map<string, nat>, now: int, rest: set<string>) {
    && nodes.Keys == was.nodes.Keys
    && (forall id | id in nodes :: nodes[id] == if id in rest then was.nodes[id] else Ticked(was, now).nodes[id])
    && (forall id :: At(missed, id) == At(if id in rest then was.missed else Ticked(was, now).missed, id))
  }

  lemma AtNode(was: State, nodes: map<string, Node>, missed: map<string, nat>, now: int, rest: set<string>, id: string)
    requires Midway(was, nodes, missed, now, rest) && id in rest && rest <= was.nodes.Keys
    ensures id in nodes && nodes[id] == was.nodes[id] && Count(missed, id) == Count(was.missed, id)
  {
    assert At(missed, id) == At(was.missed, id);
  }

  lemma TickedAt(was: State, now: int, id: string)
    ensures At(Ticked(was, now).missed, id)
            == if id in was.nodes then CountAfter(was.nodes[id], now, Count(was.missed, id)) else At(was.missed, id)
    ensures id in was.nodes ==>
              id in Ticked(was, now).nodes
              && Ticked(was, now).nodes[id]
                 == was.nodes[id].(status := Judged(was.nodes[id], now, Count(was.missed, id) + 1))
  {
  }

  lemma NothingTicked(was: State, now: int)
    ensures Midway(was, was.nodes, was.missed, now, was.nodes.Keys)
  {
    forall id
      ensures id !in was.nodes ==> At(Ticked(was, now).missed, id) == At(was.missed, id)
    {
      TickedAt(was, now, id);
    }
    hide Ticked, Judged;
  }

  lemma MidwayStep(
    was: State, nodes: map<string, Node>, missed: map<string, nat>, after: map<string, nat>, now: int,
    rest: set<string>, id: string)
    requires Midway(was, nodes, missed, now, rest) && id in rest && rest <= was.nodes.Keys
    requires Sets(missed, after, id, CountAfter(was.nodes[id], now, Count(was.missed, id)))
    ensures Midway(was,
                   nodes[id := was.nodes[id].(status := Judged(was.nodes[id], now, Count(was.missed, id) + 1))],
                   after, now, rest - {id})
  {
    hide Judged, CountAfter, Ticked, At, Count;
    TickedAt(was, now, id);
  }

  lemma TickIsTicked(s: State, now: int)
    ensures Next(s, Tick(now)) == Ticked(s, now) && Ticked(s, now).connected == s.connected
  {
  }

  lemma AllTicked(was: State, nodes: map<string, Node>, missed: map<string, nat>, now: int)
    requires Midway(was, nodes, missed, now, {})
    ensures nodes == Ticked(was, now).nodes && missed == Ticked(was, now).missed
  {
    hide Judged, CountAfter;
    forall id
      ensures id in missed <==> id in Ticked(was, now).missed
      ensures id in missed ==> missed[id] == Ticked(was, now).missed[id]
    {
      assert At(missed, id) == At(Ticked(was, now).missed, id);
    }
  }

  class MemoryNodeRepo {
    var nodes: map<string, Node>

    constructor ()
      ensures nodes == map[]
    {
      nodes := map[];
    }

    method UpdateStatus(id: string, status: NodeStatus)
      modifies this
      ensures nodes == if id in old(nodes) then old(nodes)[id := old(nodes)[id].(status := status)] else old(nodes)
    {
      if id in nodes {
        nodes := nodes[id := nodes[id].(status := status)];
      }
    }

    method UpdateDrainMode(id: string, drain: bool)
      modifies this
      ensures nodes == if id in old(nodes) then old(nodes)[id := Drained(old(nodes)[id], drain)] else old(nodes)
    {
      if id in nodes {
        var n := nodes[id].(drainMode := drain);
        if drain && n.status == Online {
          n := n.(status := Draining);
        } else if !drain && n.status == Draining {
          n := n.(status := Online);
        }
        nodes := nodes[id := n];
      }
    }

    method UpdateMaintenanceMode(id: string, on: bool)
      modifies this
      ensures nodes == if id in old(nodes) then old(nodes)[id := Maintained(old(nodes)[id], on)] else old(nodes)
    {
      if id in nodes {
        var n := nodes[id].(maintenanceMode := on);
        if on {
          n := n.(status := Maintenance);
        } else {
          n := n.(status := Online);
        }
        nodes := nodes[id := n];
      }
    }

    method UpdateHeartbeat(id: string, now: int, capabilities: Option<Capabilities>)
      modifies this
      ensures nodes == if id in old(nodes) then old(nodes)[id := Heard(old(nodes)[id], now, capabilities)]
              else old(nodes)
    {
      if id in nodes {
        var n := nodes[id].(lastHeartbeat := Some(now));
        if capabilities.Some? {
          n := n.(architecture := capabilities.value.architecture, kvmSupported := capabilities.value.kvmSupported);
        }
        nodes := nodes[id := n];
      }
    }
  }

  class Service {
    const repo: MemoryNodeRepo
    var connections: set<string>

    constructor (repo: MemoryNodeRepo)
      ensures this.repo == repo && connections == {}
    {
      this.repo := repo;
      connections := {};
    }

    /** What the service sees of the state; the counters are the supervisor's. */
    ghost function Contents(): State
      reads this, repo
    {
      State(repo.nodes, connections, map[])
    }

    method OnStreamConnected(id: string) returns (ok: bool)
      modifies this, repo
      ensures ok == Accepted(old(Contents()), Connect(id)) && Contents() == Next(old(Contents()), Connect(id))
    {
      if id !in repo.nodes || repo.nodes[id].status == Revoked {
        return false;
      }
      var n := repo.nodes[id];
      connections := connections + {id};
      var newStatus := Online;
      if n.maintenanceMode {
        newStatus := Maintenance;
      }
      repo.UpdateStatus(id, newStatus);
      ok := true;
    }

    method OnStreamDisconnected(id: string)
      modifies this, repo
      ensures Contents() == Next(old(Contents()), Disconnect(id))
    {
      connections := connections - {id};
      if id in repo.nodes && repo.nodes[id].status != Revoked {
        repo.UpdateStatus(id, Offline);
      }
    }

    method ProcessHeartbeat(id: string, now: int, capabilities: Option<Capabilities>) returns (ok: bool)
      modifies repo
      ensures var e := Heartbeat(id, now, capabilities);
              ok == Accepted(old(Contents()), e) && Contents() == Next(old(Contents()), e)
    {
      ok := id in repo.nodes && repo.nodes[id].status != Revoked;
      if ok {
        repo.UpdateHeartbeat(id, now, capabilities);
      }
    }

    method ToggleMaintenance(id: string, on: bool) returns (ok: bool)
      modifies repo
      ensures ok == Accepted(old(Contents()), SetMaintenance(id, on))
      ensures Contents() == Next(old(Contents()), SetMaintenance(id, on))
    {
      ok := id in repo.nodes && repo.nodes[id].status != Revoked;
      if ok {
        repo.UpdateMaintenanceMode(id, on);
      }
    }

    method ToggleDrainMode(id: string, drain: bool) returns (ok: bool)
      modifies repo
      ensures ok == Accepted(old(Contents()), SetDrain(id, drain))
              && Contents() == Next(old(Contents()), SetDrain(id, drain))
    {
      ok := id in repo.nodes && repo.nodes[id].status != Revoked;
      if ok {
        repo.UpdateDrainMode(id, drain);
      }
    }

    method RevokeNode(id: string) returns (ok: bool)
      modifies this, repo
      ensures ok == Accepted(old(Contents()), Event.Revoke(id)) && Contents() == Next(old(Contents()), Event.Revoke(id))
    {
      ok := id in repo.nodes;
      if ok {
        repo.UpdateStatus(id, Revoked);
        connections := connections - {id};
      }
    }
  }

  class Supervisor {
    const repo: MemoryNodeRepo
    var missedHeartbeats: map<string, nat>

    constructor (repo: MemoryNodeRepo)
      ensures this.repo == repo && missedHeartbeats == map[]
    {
      this.repo := repo;
      missedHeartbeats := map[];
    }

    ghost function Contents(): State
      reads this, repo
    {
      State(repo.nodes, {}, missedHeartbeats)
    }

    /** One listed node: its count, and a transition if the verdict is a new status. */
    method EvaluateNode(id: string, n: Node, now: int)
      requires id in repo.nodes && repo.nodes[id] == n
      modifies this, repo
      ensures repo.nodes == old(repo.nodes)[id := n.(status := Judged(n, now, Count(old(missedHeartbeats), id) + 1))]
      ensures Sets(old(missedHeartbeats), missedHeartbeats, id, CountAfter(n, now, Count(old(missedHeartbeats), id)))
    {
      if n.status == Revoked || n.status == Enrolling || n.maintenanceMode {
        missedHeartbeats := missedHeartbeats - {id};
        return;
      }
      if n.lastHeartbeat.None? || now - n.lastHeartbeat.value > STALE_LIMIT {
        var missedCount := (if id in missedHeartbeats then missedHeartbeats[id] else 0) + 1;
        missedHeartbeats := missedHeartbeats[id := missedCount];
        if n.lastHeartbeat.None? || now - n.lastHeartbeat.value > UNHEALTHY_LIMIT || missedCount >= 3 {
          if n.status != Unhealthy {
            repo.UpdateStatus(id, Unhealthy);
          }
        } else if missedCount >= 2 {
          if n.status != Degraded && n.status != Unhealthy {
            repo.UpdateStatus(id, Degraded);
          }
        }
      } else {
        missedHeartbeats := missedHeartbeats[id := 0];
        if n.status == Unhealthy || n.status == Degraded {
          if !n.drainMode {
            repo.UpdateStatus(id, Online);
          }
        }
      }
    }

    /** The node taken next out of those a tick still has to look at. */
    method EvaluateNext(id: string, n: Node, now: int, ghost was: State, ghost rest: set<string>)
      requires id in was.nodes && was.nodes[id] == n && id in rest && rest <= was.nodes.Keys
      requires Midway(was, repo.nodes, missedHeartbeats, now, rest)
      modifies this, repo
      ensures Midway(was, repo.nodes, missedHeartbeats, now, rest - {id})
    {
      hide Ticked, Judged, CountAfter, Midway, Sets;
      AtNode(was, repo.nodes, missedHeartbeats, now, rest, id);
      ghost var nodes, missed := repo.nodes, missedHeartbeats;
      EvaluateNode(id, n, now);
      MidwayStep(was, nodes, missed, missedHeartbeats, now, rest, id);
    }

    method EvaluateNodes(now: int)
      modifies this, repo
      ensures Contents() == Next(old(Contents()), Tick(now))
    {
      hide Ticked, Midway, Next;
      ghost var was := Contents();
      var listed := repo.nodes;
      var rest := listed.Keys;
      NothingTicked(was, now);
      while rest != {}
        invariant rest <= listed.Keys
        invariant Midway(was, repo.nodes, missedHeartbeats, now, rest)
        decreases |rest|
      {
        var id :| id in rest;
        EvaluateNext(id, listed[id], now, was, rest);
        rest := rest - {id};
      }
      AllTicked(was, repo.nodes, missedHeartbeats, now);
      TickIsTicked(was, now);
    }
  }
}
