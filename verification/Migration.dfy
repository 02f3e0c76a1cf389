/**
 Workload migration as a protocol of labelled steps. Any number of migration workers run at once; each
 step of a worker is one store update or one command to a node, and a schedule is any sequence of steps.
 */
module Migration {
  import opened Wrappers
  import opened Domain
  import opened SimulatedDriver

  datatype MigrationStatus = Reserving | Transferring | Verifying | Completed | RolledBack

  predicate IsTerminal(s: MigrationStatus) {
    s.Completed? || s.RolledBack?
  }

  datatype MigrationType = Live | Cold

  datatype Record = Record(
    instance: string,
    source: string,
    dest: string,
    kind: MigrationType,
    status: MigrationStatus,
    progress: int)

  /**
   What becomes of a dispatched command. A command that is delivered takes effect before the dispatch
   returns; when its result is not reported the caller sees an error although the node acted.
   */
  datatype Delivery = Undelivered | Delivered(reported: bool)

  /** Where a worker stands in executeMigration: the statement it performs next. */
  datatype Phase =
    | AtTransferring | AtStop | AtProgress | AtCreate
    | AtRollBack | AtRestart
    | AtVerifying | AtRelocate | AtMarkRunning | AtCleanup | AtComplete
    | Done

  /** A worker carries its own copies of the migration record and of the instance it was admitted for. */
  datatype Worker = Worker(order: Record, name: string, wasRunning: bool, phase: Phase)

  /** relocations is a history: for each instance, the migrations that rewrote its node, oldest first. */
  datatype State = State(
    drivers: map<string, Table>,
    instances: map<string, Instance>,
    migrations: map<string, Record>,
    workers: map<string, Worker>,
    relocations: map<string, seq<string>>)

  datatype Step =
    | Admit(id: string, instance: string, dest: string, kind: MigrationType, preflightPassed: bool)
    | Advance(id: string, delivery: Delivery)

  /** The drivers after a command to a node, and whether the dispatch reports success. */
  function Send(drivers: map<string, Table>, node: string, c: Command, d: Delivery): (map<string, Table>, bool) {
    if d.Undelivered? || node !in drivers then (drivers, false) else
    var (t, err) := Execute(drivers[node], c);
    (drivers[node := t], d.reported && err.None?)
  }

  ghost predicate HasActive(migrations: map<string, Record>, instance: string) {
    exists m | m in migrations :: migrations[m].instance == instance && !IsTerminal(migrations[m].status)
  }

  ghost predicate Admissible(s: State, e: Step)
    requires e.Admit?
  {
    && e.id !in s.migrations
    && e.instance in s.instances
    && !HasActive(s.migrations, e.instance)
    && e.dest != s.instances[e.instance].node
    && e.preflightPassed
  }

  function Admitted(s: State, e: Step): State
    requires e.Admit? && e.instance in s.instances
  {
    var inst := s.instances[e.instance];
    var order := Record(e.instance, inst.node, e.dest, e.kind, Reserving, 0);
    s.(migrations := s.migrations[e.id := order],
       workers := s.workers[e.id := Worker(order, inst.name, inst.status.Running?, AtTransferring)])
  }

  /** The command a worker dispatches at its phase, if any, and to which node. */
  function CommandAt(w: Worker): Option<(string, Command)> {
    match w.phase
    case AtStop =>
      if w.order.kind.Cold? && w.wasRunning then Some((w.order.source, Command.StopInstance(w.name))) else None
    case AtCreate => Some((w.order.dest, Command.CreateInstance(w.name, w.wasRunning)))
    case AtRestart => if w.wasRunning then Some((w.order.source, Command.StartInstance(w.name))) else None
    case AtCleanup => Some((w.order.source, Command.DeleteInstance(w.name)))
    case _ => None
  }

  function Dispatched(drivers: map<string, Table>, w: Worker, d: Delivery): (map<string, Table>, bool) {
    match CommandAt(w)
    case None => (drivers, true)
    case Some((node, c)) => Send(drivers, node, c, d)
  }

  function NextPhase(p: Phase, accepted: bool): Phase {
    match p
    case AtTransferring => AtStop
    case AtStop => AtProgress
    case AtProgress => AtCreate
    case AtCreate => if accepted then AtVerifying else AtRollBack
    case AtRollBack => AtRestart
    case AtRestart => Done
    case AtVerifying => AtRelocate
    case AtRelocate => AtMarkRunning
    case AtMarkRunning => AtCleanup
    case AtCleanup => AtComplete
    case AtComplete => Done
    case Done => Done
  }

  function RecordAfter(r: Record, p: Phase): Record {
    match p
    case AtTransferring => r.(status := Transferring, progress := 20)
    case AtProgress => r.(progress := 50)
    case AtRollBack => r.(status := RolledBack, progress := 0)
    case AtVerifying => r.(status := Verifying, progress := 80)
    case AtComplete => r.(status := Completed, progress := 100)
    case _ => r
  }

  function InstanceAfter(i: Instance, w: Worker): Instance {
    match w.phase
    case AtRelocate => i.(node := w.order.dest)
    case AtMarkRunning => if w.wasRunning then i.(status := InstanceStatus.Running) else i
    case _ => i
  }

  /** One statement of executeMigration by the worker of migration id. */
  function Advanced(s: State, id: string, d: Delivery): State
    requires id in s.workers
  {
    var w := s.workers[id];
    var i := w.order.instance;
    var sent := Dispatched(s.drivers, w, d);
    State(
      sent.0,
      if i in s.instances then s.instances[i := InstanceAfter(s.instances[i], w)] else s.instances,
      if id in s.migrations then s.migrations[id := RecordAfter(s.migrations[id], w.phase)] else s.migrations,
      s.workers[id := w.(phase := NextPhase(w.phase, sent.1))],
      if w.phase.AtRelocate? && i in s.relocations then s.relocations[i := s.relocations[i] + [id]] else s.relocations)
  }

  /** A step that is not enabled leaves the state as it is. */
  ghost function Next(s: State, e: Step): State {
    match e
    case Admit(_, _, _, _, _) => if Admissible(s, e) then Admitted(s, e) else s
    case Advance(id, d) => if id in s.workers then Advanced(s, id, d) else s
  }

  ghost function Run(s: State, steps: seq<Step>): State {
    if steps == [] then s else Next(Run(s, steps[..|steps| - 1]), steps[|steps| - 1])
  }

  predicate Holds(drivers: map<string, Table>, node: string, name: string) {
    node in drivers && name in drivers[node]
  }

  /** Instance names are unique and every record points at a node that holds the instance. */
  ghost predicate Housed(s: State) {
    && (forall i, j | i in s.instances && j in s.instances && i != j :: s.instances[i].name != s.instances[j].name)
    && (forall i | i in s.instances :: Holds(s.drivers, s.instances[i].node, s.instances[i].name))
  }

  /** A cluster at rest: nothing has been migrated yet. */
  ghost predicate AtRest(s: State) {
    && Housed(s)
    && s.migrations == map[] && s.workers == map[]
    && s.relocations == map i | i in s.instances :: []
  }

  datatype Stage = Outbound | Landing | Moved | Returning | Closed

  function StageOf(p: Phase): Stage {
    match p
    case AtVerifying => Landing
    case AtRelocate => Landing
    case AtMarkRunning => Moved
    case AtCleanup => Moved
    case AtComplete => Moved
    case AtRestart => Returning
    case Done => Closed
    case _ => Outbound
  }

  function StatusAt(p: Phase): MigrationStatus {
    match p
    case AtTransferring => Reserving
    case AtRestart => RolledBack
    case AtRelocate => Verifying
    case AtMarkRunning => Verifying
    case AtCleanup => Verifying
    case AtComplete => Verifying
    case _ => Transferring
  }

  ghost predicate WorkerOk(s: State, m: string)
    requires m in s.workers
  {
    var w := s.workers[m];
    var stage := StageOf(w.phase);
    && m in s.migrations
    && w.order.instance in s.instances
    && w.order.(status := s.migrations[m].status, progress := s.migrations[m].progress) == s.migrations[m]
    && w.order.source != w.order.dest
    && w.name == s.instances[w.order.instance].name
    && (if w.phase.Done? then IsTerminal(s.migrations[m].status) else s.migrations[m].status == StatusAt(w.phase))
    && (stage == Outbound || stage == Landing ==> s.instances[w.order.instance].node == w.order.source)
    && (stage == Moved ==> s.instances[w.order.instance].node == w.order.dest)
    && (stage == Landing || stage == Moved ==> HoldsPowered(s.drivers, w))
  }

  ghost predicate WorkersOk(s: State) {
    forall m | m in s.workers :: WorkerOk(s, m)
  }

  predicate HoldsPowered(drivers: map<string, Table>, w: Worker) {
    Holds(drivers, w.order.dest, w.name) && (w.wasRunning ==> drivers[w.order.dest][w.name] == On)
  }

  ghost predicate Exclusive(s: State) {
    forall m, n | m in s.migrations && n in s.migrations && m != n
      && s.migrations[m].instance == s.migrations[n].instance ::
      IsTerminal(s.migrations[m].status) || IsTerminal(s.migrations[n].status)
  }

  /** The node a record names is decided by the history of relocations alone. */
  ghost predicate NodeFromHistory(home: map<string, string>, s: State, i: string)
    requires i in s.instances && i in s.relocations && i in home
  {
    var moves := s.relocations[i];
    && (moves == [] ==> s.instances[i].node == home[i])
    && (moves != [] ==> moves[|moves| - 1] in s.migrations
                        && s.instances[i].node == s.migrations[moves[|moves| - 1]].dest)
  }

  /** A migration is in the history of its instance exactly when it got past its relocation. */
  ghost predicate Listed(s: State, m: string)
    requires m in s.migrations && m in s.workers
  {
    var i := s.migrations[m].instance;
    && i in s.relocations
    && (m in s.relocations[i] <==> StageOf(s.workers[m].phase) == Moved || s.migrations[m].status.Completed?)
    && (m in s.relocations[i] ==> StageOf(s.workers[m].phase) in {Moved, Closed})
  }

  ghost predicate Own(s: State, i: string)
    requires i in s.relocations
  {
    forall m | m in s.relocations[i] :: m in s.migrations && s.migrations[m].instance == i
  }

  ghost predicate HistoryOk(home: map<string, string>, s: State) {
    && s.relocations.Keys == s.instances.Keys == home.Keys
    && s.workers.Keys == s.migrations.Keys
    && (forall i | i in s.instances :: NodeFromHistory(home, s, i))
    && (forall i | i in s.relocations :: Own(s, i))
    && (forall m | m in s.migrations :: Listed(s, m))
  }

  ghost predicate Inv(home: map<string, string>, s: State) {
    && Housed(s)
    && WorkersOk(s)
    && Exclusive(s)
    && HistoryOk(home, s)
  }

  lemma AdmitKeepsWorkers(s: State, e: Step)
    requires e.Admit? && Admissible(s, e)
    requires WorkersOk(s)
    ensures WorkersOk(Admitted(s, e))
  {
    var s' := Admitted(s, e);
    forall m | m in s'.workers
      ensures WorkerOk(s', m)
    {
      assert m != e.id ==> WorkerOk(s, m);
    }
  }

  lemma AdmitKeepsOrder(s: State, e: Step)
    requires e.Admit? && Admissible(s, e)
    requires Housed(s) && Exclusive(s)
    ensures Housed(Admitted(s, e)) && Exclusive(Admitted(s, e))
  {
  }

  lemma AdmitKeepsHistory(home: map<string, string>, s: State, e: Step)
    requires e.Admit? && Admissible(s, e)
    requires HistoryOk(home, s)
    ensures HistoryOk(home, Admitted(s, e))
  {
    var s' := Admitted(s, e);
    assert s'.workers.Keys == s.workers.Keys + {e.id} == s'.migrations.Keys;
    forall i | i in s'.instances
      ensures NodeFromHistory(home, s', i) && Own(s', i)
    {
      assert NodeFromHistory(home, s, i) && Own(s, i);
    }
    forall m | m in s'.migrations
      ensures Listed(s', m)
    {
      if m == e.id {
        assert Own(s, e.instance);
      } else {
        assert Listed(s, m);
      }
    }
  }

  /** Commands keep every instance where it is, except that a delete may take one away. */
  lemma SendKeeps(drivers: map<string, Table>, to: string, c: Command, d: Delivery, node: string, name: string)
    requires Holds(drivers, node, name)
    requires c.DeleteInstance? ==> node != to || name != c.name
    ensures Holds(Send(drivers, to, c, d).0, node, name)
    ensures !(c.StopInstance? && node == to && name == c.name) && drivers[node][name] == On
            ==> Send(drivers, to, c, d).0[node][name] == On
  {
  }

  /** The only command of a migration that makes a node lose an instance is the clean-up at the source. */
  lemma DriversKept(drivers: map<string, Table>, w: Worker, d: Delivery, node: string, name: string)
    requires Holds(drivers, node, name)
    requires w.phase.AtCleanup? ==> node != w.order.source || name != w.name
    ensures Holds(Dispatched(drivers, w, d).0, node, name)
    ensures !(w.phase.AtStop? && node == w.order.source && name == w.name) && drivers[node][name] == On
            ==> Dispatched(drivers, w, d).0[node][name] == On
  {
    match CommandAt(w)
    case None =>
    case Some((to, c)) => SendKeeps(drivers, to, c, d, node, name);
  }

  /** Once landed, the destination holds the instance through whatever its own or another worker sends. */
  lemma LandingKept(drivers: map<string, Table>, w: Worker, d: Delivery, v: Worker)
    requires HoldsPowered(drivers, v)
    requires w.phase.AtCleanup? || w.phase.AtStop? ==> w.order.source != v.order.dest || w.name != v.name
    ensures HoldsPowered(Dispatched(drivers, w, d).0, v)
  {
    DriversKept(drivers, w, d, v.order.dest, v.name);
  }

  /** An accepted create lands the instance at the destination, powered as asked. */
  lemma CreateLands(drivers: map<string, Table>, w: Worker, d: Delivery)
    requires w.phase.AtCreate?
    ensures var sent := Dispatched(drivers, w, d);
            sent.1 ==> HoldsPowered(sent.0, w)
  {
  }

  lemma HousedKept(s: State, id: string, d: Delivery)
    requires Housed(s) && WorkersOk(s) && id in s.workers
    ensures Housed(Advanced(s, id, d))
  {
    var s' := Advanced(s, id, d);
    assert WorkerOk(s, id);
    forall i | i in s'.instances
      ensures Holds(s'.drivers, s'.instances[i].node, s'.instances[i].name)
    {
      DriversKept(s.drivers, s.workers[id], d, s'.instances[i].node, s'.instances[i].name);
    }
  }

  /** What a worker's step makes of its own migration, given whether its command was accepted. */
  lemma AdvanceOwn(s: State, id: string, d: Delivery)
    requires id in s.workers && id in s.migrations && s.workers[id].order.instance in s.instances
    ensures var s', w := Advanced(s, id, d), s.workers[id];
            var i := w.order.instance;
            var sent := Dispatched(s.drivers, w, d);
            && s'.drivers == sent.0
            && id in s'.workers && s'.workers[id] == w.(phase := NextPhase(w.phase, sent.1))
            && id in s'.migrations && s'.migrations[id] == RecordAfter(s.migrations[id], w.phase)
            && i in s'.instances && s'.instances[i] == InstanceAfter(s.instances[i], w)
  {
    hide Dispatched, NextPhase, RecordAfter, InstanceAfter;
  }

  /** A worker that lands or has landed finds its instance at the destination. */
  lemma OwnLands(s: State, id: string, d: Delivery)
    requires id in s.workers && s.workers[id].order.source != s.workers[id].order.dest
    requires StageOf(s.workers[id].phase) in {Landing, Moved} ==> HoldsPowered(s.drivers, s.workers[id])
    ensures var w := s.workers[id];
            var sent := Dispatched(s.drivers, w, d);
            StageOf(NextPhase(w.phase, sent.1)) in {Landing, Moved} ==>
              HoldsPowered(sent.0, w.(phase := NextPhase(w.phase, sent.1)))
  {
    var w := s.workers[id];
    var sent := Dispatched(s.drivers, w, d);
    if w.phase.AtCreate? {
      CreateLands(s.drivers, w, d);
    } else if StageOf(w.phase) in {Landing, Moved} {
      LandingKept(s.drivers, w, d, w);
    }
    PoweredAlike(sent.0, w, w.(phase := NextPhase(w.phase, sent.1)));
    hide Dispatched, HoldsPowered;
  }

  lemma OwnWorkerKept(s: State, id: string, d: Delivery)
    requires WorkersOk(s) && id in s.workers
    ensures WorkerOk(Advanced(s, id, d), id)
  {
    assert WorkerOk(s, id);
    OwnLands(s, id, d);
    AdvanceOwn(s, id, d);
    hide Advanced, Dispatched, HoldsPowered, WorkersOk;
  }

  lemma PoweredAlike(drivers: map<string, Table>, v: Worker, w: Worker)
    requires v.order == w.order && v.name == w.name && v.wasRunning == w.wasRunning
    ensures HoldsPowered(drivers, v) <==> HoldsPowered(drivers, w)
  {
  }

  /** Two migrations of one instance are never both under way. */
  lemma Alone(s: State, id: string, m: string)
    requires Exclusive(s) && WorkersOk(s)
    requires id in s.workers && m in s.workers && m != id
    requires s.workers[id].order.instance == s.workers[m].order.instance
    requires StageOf(s.workers[m].phase) in {Outbound, Landing, Moved}
    ensures StageOf(s.workers[id].phase) in {Returning, Closed}
  {
    assert WorkerOk(s, id) && WorkerOk(s, m);
  }

  /** A worker for another instance, or one that has let go of this instance, is not disturbed. */
  lemma OtherWorkerKept(s: State, id: string, d: Delivery, m: string)
    requires Housed(s) && Exclusive(s) && WorkersOk(s)
    requires id in s.workers && m in s.workers && m != id
    ensures WorkerOk(Advanced(s, id, d), m)
  {
    var v := s.workers[m];
    assert WorkerOk(s, id) && WorkerOk(s, m);
    if StageOf(v.phase) in {Outbound, Landing, Moved} {
      OtherRecordKept(s, id, d, m);
    }
    if StageOf(v.phase) in {Landing, Moved} {
      OtherLandingKept(s, id, d, m);
    }
    AdvanceLeavesOther(s, id, d, m);
    hide Advanced, HoldsPowered, Exclusive, Housed, StatusAt;
  }

  /** What a worker's step leaves alone of another worker's migration, and of every instance but its node and status. */
  lemma AdvanceLeavesOther(s: State, id: string, d: Delivery, m: string)
    requires id in s.workers && m in s.workers && m in s.migrations && m != id
    ensures var s' := Advanced(s, id, d);
            && m in s'.workers && s'.workers[m] == s.workers[m]
            && m in s'.migrations && s'.migrations[m] == s.migrations[m]
            && s'.instances.Keys == s.instances.Keys
            && forall i | i in s.instances :: s'.instances[i].name == s.instances[i].name
  {
    hide Dispatched;
  }

  /** While a worker is under way no other one moves the record of its instance. */
  lemma OtherRecordKept(s: State, id: string, d: Delivery, m: string)
    requires Exclusive(s) && WorkersOk(s) && id in s.workers && m in s.workers && m != id
    requires StageOf(s.workers[m].phase) in {Outbound, Landing, Moved}
    ensures var i := s.workers[m].order.instance;
            i in s.instances && Advanced(s, id, d).instances[i].node == s.instances[i].node
  {
    assert WorkerOk(s, m);
    if s.workers[id].order.instance == s.workers[m].order.instance {
      Alone(s, id, m);
    }
    hide Dispatched, Exclusive, WorkersOk;
  }

  lemma OtherLandingKept(s: State, id: string, d: Delivery, m: string)
    requires Housed(s) && Exclusive(s) && WorkersOk(s)
    requires id in s.workers && m in s.workers && m != id
    requires StageOf(s.workers[m].phase) in {Landing, Moved}
    ensures HoldsPowered(Advanced(s, id, d).drivers, s.workers[m])
  {
    var w, v := s.workers[id], s.workers[m];
    assert WorkerOk(s, id) && WorkerOk(s, m);
    if w.order.instance == v.order.instance {
      Alone(s, id, m);
    }
    LandingKept(s.drivers, w, d, v);
  }

  lemma WorkersKept(s: State, id: string, d: Delivery)
    requires Housed(s) && Exclusive(s) && WorkersOk(s)
    requires id in s.workers
    ensures WorkersOk(Advanced(s, id, d))
  {
    OwnWorkerKept(s, id, d);
    forall m | m in s.workers && m != id
      ensures WorkerOk(Advanced(s, id, d), m)
    {
      OtherWorkerKept(s, id, d, m);
    }
  }

  lemma ExclusiveKept(s: State, id: string, d: Delivery)
    requires Exclusive(s) && WorkersOk(s) && id in s.workers
    ensures Exclusive(Advanced(s, id, d))
  {
    assert WorkerOk(s, id);
  }

  predicate Matches(s: State, id: string) {
    && id in s.workers && id in s.migrations
    && s.workers[id].order.instance == s.migrations[id].instance
    && s.workers[id].order.dest == s.migrations[id].dest
  }

  lemma WorkerMatches(s: State, id: string)
    requires WorkersOk(s) && id in s.workers
    ensures Matches(s, id)
  {
    assert WorkerOk(s, id);
  }

  lemma OwnKept(s: State, id: string, d: Delivery)
    requires Matches(s, id)
    requires forall i | i in s.relocations :: Own(s, i)
    ensures forall i | i in s.relocations :: Own(Advanced(s, id, d), i)
  {
  }

  lemma NodeFromHistoryKept(home: map<string, string>, s: State, id: string, d: Delivery, i: string)
    requires Matches(s, id)
    requires i in s.instances && i in s.relocations && i in home
    requires NodeFromHistory(home, s, i)
    ensures NodeFromHistory(home, Advanced(s, id, d), i)
  {
  }

  lemma NodesFromHistoryKept(home: map<string, string>, s: State, id: string, d: Delivery)
    requires Matches(s, id)
    requires s.relocations.Keys == s.instances.Keys == home.Keys
    requires forall i | i in s.instances :: NodeFromHistory(home, s, i)
    ensures forall i | i in s.instances :: NodeFromHistory(home, Advanced(s, id, d), i)
  {
    forall i | i in s.instances
      ensures NodeFromHistory(home, Advanced(s, id, d), i)
    {
      NodeFromHistoryKept(home, s, id, d, i);
    }
  }

  /** A step lists its own migration when it relocates, and no other one ever. */
  lemma ListedAfter(s: State, id: string, d: Delivery, m: string, i: string)
    requires id in s.workers && i in s.relocations
    ensures var s' := Advanced(s, id, d);
            && i in s'.relocations
            && (m in s'.relocations[i] <==>
                || m in s.relocations[i]
                || (m == id && s.workers[id].phase.AtRelocate? && s.workers[id].order.instance == i))
  {
    hide Dispatched;
  }

  lemma OwnListKept(s: State, id: string, d: Delivery)
    requires WorkersOk(s) && id in s.workers && id in s.migrations && Listed(s, id)
    ensures id in Advanced(s, id, d).workers && id in Advanced(s, id, d).migrations && Listed(Advanced(s, id, d), id)
  {
    assert WorkerOk(s, id);
    AdvanceOwn(s, id, d);
    ListedAfter(s, id, d, id, s.workers[id].order.instance);
    hide Advanced, Dispatched, WorkersOk, HoldsPowered;
  }

  lemma OtherListKept(s: State, id: string, d: Delivery, m: string)
    requires id in s.workers && m in s.workers && m in s.migrations && m != id && Listed(s, m)
    ensures m in Advanced(s, id, d).workers && m in Advanced(s, id, d).migrations && Listed(Advanced(s, id, d), m)
  {
    AdvanceLeavesOther(s, id, d, m);
    ListedAfter(s, id, d, m, s.migrations[m].instance);
    hide Advanced;
  }

  lemma ListsKept(s: State, id: string, d: Delivery)
    requires WorkersOk(s) && id in s.workers
    requires s.workers.Keys == s.migrations.Keys
    requires forall m | m in s.migrations :: Listed(s, m)
    ensures var s' := Advanced(s, id, d);
            s'.workers.Keys == s'.migrations.Keys && forall m | m in s'.migrations :: Listed(s', m)
  {
    DomainsKept(s, id, d);
    hide Advanced, Listed, WorkersOk;
    forall m | m in s.migrations
      ensures Listed(Advanced(s, id, d), m)
    {
      if m == id {
        OwnListKept(s, id, d);
      } else {
        OtherListKept(s, id, d, m);
      }
    }
  }

  lemma DomainsKept(s: State, id: string, d: Delivery)
    requires id in s.workers
    ensures var s' := Advanced(s, id, d);
            && s'.relocations.Keys == s.relocations.Keys && s'.instances.Keys == s.instances.Keys
            && s'.workers.Keys == s.workers.Keys && s'.migrations.Keys == s.migrations.Keys
  {
  }

  lemma HistoryKept(home: map<string, string>, s: State, id: string, d: Delivery)
    requires HistoryOk(home, s) && WorkersOk(s) && id in s.workers
    ensures HistoryOk(home, Advanced(s, id, d))
  {
    DomainsKept(s, id, d);
    ListsKept(s, id, d);
    WorkerMatches(s, id);
    OwnKept(s, id, d);
    NodesFromHistoryKept(home, s, id, d);
  }

  lemma StepKeeps(home: map<string, string>, s: State, e: Step)
    requires Inv(home, s)
    ensures Inv(home, Next(s, e))
  {
    hide Housed, WorkersOk, Exclusive, HistoryOk, Admissible, Admitted, Advanced;
    match e
    case Admit(_, _, _, _, _) =>
      if Admissible(s, e) {
        AdmitKeepsWorkers(s, e);
        AdmitKeepsHistory(home, s, e);
        AdmitKeepsOrder(s, e);
      }
    case Advance(id, d) =>
      if id in s.workers {
        HousedKept(s, id, d);
        WorkersKept(s, id, d);
        ExclusiveKept(s, id, d);
        HistoryKept(home, s, id, d);
      }
  }

  function HomeOf(s: State): map<string, string> {
    map i | i in s.instances :: s.instances[i].node
  }

  lemma {:induction false} RunKeeps(s: State, steps: seq<Step>)
    requires AtRest(s)
    ensures Inv(HomeOf(s), Run(s, steps))
  {
    if steps == [] {
      assert Inv(HomeOf(s), s);
    } else {
      RunKeeps(s, steps[..|steps| - 1]);
      StepKeeps(HomeOf(s), Run(s, steps[..|steps| - 1]), steps[|steps| - 1]);
    }
  }

  lemma {:induction false} RunKeepsNames(s: State, steps: seq<Step>)
    ensures Run(s, steps).instances.Keys == s.instances.Keys
    ensures forall i | i in s.instances :: Run(s, steps).instances[i].name == s.instances[i].name
  {
    if steps != [] {
      RunKeepsNames(s, steps[..|steps| - 1]);
    }
  }

  /**
   No schedule of migrations, whatever commands fail or act without being reported, loses a workload: at
   every point of the run each record names a node whose driver holds the instance.
   */
  lemma NoWorkloadIsLost(s: State, steps: seq<Step>)
    requires AtRest(s)
    ensures var t := Run(s, steps);
            && t.instances.Keys == s.instances.Keys
            && forall i | i in s.instances :: Holds(t.drivers, t.instances[i].node, s.instances[i].name)
  {
    RunKeeps(s, steps);
    RunKeepsNames(s, steps);
  }

  lemma ListedReads(t: State, m: string)
    requires WorkersOk(t) && m in t.migrations && m in t.workers && Listed(t, m)
    ensures var i := t.migrations[m].instance;
            m in t.relocations[i] ==> t.migrations[m].status.Verifying? || t.migrations[m].status.Completed?
  {
    assert WorkerOk(t, m);
  }

  lemma HistoryReads(home: map<string, string>, t: State, i: string, m: string)
    requires WorkersOk(t) && HistoryOk(home, t) && i in t.relocations && m in t.relocations[i]
    ensures m in t.migrations && t.migrations[m].instance == i
    ensures t.migrations[m].status.Verifying? || t.migrations[m].status.Completed?
  {
    assert Own(t, i);
    ListedReads(t, m);
  }

  /**
   A record's node is the destination of the last migration in its history, or its first node. The history
   holds every completed migration, none that rolled back, and otherwise only the one being completed.
   */
  lemma NodeIsLastDestination(s: State, steps: seq<Step>, i: string)
    requires AtRest(s) && i in s.instances
    ensures var t := Run(s, steps);
            && i in t.relocations && i in t.instances
            && var moves := t.relocations[i];
            && (forall m | m in moves :: m in t.migrations && t.migrations[m].instance == i
                                         && (t.migrations[m].status.Verifying? || t.migrations[m].status.Completed?))
            && (forall m | m in t.migrations && t.migrations[m].instance == i && t.migrations[m].status.Completed? ::
                  m in moves)
            && t.instances[i].node ==
               if moves == [] then s.instances[i].node else t.migrations[moves[|moves| - 1]].dest
  {
    RunKeeps(s, steps);
    RunKeepsNames(s, steps);
    var t := Run(s, steps);
    assert NodeFromHistory(HomeOf(s), t, i);
    forall m | m in t.relocations[i]
      ensures m in t.migrations && t.migrations[m].instance == i
      ensures t.migrations[m].status.Verifying? || t.migrations[m].status.Completed?
    {
      HistoryReads(HomeOf(s), t, i, m);
    }
    forall m | m in t.migrations && t.migrations[m].instance == i && t.migrations[m].status.Completed?
      ensures m in t.relocations[i]
    {
      assert Listed(t, m);
    }
  }

  lemma OnlyCompleteCompletes(s: State, id: string, d: Delivery, m: string)
    requires WorkersOk(s) && id in s.workers && m in s.migrations && m in s.workers
    requires !s.migrations[m].status.Completed? && Advanced(s, id, d).migrations[m].status.Completed?
    ensures m == id && s.workers[m].phase.AtComplete?
  {
  }

  lemma CompleteIsAtDestination(s: State, m: string, d: Delivery)
    requires WorkersOk(s) && m in s.workers && s.workers[m].phase.AtComplete?
    ensures var t := Advanced(s, m, d);
            && s.workers[m].order.instance in t.instances
            && t.instances[s.workers[m].order.instance].node == s.workers[m].order.dest
            && HoldsPowered(t.drivers, s.workers[m])
  {
    assert WorkerOk(s, m);
  }

  /** The step that completes a migration leaves the record at the destination, which runs the workload if it ran. */
  lemma CompletionIsAtDestination(s: State, steps: seq<Step>, e: Step, m: string)
    requires AtRest(s)
    requires var t := Run(s, steps);
             m in t.migrations && !t.migrations[m].status.Completed?
             && m in Next(t, e).migrations && Next(t, e).migrations[m].status.Completed?
    ensures var t, t' := Run(s, steps), Next(Run(s, steps), e);
            && m in t.workers
            && t.workers[m].order.instance in t'.instances
            && t'.instances[t.workers[m].order.instance].node == t.workers[m].order.dest
            && HoldsPowered(t'.drivers, t.workers[m])
  {
    RunKeeps(s, steps);
    if e.Advance? {
      OnlyCompleteCompletes(Run(s, steps), e.id, e.delivery, m);
      CompleteIsAtDestination(Run(s, steps), m, e.delivery);
    }
  }

  datatype MigrateError = InstanceNotFound | InProgress | SchedulingFailed | SameNode | PreflightFailed

  /** The stores the migration service drives, and the nodes it commands, each with a driver of its own. */
  class ControlPlane {
    const drivers: map<string, Driver>
    var instances: map<string, Instance>
    var migrations: map<string, Record>

    constructor (drivers: map<string, Driver>, instances: map<string, Instance>)
      requires forall m, n | m in drivers && n in drivers && m != n :: drivers[m] != drivers[n]
      ensures this.drivers == drivers && this.instances == instances && migrations == map[] && Apart()
    {
      this.drivers, this.instances, migrations := drivers, instances, map[];
    }

    ghost predicate Apart() {
      forall m, n | m in drivers && n in drivers && m != n :: drivers[m] != drivers[n]
    }

    ghost function Tables(): map<string, Table>
      reads drivers.Values
    {
      map n | n in drivers :: drivers[n].instances
    }

    ghost predicate Shows(s: State)
      reads this, drivers.Values
    {
      Apart() && Tables() == s.drivers && instances == s.instances && migrations == s.migrations
    }

    method GetActiveForInstance(instance: string) returns (active: Option<string>)
      ensures active.Some? <==> HasActive(migrations, instance)
      ensures active.Some? ==> active.value in migrations && migrations[active.value].instance == instance
                               && !IsTerminal(migrations[active.value].status)
    {
      var rest := migrations.Keys;
      while rest != {}
        invariant rest <= migrations.Keys
        invariant forall m | m in migrations && m !in rest ::
            migrations[m].instance != instance || IsTerminal(migrations[m].status)
        decreases |rest|
      {
        var m :| m in rest;
        if migrations[m].instance == instance && !IsTerminal(migrations[m].status) {
          return Some(m);
        }
        rest := rest - {m};
      }
      active := None;
    }

    /** The error of a refused admission, checks in the order the service makes them. */
    ghost function Refusal(instance: string, target: Option<string>, preflightPassed: bool): Option<MigrateError>
      reads this
    {
      if instance !in instances then Some(InstanceNotFound)
      else if HasActive(migrations, instance) then Some(InProgress)
      else if target.None? then Some(SchedulingFailed)
      else if target.value == instances[instance].node then Some(SameNode)
      else if !preflightPassed then Some(PreflightFailed)
      else None
    }

    /** Admission. With no destination asked for, the scheduler's choice is used. */
    method Migrate(id: string, instance: string, destination: string, scheduled: Option<string>,
                   kind: MigrationType, preflightPassed: bool)
      returns (r: Result<Record, MigrateError>)
      requires id !in migrations && Apart()
      modifies this
      ensures var target := if destination != "" then Some(destination) else scheduled;
              match old(Refusal(instance, target, preflightPassed))
              case Some(error) => r == Failure(error)
              case None => r.Success? && r.value.dest == target.value
      ensures r.Success? ==>
                forall s: State | s.instances == old(instances) && s.migrations == old(migrations)
                  && s.drivers == Tables() ::
                  var e := Admit(id, instance, r.value.dest, kind, true);
                  Admissible(s, e) && Shows(Next(s, e))
      ensures r.Failure? ==> unchanged(this)
      ensures r == Failure(InstanceNotFound) <==> instance !in old(instances)
      ensures r == Failure(InProgress) <==>
              && instance in old(instances)
              && exists m :: m in old(migrations) && old(migrations)[m].instance == instance
                             && !old(migrations)[m].status.Completed? && !old(migrations)[m].status.RolledBack?
      ensures r == Failure(SchedulingFailed) ==> destination == "" && scheduled.None?
      ensures r == Failure(SameNode) ==>
                && instance in old(instances)
                && (if destination != "" then Some(destination) else scheduled) == Some(old(instances)[instance].node)
      ensures r == Failure(PreflightFailed) ==> !preflightPassed
    {
      if instance !in instances {
        return Failure(InstanceNotFound);
      }
      var active := GetActiveForInstance(instance);
      if active.Some? {
        return Failure(InProgress);
      }
      var dest := destination;
      if dest == "" {
        if scheduled.None? {
          return Failure(SchedulingFailed);
        }
        dest := scheduled.value;
      }
      if dest == instances[instance].node {
        return Failure(SameNode);
      }
      if !preflightPassed {
        return Failure(PreflightFailed);
      }
      var record := Record(instance, instances[instance].node, dest, kind, Reserving, 0);
      migrations := migrations[id := record];
      r := Success(record);
    }

    method SendCommand(node: string, c: Command, d: Delivery) returns (ok: bool)
      requires Apart()
      modifies drivers.Values
      ensures (Tables(), ok) == Send(old(Tables()), node, c, d)
    {
      if d.Undelivered? || node !in drivers {
        return false;
      }
      var err := drivers[node].Perform(c);
      ok := d.reported && err.None?;
      assert Tables() == old(Tables())[node := Execute(old(Tables())[node], c).0];
    }

    /** The stores are those of s, in which the worker of migration id is w. */
    ghost predicate Tracks(s: State, id: string, w: Worker)
      reads this, drivers.Values
    {
      Shows(s) && id in s.workers && s.workers[id] == w && id in migrations
    }

    /** A status or progress update of the migration record, as the phase of the worker asks for. */
    method Update(id: string, status: Option<MigrationStatus>, progress: int, ghost w: Worker, ghost s: State)
      requires id in migrations && id in s.workers
      requires Tracks(s, id, w) && CommandAt(w).None? && !w.phase.AtRelocate? && !w.phase.AtMarkRunning?
      requires RecordAfter(migrations[id], w.phase) ==
               migrations[id].(status := if status.Some? then status.value else migrations[id].status,
                               progress := progress)
      modifies this`migrations
      ensures id in migrations && id in Advanced(s, id, Undelivered).workers
      ensures Tracks(Advanced(s, id, Undelivered), id, w.(phase := NextPhase(w.phase, true)))
    {
      if status.Some? {
        migrations := migrations[id := migrations[id].(status := status.value)];
      }
      migrations := migrations[id := migrations[id].(progress := progress)];
    }

    /** The command of the worker's phase, sent only when the phase has one. */
    method Dispatch(id: string, node: string, c: Command, wanted: bool, d: Delivery, ghost w: Worker, ghost s: State)
      returns (ok: bool)
      requires id in migrations && id in s.workers
      requires Tracks(s, id, w) && w.phase in {AtStop, AtCreate, AtRestart, AtCleanup}
      requires CommandAt(w) == if wanted then Some((node, c)) else None
      modifies drivers.Values
      ensures id in migrations && id in Advanced(s, id, d).workers
      ensures Tracks(Advanced(s, id, d), id, w.(phase := NextPhase(w.phase, ok)))
    {
      ok := true;
      if wanted {
        ok := SendCommand(node, c, d);
      }
    }

    /** The instance store's update: an unknown instance is an error and changes nothing. */
    method UpdateNodeID(instance: string, node: string) returns (ok: bool)
      modifies this`instances
      ensures ok <==> instance in old(instances)
      ensures instances == if ok then old(instances)[instance := old(instances)[instance].(node := node)]
              else old(instances)
    {
      ok := instance in instances;
      if ok {
        instances := instances[instance := instances[instance].(node := node)];
      }
    }

    method Relocate(id: string, instance: string, node: string, ghost w: Worker, ghost s: State)
      requires id in migrations && id in s.workers
      requires Tracks(s, id, w) && w.phase.AtRelocate? && instance == w.order.instance && node == w.order.dest
      modifies this`instances
      ensures id in migrations && id in Advanced(s, id, Undelivered).workers
      ensures Tracks(Advanced(s, id, Undelivered), id, w.(phase := AtMarkRunning))
    {
      var _ := UpdateNodeID(instance, node);
    }

    method MarkRunning(id: string, instance: string, wasRunning: bool, ghost w: Worker, ghost s: State)
      requires id in migrations && id in s.workers
      requires Tracks(s, id, w) && w.phase.AtMarkRunning? && instance == w.order.instance && wasRunning == w.wasRunning
      modifies this`instances
      ensures id in migrations && id in Advanced(s, id, Undelivered).workers
      ensures Tracks(Advanced(s, id, Undelivered), id, w.(phase := AtCleanup))
    {
      if wasRunning && instance in instances {
        instances := instances[instance := instances[instance].(status := InstanceStatus.Running)];
      }
    }

    /** Up to the create at the destination. */
    method Transfer(id: string, m: Record, name: string, wasRunning: bool, stop: Delivery, create: Delivery,
                    ghost s: State)
      returns (created: bool)
      requires id in migrations && id in s.workers
      requires Tracks(s, id, Worker(m, name, wasRunning, AtTransferring))
      modifies this, drivers.Values
      ensures id in migrations
      ensures Tracks(Transferred(s, id, stop, create), id,
                     Worker(m, name, wasRunning, if created then AtVerifying else AtRollBack))
    {
      hide Advanced, Tracks;
      ghost var w, t := Worker(m, name, wasRunning, AtTransferring), s;
      Update(id, Some(Transferring), 20, w, t);
      w, t := w.(phase := AtStop), Advanced(t, id, Undelivered);
      var _ := Dispatch(id, m.source, Command.StopInstance(name), m.kind.Cold? && wasRunning, stop, w, t);
      w, t := w.(phase := AtProgress), Advanced(t, id, stop);
      Update(id, None, 50, w, t);
      w, t := w.(phase := AtCreate), Advanced(t, id, Undelivered);
      created := Dispatch(id, m.dest, Command.CreateInstance(name, wasRunning), true, create, w, t);
    }

    method RollBack(id: string, m: Record, name: string, wasRunning: bool, restart: Delivery, ghost s: State)
      requires id in migrations && id in s.workers
      requires Tracks(s, id, Worker(m, name, wasRunning, AtRollBack))
      modifies this, drivers.Values
      ensures Tracks(BackedOut(s, id, restart), id, Worker(m, name, wasRunning, Done))
    {
      hide Advanced, Tracks;
      ghost var w := Worker(m, name, wasRunning, AtRollBack);
      Update(id, Some(RolledBack), 0, w, s);
      var _ := Dispatch(id, m.source, Command.StartInstance(name), wasRunning, restart,
                        w.(phase := AtRestart), Advanced(s, id, Undelivered));
    }

    method Finish(id: string, m: Record, name: string, wasRunning: bool, cleanup: Delivery, ghost s: State)
      requires id in migrations && id in s.workers
      requires Tracks(s, id, Worker(m, name, wasRunning, AtVerifying))
      modifies this, drivers.Values
      ensures Tracks(Finished(s, id, cleanup), id, Worker(m, name, wasRunning, Done))
    {
      hide Advanced, Tracks;
      ghost var w, t := Worker(m, name, wasRunning, AtVerifying), s;
      Update(id, Some(Verifying), 80, w, t);
      w, t := w.(phase := AtRelocate), Advanced(t, id, Undelivered);
      Relocate(id, m.instance, m.dest, w, t);
      w, t := w.(phase := AtMarkRunning), Advanced(t, id, Undelivered);
      MarkRunning(id, m.instance, wasRunning, w, t);
      w, t := w.(phase := AtCleanup), Advanced(t, id, Undelivered);
      var _ := Dispatch(id, m.source, Command.DeleteInstance(name), true, cleanup, w, t);
      w, t := w.(phase := AtComplete), Advanced(t, id, cleanup);
      Update(id, Some(Completed), 100, w, t);
    }

    /**
     The body of the migration goroutine, run without interruption: for every fate of its four commands it
     goes through the states that the labelled steps of its worker go through.
     */
    method ExecuteMigration(id: string, m: Record, name: string, wasRunning: bool,
                            stop: Delivery, create: Delivery, restart: Delivery, cleanup: Delivery, ghost s: State)
      requires Tracks(s, id, Worker(m, name, wasRunning, AtTransferring))
      modifies this, drivers.Values
      ensures Shows(Solo(s, id, stop, create, restart, cleanup))
    {
      hide Advanced;
      var created := Transfer(id, m, name, wasRunning, stop, create, s);
      if !created {
        RollBack(id, m, name, wasRunning, restart, Transferred(s, id, stop, create));
      } else {
        Finish(id, m, name, wasRunning, cleanup, Transferred(s, id, stop, create));
      }
    }
  }

  function Transferred(s: State, id: string, stop: Delivery, create: Delivery): State
    requires id in s.workers
  {
    Advanced(Advanced(Advanced(Advanced(s, id, Undelivered), id, stop), id, Undelivered), id, create)
  }

  function BackedOut(s: State, id: string, restart: Delivery): State
    requires id in s.workers
  {
    Advanced(Advanced(s, id, Undelivered), id, restart)
  }

  function Finished(s: State, id: string, cleanup: Delivery): State
    requires id in s.workers
  {
    Advanced(Advanced(Advanced(Advanced(Advanced(s, id, Undelivered), id, Undelivered), id, Undelivered), id, cleanup),
             id, Undelivered)
  }

  /** The steps of one worker from start to end, with no other step in between. */
  function Solo(s: State, id: string, stop: Delivery, create: Delivery, restart: Delivery, cleanup: Delivery): State
    requires id in s.workers
  {
    var t := Transferred(s, id, stop, create);
    if t.workers[id].phase.AtRollBack? then BackedOut(t, id, restart) else Finished(t, id, cleanup)
  }

  lemma Extend(s: State, steps: seq<Step>, id: string, d: Delivery) returns (more: seq<Step>)
    requires id in Run(s, steps).workers
    ensures Run(s, more) == Advanced(Run(s, steps), id, d)
  {
    more := steps + [Advance(id, d)];
    assert more[..|more| - 1] == steps;
  }

  /** An uninterrupted execution is one of the schedules the run theorems speak of. */
  lemma SoloIsASchedule(s: State, id: string, stop: Delivery, create: Delivery, restart: Delivery, cleanup: Delivery)
    returns (steps: seq<Step>)
    requires id in s.workers
    ensures Run(s, steps) == Solo(s, id, stop, create, restart, cleanup)
  {
    steps := Extend(s, [], id, Undelivered);
    steps := Extend(s, steps, id, stop);
    steps := Extend(s, steps, id, Undelivered);
    steps := Extend(s, steps, id, create);
    steps := Extend(s, steps, id, Undelivered);
    if Transferred(s, id, stop, create).workers[id].phase.AtRollBack? {
      steps := Extend(s, steps, id, restart);
    } else {
      steps := Extend(s, steps, id, Undelivered);
      steps := Extend(s, steps, id, Undelivered);
      steps := Extend(s, steps, id, cleanup);
      steps := Extend(s, steps, id, Undelivered);
    }
  }

  /**
   A migration that rolls back leaves every record as it was, its source still holding the instance, and,
   when the restart is delivered, running it if it ran before.
   */
  lemma RollBackRestores(home: map<string, string>, s: State, id: string,
                         stop: Delivery, create: Delivery, restart: Delivery, cleanup: Delivery)
    requires Inv(home, s) && id in s.workers && s.workers[id].phase.AtTransferring?
    requires Transferred(s, id, stop, create).workers[id].phase.AtRollBack?
    ensures var t, w := Solo(s, id, stop, create, restart, cleanup), s.workers[id];
            && t.instances == s.instances
            && t.migrations[id].status.RolledBack?
            && Holds(t.drivers, w.order.source, w.name)
            && (w.wasRunning && restart.Delivered? ==> t.drivers[w.order.source][w.name] == On)
  {
    hide Advanced, Transferred, Finished, BackedOut;
    StartsHeld(home, s, id);
    hide Inv, Holds;
    var t := Transferred(s, id, stop, create);
    TransferLeaves(s, id, stop, create);
    BackOutRestores(t, id, restart);
  }

  lemma BackOutRestores(s: State, id: string, restart: Delivery)
    requires id in s.workers && id in s.migrations && s.workers[id].phase.AtRollBack?
    requires Holds(s.drivers, s.workers[id].order.source, s.workers[id].name)
    ensures var t, w := BackedOut(s, id, restart), s.workers[id];
            && t.instances == s.instances
            && id in t.migrations && t.migrations[id].status.RolledBack?
            && Holds(t.drivers, w.order.source, w.name)
            && (w.wasRunning && restart.Delivered? ==> t.drivers[w.order.source][w.name] == On)
  {
    var t := Advanced(s, id, Undelivered);
    hide Advanced;
    StoreStep(s, id, Undelivered, AtRollBack);
    StoreStep(t, id, restart, AtRestart);
  }

  lemma StartsHeld(home: map<string, string>, s: State, id: string)
    requires Inv(home, s) && id in s.workers && s.workers[id].phase.AtTransferring?
    ensures id in s.migrations && Holds(s.drivers, s.workers[id].order.source, s.workers[id].name)
  {
    assert WorkerOk(s, id);
  }

  lemma TransferLeaves(s: State, id: string, stop: Delivery, create: Delivery)
    requires id in s.workers && id in s.migrations && s.workers[id].phase.AtTransferring?
    requires Holds(s.drivers, s.workers[id].order.source, s.workers[id].name)
    ensures var t, w := Transferred(s, id, stop, create), s.workers[id];
            && t.instances == s.instances && id in t.migrations
            && t.workers == s.workers[id := w.(phase := t.workers[id].phase)]
            && Holds(t.drivers, w.order.source, w.name)
  {
    var t1 := Advanced(s, id, Undelivered);
    var t2 := Advanced(t1, id, stop);
    var t3 := Advanced(t2, id, Undelivered);
    hide Advanced, Holds;
    StoreStep(s, id, Undelivered, AtTransferring);
    StoreStep(t1, id, stop, AtStop);
    StoreStep(t2, id, Undelivered, AtProgress);
    StoreStep(t3, id, create, AtCreate);
  }

  /**
   In any interleaving: at the restart of a roll-back whose record still names the source, the source holds the
   instance, and the restart leaves it so, running if it ran before and the command is delivered.
   */
  lemma RestartRestores(s: State, steps: seq<Step>, m: string, d: Delivery)
    requires AtRest(s)
    requires var t := Run(s, steps);
             && m in t.workers && t.workers[m].phase.AtRestart?
             && t.workers[m].order.instance in t.instances
             && t.instances[t.workers[m].order.instance].node == t.workers[m].order.source
    ensures var t, w := Run(s, steps), Run(s, steps).workers[m];
            var u := Next(t, Advance(m, d));
            && u.instances == t.instances
            && m in u.migrations && u.migrations[m].status.RolledBack?
            && Holds(u.drivers, w.order.source, w.name)
            && (w.wasRunning && d.Delivered? ==> u.drivers[w.order.source][w.name] == On)
  {
    RunKeeps(s, steps);
    var t := Run(s, steps);
    assert WorkerOk(t, m);
    hide Run, Inv, WorkersOk, HistoryOk, Exclusive, WorkerOk, Advanced;
    StoreStep(t, m, d, AtRestart);
  }

  /** What a step before the relocation leaves alone: the records, and the source's hold on the instance. */
  lemma StoreStep(s: State, id: string, d: Delivery, p: Phase)
    requires id in s.workers && id in s.migrations && s.workers[id].phase == p
    requires p in {AtTransferring, AtStop, AtProgress, AtCreate, AtRollBack, AtRestart}
    requires var w := s.workers[id];
             Holds(s.drivers, w.order.source, w.name)
    ensures var t, w := Advanced(s, id, d), s.workers[id];
            && t.instances == s.instances
            && id in t.migrations
            && (p.AtRestart? || t.workers == s.workers[id := w.(phase := t.workers[id].phase)])
            && (p.AtCreate? || t.workers[id].phase == NextPhase(p, true))
            && (p.AtRollBack? ==> t.migrations[id].status.RolledBack?)
            && (p.AtRestart? ==> t.migrations[id].status == s.migrations[id].status)
            && Holds(t.drivers, w.order.source, w.name)
            && (p.AtRestart? && w.wasRunning && d.Delivered? ==> t.drivers[w.order.source][w.name] == On)
  {
    var w := s.workers[id];
    DriversKept(s.drivers, w, d, w.order.source, w.name);
  }
}
