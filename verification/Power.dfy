/** Where a workload is powered on: what each step of a migration sends, and what that makes of a whole run. */
module Power {
  import opened Wrappers
  import opened Domain
  import opened SimulatedDriver
  import opened Migration
  import opened Copies

  // ---- One step ----

  function WithPower(drivers: map<string, Table>, node: string, name: string, p: Power): map<string, Table>
    requires node in drivers
  {
    drivers[node := drivers[node][name := p]]
  }

  /**
   What a step sends, told by the drivers it leaves. A running workload is stopped at its source by a cold migration
   and by no other; it is created at the destination powered as it was; a rolled-back migration starts it at the
   source if it ran; a completing one deletes it there. A command that does not arrive, or that the driver refuses,
   changes nothing, and no other step sends any.
   */
  lemma StepActs(t: State, m: string, d: Delivery)
    requires m in t.workers
    ensures var w, u := t.workers[m], Next(t, Advance(m, d));
            var source, dest := w.order.source, w.order.dest;
            match w.phase
            case AtStop =>
              u.drivers == if w.order.kind.Cold? && w.wasRunning && d.Delivered? && Holds(t.drivers, source, w.name)
                           then WithPower(t.drivers, source, w.name, Off) else t.drivers
            case AtCreate =>
              u.drivers == if d.Delivered? && dest in t.drivers && w.name !in t.drivers[dest]
                           then WithPower(t.drivers, dest, w.name, if w.wasRunning then On else Off) else t.drivers
            case AtRestart =>
              u.drivers == if w.wasRunning && d.Delivered? && Holds(t.drivers, source, w.name)
                           then WithPower(t.drivers, source, w.name, On) else t.drivers
            case AtCleanup =>
              u.drivers == if d.Delivered? && Holds(t.drivers, source, w.name)
                           then t.drivers[source := t.drivers[source] - {w.name}] else t.drivers
            case _ => u.drivers == t.drivers
  {
    var w := t.workers[m];
    match CommandAt(w)
    case None =>
    case Some((node, c)) =>
      if node in t.drivers {
        Same(t.drivers, node, w.name);
      }
  }

  /** Writing back what is there changes nothing. */
  lemma Same(drivers: map<string, Table>, node: string, name: string)
    requires node in drivers
    ensures drivers[node := drivers[node]] == drivers
    ensures name in drivers[node] ==> WithPower(drivers, node, name, drivers[node][name]) == drivers
  {
    if name in drivers[node] {
      assert drivers[node][name := drivers[node][name]] == drivers[node];
    }
  }

  /** The migration goes on after its create exactly when the create made the copy and the node reported it. */
  lemma CreateDecides(t: State, m: string, d: Delivery)
    requires m in t.workers && t.workers[m].phase.AtCreate?
    ensures var w, u := t.workers[m], Next(t, Advance(m, d));
            && m in u.workers
            && u.workers[m].phase ==
               if d.Delivered? && d.reported && w.order.dest in t.drivers && w.name !in t.drivers[w.order.dest]
               then AtVerifying else AtRollBack
  {
  }

  /** The instance's record is moved to the destination, and set running again if it ran; no other step writes it. */
  lemma StepRecords(t: State, m: string, d: Delivery)
    requires m in t.workers && t.workers[m].order.instance in t.instances
    ensures var w, u := t.workers[m], Next(t, Advance(m, d));
            var i := w.order.instance;
            match w.phase
            case AtRelocate => u.instances == t.instances[i := t.instances[i].(node := w.order.dest)]
            case AtMarkRunning =>
              u.instances == if w.wasRunning
                             then t.instances[i := t.instances[i].(status := InstanceStatus.Running)] else t.instances
            case _ => u.instances == t.instances
  {
    var i := t.workers[m].order.instance;
    assert t.instances[i := t.instances[i]] == t.instances;
    hide Dispatched;
  }

  /**
   A request is admitted exactly when its identifier is fresh, the instance known and without a migration that is
   neither completed nor rolled back, the node another one, and the preflight passed. Its worker then starts from what
   the record says at that time.
   */
  lemma AdmissionIs(t: State, id: string, i: string, dest: string, kind: MigrationType, passed: bool)
    requires t.workers.Keys == t.migrations.Keys
    ensures var u := Next(t, Admit(id, i, dest, kind, passed));
            if && id !in t.migrations && i in t.instances && dest != t.instances[i].node && passed
               && forall m | m in t.migrations && t.migrations[m].instance == i ::
                    t.migrations[m].status.Completed? || t.migrations[m].status.RolledBack?
            then
              var inst := t.instances[i];
              var order := Record(i, inst.node, dest, kind, Reserving, 0);
              && u.migrations == t.migrations[id := order]
              && u.workers == t.workers[id := Worker(order, inst.name, inst.status.Running?, AtTransferring)]
              && u.drivers == t.drivers && u.instances == t.instances
            else u == t
  {
    var e := Admit(id, i, dest, kind, passed);
    if HasActive(t.migrations, i) {
      var m :| m in t.migrations && t.migrations[m].instance == i && !IsTerminal(t.migrations[m].status);
      assert !(t.migrations[m].status.Completed? || t.migrations[m].status.RolledBack?);
    }
    hide HasActive;
    assert Admissible(t, e) ==> t.instances[i] == t.instances[e.instance];
  }

  // ---- Runs ----

  /** How far a worker has come. */
  function Rank(p: Phase): nat {
    match p
    case AtTransferring => 0
    case AtStop => 1
    case AtProgress => 2
    case AtCreate => 3
    case AtRollBack => 4
    case AtVerifying => 5
    case AtRelocate => 6
    case AtMarkRunning => 7
    case AtCleanup => 8
    case AtComplete => 9
    case AtRestart => 10
    case Done => 11
  }

  /** Whether a worker at p can be at q later. */
  predicate Leads(p: Phase, q: Phase) {
    Rank(p) <= Rank(q) && (p.AtRollBack? || p.AtRestart? ==> q in {AtRollBack, AtRestart, Done})
  }

  /** The same worker, as far or further. */
  predicate Proceeds(t: State, u: State, m: string) {
    && m in t.workers && m in u.workers
    && u.workers[m] == t.workers[m].(phase := u.workers[m].phase)
    && Leads(t.workers[m].phase, u.workers[m].phase)
  }

  lemma StepProceeds(t: State, e: Step, m: string)
    requires t.workers.Keys == t.migrations.Keys && m in t.workers
    ensures Proceeds(t, Next(t, e), m)
  {
    hide Dispatched;
  }

  lemma ProceedsOn(t: State, u: State, v: State, m: string)
    ensures m in t.workers ==> Proceeds(t, t, m)
    ensures Proceeds(t, u, m) && Proceeds(u, v, m) ==> Proceeds(t, v, m)
  {
  }

  /** A worker keeps its order, and never goes back. */
  lemma {:induction false} ProceedsInRun(s: State, steps: seq<Step>, n: nat, m: string)
    requires AtRest(s) && n <= |steps| && m in Run(s, steps[..n]).workers
    ensures Proceeds(Run(s, steps[..n]), Run(s, steps), m)
    decreases |steps|
  {
    hide *;
    ProceedsOn(Run(s, steps[..n]), Run(s, steps[..n]), Run(s, steps), m);
    if n == |steps| {
      assert steps[..n] == steps;
    } else {
      var before := steps[..|steps| - 1];
      assert before[..n] == steps[..n];
      ProceedsInRun(s, before, n, m);
      ProceedsHolds(Run(s, steps[..n]), Run(s, before), m);
      RunLast(s, steps);
      StepProceeds(Run(s, before), steps[|before|], m);
      ProceedsOn(Run(s, steps[..n]), Run(s, before), Run(s, steps), m);
    }
  }

  lemma ProceedsHolds(t: State, u: State, m: string)
    requires Proceeds(t, u, m)
    ensures m in u.workers
  {
  }

  lemma WorkerProceeds(s: State, steps: seq<Step>, n: nat, m: string)
    requires AtRest(s) && n <= |steps| && m in Run(s, steps[..n]).workers
    ensures var t, u := Run(s, steps[..n]), Run(s, steps);
            && m in u.workers
            && u.workers[m] == t.workers[m].(phase := u.workers[m].phase)
            && Leads(t.workers[m].phase, u.workers[m].phase)
  {
    hide Run, AtRest;
    ProceedsInRun(s, steps, n, m);
  }

  /**
   The stretch of a worker in which a node carries its instance undisturbed by it: the source up to the clean-up, but
   for a stop, and the destination once the workload has landed there.
   */
  predicate Carries(w: Worker, node: string) {
    || (node == w.order.source && (if w.order.kind.Cold? && w.wasRunning then 2 else 0) <= Rank(w.phase) <= 8)
    || (node == w.order.dest && 5 <= Rank(w.phase) <= 9)
  }

  /** A restart of a rolled-back migration of instance i that powers it on at a node. */
  predicate Restarts(t: State, e: Step, i: string, node: string) {
    && e.Advance? && e.delivery.Delivered? && e.id in t.workers
    && var w := t.workers[e.id];
    && w.phase.AtRestart? && w.wasRunning && w.order.instance == i && w.order.source == node
  }

  lemma CarriedHere(t: State, strays: set<string>, m: string, node: string)
    requires Housed(t) && WorkersOk(t) && m in t.workers && Carries(t.workers[m], node)
    requires CopiesAre(t, strays, t.workers[m].order.instance)
    ensures Holds(t.drivers, node, t.workers[m].name)
  {
    assert WorkerOk(t, m);
    assert Transit(t.workers[m], node) ==> InTransit(t, t.workers[m].order.instance, node);
    hide WorkersOk, InTransit;
  }

  lemma OrderInstanceIsKnown(s: State, steps: seq<Step>, m: string)
    requires AtRest(s) && m in Run(s, steps).workers
    ensures Run(s, steps).workers[m].order.instance in s.instances
  {
    RunKeeps(s, steps);
    RunKeepsNames(s, steps);
    assert WorkerOk(Run(s, steps), m);
    hide Run, AtRest;
  }

  /** A node that carries an instance holds it. */
  lemma CarriedIsHeld(s: State, steps: seq<Step>, m: string, node: string)
    requires AtRest(s) && m in Run(s, steps).workers && Carries(Run(s, steps).workers[m], node)
    ensures Holds(Run(s, steps).drivers, node, Run(s, steps).workers[m].name)
  {
    OrderInstanceIsKnown(s, steps, m);
    var i := Run(s, steps).workers[m].order.instance;
    CopiesInRun(s, steps, i);
    RunKeeps(s, steps);
    hide Run, Strays, AtRest, Carries, CopiesAre, Housed, WorkersOk, Exclusive, HistoryOk;
    CarriedHere(Run(s, steps), Strays(s, steps, i), m, node);
  }

  /** The power of an instance at a node changes only by the stop and the restart sent there for it. */
  lemma PowerAfter(t: State, id: string, d: Delivery, node: string, name: string)
    requires id in t.workers && Holds(t.drivers, node, name) && Holds(Advanced(t, id, d).drivers, node, name)
    ensures var w, p := t.workers[id], Advanced(t, id, d).drivers[node][name];
            p == if w.name == name && w.order.source == node && w.wasRunning && d.Delivered?
                    && (w.phase.AtRestart? || (w.phase.AtStop? && w.order.kind.Cold?))
                 then (if w.phase.AtStop? then Off else On) else t.drivers[node][name]
  {
    StepActs(t, id, d);
    hide Advanced;
  }

  function PowerAt(t: State, node: string, name: string): Power
    requires Holds(t.drivers, node, name)
  {
    t.drivers[node][name]
  }

  lemma StepPower(t: State, e: Step, m: string, node: string)
    requires Housed(t) && Exclusive(t) && WorkersOk(t) && t.workers.Keys == t.migrations.Keys
    requires m in t.workers && Carries(t.workers[m], node) && Holds(t.drivers, node, t.workers[m].name)
    requires Holds(Next(t, e).drivers, node, t.workers[m].name)
    ensures var w := t.workers[m];
            PowerAt(Next(t, e), node, w.name) ==
            if Restarts(t, e, w.order.instance, node) then On else PowerAt(t, node, w.name)
  {
    if e.Advance? && e.id in t.workers {
      var v, w := t.workers[e.id], t.workers[m];
      PowerAfter(t, e.id, e.delivery, node, w.name);
      assert WorkerOk(t, m) && WorkerOk(t, e.id);
      if e.id != m && v.order.instance == w.order.instance {
        Alone(t, e.id, m);
      }
    }
    hide Advanced, WorkersOk, Exclusive;
  }

  /** Some step from the n-th on restarts instance i at a node. */
  ghost predicate RestartedSince(s: State, steps: seq<Step>, n: nat, i: string, node: string) {
    exists k | n <= k < |steps| :: Restarts(Run(s, steps[..k]), steps[k], i, node)
  }

  lemma RestartedSinceNext(s: State, steps: seq<Step>, n: nat, i: string, node: string)
    requires n < |steps|
    ensures var before := steps[..|steps| - 1];
            RestartedSince(s, steps, n, i, node) <==>
              RestartedSince(s, before, n, i, node) || Restarts(Run(s, before), steps[|before|], i, node)
  {
    hide Run, Restarts;
    var before := steps[..|steps| - 1];
    assert forall k | 0 <= k <= |before| :: before[..k] == steps[..k];
  }

  /** Between two points at which a node carries a worker's instance, only restarts change its power there. */
  lemma {:induction false} PowerSince(s: State, steps: seq<Step>, n: nat, m: string, node: string)
    requires AtRest(s) && n <= |steps| && m in Run(s, steps[..n]).workers && m in Run(s, steps).workers
    requires Carries(Run(s, steps[..n]).workers[m], node) && Carries(Run(s, steps).workers[m], node)
    ensures var t, u, w := Run(s, steps[..n]), Run(s, steps), Run(s, steps).workers[m];
            && Holds(t.drivers, node, w.name) && Holds(u.drivers, node, w.name)
            && PowerAt(u, node, w.name) ==
               if RestartedSince(s, steps, n, w.order.instance, node) then On else PowerAt(t, node, w.name)
    decreases |steps|
  {
    hide AtRest, Next, Restarts, RestartedSince, Carries, Holds, PowerAt, Run, Rank;
    CarriedIsHeld(s, steps, m, node);
    if n == |steps| {
      assert steps[..n] == steps;
      NoRestartYet(s, steps, n, Run(s, steps).workers[m].order.instance, node);
    } else {
      var before := steps[..|steps| - 1];
      assert before[..n] == steps[..n] && steps[..|before|] == before;
      WorkerProceeds(s, before, n, m);
      WorkerProceeds(s, steps, |before|, m);
      CarriesBetween(Run(s, steps[..n]), Run(s, before), Run(s, steps), m, node);
      PowerSince(s, before, n, m, node);
      LastPower(s, steps, m, node);
      RestartedSinceNext(s, steps, n, Run(s, steps).workers[m].order.instance, node);
    }
  }

  lemma RunLast(s: State, steps: seq<Step>)
    requires AtRest(s) && steps != []
    ensures var t := Run(s, steps[..|steps| - 1]);
            && Run(s, steps) == Next(t, steps[|steps| - 1])
            && Housed(t) && Exclusive(t) && WorkersOk(t) && t.workers.Keys == t.migrations.Keys
  {
    RunKeeps(s, steps[..|steps| - 1]);
    hide AtRest, Next, Housed, Exclusive, WorkersOk;
  }

  lemma LastPower(s: State, steps: seq<Step>, m: string, node: string)
    requires AtRest(s) && steps != []
    requires var b, u := Run(s, steps[..|steps| - 1]), Run(s, steps);
             && m in b.workers && Carries(b.workers[m], node) && Holds(b.drivers, node, b.workers[m].name)
             && Holds(u.drivers, node, b.workers[m].name)
    ensures var t, u := Run(s, steps[..|steps| - 1]), Run(s, steps);
            var w := t.workers[m];
            PowerAt(u, node, w.name) ==
            if Restarts(t, steps[|steps| - 1], w.order.instance, node) then On else PowerAt(t, node, w.name)
  {
    hide *;
    RunLast(s, steps);
    StepPower(Run(s, steps[..|steps| - 1]), steps[|steps| - 1], m, node);
  }

  lemma NoRestartYet(s: State, steps: seq<Step>, n: nat, i: string, node: string)
    requires |steps| <= n
    ensures !RestartedSince(s, steps, n, i, node)
  {
  }

  lemma CarriesBetween(t: State, b: State, u: State, m: string, node: string)
    requires m in t.workers && m in b.workers && m in u.workers
    requires b.workers[m] == t.workers[m].(phase := b.workers[m].phase)
    requires u.workers[m] == b.workers[m].(phase := u.workers[m].phase)
    requires Leads(t.workers[m].phase, b.workers[m].phase) && Leads(b.workers[m].phase, u.workers[m].phase)
    requires Carries(t.workers[m], node) && Carries(u.workers[m], node)
    ensures Carries(b.workers[m], node)
  {
  }

  // ---- What runs where ----

  /**
   After its stop is delivered, a cold migration's source holds the workload powered off until the clean-up, exactly as
   long as no earlier migration of it that rolled back to that node restarts it there belatedly.
   */
  lemma ColdSourceIsOff(s: State, steps: seq<Step>, n: nat, m: string)
    requires AtRest(s) && n < |steps| && steps[n].Advance? && steps[n].id == m && steps[n].delivery.Delivered?
    requires m in Run(s, steps[..n]).workers && m in Run(s, steps).workers
    requires var w := Run(s, steps[..n]).workers[m]; w.phase.AtStop? && w.order.kind.Cold? && w.wasRunning
    requires Run(s, steps).workers[m].phase in
             {AtProgress, AtCreate, AtRollBack, AtVerifying, AtRelocate, AtMarkRunning, AtCleanup}
    ensures var u, w := Run(s, steps), Run(s, steps).workers[m];
            && Holds(u.drivers, w.order.source, w.name)
            && (u.drivers[w.order.source][w.name] == On <==>
                RestartedSince(s, steps, n + 1, w.order.instance, w.order.source))
  {
    var t, u := Run(s, steps[..n]), Run(s, steps);
    RunNext(s, steps, n);
    hide Next, AtRest, RestartedSince, Carries;
    StopLeavesOff(s, steps[..n], m, steps[n].delivery);
    WorkerProceeds(s, steps, n, m);
    StoppedCarries(Run(s, steps[..n + 1]).workers[m]);
    StoppedCarries(u.workers[m]);
    hide Run, PowerAt;
    PowerSince(s, steps, n + 1, m, u.workers[m].order.source);
    PowersAre();
  }

  lemma StoppedCarries(w: Worker)
    requires w.phase in {AtProgress, AtCreate, AtRollBack, AtVerifying, AtRelocate, AtMarkRunning, AtCleanup}
    ensures Carries(w, w.order.source)
  {
  }

  /** The step itself: the source's entry is off after a stop that is delivered. */
  lemma StopLeavesOff(s: State, steps: seq<Step>, m: string, d: Delivery)
    requires AtRest(s) && m in Run(s, steps).workers && d.Delivered?
    requires var w := Run(s, steps).workers[m]; w.phase.AtStop? && w.order.kind.Cold? && w.wasRunning
    ensures var t := Run(s, steps);
            var w, u := t.workers[m], Next(t, Advance(m, d));
            && w.order.source in t.drivers
            && u.drivers == t.drivers[w.order.source := t.drivers[w.order.source][w.name := Off]]
            && m in u.workers && u.workers[m] == w.(phase := AtProgress)
  {
    var t := Run(s, steps);
    RunKeeps(s, steps);
    assert WorkerOk(t, m);
    hide Run, AtRest;
    StepActs(t, m, d);
  }

  /** A migration that sends no stop leaves a workload that runs at its source running there until the clean-up. */
  lemma UnstoppedSourceStaysOn(s: State, steps: seq<Step>, n: nat, m: string)
    requires AtRest(s) && n <= |steps| && m in Run(s, steps[..n]).workers && m in Run(s, steps).workers
    requires var w := Run(s, steps[..n]).workers[m];
             && (w.order.kind.Live? || !w.wasRunning)
             && Holds(Run(s, steps[..n]).drivers, w.order.source, w.name)
             && Run(s, steps[..n]).drivers[w.order.source][w.name] == On
    requires Run(s, steps).workers[m].phase !in {AtComplete, AtRestart, Done}
    ensures var u, w := Run(s, steps), Run(s, steps).workers[m];
            Holds(u.drivers, w.order.source, w.name) && u.drivers[w.order.source][w.name] == On
  {
    WorkerProceeds(s, steps, n, m);
    hide Run, AtRest, RestartedSince;
    PowerSince(s, steps, n, m, Run(s, steps).workers[m].order.source);
  }

  lemma CreateLandsAt(t: State, m: string, d: Delivery)
    requires m in t.workers && t.workers[m].phase.AtCreate?
    ensures var w, u := t.workers[m], Next(t, Advance(m, d));
            && m in u.workers && u.workers[m].phase in {AtVerifying, AtRollBack}
            && (u.workers[m].phase.AtVerifying? ==>
                  && u.workers[m] == w.(phase := AtVerifying) && Carries(u.workers[m], w.order.dest)
                  && Holds(u.drivers, w.order.dest, w.name)
                  && PowerAt(u, w.order.dest, w.name) == if w.wasRunning then On else Off)
  {
    CreateDecides(t, m, d);
    StepActs(t, m, d);
  }

  /**
   Once landed, the workload is on at the destination exactly if it ran when the migration was asked for, or such a
   belated restart powers it on there.
   */
  lemma LandedPower(s: State, steps: seq<Step>, n: nat, m: string)
    requires AtRest(s) && n < |steps| && steps[n].Advance? && steps[n].id == m
    requires m in Run(s, steps[..n]).workers && Run(s, steps[..n]).workers[m].phase.AtCreate?
    requires m in Run(s, steps).workers
             && Run(s, steps).workers[m].phase in {AtVerifying, AtRelocate, AtMarkRunning, AtCleanup, AtComplete}
    ensures var u, w := Run(s, steps), Run(s, steps).workers[m];
            && Holds(u.drivers, w.order.dest, w.name)
            && (u.drivers[w.order.dest][w.name] == On <==>
                w.wasRunning || RestartedSince(s, steps, n + 1, w.order.instance, w.order.dest))
  {
    var t, u := Run(s, steps[..n]), Run(s, steps);
    RunNext(s, steps, n);
    WorkerProceeds(s, steps, n, m);
    CreateLandsAt(t, m, steps[n].delivery);
    hide Run, Next, AtRest, RestartedSince, Carries, PowerAt;
    WorkerProceeds(s, steps, n + 1, m);
    LandedCarries(u.workers[m]);
    PowerSince(s, steps, n + 1, m, u.workers[m].order.dest);
    PowersAre();
  }

  lemma LandedCarries(w: Worker)
    requires w.phase in {AtVerifying, AtRelocate, AtMarkRunning, AtCleanup, AtComplete}
    ensures Carries(w, w.order.dest)
  {
  }

  lemma PowersAre()
    ensures forall t: State, node, name | Holds(t.drivers, node, name) ::
              PowerAt(t, node, name) == t.drivers[node][name]
  {
  }

  /**
   So until its clean-up a cold migration with a delivered stop, and no belated restart, never has the workload on at
   two nodes: it is on at no node but the destination, and those that earlier migrations left copies on.
   */
  lemma ColdRunsOnce(s: State, steps: seq<Step>, n: nat, m: string, node: string)
    requires AtRest(s) && n < |steps| && steps[n].Advance? && steps[n].id == m && steps[n].delivery.Delivered?
    requires m in Run(s, steps[..n]).workers && m in Run(s, steps).workers
    requires var w := Run(s, steps[..n]).workers[m]; w.phase.AtStop? && w.order.kind.Cold? && w.wasRunning
    requires Run(s, steps).workers[m].phase in
             {AtProgress, AtCreate, AtRollBack, AtVerifying, AtRelocate, AtMarkRunning, AtCleanup}
    requires var w := Run(s, steps[..n]).workers[m];
             forall k | n < k < |steps| :: !Restarts(Run(s, steps[..k]), steps[k], w.order.instance, w.order.source)
    requires var w := Run(s, steps).workers[m];
             Holds(Run(s, steps).drivers, node, w.name) && Run(s, steps).drivers[node][w.name] == On
    ensures var w := Run(s, steps).workers[m]; node == w.order.dest || node in Strays(s, steps, w.order.instance)
  {
    hide AtRest, Strays, Restarts;
    WorkerProceeds(s, steps, n, m);
    ColdSourceIsOff(s, steps, n, m);
    HeldWhere(s, steps, m, node);
  }

  /** While a migration is under way its workload is held at the source, the destination and by left copies only. */
  lemma HeldWhere(s: State, steps: seq<Step>, m: string, node: string)
    requires AtRest(s) && m in Run(s, steps).workers
    requires StageOf(Run(s, steps).workers[m].phase) in {Outbound, Landing, Moved}
    requires Holds(Run(s, steps).drivers, node, Run(s, steps).workers[m].name)
    ensures var w := Run(s, steps).workers[m];
            node == w.order.source || node == w.order.dest || node in Strays(s, steps, w.order.instance)
  {
    var t, w := Run(s, steps), Run(s, steps).workers[m];
    RunKeeps(s, steps);
    RunKeepsNames(s, steps);
    assert WorkerOk(t, m);
    CopiesInRun(s, steps, w.order.instance);
    TransitIsOwn(t, m, Undelivered, node);
    hide Run, Strays, AtRest, InTransit, Advanced, WorkersOk, Exclusive, Housed, HistoryOk;
  }

  // ---- One migration from start to end ----

  /** What a node holds of an instance. */
  function Entry(drivers: map<string, Table>, node: string, name: string): Option<Power> {
    if Holds(drivers, node, name) then Some(drivers[node][name]) else None
  }

  /** A worker at p, the two entries of its instance, and what it has not touched. */
  ghost predicate Reached(s: State, t: State, id: string, p: Phase, source: Option<Power>, dest: Option<Power>)
    requires id in s.workers
  {
    var w := s.workers[id];
    && id in t.workers && t.workers[id] == w.(phase := p)
    && (w.order.dest in t.drivers <==> w.order.dest in s.drivers)
    && Entry(t.drivers, w.order.source, w.name) == source && Entry(t.drivers, w.order.dest, w.name) == dest
    && t.instances.Keys == s.instances.Keys && t.migrations.Keys == s.migrations.Keys
  }

  lemma EntriesAfter(t: State, id: string, d: Delivery)
    requires id in t.workers && t.workers[id].order.source != t.workers[id].order.dest
    ensures var w, u := t.workers[id], Advanced(t, id, d);
            && (w.order.dest in u.drivers <==> w.order.dest in t.drivers)
            && var was := Entry(t.drivers, w.order.source, w.name);
               Entry(u.drivers, w.order.source, w.name) ==
               (match w.phase
                case AtStop =>
                  if w.order.kind.Cold? && w.wasRunning && d.Delivered? && was.Some? then Some(Off) else was
                case AtRestart => if w.wasRunning && d.Delivered? && was.Some? then Some(On) else was
                case AtCleanup => if d.Delivered? then None else was
                case _ => was)
    ensures var w, u := t.workers[id], Advanced(t, id, d);
            var was := Entry(t.drivers, w.order.dest, w.name);
            Entry(u.drivers, w.order.dest, w.name) ==
            if w.phase.AtCreate? && d.Delivered? && w.order.dest in t.drivers && was.None?
            then Some(if w.wasRunning then On else Off) else was
  {
    StepActs(t, id, d);
    hide Advanced;
  }

  lemma ReachedNext(s: State, t: State, id: string, d: Delivery, p: Phase, source: Option<Power>, dest: Option<Power>)
    requires id in s.workers && s.workers[id].order.source != s.workers[id].order.dest
    requires Reached(s, t, id, p, source, dest) && p != AtCreate
    ensures var w, u := s.workers[id], Advanced(t, id, d);
            Reached(s, u, id, NextPhase(p, true),
                    match p
                    case AtStop =>
                      if w.order.kind.Cold? && w.wasRunning && d.Delivered? && source.Some? then Some(Off) else source
                    case AtRestart => if w.wasRunning && d.Delivered? && source.Some? then Some(On) else source
                    case AtCleanup => if d.Delivered? then None else source
                    case _ => source,
                    dest)
  {
    EntriesAfter(t, id, d);
    StepChangesOne(t, id, d);
    DomainsKept(t, id, d);
    PhaseAfter(t, id, d);
    hide Advanced, Entry, NextPhase;
  }

  lemma PhaseAfter(t: State, id: string, d: Delivery)
    requires id in t.workers
    ensures id in Advanced(t, id, d).workers
    ensures t.workers[id].phase != AtCreate ==>
              Advanced(t, id, d).workers[id] == t.workers[id].(phase := NextPhase(t.workers[id].phase, true))
  {
  }

  lemma ReachedCreated(s: State, t: State, id: string, d: Delivery, source: Option<Power>, dest: Option<Power>)
    requires id in s.workers && s.workers[id].order.source != s.workers[id].order.dest
    requires Reached(s, t, id, AtCreate, source, dest)
    ensures var w, u := s.workers[id], Advanced(t, id, d);
            var made := d.Delivered? && w.order.dest in s.drivers && dest.None?;
            Reached(s, u, id, if made && d.reported then AtVerifying else AtRollBack, source,
                    if made then Some(if w.wasRunning then On else Off) else dest)
  {
    EntriesAfter(t, id, d);
    CreateDecides(t, id, d);
    StepChangesOne(t, id, d);
    DomainsKept(t, id, d);
    WorkerAfter(t, id, d);
    hide Advanced;
  }

  lemma WorkerAfter(t: State, id: string, d: Delivery)
    requires id in t.workers
    ensures var u := Advanced(t, id, d);
            id in u.workers && u.workers[id] == t.workers[id].(phase := u.workers[id].phase)
  {
    hide Dispatched;
  }
  lemma RecordsAfter(t: State, id: string, d: Delivery)
    requires id in t.workers && id in t.migrations && t.workers[id].order.instance in t.instances
    ensures var w, u := t.workers[id], Advanced(t, id, d);
            var i, r := w.order.instance, t.migrations[id];
            && i in u.instances && id in u.migrations
            && u.instances[i] ==
               (match w.phase
                case AtRelocate => t.instances[i].(node := w.order.dest)
                case AtMarkRunning =>
                  if w.wasRunning then t.instances[i].(status := InstanceStatus.Running) else t.instances[i]
                case _ => t.instances[i])
            && u.migrations[id] ==
               match w.phase
               case AtTransferring => r.(status := Transferring, progress := 20)
               case AtProgress => r.(progress := 50)
               case AtVerifying => r.(status := Verifying, progress := 80)
               case AtComplete => r.(status := Completed, progress := 100)
               case AtRollBack => r.(status := RolledBack, progress := 0)
               case _ => r
  {
    hide Dispatched;
  }

  /** The records of a worker's instance and migration. */
  ghost predicate Written(s: State, t: State, id: string, inst: Instance, r: Record)
    requires id in s.workers
  {
    && s.workers[id].order.instance in t.instances && t.instances[s.workers[id].order.instance] == inst
    && id in t.migrations && t.migrations[id] == r
  }

  lemma WrittenNext(s: State, t: State, id: string, d: Delivery, p: Phase, inst: Instance, r: Record,
                    source: Option<Power>, dest: Option<Power>)
    requires id in s.workers && Reached(s, t, id, p, source, dest) && Written(s, t, id, inst, r)
    ensures var w := s.workers[id];
            Written(s, Advanced(t, id, d), id,
                    match p
                    case AtRelocate => inst.(node := w.order.dest)
                    case AtMarkRunning => if w.wasRunning then inst.(status := InstanceStatus.Running) else inst
                    case _ => inst,
                    match p
                    case AtTransferring => r.(status := Transferring, progress := 20)
                    case AtProgress => r.(progress := 50)
                    case AtVerifying => r.(status := Verifying, progress := 80)
                    case AtComplete => r.(status := Completed, progress := 100)
                    case AtRollBack => r.(status := RolledBack, progress := 0)
                    case _ => r)
  {
    RecordsAfter(t, id, d);
    hide Advanced, Entry;
  }

  lemma MorePhases()
    ensures NextPhase(AtVerifying, true) == AtRelocate && NextPhase(AtRelocate, true) == AtMarkRunning
    ensures NextPhase(AtMarkRunning, true) == AtCleanup && NextPhase(AtCleanup, true) == AtComplete
    ensures NextPhase(AtComplete, true) == Done
  {
  }

  lemma TransferDoes(s: State, id: string, stop: Delivery, create: Delivery)
    requires id in s.workers && s.workers[id].phase.AtTransferring?
    requires s.workers[id].order.source != s.workers[id].order.dest
    requires id in s.migrations && s.workers[id].order.instance in s.instances
    ensures var w, t := s.workers[id], Transferred(s, id, stop, create);
            var was := Entry(s.drivers, w.order.source, w.name);
            var there := Entry(s.drivers, w.order.dest, w.name);
            var made := create.Delivered? && w.order.dest in s.drivers && there.None?;
            && Reached(s, t, id, if made && create.reported then AtVerifying else AtRollBack,
                       if w.order.kind.Cold? && w.wasRunning && stop.Delivered? && was.Some? then Some(Off) else was,
                       if made then Some(if w.wasRunning then On else Off) else there)
            && Written(s, t, id, s.instances[w.order.instance],
                       s.migrations[id].(status := Transferring, progress := 50))
  {
    var w, inst, r := s.workers[id], s.instances[s.workers[id].order.instance], s.migrations[id];
    var was, there := Entry(s.drivers, w.order.source, w.name), Entry(s.drivers, w.order.dest, w.name);
    var off := if w.order.kind.Cold? && w.wasRunning && stop.Delivered? && was.Some? then Some(Off) else was;
    assert Reached(s, s, id, AtTransferring, was, there) && Written(s, s, id, inst, r);
    var t1 := Advanced(s, id, Undelivered);
    var t2 := Advanced(t1, id, stop);
    var t3 := Advanced(t2, id, Undelivered);
    hide Advanced, Entry, Reached, Written, NextPhase;
    Phases();
    ReachedNext(s, s, id, Undelivered, AtTransferring, was, there);
    WrittenNext(s, s, id, Undelivered, AtTransferring, inst, r, was, there);
    ReachedNext(s, t1, id, stop, AtStop, was, there);
    WrittenNext(s, t1, id, stop, AtStop, inst, r.(status := Transferring, progress := 20), was, there);
    ReachedNext(s, t2, id, Undelivered, AtProgress, off, there);
    WrittenNext(s, t2, id, Undelivered, AtProgress, inst, r.(status := Transferring, progress := 20), off, there);
    ReachedCreated(s, t3, id, create, off, there);
    WrittenNext(s, t3, id, create, AtCreate, inst, r.(status := Transferring, progress := 50), off, there);
  }
  lemma BackOutDoes(s: State, t: State, id: string, restart: Delivery, inst: Instance, r: Record,
                    source: Option<Power>, dest: Option<Power>)
    requires id in s.workers && id in t.workers && s.workers[id].order.source != s.workers[id].order.dest
    requires Reached(s, t, id, AtRollBack, source, dest) && Written(s, t, id, inst, r)
    ensures var w, u := s.workers[id], BackedOut(t, id, restart);
            && Reached(s, u, id, Done,
                       if w.wasRunning && restart.Delivered? && source.Some? then Some(On) else source, dest)
            && Written(s, u, id, inst, r.(status := RolledBack, progress := 0))
  {
    var t1 := Advanced(t, id, Undelivered);
    hide Advanced, Entry, Reached, Written, NextPhase;
    Phases();
    ReachedNext(s, t, id, Undelivered, AtRollBack, source, dest);
    WrittenNext(s, t, id, Undelivered, AtRollBack, inst, r, source, dest);
    ReachedNext(s, t1, id, restart, AtRestart, source, dest);
    WrittenNext(s, t1, id, restart, AtRestart, inst, r.(status := RolledBack, progress := 0), source, dest);
  }

  lemma FinishDoes(s: State, t: State, id: string, cleanup: Delivery, inst: Instance, r: Record,
                   source: Option<Power>, dest: Option<Power>)
    requires id in s.workers && id in t.workers && s.workers[id].order.source != s.workers[id].order.dest
    requires Reached(s, t, id, AtVerifying, source, dest) && Written(s, t, id, inst, r)
    ensures var w, u := s.workers[id], Finished(t, id, cleanup);
            var moved := inst.(node := w.order.dest);
            && Reached(s, u, id, Done, if cleanup.Delivered? then None else source, dest)
            && Written(s, u, id, if w.wasRunning then moved.(status := InstanceStatus.Running) else moved,
                       r.(status := Completed, progress := 100))
  {
    var w := s.workers[id];
    var moved := inst.(node := w.order.dest);
    var now := if w.wasRunning then moved.(status := InstanceStatus.Running) else moved;
    var t3 := Advanced(Advanced(Advanced(t, id, Undelivered), id, Undelivered), id, Undelivered);
    hide *;
    LandingDoes(s, t, id, inst, r, source, dest);
    ClosingDoes(s, t3, id, cleanup, now, r.(status := Verifying, progress := 80), source, dest);
    FinishedIs(t, id, cleanup);
  }

  lemma FinishedIs(t: State, id: string, cleanup: Delivery)
    requires id in t.workers
    ensures var t3 := Advanced(Advanced(Advanced(t, id, Undelivered), id, Undelivered), id, Undelivered);
            Finished(t, id, cleanup) == Advanced(Advanced(t3, id, cleanup), id, Undelivered)
  {
    hide Advanced;
  }

  lemma LandingDoes(s: State, t: State, id: string, inst: Instance, r: Record,
                    source: Option<Power>, dest: Option<Power>)
    requires id in s.workers && id in t.workers && s.workers[id].order.source != s.workers[id].order.dest
    requires Reached(s, t, id, AtVerifying, source, dest) && Written(s, t, id, inst, r)
    ensures var w := s.workers[id];
            var u := Advanced(Advanced(Advanced(t, id, Undelivered), id, Undelivered), id, Undelivered);
            var moved := inst.(node := w.order.dest);
            && Reached(s, u, id, AtCleanup, source, dest)
            && Written(s, u, id, if w.wasRunning then moved.(status := InstanceStatus.Running) else moved,
                       r.(status := Verifying, progress := 80))
  {
    var seen := r.(status := Verifying, progress := 80);
    var t1 := Advanced(t, id, Undelivered);
    var t2 := Advanced(t1, id, Undelivered);
    hide *;
    MorePhases();
    ReachedNext(s, t, id, Undelivered, AtVerifying, source, dest);
    WrittenNext(s, t, id, Undelivered, AtVerifying, inst, r, source, dest);
    ReachedNext(s, t1, id, Undelivered, AtRelocate, source, dest);
    WrittenNext(s, t1, id, Undelivered, AtRelocate, inst, seen, source, dest);
    ReachedNext(s, t2, id, Undelivered, AtMarkRunning, source, dest);
    WrittenNext(s, t2, id, Undelivered, AtMarkRunning, inst.(node := s.workers[id].order.dest), seen, source, dest);
  }

  lemma ClosingDoes(s: State, t: State, id: string, cleanup: Delivery, inst: Instance, r: Record,
                    source: Option<Power>, dest: Option<Power>)
    requires id in s.workers && id in t.workers && s.workers[id].order.source != s.workers[id].order.dest
    requires Reached(s, t, id, AtCleanup, source, dest) && Written(s, t, id, inst, r)
    ensures var u := Advanced(Advanced(t, id, cleanup), id, Undelivered);
            && Reached(s, u, id, Done, if cleanup.Delivered? then None else source, dest)
            && Written(s, u, id, inst, r.(status := Completed, progress := 100))
  {
    var t4 := Advanced(t, id, cleanup);
    var left := if cleanup.Delivered? then None else source;
    hide *;
    MorePhases();
    ReachedNext(s, t, id, cleanup, AtCleanup, source, dest);
    WrittenNext(s, t, id, cleanup, AtCleanup, inst, r, source, dest);
    ReachedNext(s, t4, id, Undelivered, AtComplete, left, dest);
    WrittenNext(s, t4, id, Undelivered, AtComplete, inst, r, left, dest);
  }

  lemma SoloReaches(s: State, id: string, stop: Delivery, create: Delivery, restart: Delivery, cleanup: Delivery)
    requires id in s.workers && s.workers[id].phase.AtTransferring?
    requires s.workers[id].order.source != s.workers[id].order.dest
    requires id in s.migrations && s.workers[id].order.instance in s.instances
    ensures var w, t := s.workers[id], Solo(s, id, stop, create, restart, cleanup);
            var was, there := Entry(s.drivers, w.order.source, w.name), Entry(s.drivers, w.order.dest, w.name);
            var made := create.Delivered? && w.order.dest in s.drivers && there.None?;
            var off := if w.order.kind.Cold? && w.wasRunning && stop.Delivered? && was.Some? then Some(Off) else was;
            var dest := if made then Some(if w.wasRunning then On else Off) else there;
            var inst, r := s.instances[w.order.instance], s.migrations[id].(status := Transferring, progress := 50);
            var moved := inst.(node := w.order.dest);
            if made && create.reported then
              && Reached(s, t, id, Done, if cleanup.Delivered? then None else off, dest)
              && Written(s, t, id, if w.wasRunning then moved.(status := InstanceStatus.Running) else moved,
                         r.(status := Completed, progress := 100))
            else
              && Reached(s, t, id, Done,
                         if w.wasRunning && restart.Delivered? && off.Some? then Some(On) else off, dest)
              && Written(s, t, id, inst, r.(status := RolledBack, progress := 0))
  {
    var w, t := s.workers[id], Transferred(s, id, stop, create);
    var was, there := Entry(s.drivers, w.order.source, w.name), Entry(s.drivers, w.order.dest, w.name);
    var made := create.Delivered? && w.order.dest in s.drivers && there.None?;
    var off := if w.order.kind.Cold? && w.wasRunning && stop.Delivered? && was.Some? then Some(Off) else was;
    var dest := if made then Some(if w.wasRunning then On else Off) else there;
    var inst, r := s.instances[w.order.instance], s.migrations[id].(status := Transferring, progress := 50);
    TransferDoes(s, id, stop, create);
    ReachedPhase(s, t, id, if made && create.reported then AtVerifying else AtRollBack, off, dest);
    SoloIs(s, id, stop, create, restart, cleanup);
    hide *;
    if made && create.reported {
      FinishDoes(s, t, id, cleanup, inst, r, off, dest);
    } else {
      BackOutDoes(s, t, id, restart, inst, r, off, dest);
    }
  }

  lemma ReachedPhase(s: State, t: State, id: string, p: Phase, source: Option<Power>, dest: Option<Power>)
    requires id in s.workers && Reached(s, t, id, p, source, dest)
    ensures id in t.workers && t.workers[id].phase == p
  {
  }

  lemma SoloIs(s: State, id: string, stop: Delivery, create: Delivery, restart: Delivery, cleanup: Delivery)
    requires id in s.workers
    ensures var t := Transferred(s, id, stop, create);
            && id in t.workers
            && Solo(s, id, stop, create, restart, cleanup) ==
               if t.workers[id].phase.AtRollBack? then BackedOut(t, id, restart) else Finished(t, id, cleanup)
  {
    hide BackedOut, Finished;
  }

  /**
   What an uninterrupted migration comes to, for every fate of its four commands. It completes exactly when its create
   makes the copy and is reported: then the record names the destination, running again if it ran, and the source loses
   its copy if the clean-up arrives. Else the record is as before and the source runs it again if it ran and the restart
   arrives. What a create made stays either way.
   */
  lemma UninterruptedMigration(s: State, id: string, stop: Delivery, create: Delivery, restart: Delivery,
                               cleanup: Delivery)
    requires id in s.workers && s.workers[id].phase.AtTransferring?
    requires s.workers[id].order.source != s.workers[id].order.dest
    requires id in s.migrations && s.workers[id].order.instance in s.instances
    requires Holds(s.drivers, s.workers[id].order.source, s.workers[id].name)
    ensures var w, t := s.workers[id], Solo(s, id, stop, create, restart, cleanup);
            var i, there := w.order.instance, Entry(s.drivers, w.order.dest, w.name);
            var made := create.Delivered? && w.order.dest in s.drivers && there.None?;
            var completed := made && create.reported;
            var stopped := w.order.kind.Cold? && w.wasRunning && stop.Delivered?;
            var source := if stopped then Some(Off) else Entry(s.drivers, w.order.source, w.name);
            && id in t.workers && t.workers[id].phase.Done? && i in t.instances && id in t.migrations
            && t.instances[i] ==
               (if !completed then s.instances[i]
                else if w.wasRunning then s.instances[i].(node := w.order.dest, status := InstanceStatus.Running)
                else s.instances[i].(node := w.order.dest))
            && t.migrations[id] ==
               (if completed then s.migrations[id].(status := Completed, progress := 100)
                else s.migrations[id].(status := RolledBack, progress := 0))
            && Entry(t.drivers, w.order.source, w.name) ==
               (if completed then if cleanup.Delivered? then None else source
                else if w.wasRunning && restart.Delivered? then Some(On) else source)
            && Entry(t.drivers, w.order.dest, w.name) ==
               if made then Some(if w.wasRunning then On else Off) else there
  {
    SoloReaches(s, id, stop, create, restart, cleanup);
    hide Solo, Transferred, Entry;
    assert Entry(s.drivers, s.workers[id].order.source, s.workers[id].name).Some? by {
      SourceEntry(s, id);
    }
  }

  lemma SourceEntry(s: State, id: string)
    requires id in s.workers && Holds(s.drivers, s.workers[id].order.source, s.workers[id].name)
    ensures Entry(s.drivers, s.workers[id].order.source, s.workers[id].name).Some?
  {
  }

  // ---- What the records say ----

  /** Nothing of a record but its node has changed, and the workers know whether their workloads ran. */
  ghost predicate RecordsKept(s: State, t: State) {
    && t.instances.Keys == s.instances.Keys
    && (forall i | i in s.instances :: t.instances[i] == s.instances[i].(node := t.instances[i].node))
    && (forall m | m in t.workers :: var w := t.workers[m];
          && w.order.instance in s.instances
          && (w.wasRunning <==> s.instances[w.order.instance].status.Running?))
  }

  lemma StepKeepsRecords(s: State, t: State, e: Step)
    requires RecordsKept(s, t)
    ensures RecordsKept(s, Next(t, e))
  {
    hide Dispatched, HasActive;
  }

  /** Migrations change nothing of an instance's record but its node; in particular its status is what it was. */
  lemma {:induction false} MigrationsKeepRecords(s: State, steps: seq<Step>)
    requires AtRest(s)
    ensures RecordsKept(s, Run(s, steps))
  {
    hide RecordsKept, Next;
    if steps == [] {
      RecordsKeptAtRest(s);
    } else {
      MigrationsKeepRecords(s, steps[..|steps| - 1]);
      StepKeepsRecords(s, Run(s, steps[..|steps| - 1]), steps[|steps| - 1]);
    }
  }

  lemma RecordsKeptAtRest(s: State)
    requires AtRest(s)
    ensures RecordsKept(s, s)
  {
  }

  /** The status and the progress that a migration's record shows at each point of its worker. */
  predicate ProgressFits(status: MigrationStatus, progress: int, p: Phase) {
    match p
    case AtTransferring => status.Reserving? && progress == 0
    case AtStop => status.Transferring? && progress == 20
    case AtProgress => status.Transferring? && progress == 20
    case AtCreate => status.Transferring? && progress == 50
    case AtVerifying => status.Transferring? && progress == 50
    case AtRollBack => status.Transferring? && progress == 50
    case AtRestart => status.RolledBack? && progress == 0
    case Done => (status.RolledBack? && progress == 0) || (status.Completed? && progress == 100)
    case _ => status.Verifying? && progress == 80
  }

  ghost predicate ProgressesFit(t: State) {
    && t.workers.Keys == t.migrations.Keys
    && forall m | m in t.workers :: ProgressFits(t.migrations[m].status, t.migrations[m].progress, t.workers[m].phase)
  }

  lemma StepKeepsProgress(t: State, e: Step)
    requires ProgressesFit(t)
    ensures ProgressesFit(Next(t, e))
  {
    hide Dispatched, HasActive, InstanceAfter;
    var u := Next(t, e);
    assert u.workers.Keys == u.migrations.Keys;
    forall m | m in u.workers
      ensures ProgressFits(u.migrations[m].status, u.migrations[m].progress, u.workers[m].phase)
    {
      assert m in t.workers ==> ProgressFits(t.migrations[m].status, t.migrations[m].progress, t.workers[m].phase);
    }
  }

  /** In every run each record shows the progress that goes with how far its worker has come. */
  lemma {:induction false} ProgressInRun(s: State, steps: seq<Step>)
    requires AtRest(s)
    ensures ProgressesFit(Run(s, steps))
  {
    hide ProgressesFit, Next;
    if steps == [] {
      assert ProgressesFit(s) by {
        RestHasNoProgress(s);
      }
    } else {
      ProgressInRun(s, steps[..|steps| - 1]);
      StepKeepsProgress(Run(s, steps[..|steps| - 1]), steps[|steps| - 1]);
    }
  }

  lemma RestHasNoProgress(s: State)
    requires AtRest(s)
    ensures ProgressesFit(s)
  {
  }

  // ---- The belated restart happens ----

  /**
   Migration a loses its create and rolls back; before its restart is sent, a second cold migration b of the same
   workload stops it and creates it at the destination; then the restart of a arrives at the source.
   */
  function BelatedRestart(a: string, b: string, i: string, dest: string, stop: Delivery, reported: bool): seq<Step> {
    [Admit(a, i, dest, Cold, true), Advance(a, Undelivered), Advance(a, stop), Advance(a, Undelivered),
     Advance(a, Undelivered), Advance(a, Undelivered),
     Admit(b, i, dest, Cold, true), Advance(b, Undelivered), Advance(b, Delivered(true)), Advance(b, Undelivered),
     Advance(b, Delivered(true)), Advance(a, Delivered(reported))]
  }

  /** The workload is powered on at a node. */
  predicate OnAt(t: State, node: string, name: string) {
    node in t.drivers && name in t.drivers[node] && t.drivers[node][name] == On
  }

  /** One of the workers ids, at p, with its record still at the source and nothing at the destination. */
  ghost predicate OnItsWay(t: State, ids: set<string>, m: string, w: Worker, p: Phase) {
    && t.workers.Keys == ids && m in ids && t.workers[m] == w.(phase := p)
    && w.order.instance in t.instances && t.instances[w.order.instance].node == w.order.source
    && w.order.dest in t.drivers && w.name !in t.drivers[w.order.dest]
  }

  /** Before its create acts, a worker's step neither lands the instance nor touches another worker. */
  lemma OnItsWayNext(s: State, steps: seq<Step>, k: nat, ids: set<string>, m: string, d: Delivery, w: Worker, p: Phase)
    requires k < |steps| && steps[k] == Advance(m, d)
    requires OnItsWay(Run(s, steps[..k]), ids, m, w, p)
    requires p in {AtTransferring, AtStop, AtProgress, AtRollBack} || (p.AtCreate? && d.Undelivered?)
    ensures OnItsWay(Run(s, steps[..k + 1]), ids, m, w, NextPhase(p, !p.AtCreate?))
    ensures forall v | v in ids && v != m :: Run(s, steps[..k + 1]).workers[v] == Run(s, steps[..k]).workers[v]
  {
    RunNext(s, steps, k);
    StepActs(Run(s, steps[..k]), m, d);
    hide Run;
  }

  /** The worker of a cold migration of i, but for its phase. */
  function ColdWorker(s: State, i: string, dest: string): Worker
    requires i in s.instances
  {
    var inst := s.instances[i];
    Worker(Record(i, inst.node, dest, Cold, Reserving, 0), inst.name, inst.status.Running?, AtTransferring)
  }

  lemma FirstIsAdmitted(s: State, steps: seq<Step>, a: string, i: string, dest: string)
    requires AtRest(s) && i in s.instances && dest in s.drivers && dest != s.instances[i].node
    requires !Holds(s.drivers, dest, s.instances[i].name)
    requires steps != [] && steps[0] == Admit(a, i, dest, Cold, true)
    ensures OnItsWay(Run(s, steps[..1]), {a}, a, ColdWorker(s, i, dest), AtTransferring)
  {
    RunNext(s, steps, 0);
    RunOfNone(s, steps);
    hide Run;
    AdmissionIs(s, a, i, dest, Cold, true);
  }

  lemma FirstRollsBack(s: State, steps: seq<Step>, a: string, i: string, dest: string, stop: Delivery)
    requires AtRest(s) && i in s.instances && dest in s.drivers && dest != s.instances[i].node
    requires !Holds(s.drivers, dest, s.instances[i].name)
    requires 6 <= |steps| && steps[0] == Admit(a, i, dest, Cold, true)
    requires forall k | 1 <= k < 6 :: steps[k] == Advance(a, if k == 2 then stop else Undelivered)
    ensures OnItsWay(Run(s, steps[..6]), {a}, a, ColdWorker(s, i, dest), AtRestart)
  {
    hide *;
    var w := ColdWorker(s, i, dest);
    FirstIsAdmitted(s, steps, a, i, dest);
    Phases();
    OnItsWayNext(s, steps, 1, {a}, a, Undelivered, w, AtTransferring);
    OnItsWayNext(s, steps, 2, {a}, a, stop, w, AtStop);
    OnItsWayNext(s, steps, 3, {a}, a, Undelivered, w, AtProgress);
    LostCreate();
    OnItsWayNext(s, steps, 4, {a}, a, Undelivered, w, AtCreate);
    OnItsWayNext(s, steps, 5, {a}, a, Undelivered, w, AtRollBack);
  }

  lemma LostCreate()
    ensures NextPhase(AtCreate, false) == AtRollBack
  {
  }

  /** The second migration is admitted while the restart of the first is still to be sent. */
  lemma SecondIsAdmitted(s: State, steps: seq<Step>, a: string, b: string, i: string, dest: string)
    requires AtRest(s) && i in s.instances && dest != s.instances[i].node && a != b
    requires 7 <= |steps| && steps[6] == Admit(b, i, dest, Cold, true)
    requires OnItsWay(Run(s, steps[..6]), {a}, a, ColdWorker(s, i, dest), AtRestart)
    ensures OnItsWay(Run(s, steps[..7]), {a, b}, b, ColdWorker(s, i, dest), AtTransferring)
    ensures Run(s, steps[..7]).workers[a] == ColdWorker(s, i, dest).(phase := AtRestart)
  {
    hide *;
    RunNext(s, steps, 6);
    ProgressInRun(s, steps[..6]);
    MigrationsKeepRecords(s, steps[..6]);
    AdmitSecond(s, Run(s, steps[..6]), a, b, i, dest);
  }

  lemma AdmitSecond(s: State, t: State, a: string, b: string, i: string, dest: string)
    requires i in s.instances && dest != s.instances[i].node && a != b
    requires ProgressesFit(t) && RecordsKept(s, t)
    requires OnItsWay(t, {a}, a, ColdWorker(s, i, dest), AtRestart)
    ensures OnItsWay(Next(t, Admit(b, i, dest, Cold, true)), {a, b}, b, ColdWorker(s, i, dest), AtTransferring)
    ensures a in Next(t, Admit(b, i, dest, Cold, true)).workers
    ensures Next(t, Admit(b, i, dest, Cold, true)).workers[a] == ColdWorker(s, i, dest).(phase := AtRestart)
  {
    assert t.migrations.Keys == {a};
    AdmissionIs(t, b, i, dest, Cold, true);
    hide Next;
  }

  lemma SecondLands(s: State, steps: seq<Step>, a: string, b: string, w: Worker)
    requires a != b && |steps| == 12
    requires forall k | 7 <= k < 11 ::
               steps[k] == Advance(b, if k == 8 || k == 10 then Delivered(true) else Undelivered)
    requires OnItsWay(Run(s, steps[..7]), {a, b}, b, w, AtTransferring)
    requires Run(s, steps[..7]).workers[a] == w.(phase := AtRestart)
    ensures var t := Run(s, steps[..11]);
            && t.workers.Keys == {a, b} && t.workers[a] == w.(phase := AtRestart)
            && t.workers[b] == w.(phase := AtVerifying)
            && (w.wasRunning ==> OnAt(t, w.order.dest, w.name))
  {
    hide *;
    Phases();
    OnItsWayNext(s, steps, 7, {a, b}, b, Undelivered, w, AtTransferring);
    OnItsWayNext(s, steps, 8, {a, b}, b, Delivered(true), w, AtStop);
    OnItsWayNext(s, steps, 9, {a, b}, b, Undelivered, w, AtProgress);
    CreateActs(s, steps, a, b, w);
  }

  lemma CreateActs(s: State, steps: seq<Step>, a: string, b: string, w: Worker)
    requires a != b && |steps| == 12 && steps[10] == Advance(b, Delivered(true))
    requires OnItsWay(Run(s, steps[..10]), {a, b}, b, w, AtCreate)
    ensures var t, u := Run(s, steps[..10]), Run(s, steps[..11]);
            && u.workers.Keys == {a, b} && u.workers[a] == t.workers[a]
            && u.workers[b] == w.(phase := AtVerifying)
            && (w.wasRunning ==> OnAt(u, w.order.dest, w.name))
  {
    hide Run, Next, OnAt;
    RunNext(s, steps, 10);
    CreateSteps(Run(s, steps[..10]), a, b, w);
  }

  lemma CreateSteps(t: State, a: string, b: string, w: Worker)
    requires a != b && OnItsWay(t, {a, b}, b, w, AtCreate)
    ensures var u := Next(t, Advance(b, Delivered(true)));
            && u.workers.Keys == {a, b} && u.workers[a] == t.workers[a]
            && u.workers[b] == w.(phase := AtVerifying)
            && (w.wasRunning ==> OnAt(u, w.order.dest, w.name))
  {
    StepActs(t, b, Delivered(true));
    CreateDecides(t, b, Delivered(true));
  }

  /**
   So the condition is needed: for every running workload and every other node that does not hold it there is a run in
   which a cold migration, its stop and its create delivered, has the workload on at both its nodes.
   */
  lemma BelatedRestartHappens(
    s: State, a: string, b: string, i: string, dest: string, stop: Delivery, reported: bool)
    requires AtRest(s) && i in s.instances && s.instances[i].status.Running? && a != b
    requires dest in s.drivers && dest != s.instances[i].node && !Holds(s.drivers, dest, s.instances[i].name)
    ensures var t := Run(s, BelatedRestart(a, b, i, dest, stop, reported));
            && b in t.workers && t.workers[b] == ColdWorker(s, i, dest).(phase := AtVerifying)
            && OnAt(t, s.instances[i].node, s.instances[i].name) && OnAt(t, dest, s.instances[i].name)
  {
    var steps, w := BelatedRestart(a, b, i, dest, stop, reported), ColdWorker(s, i, dest);
    BelatedSteps(a, b, i, dest, stop, reported);
    hide *;
    RaceEnds(s, steps, a, b, i, dest, stop, reported);
  }

  lemma RaceEnds(s: State, steps: seq<Step>, a: string, b: string, i: string, dest: string, stop: Delivery,
                 reported: bool)
    requires AtRest(s) && i in s.instances && s.instances[i].status.Running? && a != b
    requires dest in s.drivers && dest != s.instances[i].node && !Holds(s.drivers, dest, s.instances[i].name)
    requires |steps| == 12 && steps[0] == Admit(a, i, dest, Cold, true) && steps[6] == Admit(b, i, dest, Cold, true)
    requires forall k | 1 <= k < 6 :: steps[k] == Advance(a, if k == 2 then stop else Undelivered)
    requires forall k | 7 <= k < 11 ::
               steps[k] == Advance(b, if k == 8 || k == 10 then Delivered(true) else Undelivered)
    requires steps[11] == Advance(a, Delivered(reported))
    ensures var t, w := Run(s, steps), ColdWorker(s, i, dest);
            && b in t.workers && t.workers[b] == w.(phase := AtVerifying)
            && OnAt(t, w.order.source, w.name) && OnAt(t, dest, w.name)
  {
    var w := ColdWorker(s, i, dest);
    assert w.order.source == s.instances[i].node && w.order.dest == dest && w.wasRunning;
    hide *;
    FirstRollsBack(s, steps, a, i, dest, stop);
    SecondIsAdmitted(s, steps, a, b, i, dest);
    SecondLands(s, steps, a, b, w);
    RaceLast(s, steps, a, b, w, reported);
  }

  lemma RaceLast(s: State, steps: seq<Step>, a: string, b: string, w: Worker, reported: bool)
    requires AtRest(s) && a != b && w.wasRunning && w.order.source != w.order.dest
    requires |steps| == 12 && steps[11] == Advance(a, Delivered(reported))
    requires var t := Run(s, steps[..11]);
             && t.workers.Keys == {a, b} && t.workers[a] == w.(phase := AtRestart)
             && t.workers[b] == w.(phase := AtVerifying) && OnAt(t, w.order.dest, w.name)
    ensures var t := Run(s, steps);
            && b in t.workers && t.workers[b] == w.(phase := AtVerifying)
            && OnAt(t, w.order.source, w.name) && OnAt(t, w.order.dest, w.name)
  {
    hide AtRest, Run, Next, Holds, OnAt;
    RunNext(s, steps, 11);
    RunOfNone(s, steps);
    CarriedIsHeld(s, steps[..11], b, w.order.source);
    LateRestart(Run(s, steps[..11]), a, b, w, Delivered(reported));
  }

  lemma BelatedSteps(a: string, b: string, i: string, dest: string, stop: Delivery, reported: bool)
    ensures var steps := BelatedRestart(a, b, i, dest, stop, reported);
            && |steps| == 12
            && steps[0] == Admit(a, i, dest, Cold, true) && steps[6] == Admit(b, i, dest, Cold, true)
            && (forall k | 1 <= k < 6 :: steps[k] == Advance(a, if k == 2 then stop else Undelivered))
            && (forall k | 7 <= k < 11 ::
                  steps[k] == Advance(b, if k == 8 || k == 10 then Delivered(true) else Undelivered))
            && steps[11] == Advance(a, Delivered(reported))
  {
  }

  lemma LateRestart(t: State, a: string, b: string, w: Worker, d: Delivery)
    requires a != b && a in t.workers && b in t.workers && d.Delivered? && w.wasRunning
    requires t.workers[a] == w.(phase := AtRestart) && w.order.source != w.order.dest
    requires Holds(t.drivers, w.order.source, w.name) && OnAt(t, w.order.dest, w.name)
    ensures var u := Next(t, Advance(a, d));
            && b in u.workers && u.workers[b] == t.workers[b]
            && OnAt(u, w.order.source, w.name) && OnAt(u, w.order.dest, w.name)
  {
    StepActs(t, a, d);
  }
}
