/** Which nodes hold a workload: its record's node, a copy in transit, and copies that migrations left behind. */
module Copies {
  import opened Domain
  import opened SimulatedDriver
  import opened Migration

  /** A copy that a worker under way has made or has still to remove. */
  predicate Transit(w: Worker, n: string) {
    || ((w.phase.AtVerifying? || w.phase.AtRelocate?) && n == w.order.dest)
    || ((w.phase.AtMarkRunning? || w.phase.AtCleanup?) && n == w.order.source)
  }

  ghost predicate InTransit(s: State, i: string, n: string) {
    exists m :: m in s.workers && s.workers[m].order.instance == i && Transit(s.workers[m], n)
  }

  /**
   The node, if any, on which a step leaves a copy behind: the destination of a create that acted although the
   migration takes it for failed, or the source of a clean-up that did not act.
   */
  function LeftBy(s: State, e: Step, i: string): set<string> {
    if !e.Advance? || e.id !in s.workers || s.workers[e.id].order.instance != i then {} else
    var w, after := s.workers[e.id], Advanced(s, e.id, e.delivery);
    if w.phase.AtCreate? && after.workers[e.id].phase.AtRollBack?
       && Holds(after.drivers, w.order.dest, w.name) && !Holds(s.drivers, w.order.dest, w.name)
    then {w.order.dest}
    else if w.phase.AtCleanup? && Holds(after.drivers, w.order.source, w.name)
    then {w.order.source}
    else {}
  }

  /** The nodes other than the record's that hold an instance before any migration. */
  function Elsewhere(s: State, i: string): set<string> {
    set n | n in s.drivers && i in s.instances && n != s.instances[i].node && Holds(s.drivers, n, s.instances[i].name)
  }

  /** Copies left behind in a run, with those that were there before. */
  ghost function Strays(s: State, steps: seq<Step>, i: string): set<string> {
    if steps == [] then Elsewhere(s, i) else
    Strays(s, steps[..|steps| - 1], i) + LeftBy(Run(s, steps[..|steps| - 1]), steps[|steps| - 1], i)
  }

  ghost predicate CopiesAre(s: State, strays: set<string>, i: string) {
    && i in s.instances
    && s.instances[i].node !in strays
    && (forall n :: Holds(s.drivers, n, s.instances[i].name) <==>
                    n == s.instances[i].node || n in strays || InTransit(s, i, n))
    && (forall n | InTransit(s, i, n) :: n !in strays && n != s.instances[i].node)
  }

  // ---- One step ----

  /** A worker's command changes whether a node holds an instance only by its own create or clean-up. */
  lemma HoldsAfter(drivers: map<string, Table>, w: Worker, d: Delivery, n: string, name: string)
    ensures var after := Dispatched(drivers, w, d).0;
            Holds(after, n, name) ==
            if w.phase.AtCreate? && n == w.order.dest && name == w.name then
              Holds(drivers, n, name) || (d.Delivered? && n in drivers)
            else if w.phase.AtCleanup? && n == w.order.source && name == w.name then
              Holds(drivers, n, name) && !d.Delivered?
            else Holds(drivers, n, name)
  {
    match CommandAt(w)
    case None =>
    case Some((to, c)) => ExecuteIsLocal(if to in drivers then drivers[to] else map[], c);
  }

  /** A create is taken for done only where there was no copy. */
  lemma CreateIsNew(drivers: map<string, Table>, w: Worker, d: Delivery)
    requires w.phase.AtCreate? && Dispatched(drivers, w, d).1
    ensures !Holds(drivers, w.order.dest, w.name) && Holds(Dispatched(drivers, w, d).0, w.order.dest, w.name)
  {
  }

  lemma AdmitKeepsCopies(s: State, e: Step, strays: set<string>, i: string)
    requires e.Admit? && Admissible(s, e) && CopiesAre(s, strays, i)
    requires s.workers.Keys == s.migrations.Keys
    ensures CopiesAre(Admitted(s, e), strays, i)
  {
    var after := Admitted(s, e);
    forall n
      ensures InTransit(after, i, n) <==> InTransit(s, i, n)
    {
      if m :| m in s.workers && s.workers[m].order.instance == i && Transit(s.workers[m], n) {
        assert m != e.id ==> after.workers[m] == s.workers[m];
      }
    }
  }

  /** A worker of another instance changes nothing for this one. */
  lemma OthersKeepCopies(s: State, id: string, d: Delivery, strays: set<string>, i: string)
    requires Housed(s) && WorkersOk(s) && id in s.workers && s.workers[id].order.instance != i
    requires CopiesAre(s, strays, i)
    ensures CopiesAre(Advanced(s, id, d), strays, i)
  {
    var after, w := Advanced(s, id, d), s.workers[id];
    assert WorkerOk(s, id);
    assert w.name != s.instances[i].name;
    assert after.instances[i] == s.instances[i];
    forall n
      ensures Holds(after.drivers, n, s.instances[i].name) == Holds(s.drivers, n, s.instances[i].name)
      ensures InTransit(after, i, n) <==> InTransit(s, i, n)
    {
      HoldsAfter(s.drivers, w, d, n, s.instances[i].name);
      TransitOfOthers(s, id, d, i, n);
    }
    hide Advanced, Holds, InTransit, WorkersOk, Housed;
  }

  lemma TransitOfOthers(s: State, id: string, d: Delivery, i: string, n: string)
    requires id in s.workers && s.workers[id].order.instance != i
    ensures InTransit(Advanced(s, id, d), i, n) <==> InTransit(s, i, n)
  {
    StepChangesOne(s, id, d);
    hide Advanced, Transit;
  }

  /** Only its own step changes a worker. */
  lemma StepChangesOne(s: State, id: string, d: Delivery)
    requires id in s.workers
    ensures var after := Advanced(s, id, d);
            && after.workers.Keys == s.workers.Keys
            && after.workers[id].order == s.workers[id].order
            && forall m | m in s.workers && m != id :: after.workers[m] == s.workers[m]
  {
    hide Dispatched, NextPhase;
  }

  lemma NoOtherTransit(s: State, id: string, m: string, n: string)
    requires Exclusive(s) && WorkersOk(s) && id in s.workers && m in s.workers && m != id
    requires s.workers[m].order.instance == s.workers[id].order.instance
    requires StageOf(s.workers[id].phase) in {Outbound, Landing, Moved}
    ensures !Transit(s.workers[m], n)
  {
    Alone(s, m, id);
    hide Exclusive, WorkersOk;
  }

  /** While a worker is under way, the copies in transit are its own, before its step and after. */
  lemma TransitIsOwn(s: State, id: string, d: Delivery, n: string)
    requires Exclusive(s) && WorkersOk(s) && id in s.workers
    requires StageOf(s.workers[id].phase) in {Outbound, Landing, Moved}
    ensures var i := s.workers[id].order.instance;
            && (InTransit(s, i, n) <==> Transit(s.workers[id], n))
            && id in Advanced(s, id, d).workers
            && (InTransit(Advanced(s, id, d), i, n) <==> Transit(Advanced(s, id, d).workers[id], n))
  {
    hide Advanced, WorkersOk, Exclusive, Transit, StageOf;
    StepChangesOne(s, id, d);
    var i := s.workers[id].order.instance;
    forall m | m in s.workers && m != id && s.workers[m].order.instance == i
      ensures !Transit(s.workers[m], n)
    {
      NoOtherTransit(s, id, m, n);
    }
  }

  /** A worker that has let go of its instance has no copy in transit, before its step or after. */
  lemma ReturningHasNone(s: State, id: string, d: Delivery, n: string)
    requires id in s.workers && StageOf(s.workers[id].phase) in {Returning, Closed}
    ensures var i := s.workers[id].order.instance; InTransit(Advanced(s, id, d), i, n) <==> InTransit(s, i, n)
  {
    assert !Transit(s.workers[id], n) && !Transit(Advanced(s, id, d).workers[id], n);
    StepChangesOne(s, id, d);
    hide Advanced, Transit;
  }

  lemma ReturningKeepsCopies(s: State, id: string, d: Delivery, strays: set<string>)
    requires WorkersOk(s) && id in s.workers && StageOf(s.workers[id].phase) in {Returning, Closed}
    requires CopiesAre(s, strays, s.workers[id].order.instance)
    ensures var i := s.workers[id].order.instance;
            LeftBy(s, Advance(id, d), i) == {} && CopiesAre(Advanced(s, id, d), strays, i)
  {
    var after, w := Advanced(s, id, d), s.workers[id];
    var i := w.order.instance;
    assert WorkerOk(s, id);
    assert after.instances[i] == s.instances[i];
    forall n
      ensures Holds(after.drivers, n, w.name) == Holds(s.drivers, n, w.name)
      ensures InTransit(after, i, n) <==> InTransit(s, i, n)
    {
      HoldsAfter(s.drivers, w, d, n, w.name);
      ReturningHasNone(s, id, d, n);
    }
    hide Advanced, Holds, InTransit, WorkersOk;
  }

  /** What one node is to an instance after a step of its worker under way. */
  ghost predicate NodeIs(s: State, all: set<string>, i: string, name: string, n: string) {
    && i in s.instances
    && (Holds(s.drivers, n, name) <==> n == s.instances[i].node || n in all || InTransit(s, i, n))
    && (InTransit(s, i, n) ==> n !in all && n != s.instances[i].node)
    && s.instances[i].node !in all
  }

  /** A create adds a copy: in transit if it is accepted, left behind if it acted unaccepted. */
  lemma CreateMovesCopy(s: State, id: string, d: Delivery, strays: set<string>, n: string)
    requires Exclusive(s) && WorkersOk(s) && id in s.workers && s.workers[id].phase.AtCreate?
    requires CopiesAre(s, strays, s.workers[id].order.instance)
    ensures var w := s.workers[id];
            var all := strays + LeftBy(s, Advance(id, d), w.order.instance);
            NodeIs(Advanced(s, id, d), all, w.order.instance, w.name, n)
  {
    var w := s.workers[id];
    assert WorkerOk(s, id);
    AdvanceOwn(s, id, d);
    TransitIsOwn(s, id, d, n);
    TransitIsOwn(s, id, d, w.order.dest);
    HoldsAfter(s.drivers, w, d, n, w.name);
    HoldsAfter(s.drivers, w, d, w.order.dest, w.name);
    if Dispatched(s.drivers, w, d).1 {
      CreateIsNew(s.drivers, w, d);
    }
    hide Advanced, Dispatched, Holds, WorkersOk, Exclusive, InTransit, WorkerOk, HoldsPowered, RecordAfter;
  }

  /** A clean-up removes the copy in transit, or leaves it behind. */
  lemma CleanupMovesCopy(s: State, id: string, d: Delivery, strays: set<string>, n: string)
    requires Exclusive(s) && WorkersOk(s) && id in s.workers && s.workers[id].phase.AtCleanup?
    requires CopiesAre(s, strays, s.workers[id].order.instance)
    ensures var w := s.workers[id];
            var all := strays + LeftBy(s, Advance(id, d), w.order.instance);
            NodeIs(Advanced(s, id, d), all, w.order.instance, w.name, n)
  {
    var w := s.workers[id];
    assert WorkerOk(s, id);
    AdvanceOwn(s, id, d);
    TransitIsOwn(s, id, d, n);
    TransitIsOwn(s, id, d, w.order.dest);
    HoldsAfter(s.drivers, w, d, n, w.name);
    HoldsAfter(s.drivers, w, d, w.order.source, w.name);
    hide Advanced, Dispatched, Holds, WorkersOk, Exclusive, InTransit, WorkerOk, HoldsPowered, RecordAfter;
  }

  /** The relocation exchanges the record's node and the copy in transit. */
  lemma RelocationMovesNone(s: State, id: string, d: Delivery, strays: set<string>, n: string)
    requires Exclusive(s) && WorkersOk(s) && id in s.workers && s.workers[id].phase.AtRelocate?
    requires CopiesAre(s, strays, s.workers[id].order.instance)
    ensures var w := s.workers[id];
            var all := strays + LeftBy(s, Advance(id, d), w.order.instance);
            NodeIs(Advanced(s, id, d), all, w.order.instance, w.name, n)
  {
    var w := s.workers[id];
    assert WorkerOk(s, id);
    AdvanceOwn(s, id, d);
    TransitIsOwn(s, id, d, n);
    TransitIsOwn(s, id, d, w.order.dest);
    HoldsAfter(s.drivers, w, d, n, w.name);
    hide Advanced, Dispatched, Holds, WorkersOk, Exclusive, InTransit, WorkerOk, HoldsPowered, RecordAfter;
  }

  lemma OtherStepIsQuiet(s: State, id: string, d: Delivery, n: string)
    requires id in s.workers && id in s.migrations && s.workers[id].order.instance in s.instances
    requires s.workers[id].phase !in {AtCreate, AtRelocate, AtCleanup}
    ensures var w, after := s.workers[id], Advanced(s, id, d);
            var i := w.order.instance;
            && LeftBy(s, Advance(id, d), i) == {}
            && (Transit(after.workers[id], n) <==> Transit(w, n))
            && i in after.instances && after.instances[i].node == s.instances[i].node
            && Holds(after.drivers, n, w.name) == Holds(s.drivers, n, w.name)
  {
    AdvanceOwn(s, id, d);
    HoldsAfter(s.drivers, s.workers[id], d, n, s.workers[id].name);
    hide Advanced, Dispatched, Holds, RecordAfter;
  }

  lemma OtherStepMovesNone(s: State, id: string, d: Delivery, strays: set<string>, n: string)
    requires Exclusive(s) && WorkersOk(s) && id in s.workers
    requires StageOf(s.workers[id].phase) in {Outbound, Landing, Moved}
    requires s.workers[id].phase !in {AtCreate, AtRelocate, AtCleanup}
    requires CopiesAre(s, strays, s.workers[id].order.instance)
    ensures var w := s.workers[id];
            var all := strays + LeftBy(s, Advance(id, d), w.order.instance);
            NodeIs(Advanced(s, id, d), all, w.order.instance, w.name, n)
  {
    assert WorkerOk(s, id);
    OtherStepIsQuiet(s, id, d, n);
    TransitIsOwn(s, id, d, n);
    hide Advanced, Holds, WorkersOk, Exclusive, InTransit, WorkerOk, Transit, LeftBy;
  }

  lemma UnderWayKeepsCopies(s: State, id: string, d: Delivery, strays: set<string>)
    requires Exclusive(s) && WorkersOk(s) && id in s.workers
    requires StageOf(s.workers[id].phase) in {Outbound, Landing, Moved}
    requires CopiesAre(s, strays, s.workers[id].order.instance)
    ensures var i := s.workers[id].order.instance;
            CopiesAre(Advanced(s, id, d), strays + LeftBy(s, Advance(id, d), i), i)
  {
    var w, after := s.workers[id], Advanced(s, id, d);
    var i := w.order.instance;
    var all := strays + LeftBy(s, Advance(id, d), i);
    assert WorkerOk(s, id);
    AdvanceOwn(s, id, d);
    assert after.instances[i].name == w.name;
    hide Advanced, CopiesAre, LeftBy, WorkersOk, Exclusive, WorkerOk;
    forall n
      ensures NodeIs(after, all, i, w.name, n)
    {
      if w.phase.AtCreate? {
        CreateMovesCopy(s, id, d, strays, n);
      } else if w.phase.AtCleanup? {
        CleanupMovesCopy(s, id, d, strays, n);
      } else if w.phase.AtRelocate? {
        RelocationMovesNone(s, id, d, strays, n);
      } else {
        OtherStepMovesNone(s, id, d, strays, n);
      }
    }
    NodesAre(after, all, i);
  }

  lemma NodesAre(s: State, all: set<string>, i: string)
    requires i in s.instances && forall n :: NodeIs(s, all, i, s.instances[i].name, n)
    ensures CopiesAre(s, all, i)
  {
    hide Holds, InTransit;
    var name := s.instances[i].name;
    assert NodeIs(s, all, i, name, s.instances[i].node);
    forall n
      ensures Holds(s.drivers, n, name) <==> n == s.instances[i].node || n in all || InTransit(s, i, n)
      ensures InTransit(s, i, n) ==> n !in all && n != s.instances[i].node
    {
      assert NodeIs(s, all, i, name, n);
    }
  }

  lemma StepKeepsCopies(s: State, e: Step, strays: set<string>, i: string)
    requires Housed(s) && Exclusive(s) && WorkersOk(s) && s.workers.Keys == s.migrations.Keys
    requires CopiesAre(s, strays, i)
    ensures CopiesAre(Next(s, e), strays + LeftBy(s, e, i), i)
  {
    hide Housed, Exclusive, WorkersOk, CopiesAre, Admissible, Admitted, Advanced;
    match e
    case Admit(_, _, _, _, _) =>
      assert strays + LeftBy(s, e, i) == strays;
      if Admissible(s, e) {
        AdmitKeepsCopies(s, e, strays, i);
      }
    case Advance(id, d) =>
      if id !in s.workers {
        assert strays + LeftBy(s, e, i) == strays;
      } else if s.workers[id].order.instance != i {
        assert strays + LeftBy(s, e, i) == strays;
        OthersKeepCopies(s, id, d, strays, i);
      } else if StageOf(s.workers[id].phase) in {Returning, Closed} {
        ReturningKeepsCopies(s, id, d, strays);
        assert strays + LeftBy(s, e, i) == strays;
      } else {
        UnderWayKeepsCopies(s, id, d, strays);
      }
  }

  lemma CopiesAtRest(s: State, i: string)
    requires AtRest(s) && i in s.instances
    ensures CopiesAre(s, Elsewhere(s, i), i)
  {
  }

  // ---- Runs ----

  /**
   At every point of every run a node holds a workload exactly when the record names it, or an earlier migration
   left a copy on it, or the migration under way has its second copy there; and these three never coincide.
   */
  lemma {:induction false} CopiesInRun(s: State, steps: seq<Step>, i: string)
    requires AtRest(s) && i in s.instances
    ensures CopiesAre(Run(s, steps), Strays(s, steps, i), i)
  {
    hide Housed, Exclusive, WorkersOk, CopiesAre, LeftBy, Next, Elsewhere, AtRest;
    if steps == [] {
      CopiesAtRest(s, i);
    } else {
      var before := steps[..|steps| - 1];
      CopiesInRun(s, before, i);
      RunKeeps(s, before);
      StepKeepsCopies(Run(s, before), steps[|before|], Strays(s, before, i), i);
    }
  }

  /** So once its migrations are done, its copies are the record's node and exactly those left behind. */
  lemma CopiesWhenDone(s: State, steps: seq<Step>, i: string)
    requires AtRest(s) && i in s.instances
    requires var t := Run(s, steps);
             forall m | m in t.workers && t.workers[m].order.instance == i :: t.workers[m].phase.Done?
    ensures var t := Run(s, steps);
            && i in t.instances && t.instances[i].node !in Strays(s, steps, i)
            && forall n :: Holds(t.drivers, n, s.instances[i].name) <==>
                           n == t.instances[i].node || n in Strays(s, steps, i)
  {
    CopiesInRun(s, steps, i);
    RunKeepsNames(s, steps);
    var t := Run(s, steps);
    assert forall n :: !InTransit(t, i, n);
    hide Run, Strays, Holds;
  }

  lemma {:induction false} StraysStay(s: State, steps: seq<Step>, more: seq<Step>, i: string)
    ensures Strays(s, steps, i) <= Strays(s, steps + more, i)
  {
    hide LeftBy, Run;
    if more == [] {
      assert steps + more == steps;
    } else {
      StraysStay(s, steps, more[..|more| - 1], i);
      assert (steps + more)[..|steps + more| - 1] == steps + more[..|more| - 1];
    }
  }

  /**
   A copy left on a node makes every later migration of the workload to that node roll back, whatever becomes of its
   create.
   */
  lemma StrayBlocksMigration(s: State, steps: seq<Step>, more: seq<Step>, i: string, m: string, d: Delivery)
    requires AtRest(s) && i in s.instances
    requires var t := Run(s, steps + more);
             && m in t.workers && t.workers[m].order.instance == i && t.workers[m].phase.AtCreate?
             && t.workers[m].order.dest in Strays(s, steps, i)
    ensures var t := Run(s, steps + more);
            var u := Next(t, Advance(m, d));
            m in u.workers && u.workers[m].phase.AtRollBack? && u.drivers == t.drivers
  {
    var t := Run(s, steps + more);
    StraysStay(s, steps, more, i);
    CopiesInRun(s, steps + more, i);
    RunKeeps(s, steps + more);
    assert WorkerOk(t, m);
    hide Run, Strays;
    assert Holds(t.drivers, t.workers[m].order.dest, t.workers[m].name);
    CreateRefused(t, m, d);
  }

  lemma CreateRefused(t: State, m: string, d: Delivery)
    requires m in t.workers && t.workers[m].phase.AtCreate?
    requires Holds(t.drivers, t.workers[m].order.dest, t.workers[m].name)
    ensures var u := Advanced(t, m, d); u.workers[m].phase.AtRollBack? && u.drivers == t.drivers
  {
    var dest := t.workers[m].order.dest;
    assert t.drivers[dest := t.drivers[dest]] == t.drivers;
  }

  // ---- It happens ----

  /** A migration whose create acts and is not reported: admission, and the worker's six statements to its end. */
  function UnreportedCreate(
    id: string, i: string, dest: string, kind: MigrationType, stop: Delivery, restart: Delivery): seq<Step>
  {
    [Admit(id, i, dest, kind, true), Advance(id, Undelivered), Advance(id, stop), Advance(id, Undelivered),
     Advance(id, Delivered(false)), Advance(id, Undelivered), Advance(id, restart)]
  }

  /** A worker on its way, and whether its destination holds the instance. */
  ghost predicate Stands(s: State, id: string, w: Worker, p: Phase, held: bool) {
    && s.workers.Keys == {id} && s.workers[id] == w.(phase := p)
    && id in s.migrations && w.order.instance in s.instances && w.order.dest in s.drivers
    && s.instances[w.order.instance].node == w.order.source
    && Holds(s.drivers, w.order.dest, w.name) == held
  }

  lemma StandsNext(s: State, id: string, d: Delivery, w: Worker, p: Phase, held: bool)
    requires Stands(s, id, w, p, held) && w.order.source != w.order.dest && p != AtCreate && p != AtRelocate
    ensures Stands(Advanced(s, id, d), id, w, NextPhase(p, true), held)
  {
    AdvanceOwn(s, id, d);
    StepChangesOne(s, id, d);
    HoldsAfter(s.drivers, s.workers[id], d, w.order.dest, w.name);
    NodesStay(s.drivers, s.workers[id], d);
    hide Advanced, Dispatched, Holds;
  }

  lemma NodesStay(drivers: map<string, Table>, w: Worker, d: Delivery)
    ensures Dispatched(drivers, w, d).0.Keys == drivers.Keys
  {
  }

  lemma UnreportedCreateLeaves(s: State, id: string, w: Worker)
    requires Stands(s, id, w, AtCreate, false)
    ensures Stands(Advanced(s, id, Delivered(false)), id, w, AtRollBack, true)
    ensures w.order.dest in LeftBy(s, Advance(id, Delivered(false)), w.order.instance)
  {
    AdvanceOwn(s, id, Delivered(false));
    StepChangesOne(s, id, Delivered(false));
    HoldsAfter(s.drivers, s.workers[id], Delivered(false), w.order.dest, w.name);
    NodesStay(s.drivers, s.workers[id], Delivered(false));
    assert !Dispatched(s.drivers, s.workers[id], Delivered(false)).1;
    hide Advanced, Dispatched, Holds;
  }

  lemma RunNext(s: State, steps: seq<Step>, k: nat)
    requires k < |steps|
    ensures Run(s, steps[..k + 1]) == Next(Run(s, steps[..k]), steps[k])
  {
    assert steps[..k + 1][..k] == steps[..k];
  }

  lemma SevenSteps(s: State, steps: seq<Step>, id: string, w: Worker, stop: Delivery, restart: Delivery)
    requires |steps| == 7 && w.order.source != w.order.dest
    requires forall k | 1 <= k < 7 :: steps[k] == Advance(id, if k == 2 then stop else if k == 4 then Delivered(false)
                                                              else if k == 6 then restart else Undelivered)
    requires Stands(Run(s, steps[..1]), id, w, AtTransferring, false)
    ensures Stands(Run(s, steps), id, w, Done, true)
  {
    hide Advanced, Holds, Run, Next, Stands, NextPhase;
    Phases();
    RunStands(s, steps, 1, id, Undelivered, w, AtTransferring, false);
    RunStands(s, steps, 2, id, stop, w, AtStop, false);
    RunStands(s, steps, 3, id, Undelivered, w, AtProgress, false);
    RunLeaves(s, steps, 4, id, w);
    RunStands(s, steps, 5, id, Undelivered, w, AtRollBack, true);
    RunStands(s, steps, 6, id, restart, w, AtRestart, true);
    assert steps[..7] == steps;
  }

  /**
   Runs do leave two copies: after such a migration is over, its source and its destination both hold the workload.
   */
  lemma TwoCopiesHappen(
    s: State, id: string, i: string, dest: string, kind: MigrationType, stop: Delivery, restart: Delivery)
    requires AtRest(s) && i in s.instances && dest in s.drivers
    requires !Holds(s.drivers, dest, s.instances[i].name)
    ensures var t := Run(s, UnreportedCreate(id, i, dest, kind, stop, restart));
            && t.workers.Keys == {id} && t.workers[id].phase.Done?
            && i in t.instances && t.instances[i].node == s.instances[i].node != dest
            && Holds(t.drivers, s.instances[i].node, s.instances[i].name)
            && Holds(t.drivers, dest, s.instances[i].name)
  {
    var steps := UnreportedCreate(id, i, dest, kind, stop, restart);
    var w := AdmittedStands(s, id, i, dest, kind);
    NoWorkloadIsLost(s, steps);
    RunOfNone(s, steps);
    hide Advanced, Holds, Run, AtRest, Next, Stands;
    RunNext(s, steps, 0);
    SevenSteps(s, steps, id, w, stop, restart);
    DoneHolds(Run(s, steps), id, w);
  }

  lemma Phases()
    ensures NextPhase(AtTransferring, true) == AtStop && NextPhase(AtStop, true) == AtProgress
    ensures NextPhase(AtProgress, true) == AtCreate && NextPhase(AtRollBack, true) == AtRestart
    ensures NextPhase(AtRestart, true) == Done
  {
  }

  lemma RunStands(s: State, steps: seq<Step>, k: nat, id: string, d: Delivery, w: Worker, p: Phase, held: bool)
    requires k < |steps| && steps[k] == Advance(id, d)
    requires Stands(Run(s, steps[..k]), id, w, p, held)
    requires w.order.source != w.order.dest && p != AtCreate && p != AtRelocate
    ensures Stands(Run(s, steps[..k + 1]), id, w, NextPhase(p, true), held)
  {
    RunNext(s, steps, k);
    StandsNext(Run(s, steps[..k]), id, d, w, p, held);
    hide Advanced, Holds, Run;
  }

  lemma RunLeaves(s: State, steps: seq<Step>, k: nat, id: string, w: Worker)
    requires k < |steps| && steps[k] == Advance(id, Delivered(false))
             && Stands(Run(s, steps[..k]), id, w, AtCreate, false)
    ensures Stands(Run(s, steps[..k + 1]), id, w, AtRollBack, true)
  {
    RunNext(s, steps, k);
    UnreportedCreateLeaves(Run(s, steps[..k]), id, w);
    hide Advanced, Holds, Run;
  }

  lemma DoneHolds(t: State, id: string, w: Worker)
    requires Stands(t, id, w, Done, true)
    ensures t.workers.Keys == {id} && t.workers[id].phase.Done?
    ensures w.order.instance in t.instances && t.instances[w.order.instance].node == w.order.source
    ensures Holds(t.drivers, w.order.dest, w.name)
  {
  }

  lemma RunOfNone(s: State, steps: seq<Step>)
    ensures Run(s, steps[..0]) == s && Run(s, steps[..|steps|]) == Run(s, steps)
  {
    assert steps[..|steps|] == steps;
  }

  lemma AdmittedStands(s: State, id: string, i: string, dest: string, kind: MigrationType) returns (w: Worker)
    requires AtRest(s) && i in s.instances && dest in s.drivers
    requires !Holds(s.drivers, dest, s.instances[i].name)
    ensures w.order.instance == i && w.order.source == s.instances[i].node != dest && w.order.dest == dest
    ensures w.name == s.instances[i].name
    ensures Stands(Next(s, Admit(id, i, dest, kind, true)), id, w, AtTransferring, false)
  {
    var inst := s.instances[i];
    w := Worker(Record(i, inst.node, dest, kind, Reserving, 0), inst.name, inst.status.Running?, AtTransferring);
    assert Holds(s.drivers, inst.node, inst.name);
  }
}
