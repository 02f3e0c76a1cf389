/**
 The command correlation table: dispatchers that wait for the result of a command sent to a node, and the
 handlers of incoming results. A step is what one goroutine does without another coming between.
 */
module Commands {
  import opened Wrappers

  datatype Result = Result(id: string, success: bool, message: string)

  datatype Outcome = Offline | SendFailed | Canceled | Answered(result: Result)

  /** A waiting dispatcher: Leaving is between the end of its wait and the removal of its table entry. */
  datatype Phase = Sending | Waiting | Leaving(outcome: Outcome)

  datatype Dispatch = Dispatch(id: string, channel: nat, phase: Phase)

  /** A result channel of capacity one; id is the correlation ID it was made for. */
  datatype Channel = Channel(id: string, buffer: seq<Result>)

  /** What a dispatcher came back with, and the channel it had waited on unless its node was offline. */
  datatype Return = Return(id: string, channel: Option<nat>, outcome: Outcome)

  /** A result handler that has looked up its channel and not yet sent. */
  datatype Handler = Handler(result: Result, channel: nat)

  /** A channel is known by its position among the channels made so far. */
  datatype State = State(
    connections: map<string, nat>,
    pending: map<string, nat>,
    channels: seq<Channel>,
    dispatches: map<nat, Dispatch>,
    handlers: map<nat, Handler>,
    returned: map<nat, Return>)

  datatype Step =
    | Register(node: string, sender: nat)
    | Unregister(node: string)
    | Begin(caller: nat, node: string, id: string)
    | Transmit(caller: nat, sent: bool)
    | Cancel(caller: nat)
    | Receive(caller: nat)
    | Leave(caller: nat)
    | LookUp(handler: nat, result: Result)
    | Deliver(handler: nat)

  const EMPTY := State(map[], map[], [], map[], map[], map[])

  /** Callers and handlers are goroutines: each is started once and takes its own steps in order. */
  predicate Enabled(s: State, step: Step) {
    match step
    case Register(_, _) => true
    case Unregister(_) => true
    case Begin(c, _, _) => c !in s.dispatches && c !in s.returned
    case Transmit(c, _) => c in s.dispatches && s.dispatches[c].phase.Sending?
    case Cancel(c) => c in s.dispatches && s.dispatches[c].phase.Waiting?
    case Receive(c) =>
      && c in s.dispatches && s.dispatches[c].phase.Waiting?
      && s.dispatches[c].channel < |s.channels| && s.channels[s.dispatches[c].channel].buffer != []
    case Leave(c) => c in s.dispatches && s.dispatches[c].phase.Leaving?
    case LookUp(h, _) => h !in s.handlers
    case Deliver(h) => h in s.handlers && s.handlers[h].channel < |s.channels|
  }

  /** The send never waits: a result that finds the buffer full is dropped. */
  function Offer(ch: Channel, r: Result): Channel {
    if ch.buffer == [] then ch.(buffer := [r]) else ch
  }

  function Begun(s: State, c: nat, node: string, id: string): State {
    if node !in s.connections then s.(returned := s.returned[c := Return(id, None, Offline)])
    else s.(
      pending := s.pending[id := |s.channels|],
      channels := s.channels + [Channel(id, [])],
      dispatches := s.dispatches[c := Dispatch(id, |s.channels|, Sending)])
  }

  function Received(s: State, c: nat): State
    requires Enabled(s, Receive(c))
  {
    var d := s.dispatches[c];
    var ch := s.channels[d.channel];
    s.(channels := s.channels[d.channel := ch.(buffer := ch.buffer[1..])],
       dispatches := s.dispatches[c := d.(phase := Leaving(Answered(ch.buffer[0])))])
  }

  function Left(s: State, c: nat): State
    requires Enabled(s, Leave(c))
  {
    var d := s.dispatches[c];
    s.(pending := s.pending - {d.id},
       dispatches := s.dispatches - {c},
       returned := s.returned[c := Return(d.id, Some(d.channel), d.phase.outcome)])
  }

  function Delivered(s: State, h: nat): State
    requires Enabled(s, Deliver(h))
  {
    var Handler(r, at) := s.handlers[h];
    s.(channels := s.channels[at := Offer(s.channels[at], r)], handlers := s.handlers - {h})
  }

  function Next(s: State, step: Step): State {
    if !Enabled(s, step) then s else
    match step
    case Register(node, sender) => s.(connections := s.connections[node := sender])
    case Unregister(node) => s.(connections := s.connections - {node})
    case Begin(c, node, id) => Begun(s, c, node, id)
    case Transmit(c, sent) =>
      s.(dispatches := s.dispatches[c := s.dispatches[c].(phase := if sent then Waiting else Leaving(SendFailed))])
    case Cancel(c) => s.(dispatches := s.dispatches[c := s.dispatches[c].(phase := Leaving(Canceled))])
    case Receive(c) => Received(s, c)
    case Leave(c) => Left(s, c)
    case LookUp(h, r) => if r.id in s.pending then s.(handlers := s.handlers[h := Handler(r, s.pending[r.id])]) else s
    case Deliver(h) => Delivered(s, h)
  }

  function Run(steps: seq<Step>): State {
    if steps == [] then EMPTY else Next(Run(steps[..|steps| - 1]), steps[|steps| - 1])
  }

  // ---- Correlation, in every interleaving ----

  predicate ChannelOk(ch: Channel) {
    |ch.buffer| <= 1 && forall r | r in ch.buffer :: r.id == ch.id
  }

  predicate MadeFor(s: State, channel: nat, id: string) {
    channel < |s.channels| && s.channels[channel].id == id
  }

  predicate OutcomeOk(o: Outcome, id: string) {
    o.Answered? ==> o.result.id == id
  }

  predicate DispatchOk(s: State, d: Dispatch) {
    MadeFor(s, d.channel, d.id) && (d.phase.Leaving? ==> OutcomeOk(d.phase.outcome, d.id))
  }

  ghost predicate Correlated(s: State) {
    && ChannelsOk(s)
    && (forall id | id in s.pending :: MadeFor(s, s.pending[id], id))
    && (forall h | h in s.handlers :: MadeFor(s, s.handlers[h].channel, s.handlers[h].result.id))
    && (forall c | c in s.dispatches :: DispatchOk(s, s.dispatches[c]))
    && (forall c | c in s.returned :: OutcomeOk(s.returned[c].outcome, s.returned[c].id))
  }

  ghost predicate ChannelsOk(s: State) {
    forall at | 0 <= at < |s.channels| :: ChannelOk(s.channels[at])
  }

  /** Channels keep their IDs, so what was made for an ID stays so. */
  ghost predicate Extends(s: State, after: State) {
    && |s.channels| <= |after.channels|
    && forall at | 0 <= at < |s.channels| :: after.channels[at].id == s.channels[at].id
  }

  lemma StepExtends(s: State, step: Step)
    ensures Extends(s, Next(s, step))
  {
  }

  lemma StepKeepsChannelsOk(s: State, step: Step)
    requires Correlated(s)
    ensures ChannelsOk(Next(s, step))
  {
    if Enabled(s, step) && step.Deliver? {
      var h := s.handlers[step.handler];
      assert MadeFor(s, h.channel, h.result.id);
    }
  }

  lemma StepKeepsTable(s: State, step: Step)
    requires Correlated(s)
    ensures var after := Next(s, step); forall id | id in after.pending :: MadeFor(after, after.pending[id], id)
    ensures var after := Next(s, step);
            forall h | h in after.handlers :: MadeFor(after, after.handlers[h].channel, after.handlers[h].result.id)
  {
    hide ChannelOk, OutcomeOk, DispatchOk;
    StepExtends(s, step);
  }

  lemma StepKeepsDispatches(s: State, step: Step)
    requires Correlated(s)
    ensures var after := Next(s, step); forall c | c in after.dispatches :: DispatchOk(after, after.dispatches[c])
    ensures var after := Next(s, step);
            forall c | c in after.returned :: OutcomeOk(after.returned[c].outcome, after.returned[c].id)
  {
    StepExtends(s, step);
  }

  lemma StepKeepsCorrelation(s: State, step: Step)
    requires Correlated(s)
    ensures Correlated(Next(s, step))
  {
    StepKeepsChannelsOk(s, step);
    StepKeepsTable(s, step);
    StepKeepsDispatches(s, step);
    hide Next, ChannelOk, MadeFor, DispatchOk, OutcomeOk;
  }

  lemma {:induction false} RunIsCorrelated(steps: seq<Step>)
    ensures Correlated(Run(steps))
  {
    if steps != [] {
      RunIsCorrelated(steps[..|steps| - 1]);
      StepKeepsCorrelation(Run(steps[..|steps| - 1]), steps[|steps| - 1]);
    }
  }

  /** In every interleaving, repeated correlation IDs included, a dispatcher is only ever answered under its own ID. */
  lemma OwnResultOnly(steps: seq<Step>, c: nat)
    requires c in Run(steps).returned && Run(steps).returned[c].outcome.Answered?
    ensures Run(steps).returned[c].outcome.result.id == Run(steps).returned[c].id
  {
    RunIsCorrelated(steps);
  }

  /** No handler can block: its send is always possible, and afterwards its channel holds exactly one result. */
  lemma HandlersNeverBlock(steps: seq<Step>, h: nat)
    requires h in Run(steps).handlers
    ensures var s := Run(steps); var at := s.handlers[h].channel;
            && Enabled(s, Deliver(h))
            && h !in Next(s, Deliver(h)).handlers
            && |Next(s, Deliver(h)).channels[at].buffer| == 1
  {
    RunIsCorrelated(steps);
  }

  /** Only a result or the end of its own context ends a wait: the loss of the node's stream does not. */
  lemma WaitEndsOnlyBy(s: State, step: Step, c: nat)
    requires c in s.dispatches && s.dispatches[c].phase.Waiting?
    requires step != Cancel(c) && step != Receive(c)
    ensures c in Next(s, step).dispatches && Next(s, step).dispatches[c] == s.dispatches[c]
  {
  }

  /** It happens: the stream is unregistered while the command it carried is waited for. */
  function Disconnected(node: string, sender: nat, caller: nat, id: string): seq<Step> {
    [Register(node, sender), Begin(caller, node, id), Transmit(caller, true), Unregister(node)]
  }

  lemma DisconnectedStillWaits(node: string, sender: nat, caller: nat, id: string)
    ensures var s := Run(Disconnected(node, sender, caller, id));
            && node !in s.connections
            && caller in s.dispatches && s.dispatches[caller] == Dispatch(id, 0, Waiting)
            && s.pending == map[id := 0] && caller !in s.returned
  {
    var log := Disconnected(node, sender, caller, id);
    assert log[..0] == [] && log[..3][..2] == log[..2] && log[..2][..1] == log[..1] && log[..1][..0] == [];
    assert Run(log[..1]) == Next(EMPTY, log[0]);
    assert Run(log[..2]) == Next(Run(log[..1]), log[1]);
    assert Run(log[..3]) == Next(Run(log[..2]), log[2]);
    assert Run(log) == Next(Run(log[..3]), log[3]);
  }

  // ---- The first answer wins ----

  /** Each dispatch has a channel of its own, also under a repeated ID. */
  ghost predicate Unshared(s: State) {
    forall b, c | b in s.dispatches && c in s.dispatches && b != c :: s.dispatches[b].channel != s.dispatches[c].channel
  }

  ghost predicate InRange(s: State) {
    forall c | c in s.dispatches :: s.dispatches[c].channel < |s.channels|
  }

  /** Only Begin makes a dispatch, on a new channel; no step moves one to another channel. */
  lemma StepKeepsChannel(s: State, step: Step, c: nat)
    requires c in Next(s, step).dispatches
    ensures c in s.dispatches ==>
              Next(s, step).dispatches[c].channel == s.dispatches[c].channel
              && Next(s, step).dispatches[c].id == s.dispatches[c].id
    ensures c !in s.dispatches ==>
              step.Begin? && step.caller == c && step.id == Next(s, step).dispatches[c].id
              && step.id in Next(s, step).pending && Next(s, step).pending[step.id] == |s.channels|
              && Next(s, step).dispatches[c].channel == |s.channels|
              && Next(s, step).dispatches[c].phase.Sending?
  {
  }

  lemma StepKeepsUnshared(s: State, step: Step)
    requires Unshared(s) && InRange(s)
    ensures Unshared(Next(s, step))
  {
    var after := Next(s, step);
    forall b, c | b in after.dispatches && c in after.dispatches && b != c
      ensures after.dispatches[b].channel != after.dispatches[c].channel
    {
      StepKeepsChannel(s, step, b);
      StepKeepsChannel(s, step, c);
      hide Next;
    }
  }

  lemma {:induction false} RunIsUnshared(steps: seq<Step>)
    ensures Unshared(Run(steps)) && InRange(Run(steps))
  {
    hide Unshared, Next;
    RunIsCorrelated(steps);
    if steps != [] {
      RunIsUnshared(steps[..|steps| - 1]);
      StepKeepsUnshared(Run(steps[..|steps| - 1]), steps[|steps| - 1]);
    } else {
      NothingShared();
    }
  }

  lemma NothingShared()
    ensures Unshared(EMPTY)
  {
  }

  /** The results handlers sent to a channel, dropped ones included, in order. */
  function Offered(steps: seq<Step>, at: nat): seq<Result> {
    if steps == [] then [] else
    var before, step := Run(steps[..|steps| - 1]), steps[|steps| - 1];
    Offered(steps[..|steps| - 1], at) + OfferedBy(before, step, at)
  }

  function OfferedBy(s: State, step: Step, at: nat): seq<Result> {
    if step.Deliver? && Enabled(s, step) && s.handlers[step.handler].channel == at
    then [s.handlers[step.handler].result] else []
  }

  lemma ChannelsOnlyGrow(s: State, step: Step)
    ensures |s.channels| <= |Next(s, step).channels|
  {
  }

  lemma {:induction false} UnmadeChannelIsUnused(steps: seq<Step>, at: nat)
    requires |Run(steps).channels| <= at
    ensures Offered(steps, at) == []
  {
    if steps != [] {
      ChannelsOnlyGrow(Run(steps[..|steps| - 1]), steps[|steps| - 1]);
      UnmadeChannelIsUnused(steps[..|steps| - 1], at);
      hide Next;
    }
  }

  /** What the phase of a dispatch says about the results offered to it. */
  predicate FirstWins(d: Dispatch, buffer: seq<Result>, offered: seq<Result>) {
    match d.phase
    case Leaving(Answered(r)) => offered != [] && offered[0] == r
    case Leaving(_) => true
    case _ => buffer == if offered == [] then [] else offered[..1]
  }

  function BufferAt(s: State, at: nat): seq<Result> {
    if at < |s.channels| then s.channels[at].buffer else []
  }

  /** A dispatch's own buffer changes when its dispatcher takes from it, or when a result is put into it empty. */
  lemma BufferMoves(s: State, step: Step, c: nat)
    requires Correlated(s) && Unshared(s) && c in s.dispatches
    ensures var at := s.dispatches[c].channel;
            var buffer, offered := BufferAt(s, at), OfferedBy(s, step, at);
            BufferAt(Next(s, step), at) ==
            if step == Receive(c) && Enabled(s, step) then buffer[1..]
            else if buffer == [] then offered else buffer
  {
    assert DispatchOk(s, s.dispatches[c]);
    if Enabled(s, step) && step.Receive? && step.caller != c {
      assert s.dispatches[step.caller].channel != s.dispatches[c].channel;
    }
  }

  /** What a dispatch that stays is after a step. */
  lemma PhaseMoves(s: State, step: Step, c: nat)
    requires c in s.dispatches && c in Next(s, step).dispatches
    ensures var before, after := s.dispatches[c].phase, Next(s, step).dispatches[c].phase;
            || after == before
            || (before.Sending? && after.Waiting?)
            || (after.Leaving? && !after.outcome.Answered?)
            || (step == Receive(c) && Enabled(s, step) && before.Waiting?
                && after == Leaving(Answered(BufferAt(s, s.dispatches[c].channel)[0])))
    ensures Next(s, step).dispatches[c].phase == s.dispatches[c].phase ==> step != Receive(c) || !Enabled(s, step)
  {
  }

  lemma StepKeepsFirst(s: State, step: Step, c: nat, offered: seq<Result>)
    requires Correlated(s) && Unshared(s) && c in s.dispatches && c in Next(s, step).dispatches
    requires FirstWins(s.dispatches[c], BufferAt(s, s.dispatches[c].channel), offered)
    ensures var at := s.dispatches[c].channel;
            FirstWins(Next(s, step).dispatches[c], BufferAt(Next(s, step), at), offered + OfferedBy(s, step, at))
  {
    BufferMoves(s, step, c);
    PhaseMoves(s, step, c);
    if step == Receive(c) && Enabled(s, step) {
      ReceiverWaits(s, step, c);
    }
    hide Next, Enabled, BufferAt, OfferedBy, Correlated, Unshared;
  }

  lemma ReceiverWaits(s: State, step: Step, c: nat)
    requires step == Receive(c) && Enabled(s, step)
    ensures c in Next(s, step).dispatches && Next(s, step).dispatches[c].phase.Leaving?
    ensures BufferAt(s, s.dispatches[c].channel) != []
  {
  }

  /** A dispatcher is answered by the first result sent to it; until it takes that, the buffer keeps it. */
  lemma {:induction false} FirstResultWins(steps: seq<Step>, c: nat)
    requires c in Run(steps).dispatches
    ensures var d := Run(steps).dispatches[c];
            FirstWins(d, BufferAt(Run(steps), d.channel), Offered(steps, d.channel))
  {
    hide Next, FirstWins, Correlated, Unshared, OfferedBy, BufferAt;
    var before, step := steps[..|steps| - 1], steps[|steps| - 1];
    RunIsCorrelated(before);
    RunIsUnshared(before);
    StepKeepsChannel(Run(before), step, c);
    if c in Run(before).dispatches {
      FirstResultWins(before, c);
      StepKeepsFirst(Run(before), step, c, Offered(before, Run(before).dispatches[c].channel));
    } else {
      UnmadeChannelIsUnused(before, |Run(before).channels|);
      NothingOffered(Run(before), step, c);
      assert Offered(steps, |Run(before).channels|) == [];
    }
  }

  lemma NothingOffered(s: State, step: Step, c: nat)
    requires c !in s.dispatches && c in Next(s, step).dispatches
    ensures OfferedBy(s, step, |s.channels|) == []
    ensures FirstWins(Next(s, step).dispatches[c], BufferAt(Next(s, step), |s.channels|), [])
  {
    StepKeepsChannel(s, step, c);
    assert Next(s, step) == Begun(s, c, step.node, step.id);
  }

  /** Only leaving gives a caller its outcome, apart from the refusal of an offline node. */
  lemma ReturnMoves(s: State, step: Step, c: nat)
    requires c in Next(s, step).returned
    ensures var after := Next(s, step).returned[c];
            || (c in s.returned && after == s.returned[c])
            || after.outcome.Offline?
            || (step == Leave(c) && Enabled(s, step)
                && after == Return(s.dispatches[c].id, Some(s.dispatches[c].channel), s.dispatches[c].phase.outcome))
  {
  }

  /** So whatever answer a caller gets back is the first result that any handler sent to its channel. */
  lemma {:induction false} AnswerIsFirstResult(steps: seq<Step>, c: nat)
    requires c in Run(steps).returned && Run(steps).returned[c].outcome.Answered?
    ensures var back := Run(steps).returned[c];
            && back.channel.Some? && Offered(steps, back.channel.value) != []
            && Offered(steps, back.channel.value)[0] == back.outcome.result
  {
    hide Next, OfferedBy;
    var before, step := steps[..|steps| - 1], steps[|steps| - 1];
    ReturnMoves(Run(before), step, c);
    if c in Run(before).returned && Run(steps).returned[c] == Run(before).returned[c] {
      AnswerIsFirstResult(before, c);
    } else {
      FirstResultWins(before, c);
    }
  }

  // ---- The table is exact ----

  function InFlight(s: State): set<string> {
    set c | c in s.dispatches :: s.dispatches[c].id
  }

  ghost predicate Exact(s: State) {
    s.pending.Keys == InFlight(s)
  }

  /** Each dispatch starts under an ID that none in flight uses. */
  ghost predicate DistinctIds(steps: seq<Step>) {
    forall i | 0 <= i < |steps| && steps[i].Begin? :: steps[i].id !in InFlight(Run(steps[..i]))
  }

  ghost predicate OneEach(s: State) {
    forall b, c | b in s.dispatches && c in s.dispatches && b != c :: s.dispatches[b].id != s.dispatches[c].id
  }

  /** The entry of a dispatch in flight leads to its own channel. */
  ghost predicate Linked(s: State) {
    forall c | c in s.dispatches ::
      s.dispatches[c].id in s.pending && s.pending[s.dispatches[c].id] == s.dispatches[c].channel
  }

  lemma StepKeepsOneEach(s: State, step: Step)
    requires OneEach(s) && (step.Begin? ==> step.id !in InFlight(s))
    ensures OneEach(Next(s, step))
  {
    var after := Next(s, step);
    forall b, c | b in after.dispatches && c in after.dispatches && b != c
      ensures after.dispatches[b].id != after.dispatches[c].id
    {
      StepKeepsChannel(s, step, b);
      StepKeepsChannel(s, step, c);
      hide Next;
    }
  }

  lemma StepKeepsLinks(s: State, step: Step)
    requires Linked(s) && OneEach(s) && (step.Begin? ==> step.id !in InFlight(s))
    ensures Linked(Next(s, step))
  {
    forall c | c in Next(s, step).dispatches
      ensures var d := Next(s, step).dispatches[c];
              d.id in Next(s, step).pending && Next(s, step).pending[d.id] == d.channel
    {
      StepKeepsChannel(s, step, c);
    }
  }

  lemma NewInFlight(s: State, after: State, c: nat, d: Dispatch)
    requires c !in s.dispatches && after.dispatches == s.dispatches[c := d]
    ensures InFlight(after) == InFlight(s) + {d.id}
  {
    assert after.dispatches[c].id == d.id;
    forall b | b in s.dispatches
      ensures b in after.dispatches && after.dispatches[b].id == s.dispatches[b].id
    {
    }
  }

  lemma StepKeepsExactness(s: State, step: Step)
    requires Exact(s) && OneEach(s) && (step.Begin? ==> step.id !in InFlight(s))
    ensures Exact(Next(s, step))
  {
    var after := Next(s, step);
    if Enabled(s, step) && step.Begin? && step.node in s.connections {
      assert after.dispatches == s.dispatches[step.caller := after.dispatches[step.caller]];
      NewInFlight(s, after, step.caller, after.dispatches[step.caller]);
    } else if Enabled(s, step) && step.Leave? {
      LeavingIsExactIff(s, step.caller);
    } else {
      assert after.dispatches.Keys == s.dispatches.Keys;
      forall c | c in s.dispatches
        ensures after.dispatches[c].id == s.dispatches[c].id
      {
      }
      hide Next;
      assert InFlight(after) == InFlight(s);
    }
  }

  lemma EmptyTableIsExact()
    ensures Exact(EMPTY) && OneEach(EMPTY) && Linked(EMPTY)
  {
  }

  /** With distinct IDs the table's keys are exactly the dispatches in flight, and each leads to its own channel. */
  lemma {:induction false} PendingIsInFlight(steps: seq<Step>)
    requires DistinctIds(steps)
    ensures Exact(Run(steps)) && OneEach(Run(steps)) && Linked(Run(steps))
  {
    hide Next, Exact, OneEach, Linked;
    if steps != [] {
      var before := steps[..|steps| - 1];
      assert forall i | 0 <= i < |before| :: before[..i] == steps[..i];
      PendingIsInFlight(before);
      assert before == steps[..|steps| - 1];
      StepKeepsExactness(Run(before), steps[|steps| - 1]);
      StepKeepsOneEach(Run(before), steps[|steps| - 1]);
      StepKeepsLinks(Run(before), steps[|steps| - 1]);
    } else {
      EmptyTableIsExact();
    }
  }

  /** It is distinctness that does it: a dispatch that leaves takes the entry of any other under its ID away. */
  lemma LeavingIsExactIff(s: State, c: nat)
    requires Exact(s) && Enabled(s, Leave(c))
    ensures Exact(Next(s, Leave(c))) <==>
            !exists b :: b in s.dispatches && b != c && s.dispatches[b].id == s.dispatches[c].id
  {
    var after, id := Next(s, Leave(c)), s.dispatches[c].id;
    if b :| b in s.dispatches && b != c && s.dispatches[b].id == id {
      assert b in after.dispatches && id in InFlight(after);
    } else {
      forall x
        ensures x in InFlight(after) <==> x in InFlight(s) && x != id
      {
        if x in InFlight(s) && x != id {
          var b :| b in s.dispatches && s.dispatches[b].id == x;
          assert b in after.dispatches;
        }
      }
    }
  }

  // ---- A result reaches its dispatcher ----

  lemma RunOneMore(steps: seq<Step>, step: Step)
    ensures Run(steps + [step]) == Next(Run(steps), step)
  {
    assert (steps + [step])[..|steps|] == steps;
  }

  /** A stream is that of the node's last registration, until the node is unregistered; nothing else touches it. */
  lemma ConnectionIsLast(steps: seq<Step>, step: Step)
    ensures var before, after := Run(steps).connections, Run(steps + [step]).connections;
            after == if step.Register? then before[step.node := step.sender]
                     else if step.Unregister? then before - {step.node}
                     else before
  {
    RunOneMore(steps, step);
  }

  /**
   A new caller is sent back at once exactly when its node has no stream; else it gets an empty channel that nobody
   used before, entered under its ID.
   */
  lemma DispatchStarts(steps: seq<Step>, c: nat, node: string, id: string)
    requires c !in Run(steps).dispatches && c !in Run(steps).returned
    ensures var s, after := Run(steps), Run(steps + [Begin(c, node, id)]);
            if node !in s.connections then after == s.(returned := s.returned[c := Return(id, None, Offline)])
            else
              && c in after.dispatches && after.dispatches[c] == Dispatch(id, |s.channels|, Sending)
              && after.channels == s.channels + [Channel(id, [])]
              && id in after.pending && after.pending[id] == |s.channels|
              && (forall b | b in s.dispatches :: s.dispatches[b].channel != after.dispatches[c].channel)
  {
    RunOneMore(steps, Begin(c, node, id));
    RunIsUnshared(steps);
  }

  /** A failed send and an ended context end the wait with just that outcome, which the caller then gets. */
  lemma FailuresComeBack(steps: seq<Step>, c: nat)
    requires c in Run(steps).dispatches
    ensures var d := Run(steps).dispatches[c];
            && (d.phase.Sending? ==>
                  && c in Run(steps + [Transmit(c, true)]).dispatches
                  && Run(steps + [Transmit(c, true)]).dispatches[c] == d.(phase := Waiting)
                  && c in Run(steps + [Transmit(c, false)] + [Leave(c)]).returned
                  && Run(steps + [Transmit(c, false)] + [Leave(c)]).returned[c] ==
                     Return(d.id, Some(d.channel), SendFailed))
            && (d.phase.Waiting? ==>
                  && c in Run(steps + [Cancel(c)] + [Leave(c)]).returned
                  && Run(steps + [Cancel(c)] + [Leave(c)]).returned[c] == Return(d.id, Some(d.channel), Canceled))
  {
    RunOneMore(steps, Transmit(c, true));
    RunOneMore(steps, Transmit(c, false));
    RunOneMore(steps + [Transmit(c, false)], Leave(c));
    RunOneMore(steps, Cancel(c));
    RunOneMore(steps + [Cancel(c)], Leave(c));
    hide Run;
  }

  /** With distinct IDs an arriving result finds the channel of the dispatch in flight under its ID, and no other. */
  lemma ResultFindsChannel(steps: seq<Step>, c: nat, h: nat, r: Result)
    requires DistinctIds(steps) && h !in Run(steps).handlers
    requires c in Run(steps).dispatches && Run(steps).dispatches[c].id == r.id
    ensures var s, after := Run(steps), Run(steps + [LookUp(h, r)]);
            after == s.(handlers := s.handlers[h := Handler(r, s.dispatches[c].channel)])
  {
    hide Run, Next, DistinctIds, Exact, OneEach, Linked;
    PendingIsInFlight(steps);
    RunOneMore(steps, LookUp(h, r));
    EntryIsFound(Run(steps), c, h, r);
  }

  lemma EntryIsFound(s: State, c: nat, h: nat, r: Result)
    requires Linked(s) && h !in s.handlers && c in s.dispatches && s.dispatches[c].id == r.id
    ensures Next(s, LookUp(h, r)) == s.(handlers := s.handlers[h := Handler(r, s.dispatches[c].channel)])
  {
  }

  /** A result that nobody in flight waits for is dropped where it arrives. */
  lemma StrayResultIsDropped(steps: seq<Step>, h: nat, r: Result)
    requires DistinctIds(steps)
    requires forall c | c in Run(steps).dispatches :: Run(steps).dispatches[c].id != r.id
    ensures Run(steps + [LookUp(h, r)]) == Run(steps)
  {
    hide Run, Next, DistinctIds, Exact, OneEach, Linked;
    PendingIsInFlight(steps);
    RunOneMore(steps, LookUp(h, r));
    NoEntryIsFound(Run(steps), h, r);
  }

  lemma NoEntryIsFound(s: State, h: nat, r: Result)
    requires Exact(s) && forall c | c in s.dispatches :: s.dispatches[c].id != r.id
    ensures Next(s, LookUp(h, r)) == s
  {
    assert r.id !in InFlight(s);
  }

  /** A handler's send puts its result into an empty buffer and leaves a full one; nothing else changes. */
  lemma ResultIsBuffered(steps: seq<Step>, h: nat)
    requires h in Run(steps).handlers
    ensures var s, after := Run(steps), Run(steps + [Deliver(h)]);
            var Handler(r, at) := s.handlers[h];
            && at < |s.channels|
            && var before := s.channels[at];
               var buffer := if before.buffer == [] then [r] else before.buffer;
               after == s.(channels := s.channels[at := before.(buffer := buffer)], handlers := s.handlers - {h})
  {
    RunIsCorrelated(steps);
    RunOneMore(steps, Deliver(h));
    hide Run;
  }

  /** A waiting caller whose buffer is not empty takes what is in it and comes back with just that. */
  lemma BufferedComesBack(steps: seq<Step>, c: nat)
    requires c in Run(steps).dispatches && Run(steps).dispatches[c].phase.Waiting?
    requires Run(steps).dispatches[c].channel < |Run(steps).channels|
    requires Run(steps).channels[Run(steps).dispatches[c].channel].buffer != []
    ensures var s, after := Run(steps), Run(steps + [Receive(c)] + [Leave(c)]);
            var d := s.dispatches[c];
            && c !in after.dispatches && d.id !in after.pending
            && c in after.returned
            && after.returned[c] == Return(d.id, Some(d.channel), Answered(s.channels[d.channel].buffer[0]))
  {
    RunOneMore(steps, Receive(c));
    RunOneMore(steps + [Receive(c)], Leave(c));
    hide Run;
  }

  // ---- And does so in every interleaving ----

  lemma StartedStays(s: State, step: Step, c: nat)
    requires c in s.dispatches || c in s.returned
    ensures c in Next(s, step).dispatches || c in Next(s, step).returned
  {
  }

  lemma {:induction false} StartedInRun(steps: seq<Step>, n: nat, c: nat)
    requires n <= |steps| && (c in Run(steps[..n]).dispatches || c in Run(steps[..n]).returned)
    ensures c in Run(steps).dispatches || c in Run(steps).returned
    decreases |steps|
  {
    hide Next;
    if n == |steps| {
      assert steps[..n] == steps;
    } else {
      var before := steps[..|steps| - 1];
      assert before[..n] == steps[..n];
      StartedInRun(before, n, c);
      StartedStays(Run(before), steps[|before|], c);
    }
  }

  lemma NotStartedTwice(s: State, step: Step, c: nat)
    requires c in Next(s, step).dispatches && c !in s.dispatches
    ensures c !in s.returned
  {
  }

  /** A dispatch in flight at two points is the same one. */
  lemma {:induction false} DispatchStays(steps: seq<Step>, n: nat, c: nat)
    requires n <= |steps| && c in Run(steps[..n]).dispatches && c in Run(steps).dispatches
    ensures Run(steps).dispatches[c].channel == Run(steps[..n]).dispatches[c].channel
    ensures Run(steps).dispatches[c].id == Run(steps[..n]).dispatches[c].id
    decreases |steps|
  {
    hide Next;
    if n == |steps| {
      assert steps[..n] == steps;
    } else {
      var before := steps[..|steps| - 1];
      assert before[..n] == steps[..n];
      StartedInRun(before, n, c);
      if c !in Run(before).dispatches {
        NotStartedTwice(Run(before), steps[|before|], c);
        assert false;
      }
      DispatchStays(before, n, c);
      StepKeepsChannel(Run(before), steps[|before|], c);
    }
  }

  lemma HandlerKept(s: State, step: Step, h: nat)
    requires h in s.handlers && step != Deliver(h)
    ensures h in Next(s, step).handlers && Next(s, step).handlers[h] == s.handlers[h]
  {
  }

  lemma {:induction false} HandlerStays(steps: seq<Step>, n: nat, h: nat)
    requires n <= |steps| && h in Run(steps[..n]).handlers
    requires forall k | n <= k < |steps| :: steps[k] != Deliver(h)
    ensures h in Run(steps).handlers && Run(steps).handlers[h] == Run(steps[..n]).handlers[h]
    decreases |steps|
  {
    hide Next;
    if n == |steps| {
      assert steps[..n] == steps;
    } else {
      var before := steps[..|steps| - 1];
      assert before[..n] == steps[..n];
      HandlerStays(before, n, h);
      HandlerKept(Run(before), steps[|before|], h);
    }
  }

  lemma {:induction false} OfferedGrows(steps: seq<Step>, n: nat, at: nat)
    requires n <= |steps|
    ensures Offered(steps[..n], at) <= Offered(steps, at)
    decreases |steps|
  {
    hide Run, OfferedBy;
    if n == |steps| {
      assert steps[..n] == steps;
    } else {
      var before := steps[..|steps| - 1];
      assert before[..n] == steps[..n];
      OfferedGrows(before, n, at);
    }
  }

  lemma DeliverOffers(steps: seq<Step>, k: nat, h: nat, r: Result, at: nat)
    requires k < |steps| && steps[k] == Deliver(h)
    requires h in Run(steps[..k]).handlers && Run(steps[..k]).handlers[h] == Handler(r, at)
    ensures r in Offered(steps, at)
  {
    assert steps[..k + 1][..k] == steps[..k];
    RunIsCorrelated(steps[..k]);
    hide Run, Correlated;
    assert Enabled(Run(steps[..k]), Deliver(h)) by {
      HandlersNeverBlock(steps[..k], h);
    }
    OfferedGrows(steps, k + 1, at);
    assert Offered(steps[..k + 1], at) == Offered(steps[..k], at) + [r];
  }
  /**
   So with distinct IDs no result is lost on its dispatcher. Once a handler that came in while c was in flight under
   the result's ID has sent it, c has a result waiting for it, unless it has already stopped waiting; and that is the
   first one sent to it.
   */
  lemma ResultArrives(steps: seq<Step>, n: nat, k: nat, c: nat, h: nat, r: Result)
    requires DistinctIds(steps) && n < k < |steps| && steps[n] == LookUp(h, r) && steps[k] == Deliver(h)
    requires forall j | n < j < k :: steps[j] != Deliver(h)
    requires h !in Run(steps[..n]).handlers
    requires c in Run(steps[..n]).dispatches && Run(steps[..n]).dispatches[c].id == r.id
    requires c in Run(steps).dispatches && !Run(steps).dispatches[c].phase.Leaving?
    ensures var s := Run(steps);
            var at := s.dispatches[c].channel;
            && r in Offered(steps, at)
            && at < |s.channels| && s.channels[at].buffer == [Offered(steps, at)[0]]
  {
    HandlerHasChannel(steps, n, k, c, h, r);
    DispatchStays(steps, n, c);
    var at := Run(steps).dispatches[c].channel;
    hide Run, Next, DistinctIds;
    DeliverOffers(steps, k, h, r, at);
    FirstResultWins(steps, c);
    RunIsUnshared(steps);
    assert Offered(steps, at)[..1] == [Offered(steps, at)[0]];
  }

  lemma HandlerHasChannel(steps: seq<Step>, n: nat, k: nat, c: nat, h: nat, r: Result)
    requires DistinctIds(steps) && n < k < |steps| && steps[n] == LookUp(h, r)
    requires forall j | n < j < k :: steps[j] != Deliver(h)
    requires h !in Run(steps[..n]).handlers
    requires c in Run(steps[..n]).dispatches && Run(steps[..n]).dispatches[c].id == r.id
    ensures h in Run(steps[..k]).handlers
    ensures Run(steps[..k]).handlers[h] == Handler(r, Run(steps[..n]).dispatches[c].channel)
  {
    var begun := steps[..n];
    DistinctPrefix(steps, n);
    hide Run, Next, DistinctIds;
    assert steps[..n + 1] == begun + [LookUp(h, r)];
    ResultFindsChannel(begun, c, h, r);
    assert steps[..k][..n + 1] == steps[..n + 1];
    HandlerStays(steps[..k], n + 1, h);
  }

  lemma DistinctPrefix(steps: seq<Step>, n: nat)
    requires DistinctIds(steps) && n <= |steps|
    ensures DistinctIds(steps[..n])
  {
    assert forall i | 0 <= i < n :: steps[..n][..i] == steps[..i];
  }

  // ---- The connection manager ----

  /**
   DispatchCommand and HandleCommandResult are split where they wait or release the lock. What a goroutine keeps
   to itself in between comes back to it as a parameter; the ghost fields record it for all goroutines.
   */
  class MemoryConnectionManager {
    var connections: map<string, nat>
    var pendingCmds: map<string, nat>
    var channels: seq<Channel>
    ghost var dispatches: map<nat, Dispatch>
    ghost var handlers: map<nat, Handler>
    ghost var returned: map<nat, Return>

    constructor ()
      ensures Contents() == EMPTY
    {
      connections, pendingCmds, channels := map[], map[], [];
      dispatches, handlers, returned := map[], map[], map[];
    }

    ghost function Contents(): State
      reads this
    {
      State(connections, pendingCmds, channels, dispatches, handlers, returned)
    }

    method RegisterConnection(node: string, sender: nat)
      modifies this
      ensures Contents() == Next(old(Contents()), Register(node, sender))
    {
      connections := connections[node := sender];
    }

    method UnregisterConnection(node: string)
      modifies this
      ensures Contents() == Next(old(Contents()), Unregister(node))
    {
      connections := connections - {node};
    }

    /** DispatchCommand up to the release of the lock: table entry and channel, or refusal of an offline node. */
    method BeginDispatch(ghost caller: nat, node: string, id: string) returns (channel: Option<nat>)
      requires Enabled(Contents(), Begin(caller, node, id))
      modifies this
      ensures Contents() == Next(old(Contents()), Begin(caller, node, id))
      ensures channel.None? <==> node !in old(connections)
      ensures channel.Some? ==> caller in dispatches && dispatches[caller] == Dispatch(id, channel.value, Sending)
    {
      if node !in connections {
        returned := returned[caller := Return(id, None, Offline)];
        return None;
      }
      var made := |channels|;
      channels := channels + [Channel(id, [])];
      pendingCmds := pendingCmds[id := made];
      dispatches := dispatches[caller := Dispatch(id, made, Sending)];
      channel := Some(made);
    }

    /** The outcome of sending the command on the stream: an error ends the dispatch. */
    method TransmitCommand(ghost caller: nat, sent: bool) returns (failed: Option<Outcome>)
      requires Enabled(Contents(), Transmit(caller, sent))
      modifies this
      ensures Contents() == Next(old(Contents()), Transmit(caller, sent))
      ensures failed == if sent then None else Some(SendFailed)
    {
      ghost var d := dispatches[caller];
      dispatches := dispatches[caller := d.(phase := if sent then Waiting else Leaving(SendFailed))];
      failed := if sent then None else Some(SendFailed);
    }

    /**
     The select: a result if the channel has one, or the end of the context; either may be taken when both are there.
     */
    method Await(ghost caller: nat, channel: nat, canceled: bool) returns (outcome: Option<Outcome>)
      requires Enabled(Contents(), Cancel(caller)) && dispatches[caller].channel == channel < |channels|
      modifies this
      ensures outcome.Some? <==> canceled || Enabled(old(Contents()), Receive(caller))
      ensures Contents() == if canceled then Next(old(Contents()), Cancel(caller))
                            else Next(old(Contents()), Receive(caller))
      ensures outcome.Some? ==> caller in dispatches && dispatches[caller].phase == Leaving(outcome.value)
    {
      ghost var d := dispatches[caller];
      if canceled {
        dispatches := dispatches[caller := d.(phase := Leaving(Canceled))];
        return Some(Canceled);
      }
      var ch := channels[channel];
      if ch.buffer == [] {
        return None;
      }
      channels := channels[channel := ch.(buffer := ch.buffer[1..])];
      outcome := Some(Answered(ch.buffer[0]));
      dispatches := dispatches[caller := d.(phase := Leaving(outcome.value))];
    }

    /** The deferred removal of the entry, and the return. */
    method FinishDispatch(ghost caller: nat, id: string, outcome: Outcome)
      requires Enabled(Contents(), Leave(caller))
      requires dispatches[caller].id == id && dispatches[caller].phase == Leaving(outcome)
      modifies this
      ensures Contents() == Next(old(Contents()), Leave(caller))
    {
      pendingCmds := pendingCmds - {id};
      returned := returned[caller := Return(id, Some(dispatches[caller].channel), outcome)];
      dispatches := dispatches - {caller};
    }

    /** The first half of HandleCommandResult, under the read lock. */
    method LookUpChannel(ghost handler: nat, result: Result) returns (channel: Option<nat>)
      requires Enabled(Contents(), LookUp(handler, result))
      modifies this
      ensures Contents() == Next(old(Contents()), LookUp(handler, result))
      ensures channel.Some? <==> handler in handlers
      ensures channel.Some? ==> handlers[handler] == Handler(result, channel.value)
    {
      channel := None;
      if result.id in pendingCmds {
        channel := Some(pendingCmds[result.id]);
        handlers := handlers[handler := Handler(result, channel.value)];
      }
    }

    /** The second half: a send that gives up when the buffer is full. */
    method SendResult(ghost handler: nat, result: Result, channel: nat)
      requires Enabled(Contents(), Deliver(handler)) && handlers[handler] == Handler(result, channel)
      modifies this
      ensures Contents() == Next(old(Contents()), Deliver(handler))
    {
      var ch := channels[channel];
      if |ch.buffer| < 1 {
        channels := channels[channel := ch.(buffer := ch.buffer + [result])];
      }
      handlers := handlers - {handler};
      assert ch.buffer + [result] == if ch.buffer == [] then [result] else ch.buffer + [result];
      assert channels == old(channels)[channel := Offer(ch, result)];
    }
  }
}
