/** The asynchronous ingestion worker as a step system (internal/ego/worker.go): producers send into a
    bounded queue, one flush loop collects batches and drains on stop, and Stop waits for the loop before
    it closes the store. A run is any sequence of steps of the three. */
module Pipeline {
  import opened Models
  import opened Ingest

  // ----- State ------------------------------------------------------------

  datatype Outcome = Committed | Failed | NoStorage

  /** One hand-over of the batch buffer to the store. */
  datatype Flush = Flush(events: seq<EgoEvent>, outcome: Outcome)

  /** Where the flush loop is: `Received` and `DrainReceived` have just appended an event, `LastFlush`
      has seen the queue empty while draining. */
  datatype Loop = NotStarted | AtSelect | Received | Draining | DrainReceived | LastFlush | Exited

  /** How far the one effective call of Stop has got. */
  datatype StopCall = Idle | Signalled | Waited | Finished

  /** The last six fields are history: everything accepted, everything flushed, how many events had been
      accepted when the stop signal was raised and when the drain saw an empty queue, how many had been
      flushed when Stop's wait returned, and whether the loop had been started by then. */
  datatype State = State(
    capacity: nat,
    batchSize: nat,
    hasStorage: bool,
    queue: seq<EgoEvent>,
    batch: seq<EgoEvent>,
    loop: Loop,
    stop: StopCall,
    storageClosed: bool,
    table: seq<EgoEvent>,
    accepted: seq<EgoEvent>,
    flushes: seq<Flush>,
    atSignal: nat,
    atEmpty: nat,
    atWait: nat,
    startedInTime: bool)

  function Initial(capacity: nat, batchSize: nat, hasStorage: bool, table: seq<EgoEvent>): State {
    State(capacity, batchSize, hasStorage, [], [], NotStarted, Idle, false, table, [], [], 0, 0, 0, false)
  }

  /** `ok` says whether the store accepts the batch if the step flushes one. `Handoff` is a send received
      at once by the waiting loop, the only kind an unbuffered queue knows; the loop then settles it. */
  datatype Step =
    | Send(e: EgoEvent)
    | Handoff(e: EgoEvent)
    | StartLoop
    | Receive
    | Settle(ok: bool)
    | Tick(ok: bool)
    | SeeStop
    | DrainReceive
    | DrainSettle(ok: bool)
    | DrainEmpty
    | FlushAndExit(ok: bool)
    | CallStop
    | WaitReturns
    | CloseStorage

  predicate Enabled(s: State, step: Step) {
    match step
    case Send(_) => |s.queue| < s.capacity
    case Handoff(_) => s.capacity == 0 && s.loop.AtSelect?
    case StartLoop => s.loop.NotStarted?
    case Receive => s.loop.AtSelect? && s.queue != []
    case Settle(_) => s.loop.Received?
    case Tick(_) => s.loop.AtSelect?
    case SeeStop => s.loop.AtSelect? && !s.stop.Idle?
    case DrainReceive => s.loop.Draining? && s.queue != []
    case DrainSettle(_) => s.loop.DrainReceived?
    case DrainEmpty => s.loop.Draining? && s.queue == []
    case FlushAndExit(_) => s.loop.LastFlush?
    case CallStop => s.stop.Idle?
    case WaitReturns => s.stop.Signalled? && (s.loop.NotStarted? || s.loop.Exited?)
    case CloseStorage => s.stop.Waited?
  }

  /** The flush closure: an empty batch is left alone; the buffer is reused whether or not the insert
      succeeds; a closed store refuses every insert. */
  function FlushBatch(s: State, ok: bool): State {
    if s.batch == [] then s
    else
      var outcome := if !s.hasStorage then NoStorage else if ok && !s.storageClosed then Committed else Failed;
      s.(batch := [],
         flushes := s.flushes + [Flush(s.batch, outcome)],
         table := if outcome.Committed? then s.table + s.batch else s.table)
  }

  function FlushIfFull(s: State, ok: bool): State {
    if |s.batch| >= s.batchSize then FlushBatch(s, ok) else s
  }

  function Dequeue(s: State): State
    requires s.queue != []
  {
    s.(queue := s.queue[1..], batch := s.batch + [s.queue[0]])
  }

  /** A step that is not enabled changes nothing: a send into a full queue is dropped, a second Stop has
      no effect. */
  function Next(s: State, step: Step): State {
    if !Enabled(s, step) then s
    else
      match step
      case Send(e) => s.(queue := s.queue + [e], accepted := s.accepted + [e])
      case Handoff(e) => s.(batch := s.batch + [e], accepted := s.accepted + [e], loop := Received)
      case StartLoop => s.(loop := AtSelect)
      case Receive => Dequeue(s).(loop := Received)
      case Settle(ok) => FlushIfFull(s, ok).(loop := AtSelect)
      case Tick(ok) => FlushBatch(s, ok)
      case SeeStop => s.(loop := Draining)
      case DrainReceive => Dequeue(s).(loop := DrainReceived)
      case DrainSettle(ok) => FlushIfFull(s, ok).(loop := Draining)
      case DrainEmpty => s.(loop := LastFlush, atEmpty := |s.accepted|)
      case FlushAndExit(ok) => FlushBatch(s, ok).(loop := Exited)
      case CallStop => s.(stop := Signalled, atSignal := |s.accepted|)
      case WaitReturns => s.(stop := Waited, atWait := |Flushed(s.flushes)|, startedInTime := s.loop.Exited?)
      case CloseStorage => s.(stop := Finished, storageClosed := s.hasStorage)
  }

  function Run(s: State, steps: seq<Step>): State {
    if steps == [] then s else Next(Run(s, steps[..|steps| - 1]), steps[|steps| - 1])
  }

  lemma RunAppends(s: State, steps: seq<Step>, step: Step)
    ensures Run(s, steps + [step]) == Next(Run(s, steps), step)
  {
    assert (steps + [step])[..|steps|] == steps;
  }

  // ----- Everything accepted is in one place ------------------------------

  function Flushed(flushes: seq<Flush>): seq<EgoEvent> {
    if flushes == [] then [] else Flushed(flushes[..|flushes| - 1]) + flushes[|flushes| - 1].events
  }

  function CommittedEvents(flushes: seq<Flush>): seq<EgoEvent> {
    if flushes == [] then []
    else
      var last := flushes[|flushes| - 1];
      CommittedEvents(flushes[..|flushes| - 1]) + (if last.outcome.Committed? then last.events else [])
  }

  function BatchLimit(s: State): nat {
    if s.batchSize == 0 then 1 else s.batchSize
  }

  /** Accepted events are, in order, those of all flushed batches, then the current batch, then the queue;
      the table gained exactly the committed batches, each whole. */
  ghost predicate InOnePlace(table: seq<EgoEvent>, s: State) {
    && s.accepted == Flushed(s.flushes) + s.batch + s.queue
    && s.table == table + CommittedEvents(s.flushes)
  }

  /** The queue respects its capacity; the batch is below its limit whenever the loop is at a select. */
  ghost predicate Bounded(s: State) {
    && |s.queue| <= s.capacity
    && |s.batch| <= BatchLimit(s)
    && (s.loop.NotStarted? || s.loop.AtSelect? || s.loop.Draining? || s.loop.LastFlush? ==> |s.batch| < BatchLimit(s))
  }

  /** How far stop and drain have got, and what that says about the buffers. */
  ghost predicate StopOrder(s: State) {
    && (s.storageClosed <==> s.stop.Finished? && s.hasStorage)
    && (s.loop.NotStarted? ==> s.batch == [] && s.flushes == [])
    && (s.loop.Draining? || s.loop.DrainReceived? || s.loop.LastFlush? || s.loop.Exited? ==> !s.stop.Idle?)
    && (!s.stop.Idle? ==> s.atSignal <= |s.accepted|)
    && (s.loop.Exited? ==> s.batch == [])
    && (s.loop.LastFlush? || s.loop.Exited? ==>
          s.atSignal <= s.atEmpty <= |s.accepted| && Flushed(s.flushes) + s.batch == s.accepted[..s.atEmpty])
    && (s.startedInTime ==> s.loop.Exited?)
    && (s.stop.Waited? || s.stop.Finished? ==> s.atWait == if s.startedInTime then s.atEmpty else 0)
  }

  lemma FlushAppends(flushes: seq<Flush>, f: Flush)
    ensures Flushed(flushes + [f]) == Flushed(flushes) + f.events
    ensures CommittedEvents(flushes + [f]) == CommittedEvents(flushes) + (if f.outcome.Committed? then f.events else [])
  {
    assert (flushes + [f])[..|flushes|] == flushes;
  }

  lemma FlushMovesBatch(table: seq<EgoEvent>, s: State, ok: bool)
    requires InOnePlace(table, s)
    ensures var t := FlushBatch(s, ok);
            InOnePlace(table, t) && t.batch == [] && Flushed(t.flushes) == Flushed(s.flushes) + s.batch
  {
    if s.batch != [] {
      FlushAppends(s.flushes, FlushBatch(s, ok).flushes[|s.flushes|]);
    }
  }

  lemma DequeueMovesEvent(table: seq<EgoEvent>, s: State)
    requires InOnePlace(table, s) && s.queue != []
    ensures InOnePlace(table, Dequeue(s))
  {
    assert s.queue == [s.queue[0]] + s.queue[1..];
  }

  predicate Flushes(step: Step) {
    step.Settle? || step.Tick? || step.DrainSettle? || step.FlushAndExit?
  }

  predicate Moves(step: Step) {
    step.Send? || step.Handoff? || step.Receive? || step.DrainReceive?
  }

  lemma FlushStepKeepsPlaces(table: seq<EgoEvent>, s: State, step: Step)
    requires InOnePlace(table, s) && Bounded(s) && Flushes(step) && Enabled(s, step)
    ensures InOnePlace(table, Next(s, step))
  {
    FlushMovesBatch(table, s, step.ok);
  }

  lemma MoveKeepsPlaces(table: seq<EgoEvent>, s: State, step: Step)
    requires InOnePlace(table, s) && Bounded(s) && Moves(step) && Enabled(s, step)
    ensures InOnePlace(table, Next(s, step))
  {
    if step.Send? || step.Handoff? {
      assert s.accepted + [step.e] == Flushed(s.flushes) + s.batch + (s.queue + [step.e]);
      assert step.Handoff? ==> s.queue == [];
    } else {
      DequeueMovesEvent(table, s);
    }
  }

  lemma OtherStepMovesNothing(s: State, step: Step)
    requires !Flushes(step) && !Moves(step)
    ensures var t := Next(s, step);
            t.queue == s.queue && t.batch == s.batch && t.accepted == s.accepted && t.flushes == s.flushes && t.table == s.table
  {
  }

  lemma NextKeepsPlaces(table: seq<EgoEvent>, s: State, step: Step)
    requires InOnePlace(table, s) && Bounded(s)
    ensures InOnePlace(table, Next(s, step))
  {
    if !Enabled(s, step) {
      assert Next(s, step) == s;
    } else if Flushes(step) {
      FlushStepKeepsPlaces(table, s, step);
    } else if Moves(step) {
      MoveKeepsPlaces(table, s, step);
    } else {
      OtherStepMovesNothing(s, step);
    }
  }

  lemma NextKeepsBounds(s: State, step: Step)
    requires Bounded(s)
    ensures Bounded(Next(s, step))
  {
  }

  lemma LastFlushKeepsStopOrder(table: seq<EgoEvent>, s: State, ok: bool)
    requires InOnePlace(table, s) && StopOrder(s) && s.loop.LastFlush?
    ensures StopOrder(Next(s, FlushAndExit(ok)))
  {
    FlushMovesBatch(table, s, ok);
    var t := FlushBatch(s, ok);
    assert Flushed(t.flushes) + t.batch == Flushed(s.flushes) + s.batch;
  }

  lemma FlushStepKeepsStopOrder(s: State, step: Step)
    requires StopOrder(s) && Flushes(step) && !step.FlushAndExit? && Enabled(s, step)
    ensures StopOrder(Next(s, step))
  {
    var t := Next(s, step);
    assert t.stop == s.stop && t.atSignal == s.atSignal && |t.accepted| >= |s.accepted| && t.startedInTime == s.startedInTime;
    assert t.loop.AtSelect? || t.loop.Draining?;
  }

  lemma MoveKeepsStopOrder(s: State, step: Step)
    requires StopOrder(s) && Moves(step) && Enabled(s, step)
    ensures StopOrder(Next(s, step))
  {
    if step.Send? && (s.loop.LastFlush? || s.loop.Exited?) {
      assert (s.accepted + [step.e])[..s.atEmpty] == s.accepted[..s.atEmpty];
    }
  }

  lemma OtherStepKeepsStopOrder(table: seq<EgoEvent>, s: State, step: Step)
    requires InOnePlace(table, s) && Bounded(s) && StopOrder(s) && !Flushes(step) && !Moves(step) && Enabled(s, step)
    ensures StopOrder(Next(s, step))
  {
    if step.DrainEmpty? {
      assert s.accepted[..|s.accepted|] == s.accepted;
      assert Flushed(s.flushes) + s.batch + [] == Flushed(s.flushes) + s.batch;
    }
    if step.WaitReturns? && s.loop.Exited? {
      assert Flushed(s.flushes) + [] == Flushed(s.flushes);
    }
  }

  lemma NextKeepsStopOrder(table: seq<EgoEvent>, s: State, step: Step)
    requires InOnePlace(table, s) && Bounded(s) && StopOrder(s)
    ensures StopOrder(Next(s, step))
  {
    if !Enabled(s, step) {
      assert Next(s, step) == s;
    } else if step.FlushAndExit? {
      LastFlushKeepsStopOrder(table, s, step.ok);
    } else if Flushes(step) {
      FlushStepKeepsStopOrder(s, step);
    } else if Moves(step) {
      MoveKeepsStopOrder(s, step);
    } else {
      OtherStepKeepsStopOrder(table, s, step);
    }
  }

  /** Every interleaving of producers, loop and stop, with inserts failing at will. */
  lemma {:induction false} EveryRunConserves(capacity: nat, batchSize: nat, hasStorage: bool, table: seq<EgoEvent>, steps: seq<Step>)
    ensures var s := Run(Initial(capacity, batchSize, hasStorage, table), steps);
            InOnePlace(table, s) && Bounded(s) && StopOrder(s)
  {
    if steps != [] {
      var init := steps[..|steps| - 1];
      EveryRunConserves(capacity, batchSize, hasStorage, table, init);
      var s := Run(Initial(capacity, batchSize, hasStorage, table), init);
      NextKeepsPlaces(table, s, steps[|steps| - 1]);
      NextKeepsBounds(s, steps[|steps| - 1]);
      NextKeepsStopOrder(table, s, steps[|steps| - 1]);
    }
  }

  // ----- What is handed over to an open store reaches the table -------------

  /** A flushing step at which an open store accepts the batch. */
  predicate Accepts(s: State, step: Step) {
    Flushes(step) && step.ok && s.hasStorage && !s.storageClosed
  }

  /** The events a step hands over: those of the flushes it adds to the history. */
  function HandedOver(s: State, step: Step): seq<EgoEvent> {
    var flushes := Next(s, step).flushes;
    if |s.flushes| < |flushes| then Flushed(flushes[|s.flushes|..]) else []
  }

  lemma NoneHandedOver()
    ensures Flushed([]) == []
  {
  }

  lemma FlushIsStored(s: State, ok: bool)
    ensures var t := FlushBatch(s, ok);
            && s.flushes <= t.flushes && Flushed(t.flushes[|s.flushes|..]) == s.batch && t.batch == []
            && Flushed(t.flushes) == Flushed(s.flushes) + s.batch
            && t.table == s.table + (if ok && s.hasStorage && !s.storageClosed then s.batch else [])
  {
    var t := FlushBatch(s, ok);
    if s.batch == [] {
      assert t.flushes[|s.flushes|..] == [];
    } else {
      var f := t.flushes[|s.flushes|];
      assert t.flushes[|s.flushes|..] == [] + [f];
      FlushAppends([], f);
      FlushAppends(s.flushes, f);
    }
  }

  lemma FlushStepFlushes(s: State, step: Step)
    requires Flushes(step) && Enabled(s, step)
    ensures var t, f := Next(s, step), FlushBatch(s, step.ok);
            (t.flushes == s.flushes && t.table == s.table) || (t.flushes == f.flushes && t.table == f.table)
  {
  }

  lemma HistoryGrows(s: State, step: Step)
    ensures s.flushes <= Next(s, step).flushes
    ensures Flushed(Next(s, step).flushes) == Flushed(s.flushes) + HandedOver(s, step)
  {
    if Flushes(step) && Enabled(s, step) {
      FlushStepFlushes(s, step);
      FlushIsStored(s, step.ok);
    } else {
      QuietStep(s, step);
    }
  }

  lemma QuietStep(s: State, step: Step)
    requires !(Flushes(step) && Enabled(s, step))
    ensures Next(s, step).flushes == s.flushes && Next(s, step).table == s.table
  {
  }

  /** A step adds to the table exactly what it hands over to an open store that accepts it. */
  lemma StepStores(s: State, step: Step)
    ensures Next(s, step).table == s.table + (if Accepts(s, step) then HandedOver(s, step) else [])
  {
    if Flushes(step) && Enabled(s, step) {
      FlushStepFlushes(s, step);
      FlushIsStored(s, step.ok);
    } else {
      QuietStep(s, step);
    }
  }

  /** The events handed over in a run while the store was open and accepted them. */
  function StoredBy(s: State, steps: seq<Step>): seq<EgoEvent> {
    if steps == [] then []
    else
      var before, step := Run(s, steps[..|steps| - 1]), steps[|steps| - 1];
      StoredBy(s, steps[..|steps| - 1]) + (if Accepts(before, step) then HandedOver(before, step) else [])
  }

  /** Whatever the interleaving, the table gains those events, in order, and no others. */
  lemma {:induction false} TableGainsWhatIsAccepted(s: State, steps: seq<Step>)
    ensures Run(s, steps).table == s.table + StoredBy(s, steps)
  {
    if steps != [] {
      TableGainsWhatIsAccepted(s, steps[..|steps| - 1]);
      StepStores(Run(s, steps[..|steps| - 1]), steps[|steps| - 1]);
    }
  }

  ghost predicate NoRefusal(steps: seq<Step>) {
    forall step | step in steps :: Flushes(step) ==> step.ok
  }

  /** No loop can meet a closed store: Stop has waited for it, or it never started. */
  predicate NoLateLoop(s: State) {
    s.storageClosed ==> s.startedInTime || s.loop.NotStarted?
  }

  lemma NoLateLoopBefore(s: State, step: Step)
    requires StopOrder(s) && NoLateLoop(Next(s, step))
    ensures NoLateLoop(s)
    ensures s.storageClosed ==> !(Flushes(step) && Enabled(s, step))
  {
    NextGrows(s, step);
    if s.storageClosed && (Flushes(step) || Moves(step)) {
      assert Next(s, step).startedInTime == s.startedInTime;
    }
  }

  /** As long as the store refuses nothing and the loop is not started too late, the table gains exactly
      what is handed over, also across a Stop that closes the store. */
  lemma {:induction false} NothingHandedOverIsLost(capacity: nat, batchSize: nat, table: seq<EgoEvent>, before: seq<Step>, later: seq<Step>)
    requires NoRefusal(later) && NoLateLoop(Run(Initial(capacity, batchSize, true, table), before + later))
    ensures var s := Run(Initial(capacity, batchSize, true, table), before);
            var t := Run(Initial(capacity, batchSize, true, table), before + later);
            Flushed(s.flushes) <= Flushed(t.flushes) && t.table == s.table + Flushed(t.flushes)[|Flushed(s.flushes)|..]
  {
    var origin := Initial(capacity, batchSize, true, table);
    var s := Run(origin, before);
    if later == [] {
      assert before + later == before && Flushed(s.flushes)[|Flushed(s.flushes)|..] == [];
    } else {
      var init, last := later[..|later| - 1], later[|later| - 1];
      assert later == init + [last];
      RunAppends(origin, before + init, last);
      assert before + later == (before + init) + [last];
      var r := Run(origin, before + init);
      EveryRunConserves(capacity, batchSize, true, table, before + init);
      NoLateLoopBefore(r, last);
      NothingHandedOverIsLost(capacity, batchSize, table, before, init);
      HistoryGrows(r, last);
      StepStores(r, last);
      StorageStays(origin, before + init);
      OneMoreStored(s, r, last);
    }
  }

  lemma NothingLostSince(capacity: nat, batchSize: nat, table: seq<EgoEvent>, before: seq<Step>, history: seq<Step>)
    requires before <= history && NoRefusal(history[|before|..]) && NoLateLoop(Run(Initial(capacity, batchSize, true, table), history))
    ensures var s := Run(Initial(capacity, batchSize, true, table), before);
            var t := Run(Initial(capacity, batchSize, true, table), history);
            Flushed(s.flushes) <= Flushed(t.flushes) && t.table == s.table + Flushed(t.flushes)[|Flushed(s.flushes)|..]
  {
    var later := history[|before|..];
    assert history == before + later;
    NothingHandedOverIsLost(capacity, batchSize, table, before, later);
  }

  lemma OneMoreStored(s: State, r: State, step: Step)
    requires Flushed(s.flushes) <= Flushed(r.flushes) && r.table == s.table + Flushed(r.flushes)[|Flushed(s.flushes)|..]
    requires r.hasStorage && (Flushes(step) ==> step.ok) && (r.storageClosed ==> !(Flushes(step) && Enabled(r, step)))
    ensures var t := Next(r, step);
            Flushed(s.flushes) <= Flushed(t.flushes) && t.table == s.table + Flushed(t.flushes)[|Flushed(s.flushes)|..]
  {
    HistoryGrows(r, step);
    StepStores(r, step);
    if !Accepts(r, step) {
      NothingWithoutFlush(r, step);
    }
    AppendToTail(s.table, Flushed(r.flushes), HandedOver(r, step), |Flushed(s.flushes)|);
  }

  lemma AppendToTail(base: seq<EgoEvent>, a: seq<EgoEvent>, b: seq<EgoEvent>, n: nat)
    requires n <= |a|
    ensures base + a[n..] + b == base + (a + b)[n..]
  {
  }

  lemma NothingWithoutFlush(s: State, step: Step)
    requires !(Flushes(step) && Enabled(s, step))
    ensures HandedOver(s, step) == []
  {
    QuietStep(s, step);
  }

  lemma StorageStaysPut(s: State, step: Step)
    ensures Next(s, step).hasStorage == s.hasStorage && Next(s, step).batchSize == s.batchSize
  {
  }

  lemma {:induction false} StorageStays(s: State, steps: seq<Step>)
    ensures Run(s, steps).hasStorage == s.hasStorage && Run(s, steps).batchSize == s.batchSize
  {
    if steps != [] {
      StorageStays(s, steps[..|steps| - 1]);
      StorageStaysPut(Run(s, steps[..|steps| - 1]), steps[|steps| - 1]);
    }
  }

  lemma Regroup(a: seq<EgoEvent>, b: seq<EgoEvent>, c: seq<EgoEvent>, d: seq<EgoEvent>)
    ensures a + b + c + d == a + (b + c + d)
  {
  }

  /** Hence, over a whole run without refusals, the table, the batch and the queue together hold the table
      as it was and everything accepted, in order. */
  lemma NothingAcceptedIsLost(capacity: nat, batchSize: nat, table: seq<EgoEvent>, steps: seq<Step>)
    requires NoRefusal(steps) && NoLateLoop(Run(Initial(capacity, batchSize, true, table), steps))
    ensures var t := Run(Initial(capacity, batchSize, true, table), steps);
            t.table + t.batch + t.queue == table + t.accepted
  {
    var t := Run(Initial(capacity, batchSize, true, table), steps);
    assert [] + steps == steps;
    NothingHandedOverIsLost(capacity, batchSize, table, [], steps);
    assert t.table == table + Flushed(t.flushes);
    EveryRunConserves(capacity, batchSize, true, table, steps);
    Regroup(table, Flushed(t.flushes), t.batch, t.queue);
  }

  // ----- Batches are as full as they can be ---------------------------------

  /** Every hand-over has between one and the limit of events; only a tick and the last flush of a drain
      hand over fewer than the limit. */
  lemma {:induction false} BatchesAreFull(capacity: nat, batchSize: nat, hasStorage: bool, table: seq<EgoEvent>, steps: seq<Step>)
    ensures var t := Run(Initial(capacity, batchSize, hasStorage, table), steps);
            && (forall f | f in t.flushes :: 0 < |f.events| <= BatchLimit(t))
            && ((forall step | step in steps :: !step.Tick? && !step.FlushAndExit?) ==> forall f | f in t.flushes :: |f.events| == BatchLimit(t))
  {
    if steps != [] {
      var init, last := steps[..|steps| - 1], steps[|steps| - 1];
      assert steps == init + [last];
      var s := Run(Initial(capacity, batchSize, hasStorage, table), init);
      BatchesAreFull(capacity, batchSize, hasStorage, table, init);
      EveryRunConserves(capacity, batchSize, hasStorage, table, init);
      FlushIsFull(s, last);
    }
  }

  lemma FlushIsFull(s: State, step: Step)
    requires Bounded(s)
    ensures var t := Next(s, step);
            && BatchLimit(t) == BatchLimit(s)
            && forall f | f in t.flushes :: f in s.flushes || (0 < |f.events| <= BatchLimit(s)
                 && (step.Tick? || step.FlushAndExit? || |f.events| == BatchLimit(s)))
  {
    if !Flushes(step) && !Moves(step) {
      OtherStepMovesNothing(s, step);
    }
  }

  // ----- Nothing is lost or held back without need --------------------------

  function SentEvents(steps: seq<Step>): seq<EgoEvent> {
    if steps == [] then []
    else
      var last := steps[|steps| - 1];
      SentEvents(steps[..|steps| - 1]) + (if last.Send? || last.Handoff? then [last.e] else [])
  }

  /** Only a full queue drops: as long as no more events are sent than the queue holds, every one of them
      is accepted, whatever the loop and Stop do meanwhile. */
  lemma {:induction false} NoLossWithinCapacity(capacity: nat, batchSize: nat, hasStorage: bool, table: seq<EgoEvent>, steps: seq<Step>)
    requires |SentEvents(steps)| <= capacity && forall step | step in steps :: !step.Handoff?
    ensures Run(Initial(capacity, batchSize, hasStorage, table), steps).accepted == SentEvents(steps)
  {
    if steps != [] {
      var init, last := steps[..|steps| - 1], steps[|steps| - 1];
      var s := Run(Initial(capacity, batchSize, hasStorage, table), init);
      assert steps == init + [last];
      assert last in steps && forall step | step in init :: step in steps;
      EveryRunConserves(capacity, batchSize, hasStorage, table, init);
      NoLossWithinCapacity(capacity, batchSize, hasStorage, table, init);
      NextAccepts(s, last);
      CapacityIsFixed(Initial(capacity, batchSize, hasStorage, table), init);
      assert last.Send? ==> |s.queue| <= |s.accepted| < s.capacity;
    }
  }

  lemma NextKeepsCapacity(s: State, step: Step)
    ensures Next(s, step).capacity == s.capacity
  {
  }

  lemma {:induction false} CapacityIsFixed(s: State, steps: seq<Step>)
    ensures Run(s, steps).capacity == s.capacity
  {
    if steps != [] {
      CapacityIsFixed(s, steps[..|steps| - 1]);
      NextKeepsCapacity(Run(s, steps[..|steps| - 1]), steps[|steps| - 1]);
    }
  }

  /** The loop receiving n events and then ticking. */
  function CatchUp(n: nat, ok: bool): seq<Step> {
    if n == 0 then [Tick(ok)] else [Receive, Settle(ok)] + CatchUp(n - 1, ok)
  }

  lemma ReceiveAndSettle(table: seq<EgoEvent>, s: State, ok: bool)
    requires InOnePlace(table, s) && Bounded(s) && s.loop.AtSelect? && s.queue != []
    ensures var t := Next(Next(s, Receive), Settle(ok));
            InOnePlace(table, t) && Bounded(t) && t.loop.AtSelect? && t.queue == s.queue[1..] && t.accepted == s.accepted
  {
    var received := Next(s, Receive);

    DequeueMovesEvent(table, s);
    FlushStepKeepsPlaces(table, received, Settle(ok));
    NextKeepsBounds(received, Settle(ok));
  }

  lemma TickHandsOver(table: seq<EgoEvent>, s: State, ok: bool)
    requires InOnePlace(table, s) && s.loop.AtSelect? && s.queue == []
    ensures var t := Run(s, [Tick(ok)]);
            t.queue == [] && t.batch == [] && t.accepted == s.accepted == Flushed(t.flushes)
  {
    assert [Tick(ok)][..0] == [];
    assert Run(s, [Tick(ok)]) == Next(Run(s, []), Tick(ok));
    FlushMovesBatch(table, s, ok);
  }

  predicate StoreTakes(s: State, ok: bool) {
    ok && s.hasStorage && !s.storageClosed
  }

  lemma SettleStores(s: State, ok: bool)
    requires s.loop.Received?
    ensures var t := Next(s, Settle(ok));
            && t.loop.AtSelect? && t.queue == s.queue && StoreTakes(t, ok) == StoreTakes(s, ok)
            && (StoreTakes(s, ok) ==> t.table + t.batch == s.table + s.batch)
            && (!StoreTakes(s, ok) ==> t.table == s.table)
  {
    FlushReachesTable(s, ok);
  }

  lemma FlushReachesTable(s: State, ok: bool)
    ensures var t := FlushBatch(s, ok);
            && t.batch == [] && t.queue == s.queue && t.hasStorage == s.hasStorage && t.storageClosed == s.storageClosed
            && t.table == s.table + (if StoreTakes(s, ok) then s.batch else [])
  {
  }

  lemma SettlingStores(s: State, ok: bool)
    requires s.loop.AtSelect? && s.queue != []
    ensures var t := Next(Next(s, Receive), Settle(ok));
            && t.loop.AtSelect? && t.queue == s.queue[1..] && StoreTakes(t, ok) == StoreTakes(s, ok)
            && (StoreTakes(s, ok) ==> t.table + t.batch + t.queue == s.table + s.batch + s.queue)
            && (!StoreTakes(s, ok) ==> t.table == s.table)
  {
    var received := Next(s, Receive);
    assert received == s.(queue := s.queue[1..], batch := s.batch + [s.queue[0]], loop := Received);
    SettleStores(received, ok);
    assert s.table + s.batch + s.queue == s.table + received.batch + received.queue;
  }

  lemma Associate(a: seq<EgoEvent>, b: seq<EgoEvent>, c: seq<EgoEvent>)
    ensures a + b + c == a + (b + c)
  {
  }

  lemma {:induction false} CatchingUpStores(s: State, ok: bool)
    requires s.loop.AtSelect?
    ensures Run(s, CatchUp(|s.queue|, ok)).table == s.table + (if StoreTakes(s, ok) then s.batch + s.queue else [])
    decreases |s.queue|
  {
    if s.queue == [] {
      FlushReachesTable(s, ok);
      assert [Tick(ok)][..0] == [];
      assert Run(s, [Tick(ok)]) == Next(Run(s, []), Tick(ok));
    } else {
      var settled := Next(Next(s, Receive), Settle(ok));
      SettlingStores(s, ok);
      TwoSteps(s, Receive, Settle(ok));
      RunInTwoParts(s, [Receive, Settle(ok)], CatchUp(|s.queue| - 1, ok));
      CatchingUpStores(settled, ok);
      Associate(settled.table, settled.batch, settled.queue);
      Associate(s.table, s.batch, s.queue);
    }
  }

  lemma {:induction false} CatchingUpHandsOver(table: seq<EgoEvent>, s: State, ok: bool)
    requires InOnePlace(table, s) && Bounded(s) && s.loop.AtSelect?
    ensures var t := Run(s, CatchUp(|s.queue|, ok));
            t.queue == [] && t.batch == [] && t.accepted == s.accepted == Flushed(t.flushes)
    decreases |s.queue|
  {
    if s.queue == [] {
      TickHandsOver(table, s, ok);
    } else {
      var settled := Next(Next(s, Receive), Settle(ok));
      ReceiveAndSettle(table, s, ok);
      TwoSteps(s, Receive, Settle(ok));
      RunInTwoParts(s, [Receive, Settle(ok)], CatchUp(|s.queue| - 1, ok));
      CatchingUpHandsOver(table, settled, ok);
    }
  }

  /** From any select, the loop left to itself hands over everything accepted so far by receiving what is
      queued and waiting for one tick, and the store has it all if it takes it. */
  lemma LoopCatchesUp(table: seq<EgoEvent>, s: State, ok: bool)
    requires InOnePlace(table, s) && Bounded(s) && s.loop.AtSelect?
    ensures var t := Run(s, CatchUp(|s.queue|, ok));
            && t.queue == [] && t.batch == [] && t.accepted == s.accepted == Flushed(t.flushes)
            && t.table == s.table + (if ok && s.hasStorage && !s.storageClosed then s.batch + s.queue else [])
  {
    CatchingUpHandsOver(table, s, ok);
    CatchingUpStores(s, ok);
  }

  // ----- Shutdown ---------------------------------------------------------

  /** When any call of Stop has returned: every event accepted before the stop signal had been handed over
      by the time the wait returned exactly when the loop was started in time (or there was no such
      event). If it was, nothing is left in the batch and exactly the events sent after the drain's last
      look at the queue are still in it. */
  lemma StopHandsEverythingOver(capacity: nat, batchSize: nat, hasStorage: bool, table: seq<EgoEvent>, steps: seq<Step>)
    requires Run(Initial(capacity, batchSize, hasStorage, table), steps).stop.Finished?
    ensures var s := Run(Initial(capacity, batchSize, hasStorage, table), steps);
            && (s.atSignal <= s.atWait <==> s.startedInTime || s.atSignal == 0)
            && (s.startedInTime ==>
                  && s.atWait == s.atEmpty <= |s.accepted|
                  && Flushed(s.flushes) == s.accepted[..s.atWait]
                  && s.queue == s.accepted[s.atWait..]
                  && s.batch == [])
  {
    EveryRunConserves(capacity, batchSize, hasStorage, table, steps);
    var s := Run(Initial(capacity, batchSize, hasStorage, table), steps);
    if s.startedInTime {
      assert s.accepted == s.accepted[..s.atWait] + s.accepted[s.atWait..];
      assert Flushed(s.flushes) + s.batch == Flushed(s.flushes);
    }
  }

  lemma NextGrows(s: State, step: Step)
    ensures s.accepted <= Next(s, step).accepted
    ensures s.loop.NotStarted? && !step.StartLoop? ==> Next(s, step).loop.NotStarted?
    ensures !s.loop.NotStarted? ==> !Next(s, step).loop.NotStarted?
  {
  }

  lemma {:induction false} RunGrows(s: State, later: seq<Step>)
    ensures s.accepted <= Run(s, later).accepted
    ensures s.loop.NotStarted? && StartLoop !in later ==> Run(s, later).loop.NotStarted?
  {
    if later != [] {
      var init, last := later[..|later| - 1], later[|later| - 1];
      assert later == init + [last];
      RunGrows(s, init);
      NextGrows(Run(s, init), last);
    }
  }

  /** The loop runs, and any signal covers the first n accepted events. */
  ghost predicate RunningSince(n: nat, s: State) {
    && !s.loop.NotStarted? && n <= |s.accepted|
    && (!s.stop.Idle? ==> n <= s.atSignal)
    && (s.stop.Waited? || s.stop.Finished? ==> s.startedInTime)
  }

  lemma NextKeepsRunning(n: nat, s: State, step: Step)
    requires RunningSince(n, s)
    ensures RunningSince(n, Next(s, step))
  {
    NextGrows(s, step);
    if Moves(step) || Flushes(step) {
      assert var t := Next(s, step); t.stop == s.stop && t.atSignal == s.atSignal && t.startedInTime == s.startedInTime;
    }
  }

  /** A loop started before anyone called Stop is waited for, and a signal raised later covers everything
      accepted by now. */
  lemma {:induction false} StartedBeforeSignal(s: State, later: seq<Step>)
    requires !s.loop.NotStarted? && s.stop.Idle?
    ensures RunningSince(|s.accepted|, Run(s, later))
  {
    if later != [] {
      StartedBeforeSignal(s, later[..|later| - 1]);
      NextKeepsRunning(|s.accepted|, Run(s, later[..|later| - 1]), later[|later| - 1]);
    }
  }

  /** What a caller of Stop can rely on: at any moment before the first call, unless Start is still to
      come, everything accepted so far will have been handed over when the call returns exactly when the
      loop has been started by now, or there is nothing to hand over. */
  lemma StopKeepsItsPromise(capacity: nat, batchSize: nat, hasStorage: bool, table: seq<EgoEvent>, before: seq<Step>, later: seq<Step>)
    requires Run(Initial(capacity, batchSize, hasStorage, table), before).stop.Idle?
    requires Run(Initial(capacity, batchSize, hasStorage, table), before + later).stop.Finished? && StartLoop !in later
    ensures var s := Run(Initial(capacity, batchSize, hasStorage, table), before);
            var t := Run(Initial(capacity, batchSize, hasStorage, table), before + later);
            s.accepted <= Flushed(t.flushes) <==> !s.loop.NotStarted? || s.accepted == []
  {
    var origin := Initial(capacity, batchSize, hasStorage, table);
    var s := Run(origin, before);
    RunInTwoParts(origin, before, later);
    RunGrows(s, later);
    EveryRunConserves(capacity, batchSize, hasStorage, table, before + later);
    if !s.loop.NotStarted? {
      StartedBeforeSignal(s, later);
      StopHandsEverythingOver(capacity, batchSize, hasStorage, table, before + later);
    }
  }

  lemma {:induction false} RunInTwoParts(s: State, first: seq<Step>, second: seq<Step>)
    ensures Run(s, first + second) == Run(Run(s, first), second)
  {
    if second == [] {
      assert first + second == first;
    } else {
      assert (first + second)[..|first + second| - 1] == first + second[..|second| - 1];
      RunInTwoParts(s, first, second[..|second| - 1]);
    }
  }

  /** After that, whatever happens next, no batch is handed over any more, the table stays as it is, a
      further Stop changes nothing, and sends only pile up in the queue. */
  lemma {:induction false} NothingMovesAfterStop(capacity: nat, batchSize: nat, hasStorage: bool, table: seq<EgoEvent>,
                                                 steps: seq<Step>, later: seq<Step>)
    requires var s := Run(Initial(capacity, batchSize, hasStorage, table), steps);
             s.stop.Finished? && s.startedInTime
    ensures var s := Run(Initial(capacity, batchSize, hasStorage, table), steps);
            var t := Run(s, later);
            && t == s.(queue := t.queue, accepted := t.accepted)
            && s.queue <= t.queue && s.accepted <= t.accepted
  {
    if later == [] {
      EveryRunConserves(capacity, batchSize, hasStorage, table, steps);
    } else {
      NothingMovesAfterStop(capacity, batchSize, hasStorage, table, steps, later[..|later| - 1]);
      EveryRunConserves(capacity, batchSize, hasStorage, table, steps);
    }
  }

  lemma ClosedStoreRefuses(s: State, step: Step)
    requires s.storageClosed && s.stop.Finished? && s.hasStorage
    ensures var t := Next(s, step);
            t.table == s.table && t.storageClosed && t.stop.Finished? && t.hasStorage
  {
    if !Flushes(step) && !Moves(step) {
      OtherStepMovesNothing(s, step);
    }
  }

  /** Even a loop started too late never writes to a closed store. */
  lemma {:induction false} ClosedStoreKeepsItsTable(s: State, later: seq<Step>)
    requires s.storageClosed && s.stop.Finished? && s.hasStorage
    ensures var t := Run(s, later);
            t.table == s.table && t.storageClosed && t.stop.Finished? && t.hasStorage
  {
    if later != [] {
      ClosedStoreKeepsItsTable(s, later[..|later| - 1]);
      ClosedStoreRefuses(Run(s, later[..|later| - 1]), later[|later| - 1]);
    }
  }

  /** Stop before Start loses what was queued: the wait returns at once. */
  lemma StopBeforeStartHandsNothingOver(s: State)
    requires s.loop.NotStarted? && s.stop.Idle? && s.flushes == []
    ensures var t := Run(s, [CallStop] + [WaitReturns, CloseStorage]);
            && t.stop.Finished? && t.storageClosed == s.hasStorage
            && t.queue == s.queue && t.flushes == [] && t.atSignal == |s.accepted| && t.atWait == 0
  {
    RunInTwoParts(s, [CallStop], [WaitReturns, CloseStorage]);
    assert [CallStop][..0] == [];
    assert Run(s, [CallStop]) == Next(Run(s, []), CallStop);
    var signalled := s.(stop := Signalled, atSignal := |s.accepted|);
    assert Next(s, CallStop) == signalled;
    TwoSteps(signalled, WaitReturns, CloseStorage);
  }

  lemma TwoSteps(s: State, a: Step, b: Step)
    ensures Run(s, [a, b]) == Next(Next(s, a), b)
  {
    assert [a, b][..1] == [a] && [a][..0] == [];
    assert Run(s, [a]) == Next(Run(s, []), a);
  }

  // ----- The drain ends ---------------------------------------------------

  predicate InDrain(s: State) {
    s.loop.Draining? || s.loop.DrainReceived? || s.loop.LastFlush? || s.loop.Exited?
  }

  predicate IsLoopStep(step: Step) {
    step.DrainReceive? || step.DrainSettle? || step.DrainEmpty? || step.FlushAndExit?
  }

  /** Queue length counts twice, for one receive and one settle each. */
  function DrainWork(s: State): nat {
    match s.loop
    case Draining => 2 * |s.queue| + 2
    case DrainReceived => 2 * |s.queue| + 3
    case LastFlush => 1
    case _ => 0
  }

  /** Loop steps that happened, and sends that got in. */
  function LoopSteps(s: State, steps: seq<Step>): nat {
    if steps == [] then 0
    else
      var t, step := Run(s, steps[..|steps| - 1]), steps[|steps| - 1];
      LoopSteps(s, steps[..|steps| - 1]) + (if IsLoopStep(step) && Enabled(t, step) then 1 else 0)
  }

  function Sends(s: State, steps: seq<Step>): nat {
    if steps == [] then 0
    else
      var t, step := Run(s, steps[..|steps| - 1]), steps[|steps| - 1];
      Sends(s, steps[..|steps| - 1]) + (if step.Send? && Enabled(t, step) then 1 else 0)
  }

  lemma DrainStep(s: State, step: Step)
    requires InDrain(s)
    ensures var t := Next(s, step);
            && InDrain(t)
            && DrainWork(t) + (if IsLoopStep(step) && Enabled(s, step) then 1 else 0)
               <= DrainWork(s) + 2 * (if step.Send? && Enabled(s, step) then 1 else 0)
  {
  }

  lemma DrainNeverStuck(s: State)
    requires InDrain(s) && !s.loop.Exited?
    ensures DrainWork(s) > 0 && exists step :: IsLoopStep(step) && Enabled(s, step)
  {
    var step := if s.loop.DrainReceived? then DrainSettle(true) else if s.loop.LastFlush? then FlushAndExit(true)
                else if s.queue == [] then DrainEmpty else DrainReceive;
    assert IsLoopStep(step) && Enabled(s, step);
  }

  /** While draining, the loop can always take a step until it exits, and it takes at most two per queued
      event and per send still to come, plus three. */
  lemma {:induction false} DrainTerminates(s: State, steps: seq<Step>)
    requires InDrain(s)
    ensures var t := Run(s, steps);
            && InDrain(t)
            && DrainWork(t) + LoopSteps(s, steps) <= DrainWork(s) + 2 * Sends(s, steps)
            && LoopSteps(s, steps) <= 2 * (|s.queue| + Sends(s, steps)) + 3
            && (t.loop.Exited? <==> DrainWork(t) == 0)
            && (t.loop.Exited? || exists step :: IsLoopStep(step) && Enabled(t, step))
  {
    if steps != [] {
      DrainTerminates(s, steps[..|steps| - 1]);
      DrainStep(Run(s, steps[..|steps| - 1]), steps[|steps| - 1]);
    }
    if !Run(s, steps).loop.Exited? {
      DrainNeverStuck(Run(s, steps));
    }
  }

  // ----- What reaches the table -------------------------------------------

  ghost predicate FromHost(e: EgoEvent) {
    exists rec, now :: e == TransformToEgoEvent(rec, now)
  }

  ghost predicate OnlyHostEvents(steps: seq<Step>) {
    forall step | step in steps :: step.Send? || step.Handoff? ==> FromHost(step.e)
  }

  lemma NextAccepts(s: State, step: Step)
    ensures Next(s, step).accepted == s.accepted
            || ((step.Send? || step.Handoff?) && Next(s, step).accepted == s.accepted + [step.e])
  {
  }

  lemma {:induction false} AcceptedComeFromHost(s: State, steps: seq<Step>)
    requires OnlyHostEvents(steps)
    ensures forall e | e in Run(s, steps).accepted :: e in s.accepted || FromHost(e)
  {
    if steps != [] {
      assert steps == steps[..|steps| - 1] + [steps[|steps| - 1]];
      AcceptedComeFromHost(s, steps[..|steps| - 1]);
      NextAccepts(Run(s, steps[..|steps| - 1]), steps[|steps| - 1]);
      assert steps[|steps| - 1] in steps;
    }
  }

  lemma {:induction false} CommittedWereFlushed(flushes: seq<Flush>)
    ensures forall e | e in CommittedEvents(flushes) :: e in Flushed(flushes)
  {
    if flushes != [] {
      CommittedWereFlushed(flushes[..|flushes| - 1]);
    }
  }

  /** Every row the worker adds satisfies the sample invariant and has an account, in every run. */
  lemma StoredRowsAreSampled(capacity: nat, batchSize: nat, hasStorage: bool, table: seq<EgoEvent>, steps: seq<Step>)
    requires OnlyHostEvents(steps)
    ensures forall e | e in Run(Initial(capacity, batchSize, hasStorage, table), steps).table ::
              e in table || (SampledRow(e) && e.account != "" && e.status in {"success", "failed"})
  {
    EveryRunConserves(capacity, batchSize, hasStorage, table, steps);
    AcceptedComeFromHost(Initial(capacity, batchSize, hasStorage, table), steps);
    var s := Run(Initial(capacity, batchSize, hasStorage, table), steps);
    CommittedWereFlushed(s.flushes);
    forall e | e in s.table && e !in table
      ensures SampledRow(e) && e.account != "" && e.status in {"success", "failed"}
    {
      assert e in s.accepted;
      var rec, now :| e == TransformToEgoEvent(rec, now);
      TransformedRowIsSampled(rec, now);
    }
  }
}
