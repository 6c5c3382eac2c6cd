/** The worker object (internal/ego/worker.go): its fields, the flush loop with its reused batch buffer,
    and Stop, each proved to follow the step system of `Pipeline`. */
module WorkerLoop {
  import opened Models
  import opened Ingest
  import opened Pipeline
  import opened Store
  import PriceCatalog

  /** The bytes handed to Record. */
  datatype Payload = Empty | Malformed | Parsed(rec: RawUsageRecord)

  datatype Case = StopCase | QueueCase | TickCase

  /** One scheduling decision: a producer gets in, or the loop makes its next move, which at a select is
      one of the cases; `met` says whether a producer meets the loop waiting, `ok` whether the store would
      accept a batch then. */
  datatype Turn = Producer(payload: Payload, now: int, met: bool) | Pick(chosen: Case, ok: bool)

  /** An unbuffered queue only knows a send that meets a waiting receiver. */
  function RecordSteps(capacity: nat, enabled: bool, payload: Payload, now: int, met: bool): seq<Step> {
    if !enabled || !payload.Parsed? then []
    else
      var event := TransformToEgoEvent(payload.rec, now);
      if capacity == 0 && met then [Handoff(event)] else [Send(event)]
  }

  /** The moves are as fine as those of `Pipeline`: producers get in between a receive and the flush it
      leads to, and between the drain's last look at the queue and its last flush. */
  function TurnSteps(s: State, enabled: bool, turn: Turn): seq<Step> {
    match turn
    case Producer(payload, now, met) => RecordSteps(s.capacity, enabled, payload, now, met)
    case Pick(chosen, ok) => LoopMove(s, chosen, ok)
  }

  function LoopMove(s: State, chosen: Case, ok: bool): seq<Step> {
    match s.loop
    case AtSelect =>
      (match chosen
       case StopCase => [SeeStop]
       case QueueCase => [Receive]
       case TickCase => [Tick(ok)])
    case Received => [Settle(ok)]
    case Draining => if s.queue == [] then [DrainEmpty] else [DrainReceive]
    case DrainReceived => [DrainSettle(ok)]
    case LastFlush => [FlushAndExit(ok)]
    case _ => []
  }

  function PlaySteps(s: State, enabled: bool, turns: seq<Turn>): seq<Step> {
    if turns == [] then []
    else
      var before := PlaySteps(s, enabled, turns[..|turns| - 1]);
      before + TurnSteps(Run(s, before), enabled, turns[|turns| - 1])
  }

  lemma PlayOneMore(s: State, enabled: bool, turns: seq<Turn>, i: nat)
    requires i < |turns|
    ensures var played := PlaySteps(s, enabled, turns[..i]);
            PlaySteps(s, enabled, turns[..i + 1]) == played + TurnSteps(Run(s, played), enabled, turns[i])
  {
    var upto := turns[..i + 1];
    assert upto[..|upto| - 1] == turns[..i] && upto[|upto| - 1] == turns[i];
  }

  lemma AssociateSteps(a: seq<Step>, b: seq<Step>, c: seq<Step>)
    ensures a + (b + c) == a + b + c
  {
  }

  /** Playing one more turn appends that turn's steps to the history. */
  lemma PlayExtends(origin: State, first: seq<Step>, s: State, enabled: bool, turns: seq<Turn>, i: nat)
    requires i < |turns| && s == Run(origin, first)
    ensures first + PlaySteps(s, enabled, turns[..i + 1])
         == first + PlaySteps(s, enabled, turns[..i])
            + TurnSteps(Run(origin, first + PlaySteps(s, enabled, turns[..i])), enabled, turns[i])
  {
    var played := PlaySteps(s, enabled, turns[..i]);
    RunInTwoParts(origin, first, played);
    PlayOneMore(s, enabled, turns, i);
    AssociateSteps(first, played, TurnSteps(Run(s, played), enabled, turns[i]));
  }

  ghost predicate NoRefusalIn(turns: seq<Turn>) {
    forall turn | turn in turns :: turn.Pick? ==> turn.ok
  }

  lemma TurnWithoutRefusal(s: State, enabled: bool, turn: Turn)
    requires turn.Pick? ==> turn.ok
    ensures NoRefusal(TurnSteps(s, enabled, turn))
  {
  }

  lemma {:induction false} PlayedWithoutRefusal(s: State, enabled: bool, turns: seq<Turn>)
    ensures NoRefusalIn(turns) ==> NoRefusal(PlaySteps(s, enabled, turns))
  {
    if turns != [] {
      var init, last := turns[..|turns| - 1], turns[|turns| - 1];
      PlayedWithoutRefusal(s, enabled, init);
      assert turns == init + [last];
      if NoRefusalIn(turns) {
        assert last in turns && NoRefusalIn(init);
        TurnWithoutRefusal(Run(s, PlaySteps(s, enabled, init)), enabled, last);
      }
    }
  }

  /** A loop that runs always has a move: at a select it takes the chosen case if that is ready, and
      elsewhere the one step it is at. */
  lemma LoopMoveIsReady(s: State, chosen: Case, ok: bool)
    requires !s.loop.NotStarted? && !s.loop.Exited?
    requires s.loop.AtSelect? && chosen.StopCase? ==> !s.stop.Idle?
    requires s.loop.AtSelect? && chosen.QueueCase? ==> s.queue != []
    ensures |LoopMove(s, chosen, ok)| == 1
    ensures var step := LoopMove(s, chosen, ok)[0];
            && Enabled(s, step) && (Flushes(step) ==> step.ok == ok)
            && (if s.loop.AtSelect? then chosen == (if step.SeeStop? then StopCase else if step.Receive? then QueueCase else TickCase)
                                         && (chosen.TickCase? ==> step.Tick?)
                else !step.Send? && !step.Handoff? && !step.CallStop? && !step.WaitReturns? && !step.CloseStorage?)
  {
  }

  class Worker {
    const storage: Storage?
    const capacity: nat
    const batchSize: nat
    var enabled: bool
    var queue: seq<EgoEvent>
    var batch: seq<EgoEvent>
    var loop: Loop
    var stop: StopCall

    ghost const table: seq<EgoEvent>
    ghost var accepted: seq<EgoEvent>
    ghost var flushes: seq<Flush>
    ghost var atSignal: nat
    ghost var atEmpty: nat
    ghost var atWait: nat
    ghost var startedInTime: bool
    ghost var history: seq<Step>

    ghost function Rows(): seq<EgoEvent>
      reads this, storage
    {
      if storage != null then storage.events else table
    }

    ghost function View(): State
      reads this, storage
    {
      State(capacity, batchSize, storage != null, queue, batch, loop, stop, storage != null && storage.closed, Rows(),
            accepted, flushes, atSignal, atEmpty, atWait, startedInTime)
    }

    /** The object is always where its history of steps leads from the initial state, so what holds of
        every run of `Pipeline` holds of it. */
    ghost predicate Valid()
      reads this, storage
    {
      View() == Run(Initial(capacity, batchSize, storage != null, table), history)
    }

    constructor (storage: Storage?, capacity: nat, batchSize: nat)
      requires storage != null ==> !storage.closed
      ensures Valid() && history == [] && enabled
      ensures this.storage == storage && this.capacity == capacity && this.batchSize == batchSize
      ensures table == if storage != null then storage.events else []
    {
      this.storage := storage;
      this.capacity := capacity;
      this.batchSize := batchSize;
      this.enabled := true;
      this.queue := [];
      this.batch := [];
      this.loop := NotStarted;
      this.stop := Idle;
      this.table := if storage != null then storage.events else [];
      this.accepted, this.flushes := [], [];
      this.atSignal, this.atEmpty, this.atWait := 0, 0, 0;
      this.startedInTime := false;
      this.history := [];
    }

    ghost method Advance(step: Step)
      requires View() == Next(Run(Initial(capacity, batchSize, storage != null, table), history), step)
      modifies this`history
      ensures Valid() && history == old(history) + [step]
    {
      RunAppends(Initial(capacity, batchSize, storage != null, table), history, step);
      history := history + [step];
    }

    method Start()
      requires Valid() && loop.NotStarted?
      modifies this`loop, this`history
      ensures Valid() && history == old(history) + [StartLoop]
    {
      loop := AtSelect;
      Advance(StartLoop);
    }

    /** Never blocks: a full queue drops the event, and so does a switched-off worker, an empty payload or
        one that does not parse. An unbuffered queue hands it to the loop if that is waiting. */
    method Record(payload: Payload, now: int, met: bool)
      requires Valid()
      modifies this`queue, this`batch, this`loop, this`accepted, this`history
      ensures Valid() && history == old(history) + RecordSteps(capacity, enabled, payload, now, met)
      ensures enabled && payload.Parsed? && |old(queue)| < capacity ==>
                var event := TransformToEgoEvent(payload.rec, now);
                queue == old(queue) + [event] && accepted == old(accepted) + [event] && batch == old(batch)
      ensures enabled && payload.Parsed? && capacity == 0 && met && old(loop).AtSelect? ==>
                var event := TransformToEgoEvent(payload.rec, now);
                batch == old(batch) + [event] && accepted == old(accepted) + [event] && loop.Received?
      ensures !enabled || !payload.Parsed? || (capacity > 0 && |old(queue)| >= capacity) || (capacity == 0 && !(met && old(loop).AtSelect?)) ==>
                View() == old(View())
      ensures old(accepted) <= accepted && (loop.NotStarted? <==> old(loop).NotStarted?)
    {
      if !enabled || payload.Empty? {
        return;
      }
      match payload {
        case Parsed(rec) =>
          var event := TransformToEgoEvent(rec, now);
          if capacity == 0 && met {
            HandOver(event);
          } else {
            Offer(event);
          }
        case _ =>
      }
    }

    method Offer(event: EgoEvent)
      requires Valid()
      modifies this`queue, this`accepted, this`history
      ensures Valid() && history == old(history) + [Send(event)]
      ensures if |old(queue)| < capacity then queue == old(queue) + [event] && accepted == old(accepted) + [event] else View() == old(View())
    {
      if |queue| < capacity {
        queue := queue + [event];
        accepted := accepted + [event];
      }
      Advance(Send(event));
    }

    /** The loop receives the event at once if it is at its select; otherwise the event is dropped. */
    method HandOver(event: EgoEvent)
      requires Valid() && capacity == 0
      modifies this`batch, this`loop, this`accepted, this`history
      ensures Valid() && history == old(history) + [Handoff(event)]
      ensures if old(loop).AtSelect? then batch == old(batch) + [event] && accepted == old(accepted) + [event] && loop.Received?
              else View() == old(View())
      ensures old(accepted) <= accepted && (loop.NotStarted? <==> old(loop).NotStarted?)
    {
      if loop.AtSelect? {
        batch := batch + [event];
        accepted := accepted + [event];
        loop := Received;
      }
      Advance(Handoff(event));
    }

    method SetEnabled(on: bool)
      requires Valid()
      modifies this`enabled
      ensures Valid() && enabled == on
    {
      enabled := on;
    }

    /** The flush closure. The buffer is emptied whatever the store says. */
    method FlushBatch(ok: bool)
      modifies this`batch, this`flushes, storage
      ensures View() == Pipeline.FlushBatch(old(View()), ok)
      ensures batch == [] && Flushed(flushes) == old(Flushed(flushes)) + old(batch)
      ensures storage != null ==> storage.closed == old(storage.closed)
      ensures storage != null ==> storage.events == old(storage.events) + (if ok && !storage.closed then old(batch) else [])
    {
      FlushIsStored(View(), ok);
      if |batch| == 0 {
        return;
      }
      ghost var outcome := NoStorage;
      if storage != null {
        var inserted := storage.InsertBatch(batch, if ok then PriceCatalog.NoFault else PriceCatalog.CommitFails);
        outcome := if inserted then Committed else Failed;
      }
      flushes := flushes + [Flush(batch, outcome)];
      batch := [];
    }

    /** Moves one event from the queue into the batch buffer. */
    method TakeOne()
      requires Valid() && queue != [] && (loop.AtSelect? || loop.Draining?)
      modifies this`queue, this`batch, this`loop, this`history
      ensures Valid() && (old(loop).Draining? ==> loop.DrainReceived?) && (old(loop).AtSelect? ==> loop.Received?)
      ensures history == old(history) + [if old(loop).Draining? then DrainReceive else Receive]
      ensures queue == old(queue)[1..] && batch == old(batch) + [old(queue)[0]]
    {
      ghost var step := if loop.Draining? then DrainReceive else Receive;
      batch := batch + [queue[0]];
      queue := queue[1..];
      loop := if loop.Draining? then DrainReceived else Received;
      Advance(step);
    }

    /** Flushes when the batch is full and goes back to the select. */
    method SettleBatch(ok: bool)
      requires Valid() && (loop.Received? || loop.DrainReceived?)
      modifies this`batch, this`loop, this`flushes, this`history, storage
      ensures Valid() && (old(loop).DrainReceived? ==> loop.Draining?) && (old(loop).Received? ==> loop.AtSelect?)
      ensures history == old(history) + [if old(loop).DrainReceived? then DrainSettle(ok) else Settle(ok)]
      ensures storage != null ==> storage.closed == old(storage.closed)
      ensures storage != null && ok && !storage.closed ==> storage.events + batch == old(storage.events) + old(batch)
      ensures storage != null && (!ok || storage.closed) ==> storage.events == old(storage.events)
    {
      ghost var step := if loop.DrainReceived? then DrainSettle(ok) else Settle(ok);
      if |batch| >= batchSize {
        FlushBatch(ok);
      }
      loop := if loop.DrainReceived? then Draining else AtSelect;
      Advance(step);
    }

    /** One wake-up of the outer select. A case that is not ready does nothing. */
    method Select(chosen: Case, ok: bool)
      requires Valid() && loop.AtSelect?
      modifies this`queue, this`batch, this`loop, this`flushes, this`history, storage
      ensures Valid() && history == old(history) + LoopMove(old(View()), chosen, ok)
      ensures !loop.NotStarted? && (chosen.StopCase? && !stop.Idle? ==> loop.Draining?)
      ensures chosen.QueueCase? && old(queue) != [] ==> loop.Received? && queue == old(queue)[1..] && batch == old(batch) + [old(queue)[0]]
      ensures chosen.TickCase? ==> batch == [] && loop.AtSelect?
      ensures chosen.TickCase? && storage != null ==>
                storage.events == old(storage.events) + (if ok && !storage.closed then old(batch) else [])
    {
      match chosen {
        case StopCase =>
          if !stop.Idle? {
            loop := Draining;
          }
          Advance(SeeStop);
        case QueueCase =>
          if queue != [] {
            TakeOne();
          } else {
            Advance(Receive);
          }
        case TickCase =>
          FlushBatch(ok);
          Advance(Tick(ok));
      }
    }

    /** The queue looked empty. */
    method SeeEmpty()
      requires Valid() && loop.Draining? && queue == []
      modifies this`loop, this`atEmpty, this`history
      ensures Valid() && loop.LastFlush? && history == old(history) + [DrainEmpty]
    {
      atEmpty := |accepted|;
      loop := LastFlush;
      Advance(DrainEmpty);
    }

    /** Flush what is left and exit. */
    method LeaveDrain(ok: bool)
      requires Valid() && loop.LastFlush?
      modifies this`batch, this`loop, this`flushes, this`history, storage
      ensures Valid() && loop.Exited? && history == old(history) + [FlushAndExit(ok)]
      ensures storage != null ==> storage.closed == old(storage.closed)
      ensures storage != null ==> storage.events == old(storage.events) + (if ok && !storage.closed then old(batch) else [])
    {
      FlushBatch(ok);
      loop := Exited;
      Advance(FlushAndExit(ok));
    }

    /** The loop's next move from wherever it is. */
    method Move(chosen: Case, ok: bool)
      requires Valid()
      modifies this`queue, this`batch, this`loop, this`flushes, this`atEmpty, this`history, storage
      ensures Valid() && history == old(history) + LoopMove(old(View()), chosen, ok)
      ensures loop.NotStarted? <==> old(loop).NotStarted?
    {
      match loop {
        case AtSelect => Select(chosen, ok);
        case Received => SettleBatch(ok);
        case Draining =>
          if queue != [] {
            TakeOne();
          } else {
            SeeEmpty();
          }
        case DrainReceived => SettleBatch(ok);
        case LastFlush => LeaveDrain(ok);
        case _ =>
      }
    }

    /** Whatever the schedule does next. */
    method TakeTurn(turn: Turn)
      requires Valid()
      modifies this`queue, this`accepted, this`batch, this`loop, this`flushes, this`atEmpty, this`history, storage
      ensures Valid() && history == old(history) + TurnSteps(old(View()), enabled, turn)
      ensures old(accepted) <= accepted && (loop.NotStarted? <==> old(loop).NotStarted?)
    {
      match turn {
        case Producer(payload, now, met) => Record(payload, now, met);
        case Pick(chosen, ok) => Move(chosen, ok);
      }
    }

    /** The flush loop from wherever it is, under any schedule of producers, ready cases and insert
        failures. */
    method FlushLoop(turns: seq<Turn>)
      requires Valid()
      modifies this`queue, this`accepted, this`batch, this`loop, this`flushes, this`atEmpty, this`history, storage
      ensures Valid() && history == old(history) + PlaySteps(old(View()), enabled, turns)
      ensures View() == Run(old(View()), PlaySteps(old(View()), enabled, turns))
      ensures old(accepted) <= accepted && (loop.NotStarted? <==> old(loop).NotStarted?)
    {
      ghost var start, first := View(), history;
      ghost var origin := Initial(capacity, batchSize, storage != null, table);
      for i := 0 to |turns|
        invariant Valid() && history == first + PlaySteps(start, enabled, turns[..i])
        invariant old(accepted) <= accepted && (loop.NotStarted? <==> old(loop).NotStarted?)
      {
        PlayExtends(origin, first, start, enabled, turns, i);
        TakeTurn(turns[i]);
      }
      assert turns[..|turns|] == turns;
      RunInTwoParts(origin, first, PlaySteps(start, enabled, turns));
    }

    /** The steps taken since, none of which met a refusal if `ok`. */
    ghost predicate ExtendsBy(before: seq<Step>, ok: bool)
      reads this
    {
      before <= history && (ok ==> NoRefusal(history[|before|..]))
    }

    /** The rows of the store and, if it takes them, the events on their way there. */
    ghost function Held(ok: bool): seq<EgoEvent>
      reads this, storage
    {
      if storage != null && ok && !storage.closed then storage.events + batch + queue else Rows()
    }

    method DrainOne(ok: bool)
      requires Valid() && loop.Draining? && queue != []
      modifies this`queue, this`batch, this`loop, this`flushes, this`history, storage
      ensures Valid() && loop.Draining? && |queue| == |old(queue)| - 1 && accepted == old(accepted)
      ensures Held(ok) == old(Held(ok)) && (storage != null ==> storage.closed == old(storage.closed))
      ensures history == old(history) + [DrainReceive] + [DrainSettle(ok)]
    {
      assert [queue[0]] + queue[1..] == queue;
      TakeOne();
      SettleBatch(ok);
    }

    method DrainLast(ok: bool)
      requires Valid() && loop.Draining? && queue == []
      modifies this`batch, this`loop, this`flushes, this`atEmpty, this`history, storage
      ensures Valid() && loop.Exited? && batch == [] && accepted == old(accepted) && atEmpty == |accepted|
      ensures Held(ok) == old(Held(ok)) && (storage != null ==> storage.closed == old(storage.closed))
      ensures history == old(history) + [DrainEmpty] + [FlushAndExit(ok)]
    {
      SeeEmpty();
      LeaveDrain(ok);
    }

    lemma ExtendedByTwo(before: seq<Step>, now: seq<Step>, a: Step, b: Step, ok: bool)
      requires before <= now && (ok ==> NoRefusal(now[|before|..]))
      requires history == now + [a] + [b] && (Flushes(a) ==> a.ok == ok) && (Flushes(b) ==> b.ok == ok)
      ensures ExtendsBy(before, ok)
    {
      assert history[|before|..] == now[|before|..] + [a] + [b];
    }

    method DrainQueue(ok: bool)
      requires Valid() && loop.Draining?
      modifies this`queue, this`batch, this`loop, this`flushes, this`history, storage
      ensures Valid() && loop.Draining? && queue == [] && accepted == old(accepted)
      ensures Held(ok) == old(Held(ok)) && (storage != null ==> storage.closed == old(storage.closed))
      ensures ExtendsBy(old(history), ok)
    {
      while queue != []
        invariant Valid() && loop.Draining? && ExtendsBy(old(history), ok) && accepted == old(accepted)
        invariant Held(ok) == old(Held(ok)) && (storage != null ==> storage.closed == old(storage.closed))
        decreases |queue|
      {
        ghost var now := history;
        DrainOne(ok);
        ExtendedByTwo(old(history), now, DrainReceive, DrainSettle(ok), ok);
      }
    }

    /** The drain with no producer left: it ends, everything ever accepted has been handed over, and the
        store has what it takes. */
    method Drain(ok: bool)
      requires Valid() && loop.Draining?
      modifies this`queue, this`batch, this`loop, this`flushes, this`atEmpty, this`history, storage
      ensures Valid() && loop.Exited? && queue == [] && batch == []
      ensures Flushed(flushes) == accepted == old(accepted) && atEmpty == |accepted|
      ensures storage != null ==> storage.events == old(storage.events) + (if ok && !old(storage.closed) then old(batch) + old(queue) else [])
      ensures ExtendsBy(old(history), ok)
    {
      DrainQueue(ok);
      ghost var now := history;
      DrainLast(ok);
      ExtendedByTwo(old(history), now, DrainEmpty, FlushAndExit(ok), ok);
      EmptyBuffersHoldNothing(ok);
      assert storage != null ==> old(storage.events + batch + queue) == old(storage.events) + (old(batch) + old(queue));
    }

    lemma EmptyBuffersHoldNothing(ok: bool)
      requires Valid() && queue == [] && batch == []
      ensures storage != null ==> Held(ok) == storage.events
      ensures Flushed(flushes) == accepted
    {
      EveryRunConserves(capacity, batchSize, storage != null, table, history);
    }

    method RaiseSignal()
      requires Valid() && stop.Idle?
      modifies this`stop, this`atSignal, this`history
      ensures Valid() && stop.Signalled? && atSignal == |accepted| && history == old(history) + [CallStop]
    {
      stop := Signalled;
      atSignal := |accepted|;
      Advance(CallStop);
    }

    /** The signalled loop, wherever it is, sooner or later sees the signal, drains and exits. */
    method RunToExit(ok: bool)
      requires Valid() && stop.Signalled? && !loop.NotStarted?
      modifies this`queue, this`batch, this`loop, this`flushes, this`atEmpty, this`history, storage
      ensures Valid() && loop.Exited? && ExtendsBy(old(history), ok)
    {
      if loop.Received? || loop.DrainReceived? {
        SettleBatch(ok);
      }
      if loop.AtSelect? {
        Select(StopCase, ok);
      }
      if loop.Draining? {
        Drain(ok);
      }
      if loop.LastFlush? {
        LeaveDrain(ok);
      }
    }

    method ReturnFromWait()
      requires Valid() && stop.Signalled? && (loop.NotStarted? || loop.Exited?)
      modifies this`stop, this`atWait, this`startedInTime, this`history
      ensures Valid() && stop.Waited? && startedInTime == loop.Exited? && history == old(history) + [WaitReturns]
    {
      atWait := |Flushed(flushes)|;
      startedInTime := loop.Exited?;
      stop := Waited;
      Advance(WaitReturns);
    }

    method CloseStore()
      requires Valid() && stop.Waited?
      modifies this`stop, this`history, storage
      ensures Valid() && stop.Finished? && (storage != null ==> storage.closed) && history == old(history) + [CloseStorage]
    {
      if storage != null {
        storage.Close();
      }
      stop := Finished;
      Advance(CloseStorage);
    }

    method AwaitAndClose(ok: bool)
      requires Valid() && stop.Signalled?
      modifies this`queue, this`batch, this`loop, this`flushes, this`atEmpty, this`stop, this`atWait, this`startedInTime, this`history, storage
      ensures Valid() && stop.Finished? && (storage != null ==> storage.closed)
      ensures startedInTime == !old(loop).NotStarted? && (startedInTime || loop.NotStarted?)
      ensures ExtendsBy(old(history), ok)
    {
      if !loop.NotStarted? {
        RunToExit(ok);
      }
      ReturnFromWait();
      CloseStore();
    }

    /** The first call raises the stop signal, waits while producers and loop run on under `turns` and the
        loop then drains, and closes the store; every later call returns with nothing changed. Everything
        accepted before the call has been handed over, in order, exactly when the loop had been started or
        there was nothing: then only events sent after the drain are still queued, and otherwise all are.
        Unless the store refuses a batch, its table has grown by exactly what was handed over. */
    method Stop(turns: seq<Turn>, ok: bool)
      requires Valid()
      modifies this, storage
      ensures Valid()
      ensures !old(stop).Idle? ==> View() == old(View())
      ensures old(stop).Idle? ==> stop.Finished? && (storage != null ==> storage.closed)
      ensures old(stop).Idle? ==> (old(accepted) <= Flushed(flushes) <==> !old(loop).NotStarted? || old(accepted) == [])
      ensures old(stop).Idle? ==> batch == [] && accepted == Flushed(flushes) + queue && old(accepted) <= accepted
      ensures old(stop).Idle? && old(loop).NotStarted? ==> flushes == []
      ensures old(stop).Idle? && storage != null && ok && NoRefusalIn(turns) ==>
                Flushed(old(flushes)) <= Flushed(flushes)
                && storage.events == old(storage.events) + Flushed(flushes)[|Flushed(old(flushes))|..]
    {
      if !stop.Idle? {
        return;
      }
      ghost var before, s, accepted0 := history, View(), accepted;
      Shutdown(turns, ok);
      EverythingHandedOver(accepted0);
      if storage != null && ok && NoRefusalIn(turns) {
        GrownByHandedOver(before, s);
      }
    }

    method Shutdown(turns: seq<Turn>, ok: bool)
      requires Valid() && stop.Idle?
      modifies this, storage
      ensures Valid() && stop.Finished? && (storage != null ==> storage.closed)
      ensures startedInTime == !old(loop).NotStarted? && (startedInTime || loop.NotStarted?)
      ensures old(accepted) <= accepted && |old(accepted)| <= atSignal
      ensures ExtendsBy(old(history), ok && NoRefusalIn(turns))
    {
      SignalAndRun(turns);
      ghost var played := history;
      AwaitAndClose(ok);
      ExtendedTwice(old(history), played, NoRefusalIn(turns), ok);
    }

    method SignalAndRun(turns: seq<Turn>)
      requires Valid() && stop.Idle?
      modifies this, storage
      ensures Valid() && stop.Signalled? && |old(accepted)| <= atSignal && old(accepted) <= accepted
      ensures loop.NotStarted? <==> old(loop).NotStarted?
      ensures ExtendsBy(old(history), NoRefusalIn(turns))
    {
      RaiseSignal();
      PlayedWithoutRefusal(View(), enabled, turns);
      ghost var played := PlaySteps(View(), enabled, turns);
      FlushLoop(turns);
      ExtendedAfterSignal(old(history), played, NoRefusalIn(turns));
    }

    lemma ExtendedAfterSignal(before: seq<Step>, played: seq<Step>, ok: bool)
      requires history == before + [CallStop] + played && (ok ==> NoRefusal(played))
      ensures ExtendsBy(before, ok)
    {
      assert history[|before|..] == [CallStop] + played;
    }

    lemma ExtendedTwice(before: seq<Step>, now: seq<Step>, first: bool, second: bool)
      requires before <= now && (first ==> NoRefusal(now[|before|..])) && ExtendsBy(now, second)
      ensures ExtendsBy(before, first && second)
    {
      assert history[|before|..] == now[|before|..] + history[|now|..];
    }

    lemma GrownByHandedOver(before: seq<Step>, s: State)
      requires Valid() && storage != null && (startedInTime || loop.NotStarted?)
      requires before <= history && NoRefusal(history[|before|..]) && s == Run(Initial(capacity, batchSize, true, table), before)
      ensures Flushed(s.flushes) <= Flushed(flushes) && storage.events == s.table + Flushed(flushes)[|Flushed(s.flushes)|..]
    {
      NothingLostSince(capacity, batchSize, table, before, history);
    }

    lemma EverythingHandedOver(before: seq<EgoEvent>)
      requires Valid() && stop.Finished? && before <= accepted && |before| <= atSignal && (startedInTime || loop.NotStarted?)
      ensures before <= Flushed(flushes) <==> startedInTime || before == []
      ensures batch == [] && accepted == Flushed(flushes) + queue
      ensures !startedInTime ==> flushes == []
    {
      EveryRunConserves(capacity, batchSize, storage != null, table, history);
      if startedInTime {
        StopHandsEverythingOver(capacity, batchSize, storage != null, table, history);
        assert accepted == accepted[..atWait] + accepted[atWait..];
      }
    }
  }
}
