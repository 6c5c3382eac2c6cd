/** Readers and writers around the store's RWMutex. A summary runs two queries and then consults the
    price cache; other goroutines take steps in between. */
module Snapshot {
  import opened Models
  import opened Analytics
  import opened Queries
  import Agreement
  import Windows

  datatype Db = Db(events: seq<EgoEvent>, cache: map<string, ModelPricing>)

  /** One call of getSummary, by how far it has got. */
  datatype Reader =
    | Waiting
    | Locked(w: Window, provider: string)
    | Counted(w: Window, provider: string, rows: seq<EgoEvent>)
    | Grouped(w: Window, provider: string, rows: seq<EgoEvent>, gs: seq<Group<ModelKey>>)
    | Priced(w: Window, provider: string, stats: SummaryStats)
    | Finished(w: Window, provider: string, stats: SummaryStats)

  datatype State = State(db: Db, readers: map<nat, Reader>, writing: bool)

  /** What a writer does to the store between Lock and Unlock. */
  datatype Write =
    | InsertBatch(batch: seq<EgoEvent>)
    | PruneOlderThan(cutoff: int)
    | ResetDatabase
    | ReloadCache(cache: map<string, ModelPricing>)

  datatype Step =
    | RLock(id: nat, w: Window, provider: string)
    | CountRows(id: nat)
    | GroupRows(id: nat, gs: seq<Group<ModelKey>>)
    | PriceGroups(id: nat)
    | RUnlock(id: nat)
    | Lock
    | Change(write: Write)
    | Unlock

  function ReaderOf(s: State, id: nat): Reader {
    if id in s.readers then s.readers[id] else Waiting
  }

  predicate HoldsRead(r: Reader) {
    r.Locked? || r.Counted? || r.Grouped? || r.Priced?
  }

  /** The mutex admits a writer only without readers and readers only without a writer. */
  ghost predicate Enabled(s: State, step: Step) {
    match step
    case RLock(id, _, _) => ReaderOf(s, id).Waiting? && !s.writing
    case CountRows(id) => ReaderOf(s, id).Locked?
    case GroupRows(id, gs) =>
      var r := ReaderOf(s, id);
      r.Counted? && IsGroupQuery(Where(s.db.events, r.w, r.provider), ByModel, gs)
    case PriceGroups(id) => ReaderOf(s, id).Grouped?
    case RUnlock(id) => ReaderOf(s, id).Priced?
    case Lock => !s.writing && forall id | id in s.readers :: !HoldsRead(s.readers[id])
    case Change(_) => s.writing
    case Unlock => s.writing
  }

  function Apply(db: Db, write: Write): Db {
    match write
    case InsertBatch(batch) => db.(events := db.events + batch)
    case PruneOlderThan(cutoff) => db.(events := Windows.Prune(db.events, cutoff))
    case ResetDatabase => db.(events := [])
    case ReloadCache(cache) => db.(cache := cache)
  }

  /** Every step reads the store as it is at that moment. A step that is not enabled does not happen. */
  ghost function Next(s: State, step: Step): State {
    if !Enabled(s, step) then s
    else
      match step
      case RLock(id, w, provider) => s.(readers := s.readers[id := Locked(w, provider)])
      case CountRows(id) =>
        var r := ReaderOf(s, id);
        s.(readers := s.readers[id := Counted(r.w, r.provider, Where(s.db.events, r.w, r.provider))])
      case GroupRows(id, gs) =>
        var r := ReaderOf(s, id);
        s.(readers := s.readers[id := Grouped(r.w, r.provider, r.rows, gs)])
      case PriceGroups(id) =>
        var r := ReaderOf(s, id);
        s.(readers := s.readers[id := Priced(r.w, r.provider, SummaryOf(r.rows, r.gs, s.db.cache))])
      case RUnlock(id) =>
        var r := ReaderOf(s, id);
        s.(readers := s.readers[id := Finished(r.w, r.provider, r.stats)])
      case Lock => s.(writing := true)
      case Change(write) => s.(db := Apply(s.db, write))
      case Unlock => s.(writing := false)
  }

  ghost function Run(db: Db, steps: seq<Step>): State {
    if steps == [] then State(db, map[], false) else Next(Run(db, steps[..|steps| - 1]), steps[|steps| - 1])
  }

  /** What a reader has gathered so far is what the store, unchanged since, still says. */
  ghost predicate Current(db: Db, r: Reader) {
    match r
    case Counted(w, provider, rows) => rows == Where(db.events, w, provider)
    case Grouped(w, provider, rows, gs) => rows == Where(db.events, w, provider) && IsGroupQuery(rows, ByModel, gs)
    case Priced(w, provider, stats) => IsSummary(db.events, db.cache, w, provider, stats)
    case _ => true
  }

  ghost predicate Invariant(s: State) {
    forall id | id in s.readers ::
      HoldsRead(s.readers[id]) ==> !s.writing && Current(s.db, s.readers[id])
  }

  lemma NextKeepsInvariant(s: State, step: Step)
    requires Invariant(s)
    ensures Invariant(Next(s, step))
  {
    if Enabled(s, step) && step.PriceGroups? {
      var r := ReaderOf(s, step.id);
      assert Current(s.db, s.readers[step.id]);
      assert IsSummary(s.db.events, s.db.cache, r.w, r.provider, SummaryOf(r.rows, r.gs, s.db.cache));
    }
  }

  lemma {:induction false} RunKeepsInvariant(db: Db, steps: seq<Step>)
    ensures Invariant(Run(db, steps))
  {
    if steps != [] {
      RunKeepsInvariant(db, steps[..|steps| - 1]);
      NextKeepsInvariant(Run(db, steps[..|steps| - 1]), steps[|steps| - 1]);
    }
  }

  /** The reader's answer is the exact one for the store in this state. */
  ghost predicate AnswersAt(s: State, r: Reader)
    requires r.Finished?
  {
    IsSummary(s.db.events, s.db.cache, r.w, r.provider, r.stats)
  }

  lemma FinishingKeepsAnswer(s: State, step: Step, id: nat)
    requires Invariant(s) && ReaderOf(Next(s, step), id).Finished? && ReaderOf(s, id) != ReaderOf(Next(s, step), id)
    ensures HoldsRead(ReaderOf(s, id)) && AnswersAt(s, ReaderOf(Next(s, step), id))
  {
    assert step == RUnlock(id);
    assert Current(s.db, s.readers[id]);
  }

  /** At one moment of the run the reader held the lock and this was the exact answer. */
  ghost predicate AnswersWithin(db: Db, steps: seq<Step>, id: nat, r: Reader)
    requires r.Finished?
  {
    exists prefix :: prefix <= steps && HoldsRead(ReaderOf(Run(db, prefix), id)) && AnswersAt(Run(db, prefix), r)
  }

  /** In every run, a finished summary is the exact answer for the store as it was at one moment of the
      call, while it held the lock, although its two queries and its price look-ups are separate steps. */
  lemma {:induction false} FinishedSummaryIsASnapshot(db: Db, steps: seq<Step>, id: nat)
    requires ReaderOf(Run(db, steps), id).Finished?
    ensures AnswersWithin(db, steps, id, ReaderOf(Run(db, steps), id))
  {
    var n := |steps| - 1;
    var before, r := Run(db, steps[..n]), ReaderOf(Run(db, steps), id);
    if ReaderOf(before, id) == r {
      FinishedSummaryIsASnapshot(db, steps[..n], id);
    } else {
      RunKeepsInvariant(db, steps[..n]);
      FinishingKeepsAnswer(before, steps[n], id);
      assert steps[..n] <= steps[..n] && HoldsRead(ReaderOf(Run(db, steps[..n]), id)) && AnswersAt(Run(db, steps[..n]), r);
    }
    var prefix :| prefix <= steps[..n] && HoldsRead(ReaderOf(Run(db, prefix), id)) && AnswersAt(Run(db, prefix), r);
    assert prefix <= steps;
  }

  /** Hence the figures of the two queries always fit together. */
  lemma FinishedSummaryIsConsistent(db: Db, steps: seq<Step>, id: nat)
    requires ReaderOf(Run(db, steps), id).Finished?
    ensures var stats := ReaderOf(Run(db, steps), id).stats;
            0 <= stats.unpricedRequests <= stats.counts.requests && (stats.isPartial <==> stats.unpricedRequests > 0)
  {
    var r := ReaderOf(Run(db, steps), id);
    FinishedSummaryIsASnapshot(db, steps, id);
    var prefix :| prefix <= steps && HoldsRead(ReaderOf(Run(db, prefix), id)) && AnswersAt(Run(db, prefix), r);
    Agreement.SummaryCoverage(Run(db, prefix).db.events, Run(db, prefix).db.cache, r.w, r.provider, r.stats);
  }

  lemma OneRowQueries(e: EgoEvent)
    ensures IsGroupQuery([e], ByModel, [Group(ByModel(e), [e])])
    ensures CountersOf([]).requests == 0 && UnpricedIn(map[], [Group(ByModel(e), [e])]) == 1
  {
    var g := Group(ByModel(e), [e]);
    assert [e][..0] == [] && [g][..0] == [];
    assert Partition([e], ByModel) == AddRow(Partition([], ByModel), ByModel(e), e);
    assert Sum(Requests, [e]) == Sum(Requests, []) + 1;
    assert UnpricedIn(map[], [g]) == UnpricedIn(map[], []) + 1;
  }

  /** A writer let in between the two queries would break this: for a reader that has counted no rows the
      mutex refuses the writer, and were the row inserted all the same, the second query would report one
      unpriced request of none. */
  lemma WithoutTheLockQueriesDisagree(s: State, id: nat, e: EgoEvent, w: Window)
    requires id in s.readers && s.readers[id] == Counted(w, "", []) && s.db == Db([], map[]) && Matches(w, "", e)
    ensures !Enabled(s, Lock)
    ensures var t := s.(db := Apply(s.db, InsertBatch([e])));
            var gs := [Group(ByModel(e), [e])];
            && Enabled(t, GroupRows(id, gs))
            && SummaryOf([], gs, map[]).unpricedRequests > SummaryOf([], gs, map[]).counts.requests
  {
    OneRowQueries(e);
    assert [] + [e] == [e];
    assert Where([e], w, "") == Where([e][..0], w, "") + [e] == [e];
    assert HoldsRead(s.readers[id]);
  }
}
