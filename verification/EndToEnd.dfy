/** What the endpoints answer over a table filled by the worker. */
module EndToEnd {
  import opened Models
  import opened Ingest
  import opened Analytics
  import opened Queries
  import Agreement
  import Rates
  import Pipeline
  import Windows

  /** What every row the worker stores satisfies. */
  ghost predicate WorkerRow(e: EgoEvent) {
    SampledRow(e) && e.account != "" && e.status in {"success", "failed"}
  }

  /** A step of the worker, or one of the two maintenance writers in between. */
  datatype Act = Work(step: Pipeline.Step) | PruneOlderThan(cutoff: int) | ResetDatabase

  /** A closed store refuses maintenance. */
  function NextAct(s: Pipeline.State, act: Act): Pipeline.State {
    match act
    case Work(step) => Pipeline.Next(s, step)
    case PruneOlderThan(cutoff) => if s.storageClosed then s else s.(table := Windows.Prune(s.table, cutoff))
    case ResetDatabase => if s.storageClosed then s else s.(table := [])
  }

  function RunActs(s: Pipeline.State, acts: seq<Act>): Pipeline.State {
    if acts == [] then s else NextAct(RunActs(s, acts[..|acts| - 1]), acts[|acts| - 1])
  }

  function WorkOf(acts: seq<Act>): seq<Pipeline.Step> {
    if acts == [] then []
    else
      var last := acts[|acts| - 1];
      WorkOf(acts[..|acts| - 1]) + (if last.Work? then [last.step] else [])
  }

  /** The same worker over another table, and the first table only ever extended. */
  ghost predicate SameBut(s: Pipeline.State, t: Pipeline.State, s': Pipeline.State, t': Pipeline.State) {
    && t' == s'.(table := t'.table)
    && exists added :: s'.table == s.table + added && t'.table == t.table + added
  }

  lemma NothingAdded(s: Pipeline.State, t: Pipeline.State, s': Pipeline.State, t': Pipeline.State)
    requires t' == s'.(table := t'.table) && s'.table == s.table && t'.table == t.table
    ensures SameBut(s, t, s', t')
  {
    assert s'.table == s.table + [] && t'.table == t.table + [];
  }

  lemma FlushIsWriteOnly(s: Pipeline.State, t: Pipeline.State, ok: bool)
    requires t == s.(table := t.table)
    ensures SameBut(s, t, Pipeline.FlushBatch(s, ok), Pipeline.FlushBatch(t, ok))
  {
    var s', t' := Pipeline.FlushBatch(s, ok), Pipeline.FlushBatch(t, ok);
    if s'.table == s.table {
      NothingAdded(s, t, s', t');
    } else {
      assert s'.table == s.table + s.batch && t'.table == t.table + s.batch;
    }
  }

  lemma LoopAside(s: Pipeline.State, t: Pipeline.State, s': Pipeline.State, t': Pipeline.State, ok: bool)
    requires t == s.(table := t.table)
    requires var f, g := Pipeline.FlushBatch(s, ok), Pipeline.FlushBatch(t, ok);
             || (s' == s.(loop := s'.loop) && t' == t.(loop := s'.loop))
             || (s' == f.(loop := s'.loop) && t' == g.(loop := s'.loop))
    ensures SameBut(s, t, s', t')
  {
    var f, g := Pipeline.FlushBatch(s, ok), Pipeline.FlushBatch(t, ok);
    if s' == s.(loop := s'.loop) && t' == t.(loop := s'.loop) {
      NothingAdded(s, t, s', t');
    } else {
      FlushIsWriteOnly(s, t, ok);
      var added :| f.table == s.table + added && g.table == t.table + added;
      assert s'.table == s.table + added && t'.table == t.table + added;
    }
  }

  lemma FlushStepIsWriteOnly(s: Pipeline.State, t: Pipeline.State, step: Pipeline.Step)
    requires t == s.(table := t.table) && Pipeline.Flushes(step) && Pipeline.Enabled(s, step)
    ensures SameBut(s, t, Pipeline.Next(s, step), Pipeline.Next(t, step))
  {
    LoopAside(s, t, Pipeline.Next(s, step), Pipeline.Next(t, step), step.ok);
  }

  lemma OtherStepIgnoresTable(s: Pipeline.State, t: Pipeline.State, step: Pipeline.Step)
    requires t == s.(table := t.table) && !Pipeline.Flushes(step)
    ensures var s', t' := Pipeline.Next(s, step), Pipeline.Next(t, step);
            t' == s'.(table := t.table) && s'.table == s.table
  {
  }

  /** The worker never reads the table: whatever rows it holds, a step does the same and adds the same. */
  lemma TableIsWriteOnly(s: Pipeline.State, t: Pipeline.State, step: Pipeline.Step)
    requires t == s.(table := t.table)
    ensures SameBut(s, t, Pipeline.Next(s, step), Pipeline.Next(t, step))
  {
    if !Pipeline.Flushes(step) {
      OtherStepIgnoresTable(s, t, step);
      NothingAdded(s, t, Pipeline.Next(s, step), Pipeline.Next(t, step));
    } else if Pipeline.Enabled(s, step) {
      FlushStepIsWriteOnly(s, t, step);
    } else {
      assert !Pipeline.Enabled(t, step);
      NothingAdded(s, t, s, t);
    }
  }

  lemma {:induction false} PruneKeepsOnlyRows(table: seq<EgoEvent>, cutoff: int)
    ensures forall e | e in Windows.Prune(table, cutoff) :: e in table
  {
    if table != [] {
      PruneKeepsOnlyRows(table[..|table| - 1], cutoff);
    }
  }

  lemma WorkKeepsSubset(run: Pipeline.State, acted: Pipeline.State, step: Pipeline.Step)
    requires acted == run.(table := acted.table) && forall e | e in acted.table :: e in run.table
    ensures var run', acted' := Pipeline.Next(run, step), Pipeline.Next(acted, step);
            acted' == run'.(table := acted'.table) && forall e | e in acted'.table :: e in run'.table
  {
    TableIsWriteOnly(run, acted, step);
    var run', acted' := Pipeline.Next(run, step), Pipeline.Next(acted, step);
    var added :| run'.table == run.table + added && acted'.table == acted.table + added;
  }

  /** Maintenance takes rows away and changes nothing else about the worker's run. */
  lemma {:induction false} MaintenanceOnlyRemoves(s: Pipeline.State, acts: seq<Act>)
    ensures var run, acted := Pipeline.Run(s, WorkOf(acts)), RunActs(s, acts);
            acted == run.(table := acted.table) && forall e | e in acted.table :: e in run.table
  {
    if acts != [] {
      var init, last := acts[..|acts| - 1], acts[|acts| - 1];
      MaintenanceOnlyRemoves(s, init);
      if last.Work? {
        Pipeline.RunAppends(s, WorkOf(init), last.step);
        WorkKeepsSubset(Pipeline.Run(s, WorkOf(init)), RunActs(s, init), last.step);
      } else {
        assert WorkOf(acts) == WorkOf(init);
        if last.PruneOlderThan? {
          PruneKeepsOnlyRows(RunActs(s, init).table, last.cutoff);
        }
      }
    }
  }

  /** The table after some run of a worker over a table of such rows, pruned and reset at any time. */
  ghost predicate FilledByWorker(events: seq<EgoEvent>) {
    exists capacity: nat, batchSize: nat, table: seq<EgoEvent>, acts: seq<Act> ::
      IsFilling(capacity, batchSize, table, acts, events)
  }

  ghost predicate IsFilling(capacity: nat, batchSize: nat, table: seq<EgoEvent>, acts: seq<Act>, events: seq<EgoEvent>) {
    && Pipeline.OnlyHostEvents(WorkOf(acts))
    && (forall e | e in table :: WorkerRow(e))
    && events == RunActs(Pipeline.Initial(capacity, batchSize, true, table), acts).table
  }

  lemma WorkerRowsInWindow(events: seq<EgoEvent>, w: Window, provider: string)
    requires FilledByWorker(events)
    ensures forall e | e in Where(events, w, provider) :: WorkerRow(e)
    ensures Rates.SampledRows(Where(events, w, provider))
  {
    var capacity: nat, batchSize: nat, table: seq<EgoEvent>, acts: seq<Act> :| IsFilling(capacity, batchSize, table, acts, events);
    MaintenanceOnlyRemoves(Pipeline.Initial(capacity, batchSize, true, table), acts);
    Pipeline.StoredRowsAreSampled(capacity, batchSize, true, table, WorkOf(acts));
    Windows.WhereMatches(events, w, provider);
  }

  lemma {:induction false} StatusesPartition(rows: seq<EgoEvent>)
    requires forall e | e in rows :: WorkerRow(e)
    ensures Sum(Successes, rows) + Sum(Failures, rows) == Sum(Requests, rows)
  {
    if rows != [] {
      StatusesPartition(rows[..|rows| - 1]);
      assert WorkerRow(rows[|rows| - 1]);
    }
  }

  /** Over a worker-filled table a request is either a success or a failure, and the account list accounts
      for every request exactly when it was not cut. */
  lemma WorkerTableAnswers(events: seq<EgoEvent>, prices: map<string, ModelPricing>, w: Window, provider: string,
                           stats: SummaryStats, accounts: seq<AccountRanking>)
    requires FilledByWorker(events)
    requires IsSummary(events, prices, w, provider, stats) && IsAccountRankings(events, w, provider, accounts)
    ensures stats.success + stats.failed == stats.counts.requests
    ensures Agreement.GroupCount(Where(events, w, provider), ByAccount) <= RANKING_LIMIT
            <==> Tally(Map((r: AccountRanking) => r.counts, accounts)).requests == stats.counts.requests
  {
    var rows := Where(events, w, provider);
    WorkerRowsInWindow(events, w, provider);
    StatusesPartition(rows);
    Agreement.NamedAccountsCount(rows);
    Agreement.AccountsConserve(events, prices, w, provider, accounts, stats);
  }

  /** Over a worker-filled table the summary's rate lies between two listed providers' rates whenever any
      request was sampled, and is otherwise 0. */
  lemma WorkerTableRates(events: seq<EgoEvent>, prices: map<string, ModelPricing>, w: Window,
                         stats: SummaryStats, providers: seq<ProviderRanking>)
    requires FilledByWorker(events)
    requires IsSummary(events, prices, w, "", stats) && IsProviderRankings(events, w, providers)
    ensures stats.tpsRequests == 0 ==> stats.avgTps == 0.0
    ensures stats.tpsRequests != 0 ==>
              exists lo, hi :: lo in providers && hi in providers && lo.tpsRequests > 0 && hi.tpsRequests > 0
                               && lo.avgTps <= stats.avgTps <= hi.avgTps
  {
    var rows := Where(events, w, "");
    WorkerRowsInWindow(events, w, "");
    Rates.SampledSums(rows);
    Rates.EligibleMeansSampled(rows);
    if stats.tpsRequests != 0 {
      Rates.SummaryRateBetweenProviders(events, prices, w, providers, stats);
    }
  }
}
