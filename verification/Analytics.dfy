/** The SQL the analytics endpoints share: a WHERE clause, aggregate columns and GROUP BY, over
    ego_events seen as a sequence of rows. */
module Analytics {
  import opened Models
  import opened Pricing

  // ----- WHERE ------------------------------------------------------------

  /** A half-open window of milliseconds; a zero end means no upper bound. */
  datatype Window = Window(start: int, end: int)

  predicate InWindow(w: Window, e: EgoEvent) {
    w.start <= e.timestamp && (w.end != 0 ==> e.timestamp < w.end)
  }

  /** An empty provider filter and "all" keep every provider. */
  predicate Matches(w: Window, provider: string, e: EgoEvent) {
    InWindow(w, e) && (provider == "" || provider == "all" || e.provider == provider)
  }

  function Where(table: seq<EgoEvent>, w: Window, provider: string): seq<EgoEvent> {
    if table == [] then []
    else
      var init, e := Where(table[..|table| - 1], w, provider), table[|table| - 1];
      if Matches(w, provider, e) then init + [e] else init
  }

  // ----- Aggregate columns ------------------------------------------------

  datatype Column =
    | Requests
    | Successes
    | Failures
    | TotalTokens
    | PromptTokens
    | CompletionTokens
    | ReasoningTokens
    | CachedTokens
    | CacheCreationTokens
    | LatencyMs
    | Timestamp
    | GenTokens
    | GenMs
    | SampledRequests
    | SampledTtftMs
    | SampledLatencyMs
    | UnpricedRequests(prices: map<string, ModelPricing>)

  function Value(c: Column, e: EgoEvent): int {
    match c
    case Requests => 1
    case Successes => if e.status == "success" then 1 else 0
    case Failures => if e.status == "failed" then 1 else 0
    case TotalTokens => e.totalTokens
    case PromptTokens => e.promptTokens
    case CompletionTokens => e.completionTokens
    case ReasoningTokens => e.reasoningTokens
    case CachedTokens => e.cachedTokens
    case CacheCreationTokens => e.cacheCreationTokens
    case LatencyMs => e.latencyMs
    case Timestamp => e.timestamp
    case GenTokens => e.genTokens
    case GenMs => e.genMs
    case SampledRequests => if e.genMs > 0 then 1 else 0
    case SampledTtftMs => if e.genMs > 0 then e.ttftMs else 0
    case SampledLatencyMs => if e.genMs > 0 then e.latencyMs else 0
    case UnpricedRequests(prices) => if Unpriced(prices, e.model) then 1 else 0
  }

  function Sum(c: Column, rows: seq<EgoEvent>): int {
    if rows == [] then 0 else Sum(c, rows[..|rows| - 1]) + Value(c, rows[|rows| - 1])
  }

  /** COALESCE(AVG(c), 0.0) */
  function Avg(c: Column, rows: seq<EgoEvent>): real {
    if rows == [] then 0.0 else Sum(c, rows) as real / |rows| as real
  }

  /** COALESCE(MIN(c), 0) */
  function Min(c: Column, rows: seq<EgoEvent>): int {
    if rows == [] then 0
    else if |rows| == 1 then Value(c, rows[0])
    else
      var m, v := Min(c, rows[..|rows| - 1]), Value(c, rows[|rows| - 1]);
      if v < m then v else m
  }

  /** COALESCE(MAX(c), 0) */
  function Max(c: Column, rows: seq<EgoEvent>): int {
    if rows == [] then 0
    else if |rows| == 1 then Value(c, rows[0])
    else
      var m, v := Max(c, rows[..|rows| - 1]), Value(c, rows[|rows| - 1]);
      if v > m then v else m
  }

  lemma RequestsCountRows(rows: seq<EgoEvent>)
    ensures Sum(Requests, rows) == |rows|
  {
  }

  lemma {:induction false} ExtremesBound(c: Column, rows: seq<EgoEvent>)
    ensures forall e | e in rows :: Min(c, rows) <= Value(c, e) <= Max(c, rows)
  {
    if |rows| > 1 {
      ExtremesBound(c, rows[..|rows| - 1]);
      assert rows == rows[..|rows| - 1] + [rows[|rows| - 1]];
    }
  }

  /** Both extremes are values of some row. */
  lemma {:induction false} ExtremesOccur(c: Column, rows: seq<EgoEvent>)
    requires rows != []
    ensures exists e | e in rows :: Value(c, e) == Min(c, rows)
    ensures exists e | e in rows :: Value(c, e) == Max(c, rows)
  {
    if |rows| > 1 {
      ExtremesOccur(c, rows[..|rows| - 1]);
      assert rows == rows[..|rows| - 1] + [rows[|rows| - 1]];
    }
    assert rows[|rows| - 1] in rows;
  }

  lemma MulStep(a: int, n: int)
    ensures a * (n + 1) == a * n + a
  {
  }

  lemma {:induction false} SumBounded(c: Column, rows: seq<EgoEvent>, lo: int, hi: int)
    requires forall e | e in rows :: lo <= Value(c, e) <= hi
    ensures lo * |rows| <= Sum(c, rows) <= hi * |rows|
  {
    if rows != [] {
      var n := |rows| - 1;
      SumBounded(c, rows[..n], lo, hi);
      MulStep(lo, n);
      MulStep(hi, n);
    }
  }

  /** The average of a column lies between its extremes (all three are 0 over no rows). */
  lemma AvgBetweenExtremes(c: Column, rows: seq<EgoEvent>)
    ensures Min(c, rows) as real <= Avg(c, rows) <= Max(c, rows) as real
  {
    if rows != [] {
      ExtremesBound(c, rows);
      SumBounded(c, rows, Min(c, rows), Max(c, rows));
      QuotientBetween(Min(c, rows), Sum(c, rows), Max(c, rows), |rows|);
    }
  }

  lemma QuotientBetween(lo: int, sum: int, hi: int, n: int)
    requires n > 0 && lo * n <= sum <= hi * n
    ensures lo as real <= sum as real / n as real <= hi as real
  {
    assert (lo * n) as real == lo as real * n as real && (hi * n) as real == hi as real * n as real;
  }

  // ----- GROUP BY ---------------------------------------------------------

  /** A group carries its rows, so that every aggregate of the group is a `Sum` over them. */
  datatype Group<K> = Group(key: K, rows: seq<EgoEvent>)

  function AddRow<K(==)>(gs: seq<Group<K>>, k: K, e: EgoEvent): seq<Group<K>> {
    if gs == [] then [Group(k, [e])]
    else
      var init, last := gs[..|gs| - 1], gs[|gs| - 1];
      if last.key == k then init + [Group(k, last.rows + [e])] else AddRow(init, k, e) + [last]
  }

  function Partition<K(==)>(rows: seq<EgoEvent>, key: EgoEvent -> K): seq<Group<K>> {
    if rows == [] then []
    else AddRow(Partition(rows[..|rows| - 1], key), key(rows[|rows| - 1]), rows[|rows| - 1])
  }

  /** What GROUP BY may answer without ORDER BY: the groups, in any order. */
  ghost predicate IsGroupQuery<K>(rows: seq<EgoEvent>, key: EgoEvent -> K, gs: seq<Group<K>>) {
    multiset(gs) == multiset(Partition(rows, key))
  }

  function RowsWithKey<K(==)>(rows: seq<EgoEvent>, key: EgoEvent -> K, k: K): seq<EgoEvent> {
    if rows == [] then []
    else
      var init, e := RowsWithKey(rows[..|rows| - 1], key, k), rows[|rows| - 1];
      if key(e) == k then init + [e] else init
  }

  function Lookup<K(==)>(gs: seq<Group<K>>, k: K): seq<EgoEvent> {
    if gs == [] then []
    else if gs[|gs| - 1].key == k then gs[|gs| - 1].rows
    else Lookup(gs[..|gs| - 1], k)
  }

  ghost predicate DistinctKeys<K>(gs: seq<Group<K>>) {
    forall i, j :: 0 <= i < j < |gs| ==> gs[i].key != gs[j].key
  }

  ghost predicate NoEmptyGroup<K>(gs: seq<Group<K>>) {
    forall g | g in gs :: g.rows != []
  }

  lemma {:induction false} AddRowLookup<K>(gs: seq<Group<K>>, k: K, e: EgoEvent, j: K)
    ensures Lookup(AddRow(gs, k, e), j) == Lookup(gs, j) + (if j == k then [e] else [])
  {
    if gs != [] {
      var init, last := gs[..|gs| - 1], gs[|gs| - 1];
      if last.key == k {
        assert (init + [Group(k, last.rows + [e])])[..|init|] == init;
      } else {
        AddRowLookup(init, k, e, j);
        assert (AddRow(init, k, e) + [last])[..|AddRow(init, k, e)|] == AddRow(init, k, e);
      }
    }
  }

  lemma {:induction false} AddRowKeys<K>(gs: seq<Group<K>>, k: K, e: EgoEvent)
    requires DistinctKeys(gs) && NoEmptyGroup(gs)
    ensures DistinctKeys(AddRow(gs, k, e)) && NoEmptyGroup(AddRow(gs, k, e))
    ensures forall g | g in AddRow(gs, k, e) :: g.key == k || exists h | h in gs :: h.key == g.key
  {
    if gs != [] {
      var init, last := gs[..|gs| - 1], gs[|gs| - 1];
      assert gs == init + [last];
      if last.key != k {
        AddRowKeys(init, k, e);
        forall g | g in AddRow(init, k, e)
          ensures g.key != last.key
        {
          assert g.key == k || exists h | h in init :: h.key == g.key;
        }
      }
    }
  }

  lemma {:induction false} PartitionGroups<K>(rows: seq<EgoEvent>, key: EgoEvent -> K)
    ensures DistinctKeys(Partition(rows, key)) && NoEmptyGroup(Partition(rows, key))
    ensures forall k :: Lookup(Partition(rows, key), k) == RowsWithKey(rows, key, k)
  {
    if rows != [] {
      var init, e := rows[..|rows| - 1], rows[|rows| - 1];
      PartitionGroups(init, key);
      AddRowKeys(Partition(init, key), key(e), e);
      forall k {
        AddRowLookup(Partition(init, key), key(e), e, k);
      }
    }
  }

  lemma {:induction false} LookupFindsGroups<K>(gs: seq<Group<K>>, g: Group<K>)
    requires DistinctKeys(gs) && NoEmptyGroup(gs)
    ensures g in gs <==> Lookup(gs, g.key) == g.rows && g.rows != []
  {
    if gs != [] {
      var init, last := gs[..|gs| - 1], gs[|gs| - 1];
      assert gs == init + [last];
      LookupFindsGroups(init, g);
    }
  }

  /** GROUP BY yields exactly one group for every key that occurs, holding exactly the rows with that key. */
  lemma GroupsAreKeyClasses<K>(rows: seq<EgoEvent>, key: EgoEvent -> K, gs: seq<Group<K>>, g: Group<K>)
    requires IsGroupQuery(rows, key, gs)
    ensures g in gs <==> g.rows == RowsWithKey(rows, key, g.key) && g.rows != []
  {
    PartitionGroups(rows, key);
    LookupFindsGroups(Partition(rows, key), g);
    assert g in gs <==> g in multiset(gs);
    assert g in Partition(rows, key) <==> g in multiset(Partition(rows, key));
  }

  lemma {:induction false} RowsWithKeyHaveIt<K>(rows: seq<EgoEvent>, key: EgoEvent -> K, k: K)
    ensures forall e :: e in RowsWithKey(rows, key, k) <==> e in rows && key(e) == k
  {
    if rows != [] {
      RowsWithKeyHaveIt(rows[..|rows| - 1], key, k);
      assert rows == rows[..|rows| - 1] + [rows[|rows| - 1]];
    }
  }

  lemma RowsOfGroup<K>(rows: seq<EgoEvent>, key: EgoEvent -> K, gs: seq<Group<K>>, g: Group<K>)
    requires IsGroupQuery(rows, key, gs) && g in gs
    ensures g.rows != []
    ensures forall e | e in g.rows :: e in rows && key(e) == g.key
  {
    GroupsAreKeyClasses(rows, key, gs, g);
    RowsWithKeyHaveIt(rows, key, g.key);
  }

  lemma {:induction false} DistinctKeysOnce<K>(gs: seq<Group<K>>, g: Group<K>)
    requires DistinctKeys(gs)
    ensures multiset(gs)[g] <= 1
  {
    if gs != [] {
      var init, last := gs[..|gs| - 1], gs[|gs| - 1];
      assert gs == init + [last];
      DistinctKeysOnce(init, g);
      if g == last {
        assert g !in init;
      }
    }
  }

  lemma RepetitionIsCounted<T>(xs: seq<T>, i: int, j: int)
    requires 0 <= i < j < |xs|
    ensures xs[i] == xs[j] ==> multiset(xs)[xs[i]] >= 2
  {
    assert xs == xs[..j] + xs[j..];
    assert xs[..j][i] == xs[i] && xs[j..][0] == xs[j];
    assert xs[i] in multiset(xs[..j]) && xs[j] in multiset(xs[j..]);
  }

  /** Whatever order the groups come in, no key comes twice. */
  lemma GroupKeysDistinct<K>(rows: seq<EgoEvent>, key: EgoEvent -> K, gs: seq<Group<K>>)
    requires IsGroupQuery(rows, key, gs)
    ensures DistinctKeys(gs)
  {
    PartitionGroups(rows, key);
    forall i, j | 0 <= i < j < |gs|
      ensures gs[i].key != gs[j].key
    {
      GroupsAreKeyClasses(rows, key, gs, gs[i]);
      GroupsAreKeyClasses(rows, key, gs, gs[j]);
      DistinctKeysOnce(Partition(rows, key), gs[i]);
      RepetitionIsCounted(gs, i, j);
    }
  }

  lemma SameGroups<K>(gs: seq<Group<K>>, hs: seq<Group<K>>)
    requires DistinctKeys(gs) && DistinctKeys(hs)
    requires forall g :: g in gs <==> g in hs
    ensures multiset(gs) == multiset(hs)
  {
    forall g ensures multiset(gs)[g] == multiset(hs)[g] {
      DistinctKeysOnce(gs, g);
      DistinctKeysOnce(hs, g);
      assert g in gs <==> g in multiset(gs);
      assert g in hs <==> g in multiset(hs);
    }
  }

  /** Conversely, distinct keys and exactly the classes of the rows make a GROUP BY answer. */
  lemma ClassesAreGroups<K>(rows: seq<EgoEvent>, key: EgoEvent -> K, gs: seq<Group<K>>)
    requires DistinctKeys(gs)
    requires forall g :: g in gs <==> g.rows == RowsWithKey(rows, key, g.key) && g.rows != []
    ensures IsGroupQuery(rows, key, gs)
  {
    PartitionGroups(rows, key);
    forall g ensures g in gs <==> g in Partition(rows, key) {
      GroupsAreKeyClasses(rows, key, Partition(rows, key), g);
    }
    SameGroups(gs, Partition(rows, key));
  }

  // ----- Sums over groups -------------------------------------------------

  function SumGroups<K>(c: Column, gs: seq<Group<K>>): int {
    if gs == [] then 0 else SumGroups(c, gs[..|gs| - 1]) + Sum(c, gs[|gs| - 1].rows)
  }

  /** Adds a real measure over a list, as the Go loops do. */
  function SumBy<T>(xs: seq<T>, f: T -> real): real {
    if xs == [] then 0.0 else SumBy(xs[..|xs| - 1], f) + f(xs[|xs| - 1])
  }

  lemma SumByAppends<T>(xs: seq<T>, x: T, f: T -> real)
    ensures SumBy(xs + [x], f) == SumBy(xs, f) + f(x)
  {
    assert (xs + [x])[..|xs|] == xs;
  }

  lemma {:induction false} SumByConcat<T>(xs: seq<T>, ys: seq<T>, f: T -> real)
    ensures SumBy(xs + ys, f) == SumBy(xs, f) + SumBy(ys, f)
  {
    if ys == [] {
      assert xs + ys == xs;
    } else {
      assert (xs + ys)[..|xs + ys| - 1] == xs + ys[..|ys| - 1];
      SumByConcat(xs, ys[..|ys| - 1], f);
    }
  }

  lemma SumByMiddle<T>(front: seq<T>, x: T, back: seq<T>, f: T -> real)
    ensures SumBy((front + [x]) + back, f) == SumBy(front + back, f) + f(x)
  {
    SumByConcat(front + [x], back, f);
    SumByConcat(front, back, f);
    SumByAppends(front, x, f);
  }

  lemma SplitAt<T>(xs: seq<T>, j: nat)
    requires j < |xs|
    ensures xs == (xs[..j] + [xs[j]]) + xs[j + 1..]
  {
  }

  lemma SumByWithout<T>(xs: seq<T>, j: nat, f: T -> real)
    requires j < |xs|
    ensures SumBy(xs, f) == SumBy(xs[..j] + xs[j + 1..], f) + f(xs[j])
  {
    SplitAt(xs, j);
    SumByMiddle(xs[..j], xs[j], xs[j + 1..], f);
  }

  lemma ElementsWithout<T>(xs: seq<T>, j: nat)
    requires j < |xs|
    ensures multiset(xs[..j] + xs[j + 1..]) == multiset(xs) - multiset{xs[j]}
  {
    assert xs == xs[..j] + [xs[j]] + xs[j + 1..];
  }

  /** A sum of exact measures does not depend on the order in which SQLite returns the groups. */
  lemma {:induction false} SumByAnyOrder<T>(xs: seq<T>, ys: seq<T>, f: T -> real)
    requires multiset(xs) == multiset(ys)
    ensures SumBy(xs, f) == SumBy(ys, f)
    decreases |xs|
  {
    assert |xs| == |multiset(xs)| == |multiset(ys)| == |ys|;
    if xs != [] {
      var last := |xs| - 1;
      assert xs[last] in multiset(ys);
      var j :| 0 <= j < |ys| && ys[j] == xs[last];
      SumByWithout(ys, j, f);
      SumByWithout(xs, last, f);
      assert xs[..last] + xs[last + 1..] == xs[..last];
      ElementsWithout(xs, last);
      ElementsWithout(ys, j);
      SumByAnyOrder(xs[..last], ys[..j] + ys[j + 1..], f);
    }
  }

  /** The measure of a group that adds a measure of its rows. */
  function OverRows<K>(f: EgoEvent -> real): Group<K> -> real {
    (g: Group<K>) => SumBy(g.rows, f)
  }

  lemma {:induction false} AddRowMeasure<K>(gs: seq<Group<K>>, k: K, e: EgoEvent, f: EgoEvent -> real)
    ensures SumBy(AddRow(gs, k, e), OverRows(f)) == SumBy(gs, OverRows(f)) + f(e)
  {
    if gs == [] {
      SumByAppends([], e, f);
      SumByAppends([], Group(k, [e]), OverRows(f));
      assert [] + [e] == [e] && [] + [Group(k, [e])] == [Group(k, [e])];
    } else {
      var init, last := gs[..|gs| - 1], gs[|gs| - 1];
      if last.key == k {
        SumByAppends(last.rows, e, f);
        SumByAppends(init, Group(k, last.rows + [e]), OverRows(f));
      } else {
        AddRowMeasure(init, k, e, f);
        SumByAppends(AddRow(init, k, e), last, OverRows(f));
      }
    }
  }

  lemma {:induction false} PartitionMeasure<K>(rows: seq<EgoEvent>, key: EgoEvent -> K, f: EgoEvent -> real)
    ensures SumBy(Partition(rows, key), OverRows(f)) == SumBy(rows, f)
  {
    if rows != [] {
      var init, e := rows[..|rows| - 1], rows[|rows| - 1];
      PartitionMeasure(init, key, f);
      AddRowMeasure(Partition(init, key), key(e), e, f);
    }
  }

  /** Conservation of an exact measure: adding it group by group, in any order, or row by row is the same. */
  lemma MeasureConserves<K>(rows: seq<EgoEvent>, key: EgoEvent -> K, gs: seq<Group<K>>, f: EgoEvent -> real)
    requires IsGroupQuery(rows, key, gs)
    ensures SumBy(gs, OverRows(f)) == SumBy(rows, f)
  {
    PartitionMeasure(rows, key, f);
    SumByAnyOrder(gs, Partition(rows, key), OverRows(f));
  }

  function ValueOf(c: Column): EgoEvent -> real {
    (e: EgoEvent) => Value(c, e) as real
  }

  lemma {:induction false} SumIsMeasure(c: Column, rows: seq<EgoEvent>)
    ensures Sum(c, rows) as real == SumBy(rows, ValueOf(c))
  {
    if rows != [] {
      SumIsMeasure(c, rows[..|rows| - 1]);
    }
  }

  lemma {:induction false} SumGroupsIsMeasure<K>(c: Column, gs: seq<Group<K>>)
    ensures SumGroups(c, gs) as real == SumBy(gs, OverRows(ValueOf(c)))
  {
    if gs != [] {
      SumGroupsIsMeasure(c, gs[..|gs| - 1]);
      SumIsMeasure(c, gs[|gs| - 1].rows);
    }
  }

  /** Conservation: for any key function, any column and any order of the groups, the group sums add up
      to the sum over the rows. */
  lemma GroupsConserve<K>(c: Column, rows: seq<EgoEvent>, key: EgoEvent -> K, gs: seq<Group<K>>)
    requires IsGroupQuery(rows, key, gs)
    ensures SumGroups(c, gs) == Sum(c, rows)
  {
    MeasureConserves(rows, key, gs, ValueOf(c));
    SumGroupsIsMeasure(c, gs);
    SumIsMeasure(c, rows);
  }
}
