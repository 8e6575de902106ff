/**
 * What one `RocksDBTableMetrics` construction registers, stated over the
 * plan `TablePlan`: shard after shard the whole catalog, each under its own
 * shard's name, then the table's own metrics in declaration order; and no
 * two of them share a name.
 */
module PlanProperties {
  import opened Decimal
  import opened MetricNames
  import opened Catalog
  import opened Gauges
  import opened TableMetrics

  // Arithmetic of a sequence made of `n` blocks of `size` elements.

  lemma MulSucc(a: nat, size: nat)
    ensures a * size + size == (a + 1) * size
  {
  }

  lemma MulMonotonic(a: nat, b: nat, size: nat)
    requires a <= b
    ensures a * size <= b * size
  {
  }

  /** Element `j` of block `i` lies before the end of the blocks. */
  lemma BlockBound(i: nat, j: nat, n: nat, size: nat)
    requires i < n && j < size
    ensures i * size + j < n * size
  {
    MulMonotonic(i + 1, n, size);
  }

  /** A position before the end of the blocks is element `j` of some block `i`. */
  lemma BlockOf(p: nat, n: nat, size: nat) returns (i: nat, j: nat)
    requires p < n * size
    ensures i < n && j < size
    ensures p == i * size + j
  {
    i, j := p / size, p % size;
    if i >= n {
      MulMonotonic(n, i, size);
    }
  }

  /** Positions in blocks are ordered by block first, then by place in the block. */
  lemma BlockOrder(i1: nat, j1: nat, i2: nat, j2: nat, size: nat)
    requires j1 < size && j2 < size
    requires i1 * size + j1 < i2 * size + j2
    ensures i1 < i2 || (i1 == i2 && j1 < j2)
  {
    if i1 > i2 {
      MulMonotonic(i2 + 1, i1, size);
      MulSucc(i2, size);
    }
  }

  /** The shard loop registers the whole catalog once per shard. */
  lemma {:induction false} ShardLoopLength(f: NameFactory, catalog: seq<CatalogEntry>, statsList: seq<StatisticsId>)
    ensures |ShardLoop(f, catalog, statsList)| == |statsList| * |catalog|
    decreases |statsList|
  {
    if statsList != [] {
      var last := |statsList| - 1;
      ShardLoopLength(f, catalog, statsList[..last]);
      MulSucc(last, |catalog|);
    }
  }

  /**
   * Registration `i * |catalog| + j` of the shard loop is catalog entry `j`
   * of shard `i`: its label, named in the scope `keyspace.table_i`, of the
   * entry's kind and reading the entry's statistic from shard `i`'s object.
   */
  lemma {:induction false} ShardLoopAt(f: NameFactory, catalog: seq<CatalogEntry>, statsList: seq<StatisticsId>,
                                       i: nat, j: nat)
    requires i < |statsList| && j < |catalog|
    ensures |ShardLoop(f, catalog, statsList)| == |statsList| * |catalog|
    ensures i * |catalog| + j < |ShardLoop(f, catalog, statsList)|
    ensures ShardLoop(f, catalog, statsList)[i * |catalog| + j]
      == Registration(CreateShardedMetricName(f, catalog[j].metricName, i), catalog[j].kind,
                      FromStatistics(statsList[i], catalog[j].statistic))
    decreases |statsList|
  {
    ShardLoopLength(f, catalog, statsList);
    BlockBound(i, j, |statsList|, |catalog|);
    var last := |statsList| - 1;
    var prefix := statsList[..last];
    ShardLoopLength(f, catalog, prefix);
    var front, block := ShardLoop(f, catalog, prefix), ShardRegistrations(f, catalog, statsList[last], last);
    assert ShardLoop(f, catalog, statsList) == front + block;
    if i < last {
      ShardLoopAt(f, catalog, prefix, i, j);
      BlockBound(i, j, last, |catalog|);
      assert prefix[i] == statsList[i];
    } else {
      assert i * |catalog| + j == |front| + j;
    }
  }

  /** The kinds of a sequence of registrations, in order. */
  function Kinds(rs: seq<Registration>): (ks: seq<Kind>)
    ensures |ks| == |rs|
    ensures forall p :: 0 <= p < |rs| ==> ks[p] == rs[p].kind
  {
    seq(|rs|, p requires 0 <= p < |rs| => rs[p].kind)
  }

  /** The kinds of a catalog's entries, in order. */
  function EntryKinds(catalog: seq<CatalogEntry>): (ks: seq<Kind>)
    ensures |ks| == |catalog|
    ensures forall j :: 0 <= j < |catalog| ==> ks[j] == catalog[j].kind
  {
    seq(|catalog|, j requires 0 <= j < |catalog| => catalog[j].kind)
  }

  lemma KindsAppend(a: seq<Registration>, b: seq<Registration>)
    ensures Kinds(a + b) == Kinds(a) + Kinds(b)
  {
  }

  /** `N` shards register each kind `N` times as often as the catalog lists it. */
  lemma {:induction false} ShardLoopKinds(f: NameFactory, catalog: seq<CatalogEntry>, statsList: seq<StatisticsId>, k: Kind)
    ensures multiset(Kinds(ShardLoop(f, catalog, statsList)))[k] == |statsList| * multiset(EntryKinds(catalog))[k]
    decreases |statsList|
  {
    if statsList != [] {
      var last := |statsList| - 1;
      var block := ShardRegistrations(f, catalog, statsList[last], last);
      ShardLoopKinds(f, catalog, statsList[..last], k);
      KindsAppend(ShardLoop(f, catalog, statsList[..last]), block);
      assert Kinds(block) == EntryKinds(catalog);
      MulSucc(last, multiset(EntryKinds(catalog))[k]);
    }
  }

  /** A sequence whose first `m` elements, and only those, are `x` holds `x` exactly `m` times. */
  lemma {:induction false} CountLeading<T>(s: seq<T>, x: T, m: nat)
    requires m <= |s|
    requires forall j :: 0 <= j < |s| ==> (s[j] == x <==> j < m)
    ensures multiset(s)[x] == m
    decreases |s|
  {
    if s != [] {
      var last := |s| - 1;
      assert s == s[..last] + [s[last]];
      CountLeading(s[..last], x, if m == |s| then m - 1 else m);
    }
  }

  /** A catalog of `h` histogram entries and `t` counter entries lists exactly those kinds, and no gauge. */
  lemma CatalogOfKindCounts(histograms: seq<(string, HistogramType)>, tickers: seq<(string, TickerType)>)
    ensures multiset(EntryKinds(CatalogOf(histograms, tickers)))[Histogram] == |histograms|
    ensures multiset(EntryKinds(CatalogOf(histograms, tickers)))[Counter] == |tickers|
    ensures multiset(EntryKinds(CatalogOf(histograms, tickers)))[Gauge] == 0
  {
    var ks := EntryKinds(CatalogOf(histograms, tickers));
    var n := |histograms|;
    forall j | 0 <= j < |ks|
      ensures ks[j] == Histogram <==> j < n
      ensures ks[j] == Gauge <==> j < 0
    {
      if n <= j {
        assert ks[n + (j - n)] == Counter;
      }
    }
    CountLeading(ks, Histogram, n);
    CountLeading(ks, Gauge, 0);
    var front, back := ks[..n], ks[n..];
    assert ks == front + back;
    forall j | 0 <= j < |back|
      ensures back[j] == Counter
    {
      assert back[j] == ks[n + j];
    }
    CountLeading(front, Counter, 0);
    CountLeading(back, Counter, |tickers|);
  }

  /** The catalog lists 32 histograms, 11 counters and no gauge. */
  lemma CatalogKindCounts()
    ensures multiset(EntryKinds(ShardCatalog))[Histogram] == HistogramCount
    ensures multiset(EntryKinds(ShardCatalog))[Counter] == CounterCount
    ensures multiset(EntryKinds(ShardCatalog))[Gauge] == 0
  {
    CatalogSizes();
    CatalogOfKindCounts(HistogramCatalog, TickerCatalog);
  }

  /** `N` shards register `32 N` histograms, `11 N` counters and no gauges. */
  lemma ShardPlanKinds(f: NameFactory, statsList: seq<StatisticsId>)
    ensures multiset(Kinds(ShardLoop(f, ShardCatalog, statsList)))[Histogram] == HistogramCount * |statsList|
    ensures multiset(Kinds(ShardLoop(f, ShardCatalog, statsList)))[Counter] == CounterCount * |statsList|
    ensures multiset(Kinds(ShardLoop(f, ShardCatalog, statsList)))[Gauge] == 0
  {
    CatalogKindCounts();
    ShardLoopKinds(f, ShardCatalog, statsList, Histogram);
    ShardLoopKinds(f, ShardCatalog, statsList, Counter);
    ShardLoopKinds(f, ShardCatalog, statsList, Gauge);
  }

  /**
   * Registration `i * 43 + j` of the constructor's shard loop is catalog
   * entry `j` of shard `i`; there are 43 per shard.
   */
  lemma ShardPlanAt(f: NameFactory, statsList: seq<StatisticsId>, i: nat, j: nat)
    requires i < |statsList| && j < CatalogSize
    ensures |ShardLoop(f, ShardCatalog, statsList)| == |statsList| * CatalogSize
    ensures ShardLoop(f, ShardCatalog, statsList)[i * CatalogSize + j]
      == Registration(CreateShardedMetricName(f, ShardCatalog[j].metricName, i), ShardCatalog[j].kind,
                      FromStatistics(statsList[i], ShardCatalog[j].statistic))
  {
    CatalogLength();
    ShardLoopAt(f, ShardCatalog, statsList, i, j);
  }

  /**
   * Two metric names identify different metrics: they differ in scope or in
   * name, the pair a metric is known by.
   */
  predicate Differ(a: MetricName, b: MetricName) {
    a.scope != b.scope || a.name != b.name
  }

  /** No two registrations of a sequence share a scope and name. */
  predicate NamesDistinct(rs: seq<Registration>) {
    forall p, q :: 0 <= p < q < |rs| ==> Differ(rs[p].name, rs[q].name)
  }

  /** A catalog in which no two entries share a label. */
  predicate LabelsDistinct(catalog: seq<CatalogEntry>) {
    forall j, k :: 0 <= j < k < |catalog| ==> catalog[j].metricName != catalog[k].metricName
  }

  /** Two positions of the shard loop hold different names: they differ in shard, hence scope, or else in label. */
  lemma ShardLoopPairDiffer(f: NameFactory, catalog: seq<CatalogEntry>, statsList: seq<StatisticsId>, p: nat, q: nat)
    requires LabelsDistinct(catalog)
    requires p < q < |statsList| * |catalog|
    ensures |ShardLoop(f, catalog, statsList)| == |statsList| * |catalog|
    ensures Differ(ShardLoop(f, catalog, statsList)[p].name, ShardLoop(f, catalog, statsList)[q].name)
  {
    var i1, j1 := BlockOf(p, |statsList|, |catalog|);
    var i2, j2 := BlockOf(q, |statsList|, |catalog|);
    BlockOrder(i1, j1, i2, j2, |catalog|);
    ShardLoopAt(f, catalog, statsList, i1, j1);
    ShardLoopAt(f, catalog, statsList, i2, j2);
    if i1 != i2 {
      // different shards: the scopes differ
      DistinctShardsDistinctNames(f, catalog[j1].metricName, i1, i2);
    }
  }

  /** With a catalog of distinct labels, every registration of the shard loop has a name of its own. */
  lemma ShardLoopNamesDistinct(f: NameFactory, catalog: seq<CatalogEntry>, statsList: seq<StatisticsId>)
    requires LabelsDistinct(catalog)
    ensures NamesDistinct(ShardLoop(f, catalog, statsList))
  {
    ShardLoopLength(f, catalog, statsList);
    forall p, q | 0 <= p < q < |ShardLoop(f, catalog, statsList)|
      ensures Differ(ShardLoop(f, catalog, statsList)[p].name, ShardLoop(f, catalog, statsList)[q].name)
    {
      ShardLoopPairDiffer(f, catalog, statsList, p, q);
    }
  }

  // ---------------------------------------------------------------------
  // The table's own metrics

  /** What the constructor registers after the shard loop, all in the table's own scope. */
  function UnshardedPlan(f: NameFactory, cfId: nat, maxLevels: nat): seq<Registration>
    requires IsLevelCount(maxLevels)
  {
    IngestRegistrations(f) + LevelRegistrations(f, cfId, maxLevels)
      + StateGaugeRegistrations(f, cfId) + IteratorRegistrations(f)
  }

  /** The labels of the table's own metrics, in registration order. */
  function UnshardedLabels(maxLevels: nat): (labels: seq<string>)
    ensures |labels| == maxLevels + 7
  {
    ["IngestTime", "IngestWaitTime"]
      + seq(maxLevels, k requires 0 <= k < maxLevels => "SSTableCountPerLevel." + IntToString(k))
      + ["PendingCompactionBytes", "LiveDataSize", "RocksIterMove", "RocksIterSeek", "RocksIterNew"]
  }

  /** A construction's plan is the shard loop's registrations followed by the table's own. */
  lemma TablePlanSplit(cfs: ColumnFamilyStore, statsList: seq<StatisticsId>, maxLevels: nat)
    requires IsLevelCount(maxLevels)
    ensures var f := NewFactory(Some(cfs));
      TablePlan(cfs, statsList, maxLevels) == ShardLoop(f, ShardCatalog, statsList) + UnshardedPlan(f, cfs.cfId, maxLevels)
    ensures |TablePlan(cfs, statsList, maxLevels)| == |statsList| * CatalogSize + maxLevels + 7
  {
    var f := NewFactory(Some(cfs));
    CatalogLength();
    ShardLoopLength(f, ShardCatalog, statsList);
    AppendAssoc(ShardLoop(f, ShardCatalog, statsList), IngestRegistrations(f), LevelRegistrations(f, cfs.cfId, maxLevels),
      StateGaugeRegistrations(f, cfs.cfId), IteratorRegistrations(f));
  }

  /**
   * The table's own metrics around the level gauges, in order: the two
   * ingest histograms first; after the level gauges the pending-compaction
   * and live-data-size gauges, then the three iterator counters.
   */
  lemma UnshardedFixed(f: NameFactory, cfId: nat, maxLevels: nat)
    requires IsLevelCount(maxLevels)
    ensures var u := UnshardedPlan(f, cfId, maxLevels);
      && |u| == maxLevels + 7
      && u[0] == Registration(CreateMetricName(f, "IngestTime"), Histogram, UpdatedHistogram(true))
      && u[1] == Registration(CreateMetricName(f, "IngestWaitTime"), Histogram, UpdatedHistogram(true))
      && u[maxLevels + 2]
         == Registration(CreateMetricName(f, "PendingCompactionBytes"), Gauge, Polled(TableGauge(cfId, PendingCompactionBytes)))
      && u[maxLevels + 3]
         == Registration(CreateMetricName(f, "LiveDataSize"), Gauge, Polled(TableGauge(cfId, EstimatedLiveDataSize)))
      && u[maxLevels + 4] == Registration(CreateMetricName(f, "RocksIterMove"), Counter, UpdatedCounter)
      && u[maxLevels + 5] == Registration(CreateMetricName(f, "RocksIterSeek"), Counter, UpdatedCounter)
      && u[maxLevels + 6] == Registration(CreateMetricName(f, "RocksIterNew"), Counter, UpdatedCounter)
  {
  }

  lemma SecondOfFour<T>(a: seq<T>, b: seq<T>, c: seq<T>, d: seq<T>, k: nat)
    requires k < |b|
    ensures (a + b + c + d)[|a| + k] == b[k]
  {
  }

  /** The level gauges: entry `2 + k` is named `SSTableCountPerLevel.k` and reads level `k`. */
  lemma UnshardedLevels(f: NameFactory, cfId: nat, maxLevels: nat)
    requires IsLevelCount(maxLevels)
    ensures |UnshardedPlan(f, cfId, maxLevels)| == maxLevels + 7
    ensures forall k :: 0 <= k < maxLevels ==>
      UnshardedPlan(f, cfId, maxLevels)[2 + k]
        == Registration(LevelGaugeName(f, k), Gauge,
                        Polled(TableGauge(cfId, SstablesAtLevel(k))))
  {
    var levels := LevelRegistrations(f, cfId, maxLevels);
    forall k | 0 <= k < maxLevels
      ensures UnshardedPlan(f, cfId, maxLevels)[2 + k] == levels[k]
    {
      SecondOfFour(IngestRegistrations(f), levels, StateGaugeRegistrations(f, cfId), IteratorRegistrations(f), k);
    }
    forall k | 0 <= k < maxLevels
      ensures levels[k] == Registration(LevelGaugeName(f, k), Gauge,
                        Polled(TableGauge(cfId, SstablesAtLevel(k))))
    {
      assert levels[k] == Registration(LevelGaugeName(f, k), Gauge, Polled(TableGauge(cfId, SstablesAtLevel(k))));
    }
  }

  /** Each of the table's own metrics is named after its label, in the table's scope. */
  lemma UnshardedNames(f: NameFactory, cfId: nat, maxLevels: nat)
    requires IsLevelCount(maxLevels)
    ensures |UnshardedPlan(f, cfId, maxLevels)| == |UnshardedLabels(maxLevels)|
    ensures forall p :: 0 <= p < |UnshardedPlan(f, cfId, maxLevels)| ==>
      UnshardedPlan(f, cfId, maxLevels)[p].name == CreateMetricName(f, UnshardedLabels(maxLevels)[p])
  {
    UnshardedFixed(f, cfId, maxLevels);
    UnshardedLevels(f, cfId, maxLevels);
  }

  /** Distinct levels have distinct gauge labels. */
  lemma LevelLabelsDistinct(k1: int, k2: int)
    requires k1 != k2
    ensures "SSTableCountPerLevel." + IntToString(k1) != "SSTableCountPerLevel." + IntToString(k2)
  {
    IntToStringInjective(k1, k2);
    var prefix := "SSTableCountPerLevel.";
    assert (prefix + IntToString(k1))[|prefix|..] == IntToString(k1);
    assert (prefix + IntToString(k2))[|prefix|..] == IntToString(k2);
  }

  /** No two of the table's own metrics share a label. */
  lemma UnshardedLabelsDistinct(maxLevels: nat)
    ensures forall p, q :: 0 <= p < q < |UnshardedLabels(maxLevels)| ==>
      UnshardedLabels(maxLevels)[p] != UnshardedLabels(maxLevels)[q]
  {
    var labels := UnshardedLabels(maxLevels);
    var n := maxLevels;
    forall p, q | 0 <= p < q < |labels|
      ensures labels[p] != labels[q]
    {
      if 2 <= p < n + 2 && 2 <= q < n + 2 {
        LevelLabelsDistinct(p - 2, q - 2);
      } else if 2 <= p < n + 2 || 2 <= q < n + 2 {
        // a level label starts with 'S', none of the others does
        var level, other := if 2 <= p < n + 2 then p else q, if 2 <= p < n + 2 then q else p;
        assert labels[level][0] == 'S';
        assert labels[other][0] != 'S';
      }
    }
  }

  /** No two of the table's own metrics share a name. */
  lemma UnshardedNamesDistinct(f: NameFactory, cfId: nat, maxLevels: nat)
    requires IsLevelCount(maxLevels)
    ensures NamesDistinct(UnshardedPlan(f, cfId, maxLevels))
  {
    UnshardedNames(f, cfId, maxLevels);
    UnshardedLabelsDistinct(maxLevels);
  }

  // ---------------------------------------------------------------------
  // One construction as a whole

  lemma NamesDistinctAppend(a: seq<Registration>, b: seq<Registration>)
    requires NamesDistinct(a) && NamesDistinct(b)
    requires forall x, y :: 0 <= x < |a| && 0 <= y < |b| ==> Differ(a[x].name, b[y].name)
    ensures NamesDistinct(a + b)
  {
    forall p, q | 0 <= p < q < |a + b|
      ensures Differ((a + b)[p].name, (a + b)[q].name)
    {
      if q < |a| {
        assert (a + b)[p] == a[p] && (a + b)[q] == a[q];
      } else if p < |a| {
        assert (a + b)[p] == a[p] && (a + b)[q] == b[q - |a|];
      } else {
        assert (a + b)[p] == b[p - |a|] && (a + b)[q] == b[q - |a|];
      }
    }
  }

  /** Every scope of the shard loop is longer than the table's own scope, which it extends by `_<shard>`. */
  lemma ShardScopeLonger(f: NameFactory, catalog: seq<CatalogEntry>, statsList: seq<StatisticsId>, p: nat)
    requires p < |statsList| * |catalog|
    ensures |ShardLoop(f, catalog, statsList)| == |statsList| * |catalog|
    ensures |ShardLoop(f, catalog, statsList)[p].name.scope| > |f.keyspaceName + "." + f.tableName|
  {
    var i, j := BlockOf(p, |statsList|, |catalog|);
    ShardLoopAt(f, catalog, statsList, i, j);
  }

  /**
   * The shard loop followed by metrics of distinct names in the table's own
   * scope registers no name twice.
   */
  lemma ShardLoopThenOwnDistinct(f: NameFactory, catalog: seq<CatalogEntry>, statsList: seq<StatisticsId>,
                                 own: seq<Registration>)
    requires LabelsDistinct(catalog)
    requires NamesDistinct(own)
    requires forall y :: 0 <= y < |own| ==> own[y].name.scope == f.keyspaceName + "." + f.tableName
    ensures NamesDistinct(ShardLoop(f, catalog, statsList) + own)
  {
    var shards := ShardLoop(f, catalog, statsList);
    ShardLoopNamesDistinct(f, catalog, statsList);
    ShardLoopLength(f, catalog, statsList);
    forall x, y | 0 <= x < |shards| && 0 <= y < |own|
      ensures Differ(shards[x].name, own[y].name)
    {
      ShardScopeLonger(f, catalog, statsList, x);
    }
    NamesDistinctAppend(shards, own);
  }

  /**
   * No two metrics one construction registers share a name: the shard
   * metrics are told apart by shard and label, the table's own by label,
   * and a shard scope is never the table's scope.
   */
  lemma TablePlanNamesDistinct(cfs: ColumnFamilyStore, statsList: seq<StatisticsId>, maxLevels: nat)
    requires IsLevelCount(maxLevels)
    ensures NamesDistinct(TablePlan(cfs, statsList, maxLevels))
  {
    var f := NewFactory(Some(cfs));
    TablePlanSplit(cfs, statsList, maxLevels);
    CatalogLabelsDistinct();
    UnshardedNamesDistinct(f, cfs.cfId, maxLevels);
    UnshardedNames(f, cfs.cfId, maxLevels);
    ShardLoopThenOwnDistinct(f, ShardCatalog, statsList, UnshardedPlan(f, cfs.cfId, maxLevels));
  }

  /**
   * The level-`k` entry of `rocksDBNumSstablePerLevel` is the gauge the
   * construction registers, after the shard metrics and the two ingest
   * histograms, under the label `SSTableCountPerLevel.k`.
   */
  lemma LevelGaugeRegistered(cfs: ColumnFamilyStore, statsList: seq<StatisticsId>, maxLevels: nat, k: nat)
    requires IsLevelCount(maxLevels) && k < maxLevels
    ensures |TablePlan(cfs, statsList, maxLevels)| == |statsList| * CatalogSize + maxLevels + 7
    ensures TablePlan(cfs, statsList, maxLevels)[|statsList| * CatalogSize + 2 + k]
      == Registration(LevelGaugeName(NewFactory(Some(cfs)), k), Gauge,
                      Polled(LevelGauges(cfs.cfId, maxLevels)[k]))
  {
    var f := NewFactory(Some(cfs));
    TablePlanSplit(cfs, statsList, maxLevels);
    CatalogLength();
    ShardLoopLength(f, ShardCatalog, statsList);
    UnshardedLevels(f, cfs.cfId, maxLevels);
    var shards, own := ShardLoop(f, ShardCatalog, statsList), UnshardedPlan(f, cfs.cfId, maxLevels);
    assert (shards + own)[|shards| + 2 + k] == own[2 + k];
  }

  /** The two throughput gauges are named in the default scope `all.all`, under two labels. */
  lemma ThroughputNames()
    ensures |ThroughputRegistrations()| == 2
    ensures forall r :: r in ThroughputRegistrations() ==> r.name.scope == "all.all" && r.kind == Gauge
    ensures NamesDistinct(ThroughputRegistrations())
  {
    DefaultFactoryScope("RocksdbOutgoingThroughput");
    DefaultFactoryScope("RocksdbIncomingThroughput");
  }

  /**
   * The level-`k` entry of `rocksDBNumSstablePerLevel` reads level `k` of
   * the table's column family, and reads 0 when the lookup or the query throws.
   */
  lemma LevelGaugeReadsLevel(e: Engine, cfId: nat, maxLevels: nat, k: nat)
    requires IsLevelCount(maxLevels) && k < maxLevels
    ensures e.getRocksDBCF(cfId).Threw? ==> GetValue(e, LevelGauges(cfId, maxLevels)[k]) == 0
    ensures e.getRocksDBCF(cfId).Returned? ==>
      GetValue(e, LevelGauges(cfId, maxLevels)[k])
        == OrDefault(e.numberOfSstablesByLevel(e.getRocksDBCF(cfId).value, k), 0)
  {
  }
}
