/**
 * `RocksDBTableMetrics`: for one table and its shards' RocksDB `Statistics`
 * objects, registers the per-shard catalog, the table's ingest histograms,
 * its per-level and state gauges and its iterator counters, and keeps
 * handles to the metrics its owner updates. The process-wide registry is an
 * append-only log of registrations; `TablePlan` is the log one construction
 * appends, and the lemmas below state what that log contains.
 */
module TableMetrics {
  import opened Decimal
  import opened MetricNames
  import opened Catalog
  import opened Gauges

  /** An opaque reference to one shard's RocksDB `Statistics` object. */
  type StatisticsId = nat

  /** Where a registered metric's values come from. */
  datatype Source =
    | FromStatistics(stats: StatisticsId, statistic: Statistic)  // MetricsFactory.createHistogram / createCounter
    | Polled(gauge: TableGauge)                                  // a table gauge, see module Gauges
    | Throughput(outgoing: bool)                                 // RocksDBThroughputManager, read on every poll
    | UpdatedHistogram(biasedSampling: bool)                     // Metrics.histogram(name, biased): fed by the owner
    | UpdatedCounter                                             // Metrics.counter(name): fed by the owner

  datatype Registration = Registration(name: MetricName, kind: Kind, source: Source)

  /** `CassandraMetricsRegistry.Metrics`, reduced to the log of what was registered, in order. */
  class Registry {
    var entries: seq<Registration>

    constructor ()
      ensures entries == []
    {
      entries := [];
    }

    /** `register(name, metric)`: the metric is returned as given. */
    method Register(name: MetricName, kind: Kind, source: Source)
      modifies this
      ensures entries == old(entries) + [Registration(name, kind, source)]
    {
      entries := entries + [Registration(name, kind, source)];
    }

    /** `histogram(name, biasedSampling)`: the handle is the registered name. */
    method Histogram(name: MetricName, biasedSampling: bool) returns (handle: MetricName)
      modifies this
      ensures entries == old(entries) + [Registration(name, Kind.Histogram, UpdatedHistogram(biasedSampling))]
      ensures handle == name
    {
      entries := entries + [Registration(name, Kind.Histogram, UpdatedHistogram(biasedSampling))];
      handle := name;
    }

    /** `counter(name)`: the handle is the registered name. */
    method Counter(name: MetricName) returns (handle: MetricName)
      modifies this
      ensures entries == old(entries) + [Registration(name, Kind.Counter, UpdatedCounter)]
      ensures handle == name
    {
      entries := entries + [Registration(name, Kind.Counter, UpdatedCounter)];
      handle := name;
    }
  }

  // ---------------------------------------------------------------------
  // The registration plan

  /**
   * What `createShardedMetrics` registers for one shard: every entry of the
   * catalog, in order, named in the shard's scope and reading the entry's
   * statistic from the shard's `Statistics` object.
   */
  function ShardRegistrations(f: NameFactory, catalog: seq<CatalogEntry>, stats: StatisticsId, shard: int)
    : seq<Registration>
  {
    seq(|catalog|, j requires 0 <= j < |catalog| =>
      Registration(CreateShardedMetricName(f, catalog[j].metricName, shard), catalog[j].kind,
                   FromStatistics(stats, catalog[j].statistic)))
  }

  /** The constructor's shard loop: the registrations of shard 0, then of shard 1, and so on. */
  function ShardLoop(f: NameFactory, catalog: seq<CatalogEntry>, statsList: seq<StatisticsId>): seq<Registration>
    decreases |statsList|
  {
    if statsList == [] then []
    else
      var last := |statsList| - 1;
      ShardLoop(f, catalog, statsList[..last]) + ShardRegistrations(f, catalog, statsList[last], last)
  }

  /** `RocksDBConfigs.MAX_LEVELS` is a Java `int`. */
  predicate IsLevelCount(maxLevels: nat) {
    maxLevels < 0x8000_0000
  }

  /** The name of the level-`level` gauge, `SSTableCountPerLevel.<level>`. */
  function LevelGaugeName(f: NameFactory, level: int): MetricName {
    CreateMetricName(f, "SSTableCountPerLevel." + IntToString(level))
  }

  /** The list `rocksDBNumSstablePerLevel` after `n` rounds of the level loop: entry `k` reads level `k`. */
  function LevelGauges(cfId: nat, n: nat): (gauges: seq<TableGauge>)
    requires IsLevelCount(n)
    ensures |gauges| == n
    ensures forall k :: 0 <= k < n ==> gauges[k] == TableGauge(cfId, SstablesAtLevel(k))
  {
    seq(n, k requires 0 <= k < n => TableGauge(cfId, SstablesAtLevel(k)))
  }

  /** What the level loop registers in its first `n` rounds. */
  function LevelRegistrations(f: NameFactory, cfId: nat, n: nat): seq<Registration>
    requires IsLevelCount(n)
  {
    seq(n, k requires 0 <= k < n => Registration(LevelGaugeName(f, k), Gauge, Polled(TableGauge(cfId, SstablesAtLevel(k)))))
  }

  function IngestRegistrations(f: NameFactory): seq<Registration> {
    [Registration(CreateMetricName(f, "IngestTime"), Histogram, UpdatedHistogram(true)),
     Registration(CreateMetricName(f, "IngestWaitTime"), Histogram, UpdatedHistogram(true))]
  }

  function StateGaugeRegistrations(f: NameFactory, cfId: nat): seq<Registration> {
    [Registration(CreateMetricName(f, "PendingCompactionBytes"), Gauge, Polled(TableGauge(cfId, PendingCompactionBytes))),
     Registration(CreateMetricName(f, "LiveDataSize"), Gauge, Polled(TableGauge(cfId, EstimatedLiveDataSize)))]
  }

  function IteratorRegistrations(f: NameFactory): seq<Registration> {
    [Registration(CreateMetricName(f, "RocksIterMove"), Counter, UpdatedCounter),
     Registration(CreateMetricName(f, "RocksIterSeek"), Counter, UpdatedCounter),
     Registration(CreateMetricName(f, "RocksIterNew"), Counter, UpdatedCounter)]
  }

  /** Everything one `RocksDBTableMetrics` construction registers, in order. */
  function TablePlan(cfs: ColumnFamilyStore, statsList: seq<StatisticsId>, maxLevels: nat): seq<Registration>
    requires IsLevelCount(maxLevels)
  {
    var f := NewFactory(Some(cfs));
    ShardLoop(f, ShardCatalog, statsList) + IngestRegistrations(f) + LevelRegistrations(f, cfs.cfId, maxLevels)
      + StateGaugeRegistrations(f, cfs.cfId) + IteratorRegistrations(f)
  }

  /** What the static initialiser registers: the two throughput gauges, in the "all" scope. */
  function ThroughputRegistrations(): seq<Registration> {
    [Registration(CreateMetricName(DefaultFactory, "RocksdbOutgoingThroughput"), Gauge, Throughput(true)),
     Registration(CreateMetricName(DefaultFactory, "RocksdbIncomingThroughput"), Gauge, Throughput(false))]
  }

  /** Concatenation regrouped: the parts after a prefix may be joined first. */
  lemma AppendAssoc<T>(prefix: seq<T>, a: seq<T>, b: seq<T>, c: seq<T>, d: seq<T>)
    ensures prefix + a + b + c + d == prefix + (a + b + c + d)
  {
  }

  // ---------------------------------------------------------------------
  // The imperative code

  /**
   * `createShardedMetrics`: registers every entry of the catalog under the
   * shard's name, in catalog order.
   */
  method CreateShardedMetrics(registry: Registry, f: NameFactory, catalog: seq<CatalogEntry>,
                              stats: StatisticsId, shard: int)
    modifies registry
    ensures registry.entries == old(registry.entries) + ShardRegistrations(f, catalog, stats, shard)
  {
    for j := 0 to |catalog|
      invariant registry.entries == old(registry.entries) + ShardRegistrations(f, catalog, stats, shard)[..j]
    {
      var entry := catalog[j];
      registry.Register(CreateShardedMetricName(f, entry.metricName, shard), entry.kind,
                        FromStatistics(stats, entry.statistic));
      assert ShardRegistrations(f, catalog, stats, shard)[..j + 1]
        == ShardRegistrations(f, catalog, stats, shard)[..j] + [ShardRegistrations(f, catalog, stats, shard)[j]];
    }
    assert ShardRegistrations(f, catalog, stats, shard)[..|catalog|] == ShardRegistrations(f, catalog, stats, shard);
  }

  /** The static initialiser of `RocksDBTableMetrics`. */
  method RegisterThroughputGauges(registry: Registry)
    modifies registry
    ensures registry.entries == old(registry.entries) + ThroughputRegistrations()
  {
    registry.Register(CreateMetricName(DefaultFactory, "RocksdbOutgoingThroughput"), Gauge, Throughput(true));
    registry.Register(CreateMetricName(DefaultFactory, "RocksdbIncomingThroughput"), Gauge, Throughput(false));
  }

  /** The constructor's shard loop: `createShardedMetrics` for each shard, in list order. */
  method CreateAllShardedMetrics(registry: Registry, factory: NameFactory, catalog: seq<CatalogEntry>,
                                 statsList: seq<StatisticsId>)
    modifies registry
    ensures registry.entries == old(registry.entries) + ShardLoop(factory, catalog, statsList)
  {
    for i := 0 to |statsList|
      invariant registry.entries == old(registry.entries) + ShardLoop(factory, catalog, statsList[..i])
    {
      CreateShardedMetrics(registry, factory, catalog, statsList[i], i);
      assert statsList[..i + 1][..i] == statsList[..i];
    }
    assert statsList[..|statsList|] == statsList;
  }

  /** The constructor's level loop: registers one gauge per level and collects them in a list. */
  method CreateLevelGauges(registry: Registry, factory: NameFactory, cfId: nat, maxLevels: nat)
    returns (perLevel: seq<TableGauge>)
    requires IsLevelCount(maxLevels)
    modifies registry
    ensures registry.entries == old(registry.entries) + LevelRegistrations(factory, cfId, maxLevels)
    ensures perLevel == LevelGauges(cfId, maxLevels)
  {
    perLevel := [];
    for level := 0 to maxLevels
      invariant perLevel == LevelGauges(cfId, level)
      invariant registry.entries == old(registry.entries) + LevelRegistrations(factory, cfId, level)
    {
      var gauge := TableGauge(cfId, SstablesAtLevel(level));
      registry.Register(LevelGaugeName(factory, level), Gauge, Polled(gauge));
      perLevel := perLevel + [gauge];
      assert LevelGauges(cfId, level + 1) == LevelGauges(cfId, level) + [gauge];
      assert LevelRegistrations(factory, cfId, level + 1)
        == LevelRegistrations(factory, cfId, level) + [Registration(LevelGaugeName(factory, level), Gauge, Polled(gauge))];
    }
  }

  /** The constructor's two ingest histograms, with biased sampling. */
  method RegisterIngestHistograms(registry: Registry, factory: NameFactory)
    returns (ingestTime: MetricName, ingestWaitTime: MetricName)
    modifies registry
    ensures registry.entries == old(registry.entries) + IngestRegistrations(factory)
    ensures ingestTime == CreateMetricName(factory, "IngestTime")
    ensures ingestWaitTime == CreateMetricName(factory, "IngestWaitTime")
  {
    ingestTime := registry.Histogram(CreateMetricName(factory, "IngestTime"), true);
    ingestWaitTime := registry.Histogram(CreateMetricName(factory, "IngestWaitTime"), true);
  }

  /** The constructor's pending-compaction and live-data-size gauges. */
  method RegisterStateGauges(registry: Registry, factory: NameFactory, cfId: nat)
    returns (pending: TableGauge, liveDataSize: TableGauge)
    modifies registry
    ensures registry.entries == old(registry.entries) + StateGaugeRegistrations(factory, cfId)
    ensures pending == TableGauge(cfId, PendingCompactionBytes)
    ensures liveDataSize == TableGauge(cfId, EstimatedLiveDataSize)
  {
    pending := TableGauge(cfId, PendingCompactionBytes);
    registry.Register(CreateMetricName(factory, "PendingCompactionBytes"), Gauge, Polled(pending));
    liveDataSize := TableGauge(cfId, EstimatedLiveDataSize);
    registry.Register(CreateMetricName(factory, "LiveDataSize"), Gauge, Polled(liveDataSize));
  }

  /** The constructor's three iterator counters. */
  method RegisterIteratorCounters(registry: Registry, factory: NameFactory)
    returns (iterMove: MetricName, iterSeek: MetricName, iterNew: MetricName)
    modifies registry
    ensures registry.entries == old(registry.entries) + IteratorRegistrations(factory)
    ensures iterMove == CreateMetricName(factory, "RocksIterMove")
    ensures iterSeek == CreateMetricName(factory, "RocksIterSeek")
    ensures iterNew == CreateMetricName(factory, "RocksIterNew")
  {
    iterMove := registry.Counter(CreateMetricName(factory, "RocksIterMove"));
    iterSeek := registry.Counter(CreateMetricName(factory, "RocksIterSeek"));
    iterNew := registry.Counter(CreateMetricName(factory, "RocksIterNew"));
  }

  class RocksDBTableMetrics {
    const rocksDBIngestTimeHistogram: MetricName
    const rocksDBIngestWaitTimeHistogram: MetricName
    const rocksDBNumSstablePerLevel: seq<TableGauge>
    const rocksDBPendingCompactionBytes: TableGauge
    const rocksDBEstimateLiveDataSize: TableGauge
    const rocksDBIterMove: MetricName
    const rocksDBIterSeek: MetricName
    const rocksDBIterNew: MetricName

    constructor (registry: Registry, cfs: ColumnFamilyStore, statsList: seq<StatisticsId>, maxLevels: nat)
      requires IsLevelCount(maxLevels)
      modifies registry
      ensures registry.entries == old(registry.entries) + TablePlan(cfs, statsList, maxLevels)
      ensures rocksDBNumSstablePerLevel == LevelGauges(cfs.cfId, maxLevels)
      ensures rocksDBPendingCompactionBytes == TableGauge(cfs.cfId, PendingCompactionBytes)
      ensures rocksDBEstimateLiveDataSize == TableGauge(cfs.cfId, EstimatedLiveDataSize)
      ensures var f := NewFactory(Some(cfs));
        && rocksDBIngestTimeHistogram == CreateMetricName(f, "IngestTime")
        && rocksDBIngestWaitTimeHistogram == CreateMetricName(f, "IngestWaitTime")
        && rocksDBIterMove == CreateMetricName(f, "RocksIterMove")
        && rocksDBIterSeek == CreateMetricName(f, "RocksIterSeek")
        && rocksDBIterNew == CreateMetricName(f, "RocksIterNew")
    {
      var factory := NewFactory(Some(cfs));
      CreateAllShardedMetrics(registry, factory, ShardCatalog, statsList);

      var ingestTime, ingestWaitTime := RegisterIngestHistograms(registry, factory);

      var perLevel := CreateLevelGauges(registry, factory, cfs.cfId, maxLevels);

      var pending, liveDataSize := RegisterStateGauges(registry, factory, cfs.cfId);

      var iterMove, iterSeek, iterNew := RegisterIteratorCounters(registry, factory);
      var shards := ShardLoop(factory, ShardCatalog, statsList);
      var own := IngestRegistrations(factory) + LevelRegistrations(factory, cfs.cfId, maxLevels)
        + StateGaugeRegistrations(factory, cfs.cfId) + IteratorRegistrations(factory);
      AppendAssoc(old(registry.entries) + shards, IngestRegistrations(factory),
        LevelRegistrations(factory, cfs.cfId, maxLevels), StateGaugeRegistrations(factory, cfs.cfId),
        IteratorRegistrations(factory));
      AppendAssoc(shards, IngestRegistrations(factory),
        LevelRegistrations(factory, cfs.cfId, maxLevels), StateGaugeRegistrations(factory, cfs.cfId),
        IteratorRegistrations(factory));
      assert old(registry.entries) + shards + own == old(registry.entries) + (shards + own);

      rocksDBIngestTimeHistogram, rocksDBIngestWaitTimeHistogram := ingestTime, ingestWaitTime;
      rocksDBNumSstablePerLevel := perLevel;
      rocksDBPendingCompactionBytes, rocksDBEstimateLiveDataSize := pending, liveDataSize;
      rocksDBIterMove, rocksDBIterSeek, rocksDBIterNew := iterMove, iterSeek, iterNew;
    }
  }
}
