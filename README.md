# RocksDB table metrics, modelled in Dafny

This project models `RocksDBTableMetrics` from the RocksDB storage engine of
this Cassandra fork. That class registers, for one table, the metrics
published to the process-wide metrics registry. The model has five parts:

- **Metric names** (`metric_names.dfy`, with `decimal.dfy`):
  - The nested `RocksMetricNameFactory` builds the five-part
    `CassandraMetricsRegistry.MetricName`: group, type `Rocksdb`, name,
    scope, and the JMX MBean string.
  - A name is built from a bare label, with or without a shard number.
  - The factory without a table (`DEFAULT_FACTORY`) names things in the
    scope `all.all`.
  - `decimal.dfy` models Java's rendering of an `int` inside a string
    concatenation. Its inverse is used to prove that different shards get
    different names.
- **The per-shard catalog** (`catalog.dfy`):
  - `createShardedMetrics` registers 32 histograms and 11 counters, in that
    order.
  - Each entry reads one RocksDB statistic of the shard.
  - The labels are kept exactly as the code spells them.
- **The table gauges** (`gauges.dfy`):
  - Each gauge looks up the table's column family and asks it for one live
    property.
  - Any failure of either call makes the gauge read zero.
  - The engine is an oracle whose every call may fail.
- **The registration code** (`table_metrics.dfy`):
  - The registry is a class whose log of registrations the methods append to.
  - The constructor loops over the shards and then over the compaction
    levels, and stores the handles it keeps in its fields.
  - The static initialiser registers the two throughput gauges.
  - Each method is proved against a plan function. For the constructor this
    is `TablePlan`, the exact sequence one construction appends.
- **Properties of the plan** (`plan_properties.dfy`):
  - Shard `i` contributes catalog entry `j` at position `i * 43 + j`.
  - `N` shards give `32 N` histograms and `11 N` counters.
  - The table's own metrics follow in declaration order.
  - The level-`k` handle is the gauge registered as `SSTableCountPerLevel.k`.
  - No two metrics of one construction share both scope and name, the pair
    a metric is identified by.

The catalog has 32 histograms per shard, including the enum sentinel
`HISTOGRAM_ENUM_MAX` under the label `HistogramEnumMaxHistogram`. The
manifest sync label is spelled `ManifiestSyncMicros`. Both are kept as the
code writes them.

## Model

| member | source | states |
|---|---|---|
| Decimal.IntToString | src/java/org/apache/cassandra/metrics/RocksDBTableMetrics.java:280 | the rendering of a shard number is non-empty and starts with a digit exactly when the number is non-negative |
| Decimal.ParseIntToString | src/java/org/apache/cassandra/metrics/RocksDBTableMetrics.java:280 | parsing the rendered number gives back the number, for every integer |
| Decimal.IntToStringInjective | src/java/org/apache/cassandra/metrics/RocksDBTableMetrics.java:280 | two integers render to the same string if and only if they are equal |
| MetricNames.NewFactory | src/java/org/apache/cassandra/metrics/RocksDBTableMetrics.java:248-260 | a store gives the factory its keyspace's name and its own name; no store gives `all` for both |
| MetricNames.CreateMetricName | src/java/org/apache/cassandra/metrics/RocksDBTableMetrics.java:262-274 | the group is the metrics package, the type is `Rocksdb`, the name is the label unchanged and the scope is `keyspace.table` |
| MetricNames.MBeanObjectName | src/java/org/apache/cassandra/metrics/RocksDBTableMetrics.java:266-271 | the JMX object name with keys type, keyspace, scope and name, in that order, is the piecewise string the factory appends |
| MetricNames.MetricMBeanName | src/java/org/apache/cassandra/metrics/RocksDBTableMetrics.java:262-273 | the MBean string is the object name `group:type=Rocksdb,keyspace=<ks>,scope=<table>,name=<label>` |
| MetricNames.CreateShardedMetricName | src/java/org/apache/cassandra/metrics/RocksDBTableMetrics.java:276-290 | group, type and name as unsharded; the scope is `keyspace.table_<shard>` |
| MetricNames.ShardedMBeanName | src/java/org/apache/cassandra/metrics/RocksDBTableMetrics.java:276-289 | the sharded MBean string is the object name whose scope key is `table_<shard>` |
| MetricNames.ShardedIsRenamedTable | src/java/org/apache/cassandra/metrics/RocksDBTableMetrics.java:276-289 | a sharded name equals the unsharded name made by a factory whose table is renamed `table_<shard>`, in every field |
| MetricNames.DefaultFactoryScope | src/java/org/apache/cassandra/metrics/RocksDBTableMetrics.java:244-259 | the default factory names every label in scope `all.all`, with keyspace and scope keys `all` in the MBean string |
| MetricNames.ShardedDiffersFromUnsharded | src/java/org/apache/cassandra/metrics/RocksDBTableMetrics.java:280 | no sharded scope, MBean string or whole MetricName equals the unsharded one for the same factory and label |
| MetricNames.DistinctShardsDistinctNames | src/java/org/apache/cassandra/metrics/RocksDBTableMetrics.java:280-289 | for one factory and label, distinct shards give distinct scopes and distinct MBean strings |
| MetricNames.ShardedNameInjective | src/java/org/apache/cassandra/metrics/RocksDBTableMetrics.java:276-289 | two sharded names of one factory are equal if and only if their labels and shards are |
| Catalog.CatalogSizes | src/java/org/apache/cassandra/metrics/RocksDBTableMetrics.java:152-238 | the catalog lists 32 histogram labels and 11 counter labels |
| Catalog.CatalogKinds | src/java/org/apache/cassandra/metrics/RocksDBTableMetrics.java:152-238 | 43 entries: the first 32 are histograms and the last 11 counters; an entry is a histogram exactly when it reads a histogram statistic |
| Catalog.CatalogLabelsDistinct | src/java/org/apache/cassandra/metrics/RocksDBTableMetrics.java:152-238 | no two catalog entries share a label |
| Catalog.CatalogStatisticsDistinct | src/java/org/apache/cassandra/metrics/RocksDBTableMetrics.java:152-238 | no two catalog entries read the same RocksDB statistic |
| Gauges.OrDefault | src/java/org/apache/cassandra/metrics/RocksDBTableMetrics.java:98-106 | a call that returns gives its value; a call that throws gives the default |
| Gauges.GetValue | src/java/org/apache/cassandra/metrics/RocksDBTableMetrics.java:98-141 | a failed column family lookup reads 0; otherwise the gauge reads its property's value, or 0 when that query throws |
| Gauges.LevelGaugeInIntRange | src/java/org/apache/cassandra/metrics/RocksDBTableMetrics.java:96-100 | a level gauge's value stays in the Java `int` range |
| Gauges.FaultIsolation | src/java/org/apache/cassandra/metrics/RocksDBTableMetrics.java:98-141 | when the level-`k` query of one column family throws, a level-`k` gauge whose table resolves to that column family reads 0, and every other gauge, of that table or any other, reads what it read before |
| TableMetrics.Registry.Register | src/java/org/apache/cassandra/metrics/RocksDBTableMetrics.java:152-153 | a registration appends exactly one record (name, kind, source) to the registry's log |
| TableMetrics.Registry.Histogram | src/java/org/apache/cassandra/metrics/RocksDBTableMetrics.java:86-87 | appends one histogram fed by its owner, with the given biased-sampling flag, and returns its handle |
| TableMetrics.Registry.Counter | src/java/org/apache/cassandra/metrics/RocksDBTableMetrics.java:145-147 | appends one counter fed by its owner and returns its handle |
| TableMetrics.LevelGauges | src/java/org/apache/cassandra/metrics/RocksDBTableMetrics.java:89-109 | after `n` rounds the per-level list has `n` entries, and entry `k` reads level `k` of the table |
| TableMetrics.CreateShardedMetrics | src/java/org/apache/cassandra/metrics/RocksDBTableMetrics.java:150-239 | appends every catalog entry in catalog order, named in the shard's scope and reading the entry's statistic from the shard's statistics object |
| TableMetrics.CreateAllShardedMetrics | src/java/org/apache/cassandra/metrics/RocksDBTableMetrics.java:81-84 | appends the shard blocks for shards 0 to N-1, in list order |
| TableMetrics.CreateLevelGauges | src/java/org/apache/cassandra/metrics/RocksDBTableMetrics.java:89-109 | appends one gauge per level `0..MAX_LEVELS-1`, labelled `SSTableCountPerLevel.<level>`, and returns the list of those gauges |
| TableMetrics.RegisterIngestHistograms | src/java/org/apache/cassandra/metrics/RocksDBTableMetrics.java:86-87 | appends the biased `IngestTime` and `IngestWaitTime` histograms and returns their handles |
| TableMetrics.RegisterStateGauges | src/java/org/apache/cassandra/metrics/RocksDBTableMetrics.java:111-143 | appends the pending-compaction-bytes and live-data-size gauges of the table |
| TableMetrics.RegisterIteratorCounters | src/java/org/apache/cassandra/metrics/RocksDBTableMetrics.java:145-147 | appends the three iterator counters and returns their handles |
| TableMetrics.RegisterThroughputGauges | src/java/org/apache/cassandra/metrics/RocksDBTableMetrics.java:56-75 | appends the outgoing and then the incoming throughput gauge, named by the default factory |
| TableMetrics.RocksDBTableMetrics.constructor | src/java/org/apache/cassandra/metrics/RocksDBTableMetrics.java:77-148 | appends exactly `TablePlan`; the fields hold the per-level gauge list, the two state gauges and the handles of the ingest histograms and iterator counters |
| PlanProperties.ShardLoopLength | src/java/org/apache/cassandra/metrics/RocksDBTableMetrics.java:81-84 | `N` shards register `N` times the catalog's size |
| PlanProperties.ShardLoopAt | src/java/org/apache/cassandra/metrics/RocksDBTableMetrics.java:81-84 | registration `i * size + j` is catalog entry `j` of shard `i`: its label in scope `keyspace.table_i`, its kind, and its statistic from shard `i`'s object |
| PlanProperties.ShardPlanAt | src/java/org/apache/cassandra/metrics/RocksDBTableMetrics.java:81-84 | the same for the constructor's 43-entry catalog: `N * 43` registrations, entry `i * 43 + j` from shard `i` |
| PlanProperties.ShardLoopKinds | src/java/org/apache/cassandra/metrics/RocksDBTableMetrics.java:81-84 | `N` shards register each kind `N` times as often as the catalog lists it |
| PlanProperties.CatalogOfKindCounts | src/java/org/apache/cassandra/metrics/RocksDBTableMetrics.java:152-238 | a catalog of histogram registrations followed by counter registrations lists exactly as many histograms and counters as it has entries of each, and no gauge |
| PlanProperties.CatalogKindCounts | src/java/org/apache/cassandra/metrics/RocksDBTableMetrics.java:152-238 | the catalog holds 32 histograms, 11 counters and no gauge |
| PlanProperties.ShardPlanKinds | src/java/org/apache/cassandra/metrics/RocksDBTableMetrics.java:152-238 | `N` shards register `32 N` histograms, `11 N` counters and no gauge |
| PlanProperties.ShardLoopNamesDistinct | src/java/org/apache/cassandra/metrics/RocksDBTableMetrics.java:152-238 | with pairwise distinct labels, no two shard registrations share both scope and name: different shards differ in scope, one shard's entries in name |
| PlanProperties.TablePlanSplit | src/java/org/apache/cassandra/metrics/RocksDBTableMetrics.java:77-148 | a construction registers the shard metrics and then the table's own, `N * 43 + MAX_LEVELS + 7` in all |
| PlanProperties.UnshardedFixed | src/java/org/apache/cassandra/metrics/RocksDBTableMetrics.java:86-147 | the table's own metrics are the two ingest histograms, then the level gauges, then the two state gauges, then the three iterator counters, each at its fixed position |
| PlanProperties.UnshardedLevels | src/java/org/apache/cassandra/metrics/RocksDBTableMetrics.java:89-109 | own metric `2 + k` is the gauge `SSTableCountPerLevel.k` that reads level `k` |
| PlanProperties.UnshardedNames | src/java/org/apache/cassandra/metrics/RocksDBTableMetrics.java:86-147 | each of the table's own metrics is named after its label in the table's scope |
| PlanProperties.LevelLabelsDistinct | src/java/org/apache/cassandra/metrics/RocksDBTableMetrics.java:93 | distinct levels have distinct gauge labels |
| PlanProperties.UnshardedLabelsDistinct | src/java/org/apache/cassandra/metrics/RocksDBTableMetrics.java:86-147 | no two of the table's own metrics share a label |
| PlanProperties.UnshardedNamesDistinct | src/java/org/apache/cassandra/metrics/RocksDBTableMetrics.java:86-147 | no two of the table's own metrics share both scope and name |
| PlanProperties.TablePlanNamesDistinct | src/java/org/apache/cassandra/metrics/RocksDBTableMetrics.java:77-148 | no two metrics registered by one construction share both scope and name |
| PlanProperties.LevelGaugeRegistered | src/java/org/apache/cassandra/metrics/RocksDBTableMetrics.java:89-109 | entry `k` of the per-level list is the gauge registered at position `N * 43 + 2 + k` under `SSTableCountPerLevel.k` |
| PlanProperties.LevelGaugeReadsLevel | src/java/org/apache/cassandra/metrics/RocksDBTableMetrics.java:96-106 | entry `k` of the per-level list reads level `k` of the table's column family, or 0 when the lookup or the query throws |
| PlanProperties.ThroughputNames | src/java/org/apache/cassandra/metrics/RocksDBTableMetrics.java:56-75 | the static initialiser registers two gauges, both in scope `all.all`, under different names |

## Left out

- `CassandraMetricsRegistry.Metrics` is not part of this model. The registry is an append-only log. `register`, `histogram` and `counter` return what they are given. Nothing is claimed about duplicate names (get-or-create) or about what the registry does with them.
- `MetricsFactory.createHistogram`/`createCounter` and RocksDB's `Statistics`, `HistogramType` and `TickerType` are JNI code. A shard's statistics object is an opaque number and each enum constant an opaque constructor. The metric values they produce are not modelled.
- `RocksDBProperty` and `RocksDBEngine.getRocksDBCF` are live engine queries. They are an oracle whose calls may throw.
- The values of the two throughput gauges come from the `RocksDBThroughputManager` singleton and are not modelled. Whether the static initialiser runs once depends on JVM class loading, which is not modelled either.
- `LOGGER.warn` in the gauges' failure branches is I/O and is left out.
- Concurrent polling of gauges and concurrent updates of counters are left out.
- TableMetrics.RocksDBTableMetrics.constructor: takes a non-null `ColumnFamilyStore`. The Java constructor also runs on a null store. The factory then names every metric under keyspace `all`, with scopes `all.all_<i>` and `all.all`. The same registrations are made under those names, and each table gauge throws on `cfs.metadata` inside its `try`, so it always reads 0. This path is not modelled.
- `RocksDBConfigs.MAX_LEVELS` is not part of this model. It is a constructor parameter constrained to a non-negative Java `int`. A negative value makes the constructor throw when it allocates the per-level list, after the shard metrics and the ingest histograms are already registered; that path is not modelled.
- The group name is the constant `org.apache.cassandra.metrics`, not a reflective lookup. `TableMetrics` is referenced without an import, so it lives in the same package as `RocksDBTableMetrics`.
- `createShardedMetrics` is written in the code as 43 separate statements. The model iterates over the constant catalog in the same order. The method and the shard-loop lemmas take the catalog as a parameter, and the constructor passes the constant catalog.
- Uniqueness of names across different tables or keyspaces is not claimed. Keyspace and table names are unconstrained strings joined with ".", so the code does not promise it.
- Shard numbers are unbounded integers, not Java `int`. A shard index is below the list's size, so it cannot overflow.
