/**
 * The fixed per-shard catalog of `createShardedMetrics`: each label, the
 * kind of metric registered under it and the RocksDB statistic it reads,
 * in registration order. The RocksDB `HistogramType` and `TickerType` enum
 * constants are opaque identifiers here.
 */
module Catalog {

  /** The `org.rocksdb.HistogramType` constants the catalog reads. */
  datatype HistogramType =
    | DbGet | DbWrite | CompactionTime | SubcompactionSetupTime | TableSyncMicros
    | CompactionOutfileSyncMicros | WalFileSyncMicros | ManifestFileSyncMicros
    | TableOpenIoMicros | DbMultiget | ReadBlockCompactionMicros | ReadBlockGetMicros
    | WriteRawBlockMicros | StallL0SlowdownCount | StallMemtableCompactionCount
    | StallL0NumFilesCount | HardRateLimitDelayCount | SoftRateLimitDelayCount
    | NumFilesInSingleCompaction | DbSeek | WriteStall | SstReadMicros
    | NumSubcompactionsScheduled | BytesPerRead | BytesPerWrite | BytesPerMultiget
    | BytesCompressed | BytesDecompressed | CompressionTimesNanos
    | DecompressionTimesNanos | ReadNumMergeOperands | HistogramEnumMax

  /** The `org.rocksdb.TickerType` constants the catalog reads. */
  datatype TickerType =
    | CompactReadBytes | CompactWriteBytes | CompactionKeyDropUser | NumberKeysWritten
    | MemtableHit | MemtableMiss | BlockCacheHit | BlockCacheMiss | StallMicros
    | DbMutexWaitMicros | MergeOperationTotalTime

  datatype Kind = Histogram | Counter | Gauge

  /** Which statistic of a shard's `Statistics` object a catalog metric reads. */
  datatype Statistic = HistogramOf(histogram: HistogramType) | TickerOf(ticker: TickerType)

  datatype CatalogEntry = CatalogEntry(metricName: string, kind: Kind, statistic: Statistic)

  /** The histogram registrations, as `MetricsFactory.createHistogram` wires them. */
  const HistogramCatalog: seq<(string, HistogramType)> := [
    ("GetMicros", DbGet),
    ("WriteMicros", DbWrite),
    ("CompactionTimeMicros", CompactionTime),
    ("SubcompactionSetupTimeMicros", SubcompactionSetupTime),
    ("TableSyncMicros", TableSyncMicros),
    ("CompactionOutfileSyncMicros", CompactionOutfileSyncMicros),
    ("WALFileSyncMicros", WalFileSyncMicros),
    ("ManifiestSyncMicros", ManifestFileSyncMicros),
    ("TableOpenIOMicros", TableOpenIoMicros),
    ("MultiGet", DbMultiget),
    ("ReadBlockCompactionMicros", ReadBlockCompactionMicros),
    ("ReadBlockGetMicros", ReadBlockGetMicros),
    ("WriteRawBlockMicros", WriteRawBlockMicros),
    ("StallL0SlowdownCount", StallL0SlowdownCount),
    ("MemtableCompactionCount", StallMemtableCompactionCount),
    ("StallL0NumFilesCount", StallL0NumFilesCount),
    ("HardRateLimitDelayCount", HardRateLimitDelayCount),
    ("SoftRateLimitDelayCount", SoftRateLimitDelayCount),
    ("NumFilesInSingleCompaction", NumFilesInSingleCompaction),
    ("DbSeek", DbSeek),
    ("WriteStall", WriteStall),
    ("SstReadMs", SstReadMicros),
    ("NumSubCompactionsScheduled", NumSubcompactionsScheduled),
    ("BytesPerRead", BytesPerRead),
    ("BytesPerWrite", BytesPerWrite),
    ("BytesPerMultiget", BytesPerMultiget),
    ("BytesCompressed", BytesCompressed),
    ("BytesDecompressed", BytesDecompressed),
    ("CompressionTimeUs", CompressionTimesNanos),
    ("DecompressionTimeUs", DecompressionTimesNanos),
    ("ReadNumMergeOperands", ReadNumMergeOperands),
    ("HistogramEnumMaxHistogram", HistogramEnumMax)
  ]

  /** The counter registrations, as `MetricsFactory.createCounter` wires them. */
  const TickerCatalog: seq<(string, TickerType)> := [
    ("CompactReadBytes", CompactReadBytes),
    ("CompactWriteBytes", CompactWriteBytes),
    ("CompactionKeyDropUser", CompactionKeyDropUser),
    ("NumberKeysWritten", NumberKeysWritten),
    ("MemtableHit", MemtableHit),
    ("MemtableMiss", MemtableMiss),
    ("BlockCacheHit", BlockCacheHit),
    ("BlockCacheMiss", BlockCacheMiss),
    ("StallMicros", StallMicros),
    ("DBMutexWaitMicros", DbMutexWaitMicros),
    ("MergeOperationTotalTime", MergeOperationTotalTime)
  ]

  const HistogramCount: nat := 32
  const CounterCount: nat := 11
  const CatalogSize: nat := 43

  lemma CatalogSizes()
    ensures |HistogramCatalog| == HistogramCount && |TickerCatalog| == CounterCount
  {
  }

  /** A catalog made of histogram registrations followed by counter registrations. */
  function CatalogOf(histograms: seq<(string, HistogramType)>, tickers: seq<(string, TickerType)>)
    : (catalog: seq<CatalogEntry>)
    ensures |catalog| == |histograms| + |tickers|
    ensures forall j :: 0 <= j < |histograms| ==>
      catalog[j] == CatalogEntry(histograms[j].0, Histogram, HistogramOf(histograms[j].1))
    ensures forall j :: 0 <= j < |tickers| ==>
      catalog[|histograms| + j] == CatalogEntry(tickers[j].0, Counter, TickerOf(tickers[j].1))
  {
    seq(|histograms|, j requires 0 <= j < |histograms| =>
      CatalogEntry(histograms[j].0, Histogram, HistogramOf(histograms[j].1)))
    + seq(|tickers|, j requires 0 <= j < |tickers| => CatalogEntry(tickers[j].0, Counter, TickerOf(tickers[j].1)))
  }

  /** The whole per-shard catalog: the histograms first, then the counters. */
  const ShardCatalog: seq<CatalogEntry> := CatalogOf(HistogramCatalog, TickerCatalog)

  lemma CatalogLength()
    ensures |ShardCatalog| == CatalogSize
  {
    CatalogSizes();
  }

  lemma HistogramLabelsDistinct()
    ensures forall j, k :: 0 <= j < k < |HistogramCatalog| ==> HistogramCatalog[j].0 != HistogramCatalog[k].0
  {
  }

  lemma TickerLabelsDistinct()
    ensures forall j, k :: 0 <= j < k < |TickerCatalog| ==> TickerCatalog[j].0 != TickerCatalog[k].0
  {
  }

  lemma HistogramAndTickerLabelsDistinct()
    ensures forall j, k :: 0 <= j < |HistogramCatalog| && 0 <= k < |TickerCatalog| ==>
      HistogramCatalog[j].0 != TickerCatalog[k].0
  {
  }

  /** Entry `j` of the catalog, in terms of the two halves it is made of. */
  lemma CatalogAt(j: nat)
    requires j < |HistogramCatalog| + |TickerCatalog|
    ensures |ShardCatalog| == |HistogramCatalog| + |TickerCatalog|
    ensures j < |HistogramCatalog| ==>
      ShardCatalog[j] == CatalogEntry(HistogramCatalog[j].0, Histogram, HistogramOf(HistogramCatalog[j].1))
    ensures |HistogramCatalog| <= j ==>
      var t := TickerCatalog[j - |HistogramCatalog|];
      ShardCatalog[j] == CatalogEntry(t.0, Counter, TickerOf(t.1))
  {
  }

  /** The position of each histogram type in the catalog. */
  function HistogramPosition(h: HistogramType): nat {
    match h
    case DbGet => 0
    case DbWrite => 1
    case CompactionTime => 2
    case SubcompactionSetupTime => 3
    case TableSyncMicros => 4
    case CompactionOutfileSyncMicros => 5
    case WalFileSyncMicros => 6
    case ManifestFileSyncMicros => 7
    case TableOpenIoMicros => 8
    case DbMultiget => 9
    case ReadBlockCompactionMicros => 10
    case ReadBlockGetMicros => 11
    case WriteRawBlockMicros => 12
    case StallL0SlowdownCount => 13
    case StallMemtableCompactionCount => 14
    case StallL0NumFilesCount => 15
    case HardRateLimitDelayCount => 16
    case SoftRateLimitDelayCount => 17
    case NumFilesInSingleCompaction => 18
    case DbSeek => 19
    case WriteStall => 20
    case SstReadMicros => 21
    case NumSubcompactionsScheduled => 22
    case BytesPerRead => 23
    case BytesPerWrite => 24
    case BytesPerMultiget => 25
    case BytesCompressed => 26
    case BytesDecompressed => 27
    case CompressionTimesNanos => 28
    case DecompressionTimesNanos => 29
    case ReadNumMergeOperands => 30
    case HistogramEnumMax => 31
  }

  lemma HistogramPositions0()
    ensures forall j :: 0 <= j < 8 ==> HistogramPosition(HistogramCatalog[j].1) == j
  {
  }

  lemma HistogramPositions8()
    ensures forall j :: 8 <= j < 16 ==> HistogramPosition(HistogramCatalog[j].1) == j
  {
  }

  lemma HistogramPositions16()
    ensures forall j :: 16 <= j < 24 ==> HistogramPosition(HistogramCatalog[j].1) == j
  {
  }

  lemma HistogramPositions24()
    ensures forall j :: 24 <= j < 32 ==> HistogramPosition(HistogramCatalog[j].1) == j
  {
  }

  /** Each histogram type sits at its own position in the catalog. */
  lemma HistogramPositions()
    ensures forall j :: 0 <= j < |HistogramCatalog| ==> HistogramPosition(HistogramCatalog[j].1) == j
  {
    HistogramPositions0();
    HistogramPositions8();
    HistogramPositions16();
    HistogramPositions24();
  }

  lemma HistogramTypesDistinct()
    ensures forall j, k :: 0 <= j < k < |HistogramCatalog| ==> HistogramCatalog[j].1 != HistogramCatalog[k].1
  {
    HistogramPositions();
  }

  lemma TickerTypesDistinct()
    ensures forall j, k :: 0 <= j < k < |TickerCatalog| ==> TickerCatalog[j].1 != TickerCatalog[k].1
  {
  }

  /** The catalog has 43 entries: 32 histograms followed by 11 counters, each reading its own kind of statistic. */
  lemma CatalogKinds()
    ensures |ShardCatalog| == CatalogSize == HistogramCount + CounterCount
    ensures forall j :: 0 <= j < CatalogSize ==>
      (ShardCatalog[j].kind == Histogram <==> j < HistogramCount) &&
      (ShardCatalog[j].kind == Counter <==> HistogramCount <= j) &&
      (ShardCatalog[j].kind == Histogram <==> ShardCatalog[j].statistic.HistogramOf?)
  {
    forall j | 0 <= j < CatalogSize
      ensures ShardCatalog[j].kind == Histogram <==> j < HistogramCount
      ensures ShardCatalog[j].kind == Counter <==> HistogramCount <= j
      ensures ShardCatalog[j].kind == Histogram <==> ShardCatalog[j].statistic.HistogramOf?
    {
      CatalogAt(j);
    }
  }

  /** No two catalog entries share a label. */
  lemma CatalogLabelsDistinct()
    ensures forall j, k :: 0 <= j < k < |ShardCatalog| ==> ShardCatalog[j].metricName != ShardCatalog[k].metricName
  {
    HistogramLabelsDistinct();
    TickerLabelsDistinct();
    HistogramAndTickerLabelsDistinct();
    forall j, k | 0 <= j < k < |ShardCatalog|
      ensures ShardCatalog[j].metricName != ShardCatalog[k].metricName
    {
      CatalogAt(j);
      CatalogAt(k);
    }
  }

  /** No two catalog entries read the same statistic. */
  lemma CatalogStatisticsDistinct()
    ensures forall j, k :: 0 <= j < k < |ShardCatalog| ==> ShardCatalog[j].statistic != ShardCatalog[k].statistic
  {
    HistogramTypesDistinct();
    TickerTypesDistinct();
    forall j, k | 0 <= j < k < |ShardCatalog|
      ensures ShardCatalog[j].statistic != ShardCatalog[k].statistic
    {
      CatalogAt(j);
      CatalogAt(k);
    }
  }
}
