/**
 * The per-table gauges of `RocksDBTableMetrics`: each one, on every poll,
 * looks up the table's RocksDB column family and asks it for one live
 * property. Either call may throw; the gauge then reports zero instead of
 * letting the failure reach the registry's poller. The engine is an oracle
 * whose every call may fail.
 */
module Gauges {

  /** The outcome of a call into the engine, which either returns or throws. */
  datatype Attempt<+T> = Returned(value: T) | Threw

  /** Values of Java `int` and `long`. */
  type Int32 = x: int | -0x8000_0000 <= x < 0x8000_0000
  type Int64 = x: int | -0x8000_0000_0000_0000 <= x < 0x8000_0000_0000_0000

  /** An opaque RocksDB column family handle. */
  type ColumnFamilyHandle = nat

  /** The live RocksDB properties the table gauges read. */
  datatype Property =
    | SstablesAtLevel(level: Int32)   // RocksDBProperty.getNumberOfSstablesByLevel, a Java int
    | PendingCompactionBytes          // RocksDBProperty.getPendingCompactionBytes, a Java long
    | EstimatedLiveDataSize           // RocksDBProperty.getEstimatedLiveDataSize, a Java long

  /** A table gauge: the table it belongs to (`cfs.metadata.cfId`) and the property it reads. */
  datatype TableGauge = TableGauge(cfId: nat, property: Property)

  /** The engine as the gauges see it during one poll. */
  datatype Engine = Engine(
    getRocksDBCF: nat -> Attempt<ColumnFamilyHandle>,
    numberOfSstablesByLevel: (ColumnFamilyHandle, Int32) -> Attempt<Int32>,
    pendingCompactionBytes: ColumnFamilyHandle -> Attempt<Int64>,
    estimatedLiveDataSize: ColumnFamilyHandle -> Attempt<Int64>)

  /** What the gauge's `try` block evaluates: the lookup, then the property query. */
  function Query(e: Engine, g: TableGauge): Attempt<Int64> {
    match e.getRocksDBCF(g.cfId)
    case Threw => Threw
    case Returned(cf) =>
      match g.property
      case SstablesAtLevel(level) =>
        (match e.numberOfSstablesByLevel(cf, level)
         case Threw => Threw
         case Returned(n) => Returned(n))
      case PendingCompactionBytes => e.pendingCompactionBytes(cf)
      case EstimatedLiveDataSize => e.estimatedLiveDataSize(cf)
  }

  /** The evaluate-or-default rule shared by all table gauges: a failure becomes the default. */
  function OrDefault<T>(a: Attempt<T>, default: T): (r: T)
    ensures a.Returned? ==> r == a.value
    ensures a.Threw? ==> r == default
  {
    match a
    case Returned(v) => v
    case Threw => default
  }

  /**
   * `getValue` of a table gauge: the property's value, or 0 when the lookup
   * or the query throws. The result is a plain number: no failure escapes.
   */
  function GetValue(e: Engine, g: TableGauge): (r: Int64)
    ensures e.getRocksDBCF(g.cfId).Threw? ==> r == 0
    ensures e.getRocksDBCF(g.cfId).Returned? ==>
      var cf := e.getRocksDBCF(g.cfId).value;
      match g.property
      case SstablesAtLevel(level) => r == OrDefault(e.numberOfSstablesByLevel(cf, level), 0)
      case PendingCompactionBytes => r == OrDefault(e.pendingCompactionBytes(cf), 0)
      case EstimatedLiveDataSize => r == OrDefault(e.estimatedLiveDataSize(cf), 0)
  {
    OrDefault(Query(e, g), 0)
  }

  /** A level gauge reads a Java `int`, so its value stays in that range. */
  lemma LevelGaugeInIntRange(e: Engine, cfId: nat, level: Int32)
    ensures -0x8000_0000 <= GetValue(e, TableGauge(cfId, SstablesAtLevel(level))) < 0x8000_0000
  {
  }

  /** The engine with the level-`k` query of column family `cf` made to throw, and nothing else changed. */
  function FailLevelOf(e: Engine, cf: ColumnFamilyHandle, k: Int32): (e': Engine)
    ensures e'.getRocksDBCF == e.getRocksDBCF
    ensures e'.pendingCompactionBytes == e.pendingCompactionBytes
    ensures e'.estimatedLiveDataSize == e.estimatedLiveDataSize
    ensures forall c, level ::
      e'.numberOfSstablesByLevel(c, level) == if c == cf && level == k then Threw else e.numberOfSstablesByLevel(c, level)
  {
    e.(numberOfSstablesByLevel := (c, level) => if c == cf && level == k then Threw else e.numberOfSstablesByLevel(c, level))
  }

  /**
   * Fault isolation: when the level-`k` query of one column family throws,
   * a level-`k` gauge whose table resolves to that column family reads 0,
   * and every other gauge, of that table or any other, reads what it read
   * before.
   */
  lemma FaultIsolation(e: Engine, cf: ColumnFamilyHandle, k: Int32, g: TableGauge)
    ensures e.getRocksDBCF(g.cfId) == Returned(cf) && g.property == SstablesAtLevel(k) ==>
      GetValue(FailLevelOf(e, cf, k), g) == 0
    ensures !(e.getRocksDBCF(g.cfId) == Returned(cf) && g.property == SstablesAtLevel(k)) ==>
      GetValue(FailLevelOf(e, cf, k), g) == GetValue(e, g)
  {
  }
}
