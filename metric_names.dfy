/**
 * The metric name builder `RocksDBTableMetrics.RocksMetricNameFactory`:
 * a factory bound to one table (or to the aggregate "all" scope) that turns
 * a bare metric label, optionally with a shard number, into the five-part
 * `CassandraMetricsRegistry.MetricName` (group, type, name, scope, MBean name).
 */
module MetricNames {
  import opened Decimal

  /** The registry's metric identity, `CassandraMetricsRegistry.MetricName`. */
  datatype MetricName = MetricName(
    group: string,
    typeName: string,
    name: string,
    scope: string,
    mBeanName: string)

  /** What the factory reads of a `ColumnFamilyStore`: its keyspace's name, its own name and its table id. */
  datatype ColumnFamilyStore = ColumnFamilyStore(keyspaceName: string, name: string, cfId: nat)

  /** A Java reference that may be null. */
  datatype Option<T> = None | Some(value: T)

  datatype NameFactory = NameFactory(keyspaceName: string, tableName: string)

  /** `RocksMetricNameFactory.TYPE`. */
  const Type: string := "Rocksdb"

  /**
   * `TableMetrics.class.getPackage().getName()`: `TableMetrics` is named
   * without an import, so it lives in this file's package.
   */
  const Group: string := "org.apache.cassandra.metrics"

  /** The factory's constructor: a null store selects the aggregate "all" scope. */
  function NewFactory(cfs: Option<ColumnFamilyStore>): (f: NameFactory)
    ensures cfs.None? ==> f.keyspaceName == "all" && f.tableName == "all"
    ensures cfs.Some? ==> f.keyspaceName == cfs.value.keyspaceName && f.tableName == cfs.value.name
  {
    match cfs
    case Some(c) => NameFactory(c.keyspaceName, c.name)
    case None => NameFactory("all", "all")
  }

  /** `DEFAULT_FACTORY`, used by the process-wide gauges. */
  const DefaultFactory: NameFactory := NewFactory(None)

  // A JMX object name, `domain:key1=value1,key2=value2,...`, as an
  // independent reference for the MBean string the factory builds.

  function Property(p: (string, string)): string {
    p.0 + "=" + p.1
  }

  function JoinProperties(props: seq<(string, string)>): string
    decreases |props|
  {
    if |props| == 0 then ""
    else if |props| == 1 then Property(props[0])
    else Property(props[0]) + "," + JoinProperties(props[1..])
  }

  function ObjectName(domain: string, props: seq<(string, string)>): string {
    domain + ":" + JoinProperties(props)
  }

  /** An object name with four key properties, written out. */
  lemma ObjectNameOfFour(domain: string, p0: (string, string), p1: (string, string), p2: (string, string), p3: (string, string))
    ensures ObjectName(domain, [p0, p1, p2, p3])
      == domain + ":" + Property(p0) + "," + Property(p1) + "," + Property(p2) + "," + Property(p3)
  {
    var ps := [p0, p1, p2, p3];
    assert ps[1..] == [p1, p2, p3];
    assert ps[1..][1..] == [p2, p3];
    assert ps[1..][1..][1..] == [p3];
    assert JoinProperties([p3]) == Property(p3);
    assert JoinProperties([p2, p3]) == Property(p2) + "," + Property(p3);
    assert JoinProperties([p1, p2, p3]) == Property(p1) + "," + Property(p2) + "," + Property(p3);
  }

  /** The key properties of a Rocksdb metric's MBean, in their fixed order. */
  function MBeanProperties(keyspace: string, scope: string, name: string): (props: seq<(string, string)>)
    ensures |props| == 4
    ensures props[0].0 == "type" && props[1].0 == "keyspace" && props[2].0 == "scope" && props[3].0 == "name"
  {
    [("type", Type), ("keyspace", keyspace), ("scope", scope), ("name", name)]
  }

  /** Regrouping a four-property object name so that each separator sits with its property. */
  lemma Regroup(x: string, p0: string, p1: string, p2: string, p3: string)
    ensures x + p0 + "," + p1 + "," + p2 + "," + p3 == x + p0 + ("," + p1) + ("," + p2) + ("," + p3)
  {
  }

  lemma TypeProperty()
    ensures Property(("type", Type)) == "type=" + Type
  {
    assert "type" + "=" == "type=";
  }

  lemma KeyspaceProperty(keyspace: string)
    ensures "," + Property(("keyspace", keyspace)) == ",keyspace=" + keyspace
  {
    assert "," + "keyspace" + "=" == ",keyspace=";
  }

  lemma ScopeProperty(scope: string)
    ensures "," + Property(("scope", scope)) == ",scope=" + scope
  {
    assert "," + "scope" + "=" == ",scope=";
  }

  lemma NameProperty(name: string)
    ensures "," + Property(("name", name)) == ",name=" + name
  {
    assert "," + "name" + "=" == ",name=";
  }

  /** The Rocksdb object name in the piecewise form the factory appends it. */
  lemma MBeanObjectName(keyspace: string, scope: string, name: string)
    ensures ObjectName(Group, MBeanProperties(keyspace, scope, name))
      == Group + ":" + ("type=" + Type) + (",keyspace=" + keyspace) + (",scope=" + scope) + (",name=" + name)
  {
    var p0, p1, p2, p3 := ("type", Type), ("keyspace", keyspace), ("scope", scope), ("name", name);
    ObjectNameOfFour(Group, p0, p1, p2, p3);
    Regroup(Group + ":", Property(p0), Property(p1), Property(p2), Property(p3));
    TypeProperty();
    KeyspaceProperty(keyspace);
    ScopeProperty(scope);
    NameProperty(name);
  }

  /** `createMetricName`: the label is kept as the name, the scope is `keyspace.table`. */
  function CreateMetricName(f: NameFactory, metricName: string): (r: MetricName)
    ensures r.group == Group && r.typeName == Type && r.name == metricName
    ensures r.scope == f.keyspaceName + "." + f.tableName
  {
    var groupName := Group;
    var mBeanName := groupName + ":" + ("type=" + Type) + (",keyspace=" + f.keyspaceName)
      + (",scope=" + f.tableName) + (",name=" + metricName);
    MetricName(groupName, Type, metricName, f.keyspaceName + "." + f.tableName, mBeanName)
  }

  /** `createShardedMetricName`: as `createMetricName`, with `_<shard>` appended to the table. */
  function CreateShardedMetricName(f: NameFactory, metricName: string, shard: int): (r: MetricName)
    ensures r.group == Group && r.typeName == Type && r.name == metricName
    ensures r.scope == f.keyspaceName + "." + f.tableName + "_" + IntToString(shard)
  {
    var groupName := Group;
    var tableName := f.tableName + "_" + IntToString(shard);
    var mBeanName := groupName + ":" + ("type=" + Type) + (",keyspace=" + f.keyspaceName)
      + (",scope=" + tableName) + (",name=" + metricName);
    MetricName(groupName, Type, metricName, f.keyspaceName + "." + tableName, mBeanName)
  }

  /** The MBean name is the JMX object name with keys type, keyspace, scope and name, in that order. */
  lemma MetricMBeanName(f: NameFactory, metricName: string)
    ensures CreateMetricName(f, metricName).mBeanName
      == ObjectName(Group, MBeanProperties(f.keyspaceName, f.tableName, metricName))
  {
    MBeanObjectName(f.keyspaceName, f.tableName, metricName);
  }

  /** The sharded MBean name is the object name whose scope key is the shard's table `table_<shard>`. */
  lemma ShardedMBeanName(f: NameFactory, metricName: string, shard: int)
    ensures CreateShardedMetricName(f, metricName, shard).mBeanName
      == ObjectName(Group, MBeanProperties(f.keyspaceName, f.tableName + "_" + IntToString(shard), metricName))
  {
    MBeanObjectName(f.keyspaceName, f.tableName + "_" + IntToString(shard), metricName);
  }

  /** The factory with its table renamed to the shard's table, `table_<shard>`. */
  function ShardFactory(f: NameFactory, shard: int): (g: NameFactory)
    ensures g.keyspaceName == f.keyspaceName
    ensures g.tableName == f.tableName + "_" + IntToString(shard)
  {
    NameFactory(f.keyspaceName, f.tableName + "_" + IntToString(shard))
  }

  /** A sharded name is the unsharded name of the shard's table. */
  lemma ShardedIsRenamedTable(f: NameFactory, metricName: string, shard: int)
    ensures CreateShardedMetricName(f, metricName, shard) == CreateMetricName(ShardFactory(f, shard), metricName)
  {
  }

  /** The default factory names everything in the scope `all.all`. */
  lemma DefaultFactoryScope(metricName: string)
    ensures CreateMetricName(DefaultFactory, metricName).scope == "all.all"
    ensures CreateMetricName(DefaultFactory, metricName).mBeanName
      == ObjectName(Group, MBeanProperties("all", "all", metricName))
  {
    MetricMBeanName(DefaultFactory, metricName);
  }

  /** No sharded scope or MBean name equals the unsharded one of the same factory. */
  lemma ShardedDiffersFromUnsharded(f: NameFactory, metricName: string, shard: int)
    ensures CreateShardedMetricName(f, metricName, shard).scope != CreateMetricName(f, metricName).scope
    ensures CreateShardedMetricName(f, metricName, shard).mBeanName != CreateMetricName(f, metricName).mBeanName
    ensures CreateShardedMetricName(f, metricName, shard) != CreateMetricName(f, metricName)
  {
    var sharded := CreateShardedMetricName(f, metricName, shard);
    var plain := CreateMetricName(f, metricName);
    assert |sharded.scope| > |plain.scope|;
    assert |sharded.mBeanName| > |plain.mBeanName|;
  }

  /** Equal strings with the same prefix and suffix have the same middle. */
  lemma CancelAffixes(p: string, a: string, b: string, q: string)
    requires p + a + q == p + b + q
    ensures a == b
  {
    var s := p + a + q;
    assert |a| == |b|;
    assert a == s[|p|..|p| + |a|];
    assert b == (p + b + q)[|p|..|p| + |b|];
  }

  /** Moving the shard suffix of the scope to the middle of an object name. */
  lemma RegroupShard(x: string, scopeKey: string, table: string, d: string, suffix: string)
    ensures x + (scopeKey + (table + "_" + d)) + suffix == (x + scopeKey + table + "_") + d + suffix
  {
  }

  /** The MBean name of shard table `table_<d>`, split around `d`. */
  lemma ShardMBeanSplit(keyspace: string, table: string, d: string, metricName: string)
    ensures ObjectName(Group, MBeanProperties(keyspace, table + "_" + d, metricName))
      == (Group + ":" + ("type=" + Type) + (",keyspace=" + keyspace) + ",scope=" + table + "_") + d + (",name=" + metricName)
  {
    MBeanObjectName(keyspace, table + "_" + d, metricName);
    RegroupShard(Group + ":" + ("type=" + Type) + (",keyspace=" + keyspace), ",scope=", table, d, ",name=" + metricName);
  }

  /** For one factory and label, distinct shards have distinct scopes and MBean names. */
  lemma {:induction false} DistinctShardsDistinctNames(f: NameFactory, metricName: string, s1: int, s2: int)
    requires s1 != s2
    ensures CreateShardedMetricName(f, metricName, s1).scope != CreateShardedMetricName(f, metricName, s2).scope
    ensures CreateShardedMetricName(f, metricName, s1).mBeanName != CreateShardedMetricName(f, metricName, s2).mBeanName
  {
    IntToStringInjective(s1, s2);
    var d1, d2 := IntToString(s1), IntToString(s2);
    var scopePrefix := f.keyspaceName + "." + f.tableName + "_";
    if CreateShardedMetricName(f, metricName, s1).scope == CreateShardedMetricName(f, metricName, s2).scope {
      assert scopePrefix + d1 + [] == scopePrefix + d2 + [];
      CancelAffixes(scopePrefix, d1, d2, []);
      assert false;
    }
    ShardedMBeanName(f, metricName, s1);
    ShardedMBeanName(f, metricName, s2);
    ShardMBeanSplit(f.keyspaceName, f.tableName, d1, metricName);
    ShardMBeanSplit(f.keyspaceName, f.tableName, d2, metricName);
    if CreateShardedMetricName(f, metricName, s1).mBeanName == CreateShardedMetricName(f, metricName, s2).mBeanName {
      CancelAffixes(Group + ":" + ("type=" + Type) + (",keyspace=" + f.keyspaceName) + ",scope=" + f.tableName + "_",
        d1, d2, ",name=" + metricName);
      assert false;
    }
  }

  /** A sharded name determines its label and its shard. */
  lemma ShardedNameInjective(f: NameFactory, m1: string, s1: int, m2: string, s2: int)
    ensures CreateShardedMetricName(f, m1, s1) == CreateShardedMetricName(f, m2, s2) <==> m1 == m2 && s1 == s2
  {
    if m1 == m2 && s1 != s2 {
      DistinctShardsDistinctNames(f, m1, s1, s2);
    }
  }
}
