/**
 * The cluster service: the cluster summary, brokers sorted by id, one broker with its
 * non-default configuration, a broker's log directories sorted by path, reassignments
 * sorted by topic and partition, features sorted by name, and the metadata quorum.
 */
module ClusterService {
  import opened AdminErrors
  import opened Domain
  import opened AdminPort
  import opened Ordering
  import opened Pipelines

  datatype BrokerResponse = BrokerResponse(
    id: int,
    host: string,
    port: int,
    rack: string,
    isController: bool)
  {
    function ToBroker(): Broker
    {
      Broker(id, host, port, rack, isController)
    }
  }

  function BrokerResponseFrom(b: Broker): (r: BrokerResponse)
    ensures r.ToBroker() == b
  {
    BrokerResponse(b.id, b.host, b.port, b.rack, b.isController)
  }

  datatype BrokerDetailResponse = BrokerDetailResponse(
    id: int,
    host: string,
    port: int,
    rack: string,
    isController: bool,
    configs: map<string, string>)

  datatype ClusterInfoResponse = ClusterInfoResponse(
    clusterId: string,
    controllerId: int,
    brokerCount: int,
    brokers: seq<BrokerResponse>)

  /** The summary counts the brokers and keeps them in the port's order. */
  function ClusterInfoFrom(info: ClusterInfo): (r: ClusterInfoResponse)
    ensures r.clusterId == info.clusterId && r.controllerId == info.controllerId
    ensures r.brokerCount == |r.brokers| == |info.brokers|
    ensures forall i :: 0 <= i < |info.brokers| ==> r.brokers[i].ToBroker() == info.brokers[i]
  {
    ClusterInfoResponse(info.clusterId, info.controllerId, |info.brokers|, MapSeq(info.brokers, BrokerResponseFrom))
  }

  datatype LogDirPartitionResponse = LogDirPartitionResponse(
    topic: string,
    partition: int,
    size: int,
    offsetLag: int,
    isFuture: bool)
  {
    function ToPartition(): LogDirPartition
    {
      LogDirPartition(topic, partition, size, offsetLag, isFuture)
    }
  }

  function LogDirPartitionFrom(p: LogDirPartition): (r: LogDirPartitionResponse)
    ensures r.ToPartition() == p
  {
    LogDirPartitionResponse(p.topic, p.partition, p.size, p.offsetLag, p.isFuture)
  }

  datatype LogDirInfoResponse = LogDirInfoResponse(
    path: string,
    error: Option<string>,
    totalBytes: int,
    usableBytes: int,
    partitions: seq<LogDirPartitionResponse>)
  {
    function ToLogDir(): LogDirInfo
    {
      LogDirInfo(path, error, totalBytes, usableBytes,
        seq(|partitions|, i requires 0 <= i < |partitions| => partitions[i].ToPartition()))
    }
  }

  /** Every field is copied; the directory's partitions keep the port's order. */
  function LogDirFrom(d: LogDirInfo): (r: LogDirInfoResponse)
    ensures r.ToLogDir() == d
  {
    var r := LogDirInfoResponse(d.path, d.error, d.totalBytes, d.usableBytes, MapSeq(d.partitions, LogDirPartitionFrom));
    assert r.ToLogDir().partitions == d.partitions;
    r
  }

  datatype PartitionReassignmentResponse = PartitionReassignmentResponse(
    topic: string,
    partition: int,
    replicas: seq<int>,
    addingReplicas: seq<int>,
    removingReplicas: seq<int>)
  {
    function ToReassignment(): PartitionReassignment
    {
      PartitionReassignment(topic, partition, replicas, addingReplicas, removingReplicas)
    }
  }

  function ReassignmentFrom(a: PartitionReassignment): (r: PartitionReassignmentResponse)
    ensures r.ToReassignment() == a
  {
    PartitionReassignmentResponse(a.topic, a.partition, a.replicas, a.addingReplicas, a.removingReplicas)
  }

  datatype KafkaFeatureResponse = KafkaFeatureResponse(
    name: string,
    minVersion: int,
    maxVersion: int,
    finalizedVersion: int)
  {
    function ToFeature(): KafkaFeature
    {
      KafkaFeature(name, minVersion, maxVersion, finalizedVersion)
    }
  }

  function FeatureFrom(f: KafkaFeature): (r: KafkaFeatureResponse)
    ensures r.ToFeature() == f
  {
    KafkaFeatureResponse(f.name, f.minVersion, f.maxVersion, f.finalizedVersion)
  }

  datatype QuorumReplicaResponse = QuorumReplicaResponse(
    replicaId: int,
    logEndOffset: int,
    lastFetchTimestamp: int,
    lastCaughtUpTimestamp: int)
  {
    function ToReplica(): QuorumReplica
    {
      QuorumReplica(replicaId, logEndOffset, lastFetchTimestamp, lastCaughtUpTimestamp)
    }
  }

  function QuorumReplicaFrom(q: QuorumReplica): (r: QuorumReplicaResponse)
    ensures r.ToReplica() == q
  {
    QuorumReplicaResponse(q.replicaId, q.logEndOffset, q.lastFetchTimestamp, q.lastCaughtUpTimestamp)
  }

  datatype QuorumInfoResponse = QuorumInfoResponse(
    leaderId: int,
    leaderEpoch: int,
    highWatermark: int,
    voters: seq<QuorumReplicaResponse>,
    observers: seq<QuorumReplicaResponse>)
  {
    function ToQuorum(): QuorumInfo
    {
      QuorumInfo(leaderId, leaderEpoch, highWatermark,
        seq(|voters|, i requires 0 <= i < |voters| => voters[i].ToReplica()),
        seq(|observers|, i requires 0 <= i < |observers| => observers[i].ToReplica()))
    }
  }

  /** Every field is copied; voters and observers keep the port's order. */
  function QuorumFrom(q: QuorumInfo): (r: QuorumInfoResponse)
    ensures r.ToQuorum() == q
  {
    var r := QuorumInfoResponse(q.leaderId, q.leaderEpoch, q.highWatermark,
      MapSeq(q.voters, QuorumReplicaFrom), MapSeq(q.observers, QuorumReplicaFrom));
    assert r.ToQuorum().voters == q.voters;
    assert r.ToQuorum().observers == q.observers;
    r
  }

  function BrokerKey(b: BrokerResponse): SortKey { [Num(b.id)] }

  function PathKey(d: LogDirInfoResponse): SortKey { [Str(d.path)] }

  function ReassignmentKey(a: PartitionReassignmentResponse): SortKey { [Str(a.topic), Num(a.partition)] }

  function FeatureKey(f: KafkaFeatureResponse): SortKey { [Str(f.name)] }

  /** `getClusterInfo`. */
  function GetClusterInfo(p: Port): (r: Result<ClusterInfoResponse>)
    ensures r.Ok? <==> p.getClusterInfo.Ok?
    ensures r.Err? ==> r.error == p.getClusterInfo.error
    ensures r.Ok? ==>
      var info := p.getClusterInfo.value;
      && r.value.clusterId == info.clusterId
      && r.value.controllerId == info.controllerId
      && r.value.brokerCount == |r.value.brokers| == |info.brokers|
      && forall i :: 0 <= i < |info.brokers| ==> r.value.brokers[i].ToBroker() == info.brokers[i]
  {
    var info :- p.getClusterInfo;
    Ok(ClusterInfoFrom(info))
  }

  /** `listBrokers`: sorted ascending by broker id. */
  function ListBrokers(p: Port): (r: Result<seq<BrokerResponse>>)
    ensures r.Ok? <==> p.listBrokers.Ok?
    ensures r.Err? ==> r.error == p.listBrokers.error
    ensures r.Ok? ==>
      var rows := MapSeq(p.listBrokers.value, BrokerResponseFrom);
      multiset(r.value) == multiset(rows) && IsStableSortOf(r.value, rows, BrokerKey)
    ensures r.Ok? ==> forall i, j :: 0 <= i < j < |r.value| ==> r.value[i].id <= r.value[j].id
  {
    var brokers :- p.listBrokers;
    var sorted := SortByKey(MapSeq(brokers, BrokerResponseFrom), BrokerKey);
    assert forall i, j :: 0 <= i < j < |sorted| ==> sorted[i].id <= sorted[j].id by {
      forall i, j | 0 <= i < j < |sorted|
        ensures sorted[i].id <= sorted[j].id
      {
        KeyLeOne(Num(sorted[i].id), Num(sorted[j].id));
      }
    }
    Ok(sorted)
  }

  /**
   * `getBroker`: the broker, then its configuration. A broker the port does not know
   * stops the call before the configuration is asked for.
   */
  function GetBroker(p: Port, brokerId: int): (r: Result<BrokerDetailResponse>)
    ensures r.Ok? <==> p.getBroker(brokerId).Ok? && p.getBrokerConfigs(brokerId).Ok?
    ensures p.getBroker(brokerId).Err? ==> r == Err(p.getBroker(brokerId).error)
    ensures p.getBroker(brokerId).Ok? && p.getBrokerConfigs(brokerId).Err? ==>
      r == Err(p.getBrokerConfigs(brokerId).error)
    ensures r.Ok? ==>
      var b := p.getBroker(brokerId).value;
      r.value == BrokerDetailResponse(b.id, b.host, b.port, b.rack, b.isController, p.getBrokerConfigs(brokerId).value)
  {
    var broker :- p.getBroker(brokerId);
    var configs :- p.getBrokerConfigs(brokerId);
    Ok(BrokerDetailResponse(broker.id, broker.host, broker.port, broker.rack, broker.isController, configs))
  }

  /** `getBrokerLogDirs`: sorted by path. */
  function GetBrokerLogDirs(p: Port, brokerId: int): (r: Result<seq<LogDirInfoResponse>>)
    ensures r.Ok? <==> p.describeLogDirs(brokerId).Ok?
    ensures r.Err? ==> r.error == p.describeLogDirs(brokerId).error
    ensures r.Ok? ==>
      var rows := MapSeq(p.describeLogDirs(brokerId).value, LogDirFrom);
      multiset(r.value) == multiset(rows) && IsStableSortOf(r.value, rows, PathKey)
    ensures r.Ok? ==> forall i, j :: 0 <= i < j < |r.value| ==> StrLe(r.value[i].path, r.value[j].path)
  {
    var dirs :- p.describeLogDirs(brokerId);
    var sorted := SortByKey(MapSeq(dirs, LogDirFrom), PathKey);
    assert forall i, j :: 0 <= i < j < |sorted| ==> StrLe(sorted[i].path, sorted[j].path) by {
      forall i, j | 0 <= i < j < |sorted|
        ensures StrLe(sorted[i].path, sorted[j].path)
      {
        KeyLeOne(Str(sorted[i].path), Str(sorted[j].path));
      }
    }
    Ok(sorted)
  }

  /** `listPartitionReassignments`: sorted by topic, then partition. */
  function ListPartitionReassignments(p: Port): (r: Result<seq<PartitionReassignmentResponse>>)
    ensures r.Ok? <==> p.listPartitionReassignments.Ok?
    ensures r.Err? ==> r.error == p.listPartitionReassignments.error
    ensures r.Ok? ==>
      var rows := MapSeq(p.listPartitionReassignments.value, ReassignmentFrom);
      multiset(r.value) == multiset(rows) && IsStableSortOf(r.value, rows, ReassignmentKey)
    ensures r.Ok? ==> forall i, j :: 0 <= i < j < |r.value| ==>
      StrLt(r.value[i].topic, r.value[j].topic) ||
      (r.value[i].topic == r.value[j].topic && r.value[i].partition <= r.value[j].partition)
  {
    var reassignments :- p.listPartitionReassignments;
    var sorted := SortByKey(MapSeq(reassignments, ReassignmentFrom), ReassignmentKey);
    assert forall i, j :: 0 <= i < j < |sorted| ==>
      StrLt(sorted[i].topic, sorted[j].topic) ||
      (sorted[i].topic == sorted[j].topic && sorted[i].partition <= sorted[j].partition) by {
      forall i, j | 0 <= i < j < |sorted|
        ensures StrLt(sorted[i].topic, sorted[j].topic) ||
          (sorted[i].topic == sorted[j].topic && sorted[i].partition <= sorted[j].partition)
      {
        KeyLeTwo(Str(sorted[i].topic), Num(sorted[i].partition), Str(sorted[j].topic), Num(sorted[j].partition));
      }
    }
    Ok(sorted)
  }

  /** `describeFeatures`: sorted by feature name. */
  function DescribeFeatures(p: Port): (r: Result<seq<KafkaFeatureResponse>>)
    ensures r.Ok? <==> p.describeFeatures.Ok?
    ensures r.Err? ==> r.error == p.describeFeatures.error
    ensures r.Ok? ==>
      var rows := MapSeq(p.describeFeatures.value, FeatureFrom);
      multiset(r.value) == multiset(rows) && IsStableSortOf(r.value, rows, FeatureKey)
    ensures r.Ok? ==> forall i, j :: 0 <= i < j < |r.value| ==> StrLe(r.value[i].name, r.value[j].name)
  {
    var features :- p.describeFeatures;
    var sorted := SortByKey(MapSeq(features, FeatureFrom), FeatureKey);
    assert forall i, j :: 0 <= i < j < |sorted| ==> StrLe(sorted[i].name, sorted[j].name) by {
      forall i, j | 0 <= i < j < |sorted|
        ensures StrLe(sorted[i].name, sorted[j].name)
      {
        KeyLeOne(Str(sorted[i].name), Str(sorted[j].name));
      }
    }
    Ok(sorted)
  }

  /** `describeMetadataQuorum`: every field copied, replica lists unsorted. */
  function DescribeMetadataQuorum(p: Port): (r: Result<QuorumInfoResponse>)
    ensures r.Ok? <==> p.describeMetadataQuorum.Ok?
    ensures r.Err? ==> r.error == p.describeMetadataQuorum.error
    ensures r.Ok? ==> r.value.ToQuorum() == p.describeMetadataQuorum.value
  {
    var quorum :- p.describeMetadataQuorum;
    Ok(QuorumFrom(quorum))
  }
}
