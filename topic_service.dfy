/**
 * The topic service: topic summaries sorted by name, a topic's details as the port
 * reports them, and its partitions, producers and replica log directories, each sorted
 * by a fixed key.
 */
module TopicService {
  import opened AdminErrors
  import opened Domain
  import opened AdminPort
  import opened Ordering
  import opened Pipelines

  datatype TopicResponse = TopicResponse(
    name: string,
    partitionCount: int,
    replicationFactor: int,
    internal: bool)

  /** The summary keeps the topic's name, counts and internal flag, and drops its configs and partitions. */
  function TopicResponseFrom(t: Topic): (r: TopicResponse)
    ensures r.name == t.name && r.partitionCount == t.partitionCount
    ensures r.replicationFactor == t.replicationFactor && r.internal == t.internal
  {
    TopicResponse(t.name, t.partitionCount, t.replicationFactor, t.internal)
  }

  datatype TopicPartitionInfoResponse = TopicPartitionInfoResponse(
    partition: int,
    leader: int,
    replicas: seq<int>,
    isr: seq<int>)
  {
    /** The record this response was projected from. */
    function ToInfo(): TopicPartitionInfo
    {
      TopicPartitionInfo(partition, leader, replicas, isr)
    }
  }

  function PartitionResponseFrom(info: TopicPartitionInfo): (r: TopicPartitionInfoResponse)
    ensures r.ToInfo() == info
  {
    TopicPartitionInfoResponse(info.partition, info.leader, info.replicas, info.isr)
  }

  datatype TopicDetailResponse = TopicDetailResponse(
    name: string,
    partitionCount: int,
    replicationFactor: int,
    internal: bool,
    configs: map<string, string>,
    partitions: seq<TopicPartitionInfoResponse>)
  {
    function ToTopic(): Topic
    {
      Topic(name, partitionCount, replicationFactor, configs,
        seq(|partitions|, i requires 0 <= i < |partitions| => partitions[i].ToInfo()), internal)
    }
  }

  /** Every field is copied, and the partitions keep the port's order. */
  function TopicDetailFrom(t: Topic): (r: TopicDetailResponse)
    ensures r.ToTopic() == t
  {
    var r := TopicDetailResponse(t.name, t.partitionCount, t.replicationFactor, t.internal, t.configs,
      MapSeq(t.partitions, PartitionResponseFrom));
    assert r.ToTopic().partitions == t.partitions;
    r
  }

  datatype ProducerStateResponse = ProducerStateResponse(
    producerId: int,
    producerEpoch: int,
    lastSequence: int,
    lastTimestamp: int,
    coordinatorEpoch: int,
    currentTxnStartOffset: int)
  {
    function ToState(): ProducerState
    {
      ProducerState(producerId, producerEpoch, lastSequence, lastTimestamp, coordinatorEpoch, currentTxnStartOffset)
    }
  }

  function ProducerResponseFrom(s: ProducerState): (r: ProducerStateResponse)
    ensures r.ToState() == s
  {
    ProducerStateResponse(s.producerId, s.producerEpoch, s.lastSequence, s.lastTimestamp,
      s.coordinatorEpoch, s.currentTxnStartOffset)
  }

  datatype ReplicaLogDirInfoResponse = ReplicaLogDirInfoResponse(
    brokerId: int,
    partition: int,
    currentLogDir: string,
    futureLogDir: string,
    currentReplicaSize: int,
    currentReplicaOffsetLag: int,
    futureReplicaSize: int,
    futureReplicaOffsetLag: int)
  {
    function ToInfo(): ReplicaLogDirInfo
    {
      ReplicaLogDirInfo(brokerId, partition, currentLogDir, futureLogDir,
        currentReplicaSize, currentReplicaOffsetLag, futureReplicaSize, futureReplicaOffsetLag)
    }
  }

  function ReplicaLogDirResponseFrom(i: ReplicaLogDirInfo): (r: ReplicaLogDirInfoResponse)
    ensures r.ToInfo() == i
  {
    ReplicaLogDirInfoResponse(i.brokerId, i.partition, i.currentLogDir, i.futureLogDir,
      i.currentReplicaSize, i.currentReplicaOffsetLag, i.futureReplicaSize, i.futureReplicaOffsetLag)
  }

  function NameKey(t: TopicResponse): SortKey { [Str(t.name)] }

  function PartitionKey(p: TopicPartitionInfoResponse): SortKey { [Num(p.partition)] }

  function ProducerKey(s: ProducerStateResponse): SortKey { [Num(s.producerId)] }

  function ReplicaKey(i: ReplicaLogDirInfoResponse): SortKey { [Num(i.brokerId), Num(i.partition)] }

  /**
   * `listTopics`: describes every listed name, in list order, and sorts the summaries by
   * name. A failing description fails the whole listing; no topic is skipped.
   */
  function ListTopics(p: Port): (r: Result<seq<TopicResponse>>)
    ensures r.Ok? <==>
      p.listTopicNames.Ok? && forall i :: 0 <= i < |p.listTopicNames.value| ==> p.getTopic(p.listTopicNames.value[i]).Ok?
    ensures p.listTopicNames.Err? ==> r == Err(p.listTopicNames.error)
    ensures p.listTopicNames == Ok([]) ==> r == Ok([])
    ensures r.Err? && p.listTopicNames.Ok? ==>
      var names := p.listTopicNames.value;
      exists i :: 0 <= i < |names| && p.getTopic(names[i]) == Err(r.error) &&
        forall j :: 0 <= j < i ==> p.getTopic(names[j]).Ok?
    ensures r.Ok? ==>
      var summaries := MapSeq(DescribeEach(p.listTopicNames.value, p.getTopic).value, TopicResponseFrom);
      && |r.value| == |p.listTopicNames.value|
      && multiset(r.value) == multiset(summaries)
      && IsStableSortOf(r.value, summaries, NameKey)
    ensures r.Ok? ==> forall i, j :: 0 <= i < j < |r.value| ==> StrLe(r.value[i].name, r.value[j].name)
  {
    var names :- p.listTopicNames;
    var topics :- DescribeEach(names, p.getTopic);
    var sorted := SortByKey(MapSeq(topics, TopicResponseFrom), NameKey);
    assert forall i, j :: 0 <= i < j < |sorted| ==> StrLe(sorted[i].name, sorted[j].name) by {
      forall i, j | 0 <= i < j < |sorted|
        ensures StrLe(sorted[i].name, sorted[j].name)
      {
        KeyLeOne(Str(sorted[i].name), Str(sorted[j].name));
      }
    }
    Ok(sorted)
  }

  /**
   * Against a port that keeps its contract, a failed listing is either the generic
   * failure or the "not found" of a listed key: a topic that vanished between the listing and its description.
   */
  lemma ListedTopicFailure(p: Port)
    requires Honours(p)
    ensures var r := ListTopics(p);
      r.Err? ==> r.error.AdminFailure? || exists k :: k in p.listTopicNames.value && r.error == TopicNotFound(k)
  {
  }

  /** `getTopic`: the port's topic with every field copied and the partitions unsorted. */
  function GetTopic(p: Port, topicName: string): (r: Result<TopicDetailResponse>)
    ensures r.Ok? <==> p.getTopic(topicName).Ok?
    ensures r.Ok? ==> r.value.ToTopic() == p.getTopic(topicName).value
    ensures r.Err? ==> r.error == p.getTopic(topicName).error
  {
    var topic :- p.getTopic(topicName);
    Ok(TopicDetailFrom(topic))
  }

  /** `getTopicPartitions`: sorted ascending by partition number. */
  function GetTopicPartitions(p: Port, topicName: string): (r: Result<seq<TopicPartitionInfoResponse>>)
    ensures r.Ok? <==> p.getTopicPartitions(topicName).Ok?
    ensures r.Err? ==> r.error == p.getTopicPartitions(topicName).error
    ensures r.Ok? ==>
      var rows := MapSeq(p.getTopicPartitions(topicName).value, PartitionResponseFrom);
      multiset(r.value) == multiset(rows) && IsStableSortOf(r.value, rows, PartitionKey)
    ensures r.Ok? ==> forall i, j :: 0 <= i < j < |r.value| ==> r.value[i].partition <= r.value[j].partition
  {
    var partitions :- p.getTopicPartitions(topicName);
    var sorted := SortByKey(MapSeq(partitions, PartitionResponseFrom), PartitionKey);
    assert forall i, j :: 0 <= i < j < |sorted| ==> sorted[i].partition <= sorted[j].partition by {
      forall i, j | 0 <= i < j < |sorted|
        ensures sorted[i].partition <= sorted[j].partition
      {
        KeyLeOne(Num(sorted[i].partition), Num(sorted[j].partition));
      }
    }
    Ok(sorted)
  }

  /** `describeProducers`: sorted ascending by producer id. */
  function DescribeProducers(p: Port, topicName: string, partition: int): (r: Result<seq<ProducerStateResponse>>)
    ensures r.Ok? <==> p.describeProducers(topicName, partition).Ok?
    ensures r.Err? ==> r.error == p.describeProducers(topicName, partition).error
    ensures r.Ok? ==>
      var rows := MapSeq(p.describeProducers(topicName, partition).value, ProducerResponseFrom);
      multiset(r.value) == multiset(rows) && IsStableSortOf(r.value, rows, ProducerKey)
    ensures r.Ok? ==> forall i, j :: 0 <= i < j < |r.value| ==> r.value[i].producerId <= r.value[j].producerId
  {
    var states :- p.describeProducers(topicName, partition);
    var sorted := SortByKey(MapSeq(states, ProducerResponseFrom), ProducerKey);
    assert forall i, j :: 0 <= i < j < |sorted| ==> sorted[i].producerId <= sorted[j].producerId by {
      forall i, j | 0 <= i < j < |sorted|
        ensures sorted[i].producerId <= sorted[j].producerId
      {
        KeyLeOne(Num(sorted[i].producerId), Num(sorted[j].producerId));
      }
    }
    Ok(sorted)
  }

  /** `describeReplicaLogDirs`: sorted by broker id, then by partition. */
  function DescribeReplicaLogDirs(p: Port, topicName: string): (r: Result<seq<ReplicaLogDirInfoResponse>>)
    ensures r.Ok? <==> p.describeReplicaLogDirs(topicName).Ok?
    ensures r.Err? ==> r.error == p.describeReplicaLogDirs(topicName).error
    ensures r.Ok? ==>
      var rows := MapSeq(p.describeReplicaLogDirs(topicName).value, ReplicaLogDirResponseFrom);
      multiset(r.value) == multiset(rows) && IsStableSortOf(r.value, rows, ReplicaKey)
    ensures r.Ok? ==> forall i, j :: 0 <= i < j < |r.value| ==>
      r.value[i].brokerId < r.value[j].brokerId ||
      (r.value[i].brokerId == r.value[j].brokerId && r.value[i].partition <= r.value[j].partition)
  {
    var infos :- p.describeReplicaLogDirs(topicName);
    var sorted := SortByKey(MapSeq(infos, ReplicaLogDirResponseFrom), ReplicaKey);
    assert forall i, j :: 0 <= i < j < |sorted| ==>
      sorted[i].brokerId < sorted[j].brokerId ||
      (sorted[i].brokerId == sorted[j].brokerId && sorted[i].partition <= sorted[j].partition) by {
      forall i, j | 0 <= i < j < |sorted|
        ensures sorted[i].brokerId < sorted[j].brokerId ||
          (sorted[i].brokerId == sorted[j].brokerId && sorted[i].partition <= sorted[j].partition)
      {
        KeyLeTwo(Num(sorted[i].brokerId), Num(sorted[i].partition), Num(sorted[j].brokerId), Num(sorted[j].partition));
      }
    }
    Ok(sorted)
  }
}
