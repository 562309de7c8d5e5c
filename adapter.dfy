/**
 * The adapter from Kafka's `AdminClient` to the administration port: each operation
 * reads the client's answers, projects them onto the domain records, and classifies
 * failures. A failed future becomes the generic admin failure, except for the few causes
 * that mean "this key does not exist", which become the resource's "not found".
 */
module ClientAdapter {
  import opened AdminErrors
  import opened Decimal
  import opened Domain
  import opened RawAdmin
  import opened AdminPort

  /** The admin failure for a failed future: one message when interrupted, another otherwise. */
  function Failure<T>(f: RawFailure, interrupted: string, failed: string): (r: Result<T>)
    ensures r.Err?
    ensures f.Interrupted? ==> r.error == AdminFailure(interrupted)
    ensures f.Execution? ==> r.error == AdminFailure(failed)
  {
    if f.Interrupted? then Err(AdminFailure(interrupted)) else Err(AdminFailure(failed))
  }

  function OrElse(o: Option<int>, default: int): int
  {
    if o.Some? then o.value else default
  }

  function NodeIds(nodes: seq<Node>): seq<int>
  {
    seq(|nodes|, i requires 0 <= i < |nodes| => nodes[i].id)
  }

  // ----- Configuration filtering -----

  /**
   * Whether a configuration entry is reported: never a default one, and for brokers
   * never a sensitive one either.
   */
  predicate Reported(e: ConfigEntry, dropSensitive: bool)
  {
    !e.isDefault && !(dropSensitive && e.isSensitive)
  }

  /** The name-to-value map of the reported entries (`Collectors.toMap` over a filter). */
  function CollectConfigs(entries: seq<ConfigEntry>, dropSensitive: bool): (m: map<string, string>)
    ensures forall k :: k in m ==>
      exists e :: e in entries && e.name == k && e.value == m[k] && Reported(e, dropSensitive)
    ensures forall e :: e in entries && Reported(e, dropSensitive) ==> e.name in m
  {
    if entries == [] then map[]
    else
      var init := entries[..|entries| - 1];
      var e := entries[|entries| - 1];
      assert entries == init + [e];
      var m := CollectConfigs(init, dropSensitive);
      if Reported(e, dropSensitive) then m[e.name := e.value] else m
  }

  // ----- Topics -----

  function ListTopicNames(c: AdminClient): (r: Result<seq<string>>)
    ensures ListingOutcome(r)
    ensures r.Ok? <==> c.listTopics.Completed?
    ensures r.Ok? ==> r.value == c.listTopics.value
  {
    match c.listTopics
    case Completed(names) => Ok(names)
    case Failed(f) => Failure(f, "Interrupted while listing topics", "Failed to list topics")
  }

  function PartitionInfo(p: PartitionDescription): (r: TopicPartitionInfo)
    ensures r.partition == p.partition
    ensures r.leader == (if p.leader.None? then -1 else p.leader.value.id)
    ensures |r.replicas| == |p.replicas| && forall j :: 0 <= j < |p.replicas| ==> r.replicas[j] == p.replicas[j].id
    ensures |r.isr| == |p.isr| && forall j :: 0 <= j < |p.isr| ==> r.isr[j] == p.isr[j].id
  {
    TopicPartitionInfo(
      p.partition,
      if p.leader.Some? then p.leader.value.id else -1,
      NodeIds(p.replicas),
      NodeIds(p.isr))
  }

  /**
   * The topic's non-default configuration. Only an interrupted fetch is an error: a
   * failed one degrades to an empty map.
   */
  function TopicConfigs(c: AdminClient, topicName: string): (r: Result<map<string, string>>)
    ensures r.Err? <==> c.describeConfigs(TopicResource(topicName)) == Failed(Interrupted)
    ensures r.Err? ==> r.error == AdminFailure("Interrupted while getting topic configs: " + topicName)
    ensures c.describeConfigs(TopicResource(topicName)).Failed? && r.Ok? ==> r.value == map[]
    ensures c.describeConfigs(TopicResource(topicName)).Completed? ==>
      var entries := c.describeConfigs(TopicResource(topicName)).value;
      && r.Ok?
      && (forall k :: k in r.value ==> exists e :: e in entries && e.name == k && e.value == r.value[k] && !e.isDefault)
      && (forall e :: e in entries && !e.isDefault ==> e.name in r.value)
  {
    match c.describeConfigs(TopicResource(topicName))
    case Completed(entries) =>
      Ok(CollectConfigs(entries, false))
    case Failed(Interrupted) => Err(AdminFailure("Interrupted while getting topic configs: " + topicName))
    case Failed(Execution(_)) => Ok(map[])
  }

  /**
   * `getTopic`: the description, then the configuration. The partition count and the
   * replication factor are derived from the partitions.
   */
  function GetTopic(c: AdminClient, topicName: string): (r: Result<Topic>)
    ensures TopicOutcome(r, topicName)
    ensures r == Err(TopicNotFound(topicName)) <==>
      c.describeTopic(topicName) == Failed(Execution(UnknownTopicOrPartition))
    ensures r.Ok? <==>
      c.describeTopic(topicName).Completed? && c.describeConfigs(TopicResource(topicName)) != Failed(Interrupted)
    ensures r.Ok? ==>
      && r.value.name == topicName
      && r.value.partitionCount == |r.value.partitions|
      && r.value.replicationFactor == (if r.value.partitions == [] then 0 else |r.value.partitions[0].replicas|)
      && r.value.internal == c.describeTopic(topicName).value.isInternal
      && r.value.configs == TopicConfigs(c, topicName).value
      && |r.value.partitions| == |c.describeTopic(topicName).value.partitions|
      && forall i :: 0 <= i < |r.value.partitions| ==>
           r.value.partitions[i] == PartitionInfo(c.describeTopic(topicName).value.partitions[i])
  {
    match c.describeTopic(topicName)
    case Failed(f) =>
      if f == Execution(UnknownTopicOrPartition) then Err(TopicNotFound(topicName))
      else Failure(f, "Interrupted while describing topic: " + topicName, "Failed to describe topic: " + topicName)
    case Completed(description) =>
      var configs :- TopicConfigs(c, topicName);
      var ps := description.partitions;
      Ok(Topic(
        topicName,
        |ps|,
        if ps == [] then 0 else |ps[0].replicas|,
        configs,
        seq(|ps|, i requires 0 <= i < |ps| => PartitionInfo(ps[i])),
        description.isInternal))
  }

  function GetTopicPartitions(c: AdminClient, topicName: string): (r: Result<seq<TopicPartitionInfo>>)
    ensures TopicOutcome(r, topicName)
    ensures r.Ok? <==> GetTopic(c, topicName).Ok?
    ensures r.Ok? ==> r.value == GetTopic(c, topicName).value.partitions
    ensures r.Err? ==> r.error == GetTopic(c, topicName).error
  {
    var topic :- GetTopic(c, topicName);
    Ok(topic.partitions)
  }

  function ProducerStateOf(p: ActiveProducer): (r: ProducerState)
    ensures r.producerId == p.producerId && r.producerEpoch == p.producerEpoch
    ensures r.lastSequence == p.lastSequence && r.lastTimestamp == p.lastTimestamp
    ensures r.coordinatorEpoch == OrElse(p.coordinatorEpoch, -1)
    ensures r.currentTxnStartOffset == OrElse(p.currentTransactionStartOffset, -1)
  {
    ProducerState(
      p.producerId, p.producerEpoch, p.lastSequence, p.lastTimestamp,
      OrElse(p.coordinatorEpoch, -1), OrElse(p.currentTransactionStartOffset, -1))
  }

  /** `describeProducers`: the topic is looked up first, so a missing topic is reported as such. */
  function DescribeProducers(c: AdminClient, topicName: string, partition: int): (r: Result<seq<ProducerState>>)
    ensures TopicOutcome(r, topicName)
    ensures GetTopic(c, topicName).Err? ==> r == Err(GetTopic(c, topicName).error)
    ensures r.Ok? <==>
      GetTopic(c, topicName).Ok? && c.describeProducers(TopicPartition(topicName, partition)).Completed?
    ensures r.Ok? ==>
      var active := c.describeProducers(TopicPartition(topicName, partition)).value;
      |r.value| == |active| && forall i :: 0 <= i < |active| ==> r.value[i] == ProducerStateOf(active[i])
  {
    var topic :- GetTopic(c, topicName);
    var tp := topicName + "-" + IntToString(partition);
    match c.describeProducers(TopicPartition(topicName, partition))
    case Failed(f) =>
      Failure(f, "Interrupted while describing producers: " + tp, "Failed to describe producers: " + tp)
    case Completed(active) =>
      Ok(seq(|active|, i requires 0 <= i < |active| => ProducerStateOf(active[i])))
  }

  // ----- Replica log directories -----

  /** The requests for one partition: one per replica broker, in replica order. */
  function PartitionRequests(topicName: string, p: TopicPartitionInfo): seq<TopicPartitionReplica>
  {
    seq(|p.replicas|, j requires 0 <= j < |p.replicas| => TopicPartitionReplica(topicName, p.partition, p.replicas[j]))
  }

  /** Every (partition, replica broker) pair of the topic, partition by partition. */
  function ReplicaRequests(topicName: string, partitions: seq<TopicPartitionInfo>): (r: seq<TopicPartitionReplica>)
    ensures forall x :: x in r <==>
      x.topic == topicName &&
      exists i :: 0 <= i < |partitions| && x.partition == partitions[i].partition && x.brokerId in partitions[i].replicas
    ensures r == [] <==> forall i :: 0 <= i < |partitions| ==> partitions[i].replicas == []
  {
    if partitions == [] then []
    else
      var init := partitions[..|partitions| - 1];
      var last := partitions[|partitions| - 1];
      assert forall i :: 0 <= i < |init| ==> init[i] == partitions[i];
      assert forall x :: x in PartitionRequests(topicName, last) <==>
        x.topic == topicName && x.partition == last.partition && x.brokerId in last.replicas by {
        forall x ensures x in PartitionRequests(topicName, last) <==>
          x.topic == topicName && x.partition == last.partition && x.brokerId in last.replicas
        {
          if x.topic == topicName && x.partition == last.partition && x.brokerId in last.replicas {
            var j :| 0 <= j < |last.replicas| && last.replicas[j] == x.brokerId;
            assert PartitionRequests(topicName, last)[j] == x;
          }
        }
      }
      ReplicaRequests(topicName, init) + PartitionRequests(topicName, last)
  }

  /** The nested loop that builds the request list in place (an `ArrayList` filled with `add`). */
  method CollectReplicas(topicName: string, partitions: seq<TopicPartitionInfo>) returns (replicas: seq<TopicPartitionReplica>)
    ensures replicas == ReplicaRequests(topicName, partitions)
  {
    replicas := [];
    for i := 0 to |partitions|
      invariant replicas == ReplicaRequests(topicName, partitions[..i])
    {
      var p := partitions[i];
      for j := 0 to |p.replicas|
        invariant replicas == ReplicaRequests(topicName, partitions[..i]) + PartitionRequests(topicName, p)[..j]
      {
        assert PartitionRequests(topicName, p)[..j + 1] == PartitionRequests(topicName, p)[..j] + [TopicPartitionReplica(topicName, p.partition, p.replicas[j])];
        replicas := replicas + [TopicPartitionReplica(topicName, p.partition, p.replicas[j])];
      }
      assert partitions[..i + 1][..i] == partitions[..i];
      assert PartitionRequests(topicName, p)[..|p.replicas|] == PartitionRequests(topicName, p);
    }
    assert partitions[..|partitions|] == partitions;
  }

  /** Sizes are not reported: 0 when the replica is caught up or lagging, -1 when absent. */
  function ReplicaLogDirOf(replica: TopicPartitionReplica, info: ReplicaLogDirDescription): (r: ReplicaLogDirInfo)
    ensures r.brokerId == replica.brokerId && r.partition == replica.partition
    ensures r.currentLogDir == info.currentReplicaLogDir && r.futureLogDir == info.futureReplicaLogDir
    ensures r.currentReplicaOffsetLag == info.currentReplicaOffsetLag
    ensures r.futureReplicaOffsetLag == info.futureReplicaOffsetLag
    ensures r.currentReplicaSize == (if info.currentReplicaOffsetLag >= 0 then 0 else -1)
    ensures r.futureReplicaSize == (if info.futureReplicaOffsetLag >= 0 then 0 else -1)
  {
    ReplicaLogDirInfo(
      replica.brokerId,
      replica.partition,
      info.currentReplicaLogDir,
      info.futureReplicaLogDir,
      if info.currentReplicaOffsetLag >= 0 then 0 else -1,
      info.currentReplicaOffsetLag,
      if info.futureReplicaOffsetLag >= 0 then 0 else -1,
      info.futureReplicaOffsetLag)
  }

  /**
   * `describeReplicaLogDirs`: looks the topic up, asks for every replica of it, and makes
   * no request at all when the topic has no replicas.
   */
  function DescribeReplicaLogDirs(c: AdminClient, topicName: string): (r: Result<seq<ReplicaLogDirInfo>>)
    ensures TopicOutcome(r, topicName)
    ensures GetTopic(c, topicName).Err? ==> r == Err(GetTopic(c, topicName).error)
    ensures GetTopic(c, topicName).Ok? ==>
      var requests := ReplicaRequests(topicName, GetTopic(c, topicName).value.partitions);
      && (requests == [] ==> r == Ok([]))
      && (requests != [] ==> (r.Ok? <==> c.describeReplicaLogDirs(requests).Completed?))
      && (requests != [] && r.Ok? ==>
            var infos := c.describeReplicaLogDirs(requests).value;
            |r.value| == |infos| && forall i :: 0 <= i < |infos| ==> r.value[i] == ReplicaLogDirOf(infos[i].0, infos[i].1))
    ensures r.Ok? ==> forall x :: x in r.value ==>
      && x.currentReplicaSize == (if x.currentReplicaOffsetLag >= 0 then 0 else -1)
      && x.futureReplicaSize == (if x.futureReplicaOffsetLag >= 0 then 0 else -1)
  {
    var topic :- GetTopic(c, topicName);
    var requests := ReplicaRequests(topicName, topic.partitions);
    if requests == [] then Ok([])
    else
      match c.describeReplicaLogDirs(requests)
      case Failed(f) =>
        Failure(f, "Interrupted while describing replica log dirs: " + topicName,
                "Failed to describe replica log dirs: " + topicName)
      case Completed(infos) =>
        Ok(seq(|infos|, i requires 0 <= i < |infos| => ReplicaLogDirOf(infos[i].0, infos[i].1)))
  }

  // ----- Consumer groups -----

  function ListConsumerGroupIds(c: AdminClient): (r: Result<seq<string>>)
    ensures ListingOutcome(r)
    ensures r.Ok? <==> c.listConsumerGroups.Completed?
    ensures r.Ok? ==> r.value == c.listConsumerGroups.value
  {
    match c.listConsumerGroups
    case Completed(ids) => Ok(ids)
    case Failed(f) => Failure(f, "Interrupted while listing consumer groups", "Failed to list consumer groups")
  }

  /** A member's assignment rendered as `topic-partition`. */
  function AssignmentLabel(tp: TopicPartition): string
  {
    tp.topic + "-" + IntToString(tp.partition)
  }

  function AssignmentLabels(tps: seq<TopicPartition>): (r: seq<string>)
    ensures |r| == |tps|
    ensures forall i :: 0 <= i < |tps| ==> r[i] == AssignmentLabel(tps[i])
  {
    seq(|tps|, i requires 0 <= i < |tps| => AssignmentLabel(tps[i]))
  }

  function ConsumerMemberOf(m: MemberDescription): ConsumerGroupMember
  {
    ConsumerGroupMember(m.consumerId, m.clientId, m.host, AssignmentLabels(m.assignment))
  }

  function CoordinatorId(coordinator: Option<Node>): (id: int)
    ensures coordinator.None? ==> id == -1
    ensures coordinator.Some? ==> id == coordinator.value.id
  {
    if coordinator.Some? then coordinator.value.id else -1
  }

  /** `getConsumerGroup`: only `GroupIdNotFoundException` means the group does not exist. */
  function GetConsumerGroup(c: AdminClient, groupId: string): (r: Result<ConsumerGroup>)
    ensures ConsumerGroupOutcome(r, groupId)
    ensures r == Err(ConsumerGroupNotFound(groupId)) <==>
      c.describeConsumerGroup(groupId) == Failed(Execution(GroupIdNotFound))
    ensures r.Ok? <==> c.describeConsumerGroup(groupId).Completed?
    ensures r.Ok? ==>
      var d := c.describeConsumerGroup(groupId).value;
      && r.value.groupId == groupId
      && r.value.state == d.state
      && r.value.partitionAssignor == d.partitionAssignor
      && r.value.coordinatorId == CoordinatorId(d.coordinator)
      && |r.value.members| == |d.members|
      && forall i :: 0 <= i < |d.members| ==> r.value.members[i] == ConsumerMemberOf(d.members[i])
  {
    match c.describeConsumerGroup(groupId)
    case Failed(f) =>
      if f == Execution(GroupIdNotFound) then Err(ConsumerGroupNotFound(groupId))
      else Failure(f, "Interrupted while describing consumer group: " + groupId,
                   "Failed to describe consumer group: " + groupId)
    case Completed(d) =>
      Ok(ConsumerGroup(
        groupId, d.state, d.partitionAssignor, CoordinatorId(d.coordinator),
        seq(|d.members|, i requires 0 <= i < |d.members| => ConsumerMemberOf(d.members[i]))))
  }

  function Max(a: int, b: int): int
  {
    if a >= b then a else b
  }

  /** The partitions with a committed offset: the request for their end offsets. */
  function CommittedPartitions(committed: seq<(TopicPartition, int)>): set<TopicPartition>
  {
    set i | 0 <= i < |committed| :: committed[i].0
  }

  function OffsetOf(entry: (TopicPartition, int), endOffsets: TopicPartition -> int): (r: ConsumerGroupOffset)
    ensures r.topic == entry.0.topic && r.partition == entry.0.partition
    ensures r.currentOffset == entry.1 && r.endOffset == endOffsets(entry.0)
    ensures r.lag >= 0
    ensures r.lag == Max(0, r.endOffset - r.currentOffset)
  {
    var current := entry.1;
    var end := endOffsets(entry.0);
    ConsumerGroupOffset(entry.0.topic, entry.0.partition, current, end, Max(0, end - current))
  }

  /**
   * `getConsumerGroupOffsets`: the group is looked up first; then one entry per committed
   * partition, with its lag behind the partition's end offset.
   */
  function GetConsumerGroupOffsets(c: AdminClient, groupId: string): (r: Result<seq<ConsumerGroupOffset>>)
    ensures ConsumerGroupOutcome(r, groupId)
    ensures GetConsumerGroup(c, groupId).Err? ==> r == Err(GetConsumerGroup(c, groupId).error)
    ensures GetConsumerGroup(c, groupId).Ok? && c.listConsumerGroupOffsets(groupId) == Completed([]) ==> r == Ok([])
    ensures GetConsumerGroup(c, groupId).Ok? ==>
      (r.Ok? <==>
        && c.listConsumerGroupOffsets(groupId).Completed?
        && var committed := c.listConsumerGroupOffsets(groupId).value;
           committed == [] || c.listOffsets(CommittedPartitions(committed)).Completed?)
    ensures r.Ok? ==>
      var committed := c.listConsumerGroupOffsets(groupId).value;
      && |r.value| == |committed|
      && (committed != [] ==>
            var endOffsets := c.listOffsets(CommittedPartitions(committed)).value;
            forall i :: 0 <= i < |committed| ==> r.value[i] == OffsetOf(committed[i], endOffsets))
    ensures r.Ok? ==> forall o :: o in r.value ==> o.lag >= 0 && o.lag == Max(0, o.endOffset - o.currentOffset)
  {
    var group :- GetConsumerGroup(c, groupId);
    var interrupted := "Interrupted while getting consumer group offsets: " + groupId;
    var failed := "Failed to get consumer group offsets: " + groupId;
    match c.listConsumerGroupOffsets(groupId)
    case Failed(f) => Failure(f, interrupted, failed)
    case Completed(committed) =>
      if committed == [] then Ok([])
      else
        match c.listOffsets(CommittedPartitions(committed))
        case Failed(f) => Failure(f, interrupted, failed)
        case Completed(endOffsets) =>
          Ok(seq(|committed|, i requires 0 <= i < |committed| => OffsetOf(committed[i], endOffsets)))
  }

  // ----- Cluster -----

  function BrokerOf(node: Node, controllerId: int): (b: Broker)
    ensures b.id == node.id && b.host == node.host && b.port == node.port && b.rack == node.rack
    ensures b.isController <==> node.id == controllerId
  {
    Broker(node.id, node.host, node.port, node.rack, node.id == controllerId)
  }

  /** `getClusterInfo`: cluster id, controller and nodes, with the controller flagged. */
  function GetClusterInfo(c: AdminClient): (r: Result<ClusterInfo>)
    ensures ListingOutcome(r)
    ensures r.Ok? <==>
      c.describeCluster.clusterId.Completed? && c.describeCluster.controller.Completed? && c.describeCluster.nodes.Completed?
    ensures r.Ok? ==>
      var nodes := c.describeCluster.nodes.value;
      && r.value.clusterId == c.describeCluster.clusterId.value
      && r.value.controllerId == c.describeCluster.controller.value.id
      && |r.value.brokers| == |nodes|
      && (forall i :: 0 <= i < |nodes| ==> r.value.brokers[i] == BrokerOf(nodes[i], r.value.controllerId))
      && forall b :: b in r.value.brokers ==> (b.isController <==> b.id == r.value.controllerId)
  {
    var interrupted := "Interrupted while getting cluster info";
    var failed := "Failed to get cluster info";
    match c.describeCluster.clusterId
    case Failed(f) => Failure(f, interrupted, failed)
    case Completed(clusterId) =>
      match c.describeCluster.controller
      case Failed(f) => Failure(f, interrupted, failed)
      case Completed(controller) =>
        match c.describeCluster.nodes
        case Failed(f) => Failure(f, interrupted, failed)
        case Completed(nodes) =>
          Ok(ClusterInfo(clusterId, controller.id,
            seq(|nodes|, i requires 0 <= i < |nodes| => BrokerOf(nodes[i], controller.id))))
  }

  function ListBrokers(c: AdminClient): (r: Result<seq<Broker>>)
    ensures ListingOutcome(r)
    ensures r.Ok? <==> GetClusterInfo(c).Ok?
    ensures r.Ok? ==> r.value == GetClusterInfo(c).value.brokers
  {
    var info :- GetClusterInfo(c);
    Ok(info.brokers)
  }

  /** The position of the first broker with the given id (`filter` then `findFirst`). */
  function FindFirst(brokers: seq<Broker>, brokerId: int): (r: Option<nat>)
    ensures r.Some? ==> r.value < |brokers| && brokers[r.value].id == brokerId
    ensures r.Some? ==> forall j :: 0 <= j < r.value ==> brokers[j].id != brokerId
    ensures r.None? <==> forall j :: 0 <= j < |brokers| ==> brokers[j].id != brokerId
  {
    if brokers == [] then None
    else if brokers[0].id == brokerId then Some(0)
    else
      var rest := FindFirst(brokers[1..], brokerId);
      if rest.Some? then Some(rest.value + 1) else None
  }

  /** `getBroker`: the first listed broker with that id, or the broker's "not found". */
  function GetBroker(c: AdminClient, brokerId: int): (r: Result<Broker>)
    ensures BrokerOutcome(r, brokerId)
    ensures ListBrokers(c).Err? ==> r == Err(ListBrokers(c).error)
    ensures r == Err(BrokerNotFound(brokerId)) <==>
      ListBrokers(c).Ok? && forall b :: b in ListBrokers(c).value ==> b.id != brokerId
    ensures r.Ok? ==>
      var brokers := ListBrokers(c).value;
      && r.value.id == brokerId
      && exists i :: 0 <= i < |brokers| && brokers[i] == r.value && forall j :: 0 <= j < i ==> brokers[j].id != brokerId
    ensures ListBrokers(c).Ok? ==> (r.Ok? <==> exists b :: b in ListBrokers(c).value && b.id == brokerId)
  {
    var brokers :- ListBrokers(c);
    var found := FindFirst(brokers, brokerId);
    if found.Some? then Ok(brokers[found.value]) else Err(BrokerNotFound(brokerId))
  }

  /** `getBrokerConfigs`: the broker is looked up first; default and sensitive entries are dropped. */
  function GetBrokerConfigs(c: AdminClient, brokerId: int): (r: Result<map<string, string>>)
    ensures BrokerOutcome(r, brokerId)
    ensures GetBroker(c, brokerId).Err? ==> r == Err(GetBroker(c, brokerId).error)
    ensures r.Ok? <==>
      GetBroker(c, brokerId).Ok? && c.describeConfigs(BrokerResource(IntToString(brokerId))).Completed?
    ensures r.Ok? ==>
      var entries := c.describeConfigs(BrokerResource(IntToString(brokerId))).value;
      && (forall k :: k in r.value ==> exists e :: e in entries && e.name == k && e.value == r.value[k] && !e.isDefault && !e.isSensitive)
      && (forall e :: e in entries && !e.isDefault && !e.isSensitive ==> e.name in r.value)
  {
    var broker :- GetBroker(c, brokerId);
    var id := IntToString(brokerId);
    match c.describeConfigs(BrokerResource(id))
    case Failed(f) =>
      Failure(f, "Interrupted while getting broker configs: " + id, "Failed to get broker configs: " + id)
    case Completed(entries) =>
      Ok(CollectConfigs(entries, true))
  }

  function LogDirPartitionOf(entry: (TopicPartition, ReplicaInfo)): (p: LogDirPartition)
    ensures p.topic == entry.0.topic && p.partition == entry.0.partition
    ensures p.size == entry.1.size && p.offsetLag == entry.1.offsetLag && p.isFuture == entry.1.isFuture
  {
    LogDirPartition(entry.0.topic, entry.0.partition, entry.1.size, entry.1.offsetLag, entry.1.isFuture)
  }

  function LogDirOf(entry: (string, LogDirDescription)): (r: LogDirInfo)
    ensures r.path == entry.0 && r.error == entry.1.errorMessage
    ensures r.totalBytes == OrElse(entry.1.totalBytes, -1) && r.usableBytes == OrElse(entry.1.usableBytes, -1)
    ensures |r.partitions| == |entry.1.replicaInfos|
    ensures forall i :: 0 <= i < |entry.1.replicaInfos| ==> r.partitions[i] == LogDirPartitionOf(entry.1.replicaInfos[i])
  {
    var infos := entry.1.replicaInfos;
    LogDirInfo(
      entry.0,
      entry.1.errorMessage,
      OrElse(entry.1.totalBytes, -1),
      OrElse(entry.1.usableBytes, -1),
      seq(|infos|, i requires 0 <= i < |infos| => LogDirPartitionOf(infos[i])))
  }

  /** `describeLogDirs`: the broker is looked up first; no entry for it means no directories. */
  function DescribeLogDirs(c: AdminClient, brokerId: int): (r: Result<seq<LogDirInfo>>)
    ensures BrokerOutcome(r, brokerId)
    ensures GetBroker(c, brokerId).Err? ==> r == Err(GetBroker(c, brokerId).error)
    ensures r.Ok? <==> GetBroker(c, brokerId).Ok? && c.describeLogDirs(brokerId).Completed?
    ensures r.Ok? && brokerId !in c.describeLogDirs(brokerId).value ==> r.value == []
    ensures r.Ok? && brokerId in c.describeLogDirs(brokerId).value ==>
      var dirs := c.describeLogDirs(brokerId).value[brokerId];
      |r.value| == |dirs| && forall i :: 0 <= i < |dirs| ==> r.value[i] == LogDirOf(dirs[i])
  {
    var broker :- GetBroker(c, brokerId);
    var id := IntToString(brokerId);
    match c.describeLogDirs(brokerId)
    case Failed(f) =>
      Failure(f, "Interrupted while describing log dirs: " + id, "Failed to describe log dirs: " + id)
    case Completed(all) =>
      if brokerId !in all then Ok([])
      else
        var dirs := all[brokerId];
        Ok(seq(|dirs|, i requires 0 <= i < |dirs| => LogDirOf(dirs[i])))
  }

  function ReassignmentOf(entry: (TopicPartition, Reassignment)): PartitionReassignment
  {
    PartitionReassignment(
      entry.0.topic, entry.0.partition,
      entry.1.replicas, entry.1.addingReplicas, entry.1.removingReplicas)
  }

  function ListPartitionReassignments(c: AdminClient): (r: Result<seq<PartitionReassignment>>)
    ensures ListingOutcome(r)
    ensures r.Ok? <==> c.listPartitionReassignments.Completed?
    ensures r.Ok? ==>
      var entries := c.listPartitionReassignments.value;
      |r.value| == |entries| && forall i :: 0 <= i < |entries| ==> r.value[i] == ReassignmentOf(entries[i])
  {
    match c.listPartitionReassignments
    case Failed(f) =>
      Failure(f, "Interrupted while listing partition reassignments", "Failed to list partition reassignments")
    case Completed(entries) =>
      Ok(seq(|entries|, i requires 0 <= i < |entries| => ReassignmentOf(entries[i])))
  }

  // ----- Features -----

  /** A supported feature, with its finalized max version level, or 0 when it is not finalized. */
  function FeatureOf(supported: (string, VersionRange), finalized: map<string, int>): (f: KafkaFeature)
    ensures f.name == supported.0
    ensures f.minVersion == supported.1.minVersion && f.maxVersion == supported.1.maxVersion
    ensures supported.0 in finalized ==> f.finalizedVersion == finalized[supported.0]
    ensures supported.0 !in finalized ==> f.finalizedVersion == 0
  {
    var finalizedVersion := if supported.0 in finalized then finalized[supported.0] else 0;
    KafkaFeature(supported.0, supported.1.minVersion, supported.1.maxVersion, finalizedVersion)
  }

  /** One feature per supported feature, in iteration order. */
  function FeaturesOf(metadata: FeatureMetadata): (r: seq<KafkaFeature>)
    ensures |r| == |metadata.supportedFeatures|
    ensures forall i :: 0 <= i < |r| ==> r[i] == FeatureOf(metadata.supportedFeatures[i], metadata.finalizedFeatures)
  {
    var supported := metadata.supportedFeatures;
    seq(|supported|, i requires 0 <= i < |supported| => FeatureOf(supported[i], metadata.finalizedFeatures))
  }

  /** The `forEach` over the supported features that appends to a list. */
  method CollectFeatures(metadata: FeatureMetadata) returns (features: seq<KafkaFeature>)
    ensures features == FeaturesOf(metadata)
  {
    features := [];
    var supported := metadata.supportedFeatures;
    for i := 0 to |supported|
      invariant |features| == i
      invariant forall j :: 0 <= j < i ==> features[j] == FeatureOf(supported[j], metadata.finalizedFeatures)
    {
      var name := supported[i].0;
      var versionRange := supported[i].1;
      var finalizedVersion := 0;
      if name in metadata.finalizedFeatures {
        finalizedVersion := metadata.finalizedFeatures[name];
      }
      features := features + [KafkaFeature(name, versionRange.minVersion, versionRange.maxVersion, finalizedVersion)];
    }
  }

  function DescribeFeatures(c: AdminClient): (r: Result<seq<KafkaFeature>>)
    ensures ListingOutcome(r)
    ensures r.Ok? <==> c.describeFeatures.Completed?
    ensures r.Ok? ==> r.value == FeaturesOf(c.describeFeatures.value)
  {
    match c.describeFeatures
    case Failed(f) => Failure(f, "Interrupted while describing features", "Failed to describe features")
    case Completed(metadata) => Ok(FeaturesOf(metadata))
  }

  function QuorumReplicaOf(r: ReplicaState): (q: QuorumReplica)
    ensures q.replicaId == r.replicaId && q.logEndOffset == r.logEndOffset
    ensures q.lastFetchTimestamp == OrElse(r.lastFetchTimestamp, -1)
    ensures q.lastCaughtUpTimestamp == OrElse(r.lastCaughtUpTimestamp, -1)
  {
    QuorumReplica(r.replicaId, r.logEndOffset, OrElse(r.lastFetchTimestamp, -1), OrElse(r.lastCaughtUpTimestamp, -1))
  }

  function QuorumReplicas(rs: seq<ReplicaState>): (qs: seq<QuorumReplica>)
    ensures |qs| == |rs| && forall i :: 0 <= i < |rs| ==> qs[i] == QuorumReplicaOf(rs[i])
  {
    seq(|rs|, i requires 0 <= i < |rs| => QuorumReplicaOf(rs[i]))
  }

  function DescribeMetadataQuorum(c: AdminClient): (r: Result<QuorumInfo>)
    ensures ListingOutcome(r)
    ensures r.Ok? <==> c.describeMetadataQuorum.Completed?
    ensures r.Ok? ==>
      var q := c.describeMetadataQuorum.value;
      && r.value.leaderId == q.leaderId
      && r.value.leaderEpoch == q.leaderEpoch
      && r.value.highWatermark == q.highWatermark
      && r.value.voters == QuorumReplicas(q.voters)
      && r.value.observers == QuorumReplicas(q.observers)
  {
    match c.describeMetadataQuorum
    case Failed(f) => Failure(f, "Interrupted while describing metadata quorum", "Failed to describe metadata quorum")
    case Completed(q) =>
      Ok(QuorumInfo(q.leaderId, q.leaderEpoch, q.highWatermark, QuorumReplicas(q.voters), QuorumReplicas(q.observers)))
  }

  // ----- ACLs, transactions, quotas, tokens, users, share groups -----

  function AclOf(b: AclBinding): Acl
  {
    Acl(b.resourceType, b.resourceName, b.patternType, b.principal, b.host, b.operation, b.permissionType)
  }

  function DescribeAcls(c: AdminClient): (r: Result<seq<Acl>>)
    ensures ListingOutcome(r)
    ensures r.Ok? <==> c.describeAcls.Completed?
    ensures r.Ok? ==>
      var bindings := c.describeAcls.value;
      |r.value| == |bindings| && forall i :: 0 <= i < |bindings| ==> r.value[i] == AclOf(bindings[i])
  {
    match c.describeAcls
    case Failed(f) => Failure(f, "Interrupted while describing ACLs", "Failed to describe ACLs")
    case Completed(bindings) => Ok(seq(|bindings|, i requires 0 <= i < |bindings| => AclOf(bindings[i])))
  }

  function ListTransactions(c: AdminClient): (r: Result<seq<TransactionListing>>)
    ensures ListingOutcome(r)
    ensures r.Ok? <==> c.listTransactions.Completed?
    ensures r.Ok? ==>
      var ls := c.listTransactions.value;
      |r.value| == |ls| && forall i :: 0 <= i < |ls| ==>
        r.value[i] == TransactionListing(ls[i].transactionalId, ls[i].producerId, ls[i].state)
  {
    match c.listTransactions
    case Failed(f) => Failure(f, "Interrupted while listing transactions", "Failed to list transactions")
    case Completed(ls) =>
      Ok(seq(|ls|, i requires 0 <= i < |ls| => TransactionListing(ls[i].transactionalId, ls[i].producerId, ls[i].state)))
  }

  /**
   * `describeTransaction`: only `TransactionalIdNotFoundException` means the transaction
   * does not exist, and that failure is not a `KafkaAdminException`.
   */
  function DescribeTransaction(c: AdminClient, transactionalId: string): (r: Result<TransactionDetail>)
    ensures TransactionOutcome(r, transactionalId)
    ensures r == Err(TransactionNotFound(transactionalId)) <==>
      c.describeTransaction(transactionalId) == Failed(Execution(TransactionalIdNotFound))
    ensures r.Err? ==> (IsKafkaAdminException(r.error) <==>
      c.describeTransaction(transactionalId) != Failed(Execution(TransactionalIdNotFound)))
    ensures r.Ok? <==> c.describeTransaction(transactionalId).Completed?
    ensures r.Ok? ==>
      var d := c.describeTransaction(transactionalId).value;
      && r.value.transactionalId == transactionalId
      && r.value.coordinatorId == d.coordinatorId
      && r.value.state == d.state
      && r.value.producerId == d.producerId
      && r.value.producerEpoch == d.producerEpoch
      && r.value.transactionTimeoutMs == d.transactionTimeoutMs
      && r.value.transactionStartTimeMs == OrElse(d.transactionStartTimeMs, -1)
      && |r.value.topicPartitions| == |d.topicPartitions|
      && forall i :: 0 <= i < |d.topicPartitions| ==>
           r.value.topicPartitions[i] == TransactionTopicPartition(d.topicPartitions[i].topic, d.topicPartitions[i].partition)
  {
    match c.describeTransaction(transactionalId)
    case Failed(f) =>
      if f == Execution(TransactionalIdNotFound) then Err(TransactionNotFound(transactionalId))
      else Failure(f, "Interrupted while describing transaction: " + transactionalId,
                   "Failed to describe transaction: " + transactionalId)
    case Completed(d) =>
      var tps := d.topicPartitions;
      Ok(TransactionDetail(
        transactionalId, d.coordinatorId, d.state, d.producerId, d.producerEpoch,
        d.transactionTimeoutMs, OrElse(d.transactionStartTimeMs, -1),
        seq(|tps|, i requires 0 <= i < |tps| => TransactionTopicPartition(tps[i].topic, tps[i].partition))))
  }

  /** One quota per entry of the entity (type and name), each with the entity's quota values. */
  function EntityQuotas(e: QuotaEntity): (r: seq<ClientQuota>)
    ensures |r| == |e.entries|
    ensures forall j :: 0 <= j < |e.entries| ==>
      r[j].entityType == e.entries[j].0 && r[j].entityName == e.entries[j].1 && r[j].quotas == e.quotaValues
  {
    seq(|e.entries|, j requires 0 <= j < |e.entries| => ClientQuota(e.entries[j].0, e.entries[j].1, e.quotaValues))
  }

  /** The entities' quotas, flattened (`flatMap`) in entity order. */
  function QuotasOf(entities: seq<QuotaEntity>): (r: seq<ClientQuota>)
    ensures forall q :: q in r <==> exists i :: 0 <= i < |entities| && q in EntityQuotas(entities[i])
  {
    if entities == [] then []
    else
      var rest := QuotasOf(entities[1..]);
      assert forall i :: 1 <= i < |entities| ==> entities[1..][i - 1] == entities[i];
      EntityQuotas(entities[0]) + rest
  }

  /**
   * The flattening keeps order and multiplicity: the quotas of a concatenation of entities
   * are the quotas of the first part followed by those of the second.
   */
  lemma {:induction false} QuotasOfAppend(xs: seq<QuotaEntity>, ys: seq<QuotaEntity>)
    ensures QuotasOf(xs + ys) == QuotasOf(xs) + QuotasOf(ys)
    decreases |xs|
  {
    if xs == [] {
      assert xs + ys == ys;
    } else {
      assert (xs + ys)[1..] == xs[1..] + ys;
      QuotasOfAppend(xs[1..], ys);
    }
  }

  /** One entity contributes exactly its own quotas. */
  lemma QuotasOfSingle(e: QuotaEntity)
    ensures QuotasOf([e]) == EntityQuotas(e)
  {
    assert [e][1..] == [];
  }

  function DescribeClientQuotas(c: AdminClient): (r: Result<seq<ClientQuota>>)
    ensures ListingOutcome(r)
    ensures r.Ok? <==> c.describeClientQuotas.Completed?
    ensures r.Ok? ==> r.value == QuotasOf(c.describeClientQuotas.value)
  {
    match c.describeClientQuotas
    case Failed(f) => Failure(f, "Interrupted while describing client quotas", "Failed to describe client quotas")
    case Completed(entities) => Ok(QuotasOf(entities))
  }

  function TokenOf(t: TokenInformation): DelegationToken
  {
    DelegationToken(t.tokenId, t.owner, t.tokenRequester, t.renewers, t.issueTimestamp, t.expiryTimestamp, t.maxTimestamp)
  }

  function DescribeDelegationTokens(c: AdminClient): (r: Result<seq<DelegationToken>>)
    ensures ListingOutcome(r)
    ensures r.Ok? <==> c.describeDelegationTokens.Completed?
    ensures r.Ok? ==>
      var ts := c.describeDelegationTokens.value;
      |r.value| == |ts| && forall i :: 0 <= i < |ts| ==> r.value[i] == TokenOf(ts[i])
  {
    match c.describeDelegationTokens
    case Failed(f) => Failure(f, "Interrupted while describing delegation tokens", "Failed to describe delegation tokens")
    case Completed(ts) => Ok(seq(|ts|, i requires 0 <= i < |ts| => TokenOf(ts[i])))
  }

  function ListShareGroupIds(c: AdminClient): (r: Result<seq<string>>)
    ensures ListingOutcome(r)
    ensures r.Ok? <==> c.listShareGroups.Completed?
    ensures r.Ok? ==> r.value == c.listShareGroups.value
  {
    match c.listShareGroups
    case Completed(ids) => Ok(ids)
    case Failed(f) => Failure(f, "Interrupted while listing share groups", "Failed to list share groups")
  }

  function ShareMemberOf(m: MemberDescription): ShareGroupMember
  {
    ShareGroupMember(m.consumerId, m.clientId, m.host, AssignmentLabels(m.assignment))
  }

  /** `describeShareGroup`: only `GroupIdNotFoundException` means the share group does not exist. */
  function DescribeShareGroup(c: AdminClient, groupId: string): (r: Result<ShareGroup>)
    ensures ShareGroupOutcome(r, groupId)
    ensures r == Err(ShareGroupNotFound(groupId)) <==>
      c.describeShareGroup(groupId) == Failed(Execution(GroupIdNotFound))
    ensures r.Ok? <==> c.describeShareGroup(groupId).Completed?
    ensures r.Ok? ==>
      var d := c.describeShareGroup(groupId).value;
      && r.value.groupId == groupId
      && r.value.state == d.groupState
      && r.value.coordinatorId == CoordinatorId(d.coordinator)
      && |r.value.members| == |d.members|
      && forall i :: 0 <= i < |d.members| ==> r.value.members[i] == ShareMemberOf(d.members[i])
  {
    match c.describeShareGroup(groupId)
    case Failed(f) =>
      if f == Execution(GroupIdNotFound) then Err(ShareGroupNotFound(groupId))
      else Failure(f, "Interrupted while describing share group: " + groupId,
                   "Failed to describe share group: " + groupId)
    case Completed(d) =>
      Ok(ShareGroup(
        groupId, d.groupState, CoordinatorId(d.coordinator),
        seq(|d.members|, i requires 0 <= i < |d.members| => ShareMemberOf(d.members[i]))))
  }

  function ScramCredentialOf(entry: (string, seq<ScramInfo>)): (u: UserScramCredential)
    ensures u.name == entry.0 && |u.credentialInfos| == |entry.1|
    ensures forall i :: 0 <= i < |entry.1| ==>
      u.credentialInfos[i] == ScramCredentialInfo(entry.1[i].mechanismName, entry.1[i].iterations)
  {
    var infos := entry.1;
    UserScramCredential(entry.0,
      seq(|infos|, i requires 0 <= i < |infos| => ScramCredentialInfo(infos[i].mechanismName, infos[i].iterations)))
  }

  function DescribeUserScramCredentials(c: AdminClient): (r: Result<seq<UserScramCredential>>)
    ensures ListingOutcome(r)
    ensures r.Ok? <==> c.describeUserScramCredentials.Completed?
    ensures r.Ok? ==>
      var users := c.describeUserScramCredentials.value;
      |r.value| == |users| && forall i :: 0 <= i < |users| ==> r.value[i] == ScramCredentialOf(users[i])
  {
    match c.describeUserScramCredentials
    case Failed(f) =>
      Failure(f, "Interrupted while describing user SCRAM credentials", "Failed to describe user SCRAM credentials")
    case Completed(users) => Ok(seq(|users|, i requires 0 <= i < |users| => ScramCredentialOf(users[i])))
  }

  // ----- The port -----

  /** The port the adapter implements over one client. */
  function Adapter(c: AdminClient): Port
  {
    Port(
      ListTopicNames(c),
      n => GetTopic(c, n),
      n => GetTopicPartitions(c, n),
      (n, p) => DescribeProducers(c, n, p),
      n => DescribeReplicaLogDirs(c, n),
      ListConsumerGroupIds(c),
      g => GetConsumerGroup(c, g),
      g => GetConsumerGroupOffsets(c, g),
      GetClusterInfo(c),
      ListBrokers(c),
      b => GetBroker(c, b),
      b => GetBrokerConfigs(c, b),
      b => DescribeLogDirs(c, b),
      ListPartitionReassignments(c),
      DescribeFeatures(c),
      DescribeMetadataQuorum(c),
      DescribeAcls(c),
      ListTransactions(c),
      t => DescribeTransaction(c, t),
      DescribeClientQuotas(c),
      DescribeDelegationTokens(c),
      ListShareGroupIds(c),
      g => DescribeShareGroup(c, g),
      DescribeUserScramCredentials(c))
  }

  /** The adapter keeps the port's error contract for every client answer. */
  lemma AdapterHonoursPort(c: AdminClient)
    ensures Honours(Adapter(c))
  {
  }
}
