/**
 * The domain records the administration port returns. Java `int`, `long` and `short`
 * fields are mathematical integers here; a field the source allows to be `null` and
 * treats specially is an `Option`.
 */
module Domain {
  import opened AdminErrors

  // Topics

  datatype TopicPartitionInfo = TopicPartitionInfo(
    partition: int,
    leader: int,
    replicas: seq<int>,
    isr: seq<int>)

  datatype Topic = Topic(
    name: string,
    partitionCount: int,
    replicationFactor: int,
    configs: map<string, string>,
    partitions: seq<TopicPartitionInfo>,
    internal: bool)

  datatype ProducerState = ProducerState(
    producerId: int,
    producerEpoch: int,
    lastSequence: int,
    lastTimestamp: int,
    coordinatorEpoch: int,
    currentTxnStartOffset: int)

  datatype ReplicaLogDirInfo = ReplicaLogDirInfo(
    brokerId: int,
    partition: int,
    currentLogDir: string,
    futureLogDir: string,
    currentReplicaSize: int,
    currentReplicaOffsetLag: int,
    futureReplicaSize: int,
    futureReplicaOffsetLag: int)

  // Cluster

  datatype Broker = Broker(
    id: int,
    host: string,
    port: int,
    rack: string,
    isController: bool)

  datatype ClusterInfo = ClusterInfo(
    clusterId: string,
    controllerId: int,
    brokers: seq<Broker>)

  datatype LogDirPartition = LogDirPartition(
    topic: string,
    partition: int,
    size: int,
    offsetLag: int,
    isFuture: bool)

  datatype LogDirInfo = LogDirInfo(
    path: string,
    error: Option<string>,
    totalBytes: int,
    usableBytes: int,
    partitions: seq<LogDirPartition>)

  datatype PartitionReassignment = PartitionReassignment(
    topic: string,
    partition: int,
    replicas: seq<int>,
    addingReplicas: seq<int>,
    removingReplicas: seq<int>)

  datatype KafkaFeature = KafkaFeature(
    name: string,
    minVersion: int,
    maxVersion: int,
    finalizedVersion: int)

  datatype QuorumReplica = QuorumReplica(
    replicaId: int,
    logEndOffset: int,
    lastFetchTimestamp: int,
    lastCaughtUpTimestamp: int)

  datatype QuorumInfo = QuorumInfo(
    leaderId: int,
    leaderEpoch: int,
    highWatermark: int,
    voters: seq<QuorumReplica>,
    observers: seq<QuorumReplica>)

  // Consumer and share groups

  datatype ConsumerGroupMember = ConsumerGroupMember(
    consumerId: string,
    clientId: string,
    host: string,
    assignments: seq<string>)

  datatype ConsumerGroup = ConsumerGroup(
    groupId: string,
    state: string,
    partitionAssignor: string,
    coordinatorId: int,
    members: seq<ConsumerGroupMember>)

  datatype ConsumerGroupOffset = ConsumerGroupOffset(
    topic: string,
    partition: int,
    currentOffset: int,
    endOffset: int,
    lag: int)

  datatype ShareGroupMember = ShareGroupMember(
    consumerId: string,
    clientId: string,
    host: string,
    assignments: seq<string>)

  datatype ShareGroup = ShareGroup(
    groupId: string,
    state: string,
    coordinatorId: int,
    members: seq<ShareGroupMember>)

  // Security, quotas, transactions

  datatype Acl = Acl(
    resourceType: string,
    resourceName: string,
    patternType: string,
    principal: string,
    host: string,
    operation: string,
    permissionType: string)

  /** Quota values are Java doubles; they are only passed through, so `real` stands in. */
  datatype ClientQuota = ClientQuota(
    entityType: string,
    entityName: Option<string>,
    quotas: map<string, real>)

  datatype TransactionListing = TransactionListing(
    transactionalId: string,
    producerId: int,
    state: string)

  datatype TransactionTopicPartition = TransactionTopicPartition(
    topic: string,
    partition: int)

  datatype TransactionDetail = TransactionDetail(
    transactionalId: string,
    coordinatorId: int,
    state: string,
    producerId: int,
    producerEpoch: int,
    transactionTimeoutMs: int,
    transactionStartTimeMs: int,
    topicPartitions: seq<TransactionTopicPartition>)

  datatype DelegationToken = DelegationToken(
    tokenId: string,
    owner: string,
    tokenRequester: string,
    renewers: seq<string>,
    issueTimestamp: int,
    expiryTimestamp: int,
    maxTimestamp: int)

  datatype ScramCredentialInfo = ScramCredentialInfo(
    mechanism: string,
    iterations: int)

  datatype UserScramCredential = UserScramCredential(
    name: string,
    credentialInfos: seq<ScramCredentialInfo>)
}
