/**
 * The answers of Kafka's `AdminClient`, which the adapter translates. Each call yields a
 * future that either completes with a value or fails: `Interrupted` stands for the
 * waiting thread being interrupted, `Execution` for the broker-side failure and its
 * cause. A hash map the adapter iterates is a sequence of entries in iteration order;
 * a map it only looks keys up in is a Dafny `map`.
 */
module RawAdmin {
  import opened AdminErrors

  /** The causes the adapter tells apart; every other exception is `OtherCause`. */
  datatype Cause =
    | UnknownTopicOrPartition
    | GroupIdNotFound
    | TransactionalIdNotFound
    | OtherCause

  datatype RawFailure = Interrupted | Execution(cause: Cause)

  datatype Future<T> = Completed(value: T) | Failed(failure: RawFailure)

  datatype Node = Node(id: int, host: string, port: int, rack: string)

  datatype TopicPartition = TopicPartition(topic: string, partition: int)

  // describeTopics and describeConfigs

  datatype PartitionDescription = PartitionDescription(
    partition: int,
    leader: Option<Node>,
    replicas: seq<Node>,
    isr: seq<Node>)

  datatype TopicDescription = TopicDescription(
    isInternal: bool,
    partitions: seq<PartitionDescription>)

  datatype ConfigResource = TopicResource(topicName: string) | BrokerResource(brokerName: string)

  datatype ConfigEntry = ConfigEntry(name: string, value: string, isDefault: bool, isSensitive: bool)

  // describeProducers and describeReplicaLogDirs

  datatype ActiveProducer = ActiveProducer(
    producerId: int,
    producerEpoch: int,
    lastSequence: int,
    lastTimestamp: int,
    coordinatorEpoch: Option<int>,
    currentTransactionStartOffset: Option<int>)

  datatype TopicPartitionReplica = TopicPartitionReplica(topic: string, partition: int, brokerId: int)

  datatype ReplicaLogDirDescription = ReplicaLogDirDescription(
    currentReplicaLogDir: string,
    currentReplicaOffsetLag: int,
    futureReplicaLogDir: string,
    futureReplicaOffsetLag: int)

  // Consumer and share groups

  datatype MemberDescription = MemberDescription(
    consumerId: string,
    clientId: string,
    host: string,
    assignment: seq<TopicPartition>)

  datatype ConsumerGroupDescription = ConsumerGroupDescription(
    state: string,
    partitionAssignor: string,
    coordinator: Option<Node>,
    members: seq<MemberDescription>)

  datatype ShareGroupDescription = ShareGroupDescription(
    groupState: string,
    coordinator: Option<Node>,
    members: seq<MemberDescription>)

  // Cluster

  /** `describeCluster` answers with three futures, read in this order. */
  datatype ClusterDescription = ClusterDescription(
    clusterId: Future<string>,
    controller: Future<Node>,
    nodes: Future<seq<Node>>)

  datatype ReplicaInfo = ReplicaInfo(size: int, offsetLag: int, isFuture: bool)

  /** `errorMessage` is the message of the directory's error; `None` when it has none. */
  datatype LogDirDescription = LogDirDescription(
    errorMessage: Option<string>,
    totalBytes: Option<int>,
    usableBytes: Option<int>,
    replicaInfos: seq<(TopicPartition, ReplicaInfo)>)

  datatype Reassignment = Reassignment(
    replicas: seq<int>,
    addingReplicas: seq<int>,
    removingReplicas: seq<int>)

  datatype VersionRange = VersionRange(minVersion: int, maxVersion: int)

  /** Supported features in iteration order; finalized max version levels by name. */
  datatype FeatureMetadata = FeatureMetadata(
    supportedFeatures: seq<(string, VersionRange)>,
    finalizedFeatures: map<string, int>)

  datatype ReplicaState = ReplicaState(
    replicaId: int,
    logEndOffset: int,
    lastFetchTimestamp: Option<int>,
    lastCaughtUpTimestamp: Option<int>)

  datatype RawQuorumInfo = RawQuorumInfo(
    leaderId: int,
    leaderEpoch: int,
    highWatermark: int,
    voters: seq<ReplicaState>,
    observers: seq<ReplicaState>)

  // ACLs, transactions, quotas, tokens, SCRAM users

  /** An ACL binding with its enumerations already rendered by their names. */
  datatype AclBinding = AclBinding(
    resourceType: string,
    resourceName: string,
    patternType: string,
    principal: string,
    host: string,
    operation: string,
    permissionType: string)

  datatype RawTransactionListing = RawTransactionListing(
    transactionalId: string,
    producerId: int,
    state: string)

  datatype TransactionDescription = TransactionDescription(
    coordinatorId: int,
    state: string,
    producerId: int,
    producerEpoch: int,
    transactionTimeoutMs: int,
    transactionStartTimeMs: Option<int>,
    topicPartitions: seq<TopicPartition>)

  /** A quota entity: its (entity type, entity name) entries and its quota values. */
  datatype QuotaEntity = QuotaEntity(
    entries: seq<(string, Option<string>)>,
    quotaValues: map<string, real>)

  /** A delegation token's information with its principals rendered as strings. */
  datatype TokenInformation = TokenInformation(
    tokenId: string,
    owner: string,
    tokenRequester: string,
    renewers: seq<string>,
    issueTimestamp: int,
    expiryTimestamp: int,
    maxTimestamp: int)

  datatype ScramInfo = ScramInfo(mechanismName: string, iterations: int)

  /** What each `AdminClient` call answers; keyed calls are functions of their request. */
  datatype AdminClient = AdminClient(
    listTopics: Future<seq<string>>,
    describeTopic: string -> Future<TopicDescription>,
    describeConfigs: ConfigResource -> Future<seq<ConfigEntry>>,
    describeProducers: TopicPartition -> Future<seq<ActiveProducer>>,
    describeReplicaLogDirs: seq<TopicPartitionReplica> -> Future<seq<(TopicPartitionReplica, ReplicaLogDirDescription)>>,
    listConsumerGroups: Future<seq<string>>,
    describeConsumerGroup: string -> Future<ConsumerGroupDescription>,
    listConsumerGroupOffsets: string -> Future<seq<(TopicPartition, int)>>,
    listOffsets: set<TopicPartition> -> Future<TopicPartition -> int>,
    describeCluster: ClusterDescription,
    describeLogDirs: int -> Future<map<int, seq<(string, LogDirDescription)>>>,
    listPartitionReassignments: Future<seq<(TopicPartition, Reassignment)>>,
    describeFeatures: Future<FeatureMetadata>,
    describeMetadataQuorum: Future<RawQuorumInfo>,
    describeAcls: Future<seq<AclBinding>>,
    listTransactions: Future<seq<RawTransactionListing>>,
    describeTransaction: string -> Future<TransactionDescription>,
    describeClientQuotas: Future<seq<QuotaEntity>>,
    describeDelegationTokens: Future<seq<TokenInformation>>,
    listShareGroups: Future<seq<string>>,
    describeShareGroup: string -> Future<ShareGroupDescription>,
    describeUserScramCredentials: Future<seq<(string, seq<ScramInfo>)>>)
}
