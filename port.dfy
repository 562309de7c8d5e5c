/**
 * The administration port: the read operations the services call. An implementation is
 * a value of `Port` whose fields answer each operation against one snapshot of the
 * cluster; a keyed operation is a function of its key. `Honours` is the interface's
 * documented error contract.
 */
module AdminPort {
  import opened AdminErrors
  import opened Domain

  datatype Port = Port(
    listTopicNames: Result<seq<string>>,
    getTopic: string -> Result<Topic>,
    getTopicPartitions: string -> Result<seq<TopicPartitionInfo>>,
    describeProducers: (string, int) -> Result<seq<ProducerState>>,
    describeReplicaLogDirs: string -> Result<seq<ReplicaLogDirInfo>>,
    listConsumerGroupIds: Result<seq<string>>,
    getConsumerGroup: string -> Result<ConsumerGroup>,
    getConsumerGroupOffsets: string -> Result<seq<ConsumerGroupOffset>>,
    getClusterInfo: Result<ClusterInfo>,
    listBrokers: Result<seq<Broker>>,
    getBroker: int -> Result<Broker>,
    getBrokerConfigs: int -> Result<map<string, string>>,
    describeLogDirs: int -> Result<seq<LogDirInfo>>,
    listPartitionReassignments: Result<seq<PartitionReassignment>>,
    describeFeatures: Result<seq<KafkaFeature>>,
    describeMetadataQuorum: Result<QuorumInfo>,
    describeAcls: Result<seq<Acl>>,
    listTransactions: Result<seq<TransactionListing>>,
    describeTransaction: string -> Result<TransactionDetail>,
    describeClientQuotas: Result<seq<ClientQuota>>,
    describeDelegationTokens: Result<seq<DelegationToken>>,
    listShareGroupIds: Result<seq<string>>,
    describeShareGroup: string -> Result<ShareGroup>,
    describeUserScramCredentials: Result<seq<UserScramCredential>>)

  /** A listing operation fails only with the generic admin failure. */
  predicate ListingOutcome<T>(r: Result<T>)
  {
    r.Err? ==> r.error.AdminFailure?
  }

  /** A topic-scoped operation fails with the topic's "not found" or the generic failure. */
  predicate TopicOutcome<T>(r: Result<T>, topicName: string)
  {
    r.Err? ==> r.error == TopicNotFound(topicName) || r.error.AdminFailure?
  }

  predicate ConsumerGroupOutcome<T>(r: Result<T>, groupId: string)
  {
    r.Err? ==> r.error == ConsumerGroupNotFound(groupId) || r.error.AdminFailure?
  }

  predicate ShareGroupOutcome<T>(r: Result<T>, groupId: string)
  {
    r.Err? ==> r.error == ShareGroupNotFound(groupId) || r.error.AdminFailure?
  }

  predicate BrokerOutcome<T>(r: Result<T>, brokerId: int)
  {
    r.Err? ==> r.error == BrokerNotFound(brokerId) || r.error.AdminFailure?
  }

  predicate TransactionOutcome<T>(r: Result<T>, transactionalId: string)
  {
    r.Err? ==> r.error == TransactionNotFound(transactionalId) || r.error.AdminFailure?
  }

  /**
   * The interface's error contract. Dependent operations (partitions, producers, replica
   * log dirs, group offsets, broker configs and log dirs) declare their parent's
   * "not found", never one of their own.
   */
  ghost predicate Honours(p: Port)
  {
    && ListingOutcome(p.listTopicNames)
    && (forall n :: TopicOutcome(p.getTopic(n), n))
    && (forall n :: TopicOutcome(p.getTopicPartitions(n), n))
    && (forall n, k :: TopicOutcome(p.describeProducers(n, k), n))
    && (forall n :: TopicOutcome(p.describeReplicaLogDirs(n), n))
    && ListingOutcome(p.listConsumerGroupIds)
    && (forall g :: ConsumerGroupOutcome(p.getConsumerGroup(g), g))
    && (forall g :: ConsumerGroupOutcome(p.getConsumerGroupOffsets(g), g))
    && ListingOutcome(p.getClusterInfo)
    && ListingOutcome(p.listBrokers)
    && (forall b :: BrokerOutcome(p.getBroker(b), b))
    && (forall b :: BrokerOutcome(p.getBrokerConfigs(b), b))
    && (forall b :: BrokerOutcome(p.describeLogDirs(b), b))
    && ListingOutcome(p.listPartitionReassignments)
    && ListingOutcome(p.describeFeatures)
    && ListingOutcome(p.describeMetadataQuorum)
    && ListingOutcome(p.describeAcls)
    && ListingOutcome(p.listTransactions)
    && (forall t :: TransactionOutcome(p.describeTransaction(t), t))
    && ListingOutcome(p.describeClientQuotas)
    && ListingOutcome(p.describeDelegationTokens)
    && ListingOutcome(p.listShareGroupIds)
    && (forall g :: ShareGroupOutcome(p.describeShareGroup(g), g))
    && ListingOutcome(p.describeUserScramCredentials)
  }
}
