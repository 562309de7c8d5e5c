# Kafka administration facade, modelled in Dafny

This project models the read-only core of a Kafka administration API:

- **The administration port** (`AdminPort`). About twenty read operations on a cluster snapshot, with their documented errors. Listings fail only with the generic admin failure. Keyed and dependent operations fail with the parent resource's "not found" or with the generic failure.
- **The AdminClient adapter** (`ClientAdapter`). It turns the raw answers of Kafka's `AdminClient` into domain records. It derives partition counts and replication factors, fills `-1` and `0` sentinels, and filters configuration entries. Topic configs degrade to an empty map when the fetch fails. Consumer lag is clamped at zero. Parents are verified before dependent data is fetched. Specific low-level causes are classified as "not found".
- **The nine resource services**: topics, cluster, consumer groups, share groups, ACLs, quotas, transactions, delegation tokens, users. Each calls the port, projects every record field for field into a response, and sorts it by a fixed key.
- **The connection settings' normalisation** (`AdminProperties`).

Modules:

- `AdminErrors`: the error taxonomy, `Result` and the exact error messages.
- `Decimal`: decimal rendering of integers.
- `Domain`: the port's records.
- `RawAdmin`: the AdminClient answers.
- `AdminPort`: the port and its error contract.
- `ClientAdapter`: the adapter.
- `Ordering`: comparator keys and the stable sort.
- `Pipelines`: list-then-describe and projection.
- One module per service.
- `AdminProperties`: the settings.

Modelling choices:

- **The port and the AdminClient are values.** A port is a record of results and of functions from keys to results. The AdminClient is a record of futures, each `Completed(value)` or `Failed(Interrupted | Execution(cause))`. Services work for any port. `ClientAdapter.Adapter` builds the adapter's port, and `ClientAdapter.AdapterHonoursPort` proves that it keeps the port's contract.
- **Hash maps.** A hash map the source iterates is a sequence of entries in iteration order, so the order is an input. A map the source only looks up is a Dafny `map`.
- **Sorting.** `Stream.sorted(Comparator)` is a stable sort by a key. The key is a sequence of parts (`Str` or `Num`) compared lexicographically, which models `comparing(...).thenComparing(...)`. `Ordering.SortByKey` is an insertion sort. `Ordering.StableSortUnique` shows that every stable sort gives the same result, so it stands for the library's sort.
- **Imperative code.** The two imperative fragments of the adapter are methods with loops, proved equal to the functions the adapter uses: the nested loops that collect replica requests (`CollectReplicas`) and the `forEach` that collects features (`CollectFeatures`).

## Model

| member | source | states |
|---|---|---|
| AdminErrors.NotFoundMessageDeterminesKey | src/main/java/com/kafkaadmin/topic/TopicNotFoundException.java:16 | Two "not found" errors with the same message are the same error: each message embeds its kind and the requested key verbatim (topic, broker, consumer group, share group, transaction texts). |
| Decimal.IntToStringInjective | src/main/java/com/kafkaadmin/cluster/BrokerNotFoundException.java:16 | The decimal rendering of a broker id used in messages and in the broker config resource name is injective. |
| Decimal.ParseNatToString | src/main/java/com/kafkaadmin/cluster/BrokerNotFoundException.java:16 | Reading back the decimal rendering of a natural number gives the number. |
| ClientAdapter.AdapterHonoursPort | src/main/java/com/kafkaadmin/common/KafkaAdminPort.java:30-239 | The adapter keeps the port's documented error contract: listings fail only with the generic failure; topic, group, broker and transaction operations fail with their parent's "not found" carrying the requested key or with the generic failure. |
| ClientAdapter.Failure | src/main/java/com/kafkaadmin/common/KafkaAdminClientAdapter.java:109-116 | A raw failure that is not reclassified becomes the generic admin failure, with the "interrupted" message when the thread was interrupted and the "failed" message otherwise. |
| ClientAdapter.CollectConfigs | src/main/java/com/kafkaadmin/common/KafkaAdminClientAdapter.java:126-130 | The collected map holds exactly the names of the reported entries, each mapped to a reported value of that name. |
| ClientAdapter.ListTopicNames | src/main/java/com/kafkaadmin/common/KafkaAdminClientAdapter.java:71-81 | Succeeds exactly when the raw listing completes, with its names; fails only with the generic failure. |
| ClientAdapter.PartitionInfo | src/main/java/com/kafkaadmin/common/KafkaAdminClientAdapter.java:93-97 | The leader is the leader node's id, or -1 when none is reported; the replica and in-sync lists are the ids of the reported nodes, in order. |
| ClientAdapter.TopicConfigs | src/main/java/com/kafkaadmin/common/KafkaAdminClientAdapter.java:120-138 | An interrupted config fetch is an error with its message; any other failed fetch degrades to the empty map; a completed fetch keeps exactly the non-default entries. |
| ClientAdapter.GetTopic | src/main/java/com/kafkaadmin/common/KafkaAdminClientAdapter.java:84-118 | NotFound(topic) exactly when the cause is an unknown topic; otherwise partitionCount is the number of partitions, replicationFactor the first partition's replica count or 0, and each partition is translated in order. |
| ClientAdapter.GetTopicPartitions | src/main/java/com/kafkaadmin/common/KafkaAdminClientAdapter.java:141-145 | The partitions of getTopic, with getTopic's errors. |
| ClientAdapter.ProducerStateOf | src/main/java/com/kafkaadmin/common/KafkaAdminClientAdapter.java:159-165 | Producer id, epoch, last sequence and last timestamp are copied; a missing coordinator epoch or transaction start offset becomes -1. |
| ClientAdapter.DescribeProducers | src/main/java/com/kafkaadmin/common/KafkaAdminClientAdapter.java:148-173 | Verifies the topic first, so an absent topic gives its NotFound before producers are asked for; succeeds exactly when both calls do. |
| ClientAdapter.ReplicaRequests | src/main/java/com/kafkaadmin/common/KafkaAdminClientAdapter.java:182-187 | The request set holds exactly every (partition, replica broker) pair of the topic, and is empty exactly when every partition has no replicas. |
| ClientAdapter.CollectReplicas | src/main/java/com/kafkaadmin/common/KafkaAdminClientAdapter.java:182-187 | The nested loops build exactly the request sequence ReplicaRequests describes. |
| ClientAdapter.ReplicaLogDirOf | src/main/java/com/kafkaadmin/common/KafkaAdminClientAdapter.java:198-208 | Broker and partition come from the request, log dirs and offset lags from the answer; each size is 0 when the answer's matching lag is non-negative, else -1. |
| ClientAdapter.DescribeReplicaLogDirs | src/main/java/com/kafkaadmin/common/KafkaAdminClientAdapter.java:176-217 | Verifies the topic first; an empty request set gives an empty result with no further call; otherwise succeeds exactly when the raw call completes, with one ReplicaLogDirOf per answered replica, in order. |
| ClientAdapter.ListConsumerGroupIds | src/main/java/com/kafkaadmin/common/KafkaAdminClientAdapter.java:220-233 | Succeeds exactly when the raw listing completes, with its ids; fails only with the generic failure. |
| ClientAdapter.AssignmentLabels | src/main/java/com/kafkaadmin/common/KafkaAdminClientAdapter.java:247-249 | One "topic-partition" label per assigned partition, in order. |
| ClientAdapter.CoordinatorId | src/main/java/com/kafkaadmin/common/KafkaAdminClientAdapter.java:256 | The coordinator's id, or -1 when there is none. |
| ClientAdapter.GetConsumerGroup | src/main/java/com/kafkaadmin/common/KafkaAdminClientAdapter.java:236-268 | NotFound(group) exactly when the cause is an unknown group id; on success the id is the requested one, state, partition assignor and coordinator are the description's, and each member is translated in order. |
| ClientAdapter.OffsetOf | src/main/java/com/kafkaadmin/common/KafkaAdminClientAdapter.java:295-306 | The lag is max(0, end - committed), hence never negative; topic, partition and both offsets are copied. |
| ClientAdapter.GetConsumerGroupOffsets | src/main/java/com/kafkaadmin/common/KafkaAdminClientAdapter.java:271-316 | Verifies the group first; then succeeds exactly when the committed offsets arrive and, if there are any, their end offsets too; no committed offsets gives an empty result; otherwise one OffsetOf per committed partition against the listed end offsets, so each lag is max(0, end - committed). |
| ClientAdapter.BrokerOf | src/main/java/com/kafkaadmin/common/KafkaAdminClientAdapter.java:327-333 | A broker is flagged controller exactly when its id is the controller's id; the node's fields are copied. |
| ClientAdapter.GetClusterInfo | src/main/java/com/kafkaadmin/common/KafkaAdminClientAdapter.java:319-347 | Succeeds exactly when the three raw answers complete; cluster id and controller id are the answers', and the brokers are BrokerOf of the nodes, in node order, with the controller flag exactly on the controller's id. |
| ClientAdapter.ListBrokers | src/main/java/com/kafkaadmin/common/KafkaAdminClientAdapter.java:350-353 | The brokers of getClusterInfo, with its errors. |
| ClientAdapter.FindFirst | src/main/java/com/kafkaadmin/common/KafkaAdminClientAdapter.java:358-360 | The index of the first broker with the id, or none exactly when no broker has it. |
| ClientAdapter.GetBroker | src/main/java/com/kafkaadmin/common/KafkaAdminClientAdapter.java:356-362 | NotFound(id) exactly when the listing succeeds and no broker has the id; when the listing succeeds, Ok exactly when some broker has the id, and then it is the first such broker. |
| ClientAdapter.GetBrokerConfigs | src/main/java/com/kafkaadmin/common/KafkaAdminClientAdapter.java:365-387 | Verifies the broker first; on success the map holds exactly the entries that are neither default nor sensitive. |
| ClientAdapter.LogDirOf | src/main/java/com/kafkaadmin/common/KafkaAdminClientAdapter.java:405-426 | Missing total or usable bytes become -1; path and error message are carried over, and each replica of the directory becomes a LogDirPartitionOf, in order. |
| ClientAdapter.LogDirPartitionOf | src/main/java/com/kafkaadmin/common/KafkaAdminClientAdapter.java:413-424 | Topic and partition come from the replica's key; size, offset lag and future flag from its info. |
| ClientAdapter.DescribeLogDirs | src/main/java/com/kafkaadmin/common/KafkaAdminClientAdapter.java:390-435 | Verifies the broker first; a broker missing from the answer gives an empty list; otherwise one entry per reported directory. |
| ClientAdapter.ListPartitionReassignments | src/main/java/com/kafkaadmin/common/KafkaAdminClientAdapter.java:438-462 | Succeeds exactly when the raw call completes, one entry per reported reassignment. |
| ClientAdapter.FeatureOf | src/main/java/com/kafkaadmin/common/KafkaAdminClientAdapter.java:474-483 | finalizedVersion is the finalized max level when the feature is finalized, else 0; name and version range are copied. |
| ClientAdapter.FeaturesOf | src/main/java/com/kafkaadmin/common/KafkaAdminClientAdapter.java:474-484 | One feature per supported feature, in iteration order. |
| ClientAdapter.CollectFeatures | src/main/java/com/kafkaadmin/common/KafkaAdminClientAdapter.java:471-486 | The forEach loop that appends to the list yields exactly FeaturesOf. |
| ClientAdapter.DescribeFeatures | src/main/java/com/kafkaadmin/common/KafkaAdminClientAdapter.java:465-493 | Succeeds exactly when the raw call completes, with FeaturesOf its answer. |
| ClientAdapter.QuorumReplicaOf | src/main/java/com/kafkaadmin/common/KafkaAdminClientAdapter.java:503-507 | Missing fetch and caught-up timestamps become -1. |
| ClientAdapter.QuorumReplicas | src/main/java/com/kafkaadmin/common/KafkaAdminClientAdapter.java:502-516 | One translated replica per voter or observer, in order. |
| ClientAdapter.DescribeMetadataQuorum | src/main/java/com/kafkaadmin/common/KafkaAdminClientAdapter.java:496-530 | Succeeds exactly when the raw call completes; leader id, leader epoch and high watermark are copied, voters and observers translated in order. |
| ClientAdapter.DescribeAcls | src/main/java/com/kafkaadmin/common/KafkaAdminClientAdapter.java:533-555 | Succeeds exactly when the raw call completes, one ACL per binding in order. |
| ClientAdapter.ListTransactions | src/main/java/com/kafkaadmin/common/KafkaAdminClientAdapter.java:558-576 | Succeeds exactly when the raw call completes, one listing per raw listing in order. |
| ClientAdapter.DescribeTransaction | src/main/java/com/kafkaadmin/common/KafkaAdminClientAdapter.java:579-607 | NotFound(id) exactly when the cause is an unknown transactional id, and that error alone is not an admin exception; on success coordinator, state, producer id and epoch and timeout are copied, a missing start time becomes -1, and the partitions are kept in order. |
| ClientAdapter.EntityQuotas | src/main/java/com/kafkaadmin/common/KafkaAdminClientAdapter.java:622-626 | One quota per entry of the entity, in entry order, with the entry's type and name and the entity's whole quota map. |
| ClientAdapter.QuotasOf | src/main/java/com/kafkaadmin/common/KafkaAdminClientAdapter.java:616-628 | The flattened quotas are exactly the quotas of some entity. |
| ClientAdapter.QuotasOfAppend | src/main/java/com/kafkaadmin/common/KafkaAdminClientAdapter.java:616-628 | The flattening keeps order and multiplicity: the quotas of concatenated entity lists are the concatenation of their quotas. |
| ClientAdapter.QuotasOfSingle | src/main/java/com/kafkaadmin/common/KafkaAdminClientAdapter.java:616-628 | A single entity contributes exactly its own EntityQuotas. |
| ClientAdapter.DescribeClientQuotas | src/main/java/com/kafkaadmin/common/KafkaAdminClientAdapter.java:610-635 | Succeeds exactly when the raw call completes, with the flattened quotas. |
| ClientAdapter.DescribeDelegationTokens | src/main/java/com/kafkaadmin/common/KafkaAdminClientAdapter.java:638-663 | Succeeds exactly when the raw call completes, one token per raw token in order. |
| ClientAdapter.ListShareGroupIds | src/main/java/com/kafkaadmin/common/KafkaAdminClientAdapter.java:666-680 | Succeeds exactly when the raw listing completes, with its ids. |
| ClientAdapter.DescribeShareGroup | src/main/java/com/kafkaadmin/common/KafkaAdminClientAdapter.java:683-714 | NotFound(group) exactly when the cause is an unknown group id. |
| ClientAdapter.ScramCredentialOf | src/main/java/com/kafkaadmin/common/KafkaAdminClientAdapter.java:725-734 | The user's name is kept and each credential info becomes one with the same mechanism name and iterations, in order. |
| ClientAdapter.DescribeUserScramCredentials | src/main/java/com/kafkaadmin/common/KafkaAdminClientAdapter.java:717-743 | Succeeds exactly when the raw call completes, one credential per user. |
| Ordering.SortByKey | src/main/java/com/kafkaadmin/topic/TopicService.java:58-63 | The sort behind every sorted(Comparator) call: same length and multiset, sorted by the key, and every key's elements in input order. |
| Ordering.StableSortUnique | src/main/java/com/kafkaadmin/topic/TopicService.java:58-63 | Two sorted sequences that order every key's elements alike are equal, so a stable sort's result is unique. |
| Ordering.StableSortIsSortByKey | src/main/java/com/kafkaadmin/topic/TopicService.java:58-63 | A sequence is a stable sort of the input exactly when it is SortByKey's result. |
| Ordering.KeyLeTwo | src/main/java/com/kafkaadmin/cluster/ClusterService.java:84-85 | comparing(a).thenComparing(b) orders by a, and by b among equal a. |
| Ordering.KeyLeThree | src/main/java/com/kafkaadmin/acl/AclService.java:29-31 | A three-field thenComparing chain orders field by field. |
| Ordering.StrLtTotal | src/main/java/com/kafkaadmin/cluster/ClusterService.java:72 | String comparison is total: of two different strings one is smaller. |
| Ordering.StrLtTransitive | src/main/java/com/kafkaadmin/cluster/ClusterService.java:72 | String comparison is transitive. |
| Pipelines.DescribeEach | src/main/java/com/kafkaadmin/topic/TopicService.java:32-33 | Describing each listed key succeeds exactly when every description does, with the descriptions in list order; otherwise the error of the first failing key. |
| Pipelines.MapSeq | src/main/java/com/kafkaadmin/topic/TopicService.java:34 | A field-for-field projection keeps length and order. |
| TopicService.ListTopics | src/main/java/com/kafkaadmin/topic/TopicService.java:31-37 | One describe per listed name; any failing describe fails the listing with the first failure; the result is a stable sort by name of the summaries and a permutation of them; no names gives an empty list. |
| TopicService.ListedTopicFailure | src/main/java/com/kafkaadmin/topic/TopicService.java:32-33 | Against a port that keeps its contract, a failed listing is the generic failure or the NotFound of a listed name. |
| TopicService.TopicResponseFrom | src/main/java/com/kafkaadmin/topic/TopicResponse.java:27-33 | The summary keeps the topic's name, partition count, replication factor and internal flag. |
| TopicService.GetTopic | src/main/java/com/kafkaadmin/topic/TopicService.java:46-49 | Every field is copied and the partitions keep the port's order; the port's error passes through. |
| TopicService.TopicDetailFrom | src/main/java/com/kafkaadmin/topic/TopicDetailResponse.java:38-48 | The response maps back to exactly the topic it came from. |
| TopicService.GetTopicPartitions | src/main/java/com/kafkaadmin/topic/TopicService.java:58-63 | A stable sort by partition number and a permutation of the port's partitions. |
| TopicService.DescribeProducers | src/main/java/com/kafkaadmin/topic/TopicService.java:73-78 | A stable sort by producer id and a permutation of the port's producers. |
| TopicService.DescribeReplicaLogDirs | src/main/java/com/kafkaadmin/topic/TopicService.java:87-93 | Sorted by broker id, then partition; stable and a permutation of the port's entries. |
| TopicService.PartitionResponseFrom | src/main/java/com/kafkaadmin/topic/TopicPartitionInfoResponse.java:29-35 | Every field is copied. |
| TopicService.ProducerResponseFrom | src/main/java/com/kafkaadmin/topic/ProducerStateResponse.java:35-44 | Every field is copied. |
| TopicService.ReplicaLogDirResponseFrom | src/main/java/com/kafkaadmin/topic/ReplicaLogDirInfoResponse.java:43-54 | Every field is copied. |
| ClusterService.GetClusterInfo | src/main/java/com/kafkaadmin/cluster/ClusterService.java:32-35 | brokerCount is the number of brokers, and the brokers keep the port's order with every field copied. |
| ClusterService.ClusterInfoFrom | src/main/java/com/kafkaadmin/cluster/ClusterInfoResponse.java:29-37 | The summary counts the brokers and copies each in order. |
| ClusterService.BrokerResponseFrom | src/main/java/com/kafkaadmin/cluster/BrokerResponse.java:31-38 | Every field is copied. |
| ClusterService.ListBrokers | src/main/java/com/kafkaadmin/cluster/ClusterService.java:42-47 | Sorted ascending by id; stable and a permutation of the port's brokers, hence the same length. |
| ClusterService.GetBroker | src/main/java/com/kafkaadmin/cluster/ClusterService.java:56-60 | The broker is looked up first, so its NotFound passes through unchanged; the configs are passed through untouched. |
| ClusterService.GetBrokerLogDirs | src/main/java/com/kafkaadmin/cluster/ClusterService.java:69-74 | Sorted by path; stable and a permutation of the port's directories. |
| ClusterService.LogDirFrom | src/main/java/com/kafkaadmin/cluster/LogDirInfoResponse.java:33-43 | Every field is copied and the partitions keep their order. |
| ClusterService.LogDirPartitionFrom | src/main/java/com/kafkaadmin/cluster/LogDirPartitionResponse.java:31-39 | Every field is copied. |
| ClusterService.ListPartitionReassignments | src/main/java/com/kafkaadmin/cluster/ClusterService.java:81-87 | Sorted by topic, then partition; stable and a permutation of the port's reassignments. |
| ClusterService.ReassignmentFrom | src/main/java/com/kafkaadmin/cluster/PartitionReassignmentResponse.java:33-41 | Every field is copied. |
| ClusterService.DescribeFeatures | src/main/java/com/kafkaadmin/cluster/ClusterService.java:94-99 | Sorted by name; stable and a permutation of the port's features. |
| ClusterService.FeatureFrom | src/main/java/com/kafkaadmin/cluster/KafkaFeatureResponse.java:27-34 | Every field is copied. |
| ClusterService.DescribeMetadataQuorum | src/main/java/com/kafkaadmin/cluster/ClusterService.java:106-109 | Every field is copied; voters and observers keep their order. |
| ClusterService.QuorumFrom | src/main/java/com/kafkaadmin/cluster/QuorumInfoResponse.java:33-41 | The response maps back to exactly the quorum it came from. |
| ClusterService.QuorumReplicaFrom | src/main/java/com/kafkaadmin/cluster/QuorumReplicaResponse.java:27-34 | Every field is copied. |
| ConsumerGroupService.ListConsumerGroups | src/main/java/com/kafkaadmin/consumergroup/ConsumerGroupService.java:31-37 | One describe per listed id; any failure fails the listing; a stable sort by group id and a permutation of the summaries. |
| ConsumerGroupService.ListedGroupFailure | src/main/java/com/kafkaadmin/consumergroup/ConsumerGroupService.java:32-33 | Against a port that keeps its contract, a failed listing is the generic failure or the NotFound of a listed id. |
| ConsumerGroupService.GroupResponseFrom | src/main/java/com/kafkaadmin/consumergroup/ConsumerGroupResponse.java:23-28 | memberCount is the number of members. |
| ConsumerGroupService.GetConsumerGroup | src/main/java/com/kafkaadmin/consumergroup/ConsumerGroupService.java:46-49 | Every field is copied and members keep their order; the port's NotFound carrying the id passes through. |
| ConsumerGroupService.GroupDetailFrom | src/main/java/com/kafkaadmin/consumergroup/ConsumerGroupDetailResponse.java:33-42 | The response maps back to exactly the group it came from. |
| ConsumerGroupService.MemberResponseFrom | src/main/java/com/kafkaadmin/consumergroup/ConsumerGroupMemberResponse.java:29-35 | Every field is copied. |
| ConsumerGroupService.GetConsumerGroupOffsets | src/main/java/com/kafkaadmin/consumergroup/ConsumerGroupService.java:58-64 | Sorted by topic, then partition; stable and a permutation of the port's offsets. |
| ConsumerGroupService.OffsetResponseFrom | src/main/java/com/kafkaadmin/consumergroup/ConsumerGroupOffsetResponse.java:31-38 | Every field, the lag included, is copied. |
| ConsumerGroupService.OffsetsScenario | src/test/java/com/kafkaadmin/consumergroup/ConsumerGroupServiceTest.java:90-112 | The offsets b/0, a/1, a/0 come back as a/0, a/1, b/0. |
| ConsumerGroupService.ScenarioSortedIsStable | src/test/java/com/kafkaadmin/consumergroup/ConsumerGroupServiceTest.java:106-111 | The expected order of that scenario is a stable sort of its rows. |
| ShareGroupService.ListShareGroups | src/main/java/com/kafkaadmin/sharegroup/ShareGroupService.java:31-37 | One describe per listed id; any failure fails the listing; no ids gives an empty list; a stable sort by group id and a permutation of the summaries. |
| ShareGroupService.ListedGroupFailure | src/main/java/com/kafkaadmin/sharegroup/ShareGroupService.java:32-33 | Against a port that keeps its contract, a failed listing is the generic failure or the NotFound of a listed id. |
| ShareGroupService.GroupResponseFrom | src/main/java/com/kafkaadmin/sharegroup/ShareGroupResponse.java:23-28 | memberCount is the number of members. |
| ShareGroupService.GetShareGroup | src/main/java/com/kafkaadmin/sharegroup/ShareGroupService.java:46-49 | Every field is copied and members keep their order; the port's error passes through. |
| ShareGroupService.GroupDetailFrom | src/main/java/com/kafkaadmin/sharegroup/ShareGroupDetailResponse.java:29-37 | The response maps back to exactly the group it came from. |
| ShareGroupService.MemberResponseFrom | src/main/java/com/kafkaadmin/sharegroup/ShareGroupMemberResponse.java:29-35 | Every field is copied. |
| AclService.ListAcls | src/main/java/com/kafkaadmin/acl/AclService.java:26-33 | Sorted by resource type, resource name, then principal; stable, so entries equal on all three keep port order; a permutation of the port's ACLs; empty exactly when the port's list is. |
| AclService.AclResponseFrom | src/main/java/com/kafkaadmin/acl/AclResponse.java:39-49 | All seven fields are copied. |
| QuotaService.ListQuotas | src/main/java/com/kafkaadmin/quota/QuotaService.java:26-32 | Sorted by entity type, then entity name with a missing name compared as ""; stable and a permutation; empty exactly when the port's list is. |
| QuotaService.SortName | src/main/java/com/kafkaadmin/quota/QuotaService.java:30 | A missing name compares as the empty string; a present one as itself. |
| QuotaService.UnnamedLeadsItsType | src/main/java/com/kafkaadmin/quota/QuotaService.java:30 | Within one entity type, an unnamed quota is preceded only by quotas whose compared name is empty. |
| QuotaService.QuotaResponseFrom | src/main/java/com/kafkaadmin/quota/ClientQuotaResponse.java:25-31 | Type, name (missing included) and quota map are copied. |
| TransactionService.ListTransactions | src/main/java/com/kafkaadmin/transaction/TransactionService.java:26-31 | Sorted by transactional id; stable and a permutation of the port's listings. |
| TransactionService.ListingResponseFrom | src/main/java/com/kafkaadmin/transaction/TransactionListingResponse.java:23-29 | Every field is copied. |
| TransactionService.GetTransaction | src/main/java/com/kafkaadmin/transaction/TransactionService.java:40-43 | Every field is copied and topic-partitions keep their order; the port's NotFound carrying the id passes through. |
| TransactionService.DetailFrom | src/main/java/com/kafkaadmin/transaction/TransactionDetailResponse.java:45-58 | The response maps back to exactly the detail it came from. |
| TransactionService.PartitionResponseFrom | src/main/java/com/kafkaadmin/transaction/TransactionTopicPartitionResponse.java:19-21 | Both fields are copied. |
| TokenService.ListTokens | src/main/java/com/kafkaadmin/token/TokenService.java:26-31 | Sorted by token id; stable and a permutation of the port's tokens; empty exactly when the port's list is. |
| TokenService.TokenResponseFrom | src/main/java/com/kafkaadmin/token/DelegationTokenResponse.java:41-51 | Every field, renewers and timestamps included, is copied. |
| UserService.ListScramCredentials | src/main/java/com/kafkaadmin/user/UserService.java:26-31 | Sorted by user name; stable and a permutation of the port's credentials; empty exactly when the port's list is. |
| UserService.CredentialResponseFrom | src/main/java/com/kafkaadmin/user/UserScramCredentialResponse.java:21-28 | The name is copied and the credential infos keep their order. |
| UserService.InfoResponseFrom | src/main/java/com/kafkaadmin/user/ScramCredentialInfoResponse.java:19-21 | Mechanism and iterations are copied. |
| AdminProperties.Normalize | src/main/java/com/kafkaadmin/common/KafkaAdminProperties.java:22-35 | A missing or blank address becomes "localhost:9092", a non-positive request timeout 30000, a non-positive API timeout 60000, a missing or blank client id "kafka-admin-api"; valid values pass through; the result has positive timeouts and non-blank strings. |
| AdminProperties.NormalizeFixesExactlyNormal | src/main/java/com/kafkaadmin/common/KafkaAdminProperties.java:22-35 | Normalisation leaves a record unchanged exactly when it already has positive timeouts and non-blank strings. |
| AdminProperties.NormalizeIdempotent | src/main/java/com/kafkaadmin/common/KafkaAdminProperties.java:22-35 | Normalising twice is normalising once. |

## Left out

- Futures, threads and the interrupt flag: a future is its outcome (completed, interrupted, or failed with a cause); re-setting the interrupt flag and logging are not modelled.
- Exception causes: the generic admin failure keeps its message, not the wrapped cause object.
- Controllers, the global exception handler, error responses (which read the clock), the Spring configuration and application class, and the `*Dto` records are not part of this model.
- Quota values are Java doubles that are only passed through; they are `real` here, with no floating-point behaviour.
- Java `int`, `long` and `short` are unbounded integers. The lag subtraction `end - committed` cannot overflow here, and version numbers are not truncated to 16 bits.
- String order is by Unicode scalar value. Java's `String.compareTo` compares UTF-16 code units, which differs only for characters outside the Basic Multilingual Plane.
- `Collectors.toMap` throws on a duplicate key or a null value. That library failure is not modelled: config entries are assumed to have distinct names and non-null values.
- Null dereferences are not modelled: a null controller node, a config resource missing from the answer, a committed partition missing from the end offsets (end offsets are a total function), a null committed offset.
- Nullable pass-through strings (rack, future log dir, host) are plain strings. Only the nullables the code tests or defaults (leader, coordinator, optional sizes and timestamps, log-dir error, quota entity name, settings) are `Option`s.
- Concurrency: each call is one evaluation against one snapshot; races between the verification and the fetch are not modelled.
- `ClientAdapter.Adapter` defines the port from the translation functions, so its contract lives in `AdapterHonoursPort` instead of on the function.
