/** The transaction service: listings sorted by transactional id, and one transaction's details. */
module TransactionService {
  import opened AdminErrors
  import opened Domain
  import opened AdminPort
  import opened Ordering
  import opened Pipelines

  datatype TransactionListingResponse = TransactionListingResponse(
    transactionalId: string,
    producerId: int,
    state: string)
  {
    function ToListing(): TransactionListing
    {
      TransactionListing(transactionalId, producerId, state)
    }
  }

  function ListingResponseFrom(l: TransactionListing): (r: TransactionListingResponse)
    ensures r.ToListing() == l
  {
    TransactionListingResponse(l.transactionalId, l.producerId, l.state)
  }

  datatype TransactionTopicPartitionResponse = TransactionTopicPartitionResponse(
    topic: string,
    partition: int)
  {
    function ToPartition(): TransactionTopicPartition
    {
      TransactionTopicPartition(topic, partition)
    }
  }

  function PartitionResponseFrom(tp: TransactionTopicPartition): (r: TransactionTopicPartitionResponse)
    ensures r.ToPartition() == tp
  {
    TransactionTopicPartitionResponse(tp.topic, tp.partition)
  }

  datatype TransactionDetailResponse = TransactionDetailResponse(
    transactionalId: string,
    coordinatorId: int,
    state: string,
    producerId: int,
    producerEpoch: int,
    transactionTimeoutMs: int,
    transactionStartTimeMs: int,
    topicPartitions: seq<TransactionTopicPartitionResponse>)
  {
    function ToDetail(): TransactionDetail
    {
      TransactionDetail(transactionalId, coordinatorId, state, producerId, producerEpoch,
        transactionTimeoutMs, transactionStartTimeMs,
        seq(|topicPartitions|, i requires 0 <= i < |topicPartitions| => topicPartitions[i].ToPartition()))
    }
  }

  /** Every field is copied; the partitions keep the port's order. */
  function DetailFrom(d: TransactionDetail): (r: TransactionDetailResponse)
    ensures r.ToDetail() == d
  {
    var r := TransactionDetailResponse(d.transactionalId, d.coordinatorId, d.state, d.producerId, d.producerEpoch,
      d.transactionTimeoutMs, d.transactionStartTimeMs, MapSeq(d.topicPartitions, PartitionResponseFrom));
    assert r.ToDetail().topicPartitions == d.topicPartitions;
    r
  }

  function ListingKey(l: TransactionListingResponse): SortKey { [Str(l.transactionalId)] }

  /** `listTransactions`: sorted by transactional id. */
  function ListTransactions(p: Port): (r: Result<seq<TransactionListingResponse>>)
    ensures r.Ok? <==> p.listTransactions.Ok?
    ensures r.Err? ==> r.error == p.listTransactions.error
    ensures r.Ok? ==>
      var rows := MapSeq(p.listTransactions.value, ListingResponseFrom);
      multiset(r.value) == multiset(rows) && IsStableSortOf(r.value, rows, ListingKey)
    ensures r.Ok? ==> forall i, j :: 0 <= i < j < |r.value| ==>
      StrLe(r.value[i].transactionalId, r.value[j].transactionalId)
  {
    var listings :- p.listTransactions;
    var sorted := SortByKey(MapSeq(listings, ListingResponseFrom), ListingKey);
    assert forall i, j :: 0 <= i < j < |sorted| ==> StrLe(sorted[i].transactionalId, sorted[j].transactionalId) by {
      forall i, j | 0 <= i < j < |sorted|
        ensures StrLe(sorted[i].transactionalId, sorted[j].transactionalId)
      {
        KeyLeOne(Str(sorted[i].transactionalId), Str(sorted[j].transactionalId));
      }
    }
    Ok(sorted)
  }

  /** `getTransaction`: the port's description with every field copied. */
  function GetTransaction(p: Port, transactionalId: string): (r: Result<TransactionDetailResponse>)
    ensures r.Ok? <==> p.describeTransaction(transactionalId).Ok?
    ensures r.Ok? ==> r.value.ToDetail() == p.describeTransaction(transactionalId).value
    ensures r.Err? ==> r.error == p.describeTransaction(transactionalId).error
  {
    var detail :- p.describeTransaction(transactionalId);
    Ok(DetailFrom(detail))
  }
}
