/**
 * The outcomes of the administration operations: a value, or one of the failures the
 * facade raises. The resource-specific "not found" failures carry the key the caller
 * asked for; every other failure is the generic admin failure with its message.
 */
module AdminErrors {
  import opened Decimal

  datatype Option<T> = None | Some(value: T)

  datatype AdminError =
    | TopicNotFound(topicName: string)
    | BrokerNotFound(brokerId: int)
    | ConsumerGroupNotFound(groupId: string)
    | ShareGroupNotFound(groupId: string)
    | TransactionNotFound(transactionalId: string)
    | AdminFailure(message: string)
  {
    predicate IsNotFound()
    {
      !AdminFailure?
    }
  }

  datatype Result<T> = Ok(value: T) | Err(error: AdminError)
  {
    predicate IsFailure()
    {
      Err?
    }

    function PropagateFailure<U>(): Result<U>
      requires Err?
    {
      Err(error)
    }

    function Extract(): T
      requires Ok?
    {
      value
    }
  }

  /**
   * Whether the failure is a `KafkaAdminException`: the four resource "not found"
   * exceptions extend it, the transaction one extends `RuntimeException` directly.
   */
  predicate IsKafkaAdminException(e: AdminError)
  {
    !e.TransactionNotFound?
  }

  /** The exception message the failure carries. */
  function Message(e: AdminError): string
  {
    match e
    case TopicNotFound(name) => "Topic '" + name + "' not found"
    case BrokerNotFound(id) => "Broker with ID '" + IntToString(id) + "' not found"
    case ConsumerGroupNotFound(id) => "Consumer group '" + id + "' not found"
    case ShareGroupNotFound(id) => "Share group '" + id + "' not found"
    case TransactionNotFound(id) => "Transaction with ID '" + id + "' not found"
    case AdminFailure(message) => message
  }

  lemma StripAffixes(p: string, k1: string, k2: string, s: string)
    requires p + k1 + s == p + k2 + s
    ensures k1 == k2
  {
    var m := p + k1 + s;
    assert |k1| == |k2|;
    assert k1 == m[|p|..|p| + |k1|];
    assert k2 == (p + k2 + s)[|p|..|p| + |k2|];
  }

  /**
   * The message of a "not found" failure embeds the requested key verbatim: two such
   * messages are equal only when they name the same kind of resource and the same key.
   */
  lemma NotFoundMessageDeterminesKey(e1: AdminError, e2: AdminError)
    requires e1.IsNotFound() && e2.IsNotFound()
    requires Message(e1) == Message(e2)
    ensures e1 == e2
  {
    var m := Message(e1);
    if e1.TopicNotFound? {
      assert m[0] == 'T' && m[1] == 'o';
      assert e2.TopicNotFound?;
      StripAffixes("Topic '", e1.topicName, e2.topicName, "' not found");
    } else if e1.BrokerNotFound? {
      assert m[0] == 'B';
      assert e2.BrokerNotFound?;
      StripAffixes("Broker with ID '", IntToString(e1.brokerId), IntToString(e2.brokerId), "' not found");
      IntToStringInjective(e1.brokerId, e2.brokerId);
    } else if e1.ConsumerGroupNotFound? {
      assert m[0] == 'C';
      assert e2.ConsumerGroupNotFound?;
      StripAffixes("Consumer group '", e1.groupId, e2.groupId, "' not found");
    } else if e1.ShareGroupNotFound? {
      assert m[0] == 'S';
      assert e2.ShareGroupNotFound?;
      StripAffixes("Share group '", e1.groupId, e2.groupId, "' not found");
    } else {
      assert m[0] == 'T' && m[1] == 'r';
      assert e2.TransactionNotFound?;
      StripAffixes("Transaction with ID '", e1.transactionalId, e2.transactionalId, "' not found");
    }
  }
}
