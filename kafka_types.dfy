/** Values the consumer session manager works with: partitions, errors, the outcome of one
    pull from the broker client, and the consumer configuration it is built from. */
module KafkaTypes {

  datatype Option<+T> = None | Some(value: T)

  /** Identifies a handler delegate; delegates themselves are opaque to the consumer. */
  type HandlerId = nat

  datatype TopicPartition = TopicPartition(topic: string, partition: int)

  datatype TopicPartitionOffset = TopicPartitionOffset(topic: string, partition: int, offset: int)

  /** An error reported by the broker client; `isFatal` is the client's own classification. */
  datatype KafkaError = KafkaError(code: int, reason: string, isFatal: bool)

  /** An exception other than cancellation escaping from building the client or pulling. */
  datatype Failure =
    | KafkaException(error: KafkaError)
    | OtherException(message: string)

  datatype ConsumeRecord = ConsumeRecord(position: TopicPartitionOffset, key: seq<bv8>, value: seq<bv8>)

  /** What one pull from the broker client does. */
  datatype PullOutcome =
    | Pulled(record: ConsumeRecord)
    | Canceled                        // OperationCanceledException
    | Failed(failure: Failure)

  /** How the recreate delay after a fatal error ends. */
  datatype DelayOutcome = Elapsed | DelayCanceled

  /** What the broker client reports about itself once built. */
  datatype ClientIdentity = ClientIdentity(name: string, memberId: string)

  /** One iteration of the consume loop as the environment plays it: the identity the client
      would have if it is built in this iteration, the pull's outcome, and how the recreate
      delay would end should the pull fail fatally. */
  datatype Attempt = Attempt(client: ClientIdentity, pull: PullOutcome, delay: DelayOutcome)

  /** A live broker client: its identity and the topics it is subscribed to. */
  datatype Transport = Transport(client: ClientIdentity, subscription: seq<string>)

  /** The identity of the live client, absent exactly when there is none. */
  function ClientOf(t: Option<Transport>): (c: Option<ClientIdentity>)
    ensures c.None? <==> t.None?
  {
    match t
    case None => None
    case Some(transport) => Some(transport.client)
  }

  /** The parts of the consumer configuration the session manager reads. */
  datatype ConsumerConfiguration = ConsumerConfiguration(
    topics: seq<string>,
    statisticsHandlers: seq<HandlerId>,
    partitionsAssignedHandlers: seq<HandlerId>,
    partitionsRevokedHandlers: seq<HandlerId>)

  /** An entry of one of the consumer's handler lists: either the adapter the constructor
      wraps around a configuration-declared handler (it drops the client argument), or a
      handler registered directly through one of the `On...` methods. */
  datatype Handler =
    | Adapted(configured: HandlerId)
    | Registered(id: HandlerId)
}
