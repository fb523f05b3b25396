/** The observable side effects of the consumer, in the order they happen: building,
    subscribing and closing the broker client, logging, the recreate delay, creating and
    disposing the flow manager, and handler invocations. */
module Events {

  import opened KafkaTypes

  const FatalErrorMessage: string := "Kafka Consumer fatal error occurred. Recreating consumer in 5 seconds"
  const ErrorMessage: string := "Kafka Consumer Error"

  /** Milliseconds the consume loop waits before recreating the client after a fatal error. */
  const RecreateDelayMs: nat := 5000

  /** The argument a fan-out passes to each handler of its list. */
  datatype Payload =
    | AssignedPartitions(partitions: seq<TopicPartition>)
    | RevokedPartitions(offsets: seq<TopicPartitionOffset>)
    | ErrorReported(error: KafkaError)
    | StatisticsReported(statistics: string)

  /** The consumer state a handler can observe while it runs. */
  datatype Visible = Visible(assignment: seq<TopicPartition>, hasFlowManager: bool)

  datatype Event =
    | Built(client: ClientIdentity)
    | Subscribed(topics: seq<string>)
    | Closed
    | Logged(message: string, failure: Failure)
    | DelayStarted(milliseconds: nat)
    | FlowManagerCreated
    | FlowManagerDisposed
    | HandlerInvoked(handler: Handler, payload: Payload, visible: Visible)

  predicate IsSubscription(e: Event) { e.Subscribed? }
  predicate IsClose(e: Event) { e.Closed? }
  predicate IsLog(e: Event) { e.Logged? }
  predicate IsInvocation(e: Event) { e.HandlerInvoked? }

  /** The invocations `List.ForEach` makes over a handler list: every handler once, in list
      order, each with the same payload and seeing the same state. */
  function FanOut(handlers: seq<Handler>, payload: Payload, visible: Visible): (calls: seq<Event>)
    ensures |calls| == |handlers|
    ensures forall i :: 0 <= i < |handlers| ==> calls[i] == HandlerInvoked(handlers[i], payload, visible)
  {
    if handlers == [] then []
    else FanOut(handlers[..|handlers| - 1], payload, visible)
         + [HandlerInvoked(handlers[|handlers| - 1], payload, visible)]
  }

  /** The handler list the constructor builds from configuration-declared handlers: one
      adapter per declared handler, in declaration order. */
  function Adapt(configured: seq<HandlerId>): (handlers: seq<Handler>)
    ensures |handlers| == |configured|
    ensures forall i :: 0 <= i < |configured| ==> handlers[i] == Adapted(configured[i])
  {
    if configured == [] then []
    else Adapt(configured[..|configured| - 1]) + [Adapted(configured[|configured| - 1])]
  }

  /** Adapting one more declared handler appends its adapter. */
  lemma AdaptPrefix(configured: seq<HandlerId>, i: nat)
    requires i < |configured|
    ensures Adapt(configured[..i + 1]) == Adapt(configured[..i]) + [Adapted(configured[i])]
  {
    assert configured[..i + 1][..i] == configured[..i];
  }

  /** The configuration-declared handlers lead the list. */
  ghost predicate ConfiguredFirst(handlers: seq<Handler>, configured: seq<HandlerId>)
  {
    |configured| <= |handlers| && handlers[..|configured|] == Adapt(configured)
  }

  /** Fanning out over a list whose configuration-declared handlers lead invokes all of those
      first, in declaration order, and every later-registered handler after them. */
  lemma ConfiguredHandlersRunFirst(handlers: seq<Handler>, configured: seq<HandlerId>, payload: Payload, visible: Visible)
    requires ConfiguredFirst(handlers, configured)
    ensures FanOut(handlers, payload, visible)
            == FanOut(Adapt(configured), payload, visible)
               + FanOut(handlers[|configured|..], payload, visible)
  {
  }

  lemma FanOutAppend(a: seq<Handler>, b: seq<Handler>, payload: Payload, visible: Visible)
    ensures FanOut(a + b, payload, visible) == FanOut(a, payload, visible) + FanOut(b, payload, visible)
  {
  }

  /** Appending a handler appends exactly one invocation at the end. */
  lemma FanOutSnoc(handlers: seq<Handler>, h: Handler, payload: Payload, visible: Visible)
    ensures FanOut(handlers + [h], payload, visible)
            == FanOut(handlers, payload, visible) + [HandlerInvoked(h, payload, visible)]
  {
  }

  /** Counts the elements of `s` that satisfy `p`. */
  function CountIf<T>(s: seq<T>, p: T -> bool): (n: nat)
    ensures n <= |s|
  {
    if s == [] then 0
    else (if p(s[0]) then 1 else 0) + CountIf(s[1..], p)
  }

  lemma {:induction false} CountIfAppend<T>(a: seq<T>, b: seq<T>, p: T -> bool)
    ensures CountIf(a + b, p) == CountIf(a, p) + CountIf(b, p)
  {
    if a != [] {
      assert (a + b)[1..] == a[1..] + b;
      CountIfAppend(a[1..], b, p);
    } else {
      assert a + b == b;
    }
  }
}
