/** The consumer session manager: it owns a broker client that may be absent, rebuilds it
    lazily, reacts to the client's assignment, revocation, error and statistics callbacks,
    and fans each of them out to its handler lists. */
module Consumers {

  import opened KafkaTypes
  import opened Events
  import opened StatusRule
  import opened ConsumeLoop

  /** The per-assignment flow manager, seen from the consumer: the partitions it has paused
      and whether it has been disposed. */
  class FlowManager {
    var pausedPartitions: seq<TopicPartition>
    var disposed: bool
    ghost var disposals: nat

    constructor ()
      ensures pausedPartitions == [] && !disposed && disposals == 0
    {
      pausedPartitions := [];
      disposed := false;
      disposals := 0;
    }

    method Dispose()
      modifies this
      ensures disposed && disposals == old(disposals) + 1
      ensures pausedPartitions == old(pausedPartitions)
    {
      disposed := true;
      disposals := disposals + 1;
    }

    /** Stands for the flow manager's own pause and resume, whose policy is not modelled. */
    method SetPausedPartitions(partitions: seq<TopicPartition>)
      modifies this`pausedPartitions
      ensures pausedPartitions == partitions
    {
      pausedPartitions := partitions;
    }
  }

  /** What a broker callback did. The revocation callback throws before changing anything
      when there is no flow manager to dispose. */
  datatype CallbackOutcome = Completed | NullReferenceThrown

  class Consumer {
    const configuration: ConsumerConfiguration

    var partitionsAssignedHandlers: seq<Handler>
    var partitionsRevokedHandlers: seq<Handler>
    var errorsHandlers: seq<Handler>
    var statisticsHandlers: seq<Handler>

    var transport: Option<Transport>
    var assignment: seq<TopicPartition>
    var flowManager: FlowManager?

    /** Everything the consumer has done that is observable outside it, in order. */
    ghost var trace: seq<Event>

    ghost predicate Valid()
      reads this, flowManager
    {
      && (flowManager != null ==> !flowManager.disposed && flowManager.disposals == 0)
      && (flowManager == null ==> assignment == [])
      && (transport.Some? ==> transport.value.subscription == configuration.topics)
      && ConfiguredFirst(statisticsHandlers, configuration.statisticsHandlers)
      && ConfiguredFirst(partitionsAssignedHandlers, configuration.partitionsAssignedHandlers)
      && ConfiguredFirst(partitionsRevokedHandlers, configuration.partitionsRevokedHandlers)
    }

    /** Registers an adapter for every configuration-declared statistics, assigned and revoked
        handler, in configuration order; nothing else is set up until the first consume. */
    constructor (configuration: ConsumerConfiguration)
      ensures Valid()
      ensures this.configuration == configuration
      ensures statisticsHandlers == Adapt(configuration.statisticsHandlers)
      ensures partitionsAssignedHandlers == Adapt(configuration.partitionsAssignedHandlers)
      ensures partitionsRevokedHandlers == Adapt(configuration.partitionsRevokedHandlers)
      ensures errorsHandlers == []
      ensures transport == None && assignment == [] && flowManager == null && trace == []
    {
      this.configuration := configuration;
      partitionsAssignedHandlers, partitionsRevokedHandlers := [], [];
      errorsHandlers, statisticsHandlers := [], [];
      transport, assignment, flowManager := None, [], null;
      trace := [];
      new;
      RegisterConfiguredHandlers();
    }

    /** The constructor's three `foreach` loops: one adapter per configuration-declared
        statistics, assigned and revoked handler, appended in configuration order. */
    method RegisterConfiguredHandlers()
      requires statisticsHandlers == partitionsAssignedHandlers == partitionsRevokedHandlers == []
      modifies this`statisticsHandlers, this`partitionsAssignedHandlers, this`partitionsRevokedHandlers
      ensures statisticsHandlers == Adapt(configuration.statisticsHandlers)
      ensures partitionsAssignedHandlers == Adapt(configuration.partitionsAssignedHandlers)
      ensures partitionsRevokedHandlers == Adapt(configuration.partitionsRevokedHandlers)
    {
      var declared := configuration.statisticsHandlers;
      for i := 0 to |declared|
        modifies this`statisticsHandlers
        invariant statisticsHandlers == Adapt(declared[..i])
      {
        AdaptPrefix(declared, i);
        OnStatistics(Adapted(declared[i]));
      }
      assert declared[..|declared|] == declared;
      declared := configuration.partitionsAssignedHandlers;
      for i := 0 to |declared|
        modifies this`partitionsAssignedHandlers
        invariant partitionsAssignedHandlers == Adapt(declared[..i])
      {
        AdaptPrefix(declared, i);
        OnPartitionsAssigned(Adapted(declared[i]));
      }
      assert declared[..|declared|] == declared;
      declared := configuration.partitionsRevokedHandlers;
      for i := 0 to |declared|
        modifies this`partitionsRevokedHandlers
        invariant partitionsRevokedHandlers == Adapt(declared[..i])
      {
        AdaptPrefix(declared, i);
        OnPartitionsRevoked(Adapted(declared[i]));
      }
      assert declared[..|declared|] == declared;
    }

    /** The client's subscription, absent exactly when there is no client. */
    function Subscription(): (topics: Option<seq<string>>)
      reads this, flowManager
      requires Valid()
      ensures topics.None? <==> transport.None?
      ensures topics.Some? ==> topics.value == configuration.topics
    {
      match transport
      case None => None
      case Some(t) => Some(t.subscription)
    }

    /** The client's group member id, absent exactly when there is no client. */
    function MemberId(): (id: Option<string>)
      reads this
      ensures id.None? <==> transport.None?
    {
      match transport
      case None => None
      case Some(t) => Some(t.client.memberId)
    }

    /** The client's instance name, absent exactly when there is no client. */
    function ClientInstanceName(): (name: Option<string>)
      reads this
      ensures name.None? <==> transport.None?
    {
      match transport
      case None => None
      case Some(t) => Some(t.client.name)
    }

    /** The `Status` getter: Stopped exactly when there is no flow manager; otherwise Running
        when nothing is paused, Paused when as many partitions are paused as are assigned, and
        PartiallyRunning when some are paused but not as many as are assigned. */
    function Status(): (s: ConsumerStatus)
      reads this, flowManager
      ensures s == Stopped <==> flowManager == null
      ensures s == Running <==> flowManager != null && |flowManager.pausedPartitions| == 0
      ensures s == Paused <==> flowManager != null && |flowManager.pausedPartitions| != 0
                                 && |flowManager.pausedPartitions| == |assignment|
      ensures s == PartiallyRunning <==> flowManager != null && |flowManager.pausedPartitions| != 0
                                           && |flowManager.pausedPartitions| != |assignment|
    {
      if flowManager == null then Stopped
      else DeriveStatus(Some(|flowManager.pausedPartitions|), |assignment|)
    }

    method OnPartitionsAssigned(handler: Handler)
      modifies this`partitionsAssignedHandlers
      ensures partitionsAssignedHandlers == old(partitionsAssignedHandlers) + [handler]
      ensures old(Valid()) ==> Valid()
    {
      partitionsAssignedHandlers := partitionsAssignedHandlers + [handler];
    }

    method OnPartitionsRevoked(handler: Handler)
      modifies this`partitionsRevokedHandlers
      ensures partitionsRevokedHandlers == old(partitionsRevokedHandlers) + [handler]
      ensures old(Valid()) ==> Valid()
    {
      partitionsRevokedHandlers := partitionsRevokedHandlers + [handler];
    }

    method OnError(handler: Handler)
      modifies this`errorsHandlers
      ensures errorsHandlers == old(errorsHandlers) + [handler]
      ensures old(Valid()) ==> Valid()
    {
      errorsHandlers := errorsHandlers + [handler];
    }

    method OnStatistics(handler: Handler)
      modifies this`statisticsHandlers
      ensures statisticsHandlers == old(statisticsHandlers) + [handler]
      ensures old(Valid()) ==> Valid()
    {
      statisticsHandlers := statisticsHandlers + [handler];
    }

    /** `List.ForEach` over one handler list: each handler is invoked once, in order, with the
        same payload, and sees the consumer's current assignment and flow manager. */
    method Notify(handlers: seq<Handler>, payload: Payload)
      modifies this`trace
      ensures trace == old(trace) + FanOut(handlers, payload, Visible(assignment, flowManager != null))
    {
      var visible := Visible(assignment, flowManager != null);
      for i := 0 to |handlers|
        invariant trace == old(trace) + FanOut(handlers[..i], payload, visible)
      {
        trace := trace + [HandlerInvoked(handlers[i], payload, visible)];
        assert handlers[..i + 1][..i] == handlers[..i];
      }
      assert handlers[..|handlers|] == handlers;
    }

    /** The partitions-assigned callback: a new flow manager, the new assignment, and only then
        the assigned handlers, which see both. The previous flow manager is not disposed. */
    method PartitionsAssigned(partitions: seq<TopicPartition>)
      requires Valid()
      modifies this`flowManager, this`assignment, this`trace
      ensures Valid()
      ensures flowManager != null && fresh(flowManager) && flowManager.pausedPartitions == []
      ensures assignment == partitions
      ensures trace == old(trace) + [FlowManagerCreated]
                       + FanOut(partitionsAssignedHandlers, AssignedPartitions(partitions), Visible(partitions, true))
    {
      flowManager := new FlowManager();
      trace := trace + [FlowManagerCreated];
      assignment := partitions;
      Notify(partitionsAssignedHandlers, AssignedPartitions(partitions));
    }

    /** The partitions-revoked callback: the flow manager is disposed and dropped and the
        assignment emptied before the revoked handlers run, so they see neither. Without a
        flow manager the callback throws at its first statement and changes nothing. */
    method PartitionsRevoked(offsets: seq<TopicPartitionOffset>) returns (outcome: CallbackOutcome)
      requires Valid()
      modifies this`flowManager, this`assignment, this`trace, flowManager
      ensures Valid()
      ensures outcome == NullReferenceThrown <==> old(flowManager) == null
      ensures old(flowManager) == null ==>
                flowManager == null && assignment == old(assignment) && trace == old(trace)
      ensures old(flowManager) != null ==>
                && old(flowManager).disposed && old(flowManager).disposals == 1
                && flowManager == null && assignment == []
                && trace == old(trace) + [FlowManagerDisposed]
                            + FanOut(partitionsRevokedHandlers, RevokedPartitions(offsets), Visible([], false))
    {
      if flowManager == null {
        return NullReferenceThrown;
      }
      flowManager.Dispose();
      trace := trace + [FlowManagerDisposed];
      flowManager := null;
      assignment := [];
      Notify(partitionsRevokedHandlers, RevokedPartitions(offsets));
      outcome := Completed;
    }

    /** The error callback: fans out to the error handlers and changes nothing else. */
    method ErrorRaised(error: KafkaError)
      modifies this`trace
      ensures trace == old(trace) + FanOut(errorsHandlers, ErrorReported(error), Visible(assignment, flowManager != null))
    {
      Notify(errorsHandlers, ErrorReported(error));
    }

    /** The statistics callback: fans out to the statistics handlers and changes nothing else. */
    method StatisticsEmitted(statistics: string)
      modifies this`trace
      ensures trace == old(trace)
                       + FanOut(statisticsHandlers, StatisticsReported(statistics), Visible(assignment, flowManager != null))
    {
      Notify(statisticsHandlers, StatisticsReported(statistics));
    }

    /** Builds a client and subscribes it to the configured topics, only when there is none. */
    method EnsureConsumer(client: ClientIdentity)
      requires Valid()
      modifies this`transport, this`trace
      ensures Valid() && transport.Some?
      ensures old(transport).Some? ==> transport == old(transport)
      ensures old(transport).None? ==> transport == Some(Transport(client, configuration.topics))
      ensures trace == old(trace) + BuildEvents(old(transport).Some?, client, configuration.topics)
    {
      if transport.Some? {
        return;
      }
      trace := trace + [Built(client)];
      transport := Some(Transport(client, configuration.topics));
      trace := trace + [Subscribed(configuration.topics)];
    }

    /** Closes the client if there is one and forgets it; the assignment and the flow manager
        are left as they are. */
    method InvalidateConsumer()
      modifies this`transport, this`trace
      ensures old(Valid()) ==> Valid()
      ensures transport.None?
      ensures trace == old(trace) + (if old(transport).Some? then [Closed] else [])
    {
      if transport.Some? {
        trace := trace + [Closed];
      }
      transport := None;
    }

    method Dispose()
      modifies this`transport, this`trace
      ensures old(Valid()) ==> Valid()
      ensures transport.None?
      ensures trace == old(trace) + (if old(transport).Some? then [Closed] else [])
    {
      InvalidateConsumer();
    }

    /** One pass of the loop body: the `try` block and whichever `catch` handles what it
        throws. `stop` says whether the loop ends here, and with what. */
    method TryConsume(attempt: Attempt) returns (stop: bool, outcome: ConsumeOutcome)
      requires Valid()
      modifies this`transport, this`trace
      ensures Valid()
      ensures stop == Ends(attempt)
      ensures stop ==> outcome == EndOutcome(attempt)
      ensures ClientOf(transport) == ClientAfter(ClientOf(old(transport)), attempt)
      ensures trace == old(trace) + StepEvents(old(transport).Some?, configuration.topics, attempt)
    {
      EnsureConsumer(attempt.client);
      match attempt.pull {
        case Pulled(record) =>
          return true, Consumed(record);
        case Canceled =>
          return true, OperationCanceled;
        case Failed(failure) =>
          if IsFatal(failure) {
            trace := trace + [Logged(FatalErrorMessage, failure)];
            InvalidateConsumer();
            trace := trace + [DelayStarted(RecreateDelayMs)];
            stop, outcome := attempt.delay == DelayCanceled, OperationCanceled;
          } else {
            trace := trace + [Logged(ErrorMessage, failure)];
            stop, outcome := false, Pending;
          }
      }
    }

    /** The consume loop, played against `script`: it ends as `Loop` says, leaves a client
        exactly when `Loop` says, performs `Loop`'s side effects in order, and never touches
        the assignment, the flow manager or the handler lists. */
    method ConsumeAsync(script: seq<Attempt>) returns (outcome: ConsumeOutcome)
      requires Valid()
      modifies this`transport, this`trace
      ensures Valid()
      ensures var run := Loop(ClientOf(old(transport)), configuration.topics, script);
        && outcome == run.outcome
        && ClientOf(transport) == run.client
        && trace == old(trace) + run.events
    {
      ghost var topics := configuration.topics;
      ghost var run := Loop(ClientOf(transport), topics, script);
      var i := 0;
      while i < |script|
        invariant 0 <= i <= |script|
        invariant Valid()
        invariant var rest := Loop(ClientOf(transport), topics, script[i..]);
          && rest.outcome == run.outcome
          && rest.client == run.client
          && old(trace) + run.events == trace + rest.events
      {
        ghost var current, done := ClientOf(transport), trace;
        var stop;
        stop, outcome := TryConsume(script[i]);
        if stop {
          LoopEndsAt(current, topics, script, i, done);
          return;
        }
        LoopGoesOnAt(current, topics, script, i, done);
        i := i + 1;
      }
      outcome := Pending;
    }
  }
}
