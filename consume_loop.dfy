/** The retry loop of `ConsumeAsync` as a function of the attempts the environment plays:
    what it returns, which client is left standing, and the side effects in order. */
module ConsumeLoop {

  import opened KafkaTypes
  import opened Events

  /** How a call of `ConsumeAsync` ends. `Pending` means the attempts given ran out while the
      loop would still be retrying. */
  datatype ConsumeOutcome = Consumed(record: ConsumeRecord) | OperationCanceled | Pending

  /** How one call of the loop ends: its outcome, the client left standing (if any), and its
      side effects in order. */
  datatype LoopRun = LoopRun(outcome: ConsumeOutcome, client: Option<ClientIdentity>, events: seq<Event>)

  /** The `catch (KafkaException ex) when (ex.Error.IsFatal)` filter. */
  predicate IsFatal(f: Failure)
  {
    f.KafkaException? && f.error.isFatal
  }

  predicate FailedAttempt(a: Attempt) { a.pull.Failed? }

  predicate FatalAttempt(a: Attempt) { a.pull.Failed? && IsFatal(a.pull.failure) }

  /** An attempt after which the loop does not go round again: a record is returned, the pull
      is canceled, or a fatal error is followed by a canceled delay. */
  predicate Ends(a: Attempt)
  {
    a.pull.Pulled? || a.pull.Canceled? || (FatalAttempt(a) && a.delay == DelayCanceled)
  }

  /** What the loop returns when it ends on `a`: the record, or the cancellation. */
  function EndOutcome(a: Attempt): ConsumeOutcome
  {
    if a.pull.Pulled? then Consumed(a.pull.record) else OperationCanceled
  }

  /** The side effects of `EnsureConsumer`: a client is built and subscribed to `topics` only
      when there is none. */
  function BuildEvents(present: bool, client: ClientIdentity, topics: seq<string>): seq<Event>
  {
    if present then [] else [Built(client), Subscribed(topics)]
  }

  /** The side effects of one iteration: `EnsureConsumer` builds and subscribes a client when
      there is none; a fatal failure is logged, closes the client and starts the delay; any
      other failure is logged; a record or a cancellation adds nothing. */
  function StepEvents(present: bool, topics: seq<string>, a: Attempt): seq<Event>
  {
    var built := BuildEvents(present, a.client, topics);
    if a.pull.Failed? then built + FailureEvents(a.pull.failure) else built
  }

  /** The client an attempt pulls from: the current one, or else the one `EnsureConsumer`
      builds in that iteration. */
  function UsedClient(current: Option<ClientIdentity>, a: Attempt): ClientIdentity
  {
    if current.Some? then current.value else a.client
  }

  /** The client left after an attempt: none after a fatal failure, which closes it; the
      client the attempt pulled from otherwise. */
  function ClientAfter(current: Option<ClientIdentity>, a: Attempt): Option<ClientIdentity>
  {
    if FatalAttempt(a) then None else Some(UsedClient(current, a))
  }

  /** The loop of `ConsumeAsync`, started with the client `current` (if any), subscribing to
      `topics` whenever it builds one, and playing `script` one attempt per iteration. */
  function Loop(current: Option<ClientIdentity>, topics: seq<string>, script: seq<Attempt>): LoopRun
    decreases |script|
  {
    if script == [] then LoopRun(Pending, current, [])
    else
      var a := script[0];
      var step := StepEvents(current.Some?, topics, a);
      if Ends(a) then LoopRun(EndOutcome(a), ClientAfter(current, a), step)
      else
        var rest := Loop(ClientAfter(current, a), topics, script[1..]);
        LoopRun(rest.outcome, rest.client, step + rest.events)
  }

  /** An iteration of `Loop` from attempt `i` on that ends the loop: it adds its own side
      effects to those so far in `done` and decides the outcome. */
  lemma LoopEndsAt(current: Option<ClientIdentity>, topics: seq<string>, script: seq<Attempt>, i: nat, done: seq<Event>)
    requires i < |script| && Ends(script[i])
    ensures var run := Loop(current, topics, script[i..]);
      && run.outcome == EndOutcome(script[i])
      && run.client == ClientAfter(current, script[i])
      && done + run.events == done + StepEvents(current.Some?, topics, script[i])
  {
    assert script[i..][0] == script[i];
  }

  /** An iteration of `Loop` from attempt `i` on that goes round again: it adds its own side
      effects to those so far in `done`, and the loop goes on from the next attempt. */
  lemma LoopGoesOnAt(current: Option<ClientIdentity>, topics: seq<string>, script: seq<Attempt>, i: nat, done: seq<Event>)
    requires i < |script| && !Ends(script[i])
    ensures var run, next := Loop(current, topics, script[i..]), Loop(ClientAfter(current, script[i]), topics, script[i + 1..]);
      && run.outcome == next.outcome
      && run.client == next.client
      && done + run.events == (done + StepEvents(current.Some?, topics, script[i])) + next.events
  {
    var s := script[i..];
    assert s[0] == script[i] && s[1..] == script[i + 1..];
    var step, next := StepEvents(current.Some?, topics, script[i]), Loop(ClientAfter(current, script[i]), topics, script[i + 1..]);
    assert Loop(current, topics, s) == LoopRun(next.outcome, next.client, step + next.events);
    assert done + (step + next.events) == (done + step) + next.events;
  }

  /** How many attempts the loop plays before it stops: every attempt before the last one
      played is retried, and it stops early only on an attempt that ends it. */
  function Processed(script: seq<Attempt>): (n: nat)
    ensures n <= |script|
    ensures script != [] ==> 0 < n
    ensures forall j :: 0 <= j < n - 1 ==> !Ends(script[j])
    ensures n < |script| ==> Ends(script[n - 1])
  {
    if script == [] then 0
    else if Ends(script[0]) then 1
    else
      var n := 1 + Processed(script[1..]);
      assert forall j :: 1 <= j < n - 1 ==> script[j] == script[1..][j - 1];
      n
  }

  /** The outcome is decided by the last attempt played: a record only from a successful pull,
      cancellation from a canceled pull or delay, and `Pending` only when every attempt was
      retried; a client is left standing unless that attempt failed fatally. */
  lemma {:induction false} LoopOutcome(current: Option<ClientIdentity>, topics: seq<string>, script: seq<Attempt>)
    decreases |script|
    ensures var run, n := Loop(current, topics, script), Processed(script);
      && (run.outcome.Pending? <==> n == |script| && (n == 0 || !Ends(script[n - 1])))
      && (run.outcome.Consumed? <==> n > 0 && script[n - 1].pull.Pulled?)
      && (run.outcome.Consumed? ==> run.outcome.record == script[n - 1].pull.record)
      && (run.outcome.OperationCanceled? <==> n > 0 && Ends(script[n - 1]) && !script[n - 1].pull.Pulled?)
      && (run.client.Some? <==> if n == 0 then current.Some? else !FatalAttempt(script[n - 1]))
  {
    if script != [] && !Ends(script[0]) {
      LoopOutcome(ClientAfter(current, script[0]), topics, script[1..]);
      var m := Processed(script[1..]);
      if m > 0 {
        assert script[Processed(script) - 1] == script[1..][m - 1];
      }
    }
  }

  /** The side effects a failed pull adds after `EnsureConsumer`'s. */
  function FailureEvents(f: Failure): seq<Event>
  {
    if IsFatal(f) then [Logged(FatalErrorMessage, f), Closed, DelayStarted(RecreateDelayMs)]
    else [Logged(ErrorMessage, f)]
  }

  lemma BuildCounts(present: bool, client: ClientIdentity, topics: seq<string>)
    ensures CountIf(BuildEvents(present, client, topics), IsLog) == 0
    ensures CountIf(BuildEvents(present, client, topics), IsClose) == 0
    ensures CountIf(BuildEvents(present, client, topics), IsSubscription) == if present then 0 else 1
  {
    if !present {
      CountIfCons(Built(client), [Subscribed(topics)], IsLog);
      CountIfCons(Built(client), [Subscribed(topics)], IsClose);
      CountIfCons(Built(client), [Subscribed(topics)], IsSubscription);
    }
  }

  lemma FailureCounts(f: Failure)
    ensures CountIf(FailureEvents(f), IsLog) == 1
    ensures CountIf(FailureEvents(f), IsClose) == if IsFatal(f) then 1 else 0
    ensures CountIf(FailureEvents(f), IsSubscription) == 0
  {
    if IsFatal(f) {
      CountIfCons(Closed, [DelayStarted(RecreateDelayMs)], IsLog);
      CountIfCons(Closed, [DelayStarted(RecreateDelayMs)], IsClose);
      CountIfCons(Closed, [DelayStarted(RecreateDelayMs)], IsSubscription);
      CountIfCons(Logged(FatalErrorMessage, f), [Closed, DelayStarted(RecreateDelayMs)], IsLog);
      CountIfCons(Logged(FatalErrorMessage, f), [Closed, DelayStarted(RecreateDelayMs)], IsClose);
      CountIfCons(Logged(FatalErrorMessage, f), [Closed, DelayStarted(RecreateDelayMs)], IsSubscription);
    }
  }

  /** One iteration logs once exactly when the pull failed, closes once exactly when it failed
      fatally, and subscribes, to the configured topics, once exactly when it started without
      a client. */
  lemma StepCounts(present: bool, topics: seq<string>, a: Attempt)
    ensures CountIf(StepEvents(present, topics, a), IsLog) == if FailedAttempt(a) then 1 else 0
    ensures CountIf(StepEvents(present, topics, a), IsClose) == if FatalAttempt(a) then 1 else 0
    ensures CountIf(StepEvents(present, topics, a), IsSubscription) == if present then 0 else 1
    ensures forall e :: e in StepEvents(present, topics, a) && e.Subscribed? ==> e.topics == topics
  {
    var built := BuildEvents(present, a.client, topics);
    BuildCounts(present, a.client, topics);
    if a.pull.Failed? {
      var tail := FailureEvents(a.pull.failure);
      FailureCounts(a.pull.failure);
      CountIfAppend(built, tail, IsLog);
      CountIfAppend(built, tail, IsClose);
      CountIfAppend(built, tail, IsSubscription);
    }
  }

  lemma CountIfCons<T>(x: T, s: seq<T>, p: T -> bool)
    ensures CountIf([x] + s, p) == (if p(x) then 1 else 0) + CountIf(s, p)
  {
  }

  /** The loop logs once for every failed pull it plays and for nothing else: cancellation
      is never logged. */
  lemma {:induction false} LoopLogs(current: Option<ClientIdentity>, topics: seq<string>, script: seq<Attempt>)
    decreases |script|
    ensures CountIf(Loop(current, topics, script).events, IsLog) == CountIf(script[..Processed(script)], FailedAttempt)
  {
    if script != [] {
      var a, n := script[0], Processed(script);
      StepCounts(current.Some?, topics, a);
      if Ends(a) {
        assert script[..n] == [a];
        CountIfCons(a, [], FailedAttempt);
      } else {
        var step, rest := StepEvents(current.Some?, topics, a), Loop(ClientAfter(current, a), topics, script[1..]);
        LoopLogs(ClientAfter(current, a), topics, script[1..]);
        assert n == 1 + Processed(script[1..]);
        assert Loop(current, topics, script).events == step + rest.events;
        PrefixCons(script, n);
        CountIfCons(a, script[1..][..n - 1], FailedAttempt);
        CountIfAppend(step, rest.events, IsLog);
      }
    }
  }

  /** The loop closes the client once for every pull it plays that failed fatally, and a
      non-fatal error never closes it. */
  lemma {:induction false} LoopCloses(current: Option<ClientIdentity>, topics: seq<string>, script: seq<Attempt>)
    decreases |script|
    ensures CountIf(Loop(current, topics, script).events, IsClose) == CountIf(script[..Processed(script)], FatalAttempt)
  {
    if script != [] {
      var a, n := script[0], Processed(script);
      StepCounts(current.Some?, topics, a);
      if Ends(a) {
        assert script[..n] == [a];
        CountIfCons(a, [], FatalAttempt);
      } else {
        var step, rest := StepEvents(current.Some?, topics, a), Loop(ClientAfter(current, a), topics, script[1..]);
        LoopCloses(ClientAfter(current, a), topics, script[1..]);
        assert n == 1 + Processed(script[1..]);
        assert Loop(current, topics, script).events == step + rest.events;
        PrefixCons(script, n);
        CountIfCons(a, script[1..][..n - 1], FatalAttempt);
        CountIfAppend(step, rest.events, IsClose);
      }
    }
  }

  /** The first `k` attempts are the first one followed by the first `k - 1` of the rest. */
  lemma PrefixCons(script: seq<Attempt>, k: nat)
    requires 0 < k <= |script|
    ensures script[..k] == [script[0]] + script[1..][..k - 1]
  {
  }

  /** The loop subscribes once if it starts without a client and once more after every
      fatal failure it goes round from. */
  lemma {:induction false} LoopSubscribes(current: Option<ClientIdentity>, topics: seq<string>, script: seq<Attempt>)
    decreases |script|
    ensures var run, n := Loop(current, topics, script), Processed(script);
      CountIf(run.events, IsSubscription)
      == (if n == 0 then 0 else (if current.Some? then 0 else 1) + CountIf(script[..n - 1], FatalAttempt))
  {
    if script != [] {
      var a := script[0];
      StepCounts(current.Some?, topics, a);
      if !Ends(a) {
        var step, rest := StepEvents(current.Some?, topics, a), Loop(ClientAfter(current, a), topics, script[1..]);
        LoopSubscribes(ClientAfter(current, a), topics, script[1..]);
        var m := Processed(script[1..]);
        assert Processed(script) == 1 + m;
        assert Loop(current, topics, script).events == step + rest.events;
        CountIfAppend(step, rest.events, IsSubscription);
        if m > 0 {
          PrefixCons(script, m);
          CountIfCons(a, script[1..][..m - 1], FatalAttempt);
        }
      }
    }
  }

  /** Every subscription the loop makes is to the configured topics. */
  lemma {:induction false} LoopSubscribesConfiguredTopics(current: Option<ClientIdentity>, topics: seq<string>, script: seq<Attempt>)
    decreases |script|
    ensures forall e :: e in Loop(current, topics, script).events && e.Subscribed? ==> e.topics == topics
  {
    if script != [] {
      var a := script[0];
      StepCounts(current.Some?, topics, a);
      if !Ends(a) {
        LoopSubscribesConfiguredTopics(ClientAfter(current, a), topics, script[1..]);
      }
    }
  }

  /** While no attempt played fails fatally, the loop keeps the client it started with. */
  lemma {:induction false} LoopKeepsClient(current: Option<ClientIdentity>, topics: seq<string>, script: seq<Attempt>)
    requires current.Some?
    requires forall j :: 0 <= j < Processed(script) ==> !FatalAttempt(script[j])
    decreases |script|
    ensures Loop(current, topics, script).client == current
  {
    if script != [] && !Ends(script[0]) {
      assert !FatalAttempt(script[0]);
      forall j | 0 <= j < Processed(script[1..]) ensures !FatalAttempt(script[1..][j]) {
        assert script[1..][j] == script[j + 1];
      }
      LoopKeepsClient(current, topics, script[1..]);
    }
  }

  /** A loop started without a client builds one from its first attempt, and keeps that one
      while no attempt played fails fatally. */
  lemma LoopBuildsFirstClient(topics: seq<string>, script: seq<Attempt>)
    requires script != []
    requires forall j :: 0 <= j < Processed(script) ==> !FatalAttempt(script[j])
    ensures Loop(None, topics, script).client == Some(script[0].client)
  {
    if !Ends(script[0]) {
      forall j | 0 <= j < Processed(script[1..]) ensures !FatalAttempt(script[1..][j]) {
        assert script[1..][j] == script[j + 1];
      }
      LoopKeepsClient(Some(script[0].client), topics, script[1..]);
    }
  }

  /** A call that returned a record leaves its client standing, so a following call whose
      first pull succeeds neither builds nor subscribes, and keeps that same client:
      consecutive successful consumes subscribe once at most. */
  lemma {:induction false} ConsumedKeepsClient(current: Option<ClientIdentity>, topics: seq<string>, first: seq<Attempt>, second: seq<Attempt>)
    requires Loop(current, topics, first).outcome.Consumed?
    requires second != [] && second[0].pull.Pulled?
    ensures var left := Loop(current, topics, first).client;
      var next := Loop(left, topics, second);
      next.events == [] && next.outcome == Consumed(second[0].pull.record) && next.client == left
  {
    LoopOutcome(current, topics, first);
    assert Loop(current, topics, first).client.Some?;
  }
}
