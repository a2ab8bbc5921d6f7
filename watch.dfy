/** The start command's watch loop: a state machine over the processed-nonces
    counter, the two sample channels and the registered stop functions
    (cmd/blobstreamx-monitor/watch/cmd.go, the `RunE` closure of `Command`). */
module Watch {
  import opened Outcomes
  import opened Config
  import opened Bridge
  import opened Retry
  import opened Teardown

  /** What `ctx.Err()` returns once the command's context is cancelled. */
  const ContextCanceled := "context canceled"

  const TwoTo63 := 0x8000_0000_0000_0000
  const TwoTo64 := 0x1_0000_0000_0000_0000

  type Uint64 = x: int | 0 <= x < 0x1_0000_0000_0000_0000

  /** A `DataCommitmentStored` event of the contract. */
  datatype CommitmentEvent = CommitmentEvent(
    proofNonce: nat,
    dataCommitment: seq<bv8>,
    startBlock: Uint64,
    endBlock: Uint64)

  /** Conversion to `int64`: the value modulo 2^64, read in two's complement. */
  function ToInt64(x: int): (r: int)
    ensures -TwoTo63 <= r < TwoTo63
    ensures (x - r) % TwoTo64 == 0
    ensures -TwoTo63 <= x < TwoTo63 ==> r == x
  {
    var low := x % TwoTo64;
    if low < TwoTo63 then low else low - TwoTo64
  }

  /** The sample an event puts on the nonce channel. */
  function NonceSample(e: CommitmentEvent): int { ToInt64(e.proofNonce) }

  /** The sample an event puts on the height channel. */
  function HeightSample(e: CommitmentEvent): int { ToInt64(e.endBlock) }

  function NonceSamples(events: seq<CommitmentEvent>): seq<int> {
    seq(|events|, i requires 0 <= i < |events| => NonceSample(events[i]))
  }

  function HeightSamples(events: seq<CommitmentEvent>): seq<int> {
    seq(|events|, i requires 0 <= i < |events| => HeightSample(events[i]))
  }

  datatype LoopState = Starting | Running | Terminated(err: string)

  /** The branch one pass of the loop's `select` takes. A subscription error
      carries what each resubscription attempt of its episode returns. */
  datatype Selection =
    | Cancelled
    | SubscriptionError(err: string, resubscribes: seq<SubscribeOutcome>)
    | EventReceived(event: CommitmentEvent)

  predicate Answered(sel: Selection) {
    sel.SubscriptionError? ==> AnswersEpisode(sel.resubscribes)
  }

  /** Whether handling `sel` ends the loop. */
  predicate Stops(sel: Selection) {
    sel.Cancelled? || (sel.SubscriptionError? && !Recovers(sel.resubscribes))
  }

  /** The error the loop returns when `sel` ends it. */
  function ExitError(sel: Selection): string
    requires Answered(sel) && Stops(sel)
  {
    if sel.Cancelled? then ContextCanceled
    else sel.resubscribes[MaxResubscribeAttempts - 1].message
  }

  /** The index of the first selection that ends the loop, or `|script|`. */
  function HaltIndex(script: seq<Selection>): (k: nat)
    ensures k <= |script|
    ensures forall j :: 0 <= j < k ==> !Stops(script[j])
    ensures k < |script| ==> Stops(script[k])
  {
    if script == [] then 0
    else if Stops(script[0]) then 0
    else 1 + HaltIndex(script[1..])
  }

  /** The events among the selections, in order. */
  function Events(script: seq<Selection>): seq<CommitmentEvent> {
    if script == [] then []
    else EventOf(script[0]) + Events(script[1..])
  }

  function EventOf(sel: Selection): seq<CommitmentEvent> {
    if sel.EventReceived? then [sel.event] else []
  }

  lemma {:induction false} EventsAppend(script: seq<Selection>, sel: Selection)
    ensures Events(script + [sel]) == Events(script) + EventOf(sel)
  {
    if script == [] {
      assert [sel][1..] == [];
    } else {
      assert (script + [sel])[1..] == script[1..] + [sel];
      EventsAppend(script[1..], sel);
    }
  }

  lemma SamplesAppend(events: seq<CommitmentEvent>, more: seq<CommitmentEvent>)
    ensures NonceSamples(events + more) == NonceSamples(events) + NonceSamples(more)
    ensures HeightSamples(events + more) == HeightSamples(events) + HeightSamples(more)
  {}

  /** The pauses handling `sel` takes: one per failed resubscription
      attempt of its episode. */
  function PausesOf(sel: Selection): nat {
    if !sel.SubscriptionError? then 0
    else if Recovers(sel.resubscribes) then FirstSuccess(sel.resubscribes)
    else MaxResubscribeAttempts
  }

  /** The pauses taken over all the selections. */
  function Pauses(script: seq<Selection>): nat {
    if script == [] then 0 else PausesOf(script[0]) + Pauses(script[1..])
  }

  lemma {:induction false} PausesAppend(script: seq<Selection>, sel: Selection)
    ensures Pauses(script + [sel]) == Pauses(script) + PausesOf(sel)
  {
    if script == [] {
      assert [sel][1..] == [];
    } else {
      assert (script + [sel])[1..] == script[1..] + [sel];
      PausesAppend(script[1..], sel);
    }
  }

  /** On one stable subscription (nothing but events), the loop never stops
      and every event is handled: N events, N counter increments and one
      sample of each kind per event, in order. */
  lemma {:induction false} StableSubscriptionHandlesEveryEvent(script: seq<Selection>)
    requires forall i :: 0 <= i < |script| ==> script[i].EventReceived?
    ensures HaltIndex(script) == |script|
    ensures |Events(script)| == |script|
    ensures forall i :: 0 <= i < |script| ==> Events(script)[i] == script[i].event
  {
    if script != [] {
      StableSubscriptionHandlesEveryEvent(script[1..]);
      assert forall i :: 1 <= i < |script| ==> script[i] == script[1..][i - 1];
    }
  }

  /** An episode that recovers leaves the loop running, so the events after
      it are handled as before; cancellation afterwards ends the loop with
      the cancellation error. */
  lemma RecoveryThenCancellation(e1: CommitmentEvent, e2: CommitmentEvent, err: string, f1: string, f2: string, f3: string)
    ensures var script := [EventReceived(e1),
                           SubscriptionError(err, [SubscribeFailed(f1), SubscribeFailed(f2), SubscribeFailed(f3), Subscribed]),
                           EventReceived(e2),
                           Cancelled];
      && HaltIndex(script) == 3
      && Events(script[..3]) == [e1, e2]
      && ExitError(script[3]) == ContextCanceled
  {
    var episode := [SubscribeFailed(f1), SubscribeFailed(f2), SubscribeFailed(f3), Subscribed];
    ThreeFailuresThenRecovery(f1, f2, f3);
    var script := [EventReceived(e1), SubscriptionError(err, episode), EventReceived(e2), Cancelled];
    assert script[1..][1..][1..] == [Cancelled];
    assert HaltIndex(script[1..][1..]) == 1;
    assert script[..3] == [EventReceived(e1)] + [SubscriptionError(err, episode)] + [EventReceived(e2)];
    assert [EventReceived(e1)] + [SubscriptionError(err, episode)] + [EventReceived(e2)]
      == [] + [EventReceived(e1)] + [SubscriptionError(err, episode)] + [EventReceived(e2)];
    EventsAppend([], EventReceived(e1));
    EventsAppend([EventReceived(e1)], SubscriptionError(err, episode));
    EventsAppend([EventReceived(e1)] + [SubscriptionError(err, episode)], EventReceived(e2));
  }

  /** The state of the running command: the processed-nonces counter, the
      two sample channels and the stop functions the deferred teardown will
      run. `sleeps` counts the pauses between resubscription attempts. */
  class Watcher {
    var state: LoopState
    var processedNonces: nat
    const nonces: SampleBuffer
    const heights: SampleBuffer
    var stopFuncs: seq<StopFunc>
    ghost var sleeps: nat

    /** Two distinct, open channels of the size the command makes them:
        nothing in the command closes them. */
    ghost predicate Valid()
      reads this, nonces, heights
    {
      && nonces != heights
      && nonces.Valid() && heights.Valid()
      && !nonces.closed && !heights.closed
      && nonces.capacity == SampleCapacity && heights.capacity == SampleCapacity
    }

    /** The empty `stopFuncs` slice and the two channels. */
    constructor ()
      ensures Valid() && fresh(nonces) && fresh(heights)
      ensures state == Starting && processedNonces == 0 && stopFuncs == [] && sleeps == 0
      ensures nonces.pending == [] && heights.pending == []
    {
      state := Starting;
      processedNonces := 0;
      stopFuncs := [];
      sleeps := 0;
      nonces := new SampleBuffer(SampleCapacity);
      heights := new SampleBuffer(SampleCapacity);
    }

    /** The result of `telemetry.Start`: a non-nil shutdown function is
        registered first, and only then is the error checked, so a shutdown
        function that comes with an error is still run at teardown. */
    method RegisterTelemetry(shutdown: Option<StopFunc>, startErr: Outcome) returns (r: Outcome)
      requires Valid() && state == Starting
      modifies this
      ensures Valid()
      ensures stopFuncs == old(stopFuncs) + (if shutdown.Some? then [shutdown.value] else [])
      ensures r == startErr
      ensures state == if startErr.Err? then Terminated(startErr.message) else Starting
      ensures processedNonces == old(processedNonces) && sleeps == old(sleeps)
    {
      if shutdown.Some? {
        stopFuncs := stopFuncs + [shutdown.value];
      }
      r := startErr;
      if startErr.Err? {
        state := Terminated(startErr.message);
      }
    }

    /** The first subscription: its failure is fatal and is not retried. */
    method Subscribe(outcome: SubscribeOutcome) returns (r: Outcome)
      requires state == Starting
      modifies this`state
      ensures outcome.Subscribed? ==> state == Running && r == Ok
      ensures outcome.SubscribeFailed? ==>
        state == Terminated(outcome.message) && r == Err(outcome.message)
    {
      match outcome
      case Subscribed =>
        state := Running;
        r := Ok;
      case SubscribeFailed(m) =>
        state := Terminated(m);
        r := Err(m);
    }

    /** The `<-ctx.Done()` branch: the loop returns `ctx.Err()`; nothing but
        the state changes. */
    method OnCancel() returns (r: Outcome)
      requires state == Running
      modifies this`state
      ensures state == Terminated(ContextCanceled) && r == Err(ContextCanceled)
    {
      state := Terminated(ContextCanceled);
      r := Err(ContextCanceled);
    }

    /** The `<-subscription.Err()` branch: one resubscription episode. On
        recovery the loop goes on; otherwise it returns the error of the last
        attempt. The counter and the channels are not touched. */
    method OnSubscriptionError(err: string, resubscribes: seq<SubscribeOutcome>) returns (attempts: nat)
      requires state == Running && AnswersEpisode(resubscribes)
      modifies this`state, this`sleeps
      ensures 1 <= attempts <= MaxResubscribeAttempts
      ensures Recovers(resubscribes) ==>
        && state == Running
        && attempts == FirstSuccess(resubscribes) + 1
        && sleeps == old(sleeps) + FirstSuccess(resubscribes)
      ensures !Recovers(resubscribes) ==>
        && state == Terminated(resubscribes[MaxResubscribeAttempts - 1].message)
        && attempts == MaxResubscribeAttempts
        && sleeps == old(sleeps) + MaxResubscribeAttempts
    {
      var recovered, last; ghost var pauses;
      recovered, last, attempts, pauses := Resubscribe(err, resubscribes);
      sleeps := sleeps + pauses;
      if !recovered {
        state := Terminated(last.message);
      }
    }

    /** The event branch: the counter goes up by one, and the event's nonce
        and end block are sent to their channels. */
    method OnEvent(e: CommitmentEvent)
      requires Valid() && state == Running
      modifies this`processedNonces, nonces, heights
      ensures Valid()
      ensures processedNonces == old(processedNonces) + 1
      ensures nonces.pending == old(nonces.pending) + [NonceSample(e)]
      ensures heights.pending == old(heights.pending) + [HeightSample(e)]
    {
      processedNonces := processedNonces + 1;
      nonces.Send(NonceSample(e));
      heights.Send(HeightSample(e));
    }

    /** One pass of the loop: the branch `sel` is handled. Only an event
        changes the counter and the channels; only a subscription error
        pauses; only an ending branch leaves the running state. */
    method Step(sel: Selection)
      requires Valid() && state == Running && Answered(sel)
      modifies this, nonces, heights
      ensures Valid()
      ensures state == if Stops(sel) then Terminated(ExitError(sel)) else Running
      ensures processedNonces == old(processedNonces) + |EventOf(sel)|
      ensures nonces.pending == old(nonces.pending) + NonceSamples(EventOf(sel))
      ensures heights.pending == old(heights.pending) + HeightSamples(EventOf(sel))
      ensures sleeps == old(sleeps) + PausesOf(sel)
      ensures stopFuncs == old(stopFuncs)
    {
      match sel {
        case Cancelled =>
          var _ := OnCancel();
        case SubscriptionError(err, resubscribes) =>
          var _ := OnSubscriptionError(err, resubscribes);
        case EventReceived(e) =>
          OnEvent(e);
      }
    }

    /** The `for { select { ... } }` loop, driven by the branches `script`
        lists, until a branch ends it or the script runs out. Every event
        before the ending branch is counted and sampled, in order; the loop
        ends with the error of that branch. The pauses are those of every
        branch handled, the ending one included. */
    method Serve(script: seq<Selection>) returns (handled: nat)
      requires Valid() && state == Running
      requires forall i :: 0 <= i < |script| ==> Answered(script[i])
      modifies this, nonces, heights
      ensures Valid()
      ensures handled == if HaltIndex(script) < |script| then HaltIndex(script) + 1 else |script|
      ensures state == if HaltIndex(script) < |script|
                       then Terminated(ExitError(script[HaltIndex(script)]))
                       else Running
      ensures processedNonces == old(processedNonces) + |Events(script[..HaltIndex(script)])|
      ensures nonces.pending == old(nonces.pending) + NonceSamples(Events(script[..HaltIndex(script)]))
      ensures heights.pending == old(heights.pending) + HeightSamples(Events(script[..HaltIndex(script)]))
      ensures sleeps == old(sleeps) + Pauses(script[..handled])
      ensures stopFuncs == old(stopFuncs)
    {
      var k := HaltIndex(script);
      handled := 0;
      while handled < |script| && state == Running
        invariant handled <= |script| && Valid()
        invariant state == Running ==> handled <= k
        invariant state != Running ==>
          handled == k + 1 && k < |script| && state == Terminated(ExitError(script[k]))
        invariant processedNonces == old(processedNonces) + |Events(script[..handled])|
        invariant nonces.pending == old(nonces.pending) + NonceSamples(Events(script[..handled]))
        invariant heights.pending == old(heights.pending) + HeightSamples(Events(script[..handled]))
        invariant sleeps == old(sleeps) + Pauses(script[..handled])
        invariant stopFuncs == old(stopFuncs)
      {
        var sel := script[handled];
        Step(sel);
        EventsAppend(script[..handled], sel);
        SamplesAppend(Events(script[..handled]), EventOf(sel));
        PausesAppend(script[..handled], sel);
        assert script[..handled + 1] == script[..handled] + [sel];
        handled := handled + 1;
      }
      if state != Running {
        EventsAppend(script[..k], script[k]);
        assert script[..k + 1] == script[..k] + [script[k]];
      } else {
        assert script[..handled] == script;
      }
    }

    /** The nonce observation callback. The channel is never closed, so a
        call either observes and removes the oldest sample or, on an empty
        channel, does nothing; neither is an error. */
    method NonceCallback() returns (observed: Option<int>, err: Outcome)
      requires Valid()
      modifies nonces
      ensures Valid() && err == Ok
      ensures old(nonces.pending) != [] ==>
        observed == Some(old(nonces.pending)[0]) && nonces.pending == old(nonces.pending)[1..]
      ensures old(nonces.pending) == [] ==> observed == None && nonces.pending == []
    {
      observed, err := nonces.TryReceive(NonceReadError);
    }

    /** The height observation callback, alike over the height channel. */
    method HeightCallback() returns (observed: Option<int>, err: Outcome)
      requires Valid()
      modifies heights
      ensures Valid() && err == Ok
      ensures old(heights.pending) != [] ==>
        observed == Some(old(heights.pending)[0]) && heights.pending == old(heights.pending)[1..]
      ensures old(heights.pending) == [] ==> observed == None && heights.pending == []
    {
      observed, err := heights.TryReceive(HeightReadError);
    }
  }

  // ---------------------------------------------------------------------------
  // The whole command

  /** What the calls into libraries the model does not contain return while
      the command starts: the logger, the node client, the contract filterer,
      the meters, `telemetry.Start` (its shutdown function and error) and the
      first subscription. */
  datatype Startup = Startup(
    logger: Outcome,
    dial: Outcome,
    filterer: Outcome,
    initMeters: Outcome,
    shutdown: Option<StopFunc>,
    telemetry: Outcome,
    subscribe: SubscribeOutcome)

  /** How a run ends: `RunE` returns an error, or it is still in its loop
      when the scripted branches run out. */
  datatype Exit = Returned(err: Outcome) | StillWatching

  /** The first startup step that fails, with its error, if any. */
  function StartupError(flags: FlagSet, isHexAddress: string -> bool, startup: Startup): Option<string> {
    match ParseStartFlags(flags)
    case Failure(m) => Some(m)
    case Success(cfg) =>
      match ValidateBasics(cfg, isHexAddress)
      case Err(m) => Some(m)
      case Ok =>
        if startup.logger.Err? then Some(startup.logger.message)
        else if startup.dial.Err? then Some(startup.dial.message)
        else if startup.filterer.Err? then Some(startup.filterer.message)
        else if startup.initMeters.Err? then Some(startup.initMeters.message)
        else if startup.telemetry.Err? then Some(startup.telemetry.message)
        else if startup.subscribe.SubscribeFailed? then Some(startup.subscribe.message)
        else None
  }

  /** The stop functions registered by the time the command returns: the
      shutdown function of `telemetry.Start`, when that call is reached and
      hands one back. */
  function Registered(flags: FlagSet, isHexAddress: string -> bool, startup: Startup): seq<StopFunc> {
    if && ParseStartFlags(flags).Success?
       && ValidateBasics(ParseStartFlags(flags).value, isHexAddress) == Ok
       && startup.logger == Ok && startup.dial == Ok && startup.filterer == Ok
       && startup.initMeters == Ok && startup.shutdown.Some?
    then [startup.shutdown.value]
    else []
  }

  /** `RunE`: parse and validate the flags, start the collaborators, watch,
      and on return run the deferred stop functions. A startup failure is
      returned as it is; after startup the loop ends with its ending branch's
      error. Whenever the command returns, each registered stop function runs
      exactly once, in order, and their errors are only logged. */
  method RunE(flags: FlagSet, isHexAddress: string -> bool, startup: Startup, script: seq<Selection>)
    returns (exit: Exit, calls: seq<nat>, logged: seq<string>)
    requires forall i :: 0 <= i < |script| ==> Answered(script[i])
    ensures StartupError(flags, isHexAddress, startup).Some? ==>
      exit == Returned(Err(StartupError(flags, isHexAddress, startup).value))
    ensures StartupError(flags, isHexAddress, startup).None? ==>
      exit == if HaltIndex(script) < |script|
              then Returned(Err(ExitError(script[HaltIndex(script)])))
              else StillWatching
    ensures exit.Returned? ==>
      && |calls| == |Registered(flags, isHexAddress, startup)|
      && (forall k :: 0 <= k < |calls| ==> calls[k] == k)
      && logged == FailureMessages(Registered(flags, isHexAddress, startup))
    ensures exit.StillWatching? ==> calls == [] && logged == []
  {
    calls, logged := [], [];
    var parsed := ParseStartFlags(flags);
    if parsed.Failure? {
      return Returned(Err(parsed.message)), calls, logged;
    }
    var valid := ValidateBasics(parsed.value, isHexAddress);
    if valid.Err? {
      return Returned(valid), calls, logged;
    }
    if startup.logger.Err? {
      return Returned(startup.logger), calls, logged;
    }
    // From here on every return runs the deferred loop over `stopFuncs`.
    var w := new Watcher();
    if startup.dial.Err? {
      exit := Returned(startup.dial);
    } else if startup.filterer.Err? {
      exit := Returned(startup.filterer);
    } else if startup.initMeters.Err? {
      exit := Returned(startup.initMeters);
    } else {
      var r := w.RegisterTelemetry(startup.shutdown, startup.telemetry);
      if r.Err? {
        exit := Returned(r);
      } else {
        r := w.Subscribe(startup.subscribe);
        if r.Err? {
          exit := Returned(r);
        } else {
          var _ := w.Serve(script);
          exit := if w.state.Terminated? then Returned(Err(w.state.err)) else StillWatching;
        }
      }
    }
    if exit.Returned? {
      calls, logged := RunStopFuncs(w.stopFuncs);
    }
  }
}
