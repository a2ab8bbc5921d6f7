/** Resubscription after the event subscription fails: a bounded loop of
    attempts with a fixed pause after each failure
    (cmd/blobstreamx-monitor/watch/cmd.go). */
module Retry {
  import opened Outcomes

  /** The loop makes at most this many attempts per failure. */
  const MaxResubscribeAttempts := 50

  /** What one call of `WatchDataCommitmentStored` gives back. */
  datatype SubscribeOutcome = Subscribed | SubscribeFailed(message: string)

  /** The index of the first successful attempt, or `|outcomes|` when none
      succeeds. */
  function FirstSuccess(outcomes: seq<SubscribeOutcome>): (k: nat)
    ensures k <= |outcomes|
    ensures forall j :: 0 <= j < k ==> outcomes[j].SubscribeFailed?
    ensures k < |outcomes| ==> outcomes[k].Subscribed?
  {
    if outcomes == [] then 0
    else if outcomes[0].Subscribed? then 0
    else 1 + FirstSuccess(outcomes[1..])
  }

  /** The outcomes answer every attempt the loop can make: there are enough
      of them for a full episode, or one of them succeeds. */
  predicate AnswersEpisode(outcomes: seq<SubscribeOutcome>) {
    MaxResubscribeAttempts <= |outcomes| || FirstSuccess(outcomes) < |outcomes|
  }

  /** Whether an episode with these outcomes recovers. */
  predicate Recovers(outcomes: seq<SubscribeOutcome>) {
    FirstSuccess(outcomes) < MaxResubscribeAttempts
  }

  /** One failure episode. `outcomes[i]` is what attempt `i` returns. The
      episode stops at the first success, or gives up after the last allowed
      attempt with that attempt's error; the error that started the episode
      is overwritten by the first attempt and never returned. `sleeps` counts
      the pauses: one after every failed attempt, the last one included. */
  method Resubscribe(subscriptionError: string, outcomes: seq<SubscribeOutcome>)
    returns (recovered: bool, err: Outcome, attempts: nat, ghost sleeps: nat)
    requires AnswersEpisode(outcomes)
    ensures 1 <= attempts <= MaxResubscribeAttempts
    ensures recovered <==> Recovers(outcomes)
    ensures recovered ==> attempts == FirstSuccess(outcomes) + 1 && err == Ok
    ensures !recovered ==>
      && attempts == MaxResubscribeAttempts
      && err == Err(outcomes[MaxResubscribeAttempts - 1].message)
    ensures sleeps == if recovered then attempts - 1 else attempts
  {
    err := Err(subscriptionError);
    recovered := false;
    attempts, sleeps := 0, 0;
    var i := 0;
    while i < MaxResubscribeAttempts
      invariant i <= MaxResubscribeAttempts && i <= FirstSuccess(outcomes)
      invariant attempts == i && sleeps == i && !recovered
      invariant i > 0 ==> err == Err(outcomes[i - 1].message)
    {
      var outcome := outcomes[i];
      attempts := attempts + 1;
      if outcome.SubscribeFailed? {
        err := Err(outcome.message);
        sleeps := sleeps + 1;  // time.Sleep(30 * time.Second)
        i := i + 1;
        continue;
      }
      err := Ok;
      recovered := true;
      break;
    }
  }

  /** Three failed attempts and then a success: the episode recovers after
      three pauses, on its fourth attempt. */
  lemma ThreeFailuresThenRecovery(e1: string, e2: string, e3: string)
    ensures var outcomes := [SubscribeFailed(e1), SubscribeFailed(e2), SubscribeFailed(e3), Subscribed];
      AnswersEpisode(outcomes) && Recovers(outcomes) && FirstSuccess(outcomes) == 3
  {
    var outcomes := [SubscribeFailed(e1), SubscribeFailed(e2), SubscribeFailed(e3), Subscribed];
    assert outcomes[1..][1..][1..] == [Subscribed];
    assert FirstSuccess([Subscribed]) == 0;
    assert FirstSuccess(outcomes[1..][1..]) == 1;
    assert FirstSuccess(outcomes[1..]) == 2;
  }

  /** An episode gives up exactly when none of the allowed attempts
      succeeds; any success later than that is never asked for. */
  lemma GivesUpIffAllAllowedAttemptsFail(outcomes: seq<SubscribeOutcome>)
    requires MaxResubscribeAttempts <= |outcomes|
    ensures !Recovers(outcomes) <==>
      forall j :: 0 <= j < MaxResubscribeAttempts ==> outcomes[j].SubscribeFailed?
  {}
}
