/** The deferred loop that runs the registered stop functions
    (cmd/blobstreamx-monitor/watch/cmd.go). */
module Teardown {
  import opened Outcomes

  /** A registered `func() error`; `result` is the error it returns when
      called. */
  datatype StopFunc = StopFunc(name: string, result: Outcome)

  /** The messages logged for the stop functions that fail, in order. */
  function FailureMessages(stopFuncs: seq<StopFunc>): seq<string> {
    if stopFuncs == [] then []
    else FailureOf(stopFuncs[0]) + FailureMessages(stopFuncs[1..])
  }

  function FailureOf(f: StopFunc): seq<string> {
    if f.result.Err? then [f.result.message] else []
  }

  lemma {:induction false} FailureMessagesAppend(stopFuncs: seq<StopFunc>, f: StopFunc)
    ensures FailureMessages(stopFuncs + [f]) == FailureMessages(stopFuncs) + FailureOf(f)
  {
    if stopFuncs == [] {
      assert [f][1..] == [];
    } else {
      assert (stopFuncs + [f])[1..] == stopFuncs[1..] + [f];
      FailureMessagesAppend(stopFuncs[1..], f);
    }
  }

  /** Nothing is logged exactly when every stop function succeeds, and at
      most one message is logged per stop function. */
  lemma {:induction false} FailureMessagesEmptyIffAllSucceed(stopFuncs: seq<StopFunc>)
    ensures FailureMessages(stopFuncs) == [] <==> forall i :: 0 <= i < |stopFuncs| ==> stopFuncs[i].result == Ok
    ensures |FailureMessages(stopFuncs)| <= |stopFuncs|
  {
    if stopFuncs != [] {
      FailureMessagesEmptyIffAllSucceed(stopFuncs[1..]);
      assert forall i :: 1 <= i < |stopFuncs| ==> stopFuncs[i] == stopFuncs[1..][i - 1];
    }
  }

  /** `for _, f := range stopFuncs { if err := f(); err != nil { log } }`:
      every stop function is called once, in registration order, and a
      failing one does not stop the loop; its error is only logged.
      `calls` lists the indices of the functions called, in call order. */
  method RunStopFuncs(stopFuncs: seq<StopFunc>) returns (calls: seq<nat>, logged: seq<string>)
    ensures |calls| == |stopFuncs|
    ensures forall k :: 0 <= k < |calls| ==> calls[k] == k
    ensures logged == FailureMessages(stopFuncs)
  {
    calls, logged := [], [];
    var i := 0;
    while i < |stopFuncs|
      invariant i <= |stopFuncs|
      invariant |calls| == i && forall k :: 0 <= k < i ==> calls[k] == k
      invariant logged == FailureMessages(stopFuncs[..i])
    {
      var err := stopFuncs[i].result;  // err := f()
      calls := calls + [i];
      if err.Err? {
        logged := logged + [err.message];
      }
      FailureMessagesAppend(stopFuncs[..i], stopFuncs[i]);
      assert stopFuncs[..i + 1] == stopFuncs[..i] + [stopFuncs[i]];
      i := i + 1;
    }
    assert stopFuncs[..i] == stopFuncs;
  }
}
