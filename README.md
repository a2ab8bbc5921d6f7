# blobstreamx-monitor: the start command's configuration and watch loop

blobstreamx-monitor watches a BlobstreamX contract on an EVM chain. For every
`DataCommitmentStored` event it adds one to a processed-nonces counter and
hands the event's proof nonce and end block to two metric observation
callbacks. This project models the parts of the `start` command that are
sequential logic, once the chain client, the clock and the metrics exporter
are replaced by their outcomes:

- `config.dfy` (module `Config`) models the flags the command declares, the
  `StartConfig` record `parseStartFlags` fills, `ValidateEVMAddress` and
  `StartConfig.ValidateBasics`. go-ethereum's `IsHexAddress` is a parameter
  `isHexAddress: string -> bool`.
- `bridge.dfy` (module `Bridge`) models the two sample channels
  (`make(chan int64, 100)`) as `SampleBuffer` objects, with one send, the
  channel close, and the non-blocking receive the observation callbacks do.
- `retry.dfy` (module `Retry`) models the resubscription loop that runs after
  the event subscription fails: at most 50 attempts, with a pause after each
  failed one.
- `teardown.dfy` (module `Teardown`) models the deferred loop that runs every
  registered stop function.
- `watch.dfy` (module `Watch`) models the watch loop as a `Watcher` object with
  states Starting, Running and Terminated. It holds the counter, the two
  channels, the stop functions and a ghost count of pauses. The three `select`
  branches (cancellation, subscription error, event) are its methods. `RunE`
  puts the startup steps, the loop and the teardown together.
- `outcomes.dfy` (module `Outcomes`) holds Go's `error` returns as values.

Each branch the loop's `select` takes is given as a `Selection`. A
subscription error carries the outcome of each resubscription attempt of its
episode. `ctx.Err()` is modelled as the standard library's "context canceled",
because `main.go` starts the command from `context.Background()` and only
`cancel()` can end it.

Three points of the code's behaviour the model keeps:
- A full channel does not drop a sample. Each sample is sent from a goroutine
  of its own, which waits until there is room. `SampleBuffer.pending` keeps
  every sample sent and not yet received. The first 100 are the channel's
  buffer; the rest stand for the waiting senders.
- The failure episode is not a state of its own. It is a single step,
  `Watcher.OnSubscriptionError`, that leaves the loop Running or Terminated.
- On giving up, the loop returns the error of the 50th attempt, not the error
  that started the episode, because `err` is reassigned by every attempt.

## Model

| member | source | states |
|---|---|---|
| `Config.StartFlags` | cmd/blobstreamx-monitor/watch/config.go:24-49 | the seven declared flags with their defaults; every flag the parse reads is declared, with the type it is read as |
| `Config.ParseStartFlags` | cmd/blobstreamx-monitor/watch/config.go:76-123 | on success each field holds, unchanged, the value its flag lookup returned; endpoint, TLS and label go into the metrics configuration |
| `Config.ParseStartFlagsFollowsReadOrder` | cmd/blobstreamx-monitor/watch/config.go:76-111 | the parse fails exactly when some flag lookup fails, and then with the error of the first failing lookup in the order the flags are read |
| `Config.DeclaredFlagsAlwaysParse` | cmd/blobstreamx-monitor/watch/config.go:24-111 | whenever every declared flag is present with its declared type, whatever its value and whatever other flags the set holds, the parse succeeds |
| `Config.DefaultsParse` | cmd/blobstreamx-monitor/watch/config.go:24-49 | with every flag at its default, the configuration holds exactly the declared defaults |
| `Config.DefaultsFailValidation` | cmd/blobstreamx-monitor/watch/config.go:59-69 | with every flag at its default, validation fails with "the EVM address cannot be empty: flag --evm.contract-address" |
| `Config.ValidateEVMAddress` | cmd/blobstreamx-monitor/watch/config.go:66-74 | the empty address gets the "cannot be empty" error, a non-empty address the hex check rejects gets "valid EVM address is required", and the result is nil exactly when the address is non-empty and passes the hex check |
| `Config.EmptyAddressSkipsHexCheck` | cmd/blobstreamx-monitor/watch/config.go:67-69 | for the empty address the verdict is the same whatever the hex check says, so the check is never consulted |
| `Config.RejectionsAreDistinct` | cmd/blobstreamx-monitor/watch/config.go:67-72 | an empty address and a malformed one are rejected with different errors |
| `Config.ValidateBasics` | cmd/blobstreamx-monitor/watch/config.go:59-64 | succeeds exactly when the contract address validates; on failure the message is the address error followed by ": flag --evm.contract-address" |
| `Config.ValidateBasicsReadsOnlyAddress` | cmd/blobstreamx-monitor/watch/config.go:59-64 | two configurations with the same contract address validate alike, whatever their other fields |
| `Bridge.SendKeepsSample` | cmd/blobstreamx-monitor/watch/cmd.go:174-179 | a send lands at the tail of the buffer while there is room, and otherwise leaves the buffer as it was and queues the sample behind the waiting ones; no sample is dropped |
| `Bridge.ReceiveRefillsBuffer` | cmd/blobstreamx-monitor/watch/cmd.go:78-82 | receiving from a full buffer with a waiting sender removes the head and moves the oldest waiting sample into the buffer's tail |
| `Bridge.SampleBuffer.constructor` | cmd/blobstreamx-monitor/watch/cmd.go:75 | a new channel is open and empty, with the capacity asked for |
| `Bridge.SampleBuffer.Send` | cmd/blobstreamx-monitor/watch/cmd.go:174-176 | the sample is appended after every sample sent earlier and not yet received; it enters the buffer when there is room and otherwise leaves the buffer as it was |
| `Bridge.SampleBuffer.Close` | cmd/blobstreamx-monitor/watch/cmd.go:78-80 | closing keeps the buffered samples receivable and marks the channel closed |
| `Bridge.SampleBuffer.TryReceive` | cmd/blobstreamx-monitor/watch/cmd.go:76-88 | never waits: on a non-empty channel it observes and removes exactly the head sample with no error; on an open empty channel nothing changes and there is no error; on a closed drained channel it returns the callback's error |
| `Retry.FirstSuccess` | cmd/blobstreamx-monitor/watch/cmd.go:145-154 | every attempt before the returned index fails, and the attempt at that index succeeds when there is one |
| `Retry.Resubscribe` | cmd/blobstreamx-monitor/watch/cmd.go:142-159 | at most 50 attempts; it recovers exactly when one of the first 50 succeeds, stopping at the first success; otherwise it makes all 50 and returns the 50th attempt's error; it pauses once per failed attempt, after the last failure too |
| `Retry.ThreeFailuresThenRecovery` | cmd/blobstreamx-monitor/watch/cmd.go:145-157 | three failures and then a success recover within the bound, on the fourth attempt |
| `Retry.GivesUpIffAllAllowedAttemptsFail` | cmd/blobstreamx-monitor/watch/cmd.go:145-159 | an episode gives up exactly when each of its 50 allowed attempts fails |
| `Teardown.FailureMessagesEmptyIffAllSucceed` | cmd/blobstreamx-monitor/watch/cmd.go:56-61 | nothing is logged at teardown exactly when every stop function succeeds, and no more messages are logged than there are stop functions |
| `Teardown.RunStopFuncs` | cmd/blobstreamx-monitor/watch/cmd.go:55-62 | every registered stop function is called exactly once, in registration order, whether or not earlier ones fail; the errors logged are those of the failing ones, in order |
| `Watch.ToInt64` | cmd/blobstreamx-monitor/watch/cmd.go:175-178 | the conversion gives an int64 congruent to its argument modulo 2^64, equal to it when it fits |
| `Watch.HaltIndex` | cmd/blobstreamx-monitor/watch/cmd.go:137-181 | no branch before the returned index ends the loop, and the branch at that index does |
| `Watch.StableSubscriptionHandlesEveryEvent` | cmd/blobstreamx-monitor/watch/cmd.go:160-179 | on a stable subscription the loop never stops and handles every event, in order: N events give N counter increments and N samples of each kind |
| `Watch.RecoveryThenCancellation` | cmd/blobstreamx-monitor/watch/cmd.go:139-179 | after an event, an episode of three failures and a success, and another event, cancellation ends the loop; both events were handled and the error is "context canceled" |
| `Watch.Watcher.constructor` | cmd/blobstreamx-monitor/watch/cmd.go:54-90 | the command starts with no stop functions, a zero counter and two empty open channels of capacity 100 |
| `Watch.Watcher.RegisterTelemetry` | cmd/blobstreamx-monitor/watch/cmd.go:117-124 | a non-nil shutdown function is registered whether or not an error comes with it, and the error is then returned |
| `Watch.Watcher.Subscribe` | cmd/blobstreamx-monitor/watch/cmd.go:130-133 | a successful first subscription starts the loop; a failed one ends the command with its error and is not retried |
| `Watch.Watcher.OnCancel` | cmd/blobstreamx-monitor/watch/cmd.go:140-141 | cancellation ends the loop with "context canceled" and changes nothing else |
| `Watch.Watcher.OnSubscriptionError` | cmd/blobstreamx-monitor/watch/cmd.go:142-159 | after a recovery the loop stays Running, with counter and channels untouched; otherwise it ends with the 50th attempt's error; the pauses equal the failed attempts |
| `Watch.Watcher.OnEvent` | cmd/blobstreamx-monitor/watch/cmd.go:160-179 | the counter goes up by exactly one, and exactly one nonce sample (the proof nonce) and one height sample (the end block) are sent |
| `Watch.Watcher.Step` | cmd/blobstreamx-monitor/watch/cmd.go:139-180 | only an event changes the counter and the channels, only a subscription error pauses (once per failed attempt), and only an ending branch leaves the Running state, with that branch's error |
| `Watch.Watcher.Serve` | cmd/blobstreamx-monitor/watch/cmd.go:137-181 | the loop handles branches until the first ending one; the counter rises by the number of events before it, the channels receive their samples in order, and the loop ends with that branch's error; the pauses are those of every branch handled |
| `Watch.Watcher.NonceCallback` | cmd/blobstreamx-monitor/watch/cmd.go:76-88 | on the never-closed nonce channel a call observes and removes the oldest sample, or does nothing when the channel is empty; neither is an error |
| `Watch.Watcher.HeightCallback` | cmd/blobstreamx-monitor/watch/cmd.go:91-103 | likewise for the height channel |
| `Watch.RunE` | cmd/blobstreamx-monitor/watch/cmd.go:34-182 | the first failing startup step's error is returned unchanged; after startup the command returns the error of the branch that ends the loop; whenever it returns, each stop function registered by then runs exactly once, in order, and their errors are only logged |

## Left out

- `telemetry/metrics.go` is not part of this model. It is exporter and meter-provider wiring around OpenTelemetry. It is also out of step with its caller: `InitMeters` takes no callbacks and `Config` has no `Label`. The model follows cmd.go and config.go.
- `cmd/blobstreamx-monitor/root/cmd.go` and `cmd/blobstreamx-monitor/main.go` are not part of this model: they only wire commands and exit the process.
- `GetLogger` and `TrapSignal`: log-level parsing, writer selection and OS signals. The logger's error is a startup outcome (`Startup.logger`), and the signal is the `Cancelled` branch.
- `ethclient.Dial`, `NewBlobstreamXFilterer`, `WatchDataCommitmentStored`, `InitMeters` and `telemetry.Start` are foreign calls. Their results are given as `Startup` fields and `SubscribeOutcome` values.
- go-ethereum's `IsHexAddress` is the parameter `isHexAddress`. Its own rule (an optional 0x prefix, then 40 hex digits) is not modelled.
- The flag library is not modelled. `FlagSet` is the already-parsed flags. `CheckFlag` gives a lookup's two failure cases (flag undeclared, wrong type) with messages in the library's style.
- Concurrency: each send runs in a goroutine of its own. The model queues samples in the order the goroutines are started, but Go does not promise that order. The callbacks run on the exporter's schedule; the model runs them one call at a time.
- The `select` picks among ready branches at random; a `Selection` script fixes the choice. The endless `for` loop ends in the model when the script runs out (`Exit.StillWatching`).
- `Retry.Resubscribe`: its precondition `AnswersEpisode` only asks the outcome sequence to answer every attempt the loop makes; the source places no demand there.
- `time.Sleep(30 * time.Second)` is a ghost count of pauses; no clock is modelled.
- Log lines and the hex formatting of `DataCommitment` are left out: they only present data.
- `big.Int`: the proof nonce is a natural number. `Int64()` is taken as its low 64 bits in two's complement, which is what Go computes although its documentation leaves the result undefined beyond the int64 range.
- The other deferred calls, `cancel()`, `ethClient.Close()` and `subscription.Unsubscribe()`, release foreign resources and are not modelled. The deferred `Unsubscribe` is bound to the first subscription handle when the defer runs, so a handle obtained by resubscription is never unsubscribed.
- `Watch.Watcher.NonceCallback`: states no error case, because the command never closes its channels. The closed-and-drained error is stated on `Bridge.SampleBuffer.TryReceive`. The same holds for `Watch.Watcher.HeightCallback`.
- `Watch.RunE`: does not state the counter and channel contents; `Watch.Watcher.Serve` states them.
