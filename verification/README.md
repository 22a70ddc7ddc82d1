# Go-Milli message delivery: a verified model

Go-Milli is a Go framework for message-driven services. This project models the parts of it that
decide whether a message survives, and proves what they promise.

* **Delivery over Redis Streams.** `Streams` is the server, one stream with one consumer group,
  reduced to the documented behaviour of XADD, XREADGROUP with `>`, XAUTOCLAIM and XACK. `Delivery` is
  the protocol: publishers, any number of consumer loops, dead-letter hand-off, with every adverse
  step (a crash in the middle of a batch, a command that acted although its reply was lost, a failed or
  stale acknowledgement, a panic, a cancellation, a dead-letter publish refused by a draining broker).
  A run is a sequence of actions, each resolving the choices of its surroundings. The theorems about
  all runs are in `Fidelity` (what needs no condition), `NoLoss`, `Spacing`, `Recovery`, `Timing`,
  `Progress`, `Shutdown` and `DeadLetters`. `ConsumeLoop` is the code of `consumeLoop` and
  `handleMessages`, statement by statement, proved to perform runs of that protocol between arbitrary
  interference, so the theorems hold of the code. `Cadence` bounds the time between its scans, and
  `Wire` is the encoding of messages.
* **The retry middleware.** `Retry` holds a small machine whose events are the middleware's
  interactions with its surroundings, and the retry loop itself, proved to produce only traces of that
  machine; `RetryTheorems` characterises those traces. `Float64` is the rounding of binary floating point,
  `Exponential` the theory of the delays over any such rounding, `Backoff` the code. The handler inside
  `Delivery` is this same machine.
* **Lifecycle.** `Lifecycle` has one step per lock section and per channel wait of the broker's
  `Connect`, `Disconnect`, `Subscribe`, `Unsubscribe` and of the consumer's `Start` and `Stop`, for any
  number of concurrent callers; `DrainSafety` and `GracefulStop` hold the inductive invariant and
  its consequences. `BrokerMutex` puts the broker's read-write lock on top, acquired and released around
  every section, with calls of `Publish` by handlers and others; `DrainProgress` proves from it that
  drains and handlers do not block each other and that a drain is bounded. `ShutdownRetry` runs this
  machine and `Delivery` side by side, sharing `connected`. `BrokerLock` is the code of the lock
  sections. `Registration` has the consumer's registrations, `Start` and `Stop` as steps, among
  subscriptions that end from outside; `Consumer` is their code.
* **The in-process broker.** `Channel` has the bounded queues, consumer-group fan-out, overflow
  goroutines and consumer goroutines as steps; `ChannelSafety` and `ChannelOrder` prove conservation and
  order, `ChannelLiveness` which copies can still be handled, `ChannelFanOut` who receives a publish;
  `ChannelPublish` is the code of `Publish` between arbitrary interference.
* **Composition and metadata.** `Onion` is the wrapper loop and the context acknowledgement; `EndToEnd`
  follows a publisher's metadata to the handler's context.

Ids of stream entries are their positions in the log, from 1; cursor 0 stands for `0-0`. Times are
integers, durations nanoseconds. The server's clock stamps deliveries; each loop has a clock of its own
for scheduling scans.

## What turned out to need a condition

* `MaxRetries < 0` without a dead-letter queue: the retry loop never runs, the middleware returns nil,
  and the message is acknowledged although nobody handled it. `NoLoss.NeverLosesIffSound` proves that
  messages are safe if and only if the options exclude this, and `NoLoss.UnsoundOptionsLose` gives the
  run. With a dead-letter queue a negative limit makes the middleware panic on the nil error instead; the
  panic guard turns that into an error and the message stays pending.
* A backoff product that is no 64-bit duration becomes whatever the platform's conversion yields; on amd64
  that is the smallest 64-bit integer, so the delay collapses. `Backoff.DelayIsCappedIffFits` and
  `Backoff.DelaysGrowIff` give the exact conditions, in `float64` arithmetic with its rounding and overflow,
  and `Backoff.DefaultsFitIff` the last good attempt of the default options (34). A backoff that starts at zero
  breaks once the power is infinite (`Backoff.ZeroBreaksAt1024`), the largest duration at once
  (`Backoff.LargestBreaksAtOnce`).
* Registrations are distinct by topic and raw queue name, but the consumer group they end up in is not:
  `Registration.GroupsDistinctIff` gives the condition and `Registration.SharedGroup` two registrations
  that share a group.
* A `Start` that succeeds passes over every entry that an earlier, failed `Start` has bound, whether or not
  its subscription still runs. If its context was cancelled or anybody disconnected the broker meanwhile,
  the entry stays without a loop: `Registration.StartPassesOverLost` gives the run. A `Start` of a consumer
  that is started returns nil at once, so what was registered since has no loop either:
  `Registration.StartSkipsLate` gives the run. `Registration.StartLeavesAllLiveIff` is the exact condition for
  every `Start` that returns nil, and `Registration.QuietStartLeavesAllLiveIff` one that can be checked before
  the call.
* A subscriber of the in-process broker that has been ended stays registered. A publish that comes to it
  leaves its copy there, never to be handled, even if its group has live members:
  `ChannelLiveness.ExitedMemberSwallows`, with a run in `ChannelLiveness.LiveMemberPassedOver` and the exact
  condition in `ChannelLiveness.CanBeHandledIff`.
* `Stop` of a consumer whose last `Start` failed half-way does nothing, so what that `Start` subscribed
  stays live: `Registration.StopLeavesHalfStarted` gives the run, `Registration.StopLeavesNothingIff` the
  exact condition.

## Model

| member | source | states |
|---|---|---|
| `NoLoss.NoMessageIsLost` | broker/redis/redis.go:300-407 | With sound retry options, in every reachable state each published id is in exactly one of undelivered, pending and acknowledged, and is acknowledged only if a business handler succeeded on it, a dead letter was accepted for it, or the handler acknowledged it itself |
| `NoLoss.StepKeepsInv` | broker/redis/redis.go:366-406 | Every action, adverse ones included, keeps the no-loss invariant: a loop reaches an acknowledgement only with a settled id, and what is acknowledged is justified |
| `NoLoss.UnsoundOptionsLose` | wrapper/retry/retry.go:87-149 | With a negative retry limit and no dead-letter queue a concrete run acknowledges a message nobody handled |
| `NoLoss.NeverLosesIffSound` | wrapper/retry/retry.go:87-149 | Handlers with given options never lose a message if and only if the retry limit is non-negative or a dead-letter queue is configured |
| `NoLoss.RefusedStaysPending` | wrapper/retry/retry.go:138-141 | With sound retry options, in every run a message whose dead-letter publish was refused is pending, unless it was settled or acknowledged by its handler otherwise |
| `NoLoss.SettledIff` | wrapper/retry/retry.go:91-145 | In every run an id counts as settled if and only if at some step the business handler returned nil on it or a dead letter for it was stored, and as acknowledged by hand only if the run did that |
| `ShutdownRetry.DrainRefusesDeadLetter` | broker/redis/redis.go:195-229 | A dead-letter publish that looks at the broker between the two lock sections of a Disconnect is refused and stores nothing, whatever happens meanwhile; the middleware returns an error |
| `ShutdownRetry.RefusedIsRecovered` | wrapper/retry/retry.go:138-141 | With sound retry options, in every joint run of broker and delivery a message whose dead letter was refused is pending unless settled otherwise, and once idle it is handed out again within the bounded scans of any one loop |
| `ShutdownRetry.RunsDelivery` | broker/redis/redis.go:223-229 | Every joint run is a run of the delivery protocol, whose connection flag is the field that Connect and Disconnect write |
| `Fidelity.IdsArePartitioned` | broker/redis/redis.go:300-407 | In every run at all, each published id is in exactly one of undelivered, pending and acknowledged, and what is stored decodes to what was published |
| `Fidelity.StepKeepsInv` | broker/redis/redis.go:366-407 | Every action keeps the partition, faithful storage, and loops that hold only delivered ids and work inside their batch |
| `Recovery.ClaimableIff` | broker/redis/redis.go:318-329 | The next scan of a loop can hand out a pending entry, whoever owned it, if and only if it is idle, the cursor has not passed it, and fewer than a batch of idle entries lie between |
| `Fidelity.HandlerSeesPublished` | broker/redis/redis.go:371-394 | In every run, on a first delivery or any reclaim, the handler is called with exactly the message that was published under its id |
| `Spacing.DeliveriesAreSpaced` | broker/redis/redis.go:318-339 | Across all loops of a group, two deliveries of one id are at least `claimMinIdle` apart on the server's clock |
| `Spacing.DeliveryRateIsBounded` | broker/redis/redis.go:318-339 | In any window of width T an id is delivered at most 1 + floor(T / claimMinIdle) times |
| `Spacing.TimelyMeansExactlyOnce` | README.md:13-17 | If every delivered message is acknowledged within the idle threshold, its wait in the batch included, no id is delivered twice and no two loops ever hold the same id |
| `Recovery.CursorMovesOnlyOnScan` | broker/redis/redis.go:322-330 | The persistent cursor changes only on a scan whose reply arrived |
| `Recovery.ScanMovesOn` | broker/redis/redis.go:318-328 | A scan hands out an idle entry or moves the cursor on, never past an entry it has not reached |
| `Recovery.IdleEntryIsRecovered` | broker/redis/redis.go:302-331 | Whatever others do, an idle entry is handed out again or acknowledged within a bounded number of scans of any one loop |
| `Recovery.SweepsRecover` | broker/redis/redis.go:302-331 | An entry idle when a sweep starts is recovered by the end of it, any idle entry within two sweeps |
| `Recovery.SweepEnds` | broker/redis/redis.go:168-170 | Until it wraps around, each successful scan of a sweep uses up one of the pending entries at or past the cursor when it began, or one delivered since, so it ends; this rests on a positive batch count |
| `Timing.ScansAreRegular` | broker/redis/redis.go:303-363 | Whenever a loop of the protocol decides to scan, its last scan, successful or failed, ended at least the claim interval and less than that plus one reading part ago |
| `Timing.TimeBringsScans` | broker/redis/redis.go:303-363 | From any reachable state, the clock of a prompt loop cannot pass the interval, n periods of scanning, reading and waiting, and a last scan and read, without more than n scans, failed ones counted |
| `Timing.RecoveredInTime` | broker/redis/redis.go:302-363 | An idle entry of any reachable state is handed out again or acknowledged within a bounded time on the clock of any one prompt loop, which each failed scan prolongs by one period |
| `Timing.DeadlineIs` | broker/redis/redis.go:302-363 | That time is interval + n * (read + scan + interval) + read + scan, for the n scans that recovery takes at most, failed ones included |
| `Progress.ReadsDrain` | broker/redis/redis.go:333-362 | Without new publishes, r non-empty reads by any loops leave exactly max(0, U - r * batchCount) of U undelivered entries |
| `Progress.GroupDrains` | broker/redis/redis.go:309-363 | From any reachable state, a loop with automatic acknowledgement that runs undisturbed, its handlers and acknowledgements succeeding, empties the group, whatever others left pending and even if some of its commands fail to reach the server: once claimMinIdle has passed, twice as many scans as such entries, with reads enough for the undelivered ones, leave everything acknowledged |
| `Progress.BatchLowersOutstanding` | broker/redis/redis.go:366-406 | Handling a batch of pending entries undisturbed lowers undelivered plus pending by exactly its length |
| `Shutdown.AtMostOneMoreCall` | broker/redis/redis.go:366-370 | After its context is cancelled a loop calls at most one more handler, and only one whose check it had already passed |
| `Shutdown.NilIsAcknowledged` | broker/redis/redis.go:394-405 | Unless its process dies, a loop attempts one acknowledgement per handler that returned nil, all of them before `done` closes |
| `Shutdown.ManualNeverAcks` | broker/redis/redis.go:400-405 | In every run a loop without automatic acknowledging never acknowledges |
| `Shutdown.LoopIsAsSpawned` | broker/redis/redis.go:273-295 | In every run a loop keeps the owner, acknowledgement mode and retry options it was spawned with, and is cancelled if and only if the run cancelled it |
| `DeadLetters.DeadLettersAreCopies` | wrapper/retry/retry.go:127-138 | In every run at all, each stored dead letter has the body of the message published under its id and its headers, other than the two the middleware sets |
| `DeadLetters.OpenGateAccepts` | broker/redis/redis.go:223-250 | A dead-letter publish can be accepted if and only if it found the broker connected; then the letter is stored and the middleware returns nil |
| `Delivery.StepKeepsValid` | broker/redis/redis.go:300-407 | Every action keeps the partition of ids into undelivered, pending and acknowledged |
| `Delivery.HandoutFacts` | broker/redis/redis.go:318-339 | A step hands out distinct ids that are new or idle for claimMinIdle, makes exactly those pending with the loop's owner from now, and leaves every other pending entry alone |
| `Streams.ReadNewDelivers` | broker/redis/redis.go:333-339 | A read with `>` hands out exactly the next ids, as many as asked for and available, none delivered before |
| `Streams.AutoClaimDelivers` | broker/redis/redis.go:318-321 | A claim re-stamps exactly the idle entries it covers and changes no other |
| `Streams.NextCursorFacts` | broker/redis/redis.go:328 | The returned cursor is the first pending id not yet examined, or the start when there is none |
| `Streams.AckKeeps` | broker/redis/redis.go:447-449 | An acknowledgement removes its id whoever owns it, a repeated one changes nothing, and the partition is kept |
| `ConsumeLoop.World.ConsumeLoop` | broker/redis/redis.go:300-364 | The loop's code, with `cursor` and `nextClaim` as its locals, performs only protocol steps; its commands, calls and acknowledgements form a sequence of rounds, a scan if due and then a read; it stops only when cancelled; from an empty broker on, no message is lost and deliveries are spaced |
| `ConsumeLoop.World.Scan` | broker/redis/redis.go:317-332 | A due scan either fails and leaves the cursor, or moves it and has its batch handled; the next scan is scheduled from the time it ends; it stops the loop if and only if it failed and the loop is cancelled |
| `ConsumeLoop.World.ReadBatch` | broker/redis/redis.go:333-362 | A read brings a batch, which is handled, or nothing, or fails; a failed read is followed by the pause unless the loop is cancelled by then; without a batch it stops the loop if and only if that is cancelled; it never touches cursor or schedule |
| `ConsumeLoop.World.HandleMessages` | broker/redis/redis.go:366-407 | The messages are handled one after the other, each called, returned from and, after a nil result, acknowledged; a rest is skipped only once the context is cancelled, and everything if it was cancelled before |
| `ConsumeLoop.World.HandleOne` | broker/redis/redis.go:367-405 | One message: nothing if cancelled, else its handler is called and it is acknowledged if and only if the result was nil and acknowledging is automatic |
| `ConsumeLoop.World.FindStop` | broker/redis/redis.go:318-321 | For every state and cursor there is a scan the server may perform |
| `ConsumeLoop.OutsideOnlyDelays` | broker/redis/redis.go:300-364 | Any steps of others between two of its own leave a loop as it was, except for time and cancellation |
| `ConsumeLoop.OutsideLeavesHistory` | broker/redis/redis.go:300-407 | Nobody else's steps add to what a loop has done |
| `Cadence.ChooseBlock` | broker/redis/redis.go:303-307 | The block time is positive and at most the claim interval: the configured one when that lies in this range, else the claim interval itself |
| `Cadence.ScanTimes` | broker/redis/redis.go:309-363 | Over the protocol, whether scans succeed or fail: whenever a loop decides to scan, its last scan ended at least the claim interval, and less than that plus block plus max(H, 1s), ago |
| `Cadence.BriskIsPrompt` | broker/redis/redis.go:309-363 | If reads return within block, batches take at most H and pauses a second, a reading part of a round takes at most block plus max(H, 1s) |
| `Cadence.IdleReads` | broker/redis/redis.go:303-348 | Over the protocol, with no traffic and reads that block for the full time, the next scan comes after exactly ceil(interval / block) reads |
| `Wire.Encode` | broker/redis/redis.go:231-238 | The loop that builds the fields yields a body field, one `hdr.` field for each header and nothing else, in whatever order the headers come |
| `Wire.Send` | broker/redis/redis.go:241-244 | The fields sent, in whatever order, are a listing of the field map |
| `Wire.DecodeValues` | broker/redis/redis.go:371-383 | The loop that reads the fields yields the body field, or an empty body, and a header for exactly each `hdr.` field, in whatever order the fields come |
| `Wire.RoundTrip` | broker/redis/redis.go:231-238 | Decoding the fields of any message gives the message back, for every header name |
| `Wire.FieldsInjective` | broker/redis/redis.go:231-238 | Messages with the same fields are the same message |
| `Wire.ReceivedIsDecoded` | broker/redis/redis.go:376-383 | Reading the pairs of an entry one by one, in any order and with repetitions, is decoding the collected map |
| `Wire.DeliveryYieldsPublished` | broker/redis/redis.go:371-383 | However the server orders the fields of an entry, each delivery of it yields the published message |
| `Retry.HandleWithRetry` | wrapper/retry/retry.go:84-150 | The middleware's code produces only traces of the retry machine with the result the machine gives; called with a cancelled context it calls nobody, and with a non-negative retry limit returns the context's error; which traces those are, `TraceLanguage` and `ExhaustionHandsOver` say in terms of the options |
| `Retry.CopyHeaders` | wrapper/retry/retry.go:127-130 | The copy equals the original map |
| `RetryTheorems.TraceLanguage` | wrapper/retry/retry.go:84-149 | The completed traces are exactly (fail, sleep)* followed by success, cancellation, panic, or a final failure with its optional dead letter, and the ending fixes the result; with a negative limit exactly those of the empty loop |
| `RetryTheorems.ExhaustionHandsOver` | wrapper/retry/retry.go:119-149 | In every completed call in which attempt number MaxRetries failed and no cancellation is seen, a dead letter is published if and only if a topic is named and a broker given; it goes to that topic; without one the result is that attempt's error, with one it is nil if accepted and else joins both errors |
| `RetryTheorems.CallsBounded` | wrapper/retry/retry.go:87-99 | The handler is called at most MaxRetries + 1 times, and never when that is negative |
| `RetryTheorems.SleepBounded` | wrapper/retry/retry.go:101-116 | A call sleeps at most MaxRetries * MaxBackoff in all |
| `RetryTheorems.NilMeansSettled` | wrapper/retry/retry.go:91-149 | The result is nil if and only if an attempt succeeded or the dead letter was accepted |
| `RetryTheorems.NilMeansSettledIffSound` | wrapper/retry/retry.go:87-149 | That equivalence holds of all traces if and only if the retry limit is non-negative or a dead-letter queue is configured |
| `RetryTheorems.CancelMeansNoDlq` | wrapper/retry/retry.go:88-126 | A cancellation the middleware sees ends the call with an error and no dead letter is ever sent |
| `RetryTheorems.DeadLetterContents` | wrapper/retry/retry.go:127-138 | A dead letter keeps body and headers, gains the original topic and the error of the attempt that failed last, and nothing else |
| `RetryTheorems.NestedCallsBounded` | wrapper/retry/retry.go:83-117 | A retry of n around a retry of k calls the handler at most (n + 1)(k + 1) times |
| `Backoff.Pow` | wrapper/retry/retry.go:155-161 | The loop computes the power by repeated multiplication, each product rounded as in float64 |
| `Backoff.DelayFor` | wrapper/retry/retry.go:101-105 | The computed backoff is the float64 product of initial backoff and power, converted and capped |
| `Exponential.PowIsPower` | wrapper/retry/retry.go:154-161 | As long as no intermediate power needs rounding, pow is the mathematical power |
| `Exponential.PowerAdds` | wrapper/retry/retry.go:154-161 | The mathematical power turns sums of exponents into products |
| `Float64.RoundIsRounding` | wrapper/retry/retry.go:155-161 | Rounding to nearest, ties to even, with overflow, is monotone, leaves its results alone, and is exact on numbers of 53 binary digits |
| `Float64.RoundIsNearest` | wrapper/retry/retry.go:155-161 | Of all numbers with 53 binary digits the rounded one is nearest |
| `Float64.NearestIsNearest` | wrapper/retry/retry.go:155-161 | The integer it rounds to is nearest, and the even one of two equally near |
| `Float64.ConversionTruncates` | wrapper/retry/retry.go:101-105 | Conversion discards the fraction, and fails exactly for what is no 64-bit integer then |
| `Exponential.DelayGrows` | wrapper/retry/retry.go:101-105 | Over any such rounding, delays never shrink from one attempt to a later one whose product fits 64 bits |
| `Backoff.DelaysGrowIff` | wrapper/retry/retry.go:101-105 | The delays up to attempt n are non-decreasing if and only if the float64 product of attempt n fits 64 bits, or not even the first one does |
| `Backoff.DelayIsCappedIffFits` | wrapper/retry/retry.go:101-105 | For any multiplier, the delay is what a conversion without limits would give, capped, if and only if the float64 product fits 64 bits |
| `Backoff.DelayIsExponentialIff` | wrapper/retry/retry.go:101-105 | As long as nothing needs rounding, the delay is the initial backoff times the mathematical power, capped, if and only if that fits 64 bits |
| `Backoff.DefaultsFitIff` | wrapper/retry/retry.go:102 | With the default options the product fits if and only if the attempt is at most 34 |
| `Backoff.DefaultSchedule` | wrapper/retry/retry.go:101-105 | The default delays are 0.5, 1, 2, 4, 8 and then 10 seconds up to attempt 34, and leave the schedule at 35 |
| `Backoff.ZeroBreaksAt1024` | wrapper/retry/retry.go:102 | Doubling from zero, the delay is zero at attempt 1023 and the smallest integer at 1024 |
| `Backoff.LargestBreaksAtOnce` | wrapper/retry/retry.go:102 | With the largest duration as initial backoff the first delay is the smallest integer |
| `Retry.ScheduleFollows` | wrapper/retry/retry.go:101-105 | Every setting of the backoff yields a schedule for its options |
| `Retry.ScheduledDelay` | wrapper/retry/retry.go:101-105 | The sleep that the loop computes is the one in the schedule of its options |
| `GracefulStop.DisconnectDrains` | broker/redis/redis.go:184-213 | When any Disconnect call returns, drainer or waiter, every subscriber registered before that call has ended |
| `GracefulStop.DrainExcludes` | broker/redis/redis.go:156-213 | During a drain the broker is not connected, every live loop is captured, Subscribe and Connect cannot succeed; no channel is ever closed twice |
| `GracefulStop.UnsubscribeWaits` | broker/redis/redis.go:465-469 | When Unsubscribe returns its loop has ended |
| `GracefulStop.ConnectConnects` | broker/redis/redis.go:156-182 | A Connect, or a Start, that is not held up by a drain leaves the broker connected if and only if it was or the call was accepted, and no subscriber is lost; during a drain it waits for that drain's channel |
| `GracefulStop.StartRegisters` | consumer/default_consumer.go:111-119 | Each subscription that Start makes is registered with the broker and with the consumer, with a loop that runs |
| `GracefulStop.DrainHappens` | broker/redis/redis.go:184-213 | A run in which a subscriber is drained in the middle of a handler by one Disconnect while another waits, and both return with the loop ended |
| `GracefulStop.StopIsGraceful` | consumer/default_consumer.go:127-161 | The in-flight count always equals the number of running handlers; once Stop has joined its subscriptions, so also when it disconnects, the count is zero and all loops have ended |
| `BrokerMutex.RunsBelow` | broker/redis/redis.go:156-213 | Every run with the lock is a run of the lifecycle, so its results hold with the lock |
| `BrokerMutex.RunKeepsInv` | broker/redis/redis.go:156-298 | The lock has one writer and no readers, or readers only; holders and waiters are at a lock section, and a publishing handler is inside its loop's call |
| `DrainProgress.DrainHoldsNoLock` | broker/redis/redis.go:199-207 | While a drain stops subscribers or waits for them it neither holds nor awaits the lock |
| `DrainProgress.LockIsFreed` | broker/redis/redis.go:156-213 | Without newcomers, holders and waiting writers are done with the lock after a bounded number of steps |
| `DrainProgress.PublishIsNotBlockedByDrain` | broker/redis/redis.go:201-229 | A call of Publish that waits for the lock can take it, or somebody other than a goroutine in the middle of a drain can bring it nearer to that |
| `DrainProgress.DrainingRefuses` | broker/redis/redis.go:223-229 | A Publish that looks at the broker between the two lock sections of a Disconnect is refused |
| `DrainProgress.DrainIsNeverStuck` | broker/redis/redis.go:201-212 | In every reachable state, with handlers publishing through the same broker, some step that brings a drain nearer to its end is enabled |
| `DrainProgress.DrainIsBounded` | broker/redis/redis.go:201-207 | Once a drain has stopped its captured subscribers their loops take at most three steps each, after which all have ended |
| `DrainProgress.DrainIsBoundedWithCalls` | broker/redis/redis.go:201-229 | If each handler makes at most k more calls of Publish, the drain, its loops and their handlers together take at most n + 3 + n(6 + 4k) steps for n captured subscribers; when the drain's share is used up it has returned |
| `GracefulStop.WaitersAreWoken` | broker/redis/redis.go:157-189 | Whoever waits for a drain waits on a channel that is closed or that the drain in progress will close |
| `GracefulStop.RunKeepsInv` | broker/redis/redis.go:156-213 | All of the lifecycle invariants hold in every reachable state |
| `DrainSafety.StepKeepsInv` | broker/redis/redis.go:156-298 | Every lock section and channel wait, by any caller, keeps the drain, subscriber and thread invariants |
| `BrokerLock.RedisBroker.Connect` | broker/redis/redis.go:156-182 | Connect waits if and only if a drain is in progress; otherwise it succeeds, and the broker is connected, if and only if it was connected or the three options are positive and the server answers |
| `BrokerLock.RedisBroker.BeginDisconnect` | broker/redis/redis.go:184-199 | The first lock section of Disconnect: during a drain it waits, unconnected it does nothing, else it captures all subscribers, opens the channel and leaves the broker unconnected with none |
| `BrokerLock.RedisBroker.EndDisconnect` | broker/redis/redis.go:208-211 | The second one closes exactly the channel that waiters hold, clears the field and touches nothing else |
| `BrokerLock.RedisBroker.Subscribe` | broker/redis/redis.go:252-298 | A subscriber is registered if and only if the broker is connected and its group exists |
| `BrokerLock.RedisSubscriber.Stop` | broker/redis/redis.go:471-476 | Stop can be called any number of times; `exit` is closed and the context cancelled once |
| `Consumer.DefaultConsumer.Subscribe` | consumer/default_consumer.go:35-64 | A registration is refused if and only if the same topic and queue are registered; otherwise exactly one entry, not yet subscribed, is added |
| `Consumer.DefaultConsumer.Start` | consumer/default_consumer.go:67-124 | On a started consumer it returns nil and does nothing; else success binds every entry, passing over what was bound, and failure keeps what was subscribed; after either nil every entry has a live subscription if and only if none has been lost and a consumer that was started had bound them all |
| `Consumer.DefaultConsumer.SubscribeOne` | consumer/default_consumer.go:88-119 | One registration is bound to a new live subscription with its topic and acknowledgement mode, in the group that its queue or else the service names; or nothing changes |
| `Consumer.DefaultConsumer.Stop` | consumer/default_consumer.go:127-161 | A started consumer ends with nothing bound, no live subscription and a disconnected broker; one that is not started is left as it is; nothing stays live if and only if it was started or all it was bound to had been lost |
| `Consumer.DefaultConsumer.ReleaseOne` | consumer/default_consumer.go:137-147 | One entry's subscription is ended and its entry becomes unsubscribed, the others stay |
| `Registration.LiveBelongsToOne` | consumer/default_consumer.go:51-119 | In every run, failed starts, restarts, stops and outside events included, registered (topic, queue) pairs are distinct and every live subscription belongs to exactly one entry: it has that entry's topic and acknowledgement mode, and its queue or else the service name as its group |
| `Registration.LiveAsAsked` | consumer/default_consumer.go:35-119 | In every run every live subscription has the topic, acknowledgement mode and group that one of the calls of Subscribe asked for |
| `Registration.EntriesAsAsked` | consumer/default_consumer.go:35-64 | In every run entry k holds the topic, queue and acknowledgement mode of the k-th accepted call of Subscribe |
| `Registration.BoundIsLiveIff` | broker/redis/redis.go:195-273 | A bound entry's subscription is live if and only if since it was made neither its context was cancelled nor the broker disconnected |
| `Registration.StartLeavesAllLiveIff` | consumer/default_consumer.go:71-123 | After every Start that returns nil, every entry has a live subscription if and only if none of those bound has been lost and, had the consumer been started, every entry was bound |
| `Registration.BoundIffNotRegisteredSince` | consumer/default_consumer.go:35-73 | A started consumer has an entry without subscription if and only if one was registered since its last Start went through |
| `Registration.QuietStartLeavesAllLiveIff` | consumer/default_consumer.go:71-123 | If nothing happens from outside during a Start that returns nil, every entry is live afterwards if and only if those bound before still were and the consumer was not started with an entry registered since |
| `Registration.StartPassesOverLost` | consumer/default_consumer.go:84-86 | A run in which a context is cancelled, or the broker disconnected, between a failed and a successful Start, which leaves an entry without a live subscription |
| `Registration.StartSkipsLate` | consumer/default_consumer.go:71-73 | A run in which a Start of a started consumer leaves an entry registered since without a subscription, though nothing was lost |
| `Registration.StopLeavesNothingIff` | consumer/default_consumer.go:127-147 | Stop leaves no live subscription if and only if the consumer was started or all its entries are bound to has been lost |
| `Registration.StopLeavesHalfStarted` | consumer/default_consumer.go:130-133 | A run in which Stop of a half-started consumer leaves a subscription live |
| `Registration.GroupsDistinctIff` | consumer/default_consumer.go:53-98 | Registrations of a topic have distinct consumer groups if and only if none is made both without a queue and with the service name as its queue |
| `Registration.SharedGroup` | consumer/default_consumer.go:53-98 | Two registrations that Subscribe accepts and that share a consumer group |
| `Channel.GroupSubs` | broker/mchannel/channel.go:145-152 | The grouping loop yields the groups that `GroupsPartition`, `SameGroupIff` and `AloneWithoutQueue` describe |
| `Channel.GroupsPartition` | broker/mchannel/channel.go:145-152 | The groups partition the subscribers of the topic, none is empty, and members are listed in the order of their registration |
| `Channel.SameGroupIff` | broker/mchannel/channel.go:145-152 | With distinct ids, none of them a queue name, two subscribers of a topic share a group if and only if they name the same queue |
| `Channel.AloneWithoutQueue` | broker/mchannel/channel.go:147-151 | With such ids a subscriber that names no queue is the only member of a group |
| `ChannelFanOut.FanOut` | broker/mchannel/channel.go:109-185 | When a publish has returned, in any run, every subscriber of the topic registered when it began and without a queue has exactly one copy of its own, of those naming the same queue exactly one has it, and nobody else has any |
| `ChannelFanOut.ConnectedIff` | broker/mchannel/channel.go:63-96 | In every run the broker is connected if and only if some Connect was not followed by a Disconnect |
| `ChannelFanOut.RegisteredAs` | broker/mchannel/channel.go:200-211 | A subscriber keeps the topic, queue, id and capacity it was registered with in every continuation |
| `ChannelFanOut.SignalledForGood` | broker/mchannel/channel.go:79-96 | Unsubscribe signals its subscriber to exit, Disconnect of a connected broker all of them, and no continuation takes that back |
| `ChannelFanOut.OverflowIff` | broker/mchannel/channel.go:173-182 | A run counts as overflowed if and only if some publish left a copy to a goroutine |
| `ChannelSafety.CopiesAreConserved` | broker/mchannel/channel.go:154-182 | In every reachable state there is exactly one copy per publish and served group, counting queues, blocked senders, running handlers and handled logs together; none before, no others, and no queue exceeds its capacity |
| `ChannelLiveness.CanBeHandledIff` | broker/mchannel/channel.go:214-225 | A copy queued for, blocked on, or in the hands of a subscriber can still be handled in some continuation if and only if the subscriber's goroutine has not exited |
| `ChannelLiveness.CreatedIsSomewhere` | broker/mchannel/channel.go:154-225 | Every copy created and not handled is awaited by some subscriber |
| `ChannelLiveness.ExitedMemberSwallows` | broker/mchannel/channel.go:162-172 | A publish that comes to an exited member with room leaves its copy there, never to be handled, whatever members live |
| `ChannelLiveness.LiveMemberPassedOver` | broker/mchannel/channel.go:162-172 | A run in which an unsubscribed first member gets the copy although a second member lives |
| `ChannelSafety.StepMoves` | broker/mchannel/channel.go:158-225 | A successful send or an overflow goroutine adds exactly one copy, all other steps only move copies |
| `ChannelSafety.StepKeepsInv` | broker/mchannel/channel.go:158-225 | Every step keeps the invariant that the copies anywhere are exactly one per served group of each publish |
| `ChannelOrder.StreamsFollowPublishOrder` | broker/mchannel/channel.go:158-224 | What a subscriber handled, handles and has queued is exactly what was sent to it, in order; without overflow a publish that returned before another began was sent first |
| `ChannelOrder.GroupStreamsPartition` | broker/mchannel/channel.go:158-182 | Without overflow the copy of every served group is in the stream of exactly one subscriber, a member of that group |
| `ChannelOrder.StreamHoldsGroupCopies` | broker/mchannel/channel.go:145-182 | With or without overflow a subscriber's stream holds nothing but copies for groups it is a member of, each of them once |
| `ChannelPublish.World.Publish` | broker/mchannel/channel.go:109-185 | Publish fails if and only if the broker is not connected; otherwise it returns, waiting for no subscriber, with exactly one copy made for every group of its snapshot, and with distinct ids one for each subscriber without a queue, alone in its group |
| `ChannelPublish.World.SendToGroup` | broker/mchannel/channel.go:158-182 | Serving a group makes exactly one copy where there was none: for the first member that had room when it was tried, or by a goroutine for the first member when all were full |
| `ChannelPublish.OthersLeavePublish` | broker/mchannel/channel.go:116-158 | Steps of others never change the snapshot a Publish works from |
| `Onion.ApplyWrappers` | consumer/default_consumer.go:39-43 | The wrapper loop is a right fold: the first wrapper is the outermost |
| `Onion.ComposeSplits` | publisher/default_publisher.go:23-25 | Wrapping with A followed by B is wrapping with A around what B makes |
| `Onion.OnionOrder` | consumer/default_consumer.go:39-43 | Layers are entered in list order and left in reverse around one handler call |
| `Onion.AckReachesOwnMessage` | consumer/options.go:159-174 | Acknowledging through the context acknowledges exactly the handler's own message if the wrapper is anywhere in the chain, and nothing otherwise |
| `EndToEnd.BuildMessage` | publisher/default_publisher.go:34-75 | The broker message has the metadata under every other key and under Content-Type the message's content type or else the codec's name; its body is the payload's bytes, text or marshalled form; there is none if and only if the codec fails |
| `EndToEnd.PublishMessage` | publisher/default_publisher.go:34-84 | Publish returns nil if and only if the codec did not fail, the broker was connected and the server answered that the entry is stored; then the last step of the run stored the message built from the caller's metadata and payload |
| `EndToEnd.RedisPublish` | broker/redis/redis.go:223-250 | Publish returns nil if and only if the broker was connected and the server answered that the entry is stored; refused, it takes no step; else the encoded message is stored as the last step unless the command did not reach the server |
| `EndToEnd.HandleEvent` | consumer/subscriber.go:50-83 | The user handler is called once, counted while it runs, with the event's topic and body and its headers as metadata, none when they are missing; the result is nil if and only if the message could be decoded and the handler returned nil; its error is returned as it is, a panic as an error with the service name and the panic's value, a nil message likewise without a call; the count is restored on every way out |
| `EndToEnd.MetadataEndToEnd` | consumer/subscriber.go:63-77 | In every run that continues a publish of the message `PublishMessage` builds, whoever handles it, first or reclaimed, is called with its topic and body, with the content type or else the codec's name under Content-Type, and with exactly the publisher's metadata under every other key |

## Left out

- The Redis server and its client library are trusted. A scan may stop anywhere the count allows once it has examined something; entries are never trimmed or deleted, since the code never does so. One stream and group at a time; a second group is a second model with the same log. That the server's clock never goes back is part of the trust.
- `broker/kafka`: a thin adapter over a client library whose offset semantics decide what it promises.
- `broker/memory.go`: synchronous fan-out in order, only easy members.
- `web/`, HTTP timeouts, signal handling in `service.go`, logging, Prometheus and OpenTelemetry wrappers. The tracing wrapper changes shared metadata and is excluded from the metadata results.
- JSON codec internals: a payload carries the result of marshalling it. Codec failures of the in-process broker, which only make its `Publish` return early, are not modelled.
- Option plumbing and `Init` after `Connect`: options are fixed for a run.
- Bytes of a message are modelled as text, one character for one byte.
- Backoff.DelaysGrowIff: like the other results about delays, for attempt numbers that survive their own conversion to `float64`, which the last 512 of the 64-bit integers do not. `outOfRange` stands for the platform's conversion of an out-of-range product. Positive and negative zero are one number.
- ConsumeLoop.World.ConsumeLoop: proved for every finite number of rounds, since the loop has no other end than cancellation. The context check at its head and the look at the clock after it are one step.
- ConsumeLoop.World.Interfere: its body stands for an arbitrary choice, as do the bodies of the other methods for what lies outside the code (`CallSubHandler`, `Retry.World`, `ChannelPublish.World.Interfere`, `Consumer.Broker`, `Consumer.DefaultConsumer.Interfere`). Callers know only their contracts, which `ConsumeLoop.OutsideOnlyDelays` and `ChannelPublish.OthersLeavePublish` prove of every choice.
- GracefulStop.StopIsGraceful: `Stop` writes `started` after releasing the lock (consumer/default_consumer.go:149-150), so a `Start` that overlaps it could be forgotten. `Lifecycle` lets no `Start` begin during a `Stop`, until `Stop` calls `Disconnect`; `Registration` takes a whole `Stop` as one phase.
- A handler that calls `Unsubscribe` or `Disconnect` on its own subscriber waits for itself, and one that calls `Connect` during a drain waits for the drain that waits for it (broker/redis/redis.go:158-161). `Stop` holds the consumer's lock while it joins the loops (consumer/default_consumer.go:128-149), so a handler that calls `Options`, `Subscribe`, `Start` or `Stop` on its own consumer waits for a lock that is not released before it returns. No such call is modelled, and handlers are assumed to return.
- BrokerLock.RedisBroker.Connect: the ping and, in `Subscribe`, the creation of the group are parameters, done inside the lock section as in the code. Waiting for a drain and trying again are steps of `Lifecycle`.
- Consumer.DefaultConsumer.Stop: the goroutines that call `Unsubscribe` side by side are taken one after the other here; `Lifecycle` interleaves them. A subscription counts as lost as soon as its context is cancelled; its loop may still finish one handler call (`Shutdown.AtMostOneMoreCall`).
- DrainProgress.DrainIsNeverStuck: says that a helpful step is always enabled, and `DrainProgress.DrainIsBoundedWithCalls` that few are needed, if handlers do not publish without end; the steps with which others free the lock are bounded by `DrainProgress.LockIsFreed`. That the scheduler takes them, and that handlers return, is assumed. Among waiting writers and new ones no order is modelled.
- Timing.RecoveredInTime: the time a loop needs for a scan with its batch, and for a read with its batch or pause, are parameters that a run must keep to, failed commands included. A scan that fails hands nothing out, so each one postpones the bound by a period.
- ShutdownRetry.DrainRefusesDeadLetter: the two sides share `connected` and the look of a dead-letter publish at it; all else is interleaved freely, which allows more than the code does.
- EndToEnd.HandleEvent: the text of a nil-pointer panic stands for what the runtime says. The context it passes is a background context, so stopping the consumer does not interrupt a retry's sleep; the retry machine allows cancellation all the same, for handlers given another context.
- Identifiers of in-process subscribers come from `uuid`; if one equalled a queue name the two would share a group, in the model as in the code.
- Retry.CopyHeaders and the other map loops visit their keys in an arbitrary order, as Go's `range` does. Maps are values here, so that the original map is unchanged holds by construction.
