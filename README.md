# goapp counter server: a Dafny model of its stateful core

The server pushes a per-connection counter to websocket clients. Each
connection owns a **Watcher**. The broadcast source sends the Watcher signals
through a capacity-1 inbound channel, and surplus signals are dropped. The
Watcher's background loop raises the counter and publishes a pointer to it on
a capacity-1 outbound channel. A client can reset its counter to 0. A
**stats manager** counts the messages delivered to each session. Random hex
strings come from **GenerateHex** and **RandString**. An HTTP **middleware**
admits websocket upgrades by origin and other requests by a CSRF token.

The project has these modules:

- `Watcher` (watcher.dfy) gives the Watcher as a state machine.
  - `State` is the abstract state: the buffered signals, the number of
    published pointers, the Counter's fields, the stopped flag and whether
    the loop is blocked on a publish.
  - `Step` makes one atomic transition per method call or loop pass.
  - `Run` runs a sequence of events and records, for each receive, the
    Counter's iteration at the moment of that receive.
  - The lemmas prove what the code promises about these runs.
  - The classes `Counter` and `Watcher` hold the mutable objects. Every
    `Watcher` method is proved to perform exactly the `Step` for its event.
    The outbound channel carries the `Counter` object itself, so a receive
    sees the Counter's current fields rather than those at the publish, as
    with the Go pointer.
- `Stats` (stats.dfy): the session table as a `map`, the functions
  `Incremented`, `Lookup` and `Removed` that specify its updates, lemmas about
  them, and the classes `StatsManager` and `Server` whose methods are proved
  against those functions.
- `HexString` (hexstring.dfy): base-16 encoding with Go's lower-case alphabet,
  its inverse, `GenerateHex` with the random source as a parameter, and
  `RandString`.
- `Admission` (admission.dfy): `IsValidOrigin` and the middleware decision
  `CsrfDecision`, checked against an independent statement of the rule,
  `Admissible`.
- `Wrappers` (wrappers.dfy): `Option`.

Modelling choices:

- **Time.** The 100 ms ticker becomes the `abandoned` argument of a loop pass
  (the ticker case won the publish `select`) and the `Ticked` event. Go picks
  at random among ready cases, and the ticker channel keeps one tick buffered
  while the loop waits. So a publish can be abandoned even when the outbound
  slot is empty.
- **Blocking.** A pass whose publish finds the outbound slot full has already
  incremented; it leaves the loop blocked on the publish (`publishing`). The
  receive that frees the slot sees the new iteration through the pointer
  already queued, and in the same operation the blocked send queues the same
  pointer again, so the next receive sees that iteration a second time. A
  tick abandons the blocked publish instead. A receive on an open, empty
  channel waits, so it is not a step.
- **Stopped watchers.** `Send` and `ResetCounter` on a stopped Watcher send on
  a closed channel, which Go may answer with a panic. They are not steps, and
  the class methods require `!stopped`.
- **Identifiers.** The Watcher's uuid is a constructor argument. It is a
  `const` field, so `GetWatcherId` returns the same id for the whole life of
  the object.
- **Randomness.** The random source of `GenerateHex` is an argument: an
  endless byte stream or a failure.

In two places one might expect other behaviour; the model follows the code:

- When the outbound slot is full, the loop does not retry the publish every
  100 ms. On a tick it abandons that publish and goes back to waiting for
  signals (watcher.go:67-68).
- The output alphabet is lower-case (string.go:27), although the test's
  pattern expects upper case (string_test.go:21).

## Model

| member | source | states |
|---|---|---|
| `Watcher.Init` | internal/pkg/httpsrv/watcher.go:22-41 | after New and Start the Watcher is not stopped, its loop is not blocked on a publish, and each channel holds at most one item |
| `Watcher.Counter.constructor` | internal/pkg/httpsrv/watcher.go:28 | a new Counter has iteration 0 and an empty value |
| `Watcher.Watcher.constructor` | internal/pkg/httpsrv/watcher.go:22-41 | New followed by Start gives iteration 0, empty inbound and outbound channels, not stopped, no blocked publish, the given id, a fresh Counter |
| `Watcher.Watcher.GetWatcherId` | internal/pkg/httpsrv/watcher.go:79-81 | returns the id the constructor was given; it is a `const` field, so it is the same for the whole life of the Watcher |
| `Watcher.Watcher.Send` | internal/pkg/httpsrv/watcher.go:83-89 | Send performs exactly the Signalled step and keeps both channels within capacity |
| `Watcher.Watcher.MainLoopPass` | internal/pkg/httpsrv/watcher.go:51-71 | one loop pass performs exactly the Passed step: take a signal, skip "", otherwise increment and then publish into a free slot, block on a full one, or abandon the publish on a tick |
| `Watcher.Watcher.Tick` | internal/pkg/httpsrv/watcher.go:63-68 | the ticker firing performs exactly the Ticked step: a blocked publish is abandoned |
| `Watcher.Watcher.ResetCounter` | internal/pkg/httpsrv/watcher.go:95-105 | ResetCounter performs exactly the ResetRequested step |
| `Watcher.Watcher.Recv` | internal/pkg/httpsrv/watcher.go:91-93 | a receive yields the Watcher's own Counter, or null once the channel is closed and empty, lets a blocked publish refill the slot, and performs exactly the Received step |
| `Watcher.Watcher.Stop` | internal/pkg/httpsrv/watcher.go:74-77 | Stop performs exactly the Stopped step: the loop exits, dropping a blocked publish |
| `Watcher.SendNeverBlocks` | internal/pkg/httpsrv/watcher.go:83-89 | on a running Watcher, Send always completes; with an empty slot it stores the signal, with a full one it changes nothing |
| `Watcher.EmptySignalIsSkipped` | internal/pkg/httpsrv/watcher.go:55-58 | a pass taking "" only empties the inbound slot; iteration and outbound slot are unchanged, whatever the ticker does |
| `Watcher.SignalIncrementsOnce` | internal/pkg/httpsrv/watcher.go:59-69 | a pass taking a non-empty signal adds exactly 1 to the iteration; the outbound slot is filled if the publish goes through, left as it was if it is abandoned, and the loop blocks exactly when the publish finds the slot full |
| `Watcher.TickAbandonsWaitingPublish` | internal/pkg/httpsrv/watcher.go:63-68 | a tick while the loop is blocked on a publish releases the loop and keeps the increment and the earlier pointer in the slot |
| `Watcher.WaitingPublishDeliversTwice` | internal/pkg/httpsrv/watcher.go:59-69 | when the pass finds the slot full, the receiver that frees it reads the new iteration i+1, the blocked publish refills the slot, and the next receive reads i+1 again |
| `Watcher.ResetZeroes` | internal/pkg/httpsrv/watcher.go:95-105 | reset sets the iteration to 0 from any running state, publishes only into an empty slot, and leaves the slot full either way |
| `Watcher.StepKeepsInv` | internal/pkg/httpsrv/watcher.go:26-27 | no step puts a second item in either channel, and the loop is blocked on a publish only while the outbound slot is full and the Watcher runs |
| `Watcher.RunKeepsInv` | internal/pkg/httpsrv/watcher.go:26-27 | each channel holds at most one item after any run of events |
| `Watcher.StoppedIsTerminal` | internal/pkg/httpsrv/watcher.go:43-54 | after Stop, no modelled event raises or resets the iteration, takes a signal or restarts the Watcher; a receiver only drains earlier publishes and reads the frozen iteration |
| `Watcher.ObservationsAreMonotone` | internal/pkg/httpsrv/watcher.go:51-69 | without a reset the iteration never decreases, and the iterations read are non-decreasing and lie between the start and end values |
| `Watcher.IncrementsAreNeverLost` | internal/pkg/httpsrv/watcher.go:59-69 | when each signal is taken before the next arrives, the iteration rises by the number of signals, whichever publishes were abandoned |
| `Watcher.AbandonedTicksComplete` | internal/pkg/httpsrv/watcher.go:63-68 | passes whose publish is abandoned never wait, and they leave the outbound slot as it was |
| `Watcher.OneDrainedRound` | internal/pkg/httpsrv/watcher.go:55-69 | a signal, a successful publish and a receive read the incremented iteration and leave both channels empty |
| `Watcher.PublishThenReceive` | internal/pkg/httpsrv/watcher.go:55-69 | a queued signal taken by a pass that publishes into the empty slot, then a receive, reads the incremented iteration and leaves both channels empty |
| `Watcher.DrainedRoundsCountUp` | internal/pkg/httpsrv/watcher.go:55-69 | when each signal is drained before the next send, n signals are read as i+1, i+2, ..., i+n |
| `Watcher.ResetThenReceiveReadsZero` | internal/pkg/httpsrv/watcher.go:95-105 | after a reset, the next receive reads 0, even when the slot already held an earlier publish; a publish the loop was blocked on refills the slot |
| `Watcher.ScenarioSendSendReset` | internal/pkg/httpsrv/watcher.go:55-105 | from a new Watcher, two drained signals and then a reset are read as 1, 2, 0 |
| `Stats.StatsManager.constructor` | internal/pkg/httpsrv/stats.go:18-22 | a new stats manager holds no sessions |
| `Stats.StatsManager.Increment` | internal/pkg/httpsrv/stats.go:24-36 | the table becomes Incremented(old table, id), and every row stays filed under its own id |
| `Stats.StatsManager.GetStats` | internal/pkg/httpsrv/stats.go:38-49 | returns a copy with the row's id and count exactly when the id is present, nil otherwise, and changes nothing |
| `Stats.StatsManager.RemoveStats` | internal/pkg/httpsrv/stats.go:51-59 | the table becomes Removed(old table, id), and the logged row is the one that was deleted, if any |
| `Stats.Server.constructor` | internal/pkg/httpsrv/stats.go:61-63 | initStats gives the server a fresh, empty stats manager |
| `Stats.Server.IncStats` | internal/pkg/httpsrv/stats.go:65-67 | incStats performs exactly the manager's increment |
| `Stats.Server.RemoveStats` | internal/pkg/httpsrv/stats.go:69-71 | removeStats performs exactly the manager's removal |
| `Stats.IncrementCreates` | internal/pkg/httpsrv/stats.go:30-35 | increment on an absent id creates the row {id, 1} |
| `Stats.IncrementBumps` | internal/pkg/httpsrv/stats.go:28-29 | increment on a present id adds exactly 1 to its count and keeps its id |
| `Stats.IncrementFrames` | internal/pkg/httpsrv/stats.go:24-36 | increment adds no key other than id and leaves every other row unchanged |
| `Stats.FreshIdCountsIncrements` | internal/pkg/httpsrv/stats.go:24-36 | k increments of a fresh id give the row {id, k} and leave the other rows unchanged |
| `Stats.LookupFindsRow` | internal/pkg/httpsrv/stats.go:38-49 | the copy exists exactly when the id is present, and it equals the row |
| `Stats.RemoveDeletesOnlyId` | internal/pkg/httpsrv/stats.go:51-59 | removal deletes exactly the row for id, keeps all others, and removing an absent id changes nothing |
| `Stats.UpdatesKeepWellFormed` | internal/pkg/httpsrv/stats.go:24-59 | increment and remove keep every row filed under its own id with a positive count |
| `Stats.RemoveUndoesIncrements` | internal/pkg/httpsrv/stats.go:24-59 | removing a session after any number of deliveries restores the table it started from |
| `HexString.HexDigit` | pkg/util/string.go:27 | each nibble maps to a lower-case hex digit that decodes back to the nibble |
| `HexString.Encode` | pkg/util/string.go:27 | the encoding has two characters per byte, all of them in 0-9a-f |
| `HexString.Decode` | pkg/util/string.go:27 | not an operation of the source: the reference inverse of the encoding, used by DecodeEncode and EvenLengthIsInjective; it halves the length |
| `HexString.EncodeAt` | pkg/util/string.go:27 | byte k is encoded at positions 2k (high nibble) and 2k+1 (low nibble) |
| `HexString.DecodeEncode` | pkg/util/string.go:27 | decoding an encoding gives back the bytes |
| `HexString.Read` | pkg/util/string.go:21-23 | the random source fills a buffer of exactly the requested size |
| `HexString.GenerateHex` | pkg/util/string.go:17-34 | there is an error exactly when the source fails on a non-empty buffer, and then the text is ""; otherwise there is no error and exactly `length` characters, all in 0-9a-f |
| `HexString.GenerateHexTruncates` | pkg/util/string.go:27-31 | the text is the first `length` digits of the encoding: the whole encoding for an even length, all but its last digit for an odd one |
| `HexString.GenerateHexEmpty` | pkg/util/string.go:21-33 | length 0 reads no byte and yields "" with no error, whatever the source |
| `HexString.GenerateHexReadsOnlyPrefix` | pkg/util/string.go:21-23 | the text depends on the first (length+1)/2 bytes of the stream only |
| `HexString.GenerateHexUsesEveryByte` | pkg/util/string.go:21-31 | a change to any of those bytes changes the text, except a change to the low nibble of the last byte when the length is odd |
| `HexString.EvenLengthIsInjective` | pkg/util/string.go:21-31 | for an even length, equal texts come from equal bytes |
| `HexString.RandString` | pkg/util/string.go:36-43 | RandString returns GenerateHex's text, of length n, on success and "0000000000" when the source fails for n > 0 |
| `Admission.IsValidOrigin` | internal/pkg/httpsrv/server.go:159-165 | true exactly for "http://localhost:8080" and "https://localhost:8080" |
| `Admission.CsrfDecision` | internal/pkg/httpsrv/server.go:121-147 | the request is forwarded exactly when the reference rule Admissible holds; every refusal is a 403, with "Invalid origin" exactly for upgrades |
| `Admission.UpgradeFromUnknownOriginIsRefused` | internal/pkg/httpsrv/server.go:124-130 | an Upgrade: websocket request from an origin not on the list is refused with 403 "Invalid origin" |
| `Admission.UpgradeSkipsCsrfCheck` | internal/pkg/httpsrv/server.go:124-133 | an upgrade from an allowed origin is forwarded whatever its method, token and cookie |
| `Admission.PlainGetIsForwarded` | internal/pkg/httpsrv/server.go:135-145 | a non-upgrade GET is always forwarded |
| `Admission.NonGetNeedsMatchingToken` | internal/pkg/httpsrv/server.go:135-145 | a non-upgrade non-GET request is refused with 403 exactly when the cookie is missing, the token is empty or they differ, and forwarded otherwise |

## Left out

- Goroutines, locks, the WaitGroup and interleavings inside one method. Each method and each loop pass is one atomic step; the model explores interleavings only at that grain.
- Watcher.Watcher.MainLoopPass: the outer `for` loop of `mainLoop` is not a Dafny loop; each of its passes is a separate step, and `Run` strings passes together.
- Watcher.Watcher.constructor: `Start` (watcher.go:37-41) is folded into the constructor, which yields a Watcher whose loop is running; a second `Start`, which would run two loops that both close the channels, is not modelled.
- Watcher.Watcher.Send: sending after Stop may panic in Go (a send on a closed channel); the model requires a running Watcher instead of describing the panic.
- Watcher.Watcher.Recv: a receive reads the Counter at the moment it takes the pointer. The websocket handler, which is not part of this model, dereferences the pointer later and without the lock. So Go can also read a value set in between, and read it again on the next receive; for example, a full slot followed by a receive, a `ResetCounter` that publishes into the freed slot, and a second receive is read as [0, 0]. The model gives [i, 0] for that order.
- Watcher.Watcher.ResetCounter: after Stop it sets the iteration to 0 before its `select` (watcher.go:99), and that `select` then either panics on the closed channel or takes `ctx.Done`; the model requires a running Watcher, so the branch that survives with the iteration already 0 is not modelled.
- HexString.GenerateHex: `length` is a nat. A negative length makes Go panic, in the `make` at string.go:21 for length -3 or below and in the slice at string.go:30 for -1 and -2; those panics are not modelled. The model lets the source fail on any non-empty buffer, although newer Go releases never report an error from `rand.Read`.
- The Counter's `Iteration` is a Go `int` and the stats `sent` an `int64`; the model uses unbounded naturals, so 64-bit wrap-around is not modelled.
- The 100 ms ticker, the uuid generator and `rand.Read` are arguments, not clocks or random number generators.
- The `value` field of Counter is carried but never assigned by the modelled code; its origin is not part of this model.
- The watcher registry (`addWatcher`, `removeWatcher`, `notifyWatchers`) and `Server.error` are called by the server but defined in files that are not part of this model.
- The websocket handler (upgrade, read and heartbeat pumps, deadlines, JSON), the home page template, the load-test client, `Server.Start`, `Server.Stop`, `Server.mainLoop` and the security-headers middleware: network I/O, timers and presentation.
- `generateCSRFToken` and `setCSRFToken`: they call `crypto/rand` and securecookie. The middleware compares the cookie's value as received; the securecookie encoding of that value is not modelled.
- The `log.Printf` in removeStats is modelled only as the row RemoveStats returns.
- `BenchmarkGenerateHex` and the uniqueness test of the random strings: they are about timing and probability, not provable properties.
- `SecureRandom`'s mutex: it serialises calls and has no effect on one call's result.
