# What the desktop app, the device bridge and the signalling broker keep

This project models the stateful cores of the repository and proves what they promise over whole runs.

- **The signalling broker** (`RateLimit`, `Broker*`). `BrokerModel` is the broker as a state machine over values:
  peers, the three tables, the grants of seven token buckets, open ICE questions and a trace of everything sent,
  closed, checked and asked. `BrokerTables`, `BrokerRates`, `BrokerLifecycle`, `BrokerEffects` and `BrokerClaims`
  prove what each step keeps, `BrokerSteps` what each step does, written out, and `BrokerRuns`, `BrokerIce` and
  `BrokerOrigins` what follows for every run. `Broker` is the broker as a class changed in place, with closing that
  may report back at once; its invariant ties the object to the model after its own run, so the results on runs hold
  of every broker object.
- **The access-unit assembler** (`AccessUnits`). A streaming splitter with a cap, proved equal to one cut of the whole
  byte stream.
- **The usage counter** (`UsageDays`, `UsageLedger`, `UsageFirsts`, `UsageBatches`, `UsageFlush`, `UsageConservation`,
  `UsageRuns`). The window of days refines a ledger that never forgets, the greedy split is optimal, and a flush
  conserves days while other calls interleave with it.
- **Queues** (`SaveStreams`, `SecretStore`). Steps that run later, interleaved: saves that take a name only when they
  are whole, and one chain of work for each path.
- **Runs** (`Speech`, `TabDrag`). What a page hears of a dictation, and which window holds a dragged tab.
- **Algorithms** (`AccessibilityWalk`, `AddressText`, `Addresses`, `StartChunk`). A bounded preorder walk, the reading
  of addresses and their ranges and keys, and a reachability worklist.

The classes keep an invariant through all their methods, written as `Valid`, `Kept` or `Saved`. A module with
run-level results has a pure function for each step; the class's methods are proved to do that step, and the lemmas
are about its runs.

Where the code does not keep what its comments say, the code is modelled as it is:

- `Broker.admit` checks the cap on sockets and `Broker.open` does not: the cap is kept exactly when each open finds
  fewer sockets than the cap (`BrokerRuns.CapHoldsIffRoom`). A server that opens each socket after its own admission
  with no other open of that address in between meets this (`BrokerRuns.CapHolds`); two admissions before the first
  open do not (`BrokerRuns.TwoAdmissionsPassTheCap`).
- A delimiter that straddles two chunks is not found (`AccessUnits.CutsEverywhereIffNoStraddle`,
  `AccessUnits.StraddlingMergesFrames`). The chunks are what the HEVC depacketizer puts out for one packet; it is not
  part of this model, and whether it ever splits a delimiter is not known here.
- A save whose target is the hidden name of another save takes that name away (`SaveStreams.RenameTakesOwnFile`,
  `SaveStreams.HiddenTargetTakesTheName`), and a save whose write fell short is still renamed when it is ended
  (`SaveStreams.RenamedHoldsThePieces`, `SaveStreams.ShortWriteIsRenamed`).
- A save whose hidden file is being made while its window goes is missed by `abortOwner` and stays open
  (`SaveStreams.AbortOwnerLeavesNothing`, `SaveStreams.OpeningIsMissed`, `SaveStreams.StaysOpen`).
- When the window a tab is docked in was destroyed, what the next beat or letting go does depends on whether a call on
  a destroyed window throws, as it does with the windows of Electron: then the dragged window stays invisible, and
  letting go does not close it; otherwise letting go closes it with the tab (`TabDrag.InvisibleWhileDocked`,
  `TabDrag.TabDrag.End`, `TabDrag.DockedWindowGoes`). Dragging a whole window answers true without asking whether it
  has the key (`TabDrag.TabDrag.Start`).
- `truncated` is also true when the tree has exactly `MAX_ELEMENTS` elements, and does not tell of the depth
  (`AccessibilityWalk.Reader.WalkFrontmost`, `AccessibilityWalk.CutsNothingIffShallow`).
- `addressKeyOf` counts an IPv6 address by its first four groups exactly when its text does not begin with `::ffff:`;
  with that beginning, mapped or not, it counts by the rest of the text (`Addresses.KeyIsPrefix`,
  `Addresses.KeysShareIff`, `Addresses.MappedSpellingHasAnotherKey`).

## Model

| member | source | states |
|---|---|---|
| `RateLimit.RateLimiter.constructor` | apps/pulsar-broker/src/rate-limit.ts:16-20 | a limiter that holds `capacity` takes at once and refills them over the window, with every key full |
| `RateLimit.RateLimiter.Take` | apps/pulsar-broker/src/rate-limit.ts:22-34 | the answer is the wait of the reference limiter, in which every key always has a bucket, and exactly a granted take is recorded, for that key alone |
| `RateLimit.RateLimiter.Level` | apps/pulsar-broker/src/rate-limit.ts:24-28 | the tokens a key has now are worth its fill in the reference; a key without a bucket is a full one |
| `RateLimit.RateLimiter.Prune` | apps/pulsar-broker/src/rate-limit.ts:36-43 | exactly the buckets that have refilled go, the others stay as they are, and no grant is forgotten |
| `RateLimit.Play` | apps/pulsar-broker/src/rate-limit.ts:22-43 | over any run of takes and prunes with a clock that does not go back, the lazily created and pruned buckets answer every take as the reference does, and grant each key in any window no more than the bound below |
| `RateLimit.PlayWithoutPrunes` | apps/pulsar-broker/src/rate-limit.ts:36-43 | two limiters, one of them pruned wherever a run prunes and the other never, answer every take alike |
| `RateLimit.RunIsAdmissible` | apps/pulsar-broker/src/rate-limit.ts:22-34 | what a key was granted after any run of takes and prunes is a history in which each grant found a whole token |
| `RateLimit.RunWindowBound` | apps/pulsar-broker/src/rate-limit.ts:16-43 | over every run of takes and prunes, in any window of d milliseconds at most `capacity * (1 + d / windowMs)` takes of a key are granted |
| `RateLimit.FillGrows` | apps/pulsar-broker/src/rate-limit.ts:25-27 | between two moments a key refills one millisecond of credit a millisecond, up to a full bucket |
| `RateLimit.GrantStaysAdmissible` | apps/pulsar-broker/src/rate-limit.ts:29-32 | a granted take finds a whole token and costs exactly one |
| `RateLimit.WaitIsLeast` | apps/pulsar-broker/src/rate-limit.ts:29-33 | a refusal names the least whole number of milliseconds after which a take is granted, if no other take was granted before |
| `RateLimit.TakenAndLeft` | apps/pulsar-broker/src/rate-limit.ts:22-34 | what was taken since a moment and what is left never exceed one full bucket and the time since |
| `RateLimit.WindowBound` | apps/pulsar-broker/src/rate-limit.ts:16-34 | in such a history, in any window of d milliseconds at most `capacity * (1 + d / windowMs)` takes of a key are granted |
| `BrokerTables.GoneKeeps` | apps/pulsar-broker/src/broker.ts:207-221 | after a socket is gone the tables agree with the peers: live peers, ready peers under their own key, and counts without zero entries |
| `BrokerTables.GoneFrame` | apps/pulsar-broker/src/broker.ts:207-221 | a closing socket closes its own peer, changes no other, and takes at most its own entry out of `announced` |
| `BrokerTables.OpenedKeeps` | apps/pulsar-broker/src/broker.ts:147-152 | opening a socket keeps the tables in agreement |
| `BrokerTables.OnHelloKeeps` | apps/pulsar-broker/src/broker.ts:254-264 | a hello keeps the tables in agreement, also when it is refused and ends the socket |
| `BrokerTables.OnRelayKeeps` | apps/pulsar-broker/src/broker.ts:266-287 | a relay keeps the tables in agreement |
| `BrokerTables.OnProveKeeps` | apps/pulsar-broker/src/broker.ts:289-319 | an answer to the challenge keeps the tables in agreement whatever comes of it |
| `BrokerTables.OnProvenKeeps` | apps/pulsar-broker/src/broker.ts:302-319 | so does a proven key, with the earlier socket of that key replaced |
| `BrokerTables.OnIceKeeps` | apps/pulsar-broker/src/broker.ts:327-351 | an ICE question keeps the tables in agreement |
| `BrokerTables.OnMessageKeeps` | apps/pulsar-broker/src/broker.ts:155-199 | one frame of any kind, size or rate keeps the tables in agreement |
| `BrokerTables.SweepAllKeeps` | apps/pulsar-broker/src/broker.ts:227-246 | the sweep over a snapshot keeps the tables in agreement while it closes peers |
| `BrokerTables.CloseAllCloses` | apps/pulsar-broker/src/broker.ts:248-252 | going away closes every peer of the snapshot |
| `BrokerTables.StepKeepsTables` | apps/pulsar-broker/src/broker.ts:133-401 | every step of the broker, in any order, keeps the three tables in agreement with the peers |
| `BrokerTables.GoAwayEmptiesTables` | apps/pulsar-broker/src/broker.ts:248-252 | after `closeAll` all three tables are empty |
| `BrokerRates.OnRelayPays` | apps/pulsar-broker/src/broker.ts:266-287 | a frame is relayed from a key only for a granted take of that key |
| `BrokerRates.OnIcePays` | apps/pulsar-broker/src/broker.ts:327-351 | the TURN provider is asked only for a granted take from the budget all peers share |
| `BrokerRates.OnProvePays` | apps/pulsar-broker/src/broker.ts:289-319 | a proof relays nothing and asks nobody, and takes from the announce budget within its limit |
| `BrokerRates.OnMessagePays` | apps/pulsar-broker/src/broker.ts:155-199 | one frame keeps everything relayed and asked paid for |
| `BrokerRates.StepPays` | apps/pulsar-broker/src/broker.ts:133-401 | every step keeps the grants of all seven limiters within their limits and everything relayed and asked paid for |
| `BrokerLifecycle.OnHelloAdvances` | apps/pulsar-broker/src/broker.ts:254-264 | a hello moves its peer along the lifecycle and no other peer, and checks no signature |
| `BrokerLifecycle.OnProveAdvances` | apps/pulsar-broker/src/broker.ts:289-319 | an answer is checked at most once for each socket, and only a passed check over the own name, role, key and nonce makes a peer ready |
| `BrokerLifecycle.StepAdvances` | apps/pulsar-broker/src/broker.ts:133-401 | every step moves peers only along new, challenged, ready, closed, and every ready peer stays vouched for by one passed check |
| `BrokerEffects.RelayIsAnsweredOnce` | apps/pulsar-broker/src/broker.ts:266-287 | a relay of a ready peer, once its frame is read, goes unchanged to the ready holder of the key and opposite role and is acknowledged, exactly when there is budget and such a holder; otherwise the sender gets exactly one refusal |
| `BrokerEffects.OnlyRelaysRelay` | apps/pulsar-broker/src/broker.ts:284 | no other step sends a `relayed` frame, and it goes to the ready holder of the key it was addressed to |
| `BrokerEffects.OnlyReadyPeersAskTurn` | apps/pulsar-broker/src/broker.ts:353 | the TURN provider is asked by no other step |
| `BrokerEffects.OnlyAnswersAnswer` | apps/pulsar-broker/src/broker.ts:352-364 | ICE servers, and word that the provider failed, reach a peer only when the provider settles an open question of that peer, under the id of the question, while the peer is ready |
| `BrokerEffects.StepAsksNothing` | apps/pulsar-broker/src/broker.ts:327-364 | the open questions change in no other step than a question of a ready peer and an answer of the provider |
| `BrokerEffects.SweepOutcome` | apps/pulsar-broker/src/broker.ts:227-242 | a sweep closes exactly the peers past the hello timeout or two heartbeats, and moves the last ping to now of exactly those others whose last one is a heartbeat ago |
| `BrokerSteps.UnreadOutcome` | apps/pulsar-broker/src/broker.ts:155-182 | a frame that is too large closes its socket, one too many is told how long to wait, and one that is no frame is refused; what each spends and shows, in order |
| `BrokerSteps.RefuseOutcome` | apps/pulsar-broker/src/broker.ts:378-383 | a refused frame is said, and before ready the peer closes and is announced no more, with nothing else changed |
| `BrokerSteps.HelloOutcome` | apps/pulsar-broker/src/broker.ts:254-264 | a hello read from a new peer leaves exactly that peer challenged with the role and key it said and the nonce of the one challenge sent to it under its name; any other peer is refused |
| `BrokerSteps.RelayOutcome` | apps/pulsar-broker/src/broker.ts:266-287 | a relay of a ready peer waits without budget; with budget it costs one take of its key and is delivered unchanged and then acknowledged, or nobody has that key in the opposite role |
| `BrokerSteps.ProveOutcome` | apps/pulsar-broker/src/broker.ts:289-319 | an answer is checked once over the name, role, key and nonce of the peer; a wrong one is told and closed, one over the budget is told to wait and closed, and any other replaces the earlier socket of its key, which is told and closed, and makes the peer ready, which it hears last |
| `BrokerSteps.IceOutcome` | apps/pulsar-broker/src/broker.ts:327-353 | a question of a ready peer is asked exactly when its address, its key and all peers together have budget; otherwise the first of them that has none says its scope and wait, and exactly those before it were spent |
| `BrokerSteps.SweepShows` | apps/pulsar-broker/src/broker.ts:227-242 | a sweep shows one close for each expired peer and one ping for each other whose last ping is a heartbeat ago, and nothing else |
| `BrokerSteps.GoAwayShows` | apps/pulsar-broker/src/broker.ts:248-252 | going away shows one close for each open peer and nothing else |
| `BrokerSteps.AdmitOutcome` | apps/pulsar-broker/src/broker.ts:133-145 | an address at its cap waits a minute and spends nothing; any other waits for, or takes from, its connection budget |
| `BrokerSteps.OpenOutcome` | apps/pulsar-broker/src/broker.ts:147-152 | an open adds one new peer under the key of its address, opened, heard and pinged now, and changes no other |
| `BrokerSteps.HeardOutcome` | apps/pulsar-broker/src/broker.ts:202-204 | a pong changes when its peer was last heard, and nothing else |
| `BrokerSteps.SocketGoneOutcome` | apps/pulsar-broker/src/broker.ts:207-221 | a socket that ends takes its own peer along once, and shows nothing |
| `BrokerOrigins.StepKeepsSaid` | apps/pulsar-broker/src/broker.ts:254-264 | whatever the step, a peer has the role, key and challenge it had, or is newly opened and nobody, or just said who it is |
| `BrokerOrigins.PeersAreIntroduced` | apps/pulsar-broker/src/broker.ts:254-264 | over every run the role and key of a peer, and the nonce it is challenged with, are those of one step of the run in which a hello of that peer was read while it was new |
| `BrokerOrigins.IntroducedOnce` | apps/pulsar-broker/src/broker.ts:255-258 | no peer is introduced twice in a run |
| `BrokerOrigins.KeyAskRate` | apps/pulsar-broker/src/broker.ts:338-343 | over every run the questions of one key that went to the TURN provider in any d milliseconds are at most `perMinute * (1 + d / 60000)`, whatever its sockets did |
| `BrokerOrigins.AddressAskRate` | apps/pulsar-broker/src/broker.ts:332-337 | so are those of all peers of one address together, whatever their keys |
| `BrokerClaims.FailedProof` | apps/pulsar-broker/src/broker.ts:290-309 | a proof that is out of turn, does not verify or announces too often takes at most its own socket away and spends nothing |
| `BrokerClaims.PassedProof` | apps/pulsar-broker/src/broker.ts:302-319 | a proof within its budget announces the key for the peer, closes the earlier socket and spends one announcement of that key |
| `BrokerClaims.AnnouncedChanges` | apps/pulsar-broker/src/broker.ts:133-401 | whatever the step, who is announced changes only when a socket proves a key or goes, and only a proof spends the announce budget of its key |
| `BrokerClaims.FailedClaimChangesNothing` | apps/pulsar-broker/src/broker.ts:290-309 | an unproven or rate-limited claim changes no entry of `announced` and spends no announce budget |
| `BrokerRuns.After` | apps/pulsar-broker/src/broker.ts:84-401 | in every reachable state the tables agree with the peers and open questions name opened peers |
| `BrokerRuns.RunPays` | apps/pulsar-broker/src/broker.ts:114-120 | after every run the grants of all limiters are within their limits |
| `BrokerRuns.RelayRate` | apps/pulsar-broker/src/broker.ts:266-287 | over every run, however sockets open, close or replace each other, the frames relayed from a key in any d milliseconds are at most `perMinute * (1 + d / 60000)` |
| `BrokerRuns.TurnRate` | apps/pulsar-broker/src/broker.ts:344-353 | over every run the calls to the TURN provider by all peers together in any d milliseconds are at most `perMinute * (1 + d / 60000)` |
| `BrokerRuns.RunIsHonest` | apps/pulsar-broker/src/broker.ts:289-319 | in every reachable state each socket had at most one signature check, and every ready peer passed one over its own name, role, key and nonce |
| `BrokerRuns.PeersOnlyAdvance` | apps/pulsar-broker/src/broker.ts:33-55 | along a run a peer never goes back a phase and keeps its address, name, and the role and key it claimed |
| `BrokerRuns.RelaysAreAttributed` | apps/pulsar-broker/src/broker.ts:266-287 | every relayed frame of a run was delivered by one step of it, for a vouched peer, unchanged, to the ready holder of the addressed key |
| `BrokerRuns.StepAddsSockets` | apps/pulsar-broker/src/broker.ts:133-221 | only an open of an address adds a socket to its count |
| `BrokerRuns.OpenedAfterAdmission` | apps/pulsar-broker/src/broker.ts:133-152 | after an open the address is over its cap by at most the opens between its admission and that open |
| `BrokerRuns.CapHoldsIffRoom` | apps/pulsar-broker/src/broker.ts:133-152 | over every run the count of an address never exceeds `maxSocketsPerIp` exactly when each open of it finds fewer sockets than that |
| `BrokerRuns.CapHolds` | apps/pulsar-broker/src/broker.ts:133-152 | so it never does when each open follows its own admission with no other open of the address in between |
| `BrokerRuns.TwoAdmissionsPassTheCap` | apps/pulsar-broker/src/broker.ts:133-152 | admissions alone do not keep the cap: two admissions before the first open let two sockets past a cap of one |
| `BrokerIce.QuestionsAddUp` | apps/pulsar-broker/src/broker.ts:352-364 | over every run, a question of a peer went to the TURN provider exactly as often as it was answered, dropped because the peer was not ready any more, and still waits; so no answer comes twice or unasked |
| `BrokerIce.AnswersAreAttributed` | apps/pulsar-broker/src/broker.ts:352-364 | every answer in a run was given by one step in which the provider settled that question of that peer, with what the provider said, while the peer was ready, and the peer had asked it earlier under that id |
| `Broker.Broker.constructor` | apps/pulsar-broker/src/broker.ts:102-121 | a broker with seven limiters of the configured rates and the configured cap, message size and times, in the empty state |
| `Broker.Broker.Close` | apps/pulsar-broker/src/broker.ts:393-400 | the socket is told to close and the peer is gone, whether or not closing reports back at once |
| `Broker.Broker.Gone` | apps/pulsar-broker/src/broker.ts:207-221 | the peer is closed and out of all three tables; a second report changes nothing |
| `Broker.Broker.RefuseFrame` | apps/pulsar-broker/src/broker.ts:378-383 | a wrong frame is said, and before ready ends the socket |
| `Broker.Broker.Hello` | apps/pulsar-broker/src/broker.ts:254-264 | the object follows the model: claim, nonce and challenge once, a refusal otherwise |
| `Broker.Broker.Relay` | apps/pulsar-broker/src/broker.ts:266-287 | the object follows the model: budget, holder of the opposite role, two frames or one refusal |
| `Broker.Broker.Prove` | apps/pulsar-broker/src/broker.ts:289-319 | the object follows the model: the nonce is spent, then the check, then the budget |
| `Broker.Broker.Announce` | apps/pulsar-broker/src/broker.ts:310-318 | the earlier socket of the key is replaced and the peer is ready under it |
| `Broker.Broker.Ice` | apps/pulsar-broker/src/broker.ts:327-351 | the object follows the model through the three budgets to the open question |
| `Broker.Broker.Frame` | apps/pulsar-broker/src/broker.ts:183-198 | each kind of frame goes to its handler |
| `Broker.Broker.HandleMessage` | apps/pulsar-broker/src/broker.ts:155-199 | closed peers are ignored, large frames end the socket, and frames are counted before they are read |
| `Broker.Broker.SweepPeers` | apps/pulsar-broker/src/broker.ts:227-242 | the loop over the snapshot does what the model does to each peer in turn |
| `Broker.Broker.Prune` | apps/pulsar-broker/src/broker.ts:243-245 | all seven limiters forget their full buckets and no grant |
| `Broker.Broker.ClosePeers` | apps/pulsar-broker/src/broker.ts:248-252 | every peer of the snapshot is closed |
| `Broker.Broker.Admit` | apps/pulsar-broker/src/broker.ts:132-145 | asked before an upgrade: the cap first, then the connection budget |
| `Broker.Broker.Open` | apps/pulsar-broker/src/broker.ts:147-152 | a new peer under the key of its address, counted once |
| `Broker.Broker.Message` | apps/pulsar-broker/src/broker.ts:154-199 | one frame, as one more step of the run |
| `Broker.Broker.Heard` | apps/pulsar-broker/src/broker.ts:201-204 | a pong, as one more step of the run |
| `Broker.Broker.SocketEnded` | apps/pulsar-broker/src/broker.ts:206-221 | the end of a socket, as one more step of the run |
| `Broker.Broker.Sweep` | apps/pulsar-broker/src/broker.ts:223-246 | the sweep, as one more step of the run |
| `Broker.Broker.CloseAll` | apps/pulsar-broker/src/broker.ts:248-252 | going away, as one more step of the run |
| `Broker.Broker.IceAnswered` | apps/pulsar-broker/src/broker.ts:352-364 | the answer of the TURN provider, as one more step of the run |
| `Broker.TablesOfTheObject` | apps/pulsar-broker/src/broker.ts:87-89 | whatever was called on a broker object: it holds exactly the peers not closed, announces exactly the ready ones under their own key, and counts them by address without zero entries |
| `AccessUnits.FramesAre` | apps/ios-device-bridge/src/main.rs:650-658 | each segment between two cuts is a frame or not by itself: exactly when it has bytes, at most the cap, and is not a bare delimiter; frames keep their order |
| `AccessUnits.DelimitersAreAll` | apps/ios-device-bridge/src/main.rs:660-666 | the delimiters found are exactly those of the stream, in ascending order |
| `AccessUnits.CuttingConserves` | apps/ios-device-bridge/src/main.rs:614-658 | the completed segments and the open one concatenate back to the stream |
| `AccessUnits.CutGrows` | apps/ios-device-bridge/src/main.rs:638-648 | more bytes without a cut go to the open segment |
| `AccessUnits.CutAtEnd` | apps/ios-device-bridge/src/main.rs:650-658 | a cut at the end completes the open segment; a second one there finds it empty |
| `AccessUnits.AccessUnitAssembler.constructor` | apps/ios-device-bridge/src/main.rs:607-612 | an assembler that has seen nothing |
| `AccessUnits.AccessUnitAssembler.Append` | apps/ios-device-bridge/src/main.rs:638-648 | the open segment grows, or is dropped and remembered as too large |
| `AccessUnits.AccessUnitAssembler.Finish` | apps/ios-device-bridge/src/main.rs:650-658 | the frame is the open segment if it is not empty, within the cap and more than a bare delimiter |
| `AccessUnits.AccessUnitAssembler.CutAtBoundaries` | apps/ios-device-bridge/src/main.rs:626-630 | the stream is cut at each delimiter of a chunk, in order |
| `AccessUnits.AccessUnitAssembler.Push` | apps/ios-device-bridge/src/main.rs:615-636 | the frames handed out so far are the kept segments of one cut of everything pushed, at the delimiters within chunks and the ends of marked chunks |
| `AccessUnits.Assemble` | apps/ios-device-bridge/src/main.rs:614-658 | the frames of a whole run are the kept segments of one cut of the whole stream |
| `AccessUnits.CutsAre` | apps/ios-device-bridge/src/main.rs:615-636 | where the assembler cuts, position by position: at the marks, and at the delimiters that lie within one chunk |
| `AccessUnits.CutsEverywhereIffNoStraddle` | apps/ios-device-bridge/src/main.rs:624-630 | it cuts at every delimiter and every mark and nowhere else exactly when no delimiter straddles two chunks, unless a mark cuts there anyway |
| `AccessUnits.ChunkingDoesNotMatter` | apps/ios-device-bridge/src/main.rs:615-636 | without a straddling delimiter the frames and the open segment are the same however the stream is chunked |
| `AccessUnits.StraddlingMergesFrames` | apps/ios-device-bridge/src/main.rs:624-630 | a delimiter in two chunks is missed: the two frames around it come out as one |
| `UsageBatches.DesktopUsageBatchesOf` | apps/desktop/src/usage.ts:307-318 | the batches hold every day in order, each a single day or within both limits, and no other split of the days into such batches has fewer |
| `UsageBatches.DayAddsBytes` | apps/desktop/src/usage.ts:320-322 | the size of a batch is that of its text: eleven bytes, those of its days, and a comma between two |
| `UsageBatches.BatchesSplit` | apps/desktop/src/usage.ts:307-318 | the greedy split keeps the days, and no batch could have taken the first day of the next one |
| `UsageBatches.PartWithinLimits` | apps/desktop/src/usage.ts:320-322 | a run of neighbouring days inside a batch within the limits is within them itself |
| `UsageBatches.FilledStaysAhead` | apps/desktop/src/usage.ts:307-318 | after the same number of batches the greedy split is at least as far as any other |
| `UsageBatches.FilledIsFewest` | apps/desktop/src/usage.ts:307-318 | no split has fewer batches than one filled like the greedy one |
| `UsageBatches.FilledIsUnique` | apps/desktop/src/usage.ts:307-318 | there is one such split only |
| `UsageDays.Open` | apps/desktop/src/usage.ts:243-266 | the state with a day for the date, kept or new |
| `UsageDays.NewestEndsWith` | apps/desktop/src/usage.ts:264 | a new day comes last and is the only one of its date |
| `UsageDays.DesktopUsage.constructor` | apps/desktop/src/usage.ts:131-135 | nothing counted and nothing to write |
| `UsageDays.DesktopUsage.Count` | apps/desktop/src/usage.ts:157-164 | one more for the counter on the day of now, or everything kept dropped while the switch is off; what changed is written or will be |
| `UsageDays.DesktopUsage.NoteSignedIn` | apps/desktop/src/usage.ts:183-192 | the day of now is signed in once a session was held, and what changed is written or will be |
| `UsageDays.DesktopUsage.Forget` | apps/desktop/src/usage.ts:200-204 | exactly the days of the dates go |
| `UsageDays.DesktopUsage.Discard` | apps/desktop/src/usage.ts:207-215 | days, last week and last month go and the first date stays |
| `UsageDays.DesktopUsage.Counting` | apps/desktop/src/usage.ts:228-234 | the answer is whether the switch is on; off, everything kept is dropped |
| `UsageDays.DesktopUsage.Persist` | apps/desktop/src/usage.ts:217-225 | no write stays scheduled, and the file holds the state unless the write failed |
| `UsageDays.DesktopUsage.Today` | apps/desktop/src/usage.ts:243-266 | the day of now is kept, opened if need be, and found at the answered place |
| `UsageLedger.KeptDaysAreAWindow` | apps/desktop/src/usage.ts:263-264 | over any run, with any clock, the kept days are strictly ascending by date, at most `KEPT_DAYS`, and within that many days of the newest |
| `UsageLedger.OpenKeepsWindow` | apps/desktop/src/usage.ts:263-264 | opening a day keeps the window, and within it cutting to the newest days takes nothing away |
| `UsageLedger.WindowOfLedger` | apps/desktop/src/usage.ts:243-266 | with a clock that does not go back the kept days, last week and last month are what the ledger of every day since the switch came on says |
| `UsageLedger.LastTells` | apps/desktop/src/usage.ts:250-262 | the last week alone tells whether a week was seen before |
| `UsageLedger.EveryCallIsCounted` | apps/desktop/src/usage.ts:157-164 | every count while the switch is on is counted exactly once on one of the days opened since it came on |
| `UsageLedger.FirstDateIsFirstOpened` | apps/desktop/src/usage.ts:260 | the first date is that of the first action that counted, whatever came after |
| `UsageFirsts.FlaggedIffFirst` | apps/desktop/src/usage.ts:250-262 | over any run with a clock that does not go back, the day a step opens is flagged as the first of its week, or month, exactly when no earlier step since the switch was last off opened a day in that week, or month, whatever became of that day |
| `UsageFirsts.KeptDaysTell` | apps/desktop/src/usage.ts:243-266 | every day the counter keeps was opened by one step since the switch was last off and its flags say whether an earlier step since then opened a day in its week, and in its month |
| `UsageFirsts.KeptDaysHold` | apps/desktop/src/usage.ts:157-192 | over any run, with any clock, every kept day is of the running version and holds, for each counter, exactly the counts on its date since the last step that opened it, and is signed in exactly when a session was noted on its date since then |
| `UsageFirsts.LastWeekAndMonth` | apps/desktop/src/usage.ts:261-262 | with any clock, the last week and month kept are those of the day opened last since the switch was off |
| `UsageFirsts.LastOpeningTells` | apps/desktop/src/usage.ts:256-262 | with a clock that does not go back, that day alone tells whether any day was opened in a week, or in a month |
| `UsageFlush.FlushDesktopUsage` | apps/desktop/src/usage.ts:358-393 | the batches hold one day for each kept day before today that the ingest takes, with the text of its own record and the week of the first date, newest first, in the fewest batches within the limits; they go out in order up to the first that fails, and the counter ends where the reference flush does |
| `UsageFlush.SendBatches` | apps/desktop/src/usage.ts:374-391 | the sends end in the state, with the batches sent and the dates taken, of the reference that goes through the batches one after the other |
| `UsageFlush.SentGoOut` | apps/desktop/src/usage.ts:374-391 | in order, a batch the schema refuses is skipped, one taken or answered 400 is followed by the rest, and any other answer is the last; what happens meanwhile is what happens while these are on their way |
| `UsageFlush.DaysAreFinished` | apps/desktop/src/usage.ts:194-198 | what there is to send is one day for each kept day before today that the ingest takes, made of its own record, and nothing else, with dates strictly descending |
| `UsageFlush.PlayAll` | apps/desktop/src/usage.ts:358-393 | the calls that come while the flush waits |
| `UsageConservation.SendsByFate` | apps/desktop/src/usage.ts:374-391 | the dates taken, answered 400 and kept are those of the batches with that fate: kept are the batches refused by the schema and those from the first other failure on |
| `UsageConservation.FatesCover` | apps/desktop/src/usage.ts:374-391 | every date of the batches has exactly one of the three fates |
| `UsageConservation.FlushConserves` | apps/desktop/src/usage.ts:363-391 | each finished day is once among those taken, answered 400, never sendable and kept, and there are no others |
| `UsageConservation.RecordsAreFinished` | apps/desktop/src/usage.ts:194-198 | only kept days before today are listed, each once |
| `UsageConservation.SendableOrNot` | apps/desktop/src/usage.ts:369-373 | a record is sendable, or its date is among the unsendable ones |
| `UsageRuns.StepWithout` | apps/desktop/src/usage.ts:200-204 | forgetting past dates before an action or after it comes to the same |
| `UsageRuns.SendsOnlyForget` | apps/desktop/src/usage.ts:374-391 | the sends change nothing but to forget what was taken or answered 400, whatever comes in between |
| `UsageRuns.FlushOnlyForgets` | apps/desktop/src/usage.ts:358-393 | a whole flush comes to the same as the calls in its waits, with the session noted once it is known, without it and then forgetting what is gone; only days before today are gone |
| `UsageRuns.StepStaysAway` | apps/desktop/src/usage.ts:243-266 | a day no longer kept comes back only on its own date |
| `UsageRuns.NoDateTakenTwice` | apps/desktop/src/usage.ts:354-393 | over any run of counts and flushes one after the other, with a clock that does not go back, no date is taken twice, and those taken are past and no longer kept |
| `SaveStreams.PartialsDiffer` | apps/desktop/src/save-streams.ts:26-27 | two saves never share a hidden name, and no hidden name is the name of its own target |
| `SaveStreams.RegisterKeeps` | apps/desktop/src/save-streams.ts:29-30 | putting a save on record keeps the invariant |
| `SaveStreams.BeginKeeps` | apps/desktop/src/save-streams.ts:25-28 | beginning keeps the invariant: hidden names lead to their own files, and files with what is queued hold the pieces accepted |
| `SaveStreams.PieceKeeps` | apps/desktop/src/save-streams.ts:33-43 | a piece keeps it, also one that is too large and ends the save |
| `SaveStreams.LeaveKeeps` | apps/desktop/src/save-streams.ts:46-53 | ending keeps it, and so does aborting |
| `SaveStreams.AbortOwnerKeeps` | apps/desktop/src/save-streams.ts:71-77 | aborting everything of an owner keeps it |
| `SaveStreams.WriteKeeps` | apps/desktop/src/save-streams.ts:40-42 | a write keeps it, also one that falls short |
| `SaveStreams.RenameKeeps` | apps/desktop/src/save-streams.ts:50-53 | a rename keeps it, also onto the hidden name of another save |
| `SaveStreams.RemoveKeeps` | apps/desktop/src/save-streams.ts:93-97 | a removal keeps it |
| `SaveStreams.NextKeeps` | apps/desktop/src/save-streams.ts:22-98 | every call and every queued step keeps it |
| `SaveStreams.EveryRunKeeps` | apps/desktop/src/save-streams.ts:22-98 | it holds in every reachable state |
| `SaveStreams.RenameTakesOwnFile` | apps/desktop/src/save-streams.ts:46-58 | the target gets the save's own file exactly when no other save was renamed onto its hidden name |
| `SaveStreams.RenamedHoldsThePieces` | apps/desktop/src/save-streams.ts:33-58 | what a renamed save left is all its pieces in the order of the calls exactly when no write fell short |
| `SaveStreams.CallsOnlyQueue` | apps/desktop/src/save-streams.ts:33-85 | the calls on a save change nothing on disk by themselves and only queue steps, for its owner |
| `SaveStreams.OnlyTheOwnerActs` | apps/desktop/src/save-streams.ts:79-85 | a call that is not from the owner changes nothing of a save |
| `SaveStreams.AdvanceWritesOwnFile` | apps/desktop/src/save-streams.ts:40-42 | a step writes to no file but its save's own |
| `SaveStreams.SettledForGood` | apps/desktop/src/save-streams.ts:45-69 | a save that was renamed or removed, and its file, stay as they are, so each save is renamed or removed at most once |
| `SaveStreams.LeavingSettles` | apps/desktop/src/save-streams.ts:87-97 | a save that was ended or aborted has steps left until it settles, every one run leaves fewer, and nothing adds more |
| `SaveStreams.EveryNameIsSeen` | apps/desktop/src/save-streams.ts:17-21 | when no target is a hidden name, every name shows what it did at the start, a save in progress under its hidden name, or a renamed save |
| `SaveStreams.NoHalfFiles` | apps/desktop/src/save-streams.ts:17-21 | without failed writes nothing but all of a renamed save shows outside the hidden names |
| `SaveStreams.HiddenTargetTakesTheName` | apps/desktop/src/save-streams.ts:25-31 | a save whose target is the hidden name of another takes that name, and the other one publishes the wrong file |
| `SaveStreams.ShortWriteIsRenamed` | apps/desktop/src/save-streams.ts:40-58 | a write that falls short goes unnoticed: a save of one byte is renamed as an empty file |
| `SaveStreams.BeginOutcome` | apps/desktop/src/save-streams.ts:25-28 | a begin whose hidden name is free makes an empty file of its own under it, for its owner and target, and otherwise changes nothing |
| `SaveStreams.PieceOutcome` | apps/desktop/src/save-streams.ts:33-43 | a piece of the owner waits behind what is queued, one over the bound is an abort, and any other changes nothing |
| `SaveStreams.LeaveOutcome` | apps/desktop/src/save-streams.ts:46-69 | ending queues closing and renaming, aborting queues closing and removing, each behind the pieces, for the owner alone |
| `SaveStreams.WriteOutcome` | apps/desktop/src/save-streams.ts:40-42 | a queued piece is put behind what the file holds, all of it unless the write falls short |
| `SaveStreams.EndEnds` | apps/desktop/src/save-streams.ts:46-58 | a save that was ended has its pieces, closing and renaming left to do |
| `SaveStreams.EndingGoesOn` | apps/desktop/src/save-streams.ts:46-58 | such a save goes on with its own steps alone: the pieces, closing, and the rename that moves its file from the hidden name to the target; when closing or renaming fails it is discarded |
| `SaveStreams.AbortDiscards` | apps/desktop/src/save-streams.ts:61-77 | an abort, and the going of the owner, put closing and removing behind what is queued |
| `SaveStreams.DiscardRemoves` | apps/desktop/src/save-streams.ts:93-97 | from then on, whatever else happens and however its steps go, the save is never renamed, and it is removed exactly once as many of its steps ran as were queued with the pieces before the abort |
| `SaveStreams.DiscardingGoesOn` | apps/desktop/src/save-streams.ts:93-97 | the pieces are written first, and the last step takes the hidden name away |
| `SaveStreams.AbortOwnerLeavesNothing` | apps/desktop/src/save-streams.ts:71-77 | aborting everything of an owner leaves none of its saves open or about to be exactly when none of them had its file made without being on record yet |
| `SaveStreams.OpeningIsMissed` | apps/desktop/src/save-streams.ts:25-31 | a save whose file is made when its owner goes is put on record after that and is open |
| `SaveStreams.StaysOpen` | apps/desktop/src/save-streams.ts:25-31 | such a save stays open and unsettled for good, since nobody but its owner ends it |
| `SaveStreams.SaveStreams.constructor` | apps/desktop/src/save-streams.ts:22-23 | no saves |
| `SaveStreams.SaveStreams.Begin` | apps/desktop/src/save-streams.ts:25-28 | a new hidden file under a new id, unless the name exists; the save does not answer yet |
| `SaveStreams.SaveStreams.Register` | apps/desktop/src/save-streams.ts:29-30 | a save whose file was made answers from here on |
| `SaveStreams.SaveStreams.Write` | apps/desktop/src/save-streams.ts:33-43 | a piece of the owner is queued; a piece over the bound ends the save |
| `SaveStreams.SaveStreams.End` | apps/desktop/src/save-streams.ts:46-59 | the id answers no more; closing and renaming are queued |
| `SaveStreams.SaveStreams.Abort` | apps/desktop/src/save-streams.ts:61-68 | the id answers no more; closing and removing are queued |
| `SaveStreams.SaveStreams.AbortOwner` | apps/desktop/src/save-streams.ts:71-77 | the same for every open save of the owner and no other |
| `SaveStreams.SaveStreams.Advance` | apps/desktop/src/save-streams.ts:87-97 | the next queued step of a save runs; a failed close or rename is followed by the removal |
| `SecretStore.CallKeeps` | apps/desktop/src/secret-store.ts:30-34 | queueing keeps the order: a path's entry is its newest work, and work is chained to the work before it on its path |
| `SecretStore.FreeIsInTurn` | apps/desktop/src/secret-store.ts:31-32 | work that may start comes after all earlier work on its path has settled |
| `SecretStore.NewestSettlesLast` | apps/desktop/src/secret-store.ts:35-39 | when the newest work on a path settled, all of it did |
| `SecretStore.ClearKeeps` | apps/desktop/src/secret-store.ts:35-39 | an entry goes only when all work on its path settled, never while newer work is queued |
| `SecretStore.NextKeeps` | apps/desktop/src/secret-store.ts:30-41 | every step keeps the order |
| `SecretStore.EveryRunQueues` | apps/desktop/src/secret-store.ts:27-41 | the order holds in every state of every run |
| `SecretStore.OneAtATime` | apps/desktop/src/secret-store.ts:30-41 | of two works on a path the later one waits until the earlier one settled, and a path with work left keeps its entry |
| `SecretStore.WorkIsAsCalled` | apps/desktop/src/secret-store.ts:70-109 | in every state of every run the work queued so far is the calls made, each with its store and secret, in their order |
| `SecretStore.WorkRanAsSaid` | apps/desktop/src/secret-store.ts:30-34 | work waits until it is started, runs until it is settled, and keeps what it was started and settled with |
| `SecretStore.EntriesAre` | apps/desktop/src/secret-store.ts:35-39 | a path has an entry exactly from a call until its newest work was cleared, and that entry is the newest work |
| `SecretStore.DoneReaches` | apps/desktop/src/secret-store.ts:90-106 | the file holds what the writes that reached the disk leave, in the order of the calls |
| `SecretStore.DoneAnswers` | apps/desktop/src/secret-store.ts:75-88 | a read answers from the content the writes called before it left, or from memory without the cipher |
| `SecretStore.AnswersStay` | apps/desktop/src/secret-store.ts:30-41 | later work does not change what an answer should have been |
| `SecretStore.EveryRunHolds` | apps/desktop/src/secret-store.ts:70-109 | in every state of every run the file of each path holds what the last write that reached it left, and all answers given are right: a read gives what the file holds or the memory remembers, with a missing, failing or undecryptable one told as the store wants, and a write is an error exactly when it failed with the cipher there |
| `SecretStore.ReadsTheLastWrite` | apps/desktop/src/secret-store.ts:70-109 | with the cipher available and no failed read, a read through any store on the path answers with the secret of the last write called before it that reached the disk |
| `SecretStore.ReadsItsOwnMemory` | apps/desktop/src/secret-store.ts:77-79 | without the cipher a read answers with the last secret written through its own store |
| `SecretStore.Queues.constructor` | apps/desktop/src/secret-store.ts:26-28 | no work and no entries |
| `SecretStore.Queues.InOrder` | apps/desktop/src/secret-store.ts:30-41 | the work is chained to the entry of its path and becomes the entry |
| `SecretStore.Queues.Begin` | apps/desktop/src/secret-store.ts:91-92 | work begins, a write by remembering its secret |
| `SecretStore.Queues.Finish` | apps/desktop/src/secret-store.ts:76-106 | what a read answers and what a write leaves on disk, with failures |
| `SecretStore.Queues.Clear` | apps/desktop/src/secret-store.ts:35-39 | the entry goes if it is still this work |
| `Speech.TracesAreWellTold` | apps/desktop/src/speech.ts:97-143 | a trace that reads tells runs one after the other; each ended run has exactly one end, which comes last, and at most one failure, right before it |
| `Speech.PagesHearWholeRuns` | apps/desktop/src/speech.ts:22-32 | in every state of the service the pages heard whole runs, never interleaved, each page its own |
| `Speech.TimersOfTheService` | apps/desktop/src/speech.ts:30-32 | the live timers are the deadline of the run or the idle timer, never both, and only the current helper is alive |
| `Speech.SpeechService.constructor` | apps/desktop/src/speech.ts:34-49 | no run, no helper and no timer |
| `Speech.SpeechService.Spawn` | apps/desktop/src/speech.ts:51-53 | a new helper is the only one alive |
| `Speech.SpeechService.Data` | apps/desktop/src/speech.ts:61-81 | only the current helper is listened to; run, helper and buffer end where reading its buffer with the new text leads, the page hears what that tells, and an oversized buffer fails the run |
| `Speech.SpeechService.Lines` | apps/desktop/src/speech.ts:70-80 | one line after the other until one is refused, also after a line ended the run |
| `Speech.SpeechService.Event` | apps/desktop/src/speech.ts:97-123 | a message of the run adds exactly one emission of its own kind for ready, transcript and ended, its own failure and then the end for failed, and nothing for another session; an unreadable one is refused |
| `Speech.SpeechService.Line` | apps/desktop/src/speech.ts:70-80 | one whole line is read as one message, and one that is refused fails the run |
| `Speech.PiecesTell` | apps/desktop/src/speech.ts:61-80 | a text read in two pieces, with the rest kept in between, tells and leaves what it does as one |
| `Speech.LinesAreTold` | apps/desktop/src/speech.ts:70-80 | whole lines that are messages, those of the run being transcripts or its readiness, tell each its own kind, in order, and leave nothing over |
| `Speech.HearChunks` | apps/desktop/src/speech.ts:61-81 | a text that fits, cut into any chunks, makes the page of the run hear what the whole text tells |
| `Speech.HearLines` | apps/desktop/src/speech.ts:61-123 | such lines, cut into any chunks, are heard by the page of the run: each of its own messages once and in order, and nothing else |
| `Speech.SpeechService.BecomeReady` | apps/desktop/src/speech.ts:106-112 | the run is ready, a deadline of its own for the dictation is the only timer, and the page hears it |
| `Speech.SpeechService.EndRun` | apps/desktop/src/speech.ts:115-117 | the run is over, the idle timer runs, and the page hears the end |
| `Speech.SpeechService.Complete` | apps/desktop/src/speech.ts:125-134 | the deadline is cleared and the idle timer is the only one |
| `Speech.SpeechService.Fail` | apps/desktop/src/speech.ts:136-143 | the page hears the failure and then the end; helper, run and timers are gone |
| `Speech.SpeechService.Release` | apps/desktop/src/speech.ts:229-242 | no timer and no helper is left alive |
| `Speech.SpeechService.Dispose` | apps/desktop/src/speech.ts:229-246 | as before, and the page of the run hears its end |
| `Speech.SpeechService.WriteTo` | apps/desktop/src/speech.ts:145-155 | a helper that does not keep up ends the run; one that is gone takes nothing |
| `Speech.SpeechService.Start` | apps/desktop/src/speech.ts:162-194 | a well-formed request without another run becomes the run, with its deadline as the only timer, unless the helper does not keep up, which ends it; a refused request changes nothing |
| `Speech.SpeechService.Accept` | apps/desktop/src/speech.ts:169-183 | the run that was accepted, numbered and remembered with its page |
| `Speech.SpeechService.Samples` | apps/desktop/src/speech.ts:196-205 | sound is passed on exactly for a run that is ready and not stopping, to a helper that takes it; a helper that does not keep up fails the run, and in all other cases nothing changes |
| `Speech.SpeechService.Stop` | apps/desktop/src/speech.ts:207-220 | a run not ready is cancelled, a ready one is stopping and has its last deadline as the only timer unless the helper does not keep up, and another id or a second stop changes nothing |
| `Speech.SpeechService.Cancel` | apps/desktop/src/speech.ts:222-227 | exactly the run of that id is ended |
| `Speech.SpeechService.WriteFailed` | apps/desktop/src/speech.ts:188-192 | a failed first write fails its own run, with the failure and the end told, and changes nothing when that is not the current one |
| `Speech.SpeechService.HelperFailed` | apps/desktop/src/speech.ts:82-93 | the end of the current helper fails the run; that of a replaced one reaches no run |
| `Speech.SpeechService.Fires` | apps/desktop/src/speech.ts:110-133 | a timer that fires is the run's deadline, which fails it, or the idle timer, which stops the helper |
| `TabDrag.MessagesAlternate` | apps/desktop/src/tab-drag.ts:54-68 | in any list of messages in which each is in turn, taking and releasing alternate for every window, and a window is told of the pointer only in between |
| `TabDrag.WindowsHearInTurn` | apps/desktop/src/tab-drag.ts:54-96 | in every state of a drag object the messages sent so far are such a list, and the window that took the tab and did not release it since is the one it is docked in |
| `TabDrag.EveryDragStopsOnce` | apps/desktop/src/tab-drag.ts:98-104 | in every state beat and listener of each drag were stopped exactly once, and those of the current drag not at all |
| `TabDrag.InvisibleWhileDocked` | apps/desktop/src/tab-drag.ts:54-116 | in every state so far the dragged window was invisible exactly while its tab was docked, if and only if no call on a docked window threw; with windows on which no call throws that is always so |
| `TabDrag.TabDrag.constructor` | apps/desktop/src/tab-drag.ts:51-52 | no drag |
| `TabDrag.TabDrag.Dock` | apps/desktop/src/tab-drag.ts:54-61 | a tab that could be transferred is with the target, whose page is told, and the dragged window is invisible; otherwise nothing changes |
| `TabDrag.TabDrag.Undock` | apps/desktop/src/tab-drag.ts:63-68 | the tab is with the dragged window again and the page it left is told; telling a destroyed window throws where calls on one do, and then the dragged window stays invisible |
| `TabDrag.TabDrag.Aim` | apps/desktop/src/tab-drag.ts:75-80 | the middle of the tab comes under the pointer once the strip is known |
| `TabDrag.TabDrag.Shift` | apps/desktop/src/tab-drag.ts:81-92 | the tab leaves a strip the pointer left and enters the one it is over, unless leaving throws, with exactly these messages to the pages |
| `TabDrag.TabDrag.Tick` | apps/desktop/src/tab-drag.ts:70-96 | a beat throws exactly when the docked window is gone and calls on it throw; otherwise the tab is docked only where the pointer is over that strip, and an undocked window is under the pointer; the pages are told exactly of a release, a taking and the pointer over the strip, in that order; the key is with the docked window or else the dragged one |
| `TabDrag.TabDrag.End` | apps/desktop/src/tab-drag.ts:98-116 | beat and listener are stopped exactly once; the dragged window closes exactly when it lives, the tab is docked, and focusing the docked window does not throw, and then the window it is docked in holds the key, a live one exactly when that was not destroyed |
| `TabDrag.TabDrag.Start` | apps/desktop/src/tab-drag.ts:119-147 | the drag there was ends first, and when that throws nothing else happens; the new one has the grab point, half the width of its tab and the window it was started with, and holds its key unless a whole window was dragged that did not have it |
| `TabDrag.TabDrag.Front` | apps/desktop/src/tab-drag.ts:134 | a click on the torn off window ends the drag |
| `TabDrag.TabDrag.Destroy` | apps/desktop/src/tab-drag.ts:7 | a window may go at any time and the drag stays consistent |
| `TabDrag.DockedWindowGoes` | apps/desktop/src/tab-drag.ts:98-116 | when the docked window goes before the next beat, letting go leaves the dragged window open, invisible and without the tab where calls on a destroyed window throw, and closes it too where they do nothing |
| `AccessibilityWalk.Reader.constructor` | apps/ios-device-bridge/src/simulator_accessibility.rs:577-605 | nothing counted |
| `AccessibilityWalk.Reader.ReadNode` | apps/ios-device-bridge/src/simulator_accessibility.rs:609-663 | the node is the first elements, in preorder, of the tree below cut at `MAX_DEPTH`, as many as were counted; all that may still be read unless time ran out |
| `AccessibilityWalk.Reader.WalkFrontmost` | apps/ios-device-bridge/src/simulator_accessibility.rs:577-607 | the result has the first `count` nodes in preorder with parents and sibling order intact; in time `count` is the smaller of `MAX_ELEMENTS` and the size of the cut tree, `truncated` says that this size reaches `MAX_ELEMENTS`, and without it the whole cut tree was returned |
| `AccessibilityWalk.TakenAreFirst` | apps/ios-device-bridge/src/simulator_accessibility.rs:609-663 | the part of a tree with its first k nodes has exactly these in preorder and is the tree with last children left out |
| `AccessibilityWalk.TakeAllMore` | apps/ios-device-bridge/src/simulator_accessibility.rs:651-661 | a further sibling changes what is taken only past the earlier ones |
| `AccessibilityWalk.TakeUnreached` | apps/ios-device-bridge/src/simulator_accessibility.rs:651-654 | elements not reached make no difference to what is taken |
| `AccessibilityWalk.CutLeavesShallow` | apps/ios-device-bridge/src/simulator_accessibility.rs:639 | read in preorder with its depths, the cut tree is the whole one without the elements deeper than `MAX_DEPTH` |
| `AccessibilityWalk.CutsNothingIffShallow` | apps/ios-device-bridge/src/simulator_accessibility.rs:639 | the depth cuts nothing exactly when no element is deeper than `MAX_DEPTH` |
| `AddressText.SplitJoined` | apps/pulsar-broker/src/cloudflare.ts:42 | splitting takes apart exactly what joining put together |
| `AddressText.EverySpellingReads` | apps/pulsar-broker/src/cloudflare.ts:38-56 | every spelling that section 2.2 of RFC 4291 allows, with any zero run left out, a trailing dotted part and digits of either case, is read as its eight groups |
| `AddressText.DottedText` | apps/pulsar-broker/src/cloudflare.ts:46-47 | a dotted part is read as its two groups |
| `Addresses.OrBelow` | apps/pulsar-broker/src/cloudflare.ts:59 | or-ing a number below shifted bits adds it |
| `Addresses.ReadsBits` | apps/pulsar-broker/src/cloudflare.ts:33-60 | the bits of an address text are those of its numbers, for both families |
| `Addresses.AddressFits` | apps/pulsar-broker/src/cloudflare.ts:71 | they fit the width of the family |
| `Addresses.LeavesLeading` | apps/pulsar-broker/src/cloudflare.ts:73 | the mask of a prefix leaves exactly the leading bits |
| `Addresses.SameAbove` | apps/pulsar-broker/src/cloudflare.ts:73 | numbers without the bits below are equal exactly when they agree bit by bit above |
| `Addresses.MaskTestsLeadingBits` | apps/pulsar-broker/src/cloudflare.ts:68-76 | the mask test of a range holds exactly when the leading `prefix` bits agree |
| `Addresses.InRangesIffLeadingBits` | apps/pulsar-broker/src/cloudflare.ts:81-92 | an address lies in the ranges exactly when its leading bits agree with one of its own family |
| `Addresses.MappedIsItsHalf` | apps/pulsar-broker/src/cloudflare.ts:82 | an IPv4 address and its mapped form have one key and lie in the same ranges |
| `Addresses.HexReads` | apps/pulsar-broker/src/config.ts:222 | writing a group in hexadecimal loses nothing |
| `Addresses.KeysApart` | apps/pulsar-broker/src/config.ts:219-222 | keys tell first four groups apart |
| `Addresses.LowerReads` | apps/pulsar-broker/src/config.ts:219 | lower case changes no group |
| `Addresses.KeyIsPrefix` | apps/pulsar-broker/src/config.ts:214-223 | every IPv6 spelling, with or without a zone, has its first four groups for a key exactly when it does not begin with `::ffff:` |
| `Addresses.MappedRestIsNone` | apps/pulsar-broker/src/config.ts:206-218 | what is left of a spelling without that beginning is never an IPv6 address, so such a spelling is counted by its remaining text |
| `Addresses.KeysShareIff` | apps/pulsar-broker/src/config.ts:214-223 | two IPv6 spellings share a key exactly when their first four groups agree; if both begin with `::ffff:`, exactly when they are the same text; and never when one of them does |
| `Addresses.NonZeroIsNotMapped` | apps/pulsar-broker/src/config.ts:206-208 | a first group other than zero rules out such a beginning |
| `Addresses.MappedSpellingHasAnotherKey` | apps/pulsar-broker/src/config.ts:206-223 | so two spellings of one address have two keys, here `::ffff:1:2` and the same written out |
| `StartChunk.EntriesOf` | apps/client/start-chunk.ts:35-37 | the queue begins with exactly the entry chunks |
| `StartChunk.SearchChunk` | apps/client/start-chunk.ts:48-58 | what a chunk brings: matching imports, and matching modules that are drawn with |
| `StartChunk.PreloadedWorkspaceModules` | apps/client/start-chunk.ts:33-61 | the walk ends on any import graph, visits each chunk reachable from an entry by static imports exactly once, and finds exactly the texts `chunk: module` of the matching imports and matching drawn modules of these chunks |
| `StartChunk.ClosedHasPaths` | apps/client/start-chunk.ts:39-46 | a set of chunks with all entries that is closed under imports has every reachable chunk |
| `StartChunk.FoundIsBrought` | apps/client/start-chunk.ts:48-58 | a text is found exactly when it names a visited chunk and a matching module, imported by the chunk or drawn with some length in it |
| `StartChunk.FoundIffBrought` | apps/client/start-chunk.ts:48-58 | something is found exactly when a visited chunk has a matching import or a matching module with rendered length |

## Left out

- Floating point: the token bucket works over reals; rounding of `tokens` is not modelled.
- The clock: one reading for each handler, and it does not go back between handlers; the window of kept days needs
  neither.
- Sending, closing and pinging sockets: a throwing `send` or `close` is swallowed by the source and changes nothing
  here; a throwing `ping` is not modelled.
- Signature checks, JSON and schemas: uninterpreted functions and predicates; a frame is either text with a frame or
  without one.
- `counts`, the meter and the log of the broker: derived values and reports.
- The HEVC depacketizer and the RTP packet: each push is a chunk of bytes and a marker flag.
- Reading the usage file and counting starts (`load`, `started`): a run begins with nothing counted; a file another
  hand changed is not modelled. Weeks and months are any two functions of the date that keep its order.
- `desktopUsageDayOf` beyond its date: which records the ingest takes and their JSON text are parameters.
- Flushes that overlap: a flush is one event of a run, with other calls in its waits.
- `UsageRuns.NoDateTakenTwice`: a send that the ingest took but whose answer was lost counts as failed, since the app
  cannot tell.
- Removing a partial file that fails: the removal is always taken to succeed.
- Random ids that repeat: a new save has an id never used before.
- `SecretStore.Queues.Finish`: the temporary file of a write is part of its outcome, not a name on disk of its own.
- What a page does when it hears an event: emitting does not call back into the dictation service.
- `Speech.SpeechService.Samples`: what makes samples well formed and how they are encoded are not modelled; whether
  they are is a parameter.
- `SaveStreams.SaveStreams.Begin`: a call of `begin` whose file is not made yet is on no record; an abort in that wait
  is one before it.
- `TabDrag.TabDrag.Destroy`: whether a call on a destroyed window throws is one constant of a drag, for every window
  and call.
- `TabDrag.TabDrag.Undock`: a transfer back to a live dragged window succeeds, and nobody else moves the dragged key.
- The Objective-C messages of the accessibility reader: an abstract tree, with the moment from which answers come too
  late.
- `isIP` of the operating system: a function that knows every allowed spelling; of texts without a zone only such a
  spelling is IPv6 to it, and texts that are no address are not read.
- The published list of ranges and the patterns of workspace modules: any list and any pattern.
- `clientIpOf`, TURN configuration, command lines, user interface, menus and build scripts: configuration and
  presentation without state of their own to keep over a run.
