# monty-go, modelled and verified

monty-go drives a sandboxed Python interpreter that runs in a worker process. The host sends
requests over a pipe in length-prefixed frames; the worker answers with events. A *feed* runs a
snippet until it completes or suspends on a host call; a suspended feed can be resumed once, dumped,
restored elsewhere, or aborted when a budget is exhausted. Values cross the boundary as protobuf
messages, first nested and then flattened into an arena of nodes.

This project states in Dafny what that code does and proves what it is for. Code that updates state
is modelled by classes and loops, each proved against a function of the old state; the properties of
those functions are lemmas. `dafny verify dfyconfig.toml` checks everything.

| files | what they model |
|---|---|
| `Common`, `Wire` | fixed-width integers; varints, tags, groups, the field parser, field builders |
| `Values`, `Nested` | the value types, their nested encoding and its decoder |
| `Arena`, `ArenaAccepts`, `ArenaDecode` | the arena encoder and decoder, as specification functions and as loops; what the encoder accepts |
| `ArenaMeaning`, `ArenaTheorems`, `ArenaNodes` | flattening preserves meaning; decoded arenas are acyclic; which arenas decode, and to what |
| `Omitted`, `OmittedMessages` | messages that leave out zeros and empty texts, as Protocol Buffers writers may |
| `HostGraph`, `HostPaths` | encoding of arbitrary, possibly cyclic host graphs with a visit stack |
| `Requests`, `Futures`, `FuturesRequest`, `ExceptionData`, `Raised`, `Snapshot` | messages built and read by the host |
| `Session` | one session and one run: how an event is answered and budgets are enforced |
| `SessionSystem`, `SessionInvariant`, `SessionSafety` | any number of sessions, dumps and restores under every interleaving of lock windows and exchanges |
| `SessionOutcome`, `SessionWatch` | what ends a turn and what the watchdog measures, in plain arithmetic; both in every run |
| `SessionBudgets` | duration budgets along chains of dumps and restores |
| `SessionBooks`, `SessionPaid` | what every sleep account of that system holds, and where it came from |
| `SessionEnds`, `SessionLineage` | what the end of a turn says about worker and snapshots; chains of dumps and restores |
| `SessionTheorems` | the guarantees of the session system, and two runs that go wrong |
| `SessionPending` | when a suspended feed can still be resumed or dumped, and when its session can only be closed |
| `SessionObjects`, `SessionRefinement` | `Session`, `runState` and snapshots as objects, and their agreement with the interleaved system |
| `Pool`, `PoolSystem`, `PoolSafety`, `PoolTheorems` | the worker pool, sequentially and under every interleaving of its token, lock and queue operations |
| `Tenancy`, `TenancySafety`, `TenancyTheorems`, `TenancyLimits` | pool and sessions together: who drives a worker, when it is given back, and how many sessions it serves |
| `Channel`, `Spoken`, `ExchangeRefinement`, `Stderr` | frames, events, one worker's request/response exchange, workers that write well-formed events, what the session layer makes of it, captured standard error |
| `Modules`, `Kernels` | host modules and dotted names; random seeds, durations, the sleep cap |

## How to read the model

* Failures carry no text: every error return is `Err`, `None` or `Failed`.
* A callback passed to `parseFields` becomes a pass over the fields the parser delivers, together with
  whether the data ended well. Where the source ignores the parser's error, the fields before the
  malformed one still count.
* A session's critical sections are atomic steps; the lock is released between entering a turn and
  finishing it, so other sessions' and snapshots' steps fall in between. Answering an event, including
  the abort exchanges it may cause, happens under the lock and is one step.
* A worker is an event source. It may answer anything its protocol position allows: a feed, a resume or
  an abort is answered by a new suspension or by an event after which the worker holds none; a load
  re-emits the dump's own suspension, or leaves the worker idle. It may be lost at any request. As an
  object it lives to see some finite number of exchanges, any number whatever. An event consumed while a
  print callback fails is `Discarded`.
* A suspension has an identity, the session in whose turn it arose and, for a system sleep, the delay the
  sandbox asked for; `Vm.hist` lists those on the current path, so that counters and charges can be
  compared with what happened. `sleeps`, `lost`, `origin` and `heard` are histories the source does not keep:
  the charges, the suspensions a dump left out, the dump a run came from, and the microseconds of execution in
  the event a session was answered with last, which every request that runs code is logged with.
* `last` is a history too, of the session's last exchange about a feed: how its last turn ended, or its
  load. It stays as it was when the watchdog refuses a feed before anything is sent, since the worker is
  then where it was, and dumps and installations do not touch it. A caller sees whether a turn or load
  completed, suspended or failed, and which error came back. Of `Withheld(k)` and `Undecodable(k)` it sees
  only the callback's or the decoder's error; the kind `k` of the event behind it is known to the model alone.
* A snapshot's one-shot flag is taken before the answer is built. `Claim` takes it; `BeginResume` goes on
  to the turn; `Abandon` is a resume that returns without having anything to send: a value that does not
  encode, no or unknown futures, a cancelled wait. `Drop` is a snapshot nobody holds any more: `LoadSession`
  drops the one its load got. A dump reads the flag first (`BeginDump`) and waits for the session's lock
  after that (`DumpSnapshot`).
* The event that decides a turn (`SessionOutcome.Decisive`) is the first one within budget, or, of those over
  budget, the last one answered: the one whose abort was refused or brought no answer.
* The watchdog is compared with integers wherever the source's 64-bit arithmetic is exact for a session
  (`NoOverflow`): a grace that is not negative, as pool.go:153-154 demands, a budget and grace that add up below
  2^63, and a report of at most 2^63 - 1 nanoseconds.
* A load answered by a completion is an error, as at session.go:968-970.
* Cancellation, timeouts and which future is ready first are inputs chosen freely.

## Where the code does less than one might expect

Each of these is a lemma with a concrete run or an exact condition.

* A session can look idle while its worker still holds a suspension. With the worker alive this is so if
  and only if its last exchange about a feed ended in one of four ways (`IdleWorkerHoldsIff`): the watchdog
  refused the resume; the watchdog refused to abort an over-budget feed; a suspension was withheld because
  the print callback had failed; a suspension did not decode. A caller is told of the first two as such; of
  the other two it gets the callback's or decoder's error, which a non-suspending event gives as well. A
  session dump taken then says there were no suspensions (`HeldDumpSaysNone`). The counter of a run restored
  from it is short by the whole path, and a run's counter is right if and only if its chain of dumps does
  not start with such a dump (`SuspensionsAccounted`; `DiscardedSuspensionIsForgotten` is a run).
* Every charge is the delay the sandbox asked for, under the cap of the session where the sleep arose
  (`SleepsAccounted`). A sleep is charged if and only if that session handed it out; one withheld there
  and restored from a dump is never charged (`ChargedIffHandedOutAtHome`). What is handed out is what was
  charged if and only if, besides, the caps of that session and of the one handing it out agree on the
  delay (`ChargedAsGrantedIff`). A restore under a looser cap therefore sleeps longer than it paid for, and
  longer than the total it is allowed (`UncappedRestoreOutsleepsItsBudget`).
* A feed can stay pending with nothing left to resume or dump it. Between turns an open session has a
  snapshot that can be used if and only if the last turn or load returned one and nobody has tried to resume
  it or let go of it (`PendingIsUsableIff`). So a resumed turn that ends in an undecodable or unexpected event
  or in a failed abort leads there, and so does a mere try: a resume whose value does not encode has taken
  the snapshot's flag and changed nothing else, and `LoadSession` of a suspended dump throws the snapshot
  away. From any usable snapshot that is not being dumped either of these strands the feed (`LosingStrands`;
  `FailedAnswerStrandsTheFeed` is a run). A pending session between turns with a living worker can ever send
  anything but its Reset if and only if some resume or dump of its suspension is possible or already on its
  way (`MaySpeakIff`).
* The cycle check compares type and address, so a slice that holds a prefix of itself is refused although
  it is finite (`PrefixSliceIsRefused`). `FiniteRefusedIff` says exactly which finite values are refused.
* A negative `MaxDuration` counts as no budget, but it makes a restore drop the dump's budget
  (`RestoreMeetsBudgets`), and a session with a negative setting dumps snapshots nobody can load
  (`SnapshotRoundTrip`).
* `release` gives its token back before it queues its worker. A checkout in between can start a
  process too many, so `MaxProcesses` does not bound the registered workers (`MaxProcessesCanBeExceeded`,
  `FullPoolCanOverflow`); it does in every run in which no process is started during such a gap
  (`CalmRunsRespectMaxProcesses`), where the queue never lacks a place either (`CalmRunsNeverOverflow`),
  and twice `MaxProcesses` plus the returns under way always does.
* Outcomes of futures leave their table before the request that carries them is built. One value that
  does not encode loses every outcome collected with it (`Futures.FutureTable.ResumeAuto`).
* After `Monty.Close` has emptied the queue, a worker can still be queued exactly when a release had
  already read the closed flag (`QueueStaysEmptyUnlessLate`).
* With the largest 64-bit suspension limit the counter wraps before the limit is exceeded, and a feed
  is never stopped (`LargestLimitNeverStops`); with any smaller limit `FeedRun` ends.

## Model

| member | source | states |
|---|---|---|
| Wire.ParseFields | wire.go:50-97 | the loop delivers exactly the fields of the recursive definition of the wire format and its success flag |
| Wire.VarintRoundTrip | wire.go:19-23 | every 64-bit varint is read back exactly, whatever bytes follow |
| Wire.ZigZagRoundTrip | wire.go:24-24 | zigzag mapping and its inverse are mutually inverse on all 64-bit integers |
| Wire.FieldRoundTrip | wire.go:19-40 | each field builder's output is consumed as that field and nothing more |
| Wire.ParseMessage | wire.go:50-97 | parsing serialized fields returns exactly those fields in order |
| Wire.ParseConcat | wire.go:50-97 | a well-formed message followed by any bytes parses as the concatenation of the two parses |
| Nested.NestedRoundTrip | wire.go:164-310 | nested encode then decode is the normal form (32-bit years, offsets and deltas) for every encodable value |
| Arena.ArenaEncoder.AddLegacy | arena.go:22-102 | appends exactly the post-order nodes of the nested value and returns the last one's 32-bit index; earlier nodes are untouched |
| Arena.ArenaEncoder.AddBody | arena.go:33-84 | rewrites a container's body so that children become references, by the rule of its kind |
| Arena.ArenaEncoder.AddMessage | arena.go:34-47 | the children loop: referred, copied or dropped by tag, over a growing table |
| Arena.ArenaEncoder.AddPairs | arena.go:103-123 | each pair becomes a pair of references to newly added nodes |
| Arena.ArenaEncoder.AddModule | arena.go:54-68 | module attributes are flattened, other fields copied in order |
| Arena.ArenaEncoder.Encode | arena.go:124-130 | writes the node count and every node in table order |
| ArenaAccepts.AddSucceedsIff | arena.go:20-123 | a nested message is added if and only if it and everything it holds reads well and has kinds that may be supplied, whatever is in the table |
| ArenaDecode.DecodeArena | arena.go:194-413 | the append loop computes the recursive interpretation of the table and fails when it does; ArenaDecodesIff and OmittedMeansZero say what that is |
| ArenaDecode.ReadIndexes | arena.go:137-162 | packed and unpacked index fields are collected in order or the whole list is refused |
| ArenaDecode.ReadPacked | arena.go:144-156 | the packed loop reads all varints or fails |
| ArenaMeaning.FlattenMeaning | arena.go:12-102 | one add leaves earlier nodes decoding as before and appends nodes that decode to the post-order normal forms |
| ArenaTheorems.ArenaPreservesMeaning | arena.go:12-130 | any sequence of values added to one arena reads back, at the index each add returned, as nested encode-then-decode gives; later adds disturb nothing |
| ArenaTheorems.ArenaIsAcyclic | arena.go:131-136 | in any bytes that decode as an arena, node i mentions only nodes below i |
| ArenaTheorems.CountIgnored | arena.go:194-205 | the node-count hint changes nothing, whatever it claims |
| ArenaTheorems.ArenaCounts | arena.go:124-130 | a written arena's first field is the number of node fields after it, and these are the nodes in order |
| ArenaTheorems.PackedRoundTrip | arena.go:144-156 | packed varints unpack to the list that was packed |
| ArenaTheorems.PackedAlike | arena.go:137-162 | a packed list and one field per index decode alike |
| ArenaNodes.ContainerDecodesIff | arena.go:221-270 | a well-formed list, tuple, set, frozen set, named tuple or dict decodes if and only if its references exist, and then holds exactly the values at its indexes, in order, under its own kind |
| ArenaNodes.ArenaDecodesIff | arena.go:131-413 | an arena without classes, instances and modules decodes if and only if its message reads well, every node is one well-formed kind and every reference points back; then each container holds exactly the values at its indexes |
| ArenaNodes.ClassNodeIs | arena.go:298-335 | a class node of a sandbox or host class is the class with that name, identity, origin and dataclass flag, and the attributes its index pairs give |
| ArenaNodes.InstanceNodeIs | arena.go:336-364 | an instance node decodes if and only if its index is that of a class, and is then an instance of that class with its own identity and attributes |
| Omitted.LastFieldIs | wire.go:50-97 | of the fields with a tag the last one counts, and none is read exactly when there is none |
| Omitted.OmittedMeansZero | wire.go:311-507 | leaving a zero scalar or empty text out of a kind's message changes neither its nested decoding nor that of a node: big-integer sign, date and time parts, deltas, offsets, file position, exception and function texts, dataclass flag, an instance's class index |
| Omitted.OptionalIsKept | wire.go:311-507 | an optional field that says zero is told apart from one that is not there |
| Omitted.PairFromOneIndex | arena.go:163-193 | a pair message without a key index, a value index or both refers to node 0 there |
| Omitted.OmittedIndexMeansZero | arena.go:163-193 | pairs of a dict, and of the attributes of classes, instances and modules, may leave out a zero index anywhere |
| OmittedMessages.SegmentOmitted | protocol.go:760-769 | a print segment may leave out stream zero and an empty text |
| OmittedMessages.PayloadOmitted | exception_data.go:89-163 | an exception payload without its zeros and empty texts is accepted as the full one is, and read the same |
| OmittedMessages.PlaceOmitted | protocol.go:668-700 | a stack frame's position may leave out a line or column of zero |
| OmittedMessages.ExceptionOmitted | protocol.go:648-711 | an exception may leave out an empty type or message |
| OmittedMessages.EnvelopeOmitted | snapshot.go:31-85 | an accepted envelope without a budget of zero is accepted and restores the same; without its sleep usage it says that it has none |
| HostGraph.ValueEncoder.Encode | value.go:216-248 | encodes exactly the reified value, which represents the host value (same kind, length, order, names and keys, relation by relation); terminates on cyclic graphs by levels left then identities off the stack, and restores the visit stack |
| HostGraph.ValueEncoder.EncodeNode | value.go:249-369 | each kind of host value becomes its message around its encoded children, and what is encoded represents it |
| HostGraph.ValueEncoder.EncodeItems | value.go:370-393 | the list loop writes the items' encodings in order or fails with the first |
| HostGraph.ValueEncoder.EncodeEntries | value.go:394-424 | the pair loop writes key and value messages in order or fails |
| HostGraph.ReifyRepresents | value.go:216-369 | whatever is encoded represents the host value: a tuple is a tuple of what its items represent, and so on for every kind |
| HostPaths.RefusedIffTroubled | value.go:216-248 | encoding is refused if and only if some path from the root ends too deep, in an unsupported leaf, or in a node with the type and address of one already on the path |
| HostPaths.FiniteRefusedIff | value.go:216-248 | a value with a finite unfolding is refused if and only if a path enters more than 100 containers or meets a different node of the same type and address |
| HostPaths.PrefixSliceIsRefused | value.go:216-248 | a list holding its own prefix is such a value: finite, shallow, and refused |
| HostPaths.EmptyIsAccepted | value.go:239-240 | an empty list or map has no identity: it is accepted at every depth up to 100, whatever is being visited |
| HostPaths.ReifyUnfolds | value.go:216-369 | what is encoded is the plain unfolding, shared nodes copied |
| HostPaths.UnfoldingUnique | value.go:216-369 | a graph has at most one finite unfolding |
| HostPaths.UnfoldsIffRepresents | value.go:216-369 | the unfolding of a graph is the one value that represents it |
| HostPaths.HostValueArrives | value.go:216-369 | an untroubled host value is encoded, and its encoding decodes to the normal form of the one value that represents it |
| HostPaths.HostInputsSurvive | arena.go:12-20 | every untroubled host input is found in the arena as the normal form of a value that represents it |
| Requests.FeedRequest | protocol.go:96-118 | the loop over inputs builds the message with each name and the index its value got |
| Requests.FeedRequestCarriesInputs | protocol.go:96-118 | the worker finds every input under its name with the value its own nested encoding denotes, and code, flag and directory as given |
| Futures.FutureTable.ResolveReady | session.go:715-767 | a resume collects a nonempty list of distinct requested ids, exactly the awaited one and those ready; exactly these leave the table; unknown or empty requests change nothing |
| Futures.FutureTable.ResumeAuto | session.go:715-767 | there is a request if and only if the wait ended well, every requested id is known and every collected outcome encodes; once outcomes are collected exactly these have left the table, request or not, and otherwise none |
| Futures.FuturesRequestRoundTrip | protocol.go:176-181 | the request carries exactly the given encoded outcomes, in order, and the one arena |
| FuturesRequest.ResumeFutures | protocol.go:128-183 | the loop encodes each outcome, growing one shared arena, and builds the request from outcomes and final arena |
| FuturesRequest.ResumeFuturesCarriesAnswers | protocol.go:128-183 | the worker reads every outcome under its own call in order: values in their normal form out of the shared arena, all else exactly |
| ExceptionData.DecodeBody | exception_data.go:89-163 | a payload body is accepted exactly with typed, capped fields and, for unicode errors, one object |
| ExceptionData.DecodeData | exception_data.go:80-167 | at most one payload, of bytes type and acceptable, and none is no error |
| ExceptionData.PayloadRoundTrip | exception_data.go:43-167 | a payload is accepted if and only if its texts are within 64 KiB (a message within its own limit), and then read back exactly |
| Raised.DecodeException | protocol.go:648-711 | the parse loop accepts exactly well-formed frames and an acceptable payload, and gives what the fields say |
| Raised.ExceptionRoundTrip | protocol.go:184-207 | an exception with frames and payload is accepted if and only if its payload's texts are within 65536 bytes, or within the exception's own message where that is longer, and is then read back exactly |
| Snapshot.EncodeSnapshot | snapshot.go:23-29 | the envelope is the magic and five fields |
| Snapshot.DecodeSnapshot | snapshot.go:31-85 | accepted exactly when known fields are unrepeated, well typed and in range, the state is nonempty and the version matches; every field lands in its place |
| Snapshot.SnapshotRoundTrip | snapshot.go:23-85 | an envelope is readable if and only if it has a state and no negative budget, and then restores state and metadata exactly |
| Snapshot.AppendedFieldIsRejected | snapshot.go:43-53 | any repeated or mistyped known field spoils an accepted envelope |
| Snapshot.UnknownFieldIsIgnored | snapshot.go:40-42 | fields of later formats change neither acceptance nor content |
| Snapshot.VersionDecides | snapshot.go:76-84 | an accepted envelope names exactly the runtime version 1.2.0 |
| Session.SatSumIsClampedSum | session.go:366-372 | charging with saturation step by step gives the true total clamped at the largest duration |
| Session.ObserveFrame | session.go:89-101 | an event changes only limits and execution time, and a sleep limit is never dropped or raised |
| SessionOutcome.ObservedLimits | session.go:89-101 | after an event the suspension limit is the reported one, 1000 if that is zero, and the total-sleep limit is the smaller of the old one and the reported microseconds times 1000, held to the largest duration |
| SessionOutcome.WatchdogMeasures | session.go:73-78 | where 64 bits suffice the watchdog lets a request through if and only if there is no budget or the reported execution is below budget plus grace |
| SessionOutcome.ProgressTells | session.go:305-408 | for every context, event and sequence of abort answers: a turn completes if and only if the deciding event is a readable completion; it suspends if and only if that is a readable suspension whose count is within the limit and whose capped sleep fits what is left; every other outcome exactly as its cause |
| SessionOutcome.DecisiveCostsNothing | session.go:305-329 | up to the deciding event nothing is paid, no budget is changed and the feed stays pending |
| Session.ProgressAnswers | session.go:305-408 | answering an event keeps the account balanced and pays for nothing but the suspension it hands out, and of that exactly what is handed out; a snapshot is counted exactly, within the limit, carries the capped delay and under a sleep limit leaves the total within it; a living worker is left suspended exactly by the outcomes that say so |
| Session.AbortAnswers | session.go:320-328 | the same after any number of abort exchanges, whatever the worker answers |
| Session.RestoreMeetsBudgets | session.go:949-951 | a restore keeps the stricter duration budget if and only if the destination's setting is not negative or the dump has none |
| Session.ChainMeetsBudgets | session.go:949-951 | along any chain of restores the budget in force is the strictest set anywhere on it |
| SessionSafety.ActionKeeps | session.go:234-442 | every action of every session keeps the whole system's invariant |
| SessionSafety.RunKeeps | session.go:104-973 | the invariant holds after any interleaving of feeds, resumes, dumps, restores, installs and closes |
| SessionTheorems.OneAnswerPerSuspension | session.go:410-442 | no interleaving hands out two snapshots of one step or writes two resumes for it |
| SessionTheorems.NoDumpDuringTurn | session.go:791-812 | a snapshot that can be dumped belongs to a session with no turn in progress, though the dump never tests for one |
| SessionTheorems.IdleWorkerHoldsIff | session.go:234-442 | the living worker of an idle session holds a suspension if and only if the session's last exchange about a feed ended in one of four ways |
| SessionTheorems.HeldDumpSaysNone | session.go:832-853 | the dump of such a session carries that suspension and a count of zero, of any other idle session carries none |
| SessionPending.FreshUnlessTried | session.go:451-456 | a snapshot can still be claimed if and only if nobody in the run has tried to resume it or let go of it |
| SessionPending.PendingIsUsableIff | session.go:410-456 | between turns an open session has a snapshot whose next resume or dump passes flag and guards if and only if its last turn returned one that nobody has tried to resume or let go of; a returned one is the only one of its suspension |
| SessionPending.MaySpeakIff | session.go:410-456 | a pending session between turns with a living worker can in some continuation write anything but its Reset if and only if a snapshot of its suspension is unclaimed, or a resume or dump of it is on its way |
| SessionPending.LosingStrands | session.go:654-672 | a resume that takes the flag and returns without a request, or LoadSession dropping its load's snapshot, leaves any feed pending for good, with node, worker and last result untouched |
| SessionPending.FailedAnswerStrandsTheFeed | session.go:654-672 | a concrete run: a name lookup resumed with a value that does not encode; the feed stays pending and the session can only be closed |
| SessionTheorems.SuspensionsAccounted | session.go:305-329 | an active snapshot's counter is within the limit in force and, with what its chain of dumps forgot, is the number of distinct suspensions on the path; it is right if and only if the chain does not start with a dump taken over a held suspension |
| SessionLineage.LostIsForgotten | session.go:832-853 | what a run's counter leaves out is decided by the dump its chain starts with and how that session's last exchange about a feed had ended |
| SessionTheorems.SleepsAccounted | session.go:349-373 | usage is the clamped total of charges, no sleep charged twice, each the asked delay under the cap of the session where it arose, which handed it out; every handed-out delay is under its session's cap; under a limit an active system sleep leaves the total within it |
| SessionTheorems.ChargedIffHandedOutAtHome | session.go:349-373 | a handed-out system sleep is in its session's account if and only if the session where it arose handed it out |
| SessionTheorems.ChargedAsGrantedIff | session.go:349-373 | the account holds exactly the handed-out delay if and only if, besides, the two sessions' caps agree on it |
| SessionTheorems.UncappedRestoreOutsleepsItsBudget | session.go:349-373 | a concrete run that hands out a sleep of 10, charged as 1, under a total limit of 4 |
| SessionTheorems.DiscardedSuspensionIsForgotten | session.go:436-440 | a concrete run: a sleep withheld by a failed print callback is restored from a session dump, handed out uncounted and uncharged |
| SessionBooks.RunBooks | session.go:349-373 | in every interleaving each charge in any account or dump is a capped delay that a snapshot of its owner handed out |
| SessionEnds.RunEnds | session.go:234-442 | in every interleaving how a session's last exchange about a feed ended determines what its living worker and its snapshots hold |
| SessionPaid.RunLedger | session.go:349-373 | in every interleaving whoever holds a sleep that was handed out where it arose holds the charge for it |
| SessionTheorems.OnlyResetAfterClose | session.go:104-131 | once closed, a session and all its snapshots send nothing but one Reset, in every continuation |
| SessionTheorems.SleepLimitOnlyTightens | session.go:94-100 | a session's total-sleep limit is never dropped or raised by any continuation |
| SessionWatch.CodeRunsInTime | session.go:73-88 | in every run each feed, resume and abort of a session with a backstop and a positive budget was written while 1000 times the microseconds reported last were below budget plus grace |
| SessionWatch.TurnRefusedIff | session.go:73-88 | in every run a turn's request is refused if and only if that fails; one that is not is written, with that report, unless the worker is dead |
| SessionWatch.ReportIsTheLast | session.go:89-93 | in every run a session's execution time is what the last event it was answered with reported: of a turn, a load or the last abort |
| SessionWatch.AbortsCarryReports | session.go:320-328 | each abort is written under the watchdog with the report of the event it is for |
| SessionWatch.FinishedAsDecided | session.go:305-442 | in every run an answered turn completes if and only if the deciding event is a readable completion, suspends with one new snapshot if and only if that is a readable suspension within the budgets, and has its abort refused if and only if it is over budget with the time used up |
| SessionWatch.LoadedAsDecided | session.go:952-972 | in every run a load leaves an idle session if and only if the worker says so, and suspends if and only if the deciding event is a readable suspension within budgets that start from what the dump has counted and paid |
| SessionWatch.UnheardTurnsEnd | session.go:432-440 | in every run a turn that brought no event cancels its run, hands out nothing, and leaves nothing pending |
| SessionWatch.CompletedTurnsComplete | session.go:331-337 | from every reachable turn with a living worker and time left, a readable completion in answer completes the feed: the session is idle, the account as it was, no snapshot out |
| SessionBudgets.BudgetsNeverGrow | session.go:949-951 | in every run a feed's duration budget is at most that of every session its chain of dumps and restores has passed through, unless a negative setting dropped it |
| SessionObjects.Worker.Exchange | pool.go:534-625 | one request written, one lawful answer or a lost worker; a dead worker is not written to |
| SessionObjects.Session.constructor | pool.go:388-395 | the fields a checkout starts a session with |
| SessionObjects.Session.ObserveEvent | session.go:89-101 | the fields change as the value-level observation says |
| SessionObjects.Session.ExecutionExchange | session.go:73-88 | refuses exactly when, in integers, the reported execution has used up budget and grace; otherwise exchanges, observes, and takes the answer's report for the execution time |
| SessionObjects.Session.CloseBegin | session.go:104-119 | closes unless closed or in a turn, cancelling and dropping the pending run |
| SessionObjects.Session.CloseReset | session.go:120-131 | sends one Reset to a living worker and reports it reusable exactly when it answers OK |
| SessionObjects.Session.FeedBegin | session.go:249-264 | enters a turn exactly when the session is idle |
| SessionObjects.Session.FeedStart | session.go:234-282 | the whole turn does to run, session and worker what the value-level turn says; it completes if and only if the deciding event is a readable completion, then with nothing pending or paid, suspends if and only if that is a readable suspension within the budgets, and is refused unsent if and only if the time is used up |
| SessionObjects.Session.FeedRun | session.go:285-303 | ends, after at most as many resumes as the limit, for every worker that settles aborts and reports no higher limit |
| SessionObjects.Session.Dump | session.go:833-853 | dumps exactly when idle and answered with a dump, with no suspension count |
| SessionObjects.Session.Load | session.go:924-973 | restores only into a fresh idle session, adopting the dump's budgets before asking the worker; a completion in answer is an error |
| SessionObjects.RunState.Exchange | session.go:410-442 | refused unchanged unless open, pending, idle and at the snapshot's step; otherwise the value-level resume turn |
| SessionObjects.RunState.Request | session.go:432-440 | the exchange without the lock and what a failed one does to run and session |
| SessionObjects.RunState.Serve | session.go:432-441 | request, answer and progress of one turn, tied to the value-level turn |
| SessionObjects.RunState.Progress | session.go:305-408 | the nested branches and field updates compute the value-level progress, and end as the deciding event calls for |
| SessionObjects.RunState.Count | session.go:306-320 | counts a new suspension but not a restored one, and compares with the limit |
| SessionObjects.RunState.Pay | session.go:349-373 | caps the delay, checks the budget, charges with saturation unless already charged |
| SessionObjects.RunState.GiveUp | session.go:320-328 | aborts an over-budget feed and answers the worker's reply, which may be over budget again |
| SessionObjects.TurnIsTold | session.go:410-442 | the same of every whole turn, fed or resumed: refused, lost, withheld, or as its deciding event says |
| SessionObjects.RunState.Dump | session.go:791-812 | dumps exactly an active snapshot's run that is answered with a dump, with its counter |
| SessionObjects.RunState.Adopt | session.go:943-951 | takes over counter, sleep usage and the tighter duration |
| SessionObjects.RunState.Restore | session.go:952-972 | the load exchange and the answer to the re-emitted event, which may not be a completion |
| SessionObjects.Snapshot.Claim | session.go:451-456 | succeeds at most once |
| SessionObjects.Snapshot.Abandon | session.go:715-767 | a resume with nothing to send takes the flag, at most cancels the run and leaves session and worker as they were |
| SessionObjects.Snapshot.Dump | session.go:813-830 | dumps exactly an unclaimed snapshot of an active run that is answered with a dump, and does not claim it |
| SessionObjects.Snapshot.Resume | session.go:445-470 | answers only once and only while its run is at its step; completes and suspends if and only if the deciding event says so, and is refused unsent if and only if the time is used up |
| SessionObjects.SuspendedIsCounted | session.go:305-329 | a feed that suspends has counted exactly one more and is within its limit |
| SessionObjects.LargestLimitNeverStops | session.go:314-320 | with the largest limit every number of resumes is reached without an abort |
| SessionRefinement.FeedStartRefines | session.go:234-282 | FeedStart's turn is a run of the interleaved system with the same result |
| SessionRefinement.ResumeRefines | session.go:410-442 | a resume's turn is a run of the interleaved system with the same result |
| SessionRefinement.LoadRefines | session.go:924-973 | a load is the interleaved system's load action |
| Pool.QuietPoolIsBounded | pool.go:425-447 | with no operation in progress, registered workers never exceed MaxProcesses |
| Pool.Monty.constructor | pool.go:163-170 | an empty open pool |
| Pool.Monty.StartWorker | pool.go:277-290 | a started process is registered, or killed if the pool has closed |
| Pool.Monty.Prewarm | pool.go:171-183 | queues the requested number of fresh workers, or closes and leaves none alive |
| Pool.Monty.Acquire | pool.go:337-354 | takes the head of the queue or a new worker, one token per worker, and nothing on failure |
| Pool.Monty.Checkout | pool.go:293-395 | succeeds exactly when open, a token is free, a worker is available and configures; every failure gives token and worker back |
| Pool.Monty.Release | pool.go:425-447 | one token back; the worker is queued exactly when reusable, the pool open and its checkouts below a limit that is set, else killed |
| Pool.Monty.Close | pool.go:451-471 | empties the queue and kills what was in it; sessions keep their workers |
| PoolSafety.ActionKeeps | pool.go:293-471 | every token, lock and queue step of every call keeps the pool's invariant |
| PoolSafety.RunKeeps | pool.go:293-471 | the invariant holds in every interleaving |
| PoolTheorems.TokensConserved | pool.go:337-396 | tokens taken equal tokens held, and every finished call has returned its one |
| PoolTheorems.OneOwner | pool.go:344-354 | a worker is in the queue once or in one call's hands, never both; a living worker is always one of these |
| PoolTheorems.QueuedWorkersAreRested | pool.go:425-447 | every queued worker is registered, alive, below the checkout limit, and never used or last reset successfully |
| PoolTheorems.AtMostTwiceAsMany | pool.go:425-447 | in every interleaving registered workers are at most twice MaxProcesses plus those between giving their token back and being queued or unregistered |
| PoolTheorems.CalmRunsRespectMaxProcesses | pool.go:344-354 | MaxProcesses bounds registered workers in every run that starts no process during a release's gap |
| PoolTheorems.CalmRunsNeverOverflow | pool.go:439-446 | in those runs no worker is ever unregistered for want of a place in the queue |
| PoolTheorems.FullPoolCanOverflow | pool.go:426-440 | from every full pool with a waiting checkout there is a run to one registered worker more |
| PoolTheorems.MaxProcessesCanBeExceeded | pool.go:426-440 | a run from a fresh pool exceeds MaxProcesses with nothing in transit |
| PoolTheorems.QueueStaysEmptyUnlessLate | pool.go:427-440 | after Close emptied the queue, some continuation queues a worker if and only if a release is late |
| PoolTheorems.NothingOutlivesAnEmptyPool | pool.go:451-471 | with every call over and an empty queue no worker is registered or alive |
| TenancySafety.ActionKeeps | pool.go:337-447 | every step of the pool, of a session, or of both keeps sessions, calls, workers and what was written to them in agreement |
| TenancyTheorems.TenantsTakeTurns | session.go:104-131 | in every run each worker is written to by one tenant after the other, none twice: a Configure, requests of the one session made by that call, its Reset, and only after that another call's Configure or a Shutdown |
| TenancyTheorems.OnlyTheHolderWrites | pool.go:344-396 | at every step a worker is written to only by the one call that has it, never while it is queued |
| TenancyTheorems.SessionHasItsWorker | pool.go:388-395 | a session is open precisely while its call holds its worker, and closed but not reset precisely while its call resets it; until then neither the queue nor another call has the worker |
| TenancyTheorems.ReleasedOnce | session.go:119-131 | no call gives its token back twice and no two sessions share a call; a session's call has given it back if and only if the session's Reset is over and the release has begun, so exactly once when the call is over |
| TenancyTheorems.FormerTenantIsSilent | session.go:104-131 | after its Reset a session never writes to any worker again, in every continuation |
| TenancyTheorems.BothSidesAreRuns | pool.go:293-471 | seen from either side a run of pool and sessions is a run of that side alone, so everything proved of each holds together |
| TenancyLimits.WorkerServesAtMost | pool.go:383-430 | in every run of a new pool a worker's checkout count is the number of sessions made around it, and at most MaxCheckoutsPerWorker where that is set |
| Channel.FrameRoundTrip | wire.go:113-140 | a frame is read back exactly if and only if its body is within the maximum |
| Channel.CutStream | wire.go:113-140 | a stream of frames cut anywhere reads back as exactly the frames that arrived whole |
| Channel.DecodeEvent | protocol.go:235-271 | accepts exactly frames with one kind field and a numeric sleep limit |
| Channel.Worker.Read | wire.go:126-140 | takes one frame off the stream or nothing |
| Channel.Worker.Print | pool.go:568-584 | delivers segments in order until the callback fails; for a message written from segments, exactly those |
| Channel.Worker.Exchange | pool.go:534-625 | a dead worker is untouched; otherwise one request frame, frames read up to the first non-print event; dead exactly when lost or fatal |
| Channel.ExchangeTakesOneTurn | pool.go:557-593 | an exchange consumes exactly one turn whatever its prints, ends with that turn's answer (withheld just when the callback failed), and the callback saw a prefix of the prints |
| Channel.AnswersAlign | pool.go:534-625 | over any conversation the k-th exchange gets the k-th answer, whichever callbacks failed before |
| Channel.SegmentsRoundTrip | protocol.go:760-769 | whatever segments are printed in one event, the host reads exactly those, in order |
| Spoken.EventRoundTrip | protocol.go:235-271 | an event written from kind, body, execution time, limits and script is read as exactly these, whether a time of zero is written or left out |
| Spoken.DeliverMeaning | pool.go:568-584 | the callback is called with one segment more each time until it refuses: it has then seen the shortest part it refuses, and otherwise everything |
| Spoken.SpokenExchange | pool.go:557-593 | with a worker that prints given segments and gives an answer, the callback sees the segments up to the first refusal or all of them, and the answer is withheld if and only if it refuses |
| Spoken.SpokenAnswersAlign | pool.go:534-625 | over a whole conversation with such a worker the k-th exchange gets the k-th answer and its callback the k-th turn's prints |
| ExchangeRefinement.SessionHearsItsAnswer | pool.go:534-593 | the k-th exchange of a conversation gives the session layer the k-th answer, discarded just when this exchange's callback failed, and never a lost worker |
| ExchangeRefinement.DeathAgrees | pool.go:585-625 | frames and sessions agree on which exchanges cost the worker its life |
| Stderr.Capture.Append | pool.go:506-528 | the record is always a suffix of the output of at most 64 KiB, holding at least 32 KiB once there was that much |
| Stderr.Capture.Drain | pool.go:506-528 | so for any sequence of reads |
| Modules.NewModule | module.go:71-98 | an attribute is in the module if and only if it is given and its name does not begin with an underscore; fails exactly on a bad public name or nil submodule |
| Modules.PublicIs | module.go:75-79 | the public attributes are those whose names do not begin with an underscore |
| Modules.Resolve | module.go:155-172 | the loop over parts computes the recursive walk |
| Modules.ResolvesExactlyPaths | module.go:155-172 | a dotted name resolves to a callback if and only if its parts, none hidden after the first, spell a path to it |
| Modules.ImportModule | module.go:116-140 | the recursive import loop computes the specified tree of values |
| Modules.ImportMirrors | module.go:116-140 | an import has the module's identity and, path by path, its values as they are, its callbacks as functions under their dotted names, and its submodules as modules |
| Modules.ImportSucceedsUpToDepth | module.go:117-119 | importing a constructed module succeeds if and only if it nests at most 64 levels |
| Modules.CallbacksComeBack | module.go:116-172 | every callback in a tree is a function at its path in the import, under a name that resolves back to it |
| Modules.ImportedFunctionsAreCallbacks | module.go:126-137 | every function met in the import at a path is a callback of the tree at that path |
| Modules.FunctionsResolve | module.go:116-172 | so the name of any function met in an import resolves to the very callback it was made from |
| Modules.NamesAreDistinct | module.go:130-135 | different attribute paths never share a dotted name |
| Modules.CollectStubs | module.go:142-153 | writes into the caller's table what the recursive definition says |
| Modules.StubsByName | module.go:142-153 | under every string whatever: the stubs of the module it names, if it names one of the tree, and else what was there before |
| Kernels.SeedSizeSuffices | os_policy.go:193-196 | the chosen size always fits the two's complement; one byte less fits only for the negative powers that need no sign bit |
| Kernels.SeedRoundTrip | os_policy.go:191-206 | every integer seed's bytes read as signed little-endian give the integer back |
| Kernels.FillBytes | os_policy.go:201-202 | big-endian bytes of a number that fits |
| Kernels.ReverseBytes | os_policy.go:203-205 | reverses the buffer in place |
| Kernels.EncodeSeed | os_policy.go:193-206 | modulus, fill and reversal together give the two's-complement bytes |
| Kernels.EncodeDuration | value.go:497-506 | every 64-bit duration becomes a delta with 0 <= seconds < 86400 and 0 <= micros < 10^6 that recomposes to its truncated microseconds, with days in 32 bits |
| Kernels.NormalFormIsUnique | value.go:497-506 | such a delta is determined by its total |
| Kernels.TruncationLoss | value.go:498-498 | what is lost is below a microsecond, nothing exactly for whole microseconds, and the sign is kept |
| Kernels.DeltaRoundTrip | wire.go:421-435 | a normalised delta crosses the wire unchanged if and only if its days fit 32 bits |
| Kernels.SendDuration | value.go:494-506 | every duration arrives as its whole microseconds |
| Kernels.EncodeSleepCap | os_policy.go:101-117 | host cap and the microseconds told to the worker agree; unlimited is told apart from every finite cap; other negative caps are refused |

## Left out

- installer.go, cmd/monty-install, binary lookup and process spawning: their behaviour is the operating system's and the network's.
- host.go: reflection over Go function signatures depends on Go's conversion rules.
- The reflective classification of Go values (value.go:249-369): a host value enters the model already sorted into scalar, pointer, list, map, named tuple, module or unsupported; identities of pointers, slices and maps are given.
- Dict keys' hashability and Go map iteration order: entries come in a given order, as the source's loops see them.
- The protobuf primitives of the protowire library are modelled from the Protocol Buffers Encoding specification (sections "Base 128 Varints", "Signed Integers", "Length-Delimited Records", "Packed Repeated Fields"); the library itself is not part of this model.
- Strings are byte sequences and floats 64-bit words: UTF-8 validity, Unicode classes beyond what identifiers need, and rounding of sleep seconds to nanoseconds are not modelled.
- The nested decoder (wire.go:164-507) is a set of functions, not loops: it is the reference meaning the arena is compared with. Aliasing of decoded slices is not visible.
- ClassType, ClassInstance, Repr and Cycle are decoded but stay outside the round trips: the host cannot send the first two, Repr comes back as a plain string and Cycle is read differently by the two decoders (arena.go:374-375, wire.go:283-294).
- Requests.FeedRequest: takes values already accepted by the encoder; which host graphs those are is RefusedIffTroubled.
- ArenaTheorems.ArenaPreservesMeaning: assumes nested encodings below 2^63 bytes and an arena within the frame limit, beyond which no frame can be sent.
- SessionObjects.RunState.Progress: ends because the worker lives to see finitely many exchanges, of any number; a worker that answers every abort with another suspension, for ever, keeps the source in that recursion.
- SessionObjects.Session.FeedRun: the bound on resumes is stated for workers that do not suspend in answer to an abort, since those that do can keep a feed going for as long as they live. It calls back no host code; the resume it performs is ResumeAuto after its callback has returned.
- SessionObjects.Session.CloseReset: the pool's release that follows it is Pool.Monty.Release.
- PoolTheorems.CalmRunsRespectMaxProcesses: goes one way, because starting a process during a gap exceeds the bound only when the pool is full; FullPoolCanOverflow is the other half, from every full pool.
- InstallDependencies: its guard, its request and the loss of the worker are modelled, not the answer's text.
- Pool.Monty.Checkout: option validation before a token is taken is left out, as is the configure request's content.
- Futures.FutureTable.ResumeAuto: which values encode is a parameter; HostPaths.RefusedIffTroubled says which do. The turn that follows a request is RunState.Exchange.
- The Tenancy modules: a worker's loss is kept twice, by its session and by the pool; every step of the session passes its view on to the pool. Prewarmed workers are there from the start.
- Futures a call registers, and the goroutines that fill them, are given as the table's content.
- The table of OS call kinds and argument checks in decodeOSCall, configuration flags, print flushing, tracebacks and error texts: flat case lists.
- Wall-clock timers and context plumbing: a timeout or cancellation is a lost worker or a cancelled wait.
- The execution counter's multiplication by 1000 and the watchdog's sums wrap at 64 bits as in the source; what the watchdog measures is stated where they do not, as "How to read the model" says. A worker that reports absurd times can switch the watchdog off.
- SessionObjects.Session.Load: restores dumps as this version writes them, with their sleep usage; an envelope of an older format, without it (EnvelopeOmitted), would have its sleep charged when it is handed out.
- ArenaNodes.ArenaDecodesIff: arenas with classes, instances or modules have conditions on what the nodes referred to are; ClassNodeIs and InstanceNodeIs say them for one node.
