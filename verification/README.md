# Verified models of the CIGAR tooling

A Dafny 4.11 project that models the logic-heavy parts of the CIGAR repository's Python tooling, and of the
TypeScript runtime validator that `sdk/generate_clients.py` emits, and proves properties of those models.
`dafny verify dfyconfig.toml` checks the whole project.

## What is modelled

**CIGARBench** (`benches/cigarbench/cigarbench.py`). Producers and verifiers of a benchmark run are separate
code that must agree. The model covers the seeded treatment orders, making and validating a plan, seed verification,
execution, writing, loading and binding events, pairing, attestation, the checks and decision of `compare`, the
stratified cluster bootstrap, percentiles, the Wilson interval and the canary scan. Main results: from `make_plan`
to `compare` no check can refuse a planned run except under stated conditions that a caller can check beforehand,
and these are exact (`BenchPipeline.PlannedRunIsComparable`, `BenchPipeline.RunBenchmark`); a produced plan validates
exactly for dataset identifiers of at most 122 characters; binding and pairing together accept exactly the streams with
one event per assignment; for any shuffle an accepted stream is counterbalanced in every stratum; a reported pass
needs at least 381 datasets in every protected stratum and 1,323 in all, with at most 18 replicates
(`BenchScale.PassNeedsDatasets`); a decision is `insufficient_evidence` exactly when there is an eligibility reason;
orders and percentiles do not depend on how their input is listed, and a plan does exactly through the digests it is
bound to; and resamples keep whole task clusters per stratum.

**Deterministic CBOR and the recorded API** (`demos/driver_support.py`). The encoder with its mutable node budget is
proved against a size, depth and range condition and an encoding function. A reader written for the model gives the
round trip, prefix-freedom, injectivity, shortest form and key order of section 4.2.1 of RFC 8949. The recorded server is
a state machine whose first failure is final. A session is exact if and only if it completes and nothing in it was
ignored or escaped: completion alone is not enough, because an exception outside the three caught kinds uses up an
operation without a failure.

**Broker soak** (`benchmarks/broker_soak.py`). `replay` is an automaton over a log; it is proved to accept exactly the
complete logs, and from that follow the coverage of every instant, the duration bound and both bounds on the number of
maintenance runs. `Soak.run` is modelled as an imperative driver over an adversarial monotone clock and an
adversarial broker. What a returned run wrote has one reading, which replay accepts exactly when the conditions that the
driver has not judged itself hold; what an aborted run wrote is never accepted.

**Schema normaliser, validator and coercer** (`sdk/generate_clients.py`). `omission_only` preserves the meaning of a
schema on null-free values, through references, alternatives, nested type unions, properties and pattern properties.
`coerce` preserves numeric meaning for every schema. It is idempotent without unions; through a union of union-free
choices it is so exactly when the choices before the one taken refuse its result.

**Statistics** (`benches/answer-quality/metrics.py`, `benchmarks/broker_load.py`). Ten bins partition the calibrated
claims and the calibration error squared is at most the Brier score. Jain's index lies between 1/n and 1, is 1 exactly for equal
counts, and is bounded by the reported min/max ratio, so the registered ratio gate implies the index gate.

**Streaming loops** (`tools/qualification_evidence.py`, `demos/run.py`). Bounded log and state capture for
every chunking, and overlapping chunk scan against whole-file search.

## How the source is represented

- Loops that update variables, dictionaries or objects are methods and classes, proved against functions of their
  inputs; the properties are lemmas about those functions. Python dictionaries that are iterated are a map and the
  list of its keys in insertion order.
- Raised errors are `Option`, `Result` or status datatypes. Numbers are unbounded integers and reals; the constants, the 64-bit
  ranges and the safe-integer range of the source are written out.
- SHA-256, HMAC, Unicode normalisation, regular-expression matching, the consumer under test and the
  estimators the gates compare are function parameters. Digests may collide; where that matters a condition says so. The generator's shuffle is any permutation and its draws any
  numbers in range. A square root is a number with the given square.
- A clock is any sequence of readings made monotone; a process that runs out of readings has been killed.
- Identifiers are byte strings, because they are restricted to ASCII and compared in code-point order.

Where code and documentation differ the code is followed:

- `make_plan` does not check that a pair identifier is a bounded identifier, so a dataset identifier of 123 to 128
  characters gives a plan that `validate_plan` refuses (`BenchPlanning.PlannedIsValid`, `BenchInventory.LongIdentifierIsRefused`).
- `make_plan` accepts up to 50,000 assignments and `write_json` at most 64 MiB, so a plan within the first bound can be
  too long for the second (`BenchSizes.MakePlan`, `BenchInventory.LongPlanIsRefused`).
- Orders and assignments do not depend on how a manifest lists its datasets, but `make_plan` binds the plan and the
  environment capture to a digest that keeps the order of lists, so another listing is refused under the old capture
  and gives another plan under a fresh one (`BenchRelisting.RelistedIsPlannable`, `BenchRelisting.RelistedPlan`).
- Two map keys that become equal under normalisation are both written, in insertion order, so the encoding is not
  canonical there (`CborCanonical.OrderForgottenExactly`, `CborCanonical.CollidingKeysRememberOrder`).
- `_exchange` advances before it validates and catches three kinds of exceptions, so a body nested too deep for the JSON
  parser, or an action that raises anything else, leaves the recorded session complete without its reply
  (`RecordedApi.ExactIffCompleteAndClean`, `RecordedApi.EscapeCompletes`); requests with other methods are answered by
  the base class and go unnoticed (`RecordedApi.IgnoredGoesUnnoticed`).
- `omission_only` rewrites by key name, so a null alternative that is also a reference, and a list under the name `type`
  in a table of schemas, change meaning (`SchemaMeaning.BareNullIsNeeded`, `SchemaMeaning.StaysListIsNeeded`).

## Model

| member | source | states |
|---|---|---|
| `Cbor.CborHead` | demos/driver_support.py:65-79 | the head of every argument below 2^64, and failure outside |
| `Cbor.DeterministicCbor` | demos/driver_support.py:82-119 | success exactly when values plus map keys stay within the node budget, nesting within 64 levels, integers in range and every value supported; then the bytes are the encoding and the budget has grown by the declarative size |
| `Cbor.EncodeList` | demos/driver_support.py:102-105 | list items are encoded in order under one shared budget |
| `Cbor.EncodeMap` | demos/driver_support.py:106-118 | a map is its head and its entries sorted by encoded key, under one shared budget |
| `Cbor.FitsMeaning` | demos/driver_support.py:82-119 | spending the budget item by item is the same as comparing the total size with it |
| `CborDecoding.HeadRoundTrip` | demos/driver_support.py:65-79 | reading a head gives back major type, argument and the untouched rest |
| `CborDecoding.RoundTrip` | demos/driver_support.py:82-119 | decoding `encode(v) + rest` gives the canonical representative of `v` and `rest`, for every supported value |
| `CborDecoding.PrefixFree` | demos/driver_support.py:82-119 | two encodings followed by anything agree exactly when canonical values and remainders agree |
| `CborCanonical.EncodingIsShortest` | demos/driver_support.py:65-119 | no accepted spelling of a value is shorter than the encoder's |
| `CborCanonical.HeadIsShortest` | demos/driver_support.py:65-79 | every head uses the shortest argument form |
| `CborCanonical.KeysIncrease` | demos/driver_support.py:106-118 | written keys strictly increase bytewise if and only if normalised keys are distinct |
| `CborCanonical.EncodingIdentifiesValues` | demos/driver_support.py:82-119 | with distinct normalised keys, equal encodings mean equal values up to normalisation and map order, and conversely |
| `CborCanonical.OrderForgottenExactly` | demos/driver_support.py:106-118 | every insertion order gives the same bytes if and only if colliding keys have children of one canonical form |
| `CborCanonical.CollidingKeysRememberOrder` | demos/driver_support.py:106-118 | two spellings of one letter as keys: the bytes depend on insertion order |
| `CborCanonical.CanonIsIdempotent` | demos/driver_support.py:82-119 | the canonical representative is a fixed point under an idempotent normalisation |
| `CborCanonical.ReadBackIsSame` | demos/driver_support.py:82-119 | what is read back equals what was written |
| `RecordedApi.RecordedServer.constructor` | demos/driver_support.py:170-174 | a new server is at the first operation, unfailed and not yet serving |
| `RecordedApi.RecordedServer.Fail` | demos/driver_support.py:176-178 | only the first failure is remembered |
| `RecordedApi.RecordedServer.Handle` | demos/driver_support.py:202-238 | one dispatched exchange takes the state machine's step and gives its reply, whether it is answered, refused, escapes, loses its reply or ends the thread |
| `RecordedApi.RecordedServer.Receive` | demos/driver_support.py:188-192 | a request with another method, or one that meets a dead thread, changes nothing and gets no reply |
| `RecordedApi.RecordedServer.Serve` | demos/driver_support.py:202-238 | a session ends in the state and with the replies of the run |
| `RecordedApi.RecordedServer.AssertComplete` | demos/driver_support.py:343-349 | completion is no failure, every operation used and a serving thread |
| `RecordedApi.FailureIsSticky` | demos/driver_support.py:176-178 | a failed or ended server stays in the same state whatever arrives |
| `RecordedApi.SoundIffTolerated` | demos/driver_support.py:202-238 | unfailed and alive exactly while every exchange met its operation and was answered, lost or escaped; then one operation is used for each |
| `RecordedApi.CompleteIffTolerated` | demos/driver_support.py:343-349 | complete exactly when there was one tolerated exchange for each operation |
| `RecordedApi.ExactIffCompleteAndClean` | demos/driver_support.py:202-238 | the session was the recording, in order, with nothing else and every action succeeding, if and only if it completed and nothing was ignored or escaped |
| `RecordedApi.EscapesExactly` | demos/driver_support.py:210-231 | an exchange escapes exactly when a body that is read nests too deep or a validated action raises another exception |
| `RecordedApi.CompleteIffExact` | demos/driver_support.py:343-349 | for dispatched requests whose bodies parse and whose actions raise nothing else, completion is exactness |
| `RecordedApi.EscapeCompletes` | demos/driver_support.py:209-231 | for every recording and position: an escape there leaves the session complete, not exact, and every reply but that one sent |
| `RecordedApi.IgnoredGoesUnnoticed` | demos/driver_support.py:181-192 | a request with another method changes nothing, and the session is no longer exact |
| `RecordedApi.UnansweredWhileSound` | demos/driver_support.py:202-238 | while unfailed and alive, the unanswered exchanges are exactly the lost and the escaped ones |
| `RecordedApi.RepliesAreRecorded` | demos/driver_support.py:218-238 | whatever arrives, the replies are the recorded responses at the answered positions, in order, each at most once |
| `RecordedApi.RepliesArePrefix` | demos/driver_support.py:202-238 | the answered positions are an initial segment, and the replies a prefix of the recorded responses, if and only if no answer follows an unanswered exchange |
| `RecordedApi.ContainedLeavesNoGap` | demos/driver_support.py:202-238 | without escapes and lost replies there is no such gap |
| `RecordedApi.EncodingNeverFails` | demos/driver_support.py:152-154 | responses checked on construction never fail to encode when sent |
| `RecordedApi.RequestIdentifiesOperation` | demos/driver_support.py:240-290 | a request that validates for one operation validates for another exactly when they are the same exchange with requests of one canonical form |
| `SchemaNormalisation.RunOmissionOnly` | sdk/generate_clients.py:86-102 | the recursive rewrite with its dictionary updates is the specified rewrite, and fails exactly on alternatives that are no dictionary |
| `SchemaNormalisation.RunVariants` | sdk/generate_clients.py:96-101 | null alternatives are dropped from `oneOf` and `anyOf` and nothing else is |
| `SchemaNormalisation.LookupRewritten` | sdk/generate_clients.py:91-102 | looking a keyword up in a rewritten schema is rewriting what the original holds |
| `SchemaNormalisation.ResolveRewritten` | sdk/generate_clients.py:252-258 | references resolve to rewritten definitions |
| `SchemaNormalisation.NullSchemaOrigin` | sdk/generate_clients.py:96-101 | an alternative is dropped if and only if its type is null, or a list of null and one list that holds null alone |
| `SchemaNormalisation.NullTypeRejects` | sdk/generate_clients.py:283 | a schema of type null accepts nothing but null |
| `SchemaMeaning.NullOnlyRejects` | sdk/generate_clients.py:274-283 | a dropped alternative that is neither a reference nor a union accepts no null-free value |
| `SchemaMeaning.Keeps` | sdk/generate_clients.py:249-331 | at any depth and budget, validation under the rewritten schema agrees with the original and spends no more |
| `SchemaMeaning.RewriteKeepsMeaning` | sdk/generate_clients.py:86-102 | for every null-free value, if the original hits no bound neither does the rewritten schema, and one accepts exactly when the other does |
| `SchemaMeaning.BareNullIsNeeded` | sdk/generate_clients.py:96-101 | a null alternative that is also a reference: the original accepts `true`, the rewritten schema rejects it |
| `SchemaMeaning.StaysListIsNeeded` | sdk/generate_clients.py:91-95 | a list named `type` in a table of schemas, holding null and one scalar: the original accepts every value there, the rewritten schema raises on every value |
| `SchemaValidation.Validate` | sdk/generate_clients.py:249-331 | validation never gives nodes back and never forgets having hit a bound |
| `SchemaRuntime.RunValidate` | sdk/generate_clients.py:249-331 | the emitted validator with its mutable budget and match counters gives the specified verdict and spends the specified nodes |
| `SchemaRuntime.RunProbe` | sdk/generate_clients.py:262-271 | the alternatives loop counts exactly the accepting alternatives |
| `SchemaRuntime.RunKinds` | sdk/generate_clients.py:275-282 | the type-union loop counts exactly the accepting kinds |
| `SchemaRuntime.RunObject` | sdk/generate_clients.py:311-330 | object fields are checked against properties, then patterns, then additional properties |
| `SchemaRuntime.RunCoerce` | sdk/generate_clients.py:332-386 | the emitted coercer gives the specified result and spends the specified nodes |
| `SchemaRuntime.RunCoerceFirst` | sdk/generate_clients.py:339-352 | the first alternative whose coerced value validates is taken |
| `SchemaRuntime.Create` | sdk/generate_clients.py:400-405 | a created payload validates and means what the input meant |
| `SchemaRuntime.CreateAgain` | sdk/generate_clients.py:400-405 | without unions, creating a created payload changes nothing |
| `SchemaRuntime.CreateUnionAgain` | sdk/generate_clients.py:400-405 | nor does it for a union of union-free choices when the choices before the one taken refuse the payload |
| `SchemaCoercion.CoerceKeepsMeaning` | sdk/generate_clients.py:332-386 | a returned value equals the input once numbers and bigints are identified, for every schema |
| `SchemaCoercion.CoerceIsIdempotent` | sdk/generate_clients.py:332-386 | on union-free schemas coercing a result again returns it unchanged |
| `SchemaAlternatives.KindsAreAlternatives` | sdk/generate_clients.py:354-365 | a list of types is coerced as the alternatives that carry one of the types each |
| `SchemaAlternatives.CoerceAlike` | sdk/generate_clients.py:332-386 | without unions, values of one numeric meaning count the same nodes and fail alike |
| `SchemaAlternatives.UnionSettles` | sdk/generate_clients.py:340-365 | through a union of union-free choices, coercing a result again returns it and counts the same nodes if and only if every choice before the one taken refuses the result |
| `SchemaUnions.UnionsAreNotIdempotent` | sdk/generate_clients.py:339-352 | two object alternatives and any safe integers: the first coercion takes the later alternative, and its result is coerced again by the earlier one |
| `SoakReplay.Row` | benchmarks/broker_soak.py:268-361 | one record is accepted exactly under the frame and body conditions and advances the totals |
| `SoakReplay.ProgressRow` | benchmarks/broker_soak.py:332-360 | cycles, maintenance starts and completion are the only progress records |
| `SoakReplay.RanEnough` | benchmarks/broker_soak.py:363-368 | each phase ran at least floor((seconds - 30) / period) times |
| `SoakReplay.Replay` | benchmarks/broker_soak.py:255-379 | the loop over records computes the automaton's verdict and report |
| `SoakCompleteness.StepFollowsParse` | benchmarks/broker_soak.py:268-361 | the automaton steps exactly when the parse of the log can be extended, to the extended parse's totals |
| `SoakCompleteness.AcceptedIsParsed` | benchmarks/broker_soak.py:255-361 | every log not refused so far is Start, whole blocks and a position, with the totals of that parse |
| `SoakCompleteness.ParsedIsAccepted` | benchmarks/broker_soak.py:255-361 | every such parsed log is accepted so far |
| `SoakCompleteness.CompleteIsAccepted` | benchmarks/broker_soak.py:362-379 | a complete log is accepted and reported from its blocks |
| `SoakCompleteness.AcceptedIsComplete` | benchmarks/broker_soak.py:255-379 | an accepted log is complete, and the report is the one its blocks determine |
| `SoakCompleteness.AcceptedIffComplete` | benchmarks/broker_soak.py:255-379 | replay accepts exactly the logs of shape Start, (Cycle or paired Maintenance)*, DurationComplete, FinalVerification that meet every time and content condition |
| `SoakCoverage.NoSilence` | benchmarks/broker_soak.py:298-331 | consecutive records are at most 5 s apart, or 30 s after a maintenance start or completion |
| `SoakCoverage.EveryInstantCovered` | benchmarks/broker_soak.py:298-331 | every instant up to the last record lies between two consecutive records and within what the first of them allows |
| `SoakCoverage.DurationObserved` | benchmarks/broker_soak.py:357-370 | seconds <= completion <= 5 (cycles + maintenance + 1) + 30 maintenance, and the reported gap is at most 5 s |
| `SoakCoverage.NumbersAreConsecutive` | benchmarks/broker_soak.py:344-350 | maintenance of each phase is numbered 1, 2, 3, ... with none skipped or repeated |
| `SoakCoverage.LogRunsAreBounded` | benchmarks/broker_soak.py:350-368 | the same bounds on runs from structure and framing alone |
| `SoakCoverage.RunsAreBounded` | benchmarks/broker_soak.py:350-368 | runs of a phase lie between floor((seconds - 30) / period) and completion / period |
| `SoakRun.Journal.Append` | benchmarks/broker_soak.py:205-216 | a record is appended whole with the next sequence number, or refused for credentials or size, leaving the journal unchanged |
| `SoakRun.Soak.RunCycle` | benchmarks/broker_soak.py:757-785 | a cycle is recorded before it is judged; the journal stays structured, and unfinished on failure |
| `SoakRun.Soak.Bracket` | benchmarks/broker_soak.py:831-863 | the closing record is written whatever the phase did |
| `SoakRun.Soak.RunPhase` | benchmarks/broker_soak.py:827-868 | a phase runs only when due and only under its next number |
| `SoakRun.Soak.RunTurn` | benchmarks/broker_soak.py:804-869 | one turn keeps the counters equal to those of the journal and stops on an unexplained gap |
| `SoakRun.Soak.Finish` | benchmarks/broker_soak.py:881-909 | completion, required runs and final verification close a structured log |
| `SoakRun.Soak.Run` | benchmarks/broker_soak.py:787-909 | for every monotone clock and broker behaviour: a returned run wrote a structured log whose cycles and phase durations it has judged and whose counts it reports, any other run left an unfinished one |
| `SoakRun.Soak.Execute` | benchmarks/broker_soak.py:912-965 | with cleanup done and the failure recorded, the status is passed exactly when replay accepts the retained log, and then the log is complete |
| `SoakRun.UnfinishedIsRejected` | benchmarks/broker_soak.py:362 | a log without final verification at its end is never accepted |
| `SoakRun.LogIsUnique` | benchmarks/broker_soak.py:787-909 | a structured log has one reading |
| `SoakRun.RunAgainstReplay` | benchmarks/broker_soak.py:255-379 | replay accepts what a returned run wrote exactly when the gaps, record shapes, outer durations and recorded checks that the driver did not judge itself are in order, and reports the run's elapsed time, cycles and counts |
| `SoakRun.ReturnedRunIsScheduled` | benchmarks/broker_soak.py:827-892 | for any clock a returned run's phases are numbered 1, 2, 3, ..., none before its schedule, with counts between floor((seconds - 30) / period) and completion / period |
| `BenchOrders.SeededBaselineOrders` | benches/cigarbench/cigarbench.py:986-1007 | the grouping and shuffling loops compute the specified orders, and fail exactly outside 1..100000 replicates |
| `BenchCounterbalance.OrdersGive` | benches/cigarbench/cigarbench.py:995-1006 | each stratum's slots receive a permutation of the alternation, unaffected by other strata |
| `BenchCounterbalance.OrdersDefined` | benches/cigarbench/cigarbench.py:986-1007 | every replicate of every dataset gets order one or two |
| `BenchCounterbalance.OrdersBalanced` | benches/cigarbench/cigarbench.py:1004-1006 | for any shuffle, first places exceed second places by zero or one in every stratum |
| `BenchCounterbalance.OrdersForgetListing` | benches/cigarbench/cigarbench.py:995-1003 | the seeded orders do not depend on how the manifest lists its datasets |
| `BenchSizes.MakePlan` | benches/cigarbench/cigarbench.py:1606-1660 | a plan is written exactly for plannable inputs whose plan is at most 64 MiB long, and is the specified one |
| `BenchSizes.PlanLength` | benches/cigarbench/cigarbench.py:272-276 | the written length of a plan is a function of the caller's choices, whatever the seed and the shuffle |
| `BenchSizes.SmallPlanFits` | benches/cigarbench/cigarbench.py:272-276 | up to 27,000 assignments with an output budget of at most twenty digits always fit |
| `BenchRecords.NamesCounted` | benches/cigarbench/cigarbench.py:233-243 | the lengths counted for member names, fixed values and punctuation are those of canonical JSON |
| `BenchPlan.PlanIsOrdered` | benches/cigarbench/cigarbench.py:1647-1649 | a plan lists its assignments by dataset, sample and execution order |
| `BenchRelisting.RelistedAssignments` | benches/cigarbench/cigarbench.py:1624-1649 | for two listings of the same datasets and any captures the assignments agree in everything but the environment digest, in the same order |
| `BenchRelisting.RelistedPlan` | benches/cigarbench/cigarbench.py:1606-1660 | two listings of the same datasets give the same plan if and only if the listings have the same digest and so have the captures |
| `BenchRelisting.RelistedIsPlannable` | benches/cigarbench/cigarbench.py:1613-1617 | another listing of a plannable manifest is plannable under a capture if and only if that capture was taken for it; under the old capture, if and only if the listings have the same digest |
| `BenchPlan.ValidatePlan` | benches/cigarbench/cigarbench.py:1663-1752 | the two passes accept exactly the plans that are a perfect matching of valid entries under their own digest |
| `BenchPlan.GroupHasTwo` | benches/cigarbench/cigarbench.py:1740-1751 | with distinct pair treatments a group with partners is one complete pair |
| `BenchPlanning.PairIdInjective` | benches/cigarbench/cigarbench.py:1630 | a pair identifier names one dataset and one sample |
| `BenchPlanning.PairIdIsIdentifier` | benches/cigarbench/cigarbench.py:65 | a pair identifier is a bounded identifier exactly when the dataset identifier has at most 122 characters |
| `BenchPlanning.PlanIsProduced` | benches/cigarbench/cigarbench.py:1625-1650 | sorting datasets and assignments keeps both treatments of every replicate exactly once |
| `BenchPlanning.PlannedIsValid` | benches/cigarbench/cigarbench.py:1606-1752 | a produced plan passes validation if and only if all dataset identifiers have at most 122 characters |
| `BenchInventory.LongIdentifierIsRefused` | benches/cigarbench/cigarbench.py:1285-1337 | nine datasets over the nine required strata, one with an identifier of 123 to 128 characters: for every acceptable choice with a capture of that manifest the inputs are plannable and the plan is refused by validation |
| `BenchInventory.VersionOneIsAcceptable` | benches/cigarbench/cigarbench.py:1340-1397 | full pins and the version 1 strata and comparators are such a choice |
| `BenchInventory.LongPlanIsRefused` | benches/cigarbench/cigarbench.py:272-276 | nine datasets, 2777 replicates and pin labels of 128 characters are plannable and too long to be written |
| `BenchSeeding.PlannedIsSeeded` | benches/cigarbench/cigarbench.py:1010-1052 | a produced plan reproduces from its own seed |
| `BenchSeeding.BaselinesPerDataset` | benches/cigarbench/cigarbench.py:1027-1032 | in a seeded plan every dataset has one baseline per replicate |
| `BenchSeeding.VerifySeededAssignments` | benches/cigarbench/cigarbench.py:1010-1052 | a replicate count is returned exactly when the assignments are both treatments of every replicate in the seeded orders |
| `BenchEvents.Execute` | benches/cigarbench/cigarbench.py:1846-1909 | succeeds exactly for a valid plan of this canary registry and artifact, a consumer that completes, and events that can be written; then one unattested post-warm event per assignment in plan order |
| `BenchEvents.WriteEvents` | benches/cigarbench/cigarbench.py:474-497 | the running totals refuse exactly the streams that are empty, hold an event over 64 KiB, or exceed a million events or 64 MiB |
| `BenchEvents.LoadEvents` | benches/cigarbench/cigarbench.py:445-471 | a stream loads exactly when it is non-empty and its events are valid and have distinct identities |
| `BenchEvents.BindEventsToPlan` | benches/cigarbench/cigarbench.py:1104-1124 | the loops accept exactly when every event is a planned one and every planned one occurs |
| `BenchEvents.BoundMeaning` | benches/cigarbench/cigarbench.py:1104-1124 | for distinct keys, binding is: no warm-up, the plan's digest, and the same set of assignments |
| `BenchPairing.GroupEvents` | benches/cigarbench/cigarbench.py:507-514 | grouping fails exactly on a repeated pair treatment |
| `BenchPairing.Paired` | benches/cigarbench/cigarbench.py:506-542 | pairing succeeds exactly when every post-warm event has its mate, and the pairs hold every baseline event once |
| `BenchRuns.AcceptedIffExact` | benches/cigarbench/cigarbench.py:506-542 | for a valid plan, binding and pairing accept exactly the streams with one event per assignment and one seed commitment per pair |
| `BenchRuns.PlannedRunIsAccepted` | benches/cigarbench/cigarbench.py:1606-1909 | for every manifest with short identifiers, seed and replicate count the plan validates, matches the manifest, reproduces, and its execution, attested or not, is bound and paired |
| `BenchPipeline.PlannedIsBundled` | benches/cigarbench/cigarbench.py:1055-1101 | a produced plan passes the whole input bundle check, and its seed opens it |
| `BenchPipeline.PlannedIsExecutable` | benches/cigarbench/cigarbench.py:1846-1909 | a produced plan executes exactly for short identifiers, a completing consumer and writable events |
| `BenchPipeline.PlannedRunIsAttestable` | benches/cigarbench/cigarbench.py:930-956 | a planned run is attested exactly when it is qualification evidence without identity collisions, under another valid key and an identifier, and the attested events can be written |
| `BenchPipeline.PlannedRunIsComparable` | benches/cigarbench/cigarbench.py:1127-1193 | `compare` accepts a planned run, attested or not, if and only if no identities collide, baselines report tokens, repetitions are in range, and there is no key or a valid one other than the seed that, for an attested run, signed it or gives every event the same code |
| `BenchPipeline.SuitableKeys` | benches/cigarbench/cigarbench.py:1184-1190 | these are exactly the keys under which a planned run is not refused |
| `BenchPipeline.RunBenchmark` | benches/cigarbench/cigarbench.py:1127-1245 | plan, execution, attestation and comparison in turn report exactly on ready jobs, as attested under the identity they were signed with, without a missing attestation or unbalanced orders among the reasons; under the version 1 rules a pass is reported only on at least 1,323 datasets and at most 18 replicates |
| `BenchPipeline.SeparatedDoNotCollide` | benches/cigarbench/cigarbench.py:464-467 | a digest that separates the events of a run gives them distinct identities |
| `BenchScale.PassNeedsProtectedTasks` | benches/cigarbench/cigarbench.py:53-64 | under the version 1 inventories a pass needs 381 tasks in each of the three protected strata and 30 in each of the others |
| `BenchScale.TasksAreDatasets` | benches/cigarbench/cigarbench.py:1090-1098 | a stratum of an accepted stream has at most as many tasks as the manifest lists datasets in it |
| `BenchScale.SeededCount` | benches/cigarbench/cigarbench.py:1034-1041 | a seeded plan has two assignments for every dataset and replicate |
| `BenchScale.PassNeedsDatasets` | benches/cigarbench/cigarbench.py:1157-1245 | whatever was executed, a pass reported under the version 1 rules means 381 datasets in each protected stratum and 30 in each of the others, so at least 1,323, and at most 18 replicates |
| `BenchRuns.CheckManifest` | benches/cigarbench/cigarbench.py:1088-1100 | the loop accepts exactly when every assignment carries its dataset's task and stratum and a declared baseline |
| `BenchRuns.BaselinesFillSlots` | benches/cigarbench/cigarbench.py:1034-1041 | the baseline events of an accepted stream fill every slot of the manifest exactly once |
| `BenchRuns.AcceptedIsCounterbalanced` | benches/cigarbench/cigarbench.py:1162-1169 | in every stratum of an accepted stream first places exceed second places by zero or one |
| `BenchRuns.ChecksImplyAccepted` | benches/cigarbench/cigarbench.py:1134-1146 | the checks made before a comparison leave a seeded plan carried out once per assignment |
| `BenchAttestation.CheckBundle` | benches/cigarbench/cigarbench.py:1055-1101 | the bundle is accepted exactly when the plan is valid, bound to the files, made from the manifest and uses declared comparators |
| `BenchAttestation.OpenSeed` | benches/cigarbench/cigarbench.py:1139-1144 | a seed opens a plan exactly when it has the committed digest and its orders reproduce |
| `BenchAttestation.AttestEvents` | benches/cigarbench/cigarbench.py:930-956 | events are attested exactly when bundle, binding, seed, evidence class, key, identity and size are in order, and then each is signed in place |
| `BenchAttestation.SigningSigns` | benches/cigarbench/cigarbench.py:947-954 | attesting signs every event and changes nothing else |
| `BenchAttestation.VerifyAttestations` | benches/cigarbench/cigarbench.py:959-978 | the first event without a genuine attestation decides between unattested and refused; otherwise all must name one key |
| `BenchAttestation.AttestedExactly` | benches/cigarbench/cigarbench.py:959-978 | attested under an identity exactly when there are events and all of them are signed under it |
| `BenchAttestation.AttestedVerifies` | benches/cigarbench/cigarbench.py:930-978 | what is attested under a key and an identity verifies under that key with that identity |
| `BenchAttestation.SignedIsRefused` | benches/cigarbench/cigarbench.py:930-978 | attested events are refused exactly under a key that is no secret or gives some event another code |
| `Wilson.RoundKeepsWhole` | benches/cigarbench/cigarbench.py:627-628 | rounding to six places never crosses a whole number |
| `Wilson.ContainsRate` | benches/cigarbench/cigarbench.py:647-664 | before rounding the interval contains the observed rate and stays in [0, 1] |
| `Wilson.UpperAtLeast` | benches/cigarbench/cigarbench.py:647-664 | the upper end is at least z^2 / (n + z^2) whatever was observed |
| `Wilson.BelowOnePercentNeedsTasks` | benches/cigarbench/cigarbench.py:647-664 | a rounded upper end below one percent needs 381 observations |
| `Wilson.TightAt381` | benches/cigarbench/cigarbench.py:647-664 | 381 observations without harm are enough |
| `BenchDecision.HarmClusters` | benches/cigarbench/cigarbench.py:710-719 | the number of distinct tasks and of those harmed in any repetition |
| `BenchDecision.TasksFacts` | benches/cigarbench/cigarbench.py:710-715 | every task of the sample is listed once |
| `BenchDecision.WilsonNeedsManyTasks` | benches/cigarbench/cigarbench.py:790-797 | as the harm interval is a Wilson interval over task clusters, an upper end below one percent needs 381 of them |
| `BenchDecision.InsufficientIffReasons` | benches/cigarbench/cigarbench.py:1183-1245 | the decision is insufficient evidence exactly when there is an eligibility reason |
| `BenchDecision.PassNeedsTasks` | benches/cigarbench/cigarbench.py:1209-1245 | a pass needs at least 381 distinct tasks in every protected stratum |
| `BenchDecision.BalanceIsNeverTheReason` | benches/cigarbench/cigarbench.py:1203-1204 | past validation, seed verification, binding and pairing the order-balance reason is unreachable |
| `BenchCompare.CheckStrata` | benches/cigarbench/cigarbench.py:1157-1178 | the loops over strata decide pair counts, task counts and balance |
| `BenchCompare.Admit` | benches/cigarbench/cigarbench.py:1127-1193 | the refusals of `compare`: repetitions, bundle, loading, binding, pairing, seed, commitment, pooling, tokens and attestations, exactly |
| `BenchCompare.Compare` | benches/cigarbench/cigarbench.py:1127-1245 | a report exactly for comparable runs, holding the specified reasons and decision over the pairs of the stream |
| `Percentiles.PercentileInRange` | benches/cigarbench/cigarbench.py:545-555 | a percentile lies between two members of the sample |
| `Percentiles.PercentileMonotone` | benches/cigarbench/cigarbench.py:545-555 | a percentile is monotone in the probability |
| `Percentiles.PercentileForgetsListing` | benches/cigarbench/cigarbench.py:548 | a percentile does not depend on the order of the sample |
| `BenchBootstrap.BuildGroups` | benches/cigarbench/cigarbench.py:595-616 | the nested dictionaries, read in sorted order, are the strata with their task clusters |
| `BenchBootstrap.BootstrapInterval` | benches/cigarbench/cigarbench.py:589-624 | an interval exists exactly when every stratum has two tasks and enough resamples have a finite value; its ordered ends are the percentiles of the values of the consecutive resamples |
| `BenchBootstrap.StratumClusters` | benches/cigarbench/cigarbench.py:595-602 | the clusters of a stratum are its distinct tasks and together hold its pairs once |
| `BenchBootstrap.ResampleIsStratified` | benches/cigarbench/cigarbench.py:603-618 | every resample holds as many whole clusters of each stratum as the sample has tasks there |
| `BenchBootstrap.StrataAreDistinct` | benches/cigarbench/cigarbench.py:612 | the strata a bootstrap goes through are distinct |
| `CanaryScan.NewOccurrence` | benches/cigarbench/cigarbench.py:2128-2133 | an occurrence in the text so far is an old one or lies in the tail and the new chunk |
| `CanaryScan.ScanFile` | benches/cigarbench/cigarbench.py:2126-2133 | the chunk loop detects a needle exactly when one occurs in the whole file |
| `CanaryScan.ScanTree` | demos/run.py:460-478 | clean exactly when the total size is within the bound and no file contains a needle |
| `BoundedCapture.ReadState` | tools/qualification_evidence.py:385-403 | the first mebibyte is kept and overflow means exactly that more arrived |
| `BoundedCapture.CaptureLog` | tools/qualification_evidence.py:473-514 | the log is the output, or its longest fitting prefix and the marker at exactly 64 MiB, and the digest has absorbed exactly the log |
| `Calibration.Summarize` | benches/answer-quality/metrics.py:98-130 | the loops compute the bins, the Brier score and the calibration error |
| `Calibration.CalibratedInUnit` | benches/answer-quality/metrics.py:60-62 | validated confidences put every calibrated claim in the unit interval |
| `Calibration.BinsPartition` | benches/answer-quality/metrics.py:99-104 | every calibrated claim is counted in exactly one of the ten bins |
| `Calibration.GapIsSummedError` | benches/answer-quality/metrics.py:102-130 | a bin's weighted gap is the absolute value of its summed errors |
| `Calibration.EceWithinBrier` | benches/answer-quality/metrics.py:129-130 | the calibration error squared is at most the Brier score |
| `Fairness.Lagrange` | benchmarks/broker_load.py:497-501 | n times the sum of squares exceeds the squared total by the sum of squared pair differences |
| `Fairness.JainBounds` | benchmarks/broker_load.py:497-501 | Jain's index lies in [1/n, 1] and is 1 exactly when all counts agree |
| `Fairness.JainAtLeast` | benchmarks/broker_load.py:496-501 | the index is at least 4r / (1 + r)^2 for the reported min/max ratio r |
| `Fairness.RatioGateImpliesJainGate` | benchmarks/broker_load.py:507-511 | a ratio of at least 0.8 implies an index of at least 0.95, the two registered gates |

## Left out

- The broker, compiler, effect and store crates, and the phase methods of `Soak` that call into them: their source is not part of this model.
- Process launching, sockets, threads, sandboxing, file permissions, Git inspection, memory sampling and temporary directories: input and output only.
- SHA-256, HMAC, Unicode normalisation, base64, JSON text and regular expressions are parameters or already decoded values.
- Field-by-field record validation (exact keys, JSON types, multihash patterns, metrics, captured conditions, receipts): the model's types carry well-formed values; it would only add easy members.
- Event identities: an event's identity is the digest of its other fields and is not a field of its own; on loading only their distinctness is modelled, as a digest that does not match its own event cannot occur.
- The estimators other than harm (token reduction, success, cost, recall, precision, stale harm) enter the gates as arbitrary interval ends.
- Floating-point rounding inside the statistics is not modelled; the rounding to six places is.
- The soak's sleeping and cadence: they only influence the clock, which is arbitrary.
- Reports, distributions, replayed reports and evidence publication of CIGARBench.
- Python's equality of `0` and `False` in a recorded request's JSON, and header spellings such as a padded zero length.
- Lone surrogates: text is a sequence of Unicode scalar values, so neither TypeScript strings that hold one nor the error that one raises when `deterministic_cbor` encodes a Python string as UTF-8 is modelled.
- TypeScript coercions of ill-typed schema keywords and prototype lookups; `deepFreeze` and `validateSemantic` in `create`.
- SchemaMeaning.RewriteKeepsMeaning: requires null alternatives that are neither references nor unions, and lists in tables of schemas that stay lists. The first fails at `SchemaMeaning.BareNullIsNeeded`, the second on the whole family of `SchemaMeaning.StaysListIsNeeded`; no converse is stated for the first, because whether a reference accepts a value depends on the value.
- SchemaCoercion.CoerceIsIdempotent: is stated for union-free schemas, because it is false with unions, as `SchemaUnions.UnionsAreNotIdempotent` shows; `SchemaAlternatives.UnionSettles` gives the exact condition for a union of union-free choices, and for unions inside unions none is stated.
- BenchEvents.Execute: the launching of the consumer, its timeout and the identity of the artifact's file are not modelled; a consumer that fails for any reason reports nothing.
- BenchSizes.MakePlan: the files it reads are already decoded, and the size limits on reading them are not modelled.
- Source text emission, argument parsing, demo installers, dashboards and the other benchmark drivers.
