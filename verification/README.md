# OpenClaw control plane: a verified model

A Dafny 4.11 model of the parts of the control plane whose correctness is not visible in
one function body: the live-update protocol and its waits, guarded source patching, the
injected gateway stop, the stream metadata collector, and the configuration and key
lifecycle of onboarding.  `dafny verify dfyconfig.toml` checks the whole project.

How the parts are modelled:

- **Live updates** (`Railway`, `Polling`, `Waits`, `LiveUpdate`, `LiveUpdateRuns`,
  `UpdateForm`, `ConcurrentUpdates`).  The program is a resumption: a state names the next call, the
  reply gives the next state.  `UpdateClientRefVariable` and `RotateGatewayToken` are the
  imperative functions; they run against a `Platform` that may answer anything at any
  time and are proved to follow the resumption.  All statements are then about every trace
  of calls and replies, and, for several updaters, about every interleaving of such traces
  over one variable, with writes that may or may not land and with changes by outsiders.
- **Provisioning** (`Provision`, `ProvisionRuns`, `ProvisionForm`).  The same platform and the same two
  waits; the run decides between reusing a service and creating one, and the statements
  are about which services any run touches and whose credentials it returns.
- **Patching** (`Patching`, `PatchScripts`, `Instrument`).  Text is a sequence of
  arbitrary elements and the blocks are parameters.  `Clash(a, b)` says that no text can
  hold `a` and `b` overlapping; it is what "no new block creates or breaks an old one,
  seams included" means.  Counting and replacing are the left-to-right scans of
  `split(block).length - 1` and `replace(block, () => new)`.
- **Stopping the gateway** (`StopGateway`).  A step is one turn of the event loop, so an
  exit event and the continuations it releases are one step; exits, timers, time and
  requests interleave freely.
- **Collector** (`Decimal`, `StreamMetadata`, `StreamReference`, `StreamCalm`,
  `StreamCollector`, `StreamCalls`, `StreamRecord`, `JsonText`).  A chunk is an arbitrary
  value whose property reads may throw; `ChunkOut` is what a chunk contributes before its
  first throw.  The class `Collector` updates its fields in place.
- **Configuration and keys** (`MergeEnv`, `AllowedOrigins`, `Onboarding`, `Channels`,
  `ApplyProfile`, `ApplyProfileRuns`, `ApplyProfileForm`, `RegressionCheck`,
  `ClientCli`).  `applyProfile` is a resumption like the live update; the config document
  is a JSON tree; the argument parsers share one loop over a table of flags.

The `Form` modules and `Waits` say of each protocol, without its step function, which
traces its finished runs are: the waits in both directions, the protocols built on them as
what every finished run looks like.

Three things the code does that its comments do not say:

- `mergeEnv` is not idempotent on every text: a kept line that ends in a carriage return
  which the line break does not take along (`"a\r\r\n"`) loses it on the next merge.
  `IdempotentExactly` gives the exact condition and `StrayReturnIsStripped` such an input.
- Looking up a secret named like an inherited object property (`"constructor"`) finds
  something although no such variable exists, so applying does not mint for it, while the
  dry run reports it absent.  `InheritedNameIsOverlooked` exhibits a run on that
  input, and `AbsentMeansMintedExactly` gives the exact condition under which "reported
  absent" means "minted".
- A key may be minted and written before the channels are rejected.
  `RejectedAfterMintExactly` gives the exact condition on profile and variables.

## Model

| member | source | states |
|---|---|---|
| Polling.PollYieldsFirstDecisive | packages/openclaw-railway-installer/src/index.ts:365-409 | over every trace, a finished wait yields exactly the first answer that decides anything and ends without one only by timeout or a failing call |
| Polling.StaleAnswersAreSkipped | packages/openclaw-railway-installer/src/index.ts:378-405 | with a guard id, any number of answers showing the old deployment, or one without an id, in whatever state, is skipped, so a client in a terminal state can be recovered |
| Polling.PollObservationBound | packages/openclaw-railway-installer/src/index.ts:365-409 | at most max(1, ceil(timeout / period)) answers are read on any clock on which a sleep takes at least its length |
| Polling.PollServiceUntilSuccess | packages/openclaw-railway-installer/src/index.ts:348-410 | the loop terminates, follows the wait, returns the first decisive answer and keeps the bound |
| Polling.VerdictExactly | packages/openclaw-railway-installer/src/index.ts:368-406 | an answer decides if and only if the first service of the name is in SUCCESS or a terminal failure and, under a guard, carries an identified other deployment; and what it decides |
| Polling.Observe | packages/openclaw-railway-installer/src/index.ts:368-406 | the branches over one answer take that decision |
| Polling.TimesOutOnlyLate | packages/openclaw-railway-installer/src/index.ts:365-409 | a wait gives up only when a clock reading shows the whole timeout to have passed since the first one |
| Polling.ReadyCheckBound | packages/openclaw-railway-installer/src/index.ts:500-521 | the readiness wait asks at most max(1, ceil(timeout / period)) times |
| Polling.ReadyMeansAuthenticated | packages/openclaw-railway-installer/src/provision-client.ts:404-460 | the readiness check succeeds only on a 200 to a request made with the service's own nonempty password at its own domain |
| Polling.WaitForSetupReady | packages/openclaw-railway-installer/src/index.ts:500-521 | the loop terminates and follows the readiness wait: success on the first 200, failure on a throw or at the deadline |
| Polling.AssertInstanceReady | packages/openclaw-railway-installer/src/provision-client.ts:404-460 | password, domain, authenticated 200, in this order, for every behaviour of the platform |
| Waits.PollExactly | packages/openclaw-railway-installer/src/index.ts:365-409 | the deployment wait is exactly a set of traces: clock, then sleep, list, clock over and over, and the first event that ends it, told by its position and its answer alone, is the last one |
| Waits.ReadyExactly | packages/openclaw-railway-installer/src/index.ts:507-520 | the same for the readiness wait: a request that throws, a 200, or a clock reading at or past the timeout end it, and nothing else does, so any other answer is asked again |
| Waits.ConfirmExactly | packages/openclaw-railway-installer/src/provision-client.ts:404-460 | the whole readiness check, both ways: a nonempty password, a domain, then that wait with them |
| Waits.GivesUpOnlyLate | packages/openclaw-railway-installer/src/index.ts:507-520 | the check fails only for want of a password or a domain, on a request that throws, or with the whole timeout gone by |
| Waits.PickDomainExactly | packages/openclaw-railway-installer/src/index.ts:437-438 | the domain used is the first of kind "service", wherever it stands, else the first listed |
| Waits.PriorIdExactly | packages/openclaw-railway-installer/src/provision-client.ts:547-549 | the prior id is that of the latest deployment of the first service of the name |
| Waits.StatusesExactly | packages/openclaw-railway-installer/src/index.ts:52-60 | a status is a terminal failure if and only if it is neither SUCCESS nor one of the six on the way |
| LiveUpdate.UpdateClientRefVariable | packages/openclaw-railway-installer/src/provision-client.ts:462-641 | whatever the platform answers, the calls made and the result are those of the protocol |
| LiveUpdate.RotateGatewayToken | packages/openclaw-railway-installer/src/provision-client.ts:768-853 | the same for the rotation, which needs an existing token and compares nothing |
| LiveUpdate.CommitAndVerify | packages/openclaw-railway-installer/src/provision-client.ts:540-640 | from the capture of the prior id on: refusal, uncertain write, or the tail |
| LiveUpdate.VerifyDeployed | packages/openclaw-railway-installer/src/provision-client.ts:579-638 | after the redeploy call every error is an unconfirmed update or a failed verification |
| LiveUpdate.PollInside | packages/openclaw-railway-installer/src/provision-client.ts:583-589 | a finished poll inside a run takes the run to the readiness check or to an unconfirmed update |
| LiveUpdate.ReadyInside | packages/openclaw-railway-installer/src/provision-client.ts:591 | the same for the readiness check, on both paths that use it |
| LiveUpdateRuns.HistoryHolds | packages/openclaw-railway-installer/src/provision-client.ts:476-640 | the invariant over all runs: what has been read, written, redeployed and observed at every point |
| LiveUpdateRuns.SuccessEvidence | packages/openclaw-railway-installer/src/provision-client.ts:476-640 | success implies, in order, a read matching the declared belief, the prior id, one write, one redeploy, an identified different deployment in SUCCESS, a 200 answer to a request made with the nonempty password and at the domain the service itself gave, in this order, and a read-back of the requested value; nothing else in the run changes anything |
| LiveUpdateRuns.OutcomeClasses | packages/openclaw-railway-installer/src/provision-client.ts:486-638 | the error classes are sound and complete: change, uncertain write, unconfirmed update and failed verification are each characterised, both ways, by what the trace shows, and the rest is the absence of any change |
| LiveUpdateRuns.OnlyTheGivenService | packages/openclaw-railway-installer/src/provision-client.ts:476-640 | at every point of every run, however it ends, the only calls that change a service are the one write of the requested value and one redeploy behind it once the write returned, both of the given service |
| LiveUpdateRuns.NoChangeClasses | packages/openclaw-railway-installer/src/provision-client.ts:486-556 | the four outcomes without a change, each both ways: aborted by a failed first or second call, refused on a mismatch or without a prior id, in place and answered 200, in place and not answered |
| LiveUpdateRuns.NoOpNeverRedeploys | packages/openclaw-railway-installer/src/provision-client.ts:508-532 | an unforced update of a value already in place makes no mutating call, however the run goes |
| UpdateForm.RunHasTheForm | packages/openclaw-railway-installer/src/provision-client.ts:476-640 | every finished update or rotation is a trace of the closed form: which call stands at which position, on what was read each branch depends, and which outcome each ending has |
| UpdateForm.WhenItGoesOn | packages/openclaw-railway-installer/src/provision-client.ts:486-538 | at every point of every run: it goes on to write and redeploy if and only if the belief is right and the value is not in place or the redeploy is forced; it only asks the instance if and only if the belief is right and the unforced value is in place; it is refused on the spot if and only if the belief is wrong |
| UpdateForm.WhenItRotates | packages/openclaw-railway-installer/src/provision-client.ts:768-776 | a rotation goes on if and only if there is a value to rotate |
| UpdateForm.NotServingOnlyLate | packages/openclaw-railway-installer/src/provision-client.ts:526-530 | a value in place is reported as not serving only after a check that gave up in one of those four ways |
| UpdateForm.UnconfirmedOnlyLate | packages/openclaw-railway-installer/src/provision-client.ts:579-614 | an update is left unconfirmed only by a failed redeploy call, a poll that ended without the new deployment in SUCCESS, or a check behind it that gave up |
| ConcurrentUpdates.SuccessIsUndisturbed | packages/openclaw-railway-installer/src/provision-client.ts:358-367 | what the read-back detects: if nobody else writes the same value, success means no write landed between the own write and the read-back, and the value was live throughout |
| ConcurrentUpdates.SuccessesDoNotOverlap | packages/openclaw-railway-installer/src/provision-client.ts:358-367 | two successful updates with different targets: one had read back before the other wrote |
| ConcurrentUpdates.SuccessStays | packages/openclaw-railway-installer/src/provision-client.ts:358-367 | after a successful update that is not followed by another landing, the live value is its target |
| ConcurrentUpdates.LastWriterWins | packages/openclaw-railway-installer/src/provision-client.ts:358-371 | when every updater reports success and nobody else writes, the final value is the target of whichever wrote last, over all interleavings |
| ConcurrentUpdates.SuccessHasWindow | packages/openclaw-railway-installer/src/provision-client.ts:558-620 | a successful update has exactly one write, of its own target, and a later read-back that showed the live value |
| ConcurrentUpdates.ReplacedValue | packages/openclaw-railway-installer/src/provision-client.ts:354-367 | the value a success replaced is the declared one if and only if the last landing between its first read and its write, if there is any, wrote the declared value |
| ConcurrentUpdates.NotAnAtomicCompareAndSwap | packages/openclaw-railway-installer/src/provision-client.ts:358-367 | a run in which both updaters read what they declared before either wrote, then both writes landed and the later writer reports success; the value it overwrote is the other's target, not its declared one, and none of its reads ever showed it |
| Provision.ProvisionClientInstance | packages/openclaw-railway-installer/src/provision-client.ts:140-248 | whatever the platform answers, the calls made and the result are those of the provisioning protocol, up to the authenticated answer |
| Provision.WriteEntries | packages/openclaw-railway-installer/src/provision-client.ts:193-203 | the loop of variable writes: all entries in order, or stopped at the first write that fails |
| Provision.EnsureDomainPort | packages/openclaw-railway-installer/src/index.ts:432-475 | a domain is made only when none is listed and its port changed only when it differs |
| ProvisionRuns.DiffFindsTheNewOne | packages/openclaw-railway-installer/src/provision-client.ts:179-185 | the id diff with the sole-service check picks a service if and only if it is the one listed service whose id was not there before |
| ProvisionRuns.HistoryHolds | packages/openclaw-railway-installer/src/provision-client.ts:140-248 | the invariant over all provisioning runs: what has been created, written, built, read and changed at every point |
| ProvisionRuns.WhatIsTouched | packages/openclaw-railway-installer/src/provision-client.ts:155-207 | in every run, however it ends, variables, redeploys and links name only a service this run created, and domains only that one or the healthy one being reused |
| ProvisionRuns.ReusedIsLeftAlone | packages/openclaw-railway-installer/src/provision-client.ts:161-170 | a sole healthy service that is not to be replaced is never written, redeployed or duplicated, and the credentials returned are its own |
| ProvisionRuns.FreshEvidence | packages/openclaw-railway-installer/src/provision-client.ts:171-207 | a new client: every variable written exactly once, in order, before the one redeploy; the service seen in SUCCESS is the first of the created name, and the created one if the name is unique; credentials returned are the written ones and were answered 200 |
| ProvisionRuns.RerunKeepsCredentials | packages/openclaw-railway-installer/src/provision-client.ts:209-236 | a rerun that reuses the service returns the credentials of the first run, whatever secrets it was started with |
| ProvisionForm.RunHasTheForm | packages/openclaw-railway-installer/src/provision-client.ts:140-248 | every finished provisioning run is a trace of the closed form, part by part: when a service is created, configured, built or reused, when a domain is made and its port changed, and how each part can fail |
| ProvisionForm.WhenItCreates | packages/openclaw-railway-installer/src/provision-client.ts:155-172 | told from the first listing alone, at every point of every run: a service is created if and only if there is none or exactly one that may be replaced, one is reused if and only if it is the only one, healthy and not to be replaced, and everything else is an error on the spot |
| ProvisionRuns.EntriesExactly | packages/openclaw-railway-installer/src/provision-client.ts:193-200 | the six variables of a new service, each with its value, the port in decimal, and nothing else |
| Patching.LoopIsSimultaneous | scripts/patch-wrapper-restart-gateway.mjs:100-132 | when all guards pass on the original, the unchecked loop of first-occurrence replacements equals replacing all old blocks at once |
| Patching.AnyOrder | scripts/patch-wrapper-scoped-export.mjs:118-150 | in any order of the rules, each old block exactly once, everything outside the blocks kept |
| Patching.InterferenceGoesUnnoticed | scripts/patch-wrapper-restart-gateway.mjs:127-131 | without non-interference the guards can pass and the loop still go wrong |
| Patching.RunScript | scripts/patch-wrapper-restart-gateway.mjs:100-132 | a failed guard leaves the file untouched; otherwise the file becomes the result of the loop |
| Patching.GuardExactly | scripts/patch-wrapper-restart-gateway.mjs:104-116 | a guard passes if and only if the marker is nowhere in the text and the old block occurs, but not again behind its first occurrence |
| Patching.CountedOccurs | scripts/patch-wrapper-restart-gateway.mjs:107-116 | a positive split count means that the block occurs |
| Patching.OccurrenceCounts | scripts/patch-wrapper-restart-gateway.mjs:107-116 | an occurrence anywhere, overlapping others or not, makes the split count positive |
| Patching.ReplaceShape | scripts/patch-wrapper-restart-gateway.mjs:128-131 | the replaced occurrence is the first one and the rest of the text stays |
| Patching.CountKept | scripts/patch-wrapper-restart-gateway.mjs:127-131 | replacing one block leaves the count of a block that cannot overlap it or its replacement |
| PatchScripts.RefusesOwnOutput | scripts/patch-wrapper-restart-gateway.mjs:104-115 | a script's guards fail on its own output |
| PatchScripts.StillRefused | scripts/patch-wrapper-github-webhook.mjs:37-44 | a rerun is refused after any further replacements that cannot cut one of its markers |
| PatchScripts.WholeBuild | Dockerfile:180-286 | any number of scripts in any order: if the guards of each pass on the original text, every one succeeds in its turn, shared anchors included, and at the end a rerun of any is refused |
| PatchScripts.GuardKept | scripts/patch-wrapper-github-webhook.mjs:80-104 | one replacement of another script leaves a guard as it was: the marker cannot arise from it, and the anchor is untouched or put back exactly once |
| PatchScripts.SharedAnchor | scripts/patch-wrapper-github-webhook.mjs:31-45 | the later script's import lands directly behind the shared anchor, before the earlier one's |
| PatchScripts.SplitBlockIsGone | scripts/patch-wrapper-github-webhook.mjs:37-43 | a check keyed to the whole first block would no longer find it once the other script has run |
| Instrument.InstrumentationOnlyInserts | scripts/patch-openai-stream-metadata.mjs:14-43 | the regions are cut at the first occurrences of the three anchors; in the result every element comes from the source or from one insertion of the plan, those from the source are the source in its order, and those from the text before or after an anchor are that text, each exactly once; factory insertions lie in the factory region, processor insertions in the processor region, and only the import line may lie anywhere |
| Instrument.InstrumentedExactly | scripts/patch-openai-stream-metadata.mjs:14-43 | the source is instrumented if and only if the three anchors occur once each, in order, and every insertion finds its own anchor exactly once in its turn |
| Instrument.InstrumentSource | scripts/patch-openai-stream-metadata.mjs:14-43 | the step-by-step program computes the instrumented text or refuses; the result has that origin trace |
| StopGateway.NeverTwoGateways | scripts/patch-wrapper-restart-gateway.mjs:27-57 | over all interleavings at most one gateway is live, and it is the one in the slot |
| StopGateway.HowAStopEnds | scripts/patch-wrapper-restart-gateway.mjs:30-57 | of every stop, those that return at once included. A normal return: process exited or none in the slot, slot empty; a throw: process live and in the slot, after both grace periods; never longer than two of them |
| StopGateway.KillOnlyAfterGrace | scripts/patch-wrapper-restart-gateway.mjs:41-47 | SIGKILL only right after SIGTERM to the same process and a timed-out wait |
| StopGateway.KilledBeforeGivingUp | scripts/patch-wrapper-restart-gateway.mjs:41-55 | a stop in its second grace period, or that has thrown, has sent SIGTERM when called and SIGKILL 5 s later, as the last two signals |
| StopGateway.StopMakesProgress | scripts/patch-wrapper-restart-gateway.mjs:41-55 | a stop in flight can always run on to its timer |
| StopGateway.RestartsAfterStop | scripts/patch-wrapper-restart-gateway.mjs:67-82 | right after a stop that returned, the gateway can be started, and the new one is the only one live |
| StopGateway.LegacyRestart | scripts/patch-wrapper-restart-gateway.mjs:69-79 | the replaced flat sleep leaves two live gateways exactly when the old one outlives it |
| StopGateway.LegacyReachesTwoGateways | scripts/patch-wrapper-restart-gateway.mjs:69-79 | such a run |
| StreamReference.StreamCounters | scripts/openai-stream-metadata.ts:66-72 | after any stream, throwing chunks included: every counter is the saturated sum of its contributions, every chunk is counted, primary choices never exceed chunks |
| StreamMetadata.FirstIdentifiersWin | scripts/openai-stream-metadata.ts:93-95 | id and model of the record are the first valid ones of the stream |
| StreamReference.LastReportsWin | scripts/openai-stream-metadata.ts:96-108 | over any stream of chunks, throwing ones included: finish reason and usages are those of the last position whose reads got as far as giving one, and absent if no position did |
| StreamReference.SeenUsageStays | scripts/openai-stream-metadata.ts:96-108 | a usage is recorded as seen if and only if some chunk showed one to a read that was reached, even if reading it then threw |
| StreamReference.CountersMeetTheTable | scripts/openai-stream-metadata.ts:90-126 | against an independent table of what each chunk is due: no counter ever exceeds the capped total, and every counter equals it when no chunk throws |
| StreamReference.ChunkMeets | scripts/openai-stream-metadata.ts:90-126 | one chunk adds to each counter exactly what the table says, or at most that if it throws |
| StreamCalm.ThrowsOnlyCut | scripts/openai-stream-metadata.ts:90-126 | a throwing chunk contributes, in order, a prefix of what it would contribute if its throwing reads yielded undefined, and one that never throws contributes exactly that |
| StreamReference.LastReportsOfTheStream | scripts/openai-stream-metadata.ts:96-108 | when no chunk throws, finish reason and usages are those of the last position whose chunk carries one, and absent if none does |
| StreamReference.RecordedUsageShows | scripts/openai-stream-metadata.ts:21-28 | each number of the recorded usage is that of its own property in the last chunk that gave one |
| StreamReference.RecordedChoiceUsageShows | scripts/openai-stream-metadata.ts:105-108 | the same for the usage of the first choice |
| StreamReference.RecordedReasonShows | scripts/openai-stream-metadata.ts:15-20 | the recorded finish reason is the last one given, verbatim if it is one of the eight known texts and "other" if it is anything else present |
| StreamReference.UsageOfExactly | scripts/openai-stream-metadata.ts:21-28 | a usage is taken whole, or not at all if one of its five reads throws |
| StreamReference.ValuesExactly | scripts/openai-stream-metadata.ts:6-14 | which values count as an identifier, a number, a text, an array or as present |
| StreamMetadata.CountersSaturate | scripts/openai-stream-metadata.ts:66-72 | adding with a cap each time equals capping the sum |
| StreamCollector.Collector.Chunk | scripts/openai-stream-metadata.ts:90-126 | the in-place update equals the fold's step and always returns |
| StreamCollector.Collector.Finish | scripts/openai-stream-metadata.ts:130-137 | the flag is set first; a line is written only by the first call, with the summary as it stands |
| StreamCollector.Collector.TakeRequest | scripts/openai-stream-metadata.ts:77-89 | the properties are read one after another: if any of the seven reads throws nothing changes, otherwise the request holds what is kept of each of them |
| StreamCollector.Collector.Measure | scripts/openai-stream-metadata.ts:111-124 | all reads of a sum come before its one addition |
| StreamCollector.Collector.ToolArguments | scripts/openai-stream-metadata.ts:119-124 | tool entries are added one by one up to the first that throws |
| StreamCollector.AtMostOneWrite | scripts/openai-stream-metadata.ts:130-137 | over any sequence of calls at most one record, and one exactly when the first finish reads its output without a throw |
| StreamCollector.SummaryIsTheFold | scripts/openai-stream-metadata.ts:73-138 | whatever else is called, the summary is the fold over the chunks |
| StreamCalls.LastRequestWins | scripts/openai-stream-metadata.ts:77-89 | the request of the record is the last one that was taken |
| StreamCalls.LastBlocksWin | scripts/openai-stream-metadata.ts:127-129 | so are its blocks before normalization |
| StreamCalls.LastContextWins | scripts/openai-stream-metadata.ts:74-76 | its flag is that of the last context, taken or cleared; time and requested model never change |
| StreamCalls.TheLineWritten | scripts/openai-stream-metadata.ts:130-137 | the line written at the first finish is the record as the calls before it left it, with the blocks of that output; later calls write nothing |
| StreamCalls.BlocksOfExactly | scripts/openai-stream-metadata.ts:29-37 | the three counts are the numbers of blocks of each type; taken whole or not at all |
| StreamCalls.RequestOfExactly | scripts/openai-stream-metadata.ts:77-89 | a request is taken if and only if none of its seven reads throws, with what is kept of each |
| StreamRecord.LinesAreBounded | scripts/openai-stream-metadata.ts:130-137 | every line, escaped as JSON escapes it, is at most a fixed length, however long the stream and large its payloads |
| StreamRecord.RecordsStaySafe | scripts/openai-stream-metadata.ts:7-26 | over all call sequences every text of the record stays within its length and is made of characters that JSON prints as they are, and every number is a safe integer |
| StreamRecord.CountersShow | scripts/openai-stream-metadata.ts:43-64 | every counter is printed under its own name |
| StreamRecord.TextsShow | scripts/openai-stream-metadata.ts:43-64 | so is every text of the record, null where there is none |
| StreamRecord.ObjectsShow | scripts/openai-stream-metadata.ts:43-64 | and the request, both usages and both blocks |
| JsonText.ValueReadsBack | scripts/openai-stream-metadata.ts:130-137 | a JSON reader gives back the value that was printed, escapes included, and leaves what follows it |
| JsonText.LineReadsBack | scripts/openai-stream-metadata.ts:130-137 | every record's line reads back as the record it shows |
| Decimal.DigitsRoundTrip | packages/openclaw-railway-installer/src/client-cli.ts:305-317 | decimal notation denotes the number it was made from |
| MergeEnv.IdempotentExactly | packages/openclaw-railway-installer/src/index.ts:165-177 | merging twice equals merging once if and only if no kept line ends in a carriage return |
| MergeEnv.IdempotentOnCleanText | packages/openclaw-railway-installer/src/index.ts:165-177 | in particular where each carriage return is directly followed by a line feed |
| MergeEnv.StrayReturnIsStripped | packages/openclaw-railway-installer/src/index.ts:167-176 | an input on which the second merge differs |
| MergeEnv.ReadsBackOnce | packages/openclaw-railway-installer/src/index.ts:166-176 | every managed key is set by exactly one line of the result, to its new value, the last one's trailing white space gone |
| MergeEnv.UnmanagedLinesKept | packages/openclaw-railway-installer/src/index.ts:167-173 | unmanaged lines keep their content and order |
| MergeEnv.MergedLines | packages/openclaw-railway-installer/src/index.ts:175-176 | the lines of the result: the kept ones, the entries, an empty line |
| MergeEnv.ManagedExactly | packages/openclaw-railway-installer/src/index.ts:168-172 | a line is dropped if and only if it begins with the key of an entry and an equals sign |
| MergeEnv.UnmanagedExactly | packages/openclaw-railway-installer/src/index.ts:168-172 | every other line is kept, at the place its predecessors leave it, and nothing else is |
| MergeEnv.KeptExactly | packages/openclaw-railway-installer/src/index.ts:173-174 | but for one empty line at the very end |
| AllowedOrigins.PostChangesOneList | packages/openclaw-railway-installer/src/patch-allowed-origins.ts:95-113 | a posted document equals the one read on every path that does not lead to the list of origins; that list is the old one with the origin behind it, where it was not before; both documents have a baseline mode |
| AllowedOrigins.RunsPostSafely | packages/openclaw-railway-installer/src/patch-allowed-origins.ts:84-144 | against any endpoint: at most one post, only over a baseline, and "patched" means a later read showed the origin |
| AllowedOrigins.ResultsExactly | packages/openclaw-railway-installer/src/patch-allowed-origins.ts:84-144 | told from the document read alone, both ways: when a run finds the origin present, refuses, posts or fails |
| AllowedOrigins.PatchAllowedOrigins | packages/openclaw-railway-installer/src/patch-allowed-origins.ts:75-145 | every run is one of the described ones, whatever the endpoint answers |
| AllowedOrigins.LaterRunsPostNothing | packages/openclaw-railway-installer/src/patch-allowed-origins.ts:100-102 | on a faithful store no run after the first posts anything, however many there are, and after a run that patched they all report the origin present |
| Onboarding.BootstrapOnboardingCycle | packages/openclaw-setup-applier/src/onboarding-cycle.ts:88-152 | on a faithful store: at most one origin post in the whole cycle, only over a baseline; it returns if and only if the dry run and applying succeed on a config that is no primitive, and then the origin is in the list |
| Onboarding.CyclePostsAtMostOnce | packages/openclaw-setup-applier/src/onboarding-cycle.ts:118-129 | the same over the two attempts' traces, with the final status "patched" or "already present" |
| Channels.MapChannels | packages/openclaw-setup-applier/src/apply-profile.ts:145-195 | accepts exactly the lists of supported, distinct types with the right secret counts and fills pairwise different fields |
| Channels.FieldsAreDistinct | packages/openclaw-setup-applier/src/apply-profile.ts:145-195 | no two mappings of an accepted list fill the same field |
| Channels.MappingsExactly | packages/openclaw-setup-applier/src/apply-profile.ts:168-192 | a field gets a secret if and only if a channel of the list fills it so: slack the bot token with its first and the app token with its second, telegram and discord their own field with their only one |
| Channels.RepresentableExactly | packages/openclaw-setup-applier/src/apply-profile.ts:145-167 | only the three types, each at most once, slack with two secrets and the others with one |
| Channels.CollectRequiredSecretNames | packages/openclaw-setup-applier/src/apply-profile.ts:88-101 | each required name once and nothing else |
| Channels.DryRunApplyProfile | packages/openclaw-setup-applier/src/apply-profile.ts:63-117 | succeeds exactly on representable channels, reports presence of every required secret, previews the channel fields |
| ApplyProfile.ApplyProfile | packages/openclaw-setup-applier/src/apply-profile.ts:234-329 | whatever the services answer, the calls made and the result are those of the protocol |
| ApplyProfile.MintAndWrite | packages/openclaw-setup-applier/src/apply-profile.ts:343-385 | a mint is followed by the write of the minted key; either failure ends the run |
| ApplyProfile.WaitForHealthy | packages/openclaw-setup-applier/src/apply-profile.ts:400-428 | terminates; leads to the setup run only through an ok answer |
| ApplyProfileForm.RunHasTheForm | packages/openclaw-setup-applier/src/apply-profile.ts:234-329 | every finished run is a trace of the closed form, part by part: what it sends, on what it depends how it goes on, when the health wait ends, and how each part can fail |
| ApplyProfileForm.FieldsExactly | packages/openclaw-setup-applier/src/apply-profile.ts:274-297 | the payload has exactly the fields of its channels, each with what its secret's name denotes, and there is one if and only if every name denotes something |
| ApplyProfileRuns.AppliedExactly | packages/openclaw-setup-applier/src/apply-profile.ts:318-328 | a run reports applied if and only if the setup run returned and the status read last says configured, already configured if and only if the first status says so, and a returned setup run that ends otherwise is an error |
| ApplyProfileRuns.NoMintAfterLanding | packages/openclaw-setup-applier/src/apply-profile.ts:246-286 | over any number of runs, each stopped anywhere: once a write of the secret has landed and persists, nothing mints again |
| ApplyProfileRuns.ActsInOrder | packages/openclaw-setup-applier/src/apply-profile.ts:343-385 | a mint only for a secret a read of the same run showed absent, a write only after a mint, a setup run only if not configured |
| ApplyProfileRuns.SetupRunsOnce | packages/openclaw-setup-applier/src/apply-profile.ts:241-321 | at every point of every run, finished or stopped anywhere: at most one setup run, only on an unconfigured instance, after a redeploying write only after a healthy answer |
| ApplyProfileRuns.HealthCheckBound | packages/openclaw-setup-applier/src/apply-profile.ts:405-427 | at most ceil(timeout / period) + 1 health checks |
| ApplyProfileRuns.PayloadMatchesDryRun | packages/openclaw-setup-applier/src/apply-profile.ts:103-117 | if a run sends a payload, however it goes on, the dry run succeeds and previews the same channel fields |
| ApplyProfileRuns.AllPresentMintsNothing | packages/openclaw-setup-applier/src/apply-profile.ts:72-75 | if the variables a run reads hold every required secret, it mints nothing |
| ApplyProfileRuns.MintsExactly | packages/openclaw-setup-applier/src/apply-profile.ts:343-375 | past the listing the next call is a mint if and only if managed keys are asked for and the secret's name is neither a listed variable nor an inherited property; a run mints nowhere else |
| ApplyProfileRuns.AbsentMeansMintedExactly | packages/openclaw-setup-applier/src/apply-profile.ts:72-75 | a run past the listing, over variables for which the dry run reports a managed secret absent, mints it if and only if its name is not an inherited property, and otherwise mints nothing |
| ApplyProfileRuns.InheritedNameIsOverlooked | packages/openclaw-setup-applier/src/apply-profile.ts:354-357 | the case "constructor": reported absent, and applied without a mint |
| ApplyProfileRuns.MintsBeforeRejectingChannels | packages/openclaw-setup-applier/src/apply-profile.ts:274-297 | a run that mints a key and only then rejects the channels |
| ApplyProfileRuns.RejectedAfterMintExactly | packages/openclaw-setup-applier/src/apply-profile.ts:274-297 | a run whose minted key was written ends right there, with an error, if and only if the channels cannot be mapped with the variables it read |
| RegressionCheck.RunRegressionCheck | packages/openclaw-setup-applier/src/onboarding-cycle.ts:202-299 | the minted key is written under the profile's name; once a key is minted there is one deletion attempt, last; a live key goes unreported exactly when a mint landed and its answer was lost; the result shows what status and health answered, and passed exactly when write, status, health and deletion all succeeded |
| RegressionCheck.Verify | packages/openclaw-setup-applier/src/onboarding-cycle.ts:241-268 | write, status, health, as far as they get; passes exactly on a write, configured status and 200; reports what was answered |
| ClientCli.ParseArgs | packages/openclaw-railway-installer/src/client-cli.ts:90-152 | succeeds exactly on the argument lists that are well-formed groups with the required options set, with the record they mean |
| ClientCli.ParseProvisionArgs | packages/openclaw-railway-installer/src/client-cli.ts:90-152 | the same with this parser's flags |
| ClientCli.ParseUpdateRefArgs | packages/openclaw-railway-installer/src/client-cli.ts:154-207 | the same with this parser's flags |
| ClientCli.ParseUpdateOpenClawRefArgs | packages/openclaw-railway-installer/src/client-cli.ts:209-262 | the same with this parser's flags |
| ClientCli.ParseRotateGatewayTokenArgs | packages/openclaw-railway-installer/src/client-cli.ts:264-296 | the same with this parser's flags |
| ClientCli.ParsePrinted | packages/openclaw-railway-installer/src/client-cli.ts:90-152 | parsing the printed flags of any record, in any order, gives that record and no other |
| ClientCli.OrderDoesNotMatter | packages/openclaw-railway-installer/src/client-cli.ts:92-145 | permuting groups of different flags does not change the result |
| ClientCli.OneReading | packages/openclaw-railway-installer/src/client-cli.ts:92-145 | an argument list has only one reading as groups |
| ClientCli.NoFlagIsTakenAsValue | packages/openclaw-railway-installer/src/client-cli.ts:298-303 | in a list that parses, whatever begins with two dashes, or is empty, is a flag and never a value |
| ClientCli.LastGroupWins | packages/openclaw-railway-installer/src/client-cli.ts:92-145 | where a flag is given more than once the last one counts |
| ClientCli.IntegerFlagExactly | packages/openclaw-railway-installer/src/client-cli.ts:298-317 | integer flags accept exactly the digit strings that denote 1 to 2^53 - 1 |

## Left out

- The upstream wrapper (`ensureGatewayRunning`, its routes) is not part of this model; spawning is one step that happens only on an empty slot.
- Several stops in flight at once: the wrapper code that would decide how they meet is not part of this model.
- Timers in `StopGateway` fire when due; a busy event loop would fire them later.
- The concrete text of the patch blocks: `Apart`, `Marked`, `Compatible` and `Lasting` are hypotheses about the literals, which are not embedded.
- The order of the continuations inside one turn of the event loop: `StopGateway` takes an exit event and everything it releases as one step.
- `wrapper-state-export.mjs` and `wrapper-github-webhook-verify.mjs`: not part of this model.
- UpdateForm.RunHasTheForm, ProvisionForm.RunHasTheForm, ApplyProfileForm.RunHasTheForm: every finished run has the closed form; the converse is stated for the waits only.
- Process spawning, HTTP, tar, the file system, Docker, the Railway CLI and randomness: replaced by objects that may answer anything; a fresh secret is a parameter.
- JSON text other than the collector's line, zod schemas, SHA-256 and the regex engine: values, datatypes and character predicates instead; the order of keys in a JSON object is not modelled.
- Numbers that JSON text can hold and a parse followed by a print changes (`1e400` comes back as `null`): the frame of `AllowedOrigins` is about parsed values.
- `$` sequences in the replacement strings of `replaceOnce`: the plan's strings hold none, so a replacement is inserted as it is.
- Error messages and handoff texts: only the classes of errors.
- Property getters that answer differently on each read: a property either always yields one value or always throws.
- The non-secret provider fields of the setup payload (`authChoice`, `flow`, `customProviderApiKeyEnv`): copied from the profile unchanged.
- Poll periods of zero seconds: the command line allows only positive ones, and with zero the loops need not end.
- `installOpenClawOnRailway`, and `provisionClientInstance` after the authenticated answer (origins, device approval, local files): sequences of the parts modelled here.
- Provision.ProvisionClientInstance: the fresh build is polled without a deployment to tell it from, so any SUCCESS of the created name ends the wait, as in the code; the template lock that supplies the default ref is a parameter.
- `verify-proof`, `verify-deploy`, `template-lock`, `guard-cli`, `approve-own-device`, the vending worker: flat checks and short branches.
- ConcurrentUpdates.SuccessIsUndisturbed: a write lands during its call or never; a write accepted now and applied after a later one is not modelled.
- Onboarding.BootstrapOnboardingCycle: provisioning, the dry run and applying the profile appear only through what they do to the config store.
