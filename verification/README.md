# A verified model of the LeanEvolve core

LeanEvolve records what an automated mathematics campaign does in an
append-only ledger, runs Lean checks through a durable queue built on that
ledger, edits Lean candidates under strict rules, and explains afterwards which
path led where.  This project models that core in Dafny and proves what the
code promises about it.

`dafny verify dfyconfig.toml` checks everything.

## The parts

- **Ledger** (`Vocabulary`, `StandardVocabulary`, `Events`, `Store`,
  `Sessions`, `Integrity`, `Rerun`, `Replay`, `EdgeReplay`, `Scenarios`).  `Store`
  says on values what each operation of a write session does to the event log
  and the tables; `Sessions` is the mutable ledger and its session, each method
  proved to do that; `Integrity` is the
  independent verifier, each check exact about what it reports, and the proof
  that no run of sessions gives it anything to report.  `Rerun` proves that
  crashing and rerunning a script is exactly-once, `Replay` and `EdgeReplay`
  which tables the event log explains and when.  `Scenarios` holds short
  histories that reach the cases the exact conditions single out.
- **Derived state** (`Derive`, `Readings`, `TimeTravel`, `Projection`).  Status is
  never stored.  `Derive` replays it, `Readings` says each dimension by the actions
  that decide it, `TimeTravel` proves when replaying to a past event is right,
  `Projection` compares the second, separately written reading.
- **Queue** (`Queue`, `QueueRuns`, `QueueService`, `Submission`, `Backpressure`,
  `Invalidation`, `Confluence`, `Worker`).  The job automaton over every
  interleaving, the queue object and the worker that drives it, the limit on
  queued jobs under concurrent submitters, and the withdrawal of checks.
  `Admission`, `Completion` and `Corrections` say on the tables before and after
  what a submission, a completion and a withdrawal leave behind, by way of
  `Blocks`, which reads that off any committed block of calls.
- **Lean sources** (`UnifiedDiff`, `PatchApplier`, `PatchText`, `Checkpoint`,
  `Assembler`, `LeanLexer`, `Lexemes`, `Signatures`).  The strict patch applier
  against a denotation of patches as edit scripts, append-only extension and checkpoint merging, the
  depth-first module flattener, and two lexers that must agree: `Lexemes` gives
  scrubbing a grammar and `Signatures` the declaration scanner a nesting count.
- **Walks and the second chain** (`Routes`, `Relevance`, `Neighborhood`,
  `Lineage`, `Observability`, with `Ordering` for sorted names and `Blanks` for
  stripping).

The digest is an arbitrary function throughout: where the argument needs that
two contents do not share a digest, the theorem offers the colliding pair, or
names the contents whose digests it takes to differ.  The vocabulary is passed
as a parameter with the few facts the proofs need; `StandardVocabulary` holds
the version-1 tables and proves those facts of them.

## What the proofs found

Where code and documentation differ, the model follows the code.

- Scrubbing is documented to keep the line structure.  A backslash before a
  newline inside a string loses that newline.  `LeanLexer.LinesPreservedExactly`
  gives the exact condition.
- The history is documented to be complete.  `record` also accepts the action
  of an operation nobody performed, as the loader of the golden scenarios does
  (`Scenarios.LoadedScenarioIsUnexplained`).  Aliases, locations and objects are
  what the log says at every moment of a run if and only if no event recorded by
  hand tells something new (`Replay.EveryRunIsExplained`); for each action
  `Replay.RecordIsExplained` and `EdgeReplay.RecordIsExplainedByEdges` say when
  that is.  A retraction's
  event names the source of the edge and not the edge, so the connections are
  rebuilt after a retraction if and only if the edge was the only active one of
  its source (`EdgeReplay.RetractionIsExplained`,
  `EdgeReplay.RetractionIsAmbiguous`; `Scenarios.SameLogDifferentEdges` is an
  input).  A creation's event does not carry the content
  (`Replay.ContentIsNotLogged`).
- Replaying truth and encoding to an earlier event misses edges that were
  retracted later, because the default edge query drops retracted rows
  (`Scenarios.RetractedRefuterIsLost`, `Scenarios.RetractedEncodingIsLost`).
  `TimeTravel.TruthReplaysExactly` and `TimeTravel.EncodingReplaysExactly` say
  exactly when the replay is right; verification, lifecycle, operational state
  and source evidence always are (`TimeTravel.EventDimensionsReplay`).
- Write sessions can leave a ledger the verifier rejects in one way only:
  creating an artifact directly, under an id that does not end in its digest
  (`Integrity.HonestyIsExact`, `Scenarios.FalseArtifactCommits`).
- A correction event with replacement content can never pass the version-1
  payload validation (`Projection.StandardHasCorrectionContract`), so on
  verified ledgers the packet's correction overlay never applies
  (`Projection.CleanLedgersAreUncorrected`).
- The tolerated start insertion of the patch applier is exactly what keeps an
  accepted patch from being reversible (`UnifiedDiff.PatchesReverse`,
  `UnifiedDiff.StartInsertionDoesNotReverse`).  On texts there is one more way:
  inserting after a last line without newline glues two lines
  (`PatchText.UnterminatedLinesGlue`, exactly: `PatchText.TextPatchReverses`).
- An append whose snippet itself brings a sentinel line is accepted but is not
  an append-only extension (`Checkpoint.AppendIsExtension`,
  `Checkpoint.SentinelAppendIsNoExtension`); materializing a checkpoint with a
  sentinel outside its block gives a file nothing can be appended to
  (`Checkpoint.MaterializedHasOneSentinel`,
  `Checkpoint.OutsideSentinelBlocksAppends`).
- The queue limit is checked outside the submitting transaction.  With `k`
  concurrent submitters the queue can hold `limit + k - 1` jobs and no more
  (`Backpressure.QueueIsBounded`); `Backpressure.LimitIsOverrunFromEmpty` is a
  run from the empty ledger that ends there.
- The judgement of a focus looks at one route only: among the shortest the one
  with the earliest recorded links.  The focus is accepted if and only if that
  route is fully proved (`Relevance.RelevanceVerdict`), so a proved longer one
  does not help (`Relevance.ProvedDetourIsRefused`).
- A job id digests the parts of a request joined by NUL.  One id means one
  content up to a collision when the checkpoint, the environment and the class
  hold no NUL (`Admission.OneIdOneContent`); otherwise a border can move
  (`Admission.NulMovesTheBorder`).
- The cycle report of the lineage walk is reachable only after an unresolved
  parent was reported (`Lineage.CompleteLineage`, `Lineage.LaterParentsCycle`).

## Model

| member | source | states |
|---|---|---|
| `StandardVocabulary.StandardMeetsTruthContract` | src/leanevolve/ledger/vocabulary.py:485-1068 | the version-1 actor, event, kind and relation tables meet the contract every truth invariant rests on |
| `Vocabulary.RefutationCarriesKernelTrust` | src/leanevolve/ledger/vocabulary.py:1120-1163 | no connection that passes validation is a refutation with less than kernel trust |
| `Events.HeadDeterminesHistory` | src/leanevolve/ledger/integrity.py:142-179 | two valid nonempty chains with one head hash hold the same event cores and hashes, or exhibit a collision |
| `Events.RewriteIsVisible` | src/leanevolve/ledger/events.py:96-124 | any other history in the place of a valid one, of the same length or not, the empty one included, breaks the chain, has another head, or exhibits a collision or a core that hashes to the genesis head |
| `Sessions.Ledger.Write` | src/leanevolve/ledger/store.py:538-571 | one block commits all its calls or leaves every table as it was, and says which |
| `Sessions.WriteSession.constructor` | src/leanevolve/ledger/store.py:139-152 | a fresh session's cursor stands at the head of the log |
| `Sessions.WriteSession.Record` | src/leanevolve/ledger/store.py:154-195 | accepted exactly when the key is known or the tables permit the actor, subject, payload and evidence; a known key returns the old event; otherwise one linked event is appended whose campaign, epoch, turn and actor are the session's, whose action, subject, payload and evidence are the draft's, and whose time is the draft's or the clock's |
| `Sessions.WriteSession.CreateObject` | src/leanevolve/ledger/store.py:199-273 | only what the vocabulary allows is created; identical re-creation is a no-op, a different identity under a taken id is the conflict error (if and only if), and the returned row has the name, kind, format, content and properties asked for |
| `Sessions.WriteSession.AddAlias` | src/leanevolve/ledger/store.py:275-294 | afterwards the alias points at the object; it is added once and repeated silently; the conflict error is raised exactly when it points at another one |
| `Sessions.WriteSession.Connect` | src/leanevolve/ledger/store.py:296-349 | endpoints exist, their kinds and the properties suit the relation; an active equal edge is returned, a retracted one revived in its own row; the conflict error is raised exactly for an active edge with other properties |
| `Sessions.WriteSession.Retract` | src/leanevolve/ledger/store.py:351-373 | an active row is marked with the event that retracts it; a retracted one is left alone; an absent one is an error |
| `Sessions.WriteSession.RegisterArtifact` | src/leanevolve/ledger/store.py:375-417 | digest and size are validated, the object is created and its registration recorded under the digest's own key; the returned row has the digest, type, size, media type and name asked for |
| `Sessions.WriteSession.AddLocation` | src/leanevolve/ledger/store.py:419-443 | a present location is left alone; an absent or lost one becomes present by one event |
| `Sessions.WriteSession.VerifyLocation` | src/leanevolve/ledger/store.py:445-464 | one event, and the existing row (if any) becomes present and dated when verified, else lost and undated |
| `Sessions.WriteSession.LoseLocation` | src/leanevolve/ledger/store.py:466-478 | one event, and the existing row (if any) becomes lost with its verification date kept |
| `Sessions.WriteSession.ArchiveArtifact` | src/leanevolve/ledger/store.py:480-487 | only a known artifact and a known retention state are recorded, by one event that names the state |
| `Sessions.WriteSession.Perform` | src/leanevolve/ledger/store.py:139-500 | whichever operation is asked for does exactly its specified effect on all tables |
| `Integrity.CheckChain` | src/leanevolve/ledger/integrity.py:142-179 | reports exactly the id gaps, chain breaks and hash mismatches there are |
| `Integrity.CheckAuthority` | src/leanevolve/ledger/integrity.py:182-213 | reports exactly the unauthorized events, invalid payloads and missing evidence there are |
| `Integrity.CheckObjects` | src/leanevolve/ledger/integrity.py:216-251 | reports exactly the objects whose kind, required properties or artifact name are at fault |
| `Integrity.CheckConnections` | src/leanevolve/ledger/integrity.py:254-290 | reports exactly the edges with an unknown relation, a dangling end or an invalid pairing |
| `Integrity.CheckTruthInvariants` | src/leanevolve/ledger/integrity.py:293-318 | reports exactly the truth events by wrong actors and the active refutations without kernel trust |
| `Integrity.CheckSchema` | src/leanevolve/ledger/integrity.py:90-125 | reports exactly another schema version and a missing vocabulary binding |
| `Integrity.CheckBytes` | src/leanevolve/ledger/integrity.py:343-359 | the deep check reports exactly the artifacts whose local bytes no longer hash to their name |
| `Integrity.Verify` | src/leanevolve/ledger/integrity.py:363-390 | no error is reported if and only if the database is bound to the schema, the ledger is clean and, on a deep check, no stored bytes have changed |
| `Integrity.ApplyKeepsClean` | src/leanevolve/ledger/store.py:154-487 | every single operation, whether it succeeds or raises, leaves a clean ledger clean |
| `Integrity.EveryRunIsClean` | src/leanevolve/ledger/store.py:538-571 | any sequence of write sessions, committed or rolled back, exceptions caught or not, leaves the verifier nothing to report |
| `Integrity.EmptyIsClean` | src/leanevolve/ledger/integrity.py:363-390 | the empty ledger is clean |
| `Scenarios.FalseArtifactCommits` | src/leanevolve/ledger/store.py:199-273 | under the version-1 vocabulary such a creation commits on the empty ledger and the verifier reports it |
| `Integrity.HonestyIsExact` | src/leanevolve/ledger/integrity.py:216-251 | creating an object breaks a clean ledger exactly when it is an artifact whose id does not end in its own digest |
| `Replay.EveryRunIsExplained` | src/leanevolve/ledger/store.py:1-6 | in any run of sessions, whatever it retracts, the objects but for their content, the aliases and the locations are at every moment exactly what reading the log from its beginning gives, if and only if no event recorded by hand in a committed session tells something new |
| `Replay.EmptyIsExplained` | src/leanevolve/ledger/store.py:1-6 | the empty ledger is what the empty log gives |
| `Replay.ApplyKeepsExplained` | src/leanevolve/ledger/store.py:154-487 | each operation keeps the tables explained by the log, a record by hand if and only if it tells nothing new |
| `Replay.RecordIsExplained` | src/leanevolve/ledger/store.py:154-195 | an appended hand-written creation, alias or location addition never leaves the tables explained; a verification exactly when the row is absent or has that state and date; a loss exactly when the row is absent or lost; any other action always |
| `EdgeReplay.EveryRunIsFullyExplained` | src/leanevolve/ledger/store.py:1-6 | all tables, connections too, are at every moment of a run what reading the log gives if and only if each retraction met the only active edge of its source and no event by hand told anything new |
| `EdgeReplay.EmptyIsFullyExplained` | src/leanevolve/ledger/store.py:1-6 | the empty ledger is what the empty log gives, connections included, and its chain is valid |
| `EdgeReplay.StandardClosesRelations` | src/leanevolve/ledger/vocabulary.py:293-478 | the version-1 table knows no relation outside the closed vocabulary, as the two theorems above ask |
| `EdgeReplay.RetractionIsExplained` | src/leanevolve/ledger/store.py:351-373 | after a retraction the log still explains the connections if and only if the edge was the only active one of its source |
| `EdgeReplay.RetractionIsAmbiguous` | src/leanevolve/ledger/store.py:351-373 | some other edge's retraction would write the very same log and leave other edges if and only if the source had another active edge: no reading can do better |
| `EdgeReplay.ApplyKeepsEdges` | src/leanevolve/ledger/store.py:154-373 | each operation keeps the connections explained if and only if a retraction meets the only active edge of its source and a record by hand tells nothing new |
| `EdgeReplay.RecordIsExplainedByEdges` | src/leanevolve/ledger/store.py:154-195 | an appended hand-written connection creation never leaves the connections explained; a retraction exactly when its subject has no active edge; any other action always |
| `Scenarios.SameLogDifferentEdges` | src/leanevolve/ledger/store.py:351-373 | two sessions on the empty ledger that write one log and leave different connections |
| `Scenarios.LoadedScenarioIsUnexplained` | src/leanevolve/ledger/fixtures.py:976-1003 | loading the golden scenario, whose agent records a second creation of an existing object, is accepted and leaves a log that tells of another creation than the objects table holds |
| `Scenarios.ToldAliasIsUnexplained` | src/leanevolve/ledger/store.py:154-195 | on the empty ledger an alias recorded by hand is in the log and not in the table |
| `Replay.ContentIsNotLogged` | src/leanevolve/ledger/store.py:247-271 | two creations that differ only in content write the same event |
| `Rerun.ExactlyOnce` | src/leanevolve/ledger/store.py:8-12 | after any number of interrupted attempts a complete rerun raises nothing and gives the tables and events of one clean run, up to clocks and hashes |
| `Rerun.AttemptOver` | src/leanevolve/ledger/store.py:8-12 | running a prefix of a script over a ledger that holds another prefix gives the longer of the two |
| `Rerun.DoneIsNoOp` | src/leanevolve/ledger/store.py:317-324 | an operation whose effect is already there changes nothing, whoever repeats it and whenever |
| `Rerun.UnkeyedRecordRepeats` | src/leanevolve/ledger/store.py:165-169 | without an idempotency key each repetition appends another event: the key hypothesis is needed |
| `Rerun.RetractionIsUndoneByRerun` | src/leanevolve/ledger/store.py:317-345 | rerunning a connect after its retraction appends again: scripts that retract are rightly excluded |
| `Derive.LoopIsProved` | src/leanevolve/ledger/derive.py:109-117 | the loop over certifying and retracting events computes the certification fold |
| `Derive.LoopLifecycle` | src/leanevolve/ledger/derive.py:88-93 | the loop computes the lifecycle fold |
| `Derive.LoopOperational` | src/leanevolve/ledger/derive.py:96-106 | the loop computes the operational fold |
| `Derive.LoopVerification` | src/leanevolve/ledger/vocabulary.py:1192-1200 | the loop over the levels computes the dominant level of the events |
| `Derive.LoopTruth` | src/leanevolve/ledger/derive.py:120-144 | proved first, then refuted by a proved source over an edge of the right age, else open |
| `Derive.VerificationIsStrongest` | src/leanevolve/ledger/derive.py:80-85 | the derived level is recorded by some event and is at least as strong as every recorded one |
| `Readings.LevelByActions` | src/leanevolve/ledger/derive.py:23-31 | each rung of the verification level is reported exactly when one of its own events is there and none of a higher rung |
| `Readings.ProofIsLatest` | src/leanevolve/ledger/derive.py:109-117 | certified exactly when the latest of the certifications and retractions is a certification |
| `Readings.LifecycleIsLatest` | src/leanevolve/ledger/derive.py:88-93 | superseded, retracted or archived by the latest such event, active without one |
| `Readings.OperationalIsLatest` | src/leanevolve/ledger/derive.py:96-106 | the operational state is the one the latest moving event names, by its own action or by what it reports, and there is none exactly when nothing moved |
| `TimeTravel.TimeTravel` | src/leanevolve/ledger/derive.py:173-196 | replaying to an event id gives, in every dimension, the state shown then, if no refutation or formalization edge was retracted since |
| `TimeTravel.TruthReplaysExactly` | src/leanevolve/ledger/derive.py:129-144 | whatever was retracted: the replayed truth is right exactly when the object was not refuted then or some refuting edge of then still stands |
| `TimeTravel.EncodingReplaysExactly` | src/leanevolve/ledger/derive.py:147-170 | the replayed encoding is right exactly when there was none or a strongest encoding row of then still stands |
| `TimeTravel.EncodingIsStrongest` | src/leanevolve/ledger/derive.py:147-170 | the encoding of an object is the strongest of its formalization edges |
| `Scenarios.RetractedRefuterIsLost` | src/leanevolve/ledger/derive.py:129-144 | a history in which a claim was refuted and replays as open after the refutation was withdrawn |
| `Scenarios.RetractedEncodingIsLost` | src/leanevolve/ledger/derive.py:147-170 | a history in which a claim was encoded and replays as not encoded after the edge was withdrawn |
| `TimeTravel.EventDimensionsReplay` | src/leanevolve/ledger/derive.py:173-196 | verification, lifecycle, operational state and source evidence replay exactly with no hypothesis on retractions |
| `TimeTravel.EveryEventIsAMoment` | src/leanevolve/ledger/derive.py:173-196 | every event id between start and end of a history is the length of the log at some point of it |
| `TimeTravel.SessionsPlay` | src/leanevolve/ledger/store.py:538-571 | every run of write sessions is a history of single operations, so the theorem covers all reachable ledgers |
| `Projection.DirectState` | formal/shinka/spotlight_packet.py:302-325 | the one-pass loop returns the truth and level the separate folds return, and a lifecycle read apart |
| `Projection.LifecyclesAgree` | formal/shinka/spotlight_packet.py:302-325 | the two lifecycle readings agree on exactly the event lists that do not end archived |
| `Projection.PropositionState` | formal/shinka/spotlight_packet.py:328-356 | one pass over a claim and its exact twins gives certification by any of them, the strongest of their levels, and the claim's own lifecycle |
| `Projection.PropositionLevelIsUnique` | formal/shinka/spotlight_packet.py:348-351 | the strongest level among a claim and its twins is one level |
| `Projection.ExactStateOf` | formal/shinka/spotlight_packet.py:359-442 | the early-returning loops compute the exact truth, its level and the target's lifecycle, and fail on a missing refuter exactly when they reach one |
| `Projection.ExactLevelCompares` | formal/shinka/spotlight_packet.py:359-442 | the level shown is never below the derived one, except that a legacy refutation shows its own certified pair's; the lifecycle is the derived one exactly unless archived |
| `Projection.SourcesExist` | formal/shinka/spotlight_packet.py:388-442 | on a clean ledger the missing-refuter failure cannot happen |
| `Projection.ProvedCarriesOver` | formal/shinka/spotlight_packet.py:359-442 | what derivation calls proved the packet calls proved |
| `Projection.RefutedIsNeverOpen` | formal/shinka/spotlight_packet.py:359-442 | what derivation calls refuted the packet never shows as open and never fails on |
| `Projection.ReadingsAgree` | formal/shinka/spotlight_packet.py:328-442 | with no claim of the same proposition and no legacy refutation the two truths are equal |
| `Projection.ReadingsDifferExactly` | formal/shinka/spotlight_packet.py:328-442 | with no legacy relation, the exact condition under which the two truths differ |
| `Projection.StandardHasCorrectionContract` | src/leanevolve/ledger/vocabulary.py:559-1068 | the version-1 payload contract of corrections has no room for replacement content |
| `Projection.CleanLedgersAreUncorrected` | formal/shinka/spotlight_packet.py:215-239 | so on a ledger the verifier accepts the correction overlay never applies |
| `QueueService.DurableCheckQueue.Invalidate` | src/leanevolve/ledger/queue.py:433-512 | when it commits, the log gains the correction of event n with the given reason if and only if n is a reported success of the check not corrected before, then one retirement, then retracted connections; the active edges are those of the order-free withdrawal; otherwise no trace is left |
| `Corrections.WithdrawalCorrects` | src/leanevolve/ledger/queue.py:440-512 | what a committed withdrawal writes to the log, exactly |
| `Confluence.InvalidateWithdraws` | src/leanevolve/ledger/queue.py:433-512 | one invalidation leaves exactly the active edges the withdrawal of that check allows, and retires no other check |
| `Confluence.WithdrawOneMore` | src/leanevolve/ledger/queue.py:470-512 | withdrawing one more check from what is left is withdrawing all at once |
| `Confluence.InvalidateAllWithdraws` | src/leanevolve/ledger/queue.py:433-512 | a series of invalidations, each with its own reason, leaves the edges that withdrawing the set of checks allows |
| `Confluence.InvalidationIsConfluent` | src/leanevolve/ledger/queue.py:433-512 | any two orders, with any repetitions and a reason for each check, of invalidating the same checks leave the same active edges |
| `Confluence.StandardInvalidationIsConfluent` | src/leanevolve/ledger/queue.py:433-512 | under the standard vocabulary both series commit, so confluence has no hypothesis about what raises |
| `Confluence.RelevanceFollowsSupport` | src/leanevolve/ledger/queue.py:482-512 | a touched claim keeps an outgoing advances or depends_on edge exactly when another active check produces it or it is included somewhere; every other edge stays |
| `Confluence.InvalidatingAgainIsNoOp` | src/leanevolve/ledger/queue.py:433-480 | invalidating a check again, after any further invalidations and for any reason, appends nothing |
| `Confluence.InvalidationCommits` | src/leanevolve/ledger/queue.py:433-512 | under the standard vocabulary an invalidation of a known check never raises |
| `Confluence.InvalidateAllCommits` | src/leanevolve/ledger/queue.py:433-512 | under the standard vocabulary a series of invalidations of known checks never raises and leaves the identifiers valid |
| `Confluence.ApplyKeepsRowsUnique` | src/leanevolve/ledger/store.py:296-373 | every operation keeps at most one row per source, relation and target |
| `QueueService.DurableCheckQueue.Submit` | src/leanevolve/ledger/queue.py:132-225 | a committed new job joins the pending jobs, alone, with a row and an event that say what was asked for and the scope of the request; a full queue refuses it and any refusal leaves every table as it was; reuse of a known job records at most the reuse and moves no check |
| `Admission.ScopeIsOfFirst` | src/leanevolve/ledger/queue.py:81-92 | the scope of a job is that of its first submission, and without one there is none |
| `Admission.AdmissionLog` | src/leanevolve/ledger/queue.py:81-225 | after a committed new submission the log ends with it and the scope read back is the request's, unless its key was taken |
| `Admission.AdmissionRows` | src/leanevolve/ledger/queue.py:167-205 | the rows and the edge of a committed new submission, and no others |
| `Admission.OneIdOneContent` | src/leanevolve/ledger/queue.py:47-62 | requests with one job id agree in source, checkpoint, environment and class, or two texts share 24 digest characters, when the last three hold no NUL |
| `Admission.NulMovesTheBorder` | src/leanevolve/ledger/queue.py:47-62 | with a NUL in a part, two requests of different content have one job id whatever the digest |
| `QueueService.DurableCheckQueue.Start` | src/leanevolve/ledger/queue.py:238-252 | commits only for a readable queued job, which then runs while no other check moves, by one event in the job's scope that names the worker and the delay; otherwise nothing changes |
| `QueueService.DurableCheckQueue.Cancel` | src/leanevolve/ledger/queue.py:394-399 | when it commits its job is interrupted and no other check moves, by one event that gives the reason; otherwise nothing changes |
| `QueueService.DurableCheckQueue.TimeOut` | src/leanevolve/ledger/queue.py:401-410 | when it commits its job is timed out and no other check moves, by one event that gives the budget; otherwise nothing changes |
| `QueueService.DurableCheckQueue.Interrupt` | src/leanevolve/ledger/queue.py:412-421 | when it commits its job is interrupted and no other check moves, by one event that says who noticed; otherwise nothing changes |
| `QueueService.DurableCheckQueue.Supersede` | src/leanevolve/ledger/queue.py:423-431 | refused unless the newer job is a check; when it commits the older one is interrupted and no other check moves, by one event that names the newer |
| `QueueService.DurableCheckQueue.Complete` | src/leanevolve/ledger/queue.py:254-392 | only a running job is completed; a committed result leaves exactly its claims, their provenance, relevance and dependencies, its kernel checks and its terminal event, and a rejected one no claim; otherwise no trace is left |
| `Completion.CompletionEdges` | src/leanevolve/ledger/queue.py:294-361 | an edge is active afterwards exactly when it was before, or it is the provenance of the result or of a declared claim, the relevance of a claim to a focus goal, or leads from what a declaration's name means to what a name it lists means, a name meaning its last declaration |
| `Completion.CompletionRows` | src/leanevolve/ledger/queue.py:283-325 | old rows stay; new are the stored result and, on success only, one claim for each new proposition, with the first declaration's name |
| `Completion.CompletionLog` | src/leanevolve/ledger/queue.py:294-385 | the log ends with the terminal event of the outcome; the kernel checks gained are those of the declarations, on the evidence of the stored result |
| `QueueService.DurableCheckQueue.Reconcile` | src/leanevolve/ledger/queue.py:514-540 | afterwards exactly the checks of the checkpoint that were running are interrupted and no other check moved, and each has its interruption and recovery in the log |
| `Queue.StateFollowsPhase` | src/leanevolve/ledger/derive.py:96-106 | the derived operational state of a well-shaped history is that of its phase |
| `Queue.AtMostOnce` | src/leanevolve/ledger/queue.py:132-392 | submission, start and terminal event occur at most once each, and submission first |
| `Queue.TerminalFollowsStart` | src/leanevolve/ledger/queue.py:254-392 | a terminal event immediately follows the start among the job's operational events |
| `Queue.AbandonedNeverFinishes` | src/leanevolve/ledger/queue.py:394-431 | after a cancellation, time-out, interruption or supersession nothing but abandonments follows |
| `Queue.ShapeIsPhase` | src/leanevolve/ledger/queue.py:132-431 | the automaton accepts exactly the histories of the declarative shape |
| `QueueRuns.NextKeepsInv` | src/leanevolve/ledger/queue.py:132-540 | each queue operation keeps every job's history well shaped |
| `QueueRuns.EveryInterleavingKeepsInv` | src/leanevolve/ledger/queue.py:132-540 | so does every interleaving of queue operations with other sessions |
| `QueueRuns.JobHistoriesAreShaped` | src/leanevolve/ledger/queue.py:132-540 | over every run from the empty ledger each check's history has the shape |
| `QueueRuns.AbandonedJobsNeverFinish` | src/leanevolve/ledger/queue.py:394-431 | in every run a job abandoned before it finished never finishes |
| `Backpressure.QueueIsBounded` | src/leanevolve/ledger/queue.py:166-171 | with checks and commits as separate steps and k submitters, the queued count never exceeds the limit plus k - 1 |
| `Backpressure.SequentialSubmitsRespectTheLimit` | src/leanevolve/ledger/worker_service.py:84-104 | with one submitter at a time the limit is never exceeded |
| `Submission.SubmissionCommits` | src/leanevolve/ledger/queue.py:171-225 | under the version-1 vocabulary a new submission whose job id is free and whose source is not stored otherwise always commits |
| `Backpressure.LimitIsOverrun` | src/leanevolve/ledger/queue.py:166-225 | from any ready state with one place free, k submitters who all check before any commits end with limit plus k - 1 jobs queued |
| `Backpressure.LimitIsOverrunFromEmpty` | src/leanevolve/ledger/queue.py:166-225 | the same from the empty ledger: all places but one filled in turn, the last raced for |
| `Backpressure.BoundIsAttained` | src/leanevolve/ledger/queue.py:171-225 | each of several commits that succeed for new jobs adds one to the queued count |
| `Backpressure.CommitAddsItsJob` | src/leanevolve/ledger/queue.py:171-225 | a fruitful commit makes exactly its own job pending |
| `Worker.SimpleStepMoves` | src/leanevolve/ledger/queue.py:394-421 | under the standard vocabulary a start, time-out or interruption always commits and moves exactly its job |
| `Worker.CompletionMoves` | src/leanevolve/ledger/queue.py:254-392 | a completion that commits finishes exactly its job; one that does not leaves no trace |
| `Worker.WarmWorker.Pick` | src/leanevolve/ledger/queue.py:227-236 | no waiting job of the checkpoint has a higher priority than the one taken, or the same and an earlier creation |
| `Worker.WarmWorker.ProcessNext` | src/leanevolve/ledger/worker.py:481-518 | the job taken is finished, timed out, or, when an exception escapes, left queued or running; no other check moves |
| `Worker.WarmWorker.ServeNext` | src/leanevolve/ledger/worker_service.py:258-275 | the surrounding loop leaves the job taken completed, failed, timed out or interrupted, whatever the backend does |
| `Worker.WarmWorker.Serve` | src/leanevolve/ledger/worker_service.py:258-275 | if nothing raises the queue is drained, each job once, ordered by priority and age, and nothing else moves |
| `UnifiedDiff.PatchingIsDenotation` | formal/shinka/shinka_lean_check.py:511-571 | hunks apply exactly when they are the hunks of an edit script whose old side is the parent, and give its new side |
| `UnifiedDiff.PrintedPatches` | formal/shinka/shinka_lean_check.py:511-571 | any edit script cut into hunks with canonical coordinates takes its old side to its new side, and its reverse takes it back |
| `UnifiedDiff.PatchesReverse` | formal/shinka/shinka_lean_check.py:522-567 | an accepted patch is undone by swapping signs and header fields if and only if it did not use the tolerated start insertion |
| `UnifiedDiff.StartInsertionDoesNotReverse` | formal/shinka/shinka_lean_check.py:522-530 | a one-line insertion under -1,0 that is accepted and not reversible |
| `PatchApplier.ApplyUnifiedDiff` | formal/shinka/shinka_lean_check.py:488-571 | accepts only patches that begin with known metadata and exactly one pair of file headers; for such a beginning the result is that of the hunks the remaining lines spell, if they apply, and else the patch is refused |
| `PatchApplier.ParsesAsSpelled` | formal/shinka/shinka_lean_check.py:515-571 | lines read as hunks exactly when they spell them: a header that parses, then one prefixed line for each edit |
| `PatchText.PrintedHunks` | formal/shinka/shinka_lean_check.py:511-548 | printing hunks and reading them back is the identity |
| `PatchText.AppliedPatchReverses` | formal/shinka/shinka_lean_check.py:488-571 | the reverse, printed as a patch and applied to the result, restores the parent exactly for strict patches |
| `PatchText.TextPatchReverses` | formal/shinka/shinka_lean_check.py:488-571 | on any two texts, the text of the reverse restores the parent if and only if the patch is strict and the result lines are the lines of a text: nothing written after an unterminated line, no empty piece inserted |
| `PatchText.ResplitsExactly` | formal/shinka/shinka_lean_check.py:568-571 | a line list survives joining and splitting exactly when only its last line may lack a newline |
| `PatchText.ResplitCount` | formal/shinka/shinka_lean_check.py:568-571 | pieces joined and split again never become more, and stay as many exactly when they are the lines of a text |
| `PatchText.UnterminatedLinesGlue` | formal/shinka/shinka_lean_check.py:568-571 | an accepted insertion after an unterminated last line comes out as one line |
| `Assembler.Flatten` | formal/shinka/shinka_lean_check.py:669-724 | success exactly when no cycle and no missing library module is reachable; then the order is duplicate-free, after its imports, exactly what is reachable, and the depth-first one |
| `Assembler.EmitsOneOrder` | formal/shinka/shinka_lean_check.py:702-724 | the import lists determine the depth-first order of modules and externals: at most one pair of lists has it |
| `Assembler.Flattener.Visit` | formal/shinka/shinka_lean_check.py:702-722 | one visit accounts for its module, keeps everything ordered so far, restores the visiting set, and fails only for a genuine reason |
| `Assembler.CompleteMeansSound` | formal/shinka/shinka_lean_check.py:697-724 | a complete import-closed order leaves no room for a cycle or a missing module |
| `Assembler.ClosedContains` | formal/shinka/shinka_lean_check.py:697-724 | what is closed under imports and covers the roots contains everything reachable |
| `Assembler.ChainDescends` | formal/shinka/shinka_lean_check.py:697-724 | along any import chain positions in the order strictly fall |
| `LeanLexer.ScrubCommentsAndStrings` | formal/shinka/source_policy.py:53-111 | the index loop computes the scrubbed text, or fails exactly on an unclosed comment or string |
| `Lexemes.ScrubIsLexing` | formal/shinka/source_policy.py:53-111 | a text scrubs to another exactly when that is the text with its line comments, nested block comments and strings blanked; it fails exactly when one of them is not closed |
| `LeanLexer.ScrubKeepsPositions` | src/leanevolve/policy.py:22-80 | same length, and each character is kept or becomes a space |
| `LeanLexer.ScrubbedIsPlain` | formal/shinka/source_policy.py:53-111 | no quote and no comment opener is left |
| `LeanLexer.ScrubIdempotent` | formal/shinka/source_policy.py:53-111 | scrubbing twice is scrubbing once |
| `LeanLexer.LinesPreservedExactly` | formal/shinka/source_policy.py:53-60 | the documented promise to keep line structure holds exactly for texts without an escaped newline in a string |
| `LeanLexer.EscapedNewlineIsLost` | src/leanevolve/policy.py:22-80 | a four-character text that loses its newline |
| `LeanLexer.LexersAgree` | src/leanevolve/ledger/worker.py:403-456 | scanning around comments and strings finds what plain scanning finds in the scrubbed text |
| `Signatures.DeclarationSignature` | src/leanevolve/ledger/worker.py:388-459 | on any block the separator and assignment found are the first colon outside all brackets that begins no assignment and the first assignment outside all brackets after it, in the scrubbed text, or none when there is no such pair; the signature is the stripped pieces between them |
| `Signatures.PlainScanFinds` | src/leanevolve/ledger/worker.py:445-456 | the bracket scan finds exactly what an independent nesting count signs |
| `Signatures.RawScanFinds` | src/leanevolve/ledger/worker.py:388-456 | the same for raw text, closed or not: what some scrubbed prefix of it signs |
| `Signatures.SignatureOfScrubbed` | src/leanevolve/ledger/worker.py:403-456 | on text that can be scrubbed the scanner's positions are those of the plain bracket-and-colon scan |
| `Relevance.BuildRelevancePath` | src/leanevolve/workflow/spotlight.py:328-365 | between distinct goals: among the shortest routes within the depth the one that takes the earliest recorded links, or nothing when none is in reach |
| `Relevance.ChosenIsShortest` | src/leanevolve/workflow/spotlight.py:328-365 | what is returned is a chain of recorded links within the depth and no longer than any other |
| `Relevance.FirstRouteIsUnique` | src/leanevolve/workflow/spotlight.py:349-363 | the records leave no choice which route that is |
| `Relevance.RelevanceVerdict` | src/leanevolve/workflow/spotlight.py:217-257 | a focus is refused for want of a path exactly when none is in reach, and accepted exactly when the first route in recorded order is fully proved |
| `Relevance.ShortestPathsDecide` | src/leanevolve/workflow/spotlight.py:217-257 | accepted if every shortest path is proved, refused if none is, however well proved a longer one may be |
| `Relevance.ProvedDetourIsRefused` | src/leanevolve/workflow/spotlight.py:217-365 | a record with a fully proved route that is refused for its shorter, unproved one |
| `Neighborhood.DependencyNeighborhood` | formal/shinka/spotlight_packet.py:453-498 | the capped queue loop lists the nearest of the ball, ring by ring, names ascending within a visit |
| `Neighborhood.NeighborhoodIsOrderly` | formal/shinka/spotlight_packet.py:473-498 | it starts with the focus, repeats nothing, keeps to the cap and the depth, and never lists a farther object before a nearer one |
| `Neighborhood.BelowTheCapIsTheBall` | formal/shinka/spotlight_packet.py:473-498 | below the cap it is exactly the ball of that radius |
| `Neighborhood.SmallerMaximumIsPrefix` | formal/shinka/spotlight_packet.py:473-498 | a smaller maximum yields a prefix |
| `Neighborhood.GreaterDepthExtends` | formal/shinka/spotlight_packet.py:473-498 | a greater depth only extends the list |
| `Neighborhood.OrderIsBall` | formal/shinka/spotlight_packet.py:473-498 | the ring-by-ring order contains exactly what is within the distance |
| `Checkpoint.BoundsForm` | formal/shinka/checkpoint.py:25-38 | bounds exist exactly when there is one start marker line, one end marker line, in that order |
| `Blanks.StripTrims` | formal/shinka/checkpoint.py:25-38 | stripping leaves exactly what stands between the blanks at both ends |
| `Checkpoint.ReadBack` | formal/shinka/checkpoint.py:41-45 | a candidate in three parts written out is read back in the same parts |
| `Checkpoint.MaterializeIsMerge` | formal/shinka/checkpoint.py:62-92 | materializing is refused exactly when either text has no ordered block, and otherwise joins both blocks without their sentinels and puts one last |
| `Checkpoint.MaterializeComposes` | formal/shinka/checkpoint.py:62-92 | materializing two deltas in turn equals materializing one delta that holds both blocks |
| `Checkpoint.MaterializedHasOneSentinel` | formal/shinka/checkpoint.py:62-92 | the result has one ordered block whose last line is its only sentinel; the file can be appended to exactly when none stood outside the block |
| `Checkpoint.AnchorForm` | formal/shinka/shinka_lean_check.py:297-309 | a readable source can be anchored exactly when no sentinel is outside its block and at most one inside |
| `Checkpoint.AppendForm` | formal/shinka/shinka_lean_check.py:446-485 | an append is accepted exactly for nonblank marker-free snippets on anchorable parents, and inserts the ended snippet at the anchor |
| `Checkpoint.AppendIsExtension` | formal/shinka/shinka_lean_check.py:312-326 | an accepted append passes the extension check if and only if the snippet brings no sentinel line |
| `Checkpoint.SentinelAppendIsNoExtension` | formal/shinka/shinka_lean_check.py:446-485 | a candidate and a snippet that is accepted and is no extension |
| `Checkpoint.OutsideSentinelBlocksAppends` | formal/shinka/checkpoint.py:62-92 | a checkpoint whose materialization refuses every append |
| `Checkpoint.ExtensionIsInsertion` | formal/shinka/shinka_lean_check.py:312-326 | an accepted extension is the parent with text inserted at its anchor, byte for byte |
| `Checkpoint.ExtensionsCompose` | formal/shinka/shinka_lean_check.py:312-326 | extensions of extensions are extensions of the first parent |
| `Checkpoint.AppendIsMaterialize` | formal/shinka/checkpoint.py:62-92 | with the sentinel last in the parent's block and none in the snippet, materializing is appending and passes as an extension |
| `Lineage.BuildNodes` | src/leanevolve/lineage.py:84-126 | each node carries its row, its parent's hash and, in order, the accepted goals its parent lacked, the parent being the last earlier row with the named id; the errors name exactly the rows whose parent has no earlier row |
| `Lineage.PickFrontier` | src/leanevolve/lineage.py:127-135 | the first of those with the highest score, then the most accepted goals, then the latest generation |
| `Lineage.Walk` | src/leanevolve/lineage.py:136-146 | the walk terminates on any table and reports a cycle exactly when the first node's parent is on the path |
| `Lineage.CompleteLineage` | src/leanevolve/lineage.py:84-146 | with unique ids and every parent resolved: no cycle, a root, a hash-bound duplicate-free chain, and each goal of the frontier newly accepted at a node after which it stays accepted |
| `Lineage.LaterParentsCycle` | src/leanevolve/lineage.py:136-146 | a table of unique ids whose parents come later is walked into a cycle: resolution is needed |
| `Lineage.FrontierHashBindsPath` | src/leanevolve/lineage.py:104-125 | the frontier's node hash alone determines the whole path, or two different cores on the paths share a hash |
| `Lineage.WriteLineage` | src/leanevolve/lineage.py:80-158 | the export: frontier, traced path, and exactly the unresolved-parent and cycle errors |
| `Observability.NormalFieldsAreNormal` | formal/shinka/observability.py:379-425 | normalizing an event's fields twice is normalizing them once |
| `Observability.BodyFits` | formal/shinka/observability.py:351-437 | an accepted record has a known event, its required fields and no unknown ones, each a value its kind allows, and a turn as the event wants it |
| `Observability.VerifyText` | formal/shinka/observability.py:467-578 | no error exactly on complete, sound, single-campaign logs that match the anchor; the head is the last well-formed claimed hash even after faults |
| `Observability.HeadDeterminesLog` | formal/shinka/observability.py:76-90 | two logs valid for one anchored head hold the same records, or exhibit a collision |
| `Observability.AppendedIsSound` | formal/shinka/observability.py:676-703 | the record that would be appended to a sound log is sound there |
| `Observability.ObservabilityLog.Emit` | formal/shinka/observability.py:638-711 | a record that says what was asked for is appended exactly when the request is loggable and the log is valid or not there yet, and the log is then valid; otherwise nothing changes |
| `Observability.ObservabilityLog.Head` | formal/shinka/observability.py:581-611 | a head is given exactly when there is a log file and it is valid |
| `Observability.EveryRunStaysSound` | formal/shinka/observability.py:638-711 | every run of appends from an empty log stays sound, and what an earlier head anchored is still its beginning |

## Left out

- Neighborhood.DependencyNeighborhood: names are compared character by character; the row order of the edge query does not matter to the result and is not modelled.
- Worker.WarmWorker.Pick: two waiting jobs with equal priority and equal creation event are not ordered further.
- Worker.WarmWorker.Serve: nobody submits while the loop runs; idle waiting, stop signals and the socket listener are not modelled.
- Sessions.Ledger.Write: one process and one connection; locking, write-ahead logging and SQL text are an atomic step that is taken or not.
- Integrity.Verify: the warnings (artifact locations and copies, a vocabulary digest of another version) are not modelled; the database engine's foreign-key check comes in as a flag and the local files as a function.
- Queue.StateFollowsPhase: covers the actions that can move a check; computations, campaigns, epochs and turns only as far as they cannot touch one.
- Observability.VerifyText: the text of error messages, JSON syntax and the timestamp grammar are left out; a line is either unreadable or a decoded object, and the timestamp check is a parameter.
- Lineage.WriteLineage: reading the database and the files, and the hash over the whole export, are inputs or absent; `sorted` goal lists are in character order.
- PatchApplier.ApplyUnifiedDiff: the hunk-header regular expression is a function passed in; printing is its inverse by assumption.
- Signatures.DeclarationSignature: finding declarations and their names by regular expression is not modelled; blanks are space, tab, newline and carriage return.
- Checkpoint.BoundsForm: lines end at newlines only, and the blanks a marker line may carry are space, tab, newline and carriage return; the other terminators and blanks Python knows are not modelled.
- The uniqueness index on event hashes: it can only fire on a hash collision.
- Canonical JSON and SHA-256: digests and renderings are functions of the decoded values.
- Clocks: a function of the event id; recording times stay outside the comparisons between runs.
- Artifact bytes and their store: only digests, sizes, location rows and what a stored file hashes to appear.
- Parsing import headers, and merging several files' headers into one: the flattener gets each module's import list.
- The Lean server, subprocesses, sockets and message framing: the backend is a function from jobs to answers.
- Full-text search, packet rendering, semantic cards, outlines, command lines, settings, schedules, receipts and release audits.
