# Verified models of the companion backend

This project models the parts of the asyncio companion backend whose guarantees depend on interleavings, histories or
arithmetic, and proves those guarantees for every run and every input.

| part | files | what it is about |
|---|---|---|
| segmentation | `Segmentation.dfy`, `SegmentationRules.dfy`, `Segmenter.dfy` | cutting a token stream into speakable segments |
| dialogue pipeline | `DialogueRun.dfy`, `DialogueReports.dfy`, `DialogueRunProofs.dfy`, `DialogueRunResults.dfy`, `DialoguePipeline.dfy` | one producer, N speech workers and one player over two FIFO queues |
| turn arbitration | `TurnArbitration.dfy`, `TurnArbitrationProofs.dfy`, `TurnArbitrationResults.dfy`, `TurnArbitrationProgress.dfy`, `TurnService.dfy` | user turns that preempt each other and proactive turns, across `TurnService` and `ProactiveLifecycle` |
| emotion | `Emotion.dfy`, `EmotionEngine.dfy` | bounded values, a budget per minute, label hysteresis |
| private state | `MemoryTables.dfy`, `MemoryResults.dfy`, `MemoryRepository.dfy`, `ContextEpoch.dfy`, `ContextSource.dfy` | memory tables as a last-write-wins map, and prompt snapshots that respect revocation |
| perception | `ChangeDetection.dfy`, `Perception.dfy`, `PerceptionRuns.dfy`, `PerceptionPipeline.dfy` | a fail-closed observation and the change detector it commits to |
| speech cache | `KeyLocks.dfy`, `KeyLockRegistry.dfy`, `CacheCleanup.dfy` | reference-counted locks per cache key, and lease-aware eviction |
| card numbers | `Luhn.dfy` | the check of Annex B of ISO/IEC 7812-1 |

How the models are built:

- A protocol is a step system: a state, an action for each piece of code between two suspension points (`Enabled`,
  `Do`), and runs as sequences of states. What the source promises is proved about the step system: an invariant that
  every action keeps, and from it the results about every run. The objects of the source are classes whose methods are
  these pieces of code: the invariant is part of their `Valid()`, each method takes its `View()` where the step system
  prescribes, and its contract adds what that means to the caller.
- Code that only computes is a function, and the loops of the source that compute the same thing are methods proved
  against it.
- An exception is a `Result`, an `Outcome` or, for a constructor that rejects its arguments, `null`.

Where the code does less than its documentation says, a lemma gives the exact condition and another one a concrete run
or input: a proactive run can be cancelled twice although cancellation is documented as one-shot
(`SecondCancellation`, `ProactiveRunCancelledTwice`), audio stays undiscarded when stopping the player raises while some
is registered (`AudioIsDiscarded`, `AudioCanBeLeftBehind`), a profile goes stale when its key changes type
(`UpsertCoherent`, `ProfileGoesStale`), a mutator that fails between its write and its announcement is not respected by
a snapshot whose reads began before the write (`SnapshotRespectsEnded`, `FailedMutatorMissed`), and a waiter cancelled at
the moment it is granted a key lock strands the others (`StrandedBy`, `WaiterStranded`).

Modelling assumptions:

- Turn arbitration is the wired composition (`app/main.py`): a pipeline and a priority controller are present, and
  proactive runs start only through the lifecycle. Publishing is atomic. Two locks are held across suspensions and are
  part of the state: the accept lock while `accept` joins the proactive task and the previous run, and the coordination
  lock while it waits for its run to start. The lifecycle lock is never held across one, so it is never contended.
  After the lifecycle's join `ProactiveRuntime.begin_user_turn` (`app/proactive/runtime.py:169-173`) also waits for the
  runtime's state lock, which others hold while they join a proactive task they have cancelled; this wait is part of the
  time a call spends at `Signalling`, and progress counts on its end.
  `accept` is not called from inside a pipeline task. A run is cancelled from outside only by the service or the
  lifecycle, and an `accept` call at most once; a cancellation of `accept` while it waits for its run is delivered after
  the run's first step, because the event loop resumes ready tasks in order. The output lock is not modelled, and the
  exclusion it stands for is proved without it.
- In the dialogue pipeline an event is published in the step that emits it: `emit` checks the token, which has been
  checked in the same step, and publishing does not suspend.
- Python's Unicode classes (whitespace, word characters, digits) are arbitrary predicates of the segmenter's settings.
- Numbers of the emotion engine and of scores are reals; time is in microseconds, as the source's timestamps are.
  `keep` stands for the powers of one minus the decay rate: 1 for no time, one minus the rate for a minute, and
  multiplicative.
- The database is its tables with their declared uniqueness, check, reference and cascade rules; a transaction is a
  snapshot that is put back on any error. The classifier's answer and the name of a manual edit are part of `Edit`.
- Adapters of the perception pipeline answer, fail (time-outs included) or are interrupted, as `Inputs` says; the
  objects they hand over when they answer are the `Buffers`. A sanitizer that returns a new frame is taken to have
  blacked out the regions it was given. What the cloud adapter demands in `CloudVision.Analyze` is not a demand of the
  source but what every call is proved to establish.

## Model

| member | source | states |
|---|---|---|
| `Segmenter.DialogueSegmenter.Create` | app/pipelines/segmenter.py:47-66 | construction fails exactly for a minimum below one, a maximum below the minimum, or no words allowed |
| `Segmenter.DialogueSegmenter.Feed` | app/pipelines/segmenter.py:72-76 | new text is covered by what is emitted and what stays buffered, nothing is lost, indices continue, what stays buffered holds no whole sentence and is not too long, pieces are trimmed and bounded by the maximum plus the delta |
| `Segmenter.DialogueSegmenter.Flush` | app/pipelines/segmenter.py:78-84 | all remaining text is emitted, trimmed and bounded, and the buffer is empty |
| `Segmenter.DialogueSegmenter.Drain` | app/pipelines/segmenter.py:86-104 | the loop ends and emits the texts of the cutting function, numbered from the next free index |
| `Segmenter.DialogueSegmenter.NextCut` | app/pipelines/segmenter.py:88-102 | the cut is the one the characters call for: the first sentence long enough, and a forced cut only where there is none and the buffer is too long |
| `Segmenter.DialogueSegmenter.SentenceBoundary` | app/pipelines/segmenter.py:106-120 | the scan finds the boundary of the first terminator whose text may be emitted |
| `Segmenter.DialogueSegmenter.PeriodIsTerminal` | app/pipelines/segmenter.py:122-148 | a period ends a sentence exactly when it is the last of three or more, or has no period beside it, is not between digits, does not follow a listed abbreviation, initials or a single capital, and is not at the streaming edge |
| `Segmenter.DialogueSegmenter.EllipsisIsTerminal` | app/pipelines/segmenter.py:150-158 | an ellipsis ends a sentence exactly when none follows it and one precedes it or the reply has ended |
| `Segmenter.DialogueSegmenter.ForcedBoundary` | app/pipelines/segmenter.py:164-183 | only a buffer with too many characters or words is cut by force: behind the last comma or colon that is neither too early nor beyond the limit, else behind the last such blank, else at the limit |
| `Segmentation.Settings.BoundaryIsFirst` | app/pipelines/segmenter.py:106-120 | the boundary is that of the first emittable terminator and is missing only when there is none |
| `Segmentation.Settings.NoCutMeansQuiescent` | app/pipelines/segmenter.py:86-120 | the drain stops exactly when the buffer is within both limits and holds no emittable sentence |
| `Segmentation.Settings.LongCutIsSentence` | app/pipelines/segmenter.py:88-102 | a cut beyond the maximum length is the end of a sentence with an emittable terminator, so forced cuts never exceed it |
| `Segmentation.Settings.SentenceEndsInTerminator` | app/pipelines/segmenter.py:106-120 | such a sentence ends in its terminator and the closers after it |
| `Segmentation.Settings.DrainCovers` | app/pipelines/segmenter.py:86-104 | the buffer is blanks and emitted texts in turn, followed by what stays buffered |
| `Segmentation.Settings.DrainPieces` | app/pipelines/segmenter.py:86-104 | every emitted text is trimmed, no longer than the buffer, and beyond the maximum only if an emittable terminator ends it |
| `Segmentation.Settings.DrainLeavesNoCut` | app/pipelines/segmenter.py:86-104 | after a drain no further cut is possible |
| `Segmentation.Settings.FeedResult` | app/pipelines/segmenter.py:72-76 | one feed covers buffer and delta, bounds the pieces and leaves a quiescent buffer |
| `Segmentation.Settings.FlushCovers` | app/pipelines/segmenter.py:78-84 | a flush covers the whole buffer |
| `Segmentation.Settings.FlushPieces` | app/pipelines/segmenter.py:78-84 | flushed texts are trimmed and bounded by the buffer |
| `Segmentation.Settings.ReplyCovers` | app/pipelines/dialogue.py:146-172 | however a reply is chunked, its segments cover it |
| `Segmentation.Settings.ReplyLosesNothing` | app/pipelines/dialogue.py:298-302 | a reply and its segments agree on every character that is not white space |
| `SegmentationRules.PeriodRule` | app/pipelines/segmenter.py:122-148 | told from the neighbouring characters alone, exactly these periods end a sentence |
| `SegmentationRules.DotsRule` | app/pipelines/segmenter.py:126-133 | of a run of periods exactly the last one counts, and only if there are three or more |
| `SegmentationRules.AbbreviationRule` | app/pipelines/segmenter.py:138-141 | a period follows an abbreviation exactly when the letters in front of it, all of them and in either case, spell a listed one |
| `SegmentationRules.LowerMeans` | app/pipelines/segmenter.py:140-141 | only capitals are folded, each to its small letter |
| `SegmentationRules.InitialsRule` | app/pipelines/segmenter.py:142-143 | initials are letters and periods in turn up to a last letter, each letter with a period behind it opening a word |
| `SegmentationRules.CapitalRule` | app/pipelines/segmenter.py:144-145 | a single capital is one with no letter in front |
| `SegmentationRules.EllipsisRule` | app/pipelines/segmenter.py:150-158 | of a run of ellipses the last one counts, if there are two or the reply has ended |
| `SegmentationRules.TerminalRule` | app/pipelines/segmenter.py:106-113 | a sentence ends exactly at such a period, such an ellipsis, or a terminator of either script |
| `SegmentationRules.SentenceRule` | app/pipelines/segmenter.py:114-119 | a sentence may be emitted exactly when enough letters and digits, or a listed exclamation, precede the end of its closing marks |
| `SegmentationRules.CompactCounts` | app/pipelines/segmenter.py:160-162 | its length is the number of its word characters other than underscores |
| `SegmentationRules.WordsFound` | app/pipelines/segmenter.py:164-165 | the word scan finds runs of letters with at most one apostrophe inside, apart from each other, and every letter is in one |
| `SegmentationRules.ForcedRule` | app/pipelines/segmenter.py:164-183 | the forced cut told from the characters, words and limits alone |
| `SegmentationRules.NextCutIff` | app/pipelines/segmenter.py:86-104 | the cut taken is the one the characters call for and no other |
| `SegmentationRules.DrainRule` | app/pipelines/segmenter.py:86-104 | a drain takes the cuts the characters call for, one after the other, until they call for none |
| `SegmentationRules.QuiescentRule` | app/pipelines/segmenter.py:86-104 | what stays buffered holds no whole sentence and is within both limits, and nothing else stays |
| `DialogueRunProofs.StepKeeps` | app/pipelines/dialogue.py:131-310 | every action of producer, workers, player and group keeps order, custody, sentinel counts and the ledger of discards |
| `DialogueReports.ReportsKeep` | app/pipelines/dialogue.py:131-310 | every action keeps what the published events say in agreement with what happened |
| `DialogueRunResults.RunInv` | app/pipelines/dialogue.py:131-310 | every state of every run satisfies that invariant |
| `DialogueRunResults.PlaybackInOrder` | app/pipelines/dialogue.py:235-287 | in every interleaving, playback starts or skips exactly 0, 1, 2, ... in this order |
| `DialogueRunResults.ListenersFollow` | app/pipelines/dialogue.py:146-172 | in every state of every run the deltas published make up the text so far, a prefix of the reply, the segments announced are those completed with their positions, and each spoken one has its one job |
| `DialogueRunResults.AudioIsReported` | app/pipelines/dialogue.py:210-283 | in every state audio.ready was published at most once per segment, with the outcome of its synthesis, and playback.finished at most once, after playback.started |
| `DialogueRunResults.NothingLeft` | app/pipelines/dialogue.py:173-239 | with one sentinel per worker, no queued job or audio is left when all tasks have ended undisturbed |
| `DialogueRunResults.NormalCompletion` | app/pipelines/dialogue.py:289-302 | a run that returns has published the whole reply as deltas and as segments in order, announced each spoken segment as ready once with its outcome, and played it from start to finish or skipped it, playing exactly those synthesized successfully |
| `DialogueRunResults.AudioIsOwned` | app/pipelines/dialogue.py:208-209 | every successful synthesis is registered for cleanup or has been discarded, and none twice unless its first discard failed |
| `DialogueRunResults.AudioIsDiscarded` | app/pipelines/dialogue.py:270-310 | however a run ends, all audio is discarded exactly when stopping the player did not raise or nothing was left to clean up but a result whose discard raised; after a stop each result was discarded once, and only that one twice |
| `DialogueRunResults.AudioCanBeLeftBehind` | app/pipelines/dialogue.py:303-310 | a concrete cancelled run whose player raises on stop leaves audio undiscarded |
| `DialogueRunResults.StepDecreases` | app/pipelines/dialogue.py:138-310 | every action lowers a measure of deltas, segments, jobs, sentinels and audio still to come |
| `DialogueRunResults.RunsAreBounded` | app/pipelines/dialogue.py:138-310 | no run is longer than that measure at its start |
| `DialogueRunResults.WorkerMoves` | app/pipelines/dialogue.py:178-233 | a worker that has not ended can take a step without an exception, or it waits at an empty queue and the producer is still at work |
| `DialogueRunResults.PlayerMoves` | app/pipelines/dialogue.py:235-287 | a player that has not ended can take a step without an exception, or it waits at an empty queue and some worker is still at work |
| `DialogueRunResults.NoDeadlock` | app/pipelines/dialogue.py:138-310 | in every reachable state that is not final some task can take a step in which nothing raises |
| `DialoguePipeline.BatchContinues` | app/pipelines/dialogue.py:152-172 | segments handed out in batches are numbered as one sequence |
| `DialoguePipeline.BatchHead` | app/pipelines/dialogue.py:312-330 | a queued segment's own index is its position in the reply |
| `DialoguePipeline.RequestRun.constructor` | app/pipelines/dialogue.py:131-144 | a request starts with empty queues and one worker per configured count |
| `DialoguePipeline.RequestRun.ReceiveDelta` | app/pipelines/dialogue.py:146-152 | the delta itself is published, so that the deltas heard make up the full text, and the segmenter is fed |
| `DialoguePipeline.RequestRun.EndStream` | app/pipelines/dialogue.py:162-163 | the end of the stream flushes the segmenter |
| `DialoguePipeline.RequestRun.QueueSegment` | app/pipelines/dialogue.py:312-349 | the segment is announced with its text and its position in the reply, and its job carries that position as its index |
| `DialoguePipeline.RequestRun.BatchDone` | app/pipelines/dialogue.py:152-174 | an exhausted batch leads back to the stream or on to the sentinels |
| `DialoguePipeline.RequestRun.ProducerQuits` | app/pipelines/dialogue.py:173-176 | a producer that fails or is cancelled still sends every sentinel |
| `DialoguePipeline.RequestRun.PutSentinel` | app/pipelines/dialogue.py:173-176 | one sentinel per worker ends the job queue |
| `DialoguePipeline.RequestRun.TakeJob` | app/pipelines/dialogue.py:180-186 | a worker takes the oldest job, or leaves at a sentinel |
| `DialoguePipeline.RequestRun.Synthesized` | app/pipelines/dialogue.py:187-211 | a result, a failure or a time-out is the worker's result, and a success is registered and undiscarded |
| `DialoguePipeline.RequestRun.PublishAudio` | app/pipelines/dialogue.py:212-229 | the result is announced and queued under the index of its job |
| `DialoguePipeline.RequestRun.WorkerQuits` | app/pipelines/dialogue.py:185-233 | a worker that ends early still sends its farewell |
| `DialoguePipeline.RequestRun.WorkerExits` | app/pipelines/dialogue.py:232-233 | a worker's farewell is the last thing it queues |
| `DialoguePipeline.RequestRun.TakeAudio` | app/pipelines/dialogue.py:239-245 | the player counts a farewell or stores the result under its index |
| `DialoguePipeline.RequestRun.DrainPending` | app/pipelines/dialogue.py:246-269 | stored results are skipped or started, and all so far were 0, 1, 2, ... in this order |
| `DialoguePipeline.RequestRun.PlayEnds` | app/pipelines/dialogue.py:270-283 | played or not, a started result is registered still and has been handed to discard once |
| `DialoguePipeline.RequestRun.DiscardEnds` | app/pipelines/dialogue.py:282-285 | a discarded result is no longer registered and was discarded once |
| `DialoguePipeline.RequestRun.DiscardRaises` | app/pipelines/dialogue.py:282-287 | a failing discard keeps the result registered and ends the player |
| `DialoguePipeline.RequestRun.PlayerQuits` | app/pipelines/dialogue.py:240-247 | a player cancelled between results touches no registered audio |
| `DialoguePipeline.RequestRun.GroupEnds` | app/pipelines/dialogue.py:289-302 | the group ends after all its tasks, and normally only when the whole reply was said and each segment played or skipped |
| `DialoguePipeline.RequestRun.PlayerStopped` | app/pipelines/dialogue.py:303-305 | a player whose stop raises skips the final discards, which leaves audio exactly when any was left to clean up |
| `DialoguePipeline.RequestRun.DiscardRest` | app/pipelines/dialogue.py:306-310 | in the end every result was discarded once, or twice if its first discard failed |
| `TurnArbitrationProofs.StepKeeps` | app/core/turns.py:106-640 | every action of accept calls, runs, cancel, shutdown and lifecycle keeps the invariant of ownership, locks, priority, cancellation counts and published events |
| `TurnArbitrationResults.RunInv` | app/core/turns.py:106-640 | every state of every run satisfies that invariant |
| `TurnArbitrationResults.SingleOwner` | app/core/turns.py:123-193 | the active turn is open and alone in the session table, and only its run works or emits |
| `TurnArbitrationResults.UserPriority` | app/proactive/lifecycle.py:46-72 | from turn.accepted until priority ends no proactive task lives or can start, and before that a live one is cancelled already |
| `TurnArbitrationResults.TerminalIsFinal` | app/core/turns.py:533-543 | a terminal status never changes again, whatever cancellation, replacement, failure or shutdown follows |
| `TurnArbitrationResults.EndingDecides` | app/core/turns.py:238-281 | an interrupted run is cancelled, a raising one failed and any other completed, each with its own event |
| `TurnArbitrationResults.OnlyEndingsSettle` | app/core/turns.py:384-400 | no other step makes a turn failed or completed, and cancelled only a cancellation that finds no task at work |
| `TurnArbitrationResults.HowATurnEnded` | app/core/turns.py:238-281 | behind every terminal status in every run stands the ending that gave it |
| `TurnArbitrationResults.EndingStays` | app/core/turns.py:533-543 | and every ending gives its status for the rest of the run |
| `TurnArbitrationResults.OneTerminalEvent` | app/core/turns.py:212-308 | a terminal turn publishes exactly one terminal event, of the kind of its status, except that a completed user turn may still owe its own |
| `TurnArbitrationResults.ReplacementBarrier` | app/core/turns.py:123-161 | after turn.accepted of another turn, an earlier turn publishes nothing but its post-commit assistant.completed |
| `TurnArbitrationResults.PipelineClosedAlone` | app/core/turns.py:594-613 | once the pipeline is closed no run is inside it and none ever gets in |
| `TurnArbitrationProgress.CancellationsPerSide` | app/core/turns.py:465-475 | service and lifecycle each cancel a run at most once, and a user turn's run is cancelled at most once in all |
| `TurnArbitrationProgress.SecondCancellation` | app/proactive/lifecycle.py:136-145 | a second cancellation happens exactly when the lifecycle signals a live task that only the service has signalled |
| `TurnArbitrationProgress.ProactiveRunCancelledTwice` | app/core/turns.py:73-74 | a concrete run cancels one proactive task twice, so not every cancellation is one-shot |
| `TurnArbitrationProgress.NoDeadlock` | app/core/turns.py:106-210 | whenever the system cannot move by itself, all accept calls have returned, all runs have ended and no drain is waiting |
| `TurnArbitrationProgress.WorkFalls` | app/core/turns.py:106-640 | every internal action leaves less work on the existing turns |
| `TurnArbitrationProgress.SettlesWithin` | app/core/turns.py:106-640 | without new demands, at most that much work is done before everything is at rest |
| `TurnServices.ProactiveLifecycle.TryStart` | app/proactive/lifecycle.py:46-61 | a proactive run starts exactly when the lifecycle is open, no user has priority and no task is at work |
| `TurnServices.ProactiveLifecycle.BeginUserTurn` | app/proactive/lifecycle.py:63-68 | the turn gets priority and the current task is signalled in one step |
| `TurnServices.ProactiveLifecycle.SignalCancelLocked` | app/proactive/lifecycle.py:136-145 | the lifecycle signals its task once, and never a finished one |
| `TurnServices.ProactiveLifecycle.CancelActive` | app/proactive/lifecycle.py:79-85 | current proactive work is signalled, and the lifecycle stays open |
| `TurnServices.ProactiveLifecycle.Close` | app/proactive/lifecycle.py:111-117 | a closed lifecycle has signalled its task and starts no other |
| `TurnServices.ProactiveLifecycle.ClearTask` | app/proactive/lifecycle.py:103-109 | an ended task is forgotten unless another has taken its place |
| `TurnServices.TurnService.SignalActiveCancellationLocked` | app/core/turns.py:449-475 | the active turn is cancelled on the spot, or its live task is signalled once and returned for joining |
| `TurnServices.TurnService.CancelRegisteredTurn` | app/core/turns.py:435-447 | an open turn is cancelled, a terminal or unknown one is left alone |
| `TurnServices.TurnService.Cancel` | app/core/turns.py:402-427 | after a cancellation the turn is terminal or its live task has been signalled |
| `TurnServices.TurnService.CancelBeforeRun` | app/proactive/lifecycle.py:87-109 | a proactive task cancelled before it registers ends without touching any turn |
| `TurnServices.Backend.constructor` | app/main.py:93-136 | the wired composition starts in the initial state of the step system |
| `TurnServices.Backend.StartProactive` | app/proactive/lifecycle.py:46-61 | a started proactive run is the only one that lives, and no user turn has priority beside it |
| `TurnServices.Backend.CancelProactive` | app/proactive/lifecycle.py:79-85 | a proactive task that lives on has been told to stop |
| `TurnServices.Backend.CloseLifecycle` | app/proactive/lifecycle.py:111-117 | a closed lifecycle starts nothing any more |
| `TurnServices.Backend.ForgetProactive` | app/proactive/lifecycle.py:119-134 | a joined task that has ended is forgotten |
| `TurnServices.TurnService.ClearActiveLocked` | app/core/turns.py:545-551 | a turn releases only the ownership and the session entry that are its own |
| `TurnServices.TurnService.CallAccept` | app/core/turns.py:106-120 | a call waits for the accept lock without touching any turn |
| `TurnServices.TurnService.Acquire` | app/core/turns.py:123-125 | the holder of the accept lock claims user priority, and a proactive task that still lives is cancelled |
| `TurnServices.TurnService.LeaveProactiveJoin` | app/proactive/lifecycle.py:119-134 | the call goes on once the signalled proactive task has ended |
| `TurnServices.TurnService.SignalOld` | app/core/turns.py:126-131 | the previous turn is cancelled or its task signalled before the new one registers |
| `TurnServices.TurnService.LeaveOldJoin` | app/core/turns.py:127-128 | registration waits for the previous task |
| `TurnServices.TurnService.Register` | app/core/turns.py:133-161 | the turn becomes the active one as turn.accepted is published, with nothing proactive at work or able to start; or a closed service refuses it |
| `TurnServices.TurnService.Start` | app/core/turns.py:167-193 | a run starts only for a turn that is still accepted, active and wanted |
| `TurnServices.TurnService.FinishStart` | app/core/turns.py:188-190 | the control lock is kept until the run has begun |
| `TurnServices.TurnService.Abort` | app/core/turns.py:198-210 | a cancelled accept call gives up what it holds, or goes on to cancel its own turn |
| `TurnServices.TurnService.CancelOwn` | app/core/turns.py:198-206 | a failed accept call cancels its registered turn and joins its task |
| `TurnServices.TurnService.RunUser` | app/core/turns.py:232-235 | the run's first step makes the turn streaming, and it is the only run at work |
| `TurnServices.TurnService.Emit` | app/core/turns.py:221-230 | an event is published exactly while the token is not cancelled, and then only for the active, streaming turn |
| `TurnServices.TurnService.SetTerminalIfOpen` | app/core/turns.py:533-543 | an open turn becomes terminal, a terminal one is reported unchanged |
| `TurnServices.TurnService.EndRun` | app/core/turns.py:238-281 | commit, release of ownership, event and end of priority happen together: an interrupted run leaves its turn cancelled, one that raised failed, one that came to its end completed, with the event of that kind, which a completed user turn leaves to its post-commit; no run is at work afterwards |
| `TurnServices.TurnService.FinalizeCompleted` | app/core/turns.py:283-300 | a completed turn publishes its one terminal event after its commit |
| `TurnServices.TurnService.RegisterProactive` | app/core/turns.py:338-367 | a proactive turn registers only if the service is open and nobody is active, and then no user turn has priority; else it cancels itself |
| `TurnServices.TurnService.ShutDown` | app/core/turns.py:594-602 | closing and signalling the active turn are one step: an active turn has a live, signalled task from then on |
| `TurnServices.TurnService.Drain` | app/core/turns.py:604-610 | accept calls, then runs, then post-commit tasks are waited for, and no run is in the pipeline when it is closed |
| `Emotion.ChangeIsNearest` | app/emotion/engine.py:176-189 | the change made is the one nearest to the request that respects event limit, minute budget and range, and is reported as limited exactly when it differs from the request |
| `Emotion.BudgetAfter` | app/emotion/engine.py:236-249 | a change that the current window can afford keeps every half-open window of a minute within the budget |
| `Emotion.DriftWithinBudget` | app/emotion/engine.py:236-249 | no value drifts by more than the budget within a minute |
| `Emotion.RecentIsSpent` | app/emotion/engine.py:240-244 | the pruned entries are all that was spent in the window of the whole history |
| `Emotion.LabelsAfter` | app/emotion/engine.py:196-212 | an allowed change keeps labels held long enough and changes into explosion mode a cooldown apart |
| `Emotion.MapLabelIsFirst` | app/emotion/engine.py:251-272 | the label is the one called for by its thresholds while none of higher priority is |
| `Emotion.RestIsNeutral` | app/emotion/engine.py:251-272 | values at rest, without a focus, call for the neutral label |
| `Emotion.Settings.DecayTowardNeutral` | app/emotion/engine.py:150-154 | a decay asks for at most the distance to neutral |
| `Emotion.Settings.DecayComposes` | app/emotion/engine.py:150-154 | two unlimited decays in a row are one decay over the whole time |
| `EmotionEngines.EmotionEngine.Create` | app/emotion/engine.py:81-106 | limits outside their ranges are refused |
| `EmotionEngines.EmotionEngine.LimitDelta` | app/emotion/engine.py:236-249 | a request is cut to the event limit and to what is left of the minute, counted over the whole history |
| `EmotionEngines.EmotionEngine.Shift` | app/emotion/engine.py:176-188 | one dimension stays within 0 and 1 and its actual change is recorded unless it is zero |
| `EmotionEngines.EmotionEngine.Shifts` | app/emotion/engine.py:172-188 | all requested dimensions change independently of their order, the others not at all |
| `EmotionEngines.EmotionEngine.UpdateLabel` | app/emotion/engine.py:193-212 | a label change is made or suppressed by minimum duration and cooldown, and the label history stays in order |
| `EmotionEngines.EmotionEngine.Transit` | app/emotion/engine.py:163-234 | values, budget history, label and intensity after one event; the values stay the initial ones plus all recorded changes |
| `EmotionEngines.EmotionEngine.Apply` | app/emotion/engine.py:112-129 | a stimulus out of order or of the decay kind is refused without a trace; any other moves the dimensions of its rule in the rule's direction, by the rule times the intensity where event limit, minute budget and range have room and never further, and no other dimension; all of it is on record |
| `EmotionEngines.EmotionEngine.ApplySuggestion` | app/emotion/engine.py:131-142 | a suggestion acts in the same way as a stimulus whose intensity is intensity times confidence, at most a half |
| `EmotionEngines.FollowsActs` | app/emotion/engine.py:117-120 | what the limits make of a requested change moves every dimension of the rule as far as they have room and leaves the others |
| `EmotionEngines.EmotionEngine.Decay` | app/emotion/engine.py:144-161 | every value moves towards neutral and never beyond, within the limits of event and minute and on record; time never runs backwards, no time changes nothing |
| `EmotionEngines.SuggestionsAreWeak` | app/emotion/engine.py:131-142 | no suggestion asks for more than half of its rule |
| `MemoryTables.RunKeepsSchema` | app/storage/migrations/v001_initial.py:52-103 | after any operations: one row per value, one active row per key, references that exist, profiles under their memory's key |
| `MemoryTables.UpsertedFits` | app/storage/repositories.py:168-234 | once the old value is superseded the written row conflicts with no other |
| `MemoryTables.MemoriesContinue` | app/storage/repositories.py:160-234 | no operation changes key, type or creation time of a memory that stays, or lowers its scores |
| `MemoryTables.SeenAgain` | app/storage/repositories.py:209-234 | a value seen again adds no row, takes the better of both scores, and is active with its new text and source |
| `MemoryResults.StepRefines` | app/storage/repositories.py:158-408 | one operation does to the current values what its meaning as a map write says |
| `MemoryResults.LastWriteWins` | app/storage/repositories.py:158-408 | after any operations the active rows are exactly the last write of every user and key |
| `MemoryResults.OneActive` | app/storage/migrations/v001_initial.py:75-77 | a key has at most one active row |
| `MemoryResults.UpsertCoherent` | app/storage/repositories.py:235-255 | a successful upsert leaves profile and active memory of its key in agreement exactly when it writes a profile memory or the key has no profile |
| `MemoryResults.UpsertElsewhere` | app/storage/repositories.py:158-260 | the profiles of other keys are left as they are |
| `MemoryResults.EditCoherent` | app/storage/repositories.py:326-384 | an edit keeps every profile in agreement with its memory |
| `MemoryResults.WithoutCoherent` | app/storage/repositories.py:386-408 | deleting and clearing keep profiles in agreement |
| `MemoryResults.ProfileFollows` | app/storage/repositories.py:158-408 | while a key keeps one memory type, its profile is the value of its active memory after any operations |
| `MemoryResults.ProfileGoesStale` | app/storage/repositories.py:235-255 | a concrete key that changes type keeps the profile of its superseded memory |
| `MemoryRepositories.MemoryRepository.Upsert` | app/storage/repositories.py:158-260 | it fails exactly on a changed type, a broken check or a taken id and then changes nothing; else it supersedes, inserts or refreshes |
| `MemoryRepositories.MemoryRepository.UpdateContent` | app/storage/repositories.py:326-384 | it fails exactly on a credential, a duplicate or empty value or a repeated edit and then changes nothing; else row, profile and source change together |
| `MemoryRepositories.MemoryRepository.Delete` | app/storage/repositories.py:386-400 | a memory goes with its profile and sources, and only for its owner if one is given |
| `MemoryRepositories.MemoryRepository.Clear` | app/storage/repositories.py:402-408 | all memories of the user go, and nobody else's |
| `MemoryRepositories.RowConstraints` | app/storage/repositories.py:168-234 | the unique constraints can never refuse an upsert's write |
| `MemoryRepositories.OneProfilePerMemory` | app/storage/repositories.py:235-255 | no other key's profile belongs to the written memory |
| `ContextEpoch.RevocationRespected` | app/memory/runtime.py:89-102 | a snapshot returned after a mutation was announced was read wholly after that mutation |
| `ContextEpoch.RetriesBounded` | app/memory/runtime.py:89-96 | a call is retried at most once per invalidation that happens while it is under way |
| `ContextEpoch.SnapshotRespectsEnded` | app/memory/runtime.py:89-102 | a returned snapshot respects all mutators that have ended exactly when each one that failed unannounced had finished writing before the snapshot's first read |
| `ContextEpoch.FailedMutatorMissed` | app/memory/runtime.py:396-438 | a concrete mutator that fails between write and invalidation is missed by a snapshot that is returned later |
| `ContextEpoch.StepKeeps` | app/memory/runtime.py:89-102 | while the epoch stands still a round has begun after every announced write |
| `ContextSources.ContextSource.Begin` | app/memory/runtime.py:91-92 | a round begins after every announced write |
| `ContextSources.ContextSource.Finish` | app/memory/runtime.py:94-96 | a returned snapshot was read wholly after every announced mutation; one that is not returned met an announcement and is retried |
| `ContextSources.ContextSource.Announce` | app/memory/runtime.py:98-102 | no snapshot under way can be returned any more without being built anew |
| `ChangeDetection.DistanceBounds` | app/perception/change_detection.py:39-44 | the distance of two hashes is symmetric, zero only for equal ones, and never beyond the bits counted |
| `ChangeDetection.DifferingBitsCount` | app/perception/change_detection.py:40-44 | what is counted is the number of bit positions in which the hashes differ |
| `ChangeDetection.BitLengthBounds` | app/perception/change_detection.py:41-43 | a hash is as long as it takes to write it |
| `ChangeDetection.SameFrameIsSame` | app/perception/change_detection.py:37-46 | a frame is told apart from itself only by a limit of zero on hashes |
| `ChangeDetection.FrameChangeDetector.ChangeIsSeen` | app/perception/change_detection.py:30-46 | the detector's fields see a change exactly where the last commit in the whole history tells the frames apart |
| `ChangeDetection.TouchLast` | app/perception/change_detection.py:58-66 | touching a window and trimming keeps exactly the most recently committed windows |
| `ChangeDetection.FrameChangeDetector.Compare` | app/perception/change_detection.py:30-53 | a frame counts as changed exactly when another window was committed last or the last commit's frame is told apart from it: by the share of differing bits, or by the digest where a hash is missing; the very same frame is unchanged while the limit is above zero; an unchanged frame carries its window's last verdict |
| `ChangeDetection.FrameChangeDetector.Commit` | app/perception/change_detection.py:55-66 | every stored sensitive bit is the verdict of its window's last checked commit, however long the chain of unchanged frames |
| `ChangeDetection.FrameChangeDetector.Trim` | app/perception/change_detection.py:64-66 | only the least recent windows are forgotten |
| `ChangeDetection.FrameChangeDetector.Reset` | app/perception/change_detection.py:68-70 | nothing is remembered after a reset |
| `Perception.OcrRedactionRegions` | app/perception/pipeline.py:366-388 | there are regions exactly when all recognized text has a box in the frame, and they are its boxes, each once |
| `Perception.ClearOnlyAfterChecks` | app/perception/pipeline.py:135-335 | a context that is not sensitive is returned only for a changed frame that itself passed OCR and content guard, with a redacted summary |
| `Perception.StoredVerdicts` | app/perception/pipeline.py:174-225 | the detector hears a verdict only from a guard decision on the frame or from the window's previous one |
| `Perception.DisabledResets` | app/perception/pipeline.py:516-518 | an observation ends as disabled exactly when it resets the detector |
| `Perception.EnabledNeverResets` | app/perception/pipeline.py:341-349 | with the feature on throughout, no observation ends as disabled |
| `Perception.SendsOnlyWhenSafe` | app/perception/pipeline.py:244-298 | a frame is sent only with both features on, the guard passed, all text located and a new sanitized frame |
| `Perception.WorksWhenAllIsWell` | app/perception/pipeline.py:135-335 | when every adapter answers, a changed frame yields the cloud's context, with a known category or the local one, its redacted summary and its confidence brought into range, and an unchanged one its old verdict |
| `Perception.LocalFallback` | app/perception/pipeline.py:244-286 | without a cloud, or when text cannot be located, the limiter refuses or the frame cannot be redacted, a checked frame yields the local context with that reason |
| `Perception.CloudClosedLater` | app/perception/pipeline.py:265-310 | a cloud gate that closes on the way leaves the local context |
| `Perception.FailuresAreNamed` | app/perception/pipeline.py:135-240 | with the feature on the first failure names the result and stores nothing, and what a guard blocks is reported as sensitive |
| `PerceptionRuns.UnchangedRepeatsVerdict` | app/perception/pipeline.py:174-189 | in every sequence of observations, failures and resets, an unchanged frame is reported as sensitive exactly when the last verdict on its window, given on a frame whose text was read, was to block |
| `PerceptionRuns.ChainsKeepVerdict` | app/perception/change_detection.py:55-66 | every unchecked commit in the history repeats the verdict known for its window before it, so that a chain of unchanged frames keeps the verdict of the frame that was judged |
| `PerceptionRuns.CommitsAreJudged` | app/perception/pipeline.py:205-225 | every checked commit comes from an observation that read the frame's text and had the guard's verdict on it |
| `PerceptionRuns.ClearNeedsJudgement` | app/perception/pipeline.py:399-418 | whatever came before, a scene is reported as clear only by an observation that judged its own frame |
| `PerceptionRuns.UnchangedExactly` | app/perception/pipeline.py:160-189 | in every sequence an observation ends as unchanged exactly when its frame is compared and could be committed, the last commit is of its window, and its frame is not told apart from that one: no frame that far away is passed over |
| `PerceptionRuns.SameFrameAgain` | app/perception/pipeline.py:160-189 | the same frame again, with nothing committed in between, ends as unchanged |
| `PerceptionPipelines.PerceptionPipeline.DetectorFits` | app/perception/change_detection.py:30-53 | the detector's answers are those the sequences of observations assume: exactly the changes the last commit shows, and the known verdict |
| `PerceptionPipelines.CancelledKeeps` | app/perception/pipeline.py:329-335 | a cancelled observation leaves the detector as it was |
| `PerceptionPipelines.PerceptionPipeline.SafeResult` | app/perception/pipeline.py:399-418 | a result is returned only while the feature is on and after its commit |
| `PerceptionPipelines.PerceptionPipeline.Screen` | app/perception/pipeline.py:162-194 | an unchanged frame ends the observation with the stored verdict |
| `PerceptionPipelines.PerceptionPipeline.ReadFrame` | app/perception/pipeline.py:196-236 | a frame whose text is blocked is committed as sensitive |
| `PerceptionPipelines.PerceptionPipeline.Sanitize` | app/perception/pipeline.py:244-297 | what goes on to the cloud is the sanitizer's frame with configured, guarded and text regions blacked out, and the raw one is wiped |
| `PerceptionPipelines.PerceptionPipeline.ObserveOnce` | app/perception/pipeline.py:135-335 | on every exit, cancellation included, every buffer that capture, OCR or sanitizer handed over is wiped, and the cloud is called exactly when allowed |
| `PerceptionPipelines.CloudVision.Analyze` | app/perception/pipeline.py:287-298 | whenever a frame is sent it is fully redacted and not the raw one, and the raw frame and its text are wiped already |
| `PerceptionPipelines.PerceptionPipeline.Observe` | app/perception/pipeline.py:114-133 | a disabled feature or a cancellation by the life cycle ends as disabled with a reset detector |
| `KeyLocks.MutualExclusion` | app/clients/tts/gpt_sovits.py:218-228 | at most one synthesis is in the critical section of a cache key, even as entries are dropped and made anew |
| `KeyLocks.RegisteredWhileUsed` | app/clients/tts/gpt_sovits.py:351-367 | an entry is registered exactly as long as somebody waits or is inside, and counts them all |
| `KeyLocks.StrandedBy` | app/clients/tts/gpt_sovits.py:598-613 | a lock is left taken without a holder exactly by cancelling a waiter that was just granted it while others wait |
| `KeyLocks.WaiterStranded` | app/clients/tts/gpt_sovits.py:598-613 | a concrete run strands a waiter |
| `KeyLocks.StrandedStays` | app/clients/tts/gpt_sovits.py:598-613 | a stranded lock stays so until its last waiter gives up |
| `KeyLockRegistries.KeyLockRegistry.Request` | app/clients/tts/gpt_sovits.py:351-353 | a user joins the registered entry of its key, or makes one |
| `KeyLockRegistries.KeyLockRegistry.Abandon` | app/clients/tts/gpt_sovits.py:356-360 | a waiter that gives up leaves, and the last one takes the entry out |
| `KeyLockRegistries.KeyLockRegistry.Release` | app/clients/tts/gpt_sovits.py:363-367 | the holder unlocks and leaves, and the last user takes the entry out |
| `CacheCleanup.CacheDirectory.Cleanup` | app/clients/tts/gpt_sovits.py:692-738 | leased regular files stay; links and expired files go; evictions are the shortest oldest-first prefix that makes the rest fit; afterwards the rest fits or is leased |
| `CacheCleanup.CacheDirectory.Sweep` | app/clients/tts/gpt_sovits.py:710-724 | exactly the links and the unleased expired files go, and the other regular files become entries |
| `CacheCleanup.CacheDirectory.Evict` | app/clients/tts/gpt_sovits.py:726-738 | unleased entries go oldest first and no further than needed |
| `CacheCleanup.FitsOrNothingLeft` | app/clients/tts/gpt_sovits.py:726-738 | what remains fits, or nothing that may be evicted is left |
| `CacheCleanup.SortSorts` | app/clients/tts/gpt_sovits.py:729-729 | the eviction order is the entries sorted by age |
| `Luhn.LuhnValid` | app/memory/privacy.py:53-63 | the left-to-right parity loop agrees with the right-to-left rule of Annex B of ISO/IEC 7812-1 |
| `Luhn.ContributionIsDigitSum` | app/memory/privacy.py:53-63 | a doubled digit adds the digit sum of its double |
| `Luhn.ExactlyOneCheckDigit` | app/memory/privacy.py:53-63 | every prefix has exactly one valid check digit |
| `Luhn.SingleErrorDetected` | app/memory/privacy.py:53-63 | changing one digit of a valid number makes it invalid |
| `Luhn.TranspositionDetected` | app/memory/privacy.py:53-63 | swapping unequal neighbours of a valid number is detected exactly unless they are 0 and 9 |

## Left out

- Routes, command line, logging, wall-clock metrics, uuid generation and pydantic field validation.
- Network, device and image adapters beyond their success, failure, time-out or interruption; wave files and HTTP bodies.
- The regular expressions for credentials, personal data and addresses, full-text search, and the order in which
  `list_items` returns the active rows.
- The rate limiter, expression mapping, proactive scoring, settings tables and local scene classification: simpler
  relatives of what is modelled.
- The optional segment decorator of the dialogue pipeline, which is taken to keep text and index, and an adapter that
  raises a cancellation nobody asked for.
- A second cancellation of the same request or accept call from outside while it cleans up after the first one.
- Sessions' event queues and observers of turns: publishing and observing do not change arbitration.
- A shutdown called from inside one of the service's own tasks.
- The bookkeeping of partial cache files, which are removed by age alone.
- The generation number in a perception context, and the feature listeners that flip the gates; gates are arbitrary
  inputs at every point where the pipeline reads them.
- In `ObserveOnce` the waits for adapters are not split up; a detector reset by another task meanwhile is part of the
  sequences in `PerceptionRuns.dfy` only.
- Key locks: that a waiter is ever granted the lock is not claimed, because it can be stranded.
- Segmentation.Settings.DrainPieces: a sentence may exceed the maximum length, because the code puts no cap on it.
- The columns of a memory row that no rule looks at: related emotion and the time it was last seen.
