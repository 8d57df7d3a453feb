# Gimbal: the protocols, proved

Gimbal runs durable multi-agent workflows. Its hard code keeps promises across lost acknowledgements, crashes and
concurrent operators, and transforms or searches data with real specifications. This Dafny project models that code
and proves those promises. `dafny verify dfyconfig.toml` checks all of it.

Two forms appear side by side. A protocol is a transition system: each label is one region that the code runs under a
lock, one answer of an outside party, or a crash, and the theorems hold of every run. Beside it a class keeps the
code's own fields and loops. Where a method is one region its contract equates the new state with that one step. Where
it talks to others on the way, as the recovery loops and a command do, its contract fixes every step from what was said:
the labels are the image of the words exchanged with the network (`RecoveryWords.Told`), or the script that the world's
answers determine (`ReplayRun.Script`). So the theorems are about what the loops send and return. Algorithms without a
protocol are methods proved against a specification function. What the specification functions themselves compute is said
a second time in other words, of the caller's own data: in `interaction_transcript.dfy` and `interaction_steps.dfy`,
`schema_keywords.dfy`, `recovery_steps.dfy`, `replay_intents.dfy`, and in the lemmas named `...Exactly` of the other files.

| Part | Files |
|---|---|
| Durable interaction: acceptance, the consumer loop, crash and re-entry, the journal's cache | `interaction.dfy`, `interaction_proofs.dfy`, `interaction_theorems.dfy`, `interaction_process.dfy`, `interaction_prompts.dfy`, `interaction_transcript.dfy`, `interaction_steps.dfy`, `interaction_run.dfy` |
| Counters restored from an unordered journal map, and the journals that a session writes | `positions.dfy`, `generations.dfy` |
| Embedding a JSON Schema under a private definition, on trees and in place on a heap | `json_pointer.dfy`, `schema.dfy`, `schema_keywords.dfy`, `schema_store.dfy` |
| Codex: recovery of a lost turn, the two answer selectors, the transcript projector, the bounded notification queue | `recovery.dfy`, `recovery_steps.dfy`, `recovery_daemon.dfy`, `recovery_late.dfy`, `recovery_words.dfy`, `recovery_call.dfy`, `answers.dfy`, `answers_thinned.dfy`, `projector.dfy`, `notifications.dfy` |
| Hand-offs: OpenCode steers, release of native sessions | `steer_queue.dfy`, `steer_lost.dfy`, `release.dfy` |
| Commands that survive crashes | `replay.dfy`, `replay_again.dfy`, `replay_intents.dfy`, `replay_run.dfy` |
| Scoped secrets | `secrets.dfy` |
| File names, excerpts, clipping, the artifact worklist | `file_names.dfy`, `excerpts.dfy`, `task_files.dfy` |

## What turned out not to hold everywhere

Each is a lemma with a concrete input or a reachable run; beside it stands a lemma that says exactly when the code does
meet the promise.

- A message steered into a turn that then fails is left pending, and the next occurrence at the address prompts with
  it (`InteractionTheorems.SteerIsReused`). A prompt was steered before exactly when it is stored as delivered
  (`InteractionTheorems.PromptWasSteered`). Within one occurrence it never happens (`InteractionTheorems.PromptOrSteer`).
- A steer whose effect is unknown is never sent again, but a prompt is: when nobody knows how its turn ended, the
  occurrence keeps it, and a later process asks for it a second time (`InteractionPrompts.UncertainPromptIsResent`). After
  the provider's session error one process asks twice itself, though the first turn's outcome is recorded
  (`InteractionPrompts.ProviderErrorAsksTwice`). `InteractionPrompts.PromptAgainExactly` says exactly when a prompt can be
  asked for again: it is still its occurrence's own, and its generation can come to a turn without an outcome. Begun again
  over the record, that is the first turn, or the second if the first is recorded as that provider error; as it is under
  way in this process, it is a turn that is due or may still follow. `InteractionPrompts.PromptAfterTurn` gives the
  condition at the end of a generation. One process asks no turn twice (`InteractionProcess.TurnOncePerProcess`) and at most
  four turns for a prompt (`InteractionProcess.FourTurnsAtMost`).
- An invalid answer is asked for again by the process that got it, but is recorded as a plain error. A later process hears
  that error, even if a good answer to the second question is recorded too (`InteractionPrompts.GoodAnswerIsLost`);
  `InteractionPrompts.LaterOutcome` says which turn's record it hears.
- A reference that spells `$defs` with a percent escape is redirected and then dangles (`Schema.EncodedHeadDangles`).
  A resolving reference keeps its meaning if and only if its head is spelled literally (`Schema.ReferenceMeaning`).
- After a lost reply, recovery finds its turn by the prompt, once for every user message that equals it. Completed work
  can be asked for again if and only if the prompt is not exactly one message of the turn
  (`RecoveryDaemon.CompletedWorkIsRepeated`); `RecoveryDaemon.RestartExactly` covers every state.
- Two assignments can run at once when a start arrives after its reply was given up (`RecoveryLate.TwoMayRun`). The network
  alone can bring that about from some point of a history if and only if a recovery start went out while an earlier start
  was in the air or ran (`RecoveryLate.TwoRunExactly`). For that the client must have looked while a start was in the air
  (`RecoveryLate.NeverTwoIfSure`, `RecoveryLate.RestartRisk`). Without late arrivals it never happens
  (`RecoveryDaemon.NeverTwoRunning`).
- When the notification queue discards the start frames of messages, the live answer can differ from the one that history
  gives (`ThinnedAnswers.ThinningChangesTheAnswer`). It stays the same message if and only if no rival message lost its
  first frame and now comes after the answer's (`ThinnedAnswers.ThinnedAnswer`).
- Restored counters depend on the map's iteration order when two interactions share a session
  (`Generations.OrderCanMatter`). A session that one interaction at a time uses keeps one position for every input, so
  there the order never matters (`Generations.AloneKeepsOne`); `Generations.OnePositionExactly` names the step that breaks
  it, and `Positions.OrderFreeExactly` when a given journal is free of the order.

- A steer that was reported as landed can still be lost (`SteerLost.LandedIsLost`): if and only if its turn is detached or
  its loop on the way out while it waits (`SteerLost.LostExactly`), which only Close and an interruption bring about
  (`SteerLost.LostByExactly`). Through an empty queue none is lost (`SteerQueue.ClosedStaysDrained`).
- A dispatched command can be dispatched again after a restart if and only if no outcome of it is committed
  (`ReplayAgain.DispatchedAgainExactly`).
- The artifact worklist remembers spellings. One artifact is listed twice if and only if two paths that can be reached come
  to it (`TaskFiles.ListedTwiceExactly`), which some prompt does for every artifact (`TaskFiles.ArtifactListedTwice`).

## Model

| member | source | states |
|---|---|---|
| InteractionTheorems.ConsumedOnce | interactive.go:393-413 | over every run, with accepts, steers, completions and crashes interleaved, each consumed list is free of duplicates and no message is consumed by two occurrences |
| InteractionTheorems.PromptOrSteer | interactive.go:189-294 | within one occurrence a message is its turn's prompt or a landed steer, never both |
| InteractionTheorems.SteerNeverResent | interactive.go:219-245 | after a steer whose effect is unknown nothing with its id is sent, as steer or prompt, until a later answer says it was not taken; a steer that nobody answered is stored as inflight, uncertain or unprocessed |
| InteractionTheorems.DeliveredOnlyWhileActive | interactive.go:219-294 | a delivered, unconsumed input was steered into some occurrence, and every occurrence it landed in still has an active input |
| InteractionTheorems.ShownOnce | interactive.go:264-294 | each message appears at most once in all transcripts taken together |
| InteractionTheorems.TranscriptsGrow | interactive.go:414-522 | over any extension of any run transcripts and consumed lists grow only by appending, an ended occurrence never changes, accepted contents never change, and the address of an accepted finish takes no new id |
| InteractionTheorems.FinishStopsActivation | interactive.go:131-142 | no input becomes active in an occurrence that holds a finish or while one is pending at its address |
| InteractionTheorems.PromptWasSteered | interactive.go:161-200 | the input that becomes active was steered into an earlier occurrence if and only if it is stored as delivered |
| InteractionTheorems.SteerIsReused | interactive.go:307-319 | a concrete run in which a steer landed in a failed turn becomes the next occurrence's prompt |
| InteractionPrompts.PromptAgainExactly | session.go:280-316 | for every prompt that was taken up, at any point of any run: some continuation asks the harness for it if and only if it is still active in its occurrence and its generation, over the recorded turns or as it is under way, can come to a turn without an outcome |
| InteractionPrompts.NeverAgain | session.go:405-419 | where that fails, no turn of the prompt is asked by any continuation |
| InteractionPrompts.PromptAfterTurn | interactive.go:255-330 | however a generation ends, its prompt can be asked for again afterwards if and only if the recorded turns leave one to ask and the completion was not written or left the prompt; what it leaves is said of the answer, the queue and the occurrence as they are before it |
| InteractionPrompts.UncertainPromptAgain | interactive.go:296-306 | for a turn whose outcome is unknown: as long as the recorded turns lead to it again, exactly unless a stop and no finish was queued for a prompt known to have arrived, no delivery was in doubt, and all that was committed |
| InteractionPrompts.UncertainPromptIsResent | interactive.go:299-306 | a concrete run in which a prompt whose turn's outcome is unknown is asked for again |
| InteractionPrompts.ProviderErrorAsksTwice | session.go:296-305 | a concrete run without a crash in which a prompt is asked for twice, over a recorded first turn |
| InteractionPrompts.LaterOutcome | replay.go:57-92 | a generation whose recorded turns leave none to ask asks nothing and ends as the first turn's record says, or the second's if the first is a provider error |
| InteractionPrompts.GoodAnswerIsLost | session.go:305-316 | a concrete run in which a good answer is recorded and a later process hears the invalid one's error |
| InteractionProcess.PromptOncePerProcess | interactive.go:83-216 | after the step that takes a prompt up, no continuation without a crash takes it up again |
| InteractionProcess.TurnOncePerProcess | session.go:280-316 | after the step that asks a turn, no continuation without a crash asks that turn again |
| InteractionProcess.FourTurnsAtMost | session.go:250-253 | in every run the turns asked for a prompt are among the first four of its generation |
| InteractionProcess.ReadEnoughRun | replay.go:12-28 | over any run without a crash, what a process read when it opened the run stays true, and every turn recorded since is one that it is beyond |
| InteractionProcess.ReadIsRecorded | session.go:405-419 | so a turn that is due has an outcome, and which, if and only if the process read it then |
| InteractionTranscripts.CompletionExactly | interactive.go:255-330 | in every run: the whole effect of a completion on the occurrence, the stored inputs and the consumer, said of the answer, the queue and the two writes; what is shown is the prompt, the landed steers in order and the reply |
| InteractionTranscripts.RepliesExactly | interactive.go:307-313 | in every run: a chat reply that ends a turn is the last entry of the transcript, and no other step ever adds an entry of the agent's |
| InteractionTranscripts.TranscriptsAreSpoken | interactive.go:264-290 | over every run, each entry of the human's is word for word the message accepted under its id |
| InteractionSteps.AcceptExactly | interactive.go:460-522 | when a message is accepted, a duplicate, a conflict or rejected, and what that changes |
| InteractionSteps.AcceptedForGood | interactive.go:468-480 | over any extension of any run an accepted message stays a duplicate of itself and a conflict with any other under its id |
| InteractionSteps.QueueExactly | interactive.go:393-413 | the queue has, in the order of acceptance, exactly the unconsumed inputs of the address that are not closed |
| InteractionSteps.SteerExactly | interactive.go:219-233 | what is passed over, what is steered, and what is stored before |
| InteractionSteps.AnswerExactly | interactive.go:234-244 | what each answer to a steer stores and shows |
| InteractionSteps.WakeExactly | interactive.go:253-254 | a wakeup looks at the whole queue |
| InteractionSteps.CloseExactly | interactive.go:542-567 | closing a scope makes exactly the unconsumed inputs of it and below unprocessed, but uncertain ones |
| InteractionSteps.LookExactly | interactive.go:130-216 | with no turn running the first finish ends the occurrence, a prompt is taken up again, and where nothing is left it waits |
| InteractionSteps.HeadExactly | interactive.go:161-215 | what becomes of the head of the queue |
| InteractionSteps.FollowExactly | session.go:294-315 | which answers are asked for again, how often, and how a generation ends otherwise |
| InteractionSteps.ReturnExactly | run_recording.go:138-169 | what the end of a turn changes: the record, its own generation, and nothing else |
| InteractionSteps.ThirdTurnIsAsked | session.go:310-316 | a run in which two invalid answers are followed by a third turn |
| InteractionProofs.StepKeeps | interactive.go:123-332 | the inductive invariant, loops and snapshots included, is kept by every step |
| InteractionProofs.RunKeeps | interactive.go:83-332 | so it holds of every reachable world |
| InteractionRuns.ReplayIsIdempotent | interactive.go:345-392 | replaying a journal suffix that the cache already holds changes nothing but catches up ended scopes, order of acceptance included |
| InteractionRuns.FoldIndexed | interactive.go:378-385 | the acceptance order lists exactly the accepted ids, each once |
| InteractionRuns.InteractionRun.Append | interactive.go:354-372 | a record written by someone else leaves the cache able to catch up, and in step if it was |
| InteractionRuns.InteractionRun.RefreshInteractions | interactive.go:345-392 | brings the cache to exactly what the journal says, in batches, from any cursor |
| InteractionRuns.InteractionRun.PendingInput | interactive.go:393-413 | the two loops compute the pending queue in acceptance order |
| InteractionRuns.InteractionRun.UpdateInput | interactive.go:335-341 | journal and cache change together, or not at all |
| InteractionRuns.InteractionRun.CommitInteraction | interactive.go:414-454 | an occurrence is journalled and cached, or nothing changes |
| InteractionRuns.InteractionRun.Busy | interactive.go:489-495 | finds a conversation that is not ready for a model change, exactly when there is one |
| InteractionRuns.InteractionRun.AcceptInputAtTurn | interactive.go:460-522 | gives the specified verdict and accepts, repeats, conflicts or rejects accordingly |
| InteractionRuns.InteractionRun.CloseInteractionInputs | interactive.go:542-567 | closes the unconsumed inputs of a scope in order, up to the first refused write |
| InteractionRuns.InteractionRun.Enter | interactive.go:83-108 | answers an occurrence that is over, refuses an address that already has a consumer, and otherwise starts one, restored or new |
| InteractionRuns.InteractionRun.Look | interactive.go:127-216 | with no turn running, takes the finish, the active input, the head of the queue, or waits |
| InteractionRuns.InteractionRun.LoadReplay | replay.go:12-28 | the loop over the journal keeps the last outcome of every turn, unless that is unresolved |
| InteractionRuns.InteractionRun.TakeInput | interactive.go:161-215 | refuses an unresolved input, consumes a configuration or stop, or commits the prompt and begins its generation |
| InteractionRuns.InteractionRun.Wake | interactive.go:253-254 | takes a fresh snapshot of the queue while the turn runs, and leaves the cache in step with the journal |
| InteractionRuns.InteractionRun.SteerNext | interactive.go:219-233 | an input is stored as inflight before it is sent, and only if the snapshot had it pending |
| InteractionRuns.InteractionRun.SteerAnswered | interactive.go:234-244 | the answer is stored as uncertain, delivered or pending |
| InteractionRuns.InteractionRun.ServeWake | interactive.go:217-254 | one wakeup with the loop over its snapshot is a run of the machine beginning with that wakeup, and serves the whole snapshot or ends the consumer |
| InteractionRuns.InteractionRun.AskTurn | session.go:405-419 | a turn whose outcome was read is answered from it, any other is asked |
| InteractionRuns.InteractionRun.ReturnTurn | run_recording.go:138-169 | a turn's outcome is recorded under its occurrence, prompt and place unless it is unknown or the write is refused, and the generation moves on as the retry rules say |
| InteractionRuns.InteractionRun.GenerateResponse | session.go:257-316 | the loop over the turns is a run of the machine, and with what is said to four turns it has ended |
| InteractionRuns.InteractionRun.SettleQueue | interactive.go:275-294 | the loop consumes finishes, stops and delivered steers, and finds a finish or stop if there is one |
| InteractionRuns.InteractionRun.CloseTurn | interactive.go:298-325 | unresolved, failed, invalid, chat, end and finish outcomes, with the unconfirmed stop |
| InteractionRuns.InteractionRun.CompleteTurn | interactive.go:255-330 | the completed turn is recorded, closed over the queue and committed as specified |
| Positions.Session.RestoreInteraction | session.go:1046-1083 | for any iteration orders of the two loops the counters are the active position's or the largest owned |
| Positions.Session.BeginGeneration | session.go:258-262 | a generation takes the next ordinal and remembers the turns before it |
| Positions.Session.Reenter | session.go:1046-1083 | the next generation reuses exactly the ordinals of the active position that the walk ends with, or exceeds every generation and turn that the interaction owns |
| Positions.OrderFreeExactly | session.go:1052-1066 | the iteration order cannot matter if and only if all nodes holding a position of the active input agree |
| Positions.RecordedExactly | session.go:1052-1080 | the positions that count are those of the session and the interaction at any node, the turns those below a node that holds one |
| Positions.FoundExactly | session.go:1061-1064 | a walk ends with the last position of the active input at the last node that has one |
| Generations.OnePositionExactly | session.go:257-272 | over every run of a session, with restarts and other generations between, each input has one position at all times if and only if none that has one is generated for at an ordinal without |
| Generations.OneAfterExactly | session.go:268-272 | the same for each single step |
| Generations.AloneKeepsOne | session.go:1046-1083 | while a re-entered interaction generates before anything else on its session does, every input keeps one position and the walk's order is free |
| Generations.OrderCanMatter | session.go:1046-1083 | a concrete run of two interactions on one session after which the order matters |
| Generations.CountersAreDetermined | session.go:1046-1083 | in every journal of a session used by one interaction at a time the restored counters do not depend on the iteration orders |
| JsonPointer.PrependRef | claude/claude.go:543-545 | the tokens of a reference after a new leading segment |
| Schema.FreshName | claude/claude.go:471-476 | the loop ends and yields the first name of its kind that is free |
| Schema.FreshIsUnique | claude/claude.go:471-476 | that name is determined by the definitions |
| Schema.ResolveRewrite | claude/claude.go:518-563 | rewriting commutes with following any pointer |
| Schema.UntouchedIsIdentity | claude/claude.go:533-547 | instance data and everything inside a nested resource is unchanged |
| Schema.PositionImage | claude/claude.go:455-516 | every node of the caller is found at its new place, rewritten |
| Schema.DanglingStays | claude/claude.go:489-516 | what dangled still dangles, with two exceptions given exactly: the private name itself, and the pointer to the definition map of a caller that had none |
| Schema.RedirectedTokens | claude/claude.go:543-545 | a redirected reference names the relocated node |
| Schema.UnredirectedHead | claude/claude.go:543-543 | a pointer reference that is left alone starts at a hoisted key |
| Schema.ReferenceMeaning | claude/claude.go:455-563 | a local pointer reference that resolved still resolves to the rewritten image of its target, if and only if its head is spelled literally |
| Schema.EncodedHeadDangles | claude/claude.go:543-545 | a percent-encoded spelling that resolves before and dangles after |
| Schema.OccurrenceImage | claude/claude.go:528-547 | at the root or anywhere below, a reference keyword holds the redirected text, data and nested resources the caller's |
| Schema.OwnResourceIsKept | claude/claude.go:477-489 | a caller with its own identifier is embedded as it stands |
| SchemaKeywords.LeafExactly | claude/claude.go:518-563 | every text and number of the caller is found in the composed document; a text is redirected if and only if it stands under a reference keyword of a schema outside every own resource, all else is unchanged |
| SchemaKeywords.ContainerExactly | claude/claude.go:518-563 | objects keep their members and arrays their length |
| SchemaKeywords.DataIsKept | claude/claude.go:533-538 | what a schema holds under const, default, enum or examples, and everything below, is the caller's |
| SchemaKeywords.ReferenceIsRedirected | claude/claude.go:539-546 | a text under $ref, $dynamicRef or $recursiveRef of a schema outside every $id is redirected |
| SchemaKeywords.ResourceIsKept | claude/claude.go:525-527 | below a schema with its own $id everything is the caller's |
| SchemaKeywords.NamedIsSchema | claude/claude.go:529-532 | the values under the five keywords that name schemas are schemas |
| SchemaKeywords.ModeExactly | claude/claude.go:524-548 | the walk treats a node as a schema exactly at the schema positions |
| SchemaKeywords.ValueIsTheCaller | claude/claude.go:490-502 | the envelope's value refers to the private definition, and that is the caller's root |
| SchemaKeywords.EnvelopeAsks | claude/claude.go:491-508 | the envelope requires one of two states and allows a message, a value and nothing else |
| SchemaStore.Frame | claude/claude.go:518-550 | a tree outside the written objects keeps its value |
| SchemaStore.JsonStore.RewriteLocalRefs | claude/claude.go:518-550 | the in-place walk turns the tree in the heap into the rewritten tree and writes nothing outside it |
| SchemaStore.JsonStore.RewriteMember | claude/claude.go:528-548 | one member: a name map, instance data, a reference or a subschema |
| SchemaStore.JsonStore.RewriteSchemaNameMap | claude/claude.go:555-563 | the values of a name map are rewritten, the names kept |
| SchemaStore.JsonStore.CopyDefs | claude/claude.go:464-470 | the shallow copy shares the definitions that the walk then rewrites |
| SchemaStore.JsonStore.CompletionSchema | claude/claude.go:455-516 | the copy taken before the walk, the deletions and the insertions build the composed document, hoisted definitions rewritten |
| Recovery.StepKeeps | codex/recovery.go:85-246 | the invariant of the recovery machine is kept by every answer and every act of the operator |
| Recovery.StartsAreBounded | codex/recovery.go:85-246 | whatever replies are lost: at most one start plus one per resume, at most one resume taken per pause, at most three reads of history per start and resume |
| Recovery.ResumeIsNotLost | codex/codex.go:488-501 | a resume reported as landed is the one the paused call takes |
| Recovery.RestartIsJustified | codex/recovery.go:178-193 | a recovery start needs a confirmation and a snapshot that is idle with the tracked turn neither completed nor failed |
| Recovery.StartsOnlyHere | codex/recovery.go:178-193 | starts are sent from nowhere else |
| Recovery.AnswerWasGiven | codex/recovery.go:137-149 | an answer is one that a stream ended with, or the nonblank answer of the tracked turn in a snapshot that shows it completed |
| RecoverySteps.LookExactly | codex/recovery.go:137-223 | confirmed or not: a shown turn that completed with an answer ends the call with it, a failed one with an error, one in progress in an active thread is read on; only a confirmed call starts again; all else is tried three times and then paused |
| RecoverySteps.StartExactly | codex/codex.go:385-403 | what a start leaves known, remembered and unconfirmed, for every reply |
| RecoverySteps.AgainExactly | codex/recovery.go:178-212 | the same of a recovery start, whose prompt asks to finish the task |
| RecoverySteps.LossExactly | codex/recovery.go:85-118 | what a lost stream, a lost read and the end of a batch lead to |
| RecoverySteps.PauseIsLast | codex/recovery.go:225-236 | in every run the pause follows a third try or the end of a batch's time |
| RecoverySteps.MatchesExactly | codex/recovery.go:293-303 | the matches are the user messages that have the prompt as one of their texts |
| RecoverySteps.SteerExactly | codex/codex.go:488-501 | only a paused call takes a message for itself: the word resume with nothing but blanks around it, once |
| RecoveryDaemon.OneCandidate | codex/recovery.go:280-308 | with one new turn the candidates are copies of it, one for each user message that is the prompt |
| RecoveryDaemon.TrackExactly | codex/recovery.go:121-136 | the client tracks the turn of its last start exactly when it knew its id or the prompt occurs in it once |
| RecoveryDaemon.NeverTwoRunning | codex/codex.go:353-403 | with a truthful daemon and a single owner two assignments never run at once |
| RecoveryDaemon.TracksItsOwn | codex/recovery.go:121-136 | the client never takes another turn for its own |
| RecoveryDaemon.RestartExactly | codex/recovery.go:137-223 | exactly when an honest look leads to another start |
| RecoveryDaemon.CompletedWorkIsRepeated | codex/recovery.go:280-308 | completed work with given items can be asked for again, in some run with a lost reply, if and only if the prompt is not exactly one user message of it |
| RecoveryLate.DoublesExactly | codex/recovery.go:178-212 | arrivals alone can make two assignments run if and only if those running and those in the air are two or more |
| RecoveryLate.TwoAfterExactly | codex/recovery.go:178-212 | a step first makes that possible exactly when it is a recovery start, not lost for good, while an earlier start is in the air or runs |
| RecoveryLate.TwoRunExactly | codex/recovery.go:178-212 | the same over whole histories |
| RecoveryLate.NeverTwoIfSure | codex/recovery.go:178-212 | two never run in a history whose recovery starts all follow a look made with nothing in the air |
| RecoveryLate.RestartRisk | codex/recovery.go:178-212 | after a look that decides on another start, that one start can make two run if and only if a lost start was in the air at the look |
| RecoveryLate.TwoMayRun | codex/recovery.go:178-212 | a concrete history in which two run |
| RecoveryWords.LabelsOfImage | codex/recovery.go:85-246 | starts, resumes and reads counted in the machine's labels are those counted in the words on the wire |
| RecoveryWords.WireCounts | codex/recovery.go:85-246 | so the words of a whole call count exactly what the machine's tally says |
| RecoveryCall.MatchNewTurns | codex/recovery.go:280-308 | the three nested loops collect the candidates |
| RecoveryCall.Locate | codex/recovery.go:271-278 | finds the first turn with a nonempty id |
| RecoveryCall.ScanAnswer | codex/recovery.go:315-331 | the loop finds the last final answer, else the last message |
| RecoveryCall.ActiveTurn.Steer | codex/codex.go:488-501 | while paused one resume is taken and reported; the machine takes that one step |
| RecoveryCall.ActiveTurn.RunTurn | codex/codex.go:385-403 | the first words are the start with the task itself, every later start asks to finish it, the labels are the words' image and the result is where they lead; what was sent is what the tally counts, at most one start plus one per resume and three reads for each |
| RecoveryCall.ActiveTurn.RecoverTurn | codex/recovery.go:85-246 | the outer loop of batches and pauses, with its recursion, adds exactly the image of what was said to it and terminates on every finite network |
| RecoveryCall.ActiveTurn.Batch | codex/recovery.go:89-225 | at most three attempts, each answer acted on as the machine does, to a result or the pause |
| RecoveryCall.ActiveTurn.Examine | codex/recovery.go:119-223 | one snapshot is looked at first, then followed, answered or restarted from exactly as the machine decides |
| Answers.ReadTurnFrom | codex/codex.go:661-740 | the loop keeps what the specified reader keeps |
| Answers.StreamAgreesWithHistory | codex/codex.go:714-740 | for every completion order of distinct items the stream's answer is the history scan's |
| Answers.SeededStreamAgrees | codex/recovery.go:158-172 | also when seeded from a prefix of history |
| Answers.CompletionOrderIsFree | codex/codex.go:714-740 | two streams that see and complete the same items have the same answer |
| Answers.AnswerIsLatest | codex/codex.go:730-740 | it is the latest-seen completed final answer, else the latest-seen completed item |
| ThinnedAnswers.ThinnedAnswer | codex/codex.go:714-740 | with start frames discarded the stream answers with some completed message, and with the one history answers with if and only if no rival that lost its first frame now comes after it |
| ThinnedAnswers.AnswerStays | codex/codex.go:714-740 | the same of the thinned stream's answer as a message |
| ThinnedAnswers.ThinningChangesTheAnswer | codex/rpc.go:318-341 | a concrete stream whose thinning changes the answer |
| Projector.PartsInOrder | codex/events.go:176-216 | within a step a part of a kind starts only after the one before it ended, with a larger ordinal |
| Projector.NoStepEndsOpen | codex/events.go:608-628 | no step ends with a part open |
| Projector.OkBefore | codex/events.go:78-95 | an orderly transcript was orderly at every event |
| Projector.Projector.EnsureStep | codex/events.go:97-118 | a step already open stays as it is; otherwise exactly one is started, named by the native id or by its position, with the ordinals at zero |
| Projector.Projector.ContentPart | codex/events.go:176-189 | a part seen before is returned untouched; a new one is empty, takes the next ordinal, joins its queue last, and is shown exactly when the queue was empty |
| Projector.Projector.FlushParts | codex/events.go:191-216 | emits exactly the finished parts in full and the first unfinished one as far as it is, and leaves the queue from that one on |
| Projector.Projector.ContentDelta | codex/events.go:252-270 | text for a finished part is ignored; otherwise exactly the item's part, or the one in view, gains the delta, and the delta is emitted exactly when that part is in view |
| Projector.Projector.CompletePart | codex/events.go:377-392 | an unfinished part, introduced first if it is new, gets exactly the completed text, for good; its queue is flushed, and the step ends exactly when it has streamed, all is settled and nothing waits; nothing else is emitted |
| Projector.Projector.FinishPart | codex/events.go:382-387 | the part is finished, and exactly what a flush of its queue then owes is emitted |
| Projector.Projector.ItemStarted | codex/events.go:140-174 | ends a streamed step and opens the item's own as the source does, then introduces an empty part or calls the tool, emitting exactly that; an item already introduced changes nothing |
| Projector.Projector.ItemCompleted | codex/events.go:298-375 | a message or reasoning not yet finished is completed as above; a tool is called if need be and settled once, which ends the step exactly when all is settled; each case emits exactly that, after the step's start if it was not open |
| Projector.Projector.RawResponseCompleted | codex/events.go:454-488 | refused for a second completion or without an id; otherwise exactly one streamed mark, after the step's start if it was not open, and before its end if and only if no tool is unsettled, nothing waits and no call of the response is without an output, over all that was heard since the last step ended |
| Projector.Projector.RawResponseItemCompleted | codex/events.go:431-452 | a call opens an entry and ends nothing; an output settles its own call if that is known, changes no other, and ends a streamed step exactly when every other call is settled and nothing else is open |
| Projector.Projector.TurnCompleted | codex/events.go:523-543 | emits exactly the waiting text parts and then the waiting reasoning parts, each shown and ended with the text it has, then the step's end if and only if a step was open and every tool in it is settled |
| Projector.Projector.EndStep | codex/events.go:608-637 | ends the step exactly when no part is waiting, and resets it |
| Projector.Projector.HeadIsShown | codex/events.go:191-207 | the one visible part's deltas concatenate to its buffered text, all others are hidden |
| Projector.Projector.EndedIsFinished | codex/events.go:209-213 | an ended event carried the text its part was finished with |
| Notifications.ThinsFacts | codex/rpc.go:312-341 | what is kept holds every control frame in order, and kept plus dropped is all |
| Notifications.ThinsPlaces | codex/rpc.go:312-341 | it is a subsequence |
| Notifications.FirstDisplay | codex/rpc.go:318-328 | the frame left out is the oldest that is not critical |
| Notifications.Channel.Evict | codex/rpc.go:318-341 | drains and refills a full channel, discarding that frame if there is one |
| Notifications.Channel.Offer | codex/rpc.go:295-341 | a frame is taken, in order, unless the channel is full of control frames |
| Notifications.Channel.TryNext | codex/rpc.go:452-459 | the reader gets the oldest frame, or sleeps |
| Notifications.Channel.TakeDrops | codex/rpc.go:352-360 | hands over the drops once |
| Notifications.Channel.NothingCriticalIsLost | codex/rpc.go:295-360 | read and queued frames hold every critical frame sent, in order; sent is read plus queued plus dropped; drops taken plus outstanding are all drops; no wakeup is lost |
| Notifications.Connection.RegisterThread | codex/rpc.go:171-189 | one channel for a thread, unregistered when the connection is dead |
| Notifications.Connection.UnregisterThread | codex/rpc.go:207-218 | the last route takes the queue with it |
| Notifications.Connection.Dispatch | codex/rpc.go:266-341 | reaches the routed channel only, and gives up only over one that cannot make room |
| SteerQueue.StepKeeps | opencode/adapter.go:142-267 | the queue's invariant in every interleaving |
| SteerQueue.TakenOnceInOrder | opencode/adapter.go:441-474 | a request is taken at most once, in queue order, and only if its Steer reports landed |
| SteerQueue.CheckCloses | opencode/adapter.go:443-450 | an empty queue found with the turn active closes it |
| SteerQueue.ClosedStaysDrained | opencode/adapter.go:441-474 | from then on every landed steer has been taken, none is in flight and none is accepted later |
| SteerLost.LostExactly | opencode/adapter.go:441-474 | a steer that landed and waits is taken by no continuation if and only if its turn is no longer the session's or its loop is on the way out |
| SteerLost.LostByExactly | opencode/adapter.go:324-335 | a step brings that about if and only if it is Close or an interruption of RunTurn |
| SteerLost.LandedIsLost | opencode/adapter.go:256-266 | a concrete run in which a landed steer is lost |
| SteerLost.EnterExactly | opencode/adapter.go:235-246 | a steer enters the running turn while that accepts, at the end of its queue, and else does nothing |
| SteerLost.SettleExactly | opencode/adapter.go:249-266 | a steer lands if and only if the abort went through while its turn was the session's; otherwise it alone leaves the queue |
| SteerQueue.RemoveSteer | opencode/adapter.go:476-483 | removes the first occurrence of the request |
| SteerQueue.Session.FirstPending | opencode/adapter.go:443-452 | the first locked region of takeSteer |
| SteerQueue.Session.ClaimPending | opencode/adapter.go:460-470 | the second one |
| SteerQueue.Session.QueueSteer | opencode/adapter.go:235-246 | the first region of Steer |
| SteerQueue.Session.SettleSteer | opencode/adapter.go:249-266 | the second one, which removes a request that fails |
| SteerQueue.Session.CloseTurn | opencode/adapter.go:324-330 | Close detaches the turn |
| Release.StepKeeps | scope.go:272-308 | the ownership invariant in every interleaving |
| Release.NeverTwice | session.go:820-832 | no native id is released twice, and none before its session was closed |
| Release.ReleasedExactlyOnce | scope.go:253-308 | once teardown and admissions finish, each native id handed out was released exactly once |
| Release.SomeoneMayGoOn | scope.go:272-308 | the world is quiet exactly when no party to teardown or admission can go on |
| Release.FinishingEndsQuiet | scope.go:272-308 | without new work they take boundedly many steps, in whatever order, and where none is left the world is quiet |
| Release.QuietIsReachable | scope.go:272-308 | a quiet world can be reached from every reachable one |
| Release.Run.AdoptSession | scope.go:166-169 | a session adopted after the end is born closed |
| Release.Run.AdoptNativeId | session.go:820-832 | the admission releases exactly when it finds the session closed |
| Release.Run.StopOwnedWork | scope.go:272-308 | the walk closes every session it took and releases what they hold |
| Replay.StepKeeps | command.go:185-284 | the journal's invariant, with any number of commands in flight and crashes between any steps |
| Replay.DispatchFollowsIntent | command.go:231-269 | every dispatch follows a committed intent of its node and carries its identity, command and arguments; all dispatches of a node are equal |
| Replay.NeverDispatchedAgain | command.go:211-230 | no dispatch is possible for a node whose outcome is committed |
| ReplayAgain.DispatchedAgainExactly | command.go:185-284 | a command that was dispatched, at any point of any run, is dispatched again by some continuation if and only if no outcome of it is committed |
| ReplayIntents.IntentIsAsked | command.go:198-233 | over every run an accepted intent carries exactly the command and arguments of one visit of its node, the one whose own call appended it, with no restart between |
| ReplayIntents.DispatchIsAsked | command.go:231-269 | what is dispatched was asked for by a visit of its node |
| ReplayIntents.IdentitiesDiffer | run_recording.go:84-96 | two nodes never have one identity or one operation |
| ReplayIntents.OutcomeExactly | replay.go:57-92 | a finished node returns its first outcome; a later resolution replaces all but an error that it leaves out; an unresolved one is none |
| ReplayIntents.FirstExactly | replay.go:30-42 | the first outcome is the first in the order of the journal |
| Replay.ReturnsRecorded | command.go:211-230 | after a restart a call of such a node returns exactly the recorded result at once |
| Replay.RecordedIsOne | run_recording.go:173-201 | all recorded results of a node are the same |
| ReplayRun.Run.LoadReplay | replay.go:12-28 | the cursor loop files every record under its node, in order |
| ReplayRun.Run.SavedIntent | replay.go:30-42 | the scan finds the first intent |
| ReplayRun.Run.OutcomeOf | replay.go:57-92 | the first outcome, later resolutions decoded over it |
| ReplayRun.Run.PrepareAction | run_recording.go:97-119 | refuses once anything could not be recorded; otherwise appends the intent and its binding, or nothing when one was accepted before |
| ReplayRun.Run.RunCommand | command.go:185-284 | takes exactly the steps that the world's answers determine, beginning with its own visit; returns the recorded result, the failure or the command's own end; answers once; and dispatches once or not at all: the caller's command and arguments where no intent was accepted, else the accepted intent's |
| Secrets.NearestIsUnique | backend/secrets.go:46-59 | a name has at most one nearest definition |
| Secrets.EnclosingIsChain | backend/secrets.go:13-15 | two enclosing scopes of one length are the same |
| Secrets.WithinExactly | backend/secrets.go:13-15 | a scope is within another if it is that one or below it |
| Secrets.AnswerIsDetermined | backend/secrets.go:41-77 | the answer does not depend on map iteration order |
| Secrets.ScopedValues.Publish | backend/secrets.go:17-40 | succeeds exactly when the names are distinct and new to the scope, adds exactly those definitions, and otherwise changes nothing |
| Secrets.ScopedValues.Acquire | backend/secrets.go:41-77 | succeeds exactly when every required name's nearest definition lies in its store, and returns exactly the nearest definitions in granted stores |
| Secrets.ScopedValues.Release | backend/secrets.go:78-84 | removes exactly the scope's subtree |
| FileNames.DecodeEncode | artifact.go:54-55 | the encoding can be undone |
| FileNames.NameIsRecovered | artifact.go:54-66 | a decoder finds a name and where it ends, whatever components follow |
| FileNames.KeyIsRecovered | artifact.go:68-77 | a decoder recovers the scope key from its path |
| FileNames.ValueFileIsRecovered | scope.go:391-405 | a value file's path determines scope, key and format |
| FileNames.ComponentIsSafe | artifact.go:52-66 | no component is empty, has a dot or a slash, or exceeds 120 bytes |
| FileNames.PathIsSafe | artifact.go:68-77 | nor does any component of a scope's path |
| FileNames.SplitJoin | artifact.go:65-76 | the joined path says all that its components say |
| FileNames.EncodeExactly | artifact.go:54-55 | three bytes, read as one number, become four digits to the base 64, with zero bits at the end |
| FileNames.ComponentExactly | artifact.go:54-66 | a short name is one component; a long one is its length and its pieces of 118 letters |
| FileNames.EncodedComponent | artifact.go:54-66 | the chunking loop |
| FileNames.EncodedPath | artifact.go:68-77 | the loop over the parts of a key |
| Excerpts.RepairIsValid | artifact.go:190-190 | repaired text is well-formed, and well-formed text is its own repair |
| Excerpts.CutIsValid | artifact.go:199-205 | well-formed text cut where a rune starts leaves two well-formed texts |
| Excerpts.ExcerptBytes | artifact.go:189-212 | the loops compute the specified excerpt |
| Excerpts.ExcerptIsHonest | artifact.go:189-212 | head and tail do not overlap, are well-formed and as long as the halves allow, and the marker states exactly the bytes between them |
| Excerpts.FitExcerptBytes | artifact.go:221-244 | the search ends with an excerpt that fits whenever the empty one does, while one byte more would not; if counts are monotone it is the longest that fits |
| Excerpts.ClipText | supervise.go:102-122 | the guesses strictly decrease to the fixpoint; the result never exceeds the limit, and at the fixpoint kept bytes and marker fill it exactly |
| TaskFiles.RemoteTaskFiles | task_files.go:33-65 | after the explicit files, every path of an artifact that can be reached from the prompt, each spelling once, with the bytes of the file it comes to; an error only for such a path that cannot be read |
| TaskFiles.ListedTwiceExactly | task_files.go:49-58 | such a listing has one file twice if and only if two of the paths that can be reached come to that file |
| TaskFiles.ArtifactListedTwice | task_files.go:49-58 | every artifact is reached by some prompt in two spellings |
| TaskFiles.NamedExactly | task_files.go:45-48 | which path a line names |
| TaskFiles.CleanedExactly | task_files.go:49-50 | a name followed by two dots, an empty name and a dot are as nothing in a path |
| TaskFiles.ExcerptIsFollowed | artifact.go:206-211 | an excerpt names the value that it was cut from, so the worklist finds it |
| TaskFiles.Follow | task_files.go:44-61 | one text's lines are all followed |

## Left out

- Processes, sockets, HTTP, plugin loading, the command line, the web server and the native app: plumbing over libraries.
- Wall-clock behaviour: timeouts, backoff and tickers are steps that may happen at any time; only counts and flags remain.
- JSON text, schema validation and struct marshalling: values and trees stand for them. The model of an object is a map, so duplicate keys and member order are not modelled.
- The token counter, SHA-256 names and blob storage: parameters, or the bytes themselves.
- Strings are sequences of bytes, one character each.
- The wording of the completion envelope's descriptions and of the follow-up prompt is shortened.
- Interaction addresses are an owner and a name; joining and splitting them as paths is not modelled. An occurrence's prompt text, session and error text are reduced to what the protocol reads.
- InteractionRuns.InteractionRun.Look: an active input that is not stored cannot occur in a run; the source would go on with an empty input, the model takes the next branch.
- A refused write of the interaction journal is a flag of the step in which it happens.
- InteractionPrompts.PromptAgainExactly: a refused write of a turn's outcome ends the asks of its own generation; in the source any refused write of the process ends those of every later turn of it. What a generation still does while its consumer ends is taken to happen before the consumer's last step. The sentences that a later turn adds to the prompt are not modelled.
- A recorded turn is named by its occurrence, its prompt and its place in the generation. That an occurrence entered again finds the same turn is what `Positions.Session.Reenter` and `Generations.AloneKeepsOne` say of a session used by one interaction at a time. One process enters an occurrence at most once, since each call takes a new ordinal.
- InteractionRuns.InteractionRun.SteerNext: asks for the invariant, which every step keeps; without it a snapshot could name an input that is not stored.
- InteractionRuns.InteractionRun.ServeWake: the steers of one snapshot run without other regions in between; in between, the transition system allows any.
- Interactive's own select over context, wakeup and result is the choice of the next label; liveness is not proved.
- RecoveryDaemon.NeverTwoRunning: speaks of a daemon whose snapshots are truthful, of a thread with one owner and of starts that arrive before their reply is given up; `RecoveryLate` drops the last of these, another owner is not modelled.
- RecoveryCall: a start whose caller is canceled before the reply counts as sent and ends the call like a refused one.
- Generations: which inputs may be generated for is taken from the interaction protocol: one that has just become active, or the one that its interaction was entered with, once in a process.
- Recovery of cancellation: `stopConfirmed` and the interrupt of an earlier turn are not modelled beyond requiring that no turn is in progress at the first start.
- Answers.SeededStreamAgrees: the history items seeded from must not complete again in the stream.
- The projector's tool output, nested child transcripts, token usage and approvals: they emit events without ordering of their own. A terminal harness error resets the step with parts unfinished, after which nothing is promised; its retrying form is modelled.
- A sink that refuses events: the projector stops at the first refusal.
- Replies to pending RPC calls beyond the one slot that each call has, and the messages of the read loop.
- Replay of anything but commands, and of an interaction's turns; command outcomes first recorded as unresolved. Command capture files and working directories.
- Replay.ReturnsRecorded: a command whose outcome could not be committed, or whose run was already closed, is dispatched again after a restart with the same identity; that the executor recognises the identity is not part of this model.
- TaskFiles.RemoteTaskFiles: a path is read as its cleaned form, so symbolic links and missing directories before a `..` are not modelled, nor are volumes and backslashes.
- The children of a scope end as scopes of their own; services and remote cleanup are not modelled.
- Release.ReleasedExactlyOnce: a fresh run; a restarted run consults recorded closings first.
- Session.Steer and turn completion under the delivery lock: one region excludes the other, and no property beyond that was stated.
- Malformed provider streams of the other harnesses, registry and role validation, usage totals and the supervision heuristics.
