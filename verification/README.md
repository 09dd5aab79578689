# Verification of the input method's protocols and algorithms

Dafny models of the parts of the input method whose correctness is hard to see
from the code: how a composition reaches its document, how the training history
is searched, how custom names are found, how the debugger's queue is shared, and
what the service keeps of the user's commits. Each part is modelled as the code
does it, and the properties its comments, names and tests promise are proved for
all inputs and all runs.

Check everything with `dafny verify dfyconfig.toml` (Dafny 4.11).

## The composition protocol

`Controller` is the state machine: the open composition, the conversions in
flight, and for each document its text, its queue of edits and its sealed
segments. An event is a key, a move in the candidate list, the opening or closing
of a document, a grant, a step of the conversion worker, an answer of the backend,
its loss, or the shutdown; events come in any order. A call that queues an edit
also says whether the document grants it at once. A grant runs the whole queue,
including what is queued meanwhile.

- `Bopomofo`, `Buffer`, `Documents`, `Conversions`, `Controller`: the values and
  what each operation makes of them.
- `DocumentInv`, `DocumentProofs`, `DocumentSteps`: what a document keeps. Its
  central clause compares the text it is going to show with a reference: the
  initial text, to which every committed text is appended, every sealed text as
  its *final* text, and from which every Backspace takes one character at once.
- `ControllerInv`, `GrantProofs`, `SegmentGrants`, `MovingProofs`, `CallProofs`,
  `SealProofs`, `KeyProofs`, `ResultProofs`: every event keeps the invariant.
- `HistoryProofs`, `IntentRuns`: the history the reference is told from is what
  the keys did.
- `BufferHistory`, `Absorbing`, `AnswerInv` and the other modules named `Answer...`:
  where the characters come from. Every request was of what the composition then
  held, every result it or its segment was given is the answer to one of them, and
  what is shown, sealed, written or committed is told by those results.
- `Runs`, `AnswerRuns`, `ModelRuns`: the theorems about every run. The last
  concludes with no word of the protocol: a document reads as the text of a model
  that converts each composition at the moment it ends.
- `HeldOutput`: a run in which what is committed is not the conversion of its
  content.
- `CompositionBuffer`, `CandidateLock`, `ConversionTracker`, `SealedQueue`,
  `CompositionController`, `Utf16`: the classes and loops of the source, each
  proved to do what the functions say.
- `BufferProofs`, `BufferRuns`, `Merging`: the buffer by itself.

The character table is any map from readings to non-empty lists. Text is a
sequence of characters; `Utf16` shows that dropping characters from UTF-16 code
units, as the source does, drops the same ones. Identifiers, epochs and sequence
numbers do not wrap around. History fields record what happened and are read by
nothing else: of a document `initial`, `intents`, `written` (each segment as it
was when its text was written), `records` and `calls`; of a segment `origin`,
`answers` and `local`; of a composition `applied` and `lost`; of the tracker
`newest`, `asked`, `answered`, `dropped` and `present`.

A selection in the candidate list is followed by `candidate_finalized`, and the
setting for immediate conversion stays as it is during a run. Nobody but the input
method edits a document, and the caret stays behind its text.

Merging a result whose outputs are marked as chosen is where the code depends on
the order results arrive in: `Merging` gives the input and the exact condition.

The header promises that Enter commits a composition without sealing it only when
its own conversion is on the screen (composition_controller.hpp:29-30). The code
marks a revision as converted even while the list holds back an output of its
result (composition_controller.cpp:205-213), so a composition that ends with the
list open is committed without that output. `HeldOutput.CommitsWithoutHeld` is such a run and
`AnswerRuns.ConvertedExactly` the exact condition.

## The rest

- `DisjointSets`, `TreeSearch`, `TarjanSearch`, `LoraHistoryLca`: Tarjan's offline
  search for the lowest common ancestor, against the plain definition.
- `NameMatching`, `AhoCorasick`, `NameAutomaton`, `NameLinks`,
  `CustomNameMatcher`: the automaton for custom names, against naive matching.
- `MpmcQueue`, `MpmcSteps`, `MpmcRuns`: the bounded queue, every access to a shared
  variable one step of some thread; `BoundedMpmcQueue` is the class run by one
  caller at a time. Accesses are sequentially consistent, the counters unbounded,
  and the mask is the remainder by the capacity.
- `StagingWriter`, `TrainingDataWriter`: the queue, the staged commits and the
  stored rows of the conversation database, with the steps of a reset apart.
- `TrainingLineage`: the commits a training run may use.
- `CommandLine`: the trainer's command line, against the rules of "Parsing C++
  command-line arguments" in Microsoft's reference of the main function.
- `PaddingJson`: the padding column, against sections 2 to 7 of RFC 8259.
- `GpuLease`: the lease of the GPU boost, the process that drives it, and the
  driver's clock.

## Model

| member | source | states |
|---|---|---|
| `Runs.StepKeeps` | frontend/src/core/composition_controller.cpp:29-289 | every event, from every state the protocol can be in, leaves a state that satisfies the whole invariant |
| `Runs.RunIsGood` | frontend/src/core/composition_controller.cpp:29-289 | so does every list of events from the start: documents, queue, tracker, host calls and composition fit together |
| `Runs.TextIsReference` | frontend/src/core/sealed_text.cpp:45-66 | in every run, once a document's queue is empty and no conversion of its text is awaited, its text is the reference text for every choice of final texts that agrees with the segments as they were written, of a text erased altogether in its length alone; each Backspace takes one character, also past a segment's own start; and every sealed text was written |
| `IntentRuns.PastIsKept` | frontend/src/core/composition_controller.cpp:127-147 | a document's recorded past is what the events since its opening did to it |
| `IntentRuns.ReadsAsTyped` | frontend/src/core/composition_controller.cpp:127-147 | the same told from the events alone: what the document held when opened, and each commit, seal and erase in the order of the keys; what the final texts are is the matter of `AnswerRuns.ReadsAsConverted` and `ModelRuns.ReadsAsSpoken` |
| `ModelRuns.ReadsAsSpoken` | frontend/tests/typing_timing_tests.cpp:955-992 | in every run whose backend is never lost and answers every request with a model's character for each syllable, a quiet document reads as if the model had converted each composition the moment it ended, each Backspace then removing one character; provided no composition was committed while its list held back an output that would still change it |
| `AnswerRuns.ReadsAsConverted` | frontend/src/core/sealed_text.cpp:32-43 | in every run and with any answers, each sealed text of a quiet document is the final text of what was sealed with distinct answers to requests of its epoch merged; the newest request of the epoch was for exactly that content and its answer is among them, unless the text was finished locally, which happens only with a backend lost or missing or with nothing sealed, or all of it was erased |
| `AnswerRuns.ReadsAsWritten` | frontend/src/core/sealed_text.cpp:45-66 | in particular the document reads as the reference with those very texts |
| `AnswerRuns.NewestAnswerAlone` | frontend/src/core/buffer.hpp:270-296 | such a text is the content with the newest answer alone merged, if that answer converts every entry that is not fixed and no older one marks an output as chosen |
| `AnswerRuns.RunIsTold` | frontend/src/core/composition_controller.cpp:29-289 | every list of events reaches a state in which the characters of the open composition, of every segment and of every written and committed text come from the answers to its requests |
| `AnswerRuns.StepTold` | frontend/src/core/composition_controller.cpp:29-289 | every event keeps that |
| `AnswerEvents.TypingTold` | frontend/src/core/composition_controller.cpp:89-102 | typing keeps it: what was asked before is of what the composition was then |
| `AnswerEvents.PickTold` | frontend/src/core/composition_controller.cpp:153-162 | so does a pick |
| `AnswerEvents.ListClosedTold` | frontend/src/core/composition_controller.cpp:164-172 | so does closing the list, after which nothing of the newest result is missing |
| `AnswerGrants.GrantTold` | frontend/src/tsf/textService.cpp:577-602 | so does a grant, in which results are merged and segments are written |
| `AnswerEndings.CommitTold` | frontend/src/core/composition_controller.cpp:219-228 | so does committing: a settled composition is fixed text, or was left without a backend, or has the newest result given, which is for exactly its content, merged but for the output held back |
| `AnswerEndings.SealingTold` | frontend/src/core/composition_controller.cpp:237-258 | so does sealing: the conversion in flight that a segment waits for was asked for exactly what is sealed, and is the newest of its epoch |
| `AnswerResults.DeliverTold` | frontend/src/core/composition_controller.cpp:174-201 | so does an answer, for the composition, a segment, or nothing any more |
| `AnswerResults.LoseBackendTold` | frontend/src/core/composition_controller.cpp:262-277 | so does the loss of the backend |
| `AnswerResults.ShutdownTold` | frontend/src/core/composition_controller.cpp:284-289 | so does the shutdown |
| `AnswerSteps.MergedTold` | frontend/src/core/sealed_text.cpp:32-38 | a segment given one more answer is what was sealed with one more merged, and is finished by no answer older than the one awaited |
| `Absorbing.StillNewestMerged` | frontend/src/core/composition_controller.cpp:205-216 | merging results as they arrive keeps the newest of them merged in every entry it was for, but for the one behind the list |
| `AnswerPresence.PresentThroughout` | frontend/src/core/composition_controller.cpp:262-289 | unless a loss is reported or the service shuts down nothing is ever finished locally |
| `AnswerRuns.ConvertedExactly` | frontend/src/core/composition_controller.hpp:27-30 | in every run a composition marked as converted at its revision, the backend not lost, has a result for exactly its content, and has every result of that revision merged if and only if no output of one is held back that would still change it |
| `HeldOutput.CommitsWithoutHeld` | frontend/src/core/composition_controller.cpp:205-216 | a run that commits ax while the result for exactly this content, given but held back, reads bx |
| `AnswerRuns.CommitIsConversion` | frontend/src/core/composition_controller.cpp:127-136 | whatever event commits a composition, what it commits is fixed text, or was left without a backend, or has the newest of its results, which is for exactly this content, merged but for the output held back |
| `AnswerRuns.ResultsMissEditedInRun` | frontend/src/core/buffer.hpp:278-282 | in every run, against what was sent for the open composition: no version goes back, under one version an entry is the syllable that was sent, and a result for what was sent leaves an entry that was typed otherwise or fixed since as it is |
| `HistoryProofs.HistoryIsIntended` | frontend/src/core/composition_controller.cpp:219-258 | an event adds to a document's history the composition it commits as it reads, the one it seals, or one erase, and nothing else |
| `Runs.QuietIsWritten` | frontend/src/core/sealed_text.cpp:172-191 | a document with an empty queue and no awaited conversion has no sealed segment left |
| `Runs.HostCallsInBlocks` | frontend/src/core/composition_host.hpp:39-53 | per document, host calls form blocks of increasing epoch: one reading of the context, renderings, then at most one end; a commit or seal follows directly on a rendering of the text the buffer had when the composition ended |
| `Runs.NoSegmentIsStuck` | frontend/src/core/sealed_text.cpp:74-122 | in every run a sealed segment not final has its context read queued, or its conversion underway and not superseded, or that result queued; one that can be written has a write queued |
| `Runs.SamplesAreTexts` | frontend/src/core/sealed_text.cpp:194-203 | in every run each sample handed to training is the text the document held for it, and every entry was picked by the user or converted by the model, so local acceptance alone never reaches training |
| `Runs.BufferStaysWellFormed` | frontend/src/core/buffer.hpp:73-101 | in every run the open buffer is not empty, its caret is on it, ids are unique and every shown candidate exists |
| `KeyProofs.TypeReadingKeeps` | frontend/src/core/composition_controller.cpp:89-94 | typing a symbol, opening the composition if needed, keeps the invariant |
| `KeyProofs.TypeTextKeeps` | frontend/src/core/composition_controller.cpp:96-102 | so does typing fixed text |
| `KeyProofs.DiscardReadingKeeps` | frontend/src/core/composition_controller.cpp:104-109 | so does discarding the reading at the caret |
| `KeyProofs.BackspaceKeyKeeps` | frontend/src/core/composition_controller.cpp:111-115 | so does Backspace within the composition, which may empty and discard it |
| `KeyProofs.MoveCaretKeeps` | frontend/src/core/composition_controller.cpp:117-125 | so does moving the caret |
| `KeyProofs.EnterKeeps` | frontend/src/core/composition_controller.cpp:127-136 | so does Enter, which commits a settled composition and seals another |
| `KeyProofs.EscapeKeeps` | frontend/src/core/composition_controller.cpp:138-140 | so does Escape |
| `KeyProofs.EraseKeyKeeps` | frontend/src/core/composition_controller.cpp:142-147 | so does Backspace outside a composition |
| `KeyProofs.PickKeeps` | frontend/src/core/composition_controller.cpp:153-162 | so does picking a candidate |
| `KeyProofs.ClosedKeeps` | frontend/src/core/composition_controller.cpp:164-172 | so does closing the list, which merges the held result |
| `KeyProofs.OpenKeeps` | frontend/src/core/composition_controller.cpp:29-43 | so does opening a composition and asking for the text before it |
| `CallProofs.CommitKeeps` | frontend/src/core/composition_controller.cpp:219-228 | committing a composition that is shown as it reads keeps the invariant |
| `CallProofs.DiscardKeeps` | frontend/src/core/composition_controller.cpp:230-235 | so does discarding it |
| `CallProofs.RequestSafe` | frontend/src/core/composition_controller.cpp:74-87 | so does asking for a conversion, which changes of the composition only what was sent |
| `SealProofs.FrozenState` | frontend/src/core/composition_controller.cpp:237-240 | spelling out unfinished readings before sealing changes nothing that is shown |
| `SealProofs.SealingKeeps` | frontend/src/core/sealed_text.cpp:74-83 | a document keeps its invariant, and its text its reference, when a segment is added and its seal queued |
| `SealProofs.SealKeeps` | frontend/src/core/composition_controller.cpp:237-258 | sealing, with a conversion in flight, a new one, or none to wait for, keeps the invariant and ends the composition |
| `ResultProofs.DeliverGood` | frontend/src/core/composition_controller.cpp:174-201 | an answer keeps the invariant whether it is converted, superseded or a loss, and whether its composition is open, sealed or gone |
| `ResultProofs.LoseBackendKeeps` | frontend/src/core/composition_controller.cpp:262-277 | losing the backend finishes every segment locally and keeps the invariant |
| `ResultProofs.ShutdownKeeps` | frontend/src/core/composition_controller.cpp:284-289 | so does the shutdown |
| `CallProofs.GrantKeeps` | frontend/src/tsf/textService.cpp:577-602 | so does a grant, which leaves the composition the one it was |
| `SegmentGrants.DrainKeeps` | frontend/src/tsf/textService.cpp:590-602 | running a whole queue, with what is queued meanwhile, keeps the state's invariant |
| `MovingProofs.DrainMoves` | frontend/src/tsf/textService.cpp:590-602 | and leaves every sealed segment on its way |
| `SealProofs.DrainPromised` | frontend/src/core/composition_controller.cpp:246-257 | a seal that is about to be queued may be thought queued already: a grant in between does to the document what it would have done with the seal at the end |
| `DocumentSteps.EraseRuns` | frontend/src/core/sealed_text.cpp:124-130 | a Backspace in order keeps the document's text its reference, whether it erases from a sealed segment, past its start, or from plain text |
| `DocumentSteps.SealRuns` | frontend/src/core/sealed_text.cpp:94-99 | sealing the composition keeps the document's text its reference |
| `DocumentSteps.CommitRuns` | frontend/src/core/composition_controller.cpp:219-228 | so does committing it |
| `DocumentSteps.WrittenKeeps` | frontend/src/core/sealed_text.cpp:194-203 | so does writing a finished segment, with its erases of the text before it |
| `DocumentSteps.WriteFromKeeps` | frontend/src/core/sealed_text.cpp:176-191 | so does writing all that can be written, oldest first |
| `SegmentGrants.WriteFromDone` | frontend/src/core/sealed_text.cpp:176-191 | after which nothing is left that can be written |
| `Conversions.SendKeeps` | frontend/src/core/conversion.hpp:61-69 | what is pending is with the worker or answered, and only an older request of an epoch is superseded, after a request is sent |
| `Conversions.SubmitOtherKeeps` | frontend/src/engine/engine_worker.cpp:49-68 | and after jobs of other kinds are submitted |
| `Conversions.StartJobKeeps` | frontend/src/engine/engine_worker.cpp:114-147 | and when the worker takes a job |
| `Conversions.FinishJobKeeps` | frontend/src/engine/engine_worker.cpp:114-147 | and when it finishes one |
| `Conversions.DeliverKeeps` | frontend/src/core/conversion.hpp:71-75 | and when an answer is taken |
| `BufferProofs.PickedAppears` | frontend/src/core/buffer.hpp:229-258 | what is picked is what appears: the entry's text becomes the listed text, literal expansions included, and the text around it stays |
| `BufferProofs.CaretFollowsPick` | frontend/src/core/composition_controller.cpp:157-162 | after the step that follows a pick the caret is right behind what was picked |
| `BufferProofs.FreezePreserves` | frontend/src/core/buffer.hpp:299-321 | freezing readings preserves the displayed text, the final text and the caret, and leaves no reading |
| `BufferProofs.MergeKeeps` | frontend/src/core/buffer.hpp:270-296 | merging a result changes outputs only, keeps the buffer well formed, and reports no change only when there is none |
| `Bopomofo.ChoiceShows` | frontend/src/core/bopomofo.hpp:369-390 | choosing a listed index makes the entry show exactly that candidate |
| `BufferRuns.AnyOperationsKeepWf` | frontend/src/core/buffer.hpp:215-333 | after any operations, results of earlier snapshots included, ids are unique and every choose index is in range |
| `BufferRuns.VersionsTell` | frontend/src/core/buffer.hpp:67-71 | between any two moments of any operations the version of an entry does not go back, and if it is the same then so are initial, medial, final and tone, and a fixed entry is still fixed |
| `BufferRuns.ResultsMissEdited` | frontend/src/core/buffer.hpp:278-282 | a result for what was sent at one moment leaves an entry as it is that by a later moment had been picked or typed otherwise, whatever happened after that |
| `Merging.NewestWins` | frontend/src/core/buffer.hpp:270-296 | unless an older result stops the entry, it ends with the newest result matching its id and version |
| `Merging.MergingIsOrderIndependent` | frontend/src/core/buffer.hpp:270-296 | results whose older outputs are not marked as chosen leave the same buffer in every arrival order |
| `Merging.OrderNeverMattersExactly` | frontend/src/core/buffer.hpp:287-289 | the arrival order never matters if and only if, of the results for each entry, only the newest is marked as chosen |
| `Merging.TwoOrdersAgreeExactly` | frontend/src/core/buffer.hpp:270-296 | two given orders agree if and only if every entry ends with the same result: the first chosen one not behind a newer one, or else the newest |
| `Merging.ChosenOutputsDependOnOrder` | frontend/src/core/buffer.hpp:279-289 | two results for one snapshot of a waiting syllable, both marked as chosen, whose order matters |
| `Merging.LockingChangesNothing` | frontend/src/core/candidate_lock.hpp:21-34 | holding results behind an open list and merging at its close equals never locking, if and only if no older chosen result would have stopped the entry |
| `Utf16.OneCharacterLess` | frontend/src/core/sealed_text.cpp:12-17 | taking a unit, and the other half of its pair, takes one character |
| `Utf16.DropLastCharacters` | frontend/src/core/sealed_text.cpp:12-17 | the loop over units drops exactly that many characters, or all there are |
| `CandidateLocks.CandidateLock.Hold` | frontend/src/core/candidate_lock.hpp:25-28 | the newest result for the locked entry is held |
| `CandidateLocks.CandidateLock.Close` | frontend/src/core/candidate_lock.hpp:31-34 | closing unlocks and hands out what was held |
| `CompositionBuffers.CompositionBuffer.AddSymbol` | frontend/src/core/buffer.hpp:215-222 | the entries, caret, revision and ids after a symbol, still well formed |
| `CompositionBuffers.CompositionBuffer.Remove` | frontend/src/core/buffer.hpp:152-167 | the same after a Backspace, with whether there was something to remove |
| `CompositionBuffers.CompositionBuffer.Select` | frontend/src/core/buffer.hpp:229-258 | the same after a pick |
| `CompositionBuffers.CompositionBuffer.Merge` | frontend/src/core/buffer.hpp:270-296 | the loop over a result does what merging says, with what changed and what is held |
| `CompositionBuffers.CompositionBuffer.Freeze` | frontend/src/core/buffer.hpp:299-321 | the loop that spells readings out does what freezing says |
| `CompositionBuffers.CompositionBuffer.Caret` | frontend/src/core/buffer.hpp:197-203 | the caret in characters of the shown text |
| `ConversionTrackers.EngineWorker.SubmitJob` | frontend/src/engine/engine_worker.cpp:49-68 | a job replaces those of its kind and group, whose sequences are answered as superseded |
| `SealedQueues.SealedQueue.EraseAtCaret` | frontend/src/core/sealed_text.cpp:124-130 | on the flat list of all documents: the newest segment at the caret erases, other documents' segments stay |
| `SealedQueues.SealedQueue.OnConversion` | frontend/src/core/sealed_text.cpp:116-122 | the segment of the epoch merges its result |
| `SealedQueues.SealedQueue.FinishLocally` | frontend/src/core/sealed_text.cpp:142-149 | every segment is finished, and each document of one is named once |
| `SealedQueues.SealedQueue.Forget` | frontend/src/core/sealed_text.cpp:151-153 | a document's segments go, the others stay |
| `SealedQueues.SealedQueue.WriteAllFinished` | frontend/src/core/sealed_text.cpp:176-191 | the loop that erases while it iterates writes what the document's own list would |
| `CompositionControllers.CompositionController.RunQueued` | frontend/src/tsf/textService.cpp:590-602 | the loop over a document's queue ends, having run every edit in order with those queued meanwhile |
| `CompositionControllers.CompositionController.SealNow` | frontend/src/core/composition_controller.cpp:237-258 | the steps of sealing in place reach the state the state machine says |
| `CompositionControllers.CompositionController.OnConversion` | frontend/src/core/composition_controller.cpp:174-201 | so do the steps on an answer |
| `CompositionControllers.CompositionController.OnBackendLost` | frontend/src/core/composition_controller.cpp:262-277 | and on the loss of the backend |
| `CompositionControllers.CompositionController.Handle` | frontend/src/core/composition_controller.cpp:29-289 | any event, handled in place, takes a controller all theorems hold of to the next state of the state machine, and they hold of it again |
| `CompositionControllers.CompositionController.Serve` | frontend/src/core/composition_controller.cpp:29-289 | so a list of events takes it where the run of them goes |
| `LoraHistoryLca.TarjanLca` | service/src/settings/lora_history_lca.cpp:11-108 | an answer is the deepest common ancestor of the two ids; there is one exactly when ids are positive and distinct, parents known (a negative one stands for a base model), ancestry free of cycles, both ids known, and it is not the virtual root of a forest |
| `LoraHistoryLca.LcaIsUnique` | service/src/settings/lora_history_lca.cpp:11-14 | there is only one lowest common ancestor |
| `TarjanSearches.SearchAll` | service/src/settings/lora_history_lca.cpp:77-101 | the search over the explicit stack ends, visits exactly what the root reaches, and its answer is the lowest common ancestor |
| `TreeSearch.LabelIsLowest` | service/src/settings/lora_history_lca.cpp:90-94 | when one node is done and the other was, the label of the other's set is their lowest common ancestor |
| `TreeSearch.DescendKeeps` | service/src/settings/lora_history_lca.cpp:81-86 | going down to a child keeps the search's invariant |
| `TreeSearch.RetreatKeeps` | service/src/settings/lora_history_lca.cpp:87-100 | leaving a node, its set joined to its parent's, keeps it |
| `DisjointSets.DisjointSets.Find` | service/src/settings/lora_history_lca.cpp:55-64 | finds the root, and compressing the path changes no set |
| `DisjointSets.DisjointSets.Unite` | service/src/settings/lora_history_lca.cpp:65-72 | joins exactly the two sets |
| `CustomNameMatchers.CustomNameMatcher.Apply` | service/src/service/custom_name_matcher.cpp:16-83 | for all settings and inputs the padding becomes what naive leftmost-longest matching makes of it, ties to the earlier setting, and each replacement is reported |
| `CustomNameMatchers.CustomNameMatcher.Replace` | service/src/service/custom_name_matcher.cpp:12-14 | other settings replace the automaton |
| `CustomNameMatchers.Compile` | service/src/service/custom_name_matcher.cpp:85-155 | the automaton holds every usable name, with its links and outputs right |
| `CustomNameMatchers.Scan` | service/src/service/custom_name_matcher.cpp:24-65 | the pass over the input finds the best rule at every start |
| `NameMatching.NamingTwice` | service/src/service/custom_name_matcher.cpp:67-82 | applying names to what they were applied to changes nothing |
| `NameMatching.BestIsBest` | service/src/service/custom_name_matcher.cpp:58-63 | the rule used at a start is the one that fits there and is longer than, or as long as and earlier than, every other that fits |
| `AhoCorasick.GotoLongest` | service/src/service/custom_name_matcher.cpp:39-47 | one step of the automaton from the longest suffix in the tree reaches the longest suffix of the longer text |
| `AhoCorasick.OutputsInherited` | service/src/service/custom_name_matcher.cpp:146-149 | own outputs with those of the failure link are exactly the names that end there |
| `AhoCorasick.OutputsOfText` | service/src/service/custom_name_matcher.cpp:49-51 | a name is among the outputs of the state if and only if the text ends with it |
| `NameAutomata.Plant` | service/src/service/custom_name_matcher.cpp:87-124 | the tree holds the words of the usable names, their prefixes and nothing else |
| `NameLinks.Link` | service/src/service/custom_name_matcher.cpp:126-152 | every failure link is the longest proper suffix in the tree, every output list the names ending there |
| `MpmcRuns.RunKeeps` | debugger/src/bounded_mpmc_queue.hpp:28-77 | every step of every thread keeps the queue's invariant |
| `MpmcRuns.EveryRun` | debugger/src/bounded_mpmc_queue.hpp:28-77 | in every interleaving the window is at most the capacity, no two threads own a cell between claim and hand-over, and each ticket is popped at most once, after its push and with the value pushed |
| `MpmcRuns.NothingIsLost` | debugger/src/bounded_mpmc_queue.hpp:28-77 | when every call has returned each claimed ticket was returned by its call, and the cells hold in order what is not popped |
| `MpmcRuns.FailuresAreReal` | debugger/src/bounded_mpmc_queue.hpp:42-70 | a failed call read its cell at a moment of the run when the queue was full, the next ticket's cell not released, or empty, the next ticket not published |
| `MpmcSteps.SlotIsModulo` | debugger/src/bounded_mpmc_queue.hpp:38-38 | the cell of a ticket is the ticket modulo the capacity |
| `BoundedMpmcQueues.BoundedMpmcQueue.TryPush` | debugger/src/bounded_mpmc_queue.hpp:34-54 | alone, a push appends unless the queue is full, however often the exchange fails for no reason |
| `BoundedMpmcQueues.BoundedMpmcQueue.TryPop` | debugger/src/bounded_mpmc_queue.hpp:56-77 | alone, a pop takes the oldest value unless the queue is empty |
| `CommandLine.QuoteArgument` | service/src/service/lora_process.cpp:35-57 | the quoting loop writes the quoted form |
| `CommandLine.QuotedReads` | service/src/service/lora_process.cpp:35-57 | a quoted argument, followed by a blank or the end, is read back as itself |
| `CommandLine.ArgumentsReadBack` | service/src/service/lora_process.cpp:122-126 | for every list of arguments, reading the joined command line gives back exactly that list |
| `CommandLine.NameReadsBack` | service/src/service/lora_process.cpp:122-122 | the program's name is read back if and only if it holds no quotation mark and is not quoted with a backslash at its end |
| `CommandLine.CommandReadsBack` | service/src/service/lora_process.cpp:122-126 | for such names the whole command line is read back as name and arguments |
| `PaddingJson.AppendJsonString` | service/src/service/training_data_writer.cpp:173-197 | the escaping loop appends the JSON string |
| `PaddingJson.SerializePadding` | service/src/service/training_data_writer.cpp:214-238 | the loop over entries writes the padding text |
| `PaddingJson.TextReads` | service/src/service/training_data_writer.cpp:173-197 | reading an escaped text gives it back, every control character, quotation mark and backslash included |
| `PaddingJson.PaddingReads` | service/src/service/training_data_writer.cpp:214-238 | the padding text is a JSON array of one object for each entry |
| `PaddingJson.PaddingRoundTrip` | service/src/service/training_data_writer.cpp:214-238 | from it each entry's reading is recovered, or its literal when the reading is empty |
| `PaddingJson.ToneComesBack` | service/src/service/lora_dataset_builder.cpp:45-57 | adding the tone again undoes its removal, which happens exactly for readings of two or more symbols that end with a tone |
| `PaddingJson.ToneGoesAway` | service/src/service/training_data_writer.cpp:199-212 | removing it undoes adding it, for all five tones |
| `TrainingLineage.NeverTrainedTwice` | service/src/service/training_data_writer.cpp:496-508 | in every database reached from empty, along every lineage no commit is linked twice, the fingerprint is the same, and the cumulative count is the sum of the runs' counts and bounds the commits trained on |
| `TrainingLineage.CompletesExactly` | service/src/service/training_data_writer.cpp:1095-1188 | a run completes if and only if it fits its parent, counts its records, and names different events whose commits its lineage has not used; and in one way only |
| `TrainingLineage.TrainingDatabase.CompleteLoraTraining` | service/src/service/training_data_writer.cpp:1095-1188 | the transaction completes the run exactly then, or changes nothing |
| `TrainingLineage.TrainingDatabase.FindEligible` | service/src/service/training_data_writer.cpp:502-508 | the query finds an eligible commit of the event, or there is none |
| `StagingWriter.RowsAreSealed` | service/src/service/training_data_writer.cpp:1210-1248 | after any interleaving every row is sealed under the present public key |
| `StagingWriter.OnlyAfterReset` | service/src/service/training_data_writer.cpp:688-715 | after a reset that succeeded only commits queued after it are ever stored |
| `StagingWriter.SessionsInOrder` | service/src/service/training_data_writer.cpp:1295-1313 | a session has at most one staged commit, and its commits reach the database in the order they were queued |
| `StagingWriter.DeadlinesSorted` | service/src/service/training_data_writer.cpp:1306-1313 | staged deadlines are sorted |
| `StagingWriter.FlushIsExact` | service/src/service/training_data_writer.cpp:1324-1330 | a flush takes the first staged commit while it has expired, and stops only when nothing staged has |
| `StagingWriter.NothingIsForgotten` | service/src/service/training_data_writer.cpp:1250-1331 | when nothing is on its way every commit queued has met a fate: stored or its row there before, and then it had input; without input; discarded, and then some step discarded its session and sequence; rejected, cleared or dropped, and then recording was switched off, the data reset, or the database failed at some step |
| `StagingWriter.RowsArePersisted` | service/src/service/training_data_writer.cpp:1210-1248 | after any steps the rows of the writer are exactly the commits persisted since the last reset, one row for each, under the session and sequence it was queued with |
| `StagingWriter.NothingStoredWhileOff` | service/src/service/training_data_writer.cpp:1214-1215 | from the moment recording is off until it is switched on again no row is added, whatever is queued or staged |
| `StagingWriter.FatesStand` | service/src/service/training_data_writer.cpp:1250-1331 | in every run what became of a commit stands, so it met one fate |
| `TrainingDataWriters.FlushTakesExpired` | service/src/service/training_data_writer.cpp:1324-1330 | a flush hands over exactly the expired commits, oldest first |
| `TrainingDataWriters.TrainingDataWriter.Enqueue` | service/src/service/training_data_writer.cpp:569-582 | queueing in place does what the step says |
| `TrainingDataWriters.TrainingDataWriter.Persist` | service/src/service/training_data_writer.cpp:1210-1248 | so does storing a commit, with the key remembered of its generation |
| `TrainingDataWriters.TrainingDataWriter.Handle` | service/src/service/training_data_writer.cpp:1276-1305 | so does handling an operation, with its searches |
| `TrainingDataWriters.TrainingDataWriter.FlushExpired` | service/src/service/training_data_writer.cpp:1324-1330 | the flushing loop does what the worker's steps do |
| `GpuLease.GpuActivityLease.Activate` | service/src/service/gpu_activity_lease.hpp:81-103 | an accepted activation moves the deadline, and boosts only when the boost is not owed; a lease so taken has one timer |
| `GpuLease.GpuActivityLease.Fire` | service/src/service/gpu_activity_lease.hpp:130-148 | a timer of an older generation does nothing, one before the deadline is armed again, and the boost is given back no earlier than the idle time after the last accepted activation |
| `GpuLease.GpuActivityLease.Release` | service/src/service/gpu_activity_lease.hpp:105-128 | a failed attempt keeps the lease with one timer, until four have failed |
| `GpuLease.GpuActivityLease.Reset` | service/src/service/gpu_activity_lease.hpp:60-79 | replacing the backend gives back exactly what is owed and leaves no timer of its own |
| `GpuLease.NeverTakenTwice` | service/src/service/gpu_activity_lease.hpp:81-128 | between two requests to boost, the first having succeeded, the boost was given back or the backend replaced |
| `GpuLease.WorkerMain` | service/src/service/amd_gpu_boost_worker.cpp:238-264 | the worker exits with 0 if and only if the driver has no restoration pending, and then its clock is unchanged; otherwise all its retries failed |
| `GpuLease.AmdDriverClock.Set` | service/src/service/amd_gpu_latency_boost.cpp:102-117 | a restoration is pending from any request to boost until one succeeds, and while the clock may be changed |

## Left out

- TSF and COM: ranges, cookies, display attributes and the language bar; of the text service only the queues of edits and grants are modelled.
- Private scopes, host termination, tracing, logging, statistics and every user interface.
- `CompositionController::reset`, a change of the immediate-conversion setting while a composition is open, prefilled context sent to the backend, and text inserted by other commands.
- `select_candidate` without the `candidate_finalized` that follows it: a pick is one event.
- Typing into a document that is not open does nothing here; the source's host refuses the edit.
- The host reads at most 384 characters before a composition; the model's context is the whole text.
- Edits to a document by anyone else, and a caret elsewhere than behind the text.
- `SealedQueues.SealedQueue`: the flat list has no `add`, `context_ready`, `placed` and `convert`; these are methods and functions of the controller, on a list for each document.
- A backend output with a choose index outside its candidates, where the source throws.
- Wrap-around of epochs, sequence numbers, versions, generations and queue counters; memory orderings weaker than sequential consistency.
- `MpmcQueue`: values stand for any type; destruction of the queue is not modelled.
- The inference engine, the tokenizer, SQLite, libsodium and the JSON library: results are arbitrary lists, tables are sets and maps, a sealed row is a row paired with its key.
- `StagingWriter`: the pending count shown in the settings, secure deletion and journal truncation, and which columns a row has.
- `TrainingLineage`: columns of a run that no rule looks at, and the migration of older databases; a row without them passes or fails as a whole.
- `PaddingJson.PaddingReads`: the reader takes a part of the grammar of RFC 8259, without fractions, signs, names for true, false and null, and escaped surrogates, none of which the writer produces.
- `GpuLease`: failures to schedule a timer; handles, events and shared memory between the service and the worker; other threads.
- Settings and history windows, presets, key routing, candidate paging, the debugger's window, pipes, launching of processes, installation, and the parsing of PCI addresses.
