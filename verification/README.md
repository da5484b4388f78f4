# Verified models of OpenVoiceStream's graph surgery, lifecycle protocols and bookkeeping

This project models the parts of the repository whose correctness spans many steps, and proves
what they promise. Each module follows one source file or one component of it.

**ONNX graph transformations** (`scripts/`). `Graphs` evaluates a node list from left to right over
an environment of tensors; a list is well-formed when it is topologically sorted and single-assignment.
`Onnx` interprets the operators that the scripts insert or remove (Range, Slice, Cast, Unsqueeze, Div,
Shape, STFT, Conv, Reshape, Transpose) over integer and real tensors in row-major order (`Tensors`), and
leaves all others, and sine and cosine, uninterpreted. All meaning-preservation proofs rest on two facts
in `Graphs`: a well-formed list evaluates to a solution of its node equations, and any runnable list of
nodes that are solved in an environment evaluates to that environment.
`SplitKokoro`, `TraceDependencies`, `MatchaRange`, `MatchaRangePass`, `MatchaLengthScale`, `MatchaNoise`,
`MatchaSurgery`, `StftKernels`, `StftRewrite` are the scripts; `Dependencies`, `Rewriting`, `StftEquivalence`,
`StftPreservation` hold the theory.

**Concurrent protocols** (`app/`). Each manager is an object whose methods are its lock-held regions, or its
stretches between awaits, and each method is tied to a function on the manager's abstract state. A run is a
sequence of those regions in any order, with what the foreign calls answer as parameters, so statements about
a run hold in every interleaving. `AsrSession` and `AsrRuns` are the per-utterance speech session manager,
`TtsPipeline` the prefetching sentence stream, `BackendLifecycle` and `BackendSafety` the hot-reload manager
with its cached factories, `BackendPair` the two such managers of the process over their one profile loader,
`SessionLimiter` the admission counter with its shadow metric.

**Algorithms and reconciliation.** `SessionHistory` and `SessionTrim` are the conversation history and its
budgeted trim, `Lcs` the two-row similarity table, `VocabExpansion` the token-map extension, `Templates` and
`ProfileEnv` the profile loader's variable expansion and environment reconciliation, `GpuWatchdog` the
probe hysteresis.

Where a promise holds only under a condition, the condition is proved to be exact, and a concrete failing
run or input stands beside it:

- a prefetching stream comes to rest complete exactly when the window is at least two or there is at most one
  sentence (`TtsPipeline.CompletesIff`, `TtsPipeline.EndsIff`; `TtsPipeline.WindowOneStuck`);
- the session manager's documentation says every entry into ACTIVE has a fresh generation: that is so exactly for
  speech starts, not for reported errors (`AsrRuns.ActiveEntry`; `AsrRuns.ActiveWithoutNewGeneration`), and an
  accepted text is the current stream's exactly when no rebuild ran since its finalize began
  (`AsrRuns.AcceptedIsCurrentIff`; `AsrRuns.OverlappingFinalizes`);
- a rollback leaves in force what was in force before the swap exactly when there was no target, or the ref to go
  back to is that profile, or there is no such ref and the failed application wrote nothing or applied the profile
  already in force (`BackendSafety.RollbackRestoresIff`, `BackendPair.PairRollbackRestoresIff`). A recorded ref is
  that profile as long as nobody else applies one (`BackendSafety.UndisturbedRollbackRestores`), but the other
  manager's reload is not recorded (`BackendPair.OtherManagersProfileIsLost`), and without a ref the failed profile
  may stay (`BackendSafety.UnseededRollbackKeepsNewProfile`);
- the noise surgery yields a well-formed graph exactly when the random output is used once
  (`MatchaNoise.NoiseWellFormed`; `MatchaNoise.TwoReadersDangle`);
- the STFT rewrite preserves a graph exactly when for each STFT node the imaginary sign is -1 or its transform has
  no imaginary part (`StftPreservation.RewritePreserves`), and is right for all signals of a window exactly when the
  sign is -1 or all imaginary coefficients vanish (`StftEquivalence.ConvIsStftForAll`; `StftEquivalence.WrongSign`);
- leading non-user messages are not counted by the trim, which decides when it meets its budget
  (`SessionTrim.TrimFitsIff`; `SessionTrim.LeadingReplyExceeds`);
- rolling a conversation back to a recorded length restores it exactly when all that was cut off below that length
  has been added again (`SessionTrim.RollbackRestoresIff`; `SessionTrim.RollbackAfterClear`);
- a profile writes the same values whatever profiles came before exactly when the values it writes refer only to its
  own strings and to operator keys (`ProfileEnv.WrittenSameIff`; `ProfileEnv.StaleExpansion`).

`dafny verify dfyconfig.toml` checks the project.

## Model

| member | source | states |
|---|---|---|
| SplitKokoro.AncestorVisitor.VisitTensor | scripts/split_kokoro_hybrid.py:118-129 | the recursive visit adds only nodes reachable backward from the cut, and leaves no input of an added node unvisited |
| SplitKokoro.FindAncestors | scripts/split_kokoro_hybrid.py:118-129 | the visited set is exactly the backward-reachable nodes |
| SplitKokoro.ReadInputs | scripts/split_kokoro_hybrid.py:144-148 | the two loops collect exactly the graph inputs the suffix reads |
| SplitKokoro.SuffixInputs | scripts/split_kokoro_hybrid.py:144-153 | the suffix keeps the original inputs it reads, in their order |
| SplitKokoro.SplitModelByOutput | scripts/split_kokoro_hybrid.py:109-173 | suffix, boundary and suffix inputs of a cut at a tensor; an error exactly when no node produces it |
| SplitKokoro.SplitModel | scripts/split_kokoro_hybrid.py:51-106 | the same for a cut at a node index, with its two error cases |
| SplitKokoro.PrefixIsAncestors | scripts/split_kokoro_hybrid.py:136-142 | extracting what the boundary depends on gives exactly the visited ancestors |
| SplitKokoro.SuffixReadsSupplied | scripts/split_kokoro_hybrid.py:144-155 | every read of a suffix node is an initializer, a kept input, a boundary tensor or an earlier suffix output |
| SplitKokoro.BoundaryExact | scripts/split_kokoro_hybrid.py:134-139 | a boundary tensor is the cut tensor, or produced by an ancestor and read by a node of the suffix; nothing else is |
| SplitKokoro.SplitPreserves | scripts/split_kokoro_hybrid.py:134-173 | for every closed cut and every feed, prefix then suffix compute the original values; exactly the tensors that neither half hands on are missing, and an overridden initializer the suffix does not read keeps its own value |
| SplitKokoro.SplitByOutputPreserves | scripts/split_kokoro_hybrid.py:109-173 | splitting at a tensor keeps every tensor in that sense |
| SplitKokoro.SplitByIndexPreserves | scripts/split_kokoro_hybrid.py:51-106 | splitting at an index keeps every tensor in that sense |
| TraceDependencies.DependencyTracer.VisitTensor | scripts/trace_onnx_dependencies.py:29-46 | a visit adds only nodes and leaves reachable from the output without passing a stop tensor or initializer, and settles all inputs of added nodes |
| TraceDependencies.DependencyTracer.Trace | scripts/trace_onnx_dependencies.py:26-49 | used nodes and needed inputs are exactly what is reachable from the outputs |
| TraceDependencies.TraceSuffices | scripts/trace_onnx_dependencies.py:22-49 | evaluating only the used nodes from needed inputs and initializers gives every output its value |
| TraceDependencies.TraceDetermines | scripts/trace_onnx_dependencies.py:22-49 | runs that agree on needed inputs and initializers agree on the outputs |
| MatchaRange.RedirectReaders | scripts/surgery_matcha_acoustic.py:297-301 | every read of the range output becomes a read of the new output |
| MatchaRange.InsertPosition | scripts/surgery_matcha_acoustic.py:315-318 | the insertion point is the first reader, or the end |
| MatchaRange.ReplaceRangeNode | scripts/surgery_matcha_acoustic.py:206-326 | redirecting, inserting and removing give the specified list and initializers |
| MatchaRange.FixRangeNodes | scripts/surgery_matcha_acoustic.py:172-329 | the loop over the configured nodes: node list, initializers and error in every case, including the edits made before an error |
| MatchaRange.ReplaceRangeIs | scripts/surgery_matcha_acoustic.py:297-324 | in a well-formed list the edits move the production of the range before its first reader |
| MatchaRange.IntegerRangeIsSlice | scripts/surgery_matcha_acoustic.py:172-184 | the slice of the static table is Range(0, N, 1) exactly for 0 <= N <= max or N <= -max |
| MatchaRange.FloatRangeIsSlice | scripts/surgery_matcha_acoustic.py:239-295 | the same for a float limit that is cast to an integer and back |
| MatchaRange.RangePreserves | scripts/surgery_matcha_acoustic.py:206-326 | one replacement keeps the list well-formed and all values but the removed output |
| MatchaRangePass.RangesPreserve | scripts/surgery_matcha_acoustic.py:172-329 | all configured replacements in a row do, if the configured nodes of the original graph fit and the generated names are unused and apart |
| MatchaRangePass.StillFits | scripts/surgery_matcha_acoustic.py:200-236 | after one replacement every other configured node is found again, unchanged, passes the same float test and still fits |
| MatchaSurgery.Convert | scripts/surgery_matcha_acoustic.py:390-397 | the three surgeries in sequence, stopping at the first error |
| MatchaSurgery.SurgeryPreserves | scripts/surgery_matcha_acoustic.py:390-397 | fed the noise and an integer length scale, the converted graph is well-formed and computes what the original computes on a thousandth of it, all premises being about the original graph |
| MatchaLengthScale.FindConsumers | scripts/surgery_matcha_acoustic.py:143-147 | the consumers are found in node and input order |
| MatchaLengthScale.RedirectConsumers | scripts/surgery_matcha_acoustic.py:149-166 | inserting at shifting positions puts each Cast and Div directly before the node whose input they replace |
| MatchaLengthScale.FixLengthScaleType | scripts/surgery_matcha_acoustic.py:110-169 | new input type, constant and node list; nothing changes without the input |
| MatchaLengthScale.ScaledWellFormed | scripts/surgery_matcha_acoustic.py:149-166 | the new list is sorted and single-assignment |
| MatchaLengthScale.LengthScalePreserves | scripts/surgery_matcha_acoustic.py:110-169 | fed an integer tensor, the new graph computes what the old one computes on a thousandth of it; for a scalar the old graph is fed the one-element vector that the division yields |
| MatchaNoise.FindConsumer | scripts/surgery_matcha_acoustic.py:56-64 | the nested scan finds the first use in the last reader |
| MatchaNoise.FixRandomNormalLike | scripts/surgery_matcha_acoustic.py:36-107 | node list, initializers, inputs and error in every case, including the edits left behind by the late error |
| MatchaNoise.NoiseShape | scripts/surgery_matcha_acoustic.py:78-91 | the noise slice has the random tensor's shape exactly when that fits the noise input |
| MatchaNoise.NoiseWellFormed | scripts/surgery_matcha_acoustic.py:92-99 | the new list is well-formed exactly when the random output had a single use |
| MatchaNoise.TwoReadersDangle | scripts/surgery_matcha_acoustic.py:54-99 | a graph with two readers of the random output that is no longer well-formed |
| MatchaNoise.NoisePreserves | scripts/surgery_matcha_acoustic.py:36-107 | with a single use, and noise whose leading block is the random tensor, every other tensor keeps its value |
| StftKernels.RowDecodes | scripts/rewrite_onnx_stft_to_conv.py:57-64 | the channel of a frequency and part decodes to that frequency and part |
| StftKernels.RowCovers | scripts/rewrite_onnx_stft_to_conv.py:57-64 | every channel holds exactly one frequency and part |
| StftKernels.MakeBasis | scripts/rewrite_onnx_stft_to_conv.py:51-68 | the filled array is the windowed cosine and signed sine bank in row-major order; errors for a wrong window length or unknown layout |
| StftEquivalence.MergeAxes | scripts/rewrite_onnx_stft_to_conv.py:107-116 | the row-major reshape between one channel axis and two axes moves no element |
| StftEquivalence.ChannelFlat | scripts/rewrite_onnx_stft_to_conv.py:107-139 | in either layout the transposed index reads the channel of its frequency and part |
| StftEquivalence.CorrelateIsDft | scripts/rewrite_onnx_stft_to_conv.py:65-67 | correlating a frame with a kernel row is the windowed DFT sum |
| StftEquivalence.ByConvAt | scripts/rewrite_onnx_stft_to_conv.py:118-141 | the inserted operators compute the signed DFT at every batch, frame, frequency and part, with the frame count of the ONNX operator specification's STFT entry (opset 17) |
| StftEquivalence.ConvIsStft | scripts/rewrite_onnx_stft_to_conv.py:51-141 | they compute the STFT exactly when the imaginary sign is -1 or all imaginary parts are zero |
| StftEquivalence.ConvIsStftForAll | scripts/rewrite_onnx_stft_to_conv.py:51-141 | for a window, they do so for every signal exactly when the sign is -1 or each window sample times its sine is zero |
| StftEquivalence.WrongSign | scripts/rewrite_onnx_stft_to_conv.py:67 | with sign 1 an impulse under a window of four ones is transformed wrongly |
| StftEquivalence.LayoutsAgree | scripts/rewrite_onnx_stft_to_conv.py:57-64 | both channel layouts give the same tensor |
| StftRewrite.ExpandNode | scripts/rewrite_onnx_stft_to_conv.py:81-141 | the four nodes and three constants for one STFT node, and which error comes first |
| StftRewrite.Rewrite | scripts/rewrite_onnx_stft_to_conv.py:71-142 | the rebuilt list, added constants and count; on an error the list is unchanged |
| StftPreservation.BlockEval | scripts/rewrite_onnx_stft_to_conv.py:118-141 | running the inserted block gives the intermediate tensors and the STFT result |
| StftPreservation.RewritePreserves | scripts/rewrite_onnx_stft_to_conv.py:71-142 | the rewritten graph is well-formed, and gives every old tensor its value exactly when for each STFT node the sign is -1 or its transform has no imaginary part |
| AsrSession.ASRSessionManager.CreateStream | app/core/asr_session_manager.py:162-166 | a new stream is recorded for the current generation |
| AsrSession.ASRSessionManager.DoRebuildLocked | app/core/asr_session_manager.py:465-492 | the ladder takes the first attempt that succeeds, restarting the worker exactly when the three retries fail |
| AsrSession.ASRSessionManager.HandleErrorLocked | app/core/asr_session_manager.py:445-463 | the broken stream is closed and the ladder run, unless a recovery is in progress |
| AsrSession.ASRSessionManager.CancelLocked | app/core/asr_session_manager.py:345-397 | outside IDLE the stream is closed and IDLE entered; the worker is restarted exactly after a timeout or protocol error |
| AsrSession.ASRSessionManager.OnSpeechStart | app/core/asr_session_manager.py:169-207 | preemption, new generation and stream; failure exactly when no stream results |
| AsrSession.ASRSessionManager.AcceptAudioTake | app/core/asr_session_manager.py:222-234 | the first region of an audio push |
| AsrSession.ASRSessionManager.FinalizeBegin | app/core/asr_session_manager.py:282-287 | FINALIZING and a snapshot, only from ACTIVE |
| AsrSession.ASRSessionManager.FinalizeWithoutStream | app/core/asr_session_manager.py:288-291 | a finalize that found no stream frees the session |
| AsrSession.ASRSessionManager.FinalizeEnd | app/core/asr_session_manager.py:302-320 | the text is accepted exactly in FINALIZING with the same generation, and then the stream is closed |
| AsrSession.ASRSessionManager.PartialBegin | app/core/asr_session_manager.py:330-334 | generation and stream are read together, the stream only in ACTIVE |
| AsrRuns.StreamConservation | app/core/asr_session_manager.py:175-207 | after any run the state is IDLE, ACTIVE or FINALIZING, IDLE exactly without a stream, the stream was made for the current generation, and every other stream was closed exactly once |
| AsrRuns.CancelClosesAll | app/core/asr_session_manager.py:341-397 | after a cancel every stream ever made has been closed exactly once |
| AsrRuns.SpeechOutcome | app/core/asr_session_manager.py:169-207 | a speech start takes the next generation and ends ACTIVE with a stream for it exactly when the first creation or some attempt of the ladder succeeds, else IDLE |
| AsrRuns.GenerationSafety | app/core/asr_session_manager.py:265-320 | with one finalize at a time, an accepted text is the current stream's, made for the returned generation |
| AsrRuns.FinalizeAccepted | app/core/asr_session_manager.py:282-320 | an undisturbed finalize is accepted with the active stream's text and frees the session |
| AsrRuns.AcceptedIsCurrentIff | app/core/asr_session_manager.py:302-320 | with any number of finalizes, it is the current stream's exactly when no rebuild ran since the finalize began |
| AsrRuns.AcceptedOrder | app/core/asr_session_manager.py:302-320 | accepted generations never decrease, and repeat only with a rebuild in between |
| AsrRuns.PartialsTagged | app/core/asr_session_manager.py:322-339 | every partial is read from a stream made for the generation it is tagged with |
| AsrRuns.OverlappingFinalizes | app/core/asr_session_manager.py:282-320 | a run in which two finalizes overlap across a rebuild and a closed stream's text is accepted |
| AsrRuns.ActiveWithoutNewGeneration | app/core/asr_session_manager.py:22-23 | a run that re-enters ACTIVE from IDLE with the old generation |
| AsrRuns.ActiveEntry | app/core/asr_session_manager.py:22-23 | after any region, wherever it starts, the phase is ACTIVE exactly if a speech start or a reported error entered it or it was ACTIVE and nothing changed, and the generation is fresh exactly for speech starts |
| AsrRuns.GenerationStep | app/core/asr_session_manager.py:175-187 | only a speech start moves the generation, by one |
| TtsPipeline.Pipeline.constructor | app/main.py:1424-1479 | only sentence 0 is submitted at the start, and the window is capped by the number of sentences |
| TtsPipeline.Pipeline.TryPrefetch | app/main.py:1481-1492 | the next sentence is submitted exactly when one is left, no cancel is flagged and the window allows it |
| TtsPipeline.Pipeline.DrainOne | app/main.py:1496-1521 | one item of the drain loop: yield and prefetch on the first chunk, prefetch and advance at the end of a sentence |
| TtsPipeline.Pipeline.Push | app/main.py:1445-1448 | a producer pushes its next chunk |
| TtsPipeline.Pipeline.Finish | app/main.py:1454-1468 | a producer ends its queue |
| TtsPipeline.Pipeline.Disconnect | app/main.py:1368-1371 | the disconnect watcher raises the cancel flag and changes nothing else |
| TtsPipeline.SubmittedOnce | app/main.py:1470-1492 | sentences are submitted once, in order, never further ahead than the window |
| TtsPipeline.StreamsInOrder | app/main.py:1494-1521 | the output is always a prefix of all sentences' chunks in order, and all of them when the run finishes uncancelled |
| TtsPipeline.NeverWaitsUnsubmitted | app/main.py:1481-1502 | with a window of two or more, or one sentence, the loop never waits on a sentence that was not submitted |
| TtsPipeline.CompletesIff | app/main.py:1481-1521 | an uncancelled run at rest is complete, with all chunks yielded, exactly when the window is at least two or there is at most one sentence |
| TtsPipeline.EndsIff | app/main.py:1481-1521 | any run at rest, cancelled or not, has ended exactly when that holds or the loop never got past the first sentence |
| TtsPipeline.WindowOneStuck | app/main.py:1484-1502 | a run with window one and two sentences that waits for a sentence never submitted |
| TtsPipeline.RunsComeToRest | app/main.py:1432-1521 | every run comes to rest after a bounded number of effective events |
| BackendLifecycle.BackendManager.Factory | app/main.py:746-750 | the cached factory builds only when the module global is empty |
| BackendLifecycle.BackendManager.Unloader | app/main.py:759-764 | the unloader empties the module global |
| BackendLifecycle.BackendManager.StartBackend | app/core/backend_manager.py:151-176 | INIT to READY or FAILED, seeding the profile ref |
| BackendLifecycle.BackendManager.AcquireBackend | app/core/backend_manager.py:236-246 | a request is let in exactly in READY with a backend |
| BackendLifecycle.BackendManager.ReleaseBackend | app/core/backend_manager.py:247-253 | the release region, clamp included |
| BackendLifecycle.BackendManager.RequestReload | app/core/backend_manager.py:328-398 | which check refuses a reload, and the snapshot taken otherwise |
| BackendLifecycle.BackendManager.StartDrain | app/core/backend_manager.py:400-403 | DRAINING is entered once the checks have passed |
| BackendLifecycle.BackendManager.PollDrain | app/core/backend_manager.py:263-281 | a drain reports clean exactly at a zero counter |
| BackendLifecycle.BackendManager.SwapBackend | app/core/backend_manager.py:417-516 | unload, apply, build and preload in order, rolling back on the first failure |
| BackendLifecycle.BackendManager.GoBack | app/core/backend_manager.py:481-510 | the rollback branch |
| BackendLifecycle.BackendManager.FinishReload | app/core/backend_manager.py:435-516 | the last locked region: READY after success or rollback, FAILED otherwise |
| BackendSafety.CounterExact | app/core/backend_manager.py:236-253 | the counter equals the requests inside acquire, and the clamp never acts |
| BackendSafety.GrantsOnlyReady | app/core/backend_manager.py:236-246 | a request gets in only in READY and gets the live, never unloaded instance |
| BackendSafety.CleanDrainSafe | app/core/backend_manager.py:400-423 | after a clean drain nobody holds the unloaded instance, then or later |
| BackendSafety.OneInstanceAtATime | app/main.py:746-764 | before each construction every earlier instance was passed to the unloader |
| BackendSafety.ReadyIsConsistent | app/core/backend_manager.py:417-520 | in READY manager and module global hold one instance; in FAILED the manager holds none |
| BackendSafety.ReloadEnds | app/core/backend_manager.py:355-520 | a reload past its checks ends READY with a new instance or FAILED with none, as the foreign calls' answers decide; the old and the failed instance are unloaded and not reused |
| BackendSafety.RollbackRestoresIff | app/core/backend_manager.py:355-503 | for every manager and run, other applications of profiles included, exactly when a rollback ends with the profile that was in force before the swap: no target, or a ref to go back to that was in force, or no such ref and a failed application that wrote nothing or applied the profile already in force |
| BackendSafety.RecordedRollbackRestores | app/core/backend_manager.py:361-363 | a manager with a recorded ref puts that ref in force, so it restores exactly when that was in force |
| BackendSafety.UndisturbedRollbackRestores | app/core/backend_manager.py:452-503 | with a recorded ref or without a target it restores whenever nobody else applied a profile since the startup or since this manager's last reload with a target |
| BackendSafety.RefIsRecorded | app/core/backend_manager.py:161-168 | a ref is recorded by seeding or by a successful reload with a target, and stays recorded |
| BackendSafety.UnseededRollbackKeepsNewProfile | app/core/backend_manager.py:355-366 | a run of a manager without recorded ref or usable name whose rolled-back instance runs under the failed profile |
| BackendPair.EachRunsAlone | app/main.py:782-799 | in every joint run of the two managers over one profile loader they agree on the profile in force, and each is in a run of a single manager that sees the other's applications from elsewhere |
| BackendPair.PairRollbackRestoresIff | app/core/backend_manager.py:355-503 | the exact condition for either manager in every joint run |
| BackendPair.OtherManagersProfileIsLost | app/main.py:782-799 | a joint run, both seeded with one ref, in which one manager reloads and the other's failed reload puts the seeded profile back in force |
| SessionHistory.Session.AddUserMessage | agent/openvoicestream_agent/session.py:149-150 | appends the user message |
| SessionHistory.Session.AddAssistantMessage | agent/openvoicestream_agent/session.py:152-154 | appends the reply, or clears history and flags on an echo loop; no echo loop is left |
| SessionHistory.Session.AddAssistantToolCalls | agent/openvoicestream_agent/session.py:156-171 | appends the tool calls, content possibly absent |
| SessionHistory.Session.AddToolMessage | agent/openvoicestream_agent/session.py:173-179 | appends the tool result with its call id |
| SessionHistory.Session.RollbackTo | agent/openvoicestream_agent/session.py:181-197 | truncates to the anchor and returns how many messages were dropped |
| SessionHistory.Session.RecoverFromEcho | agent/openvoicestream_agent/session.py:206-240 | clears exactly when the last three replies are the same text of at most 40 characters |
| SessionHistory.Budget | agent/openvoicestream_agent/session.py:332 | three quarters of the limit, rounded toward zero |
| SessionHistory.Session.Messages | agent/openvoicestream_agent/session.py:258-271 | the prompt with or without a token limit, and when the cache flag is cleared |
| SessionHistory.Session.GroupTurns | agent/openvoicestream_agent/session.py:341-354 | the grouping loops compute the turns |
| SessionHistory.Session.DropOldest | agent/openvoicestream_agent/session.py:439-446 | the loop drops as many turns as specified |
| SessionHistory.Session.DropRaw | agent/openvoicestream_agent/session.py:364-384 | the fallback loop drops single messages |
| SessionHistory.Session.TrimToBudget | agent/openvoicestream_agent/session.py:299-500 | system message, then the trimmed history |
| SessionTrim.TurnsPartition | agent/openvoicestream_agent/session.py:341-354 | the turns make up the history from its first user message, each with exactly one user message, at its start |
| SessionTrim.PartitionUnique | agent/openvoicestream_agent/session.py:341-354 | there is only one such partition |
| SessionTrim.TrimDropsLeast | agent/openvoicestream_agent/session.py:411-500 | over budget, the result is the history from one of its user messages on, with the least number of turns dropped that fits or leaves one |
| SessionTrim.FallbackKeepsLongest | agent/openvoicestream_agent/session.py:364-409 | without user messages the longest suffix that fits is kept |
| SessionTrim.TrimFitsIff | agent/openvoicestream_agent/session.py:426-446 | the result meets the budget exactly when the last turn does, or, if the turns are within budget, the whole history does |
| SessionTrim.LeadingReplyExceeds | agent/openvoicestream_agent/session.py:345-347 | a history with a leading reply that exceeds the budget after trimming although its last turn fits |
| SessionTrim.UserFirstFitsIff | agent/openvoicestream_agent/session.py:426-446 | a history that starts with a user message fits exactly when its last turn alone fits |
| SessionTrim.TrimIdempotent | agent/openvoicestream_agent/session.py:299-500 | trimming twice is trimming once |
| SessionTrim.TrimKeepsRounds | agent/openvoicestream_agent/session.py:304-316 | trimming a history with a user message keeps every tool message behind its issuing message |
| SessionTrim.FallbackKeepsRoundsIff | agent/openvoicestream_agent/session.py:364-409 | the fallback does so for every budget exactly when there are no tool messages |
| SessionTrim.RollbackRestores | agent/openvoicestream_agent/session.py:181-197 | rolling back to a recorded length restores the recorded history if nothing cleared it or cut below in between |
| SessionTrim.UndisturbedIff | agent/openvoicestream_agent/session.py:181-240 | for a positive length nothing did exactly when the history never was shorter than that |
| SessionTrim.RollbackRestoresIff | agent/openvoicestream_agent/session.py:181-240 | for every history and operations it restores exactly when what was cut off below that length has been added again |
| SessionTrim.RollbackAfterClear | agent/openvoicestream_agent/session.py:134-147 | a clear in between breaks this, leaving an orphan tool result |
| Lcs.NextRow | deploy/roundtrip_verify.py:35-38 | one row of the table from the row before |
| Lcs.Similarity | deploy/roundtrip_verify.py:27-40 | the table method returns the score |
| Lcs.LengthIsMaximum | deploy/roundtrip_verify.py:34-40 | the number behind the score is the maximum length over all common subsequences |
| Lcs.LengthSymmetric | scripts/verify_tts_asr_roundtrip.py:66-72 | it is symmetric |
| Lcs.LengthBounds | deploy/roundtrip_verify.py:34-40 | it is at most either length, and equals the longer one exactly for equal strings |
| Lcs.ScoreMeaning | scripts/verify_tts_asr_roundtrip.py:59-72 | under any normaliser the score is symmetric, within 0 and 1, and 1 exactly for equal normal forms |
| VocabExpansion.CorpusTokenIds | scripts/expand_qwen3_tts_pruned_vocab.py:76-86 | distinct in-range ids of the encoded lines in order of first occurrence |
| VocabExpansion.Additions.Add | scripts/expand_qwen3_tts_pruned_vocab.py:99-102 | an id is appended exactly when in range and new |
| VocabExpansion.Additions.FillUp | scripts/expand_qwen3_tts_pruned_vocab.py:108-111 | the fill ids are the smallest remaining ones, and too few only if all are used |
| VocabExpansion.BuildExpandedMap | scripts/expand_qwen3_tts_pruned_vocab.py:89-118 | success exactly when distinct new wanted ids <= add_rows <= ids missing from the base, the base map as prefix, and then the expansion |
| VocabExpansion.ExpansionMeaning | scripts/expand_qwen3_tts_pruned_vocab.py:89-118 | an expansion has add_rows distinct in-range ids, disjoint from the base, with all forced and corpus ids |
| VocabExpansion.ExpansionUnique | scripts/expand_qwen3_tts_pruned_vocab.py:104-118 | there is only one expansion |
| Templates.UnparseParse | app/core/profile_loader.py:340-367 | splitting a template into pieces loses nothing |
| Templates.SubstitutePlain | app/core/profile_loader.py:353-367 | text without a dollar sign is unchanged |
| Templates.SubstituteNamed | app/core/profile_loader.py:340-367 | $name becomes its value, or stays as written when unknown |
| Templates.SubstituteBraced | app/core/profile_loader.py:340-367 | ${name} likewise, whatever follows |
| Templates.SubstituteAgrees | app/core/profile_loader.py:340-367 | expansion depends only on the variables referred to |
| ProfileEnv.ProfileLoader.ExpandBlock | app/core/profile_loader.py:227-233 | every value of the block expanded over the profile's strings, then the environment |
| ProfileEnv.ProfileLoader.ClearStale | app/core/profile_loader.py:248-253 | previously applied keys that are not wanted are removed, operator keys kept |
| ProfileEnv.ProfileLoader.WriteValues | app/core/profile_loader.py:255-274 | either all non-operator values are written, or a critical operator key differs |
| ProfileEnv.ProfileLoader.ApplyProfile | app/core/profile_loader.py:193-292 | raises exactly on a critical operator mismatch; success gives the specified state; operator keys never change |
| ProfileEnv.EmptyYieldsToProfile | app/core/profile_loader.py:33-49 | a key declared but empty at import is not the operator's and takes the profile's value |
| ProfileEnv.HistoryIndependent | app/core/profile_loader.py:215-279 | after any successful calls: operator keys as at import, the last call's keys with its values, keys of earlier calls only absent, others untouched |
| ProfileEnv.LastCallDecides | app/core/profile_loader.py:215-279 | a self-contained profile applied after successful calls raises exactly when it would alone, and if not, gives the environment it would alone exactly when no other call named a non-operator key set at import |
| ProfileEnv.ThereAndBack | app/core/profile_loader.py:215-279 | if A and then B succeed, so does A again, and A, B, A equals A under the same exact condition |
| ProfileEnv.WrittenSameIff | app/core/profile_loader.py:231-274 | a call writes the same values after every sequence of successful calls exactly when the values it writes from its block refer only to its own strings and operator keys |
| ProfileEnv.Distinguish | app/core/profile_loader.py:231-253 | any other reference is told apart by an earlier successful call |
| ProfileEnv.StaleExpansion | app/core/profile_loader.py:231-253 | for any value `$x`, an earlier successful call that sets x decides what is written, although x is then cleared |
| SessionLimiter.Limiter.TryAcquire | app/core/session_limiter.py:161-177 | granted exactly below the limit |
| SessionLimiter.Limiter.Release | app/core/session_limiter.py:179-191 | only the first release of a token gives its slot back |
| SessionLimiter.SessionMetric.Increment | app/core/metrics.py:192-198 | counts up |
| SessionLimiter.SessionMetric.Decrement | app/core/metrics.py:201-208 | counts down, clamped at zero |
| SessionLimiter.ActiveCountsUnreleased | app/core/session_limiter.py:161-191 | in every interleaving active is the number of granted, unreleased tokens, within 0 and the limit |
| SessionLimiter.ShadowDiffers | app/core/metrics.py:192-208 | the metric differs by the pending count-ups and count-downs, and agrees when none is pending |
| SessionLimiter.ClampsNeverAct | app/core/metrics.py:201-208 | neither clamp ever acts |
| GpuWatchdog.Watchdog.ApplyCheckResult | app/core/gpu_watchdog.py:310-342 | the status after one probe |
| GpuWatchdog.HysteresisByHistory | app/core/gpu_watchdog.py:310-342 | not-ok exactly when the latest time of 3 failures in a row is more recent than that of 5 successes in a row |
| GpuWatchdog.ReasonIsLatest | app/core/gpu_watchdog.py:329-342 | while not-ok the reason is that of the latest failure |
| GpuWatchdog.FlipsBounded | app/core/gpu_watchdog.py:310-342 | n probes flip the status to not-ok at most (n + 5) / 8 times |
| GpuWatchdog.FlipsAttained | app/core/gpu_watchdog.py:310-342 | that bound is attained |

## Left out

- Node objects: a node is a value at a position of the list; two occurrences of one node object are not told apart.
- Tensor and node names are abstract; names that a script generates are premises (fresh, pairwise different), not computed strings.
- `onnx.utils.extract_model`, value infos, shape inference, opset and protobuf handling: the prefix graph is the list of needed nodes in original order.
- The sorted order of boundary names.
- SplitKokoro.SplitPreserves: graph outputs produced only by ancestors and not read by the suffix are not available in the suffix; the statement says exactly which.
- Operators are interpreted on the argument shapes the scripts produce: Range from 0 by 1, Slice from the origin over all axes, Div by one element, one-channel unpadded Conv, Reshape to [0, a, b, -1], STFT of real signals [B, S] with a window.
- StftPreservation.RewritePreserves: assumes a batch of at least one, since the inferred dimension of an empty reshape is undefined, operands the STFT operator accepts, and constants that no fed input overrides, since the rewrite reads them from the initializers.
- Floating-point rounding: real arithmetic, and floor(3 * max / 4) for the trim budget. Sine, cosine and pi are uninterpreted.
- Cancellation of a task inside a lock region, process shutdown, and `BackendManager.shutdown`, which only fixtures use.
- Wall-clock time: a timeout is one of the answers a region may get.
- Coalescing of concurrent `mark_error` calls on a shared future: the callers that wait change nothing.
- Text and language of a final are identified with the stream they were read from.
- The dispatcher of `/v2v/stream`: its one-finalize-at-a-time discipline is the premise `AsrRuns.OneFinalize`.
- TtsPipeline: metrics, the closing of generators on disconnect, and the executor's worker limit; a producer may start and push at any time after submission.
- MatchaSurgery: validation, saving and reporting; the premise that generated names clash with nothing.
- BackendLifecycle: an application that raises has either written nothing or left a mixture of its own, told apart from all others; that a profile's values may depend on what was applied before is the subject of `ProfileEnv`.
- WebSocket handles and their forced close; readiness probes through `get_backend_unsafe`.
- Session: event bus, logging, tokenizer loading and the fallback token estimate; token counts are a function of text and tool calls.
- The two text normalisers of the round-trip scripts: the score is proved for every normaliser.
- ProfileEnv.ProfileLoader.ApplyProfile: after a critical mismatch the environment is half written, as in the source; only operator keys are specified then.
- Resolving a profile reference, reading JSON and deriving the TTS model id: the parsed profile and the derived id are parameters.
- VocabExpansion: the tokenizer (encoded lines are given) and the copying of embedding rows.
- Limit resolution of the session limiter, Prometheus gauges, and token context managers.
- GPU probes, platform detection and the watchdog task: probe outcomes are given.
- The conversation state machine of `BaseApp`, capability clamps, authentication, downloads and model inference.
