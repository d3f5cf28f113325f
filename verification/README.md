# Verification of the STAR runtime's speech protocols

A Dafny 4.11 model of the parts of the runtime that decide what is heard, what is said and what
is remembered.  `dafny verify dfyconfig.toml` checks everything.

**The barge-in protocol** is the core.  Four pieces together have to guarantee that audio of an
invalidated turn never reaches the speaker, apart from one block that was already committed: the
epoch owner, the service that invalidates and then preempts, the TTS worker, and the
generation-gated PCM player.

* `Player` holds the player as a value; each function is the body of one critical section.
  Samples carry the generation and the stamp of the call that accepted them, and a log records
  what was accepted, dequeued, minted and submitted, what became of each payload block, and which
  generations recovered; no branch reads the log.
* `BargeIn` is the step system: the owner, any number of concurrent `preempt_output` calls, the
  worker and the playback thread, with one step for each critical section or single access to a
  shared flag.  Requests, engine output, resampler output and device failures are arbitrary.
* `CommitTokens` and `SpeakerOrder` prove the player's promises in every reachable state,
  `EnqueueCalls` follows one enqueue call and `BlockSizes` the size of every block,
  `BlockFates` accounts for every payload block, `RecoveryMarks` for the recovery of each
  generation, `PlaybackMetrics` for every counter, and `ResidualBound` says when close breaks
  the bound on residual writes.
* `StaleAudio`, `StaleReach`, `PreemptOutput` and `StaleHeard` prove what a preemption guarantees
  and exactly when stale audio can still be accepted or heard; `FalseReturns` and
  `TurnCompletion` prove when a call that returns False is enough and when a turn is completed
  over its own audio; `Leaks` holds concrete runs.
* `PcmRing`, `TimingSpans` and `AlsaOutputPlayer` are the player as objects over an array and a
  deque; `TtsController` and `SpeechService` are the callers.  Every method leaves its object at
  exactly the value the step system gives, so that what is proved there holds of the objects.

**Around it:** `Control` (the epoch owner and its replica), `Scheduler`, `SpeechText`,
`SpokenLength`, `SpeechStream` and `SentenceCuts` (the incremental sentence scheduler),
`VoiceBridge` and `SpokenAnswer` (from the model's fragments to what is spoken), `Decimator` and
`FilterResponse` (streaming FIR decimation), `Vad` (windows and history), `EditDistance`, `Outbox` and `Deduplicator` (the DDS policies), `TimingAudit`,
`TimingHistory` and `TimingRecorder` (the bounded timing audit).  `RingSlots`, `Collections` and
`Wrappers` are shared.

## What the proofs showed

* A True return of `preempt_output` silences the turn but for one committed block; a False return
  alone guarantees nothing, although docs/runtime_architecture.md:68 promises of every invalidated
  answer that it cannot resume playback.  The call looks for an active request or a queued one, and
  a turn can lose its active mark while audio of it is still to come or still queued.  This happens
  at two places: a preempter's release that comes after the worker has gone on with the turn, and
  the worker's own conclusion over live audio (`FalseReturns.UnmarkedExactly`).  In runs in which
  neither happens every return silences (`FalseReturns.EveryReturnSilences`); for one call the
  condition is exact (`FalseReturns.CallSilencesExactly`).  Concrete runs:
  `Leaks.FalseReturnAdmitsStale`, `Leaks.SlowReleaseLeavesRing`, `Leaks.FalseReturnLeavesRing`.
* The worker waits for the player only behind a final sentence that queued audio of its own and
  ended undisturbed (`TurnCompletion.WaitsForPlayback`).  A final sentence without audio, one whose engine raises, and a cancelled
  request are concluded at once, over whatever is still queued: exactly then is a turn completed
  over its own audio (`TurnCompletion.HastyExactly`, `TurnCompletion.RaiseIsHasty`,
  `TurnCompletion.SilentEndIsHasty`, `TurnCompletion.CompletesExactly`).  The owner
  can then no longer invalidate it, and the next turn's `preempt_output` can find nothing to do
  (`TurnCompletion.HasteDefeatsPreemption`).
* `close` advances the player's generation without counting a residual write.  The bound on
  residual completions breaks exactly when a payload block is between its final gate and the count
  of its completion and no earlier commit is left over (`ResidualBound.CloseExceedsExactly`).
* The stale-drop counter keeps what docs/playback_metrics.md:43 promises for payload blocks: every
  block turned away by a check is counted, one turned away by a stop included, because stopping
  advances the generation (`BlockFates.RejectionIsCounted`).
* An answer can end without a word to the speech output, exactly in the surroundings of
  `SpokenAnswer.LeftOpenExactly`; `SpokenAnswer.LeftOpenHappens` gives one.
* The deduplicator can refuse an event after its time to live (`Deduplicator.LateRefusal`): a
  duplicate moves to the end of the table with its old time, and expiry stops at the first entry
  still in time (`Deduplicator.RefusesExactly`).
* An empty capture block would still yield output, because the "valid" convolution swaps the carried
  state, one sample shorter than the filter, with the filter (`Decimator.EmptyBlockEmits`).

## Assumptions

* One enqueue producer, one TTS worker, one playback thread; any number of preempters.
* Turn ids are fresh at every `begin_turn`; the source draws them from uuid4.
* The player is not started again after `close`, and its stream is open while it is used.
* The clock of the outbox and of the deduplicator does not run backwards.
* The abort of an answer arrives behind the answer's other messages.

## Model

| member | source | states |
|---|---|---|
| PreemptOutput.StaleAudioEndToEnd | src/star_runtime/speech/tts/controller.py:112-150 | Once the owner has moved past a turn, a later `preempt_output` that has aborted the player (in particular one that returned True) is final: in every continuation no sample of the turn is accepted or left in the ring, and at most one more block of it reaches the device, under a token minted before that abort |
| SpeechService.SpeechService.InvalidateActiveResponse | src/star_runtime/speech/service.py:125-170 | The barge-in call advances the owner, then preempts, publishes exactly the owner's event, and stops the provider once if and only if it preempted; with nothing to invalidate it touches nothing; if it preempted, the invalidated turn is quiet for ever in every continuation; and whatever it returns, the turn is silenced afterwards exactly if it preempted or nothing of the turn was on its way before |
| SpeechService.PreemptedIsQuiet | src/star_runtime/speech/service.py:133-147 | The end-to-end guarantee in the form the service needs it: a True return after the owner advanced silences the turn over all continuations |
| StaleReach.StaleAcceptableExactly | src/star_runtime/speech/tts/controller.py:218-258 | In every reachable state a sample of a past turn can still enter the ring if and only if the worker stands behind its last currency check for that turn with the cancel flag clear and the player neither stopped nor aborted |
| StaleHeard.StaleHeardExactly | src/star_runtime/speech/audio/output.py:597-714 | In every reachable state audio of a past turn can still be committed to the device if and only if the worker is armed for it, or the ring holds some of it, or a dequeued block of it belongs to the current generation |
| StaleReach.ArmedDelivers | src/star_runtime/speech/audio/output.py:290-350 | An armed worker can be brought to put a sample of its turn into the ring: the positive half of the acceptance condition, with the run that does it |
| EnqueueCalls.ArmedDeliversWhole | src/star_runtime/speech/audio/output.py:290-350 | An armed worker can be brought to put its whole chunk into the ring, whatever the resampler makes of it: a run exists in which the enqueue call returns True with exactly the samples of the chunk accepted, under the current generation and the stamp of the turn |
| EnqueueCalls.ChunkIsTakenInOrder | src/star_runtime/speech/audio/output.py:331-350 | In every interleaving, while an enqueue call is open the samples it has accepted followed by those it still has to put into the ring are the converted samples of its chunk, in order, under the generation and the stamp it began with |
| EnqueueCalls.CallEndsExactly | src/star_runtime/speech/audio/output.py:331-350 | An enqueue call returns True exactly when its whole chunk has been accepted; it returns False exactly when only a part has, and then only because of a stop, an abort or a cancel |
| EnqueueCalls.WriteTakes | src/star_runtime/speech/audio/output.py:331-350 | One turn of the loop puts as much of the rest into the ring as there is room for, in order, and goes on; it ends exactly with nothing left or when told to give up |
| StaleHeard.ReachDrain | src/star_runtime/speech/audio/output.py:352-374 | From any reachable state with queued samples, a run exists in which a drain is requested, so that even a partial block is dequeued |
| PreemptOutput.RunStaysSilenced | src/star_runtime/speech/audio/output.py:692-714 | Silence is kept by every run: a turn that is shut out and flushed is submitted again only as the one block already committed |
| StaleAudio.RunStaysShut | src/star_runtime/speech/tts/controller.py:218-263 | A past turn for which the worker is not armed is never accepted into the ring again |
| PreemptOutput.StepKeepsPreempts | src/star_runtime/speech/tts/controller.py:112-150 | Every concurrent `preempt_output` call keeps what it has achieved so far (not armed after its flag, flushed after its abort) under every step of every thread |
| PreemptOutput.OrphanedExactly | src/star_runtime/speech/tts/controller.py:143-145 | A busy request loses its active mark with the cancel flag clear exactly when a preempter releases the active request after the worker has cleared the flag for a new one |
| PreemptOutput.EveryReturnShuts | src/star_runtime/speech/tts/controller.py:122-123 | In every run without such a late release, every return of `preempt_output`, False included, shuts the ring to the turns that were past when it began |
| Leaks.FalseReturnAdmitsStale | src/star_runtime/speech/tts/controller.py:122-123 | A concrete run in which `preempt_output` returns False and a sample of the invalidated turn enters the ring afterwards |
| Leaks.EarlyCompletion | src/star_runtime/speech/tts/controller.py:272-277 | A concrete run in which a final sentence without audio completes its turn while its audio is still queued, so that the owner can no longer invalidate it |
| Leaks.FalseReturnLeavesRing | src/star_runtime/speech/tts/controller.py:272-332 | After such a completion a new turn's `preempt_output` returns False and two stale blocks are played |
| Leaks.SlowReleaseLeavesRing | src/star_runtime/speech/tts/controller.py:139-145 | A concrete run with no completion and no orphaned request: a release that comes after a whole sentence loses the turn's mark while its audio is queued, and the next call returns False with the turn not silenced |
| FalseReturns.UnmarkedExactly | src/star_runtime/speech/tts/controller.py:143-145 | A turn comes to have audio on its way without an active mark by exactly these steps: a clearing of the mark, by a preempter's release or by the worker's conclusion, while the worker is still producing for the turn or audio of it is in the ring or in a block that can still pass the gate |
| FalseReturns.EveryReturnSilences | src/star_runtime/speech/tts/controller.py:112-150 | In every run without such a step, every `preempt_output` call that began after the owner had moved past the turn leaves it silenced when it returns, False included |
| FalseReturns.CallSilencesExactly | src/star_runtime/speech/tts/controller.py:122-123 | From any reachable state one uninterrupted call silences a past turn if and only if a request is active or queued, or the turn is silenced already |
| TurnCompletion.HastyExactly | src/star_runtime/speech/tts/controller.py:296-302 | A conclusion comes to be under way over live audio by exactly one kind of step: the worker decides to conclude (final request, or cancelled) while audio of the turn is in the ring or can still pass the gate |
| TurnCompletion.RaiseIsHasty | src/star_runtime/speech/tts/controller.py:280-296 | A raise of the engine leads straight to such a decision whenever the request is final or cancelled and audio is live |
| TurnCompletion.SilentEndIsHasty | src/star_runtime/speech/tts/controller.py:272-296 | So does the end of a stream that was cancelled, or that was final and queued nothing |
| TurnCompletion.CancelledWaitIsHasty | src/star_runtime/speech/tts/controller.py:276-296 | So does a cancelled wait |
| TurnCompletion.CompletesOverSilence | src/star_runtime/speech/tts/controller.py:296-332 | In every run without such a decision, no turn is completed while its audio is live |
| TurnCompletion.QuietPollEndsLive | src/star_runtime/speech/tts/controller.py:272-277 | A wait that ends because the player is idle ends with no live audio of any turn |
| TurnCompletion.QuietStaysQuiet | src/star_runtime/speech/tts/controller.py:276-296 | Behind a state without live audio, such as the end of that wait, nothing becomes live while the worker is held up, so its conclusion is never hasty |
| TurnCompletion.WaitsForPlayback | src/star_runtime/speech/tts/controller.py:214-277 | The worker begins to wait for the player in exactly two cases, both with the cancel flag clear: behind a bare end marker, and behind a final sentence of which an enqueue call returned True |
| TurnCompletion.StartedExactly | src/star_runtime/speech/tts/controller.py:259-271 | While the stream of a request is read, it counts as started from the first enqueue call that returns True |
| BlockSizes.WaitsExactly | src/star_runtime/speech/audio/output.py:363-374 | The wait goes on exactly while audio is queued or in flight and nothing is cancelled; it cannot end by itself while the playback thread holds a payload block, and between two blocks an empty ring always ends it |
| TurnCompletion.CompletesExactly | src/star_runtime/speech/tts/controller.py:296-332 | Run without interference, the end of a request completes its turn if and only if the request is final or cancelled, still active, and its stamp current, and what is live stays live |
| TurnCompletion.HasteDefeatsPreemption | src/star_runtime/speech/tts/controller.py:296-332 | From every reachable state that is about to complete a turn over its own live audio with nothing queued, the next turn can begin and its `preempt_output` return False with the old turn not silenced |
| Leaks.CloseBreaksResidualBound | src/star_runtime/speech/audio/output.py:428-436 | A concrete run in which close leads to a residual completion that no interruption counted |
| SpeakerOrder.CommitTokenSafety | src/star_runtime/speech/audio/output.py:692-714 | In every reachable state no forbidden write attempt was counted, every submitted block holds its own token, minted while its generation was current, and all its samples are of that generation |
| SpeakerOrder.SpeakerPlaysInOrder | src/star_runtime/speech/audio/output.py:580-862 | What reached the device is a selection of the accepted samples in order: none twice, none invented, none swapped |
| SpeakerOrder.GenerationPureFifo | src/star_runtime/speech/audio/output.py:328-388 | The ring holds only samples of enqueue calls begun in the current generation, each generation's dequeued samples are a prefix of what it accepted, and accepted = dequeued + queued + cleared |
| BlockSizes.GoesOnExactly | src/star_runtime/speech/audio/output.py:583-596 | The playback thread goes on exactly when the player is stopped, a whole block is queued, a drain is requested and anything is queued, or the render clock is continuous |
| BlockSizes.NextBlockTakes | src/star_runtime/speech/audio/output.py:583-600 | What it takes is the front of the ring: a whole block, or with a drain requested all of a ring that is shorter than a block, or clock silence when neither is there |
| BlockSizes.DrainExactly | src/star_runtime/speech/audio/output.py:352-374 | A drain is requested by the worker's wait and by no other step, and is taken back exactly by the opening of an enqueue call, an abort, an idle poll, and the end of a block with nothing queued behind it |
| BlockSizes.WholeBlocks | src/star_runtime/speech/audio/output.py:583-596 | Over runs: behind the opening of an enqueue call, or an abort, every payload block taken is a whole one until the worker waits for the player |
| SpeakerOrder.ResidualAccounting | src/star_runtime/speech/audio/output.py:390-397 | Residual completions <= residual commits <= interruptions up to close, and at most one more completion after it; the two rows below say exactly when close makes that difference |
| ResidualBound.CloseExceedsExactly | src/star_runtime/speech/audio/output.py:428-436 | The first close can be followed by more residual completions than commits if and only if a payload block is between its final gate and the count of its completion and the two counters are equal |
| ResidualBound.QuietCloseKeepsBound | src/star_runtime/speech/audio/output.py:390-397 | If close finds no write commit with payload, the test `abort` makes, completions stay within commits in every continuation |
| SpeakerOrder.RecoveryAccounting | src/star_runtime/speech/audio/output.py:619-626 | Recoveries <= replacement dequeues <= replacement enqueues <= interruptions in every reachable state |
| RecoveryMarks.RecoveryPerGeneration | src/star_runtime/speech/audio/output.py:306-312 | In every reachable state each generation has at most one replacement enqueue, one replacement dequeue and one recovery; a generation that recovered has been dequeued, one that was dequeued has been enqueued, and the counters count exactly these |
| RecoveryMarks.RecordedInOrder | src/star_runtime/speech/audio/output.py:787-792 | The order within a generation: a step that records a recovery finds its dequeue and enqueue already recorded, one that records a dequeue its enqueue |
| BlockFates.EveryBlockAccounted | src/star_runtime/speech/audio/output.py:597-714 | In every reachable state, payload blocks taken off the ring = stale drops + blocks lost to a failed stream restart + payload tokens minted + the block still on its way to the gate |
| BlockFates.RejectionIsCounted | src/star_runtime/speech/audio/output.py:653-699 | The first check and the final gate turn a payload block away exactly when its generation has been invalidated, a stop included, and count it as a stale drop exactly then |
| PlaybackMetrics.EveryMetricCounts | docs/playback_metrics.md:17-51 | Over every run from the start each of the eleven counters is exactly the number of times its documented event occurred |
| PlaybackMetrics.WritesAreDeviceCalls | src/star_runtime/speech/audio/output.py:715-783 | Every device call is one submission, and the written blocks and silence are exactly those of the successful calls |
| PlaybackMetrics.StepCounts | src/star_runtime/speech/audio/output.py:775-797 | One step changes a counter by one if its event occurs and otherwise not at all |
| PlaybackMetrics.FirstWriteRecovers | src/star_runtime/speech/audio/output.py:787-797 | The first payload write completed in a generation that an abort began is recorded as its recovery, and no later one is |
| SpeakerOrder.WriteAccounting | src/star_runtime/speech/audio/output.py:775-792 | Completed blocks and silence <= submissions <= minted tokens, and residual completions and recoveries are among the completed blocks |
| CommitTokens.StepKeepsPlayer | src/star_runtime/speech/audio/output.py:580-862 | The joint invariant of tokens, generations, FIFO and counters is kept by every step of every thread |
| CommitTokens.RunKeepsPlayer | src/star_runtime/speech/audio/output.py:580-862 | The same over whole runs |
| AlsaOutput.AlsaOutputPlayer.constructor | src/star_runtime/speech/audio/output.py:124-212 | The fresh object is the fresh player value with an empty ring of the configured capacity |
| AlsaOutput.AlsaOutputPlayer.SetControlStamp | src/star_runtime/speech/audio/output.py:279-288 | The object refines the stamp step; unscoped stamps become none |
| AlsaOutput.AlsaOutputPlayer.OpenEnqueue | src/star_runtime/speech/audio/output.py:300-329 | Opening an enqueue raises after stop, refuses when cancelled, otherwise clears the abort and drain flags and counts the first replacement enqueue |
| AlsaOutput.AlsaOutputPlayer.WriteSome | src/star_runtime/speech/audio/output.py:338-341 | The array ring and the span deque take as many samples as fit and stay in step with each other |
| AlsaOutput.AlsaOutputPlayer.EnqueueSome | src/star_runtime/speech/audio/output.py:331-350 | One turn of the enqueue loop is the write step of the protocol, or a counted backpressure wait, or gives up |
| AlsaOutput.AlsaOutputPlayer.RequestDrain | src/star_runtime/speech/audio/output.py:360-362 | Refines the drain request |
| AlsaOutput.AlsaOutputPlayer.PollIdle | src/star_runtime/speech/audio/output.py:363-374 | Idle exactly when ring and in-flight block are empty, which ends the drain request |
| AlsaOutput.AlsaOutputPlayer.Abort | src/star_runtime/speech/audio/output.py:376-398 | The object refines the abort step: generation, recovery bookkeeping, residual count and empty queue |
| AlsaOutput.AlsaOutputPlayer.Close | src/star_runtime/speech/audio/output.py:428-436 | The object refines close, which advances the generation but counts no residual write |
| AlsaOutput.AlsaOutputPlayer.NextBlock | src/star_runtime/speech/audio/output.py:583-639 | The object refines the dequeue step and reports the distinct stamps of exactly the samples taken; a payload block is a whole one, or with a drain requested the whole of a shorter ring, and silence is taken only with a continuous render clock and when neither is there |
| AlsaOutput.AlsaOutputPlayer.TakeBlock | src/star_runtime/speech/audio/output.py:599-608 | Ring and span deque give up the same samples, and the stamps returned are those of the block |
| AlsaOutput.AlsaOutputPlayer.FirstCheck | src/star_runtime/speech/audio/output.py:653-662 | The object refines the first stale check |
| AlsaOutput.AlsaOutputPlayer.RestartFailed | src/star_runtime/speech/audio/output.py:663-682 | A failed stream restart gives the block up without a token and changes no counter of the model |
| AlsaOutput.AlsaOutputPlayer.FinalGate | src/star_runtime/speech/audio/output.py:692-714 | The object refines the final gate: stale blocks are dropped, silence refreshes its generation, everything else is minted a token |
| AlsaOutput.AlsaOutputPlayer.Authorize | src/star_runtime/speech/audio/output.py:839-854 | Only the exact token of the final gate is authorized |
| AlsaOutput.AlsaOutputPlayer.FinishWrite | src/star_runtime/speech/audio/output.py:775-792 | The object refines the completion counters |
| AlsaOutput.AlsaOutputPlayer.CleanUp | src/star_runtime/speech/audio/output.py:812-827 | The object refines the cleanup of the write bookkeeping |
| PcmRing.PcmRingBuffer.Write | src/star_runtime/speech/audio/output.py:45-56 | The wrapped array appends exactly the samples that fit |
| PcmRing.PcmRingBuffer.Read | src/star_runtime/speech/audio/output.py:58-70 | The wrapped array gives the oldest samples and keeps the rest in order |
| PcmRing.PcmRingBuffer.Clear | src/star_runtime/speech/audio/output.py:72-75 | Clearing leaves nothing queued |
| RingSlots.WindowAfterWrite | src/star_runtime/speech/audio/output.py:45-56 | The two-run copy behind the queued window extends it, whatever the wrap position |
| RingSlots.WindowAfterRead | src/star_runtime/speech/audio/output.py:58-70 | Advancing the read index drops exactly the oldest samples |
| TimingSpans.AppendEncodes | src/star_runtime/speech/audio/output.py:898-909 | Appending keeps the spans a proper run-length encoding, neighbours differing, of one stamp per queued sample |
| TimingSpans.Consume | src/star_runtime/speech/audio/output.py:911-923 | Consuming n samples leaves the encoding of the rest and returns the distinct scoped stamps of exactly those n samples |
| TimingSpans.DistinctIsFirstOccurrence | src/star_runtime/speech/audio/output.py:921-923 | That list has each scoped stamp once, ordered by first occurrence |
| TtsController.TtsController.PreemptOutput | src/star_runtime/speech/tts/controller.py:112-150 | Uninterrupted, the call resets the assembler in any case and is a run of the protocol in the source's order; it returns True exactly when a request was active or queued, and then flag, abort, empty queue and release have all happened; otherwise nothing else has changed |
| TtsController.TtsController.DrainQueue | src/star_runtime/speech/tts/controller.py:339-344 | The drain loop empties the queue |
| TtsController.TtsController.TakeRequest | src/star_runtime/speech/tts/controller.py:190-202 | Taking a request clears the cancel flag before the stamp check and marks the request active only when its stamp is current |
| TtsController.TtsController.OfferChunk | src/star_runtime/speech/tts/controller.py:218-258 | A chunk's enqueue call begins only with the flag clear, the stamp current and the player running, and is tagged with the current generation and the request's own stamp |
| TtsController.TtsController.Conclude | src/star_runtime/speech/tts/controller.py:296-332 | The turn completes exactly when the request is final or cancelled, still the active one, and its stamp current |
| Control.RuntimeControlPlane.constructor | src/star_runtime/core/control.py:49-55 | A fresh authority has issued nothing |
| Control.RuntimeControlPlane.BeginTurn | src/star_runtime/core/control.py:57-72 | A turn begins at epoch 1 with no completion mark |
| Control.RuntimeControlPlane.Invalidate | src/star_runtime/core/control.py:74-101 | The epoch advances unless there is no turn or it is complete, and the event names both stamps |
| Control.RuntimeControlPlane.Complete | src/star_runtime/core/control.py:129-136 | Only the current stamp can be completed |
| Control.RuntimeControlPlane.IsCurrent | src/star_runtime/core/control.py:103-105 | Current means scoped and equal to the held stamp |
| Control.RunKeepsValid | src/star_runtime/core/control.py:57-136 | Over every run with fresh turn ids epochs of a turn strictly increase and the completion mark is none or the current stamp |
| Control.NoResurrection | src/star_runtime/core/control.py:57-101 | A replaced stamp never becomes current or active again |
| Control.OneInterval | src/star_runtime/core/control.py:57-101 | Each stamp is current for one contiguous interval of any run |
| Control.IssuedOnce | src/star_runtime/core/control.py:57-101 | No stamp is issued twice |
| Control.EpochsAreCounted | src/star_runtime/core/control.py:57-101 | Over every run the epochs of a turn are counted one by one from 1, and the authority's counter counts the invalidations |
| Control.CompletedStaysQuiescent | src/star_runtime/core/control.py:74-82 | A completed turn cannot be invalidated until the next one begins |
| Control.CompletedByItsOwn | src/star_runtime/core/control.py:129-136 | A turn is complete only if its own stamp was completed |
| Control.ControlPlaneReplica.ObserveTurn | src/star_runtime/core/control.py:156-158 | The replica holds the observed stamp |
| Control.ControlPlaneReplica.Apply | src/star_runtime/core/control.py:160-169 | An invalidation applies exactly when it names the held stamp |
| Control.ReplicaLag | src/star_runtime/core/control.py:149-173 | Under in-order delivery the replica holds exactly the stamp the authority held when the last delivered message was sent |
| Control.InvalidationsOnlyAdvance | src/star_runtime/core/control.py:160-169 | Invalidations, in whatever order and however often they arrive, never take a replica to another turn or back to an earlier epoch |
| Control.ReplicaNeverInvents | src/star_runtime/core/control.py:149-173 | Under any loss, reordering or duplication it only ever holds a stamp the authority issued |
| SpeechStream.ResponseTheorem | src/star_runtime/speech/tts/scheduler.py:40-87 | For a response that starts in the scheduler in any state: the requests hold all the non-blank characters of the taken chunks without known style tokens, in order, carry the response's id and stamp, and exactly one final request, the last, exists if and only if a final chunk was taken and there was anything to speak |
| SpeechStream.ResponseConserves | src/star_runtime/speech/tts/scheduler.py:40-87 | The same from any state within a response, counting what the buffer already held |
| SpeechStream.RetriesChangeNothing | src/star_runtime/speech/tts/scheduler.py:44-54 | Any stream, with several responses and interrupts, gives the same requests and state as the stream without repeated or out-of-order numbers |
| SpeechStream.EndedStaysEnded | src/star_runtime/speech/tts/scheduler.py:50-51 | Nothing follows the end of a response |
| SpeechStream.BufferStaysBounded | src/star_runtime/speech/tts/scheduler.py:112-137 | Between any two chunks the buffer holds no sentence end, is shorter than the buffer limit and, while streaming, below the maximum spoken length |
| SpeechStream.FeedKeepsInk | src/star_runtime/speech/tts/scheduler.py:54-87 | What one taken chunk does: no ink lost, only proper requests, and the conditions of the final one |
| SpeechStream.SettingsInForce | src/star_runtime/speech/tts/scheduler.py:55-62 | A chunk's language, voice and instructions hold for its own requests and from then on |
| Scheduler.SentenceAssembler.constructor | src/star_runtime/speech/tts/scheduler.py:26-38 | A fresh assembler |
| Scheduler.SentenceAssembler.Reset | src/star_runtime/speech/tts/scheduler.py:89-100 | Reset gives the fresh state |
| Scheduler.SentenceAssembler.FeedChunk | src/star_runtime/speech/tts/scheduler.py:40-87 | The object does to its fields exactly what the chunk function does |
| Scheduler.SentenceAssembler.DrainBoundaries | src/star_runtime/speech/tts/scheduler.py:112-137 | The loop terminates with the buffer shrinking at every cut and computes the drained requests and the rest |
| Scheduler.SentenceAssembler.CloseResponse | src/star_runtime/speech/tts/scheduler.py:68-82 | The three ways a response ends |
| Scheduler.FindSplit | src/star_runtime/speech/tts/scheduler.py:118-132 | The search order: sentence end, clause end while streaming, forced wrap at a limit |
| Scheduler.DrainKeepsInk | src/star_runtime/speech/tts/scheduler.py:112-137 | Cutting and stripping loses no non-blank character and emits no blank sentence |
| Scheduler.DrainIsBounded | src/star_runtime/speech/tts/scheduler.py:112-137 | What is left has no sentence end and respects both limits, and is a suffix of the buffer |
| Scheduler.PlainPasses | src/star_runtime/speech/tts/scheduler.py:102-110 | Text in front of the first bracket passes through unchanged |
| Scheduler.TokenTaken | src/star_runtime/speech/tts/scheduler.py:102-110 | A known token disappears in any case and sets the instruction, an unknown one passes through |
| Scheduler.LooseBracketPasses | src/star_runtime/speech/tts/scheduler.py:102-110 | A bracket that opens no token passes through |
| Scheduler.LowerFolds | src/star_runtime/speech/tts/scheduler.py:104 | Lower case changes each capital into its small letter and nothing else |
| SentenceCuts.NextCut | src/star_runtime/speech/tts/scheduler.py:118-132 | The next cut, for any buffer: behind the first sentence if there is a sentence end; otherwise, while streaming, at the best clause end if one is due; otherwise only when a limit is reached |
| SentenceCuts.DrainLeavesNothingDue | src/star_runtime/speech/tts/scheduler.py:112-137 | Draining leaves no sentence end, no due clause while streaming, and no reached limit |
| SentenceCuts.RequestsAreSentences | src/star_runtime/speech/tts/scheduler.py:40-87 | For any stream of chunks: no request runs on behind a sentence end; the first one in its text is in its last marks, with nothing but closing quotes and brackets behind them |
| SpeechText.StripTrims | src/star_runtime/speech/tts/scheduler.py:133 | Stripping takes all white space off both ends and nothing else |
| SpeechText.StrongEndExactly | src/star_runtime/speech/tts/scheduler.py:139-146 | The strong boundary is the one place behind the first sentence end, the marks of the same kind next to it, where a full stop in front of a digit is none, and the closing quotes and brackets behind them |
| SpeechText.StrongEndFinds | src/star_runtime/speech/tts/scheduler.py:139-146 | The strong search fails exactly when there is no sentence end; a full stop before a digit is none |
| SpeechText.FindStrong | src/star_runtime/speech/tts/scheduler.py:139-146 | The search loop and the closing quotes behind the match find that place, and none exactly when the text holds no sentence end |
| SpeechText.BestIsBest | src/star_runtime/speech/tts/scheduler.py:152-166 | The chosen candidate is admissible and nearest to the preferred length, the later one on a tie; none is chosen only if none is admissible |
| SpeechText.ScoreIsDistance | src/star_runtime/speech/tts/scheduler.py:161 | Nearest is meant in estimated spoken length |
| SpeechText.FindBest | src/star_runtime/speech/tts/scheduler.py:152-166 | The candidate loop computes that choice |
| SpeechText.FindSoft | src/star_runtime/speech/tts/scheduler.py:148-166 | The clause boundary, only from the preferred length on |
| SpeechText.FindWrap | src/star_runtime/speech/tts/scheduler.py:168-193 | The wrap search and its fallback loop |
| SpeechText.WrapLands | src/star_runtime/speech/tts/scheduler.py:168-193 | A wrap lands, within the limit, on the admissible candidate nearest to the preferred length, or else in [preferred, preferred + 1.5), or else at the limit below the preferred length |
| SpeechText.UnitsMonotone | src/star_runtime/speech/tts/scheduler.py:195-201 | Spoken length of prefixes is monotone and grows at most 1.5 per character |
| SpokenLength.WordCounts | src/star_runtime/speech/tts/scheduler.py:195-201 | A word counts one and a half, however long it is |
| SpokenLength.JoinedWordsAreOne | src/star_runtime/speech/tts/scheduler.py:195-201 | An apostrophe or a hyphen between two words makes one word of them |
| SpokenLength.LooseJoinerSeparates | src/star_runtime/speech/tts/scheduler.py:195-201 | Anywhere else it separates |
| SpokenLength.SyllableCounts | src/star_runtime/speech/tts/scheduler.py:195-201 | A syllabic character counts one and ends any word |
| SpokenLength.BlankSeparates | src/star_runtime/speech/tts/scheduler.py:195-201 | Any other character counts nothing and ends any word |
| VoiceBridge.VoiceBridge.Answer | src/star_runtime/agent/voice_bridge.py:157-261 | In any surroundings: the transport holds the fragments numbered from 0 with only the last final, followed by an abort exactly where the code sends one, and memory gains the whole stripped answer exactly when it was committed |
| VoiceBridge.VoiceBridge.Stream | src/star_runtime/agent/voice_bridge.py:175-211 | The loop over the stream: every fragment but the one held back is published once another has followed it, and a moved-on turn or a refused message stops it with an abort behind what was sent |
| VoiceBridge.VoiceBridge.Finish | src/star_runtime/agent/voice_bridge.py:213-261 | Behind the stream: silent return, final message, commit |
| VoiceBridge.VoiceBridge.AbortTts | src/star_runtime/agent/voice_bridge.py:310-331 | An abort goes out only for a started answer and may be lost; what it does is the row on aborted answers below |
| VoiceBridge.VoiceBridge.RemembersTheAnswer | src/star_runtime/agent/voice_bridge.py:215-261 | A committed turn leaves what the user said and the whole answer without the white space around it in memory, and no other turn leaves anything |
| SpokenAnswer.CommittedExactly | src/star_runtime/agent/voice_bridge.py:213-261 | An answer is committed if and only if every liveness check passed, the stream ended by itself, everything was accepted and there was something to say |
| SpokenAnswer.LeftOpenExactly | src/star_runtime/agent/voice_bridge.py:213-214 | In terms of the surroundings alone: an answer reaches the speech output without final message or abort if and only if its first message was due and accepted, not all of them were, and either the turn moved on between the end of the stream and the final message, with all earlier messages accepted, or the transport refuses the abort |
| SpokenAnswer.LeftOpenHappens | src/star_runtime/agent/voice_bridge.py:213-214 | Surroundings in which it happens: two fragments, a transport that accepts everything, and a turn that moves on behind the stream |
| SpokenAnswer.DescribesOnce | src/star_runtime/agent/voice_bridge.py:157-261 | The description of an answer fixes what was sent, whether it was aborted and whether it was committed |
| SpokenAnswer.TakesEachOnce | src/star_runtime/speech/tts/scheduler.py:50-54 | However messages are repeated in delivery, the scheduler takes each once, in order |
| SpokenAnswer.CommittedAnswerIsSpoken | src/star_runtime/agent/voice_bridge.py:175-234 | A committed answer, delivered with any repetitions, is spoken: the requests hold all non-blank characters of the model's fragments without known style tokens, in order, ending in one final request unless there is nothing to speak |
| SpokenAnswer.AbortedAnswerIsForgotten | src/star_runtime/agent/voice_bridge.py:310-331 | An answer given up behind its first message, delivered with any repetitions and then aborted: the scheduler is left as new, the abort requests nothing, what was requested before is ink of the accepted fragments in order, and no request is final |
| SpokenAnswer.SpokenAsDelivered | src/star_runtime/agent/voice_bridge.py:290-309 | Every request of an answer is in the language and the voice the bridge sends, or the configured ones where it sends none, and under its instructions if no fragment holds a bracket |
| Vad.SampleRingBuffer.Append | src/star_runtime/speech/vad.py:34-53 | The history array keeps the newest samples of everything fed, for appends shorter and longer than the capacity |
| Vad.SampleRingBuffer.Read | src/star_runtime/speech/vad.py:55-71 | A range is returned exactly when it is non-empty and still held, and is then the fed slice |
| Vad.SampleRingBuffer.Clear | src/star_runtime/speech/vad.py:73-76 | Clearing forgets everything fed |
| Vad.AppendKeepsNewest | src/star_runtime/speech/vad.py:34-53 | The wrapped overwrite leaves the newest samples in order |
| Vad.SileroVadSegmenter.constructor | src/star_runtime/speech/vad.py:80-124 | A fresh segmenter |
| Vad.SileroVadSegmenter.Frame | src/star_runtime/speech/vad.py:129-148 | For any chunk, accepted windows followed by the pending tail are exactly the samples fed |
| Vad.SileroVadSegmenter.Accept | src/star_runtime/speech/vad.py:126-185 | One chunk in, one utterance for each reported segment |
| Vad.SileroVadSegmenter.Cut | src/star_runtime/speech/vad.py:151-185 | The utterance cut for a segment, from the history when it is still held there |
| Vad.SileroVadSegmenter.Reset | src/star_runtime/speech/vad.py:187-200 | Reset forgets everything fed |
| Vad.SileroVadSegmenter.UtteranceIsSlice | src/star_runtime/speech/vad.py:156-184 | An utterance still in the history is the fed slice [max(history start, segment start - pre-roll), segment end), and its times are the capture time minus 62500 ns per sample back to those positions |
| Vad.SileroVadSegmenter.InHistoryExactly | src/star_runtime/speech/vad.py:152-160 | A segment is cut from the history exactly if it ends there and the first wanted sample, pre-roll included, is still held |
| Vad.SileroVadSegmenter.UtteranceAsReported | src/star_runtime/speech/vad.py:161-184 | Any other segment is passed on as the detector reported it, with times counted back from the end of what the detector has received |
| Vad.SileroVadSegmenter.HistoryReach | src/star_runtime/speech/vad.py:27-32 | The history reaches back as far as its capacity allows |
| Vad.FramingUnique | src/star_runtime/speech/vad.py:129-148 | The split into windows and tail depends only on the samples, not on the chunking |
| Decimator.StreamConverter.constructor | src/star_runtime/speech/audio/input.py:159-163 | A fresh converter starts from silence |
| Decimator.StreamConverter.Convert | src/star_runtime/speech/audio/input.py:386-422 | One block, empty or not, through the carried state: unchanged at the pipeline's own rate, refused exactly at a rate that is no multiple of it, otherwise filtered and decimated |
| Decimator.StreamConverter.Drain | src/star_runtime/speech/audio/input.py:517-519 | An outage drops the carried state |
| Decimator.StreamingIsWhole | src/star_runtime/speech/audio/input.py:386-422 | For every blocking into non-empty multiples of the factor, shorter or longer than the filter, the concatenated outputs are filter-then-decimate of the zero-prefixed whole signal |
| FilterResponse.StreamDecimates | src/star_runtime/speech/audio/input.py:413-422 | For every such blocking: one output for every `factor` samples, and output i is the sum of h[k] * x[i * factor - k] over the coefficients, with silence in front of the signal |
| FilterResponse.ImpulseResponse | src/star_runtime/speech/audio/input.py:413-422 | A unit impulse at p comes out as h[i * factor - p] where that is a coefficient, and as silence elsewhere |
| FilterResponse.StreamIsLinear | src/star_runtime/speech/audio/input.py:413-422 | What comes out of a weighted sum of two signals is the weighted sum of what comes out of each |
| Decimator.EmptyBlockEmits | src/star_runtime/speech/audio/input.py:415-417 | An empty block still yields output, because the "valid" convolution swaps a signal shorter than the filter with it |
| Decimator.StreamFrom | src/star_runtime/speech/audio/input.py:413-422 | The same from any carried state |
| Decimator.GapsStartOver | src/star_runtime/speech/audio/input.py:387-391 | Every sequence gap starts an independent run |
| Decimator.EveryAt | src/star_runtime/speech/audio/input.py:422 | Decimation keeps element i * factor |
| Decimator.EveryCount | src/star_runtime/speech/audio/input.py:422 | Decimation keeps exactly one sample in factor |
| EditDistance.Compute | src/star_runtime/speech/evaluation.py:32-46 | The rolling-row loop computes the distance function |
| EditDistance.ShortestScriptLength | src/star_runtime/speech/evaluation.py:32-46 | The result is attained by some insert/delete/substitute script and no script is shorter |
| EditDistance.Attained | src/star_runtime/speech/evaluation.py:32-46 | A script of that length |
| EditDistance.LowerBound | src/star_runtime/speech/evaluation.py:32-46 | No shorter script |
| EditDistance.ZeroIffEqual | src/star_runtime/speech/evaluation.py:32-46 | Zero exactly for equal sequences |
| EditDistance.Symmetric | src/star_runtime/speech/evaluation.py:32-46 | Symmetric |
| EditDistance.Triangle | src/star_runtime/speech/evaluation.py:32-46 | Triangle inequality |
| Outbox.Accounting | src/star_runtime/transports/dds/reliability.py:93-143 | In every interleaving of publishers and worker: publishes = dropped + delivered + expired + queued, and the queue stays within capacity |
| Outbox.LeaveInOrder | src/star_runtime/transports/dds/reliability.py:113-143 | Events leave in the order of acceptance with non-decreasing deadlines; expiry is judged no earlier than the deadline, delivery before it |
| Outbox.WrittenOnce | src/star_runtime/transports/dds/reliability.py:128-143 | Retries never deliver an event twice |
| Outbox.CarriesWhatWasPublished | src/star_runtime/transports/dds/reliability.py:93-102 | What has left and what is queued is, in order, what was published while there was room: each item with the event of its own publish call and a deadline one time to live behind it |
| Outbox.RetriesAreFailures | src/star_runtime/transports/dds/reliability.py:138-143 | Retries are exactly the failed writes |
| Outbox.StopsForGood | src/star_runtime/transports/dds/reliability.py:104-120 | The worker is stopped by close and by nothing else, for good, and takes up nothing afterwards |
| Outbox.StepKeeps | src/star_runtime/transports/dds/reliability.py:93-143 | The joint invariant of queue, worker and history is kept by every step |
| Outbox.RetryingEventSink.constructor | src/star_runtime/transports/dds/reliability.py:53-74 | A fresh sink |
| Outbox.RetryingEventSink.PublishEvent | src/star_runtime/transports/dds/reliability.py:93-102 | The locked part of publish is the publish step |
| Outbox.RetryingEventSink.TakeHead | src/star_runtime/transports/dds/reliability.py:115-120 | The worker takes the head unless stopped or empty |
| Outbox.RetryingEventSink.JudgeItem | src/star_runtime/transports/dds/reliability.py:121 | The deadline test between the locked sections |
| Outbox.RetryingEventSink.AttemptWrite | src/star_runtime/transports/dds/reliability.py:128-139 | One attempt; a failed one is counted and retried |
| Outbox.RetryingEventSink.SettleItem | src/star_runtime/transports/dds/reliability.py:122-137 | The locked removal of the item the worker is done with |
| Deduplicator.EventDeduplicator.constructor | src/star_runtime/transports/dds/reliability.py:147-151 | A fresh table |
| Deduplicator.EventDeduplicator.Accept | src/star_runtime/transports/dds/reliability.py:153-167 | The object's loops compute the table step, and the table stays consistent with the whole call history and within capacity |
| Deduplicator.AtMostOnce | src/star_runtime/transports/dds/reliability.py:153-167 | With a non-decreasing clock an id is accepted again only after the TTL or after at least `capacity` distinct other ids since its last sighting |
| Deduplicator.DuplicateRefused | src/star_runtime/transports/dds/reliability.py:161-163 | Within the TTL and with fewer other ids the duplicate is refused |
| Deduplicator.RefusesExactly | src/star_runtime/transports/dds/reliability.py:156-163 | The exact condition: an id is refused if and only if it is still in the table and it, or another id in the table that was last seen no later, was accepted within the TTL |
| Deduplicator.LateRefusal | src/star_runtime/transports/dds/reliability.py:161-163 | An id refused after its TTL: a duplicate sighting had moved it behind a younger entry |
| Deduplicator.CallKeeps | src/star_runtime/transports/dds/reliability.py:153-167 | Every call keeps the table ordered by last sighting, dated by acceptance, and forgetting only what it may |
| TimingHistory.SecondTimeline | src/star_runtime/core/timing.py:149-204 | A stamp emits a second timeline only after at least `retained_turns` other stamps had a record created behind its own; steps that record nothing do not count |
| TimingHistory.FirstObservationWins | src/star_runtime/core/timing.py:142-147 | While a record is retained the first observation of each name stays, and nothing is added once it is emitted |
| TimingHistory.TimelineIsFirstMarks | src/star_runtime/core/timing.py:125-175 | The first timeline of a stamp reports exactly the names marked for it before, each with the time of its first mark |
| TimingHistory.ReportedWhenComplete | src/star_runtime/core/timing.py:177-204 | The conditional finish reports a turn not yet reported if and only if both its answer and its playback were marked complete, and the outcome says whether an error was marked |
| TimingHistory.ReportedWhenFinished | src/star_runtime/core/timing.py:149-175 | Any other terminal outcome is reported at once, the first time |
| TimingHistory.OpenIsNeverPruned | src/star_runtime/core/timing.py:285-292 | A record whose timeline was not emitted is never pruned |
| TimingHistory.RunKeepsValid | src/star_runtime/core/timing.py:218-224 | The order queue and the record map always hold the same stamps, each once |
| TimingAudit.PruneDropsHead | src/star_runtime/core/timing.py:285-292 | Pruning drops just enough emitted records from the head and stops early only at one not emitted |
| TimingAudit.StepShape | src/star_runtime/core/timing.py:125-204 | What every locked section does to the records and the queue |
| TimingRecorder.RuntimeTimingAudit.constructor | src/star_runtime/core/timing.py:116-123 | A fresh audit |
| TimingRecorder.RuntimeTimingAudit.Mark | src/star_runtime/core/timing.py:125-147 | The object refines the mark step |
| TimingRecorder.RuntimeTimingAudit.Finish | src/star_runtime/core/timing.py:149-175 | The object refines mark-then-finish and counts the timeline |
| TimingRecorder.RuntimeTimingAudit.FinishIfComplete | src/star_runtime/core/timing.py:177-204 | The object refines the conditional finish |
| TimingRecorder.RuntimeTimingAudit.PruneLocked | src/star_runtime/core/timing.py:285-292 | The pruning loop computes the pruned audit |

## Left out

* Device and native calls: opening, restarting and writing the stream are opaque steps that may fail; ALSA card lookup, the echo canceller and the hard-abort strategy are not part of this model.
* The resampler is an arbitrary function of the chunk, chosen by the environment; the zero padding of a last partial block and the render reference are not modelled, so a submitted block is its payload.
* The speech engine and the VAD model: the engine may deliver any chunks, end or raise at any point, and the detector may report any segments.
* The timing sets that suppress repeated audit marks in the player, its latency fields and its stream-state history: they decide nothing else.
* Playback-state messages and the active stamp field of the TTS controller, which only feed messages and audit marks.
* `TtsController.accept`: the assembler and the queue are modelled separately, and the protocol lets any request be queued at any time, which includes what `accept` queues and the queue-full interruption.
* `AlsaOutputPlayer.EnqueueSome`, `TtsController.OfferChunk` and the other worker methods stand for one critical section or one uninterrupted stretch; the blocking loops around them appear as repeated steps of `BargeIn`, because every section interleaves with the other threads.
* Wall-clock waits and timeouts are nondeterministic wake-ups; nothing is proved about real time.
* Floating point: filter samples, coefficients and spoken lengths are reals, times are integer nanoseconds. The filter design, channel averaging and volume scaling are not modelled.
* Decimator.StreamConverter.Convert: a one-tap filter is not modelled; the design function gives 16 taps for each unit of the rate factor and one more.
* Vad.SileroVadSegmenter.Accept: a chunk of another sample rate raises in the source before anything changes; the model has the one rate the constructor admits.
* Unicode: white space, word and digit classes are parameters; punctuation sets and syllabic ranges are the source's. Lower case of style tokens is ASCII, which is all a token can contain.
* VoiceBridge.VoiceBridge.Answer: the one-slot mailbox in front of it, the speech-age filter and the timing marks are left out, and an exception while sending the abort itself is not modelled.
* Outbox.RetryingEventSink.TakeHead: restarting the sink while an old worker is still in a write is not modelled.
* The fields and the text of emitted timelines: sorting, rounding, duration pairs and the list of missing events are read-only formatting. Extra event fields are left out.
* Stop, shutdown order, metrics, configuration loading, CLI, ASR, the LLM client, DDS and ROS adapters: plumbing over libraries that are not part of this model.
* The character and word normalizers and the error rate in front of the edit distance: expressions without a law of their own.
