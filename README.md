# ConvolutionDemo: the impulse-response mailbox and the selection resolver

A Dafny model of the original logic in `ConvolutionDemoDSP` (Source/ConvolutionDemo.h), a JUCE
demo effect that convolves audio with a binaural impulse response chosen from a selector and
then runs a fixed reverb.

- `handoff.dfy`, module `Handoff`: the single-slot mailbox `BufferTransfer` between the control
  thread and the audio thread. It is a class with the source's two fields, `buffer` and
  `newBuffer`. A ghost history records every `set` (`Publish`) and every `get` (`Poll`, with the
  try-lock outcome as an input). The object invariant ties the fields to two reference definitions
  over that history. `Pending` holds when some publish has not been followed by a poll that got
  the lock. `LastPublished` is the most recent publish. Lemmas over arbitrary histories give the
  mailbox's guarantees: last write wins, at most one delivery per publish, a missed lock keeps a
  pending buffer pending, and nothing is delivered before a publish.
- `convolution_demo.dfy`, module `ConvolutionDemo`: the id-to-asset mapping, the resolution
  performed by `updateParameters` (`Resolve`), and the class `ConvolutionDemoDSP` with
  `UpdateParameters`, `Prepare` and `Process`. Inputs stand for the collaborators: the first
  parameter of the list, a function giving what opening and decoding a named asset yields, and the
  try-lock outcome. `Process` returns the steps it takes (context bypass, mailbox poll, optional
  impulse-response load, convolution, reverb).
- `wrappers.dfy`, module `Wrappers`: `Option`.

Selecting an asset that cannot be loaded still turns bypass off. Line 111 of
Source/ConvolutionDemo.h sets `bypass = false` before the load, and the early returns at lines
156-168 do not restore it. `FailedLoadAfterBypass` shows the result: after "Bypass", such a
selection makes the next block run convolution and reverb un-bypassed, with no impulse response
ever loaded.

## Model

| member | source | states |
|---|---|---|
| `Handoff.BufferTransfer.constructor` | Source/ConvolutionDemo.h:208-211 | a new mailbox holds the default buffer (empty, rate 0), its flag is down and nothing is pending |
| `Handoff.BufferTransfer.Set` | Source/ConvolutionDemo.h:191-195 | the slot holds the new buffer and the flag is up, whatever was there before; the next successful poll will deliver exactly this buffer |
| `Handoff.BufferTransfer.Get` | Source/ConvolutionDemo.h:197-206 | the callback runs, once, with the stored buffer iff the lock was acquired and the flag was up; then the flag is down; otherwise flag and slot are unchanged; the delivery equals the last publish whenever one is pending, and it happens exactly when the recorded poll delivers in the sense of the history lemmas |
| `Handoff.PublishMakesPending` | Source/ConvolutionDemo.h:191-195 | after any history, a publish leaves a buffer pending and the last published buffer is the new one |
| `Handoff.FailedPollKeeps` | Source/ConvolutionDemo.h:200-202 | a poll that misses the lock changes neither whether a buffer is pending nor which one |
| `Handoff.SuccessfulPollClears` | Source/ConvolutionDemo.h:202-205 | after a poll that gets the lock nothing is pending, so an immediately following poll is a no-op |
| `Handoff.FailedPollsKeep` | Source/ConvolutionDemo.h:200-202 | any run of polls that miss the lock keeps a pending buffer pending and unchanged for a later poll |
| `Handoff.LastWriteWins` | Source/ConvolutionDemo.h:191-206 | after publishing p1 then p2 and any number of missed polls, the next poll that gets the lock delivers p2 |
| `Handoff.DeliveriesAreSeparatedByPublish` | Source/ConvolutionDemo.h:202-205 | between any two polls that both deliver there is a publish: each publish is consumed at most once |
| `Handoff.NothingPublishedNothingDelivered` | Source/ConvolutionDemo.h:199-206 | in a history of polls only, no poll delivers |
| `Handoff.HandoffScenario` | Source/ConvolutionDemo.h:189-212 | on a fresh mailbox: a poll delivers nothing; set b1 is delivered once then no more; after set b2, set b3 a missed poll delivers nothing and the next one delivers b3, never b2 |
| `ConvolutionDemo.AssetName` | Source/ConvolutionDemo.h:113-152 | exactly ids 2..13 name an asset, and every name is a `.wav` file; other ids leave the name empty |
| `ConvolutionDemo.AssetNamesDistinct` | Source/ConvolutionDemo.h:115-152 | the twelve asset ids name twelve different assets |
| `ConvolutionDemo.EveryOptionNamesAnAsset` | Source/ConvolutionDemo.h:226 | every selector option other than "Bypass" (ids 2..13 of the 13 options) names a `.wav` asset |
| `ConvolutionDemo.Int32Cast` | Source/ConvolutionDemo.h:170-171 | `static_cast<int>` yields a 32-bit value congruent to its argument modulo 2^32, equal to it when it fits |
| `ConvolutionDemo.BufferFromReader` | Source/ConvolutionDemo.h:170-174 | the published buffer has the reader's sample rate and its channel count and length whenever these fit in an `int` |
| `ConvolutionDemo.Resolve` | Source/ConvolutionDemo.h:100-175 | a non-choice parameter changes nothing; id 1 exactly turns bypass on; a publish happens iff the id is not 1 and its asset opens and decodes, and then carries the buffer read from that asset |
| `ConvolutionDemo.SelectingAnAssetLeavesBypass` | Source/ConvolutionDemo.h:110-174 | any of ids 2..13 turns bypass off, whether or not its asset loads; it publishes iff the asset loads |
| `ConvolutionDemo.ProcessSteps` | Source/ConvolutionDemo.h:73-94 | a block first copies bypass into the context, polls the mailbox exactly once before any processing, loads an impulse response iff one was delivered, and then only at the step right after the poll, and ends with convolution then reverb, both seeing the bypass flag |
| `ConvolutionDemo.ConvolutionDemoDSP.constructor` | Source/ConvolutionDemo.h:214-228 | a new effect has sample rate 0, bypass off and an empty mailbox |
| `ConvolutionDemo.ConvolutionDemoDSP.UpdateParameters` | Source/ConvolutionDemo.h:100-176 | bypass becomes what the resolution says; the mailbox gets one publish, of the resolved buffer, exactly when the resolution publishes, and is untouched otherwise |
| `ConvolutionDemo.ConvolutionDemoDSP.Prepare` | Source/ConvolutionDemo.h:58-71 | the sample rate is stored, then the current selection is applied as by `UpdateParameters` |
| `ConvolutionDemo.ConvolutionDemoDSP.Process` | Source/ConvolutionDemo.h:73-94 | the steps are those of `ProcessSteps` for the current bypass and the buffer pending before the call (when the lock is acquired); the mailbox records one poll, and a pending buffer is consumed iff the lock was acquired |
| `ConvolutionDemo.SelectAssetThenProcess` | Source/ConvolutionDemo.h:73-176 | selecting an asset that loads makes the next block load exactly that asset's buffer and run un-bypassed; the block after loads nothing |
| `ConvolutionDemo.BypassThenProcess` | Source/ConvolutionDemo.h:73-109 | after selecting "Bypass" on a fresh effect a block runs convolution and reverb bypassed and loads nothing |
| `ConvolutionDemo.FailedLoadAfterBypass` | Source/ConvolutionDemo.h:108-168 | after "Bypass", selecting an asset that fails to load leaves bypass off: the next block runs un-bypassed and loads nothing |

## Left out

- The `SpinLock` and real concurrency (lines 192, 200, 211): the try-lock outcome of `get` is an input and `set` always gets its lock. Lock-freedom, bounded spinning and torn reads are not modelled.
- The convolution and reverb engines, `AudioFormatManager`, `AudioFormatReader` and `createAssetInputStream`: these are framework code. Opening and decoding an asset is an input function from the asset name to "no stream", "no reader" or the reader's channel count, length and sample rate. Engine calls appear only as steps of `Process`.
- Sample data: `reader->read` (line 172) and the samples of every buffer are not modelled, only their shape and sample rate.
- HandOver: the slot's contents after the `process` callback has moved the sample buffer into the convolution engine are taken to be an empty buffer with the same sample rate. No property of the model depends on them, because the flag is lowered at the same time.
- `reset` (lines 96-98): it only forwards to the convolution engine, which is not modelled.
- `prepare`'s engine preparation and reverb constants (lines 60-69): floating-point settings passed to the framework. `Prepare` models only the stored sample rate and the call to `updateParameters`.
- The `jassertfalse` diagnostics (lines 104, 157, 166): debug-build assertions without effect on state.
- The commented-out high-pass path and `convolutionHP` (lines 61, 84-88, 92, 219), `currentCabinetData` (line 217) and the `ConvolutionDemo` GUI component (lines 231-242).
- The parameter list itself and `ChoiceParameter` (DSPDemos_Common.h is not part of this model): `parameters[0]` is an input, either a choice with its selected id or another kind of parameter.
