# fmsynth control logic in Dafny

This project models the control logic of **fmsynth**, a polyphonic FM
synthesizer written in Go after the Elektron Digitone. It covers:

- 16.16 fixed-point samples (`Fp32`);
- the two envelope state machines: the attack–decay–endlevel envelope that
  scales the modulation indices, and the ADSR envelope used as the voice's
  amplifier (the VCA);
- the operator's phase accumulator over a one-cycle sine table;
- the four-operator algorithm with its three topologies and its cross-mix;
- the voice's stack of held notes;
- the engine's voice allocation and MIDI Note On / Note Off dispatch;
- the parameter ids, the patch's parameter store with its MIDI CC
  bindings and CC-to-value conversions, and the older audio-package copy of
  the parameter code;
- the Novation Automap "write screen" SysEx message.

## How the Go code is modelled

Go's fixed-width integers are ranges of `int`:

- `Byte`, `Uint16`, `Uint32`, `Int16` and `Int32` are subset types.
- Every conversion that can overflow goes through an explicit wrap
  (`Wrap32`, `WrapU16`, …), which keeps the low bits.
- Arithmetic `>>` on a signed value is floor division by a power of two.

Objects whose fields Go updates in place are Dafny classes with
`modifies` clauses. This covers the envelopes, the operator, the
four-operator algorithm, the voice, the engine and both patches.

Each step of such an object is also a pure function over a snapshot of its
fields, for example `AdeStep`, `AdsrStep`, `Sample`, `NoteOnStep` and
`NoteOffStep`. Each method is proved to perform exactly that step, and the
lemmas about runs, ramps and transitions are stated over those functions.

The render loops write the output `array` in place. Their contracts tie
each output sample and each intermediate field state to the per-sample step
function (`Renders`, `VcaScales`).

In Go, parameters are read through pointers that `applyPatch` wires to a
patch's objects. In the model they are passed as value snapshots:
`AdeParams`, `AdsrParams`, `AlgConfig` and `VoiceConfig`.

Some values are parameters instead of computations:

- The note frequencies, which Go computes in floating point by `note2freq`,
  are a 128-entry table `noteFreq`.
- The sine table is any sequence of `SAMPLING_RATE` (44100) entries.

Where the repository's files disagree with each other, the model makes
these choices:

- The operator follows its call sites (audio/fourOpAlgorithm.go:54-96),
  which call `rotate(freq, modulation)`, rather than the one-argument
  `rotate` of audio/operator.go:17. It also takes a ratio and carries an
  optional feedback binding.
- A voice is made with one argument, the voice number, as the callee
  audio/voice.go:26 declares. The mixer input that the call site
  audio/engine.go:58 passes is left out together with the mixer.
- `SAMPLING_RATE` is 44100, the `samplingRate` field that audio/engine.go:48
  sets.

Behaviour of the code that the model keeps as it is:

- `NoteOn` ignores a note above 127.
- `BoolParam` and `Uint16Param` return nil for a missing or mistyped id; the
  audio package's `Fp32Param` panics.
- The operator's phase update is the one place where a computed value
  departs from the code (see Findings); the other departures are listed
  under "Left out".

## Model

| member | source | states |
|---|---|---|
| MachineInts.Wrap32KeepsLowBits | fp/fp32.go:28-30 | The int32 conversion after the 64-bit product keeps the low 32 bits: the result is congruent to the operand modulo 2^32. |
| MachineInts.Wrap16KeepsLowBits | fp/fp32.go:25 | The int16 cast keeps the low 16 bits: the result is congruent to the operand modulo 2^16. |
| MachineInts.WrapByteKeepsLowBits | patch/patch.go:186 | The byte conversion of byteRange keeps the low 8 bits. |
| MachineInts.Wrap32 | fp/fp32.go:29 | The Fp32 conversion of the shifted 64-bit product is the identity on values that fit an int32. |
| MachineInts.Wrap16 | fp/fp32.go:25 | The int16 cast is the identity on values that fit an int16. |
| MachineInts.WrapU32 | audio/envelope.go:102 | uint32 arithmetic on the sample count is exact while the value fits 32 bits. |
| MachineInts.WrapU16 | patch/param.go:158 | The uint16 shift is exact while the value fits 16 bits. |
| MachineInts.WrapByte | patch/patch.go:186 | The byte conversion is the identity on values below 256. |
| Fp.Mul | fp/fp32.go:28-30 | a.Mul(b): the 64-bit product shifted right 16 bits (floor division), converted back to an int32 (also audio/fp32.go:28-30). What it computes is stated by the Mul* rows below. |
| Fp.MulIsFlooredProduct | fp/fp32.go:28-30 | Mul(a,b) is floor(a*b / 2^16) whenever that fits an int32. The same holds for audio/fp32.go:28-30. |
| Fp.ProductFitsInt64 | fp/fp32.go:29 | The 64-bit intermediate product of two int32 values never overflows. |
| Fp.MulByOne | fp/fp32.go:28-30 | Multiplying by 1<<16 on either side gives the other factor (also audio/fp32.go). |
| Fp.MulByZero | fp/fp32.go:28-30 | Multiplying by 0 on either side gives 0. |
| Fp.MulCommutes | fp/fp32.go:28-30 | Mul is commutative (also audio/fp32.go:28-30). |
| Fp.MulStaysInUnitRange | fp/fp32.go:28-30 | If both magnitudes are at most 1<<16, the product's magnitude is at most 1<<16, and the int32 truncation does not change it. |
| Fp.MulByWeightBounded | audio/fp32.go:28-30 | A weight w in [0, 1<<16] scales a unit-range value into [-w, w]. |
| Fp.To16bit | fp/fp32.go:15-26 | To16bit: the hard limiter, the arithmetic >> 1 and the int16 cast. Its behaviour is stated by the To16bit* rows below. |
| Fp.Clip | fp/fp32.go:16-22 | The hard limiter lands in [-(1<<16), 1<<16] and is the identity inside that band. |
| Fp.To16bitLimitsHigh | fp/fp32.go:17-19 | Every input above 1<<16 converts like 1<<16. |
| Fp.To16bitLimitsLow | fp/fp32.go:20-22 | Every input below -(1<<16) converts to -32768 (also audio/fp32.go:15-25). |
| Fp.To16bitInBand | fp/fp32.go:15-25 | On [-(1<<16), (1<<16)-1] the result is the floored half a>>1, within int16 range. |
| Fp.To16bitMonotoneInBand | fp/fp32.go:15-25 | To16bit is monotone on [-(1<<16), (1<<16)-1]. |
| Fp.To16bitFullScaleWraps | fp/fp32.go:6-25 | As written, To16bit(1<<16) is int16(32768) = -32768, below To16bit((1<<16)-1). This is the same in audio/fp32.go:17-25. |
| Fp.To16bitClipped | fp/fp32.go:6-7 | The intended conversion keeps the sign, clips at full scale 1<<16-1 to 32767, and clips at -(1<<16) to -32768. |
| Fp.To16bitClippedMonotone | fp/fp32.go:6-25 | The intended conversion is monotone on every input. |
| Fp.To16bitClippedAgrees | fp/fp32.go:15-25 | The intended conversion equals the written one for every input below 1<<16. |
| Envelopes.State.Code | audio/envelope.go:7-13 | The state constants are 0..4 in iota order. |
| Envelopes.StateCodesDistinct | audio/envelope.go:7-13 | The state codes are distinct, with COMPLETE = 0 and RELEASE = 4. |
| Envelopes.NonZero | audio/envelope.go:89-91 | A zero attack, decay or release is treated as 1, so no ramp divides by zero. |
| Envelopes.Ramp | audio/envelope.go:102 | (sampleCount<<11)/duration is count*2048/duration while the uint32 shift does not wrap. |
| Envelopes.RampWrapsAt2To21 | audio/envelope.go:102 | The uint32 shift wraps at sampleCount = 2^21, where the ramp falls back to 0. |
| Envelopes.RampBounded | audio/envelope.go:102 | Up to count 32*duration the ramp is at most 1<<16. It is below 1<<16 before that count and exactly 1<<16 at it. |
| Envelopes.RampMonotone | audio/envelope.go:102 | The ramp does not decrease in the sample count before the wrap. |
| Envelopes.AdeTrigger | audio/envelope.go:52-56 | ADE Trigger sets state ATTACK, current 0 and sampleCount 0. |
| Envelopes.AdeRetrigger | audio/envelope.go:58-63 | ADE Retrigger is Trigger when the retrigger flag is set, and no change otherwise. |
| Envelopes.AdeRelease | audio/envelope.go:65-70 | ADE Release sets DECAY with count 0 only when gated, keeping current; ungated, nothing changes. |
| Envelopes.AdeStep | audio/envelope.go:78-122 | One call of adeEnvelope.Scale on the envelope's fields: count the sample, then the ATTACK, DECAY, SUSTAIN or COMPLETE case of the switch. AdeEnvelope.Scale is proved to take exactly this step. |
| Envelopes.AdeStepTransitions | audio/envelope.go:78-122 | One ADE Scale step. Only ATTACK stays in ATTACK. The count advances by one or resets on a transition. At full scale the attack pins to 1<<16 and moves to SUSTAIN if gated, DECAY otherwise. DECAY completes at endLevel. SUSTAIN holds 1<<16. COMPLETE holds endLevel. |
| Envelopes.AdeRunStep | audio/envelope.go:78-122 | k+1 Scale calls are one more step after k. |
| Envelopes.AdeRunSplit | audio/envelope.go:78-122 | m+n Scale calls are n calls after m. |
| Envelopes.AdeAttackRamp | audio/envelope.go:87-103 | After Trigger, attack sample k (k ≤ 32*attack) is k*2048/attack in [0, 1<<16]. |
| Envelopes.AdeAttackReachesFullScale | audio/envelope.go:87-103 | The attack does not decrease, stays below 1<<16 before sample 32*attack, and reaches it exactly there. |
| Envelopes.AdeAttackEnds | audio/envelope.go:92-100 | On the call after reaching full scale the attack ends: current 1<<16, count 0, then SUSTAIN if gated, DECAY otherwise. |
| Envelopes.AdeDecayRamp | audio/envelope.go:104-114 | For every endLevel in [-(1<<16), 1<<16], DECAY follows 1<<16 - ramp*(1<<16-endLevel) until it completes at endLevel. |
| Envelopes.AdeCompleteHolds | audio/envelope.go:117-118 | COMPLETE holds endLevel on every later sample. |
| Envelopes.AdeSustainHolds | audio/envelope.go:115-116 | SUSTAIN holds 1<<16 on every later sample. |
| Envelopes.AdeDecayCompletes | audio/envelope.go:104-114 | For every endLevel in [-(1<<16), 1<<16], a decay from any level is COMPLETE at endLevel within 32*decay+1 samples. |
| Envelopes.AdeUngatedCycleCompletes | audio/envelope.go:87-118 | Ungated, a triggered envelope runs attack then decay and rests at endLevel. |
| Envelopes.AdeEnvelope.constructor | audio/envelope.go:39-41 | A new envelope has its group, state COMPLETE and level 0. |
| Envelopes.AdeEnvelope.Trigger | audio/envelope.go:52-56 | The fields become AdeTrigger(). |
| Envelopes.AdeEnvelope.Retrigger | audio/envelope.go:58-63 | The fields become AdeRetrigger of the old fields. |
| Envelopes.AdeEnvelope.Release | audio/envelope.go:65-70 | The fields become AdeRelease of the old fields. |
| Envelopes.AdeEnvelope.Scale | audio/envelope.go:78-122 | The fields take exactly one AdeStep, and the result is s.mul(new current). |
| Envelopes.AdeEnvelope.ScaledIndex | audio/envelope.go:74-76 | One step, returning the index parameter scaled by the new level. |
| Envelopes.AdsrTrigger | audio/envelope.go:152-157 | ADSR Trigger sets ATTACK and count 0, sets ref := current, and keeps current. |
| Envelopes.AdsrRetrigger | audio/envelope.go:159-164 | ADSR Retrigger is Trigger when the flag is set, and no change otherwise. |
| Envelopes.AdsrRelease | audio/envelope.go:166-170 | ADSR Release always sets RELEASE, ref := current and count 0. |
| Envelopes.AdsrStep | audio/envelope.go:172-231 | One call of adsrEnvelope.Scale on the envelope's fields: count the sample, then the ATTACK, DECAY, SUSTAIN, RELEASE or COMPLETE case of the switch. AdsrEnvelope.Scale is proved to take exactly this step. |
| Envelopes.AdsrStepTransitions | audio/envelope.go:172-231 | One ADSR Scale step. The attack ends at full scale to DECAY if gated, RELEASE otherwise, with ref kept. Below full scale the attack never drops under ref (anti-click). DECAY reaches SUSTAIN with current = ref = sustain. RELEASE completes at 0. COMPLETE changes only the count. |
| Envelopes.AdsrRunSplit | audio/envelope.go:172-231 | m+n ADSR steps are n steps after m. |
| Envelopes.AdsrAttackRamp | audio/envelope.go:180-201 | After Trigger below full scale, attack sample k is max(ref, k*2048/attack) and never drops below ref. |
| Envelopes.AdsrAttackEnds | audio/envelope.go:184-192 | The ADSR attack reaches 1<<16 at sample 32*attack and ends on the next sample, keeping ref. |
| Envelopes.AdsrUngatedReleaseFromStaleRef | audio/envelope.go:184-192 | Ungated, the release after the attack starts from the ref captured at Trigger: from silence the level drops from 1<<16 to 0 in one sample. |
| Envelopes.AdsrDecayRamp | audio/envelope.go:202-213 | For every sustain in [-(1<<16), 1<<16], DECAY follows 1<<16 - ramp*(1<<16-sustain) with ref kept, until SUSTAIN at the sustain level. This includes the negative levels CC 0x16 sets for values below 64. |
| Envelopes.AdsrDecayReachesSustain | audio/envelope.go:202-213 | For every sustain in [-(1<<16), 1<<16], including the negative ones, a decay reaches SUSTAIN with current = ref = sustain within 32*decay+1 samples. |
| Envelopes.AdsrSustainHolds | audio/envelope.go:214-215 | SUSTAIN holds the sustain level, with ref unchanged. |
| Envelopes.AdsrCompleteHolds | audio/envelope.go:227-228 | COMPLETE never changes current or ref. |
| Envelopes.MulWeightNonNegative | audio/envelope.go:225 | A weight in [0, 1<<16] times a level in [0, 1<<16] lies in [0, level]. |
| Envelopes.AdsrReleaseRamp | audio/envelope.go:216-226 | The release ramps the level from ref down to 0 as (1<<16 - ramp).mul(ref), staying within [0, ref]. |
| Envelopes.AdsrReleaseCompletes | audio/envelope.go:216-226 | Release from any level up to 1<<16 is COMPLETE at 0 within 32*release+1 samples: a level at or below 0 completes on the first sample, a positive one at the end of the ramp. |
| Envelopes.ReleaseFactor | audio/envelope.go:225 | The release weight fp32(1<<16 - ramp) with uint32 subtraction: within the ramp it is exactly 1<<16 - ramp, in [0, 1<<16]. |
| Envelopes.ReleaseFactorWraps | audio/envelope.go:225 | Once the ramp passes 1<<16, the uint32 subtraction wraps and the factor comes out negative. |
| Envelopes.AdsrEnvelope.constructor | audio/envelope.go:139-141 | A new ADSR envelope has its group, state COMPLETE and everything 0. |
| Envelopes.AdsrEnvelope.Trigger | audio/envelope.go:152-157 | The fields become AdsrTrigger of the old fields. |
| Envelopes.AdsrEnvelope.Retrigger | audio/envelope.go:159-164 | The fields become AdsrRetrigger of the old fields. |
| Envelopes.AdsrEnvelope.Release | audio/envelope.go:166-170 | The fields become AdsrRelease of the old fields. |
| Envelopes.AdsrEnvelope.Scale | audio/envelope.go:172-231 | The fields take exactly one AdsrStep, and the result is s.mul(new current). |
| Operators.Frequency | audio/operator.go:18 | The effective frequency freq.mul(ratio) + modulation, an int32 sum that wraps on overflow. |
| Operators.PhaseStep | audio/operator.go:22 | freq>>16 is the floored integer part of the frequency, within int16 range. |
| Operators.AdvanceAsWritten | audio/operator.go:22-25 | The phase moves by the step modulo SAMPLING_RATE with one wrap, and lands in the table whenever the sum is not negative. |
| Operators.AdvanceAsWrittenLeavesTable | audio/operator.go:18-26 | A negative effective frequency (pitch 0, modulation -1) moves phase 0 to -1, so sineTable[-1] is out of range. |
| Operators.Advance | audio/operator.go:22-26 | With the negative phase clamped to 0, the phase always stays in [0, SAMPLING_RATE), and moves by the step modulo the table length whenever the sum is not negative. |
| Operators.AdvanceAgrees | audio/operator.go:22-25 | The clamped update equals the written one exactly when the written one stays non-negative. |
| Operators.Operator.constructor | audio/fourOpAlgorithm.go:144-147 | A new operator has its group, phase 0 and no feedback binding. |
| Operators.Operator.Rotate | audio/operator.go:17-27 | The phase becomes Advance(phase, freq.mul(ratio)+modulation), which is the update of lines 22-25 with the clamp of Finding 1. The table stays indexable, feedback is untouched, and the result is sineTable[new phase]. |
| FourOp.ClampMix | audio/fourOpAlgorithm.go:108-113 | The mix is clamped into [0, 1<<16], unchanged inside that band. |
| FourOp.Halve | audio/fourOpAlgorithm.go:57 | x>>1 is the floored half. |
| FourOp.HalfSum | audio/fourOpAlgorithm.go:57 | (aVal + b1Val) >> 1: the int32 sum, wrapping on overflow, floored half. |
| FourOp.CrossMix | audio/fourOpAlgorithm.go:107-118 | crossMix: the clamped mix weighs b against a, and the int32 sum is halved. Its behaviour is stated by the CrossMix* rows below. |
| FourOp.CrossMixClampsMix | audio/fourOpAlgorithm.go:107-117 | A mix above 1<<16 or below 0 acts as 1<<16 or 0. |
| FourOp.CrossMixEndpoints | audio/fourOpAlgorithm.go:114-117 | At mix 0 the result is a>>1; at mix 1<<16 it is b>>1. |
| FourOp.CrossMixBounded | audio/fourOpAlgorithm.go:107-117 | If both inputs are within ±(1<<16), the result is within ±(1<<15). |
| FourOp.FeedbackOperator | audio/fourOpAlgorithm.go:62-64 | applyPatch binds PATCH_FEEDBACK to B2 exactly for algorithm 1, and to A for algorithms 0 and 2 (lines 81-83, 101-103). |
| FourOp.NextPhase | audio/fourOpAlgorithm.go:54 | One rotate, with the clamped update of Finding 1, keeps the phase inside the table. |
| FourOp.TriggerAlg | audio/fourOpAlgorithm.go:124-128 | Trigger restarts both envelopes and keeps every phase. |
| FourOp.RetriggerAlg | audio/fourOpAlgorithm.go:130-134 | Retrigger retriggers each envelope by its own flag and keeps every phase. |
| FourOp.ReleaseAlg | audio/fourOpAlgorithm.go:136-139 | Release releases each envelope by its own gate and keeps every phase. |
| FourOp.Sample0 | audio/fourOpAlgorithm.go:53-60 | Topology 0: one sample keeps the phases in the table and steps envA and envB once each. |
| FourOp.Sample1 | audio/fourOpAlgorithm.go:73-79 | Topology 1: one sample keeps the phases in the table and steps envA and envB once each. |
| FourOp.Sample2 | audio/fourOpAlgorithm.go:92-99 | Topology 2: one sample steps envA once and envB twice, because ScaledIndex calls Scale for both B2 and B1. |
| FourOp.Sample | audio/fourOpAlgorithm.go:120-122 | Dispatch on a registered algorithm number (0..2 of the 8 slots, line 40): envA steps once and envB once, or twice in topology 2. |
| FourOp.RendersExtend | audio/fourOpAlgorithm.go:53-60 | A render chain extends by one sample from its last state. |
| FourOp.RendersAt | audio/fourOpAlgorithm.go:53-60 | Sample k of a render takes field state k to k+1 and writes out[k]. |
| FourOp.RendersStepsEnvelopesAt | audio/fourOpAlgorithm.go:92-95 | Each output sample steps envA once, and envB once (algorithms 0, 1) or twice (algorithm 2). |
| FourOp.FourOpAlgorithm.constructor | audio/fourOpAlgorithm.go:141-151 | Operators A, B1, B2, C and envelopes A, B, with their groups, at rest, with no feedback binding. |
| FourOp.FourOpAlgorithm.ApplyPatch | audio/fourOpAlgorithm.go:62-64 | Binds PATCH_FEEDBACK to the topology's one operator (lines 81-83, 101-103) and leaves the other binding and all fields as they were. |
| FourOp.FourOpAlgorithm.Trigger | audio/fourOpAlgorithm.go:124-128 | freq := pitch, and the fields become TriggerAlg of the old ones (velocity unused). |
| FourOp.FourOpAlgorithm.Retrigger | audio/fourOpAlgorithm.go:130-134 | freq := pitch, and the fields become RetriggerAlg of the old ones. |
| FourOp.FourOpAlgorithm.Release | audio/fourOpAlgorithm.go:136-139 | freq is kept, and the fields become ReleaseAlg of the old ones. |
| FourOp.FourOpAlgorithm.Render | audio/fourOpAlgorithm.go:120-122 | Every index of out is written in order, each by one Sample step from the previous field state; freq and the operators' feedback bindings are unchanged. |
| FourOp.FourOpAlgorithm.RotateScaled | audio/fourOpAlgorithm.go:54 | rotate(...).mul(env.ScaledIndex()): one phase advance and one envelope step. |
| FourOp.FourOpAlgorithm.Sample0Step | audio/fourOpAlgorithm.go:54-59 | One loop body of topology 0 performs Sample0. |
| FourOp.FourOpAlgorithm.Sample1Step | audio/fourOpAlgorithm.go:74-78 | One loop body of topology 1 performs Sample1. |
| FourOp.FourOpAlgorithm.Sample2Step | audio/fourOpAlgorithm.go:93-98 | One loop body of topology 2 performs Sample2. |
| FourOp.FourOpAlgorithm.Render0 | audio/fourOpAlgorithm.go:48-61 | Topology 0's loop writes every index of out in order, per Renders. |
| FourOp.FourOpAlgorithm.Render1 | audio/fourOpAlgorithm.go:68-80 | Topology 1's loop writes every index of out in order, per Renders. |
| FourOp.FourOpAlgorithm.Render2 | audio/fourOpAlgorithm.go:87-100 | Topology 2's loop writes every index of out in order, per Renders. |
| Voices.Top | audio/voice.go:19-24 | The sounding note: the last held note, or 0 when none is held. |
| Voices.PushNote | audio/voice.go:76-86 | A held note leaves the stack unchanged. A new note is appended on top, with the old order kept and the no-duplicates invariant preserved. |
| Voices.RemoveNote | audio/voice.go:92-97 | Exactly the released note is removed, and no other note. |
| Voices.RemoveNoteAbsent | audio/voice.go:92-97 | Releasing an unheld note leaves the stack unchanged. |
| Voices.RemoveNoteAt | audio/voice.go:92-97 | Without duplicates, removing the note at index i closes the gap, keeping the others in order. |
| Voices.RemoveNoteKeepsHeld | audio/voice.go:92-97 | NoteOff keeps the stack free of duplicates and removes the note. |
| Voices.PushThenRemove | audio/voice.go:65-104 | Pressing and releasing a new note restores the stack exactly. |
| Voices.VoiceTrigger | audio/voice.go:50-53 | trigger passes the pitch to the algorithm's Trigger and triggers the VCA. |
| Voices.VoiceRetrigger | audio/voice.go:55-58 | retrigger passes the pitch to the algorithm's Retrigger and retriggers the VCA. |
| Voices.VoiceRelease | audio/voice.go:60-63 | release releases the algorithm and the VCA and keeps the pitch. |
| Voices.NoteOnStep | audio/voice.go:65-89 | NoteOn on the voice's state: ignore a note above 127, otherwise push it and trigger at its frequency. Stated by NoteOnIgnoresOutOfRange and NoteOnPlays. |
| Voices.NoteOffStep | audio/voice.go:91-104 | NoteOff on the voice's state: drop the note, then retrigger at the newest remaining note or release. Stated by NoteOffPlays. |
| Voices.NoteOnIgnoresOutOfRange | audio/voice.go:66-68 | A note above 127 changes nothing: no push and no trigger. |
| Voices.NoteOnPlays | audio/voice.go:76-88 | A note in range is always triggered (never retriggered) at its own frequency. A new note becomes CurNote; a held note leaves the stack alone. |
| Voices.NoteOffPlays | audio/voice.go:91-104 | NoteOff removes exactly the note. The voice then retriggers at the top note's frequency, or releases when the stack is empty, even when the note was not held. |
| Voices.NoteOnThenOff | audio/voice.go:65-104 | NoteOn then NoteOff of a new note gives back the original stack. |
| Voices.VcaScalesExtend | audio/voice.go:45-47 | The VCA pass extends by one sample scaled by the level after one step. |
| Voices.VoiceId | audio/voice.go:27 | ParamId(id) << 8 on a uint8 id shifts every bit out, so every voice gets id 0. |
| Voices.Voice.constructor | audio/voice.go:26-36 | Empty stack, fresh algorithm, and a VCA on group VCA at rest. |
| Voices.Voice.CurNote | audio/voice.go:19-24 | CurNote is Top of the held notes: the newest, or 0 when the stack is empty. |
| Voices.Voice.Trigger | audio/voice.go:50-53 | The voice state becomes VoiceTrigger of the old state. |
| Voices.Voice.Retrigger | audio/voice.go:55-58 | The voice state becomes VoiceRetrigger of the old state. |
| Voices.Voice.Release | audio/voice.go:60-63 | The voice state becomes VoiceRelease of the old state. |
| Voices.Voice.NoteOn | audio/voice.go:65-89 | The scan finds whether the note is held, and the voice state becomes NoteOnStep of the old state. |
| Voices.Voice.DropNote | audio/voice.go:92-97 | The range-and-copy loop over the shared backing array leaves exactly RemoveNote of the old stack. |
| Voices.Voice.NoteOff | audio/voice.go:91-104 | The voice state becomes NoteOffStep of the old state. |
| Voices.Voice.Render | audio/voice.go:43-48 | The algorithm renders once, then out[i] becomes vca.Scale(out[i]) for every i in order, stepping the VCA exactly len(out) times; the held notes, freq and the feedback bindings are unchanged. |
| Engines.MessageKind | audio/engine.go:91 | Status >> 4 is the high nibble of a status byte. |
| Engines.Dist | audio/engine.go:79 | The distance between two notes is their absolute difference. |
| Engines.IsChoice | audio/engine.go:71-87 | Voice j is getVoice's choice: the first voice whose CurNote is 0. Otherwise, with every voice busy, it is the earliest voice nearest the note (a later one only if strictly closer), at distance below 127. |
| Engines.NoChoice | audio/engine.go:71-87 | getVoice returns nil: every voice is busy and every distance is at least 127. |
| Engines.ChoiceUnique | audio/engine.go:71-87 | getVoice's choice is unique, and excludes "no voice". |
| Engines.Engine.constructor | audio/engine.go:46-64 | Eight valid idle voices and an empty voice map. |
| Engines.Engine.GetVoice | audio/engine.go:71-87 | Returns the first voice whose CurNote is 0. Otherwise it returns the earliest voice nearest the note (strict <), provided the distance is below 127. Otherwise nil. |
| Engines.Engine.HandleMidi | audio/engine.go:89-110 | Note On and Note Off are handled. Every other status nibble (including CC) changes nothing. |
| Engines.Engine.HandleNoteOn | audio/engine.go:92-101 | With a voice chosen, voiceMap[note] := voice, overwriting any earlier entry, and only that voice takes NoteOn. With no voice chosen, nothing changes. |
| Engines.Engine.HandleNoteOff | audio/engine.go:102-107 | A mapped note is deleted from voiceMap and only its voice takes NoteOff. An unmapped note changes nothing. |
| Engines.Engine.StacksHeld | audio/voice.go:76-86 | Every voice's note stack is free of duplicates. |
| Engines.Engine.PlayOn | audio/engine.go:98 | Note On reaches exactly one voice; the others keep their state. |
| Engines.Engine.StopOn | audio/engine.go:106 | Note Off reaches exactly one voice; the others keep their state. |
| Engines.Engine.PoolKept | audio/engine.go:97 | Updating voiceMap leaves every voice as it was. |
| Engines.Engine.OthersKept | audio/engine.go:98 | A change confined to one voice leaves every other voice as it was. |
| ParamIds.ComposeDecodes | patch/param.go:12-40 | The masks 0x03, 0x0C and 0xF0 recover the group, type and subtype an id was composed from. |
| ParamIds.ComposeInjective | patch/param.go:12-40 | Distinct (subtype, type, group) triples give distinct ids. |
| ParamIds.GroupAliases | patch/param.go:13-19 | GRP_B1 == GRP_B == 1 and GRP_B2 == GRP_VCA == GRP_D == 3. |
| ParamIds.SubtypeConstantsCarryType | patch/param.go:25-39 | Every subtype constant is subtype<<4 with its own type bits and group 0. |
| ParamIds.KeyInjective | patch/param.go:5 | Distinct ids are stored under distinct keys. |
| PatchStore.FromCC | patch/param.go:87-89 | SetFromCC produces a value of the parameter's own kind (also lines 122-124, 157-159, 192-194). |
| PatchStore.ByteAndBoolFromCC | patch/param.go:87-89 | A byte parameter stores the CC value unchanged. A bool parameter is true iff v >= 64 (lines 122-124). |
| PatchStore.Uint16FromCC | patch/param.go:157-159 | uint16(v)<<9 maps 0, 64 and 127 to 0, 32768 and 65024 without overflow for v ≤ 127, and wraps from 128. |
| PatchStore.Fp32FromCC | patch/param.go:192-194 | (v-64)<<8 maps 64, 0 and 127 to 0, -16384 and 16128. |
| PatchStore.ByteRange | patch/patch.go:165-188 | byteRange: identity for (0,127), doubling for (0,255), otherwise ((b*(max+1-min))>>7)+min with byte width, 16-bit product and a byte result. Stated by the ByteRange* rows below. |
| PatchStore.ByteRangeScales | patch/patch_test.go:9-27 | (0,127) is the identity, (0,63) is b>>1, (0,255) is b<<1, and (0,7) is b>>4, for every 7-bit b. |
| PatchStore.ByteRangeOddRange | patch/patch_test.go:9-27 | (5,15) maps 0, 60, 90 and 127 to 5, 10, 12 and 15. |
| PatchStore.ScaledBelowWidth | patch/patch.go:186 | ((b*w)>>7) stays below w for a 7-bit b. |
| PatchStore.ByteRangeBounded | patch/patch.go:165-188 | For b ≤ 127 and min ≤ max, byteRange's result lies in [min, max]. |
| PatchStore.Uint16Range | patch/patch.go:190-199 | uint16Range: uint16(b)<<9 for the full range, otherwise ((b*(max+1-min))>>7)+min with uint16 width and a 16-bit result. Stated by the Uint16Range* rows below. |
| PatchStore.Uint16RangeValues | patch/patch_test.go:29-46 | The full range is uint16(b)<<9 (64 gives 32768). (1000,2000) maps 0, 60, 90 and 127 to 1000, 1469, 1703 and 1993. |
| PatchStore.Uint16RangeBounded | patch/patch.go:190-199 | For b ≤ 127 and min ≤ max, uint16Range's result lies in [min, max]. |
| PatchStore.Patch.Empty | patch/patch.go:37-41 | The patch starts with no parameters, no bindings and nothing sent. |
| PatchStore.Patch.Update | patch/patch.go:77-79 | update sends the id on the modified channel. |
| PatchStore.Patch.Set | patch/param.go:82-85 | Set stores the value first, then notifies the patch with the id; the bindings are kept (also lines 117-120, 152-155, 187-190). |
| PatchStore.Patch.SetFromCC | patch/param.go:87-89 | SetFromCC sets the kind's conversion of the CC value and notifies (also lines 122-124, 157-159, 192-194). |
| PatchStore.Patch.HandleCC | patch/patch.go:27-34 | A bound CC sets the bound parameter from the CC value and notifies once. An unbound CC changes nothing. Ids and kinds never change. |
| PatchStore.Patch.Add | patch/patch.go:121-163 | The parameter is stored under its id, replacing any earlier one, and bound in byCC only when ccNum < 128. |
| PatchStore.Patch.GetParam | patch/patch.go:85-87 | Returns the parameter stored under the id, or none. |
| PatchStore.Patch.TypedParam | patch/patch.go:89-119 | ByteParam, BoolParam, Uint16Param and Fp32Param return the parameter iff it exists and has the asked kind, and nil otherwise. |
| PatchStore.InitialIdsDistinct | patch/patch.go:43-71 | InitialPatch registers 25 distinct ids. |
| PatchStore.InitialIdsStored | patch/patch.go:43-71 | Every registered id is stored, each under its own key. |
| PatchStore.InitialBindingsShape | patch/patch.go:43-71 | Exactly CC 3 and 0x14–0x17 are bound, each to the parameter added with that number. ALG is a byte parameter; the VCA attack, decay, sustain and release are uint16, uint16, fp32 and uint16. |
| PatchStore.InitialPatch | patch/patch.go:36-74 | The 25 adds give exactly the listed parameters, with their defaults, labels and CC numbers, plus the five bindings. Nothing is sent. |
| AudioParams.OprName | audio/param.go:23-35 | opr decodes p&3 as A, B1, C or B2. |
| AudioParams.OprParamName | audio/param.go:37-45 | oprParam decodes p&0xFC as RATIO or FEEDBACK, else "undef". |
| AudioParams.EnvName | audio/param.go:47-57 | env decodes p&3 as A, B or VCA, with group 2 "undef". |
| AudioParams.EnvParamName | audio/param.go:59-81 | envParam decodes p&0xFC as one of the eight ENV_ names, else "undef". |
| AudioParams.PatchParamName | audio/param.go:83-93 | patchParam decodes p&0xFC as ALGORITHM, MIX or FEEDBACK, else "undef". |
| AudioParams.AsString | audio/param.go:7-21 | AsString: a PATCH_, OPR_ or ENV_ name chosen by the type bits p&0xC, or "undef". |
| AudioParams.GroupNames | audio/param.go:23-57 | opr maps groups 0, 1, 3 and 2 to A, B1, B2 and C. env maps 0, 1 and 3 to A, B and VCA, and 2 to "undef". |
| AudioParams.SubtypeNames | audio/param.go:37-93 | For every subtype constant X and group g ≤ 3, decoding X\|g gives X's name. |
| AudioParams.AsStringByType | audio/param.go:7-21 | The type p&0xC picks PATCH_, OPR_ or ENV_; type 0xC gives "undef". |
| AudioParams.AsStringExamples | audio/param.go:7-93 | For example, ENV_ATTACK\|GRP_VCA is "ENV_VCA-ENV_ATTACK" and ENV_ATTACK\|GRP_C is "ENV_undef-ENV_ATTACK". |
| AudioParams.AudioPatch.Empty | audio/patch.go:22-24 | The patch starts empty. |
| AudioParams.AudioPatch.Add | audio/patch.go:78-91 | addBool, addUint16 and addFp32 store the parameter under its id, overwriting any earlier entry. |
| AudioParams.AudioPatch.Set | audio/param.go:176-178 | Set replaces the value and notifies nothing (also lines 207-209, 224-226). |
| AudioParams.AudioPatch.Value | audio/param.go:172-174 | Value returns the value last stored under the id. |
| AudioParams.AudioPatch.TypedParam | audio/patch.go:55-69 | BoolParam and Uint16Param return nil when the id is missing or of another kind. |
| AudioParams.AudioPatch.Fp32Param | audio/patch.go:71-76 | Fp32Param panics, instead of returning nil, when the id is missing or not fp32. |
| AudioParams.AudioInitialIdsDistinct | audio/patch.go:21-53 | initialPatch registers 22 distinct ids. |
| AudioParams.AudioInitialIdsStored | audio/patch.go:21-53 | Every registered id is stored under its own key. No PATCH_* id is registered: not ALGORITHM, FEEDBACK or MIX. |
| AudioParams.InitialPatch | audio/patch.go:21-53 | The 22 adds give exactly the listed parameters with their defaults. |
| Automap.ScreenLayout | automap.go:31-39 | The bytes writeScreen sends: automapWrite with the host id at byte 8, then pos, row and 4, the text and the SysEx end byte. |
| Automap.WriteScreen | automap.go:31-39 | The result has 16+len(msg) bytes. Bytes 0–11 are automapWrite with hostID at byte 8; then pos, row and 4, then msg verbatim, then 0xF7. |
| Automap.ScreenIsSysEx | automap.go:31-39 | The message is well-formed SysEx (0xF0 … 0xF7 with 7-bit data) iff hostID, row, pos and every text byte are below 0x80. |
| Automap.OnlineOffline | automap.go:10-11 | The online and offline messages are 13-byte SysEx messages that differ only at byte 11. |

## Left out

- Floating point is not modelled: `Float2Fp32`, `note2freq` (a `noteFreq` table parameter instead), `makeSineTable` (any table of the right length), `Sample.As16bit`, and the float distance in `getVoice` (an integer absolute difference). Float defaults 0.0, 0.5 and 1.0 are written as 0, 0x8000 and 0x10000.
- Audio I/O and concurrency are not modelled: `runAudio`, `processAudio`, the goroutines started by `NewEngine` and `Run`, the mixer, and the channel-driven oscillator. The `modified` channel is the sequence of ids sent on it; a send that blocks is not modelled.
- MIDI device plumbing (`Automapper`, `automapper.Start`, `main.go`), the UI packages and the STM32 display driver are not part of this model.
- `audio/two_op_algorithm.go` is a stale revision that does not type-check against the current types. It is not part of this model.
- `fmt.Printf` logging is not modelled, including the "nil voice" message and the diagnostics of the decoders and accessors.
- `applyPatch` pointer wiring: Go wires each component's parameter pointers to a patch once. The model passes the parameter values (`AdeParams`, `AdsrParams`, `AlgConfig`, `VoiceConfig`) at each call. Aliasing between components that share one parameter object is therefore not captured.
- FourOp.FourOpAlgorithm.ApplyPatch: models only the topology-specific feedback binding, not the lookups of the other parameters, which are replaced by the value snapshots.
- Engines.Engine.HandleMidi: handles one event per call instead of ranging over the event channel. `byte(event.Data1)` is written as `WrapByte`, and the unused velocity is passed through.
- PatchStore.Patch.Add: binds a CC number to a parameter id, not to the parameter object. If an id is added again, Go's earlier binding still points at the replaced object, while the model's binding follows the new one. Labels are stored but no operation reads them.
- Voices.Voice.constructor: takes only the voice number. The mixer input that `NewEngine` passes is left out together with the mixer.
- Operators.Operator.Rotate: uses the clamped `Advance`. Where Go's rotate makes the phase negative and `sineTable[o.phase]` panics (Finding 1), the model clamps the phase to 0 and goes on. Every member built on it inherits this: FourOp.NextPhase, FourOp.Sample0/1/2, FourOp.Sample, FourOp.FourOpAlgorithm.RotateScaled, Sample0Step/1/2, Render and Render0/1/2, and Voices.Voice.Render. Their "phases stay in the table" promises hold of the model, not of the Go code.
- FourOp.NextPhase: holds only for the clamped update; as written, a negative sum leaves the table (see Operators.Operator.Rotate above).
- FourOp.Registered: Sample, FeedbackOperator, FourOpAlgorithm.ApplyPatch, FourOpAlgorithm.Render, Render0/1/2 and Voices.Voice.Render require an algorithm number of 0, 1 or 2. A byte SetFromCC on CC 3 can store any value up to 127 in ALG. Go then calls a nil render closure, or indexes past slot 7, and panics; that panic path is excluded by this requires and not modelled.
- Automap.WriteScreen: the text is given as bytes. Go's string-to-UTF-8 conversion is not modelled. The global `automapWrite` cannot change here, because Dafny sequences are values; in Go, the append to the full-capacity literal copies it.

## Findings

| source | as written | input that shows it | evidently intended | confidence | as-written member | corrected member |
|---|---|---|---|---|---|---|
| audio/operator.go:22-26 | The phase is advanced by freq>>16 and wrapped only at the top; a negative effective frequency makes the phase negative and `sineTable[o.phase]` indexes out of range (a Go panic). | freq 0, modulation -1 from phase 0: the step is -1 and the index is -1. | `sineTable[o.phase]` needs 0 <= phase < SAMPLING_RATE, and the update only guards the upper end; the lower end needs a guard too. The model clamps a negative phase to 0, one possible fix. | not executed | Operators.AdvanceAsWrittenLeavesTable | Operators.Advance |
| fp/fp32.go:15-25 | The limiter admits 1<<16, and `int16((1<<16)>>1)` = int16(32768) wraps to -32768. The same happens in audio/fp32.go:15-25. | a = 65536: a positive full-scale sample is emitted as the most negative 16-bit value. | Full scale is 1<<16-1 (line 7), so the limiter clips there and the output keeps its sign. | not executed | Fp.To16bitFullScaleWraps | Fp.To16bitClipped |
