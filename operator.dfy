/**
  The operator of audio/operator.go: one sine oscillator with a phase
  accumulator indexing a one-cycle sine table of SAMPLING_RATE entries.

  The operator is called as rotate(freq, modulation) by the algorithms and
  carries a feedback binding they set; the ratio parameter it reads is
  passed as a value. The sine table is an arbitrary sequence of the right
  length (its floating-point construction is not modelled).
 */
module Operators {
  import opened MachineInts
  import opened Fp
  import opened ParamIds

  /** Length of the sine table: one cycle at the engine's 44.1 kHz rate. */
  const SAMPLING_RATE: int := 44100

  /** The operator's effective frequency freq.mul(ratio) + modulation, an int32 sum. */
  function Frequency(freq: Int32, ratio: Int32, modulation: Int32): Int32
  {
    Wrap32(Mul(freq, ratio) + modulation)
  }

  /** The phase step f >> 16: the floored integer part of a 16.16 frequency. */
  function PhaseStep(f: Int32): (d: int)
    ensures d * ONE <= f < d * ONE + ONE
    ensures -0x8000 <= d < 0x8000
  {
    DivBelow(f, ONE, 0x8000);
    DivMonotone(-0x8000_0000, f, ONE);
    DivCancel(-0x8000, ONE);
    f / ONE
  }

  /**
    The phase update as written: add the step, and subtract the table length
    once when the phase reaches it. Nothing handles a negative phase.
   */
  function AdvanceAsWritten(phase: Int32, f: Int32): (r: Int32)
    // the phase moves by the step, modulo the table length
    ensures -0x8000 <= phase < SAMPLING_RATE ==> (r - (phase + PhaseStep(f))) % SAMPLING_RATE == 0
    // a single wrap is enough: a non-negative sum lands inside the table
    ensures 0 <= phase < SAMPLING_RATE && phase + PhaseStep(f) >= 0 ==> 0 <= r < SAMPLING_RATE
  {
    var p := Wrap32(phase + PhaseStep(f));
    if p >= SAMPLING_RATE then p - SAMPLING_RATE else p
  }

  /**
    A negative effective frequency (here zero pitch and a modulation of -1/65536)
    moves phase 0 to -1, and the table lookup sineTable[-1] is out of range.
   */
  lemma AdvanceAsWrittenLeavesTable()
    ensures Frequency(0, ONE, -1) == -1
    ensures AdvanceAsWritten(0, Frequency(0, ONE, -1)) == -1
  {
    assert PhaseStep(-1) == -1;
  }

  /**
    The phase update with a guard: after the single wrap, a negative phase is
    clamped to 0, so the index into the sine table is always valid.
   */
  function Advance(phase: Int32, f: Int32): (r: Int32)
    ensures 0 <= phase < SAMPLING_RATE ==> 0 <= r < SAMPLING_RATE
    ensures 0 <= phase < SAMPLING_RATE && phase + PhaseStep(f) >= 0 ==>
      (r - (phase + PhaseStep(f))) % SAMPLING_RATE == 0
  {
    var p := AdvanceAsWritten(phase, f);
    if p < 0 then 0 else p
  }

  /** Wherever the written update stays inside the table, the guarded one agrees with it. */
  lemma AdvanceAgrees(phase: Int32, f: Int32)
    requires 0 <= phase < SAMPLING_RATE
    ensures 0 <= AdvanceAsWritten(phase, f) ==> Advance(phase, f) == AdvanceAsWritten(phase, f)
    ensures phase + PhaseStep(f) >= 0 <==> AdvanceAsWritten(phase, f) >= 0
  {
  }

  /** One operator: its group, phase accumulator and optional feedback binding. */
  class Operator {
    const group: ParamId
    var phase: Int32
    var feedback: Option<ParamId>

    predicate Valid()
      reads this
    {
      0 <= phase < SAMPLING_RATE
    }

    constructor(group: ParamId)
      ensures this.group == group && phase == 0 && feedback == None
      ensures Valid()
    {
      this.group := group;
      phase := 0;
      feedback := None;
    }

    /**
      rotate: advance the phase by the effective frequency and return the
      table entry at the new phase. The feedback binding is not read.
     */
    method Rotate(freq: Int32, ratio: Int32, modulation: Int32, sine: seq<Int32>) returns (sample: Int32)
      requires Valid() && |sine| == SAMPLING_RATE
      modifies this
      ensures Valid() && feedback == old(feedback)
      ensures phase == Advance(old(phase), Frequency(freq, ratio, modulation))
      ensures sample == sine[phase]
    {
      var f := Wrap32(Mul(freq, ratio) + modulation);
      phase := Wrap32(phase + f / ONE);
      if phase >= SAMPLING_RATE {
        phase := phase - SAMPLING_RATE;
      }
      if phase < 0 {
        phase := 0;
      }
      sample := sine[phase];
    }
  }
}
