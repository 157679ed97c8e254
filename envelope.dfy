/**
  The two envelope state machines of audio/envelope.go.

  Each envelope is an object whose fields (state, sampleCount, current and,
  for the ADSR variant, ref) are updated in place by Trigger, Retrigger,
  Release and Scale. The parameters it reads through pointers on every call
  are passed here as a value snapshot (AdeParams, AdsrParams).

  One call of Scale is one deterministic step. That step is the pure function
  AdeStep / AdsrStep over a snapshot of the fields; the class methods are
  proved to perform exactly that step, and the lemmas below are about runs of
  k steps (AdeRun / AdsrRun).
 */
module Envelopes {
  import opened MachineInts
  import opened Fp
  import opened ParamIds

  /** The envelope states; COMPLETE is the zero value of the Go enumeration. */
  datatype State = Complete | Attack | Decay | Sustain | Release
  {
    /** The byte the Go constant block assigns (iota order). */
    function Code(): (b: Byte)
      ensures b < 5
    {
      match this
      case Complete => 0
      case Attack => 1
      case Decay => 2
      case Sustain => 3
      case Release => 4
    }
  }

  /** The state constants are distinct, with COMPLETE as the zero value. */
  lemma StateCodesDistinct(s: State, t: State)
    ensures s.Code() == t.Code() ==> s == t
    ensures Complete.Code() == 0 && Release.Code() == 4
  {
  }

  /** Parameters an attack-decay-endlevel envelope reads (group-qualified ids ENV_* | group). */
  datatype AdeParams = AdeParams(
    gated: bool, retrigger: bool,
    attack: Uint16, decay: Uint16,
    endLevel: Int32, index: Int32)

  /** Parameters an ADSR envelope reads. */
  datatype AdsrParams = AdsrParams(
    gated: bool, retrigger: bool,
    attack: Uint16, decay: Uint16,
    sustain: Int32, release: Uint16)

  /** The mutable fields of an attack-decay-endlevel envelope. */
  datatype AdeStatus = AdeStatus(state: State, sampleCount: Uint32, current: Int32)

  /** The mutable fields of an ADSR envelope. */
  datatype AdsrStatus = AdsrStatus(state: State, sampleCount: Uint32, current: Int32, ref: Int32)

  /** A zero duration is treated as 1, so no ramp ever divides by zero. */
  function NonZero(duration: Uint16): (d: int)
    ensures 1 <= d < 0x1_0000
    ensures duration != 0 ==> d == duration
  {
    if duration == 0 then 1 else duration
  }

  /**
    The ramp (sampleCount << 11) / uint32(duration): the shift is uint32
    arithmetic, so it keeps the low 32 bits of count * 2048.
   */
  function Ramp(count: Uint32, duration: Uint16): (r: Uint32)
    ensures count < 0x20_0000 ==> r == (count * 2048) / NonZero(duration)
  {
    var shifted := (count * 2048) % 0x1_0000_0000;
    DivMonotone(shifted, shifted * NonZero(duration), NonZero(duration));
    DivCancel(shifted, NonZero(duration));
    shifted / NonZero(duration)
  }

  /** The shift overflows at sampleCount = 2^21: the ramp falls back to zero there. */
  lemma RampWrapsAt2To21(duration: Uint16)
    ensures Ramp(0x1F_FFFF, 1) == 0xFFFF_F800
    ensures Ramp(0x20_0000, duration) == 0
  {
  }

  /** A ramp sample at or before count 32 * duration is at most full scale, and exactly full scale at the end. */
  lemma RampBounded(count: Uint32, duration: Uint16)
    requires count <= 32 * NonZero(duration)
    ensures Ramp(count, duration) <= ONE
    ensures count < 32 * NonZero(duration) ==> Ramp(count, duration) < ONE
    ensures count == 32 * NonZero(duration) ==> Ramp(count, duration) == ONE
  {
    var d := NonZero(duration);
    MulMonotone(count, 2048, 32 * d);
    DivMonotone(count * 2048, ONE * d, d);
    DivCancel(ONE, d);
    if count < 32 * d {
      MulMonotone(count + 1, 2048, 32 * d);
      DivBelow(count * 2048, d, ONE);
    }
  }

  /** A ramp is non-decreasing in the sample count while it has not wrapped. */
  lemma RampMonotone(j: Uint32, k: Uint32, duration: Uint16)
    requires j <= k < 0x20_0000
    ensures Ramp(j, duration) <= Ramp(k, duration)
  {
    DivMonotone(j * 2048, k * 2048, NonZero(duration));
  }

  // ---------------------------------------------------------------------
  // Attack-decay-endlevel envelope (modulation index envelope)
  // ---------------------------------------------------------------------

  /** Trigger: restart the attack from zero. */
  function AdeTrigger(): (r: AdeStatus)
    ensures r.state == Attack && r.current == 0 && r.sampleCount == 0
  {
    AdeStatus(Attack, 0, 0)
  }

  /** Retrigger: Trigger when the retrigger flag is set, otherwise no change. */
  function AdeRetrigger(st: AdeStatus, p: AdeParams): (r: AdeStatus)
    ensures p.retrigger ==> r == AdeTrigger()
    ensures !p.retrigger ==> r == st
  {
    if p.retrigger then AdeTrigger() else st
  }

  /** Release: a gated envelope restarts its count in DECAY; an ungated one ignores it. */
  function AdeRelease(st: AdeStatus, p: AdeParams): (r: AdeStatus)
    ensures p.gated ==> r.state == Decay && r.sampleCount == 0 && r.current == st.current
    ensures !p.gated ==> r == st
  {
    if p.gated then st.(state := Decay, sampleCount := 0) else st
  }

  /**
    One call of Scale on the fields of an attack-decay-endlevel envelope:
    count the sample, then advance the state's ramp or take its transition.
   */
  function AdeStep(st: AdeStatus, p: AdeParams): AdeStatus
  {
    var count := WrapU32(st.sampleCount + 1);
    match st.state
    case Attack =>
      if st.current >= ONE then AdeStatus(if p.gated then Sustain else Decay, 0, ONE)
      else AdeStatus(Attack, count, Wrap32(Ramp(count, p.attack)))
    case Decay =>
      if st.current <= p.endLevel then AdeStatus(Complete, 0, p.endLevel)
      else AdeStatus(Decay, count, Wrap32(ONE - Mul(Wrap32(Ramp(count, p.decay)), Wrap32(ONE - p.endLevel))))
    case Sustain => AdeStatus(Sustain, count, ONE)
    case Complete => AdeStatus(Complete, count, p.endLevel)
    case Release => st.(sampleCount := count)
  }

  /** The transitions of one attack-decay-endlevel step. */
  lemma AdeStepTransitions(st: AdeStatus, p: AdeParams)
    // nothing enters the attack but Trigger
    ensures AdeStep(st, p).state == Attack ==> st.state == Attack
    // the counter advances by one (mod 2^32), or restarts on a transition
    ensures AdeStep(st, p).sampleCount == WrapU32(st.sampleCount + 1) || (AdeStep(st, p).sampleCount == 0 && AdeStep(st, p).state != st.state)
    // at full scale the attack ends: pinned to full scale, then SUSTAIN when gated, DECAY otherwise
    ensures st.state == Attack && st.current >= ONE ==>
      AdeStep(st, p) == AdeStatus(if p.gated then Sustain else Decay, 0, ONE)
    ensures st.state == Attack && st.current < ONE ==> AdeStep(st, p).state == Attack
    // at or below the end level the decay completes there
    ensures st.state == Decay && st.current <= p.endLevel ==> AdeStep(st, p) == AdeStatus(Complete, 0, p.endLevel)
    ensures st.state == Decay && st.current > p.endLevel ==> AdeStep(st, p).state == Decay
    ensures st.state == Sustain ==> AdeStep(st, p).state == Sustain && AdeStep(st, p).current == ONE
    ensures st.state == Complete ==> AdeStep(st, p).state == Complete && AdeStep(st, p).current == p.endLevel
    // this variant has no release case: only the counter moves
    ensures st.state == Release ==> AdeStep(st, p).state == Release && AdeStep(st, p).current == st.current
  {
  }

  /** k consecutive calls of Scale with the same parameters. */
  function AdeRun(st: AdeStatus, p: AdeParams, k: nat): AdeStatus
    decreases k
  {
    if k == 0 then st else AdeStep(AdeRun(st, p, k - 1), p)
  }

  /** One more step appends one call of Scale. */
  lemma AdeRunStep(st: AdeStatus, p: AdeParams, k: nat)
    ensures AdeRun(st, p, k + 1) == AdeStep(AdeRun(st, p, k), p)
  {
  }

  /** Running m steps and then n more is running m + n steps. */
  lemma {:induction false} AdeRunSplit(st: AdeStatus, p: AdeParams, m: nat, n: nat)
    ensures AdeRun(st, p, m + n) == AdeRun(AdeRun(st, p, m), p, n)
    decreases n
  {
    if n > 0 {
      AdeRunSplit(st, p, m, n - 1);
    }
  }

  /** The attack level after k samples of a triggered envelope: k * 2048 / attack. */
  function AttackLevel(k: nat, attack: Uint16): int
  {
    (k * 2048) / NonZero(attack)
  }

  /**
    After Trigger, the k-th sample of the attack (k up to 32 * attack) is
    k * 2048 / attack: it never leaves [0, 1 << 16] and the shift never wraps.
   */
  lemma {:induction false} AdeAttackRamp(p: AdeParams, k: nat)
    requires k <= 32 * NonZero(p.attack)
    ensures AdeRun(AdeTrigger(), p, k) == AdeStatus(Attack, k, AttackLevel(k, p.attack))
    ensures 0 <= AttackLevel(k, p.attack) <= ONE
  {
    RampBounded(k, p.attack);
    if k > 0 {
      AdeAttackRamp(p, k - 1);
      RampBounded(k - 1, p.attack);
    }
  }

  /** The attack is non-decreasing, reaches full scale exactly at sample 32 * attack and not before. */
  lemma AdeAttackReachesFullScale(p: AdeParams, j: nat, k: nat)
    requires j <= k <= 32 * NonZero(p.attack)
    ensures AdeRun(AdeTrigger(), p, j).current <= AdeRun(AdeTrigger(), p, k).current
    ensures k < 32 * NonZero(p.attack) ==> AdeRun(AdeTrigger(), p, k).current < ONE
    ensures AdeRun(AdeTrigger(), p, 32 * NonZero(p.attack)).current == ONE
  {
    AdeAttackRamp(p, j);
    AdeAttackRamp(p, k);
    AdeAttackRamp(p, 32 * NonZero(p.attack));
    RampMonotone(j, k, p.attack);
    RampBounded(k, p.attack);
    RampBounded(32 * NonZero(p.attack), p.attack);
  }

  /** One sample after reaching full scale the attack ends: SUSTAIN when gated, DECAY otherwise. */
  lemma AdeAttackEnds(p: AdeParams)
    ensures AdeRun(AdeTrigger(), p, 32 * NonZero(p.attack) + 1)
         == AdeStatus(if p.gated then Sustain else Decay, 0, ONE)
  {
    var n := 32 * NonZero(p.attack);
    AdeAttackRamp(p, n);
    RampBounded(n, p.attack);
    assert AdeRun(AdeTrigger(), p, n).current == ONE;
  }

  /** The decay level after k samples: full scale minus the ramp's share of (full scale - endLevel). */
  function DecayLevel(k: nat, decay: Uint16, endLevel: Int32): int
    requires k <= 32 * NonZero(decay) && -ONE <= endLevel <= ONE
  {
    RampBounded(k, decay);
    ONE - Mul(Ramp(k, decay), ONE - endLevel)
  }

  /** What k samples of decay leave: still decaying on the ramp, or complete at the end level. */
  ghost predicate AdeDecaying(r: AdeStatus, p: AdeParams, k: nat)
    requires k <= 32 * NonZero(p.decay) && -ONE <= p.endLevel <= ONE
  {
    (r.state == Decay && r.sampleCount == k && (k > 0 ==> r.current == DecayLevel(k, p.decay, p.endLevel)))
    || (r.state == Complete && r.current == p.endLevel)
  }

  /** The decay follows its ramp until it completes at the end level. */
  lemma {:induction false} AdeDecayRamp(c: Int32, p: AdeParams, k: nat)
    requires k <= 32 * NonZero(p.decay) && -ONE <= p.endLevel <= ONE
    ensures AdeDecaying(AdeRun(AdeStatus(Decay, 0, c), p, k), p, k)
  {
    if k > 0 {
      AdeDecayRamp(c, p, k - 1);
      RampBounded(k, p.decay);
      MulRampWidth(Ramp(k, p.decay), ONE - p.endLevel);
    }
  }

  /** COMPLETE holds the end level on every later sample. */
  lemma {:induction false} AdeCompleteHolds(st: AdeStatus, p: AdeParams, k: nat)
    requires st.state == Complete && k >= 1
    ensures AdeRun(st, p, k).state == Complete && AdeRun(st, p, k).current == p.endLevel
  {
    if k > 1 {
      AdeCompleteHolds(st, p, k - 1);
    }
  }

  /** SUSTAIN holds full scale on every later sample, until Release. */
  lemma {:induction false} AdeSustainHolds(st: AdeStatus, p: AdeParams, k: nat)
    requires st.state == Sustain && k >= 1
    ensures AdeRun(st, p, k).state == Sustain && AdeRun(st, p, k).current == ONE
  {
    if k > 1 {
      AdeSustainHolds(st, p, k - 1);
    }
  }

  /** A decay from any level completes at the end level within 32 * decay + 1 samples. */
  lemma AdeDecayCompletes(c: Int32, p: AdeParams)
    requires -ONE <= p.endLevel <= ONE
    ensures AdeRun(AdeStatus(Decay, 0, c), p, 32 * NonZero(p.decay) + 1).state == Complete
    ensures AdeRun(AdeStatus(Decay, 0, c), p, 32 * NonZero(p.decay) + 1).current == p.endLevel
  {
    var n := 32 * NonZero(p.decay);
    AdeDecayRamp(c, p, n);
    RampBounded(n, p.decay);
    MulByOne(ONE - p.endLevel);
    MulCommutes(ONE, ONE - p.endLevel);
  }

  /**
    An ungated envelope runs its whole cycle after Trigger: attack, decay,
    and it rests at the end level after 32 * attack + 32 * decay + 2 samples.
   */
  lemma AdeUngatedCycleCompletes(p: AdeParams)
    requires !p.gated && -ONE <= p.endLevel <= ONE
    ensures AdeRun(AdeRun(AdeTrigger(), p, 32 * NonZero(p.attack) + 1), p, 32 * NonZero(p.decay) + 1).state == Complete
    ensures AdeRun(AdeRun(AdeTrigger(), p, 32 * NonZero(p.attack) + 1), p, 32 * NonZero(p.decay) + 1).current == p.endLevel
  {
    AdeAttackEnds(p);
    AdeDecayCompletes(ONE, p);
  }

  /** An attack-decay-endlevel envelope: the fields of adeEnvelope. */
  class AdeEnvelope {
    const group: ParamId
    var state: State
    var sampleCount: Uint32
    var current: Int32

    function Status(): AdeStatus
      reads this
    {
      AdeStatus(state, sampleCount, current)
    }

    /** A new envelope starts COMPLETE at level 0. */
    constructor(group: ParamId)
      ensures this.group == group
      ensures Status() == AdeStatus(Complete, 0, 0)
    {
      this.group := group;
      state := Complete;
      sampleCount := 0;
      current := 0;
    }

    method Trigger()
      modifies this
      ensures Status() == AdeTrigger()
    {
      state := Attack;
      current := 0;
      sampleCount := 0;
    }

    /** Trigger again only when the retrigger flag is set. */
    method Retrigger(p: AdeParams)
      modifies this
      ensures Status() == AdeRetrigger(old(Status()), p)
    {
      if !p.retrigger {
        return;
      }
      Trigger();
    }

    /** A gated envelope leaves SUSTAIN (or any state) for DECAY; an ungated one ignores Release. */
    method Release(p: AdeParams)
      modifies this
      ensures Status() == AdeRelease(old(Status()), p)
    {
      if p.gated {
        state := Decay;
        sampleCount := 0;
      }
    }

    /** One step of the envelope; returns the signal scaled by the new level. */
    method Scale(s: Int32, p: AdeParams) returns (out: Int32)
      modifies this
      ensures Status() == AdeStep(old(Status()), p)
      ensures out == Mul(s, current)
    {
      sampleCount := WrapU32(sampleCount + 1);
      var endLevel := p.endLevel;
      match state {
        case Attack =>
          if current >= ONE {
            current := ONE;
            if p.gated {
              state := Sustain;
              sampleCount := 0;
            } else {
              state := Decay;
              sampleCount := 0;
            }
          } else {
            current := Wrap32(Ramp(sampleCount, p.attack));
          }
        case Decay =>
          if current <= endLevel {
            current := endLevel;
            state := Complete;
            sampleCount := 0;
          } else {
            current := Wrap32(ONE - Mul(Wrap32(Ramp(sampleCount, p.decay)), Wrap32(ONE - endLevel)));
          }
        case Sustain =>
          current := ONE;
        case Complete =>
          current := endLevel;
        case Release =>
      }
      out := Mul(s, current);
    }

    /** The envelope's own modulation index scaled by the level after one step. */
    method ScaledIndex(p: AdeParams) returns (out: Int32)
      modifies this
      ensures Status() == AdeStep(old(Status()), p)
      ensures out == Mul(p.index, current)
    {
      out := Scale(p.index, p);
    }
  }

  // ---------------------------------------------------------------------
  // ADSR envelope (the voice's VCA)
  // ---------------------------------------------------------------------

  /** Trigger: restart the attack, remembering the level it starts from. */
  function AdsrTrigger(st: AdsrStatus): (r: AdsrStatus)
    ensures r.state == Attack && r.sampleCount == 0
    ensures r.ref == st.current && r.current == st.current
  {
    st.(state := Attack, ref := st.current, sampleCount := 0)
  }

  /** Retrigger: Trigger when the retrigger flag is set, otherwise no change. */
  function AdsrRetrigger(st: AdsrStatus, p: AdsrParams): (r: AdsrStatus)
    ensures p.retrigger ==> r == AdsrTrigger(st)
    ensures !p.retrigger ==> r == st
  {
    if p.retrigger then AdsrTrigger(st) else st
  }

  /** Release: start the release ramp from the current level. */
  function AdsrRelease(st: AdsrStatus): (r: AdsrStatus)
    ensures r.state == Release && r.sampleCount == 0
    ensures r.ref == st.current && r.current == st.current
  {
    st.(state := Release, ref := st.current, sampleCount := 0)
  }

  /** The release factor fp32(1<<16 - ramp): uint32 subtraction, then reinterpretation as int32. */
  function ReleaseFactor(count: Uint32, release: Uint16): (r: Int32)
    // within the ramp the uint32 subtraction is exact: the weight falls from full scale to 0
    ensures 0 <= Ramp(count, release) <= ONE ==> r == ONE - Ramp(count, release) && 0 <= r <= ONE
  {
    Wrap32(WrapU32(ONE - Ramp(count, release)))
  }

  /**
    One call of Scale on the fields of an ADSR envelope: count the sample,
    then advance the state's ramp or take its transition.
   */
  function AdsrStep(st: AdsrStatus, p: AdsrParams): AdsrStatus
  {
    var count := WrapU32(st.sampleCount + 1);
    match st.state
    case Attack =>
      if st.current >= ONE then st.(state := if p.gated then Decay else Release, sampleCount := 0, current := ONE)
      else
        var level := Wrap32(Ramp(count, p.attack));
        st.(sampleCount := count, current := if st.ref > level then st.ref else level)
    case Decay =>
      if st.current <= p.sustain then AdsrStatus(Sustain, 0, p.sustain, p.sustain)
      else st.(sampleCount := count, current := Wrap32(ONE - Mul(Wrap32(Ramp(count, p.decay)), Wrap32(ONE - p.sustain))))
    case Sustain => st.(sampleCount := count, current := p.sustain)
    case Release =>
      if st.current <= 0 then st.(state := Complete, sampleCount := 0, current := 0)
      else st.(sampleCount := count, current := Mul(ReleaseFactor(count, p.release), st.ref))
    case Complete => st.(sampleCount := count)
  }

  /** The transitions of one ADSR step. */
  lemma AdsrStepTransitions(st: AdsrStatus, p: AdsrParams)
    ensures AdsrStep(st, p).state == Attack ==> st.state == Attack
    ensures AdsrStep(st, p).sampleCount == WrapU32(st.sampleCount + 1) || (AdsrStep(st, p).sampleCount == 0 && AdsrStep(st, p).state != st.state)
    // the attack ends at full scale: DECAY when gated, RELEASE otherwise, ref kept
    ensures st.state == Attack && st.current >= ONE ==>
      AdsrStep(st, p) == st.(state := if p.gated then Decay else Release, sampleCount := 0, current := ONE)
    // anti-click: below full scale the attack never drops under the level it was triggered from
    ensures st.state == Attack && st.current < ONE ==>
      AdsrStep(st, p).state == Attack && AdsrStep(st, p).ref == st.ref && AdsrStep(st, p).current >= st.ref
    ensures st.state == Decay && st.current <= p.sustain ==>
      AdsrStep(st, p) == AdsrStatus(Sustain, 0, p.sustain, p.sustain)
    ensures st.state == Decay && st.current > p.sustain ==> AdsrStep(st, p).state == Decay && AdsrStep(st, p).ref == st.ref
    ensures st.state == Sustain ==> AdsrStep(st, p).state == Sustain && AdsrStep(st, p).current == p.sustain && AdsrStep(st, p).ref == st.ref
    ensures st.state == Release && st.current <= 0 ==> AdsrStep(st, p) == st.(state := Complete, sampleCount := 0, current := 0)
    ensures st.state == Release && st.current > 0 ==> AdsrStep(st, p).state == Release && AdsrStep(st, p).ref == st.ref
    ensures st.state == Complete ==> AdsrStep(st, p) == st.(sampleCount := WrapU32(st.sampleCount + 1))
  {
  }

  /** k consecutive calls of Scale with the same parameters. */
  function AdsrRun(st: AdsrStatus, p: AdsrParams, k: nat): AdsrStatus
    decreases k
  {
    if k == 0 then st else AdsrStep(AdsrRun(st, p, k - 1), p)
  }

  /** Running m steps and then n more is running m + n steps. */
  lemma {:induction false} AdsrRunSplit(st: AdsrStatus, p: AdsrParams, m: nat, n: nat)
    ensures AdsrRun(st, p, m + n) == AdsrRun(AdsrRun(st, p, m), p, n)
    decreases n
  {
    if n > 0 {
      AdsrRunSplit(st, p, m, n - 1);
    }
  }

  /** The ADSR attack level after k samples: the larger of the ramp and the level it was triggered from. */
  function AdsrAttackLevel(k: nat, attack: Uint16, ref: Int32): int
  {
    if k == 0 then ref
    else if ref > AttackLevel(k, attack) then ref
    else AttackLevel(k, attack)
  }

  /**
    After Trigger from any level below full scale, the k-th attack sample
    (k up to 32 * attack) is the larger of the ramp and the level the
    envelope was triggered from: it rises without ever dropping below ref.
   */
  lemma {:induction false} AdsrAttackRamp(st: AdsrStatus, p: AdsrParams, k: nat)
    requires st.current < ONE && k <= 32 * NonZero(p.attack)
    ensures AdsrRun(AdsrTrigger(st), p, k) == AdsrStatus(Attack, k, AdsrAttackLevel(k, p.attack, st.current), st.current)
    ensures st.current <= AdsrAttackLevel(k, p.attack, st.current) <= ONE
  {
    RampBounded(k, p.attack);
    if k > 0 {
      AdsrAttackRamp(st, p, k - 1);
      RampBounded(k - 1, p.attack);
    }
  }

  /** The ADSR attack reaches full scale at sample 32 * attack and ends on the next one, with ref kept. */
  lemma AdsrAttackEnds(st: AdsrStatus, p: AdsrParams)
    requires st.current < ONE
    ensures AdsrRun(AdsrTrigger(st), p, 32 * NonZero(p.attack)).current == ONE
    ensures AdsrRun(AdsrTrigger(st), p, 32 * NonZero(p.attack) + 1)
         == AdsrStatus(if p.gated then Decay else Release, 0, ONE, st.current)
  {
    AdsrAttackRamp(st, p, 32 * NonZero(p.attack));
    RampBounded(32 * NonZero(p.attack), p.attack);
  }

  /**
    Ungated, the attack hands over to RELEASE with the ref captured at
    Trigger, not the full-scale level just reached: triggered from silence,
    the level drops from full scale straight to 0 on the next sample.
   */
  lemma AdsrUngatedReleaseFromStaleRef(st: AdsrStatus, p: AdsrParams)
    requires !p.gated && st.current == 0
    ensures AdsrRun(AdsrTrigger(st), p, 32 * NonZero(p.attack) + 1).current == ONE
    ensures AdsrRun(AdsrTrigger(st), p, 32 * NonZero(p.attack) + 2).current == 0
  {
    AdsrAttackEnds(st, p);
  }

  /** What k samples of decay leave: still decaying with ref kept, or sustaining at the sustain level. */
  ghost predicate AdsrDecaying(r: AdsrStatus, p: AdsrParams, k: nat, ref: Int32)
    requires k <= 32 * NonZero(p.decay) && -ONE <= p.sustain <= ONE
  {
    (r.state == Decay && r.sampleCount == k && r.ref == ref
      && (k > 0 ==> r.current == DecayLevel(k, p.decay, p.sustain)))
    || (r.state == Sustain && r.current == p.sustain && r.ref == p.sustain)
  }

  /** The ADSR decay follows its ramp until it reaches the sustain level. */
  lemma {:induction false} AdsrDecayRamp(c: Int32, ref: Int32, p: AdsrParams, k: nat)
    requires k <= 32 * NonZero(p.decay) && -ONE <= p.sustain <= ONE
    ensures AdsrDecaying(AdsrRun(AdsrStatus(Decay, 0, c, ref), p, k), p, k, ref)
  {
    if k > 0 {
      AdsrDecayRamp(c, ref, p, k - 1);
      RampBounded(k, p.decay);
      MulRampWidth(Ramp(k, p.decay), ONE - p.sustain);
    }
  }

  /** A decay reaches SUSTAIN, with current = ref = sustain, within 32 * decay + 1 samples. */
  lemma AdsrDecayReachesSustain(c: Int32, ref: Int32, p: AdsrParams)
    requires -ONE <= p.sustain <= ONE
    ensures AdsrRun(AdsrStatus(Decay, 0, c, ref), p, 32 * NonZero(p.decay) + 1).state == Sustain
    ensures AdsrRun(AdsrStatus(Decay, 0, c, ref), p, 32 * NonZero(p.decay) + 1).current == p.sustain
    ensures AdsrRun(AdsrStatus(Decay, 0, c, ref), p, 32 * NonZero(p.decay) + 1).ref == p.sustain
  {
    var n := 32 * NonZero(p.decay);
    AdsrDecayRamp(c, ref, p, n);
    RampBounded(n, p.decay);
    MulByOne(ONE - p.sustain);
    MulCommutes(ONE, ONE - p.sustain);
  }

  /** SUSTAIN holds the sustain level, with ref unchanged, until Release. */
  lemma {:induction false} AdsrSustainHolds(st: AdsrStatus, p: AdsrParams, k: nat)
    requires st.state == Sustain && k >= 1
    ensures AdsrRun(st, p, k).state == Sustain
    ensures AdsrRun(st, p, k).current == p.sustain && AdsrRun(st, p, k).ref == st.ref
  {
    if k > 1 {
      AdsrSustainHolds(st, p, k - 1);
    }
  }

  /** COMPLETE changes nothing but the sample counter. */
  lemma {:induction false} AdsrCompleteHolds(st: AdsrStatus, p: AdsrParams, k: nat)
    requires st.state == Complete
    ensures AdsrRun(st, p, k).state == Complete
    ensures AdsrRun(st, p, k).current == st.current && AdsrRun(st, p, k).ref == st.ref
  {
    if k > 0 {
      AdsrCompleteHolds(st, p, k - 1);
    }
  }

  /** What k samples of release leave: on the ramp from ref down towards 0, or complete at 0. */
  ghost predicate AdsrReleasing(r: AdsrStatus, p: AdsrParams, k: nat, ref: Int32)
    requires k <= 32 * NonZero(p.release)
  {
    (r.state == Release && r.sampleCount == k && r.ref == ref && 0 <= r.current <= ref
      && (k > 0 ==> r.current == Mul(ONE - Ramp(k, p.release), ref)))
    || (r.state == Complete && r.current == 0 && r.ref == ref)
  }

  /** Multiplying a unit-range weight by a non-negative level gives a value in [0, level]. */
  lemma MulWeightNonNegative(w: Int32, level: Int32)
    requires 0 <= w <= ONE && 0 <= level <= ONE
    ensures 0 <= Mul(w, level) <= level
  {
    MulByWeightBounded(w, level);
    MulStaysInUnitRange(w, level);
    MulMonotone(0, level, w);
    DivMonotone(0, w * level, ONE);
  }

  /** The release ramps the level from ref down to 0 (a level in [0, 1 << 16]). */
  lemma {:induction false} AdsrReleaseRamp(c: Int32, p: AdsrParams, k: nat)
    requires 0 <= c <= ONE && k <= 32 * NonZero(p.release)
    ensures AdsrReleasing(AdsrRun(AdsrStatus(Release, 0, c, c), p, k), p, k, c)
  {
    if k > 0 {
      AdsrReleaseRamp(c, p, k - 1);
      RampBounded(k, p.release);
      MulWeightNonNegative(ONE - Ramp(k, p.release), c);
    }
  }

  /**
    Release from any level up to 1 << 16 completes at level 0 within
    32 * release + 1 samples: a level at or below 0 (a negative sustain)
    completes on the first sample, a positive one at the end of the ramp.
   */
  lemma AdsrReleaseCompletes(st: AdsrStatus, p: AdsrParams)
    requires st.current <= ONE
    ensures AdsrRun(AdsrRelease(st), p, 32 * NonZero(p.release) + 1).state == Complete
    ensures AdsrRun(AdsrRelease(st), p, 32 * NonZero(p.release) + 1).current == 0
  {
    var n := 32 * NonZero(p.release);
    var s0 := AdsrStatus(Release, 0, st.current, st.current);
    assert AdsrRelease(st) == s0;
    if st.current < 0 {
      var s1 := AdsrStep(s0, p);
      assert AdsrRun(s0, p, 1) == s1;
      AdsrRunSplit(s0, p, 1, n);
      AdsrCompleteHolds(s1, p, n);
      assert 1 + n == n + 1;
      return;
    }
    AdsrReleaseRamp(st.current, p, n);
    RampBounded(n, p.release);
    MulByZero(st.current);
    var r := AdsrRun(s0, p, n);
    assert r.current == 0 by {
      assert ONE - Ramp(n, p.release) == 0;
    }
    assert AdsrRun(s0, p, n + 1) == AdsrStep(r, p);
  }

  /**
    Past full scale the uint32 subtraction of the release factor wraps, and
    the factor comes out negative instead of saturating at 0.
   */
  lemma ReleaseFactorWraps(count: Uint32, release: Uint16)
    requires ONE < Ramp(count, release) <= 0x8000_0000
    ensures ReleaseFactor(count, release) == ONE - Ramp(count, release) < 0
  {
    var x := ONE - Ramp(count, release);
    assert WrapU32(x) == x + 0x1_0000_0000;
  }

  /** An ADSR envelope: the fields of adsrEnvelope. */
  class AdsrEnvelope {
    const group: ParamId
    var state: State
    var sampleCount: Uint32
    var current: Int32
    var ref: Int32

    function Status(): AdsrStatus
      reads this
    {
      AdsrStatus(state, sampleCount, current, ref)
    }

    /** A new envelope starts COMPLETE at level 0. */
    constructor(group: ParamId)
      ensures this.group == group
      ensures Status() == AdsrStatus(Complete, 0, 0, 0)
    {
      this.group := group;
      state := Complete;
      sampleCount := 0;
      current := 0;
      ref := 0;
    }

    /** Restart the attack from wherever the level is now (the log line is not modelled). */
    method Trigger()
      modifies this
      ensures Status() == AdsrTrigger(old(Status()))
    {
      state := Attack;
      ref := current;
      sampleCount := 0;
    }

    /** Trigger again only when the retrigger flag is set. */
    method Retrigger(p: AdsrParams)
      modifies this
      ensures Status() == AdsrRetrigger(old(Status()), p)
    {
      if !p.retrigger {
        return;
      }
      Trigger();
    }

    method Release()
      modifies this
      ensures Status() == AdsrRelease(old(Status()))
    {
      state := State.Release;
      ref := current;
      sampleCount := 0;
    }

    /** One step of the envelope; returns the signal scaled by the new level. */
    method Scale(s: Int32, p: AdsrParams) returns (out: Int32)
      modifies this
      ensures Status() == AdsrStep(old(Status()), p)
      ensures out == Mul(s, current)
    {
      sampleCount := WrapU32(sampleCount + 1);
      var sustain := p.sustain;
      match state {
        case Attack =>
          if current >= ONE {
            current := ONE;
            if p.gated {
              state := Decay;
              sampleCount := 0;
            } else {
              state := State.Release;
              sampleCount := 0;
            }
          } else {
            current := Wrap32(Ramp(sampleCount, p.attack));
            if ref > current {
              current := ref;
            }
          }
        case Decay =>
          if current <= sustain {
            current := sustain;
            state := Sustain;
            ref := current;
            sampleCount := 0;
          } else {
            current := Wrap32(ONE - Mul(Wrap32(Ramp(sampleCount, p.decay)), Wrap32(ONE - sustain)));
          }
        case Sustain =>
          current := sustain;
        case Release =>
          if current <= 0 {
            current := 0;
            state := Complete;
            sampleCount := 0;
          } else {
            current := Mul(ReleaseFactor(sampleCount, p.release), ref);
          }
        case Complete =>
      }
      out := Mul(s, current);
    }
  }
}
