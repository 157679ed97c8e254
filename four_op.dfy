/**
  The four-operator FM algorithm of audio/fourOpAlgorithm.go: operators A,
  B1, B2 and C, the envelopes envA and envB (attack-decay-endlevel, their
  output scaling modulation indices), a registry of three topologies, and
  the final cross-mix.

  The parameters a render reads (algorithm number, mix, the four ratios and
  both envelopes' parameters) are passed as one AlgConfig snapshot. A render
  is specified by Renders, the chain of per-sample steps over the fields of
  all seven objects.
 */
module FourOp {
  import opened MachineInts
  import opened Fp
  import opened ParamIds
  import opened Envelopes
  import opened Operators

  /** The mix level, limited to [0, 1 << 16]. */
  function ClampMix(mix: Int32): (m: Int32)
    ensures 0 <= m <= ONE
    ensures 0 <= mix <= ONE ==> m == mix
    ensures mix > ONE ==> m == ONE
    ensures mix < 0 ==> m == 0
  {
    if mix > ONE then ONE else if mix < 0 then 0 else mix
  }

  /** x >> 1 on an int32: the floored half. */
  function Halve(x: Int32): (h: Int32)
    ensures 2 * h <= x < 2 * h + 2
  {
    x / 2
  }

  /** (a + b) >> 1 on int32 operands: the wrapped sum, halved. */
  function HalfSum(a: Int32, b: Int32): Int32
  {
    Halve(Wrap32(a as int + b))
  }

  /** crossMix: (a * (1 - mix) + b * mix) >> 1 with mix clamped, the sum an int32. */
  function CrossMix(a: Int32, b: Int32, mix: Int32): Int32
  {
    var m := ClampMix(mix);
    Halve(Wrap32(Mul(a, ONE - m) + Mul(b, m)))
  }

  /** Out-of-range mix levels act like the nearest end of [0, 1 << 16]. */
  lemma CrossMixClampsMix(a: Int32, b: Int32, mix: Int32)
    ensures mix > ONE ==> CrossMix(a, b, mix) == CrossMix(a, b, ONE)
    ensures mix < 0 ==> CrossMix(a, b, mix) == CrossMix(a, b, 0)
  {
  }

  /** At mix 0 the result is a >> 1, at full mix it is b >> 1. */
  lemma CrossMixEndpoints(a: Int32, b: Int32)
    ensures CrossMix(a, b, 0) == a / 2
    ensures CrossMix(a, b, ONE) == b / 2
  {
    MulByOne(a);
    MulByZero(a);
    MulByOne(b);
    MulByZero(b);
  }

  /** Inputs within full scale mix to a result within half full scale: the sum never overflows. */
  lemma CrossMixBounded(a: Int32, b: Int32, mix: Int32)
    requires -ONE <= a <= ONE && -ONE <= b <= ONE
    ensures -0x8000 <= CrossMix(a, b, mix) <= 0x8000
  {
    var m := ClampMix(mix);
    MulByWeightBounded(a, ONE - m);
    MulByWeightBounded(b, m);
  }

  /** The four operators of the algorithm. */
  datatype OpName = A | B1 | B2 | C

  /** Number of slots in the algorithm registry; only the first three are filled. */
  const ALGORITHM_SLOTS: int := 8

  /** A registered topology: slots 0, 1 and 2. */
  predicate Registered(algNum: int)
  {
    0 <= algNum < 3
  }

  /** The one operator each topology binds the patch feedback parameter to. */
  function FeedbackOperator(algNum: Byte): (op: OpName)
    requires Registered(algNum)
    ensures op == B2 <==> algNum == 1
    ensures op != B2 ==> op == A
  {
    if algNum == 1 then B2 else A
  }

  /** Everything a render reads from the patch. */
  datatype AlgConfig = AlgConfig(
    algNum: Byte, mix: Int32,
    ratioA: Int32, ratioB1: Int32, ratioB2: Int32, ratioC: Int32,
    envA: AdeParams, envB: AdeParams)

  /** The fields a render updates: four phases and two envelopes. */
  datatype AlgState = AlgState(a: Int32, b1: Int32, b2: Int32, c: Int32, envA: AdeStatus, envB: AdeStatus)

  predicate PhasesInTable(st: AlgState)
  {
    0 <= st.a < SAMPLING_RATE && 0 <= st.b1 < SAMPLING_RATE
    && 0 <= st.b2 < SAMPLING_RATE && 0 <= st.c < SAMPLING_RATE
  }

  /** The phase an operator moves to in one rotate. */
  function NextPhase(phase: Int32, freq: Int32, ratio: Int32, modulation: Int32): (p: Int32)
    requires 0 <= phase < SAMPLING_RATE
    ensures 0 <= p < SAMPLING_RATE
  {
    Advance(phase, Frequency(freq, ratio, modulation))
  }

  /** The envelope's index scaled by its level after one more step (ScaledIndex). */
  function ScaledIndexOf(e: AdeStatus, p: AdeParams): Int32
  {
    Mul(p.index, AdeStep(e, p).current)
  }

  /** Trigger: both envelopes restart their attack; the phases are kept. */
  function TriggerAlg(st: AlgState): (r: AlgState)
    ensures r.envA == AdeTrigger() && r.envB == AdeTrigger()
    ensures (r.a, r.b1, r.b2, r.c) == (st.a, st.b1, st.b2, st.c)
  {
    st.(envA := AdeTrigger(), envB := AdeTrigger())
  }

  /** Retrigger: each envelope retriggers according to its own flag; the phases are kept. */
  function RetriggerAlg(st: AlgState, cfg: AlgConfig): (r: AlgState)
    ensures r.envA == AdeRetrigger(st.envA, cfg.envA) && r.envB == AdeRetrigger(st.envB, cfg.envB)
    ensures (r.a, r.b1, r.b2, r.c) == (st.a, st.b1, st.b2, st.c)
  {
    st.(envA := AdeRetrigger(st.envA, cfg.envA), envB := AdeRetrigger(st.envB, cfg.envB))
  }

  /** Release: each envelope releases according to its own gate flag; the phases are kept. */
  function ReleaseAlg(st: AlgState, cfg: AlgConfig): (r: AlgState)
    ensures r.envA == AdeRelease(st.envA, cfg.envA) && r.envB == AdeRelease(st.envB, cfg.envB)
    ensures (r.a, r.b1, r.b2, r.c) == (st.a, st.b1, st.b2, st.c)
  {
    st.(envA := AdeRelease(st.envA, cfg.envA), envB := AdeRelease(st.envB, cfg.envB))
  }

  /** Topology 0: y = B2 * B1, x = (A + y) * C; mixes C with B1. */
  function Sample0(st: AlgState, freq: Int32, cfg: AlgConfig, sine: seq<Int32>): (r: (AlgState, Int32))
    requires PhasesInTable(st) && |sine| == SAMPLING_RATE
    ensures PhasesInTable(r.0)
    ensures r.0.envA == AdeStep(st.envA, cfg.envA) && r.0.envB == AdeStep(st.envB, cfg.envB)
  {
    var a := NextPhase(st.a, freq, cfg.ratioA, 0);
    var aVal := Mul(sine[a], ScaledIndexOf(st.envA, cfg.envA));
    var b2 := NextPhase(st.b2, freq, cfg.ratioB2, 0);
    var b1 := NextPhase(st.b1, freq, cfg.ratioB1, sine[b2]);
    var b1Val := Mul(sine[b1], ScaledIndexOf(st.envB, cfg.envB));
    var cMod := HalfSum(aVal, b1Val);
    var c := NextPhase(st.c, freq, cfg.ratioC, cMod);
    (AlgState(a, b1, b2, c, AdeStep(st.envA, cfg.envA), AdeStep(st.envB, cfg.envB)),
     CrossMix(sine[c], b1Val, cfg.mix))
  }

  /** Topology 1: x = A * C, y = B2 * B1. */
  function Sample1(st: AlgState, freq: Int32, cfg: AlgConfig, sine: seq<Int32>): (r: (AlgState, Int32))
    requires PhasesInTable(st) && |sine| == SAMPLING_RATE
    ensures PhasesInTable(r.0)
    ensures r.0.envA == AdeStep(st.envA, cfg.envA) && r.0.envB == AdeStep(st.envB, cfg.envB)
  {
    var a := NextPhase(st.a, freq, cfg.ratioA, 0);
    var aVal := Mul(sine[a], ScaledIndexOf(st.envA, cfg.envA));
    var c := NextPhase(st.c, freq, cfg.ratioC, aVal);
    var b2 := NextPhase(st.b2, freq, cfg.ratioB2, 0);
    var b1 := NextPhase(st.b1, freq, cfg.ratioB1, sine[b2]);
    var y := Mul(sine[b1], ScaledIndexOf(st.envB, cfg.envB));
    (AlgState(a, b1, b2, c, AdeStep(st.envA, cfg.envA), AdeStep(st.envB, cfg.envB)),
     CrossMix(sine[c], y, cfg.mix))
  }

  /** Topology 2: x = (A * C) + (A * B1), y = A * B2; envelope B scales both B2 and B1. */
  function Sample2(st: AlgState, freq: Int32, cfg: AlgConfig, sine: seq<Int32>): (r: (AlgState, Int32))
    requires PhasesInTable(st) && |sine| == SAMPLING_RATE
    ensures PhasesInTable(r.0)
    ensures r.0.envA == AdeStep(st.envA, cfg.envA) && r.0.envB == AdeStep(AdeStep(st.envB, cfg.envB), cfg.envB)
  {
    var a := NextPhase(st.a, freq, cfg.ratioA, 0);
    var aVal := Mul(sine[a], ScaledIndexOf(st.envA, cfg.envA));
    var b2 := NextPhase(st.b2, freq, cfg.ratioB2, aVal);
    var y := Mul(sine[b2], ScaledIndexOf(st.envB, cfg.envB));
    var envB1 := AdeStep(st.envB, cfg.envB);
    var b1 := NextPhase(st.b1, freq, cfg.ratioB1, aVal);
    var b1Val := Mul(sine[b1], ScaledIndexOf(envB1, cfg.envB));
    var c := NextPhase(st.c, freq, cfg.ratioC, aVal);
    var x := HalfSum(sine[c], b1Val);
    (AlgState(a, b1, b2, c, AdeStep(st.envA, cfg.envA), AdeStep(envB1, cfg.envB)),
     CrossMix(x, y, cfg.mix))
  }

  /**
    One output sample of the selected topology. Every topology rotates each
    operator once, steps envelope A once and envelope B once or twice.
   */
  function Sample(st: AlgState, freq: Int32, cfg: AlgConfig, sine: seq<Int32>): (r: (AlgState, Int32))
    requires Registered(cfg.algNum) && PhasesInTable(st) && |sine| == SAMPLING_RATE
    ensures PhasesInTable(r.0)
    ensures r.0.envA == AdeStep(st.envA, cfg.envA)
    ensures r.0.envB == if cfg.algNum == 2 then AdeStep(AdeStep(st.envB, cfg.envB), cfg.envB) else AdeStep(st.envB, cfg.envB)
  {
    if cfg.algNum == 0 then Sample0(st, freq, cfg, sine)
    else if cfg.algNum == 1 then Sample1(st, freq, cfg, sine)
    else Sample2(st, freq, cfg, sine)
  }

  /**
    trace is the chain of field states a render passes through and outs the
    samples it writes: sample k takes trace[k] to trace[k + 1] and emits outs[k].
   */
  ghost predicate Renders(trace: seq<AlgState>, outs: seq<Int32>, freq: Int32, cfg: AlgConfig, sine: seq<Int32>)
  {
    Registered(cfg.algNum) && |sine| == SAMPLING_RATE && |trace| == |outs| + 1 && PhasesInTable(trace[0])
    && forall k :: 0 <= k < |outs| ==> StepAt(trace, outs, freq, cfg, sine, k)
  }

  /** Sample k of a render: trace[k] is inside the table and one Sample takes it to trace[k + 1], emitting outs[k]. */
  ghost predicate StepAt(trace: seq<AlgState>, outs: seq<Int32>, freq: Int32, cfg: AlgConfig, sine: seq<Int32>, k: int)
  {
    0 <= k < |outs| && k + 1 < |trace| && Registered(cfg.algNum) && |sine| == SAMPLING_RATE
    && PhasesInTable(trace[k]) && Sample(trace[k], freq, cfg, sine) == (trace[k + 1], outs[k])
  }

  /** A render extends by one more sample from its last state. */
  lemma RendersExtend(trace: seq<AlgState>, outs: seq<Int32>, st: AlgState, v: Int32, freq: Int32, cfg: AlgConfig, sine: seq<Int32>)
    requires Renders(trace, outs, freq, cfg, sine)
    requires PhasesInTable(trace[|outs|]) && Sample(trace[|outs|], freq, cfg, sine) == (st, v)
    ensures Renders(trace + [st], outs + [v], freq, cfg, sine)
  {
    var trace', outs' := trace + [st], outs + [v];
    forall k | 0 <= k < |outs'|
      ensures StepAt(trace', outs', freq, cfg, sine, k)
    {
      if k < |outs| {
        assert StepAt(trace, outs, freq, cfg, sine, k);
        assert trace'[k] == trace[k] && trace'[k + 1] == trace[k + 1] && outs'[k] == outs[k];
      }
    }
  }

  /** Sample k of a render chain, as a fact about the chain's states. */
  lemma RendersAt(trace: seq<AlgState>, outs: seq<Int32>, freq: Int32, cfg: AlgConfig, sine: seq<Int32>, k: nat)
    requires Renders(trace, outs, freq, cfg, sine) && k < |outs|
    ensures Registered(cfg.algNum) && |sine| == SAMPLING_RATE && PhasesInTable(trace[k])
    ensures Sample(trace[k], freq, cfg, sine) == (trace[k + 1], outs[k])
  {
    assert StepAt(trace, outs, freq, cfg, sine, k);
  }

  /** Sample k of a render chain steps envelope A once and envelope B once, or twice in topology 2. */
  lemma RendersStepsEnvelopesAt(trace: seq<AlgState>, outs: seq<Int32>, freq: Int32, cfg: AlgConfig, sine: seq<Int32>, k: nat)
    requires Renders(trace, outs, freq, cfg, sine) && k < |outs|
    ensures trace[k + 1].envA == AdeStep(trace[k].envA, cfg.envA)
    ensures cfg.algNum != 2 ==> trace[k + 1].envB == AdeStep(trace[k].envB, cfg.envB)
    ensures cfg.algNum == 2 ==> trace[k + 1].envB == AdeStep(AdeStep(trace[k].envB, cfg.envB), cfg.envB)
  {
    RendersAt(trace, outs, freq, cfg, sine, k);
  }

  /** The four-operator algorithm object: its operators and envelopes, and the pitch it plays. */
  class FourOpAlgorithm {
    const voiceId: ParamId
    const opA: Operator
    const opB1: Operator
    const opB2: Operator
    const opC: Operator
    const envA: AdeEnvelope
    const envB: AdeEnvelope
    var freq: Int32

    /** The objects a render or a note event may change. */
    ghost function Parts(): set<object>
    {
      {opA, opB1, opB2, opC, envA, envB}
    }

    /** The parts are distinct objects and every operator's phase indexes the sine table. */
    ghost predicate Valid()
      reads opA, opB1, opB2, opC
    {
      opA != opB1 && opA != opB2 && opA != opC && opB1 != opB2 && opB1 != opC && opB2 != opC
      && envA != envB
      && opA.Valid() && opB1.Valid() && opB2.Valid() && opC.Valid()
    }

    /** The fields a render reads and writes. */
    function Snapshot(): AlgState
      reads Parts()
    {
      AlgState(opA.phase, opB1.phase, opB2.phase, opC.phase, envA.Status(), envB.Status())
    }

    /** The feedback bindings of operators A, B1, B2 and C, which only applyPatch sets. */
    ghost function Feedbacks(): seq<Option<ParamId>>
      reads opA, opB1, opB2, opC
    {
      [opA.feedback, opB1.feedback, opB2.feedback, opC.feedback]
    }

    /** A new algorithm: operators A, B1, B2, C and envelopes A, B at rest. */
    constructor(voiceId: ParamId)
      ensures Valid() && fresh(Parts())
      ensures this.voiceId == voiceId && freq == 0
      ensures Snapshot() == AlgState(0, 0, 0, 0, AdeStatus(Complete, 0, 0), AdeStatus(Complete, 0, 0))
      ensures opA.group == GRP_A && opB1.group == GRP_B1 && opB2.group == GRP_B2 && opC.group == GRP_C
      ensures envA.group == GRP_A && envB.group == GRP_B
      ensures opA.feedback == None && opB1.feedback == None && opB2.feedback == None && opC.feedback == None
    {
      this.voiceId := voiceId;
      opA := new Operator(GRP_A);
      opB1 := new Operator(GRP_B1);
      opB2 := new Operator(GRP_B2);
      opC := new Operator(GRP_C);
      envA := new AdeEnvelope(GRP_A);
      envB := new AdeEnvelope(GRP_B);
      freq := 0;
    }

    /**
      applyPatch's topology-specific part: bind the feedback parameter to the
      topology's operator. A binding made for an earlier topology is kept.
     */
    method ApplyPatch(algNum: Byte)
      requires Valid() && Registered(algNum)
      modifies opA, opB2
      ensures Valid()
      ensures FeedbackOperator(algNum) == A ==> opA.feedback == Some(PATCH_FEEDBACK) && opB2.feedback == old(opB2.feedback)
      ensures FeedbackOperator(algNum) == B2 ==> opB2.feedback == Some(PATCH_FEEDBACK) && opA.feedback == old(opA.feedback)
      ensures Snapshot() == old(Snapshot())
    {
      if algNum == 1 {
        opB2.feedback := Some(PATCH_FEEDBACK);
      } else {
        opA.feedback := Some(PATCH_FEEDBACK);
      }
    }

    /** Play a new pitch: store it and trigger both envelopes (velocity is not used). */
    method Trigger(pitch: Int32, velocity: Byte)
      requires Valid()
      modifies this, envA, envB
      ensures Valid() && freq == pitch
      ensures Snapshot() == TriggerAlg(old(Snapshot()))
    {
      freq := pitch;
      envA.Trigger();
      envB.Trigger();
    }

    /** Glide to a new pitch: store it and retrigger both envelopes. */
    method Retrigger(pitch: Int32, cfg: AlgConfig)
      requires Valid()
      modifies this, envA, envB
      ensures Valid() && freq == pitch
      ensures Snapshot() == RetriggerAlg(old(Snapshot()), cfg)
    {
      freq := pitch;
      envA.Retrigger(cfg.envA);
      envB.Retrigger(cfg.envB);
    }

    /** Release both envelopes; the pitch is kept. */
    method Release(cfg: AlgConfig)
      requires Valid()
      modifies envA, envB
      ensures Valid() && freq == old(freq)
      ensures Snapshot() == ReleaseAlg(old(Snapshot()), cfg)
    {
      envA.Release(cfg.envA);
      envB.Release(cfg.envB);
    }

    /**
      Render: dispatch on the algorithm number and fill the whole buffer in
      index order. The ghost trace is the chain of field states passed through.
     */
    method Render(out: array<Int32>, cfg: AlgConfig, sine: seq<Int32>) returns (ghost trace: seq<AlgState>)
      requires Valid() && Registered(cfg.algNum) && |sine| == SAMPLING_RATE
      modifies Parts(), out
      ensures Valid() && freq == old(freq)
      ensures Renders(trace, out[..], freq, cfg, sine)
      ensures trace[0] == old(Snapshot()) && trace[out.Length] == Snapshot()
      ensures Feedbacks() == old(Feedbacks())
    {
      if cfg.algNum == 0 {
        trace := Render0(out, cfg, sine);
      } else if cfg.algNum == 1 {
        trace := Render1(out, cfg, sine);
      } else {
        trace := Render2(out, cfg, sine);
      }
    }

    /**
      op.rotate(freq, modulation).mul(env.ScaledIndex()): rotate the operator,
      step the envelope, and scale the operator's sample by the scaled index.
     */
    method RotateScaled(op: Operator, ratio: Int32, modulation: Int32, env: AdeEnvelope, p: AdeParams, sine: seq<Int32>)
      returns (v: Int32)
      requires op.Valid() && |sine| == SAMPLING_RATE
      modifies op, env
      ensures op.Valid() && op.feedback == old(op.feedback)
      ensures op.phase == NextPhase(old(op.phase), freq, ratio, modulation)
      ensures env.Status() == AdeStep(old(env.Status()), p)
      ensures v == Mul(sine[op.phase], ScaledIndexOf(old(env.Status()), p))
    {
      var raw := op.Rotate(freq, ratio, modulation, sine);
      var index := env.ScaledIndex(p);
      v := Mul(raw, index);
    }

    /** One sample of topology 0, calling rotate and ScaledIndex in the order of the Go closure. */
    method Sample0Step(cfg: AlgConfig, sine: seq<Int32>) returns (v: Int32)
      requires Valid() && |sine| == SAMPLING_RATE
      modifies Parts()
      ensures Valid()
      ensures (Snapshot(), v) == Sample0(old(Snapshot()), freq, cfg, sine)
      ensures Feedbacks() == old(Feedbacks())
    {
      var aVal := RotateScaled(opA, cfg.ratioA, 0, envA, cfg.envA, sine);
      var b2Val := opB2.Rotate(freq, cfg.ratioB2, 0, sine);
      var b1Val := RotateScaled(opB1, cfg.ratioB1, b2Val, envB, cfg.envB, sine);
      var cMod := HalfSum(aVal, b1Val);
      var cVal := opC.Rotate(freq, cfg.ratioC, cMod, sine);
      v := CrossMix(cVal, b1Val, cfg.mix);
    }

    /** One sample of topology 1. */
    method Sample1Step(cfg: AlgConfig, sine: seq<Int32>) returns (v: Int32)
      requires Valid() && |sine| == SAMPLING_RATE
      modifies Parts()
      ensures Valid()
      ensures (Snapshot(), v) == Sample1(old(Snapshot()), freq, cfg, sine)
      ensures Feedbacks() == old(Feedbacks())
    {
      var aVal := RotateScaled(opA, cfg.ratioA, 0, envA, cfg.envA, sine);
      var x := opC.Rotate(freq, cfg.ratioC, aVal, sine);
      var b2Val := opB2.Rotate(freq, cfg.ratioB2, 0, sine);
      var y := RotateScaled(opB1, cfg.ratioB1, b2Val, envB, cfg.envB, sine);
      v := CrossMix(x, y, cfg.mix);
    }

    /** One sample of topology 2: envelope B's ScaledIndex is called twice. */
    method Sample2Step(cfg: AlgConfig, sine: seq<Int32>) returns (v: Int32)
      requires Valid() && |sine| == SAMPLING_RATE
      modifies Parts()
      ensures Valid()
      ensures (Snapshot(), v) == Sample2(old(Snapshot()), freq, cfg, sine)
      ensures Feedbacks() == old(Feedbacks())
    {
      var aVal := RotateScaled(opA, cfg.ratioA, 0, envA, cfg.envA, sine);
      var y := RotateScaled(opB2, cfg.ratioB2, aVal, envB, cfg.envB, sine);
      var b1Val := RotateScaled(opB1, cfg.ratioB1, aVal, envB, cfg.envB, sine);
      var cVal := opC.Rotate(freq, cfg.ratioC, aVal, sine);
      var x := HalfSum(cVal, b1Val);
      v := CrossMix(x, y, cfg.mix);
    }

    /** Topology 0's render loop. */
    method Render0(out: array<Int32>, cfg: AlgConfig, sine: seq<Int32>) returns (ghost trace: seq<AlgState>)
      requires Valid() && cfg.algNum == 0 && |sine| == SAMPLING_RATE
      modifies Parts(), out
      ensures Valid() && freq == old(freq)
      ensures Renders(trace, out[..], freq, cfg, sine)
      ensures trace[0] == old(Snapshot()) && trace[out.Length] == Snapshot()
      ensures Feedbacks() == old(Feedbacks())
    {
      trace := [Snapshot()];
      var i := 0;
      while i < out.Length
        invariant 0 <= i <= out.Length && Valid()
        invariant Renders(trace, out[..i], freq, cfg, sine)
        invariant trace[0] == old(Snapshot()) && trace[i] == Snapshot()
        invariant Feedbacks() == old(Feedbacks())
      {
        var v := Sample0Step(cfg, sine);
        RendersExtend(trace, out[..i], Snapshot(), v, freq, cfg, sine);
        out[i] := v;
        assert out[..i + 1] == out[..i] + [v];
        trace := trace + [Snapshot()];
        i := i + 1;
      }
      assert out[..] == out[..out.Length];
    }

    /** Topology 1's render loop. */
    method Render1(out: array<Int32>, cfg: AlgConfig, sine: seq<Int32>) returns (ghost trace: seq<AlgState>)
      requires Valid() && cfg.algNum == 1 && |sine| == SAMPLING_RATE
      modifies Parts(), out
      ensures Valid() && freq == old(freq)
      ensures Renders(trace, out[..], freq, cfg, sine)
      ensures trace[0] == old(Snapshot()) && trace[out.Length] == Snapshot()
      ensures Feedbacks() == old(Feedbacks())
    {
      trace := [Snapshot()];
      var i := 0;
      while i < out.Length
        invariant 0 <= i <= out.Length && Valid()
        invariant Renders(trace, out[..i], freq, cfg, sine)
        invariant trace[0] == old(Snapshot()) && trace[i] == Snapshot()
        invariant Feedbacks() == old(Feedbacks())
      {
        var v := Sample1Step(cfg, sine);
        RendersExtend(trace, out[..i], Snapshot(), v, freq, cfg, sine);
        out[i] := v;
        assert out[..i + 1] == out[..i] + [v];
        trace := trace + [Snapshot()];
        i := i + 1;
      }
      assert out[..] == out[..out.Length];
    }

    /** Topology 2's render loop. */
    method Render2(out: array<Int32>, cfg: AlgConfig, sine: seq<Int32>) returns (ghost trace: seq<AlgState>)
      requires Valid() && cfg.algNum == 2 && |sine| == SAMPLING_RATE
      modifies Parts(), out
      ensures Valid() && freq == old(freq)
      ensures Renders(trace, out[..], freq, cfg, sine)
      ensures trace[0] == old(Snapshot()) && trace[out.Length] == Snapshot()
      ensures Feedbacks() == old(Feedbacks())
    {
      trace := [Snapshot()];
      var i := 0;
      while i < out.Length
        invariant 0 <= i <= out.Length && Valid()
        invariant Renders(trace, out[..i], freq, cfg, sine)
        invariant trace[0] == old(Snapshot()) && trace[i] == Snapshot()
        invariant Feedbacks() == old(Feedbacks())
      {
        var v := Sample2Step(cfg, sine);
        RendersExtend(trace, out[..i], Snapshot(), v, freq, cfg, sine);
        out[i] := v;
        assert out[..i + 1] == out[..i] + [v];
        trace := trace + [Snapshot()];
        i := i + 1;
      }
      assert out[..] == out[..out.Length];
    }
  }
}
