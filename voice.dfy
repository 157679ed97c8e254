/**
  A voice (audio/voice.go): a four-operator algorithm, an ADSR amplitude
  envelope (the VCA) and the stack of held MIDI notes, newest last.

  The note-to-frequency conversion is floating point; it is passed in as a
  128-entry table `noteFreq`, indexed by note number.
 */
module Voices {
  import opened MachineInts
  import opened Fp
  import opened ParamIds
  import opened Envelopes
  import opened Operators
  import opened FourOp

  /** The number of MIDI note numbers. */
  const NOTE_COUNT: nat := 128

  /** A note stack: no note twice, every note a MIDI note number (at most 127). */
  predicate HeldNotes(s: seq<Byte>)
  {
    (forall i, j :: 0 <= i < j < |s| ==> s[i] != s[j])
    && forall i :: 0 <= i < |s| ==> s[i] < NOTE_COUNT
  }

  /** The sounding note: the newest one, or 0 when nothing is held. */
  function Top(s: seq<Byte>): Byte
  {
    if |s| == 0 then 0 else s[|s| - 1]
  }

  /** NoteOn's stack update: append the note unless it is already held. */
  function PushNote(s: seq<Byte>, note: Byte): (r: seq<Byte>)
    ensures note in s ==> r == s
    ensures note !in s ==> |r| == |s| + 1 && r[..|s|] == s && Top(r) == note
    ensures HeldNotes(s) && note < NOTE_COUNT ==> HeldNotes(r)
  {
    if note in s then s else s + [note]
  }

  /** NoteOff's stack update: every occurrence of the note dropped, the rest in order. */
  function RemoveNote(s: seq<Byte>, note: Byte): (r: seq<Byte>)
    ensures forall x :: x in r <==> x in s && x != note
    ensures |r| <= |s|
  {
    if |s| == 0 then []
    else if s[0] == note then RemoveNote(s[1..], note)
    else [s[0]] + RemoveNote(s[1..], note)
  }

  /** Removing a note that is not held leaves the stack as it was. */
  lemma {:induction false} RemoveNoteAbsent(s: seq<Byte>, note: Byte)
    requires note !in s
    ensures RemoveNote(s, note) == s
  {
    if |s| > 0 {
      assert note !in s[1..];
      RemoveNoteAbsent(s[1..], note);
    }
  }

  /** On a stack without duplicates, removing the note held at index i closes the gap at i. */
  lemma {:induction false} RemoveNoteAt(s: seq<Byte>, note: Byte, i: nat)
    requires HeldNotes(s) && i < |s| && s[i] == note
    ensures RemoveNote(s, note) == s[..i] + s[i + 1..]
  {
    if i == 0 {
      assert note !in s[1..];
      RemoveNoteAbsent(s[1..], note);
    } else {
      assert HeldNotes(s[1..]) && s[1..][i - 1] == note;
      RemoveNoteAt(s[1..], note, i - 1);
      assert s[1..][..i - 1] + s[1..][i..] == s[1..i] + s[i + 1..];
      assert [s[0]] + s[1..i] == s[..i];
    }
  }

  /** NoteOff keeps the stack free of duplicates and within the MIDI range. */
  lemma {:induction false} RemoveNoteKeepsHeld(s: seq<Byte>, note: Byte)
    requires HeldNotes(s)
    ensures HeldNotes(RemoveNote(s, note)) && note !in RemoveNote(s, note)
  {
    if |s| > 0 {
      assert HeldNotes(s[1..]);
      RemoveNoteKeepsHeld(s[1..], note);
      if s[0] != note {
        var rest := RemoveNote(s[1..], note);
        assert s[0] !in s[1..];
        assert s[0] !in rest;
        var r := [s[0]] + rest;
        forall a, b | 0 <= a < b < |r|
          ensures r[a] != r[b]
        {
          if a > 0 {
            assert r[a] == rest[a - 1] && r[b] == rest[b - 1];
          } else {
            assert r[b] in rest;
          }
        }
      }
    }
  }

  /** Releasing a freshly pressed note restores the stack exactly. */
  lemma PushThenRemove(s: seq<Byte>, note: Byte)
    requires HeldNotes(s) && note < NOTE_COUNT && note !in s
    ensures RemoveNote(PushNote(s, note), note) == s
  {
    var r := PushNote(s, note);
    RemoveNoteAt(r, note, |s|);
    assert r[..|s|] + r[|s| + 1..] == s;
  }

  /** Everything a voice's note handling and render read from the patch. */
  datatype VoiceConfig = VoiceConfig(alg: AlgConfig, vca: AdsrParams)

  /** The fields of a voice that note handling and rendering change. */
  datatype VoiceState = VoiceState(notes: seq<Byte>, freq: Int32, alg: AlgState, vca: AdsrStatus)

  /** trigger: the algorithm plays the new pitch from the start of its envelopes; the VCA triggers. */
  function VoiceTrigger(v: VoiceState, pitch: Int32): (r: VoiceState)
    ensures r.notes == v.notes && r.freq == pitch
    ensures r.alg == TriggerAlg(v.alg) && r.vca == AdsrTrigger(v.vca)
  {
    VoiceState(v.notes, pitch, TriggerAlg(v.alg), AdsrTrigger(v.vca))
  }

  /** retrigger: the new pitch, with every envelope retriggering by its own flag. */
  function VoiceRetrigger(v: VoiceState, pitch: Int32, cfg: VoiceConfig): (r: VoiceState)
    ensures r.notes == v.notes && r.freq == pitch
    ensures r.alg == RetriggerAlg(v.alg, cfg.alg) && r.vca == AdsrRetrigger(v.vca, cfg.vca)
  {
    VoiceState(v.notes, pitch, RetriggerAlg(v.alg, cfg.alg), AdsrRetrigger(v.vca, cfg.vca))
  }

  /** release: the pitch is kept; every envelope releases. */
  function VoiceRelease(v: VoiceState, cfg: VoiceConfig): (r: VoiceState)
    ensures r.notes == v.notes && r.freq == v.freq
    ensures r.alg == ReleaseAlg(v.alg, cfg.alg) && r.vca == AdsrRelease(v.vca)
  {
    VoiceState(v.notes, v.freq, ReleaseAlg(v.alg, cfg.alg), AdsrRelease(v.vca))
  }

  /** NoteOn: ignore notes above 127; otherwise push the note and trigger at its frequency. */
  function NoteOnStep(v: VoiceState, note: Byte, noteFreq: seq<Int32>): VoiceState
    requires |noteFreq| == NOTE_COUNT
  {
    if note >= NOTE_COUNT then v
    else VoiceTrigger(v.(notes := PushNote(v.notes, note)), noteFreq[note])
  }

  /** NoteOff: drop the note; then glide to the newest remaining note, or release when none is left. */
  function NoteOffStep(v: VoiceState, note: Byte, cfg: VoiceConfig, noteFreq: seq<Int32>): VoiceState
    requires HeldNotes(v.notes) && |noteFreq| == NOTE_COUNT
  {
    RemoveNoteKeepsHeld(v.notes, note);
    var rest := RemoveNote(v.notes, note);
    if |rest| > 0 then VoiceRetrigger(v.(notes := rest), noteFreq[Top(rest)], cfg)
    else VoiceRelease(v.(notes := rest), cfg)
  }

  /** A note outside the MIDI range changes nothing: no push and no trigger. */
  lemma NoteOnIgnoresOutOfRange(v: VoiceState, note: Byte, noteFreq: seq<Int32>)
    requires |noteFreq| == NOTE_COUNT && note >= NOTE_COUNT
    ensures NoteOnStep(v, note, noteFreq) == v
  {
  }

  /**
    A note in range is always triggered (never retriggered) at its own
    frequency; a new note becomes the sounding one, a held one leaves the
    stack alone; the stack keeps its invariant.
   */
  lemma NoteOnPlays(v: VoiceState, note: Byte, noteFreq: seq<Int32>)
    requires |noteFreq| == NOTE_COUNT && note < NOTE_COUNT && HeldNotes(v.notes)
    ensures NoteOnStep(v, note, noteFreq).freq == noteFreq[note]
    ensures NoteOnStep(v, note, noteFreq).alg == TriggerAlg(v.alg)
    ensures NoteOnStep(v, note, noteFreq).vca == AdsrTrigger(v.vca)
    ensures HeldNotes(NoteOnStep(v, note, noteFreq).notes)
    ensures note in v.notes ==> NoteOnStep(v, note, noteFreq).notes == v.notes
    ensures note !in v.notes ==> Top(NoteOnStep(v, note, noteFreq).notes) == note
  {
  }

  /**
    NoteOff removes exactly the released note, keeping the invariant; the
    voice then retriggers at the newest remaining note's frequency, or
    releases when the stack is empty, whether or not the note was held.
   */
  lemma NoteOffPlays(v: VoiceState, note: Byte, cfg: VoiceConfig, noteFreq: seq<Int32>)
    requires HeldNotes(v.notes) && |noteFreq| == NOTE_COUNT
    ensures HeldNotes(NoteOffStep(v, note, cfg, noteFreq).notes)
    ensures NoteOffStep(v, note, cfg, noteFreq).notes == RemoveNote(v.notes, note)
    ensures note !in v.notes ==> NoteOffStep(v, note, cfg, noteFreq).notes == v.notes
    ensures |RemoveNote(v.notes, note)| > 0 ==>
      NoteOffStep(v, note, cfg, noteFreq) == VoiceRetrigger(v.(notes := RemoveNote(v.notes, note)), noteFreq[Top(RemoveNote(v.notes, note))], cfg)
    ensures |RemoveNote(v.notes, note)| == 0 ==>
      NoteOffStep(v, note, cfg, noteFreq) == VoiceRelease(v.(notes := []), cfg)
  {
    RemoveNoteKeepsHeld(v.notes, note);
    if note !in v.notes {
      RemoveNoteAbsent(v.notes, note);
    }
  }

  /** Pressing a new note and releasing it again leaves the same stack. */
  lemma NoteOnThenOff(v: VoiceState, note: Byte, cfg: VoiceConfig, noteFreq: seq<Int32>)
    requires HeldNotes(v.notes) && |noteFreq| == NOTE_COUNT && note < NOTE_COUNT && note !in v.notes
    ensures HeldNotes(NoteOnStep(v, note, noteFreq).notes)
    ensures NoteOffStep(NoteOnStep(v, note, noteFreq), note, cfg, noteFreq).notes == v.notes
  {
    PushThenRemove(v.notes, note);
    NoteOffPlays(NoteOnStep(v, note, noteFreq), note, cfg, noteFreq);
  }

  /**
    The VCA pass of a render: `trace` holds the VCA state before each sample
    and after the last; each output sample is the input sample scaled by the
    level after that sample's step.
   */
  ghost predicate VcaScales(trace: seq<AdsrStatus>, input: seq<Int32>, output: seq<Int32>, p: AdsrParams)
  {
    |trace| == |input| + 1 && |output| == |input|
    && forall k {:trigger output[k]} :: 0 <= k < |input| ==>
      trace[k + 1] == AdsrStep(trace[k], p) && output[k] == Mul(input[k], trace[k + 1].current)
  }

  /** One more sample scaled by the VCA extends the pass. */
  lemma VcaScalesExtend(trace: seq<AdsrStatus>, input: seq<Int32>, output: seq<Int32>, st: AdsrStatus, x: Int32, y: Int32, p: AdsrParams)
    requires VcaScales(trace, input, output, p)
    requires st == AdsrStep(trace[|input|], p) && y == Mul(x, st.current)
    ensures VcaScales(trace + [st], input + [x], output + [y], p)
  {
    var trace', input', output' := trace + [st], input + [x], output + [y];
    forall k | 0 <= k < |input'|
      ensures trace'[k + 1] == AdsrStep(trace'[k], p) && output'[k] == Mul(input'[k], trace'[k + 1].current)
    {
      if k < |input| {
        assert output'[k] == output[k] && input'[k] == input[k];
      }
    }
  }

  /** The identifier `ParamId(id) << 8` shifts every bit of the byte out: it is 0 for every voice. */
  function VoiceId(id: Byte): (r: ParamId)
    ensures r == 0
  {
    (id as ParamId) << 8
  }

  class Voice {
    const id: ParamId
    var notesOn: seq<Byte>
    const alg: FourOpAlgorithm
    const vca: AdsrEnvelope

    ghost function Repr(): set<object>
    {
      {this, alg, vca} + alg.Parts()
    }

    ghost predicate Valid()
      reads Repr()
    {
      alg.Valid() && HeldNotes(notesOn)
    }

    function State(): VoiceState
      reads Repr()
    {
      VoiceState(notesOn, alg.freq, alg.Snapshot(), vca.Status())
    }

    /** The sounding note: the newest held one, or 0 when none is held. */
    function CurNote(): Byte
      reads this
    {
      Top(notesOn)
    }

    /** NewSimpleVoice: an empty stack, a fresh algorithm and a fresh VCA on group VCA. */
    constructor(id: Byte)
      ensures Valid() && fresh(Repr())
      ensures this.id == VoiceId(id) && alg.voiceId == VoiceId(id) && vca.group == GRP_VCA
      ensures notesOn == [] && alg.freq == 0
      ensures vca.Status() == AdsrStatus(Complete, 0, 0, 0)
    {
      this.id := VoiceId(id);
      notesOn := [];
      alg := new FourOpAlgorithm(VoiceId(id));
      vca := new AdsrEnvelope(GRP_VCA);
    }

    method Trigger(pitch: Int32, velocity: Byte)
      requires Valid()
      modifies alg, alg.envA, alg.envB, vca
      ensures Valid()
      ensures State() == VoiceTrigger(old(State()), pitch)
    {
      alg.Trigger(pitch, velocity);
      vca.Trigger();
    }

    method Retrigger(pitch: Int32, cfg: VoiceConfig)
      requires Valid()
      modifies alg, alg.envA, alg.envB, vca
      ensures Valid()
      ensures State() == VoiceRetrigger(old(State()), pitch, cfg)
    {
      alg.Retrigger(pitch, cfg.alg);
      vca.Retrigger(cfg.vca);
    }

    method Release(cfg: VoiceConfig)
      requires Valid()
      modifies alg.envA, alg.envB, vca
      ensures Valid()
      ensures State() == VoiceRelease(old(State()), cfg)
    {
      alg.Release(cfg.alg);
      vca.Release();
    }

    /** A key press: scan the stack for the note, push it if absent, trigger at its frequency. */
    method NoteOn(note: Byte, velocity: Byte, noteFreq: seq<Int32>)
      requires Valid() && |noteFreq| == NOTE_COUNT
      modifies this, alg, alg.envA, alg.envB, vca
      ensures Valid()
      ensures State() == NoteOnStep(old(State()), note, noteFreq)
    {
      if note >= NOTE_COUNT {
        return;
      }
      var vel := if velocity > 127 then 127 else velocity;
      var on := false;
      var i := 0;
      while i < |notesOn|
        invariant 0 <= i <= |notesOn|
        invariant on <==> note in notesOn[..i]
      {
        assert notesOn[..i + 1] == notesOn[..i] + [notesOn[i]];
        if notesOn[i] == note {
          on := true;
        }
        i := i + 1;
      }
      assert notesOn[..i] == notesOn;
      if !on {
        notesOn := notesOn + [note];
      }
      Trigger(noteFreq[note], vel);
    }

    /**
      NoteOff's scan. It ranges over the stack as it was when the loop
      started, while a match shifts the tail of the shared backing buffer
      down by one and shortens the stack; `buf` is that backing buffer and
      `len` the stack's current length.
     */
    method DropNote(note: Byte)
      requires HeldNotes(notesOn)
      modifies this
      ensures notesOn == RemoveNote(old(notesOn), note)
    {
      ghost var orig := notesOn;
      var buf := notesOn;
      var len := |notesOn|;
      ghost var removed := false;
      var i := 0;
      while i < |buf|
        invariant |buf| == |orig| && 0 <= i <= |buf|
        invariant !removed ==> buf == orig && len == |orig| && note !in orig[..i]
        invariant removed ==> 0 < |orig| && len == |orig| - 1 && buf[..len] == RemoveNote(orig, note)
        invariant removed ==> forall k :: i <= k < |buf| ==> buf[k] != note
      {
        if buf[i] == note {
          assert !removed;
          RemoveNoteAt(orig, note, i);
          buf := buf[..i] + buf[i + 1..len] + buf[len - 1..];
          len := len - 1;
          assert buf[..len] == orig[..i] + orig[i + 1..];
          forall k | i + 1 <= k < |buf|
            ensures buf[k] != note
          {
            assert buf[k] == orig[if k < len then k + 1 else k];
          }
          removed := true;
        } else {
          assert !removed ==> orig[..i + 1] == orig[..i] + [orig[i]];
        }
        i := i + 1;
      }
      if !removed {
        assert orig[..i] == orig && buf[..len] == buf;
        RemoveNoteAbsent(orig, note);
      }
      notesOn := buf[..len];
    }

    /** A key release: drop the note, then retrigger at the newest remaining note or release. */
    method NoteOff(note: Byte, cfg: VoiceConfig, noteFreq: seq<Int32>)
      requires Valid() && |noteFreq| == NOTE_COUNT
      modifies this, alg, alg.envA, alg.envB, vca
      ensures Valid()
      ensures State() == NoteOffStep(old(State()), note, cfg, noteFreq)
    {
      RemoveNoteKeepsHeld(notesOn, note);
      DropNote(note);
      if |notesOn| > 0 {
        Retrigger(noteFreq[notesOn[|notesOn| - 1]], cfg);
      } else {
        Release(cfg);
      }
    }

    /** Render the algorithm into `out`, then scale every sample by the VCA, in place and in order. */
    method Render(out: array<Int32>, cfg: VoiceConfig, sine: seq<Int32>)
      returns (ghost algTrace: seq<AlgState>, ghost rendered: seq<Int32>, ghost vcaTrace: seq<AdsrStatus>)
      requires Valid() && Registered(cfg.alg.algNum) && |sine| == SAMPLING_RATE
      modifies alg.Parts(), vca, out
      ensures Valid() && notesOn == old(notesOn) && alg.freq == old(alg.freq)
      ensures alg.Feedbacks() == old(alg.Feedbacks())
      ensures Renders(algTrace, rendered, alg.freq, cfg.alg, sine)
      ensures algTrace[0] == old(alg.Snapshot()) && algTrace[|rendered|] == alg.Snapshot()
      ensures VcaScales(vcaTrace, rendered, out[..], cfg.vca)
      ensures vcaTrace[0] == old(vca.Status()) && vcaTrace[out.Length] == vca.Status()
    {
      algTrace := alg.Render(out, cfg.alg, sine);
      rendered := out[..];
      vcaTrace := [vca.Status()];
      var i := 0;
      while i < out.Length
        modifies vca, out
        invariant 0 <= i <= out.Length
        invariant |vcaTrace| == i + 1 && vcaTrace[0] == old(vca.Status()) && vcaTrace[i] == vca.Status()
        invariant out[i..] == rendered[i..]
        invariant VcaScales(vcaTrace, rendered[..i], out[..i], cfg.vca)
      {
        var x := out[i];
        assert x == rendered[i] && rendered[..i + 1] == rendered[..i] + [x];
        var s := vca.Scale(x, cfg.vca);
        VcaScalesExtend(vcaTrace, rendered[..i], out[..i], vca.Status(), x, s, cfg.vca);
        out[i] := s;
        assert out[..i + 1] == out[..i] + [s];
        vcaTrace := vcaTrace + [vca.Status()];
        i := i + 1;
      }
      assert out[..] == out[..i] && rendered == rendered[..i];
    }
  }
}
