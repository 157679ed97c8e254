/**
  The engine (audio/engine.go): a pool of eight voices, voice allocation for
  a new note, and the dispatch of one MIDI channel message. The message type
  is the high nibble of the status byte, as in the Channel Voice Messages of
  the MIDI 1.0 Detailed Specification: 0x8 Note Off, 0x9 Note On, 0xB Control
  Change.
 */
module Engines {
  import opened MachineInts
  import opened Voices

  const NUM_VOICES: nat := 8

  const NOTE_OFF: int := 0x8
  const NOTE_ON: int := 0x9
  const POLY_AFTERTOUCH: int := 0xA
  const CC: int := 0xB
  const PROGRAM_CHANGE: int := 0xC
  const CHANNEL_PRESSURE: int := 0xD
  const PITCH_BEND: int := 0xE

  /** The message type: the status shifted right by four (an arithmetic shift on int64). */
  function MessageKind(status: int): (kind: int)
    ensures 0 <= status < 0x100 ==> 0 <= kind < 0x10
    ensures 16 * kind <= status < 16 * kind + 16
  {
    status / 16
  }

  /** The distance between two notes, in semitones. */
  function Dist(a: Byte, b: Byte): (d: nat)
    ensures d == a - b || d == b - a
    ensures d < 0x100
  {
    if a >= b then a - b else b - a
  }

  /** A voice sounding note 0 counts as idle: 0 is also the value for "no note". */
  predicate AllBusy(notes: seq<Byte>, upTo: nat)
    requires upTo <= |notes|
  {
    forall k :: 0 <= k < upTo ==> notes[k] != 0
  }

  /**
    Voice j is getVoice's choice for `note`, where `notes` lists what each
    voice of the pool sounds: either the first idle voice, or, when every
    voice is busy, the earliest voice nearest to `note`, provided it is
    closer than 127 semitones.
   */
  predicate IsChoice(notes: seq<Byte>, note: Byte, j: nat)
  {
    j < |notes|
    && if notes[j] == 0 then AllBusy(notes, j)
       else
         AllBusy(notes, |notes|) && Dist(notes[j], note) < 127
         && (forall k :: 0 <= k < j ==> Dist(notes[k], note) > Dist(notes[j], note))
         && (forall k :: j < k < |notes| ==> Dist(notes[k], note) >= Dist(notes[j], note))
  }

  /** getVoice finds no voice: every voice is busy and at least 127 semitones away. */
  predicate NoChoice(notes: seq<Byte>, note: Byte)
  {
    AllBusy(notes, |notes|) && forall k :: 0 <= k < |notes| ==> Dist(notes[k], note) >= 127
  }

  /** The choice is determined: a choice excludes every other index, and "no choice". */
  lemma ChoiceUnique(notes: seq<Byte>, note: Byte, j1: nat, j2: nat)
    requires IsChoice(notes, note, j1) && j2 != j1
    ensures !IsChoice(notes, note, j2)
    ensures !NoChoice(notes, note)
  {
  }

  class Engine {
    const voices: seq<Voice>
    var voiceMap: map<Byte, Voice>

    /** Every object of every voice of the pool. */
    ghost const Repr: set<object>

    /** The voices own disjoint objects and are all valid. */
    ghost predicate PoolValid()
      reads Repr
    {
      (forall i :: 0 <= i < |voices| ==> voices[i].Repr() <= Repr)
      && (forall i, j :: 0 <= i < j < |voices| ==> voices[i].Repr() !! voices[j].Repr())
      && forall i :: 0 <= i < |voices| ==> voices[i].Valid()
    }

    /** A valid pool, apart from the engine itself, and a map that only points into the pool. */
    ghost predicate Valid()
      reads this, Repr
    {
      this !in Repr && PoolValid() && forall n :: n in voiceMap ==> voiceMap[n] in voices
    }

    /** The note each voice of the pool sounds, in pool order. */
    ghost function CurNotes(): (notes: seq<Byte>)
      reads set k | 0 <= k < |voices| :: voices[k]
      ensures |notes| == |voices|
      ensures forall k :: 0 <= k < |voices| ==> notes[k] == voices[k].CurNote()
    {
      seq(|voices|, k requires 0 <= k < |voices| reads set i | 0 <= i < |voices| :: voices[i] => voices[k].CurNote())
    }

    /** The state of every voice of the pool, in pool order. */
    ghost function States(): (states: seq<VoiceState>)
      requires PoolValid()
      reads this, Repr
      ensures |states| == |voices|
      ensures forall k :: 0 <= k < |voices| ==> states[k] == voices[k].State()
    {
      seq(|voices|, k requires 0 <= k < |voices| reads Repr => voices[k].State())
    }

    /** NewEngine: eight fresh idle voices and an empty note map. */
    constructor()
      ensures Valid() && fresh(Repr)
      ensures |voices| == NUM_VOICES && voiceMap == map[]
      ensures forall k :: 0 <= k < NUM_VOICES ==> voices[k].notesOn == []
    {
      var vs: seq<Voice> := [];
      ghost var repr: set<object> := {};
      for i := 0 to NUM_VOICES
        invariant |vs| == i && fresh(repr)
        invariant forall k :: 0 <= k < i ==> vs[k].Repr() <= repr && vs[k].Valid() && vs[k].notesOn == []
        invariant forall k, l :: 0 <= k < l < i ==> vs[k].Repr() !! vs[l].Repr()
      {
        var v := new Voice(i);
        vs := vs + [v];
        repr := repr + v.Repr();
      }
      voices := vs;
      voiceMap := map[];
      Repr := repr;
      new;
      assert this !in Repr;
    }

    /**
      Voice allocation: the first idle voice in pool order; otherwise the
      nearest busy voice, the earliest on ties; null when every voice is at
      least 127 semitones away.
     */
    method GetVoice(note: Byte) returns (v: Voice?, ghost j: int)
      ensures v == null <==> j < 0
      ensures v == null ==> NoChoice(CurNotes(), note)
      ensures v != null ==> 0 <= j < |voices| && v == voices[j] && IsChoice(CurNotes(), note, j)
    {
      ghost var notes := CurNotes();
      var best := 127;
      v, j := null, -1;
      for i := 0 to |voices|
        invariant AllBusy(notes, i)
        invariant v == null ==> j < 0 && best == 127 && forall k :: 0 <= k < i ==> Dist(notes[k], note) >= 127
        invariant v != null ==> 0 <= j < i && v == voices[j] && best == Dist(notes[j], note) < 127
        invariant v != null ==> forall k :: 0 <= k < j ==> Dist(notes[k], note) > best
        invariant v != null ==> forall k :: j < k < i ==> Dist(notes[k], note) >= best
      {
        var curNote := voices[i].CurNote();
        if curNote == 0 {
          return voices[i], i;
        }
        var dist := Dist(curNote, note);
        if dist < best {
          best := dist;
          v, j := voices[i], i;
        }
      }
    }

    /**
      One MIDI message: Note On and Note Off are handled, every other
      message type is ignored. `chosen` is the voice the message went to,
      negative when it went to none.
     */
    method HandleMidi(status: int, data1: int, data2: int, cfg: VoiceConfig, noteFreq: seq<Int32>)
      returns (ghost chosen: int)
      requires Valid() && |noteFreq| == NOTE_COUNT
      modifies this, Repr
      ensures Valid()
      ensures MessageKind(status) == NOTE_ON ==> NoteOnHandled(WrapByte(data1), noteFreq, chosen)
      ensures MessageKind(status) == NOTE_OFF ==> NoteOffHandled(WrapByte(data1), cfg, noteFreq, chosen)
      ensures MessageKind(status) != NOTE_ON && MessageKind(status) != NOTE_OFF ==>
        chosen < 0 && voiceMap == old(voiceMap) && States() == old(States())
    {
      StacksHeld();
      chosen := -1;
      var kind := MessageKind(status);
      if kind == NOTE_ON {
        chosen := HandleNoteOn(WrapByte(data1), WrapByte(data2), noteFreq);
      } else if kind == NOTE_OFF {
        chosen := HandleNoteOff(WrapByte(data1), cfg, noteFreq);
      } else {
        assert States() == old(States());
      }
    }

    /**
      What Note On does to the engine: with a voice chosen, the note is
      mapped to it (replacing any earlier mapping) and that voice alone
      takes the NoteOn step; with none, nothing changes.
     */
    twostate predicate NoteOnHandled(note: Byte, noteFreq: seq<Int32>, chosen: int)
      reads this, Repr
      requires old(PoolValid()) && PoolValid() && |noteFreq| == NOTE_COUNT
    {
      |States()| == |old(States())| == |voices|
      && if chosen < 0 then
        NoChoice(old(CurNotes()), note) && voiceMap == old(voiceMap) && States() == old(States())
      else
        chosen < |voices| && IsChoice(old(CurNotes()), note, chosen)
        && voiceMap == old(voiceMap)[note := voices[chosen]]
        && States() == old(States())[chosen := NoteOnStep(old(States())[chosen], note, noteFreq)]
    }

    /**
      What Note Off does to the engine: a mapped note is unmapped and its
      voice alone takes the NoteOff step; an unmapped note changes nothing.
     */
    twostate predicate NoteOffHandled(note: Byte, cfg: VoiceConfig, noteFreq: seq<Int32>, chosen: int)
      reads this, Repr
      requires old(PoolValid()) && PoolValid() && |noteFreq| == NOTE_COUNT
      requires forall k :: 0 <= k < |voices| ==> HeldNotes(old(States())[k].notes)
    {
      |States()| == |old(States())| == |voices|
      && if note in old(voiceMap) then
        0 <= chosen < |voices| && voices[chosen] == old(voiceMap)[note]
        && voiceMap == old(voiceMap) - {note}
        && States() == old(States())[chosen := NoteOffStep(old(States())[chosen], note, cfg, noteFreq)]
      else
        chosen < 0 && voiceMap == old(voiceMap) && States() == old(States())
    }

    /** Note On: pick a voice; if there is one, map the note to it and play the note on it. */
    method HandleNoteOn(note: Byte, velocity: Byte, noteFreq: seq<Int32>) returns (ghost chosen: int)
      requires Valid() && |noteFreq| == NOTE_COUNT
      modifies this, Repr
      ensures Valid() && NoteOnHandled(note, noteFreq, chosen)
    {
      ghost var before := States();
      var voice;
      voice, chosen := GetVoice(note);
      if voice != null {
        label Mapped:
        voiceMap := voiceMap[note := voice];
        PoolKept@Mapped();
        PlayOn(voice, chosen, note, velocity, noteFreq);
      }
    }

    /** Note Off: a mapped note is unmapped and released on its voice. */
    method HandleNoteOff(note: Byte, cfg: VoiceConfig, noteFreq: seq<Int32>) returns (ghost chosen: int)
      requires Valid() && |noteFreq| == NOTE_COUNT
      modifies this, Repr
      ensures Valid() && NoteOffHandled(note, cfg, noteFreq, chosen)
    {
      StacksHeld();
      ghost var before := States();
      chosen := -1;
      if note in voiceMap {
        var voice := voiceMap[note];
        chosen := IndexOf(voice);
        label Unmapped:
        voiceMap := voiceMap - {note};
        PoolKept@Unmapped();
        StopOn(voice, chosen, note, cfg, noteFreq);
      }
    }

    /** Every voice's note stack keeps its invariant. */
    lemma StacksHeld()
      requires PoolValid()
      ensures forall k :: 0 <= k < |voices| ==> HeldNotes(States()[k].notes)
    {
      forall k | 0 <= k < |voices|
        ensures HeldNotes(States()[k].notes)
      {
        assert voices[k].Valid();
      }
    }

    /** Where a voice of the pool sits in it. */
    ghost function IndexOf(v: Voice): (j: nat)
      requires v in voices
      ensures j < |voices| && voices[j] == v
    {
      var j :| 0 <= j < |voices| && voices[j] == v; j
    }

    /** Note On forwarded to voice j of the pool; the other voices keep their state. */
    method PlayOn(v: Voice, ghost j: nat, note: Byte, velocity: Byte, noteFreq: seq<Int32>)
      requires PoolValid() && j < |voices| && voices[j] == v && |noteFreq| == NOTE_COUNT
      modifies v.Repr()
      ensures PoolValid()
      ensures States() == old(States())[j := NoteOnStep(old(States())[j], note, noteFreq)]
    {
      v.NoteOn(note, velocity, noteFreq);
      OthersKept(j);
    }

    /** Note Off forwarded to voice j of the pool; the other voices keep their state. */
    method StopOn(v: Voice, ghost j: nat, note: Byte, cfg: VoiceConfig, noteFreq: seq<Int32>)
      requires PoolValid() && j < |voices| && voices[j] == v && |noteFreq| == NOTE_COUNT
      modifies v.Repr()
      ensures PoolValid()
      ensures States() == old(States())[j := NoteOffStep(old(States())[j], note, cfg, noteFreq)]
    {
      v.NoteOff(note, cfg, noteFreq);
      OthersKept(j);
    }

    /** A change outside the pool's objects leaves every voice as it was. */
    twostate lemma PoolKept()
      requires old(PoolValid()) && unchanged(Repr)
      ensures PoolValid() && States() == old(States())
    {
    }

    /** A change confined to voice j's objects leaves every other voice as it was. */
    twostate lemma OthersKept(j: nat)
      requires old(PoolValid()) && j < |voices| && voices[j].Valid()
      requires forall o :: o in Repr && o !in voices[j].Repr() ==> unchanged(o)
      ensures PoolValid()
      ensures States() == old(States())[j := voices[j].State()]
    {
      forall k | 0 <= k < |voices| && k != j
        ensures voices[k].State() == old(voices[k].State()) && voices[k].Valid()
      {
        var lo, hi := if k < j then k else j, if k < j then j else k;
        assert voices[lo].Repr() !! voices[hi].Repr();
      }
    }
  }
}
