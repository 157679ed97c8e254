/**
  The parameter store of a patch (patch/param.go, patch/patch.go): every
  parameter has an id, a current value, a label and a MIDI CC number; the
  patch keeps the parameters in a map by id and binds CC numbers to them in
  a second map. Setting a parameter notifies the patch, which queues the id
  on its `modified` channel; the channel is modelled as the sequence of ids
  sent on it. Parameters are values held in the patch's map, so a binding
  names the bound parameter by its id.
 */
module PatchStore {
  import opened MachineInts
  import opened ParamIds

  /** The CC numbers a parameter can be bound to; 128 and above mean "unbound". */
  const CC_UNBOUND: Byte := 255

  /**
    SetFromCC: the value a CC data byte sets, per parameter kind. A byte
    parameter takes it unchanged, a bool parameter is true from 64 up, a
    uint16 parameter takes `uint16(v) << 9` and an fp32 parameter takes
    `(v - 64) << 8`.
   */
  function FromCC(kind: Kind, v: Byte): (r: ParamValue)
    ensures r.KindOf() == kind
  {
    match kind
    case ByteKind => ByteValue(v)
    case BoolKind => BoolValue(v >= 64)
    case Uint16Kind => Uint16Value(WrapU16(v * 512))
    case Fp32Kind => Fp32Value((v - 64) * 256)
  }

  /** A byte parameter stores the CC value unchanged; a bool parameter is on exactly from 64. */
  lemma ByteAndBoolFromCC(v: Byte)
    ensures FromCC(ByteKind, v) == ByteValue(v)
    ensures FromCC(BoolKind, v).flag <==> v >= 64
  {
  }

  /**
    A uint16 parameter scales a 7-bit CC value by 512 without overflow; a
    value of 128 or more wraps, since the shift is done in 16 bits.
   */
  lemma Uint16FromCC(v: Byte)
    ensures v <= 127 ==> FromCC(Uint16Kind, v).u == v * 512 <= 65024
    ensures v >= 128 ==> FromCC(Uint16Kind, v).u == v * 512 - 0x1_0000
    ensures FromCC(Uint16Kind, 0).u == 0 && FromCC(Uint16Kind, 64).u == 32768
    ensures FromCC(Uint16Kind, 127).u == 65024
  {
  }

  /** An fp32 parameter centres the CC range on 64 with a step of 1/256 of full scale. */
  lemma Fp32FromCC(v: Byte)
    ensures FromCC(Fp32Kind, v).f == (v - 64) * 256
    ensures -16384 <= FromCC(Fp32Kind, v).f <= 48896
    ensures FromCC(Fp32Kind, 64).f == 0 && FromCC(Fp32Kind, 0).f == -16384
    ensures FromCC(Fp32Kind, 127).f == 16128
  {
  }

  /**
    byteRange(min, max)(b): the identity for (0, 127), a doubling for
    (0, 255), and otherwise `((b * (max + 1 - min)) >> 7) + min`, where the
    width `max + 1 - min` is byte arithmetic, the product and sum are
    16-bit, and the result is cut back to a byte.
   */
  function ByteRange(min: Byte, max: Byte, b: Byte): (r: Byte)
  {
    if min == 0 && max == 127 then b
    else if min == 0 && max == 255 then WrapByte(b * 2)
    else WrapByte((b * WrapByte(max + 1 - min)) / 128 + min)
  }

  /** The converters exercised for every CC value in patch/patch_test.go. */
  lemma ByteRangeScales(b: Byte)
    requires b <= 127
    ensures ByteRange(0, 127, b) == b
    ensures ByteRange(0, 63, b) == b / 2
    ensures ByteRange(0, 255, b) == 2 * b
    ensures ByteRange(0, 7, b) == b / 16
  {
    assert b * 64 / 128 == b / 2;
    assert b * 8 / 128 == b / 16;
  }

  /** The spot checks of patch/patch_test.go for the range 5 to 15. */
  lemma ByteRangeOddRange()
    ensures ByteRange(5, 15, 0) == 5 && ByteRange(5, 15, 60) == 10
    ensures ByteRange(5, 15, 90) == 12 && ByteRange(5, 15, 127) == 15
  {
  }

  /** Scaling a 7-bit value by w / 128 stays below w. */
  lemma ScaledBelowWidth(b: int, w: int)
    requires 0 <= b <= 127 && 1 <= w
    ensures 0 <= (b * w) / 128 < w
  {
    MulMonotone(b, w, 127);
    DivBelow(b * w, 128, w);
  }

  /** A 7-bit value is scaled into [min, max] for every non-empty range. */
  lemma ByteRangeBounded(min: Byte, max: Byte, b: Byte)
    requires b <= 127 && min <= max
    ensures min <= ByteRange(min, max, b) <= max
  {
    if !(min == 0 && max == 127) && !(min == 0 && max == 255) {
      var w := max + 1 - min;
      assert 1 <= w < 0x100 && WrapByte(w) == w;
      ScaledBelowWidth(b, w);
      var q := (b * w) / 128;
      assert ByteRange(min, max, b) == WrapByte(q + min) == q + min;
    }
  }

  /**
    uint16Range(min, max)(b): `uint16(b) << 9` for the full range
    (0, 65535), and otherwise `((b * (max + 1 - min)) >> 7) + min`, where
    the width is uint16 arithmetic, the product and sum are 32-bit, and the
    result is cut back to 16 bits.
   */
  function Uint16Range(min: Uint16, max: Uint16, b: Byte): (r: Uint16)
  {
    if min == 0 && max == 0xFFFF then WrapU16(b * 512)
    else WrapU16(WrapU32((b * WrapU16(max + 1 - min)) / 128 + min))
  }

  /** The full-range converter is the 9-bit shift, and the spot checks of patch/patch_test.go for 1000 to 2000. */
  lemma Uint16RangeValues(b: Byte)
    ensures b <= 127 ==> Uint16Range(0, 0xFFFF, b) == b * 512
    ensures Uint16Range(0, 0xFFFF, 0) == 0 && Uint16Range(0, 0xFFFF, 64) == 32768
    ensures Uint16Range(1000, 2000, 0) == 1000 && Uint16Range(1000, 2000, 60) == 1469
    ensures Uint16Range(1000, 2000, 90) == 1703 && Uint16Range(1000, 2000, 127) == 1993
  {
  }

  /** A 7-bit value is scaled into [min, max] for every non-empty range. */
  lemma Uint16RangeBounded(min: Uint16, max: Uint16, b: Byte)
    requires b <= 127 && min <= max
    ensures min <= Uint16Range(min, max, b) <= max
  {
    if !(min == 0 && max == 0xFFFF) {
      var w := max + 1 - min;
      assert 1 <= w < 0x1_0000 && WrapU16(w) == w;
      ScaledBelowWidth(b, w);
      var q := (b * w) / 128;
      assert Uint16Range(min, max, b) == WrapU16(WrapU32(q + min)) == q + min;
    }
  }

  /**
    One parameter: its id, its value (whose kind is fixed when it is made),
    its label and the CC number it was added with.
   */
  datatype Param = Param(id: ParamId, val: ParamValue, name: string, cc: Byte)

  /**
    A patch: its parameters by id, the CC bindings (CC number to the id of
    the bound parameter), and the ids sent on its `modified` channel.
   */
  class Patch {
    /** Keyed by the numeric value of the id. */
    var params: map<Byte, Param>
    var byCC: map<Byte, Byte>
    var modified: seq<ParamId>

    /** Every parameter sits under its own id, and every binding names a stored parameter. */
    ghost predicate Valid()
      reads this
    {
      (forall k :: k in params ==> Key(params[k].id) == k)
      && forall c :: c in byCC ==> byCC[c] in params
    }

    /** The empty patch InitialPatch starts from. */
    constructor Empty()
      ensures Valid() && params == map[] && byCC == map[] && modified == []
    {
      params, byCC, modified := map[], map[], [];
    }

    /** update: queue the id on the `modified` channel. */
    method Update(id: ParamId)
      modifies this
      ensures modified == old(modified) + [id]
      ensures params == old(params) && byCC == old(byCC)
    {
      modified := modified + [id];
    }

    /** Set: store the value of a stored parameter (of the same kind), then notify. */
    method Set(id: ParamId, v: ParamValue)
      requires Valid() && Key(id) in params && v.KindOf() == params[Key(id)].val.KindOf()
      modifies this
      ensures Valid() && byCC == old(byCC)
      ensures params == old(params)[Key(id) := old(params)[Key(id)].(val := v)]
      ensures modified == old(modified) + [id]
    {
      params := params[Key(id) := params[Key(id)].(val := v)];
      Update(id);
    }

    /** SetFromCC: set a stored parameter to the value the CC data byte stands for. */
    method SetFromCC(id: ParamId, v: Byte)
      requires Valid() && Key(id) in params
      modifies this
      ensures Valid() && byCC == old(byCC)
      ensures params == old(params)[Key(id) := old(params)[Key(id)].(val := FromCC(old(params)[Key(id)].val.KindOf(), v))]
      ensures modified == old(modified) + [id]
    {
      Set(id, FromCC(params[Key(id)].val.KindOf(), v));
    }

    /**
      HandleCC: a CC number bound to a parameter sets it from the CC value
      (and so notifies); an unbound CC number changes nothing.
     */
    method HandleCC(num: Byte, v: Byte)
      requires Valid()
      modifies this
      ensures Valid() && byCC == old(byCC)
      ensures num !in byCC ==> params == old(params) && modified == old(modified)
      ensures num in byCC ==>
        var k := byCC[num];
        var prm := old(params)[k];
        params == old(params)[k := prm.(val := FromCC(prm.val.KindOf(), v))] && modified == old(modified) + [prm.id]
      ensures params.Keys == old(params).Keys
      ensures forall k :: k in params ==> params[k].id == old(params)[k].id && params[k].val.KindOf() == old(params)[k].val.KindOf()
    {
      if num in byCC {
        SetFromCC(params[byCC[num]].id, v);
      }
    }

    /**
      add*: store a new parameter under its id (replacing any earlier one)
      and bind it to its CC number when that number is below 128.
     */
    method Add(id: ParamId, v: ParamValue, name: string, ccNum: Byte)
      requires Valid()
      modifies this
      ensures Valid() && modified == old(modified)
      ensures params == old(params)[Key(id) := Param(id, v, name, ccNum)]
      ensures byCC == if ccNum < 128 then old(byCC)[ccNum := Key(id)] else old(byCC)
    {
      params := params[Key(id) := Param(id, v, name, ccNum)];
      if ccNum < 128 {
        byCC := byCC[ccNum := Key(id)];
      }
    }

    /** GetParam: the parameter stored under an id, if any. */
    function GetParam(id: ParamId): (r: Option<Param>)
      reads this
      ensures r.Some? <==> Key(id) in params
      ensures r.Some? ==> r.value == params[Key(id)]
    {
      if Key(id) in params then Some(params[Key(id)]) else None
    }

    /**
      ByteParam, BoolParam, Uint16Param, Fp32Param: the parameter stored
      under an id when it is of the asked kind, none (nil) when the id is
      missing or holds another kind.
     */
    function TypedParam(id: ParamId, kind: Kind): (r: Option<Param>)
      reads this
      ensures r.Some? <==> Key(id) in params && params[Key(id)].val.KindOf() == kind
      ensures r.Some? ==> r.value == params[Key(id)] && r.value.val.KindOf() == kind
    {
      if Key(id) in params && params[Key(id)].val.KindOf() == kind then Some(params[Key(id)]) else None
    }
  }

  /** The parameters InitialPatch stores, in the order it adds them. */
  function InitialParams(): map<Byte, Param>
  {
    map[
      Key(PATCH_ALGORITHM) := Param(PATCH_ALGORITHM, ByteValue(0), "ALG", 3),
      Key(PATCH_FEEDBACK) := Param(PATCH_FEEDBACK, Fp32Value(0), "FEEDBK", CC_UNBOUND),
      Key(PATCH_MIX) := Param(PATCH_MIX, Fp32Value(0x8000), "MIX", CC_UNBOUND),
      Key(OPR_RATIO | GRP_A) := Param(OPR_RATIO | GRP_A, Fp32Value(0x1_0000), "A", CC_UNBOUND),
      Key(OPR_RATIO | GRP_B1) := Param(OPR_RATIO | GRP_B1, Fp32Value(0x1_0000), "B1", CC_UNBOUND),
      Key(OPR_RATIO | GRP_B2) := Param(OPR_RATIO | GRP_B2, Fp32Value(0x1_0000), "B2", CC_UNBOUND),
      Key(OPR_RATIO | GRP_C) := Param(OPR_RATIO | GRP_C, Fp32Value(0x1_0000), "C", CC_UNBOUND),
      Key(ENV_GATED | GRP_A) := Param(ENV_GATED | GRP_A, BoolValue(true), "GATE", CC_UNBOUND),
      Key(ENV_RETRIGGER | GRP_A) := Param(ENV_RETRIGGER | GRP_A, BoolValue(true), "RETRIG", CC_UNBOUND),
      Key(ENV_ATTACK | GRP_A) := Param(ENV_ATTACK | GRP_A, Uint16Value(0), "ATTACK", CC_UNBOUND),
      Key(ENV_DECAY | GRP_A) := Param(ENV_DECAY | GRP_A, Uint16Value(0), "DECAY", CC_UNBOUND),
      Key(ENV_ENDLEVEL | GRP_A) := Param(ENV_ENDLEVEL | GRP_A, Fp32Value(0), "ENDLVL", CC_UNBOUND),
      Key(ENV_INDEX | GRP_A) := Param(ENV_INDEX | GRP_A, Fp32Value(0x1_0000), "INDEX", CC_UNBOUND),
      Key(ENV_GATED | GRP_B) := Param(ENV_GATED | GRP_B, BoolValue(true), "GATE", CC_UNBOUND),
      Key(ENV_RETRIGGER | GRP_B) := Param(ENV_RETRIGGER | GRP_B, BoolValue(true), "RETRIG", CC_UNBOUND),
      Key(ENV_ATTACK | GRP_B) := Param(ENV_ATTACK | GRP_B, Uint16Value(0), "ATTACK", CC_UNBOUND),
      Key(ENV_DECAY | GRP_B) := Param(ENV_DECAY | GRP_B, Uint16Value(0), "DECAY", CC_UNBOUND),
      Key(ENV_ENDLEVEL | GRP_B) := Param(ENV_ENDLEVEL | GRP_B, Fp32Value(0), "ENDLVL", CC_UNBOUND),
      Key(ENV_INDEX | GRP_B) := Param(ENV_INDEX | GRP_B, Fp32Value(0x1_0000), "INDEX", CC_UNBOUND),
      Key(ENV_GATED | GRP_VCA) := Param(ENV_GATED | GRP_VCA, BoolValue(true), "GATE", CC_UNBOUND),
      Key(ENV_RETRIGGER | GRP_VCA) := Param(ENV_RETRIGGER | GRP_VCA, BoolValue(false), "RETRIG", CC_UNBOUND),
      Key(ENV_ATTACK | GRP_VCA) := Param(ENV_ATTACK | GRP_VCA, Uint16Value(0), "ATTACK", 0x14),
      Key(ENV_DECAY | GRP_VCA) := Param(ENV_DECAY | GRP_VCA, Uint16Value(0), "DECAY", 0x15),
      Key(ENV_SUSTAIN | GRP_VCA) := Param(ENV_SUSTAIN | GRP_VCA, Fp32Value(0x1_0000), "SUSTN", 0x16),
      Key(ENV_RELEASE | GRP_VCA) := Param(ENV_RELEASE | GRP_VCA, Uint16Value(0), "RELEASE", 0x17)
    ]
  }

  /** The CC bindings InitialPatch makes: the algorithm on CC 3, the VCA envelope on CC 0x14 to 0x17. */
  function InitialBindings(): map<Byte, Byte>
  {
    map[3 := Key(PATCH_ALGORITHM),
        0x14 := Key(ENV_ATTACK | GRP_VCA), 0x15 := Key(ENV_DECAY | GRP_VCA),
        0x16 := Key(ENV_SUSTAIN | GRP_VCA), 0x17 := Key(ENV_RELEASE | GRP_VCA)]
  }

  /** The ids InitialPatch registers, in order. */
  function InitialIds(): seq<ParamId>
  {
    [PATCH_ALGORITHM, PATCH_FEEDBACK, PATCH_MIX,
     OPR_RATIO | GRP_A, OPR_RATIO | GRP_B1, OPR_RATIO | GRP_B2, OPR_RATIO | GRP_C,
     ENV_GATED | GRP_A, ENV_RETRIGGER | GRP_A, ENV_ATTACK | GRP_A, ENV_DECAY | GRP_A,
     ENV_ENDLEVEL | GRP_A, ENV_INDEX | GRP_A,
     ENV_GATED | GRP_B, ENV_RETRIGGER | GRP_B, ENV_ATTACK | GRP_B, ENV_DECAY | GRP_B,
     ENV_ENDLEVEL | GRP_B, ENV_INDEX | GRP_B,
     ENV_GATED | GRP_VCA, ENV_RETRIGGER | GRP_VCA, ENV_ATTACK | GRP_VCA, ENV_DECAY | GRP_VCA,
     ENV_SUSTAIN | GRP_VCA, ENV_RELEASE | GRP_VCA]
  }

  /** InitialPatch registers 25 distinct ids, so no add replaces another. */
  lemma InitialIdsDistinct()
    ensures |InitialIds()| == 25
    ensures forall i, j :: 0 <= i < j < |InitialIds()| ==> InitialIds()[i] != InitialIds()[j]
  {
  }

  /** Each registered id is stored under its own key: the 25 adds fill 25 distinct slots. */
  lemma InitialIdsStored()
    ensures forall i :: 0 <= i < |InitialIds()| ==> Key(InitialIds()[i]) in InitialParams()
    ensures forall k :: k in InitialParams() ==> Key(InitialParams()[k].id) == k
  {
  }

  /**
    InitialPatch binds exactly five CC numbers, each to the parameter that
    was added with that number: the algorithm to a byte parameter and the
    VCA attack, decay, sustain and release to uint16, uint16, fp32 and
    uint16 parameters.
   */
  lemma InitialBindingsShape()
    ensures InitialBindings().Keys == {3, 0x14, 0x15, 0x16, 0x17}
    ensures forall c :: c in InitialBindings() ==>
      InitialBindings()[c] in InitialParams() && InitialParams()[InitialBindings()[c]].cc == c
    ensures InitialParams()[InitialBindings()[3]].val.KindOf() == ByteKind
    ensures InitialParams()[InitialBindings()[0x14]].val.KindOf() == Uint16Kind
    ensures InitialParams()[InitialBindings()[0x15]].val.KindOf() == Uint16Kind
    ensures InitialParams()[InitialBindings()[0x16]].val.KindOf() == Fp32Kind
    ensures InitialParams()[InitialBindings()[0x17]].val.KindOf() == Uint16Kind
  {
  }

  /**
    InitialPatch: an empty patch with the 25 parameters added in order;
    the fp32 defaults 0.0, 0.5 and 1.0 are written as 0, 0x8000 and 0x10000.
   */
  method InitialPatch() returns (p: Patch)
    ensures fresh(p) && p.Valid() && p.modified == []
    ensures p.params == InitialParams() && p.byCC == InitialBindings()
  {
    p := new Patch.Empty();
    p.Add(PATCH_ALGORITHM, ByteValue(0), "ALG", 3);
    p.Add(PATCH_FEEDBACK, Fp32Value(0), "FEEDBK", CC_UNBOUND);
    p.Add(PATCH_MIX, Fp32Value(0x8000), "MIX", CC_UNBOUND);

    p.Add(OPR_RATIO | GRP_A, Fp32Value(0x1_0000), "A", CC_UNBOUND);
    p.Add(OPR_RATIO | GRP_B1, Fp32Value(0x1_0000), "B1", CC_UNBOUND);
    p.Add(OPR_RATIO | GRP_B2, Fp32Value(0x1_0000), "B2", CC_UNBOUND);
    p.Add(OPR_RATIO | GRP_C, Fp32Value(0x1_0000), "C", CC_UNBOUND);

    p.Add(ENV_GATED | GRP_A, BoolValue(true), "GATE", CC_UNBOUND);
    p.Add(ENV_RETRIGGER | GRP_A, BoolValue(true), "RETRIG", CC_UNBOUND);
    p.Add(ENV_ATTACK | GRP_A, Uint16Value(0), "ATTACK", CC_UNBOUND);
    p.Add(ENV_DECAY | GRP_A, Uint16Value(0), "DECAY", CC_UNBOUND);
    p.Add(ENV_ENDLEVEL | GRP_A, Fp32Value(0), "ENDLVL", CC_UNBOUND);
    p.Add(ENV_INDEX | GRP_A, Fp32Value(0x1_0000), "INDEX", CC_UNBOUND);

    p.Add(ENV_GATED | GRP_B, BoolValue(true), "GATE", CC_UNBOUND);
    p.Add(ENV_RETRIGGER | GRP_B, BoolValue(true), "RETRIG", CC_UNBOUND);
    p.Add(ENV_ATTACK | GRP_B, Uint16Value(0), "ATTACK", CC_UNBOUND);
    p.Add(ENV_DECAY | GRP_B, Uint16Value(0), "DECAY", CC_UNBOUND);
    p.Add(ENV_ENDLEVEL | GRP_B, Fp32Value(0), "ENDLVL", CC_UNBOUND);
    p.Add(ENV_INDEX | GRP_B, Fp32Value(0x1_0000), "INDEX", CC_UNBOUND);

    p.Add(ENV_GATED | GRP_VCA, BoolValue(true), "GATE", CC_UNBOUND);
    p.Add(ENV_RETRIGGER | GRP_VCA, BoolValue(false), "RETRIG", CC_UNBOUND);
    p.Add(ENV_ATTACK | GRP_VCA, Uint16Value(0), "ATTACK", 0x14);
    p.Add(ENV_DECAY | GRP_VCA, Uint16Value(0), "DECAY", 0x15);
    p.Add(ENV_SUSTAIN | GRP_VCA, Fp32Value(0x1_0000), "SUSTN", 0x16);
    p.Add(ENV_RELEASE | GRP_VCA, Uint16Value(0), "RELEASE", 0x17);
  }
}
