/**
  The older parameter code of the audio package: the decoders that name a
  parameter id, and a patch holding bool, uint16 and fp32 parameters by id
  with no CC bindings and no change notification.
 */
module AudioParams {
  import opened MachineInts
  import opened ParamIds

  /** opr: the operator named by the group bits. */
  function OprName(p: ParamId): string
  {
    var g := p & 0x03;
    if g == GRP_A then "A"
    else if g == GRP_B1 then "B1"
    else if g == GRP_B2 then "B2"
    else if g == GRP_C then "C"
    else "undef"
  }

  /** oprParam: the operator parameter named by the subtype and type bits. */
  function OprParamName(p: ParamId): string
  {
    var s := p & 0xFC;
    if s == OPR_RATIO then "RATIO"
    else if s == OPR_FEEDBACK then "FEEDBACK"
    else "undef"
  }

  /** env: the envelope named by the group bits; group 2 names none. */
  function EnvName(p: ParamId): string
  {
    var g := p & 0x03;
    if g == GRP_A then "A"
    else if g == GRP_B then "B"
    else if g == GRP_VCA then "VCA"
    else "undef"
  }

  /** envParam: the envelope parameter named by the subtype and type bits (the names keep their ENV_ prefix). */
  function EnvParamName(p: ParamId): string
  {
    var s := p & 0xFC;
    if s == ENV_ATTACK then "ENV_ATTACK"
    else if s == ENV_DECAY then "ENV_DECAY"
    else if s == ENV_SUSTAIN then "ENV_SUSTAIN"
    else if s == ENV_RELEASE then "ENV_RELEASE"
    else if s == ENV_ENDLEVEL then "ENV_ENDLEVEL"
    else if s == ENV_INDEX then "ENV_INDEX"
    else if s == ENV_GATED then "ENV_GATED"
    else if s == ENV_RETRIGGER then "ENV_RETRIGGER"
    else "undef"
  }

  /** patchParam: the patch-level parameter named by the subtype and type bits. */
  function PatchParamName(p: ParamId): string
  {
    var s := p & 0xFC;
    if s == PATCH_ALGORITHM then "ALGORITHM"
    else if s == PATCH_MIX then "MIX"
    else if s == PATCH_FEEDBACK then "FEEDBACK"
    else "undef"
  }

  /** AsString: the readable name of an id, chosen by its type bits. */
  function AsString(p: ParamId): string
  {
    var typ := p & 0x0C;
    if typ == PATCH_TYPE then "PATCH_" + PatchParamName(p)
    else if typ == OPR_TYPE then "OPR_" + OprName(p) + "-" + OprParamName(p)
    else if typ == ENV_TYPE then "ENV_" + EnvName(p) + "-" + EnvParamName(p)
    else "undef"
  }

  /**
    The operator and envelope decoders read only the group bits: groups 0,
    1, 3 and 2 are the operators A, B1, B2 and C, and groups 0, 1 and 3 the
    envelopes A, B and VCA, while group 2 is no envelope.
   */
  lemma GroupNames(p: ParamId)
    ensures p & 0x03 == 0 ==> OprName(p) == "A" && EnvName(p) == "A"
    ensures p & 0x03 == 1 ==> OprName(p) == "B1" && EnvName(p) == "B"
    ensures p & 0x03 == 2 ==> OprName(p) == "C" && EnvName(p) == "undef"
    ensures p & 0x03 == 3 ==> OprName(p) == "B2" && EnvName(p) == "VCA"
  {
  }

  /**
    The subtype decoders mask with 0xFC, which keeps the type bits the
    constants already carry, so any group added to a subtype constant still
    decodes to that constant's name.
   */
  lemma SubtypeNames(g: ParamId)
    requires g < 4
    ensures PatchParamName(PATCH_ALGORITHM | g) == "ALGORITHM"
    ensures PatchParamName(PATCH_FEEDBACK | g) == "FEEDBACK"
    ensures PatchParamName(PATCH_MIX | g) == "MIX"
    ensures OprParamName(OPR_RATIO | g) == "RATIO"
    ensures OprParamName(OPR_FEEDBACK | g) == "FEEDBACK"
    ensures EnvParamName(ENV_ATTACK | g) == "ENV_ATTACK"
    ensures EnvParamName(ENV_DECAY | g) == "ENV_DECAY"
    ensures EnvParamName(ENV_ENDLEVEL | g) == "ENV_ENDLEVEL"
    ensures EnvParamName(ENV_INDEX | g) == "ENV_INDEX"
    ensures EnvParamName(ENV_GATED | g) == "ENV_GATED"
    ensures EnvParamName(ENV_RETRIGGER | g) == "ENV_RETRIGGER"
    ensures EnvParamName(ENV_SUSTAIN | g) == "ENV_SUSTAIN"
    ensures EnvParamName(ENV_RELEASE | g) == "ENV_RELEASE"
  {
  }

  /**
    AsString picks its prefix from the type bits alone, and an id of the
    unused type 3 (bits 0xC) is named "undef".
   */
  lemma AsStringByType(p: ParamId)
    ensures p & 0x0C == PATCH_TYPE ==> AsString(p) == "PATCH_" + PatchParamName(p)
    ensures p & 0x0C == OPR_TYPE ==> AsString(p) == "OPR_" + OprName(p) + "-" + OprParamName(p)
    ensures p & 0x0C == ENV_TYPE ==> AsString(p) == "ENV_" + EnvName(p) + "-" + EnvParamName(p)
    ensures p & 0x0C == 0x0C ==> AsString(p) == "undef"
  {
  }

  /** Names of some composed ids, showing the group and subtype parts together. */
  lemma AsStringExamples()
    ensures AsString(PATCH_MIX) == "PATCH_MIX"
    ensures AsString(OPR_RATIO | GRP_B2) == "OPR_B2-RATIO"
    ensures AsString(ENV_DECAY | GRP_B) == "ENV_B-ENV_DECAY"
    ensures AsString(ENV_ATTACK | GRP_VCA) == "ENV_VCA-ENV_ATTACK"
    ensures AsString(ENV_ATTACK | GRP_C) == "ENV_undef-ENV_ATTACK"
    ensures AsString(0x0C) == "undef"
  {
    GroupNames(OPR_RATIO | GRP_B2);
    GroupNames(ENV_DECAY | GRP_B);
    GroupNames(ENV_ATTACK | GRP_VCA);
    GroupNames(ENV_ATTACK | GRP_C);
    SubtypeNames(GRP_B2);
    SubtypeNames(GRP_B);
    SubtypeNames(GRP_VCA);
    SubtypeNames(GRP_C);
  }

  /** One parameter of the audio patch: its id and its value. */
  datatype AudioParam = AudioParam(id: ParamId, val: ParamValue)

  /** What Fp32Param yields: the fp32 parameter, or a panic. */
  datatype Fp32Lookup = Found(param: AudioParam) | Panic

  /** The audio patch: its parameters, keyed by the numeric value of the id. */
  class AudioPatch {
    var params: map<Byte, AudioParam>

    /** Every parameter sits under its own id, and none is a byte parameter (there is no addByte). */
    ghost predicate Valid()
      reads this
    {
      forall k :: k in params ==> Key(params[k].id) == k && params[k].val.KindOf() != ByteKind
    }

    /** The empty map initialPatch starts from. */
    constructor Empty()
      ensures Valid() && params == map[]
    {
      params := map[];
    }

    /** addBool, addUint16, addFp32: store a new parameter under its id, replacing any earlier one. */
    method Add(id: ParamId, v: ParamValue)
      requires Valid() && v.KindOf() != ByteKind
      modifies this
      ensures Valid()
      ensures params == old(params)[Key(id) := AudioParam(id, v)]
    {
      params := params[Key(id) := AudioParam(id, v)];
    }

    /** Set: store a new value of the same kind in a parameter; nothing is notified. */
    method Set(id: ParamId, v: ParamValue)
      requires Valid() && Key(id) in params && v.KindOf() == params[Key(id)].val.KindOf()
      modifies this
      ensures Valid()
      ensures params == old(params)[Key(id) := AudioParam(id, v)]
    {
      params := params[Key(id) := AudioParam(id, v)];
    }

    /** The value of the parameter stored under an id, if any. */
    function Value(id: ParamId): (r: Option<ParamValue>)
      reads this
      ensures r.Some? <==> Key(id) in params
      ensures r.Some? ==> r.value == params[Key(id)].val
    {
      if Key(id) in params then Some(params[Key(id)].val) else None
    }

    /**
      BoolParam, Uint16Param: the parameter under an id when it is of the
      asked kind; nil when the id is missing or holds another kind.
     */
    function TypedParam(id: ParamId, kind: Kind): (r: Option<AudioParam>)
      reads this
      ensures r.Some? <==> Key(id) in params && params[Key(id)].val.KindOf() == kind
      ensures r.Some? ==> r.value == params[Key(id)]
    {
      if Key(id) in params && params[Key(id)].val.KindOf() == kind then Some(params[Key(id)]) else None
    }

    /** Fp32Param: the fp32 parameter under an id; a missing id or another kind panics instead of giving nil. */
    function Fp32Param(id: ParamId): (r: Fp32Lookup)
      reads this
      ensures r.Found? <==> Key(id) in params && params[Key(id)].val.Fp32Value?
      ensures r.Found? ==> r.param == params[Key(id)]
    {
      if Key(id) in params && params[Key(id)].val.Fp32Value? then Found(params[Key(id)]) else Panic
    }
  }

  /** The parameters initialPatch stores; fp32 0.0 and 1.0 are written as 0 and 0x10000. */
  function AudioInitialParams(): map<Byte, AudioParam>
  {
    map[
      Key(OPR_RATIO | GRP_A) := AudioParam(OPR_RATIO | GRP_A, Fp32Value(0x1_0000)),
      Key(OPR_RATIO | GRP_B1) := AudioParam(OPR_RATIO | GRP_B1, Fp32Value(0x1_0000)),
      Key(OPR_RATIO | GRP_B2) := AudioParam(OPR_RATIO | GRP_B2, Fp32Value(0x1_0000)),
      Key(OPR_RATIO | GRP_C) := AudioParam(OPR_RATIO | GRP_C, Fp32Value(0x1_0000)),
      Key(ENV_GATED | GRP_A) := AudioParam(ENV_GATED | GRP_A, BoolValue(true)),
      Key(ENV_RETRIGGER | GRP_A) := AudioParam(ENV_RETRIGGER | GRP_A, BoolValue(true)),
      Key(ENV_ATTACK | GRP_A) := AudioParam(ENV_ATTACK | GRP_A, Uint16Value(0)),
      Key(ENV_DECAY | GRP_A) := AudioParam(ENV_DECAY | GRP_A, Uint16Value(0)),
      Key(ENV_ENDLEVEL | GRP_A) := AudioParam(ENV_ENDLEVEL | GRP_A, Fp32Value(0)),
      Key(ENV_INDEX | GRP_A) := AudioParam(ENV_INDEX | GRP_A, Fp32Value(0x1_0000)),
      Key(ENV_GATED | GRP_B) := AudioParam(ENV_GATED | GRP_B, BoolValue(true)),
      Key(ENV_RETRIGGER | GRP_B) := AudioParam(ENV_RETRIGGER | GRP_B, BoolValue(true)),
      Key(ENV_ATTACK | GRP_B) := AudioParam(ENV_ATTACK | GRP_B, Uint16Value(0)),
      Key(ENV_DECAY | GRP_B) := AudioParam(ENV_DECAY | GRP_B, Uint16Value(0)),
      Key(ENV_ENDLEVEL | GRP_B) := AudioParam(ENV_ENDLEVEL | GRP_B, Fp32Value(0)),
      Key(ENV_INDEX | GRP_B) := AudioParam(ENV_INDEX | GRP_B, Fp32Value(0x1_0000)),
      Key(ENV_GATED | GRP_VCA) := AudioParam(ENV_GATED | GRP_VCA, BoolValue(true)),
      Key(ENV_RETRIGGER | GRP_VCA) := AudioParam(ENV_RETRIGGER | GRP_VCA, BoolValue(false)),
      Key(ENV_ATTACK | GRP_VCA) := AudioParam(ENV_ATTACK | GRP_VCA, Uint16Value(0)),
      Key(ENV_DECAY | GRP_VCA) := AudioParam(ENV_DECAY | GRP_VCA, Uint16Value(0)),
      Key(ENV_RELEASE | GRP_VCA) := AudioParam(ENV_RELEASE | GRP_VCA, Uint16Value(0)),
      Key(ENV_SUSTAIN | GRP_VCA) := AudioParam(ENV_SUSTAIN | GRP_VCA, Fp32Value(0x1_0000))
    ]
  }

  /** The ids initialPatch registers, in order. */
  function AudioInitialIds(): seq<ParamId>
  {
    [OPR_RATIO | GRP_A, OPR_RATIO | GRP_B1, OPR_RATIO | GRP_B2, OPR_RATIO | GRP_C,
     ENV_GATED | GRP_A, ENV_RETRIGGER | GRP_A, ENV_ATTACK | GRP_A, ENV_DECAY | GRP_A,
     ENV_ENDLEVEL | GRP_A, ENV_INDEX | GRP_A,
     ENV_GATED | GRP_B, ENV_RETRIGGER | GRP_B, ENV_ATTACK | GRP_B, ENV_DECAY | GRP_B,
     ENV_ENDLEVEL | GRP_B, ENV_INDEX | GRP_B,
     ENV_GATED | GRP_VCA, ENV_RETRIGGER | GRP_VCA, ENV_ATTACK | GRP_VCA, ENV_DECAY | GRP_VCA,
     ENV_RELEASE | GRP_VCA, ENV_SUSTAIN | GRP_VCA]
  }

  /** initialPatch registers 22 distinct ids, so no add replaces another. */
  lemma AudioInitialIdsDistinct()
    ensures |AudioInitialIds()| == 22
    ensures forall i, j :: 0 <= i < j < |AudioInitialIds()| ==> AudioInitialIds()[i] != AudioInitialIds()[j]
  {
  }

  /**
    Every registered id is stored under its own key, four of them operator
    ratios and the rest envelope parameters; no patch-level id is registered.
   */
  lemma AudioInitialIdsStored()
    ensures forall i :: 0 <= i < |AudioInitialIds()| ==> Key(AudioInitialIds()[i]) in AudioInitialParams()
    ensures forall k :: k in AudioInitialParams() ==> Key(AudioInitialParams()[k].id) == k
    ensures forall k :: k in AudioInitialParams() ==> AudioInitialParams()[k].id & 0x0C != PATCH_TYPE
    ensures Key(PATCH_ALGORITHM) !in AudioInitialParams()
    ensures Key(PATCH_FEEDBACK) !in AudioInitialParams()
    ensures Key(PATCH_MIX) !in AudioInitialParams()
  {
  }

  /** initialPatch: an empty patch with the 22 parameters added in order. */
  method InitialPatch() returns (p: AudioPatch)
    ensures fresh(p) && p.Valid() && p.params == AudioInitialParams()
  {
    p := new AudioPatch.Empty();
    p.Add(OPR_RATIO | GRP_A, Fp32Value(0x1_0000));
    p.Add(OPR_RATIO | GRP_B1, Fp32Value(0x1_0000));
    p.Add(OPR_RATIO | GRP_B2, Fp32Value(0x1_0000));
    p.Add(OPR_RATIO | GRP_C, Fp32Value(0x1_0000));

    p.Add(ENV_GATED | GRP_A, BoolValue(true));
    p.Add(ENV_RETRIGGER | GRP_A, BoolValue(true));
    p.Add(ENV_ATTACK | GRP_A, Uint16Value(0));
    p.Add(ENV_DECAY | GRP_A, Uint16Value(0));
    p.Add(ENV_ENDLEVEL | GRP_A, Fp32Value(0));
    p.Add(ENV_INDEX | GRP_A, Fp32Value(0x1_0000));

    p.Add(ENV_GATED | GRP_B, BoolValue(true));
    p.Add(ENV_RETRIGGER | GRP_B, BoolValue(true));
    p.Add(ENV_ATTACK | GRP_B, Uint16Value(0));
    p.Add(ENV_DECAY | GRP_B, Uint16Value(0));
    p.Add(ENV_ENDLEVEL | GRP_B, Fp32Value(0));
    p.Add(ENV_INDEX | GRP_B, Fp32Value(0x1_0000));

    p.Add(ENV_GATED | GRP_VCA, BoolValue(true));
    p.Add(ENV_RETRIGGER | GRP_VCA, BoolValue(false));
    p.Add(ENV_ATTACK | GRP_VCA, Uint16Value(0));
    p.Add(ENV_DECAY | GRP_VCA, Uint16Value(0));
    p.Add(ENV_RELEASE | GRP_VCA, Uint16Value(0));
    p.Add(ENV_SUSTAIN | GRP_VCA, Fp32Value(0x1_0000));
  }
}
