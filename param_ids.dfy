/**
  Parameter identifiers: one byte packing a 2-bit group (which operator or
  envelope instance), a 2-bit type (patch level, operator, envelope) and a
  4-bit subtype (attack, ratio, ...), as `subtype << 4 | type << 2 | group`.
  The same constants are declared in patch/param.go and audio/param.go.
  Also the value kinds a parameter can hold.
 */
module ParamIds {
  import opened MachineInts

  type ParamId = bv8

  const GRP_A: ParamId := 0x0
  const GRP_B: ParamId := 0x1
  const GRP_C: ParamId := 0x2
  const GRP_D: ParamId := 0x3
  const GRP_B1: ParamId := 0x1
  const GRP_B2: ParamId := 0x3
  const GRP_VCA: ParamId := 0x3

  const PATCH_TYPE: ParamId := 0x00
  const OPR_TYPE: ParamId := 0x04
  const ENV_TYPE: ParamId := 0x08

  const PATCH_ALGORITHM: ParamId := 0x00
  const PATCH_FEEDBACK: ParamId := 0x10
  const PATCH_MIX: ParamId := 0x20

  const OPR_RATIO: ParamId := 0x04
  const OPR_FEEDBACK: ParamId := 0x14

  const ENV_ATTACK: ParamId := 0x08
  const ENV_DECAY: ParamId := 0x18
  const ENV_ENDLEVEL: ParamId := 0x28
  const ENV_INDEX: ParamId := 0x38
  const ENV_GATED: ParamId := 0x48
  const ENV_RETRIGGER: ParamId := 0x58
  const ENV_SUSTAIN: ParamId := 0x68
  const ENV_RELEASE: ParamId := 0x78

  /** Packs the three fields into one identifier. */
  function Compose(subtype: bv8, kind: bv8, group: bv8): ParamId
    requires subtype < 16 && kind < 4 && group < 4
  {
    (subtype << 4) | (kind << 2) | group
  }

  function GroupOf(id: ParamId): bv8 { id & 0x03 }
  function TypeOf(id: ParamId): bv8 { (id & 0x0C) >> 2 }
  function SubtypeOf(id: ParamId): bv8 { (id & 0xF0) >> 4 }

  /** The masks 0x03, 0x0C and 0xF0 recover exactly the fields an id was composed from. */
  lemma ComposeDecodes(subtype: bv8, kind: bv8, group: bv8)
    requires subtype < 16 && kind < 4 && group < 4
    ensures GroupOf(Compose(subtype, kind, group)) == group
    ensures TypeOf(Compose(subtype, kind, group)) == kind
    ensures SubtypeOf(Compose(subtype, kind, group)) == subtype
  {
  }

  /** Distinct (subtype, type, group) triples give distinct identifiers. */
  lemma ComposeInjective(s1: bv8, k1: bv8, g1: bv8, s2: bv8, k2: bv8, g2: bv8)
    requires s1 < 16 && k1 < 4 && g1 < 4 && s2 < 16 && k2 < 4 && g2 < 4
    requires (s1, k1, g1) != (s2, k2, g2)
    ensures Compose(s1, k1, g1) != Compose(s2, k2, g2)
  {
    ComposeDecodes(s1, k1, g1);
    ComposeDecodes(s2, k2, g2);
  }

  /** The group aliases: B1 is B, and B2, VCA and D share group 3. */
  lemma GroupAliases()
    ensures GRP_B1 == GRP_B == 1
    ensures GRP_B2 == GRP_VCA == GRP_D == 3
    ensures GRP_A == 0 && GRP_C == 2
  {
  }

  /** Every subtype constant already carries its type bits and has group A (zero). */
  lemma SubtypeConstantsCarryType()
    ensures PATCH_ALGORITHM == Compose(0, 0, 0) && PATCH_FEEDBACK == Compose(1, 0, 0) && PATCH_MIX == Compose(2, 0, 0)
    ensures OPR_RATIO == Compose(0, 1, 0) && OPR_FEEDBACK == Compose(1, 1, 0)
    ensures ENV_ATTACK == Compose(0, 2, 0) && ENV_DECAY == Compose(1, 2, 0)
    ensures ENV_ENDLEVEL == Compose(2, 2, 0) && ENV_INDEX == Compose(3, 2, 0)
    ensures ENV_GATED == Compose(4, 2, 0) && ENV_RETRIGGER == Compose(5, 2, 0)
    ensures ENV_SUSTAIN == Compose(6, 2, 0) && ENV_RELEASE == Compose(7, 2, 0)
  {
  }

  /** The numeric value of an id, under which a patch stores the parameter. */
  function Key(id: ParamId): Byte
  {
    id as int
  }

  /** Distinct ids are stored under distinct keys. */
  lemma KeyInjective(a: ParamId, b: ParamId)
    ensures Key(a) == Key(b) <==> a == b
  {
  }

  /** The kinds of value a parameter can hold. */
  datatype Kind = ByteKind | BoolKind | Uint16Kind | Fp32Kind

  /** A parameter value, tagged with its kind. */
  datatype ParamValue =
    | ByteValue(b: Byte)
    | BoolValue(flag: bool)
    | Uint16Value(u: Uint16)
    | Fp32Value(f: Int32)
  {
    function KindOf(): Kind {
      match this
      case ByteValue(_) => ByteKind
      case BoolValue(_) => BoolKind
      case Uint16Value(_) => Uint16Kind
      case Fp32Value(_) => Fp32Kind
    }
  }
}
