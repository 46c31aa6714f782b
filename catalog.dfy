/**
 * The native-gate catalog of the trapped-ion (IonQ-style) coprocessor: six
 * instruction kinds, each with a fixed opcode id, a mnemonic for the textual
 * assembly form, and the operand shape it is built on.
 */
module Catalog {
  import opened Wrappers

  /** The live instruction classes of the catalog. */
  datatype Kind = InitAll | MeasAll | RotX | RotY | RotZ | Ms

  /** The operand shapes the catalog entries are bound to. */
  datatype Shape =
    | NoOperand       // no operand at all
    | RegAddr         // one register and one address
    | RegImmImm       // one register and two immediates
    | RegRegImmImm    // two registers and two immediates

  /** The catalog in declaration order. */
  const Kinds: seq<Kind> := [InitAll, MeasAll, RotX, RotY, RotZ, Ms]

  predicate IsRotation(k: Kind) {
    k == RotX || k == RotY || k == RotZ
  }

  /** The opcode id; the catalog occupies the reserved range 42..47. */
  function Id(k: Kind): (id: nat)
    ensures 42 <= id <= 47
  {
    match k
    case InitAll => 42
    case MeasAll => 43
    case RotX => 44
    case RotY => 45
    case RotZ => 46
    case Ms => 47
  }

  /** The mnemonic used in the textual assembly form. */
  function Mnemonic(k: Kind): string {
    match k
    case InitAll => "init_all"
    case MeasAll => "meas_all"
    case RotX => "rot_x"
    case RotY => "rot_y"
    case RotZ => "rot_z"
    case Ms => "ms"
  }

  /** The operand shape each kind is built on. */
  function ShapeOf(k: Kind): (s: Shape)
    ensures s == RegImmImm <==> IsRotation(k)
  {
    match k
    case InitAll => NoOperand
    case MeasAll => RegAddr
    case RotX => RegImmImm
    case RotY => RegImmImm
    case RotZ => RegImmImm
    case Ms => RegRegImmImm
  }

  /** Number of register slots of a shape. */
  function Registers(s: Shape): nat {
    match s
    case NoOperand => 0
    case RegAddr => 1
    case RegImmImm => 1
    case RegRegImmImm => 2
  }

  /** Number of immediate slots of a shape. */
  function Immediates(s: Shape): nat {
    match s
    case NoOperand => 0
    case RegAddr => 0
    case RegImmImm => 2
    case RegRegImmImm => 2
  }

  /** Number of address slots of a shape. */
  function Addresses(s: Shape): nat {
    if s == RegAddr then 1 else 0
  }

  /** The catalog read backwards: which kind, if any, owns an opcode id. */
  function KindOfId(id: int): (r: Option<Kind>)
    ensures r.Some? ==> Id(r.value) == id
    ensures r.None? <==> id < 42 || 47 < id
  {
    if id == 42 then Some(InitAll)
    else if id == 43 then Some(MeasAll)
    else if id == 44 then Some(RotX)
    else if id == 45 then Some(RotY)
    else if id == 46 then Some(RotZ)
    else if id == 47 then Some(Ms)
    else None
  }

  /** Looking up a kind's own id finds that kind again. */
  lemma KindOfIdRoundTrip(k: Kind)
    ensures KindOfId(Id(k)) == Some(k)
  {
  }

  /** No two kinds share an opcode id. */
  lemma IdsDistinct(a: Kind, b: Kind)
    ensures Id(a) == Id(b) <==> a == b
  {
  }

  /** No two kinds share a mnemonic. */
  lemma MnemonicsDistinct(a: Kind, b: Kind)
    ensures Mnemonic(a) == Mnemonic(b) <==> a == b
  {
  }

  /** The listing in Kinds holds every kind exactly once, in id order. */
  lemma KindsInIdOrder()
    ensures |Kinds| == 6
    ensures forall i :: 0 <= i < |Kinds| ==> Id(Kinds[i]) == 42 + i
    ensures forall k :: k in Kinds
  {
    forall k: Kind ensures k in Kinds {
      assert Kinds[Id(k) - 42] == k;
    }
  }

  /** The slots each shape provides: arity of every catalog entry. */
  lemma ShapeArity(k: Kind)
    ensures Registers(ShapeOf(k)) + Immediates(ShapeOf(k)) + Addresses(ShapeOf(k))
            == (match k
                case InitAll => 0
                case MeasAll => 2
                case Ms => 4
                case _ => 3)
    ensures k == Ms <==> Registers(ShapeOf(k)) == 2
    ensures Immediates(ShapeOf(k)) == 2 <==> IsRotation(k) || k == Ms
    ensures Addresses(ShapeOf(k)) == 1 <==> k == MeasAll
  {
  }
}
