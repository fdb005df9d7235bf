/** The type model of `src/type.c`: a tagged union of void, fixed-width
    primitive, named complex and unresolved placeholder types, with structural
    comparison and the "larger of two primitives" widening rule. */
module Types {

  import opened Wrappers
  import opened Tokens

  /** `PrimitiveType`, narrowest first. */
  datatype PrimitiveType = Byte | Word | Dword | Qword

  /** `Type`. A complex type's reference to its field declarations is not
      consulted by any operation modelled here and is left out. */
  datatype Type =
    | Void
    | Primitive(width: PrimitiveType)
    | Complex(id: Token)
    | Placeholder(id: Token)

  /** The tag `type->type`. */
  datatype Tag = TYPE_VOID | TYPE_PRIMITIVE | TYPE_COMPLEX | TYPE_PLACEHOLDER

  function TagOf(t: Type): Tag
  {
    match t
    case Void => TYPE_VOID
    case Primitive(_) => TYPE_PRIMITIVE
    case Complex(_) => TYPE_COMPLEX
    case Placeholder(_) => TYPE_PLACEHOLDER
  }

  /** `PrimitiveType_String`. The `default` branch ("Unknown type") cannot be
      reached: every width has its own name. */
  function PrimitiveTypeString(p: PrimitiveType): (r: string)
    ensures r in {"byte", "word", "dword", "qword"}
    ensures r != "Unknown type"
  {
    match p
    case Byte => "byte"
    case Word => "word"
    case Dword => "dword"
    case Qword => "qword"
  }

  /** The four width names are pairwise distinct. */
  lemma PrimitiveTypeStringInjective(p: PrimitiveType, q: PrimitiveType)
    ensures PrimitiveTypeString(p) == PrimitiveTypeString(q) <==> p == q
  {
  }

  /** `Type_Identifier`; `None` is the NULL pointer. Every tag has a branch,
      so the end of the C function without a `return` is never reached. */
  function Identifier(t: Option<Type>): (r: string)
    ensures t.None? ==> r == "(none)"
    ensures t == Some(Void) ==> r == "void"
    ensures t.Some? && t.value.Primitive? ==> r == PrimitiveTypeString(t.value.width)
    ensures t.Some? && (t.value.Complex? || t.value.Placeholder?) ==> r == t.value.id.value
  {
    match t
    case None => "(none)"
    case Some(Void) => "void"
    case Some(Complex(id)) => id.value
    case Some(Primitive(p)) => PrimitiveTypeString(p)
    case Some(Placeholder(id)) => id.value
  }

  /** `Type_Compare` */
  function Compare(a: Type, b: Type): (r: bool)
    ensures TagOf(a) != TagOf(b) ==> !r
  {
    if TagOf(a) != TagOf(b) then false
    else match a
      case Primitive(p) => p == b.width
      case Complex(id) => id.value == b.id.value
      case Placeholder(id) => id.value == b.id.value
      case Void => true
  }

  /** Two types compare equal exactly when they carry the same tag and print
      the same identifier. */
  lemma CompareIsSameIdentifier(a: Type, b: Type)
    ensures Compare(a, b) <==> TagOf(a) == TagOf(b) && Identifier(Some(a)) == Identifier(Some(b))
  {
    if a.Primitive? && b.Primitive? {
      PrimitiveTypeStringInjective(a.width, b.width);
    }
  }

  /** `Type_Compare` is an equivalence relation. */
  lemma CompareEquivalence(a: Type, b: Type, c: Type)
    ensures Compare(a, a)
    ensures Compare(a, b) <==> Compare(b, a)
    ensures Compare(a, b) && Compare(b, c) ==> Compare(a, c)
  {
  }

  /** `Type_Quantify`: the bit width, or -1 when the type is not primitive. */
  function Quantify(t: Type): (r: int)
    ensures r == -1 || r == 8 || r == 16 || r == 32 || r == 64
    ensures r > 0 <==> t.Primitive?
  {
    if !t.Primitive? then -1
    else match t.width
      case Byte => 8
      case Word => 16
      case Dword => 32
      case Qword => 64
  }

  /** The position of a width on the ladder, narrowest first. */
  function Rank(p: PrimitiveType): nat
  {
    match p
    case Byte => 0
    case Word => 1
    case Dword => 2
    case Qword => 3
  }

  function Pow2(n: nat): nat
  {
    if n == 0 then 1 else 2 * Pow2(n - 1)
  }

  /** Each step up the ladder doubles the width: width = 2^(3 + rank). */
  lemma QuantifyLadder(p: PrimitiveType, q: PrimitiveType)
    ensures Quantify(Primitive(p)) == Pow2(3 + Rank(p))
    ensures Quantify(Primitive(p)) < Quantify(Primitive(q)) <==> Rank(p) < Rank(q)
    ensures Quantify(Primitive(p)) == Quantify(Primitive(q)) <==> p == q
  {
    assert Pow2(3) == 8 && Pow2(4) == 16 && Pow2(5) == 32 && Pow2(6) == 64;
  }

  function Max(x: int, y: int): int
  {
    if x >= y then x else y
  }

  /** `Type_Larger`: NULL unless both are primitive; otherwise the wider,
      and `b` when the widths tie. */
  function Larger(a: Type, b: Type): (r: Option<Type>)
    ensures r.Some? <==> a.Primitive? && b.Primitive?
    ensures r.Some? ==> r.value == a || r.value == b
    ensures r.Some? ==> Quantify(r.value) == Max(Quantify(a), Quantify(b))
    ensures r.Some? && Quantify(a) == Quantify(b) ==> r.value == b
    ensures r.Some? && Quantify(a) > Quantify(b) ==> r.value == a
  {
    var tA := Quantify(a);
    var tB := Quantify(b);
    if tA < 0 || tB < 0 then None
    else Some(if tA > tB then a else b)
  }

  /** Widening is commutative up to `Type_Compare`, and idempotent. */
  lemma LargerCommutesAndIdempotent(a: Type, b: Type)
    requires a.Primitive? && b.Primitive?
    ensures Compare(Larger(a, b).value, Larger(b, a).value)
    ensures Larger(a, a) == Some(a)
  {
    QuantifyLadder(a.width, b.width);
  }
}
