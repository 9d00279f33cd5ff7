/** The Python values the catalog inspects dynamically: the 0/1 flags of the
    active-symbols payload, keyword-argument values, the arguments of
    check_duration and the fields of a contract-details dict. Floats, lists and
    dicts are not among them. */
module Values {
  import opened Strings

  datatype Value = Nil | Bool(b: bool) | Int(i: int) | Str(s: string)

  /** Python truthiness: None, False, 0 and "" are false. */
  predicate Truthy(v: Value)
  {
    match v
    case Nil => false
    case Bool(b) => b
    case Int(i) => i != 0
    case Str(s) => s != ""
  }

  /** The integer a bool or an int stands for in arithmetic and `==`. */
  function NumberOf(v: Value): int
    requires v.Bool? || v.Int?
  {
    if v.Bool? then (if v.b then 1 else 0) else v.i
  }

  /** Python `==`: bools compare as the numbers 0 and 1. */
  predicate Eq(a: Value, b: Value)
  {
    if (a.Bool? || a.Int?) && (b.Bool? || b.Int?) then NumberOf(a) == NumberOf(b)
    else a == b
  }

  function BoolRepr(b: bool): string { if b then "True" else "False" }

  /** `str(v)`, which is also what an f-string shows. */
  function Repr(v: Value): string
  {
    match v
    case Nil => "None"
    case Bool(b) => BoolRepr(b)
    case Int(i) => IntToString(i)
    case Str(s) => s
  }

  lemma EqIsEquivalence(a: Value, b: Value, c: Value)
    ensures Eq(a, a)
    ensures Eq(a, b) <==> Eq(b, a)
    ensures Eq(a, b) && Eq(b, c) ==> Eq(a, c)
  {
  }
}
