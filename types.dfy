/** Tags, display names and payload values of the generic `Any` variant. */
module AnyTypes {

  /** `WHOLE_NUMBER_TYPE` is `long long int`: a 64-bit signed integer. */
  newtype int64 = x: int | -0x8000_0000_0000_0000 <= x < 0x8000_0000_0000_0000

  /** The `unsigned` length taken by the explicit-length text constructor. */
  newtype uint32 = x: int | 0 <= x < 0x1_0000_0000

  /** The five tags of `Any::Type`. The enumerator `COUNT` is only the size of
      the name table and is never a tag, so it has no constructor here. */
  datatype Type = WholeNumber | DecimalNumber | TextString | ArrayGroup | InvalidUnset

  /** The value of the sentinel `Type::COUNT`. */
  const Count: nat := 5

  /** The position of a tag in the enumeration, used to index `TypeNames`. */
  function Ordinal(t: Type): (i: nat)
    ensures i < Count
    ensures t == InvalidUnset <==> i == Count - 1
  {
    match t
    case WholeNumber => 0
    case DecimalNumber => 1
    case TextString => 2
    case ArrayGroup => 3
    case InvalidUnset => 4
  }

  /** `Any::TypeNames`, indexed by `Ordinal`. */
  const TypeNames: seq<string> := ["Integer", "Double", "String", "Group", "Invalid"]

  /** The display name cached in `mInternalTypeName` for a tag. */
  function TypeName(t: Type): (name: string)
  {
    TypeNames[Ordinal(t)]
  }

  /** Distinct tags sit at distinct positions of the name table. */
  lemma OrdinalInjective(a: Type, b: Type)
    ensures Ordinal(a) == Ordinal(b) <==> a == b
  {
    match a
    case WholeNumber =>
    case DecimalNumber =>
    case TextString =>
    case ArrayGroup =>
    case InvalidUnset =>
  }

  /** Every tag has its own display name, so the cached name determines the tag. */
  lemma TypeNameInjective(a: Type, b: Type)
    ensures TypeName(a) == TypeName(b) <==> a == b
  {
    OrdinalInjective(a, b);
    if a != b {
      var i, j := Ordinal(a), Ordinal(b);
      assert TypeNames[i][2] != TypeNames[j][2];
    }
  }

  /** The observable content of an `Any`: the live member of its union, selected
      by its tag. A group holds its elements by value, so a `Value` is always a
      deep copy. `long double` is modelled as `real`. */
  datatype Value =
    | Whole(n: int64)
    | Decimal(d: real)
    | Text(s: string)
    | Group(elems: seq<Value>)
    | Unset

  /** The tag that selects a payload. */
  function TagOf(v: Value): (t: Type)
  {
    match v
    case Whole(_) => WholeNumber
    case Decimal(_) => DecimalNumber
    case Text(_) => TextString
    case Group(_) => ArrayGroup
    case Unset => InvalidUnset
  }

  /** The payload `_init` constructs for a freshly chosen tag. */
  function DefaultOf(t: Type): (v: Value)
    ensures TagOf(v) == t
    ensures t == ArrayGroup ==> v.elems == []
    ensures t == TextString ==> v.s == ""
  {
    match t
    case WholeNumber => Whole(0)
    case DecimalNumber => Decimal(0.0)
    case TextString => Text("")
    case ArrayGroup => Group([])
    case InvalidUnset => Unset
  }

  /** A default payload is the only payload of its tag that is "empty": zero,
      empty text, an empty group, or no value at all. */
  lemma DefaultIsEmpty(v: Value)
    ensures v == DefaultOf(TagOf(v)) <==>
              (v.Whole? ==> v.n == 0) && (v.Decimal? ==> v.d == 0.0) &&
              (v.Text? ==> v.s == "") && (v.Group? ==> v.elems == [])
  {
    match v
    case Whole(_) =>
    case Decimal(_) =>
    case Text(_) =>
    case Group(_) =>
    case Unset =>
  }
}
