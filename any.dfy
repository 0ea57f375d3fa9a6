/** The `Any` variant, its nested `Array` container, the `Array::Iterator`
    cursor and the `Property` accessor proxy. They share one module because an
    `Any` owns its four `Property` members and each `Property` calls back into
    its owner. */
module AnyModel {
  import opened AnyTypes

  /** A tag that has a `_get*`/`_set*` pair, i.e. one a `Property` can bind to. */
  type AccessorType = t: Type | t != InvalidUnset witness WholeNumber

  /** `Any::Array`: an owned, growable sequence of variant values. Elements are
      held by value, which is what copying the `std::vector<Any>` achieves. */
  class Array {
    var elements: seq<Value>

    /** `Array()`: an empty group. */
    constructor ()
      ensures elements == []
    {
      elements := [];
    }

    /** `emplace_back`: append a copy of `x` and point at the new last slot. */
    method EmplaceBack(x: Value) returns (it: Iterator)
      modifies this
      ensures elements == old(elements) + [x]
      ensures fresh(it) && it.target == this && it.index == |elements| - 1
    {
      elements := elements + [x];
      it := new Iterator.At(this, |elements| - 1);
    }

    /** `pop_back`: copy out the last element, then drop it. Popping an empty
        array is undefined in the source, hence the precondition. */
    method PopBack() returns (back: Value)
      requires elements != []
      modifies this
      ensures back == old(elements)[|old(elements)| - 1]
      ensures elements == old(elements)[..|old(elements)| - 1]
      ensures old(elements) == elements + [back]
    {
      back := elements[|elements| - 1];
      elements := elements[..|elements| - 1];
    }

    /** `begin`: the null iterator when empty, else the first slot. */
    method Begin() returns (it: Iterator)
      ensures fresh(it)
      ensures elements == [] ==> it.target == null && it.index == 0
      ensures elements != [] ==> it.target == this && it.index == 0
    {
      if elements == [] {
        it := new Iterator();
      } else {
        it := new Iterator.At(this, 0);
      }
    }

    /** `end`: the null iterator when empty, else one past the last slot,
        obtained by incrementing an iterator to the last slot. */
    method End() returns (it: Iterator)
      ensures fresh(it)
      ensures elements == [] ==> it.target == null && it.index == 0
      ensures elements != [] ==> it.target == this && it.index == |elements|
    {
      if elements == [] {
        it := new Iterator();
      } else {
        it := new Iterator.At(this, |elements| - 1);
        it.Increment();
      }
    }
  }

  /** `Array::Iterator`: a pointer into an array's storage, modelled as the
      array it points into and a slot index; `target == null` is `nullptr`. */
  class Iterator {
    var target: Array?
    var index: nat

    /** `Iterator()`: the null iterator. */
    constructor ()
      ensures target == null && index == 0
    {
      target, index := null, 0;
    }

    /** `Iterator(Any*)`: point at slot `index` of `target`. */
    constructor At(target: Array, index: nat)
      ensures this.target == target && this.index == index
    {
      this.target, this.index := target, index;
    }

    /** The copy and move constructors: both copy the pointer. */
    constructor Copy(other: Iterator)
      ensures target == other.target && index == other.index
    {
      target, index := other.target, other.index;
    }

    /** The copy and move assignments: both copy the pointer. */
    method Assign(other: Iterator)
      modifies this
      ensures target == old(other.target) && index == old(other.index)
    {
      target, index := other.target, other.index;
    }

    /** `operator==`: two iterators are equal exactly when they are both
        null, or point at the same slot of the same array. The slot index of
        a null iterator plays no part, as `nullptr` has no offset. */
    method Equals(other: Iterator) returns (b: bool)
      ensures b <==> (target == null && other.target == null) ||
                     (target != null && target == other.target && index == other.index)
    {
      if target == null {
        b := other.target == null;
      } else {
        b := target == other.target && index == other.index;
      }
    }

    /** `operator!=`: the negation of `operator==`. */
    method NotEquals(other: Iterator) returns (b: bool)
      ensures b <==> !((target == null && other.target == null) ||
                       (target != null && target == other.target && index == other.index))
    {
      var same := Equals(other);
      b := !same;
    }

    /** `operator++`: advance to the next slot. Incrementing `nullptr` is
        undefined in the source, hence the precondition. */
    method Increment()
      requires target != null
      modifies this
      ensures target == old(target) && index == old(index) + 1
    {
      index := index + 1;
    }

    /** `operator*` and `operator->`: the element in the slot pointed at.
        Dereferencing past the end is undefined, hence the precondition. */
    method Deref() returns (v: Value)
      requires target != null && index < |target.elements|
      ensures v == target.elements[index]
    {
      v := target.elements[index];
    }
  }

  /** The range-for over an `Array` (as in the group printer): start at
      `begin`, dereference and increment until the iterator equals `end`. It
      visits the elements in insertion order and takes exactly `|elements|`
      increments. */
  method Traverse(a: Array) returns (visited: seq<Value>, steps: nat)
    ensures visited == a.elements
    ensures steps == |a.elements|
  {
    var it := a.Begin();
    var last := a.End();
    visited, steps := [], 0;
    var done := it.Equals(last);
    while !done
      modifies it
      invariant steps <= |a.elements|
      invariant visited == a.elements[..steps]
      invariant done <==> steps == |a.elements|
      invariant !done ==> it.target == a && it.index == steps
      invariant a.elements != [] ==> last.target == a && last.index == |a.elements|
      decreases |a.elements| - steps
    {
      var v := it.Deref();
      visited := visited + [v];
      it.Increment();
      steps := steps + 1;
      done := it.Equals(last);
    }
  }

  /** `Property<Any, MemberType>`: a proxy bound to one owner and to one of the
      owner's `_get*`/`_set*` pairs, named here by the tag it coerces to. */
  class Property {
    const owner: Any
    const kind: AccessorType

    /** The binding constructor: it stores the owner and the accessor pair. */
    constructor (owner: Any, kind: AccessorType)
      ensures this.owner == owner && this.kind == kind
    {
      this.owner, this.kind := owner, kind;
    }

    /** `operator const MemberType&`: call the bound getter, which retags the
        owner to `kind` first. */
    method Read() returns (v: Value)
      requires owner.Valid()
      modifies owner, owner.group
      ensures owner.Valid() && owner.CurrentType() == kind && owner.Contents() == v
      ensures old(owner.CurrentType()) == kind ==> v == old(owner.Contents()) && unchanged(owner, owner.group)
      ensures old(owner.CurrentType()) != kind ==> v == DefaultOf(kind)
    {
      if kind == WholeNumber {
        var n := owner.GetWholeNumber();
        v := Whole(n);
      } else if kind == DecimalNumber {
        var d := owner.GetDecimalNumber();
        v := Decimal(d);
      } else if kind == TextString {
        var s := owner.GetTextString();
        v := Text(s);
      } else {
        var g := owner.GetObjectGroup();
        v := Group(g.elements);
      }
    }

    /** `operator=`: call the bound setter with exactly `v`; nothing is returned.
        The value has the member type of the property, i.e. the tag `kind`. */
    method Assign(v: Value)
      requires owner.Valid() && TagOf(v) == kind
      modifies owner, owner.group
      ensures owner.Valid() && owner.CurrentType() == kind && owner.Contents() == v
    {
      match v
      case Whole(n) => owner.SetWholeNumber(n);
      case Decimal(d) => owner.SetDecimalNumber(d);
      case Text(s) => owner.SetTextString(s);
      case Group(elems) =>
        var g := new Array();
        g.elements := elems;
        owner.SetObjectGroup(g);
    }
  }

  /** `Any`: a tag, its cached display name, and the union `Data`, whose members
      are the fields `whole`, `decimal`, `text` and `group`; only the member the
      tag selects is live. */
  class Any {
    var internalType: Type
    var internalTypeName: string
    var whole: int64
    var decimal: real
    var text: string
    const group: Array
    var wholeNumber: Property?
    var decimalNumber: Property?
    var textString: Property?
    var arrayGroup: Property?

    /** The four `Property` members are bound to this object and to the
        matching accessor pairs. */
    predicate Bound()
      reads this
    {
      wholeNumber != null && wholeNumber.owner == this && wholeNumber.kind == WholeNumber &&
      decimalNumber != null && decimalNumber.owner == this && decimalNumber.kind == DecimalNumber &&
      textString != null && textString.owner == this && textString.kind == TextString &&
      arrayGroup != null && arrayGroup.owner == this && arrayGroup.kind == ArrayGroup
    }

    /** The object invariant: the cached name is the table entry of the tag,
        and the properties are bound. */
    predicate Valid()
      reads this
    {
      internalTypeName == TypeName(internalType) && Bound()
    }

    /** `mType`: a read-only view of `mInternalType`. */
    function CurrentType(): (t: Type)
      reads this
    {
      internalType
    }

    /** `mTypeName`: a read-only view of `mInternalTypeName`, which always
        names the current tag. */
    function CurrentTypeName(): (name: string)
      reads this
      requires Valid()
      ensures name == TypeNames[Ordinal(CurrentType())]
    {
      internalTypeName
    }

    /** The live member of the union, as a value. */
    function Contents(): (v: Value)
      reads this, group
      ensures TagOf(v) == internalType
    {
      match internalType
      case WholeNumber => Whole(whole)
      case DecimalNumber => Decimal(decimal)
      case TextString => Text(text)
      case ArrayGroup => Group(group.elements)
      case InvalidUnset => Unset
    }

    /** Bind the four properties; the tail of every constructor. */
    method Bind()
      modifies this`wholeNumber, this`decimalNumber, this`textString, this`arrayGroup
      ensures Bound()
    {
      wholeNumber := new Property(this, WholeNumber);
      decimalNumber := new Property(this, DecimalNumber);
      textString := new Property(this, TextString);
      arrayGroup := new Property(this, ArrayGroup);
    }

    /** `Any()`: tag `INVALID_UNSET`, name "Invalid". The union is left
        without a live member. */
    constructor ()
      ensures Valid() && fresh(group)
      ensures CurrentType() == InvalidUnset && CurrentTypeName() == "Invalid"
      ensures Contents() == Unset
    {
      internalType, internalTypeName := InvalidUnset, TypeName(InvalidUnset);
      whole, decimal, text := 0, 0.0, "";
      group := new Array();
      wholeNumber, decimalNumber, textString, arrayGroup := null, null, null, null;
      new;
      Bind();
    }

    /** `Any(Type)`: the given tag with its default payload. */
    constructor OfType(t: Type)
      ensures Valid() && fresh(group)
      ensures CurrentType() == t && Contents() == DefaultOf(t)
    {
      internalType, internalTypeName := InvalidUnset, TypeName(InvalidUnset);
      whole, decimal, text := 0, 0.0, "";
      group := new Array();
      wholeNumber, decimalNumber, textString, arrayGroup := null, null, null, null;
      new;
      Bind();
      SetType(t);
    }

    /** `Any(WHOLE_NUMBER_TYPE)`. */
    constructor OfWholeNumber(value: int64)
      ensures Valid() && fresh(group)
      ensures CurrentType() == WholeNumber && Contents() == Whole(value)
    {
      internalType, internalTypeName := InvalidUnset, TypeName(InvalidUnset);
      whole, decimal, text := 0, 0.0, "";
      group := new Array();
      wholeNumber, decimalNumber, textString, arrayGroup := null, null, null, null;
      new;
      Bind();
      SetType(WholeNumber);
      whole := value;
    }

    /** `Any(DECIMAL_NUMBER_TYPE)`. */
    constructor OfDecimalNumber(value: real)
      ensures Valid() && fresh(group)
      ensures CurrentType() == DecimalNumber && Contents() == Decimal(value)
    {
      internalType, internalTypeName := InvalidUnset, TypeName(InvalidUnset);
      whole, decimal, text := 0, 0.0, "";
      group := new Array();
      wholeNumber, decimalNumber, textString, arrayGroup := null, null, null, null;
      new;
      Bind();
      SetType(DecimalNumber);
      decimal := value;
    }

    /** `Any(TEXT_STRING_TYPE)`. */
    constructor OfTextString(value: string)
      ensures Valid() && fresh(group)
      ensures CurrentType() == TextString && Contents() == Text(value)
    {
      internalType, internalTypeName := InvalidUnset, TypeName(InvalidUnset);
      whole, decimal, text := 0, 0.0, "";
      group := new Array();
      wholeNumber, decimalNumber, textString, arrayGroup := null, null, null, null;
      new;
      Bind();
      SetType(TextString);
      text := value;
    }

    /** `Any(const char*, unsigned)`: the first `length` characters of the
        buffer, which must hold at least that many. */
    constructor OfChars(value: seq<char>, length: uint32)
      requires length as int <= |value|
      ensures Valid() && fresh(group)
      ensures CurrentType() == TextString && Contents() == Text(value[..length])
    {
      internalType, internalTypeName := InvalidUnset, TypeName(InvalidUnset);
      whole, decimal, text := 0, 0.0, "";
      group := new Array();
      wholeNumber, decimalNumber, textString, arrayGroup := null, null, null, null;
      new;
      Bind();
      SetType(TextString);
      text := value[..length];
    }

    /** `Any(Array)`: a group holding a copy of the given array's elements. */
    constructor OfArray(value: Array)
      ensures Valid() && fresh(group)
      ensures CurrentType() == ArrayGroup && Contents() == Group(value.elements)
    {
      internalType, internalTypeName := InvalidUnset, TypeName(InvalidUnset);
      whole, decimal, text := 0, 0.0, "";
      group := new Array();
      wholeNumber, decimalNumber, textString, arrayGroup := null, null, null, null;
      new;
      Bind();
      SetType(ArrayGroup);
      group.elements := value.elements;
    }

    /** The copy constructor: the source's tag and an equal payload; the
        source is only read. */
    constructor Copy(other: Any)
      ensures Valid() && fresh(group)
      ensures CurrentType() == other.CurrentType() && Contents() == other.Contents()
    {
      internalType, internalTypeName := InvalidUnset, TypeName(InvalidUnset);
      whole, decimal, text := 0, 0.0, "";
      group := new Array();
      wholeNumber, decimalNumber, textString, arrayGroup := null, null, null, null;
      new;
      Bind();
      SetType(other.internalType);
      CopyValue(other);
    }

    /** The move constructor: start from the default state and swap, so the
        source is left as a default `INVALID_UNSET` value. */
    constructor Move(other: Any)
      requires other.Valid()
      modifies other, other.group
      ensures Valid() && fresh(group)
      ensures Contents() == old(other.Contents())
      ensures other.Valid() && other.CurrentType() == InvalidUnset && other.Contents() == Unset
    {
      internalType, internalTypeName := InvalidUnset, TypeName(InvalidUnset);
      whole, decimal, text := 0, 0.0, "";
      group := new Array();
      wholeNumber, decimalNumber, textString, arrayGroup := null, null, null, null;
      new;
      Bind();
      SwapContents(other);
    }

    /** The copy assignment: retag to the source's tag, then copy its payload.
        Self-assignment is allowed; two distinct values never share a group. */
    method CopyAssign(other: Any)
      requires Valid() && (other == this || other.group != group)
      modifies this, group
      ensures Valid()
      ensures CurrentType() == old(other.CurrentType()) && Contents() == old(other.Contents())
      ensures other.Contents() == old(other.Contents())
    {
      SetType(other.internalType);
      CopyValue(other);
    }

    /** The move assignment: exchange tag, name and payload with the source. */
    method MoveAssign(other: Any)
      requires Valid() && other.Valid() && (other == this || other.group != group)
      modifies this, group, other, other.group
      ensures Valid() && other.Valid()
      ensures Contents() == old(other.Contents()) && other.Contents() == old(Contents())
      ensures CurrentTypeName() == old(other.CurrentTypeName()) && other.CurrentTypeName() == old(CurrentTypeName())
    {
      SwapContents(other);
    }

    /** `~Any`: release the payload and mark the tag unset. The cached name
        is left as it was. */
    method Destroy()
      modifies this, group
      ensures CurrentType() == InvalidUnset && Contents() == Unset
      ensures internalTypeName == old(internalTypeName)
      ensures old(internalType) == TextString ==> text == ""
      ensures old(internalType) == ArrayGroup ==> group.elements == []
    {
      Deinit();
      internalType := InvalidUnset;
    }

    /** `_setType`: when the tag differs, release the old payload, record the
        new tag and its name, and construct the new tag's default payload;
        when it is the same, change nothing at all. */
    method SetType(t: Type)
      requires Valid()
      modifies this, group
      ensures Valid() && CurrentType() == t
      ensures old(CurrentType()) == t ==> unchanged(this, group)
      ensures old(CurrentType()) != t ==> Contents() == DefaultOf(t)
    {
      if internalType != t {
        Deinit();
        internalType := t;
        internalTypeName := TypeName(internalType);
        Init();
      }
    }

    /** `_deinit`: release the text or the group; numbers need nothing. */
    method Deinit()
      modifies this`text, group
      ensures text == if old(internalType) == TextString then "" else old(text)
      ensures group.elements == if old(internalType) == ArrayGroup then [] else old(group.elements)
    {
      if internalType == TextString {
        text := "";
      } else if internalType == ArrayGroup {
        group.elements := [];
      }
    }

    /** `_init`: construct the default payload of the current tag. */
    method Init()
      modifies this`whole, this`decimal, this`text, group
      ensures Contents() == DefaultOf(internalType)
    {
      match internalType
      case WholeNumber => whole := 0;
      case DecimalNumber => decimal := 0.0;
      case TextString => text := "";
      case ArrayGroup => group.elements := [];
      case InvalidUnset =>
    }

    /** `_copyValue`: copy the member of `other`'s union that this object's
        own tag selects, whatever `other`'s tag is. */
    method CopyValue(other: Any)
      requires other == this || other.group != group
      modifies this`whole, this`decimal, this`text, group
      ensures internalType == other.internalType ==> Contents() == old(other.Contents())
      ensures other.Contents() == old(other.Contents())
    {
      match internalType
      case WholeNumber => whole := other.whole;
      case DecimalNumber => decimal := other.decimal;
      case TextString => text := other.text;
      case ArrayGroup => group.elements := other.group.elements;
      case InvalidUnset =>
    }

    /** `_swapContents`: exchange tag, name and every member of the union.
        Swapping with itself changes nothing. */
    method SwapContents(other: Any)
      requires Valid() && other.Valid() && (other == this || other.group != group)
      modifies this, group, other, other.group
      ensures Valid() && other.Valid()
      ensures Contents() == old(other.Contents()) && other.Contents() == old(Contents())
      ensures internalTypeName == old(other.internalTypeName) && other.internalTypeName == old(internalTypeName)
    {
      var t, n := internalType, internalTypeName;
      internalType, internalTypeName := other.internalType, other.internalTypeName;
      other.internalType, other.internalTypeName := t, n;
      var w, d, s, g := whole, decimal, text, group.elements;
      whole, decimal, text := other.whole, other.decimal, other.text;
      group.elements := other.group.elements;
      other.whole, other.decimal, other.text := w, d, s;
      other.group.elements := g;
    }

    /** `_getWholeNumber`: retag, then read. */
    method GetWholeNumber() returns (n: int64)
      requires Valid()
      modifies this, group
      ensures Valid() && CurrentType() == WholeNumber && Contents() == Whole(n)
      ensures old(CurrentType()) == WholeNumber ==> old(Contents()) == Whole(n) && unchanged(this, group)
      ensures old(CurrentType()) != WholeNumber ==> n == 0
    {
      SetType(WholeNumber);
      n := whole;
    }

    /** `_setWholeNumber`: retag, then write. */
    method SetWholeNumber(x: int64)
      requires Valid()
      modifies this, group
      ensures Valid() && CurrentType() == WholeNumber && Contents() == Whole(x)
    {
      SetType(WholeNumber);
      whole := x;
    }

    /** `_getDecimalNumber`: retag, then read. */
    method GetDecimalNumber() returns (d: real)
      requires Valid()
      modifies this, group
      ensures Valid() && CurrentType() == DecimalNumber && Contents() == Decimal(d)
      ensures old(CurrentType()) == DecimalNumber ==> old(Contents()) == Decimal(d) && unchanged(this, group)
      ensures old(CurrentType()) != DecimalNumber ==> d == 0.0
    {
      SetType(DecimalNumber);
      d := decimal;
    }

    /** `_setDecimalNumber`: retag, then write. */
    method SetDecimalNumber(x: real)
      requires Valid()
      modifies this, group
      ensures Valid() && CurrentType() == DecimalNumber && Contents() == Decimal(x)
    {
      SetType(DecimalNumber);
      decimal := x;
    }

    /** `_getTextString`: retag, then read; on any other tag the old payload is
        discarded and the text is empty. */
    method GetTextString() returns (s: string)
      requires Valid()
      modifies this, group
      ensures Valid() && CurrentType() == TextString && Contents() == Text(s)
      ensures old(CurrentType()) == TextString ==> old(Contents()) == Text(s) && unchanged(this, group)
      ensures old(CurrentType()) != TextString ==> s == ""
    {
      SetType(TextString);
      s := text;
    }

    /** `_setTextString`: retag, then write. */
    method SetTextString(x: string)
      requires Valid()
      modifies this, group
      ensures Valid() && CurrentType() == TextString && Contents() == Text(x)
    {
      SetType(TextString);
      text := x;
    }

    /** `_getObjectGroup`: retag, then hand out the group itself. */
    method GetObjectGroup() returns (g: Array)
      requires Valid()
      modifies this, group
      ensures Valid() && CurrentType() == ArrayGroup && g == group && Contents() == Group(g.elements)
      ensures old(CurrentType()) == ArrayGroup ==> unchanged(this, group)
      ensures old(CurrentType()) != ArrayGroup ==> g.elements == []
    {
      SetType(ArrayGroup);
      g := group;
    }

    /** `_setObjectGroup`: retag, then copy the elements of `other`. When
        `other` is this value's own group and the retag has just released it,
        the copy is of the released, empty group. */
    method SetObjectGroup(other: Array)
      requires Valid()
      modifies this, group
      ensures Valid() && CurrentType() == ArrayGroup
      ensures Contents() == Group(if other == group && old(CurrentType()) != ArrayGroup then [] else old(other.elements))
    {
      SetType(ArrayGroup);
      group.elements := other.elements;
    }

    /** `Any::emplace_back(const Any&)`: retag to a group (discarding any other
        payload), then append a copy of `other`. */
    method EmplaceBack(other: Any) returns (it: Iterator)
      requires Valid() && other.group != group
      modifies this, group
      ensures Valid() && CurrentType() == ArrayGroup
      ensures Contents() == Group(group.elements)
      ensures group.elements == (if old(CurrentType()) == ArrayGroup then old(group.elements) else []) + [old(other.Contents())]
      ensures other.Contents() == old(other.Contents())
      ensures fresh(it) && it.target == group && it.index == |group.elements| - 1
    {
      SetType(ArrayGroup);
      it := group.EmplaceBack(other.Contents());
    }

    /** `Any::emplace_back(Any&&)`: retag to a group, then move `other` into a
        new last element; `other` is left a default `INVALID_UNSET` value. */
    method EmplaceBackMove(other: Any) returns (it: Iterator)
      requires Valid() && other.Valid() && other.group != group
      modifies this, group, other, other.group
      ensures Valid() && CurrentType() == ArrayGroup
      ensures Contents() == Group(group.elements)
      ensures group.elements == (if old(CurrentType()) == ArrayGroup then old(group.elements) else []) + [old(other.Contents())]
      ensures other.Valid() && other.CurrentType() == InvalidUnset && other.Contents() == Unset
      ensures fresh(it) && it.target == group && it.index == |group.elements| - 1
    {
      SetType(ArrayGroup);
      var moved := new Any.Move(other);
      it := group.EmplaceBack(moved.Contents());
    }

    /** `Any::pop_back`: retag to a group, then pop. A value of any other tag
        would pop from the fresh, empty group, which is undefined; so the
        value must already be a non-empty group. */
    method PopBack() returns (back: Value)
      requires Valid() && CurrentType() == ArrayGroup && group.elements != []
      modifies this, group
      ensures Valid() && CurrentType() == ArrayGroup
      ensures back == old(group.elements)[|old(group.elements)| - 1]
      ensures Contents() == Group(old(group.elements)[..|old(group.elements)| - 1])
      ensures old(Contents()) == Group(group.elements + [back])
    {
      SetType(ArrayGroup);
      back := group.PopBack();
    }

    /** `Any::begin`: retag to a group, then `Array::begin`. */
    method Begin() returns (it: Iterator)
      requires Valid()
      modifies this, group
      ensures Valid() && CurrentType() == ArrayGroup && fresh(it)
      ensures old(CurrentType()) == ArrayGroup ==> unchanged(this, group)
      ensures old(CurrentType()) != ArrayGroup ==> group.elements == []
      ensures group.elements == [] ==> it.target == null && it.index == 0
      ensures group.elements != [] ==> it.target == group && it.index == 0
    {
      SetType(ArrayGroup);
      it := group.Begin();
    }

    /** `Any::end`: retag to a group, then `Array::end`. */
    method End() returns (it: Iterator)
      requires Valid()
      modifies this, group
      ensures Valid() && CurrentType() == ArrayGroup && fresh(it)
      ensures old(CurrentType()) == ArrayGroup ==> unchanged(this, group)
      ensures old(CurrentType()) != ArrayGroup ==> group.elements == []
      ensures group.elements == [] ==> it.target == null && it.index == 0
      ensures group.elements != [] ==> it.target == group && it.index == |group.elements|
    {
      SetType(ArrayGroup);
      it := group.End();
    }
  }
}
