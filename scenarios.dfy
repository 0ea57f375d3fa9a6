/** Properties that relate several operations of `Any`, stated as client
    methods over the model, and the three usage scenarios of the demo driver. */
module AnyScenarios {
  import opened AnyTypes
  import opened AnyModel

  /** Retagging twice to the same tag is the same as retagging once: the
      second `_setType` finds the tag already set and changes nothing. */
  method SetTypeTwice(a: Any, t: Type)
    requires a.Valid()
    modifies a, a.group
    ensures a.Valid() && a.CurrentType() == t && a.CurrentTypeName() == TypeName(t)
    ensures a.Contents() == if old(a.CurrentType()) == t then old(a.Contents()) else DefaultOf(t)
  {
    a.SetType(t);
    a.SetType(t);
  }

  /** Get-after-set through a property of any kind: the read returns exactly
      the value written and leaves the tag as the write set it. */
  method GetAfterSet(p: Property, v: Value) returns (r: Value)
    requires p.owner.Valid() && TagOf(v) == p.kind
    modifies p.owner, p.owner.group
    ensures r == v
    ensures p.owner.Valid() && p.owner.CurrentType() == p.kind && p.owner.Contents() == v
  {
    p.Assign(v);
    r := p.Read();
  }

  /** Get-after-set on the typed accessors of `Any` directly. */
  method GetAfterSetTyped(a: Any, n: int64, d: real, s: string)
    returns (n': int64, d': real, s': string)
    requires a.Valid()
    modifies a, a.group
    ensures n' == n && d' == d && s' == s
    ensures a.Valid() && a.CurrentType() == TextString && a.Contents() == Text(s)
  {
    a.SetWholeNumber(n);
    n' := a.GetWholeNumber();
    a.SetDecimalNumber(d);
    d' := a.GetDecimalNumber();
    a.SetTextString(s);
    s' := a.GetTextString();
  }

  /** Move assignment is an exchange, so doing it twice restores both values. */
  method MoveTwice(a: Any, b: Any)
    requires a.Valid() && b.Valid() && (a == b || a.group != b.group)
    modifies a, a.group, b, b.group
    ensures a.Valid() && b.Valid()
    ensures a.Contents() == old(a.Contents()) && b.Contents() == old(b.Contents())
  {
    a.MoveAssign(b);
    a.MoveAssign(b);
  }

  /** `pop_back` undoes `emplace_back` on a group: it returns the appended
      value and leaves the group as it was before the append. */
  method PopUndoesPush(a: Any, x: Any) returns (back: Value)
    requires a.Valid() && a.CurrentType() == ArrayGroup && x.group != a.group
    modifies a, a.group
    ensures back == old(x.Contents())
    ensures a.Valid() && a.Contents() == old(a.Contents())
  {
    ghost var before := a.group.elements;
    var it := a.EmplaceBack(x);
    assert a.group.elements == before + [old(x.Contents())];
    back := a.PopBack();
    assert a.group.elements == (before + [old(x.Contents())])[..|before|];
  }

  /** A copy is independent of its source: changing the copy's payload,
      including appending to a copied group, leaves the source as it was,
      even when the value appended is the source itself. */
  method CopyIsIndependent(a: Any, x: Any) returns (b: Any)
    requires a.Valid()
    ensures fresh(b) && b.Valid()
    ensures a.Contents() == old(a.Contents())
    ensures b.Contents() == Group((if a.CurrentType() == ArrayGroup then a.group.elements else []) + [x.Contents()])
  {
    b := new Any.Copy(a);
    var it := b.EmplaceBack(x);
  }

  /** `begin() == end()` exactly when the group is empty after the retag. */
  method BeginEqualsEndIffEmpty(a: Any) returns (same: bool)
    requires a.Valid()
    modifies a, a.group
    ensures a.Valid() && a.CurrentType() == ArrayGroup
    ensures same <==> a.group.elements == []
    ensures old(a.CurrentType()) != ArrayGroup ==> same
  {
    var first := a.Begin();
    var last := a.End();
    same := first.Equals(last);
  }

  /** Reading the text accessor of a value holding 42 discards the number,
      retags to text and yields the empty string. */
  method ReadTextOfNumber() returns (s: string, t: Type, name: string)
    ensures s == "" && t == TextString && name == "String"
  {
    var a := new Any.OfWholeNumber(42);
    s := a.GetTextString();
    t := a.CurrentType();
    name := a.CurrentTypeName();
  }

  /** The "property getters" scenario: each read of a default value retags it
      and yields that kind's default; the last read leaves it a group. */
  method GettersScenario() returns (before: string, n: Value, d: Value, s: Value, g: Value, after: string)
    ensures before == "Invalid" && after == "Group"
    ensures n == Whole(0) && d == Decimal(0.0) && s == Text("") && g == Group([])
  {
    var any := new Any();
    before := any.CurrentTypeName();
    n := any.wholeNumber.Read();
    d := any.decimalNumber.Read();
    s := any.textString.Read();
    g := any.arrayGroup.Read();
    after := any.CurrentTypeName();
  }

  /** The "property setters" scenario: two integer writes keep the integer
      tag; the decimal writes then retag and each read returns the last write. */
  method SettersScenario() returns (observed: seq<Value>, t: Type)
    ensures observed == [Whole(8), Whole(-1073), Decimal(8.0), Decimal(-1073.0), Decimal(-0.3)]
    ensures t == DecimalNumber
  {
    var any := new Any();
    any.wholeNumber.Assign(Whole(8));
    var r1 := any.wholeNumber.Read();
    any.wholeNumber.Assign(Whole(-1073));
    var r2 := any.wholeNumber.Read();
    any.decimalNumber.Assign(Decimal(8.0));
    var r3 := any.decimalNumber.Read();
    any.decimalNumber.Assign(Decimal(-1073.0));
    var r4 := any.decimalNumber.Read();
    any.decimalNumber.Assign(Decimal(-0.3));
    var r5 := any.decimalNumber.Read();
    observed := [r1, r2, r3, r4, r5];
    t := any.CurrentType();
  }

  /** `emplace_back(std::move(Any(chars)))`: build a text temporary from a
      character buffer and move it in as the new last element. */
  method AppendText(p: Any, chars: string)
    requires p.Valid() && p.CurrentType() == ArrayGroup && |chars| < 0x1_0000_0000
    modifies p, p.group
    ensures p.Valid() && p.CurrentType() == ArrayGroup
    ensures p.group.elements == old(p.group.elements) + [Text(chars)]
  {
    assert chars[..|chars|] == chars;
    var temporary := new Any.OfChars(chars, |chars| as uint32);
    var it := p.EmplaceBackMove(temporary);
  }

  /** `emplace_back(std::move(decimal))`: build a decimal temporary and move
      it in as the new last element. */
  method AppendDecimal(p: Any, d: real)
    requires p.Valid() && p.CurrentType() == ArrayGroup
    modifies p, p.group
    ensures p.Valid() && p.CurrentType() == ArrayGroup
    ensures p.group.elements == old(p.group.elements) + [Decimal(d)]
  {
    var temporary := new Any.OfDecimalNumber(d);
    var it := p.EmplaceBackMove(temporary);
  }

  /** The first copy of the "array usage" scenario: a default child appended
      by copy retags the default parent to a group and stays unset itself. */
  method AppendDefault(p: Any) returns (c1: Value)
    requires p.Valid() && p.CurrentType() == InvalidUnset
    modifies p, p.group
    ensures p.Valid() && p.CurrentType() == ArrayGroup
    ensures p.group.elements == [Unset]
    ensures c1 == Unset
  {
    var child1 := new Any();
    var it := p.EmplaceBack(child1);
    c1 := child1.Contents();
  }

  /** The second copy of the "array usage" scenario: a child set to the
      integer 2 is appended by copy and keeps its value. */
  method AppendNumber(p: Any) returns (c2: Value)
    requires p.Valid() && p.CurrentType() == ArrayGroup
    modifies p, p.group
    ensures p.Valid() && p.CurrentType() == ArrayGroup
    ensures p.group.elements == old(p.group.elements) + [Whole(2)]
    ensures c2 == Whole(2)
  {
    var child2 := new Any();
    child2.wholeNumber.Assign(Whole(2));
    var it := p.EmplaceBack(child2);
    c2 := child2.Contents();
  }

  /** The move of the "array usage" scenario: a child set to a text is moved
      in, which leaves the child a default `INVALID_UNSET` value. */
  method AppendMoved(p: Any) returns (c3: Value, name3: string)
    requires p.Valid() && p.CurrentType() == ArrayGroup
    modifies p, p.group
    ensures p.Valid() && p.CurrentType() == ArrayGroup
    ensures p.group.elements == old(p.group.elements) + [Text("Child 3 is a string")]
    ensures c3 == Unset && name3 == "Invalid"
  {
    var child3 := new Any();
    child3.textString.Assign(Text("Child 3 is a string"));
    var it := p.EmplaceBackMove(child3);
    c3, name3 := child3.Contents(), child3.CurrentTypeName();
  }

  /** The last three appends of the "array usage" scenario, each a temporary
      moved in: two texts built from character buffers and a decimal. */
  method AppendTemporaries(p: Any)
    requires p.Valid() && p.CurrentType() == ArrayGroup
    modifies p, p.group
    ensures p.Valid() && p.CurrentType() == ArrayGroup
    ensures p.group.elements == old(p.group.elements) + [Text("Child 4"), Text("Child 5"), Decimal(6.66)]
  {
    ghost var before := p.group.elements;
    AppendText(p, "Child 4");
    AppendText(p, "Child 5");
    assert p.group.elements == before + [Text("Child 4"), Text("Child 5")];
    AppendDecimal(p, 6.66);
  }

  /** The six children of the "array usage" scenario, in order. */
  const Children: seq<Value> :=
    [Unset, Whole(2), Text("Child 3 is a string"), Text("Child 4"), Text("Child 5"), Decimal(6.66)]

  /** The appends of the "array usage" scenario on a default parent, by copy
      and by move, returning the children's values after their append. */
  method BuildParent() returns (p: Any, c1: Value, c2: Value, c3: Value)
    ensures fresh(p) && p.Valid() && p.CurrentType() == ArrayGroup
    ensures p.group.elements == Children
    ensures c1 == Unset && c2 == Whole(2) && c3 == Unset
  {
    p := new Any();
    c1 := AppendDefault(p);
    c2 := AppendNumber(p);
    assert p.group.elements == [Unset, Whole(2)];
    var name3;
    c3, name3 := AppendMoved(p);
    assert p.group.elements == [Unset, Whole(2), Text("Child 3 is a string")];
    AppendTemporaries(p);
  }

  /** The "array usage" scenario: copied children are untouched, the moved
      child is left unset, and iterating the parent visits the six children
      in order. */
  method ArrayScenario() returns (parent: Value, visited: seq<Value>, c1: Value, c2: Value, c3: Value)
    ensures parent == Group(Children) && visited == Children
    ensures c1 == Unset && c2 == Whole(2) && c3 == Unset
  {
    var p;
    p, c1, c2, c3 := BuildParent();
    parent := p.Contents();
    var steps;
    visited, steps := Traverse(p.group);
  }
}
