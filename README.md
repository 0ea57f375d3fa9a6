# generic-any in Dafny

This project models the core of `generic-any`, a C++ tagged variant. An `Any`
holds a tag (`Type`), a cached display name for the tag, and a union of four
payloads: a 64-bit integer, a `long double`, a `std::string` and a nested
`Any::Array` of further `Any` values. Four `Property` proxies give access to
the payloads. Each proxy forwards reads and writes to a private getter or
setter, and that accessor first calls `_setType`. So touching a payload of
another tag *coerces* the value: the old payload is released, the new tag and
its name are recorded, and the new tag's default payload is built. `Any` also
forwards `emplace_back`, `pop_back`, `begin` and `end` to its group, after
retagging itself to a group. `Array::Iterator` is a raw pointer into the
group's storage.

Layout:

- `types.dfy`, module `AnyTypes`, holds the value-level vocabulary:
  - the tags and their ordinals;
  - the name table;
  - `Value`, the observable content of an `Any` (a group holds its elements
    by value, so copies are deep);
  - the default payload built by `_init`.
- `any.dfy`, module `AnyModel`, holds the classes `Array`, `Iterator`,
  `Property` and `Any`, plus the range-for traversal `Traverse`:
  - They share one module because an `Any` owns its properties and each
    property calls back into its owner.
  - The union is the set of fields `whole`, `decimal`, `text` and `group`.
  - `Contents()` is the live member that the tag selects.
  - `Valid()` is the object invariant: the cached name is the table entry for
    the tag, and the four properties are bound to this object with the
    matching accessors.
- `scenarios.dfy`, module `AnyScenarios`, holds two kinds of client methods:
  - ones that relate several operations: idempotent retagging, get-after-set,
    double move assignment, pop after push, independence of copies, and
    `begin == end` exactly when the group is empty;
  - the three scenarios of the demo driver in `main.cpp`, with the values it
    prints stated as postconditions.

Modelling choices:

- `WHOLE_NUMBER_TYPE` (`long long int`) is the newtype `int64`.
- `DECIMAL_NUMBER_TYPE` (`long double`) is `real`.
- Strings are `seq<char>`.
- An iterator is the array it points into plus a slot index. `nullptr` is
  `target == null`.
- The source has undefined behaviour in some operations: popping an empty
  group, incrementing a null iterator, dereferencing out of range, and
  reading past the character buffer given to the explicit-length constructor.
  The model states these as preconditions.
- The demo driver appends six children (`main.cpp:51-58`): two by copy and
  four by move.

## Model

| member | source | states |
|---|---|---|
| AnyTypes.Ordinal | Any.h:18-26 | Every tag's position is below `COUNT` (5), and position `COUNT - 1` belongs to `INVALID_UNSET` and to no other tag. |
| AnyTypes.OrdinalInjective | Any.h:18-26 | Two tags have the same position exactly when they are the same tag, so every tag indexes its own slot of the name table. |
| AnyTypes.TypeNameInjective | Any.cpp:8-14 | Two tags have the same display name exactly when they are the same tag, so the cached name identifies the tag. |
| AnyTypes.DefaultOf | Any.cpp:204-226 | The payload `_init` builds has the requested tag; for a group it is empty and for text it is the empty string. |
| AnyTypes.DefaultIsEmpty | Any.cpp:204-226 | A payload is its tag's default exactly when it is zero, `0.0`, empty text, an empty group or unset. |
| AnyModel.Array.constructor | Any.cpp:317-319 | A new array holds no elements. |
| AnyModel.Array.EmplaceBack | Any.cpp:325-335 | The elements become the old elements plus `x` at the end, and the returned iterator points at that new last slot. |
| AnyModel.Array.PopBack | Any.cpp:337-342 | On a non-empty array, returns the old last element and removes it, so the old elements are the new ones plus the returned value. |
| AnyModel.Array.Begin | Any.cpp:344-347 | On an empty array, the null iterator; otherwise an iterator to slot 0 of this array. |
| AnyModel.Array.End | Any.cpp:349-352 | On an empty array, the null iterator; otherwise one past the last slot of this array. |
| AnyModel.Iterator.constructor | Any.cpp:259-262 | The default iterator is null. |
| AnyModel.Iterator.At | Any.cpp:286-289 | The iterator points at the given slot. |
| AnyModel.Iterator.Copy | Any.cpp:264-278 | Copy and move construction point at the same slot as the source. |
| AnyModel.Iterator.Assign | Any.cpp:269-284 | Copy and move assignment make the iterator point where the source pointed. |
| AnyModel.Iterator.Equals | Any.cpp:291-294 | Two iterators are equal exactly when they address the same slot of the same array, or are both null. |
| AnyModel.Iterator.NotEquals | Any.cpp:296-299 | `!=` holds exactly when `==` does not. |
| AnyModel.Iterator.Increment | Any.cpp:301-305 | A non-null iterator moves one slot forward in the same array. |
| AnyModel.Iterator.Deref | Any.cpp:307-315 | In range, `*it` and `it->` give the element in the slot addressed. |
| AnyModel.Traverse | Any.h:270-283 | The range-for from `begin()` to `end()` visits exactly the array's elements, in insertion order, using exactly one increment per element. |
| AnyModel.Property.constructor | Property.h:49-59 | A property is bound to the given owner and the given accessor pair. |
| AnyModel.Property.Read | Property.h:32-35 | Reading leaves the owner valid and tagged with the property's kind. On that kind already, the owner is unchanged and the read returns its payload; otherwise the owner holds and the read returns the kind's default. |
| AnyModel.Property.Assign | Property.h:36-39 | Writing a value of the property's kind leaves the owner valid, with that tag and exactly that payload. |
| AnyModel.Any.CurrentTypeName | Any.h:116-117 | The public name equals the name-table entry of the current tag. |
| AnyModel.Any.Contents | Any.h:146-171 | The live union member has the tag currently stored. |
| AnyModel.Any.Bind | Any.cpp:20-25 | The four properties are bound to this object, each with its own accessor pair. |
| AnyModel.Any.constructor | Any.cpp:19-33 | A default value is valid and unset, with the name "Invalid". |
| AnyModel.Any.OfType | Any.cpp:66-70 | The value has the given tag and that tag's default payload. |
| AnyModel.Any.OfWholeNumber | Any.cpp:74-78 | The value is an integer holding exactly the argument. |
| AnyModel.Any.OfDecimalNumber | Any.cpp:82-86 | The value is a decimal holding exactly the argument. |
| AnyModel.Any.OfTextString | Any.cpp:90-94 | The value is a text holding exactly the argument. |
| AnyModel.Any.OfChars | Any.cpp:101-104 | The value is a text holding the first `length` characters of the buffer. |
| AnyModel.Any.OfArray | Any.cpp:108-112 | The value is a group holding a copy of the array's elements. |
| AnyModel.Any.Copy | Any.cpp:36-40 | A copy has the source's tag and an equal payload, in storage of its own. |
| AnyModel.Any.Move | Any.cpp:51-55 | The new value takes the source's payload, and the source is left a valid unset value. |
| AnyModel.Any.CopyAssign | Any.cpp:43-48 | After `a = b`, `a` has `b`'s old tag and payload and `b` is unchanged; self-assignment included. |
| AnyModel.Any.MoveAssign | Any.cpp:58-62 | Move assignment exchanges the two values' payloads and cached names, and both stay valid. |
| AnyModel.Any.Destroy | Any.cpp:116-120 | The payload is released and the tag becomes unset; the cached name keeps its old text. |
| AnyModel.Any.SetType | Any.cpp:169-182 | Afterwards the tag is `t` and the object invariant holds. If the tag already was `t`, nothing changed; otherwise the payload is `t`'s default. |
| AnyModel.Any.Deinit | Any.cpp:185-201 | Only a text or group payload is released; number payloads are left as they were. |
| AnyModel.Any.Init | Any.cpp:204-226 | The payload becomes the default of the current tag. |
| AnyModel.Any.CopyValue | Any.cpp:230-249 | When the tags match, the payload becomes a copy of the source's; the source is never changed. |
| AnyModel.Any.SwapContents | Any.cpp:252-257 | Tag, name and payload are exchanged between the two values, and both stay valid. |
| AnyModel.Any.GetWholeNumber | Any.h:185-189 | Afterwards the value is tagged integer. An integer is read without being changed; any other value reads as 0 and becomes 0. |
| AnyModel.Any.SetWholeNumber | Any.h:190-194 | Afterwards the value is an integer holding exactly the argument. |
| AnyModel.Any.GetDecimalNumber | Any.h:195-199 | Afterwards the value is tagged decimal. A decimal is read without being changed; any other value reads as 0.0 and becomes 0.0. |
| AnyModel.Any.SetDecimalNumber | Any.h:200-204 | Afterwards the value is a decimal holding exactly the argument. |
| AnyModel.Any.GetTextString | Any.h:205-209 | Afterwards the value is tagged text. A text is read without being changed; any other value reads as "" and becomes "". |
| AnyModel.Any.SetTextString | Any.h:210-214 | Afterwards the value is a text holding exactly the argument. |
| AnyModel.Any.GetObjectGroup | Any.h:215-219 | Afterwards the value is a group and its own group is handed out. A group is unchanged; any other value becomes an empty group. |
| AnyModel.Any.SetObjectGroup | Any.h:220-224 | Afterwards the value is a group holding a copy of the argument's elements. If the argument was this value's own group and the retag released it, the copy is empty. |
| AnyModel.Any.EmplaceBack | Any.cpp:122-126 | The value becomes a group: its old elements, or none if it was not a group, plus a copy of `other` at the end. `other` is unchanged, and the iterator points at the new element. |
| AnyModel.Any.EmplaceBackMove | Any.cpp:128-132 | Like the copying form, but `other` is moved in and left a valid unset value. |
| AnyModel.Any.PopBack | Any.cpp:134-138 | On a non-empty group, returns the last element and leaves the group without it. |
| AnyModel.Any.Begin | Any.cpp:140-144 | The value becomes a group, and a non-group becomes empty. Gives the null iterator when the group is empty, else slot 0. |
| AnyModel.Any.End | Any.cpp:146-150 | The value becomes a group, and a non-group becomes empty. Gives the null iterator when the group is empty, else one past the last element. |
| AnyScenarios.SetTypeTwice | Any.cpp:169-182 | Retagging twice to the same tag has the same effect as retagging once. |
| AnyScenarios.GetAfterSet | Property.h:32-39 | Through any property, a read right after a write returns exactly the value written. |
| AnyScenarios.GetAfterSetTyped | Any.h:185-214 | Through the typed accessors, a read right after a write returns exactly the value written, for integer, decimal and text. |
| AnyScenarios.MoveTwice | Any.cpp:58-62 | Move-assigning twice between the same two values restores both. |
| AnyScenarios.PopUndoesPush | Any.cpp:325-342 | `pop_back` right after `emplace_back` on a group returns the appended value and restores the group. |
| AnyScenarios.CopyIsIndependent | Any.cpp:36-40 | Appending any value to a copy, the source itself included, leaves the source unchanged and gives the copy the source's elements (none if it was not a group) plus the appended value. |
| AnyScenarios.BeginEqualsEndIffEmpty | Any.cpp:344-352 | After the retag, `begin() == end()` exactly when the group is empty, which is always the case for a value that was not a group. |
| AnyScenarios.ReadTextOfNumber | Any.h:205-209 | Reading the text of an integer 42 gives "" and retags it to text, named "String". |
| AnyScenarios.GettersScenario | main.cpp:8-17 | A default value is named "Invalid". Its four reads give 0, 0.0, "" and an empty group, and it ends up named "Group". |
| AnyScenarios.SettersScenario | main.cpp:20-35 | The five writes read back as 8, -1073, 8.0, -1073.0 and -0.3, and the value ends up a decimal. |
| AnyScenarios.AppendDefault | main.cpp:51 | Appending a default child to a default parent makes the parent the group `[unset]`, and the child stays unset. |
| AnyScenarios.AppendNumber | main.cpp:52-53 | A child set to 2 and appended by copy adds 2 to the parent and still holds 2. |
| AnyScenarios.AppendMoved | main.cpp:54-55 | A child set to "Child 3 is a string" and moved in adds that text to the parent and is left unset, named "Invalid". |
| AnyScenarios.AppendText | main.cpp:56-57 | A text temporary built from a character buffer and moved in adds exactly that text. |
| AnyScenarios.AppendDecimal | main.cpp:58 | A decimal temporary moved in adds exactly that decimal. |
| AnyScenarios.AppendTemporaries | main.cpp:56-58 | The three moved temporaries add "Child 4", "Child 5" and 6.66, in that order. |
| AnyScenarios.BuildParent | main.cpp:39-58 | After the six appends, the parent is a group of the six children in order. The copied children are unchanged and the moved child is unset. |
| AnyScenarios.ArrayScenario | main.cpp:37-72 | The printed parent is the group `[unset, 2, "Child 3 is a string", "Child 4", "Child 5", 6.66]`, and iterating it visits exactly those values. The printed children are unset, 2 and unset. |

## Left out

- Output: `operator<<` for `Type`, `Any` and the four property types writes to a stream and is not modelled (`Any.h:227-289`). Only the iteration done by the group printer is modelled, as `Traverse`. Its bounds check on the tag is subsumed by `Ordinal`, whose result is always below `COUNT`.
- `Any(const char*)`, which measures its argument with `strlen`, is not a separate constructor. The driver's literals are built with `OfChars`, with the literal's length as `length`, which is what `strlen` gives for text without NUL characters.
- `long double` arithmetic and rounding: decimals are exact reals, so `6.66` in the model is exactly 6.66.
- The memory layout of the union: `memcpy` in `Data`, placement `new`, and explicit destructor calls. The model keeps one field per union member and swaps them field by field. A dead member keeps whatever value it last had, which never shows through `Contents()`.
- `std::vector` capacity and reallocation: an iterator returned by `emplace_back` stays in the model as an index, even where a later append would invalidate the C++ pointer.
- AnyModel.Iterator: an iterator stays with the array it was taken from. In C++ the moving operations (`SwapContents`, `MoveAssign`, the move constructor `Move`, and `EmplaceBackMove`) move the vector buffer, memory and all, to the other object, so an iterator taken before the move then points into the other object's group and compares equal to its `begin()`. In the model the iterator's `target` is still the first object's group. Likewise, after `SetType` or `Destroy` a C++ iterator into the released storage dangles, and after `PopBack` so does an iterator to the popped slot or to `end()`; the model keeps a usable slot index in each case. Iterators to earlier slots stay valid after `PopBack`, in C++ and in the model.
- AnyModel.Any.OfChars: one Dafny `char` stands for one C++ byte. `std::string(value, length)` counts bytes, so the model does not split non-ASCII text byte by byte.
- Writing through `*it` or `it->`: `Deref` returns the element's value, not a reference into the array.
- `Property::mValue`, the reference to the payload member that the proxy stores but never reads.
- Iterator move construction and move assignment are the same as the copy forms (they are in the source too). `AnyModel.Iterator.Copy` and `AnyModel.Iterator.Assign` stand for both.
- The enumerator `COUNT` is only the size of the name table and never a tag, so it is the constant `Count` and not a constructor of `Type`.
- AnyModel.Any.EmplaceBack: requires `other.group != group`, which rules out appending a value to itself. In C++ that copies `*this` into its own vector while the vector may reallocate, so the behaviour depends on the library.
- AnyModel.Any.EmplaceBackMove: requires `other.group != group`, which rules out moving a value into itself, for the same reason.
- AnyModel.Any.CopyAssign: requires that two distinct values do not share a group. Every constructor allocates its own group, so no two C++ objects share one; Dafny cannot express that about all objects, so it is a precondition.
- AnyModel.Any.MoveAssign: requires that two distinct values do not share a group, for the same reason.
- AnyModel.Any.SwapContents: requires that two distinct values do not share a group, for the same reason.
- AnyModel.Any.CopyValue: requires that two distinct values do not share a group, for the same reason.
- AnyModel.Any.PopBack: requires the value to already be a non-empty group. For any other tag `_setType` builds an empty group first, and popping that is undefined in C++.
- AnyModel.Any.Destroy: leaves the cached name as it was (the source does not update it), so `Valid()` holds afterwards only if the value was already unset. A destroyed object is not used again.
