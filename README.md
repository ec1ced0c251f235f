# libpmemobj-cpp: string view and self-relative pointer, in Dafny

This project models two components of libpmemobj-cpp and proves properties
of the models.

**`pmem::obj::basic_string_view`** is the library's fallback string view,
used when the standard library has no `std::string_view`. It lives in module
`StringView` (`string_view.dfy`):

- A view is the value `View(data, size)`, a character pointer plus a length.
- A character pointer is `Null` or a position `Ptr(buf, index)` inside a
  character buffer.
- Characters are 0..255, and `size_type` is a 64-bit unsigned integer, with
  `npos` = 2^64 - 1.
- `std::out_of_range` becomes the `Err` case of `Result`, which carries the
  exception's message.
- The const members are functions on the value:
  - `empty`, `operator[]`, `at`, `front`, `back`;
  - `substr`;
  - the six `compare` overloads;
  - the non-member `== != < <= > >=`.
- `copy` writes the caller's array, so it is a method.
- `remove_prefix`, `remove_suffix` and `swap` change a view in place. They
  are methods of the class `ViewObject`, which holds the two fields.
- The order `compare` computes is given by an independent definition: the
  lexicographic order `LexLess` on the referred characters.

**`pmem::obj::experimental::self_relative_ptr<T>`** and its type-erased base
`self_relative_ptr_base` live in module `SelfRelative`
(`self_relative_ptr.dfy`), following their contract as the tests in
`examples/offset_ptr/main.cpp` use it:

- A pointer is an object at address `slot` that stores only a byte offset
  `off` to its target. Offset 0 means null.
- Every construction, copy, assignment and swap resolves the source to an
  absolute address and re-encodes it against the destination's own slot.
- Arithmetic moves the offset by `n * sizeof(T)`. `elemSize` = 0 marks the
  type-erased base, which has no arithmetic.
- Comparisons compare resolved addresses. A Dafny `null` operand stands for
  the `nullptr` literal.

Module `OffsetPtrTests` (`offset_ptr_tests.dfy`) replays each test of that
file on the model. Each assertion of a test becomes an `assert`, or a
conjunct of the result the method promises. The addresses of the objects
and of the pointers' own storage are parameters.

## Model

| member | source | states |
|---|---|---|
| StringView.Min | include/libpmemobj++/string_view.hpp:431 | `std::min` on sizes: the result is one of the two arguments and no larger than either |
| StringView.CharPtr.Plus | include/libpmemobj++/string_view.hpp:380 | `data_ + n` stays null or moves the position by exactly `n` in the same buffer |
| StringView.TraitsLength | include/libpmemobj++/string_view.hpp:164-169 | `Traits::length`: the distance to the first terminating zero, with no zero before it |
| StringView.View.Chars | include/libpmemobj++/string_view.hpp:113-114 | the characters `[data_, data_ + size_)` a view refers to, exactly `size_` of them |
| StringView.DefaultView | include/libpmemobj++/string_view.hpp:125-129 | the default view has null data and size 0, and it is empty |
| StringView.CStringView | include/libpmemobj++/string_view.hpp:164-169 | the view of a C string ends right before its terminator and holds no zero character |
| StringView.View.Empty | include/libpmemobj++/string_view.hpp:270-275 | `empty()` holds exactly when the view refers to no characters |
| StringView.View.Index | include/libpmemobj++/string_view.hpp:320-325 | `operator[]` returns the character at `pos`; callers must stay in range |
| StringView.View.At | include/libpmemobj++/string_view.hpp:335-342 | `at` reports out-of-range with message "Accessing a position out of bounds!" exactly when `pos >= size()`; otherwise it returns the character at `pos` |
| StringView.View.Front | include/libpmemobj++/string_view.hpp:363-368 | `front()` is the first character of a non-empty view |
| StringView.View.Back | include/libpmemobj++/string_view.hpp:350-355 | `back()` is the last character of a non-empty view |
| StringView.SubChars | include/libpmemobj++/string_view.hpp:430-431 | the view `(data() + pos, m)` built by `substr` is readable and refers to exactly the `m` characters of the original from `pos` on |
| StringView.View.Substr | include/libpmemobj++/string_view.hpp:422-432 | fails with "string_view::substr" exactly when `pos > size()`; otherwise it returns the `min(count, size() - pos)` characters starting at `pos` |
| StringView.View.Copy | include/libpmemobj++/string_view.hpp:446-457 | fails with "string_view::copy" exactly when `pos > size()`, leaving `dest` alone; otherwise it writes the `rlen = min(count, size() - pos)` characters from `pos` to `dest[0..rlen)`, returns `rlen` and changes nothing else |
| StringView.View.Compare | include/libpmemobj++/string_view.hpp:563-577 | the result is negative, zero or positive exactly when the view is lexicographically smaller than, equal to or greater than `other` |
| StringView.TraitsCompare | include/libpmemobj++/string_view.hpp:568-569 | `Traits::compare` over the first `n` characters has sign -1, 0 or 1, and is 0 exactly when those `n` characters agree |
| StringView.View.CompareAt | include/libpmemobj++/string_view.hpp:470-476 | fails exactly when `pos1 > size()`; otherwise it orders `substr(pos1, n1)` against `sv` lexicographically |
| StringView.View.CompareSubstrings | include/libpmemobj++/string_view.hpp:491-498 | fails exactly when `pos1 > size()` or `pos2 > sv.size()`; otherwise it orders the two substrings lexicographically |
| StringView.View.CompareCString | include/libpmemobj++/string_view.hpp:509-514 | orders the view against the C string up to its terminator |
| StringView.View.CompareAtCString | include/libpmemobj++/string_view.hpp:527-533 | fails exactly when `pos1 > size()`; otherwise it orders `substr(pos1, n1)` against the C string |
| StringView.View.CompareAtBuffer | include/libpmemobj++/string_view.hpp:547-553 | fails exactly when `pos1 > size()`; otherwise it orders `substr(pos1, n1)` against the first `n2` characters of `s` |
| StringView.Equal | include/libpmemobj++/string_view.hpp:582-612 | `==` holds exactly when the referred characters are equal, that is, equal sizes and equal characters at every position |
| StringView.NotEqual | include/libpmemobj++/string_view.hpp:617-647 | `!=` holds exactly when the referred characters differ; it is the negation of `==` |
| StringView.Less | include/libpmemobj++/string_view.hpp:652-680 | `<` is the lexicographic order |
| StringView.LessEq | include/libpmemobj++/string_view.hpp:685-715 | `<=` is lexicographically smaller or equal, which is the same as not greater |
| StringView.Greater | include/libpmemobj++/string_view.hpp:720-748 | `>` is `<` with the operands exchanged |
| StringView.GreaterEq | include/libpmemobj++/string_view.hpp:753-783 | `>=` is `<=` with the operands exchanged |
| StringView.ViewObject.constructor | include/libpmemobj++/string_view.hpp:70-71 | the defaulted copy constructor: the new view object holds the given view's data pointer and size |
| StringView.ViewObject.RemovePrefix | include/libpmemobj++/string_view.hpp:376-382 | the data pointer advances by `n`, the size shrinks by `n`, and the view refers to the old characters without the first `n` |
| StringView.ViewObject.RemoveSuffix | include/libpmemobj++/string_view.hpp:390-395 | the data pointer stays and the view refers to the old characters without the last `n` |
| StringView.ViewObject.Swap | include/libpmemobj++/string_view.hpp:402-409 | the two views exchange data pointers and sizes |
| StringView.TraitsCompareDecides | include/libpmemobj++/string_view.hpp:568-571 | `Traits::compare` over the common length has sign -1, 0 or 1; 0 means equal common prefixes, and a non-zero sign decides the lexicographic order in that direction only |
| StringView.CommonPrefixDecides | include/libpmemobj++/string_view.hpp:572-576 | with equal common prefixes, the shorter view is the lexicographically smaller one, and equal lengths mean equal views |
| StringView.CompareReflexive | include/libpmemobj++/string_view.hpp:563-577 | a view compares equal to itself |
| StringView.CompareAntisymmetric | include/libpmemobj++/string_view.hpp:563-577 | exchanging the operands of `compare` negates its result |
| StringView.LexLessTransitive | include/libpmemobj++/string_view.hpp:563-577 | the lexicographic order behind `compare` is transitive |
| StringView.CompareTransitive | include/libpmemobj++/string_view.hpp:563-577 | `a < b` and `b < c` by `compare` give `a < c` |
| StringView.SubstrToEnd | include/libpmemobj++/string_view.hpp:99-100 | `substr(pos)` with the default `count = npos` is the whole suffix from `pos` |
| StringView.RemovePrefixIsSubstr | include/libpmemobj++/string_view.hpp:376-382 | `remove_prefix(n)` leaves exactly the view that `substr(n)` returns |
| SelfRelative.Upcast | examples/offset_ptr/main.cpp:103-104 | the converted pointer to a base subobject keeps null as null, and otherwise moves by the subobject's displacement |
| SelfRelative.EncodeResolves | examples/offset_ptr/main.cpp:127-129 | a storable target, encoded against a slot and resolved again, is the same target; only null encodes as offset 0 |
| SelfRelative.Relocation | examples/offset_ptr/main.cpp:37-39 | a pointer copied to another slot keeps its target, and its raw offset changes by the distance between the two slots |
| SelfRelative.SelfRelativePtr.Get | examples/offset_ptr/main.cpp:14-17 | `get()` is null exactly when the pointer is null; otherwise it is a real address other than the pointer's own |
| SelfRelative.SelfRelativePtr.IsNull | examples/offset_ptr/main.cpp:75-78 | `is_null()` (and `!p`, and the negation of `(bool)p`) holds exactly when the pointer resolves to null |
| SelfRelative.SelfRelativePtr.Null | examples/offset_ptr/main.cpp:27-30 | a default-constructed pointer, or one built from `nullptr`, is null |
| SelfRelative.SelfRelativePtr.FromAddress | examples/offset_ptr/main.cpp:102 | a pointer built from a raw address refers to that address |
| SelfRelative.SelfRelativePtr.CopyOf | examples/offset_ptr/main.cpp:37 | a copy in another slot refers to the source's target |
| SelfRelative.SelfRelativePtr.Converted | examples/offset_ptr/main.cpp:103-115 | a `B` pointer built from a `C` pointer refers to the `B` subobject |
| SelfRelative.SelfRelativePtr.AssignAddress | examples/offset_ptr/main.cpp:129 | after assigning a raw address or `nullptr`, the pointer refers to it |
| SelfRelative.SelfRelativePtr.Assign | examples/offset_ptr/main.cpp:150-153 | after copy assignment, the pointer refers to the source's old target, and the source is unchanged |
| SelfRelative.SelfRelativePtr.AssignConverted | examples/offset_ptr/main.cpp:108-109 | after converting assignment, the pointer refers to the base subobject of the source's target |
| SelfRelative.SelfRelativePtr.Swap | examples/offset_ptr/main.cpp:41 | the two pointers exchange targets, each staying in its own slot |
| SelfRelative.SelfRelativePtr.AddAssign | examples/offset_ptr/main.cpp:217-218 | `p += n` moves the target by `n * sizeof(T)` bytes |
| SelfRelative.SelfRelativePtr.SubAssign | examples/offset_ptr/main.cpp:220-221 | `p -= n` moves the target back by `n * sizeof(T)` bytes |
| SelfRelative.SelfRelativePtr.PreIncrement | examples/offset_ptr/main.cpp:206-209 | `++p` moves the target one element on |
| SelfRelative.SelfRelativePtr.PreDecrement | examples/offset_ptr/main.cpp:211-214 | `--p` moves the target one element back |
| SelfRelative.SelfRelativePtr.PostIncrement | examples/offset_ptr/main.cpp:196-199 | `p++`, and `p.operator++(k)` at line 224, return the old target and move one element on, whatever `k` is |
| SelfRelative.SelfRelativePtr.PostDecrement | examples/offset_ptr/main.cpp:201-204 | `p--`, and `p.operator--(k)` at line 227, return the old target and move one element back, whatever `k` is |
| SelfRelative.SelfRelativePtr.Plus | examples/offset_ptr/main.cpp:231-235 | `p + n` (lines 232 and 235) is a new pointer whose target is `n` elements after `p`'s |
| SelfRelative.SelfRelativePtr.Minus | examples/offset_ptr/main.cpp:237-238 | `p - n` is a new pointer whose target is `n` elements before `p`'s |
| SelfRelative.SelfRelativePtr.Difference | examples/offset_ptr/main.cpp:240-241 | `p - q` is the number of elements to add to `q`'s target to reach `p`'s |
| SelfRelative.DistanceBetween | examples/offset_ptr/main.cpp:99-106 | `distance_between(first, second)` is the byte distance from `first`'s target to `second`'s |
| SelfRelative.DistanceAntisymmetric | examples/offset_ptr/main.cpp:99-106 | exchanging the operands of `distance_between` negates the distance |
| SelfRelative.DistanceRelocationInvariant | examples/offset_ptr/main.cpp:99-106 | the distance depends only on the targets: pointers in other slots that compare equal to the operands give the same distance |
| SelfRelative.Equal | examples/offset_ptr/main.cpp:260-273 | `==` compares resolved addresses: two non-null pointers are equal exactly when slot plus offset agree; two null operands are equal, a null and a non-null one never are, and a pointer equals itself |
| SelfRelative.NotEqual | examples/offset_ptr/main.cpp:260-271 | `!=` is the negation of `==` |
| SelfRelative.Less | examples/offset_ptr/main.cpp:262-276 | `<` orders two non-null pointers by their resolved addresses; `nullptr` is below every non-null pointer, nothing is below `nullptr`, and `<` excludes `==` |
| SelfRelative.LessEq | examples/offset_ptr/main.cpp:261-278 | `<=` is `<` or `==` |
| SelfRelative.Greater | examples/offset_ptr/main.cpp:263-281 | `>` is `<` with the operands exchanged |
| SelfRelative.GreaterEq | examples/offset_ptr/main.cpp:264-283 | `>=` is `<=` with the operands exchanged |
| SelfRelative.OrderTotal | examples/offset_ptr/main.cpp:260-264 | exactly one of `<`, `==`, `>` holds between any two operands |
| SelfRelative.OrderTransitive | examples/offset_ptr/main.cpp:261-262 | `<` and `<=` are transitive |
| SelfRelative.EqualIffRelocated | examples/offset_ptr/main.cpp:36-39 | two non-null pointers compare equal exactly when one's offset is the other's shifted by the distance between their slots, so equal pointers in different slots hold different offsets |
| SelfRelative.CopyComparesEqual | examples/offset_ptr/main.cpp:36-39 | a copy that stores its source's target re-encoded against its own slot compares equal to the source, and its raw offset differs when the slots differ |
| OffsetPtrTests.BehavesAsNull | examples/offset_ptr/main.cpp:10-18 | the four checks of `test_null_ptr` (`(bool)f == false`, `!f`, `f.get() == nullptr`, `f == nullptr`) hold together exactly when `f` resolves to null |
| OffsetPtrTests.TestPtrOperatorsNull | examples/offset_ptr/main.cpp:23-42 | default construction, construction from `nullptr`, copy, copy assignment and swap all give pointers that behave as null (the `OID_NULL` case is played as `nullptr`) |
| OffsetPtrTests.TestOffset | examples/offset_ptr/main.cpp:83-119 | initialisation, assignment and `static_cast` from a `C` pointer all give a `B` pointer exactly `sizeof(A) > 0` bytes further on |
| OffsetPtrTests.TestBasePtrCasting | examples/offset_ptr/main.cpp:121-143 | type-erased pointers hold the addresses of `f`, of `test_int` (which reads back `TEST_INT`) and null; typed pointers rebuilt from them refer to the same addresses |
| OffsetPtrTests.TestBasePtrAssignment | examples/offset_ptr/main.cpp:145-157 | assigning a null base pointer over a non-null one makes both null |
| OffsetPtrTests.GetTestArray | examples/offset_ptr/main.cpp:172-184 | the returned pointer refers to the array, and element `i` of the array holds `i` |
| OffsetPtrTests.IncrementDecrementWalks | examples/offset_ptr/main.cpp:195-214 | each of the four walks with `p++`, `p--`, `++p` and `--p` reads the values `0..9` (or `9..0`) the test expects and ends back at element 0 |
| OffsetPtrTests.CompoundAndStrangeSteps | examples/offset_ptr/main.cpp:216-228 | `+= 2`, `-= 2`, `operator++(5)` and `operator--(2)` land on elements 2, 0, 1 and 0, which hold the values the test expects |
| OffsetPtrTests.AdditionAndSubtraction | examples/offset_ptr/main.cpp:230-241 | `*(p + i) == i`, `*(parr_end - i) == TEST_ARR_SIZE - i`, and `parr_end - p == TEST_ARR_SIZE` |
| OffsetPtrTests.TestArith | examples/offset_ptr/main.cpp:189-247 | every assertion of `test_arith` holds, ending with `parr_end - parr_vsize == TEST_ARR_SIZE` |
| OffsetPtrTests.TestRelational | examples/offset_ptr/main.cpp:252-305 | every relational assertion of the test holds: for the first and last element, against `nullptr`, and for the null array pointer |

## Left out

- The `#if` branch that aliases `std::string_view` when the standard library provides one (string_view.hpp:18-35). The model is the fallback class only.
- The constructor from `std::basic_string` (string_view.hpp:150-155). It needs a model of `std::string`, which is not part of this model. It is just the two-field constructor applied to `c_str()` and `size()`.
- `data()`, `size()`, `length()` and `begin/cbegin/end/cend` (string_view.hpp:176-221, 258-263, 296-313): these are the fields `data` and `size` and the position `data.Plus(size)`.
- The reverse iterators (string_view.hpp:223-249) and `max_size()` (string_view.hpp:283-288). They hold no logic beyond an iterator adaptor and the constant `npos`.
- Copy assignment (string_view.hpp:72-73) is implicit, because `View` is a value. The copy constructor (string_view.hpp:70-71) is `ViewObject`'s constructor.
- StringView.TraitsCompare: `Traits::compare` may return any negative or positive `int`. The model returns only the sign. This is why `Compare` is proved to return -1, 0 or 1, and why CompareAntisymmetric holds in the model. For the real traits, only the signs are antisymmetric.
- Character types other than 8-bit characters (`wchar_t`, `char16_t`, `char32_t`), and user-defined traits.
- StringView.ViewObject.RemovePrefix, StringView.ViewObject.RemoveSuffix: `n > size()` is undefined behaviour in the library (the size would wrap around). The model requires `n <= size()` instead of modelling the wrap-around.
- StringView.View.Copy: it does not model `dest` overlapping the viewed characters. The model's `dest` is a separate array.
- The atomic self-relative pointer tests (main.cpp:307-601). They are concurrent and have no sequential contract to state.
- `operator<<` on pointers (main.cpp:244-246). It produces text output.
- OffsetPtrTests.TestPtrOperatorsNull: `PMEMoid` is not modelled. The construction from `OID_NULL` (main.cpp:33) is played as the construction from `nullptr`.
- OffsetPtrTests.TestBasePtrCasting: the source stores into `r->arr` (main.cpp:127-129), and `r` is never declared. The model takes the three type-erased pointers as an array parameter.
- OffsetPtrTests.TestArith: the source calls `get_test_array` with an argument `pop` (main.cpp:193) that the function does not take. The model calls it without one.
- OffsetPtrTests.GetTestArray: the source fills `parray[i]`, a name it never declares. The model reads this as the pointer it has just built, `parr_vsize`.
- OffsetPtrTests.TestRelational: the comparison of an `int` pointer with a `double` pointer (main.cpp:301-304) only checks that the code compiles. It asserts nothing.
- Addresses, offsets and `n * sizeof(T)` are unbounded integers, not the 64-bit `ptrdiff_t`/`uintptr_t` of the library. Overflow in pointer arithmetic is not modelled.
- `sizeof(int)` is fixed at 4, the value on the LP64 platforms the library targets. The layout of `C : A, B` is a parameter instead: the `B` subobject sits `sizeof(A)` bytes in.
- The persistent-memory pool, transactions and `persistent_ptr` are not part of this model.
