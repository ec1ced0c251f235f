/**
 * The test functions of `examples/offset_ptr/main.cpp`, played on the
 * self-relative pointer model. Each `UT_ASSERT` of a test becomes either an
 * `assert` or a conjunct of the boolean the method returns, and every
 * method promises that all of them hold. The addresses of the objects and
 * of the pointers' own storage are parameters: a caller may place them
 * anywhere, as long as no pointer's storage coincides with its target.
 */
module OffsetPtrTests {
  import opened SelfRelative

  /** `TEST_INT`, `TEST_ARR_SIZE` */
  const TEST_INT := 10
  const TEST_ARR_SIZE := 10

  /** `sizeof(int)` on the LP64 platforms the library targets. */
  const SIZEOF_INT := 4

  /** The address of element `i` of an array at `base` with elements of `elemSize` bytes. */
  function ElementAddr(base: int, elemSize: nat, i: int): int {
    base + i * elemSize
  }

  /** A pointer stored at `slot` never coincides with an element of the array at `base`, nor with its end. */
  predicate OutsideArray(slot: int, base: int, elemSize: nat) {
    slot > 0 && (slot < base || slot > base + TEST_ARR_SIZE * elemSize)
  }

  lemma ScaleMonotone(a: int, b: int, e: nat)
    requires a < b && e > 0
    ensures a * e < b * e
  {
    assert b * e == a * e + (b - a) * e;
  }

  /** `test_null_ptr(f)`: `(bool)f == false`, `!f`, `f.get() == nullptr`, `f == nullptr`. */
  predicate BehavesAsNull(f: SelfRelativePtr): (r: bool)
    reads f
    requires f.Valid()
    ensures r <==> f.Get() == NULL
  {
    (!f.IsNull()) == false && f.IsNull() && f.Get() == NULL && Equal(f, null)
  }

  /** `test_ptr_operators_null`; the pointers live at `s1` .. `s5`. */
  method TestPtrOperatorsNull(s1: int, s2: int, s3: int, s4: int, s5: int) returns (passed: bool)
    requires s1 > 0 && s2 > 0 && s3 > 0 && s4 > 0 && s5 > 0
    ensures passed
  {
    var intDefaultNull := new SelfRelativePtr.Null(s1, SIZEOF_INT);
    passed := BehavesAsNull(intDefaultNull);

    var intExplicitPtrNull := new SelfRelativePtr.Null(s2, SIZEOF_INT);
    passed := passed && BehavesAsNull(intExplicitPtrNull);

    // `OID_NULL` is played as `nullptr`: PMEMoid is not modelled.
    var intExplicitOidNull := new SelfRelativePtr.Null(s5, SIZEOF_INT);
    passed := passed && BehavesAsNull(intExplicitOidNull);

    var intBase := new SelfRelativePtr.Null(s3, SIZEOF_INT);
    var intSame := new SelfRelativePtr.CopyOf(s4, intBase);
    intSame.Assign(intBase);
    passed := passed && BehavesAsNull(intSame);

    intBase.Swap(intSame);
    passed := passed && BehavesAsNull(intBase) && BehavesAsNull(intSame);
  }

  /**
   * `test_offset`: for `C : A, B`, whose `B` subobject sits right after the
   * `A` subobject, a `C` pointer converted into a `B` pointer by
   * initialisation, by assignment or by `static_cast` is `sizeof(A)` bytes
   * further on. `c` is at `cAddr`; the pointers live at the four slots.
   */
  method TestOffset(cAddr: int, sizeofA: nat, sizeofB: nat, sizeofC: nat,
                    cSlot: int, bSlot: int, b2Slot: int, b3Slot: int)
    returns (d1: int, d2: int, d3: int)
    requires cAddr > 0 && sizeofA > 0
    requires cSlot > 0 && cSlot != cAddr
    requires bSlot > 0 && b2Slot > 0 && b3Slot > 0
    requires bSlot != cAddr + sizeofA && b2Slot != cAddr + sizeofA && b3Slot != cAddr + sizeofA
    ensures d1 > 0 && d2 > 0 && d3 > 0
    ensures d1 == sizeofA && d2 == sizeofA && d3 == sizeofA
  {
    var cptr := new SelfRelativePtr.FromAddress(cSlot, sizeofC, cAddr);
    var bptr := new SelfRelativePtr.Converted(bSlot, sizeofB, cptr, sizeofA);
    d1 := DistanceBetween(cptr, bptr);

    var bptr2 := new SelfRelativePtr.Null(b2Slot, sizeofB);
    bptr2.AssignConverted(cptr, sizeofA);
    d2 := DistanceBetween(cptr, bptr2);

    var bptr3 := new SelfRelativePtr.Converted(b3Slot, sizeofB, cptr, sizeofA);
    d3 := DistanceBetween(cptr, bptr3);
  }

  /**
   * `test_base_ptr_casting`: typed pointers to `f` and to `test_int`, and
   * `nullptr`, stored into the type-erased pointers `r->arr[0..2]`, give
   * back the same addresses through `to_void_pointer()`.
   */
  method TestBasePtrCasting(arr: array<SelfRelativePtr>, fAddr: int, intAddr: int, sizeofFoo: nat,
                            tmpSlot: int, tmp0Slot: int, tmp1Slot: int, tmp2Slot: int)
    returns (passed: bool)
    requires arr.Length == 3 && arr[0] != arr[1] && arr[1] != arr[2] && arr[0] != arr[2]
    requires arr[0].Valid() && arr[1].Valid() && arr[2].Valid()
    requires arr[0].elemSize == 0 && arr[1].elemSize == 0 && arr[2].elemSize == 0
    requires fAddr > 0 && intAddr > 0 && arr[0].slot != fAddr && arr[1].slot != intAddr
    requires tmpSlot > 0 && tmpSlot != fAddr && tmpSlot != intAddr
    requires tmp0Slot > 0 && tmp0Slot != fAddr && tmp1Slot > 0 && tmp1Slot != intAddr && tmp2Slot > 0
    modifies arr[0], arr[1], arr[2]
    ensures passed
    ensures arr[0].Valid() && arr[1].Valid() && arr[2].Valid()
    ensures arr[0].Get() == fAddr && arr[1].Get() == intAddr && arr[2].Get() == NULL
  {
    var mem := map[intAddr := TEST_INT];

    var t0 := new SelfRelativePtr.FromAddress(tmpSlot, sizeofFoo, fAddr);
    arr[0].Assign(t0);
    var t1 := new SelfRelativePtr.FromAddress(tmpSlot, SIZEOF_INT, intAddr);
    arr[1].Assign(t1);
    arr[2].AssignAddress(NULL);

    passed := arr[0].Get() != NULL;
    passed := passed && arr[1].Get() in mem && mem[arr[1].Get()] == TEST_INT;
    passed := passed && arr[2].Get() == NULL;

    var tmp0 := new SelfRelativePtr.FromAddress(tmp0Slot, sizeofFoo, arr[0].Get());
    var tmp1 := new SelfRelativePtr.FromAddress(tmp1Slot, SIZEOF_INT, arr[1].Get());
    var tmp2 := new SelfRelativePtr.FromAddress(tmp2Slot, sizeofFoo, arr[2].Get());
    passed := passed && tmp0.Get() == fAddr && tmp1.Get() == intAddr && tmp2.IsNull();
  }

  /** `test_base_ptr_assignment`: assigning a null base pointer over a non-null one makes it null. */
  method TestBasePtrAssignment(tmpAddr: int, slot1: int, slot2: int) returns (passed: bool)
    requires tmpAddr > 0 && slot1 > 0 && slot2 > 0 && slot1 != tmpAddr
    ensures passed
  {
    var ptr1 := new SelfRelativePtr.FromAddress(slot1, 0, tmpAddr);
    var ptr2 := new SelfRelativePtr.Null(slot2, 0);
    ptr1.Assign(ptr2);
    passed := ptr1.Get() == NULL && ptr2.Get() == NULL;
  }

  /**
   * `get_test_array<T, pointer>()`: a pointer at `slot` to a static array
   * of `TEST_ARR_SIZE` elements at `arrAddr`, filled through the pointer with
   * `0, 1, ...`. The memory holding the array is returned as a map from
   * addresses to values.
   */
  method GetTestArray(slot: int, arrAddr: int, elemSize: nat) returns (p: SelfRelativePtr, mem: map<int, int>)
    requires arrAddr > 0 && elemSize > 0 && OutsideArray(slot, arrAddr, elemSize)
    ensures fresh(p) && p.Valid() && p.slot == slot && p.elemSize == elemSize && p.Get() == arrAddr
    ensures forall i :: 0 <= i < TEST_ARR_SIZE ==>
              ElementAddr(arrAddr, elemSize, i) in mem && mem[ElementAddr(arrAddr, elemSize, i)] == i
  {
    p := new SelfRelativePtr.FromAddress(slot, elemSize, arrAddr);
    mem := map[];
    for i := 0 to TEST_ARR_SIZE
      invariant forall k :: 0 <= k < i ==>
                  ElementAddr(arrAddr, elemSize, k) in mem && mem[ElementAddr(arrAddr, elemSize, k)] == k
    {
      forall k | 0 <= k < i
        ensures ElementAddr(arrAddr, elemSize, k) != ElementAddr(arrAddr, elemSize, i)
      {
        ScaleMonotone(k, i, elemSize);
      }
      mem := mem[p.Get() + i * elemSize := i];
    }
  }

  /** `mem` holds the test array at `arrAddr`: `int` element `i` is `i`. */
  ghost predicate HoldsTestArray(mem: map<int, int>, arrAddr: int) {
    forall i :: 0 <= i < TEST_ARR_SIZE ==>
      ElementAddr(arrAddr, SIZEOF_INT, i) in mem && mem[ElementAddr(arrAddr, SIZEOF_INT, i)] == i
  }

  /** `p` is the test's `int` array pointer, stored out of the array's way. */
  ghost predicate ArrayPointer(p: SelfRelativePtr, arrAddr: int)
    reads p
  {
    p.Valid() && p.elemSize == SIZEOF_INT && OutsideArray(p.slot, arrAddr, SIZEOF_INT)
  }

  /**
   * The four walks of `test_arith` with `p++`, `p--`, `++p` and `--p`: each
   * element read on the way holds the value the test expects, and the walks
   * end where they began, at element 0.
   */
  method IncrementDecrementWalks(p: SelfRelativePtr, arrAddr: int, mem: map<int, int>)
    requires arrAddr > 0 && ArrayPointer(p, arrAddr) && p.Get() == arrAddr && HoldsTestArray(mem, arrAddr)
    modifies p
    ensures p.Valid() && p.Get() == arrAddr
  {
    for i := 0 to TEST_ARR_SIZE
      invariant p.Valid() && p.Get() == ElementAddr(arrAddr, SIZEOF_INT, i)
    {
      assert mem[p.Get()] == i;
      var _ := p.PostIncrement(0);
    }

    var i := TEST_ARR_SIZE;
    while i > 0
      invariant 0 <= i <= TEST_ARR_SIZE
      invariant p.Valid() && p.Get() == ElementAddr(arrAddr, SIZEOF_INT, i)
    {
      var _ := p.PostDecrement(0);
      assert p.Get() == ElementAddr(arrAddr, SIZEOF_INT, i - 1);
      assert mem[p.Get()] == i - 1;
      i := i - 1;
    }

    for i := 0 to TEST_ARR_SIZE
      invariant p.Valid() && p.Get() == ElementAddr(arrAddr, SIZEOF_INT, i)
    {
      assert mem[p.Get()] == i;
      p.PreIncrement();
    }

    i := TEST_ARR_SIZE;
    while i > 0
      invariant 0 <= i <= TEST_ARR_SIZE
      invariant p.Valid() && p.Get() == ElementAddr(arrAddr, SIZEOF_INT, i)
    {
      p.PreDecrement();
      assert p.Get() == ElementAddr(arrAddr, SIZEOF_INT, i - 1);
      assert mem[p.Get()] == i - 1;
      i := i - 1;
    }
  }

  /**
   * `p += 2`, `p -= 2`, then the argument-ignoring `p.operator++(5)` and
   * `p.operator--(2)`: each lands on the element the test expects.
   */
  method CompoundAndStrangeSteps(p: SelfRelativePtr, arrAddr: int, mem: map<int, int>)
    requires arrAddr > 0 && ArrayPointer(p, arrAddr) && p.Get() == arrAddr && HoldsTestArray(mem, arrAddr)
    modifies p
    ensures p.Valid() && p.Get() == arrAddr
  {
    p.AddAssign(2);
    assert p.Get() == ElementAddr(arrAddr, SIZEOF_INT, 2);
    assert mem[p.Get()] == 2;
    p.SubAssign(2);
    assert p.Get() == ElementAddr(arrAddr, SIZEOF_INT, 0);
    assert mem[p.Get()] == 0;

    var before := p.PostIncrement(5);
    assert p.Get() == ElementAddr(arrAddr, SIZEOF_INT, 1);
    assert mem[p.Get()] == 1;
    before := p.PostDecrement(2);
    assert p.Get() == ElementAddr(arrAddr, SIZEOF_INT, 0);
    assert mem[p.Get()] == 0;
  }

  /**
   * `*(p + i) == i`, then `parr_end = p + TEST_ARR_SIZE`,
   * `*(parr_end - i) == TEST_ARR_SIZE - i`, and `parr_end - p`. The
   * temporaries live at `tmpSlot`, `parr_end` at `endSlot`; `p` is unchanged.
   */
  method AdditionAndSubtraction(p: SelfRelativePtr, arrAddr: int, mem: map<int, int>, tmpSlot: int, endSlot: int)
    returns (distance: int)
    requires arrAddr > 0 && ArrayPointer(p, arrAddr) && p.Get() == arrAddr && HoldsTestArray(mem, arrAddr)
    requires OutsideArray(tmpSlot, arrAddr, SIZEOF_INT) && OutsideArray(endSlot, arrAddr, SIZEOF_INT)
    ensures distance == TEST_ARR_SIZE
  {
    for i := 0 to TEST_ARR_SIZE
      invariant p.Valid() && p.Get() == arrAddr
    {
      var q := p.Plus(i, tmpSlot);
      assert q.Get() == ElementAddr(arrAddr, SIZEOF_INT, i);
      assert mem[q.Get()] == i;
    }

    var parrEnd := p.Plus(TEST_ARR_SIZE, endSlot);
    var i := TEST_ARR_SIZE;
    while i > 0
      invariant 0 <= i <= TEST_ARR_SIZE
      invariant p.Valid() && p.Get() == arrAddr
      invariant parrEnd.Valid() && parrEnd.Get() == ElementAddr(arrAddr, SIZEOF_INT, TEST_ARR_SIZE)
    {
      var q := parrEnd.Minus(i, tmpSlot);
      assert q.Get() == ElementAddr(arrAddr, SIZEOF_INT, TEST_ARR_SIZE - i);
      assert mem[q.Get()] == TEST_ARR_SIZE - i;
      i := i - 1;
    }

    distance := parrEnd.Difference(p);
  }

  /**
   * `test_arith`: walking an `int` array with `++`, `--`, `+=`, `-=`, the
   * argument-ignoring `operator++(5)` and `operator--(2)`, `p + i`,
   * `end - i` and `end - p`. `slot`, `tmpSlot` and `endSlot` hold the
   * array pointer, the temporaries and `parr_end`.
   */
  method TestArith(arrAddr: int, slot: int, tmpSlot: int, endSlot: int) returns (distance: int)
    requires arrAddr > 0
    requires OutsideArray(slot, arrAddr, SIZEOF_INT) && OutsideArray(tmpSlot, arrAddr, SIZEOF_INT)
    requires OutsideArray(endSlot, arrAddr, SIZEOF_INT)
    ensures distance == TEST_ARR_SIZE
  {
    var p, mem := GetTestArray(slot, arrAddr, SIZEOF_INT);
    IncrementDecrementWalks(p, arrAddr, mem);
    CompoundAndStrangeSteps(p, arrAddr, mem);
    distance := AdditionAndSubtraction(p, arrAddr, mem, tmpSlot, endSlot);
  }

  /**
   * `test_relational`: the order of the first and the last element pointer
   * of an `int` array, and of both against `nullptr`, for a non-null pointer
   * and for the null `pointer<int[10][12]> parray`.
   */
  method TestRelational(arrAddr: int, firstSlot: int, tmpSlot: int, lastSlot: int, parraySlot: int)
    returns (passed: bool)
    requires arrAddr > 0 && parraySlot > 0
    requires OutsideArray(firstSlot, arrAddr, SIZEOF_INT) && OutsideArray(tmpSlot, arrAddr, SIZEOF_INT)
    requires OutsideArray(lastSlot, arrAddr, SIZEOF_INT)
    ensures passed
  {
    var firstElem, _ := GetTestArray(firstSlot, arrAddr, SIZEOF_INT);
    var parray := new SelfRelativePtr.Null(parraySlot, 10 * 12 * SIZEOF_INT);
    var endTmp := firstElem.Plus(TEST_ARR_SIZE, tmpSlot);
    var lastElem := endTmp.Minus(1, lastSlot);

    passed := NotEqual(firstElem, lastElem) && LessEq(firstElem, lastElem) && Less(firstElem, lastElem);
    passed := passed && Greater(lastElem, firstElem) && GreaterEq(lastElem, firstElem);
    passed := passed && Equal(firstElem, firstElem) && GreaterEq(firstElem, firstElem) && LessEq(firstElem, firstElem);

    passed := passed && NotEqual(firstElem, null) && NotEqual(null, firstElem);
    passed := passed && !Equal(firstElem, null) && !Equal(null, firstElem);
    passed := passed && Less(null, firstElem) && !Less(firstElem, null);
    passed := passed && LessEq(null, firstElem) && !LessEq(firstElem, null);
    passed := passed && Greater(firstElem, null) && !Greater(null, firstElem);
    passed := passed && GreaterEq(firstElem, null) && !GreaterEq(null, firstElem);

    passed := passed && Equal(parray, null) && Equal(null, parray);
    passed := passed && !NotEqual(parray, null) && !NotEqual(null, parray);
    passed := passed && !Less(null, parray) && !Less(parray, null);
    passed := passed && LessEq(null, parray) && LessEq(parray, null);
    passed := passed && !Greater(parray, null) && !Greater(null, parray);
    passed := passed && GreaterEq(parray, null) && GreaterEq(null, parray);
  }
}
