/**
 * The self-relative pointer `pmem::obj::experimental::self_relative_ptr<T>`
 * and its type-erased base `self_relative_ptr_base`, as their contract is
 * pinned down by the tests in `examples/offset_ptr/main.cpp`.
 *
 * A pointer lives at an address of its own, `slot`, and stores only a
 * signed byte offset `off` from that address to its target. Offset 0 is
 * reserved for null (a pointer never refers to its own storage). Every
 * copy or assignment resolves the source to an absolute address first and
 * re-encodes it against the destination's slot; the raw offset is never
 * copied. Addresses are integers and address 0 is the null pointer.
 */
module SelfRelative {

  /** The null pointer's address. */
  const NULL: int := 0

  /** The address a pointer stored at `slot` with offset `off` refers to. */
  function Resolve(slot: int, off: int): int {
    if off == 0 then NULL else slot + off
  }

  /** The offset a pointer stored at `slot` must hold to refer to `target`. */
  function Encode(slot: int, target: int): int {
    if target == NULL then 0 else target - slot
  }

  /** A pointer stored at `slot` can refer to `target`: null, or a real address other than the slot itself. */
  predicate Storable(slot: int, target: int) {
    target == NULL || (target > 0 && target != slot)
  }

  /**
   * `static_cast` of a raw pointer to a derived object into a pointer to its
   * base subobject `disp` bytes in: null stays null.
   */
  function Upcast(target: int, disp: int): (r: int)
    ensures target == NULL ==> r == NULL
    ensures target != NULL ==> r - target == disp
  {
    if target == NULL then NULL else target + disp
  }

  /** Encoding a storable target and resolving it again gives the target back; only null encodes as 0. */
  lemma EncodeResolves(slot: int, target: int)
    requires Storable(slot, target)
    ensures Resolve(slot, Encode(slot, target)) == target
    ensures Encode(slot, target) == 0 <==> target == NULL
  {
  }

  /**
   * Relocation: a pointer moved from slot `from` to slot `to` keeps its
   * target, while its raw offset changes by the distance between the slots
   * (so copying the raw offset would be wrong whenever the slots differ).
   */
  lemma Relocation(from: int, off: int, to: int)
    requires Storable(to, Resolve(from, off))
    ensures Resolve(to, Encode(to, Resolve(from, off))) == Resolve(from, off)
    ensures Resolve(from, off) != NULL ==> Encode(to, Resolve(from, off)) == off + (from - to)
  {
  }

  class SelfRelativePtr {
    /** The address of the pointer's own storage. */
    const slot: int
    /**
     * `sizeof(T)` of the element type, the step of pointer arithmetic; 0 for
     * the type-erased `self_relative_ptr_base`, which has no arithmetic.
     */
    const elemSize: nat
    /** The stored byte offset from `slot` to the target; 0 for null. */
    var off: int

    /** The slot is a real address and the pointer refers to null or to a real address. */
    ghost predicate Valid()
      reads this
    {
      slot > 0 && (off != 0 ==> slot + off > 0)
    }

    /** `is_null()`; `!p` and the `bool` conversion are its negation and it. */
    predicate IsNull(): (r: bool)
      reads this
      ensures Valid() ==> (r <==> Resolve(slot, off) == NULL)
    {
      off == 0
    }

    /** `get()` and `to_void_pointer()`: the resolved address. */
    function Get(): (a: int)
      reads this
      requires Valid()
      ensures a == NULL <==> IsNull()
      ensures a == NULL || (a > 0 && a != slot)
    {
      Resolve(slot, off)
    }

    /** The default constructor and the constructor from `nullptr`. */
    constructor Null(slot: int, elemSize: nat)
      requires slot > 0
      ensures Valid() && this.slot == slot && this.elemSize == elemSize
      ensures IsNull()
    {
      this.slot := slot;
      this.elemSize := elemSize;
      off := 0;
    }

    /** The constructor from a raw pointer `T *`, which may be null. */
    constructor FromAddress(slot: int, elemSize: nat, target: int)
      requires slot > 0 && Storable(slot, target)
      ensures Valid() && this.slot == slot && this.elemSize == elemSize
      ensures Get() == target
    {
      this.slot := slot;
      this.elemSize := elemSize;
      off := Encode(slot, target);
    }

    /** The copy constructor: the new pointer at `slot` refers to what `src` refers to. */
    constructor CopyOf(slot: int, src: SelfRelativePtr)
      requires slot > 0 && src.Valid() && Storable(slot, src.Get())
      ensures Valid() && this.slot == slot && elemSize == src.elemSize
      ensures Get() == src.Get()
    {
      this.slot := slot;
      elemSize := src.elemSize;
      off := Encode(slot, src.Get());
    }

    /**
     * The converting constructor from a pointer to a derived class, whose
     * base subobject sits `disp` bytes into the derived object.
     */
    constructor Converted(slot: int, elemSize: nat, src: SelfRelativePtr, disp: int)
      requires slot > 0 && src.Valid() && Storable(slot, Upcast(src.Get(), disp))
      ensures Valid() && this.slot == slot && this.elemSize == elemSize
      ensures Get() == Upcast(src.Get(), disp)
    {
      this.slot := slot;
      this.elemSize := elemSize;
      off := Encode(slot, Upcast(src.Get(), disp));
    }

    /** Assignment from a raw pointer or from `nullptr`. */
    method AssignAddress(target: int)
      requires Valid() && Storable(slot, target)
      modifies this
      ensures Valid() && Get() == target
    {
      off := Encode(slot, target);
    }

    /** Copy assignment: re-encodes `src`'s target against this pointer's own slot. */
    method Assign(src: SelfRelativePtr)
      requires Valid() && src.Valid() && Storable(slot, src.Get())
      modifies this
      ensures Valid() && Get() == old(src.Get())
      ensures src != this ==> src.off == old(src.off)
    {
      off := Encode(slot, src.Get());
    }

    /** Converting assignment from a pointer to a derived class (base subobject at `disp`). */
    method AssignConverted(src: SelfRelativePtr, disp: int)
      requires Valid() && src.Valid() && Storable(slot, Upcast(src.Get(), disp))
      modifies this
      ensures Valid() && Get() == old(Upcast(src.Get(), disp))
      ensures src != this ==> src.off == old(src.off)
    {
      off := Encode(slot, Upcast(src.Get(), disp));
    }

    /** `swap`: the two pointers exchange targets; each stays in its own slot. */
    method Swap(other: SelfRelativePtr)
      requires Valid() && other.Valid()
      requires Storable(slot, other.Get()) && Storable(other.slot, Get())
      modifies this, other
      ensures Valid() && other.Valid()
      ensures Get() == old(other.Get()) && other.Get() == old(Get())
    {
      var mine, theirs := Get(), other.Get();
      off := Encode(slot, theirs);
      other.off := Encode(other.slot, mine);
    }

    /**
     * Moving by `n` elements and storing the result at `at` is defined: the
     * pointer is typed, only a zero move is applied to null, and the new
     * address is a real one other than `at`.
     */
    ghost predicate CanMove(at: int, n: int)
      reads this
      requires Valid()
    {
      && elemSize > 0
      && (if IsNull() then n == 0 else Get() + n * elemSize > 0 && Get() + n * elemSize != at)
    }

    /** `p += n`: moves by `n * sizeof(T)` bytes. */
    method AddAssign(n: int)
      requires Valid() && CanMove(slot, n)
      modifies this
      ensures Valid() && Get() == old(Get()) + n * elemSize
    {
      off := off + n * elemSize;
    }

    /** `p -= n` */
    method SubAssign(n: int)
      requires Valid() && CanMove(slot, -n)
      modifies this
      ensures Valid() && Get() == old(Get()) - n * elemSize
    {
      off := off - n * elemSize;
    }

    /** `++p` */
    method PreIncrement()
      requires Valid() && CanMove(slot, 1)
      modifies this
      ensures Valid() && Get() == old(Get()) + elemSize
    {
      off := off + elemSize;
    }

    /** `--p` */
    method PreDecrement()
      requires Valid() && CanMove(slot, -1)
      modifies this
      ensures Valid() && Get() == old(Get()) - elemSize
    {
      off := off - elemSize;
    }

    /** `p++`, also when called as `p.operator++(k)`: `k` is ignored. Returns the old target. */
    method PostIncrement(ignored: int) returns (before: int)
      requires Valid() && CanMove(slot, 1)
      modifies this
      ensures Valid() && before == old(Get()) && Get() == old(Get()) + elemSize
    {
      before := Get();
      off := off + elemSize;
    }

    /** `p--`, also when called as `p.operator--(k)`: `k` is ignored. Returns the old target. */
    method PostDecrement(ignored: int) returns (before: int)
      requires Valid() && CanMove(slot, -1)
      modifies this
      ensures Valid() && before == old(Get()) && Get() == old(Get()) - elemSize
    {
      before := Get();
      off := off - elemSize;
    }

    /** `p + n`: a new pointer, stored at `at`, to the element `n` after `p`'s target. */
    method Plus(n: int, at: int) returns (q: SelfRelativePtr)
      requires Valid() && at > 0 && CanMove(at, n)
      ensures fresh(q) && q.Valid() && q.slot == at && q.elemSize == elemSize
      ensures q.Get() == Get() + n * elemSize
    {
      q := new SelfRelativePtr.FromAddress(at, elemSize, Get() + n * elemSize);
    }

    /** `p - n`: a new pointer, stored at `at`, to the element `n` before `p`'s target. */
    method Minus(n: int, at: int) returns (q: SelfRelativePtr)
      requires Valid() && at > 0 && CanMove(at, -n)
      ensures fresh(q) && q.Valid() && q.slot == at && q.elemSize == elemSize
      ensures q.Get() == Get() - n * elemSize
    {
      q := new SelfRelativePtr.FromAddress(at, elemSize, Get() - n * elemSize);
    }

    /**
     * `p - q` for pointers of one element type: the number of elements
     * between them (defined only when the byte distance is a whole number
     * of elements).
     */
    function Difference(rhs: SelfRelativePtr): (d: int)
      reads this, rhs
      requires Valid() && rhs.Valid() && elemSize > 0 && rhs.elemSize == elemSize
      requires (Get() - rhs.Get()) % elemSize == 0
      ensures rhs.Get() + d * elemSize == Get()
    {
      (Get() - rhs.Get()) / elemSize
    }
  }

  /** `self_relative_ptr_base::distance_between(first, second)`: bytes from `first`'s target to `second`'s. */
  function DistanceBetween(first: SelfRelativePtr, second: SelfRelativePtr): (d: int)
    reads first, second
    requires first.Valid() && second.Valid()
    ensures first.Get() + d == second.Get()
  {
    second.Get() - first.Get()
  }

  /** Exchanging the operands of `distance_between` negates the distance. */
  lemma DistanceAntisymmetric(a: SelfRelativePtr, b: SelfRelativePtr)
    requires a.Valid() && b.Valid()
    ensures DistanceBetween(a, b) == -DistanceBetween(b, a)
  {
  }

  /**
   * The distance depends only on the targets: replacing either pointer by
   * one in another slot with the same target, such as a copy, keeps it.
   */
  lemma DistanceRelocationInvariant(a: SelfRelativePtr, b: SelfRelativePtr, a2: SelfRelativePtr, b2: SelfRelativePtr)
    requires a.Valid() && b.Valid() && a2.Valid() && b2.Valid()
    requires Equal(a, a2) && Equal(b, b2)
    ensures DistanceBetween(a2, b2) == DistanceBetween(a, b)
  {
  }

  /*
   * Equality and relational operators. They compare resolved addresses. An
   * operand that is a Dafny `null` stands for the `nullptr` literal of the
   * overloads `p OP nullptr` and `nullptr OP p`.
   */

  ghost predicate Operand(p: SelfRelativePtr?)
    reads p
  {
    p != null ==> p.Valid()
  }

  /** The operand is `nullptr` or a null pointer. */
  predicate IsNullOperand(p: SelfRelativePtr?)
    reads p
  {
    p == null || p.IsNull()
  }

  /** The address an operand denotes. */
  function Address(p: SelfRelativePtr?): int
    reads p
    requires Operand(p)
  {
    if p == null then NULL else p.Get()
  }

  /** `lhs == rhs` */
  function Equal(lhs: SelfRelativePtr?, rhs: SelfRelativePtr?): (r: bool)
    reads lhs, rhs
    requires Operand(lhs) && Operand(rhs)
    ensures IsNullOperand(lhs) && IsNullOperand(rhs) ==> r
    ensures r ==> (IsNullOperand(lhs) <==> IsNullOperand(rhs))
    ensures lhs == rhs ==> r
    ensures lhs != null && rhs != null && !lhs.IsNull() && lhs.off == rhs.off ==> (r <==> lhs.slot == rhs.slot)
    ensures lhs != null && rhs != null && !lhs.IsNull() && !rhs.IsNull() ==>
              (r <==> lhs.slot + lhs.off == rhs.slot + rhs.off)
  {
    Address(lhs) == Address(rhs)
  }

  /** `lhs != rhs` */
  function NotEqual(lhs: SelfRelativePtr?, rhs: SelfRelativePtr?): (r: bool)
    reads lhs, rhs
    requires Operand(lhs) && Operand(rhs)
    ensures r <==> !Equal(lhs, rhs)
  {
    Address(lhs) != Address(rhs)
  }

  /** `lhs < rhs` */
  function Less(lhs: SelfRelativePtr?, rhs: SelfRelativePtr?): (r: bool)
    reads lhs, rhs
    requires Operand(lhs) && Operand(rhs)
    ensures IsNullOperand(lhs) && !IsNullOperand(rhs) ==> r
    ensures IsNullOperand(rhs) ==> !r
    ensures r ==> !Equal(lhs, rhs)
    ensures lhs != null && rhs != null && !lhs.IsNull() && !rhs.IsNull() ==>
              (r <==> lhs.slot + lhs.off < rhs.slot + rhs.off)
  {
    Address(lhs) < Address(rhs)
  }

  /** `lhs <= rhs` */
  function LessEq(lhs: SelfRelativePtr?, rhs: SelfRelativePtr?): (r: bool)
    reads lhs, rhs
    requires Operand(lhs) && Operand(rhs)
    ensures r <==> Less(lhs, rhs) || Equal(lhs, rhs)
  {
    Address(lhs) <= Address(rhs)
  }

  /** `lhs > rhs` */
  function Greater(lhs: SelfRelativePtr?, rhs: SelfRelativePtr?): (r: bool)
    reads lhs, rhs
    requires Operand(lhs) && Operand(rhs)
    ensures r <==> Less(rhs, lhs)
  {
    Address(lhs) > Address(rhs)
  }

  /** `lhs >= rhs` */
  function GreaterEq(lhs: SelfRelativePtr?, rhs: SelfRelativePtr?): (r: bool)
    reads lhs, rhs
    requires Operand(lhs) && Operand(rhs)
    ensures r <==> LessEq(rhs, lhs)
  {
    Address(lhs) >= Address(rhs)
  }

  /** The relational operators order pointers totally: exactly one of `<`, `==`, `>` holds. */
  lemma OrderTotal(a: SelfRelativePtr?, b: SelfRelativePtr?)
    requires Operand(a) && Operand(b)
    ensures Less(a, b) || Equal(a, b) || Greater(a, b)
    ensures !(Less(a, b) && Equal(a, b)) && !(Less(a, b) && Greater(a, b)) && !(Equal(a, b) && Greater(a, b))
  {
  }

  lemma OrderTransitive(a: SelfRelativePtr?, b: SelfRelativePtr?, c: SelfRelativePtr?)
    requires Operand(a) && Operand(b) && Operand(c)
    ensures Less(a, b) && Less(b, c) ==> Less(a, c)
    ensures LessEq(a, b) && LessEq(b, c) ==> LessEq(a, c)
  {
  }

  /**
   * Two non-null pointers compare equal exactly when one is the other
   * relocated: its offset is the other's shifted by the distance between the
   * slots. So equal pointers in different slots hold different raw offsets.
   */
  lemma EqualIffRelocated(p: SelfRelativePtr, q: SelfRelativePtr)
    requires p.Valid() && q.Valid() && !p.IsNull() && !q.IsNull()
    ensures Equal(p, q) <==> q.off == p.off + (p.slot - q.slot)
    ensures Equal(p, q) && p.slot != q.slot ==> p.off != q.off
  {
  }

  /**
   * A copy holding its source's target re-encoded against its own slot, as
   * the copy constructor and copy assignment store it, compares equal to the
   * source, while its raw offset differs whenever the slots do.
   */
  lemma CopyComparesEqual(src: SelfRelativePtr, copy: SelfRelativePtr)
    requires src.Valid() && copy.Valid() && Storable(copy.slot, src.Get())
    requires copy.off == Encode(copy.slot, src.Get())
    ensures Equal(src, copy)
    ensures !src.IsNull() && copy.slot != src.slot ==> copy.off != src.off
  {
    EncodeResolves(copy.slot, src.Get());
  }
}
