/**
 * The fallback `pmem::obj::basic_string_view<CharT, Traits>`: a partial
 * implementation of C++17 `std::basic_string_view` (section 24.4
 * [string.view] of ISO/IEC 14882:2017), instantiated for `char` with
 * `std::char_traits<char>`.
 *
 * A view is a `(data_, size_)` pair: a pointer into some character buffer
 * and a length. The view itself is a value (`View`); its const members are
 * functions on it. The three members that change a view in place
 * (`remove_prefix`, `remove_suffix`, `swap`) are methods of `ViewObject`,
 * an object holding the two fields.
 */
module StringView {

  /** A character as `std::char_traits<char>` compares it: an unsigned byte. */
  type Char = c: nat | c < 256

  /** `std::size_t`, used for sizes, positions and counts. */
  type SizeT = n: nat | n < 0x1_0000_0000_0000_0000

  /** `npos`: the largest `size_type`, the default `count` of `substr`. */
  const NPOS: SizeT := 0xFFFF_FFFF_FFFF_FFFF

  /** A character buffer in memory; its positions are `size_t` values. */
  type Buffer = s: seq<Char> | |s| < 0x1_0000_0000_0000_0000

  /** The result of an operation that may throw `std::out_of_range(what)`. */
  datatype Result<T> = Ok(value: T) | Err(what: string)

  function Min(a: SizeT, b: SizeT): (m: SizeT)
    ensures m <= a && m <= b && (m == a || m == b)
  {
    if a <= b then a else b
  }

  /**
   * A `const CharT *`: the null pointer, or a position in a buffer
   * (the position one past its end included).
   */
  datatype CharPtr = Null | Ptr(buf: Buffer, index: SizeT) {

    /** Pointer arithmetic `p + n`; only `nullptr + 0` is defined on null. */
    function Plus(n: SizeT): (r: CharPtr)
      requires Null? ==> n == 0
      requires Ptr? ==> index + n <= |buf|
      ensures r.Null? <==> Null?
      ensures r.Ptr? ==> r.buf == buf && r.index == index + n
    {
      if Null? then Null else Ptr(buf, index + n)
    }
  }

  /*
   * The reference order: lexicographic comparison of character sequences,
   * stated independently of how `compare` computes it.
   */

  /**
   * Position `k` decides that `s` is below `t`: the two agree before `k`,
   * and there either `s` has ended while `t` goes on, or `s` has the
   * smaller character.
   */
  ghost predicate LessAt(s: seq<Char>, t: seq<Char>, k: nat) {
    && k <= |s| && k <= |t|
    && s[..k] == t[..k]
    && (if k == |s| then k < |t| else k < |t| && s[k] < t[k])
  }

  /** `s` is lexicographically less than `t`. */
  ghost predicate LexLess(s: seq<Char>, t: seq<Char>) {
    exists k: nat :: LessAt(s, t, k)
  }

  /** `r` is a three-way comparison result of `s` against `t`. */
  ghost predicate Orders(r: int, s: seq<Char>, t: seq<Char>) {
    && (r == 0 <==> s == t)
    && (r < 0 <==> LexLess(s, t))
    && (r > 0 <==> LexLess(t, s))
  }

  /**
   * `Traits::compare(s, t, n)` of `std::char_traits<char>`: compares the
   * first `n` characters of `s` and `t`; only the sign of the result is
   * modelled.
   */
  function TraitsCompare(s: seq<Char>, t: seq<Char>, n: nat): (r: int)
    requires n <= |s| && n <= |t|
    ensures r == -1 || r == 0 || r == 1
    ensures r == 0 <==> s[..n] == t[..n]
    decreases n
  {
    if n == 0 then 0
    else if s[0] < t[0] then -1
    else if s[0] > t[0] then 1
    else
      assert s[..n] == [s[0]] + s[1..][..n - 1];
      assert t[..n] == [t[0]] + t[1..][..n - 1];
      TraitsCompare(s[1..], t[1..], n - 1)
  }

  /**
   * `Traits::length(p)` of `std::char_traits<char>`: the number of
   * characters before the first null character at or after `buf[i]`.
   */
  function TraitsLength(buf: Buffer, i: nat): (n: SizeT)
    requires exists j :: i <= j < |buf| && buf[j] == 0
    ensures i + n < |buf| && buf[i + n] == 0
    ensures forall k :: i <= k < i + n ==> buf[k] != 0
    decreases |buf| - i
  {
    if buf[i] == 0 then 0
    else
      assert exists j :: i + 1 <= j < |buf| && buf[j] == 0;
      1 + TraitsLength(buf, i + 1)
  }

  /** `p` points at a null-terminated character string. */
  ghost predicate IsCString(p: CharPtr) {
    p.Ptr? && exists j :: p.index <= j < |p.buf| && p.buf[j] == 0
  }

  /** A `basic_string_view` value: the two fields `data_` and `size_`. */
  datatype View = View(data: CharPtr, size: SizeT) {

    /** `[data_, data_ + size_)` is a readable range (a null `data_` only with size 0). */
    ghost predicate Valid() {
      && (data.Null? ==> size == 0)
      && (data.Ptr? ==> data.index + size <= |data.buf|)
    }

    /** The characters the view refers to. */
    function Chars(): (s: seq<Char>)
      requires Valid()
      ensures |s| == size
    {
      if data.Null? then [] else data.buf[data.index..data.index + size]
    }

    /** `empty()` */
    function Empty(): (r: bool)
      requires Valid()
      ensures r <==> Chars() == []
    {
      size == 0
    }

    /** `operator[](pos)`: no bounds check; `pos < size()` is the caller's duty. */
    function Index(pos: SizeT): (c: Char)
      requires Valid() && pos < size
      ensures c == Chars()[pos]
    {
      data.buf[data.index + pos]
    }

    /** `at(pos)`: bounds-checked access. */
    function At(pos: SizeT): (r: Result<Char>)
      requires Valid()
      ensures r.Err? <==> pos >= size
      ensures r.Err? ==> r.what == "Accessing a position out of bounds!"
      ensures r.Ok? ==> r.value == Chars()[pos]
    {
      if pos >= size then Err("Accessing a position out of bounds!")
      else Ok(Index(pos))
    }

    /** `front()`: undefined on an empty view. */
    function Front(): (c: Char)
      requires Valid() && size > 0
      ensures c == Chars()[0]
    {
      Index(0)
    }

    /** `back()`: undefined on an empty view. */
    function Back(): (c: Char)
      requires Valid() && size > 0
      ensures c == Chars()[|Chars()| - 1]
    {
      Index(size - 1)
    }

    /** `substr(pos, count)`: the view of `[pos, pos + min(count, size() - pos))`. */
    function Substr(pos: SizeT, count: SizeT): (r: Result<View>)
      requires Valid()
      ensures r.Err? <==> pos > size
      ensures r.Err? ==> r.what == "string_view::substr"
      ensures r.Ok? ==> r.value.Valid() && r.value.size == Min(count, size - pos)
      ensures r.Ok? ==> r.value.Chars() == Chars()[pos..pos + r.value.size]
    {
      if pos > size then Err("string_view::substr")
      else
        SubChars(this, pos, Min(count, size - pos));
        Ok(View(data.Plus(pos), Min(count, size - pos)))
    }

    /**
     * `copy(dest, count, pos)`: copies `[pos, pos + rlen)` to `dest`, where
     * `rlen = min(count, size() - pos)`, and returns `rlen`. That `dest` has
     * room for `rlen` characters is the caller's duty.
     */
    method Copy(dest: array<Char>, count: SizeT, pos: SizeT) returns (r: Result<SizeT>)
      requires Valid()
      requires pos <= size ==> Min(count, size - pos) <= dest.Length
      modifies dest
      ensures r.Err? <==> pos > size
      ensures r.Err? ==> r.what == "string_view::copy" && dest[..] == old(dest[..])
      ensures r.Ok? ==> r.value == Min(count, size - pos)
      ensures r.Ok? ==> dest[..r.value] == Chars()[pos..pos + r.value]
      ensures r.Ok? ==> dest[r.value..] == old(dest[r.value..])
    {
      if pos > size {
        return Err("string_view::copy");
      }
      var rlen := Min(count, size - pos);
      var src := Chars();
      forall i | 0 <= i < rlen {
        dest[i] := src[pos + i];
      }
      r := Ok(rlen);
    }

    /**
     * `compare(other)`: `Traits::compare` on the common length decides;
     * if it finds no difference, the shorter view is the smaller.
     */
    function Compare(other: View): (r: int)
      requires Valid() && other.Valid()
      ensures r == -1 || r == 0 || r == 1
      ensures r == 0 <==> Chars() == other.Chars()
      ensures r < 0 <==> LexLess(Chars(), other.Chars())
      ensures r > 0 <==> LexLess(other.Chars(), Chars())
    {
      var n := Min(size, other.size);
      TraitsCompareDecides(Chars(), other.Chars());
      var ret := TraitsCompare(Chars(), other.Chars(), n);
      if ret != 0 then ret
      else
        CommonPrefixDecides(Chars(), other.Chars());
        if size < other.size then -1
        else if size > other.size then 1
        else 0
    }

    /** `compare(pos1, n1, sv)`: `substr(pos1, n1)` compared with `sv`. */
    function CompareAt(pos1: SizeT, n1: SizeT, sv: View): (r: Result<int>)
      requires Valid() && sv.Valid()
      ensures r.Err? <==> pos1 > size
      ensures r.Err? ==> r.what == "string_view::substr"
      ensures r.Ok? ==> Orders(r.value, Chars()[pos1..pos1 + Min(n1, size - pos1)], sv.Chars())
    {
      var sub := Substr(pos1, n1);
      if sub.Err? then Err(sub.what)
      else
        var r := sub.value.Compare(sv);
        assert sub.value.Chars() == Chars()[pos1..pos1 + Min(n1, size - pos1)];
        Ok(r)
    }

    /** `compare(pos1, n1, sv, pos2, n2)`: `substr(pos1, n1)` compared with `sv.substr(pos2, n2)`. */
    function CompareSubstrings(pos1: SizeT, n1: SizeT, sv: View, pos2: SizeT, n2: SizeT): (r: Result<int>)
      requires Valid() && sv.Valid()
      ensures r.Err? <==> pos1 > size || pos2 > sv.size
      ensures r.Err? ==> r.what == "string_view::substr"
      ensures r.Ok? ==> Orders(r.value, Chars()[pos1..pos1 + Min(n1, size - pos1)],
                                        sv.Chars()[pos2..pos2 + Min(n2, sv.size - pos2)])
    {
      var lhs := Substr(pos1, n1);
      var rhs := sv.Substr(pos2, n2);
      if lhs.Err? then Err(lhs.what)
      else if rhs.Err? then Err(rhs.what)
      else
        var r := lhs.value.Compare(rhs.value);
        assert lhs.value.Chars() == Chars()[pos1..pos1 + Min(n1, size - pos1)];
        assert rhs.value.Chars() == sv.Chars()[pos2..pos2 + Min(n2, sv.size - pos2)];
        Ok(r)
    }

    /** `compare(s)` for a null-terminated `s`; never throws. */
    function CompareCString(s: CharPtr): (r: int)
      requires Valid() && IsCString(s)
      ensures Orders(r, Chars(), s.buf[s.index..s.index + CStringView(s).size])
    {
      var v := CStringView(s);
      assert v.Chars() == s.buf[s.index..s.index + v.size];
      Compare(v)
    }

    /** `compare(pos1, n1, s)` for a null-terminated `s`. */
    function CompareAtCString(pos1: SizeT, n1: SizeT, s: CharPtr): (r: Result<int>)
      requires Valid() && IsCString(s)
      ensures r.Err? <==> pos1 > size
      ensures r.Err? ==> r.what == "string_view::substr"
      ensures r.Ok? ==> Orders(r.value, Chars()[pos1..pos1 + Min(n1, size - pos1)],
                                        s.buf[s.index..s.index + CStringView(s).size])
    {
      var v := CStringView(s);
      assert v.Chars() == s.buf[s.index..s.index + v.size];
      var r := CompareAt(pos1, n1, v);
      assert r.Ok? ==> Orders(r.value, Chars()[pos1..pos1 + Min(n1, size - pos1)], v.Chars());
      r
    }

    /** `compare(pos1, n1, s, n2)`: against the `n2` characters at `s`. */
    function CompareAtBuffer(pos1: SizeT, n1: SizeT, s: CharPtr, n2: SizeT): (r: Result<int>)
      requires Valid() && View(s, n2).Valid()
      ensures r.Err? <==> pos1 > size
      ensures r.Err? ==> r.what == "string_view::substr"
      ensures r.Ok? ==> Orders(r.value, Chars()[pos1..pos1 + Min(n1, size - pos1)], View(s, n2).Chars())
    {
      CompareAt(pos1, n1, View(s, n2))
    }
  }

  /** The `m` characters of `v` from `pos` on, viewed through `data + pos`, are a slice of `v`'s characters. */
  lemma SubChars(v: View, pos: SizeT, m: SizeT)
    requires v.Valid() && pos + m <= v.size
    ensures View(v.data.Plus(pos), m).Valid()
    ensures View(v.data.Plus(pos), m).Chars() == v.Chars()[pos..pos + m]
  {
  }

  /** The default constructor: null data and size 0. */
  function DefaultView(): (v: View)
    ensures v.Valid() && v.data.Null? && v.size == 0 && v.Empty()
  {
    View(Null, 0)
  }

  /** The constructor from a null-terminated C string; its size is `Traits::length(s)`. */
  function CStringView(s: CharPtr): (v: View)
    requires IsCString(s)
    ensures v.Valid() && v.data == s
    ensures s.index + v.size < |s.buf| && s.buf[s.index + v.size] == 0
    ensures forall k :: 0 <= k < v.size ==> v.Chars()[k] != 0
  {
    View(s, TraitsLength(s.buf, s.index))
  }

  /*
   * The non-member comparison operators ([string.view.comparison]). The
   * overloads taking a `common_type` operand convert that operand to a view
   * first and then behave exactly as these do.
   */

  /** `lhs == rhs` */
  function Equal(lhs: View, rhs: View): (r: bool)
    requires lhs.Valid() && rhs.Valid()
    ensures r <==> lhs.Chars() == rhs.Chars()
    ensures r <==> lhs.size == rhs.size && forall i :: 0 <= i < lhs.size ==> lhs.Chars()[i] == rhs.Chars()[i]
  {
    if lhs.size != rhs.size then false else lhs.Compare(rhs) == 0
  }

  /** `lhs != rhs` */
  function NotEqual(lhs: View, rhs: View): (r: bool)
    requires lhs.Valid() && rhs.Valid()
    ensures r <==> lhs.Chars() != rhs.Chars()
    ensures r <==> !Equal(lhs, rhs)
  {
    if lhs.size != rhs.size then true else lhs.Compare(rhs) != 0
  }

  /** `lhs < rhs` */
  function Less(lhs: View, rhs: View): (r: bool)
    requires lhs.Valid() && rhs.Valid()
    ensures r <==> LexLess(lhs.Chars(), rhs.Chars())
  {
    lhs.Compare(rhs) < 0
  }

  /** `lhs <= rhs` */
  function LessEq(lhs: View, rhs: View): (r: bool)
    requires lhs.Valid() && rhs.Valid()
    ensures r <==> LexLess(lhs.Chars(), rhs.Chars()) || lhs.Chars() == rhs.Chars()
    ensures r <==> !LexLess(rhs.Chars(), lhs.Chars())
  {
    lhs.Compare(rhs) <= 0
  }

  /** `lhs > rhs` */
  function Greater(lhs: View, rhs: View): (r: bool)
    requires lhs.Valid() && rhs.Valid()
    ensures r <==> LexLess(rhs.Chars(), lhs.Chars())
    ensures r <==> Less(rhs, lhs)
  {
    lhs.Compare(rhs) > 0
  }

  /** `lhs >= rhs` */
  function GreaterEq(lhs: View, rhs: View): (r: bool)
    requires lhs.Valid() && rhs.Valid()
    ensures r <==> LexLess(rhs.Chars(), lhs.Chars()) || lhs.Chars() == rhs.Chars()
    ensures r <==> LessEq(rhs, lhs)
  {
    lhs.Compare(rhs) >= 0
  }

  /**
   * A `basic_string_view` object, for the members that update `data_` and
   * `size_` in place.
   */
  class ViewObject {
    var data: CharPtr
    var size: SizeT

    ghost predicate Valid()
      reads this
    {
      View(data, size).Valid()
    }

    /** The view this object currently holds. */
    function Value(): View
      reads this
    {
      View(data, size)
    }

    /** Copy construction from a view value. */
    constructor (v: View)
      requires v.Valid()
      ensures Valid() && Value() == v
    {
      data, size := v.data, v.size;
    }

    /** `remove_prefix(n)`: undefined if `n > size()`. */
    method RemovePrefix(n: SizeT)
      requires Valid() && n <= size
      modifies this
      ensures Valid()
      ensures data == old(data).Plus(n) && size == old(size) - n
      ensures Value().Chars() == old(Value().Chars())[n..]
    {
      data := data.Plus(n);
      size := size - n;
    }

    /** `remove_suffix(n)`: undefined if `n > size()`. */
    method RemoveSuffix(n: SizeT)
      requires Valid() && n <= size
      modifies this
      ensures Valid()
      ensures data == old(data) && size == old(size) - n
      ensures Value().Chars() == old(Value().Chars())[..old(size) - n]
    {
      size := size - n;
    }

    /** `swap(v)`: exchanges both fields with `v`. */
    method Swap(v: ViewObject)
      modifies this, v
      ensures data == old(v.data) && size == old(v.size)
      ensures v.data == old(data) && v.size == old(size)
    {
      data, v.data := v.data, data;
      size, v.size := v.size, size;
    }
  }

  /*
   * Lemmas about the order `compare` computes.
   */

  lemma PrefixOfPrefix(s: seq<Char>, t: seq<Char>, j: nat, k: nat)
    requires j <= k <= |s| && k <= |t| && s[..k] == t[..k]
    ensures s[..j] == t[..j]
  {
    assert s[..j] == s[..k][..j];
    assert t[..j] == t[..k][..j];
  }

  lemma PrefixAgrees(s: seq<Char>, t: seq<Char>, k: nat, i: nat)
    requires i < k <= |s| && k <= |t| && s[..k] == t[..k]
    ensures s[i] == t[i]
  {
    assert s[i] == s[..k][i];
    assert t[i] == t[..k][i];
  }

  /** Shifting a deciding position past a common first character. */
  lemma LessAtTail(s: seq<Char>, t: seq<Char>, k: nat)
    requires |s| > 0 && |t| > 0 && s[0] == t[0]
    ensures LessAt(s, t, k + 1) <==> LessAt(s[1..], t[1..], k)
  {
    if k + 1 <= |s| && k + 1 <= |t| {
      assert s[..k + 1] == [s[0]] + s[1..][..k];
      assert t[..k + 1] == [t[0]] + t[1..][..k];
    }
  }

  /** With equal first characters, the order is decided by the tails. */
  lemma LexLessTail(s: seq<Char>, t: seq<Char>)
    requires |s| > 0 && |t| > 0 && s[0] == t[0]
    ensures LexLess(s, t) <==> LexLess(s[1..], t[1..])
  {
    if LexLess(s, t) {
      var k: nat :| LessAt(s, t, k);
      assert k != 0;
      LessAtTail(s, t, k - 1);
    }
    if LexLess(s[1..], t[1..]) {
      var k: nat :| LessAt(s[1..], t[1..], k);
      LessAtTail(s, t, k);
    }
  }

  /** A first character that differs decides the order. */
  lemma LexLessHead(s: seq<Char>, t: seq<Char>)
    requires |s| > 0 && |t| > 0 && s[0] < t[0]
    ensures LexLess(s, t) && !LexLess(t, s)
  {
    assert LessAt(s, t, 0);
    if LexLess(t, s) {
      var k: nat :| LessAt(t, s, k);
      PrefixAgrees(t, s, k, 0);
    }
  }

  /**
   * `Traits::compare` over the common length either finds the first
   * difference, which then decides the order both ways, or finds none.
   */
  lemma {:induction false} TraitsCompareDecides(s: seq<Char>, t: seq<Char>)
    ensures var n := if |s| <= |t| then |s| else |t|;
            var r := TraitsCompare(s, t, n);
            && (r == -1 || r == 0 || r == 1)
            && (r == 0 ==> s[..n] == t[..n])
            && (r < 0 ==> LexLess(s, t) && !LexLess(t, s))
            && (r > 0 ==> LexLess(t, s) && !LexLess(s, t))
    decreases |s|
  {
    var n := if |s| <= |t| then |s| else |t|;
    if n == 0 {
    } else if s[0] < t[0] {
      LexLessHead(s, t);
    } else if s[0] > t[0] {
      LexLessHead(t, s);
    } else {
      TraitsCompareDecides(s[1..], t[1..]);
      LexLessTail(s, t);
      LexLessTail(t, s);
      if TraitsCompare(s, t, n) == 0 {
        assert s[..n] == [s[0]] + s[1..][..n - 1];
        assert t[..n] == [t[0]] + t[1..][..n - 1];
      }
    }
  }

  /** When one sequence is a prefix of the other, the shorter one is less. */
  lemma CommonPrefixDecides(s: seq<Char>, t: seq<Char>)
    requires var n := if |s| <= |t| then |s| else |t|; s[..n] == t[..n]
    ensures LexLess(s, t) <==> |s| < |t|
    ensures LexLess(t, s) <==> |t| < |s|
    ensures s == t <==> |s| == |t|
  {
    var n := if |s| <= |t| then |s| else |t|;
    if |s| < |t| {
      assert s[..|s|] == s;
      assert LessAt(s, t, |s|);
      if LexLess(t, s) {
        var k: nat :| LessAt(t, s, k);
        PrefixAgrees(s, t, n, k);
      }
    } else if |t| < |s| {
      assert t[..|t|] == t;
      assert LessAt(t, s, |t|);
      if LexLess(s, t) {
        var k: nat :| LessAt(s, t, k);
        PrefixAgrees(s, t, n, k);
      }
    } else {
      assert s == s[..n] && t == t[..n];
    }
  }

  /** `compare(v, v) == 0` */
  lemma CompareReflexive(v: View)
    requires v.Valid()
    ensures v.Compare(v) == 0
  {
  }

  /** `compare` is antisymmetric: swapping the operands negates the result. */
  lemma CompareAntisymmetric(a: View, b: View)
    requires a.Valid() && b.Valid()
    ensures a.Compare(b) == -b.Compare(a)
  {
  }

  /** The lexicographic order is transitive. */
  lemma LexLessTransitive(s: seq<Char>, t: seq<Char>, u: seq<Char>)
    requires LexLess(s, t) && LexLess(t, u)
    ensures LexLess(s, u)
  {
    var k1: nat :| LessAt(s, t, k1);
    var k2: nat :| LessAt(t, u, k2);
    if k1 < k2 {
      PrefixOfPrefix(t, u, k1, k2);
      if k1 < |s| {
        PrefixAgrees(t, u, k2, k1);
      }
      assert LessAt(s, u, k1);
    } else if k2 < k1 {
      PrefixOfPrefix(s, t, k2, k1);
      PrefixAgrees(s, t, k1, k2);
      assert LessAt(s, u, k2);
    } else {
      assert LessAt(s, u, k1);
    }
  }

  /** `compare` orders views transitively. */
  lemma CompareTransitive(a: View, b: View, c: View)
    requires a.Valid() && b.Valid() && c.Valid()
    requires a.Compare(b) < 0 && b.Compare(c) < 0
    ensures a.Compare(c) < 0
  {
    LexLessTransitive(a.Chars(), b.Chars(), c.Chars());
  }

  /** `substr(pos, npos)` is the whole suffix from `pos`. */
  lemma SubstrToEnd(v: View, pos: SizeT)
    requires v.Valid() && pos <= v.size
    ensures v.Substr(pos, NPOS).Ok?
    ensures v.Substr(pos, NPOS).value.Chars() == v.Chars()[pos..]
  {
  }

  /** A prefix removed in place leaves the view `substr(n)` would have produced. */
  lemma RemovePrefixIsSubstr(v: View, n: SizeT)
    requires v.Valid() && n <= v.size
    ensures v.Substr(n, NPOS) == Ok(View(v.data.Plus(n), v.size - n))
  {
  }
}
