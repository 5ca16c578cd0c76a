/**
 * Identity of the persisted entities. Every entity of the model (Room, Bed,
 * Reserve, RoomOccupation, BedOccupation, FinancialRecord, AirbnbSync) uses
 * the same generated pair: `equals` compares the nullable `Long id` only
 * (two entities without an id are equal), and `hashCode` is
 * `31 * 1 + (id == null ? 0 : id.hashCode())` in 32-bit arithmetic.
 */
module Identity {
  import opened Wrappers

  const TwoTo32: int := 0x1_0000_0000
  const TwoTo64: int := 0x1_0000_0000_0000_0000

  /** A value of Java's `long`. */
  predicate IsLong(v: int) { -0x8000_0000_0000_0000 <= v < 0x8000_0000_0000_0000 }

  /** A value of Java's `int`. */
  predicate IsInt(v: int) { -0x8000_0000 <= v < 0x8000_0000 }

  /** The narrowing of an integer to Java's `int` (two's-complement wrap-around). */
  function ToInt(v: int): (r: int)
    ensures IsInt(r)
    ensures IsInt(v) ==> r == v
    ensures (r - v) % TwoTo32 == 0
  {
    var u := v % TwoTo32;
    if u < 0x8000_0000 then u else u - TwoTo32
  }

  function Pow2(n: nat): (p: nat)
    ensures p >= 1
  {
    if n == 0 then 1 else 2 * Pow2(n - 1)
  }

  lemma {:induction false} Pow2Add(a: nat, b: nat)
    ensures Pow2(a + b) == Pow2(a) * Pow2(b)
  {
    if a > 0 {
      Pow2Add(a - 1, b);
    }
  }

  lemma Pow2Of32()
    ensures Pow2(32) == TwoTo32
  {
    assert Pow2(8) == 256;
    Pow2Add(8, 8);
    Pow2Add(16, 16);
  }

  /** Bitwise exclusive or of the low `n` bits of two non-negative numbers. */
  function Xor(a: nat, b: nat, n: nat): (r: nat)
    ensures r < Pow2(n)
    ensures b == 0 && a < Pow2(n) ==> r == a
    ensures a == b ==> r == 0
  {
    if n == 0 then 0
    else (if a % 2 != b % 2 then 1 else 0) + 2 * Xor(a / 2, b / 2, n - 1)
  }

  /** `Long.hashCode(v)`: the two 32-bit halves of the 64-bit pattern xor-ed together. */
  function LongHashCode(v: int): (h: int)
    requires IsLong(v)
    ensures IsInt(h)
    ensures 0 <= v < 0x8000_0000 ==> h == v
  {
    var u := v % TwoTo64;
    var hi := u / TwoTo32;
    var lo := u % TwoTo32;
    assert 0 <= v < 0x8000_0000 ==> hi == 0 && lo == v;
    Pow2Of32();
    ToInt(Xor(lo, hi, 32))
  }

  /** The generated `equals`: equal ids, where two missing ids count as equal. */
  function IdEquals(a: Option<int>, b: Option<int>): (r: bool)
    ensures r <==> a == b
    ensures a.None? && b.None? ==> r
    ensures a.None? != b.None? ==> !r
  {
    match a
    case None => b.None?
    case Some(x) => b.Some? && x == b.value
  }

  /** The generated `hashCode`. */
  function HashCode(id: Option<int>): (h: int)
    requires id.Some? ==> IsLong(id.value)
    ensures IsInt(h)
    ensures id.None? ==> h == 31
    ensures id.Some? && 0 <= id.value < 0x8000_0000 - 31 ==> h == 31 + id.value
  {
    ToInt(31 + match id case None => 0 case Some(v) => LongHashCode(v))
  }

  /** `hashCode` is consistent with `equals`. */
  lemma HashCodeConsistent(a: Option<int>, b: Option<int>)
    requires a.Some? ==> IsLong(a.value)
    requires b.Some? ==> IsLong(b.value)
    ensures IdEquals(a, b) ==> HashCode(a) == HashCode(b)
  {
  }
}
