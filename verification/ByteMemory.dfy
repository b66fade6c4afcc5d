/** Memory by the byte, and the little-endian numbers in it. */
module ByteMemory {

  const TWO64: int := 0x1_0000_0000_0000_0000

  type Byte = b: int | 0 <= b < 0x100

  type Bytes = int -> Byte

  function Bytes8(k: nat): (p: nat)
    ensures p > 0
  {
    if k == 0 then 1 else 0x100 * Bytes8(k - 1)
  }

  /** The number in the `n` bytes from `a`. */
  function Le(m: Bytes, a: int, n: nat): nat
    decreases n
  {
    if n == 0 then 0 else m(a) + 0x100 * Le(m, a + 1, n - 1)
  }

  function Set(m: Bytes, a: int, b: Byte): Bytes {
    (x: int) => if x == a then b else m(x)
  }

  /** The number `v` put into the `n` bytes from `a`. */
  function PutLe(m: Bytes, a: int, n: nat, v: nat): Bytes
    decreases n
  {
    if n == 0 then m else PutLe(Set(m, a, v % 0x100), a + 1, n - 1, v / 0x100)
  }

  lemma {:induction false} PutElsewhere(m: Bytes, a: int, n: nat, v: nat, x: int)
    requires !(a <= x < a + n)
    ensures PutLe(m, a, n, v)(x) == m(x)
    decreases n
  {
    if n > 0 { PutElsewhere(Set(m, a, v % 0x100), a + 1, n - 1, v / 0x100, x); }
  }

  /** A number depends on its own bytes only. */
  lemma {:induction false} LeFrame(m: Bytes, m': Bytes, a: int, n: nat)
    requires forall x :: a <= x < a + n ==> m'(x) == m(x)
    ensures Le(m', a, n) == Le(m, a, n)
    decreases n
  {
    if n > 0 { LeFrame(m, m', a + 1, n - 1); }
  }

  /** A number that fits is read back as it was put. */
  lemma {:induction false} RoundTrip(m: Bytes, a: int, n: nat, v: nat)
    requires v < Bytes8(n)
    ensures Le(PutLe(m, a, n, v), a, n) == v
    decreases n
  {
    if n > 0 {
      var m' := Set(m, a, v % 0x100);
      RoundTrip(m', a + 1, n - 1, v / 0x100);
      PutElsewhere(m', a + 1, n - 1, v / 0x100, a);
    }
  }

  lemma {:induction false} ZeroBytes(m: Bytes, a: int, n: nat)
    requires forall x :: a <= x < a + n ==> m(x) == 0
    ensures Le(m, a, n) == 0
    decreases n
  {
    if n > 0 { ZeroBytes(m, a + 1, n - 1); }
  }

  lemma {:induction false} LeBound(m: Bytes, a: int, n: nat)
    ensures Le(m, a, n) < Bytes8(n)
    decreases n
  {
    if n > 0 { LeBound(m, a + 1, n - 1); }
  }

  lemma EightBytes()
    ensures Bytes8(8) == TWO64
  {
    assert Bytes8(4) == 0x1_0000_0000;
  }

  /** The lowest byte is the number, if the others are zero. */
  lemma LeLow(m: Bytes, a: int, n: nat)
    requires n > 0 && forall x :: a < x < a + n ==> m(x) == 0
    ensures Le(m, a, n) == m(a)
  {
    ZeroBytes(m, a + 1, n - 1);
  }

  /** A number by its low and its high bytes. */
  lemma {:induction false} LeSplit(m: Bytes, a: int, k: nat, n: nat)
    requires k <= n
    ensures Le(m, a, n) == Le(m, a, k) + Bytes8(k) * Le(m, a + k, n - k)
    decreases k
  {
    if k > 0 {
      LeSplit(m, a + 1, k - 1, n - 1);
      Regroup(Bytes8(k - 1), Le(m, a + k, n - k));
    }
  }

  lemma Regroup(p: nat, v: nat)
    ensures 0x100 * (p * v) == 0x100 * p * v
  {
  }

  /** Equal numbers have equal bytes, wherever they are. */
  lemma {:induction false} LeSameBytes(m: Bytes, a: int, m': Bytes, b: int, n: nat, k: nat)
    requires Le(m, a, n) == Le(m', b, n) && k < n
    ensures m(a + k) == m'(b + k)
    decreases n
  {
    if k > 0 { LeSameBytes(m, a + 1, m', b + 1, n - 1, k - 1); }
  }
}
