/**
  4-level paging (section 4.5 of the Intel SDM, volume 3A): page-table entries and the walk that
  translates a virtual address.
  */
module Paging {

  const KB4: int := 0x1000
  const MB2: int := 0x20_0000
  const GB1: int := 0x4000_0000
  const GB512: int := 0x80_0000_0000
  const TB256: int := 0x1_0000_0000_0000

  /** Above every physical address: 52 bits. */
  const PHYS: int := 0x10_0000_0000_0000

  // ---------- entries ----------

  /** A 64-bit word by the fields that paging reads: bits 0, 1, 2, 7 and 8, the frame address in bits
      51 to 12, and the remaining bits. */
  datatype Word = Word(present: bool, writable: bool, user: bool, huge: bool, global: bool, frame: int, rest: int)

  predicate BitAt(e: int, d: int)
    requires d > 0
  {
    e / d % 2 == 1
  }

  function Decode(e: int): Word {
    Word(BitAt(e, 1), BitAt(e, 2), BitAt(e, 4), BitAt(e, 0x80), BitAt(e, 0x100),
         e % PHYS / KB4 * KB4,
         e / 8 % 16 + 16 * (e / 0x200 % 8) + 128 * (e / PHYS))
  }

  function Bit(b: bool, d: int): int {
    if b then d else 0
  }

  /** The 64-bit number of a word. */
  function Encode(w: Word): int {
    Bit(w.present, 1) + Bit(w.writable, 2) + Bit(w.user, 4) + Bit(w.huge, 0x80) + Bit(w.global, 0x100)
    + 8 * (w.rest % 16) + 0x200 * (w.rest / 16 % 8) + w.frame + PHYS * (w.rest / 128)
  }

  lemma BitReads(e: nat, d: nat)
    requires d > 0
    ensures Bit(BitAt(e, d), d) == e / d % 2 * d
  {
  }

  lemma FrameAndAbove(e: nat)
    ensures e / KB4 * KB4 == e % PHYS / KB4 * KB4 + PHYS * (e / PHYS)
  {
    assert e == e / PHYS * PHYS + e % PHYS;
  }

  lemma RestReads(a: nat, b: nat, c: nat)
    requires a < 16 && b < 8
    ensures var r := a + 16 * b + 128 * c; r % 16 == a && r / 16 % 8 == b && r / 128 == c
  {
  }

  /** Bitwise or. */
  function Or(a: nat, b: nat): nat {
    if a == 0 then b
    else if b == 0 then a
    else 2 * Or(a / 2, b / 2) + (if a % 2 == 1 || b % 2 == 1 then 1 else 0)
  }

  const TABLE_FLAGS: int := 0x07         // present, writable, user
  const HUGE_FLAGS: int := 0x87          // and PS
  const GLOBAL_HUGE_FLAGS: int := 0x187  // and G

  const NOTHING: Word := Word(false, false, false, false, false, 0, 0)

  /** An entry that refers to a table, or maps 4 KB. */
  function Link(a: int): Word {
    Word(true, true, true, false, false, a, 0)
  }

  /** An entry that maps 2 MB. */
  function Large(a: int, global: bool): Word {
    Word(true, true, true, true, global, a, 0)
  }

  predicate PageAligned(a: int) {
    0 <= a < PHYS && a % KB4 == 0
  }

  // ---------- the address with flags ----------

  function Pow2(k: nat): (p: nat)
    ensures p > 0
  {
    if k == 0 then 1 else 2 * Pow2(k - 1)
  }

  /** The low `k` bits of `a` are zero. */
  predicate LowZero(a: nat, k: nat) {
    k == 0 || (a % 2 == 0 && LowZero(a / 2, k - 1))
  }

  lemma {:induction false} MultipleLowZero(q: nat, k: nat)
    ensures LowZero(q * Pow2(k), k)
  {
    if k > 0 {
      assert q * Pow2(k) == 2 * (q * Pow2(k - 1));
      MultipleLowZero(q, k - 1);
    }
  }

  /** Flags put into the zero bits below an aligned address are added to it. */
  lemma {:induction false} OrLow(a: nat, b: nat, k: nat)
    requires LowZero(a, k) && b < Pow2(k)
    ensures Or(a, b) == a + b
  {
    if k > 0 && a > 0 && b > 0 {
      OrLow(a / 2, b / 2, k - 1);
    }
  }

  lemma OrIsSum(a: nat, flags: nat)
    requires PageAligned(a) && flags < KB4
    ensures Or(a, flags) == a / KB4 * KB4 + flags
  {
    assert Pow2(12) == KB4;
    MultipleLowZero(a / KB4, 12);
    OrLow(a, flags, 12);
  }

  lemma ProductAtLeast(k: int, d: nat)
    requires k >= 1
    ensures k * d >= d
  {
  }

  lemma Quotient(x: int, d: nat, q: int, r: nat)
    requires d > 0 && x == q * d + r && r < d
    ensures x / d == q
  {
    var p := x / d;
    assert x == p * d + x % d;
    assert (q - p) * d == q * d - p * d;
    if q > p {
      ProductAtLeast(q - p, d);
    } else if q < p {
      ProductAtLeast(p - q, d);
    }
  }

  lemma DivAdd(m: nat, d: nat, f: nat)
    requires d > 0
    ensures (m * d + f) / d == m + f / d
  {
    assert f == f / d * d + f % d;
    assert (m + f / d) * d == m * d + f / d * d;
    Quotient(m * d + f, d, m + f / d, f % d);
  }

  lemma Associate(x: nat, y: nat, z: nat)
    ensures x * y * z == x * (y * z)
  {
  }

  lemma ModAdd(k: nat, n: nat, x: nat)
    requires n > 0
    ensures (k * n + x) % n == x % n
  {
    DivAdd(k, n, x);
    assert (k + x / n) * n == k * n + x / n * n;
  }

  /** A field below bit 12 is decided by the flags alone. */
  lemma FieldReads(q: nat, flags: nat, d: nat, n: nat, m: nat)
    requires flags < KB4 && d > 0 && n > 0 && m * n * d == KB4
    ensures (q * KB4 + flags) / d % n == flags / d % n
  {
    Associate(q, m * n, d);
    DivAdd(q * (m * n), d, flags);
    Associate(q, m, n);
    ModAdd(q * m, n, flags / d);
  }

  lemma FieldsRead(q: nat, flags: nat)
    requires flags < KB4
    ensures var e := q * KB4 + flags;
            && (forall d :: d in {1, 2, 4, 0x80, 0x100} ==> BitAt(e, d) == BitAt(flags, d))
            && e / 8 % 16 == flags / 8 % 16 && e / 0x200 % 8 == flags / 0x200 % 8
  {
    FieldReads(q, flags, 1, 2, 0x800);
    FieldReads(q, flags, 2, 2, 0x400);
    FieldReads(q, flags, 4, 2, 0x200);
    FieldReads(q, flags, 0x80, 2, 0x10);
    FieldReads(q, flags, 0x100, 2, 8);
    FieldReads(q, flags, 8, 16, 0x20);
    FieldReads(q, flags, 0x200, 8, 1);
  }

  lemma FrameReads(q: nat, flags: nat)
    requires flags < KB4 && q * KB4 < PHYS
    ensures var e := q * KB4 + flags; e % PHYS / KB4 * KB4 == q * KB4 && e / PHYS == 0
  {
  }

  /** An entry by its address and its flags. */
  function Flagged(a: int, flags: int): Word {
    Word(BitAt(flags, 1), BitAt(flags, 2), BitAt(flags, 4), BitAt(flags, 0x80), BitAt(flags, 0x100),
         a, flags / 8 % 16 + 16 * (flags / 0x200 % 8))
  }

  /** What the walk reads back from an entry made of an aligned address and flags. */
  lemma EntryDecodes(a: nat, flags: nat)
    requires PageAligned(a) && flags < KB4
    ensures Decode(Or(a, flags)) == Flagged(a, flags)
  {
    var q := a / KB4;
    OrIsSum(a, flags);
    FieldsRead(q, flags);
    FrameReads(q, flags);
  }

  lemma FlagsMean(a: int)
    ensures Flagged(a, TABLE_FLAGS) == Link(a)
    ensures Flagged(a, HUGE_FLAGS) == Large(a, false) && Flagged(a, GLOBAL_HUGE_FLAGS) == Large(a, true)
  {
  }

  lemma LinkDecodes(a: nat)
    requires PageAligned(a)
    ensures Decode(Or(a, TABLE_FLAGS)) == Link(a)
  {
    FlagsMean(a);
    EntryDecodes(a, TABLE_FLAGS);
  }

  lemma LargeDecodes(a: nat)
    requires PageAligned(a)
    ensures Decode(Or(a, HUGE_FLAGS)) == Large(a, false)
  {
    FlagsMean(a);
    EntryDecodes(a, HUGE_FLAGS);
  }

  lemma GlobalDecodes(a: nat)
    requires PageAligned(a)
    ensures Decode(Or(a, GLOBAL_HUGE_FLAGS)) == Large(a, true)
  {
    FlagsMean(a);
    EntryDecodes(a, GLOBAL_HUGE_FLAGS);
  }

  lemma ZeroDecodes()
    ensures Decode(0) == NOTHING
  {
  }

  // ---------- words and numbers ----------

  lemma DivTwice(e: nat, d: nat, k: nat)
    requires d > 0 && k > 0
    ensures d * k > 0 && e / d / k == e / (d * k)
  {
    ProductAtLeast(k, d);
    var q, r := e / d / k, e / d % k;
    assert e / d == q * k + r;
    assert e == (q * k + r) * d + e % d;
    assert (q * k + r) * d == q * (d * k) + r * d;
    RemainderBelow(r, k, d, e % d);
    Quotient(e, d * k, q, r * d + e % d);
  }

  lemma RemainderBelow(r: nat, k: nat, d: nat, t: nat)
    requires r < k && t < d
    ensures r * d + t < d * k
  {
    ProductAtLeast(k - r, d);
    assert (k - r) * d == k * d - r * d;
  }

  /** The bits from a position on: those up to the next, and those above. */
  lemma BitsFrom(e: nat, d: nat, k: nat)
    requires d > 0 && k > 0
    ensures d * k > 0 && e / d == e / (d * k) * k + e / d % k
  {
    DivTwice(e, d, k);
  }

  /** The parts of a number that `Decode` tells apart. */
  function Parts(e: nat): int {
    e % 2 + e / 2 % 2 * 2 + e / 4 % 2 * 4 + e / 0x80 % 2 * 0x80 + e / 0x100 % 2 * 0x100
    + 8 * (e / 8 % 16) + 0x200 * (e / 0x200 % 8) + e % PHYS / KB4 * KB4 + PHYS * (e / PHYS)
  }

  lemma PartsSum(e: nat)
    ensures Parts(e) == e
  {
    BitsFrom(e, 1, 2);
    BitsFrom(e, 2, 2);
    BitsFrom(e, 4, 2);
    BitsFrom(e, 8, 16);
    BitsFrom(e, 0x80, 2);
    BitsFrom(e, 0x100, 2);
    BitsFrom(e, 0x200, 8);
    FrameAndAbove(e);
  }

  lemma EncodeFields(w: Word, a: nat, b: nat, c: nat)
    requires a < 16 && b < 8 && w.rest == a + 16 * b + 128 * c
    ensures Encode(w) == Bit(w.present, 1) + Bit(w.writable, 2) + Bit(w.user, 4) + Bit(w.huge, 0x80)
                         + Bit(w.global, 0x100) + 8 * a + 0x200 * b + w.frame + PHYS * c
  {
    RestReads(a, b, c);
  }

  lemma EncodeParts(e: nat)
    ensures Encode(Decode(e)) == Parts(e)
  {
    BitReads(e, 1);
    BitReads(e, 2);
    BitReads(e, 4);
    BitReads(e, 0x80);
    BitReads(e, 0x100);
    EncodeFields(Decode(e), e / 8 % 16, e / 0x200 % 8, e / PHYS);
  }

  /** No bit is lost. */
  lemma EncodeDecode(e: nat)
    ensures Encode(Decode(e)) == e
  {
    EncodeParts(e);
    PartsSum(e);
  }

  // ---------- memory and addresses ----------

  /** Memory by the word at each address. */
  type Words = int -> Word

  function Put(w: Words, a: int, v: Word): Words {
    (x: int) => if x == a then v else w(x)
  }

  /** A virtual address by the four table indices and the offset in the 4 KB page. */
  datatype Va = Va(i4: int, i3: int, i2: int, i1: int, off: int)

  function Split(va: int): Va {
    Va(va / GB512 % 512, va / GB1 % 512, va / MB2 % 512, va / KB4 % 512, va % KB4)
  }

  /** The address with these indices and offset. */
  function Join(x: Va): int {
    x.i4 * GB512 + x.i3 * GB1 + x.i2 * MB2 + x.i1 * KB4 + x.off
  }

  predicate Index(i: int) {
    0 <= i < 512
  }

  predicate ValidVa(x: Va) {
    Index(x.i4) && Index(x.i3) && Index(x.i2) && Index(x.i1) && 0 <= x.off < KB4
  }

  lemma SplitValid(va: int)
    ensures ValidVa(Split(va))
  {
  }

  /** The indices and the offset are the address. */
  lemma SplitJoins(va: int)
    requires 0 <= va < TB256
    ensures Join(Split(va)) == va
  {
    assert va == va / KB4 * KB4 + va % KB4;
    assert va / KB4 == va / MB2 * 512 + va / KB4 % 512;
    assert va / MB2 == va / GB1 * 512 + va / MB2 % 512;
    assert va / GB1 == va / GB512 * 512 + va / GB1 % 512;
  }

  // ---------- the walk ----------

  datatype Size = Small | Big | Giant   // 4 KB, 2 MB, 1 GB

  datatype Translation =
    | Fault
    | Page(base: int, size: Size, writable: bool, user: bool, global: bool)

  /** The offset of an address in the page of the given size that contains it. */
  function OffsetIn(size: Size, x: Va): int {
    match size
    case Small => x.off
    case Big => x.i1 * KB4 + x.off
    case Giant => x.i2 * MB2 + x.i1 * KB4 + x.off
  }

  function Physical(t: Translation, x: Va): int
    requires t.Page?
  {
    t.base + OffsetIn(t.size, x)
  }

  /** Entry `i` of the table at `table`. */
  function Entry(w: Words, table: int, i: int): Word {
    w(table + 8 * i)
  }

  /** The frame address of a page of 2 MB or 1 GB: its lower bits do not count. */
  function BaseOf(e: Word, size: Size): int {
    match size
    case Small => e.frame
    case Big => e.frame / MB2 * MB2
    case Giant => e.frame / GB1 * GB1
  }

  function Leaf(e: Word, writable: bool, user: bool, size: Size): Translation {
    Page(BaseOf(e, size), size, writable && e.writable, user && e.user, e.global)
  }

  function WalkPt(w: Words, table: int, x: Va, writable: bool, user: bool): Translation {
    var e := Entry(w, table, x.i1);
    if !e.present then Fault else Leaf(e, writable, user, Small)
  }

  function WalkPd(w: Words, table: int, x: Va, writable: bool, user: bool): Translation {
    var e := Entry(w, table, x.i2);
    if !e.present then Fault
    else if e.huge then Leaf(e, writable, user, Big)
    else WalkPt(w, e.frame, x, writable && e.writable, user && e.user)
  }

  function WalkPdpt(w: Words, table: int, x: Va, writable: bool, user: bool): Translation {
    var e := Entry(w, table, x.i3);
    if !e.present then Fault
    else if e.huge then Leaf(e, writable, user, Giant)
    else WalkPd(w, e.frame, x, writable && e.writable, user && e.user)
  }

  /** The translation of an address by the tables whose PML4 is at `cr3`. */
  function Walk(w: Words, cr3: int, x: Va): Translation {
    var e := Entry(w, cr3, x.i4);
    if !e.present then Fault else WalkPdpt(w, e.frame, x, e.writable, e.user)
  }

  /** Two addresses are in one page of the given size. */
  predicate SamePage(size: Size, x: Va, y: Va) {
    && x.i4 == y.i4 && x.i3 == y.i3
    && (size.Giant? || x.i2 == y.i2)
    && (size.Small? ==> x.i1 == y.i1)
  }

  /** Storing over an entry that is not present changes no translation that succeeds. */
  lemma PresentWalkKept(w: Words, cr3: int, x: Va, a: int, v: Word)
    requires !w(a).present && Walk(w, cr3, x).Page?
    ensures Walk(Put(w, a, v), cr3, x) == Walk(w, cr3, x)
  {
  }

  /** All addresses of a page have the translation of any of them. */
  lemma WalkSamePage(w: Words, cr3: int, x: Va, y: Va)
    requires var t := Walk(w, cr3, x); t.Page? && SamePage(t.size, x, y)
    ensures Walk(w, cr3, y) == Walk(w, cr3, x)
  {
  }
}
