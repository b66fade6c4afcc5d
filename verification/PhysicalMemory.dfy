/** Physical memory by bytes, and its aligned 64-bit words. */
module PhysicalMemory {
  import opened Paging
  import opened ByteMemory

  predicate Aligned(a: int) {
    a % 8 == 0
  }

  lemma EntryAligned(page: int, i: int)
    requires PageAligned(page)
    ensures Aligned(page + 8 * i)
  {
    assert page + 8 * i == 8 * (page / KB4 * 0x200 + i);
  }

  /** The 64-bit word at each address. */
  function WordsOf(m: Bytes): Words {
    (a: int) => Decode(Le(m, a, 8))
  }

  lemma AlignedApart(a: int, b: int)
    requires Aligned(a) && Aligned(b) && a < b
    ensures a + 8 <= b
  {
    assert a == 8 * (a / 8) && b == 8 * (b / 8);
  }

  /** At aligned addresses, storing eight bytes is storing a word. */
  lemma AlignedStore(m: Bytes, a: int, b: int, v: nat)
    requires Aligned(a) && Aligned(b) && v < TWO64
    ensures WordsOf(PutLe(m, a, 8, v))(b) == Put(WordsOf(m), a, Decode(v))(b)
  {
    var n := 8;
    EightBytes();
    if a == b {
      RoundTrip(m, a, n, v);
    } else {
      if a < b { AlignedApart(a, b); } else { AlignedApart(b, a); }
      forall x | b <= x < b + n ensures PutLe(m, a, n, v)(x) == m(x) {
        PutElsewhere(m, a, n, v, x);
      }
      LeFrame(m, PutLe(m, a, n, v), b, n);
    }
  }

  lemma ZeroWord(m: Bytes, a: int)
    requires forall x :: a <= x < a + 8 ==> m(x) == 0
    ensures WordsOf(m)(a) == NOTHING
  {
    var n := 8;
    ZeroBytes(m, a, n);
    ZeroDecodes();
  }

  lemma SameWord(m: Bytes, m': Bytes, a: int)
    requires forall x :: a <= x < a + 8 ==> m'(x) == m(x)
    ensures WordsOf(m')(a) == WordsOf(m)(a)
  {
    var n := 8;
    LeFrame(m, m', a, n);
  }

  function ZeroedBytes(m: Bytes, from: int, size: int): Bytes {
    (a: int) => if from <= a < from + size then 0 else m(a)
  }

  function ZeroedWords(w: Words, from: int, size: int): Words {
    (a: int) => if from <= a < from + size then NOTHING else w(a)
  }

  /** Clearing whole words. */
  lemma AlignedClear(m: Bytes, from: int, size: int, b: int)
    requires Aligned(from) && Aligned(from + size) && Aligned(b)
    ensures WordsOf(ZeroedBytes(m, from, size))(b) == ZeroedWords(WordsOf(m), from, size)(b)
  {
    if from <= b < from + size {
      AlignedApart(b, from + size);
      ZeroWord(ZeroedBytes(m, from, size), b);
    } else {
      if b < from { AlignedApart(b, from); }
      SameWord(m, ZeroedBytes(m, from, size), b);
    }
  }

  /** The entries that table-building code makes fit into 64 bits. */
  lemma EntryFits(a: nat, flags: nat)
    requires PageAligned(a) && flags < KB4
    ensures Or(a, flags) < TWO64
  {
    OrIsSum(a, flags);
  }

  /** `w` has the word of `m` at `a`. */
  predicate Shows(w: Words, m: Bytes, a: int) {
    w(a) == WordsOf(m)(a)
  }

  ghost predicate ShowsAligned(w: Words, m: Bytes) {
    forall a {:trigger Shows(w, m, a)} :: Aligned(a) ==> Shows(w, m, a)
  }

  lemma StoreShows(w: Words, m: Bytes, a: int, v: nat)
    requires ShowsAligned(w, m) && Aligned(a) && v < TWO64
    ensures ShowsAligned(Put(w, a, Decode(v)), PutLe(m, a, 8, v))
  {
    forall b | Aligned(b) ensures Shows(Put(w, a, Decode(v)), PutLe(m, a, 8, v), b) {
      assert Shows(w, m, b);
      AlignedStore(m, a, b, v);
    }
  }

  lemma ClearShows(w: Words, m: Bytes, from: int, size: int)
    requires ShowsAligned(w, m) && Aligned(from) && Aligned(from + size)
    ensures ShowsAligned(ZeroedWords(w, from, size), ZeroedBytes(m, from, size))
  {
    forall b | Aligned(b) ensures Shows(ZeroedWords(w, from, size), ZeroedBytes(m, from, size), b) {
      assert Shows(w, m, b);
      AlignedClear(m, from, size, b);
    }
  }

  /** `word` is the word at each aligned address; at others it means nothing. */
  class Ram {
    var mem: Bytes
    ghost var word: Words

    ghost predicate Valid()
      reads this
    {
      ShowsAligned(word, mem)
    }

    constructor (m: Bytes)
      ensures mem == m && word == WordsOf(m) && Valid()
    {
      mem := m;
      word := WordsOf(m);
    }

    /** Any change of bytes. */
    method Change(m: Bytes)
      modifies this
      ensures mem == m && word == WordsOf(m) && Valid()
    {
      mem := m;
      word := WordsOf(m);
    }

    method Clear(from: int, size: nat)
      requires Valid() && Aligned(from) && Aligned(from + size)
      modifies this
      ensures Valid() && mem == ZeroedBytes(old(mem), from, size) && word == ZeroedWords(old(word), from, size)
    {
      ClearShows(word, mem, from, size);
      mem := ZeroedBytes(mem, from, size);
      word := ZeroedWords(word, from, size);
    }

    method Store(a: int, v: nat)
      requires Valid() && Aligned(a) && v < TWO64
      modifies this
      ensures Valid() && mem == PutLe(old(mem), a, 8, v) && word == Put(old(word), a, Decode(v))
    {
      StoreShows(word, mem, a, v);
      mem := PutLe(mem, a, 8, v);
      word := Put(word, a, Decode(v));
    }

    /** Store a frame address with the flags for present, writable and user. */
    method StoreLink(a: int, target: nat)
      requires Valid() && Aligned(a) && PageAligned(target)
      modifies this
      ensures Valid() && word == Put(old(word), a, Link(target))
    {
      EntryFits(target, TABLE_FLAGS);
      LinkDecodes(target);
      Store(a, Or(target, TABLE_FLAGS));
    }

    /** Store a frame address with the flags of a 2 MB page. */
    method StoreLarge(a: int, target: nat)
      requires Valid() && Aligned(a) && PageAligned(target)
      modifies this
      ensures Valid() && word == Put(old(word), a, Large(target, false))
    {
      EntryFits(target, HUGE_FLAGS);
      LargeDecodes(target);
      Store(a, Or(target, HUGE_FLAGS));
    }

    /** Store a frame address with the flags of a global 2 MB page. */
    method StoreGlobal(a: int, target: nat)
      requires Valid() && Aligned(a) && PageAligned(target)
      modifies this
      ensures Valid() && word == Put(old(word), a, Large(target, true))
    {
      EntryFits(target, GLOBAL_HUGE_FLAGS);
      GlobalDecodes(target);
      Store(a, Or(target, GLOBAL_HUGE_FLAGS));
    }
  }
}
