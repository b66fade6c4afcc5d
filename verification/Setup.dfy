/** What hakase leaves in memory before it starts the friends: `setup`. */
module Setup {
  import opened Wrappers
  import opened Paging
  import opened InitialTables
  import opened ByteMemory
  import opened PhysicalMemory
  import opened ElfLoader

  // ---------- the pieces of memory ----------

  /** The region that is cleared before the binary is placed: the first 4 MB. */
  const FIRST := Bss(DEPLOY_PHYS_ADDR_START, 1024 * 4096)

  /** A slot of the friend binary and the hakase pointer to go into it. */
  datatype Export = Export(slot: int, ptr: nat)

  /** Memory with a binary copied to the trampoline. */
  function WithTrampoline(m: Bytes, code: seq<Byte>): Bytes {
    (a: int) => if 0 <= a - TRAMPOLINE_ADDR < |code| then code[a - TRAMPOLINE_ADDR] else m(a)
  }

  /** Memory after these containers. */
  function Exported(w: Words, es: seq<Export>): Words {
    if es == [] then w
    else
      var n := |es| - 1;
      Put(Exported(w, es[..n]), es[n].slot, Decode(es[n].ptr))
  }

  predicate IsSlot(es: seq<Export>, a: int) {
    exists i :: 0 <= i < |es| && es[i].slot == a
  }

  /** No later container has the slot of container `i`. */
  predicate LastFor(es: seq<Export>, i: nat)
    requires i < |es|
  {
    forall j :: i < j < |es| ==> es[j].slot != es[i].slot
  }

  lemma {:induction false} ExportedElsewhere(w: Words, es: seq<Export>, a: int)
    requires !IsSlot(es, a)
    ensures Exported(w, es)(a) == w(a)
  {
    if es != [] {
      var n := |es| - 1;
      assert es[n].slot != a;
      ExportedElsewhere(w, es[..n], a);
    }
  }

  /** A slot holds the pointer of the last container that names it. */
  lemma {:induction false} ExportedAt(w: Words, es: seq<Export>, i: nat)
    requires i < |es| && LastFor(es, i)
    ensures Exported(w, es)(es[i].slot) == Decode(es[i].ptr)
  {
    var n := |es| - 1;
    if i < n {
      assert es[n].slot != es[i].slot;
      ExportedAt(w, es[..n], i);
    }
  }

  /** Slots are pointer variables, and pointers have 64 bits. */
  predicate AreSlots(es: seq<Export>) {
    forall i :: 0 <= i < |es| ==> Aligned(es[i].slot) && es[i].ptr < TWO64
  }

  method ExportInit(ram: Ram, es: seq<Export>)
    requires ram.Valid() && AreSlots(es)
    modifies ram
    ensures ram.Valid() && ram.word == Exported(old(ram.word), es)
  {
    var c := 0;
    while c != |es|
      invariant 0 <= c <= |es| && ram.Valid() && ram.word == Exported(old(ram.word), es[..c])
    {
      assert es[..c + 1][..c] == es[..c];
      ram.Store(es[c].slot, es[c].ptr);
      c := c + 1;
    }
    assert es[..c] == es;
  }

  // ---------- well-formed images ----------

  /** All bytes of the area are in sections that the loader clears. */
  ghost predicate InSections(file: Bytes, start: int, size: int) {
    forall a :: start <= a < start + size ==> SomeBss(SectionsOf(file), a)
  }

  /** The page tables are in cleared sections, and the slots are in the region outside the tables. */
  ghost predicate WellFormed(file: Bytes, p: Pages, es: seq<Export>) {
    && Laid(p) && InSections(file, p.pdpt, KB4) && InSections(file, p.pd1, KB4)
    && forall i :: 0 <= i < |es| ==> InRegion(es[i].slot) && !InTables(p, es[i].slot)
  }

  lemma SectionByteCleared(file: Bytes, m: Bytes, a: int)
    requires SomeBss(SectionsOf(file), a)
    ensures Deployed(file, m, LoadsOf(file), SectionsOf(file))(a) == 0
  {
    ClearedByte(Loaded(file, m, LoadsOf(file)), SectionsOf(file), a);
  }

  /** The memory after the image is placed. */
  function Placed(file: Bytes, m: Bytes): Bytes {
    Deployed(file, Memset(m, FIRST), LoadsOf(file), SectionsOf(file))
  }

  lemma TrampolineElsewhere(m: Bytes, code: seq<Byte>, a: int)
    requires |code| <= KB4 && (a + 8 <= TRAMPOLINE_ADDR || TRAMPOLINE_ADDR + KB4 <= a)
    ensures WordsOf(WithTrampoline(m, code))(a) == WordsOf(m)(a)
  {
    SameWord(m, WithTrampoline(m, code), a);
  }

  // ---------- the composition ----------

  /** Words after the trampoline is copied and the entry is stored. */
  function Started(entry: nat, m: Bytes, code: seq<Byte>): Words {
    Put(WordsOf(WithTrampoline(m, code)), TRAMPOLINE_ADDR + 8, Decode(entry))
  }

  function Entered(file: Bytes, m: Bytes, code: seq<Byte>): Words {
    Started(GetEntry(file), Placed(file, m), code)
  }

  /** Words after the page tables are built. */
  function Mapped(file: Bytes, m: Bytes, code: seq<Byte>, p: Pages): Words {
    Initialised(Entered(file, m, code), p)
  }

  lemma EnteredInRegion(file: Bytes, m: Bytes, code: seq<Byte>, a: int)
    requires |code| <= KB4 && InRegion(a)
    ensures Entered(file, m, code)(a) == WordsOf(Placed(file, m))(a)
  {
    TrampolineElsewhere(Placed(file, m), code, a);
  }

  /** A word in cleared sections is zero once the image is placed. */
  lemma PlacedWordCleared(file: Bytes, m: Bytes, a: int)
    requires InSections(file, a, 8)
    ensures WordsOf(Placed(file, m))(a) == NOTHING
  {
    forall x | a <= x < a + 8 ensures Placed(file, m)(x) == 0 {
      SectionByteCleared(file, Memset(m, FIRST), x);
    }
    ZeroWord(Placed(file, m), a);
  }

  lemma EntryCleared(file: Bytes, m: Bytes, code: seq<Byte>, page: int, i: int)
    requires |code| <= KB4 && PageAligned(page) && InRegion(page) && InSections(file, page, KB4) && Index(i)
    ensures Entered(file, m, code)(page + 8 * i) == NOTHING
  {
    var a := page + 8 * i;
    InsideRegion(page, a);
    EnteredInRegion(file, m, code, a);
    assert InSections(file, a, 8);
    PlacedWordCleared(file, m, a);
  }

  lemma PageCleared(file: Bytes, m: Bytes, code: seq<Byte>, page: int)
    requires |code| <= KB4 && PageAligned(page) && InRegion(page) && InSections(file, page, KB4)
    ensures Zeroed(Entered(file, m, code), page)
  {
    forall i | Index(i) ensures Entry(Entered(file, m, code), page, i) == NOTHING {
      EntryCleared(file, m, code, page, i);
    }
  }

  lemma InitialisedElsewhere(w: Words, p: Pages, a: int)
    requires !InTables(p, a)
    ensures Initialised(w, p)(a) == w(a)
  {
  }

  lemma PageKept(w: Words, w': Words, p: Pages, page: int, i: int)
    requires PageAligned(page) && Index(i) && (page == p.pdpt || page == p.pd1 || page == p.pd2)
    requires forall a :: InTables(p, a) && Aligned(a) ==> w'(a) == w(a)
    ensures Entry(w', page, i) == Entry(w, page, i)
  {
    EntryAligned(page, i);
    assert InTables(p, page + 8 * i);
  }

  lemma TablesKept(w: Words, w': Words, p: Pages)
    requires Laid(p) && TablesAt(w, p) && forall a :: InTables(p, a) && Aligned(a) ==> w'(a) == w(a)
    ensures TablesAt(w', p)
  {
    forall i | Index(i) ensures Entry(w', p.pdpt, i) == Entry(w, p.pdpt, i) {
      PageKept(w, w', p, p.pdpt, i);
    }
    forall i | Index(i) ensures Entry(w', p.pd1, i) == Entry(w, p.pd1, i) {
      PageKept(w, w', p, p.pd1, i);
    }
    forall i | Index(i) ensures Entry(w', p.pd2, i) == Entry(w, p.pd2, i) {
      PageKept(w, w', p, p.pd2, i);
    }
    EntryAligned(p.pml4t, 0);
    assert InTables(p, p.pml4t);
  }

  /** The identity mapping is in place, and the exports have not disturbed it. */
  lemma TablesReady(file: Bytes, m: Bytes, code: seq<Byte>, p: Pages, es: seq<Export>, w: Words)
    requires WellFormed(file, p, es) && |code| <= KB4
    requires forall a :: w(a) == Mapped(file, m, code, p)(a)
    ensures TablesAt(Exported(w, es), p)
  {
    PageCleared(file, m, code, p.pdpt);
    PageCleared(file, m, code, p.pd1);
    InitialisedTables(Entered(file, m, code), w, p);
    forall a | InTables(p, a) && Aligned(a) ensures Exported(w, es)(a) == w(a) {
      ExportedElsewhere(w, es, a);
    }
    TablesKept(w, Exported(w, es), p);
  }

  /** A word that is neither in a table nor a slot is as it was before the tables were built. */
  lemma OtherWords(file: Bytes, m: Bytes, code: seq<Byte>, p: Pages, es: seq<Export>, w: Words, a: int)
    requires forall x :: w(x) == Mapped(file, m, code, p)(x)
    requires !InTables(p, a) && !IsSlot(es, a)
    ensures Exported(w, es)(a) == Entered(file, m, code)(a)
  {
    ExportedElsewhere(w, es, a);
    InitialisedElsewhere(Entered(file, m, code), p, a);
  }

  /** A word of the trampoline is not in a table of the region, nor a slot. */
  lemma TrampolineApart(file: Bytes, p: Pages, es: seq<Export>, a: int)
    requires WellFormed(file, p, es) && InPage(TRAMPOLINE_ADDR, a)
    ensures !InTables(p, a) && !IsSlot(es, a)
  {
  }

  // ---------- back to bytes ----------

  /** The aligned word that a byte is in. */
  function WordOf(x: int): (a: int)
    ensures Aligned(a) && a <= x < a + 8
  {
    x - x % 8
  }

  /** Equal words are equal numbers, */
  lemma SameNumber(m: Bytes, a: int, v: nat)
    requires WordsOf(m)(a) == Decode(v)
    ensures Le(m, a, 8) == v
  {
    EncodeDecode(Le(m, a, 8));
    EncodeDecode(v);
  }

  /** and have equal bytes. */
  lemma SameBytes(m: Bytes, m': Bytes, x: int)
    requires WordsOf(m)(WordOf(x)) == WordsOf(m')(WordOf(x))
    ensures m(x) == m'(x)
  {
    var n := 8;
    SameNumber(m, WordOf(x), Le(m', WordOf(x), n));
    LeSameBytes(m, WordOf(x), m', WordOf(x), n, x - WordOf(x));
  }

  /** The byte is in an exported pointer. */
  predicate InSlots(es: seq<Export>, x: int) {
    exists i :: 0 <= i < |es| && es[i].slot <= x < es[i].slot + 8
  }

  lemma SamePage(page: int, x: int)
    requires PageAligned(page)
    ensures InPage(page, WordOf(x)) <==> InPage(page, x)
  {
    EntryAligned(page, 0);
    EntryAligned(page, KB4 / 8);
    if WordOf(x) < page <= x { AlignedApart(WordOf(x), page); }
    if WordOf(x) < page + KB4 <= x { AlignedApart(WordOf(x), page + KB4); }
  }

  /** A byte is in a table or a slot exactly if its word is. */
  lemma WordPlaces(p: Pages, es: seq<Export>, x: int)
    requires Laid(p) && AreSlots(es)
    ensures InTables(p, WordOf(x)) <==> InTables(p, x)
    ensures IsSlot(es, WordOf(x)) ==> InSlots(es, x)
    ensures InPage(TRAMPOLINE_ADDR, WordOf(x)) <==> InPage(TRAMPOLINE_ADDR, x)
  {
    SamePage(p.pml4t, x);
    SamePage(p.pdpt, x);
    SamePage(p.pd1, x);
    SamePage(p.pd2, x);
    SamePage(TRAMPOLINE_ADDR, x);
  }

  /** The bytes of the entry word are those of `e_entry`, at offset 24 of the file. */
  predicate EntryByte(file: Bytes, mem: Bytes, k: int) {
    mem(TRAMPOLINE_ADDR + 8 + k) == file(24 + k)
  }

  /** The trampoline holds its binary. */
  predicate CodeByte(code: seq<Byte>, mem: Bytes, k: int)
    requires 0 <= k < |code|
  {
    mem(TRAMPOLINE_ADDR + k) == code[k]
  }

  /** What the friends find when they start. */
  ghost predicate Ready(file: Bytes, m: Bytes, code: seq<Byte>, p: Pages, es: seq<Export>, mem: Bytes) {
    && TablesAt(WordsOf(mem), p)
    && (forall i :: 0 <= i < |es| && LastFor(es, i) ==> Le(mem, es[i].slot, 8) == es[i].ptr)
    && (forall k :: 0 <= k < 8 ==> EntryByte(file, mem, k))
    && (forall k :: 0 <= k < |code| && !(8 <= k < 16) ==> CodeByte(code, mem, k))
    && (forall x :: !InPage(TRAMPOLINE_ADDR, x) && !InTables(p, x) && !InSlots(es, x) ==> mem(x) == Placed(file, m)(x))
  }

  /** The memory after `setup`, and its words: those of the tables and the exports on top of the rest. */
  ghost predicate Composed(file: Bytes, m: Bytes, code: seq<Byte>, p: Pages, es: seq<Export>, w: Words, mem: Bytes) {
    && WellFormed(file, p, es) && AreSlots(es) && |code| <= KB4
    && (forall a :: w(a) == Mapped(file, m, code, p)(a)) && ShowsAligned(Exported(w, es), mem)
  }

  lemma TablesShown(file: Bytes, m: Bytes, code: seq<Byte>, p: Pages, es: seq<Export>, w: Words, mem: Bytes)
    requires Composed(file, m, code, p, es, w, mem)
    ensures TablesAt(WordsOf(mem), p)
  {
    TablesReady(file, m, code, p, es, w);
    forall a | InTables(p, a) && Aligned(a) ensures WordsOf(mem)(a) == Exported(w, es)(a) {
      assert Shows(Exported(w, es), mem, a);
    }
    TablesKept(Exported(w, es), WordsOf(mem), p);
  }

  lemma SlotShown(file: Bytes, m: Bytes, code: seq<Byte>, p: Pages, es: seq<Export>, w: Words, mem: Bytes, i: nat)
    requires Composed(file, m, code, p, es, w, mem) && i < |es| && LastFor(es, i)
    ensures Le(mem, es[i].slot, 8) == es[i].ptr
  {
    ExportedAt(w, es, i);
    assert Shows(Exported(w, es), mem, es[i].slot);
    SameNumber(mem, es[i].slot, es[i].ptr);
  }

  lemma EntryShown(file: Bytes, m: Bytes, code: seq<Byte>, p: Pages, es: seq<Export>, w: Words, mem: Bytes)
    requires Composed(file, m, code, p, es, w, mem)
    ensures Le(mem, TRAMPOLINE_ADDR + 8, 8) == GetEntry(file)
  {
    TrampolineApart(file, p, es, TRAMPOLINE_ADDR + 8);
    EntryAligned(TRAMPOLINE_ADDR, 1);
    NumberShown(file, m, code, p, es, w, mem, TRAMPOLINE_ADDR + 8, GetEntry(file));
  }

  lemma EntryByteShown(file: Bytes, m: Bytes, code: seq<Byte>, p: Pages, es: seq<Export>, w: Words, mem: Bytes, k: nat)
    requires Composed(file, m, code, p, es, w, mem) && k < 8
    ensures mem(TRAMPOLINE_ADDR + 8 + k) == file(24 + k)
  {
    var n, a := 8, TRAMPOLINE_ADDR + 8;
    EntryShown(file, m, code, p, es, w, mem);
    assert GetEntry(file) == Le(file, 24, n);
    LeSameBytes(mem, a, file, 24, n, k);
  }

  lemma NumberShown(file: Bytes, m: Bytes, code: seq<Byte>, p: Pages, es: seq<Export>, w: Words, mem: Bytes,
                    a: int, v: nat)
    requires Composed(file, m, code, p, es, w, mem)
    requires Aligned(a) && !InTables(p, a) && !IsSlot(es, a) && Entered(file, m, code)(a) == Decode(v)
    ensures Le(mem, a, 8) == v
  {
    OtherWords(file, m, code, p, es, w, a);
    assert Shows(Exported(w, es), mem, a);
    SameNumber(mem, a, v);
  }

  /** Every other byte is that of the image, or of the trampoline. */
  lemma ByteShown(file: Bytes, m: Bytes, code: seq<Byte>, p: Pages, es: seq<Export>, w: Words, mem: Bytes, x: int)
    requires Composed(file, m, code, p, es, w, mem)
    requires !InTables(p, x) && !InSlots(es, x) && !(TRAMPOLINE_ADDR + 8 <= x < TRAMPOLINE_ADDR + 16)
    ensures mem(x) == WithTrampoline(Placed(file, m), code)(x)
  {
    var a := WordOf(x);
    WordPlaces(p, es, x);
    OtherWords(file, m, code, p, es, w, a);
    assert Shows(Exported(w, es), mem, a);
    SameBytes(mem, WithTrampoline(Placed(file, m), code), x);
  }

  lemma CodeShown(file: Bytes, m: Bytes, code: seq<Byte>, p: Pages, es: seq<Export>, w: Words, mem: Bytes, k: nat)
    requires Composed(file, m, code, p, es, w, mem) && k < |code| && !(8 <= k < 16)
    ensures mem(TRAMPOLINE_ADDR + k) == code[k]
  {
    var x := TRAMPOLINE_ADDR + k;
    assert InPage(TRAMPOLINE_ADDR, x) && !(TRAMPOLINE_ADDR + 8 <= x < TRAMPOLINE_ADDR + 16);
    CodeByteApart(file, p, es, x);
    ByteShown(file, m, code, p, es, w, mem, x);
    CodeAt(Placed(file, m), code, k);
  }

  lemma CodeAt(m: Bytes, code: seq<Byte>, k: nat)
    requires k < |code|
    ensures WithTrampoline(m, code)(TRAMPOLINE_ADDR + k) == code[k]
  {
  }

  lemma SetupReady(file: Bytes, m: Bytes, code: seq<Byte>, p: Pages, es: seq<Export>, w: Words, mem: Bytes)
    requires Composed(file, m, code, p, es, w, mem)
    ensures Ready(file, m, code, p, es, mem)
  {
    TablesShown(file, m, code, p, es, w, mem);
    forall i | 0 <= i < |es| && LastFor(es, i) ensures Le(mem, es[i].slot, 8) == es[i].ptr {
      SlotShown(file, m, code, p, es, w, mem, i);
    }
    forall k | 0 <= k < 8 ensures EntryByte(file, mem, k) {
      EntryByteShown(file, m, code, p, es, w, mem, k);
    }
    forall k | 0 <= k < |code| && !(8 <= k < 16) ensures CodeByte(code, mem, k) {
      CodeShown(file, m, code, p, es, w, mem, k);
    }
    forall x | !InPage(TRAMPOLINE_ADDR, x) && !InTables(p, x) && !InSlots(es, x) ensures mem(x) == Placed(file, m)(x) {
      ByteShown(file, m, code, p, es, w, mem, x);
    }
  }

  lemma CodeByteApart(file: Bytes, p: Pages, es: seq<Export>, x: int)
    requires WellFormed(file, p, es) && InPage(TRAMPOLINE_ADDR, x)
    ensures !InTables(p, x) && !InSlots(es, x)
  {
  }

  /** The bytes of an object in a cleared section, such as the offloader, are zero. */
  lemma ObjectCleared(file: Bytes, m: Bytes, code: seq<Byte>, p: Pages, es: seq<Export>, mem: Bytes, x: int)
    requires Ready(file, m, code, p, es, mem) && SomeBss(SectionsOf(file), x)
    requires InRegion(x) && !InTables(p, x) && !InSlots(es, x)
    ensures mem(x) == 0
  {
    SectionPlaced(file, m, x);
  }

  lemma SectionPlaced(file: Bytes, m: Bytes, x: int)
    requires SomeBss(SectionsOf(file), x)
    ensures Placed(file, m)(x) == 0
  {
    SectionByteCleared(file, Memset(m, FIRST), x);
  }

  /** The first 4 MB are cleared: what no segment, table or slot takes there is zero. */
  lemma FirstCleared(file: Bytes, m: Bytes, code: seq<Byte>, p: Pages, es: seq<Export>, mem: Bytes, x: int)
    requires Ready(file, m, code, p, es, mem) && 0x1_0000_0000 <= x < 0x1_0040_0000
    requires !SomeFile(LoadsOf(file), x) && !InTables(p, x) && !InSlots(es, x)
    ensures mem(x) == 0
  {
    FirstPlaced(file, m, x);
  }

  lemma FirstPlaced(file: Bytes, m: Bytes, x: int)
    requires 0x1_0000_0000 <= x < 0x1_0040_0000 && !SomeFile(LoadsOf(file), x)
    ensures Placed(file, m)(x) == 0
  {
    FirstIsZero(m, x);
    LoadedElsewhere(file, Memset(m, FIRST), LoadsOf(file), x);
    ClearedByte(Loaded(file, Memset(m, FIRST), LoadsOf(file)), SectionsOf(file), x);
  }

  lemma FirstIsZero(m: Bytes, x: int)
    requires 0x1_0000_0000 <= x < 0x1_0040_0000
    ensures Memset(m, FIRST)(x) == 0
  {
    assert InArea(FIRST.vaddr, FIRST.size, x);
  }

  /** Copy the trampoline, store the entry and build the page tables. */
  method Loader16Init(ram: Ram, entry: nat, code: seq<Byte>, p: Pages) returns (ok: bool)
    requires Laid(p) && ram.Valid() && entry < TWO64
    modifies ram
    ensures ram.Valid()
    ensures ok <==> |code| <= KB4
    ensures ok ==> forall a :: ram.word(a) == Initialised(Started(entry, old(ram.mem), code), p)(a)
    ensures !ok ==> ram.mem == old(ram.mem)
  {
    if |code| > KB4 {
      return false;
    }
    ram.Change(WithTrampoline(ram.mem, code));
    ram.Store(TRAMPOLINE_ADDR + 8 * 1, entry);
    InitPageTables(ram, p);
    ok := true;
  }

  /** The whole of `setup`, after the version and the boot parameters are found right and the friend memory
      is mapped: it succeeds exactly when the binary deploys and the trampoline fits, and then leaves the
      memory ready if the image is well formed. */
  method Setup(ram: Ram, file: Bytes, code: seq<Byte>, p: Pages, es: seq<Export>) returns (ok: bool)
    requires Laid(p) && AreSlots(es) && ram.Valid()
    modifies ram
    ensures ram.Valid()
    ensures ok <==> Deploys(file) && |code| <= KB4
    ensures ok && WellFormed(file, p, es) ==> Ready(file, old(ram.mem), code, p, es, ram.mem)
  {
    ghost var m := ram.mem;
    ram.Change(Memset(ram.mem, FIRST));
    ghost var ls, bs;
    ok, ls, bs := Deploy(ram, file);
    if !ok {
      return;
    }
    EntryBound(file);
    ok := Loader16Init(ram, GetEntry(file), code, p);
    if !ok {
      return;
    }
    ghost var w := ram.word;
    ExportInit(ram, es);
    if WellFormed(file, p, es) {
      SetupReady(file, m, code, p, es, w, ram.mem);
    }
  }

  lemma EntryBound(file: Bytes)
    ensures GetEntry(file) < TWO64
  {
    LeBound(file, E_ENTRY.at, E_ENTRY.width);
    EightBytes();
  }
}
