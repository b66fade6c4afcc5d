/** The page tables that hakase builds for the friend cores: `Loader16::InitPageTables`. */
module InitialTables {
  import opened Paging
  import opened PhysicalMemory

  const DEPLOY_PHYS_ADDR_START: int := 0x1_0000_0000
  const DEPLOY_PHYS_ADDR_END: int := 0x1_4000_0000
  const TRAMPOLINE_ADDR: int := 0x7_0000
  const INITIAL_PML4T: int := TRAMPOLINE_ADDR + KB4

  /** The four table pages. */
  datatype Pages = Pages(pml4t: nat, pdpt: nat, pd1: nat, pd2: nat)

  predicate InRegion(a: int) {
    DEPLOY_PHYS_ADDR_START <= a < DEPLOY_PHYS_ADDR_END
  }

  /** Aligned and distinct; the PML4 is in the trampoline, the others in the friend region. */
  predicate Laid(p: Pages) {
    && p.pml4t == INITIAL_PML4T
    && PageAligned(p.pdpt) && PageAligned(p.pd1) && PageAligned(p.pd2)
    && InRegion(p.pdpt) && InRegion(p.pd1) && InRegion(p.pd2)
    && p.pdpt != p.pd1 && p.pdpt != p.pd2 && p.pd1 != p.pd2
  }

  /** The 2 MB of the friend region that entry `i` of pd2 maps. */
  function Chunk(i: int): int {
    DEPLOY_PHYS_ADDR_START + i * MB2
  }

  /** The first `n` entries of pd2. */
  function Filled(w: Words, pd2: int, n: nat): Words {
    (a: int) =>
      var i := (a - pd2) / 8;
      if 0 <= i < n && a == pd2 + 8 * i then Large(Chunk(i), false) else w(a)
  }

  /** The entries outside pd2. */
  function Upper(w: Words, p: Pages): Words {
    Put(Put(Put(Put(w, p.pml4t, Link(p.pdpt)), p.pdpt, Link(p.pd1)), p.pdpt + 8 * 4, Link(p.pd2)),
        p.pd1, Large(0, false))
  }

  function Initialised(w: Words, p: Pages): Words {
    Filled(Upper(w, p), p.pd2, 512)
  }

  /** Building the tables writes one PML4 entry, two PDPT entries, one entry of the first page
      directory and all 512 of the second, and nothing else. */
  method InitPageTables(ram: Ram, p: Pages)
    requires Laid(p) && ram.Valid()
    modifies ram
    ensures ram.Valid()
    ensures forall a :: ram.word(a) == Initialised(old(ram.word), p)(a)
  {
    StoreUpper(ram, p);
    ghost var upper := ram.word;
    var addr := DEPLOY_PHYS_ADDR_START;
    ghost var n := 0;
    while addr < DEPLOY_PHYS_ADDR_END
      invariant 0 <= n <= 512 && addr == Chunk(n) && ram.Valid()
      invariant forall a :: ram.word(a) == Filled(upper, p.pd2, n)(a)
      decreases DEPLOY_PHYS_ADDR_END - addr
    {
      var i := addr % GB1 / MB2;
      ChunkIndex(n, addr);
      EntryAligned(p.pd2, i);
      ram.StoreLarge(p.pd2 + 8 * i, addr);
      n := n + 1;
      addr := addr + MB2;
    }
  }

  lemma ChunkIndex(n: nat, addr: int)
    requires n < 512 && addr == Chunk(n)
    ensures addr % GB1 / MB2 == n && PageAligned(addr)
  {
  }

  method StoreUpper(ram: Ram, p: Pages)
    requires Laid(p) && ram.Valid()
    modifies ram
    ensures ram.Valid() && ram.word == Upper(old(ram.word), p)
  {
    var top := DEPLOY_PHYS_ADDR_START % TB256 / GB512;
    var low, high := TRAMPOLINE_ADDR % GB512 / GB1, DEPLOY_PHYS_ADDR_START % GB512 / GB1;
    var trampoline := TRAMPOLINE_ADDR / MB2 * MB2;
    assert top == 0 && low == 0 && high == 4 && trampoline == 0;
    EntryAligned(p.pml4t, top);
    EntryAligned(p.pdpt, low);
    EntryAligned(p.pdpt, high);
    EntryAligned(p.pd1, 0);
    ram.StoreLink(p.pml4t + 8 * top, p.pdpt);
    ram.StoreLink(p.pdpt + 8 * low, p.pd1);
    ram.StoreLink(p.pdpt + 8 * high, p.pd2);
    ram.StoreLarge(p.pd1 + 8 * (trampoline % GB1 / MB2), trampoline);
  }

  // ---------- what the tables compute ----------

  ghost predicate Zeroed(w: Words, page: int) {
    forall i :: Index(i) ==> Entry(w, page, i) == NOTHING
  }

  /** The two mappings are in place in `w`; nothing is said of the other 510 slots of the PDPT. */
  ghost predicate BaseTables(w: Words, p: Pages) {
    && Entry(w, p.pml4t, 0) == Link(p.pdpt)
    && Entry(w, p.pdpt, 0) == Link(p.pd1) && Entry(w, p.pdpt, 4) == Link(p.pd2)
    && (forall i :: Index(i) ==> Entry(w, p.pd1, i) == if i == 0 then Large(0, false) else NOTHING)
    && (forall i :: Index(i) ==> Entry(w, p.pd2, i) == Large(Chunk(i), false))
  }

  ghost predicate TablesAt(w: Words, p: Pages) {
    BaseTables(w, p) && forall i :: Index(i) && i != 0 && i != 4 ==> Entry(w, p.pdpt, i) == NOTHING
  }

  lemma PagesApart(p: int, q: int)
    requires PageAligned(p) && PageAligned(q) && p != q
    ensures p + KB4 <= q || q + KB4 <= p
  {
    var i, j := p / KB4, q / KB4;
    assert p == i * KB4 && q == j * KB4;
  }

  /** An entry of one table is not an entry of another, so the writes do not disturb each other. */
  lemma EntriesApart(w: Words, p: Pages, page: int, i: int)
    requires Laid(p) && PageAligned(page) && Index(i) && page != p.pd2
    ensures Entry(Initialised(w, p), page, i) == Entry(Upper(w, p), page, i)
  {
    PagesApart(page, p.pd2);
  }

  function PdptEntry(w: Words, p: Pages, i: int): Word {
    if i == 0 then Link(p.pd1) else if i == 4 then Link(p.pd2) else Entry(w, p.pdpt, i)
  }

  lemma InitialisedUpper(w: Words, p: Pages)
    requires Laid(p)
    ensures var u := Upper(w, p);
            && Entry(u, p.pml4t, 0) == Link(p.pdpt)
            && (forall i :: Index(i) ==> Entry(u, p.pdpt, i) == PdptEntry(w, p, i))
            && (forall i :: Index(i) ==> Entry(u, p.pd1, i) == if i == 0 then Large(0, false) else Entry(w, p.pd1, i))
  {
    PagesApart(p.pdpt, p.pd1);
  }

  lemma InitialisedLower(w: Words, p: Pages, i: nat)
    requires Laid(p) && Index(i)
    ensures Entry(Initialised(w, p), p.pd2, i) == Large(Chunk(i), false)
  {
    assert (p.pd2 + 8 * i - p.pd2) / 8 == i;
  }

  lemma InitialisedTables(w: Words, w': Words, p: Pages)
    requires Laid(p) && Zeroed(w, p.pdpt) && Zeroed(w, p.pd1)
    requires forall a :: w'(a) == Initialised(w, p)(a)
    ensures TablesAt(w', p)
  {
    InitialisedUpper(w, p);
    EntriesApart(w, p, p.pml4t, 0);
    forall i | Index(i) ensures Entry(w', p.pdpt, i) == PdptEntry(w, p, i) {
      EntriesApart(w, p, p.pdpt, i);
    }
    forall i | Index(i) ensures Entry(w', p.pd1, i) == if i == 0 then Large(0, false) else NOTHING {
      EntriesApart(w, p, p.pd1, i);
      assert Entry(w, p.pd1, i) == NOTHING;
    }
    forall i | Index(i) ensures Entry(w', p.pd2, i) == Large(Chunk(i), false) {
      InitialisedLower(w, p, i);
    }
  }

  /** A 2 MB page, writable and open to user mode. */
  function Wide(base: int): Translation {
    Page(base, Big, true, true, false)
  }

  /** The first 2 MB and the friend region are mapped, to themselves; nothing else of the first 512 GB is. */
  function InitialMap(x: Va): Translation {
    if x.i3 == 0 && x.i2 == 0 then Wide(0)
    else if x.i3 == 4 then Wide(Chunk(x.i2))
    else Fault
  }

  lemma ChunkAligned(i: int)
    ensures Chunk(i) / MB2 * MB2 == Chunk(i)
  {
    assert Chunk(i) == (0x800 + i) * MB2;
  }

  /** Whatever the other PDPT slots hold, the two mappings stay. */
  lemma BaseWalk(w: Words, p: Pages, x: Va)
    requires BaseTables(w, p) && ValidVa(x) && x.i4 == 0 && (x.i3 == 0 || x.i3 == 4)
    ensures Walk(w, p.pml4t, x) == InitialMap(x)
  {
    ChunkAligned(x.i2);
  }

  lemma InitialWalk(w: Words, p: Pages, x: Va)
    requires TablesAt(w, p) && ValidVa(x) && x.i4 == 0
    ensures Walk(w, p.pml4t, x) == InitialMap(x)
  {
    if x.i3 == 0 || x.i3 == 4 { BaseWalk(w, p, x); }
  }

  predicate Mapped(va: int) {
    0 <= va < MB2 || InRegion(va)
  }

  /** The map by address: it is the identity where it is defined. */
  lemma MapIsIdentity(x: Va)
    requires ValidVa(x) && Join(x) < GB512
    ensures x.i4 == 0
    ensures InitialMap(x).Page? <==> Mapped(Join(x))
    ensures Mapped(Join(x)) ==> Physical(InitialMap(x), x) == Join(x)
    ensures InRegion(Join(x)) ==> x.i3 == 4
  {
  }

  /** Below 512 GB the tables map the first 2 MB and the friend region to themselves, writable and open
      to user mode, and nothing else. */
  lemma IdentityWalk(w: Words, p: Pages, va: int)
    requires TablesAt(w, p) && 0 <= va < GB512
    ensures var t := Walk(w, p.pml4t, Split(va));
            if va < 0x20_0000 || 0x1_0000_0000 <= va < 0x1_4000_0000
            then t.Page? && t.writable && t.user && Physical(t, Split(va)) == va
            else t == Fault
  {
    var x := Split(va);
    SplitJoins(va);
    SplitValid(va);
    MapIsIdentity(x);
    InitialWalk(w, p, x);
  }

  predicate InPage(page: int, a: int) {
    page <= a < page + KB4
  }

  predicate InTables(p: Pages, a: int) {
    InPage(p.pml4t, a) || InPage(p.pdpt, a) || InPage(p.pd1, a) || InPage(p.pd2, a)
  }

  lemma InsideRegion(page: int, a: int)
    requires PageAligned(page) && InRegion(page) && InPage(page, a)
    ensures InRegion(a)
  {
    var q := page / KB4;
    assert page == q * KB4;
  }

  /** The tables can be edited through the mapping they define. */
  lemma TablesMapped(w: Words, p: Pages, a: int)
    requires Laid(p) && TablesAt(w, p) && InTables(p, a)
    ensures var t := Walk(w, p.pml4t, Split(a)); t.Page? && t.writable && Physical(t, Split(a)) == a
  {
    if InPage(p.pdpt, a) {
      InsideRegion(p.pdpt, a);
    } else if InPage(p.pd1, a) {
      InsideRegion(p.pd1, a);
    } else if InPage(p.pd2, a) {
      InsideRegion(p.pd2, a);
    }
    IdentityWalk(w, p, a);
  }

  /** `Loader16::InitPageTables`, from zeroed pages, leaves exactly the identity mapping. */
  method InitAndMap(ram: Ram, p: Pages)
    requires Laid(p) && ram.Valid() && Zeroed(ram.word, p.pdpt) && Zeroed(ram.word, p.pd1)
    modifies ram
    ensures ram.Valid() && TablesAt(ram.word, p)
    ensures forall x :: ValidVa(x) && x.i4 == 0 ==> Walk(ram.word, p.pml4t, x) == InitialMap(x)
  {
    ghost var before := ram.word;
    InitPageTables(ram, p);
    InitialisedTables(before, ram.word, p);
    forall x | ValidVa(x) && x.i4 == 0 ensures Walk(ram.word, p.pml4t, x) == InitialMap(x) {
      InitialWalk(ram.word, p, x);
    }
  }
}
