/**
  Mapping, remapping and aliasing pages under the shared PDPT, against a TLB that fills and evicts as
  it likes: tutorial/paging/mapping.
  */
module Mapping {
  import opened Wrappers
  import opened Paging
  import opened Tlb
  import opened InitialTables
  import opened TableExtension

  const VADDR1: int := 0x8000_0000
  const VADDR2: int := 0x8000_1000
  const VADDR3: int := 0x8000_2000

  /** The same three addresses by their indices. */
  function Vaddr(i: int): Va {
    Va(0, 2, 0, i, 0)
  }

  lemma VaddrIs()
    ensures Vaddr(0) == Split(VADDR1) && Vaddr(1) == Split(VADDR2) && Vaddr(2) == Split(VADDR3)
  {
  }

  const FRAME1: int := 0x1_0000_0000
  const FRAME2: int := 0x1_0000_1000

  /** The tables, the page directory and page table of the sample, and the two frames it maps. */
  datatype Layout = Layout(p: Pages, pd: nat, pt: nat, frame1: nat, frame2: nat)

  predicate LaidOut(l: Layout) {
    && Laid(l.p)
    && PageAligned(l.pd) && PageAligned(l.pt) && InRegion(l.pd) && InRegion(l.pt) && l.pd != l.pt
    && !InTables(l.p, l.pd) && !InTables(l.p, l.pt)
    && l.frame1 == FRAME1 && l.frame2 == FRAME2
  }

  // ---------- a core ----------

  class Core {
    var word: Words
    var cr3: int
    var tlb: set<Cached>

    constructor (w: Words, cr3: int, tlb: set<Cached>)
      ensures this.word == w && this.cr3 == cr3 && this.tlb == tlb
    {
      this.word := w;
      this.cr3 := cr3;
      this.tlb := tlb;
    }

    /** The TLB does as it likes between two instructions. */
    method Background(ops: seq<TlbOp>)
      modifies this`tlb
      ensures tlb == ApplyAll(word, cr3, old(tlb), ops)
    {
      var i := 0;
      while i < |ops|
        invariant 0 <= i <= |ops|
        invariant ApplyAll(word, cr3, tlb, ops[i..]) == ApplyAll(word, cr3, old(tlb), ops)
      {
        assert ops[i..][1..] == ops[i + 1..];
        tlb := Apply(word, cr3, tlb, ops[i]);
        i := i + 1;
      }
    }

    /** A load: the physical address it goes to and the word there, or a fault. */
    method Load(x: Va, pick: Option<Cached>) returns (pa: Option<int>, v: Word)
      ensures var t := Translate(word, cr3, tlb, x, pick);
              if t.Page? then pa == Some(Physical(t, x)) && v == word(Physical(t, x)) else pa == None
    {
      var t := Translate(word, cr3, tlb, x, pick);
      if t.Page? {
        pa := Some(Physical(t, x));
        v := word(Physical(t, x));
      } else {
        pa, v := None, NOTHING;
      }
    }

    /** A store through the mapping; it faults where the page is not mapped or not writable. */
    method Store(x: Va, v: Word, pick: Option<Cached>) returns (pa: Option<int>)
      modifies this`word
      ensures var t := Translate(old(word), cr3, tlb, x, pick);
              if t.Page? && t.writable
              then pa == Some(Physical(t, x)) && word == Put(old(word), Physical(t, x), v)
              else pa == None && word == old(word)
    {
      var t := Translate(word, cr3, tlb, x, pick);
      if t.Page? && t.writable {
        pa := Some(Physical(t, x));
        word := Put(word, Physical(t, x), v);
      } else {
        pa := None;
      }
    }

    method Invlpg(x: Va)
      modifies this`tlb
      ensures tlb == Invalidated(old(tlb), x)
    {
      tlb := Invalidated(tlb, x);
    }
  }

  /** What the hardware does around the n-th instruction of the sample: any TLB activity before it, and
      any choice of cached translation for it. */
  datatype Hardware = Hardware(ops: nat -> seq<TlbOp>, pick: nat -> Option<Cached>)

  ghost predicate SoundState(w: Words, cr3: int, tlb: set<Cached>, l: Layout) {
    LaidOut(l) && BaseTables(w, l.p) && cr3 == l.p.pml4t && Coherent(w, cr3, tlb)
  }

  /** The sample runs on the tables hakase made, with a TLB that agrees with them. */
  ghost predicate Sound(core: Core, l: Layout)
    reads core
  {
    SoundState(core.word, core.cr3, core.tlb, l)
  }

  /** Before the sample starts the PDPT has no further entries, and `pd` and `pt` have none at all. */
  ghost predicate Untouched(w: Words, l: Layout) {
    && (forall i :: Index(i) && i != 0 && i != 4 ==> Entry(w, l.p.pdpt, i) == NOTHING)
    && Zeroed(w, l.pd) && Zeroed(w, l.pt)
  }

  /** The page table of the sample is hooked in, by itself. */
  ghost predicate Hooked(w: Words, l: Layout) {
    && Entry(w, l.p.pdpt, 2) == Link(l.pd)
    && (forall i :: Index(i) && i != 0 && i != 2 && i != 4 ==> Entry(w, l.p.pdpt, i) == NOTHING)
    && Entry(w, l.pd, 0) == Link(l.pt)
    && (forall i :: Index(i) && i != 0 ==> Entry(w, l.pd, i) == NOTHING)
  }

  lemma SamplePagesApart(l: Layout)
    requires LaidOut(l)
    ensures l.p.pdpt + KB4 <= l.pd || l.pd + KB4 <= l.p.pdpt
    ensures l.p.pdpt + KB4 <= l.pt || l.pt + KB4 <= l.p.pdpt
    ensures l.pd + KB4 <= l.pt || l.pt + KB4 <= l.pd
  {
    PagesApart(l.p.pdpt, l.pd);
    PagesApart(l.p.pdpt, l.pt);
    PagesApart(l.pd, l.pt);
  }

  /** An entry the sample writes. */
  predicate OwnEntry(l: Layout, page: nat, i: nat) {
    i < 512 && (page == l.pd || page == l.pt || (page == l.p.pdpt && i == 2))
  }

  lemma OwnNotBase(l: Layout, page: nat, i: nat)
    requires LaidOut(l) && OwnEntry(l, page, i)
    ensures !BaseWord(l.p, page + 8 * i)
  {
    if page != l.p.pdpt { PagesApart(l.p.pdpt, page); }
    PagesApart(l.p.pd1, page);
    PagesApart(l.p.pd2, page);
  }

  /** The virtual address `x` is the number `a`. */
  predicate PointsTo(x: Va, a: int) {
    ValidVa(x) && Join(x) == a
  }

  method Locate(a: int) returns (x: Va)
    requires 0 <= a < TB256
    ensures PointsTo(x, a)
  {
    x := Split(a);
    SplitJoins(a);
    SplitValid(a);
  }

  /** An address in the friend region is mapped to itself. */
  lemma RegionMapped(w: Words, p: Pages, x: Va, a: int)
    requires BaseTables(w, p) && PointsTo(x, a) && InRegion(a)
    ensures Low(x)
    ensures Walk(w, p.pml4t, x).Page? && Walk(w, p.pml4t, x).writable && Physical(Walk(w, p.pml4t, x), x) == a
  {
    MapIsIdentity(x);
    BaseWalk(w, p, x);
  }

  /** A word the sample may write: not of the two initial mappings, and in the friend region. */
  predicate OwnWord(l: Layout, a: int) {
    InRegion(a) && !BaseWord(l.p, a)
  }

  lemma OwnEntryIsWord(l: Layout, page: nat, i: nat)
    requires LaidOut(l) && OwnEntry(l, page, i)
    ensures OwnWord(l, page + 8 * i)
  {
    InsideRegion(page, page + 8 * i);
    OwnNotBase(l, page, i);
  }

  /** A store to a table goes where it is meant to, whatever the TLB does. */
  lemma StoreGoes(w: Words, cr3: int, tlb: set<Cached>, l: Layout, x: Va, a: int, ops: seq<TlbOp>, pick: Option<Cached>)
    requires SoundState(w, cr3, tlb, l) && OwnWord(l, a) && PointsTo(x, a)
    ensures Coherent(w, cr3, ApplyAll(w, cr3, tlb, ops))
    ensures var t := Translate(w, cr3, ApplyAll(w, cr3, tlb, ops), x, pick);
            t.Page? && t.writable && Physical(t, x) == a
  {
    FillsKeepCoherent(w, cr3, tlb, ops);
    RegionMapped(w, l.p, x, a);
    CoherentInvisible(w, cr3, ApplyAll(w, cr3, tlb, ops), x, pick);
  }

  /** One store of the sample into one of its tables, with the TLB active before it. */
  method StoreWord(core: Core, l: Layout, x: Va, a: int, v: Word, ops: seq<TlbOp>, pick: Option<Cached>)
    requires Sound(core, l) && OwnWord(l, a) && PointsTo(x, a)
    modifies core
    ensures core.cr3 == old(core.cr3) && core.word == Put(old(core.word), a, v)
    ensures core.tlb == ApplyAll(old(core.word), old(core.cr3), old(core.tlb), ops)
  {
    StoreGoes(core.word, core.cr3, core.tlb, l, x, a, ops, pick);
    core.Background(ops);
    var pa := core.Store(x, v, pick);
  }

  method MakeLink(target: nat) returns (v: Word)
    requires PageAligned(target)
    ensures v == Link(target)
  {
    LinkDecodes(target);
    v := Decode(Or(target, TABLE_FLAGS));
  }

  /** It keeps the two mappings, and leaves no stale translation if the entry was not present. */
  lemma StoreSound(w: Words, cr3: int, tlb: set<Cached>, l: Layout, a: int, v: Word, ops: seq<TlbOp>)
    requires SoundState(w, cr3, tlb, l) && OwnWord(l, a)
    ensures BaseTables(Put(w, a, v), l.p) && Coherent(w, cr3, ApplyAll(w, cr3, tlb, ops))
    ensures !w(a).present ==> SoundState(Put(w, a, v), cr3, ApplyAll(w, cr3, tlb, ops), l)
  {
    FillsKeepCoherent(w, cr3, tlb, ops);
    BaseKept(w, l.p, a, v);
    if !w(a).present {
      MappingKeepsCoherent(w, cr3, ApplyAll(w, cr3, tlb, ops), a, v);
    }
  }

  /** The state after an entry of the sample is stored. */
  lemma EntryStoreSound(w: Words, cr3: int, tlb: set<Cached>, l: Layout, page: nat, i: nat, v: Word, ops: seq<TlbOp>)
    requires SoundState(w, cr3, tlb, l) && OwnEntry(l, page, i)
    ensures OwnWord(l, page + 8 * i) && BaseTables(Put(w, page + 8 * i, v), l.p)
    ensures Coherent(w, cr3, ApplyAll(w, cr3, tlb, ops))
    ensures !Entry(w, page, i).present ==> SoundState(Put(w, page + 8 * i, v), cr3, ApplyAll(w, cr3, tlb, ops), l)
  {
    OwnEntryIsWord(l, page, i);
    StoreSound(w, cr3, tlb, l, page + 8 * i, v, ops);
  }

  /** Store an entry of the sample, through the mapping. */
  method StoreEntry(core: Core, l: Layout, page: nat, i: nat, v: Word, ops: seq<TlbOp>, pick: Option<Cached>)
    requires Sound(core, l) && OwnWord(l, page + 8 * i)
    modifies core
    ensures core.cr3 == old(core.cr3) && core.word == Put(old(core.word), page + 8 * i, v)
    ensures core.tlb == ApplyAll(old(core.word), old(core.cr3), old(core.tlb), ops)
  {
    var x := Locate(page + 8 * i);
    StoreWord(core, l, x, page + 8 * i, v, ops, pick);
  }

  /** Store an address with the flags for present, writable and user. */
  method StoreLink(core: Core, l: Layout, page: nat, i: nat, target: nat, ops: seq<TlbOp>, pick: Option<Cached>)
    requires Sound(core, l) && OwnEntry(l, page, i) && PageAligned(target)
    modifies core
    ensures core.cr3 == old(core.cr3) && core.word == Put(old(core.word), page + 8 * i, Link(target))
    ensures BaseTables(core.word, l.p)
    ensures Coherent(old(core.word), core.cr3, core.tlb)
    ensures !Entry(old(core.word), page, i).present ==> Sound(core, l)
  {
    EntryStoreSound(core.word, core.cr3, core.tlb, l, page, i, Link(target), ops);
    var v := MakeLink(target);
    StoreEntry(core, l, page, i, v, ops, pick);
  }

  // ---------- the tables, step by step ----------

  function Hook1(w: Words, l: Layout): Words {
    Put(w, l.p.pdpt + 8 * 2, Link(l.pd))
  }

  function Hook2(w: Words, l: Layout): Words {
    Put(Hook1(w, l), l.pd + 8 * 0, Link(l.pt))
  }

  function Map1(w: Words, l: Layout): Words {
    Put(Hook2(w, l), l.pt + 8 * 0, Link(l.frame1))
  }

  function Map2(w: Words, l: Layout): Words {
    Put(Map1(w, l), l.pt + 8 * 0, Link(l.frame2))
  }

  function Map3(w: Words, l: Layout): Words {
    Put(Map2(w, l), l.pt + 8 * 1, Link(l.frame1))
  }

  function Map4(w: Words, l: Layout): Words {
    Put(Map3(w, l), l.pt + 8 * 2, Link(l.frame2))
  }

  /** The three entries that hook in a page are not present when the sample writes them. */
  lemma FreshWhenHooked(w: Words, l: Layout)
    requires LaidOut(l) && Untouched(w, l)
    ensures !Entry(w, l.p.pdpt, 2).present && !Entry(Hook1(w, l), l.pd, 0).present
    ensures !Entry(Hook2(w, l), l.pt, 0).present
  {
    SamplePagesApart(l);
    assert Entry(w, l.p.pdpt, 2) == NOTHING && Entry(w, l.pd, 0) == NOTHING && Entry(w, l.pt, 0) == NOTHING;
  }

  lemma HookedAfter(w: Words, l: Layout)
    requires LaidOut(l) && Untouched(w, l)
    ensures Hooked(Map1(w, l), l)
  {
    SamplePagesApart(l);
    forall i | Index(i)
      ensures i != 2 ==> Entry(Map1(w, l), l.p.pdpt, i) == Entry(w, l.p.pdpt, i)
      ensures i != 0 ==> Entry(Map1(w, l), l.pd, i) == Entry(w, l.pd, i)
    {
    }
  }

  /** The entries for `vaddr2` and `vaddr3` are not present when the sample writes them. */
  lemma FreshWhenMapped(w: Words, l: Layout)
    requires LaidOut(l) && Untouched(w, l)
    ensures !Entry(Map2(w, l), l.pt, 1).present && !Entry(Map3(w, l), l.pt, 2).present
  {
    SamplePagesApart(l);
    assert Entry(w, l.pt, 1) == NOTHING && Entry(w, l.pt, 2) == NOTHING;
  }

  /** Entry `i` of the sample's page table leads to `frame`. */
  ghost predicate Maps(w: Words, l: Layout, i: nat, frame: nat) {
    Entry(w, l.p.pdpt, 2) == Link(l.pd) && Entry(w, l.pd, 0) == Link(l.pt) && Entry(w, l.pt, i) == Link(frame)
  }

  lemma MapsInTurn(w: Words, l: Layout)
    requires LaidOut(l)
    ensures Maps(Map1(w, l), l, 0, l.frame1) && Maps(Map2(w, l), l, 0, l.frame2)
    ensures Maps(Map4(w, l), l, 1, l.frame1) && Maps(Map4(w, l), l, 2, l.frame2)
  {
    SamplePagesApart(l);
  }

  // ---------- the sample ----------

  lemma LoadEffect(w: Words, cr3: int, tlb: set<Cached>, l: Layout, i: nat, frame: nat,
                   ops: seq<TlbOp>, pick: Option<Cached>)
    requires SoundState(w, cr3, tlb, l) && i < 3 && Maps(w, l, i, frame)
    ensures var tlb' := ApplyAll(w, cr3, tlb, ops);
            var t := Translate(w, cr3, tlb', Vaddr(i), pick);
            && Coherent(w, cr3, tlb')
            && t.Page? && Physical(t, Vaddr(i)) == frame
  {
    FillsKeepCoherent(w, cr3, tlb, ops);
    ThroughTables(w, l.p, l.pd, l.pt, frame, Vaddr(i));
    CoherentInvisible(w, cr3, ApplyAll(w, cr3, tlb, ops), Vaddr(i), pick);
  }

  /** A load by the sample of a mapped page, with the TLB active before it: the physical address and
      the value are those of the current mapping. */
  method ShowMemdata(core: Core, l: Layout, x: Va, ghost i: nat, ghost frame: nat,
                     ops: seq<TlbOp>, pick: Option<Cached>)
    returns (pa: Option<int>, v: Word)
    requires Sound(core, l) && i < 3 && x == Vaddr(i) && Maps(core.word, l, i, frame)
    modifies core`tlb
    ensures Sound(core, l)
    ensures pa == Some(frame) && v == core.word(frame)
  {
    LoadEffect(core.word, core.cr3, core.tlb, l, i, frame, ops, pick);
    core.Background(ops);
    pa, v := core.Load(x, pick);
  }

  /** Hook in the page directory and the page table. */
  method HookTables(core: Core, l: Layout, h: Hardware)
    requires Sound(core, l) && Untouched(core.word, l)
    modifies core
    ensures Sound(core, l) && core.word == Hook2(old(core.word), l)
  {
    ghost var w := core.word;
    FreshWhenHooked(w, l);
    var i, j := VADDR1 % GB512 / GB1, VADDR1 % GB1 / MB2;
    assert i == 2 && j == 0;
    StoreLink(core, l, l.p.pdpt, i, l.pd, h.ops(0), h.pick(0));
    assert core.word == Hook1(w, l);
    StoreLink(core, l, l.pd, j, l.pt, h.ops(1), h.pick(1));
  }

  /** The first part: hook in the tables and map `vaddr1`. */
  method SetUp(core: Core, l: Layout, h: Hardware)
    requires Sound(core, l) && Untouched(core.word, l)
    modifies core
    ensures Sound(core, l) && core.word == Map1(old(core.word), l)
  {
    ghost var w := core.word;
    FreshWhenHooked(w, l);
    HookTables(core, l, h);
    var k := VADDR1 % MB2 / KB4;
    assert k == 0;
    StoreLink(core, l, l.pt, k, l.frame1, h.ops(2), h.pick(2));
  }

  /** Only the walks of the 4 KB page at `vaddr1` read its page-table entry. */
  lemma RemapElsewhere(w: Words, l: Layout, v: Word, x: Va)
    requires LaidOut(l) && BaseTables(w, l.p) && Hooked(w, l)
    requires Low(x) && !SamePage(Small, x, Vaddr(0))
    ensures Walk(Put(w, l.pt, v), l.p.pml4t, x) == Walk(w, l.p.pml4t, x)
  {
    var w' := Put(w, l.pt, v);
    OwnNotBase(l, l.pt, 0);
    BaseKept(w, l.p, l.pt, v);
    SamplePagesApart(l);
    if x.i3 == 0 || x.i3 == 4 {
      BaseWalk(w, l.p, x);
      BaseWalk(w', l.p, x);
    } else {
      assert Entry(w', l.p.pdpt, x.i3) == Entry(w, l.p.pdpt, x.i3);
      if x.i3 == 2 {
        assert Entry(w', l.pd, x.i2) == Entry(w, l.pd, x.i2);
        if x.i2 == 0 {
          assert Entry(w', l.pt, x.i1) == Entry(w, l.pt, x.i1);
        }
      }
    }
  }

  lemma RemapStaleOnlyThere(w: Words, l: Layout, tlb: set<Cached>, v: Word)
    requires LaidOut(l) && BaseTables(w, l.p) && Coherent(w, l.p.pml4t, tlb) && Hooked(w, l)
    ensures CoherentExcept(Put(w, l.pt, v), l.p.pml4t, tlb, Vaddr(0))
  {
    forall c, x | c in tlb && Low(x) && !SamePage(Small, x, Vaddr(0))
      ensures Current(Put(w, l.pt, v), l.p.pml4t, c, x)
    {
      assert Current(w, l.p.pml4t, c, x);
      RemapElsewhere(w, l, v, x);
    }
  }

  /** Remapping `vaddr1`: until it is flushed a stale translation can exist for that page, and for no
      other. */
  method Remap(core: Core, l: Layout, h: Hardware, ghost w: Words)
    requires Sound(core, l) && Untouched(w, l) && core.word == Map1(w, l)
    modifies core
    ensures core.cr3 == l.p.pml4t && BaseTables(core.word, l.p) && core.word == Map2(w, l)
    ensures CoherentExcept(core.word, core.cr3, core.tlb, Vaddr(0))
  {
    HookedAfter(w, l);
    var k := VADDR1 % MB2 / KB4;
    assert k == 0;
    StoreLink(core, l, l.pt, k, l.frame2, h.ops(3), h.pick(3));
    RemapStaleOnlyThere(Map1(w, l), l, core.tlb, Link(l.frame2));
  }

  lemma HookedBase(w: Words, l: Layout)
    requires LaidOut(l) && BaseTables(w, l.p)
    ensures BaseTables(Hook2(w, l), l.p)
  {
    OwnNotBase(l, l.p.pdpt, 2);
    OwnNotBase(l, l.pd, 0);
    BaseKept(w, l.p, l.p.pdpt + 8 * 2, Link(l.pd));
    BaseKept(Hook1(w, l), l.p, l.pd + 8 * 0, Link(l.pt));
  }

  lemma MappedBase(w: Words, l: Layout)
    requires LaidOut(l) && BaseTables(w, l.p)
    ensures BaseTables(Map1(w, l), l.p) && BaseTables(Map2(w, l), l.p)
  {
    HookedBase(w, l);
    OwnNotBase(l, l.pt, 0);
    BaseKept(Hook2(w, l), l.p, l.pt + 8 * 0, Link(l.frame1));
    BaseKept(Map1(w, l), l.p, l.pt + 8 * 0, Link(l.frame2));
  }

  /** Without the flush the load could go to the old frame: a TLB that took the page in before it was
      remapped still has it. */
  lemma FlushIsNeeded(w: Words, l: Layout)
    requires LaidOut(l) && BaseTables(w, l.p)
    ensures var tlb := ApplyAll(Map1(w, l), l.p.pml4t, {}, [Fill(Vaddr(0))]);
            var stale := Page(FRAME1, Small, true, true, false);
            exists c :: Translate(Map2(w, l), l.p.pml4t, tlb, Vaddr(0), Some(c)) == stale
    ensures Walk(Map2(w, l), l.p.pml4t, Vaddr(0)) == Page(FRAME2, Small, true, true, false)
  {
    var x := Vaddr(0);
    MapsInTurn(w, l);
    MappedBase(w, l);
    ThroughTables(Map1(w, l), l.p, l.pd, l.pt, l.frame1, x);
    ThroughTables(Map2(w, l), l.p, l.pd, l.pt, l.frame2, x);
    var t := Walk(Map1(w, l), l.p.pml4t, x);
    var tlb := ApplyAll(Map1(w, l), l.p.pml4t, {}, [Fill(x)]);
    assert [Fill(x)][1..] == [];
    assert Apply(Map1(w, l), l.p.pml4t, {}, Fill(x)) == {Cached(x, t)};
    assert ApplyAll(Map1(w, l), l.p.pml4t, {Cached(x, t)}, []) == {Cached(x, t)};
    assert Translate(Map2(w, l), l.p.pml4t, tlb, x, Some(Cached(x, t))) == t;
  }

  /** `invlpg (vaddr1)`: the TLB agrees with the tables again. */
  method Flush(core: Core, l: Layout, h: Hardware)
    requires LaidOut(l) && core.cr3 == l.p.pml4t && BaseTables(core.word, l.p)
    requires CoherentExcept(core.word, core.cr3, core.tlb, Vaddr(0))
    modifies core`tlb
    ensures Sound(core, l)
  {
    FillsKeepExcept(core.word, core.cr3, core.tlb, h.ops(4), Vaddr(0));
    core.Background(h.ops(4));
    InvalidateRepairs(core.word, core.cr3, core.tlb, Vaddr(0));
    core.Invlpg(Vaddr(0));
  }

  /** Map `vaddr2` and `vaddr3`; nothing needs to be flushed. */
  method MapOthers(core: Core, l: Layout, h: Hardware, ghost w: Words)
    requires Sound(core, l) && Untouched(w, l) && core.word == Map2(w, l)
    modifies core
    ensures Sound(core, l) && core.word == Map4(w, l)
  {
    FreshWhenMapped(w, l);
    var i, j := VADDR2 % MB2 / KB4, VADDR3 % MB2 / KB4;
    assert i == 1 && j == 2;
    StoreLink(core, l, l.pt, i, l.frame1, h.ops(6), h.pick(6));
    assert core.word == Map3(w, l);
    StoreLink(core, l, l.pt, j, l.frame2, h.ops(7), h.pick(7));
  }

  /** Neither frame is a table the sample writes. */
  predicate FramesApart(l: Layout) {
    && !InPage(l.p.pdpt, l.frame1) && !InPage(l.pd, l.frame1) && !InPage(l.pt, l.frame1)
    && !InPage(l.p.pdpt, l.frame2) && !InPage(l.pd, l.frame2) && !InPage(l.pt, l.frame2)
  }

  lemma FramesKept(w: Words, l: Layout, a: int)
    requires FramesApart(l) && (a == l.frame1 || a == l.frame2)
    ensures Map1(w, l)(a) == w(a) && Map2(w, l)(a) == w(a) && Map4(w, l)(a) == w(a)
  {
  }

  /** Whatever the TLB does before each instruction, the four loads of the sample go to the frames the
      sample has just mapped, and read the words that were there. */
  method FriendMain(core: Core, l: Layout, h: Hardware) returns (pa: seq<Option<int>>, v: seq<Word>)
    requires Sound(core, l) && Untouched(core.word, l)
    modifies core
    ensures pa == [Some(0x1_0000_0000), Some(0x1_0000_1000), Some(0x1_0000_0000), Some(0x1_0000_1000)]
    ensures var w := old(core.word); FramesApart(l) ==> v == [w(FRAME1), w(FRAME2), w(FRAME1), w(FRAME2)]
    ensures Sound(core, l) && core.word == Map4(old(core.word), l)
  {
    ghost var w := core.word;
    MapsInTurn(w, l);
    SetUp(core, l, h);
    var p1, v1 := ShowMemdata(core, l, Vaddr(0), 0, l.frame1, h.ops(8), h.pick(8));
    Remap(core, l, h, w);
    Flush(core, l, h);
    var p2, v2 := ShowMemdata(core, l, Vaddr(0), 0, l.frame2, h.ops(9), h.pick(9));
    MapOthers(core, l, h, w);
    var p3, v3 := ShowMemdata(core, l, Vaddr(1), 1, l.frame1, h.ops(10), h.pick(10));
    var p4, v4 := ShowMemdata(core, l, Vaddr(2), 2, l.frame2, h.ops(11), h.pick(11));
    pa, v := [p1, p2, p3, p4], [v1, v2, v3, v4];
    if FramesApart(l) {
      FramesKept(w, l, l.frame1);
      FramesKept(w, l, l.frame2);
    }
  }
}
