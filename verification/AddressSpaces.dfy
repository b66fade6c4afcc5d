/**
  Two address spaces that share a page directory of global 2 MB pages, and switching between them by
  loading CR3: sample_old/paging/041.
  */
module AddressSpaces {
  import opened Wrappers
  import opened Paging
  import opened Tlb
  import opened PhysicalMemory

  /** In this sample virtual addresses below 1 GB are physical addresses less this offset. */
  const OFFSET: int := 0x8000_0000

  const APP1: int := 0x31_0000 + OFFSET
  const APP2: int := 0x31_4000 + OFFSET
  const BAREMETAL: int := 0x31_8000 + OFFSET
  const PAGE1: int := 0x8050_0000
  const PAGE2: int := 0x8060_0000
  const ENTRY: int := 0xC000_0000

  /** The first `n` entries of the shared page directory. */
  function Shared(w: Words, n: nat): Words {
    (a: int) =>
      var i := (a - BAREMETAL) / 8;
      if 0 <= i < n && a == BAREMETAL + 8 * i then Large(OFFSET + MB2 * i, true) else w(a)
  }

  /** PML4, PDPT, page directory and page table of one space, in four consecutive pages. */
  function Created(w: Words, base: nat, page: nat): Words {
    Put(Put(Put(Put(Put(w, base, Link(base + 0x1000)), base + 0x1000, Link(BAREMETAL)),
      base + 0x1000 + 8 * 3, Link(base + 0x2000)), base + 0x2000, Link(base + 0x3000)), base + 0x3000, Link(page))
  }

  method CreatePagetable(ram: Ram, base: nat, page: nat)
    requires PageAligned(base) && PageAligned(base + 0x3000) && PageAligned(page) && ram.Valid()
    modifies ram
    ensures ram.Valid() && ram.word == Created(old(ram.word), base, page)
  {
    EntryAligned(base, 0);
    EntryAligned(base, 0x1000 / 8);
    EntryAligned(base, 0x1000 / 8 + 3);
    EntryAligned(base, 0x2000 / 8);
    EntryAligned(base, 0x3000 / 8);
    ram.StoreLink(base, base + 0x1000);
    ram.StoreLink(base + 0x1000, BAREMETAL);
    ram.StoreLink(base + 0x1000 + 8 * 3, base + 0x2000);
    ram.StoreLink(base + 0x2000, base + 0x3000);
    ram.StoreLink(base + 0x3000, page);
  }

  /** Every entry of the table at `table` is zero but for entry `i`, which is `e`. */
  ghost predicate Only(w: Words, table: int, i: int, e: Word) {
    forall j :: Index(j) ==> Entry(w, table, j) == if j == i then e else NOTHING
  }

  ghost predicate SharedAt(w: Words) {
    forall i :: Index(i) ==> Entry(w, BAREMETAL, i) == Large(OFFSET + MB2 * i, true)
  }

  function PdptAt(base: nat, j: int): Word {
    if j == 0 then Link(BAREMETAL) else if j == 3 then Link(base + 0x2000) else NOTHING
  }

  /** The tables of the space at `base`, whose application is in `page`. */
  ghost predicate SpaceAt(w: Words, base: nat, page: nat) {
    && Only(w, base, 0, Link(base + 0x1000))
    && (forall j :: Index(j) ==> Entry(w, base + 0x1000, j) == PdptAt(base, j))
    && Only(w, base + 0x2000, 0, Link(base + 0x3000))
    && Only(w, base + 0x3000, 0, Link(page))
  }

  ghost predicate SpacesAt(w: Words) {
    SpaceAt(w, APP1, PAGE1) && SpaceAt(w, APP2, PAGE2) && SharedAt(w)
  }

  method BuildSpaces(ram: Ram)
    requires ram.Valid()
    modifies ram
    ensures ram.Valid() && SpacesAt(ram.word)
    ensures forall a :: !(APP1 <= a < APP1 + 0x9000) ==> ram.word(a) == old(ram.word)(a)
  {
    ram.Clear(APP1, 0x9000);
    ghost var cleared := ram.word;
    var i := 0;
    while i < 512
      invariant 0 <= i <= 512 && ram.Valid()
      invariant forall a :: ram.word(a) == Shared(cleared, i)(a)
    {
      SharedAligned(i);
      EntryAligned(BAREMETAL, i);
      ram.StoreGlobal(BAREMETAL + 8 * i, OFFSET + MB2 * i);
      i := i + 1;
    }
    ghost var shared := ram.word;
    CreatePagetable(ram, APP1, PAGE1);
    CreatePagetable(ram, APP2, PAGE2);
    SpacesBuilt(old(ram.word), shared, ram.word);
  }

  lemma SharedAligned(i: int)
    requires Index(i)
    ensures PageAligned(OFFSET + MB2 * i) && (OFFSET + MB2 * i) / MB2 * MB2 == OFFSET + MB2 * i
  {
    assert OFFSET + MB2 * i == (0x400 + i) * MB2;
  }

  /** From zeroed pages `create_pagetable` makes the tables of one space. */
  lemma SpaceCreated(w: Words, base: nat, page: nat)
    requires forall a :: base <= a < base + 0x4000 ==> w(a) == NOTHING
    ensures SpaceAt(Created(w, base, page), base, page)
    ensures forall a :: !(base <= a < base + 0x4000) ==> Created(w, base, page)(a) == w(a)
  {
  }

  lemma EntriesSame(w: Words, w': Words, table: int)
    requires forall a :: table <= a < table + KB4 ==> w'(a) == w(a)
    ensures forall j :: Index(j) ==> Entry(w', table, j) == Entry(w, table, j)
  {
  }

  lemma SpaceFrame(w: Words, w': Words, base: nat, page: nat)
    requires SpaceAt(w, base, page) && forall a :: base <= a < base + 0x4000 ==> w'(a) == w(a)
    ensures SpaceAt(w', base, page)
  {
    EntriesSame(w, w', base);
    EntriesSame(w, w', base + 0x1000);
    EntriesSame(w, w', base + 0x2000);
    EntriesSame(w, w', base + 0x3000);
  }

  lemma SharedBuilt(w: Words, w': Words)
    requires forall a :: BAREMETAL <= a < BAREMETAL + KB4 ==> w'(a) == Shared(w, 512)(a)
    ensures SharedAt(w')
  {
    forall i | Index(i) ensures Entry(w', BAREMETAL, i) == Large(OFFSET + MB2 * i, true) {
      assert (BAREMETAL + 8 * i - BAREMETAL) / 8 == i;
    }
  }

  lemma SpacesBuilt(w: Words, shared: Words, w': Words)
    requires forall a :: shared(a) == Shared(ZeroedWords(w, APP1, 0x9000), 512)(a)
    requires w' == Created(Created(shared, APP1, PAGE1), APP2, PAGE2)
    ensures SpacesAt(w')
    ensures forall a :: !(APP1 <= a < APP1 + 0x9000) ==> w'(a) == w(a)
  {
    var one := Created(shared, APP1, PAGE1);
    SpaceCreated(shared, APP1, PAGE1);
    SpaceCreated(one, APP2, PAGE2);
    SpaceFrame(one, w', APP1, PAGE1);
    SharedBuilt(ZeroedWords(w, APP1, 0x9000), w');
  }

  // ---------- what each space maps ----------

  /** The translation in the space whose application is in `page`: the shared gigabyte, the page at
      0xC0000000, and nothing else. */
  function InSpace(page: int, x: Va): Translation {
    if x.i4 == 0 && x.i3 == 0 then Page(OFFSET + MB2 * x.i2, Big, true, true, true)
    else if x.i4 == 0 && x.i3 == 3 && x.i2 == 0 && x.i1 == 0 then Page(page, Small, true, true, false)
    else Fault
  }

  lemma SpaceWalk(w: Words, base: nat, page: nat, x: Va)
    requires SpaceAt(w, base, page) && SharedAt(w) && ValidVa(x)
    ensures Walk(w, base, x) == InSpace(page, x)
  {
    SharedAligned(x.i2);
  }

  /** By address: below 1 GB the offset is added, and the application is reached at its entry point. */
  lemma SpaceByAddress(page: int, va: int)
    requires 0 <= va < TB256
    ensures ValidVa(Split(va))
    ensures var t := InSpace(page, Split(va));
            if va < GB1 then t.Page? && t.global && Physical(t, Split(va)) == va + OFFSET
            else if ENTRY <= va < ENTRY + KB4 then t.Page? && !t.global && Physical(t, Split(va)) == page + (va - ENTRY)
            else t == Fault
  {
    SplitJoins(va);
    SplitValid(va);
  }

  // ---------- every run ----------

  /** Which application's CR3 is loaded, and what the TLB holds. */
  datatype Running = Running(cr3: int, tlb: set<Cached>)

  datatype Action =
    | TlbAction(op: TlbOp)
    | LoadCr3(second: bool)

  /** The TLB takes in only addresses a walk can be asked for. */
  predicate Possible(x: Action) {
    x.TlbAction? && x.op.Fill? ==> ValidVa(x.op.x)
  }

  function Act(w: Words, r: Running, x: Action): Running {
    match x
    case TlbAction(op) => r.(tlb := Apply(w, r.cr3, r.tlb, op))
    case LoadCr3(second) => Running(if second then APP2 else APP1, Switched(r.tlb))
  }

  function RunAll(w: Words, r: Running, xs: seq<Action>): Running
    decreases |xs|
  {
    if xs == [] then r else RunAll(w, Act(w, r, xs[0]), xs[1..])
  }

  /** A global entry is right in both spaces, any other in the one that is loaded. */
  ghost predicate Holds(w: Words, r: Running, c: Cached, x: Va) {
    Covers(c, x) ==>
      && Walk(w, r.cr3, x) == c.page
      && (c.page.global ==> Walk(w, APP1, x) == c.page && Walk(w, APP2, x) == c.page)
  }

  ghost predicate Kept(w: Words, r: Running) {
    && (r.cr3 == APP1 || r.cr3 == APP2)
    && forall c, x :: c in r.tlb && ValidVa(x) ==> Holds(w, r, c, x)
  }

  lemma BothWalks(w: Words, x: Va)
    requires SpacesAt(w) && ValidVa(x)
    ensures Walk(w, APP1, x) == InSpace(PAGE1, x) && Walk(w, APP2, x) == InSpace(PAGE2, x)
  {
    SpaceWalk(w, APP1, PAGE1, x);
    SpaceWalk(w, APP2, PAGE2, x);
  }

  lemma FillHolds(w: Words, r: Running, x: Va, y: Va)
    requires SpacesAt(w) && Kept(w, r) && ValidVa(x) && ValidVa(y)
    ensures Walk(w, r.cr3, x).Page? ==> Holds(w, r, Cached(x, Walk(w, r.cr3, x)), y)
  {
    FillCurrent(w, r.cr3, x, y);
    BothWalks(w, x);
    BothWalks(w, y);
  }

  lemma FillKeeps(w: Words, r: Running, x: Va)
    requires SpacesAt(w) && Kept(w, r) && ValidVa(x)
    ensures Kept(w, r.(tlb := Apply(w, r.cr3, r.tlb, Fill(x))))
  {
    var r' := r.(tlb := Apply(w, r.cr3, r.tlb, Fill(x)));
    forall c, y | c in r'.tlb && ValidVa(y) ensures Holds(w, r', c, y) {
      if c in r.tlb { assert Holds(w, r, c, y); } else { FillHolds(w, r, x, y); }
    }
  }

  lemma SwitchKeeps(w: Words, r: Running, second: bool)
    requires SpacesAt(w) && Kept(w, r)
    ensures Kept(w, Act(w, r, LoadCr3(second)))
  {
    var r' := Act(w, r, LoadCr3(second));
    forall c, x | c in r'.tlb && ValidVa(x) ensures Holds(w, r', c, x) {
      assert Holds(w, r, c, x);
    }
  }

  lemma ActKeeps(w: Words, r: Running, x: Action)
    requires SpacesAt(w) && Kept(w, r) && Possible(x)
    ensures Kept(w, Act(w, r, x))
  {
    match x
    case TlbAction(op) =>
      if op.Fill? {
        FillKeeps(w, r, op.x);
      } else {
        forall c, y | c in r.tlb - {op.c} && ValidVa(y) ensures Holds(w, Act(w, r, x), c, y) {
          assert Holds(w, r, c, y);
        }
      }
    case LoadCr3(second) => SwitchKeeps(w, r, second);
  }

  lemma {:induction false} RunKeeps(w: Words, r: Running, xs: seq<Action>)
    requires SpacesAt(w) && Kept(w, r) && forall x :: x in xs ==> Possible(x)
    ensures Kept(w, RunAll(w, r, xs))
    decreases |xs|
  {
    if xs != [] {
      ActKeeps(w, r, xs[0]);
      RunKeeps(w, Act(w, r, xs[0]), xs[1..]);
    }
  }

  /** Which application's tables the last load of CR3 among these named; `second` if there was none. */
  function LastLoad(xs: seq<Action>, second: bool): bool {
    if xs == [] then second
    else
      var n := |xs| - 1;
      if xs[n].LoadCr3? then xs[n].second else LastLoad(xs[..n], second)
  }

  lemma {:induction false} LastLoadFrom(xs: seq<Action>, second: bool)
    requires xs != []
    ensures LastLoad(xs, second) == LastLoad(xs[1..], if xs[0].LoadCr3? then xs[0].second else second)
  {
    var n := |xs| - 1;
    if n > 0 && !xs[n].LoadCr3? {
      assert xs[1..][..n - 1] == xs[..n][1..];
      LastLoadFrom(xs[..n], second);
    }
  }

  function SpaceOf(second: bool): int {
    if second then APP2 else APP1
  }

  /** The space in use is the one that was last loaded. */
  lemma {:induction false} RunLoads(w: Words, second: bool, tlb: set<Cached>, xs: seq<Action>)
    ensures RunAll(w, Running(SpaceOf(second), tlb), xs).cr3 == SpaceOf(LastLoad(xs, second))
    decreases |xs|
  {
    if xs != [] {
      var next := if xs[0].LoadCr3? then xs[0].second else second;
      LastLoadFrom(xs, second);
      RunLoads(w, next, Act(w, Running(SpaceOf(second), tlb), xs[0]).tlb, xs[1..]);
    }
  }

  /** Through any sequence of address-space switches, fills and evictions from an empty TLB, every
      access is translated as the tables of the space that was last loaded say, whether or not it hits:
      although global entries survive each switch, none is ever stale. */
  lemma SwitchingIsCoherent(w: Words, xs: seq<Action>, second: bool, x: Va, pick: Option<Cached>)
    requires SpacesAt(w) && ValidVa(x) && forall y :: y in xs ==> Possible(y)
    ensures var r := RunAll(w, Running(SpaceOf(second), {}), xs);
            Translate(w, r.cr3, r.tlb, x, pick) == InSpace(if LastLoad(xs, second) then PAGE2 else PAGE1, x)
  {
    var r0 := Running(SpaceOf(second), {});
    RunKeeps(w, r0, xs);
    RunLoads(w, second, {}, xs);
    var r := RunAll(w, r0, xs);
    BothWalks(w, x);
    if pick.Some? && pick.value in r.tlb { assert Holds(w, r, pick.value, x); }
  }

  /** So a jump to 0xC0000000 reaches the application at 0x80600000 if app2 was loaded last, and the one at
      0x80500000 if app1 was. */
  lemma EntryReaches(w: Words, xs: seq<Action>, second: bool, pick: Option<Cached>)
    requires SpacesAt(w) && forall y :: y in xs ==> Possible(y)
    ensures var r := RunAll(w, Running(SpaceOf(second), {}), xs);
            var t := Translate(w, r.cr3, r.tlb, Split(0xC000_0000), pick);
            && t.Page?
            && Physical(t, Split(0xC000_0000)) == if LastLoad(xs, second) then 0x8060_0000 else 0x8050_0000
  {
    SplitValid(0xC000_0000);
    SwitchingIsCoherent(w, xs, second, Split(0xC000_0000), pick);
    SpaceByAddress(PAGE1, 0xC000_0000);
    SpaceByAddress(PAGE2, 0xC000_0000);
  }

  /** Switching keeps exactly the translations of the shared gigabyte, and what it keeps is what the tables of
      the new space give. */
  lemma SwitchKeepsShared(w: Words, r: Running, second: bool, c: Cached, x: Va)
    requires SpacesAt(w) && Kept(w, r) && c in r.tlb && Covers(c, x) && ValidVa(x)
    ensures c in Act(w, r, LoadCr3(second)).tlb <==> x.i3 == 0
    ensures c in Act(w, r, LoadCr3(second)).tlb ==> Walk(w, SpaceOf(second), x) == c.page
  {
    assert Holds(w, r, c, x);
    BothWalks(w, x);
  }
}
