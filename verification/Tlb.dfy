/**
  A translation lookaside buffer (section 4.10 of the Intel SDM, volume 3A).  It may take in the
  translation of any mapped address and drop any entry at any time; it never holds a fault.
  */
module Tlb {
  import opened Wrappers
  import opened Paging

  /** The translation of the page that contains `at`. */
  datatype Cached = Cached(at: Va, page: Translation)

  predicate Covers(c: Cached, x: Va) {
    c.page.Page? && SamePage(c.page.size, c.at, x)
  }

  datatype TlbOp = Fill(x: Va) | Evict(c: Cached)

  function Apply(w: Words, cr3: int, tlb: set<Cached>, op: TlbOp): set<Cached> {
    match op
    case Fill(x) => if Walk(w, cr3, x).Page? then tlb + {Cached(x, Walk(w, cr3, x))} else tlb
    case Evict(c) => tlb - {c}
  }

  function ApplyAll(w: Words, cr3: int, tlb: set<Cached>, ops: seq<TlbOp>): set<Cached>
    decreases |ops|
  {
    if ops == [] then tlb else ApplyAll(w, cr3, Apply(w, cr3, tlb, ops[0]), ops[1..])
  }

  /** `mov cr3` drops every entry that is not global. */
  function Switched(tlb: set<Cached>): set<Cached> {
    set c | c in tlb && c.page.Page? && c.page.global
  }

  /** `invlpg` drops every entry for the address, global or not. */
  function Invalidated(tlb: set<Cached>, x: Va): set<Cached> {
    set c | c in tlb && !Covers(c, x)
  }

  /** The processor may use a cached translation or walk the tables. */
  function Translate(w: Words, cr3: int, tlb: set<Cached>, x: Va, pick: Option<Cached>): Translation {
    if pick.Some? && pick.value in tlb && Covers(pick.value, x) then pick.value.page else Walk(w, cr3, x)
  }

  /** A cached translation of `x` is the one the tables give now. */
  predicate Current(w: Words, cr3: int, c: Cached, x: Va) {
    Covers(c, x) ==> Walk(w, cr3, x) == c.page
  }

  /** An address in the 512 GB that the first entry of the PML4 covers. */
  predicate Low(x: Va) {
    ValidVa(x) && x.i4 == 0
  }

  /** Every cached translation of those addresses is the one the tables give now. */
  ghost predicate Coherent(w: Words, cr3: int, tlb: set<Cached>) {
    forall c, x :: c in tlb && Low(x) ==> Current(w, cr3, c, x)
  }

  /** Coherent but for the 4 KB page of `y`. */
  ghost predicate CoherentExcept(w: Words, cr3: int, tlb: set<Cached>, y: Va) {
    forall c, x :: c in tlb && Low(x) && !SamePage(Small, x, y) ==> Current(w, cr3, c, x)
  }

  lemma FillCurrent(w: Words, cr3: int, x: Va, y: Va)
    ensures Walk(w, cr3, x).Page? ==> Current(w, cr3, Cached(x, Walk(w, cr3, x)), y)
  {
    var t := Walk(w, cr3, x);
    if t.Page? && SamePage(t.size, x, y) { WalkSamePage(w, cr3, x, y); }
  }

  /** Whatever the buffer takes in and drops, it keeps agreeing with the tables. */
  lemma {:induction false} FillsKeepCoherent(w: Words, cr3: int, tlb: set<Cached>, ops: seq<TlbOp>)
    requires Coherent(w, cr3, tlb)
    ensures Coherent(w, cr3, ApplyAll(w, cr3, tlb, ops))
    decreases |ops|
  {
    if ops != [] {
      if ops[0].Fill? { forall y { FillCurrent(w, cr3, ops[0].x, y); } }
      FillsKeepCoherent(w, cr3, Apply(w, cr3, tlb, ops[0]), ops[1..]);
    }
  }

  lemma {:induction false} FillsKeepExcept(w: Words, cr3: int, tlb: set<Cached>, ops: seq<TlbOp>, y: Va)
    requires CoherentExcept(w, cr3, tlb, y)
    ensures CoherentExcept(w, cr3, ApplyAll(w, cr3, tlb, ops), y)
    decreases |ops|
  {
    if ops != [] {
      if ops[0].Fill? { forall x { FillCurrent(w, cr3, ops[0].x, x); } }
      FillsKeepExcept(w, cr3, Apply(w, cr3, tlb, ops[0]), ops[1..], y);
    }
  }

  /** A coherent buffer is invisible. */
  lemma CoherentInvisible(w: Words, cr3: int, tlb: set<Cached>, x: Va, pick: Option<Cached>)
    requires Coherent(w, cr3, tlb) && Low(x)
    ensures Translate(w, cr3, tlb, x, pick) == Walk(w, cr3, x)
  {
    if pick.Some? && pick.value in tlb { assert Current(w, cr3, pick.value, x); }
  }

  /** Filling an entry that was not present leaves no stale translation: none was cached. */
  lemma MappingKeepsCoherent(w: Words, cr3: int, tlb: set<Cached>, a: int, v: Word)
    requires Coherent(w, cr3, tlb) && !w(a).present
    ensures Coherent(Put(w, a, v), cr3, tlb)
  {
    forall c, x | c in tlb && Low(x) ensures Current(Put(w, a, v), cr3, c, x) {
      assert Current(w, cr3, c, x);
      if Covers(c, x) { PresentWalkKept(w, cr3, x, a, v); }
    }
  }

  /** An eviction drops one entry, and an invalidation no entry of another page. */
  lemma OthersStay(w: Words, cr3: int, tlb: set<Cached>, c: Cached, d: Cached, x: Va)
    requires c in tlb
    ensures c in Apply(w, cr3, tlb, Evict(d)) <==> c != d
    ensures c in Invalidated(tlb, x) <==> !Covers(c, x)
  {
  }

  /** Invalidating the page that may be stale makes the buffer coherent again. */
  lemma InvalidateRepairs(w: Words, cr3: int, tlb: set<Cached>, y: Va)
    requires CoherentExcept(w, cr3, tlb, y)
    ensures Coherent(w, cr3, Invalidated(tlb, y))
  {
  }
}
