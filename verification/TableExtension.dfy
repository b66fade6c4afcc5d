/**
  Extending the tables that hakase builds: what sequences of stores to table entries keep, and what they
  map.
  */
module TableExtension {
  import opened Wrappers
  import opened Paging
  import opened Tlb
  import opened InitialTables

  /** A word of the two initial mappings. */
  predicate BaseWord(p: Pages, a: int) {
    a == p.pml4t || a == p.pdpt || a == p.pdpt + 8 * 4 || InPage(p.pd1, a) || InPage(p.pd2, a)
  }

  function StoreAll(w: Words, ws: seq<(int, Word)>): Words
    decreases |ws|
  {
    if ws == [] then w else StoreAll(Put(w, ws[0].0, ws[0].1), ws[1..])
  }

  lemma BaseKept(w: Words, p: Pages, a: int, v: Word)
    requires BaseTables(w, p) && !BaseWord(p, a)
    ensures BaseTables(Put(w, a, v), p)
  {
    forall i | Index(i)
      ensures Entry(Put(w, a, v), p.pd1, i) == Entry(w, p.pd1, i) && Entry(Put(w, a, v), p.pd2, i) == Entry(w, p.pd2, i)
    {
    }
  }

  /** Any stores that spare the words of the two initial mappings keep all translations below 1 GB and
      of the friend region. */
  lemma {:induction false} ExtensionKeepsMappings(w: Words, p: Pages, ws: seq<(int, Word)>, x: Va)
    requires BaseTables(w, p)
    requires forall s :: s in ws ==> !BaseWord(p, s.0)
    requires Low(x) && (x.i3 == 0 || x.i3 == 4)
    ensures BaseTables(StoreAll(w, ws), p)
    ensures Walk(StoreAll(w, ws), p.pml4t, x) == Walk(w, p.pml4t, x)
    decreases |ws|
  {
    if ws != [] {
      assert ws[0] in ws;
      BaseKept(w, p, ws[0].0, ws[0].1);
      ExtensionKeepsMappings(Put(w, ws[0].0, ws[0].1), p, ws[1..], x);
      BaseWalk(Put(w, ws[0].0, ws[0].1), p, x);
      BaseWalk(w, p, x);
    }
  }

  /** Each store fills an entry that is not present when it is made. */
  predicate Fills(w: Words, ws: seq<(int, Word)>)
    decreases |ws|
  {
    ws == [] || (!w(ws[0].0).present && Fills(Put(w, ws[0].0, ws[0].1), ws[1..]))
  }

  /** Such stores keep every translation there is, of every address and in every table. */
  lemma {:induction false} FillsKeepPages(w: Words, cr3: int, ws: seq<(int, Word)>, x: Va)
    requires Fills(w, ws) && Walk(w, cr3, x).Page?
    ensures Walk(StoreAll(w, ws), cr3, x) == Walk(w, cr3, x)
    decreases |ws|
  {
    if ws != [] {
      PresentWalkKept(w, cr3, x, ws[0].0, ws[0].1);
      FillsKeepPages(Put(w, ws[0].0, ws[0].1), cr3, ws[1..], x);
    }
  }

  /** The walk of `x` reads the word at `a`. */
  predicate OnPath(w: Words, cr3: int, x: Va, a: int) {
    var e4 := Entry(w, cr3, x.i4);
    var e3 := Entry(w, e4.frame, x.i3);
    var e2 := Entry(w, e3.frame, x.i2);
    || a == cr3 + 8 * x.i4
    || (e4.present && a == e4.frame + 8 * x.i3)
    || (e4.present && e3.present && !e3.huge && a == e3.frame + 8 * x.i2)
    || (e4.present && e3.present && !e3.huge && e2.present && !e2.huge && a == e2.frame + 8 * x.i1)
  }

  lemma OffPathKept(w: Words, cr3: int, x: Va, a: int, v: Word)
    requires !OnPath(w, cr3, x, a)
    ensures Walk(Put(w, a, v), cr3, x) == Walk(w, cr3, x)
    ensures forall b :: OnPath(Put(w, a, v), cr3, x, b) <==> OnPath(w, cr3, x, b)
  {
  }

  /** Stores that spare the words a walk reads keep it, be it a page or a fault, however often they rewrite
      other entries. */
  lemma {:induction false} StoresOffPath(w: Words, cr3: int, ws: seq<(int, Word)>, x: Va)
    requires forall s :: s in ws ==> !OnPath(w, cr3, x, s.0)
    ensures Walk(StoreAll(w, ws), cr3, x) == Walk(w, cr3, x)
    decreases |ws|
  {
    if ws != [] {
      assert ws[0] in ws;
      OffPathKept(w, cr3, x, ws[0].0, ws[0].1);
      StoresOffPath(Put(w, ws[0].0, ws[0].1), cr3, ws[1..], x);
    }
  }

  /** The word that the last of these stores to `a` leaves there. */
  function LastStored(ws: seq<(int, Word)>, a: int): Option<Word>
    decreases |ws|
  {
    if ws == [] then None
    else
      var n := |ws| - 1;
      if ws[n].0 == a then Some(ws[n].1) else LastStored(ws[..n], a)
  }

  lemma {:induction false} StoreAllSplit(w: Words, ws: seq<(int, Word)>)
    requires ws != []
    ensures var n := |ws| - 1; StoreAll(w, ws) == Put(StoreAll(w, ws[..n]), ws[n].0, ws[n].1)
    decreases |ws|
  {
    var n := |ws| - 1;
    if n > 0 {
      StoreAllSplit(Put(w, ws[0].0, ws[0].1), ws[1..]);
      assert ws[1..][..n - 1] == ws[..n][1..];
    } else {
      assert ws[1..] == [] && ws[..0] == [];
    }
  }

  lemma {:induction false} StoredLast(w: Words, ws: seq<(int, Word)>, a: int)
    ensures StoreAll(w, ws)(a) == if LastStored(ws, a).Some? then LastStored(ws, a).value else w(a)
    decreases |ws|
  {
    if ws != [] {
      StoreAllSplit(w, ws);
      StoredLast(w, ws[..|ws| - 1], a);
    }
  }

  /** A page reached through three entries that refer to tables is the frame of the last. */
  lemma ThroughTables(w: Words, p: Pages, pd: int, pt: int, frame: int, x: Va)
    requires BaseTables(w, p) && Low(x)
    requires Entry(w, p.pdpt, x.i3) == Link(pd) && Entry(w, pd, x.i2) == Link(pt) && Entry(w, pt, x.i1) == Link(frame)
    ensures Walk(w, p.pml4t, x) == Page(frame, Small, true, true, false)
  {
  }

  /** After any stores that spare the two initial mappings, the page of `x` is the frame last stored in its
      entry, if the last stores to the two entries above lead there. */
  lemma NewPageHasLastFrame(w: Words, p: Pages, ws: seq<(int, Word)>, pd: int, pt: int, frame: int, x: Va)
    requires BaseTables(w, p) && Low(x)
    requires forall s :: s in ws ==> !BaseWord(p, s.0)
    requires LastStored(ws, p.pdpt + 8 * x.i3) == Some(Link(pd)) && LastStored(ws, pd + 8 * x.i2) == Some(Link(pt))
    requires LastStored(ws, pt + 8 * x.i1) == Some(Link(frame))
    ensures Walk(StoreAll(w, ws), p.pml4t, x) == Page(frame, Small, true, true, false)
  {
    var x0 := Va(0, 0, 0, 0, 0);
    ExtensionKeepsMappings(w, p, ws, x0);
    StoredLast(w, ws, p.pdpt + 8 * x.i3);
    StoredLast(w, ws, pd + 8 * x.i2);
    StoredLast(w, ws, pt + 8 * x.i1);
    ThroughTables(StoreAll(w, ws), p, pd, pt, frame, x);
  }

  /** The stores of tutorial/paging/hierarchy: two page tables under one page directory. */
  function Hierarchy(p: Pages, pd: int, pt1: int, pt2: int, frame: int): seq<(int, Word)> {
    [(p.pdpt + 8 * 2, Link(pd)), (pd, Link(pt1)), (pt1, Link(frame)), (pd + 8, Link(pt2)), (pt2, Link(frame))]
  }

  lemma LastStoredOn(ws: seq<(int, Word)>, s: (int, Word), a: int)
    ensures LastStored(ws + [s], a) == if s.0 == a then Some(s.1) else LastStored(ws, a)
  {
    assert (ws + [s])[..|ws|] == ws;
  }

  lemma HierarchyLast(p: Pages, pd: int, pt1: int, pt2: int, frame: int, a: int)
    ensures LastStored(Hierarchy(p, pd, pt1, pt2, frame), a) ==
            if a == pt2 then Some(Link(frame)) else if a == pd + 8 then Some(Link(pt2))
            else if a == pt1 then Some(Link(frame)) else if a == pd then Some(Link(pt1))
            else if a == p.pdpt + 8 * 2 then Some(Link(pd)) else None
  {
    var ws := Hierarchy(p, pd, pt1, pt2, frame);
    LastStoredOn(ws[..0], ws[0], a);
    LastStoredOn(ws[..1], ws[1], a);
    LastStoredOn(ws[..2], ws[2], a);
    LastStoredOn(ws[..3], ws[3], a);
    LastStoredOn(ws[..4], ws[4], a);
    assert ws[..0] + [ws[0]] == ws[..1] && ws[..1] + [ws[1]] == ws[..2] && ws[..2] + [ws[2]] == ws[..3];
    assert ws[..3] + [ws[3]] == ws[..4] && ws[..4] + [ws[4]] == ws;
  }

  /** They map 0x80000000 and 0x80200000 to the same frame. */
  lemma HierarchyMaps(w: Words, p: Pages, pd: int, pt1: int, pt2: int, frame: int)
    requires Laid(p) && BaseTables(w, p)
    requires Fresh(p, pd) && Fresh(p, pt1) && Fresh(p, pt2) && pd != pt1 && pd != pt2 && pt1 != pt2
    ensures var w' := StoreAll(w, Hierarchy(p, pd, pt1, pt2, frame));
            && Walk(w', p.pml4t, Split(0x8000_0000)) == Page(frame, Small, true, true, false)
            && Walk(w', p.pml4t, Split(0x8020_0000)) == Page(frame, Small, true, true, false)
  {
    var ws := Hierarchy(p, pd, pt1, pt2, frame);
    FreshApart(p, pd);
    FreshApart(p, pt1);
    FreshApart(p, pt2);
    PagesApart(pd, pt1);
    PagesApart(pd, pt2);
    PagesApart(pt1, pt2);
    HierarchyLast(p, pd, pt1, pt2, frame, p.pdpt + 8 * 2);
    HierarchyLast(p, pd, pt1, pt2, frame, pd);
    HierarchyLast(p, pd, pt1, pt2, frame, pt1);
    HierarchyLast(p, pd, pt1, pt2, frame, pd + 8);
    HierarchyLast(p, pd, pt1, pt2, frame, pt2);
    HierarchyAddresses();
    HierarchySpares(p, pd, pt1, pt2, frame);
    NewPageHasLastFrame(w, p, ws, pd, pt1, frame, Va(0, 2, 0, 0, 0));
    NewPageHasLastFrame(w, p, ws, pd, pt2, frame, Va(0, 2, 1, 0, 0));
  }

  lemma HierarchyAddresses()
    ensures Split(0x8000_0000) == Va(0, 2, 0, 0, 0) && Split(0x8020_0000) == Va(0, 2, 1, 0, 0)
  {
  }

  lemma HierarchySpares(p: Pages, pd: int, pt1: int, pt2: int, frame: int)
    requires Laid(p) && Fresh(p, pd) && Fresh(p, pt1) && Fresh(p, pt2)
    ensures forall s :: s in Hierarchy(p, pd, pt1, pt2, frame) ==> !BaseWord(p, s.0)
  {
    FreshApart(p, pd);
    FreshApart(p, pt1);
    FreshApart(p, pt2);
    PagesApart(p.pdpt, p.pd1);
    PagesApart(p.pdpt, p.pd2);
  }

  /** A page of the friend region that is none of the tables. */
  predicate Fresh(p: Pages, q: int) {
    PageAligned(q) && InRegion(q) && !InTables(p, q)
  }

  lemma FreshApart(p: Pages, q: int)
    requires Laid(p) && Fresh(p, q)
    ensures q + KB4 <= p.pdpt || p.pdpt + KB4 <= q
    ensures q + KB4 <= p.pd1 || p.pd1 + KB4 <= q
    ensures q + KB4 <= p.pd2 || p.pd2 + KB4 <= q
  {
    PagesApart(q, p.pdpt);
    PagesApart(q, p.pd1);
    PagesApart(q, p.pd2);
  }
}
