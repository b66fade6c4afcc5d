/** The device through which hakase maps the friend region and the trampoline: `memdevice_mmap` and
    `bootmemdevice_mmap`. */
module StraightMap {
  import opened Paging
  import opened InitialTables
  import opened ByteMemory

  const DEPLOY_PHYS_MEM_SIZE: int := DEPLOY_PHYS_ADDR_END - DEPLOY_PHYS_ADDR_START
  const TRAMPOLINE_SIZE: int := 0x2000

  /** A request: where in the process, and from which page of the device. */
  datatype Vma = Vma(start: nat, end: nat, pgoff: nat)

  /** Refused, or the pages of the process from `start` on mapped to the frames from `frame` on. */
  datatype Result =
    | Invalid
    | Again
    | Straight(start: nat, size: nat, frame: nat)

  function Size(vma: Vma): nat {
    (vma.end - vma.start) % TWO64
  }

  /** The start of the request in the device, in 64 bits. */
  function PhysStart(vma: Vma): nat {
    vma.pgoff * KB4 % TWO64
  }

  function PhysEnd(vma: Vma): nat {
    (PhysStart(vma) + Size(vma)) % TWO64
  }

  predicate Accepted(vma: Vma) {
    && !((PhysEnd(vma) - 1) % TWO64 < PhysStart(vma))
    && !(PhysStart(vma) > DEPLOY_PHYS_MEM_SIZE || PhysEnd(vma) > DEPLOY_PHYS_MEM_SIZE)
  }

  /** `remaps` says whether the kernel could change its page tables. */
  function MemdeviceMmap(vma: Vma, remaps: bool): Result {
    if !Accepted(vma) then Invalid
    else if !remaps then Again
    else Straight(vma.start, Size(vma), (vma.pgoff + DEPLOY_PHYS_ADDR_START / KB4) % TWO64)
  }

  function BootmemdeviceMmap(vma: Vma, remaps: bool): Result {
    if vma.pgoff > 0 || Size(vma) != TRAMPOLINE_SIZE then Invalid
    else if !remaps then Again
    else Straight(vma.start, Size(vma), TRAMPOLINE_ADDR / KB4)
  }

  predicate Reaches(r: Result, va: int) {
    r.Straight? && r.start <= va < r.start + r.size
  }

  /** The physical address that the process reaches at `va`. */
  function Reached(r: Result, va: int): int
    requires Reaches(r, va)
  {
    (r.frame + (va - r.start) / KB4) * KB4 + (va - r.start) % KB4
  }

  /** A request of 64-bit values, page aligned in the process. */
  predicate IsRequest(vma: Vma) {
    vma.start <= vma.end < TWO64 && vma.start % KB4 == 0 && vma.pgoff < TWO64
  }

  /** What the bounds let through, for all requests: the windows inside the region, and the requests that end
      exactly at the top of the address space. */
  lemma AcceptedExactly(vma: Vma)
    requires IsRequest(vma)
    ensures var s, n := PhysStart(vma), Size(vma);
            Accepted(vma) <==>
            (s + n <= DEPLOY_PHYS_MEM_SIZE && (n > 0 || s == 0)) || (s + n == TWO64 && s <= DEPLOY_PHYS_MEM_SIZE)
  {
    BoundsExactly(PhysStart(vma), Size(vma));
  }

  lemma BoundsExactly(s: nat, n: nat)
    requires s < TWO64 && n < TWO64
    ensures var e := (s + n) % TWO64;
            (e - 1) % TWO64 >= s && s <= DEPLOY_PHYS_MEM_SIZE && e <= DEPLOY_PHYS_MEM_SIZE <==>
            (s + n <= DEPLOY_PHYS_MEM_SIZE && (n > 0 || s == 0)) || (s + n == TWO64 && s <= DEPLOY_PHYS_MEM_SIZE)
  {
  }

  /** A request whose offset and size do not overflow. */
  predicate Sane(vma: Vma) {
    IsRequest(vma) && vma.pgoff < PHYS && 0 < vma.end - vma.start < 0x8000_0000_0000
  }

  /** Those are accepted exactly if they lie in the window of 1 GB, */
  lemma SaneAccepted(vma: Vma)
    requires Sane(vma)
    ensures Accepted(vma) <==> vma.pgoff * KB4 + (vma.end - vma.start) <= DEPLOY_PHYS_MEM_SIZE
  {
    AcceptedExactly(vma);
  }

  /** and reach the friend region only, without gaps. */
  lemma SaneReaches(vma: Vma, va: int)
    requires Sane(vma) && Reaches(MemdeviceMmap(vma, true), va)
    ensures Reached(MemdeviceMmap(vma, true), va) == DEPLOY_PHYS_ADDR_START + vma.pgoff * KB4 + (va - vma.start)
    ensures InRegion(Reached(MemdeviceMmap(vma, true), va))
  {
    SaneAccepted(vma);
    assert va - vma.start == (va - vma.start) / KB4 * KB4 + (va - vma.start) % KB4;
  }

  /** An offset of 2^52 pages is taken for offset zero, and reaches frames outside the region. */
  lemma LargeOffsetWraps()
    ensures var vma := Vma(0, KB4, PHYS);
            && IsRequest(vma) && Accepted(vma)
            && Reaches(MemdeviceMmap(vma, true), 0) && !InRegion(Reached(MemdeviceMmap(vma, true), 0))
  {
  }

  lemma Offsets(vma: Vma, va: int)
    requires Reaches(MemdeviceMmap(vma, true), va) && vma.pgoff < PHYS
    ensures Reached(MemdeviceMmap(vma, true), va) == DEPLOY_PHYS_ADDR_START + vma.pgoff * KB4 + (va - vma.start)
  {
    assert va - vma.start == (va - vma.start) / KB4 * KB4 + (va - vma.start) % KB4;
  }

  /** A request that is not in the window but accepted reaches something outside the region. */
  lemma OutsideReached(vma: Vma) returns (va: int)
    requires IsRequest(vma) && Accepted(vma) && vma.end > vma.start
    requires vma.pgoff * KB4 + (vma.end - vma.start) > DEPLOY_PHYS_MEM_SIZE
    ensures Reaches(MemdeviceMmap(vma, true), va) && !InRegion(Reached(MemdeviceMmap(vma, true), va))
  {
    AcceptedExactly(vma);
    if vma.pgoff >= PHYS {
      va := vma.start;
    } else {
      va := vma.start + DEPLOY_PHYS_MEM_SIZE - vma.pgoff * KB4;
      Offsets(vma, va);
    }
  }

  /** So an accepted request reaches the friend region only if and only if it lies in the window. */
  lemma ReachesRegionExactly(vma: Vma)
    requires IsRequest(vma) && Accepted(vma) && vma.end > vma.start
    ensures var r := MemdeviceMmap(vma, true);
            (forall va :: Reaches(r, va) ==> InRegion(Reached(r, va))) <==>
            vma.pgoff * KB4 + (vma.end - vma.start) <= DEPLOY_PHYS_MEM_SIZE
  {
    if vma.pgoff * KB4 + (vma.end - vma.start) <= DEPLOY_PHYS_MEM_SIZE {
      forall va | Reaches(MemdeviceMmap(vma, true), va) ensures InRegion(Reached(MemdeviceMmap(vma, true), va)) {
        SaneReaches(vma, va);
      }
    } else {
      var va := OutsideReached(vma);
    }
  }

  /** How hakase maps the region: all of it, at its physical address. */
  function HakaseMap(remaps: bool): Result {
    MemdeviceMmap(Vma(DEPLOY_PHYS_ADDR_START, DEPLOY_PHYS_ADDR_START + DEPLOY_PHYS_MEM_SIZE, 0), remaps)
  }

  /** At every address of the region hakase and the friends reach the same byte. */
  lemma BothReachTheSame(w: Words, p: Pages, va: int)
    requires TablesAt(w, p) && InRegion(va)
    ensures Reaches(HakaseMap(true), va)
    ensures var t := Walk(w, p.pml4t, Split(va));
            t.Page? && Physical(t, Split(va)) == Reached(HakaseMap(true), va) == va
  {
    var vma := Vma(DEPLOY_PHYS_ADDR_START, DEPLOY_PHYS_ADDR_START + DEPLOY_PHYS_MEM_SIZE, 0);
    SaneAccepted(vma);
    SaneReaches(vma, va);
    IdentityWalk(w, p, va);
  }

  /** The answers: invalid if the bounds refuse, try again if the kernel could not remap, and only otherwise
      mapped. */
  lemma MemdeviceAnswers(vma: Vma, remaps: bool)
    requires IsRequest(vma)
    ensures var r := MemdeviceMmap(vma, remaps);
            && (r == Invalid <==> !Accepted(vma))
            && (r == Again <==> Accepted(vma) && !remaps)
            && (r.Straight? <==> Accepted(vma) && remaps)
            && (r.Straight? ==> forall va :: Reaches(r, va) <==> vma.start <= va < vma.end)
  {
  }

  /** The trampoline is mapped from its start and as a whole, or not at all. */
  lemma BootmemAnswers(vma: Vma, remaps: bool)
    requires IsRequest(vma)
    ensures var r := BootmemdeviceMmap(vma, remaps);
            && (r == Invalid <==> !(vma.pgoff == 0 && vma.end - vma.start == 0x2000))
            && (r == Again <==> vma.pgoff == 0 && vma.end - vma.start == 0x2000 && !remaps)
            && (r.Straight? ==> forall va :: Reaches(r, va) <==> vma.start <= va < vma.end)
  {
  }

  /** Wherever the process has room for it, hakase's request for the trampoline reaches its two pages in order;
      the friends reach them at their physical address. */
  lemma TrampolineReached(w: Words, p: Pages, start: nat, k: nat)
    requires TablesAt(w, p) && start % KB4 == 0 && start + 0x2000 < TWO64 && k < 0x2000
    ensures var r := BootmemdeviceMmap(Vma(start, start + 0x2000, 0), true);
            Reaches(r, start + k) && Reached(r, start + k) == 0x7_0000 + k
    ensures var a := 0x7_0000 + k;
            Walk(w, p.pml4t, Split(a)).Page? && Physical(Walk(w, p.pml4t, Split(a)), Split(a)) == a
  {
    BootmemAnswers(Vma(start, start + 0x2000, 0), true);
    assert k == k / KB4 * KB4 + k % KB4;
    IdentityWalk(w, p, 0x7_0000 + k);
  }
}
