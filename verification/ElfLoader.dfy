/** Placing an ELF executable into the friend region: `ElfLoader`. */
module ElfLoader {
  import opened Wrappers
  import opened ByteMemory
  import opened PhysicalMemory
  import opened InitialTables

  // ---------- the headers ----------

  const PT_LOAD: int := 1
  const SHT_NOBITS: int := 8
  const ET_EXEC: int := 2

  /** A field of a header: where it is and how many bytes it has. */
  datatype Field = Field(at: nat, width: nat)

  const E_TYPE := Field(16, 2)
  const E_ENTRY := Field(24, 8)
  const E_PHNUM := Field(56, 2)
  const E_PHOFF := Field(32, 8)
  const E_PHENTSIZE := Field(54, 2)
  const E_SHNUM := Field(60, 2)
  const E_SHOFF := Field(40, 8)
  const E_SHENTSIZE := Field(58, 2)
  const P_TYPE := Field(0, 4)
  const P_VADDR := Field(16, 8)
  const P_OFFSET := Field(8, 8)
  const P_FILESZ := Field(32, 8)
  const SH_TYPE := Field(4, 4)
  const SH_FLAGS := Field(8, 8)
  const SH_ADDR := Field(16, 8)
  const SH_SIZE := Field(32, 8)
  const P_MEMSZ := Field(40, 8)

  function Read(file: Bytes, header: nat, f: Field): nat {
    Le(file, header + f.at, f.width)
  }

  predicate IsElf(file: Bytes) {
    file(0) == 0x7F && file(1) == 'E' as int && file(2) == 'L' as int && file(3) == 'F' as int
  }

  predicate IsElf64(file: Bytes) {
    file(4) == 2
  }

  predicate IsOsabiSysv(file: Bytes) {
    file(7) == 0
  }

  predicate IsOsabiGnu(file: Bytes) {
    file(7) == 3
  }

  predicate IsExecutable(file: Bytes) {
    Read(file, 0, E_TYPE) == ET_EXEC
  }

  predicate HeaderAccepted(file: Bytes) {
    IsElf(file) && IsElf64(file) && (IsOsabiSysv(file) || IsOsabiGnu(file)) && IsExecutable(file)
  }

  function GetEntry(file: Bytes): nat {
    Read(file, 0, E_ENTRY)
  }

  /** A header table: how many entries, where it starts and how large an entry is. */
  datatype Table = Table(num: nat, off: nat, entsize: nat)

  function Phdrs(file: Bytes): Table {
    Table(Read(file, 0, E_PHNUM), Read(file, 0, E_PHOFF), Read(file, 0, E_PHENTSIZE))
  }

  function Shdrs(file: Bytes): Table {
    Table(Read(file, 0, E_SHNUM), Read(file, 0, E_SHOFF), Read(file, 0, E_SHENTSIZE))
  }

  /** A product in 32-bit two's complement. */
  function Int32(x: int): int {
    (x + 0x8000_0000) % 0x1_0000_0000 - 0x8000_0000
  }

  /** The file offset of entry `i`; zero past the end of the table. */
  function Offset(t: Table, i: nat): nat {
    if t.num > i then (t.off + Int32(t.entsize * i)) % TWO64 else 0
  }

  /** The offsets a walk visits from entry `i` on: it stops at the first that is zero. */
  function Offsets(t: Table, i: nat): seq<nat>
    decreases t.num - i
  {
    if Offset(t, i) == 0 then [] else [Offset(t, i)] + Offsets(t, i + 1)
  }

  /** Walking by index visits them one after the other. */
  lemma {:induction false} OffsetsAt(t: Table, i: nat, k: nat)
    requires k <= |Offsets(t, i)|
    ensures Offset(t, i + k) == if k < |Offsets(t, i)| then Offsets(t, i)[k] else 0
    ensures k < |Offsets(t, i)| ==> Offset(t, i + k) != 0
    decreases k
  {
    if k > 0 { OffsetsAt(t, i + 1, k - 1); }
  }

  lemma ProductGrows(k: nat, i: nat, n: nat)
    requires i <= n
    ensures k * i <= k * n
  {
  }

  lemma PlainOffset(t: Table, i: nat, product: nat)
    requires i < t.num && product == t.entsize * i && t.off + product < TWO64 && product < 0x8000_0000
    ensures Offset(t, i) == t.off + product
  {
    assert Int32(product) == product;
  }

  lemma {:induction false} VisitsFrom(t: Table, i: nat)
    requires i <= t.num && t.off > 0
    requires t.off + t.entsize * t.num < TWO64 && t.entsize * t.num < 0x8000_0000
    ensures |Offsets(t, i)| == t.num - i
    decreases t.num - i
  {
    if i < t.num {
      ProductGrows(t.entsize, i, t.num);
      PlainOffset(t, i, t.entsize * i);
      VisitsFrom(t, i + 1);
    }
  }

  /** A table that is there, and ends inside the address space, is visited from end to end; one at offset
      zero is not visited at all. */
  lemma VisitsAll(t: Table)
    requires t.off + t.entsize * t.num < TWO64 && t.entsize * t.num < 0x8000_0000
    ensures |Offsets(t, 0)| == if t.off == 0 then 0 else t.num
  {
    if t.off > 0 { VisitsFrom(t, 0); }
  }

  /** What a program header of type PT_LOAD asks for; the loader does not look at the size in memory. */
  datatype Load = Load(vaddr: nat, offset: nat, size: nat, memsz: nat)

  /** What a section header of type NOBITS that is to be allocated asks to be cleared. */
  datatype Bss = Bss(vaddr: nat, size: nat)

  function GetInfoIfLoad(file: Bytes, phdr: nat): Option<Load> {
    if Read(file, phdr, P_TYPE) == PT_LOAD
    then Some(Load(Read(file, phdr, P_VADDR), Read(file, phdr, P_OFFSET),
                   Read(file, phdr, P_FILESZ), Read(file, phdr, P_MEMSZ)))
    else None
  }

  function GetInfoIfBss(file: Bytes, shdr: nat): Option<Bss> {
    if Read(file, shdr, SH_TYPE) == SHT_NOBITS && Read(file, shdr, SH_FLAGS) / 2 % 2 == 1
    then Some(Bss(Read(file, shdr, SH_ADDR), Read(file, shdr, SH_SIZE)))
    else None
  }

  /** The headers the two walks visit. */
  function Loads(file: Bytes, offsets: seq<nat>): seq<Option<Load>> {
    seq(|offsets|, i requires 0 <= i < |offsets| => GetInfoIfLoad(file, offsets[i]))
  }

  function Sections(file: Bytes, offsets: seq<nat>): seq<Option<Bss>> {
    seq(|offsets|, i requires 0 <= i < |offsets| => GetInfoIfBss(file, offsets[i]))
  }

  function LoadsOf(file: Bytes): seq<Option<Load>> {
    Loads(file, Offsets(Phdrs(file), 0))
  }

  function SectionsOf(file: Bytes): seq<Option<Bss>> {
    Sections(file, Offsets(Shdrs(file), 0))
  }

  // ---------- the region check ----------

  /** The check computes the end in 64 bits. */
  predicate CheckMemoryRegion(vaddr: int, size: int) {
    !(vaddr < DEPLOY_PHYS_ADDR_START || (vaddr + size) % TWO64 > DEPLOY_PHYS_ADDR_END)
  }

  predicate Inside(vaddr: int, size: int) {
    DEPLOY_PHYS_ADDR_START <= vaddr && vaddr + size <= DEPLOY_PHYS_ADDR_END
  }

  /** The end of the area does not wrap around. */
  predicate EndsInMemory(vaddr: int, size: int) {
    vaddr + size < TWO64
  }

  /** The check accepts what is inside the friend region, and beyond that exactly the areas whose end wraps
      around to an address not above the region. */
  lemma CheckExactly(vaddr: int, size: int)
    requires 0 <= vaddr < TWO64 && 0 <= size < TWO64
    ensures CheckMemoryRegion(vaddr, size) <==>
      (|| Inside(vaddr, size)
       || (vaddr >= DEPLOY_PHYS_ADDR_START && TWO64 <= vaddr + size <= TWO64 + DEPLOY_PHYS_ADDR_END))
    ensures EndsInMemory(vaddr, size) ==> (CheckMemoryRegion(vaddr, size) <==> Inside(vaddr, size))
  {
  }

  /** An area from the start of the region to the top of the address space passes. */
  lemma WrappedAreaPasses()
    ensures var size := TWO64 - DEPLOY_PHYS_ADDR_START;
            CheckMemoryRegion(DEPLOY_PHYS_ADDR_START, size) && !Inside(DEPLOY_PHYS_ADDR_START, size)
  {
  }

  // ---------- the two walks ----------

  predicate InArea(vaddr: int, size: int, a: int) {
    vaddr <= a < vaddr + size
  }

  function Memcpy(m: Bytes, file: Bytes, l: Load): Bytes {
    (a: int) => if InArea(l.vaddr, l.size, a) then file(l.offset + (a - l.vaddr)) else m(a)
  }

  function Memset(m: Bytes, b: Bss): Bytes {
    (a: int) => if InArea(b.vaddr, b.size, a) then 0 else m(a)
  }

  predicate LoadPasses(l: Option<Load>) {
    l.Some? ==> CheckMemoryRegion(l.value.vaddr, l.value.size)
  }

  predicate BssPasses(b: Option<Bss>) {
    b.Some? ==> CheckMemoryRegion(b.value.vaddr, b.value.size)
  }

  predicate LoadsPass(ls: seq<Option<Load>>) {
    forall i :: 0 <= i < |ls| ==> LoadPasses(ls[i])
  }

  predicate SectionsPass(bs: seq<Option<Bss>>) {
    forall j :: 0 <= j < |bs| ==> BssPasses(bs[j])
  }

  /** Memory after these program headers. */
  function Loaded(file: Bytes, m: Bytes, ls: seq<Option<Load>>): Bytes {
    if ls == [] then m
    else
      var n := |ls| - 1;
      if ls[n].None? then Loaded(file, m, ls[..n]) else Memcpy(Loaded(file, m, ls[..n]), file, ls[n].value)
  }

  /** Memory after these section headers. */
  function Cleared(m: Bytes, bs: seq<Option<Bss>>): Bytes {
    if bs == [] then m
    else
      var n := |bs| - 1;
      if bs[n].None? then Cleared(m, bs[..n]) else Memset(Cleared(m, bs[..n]), bs[n].value)
  }

  function Deployed(file: Bytes, m: Bytes, ls: seq<Option<Load>>, bs: seq<Option<Bss>>): Bytes {
    Cleared(Loaded(file, m, ls), bs)
  }

  predicate Deploys(file: Bytes) {
    HeaderAccepted(file) && LoadsPass(LoadsOf(file)) && SectionsPass(SectionsOf(file))
  }

  /** The first `i` of the loads have passed and been copied. */
  ghost predicate CopiedTo(file: Bytes, m: Bytes, ls: seq<Option<Load>>, i: nat, mem: Bytes) {
    i <= |ls| && LoadsPass(ls[..i]) && mem == Loaded(file, m, ls[..i])
  }

  /** The first `j` of the sections have passed and been cleared. */
  ghost predicate ClearedTo(m: Bytes, bs: seq<Option<Bss>>, j: nat, mem: Bytes) {
    j <= |bs| && SectionsPass(bs[..j]) && mem == Cleared(m, bs[..j])
  }

  lemma CopyStep(file: Bytes, m: Bytes, ls: seq<Option<Load>>, i: nat, mem: Bytes)
    requires CopiedTo(file, m, ls, i, mem) && i < |ls| && LoadPasses(ls[i])
    ensures CopiedTo(file, m, ls, i + 1, if ls[i].None? then mem else Memcpy(mem, file, ls[i].value))
  {
    assert ls[..i + 1][..i] == ls[..i];
  }

  lemma ClearStep(m: Bytes, bs: seq<Option<Bss>>, j: nat, mem: Bytes)
    requires ClearedTo(m, bs, j, mem) && j < |bs| && BssPasses(bs[j])
    ensures ClearedTo(m, bs, j + 1, if bs[j].None? then mem else Memset(mem, bs[j].value))
  {
    assert bs[..j + 1][..j] == bs[..j];
  }

  /** Where the walk ends decides whether all have passed. */
  lemma CopyVerdict(file: Bytes, m: Bytes, ls: seq<Option<Load>>, i: nat, mem: Bytes, ok: bool)
    requires CopiedTo(file, m, ls, i, mem)
    requires if ok then i == |ls| else i < |ls| && !LoadPasses(ls[i])
    ensures ok <==> LoadsPass(ls)
  {
    if ok { assert ls[..i] == ls; }
  }

  lemma ClearVerdict(m: Bytes, bs: seq<Option<Bss>>, j: nat, mem: Bytes, ok: bool)
    requires ClearedTo(m, bs, j, mem)
    requires if ok then j == |bs| else j < |bs| && !BssPasses(bs[j])
    ensures ok <==> SectionsPass(bs)
  {
    if ok { assert bs[..j] == bs; }
  }

  lemma HeadersAt(file: Bytes, t: Table, i: nat)
    requires i <= |Offsets(t, 0)|
    ensures Offset(t, i) == 0 <==> i == |Offsets(t, 0)|
    ensures Offset(t, i) != 0 ==> Loads(file, Offsets(t, 0))[i] == GetInfoIfLoad(file, Offset(t, i))
    ensures Offset(t, i) != 0 ==> Sections(file, Offsets(t, 0))[i] == GetInfoIfBss(file, Offset(t, i))
  {
    OffsetsAt(t, 0, i);
  }

  /** Program header `i`, or none if the walk is over. */
  method CreatePhdr(file: Bytes, i: nat) returns (offset: nat, info: Option<Load>)
    requires i <= |LoadsOf(file)|
    ensures offset == 0 <==> i == |LoadsOf(file)|
    ensures offset != 0 ==> info == LoadsOf(file)[i]
  {
    var t := Phdrs(file);
    HeadersAt(file, t, i);
    offset := Offset(t, i);
    info := GetInfoIfLoad(file, offset);
  }

  method CreateShdr(file: Bytes, i: nat) returns (offset: nat, info: Option<Bss>)
    requires i <= |SectionsOf(file)|
    ensures offset == 0 <==> i == |SectionsOf(file)|
    ensures offset != 0 ==> info == SectionsOf(file)[i]
  {
    var t := Shdrs(file);
    HeadersAt(file, t, i);
    offset := Offset(t, i);
    info := GetInfoIfBss(file, offset);
  }

  method CopyLoads(ram: Ram, file: Bytes) returns (ok: bool, ghost n: nat)
    requires ram.Valid()
    modifies ram
    ensures ram.Valid()
    ensures CopiedTo(file, old(ram.mem), LoadsOf(file), n, ram.mem)
    ensures ok ==> n == |LoadsOf(file)|
    ensures ok <==> LoadsPass(LoadsOf(file))
  {
    ghost var ls := LoadsOf(file);
    var i := 0;
    while true
      invariant ram.Valid() && CopiedTo(file, old(ram.mem), ls, i, ram.mem)
      decreases |ls| - i
    {
      var offset, info := CreatePhdr(file, i);
      if offset == 0 {
        CopyVerdict(file, old(ram.mem), ls, i, ram.mem, true);
        return true, i;
      }
      if info.Some? && !CheckMemoryRegion(info.value.vaddr, info.value.size) {
        CopyVerdict(file, old(ram.mem), ls, i, ram.mem, false);
        return false, i;
      }
      CopyStep(file, old(ram.mem), ls, i, ram.mem);
      if info.Some? {
        ram.Change(Memcpy(ram.mem, file, info.value));
      }
      i := i + 1;
    }
  }

  method ClearSections(ram: Ram, file: Bytes) returns (ok: bool, ghost n: nat)
    requires ram.Valid()
    modifies ram
    ensures ram.Valid()
    ensures ClearedTo(old(ram.mem), SectionsOf(file), n, ram.mem)
    ensures ok ==> n == |SectionsOf(file)|
    ensures ok <==> SectionsPass(SectionsOf(file))
  {
    ghost var bs := SectionsOf(file);
    var i := 0;
    while true
      invariant ram.Valid() && ClearedTo(old(ram.mem), bs, i, ram.mem)
      decreases |bs| - i
    {
      var offset, info := CreateShdr(file, i);
      if offset == 0 {
        ClearVerdict(old(ram.mem), bs, i, ram.mem, true);
        return true, i;
      }
      if info.Some? && !CheckMemoryRegion(info.value.vaddr, info.value.size) {
        ClearVerdict(old(ram.mem), bs, i, ram.mem, false);
        return false, i;
      }
      ClearStep(old(ram.mem), bs, i, ram.mem);
      if info.Some? {
        ram.Change(Memset(ram.mem, info.value));
      }
      i := i + 1;
    }
  }

  /** It succeeds exactly when the header and every visited area are accepted.  A failure leaves the memory
      after the areas before the refused one, and a refused header leaves it as it was. */
  method Deploy(ram: Ram, file: Bytes) returns (ok: bool, ghost ls: seq<Option<Load>>, ghost bs: seq<Option<Bss>>)
    requires ram.Valid()
    modifies ram
    ensures ram.Valid()
    ensures ok <==> Deploys(file)
    ensures ls <= LoadsOf(file) && bs <= SectionsOf(file) && LoadsPass(ls) && SectionsPass(bs)
    ensures ram.mem == Deployed(file, old(ram.mem), ls, bs)
    ensures ok ==> ls == LoadsOf(file) && bs == SectionsOf(file)
    ensures !HeaderAccepted(file) ==> ram.mem == old(ram.mem)
  {
    if !IsElf(file) || !IsElf64(file) || (!IsOsabiSysv(file) && !IsOsabiGnu(file)) {
      return false, [], [];
    }
    if !IsExecutable(file) {
      return false, [], [];
    }
    ghost var n;
    ok, n := CopyLoads(ram, file);
    ls, bs := LoadsOf(file)[..n], [];
    if !ok {
      return;
    }
    ok, n := ClearSections(ram, file);
    bs := SectionsOf(file)[..n];
  }

  // ---------- nothing outside the region ----------

  /** No area of these headers wraps around. */
  predicate NoneWraps(ls: seq<Option<Load>>, bs: seq<Option<Bss>>) {
    && (forall i :: 0 <= i < |ls| && ls[i].Some? ==> EndsInMemory(ls[i].value.vaddr, ls[i].value.size))
    && (forall j :: 0 <= j < |bs| && bs[j].Some? ==> EndsInMemory(bs[j].value.vaddr, bs[j].value.size))
  }

  lemma {:induction false} LoadedInRegion(file: Bytes, m: Bytes, ls: seq<Option<Load>>, a: int)
    requires LoadsPass(ls) && NoneWraps(ls, []) && !InRegion(a)
    ensures Loaded(file, m, ls)(a) == m(a)
  {
    if ls != [] {
      var n := |ls| - 1;
      LoadedInRegion(file, m, ls[..n], a);
      assert LoadPasses(ls[n]);
      if ls[n].Some? { CheckExactly(ls[n].value.vaddr, ls[n].value.size); }
    }
  }

  lemma {:induction false} ClearedInRegion(m: Bytes, bs: seq<Option<Bss>>, a: int)
    requires SectionsPass(bs) && NoneWraps([], bs) && !InRegion(a)
    ensures Cleared(m, bs)(a) == m(a)
  {
    if bs != [] {
      var n := |bs| - 1;
      ClearedInRegion(m, bs[..n], a);
      assert BssPasses(bs[n]);
      if bs[n].Some? { CheckExactly(bs[n].value.vaddr, bs[n].value.size); }
    }
  }

  /** Wherever the loader stops, it has changed nothing outside the friend region. */
  lemma DeployFrame(file: Bytes, m: Bytes, ls: seq<Option<Load>>, bs: seq<Option<Bss>>, a: int)
    requires LoadsPass(ls) && SectionsPass(bs) && NoneWraps(ls, bs) && !InRegion(a)
    ensures Deployed(file, m, ls, bs)(a) == m(a)
  {
    LoadedInRegion(file, m, ls, a);
    ClearedInRegion(Loaded(file, m, ls), bs, a);
  }

  /** All areas start in the 64-bit address space. */
  predicate Start64(ls: seq<Option<Load>>, bs: seq<Option<Bss>>) {
    && (forall i :: 0 <= i < |ls| && ls[i].Some? ==> ls[i].value.vaddr < TWO64)
    && (forall j :: 0 <= j < |bs| && bs[j].Some? ==> bs[j].value.vaddr < TWO64)
  }

  /** Whatever the memory holds, nothing outside the region changes. */
  ghost predicate KeepsOutside(file: Bytes, ls: seq<Option<Load>>, bs: seq<Option<Bss>>) {
    forall m: Bytes, a :: !InRegion(a) ==> KeptAt(file, ls, bs, m, a)
  }

  predicate KeptAt(file: Bytes, ls: seq<Option<Load>>, bs: seq<Option<Bss>>, m: Bytes, a: int) {
    Deployed(file, m, ls, bs)(a) == m(a)
  }

  function AllBytes(b: Byte): Bytes {
    (a: int) => b
  }

  /** What a load or a section covers does not depend on what was there before. */
  lemma {:induction false} LoadedAnew(file: Bytes, m: Bytes, m': Bytes, ls: seq<Option<Load>>, a: int)
    requires SomeFile(ls, a)
    ensures Loaded(file, m, ls)(a) == Loaded(file, m', ls)(a)
  {
    var n := |ls| - 1;
    if !InFile(ls[n], a) {
      assert SomeFile(ls[..n], a);
      LoadedAnew(file, m, m', ls[..n], a);
    }
  }

  lemma DeployedAnew(file: Bytes, m: Bytes, m': Bytes, ls: seq<Option<Load>>, bs: seq<Option<Bss>>, a: int)
    requires SomeFile(ls, a) || SomeBss(bs, a)
    ensures Deployed(file, m, ls, bs)(a) == Deployed(file, m', ls, bs)(a)
  {
    ClearedByte(Loaded(file, m, ls), bs, a);
    ClearedByte(Loaded(file, m', ls), bs, a);
    if !SomeBss(bs, a) { LoadedAnew(file, m, m', ls, a); }
  }

  lemma WrapCoversTop(ls: seq<Option<Load>>, bs: seq<Option<Bss>>)
    requires Start64(ls, bs) && !NoneWraps(ls, bs)
    ensures SomeFile(ls, TWO64 - 1) || SomeBss(bs, TWO64 - 1)
  {
    if i :| 0 <= i < |ls| && ls[i].Some? && !EndsInMemory(ls[i].value.vaddr, ls[i].value.size) {
      assert InFile(ls[i], TWO64 - 1);
    } else {
      var j :| 0 <= j < |bs| && bs[j].Some? && !EndsInMemory(bs[j].value.vaddr, bs[j].value.size);
      assert InBss(bs[j], TWO64 - 1);
    }
  }

  lemma KeepsOutsideAt(file: Bytes, ls: seq<Option<Load>>, bs: seq<Option<Bss>>, m: Bytes, a: int)
    requires KeepsOutside(file, ls, bs) && !InRegion(a)
    ensures KeptAt(file, ls, bs, m, a)
  {
  }

  /** And that holds over every memory if and only if none of the accepted areas wraps around. */
  lemma DeployFrameExactly(file: Bytes, ls: seq<Option<Load>>, bs: seq<Option<Bss>>)
    requires LoadsPass(ls) && SectionsPass(bs) && Start64(ls, bs)
    ensures KeepsOutside(file, ls, bs) <==> NoneWraps(ls, bs)
  {
    if NoneWraps(ls, bs) {
      forall m: Bytes, a | !InRegion(a) ensures KeptAt(file, ls, bs, m, a) {
        DeployFrame(file, m, ls, bs, a);
      }
    } else {
      var top := TWO64 - 1;
      WrapCoversTop(ls, bs);
      DeployedAnew(file, AllBytes(0), AllBytes(1), ls, bs, top);
      if KeepsOutside(file, ls, bs) {
        KeepsOutsideAt(file, ls, bs, AllBytes(0), top);
        KeepsOutsideAt(file, ls, bs, AllBytes(1), top);
      }
    }
  }

  /** The areas of a file do start there. */
  lemma FileStarts64(file: Bytes)
    ensures Start64(LoadsOf(file), SectionsOf(file))
  {
    forall off: nat ensures Read(file, off, P_VADDR) < TWO64 && Read(file, off, SH_ADDR) < TWO64 {
      LeBound(file, off + P_VADDR.at, P_VADDR.width);
      LeBound(file, off + SH_ADDR.at, SH_ADDR.width);
      EightBytes();
    }
  }

  // ---------- the image of the System V ABI ----------

  /** `a` is in the part of the segment that the file provides. */
  predicate InFile(l: Option<Load>, a: int) {
    l.Some? && InArea(l.value.vaddr, l.value.size, a)
  }

  /** `a` is in the rest of the segment. */
  predicate InTail(l: Option<Load>, a: int) {
    l.Some? && l.value.vaddr + l.value.size <= a < l.value.vaddr + l.value.memsz
  }

  predicate InSegment(l: Option<Load>, a: int) {
    InFile(l, a) || InTail(l, a)
  }

  predicate InBss(b: Option<Bss>, a: int) {
    b.Some? && InArea(b.value.vaddr, b.value.size, a)
  }

  predicate SomeFile(ls: seq<Option<Load>>, a: int) {
    exists i :: 0 <= i < |ls| && InFile(ls[i], a)
  }

  predicate SomeSegment(ls: seq<Option<Load>>, a: int) {
    exists i :: 0 <= i < |ls| && InSegment(ls[i], a)
  }

  predicate SomeBss(bs: seq<Option<Bss>>, a: int) {
    exists j :: 0 <= j < |bs| && InBss(bs[j], a)
  }

  /** The byte the segment wants at `a`: of the file, then zeros ("Program Header" in chapter 5 of the
      System V ABI). */
  function SegmentByte(file: Bytes, l: Option<Load>, a: int): Byte
    requires InSegment(l, a)
  {
    if InFile(l, a) then file(l.value.offset + (a - l.value.vaddr)) else 0
  }

  /** At `a` the memory `m'` is the image of the segments over `m`. */
  predicate ImageAt(file: Bytes, ls: seq<Option<Load>>, m: Bytes, m': Bytes, a: int) {
    && (forall i :: 0 <= i < |ls| && InSegment(ls[i], a) ==> m'(a) == SegmentByte(file, ls[i], a))
    && (!SomeSegment(ls, a) ==> m'(a) == m(a))
  }

  /** Segments do not overlap. */
  ghost predicate Disjoint(ls: seq<Option<Load>>) {
    forall i, j, a :: 0 <= i < j < |ls| && InSegment(ls[i], a) ==> !InSegment(ls[j], a)
  }

  /** At `a` the sections clear what the segments leave to be cleared, and besides that only bytes that
      are zero in the file. */
  predicate ClearsRightly(file: Bytes, ls: seq<Option<Load>>, bs: seq<Option<Bss>>, a: int) {
    && (forall i :: 0 <= i < |ls| && InTail(ls[i], a) ==> SomeBss(bs, a))
    && (SomeBss(bs, a) ==> exists i :: 0 <= i < |ls| && InSegment(ls[i], a) && SegmentByte(file, ls[i], a) == 0)
  }

  lemma {:induction false} LoadedByte(file: Bytes, m: Bytes, ls: seq<Option<Load>>, i: nat, a: int)
    requires Disjoint(ls) && i < |ls| && InFile(ls[i], a)
    ensures Loaded(file, m, ls)(a) == SegmentByte(file, ls[i], a)
  {
    var n := |ls| - 1;
    if i < n {
      assert InSegment(ls[i], a) && !InSegment(ls[n], a);
      LoadedByte(file, m, ls[..n], i, a);
    }
  }

  lemma {:induction false} LoadedElsewhere(file: Bytes, m: Bytes, ls: seq<Option<Load>>, a: int)
    requires !SomeFile(ls, a)
    ensures Loaded(file, m, ls)(a) == m(a)
  {
    if ls != [] {
      var n := |ls| - 1;
      assert !InFile(ls[n], a);
      LoadedElsewhere(file, m, ls[..n], a);
    }
  }

  lemma {:induction false} ClearedByte(m: Bytes, bs: seq<Option<Bss>>, a: int)
    ensures Cleared(m, bs)(a) == if SomeBss(bs, a) then 0 else m(a)
  {
    if bs != [] {
      var n := |bs| - 1;
      ClearedByte(m, bs[..n], a);
      assert SomeBss(bs, a) <==> SomeBss(bs[..n], a) || InBss(bs[n], a);
    }
  }

  /** If the sections clear rightly, the memory is the image. */
  lemma DeploysImage(file: Bytes, m: Bytes, ls: seq<Option<Load>>, bs: seq<Option<Bss>>, a: int)
    requires Disjoint(ls) && ClearsRightly(file, ls, bs, a)
    ensures ImageAt(file, ls, m, Deployed(file, m, ls, bs), a)
  {
    ClearedByte(Loaded(file, m, ls), bs, a);
    forall i | 0 <= i < |ls| && InSegment(ls[i], a)
      ensures Deployed(file, m, ls, bs)(a) == SegmentByte(file, ls[i], a)
    {
      if SomeBss(bs, a) {
        var k :| 0 <= k < |ls| && InSegment(ls[k], a) && SegmentByte(file, ls[k], a) == 0;
        assert k == i;
      } else {
        LoadedByte(file, m, ls, i, a);
      }
    }
    if !SomeSegment(ls, a) { LoadedElsewhere(file, m, ls, a); }
  }

  /** Whatever the memory held before, deploying makes the image. */
  ghost predicate AlwaysImage(file: Bytes, ls: seq<Option<Load>>, bs: seq<Option<Bss>>) {
    forall m: Bytes, a :: ImageAt(file, ls, m, Deployed(file, m, ls, bs), a)
  }

  /** And if the memory is the image, even just over memory filled with ones, the sections clear rightly. */
  lemma ImageNeedsClearing(file: Bytes, ls: seq<Option<Load>>, bs: seq<Option<Bss>>, a: int)
    requires Disjoint(ls) && ImageAt(file, ls, AllBytes(1), Deployed(file, AllBytes(1), ls, bs), a)
    ensures ClearsRightly(file, ls, bs, a)
  {
    ClearedByte(Loaded(file, AllBytes(1), ls), bs, a);
    if SomeBss(bs, a) {
      assert SomeSegment(ls, a);
      var i :| 0 <= i < |ls| && InSegment(ls[i], a);
      assert SegmentByte(file, ls[i], a) == 0;
    } else {
      forall i | 0 <= i < |ls| && InTail(ls[i], a) ensures false {
        if k :| 0 <= k < |ls| && InFile(ls[k], a) {
          assert InSegment(ls[k], a) && InSegment(ls[i], a);
        } else {
          LoadedElsewhere(file, AllBytes(1), ls, a);
        }
      }
    }
  }

  /** Clearing by sections makes the image of the System V ABI, whatever the memory held before, exactly
      when the sections clear the tails of the segments and nothing else that matters. */
  lemma DeploysImageExactly(file: Bytes, ls: seq<Option<Load>>, bs: seq<Option<Bss>>)
    requires Disjoint(ls)
    ensures AlwaysImage(file, ls, bs) <==> forall a :: ClearsRightly(file, ls, bs, a)
  {
    if AlwaysImage(file, ls, bs) {
      forall a ensures ClearsRightly(file, ls, bs, a) {
        assert ImageAt(file, ls, AllBytes(1), Deployed(file, AllBytes(1), ls, bs), a);
        ImageNeedsClearing(file, ls, bs, a);
      }
    }
    if forall a :: ClearsRightly(file, ls, bs, a) {
      forall m: Bytes, a ensures ImageAt(file, ls, m, Deployed(file, m, ls, bs), a) {
        DeploysImage(file, m, ls, bs, a);
      }
    }
  }
}
