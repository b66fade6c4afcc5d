/**
  Taking a page fault and recovering from it: the interrupt descriptor table, the faulting load and
  the two handlers of tutorial/paging/pagefault.
  */
module PageFault {
  import opened Wrappers
  import opened Paging
  import opened Tlb
  import opened InitialTables
  import opened TableExtension
  import opened Mapping

  // ---------- the interrupt descriptor table ----------

  const TWO16: int := 0x1_0000
  const TWO32: int := 0x1_0000_0000
  const TWO48: int := 0x1_0000_0000_0000
  const TWO64: int := 0x1_0000_0000_0000_0000

  /** The 64-bit offset of a gate made of these three 32-bit words (section 6.14.1 of the Intel SDM,
      volume 3A). */
  function GateOffset(e0: int, e1: int, e2: int): int {
    e0 % TWO16 + e1 / TWO16 % TWO16 * TWO16 + e2 % TWO32 * TWO32
  }

  function GateSelector(e0: int): int {
    e0 / TWO16 % TWO16
  }

  /** Type field and present bit. */
  predicate PresentInterruptGate(e1: int) {
    e1 / 0x100 % 16 == 0xE && e1 / 0x8000 % 2 == 1
  }

  /** The base address in the ten bytes of IDTR. */
  function IdtrBase(r1: int, r2: int, r3: int, r4: int): int {
    r1 % TWO16 + r2 % TWO16 * TWO16 + r3 % TWO16 * TWO32 + r4 % TWO16 * TWO48
  }

  lemma OrDisjoint(a: nat, b: nat, k: nat, q: nat)
    requires a == q * Pow2(k) && b < Pow2(k)
    ensures Or(a, b) == a + b
  {
    MultipleLowZero(q, k);
    OrLow(a, b, k);
  }

  lemma OrSwap(a: nat, b: nat)
    ensures Or(a, b) == Or(b, a)
  {
  }

  lemma Powers()
    ensures Pow2(16) == TWO16 && Pow2(12) == 0x1000
  {
    assert Pow2(8) == 0x100;
    assert Pow2(12) == 0x1000;
    assert Pow2(16) == TWO16;
  }

  method MakeGate(handler: int) returns (e0: int, e1: int, e2: int)
    requires 0 <= handler < TWO64
    ensures GateOffset(e0, e1, e2) == handler && GateSelector(e0) == 0x10 && PresentInterruptGate(e1)
  {
    var low, mid := handler % TWO16, handler % TWO32 / TWO16;
    var selector, gate, present := 0x10 * TWO16, 0xE * 0x100, 0x8000;
    e0 := Or(low, selector);
    e1 := Or(Or(mid * TWO16, gate), present);
    e2 := handler / TWO32;
    GateWords(low, mid, selector, gate, present);
    GateReads(handler);
  }

  /** Vector 14 of the table leads to the handler, and the register to the table, for every address. */
  method SetupInthandler(idt: array<int>, idtr: array<int>, handler: int, table: int)
    requires idt.Length == 64 * 4 && idtr.Length == 5 && idt != idtr
    requires 0 <= handler < TWO64 && 0 <= table < TWO64
    modifies idt, idtr
    ensures GateOffset(idt[56], idt[57], idt[58]) == handler && idt[59] == 0
    ensures GateSelector(idt[56]) == 0x10 && PresentInterruptGate(idt[57])
    ensures idtr[0] == 16 * 64 - 1 && IdtrBase(idtr[1], idtr[2], idtr[3], idtr[4]) == table
    ensures forall i :: 0 <= i < idt.Length && !(56 <= i < 60) ==> idt[i] == old(idt[i])
  {
    var e0, e1, e2 := MakeGate(handler);
    idt[14 * 4], idt[14 * 4 + 1], idt[14 * 4 + 2], idt[14 * 4 + 3] := e0, e1, e2, 0;

    IdtrJoins(table);
    idtr[0] := 0x10 * 64 - 1;
    idtr[1] := table % TWO16;
    idtr[2] := table / TWO16 % TWO16;
    idtr[3] := table / TWO32 % TWO16;
    idtr[4] := table / TWO48 % TWO16;
  }

  lemma IdtrJoins(table: int)
    requires 0 <= table < TWO64
    ensures IdtrBase(table % TWO16, table / TWO16 % TWO16, table / TWO32 % TWO16, table / TWO48 % TWO16) == table
  {
    Halves(table);
    Halves(table / TWO16);
    Halves(table / TWO32);
    Quarters(table);
  }

  /** A number by its lower 16 bits and the rest. */
  lemma Halves(x: nat)
    ensures x == x / TWO16 * TWO16 + x % TWO16 && x % TWO16 % TWO16 == x % TWO16
  {
  }

  lemma Quarters(x: nat)
    requires x < TWO64
    ensures x / TWO16 / TWO16 == x / TWO32 && x / TWO32 / TWO16 == x / TWO48 && x / TWO48 < TWO16
  {
  }

  lemma GateWords(low: nat, mid: nat, selector: nat, gate: nat, present: nat)
    requires low < TWO16 && mid < TWO16
    requires selector == 0x10 * TWO16 && gate == 0xE * 0x100 && present == 0x8000
    ensures Or(low, selector) == selector + low
    ensures Or(Or(mid * TWO16, gate), present) == mid * TWO16 + 0x8E00
  {
    Powers();
    OrSwap(low, selector);
    OrDisjoint(selector, low, 16, 0x10);
    OrAssociate(mid * TWO16, gate, present);
    OrSwap(gate, present);
    OrDisjoint(present, gate, 12, 8);
    OrDisjoint(mid * TWO16, present + gate, 16, mid);
  }

  /** The halves and the low bits of an or. */
  lemma OrParts(a: nat, b: nat)
    ensures Or(a, b) / 2 == Or(a / 2, b / 2) && (Or(a, b) % 2 == 1 <==> a % 2 == 1 || b % 2 == 1)
  {
  }

  lemma {:induction false} OrAssociate(a: nat, b: nat, c: nat)
    ensures Or(Or(a, b), c) == Or(a, Or(b, c))
  {
    if a > 0 && b > 0 && c > 0 {
      OrAssociate(a / 2, b / 2, c / 2);
      OrParts(a, b);
      OrParts(b, c);
      OrParts(Or(a, b), c);
      OrParts(a, Or(b, c));
    }
  }

  /** What the processor reads back from the gate. */
  lemma GateReads(handler: int)
    requires 0 <= handler < TWO64
    ensures var low, mid := handler % TWO16, handler % TWO32 / TWO16;
            var e0, e1, e2 := 0x10 * TWO16 + low, mid * TWO16 + 0x8E00, handler / TWO32;
            && GateOffset(e0, e1, e2) == handler && GateSelector(e0) == 0x10 && PresentInterruptGate(e1)
  {
    var low, mid := handler % TWO16, handler % TWO32 / TWO16;
    assert handler == handler / TWO32 * TWO32 + mid * TWO16 + low;
    TypeReads(mid);
  }

  lemma TypeReads(mid: nat)
    ensures PresentInterruptGate(mid * TWO16 + 0x8E00) && (mid * TWO16 + 0x8E00) / TWO16 == mid
  {
    FieldAt(mid * 0x100, 0x100, 0x8E00, mid * 16, 16);
    FieldAt(mid * 2, 0x8000, 0x8E00, mid, 2);
    DivAdd(mid, TWO16, 0x8E00);
  }

  /** A field below the multiple of `d` that is itself a multiple of `n`. */
  lemma FieldAt(m: nat, d: nat, f: nat, k: nat, n: nat)
    requires d > 0 && n > 0 && m == k * n
    ensures (m * d + f) / d % n == f / d % n
  {
    DivAdd(m, d, f);
    ModAdd(k, n, f / d);
  }

  // ---------- the fault and its handlers ----------

  /** The sample's tables, the addresses of the load and of `pt_entry`, and which handler is installed. */
  datatype Env = Env(l: Layout, load: int, ptEntryVar: int, second: bool)

  datatype Pc = AtLoad | Past | Handler1(k: nat) | Handler2(k: nat) | Wild

  /** `rest` holds every register but rax, rbx, rsp and the one the load fills; `data` is the memory that
      holds the stack and the variable `pt_entry`, `word` the memory that holds the tables. */
  datatype Cpu = Cpu(pc: Pc, rax: int, rbx: int, rsp: int, rest: seq<int>, loaded: Option<Word>,
                     cs: int, ss: int, rflags: int,
                     word: Words, tlb: set<Cached>, data: int -> int, faults: nat)

  /** What the TLB does before an instruction, the cached translation the instruction uses, if any, and the
      flags it leaves, if it changes them. */
  datatype Around = Around(ops: seq<TlbOp>, pick: Option<Cached>, flags: int)

  /** The code segment of the gate. */
  const KERNEL_CS: int := 0x10

  function PutData(m: int -> int, a: int, v: int): int -> int {
    (b: int) => if b == a then v else m(b)
  }

  function Push(c: Cpu, v: int): Cpu {
    c.(rsp := c.rsp - 8, data := PutData(c.data, c.rsp - 8, v))
  }

  /** The stack pointer rounded down to 16 bytes. */
  function Rounded(rsp: int): int {
    rsp - rsp % 16
  }

  /** Delivery of a page fault in 64-bit mode (section 6.14.2 of the Intel SDM, volume 3A): SS, RSP,
      RFLAGS, CS, RIP and the error code are pushed on the rounded stack. */
  function Deliver(env: Env, c: Cpu, flags: int): Cpu {
    var c1 := c.(rsp := Rounded(c.rsp));
    var c2 := Push(Push(Push(Push(Push(Push(c1, c.ss), c.rsp), c.rflags), c.cs), env.load), 0);
    c2.(pc := if env.second then Handler2(0) else Handler1(0), faults := c.faults + 1, cs := KERNEL_CS, rflags := flags)
  }

  function IretPc(env: Env, rip: int): Pc {
    if rip == env.load then AtLoad else Wild
  }

  /** `iretq` pops RIP, CS, RFLAGS, RSP and SS. */
  function Iret(env: Env, c: Cpu): Cpu {
    c.(pc := IretPc(env, c.data(c.rsp)), cs := c.data(c.rsp + 8), rflags := c.data(c.rsp + 16),
       rsp := c.data(c.rsp + 24), ss := c.data(c.rsp + 32))
  }

  /** `movq %rbx, (%rax)` through the mapping. */
  function StoreAt(env: Env, c: Cpu, x: Va, v: Word, pick: Option<Cached>): Words {
    var t := Translate(c.word, env.l.p.pml4t, c.tlb, x, pick);
    if t.Page? && t.writable then Put(c.word, Physical(t, x), v) else c.word
  }

  /** One instruction of the second handler. */
  function Handle2(env: Env, c: Cpu, k: nat, pick: Option<Cached>, flags: int): Cpu {
    var next := c.(pc := Handler2(k + 1));
    if k == 0 then Push(next, c.rax)
    else if k == 1 then Push(next, c.rbx)
    else if k == 2 then next.(rax := env.ptEntryVar)
    else if k == 3 then next.(rax := c.data(c.rax))
    else if k == 4 then next.(rbx := Or(env.l.frame1, TABLE_FLAGS))
    else if k == 5 then next.(word := StoreAt(env, c, Split(c.rax), Decode(c.rbx), pick))
    else if k == 6 then next.(rax := VADDR1)
    else if k == 7 then next.(tlb := Invalidated(c.tlb, Split(c.rax)))
    else if k == 8 then next.(rbx := c.data(c.rsp), rsp := c.rsp + 8)
    else if k == 9 then next.(rax := c.data(c.rsp), rsp := c.rsp + 8)
    else if k == 10 then next.(rsp := c.rsp + 8, rflags := flags)
    else Iret(env, c)
  }

  function Handle1(env: Env, c: Cpu, k: nat, flags: int): Cpu {
    if k == 0 then c.(pc := Handler1(1), rsp := c.rsp + 8, rflags := flags) else Iret(env, c)
  }

  function Load(env: Env, c: Cpu, pick: Option<Cached>, flags: int): Cpu {
    var t := Translate(c.word, env.l.p.pml4t, c.tlb, Vaddr(0), pick);
    if t.Page? then c.(pc := Past, loaded := Some(c.word(Physical(t, Vaddr(0))))) else Deliver(env, c, flags)
  }

  /** One instruction, with the TLB active before it. */
  function Step(env: Env, c0: Cpu, h: Around): Cpu {
    var c := c0.(tlb := ApplyAll(c0.word, env.l.p.pml4t, c0.tlb, h.ops));
    match c.pc
    case AtLoad => Load(env, c, h.pick, h.flags)
    case Handler1(k) => Handle1(env, c, k, h.flags)
    case Handler2(k) => Handle2(env, c, k, h.pick, h.flags)
    case Past => c
    case Wild => c
  }

  function Steps(env: Env, c: Cpu, hs: seq<Around>): Cpu
    decreases |hs|
  {
    if hs == [] then c else Steps(env, Step(env, c, hs[0]), hs[1..])
  }

  /** The sample's page directory and page table are hooked in, and `vaddr` is not mapped. */
  ghost predicate Unmapped(env: Env, w: Words, tlb: set<Cached>) {
    SoundState(w, env.l.p.pml4t, tlb, env.l) && Hooked(w, env.l) && Entry(w, env.l.pt, 0) == NOTHING
  }

  /** The tables as the sample leaves them before the load. */
  function Cleared(w: Words, l: Layout): Words {
    Put(Hook2(w, l), l.pt, NOTHING)
  }

  lemma ClearedIsHooked(w: Words, l: Layout)
    requires LaidOut(l) && Untouched(w, l)
    ensures Hooked(Cleared(w, l), l) && Entry(Cleared(w, l), l.pt, 0) == NOTHING
  {
    SamplePagesApart(l);
    forall i | Index(i)
      ensures i != 2 ==> Entry(Cleared(w, l), l.p.pdpt, i) == Entry(w, l.p.pdpt, i)
      ensures i != 0 ==> Entry(Cleared(w, l), l.pd, i) == Entry(w, l.pd, i)
    {
    }
  }

  lemma ClearedIsUnmapped(env: Env, w: Words, tlb: set<Cached>, ops: seq<TlbOp>)
    requires var l := env.l; SoundState(Hook2(w, l), l.p.pml4t, tlb, l) && Untouched(w, l)
    ensures OwnWord(env.l, env.l.pt)
    ensures Unmapped(env, Cleared(w, env.l), ApplyAll(Hook2(w, env.l), env.l.p.pml4t, tlb, ops))
  {
    var l := env.l;
    OwnEntryIsWord(l, l.pt, 0);
    FreshWhenHooked(w, l);
    StoreSound(Hook2(w, l), l.p.pml4t, tlb, l, l.pt, NOTHING, ops);
    ClearedIsHooked(w, l);
  }

  /** Hook in the page directory and the page table, and leave `vaddr` unmapped. */
  method Prepare(core: Core, env: Env, h: Hardware) returns (ptEntry: int)
    requires Sound(core, env.l) && Untouched(core.word, env.l)
    modifies core
    ensures core.cr3 == old(core.cr3) && core.word == Cleared(old(core.word), env.l)
    ensures Unmapped(env, core.word, core.tlb) && ptEntry == env.l.pt
  {
    ghost var w := core.word;
    HookTables(core, env.l, h);
    ClearedIsUnmapped(env, w, core.tlb, h.ops(2));
    var k := VADDR1 % MB2 / KB4;
    assert k == 0;
    ptEntry := env.l.pt + 8 * k;
    assert ptEntry == env.l.pt;
    var x := Locate(ptEntry);
    StoreWord(core, env.l, x, ptEntry, NOTHING, h.ops(2), h.pick(2));
  }

  lemma UnmappedFaults(env: Env, w: Words, tlb: set<Cached>, ops: seq<TlbOp>, pick: Option<Cached>)
    requires Unmapped(env, w, tlb)
    ensures var tlb' := ApplyAll(w, env.l.p.pml4t, tlb, ops);
            Unmapped(env, w, tlb') && Translate(w, env.l.p.pml4t, tlb', Vaddr(0), pick) == Fault
  {
    FillsKeepCoherent(w, env.l.p.pml4t, tlb, ops);
    CoherentInvisible(w, env.l.p.pml4t, ApplyAll(w, env.l.p.pml4t, tlb, ops), Vaddr(0), pick);
  }

  /** The frame that delivery from `c0` leaves, when the handler starts with stack pointer `f`. */
  ghost predicate FrameAt(env: Env, c: Cpu, f: int, c0: Cpu) {
    && c.data(f + 8) == env.load && c.data(f + 16) == c0.cs && c.data(f + 24) == c0.rflags
    && c.data(f + 32) == c0.rsp && c.data(f + 40) == c0.ss
  }

  /** The segments and the flags are as in `c0`. */
  predicate SameMode(c0: Cpu, c: Cpu) {
    c.cs == c0.cs && c.ss == c0.ss && c.rflags == c0.rflags
  }

  /** Only the 64 bytes below the rounded stack pointer have changed: the frame and the two registers the
      handler saves. */
  ghost predicate Framed(m: int -> int, m': int -> int, rsp: int) {
    forall a :: !(Rounded(rsp) - 64 <= a < Rounded(rsp)) ==> m'(a) == m(a)
  }

  // ---------- the first handler: the fault repeats ----------

  /** Somewhere in the loop of fault and return, with every register as at the load. */
  ghost predicate InLoop(env: Env, c0: Cpu, c: Cpu) {
    && Unmapped(env, c.word, c.tlb) && c.word == c0.word
    && c.rax == c0.rax && c.rbx == c0.rbx && c.rest == c0.rest && c.loaded == c0.loaded
    && (var f := Rounded(c0.rsp) - 48;
        match c.pc
        case AtLoad => c.rsp == c0.rsp && SameMode(c0, c)
        case Handler1(k) => k <= 1 && c.rsp == f + 8 * k && FrameAt(env, c, f, c0)
        case _ => false)
  }

  lemma LoopStep(env: Env, c0: Cpu, c: Cpu, h: Around)
    requires !env.second && InLoop(env, c0, c)
    ensures InLoop(env, c0, Step(env, c, h))
  {
    UnmappedFaults(env, c.word, c.tlb, h.ops, h.pick);
  }

  /** With the first handler the load never completes, however long the run. */
  lemma {:induction false} FaultRepeats(env: Env, c0: Cpu, c: Cpu, hs: seq<Around>)
    requires !env.second && InLoop(env, c0, c)
    ensures InLoop(env, c0, Steps(env, c, hs)) && Steps(env, c, hs).pc != Past
    decreases |hs|
  {
    if hs != [] {
      LoopStep(env, c0, c, hs[0]);
      FaultRepeats(env, c0, Step(env, c, hs[0]), hs[1..]);
    }
  }

  // ---------- the second handler: the load completes ----------

  /** Where the stack pointer is before instruction `k`, when the handler starts with `f`. */
  function SpAt(f: int, k: nat): int {
    if k == 0 || k == 10 then f else if k == 1 || k == 9 then f - 8 else if k == 11 then f + 8 else f - 16
  }

  /** What the handler has put into rax and rbx, and where it keeps what they were. */
  ghost predicate Saved(env: Env, c0: Cpu, c: Cpu, k: nat) {
    var f := Rounded(c0.rsp) - 48;
    && c.rsp == SpAt(f, k)
    && (1 <= k <= 9 ==> c.data(f - 8) == c0.rax)
    && (2 <= k <= 8 ==> c.data(f - 16) == c0.rbx)
    && (k <= 2 || k >= 10 ==> c.rax == c0.rax)
    && (k == 3 ==> c.rax == env.ptEntryVar)
    && (k == 4 || k == 5 ==> c.rax == env.l.pt)
    && (k == 7 ==> c.rax == VADDR1)
    && (k <= 4 || k >= 9 ==> c.rbx == c0.rbx)
    && (k == 5 ==> c.rbx == Or(env.l.frame1, TABLE_FLAGS))
  }

  /** What holds before every instruction. */
  ghost predicate Carried(env: Env, c0: Cpu, c: Cpu) {
    && c.faults == c0.faults + 1 && c.rest == c0.rest && c.loaded == c0.loaded
    && FrameAt(env, c, Rounded(c0.rsp) - 48, c0)
    && Framed(c0.data, c.data, c0.rsp)
  }

  ghost predicate TablesAfter(env: Env, c0: Cpu, w: Words, tlb: set<Cached>, k: nat) {
    if k <= 5 then w == c0.word && Unmapped(env, w, tlb)
    else w == Put(c0.word, env.l.pt, Link(env.l.frame1)) && SoundState(w, env.l.p.pml4t, tlb, env.l) && Hooked(w, env.l)
  }

  /** Before instruction `k` of the second handler, entered from `c0`. */
  ghost predicate InHandler(env: Env, c0: Cpu, c: Cpu, k: nat) {
    && c.pc == Handler2(k) && k <= 11
    && Carried(env, c0, c) && Saved(env, c0, c, k) && TablesAfter(env, c0, c.word, c.tlb, k)
  }

  /** At a load of the unmapped page, with `pt_entry` pointing at its entry and clear of the stack. */
  ghost predicate Starting(env: Env, c0: Cpu) {
    && env.second && c0.pc == AtLoad && Unmapped(env, c0.word, c0.tlb)
    && c0.data(env.ptEntryVar) == env.l.pt
    && !(Rounded(c0.rsp) - 64 <= env.ptEntryVar < Rounded(c0.rsp))
  }

  lemma Faults(env: Env, c0: Cpu, h: Around)
    requires Starting(env, c0)
    ensures InHandler(env, c0, Step(env, c0, h), 0)
  {
    UnmappedFaults(env, c0.word, c0.tlb, h.ops, h.pick);
  }

  lemma FillsKeepTables(env: Env, c0: Cpu, w: Words, tlb: set<Cached>, k: nat, ops: seq<TlbOp>)
    requires TablesAfter(env, c0, w, tlb, k)
    ensures TablesAfter(env, c0, w, ApplyAll(w, env.l.p.pml4t, tlb, ops), k)
  {
    FillsKeepCoherent(w, env.l.p.pml4t, tlb, ops);
  }

  /** The store of the entry goes to the entry. */
  lemma EntryReached(env: Env, w: Words, tlb: set<Cached>, pick: Option<Cached>)
    requires Unmapped(env, w, tlb)
    ensures var t := Translate(w, env.l.p.pml4t, tlb, Split(env.l.pt), pick);
            t.Page? && t.writable && Physical(t, Split(env.l.pt)) == env.l.pt
  {
    var l := env.l;
    OwnEntryIsWord(l, l.pt, 0);
    SplitJoins(l.pt);
    SplitValid(l.pt);
    assert ApplyAll(w, l.p.pml4t, tlb, []) == tlb;
    StoreGoes(w, l.p.pml4t, tlb, l, Split(l.pt), l.pt, [], pick);
  }

  /** And maps the page, leaving no stale translation. */
  lemma EntryStored(env: Env, w: Words, tlb: set<Cached>)
    requires Unmapped(env, w, tlb)
    ensures var w' := Put(w, env.l.pt, Link(env.l.frame1));
            SoundState(w', env.l.p.pml4t, tlb, env.l) && Hooked(w', env.l)
  {
    var l := env.l;
    OwnEntryIsWord(l, l.pt, 0);
    assert ApplyAll(w, l.p.pml4t, tlb, []) == tlb;
    StoreSound(w, l.p.pml4t, tlb, l, l.pt, Link(l.frame1), []);
    SamplePagesApart(l);
  }

  lemma InvalidationKeeps(env: Env, c0: Cpu, w: Words, tlb: set<Cached>, x: Va)
    requires TablesAfter(env, c0, w, tlb, 7)
    ensures TablesAfter(env, c0, w, Invalidated(tlb, x), 8)
  {
  }

  lemma SavingStep(env: Env, c0: Cpu, c: Cpu, k: nat, h: Around)
    requires Starting(env, c0) && InHandler(env, c0, c, k) && k < 5
    ensures InHandler(env, c0, Step(env, c, h), k + 1)
  {
    FillsKeepTables(env, c0, c.word, c.tlb, k, h.ops);
  }

  lemma MappingStep(env: Env, c0: Cpu, c: Cpu, h: Around)
    requires Starting(env, c0) && InHandler(env, c0, c, 5)
    ensures InHandler(env, c0, Step(env, c, h), 6)
  {
    var tlb := ApplyAll(c.word, env.l.p.pml4t, c.tlb, h.ops);
    FillsKeepTables(env, c0, c.word, c.tlb, 5, h.ops);
    EntryReached(env, c.word, tlb, h.pick);
    EntryStored(env, c.word, tlb);
    LinkDecodes(env.l.frame1);
  }

  lemma RestoringStep(env: Env, c0: Cpu, c: Cpu, k: nat, h: Around)
    requires Starting(env, c0) && InHandler(env, c0, c, k) && 6 <= k < 11
    ensures InHandler(env, c0, Step(env, c, h), k + 1)
  {
    FillsKeepTables(env, c0, c.word, c.tlb, k, h.ops);
    if k == 7 {
      InvalidationKeeps(env, c0, c.word, ApplyAll(c.word, env.l.p.pml4t, c.tlb, h.ops), Split(c.rax));
    }
  }

  /** Right after its `invlpg` no translation of 0x80000000 is cached. */
  lemma FlushStep(env: Env, c0: Cpu, c: Cpu, h: Around)
    requires Starting(env, c0) && InHandler(env, c0, c, 7)
    ensures forall e :: e in Step(env, c, h).tlb ==> !Covers(e, Split(0x8000_0000))
  {
  }

  /** One instruction of the handler, whatever the TLB does. */
  lemma HandlerStep(env: Env, c0: Cpu, c: Cpu, k: nat, h: Around)
    requires Starting(env, c0) && InHandler(env, c0, c, k) && k < 11
    ensures InHandler(env, c0, Step(env, c, h), k + 1)
  {
    if k < 5 {
      SavingStep(env, c0, c, k, h);
    } else if k == 5 {
      MappingStep(env, c0, c, h);
    } else {
      RestoringStep(env, c0, c, k, h);
    }
  }

  /** The processor as at the load but for the mapped page. */
  ghost predicate Back(env: Env, c0: Cpu, c: Cpu) {
    && c.pc == AtLoad && c.rax == c0.rax && c.rbx == c0.rbx && c.rsp == c0.rsp && c.rest == c0.rest && SameMode(c0, c)
    && c.faults == c0.faults + 1 && Framed(c0.data, c.data, c0.rsp)
    && TablesAfter(env, c0, c.word, c.tlb, 6)
  }

  lemma Returns(env: Env, c0: Cpu, c: Cpu, h: Around)
    requires Starting(env, c0) && InHandler(env, c0, c, 11)
    ensures Back(env, c0, Step(env, c, h))
  {
    FillsKeepTables(env, c0, c.word, c.tlb, 11, h.ops);
  }

  /** Past the load: one fault, every register as before, the value of the mapped frame, and no memory
      changed but the entry and the 64 bytes below the stack. */
  ghost predicate Recovered(env: Env, c0: Cpu, c: Cpu) {
    && c.pc == Past && c.faults == c0.faults + 1
    && c.rax == c0.rax && c.rbx == c0.rbx && c.rsp == c0.rsp && c.rest == c0.rest && SameMode(c0, c)
    && c.loaded == Some(c.word(0x1_0000_0000))
    && c.word == Put(c0.word, env.l.pt, Link(0x1_0000_0000))
    && Framed(c0.data, c.data, c0.rsp)
  }

  lemma Completes(env: Env, c0: Cpu, c: Cpu, h: Around)
    requires Back(env, c0, c)
    ensures Recovered(env, c0, Step(env, c, h))
  {
    var l := env.l;
    FillsKeepTables(env, c0, c.word, c.tlb, 6, h.ops);
    CoherentInvisible(c.word, l.p.pml4t, ApplyAll(c.word, l.p.pml4t, c.tlb, h.ops), Vaddr(0), h.pick);
    ThroughTables(c.word, l.p, l.pd, l.pt, l.frame1, Vaddr(0));
  }

  lemma {:induction false} PastStays(env: Env, c0: Cpu, c: Cpu, hs: seq<Around>)
    requires Recovered(env, c0, c)
    ensures Recovered(env, c0, Steps(env, c, hs))
    decreases |hs|
  {
    if hs != [] { PastStays(env, c0, Step(env, c, hs[0]), hs[1..]); }
  }

  lemma {:induction false} HandlerFinishes(env: Env, c0: Cpu, c: Cpu, k: nat, hs: seq<Around>)
    requires Starting(env, c0) && InHandler(env, c0, c, k) && |hs| >= 13 - k
    ensures Recovered(env, c0, Steps(env, c, hs))
    decreases |hs|
  {
    var c' := Step(env, c, hs[0]);
    if k < 11 {
      HandlerStep(env, c0, c, k, hs[0]);
      HandlerFinishes(env, c0, c', k + 1, hs[1..]);
    } else {
      Returns(env, c0, c, hs[0]);
      var c'' := Step(env, c', hs[1..][0]);
      Completes(env, c0, c', hs[1..][0]);
      PastStays(env, c0, c'', hs[1..][1..]);
    }
  }

  /** With the second handler the load completes after one fault, from every register state and for every
      behaviour of the TLB, with everything but the entry and the memory below the stack as before. */
  lemma FaultRecovers(env: Env, c0: Cpu, hs: seq<Around>)
    requires Starting(env, c0) && |hs| >= 14
    ensures Recovered(env, c0, Steps(env, c0, hs))
  {
    Faults(env, c0, hs[0]);
    HandlerFinishes(env, c0, Step(env, c0, hs[0]), 0, hs[1..]);
  }
}
