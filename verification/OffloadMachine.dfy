/**
  The instruction-level machine of the offload protocol: the `_OFFLOAD` macro and
  `Offloader::TryReceive` of common/offload.h, and the three routines of common/offload.S.

  Core 0 is hakase; cores 1..friends are the friend cores.  All cores execute the same
  instructions, and a return address is an ordinary word that is saved, pushed and popped, so
  nothing in the machine itself says which core runs an offloaded block.
  */
module OffloadMachine {
  import opened Wrappers

  const WORD: int := 0x1_0000_0000_0000_0000

  type Addr = a: int | 0 <= a < WORD

  const HAKASE: nat := 0

  /** The address of the word pushed when the stack pointer is `a` (64-bit wrap-around). */
  function Down(a: Addr): (r: Addr)
    ensures Up(r) == a
  {
    if a >= 8 then a - 8 else a - 8 + WORD
  }

  function Up(a: Addr): Addr {
    if a + 8 < WORD then a + 8 else a + 8 - WORD
  }

  /** `_friend_ctx` and `_hakase_ctx`. */
  datatype Buf = FriendCtx | HakaseCtx

  /** The words the protocol touches: `_lock`, the ten slots of each context, and all other memory. */
  datatype Loc = Lock | Slot(buf: Buf, i: nat) | Mem(a: Addr)

  const REQUEST: Loc := Slot(FriendCtx, 8)
  const REPLY: Loc := Slot(FriendCtx, 9)

  /** Program points.  `site` names one expansion of `_OFFLOAD`. */
  datatype Pc =
    | Idle                                       // outside `_OFFLOAD`, or outside `TryReceive`
    | LockRead(site: nat)                        // while (_lock != 0 ||
    | LockCas(site: nat)                         //        !compare_and_swap(&_lock, 0, 1))
    | CallWait(site: nat)                        // call toshokan_setjmp_with_wait(_friend_ctx)
    | AfterWait(site: nat)                       //   its return point: != 0 ?
    | RunBlock(site: nat, k: nat)                // code
    | CallSave(site: nat)                        // call toshokan_setjmp(_friend_ctx)
    | AfterSave(site: nat)                       //   its return point: == 0 ?
    | CallLong(site: nat)                        // call toshokan_longjmp(_hakase_ctx, 1)
    | Release(site: nat)                         // _lock = 0
    | Test                                       // if (_friend_ctx[8] == 0) return false
    | Take                                       // _friend_ctx[8] = 0
    | HCallSave                                  // call toshokan_setjmp(_hakase_ctx)
    | HAfterSave                                 //   its return point: == 0 ?
    | HCallLong                                  // call toshokan_longjmp(_friend_ctx, 1)
    | HReturn                                    //   its return point
    | Answer                                     // _friend_ctx[9] = 1
    | Save(buf: Buf, wait: bool, k: nat)         // the nine register saves of either setjmp
    | SaveRet(buf: Buf)                          // movq $0, %rax; ret
    | Raise                                      // movq $1, 64(%rdi)
    | Spin                                       // cmpq $0, 72(%rdi); je
    | Restore(buf: Buf, wait: bool, k: nat)      // the eight register restores
    | Clear                                      // movq $0, 72(%rdi)
    | WaitRet                                    // movq $1, %rax; ret
    | LongRet(buf: Buf)                          // ret of longjmp
    | Wild                                       // control has left the program

  datatype Value = Num(n: int) | Code(pc: Pc)

  /** rbx, rbp, r12, r13, r14, r15, in the order of context slots 0..5. */
  type Saved = s: seq<Value> | |s| == 6 witness [Num(0), Num(0), Num(0), Num(0), Num(0), Num(0)]

  /** `scratch` stands for the caller-saved registers. */
  datatype Regs = Regs(rax: Value, saved: Saved, rsp: Addr, scratch: seq<Value>)

  datatype Core = Core(pc: Pc, regs: Regs)

  /** One instruction of friend code, hakase code or an offloaded block. */
  datatype Op =
    | Compute(regs: Regs)
    | Load(a: Addr, k: Value -> Regs)
    | Store(a: Addr, v: Value, regs: Regs)

  /** An offloaded block: `length` instructions, each chosen by the registers it starts from. */
  datatype Block = Block(length: nat, op: (nat, Regs) -> Op)

  /** `owner` says whose frame an address is in, and `block` gives the code at each site.  The other three
      are the programs of the cores: which instruction core `c` may execute with given registers, where it
      may reach the `_OFFLOAD` of a site, and where hakase calls `TryReceive`. */
  datatype Config = Config(friends: nat, owner: Addr -> nat, block: nat -> Block,
                           local: (nat, Regs, Op) -> bool, invokes: (nat, Regs, nat) -> bool, polls: Regs -> bool)

  datatype Entry = Entry(loc: Loc, val: Value)

  type Memory = Loc -> Value

  function Write(m: Memory, l: Loc, v: Value): Memory {
    (x: Loc) => if x == l then v else m(x)
  }

  function WriteIf(m: Memory, e: Option<Entry>): Memory {
    match e
    case None => m
    case Some(e) => Write(m, e.loc, e.val)
  }

  function AsAddr(v: Value): Addr {
    if v.Num? then v.n % WORD else 0
  }

  /** Registers after `op` when the word it loads, if any, is `v`. */
  function OpRegs(op: Op, v: Value): Regs {
    match op
    case Compute(r) => r
    case Load(_, k) => k(v)
    case Store(_, _, r) => r
  }

  function OpReads(op: Op): Option<Loc> {
    if op.Load? then Some(Mem(op.a)) else None
  }

  function OpStores(op: Op): Option<Entry> {
    if op.Store? then Some(Entry(Mem(op.a), op.v)) else None
  }

  predicate OpTouches(op: Op, a: Addr) {
    !op.Compute? && op.a == a
  }

  /** The context slot reloaded by the k-th restore: rbp, rsp, the return address, rbx, r12 .. r15. */
  function RestoreSlot(k: nat): nat {
    if k == 0 then 1 else if k == 1 then 6 else if k == 2 then 7 else if k == 3 then 0 else k - 2
  }

  /** The location an instruction reads, if any. */
  function Reads(cfg: Config, core: Core): Option<Loc> {
    match core.pc
    case LockRead(_) => Some(Lock)
    case Test => Some(REQUEST)
    case Spin => Some(REPLY)
    case Save(_, _, k) => if k == 7 then Some(Mem(core.regs.rsp)) else None
    case Restore(buf, _, k) => Some(Slot(buf, RestoreSlot(k)))
    case SaveRet(_) => Some(Mem(core.regs.rsp))
    case WaitRet => Some(Mem(core.regs.rsp))
    case LongRet(_) => Some(Mem(core.regs.rsp))
    case RunBlock(site, k) =>
      if k < cfg.block(site).length then OpReads(cfg.block(site).op(k, core.regs)) else None
    case _ => None
  }

  /** What an instruction does to its core, and the word it stores, if any. */
  datatype Effect = Effect(core: Core, store: Option<Entry>)

  function Jump(core: Core, pc: Pc): Effect {
    Effect(core.(pc := pc), None)
  }

  function Put(core: Core, pc: Pc, l: Loc, v: Value): Effect {
    Effect(core.(pc := pc), Some(Entry(l, v)))
  }

  /** `call`: push the return address and enter the routine. */
  function Call(core: Core, ret: Pc, entry: Pc): Effect {
    Effect(Core(entry, core.regs.(rsp := Down(core.regs.rsp))), Some(Entry(Mem(Down(core.regs.rsp)), Code(ret))))
  }

  /** `ret` with the popped word `v`. */
  function Ret(core: Core, rax: Value, v: Value): Effect {
    Effect(Core(if v.Code? then v.pc else Wild, core.regs.(rax := rax, rsp := Up(core.regs.rsp))), None)
  }

  function SaveStep(core: Core, buf: Buf, wait: bool, k: nat, v: Value): Effect {
    var next := if k < 8 then Save(buf, wait, k + 1) else if wait then Raise else SaveRet(buf);
    if k < 6 then Put(core, next, Slot(buf, k), core.regs.saved[k])
    else if k == 6 then Put(core, next, Slot(buf, 6), Num(Up(core.regs.rsp)))
    else if k == 7 then Effect(Core(next, core.regs.(rax := v)), None)
    else Put(core, next, Slot(buf, 7), core.regs.rax)
  }

  function RestoreStep(core: Core, buf: Buf, wait: bool, k: nat, v: Value): Effect {
    var next := if k < 7 then Restore(buf, wait, k + 1) else if wait then Clear else LongRet(buf);
    if k == 1 then Effect(Core(next, core.regs.(rsp := AsAddr(v))), None)
    else if k == 2 then
      var sp := Down(core.regs.rsp);
      Effect(Core(next, core.regs.(rsp := sp)), Some(Entry(Mem(sp), v)))
    else
      var j := RestoreSlot(k);
      Effect(Core(next, core.regs.(saved := if j < 6 then core.regs.saved[j := v] else core.regs.saved)), None)
  }

  /** The instruction at `core.pc`, when the location it reads holds `v`. */
  function Does(cfg: Config, core: Core, v: Value): Effect {
    match core.pc
    case Idle => Effect(core, None)
    case LockRead(site) => Jump(core, if v == Num(0) then LockCas(site) else core.pc)
    case LockCas(_) => Effect(core, None)
    case CallWait(site) => Call(core, AfterWait(site), Save(FriendCtx, true, 0))
    case AfterWait(site) =>
      if core.regs.rax != Num(0) then Effect(Core(RunBlock(site, 0), core.regs.(scratch := [])), None)
      else Jump(core, Release(site))
    case RunBlock(site, k) =>
      if k < cfg.block(site).length then
        var op := cfg.block(site).op(k, core.regs);
        Effect(Core(RunBlock(site, k + 1), OpRegs(op, v)), OpStores(op))
      else Jump(core, CallSave(site))
    case CallSave(site) => Call(core, AfterSave(site), Save(FriendCtx, false, 0))
    case AfterSave(site) => Jump(core, if core.regs.rax == Num(0) then CallLong(site) else Release(site))
    case CallLong(site) =>
      Call(core.(regs := core.regs.(rax := Num(1))), Release(site), Restore(HakaseCtx, false, 0))
    case Release(_) => Put(core, Idle, Lock, Num(0))
    case Test => Jump(core, if v == Num(0) then Idle else Take)
    case Take => Put(core, HCallSave, REQUEST, Num(0))
    case HCallSave => Call(core, HAfterSave, Save(HakaseCtx, false, 0))
    case HAfterSave => Jump(core, if core.regs.rax == Num(0) then HCallLong else Answer)
    case HCallLong =>
      Call(core.(regs := core.regs.(rax := Num(1))), HReturn, Restore(FriendCtx, false, 0))
    case HReturn => Jump(core, Idle)
    case Answer => Put(core, Idle, REPLY, Num(1))
    case Save(buf, wait, k) => SaveStep(core, buf, wait, k, v)
    case SaveRet(_) => Ret(core, Num(0), v)
    case Raise => Put(core, Spin, REQUEST, Num(1))
    case Spin => Jump(core, if v == Num(0) then Spin else Restore(FriendCtx, true, 0))
    case Restore(buf, wait, k) => RestoreStep(core, buf, wait, k, v)
    case Clear => Put(core, WaitRet, REPLY, Num(0))
    case WaitRet => Ret(core, Num(1), v)
    case LongRet(_) => Ret(core, core.regs.rax, v)
    case Wild => Effect(core, None)
  }

  /** One offload: the friend that asked and the site of its block. */
  datatype Request = Request(friend: nat, site: nat)

  /** A block that was run through, and the core that did. */
  datatype Execution = Execution(core: nat, site: nat)

  /** The requests in the order they won the lock, the blocks in the order they were run, and how often each
      other step was executed. */
  datatype History = History(order: seq<Request>, ran: seq<Execution>,
                             raised: nat, taken: nat, answered: nat, cleared: nat, released: nat)

  /** `won` says whether a compare-and-swap at `pc` succeeded. */
  function Tick(cfg: Config, h: History, c: nat, pc: Pc, won: bool): History {
    match pc
    case RunBlock(site, k) => if k < cfg.block(site).length then h else h.(ran := h.ran + [Execution(c, site)])
    case LockCas(site) => if won then h.(order := h.order + [Request(c, site)]) else h
    case Raise => h.(raised := h.raised + 1)
    case Take => h.(taken := h.taken + 1)
    case Answer => h.(answered := h.answered + 1)
    case Clear => h.(cleared := h.cleared + 1)
    case Release(_) => h.(released := h.released + 1)
    case _ => h
  }

  predicate IsCore(cfg: Config, c: nat) {
    c <= cfg.friends
  }

  predicate IsFriend(cfg: Config, c: nat) {
    0 < c <= cfg.friends
  }

  /** A schedule names, step by step, the core that moves and what it does. */
  datatype Label =
    | Local(c: nat, op: Op)       // an instruction of the core's own code
    | Invoke(c: nat, site: nat)   // a friend reaches an `_OFFLOAD`
    | Poll                        // hakase calls `TryReceive`
    | Exec(c: nat)                // an instruction of the protocol
    | Flush(c: nat)               // the oldest buffered store of a core reaches memory

  predicate OwnStack(cfg: Config, c: nat, r: Regs) {
    cfg.owner(Down(r.rsp)) == c
  }

  /** Outside the protocol a core touches only its own frame and keeps its stack there. */
  ghost predicate LocalOp(cfg: Config, c: nat, r: Regs, op: Op) {
    && cfg.local(c, r, op)
    && (op.Compute? || cfg.owner(op.a) == c)
    && forall v :: OwnStack(cfg, c, OpRegs(op, v))
  }

  /** A friend reaches an `_OFFLOAD`. */
  predicate MayInvoke(cfg: Config, c: nat, r: Regs, site: nat) {
    IsFriend(cfg, c) && cfg.invokes(c, r, site) && OwnStack(cfg, c, r)
  }

  /** Hakase calls `TryReceive`. */
  predicate MayPoll(cfg: Config, r: Regs) {
    cfg.polls(r) && OwnStack(cfg, HAKASE, r)
  }
}
