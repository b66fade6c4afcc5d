/**
  When blocks are well behaved: a condition on the instructions of each block, and a block with a push, a
  store below rbp and a pop that meets it.
  */
module OffloadBlocks {
  import opened Wrappers
  import opened OffloadMachine
  import opened OffloadSpec
  import opened OffloadBuffered
  import opened OffloadTheorems

  /** What is known of the registers before instruction `k` of the block at `site`, run for friend `f`. */
  type Known = (nat, nat, nat, Regs) -> bool

  /** The instruction keeps to what is lent and leads on to what is known, whatever word it may load. */
  ghost predicate Guards(cfg: Config, ok: Known, site: nat, f: nat, k: nat, r: Regs) {
    var op := cfg.block(site).op(k, r);
    && (!op.Compute? ==> Lent(cfg, f, op.a))
    && forall v :: OwnStack(cfg, f, OpRegs(op, v)) && ok(site, f, k + 1, OpRegs(op, v))
  }

  /** A block is entered with registers of which `ok` holds, and each of its instructions goes by that. */
  ghost predicate Guarded(cfg: Config, ok: Known) {
    && (forall c, r, site :: MayInvoke(cfg, c, r, site) ==> ok(site, c, 0, Start(r)))
    && (forall site: nat, f: nat, k: nat, r ::
          IsFriend(cfg, f) && k < cfg.block(site).length && ok(site, f, k, r) ==> Guards(cfg, ok, site, f, k, r))
  }

  /** Friends that have asked did so with registers of which `ok` holds. */
  ghost predicate Asking(cfg: Config, ok: Known, t: Spec) {
    && SpecShape(cfg, t)
    && forall c: nat :: IsFriend(cfg, c) && (t.jobs[c].Asked? || t.jobs[c].Called?) ==>
         ok(t.jobs[c].site, c, 0, Start(t.regs[c]))
  }

  lemma {:induction false} GuardedRun(cfg: Config, ok: Known, site: nat, f: nat, k: nat, m: Ram, r: Regs)
    requires Guarded(cfg, ok) && IsFriend(cfg, f) && k <= cfg.block(site).length && ok(site, f, 0, r)
    ensures Confined(cfg, site, f, k, m, r) && ok(site, f, k, Run(cfg, site, k, m, r).regs)
  {
    if k > 0 {
      GuardedRun(cfg, ok, site, f, k - 1, m, r);
      var o := Run(cfg, site, k - 1, m, r);
      assert Guards(cfg, ok, site, f, k - 1, o.regs);
      var op := cfg.block(site).op(k - 1, o.regs);
      var v := if op.Load? then o.ram(op.a) else Num(0);
      assert ApplyOp(o.ram, op).regs == OpRegs(op, v);
    }
  }

  lemma AskingIsSafe(cfg: Config, ok: Known, t: Spec)
    requires Guarded(cfg, ok) && Asking(cfg, ok, t)
    ensures SafeJobs(cfg, t)
  {
    forall c: nat | IsFriend(cfg, c) && SpecEnabled(cfg, t, SServe(c))
      ensures Safe(cfg, t.jobs[c].site, c, t.ram, t.regs[HAKASE], t.regs[c])
    {
      var site := t.jobs[c].site;
      var m := Entered(site, t.ram, t.regs[HAKASE], t.regs[c]);
      GuardedRun(cfg, ok, site, c, cfg.block(site).length, m, Start(t.regs[c]));
    }
  }

  lemma AskingKept(cfg: Config, ok: Known, t: Spec, l: SpecLabel)
    requires Guarded(cfg, ok) && Asking(cfg, ok, t) && SpecEnabled(cfg, t, l)
    ensures Asking(cfg, ok, SpecStep(cfg, t, l))
  {
  }

  lemma {:induction false} AskingReaches(cfg: Config, ok: Known, t: Spec, ts: seq<SpecLabel>, t': Spec)
    requires Guarded(cfg, ok) && Asking(cfg, ok, t) && SpecReaches(cfg, t, ts, t')
    ensures Asking(cfg, ok, t')
    decreases |ts|
  {
    if ts != [] {
      AskingKept(cfg, ok, t, ts[0]);
      AskingReaches(cfg, ok, SpecStep(cfg, t, ts[0]), ts[1..], t');
    }
  }

  /** Blocks whose every instruction can be justified from the registers are well behaved, in all runs. */
  lemma GuardedIsWellBehaved(cfg: Config, ok: Known, b: Tso)
    requires Guarded(cfg, ok) && Initial(cfg, b)
    ensures WellBehaved(cfg, InitialSpec(b))
  {
    var t := InitialSpec(b);
    forall ts, t' | SpecReaches(cfg, t, ts, t') ensures SafeJobs(cfg, t') {
      AskingReaches(cfg, ok, t, ts, t');
      AskingIsSafe(cfg, ok, t');
    }
  }

  // ---------- a block that uses the stack ----------

  /** push %rbx; movq $7, -8(%rbp); pop %rbx */
  function PushPop(k: nat, r: Regs): Op {
    if k == 0 then Store(Down(r.rsp), r.saved[0], r.(rsp := Down(r.rsp)))
    else if k == 1 then Store(Down(AsAddr(r.saved[1])), Num(7), r)
    else Load(r.rsp, v => r.(saved := r.saved[0 := v], rsp := Up(r.rsp)))
  }

  /** An address well inside the frame of the one friend. */
  predicate Inside(a: Addr) {
    0x1100 <= a < 0x1F00
  }

  function Machine(): Config {
    Config(1, (a: Addr) => if 0x1000 <= a < 0x2000 then 1 else HAKASE, site => Block(3, PushPop),
           (c, r, op) => true, (c, r: Regs, site) => Inside(r.rsp) && Inside(AsAddr(r.saved[1])), r => true)
  }

  /** The stack pointer has gone down by at most one word, and rbp has not changed. */
  predicate InFrame(site: nat, f: nat, k: nat, r: Regs) {
    && f == 1 && Inside(AsAddr(r.saved[1]))
    && (if k == 1 || k == 2 then 0x10F8 <= r.rsp < 0x1EF8 else Inside(r.rsp))
  }

  lemma PushPopGuards(site: nat, k: nat, r: Regs)
    requires k < 3 && InFrame(site, 1, k, r)
    ensures Guards(Machine(), InFrame, site, 1, k, r)
  {
    var op := PushPop(k, r);
    assert Machine().block(site).op(k, r) == op;
    forall v ensures OwnStack(Machine(), 1, OpRegs(op, v)) && InFrame(site, 1, k + 1, OpRegs(op, v)) {
      var r' := OpRegs(op, v);
      assert r'.rsp == if k == 0 then Down(r.rsp) else if k == 1 then r.rsp else Up(r.rsp);
      assert 0x1000 <= Down(r'.rsp) < 0x2000;
    }
  }

  lemma PushPopGuarded()
    ensures Guarded(Machine(), InFrame)
  {
    forall site: nat, f: nat, k: nat, r | IsFriend(Machine(), f) && k < 3 && InFrame(site, f, k, r)
      ensures Guards(Machine(), InFrame, site, f, k, r)
    {
      PushPopGuards(site, k, r);
    }
  }

  function Powered(): Tso {
    var regs := (rsp: Addr) => Regs(Num(0), [Num(0), Num(0x1800), Num(0), Num(0), Num(0), Num(0)], rsp, []);
    Tso([Core(Idle, regs(0x9000)), Core(Idle, regs(0x1800))], l => Num(0), [[], []], History([], [], 0, 0, 0, 0, 0))
  }

  /** The theorems apply to it: it is well behaved from an initial state in which the friend can offload it. */
  lemma PushPopIsWellBehaved()
    ensures var cfg, b := Machine(), Powered();
            && Initial(cfg, b) && WellBehaved(cfg, InitialSpec(b))
            && TsoEnabled(cfg, b, Invoke(1, 0)) && TsoEnabled(cfg, b, Poll)
  {
    PushPopGuarded();
    GuardedIsWellBehaved(Machine(), InFrame, Powered());
  }
}
