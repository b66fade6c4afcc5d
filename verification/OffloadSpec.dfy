/**
  What offloading promises: one memory, no store buffers, no lock and no context switch.  A block is
  run in one step, in the registers and memory of the friend that asked for it.
  */
module OffloadSpec {
  import opened Wrappers
  import opened OffloadMachine

  type Ram = Addr -> Value

  function Set(m: Ram, a: Addr, v: Value): Ram {
    (x: Addr) => if x == a then v else m(x)
  }

  datatype Outcome = Outcome(ram: Ram, regs: Regs)

  function ApplyOp(m: Ram, op: Op): Outcome {
    match op
    case Compute(r) => Outcome(m, r)
    case Load(a, k) => Outcome(m, k(m(a)))
    case Store(a, v, r) => Outcome(Set(m, a, v), r)
  }

  /** The first `k` instructions of the block at `site`. */
  function Run(cfg: Config, site: nat, k: nat, m: Ram, r: Regs): Outcome {
    if k == 0 then Outcome(m, r)
    else
      var o := Run(cfg, site, k - 1, m, r);
      ApplyOp(o.ram, cfg.block(site).op(k - 1, o.regs))
  }

  /** The registers a block starts from: the friend's context, with every caller-saved register dead. */
  function Start(fr: Regs): Regs {
    Regs(Num(1), fr.saved, fr.rsp, [])
  }

  /** Memory when hakase (registers `hr`) enters the block of a friend whose registers are `fr`. */
  function Entered(site: nat, m: Ram, hr: Regs, fr: Regs): Ram {
    Set(Set(m, Down(hr.rsp), Code(HReturn)), Down(fr.rsp), Code(AfterWait(site)))
  }

  /** One whole block.  Apart from what the block does, only the word just below hakase's stack
      pointer and the word just below the friend's are written. */
  function Serve(cfg: Config, site: nat, m: Ram, hr: Regs, fr: Regs): Outcome {
    var o := Run(cfg, site, cfg.block(site).length, Entered(site, m, hr, fr), Start(fr));
    Outcome(Set(Set(o.ram, Down(o.regs.rsp), Code(Release(site))), Down(hr.rsp), Code(HAfterSave)), o.regs)
  }

  /** Where a friend is in its current offload. */
  datatype Job = NoJob | Asked(site: nat) | Called(site: nat) | Served(site: nat) | Back(site: nat)

  datatype Spec = Spec(jobs: seq<Job>, regs: seq<Regs>, ram: Ram, order: seq<Request>)

  datatype SpecLabel =
    | SLocal(c: nat, op: Op)
    | SInvoke(c: nat, site: nat)
    | SCall(c: nat)
    | SServe(c: nat)
    | SReturn(c: nat)
    | SFinish(c: nat)
    | Stutter

  ghost predicate SpecShape(cfg: Config, t: Spec) {
    |t.jobs| == cfg.friends + 1 && |t.regs| == cfg.friends + 1
  }

  ghost predicate SpecEnabled(cfg: Config, t: Spec, l: SpecLabel)
    requires |t.jobs| == cfg.friends + 1 && |t.regs| == cfg.friends + 1
  {
    match l
    case SLocal(c, op) => IsCore(cfg, c) && t.jobs[c] == NoJob && LocalOp(cfg, c, t.regs[c], op)
    case SInvoke(c, site) => IsFriend(cfg, c) && t.jobs[c] == NoJob && MayInvoke(cfg, c, t.regs[c], site)
    case SCall(c) => IsFriend(cfg, c) && t.jobs[c].Asked?
    case SServe(c) => IsFriend(cfg, c) && t.jobs[c].Called? && MayPoll(cfg, t.regs[HAKASE])
    case SReturn(c) => IsFriend(cfg, c) && t.jobs[c].Served?
    case SFinish(c) => IsFriend(cfg, c) && t.jobs[c].Back?
    case Stutter => true
  }

  /** Every offload goes NoJob, Asked, Called, Served, Back, NoJob, so its block runs exactly once. */
  function SpecStep(cfg: Config, t: Spec, l: SpecLabel): (t': Spec)
    requires |t.jobs| == cfg.friends + 1 && |t.regs| == cfg.friends + 1
    requires SpecEnabled(cfg, t, l)
    ensures |t'.jobs| == cfg.friends + 1 && |t'.regs| == cfg.friends + 1
  {
    match l
    case SLocal(c, op) =>
      var o := ApplyOp(t.ram, op);
      t.(ram := o.ram, regs := t.regs[c := o.regs])
    case SInvoke(c, site) => t.(jobs := t.jobs[c := Asked(site)])
    case SCall(c) =>
      var site := t.jobs[c].site;
      t.(jobs := t.jobs[c := Called(site)], ram := Set(t.ram, Down(t.regs[c].rsp), Code(AfterWait(site))))
    case SServe(c) =>
      var site := t.jobs[c].site;
      var o := Serve(cfg, site, t.ram, t.regs[HAKASE], t.regs[c]);
      var fr := t.regs[c].(saved := o.regs.saved, rsp := o.regs.rsp);
      var hr := t.regs[HAKASE].(rax := Num(1), scratch := o.regs.scratch);
      Spec(t.jobs[c := Served(site)], t.regs[c := fr][HAKASE := hr], o.ram, t.order + [Request(c, site)])
    case SReturn(c) =>
      var site := t.jobs[c].site;
      var fr := t.regs[c].(rax := Num(1));
      t.(jobs := t.jobs[c := Back(site)], regs := t.regs[c := fr],
         ram := Set(t.ram, Down(fr.rsp), Code(AfterSave(site))))
    case SFinish(c) => t.(jobs := t.jobs[c := NoJob])
    case Stutter => t
  }

  /** The addresses hakase touches while it serves friend `f`. */
  predicate Lent(cfg: Config, f: nat, a: Addr) {
    cfg.owner(a) == f || cfg.owner(a) == HAKASE
  }

  ghost predicate SameLent(cfg: Config, f: nat, m: Ram, m': Ram) {
    forall a: Addr :: Lent(cfg, f, a) ==> m(a) == m'(a)
  }

  ghost predicate SameElsewhere(cfg: Config, f: nat, m: Ram, m': Ram) {
    forall a: Addr :: !Lent(cfg, f, a) ==> m(a) == m'(a)
  }

  // ---------- blocks that keep to what is lent to them ----------

  /** The next instruction of a block run for friend `f`, from memory and registers `o`, touches only what is
      lent to it and leaves the stack in the friend's frame. */
  predicate KeepsTo(cfg: Config, f: nat, op: Op, o: Outcome) {
    (!op.Compute? ==> Lent(cfg, f, op.a)) && OwnStack(cfg, f, ApplyOp(o.ram, op).regs)
  }

  /** So do the first `k` instructions of the block at `site`, run from memory `m` and registers `r`. */
  predicate Confined(cfg: Config, site: nat, f: nat, k: nat, m: Ram, r: Regs) {
    k == 0 ||
    (var o := Run(cfg, site, k - 1, m, r);
     Confined(cfg, site, f, k - 1, m, r) && KeepsTo(cfg, f, cfg.block(site).op(k - 1, o.regs), o))
  }

  /** And so does all of it, when hakase enters it. */
  predicate Safe(cfg: Config, site: nat, f: nat, m: Ram, hr: Regs, fr: Regs) {
    Confined(cfg, site, f, cfg.block(site).length, Entered(site, m, hr, fr), Start(fr))
  }

  /** Every block that could be run now keeps to what is lent to it. */
  ghost predicate SafeJobs(cfg: Config, t: Spec) {
    && SpecShape(cfg, t)
    && forall c: nat :: IsFriend(cfg, c) && SpecEnabled(cfg, t, SServe(c)) ==>
         Safe(cfg, t.jobs[c].site, c, t.ram, t.regs[HAKASE], t.regs[c])
  }

  ghost predicate SpecReaches(cfg: Config, t: Spec, ts: seq<SpecLabel>, t': Spec)
    decreases |ts|
  {
    && SpecShape(cfg, t)
    && if ts == [] then t' == t
       else SpecEnabled(cfg, t, ts[0]) && SpecReaches(cfg, SpecStep(cfg, t, ts[0]), ts[1..], t')
  }

  /** The hypothesis on the programs and blocks: in every run of the specification from `t`, where blocks
      are run one at a time and in one step, each keeps to what is lent to it. */
  ghost predicate WellBehaved(cfg: Config, t: Spec) {
    SpecShape(cfg, t) && forall ts, t' :: SpecReaches(cfg, t, ts, t') ==> SafeJobs(cfg, t')
  }

  lemma WellBehavedNow(cfg: Config, t: Spec)
    requires WellBehaved(cfg, t)
    ensures SafeJobs(cfg, t)
  {
    assert SpecReaches(cfg, t, [], t);
  }

  lemma WellBehavedNext(cfg: Config, t: Spec, l: SpecLabel)
    requires WellBehaved(cfg, t) && SpecEnabled(cfg, t, l)
    ensures WellBehaved(cfg, SpecStep(cfg, t, l))
  {
    forall ts, t' | SpecReaches(cfg, SpecStep(cfg, t, l), ts, t') ensures SafeJobs(cfg, t') {
      assert ([l] + ts)[1..] == ts;
      assert SpecReaches(cfg, t, [l] + ts, t');
    }
  }

  lemma {:induction false} ConfinedBefore(cfg: Config, site: nat, f: nat, k: nat, n: nat, m: Ram, r: Regs)
    requires k <= n && Confined(cfg, site, f, n, m, r)
    ensures Confined(cfg, site, f, k, m, r)
    decreases n
  {
    if k < n { ConfinedBefore(cfg, site, f, k, n - 1, m, r); }
  }

  /** A block reads and writes only what is lent to it. */
  lemma {:induction false} RunLocality(cfg: Config, site: nat, f: nat, k: nat, m: Ram, m': Ram, r: Regs)
    requires Confined(cfg, site, f, k, m, r) && OwnStack(cfg, f, r)
    requires SameLent(cfg, f, m, m')
    ensures Run(cfg, site, k, m, r).regs == Run(cfg, site, k, m', r).regs
    ensures SameLent(cfg, f, Run(cfg, site, k, m, r).ram, Run(cfg, site, k, m', r).ram)
    ensures SameElsewhere(cfg, f, Run(cfg, site, k, m, r).ram, m)
    ensures OwnStack(cfg, f, Run(cfg, site, k, m, r).regs)
    ensures Confined(cfg, site, f, k, m', r)
  {
    if k > 0 { RunLocality(cfg, site, f, k - 1, m, m', r); }
  }

  lemma ServeLocality(cfg: Config, site: nat, f: nat, m: Ram, m': Ram, hr: Regs, fr: Regs)
    requires Safe(cfg, site, f, m, hr, fr) && OwnStack(cfg, f, fr) && OwnStack(cfg, HAKASE, hr)
    requires SameLent(cfg, f, m, m')
    ensures Serve(cfg, site, m, hr, fr).regs == Serve(cfg, site, m', hr, fr).regs
    ensures SameLent(cfg, f, Serve(cfg, site, m, hr, fr).ram, Serve(cfg, site, m', hr, fr).ram)
    ensures SameElsewhere(cfg, f, Serve(cfg, site, m, hr, fr).ram, m)
    ensures OwnStack(cfg, f, Serve(cfg, site, m, hr, fr).regs)
    ensures Safe(cfg, site, f, m', hr, fr)
  {
    var n := cfg.block(site).length;
    RunLocality(cfg, site, f, n, Entered(site, m, hr, fr), Entered(site, m', hr, fr), Start(fr));
  }
}
