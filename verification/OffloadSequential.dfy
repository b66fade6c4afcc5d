/**
  The protocol over one memory without store buffers.  `stage` is a history variable: it says which
  core the offloader currently belongs to.  A poll of a shared word may miss (`Miss`), which is how
  a stale read of the buffered machine appears here.
  */
module OffloadSequential {
  import opened Wrappers
  import opened OffloadMachine
  import opened OffloadSpec

  datatype Stage =
    | Free(last: nat)                            // unlocked; `last` was the last holder
    | Holding(f: nat, site: nat)                 // friend f saves its context
    | Posted(f: nat, site: nat)                  // slot 8 has been raised
    | Serving(f: nat, site: nat, ram: Ram)       // hakase runs the block; memory was `ram` when it began
    | Answered(f: nat, site: nat)                // slot 9 has been raised
    | Resuming(f: nat, site: nat)                // friend f reloads its context

  datatype Seq = Seq(cores: seq<Core>, mem: Memory, stage: Stage, hist: History)

  datatype SeqLabel =
    | QLocal(c: nat, op: Op)
    | QInvoke(c: nat, site: nat)
    | QPoll
    | QExec(c: nat)
    | QMiss(c: nat)
    | QSkip

  function RamOf(m: Memory): Ram {
    (a: Addr) => m(Mem(a))
  }

  function ReadIf(m: Memory, l: Option<Loc>): Value {
    match l
    case None => Num(0)
    case Some(l) => m(l)
  }

  function NextStage(st: Stage, c: nat, core: Core, v: Value, won: bool, ram: Ram): Stage {
    match core.pc
    case LockCas(site) => if won then Holding(c, site) else st
    case Raise => if st.Holding? then Posted(st.f, st.site) else st
    case Test => if v != Num(0) && st.Posted? then Serving(st.f, st.site, ram) else st
    case Answer => if st.Serving? then Answered(st.f, st.site) else st
    case Spin => if v != Num(0) && st.Answered? then Resuming(st.f, st.site) else st
    case Release(_) => Free(c)
    case _ => st
  }

  predicate Polls(pc: Pc) {
    pc.Test? || pc.LockCas?
  }

  predicate Runs(pc: Pc) {
    !pc.Idle? && !pc.Wild?
  }

  ghost predicate SeqEnabled(cfg: Config, s: Seq, l: SeqLabel)
    requires |s.cores| == cfg.friends + 1
  {
    match l
    case QLocal(c, op) => IsCore(cfg, c) && s.cores[c].pc == Idle && LocalOp(cfg, c, s.cores[c].regs, op)
    case QInvoke(c, site) => IsFriend(cfg, c) && s.cores[c].pc == Idle && MayInvoke(cfg, c, s.cores[c].regs, site)
    case QPoll => s.cores[HAKASE].pc == Idle && MayPoll(cfg, s.cores[HAKASE].regs)
    case QExec(c) => IsCore(cfg, c) && Runs(s.cores[c].pc)
    case QMiss(c) => IsCore(cfg, c) && Polls(s.cores[c].pc)
    case QSkip => true
  }

  function CasStep(cfg: Config, s: Seq, c: nat): Seq
    requires c < |s.cores| && s.cores[c].pc.LockCas?
  {
    var core := s.cores[c];
    var won := s.mem(Lock) == Num(0);
    var core' := core.(pc := if won then CallWait(core.pc.site) else LockRead(core.pc.site));
    Seq(s.cores[c := core'], if won then Write(s.mem, Lock, Num(1)) else s.mem,
        NextStage(s.stage, c, core, Num(0), won, RamOf(s.mem)), Tick(cfg, s.hist, c, core.pc, won))
  }

  function ExecStep(cfg: Config, s: Seq, c: nat): Seq
    requires c < |s.cores|
  {
    var core := s.cores[c];
    var v := ReadIf(s.mem, Reads(cfg, core));
    var e := Does(cfg, core, v);
    Seq(s.cores[c := e.core], WriteIf(s.mem, e.store),
        NextStage(s.stage, c, core, v, false, RamOf(s.mem)), Tick(cfg, s.hist, c, core.pc, false))
  }

  function MissPc(pc: Pc): Pc
    requires Polls(pc)
  {
    if pc.Test? then Idle else LockRead(pc.site)
  }

  function LocalStep(s: Seq, c: nat, op: Op): Seq
    requires c < |s.cores|
  {
    var core := s.cores[c];
    s.(cores := s.cores[c := core.(regs := OpRegs(op, ReadIf(s.mem, OpReads(op))))],
       mem := WriteIf(s.mem, OpStores(op)))
  }

  function SeqStep(cfg: Config, s: Seq, l: SeqLabel): Seq
    requires |s.cores| == cfg.friends + 1
    requires SeqEnabled(cfg, s, l)
  {
    match l
    case QLocal(c, op) => LocalStep(s, c, op)
    case QInvoke(c, site) => s.(cores := s.cores[c := s.cores[c].(pc := LockRead(site))])
    case QPoll => s.(cores := s.cores[HAKASE := s.cores[HAKASE].(pc := Test)])
    case QExec(c) => if s.cores[c].pc.LockCas? then CasStep(cfg, s, c) else ExecStep(cfg, s, c)
    case QMiss(c) => s.(cores := s.cores[c := s.cores[c].(pc := MissPc(s.cores[c].pc))])
    case QSkip => s
  }

  // ---------- the relation with the specification ----------

  /** Slots 0 .. k-1 of the first seven hold registers `r`. */
  ghost predicate SavedTo(m: Memory, buf: Buf, r: Regs, k: nat) {
    && (forall j: nat {:trigger Slot(buf, j)} :: j < 6 && j < k ==> m(Slot(buf, j)) == r.saved[j])
    && (k > 6 ==> m(Slot(buf, 6)) == Num(r.rsp))
  }

  /** The whole context is saved, with return address `ret`. */
  ghost predicate HoldsCtx(m: Memory, buf: Buf, r: Regs, ret: Pc) {
    SavedTo(m, buf, r, 7) && m(Slot(buf, 7)) == Code(ret)
  }

  /** When register j of the six is back, counted in restores. */
  function RestoredAt(j: nat): nat {
    if j == 1 then 1 else if j == 0 then 4 else j + 3
  }

  /** Registers `r` after `k` restores of context `want`; before the second, rsp is still `sp`. */
  ghost predicate RestoredTo(r: Regs, want: Regs, sp: Addr, k: nat) {
    && (forall j: nat {:trigger r.saved[j]} :: j < 6 && RestoredAt(j) <= k ==> r.saved[j] == want.saved[j])
    && r.rsp == (if k < 2 then sp else if k == 2 then want.rsp else Down(want.rsp))
  }

  /** Registers while a setjmp entered with registers `r0` is saving. */
  ghost predicate InCall(r: Regs, r0: Regs) {
    r.saved == r0.saved && r.rsp == Down(r0.rsp) && r.scratch == r0.scratch
  }

  ghost predicate Saving(m: Memory, buf: Buf, r: Regs, r0: Regs, ret: Pc, k: nat) {
    && k <= 8 && InCall(r, r0) && SavedTo(m, buf, r0, k)
    && m(Mem(r.rsp)) == Code(ret)
    && (k == 8 ==> r.rax == Code(ret))
  }

  ghost predicate RamIs(m: Memory, ram: Ram) {
    forall a: Addr :: m(Mem(a)) == ram(a)
  }

  ghost predicate LentIs(cfg: Config, f: nat, m: Memory, ram: Ram) {
    forall a: Addr :: Lent(cfg, f, a) ==> m(Mem(a)) == ram(a)
  }

  /** A friend that does not hold the lock. */
  ghost predicate Outside(cfg: Config, i: nat, core: Core, job: Job, r: Regs) {
    && core.regs == r
    && (core.pc == Idle ==> job == NoJob)
    && (core.pc != Idle ==>
          && (core.pc.LockRead? || core.pc.LockCas?)
          && job == Asked(core.pc.site) && OwnStack(cfg, i, r))
  }

  ghost predicate HoldingRel(m: Memory, core: Core, job: Job, r: Regs, site: nat) {
    match core.pc
    case CallWait(site') => site' == site && job == Asked(site) && core.regs == r
    case Save(buf, wait, k) =>
      buf == FriendCtx && wait && job == Called(site) && Saving(m, FriendCtx, core.regs, r, AfterWait(site), k)
    case Raise => job == Called(site) && InCall(core.regs, r) && HoldsCtx(m, FriendCtx, r, AfterWait(site))
    case _ => false
  }

  ghost predicate ResumingRel(m: Memory, core: Core, job: Job, r: Regs, site: nat) {
    && HoldsCtx(m, FriendCtx, r, AfterSave(site))
    && core.regs.scratch == r.scratch
    && match core.pc
       case Restore(buf, wait, k) =>
         && buf == FriendCtx && wait && k <= 7
         && RestoredTo(core.regs, r, core.regs.rsp, k)
         && (if k <= 2 then job == Served(site)
             else job == Back(site) && r.rax == Num(1) && m(Mem(Down(r.rsp))) == Code(AfterSave(site)))
       case Clear => ResumedCall(m, core, job, r, site)
       case WaitRet => ResumedCall(m, core, job, r, site)
       case AfterSave(site') => site' == site && core.regs == r && job == Back(site) && r.rax == Num(1)
       case Release(site') => site' == site && core.regs == r && job == Back(site) && r.rax == Num(1)
       case _ => false
  }

  ghost predicate ResumedCall(m: Memory, core: Core, job: Job, r: Regs, site: nat) {
    && core.regs.saved == r.saved && core.regs.rsp == Down(r.rsp)
    && job == Back(site) && r.rax == Num(1) && m(Mem(Down(r.rsp))) == Code(AfterSave(site))
  }

  /** hakase before it enters the block: saving itself and loading the friend's context. */
  ghost predicate EnteringRel(cfg: Config, m: Memory, core: Core, hr: Regs, fr: Regs, f: nat, site: nat, ram: Ram) {
    && HoldsCtx(m, FriendCtx, fr, AfterWait(site))
    && match core.pc
       case Take => core.regs == hr && LentIs(cfg, f, m, ram)
       case HCallSave => core.regs == hr && LentIs(cfg, f, m, ram)
       case Save(buf, wait, k) =>
         && buf == HakaseCtx && !wait && Saving(m, HakaseCtx, core.regs, hr, HAfterSave, k)
         && LentIs(cfg, f, m, Set(ram, Down(hr.rsp), Code(HAfterSave)))
       case SaveRet(buf) =>
         && buf == HakaseCtx && InCall(core.regs, hr) && HoldsCtx(m, HakaseCtx, hr, HAfterSave)
         && LentIs(cfg, f, m, Set(ram, Down(hr.rsp), Code(HAfterSave)))
       case HAfterSave =>
         && core.regs == hr.(rax := Num(0)) && HoldsCtx(m, HakaseCtx, hr, HAfterSave)
         && LentIs(cfg, f, m, Set(ram, Down(hr.rsp), Code(HAfterSave)))
       case HCallLong =>
         && core.regs == hr.(rax := Num(0)) && HoldsCtx(m, HakaseCtx, hr, HAfterSave)
         && LentIs(cfg, f, m, Set(ram, Down(hr.rsp), Code(HAfterSave)))
       case Restore(buf, wait, k) =>
         && buf == FriendCtx && !wait && k <= 7 && HoldsCtx(m, HakaseCtx, hr, HAfterSave)
         && core.regs.rax == Num(1) && RestoredTo(core.regs, fr, Down(hr.rsp), k)
         && LentIs(cfg, f, m, if k <= 2 then Set(ram, Down(hr.rsp), Code(HReturn)) else Entered(site, ram, hr, fr))
       case LongRet(buf) =>
         && buf == FriendCtx && HoldsCtx(m, HakaseCtx, hr, HAfterSave)
         && core.regs.rax == Num(1) && core.regs.saved == fr.saved && core.regs.rsp == Down(fr.rsp)
         && LentIs(cfg, f, m, Entered(site, ram, hr, fr))
       case AfterWait(site') =>
         && site' == site && HoldsCtx(m, HakaseCtx, hr, HAfterSave)
         && core.regs.rax == Num(1) && core.regs.saved == fr.saved && core.regs.rsp == fr.rsp
         && LentIs(cfg, f, m, Entered(site, ram, hr, fr))
       case _ => false
  }

  function RunFrom(cfg: Config, site: nat, k: nat, ram: Ram, hr: Regs, fr: Regs): Outcome {
    Run(cfg, site, k, Entered(site, ram, hr, fr), Start(fr))
  }

  function Finished(cfg: Config, site: nat, ram: Ram, hr: Regs, fr: Regs): Outcome {
    RunFrom(cfg, site, cfg.block(site).length, ram, hr, fr)
  }

  ghost predicate RunningRel(cfg: Config, m: Memory, core: Core, hr: Regs, fr: Regs, f: nat, site: nat, ram: Ram)
  {
    && HoldsCtx(m, HakaseCtx, hr, HAfterSave)
    && match core.pc
       case RunBlock(site', k) =>
         && site' == site && k <= cfg.block(site).length
         && core.regs == RunFrom(cfg, site, k, ram, hr, fr).regs
         && LentIs(cfg, f, m, RunFrom(cfg, site, k, ram, hr, fr).ram)
       case CallSave(site') =>
         && site' == site && core.regs == Finished(cfg, site, ram, hr, fr).regs
         && LentIs(cfg, f, m, Finished(cfg, site, ram, hr, fr).ram)
       case _ => false
  }

  /** hakase after the block: saving the friend's new context and loading its own. */
  ghost predicate LeavingRel(cfg: Config, m: Memory, core: Core, hr: Regs, fr: Regs, f: nat, site: nat, ram: Ram)
  {
    var o := Finished(cfg, site, ram, hr, fr);
    && HoldsCtx(m, HakaseCtx, hr, HAfterSave)
    && core.regs.scratch == o.regs.scratch
    && match core.pc
       case Save(buf, wait, k) =>
         && buf == FriendCtx && !wait && Saving(m, FriendCtx, core.regs, o.regs, AfterSave(site), k)
         && LentIs(cfg, f, m, Set(o.ram, Down(o.regs.rsp), Code(AfterSave(site))))
       case SaveRet(buf) =>
         && buf == FriendCtx && InCall(core.regs, o.regs) && HoldsCtx(m, FriendCtx, o.regs, AfterSave(site))
         && LentIs(cfg, f, m, Set(o.ram, Down(o.regs.rsp), Code(AfterSave(site))))
       case AfterSave(site') =>
         && site' == site && core.regs == o.regs.(rax := Num(0)) && HoldsCtx(m, FriendCtx, o.regs, AfterSave(site))
         && LentIs(cfg, f, m, Set(o.ram, Down(o.regs.rsp), Code(AfterSave(site))))
       case CallLong(site') =>
         && site' == site && core.regs == o.regs.(rax := Num(0)) && HoldsCtx(m, FriendCtx, o.regs, AfterSave(site))
         && LentIs(cfg, f, m, Set(o.ram, Down(o.regs.rsp), Code(AfterSave(site))))
       case Restore(buf, wait, k) =>
         && buf == HakaseCtx && !wait && k <= 7 && HoldsCtx(m, FriendCtx, o.regs, AfterSave(site))
         && core.regs.rax == Num(1) && RestoredTo(core.regs, hr, Down(o.regs.rsp), k)
         && LentIs(cfg, f, m, if k <= 2 then Set(o.ram, Down(o.regs.rsp), Code(Release(site)))
                              else Serve(cfg, site, ram, hr, fr).ram)
       case LongRet(buf) =>
         && buf == HakaseCtx && HoldsCtx(m, FriendCtx, o.regs, AfterSave(site))
         && core.regs.rax == Num(1) && core.regs.saved == hr.saved && core.regs.rsp == Down(hr.rsp)
         && LentIs(cfg, f, m, Serve(cfg, site, ram, hr, fr).ram)
       case HAfterSave => LeftRel(cfg, m, core, hr, fr, f, site, ram)
       case Answer => LeftRel(cfg, m, core, hr, fr, f, site, ram)
       case _ => false
  }

  ghost predicate LeftRel(cfg: Config, m: Memory, core: Core, hr: Regs, fr: Regs, f: nat, site: nat, ram: Ram) {
    var o := Finished(cfg, site, ram, hr, fr);
    && HoldsCtx(m, FriendCtx, o.regs, AfterSave(site))
    && core.regs == hr.(rax := Num(1), scratch := o.regs.scratch)
    && LentIs(cfg, f, m, Serve(cfg, site, ram, hr, fr).ram)
  }

  ghost predicate ServingRel(cfg: Config, m: Memory, core: Core, hr: Regs, fr: Regs, f: nat, site: nat, ram: Ram) {
    || EnteringRel(cfg, m, core, hr, fr, f, site, ram)
    || RunningRel(cfg, m, core, hr, fr, f, site, ram)
    || LeavingRel(cfg, m, core, hr, fr, f, site, ram)
  }

  predicate LockHeld(st: Stage) {
    !st.Free?
  }

  /** Whether slot 8 is up. */
  predicate RequestUp(st: Stage, hakase: Pc) {
    st.Posted? || (st.Serving? && hakase.Take?)
  }

  /** Whether slot 9 is up. */
  predicate ReplyUp(st: Stage, holder: Pc) {
    st.Answered? || (st.Resuming? && (holder.Restore? || holder.Clear?))
  }

  function Bit(b: bool): Value {
    Num(if b then 1 else 0)
  }

  /** The friend the stage belongs to; 0 when there is none. */
  function Holder(st: Stage): nat {
    if st.Free? then 0 else st.f
  }

  ghost predicate Shape(cfg: Config, s: Seq, t: Spec) {
    && |s.cores| == cfg.friends + 1 && |t.jobs| == cfg.friends + 1 && |t.regs| == cfg.friends + 1
    && (!s.stage.Free? ==> IsFriend(cfg, s.stage.f))
    && (s.stage.Free? ==> IsCore(cfg, s.stage.last))
    && t.jobs[HAKASE] == NoJob
  }

  ghost predicate Words(cfg: Config, s: Seq)
    requires |s.cores| == cfg.friends + 1 && Holder(s.stage) < |s.cores|
  {
    && s.mem(Lock) == Bit(LockHeld(s.stage))
    && s.mem(REQUEST) == Bit(RequestUp(s.stage, s.cores[HAKASE].pc))
    && s.mem(REPLY) == Bit(ReplyUp(s.stage, s.cores[Holder(s.stage)].pc))
  }

  ghost predicate Others(cfg: Config, s: Seq, t: Spec)
    requires Shape(cfg, s, t)
  {
    forall i: nat :: IsFriend(cfg, i) && i != Holder(s.stage) ==> Outside(cfg, i, s.cores[i], t.jobs[i], t.regs[i])
  }

  ghost predicate HakaseFree(cfg: Config, s: Seq, t: Spec)
    requires Shape(cfg, s, t)
  {
    && (s.cores[HAKASE].pc == Idle || s.cores[HAKASE].pc == Test)
    && (s.cores[HAKASE].pc == Test ==> MayPoll(cfg, t.regs[HAKASE]))
    && s.cores[HAKASE].regs == t.regs[HAKASE]
    && RamIs(s.mem, t.ram)
  }

  ghost predicate HakaseServes(cfg: Config, s: Seq, t: Spec)
    requires Shape(cfg, s, t) && s.stage.Serving?
  {
    var f := s.stage.f;
    && MayPoll(cfg, t.regs[HAKASE])
    && SameLent(cfg, f, t.ram, s.stage.ram)
    && (forall a: Addr :: !Lent(cfg, f, a) ==> s.mem(Mem(a)) == t.ram(a))
    && ServingRel(cfg, s.mem, s.cores[HAKASE], t.regs[HAKASE], t.regs[f], f, s.stage.site, s.stage.ram)
  }

  ghost predicate HolderRel(cfg: Config, s: Seq, t: Spec)
    requires Shape(cfg, s, t)
  {
    match s.stage
    case Free(_) => true
    case Holding(f, site) => HoldingRel(s.mem, s.cores[f], t.jobs[f], t.regs[f], site)
    case Posted(f, site) =>
      s.cores[f].pc == Spin && t.jobs[f] == Called(site) && s.cores[f].regs.scratch == t.regs[f].scratch
      && HoldsCtx(s.mem, FriendCtx, t.regs[f], AfterWait(site))
    case Serving(f, site, _) =>
      s.cores[f].pc == Spin && t.jobs[f] == Called(site) && s.cores[f].regs.scratch == t.regs[f].scratch
    case Answered(f, site) =>
      s.cores[f].pc == Spin && t.jobs[f] == Served(site) && s.cores[f].regs.scratch == t.regs[f].scratch
      && HoldsCtx(s.mem, FriendCtx, t.regs[f], AfterSave(site))
    case Resuming(f, site) => ResumingRel(s.mem, s.cores[f], t.jobs[f], t.regs[f], site)
  }

  /** The blocks run so far are those that won the lock, in that order, less one still to be run. */
  ghost predicate OrderRel(s: Seq, t: Spec) {
    if s.stage.Holding? || s.stage.Posted? || s.stage.Serving?
    then s.hist.order == t.order + [Request(s.stage.f, s.stage.site)]
    else s.hist.order == t.order
  }

  ghost predicate FriendSide(cfg: Config, s: Seq, t: Spec)
    requires Shape(cfg, s, t)
  {
    && Words(cfg, s)
    && Others(cfg, s, t)
    && (!s.stage.Free? ==> OwnStack(cfg, s.stage.f, t.regs[s.stage.f]))
    && HolderRel(cfg, s, t)
    && OrderRel(s, t)
  }

  ghost predicate HakaseSide(cfg: Config, s: Seq, t: Spec)
    requires Shape(cfg, s, t)
  {
    if s.stage.Serving? then HakaseServes(cfg, s, t) else HakaseFree(cfg, s, t)
  }

  ghost predicate Related(cfg: Config, s: Seq, t: Spec) {
    Shape(cfg, s, t) && FriendSide(cfg, s, t) && HakaseSide(cfg, s, t)
  }

  /** The step of the specification that a step of the machine is. */
  function SpecOf(s: Seq, l: SeqLabel): SpecLabel {
    match l
    case QLocal(c, op) => SLocal(c, op)
    case QInvoke(c, site) => SInvoke(c, site)
    case QExec(c) =>
      if c >= |s.cores| then Stutter
      else (match s.cores[c].pc
            case CallWait(_) => SCall(c)
            case Answer => SServe(Holder(s.stage))
            case Restore(buf, wait, k) => if wait && k == 2 then SReturn(c) else Stutter
            case Release(_) => SFinish(c)
            case _ => Stutter)
    case _ => Stutter
  }

  ghost predicate Simulated(cfg: Config, s: Seq, t: Spec, l: SeqLabel)
    requires |s.cores| == cfg.friends + 1 && SeqEnabled(cfg, s, l)
    requires SpecShape(cfg, t)
  {
    && SpecEnabled(cfg, t, SpecOf(s, l))
    && Related(cfg, SeqStep(cfg, s, l), SpecStep(cfg, t, SpecOf(s, l)))
  }
}
