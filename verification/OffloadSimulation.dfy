/** Every step of the protocol over one memory is a step of the specification. */
module OffloadSimulation {
  import opened Wrappers
  import opened OffloadMachine
  import opened OffloadSpec
  import opened OffloadSequential

  /** The hypotheses of a protocol step of core `c`. */
  ghost predicate Ready(cfg: Config, s: Seq, t: Spec, c: nat) {
    Related(cfg, s, t) && IsCore(cfg, c) && SeqEnabled(cfg, s, QExec(c))
  }

  lemma RetryKeepsHakase(cfg: Config, s: Seq, t: Spec, c: nat)
    requires Ready(cfg, s, t, c)
    requires c != HAKASE && c != Holder(s.stage) && !(s.cores[c].pc.LockCas? && s.mem(Lock) == Num(0))
    ensures var s' := SeqStep(cfg, s, QExec(c)); Shape(cfg, s', t) && s'.stage == s.stage && HakaseSide(cfg, s', t)
  {
    assert Outside(cfg, c, s.cores[c], t.jobs[c], t.regs[c]);
  }

  lemma RetryKeepsFriends(cfg: Config, s: Seq, t: Spec, c: nat)
    requires Ready(cfg, s, t, c)
    requires c != HAKASE && c != Holder(s.stage) && !(s.cores[c].pc.LockCas? && s.mem(Lock) == Num(0))
    ensures var s' := SeqStep(cfg, s, QExec(c)); Shape(cfg, s', t) && FriendSide(cfg, s', t)
    ensures SpecOf(s, QExec(c)) == Stutter
  {
    assert Outside(cfg, c, s.cores[c], t.jobs[c], t.regs[c]);
  }

  lemma LockRetry(cfg: Config, s: Seq, t: Spec, c: nat)
    requires Ready(cfg, s, t, c)
    requires c != HAKASE && c != Holder(s.stage) && !(s.cores[c].pc.LockCas? && s.mem(Lock) == Num(0))
    ensures Simulated(cfg, s, t, QExec(c))
  {
    RetryKeepsHakase(cfg, s, t, c);
    RetryKeepsFriends(cfg, s, t, c);
  }

  lemma LockWin(cfg: Config, s: Seq, t: Spec, c: nat)
    requires Ready(cfg, s, t, c)
    requires c != HAKASE && s.cores[c].pc.LockCas? && s.mem(Lock) == Num(0)
    ensures Simulated(cfg, s, t, QExec(c))
  {
    assert s.stage.Free?;
    assert Outside(cfg, c, s.cores[c], t.jobs[c], t.regs[c]);
    var s' := SeqStep(cfg, s, QExec(c));
    assert HakaseFree(cfg, s', t);
    assert Words(cfg, s');
  }

  /** One register save keeps the ones made before it. */
  lemma SaveKeeps(cfg: Config, m: Memory, core: Core, r: Regs, ret: Pc)
    requires core.pc.Save? && Saving(m, core.pc.buf, core.regs, r, ret, core.pc.k)
    ensures var e := Does(cfg, core, ReadIf(m, Reads(cfg, core)));
            var m' := WriteIf(m, e.store);
            && (core.pc.k < 8 ==> Saving(m', core.pc.buf, e.core.regs, r, ret, core.pc.k + 1))
            && (core.pc.k == 8 ==> InCall(e.core.regs, r) && HoldsCtx(m', core.pc.buf, r, ret))
            && (core.pc.k == 7 ==> e.store == None)
            && (core.pc.k < 7 ==> e.store.Some? && e.store.value.loc == Slot(core.pc.buf, core.pc.k))
            && (core.pc.k == 8 ==> e.store.Some? && e.store.value.loc == Slot(core.pc.buf, 7))
  {
  }

  lemma HoldingCall(cfg: Config, s: Seq, t: Spec, c: nat)
    requires Ready(cfg, s, t, c)
    requires s.stage.Holding? && c == s.stage.f && s.cores[c].pc.CallWait?
    ensures Simulated(cfg, s, t, QExec(c))
  {
  }

  lemma HoldingSave(cfg: Config, s: Seq, t: Spec, c: nat)
    requires Ready(cfg, s, t, c)
    requires s.stage.Holding? && c == s.stage.f && s.cores[c].pc.Save?
    ensures Simulated(cfg, s, t, QExec(c))
  {
    SaveKeeps(cfg, s.mem, s.cores[c], t.regs[c], AfterWait(s.stage.site));
    var s' := ExecStep(cfg, s, c);
    assert HolderRel(cfg, s', t);
    assert HakaseFree(cfg, s', t);
  }

  lemma HoldingRaise(cfg: Config, s: Seq, t: Spec, c: nat)
    requires Ready(cfg, s, t, c)
    requires s.stage.Holding? && c == s.stage.f && s.cores[c].pc.Raise?
    ensures Simulated(cfg, s, t, QExec(c))
  {
  }

  lemma SpinStep(cfg: Config, s: Seq, t: Spec, c: nat)
    requires Ready(cfg, s, t, c)
    requires (s.stage.Posted? || s.stage.Serving? || s.stage.Answered?) && c == s.stage.f
    ensures Simulated(cfg, s, t, QExec(c))
  {
    var s' := ExecStep(cfg, s, c);
    assert HolderRel(cfg, s', t);
    assert HakaseSide(cfg, s', t);
  }

  /** One register restore keeps the ones made before it. */
  lemma RestoreKeeps(cfg: Config, m: Memory, core: Core, want: Regs, sp: Addr, ret: Pc)
    requires core.pc.Restore? && core.pc.k <= 7
    requires HoldsCtx(m, core.pc.buf, want, ret)
    requires RestoredTo(core.regs, want, sp, core.pc.k)
    ensures var e := Does(cfg, core, ReadIf(m, Reads(cfg, core)));
            && RestoredTo(e.core.regs, want, sp, core.pc.k + 1)
            && e.core.regs.rax == core.regs.rax && e.core.regs.scratch == core.regs.scratch
            && (core.pc.k == 7 ==> e.core.regs.saved == want.saved)
            && e.store == (if core.pc.k == 2 then Some(Entry(Mem(Down(want.rsp)), Code(ret))) else None)
  {
    var k := core.pc.k;
    var e := Does(cfg, core, ReadIf(m, Reads(cfg, core)));
    if k == 1 {
      assert e.core.regs.rsp == want.rsp;
    } else if k != 2 {
      assert m(Slot(core.pc.buf, RestoreSlot(k))) == want.saved[RestoreSlot(k)];
      forall j: nat | j < 6 && RestoredAt(j) <= k + 1 ensures e.core.regs.saved[j] == want.saved[j] {
        if j != RestoreSlot(k) {
          assert RestoredAt(j) <= k;
          assert e.core.regs.saved[j] == core.regs.saved[j];
        }
      }
    }
  }

  lemma ResumingRestore(cfg: Config, s: Seq, t: Spec, c: nat)
    requires Ready(cfg, s, t, c)
    requires s.stage.Resuming? && c == s.stage.f && s.cores[c].pc.Restore? && s.cores[c].pc.k != 2
    ensures Simulated(cfg, s, t, QExec(c))
  {
    RestoreKeeps(cfg, s.mem, s.cores[c], t.regs[c], s.cores[c].regs.rsp, AfterSave(s.stage.site));
  }

  lemma ResumingPush(cfg: Config, s: Seq, t: Spec, c: nat)
    requires Ready(cfg, s, t, c)
    requires s.stage.Resuming? && c == s.stage.f && s.cores[c].pc.Restore? && s.cores[c].pc.k == 2
    ensures Simulated(cfg, s, t, QExec(c))
  {
    RestoreKeeps(cfg, s.mem, s.cores[c], t.regs[c], s.cores[c].regs.rsp, AfterSave(s.stage.site));
  }

  predicate Resumes(cfg: Config, s: Seq, c: nat) {
    c < |s.cores| && s.stage.Resuming? && c == s.stage.f && !s.cores[c].pc.Restore? && !s.cores[c].pc.Release?
  }

  lemma ReturnKeepsHakase(cfg: Config, s: Seq, t: Spec, c: nat)
    requires Ready(cfg, s, t, c) && Resumes(cfg, s, c)
    ensures var s' := ExecStep(cfg, s, c); Shape(cfg, s', t) && s'.stage == s.stage && HakaseSide(cfg, s', t)
  {
  }

  lemma ReturnKeepsFriends(cfg: Config, s: Seq, t: Spec, c: nat)
    requires Ready(cfg, s, t, c) && Resumes(cfg, s, c)
    ensures var s' := ExecStep(cfg, s, c); Shape(cfg, s', t) && FriendSide(cfg, s', t)
    ensures SpecOf(s, QExec(c)) == Stutter
  {
    assert HolderRel(cfg, ExecStep(cfg, s, c), t);
  }

  lemma ResumingReturn(cfg: Config, s: Seq, t: Spec, c: nat)
    requires Ready(cfg, s, t, c) && Resumes(cfg, s, c)
    ensures Simulated(cfg, s, t, QExec(c))
  {
    ReturnKeepsHakase(cfg, s, t, c);
    ReturnKeepsFriends(cfg, s, t, c);
  }

  lemma ResumingRelease(cfg: Config, s: Seq, t: Spec, c: nat)
    requires Ready(cfg, s, t, c)
    requires s.stage.Resuming? && c == s.stage.f && s.cores[c].pc.Release?
    ensures Simulated(cfg, s, t, QExec(c))
  {
    var s', t' := ExecStep(cfg, s, c), SpecStep(cfg, t, SFinish(c));
    assert HakaseFree(cfg, s', t');
  }

  lemma TestKeepsHakase(cfg: Config, s: Seq, t: Spec)
    requires Ready(cfg, s, t, HAKASE) && !s.stage.Serving? && !s.stage.Posted?
    ensures var s' := ExecStep(cfg, s, HAKASE); Shape(cfg, s', t) && s'.stage == s.stage && HakaseSide(cfg, s', t)
  {
  }

  lemma TestKeepsFriends(cfg: Config, s: Seq, t: Spec)
    requires Ready(cfg, s, t, HAKASE) && !s.stage.Serving? && !s.stage.Posted?
    ensures var s' := ExecStep(cfg, s, HAKASE); Shape(cfg, s', t) && FriendSide(cfg, s', t)
    ensures SpecOf(s, QExec(HAKASE)) == Stutter && !s.cores[HAKASE].pc.LockCas?
  {
  }

  lemma TestAgain(cfg: Config, s: Seq, t: Spec)
    requires Ready(cfg, s, t, HAKASE) && !s.stage.Serving? && !s.stage.Posted?
    ensures Simulated(cfg, s, t, QExec(HAKASE))
  {
    TestKeepsHakase(cfg, s, t);
    TestKeepsFriends(cfg, s, t);
  }

  lemma TestTakes(cfg: Config, s: Seq, t: Spec)
    requires Ready(cfg, s, t, HAKASE)
    requires s.stage.Posted?
    ensures Simulated(cfg, s, t, QExec(HAKASE))
  {
    var s' := ExecStep(cfg, s, HAKASE);
    var f := s.stage.f;
    assert EnteringRel(cfg, s'.mem, s'.cores[HAKASE], t.regs[HAKASE], t.regs[f], f, s'.stage.site, s'.stage.ram);
    assert HakaseServes(cfg, s', t);
    assert FriendSide(cfg, s', t);
  }

  ghost predicate Serves(cfg: Config, s: Seq, t: Spec) {
    SafeJobs(cfg, t) && Related(cfg, s, t) && s.stage.Serving?
  }

  // ---------- hakase while it serves ----------

  /** The block to be run for `f` keeps to what is lent to it, and so do the two stacks. */
  ghost predicate Context(cfg: Config, hr: Regs, fr: Regs, f: nat, site: nat, ram: Ram) {
    Safe(cfg, site, f, ram, hr, fr) && OwnStack(cfg, HAKASE, hr) && OwnStack(cfg, f, fr)
  }

  lemma ServingContext(cfg: Config, s: Seq, t: Spec)
    requires Serves(cfg, s, t)
    ensures Context(cfg, t.regs[HAKASE], t.regs[s.stage.f], s.stage.f, s.stage.site, s.stage.ram)
  {
    var f := s.stage.f;
    assert SpecEnabled(cfg, t, SServe(f));
    ServeLocality(cfg, s.stage.site, f, t.ram, s.stage.ram, t.regs[HAKASE], t.regs[f]);
  }

  /** What hakase may store while it serves. */
  predicate Allowed(cfg: Config, pc: Pc, f: nat, e: Entry) {
    match e.loc
    case Lock => false
    case Mem(a) => Lent(cfg, f, a)
    case Slot(_, _) => e.loc != REPLY && (e.loc == REQUEST ==> pc.Take?)
  }

  /** An instruction that changes no stage. */
  predicate Steady(pc: Pc) {
    Runs(pc) && !pc.LockCas? && !pc.Raise? && !pc.Test? && !pc.Answer? && !pc.Spin? && !pc.Release?
  }

  /** The next instruction keeps the relation and stores only what it may. */
  ghost predicate HakaseMoves(cfg: Config, m: Memory, core: Core, hr: Regs, fr: Regs, f: nat, site: nat, ram: Ram) {
    var e := Does(cfg, core, ReadIf(m, Reads(cfg, core)));
    && Steady(core.pc)
    && ServingRel(cfg, WriteIf(m, e.store), e.core, hr, fr, f, site, ram)
    && !e.core.pc.Take?
    && (core.pc.Take? ==> e.store == Some(Entry(REQUEST, Num(0))))
    && (e.store.Some? ==> Allowed(cfg, core.pc, f, e.store.value))
  }

  lemma EnterCalls(cfg: Config, m: Memory, core: Core, hr: Regs, fr: Regs, f: nat, site: nat, ram: Ram)
    requires Context(cfg, hr, fr, f, site, ram) && EnteringRel(cfg, m, core, hr, fr, f, site, ram)
    requires core.pc.Take? || core.pc.HCallSave? || core.pc.HAfterSave?
    ensures HakaseMoves(cfg, m, core, hr, fr, f, site, ram)
  {
  }

  lemma EnterSave(cfg: Config, m: Memory, core: Core, hr: Regs, fr: Regs, f: nat, site: nat, ram: Ram)
    requires Context(cfg, hr, fr, f, site, ram) && EnteringRel(cfg, m, core, hr, fr, f, site, ram) && core.pc.Save?
    ensures HakaseMoves(cfg, m, core, hr, fr, f, site, ram)
  {
    SaveKeeps(cfg, m, core, hr, HAfterSave);
  }

  lemma EnterReturns(cfg: Config, m: Memory, core: Core, hr: Regs, fr: Regs, f: nat, site: nat, ram: Ram)
    requires Context(cfg, hr, fr, f, site, ram) && EnteringRel(cfg, m, core, hr, fr, f, site, ram)
    requires core.pc.SaveRet? || core.pc.LongRet? || core.pc.AfterWait?
    ensures HakaseMoves(cfg, m, core, hr, fr, f, site, ram)
  {
  }

  lemma EnterLong(cfg: Config, m: Memory, core: Core, hr: Regs, fr: Regs, f: nat, site: nat, ram: Ram)
    requires Context(cfg, hr, fr, f, site, ram) && EnteringRel(cfg, m, core, hr, fr, f, site, ram) && core.pc.HCallLong?
    ensures HakaseMoves(cfg, m, core, hr, fr, f, site, ram)
  {
  }

  lemma EnterRestore(cfg: Config, m: Memory, core: Core, hr: Regs, fr: Regs, f: nat, site: nat, ram: Ram)
    requires Context(cfg, hr, fr, f, site, ram) && EnteringRel(cfg, m, core, hr, fr, f, site, ram) && core.pc.Restore?
    ensures HakaseMoves(cfg, m, core, hr, fr, f, site, ram)
  {
    RestoreKeeps(cfg, m, core, fr, Down(hr.rsp), AfterWait(site));
  }

  /** Throughout the block the stack is in the friend's frame. */
  lemma BlockStack(cfg: Config, k: nat, hr: Regs, fr: Regs, f: nat, site: nat, ram: Ram)
    requires Context(cfg, hr, fr, f, site, ram) && k <= cfg.block(site).length
    ensures OwnStack(cfg, f, RunFrom(cfg, site, k, ram, hr, fr).regs)
  {
    var m := Entered(site, ram, hr, fr);
    ConfinedBefore(cfg, site, f, k, cfg.block(site).length, m, Start(fr));
    RunLocality(cfg, site, f, k, m, m, Start(fr));
  }

  /** The next instruction of the block touches only what is lent to it. */
  lemma BlockKeepsTo(cfg: Config, k: nat, hr: Regs, fr: Regs, f: nat, site: nat, ram: Ram)
    requires Context(cfg, hr, fr, f, site, ram) && k < cfg.block(site).length
    ensures var op := cfg.block(site).op(k, RunFrom(cfg, site, k, ram, hr, fr).regs);
            !op.Compute? ==> Lent(cfg, f, op.a)
  {
    ConfinedBefore(cfg, site, f, k + 1, cfg.block(site).length, Entered(site, ram, hr, fr), Start(fr));
  }

  lemma RunStep(cfg: Config, m: Memory, core: Core, hr: Regs, fr: Regs, f: nat, site: nat, ram: Ram)
    requires Context(cfg, hr, fr, f, site, ram) && RunningRel(cfg, m, core, hr, fr, f, site, ram) && core.pc.RunBlock?
    ensures HakaseMoves(cfg, m, core, hr, fr, f, site, ram)
  {
    var k := core.pc.k;
    BlockStack(cfg, k, hr, fr, f, site, ram);
    if k < cfg.block(site).length {
      var op := cfg.block(site).op(k, core.regs);
      BlockKeepsTo(cfg, k, hr, fr, f, site, ram);
      var e := Does(cfg, core, ReadIf(m, Reads(cfg, core)));
      assert RunFrom(cfg, site, k + 1, ram, hr, fr) == ApplyOp(RunFrom(cfg, site, k, ram, hr, fr).ram, op);
      assert RunningRel(cfg, WriteIf(m, e.store), e.core, hr, fr, f, site, ram);
    }
  }

  lemma LeaveCallSave(cfg: Config, m: Memory, core: Core, hr: Regs, fr: Regs, f: nat, site: nat, ram: Ram)
    requires Context(cfg, hr, fr, f, site, ram) && RunningRel(cfg, m, core, hr, fr, f, site, ram) && core.pc.CallSave?
    ensures HakaseMoves(cfg, m, core, hr, fr, f, site, ram)
  {
    BlockStack(cfg, cfg.block(site).length, hr, fr, f, site, ram);
  }

  lemma LeaveSave(cfg: Config, m: Memory, core: Core, hr: Regs, fr: Regs, f: nat, site: nat, ram: Ram)
    requires Context(cfg, hr, fr, f, site, ram) && LeavingRel(cfg, m, core, hr, fr, f, site, ram) && core.pc.Save?
    ensures HakaseMoves(cfg, m, core, hr, fr, f, site, ram)
  {
    SaveKeeps(cfg, m, core, Finished(cfg, site, ram, hr, fr).regs, AfterSave(site));
  }

  lemma LeaveReturns(cfg: Config, m: Memory, core: Core, hr: Regs, fr: Regs, f: nat, site: nat, ram: Ram)
    requires Context(cfg, hr, fr, f, site, ram) && LeavingRel(cfg, m, core, hr, fr, f, site, ram)
    requires core.pc.SaveRet? || core.pc.LongRet? || core.pc.AfterSave? || core.pc.HAfterSave?
    ensures HakaseMoves(cfg, m, core, hr, fr, f, site, ram)
  {
    BlockStack(cfg, cfg.block(site).length, hr, fr, f, site, ram);
  }

  lemma LeaveCallLong(cfg: Config, m: Memory, core: Core, hr: Regs, fr: Regs, f: nat, site: nat, ram: Ram)
    requires Context(cfg, hr, fr, f, site, ram) && LeavingRel(cfg, m, core, hr, fr, f, site, ram) && core.pc.CallLong?
    ensures HakaseMoves(cfg, m, core, hr, fr, f, site, ram)
  {
    BlockStack(cfg, cfg.block(site).length, hr, fr, f, site, ram);
  }

  lemma LeaveRestore(cfg: Config, m: Memory, core: Core, hr: Regs, fr: Regs, f: nat, site: nat, ram: Ram)
    requires Context(cfg, hr, fr, f, site, ram) && LeavingRel(cfg, m, core, hr, fr, f, site, ram) && core.pc.Restore?
    ensures HakaseMoves(cfg, m, core, hr, fr, f, site, ram)
  {
    RestoreKeeps(cfg, m, core, hr, Down(Finished(cfg, site, ram, hr, fr).regs.rsp), HAfterSave);
  }

  lemma EnterStep(cfg: Config, m: Memory, core: Core, hr: Regs, fr: Regs, f: nat, site: nat, ram: Ram)
    requires Context(cfg, hr, fr, f, site, ram) && EnteringRel(cfg, m, core, hr, fr, f, site, ram)
    ensures HakaseMoves(cfg, m, core, hr, fr, f, site, ram)
  {
    match core.pc
    case Save(_, _, _) => EnterSave(cfg, m, core, hr, fr, f, site, ram);
    case Restore(_, _, _) => EnterRestore(cfg, m, core, hr, fr, f, site, ram);
    case HCallLong => EnterLong(cfg, m, core, hr, fr, f, site, ram);
    case Take => EnterCalls(cfg, m, core, hr, fr, f, site, ram);
    case HCallSave => EnterCalls(cfg, m, core, hr, fr, f, site, ram);
    case HAfterSave => EnterCalls(cfg, m, core, hr, fr, f, site, ram);
    case _ => EnterReturns(cfg, m, core, hr, fr, f, site, ram);
  }

  lemma LeaveStep(cfg: Config, m: Memory, core: Core, hr: Regs, fr: Regs, f: nat, site: nat, ram: Ram)
    requires Context(cfg, hr, fr, f, site, ram) && LeavingRel(cfg, m, core, hr, fr, f, site, ram) && !core.pc.Answer?
    ensures HakaseMoves(cfg, m, core, hr, fr, f, site, ram)
  {
    match core.pc
    case Save(_, _, _) => LeaveSave(cfg, m, core, hr, fr, f, site, ram);
    case Restore(_, _, _) => LeaveRestore(cfg, m, core, hr, fr, f, site, ram);
    case CallLong(_) => LeaveCallLong(cfg, m, core, hr, fr, f, site, ram);
    case _ => LeaveReturns(cfg, m, core, hr, fr, f, site, ram);
  }

  lemma HakaseStep(cfg: Config, m: Memory, core: Core, hr: Regs, fr: Regs, f: nat, site: nat, ram: Ram)
    requires Context(cfg, hr, fr, f, site, ram) && ServingRel(cfg, m, core, hr, fr, f, site, ram) && !core.pc.Answer?
    ensures HakaseMoves(cfg, m, core, hr, fr, f, site, ram)
  {
    if EnteringRel(cfg, m, core, hr, fr, f, site, ram) {
      EnterStep(cfg, m, core, hr, fr, f, site, ram);
    } else if LeavingRel(cfg, m, core, hr, fr, f, site, ram) {
      LeaveStep(cfg, m, core, hr, fr, f, site, ram);
    } else if core.pc.RunBlock? {
      RunStep(cfg, m, core, hr, fr, f, site, ram);
    } else {
      LeaveCallSave(cfg, m, core, hr, fr, f, site, ram);
    }
  }

  lemma ServeMoves(cfg: Config, s: Seq, t: Spec)
    requires Serves(cfg, s, t) && s.cores[HAKASE].pc != Answer
    ensures var f := s.stage.f;
            HakaseMoves(cfg, s.mem, s.cores[HAKASE], t.regs[HAKASE], t.regs[f], f, s.stage.site, s.stage.ram)
  {
    var f := s.stage.f;
    ServingContext(cfg, s, t);
    HakaseStep(cfg, s.mem, s.cores[HAKASE], t.regs[HAKASE], t.regs[f], f, s.stage.site, s.stage.ram);
  }

  lemma ServesOn(cfg: Config, s: Seq, t: Spec)
    requires Shape(cfg, s, t) && s.stage.Serving? && HakaseServes(cfg, s, t)
    requires var f := s.stage.f;
             HakaseMoves(cfg, s.mem, s.cores[HAKASE], t.regs[HAKASE], t.regs[f], f, s.stage.site, s.stage.ram)
    ensures var s' := ExecStep(cfg, s, HAKASE); s'.stage == s.stage && Shape(cfg, s', t) && HakaseServes(cfg, s', t)
  {
  }

  lemma FriendsWaitOn(cfg: Config, s: Seq, t: Spec)
    requires Shape(cfg, s, t) && s.stage.Serving? && FriendSide(cfg, s, t)
    requires var f := s.stage.f;
             HakaseMoves(cfg, s.mem, s.cores[HAKASE], t.regs[HAKASE], t.regs[f], f, s.stage.site, s.stage.ram)
    ensures var s' := ExecStep(cfg, s, HAKASE); Shape(cfg, s', t) && FriendSide(cfg, s', t)
  {
  }

  lemma ServeExec(cfg: Config, s: Seq, t: Spec)
    requires Serves(cfg, s, t) && s.cores[HAKASE].pc != Answer && SeqEnabled(cfg, s, QExec(HAKASE))
    ensures Simulated(cfg, s, t, QExec(HAKASE))
  {
    ServeMoves(cfg, s, t);
    ServesOn(cfg, s, t);
    FriendsWaitOn(cfg, s, t);
  }

  /** What hakase leaves behind when it has served: the outcome of the block, in one piece. */
  lemma Delivered(cfg: Config, s: Seq, t: Spec)
    requires Serves(cfg, s, t) && s.cores[HAKASE].pc == Answer
    ensures var f := s.stage.f;
            var o := Serve(cfg, s.stage.site, t.ram, t.regs[HAKASE], t.regs[f]);
            && RamIs(s.mem, o.ram)
            && HoldsCtx(s.mem, FriendCtx, o.regs, AfterSave(s.stage.site))
            && s.cores[HAKASE].regs == t.regs[HAKASE].(rax := Num(1), scratch := o.regs.scratch)
            && OwnStack(cfg, f, o.regs)
  {
    var f := s.stage.f;
    assert SpecEnabled(cfg, t, SServe(f));
    LeftBehind(cfg, s.mem, s.cores[HAKASE], t.regs[HAKASE], t.regs[f], f, s.stage.site, s.stage.ram, t.ram);
  }

  /** The same from memory `tram`, which differs from `ram` only in what is not lent. */
  lemma LeftBehind(cfg: Config, m: Memory, core: Core, hr: Regs, fr: Regs, f: nat, site: nat, ram: Ram, tram: Ram)
    requires Context(cfg, hr, fr, f, site, tram) && SameLent(cfg, f, tram, ram)
    requires forall a: Addr :: !Lent(cfg, f, a) ==> m(Mem(a)) == tram(a)
    requires ServingRel(cfg, m, core, hr, fr, f, site, ram) && core.pc == Answer
    ensures var o := Serve(cfg, site, tram, hr, fr);
            && RamIs(m, o.ram)
            && HoldsCtx(m, FriendCtx, o.regs, AfterSave(site))
            && core.regs == hr.(rax := Num(1), scratch := o.regs.scratch)
            && OwnStack(cfg, f, o.regs)
  {
    ServeLocality(cfg, site, f, tram, ram, hr, fr);
    assert LeftRel(cfg, m, core, hr, fr, f, site, ram);
  }

  lemma AnswerStep(cfg: Config, s: Seq, t: Spec)
    requires Serves(cfg, s, t) && s.cores[HAKASE].pc == Answer && SeqEnabled(cfg, s, QExec(HAKASE))
    ensures Simulated(cfg, s, t, QExec(HAKASE))
  {
    Delivered(cfg, s, t);
    AnswerFrees(cfg, s, t);
    AnswerWakes(cfg, s, t);
  }

  /** After the answer hakase is out of the protocol, */
  lemma AnswerFrees(cfg: Config, s: Seq, t: Spec)
    requires Related(cfg, s, t) && s.stage.Serving? && s.cores[HAKASE].pc == Answer
    requires var o := Serve(cfg, s.stage.site, t.ram, t.regs[HAKASE], t.regs[s.stage.f]);
             && RamIs(s.mem, o.ram)
             && s.cores[HAKASE].regs == t.regs[HAKASE].(rax := Num(1), scratch := o.regs.scratch)
    ensures SpecEnabled(cfg, t, SServe(s.stage.f))
    ensures var s', t' := ExecStep(cfg, s, HAKASE), SpecStep(cfg, t, SServe(s.stage.f));
            Shape(cfg, s', t') && s'.stage.Answered? && HakaseFree(cfg, s', t')
  {
  }

  /** and the friend can resume. */
  lemma AnswerWakes(cfg: Config, s: Seq, t: Spec)
    requires Related(cfg, s, t) && s.stage.Serving? && s.cores[HAKASE].pc == Answer
    requires SpecEnabled(cfg, t, SServe(s.stage.f))
    requires var o := Serve(cfg, s.stage.site, t.ram, t.regs[HAKASE], t.regs[s.stage.f]);
             HoldsCtx(s.mem, FriendCtx, o.regs, AfterSave(s.stage.site)) && OwnStack(cfg, s.stage.f, o.regs)
    ensures var s', t' := ExecStep(cfg, s, HAKASE), SpecStep(cfg, t, SServe(s.stage.f));
            Shape(cfg, s', t') && FriendSide(cfg, s', t')
  {
  }

  lemma InvokeStep(cfg: Config, s: Seq, t: Spec, c: nat, site: nat)
    requires Related(cfg, s, t) && SeqEnabled(cfg, s, QInvoke(c, site))
    ensures Simulated(cfg, s, t, QInvoke(c, site))
  {
    var s', t' := SeqStep(cfg, s, QInvoke(c, site)), SpecStep(cfg, t, SInvoke(c, site));
    assert c != Holder(s.stage);
    assert HakaseSide(cfg, s', t');
    assert FriendSide(cfg, s', t');
  }

  lemma PollStep(cfg: Config, s: Seq, t: Spec)
    requires Related(cfg, s, t) && SeqEnabled(cfg, s, QPoll)
    ensures Simulated(cfg, s, t, QPoll)
  {
    assert !s.stage.Serving?;
    var s' := SeqStep(cfg, s, QPoll);
    assert HakaseFree(cfg, s', t);
  }

  lemma MissLock(cfg: Config, s: Seq, t: Spec, c: nat)
    requires Related(cfg, s, t) && SeqEnabled(cfg, s, QMiss(c)) && s.cores[c].pc.LockCas?
    ensures Simulated(cfg, s, t, QMiss(c))
  {
    assert c != HAKASE && c != Holder(s.stage);
    var s' := SeqStep(cfg, s, QMiss(c));
    assert HakaseSide(cfg, s', t);
    assert FriendSide(cfg, s', t);
  }

  lemma MissTest(cfg: Config, s: Seq, t: Spec, c: nat)
    requires Related(cfg, s, t) && SeqEnabled(cfg, s, QMiss(c)) && s.cores[c].pc.Test?
    ensures Simulated(cfg, s, t, QMiss(c))
  {
    assert c == HAKASE && !s.stage.Serving?;
    var s' := SeqStep(cfg, s, QMiss(c));
    assert HakaseFree(cfg, s', t);
  }

  /** What hakase is doing depends only on the contexts and on what was lent to it. */
  lemma ServingFrame(cfg: Config, m: Memory, m': Memory, core: Core, hr: Regs, fr: Regs, f: nat, site: nat, ram: Ram)
    requires ServingRel(cfg, m, core, hr, fr, f, site, ram) && Context(cfg, hr, fr, f, site, ram)
    requires forall buf, i :: m(Slot(buf, i)) == m'(Slot(buf, i))
    requires forall a: Addr :: Lent(cfg, f, a) ==> m(Mem(a)) == m'(Mem(a))
    ensures ServingRel(cfg, m', core, hr, fr, f, site, ram)
  {
    BlockStack(cfg, cfg.block(site).length, hr, fr, f, site, ram);
    if EnteringRel(cfg, m, core, hr, fr, f, site, ram) {
      assert EnteringRel(cfg, m', core, hr, fr, f, site, ram);
    } else if RunningRel(cfg, m, core, hr, fr, f, site, ram) {
      assert RunningRel(cfg, m', core, hr, fr, f, site, ram);
    } else {
      assert LeavingRel(cfg, m', core, hr, fr, f, site, ram);
    }
  }

  /** What the holder is doing depends only on the contexts and on its own frame. */
  lemma HolderFrame(cfg: Config, s: Seq, t: Spec, s': Seq, t': Spec)
    requires Shape(cfg, s, t) && Shape(cfg, s', t') && s'.stage == s.stage && !s.stage.Free?
    requires var f := s.stage.f; s'.cores[f] == s.cores[f] && t'.jobs[f] == t.jobs[f] && t'.regs[f] == t.regs[f]
    requires HolderRel(cfg, s, t) && OwnStack(cfg, s.stage.f, t.regs[s.stage.f])
    requires forall buf, i :: s.mem(Slot(buf, i)) == s'.mem(Slot(buf, i))
    requires forall a: Addr :: cfg.owner(a) == s.stage.f ==> s.mem(Mem(a)) == s'.mem(Mem(a))
    ensures HolderRel(cfg, s', t')
  {
  }

  lemma LocalHakase(cfg: Config, s: Seq, t: Spec, c: nat, op: Op)
    requires Related(cfg, s, t) && SeqEnabled(cfg, s, QLocal(c, op))
    requires c == HAKASE
    ensures Simulated(cfg, s, t, QLocal(c, op))
  {
    assert !s.stage.Serving?;
    var s', t' := SeqStep(cfg, s, QLocal(c, op)), SpecStep(cfg, t, SLocal(c, op));
    assert HakaseFree(cfg, s', t');
    if !s.stage.Free? { HolderFrame(cfg, s, t, s', t'); }
  }

  lemma LocalKeepsHakase(cfg: Config, s: Seq, t: Spec, c: nat, op: Op)
    requires SafeJobs(cfg, t) && Related(cfg, s, t) && SeqEnabled(cfg, s, QLocal(c, op)) && c != HAKASE
    ensures SpecEnabled(cfg, t, SLocal(c, op))
    ensures var s', t' := LocalStep(s, c, op), SpecStep(cfg, t, SLocal(c, op));
            Shape(cfg, s', t') && HakaseSide(cfg, s', t')
  {
    assert c != Holder(s.stage);
    var s', t' := LocalStep(s, c, op), SpecStep(cfg, t, SLocal(c, op));
    if s.stage.Serving? {
      var f := s.stage.f;
      ServingContext(cfg, s, t);
      ServingFrame(cfg, s.mem, s'.mem, s.cores[HAKASE], t.regs[HAKASE], t.regs[f], f, s.stage.site, s.stage.ram);
    }
  }

  lemma LocalKeepsFriends(cfg: Config, s: Seq, t: Spec, c: nat, op: Op)
    requires Related(cfg, s, t) && SeqEnabled(cfg, s, QLocal(c, op)) && c != HAKASE
    requires SpecEnabled(cfg, t, SLocal(c, op))
    ensures var s', t' := LocalStep(s, c, op), SpecStep(cfg, t, SLocal(c, op));
            Shape(cfg, s', t') && FriendSide(cfg, s', t')
  {
    assert c != Holder(s.stage);
    if !s.stage.Free? { HolderFrame(cfg, s, t, LocalStep(s, c, op), SpecStep(cfg, t, SLocal(c, op))); }
  }

  lemma LocalFriend(cfg: Config, s: Seq, t: Spec, c: nat, op: Op)
    requires SafeJobs(cfg, t) && Related(cfg, s, t) && SeqEnabled(cfg, s, QLocal(c, op)) && c != HAKASE
    ensures Simulated(cfg, s, t, QLocal(c, op))
  {
    LocalKeepsHakase(cfg, s, t, c, op);
    LocalKeepsFriends(cfg, s, t, c, op);
  }

  lemma FriendExec(cfg: Config, s: Seq, t: Spec, c: nat)
    requires Ready(cfg, s, t, c)
    requires c != HAKASE && c == Holder(s.stage)
    ensures Simulated(cfg, s, t, QExec(c))
  {
    match s.stage
    case Holding(_, _) =>
      match s.cores[c].pc {
        case CallWait(_) => HoldingCall(cfg, s, t, c);
        case Save(_, _, _) => HoldingSave(cfg, s, t, c);
        case Raise => HoldingRaise(cfg, s, t, c);
      }
    case Resuming(_, _) =>
      if s.cores[c].pc.Restore? {
        if s.cores[c].pc.k == 2 { ResumingPush(cfg, s, t, c); } else { ResumingRestore(cfg, s, t, c); }
      } else if s.cores[c].pc.Release? {
        ResumingRelease(cfg, s, t, c);
      } else {
        ResumingReturn(cfg, s, t, c);
      }
    case _ => SpinStep(cfg, s, t, c);
  }

  /** Every step over one memory is a step of the specification, or none. */
  lemma StepRefines(cfg: Config, s: Seq, t: Spec, l: SeqLabel)
    requires SafeJobs(cfg, t) && Related(cfg, s, t) && SeqEnabled(cfg, s, l)
    ensures Simulated(cfg, s, t, l)
  {
    match l
    case QLocal(c, op) => if c == HAKASE { LocalHakase(cfg, s, t, c, op); } else { LocalFriend(cfg, s, t, c, op); }
    case QExec(c) =>
      if c == HAKASE {
        if s.stage.Posted? {
          TestTakes(cfg, s, t);
        } else if !s.stage.Serving? {
          TestAgain(cfg, s, t);
        } else if s.cores[HAKASE].pc == Answer {
          AnswerStep(cfg, s, t);
        } else {
          ServeExec(cfg, s, t);
        }
      } else if c == Holder(s.stage) {
        FriendExec(cfg, s, t, c);
      } else {
        if s.cores[c].pc.LockCas? && s.mem(Lock) == Num(0) { LockWin(cfg, s, t, c); } else { LockRetry(cfg, s, t, c); }
      }
    case QInvoke(c, site) => InvokeStep(cfg, s, t, c, site);
    case QPoll => PollStep(cfg, s, t);
    case QMiss(c) => if s.cores[c].pc.Test? { MissTest(cfg, s, t, c); } else { MissLock(cfg, s, t, c); }
    case QSkip =>
  }
}
