/**
  What holds of every run of the offload protocol on x86-TSO: any number of friends, any blocks and
  any schedule.
  */
module OffloadTheorems {
  import opened Wrappers
  import opened OffloadMachine
  import opened OffloadSpec
  import opened OffloadSequential
  import opened OffloadBuffered
  import OffloadSimulation

  /** Every core outside the protocol, every word of the Offloader zero, nothing buffered. */
  ghost predicate Initial(cfg: Config, b: Tso) {
    && TsoShape(cfg, b)
    && (forall c: nat :: IsCore(cfg, c) ==>
          b.cores[c].pc == Idle && OwnStack(cfg, c, b.cores[c].regs) && b.bufs[c] == [])
    && b.mem(Lock) == Num(0)
    && (forall buf, i :: b.mem(Slot(buf, i)) == Num(0))
    && b.hist == History([], [], 0, 0, 0, 0, 0)
  }

  ghost predicate Reaches(cfg: Config, b: Tso, ls: seq<Label>, b': Tso)
    decreases |ls|
  {
    && TsoShape(cfg, b)
    && if ls == [] then b' == b
       else TsoEnabled(cfg, b, ls[0]) && Reaches(cfg, TsoStep(cfg, b, ls[0]), ls[1..], b')
  }

  /** A state that well-behaved programs and blocks can bring about. */
  ghost predicate Reachable(cfg: Config, b: Tso) {
    exists b0, ls :: Initial(cfg, b0) && WellBehaved(cfg, InitialSpec(b0)) && Reaches(cfg, b0, ls, b)
  }

  // ---------- what the outside does ----------

  /** The steps of friend and hakase code in a schedule, as the specification takes them. */
  function Visible(ls: seq<Label>): seq<SpecLabel> {
    if ls == [] then [] else VisibleStep(ls[0]) + Visible(ls[1..])
  }

  function VisibleStep(l: Label): seq<SpecLabel> {
    match l
    case Local(c, op) => [SLocal(c, op)]
    case Invoke(c, site) => [SInvoke(c, site)]
    case _ => []
  }

  function SpecVisibleStep(l: SpecLabel): seq<SpecLabel> {
    if l.SLocal? || l.SInvoke? then [l] else []
  }

  function SpecVisible(ts: seq<SpecLabel>): seq<SpecLabel> {
    if ts == [] then []
    else SpecVisibleStep(ts[0]) + SpecVisible(ts[1..])
  }

  /** The sites of the blocks friend `c` asked for. */
  function InvokedBy(ts: seq<SpecLabel>, c: nat): seq<nat> {
    if ts == [] then []
    else (if ts[0].SInvoke? && ts[0].c == c then [ts[0].site] else []) + InvokedBy(ts[1..], c)
  }

  /** The sites of the blocks of friend `c` among the requests in `order`. */
  function RunFor(order: seq<Request>, c: nat): seq<nat> {
    if order == [] then []
    else (if order[0].friend == c then [order[0].site] else []) + RunFor(order[1..], c)
  }

  // ---------- invariants of whole runs ----------

  ghost predicate Counted(s: Seq, served: nat)
    requires Holder(s.stage) < |s.cores| && 0 < |s.cores|
  {
    var h := s.hist;
    && |h.order| == h.released + (if LockHeld(s.stage) then 1 else 0)
    && h.raised == h.taken + (if RequestUp(s.stage, s.cores[HAKASE].pc) then 1 else 0)
    && h.answered == h.cleared + (if ReplyUp(s.stage, s.cores[Holder(s.stage)].pc) then 1 else 0)
    && h.taken == h.answered + (if s.stage.Serving? && !s.cores[HAKASE].pc.Take? then 1 else 0)
    && h.answered == served
  }

  ghost predicate Stacks(cfg: Config, t: Spec)
    requires SpecShape(cfg, t)
  {
    forall i: nat :: IsCore(cfg, i) ==> OwnStack(cfg, i, t.regs[i])
  }

  /** A buffered state with its unbuffered and its specification counterpart. */
  ghost predicate Good(cfg: Config, b: Tso, s: Seq, t: Spec) {
    && Linked(cfg, b, s, t) && WellBehaved(cfg, t)
    && Counted(s, |t.order|) && RanRight(s, t) && Stacks(cfg, t)
  }

  lemma StacksKept(cfg: Config, t: Spec, l: SpecLabel)
    requires SafeJobs(cfg, t) && SpecEnabled(cfg, t, l) && Stacks(cfg, t)
    ensures Stacks(cfg, SpecStep(cfg, t, l))
  {
    match l
    case SServe(c) => ServeLocality(cfg, t.jobs[c].site, c, t.ram, t.ram, t.regs[HAKASE], t.regs[c]);
    case SLocal(c, op) =>
      var v := if op.Load? then t.ram(op.a) else Num(0);
      assert OwnStack(cfg, c, OpRegs(op, v));
    case _ =>
  }

  /** Where the cores can be at each stage. */
  ghost predicate Tidy(cfg: Config, s: Seq) {
    && |s.cores| == cfg.friends + 1 && Holder(s.stage) <= cfg.friends && (!s.stage.Free? ==> s.stage.f != HAKASE)
    && (forall i: nat :: IsFriend(cfg, i) && i != Holder(s.stage) ==>
          s.cores[i].pc.Idle? || s.cores[i].pc.LockRead? || s.cores[i].pc.LockCas?)
    && (var pc := s.cores[HAKASE].pc;
        if s.stage.Serving? then
          !pc.Idle? && !Racy(pc) && !pc.Raise? && !pc.Clear? && !pc.Release?
        else pc.Idle? || pc.Test?)
    && (match s.stage
        case Free(_) => true
        case Holding(f, _) => var pc := s.cores[f].pc; pc.CallWait? || pc.Save? || pc.Raise?
        case Resuming(f, _) =>
          var pc := s.cores[f].pc;
          (pc.Restore? && pc.wait) || pc.Clear? || pc.WaitRet? || pc.AfterSave? || pc.Release?
        case _ => s.cores[s.stage.f].pc == Spin)
  }

  lemma TidyOf(cfg: Config, s: Seq, t: Spec)
    requires Related(cfg, s, t)
    ensures Tidy(cfg, s)
  {
  }

  function NextPc(cfg: Config, s: Seq, c: nat): Pc
    requires c < |s.cores|
  {
    Does(cfg, s.cores[c], ReadIf(s.mem, Reads(cfg, s.cores[c]))).core.pc
  }

  // ---------- where hakase goes while it serves ----------

  /** Where a return ends: a restored context goes on where it was saved, and a routine that saves returns to
      its caller. */
  predicate ReturnsTo(pc: Pc, next: Pc, site: nat) {
    && (pc == LongRet(FriendCtx) ==> next == AfterWait(site))
    && (pc == LongRet(HakaseCtx) || pc == SaveRet(HakaseCtx) ==> next == HAfterSave)
    && (pc == SaveRet(FriendCtx) ==> next == AfterSave(site))
  }

  /** Hakase has run the block and is on its way back. */
  predicate Past(core: Core) {
    match core.pc
    case CallSave(_) => true
    case Save(buf, _, _) => buf == FriendCtx
    case SaveRet(buf) => buf == FriendCtx
    case AfterSave(_) => true
    case CallLong(_) => true
    case Restore(buf, _, _) => buf == HakaseCtx
    case LongRet(buf) => buf == HakaseCtx
    case HAfterSave => core.regs.rax != Num(0)
    case Answer => true
    case _ => false
  }

  /** What the next instruction of hakase does to its place. */
  ghost predicate Course(cfg: Config, m: Memory, core: Core, site: nat) {
    var next := Does(cfg, core, ReadIf(m, Reads(cfg, core))).core;
    && !next.pc.Take? && ReturnsTo(core.pc, next.pc, site)
    && (core.pc.RunBlock? ==> core.pc.site == site && !Past(core))
    && (Past(next) <==> Past(core) || (core.pc.RunBlock? && core.pc.k >= cfg.block(site).length))
  }

  lemma EnterCourse(cfg: Config, m: Memory, core: Core, hr: Regs, fr: Regs, f: nat, site: nat, ram: Ram)
    requires OffloadSimulation.Context(cfg, hr, fr, f, site, ram) && EnteringRel(cfg, m, core, hr, fr, f, site, ram)
    ensures Course(cfg, m, core, site) && !Past(core)
  {
  }

  lemma RunCourse(cfg: Config, m: Memory, core: Core, hr: Regs, fr: Regs, f: nat, site: nat, ram: Ram)
    requires OffloadSimulation.Context(cfg, hr, fr, f, site, ram) && RunningRel(cfg, m, core, hr, fr, f, site, ram)
    ensures Course(cfg, m, core, site)
  {
  }

  lemma LeaveCourse(cfg: Config, m: Memory, core: Core, hr: Regs, fr: Regs, f: nat, site: nat, ram: Ram)
    requires OffloadSimulation.Context(cfg, hr, fr, f, site, ram) && LeavingRel(cfg, m, core, hr, fr, f, site, ram)
    requires core.pc != Answer
    ensures Course(cfg, m, core, site)
  {
    OffloadSimulation.BlockStack(cfg, cfg.block(site).length, hr, fr, f, site, ram);
  }

  lemma ServeCourse(cfg: Config, s: Seq, t: Spec)
    requires OffloadSimulation.Serves(cfg, s, t) && s.cores[HAKASE].pc != Answer
    ensures Course(cfg, s.mem, s.cores[HAKASE], s.stage.site)
  {
    var core, hr, f, site, ram := s.cores[HAKASE], t.regs[HAKASE], s.stage.f, s.stage.site, s.stage.ram;
    var fr := t.regs[f];
    OffloadSimulation.ServingContext(cfg, s, t);
    if EnteringRel(cfg, s.mem, core, hr, fr, f, site, ram) {
      EnterCourse(cfg, s.mem, core, hr, fr, f, site, ram);
    } else if RunningRel(cfg, s.mem, core, hr, fr, f, site, ram) {
      RunCourse(cfg, s.mem, core, hr, fr, f, site, ram);
    } else {
      LeaveCourse(cfg, s.mem, core, hr, fr, f, site, ram);
    }
  }

  /** Every return of the protocol ends where the context was saved, or at the caller: on hakase's side while
      it serves, and on the side of the friend that resumes. */
  lemma ReturnsWhereCalled(cfg: Config, s: Seq, t: Spec)
    requires SafeJobs(cfg, t) && Related(cfg, s, t)
    ensures s.stage.Serving? ==> ReturnsTo(s.cores[HAKASE].pc, NextPc(cfg, s, HAKASE), s.stage.site)
    ensures s.stage.Resuming? && s.cores[s.stage.f].pc == WaitRet ==>
              NextPc(cfg, s, s.stage.f) == AfterSave(s.stage.site)
  {
    if s.stage.Serving? && s.cores[HAKASE].pc != Answer { ServeCourse(cfg, s, t); }
  }

  // ---------- which blocks have been run ----------

  /** Hakase has run the blocks of these requests, in this order. */
  function Executed(order: seq<Request>): seq<Execution> {
    seq(|order|, i requires 0 <= i < |order| => Execution(HAKASE, order[i].site))
  }

  ghost predicate RanRight(s: Seq, t: Spec)
    requires 0 < |s.cores|
  {
    s.hist.ran == Executed(t.order) +
                  (if s.stage.Serving? && Past(s.cores[HAKASE]) then [Execution(HAKASE, s.stage.site)] else [])
  }

  lemma RanServing(cfg: Config, s: Seq, t: Spec)
    requires OffloadSimulation.Serves(cfg, s, t) && SeqEnabled(cfg, s, QExec(HAKASE)) && RanRight(s, t)
    requires s.cores[HAKASE].pc != Answer
    ensures RanRight(SeqStep(cfg, s, QExec(HAKASE)), t)
  {
    ServeCourse(cfg, s, t);
    OffloadSimulation.ServeMoves(cfg, s, t);
  }

  lemma RanAnswer(cfg: Config, s: Seq, t: Spec)
    requires Tidy(cfg, s) && SeqEnabled(cfg, s, QExec(HAKASE)) && RanRight(s, t)
    requires s.stage.Serving? && s.cores[HAKASE].pc == Answer
    requires SpecShape(cfg, t) && SpecEnabled(cfg, t, SServe(s.stage.f)) && t.jobs[s.stage.f].site == s.stage.site
    ensures RanRight(SeqStep(cfg, s, QExec(HAKASE)), SpecStep(cfg, t, SServe(s.stage.f)))
  {
  }

  /** No other step runs a block, or gets hakase past one. */
  lemma RanOther(cfg: Config, s: Seq, t: Spec, l: SeqLabel)
    requires Tidy(cfg, s) && SeqEnabled(cfg, s, l) && RanRight(s, t)
    requires !(l == QExec(HAKASE) && s.stage.Serving?) && s.mem(Lock) == Bit(LockHeld(s.stage))
    ensures RanRight(SeqStep(cfg, s, l), t)
  {
  }

  lemma RanHakase(cfg: Config, s: Seq, t: Spec)
    requires OffloadSimulation.Serves(cfg, s, t) && SeqEnabled(cfg, s, QExec(HAKASE)) && RanRight(s, t)
    requires SpecEnabled(cfg, t, SpecOf(s, QExec(HAKASE)))
    ensures RanRight(SeqStep(cfg, s, QExec(HAKASE)), SpecStep(cfg, t, SpecOf(s, QExec(HAKASE))))
  {
    TidyOf(cfg, s, t);
    if s.cores[HAKASE].pc == Answer {
      RanAnswer(cfg, s, t);
    } else {
      RanServing(cfg, s, t);
      OrderKept(cfg, s, t, QExec(HAKASE));
    }
  }

  /** Only the answer adds to the blocks of the specification. */
  lemma OrderKept(cfg: Config, s: Seq, t: Spec, l: SeqLabel)
    requires SpecShape(cfg, t) && SpecEnabled(cfg, t, SpecOf(s, l))
    requires !(l.QExec? && l.c < |s.cores| && s.cores[l.c].pc.Answer?)
    ensures SpecStep(cfg, t, SpecOf(s, l)).order == t.order
  {
  }

  lemma RanKept(cfg: Config, s: Seq, t: Spec, l: SeqLabel)
    requires SafeJobs(cfg, t) && Related(cfg, s, t) && SeqEnabled(cfg, s, l) && RanRight(s, t)
    requires SpecEnabled(cfg, t, SpecOf(s, l))
    ensures RanRight(SeqStep(cfg, s, l), SpecStep(cfg, t, SpecOf(s, l)))
  {
    if l == QExec(HAKASE) && s.stage.Serving? {
      RanHakase(cfg, s, t);
    } else {
      TidyOf(cfg, s, t);
      OrderKept(cfg, s, t, l);
      RanOther(cfg, s, t, l);
    }
  }

  // ---------- counting ----------

  lemma CountedHakase(cfg: Config, s: Seq, served: nat)
    requires Tidy(cfg, s) && Counted(s, served) && SeqEnabled(cfg, s, QExec(HAKASE))
    requires s.mem(REQUEST) == Bit(RequestUp(s.stage, s.cores[HAKASE].pc))
    requires s.stage.Serving? && !s.cores[HAKASE].pc.Answer? ==> !NextPc(cfg, s, HAKASE).Take?
    ensures Counted(SeqStep(cfg, s, QExec(HAKASE)), served + if s.cores[HAKASE].pc.Answer? then 1 else 0)
  {
  }

  lemma CountedHolder(cfg: Config, s: Seq, c: nat, served: nat)
    requires Tidy(cfg, s) && Counted(s, served) && SeqEnabled(cfg, s, QExec(c)) && c != HAKASE && c == Holder(s.stage)
    requires s.mem(REPLY) == Num(0) ==> !s.stage.Answered?
    requires s.mem(REPLY) != Num(0) ==> s.stage.Answered? || s.stage.Resuming?
    requires s.stage.Resuming? && s.cores[c].pc.WaitRet? ==> NextPc(cfg, s, c).AfterSave?
    ensures Counted(SeqStep(cfg, s, QExec(c)), served)
  {
  }

  lemma CountedOther(cfg: Config, s: Seq, c: nat, served: nat)
    requires Tidy(cfg, s) && Counted(s, served) && SeqEnabled(cfg, s, QExec(c)) && c != HAKASE && c != Holder(s.stage)
    requires s.mem(Lock) == Bit(LockHeld(s.stage))
    ensures Counted(SeqStep(cfg, s, QExec(c)), served)
  {
  }

  lemma CountedQuiet(cfg: Config, s: Seq, l: SeqLabel, served: nat)
    requires Tidy(cfg, s) && Counted(s, served) && SeqEnabled(cfg, s, l) && !l.QExec?
    ensures Counted(SeqStep(cfg, s, l), served)
  {
  }

  /** Exactly the answering step serves a block. */
  lemma ServedOnAnswer(cfg: Config, s: Seq, t: Spec, l: SeqLabel)
    requires SpecShape(cfg, t) && SpecEnabled(cfg, t, SpecOf(s, l))
    ensures |SpecStep(cfg, t, SpecOf(s, l)).order| ==
            |t.order| + if l.QExec? && l.c < |s.cores| && s.cores[l.c].pc.Answer? then 1 else 0
  {
  }

  lemma CountedExec(cfg: Config, s: Seq, t: Spec, c: nat, served: nat)
    requires SafeJobs(cfg, t) && Related(cfg, s, t) && SeqEnabled(cfg, s, QExec(c)) && Counted(s, served)
    ensures Counted(SeqStep(cfg, s, QExec(c)), served + if s.cores[c].pc.Answer? then 1 else 0)
  {
    TidyOf(cfg, s, t);
    if c == HAKASE {
      if s.stage.Serving? && s.cores[HAKASE].pc != Answer { ServeCourse(cfg, s, t); }
      CountedHakase(cfg, s, served);
    } else if c == Holder(s.stage) {
      ReturnsWhereCalled(cfg, s, t);
      CountedHolder(cfg, s, c, served);
    } else {
      CountedOther(cfg, s, c, served);
    }
  }

  lemma CountedKept(cfg: Config, s: Seq, t: Spec, l: SeqLabel)
    requires SafeJobs(cfg, t) && Related(cfg, s, t) && SeqEnabled(cfg, s, l) && Counted(s, |t.order|)
    requires SpecEnabled(cfg, t, SpecOf(s, l))
    ensures Counted(SeqStep(cfg, s, l), |SpecStep(cfg, t, SpecOf(s, l)).order|)
  {
    TidyOf(cfg, s, t);
    ServedOnAnswer(cfg, s, t, l);
    if l.QExec? { CountedExec(cfg, s, t, l.c, |t.order|); } else { CountedQuiet(cfg, s, l, |t.order|); }
  }

  ghost function NextSeq(cfg: Config, b: Tso, s: Seq, t: Spec, l: Label): Seq
    requires Good(cfg, b, s, t) && TsoEnabled(cfg, b, l)
  {
    StepMatched(cfg, b, s, t, l);
    SeqStep(cfg, s, SeqOf(cfg, b, l))
  }

  ghost function NextLabel(cfg: Config, b: Tso, s: Seq, l: Label): SpecLabel
    requires TsoShape(cfg, b)
  {
    SpecOf(s, SeqOf(cfg, b, l))
  }

  /** One step of the machine is one step of the specification, and the invariants go on holding. */
  lemma GoodStep(cfg: Config, b: Tso, s: Seq, t: Spec, l: Label)
    requires Good(cfg, b, s, t) && TsoEnabled(cfg, b, l)
    ensures SpecEnabled(cfg, t, NextLabel(cfg, b, s, l))
    ensures Good(cfg, TsoStep(cfg, b, l), NextSeq(cfg, b, s, t, l), SpecStep(cfg, t, NextLabel(cfg, b, s, l)))
  {
    StepMatched(cfg, b, s, t, l);
    var q := SeqOf(cfg, b, l);
    OffloadSimulation.StepRefines(cfg, s, t, q);
    CountedKept(cfg, s, t, q);
    RanKept(cfg, s, t, q);
    StacksKept(cfg, t, SpecOf(s, q));
    WellBehavedNext(cfg, t, SpecOf(s, q));
    WellBehavedNow(cfg, SpecStep(cfg, t, SpecOf(s, q)));
  }

  // ---------- the refinement ----------

  function InitialSeq(b: Tso): Seq {
    Seq(b.cores, b.mem, Free(HAKASE), b.hist)
  }

  function InitialSpec(b: Tso): Spec {
    Spec(seq(|b.cores|, i => NoJob), seq(|b.cores|, i requires 0 <= i < |b.cores| => b.cores[i].regs), RamOf(b.mem), [])
  }

  lemma GoodInitial(cfg: Config, b: Tso)
    requires Initial(cfg, b) && WellBehaved(cfg, InitialSpec(b))
    ensures Good(cfg, b, InitialSeq(b), InitialSpec(b))
  {
    WellBehavedNow(cfg, InitialSpec(b));
  }

  lemma SameVisible(cfg: Config, b: Tso, s: Seq, l: Label)
    requires TsoShape(cfg, b)
    ensures SpecVisibleStep(NextLabel(cfg, b, s, l)) == VisibleStep(l)
  {
  }

  lemma {:induction false} Follow(cfg: Config, b: Tso, s: Seq, t: Spec, ls: seq<Label>, b': Tso)
    returns (s': Seq, t': Spec, ts: seq<SpecLabel>)
    requires Good(cfg, b, s, t) && Reaches(cfg, b, ls, b')
    ensures Good(cfg, b', s', t') && SpecReaches(cfg, t, ts, t') && SpecVisible(ts) == Visible(ls)
    decreases |ls|
  {
    if ls == [] {
      s', t', ts := s, t, [];
    } else {
      var l := NextLabel(cfg, b, s, ls[0]);
      GoodStep(cfg, b, s, t, ls[0]);
      var b1, s1, t1 := TsoStep(cfg, b, ls[0]), NextSeq(cfg, b, s, t, ls[0]), SpecStep(cfg, t, l);
      var rest;
      s', t', rest := Follow(cfg, b1, s1, t1, ls[1..], b');
      SameVisible(cfg, b, s, ls[0]);
      ts := [l] + rest;
      assert ts[1..] == rest;
    }
  }

  /** What can be seen of the machine from outside the protocol: the registers and the frame of
      every core that is not in it, and which blocks have been run. */
  ghost predicate Agrees(cfg: Config, b: Tso, t: Spec) {
    && TsoShape(cfg, b) && SpecShape(cfg, t)
    && (forall c: nat :: IsCore(cfg, c) && b.cores[c].pc == Idle ==>
          && t.jobs[c] == NoJob && t.regs[c] == b.cores[c].regs
          && forall a: Addr :: cfg.owner(a) == c ==> View(b.bufs[c], b.mem, Mem(a)) == t.ram(a))
    && |b.hist.order| - 1 <= b.hist.answered <= |b.hist.order|
    && t.order == b.hist.order[..b.hist.answered]
  }

  lemma GoodAgrees(cfg: Config, b: Tso, s: Seq, t: Spec)
    requires Good(cfg, b, s, t)
    ensures Agrees(cfg, b, t)
  {
    TidyOf(cfg, s, t);
    assert |b.hist.order| - 1 <= b.hist.answered <= |b.hist.order| && t.order == b.hist.order[..b.hist.answered];
    forall c: nat | IsCore(cfg, c) && b.cores[c].pc == Idle
      ensures t.jobs[c] == NoJob && t.regs[c] == b.cores[c].regs
      ensures forall a: Addr :: cfg.owner(a) == c ==> View(b.bufs[c], b.mem, Mem(a)) == t.ram(a)
    {
      if c != HAKASE { assert Outside(cfg, c, s.cores[c], t.jobs[c], t.regs[c]); }
      forall a: Addr | cfg.owner(a) == c ensures View(b.bufs[c], b.mem, Mem(a)) == t.ram(a) {
        assert Writer(cfg, s.stage, Mem(a)) == c;
      }
    }
  }

  lemma Shadow(cfg: Config, b0: Tso, ls: seq<Label>, b: Tso) returns (t: Spec, ts: seq<SpecLabel>)
    requires Initial(cfg, b0) && WellBehaved(cfg, InitialSpec(b0)) && Reaches(cfg, b0, ls, b)
    ensures SpecReaches(cfg, InitialSpec(b0), ts, t) && SpecVisible(ts) == Visible(ls) && Agrees(cfg, b, t)
  {
    GoodInitial(cfg, b0);
    var s;
    s, t, ts := Follow(cfg, b0, InitialSeq(b0), InitialSpec(b0), ls, b);
    GoodAgrees(cfg, b, s, t);
  }

  /** Every run on x86-TSO is a run of the specification: the same calls and the same outside
      instructions, the blocks run one at a time, in the order the lock was won, each in the
      registers and frame of the friend that asked for it. */
  lemma OffloadRefines(cfg: Config, b0: Tso, ls: seq<Label>, b: Tso)
    requires Initial(cfg, b0) && WellBehaved(cfg, InitialSpec(b0)) && Reaches(cfg, b0, ls, b)
    ensures exists ts, t ::
              && SpecReaches(cfg, InitialSpec(b0), ts, t)
              && SpecVisible(ts) == Visible(ls)
              && Agrees(cfg, b, t)
  {
    var t, ts := Shadow(cfg, b0, ls, b);
  }

  // ---------- exactly once ----------

  function Waiting(job: Job): seq<nat> {
    if job.Asked? || job.Called? then [job.site] else []
  }

  lemma {:induction false} RunForAppend(order: seq<Request>, q: Request, c: nat)
    ensures RunFor(order + [q], c) == RunFor(order, c) + if q.friend == c then [q.site] else []
  {
    if order != [] {
      assert (order + [q])[1..] == order[1..] + [q];
      RunForAppend(order[1..], q, c);
    }
  }

  lemma {:induction false} InvokedVisible(ts: seq<SpecLabel>, c: nat)
    ensures InvokedBy(SpecVisible(ts), c) == InvokedBy(ts, c)
  {
    if ts != [] {
      InvokedVisible(ts[1..], c);
      if ts[0].SLocal? || ts[0].SInvoke? {
        assert SpecVisible(ts)[1..] == SpecVisible(ts[1..]);
      } else {
        assert SpecVisible(ts) == SpecVisible(ts[1..]);
      }
    }
  }

  /** The blocks run for a friend, and the one it waits for. */
  function Accounted(t: Spec, c: nat): seq<nat>
    requires c < |t.jobs|
  {
    RunFor(t.order, c) + Waiting(t.jobs[c])
  }

  lemma SpecServesStep(cfg: Config, t: Spec, l: SpecLabel, c: nat)
    requires SpecShape(cfg, t) && SpecEnabled(cfg, t, l) && IsFriend(cfg, c)
    ensures Accounted(SpecStep(cfg, t, l), c) == Accounted(t, c) + if l.SInvoke? && l.c == c then [l.site] else []
  {
    if l.SServe? { RunForAppend(t.order, Request(l.c, t.jobs[l.c].site), c); }
  }

  /** In the specification those are the ones it asked for. */
  lemma {:induction false} SpecServes(cfg: Config, t: Spec, ts: seq<SpecLabel>, t': Spec, c: nat)
    requires SpecReaches(cfg, t, ts, t') && IsFriend(cfg, c)
    ensures SpecShape(cfg, t')
    ensures Accounted(t', c) == Accounted(t, c) + InvokedBy(ts, c)
    decreases |ts|
  {
    if ts != [] {
      SpecServesStep(cfg, t, ts[0], c);
      SpecServes(cfg, SpecStep(cfg, t, ts[0]), ts[1..], t', c);
    }
  }

  /** The blocks run so far are those of the requests that won the lock, in that order; hakase ran them, and
      no friend is ever in one. */
  lemma BlocksRun(cfg: Config, b: Tso)
    requires Reachable(cfg, b)
    ensures TsoShape(cfg, b) && b.hist.answered <= |b.hist.ran| <= |b.hist.order| <= b.hist.answered + 1
    ensures b.hist.ran == Executed(b.hist.order[..|b.hist.ran|])
    ensures forall c: nat :: IsFriend(cfg, c) ==> !b.cores[c].pc.RunBlock?
  {
    var s, t := ReachableGood(cfg, b);
    TidyOf(cfg, s, t);
    if s.stage.Serving? && Past(s.cores[HAKASE]) {
      assert b.hist.order == t.order + [Request(s.stage.f, s.stage.site)];
      assert Executed(b.hist.order) == Executed(t.order) + [Execution(HAKASE, s.stage.site)];
      assert b.hist.order[..|b.hist.ran|] == b.hist.order;
    } else {
      assert b.hist.order[..|b.hist.ran|] == t.order;
    }
  }

  lemma {:induction false} RunForPrefix(order: seq<Request>, n: nat, c: nat)
    requires n <= |order|
    ensures RunFor(order[..n], c) <= RunFor(order, c)
  {
    if n > 0 {
      assert order[..n][1..] == order[1..][..n - 1];
      RunForPrefix(order[1..], n - 1, c);
    }
  }

  /** While a friend has won the lock and its block has not been answered, it waits for that block. */
  lemma WaitsForLast(cfg: Config, s: Seq, t: Spec, c: nat)
    requires Related(cfg, s, t) && IsFriend(cfg, c)
    ensures RunFor(s.hist.order, c) <= RunFor(t.order, c) + Waiting(t.jobs[c])
  {
    if s.hist.order != t.order { RunForAppend(t.order, Request(s.stage.f, s.stage.site), c); }
  }

  /** The sites a friend asked for are those of the blocks that were answered, and the one it waits for. */
  lemma Accounting(cfg: Config, b0: Tso, ls: seq<Label>, b: Tso, c: nat)
    requires Initial(cfg, b0) && WellBehaved(cfg, InitialSpec(b0)) && Reaches(cfg, b0, ls, b) && IsFriend(cfg, c)
    ensures TsoShape(cfg, b) && b.hist.answered <= |b.hist.order|
    ensures var done, asked := RunFor(b.hist.order[..b.hist.answered], c), InvokedBy(Visible(ls), c);
            && |asked| <= |done| + 1 && RunFor(b.hist.order, c) <= asked
            && (b.cores[c].pc == Idle ==> done == asked)
  {
    GoodInitial(cfg, b0);
    var s, t, ts := Follow(cfg, b0, InitialSeq(b0), InitialSpec(b0), ls, b);
    GoodAgrees(cfg, b, s, t);
    SpecServes(cfg, InitialSpec(b0), ts, t, c);
    InvokedVisible(ts, c);
    assert Accounted(InitialSpec(b0), c) == [];
    assert [] + InvokedBy(ts, c) == InvokedBy(ts, c);
    assert InvokedBy(Visible(ls), c) == Accounted(t, c);
    WaitsForLast(cfg, s, t, c);
  }

  /** Each `_OFFLOAD` a friend executes has its block run once, by hakase and in the order the friend reached
      them; nothing else is run for it; and none is outstanding once the friend is past it. */
  lemma ExactlyOnce(cfg: Config, b0: Tso, ls: seq<Label>, b: Tso, c: nat)
    requires Initial(cfg, b0) && WellBehaved(cfg, InitialSpec(b0)) && Reaches(cfg, b0, ls, b) && IsFriend(cfg, c)
    ensures TsoShape(cfg, b) && |b.hist.ran| <= |b.hist.order|
    ensures b.hist.ran == Executed(b.hist.order[..|b.hist.ran|])
    ensures var done, asked := RunFor(b.hist.order[..|b.hist.ran|], c), InvokedBy(Visible(ls), c);
            && done <= asked && |asked| <= |done| + 1
            && (b.cores[c].pc == Idle ==> done == asked)
  {
    BlocksRun(cfg, b);
    Accounting(cfg, b0, ls, b, c);
    RunForPrefix(b.hist.order, |b.hist.ran|, c);
    RunForPrefix(b.hist.order[..|b.hist.ran|], b.hist.answered, c);
    assert b.hist.order[..|b.hist.ran|][..b.hist.answered] == b.hist.order[..b.hist.answered];
  }

  // ---------- every reachable state ----------

  lemma ReachableGood(cfg: Config, b: Tso) returns (s: Seq, t: Spec)
    requires Reachable(cfg, b)
    ensures Good(cfg, b, s, t)
  {
    var b0, ls :| Initial(cfg, b0) && WellBehaved(cfg, InitialSpec(b0)) && Reaches(cfg, b0, ls, b);
    GoodInitial(cfg, b0);
    var ts;
    s, t, ts := Follow(cfg, b0, InitialSeq(b0), InitialSpec(b0), ls, b);
  }

  predicate OfFriendCtx(l: Loc) {
    l.Slot? && l.buf == FriendCtx
  }

  /** A store of `c` to `_friend_ctx` is buffered or comes next. */
  ghost predicate WritesCtx(cfg: Config, b: Tso, c: nat)
    requires TsoShape(cfg, b) && IsCore(cfg, c)
  {
    || (exists e :: e in b.bufs[c] && OfFriendCtx(e.loc))
    || (var e := Does(cfg, b.cores[c], ViewIf(b.bufs[c], b.mem, Reads(cfg, b.cores[c]))).store;
        e.Some? && OfFriendCtx(e.value.loc))
  }

  lemma StoresRun(cfg: Config, core: Core, v: Value)
    requires Does(cfg, core, v).store.Some?
    ensures !Racy(core.pc) && Runs(core.pc)
  {
  }

  lemma WritesCtxOwner(cfg: Config, b: Tso, s: Seq, t: Spec, c: nat)
    requires Good(cfg, b, s, t) && IsCore(cfg, c) && WritesCtx(cfg, b, c)
    ensures c == Writer(cfg, s.stage, REQUEST)
  {
    if exists e :: e in b.bufs[c] && OfFriendCtx(e.loc) {
      var e :| e in b.bufs[c] && OfFriendCtx(e.loc);
      assert Writer(cfg, s.stage, e.loc) == c;
    } else {
      StoresRun(cfg, b.cores[c], ViewIf(b.bufs[c], b.mem, Reads(cfg, b.cores[c])));
      assert OffloadSimulation.Ready(cfg, s, t, c);
      Access(cfg, s, t, c);
      SameReads(cfg, b, s, c);
    }
  }

  /** The friend context has one writer at a time, on its way there or about to store. */
  lemma SingleWriter(cfg: Config, b: Tso, c: nat, d: nat)
    requires Reachable(cfg, b) && TsoShape(cfg, b)
    requires IsCore(cfg, c) && IsCore(cfg, d) && WritesCtx(cfg, b, c) && WritesCtx(cfg, b, d)
    ensures c == d
  {
    var s, t := ReachableGood(cfg, b);
    WritesCtxOwner(cfg, b, s, t, c);
    WritesCtxOwner(cfg, b, s, t, d);
  }

  /** What the three shared words of memory can show at each stage. */
  lemma WordsShown(cfg: Config, b: Tso, s: Seq, t: Spec)
    requires Good(cfg, b, s, t)
    ensures b.mem(REQUEST) != Num(0) ==>
              s.stage.Posted? || s.stage.Serving? || (s.stage.Answered? && b.mem(REPLY) == Num(0))
    ensures b.mem(REPLY) != Num(0) ==>
              s.stage.Answered? || s.stage.Resuming? || (s.stage.Free? && b.mem(Lock) == Num(1))
    ensures !s.stage.Free? ==> b.mem(Lock) == Num(1)
  {
    var w := Writer(cfg, s.stage, REQUEST);
    if !Pending(b.bufs[w], REQUEST) { Settled(cfg, b, s, REQUEST); }
    if !Pending(b.bufs[w], REPLY) { Settled(cfg, b, s, REPLY); }
    if !s.stage.Free? { Settled(cfg, b, s, Lock); }
  }

  /** In memory slots 8 and 9 are never both up, and either is up only while the lock is held. */
  lemma SignalsExclude(cfg: Config, b: Tso)
    requires Reachable(cfg, b)
    ensures b.mem(REQUEST) == Num(0) || b.mem(REPLY) == Num(0)
    ensures b.mem(REQUEST) != Num(0) || b.mem(REPLY) != Num(0) ==> b.mem(Lock) != Num(0)
  {
    var s, t := ReachableGood(cfg, b);
    WordsShown(cfg, b, s, t);
  }

  /** A friend that leaves the wait loop sees slot 8 down, and no store to its context or its frame,
      by any core, is still on its way: it reads everything its block wrote. */
  lemma WaitLoopExit(cfg: Config, b: Tso, f: nat)
    requires Reachable(cfg, b) && TsoShape(cfg, b)
    requires IsFriend(cfg, f) && b.cores[f].pc == Spin && View(b.bufs[f], b.mem, REPLY) != Num(0)
    ensures View(b.bufs[f], b.mem, REQUEST) == Num(0)
    ensures forall c: nat, e :: IsCore(cfg, c) && e in b.bufs[c] ==>
              !OfFriendCtx(e.loc) && !(e.loc.Mem? && cfg.owner(e.loc.a) == f)
  {
    var s, t := ReachableGood(cfg, b);
    TidyOf(cfg, s, t);
    SpinSees(cfg, b, s, f);
    Settled(cfg, b, s, REQUEST);
    forall c: nat, e | IsCore(cfg, c) && e in b.bufs[c]
      ensures !OfFriendCtx(e.loc) && !(e.loc.Mem? && cfg.owner(e.loc.a) == f)
    {
      assert Writer(cfg, s.stage, e.loc) == c;
    }
  }

  /** The friend whose compare-and-swap wins finds slots 8 and 9 down, and nothing of its
      predecessor's on the way to either context, or to the lock. */
  lemma LockWinnerFinds(cfg: Config, b: Tso, f: nat)
    requires Reachable(cfg, b) && TsoShape(cfg, b)
    requires IsFriend(cfg, f) && b.cores[f].pc.LockCas? && b.bufs[f] == [] && b.mem(Lock) == Num(0)
    ensures b.mem(REQUEST) == Num(0) && b.mem(REPLY) == Num(0)
    ensures forall c: nat, e :: IsCore(cfg, c) && e in b.bufs[c] ==> !OfFriendCtx(e.loc) && e.loc != Lock
  {
    var s, t := ReachableGood(cfg, b);
    WordsShown(cfg, b, s, t);
    assert s.stage.Free?;
    forall c: nat, e | IsCore(cfg, c) && e in b.bufs[c] ensures !OfFriendCtx(e.loc) && e.loc != Lock {
      assert Writer(cfg, s.stage, e.loc) == c;
    }
  }

  // ---------- conservation ----------

  ghost predicate Drained(cfg: Config, b: Tso)
    requires TsoShape(cfg, b)
  {
    forall c: nat :: IsCore(cfg, c) ==> b.bufs[c] == []
  }

  /** Hakase is past taking a request and has not yet answered it. */
  predicate ServingPc(pc: Pc) {
    !pc.Idle? && !pc.Test? && !pc.Take?
  }

  /** Acquired less released, raised less taken and answered less cleared are the three words as
      soon as the store buffers have drained, and at most one at any time; taken less answered is one
      exactly while hakase serves. */
  lemma Conservation(cfg: Config, b: Tso)
    requires Reachable(cfg, b) && TsoShape(cfg, b)
    ensures var h := b.hist;
            && 0 <= |h.order| - h.released <= 1 && 0 <= h.raised - h.taken <= 1 && 0 <= h.answered - h.cleared <= 1
            && h.taken - h.answered == (if ServingPc(b.cores[HAKASE].pc) then 1 else 0)
            && (Drained(cfg, b) ==>
                  && b.mem(Lock) == Num(|h.order| - h.released)
                  && b.mem(REQUEST) == Num(h.raised - h.taken)
                  && b.mem(REPLY) == Num(h.answered - h.cleared))
  {
    var s, t := ReachableGood(cfg, b);
    TidyOf(cfg, s, t);
    if Drained(cfg, b) {
      Settled(cfg, b, s, Lock);
      Settled(cfg, b, s, REQUEST);
      Settled(cfg, b, s, REPLY);
    }
  }

  // ---------- transparency for hakase ----------

  /** No instruction of hakase's own code. */
  ghost predicate HakaseOnlyPolls(ls: seq<Label>) {
    forall l :: l in ls ==> !(l.Local? && l.c == HAKASE)
  }

  lemma {:induction false} HakaseKept(cfg: Config, b: Tso, s: Seq, t: Spec, ls: seq<Label>, b': Tso)
    returns (s': Seq, t': Spec)
    requires Good(cfg, b, s, t) && Reaches(cfg, b, ls, b') && HakaseOnlyPolls(ls)
    ensures Good(cfg, b', s', t')
    ensures t'.regs[HAKASE].saved == t.regs[HAKASE].saved && t'.regs[HAKASE].rsp == t.regs[HAKASE].rsp
    decreases |ls|
  {
    if ls == [] {
      s', t' := s, t;
    } else {
      GoodStep(cfg, b, s, t, ls[0]);
      var l := NextLabel(cfg, b, s, ls[0]);
      SameVisible(cfg, b, s, ls[0]);
      HakaseRegsKept(cfg, t, l);
      s', t' := HakaseKept(cfg, TsoStep(cfg, b, ls[0]), NextSeq(cfg, b, s, t, ls[0]), SpecStep(cfg, t, l), ls[1..], b');
    }
  }

  lemma HakaseRegsKept(cfg: Config, t: Spec, l: SpecLabel)
    requires SpecShape(cfg, t) && SpecEnabled(cfg, t, l) && !(l.SLocal? && l.c == HAKASE)
    ensures var r := SpecStep(cfg, t, l).regs[HAKASE]; r.saved == t.regs[HAKASE].saved && r.rsp == t.regs[HAKASE].rsp
  {
  }

  /** However often `TryReceive` is called and whatever blocks it runs, it returns with hakase's
      callee-saved registers and stack pointer as they were at the call. */
  lemma HakaseTransparent(cfg: Config, b: Tso, ls: seq<Label>, b': Tso)
    requires Reachable(cfg, b) && Reaches(cfg, b, ls, b') && HakaseOnlyPolls(ls)
    requires TsoShape(cfg, b') && b.cores[HAKASE].pc == Idle && b'.cores[HAKASE].pc == Idle
    ensures b'.cores[HAKASE].regs.saved == b.cores[HAKASE].regs.saved
    ensures b'.cores[HAKASE].regs.rsp == b.cores[HAKASE].regs.rsp
  {
    var s, t := ReachableGood(cfg, b);
    var s', t' := HakaseKept(cfg, b, s, t, ls, b');
    GoodAgrees(cfg, b, s, t);
    GoodAgrees(cfg, b', s', t');
  }
}
