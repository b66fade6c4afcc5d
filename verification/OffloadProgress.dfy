/**
  Offloading never gets stuck: from every reachable state the offloads under way can be finished by
  instructions of the protocol alone, and a lexicographic measure says how far they are.
  */
module OffloadProgress {
  import opened Wrappers
  import opened OffloadMachine
  import opened OffloadSpec
  import opened OffloadSequential
  import opened OffloadBuffered
  import opened OffloadTheorems
  import OffloadSimulation

  // ---------- sums over cores and buffers ----------

  function Sum<T>(xs: seq<T>, f: T -> nat): nat {
    if xs == [] then 0 else f(xs[0]) + Sum(xs[1..], f)
  }

  lemma {:induction false} SumUpdate<T>(xs: seq<T>, i: nat, x: T, f: T -> nat)
    requires i < |xs|
    ensures Sum(xs[i := x], f) + f(xs[i]) == Sum(xs, f) + f(x)
  {
    if i == 0 {
      assert xs[0 := x][1..] == xs[1..];
    } else {
      assert xs[i := x][1..] == xs[1..][i - 1 := x];
      SumUpdate(xs[1..], i - 1, x, f);
    }
  }

  lemma {:induction false} SumPositive<T>(xs: seq<T>, f: T -> nat) returns (i: nat)
    requires Sum(xs, f) > 0
    ensures i < |xs| && f(xs[i]) > 0
  {
    if f(xs[0]) > 0 {
      i := 0;
    } else {
      i := SumPositive(xs[1..], f);
      i := i + 1;
    }
  }

  lemma {:induction false} SumZero<T>(xs: seq<T>, f: T -> nat, i: nat)
    requires Sum(xs, f) == 0 && i < |xs|
    ensures f(xs[i]) == 0
  {
    if i > 0 { SumZero(xs[1..], f, i - 1); }
  }

  const InOffload: Core -> nat := (core: Core) => if core.pc == Idle then 0 else 1
  const AtRead: Core -> nat := (core: Core) => if core.pc.LockRead? then 1 else 0
  const Size: Buffer -> nat := (buf: Buffer) => |buf|

  // ---------- the measure ----------

  function StageRank(st: Stage): nat {
    match st
    case Free(_) => 6
    case Holding(_, _) => 5
    case Posted(_, _) => 4
    case Serving(_, _, _) => 3
    case Answered(_, _) => 2
    case Resuming(_, _) => 1
  }

  function HolderRank(pc: Pc): nat {
    match pc
    case CallWait(_) => 40
    case Save(_, _, k) => if k <= 8 then 39 - k else 0
    case Raise => 1
    case Restore(_, _, k) => if k <= 7 then 39 - k else 0
    case Clear => 20
    case WaitRet => 19
    case AfterSave(_) => 18
    case Release(_) => 17
    case _ => 0
  }

  /** `n` is the length of the block. */
  function HakaseRank(core: Core, n: nat): nat {
    match core.pc
    case Idle => 2
    case Test => 1
    case Take => n + 100
    case HCallSave => n + 99
    case Save(buf, _, k) => if k > 8 then 0 else if buf == HakaseCtx then n + 98 - k else 48 - k
    case SaveRet(buf) => if buf == HakaseCtx then n + 85 else 35
    case HAfterSave => if core.regs.rax == Num(0) then n + 84 else 10
    case HCallLong => n + 83
    case Restore(buf, _, k) => if k > 7 then 0 else if buf == FriendCtx then n + 82 - k else 32 - k
    case LongRet(buf) => if buf == FriendCtx then n + 70 else 20
    case AfterWait(_) => n + 69
    case RunBlock(_, k) => if k <= n then 50 + n - k else 0
    case CallSave(_) => 49
    case AfterSave(_) => 34
    case CallLong(_) => 33
    case Answer => 5
    case _ => 0
  }

  function PcRank(cfg: Config, s: Seq): nat
    requires 0 < |s.cores| && Holder(s.stage) < |s.cores|
  {
    match s.stage
    case Free(_) => Sum(s.cores[1..], AtRead)
    case Holding(f, _) => HolderRank(s.cores[f].pc)
    case Posted(_, _) => HakaseRank(s.cores[HAKASE], 0)
    case Serving(_, site, _) => HakaseRank(s.cores[HAKASE], cfg.block(site).length)
    case Answered(_, _) => 0
    case Resuming(f, _) => HolderRank(s.cores[f].pc)
  }

  datatype Measure = Measure(unfinished: nat, stage: nat, pc: nat, buffered: nat)

  /** Offloads under way; how far the current one is; how far its core is; stores on their way. */
  function MeasureOf(cfg: Config, b: Tso, s: Seq): Measure
    requires 0 < |s.cores| && Holder(s.stage) < |s.cores|
  {
    Measure(Sum(s.cores[1..], InOffload), StageRank(s.stage), PcRank(cfg, s), Sum(b.bufs, Size))
  }

  predicate Below(m: Measure, n: Measure) {
    || m.unfinished < n.unfinished
    || (m.unfinished == n.unfinished && m.stage < n.stage)
    || (m.unfinished == n.unfinished && m.stage == n.stage && m.pc < n.pc)
    || (m.unfinished == n.unfinished && m.stage == n.stage && m.pc == n.pc && m.buffered < n.buffered)
  }

  // ---------- ranks go down ----------

  lemma EnterRank(cfg: Config, m: Memory, core: Core, hr: Regs, fr: Regs, f: nat, site: nat, ram: Ram)
    requires OffloadSimulation.Context(cfg, hr, fr, f, site, ram) && EnteringRel(cfg, m, core, hr, fr, f, site, ram)
    ensures var e := Does(cfg, core, ReadIf(m, Reads(cfg, core)));
            HakaseRank(e.core, cfg.block(site).length) < HakaseRank(core, cfg.block(site).length)
  {
  }

  lemma RunRank(cfg: Config, m: Memory, core: Core, hr: Regs, fr: Regs, f: nat, site: nat, ram: Ram)
    requires OffloadSimulation.Context(cfg, hr, fr, f, site, ram) && RunningRel(cfg, m, core, hr, fr, f, site, ram)
    ensures var e := Does(cfg, core, ReadIf(m, Reads(cfg, core)));
            HakaseRank(e.core, cfg.block(site).length) < HakaseRank(core, cfg.block(site).length)
  {
  }

  lemma LeaveRank(cfg: Config, m: Memory, core: Core, hr: Regs, fr: Regs, f: nat, site: nat, ram: Ram)
    requires OffloadSimulation.Context(cfg, hr, fr, f, site, ram) && LeavingRel(cfg, m, core, hr, fr, f, site, ram)
    requires core.pc != Answer
    ensures var e := Does(cfg, core, ReadIf(m, Reads(cfg, core)));
            HakaseRank(e.core, cfg.block(site).length) < HakaseRank(core, cfg.block(site).length)
  {
    OffloadSimulation.BlockStack(cfg, cfg.block(site).length, hr, fr, f, site, ram);
  }

  lemma ServeRank(cfg: Config, s: Seq, t: Spec)
    requires OffloadSimulation.Serves(cfg, s, t) && s.cores[HAKASE].pc != Answer
    ensures var e := Does(cfg, s.cores[HAKASE], ReadIf(s.mem, Reads(cfg, s.cores[HAKASE])));
            var n := cfg.block(s.stage.site).length;
            HakaseRank(e.core, n) < HakaseRank(s.cores[HAKASE], n)
  {
    var core, hr, f, site, ram := s.cores[HAKASE], t.regs[HAKASE], s.stage.f, s.stage.site, s.stage.ram;
    var fr := t.regs[f];
    OffloadSimulation.ServingContext(cfg, s, t);
    if EnteringRel(cfg, s.mem, core, hr, fr, f, site, ram) {
      EnterRank(cfg, s.mem, core, hr, fr, f, site, ram);
    } else if RunningRel(cfg, s.mem, core, hr, fr, f, site, ram) {
      RunRank(cfg, s.mem, core, hr, fr, f, site, ram);
    } else {
      LeaveRank(cfg, s.mem, core, hr, fr, f, site, ram);
    }
  }

  lemma HolderRankFalls(cfg: Config, s: Seq, t: Spec, c: nat)
    requires SafeJobs(cfg, t) && OffloadSimulation.Ready(cfg, s, t, c) && !s.stage.Free? && c == s.stage.f
    requires (s.stage.Holding? && s.cores[c].pc != Raise) || (s.stage.Resuming? && !s.cores[c].pc.Release?)
    ensures HolderRank(NextPc(cfg, s, c)) < HolderRank(s.cores[c].pc)
  {
    ReturnsWhereCalled(cfg, s, t);
  }

  // ---------- a step that makes progress ----------

  ghost predicate Busy(s: Seq)
    requires 0 < |s.cores|
  {
    Sum(s.cores[1..], InOffload) > 0
  }

  /** The step taken over one memory from here by `l`. */
  ghost predicate Progress(cfg: Config, b: Tso, s: Seq, l: Label)
    requires TsoShape(cfg, b) && Tidy(cfg, s)
  {
    && (l.Exec? || l.Flush? || l.Poll?)
    && TsoEnabled(cfg, b, l)
    && SeqEnabled(cfg, s, SeqOf(cfg, b, l))
    && (var s' := SeqStep(cfg, s, SeqOf(cfg, b, l));
        && 0 < |s'.cores| && Holder(s'.stage) < |s'.cores|
        && Below(MeasureOf(cfg, TsoStep(cfg, b, l), s'), MeasureOf(cfg, b, s)))
  }

  lemma FlushProgress(cfg: Config, b: Tso, s: Seq) returns (l: Label)
    requires Buffered(cfg, b, s) && Tidy(cfg, s) && Sum(b.bufs, Size) > 0
    ensures Progress(cfg, b, s, l)
  {
    var c := SumPositive(b.bufs, Size);
    l := Flush(c);
    SumUpdate(b.bufs, c, b.bufs[c][1..], Size);
  }

  /** With nothing buffered the shared words of memory are those of the unbuffered machine. */
  ghost predicate Plain(cfg: Config, b: Tso, s: Seq) {
    && TsoShape(cfg, b) && b.cores == s.cores
    && (forall c: nat :: IsCore(cfg, c) ==> b.bufs[c] == [])
    && b.mem(Lock) == s.mem(Lock) && b.mem(REQUEST) == s.mem(REQUEST) && b.mem(REPLY) == s.mem(REPLY)
    && s.mem(Lock) == Bit(LockHeld(s.stage))
    && (s.stage.Posted? ==> s.mem(REQUEST) == Num(1))
    && (s.stage.Answered? ==> s.mem(REPLY) == Num(1))
  }

  lemma PlainOf(cfg: Config, b: Tso, s: Seq, t: Spec)
    requires Good(cfg, b, s, t) && Sum(b.bufs, Size) == 0
    ensures Plain(cfg, b, s)
  {
    forall c: nat | IsCore(cfg, c) ensures b.bufs[c] == [] {
      SumZero(b.bufs, Size, c);
    }
    Settled(cfg, b, s, Lock);
    Settled(cfg, b, s, REQUEST);
    Settled(cfg, b, s, REPLY);
  }

  /** Moving friend `c` changes the sums over the friends by what it contributes. */
  lemma MoveFriend(cores: seq<Core>, c: nat, core: Core)
    requires 0 < c < |cores|
    ensures Sum(cores[c := core][1..], InOffload) + InOffload(cores[c]) == Sum(cores[1..], InOffload) + InOffload(core)
    ensures Sum(cores[c := core][1..], AtRead) + AtRead(cores[c]) == Sum(cores[1..], AtRead) + AtRead(core)
  {
    assert cores[c := core][1..] == cores[1..][c - 1 := core];
    SumUpdate(cores[1..], c - 1, core, InOffload);
    SumUpdate(cores[1..], c - 1, core, AtRead);
  }

  lemma MoveHakase(cores: seq<Core>, core: Core)
    requires 0 < |cores|
    ensures cores[HAKASE := core][1..] == cores[1..]
  {
  }

  lemma ReadProgress(cfg: Config, b: Tso, s: Seq, c: nat)
    requires Plain(cfg, b, s) && Tidy(cfg, s) && s.stage.Free? && IsFriend(cfg, c) && s.cores[c].pc.LockRead?
    ensures Progress(cfg, b, s, Exec(c))
  {
    MoveFriend(s.cores, c, s.cores[c].(pc := LockCas(s.cores[c].pc.site)));
  }

  lemma CasProgress(cfg: Config, b: Tso, s: Seq, c: nat)
    requires Plain(cfg, b, s) && Tidy(cfg, s) && s.stage.Free? && IsFriend(cfg, c) && s.cores[c].pc.LockCas?
    ensures Progress(cfg, b, s, Exec(c))
  {
    MoveFriend(s.cores, c, s.cores[c].(pc := CallWait(s.cores[c].pc.site)));
  }

  lemma FreeProgress(cfg: Config, b: Tso, s: Seq) returns (l: Label)
    requires Plain(cfg, b, s) && Tidy(cfg, s) && Busy(s) && s.stage.Free?
    ensures Progress(cfg, b, s, l)
  {
    var i := SumPositive(s.cores[1..], InOffload);
    var c := i + 1;
    assert s.cores[1..][i] == s.cores[c];
    l := Exec(c);
    if s.cores[c].pc.LockRead? { ReadProgress(cfg, b, s, c); } else { CasProgress(cfg, b, s, c); }
  }

  lemma PollProgress(cfg: Config, b: Tso, s: Seq)
    requires Plain(cfg, b, s) && Tidy(cfg, s) && s.stage.Posted?
    requires s.cores[HAKASE].pc == Idle && MayPoll(cfg, s.cores[HAKASE].regs)
    ensures Progress(cfg, b, s, Poll)
  {
    MoveHakase(s.cores, s.cores[HAKASE].(pc := Test));
  }

  lemma TestProgress(cfg: Config, b: Tso, s: Seq)
    requires Plain(cfg, b, s) && Tidy(cfg, s) && s.stage.Posted? && s.cores[HAKASE].pc == Test
    ensures Progress(cfg, b, s, Exec(HAKASE))
  {
    MoveHakase(s.cores, s.cores[HAKASE].(pc := Take));
    assert SeqStep(cfg, s, QExec(HAKASE)).stage.Serving?;
  }

  lemma PostedProgress(cfg: Config, b: Tso, s: Seq) returns (l: Label)
    requires Plain(cfg, b, s) && Tidy(cfg, s) && s.stage.Posted?
    requires s.cores[HAKASE].pc == Idle ==> MayPoll(cfg, s.cores[HAKASE].regs)
    ensures Progress(cfg, b, s, l)
  {
    if s.cores[HAKASE].pc == Idle {
      l := Poll;
      PollProgress(cfg, b, s);
    } else {
      l := Exec(HAKASE);
      TestProgress(cfg, b, s);
    }
  }

  lemma AnsweredProgress(cfg: Config, b: Tso, s: Seq) returns (l: Label)
    requires Plain(cfg, b, s) && Tidy(cfg, s) && s.stage.Answered?
    ensures Progress(cfg, b, s, l)
  {
    var f := s.stage.f;
    l := Exec(f);
    MoveFriend(s.cores, f, s.cores[f].(pc := Restore(FriendCtx, true, 0)));
  }

  /** The next instruction of hakase while it serves, and of the holder while it saves or reloads,
      comes closer to the end. */
  ghost predicate Falling(cfg: Config, s: Seq)
    requires Tidy(cfg, s)
  {
    && (s.stage.Serving? && s.cores[HAKASE].pc != Answer ==>
          var e := Does(cfg, s.cores[HAKASE], ReadIf(s.mem, Reads(cfg, s.cores[HAKASE])));
          var n := cfg.block(s.stage.site).length;
          HakaseRank(e.core, n) < HakaseRank(s.cores[HAKASE], n))
    && (s.stage.Holding? || s.stage.Resuming? ==>
          var f := s.stage.f;
          !s.cores[f].pc.Raise? && !s.cores[f].pc.Release? ==>
            HolderRank(NextPc(cfg, s, f)) < HolderRank(s.cores[f].pc))
    && (s.stage.Posted? && s.cores[HAKASE].pc == Idle ==> MayPoll(cfg, s.cores[HAKASE].regs))
  }

  /** If a request waits for hakase and hakase is in its own code, it is where it polls. */
  ghost predicate Attends(cfg: Config, s: Seq)
    requires 0 < |s.cores|
  {
    s.stage.Posted? && s.cores[HAKASE].pc == Idle ==> cfg.polls(s.cores[HAKASE].regs)
  }

  lemma FallingOf(cfg: Config, b: Tso, s: Seq, t: Spec)
    requires Good(cfg, b, s, t) && Tidy(cfg, s) && Attends(cfg, s)
    ensures Falling(cfg, s)
  {
    if s.stage.Serving? {
      if s.cores[HAKASE].pc != Answer { ServeRank(cfg, s, t); }
    } else if s.stage.Holding? || s.stage.Resuming? {
      var f := s.stage.f;
      assert OffloadSimulation.Ready(cfg, s, t, f);
      if !s.cores[f].pc.Raise? && !s.cores[f].pc.Release? { HolderRankFalls(cfg, s, t, f); }
    }
  }

  lemma AnswerProgress(cfg: Config, b: Tso, s: Seq)
    requires Plain(cfg, b, s) && Tidy(cfg, s) && s.stage.Serving? && s.cores[HAKASE].pc == Answer
    ensures Progress(cfg, b, s, Exec(HAKASE))
  {
    MoveHakase(s.cores, s.cores[HAKASE].(pc := Idle));
  }

  lemma ServeProgress(cfg: Config, b: Tso, s: Seq)
    requires Plain(cfg, b, s) && Tidy(cfg, s) && s.stage.Serving? && s.cores[HAKASE].pc != Answer && Falling(cfg, s)
    ensures Progress(cfg, b, s, Exec(HAKASE))
  {
    var e := Does(cfg, s.cores[HAKASE], ReadIf(s.mem, Reads(cfg, s.cores[HAKASE])));
    MoveHakase(s.cores, e.core);
    assert SeqStep(cfg, s, QExec(HAKASE)).cores == s.cores[HAKASE := e.core];
  }

  lemma ServingProgress(cfg: Config, b: Tso, s: Seq) returns (l: Label)
    requires Plain(cfg, b, s) && Tidy(cfg, s) && s.stage.Serving? && Falling(cfg, s)
    ensures Progress(cfg, b, s, l)
  {
    l := Exec(HAKASE);
    if s.cores[HAKASE].pc == Answer { AnswerProgress(cfg, b, s); } else { ServeProgress(cfg, b, s); }
  }

  lemma RaiseProgress(cfg: Config, b: Tso, s: Seq)
    requires Plain(cfg, b, s) && Tidy(cfg, s) && s.stage.Holding? && s.cores[s.stage.f].pc.Raise?
    ensures Progress(cfg, b, s, Exec(s.stage.f))
  {
    var f := s.stage.f;
    MoveFriend(s.cores, f, s.cores[f].(pc := Spin));
  }

  lemma SavingProgress(cfg: Config, b: Tso, s: Seq)
    requires Plain(cfg, b, s) && Tidy(cfg, s) && s.stage.Holding? && !s.cores[s.stage.f].pc.Raise? && Falling(cfg, s)
    ensures Progress(cfg, b, s, Exec(s.stage.f))
  {
    var f := s.stage.f;
    var e := Does(cfg, s.cores[f], ReadIf(s.mem, Reads(cfg, s.cores[f])));
    MoveFriend(s.cores, f, e.core);
    assert SeqStep(cfg, s, QExec(f)).cores == s.cores[f := e.core];
  }

  lemma HoldingProgress(cfg: Config, b: Tso, s: Seq) returns (l: Label)
    requires Plain(cfg, b, s) && Tidy(cfg, s) && s.stage.Holding? && Falling(cfg, s)
    ensures Progress(cfg, b, s, l)
  {
    l := Exec(s.stage.f);
    if s.cores[s.stage.f].pc.Raise? { RaiseProgress(cfg, b, s); } else { SavingProgress(cfg, b, s); }
  }

  lemma ResumingProgress(cfg: Config, b: Tso, s: Seq) returns (l: Label)
    requires Plain(cfg, b, s) && Tidy(cfg, s) && s.stage.Resuming? && Falling(cfg, s)
    ensures Progress(cfg, b, s, l)
  {
    var f := s.stage.f;
    l := Exec(f);
    var e := Does(cfg, s.cores[f], ReadIf(s.mem, Reads(cfg, s.cores[f])));
    MoveFriend(s.cores, f, e.core);
    assert SeqStep(cfg, s, QExec(f)).cores == s.cores[f := e.core];
  }

  lemma PlainProgress(cfg: Config, b: Tso, s: Seq) returns (l: Label)
    requires Plain(cfg, b, s) && Tidy(cfg, s) && Busy(s) && Falling(cfg, s)
    ensures Progress(cfg, b, s, l)
  {
    match s.stage
    case Free(_) => l := FreeProgress(cfg, b, s);
    case Posted(_, _) => l := PostedProgress(cfg, b, s);
    case Answered(_, _) => l := AnsweredProgress(cfg, b, s);
    case Serving(_, _, _) => l := ServingProgress(cfg, b, s);
    case Holding(_, _) => l := HoldingProgress(cfg, b, s);
    case Resuming(_, _) => l := ResumingProgress(cfg, b, s);
  }

  /** While an offload is under way some step of the protocol, a poll or a drained store brings it
      closer to its end, unless it is hakase's turn and hakase is not where it polls. */
  lemma SomeStepProgresses(cfg: Config, b: Tso, s: Seq, t: Spec) returns (l: Label)
    requires Good(cfg, b, s, t) && Tidy(cfg, s) && Busy(s) && Attends(cfg, s)
    ensures Progress(cfg, b, s, l)
  {
    if Sum(b.bufs, Size) > 0 {
      l := FlushProgress(cfg, b, s);
    } else {
      PlainOf(cfg, b, s, t);
      FallingOf(cfg, b, s, t);
      l := PlainProgress(cfg, b, s);
    }
  }

  // ---------- to the end ----------

  /** Only instructions of the protocol, polls and drained stores. */
  ghost predicate ProtocolOnly(ls: seq<Label>) {
    forall l :: l in ls ==> l.Exec? || l.Flush? || l.Poll?
  }

  ghost predicate AllFinished(cfg: Config, b: Tso) {
    TsoShape(cfg, b) && forall c: nat :: IsFriend(cfg, c) ==> b.cores[c].pc == Idle
  }

  /** Having served, hakase polls again: whether it polls does not hang on the registers a call destroys. */
  ghost predicate PollsAgain(cfg: Config) {
    forall r: Regs, rax, scratch :: cfg.polls(r) ==> cfg.polls(r.(rax := rax, scratch := scratch))
  }

  /** Between steps of its own code hakase stays where it polls. */
  lemma StillPolls(cfg: Config, t: Spec, l: SpecLabel)
    requires SpecShape(cfg, t) && SpecEnabled(cfg, t, l) && !l.SLocal? && PollsAgain(cfg) && cfg.polls(t.regs[HAKASE])
    ensures cfg.polls(SpecStep(cfg, t, l).regs[HAKASE])
  {
  }

  lemma PollsWhenIdle(cfg: Config, s: Seq, t: Spec)
    requires Related(cfg, s, t)
    ensures s.cores[HAKASE].pc == Idle ==> s.cores[HAKASE].regs == t.regs[HAKASE]
    ensures s.cores[HAKASE].pc != Idle ==> cfg.polls(t.regs[HAKASE])
  {
  }

  lemma NotLocal(cfg: Config, b: Tso, s: Seq, l: Label)
    requires TsoShape(cfg, b) && (l.Exec? || l.Flush? || l.Poll?)
    ensures !NextLabel(cfg, b, s, l).SLocal?
  {
  }

  /** One step towards the end. */
  lemma Advance(cfg: Config, b: Tso, s: Seq, t: Spec) returns (l: Label, s': Seq, t': Spec)
    requires Good(cfg, b, s, t) && Tidy(cfg, s) && Busy(s) && PollsAgain(cfg) && cfg.polls(t.regs[HAKASE])
    ensures (l.Exec? || l.Flush? || l.Poll?) && TsoEnabled(cfg, b, l)
    ensures Good(cfg, TsoStep(cfg, b, l), s', t') && cfg.polls(t'.regs[HAKASE])
    ensures Below(MeasureOf(cfg, TsoStep(cfg, b, l), s'), MeasureOf(cfg, b, s))
  {
    PollsWhenIdle(cfg, s, t);
    l := SomeStepProgresses(cfg, b, s, t);
    GoodStep(cfg, b, s, t, l);
    s', t' := NextSeq(cfg, b, s, t, l), SpecStep(cfg, t, NextLabel(cfg, b, s, l));
    NotLocal(cfg, b, s, l);
    StillPolls(cfg, t, NextLabel(cfg, b, s, l));
  }

  lemma FinishedWhenIdle(cfg: Config, b: Tso, s: Seq)
    requires TsoShape(cfg, b) && b.cores == s.cores && !Busy(s)
    requires forall c: nat :: IsFriend(cfg, c) && InOffload(s.cores[c]) == 0 ==> s.cores[c].pc == Idle
    ensures AllFinished(cfg, b)
  {
    forall c: nat | IsFriend(cfg, c) ensures b.cores[c].pc == Idle {
      SumZero(s.cores[1..], InOffload, c - 1);
    }
  }

  lemma {:induction false} Finish(cfg: Config, b: Tso, s: Seq, t: Spec, m: Measure) returns (ls: seq<Label>, b': Tso)
    requires Good(cfg, b, s, t) && m == MeasureOf(cfg, b, s) && PollsAgain(cfg) && cfg.polls(t.regs[HAKASE])
    ensures Reaches(cfg, b, ls, b') && ProtocolOnly(ls) && AllFinished(cfg, b')
    decreases m.unfinished, m.stage, m.pc, m.buffered
  {
    TidyOf(cfg, s, t);
    if Busy(s) {
      var l, s1, t1 := Advance(cfg, b, s, t);
      var b1 := TsoStep(cfg, b, l);
      var rest;
      rest, b' := Finish(cfg, b1, s1, t1, MeasureOf(cfg, b1, s1));
      ls := [l] + rest;
      assert ls[1..] == rest;
    } else {
      ls, b' := [], b;
      FinishedWhenIdle(cfg, b, s);
    }
  }

  /** From every reachable state in which hakase is in the protocol or where it polls, the protocol by itself
      can finish every offload under way, as long as hakase goes on polling: there is no deadlock, and no state
      from which an offload cannot finish. */
  lemma CanAlwaysFinish(cfg: Config, b: Tso)
    requires Reachable(cfg, b) && TsoShape(cfg, b) && PollsAgain(cfg)
    requires b.cores[HAKASE].pc == Idle ==> cfg.polls(b.cores[HAKASE].regs)
    ensures exists ls, b' :: Reaches(cfg, b, ls, b') && ProtocolOnly(ls) && AllFinished(cfg, b')
  {
    var s, t := ReachableGood(cfg, b);
    PollsWhenIdle(cfg, s, t);
    var ls, b' := Finish(cfg, b, s, t, MeasureOf(cfg, b, s));
  }
}
