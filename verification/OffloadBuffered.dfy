/**
  The protocol on x86-TSO (section 8.2 of the Intel SDM, volume 3A): every core has a first-in
  first-out store buffer, reads its own newest buffered store of a location before memory, and
  drains the buffer before a locked instruction.
  */
module OffloadBuffered {
  import opened Wrappers
  import opened OffloadMachine
  import opened OffloadSpec
  import opened OffloadSequential
  import OffloadSimulation

  type Buffer = seq<Entry>

  datatype Tso = Tso(cores: seq<Core>, mem: Memory, bufs: seq<Buffer>, hist: History)

  /** What a core with store buffer `buf` reads at `l`. */
  function View(buf: Buffer, mem: Memory, l: Loc): Value {
    if buf == [] then mem(l)
    else if buf[|buf| - 1].loc == l then buf[|buf| - 1].val
    else View(buf[..|buf| - 1], mem, l)
  }

  function ViewIf(buf: Buffer, mem: Memory, l: Option<Loc>): Value {
    match l
    case None => Num(0)
    case Some(l) => View(buf, mem, l)
  }

  function Append(buf: Buffer, e: Option<Entry>): Buffer {
    match e
    case None => buf
    case Some(e) => buf + [e]
  }

  predicate TsoShape(cfg: Config, b: Tso) {
    |b.cores| == cfg.friends + 1 && |b.bufs| == cfg.friends + 1
  }

  ghost predicate TsoEnabled(cfg: Config, b: Tso, l: Label)
    requires TsoShape(cfg, b)
  {
    match l
    case Local(c, op) => IsCore(cfg, c) && b.cores[c].pc == Idle && LocalOp(cfg, c, b.cores[c].regs, op)
    case Invoke(c, site) => IsFriend(cfg, c) && b.cores[c].pc == Idle && MayInvoke(cfg, c, b.cores[c].regs, site)
    case Poll => b.cores[HAKASE].pc == Idle && MayPoll(cfg, b.cores[HAKASE].regs)
    case Exec(c) => IsCore(cfg, c) && Runs(b.cores[c].pc) && (b.cores[c].pc.LockCas? ==> b.bufs[c] == [])
    case Flush(c) => IsCore(cfg, c) && b.bufs[c] != []
  }

  function TsoCas(cfg: Config, b: Tso, c: nat): Tso
    requires c < |b.cores| && b.cores[c].pc.LockCas?
  {
    var core := b.cores[c];
    var won := b.mem(Lock) == Num(0);
    var core' := core.(pc := if won then CallWait(core.pc.site) else LockRead(core.pc.site));
    Tso(b.cores[c := core'], if won then Write(b.mem, Lock, Num(1)) else b.mem, b.bufs,
        Tick(cfg, b.hist, c, core.pc, won))
  }

  function TsoExec(cfg: Config, b: Tso, c: nat): Tso
    requires c < |b.cores| && c < |b.bufs|
  {
    var core := b.cores[c];
    var e := Does(cfg, core, ViewIf(b.bufs[c], b.mem, Reads(cfg, core)));
    Tso(b.cores[c := e.core], b.mem, b.bufs[c := Append(b.bufs[c], e.store)], Tick(cfg, b.hist, c, core.pc, false))
  }

  function TsoStep(cfg: Config, b: Tso, l: Label): (b': Tso)
    requires TsoShape(cfg, b) && TsoEnabled(cfg, b, l)
    ensures TsoShape(cfg, b')
  {
    match l
    case Local(c, op) =>
      var core := b.cores[c].(regs := OpRegs(op, ViewIf(b.bufs[c], b.mem, OpReads(op))));
      b.(cores := b.cores[c := core], bufs := b.bufs[c := Append(b.bufs[c], OpStores(op))])
    case Invoke(c, site) => b.(cores := b.cores[c := b.cores[c].(pc := LockRead(site))])
    case Poll => b.(cores := b.cores[HAKASE := b.cores[HAKASE].(pc := Test)])
    case Exec(c) => if b.cores[c].pc.LockCas? then TsoCas(cfg, b, c) else TsoExec(cfg, b, c)
    case Flush(c) =>
      var e := b.bufs[c][0];
      b.(mem := Write(b.mem, e.loc, e.val), bufs := b.bufs[c := b.bufs[c][1..]])
  }

  // ---------- store buffers ----------

  predicate Pending(buf: Buffer, l: Loc) {
    exists e :: e in buf && e.loc == l
  }

  lemma {:induction false} ViewAbsent(buf: Buffer, mem: Memory, l: Loc)
    requires !Pending(buf, l)
    ensures View(buf, mem, l) == mem(l)
  {
    if buf != [] {
      assert buf[|buf| - 1] in buf;
      ViewAbsent(buf[..|buf| - 1], mem, l);
    }
  }

  lemma ViewAppend(buf: Buffer, e: Entry, mem: Memory, l: Loc)
    ensures View(buf + [e], mem, l) == if e.loc == l then e.val else View(buf, mem, l)
  {
    assert (buf + [e])[..|buf|] == buf;
  }

  /** Draining the oldest store changes nothing its own core can see. */
  lemma {:induction false} ViewFlush(buf: Buffer, mem: Memory, l: Loc)
    requires buf != []
    ensures View(buf[1..], Write(mem, buf[0].loc, buf[0].val), l) == View(buf, mem, l)
  {
    if |buf| > 1 {
      var front := buf[..|buf| - 1];
      assert buf[1..][|buf[1..]| - 1] == buf[|buf| - 1];
      assert buf[1..][..|buf[1..]| - 1] == front[1..];
      ViewFlush(front, mem, l);
    } else {
      assert buf[..0] == [];
    }
  }

  lemma {:induction false} ViewElsewhere(buf: Buffer, mem: Memory, mem': Memory, l: Loc)
    requires mem(l) == mem'(l)
    ensures View(buf, mem, l) == View(buf, mem', l)
  {
    if buf != [] { ViewElsewhere(buf[..|buf| - 1], mem, mem', l); }
  }

  // ---------- who may write what ----------

  /** The one core that may have stores of `l` in its buffer. */
  function Writer(cfg: Config, st: Stage, l: Loc): nat {
    match l
    case Mem(a) => if (st.Serving? || st.Answered?) && cfg.owner(a) == st.f then HAKASE else cfg.owner(a)
    case Lock => if st.Free? then st.last else st.f
    case Slot(buf, _) =>
      if buf == HakaseCtx || st.Serving? || st.Answered? then HAKASE else if st.Free? then st.last else st.f
  }

  /** Only stores to the core's own frame. */
  ghost predicate Private(cfg: Config, c: nat, buf: Buffer) {
    forall e :: e in buf ==> e.loc.Mem? && cfg.owner(e.loc.a) == c
  }

  /** The store of `l` is there once, and only private stores follow it. */
  ghost predicate Signals(cfg: Config, c: nat, buf: Buffer, l: Loc) {
    buf != [] && if buf[0].loc == l then Private(cfg, c, buf[1..]) else Signals(cfg, c, buf[1..], l)
  }

  /** Either the hand-over store of `l` is still buffered and memory shows `before`,
      or nothing but private stores is left. */
  ghost predicate HandsOver(cfg: Config, c: nat, b: Tso, l: Loc, before: Value)
    requires c < |b.bufs|
  {
    if Pending(b.bufs[c], l) then Signals(cfg, c, b.bufs[c], l) && b.mem(l) == before
    else Private(cfg, c, b.bufs[c])
  }

  ghost predicate Rights(cfg: Config, b: Tso, st: Stage)
    requires TsoShape(cfg, b)
  {
    forall c: nat, e :: IsCore(cfg, c) && e in b.bufs[c] ==> Writer(cfg, st, e.loc) == c
  }

  ghost predicate Views(cfg: Config, b: Tso, s: Seq)
    requires TsoShape(cfg, b)
  {
    forall c: nat, l :: IsCore(cfg, c) && Writer(cfg, s.stage, l) == c ==> View(b.bufs[c], b.mem, l) == s.mem(l)
  }

  /** Which of the three shared words can be buffered at each stage. */
  ghost predicate Quiet(cfg: Config, b: Tso, st: Stage)
    requires TsoShape(cfg, b)
  {
    forall c: nat :: IsCore(cfg, c) ==>
      && (!st.Free? ==> !Pending(b.bufs[c], Lock))
      && (st.Free? || st.Holding? || st.Resuming? ==> !Pending(b.bufs[c], REQUEST))
      && (st.Holding? || st.Posted? || st.Serving? ==> !Pending(b.bufs[c], REPLY))
  }

  ghost predicate PostedBuf(b: Tso, f: nat)
    requires f < |b.bufs|
  {
    var buf := b.bufs[f];
    || (buf == [] && b.mem(REQUEST) == Num(1))
    || (buf != [] && buf[|buf| - 1].loc == REQUEST && !Pending(buf[..|buf| - 1], REQUEST) && b.mem(REQUEST) == Num(0))
  }

  ghost predicate Order(cfg: Config, b: Tso, st: Stage)
    requires TsoShape(cfg, b)
  {
    match st
    case Free(last) => IsCore(cfg, last) && HandsOver(cfg, last, b, Lock, Num(1))
    case Posted(f, _) => IsFriend(cfg, f) && PostedBuf(b, f)
    case Serving(f, _, _) => IsFriend(cfg, f) && b.bufs[f] == []
    case Answered(f, _) => IsFriend(cfg, f) && b.bufs[f] == [] && HandsOver(cfg, HAKASE, b, REPLY, Num(0))
    case _ => true
  }

  /** The buffered machine shows every location its writer sees as the unbuffered machine has it. */
  ghost predicate Buffered(cfg: Config, b: Tso, s: Seq) {
    && TsoShape(cfg, b)
    && b.cores == s.cores && b.hist == s.hist
    && Rights(cfg, b, s.stage)
    && Views(cfg, b, s)
    && Quiet(cfg, b, s.stage)
    && Order(cfg, b, s.stage)
  }

  /** The step over one memory that a step of the buffered machine is. */
  function SeqOf(cfg: Config, b: Tso, l: Label): SeqLabel
    requires TsoShape(cfg, b)
  {
    match l
    case Local(c, op) => QLocal(c, op)
    case Invoke(c, site) => QInvoke(c, site)
    case Poll => QPoll
    case Flush(_) => QSkip
    case Exec(c) =>
      if c >= |b.cores| then QSkip else
      var core := b.cores[c];
      var v := ViewIf(b.bufs[c], b.mem, Reads(cfg, core));
      match core.pc
      case LockRead(_) => if v == Num(0) then QExec(c) else QSkip
      case LockCas(_) => if b.mem(Lock) == Num(0) then QExec(c) else QMiss(c)
      case Test => if v == Num(0) then QMiss(c) else QExec(c)
      case Spin => if v == Num(0) then QSkip else QExec(c)
      case _ => QExec(c)
  }

  ghost predicate Matched(cfg: Config, b: Tso, s: Seq, l: Label)
    requires TsoShape(cfg, b) && TsoEnabled(cfg, b, l)
    requires |s.cores| == cfg.friends + 1
  {
    && SeqEnabled(cfg, s, SeqOf(cfg, b, l))
    && Buffered(cfg, TsoStep(cfg, b, l), SeqStep(cfg, s, SeqOf(cfg, b, l)))
  }

  ghost predicate Linked(cfg: Config, b: Tso, s: Seq, t: Spec) {
    SafeJobs(cfg, t) && Related(cfg, s, t) && Buffered(cfg, b, s)
  }

  // ---------- flushes ----------

  lemma FlushViews(cfg: Config, b: Tso, s: Seq, c: nat)
    requires TsoShape(cfg, b) && TsoEnabled(cfg, b, Flush(c))
    requires Rights(cfg, b, s.stage) && Views(cfg, b, s)
    ensures Views(cfg, TsoStep(cfg, b, Flush(c)), s)
  {
    var b' := TsoStep(cfg, b, Flush(c));
    assert b.bufs[c][0] in b.bufs[c];
    forall d: nat, l | IsCore(cfg, d) && Writer(cfg, s.stage, l) == d ensures View(b'.bufs[d], b'.mem, l) == s.mem(l) {
      if d == c {
        ViewFlush(b.bufs[c], b.mem, l);
      } else {
        ViewElsewhere(b.bufs[d], b.mem, b'.mem, l);
      }
    }
  }

  lemma {:induction false} SignalsPending(cfg: Config, c: nat, buf: Buffer, l: Loc)
    requires Signals(cfg, c, buf, l)
    ensures Pending(buf, l)
  {
    if buf[0].loc == l {
      assert buf[0] in buf;
    } else {
      SignalsPending(cfg, c, buf[1..], l);
    }
  }

  lemma {:induction false} SignalsAppend(cfg: Config, c: nat, buf: Buffer, l: Loc, e: Entry)
    requires Signals(cfg, c, buf, l) && e.loc.Mem? && cfg.owner(e.loc.a) == c
    ensures Signals(cfg, c, buf + [e], l)
  {
    assert (buf + [e])[1..] == buf[1..] + [e];
    if buf[0].loc != l { SignalsAppend(cfg, c, buf[1..], l, e); }
  }

  lemma {:induction false} SignalsLast(cfg: Config, c: nat, buf: Buffer, e: Entry)
    requires !Pending(buf, e.loc)
    ensures Signals(cfg, c, buf + [e], e.loc)
  {
    if buf != [] {
      assert buf[0] in buf;
      assert (buf + [e])[1..] == buf[1..] + [e];
      SignalsLast(cfg, c, buf[1..], e);
    }
  }

  lemma FlushHandsOver(cfg: Config, b: Tso, c: nat, d: nat, l: Loc, before: Value)
    requires TsoShape(cfg, b) && TsoEnabled(cfg, b, Flush(c)) && IsCore(cfg, d)
    requires HandsOver(cfg, d, b, l, before) && !l.Mem?
    requires c != d ==> !Pending(b.bufs[c], l)
    ensures HandsOver(cfg, d, TsoStep(cfg, b, Flush(c)), l, before)
  {
    var b' := TsoStep(cfg, b, Flush(c));
    var e := b.bufs[c][0];
    assert e in b.bufs[c];
    if c == d && Pending(b.bufs[c], l) {
      if e.loc != l {
        SignalsPending(cfg, c, b.bufs[c][1..], l);
      }
    }
  }

  lemma FlushPosted(cfg: Config, b: Tso, s: Seq, c: nat)
    requires Buffered(cfg, b, s) && TsoEnabled(cfg, b, Flush(c))
    requires s.stage.Posted? && s.mem(REQUEST) == Num(1)
    requires Views(cfg, TsoStep(cfg, b, Flush(c)), s)
    ensures PostedBuf(TsoStep(cfg, b, Flush(c)), s.stage.f)
  {
    var b' := TsoStep(cfg, b, Flush(c));
    var f := s.stage.f;
    var buf := b.bufs[f];
    var e := b.bufs[c][0];
    assert e in b.bufs[c];
    if c != f {
      assert e.loc != REQUEST;
    } else if |buf| == 1 {
      assert View(b'.bufs[f], b'.mem, REQUEST) == s.mem(REQUEST);
    } else {
      assert e == buf[..|buf| - 1][0];
      assert b'.bufs[f][..|buf| - 2] == buf[1..|buf| - 1];
      assert buf[1..|buf| - 1] == buf[..|buf| - 1][1..];
    }
  }

  lemma FlushKeeps(cfg: Config, b: Tso, s: Seq, c: nat)
    requires Buffered(cfg, b, s) && TsoEnabled(cfg, b, Flush(c))
    requires s.stage.Posted? ==> s.mem(REQUEST) == Num(1)
    ensures Buffered(cfg, TsoStep(cfg, b, Flush(c)), s)
  {
    var b' := TsoStep(cfg, b, Flush(c));
    FlushViews(cfg, b, s, c);
    assert forall d: nat, x :: IsCore(cfg, d) && x in b'.bufs[d] ==> x in b.bufs[d];
    match s.stage
    case Free(last) => FlushHandsOver(cfg, b, c, last, Lock, Num(1));
    case Answered(f, _) => FlushHandsOver(cfg, b, c, HAKASE, REPLY, Num(0));
    case Posted(f, _) => FlushPosted(cfg, b, s, c);
    case _ =>
  }

  lemma FlushMatched(cfg: Config, b: Tso, s: Seq, t: Spec, c: nat)
    requires Linked(cfg, b, s, t) && TsoEnabled(cfg, b, Flush(c))
    ensures Matched(cfg, b, s, Flush(c))
  {
    FlushKeeps(cfg, b, s, c);
  }

  // ---------- instructions ----------

  /** A store by the core that may write its location keeps rights and views, at any stage with the same writers. */
  lemma StoreKeeps(cfg: Config, b: Tso, s: Seq, b': Tso, s': Seq, c: nat, e: Option<Entry>)
    requires TsoShape(cfg, b) && TsoShape(cfg, b') && IsCore(cfg, c)
    requires Rights(cfg, b, s.stage) && Views(cfg, b, s)
    requires b'.mem == b.mem && b'.bufs == b.bufs[c := Append(b.bufs[c], e)] && s'.mem == WriteIf(s.mem, e)
    requires forall l :: Writer(cfg, s'.stage, l) == Writer(cfg, s.stage, l)
    requires e.Some? ==> Writer(cfg, s.stage, e.value.loc) == c
    ensures Rights(cfg, b', s'.stage) && Views(cfg, b', s')
  {
    forall d: nat, l | IsCore(cfg, d) && Writer(cfg, s'.stage, l) == d
      ensures View(b'.bufs[d], b'.mem, l) == s'.mem(l)
    {
      if d == c && e.Some? {
        ViewAppend(b.bufs[c], e.value, b.mem, l);
      }
    }
  }

  predicate Racy(pc: Pc) {
    pc.LockRead? || pc.LockCas? || pc.Test? || pc.Spin?
  }

  /** The location an instruction reads and the one it stores to, if any, are its core's to write. */
  ghost predicate Entitled(cfg: Config, s: Seq, c: nat)
    requires c < |s.cores|
  {
    var r := Reads(cfg, s.cores[c]);
    var e := Does(cfg, s.cores[c], ReadIf(s.mem, r)).store;
    && (r.Some? ==> Writer(cfg, s.stage, r.value) == c)
    && (e.Some? ==> Writer(cfg, s.stage, e.value.loc) == c)
  }

  /** What is hakase's to write while it serves friend `f`. */
  predicate InService(cfg: Config, f: nat, l: Loc) {
    l.Slot? || (l.Mem? && Lent(cfg, f, l.a))
  }

  lemma ServiceAccess(cfg: Config, m: Memory, core: Core, hr: Regs, fr: Regs, f: nat, site: nat, ram: Ram)
    requires OffloadSimulation.Context(cfg, hr, fr, f, site, ram) && ServingRel(cfg, m, core, hr, fr, f, site, ram)
    ensures var r := Reads(cfg, core);
            var e := Does(cfg, core, ReadIf(m, r)).store;
            (r.Some? ==> InService(cfg, f, r.value)) && (e.Some? ==> InService(cfg, f, e.value.loc))
  {
    OffloadSimulation.BlockStack(cfg, cfg.block(site).length, hr, fr, f, site, ram);
    if RunningRel(cfg, m, core, hr, fr, f, site, ram) && core.pc.RunBlock? && core.pc.k < cfg.block(site).length {
      OffloadSimulation.BlockKeepsTo(cfg, core.pc.k, hr, fr, f, site, ram);
    }
  }

  lemma HakaseAccess(cfg: Config, s: Seq, t: Spec)
    requires OffloadSimulation.Serves(cfg, s, t)
    ensures Entitled(cfg, s, HAKASE)
  {
    var f := s.stage.f;
    OffloadSimulation.ServingContext(cfg, s, t);
    ServiceAccess(cfg, s.mem, s.cores[HAKASE], t.regs[HAKASE], t.regs[f], f, s.stage.site, s.stage.ram);
  }

  /** Apart from the polls, a core reads and writes only what is its own to write. */
  lemma Access(cfg: Config, s: Seq, t: Spec, c: nat)
    requires SafeJobs(cfg, t) && OffloadSimulation.Ready(cfg, s, t, c) && !Racy(s.cores[c].pc)
    ensures Entitled(cfg, s, c)
  {
    if c == HAKASE { HakaseAccess(cfg, s, t); }
  }

  /** A location nobody has buffered is in memory as the unbuffered machine has it. */
  lemma Settled(cfg: Config, b: Tso, s: Seq, l: Loc)
    requires Buffered(cfg, b, s)
    requires IsCore(cfg, Writer(cfg, s.stage, l))
    requires !Pending(b.bufs[Writer(cfg, s.stage, l)], l)
    ensures b.mem(l) == s.mem(l)
    ensures forall c: nat :: IsCore(cfg, c) ==> View(b.bufs[c], b.mem, l) == s.mem(l)
  {
    var w := Writer(cfg, s.stage, l);
    ViewAbsent(b.bufs[w], b.mem, l);
    forall c: nat | IsCore(cfg, c) ensures View(b.bufs[c], b.mem, l) == s.mem(l) {
      if c != w {
        assert !Pending(b.bufs[c], l);
        ViewAbsent(b.bufs[c], b.mem, l);
      }
    }
  }

  predicate Signalling(pc: Pc) {
    pc.Raise? || pc.Answer? || pc.Release?
  }

  /** Only the holder before it posts or after it resumes, and hakase while serving, run such an instruction. */
  lemma PlainStage(cfg: Config, s: Seq, t: Spec, c: nat)
    requires OffloadSimulation.Ready(cfg, s, t, c)
    requires !Racy(s.cores[c].pc) && !Signalling(s.cores[c].pc)
    ensures if c == HAKASE then s.stage.Serving? else s.stage.Holding? || s.stage.Resuming?
    ensures var e := Does(cfg, s.cores[c], ReadIf(s.mem, Reads(cfg, s.cores[c]))).store;
            e.Some? ==>
              && e.value.loc != Lock
              && (c != HAKASE ==> e.value.loc != REQUEST)
              && (s.stage.Holding? || s.stage.Serving? ==> e.value.loc != REPLY)
  {
  }

  /** Appending a store the stage allows leaves the signals in order. */
  lemma AppendQuiet(cfg: Config, b: Tso, b': Tso, st: Stage, c: nat, e: Option<Entry>)
    requires TsoShape(cfg, b) && TsoShape(cfg, b') && IsCore(cfg, c)
    requires Quiet(cfg, b, st) && Order(cfg, b, st)
    requires b'.mem == b.mem && b'.bufs == b.bufs[c := Append(b.bufs[c], e)]
    requires if c == HAKASE then st.Serving? else st.Holding? || st.Resuming?
    requires e.Some? ==>
               && e.value.loc != Lock
               && (c != HAKASE ==> e.value.loc != REQUEST)
               && (st.Holding? || st.Serving? ==> e.value.loc != REPLY)
    ensures Quiet(cfg, b', st) && Order(cfg, b', st)
  {
  }

  lemma SameReads(cfg: Config, b: Tso, s: Seq, c: nat)
    requires Buffered(cfg, b, s) && IsCore(cfg, c) && Entitled(cfg, s, c)
    ensures ViewIf(b.bufs[c], b.mem, Reads(cfg, b.cores[c])) == ReadIf(s.mem, Reads(cfg, s.cores[c]))
  {
    var r := Reads(cfg, s.cores[c]);
    if r.Some? {
      assert View(b.bufs[c], b.mem, r.value) == s.mem(r.value);
    }
  }

  /** Such an instruction does on the buffered machine what it does over one memory. */
  lemma SameEffect(cfg: Config, b: Tso, s: Seq, c: nat)
    requires Buffered(cfg, b, s) && IsCore(cfg, c)
    requires Entitled(cfg, s, c)
    requires !b.cores[c].pc.LockCas?
    ensures var e := Does(cfg, s.cores[c], ReadIf(s.mem, Reads(cfg, s.cores[c])));
            && TsoExec(cfg, b, c).cores == ExecStep(cfg, s, c).cores
            && TsoExec(cfg, b, c).hist == ExecStep(cfg, s, c).hist
            && TsoExec(cfg, b, c).mem == b.mem
            && TsoExec(cfg, b, c).bufs == b.bufs[c := Append(b.bufs[c], e.store)]
            && ExecStep(cfg, s, c).mem == WriteIf(s.mem, e.store)
  {
    SameReads(cfg, b, s, c);
  }

  lemma PlainMatched(cfg: Config, b: Tso, s: Seq, t: Spec, c: nat)
    requires Linked(cfg, b, s, t) && TsoEnabled(cfg, b, Exec(c))
    requires !Racy(b.cores[c].pc) && !Signalling(b.cores[c].pc)
    ensures Matched(cfg, b, s, Exec(c))
  {
    assert OffloadSimulation.Ready(cfg, s, t, c);
    Access(cfg, s, t, c);
    PlainStage(cfg, s, t, c);
    SameEffect(cfg, b, s, c);
    PlainKeeps(cfg, b, s, c);
  }

  lemma PlainKeeps(cfg: Config, b: Tso, s: Seq, c: nat)
    requires Buffered(cfg, b, s) && |s.cores| == cfg.friends + 1
    requires TsoEnabled(cfg, b, Exec(c)) && !Racy(b.cores[c].pc) && !Signalling(b.cores[c].pc)
    requires Entitled(cfg, s, c)
    requires if c == HAKASE then s.stage.Serving? else s.stage.Holding? || s.stage.Resuming?
    requires var e := Does(cfg, s.cores[c], ReadIf(s.mem, Reads(cfg, s.cores[c]))).store;
             e.Some? ==>
               && e.value.loc != Lock
               && (c != HAKASE ==> e.value.loc != REQUEST)
               && (s.stage.Holding? || s.stage.Serving? ==> e.value.loc != REPLY)
    ensures Matched(cfg, b, s, Exec(c))
  {
    var b', s' := TsoExec(cfg, b, c), ExecStep(cfg, s, c);
    var e := Does(cfg, s.cores[c], ReadIf(s.mem, Reads(cfg, s.cores[c]))).store;
    SameEffect(cfg, b, s, c);
    assert s'.stage == s.stage;
    StoreKeeps(cfg, b, s, b', s', c, e);
    AppendQuiet(cfg, b, b', s.stage, c, e);
    assert Buffered(cfg, b', s');
  }

  // ---------- signals ----------

  lemma RaiseStage(cfg: Config, s: Seq, t: Spec, c: nat)
    requires OffloadSimulation.Ready(cfg, s, t, c) && s.cores[c].pc.Raise?
    ensures s.stage.Holding? && s.stage.f == c && s.mem(REQUEST) == Num(0)
  {
  }

  lemma RaiseMatched(cfg: Config, b: Tso, s: Seq, t: Spec, c: nat)
    requires Linked(cfg, b, s, t) && TsoEnabled(cfg, b, Exec(c)) && b.cores[c].pc.Raise?
    ensures Matched(cfg, b, s, Exec(c))
  {
    RaiseStage(cfg, s, t, c);
    RaiseKeeps(cfg, b, s, c);
  }

  lemma RaiseKeeps(cfg: Config, b: Tso, s: Seq, c: nat)
    requires Buffered(cfg, b, s) && |s.cores| == cfg.friends + 1
    requires TsoEnabled(cfg, b, Exec(c)) && b.cores[c].pc.Raise?
    requires s.stage.Holding? && s.stage.f == c && IsFriend(cfg, c) && s.mem(REQUEST) == Num(0)
    ensures Matched(cfg, b, s, Exec(c))
  {
    var b', s' := TsoExec(cfg, b, c), ExecStep(cfg, s, c);
    SameEffect(cfg, b, s, c);
    StoreKeeps(cfg, b, s, b', s', c, Some(Entry(REQUEST, Num(1))));
    Settled(cfg, b, s, REQUEST);
    assert b'.bufs[c][..|b'.bufs[c]| - 1] == b.bufs[c];
    assert PostedBuf(b', c);
    assert Buffered(cfg, b', s');
  }

  lemma AnswerMatched(cfg: Config, b: Tso, s: Seq, t: Spec, c: nat)
    requires Linked(cfg, b, s, t) && TsoEnabled(cfg, b, Exec(c)) && b.cores[c].pc.Answer?
    ensures Matched(cfg, b, s, Exec(c))
  {
    assert OffloadSimulation.Ready(cfg, s, t, c);
    assert s.stage.Serving? && c == HAKASE && s.mem(REPLY) == Num(0);
    AnswerKeeps(cfg, b, s);
  }

  lemma AnswerKeeps(cfg: Config, b: Tso, s: Seq)
    requires Buffered(cfg, b, s) && |s.cores| == cfg.friends + 1
    requires TsoEnabled(cfg, b, Exec(HAKASE)) && b.cores[HAKASE].pc.Answer?
    requires s.stage.Serving? && s.mem(REPLY) == Num(0)
    ensures Matched(cfg, b, s, Exec(HAKASE))
  {
    var b', s' := TsoExec(cfg, b, HAKASE), ExecStep(cfg, s, HAKASE);
    var e := Entry(REPLY, Num(1));
    SameEffect(cfg, b, s, HAKASE);
    StoreKeeps(cfg, b, s, b', s', HAKASE, Some(e));
    Settled(cfg, b, s, REPLY);
    SignalsLast(cfg, HAKASE, b.bufs[HAKASE], e);
    assert e in b'.bufs[HAKASE];
    assert Buffered(cfg, b', s');
  }

  lemma ReleaseMatched(cfg: Config, b: Tso, s: Seq, t: Spec, c: nat)
    requires Linked(cfg, b, s, t) && TsoEnabled(cfg, b, Exec(c)) && b.cores[c].pc.Release?
    ensures Matched(cfg, b, s, Exec(c))
  {
    assert OffloadSimulation.Ready(cfg, s, t, c);
    assert s.stage.Resuming? && c == s.stage.f && s.mem(Lock) == Num(1);
    ReleaseKeeps(cfg, b, s, c);
  }

  lemma ReleaseKeeps(cfg: Config, b: Tso, s: Seq, c: nat)
    requires Buffered(cfg, b, s) && |s.cores| == cfg.friends + 1
    requires TsoEnabled(cfg, b, Exec(c)) && b.cores[c].pc.Release?
    requires s.stage.Resuming? && c == s.stage.f && s.mem(Lock) == Num(1)
    ensures Matched(cfg, b, s, Exec(c))
  {
    var b', s' := TsoExec(cfg, b, c), ExecStep(cfg, s, c);
    var e := Entry(Lock, Num(0));
    SameEffect(cfg, b, s, c);
    StoreKeeps(cfg, b, s, b', s', c, Some(e));
    Settled(cfg, b, s, Lock);
    SignalsLast(cfg, c, b.bufs[c], e);
    assert e in b'.bufs[c];
    assert Buffered(cfg, b', s');
  }

  // ---------- polls ----------

  /** Moving the stage hands locations to a core that has none of them buffered, from one that has
      none left. */
  lemma HandOver(cfg: Config, b: Tso, b': Tso, s: Seq, s': Seq)
    requires Buffered(cfg, b, s) && TsoShape(cfg, b')
    requires b'.mem == b.mem && b'.bufs == b.bufs && s'.mem == s.mem
    requires forall l :: Writer(cfg, s'.stage, l) != Writer(cfg, s.stage, l) ==>
               && IsCore(cfg, Writer(cfg, s.stage, l))
               && !Pending(b.bufs[Writer(cfg, s.stage, l)], l)
    ensures Rights(cfg, b', s'.stage) && Views(cfg, b', s')
  {
    forall c: nat, l | IsCore(cfg, c) && Writer(cfg, s'.stage, l) == c
      ensures View(b'.bufs[c], b'.mem, l) == s'.mem(l)
    {
      if Writer(cfg, s.stage, l) != c { Settled(cfg, b, s, l); }
    }
    forall c: nat, e | IsCore(cfg, c) && e in b'.bufs[c] ensures Writer(cfg, s'.stage, e.loc) == c {
      if Writer(cfg, s'.stage, e.loc) != Writer(cfg, s.stage, e.loc) {
        assert Pending(b.bufs[c], e.loc);
      }
    }
  }

  /** When hakase sees slot 8 up, the whole context of the friend has reached memory. */
  lemma TestSees(cfg: Config, b: Tso, s: Seq)
    requires Buffered(cfg, b, s)
    requires !s.stage.Serving? && (s.stage.Posted? || s.mem(REQUEST) == Num(0))
    requires !s.stage.Free? ==> IsFriend(cfg, s.stage.f)
    requires View(b.bufs[HAKASE], b.mem, REQUEST) != Num(0)
    ensures s.stage.Posted? && b.bufs[s.stage.f] == []
  {
    if s.stage.Posted? {
      assert !Pending(b.bufs[HAKASE], REQUEST);
      ViewAbsent(b.bufs[HAKASE], b.mem, REQUEST);
    } else if !s.stage.Answered? {
      Settled(cfg, b, s, REQUEST);
    }
  }

  lemma TestMatched(cfg: Config, b: Tso, s: Seq, t: Spec, c: nat)
    requires Linked(cfg, b, s, t) && TsoEnabled(cfg, b, Exec(c)) && b.cores[c].pc.Test?
    ensures Matched(cfg, b, s, Exec(c))
  {
    assert c == HAKASE && !s.stage.Serving?;
    TestKeeps(cfg, b, s);
  }

  lemma TestKeeps(cfg: Config, b: Tso, s: Seq)
    requires Buffered(cfg, b, s) && |s.cores| == cfg.friends + 1 && b.cores[HAKASE].pc.Test?
    requires !s.stage.Serving? && s.mem(REQUEST) == Bit(s.stage.Posted?)
    requires !s.stage.Free? ==> IsFriend(cfg, s.stage.f)
    ensures Matched(cfg, b, s, Exec(HAKASE))
  {
    if View(b.bufs[HAKASE], b.mem, REQUEST) != Num(0) {
      TestSees(cfg, b, s);
      var b', s' := TsoExec(cfg, b, HAKASE), ExecStep(cfg, s, HAKASE);
      HandOver(cfg, b, b', s, s');
      assert Buffered(cfg, b', s');
    } else {
      var b', s' := TsoExec(cfg, b, HAKASE), SeqStep(cfg, s, QMiss(HAKASE));
      assert Buffered(cfg, b', s');
    }
  }

  /** When the friend sees slot 9 up, everything hakase did for it has reached memory. */
  lemma SpinSees(cfg: Config, b: Tso, s: Seq, f: nat)
    requires Buffered(cfg, b, s) && IsFriend(cfg, f)
    requires s.stage.Answered? || ((s.stage.Posted? || s.stage.Serving?) && s.mem(REPLY) == Num(0))
    requires f == s.stage.f
    requires View(b.bufs[f], b.mem, REPLY) != Num(0)
    ensures s.stage.Answered? && Private(cfg, HAKASE, b.bufs[HAKASE])
  {
    if s.stage.Answered? {
    } else {
      Settled(cfg, b, s, REPLY);
    }
  }

  lemma SpinMatched(cfg: Config, b: Tso, s: Seq, t: Spec, c: nat)
    requires Linked(cfg, b, s, t) && TsoEnabled(cfg, b, Exec(c)) && b.cores[c].pc.Spin?
    ensures Matched(cfg, b, s, Exec(c))
  {
    assert IsFriend(cfg, c) && (s.stage.Posted? || s.stage.Serving? || s.stage.Answered?) && s.stage.f == c;
    SpinKeeps(cfg, b, s, c);
  }

  lemma SpinKeeps(cfg: Config, b: Tso, s: Seq, c: nat)
    requires Buffered(cfg, b, s) && |s.cores| == cfg.friends + 1 && IsFriend(cfg, c) && b.cores[c].pc.Spin?
    requires (s.stage.Posted? || s.stage.Serving? || s.stage.Answered?) && s.stage.f == c
    requires s.mem(REPLY) == Bit(s.stage.Answered?)
    ensures Matched(cfg, b, s, Exec(c))
  {
    if View(b.bufs[c], b.mem, REPLY) != Num(0) {
      SpinSees(cfg, b, s, c);
      var b', s' := TsoExec(cfg, b, c), ExecStep(cfg, s, c);
      HandOver(cfg, b, b', s, s');
      assert Buffered(cfg, b', s');
    } else {
      assert b.cores[c := b.cores[c]] == b.cores && b.bufs[c := b.bufs[c]] == b.bufs;
      assert TsoExec(cfg, b, c) == b;
    }
  }

  /** A core that reads the lock as free: it is, also without buffers. */
  lemma LockReadFree(cfg: Config, b: Tso, s: Seq, c: nat)
    requires Buffered(cfg, b, s) && IsCore(cfg, c) && s.mem(Lock) == Bit(LockHeld(s.stage))
    requires !s.stage.Free? ==> IsFriend(cfg, s.stage.f)
    requires View(b.bufs[c], b.mem, Lock) == Num(0)
    ensures s.mem(Lock) == Num(0)
  {
    if !s.stage.Free? { Settled(cfg, b, s, Lock); }
  }

  lemma LockReadOn(cfg: Config, b: Tso, s: Seq, c: nat)
    requires Buffered(cfg, b, s) && |s.cores| == cfg.friends + 1 && TsoEnabled(cfg, b, Exec(c))
    requires b.cores[c].pc.LockRead? && View(b.bufs[c], b.mem, Lock) == Num(0) && s.mem(Lock) == Num(0)
    ensures Matched(cfg, b, s, Exec(c))
  {
    assert Buffered(cfg, TsoExec(cfg, b, c), ExecStep(cfg, s, c));
  }

  lemma LockReadAgain(cfg: Config, b: Tso, s: Seq, c: nat)
    requires Buffered(cfg, b, s) && |s.cores| == cfg.friends + 1 && TsoEnabled(cfg, b, Exec(c))
    requires b.cores[c].pc.LockRead? && View(b.bufs[c], b.mem, Lock) != Num(0)
    ensures Matched(cfg, b, s, Exec(c))
  {
    assert b.cores[c := b.cores[c]] == b.cores && b.bufs[c := b.bufs[c]] == b.bufs;
    assert TsoExec(cfg, b, c) == b;
  }

  lemma LockReadMatched(cfg: Config, b: Tso, s: Seq, t: Spec, c: nat)
    requires Linked(cfg, b, s, t) && TsoEnabled(cfg, b, Exec(c)) && b.cores[c].pc.LockRead?
    ensures Matched(cfg, b, s, Exec(c))
  {
    if View(b.bufs[c], b.mem, Lock) == Num(0) {
      LockReadFree(cfg, b, s, c);
      LockReadOn(cfg, b, s, c);
    } else {
      LockReadAgain(cfg, b, s, c);
    }
  }


  lemma CasMatched(cfg: Config, b: Tso, s: Seq, t: Spec, c: nat)
    requires Linked(cfg, b, s, t) && TsoEnabled(cfg, b, Exec(c)) && b.cores[c].pc.LockCas?
    ensures Matched(cfg, b, s, Exec(c))
  {
    assert IsFriend(cfg, c);
    if b.mem(Lock) == Num(0) {
      if !s.stage.Free? { Settled(cfg, b, s, Lock); }
      assert s.stage.Free? && s.mem(Lock) == Num(0);
      CasWins(cfg, b, s, c);
    } else {
      assert Buffered(cfg, TsoCas(cfg, b, c), SeqStep(cfg, s, QMiss(c)));
    }
  }

  /** The winner of the lock finds nothing of its predecessor's still on the way to memory. */
  lemma CasWins(cfg: Config, b: Tso, s: Seq, c: nat)
    requires Buffered(cfg, b, s) && |s.cores| == cfg.friends + 1 && IsFriend(cfg, c)
    requires b.cores[c].pc.LockCas? && b.bufs[c] == [] && b.mem(Lock) == Num(0)
    requires s.stage.Free? && s.mem(Lock) == Num(0) && s.mem(REPLY) == Num(0)
    ensures Buffered(cfg, TsoCas(cfg, b, c), CasStep(cfg, s, c))
    ensures forall d: nat :: IsCore(cfg, d) ==> !Pending(b.bufs[d], REPLY) && !Pending(b.bufs[d], REQUEST)
  {
    var b', s' := TsoCas(cfg, b, c), CasStep(cfg, s, c);
    var m := s.(stage := s'.stage);
    assert Private(cfg, s.stage.last, b.bufs[s.stage.last]);
    HandOver(cfg, b, b.(cores := b'.cores), s, m);
    forall d: nat, l | IsCore(cfg, d) && Writer(cfg, s'.stage, l) == d
      ensures View(b'.bufs[d], b'.mem, l) == s'.mem(l)
    {
      if l == Lock {
        assert View(b'.bufs[c], b'.mem, Lock) == b'.mem(Lock);
      } else {
        ViewElsewhere(b.bufs[d], b.mem, b'.mem, l);
      }
    }
    assert Buffered(cfg, b', s');
  }

  // ---------- every step ----------

  /** A local store is private to its core, so it can follow any signal. */
  lemma LocalKeepsOrder(cfg: Config, b: Tso, b': Tso, st: Stage, c: nat, e: Option<Entry>)
    requires TsoShape(cfg, b) && TsoShape(cfg, b') && IsCore(cfg, c)
    requires Order(cfg, b, st) && (!st.Free? ==> c != st.f)
    requires b'.mem == b.mem && b'.bufs == b.bufs[c := Append(b.bufs[c], e)]
    requires e.Some? ==> e.value.loc.Mem? && cfg.owner(e.value.loc.a) == c
    ensures Order(cfg, b', st)
  {
    if e.Some? {
      match st
      case Free(last) =>
        if last == c && Pending(b.bufs[c], Lock) { SignalsAppend(cfg, c, b.bufs[c], Lock, e.value); }
      case Answered(f, _) =>
        if c == HAKASE && Pending(b.bufs[c], REPLY) { SignalsAppend(cfg, c, b.bufs[c], REPLY, e.value); }
      case _ =>
    }
  }

  lemma LocalMatched(cfg: Config, b: Tso, s: Seq, t: Spec, c: nat, op: Op)
    requires Linked(cfg, b, s, t) && TsoEnabled(cfg, b, Local(c, op))
    ensures Matched(cfg, b, s, Local(c, op))
  {
    assert (!s.stage.Free? ==> c != s.stage.f) && (s.stage.Serving? ==> c != HAKASE);
    LocalKeeps(cfg, b, s, c, op);
  }

  lemma LocalKeeps(cfg: Config, b: Tso, s: Seq, c: nat, op: Op)
    requires Buffered(cfg, b, s) && |s.cores| == cfg.friends + 1 && TsoEnabled(cfg, b, Local(c, op))
    requires !s.stage.Free? ==> c != s.stage.f
    ensures Matched(cfg, b, s, Local(c, op))
  {
    var b', s' := TsoStep(cfg, b, Local(c, op)), LocalStep(s, c, op);
    var e := OpStores(op);
    if op.Load? { assert View(b.bufs[c], b.mem, Mem(op.a)) == s.mem(Mem(op.a)); }
    StoreKeeps(cfg, b, s, b', s', c, e);
    LocalKeepsOrder(cfg, b, b', s.stage, c, e);
    assert Buffered(cfg, b', s');
  }

  lemma CallMatched(cfg: Config, b: Tso, s: Seq, t: Spec, l: Label)
    requires Linked(cfg, b, s, t) && TsoEnabled(cfg, b, l) && (l.Invoke? || l.Poll?)
    ensures Matched(cfg, b, s, l)
  {
    assert Buffered(cfg, TsoStep(cfg, b, l), SeqStep(cfg, s, SeqOf(cfg, b, l)));
  }

  lemma RacyMatched(cfg: Config, b: Tso, s: Seq, t: Spec, c: nat)
    requires Linked(cfg, b, s, t) && TsoEnabled(cfg, b, Exec(c)) && Racy(b.cores[c].pc)
    ensures Matched(cfg, b, s, Exec(c))
  {
    match b.cores[c].pc
    case LockRead(_) => LockReadMatched(cfg, b, s, t, c);
    case LockCas(_) => CasMatched(cfg, b, s, t, c);
    case Test => TestMatched(cfg, b, s, t, c);
    case Spin => SpinMatched(cfg, b, s, t, c);
  }

  lemma ExecMatched(cfg: Config, b: Tso, s: Seq, t: Spec, c: nat)
    requires Linked(cfg, b, s, t) && TsoEnabled(cfg, b, Exec(c))
    ensures Matched(cfg, b, s, Exec(c))
  {
    if Racy(b.cores[c].pc) {
      RacyMatched(cfg, b, s, t, c);
    } else if !Signalling(b.cores[c].pc) {
      PlainMatched(cfg, b, s, t, c);
    } else {
      match b.cores[c].pc
      case Raise => RaiseMatched(cfg, b, s, t, c);
      case Answer => AnswerMatched(cfg, b, s, t, c);
      case Release(_) => ReleaseMatched(cfg, b, s, t, c);
    }
  }

  /** Every step of the buffered machine is a step over one memory, or none. */
  lemma StepMatched(cfg: Config, b: Tso, s: Seq, t: Spec, l: Label)
    requires Linked(cfg, b, s, t) && TsoEnabled(cfg, b, l)
    ensures Matched(cfg, b, s, l)
  {
    match l
    case Local(c, op) => LocalMatched(cfg, b, s, t, c, op);
    case Flush(c) => FlushMatched(cfg, b, s, t, c);
    case Exec(c) => ExecMatched(cfg, b, s, t, c);
    case _ => CallMatched(cfg, b, s, t, l);
  }
}
