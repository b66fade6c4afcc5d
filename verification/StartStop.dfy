/**
  Starting and stopping any number of friend cores, over every interleaving: the stack each core takes
  in `entry64`, and the constructors, destructors and the stop flag in `friend_init`.
  */
module StartStop {
  import opened Wrappers

  // ---------- the machine ----------

  /** How many constructors and destructors there are, and where the binary ends. */
  datatype Program = Program(ctors: nat, dtors: nat, end: int)

  datatype Pc =
    | Off                    // before `entry64`
    | Stacked                // in `friend_init`, before the first atomic add
    | Constructing(k: nat)   // before constructor `k`
    | Main                   // in `friend_main`
    | Added(r: nat)          // after the second atomic add, which gave `r`
    | Destructing(k: nat)    // before destructor `k`
    | Halted

  /** `turn` records how many stacks were taken before the one of this core. */
  datatype Core = Core(pc: Pc, rsp: int, turn: Option<nat>)

  /** The three words of memory, and what has happened: the constructors and destructors run, each with its
      core; the core that constructs; the last core that started the destructors and how often that happened;
      whether a core has entered since; and how many had entered at the first return. */
  datatype Sys = Sys(cores: seq<Core>, offset: int, init: nat, returned: nat, flag: int,
                     carved: nat, built: seq<(nat, nat)>, torn: seq<(nat, nat)>,
                     builder: Option<nat>, closer: nat, passes: nat, late: bool, firstReturn: Option<nat>)

  const STACK_SIZE: int := 0x4000
  const FIRST_OFFSET: int := 0x2000
  const TWO31: int := 0x8000_0000
  const TWO32: int := 0x1_0000_0000

  /** `cltq`: the lower 32 bits as a signed number. */
  function SignExtend(x: int): int {
    if x < TWO31 then x else x - TWO32
  }

  function At(s: Sys, i: nat, pc: Pc): Sys
    requires i < |s.cores|
  {
    s.(cores := s.cores[i := s.cores[i].(pc := pc)])
  }

  /** `lock xaddl` on the offset. */
  function TakeStack(g: Program, s: Sys, i: nat): Sys
    requires i < |s.cores|
  {
    var core := Core(Stacked, g.end + SignExtend(s.offset), Some(s.carved));
    s.(cores := s.cores[i := core], offset := (s.offset + STACK_SIZE) % TWO32, carved := s.carved + 1)
  }

  function Enter(s: Sys, i: nat): Sys
    requires i < |s.cores|
  {
    var s' := At(s, i, if s.init == 0 then Constructing(0) else Main);
    s'.(init := s.init + 1, builder := if s.init == 0 then Some(i) else s.builder, late := s.late || s.passes > 0)
  }

  function Construct(g: Program, s: Sys, i: nat, k: nat): Sys
    requires i < |s.cores|
  {
    if k < g.ctors then At(s, i, Constructing(k + 1)).(built := s.built + [(i, k)]) else At(s, i, Main)
  }

  function Return(s: Sys, i: nat): Sys
    requires i < |s.cores|
  {
    At(s, i, Added(s.returned + 1)).(returned := s.returned + 1,
                                     firstReturn := if s.returned == 0 then Some(s.init) else s.firstReturn)
  }

  /** The comparison reads `init_count` after the add. */
  function Compare(s: Sys, i: nat, r: nat): Sys
    requires i < |s.cores|
  {
    if r == s.init then At(s, i, Destructing(0)).(passes := s.passes + 1, closer := i) else At(s, i, Halted)
  }

  function Destruct(g: Program, s: Sys, i: nat, k: nat): Sys
    requires i < |s.cores|
  {
    if k < g.dtors then At(s, i, Destructing(k + 1)).(torn := s.torn + [(i, k)]) else At(s, i, Halted).(flag := 1)
  }

  function Step(g: Program, s: Sys, i: nat): (s': Sys)
    requires i < |s.cores|
    ensures |s'.cores| == |s.cores|
  {
    match s.cores[i].pc
    case Off => TakeStack(g, s, i)
    case Stacked => Enter(s, i)
    case Constructing(k) => Construct(g, s, i, k)
    case Main => Return(s, i)
    case Added(r) => Compare(s, i, r)
    case Destructing(k) => Destruct(g, s, i, k)
    case Halted => s
  }

  predicate Schedule(n: nat, who: seq<nat>) {
    forall k :: 0 <= k < |who| ==> who[k] < n
  }

  lemma ScheduleTail(n: nat, who: seq<nat>)
    requires Schedule(n, who) && who != []
    ensures Schedule(n, who[1..])
  {
  }

  function Run(g: Program, s: Sys, who: seq<nat>): (s': Sys)
    requires Schedule(|s.cores|, who)
    ensures |s'.cores| == |s.cores|
    decreases |who|
  {
    if who == [] then s else Run(g, Step(g, s, who[0]), who[1..])
  }

  function Start(n: nat): Sys {
    Sys(seq(n, _ => Core(Off, 0, None)), FIRST_OFFSET, 0, 0, 0, 0, [], [], None, 0, 0, false, None)
  }

  // ---------- stacks ----------

  /** The 32-bit offset that the taker number `k` finds. */
  function OffsetOf(k: nat): int {
    FIRST_OFFSET + STACK_SIZE * k
  }

  predicate CoreStacked(g: Program, s: Sys, j: nat)
    requires j < |s.cores|
  {
    var c := s.cores[j];
    if c.pc == Off then c.turn == None
    else c.turn.Some? && c.turn.value < s.carved && c.rsp == g.end + SignExtend(OffsetOf(c.turn.value) % TWO32)
  }

  predicate TurnsDiffer(s: Sys, i: nat, j: nat)
    requires i < |s.cores| && j < |s.cores|
  {
    s.cores[i].turn.Some? ==> s.cores[i].turn != s.cores[j].turn
  }

  predicate StacksTaken(g: Program, s: Sys) {
    && s.offset == OffsetOf(s.carved) % TWO32
    && (forall j: nat :: j < |s.cores| ==> CoreStacked(g, s, j))
    && (forall i: nat, j: nat :: i < |s.cores| && j < |s.cores| && i != j ==> TurnsDiffer(s, i, j))
  }

  lemma OffsetAdvances(k: nat)
    ensures (OffsetOf(k) % TWO32 + STACK_SIZE) % TWO32 == OffsetOf(k + 1) % TWO32
  {
  }

  lemma TakeStackKeeps(g: Program, s: Sys, i: nat)
    requires StacksTaken(g, s) && i < |s.cores| && s.cores[i].pc == Off
    ensures StacksTaken(g, TakeStack(g, s, i))
  {
    OffsetAdvances(s.carved);
    var s' := TakeStack(g, s, i);
    forall j: nat | j < |s'.cores| ensures CoreStacked(g, s', j) {
      assert CoreStacked(g, s, j);
    }
    forall j: nat, k: nat | j < |s.cores| && k < |s.cores| && j != k ensures TurnsDiffer(s', j, k) {
      assert TurnsDiffer(s, j, k) && CoreStacked(g, s, j) && CoreStacked(g, s, k);
    }
  }

  /** Later steps of a core leave all stacks as they are. */
  lemma MoveKeepsStacks(g: Program, s: Sys, s': Sys, i: nat, pc: Pc)
    requires StacksTaken(g, s) && i < |s.cores| && s.cores[i].pc != Off && pc != Off
    requires s'.cores == s.cores[i := s.cores[i].(pc := pc)] && s'.offset == s.offset && s'.carved == s.carved
    ensures StacksTaken(g, s')
  {
    forall j: nat | j < |s'.cores| ensures CoreStacked(g, s', j) {
      assert CoreStacked(g, s, j);
    }
    forall j: nat, k: nat | j < |s.cores| && k < |s.cores| && j != k ensures TurnsDiffer(s', j, k) {
      assert TurnsDiffer(s, j, k);
    }
  }

  lemma StacksStep(g: Program, s: Sys, i: nat)
    requires StacksTaken(g, s) && i < |s.cores|
    ensures StacksTaken(g, Step(g, s, i))
  {
    var s' := Step(g, s, i);
    if s.cores[i].pc == Off {
      TakeStackKeeps(g, s, i);
    } else if s.cores[i].pc != Halted {
      MoveKeepsStacks(g, s, s', i, s'.cores[i].pc);
    }
  }

  lemma {:induction false} StacksRun(g: Program, s: Sys, who: seq<nat>)
    requires StacksTaken(g, s) && Schedule(|s.cores|, who)
    ensures StacksTaken(g, Run(g, s, who))
    decreases |who|
  {
    if who != [] {
      StacksStep(g, s, who[0]);
      StacksRun(g, Step(g, s, who[0]), who[1..]);
    }
  }

  /** Sign extension changes no offset below 2^31, and every one from there to 2^32. */
  lemma SignExtensionExactly(x: nat)
    ensures SignExtend(x % TWO32) == x <==> x < TWO31
  {
  }

  /** The stack of a core: the first has 0x2000 bytes, the others 0x4000. */
  function Lowest(c: Core): int
    requires c.turn.Some?
  {
    c.rsp - (if c.turn.value == 0 then 0x2000 else 0x4000)
  }

  lemma TopsApart(k: nat, l: nat)
    requires k < l
    ensures OffsetOf(k) + STACK_SIZE <= OffsetOf(l)
  {
  }

  /** Where the stack of a core is. */
  lemma StackOf(g: Program, s: Sys, i: nat)
    requires StacksTaken(g, s) && CountsRight(s) && i < |s.cores| && s.cores[i].pc != Off
    requires OffsetOf(|s.cores| - 1) < TWO31
    ensures var c := s.cores[i];
            && c.turn.Some? && c.rsp == g.end + OffsetOf(c.turn.value)
            && g.end <= Lowest(c) && c.turn.value < |s.cores|
  {
    assert CoreStacked(g, s, i);
    CountOrder(s.cores);
    SignExtensionExactly(OffsetOf(s.cores[i].turn.value));
  }

  /** In every run of `n` cores, as long as no offset reaches 2^31, the stacks of different cores are
      disjoint, their tops 0x4000 or more apart, and they lie above the end of the binary, each where its turn
      puts it. */
  lemma StacksDisjoint(g: Program, n: nat, who: seq<nat>, i: nat, j: nat)
    requires Schedule(n, who) && i < n && j < n && i != j && 0x2000 + 0x4000 * (n - 1) < 0x8000_0000
    requires var s := Run(g, Start(n), who); s.cores[i].pc != Off && s.cores[j].pc != Off
    ensures var s := Run(g, Start(n), who); var a, b := s.cores[i], s.cores[j];
            && a.turn.Some? && b.turn.Some?
            && g.end <= Lowest(a) && a.rsp == g.end + 0x2000 + 0x4000 * a.turn.value && a.turn.value < n
            && (a.rsp + 0x4000 <= b.rsp || b.rsp + 0x4000 <= a.rsp)
            && (a.rsp <= Lowest(b) || b.rsp <= Lowest(a))
  {
    var s := Run(g, Start(n), who);
    StacksRun(g, Start(n), who);
    CountsStart(n);
    CountsRun(g, Start(n), who);
    StackOf(g, s, i);
    StackOf(g, s, j);
    assert TurnsDiffer(s, i, j);
    var k, l := s.cores[i].turn.value, s.cores[j].turn.value;
    if k < l { TopsApart(k, l); } else { TopsApart(l, k); }
  }

  // ---------- counting cores ----------

  datatype Mark = HasStarted | HasEntered | HasReturned

  predicate Has(m: Mark, pc: Pc) {
    match m
    case HasStarted => pc != Off
    case HasEntered => pc != Off && pc != Stacked
    case HasReturned => pc.Added? || pc.Destructing? || pc.Halted?
  }

  function One(b: bool): nat {
    if b then 1 else 0
  }

  function Count(cores: seq<Core>, m: Mark): nat {
    if cores == [] then 0 else One(Has(m, cores[|cores| - 1].pc)) + Count(cores[..|cores| - 1], m)
  }

  lemma {:induction false} CountUpdate(cores: seq<Core>, m: Mark, i: nat, c: Core)
    requires i < |cores|
    ensures Count(cores[i := c], m) == Count(cores, m) - One(Has(m, cores[i].pc)) + One(Has(m, c.pc))
  {
    var n := |cores| - 1;
    if i < n {
      assert cores[i := c][..n] == cores[..n][i := c];
      CountUpdate(cores[..n], m, i, c);
    } else {
      assert cores[i := c][..n] == cores[..n];
    }
  }

  /** Fewer have returned than entered, and if as many have, then the same. */
  lemma {:induction false} CountOrder(cores: seq<Core>)
    ensures Count(cores, HasReturned) <= Count(cores, HasEntered) <= Count(cores, HasStarted) <= |cores|
    ensures Count(cores, HasReturned) == Count(cores, HasEntered) ==>
              forall j :: 0 <= j < |cores| && Has(HasEntered, cores[j].pc) ==> Has(HasReturned, cores[j].pc)
    ensures forall m :: Count(cores, m) == |cores| ==> forall j :: 0 <= j < |cores| ==> Has(m, cores[j].pc)
  {
    if cores != [] {
      var n := |cores| - 1;
      CountOrder(cores[..n]);
      assert forall m :: Count(cores[..n], m) <= n;
    }
  }

  lemma {:induction false} CountAll(cores: seq<Core>, m: Mark)
    requires forall j :: 0 <= j < |cores| ==> Has(m, cores[j].pc)
    ensures Count(cores, m) == |cores|
  {
    if cores != [] { CountAll(cores[..|cores| - 1], m); }
  }

  lemma {:induction false} CountNone(cores: seq<Core>, m: Mark)
    requires forall j :: 0 <= j < |cores| ==> cores[j].pc == Off
    ensures Count(cores, m) == 0
  {
    if cores != [] { CountNone(cores[..|cores| - 1], m); }
  }

  /** The counters count. */
  predicate CountsRight(s: Sys) {
    && s.carved == Count(s.cores, HasStarted)
    && s.init == Count(s.cores, HasEntered)
    && s.returned == Count(s.cores, HasReturned)
  }

  lemma CountsStart(n: nat)
    ensures CountsRight(Start(n))
  {
    CountNone(Start(n).cores, HasStarted);
    CountNone(Start(n).cores, HasEntered);
    CountNone(Start(n).cores, HasReturned);
  }

  lemma StepLocal(g: Program, s: Sys, i: nat)
    requires i < |s.cores|
    ensures Step(g, s, i).cores == s.cores[i := Step(g, s, i).cores[i]]
  {
  }

  /** A step changes each counter by what its core gains. */
  lemma StepCounts(g: Program, s: Sys, i: nat)
    requires i < |s.cores|
    ensures var s' := Step(g, s, i); var p, p' := s.cores[i].pc, s'.cores[i].pc;
            && s'.carved == s.carved - One(Has(HasStarted, p)) + One(Has(HasStarted, p'))
            && s'.init == s.init - One(Has(HasEntered, p)) + One(Has(HasEntered, p'))
            && s'.returned == s.returned - One(Has(HasReturned, p)) + One(Has(HasReturned, p'))
  {
  }

  lemma CountsStep(g: Program, s: Sys, i: nat)
    requires CountsRight(s) && i < |s.cores|
    ensures CountsRight(Step(g, s, i))
  {
    StepLocal(g, s, i);
    StepCounts(g, s, i);
    CountUpdates(s.cores, i, Step(g, s, i).cores[i]);
  }

  lemma CountUpdates(cores: seq<Core>, i: nat, c: Core)
    requires i < |cores|
    ensures forall m :: Count(cores[i := c], m) == Count(cores, m) - One(Has(m, cores[i].pc)) + One(Has(m, c.pc))
  {
    forall m ensures Count(cores[i := c], m) == Count(cores, m) - One(Has(m, cores[i].pc)) + One(Has(m, c.pc)) {
      CountUpdate(cores, m, i, c);
    }
  }

  lemma {:induction false} CountsRun(g: Program, s: Sys, who: seq<nat>)
    requires CountsRight(s) && Schedule(|s.cores|, who)
    ensures CountsRight(Run(g, s, who))
    decreases |who|
  {
    if who != [] {
      CountsStep(g, s, who[0]);
      CountsRun(g, Step(g, s, who[0]), who[1..]);
    }
  }

  // ---------- constructors ----------

  /** The first `k` constructors or destructors, run in order by one core. */
  function Runs(core: nat, k: nat): seq<(nat, nat)> {
    seq(k, i => (core, i))
  }

  lemma RunsOn(core: nat, k: nat)
    ensures Runs(core, k) + [(core, k)] == Runs(core, k + 1)
  {
  }

  /** How many constructors the core at `pc` has run. */
  function Constructed(g: Program, pc: Pc): nat {
    if pc.Constructing? then pc.k else g.ctors
  }

  ghost predicate Building(g: Program, s: Sys) {
    && (s.init == 0 <==> s.builder == None)
    && (forall j :: 0 <= j < |s.cores| && s.cores[j].pc.Constructing? ==>
          s.builder == Some(j) && s.cores[j].pc.k <= g.ctors)
    && (s.builder == None ==> s.built == [])
    && (s.builder.Some? ==>
      && s.builder.value < |s.cores| && Has(HasEntered, s.cores[s.builder.value].pc)
      && s.built == Runs(s.builder.value, Constructed(g, s.cores[s.builder.value].pc)))
  }

  lemma EnterBuilds(g: Program, s: Sys, i: nat)
    requires Building(g, s) && i < |s.cores| && s.cores[i].pc == Stacked
    ensures Building(g, Enter(s, i))
  {
    assert Runs(i, 0) == [];
  }

  lemma ConstructBuilds(g: Program, s: Sys, i: nat, k: nat)
    requires Building(g, s) && i < |s.cores| && s.cores[i].pc == Constructing(k)
    ensures Building(g, Construct(g, s, i, k))
  {
    RunsOn(i, k);
  }

  /** Steps of a core that is not constructing do not matter. */
  lemma OthersBuild(g: Program, s: Sys, s': Sys, i: nat)
    requires Building(g, s) && i < |s.cores| && |s'.cores| == |s.cores| && s'.cores == s.cores[i := s'.cores[i]]
    requires !s.cores[i].pc.Constructing? && !s'.cores[i].pc.Constructing?
    requires Has(HasEntered, s.cores[i].pc) ==> Has(HasEntered, s'.cores[i].pc)
    requires s'.init == s.init && s'.builder == s.builder && s'.built == s.built
    ensures Building(g, s')
  {
  }

  // ---------- destructors ----------

  predicate IsAdded(s: Sys, j: nat, r: nat)
    requires j < |s.cores|
  {
    s.cores[j].pc == Added(r)
  }

  /** The values of the second add are those up to `returned_count`, each given once. */
  ghost predicate Tickets(s: Sys) {
    && (forall j: nat, r: nat :: j < |s.cores| && IsAdded(s, j, r) ==> 1 <= r <= s.returned)
    && (forall i: nat, j: nat, r: nat ::
          i < |s.cores| && j < |s.cores| && IsAdded(s, i, r) && IsAdded(s, j, r) ==> i == j)
  }

  ghost predicate SomeAdded(s: Sys, r: nat) {
    exists j: nat :: j < |s.cores| && IsAdded(s, j, r)
  }

  ghost predicate SomeDestructing(s: Sys) {
    exists j :: 0 <= j < |s.cores| && s.cores[j].pc.Destructing?
  }

  /** When everyone who entered has returned, the last one is about to find that out, or somebody has. */
  ghost predicate Noticed(s: Sys) {
    && (s.init > 0 && s.returned == s.init ==> SomeAdded(s, s.returned) || (s.passes > 0 && !s.late) || s.passes >= 2)
    && (s.late ==> s.passes > 0) && (s.passes > 0 ==> s.returned > 0)
    && (s.flag == 0 || s.flag == 1) && (s.flag == 1 ==> s.passes > 0)
    && (s.passes > 0 ==> s.flag == 1 || SomeDestructing(s))
  }

  /** If nobody has entered since, that was the only time, and everyone who entered has returned. */
  ghost predicate Final(s: Sys) {
    s.passes > 0 && !s.late ==>
      && s.returned == s.init && s.passes == 1
      && forall j: nat, r: nat :: j < |s.cores| && IsAdded(s, j, r) ==> r < s.returned
  }

  function Destructed(g: Program, pc: Pc): nat {
    if pc.Destructing? then pc.k else g.dtors
  }

  /** The destructors of a single pass, in order, by one core. */
  ghost predicate Tearing(g: Program, s: Sys) {
    && (s.passes == 0 ==> s.torn == [] && !SomeDestructing(s))
    && (s.passes == 1 ==>
      && s.closer < |s.cores| && Has(HasReturned, s.cores[s.closer].pc) && !s.cores[s.closer].pc.Added?
      && (s.flag == 1 ==> s.cores[s.closer].pc == Halted)
      && (forall j :: 0 <= j < |s.cores| && s.cores[j].pc.Destructing? ==> j == s.closer && s.cores[j].pc.k <= g.dtors)
      && s.torn == Runs(s.closer, Destructed(g, s.cores[s.closer].pc)))
  }

  ghost predicate FirstReturn(s: Sys) {
    && (s.returned == 0 <==> s.firstReturn == None)
    && (s.firstReturn == Some(|s.cores|) ==> s.init == |s.cores| && !s.late)
  }

  /** A core that is inside keeps the counters apart; one that has not entered keeps a count low. */
  lemma Inside(s: Sys, i: nat)
    requires CountsRight(s) && i < |s.cores|
    ensures s.returned <= s.init <= |s.cores|
    ensures Has(HasEntered, s.cores[i].pc) && !Has(HasReturned, s.cores[i].pc) ==> s.returned < s.init
    ensures !Has(HasEntered, s.cores[i].pc) ==> s.init < |s.cores|
  {
    CountOrder(s.cores);
  }

  lemma AddedStays(s: Sys, s': Sys, i: nat, r: nat)
    requires i < |s.cores| && |s'.cores| == |s.cores| && s'.cores == s.cores[i := s'.cores[i]]
    requires SomeAdded(s, r) && !IsAdded(s, i, r)
    ensures SomeAdded(s', r)
  {
    var j: nat :| j < |s.cores| && IsAdded(s, j, r);
    assert IsAdded(s', j, r);
  }

  lemma DestructingStays(s: Sys, s': Sys, i: nat)
    requires i < |s.cores| && |s'.cores| == |s.cores| && s'.cores == s.cores[i := s'.cores[i]]
    requires SomeDestructing(s) && (!s.cores[i].pc.Destructing? || s'.cores[i].pc.Destructing?)
    ensures SomeDestructing(s')
  {
    var j :| 0 <= j < |s.cores| && s.cores[j].pc.Destructing?;
    assert s'.cores[j].pc.Destructing?;
  }

  /** All of the invariant that is about returning. */
  ghost predicate Closing(g: Program, s: Sys) {
    Tickets(s) && Noticed(s) && Final(s) && Tearing(g, s) && FirstReturn(s)
  }

  ghost predicate Outside(pc: Pc) {
    !Has(HasReturned, pc)
  }

  /** A step before the return that leaves the later words alone. */
  lemma QuietKeeps(g: Program, s: Sys, s': Sys, i: nat)
    requires Closing(g, s) && i < |s.cores| && |s'.cores| == |s.cores| && s'.cores == s.cores[i := s'.cores[i]]
    requires Outside(s.cores[i].pc) && Outside(s'.cores[i].pc)
    requires s'.init == s.init && s'.returned == s.returned && s'.flag == s.flag && s'.torn == s.torn
    requires s'.closer == s.closer && s'.passes == s.passes && s'.late == s.late && s'.firstReturn == s.firstReturn
    ensures Closing(g, s')
  {
    SameAdded(s, s', i);
    if SomeAdded(s, s.returned) { AddedStays(s, s', i, s.returned); }
    if SomeDestructing(s) { DestructingStays(s, s', i); }
  }

  /** Whoever else is between the add and the comparison stays there. */
  lemma SameAdded(s: Sys, s': Sys, i: nat)
    requires i < |s.cores| && |s'.cores| == |s.cores| && s'.cores == s.cores[i := s'.cores[i]]
    ensures forall j: nat, r: nat :: j < |s.cores| && j != i ==> IsAdded(s', j, r) == IsAdded(s, j, r)
  {
  }

  lemma EnterKeeps(g: Program, s: Sys, i: nat)
    requires CountsRight(s) && Closing(g, s) && i < |s.cores| && s.cores[i].pc == Stacked
    ensures Closing(g, Enter(s, i))
  {
    var s' := Enter(s, i);
    Inside(s, i);
    SameAdded(s, s', i);
    if SomeDestructing(s) { DestructingStays(s, s', i); }
  }

  lemma ReturnKeeps(g: Program, s: Sys, i: nat)
    requires CountsRight(s) && Closing(g, s) && i < |s.cores| && s.cores[i].pc == Main
    ensures Closing(g, Return(s, i))
  {
    var s' := Return(s, i);
    Inside(s, i);
    SameAdded(s, s', i);
    assert IsAdded(s', i, s'.returned);
    if SomeDestructing(s) { DestructingStays(s, s', i); }
  }

  lemma CompareKeeps(g: Program, s: Sys, i: nat, r: nat)
    requires CountsRight(s) && Closing(g, s) && i < |s.cores| && IsAdded(s, i, r)
    ensures Closing(g, Compare(s, i, r))
  {
    var s' := Compare(s, i, r);
    Inside(s, i);
    SameAdded(s, s', i);
    if r == s.init {
      assert s'.cores[i].pc.Destructing?;
      assert Runs(i, 0) == [];
    } else {
      if SomeAdded(s, s.returned) && r != s.returned { AddedStays(s, s', i, s.returned); }
      if SomeDestructing(s) { DestructingStays(s, s', i); }
    }
  }

  lemma DestructKeeps(g: Program, s: Sys, i: nat, k: nat)
    requires CountsRight(s) && Closing(g, s) && i < |s.cores| && s.cores[i].pc == Destructing(k)
    ensures Closing(g, Destruct(g, s, i, k))
  {
    var s' := Destruct(g, s, i, k);
    SameAdded(s, s', i);
    if SomeAdded(s, s.returned) { AddedStays(s, s', i, s.returned); }
    RunsOn(i, k);
    if k < g.dtors { DestructingStays(s, s', i); }
  }

  // ---------- the destructors of each core ----------

  /** The destructors that core `c` has run. */
  function TornBy(torn: seq<(nat, nat)>, c: nat): seq<(nat, nat)> {
    if torn == [] then []
    else
      var n := |torn| - 1;
      TornBy(torn[..n], c) + if torn[n].0 == c then [torn[n]] else []
  }

  lemma TornByOn(torn: seq<(nat, nat)>, e: (nat, nat), c: nat)
    ensures TornBy(torn + [e], c) == TornBy(torn, c) + if e.0 == c then [e] else []
  {
    assert (torn + [e])[..|torn|] == torn;
  }

  /** A core in its destructors has run those before, in order; one that has finished has run all or none. */
  predicate TornRight(g: Program, s: Sys, j: nat)
    requires j < |s.cores|
  {
    match s.cores[j].pc
    case Destructing(k) => k <= g.dtors && TornBy(s.torn, j) == Runs(j, k)
    case Halted => TornBy(s.torn, j) == [] || TornBy(s.torn, j) == Runs(j, g.dtors)
    case _ => TornBy(s.torn, j) == []
  }

  /** Some core has finished, with all destructors run. */
  ghost predicate SomeClosed(g: Program, s: Sys) {
    exists j: nat :: j < |s.cores| && ClosedBy(g, s, j)
  }

  predicate ClosedBy(g: Program, s: Sys, j: nat)
    requires j < |s.cores|
  {
    s.cores[j].pc == Halted && TornBy(s.torn, j) == Runs(j, g.dtors)
  }

  ghost predicate FlagEarned(g: Program, s: Sys) {
    (forall j: nat :: j < |s.cores| ==> TornRight(g, s, j)) && (s.flag == 1 ==> SomeClosed(g, s))
  }

  lemma ClosedStays(g: Program, s: Sys, s': Sys, i: nat)
    requires i < |s.cores| && |s'.cores| == |s.cores| && s'.cores == s.cores[i := s'.cores[i]]
    requires SomeClosed(g, s) && s.cores[i].pc != Halted
    requires forall j: nat :: j != i ==> TornBy(s'.torn, j) == TornBy(s.torn, j)
    ensures SomeClosed(g, s')
  {
    var j: nat :| j < |s.cores| && ClosedBy(g, s, j);
    assert ClosedBy(g, s', j);
  }

  lemma DestructorTorn(g: Program, s: Sys, i: nat, k: nat, j: nat)
    requires i < |s.cores| && j < |s.cores| && s.cores[i].pc == Destructing(k) && k < g.dtors
    requires TornRight(g, s, i) && TornRight(g, s, j)
    ensures TornRight(g, Destruct(g, s, i, k), j)
    ensures j != i ==> TornBy(s.torn + [(i, k)], j) == TornBy(s.torn, j)
  {
    TornByOn(s.torn, (i, k), j);
    RunsOn(i, k);
  }

  lemma EarnedRunning(g: Program, s: Sys, i: nat, k: nat)
    requires FlagEarned(g, s) && i < |s.cores| && s.cores[i].pc == Destructing(k) && k < g.dtors
    ensures FlagEarned(g, Destruct(g, s, i, k))
  {
    var s' := Destruct(g, s, i, k);
    assert TornRight(g, s, i);
    forall j: nat | j < |s.cores| ensures TornRight(g, s', j) {
      assert TornRight(g, s, j);
      DestructorTorn(g, s, i, k, j);
    }
    if s.flag == 1 {
      var j: nat :| j < |s.cores| && ClosedBy(g, s, j);
      DestructorTorn(g, s, i, k, j);
      assert ClosedBy(g, s', j);
    }
  }

  lemma EarnedFinish(g: Program, s: Sys, i: nat, k: nat)
    requires FlagEarned(g, s) && i < |s.cores| && s.cores[i].pc == Destructing(k) && k >= g.dtors
    ensures FlagEarned(g, Destruct(g, s, i, k))
  {
    var s' := Destruct(g, s, i, k);
    assert TornRight(g, s, i);
    forall j: nat | j < |s.cores| ensures TornRight(g, s', j) {
      assert TornRight(g, s, j);
    }
    assert ClosedBy(g, s', i);
  }

  /** Steps outside the destructors leave all that as it is. */
  lemma EarnedOther(g: Program, s: Sys, s': Sys, i: nat)
    requires FlagEarned(g, s) && i < |s.cores| && |s'.cores| == |s.cores| && s'.cores == s.cores[i := s'.cores[i]]
    requires !s.cores[i].pc.Destructing? && s.cores[i].pc != Halted && s'.torn == s.torn && s'.flag == s.flag
    requires s'.cores[i].pc.Destructing? ==> s'.cores[i].pc == Destructing(0)
    ensures FlagEarned(g, s')
  {
    assert TornRight(g, s, i) && Runs(i, 0) == [];
    forall j: nat | j < |s.cores| ensures TornRight(g, s', j) {
      assert TornRight(g, s, j);
    }
    if s.flag == 1 { ClosedStays(g, s, s', i); }
  }

  lemma EarnedStep(g: Program, s: Sys, i: nat)
    requires FlagEarned(g, s) && i < |s.cores|
    ensures FlagEarned(g, Step(g, s, i))
  {
    StepLocal(g, s, i);
    match s.cores[i].pc
    case Destructing(k) => if k < g.dtors { EarnedRunning(g, s, i, k); } else { EarnedFinish(g, s, i, k); }
    case Halted =>
    case _ =>
      StepOutside(g, s, i);
      EarnedOther(g, s, Step(g, s, i), i);
  }

  lemma StepOutside(g: Program, s: Sys, i: nat)
    requires i < |s.cores| && !s.cores[i].pc.Destructing?
    ensures var s' := Step(g, s, i);
            && s'.torn == s.torn && s'.flag == s.flag
            && (s'.cores[i].pc.Destructing? ==> s'.cores[i].pc == Destructing(0))
  {
  }

  // ---------- every run ----------

  ghost predicate Inv(g: Program, s: Sys) {
    CountsRight(s) && Building(g, s) && Closing(g, s) && FlagEarned(g, s)
  }

  lemma EarlyStep(g: Program, s: Sys, i: nat)
    requires Inv(g, s) && i < |s.cores| && (s.cores[i].pc.Off? || s.cores[i].pc.Stacked? || s.cores[i].pc.Constructing?)
    ensures Building(g, Step(g, s, i)) && Closing(g, Step(g, s, i))
  {
    var s' := Step(g, s, i);
    if s.cores[i].pc.Stacked? {
      EnterBuilds(g, s, i);
      EnterKeeps(g, s, i);
    } else {
      QuietKeeps(g, s, s', i);
      if s.cores[i].pc.Off? { OthersBuild(g, s, s', i); } else { ConstructBuilds(g, s, i, s.cores[i].pc.k); }
    }
  }

  lemma LateStep(g: Program, s: Sys, i: nat)
    requires Inv(g, s) && i < |s.cores| && (s.cores[i].pc.Main? || s.cores[i].pc.Added? || s.cores[i].pc.Destructing?)
    ensures Building(g, Step(g, s, i)) && Closing(g, Step(g, s, i))
  {
    OthersBuild(g, s, Step(g, s, i), i);
    match s.cores[i].pc
    case Main => ReturnKeeps(g, s, i);
    case Added(r) => CompareKeeps(g, s, i, r);
    case Destructing(k) => DestructKeeps(g, s, i, k);
  }

  lemma InvStep(g: Program, s: Sys, i: nat)
    requires Inv(g, s) && i < |s.cores|
    ensures Inv(g, Step(g, s, i))
  {
    CountsStep(g, s, i);
    EarnedStep(g, s, i);
    match s.cores[i].pc
    case Halted =>
    case Off => EarlyStep(g, s, i);
    case Stacked => EarlyStep(g, s, i);
    case Constructing(k) => EarlyStep(g, s, i);
    case Main => LateStep(g, s, i);
    case Added(r) => LateStep(g, s, i);
    case Destructing(k) => LateStep(g, s, i);
  }

  lemma {:induction false} InvRun(g: Program, s: Sys, who: seq<nat>)
    requires Inv(g, s) && Schedule(|s.cores|, who)
    ensures Inv(g, Run(g, s, who))
    decreases |who|
  {
    if who != [] {
      var s' := Step(g, s, who[0]);
      InvStep(g, s, who[0]);
      ScheduleTail(|s.cores|, who);
      InvRun(g, s', who[1..]);
      assert Run(g, s', who[1..]) == Run(g, s, who);
    }
  }

  ghost predicate Reachable(g: Program, n: nat, s: Sys) {
    exists who :: Schedule(n, who) && s == Run(g, Start(n), who)
  }

  lemma InvReachable(g: Program, n: nat, s: Sys)
    requires Reachable(g, n, s)
    ensures Inv(g, s) && |s.cores| == n
  {
    CountsStart(n);
    var who :| Schedule(n, who) && s == Run(g, Start(n), who);
    InvRun(g, Start(n), who);
  }

  /** The constructors are run in order, by the one core that entered first, and all of them before that
      core goes on to `friend_main`. */
  lemma ConstructorsOnce(g: Program, n: nat, s: Sys)
    requires Reachable(g, n, s)
    ensures s.init == 0 ==> s.built == []
    ensures |s.cores| == n && (s.init > 0 ==> s.builder.Some? && s.builder.value < n)
    ensures s.init > 0 ==> s.built == Runs(s.builder.value, Constructed(g, s.cores[s.builder.value].pc))
  {
    InvReachable(g, n, s);
  }

  /** No more have returned than entered, and when a core starts the destructors, everyone who entered has
      returned. */
  lemma DestructorsLast(g: Program, n: nat, s: Sys, i: nat)
    requires Reachable(g, n, s) && i < n && |s.cores| == n
    ensures s.returned <= s.init <= n
    ensures s.cores[i].pc.Added? && Step(g, s, i).cores[i].pc.Destructing? ==>
              forall j :: 0 <= j < n && Has(HasEntered, s.cores[j].pc) ==> Has(HasReturned, s.cores[j].pc)
  {
    InvReachable(g, n, s);
    CountOrder(s.cores);
    if s.cores[i].pc.Added? { assert IsAdded(s, i, s.cores[i].pc.r); }
  }

  /** No core is in `friend_init`. */
  predicate Quiescent(s: Sys) {
    forall j :: 0 <= j < |s.cores| ==> s.cores[j].pc == Off || s.cores[j].pc == Stacked || s.cores[j].pc == Halted
  }

  lemma {:induction false} QuiescentCounts(cores: seq<Core>)
    requires forall j :: 0 <= j < |cores| ==> cores[j].pc == Off || cores[j].pc == Stacked || cores[j].pc == Halted
    ensures Count(cores, HasReturned) == Count(cores, HasEntered)
  {
    if cores != [] { QuiescentCounts(cores[..|cores| - 1]); }
  }

  /** Whenever all cores that entered have finished, the flag is set. */
  lemma FlagIsSet(g: Program, n: nat, s: Sys)
    requires Reachable(g, n, s) && Quiescent(s) && s.init > 0
    ensures s.flag == 1
  {
    InvReachable(g, n, s);
    QuiescentCounts(s.cores);
    assert !SomeAdded(s, s.returned);
  }

  /** The flag is set only after some core has run all destructors, in order, and finished; if they were
      started once, they are all that was run. */
  lemma FlagAfterDestructors(g: Program, n: nat, s: Sys)
    requires Reachable(g, n, s) && s.flag == 1
    ensures s.passes > 0 && |s.cores| == n
    ensures exists c: nat :: c < n && s.cores[c].pc == Halted && TornBy(s.torn, c) == Runs(c, g.dtors)
    ensures s.passes == 1 ==> s.closer < n && s.cores[s.closer].pc == Halted && s.torn == Runs(s.closer, g.dtors)
  {
    InvReachable(g, n, s);
    var c: nat :| c < n && ClosedBy(g, s, c);
  }

  /** A core that has returned stays returned. */
  lemma ReturnedStays(g: Program, s: Sys, i: nat, j: nat)
    requires i < |s.cores| && j < |s.cores| && Has(HasReturned, s.cores[j].pc)
    ensures Has(HasReturned, Step(g, s, i).cores[j].pc)
  {
  }

  lemma {:induction false} ReturnedForGood(g: Program, s: Sys, who: seq<nat>, j: nat)
    requires Schedule(|s.cores|, who) && j < |s.cores| && Has(HasReturned, s.cores[j].pc)
    ensures Has(HasReturned, Run(g, s, who).cores[j].pc)
    decreases |who|
  {
    if who != [] {
      ScheduleTail(|s.cores|, who);
      ReturnedStays(g, s, who[0], j);
      ReturnedForGood(g, Step(g, s, who[0]), who[1..], j);
    }
  }

  predicate AllReturned(s: Sys) {
    forall j :: 0 <= j < |s.cores| ==> Has(HasReturned, s.cores[j].pc)
  }

  /** Core `i` is about to find, as the first, that all who entered have returned. */
  predicate FirstPass(s: Sys, i: nat) {
    i < |s.cores| && s.passes == 0 && s.cores[i].pc == Added(s.init)
  }

  /** The core alone in its destructors sets the flag. */
  lemma {:induction false} ClosesAlone(g: Program, s: Sys, i: nat, k: nat) returns (who: seq<nat>)
    requires i < |s.cores| && s.cores[i].pc == Destructing(k) && k <= g.dtors
    ensures Schedule(|s.cores|, who) && Run(g, s, who).flag == 1
    ensures forall j :: 0 <= j < |s.cores| && j != i ==> Run(g, s, who).cores[j] == s.cores[j]
    decreases g.dtors - k
  {
    var s1 := Step(g, s, i);
    if k < g.dtors {
      var rest := ClosesAlone(g, s1, i, k + 1);
      who := [i] + rest;
      assert who[1..] == rest;
    } else {
      who := [i];
      assert who[1..] == [];
    }
  }

  /** What hakase asks for: from here on, a set flag means that every core has returned. */
  ghost predicate FlagIsTrue(g: Program, s: Sys) {
    forall who :: Schedule(|s.cores|, who) && Run(g, s, who).flag == 1 ==> AllReturned(Run(g, s, who))
  }

  /** From the first start of the destructors on, a set flag always means that all cores have returned if and
      only if all cores had entered by then. */
  lemma FlagIsTrueExactly(g: Program, n: nat, s: Sys, i: nat)
    requires Reachable(g, n, s) && FirstPass(s, i)
    ensures FlagIsTrue(g, Step(g, s, i)) <==> s.init == n
  {
    InvReachable(g, n, s);
    CountOrder(s.cores);
    assert IsAdded(s, i, s.init);
    var s1 := Step(g, s, i);
    if s.init == n {
      forall who | Schedule(n, who) ensures AllReturned(Run(g, s1, who)) {
        AllStayReturned(g, s, s1, i, who);
      }
    } else {
      var who := ClosesAlone(g, s1, i, 0);
      var s2 := Run(g, s1, who);
      if AllReturned(s2) {
        assert AllReturned(s) by { OthersReturned(s, s2, i); }
        CountAll(s.cores, HasReturned);
      }
    }
  }

  lemma AllStayReturned(g: Program, s: Sys, s1: Sys, i: nat, who: seq<nat>)
    requires AllReturned(s) && i < |s.cores| && s1 == Step(g, s, i) && Schedule(|s.cores|, who)
    ensures AllReturned(Run(g, s1, who))
  {
    forall j | 0 <= j < |s.cores| ensures Has(HasReturned, Run(g, s1, who).cores[j].pc) {
      ReturnedStays(g, s, i, j);
      ReturnedForGood(g, s1, who, j);
    }
  }

  lemma OthersReturned(s: Sys, s2: Sys, i: nat)
    requires i < |s.cores| && |s2.cores| == |s.cores| && AllReturned(s2) && Has(HasReturned, s.cores[i].pc)
    requires forall j :: 0 <= j < |s.cores| && j != i ==> s2.cores[j] == s.cores[j]
    ensures AllReturned(s)
  {
    forall j | 0 <= j < |s.cores| ensures Has(HasReturned, s.cores[j].pc) {
      assert Has(HasReturned, s2.cores[j].pc);
    }
  }

  /** Whoever entered before the destructors were first started had returned then, and has for good. */
  lemma FlagMeansReturned(g: Program, n: nat, s: Sys, i: nat, who: seq<nat>, j: nat)
    requires Reachable(g, n, s) && FirstPass(s, i) && Schedule(n, who) && j < n && |s.cores| == n
    requires Has(HasEntered, s.cores[j].pc)
    ensures Has(HasReturned, Run(g, Step(g, s, i), who).cores[j].pc)
  {
    DestructorsLast(g, n, s, i);
    ReturnedStays(g, s, i, j);
    ReturnedForGood(g, Step(g, s, i), who, j);
  }

  /** In every run that sets the flag there was such a first start. */
  lemma FlagHasFirstPass(g: Program, n: nat, who: seq<nat>) returns (k: nat)
    requires Schedule(n, who) && Run(g, Start(n), who).flag == 1
    ensures k < |who| && Schedule(n, who[..k]) && Schedule(n, who[k + 1..])
    ensures FirstPass(Run(g, Start(n), who[..k]), who[k])
    ensures Run(g, Start(n), who) == Run(g, Step(g, Run(g, Start(n), who[..k]), who[k]), who[k + 1..])
  {
    CountsStart(n);
    InvRun(g, Start(n), who);
    k := PassFrom(g, Start(n), who);
  }

  lemma {:induction false} PassFrom(g: Program, s: Sys, who: seq<nat>) returns (k: nat)
    requires Schedule(|s.cores|, who) && s.passes == 0 && Run(g, s, who).passes > 0
    ensures k < |who| && Schedule(|s.cores|, who[..k]) && Schedule(|s.cores|, who[k + 1..])
    ensures FirstPass(Run(g, s, who[..k]), who[k])
    ensures Run(g, s, who) == Run(g, Step(g, Run(g, s, who[..k]), who[k]), who[k + 1..])
    decreases |who|
  {
    var s1 := Step(g, s, who[0]);
    ScheduleTail(|s.cores|, who);
    if s1.passes > 0 {
      k := 0;
      assert who[..0] == [];
    } else {
      var k1 := PassFrom(g, s1, who[1..]);
      k := k1 + 1;
      assert who[..k][1..] == who[1..][..k1] && who[k + 1..] == who[1..][k1 + 1..];
    }
  }

  predicate AllHalted(s: Sys) {
    forall j :: 0 <= j < |s.cores| ==> s.cores[j].pc == Halted
  }

  /** After all cores have finished, the destructors have been started once if and only if no core entered
      after they were started; then one core has run them all, in order. */
  lemma DestructorsOnceExactly(g: Program, n: nat, s: Sys)
    requires Reachable(g, n, s) && AllHalted(s) && n > 0
    ensures s.flag == 1 && s.passes >= 1
    ensures s.passes == 1 <==> !s.late
    ensures !s.late ==> s.torn == Runs(s.closer, g.dtors)
  {
    InvReachable(g, n, s);
    CountAll(s.cores, HasEntered);
    CountAll(s.cores, HasReturned);
    FlagIsSet(g, n, s);
    assert !SomeAdded(s, s.returned);
  }

  /** If all cores enter before the first returns, the destructors are run once, in order and by one core, and
      a set flag means that all cores have returned. */
  lemma EntriesFirst(g: Program, n: nat, s: Sys)
    requires Reachable(g, n, s) && s.firstReturn == Some(n)
    ensures s.passes <= 1 && !s.late && |s.cores| == n
    ensures s.passes == 0 ==> s.torn == []
    ensures s.passes == 1 ==> s.closer < n && s.torn == Runs(s.closer, Destructed(g, s.cores[s.closer].pc))
    ensures AllHalted(s) ==> s.passes == 1 && s.torn == Runs(s.closer, g.dtors)
    ensures s.flag == 1 ==> AllReturned(s) && s.passes == 1 && s.torn == Runs(s.closer, g.dtors)
  {
    InvReachable(g, n, s);
    CountOrder(s.cores);
    if s.flag == 1 { FlagAfterDestructors(g, n, s); }
    if AllHalted(s) { DestructorsOnceExactly(g, n, s); }
  }

  /** Without that, a set flag does not mean that all friends have finished, and the destructors can run more
      than once: here the second core starts after the first has finished. */
  lemma LateCore()
    ensures var g := Program(0, 1, 0);
            var s := Run(g, Start(2), [0, 0, 0, 0, 0, 0, 0]);
            && s.flag == 1 && s.cores[1].pc == Off
            && Run(g, s, [1, 1, 1, 1, 1, 1]).torn == [(0, 0), (1, 0)]
  {
  }
}
