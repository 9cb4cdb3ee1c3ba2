/** Whole runs of the log protocol. */
module LogRuns {
  import opened Blocks
  import opened LogDisk
  import opened LogProtocol

  /** `ls` is a run from `s`: each step is enabled where it is taken. */
  ghost predicate IsRun(g: Region, s: State, ls: seq<Label>)
    requires Inv(g, s)
    decreases |ls|
  {
    ls == [] || (Enabled(g, s, ls[0]) && (StepRefines(g, s, ls[0]); IsRun(g, Next(g, s, ls[0]), ls[1..])))
  }

  ghost function After(g: Region, s: State, ls: seq<Label>): (t: State)
    requires Inv(g, s) && IsRun(g, s, ls)
    ensures Inv(g, t)
    decreases |ls|
  {
    if ls == [] then s else StepRefines(g, s, ls[0]); After(g, Next(g, s, ls[0]), ls[1..])
  }

  /** The specification run that shadows `ls`. */
  ghost function SpecAfter(g: Region, s: State, ls: seq<Label>, a: Spec): Spec
    requires Inv(g, s) && IsRun(g, s, ls)
    decreases |ls|
  {
    if ls == [] then a
    else
      StepRefines(g, s, ls[0]);
      SpecAfter(g, Next(g, s, ls[0]), ls[1..], SpecNext(a, ls[0], s.phase.WriteHead?))
  }

  /** A kernel booting on a fresh disk meets the invariant, and what it stands for is the disk. */
  lemma FreshBoot(g: Region, s: State)
    requires Init(g, s)
    ensures Inv(g, s) && Abs(g, s).durable == Home(g, s.disk) == Abs(g, s).current
  {
  }

  /** Crash atomicity over whole runs: after any run, with crashes anywhere, what a
      reboot comes up with is what the specification holds durable. */
  lemma {:induction false} RunRefines(g: Region, s: State, ls: seq<Label>)
    requires Inv(g, s) && IsRun(g, s, ls)
    ensures Abs(g, After(g, s, ls)) == SpecAfter(g, s, ls, Abs(g, s))
    decreases |ls|
  {
    if ls != [] {
      StepRefines(g, s, ls[0]);
      RunRefines(g, Next(g, s, ls[0]), ls[1..]);
    }
  }

  ghost predicate OnlyRebooting(ls: seq<Label>) {
    forall i :: 0 <= i < |ls| ==> ls[i].Crash? || ls[i].RecoverStep?
  }

  lemma RebootStep(g: Region, s: State, l: Label)
    requires Inv(g, s) && Enabled(g, s, l) && (l.Crash? || l.RecoverStep?)
    ensures var t := Next(g, s, l);
            && Inv(g, t) && Recovered(g, t.disk) == Recovered(g, s.disk)
            && (t.phase.Up? ==> t.lh == [] && Home(g, t.disk) == Recovered(g, t.disk))
  {
    StepRefines(g, s, l);
  }

  /** However often the machine crashes while recovering, the system that finally
      comes up has exactly the blocks that were durable at the first crash. */
  lemma {:induction false} RebootsAgree(g: Region, s: State, ls: seq<Label>)
    requires Inv(g, s) && IsRun(g, s, ls) && OnlyRebooting(ls)
    ensures var t := After(g, s, ls);
            && Recovered(g, t.disk) == Recovered(g, s.disk)
            && (ls != [] && t.phase.Up? ==> t.lh == [] && Home(g, t.disk) == Recovered(g, s.disk))
    decreases |ls|
  {
    if ls != [] {
      RebootStep(g, s, ls[0]);
      hide Inv, Recovered, Home;
      RebootsAgree(g, Next(g, s, ls[0]), ls[1..]);
    }
  }

  /** Recovery and commit both finish: how many block writes are still to come. */
  function Remaining(s: State): nat {
    match s.phase
    case Up => 0
    case WriteLog(t) => 2 * |s.lh| + 5 + if t <= |s.lh| then |s.lh| - t else 0
    case WriteHead => 4 + |s.lh|
    case Install(t) => 3 + if t <= |s.lh| then |s.lh| - t else 0
    case ClearHead => 2
    case Finish => 1
    case Down => 4 + LOGSIZE
    case Reinstall(t) => 2 + if t <= |s.lh| then |s.lh| - t else 0
    case Reclear => 1
  }

  lemma Cons(g: Region, s: State, l: Label, ms: seq<Label>)
    requires Inv(g, s) && Enabled(g, s, l) && Inv(g, Next(g, s, l)) && IsRun(g, Next(g, s, l), ms)
    ensures IsRun(g, s, [l] + ms) && After(g, s, [l] + ms) == After(g, Next(g, s, l), ms)
  {
    assert ([l] + ms)[1..] == ms;
  }

  /** Idle, with `fs` both on the home blocks and durable. */
  ghost predicate Settled(g: Region, t: State, fs: Disk)
    requires Inv(g, t)
  {
    && t.phase.Up? && t.lh == [] && t.outstanding == 0 && !t.committing
    && (forall p :: 0 <= p < |t.ops| ==> !t.ops[p].Asleep?)
    && Home(g, t.disk) == fs && Abs(g, t) == Spec(fs, fs)
  }

  lemma FinishSettles(g: Region, s: State)
    requires Inv(g, s) && s.phase.Finish?
    ensures Inv(g, CommitNext(g, s)) && Settled(g, CommitNext(g, s), Abs(g, s).current)
  {
    StepRefines(g, s, CommitStep);
    EmptyLog(g, s);
    hide Recovered, Home, Over, Header, NoDup, ActiveCount, Unused, Installed, Copied;
  }

  /** With nothing logged, the home blocks are all there is. */
  lemma EmptyLog(g: Region, s: State)
    requires Inv(g, s) && s.lh == [] && MatchesPinned(s) && OnDisk(g, s.disk) == []
    ensures Over(Home(g, s.disk), s.pinned) == Home(g, s.disk) == Recovered(g, s.disk)
  {
    hide PhaseOk, DiskOk, NoDup;
  }

  lemma CommitAdvances(g: Region, s: State)
    requires Inv(g, s) && Running(s) && !s.phase.Up? && !s.phase.Finish?
    ensures var t := CommitNext(g, s);
            && Inv(g, t) && Running(t) && !t.phase.Up? && Remaining(t) < Remaining(s)
            && Abs(g, t).current == Abs(g, s).current
  {
    StepRefines(g, s, CommitStep);
  }

  /** A commit under way completes by its own steps, makes the current state
      durable, empties the log, and leaves nobody asleep in begin_op. */
  lemma {:induction false} CommitCompletes(g: Region, s: State) returns (ls: seq<Label>)
    requires Inv(g, s) && Running(s) && !s.phase.Up?
    ensures IsRun(g, s, ls) && (forall i :: 0 <= i < |ls| ==> ls[i].CommitStep?)
    ensures Settled(g, After(g, s, ls), Abs(g, s).current)
    decreases Remaining(s)
  {
    hide Inv, Settled, Abs;
    var ms := [];
    if s.phase.Finish? {
      FinishSettles(g, s);
    } else {
      CommitAdvances(g, s);
      ms := CommitCompletes(g, CommitNext(g, s));
    }
    Cons(g, s, CommitStep, ms);
    ls := [CommitStep] + ms;
  }

  lemma RecoveryAdvances(g: Region, s: State)
    requires Inv(g, s) && !Running(s)
    ensures var t := RecoverNext(g, s);
            && Inv(g, t) && Recovered(g, t.disk) == Recovered(g, s.disk) && Remaining(t) < Remaining(s)
            && (t.phase.Up? || !Running(t))
            && (t.phase.Up? ==> t.lh == [] && Home(g, t.disk) == Recovered(g, t.disk))
  {
    hide Recovered, Home, Over, NoDup, Copied, OpsOk, PutHeader;
    RecoverKeeps(g, s);
    var t := RecoverNext(g, s);
    if t.phase.Up? { EmptyLog(g, t); }
  }

  /** From any crash, recovery by itself brings the system up. */
  lemma {:induction false} RecoveryCompletes(g: Region, s: State) returns (ls: seq<Label>)
    requires Inv(g, s) && !Running(s)
    ensures IsRun(g, s, ls) && (forall i :: 0 <= i < |ls| ==> ls[i].RecoverStep?)
    ensures var t := After(g, s, ls); t.phase.Up? && t.lh == [] && Home(g, t.disk) == Recovered(g, s.disk)
    decreases Remaining(s)
  {
    RecoveryAdvances(g, s);
    var ms := [];
    if !RecoverNext(g, s).phase.Up? {
      ms := RecoveryCompletes(g, RecoverNext(g, s));
    }
    Cons(g, s, RecoverStep, ms);
    ls := [RecoverStep] + ms;
  }

  /** Whoever is asleep in begin_op would be refused if it looked again. */
  ghost predicate SleepersRefused(s: State) {
    forall p :: 0 <= p < |s.ops| && s.ops[p].Asleep? ==>
      s.committing || |s.lh| + (s.outstanding + 1) * MAXOPBLOCKS > LOGSIZE
  }

  lemma RefusedKeeps(g: Region, s: State, l: Label)
    requires Inv(g, s) && SleepersRefused(s) && Enabled(g, s, l)
    ensures SleepersRefused(Next(g, s, l))
  {
    hide GoodDisk, GoodList, DiskOk, PutHeader, OnDisk, Slot;
    match l {
      case Begin(p) =>
      case Write(p, b, v) =>
      case End(p) =>
      case CommitStep =>
      case Crash =>
      case RecoverStep =>
    }
  }

  /** No wakeup is missed: from a fresh boot on, a process is asleep in begin_op only while a commit
      is under way or the reservations leave no room for one more operation. */
  lemma {:induction false} NoMissedAdmission(g: Region, s: State, ls: seq<Label>)
    requires Inv(g, s) && IsRun(g, s, ls) && (Init(g, s) || SleepersRefused(s))
    ensures SleepersRefused(After(g, s, ls))
    decreases |ls|
  {
    hide Inv;
    if ls != [] {
      RefusedKeeps(g, s, ls[0]);
      StepRefines(g, s, ls[0]);
      NoMissedAdmission(g, Next(g, s, ls[0]), ls[1..]);
    }
  }

  /** What a step does to the operation of process p. It enters one, or goes to sleep, exactly by its
      own begin_op, as one more reservation fits or not; it sleeps until an end_op leaves others in
      progress, a commit finishes or the machine crashes; and it leaves by its own end_op or a crash. */
  ghost predicate OpMoves(s: State, l: Label, p: nat, a: Op, b: Op) {
    match a
    case Idle =>
      if l == Begin(p)
      then b == if s.committing || |s.lh| + (s.outstanding + 1) * MAXOPBLOCKS > LOGSIZE then Asleep else Active(0)
      else b == Idle
    case Asleep =>
      b == if (l.End? && s.outstanding > 1) || (l.CommitStep? && s.phase.Finish?) || l.Crash? then Idle else Asleep
    case Active(used) =>
      if l == End(p) || l.Crash? then b == Idle
      else if l.Write? && l.p == p && l.b !in s.lh then b == Active(used + 1) else b == a
  }

  lemma OpLife(g: Region, s: State, l: Label, p: nat)
    requires Inv(g, s) && Enabled(g, s, l) && p < |s.ops|
    ensures p < |Next(g, s, l).ops| && OpMoves(s, l, p, s.ops[p], Next(g, s, l).ops[p])
  {
    hide GoodDisk, GoodList, DiskOk, PutHeader, OnDisk, Slot;
    if l.CommitStep? { BudgetBounds(s.ops); }
  }

  /** The end of an operation that logged nothing, when it is the last, writes no block. */
  lemma EmptyCommit(g: Region, s: State, p: nat)
    requires Inv(g, s) && Enabled(g, s, End(p)) && s.outstanding == 1 && s.lh == []
    ensures var e := Next(g, s, End(p));
            && Inv(g, e) && Enabled(g, e, CommitStep) && e.disk == s.disk
            && Next(g, e, CommitStep).phase.Up? && Next(g, e, CommitStep).disk == s.disk
  {
    StepRefines(g, s, End(p));
    hide GoodDisk, GoodList, DiskOk;
  }

  /** Nobody waits in begin_op with no one left to wake it. */
  lemma NobodyStranded(g: Region, s: State, ls: seq<Label>, p: nat)
    requires Inv(g, s) && IsRun(g, s, ls) && p < |After(g, s, ls).ops|
    requires After(g, s, ls).ops[p].Asleep?
    ensures var t := After(g, s, ls);
            t.committing || exists q :: 0 <= q < |t.ops| && t.ops[q].Active?
  {
    var t := After(g, s, ls);
    if forall q :: 0 <= q < |t.ops| ==> !t.ops[q].Active? {
      NoActiveCount(t.ops);
    }
  }

  lemma {:induction false} NoActiveCount(ops: seq<Op>)
    requires forall q :: 0 <= q < |ops| ==> !ops[q].Active?
    ensures ActiveCount(ops) == 0
  {
    if ops != [] { NoActiveCount(ops[1..]); }
  }

  /** With room for LOGSIZE blocks after the header, log_write never panics on an
      operation that still has budget. */
  lemma BudgetSuffices(g: Region, s: State, p: nat)
    requires Inv(g, s) && Running(s) && p < |s.ops|
    requires s.ops[p].Active? && s.ops[p].used < MAXOPBLOCKS
    requires g.size >= LOGSIZE + 1
    ensures !TooBig(g, s)
  {
    BudgetBounds(s.ops);
  }

  // The bound is exact: a run that fills the log.

  /** Thirty distinct home blocks. */
  ghost predicate Thirty(g: Region, d: Disk, hb: seq<nat>) {
    && |hb| == LOGSIZE && NoDup(hb)
    && forall i :: 0 <= i < LOGSIZE ==> hb[i] < |d| && !InLog(g, hb[i])
  }

  /** The first k of them logged by three operations, ten each. */
  ghost predicate Filled(g: Region, s: State, hb: seq<nat>, k: nat) {
    && s.phase.Up? && Thirty(g, s.disk, hb) && k <= LOGSIZE && s.lh == hb[..k]
    && |s.ops| >= 3
    && s.ops[0] == Active(Share(k, 0)) && s.ops[1] == Active(Share(k, 1)) && s.ops[2] == Active(Share(k, 2))
  }

  function Share(k: nat, q: nat): nat {
    if k <= 10 * q then 0 else if k >= 10 * q + 10 then 10 else k - 10 * q
  }

  /** Which of the three logs block k. */
  function Writer(k: nat): nat { if k < 10 then 0 else if k < 20 then 1 else 2 }

  lemma FillShape(g: Region, t: State, hb: seq<nat>, pinned: Buffers, k: nat)
    requires Filled(g, t, hb, k) && k < LOGSIZE
    ensures hb[k] !in t.lh && t.ops[Writer(k)].used < MAXOPBLOCKS
    ensures Filled(g, t.(pinned := pinned, lh := t.lh + [hb[k]],
                         ops := t.ops[Writer(k) := Active(t.ops[Writer(k)].used + 1)]), hb, k + 1)
  {
    assert forall i :: 0 <= i < k ==> t.lh[i] == hb[i] != hb[k];
    assert hb[..k + 1] == hb[..k] + [hb[k]];
  }

  lemma FillStep(g: Region, t: State, hb: seq<nat>, v: Block, k: nat)
    requires Inv(g, t) && Filled(g, t, hb, k) && k < Capacity(g)
    ensures var l := Write(Writer(k), hb[k], v);
            Enabled(g, t, l) && Inv(g, Next(g, t, l)) && Filled(g, Next(g, t, l), hb, k + 1)
  {
    FillShape(g, t, hb, t.pinned[hb[k] := v], k);
    WriteKeeps(g, t, Writer(k), hb[k], v);
  }

  lemma {:induction false} FillLog(g: Region, s: State, hb: seq<nat>, v: Block, j: nat, k: nat) returns (ls: seq<Label>)
    requires Inv(g, s) && Filled(g, s, hb, j) && j <= k <= Capacity(g)
    ensures IsRun(g, s, ls) && Filled(g, After(g, s, ls), hb, k)
    decreases k - j
  {
    if j == k {
      ls := [];
    } else {
      FillStep(g, s, hb, v, j);
      var l := Write(Writer(j), hb[j], v);
      var ms := FillLog(g, Next(g, s, l), hb, v, j + 1, k);
      Cons(g, s, l, ms);
      ls := [l] + ms;
    }
  }

  /** The starting point: idle, three processes, and thirty blocks to write. */
  ghost predicate Fresh(g: Region, s: State, hb: seq<nat>) {
    && s.phase.Up? && s.lh == [] && s.outstanding == 0 && |s.ops| >= 3
    && (forall q :: 0 <= q < 3 ==> s.ops[q].Idle?)
    && Thirty(g, s.disk, hb)
  }

  lemma FillFromFresh(g: Region, s: State, hb: seq<nat>, v: Block, k: nat) returns (ls: seq<Label>)
    requires Inv(g, s) && Fresh(g, s, hb) && k <= Capacity(g)
    ensures IsRun(g, s, ls) && Filled(g, After(g, s, ls), hb, k)
  {
    BeginKeeps(g, s, 0);
    var s1 := Next(g, s, Begin(0));
    BeginKeeps(g, s1, 1);
    var s2 := Next(g, s1, Begin(1));
    BeginKeeps(g, s2, 2);
    var s3 := Next(g, s2, Begin(2));
    ls := FillLog(g, s3, hb, v, 0, k);
    Cons(g, s2, Begin(2), ls);
    ls := [Begin(2)] + ls;
    Cons(g, s1, Begin(1), ls);
    ls := [Begin(1)] + ls;
    Cons(g, s, Begin(0), ls);
    ls := [Begin(0)] + ls;
  }

  /** When the region is any smaller, three operations, none over its budget, reach a
      state in which one with budget left makes log_write panic. */
  lemma SmallLogPanics(g: Region, s: State, hb: seq<nat>, v: Block) returns (ls: seq<Label>, p: nat)
    requires Inv(g, s) && Fresh(g, s, hb) && g.size <= LOGSIZE
    ensures IsRun(g, s, ls)
    ensures var t := After(g, s, ls);
            p < |t.ops| && t.ops[p].Active? && t.ops[p].used < MAXOPBLOCKS && TooBig(g, t)
  {
    ls := FillFromFresh(g, s, hb, v, g.size - 1);
    p := Writer(g.size - 1);
  }

  /** Even with a full-size region, an operation that has spent its budget panics on
      rewriting a block it already logged, because the space test comes first. */
  lemma FullLogRefusesAbsorption(g: Region, s: State, hb: seq<nat>, v: Block) returns (ls: seq<Label>)
    requires Inv(g, s) && Fresh(g, s, hb) && g.size > LOGSIZE
    ensures IsRun(g, s, ls)
    ensures var t := After(g, s, ls); MayWrite(g, t, 0, hb[0]) && hb[0] in t.lh && TooBig(g, t)
  {
    ls := FillFromFresh(g, s, hb, v, LOGSIZE);
    assert After(g, s, ls).lh[0] == hb[0];
  }
}
