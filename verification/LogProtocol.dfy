/** kernel/log.c as a protocol: any number of processes running file-system
    operations, group commit, and crashes between any two block writes. */
module LogProtocol {
  import opened Blocks
  import opened LogDisk

  /** Where a process stands with respect to the log. */
  datatype Op = Idle | Asleep | Active(used: nat)

  /** What the log code does next: nothing (Up), one of the block writes of
      commit(), or one of those of recover_from_log(). */
  datatype Phase =
    | Up
    | WriteLog(tail: nat) | WriteHead | Install(tail: nat) | ClearHead | Finish
    | Down | Reinstall(tail: nat) | Reclear

  /** `pinned` holds the buffers that log_write pinned in the cache; `outstanding`,
      `committing` and `lh` are the fields of struct log. */
  datatype State = State(disk: Disk, pinned: Buffers, lh: seq<nat>, outstanding: nat,
                         committing: bool, phase: Phase, ops: seq<Op>)

  datatype Label =
    | Begin(p: nat)
    | Write(p: nat, b: nat, v: Block)
    | End(p: nat)
    | CommitStep
    | Crash
    | RecoverStep

  // Counting operations.

  function ActiveCount(ops: seq<Op>): nat {
    if ops == [] then 0 else (if ops[0].Active? then 1 else 0) + ActiveCount(ops[1..])
  }

  /** Reservations that active operations have made and not yet used. */
  function Unused(ops: seq<Op>): int {
    if ops == [] then 0
    else (if ops[0].Active? then MAXOPBLOCKS - ops[0].used else 0) + Unused(ops[1..])
  }

  function Weight(o: Op): int { if o.Active? then MAXOPBLOCKS - o.used else 0 }
  function Count(o: Op): int { if o.Active? then 1 else 0 }

  lemma {:induction false} UpdateOps(ops: seq<Op>, p: nat, o: Op)
    requires p < |ops|
    ensures ActiveCount(ops[p := o]) == ActiveCount(ops) - Count(ops[p]) + Count(o)
    ensures Unused(ops[p := o]) == Unused(ops) - Weight(ops[p]) + Weight(o)
  {
    if p == 0 {
      assert ops[p := o][1..] == ops[1..];
    } else {
      assert ops[p := o][1..] == ops[1..][p - 1 := o];
      UpdateOps(ops[1..], p - 1, o);
    }
  }

  function Wake(ops: seq<Op>): (r: seq<Op>)
    ensures |r| == |ops|
    ensures forall p :: 0 <= p < |ops| ==> r[p] == if ops[p].Asleep? then Idle else ops[p]
    ensures ActiveCount(r) == ActiveCount(ops) && Unused(r) == Unused(ops)
  {
    if ops == [] then [] else [if ops[0].Asleep? then Idle else ops[0]] + Wake(ops[1..])
  }

  lemma {:induction false} BudgetBounds(ops: seq<Op>)
    requires forall p :: 0 <= p < |ops| && ops[p].Active? ==> ops[p].used <= MAXOPBLOCKS
    ensures 0 <= Unused(ops) <= MAXOPBLOCKS * ActiveCount(ops)
    ensures forall p :: 0 <= p < |ops| && ops[p].Active? ==> Weight(ops[p]) <= Unused(ops) && ActiveCount(ops) > 0
  {
    if ops != [] { BudgetBounds(ops[1..]); }
  }

  // One step.

  /** The two tests at the head of log_write. */
  predicate TooBig(g: Region, s: State) { |s.lh| >= LOGSIZE || |s.lh| >= g.size - 1 }

  predicate Running(s: State) { !s.phase.Down? && !s.phase.Reinstall? && !s.phase.Reclear? }

  /** begin_op's admission test, made under log.lock. */
  predicate Admits(s: State) {
    !s.committing && |s.lh| + (s.outstanding + 1) * MAXOPBLOCKS <= LOGSIZE
  }

  /** Callers only log home blocks, and a call that adds a block is within the
      caller's budget of MAXOPBLOCKS. */
  predicate MayWrite(g: Region, s: State, p: nat, b: nat) {
    && p < |s.ops| && s.ops[p].Active?
    && b < |s.disk| && !InLog(g, b)
    && (b in s.lh || s.ops[p].used < MAXOPBLOCKS)
  }

  ghost predicate Enabled(g: Region, s: State, l: Label) {
    match l
    case Begin(p) => Running(s) && p < |s.ops| && s.ops[p].Idle?
    case Write(p, b, v) => Running(s) && MayWrite(g, s, p, b) && !TooBig(g, s)
    case End(p) => Running(s) && p < |s.ops| && s.ops[p].Active?
    case CommitStep => Running(s) && !s.phase.Up?
    case Crash => true
    case RecoverStep => !Running(s)
  }

  function CommitNext(g: Region, s: State): State
    requires Inv(g, s) && Running(s) && !s.phase.Up?
  {
    match s.phase
    case WriteLog(t) =>
      if t < |s.lh| then s.(disk := s.disk[Slot(g, t) := s.pinned[s.lh[t]]], phase := WriteLog(t + 1))
      else s.(phase := WriteHead)
    case WriteHead => s.(disk := s.disk[g.start := PutHeader(s.disk[g.start], s.lh)], phase := Install(0))
    case Install(t) =>
      if t < |s.lh| then s.(disk := s.disk[s.lh[t] := s.disk[Slot(g, t)]], phase := Install(t + 1))
      else s.(lh := [], pinned := map[], phase := ClearHead)
    case ClearHead => s.(disk := s.disk[g.start := PutHeader(s.disk[g.start], s.lh)], phase := Finish)
    case Finish => s.(committing := false, phase := Up, ops := Wake(s.ops))
  }

  function RecoverNext(g: Region, s: State): State
    requires Inv(g, s) && !Running(s)
  {
    match s.phase
    case Down => s.(lh := OnDisk(g, s.disk), phase := Reinstall(0))
    case Reinstall(t) =>
      if t < |s.lh| then s.(disk := s.disk[s.lh[t] := s.disk[Slot(g, t)]], phase := Reinstall(t + 1))
      else s.(lh := [], phase := Reclear)
    case Reclear => s.(disk := s.disk[g.start := PutHeader(s.disk[g.start], s.lh)], phase := Up)
  }

  function Next(g: Region, s: State, l: Label): State
    requires Inv(g, s) && Enabled(g, s, l)
  {
    match l
    case Begin(p) =>
      if Admits(s) then s.(outstanding := s.outstanding + 1, ops := s.ops[p := Active(0)])
      else s.(ops := s.ops[p := Asleep])
    case Write(p, b, v) =>
      if b in s.lh then s.(pinned := s.pinned[b := v])
      else s.(pinned := s.pinned[b := v], lh := s.lh + [b], ops := s.ops[p := Active(s.ops[p].used + 1)])
    case End(p) =>
      BudgetBounds(s.ops);
      var t := s.(outstanding := s.outstanding - 1, ops := s.ops[p := Idle]);
      if t.outstanding == 0 then t.(committing := true, phase := if |s.lh| > 0 then WriteLog(0) else Finish)
      else t.(ops := Wake(t.ops))
    case CommitStep => CommitNext(g, s)
    case Crash => State(s.disk, map[], [], 0, false, Down, seq(|s.ops|, _ => Idle))
    case RecoverStep => RecoverNext(g, s)
  }

  // The invariant.

  /** Reservations are honoured, and nobody sleeps in begin_op with no one left to
      wake it: a sleeper implies an active operation or a commit under way. */
  ghost predicate OpsOk(s: State) {
    && s.outstanding == ActiveCount(s.ops)
    && (forall p :: 0 <= p < |s.ops| && s.ops[p].Active? ==> s.ops[p].used <= MAXOPBLOCKS)
    && |s.lh| + Unused(s.ops) <= LOGSIZE
    && (s.outstanding == 0 && !s.committing ==> s.lh == [])
    && (s.outstanding == 0 && !s.committing ==> forall p :: 0 <= p < |s.ops| ==> !s.ops[p].Asleep?)
    && (s.committing ==> s.outstanding == 0)
  }

  /** Log slots 0..k hold the pinned contents of the first k logged blocks. */
  ghost predicate Copied(g: Region, s: State, k: nat)
    requires k <= |s.lh| <= Capacity(g) && HasRegion(g, s.disk) && MatchesPinned(s)
  {
    forall i :: 0 <= i < k ==> s.disk[Slot(g, i)] == s.pinned[s.lh[i]]
  }

  ghost predicate MatchesPinned(s: State) {
    && (forall i :: 0 <= i < |s.lh| ==> s.lh[i] in s.pinned)
    && (forall b :: b in s.pinned ==> b in s.lh)
  }

  ghost predicate DiskOk(g: Region, s: State)
    requires GoodDisk(g, s.disk) && GoodList(g, s.disk, s.lh)
  {
    match s.phase
    case Up => OnDisk(g, s.disk) == [] && MatchesPinned(s)
    case WriteLog(t) => OnDisk(g, s.disk) == [] && t <= |s.lh| && MatchesPinned(s) && Copied(g, s, t)
    case WriteHead => OnDisk(g, s.disk) == [] && MatchesPinned(s) && Copied(g, s, |s.lh|)
    case Install(t) =>
      && OnDisk(g, s.disk) == s.lh && t <= |s.lh| && MatchesPinned(s) && Copied(g, s, |s.lh|)
      && Installed(g, s.disk, s.lh, t)
    case ClearHead =>
      && s.lh == [] && MatchesPinned(s)
      && Installed(g, s.disk, OnDisk(g, s.disk), |OnDisk(g, s.disk)|)
    case Finish => OnDisk(g, s.disk) == [] && s.lh == [] && MatchesPinned(s)
    case Down => true
    case Reinstall(t) => OnDisk(g, s.disk) == s.lh && t <= |s.lh| && Installed(g, s.disk, s.lh, t)
    case Reclear => s.lh == [] && Installed(g, s.disk, OnDisk(g, s.disk), |OnDisk(g, s.disk)|)
  }

  ghost predicate PhaseOk(s: State) {
    && (Running(s) ==> (s.committing <==> !s.phase.Up?) && OpsOk(s))
    && (!Running(s) ==> s.outstanding == 0 && !s.committing && s.pinned == map[]
                        && forall p :: 0 <= p < |s.ops| ==> s.ops[p].Idle?)
  }

  ghost predicate Inv(g: Region, s: State) {
    && GoodDisk(g, s.disk)
    && GoodList(g, s.disk, s.lh)
    && PhaseOk(s)
    && DiskOk(g, s)
  }

  /** A disk as mkfs leaves it, found by a booting kernel. */
  ghost predicate Init(g: Region, s: State) {
    && GoodDisk(g, s.disk) && OnDisk(g, s.disk) == []
    && s == State(s.disk, map[], [], 0, false, Down, seq(|s.ops|, _ => Idle))
  }

  // The file system the protocol stands for: `durable` survives a crash, `current`
  // is what operations read.

  datatype Spec = Spec(durable: Disk, current: Disk)

  ghost function Abs(g: Region, s: State): Spec
    requires Inv(g, s)
  {
    var durable := Recovered(g, s.disk);
    Spec(durable, if Running(s) then Over(Home(g, s.disk), s.pinned) else durable)
  }

  /** The specification: writes touch `current` only, the commit point makes all of
      `current` durable in one step, and a crash falls back to `durable`. */
  function SpecNext(a: Spec, l: Label, atCommit: bool): Spec {
    match l
    case Write(p, b, v) => if b < |a.current| then a.(current := a.current[b := v]) else a
    case CommitStep => if atCommit then Spec(a.current, a.current) else a
    case Crash => Spec(a.durable, a.durable)
    case _ => a
  }

  lemma BeginKeeps(g: Region, s: State, p: nat)
    requires Inv(g, s) && Enabled(g, s, Begin(p))
    ensures Inv(g, Next(g, s, Begin(p)))
  {
    UpdateOps(s.ops, p, Active(0));
    UpdateOps(s.ops, p, Asleep);
    BudgetBounds(s.ops);
  }

  lemma WriteKeeps(g: Region, s: State, p: nat, b: nat, v: Block)
    requires Inv(g, s) && Enabled(g, s, Write(p, b, v))
    ensures Inv(g, Next(g, s, Write(p, b, v)))
    ensures Abs(g, Next(g, s, Write(p, b, v))) == SpecNext(Abs(g, s), Write(p, b, v), false)
  {
    BudgetBounds(s.ops);
    assert s.phase.Up?;
    var t := Next(g, s, Write(p, b, v));
    if b !in s.lh {
      UpdateOps(s.ops, p, Active(s.ops[p].used + 1));
      BudgetBounds(t.ops);
    }
    assert Over(Home(g, s.disk), t.pinned) == (Over(Home(g, s.disk), s.pinned))[b := v];
  }

  lemma EndKeeps(g: Region, s: State, p: nat)
    requires Inv(g, s) && Enabled(g, s, End(p))
    ensures Inv(g, Next(g, s, End(p)))
  {
    BudgetBounds(s.ops);
    UpdateOps(s.ops, p, Idle);
  }

  lemma FillKeeps(g: Region, s: State)
    requires Inv(g, s) && s.phase.WriteLog?
    ensures Inv(g, CommitNext(g, s)) && Abs(g, CommitNext(g, s)) == Abs(g, s)
  {
    var t := s.phase.tail;
    if t < |s.lh| { FillSlot(g, s.disk, t, s.pinned[s.lh[t]]); }
  }

  lemma HeadKeeps(g: Region, s: State)
    requires Inv(g, s) && s.phase.WriteHead?
    ensures Inv(g, CommitNext(g, s))
    ensures Abs(g, CommitNext(g, s)) == Spec(Abs(g, s).current, Abs(g, s).current)
  {
    hide ActiveCount, Unused, PutHeader, Header, NoDup;
    CommitPoint(g, s.disk, s.lh);
    assert Overlay(g, s.disk, s.lh) == Over(Home(g, s.disk), s.pinned);
    assert Home(g, CommitNext(g, s).disk) == Home(g, s.disk);
  }

  lemma HomeUnderPinned(g: Region, d: Disk, b: nat, v: Block, pinned: Buffers)
    requires b < |d| && b in pinned
    ensures Over(Home(g, d[b := v]), pinned) == Over(Home(g, d), pinned)
  {
  }

  lemma InstallKeeps(g: Region, s: State)
    requires Inv(g, s) && s.phase.Install? && s.phase.tail < |s.lh|
    ensures Inv(g, CommitNext(g, s)) && Abs(g, CommitNext(g, s)) == Abs(g, s)
  {
    hide ActiveCount, Unused, Header, NoDup, Recovered, Home, Over;
    InstallSlot(g, s.disk, s.phase.tail);
    InstallFrame(g, s.disk, s.lh, s.phase.tail);
    HomeUnderPinned(g, s.disk, s.lh[s.phase.tail], s.disk[Slot(g, s.phase.tail)], s.pinned);
  }

  lemma InstallDone(g: Region, s: State)
    requires Inv(g, s) && s.phase.Install? && s.phase.tail >= |s.lh|
    ensures Inv(g, CommitNext(g, s)) && Abs(g, CommitNext(g, s)) == Abs(g, s)
  {
    assert Over(Home(g, s.disk), s.pinned) == Home(g, s.disk) == Over(Home(g, s.disk), map[]);
  }

  lemma ClearKeeps(g: Region, s: State)
    requires Inv(g, s) && s.phase.ClearHead?
    ensures Inv(g, CommitNext(g, s)) && Abs(g, CommitNext(g, s)) == Abs(g, s)
  {
    Erase(g, s.disk);
    assert Home(g, CommitNext(g, s).disk) == Home(g, s.disk);
  }

  lemma CommitKeeps(g: Region, s: State)
    requires Inv(g, s) && Enabled(g, s, CommitStep)
    ensures Inv(g, CommitNext(g, s))
    ensures Abs(g, CommitNext(g, s)) == SpecNext(Abs(g, s), CommitStep, s.phase.WriteHead?)
  {
    match s.phase
    case WriteLog(t) => FillKeeps(g, s);
    case WriteHead => HeadKeeps(g, s);
    case Install(t) => if t < |s.lh| { InstallKeeps(g, s); } else { InstallDone(g, s); }
    case ClearHead => ClearKeeps(g, s);
    case Finish =>
  }

  lemma ReinstallKeeps(g: Region, s: State)
    requires Inv(g, s) && s.phase.Reinstall?
    ensures Inv(g, RecoverNext(g, s)) && Abs(g, RecoverNext(g, s)) == Abs(g, s)
  {
    var t := s.phase.tail;
    if t < |s.lh| {
      InstallSlot(g, s.disk, t);
      InstallFrame(g, s.disk, s.lh, t);
    }
  }

  lemma ReclearKeeps(g: Region, s: State)
    requires Inv(g, s) && s.phase.Reclear?
    ensures Inv(g, RecoverNext(g, s)) && Abs(g, RecoverNext(g, s)) == Abs(g, s)
  {
    Erase(g, s.disk);
    NoneActive(s.ops);
    var t := RecoverNext(g, s);
    assert Over(Home(g, t.disk), t.pinned) == Home(g, t.disk);
  }

  lemma RecoverKeeps(g: Region, s: State)
    requires Inv(g, s) && Enabled(g, s, RecoverStep)
    ensures Inv(g, RecoverNext(g, s))
    ensures Abs(g, RecoverNext(g, s)) == Abs(g, s)
  {
    match s.phase
    case Down =>
    case Reinstall(t) => ReinstallKeeps(g, s);
    case Reclear => ReclearKeeps(g, s);
  }

  lemma NoneActive(ops: seq<Op>)
    requires forall p :: 0 <= p < |ops| ==> ops[p].Idle?
    ensures ActiveCount(ops) == 0 == Unused(ops)
  {
  }

  /** Every step keeps the invariant and is a step of the specification; in
      particular only the header write of commit() changes what survives a crash. */
  lemma StepRefines(g: Region, s: State, l: Label)
    requires Inv(g, s) && Enabled(g, s, l)
    ensures Inv(g, Next(g, s, l))
    ensures Abs(g, Next(g, s, l)) == SpecNext(Abs(g, s), l, s.phase.WriteHead?)
  {
    match l
    case Begin(p) => BeginKeeps(g, s, p);
    case Write(p, b, v) => WriteKeeps(g, s, p, b, v);
    case End(p) => EndKeeps(g, s, p);
    case CommitStep => CommitKeeps(g, s);
    case Crash =>
    case RecoverStep => RecoverKeeps(g, s);
  }
}
