/** What holds in every reachable state of the process system. */
module ProcRuns {
  import opened Wrappers
  import opened ProcState
  import opened ProcInv
  import opened ProcSteps
  import opened ProcFamily
  import opened ProcTimes
  import opened ProcSleep
  import opened ProcWait

  /** After userinit: init is runnable, every other slot unused, every CPU in its scheduler. */
  function Start(n: nat, cpus: nat, ticks: nat): Sys
    requires n > 0
  {
    var empty := Proc(UNUSED, None, false, None, None, 0, 0, 0, 0, Dead, None, None, false);
    Sys(seq(n, i => if i == INIT then empty.(state := RUNNABLE, pc := Off(User), creation := ticks) else empty),
        seq(cpus, _ => Cpu(None, Choosing)), None, None, false, None, ticks)
  }

  predicate IsRun(s: Sys, ls: seq<Label>)
    decreases |ls|
  {
    ls == [] || (Enabled(s, ls[0]) && IsRun(Next(s, ls[0]), ls[1..]))
  }

  function After(s: Sys, ls: seq<Label>): Sys
    requires IsRun(s, ls)
    decreases |ls|
  {
    if ls == [] then s else After(Next(s, ls[0]), ls[1..])
  }

  lemma StartOk(n: nat, cpus: nat, ticks: nat)
    requires n > 0
    ensures Inv(Start(n, cpus, ticks))
  {
    hide LockWakeDue, ExitWakeDue, HasWait, HasSpin, LockOf, PcOk, Making, Passed, Looked, Exiting, Named;
    hide WaitsForLock, WaitsForChild, LastWake;
    var s := Start(n, cpus, ticks);
    forall p | 0 <= p < n
      ensures ProcOk(s, p) && MakeOk(s, p) && FamilyOk(s, p) && TimeOk(s, s.procs[p]) && SleepOk(s, p) && WaitOk(s, p)
    {
      if p == INIT { RestPc(n, p, s.procs[p], Off(User)); } else { RestPc(n, p, s.procs[p], Dead); }
    }
    forall c | 0 <= c < cpus ensures CpuOk(s, c) && !ClaimsWait(s, c) && !ClaimsSpin(s, c) {}
  }

  /** A process that is at rest takes part in nothing. */
  lemma RestPc(n: nat, r: nat, p: Proc, pc: Pc)
    requires p.pc == pc && (pc == Dead || pc == Off(User))
    ensures PcOk(n, r, pc) && Making(pc).None? && Passed(n, pc) == 0 && Looked(n, pc) == 0
    ensures !Exiting(pc) && !LastWake(pc) && (forall q: nat :: !Named(pc, q)) && !WaitsForLock(p) && !WaitsForChild(p)
  {
    assert Preemptible(User);
  }

  lemma YieldAlike(n: nat, r: nat, p: Proc)
    requires Preemptible(p.pc)
    ensures SleepsAlike(p, p.(pc := Yield(p.pc))) && WaitsAlike(n, r, p, p.(pc := Yield(p.pc)))
  {}

  lemma YieldLocks(s: Sys, r: nat)
    requires r < |s.procs| && Preemptible(s.procs[r].pc) && s.procs[r].lock.None?
    ensures CanMove(s, r, Yield(s.procs[r].pc))
    ensures var pc := s.procs[r].pc; !HasSpin(pc) && !HasWait(pc) && !HasSpin(Yield(pc)) && !HasWait(Yield(pc))
  {}

  lemma PreemptBoth(s: Sys, c: nat, r: nat)
    requires Core(s) && SleepLock(s) && Waits(s) && Current(s, c) && s.cpus[c].proc == Some(r)
    requires Preemptible(s.procs[r].pc) && s.procs[r].lock.None?
    ensures var t := Move(s, c, r, s.procs[r].pc, Yield(s.procs[r].pc)); SleepLock(t) && Waits(t)
  {
    hide Core, SleepOk, WaitOk, LockOf, Preemptible, HasWait, HasSpin, CanMove, SleepsAlike, WaitsAlike, Relock;
    var y := Yield(s.procs[r].pc);
    var t := Move(s, c, r, s.procs[r].pc, y);
    YieldLocks(s, r);
    YieldAlike(|s.procs|, r, s.procs[r]);
    MoveAt(s, c, r, y, r);
    forall p | 0 <= p < |s.procs|
      ensures SleepsAlike(s.procs[p], t.procs[p]) && WaitsAlike(|s.procs|, p, s.procs[p], t.procs[p])
    {
      MoveAt(s, c, r, y, p);
      SelfAlike(s, p);
      SelfWaits(s, p);
      LockAside(|s.procs|, p, s.procs[p], if p == r then s.procs[p].(pc := y) else s.procs[p], t.procs[p]);
    }
    forall e: nat, p: nat | LockWakeDue(s, e, p) ensures LockWakeDue(t, e, p) {
      MoveAt(s, c, r, y, s.cpus[e].proc.value);
      SpinPc(s.procs[s.cpus[e].proc.value].pc);
    }
    forall e: nat, p: nat | ExitWakeDue(s, e, p) ensures ExitWakeDue(t, e, p) {
      MoveAt(s, c, r, y, s.cpus[e].proc.value);
      WaitPcs(|s.procs|, s.procs[s.cpus[e].proc.value].pc);
    }
    SleepSame(s, t);
    WaitSame(s, t);
  }

  lemma LockAside(n: nat, p: nat, a: Proc, b: Proc, d: Proc)
    requires SleepsAlike(a, b) && WaitsAlike(n, p, a, b) && d == b.(lock := d.lock)
    ensures SleepsAlike(a, d) && WaitsAlike(n, p, a, d)
  {}

  lemma BothKeep(s: Sys, l: Label)
    requires Core(s) && Family(s) && SleepLock(s) && Waits(s) && Enabled(s, l)
    ensures SleepLock(Next(s, l)) && Waits(Next(s, l))
  {
    hide Core, Family, SleepLock, Waits, Stepped, Dispatched, Departed, Grabbed, Finished, Ready, Move, Preemptible;
    hide Leaves, Ticked;
    match l {
      case Choose(c, p) => ChooseBoth(s, c, p);
      case LockChosen(c) => GrabbedBoth(s, c, s.cpus[c].at.p);
      case Switch(c) => DispatchedBoth(s, c, s.cpus[c].at.p);
      case Done(c) => FinishedBoth(s, c, s.cpus[c].at.p);
      case Step(c, ch) =>
        SleepStep(s, c, s.cpus[c].proc.value, ch);
        WaitStep(s, c, s.cpus[c].proc.value, ch);
      case Preempt(c) => PreemptBoth(s, c, s.cpus[c].proc.value);
      case SwitchOut(c) => DepartedBoth(s, c, s.cpus[c].proc.value);
      case Tick => TickBoth(s);
    }
  }

  lemma ChooseBoth(s: Sys, c: nat, p: nat)
    requires Core(s) && SleepLock(s) && Waits(s) && c < |s.cpus| && s.cpus[c].at.Choosing?
    ensures var t := s.(cpus := s.cpus[c := s.cpus[c].(at := Chose(p))]); SleepLock(t) && Waits(t)
  {
    hide Core, SleepOk, WaitOk, WaitsAlike, SleepsAlike;
    var t := s.(cpus := s.cpus[c := s.cpus[c].(at := Chose(p))]);
    forall q | 0 <= q < |s.procs|
      ensures SleepsAlike(s.procs[q], t.procs[q]) && WaitsAlike(|s.procs|, q, s.procs[q], t.procs[q])
    {
      SelfAlike(s, q);
      SelfWaits(s, q);
    }
    SleepSame(s, t);
    WaitSame(s, t);
  }

  lemma TickBoth(s: Sys)
    requires SleepLock(s) && Waits(s)
    ensures SleepLock(AllTicked(s)) && Waits(AllTicked(s))
  {
    hide SleepOk, WaitOk, Looked;
    var t := AllTicked(s);
    forall q | 0 <= q < |s.procs|
      ensures SleepsAlike(s.procs[q], t.procs[q]) && WaitsAlike(|s.procs|, q, s.procs[q], t.procs[q])
    {
      SelfAlike(s, q);
      SelfWaits(s, q);
    }
    SleepSame(s, t);
    WaitSame(s, t);
  }

  /** The invariant is inductive. */
  lemma InvKeeps(s: Sys, l: Label)
    requires Inv(s) && Enabled(s, l)
    ensures Inv(Next(s, l))
  {
    hide Core, Family, Times, SleepLock, Waits, Enabled, Next;
    CoreKeeps(s, l);
    FamilyKeeps(s, l);
    TimesKeep(s, l);
    BothKeep(s, l);
  }

  lemma {:induction false} RunKeeps(s: Sys, ls: seq<Label>)
    requires Inv(s) && IsRun(s, ls)
    ensures Inv(After(s, ls))
    decreases |ls|
  {
    hide Inv, Enabled, Next;
    if ls != [] {
      InvKeeps(s, ls[0]);
      RunKeeps(Next(s, ls[0]), ls[1..]);
    }
  }

  ghost predicate Reachable(s: Sys) {
    exists n: nat, cpus: nat, ticks: nat, ls: seq<Label> ::
      n > 0 && IsRun(Start(n, cpus, ticks), ls) && s == After(Start(n, cpus, ticks), ls)
  }

  lemma ReachableOk(s: Sys)
    requires Reachable(s)
    ensures Inv(s)
  {
    hide Inv, Start, IsRun, After;
    var n: nat, cpus: nat, ticks: nat, ls: seq<Label> :|
      n > 0 && IsRun(Start(n, cpus, ticks), ls) && s == After(Start(n, cpus, ticks), ls);
    StartOk(n, cpus, ticks);
    RunKeeps(Start(n, cpus, ticks), ls);
  }

  predicate IsCurrent(s: Sys, c: nat, p: nat) { c < |s.cpus| && s.cpus[c].proc == Some(p) }

  /** In every reachable state, a process whose lock is free is RUNNING exactly when it is the
      current process of some CPU, and no process is current on two. */
  lemma RunningIsCurrent(s: Sys, p: nat)
    requires Reachable(s) && p < |s.procs|
    ensures s.procs[p].lock.None? ==> (s.procs[p].state == RUNNING <==> exists c: nat :: IsCurrent(s, c, p))
    ensures forall c: nat, d: nat :: IsCurrent(s, c, p) && IsCurrent(s, d, p) ==> c == d
  {
    hide Reachable, PcOk, LockOf, Family, Times, SleepLock, Waits, HasWait, HasSpin;
    ReachableOk(s);
    assert ProcOk(s, p);
    if s.procs[p].state == RUNNING { assert IsCurrent(s, s.procs[p].cpu.value, p); }
    forall c: nat | IsCurrent(s, c, p)
      ensures s.procs[p].cpu == Some(c) && (s.procs[p].lock.None? ==> s.procs[p].state == RUNNING)
    {
      assert CpuOk(s, c) && (s.procs[p].lock == Some(c) <==> Claims(s, c, p));
    }
  }

  /** In every reachable state, every process but init that is alive or a zombie has a parent,
      and a parent is neither unused nor a zombie; init is always alive. */
  lemma ParentsLive(s: Sys, p: nat)
    requires Reachable(s) && p < |s.procs|
    ensures p != INIT && s.procs[p].state in {RUNNABLE, SLEEPING, RUNNING, ZOMBIE} ==>
      && s.procs[p].parent.Some? && s.procs[p].parent.value < |s.procs|
      && s.procs[s.procs[p].parent.value].state in {RUNNABLE, SLEEPING, RUNNING}
    ensures s.procs[INIT].state in {RUNNABLE, SLEEPING, RUNNING}
  {
    hide Reachable, Core, Times, SleepLock, Waits, NamedOk, PassedOk;
    ReachableOk(s);
    assert FamilyOk(s, p);
  }

  /** At most one process holds the sleep lock, and then it is locked. */
  lemma OneHolder(s: Sys, p: nat, q: nat)
    requires Reachable(s) && p < |s.procs| && q < |s.procs| && s.procs[p].holds
    ensures s.locked && (s.procs[q].holds ==> p == q)
  {
    hide Reachable, Core, Times, Family, Waits, LockWakeDue;
    ReachableOk(s);
    assert SleepOk(s, p) && SleepOk(s, q);
  }

  /** No lost wakeup: when the sleep lock is free and its spinlock too, nobody sleeps on it or
      is committed to doing so. */
  lemma NoLostWakeup(s: Sys, p: nat)
    requires Reachable(s) && p < |s.procs| && s.spin.None? && !s.locked
    ensures !WaitsForLock(s.procs[p])
  {
    hide Reachable, Core, Times, Family, Waits, WaitsForLock;
    ReachableOk(s);
    assert SleepOk(s, p);
  }

  /** No missed zombie: when wait_lock is free, a process asleep in wait, or committed to it, has
      no zombie child. */
  lemma NoMissedZombie(s: Sys, p: nat, q: nat)
    requires Reachable(s) && p < |s.procs| && q < |s.procs| && s.wait.None? && WaitsForChild(s.procs[p])
    ensures !(s.procs[q].state == ZOMBIE && s.procs[q].parent == Some(p))
  {
    hide Reachable, Core, Times, Family, SleepLock, LookedOk, ParentWoken;
    ReachableOk(s);
    assert WaitOk(s, p);
    assert ZombieChild(s, p, q) <==> s.procs[q].state == ZOMBIE && s.procs[q].parent == Some(p);
  }

  /** No process has run for longer than it has existed; and what exit recorded adds up. */
  lemma AccountsBalance(s: Sys, p: nat)
    requires Reachable(s) && p < |s.procs|
    ensures s.procs[p].creation + s.procs[p].run <= s.ticks
    ensures s.procs[p].state == ZOMBIE ==> s.procs[p].waiting + s.procs[p].run == s.procs[p].turnaround
  {
    hide Reachable, Core, Family, SleepLock, Waits;
    ReachableOk(s);
    assert TimeOk(s, s.procs[p]);
  }
}
