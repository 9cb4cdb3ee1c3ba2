/** The life of one process: which steps change its state and its parent, and how. */
module ProcLife {
  import opened Wrappers
  import opened ProcState
  import opened ProcInv
  import opened ProcSteps
  import opened ProcFamily
  import opened ProcSleep
  import opened ProcRuns

  /** The process whose thread takes the step. */
  function Mover(s: Sys, l: Label): (r: nat)
    requires Enabled(s, l) && (l.Step? || l.SwitchOut?)
    ensures r < |s.procs|
  {
    s.cpus[l.c].proc.value
  }

  /** Process r takes its next step from pc. */
  ghost predicate Acts(s: Sys, l: Label, r: nat, pc: Pc)
    requires Enabled(s, l)
  {
    l.Step? && Mover(s, l) == r && s.procs[r].pc == pc
  }

  /** Process p itself gives up its CPU, from pc. */
  ghost predicate GivesUp(s: Sys, l: Label, p: nat, pc: Pc)
    requires Enabled(s, l)
  {
    l.SwitchOut? && Mover(s, l) == p && s.procs[p].pc == pc
  }

  /** The step is a wakeup of the channel that process p, with record a, sleeps on, or kills it. */
  ghost predicate Wakes(s: Sys, l: Label, p: nat, a: Proc)
    requires Enabled(s, l)
  {
    && l.Step?
    && var pc := s.procs[Mover(s, l)].pc;
       pc == KillHave(p) || (pc.WakeHave? && pc.k == p && a.chan == Some(pc.chan))
  }

  /** Process p goes from record a to record b in another state. */
  ghost predicate Turns(s: Sys, l: Label, p: nat, a: Proc, b: Proc)
    requires Enabled(s, l)
  {
    match b.state
    case UNUSED =>
      && b.parent == None && b.chan == None && !b.killed
      && b.creation == 0 && b.run == 0 && b.turnaround == 0 && b.waiting == 0
      && ((a.state == ZOMBIE && a.parent.Some? && Acts(s, l, a.parent.value, WaitHave(p)))
          || (a.state == USED && a.maker.Some? && Acts(s, l, a.maker.value, ForkMade(p))))
    case USED =>
      && a.state == UNUSED && b.maker.Some? && Acts(s, l, b.maker.value, ForkHave(p))
      && b.parent == None && b.creation == s.ticks && b.run == 0 && b.killed == a.killed
    case RUNNABLE =>
      || (a.state == USED && a.maker.Some? && a.parent == a.maker && Acts(s, l, a.maker.value, ForkGo(p)))
      || (a.state == SLEEPING && Wakes(s, l, p, a))
      || (a.state == RUNNING && a.pc.Yield? && GivesUp(s, l, p, a.pc))
    case RUNNING =>
      a.state == RUNNABLE && l.Switch? && s.cpus[l.c].at == Locked(p) && b.cpu == Some(l.c)
    case SLEEPING =>
      && a.state == RUNNING && GivesUp(s, l, p, a.pc)
      && ((a.pc.SleepOwn? && b.chan == Some(Other(a.pc.x))) || (a.pc == WaitGo && b.chan == Some(Of(p)))
          || (a.pc == AcqGo && b.chan == Some(Lock)))
    case ZOMBIE => a.state == RUNNING && GivesUp(s, l, p, ExitOwn)
  }

  /** Process p gets another parent: its maker, or init when the parent exits, or none when freed. */
  ghost predicate Adopts(s: Sys, l: Label, p: nat, a: Proc, b: Proc)
    requires Enabled(s, l)
  {
    || (a.maker.Some? && b.parent == a.maker && Acts(s, l, a.maker.value, ForkParent(p)))
    || (b.parent == Some(INIT) && a.parent.Some? && Acts(s, l, a.parent.value, ExitScan(p)))
    || (b.parent == None && a.state != UNUSED && b.state == UNUSED)
  }

  /** Process p is marked as killed, by kill, or the mark goes when it is freed. */
  ghost predicate Marks(s: Sys, l: Label, p: nat, a: Proc, b: Proc)
    requires Enabled(s, l)
  {
    if b.killed then l.Step? && s.procs[Mover(s, l)].pc == KillHave(p) else a.state != UNUSED && b.state == UNUSED
  }

  /** A process looking at k in wait is its parent. */
  ghost predicate KidOk(s: Sys, p: nat)
    requires p < |s.procs|
  {
    s.procs[p].pc.WaitHave? ==> s.procs[p].pc.k < |s.procs| && s.procs[s.procs[p].pc.k].parent == Some(p)
  }

  ghost predicate Kids(s: Sys) { forall p :: 0 <= p < |s.procs| ==> KidOk(s, p) }

  ghost predicate Lives(s: Sys, l: Label, p: nat)
    requires Enabled(s, l) && p < |s.procs|
  {
    var t := Next(s, l);
    && |t.procs| == |s.procs|
    && (t.procs[p].state != s.procs[p].state ==> Turns(s, l, p, s.procs[p], t.procs[p]))
    && (t.procs[p].parent != s.procs[p].parent ==> Adopts(s, l, p, s.procs[p], t.procs[p]))
    && (t.procs[p].killed != s.procs[p].killed ==> Marks(s, l, p, s.procs[p], t.procs[p]))
  }

  /** What a step writes in its target p, with record a. */
  lemma EffectLives(s: Sys, l: Label, p: nat, a: Proc)
    requires Enabled(s, l) && l.Step? && p == Target(Mover(s, l), s.procs[Mover(s, l)].pc)
    requires var r, pc := Mover(s, l), s.procs[Mover(s, l)].pc;
             && (pc.ForkMade? || pc.ForkGo? || pc.ForkParent? ==> a.maker == Some(r) && a.state == USED)
             && (pc.ForkGo? || pc.WaitHave? ==> a.parent == Some(r)) && (a.state == UNUSED ==> a.parent == None)
    ensures var e := Effect(s.ticks, Mover(s, l), s.procs[Mover(s, l)].pc, l.choice, a);
            && (e.state != a.state ==> Turns(s, l, p, a, e)) && (e.parent != a.parent ==> Adopts(s, l, p, a, e))
            && (e.killed != a.killed ==> Marks(s, l, p, a, e))
  {
    hide Enabled;
  }

  lemma StepLives(s: Sys, c: nat, ch: Choice, p: nat)
    requires Core(s) && Family(s) && Kids(s) && Enabled(s, Step(c, ch)) && p < |s.procs|
    ensures Lives(s, Step(c, ch), p)
  {
    hide LocksOk, CpuOk, ProcOk, PcAfter, CanMove, CanBegin, Making, NamedOk, PassedOk, Stepped, Leaves, Alive, Effect;
    hide Wakes, Acts;
    var r := s.cpus[c].proc.value;
    SteppedAt(s, c, r, ch, p);
    assert MakeOk(s, r) && MakeOk(s, p) && FamilyOk(s, p) && FamilyOk(s, r) && KidOk(s, r);
    TargetUsed(s, r);
    GoNamed(s, r, p);
    if p == Target(r, s.procs[r].pc) { EffectLives(s, Step(c, ch), p, s.procs[p]); }
  }

  lemma GivingUpLives(s: Sys, c: nat, p: nat)
    requires Core(s) && Enabled(s, SwitchOut(c)) && p < |s.procs|
    ensures Lives(s, SwitchOut(c), p)
  {
    hide LocksOk, CpuOk, ProcOk, MakeOk, PcOk, Out;
    CurrentRuns(s, c);
  }

  lemma PreemptLives(s: Sys, c: nat, p: nat)
    requires Enabled(s, Preempt(c)) && p < |s.procs|
    ensures Lives(s, Preempt(c), p)
  {
    hide CanMove, LockOf, HasWait, HasSpin;
    var r := s.cpus[c].proc.value;
    YieldLocks(s, r);
    MoveAt(s, c, r, Yield(s.procs[r].pc), p);
  }

  lemma OtherLives(s: Sys, l: Label, p: nat)
    requires Core(s) && Enabled(s, l) && !l.Step? && p < |s.procs|
    ensures Lives(s, l, p)
  {
    hide LocksOk, PcOk, MakeOk, Lives;
    match l {
      case SwitchOut(c) => GivingUpLives(s, c, p);
      case Preempt(c) => PreemptLives(s, c, p);
      case _ => QuietLives(s, l, p);
    }
  }

  lemma QuietLives(s: Sys, l: Label, p: nat)
    requires Enabled(s, l) && !l.Step? && !l.SwitchOut? && !l.Preempt? && p < |s.procs|
    ensures Lives(s, l, p)
  {
    hide Preemptible, CanMove, Leaves;
  }

  lemma LivesKeep(s: Sys, l: Label, p: nat)
    requires Inv(s) && Kids(s) && Enabled(s, l) && p < |s.procs|
    ensures Lives(s, l, p)
  {
    hide Core, Family, Times, SleepLock, Waits, Kids, Enabled, Lives;
    if l.Step? { StepLives(s, l.c, l.choice, p); } else { OtherLives(s, l, p); }
  }

  lemma FindsKid(s: Sys, r: nat, ch: Choice)
    requires r < |s.procs| && PcOk(|s.procs|, r, s.procs[r].pc) && !Out(s.procs[r].pc)
    requires s.procs[r].pc.User? ==> ch.Begin? && CanBegin(s, r, ch.op)
    ensures var pc, to := s.procs[r].pc, PcAfter(s, r, ch);
            to.WaitHave? ==> pc.WaitScan? && to.k == pc.k < |s.procs| && s.procs[to.k].parent == Some(r)
  {}

  lemma KidStep(s: Sys, c: nat, ch: Choice, p: nat)
    requires Core(s) && Enabled(s, Step(c, ch)) && p < |s.procs| && Next(s, Step(c, ch)).procs[p].pc.WaitHave?
    ensures KidFound(s, Step(c, ch), p)
  {
    hide Core, Stepped, CanMove, LockOf, HasWait, HasSpin, CanBegin, PcOk, PcAfter, Effect;
    var r := s.cpus[c].proc.value;
    SteppedAt(s, c, r, ch, p);
    CurrentAlive(s, c, r, ch);
    FindsKid(s, r, ch);
    if p != r {
      OtherPc(s, c, r, ch, p);
    } else {
      SteppedAt(s, c, r, ch, s.procs[r].pc.k);
      assert Effect(s.ticks, r, s.procs[r].pc, ch, s.procs[r]) == s.procs[r] by { ScanWritesNothing(s, r, ch); }
    }
  }

  lemma ScanWritesNothing(s: Sys, r: nat, ch: Choice)
    requires r < |s.procs| && s.procs[r].pc.WaitScan?
    ensures Effect(s.ticks, r, s.procs[r].pc, ch, s.procs[r]) == s.procs[r]
  {}

  /** Process p was looking at the same child before, or has just found it. */
  ghost predicate KidFound(s: Sys, l: Label, p: nat)
    requires Enabled(s, l) && p < |s.procs| && p < |Next(s, l).procs| && Next(s, l).procs[p].pc.WaitHave?
  {
    var pc, t := s.procs[p].pc, Next(s, l);
    || (pc == t.procs[p].pc && !(l.Step? && Mover(s, l) == p))
    || (t.procs[p].pc.k < |t.procs| && t.procs[t.procs[p].pc.k].parent == Some(p))
  }

  lemma KidPc(s: Sys, l: Label, p: nat)
    requires Core(s) && Enabled(s, l) && p < |s.procs| && p < |Next(s, l).procs| && Next(s, l).procs[p].pc.WaitHave?
    ensures KidFound(s, l, p)
  {
    hide LocksOk, MakeOk, CpuOk, PcOk, Stepped, CanMove, LockOf, HasWait, HasSpin, CanBegin;
    if l.Step? {
      KidStep(s, l.c, l.choice, p);
    } else if l.Preempt? {
      var r := s.cpus[l.c].proc.value;
      YieldLocks(s, r);
      MoveAt(s, l.c, r, Yield(s.procs[r].pc), p);
    }
  }

  /** While p looks at child k, under wait_lock and the child's lock, nobody else takes k away. */
  lemma KidStays(s: Sys, l: Label, p: nat, k: nat)
    requires Inv(s) && Kids(s) && Enabled(s, l) && p < |s.procs| && k < |s.procs| && s.procs[p].pc == WaitHave(k)
    requires !(l.Step? && Mover(s, l) == p)
    ensures k < |Next(s, l).procs| && Next(s, l).procs[k].parent == Some(p)
  {
    hide Core, Family, Times, SleepLock, Waits, Next, Enabled;
    assert KidOk(s, p);
    LivesKeep(s, l, k);
    assert HasWait(WaitHave(k)) && LockOf(p, WaitHave(k)) == Some(k) && !Out(WaitHave(k));
    if l.Step? { Apart(s, l, p); }
  }

  /** The mover shares neither wait_lock nor a process lock with p. */
  lemma Apart(s: Sys, l: Label, p: nat)
    requires Core(s) && Enabled(s, l) && l.Step? && p < |s.procs| && p != Mover(s, l) && !Out(s.procs[p].pc)
    ensures var r := Mover(s, l);
            && (HasWait(s.procs[r].pc) ==> !HasWait(s.procs[p].pc))
            && (LockOf(r, s.procs[r].pc).Some? ==> LockOf(p, s.procs[p].pc) != LockOf(r, s.procs[r].pc))
  {
    hide Core, CanMove, HasWait, HasSpin, LockOf, Out;
    Exclusive(s, l.c, Mover(s, l), p);
  }

  lemma KidsKeep(s: Sys, l: Label)
    requires Inv(s) && Kids(s) && Enabled(s, l)
    ensures Kids(Next(s, l))
  {
    hide Core, Family, Times, SleepLock, Waits, Next, Enabled;
    var t := Next(s, l);
    forall p | 0 <= p < |t.procs| ensures KidOk(t, p) {
      SameTable(s, l);
      if t.procs[p].pc.WaitHave? {
        KidPc(s, l, p);
        assert KidOk(s, p);
        if s.procs[p].pc.WaitHave? && !(l.Step? && Mover(s, l) == p) { KidStays(s, l, p, s.procs[p].pc.k); }
      }
    }
  }

  lemma SameTable(s: Sys, l: Label)
    requires Enabled(s, l)
    ensures |Next(s, l).procs| == |s.procs|
  {
    hide CanMove, PcAfter, Effect, LockOf, HasWait, HasSpin, CanBegin, Left;
  }

  lemma {:induction false} RunKids(s: Sys, ls: seq<Label>)
    requires Inv(s) && Kids(s) && IsRun(s, ls)
    ensures Kids(After(s, ls))
    decreases |ls|
  {
    hide Inv, Kids, Enabled, Next;
    if ls != [] {
      InvKeeps(s, ls[0]);
      KidsKeep(s, ls[0]);
      RunKids(Next(s, ls[0]), ls[1..]);
    }
  }

  lemma ReachableKids(s: Sys)
    requires Reachable(s)
    ensures Inv(s) && Kids(s)
  {
    hide Inv, IsRun, After;
    ReachableOk(s);
    var n: nat, cpus: nat, ticks: nat, ls: seq<Label> :|
      n > 0 && IsRun(Start(n, cpus, ticks), ls) && s == After(Start(n, cpus, ticks), ls);
    StartOk(n, cpus, ticks);
    RunKids(Start(n, cpus, ticks), ls);
  }

  /** In every run, a process changes its state, its parent and its killed mark only in the ways of
      Turns, Adopts and Marks. */
  lemma LifeOverRuns(s: Sys, l: Label, p: nat)
    requires Reachable(s) && Enabled(s, l) && p < |s.procs|
    ensures Lives(s, l, p)
  {
    hide Inv, Kids, Reachable, Enabled, Lives;
    ReachableKids(s);
    LivesKeep(s, l, p);
  }

  /** A zombie leaves the table only by its parent's wait, and its slot is then free. */
  lemma ZombieLeaves(s: Sys, l: Label, p: nat)
    requires Reachable(s) && Enabled(s, l) && p < |s.procs| && s.procs[p].state == ZOMBIE
    requires p < |Next(s, l).procs| && Next(s, l).procs[p].state != ZOMBIE
    ensures Next(s, l).procs[p].state == UNUSED && Next(s, l).procs[p].parent == None
    ensures s.procs[p].parent.Some? && Acts(s, l, s.procs[p].parent.value, WaitHave(p))
  {
    hide Reachable, Enabled, Next, Acts;
    LifeOverRuns(s, l, p);
  }
}
