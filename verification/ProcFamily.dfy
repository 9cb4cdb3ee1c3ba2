/** Every step keeps the parent relation: nobody's parent is dead. */
module ProcFamily {
  import opened Wrappers
  import opened ProcState
  import opened ProcInv
  import opened ProcSteps

  /** What a step of process r can do to the parent of process p. */
  lemma ParentEffect(ticks: nat, r: nat, pc: Pc, ch: Choice, p: Proc)
    ensures var e := Effect(ticks, r, pc, ch, p);
      || e.parent == p.parent || (e.parent == Some(r) && pc.ForkParent?) || (e.parent == None && e.state == UNUSED)
      || (e.parent == Some(INIT) && pc.ExitScan? && p.parent == Some(r))
  {}

  lemma LifeEffect(ticks: nat, r: nat, pc: Pc, ch: Choice, p: Proc)
    requires pc.ForkMade? || pc.ForkGo? || pc.ForkParent? ==> p.state == USED
    ensures var e := Effect(ticks, r, pc, ch, p);
      && (Alive(p) ==> Alive(e))
      && (Alive(e) || e.state == ZOMBIE ==> Alive(p) || p.state == ZOMBIE || pc.ForkGo?)
      && (e.state == UNUSED ==> p.state == UNUSED || e.parent == None)
      && (pc.ForkParent? ==> e.state == USED && e.parent == Some(r))
      && (pc.ExitScan? && p.parent == Some(r) ==> e.parent == Some(INIT))
  {}

  /** A step of r puts no process under anyone but r and init. */
  lemma NewParent(s: Sys, c: nat, r: nat, ch: Choice, p: nat)
    requires Core(s) && Ready(s, c, r, ch) && p < |s.procs|
    ensures var me := Record(s, r, ch, p);
      && (|| me.parent == s.procs[p].parent || (me.parent == Some(r) && s.procs[r].pc == ForkParent(p))
          || (me.parent == None && me.state == UNUSED)
          || (me.parent == Some(INIT) && s.procs[r].pc == ExitScan(p) && s.procs[p].parent == Some(r)))
      && (Alive(s.procs[p]) ==> Alive(me))
      && (Alive(me) || me.state == ZOMBIE ==>
          Alive(s.procs[p]) || s.procs[p].state == ZOMBIE || s.procs[r].pc == ForkGo(p))
      && (me.state == UNUSED ==> s.procs[p].state == UNUSED || me.parent == None)
      && (s.procs[r].pc == ForkParent(p) ==> me.state == USED && me.parent == Some(r) && s.procs[p].maker == Some(r))
      && (s.procs[r].pc == ExitScan(p) && s.procs[p].parent == Some(r) ==> me.parent == Some(INIT))
      && (p != Target(r, s.procs[r].pc) ==> me.state == s.procs[p].state && me.parent == s.procs[p].parent)
  {
    hide LocksOk, CpuOk, PcOk, StateOk, Effect, PcAfter, Making, CanMove, CanBegin;
    assert ProcOk(s, r) && MakeOk(s, r) && MakeOk(s, p);
    if p == Target(r, s.procs[r].pc) {
      TargetUsed(s, r);
      ParentEffect(s.ticks, r, s.procs[r].pc, ch, s.procs[p]);
      LifeEffect(s.ticks, r, s.procs[r].pc, ch, s.procs[p]);
    }
  }

  lemma ExitPc(s: Sys, r: nat, ch: Choice)
    requires r < |s.procs| && PcOk(|s.procs|, r, s.procs[r].pc) && !Out(s.procs[r].pc)
    requires s.procs[r].pc.User? ==> ch.Begin? && CanBegin(s, r, ch.op)
    ensures var n, pc, pc' := |s.procs|, s.procs[r].pc, PcAfter(s, r, ch);
      && (Exiting(pc') ==> Exiting(pc) || r != INIT)
      && (Passed(n, pc') <= Passed(n, pc) || (pc.ExitScan? && pc.k < n && Passed(n, pc') == pc.k + 1))
  {}

  lemma NamedPc(s: Sys, r: nat, ch: Choice)
    requires r < |s.procs| && PcOk(|s.procs|, r, s.procs[r].pc) && !Out(s.procs[r].pc)
    requires s.procs[r].pc.User? ==> ch.Begin? && CanBegin(s, r, ch.op)
    ensures forall q :: Named(PcAfter(s, r, ch), q) ==> Named(s.procs[r].pc, q) || s.procs[r].pc == ForkParent(q)
  {}

  /** The place of a process that r's step writes does not change in any way that matters here. */
  lemma OtherPc(s: Sys, c: nat, r: nat, ch: Choice, p: nat)
    requires Core(s) && Ready(s, c, r, ch) && p < |s.procs| && p != r
    ensures var me, n := Record(s, r, ch, p), |s.procs|;
      me.pc == s.procs[p].pc || (me.pc in {Dead, Off(User)} && s.procs[p].pc.Dead?)
  {
    hide LocksOk, CpuOk, PcOk, PcAfter, Making, CanMove, CanBegin;
    assert ProcOk(s, r) && MakeOk(s, r) && ProcOk(s, p) && MakeOk(s, p);
    TargetUsed(s, r);
  }

  /** t's records are those of s after a step of r. */
  ghost predicate Follows(s: Sys, r: nat, ch: Choice, t: Sys) {
    && r < |s.procs| && |t.procs| == |s.procs|
    && forall q :: 0 <= q < |s.procs| ==> t.procs[q] == Record(s, r, ch, q).(lock := t.procs[q].lock)
  }

  lemma ParentAfter(s: Sys, c: nat, r: nat, ch: Choice, t: Sys, p: nat)
    requires Core(s) && Family(s) && Ready(s, c, r, ch) && Follows(s, r, ch, t) && p < |s.procs|
    ensures ParentOk(t, p) && (p == INIT ==> Alive(t.procs[p]))
  {
    hide Core, Record, Ready, Target, NamedOk, PassedOk;
    var n, me := |s.procs|, t.procs[p];
    CurrentAlive(s, c, r, ch);
    NewParent(s, c, r, ch, p);
    assert FamilyOk(s, p) && FamilyOk(s, r);
    GoNamed(s, r, p);
    NewParent(s, c, r, ch, INIT);
    NewParent(s, c, r, ch, r);
    if s.procs[p].parent.Some? { NewParent(s, c, r, ch, s.procs[p].parent.value); }
  }

  lemma CurrentAlive(s: Sys, c: nat, r: nat, ch: Choice)
    requires Core(s) && Ready(s, c, r, ch)
    ensures r < |s.procs| && Alive(s.procs[r]) && !Out(s.procs[r].pc)
    ensures PcOk(|s.procs|, r, s.procs[r].pc) && (s.procs[r].pc.User? ==> ch.Begin? && CanBegin(s, r, ch.op))
  {
    CurrentRuns(s, c);
    assert ProcOk(s, r);
  }

  lemma GoNamed(s: Sys, r: nat, p: nat)
    requires r < |s.procs| && p < |s.procs| && NamedOk(s, r)
    ensures s.procs[r].pc == ForkGo(p) ==> s.procs[p].parent == Some(r)
  {
    if s.procs[r].pc == ForkGo(p) { assert Named(s.procs[r].pc, p); }
  }

  lemma NamedAfter(s: Sys, c: nat, r: nat, ch: Choice, t: Sys, p: nat)
    requires Core(s) && Family(s) && Ready(s, c, r, ch) && Follows(s, r, ch, t) && p < |s.procs|
    ensures NamedOk(t, p)
  {
    hide LocksOk, CpuOk, PcOk, StateOk, PcAfter, CanMove, CanBegin, Named, Effect, ParentOk, PassedOk, Making;
    CurrentAlive(s, c, r, ch);
    NamedPc(s, r, ch);
    forall q | 0 <= q < |s.procs| && Named(t.procs[p].pc, q) ensures t.procs[q].parent == Some(p) {
      NewParent(s, c, r, ch, q);
      NamedMakes(t.procs[p].pc, q);
      MakeAfter(s, c, r, ch, t, p);
      MakeAfter(s, c, r, ch, t, q);
      assert FamilyOk(s, p) && MakeOk(s, p);
      if p != r { OtherPc(s, c, r, ch, p); }
      if Named(s.procs[p].pc, q) { NamedMakes(s.procs[p].pc, q); }
    }
  }

  lemma NamedMakes(pc: Pc, q: nat)
    requires Named(pc, q)
    ensures Making(pc) == Some(q) && !(Inner(pc) in {Dead, User}) && !pc.ExitScan? && !pc.ForkParent?
  {}

  lemma PassedAfter(s: Sys, c: nat, r: nat, ch: Choice, t: Sys, p: nat)
    requires Core(s) && Family(s) && Ready(s, c, r, ch) && Follows(s, r, ch, t) && p < |s.procs|
    ensures PassedOk(t, p)
  {
    hide Core, PcOk, PcAfter, CanMove, CanBegin, Named, Effect, ParentOk, NamedOk, Making, Ready, Target, Passed;
    hide Exiting;
    CurrentAlive(s, c, r, ch);
    ExitPc(s, r, ch);
    PassedExits(|s.procs|, s.procs[p].pc);
    PassedExits(|s.procs|, t.procs[p].pc);
    assert FamilyOk(s, p);
    if p != r { OtherPc(s, c, r, ch, p); }
    forall k | 0 <= k < Passed(|s.procs|, t.procs[p].pc) && k < |s.procs| ensures t.procs[k].parent != Some(p) {
      NewParent(s, c, r, ch, k);
    }
  }

  lemma PassedExits(n: nat, pc: Pc)
    ensures Passed(n, pc) > 0 ==> Exiting(pc) && !pc.ForkParent?
    ensures pc.ForkParent? || Inner(pc) in {Dead, User} ==> !Exiting(pc)
    ensures pc.ExitScan? ==> Exiting(pc) && Passed(n, pc) == pc.k
  {}

  lemma FollowsIs(s: Sys, c: nat, r: nat, ch: Choice)
    requires r < |s.procs|
    ensures Follows(s, r, ch, Stepped(s, c, r, ch)) && Stepped(s, c, r, ch).ticks == s.ticks
    ensures Stepped(s, c, r, ch).cpus == s.cpus
  {
    hide Record, Stepped;
    SteppedAt(s, c, r, ch, r);
    forall p | 0 <= p < |s.procs|
      ensures Stepped(s, c, r, ch).procs[p] == Record(s, r, ch, p).(lock := Stepped(s, c, r, ch).procs[p].lock)
    {
      SteppedAt(s, c, r, ch, p);
    }
  }

  lemma FamilyStep(s: Sys, c: nat, r: nat, ch: Choice)
    requires Core(s) && Family(s) && Ready(s, c, r, ch)
    ensures Family(Stepped(s, c, r, ch))
  {
    hide Core, Stepped, Record, ParentOk, NamedOk, PassedOk, CanMove, PcAfter;
    var t := Stepped(s, c, r, ch);
    CurrentAlive(s, c, r, ch);
    FollowsIs(s, c, r, ch);
    forall p | 0 <= p < |t.procs| ensures FamilyOk(t, p) {
      ParentAfter(s, c, r, ch, t, p);
      NamedAfter(s, c, r, ch, t, p);
      PassedAfter(s, c, r, ch, t, p);
    }
    ParentAfter(s, c, r, ch, t, INIT);
  }

  /** Nothing about parents changes between two records. */
  predicate KinAlike(n: nat, a: Proc, b: Proc) {
    && b.parent == a.parent && (Alive(a) <==> Alive(b)) && (b.state == UNUSED <==> a.state == UNUSED)
    && (b.state == ZOMBIE <==> a.state == ZOMBIE)
    && (Inner(b.pc) == Inner(a.pc) || Inner(b.pc) in {User, WaitWant, AcqWant}) && Passed(n, b.pc) <= Passed(n, a.pc)
  }

  lemma FamilySame(s: Sys, t: Sys)
    requires Family(s) && |t.procs| == |s.procs| && forall p :: 0 <= p < |s.procs| ==>
               KinAlike(|s.procs|, s.procs[p], t.procs[p])
    ensures Family(t)
  {
    hide Passed;
    assert KinAlike(|s.procs|, s.procs[INIT], t.procs[INIT]);
    forall p | 0 <= p < |t.procs| ensures FamilyOk(t, p) {
      assert FamilyOk(s, p) && KinAlike(|s.procs|, s.procs[p], t.procs[p]);
      if s.procs[p].parent.Some? {
        assert KinAlike(|s.procs|, s.procs[s.procs[p].parent.value], t.procs[s.procs[p].parent.value]);
      }
      assert forall q :: 0 <= q < |s.procs| ==> t.procs[q].parent == s.procs[q].parent by {
        assert forall q :: 0 <= q < |s.procs| ==> KinAlike(|s.procs|, s.procs[q], t.procs[q]);
      }
      assert forall q :: Named(t.procs[p].pc, q) ==> Named(s.procs[p].pc, q);
    }
  }

  lemma KinPut(s: Sys, c: nat, u: Cpu, p: nat, me: Proc, wait: Option<nat>)
    requires Family(s) && c < |s.cpus| && p < |s.procs| && KinAlike(|s.procs|, s.procs[p], me)
    ensures Family(Put(s, c, u, p, me, wait))
  {
    hide FamilyOk, Passed;
    FamilySame(s, Put(s, c, u, p, me, wait));
  }

  lemma KinDispatched(s: Sys, c: nat, p: nat)
    requires Core(s) && Family(s) && c < |s.cpus| && p < |s.procs|
    ensures Family(Dispatched(s, c, p))
  {
    hide LocksOk, CpuOk, MakeOk, FamilyOk;
    assert ProcOk(s, p);
    var me := s.procs[p];
    if me.state == RUNNABLE {
      KinPut(s, c, Cpu(Some(p), Running), p, me.(state := RUNNING, pc := Resumed(me.pc.back), cpu := Some(c)), s.wait);
    } else {
      KinPut(s, c, s.cpus[c].(at := Choosing), p, me.(lock := None), s.wait);
    }
  }

  lemma LeftKin(s: Sys, r: nat)
    requires r < |s.procs| && s.procs[r].state == RUNNING && Leaves(s.procs[r].pc) && !s.procs[r].pc.ExitOwn?
    ensures KinAlike(|s.procs|, s.procs[r], Left(s, r))
  {}

  /** A process that becomes a zombie has no children left, and is not init. */
  lemma KinExit(s: Sys, c: nat, r: nat)
    requires Family(s) && c < |s.cpus| && r < |s.procs| && s.procs[r].state == RUNNING && s.procs[r].pc.ExitOwn?
    ensures Family(Departed(s, c, r))
  {
    var t := Departed(s, c, r);
    assert FamilyOk(s, r) && Exiting(s.procs[r].pc) && Passed(|s.procs|, s.procs[r].pc) == |s.procs|;
    assert forall q :: 0 <= q < |s.procs| ==> s.procs[q].parent != Some(r);
    forall p | 0 <= p < |t.procs| ensures FamilyOk(t, p) {
      hide Passed, Exiting, Named;
      assert FamilyOk(s, p);
      assert p == r ==> t.procs[p].pc == Dead;
      DeadEnds(|s.procs|);
    }
  }

  lemma DeadEnds(n: nat)
    ensures Passed(n, Dead) == 0 && !Exiting(Dead) && forall q :: !Named(Dead, q)
  {}

  lemma FamilyKeeps(s: Sys, l: Label)
    requires Core(s) && Family(s) && Enabled(s, l)
    ensures Family(Next(s, l))
  {
    hide Core, FamilyOk, Stepped, Dispatched, Departed, Ready, Move, Passed, Preemptible, Leaves;
    match l {
      case Choose(c, p) => FamilySame(s, Next(s, l));
      case LockChosen(c) => FamilySame(s, Next(s, l));
      case Switch(c) => KinDispatched(s, c, s.cpus[c].at.p);
      case Done(c) => FamilySame(s, Next(s, l));
      case Step(c, ch) => FamilyStep(s, c, s.cpus[c].proc.value, ch);
      case Preempt(c) => KinPreempt(s, c, s.cpus[c].proc.value);
      case SwitchOut(c) => KinDeparted(s, c, s.cpus[c].proc.value);
      case Tick => FamilySame(s, AllTicked(s));
    }
  }

  lemma KinPreempt(s: Sys, c: nat, r: nat)
    requires Family(s) && r < |s.procs| && Preemptible(s.procs[r].pc) && s.procs[r].lock.None?
    ensures Family(Move(s, c, r, s.procs[r].pc, Yield(s.procs[r].pc)))
  {
    var t := Move(s, c, r, s.procs[r].pc, Yield(s.procs[r].pc));
    assert CanMove(s, r, Yield(s.procs[r].pc));
    assert Inner(s.procs[r].pc) == s.procs[r].pc && Passed(|s.procs|, Yield(s.procs[r].pc)) == 0;
    hide FamilyOk, LockOf, HasWait, HasSpin, Passed, Preemptible;
    MoveAt(s, c, r, Yield(s.procs[r].pc), r);
    forall p | 0 <= p < |s.procs| ensures KinAlike(|s.procs|, s.procs[p], t.procs[p]) {
      MoveAt(s, c, r, Yield(s.procs[r].pc), p);
    }
    FamilySame(s, t);
  }

  lemma KinDeparted(s: Sys, c: nat, r: nat)
    requires Core(s) && Family(s) && Current(s, c) && s.cpus[c].proc == Some(r) && Leaves(s.procs[r].pc)
    ensures Family(Departed(s, c, r))
  {
    hide FamilyOk, LocksOk, ProcOk, MakeOk, Left;
    CurrentRuns(s, c);
    if s.procs[r].pc.ExitOwn? {
      KinExit(s, c, r);
    } else {
      LeftKin(s, r);
      KinPut(s, c, Cpu(Some(r), Back(r)), r, Left(s, r), s.wait);
    }
  }
}
