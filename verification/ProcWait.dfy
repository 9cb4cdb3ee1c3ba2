/** wait and exit: no zombie is missed by a parent asleep in wait. */
module ProcWait {
  import opened Wrappers
  import opened ProcState
  import opened ProcInv
  import opened ProcSteps
  import opened ProcFamily
  import opened ProcSleep

  lemma ZombieEffect(ticks: nat, r: nat, pc: Pc, ch: Choice, p: Proc)
    ensures Effect(ticks, r, pc, ch, p).state == ZOMBIE ==> p.state == ZOMBIE
  {}

  /** A zombie child of p after r's step was one before, or was r's and now is init's. */
  lemma ZombieWas(s: Sys, c: nat, r: nat, ch: Choice, t: Sys, p: nat, q: nat)
    requires Core(s) && Ready(s, c, r, ch) && Follows(s, r, ch, t) && p < |s.procs| && q < |s.procs|
    requires ZombieChild(t, p, q)
    ensures ZombieChild(s, p, q) || (p == INIT && s.procs[r].pc == ExitScan(q) && s.procs[q].parent == Some(r))
  {
    hide LocksOk, CpuOk, PcOk, PcAfter, Making, CanMove, CanBegin, Effect;
    NewParent(s, c, r, ch, q);
    ZombieEffect(s.ticks, r, s.procs[r].pc, ch, s.procs[q]);
  }

  lemma WaitPcs(n: nat, pc: Pc)
    ensures Looked(n, pc) > 0 ==> HasWait(pc) && !Out(pc)
    ensures LastWake(pc) || pc.ExitLock? || pc.ExitOwn? || pc.ExitScan? || pc.ForkParent? || pc.WaitOwn? ==>
              HasWait(pc) && !Out(pc)
    ensures OwnLock(WaitGo) && !Out(WaitGo)
    ensures (pc.Wake? || pc.WakeHave?) && (pc.next.ExitNext? || pc.next.ExitLast?) ==> HasWait(pc) && !Out(pc)
  {}

  lemma LookedOther(s: Sys, c: nat, r: nat, ch: Choice, t: Sys, p: nat)
    requires Core(s) && Waits(s) && Ready(s, c, r, ch) && Follows(s, r, ch, t) && p < |s.procs| && p != r
    ensures LookedOk(t, p)
  {
    hide Core, PcAfter, CanMove, CanBegin, Effect, Record, HasWait, Looked, ChildOk, ParentWoken, Leaves;
    StillWaits(s, c, r, ch, p);
    WaitPcs(|s.procs|, t.procs[p].pc);
    WaitPcs(|s.procs|, s.procs[r].pc);
    assert WaitOk(s, p);
    if !Out(s.procs[p].pc) { Exclusive(s, c, r, p); }
    forall q | 0 <= q < Looked(|t.procs|, t.procs[p].pc) && q < |t.procs| ensures !ZombieChild(t, p, q) {
      if ZombieChild(t, p, q) { ZombieWas(s, c, r, ch, t, p, q); }
    }
  }

  lemma LookedPc(s: Sys, r: nat, ch: Choice)
    requires r < |s.procs| && PcOk(|s.procs|, r, s.procs[r].pc)
    requires (s.procs[r].pc.User? ==> ch.Begin? && CanBegin(s, r, ch.op))
    ensures var n, pc, pc' := |s.procs|, s.procs[r].pc, PcAfter(s, r, ch);
      || Looked(n, pc') <= Looked(n, pc)
      || (Looked(n, pc') == Looked(n, pc) + 1 && (var k := Looked(n, pc); k >= n || !ZombieChild(s, r, k)))
    ensures s.procs[r].pc.ExitScan? ==> Looked(|s.procs|, PcAfter(s, r, ch)) == 0
  {
    hide ZombieChild;
    LookedTest(s, r);
  }

  lemma LookedTest(s: Sys, r: nat)
    requires r < |s.procs|
    ensures s.procs[r].pc.WaitScan? && s.procs[r].pc.k < |s.procs| && s.procs[s.procs[r].pc.k].parent != Some(r) ==>
              !ZombieChild(s, r, s.procs[r].pc.k)
    ensures s.procs[r].pc.WaitHave? && s.procs[r].pc.k < |s.procs| && s.procs[s.procs[r].pc.k].state != ZOMBIE ==>
              !ZombieChild(s, r, s.procs[r].pc.k)
  {}

  lemma LookedSelf(s: Sys, c: nat, r: nat, ch: Choice, t: Sys)
    requires Core(s) && Waits(s) && Ready(s, c, r, ch) && Follows(s, r, ch, t)
    ensures LookedOk(t, r)
  {
    hide Core, PcAfter, CanMove, CanBegin, Effect, HasWait, Looked, ChildOk, ParentWoken, Leaves, PcOk, Target;
    CurrentAlive(s, c, r, ch);
    LookedPc(s, r, ch);
    assert WaitOk(s, r);
    forall q | 0 <= q < Looked(|t.procs|, t.procs[r].pc) && q < |t.procs| ensures !ZombieChild(t, r, q) {
      if ZombieChild(t, r, q) { ZombieWas(s, c, r, ch, t, r, q); }
    }
  }

  /** The exiting process's wakeup loop moves on, but not past a process that still waits. */
  lemma ExitDuePc(s: Sys, r: nat, ch: Choice, p: nat)
    requires r < |s.procs| && p < |s.procs| && p != r
    requires var pc := s.procs[r].pc;
             (pc.Wake? || pc.WakeHave?) && (pc.next.ExitNext? || pc.next.ExitLast?) && pc.k <= p
    ensures var pc, pc' := s.procs[r].pc, PcAfter(s, r, ch);
      || (pc.WakeHave? && pc.k == p)
      || ((pc'.Wake? || pc'.WakeHave?) && pc'.chan == pc.chan && pc'.next == pc.next && pc'.k <= p)
  {}

  lemma ChildOther(s: Sys, c: nat, r: nat, ch: Choice, p: nat)
    requires Core(s) && Waits(s) && Ready(s, c, r, ch) && p < |s.procs| && p != r
    ensures ChildOk(Stepped(s, c, r, ch), p)
  {
    hide Core, PcAfter, CanMove, CanBegin, Effect, HasWait, HasSpin, LookedOk, ParentWoken, Leaves, Target, ExitWakeDue;
    hide Stepped, Record, ZombieChild;
    var t := Stepped(s, c, r, ch);
    FollowsIs(s, c, r, ch);
    StillWaits(s, c, r, ch, p);
    assert WaitOk(s, p);
    if WaitsForChild(t.procs[p]) {
      forall q | 0 <= q < |t.procs| && ZombieChild(t, p, q) ensures t.wait.Some? && ExitWakeDue(t, t.wait.value, p) {
        ZombieWas(s, c, r, ch, t, p, q);
        if ZombieChild(s, p, q) { ExitStillDue(s, c, r, ch, p); } else { InitDue(s, c, r, ch, q); }
      }
    }
  }

  lemma InitDue(s: Sys, c: nat, r: nat, ch: Choice, q: nat)
    requires Core(s) && Ready(s, c, r, ch) && q < |s.procs| && s.procs[r].pc == ExitScan(q)
    requires s.procs[q].parent == Some(r)
    ensures var t := Stepped(s, c, r, ch); t.wait.Some? && ExitWakeDue(t, t.wait.value, INIT)
  {
    hide Core, CanMove, Effect, HasSpin, Target, Stepped;
    FollowsIs(s, c, r, ch);
    LockVars(s, c, r, ch);
  }

  /** p still waits for a child after r's step, as before it, and the wakeup that was due still is. */
  lemma ExitStillDue(s: Sys, c: nat, r: nat, ch: Choice, p: nat)
    requires Core(s) && Waits(s) && Ready(s, c, r, ch) && p < |s.procs| && p != r && WaitsForChild(Record(s, r, ch, p))
    requires s.wait.Some? && ExitWakeDue(s, s.wait.value, p)
    ensures var t := Stepped(s, c, r, ch); t.wait.Some? && ExitWakeDue(t, t.wait.value, p)
  {
    hide Core, CanMove, CanBegin, PcAfter, Effect, Target, Stepped, HasSpin, HasWait, Leaves, LookedOk, ParentWoken;
    hide ZombieChild;
    var t, pc := Stepped(s, c, r, ch), s.procs[r].pc;
    StillWaits(s, c, r, ch, p);
    LockVars(s, c, r, ch);
    FollowsIs(s, c, r, ch);
    WaitPcs(|s.procs|, PcAfter(s, r, ch));
    assert WaitOk(s, p);
    if s.wait.value != c {
      HeldElsewhere(s, c, r, ch);
      WhoseApart(s, c, r, ch, s.wait.value);
    } else {
      ExitDuePc(s, r, ch, p);
      if pc.WakeHave? && pc.k == p { NotAsleep(s, c, r, p); }
    }
  }

  lemma WaitGoPc(s: Sys, r: nat, ch: Choice)
    requires r < |s.procs| && PcOk(|s.procs|, r, s.procs[r].pc) && !Leaves(s.procs[r].pc)
    requires s.procs[r].pc.User? ==> ch.Begin? && CanBegin(s, r, ch.op)
    ensures PcAfter(s, r, ch).WaitGo? ==> s.procs[r].pc.WaitOwn?
  {}

  lemma ChildSelf(s: Sys, c: nat, r: nat, ch: Choice)
    requires Core(s) && Waits(s) && Ready(s, c, r, ch)
    ensures ChildOk(Stepped(s, c, r, ch), r)
  {
    hide Core, PcAfter, CanMove, CanBegin, Effect, ChildOk, ParentWoken, Leaves, PcOk, Target, ExitWakeDue, Stepped;
    hide ZombieChild;
    var t := Stepped(s, c, r, ch);
    CurrentAlive(s, c, r, ch);
    PcAfterOk(s, r, ch);
    WaitGoPc(s, r, ch);
    FollowsIs(s, c, r, ch);
    assert WaitOk(s, r);
    forall q | 0 <= q < |t.procs| ensures !(WaitsForChild(t.procs[r]) && ZombieChild(t, r, q)) {
      if ZombieChild(t, r, q) { ZombieWas(s, c, r, ch, t, r, q); }
    }
    ChildIs(t, r);
  }

  lemma ChildIs(t: Sys, r: nat)
    requires r < |t.procs| && !Out(t.procs[r].pc)
    requires forall q :: 0 <= q < |t.procs| ==> !(WaitsForChild(t.procs[r]) && ZombieChild(t, r, q))
    ensures ChildOk(t, r)
  {
    hide WaitsForChild, ExitWakeDue, ZombieChild;
  }

  lemma LastPc(s: Sys, r: nat, ch: Choice)
    requires r < |s.procs| && PcOk(|s.procs|, r, s.procs[r].pc) && !Leaves(s.procs[r].pc)
    requires s.procs[r].pc.User? ==> ch.Begin? && CanBegin(s, r, ch.op)
    ensures var n, pc, pc' := |s.procs|, s.procs[r].pc, PcAfter(s, r, ch);
      && (LastWake(pc') ==>
            || (pc == ExitScan(n) && pc'.k == 0
                && (s.procs[r].parent.Some? ==> pc'.chan == Of(s.procs[r].parent.value)))
            || (LastWake(pc) && pc'.chan == pc.chan
                && (pc'.k == pc.k || (pc'.k == pc.k + 1 && (pc.WakeHave? || pc.k == r)))))
      && (pc'.ExitLock? ==> LastWake(pc) && pc.Wake? && pc.k >= n)
      && (pc'.ExitOwn? ==> pc.ExitLock?)
  {}

  /** A process that waits for a child after r's step did before, and r's wakeup has not reached it. */
  lemma WaitsWas(s: Sys, c: nat, r: nat, ch: Choice, x: nat)
    requires Core(s) && Waits(s) && Ready(s, c, r, ch) && x < |s.procs| && x != r && WaitsForChild(Record(s, r, ch, x))
    ensures WaitsForChild(s.procs[x])
    ensures s.procs[r].pc.WakeHave? && s.procs[r].pc.chan == Of(x) ==> s.procs[r].pc.k != x
  {
    hide Core, PcAfter, CanMove, CanBegin, Effect, Leaves, Target, Record, LookedOk, ParentWoken;
    StillWaits(s, c, r, ch, x);
    assert WaitOk(s, x);
    if s.procs[r].pc.WakeHave? && s.procs[r].pc.k == x { NotAsleep(s, c, r, x); }
  }

  lemma WokenSelf(s: Sys, c: nat, r: nat, ch: Choice, t: Sys)
    requires Core(s) && Family(s) && Waits(s) && Ready(s, c, r, ch) && Follows(s, r, ch, t)
    ensures ParentWoken(t, r)
  {
    hide Core, PcAfter, CanMove, CanBegin, Effect, Leaves, PcOk, Target, LookedOk, ChildOk, NamedOk;
    CurrentAlive(s, c, r, ch);
    PcAfterOk(s, r, ch);
    LastPc(s, r, ch);
    NewParent(s, c, r, ch, r);
    assert WaitOk(s, r) && FamilyOk(s, r);
    var x := s.procs[r].parent;
    assert x.Some? ==> x.value < |s.procs|;
    if x.Some? && x.value != r && WaitsForChild(t.procs[x.value]) { WaitsWas(s, c, r, ch, x.value); }
  }

  lemma WokenOther(s: Sys, c: nat, r: nat, ch: Choice, t: Sys, p: nat)
    requires Core(s) && Waits(s) && Ready(s, c, r, ch) && Follows(s, r, ch, t) && p < |s.procs| && p != r
    ensures ParentWoken(t, p)
  {
    hide Core, PcAfter, CanMove, CanBegin, Effect, Leaves, PcOk, Target, LookedOk, ChildOk, HasWait;
    StillWaits(s, c, r, ch, p);
    NewParent(s, c, r, ch, p);
    assert WaitOk(s, p);
    CurrentAlive(s, c, r, ch);
    WaitPcs(|s.procs|, s.procs[p].pc);
    WaitPcs(|s.procs|, s.procs[r].pc);
    WaitGoPc(s, r, ch);
    PcAfterOk(s, r, ch);
    if !Out(s.procs[p].pc) {
      Exclusive(s, c, r, p);
      RunsOn(s, c, r, ch, p);
    }
    var x := s.procs[p].parent;
    if x.Some? && x.value < |s.procs| && x.value != r && WaitsForChild(t.procs[x.value]) {
      WaitsWas(s, c, r, ch, x.value);
    }
  }

  lemma RunsOn(s: Sys, c: nat, r: nat, ch: Choice, p: nat)
    requires Core(s) && Ready(s, c, r, ch) && p < |s.procs| && p != r && !Out(s.procs[p].pc)
    ensures Record(s, r, ch, p).state != UNUSED
  {
    hide LocksOk, CpuOk, PcOk, PcAfter, Making, CanMove, CanBegin;
    assert ProcOk(s, p) && MakeOk(s, p) && MakeOk(s, r);
    TargetUsed(s, r);
  }

  lemma WaitStep(s: Sys, c: nat, r: nat, ch: Choice)
    requires Core(s) && Family(s) && Waits(s) && Ready(s, c, r, ch)
    ensures Waits(Stepped(s, c, r, ch))
  {
    hide Core, Family, Stepped, LookedOk, ChildOk, ParentWoken, CanMove, PcAfter, Record;
    var t := Stepped(s, c, r, ch);
    FollowsIs(s, c, r, ch);
    forall p | 0 <= p < |t.procs| ensures WaitOk(t, p) {
      if p == r {
        LookedSelf(s, c, r, ch, t);
        ChildSelf(s, c, r, ch);
        WokenSelf(s, c, r, ch, t);
      } else {
        LookedOther(s, c, r, ch, t, p);
        ChildOther(s, c, r, ch, p);
        WokenOther(s, c, r, ch, t, p);
      }
    }
  }

  /** A record that differs from another in nothing the invariant of wait depends on. */
  predicate WaitsAlike(n: nat, p: nat, a: Proc, b: Proc) {
    && (b.state == SLEEPING && b.pc == Off(WaitWant) ==> b.chan == Some(Of(p)))
    && (WaitsForChild(b) ==> WaitsForChild(a)) && Looked(n, b.pc) <= Looked(n, a.pc)
    && b.parent == a.parent && (b.state == ZOMBIE ==> a.state == ZOMBIE)
    && (LastWake(b.pc) || b.pc.ExitLock? || b.pc.ExitOwn? ==> b.pc == a.pc)
  }

  lemma WaitSame(s: Sys, t: Sys)
    requires Waits(s) && |t.procs| == |s.procs| && t.wait == s.wait
    requires forall p :: 0 <= p < |s.procs| ==> WaitsAlike(|s.procs|, p, s.procs[p], t.procs[p])
    requires forall p :: s.wait.Some? && ExitWakeDue(s, s.wait.value, p) ==> ExitWakeDue(t, s.wait.value, p)
    ensures Waits(t)
  {
    hide ExitWakeDue, WaitsForChild, Looked;
    forall p, q | 0 <= p < |s.procs| && 0 <= q < |s.procs| && ZombieChild(t, p, q) ensures ZombieChild(s, p, q) {
      assert WaitsAlike(|s.procs|, q, s.procs[q], t.procs[q]);
    }
    forall p | 0 <= p < |t.procs| ensures WaitOk(t, p) {
      assert WaitOk(s, p) && WaitsAlike(|s.procs|, p, s.procs[p], t.procs[p]);
      var x := s.procs[p].parent;
      if x.Some? && x.value < |s.procs| { assert WaitsAlike(|s.procs|, x.value, s.procs[x.value], t.procs[x.value]); }
    }
  }

  lemma SelfWaits(s: Sys, p: nat)
    requires Waits(s) && p < |s.procs|
    ensures WaitsAlike(|s.procs|, p, s.procs[p], s.procs[p])
  {
    assert WaitOk(s, p);
  }

  /** A step of CPU c, which does not hold wait_lock, on process p. */
  lemma WaitPut(s: Sys, c: nat, u: Cpu, p: nat, me: Proc)
    requires Core(s) && Waits(s) && Private(s, c, p, me, s.wait) && s.wait != Some(c)
    requires WaitsAlike(|s.procs|, p, s.procs[p], me)
    ensures Waits(Put(s, c, u, p, me, s.wait))
  {
    hide WaitOk, LocksOk, ProcOk, MakeOk, Out, WaitsAlike;
    var t := Put(s, c, u, p, me, s.wait);
    forall q | 0 <= q < |s.procs| ensures WaitsAlike(|s.procs|, q, s.procs[q], t.procs[q]) {
      if q != p { SelfWaits(s, q); }
    }
    forall q | s.wait.Some? && ExitWakeDue(s, s.wait.value, q) ensures ExitWakeDue(t, s.wait.value, q) {
      assert CpuOk(s, s.wait.value);
    }
    WaitSame(s, t);
  }

  /** While r is about to become a zombie, nobody else is in exit or scanning in wait, and no
      wakeup of a waiting parent is outstanding. */
  lemma ExitAlone(s: Sys, c: nat, r: nat, p: nat)
    requires Core(s) && Current(s, c) && s.cpus[c].proc == Some(r) && s.procs[r].pc.ExitOwn? && p < |s.procs| && p != r
    ensures s.wait == Some(c) && !ExitWakeDue(s, c, p) && Looked(|s.procs|, s.procs[p].pc) == 0
    ensures !LastWake(s.procs[p].pc) && !s.procs[p].pc.ExitLock? && !s.procs[p].pc.ExitOwn?
  {
    hide Core, Looked, HasWait;
    HoldsWait(s, c, r);
    WaitPcs(|s.procs|, s.procs[p].pc);
    if !Out(s.procs[p].pc) { Exclusive(s, c, r, p); }
  }

  lemma HoldsWait(s: Sys, c: nat, r: nat)
    requires Core(s) && Current(s, c) && s.cpus[c].proc == Some(r) && s.procs[r].pc.ExitOwn?
    ensures s.wait == Some(c) && HasWait(s.procs[r].pc)
  {
    assert s.wait == Some(c) <==> ClaimsWait(s, c);
  }

  /** The step in which a process becomes a zombie and releases wait_lock. */
  lemma WaitExit(s: Sys, c: nat, r: nat)
    requires Core(s) && Waits(s) && Current(s, c) && s.cpus[c].proc == Some(r) && s.procs[r].pc.ExitOwn?
    ensures Waits(Departed(s, c, r))
  {
    hide Core, Looked, ExitWakeDue, LookedOk;
    var t := Departed(s, c, r);
    assert WaitOk(s, r);
    forall p | 0 <= p < |t.procs| ensures WaitOk(t, p) {
      assert WaitOk(s, p);
      if p != r {
        ExitAlone(s, c, r, p);
        forall q | 0 <= q < |t.procs| && WaitsForChild(t.procs[p]) ensures !ZombieChild(t, p, q) {
          assert !ZombieChild(s, p, q);
        }
        assert LookedOk(t, p) by { NothingLooked(t, p); }
      } else {
        assert LookedOk(t, p) by { DeadWaits(|s.procs|); NothingLooked(t, p); }
      }
    }
  }

  lemma NothingLooked(t: Sys, p: nat)
    requires p < |t.procs| && Looked(|t.procs|, t.procs[p].pc) == 0
    ensures LookedOk(t, p)
  {}

  lemma DeadWaits(n: nat)
    ensures Looked(n, Dead) == 0
  {}

  lemma LeftWaits(s: Sys, r: nat)
    requires r < |s.procs| && s.procs[r].state == RUNNING && Leaves(s.procs[r].pc) && !s.procs[r].pc.ExitOwn?
    ensures WaitsAlike(|s.procs|, r, s.procs[r], Left(s, r)) && SleepsAlike(s.procs[r], Left(s, r))
  {}

  lemma LeftSleeps(s: Sys, r: nat)
    requires r < |s.procs| && s.procs[r].state == RUNNING && Leaves(s.procs[r].pc)
    ensures SleepsAlike(s.procs[r], Left(s, r))
  {}

  lemma BothPut(s: Sys, c: nat, u: Cpu, p: nat, me: Proc)
    requires Core(s) && SleepLock(s) && Waits(s) && Private(s, c, p, me, s.wait) && s.wait != Some(c)
    requires s.spin != Some(c)
    requires WaitsAlike(|s.procs|, p, s.procs[p], me) && SleepsAlike(s.procs[p], me)
    ensures SleepLock(Put(s, c, u, p, me, s.wait)) && Waits(Put(s, c, u, p, me, s.wait))
  {
    hide Core, SleepLock, Waits, Private, WaitsAlike, SleepsAlike;
    SleepPut(s, c, u, p, me, s.wait);
    WaitPut(s, c, u, p, me);
  }

  lemma GrabbedBoth(s: Sys, c: nat, p: nat)
    requires Core(s) && SleepLock(s) && Waits(s) && c < |s.cpus| && s.cpus[c].at == Chose(p) && p < |s.procs|
    requires s.procs[p].lock.None?
    ensures SleepLock(Grabbed(s, c, p)) && Waits(Grabbed(s, c, p))
  {
    hide LocksOk, ProcOk, MakeOk, SleepOk, WaitOk, Looked;
    NoLock(s, c);
    assert CpuOk(s, c);
    SelfAlike(s, p);
    SelfWaits(s, p);
    BothPut(s, c, s.cpus[c].(at := Locked(p)), p, s.procs[p].(lock := Some(c)));
  }

  lemma FinishedBoth(s: Sys, c: nat, p: nat)
    requires Core(s) && SleepLock(s) && Waits(s) && c < |s.cpus| && s.cpus[c].at == Back(p) && p < |s.procs|
    ensures SleepLock(Finished(s, c, p)) && Waits(Finished(s, c, p))
  {
    hide LocksOk, ProcOk, MakeOk, SleepOk, WaitOk, Looked;
    OnlyLock(s, c, p);
    assert CpuOk(s, c);
    SelfAlike(s, p);
    SelfWaits(s, p);
    BothPut(s, c, Cpu(None, Choosing), p, s.procs[p].(lock := None, cpu := None));
  }

  lemma DispatchedBoth(s: Sys, c: nat, p: nat)
    requires Core(s) && SleepLock(s) && Waits(s) && c < |s.cpus| && s.cpus[c].at == Locked(p) && p < |s.procs|
    ensures SleepLock(Dispatched(s, c, p)) && Waits(Dispatched(s, c, p))
  {
    hide LocksOk, MakeOk, SleepOk, WaitOk, PcOk;
    OnlyLock(s, c, p);
    assert CpuOk(s, c) && ProcOk(s, p);
    SelfAlike(s, p);
    SelfWaits(s, p);
    var me := s.procs[p];
    if me.state == RUNNABLE {
      NotCurrent(s, c, p);
      BothPut(s, c, Cpu(Some(p), Running), p, me.(state := RUNNING, pc := Resumed(me.pc.back), cpu := Some(c)));
    } else {
      BothPut(s, c, s.cpus[c].(at := Choosing), p, me.(lock := None));
    }
  }

  lemma DepartedBoth(s: Sys, c: nat, r: nat)
    requires Core(s) && SleepLock(s) && Waits(s) && Current(s, c) && s.cpus[c].proc == Some(r) && Leaves(s.procs[r].pc)
    ensures SleepLock(Departed(s, c, r)) && Waits(Departed(s, c, r))
  {
    hide LocksOk, MakeOk, SleepOk, WaitOk, PcOk, Left, Leaves, HasWait, HasSpin, LockOf, WaitsAlike, SleepsAlike;
    CurrentRuns(s, c);
    LeaveLocks(r, s.procs[r].pc);
    LeaveClaims(s, c, r);
    LeftSame(s, r);
    if s.procs[r].pc.ExitOwn? {
      LeftSleeps(s, r);
      SleepPut(s, c, Cpu(Some(r), Back(r)), r, Left(s, r), None);
      WaitExit(s, c, r);
    } else {
      LeftWaits(s, r);
      BothPut(s, c, Cpu(Some(r), Back(r)), r, Left(s, r));
    }
  }

  lemma LeaveClaims(s: Sys, c: nat, r: nat)
    requires Core(s) && Current(s, c) && s.cpus[c].proc == Some(r)
    ensures HasWait(s.procs[r].pc) <==> s.wait == Some(c)
    ensures HasSpin(s.procs[r].pc) <==> s.spin == Some(c)
  {
    hide HasWait, HasSpin, CpuOk, ProcOk, MakeOk;
    assert (s.wait == Some(c) <==> ClaimsWait(s, c)) && (s.spin == Some(c) <==> ClaimsSpin(s, c));
  }

  lemma LeftSame(s: Sys, r: nat)
    requires r < |s.procs|
    ensures Left(s, r).lock == s.procs[r].lock && Left(s, r).cpu == s.procs[r].cpu
  {}
}
