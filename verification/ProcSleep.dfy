/** The sleep lock: no wakeup is lost. */
module ProcSleep {
  import opened Wrappers
  import opened ProcState
  import opened ProcInv
  import opened ProcSteps
  import opened ProcFamily

  lemma SleepEffect(ticks: nat, r: nat, pc: Pc, ch: Choice, p: Proc)
    ensures var e := Effect(ticks, r, pc, ch, p);
      && (e.state == SLEEPING ==>
          p.state == SLEEPING && (e.pc == p.pc || pc.ForkGo?) && (e.chan == p.chan || pc.Resumed?))
      && (pc.WakeHave? && p.chan == Some(pc.chan) ==> e.state != SLEEPING)
      && e.holds == (pc.AcqTake? || (p.holds && !pc.RelHave?))
  {}

  /** A process other than r that waits for the lock after r's step waited before it. */
  lemma StillWaits(s: Sys, c: nat, r: nat, ch: Choice, p: nat)
    requires Core(s) && Ready(s, c, r, ch) && p < |s.procs| && p != r
    ensures var me, was := Record(s, r, ch, p), s.procs[p];
      && (me.state == SLEEPING ==> was.state == SLEEPING && me.chan == was.chan && me.pc == was.pc)
      && (!Out(me.pc) ==> me.pc == was.pc)
      && (me.pc != was.pc ==> me.pc in {Dead, Off(User)}) && me.holds == was.holds
      && (s.procs[r].pc.WakeHave? && s.procs[r].pc.k == p && was.chan == Some(s.procs[r].pc.chan) ==>
          me.state != SLEEPING)
  {
    hide LocksOk, CpuOk, PcOk, PcAfter, Making, CanMove, CanBegin, Effect;
    assert ProcOk(s, r) && MakeOk(s, r) && ProcOk(s, p) && MakeOk(s, p);
    OtherPc(s, c, r, ch, p);
    TargetUsed(s, r);
    SleepEffect(s.ticks, r, s.procs[r].pc, ch, s.procs[p]);
  }

  /** Where r's step leaves the lock variables and spinlock. */
  lemma LockVars(s: Sys, c: nat, r: nat, ch: Choice)
    requires r < |s.procs|
    ensures var t, pc := Stepped(s, c, r, ch), s.procs[r].pc;
      && t.locked == (pc.AcqTake? || (s.locked && !pc.RelHave?))
      && t.owner == (if pc.AcqTake? then Some(r) else if pc.RelHave? then None else s.owner)
      && t.spin == (if HasSpin(PcAfter(s, r, ch)) then Some(c) else if HasSpin(pc) then None else s.spin)
      && t.wait == (if HasWait(PcAfter(s, r, ch)) then Some(c) else if HasWait(pc) then None else s.wait)
  {
    hide PcAfter, HasSpin, HasWait, LockOf, Effect, Target;
  }

  /** Two processes do not hold the spinlock, or one process lock, at once. */
  lemma Exclusive(s: Sys, c: nat, r: nat, p: nat)
    requires Core(s) && Current(s, c) && s.cpus[c].proc == Some(r) && p < |s.procs| && p != r && !Out(s.procs[p].pc)
    ensures HasSpin(s.procs[r].pc) ==> !HasSpin(s.procs[p].pc)
    ensures HasWait(s.procs[r].pc) ==> !HasWait(s.procs[p].pc)
    ensures LockOf(r, s.procs[r].pc).Some? ==> LockOf(p, s.procs[p].pc) != LockOf(r, s.procs[r].pc)
  {
    hide HasSpin, HasWait, LockOf, PcOk, MakeOk, StateOk;
    assert ProcOk(s, p) && ProcOk(s, r) && CpuOk(s, c);
    var e := s.procs[p].cpu.value;
    assert CpuOk(s, e) && Current(s, e);
    assert (s.spin == Some(c) <==> ClaimsSpin(s, c)) && (s.spin == Some(e) <==> ClaimsSpin(s, e));
    assert (s.wait == Some(c) <==> ClaimsWait(s, c)) && (s.wait == Some(e) <==> ClaimsWait(s, e));
    if LockOf(r, s.procs[r].pc).Some? {
      LockInRange(s, r);
      var q := LockOf(r, s.procs[r].pc).value;
      assert (s.procs[q].lock == Some(c) <==> Claims(s, c, q)) && (s.procs[q].lock == Some(e) <==> Claims(s, e, q));
    }
  }

  lemma LockInRange(s: Sys, r: nat)
    requires r < |s.procs| && PcOk(|s.procs|, r, s.procs[r].pc)
    ensures LockOf(r, s.procs[r].pc).Some? ==> LockOf(r, s.procs[r].pc).value < |s.procs|
  {}

  lemma SleepPc(s: Sys, r: nat, ch: Choice)
    requires r < |s.procs| && PcOk(|s.procs|, r, s.procs[r].pc) && !Out(s.procs[r].pc) && !Leaves(s.procs[r].pc)
    requires SleepOk(s, r)
    requires s.procs[r].pc.User? ==> ch.Begin? && CanBegin(s, r, ch.op)
    ensures var pc, pc' := s.procs[r].pc, PcAfter(s, r, ch);
      && (pc'.AcqOwn? ==> s.locked && !pc.AcqTake? && !pc.RelHave?)
      && (pc'.AcqTake? ==> !s.locked && !pc.AcqTake? && !pc.RelHave?)
      && (Inner(pc').RelWant? || pc'.RelHave? ==> s.owner == Some(r) && !pc.AcqTake? && !pc.RelHave?)
      && (pc'.AcqGo? ==> s.locked && !pc.RelHave?)
  {
    hide LockWakeDue, Preemptible, LockOf, HasWait, HasSpin;
    if s.procs[r].pc.Resumed? { RestPlain(s.procs[r].pc.back); }
  }

  /** A thread that can be interrupted is not inside the sleep lock. */
  lemma RestPlain(pc: Pc)
    requires Preemptible(pc)
    ensures !pc.AcqOwn? && !pc.AcqTake? && !pc.AcqGo? && !pc.RelHave? && !pc.Yield? && !pc.Off? && !pc.Resumed?
  {}

  lemma OwnTarget(r: nat, pc: Pc)
    ensures pc.AcqTake? || pc.RelHave? ==> Target(r, pc) == r
  {}

  lemma SleepSelf(s: Sys, c: nat, r: nat, ch: Choice)
    requires Core(s) && SleepLock(s) && Ready(s, c, r, ch)
    ensures SleepOk(Stepped(s, c, r, ch), r)
  {
    hide LocksOk, CpuOk, MakeOk, PcOk, CanMove, CanBegin, PcAfter, Effect, Target, Stepped, HasSpin, HasWait;
    hide LockWakeDue;
    var t := Stepped(s, c, r, ch);
    CurrentAlive(s, c, r, ch);
    assert ProcOk(s, r) && SleepOk(s, r);
    SleepPc(s, r, ch);
    SleepEffect(s.ticks, r, s.procs[r].pc, ch, s.procs[r]);
    OwnTarget(r, s.procs[r].pc);
    LockVars(s, c, r, ch);
    FollowsIs(s, c, r, ch);
    PcAfterOk(s, r, ch);
  }

  /** The releaser's wakeup loop moves on, but not past a process that still waits. */
  lemma DuePc(s: Sys, r: nat, ch: Choice, p: nat)
    requires r < |s.procs| && p < |s.procs| && p != r
    requires var pc := s.procs[r].pc; (pc.Wake? || pc.WakeHave?) && pc.chan == Lock && pc.next == Unlock && pc.k <= p
    ensures var pc, pc' := s.procs[r].pc, PcAfter(s, r, ch);
      || (pc.WakeHave? && pc.k == p)
      || ((pc'.Wake? || pc'.WakeHave?) && pc'.chan == Lock && pc'.next == Unlock && pc'.k <= p)
  {}

  lemma SpinPc(pc: Pc)
    ensures (pc.Wake? || pc.WakeHave?) && pc.next == Unlock ==> HasSpin(pc)
    ensures pc.RelHave? || pc.AcqTest? || pc.AcqTake? || pc.AcqOwn? ==> HasSpin(pc)
    ensures OwnLock(AcqGo) && !Out(AcqGo)
  {}

  /** A step on CPU c does not touch a spinlock that another CPU holds. */
  lemma HeldElsewhere(s: Sys, c: nat, r: nat, ch: Choice)
    requires Core(s) && Ready(s, c, r, ch)
    ensures s.spin.Some? && s.spin.value != c ==> Stepped(s, c, r, ch).spin == s.spin
    ensures s.wait.Some? && s.wait.value != c ==> Stepped(s, c, r, ch).wait == s.wait
  {
    hide PcAfter, HasSpin, HasWait, LockOf, Stepped, CpuOk, ProcOk, MakeOk, CanBegin;
    LockVars(s, c, r, ch);
    assert (s.spin == Some(c) <==> ClaimsSpin(s, c)) && (s.wait == Some(c) <==> ClaimsWait(s, c));
  }

  /** Process p still waits for the lock after r's step: it is locked, or its wakeup is due. */
  lemma SleepDue(s: Sys, c: nat, r: nat, ch: Choice, p: nat)
    requires Core(s) && SleepLock(s) && Ready(s, c, r, ch) && p < |s.procs| && p != r
    requires WaitsForLock(Record(s, r, ch, p))
    ensures var t := Stepped(s, c, r, ch); t.locked || (t.spin.Some? && LockWakeDue(t, t.spin.value, p))
  {
    hide Core, CanMove, CanBegin, PcAfter, Effect, Target, Stepped, HasSpin, HasWait, Leaves;
    var t, pc, pc' := Stepped(s, c, r, ch), s.procs[r].pc, PcAfter(s, r, ch);
    StillWaits(s, c, r, ch, p);
    LockVars(s, c, r, ch);
    FollowsIs(s, c, r, ch);
    SpinPc(pc);
    SpinPc(pc');
    assert SleepOk(s, p);
    if s.locked {
      if pc.RelHave? { assert pc' == Wake(Lock, 0, Unlock) by { RelPc(s, r, ch); } }
    } else if s.spin.value != c {
      HeldElsewhere(s, c, r, ch);
      var e := s.spin.value;
      WhoseApart(s, c, r, ch, e);
    } else {
      DuePc(s, r, ch, p);
      if pc.WakeHave? && pc.k == p { NotAsleep(s, c, r, p); }
    }
  }

  lemma RelPc(s: Sys, r: nat, ch: Choice)
    requires r < |s.procs| && s.procs[r].pc.RelHave?
    ensures PcAfter(s, r, ch) == Wake(Lock, 0, Unlock)
  {}

  /** The thread on another CPU stays where it is. */
  lemma WhoseApart(s: Sys, c: nat, r: nat, ch: Choice, e: nat)
    requires Core(s) && Ready(s, c, r, ch) && Current(s, e) && e != c
    ensures var q := s.cpus[e].proc.value; Record(s, r, ch, q).pc == s.procs[q].pc && q != r
  {
    hide LocksOk, CpuOk, PcOk, CanMove, CanBegin, PcAfter, Effect, MakeOk;
    CurrentApart(s, c, e);
    CurrentRuns(s, e);
    OtherPc(s, c, r, ch, s.cpus[e].proc.value);
  }

  /** A process whose lock r holds in its wakeup loop is not just about to sleep. */
  lemma NotAsleep(s: Sys, c: nat, r: nat, p: nat)
    requires Core(s) && Current(s, c) && s.cpus[c].proc == Some(r) && p < |s.procs| && p != r
    requires s.procs[r].pc.WakeHave? && s.procs[r].pc.k == p
    ensures !OwnLock(s.procs[p].pc)
  {
    hide Core;
    if !Out(s.procs[p].pc) { Exclusive(s, c, r, p); }
  }

  lemma SleepOther(s: Sys, c: nat, r: nat, ch: Choice, p: nat)
    requires Core(s) && SleepLock(s) && Ready(s, c, r, ch) && p < |s.procs| && p != r
    ensures SleepOk(Stepped(s, c, r, ch), p)
  {
    hide LocksOk, CpuOk, MakeOk, PcOk, CanMove, CanBegin, PcAfter, Effect, Target, Stepped, HasSpin, HasWait;
    hide LockWakeDue;
    var t, pc := Stepped(s, c, r, ch), s.procs[r].pc;
    StillWaits(s, c, r, ch, p);
    LockVars(s, c, r, ch);
    FollowsIs(s, c, r, ch);
    assert SleepOk(s, p) && SleepOk(s, r) && ProcOk(s, p);
    if WaitsForLock(Record(s, r, ch, p)) { SleepDue(s, c, r, ch, p); }
    SpinPc(pc);
    SpinPc(s.procs[p].pc);
    if !Out(s.procs[p].pc) { Exclusive(s, c, r, p); }
  }

  lemma SleepStep(s: Sys, c: nat, r: nat, ch: Choice)
    requires Core(s) && SleepLock(s) && Ready(s, c, r, ch)
    ensures SleepLock(Stepped(s, c, r, ch))
  {
    hide Core, Stepped, SleepOk, CanMove, PcAfter, Record, HasSpin, HasWait;
    var t := Stepped(s, c, r, ch);
    LockVars(s, c, r, ch);
    FollowsIs(s, c, r, ch);
    forall p | 0 <= p < |t.procs| ensures SleepOk(t, p) {
      if p == r { SleepSelf(s, c, r, ch); } else { SleepOther(s, c, r, ch, p); }
    }
  }

  /** A record that differs from another in nothing the sleep lock's invariant depends on. */
  predicate SleepsAlike(a: Proc, b: Proc) {
    && (b.state == SLEEPING && b.pc == Off(AcqWant) ==> b.chan == Some(Lock))
    && (WaitsForLock(b) ==> WaitsForLock(a)) && (b.pc.AcqOwn? ==> a.pc.AcqOwn?) && (b.pc.AcqTake? ==> a.pc.AcqTake?)
    && b.holds == a.holds
    && (Inner(b.pc).RelWant? || b.pc.RelHave? ==> Inner(a.pc).RelWant? || a.pc.RelHave?)
  }

  lemma SleepSame(s: Sys, t: Sys)
    requires SleepLock(s) && |t.procs| == |s.procs| && t.locked == s.locked && t.owner == s.owner && t.spin == s.spin
    requires forall p :: 0 <= p < |s.procs| ==> SleepsAlike(s.procs[p], t.procs[p])
    requires forall p :: s.spin.Some? && LockWakeDue(s, s.spin.value, p) ==> LockWakeDue(t, s.spin.value, p)
    ensures SleepLock(t)
  {
    hide LockWakeDue, WaitsForLock;
    forall p | 0 <= p < |t.procs| ensures SleepOk(t, p) {
      assert SleepOk(s, p) && SleepsAlike(s.procs[p], t.procs[p]);
    }
  }

  /** A step of CPU c, which does not hold the spinlock, on process p. */
  lemma SleepPut(s: Sys, c: nat, u: Cpu, p: nat, me: Proc, wait: Option<nat>)
    requires Core(s) && SleepLock(s) && Private(s, c, p, me, wait) && s.spin != Some(c) && SleepsAlike(s.procs[p], me)
    ensures SleepLock(Put(s, c, u, p, me, wait))
  {
    hide SleepOk, LocksOk, ProcOk, MakeOk, Out;
    var t := Put(s, c, u, p, me, wait);
    forall q | 0 <= q < |s.procs| ensures SleepsAlike(s.procs[q], t.procs[q]) {
      if q != p { SelfAlike(s, q); }
    }
    forall q | s.spin.Some? && LockWakeDue(s, s.spin.value, q) ensures LockWakeDue(t, s.spin.value, q) {
      assert CpuOk(s, s.spin.value);
    }
    SleepSame(s, t);
  }

  lemma SelfAlike(s: Sys, p: nat)
    requires SleepLock(s) && p < |s.procs|
    ensures SleepsAlike(s.procs[p], s.procs[p])
  {
    assert SleepOk(s, p);
  }
}
