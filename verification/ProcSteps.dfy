/** Every step keeps the CPU, lock and fork part of the invariant. */
module ProcSteps {
  import opened Wrappers
  import opened ProcState
  import opened ProcInv

  ghost predicate Base(s: Sys) {
    && |s.procs| > 0 && LocksOk(s)
    && (forall c :: 0 <= c < |s.cpus| ==> CpuOk(s, c))
    && (forall p :: 0 <= p < |s.procs| ==> ProcOk(s, p))
  }

  /** d has the CPUs, locks and running threads of s. */
  ghost predicate Calm(s: Sys, d: Sys) {
    && |d.procs| == |s.procs| && d.cpus == s.cpus && d.wait == s.wait && d.spin == s.spin && d.ticks == s.ticks
    && forall p :: 0 <= p < |s.procs| ==> CalmAt(s.procs[p], d.procs[p])
  }

  predicate CalmAt(a: Proc, b: Proc) {
    && a.lock == b.lock && a.cpu == b.cpu && (Out(a.pc) <==> Out(b.pc)) && (!Out(a.pc) ==> a.pc == b.pc)
  }

  lemma PcAfterOk(s: Sys, r: nat, ch: Choice)
    requires r < |s.procs| && PcOk(|s.procs|, r, s.procs[r].pc) && !Out(s.procs[r].pc)
    requires s.procs[r].pc.User? ==> ch.Begin? && CanBegin(s, r, ch.op)
    ensures PcOk(|s.procs|, r, PcAfter(s, r, ch)) && !Out(PcAfter(s, r, ch))
  {
    hide Preemptible;
  }

  /** What a step of process r writes in process p disturbs no running thread. */
  lemma EffectCalm(ticks: nat, r: nat, pc: Pc, ch: Choice, p: Proc, n: nat, q: nat)
    requires StateOk(p) && PcOk(n, q, p.pc) && (pc.ForkMade? || pc.ForkGo? ==> p.state == USED)
    ensures var e := Effect(ticks, r, pc, ch, p); CalmAt(p, e) && StateOk(e) && PcOk(n, q, e.pc)
  {
    assert PcOk(n, q, Off(User)) by {
      assert Preemptible(User);
    }
    hide PcOk;
  }

  lemma CalmKeeps(s: Sys, d: Sys)
    requires Base(s) && Calm(s, d)
    requires forall p :: 0 <= p < |s.procs| ==> PcOk(|s.procs|, p, d.procs[p].pc) && StateOk(d.procs[p])
    ensures Base(d)
  {
    hide PcOk, LockOf, HasWait, HasSpin, Out, StateOk;
    forall c | 0 <= c < |d.cpus|
      ensures CpuOk(d, c) && (d.wait == Some(c) <==> ClaimsWait(d, c)) && (d.spin == Some(c) <==> ClaimsSpin(d, c))
    {
      assert CpuOk(s, c) && (s.wait == Some(c) <==> ClaimsWait(s, c)) && (s.spin == Some(c) <==> ClaimsSpin(s, c));
      if Current(s, c) { assert CalmAt(s.procs[s.cpus[c].proc.value], d.procs[s.cpus[c].proc.value]); }
      if s.cpus[c].at.Back? { assert CalmAt(s.procs[s.cpus[c].at.p], d.procs[s.cpus[c].at.p]); }
    }
    forall p | 0 <= p < |d.procs| ensures ProcOk(d, p) {
      assert ProcOk(s, p) && CalmAt(s.procs[p], d.procs[p]);
    }
    forall p, c | 0 <= p < |d.procs| && 0 <= c < |d.cpus| ensures d.procs[p].lock == Some(c) <==> Claims(d, c, p) {
      assert CalmAt(s.procs[p], d.procs[p]) && CpuOk(s, c) && (s.procs[p].lock == Some(c) <==> Claims(s, c, p));
      if Current(s, c) { assert CalmAt(s.procs[s.cpus[c].proc.value], d.procs[s.cpus[c].proc.value]); }
    }
  }

  lemma MoveAt(s: Sys, c: nat, r: nat, pc: Pc, p: nat)
    requires r < |s.procs| && p < |s.procs| && CanMove(s, r, pc)
    ensures var q, m := s.procs[p], Move(s, c, r, s.procs[r].pc, pc);
      && |m.procs| == |s.procs| && m.cpus == s.cpus
      && m.procs[p] == q.(pc := if p == r then pc else q.pc,
           lock := if LockOf(r, pc) == Some(p) then Some(c) else if LockOf(r, s.procs[r].pc) == Some(p) then None
               else q.lock)
  {
    hide LockOf, HasWait, HasSpin;
  }

  /** The threads current on two CPUs are different. */
  lemma CurrentApart(s: Sys, c: nat, e: nat)
    requires Base(s) && Current(s, c) && Current(s, e) && c != e
    ensures s.cpus[c].proc != s.cpus[e].proc
  {
    assert CpuOk(s, c) && CpuOk(s, e);
  }

  lemma CurrentRuns(s: Sys, c: nat)
    requires Base(s) && Current(s, c)
    ensures var p := s.procs[s.cpus[c].proc.value]; !Out(p.pc) && p.state == RUNNING && p.cpu == Some(c)
  {
    assert CpuOk(s, c) && ProcOk(s, s.cpus[c].proc.value);
  }

  lemma MoveCpu(s: Sys, c: nat, r: nat, pc: Pc, e: nat)
    requires Base(s) && Current(s, c) && s.cpus[c].proc == Some(r) && !Out(pc) && CanMove(s, r, pc) && e < |s.cpus|
    ensures var m := Move(s, c, r, s.procs[r].pc, pc);
      CpuOk(m, e) && (m.wait == Some(e) <==> ClaimsWait(m, e)) && (m.spin == Some(e) <==> ClaimsSpin(m, e))
  {
    hide PcOk, LockOf, HasWait, HasSpin, Out, Relock, StateOk;
    assert CpuOk(s, c) && CpuOk(s, e);
    assert (s.wait == Some(c) <==> ClaimsWait(s, c)) && (s.spin == Some(c) <==> ClaimsSpin(s, c));
    assert (s.wait == Some(e) <==> ClaimsWait(s, e)) && (s.spin == Some(e) <==> ClaimsSpin(s, e));
    if s.cpus[e].at.Running? || s.cpus[e].at.Back? { MoveAt(s, c, r, pc, s.cpus[e].proc.value); }
    if Current(s, e) && e != c { CurrentApart(s, c, e); }
  }

  lemma MoveLock(s: Sys, c: nat, r: nat, pc: Pc, p: nat, e: nat)
    requires Base(s) && Current(s, c) && s.cpus[c].proc == Some(r) && CanMove(s, r, pc) && p < |s.procs| && e < |s.cpus|
    ensures var m := Move(s, c, r, s.procs[r].pc, pc);
      m.procs[p].lock == Some(e) <==> Claims(m, e, p)
  {
    hide PcOk, LockOf, HasWait, HasSpin, Out, Move, StateOk, CpuOk, ProcOk;
    assert (s.procs[p].lock == Some(e) <==> Claims(s, e, p)) && (s.procs[p].lock == Some(c) <==> Claims(s, c, p));
    MoveAt(s, c, r, pc, p);
    if Current(s, e) {
      MoveAt(s, c, r, pc, s.cpus[e].proc.value);
      if e != c { CurrentApart(s, c, e); }
    }
  }

  lemma MoveKeeps(s: Sys, c: nat, r: nat, pc: Pc)
    requires Base(s) && Current(s, c) && s.cpus[c].proc == Some(r) && !Out(pc) && PcOk(|s.procs|, r, pc)
    requires CanMove(s, r, pc)
    ensures Base(Move(s, c, r, s.procs[r].pc, pc))
  {
    hide PcOk, LockOf, HasWait, HasSpin, CpuOk, Claims, ClaimsWait, ClaimsSpin, Relock;
    CurrentRuns(s, c);
    var m, n := Move(s, c, r, s.procs[r].pc, pc), |s.procs|;
    forall p | 0 <= p < n ensures ProcOk(m, p) {
      MoveAt(s, c, r, pc, p);
      assert ProcOk(s, p) && ProcOk(s, r);
    }
    forall e | 0 <= e < |s.cpus|
      ensures CpuOk(m, e) && (m.wait == Some(e) <==> ClaimsWait(m, e)) && (m.spin == Some(e) <==> ClaimsSpin(m, e))
    {
      MoveCpu(s, c, r, pc, e);
    }
    forall p, e | 0 <= p < n && 0 <= e < |s.cpus| ensures m.procs[p].lock == Some(e) <==> Claims(m, e, p) {
      MoveLock(s, c, r, pc, p, e);
    }
  }

  lemma StepBase(s: Sys, c: nat, r: nat, ch: Choice)
    requires Core(s) && Ready(s, c, r, ch)
    ensures Base(Stepped(s, c, r, ch))
  {
    hide PcOk, LockOf, HasWait, HasSpin, Out, LocksOk, Effect, Target, PcAfter, CanBegin, Making, StateOk, CalmAt;
    hide Relock;
    CurrentRuns(s, c);
    var d, pc, q := DataAfter(s, r, ch), PcAfter(s, r, ch), Target(r, s.procs[r].pc);
    assert ProcOk(s, r) && MakeOk(s, r);
    PcAfterOk(s, r, ch);
    forall p | 0 <= p < |s.procs|
      ensures CalmAt(s.procs[p], d.procs[p]) && PcOk(|s.procs|, p, d.procs[p].pc) && StateOk(d.procs[p])
    {
      assert ProcOk(s, p) && MakeOk(s, p);
      if p == q { TargetUsed(s, r); EffectCalm(s.ticks, r, s.procs[r].pc, ch, s.procs[q], |s.procs|, q); }
      SameCalm(s.procs[p]);
    }
    CalmKeeps(s, d);
    StayedPut(s, d, r, pc);
    MoveKeeps(d, c, r, pc);
  }

  lemma SameCalm(p: Proc)
    ensures CalmAt(p, p)
  {}

  lemma StayedPut(s: Sys, d: Sys, r: nat, pc: Pc)
    requires Calm(s, d) && r < |s.procs| && !Out(s.procs[r].pc) && CanMove(s, r, pc)
    ensures d.procs[r].pc == s.procs[r].pc && CanMove(d, r, pc)
  {
    hide LockOf, HasWait, HasSpin, Out;
    assert CalmAt(s.procs[r], d.procs[r]);
  }

  lemma TargetUsed(s: Sys, r: nat)
    requires r < |s.procs| && MakeOk(s, r)
    ensures var pc := s.procs[r].pc;
            pc.ForkMade? || pc.ForkGo? || pc.ForkParent? ==>
              Target(r, pc) < |s.procs| && s.procs[Target(r, pc)].maker == Some(r)
  {}

  /** A lock that changed hands did so between CPU c and nobody. */
  predicate Mine(c: nat, before: Option<nat>, after: Option<nat>) {
    before == after || (before in {None, Some(c)} && after in {None, Some(c)})
  }

  /** A step of CPU c on process p, which no other CPU runs or of which only the lock changes. */
  ghost predicate Private(s: Sys, c: nat, p: nat, me: Proc, wait: Option<nat>) {
    && c < |s.cpus| && p < |s.procs| && (s.cpus[c].proc.Some? ==> s.cpus[c].proc.value == p)
    && ((s.procs[p].cpu.Some? ==> s.procs[p].cpu.value == c) || me == s.procs[p].(lock := me.lock))
    && Mine(c, s.procs[p].lock, me.lock) && Mine(c, s.wait, wait)
  }

  lemma PutCpu(s: Sys, c: nat, u: Cpu, p: nat, me: Proc, wait: Option<nat>, e: nat)
    requires Private(s, c, p, me, wait) && e < |s.cpus| && e != c
    requires CpuOk(s, e) && (s.wait == Some(e) <==> ClaimsWait(s, e)) && (s.spin == Some(e) <==> ClaimsSpin(s, e))
    ensures var t := Put(s, c, u, p, me, wait);
      CpuOk(t, e) && (t.wait == Some(e) <==> ClaimsWait(t, e)) && (t.spin == Some(e) <==> ClaimsSpin(t, e))
  {
    hide HasWait, HasSpin, Out;
  }

  lemma PutLock(s: Sys, c: nat, u: Cpu, p: nat, me: Proc, wait: Option<nat>, e: nat, q: nat)
    requires Private(s, c, p, me, wait) && e < |s.cpus| && e != c && q < |s.procs|
    requires CpuOk(s, e) && (s.procs[q].lock == Some(e) <==> Claims(s, e, q))
    ensures var t := Put(s, c, u, p, me, wait); t.procs[q].lock == Some(e) <==> Claims(t, e, q)
  {
    hide LockOf, Out;
  }

  lemma PutProc(s: Sys, c: nat, u: Cpu, p: nat, me: Proc, wait: Option<nat>, q: nat)
    requires Private(s, c, p, me, wait) && q < |s.procs| && q != p && ProcOk(s, q)
    ensures ProcOk(Put(s, c, u, p, me, wait), q)
  {
    hide Out, PcOk, StateOk;
  }

  /** Such a step need only be right for c and p. */
  lemma PutBase(s: Sys, c: nat, u: Cpu, p: nat, me: Proc, wait: Option<nat>)
    requires Base(s) && Private(s, c, p, me, wait) && (wait.Some? ==> wait.value < |s.cpus|)
    requires var t := Put(s, c, u, p, me, wait);
      && CpuOk(t, c) && ProcOk(t, p)
      && (forall q :: 0 <= q < |s.procs| ==> (t.procs[q].lock == Some(c) <==> Claims(t, c, q)))
      && (wait == Some(c) <==> ClaimsWait(t, c)) && (s.spin == Some(c) <==> ClaimsSpin(t, c))
    ensures Base(Put(s, c, u, p, me, wait))
  {
    hide CpuOk, Claims, ClaimsWait, ClaimsSpin, ProcOk;
    var t := Put(s, c, u, p, me, wait);
    assert t.spin == s.spin && |t.cpus| == |s.cpus| && |t.procs| == |s.procs| && t.wait == wait;
    forall e | 0 <= e < |s.cpus|
      ensures CpuOk(t, e) && (t.wait == Some(e) <==> ClaimsWait(t, e)) && (t.spin == Some(e) <==> ClaimsSpin(t, e))
    {
      if e != c { PutCpu(s, c, u, p, me, wait, e); }
    }
    forall q, e | 0 <= q < |s.procs| && 0 <= e < |s.cpus| ensures t.procs[q].lock == Some(e) <==> Claims(t, e, q) {
      if e != c { PutLock(s, c, u, p, me, wait, e, q); }
    }
    forall q | 0 <= q < |s.procs| ensures ProcOk(t, q) {
      if q != p { PutProc(s, c, u, p, me, wait, q); }
    }
  }

  lemma ChooseBase(s: Sys, c: nat, p: nat)
    requires Base(s) && c < |s.cpus| && s.cpus[c].at.Choosing? && p < |s.procs|
    ensures Base(s.(cpus := s.cpus[c := s.cpus[c].(at := Chose(p))]))
  {
    hide PcOk, LockOf, HasWait, HasSpin, Out, StateOk;
    assert CpuOk(s, c);
    var t := s.(cpus := s.cpus[c := s.cpus[c].(at := Chose(p))]);
    assert (s.wait == Some(c) <==> ClaimsWait(s, c)) && (s.spin == Some(c) <==> ClaimsSpin(s, c));
    forall q, e | 0 <= q < |s.procs| && 0 <= e < |s.cpus| ensures t.procs[q].lock == Some(e) <==> Claims(t, e, q) {
      assert s.procs[q].lock == Some(e) <==> Claims(s, e, q);
    }
    forall e | 0 <= e < |s.cpus|
      ensures CpuOk(t, e) && (t.wait == Some(e) <==> ClaimsWait(t, e)) && (t.spin == Some(e) <==> ClaimsSpin(t, e))
    {
      assert CpuOk(s, e) && (s.wait == Some(e) <==> ClaimsWait(s, e)) && (s.spin == Some(e) <==> ClaimsSpin(s, e));
    }
    forall q | 0 <= q < |s.procs| ensures ProcOk(t, q) {
      assert ProcOk(s, q);
    }
  }

  /** CPU c holds the lock of p and of nobody else. */
  lemma OnlyLock(s: Sys, c: nat, p: nat)
    requires Base(s) && c < |s.cpus| && p < |s.procs| && (s.cpus[c].at == Locked(p) || s.cpus[c].at == Back(p))
    ensures forall q :: 0 <= q < |s.procs| ==> (s.procs[q].lock == Some(c) <==> q == p)
    ensures s.wait != Some(c) && s.spin != Some(c)
  {
    hide HasWait, HasSpin, LockOf, CpuOk, ProcOk;
    assert (s.wait == Some(c) <==> ClaimsWait(s, c)) && (s.spin == Some(c) <==> ClaimsSpin(s, c));
    forall q | 0 <= q < |s.procs| ensures s.procs[q].lock == Some(c) <==> q == p {
      assert s.procs[q].lock == Some(c) <==> Claims(s, c, q);
    }
  }

  lemma NoLock(s: Sys, c: nat)
    requires Base(s) && c < |s.cpus| && (s.cpus[c].at.Choosing? || s.cpus[c].at.Chose?)
    ensures forall q :: 0 <= q < |s.procs| ==> s.procs[q].lock != Some(c)
    ensures s.wait != Some(c) && s.spin != Some(c)
  {
    hide HasWait, HasSpin, LockOf, CpuOk, ProcOk;
    assert (s.wait == Some(c) <==> ClaimsWait(s, c)) && (s.spin == Some(c) <==> ClaimsSpin(s, c));
    forall q | 0 <= q < |s.procs| ensures s.procs[q].lock != Some(c) {
      assert s.procs[q].lock == Some(c) <==> Claims(s, c, q);
    }
  }

  lemma GrabbedBase(s: Sys, c: nat, p: nat)
    requires Base(s) && c < |s.cpus| && s.cpus[c].at == Chose(p) && p < |s.procs| && s.procs[p].lock.None?
    ensures Base(Grabbed(s, c, p))
  {
    hide PcOk, LockOf, HasWait, HasSpin;
    NoLock(s, c);
    assert CpuOk(s, c) && ProcOk(s, p);
    PutBase(s, c, s.cpus[c].(at := Locked(p)), p, s.procs[p].(lock := Some(c)), s.wait);
  }

  lemma DispatchedBase(s: Sys, c: nat, p: nat)
    requires Base(s) && c < |s.cpus| && s.cpus[c].at == Locked(p) && p < |s.procs|
    ensures Base(Dispatched(s, c, p))
  {
    hide PcOk, LockOf, HasWait, HasSpin;
    OnlyLock(s, c, p);
    assert CpuOk(s, c) && ProcOk(s, p);
    var me := s.procs[p];
    if me.state == RUNNABLE {
      NotCurrent(s, c, p);
      ResumedOk(|s.procs|, p, me.pc);
      var now := me.(state := RUNNING, pc := Resumed(me.pc.back), cpu := Some(c));
      PutBase(s, c, Cpu(Some(p), Running), p, now, s.wait);
    } else {
      PutBase(s, c, s.cpus[c].(at := Choosing), p, me.(lock := None), s.wait);
    }
  }

  /** A process whose lock is held by the scheduler of CPU c is current nowhere. */
  lemma NotCurrent(s: Sys, c: nat, p: nat)
    requires Base(s) && c < |s.cpus| && s.cpus[c].at == Locked(p) && p < |s.procs| && Out(s.procs[p].pc)
    ensures s.procs[p].cpu == None
  {
    hide PcOk, LockOf, HasWait, HasSpin, StateOk;
    assert CpuOk(s, c) && ProcOk(s, p) && (s.procs[p].lock == Some(c) <==> Claims(s, c, p));
    assert s.procs[p].cpu.Some? ==> CpuOk(s, s.procs[p].cpu.value);
  }

  lemma ResumedOk(n: nat, r: nat, pc: Pc)
    requires PcOk(n, r, pc) && pc.Off?
    ensures PcOk(n, r, Resumed(pc.back)) && LockOf(r, Resumed(pc.back)) == Some(r)
    ensures !HasWait(Resumed(pc.back)) && !HasSpin(Resumed(pc.back))
  {}

  lemma FinishedBase(s: Sys, c: nat, p: nat)
    requires Base(s) && c < |s.cpus| && s.cpus[c].at == Back(p) && p < |s.procs|
    ensures Base(Finished(s, c, p))
  {
    hide PcOk, LockOf, HasWait, HasSpin;
    OnlyLock(s, c, p);
    assert CpuOk(s, c) && ProcOk(s, p);
    PutBase(s, c, Cpu(None, Choosing), p, s.procs[p].(lock := None, cpu := None), s.wait);
  }

  lemma LeftOk(s: Sys, r: nat)
    requires r < |s.procs| && PcOk(|s.procs|, r, s.procs[r].pc) && StateOk(s.procs[r]) && Leaves(s.procs[r].pc)
    ensures var l := Left(s, r); PcOk(|s.procs|, r, l.pc) && StateOk(l) && Out(l.pc)
    ensures var l := Left(s, r); l.lock == s.procs[r].lock && l.cpu == s.procs[r].cpu
  {
    assert Preemptible(User) && Preemptible(WaitWant) && Preemptible(AcqWant);
    hide Preemptible;
  }

  lemma LeaveLocks(r: nat, pc: Pc)
    requires Leaves(pc)
    ensures LockOf(r, pc) == Some(r) && !HasSpin(pc) && (HasWait(pc) <==> pc.ExitOwn?)
  {}

  lemma DepartedBase(s: Sys, c: nat, r: nat)
    requires Base(s) && Current(s, c) && s.cpus[c].proc == Some(r) && Leaves(s.procs[r].pc)
    ensures Base(Departed(s, c, r))
  {
    hide PcOk, LockOf, HasWait, HasSpin, StateOk, Left, Leaves, Out;
    CurrentRuns(s, c);
    assert CpuOk(s, c) && ProcOk(s, r);
    LeftOk(s, r);
    LeaveLocks(r, s.procs[r].pc);
    assert (s.wait == Some(c) <==> ClaimsWait(s, c)) && (s.spin == Some(c) <==> ClaimsSpin(s, c));
    var t := Departed(s, c, r);
    forall q | 0 <= q < |s.procs| ensures t.procs[q].lock == Some(c) <==> Claims(t, c, q) {
      assert s.procs[q].lock == Some(c) <==> Claims(s, c, q);
    }
    PutBase(s, c, Cpu(Some(r), Back(r)), r, Left(s, r), if s.procs[r].pc.ExitOwn? then None else s.wait);
  }

  lemma PreemptBase(s: Sys, c: nat, r: nat)
    requires Base(s) && Current(s, c) && s.cpus[c].proc == Some(r) && Preemptible(s.procs[r].pc)
    requires s.procs[r].lock.None?
    ensures Base(Move(s, c, r, s.procs[r].pc, Yield(s.procs[r].pc)))
  {
    hide LocksOk, Move;
    CurrentRuns(s, c);
    assert ProcOk(s, r);
    MoveKeeps(s, c, r, Yield(s.procs[r].pc));
  }

  lemma TickBase(s: Sys)
    requires Base(s)
    ensures Base(AllTicked(s))
  {
    hide PcOk, LockOf, HasWait, HasSpin, Out;
    var t := AllTicked(s);
    forall p | 0 <= p < |s.procs| ensures t.procs[p] == Ticked(s.procs[p]) && ProcOk(t, p) {
      assert ProcOk(s, p);
    }
    forall c | 0 <= c < |t.cpus|
      ensures CpuOk(t, c) && (t.wait == Some(c) <==> ClaimsWait(t, c)) && (t.spin == Some(c) <==> ClaimsSpin(t, c))
    {
      assert CpuOk(s, c) && (s.wait == Some(c) <==> ClaimsWait(s, c)) && (s.spin == Some(c) <==> ClaimsSpin(s, c));
    }
    forall p, c | 0 <= p < |t.procs| && 0 <= c < |t.cpus| ensures t.procs[p].lock == Some(c) <==> Claims(t, c, p) {
      assert s.procs[p].lock == Some(c) <==> Claims(s, c, p);
    }
  }

  /** The record of process p after a step of process r, its lock aside. */
  function Record(s: Sys, r: nat, ch: Choice, p: nat): Proc
    requires r < |s.procs| && p < |s.procs|
  {
    var me := if p == Target(r, s.procs[r].pc) then Effect(s.ticks, r, s.procs[r].pc, ch, s.procs[p]) else s.procs[p];
    if p == r then me.(pc := PcAfter(s, r, ch)) else me
  }

  lemma SteppedAt(s: Sys, c: nat, r: nat, ch: Choice, p: nat)
    requires r < |s.procs| && p < |s.procs|
    ensures var t := Stepped(s, c, r, ch);
      && |t.procs| == |s.procs| && t.cpus == s.cpus && t.ticks == s.ticks
      && t.procs[p] == Record(s, r, ch, p).(lock := t.procs[p].lock)
  {
    hide PcAfter, Effect, Target, LockOf, HasWait, HasSpin, Relock;
    var d, was, pc := DataAfter(s, r, ch), s.procs[r].pc, PcAfter(s, r, ch);
    var procs := d.procs[r := d.procs[r].(pc := pc)];
    var dropped := if LockOf(r, was) == LockOf(r, pc) then procs else Relock(procs, LockOf(r, was), None);
    RelockOnly(procs, LockOf(r, was), None, p);
    RelockOnly(dropped, LockOf(r, pc), Some(c), p);
  }

  lemma RelockOnly(procs: seq<Proc>, q: Option<nat>, holder: Option<nat>, p: nat)
    requires p < |procs|
    ensures Relock(procs, q, holder)[p] == procs[p].(lock := Relock(procs, q, holder)[p].lock)
  {}

  predicate Forks(pc: Pc) { pc.ForkHave? || pc.ForkMade? || pc.ForkGo? }

  lemma InnerIs(n: nat, r: nat, pc: Pc)
    requires PcOk(n, r, pc)
    ensures pc.Yield? || pc.Off? || pc.Resumed? ==> Inner(pc.back) == pc.back && Making(pc.back) == Making(pc)
  {}

  lemma QuietPc(s: Sys, r: nat, ch: Choice)
    requires r < |s.procs| && !Forks(s.procs[r].pc) && !Out(s.procs[r].pc)
    requires s.procs[r].pc.User? ==> ch.Begin? && CanBegin(s, r, ch.op)
    requires s.procs[r].pc.Resumed? ==> Making(s.procs[r].pc.back) == Making(s.procs[r].pc)
    ensures Making(PcAfter(s, r, ch)) == Making(s.procs[r].pc)
  {}

  lemma QuietEffect(ticks: nat, r: nat, pc: Pc, ch: Choice, p: Proc)
    requires !Forks(pc) && (p.state == USED <==> p.maker.Some?)
    ensures var e := Effect(ticks, r, pc, ch, p); e.maker == p.maker && (e.state == USED <==> p.state == USED)
  {}

  /** How a step bears on forks: it begins to make its target, gives up or completes making it,
      or does neither. */
  lemma MakeEffect(s: Sys, r: nat, ch: Choice)
    requires r < |s.procs| && Forks(s.procs[r].pc) && s.procs[r].pc.q < |s.procs| && MakeOk(s, r)
    requires MakeOk(s, s.procs[r].pc.q)
    ensures var pc, pc', q := s.procs[r].pc, PcAfter(s, r, ch), s.procs[r].pc.q;
      Target(r, pc) == q &&
            var p, e := s.procs[q], Effect(s.ticks, r, pc, ch, s.procs[q]);
            || (e.maker == p.maker && Making(pc') == Making(pc) && (e.state == USED <==> p.state == USED))
            || (p.maker == None && e.maker == Some(r) && e.state == USED && Making(pc).None? && Making(pc') == Some(q))
            || (p.maker == Some(r) && e.maker == None && e.state != USED && Making(pc) == Some(q) && Making(pc').None?)
  {}

  lemma EffectMaking(ticks: nat, r: nat, pc: Pc, ch: Choice, p: Proc)
    requires StateOk(p) && (pc.ForkMade? || pc.ForkGo? ==> p.state == USED)
    ensures Making(Effect(ticks, r, pc, ch, p).pc) == Making(p.pc)
  {}

  /** The fork-related fields of process p after a step of process r. */
  lemma MakeAt(s: Sys, c: nat, r: nat, ch: Choice, p: nat)
    requires Core(s) && Ready(s, c, r, ch) && p < |s.procs|
    ensures var me := Record(s, r, ch, p);
      && (p != r ==> Making(me.pc) == Making(s.procs[p].pc))
      && (p != Target(r, s.procs[r].pc) || !Forks(s.procs[r].pc) ==>
          me.maker == s.procs[p].maker && (me.state == USED <==> s.procs[p].state == USED))
      && (p == r && !Forks(s.procs[r].pc) ==> Making(me.pc) == Making(s.procs[p].pc))
  {
    hide PcOk, LocksOk, Effect, Target, PcAfter, CanBegin, Making, Forks, StateOk;
    CurrentRuns(s, c);
    assert ProcOk(s, p) && MakeOk(s, p) && ProcOk(s, r) && MakeOk(s, r);
    InnerIs(|s.procs|, r, s.procs[r].pc);
    if !Forks(s.procs[r].pc) {
      QuietPc(s, r, ch);
      QuietEffect(s.ticks, r, s.procs[r].pc, ch, s.procs[p]);
    }
    if p == Target(r, s.procs[r].pc) {
      TargetUsed(s, r);
      EffectMaking(s.ticks, r, s.procs[r].pc, ch, s.procs[p]);
    }
  }

  lemma MakeStep(s: Sys, c: nat, r: nat, ch: Choice)
    requires Core(s) && Ready(s, c, r, ch)
    ensures var t := Stepped(s, c, r, ch); forall p :: 0 <= p < |t.procs| ==> MakeOk(t, p)
  {
    hide PcOk, LocksOk, Effect, Target, PcAfter, CanBegin, StateOk, Making, Stepped, Core, Record, Forks;
    var t := Stepped(s, c, r, ch);
    SteppedAt(s, c, r, ch, r);
    forall p | 0 <= p < |s.procs|
      ensures |t.procs| == |s.procs| && t.procs[p] == Record(s, r, ch, p).(lock := t.procs[p].lock)
    {
      SteppedAt(s, c, r, ch, p);
    }
    forall p | 0 <= p < |t.procs| ensures MakeOk(t, p) {
      MakeAfter(s, c, r, ch, t, p);
    }
  }

  lemma MakeAfter(s: Sys, c: nat, r: nat, ch: Choice, t: Sys, p: nat)
    requires Core(s) && Ready(s, c, r, ch) && p < |s.procs| && |t.procs| == |s.procs|
    requires forall q :: 0 <= q < |s.procs| ==> t.procs[q] == Record(s, r, ch, q).(lock := t.procs[q].lock)
    ensures MakeOk(t, p)
  {
    hide PcOk, LocksOk, Effect, Target, PcAfter, CanBegin, StateOk, Making, Forks, ProcOk, CpuOk;
    MakeAt(s, c, r, ch, p);
    assert MakeOk(s, p);
    if t.procs[p].maker.Some? && t.procs[p].maker.value < |s.procs| { MakeAt(s, c, r, ch, t.procs[p].maker.value); }
    if Making(t.procs[p].pc).Some? && Making(t.procs[p].pc).value < |s.procs| {
      MakeAt(s, c, r, ch, Making(t.procs[p].pc).value);
    }
    if Forks(s.procs[r].pc) {
      ForksTarget(s, r);
      MakeEffect(s, r, ch);
    }
  }

  lemma ForksTarget(s: Sys, r: nat)
    requires Core(s) && r < |s.procs| && Forks(s.procs[r].pc)
    ensures var q := s.procs[r].pc.q;
      q < |s.procs| && q == Target(r, s.procs[r].pc) && MakeOk(s, q) && MakeOk(s, r)
  {
    assert ProcOk(s, r);
  }

  /** Nothing about forks changes. */
  ghost predicate SameMaking(s: Sys, t: Sys) {
    |t.procs| == |s.procs| && forall p :: 0 <= p < |s.procs| ==> MakesAlike(s.procs[p], t.procs[p])
  }

  predicate MakesAlike(a: Proc, b: Proc) {
    a.maker == b.maker && (a.state == USED <==> b.state == USED) && Making(a.pc) == Making(b.pc)
  }

  lemma MakeSame(s: Sys, t: Sys)
    requires Core(s) && SameMaking(s, t)
    ensures forall p :: 0 <= p < |t.procs| ==> MakeOk(t, p)
  {
    hide Making, LocksOk, CpuOk, ProcOk;
    forall p | 0 <= p < |t.procs| ensures MakeOk(t, p) {
      assert MakeOk(s, p) && MakesAlike(s.procs[p], t.procs[p]);
      if t.procs[p].maker.Some? && t.procs[p].maker.value < |s.procs| {
        assert MakesAlike(s.procs[t.procs[p].maker.value], t.procs[t.procs[p].maker.value]);
      }
      if Making(t.procs[p].pc).Some? && Making(t.procs[p].pc).value < |s.procs| {
        assert MakesAlike(s.procs[Making(t.procs[p].pc).value], t.procs[Making(t.procs[p].pc).value]);
      }
    }
  }

  lemma PutMaking(s: Sys, c: nat, u: Cpu, p: nat, me: Proc, wait: Option<nat>)
    requires c < |s.cpus| && p < |s.procs| && MakesAlike(s.procs[p], me)
    ensures SameMaking(s, Put(s, c, u, p, me, wait))
  {
    hide Making;
  }

  lemma LeftMaking(s: Sys, r: nat)
    requires r < |s.procs| && s.procs[r].state == RUNNING && Leaves(s.procs[r].pc)
    ensures MakesAlike(s.procs[r], Left(s, r))
  {}

  lemma DispatchMaking(s: Sys, c: nat, p: nat)
    requires Core(s) && c < |s.cpus| && p < |s.procs|
    ensures SameMaking(s, Dispatched(s, c, p))
  {
    hide LocksOk, CpuOk, MakeOk, PcOk;
    assert ProcOk(s, p);
  }

  lemma StepCore(s: Sys, c: nat, r: nat, ch: Choice)
    requires Core(s) && Ready(s, c, r, ch)
    ensures Core(Stepped(s, c, r, ch))
  {
    hide LocksOk, CpuOk, ProcOk, MakeOk, Stepped, Ready;
    StepBase(s, c, r, ch);
    MakeStep(s, c, r, ch);
  }

  lemma SchedulerCore(s: Sys, l: Label)
    requires Core(s) && Enabled(s, l) && (l.Choose? || l.LockChosen? || l.Switch? || l.Done?)
    ensures Core(Next(s, l))
  {
    hide LocksOk, CpuOk, ProcOk, MakeOk, Dispatched, Making, Ready;
    var t := Next(s, l);
    match l {
      case Choose(c, p) => ChooseBase(s, c, p);
        MakeSame(s, t);
      case LockChosen(c) =>
        GrabbedBase(s, c, s.cpus[c].at.p);
        MakeSame(s, t);
      case Switch(c) =>
        DispatchedBase(s, c, s.cpus[c].at.p);
        DispatchMaking(s, c, s.cpus[c].at.p);
        MakeSame(s, t);
      case Done(c) =>
        FinishedBase(s, c, s.cpus[c].at.p);
        MakeSame(s, t);
    }
  }

  lemma ThreadCore(s: Sys, l: Label)
    requires Core(s) && Enabled(s, l) && !(l.Choose? || l.LockChosen? || l.Switch? || l.Done?)
    ensures Core(Next(s, l))
  {
    hide LocksOk, CpuOk, ProcOk, MakeOk, Left, Making, Ready, Stepped, Preemptible, Leaves, CanMove;
    match l {
      case Step(c, ch) => StepCore(s, c, s.cpus[c].proc.value, ch);
      case Preempt(c) =>
        PreemptBase(s, c, s.cpus[c].proc.value);
        PreemptMaking(s, c, s.cpus[c].proc.value);
        MakeSame(s, Next(s, l));
      case SwitchOut(c) =>
        var r := s.cpus[c].proc.value;
        CurrentRuns(s, c);
        DepartedBase(s, c, r);
        LeftMaking(s, r);
        PutMaking(s, c, Cpu(Some(r), Back(r)), r, Left(s, r), if s.procs[r].pc.ExitOwn? then None else s.wait);
        MakeSame(s, Departed(s, c, r));
      case Tick =>
        TickBase(s);
        MakeSame(s, AllTicked(s));
    }
  }

  lemma PreemptMaking(s: Sys, c: nat, r: nat)
    requires r < |s.procs| && Preemptible(s.procs[r].pc) && s.procs[r].lock.None?
    ensures SameMaking(s, Move(s, c, r, s.procs[r].pc, Yield(s.procs[r].pc)))
  {
    assert CanMove(s, r, Yield(s.procs[r].pc));
    assert Making(Yield(s.procs[r].pc)) == Making(s.procs[r].pc);
    hide Making, LockOf, HasWait, HasSpin;
    forall p | 0 <= p < |s.procs|
      ensures MakesAlike(s.procs[p], Move(s, c, r, s.procs[r].pc, Yield(s.procs[r].pc)).procs[p])
    {
      MoveAt(s, c, r, Yield(s.procs[r].pc), p);
    }
  }

  lemma CoreKeeps(s: Sys, l: Label)
    requires Core(s) && Enabled(s, l)
    ensures Core(Next(s, l))
  {
    hide Core, Enabled, Next;
    if l.Choose? || l.LockChosen? || l.Switch? || l.Done? { SchedulerCore(s, l); } else { ThreadCore(s, l); }
  }
}
