/** The scheduler's switches, run by themselves: a runnable process gets the CPU, and gives it back. */
module ProcSwitch {
  import opened Wrappers
  import opened ProcState
  import opened ProcInv
  import opened ProcSteps
  import opened ProcRuns
  import opened ProcAlone
  import opened ProcCalls

  /** Process p runs on CPU c, at pc. */
  function Runs(s: Sys, c: nat, p: nat, pc: Pc): Sys
    requires c < |s.cpus| && p < |s.procs|
  {
    s.(procs := s.procs[p := s.procs[p].(state := RUNNING, pc := pc, cpu := Some(c))],
       cpus := s.cpus[c := Cpu(Some(p), Running)])
  }

  /** The scheduler's way to the switch: choose, lock, look again. */
  lemma Dispatches(s: Sys, c: nat, p: nat)
    requires c < |s.cpus| && s.cpus[c] == Cpu(None, Choosing) && p < |s.procs| && s.procs[p].lock == None
    requires s.procs[p].state == RUNNABLE && s.procs[p].pc.Off?
    ensures Leads(c, s, Held(Runs(s, c, p, Resumed(s.procs[p].pc.back)), c, p))
  {
    hide Leads, HasWait, HasSpin;
    var s1 := Next(s, Choose(c, p));
    var s2 := Next(s1, LockChosen(c));
    var t := Next(s2, Switch(c));
    ResumedHolds(p, s.procs[p].pc.back);
    assert t == Held(Runs(s, c, p, Resumed(s.procs[p].pc.back)), c, p);
    Stays(c, t);
    LeadsOn(c, s2, Switch(c), t);
    LeadsOn(c, s1, LockChosen(c), t);
    LeadsOn(c, s, Choose(c, p), t);
  }

  lemma ResumedHolds(p: nat, pc: Pc)
    ensures LockOf(p, Resumed(pc)) == Some(p) && !HasWait(Resumed(pc)) && !HasSpin(Resumed(pc))
  {}

  lemma ResumedChanges(b: Sys, p: nat)
    requires p < |b.procs| && b.procs[p].pc.Resumed? && PcOk(|b.procs|, p, b.procs[p].pc)
    ensures Changes(b, p, Go(true), b.procs[p].pc.back, p, b.procs[p].(chan := None))
  {}

  lemma RestsFree(b: Sys, c: nat, p: nat)
    requires p < |b.procs| && Preemptible(b.procs[p].pc)
    ensures Held(b, c, p) == b
  {}

  /** Choosing a runnable process whose lock is free runs it, from where it left off. */
  lemma SwitchRuns(s: Sys, c: nat, p: nat) returns (t: Sys)
    requires Reachable(s) && c < |s.cpus| && s.cpus[c].at.Choosing? && p < |s.procs| && s.procs[p].lock == None
    requires s.procs[p].state == RUNNABLE
    ensures s.procs[p].pc.Off? && Leads(c, s, t)
    ensures t == s.(procs := t.procs, cpus := s.cpus[c := Cpu(Some(p), Running)])
    ensures var a := s.procs[p];
            t.procs == s.procs[p := a.(state := RUNNING, chan := None, pc := a.pc.back, cpu := Some(c))]
  {
    hide Reachable, Leads, LocksOk, MakeOk, Family, Times, SleepLock, Waits, Held, Changes, Preemptible, LockOf;
    hide HasWait, HasSpin;
    ReachableOk(s);
    assert CpuOk(s, c) && ProcOk(s, p);
    var back := s.procs[p].pc.back;
    var b := Runs(s, c, p, Resumed(back));
    Dispatches(s, c, p);
    ResumedHolds(p, back);
    assert Calls(b, c, p);
    ResumedChanges(b, p);
    ChangesTo(b, c, p, Go(true), back, p, b.procs[p].(chan := None));
    t := Place(With(b, p, b.procs[p].(chan := None)), p, back);
    RestsFree(t, c, p);
    LeadsTrans(c, s, Held(b, c, p), t);
  }

  /** A choice that has gone stale changes nothing. */
  lemma StaleChoice(s: Sys, c: nat, p: nat)
    requires c < |s.cpus| && s.cpus[c] == Cpu(None, Choosing) && p < |s.procs| && s.procs[p].lock == None
    requires s.procs[p].state != RUNNABLE
    ensures Enabled(s, Choose(c, p)) && Enabled(Next(s, Choose(c, p)), LockChosen(c))
    ensures var s2 := Next(Next(s, Choose(c, p)), LockChosen(c)); Enabled(s2, Switch(c)) && Next(s2, Switch(c)) == s
  {}

  lemma Yields(s: Sys, c: nat, r: nat)
    requires Current(s, c) && s.cpus[c].proc == Some(r) && Preemptible(s.procs[r].pc) && s.procs[r].lock == None
    ensures Enabled(s, Preempt(c)) && Next(s, Preempt(c)) == Held(Place(s, r, Yield(s.procs[r].pc)), c, r)
  {}

  /** A timer interrupt makes the process runnable, off its CPU, where it was. */
  lemma PreemptYields(s: Sys, c: nat, r: nat) returns (t: Sys)
    requires Reachable(s) && Current(s, c) && s.cpus[c].proc == Some(r) && Preemptible(s.procs[r].pc)
    requires s.procs[r].lock == None
    ensures Leads(c, s, t)
    ensures var me := s.procs[r].(state := RUNNABLE, pc := Off(s.procs[r].pc), cpu := None);
            t == s.(procs := s.procs[r := me], cpus := s.cpus[c := Cpu(None, Choosing)])
  {
    hide Reachable, Leads, LocksOk, CpuOk, MakeOk, Family, Times, SleepLock, Waits, Held, Preemptible, Enabled, Next;
    ReachableOk(s);
    CurrentRuns(s, c);
    assert ProcOk(s, r);
    Yields(s, c, r);
    var y := Place(s, r, Yield(s.procs[r].pc));
    assert Calls(y, c, r);
    t := Gone(y, c, r);
    Departs(y, c, r);
    LeadsOn(c, s, Preempt(c), t);
  }
}
