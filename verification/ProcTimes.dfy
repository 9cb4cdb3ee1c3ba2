/** Time accounting: a process has not run for longer than it has existed. */
module ProcTimes {
  import opened ProcState
  import opened ProcInv
  import opened ProcSteps
  import opened ProcFamily

  lemma TimeEffect(s: Sys, r: nat, pc: Pc, ch: Choice, p: Proc)
    requires TimeOk(s, p) && (pc.ForkMade? || pc.ForkGo? ==> p.state == USED)
    ensures TimeOk(s, Effect(s.ticks, r, pc, ch, p))
  {}

  lemma TimeStep(s: Sys, c: nat, r: nat, ch: Choice)
    requires Core(s) && Times(s) && Ready(s, c, r, ch)
    ensures Times(Stepped(s, c, r, ch))
  {
    hide LocksOk, CpuOk, ProcOk, CanMove, PcAfter, Effect, Stepped;
    var t := Stepped(s, c, r, ch);
    FollowsIs(s, c, r, ch);
    forall p | 0 <= p < |t.procs| ensures TimeOk(t, t.procs[p]) {
      assert MakeOk(s, r) && MakeOk(s, p) && TimeOk(s, s.procs[p]);
      TargetUsed(s, r);
      if p == Target(r, s.procs[r].pc) { TimeEffect(s, r, s.procs[r].pc, ch, s.procs[p]); }
    }
  }

  /** What exit records: turnaround is the time since creation, and waiting the rest of it. */
  lemma ExitTimes(s: Sys, r: nat)
    requires r < |s.procs| && TimeOk(s, s.procs[r]) && s.procs[r].pc.ExitOwn?
    ensures var z := Left(s, r);
      && z.turnaround == s.ticks - z.creation && z.waiting + z.run == z.turnaround && z.run == s.procs[r].run
      && z.creation == s.procs[r].creation
  {}

  lemma TimesKeep(s: Sys, l: Label)
    requires Core(s) && Times(s) && Enabled(s, l)
    ensures Times(Next(s, l))
  {
    hide Core, Stepped, Ready, Preemptible, CanMove;
    match l {
      case Choose(c, p) =>
      case LockChosen(c) =>
      case Switch(c) =>
      case Done(c) =>
      case Step(c, ch) => TimeStep(s, c, s.cpus[c].proc.value, ch);
      case Preempt(c) => TimePreempt(s, c, s.cpus[c].proc.value);
      case SwitchOut(c) =>
        assert TimeOk(s, s.procs[s.cpus[c].proc.value]);
      case Tick =>
        assert forall p :: 0 <= p < |s.procs| ==> TimeOk(s, s.procs[p]);
    }
  }

  lemma TimePreempt(s: Sys, c: nat, r: nat)
    requires Times(s) && r < |s.procs| && Preemptible(s.procs[r].pc) && s.procs[r].lock.None?
    ensures Times(Move(s, c, r, s.procs[r].pc, Yield(s.procs[r].pc)))
  {
    var t := Move(s, c, r, s.procs[r].pc, Yield(s.procs[r].pc));
    assert CanMove(s, r, Yield(s.procs[r].pc));
    hide LockOf, HasWait, HasSpin;
    forall p | 0 <= p < |t.procs| ensures TimeOk(t, t.procs[p]) {
      MoveAt(s, c, r, Yield(s.procs[r].pc), p);
      assert TimeOk(s, s.procs[p]);
    }
  }
}
