/** The exact account of a process's time, counted over the steps of a run. */
module ProcAccount {
  import opened ProcState
  import opened ProcInv
  import opened ProcSteps
  import opened ProcRuns
  import opened ProcLife

  /** The step creates process p. */
  predicate Born(s: Sys, l: Label, p: nat)
    requires Enabled(s, l) && p < |s.procs|
  {
    p < |Next(s, l).procs| && s.procs[p].state == UNUSED && Next(s, l).procs[p].state != UNUSED
  }

  /** Exists and is neither RUNNING nor a zombie. */
  predicate Waiting(p: Proc) { p.state in {USED, RUNNABLE, SLEEPING} }

  /** Counts clock ticks of a kind (`hit`) since process p was created. */
  function Tally(s: Sys, l: Label, p: nat, had: nat, hit: bool): nat
    requires Enabled(s, l) && p < |s.procs|
  {
    if Born(s, l, p) then 0 else if l.Tick? && hit then had + 1 else had
  }

  /** How many clock ticks of the run since process p was created last came while it was RUNNING;
      `had` is the count when the run begins. */
  function TicksRunning(s: Sys, ls: seq<Label>, p: nat, had: nat): nat
    requires IsRun(s, ls) && p < |s.procs|
    decreases |ls|
  {
    if ls == [] then had
    else
      SameTable(s, ls[0]);
      TicksRunning(Next(s, ls[0]), ls[1..], p, Tally(s, ls[0], p, had, s.procs[p].state == RUNNING))
  }

  /** And how many came while it was Waiting. */
  function TicksWaiting(s: Sys, ls: seq<Label>, p: nat, had: nat): nat
    requires IsRun(s, ls) && p < |s.procs|
    decreases |ls|
  {
    if ls == [] then had
    else
      SameTable(s, ls[0]);
      TicksWaiting(Next(s, ls[0]), ls[1..], p, Tally(s, ls[0], p, had, Waiting(s.procs[p])))
  }

  /** The record of a process agrees with the ticks counted. */
  predicate Accounted(ticks: nat, p: Proc, ran: nat, waited: nat) {
    && (p.state != UNUSED ==> p.run == ran)
    && (p.state != UNUSED && p.state != ZOMBIE ==> ticks == p.creation + ran + waited)
    && (p.state == ZOMBIE ==> p.waiting == waited && p.turnaround == ran + waited)
  }

  /** What a step that is no tick does to the times of a process that exists before and after it. */
  predicate TimesStay(ticks: nat, a: Proc, b: Proc) {
    && b.run == a.run && b.creation == a.creation
    && (a.state == ZOMBIE ==> b.state == ZOMBIE && b.waiting == a.waiting && b.turnaround == a.turnaround)
    && (a.state != ZOMBIE && b.state == ZOMBIE ==>
          b.turnaround == ticks - a.creation && b.waiting == ticks - a.creation - a.run)
  }

  lemma EffectTimes(s: Sys, r: nat, pc: Pc, ch: Choice, a: Proc)
    requires pc.ForkMade? || pc.ForkGo? ==> a.state == USED
    ensures var e := Effect(s.ticks, r, pc, ch, a);
            a.state != UNUSED && e.state != UNUSED ==> TimesStay(s.ticks, a, e)
  {}

  /** The times of process p stay, but for what its exit records. */
  ghost predicate TimesKept(s: Sys, l: Label, p: nat)
    requires Enabled(s, l) && p < |s.procs|
  {
    && p < |Next(s, l).procs| && Next(s, l).ticks == s.ticks
    && var b := Next(s, l).procs[p];
       s.procs[p].state != UNUSED && b.state != UNUSED ==> TimesStay(s.ticks, s.procs[p], b)
  }

  lemma StepTimes(s: Sys, c: nat, ch: Choice, p: nat)
    requires Core(s) && Enabled(s, Step(c, ch)) && p < |s.procs|
    ensures TimesKept(s, Step(c, ch), p)
  {
    hide LocksOk, CpuOk, ProcOk, PcAfter, CanMove, CanBegin, Making, Stepped, Leaves, Effect;
    var r := s.cpus[c].proc.value;
    SteppedAt(s, c, r, ch, p);
    assert MakeOk(s, r) && MakeOk(s, p);
    TargetUsed(s, r);
    if p == Target(r, s.procs[r].pc) { EffectTimes(s, r, s.procs[r].pc, ch, s.procs[p]); }
  }

  lemma GivingUpTimes(s: Sys, c: nat, p: nat)
    requires Core(s) && Times(s) && Enabled(s, SwitchOut(c)) && p < |s.procs|
    ensures TimesKept(s, SwitchOut(c), p)
  {
    hide LocksOk, CpuOk, ProcOk, MakeOk, PcOk, Out;
    assert TimeOk(s, s.procs[p]);
    CurrentRuns(s, c);
  }

  lemma PreemptTimes(s: Sys, c: nat, p: nat)
    requires Enabled(s, Preempt(c)) && p < |s.procs|
    ensures TimesKept(s, Preempt(c), p)
  {
    hide CanMove, LockOf, HasWait, HasSpin;
    var r := s.cpus[c].proc.value;
    YieldLocks(s, r);
    MoveAt(s, c, r, Yield(s.procs[r].pc), p);
  }

  lemma QuietTimes(s: Sys, l: Label, p: nat)
    requires Enabled(s, l) && !l.Step? && !l.SwitchOut? && !l.Preempt? && !l.Tick? && p < |s.procs|
    ensures TimesKept(s, l, p)
  {
    hide Preemptible, CanMove, Leaves;
  }

  lemma OtherTimes(s: Sys, l: Label, p: nat)
    requires Core(s) && Times(s) && Enabled(s, l) && !l.Step? && !l.Tick? && p < |s.procs|
    ensures TimesKept(s, l, p)
  {
    hide Core, Times, Enabled, TimesKept;
    match l {
      case SwitchOut(c) => GivingUpTimes(s, c, p);
      case Preempt(c) => PreemptTimes(s, c, p);
      case _ => QuietTimes(s, l, p);
    }
  }

  lemma TickTimes(s: Sys, p: nat)
    requires p < |s.procs|
    ensures var t := Next(s, Tick);
            && t.ticks == s.ticks + 1
            && t.procs[p] == s.procs[p].(run := s.procs[p].run + if s.procs[p].state == RUNNING then 1 else 0)
  {}

  lemma AccountStep(s: Sys, l: Label, p: nat, ran: nat, waited: nat)
    requires Inv(s) && Kids(s) && Enabled(s, l) && p < |s.procs| && Accounted(s.ticks, s.procs[p], ran, waited)
    ensures |Next(s, l).procs| == |s.procs|
    ensures var t, a := Next(s, l), s.procs[p];
            Accounted(t.ticks, t.procs[p], Tally(s, l, p, ran, a.state == RUNNING), Tally(s, l, p, waited, Waiting(a)))
  {
    hide Core, Family, Times, SleepLock, Waits, Kids, Enabled, Next;
    SameTable(s, l);
    LivesKeep(s, l, p);
    if l.Tick? {
      TickTimes(s, p);
    } else if l.Step? {
      StepTimes(s, l.c, l.choice, p);
    } else {
      OtherTimes(s, l, p);
    }
  }

  lemma {:induction false} RunAccounts(s: Sys, ls: seq<Label>, p: nat, ran: nat, waited: nat)
    requires Inv(s) && Kids(s) && IsRun(s, ls) && p < |s.procs| && Accounted(s.ticks, s.procs[p], ran, waited)
    ensures |After(s, ls).procs| == |s.procs|
    ensures var t := After(s, ls);
            Accounted(t.ticks, t.procs[p], TicksRunning(s, ls, p, ran), TicksWaiting(s, ls, p, waited))
    decreases |ls|
  {
    hide Inv, Kids, Enabled, Next, Accounted;
    if ls != [] {
      AccountStep(s, ls[0], p, ran, waited);
      InvKeeps(s, ls[0]);
      KidsKeep(s, ls[0]);
      var ran' := Tally(s, ls[0], p, ran, s.procs[p].state == RUNNING);
      var waited' := Tally(s, ls[0], p, waited, Waiting(s.procs[p]));
      RunAccounts(Next(s, ls[0]), ls[1..], p, ran', waited');
    }
  }

  /** In every run from the start, the run time of a process is the number of ticks at which it was
      RUNNING, and when it is a zombie its waiting time is the number of the others up to its exit. */
  lemma AccountsAreExact(n: nat, cpus: nat, ticks: nat, ls: seq<Label>, p: nat)
    requires p < n && IsRun(Start(n, cpus, ticks), ls)
    ensures var s, t := Start(n, cpus, ticks), After(Start(n, cpus, ticks), ls);
            && |t.procs| == n && (t.procs[p].state != UNUSED ==> t.procs[p].run == TicksRunning(s, ls, p, 0))
            && (t.procs[p].state == ZOMBIE ==>
                  && t.procs[p].waiting == TicksWaiting(s, ls, p, 0)
                  && t.procs[p].turnaround == TicksRunning(s, ls, p, 0) + TicksWaiting(s, ls, p, 0))
  {
    hide Inv, IsRun, After, TicksRunning, TicksWaiting;
    StartOk(n, cpus, ticks);
    RunAccounts(Start(n, cpus, ticks), ls, p, 0, 0);
  }
}
