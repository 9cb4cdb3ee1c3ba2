/** fork, run by itself: a new process, or no trace of one. */
module ProcFork {
  import opened Wrappers
  import opened ProcState
  import opened ProcInv
  import opened ProcAlone
  import opened ProcCalls
  import opened ProcRuns
  import opened ProcSwitch

  /** The record of a new process: allocated, and then made runnable. */
  function Allocated(s: Sys, r: nat, p: Proc): Proc {
    p.(state := USED, creation := s.ticks, run := 0, turnaround := 0, waiting := 0, maker := Some(r))
  }

  function Child(s: Sys, r: nat, p: Proc): Proc {
    p.(state := RUNNABLE, parent := Some(r), creation := s.ticks, run := 0, turnaround := 0, waiting := 0,
       pc := Off(User), maker := None)
  }

  /** The places of fork, and what each step writes in the new process. */
  lemma ForkSteps(b: Sys, r: nat, q: nat)
    requires r < |b.procs| && q < |b.procs| && b.procs[q].lock == None && b.wait == None
    ensures b.procs[r].pc == ForkWant(q) ==> Steps(b, r, Go(true), ForkHave(q))
    ensures b.procs[r].pc == ForkHave(q) && b.procs[q].state != UNUSED ==> Steps(b, r, Go(true), User)
    ensures b.procs[r].pc == ForkMade(q) ==> Steps(b, r, Go(true), ForkFree(q))
    ensures b.procs[r].pc == ForkFree(q) ==> Steps(b, r, Go(true), ForkParent(q))
    ensures b.procs[r].pc == ForkNamed(q) ==> Steps(b, r, Go(true), ForkGo(q))
  {}

  lemma ForkChanges(b: Sys, r: nat, q: nat)
    requires r < |b.procs| && q < |b.procs| && b.procs[q].lock == None && b.wait == None
    ensures var p, pc := b.procs[q], b.procs[r].pc;
            && (pc == ForkHave(q) && p.state == UNUSED ==> Changes(b, r, Go(true), ForkMade(q), q, Allocated(b, r, p)))
            && (pc == ForkMade(q) ==> Changes(b, r, Go(false), User, q, Freed(p)))
            && (pc == ForkParent(q) ==> Changes(b, r, Go(true), ForkNamed(q), q, p.(parent := Some(r))))
            && (pc == ForkGo(q) ==>
                  Changes(b, r, Go(true), User, q, p.(state := RUNNABLE, pc := Off(User), maker := None)))
  {}

  /** allocproc: the slot is taken. */
  lemma Allocates(s: Sys, c: nat, r: nat, q: nat)
    requires Calls(s, c, r) && s.procs[r].pc == ForkWant(q) && q < |s.procs| && q != r
    requires s.procs[q].state == UNUSED && s.procs[q].lock == None && s.wait == None
    ensures var t := Place(With(s, q, Allocated(s, r, s.procs[q])), r, ForkMade(q));
            Calls(t, c, r) && Leads(c, Held(s, c, r), Held(t, c, r))
  {
    hide Leads, Held, PcOk, Out, Free, Steps, Changes;
    ForkSteps(s, r, q);
    ForkChanges(Place(s, r, ForkHave(q)), r, q);
    StepChange(s, c, r, ForkHave(q), Go(true), ForkMade(q), q, Allocated(s, r, s.procs[q]));
  }

  /** The parent is set, under wait_lock. */
  lemma Names(b: Sys, c: nat, r: nat, q: nat)
    requires Calls(b, c, r) && b.procs[r].pc == ForkMade(q) && q < |b.procs| && q != r
    requires b.procs[q].lock == None && b.wait == None
    ensures var t := Place(With(b, q, b.procs[q].(parent := Some(r))), r, ForkNamed(q));
            Calls(t, c, r) && Leads(c, Held(b, c, r), Held(t, c, r))
  {
    hide Leads, Held, PcOk, Out, Free, Steps, Changes;
    var m, me := Place(b, r, ForkFree(q)), b.procs[q].(parent := Some(r));
    ForkSteps(b, r, q);
    StepsTo(b, c, r, Go(true), ForkFree(q));
    ForkSteps(m, r, q);
    NamesChange(m, r, q);
    StepChange(m, c, r, ForkParent(q), Go(true), ForkNamed(q), q, me);
    assert Place(With(m, q, me), r, ForkNamed(q)) == Place(With(b, q, me), r, ForkNamed(q));
    LeadsTrans(c, Held(b, c, r), Held(m, c, r), Held(Place(With(b, q, me), r, ForkNamed(q)), c, r));
  }

  lemma NamesChange(m: Sys, r: nat, q: nat)
    requires r < |m.procs| && q < |m.procs| && q != r && m.procs[q].lock == None && m.wait == None
    ensures Changes(Place(m, r, ForkParent(q)), r, Go(true), ForkNamed(q), q, m.procs[q].(parent := Some(r)))
  {
    hide Changes;
    ForkChanges(Place(m, r, ForkParent(q)), r, q);
  }

  /** The child becomes runnable, and fork returns. */
  lemma Releases(b: Sys, c: nat, r: nat, q: nat)
    requires Calls(b, c, r) && b.procs[r].pc == ForkNamed(q) && q < |b.procs| && q != r
    requires b.procs[q].lock == None && b.wait == None
    ensures var t := Place(With(b, q, b.procs[q].(state := RUNNABLE, pc := Off(User), maker := None)), r, User);
            Leads(c, Held(b, c, r), t)
  {
    hide Leads, Held, PcOk, Out, Free, Steps, Changes;
    var m := Place(b, r, ForkGo(q));
    var me := b.procs[q].(state := RUNNABLE, pc := Off(User), maker := None);
    ForkSteps(b, r, q);
    ForkChanges(m, r, q);
    var t := TakeAndChange(b, c, r, ForkGo(q), Go(true), q, me);
  }

  /** Writing process q and moving on twice is doing it once. */
  lemma Again(b: Sys, q: nat, me: Proc, r: nat, pc: Pc, me': Proc, pc': Pc)
    requires q < |b.procs| && r < |b.procs| && q != r
    ensures var m := Place(With(b, q, me), r, pc);
            && |m.procs| == |b.procs| && m.procs[q] == me && m.procs[r].pc == pc && m.wait == b.wait
            && Place(With(m, q, me'), r, pc') == Place(With(b, q, me'), r, pc')
  {}

  lemma Made(s: Sys, c: nat, r: nat, q: nat)
    requires Calls(s, c, r) && s.procs[r].pc == ForkWant(q) && q < |s.procs| && q != r
    requires s.procs[q].state == UNUSED && s.procs[q].lock == None && s.wait == None
    ensures var t := Place(With(s, q, Allocated(s, r, s.procs[q]).(parent := Some(r))), r, ForkNamed(q));
            Calls(t, c, r) && Leads(c, Held(s, c, r), Held(t, c, r))
  {
    hide Leads, Held, PcOk, Out, Free, Place, With;
    var me := Allocated(s, r, s.procs[q]);
    var m, t := Place(With(s, q, me), r, ForkMade(q)), Place(With(s, q, me.(parent := Some(r))), r, ForkNamed(q));
    Allocates(s, c, r, q);
    Again(s, q, me, r, ForkMade(q), me.(parent := Some(r)), ForkNamed(q));
    Names(m, c, r, q);
    LeadsTrans(c, Held(s, c, r), Held(m, c, r), Held(t, c, r));
  }

  /** fork into a free slot makes a runnable child of the caller, created now; nothing else changes. */
  lemma ForkMakes(s: Sys, c: nat, r: nat, q: nat) returns (t: Sys)
    requires In(s, c, r, ForkWant(q)) && q < |s.procs| && s.procs[q].state == UNUSED
    requires s.procs[q].lock == None && s.wait == None
    ensures Leads(c, s, t) && OnlyIn(s, t, {r, q}) && q != r && t.procs[r] == s.procs[r].(pc := User)
    ensures t.procs[q] == Child(s, r, s.procs[q])
  {
    hide Reachable, Leads, Held, PcOk, Out, Free, LockOf, HasWait, HasSpin;
    InCalls(s, c, r, ForkWant(q));
    Completes(s, c, r, q);
    t := Place(With(s, q, Child(s, r, s.procs[q])), r, User);
  }

  lemma Completes(s: Sys, c: nat, r: nat, q: nat)
    requires Calls(s, c, r) && s.procs[r].pc == ForkWant(q) && q < |s.procs| && q != r
    requires s.procs[q].state == UNUSED && s.procs[q].lock == None && s.wait == None
    ensures Leads(c, Held(s, c, r), Place(With(s, q, Child(s, r, s.procs[q])), r, User))
  {
    hide Leads, Held, PcOk, Out, Free, Place, With;
    var me := Allocated(s, r, s.procs[q]).(parent := Some(r));
    var o, t := Place(With(s, q, me), r, ForkNamed(q)), Place(With(s, q, Child(s, r, s.procs[q])), r, User);
    Made(s, c, r, q);
    Again(s, q, me, r, ForkNamed(q), Child(s, r, s.procs[q]), User);
    Releases(o, c, r, q);
    LeadsTrans(c, Held(s, c, r), Held(o, c, r), t);
  }

  lemma Unmade(s: Sys, c: nat, r: nat, q: nat)
    requires Calls(s, c, r) && s.procs[r].pc == ForkWant(q) && q < |s.procs| && q != r
    requires s.procs[q].state == UNUSED && s.procs[q].lock == None && s.wait == None
    ensures Leads(c, Held(s, c, r), Place(With(s, q, Freed(Allocated(s, r, s.procs[q]))), r, User))
  {
    hide Leads, Held, PcOk, Out, Free, Place, With, Changes, Freed;
    var me := Allocated(s, r, s.procs[q]);
    var m, t := Place(With(s, q, me), r, ForkMade(q)), Place(With(s, q, Freed(me)), r, User);
    Allocates(s, c, r, q);
    Again(s, q, me, r, ForkMade(q), Freed(me), User);
    ForkChanges(m, r, q);
    ChangesTo(m, c, r, Go(false), User, q, Freed(me));
    Again(s, q, Freed(me), r, User, me, User);
    HoldsNothing(t, c, r);
    LeadsTrans(c, Held(s, c, r), Held(m, c, r), t);
  }

  /** A fork that runs out of memory leaves the slot free. */
  lemma ForkGivesUp(s: Sys, c: nat, r: nat, q: nat) returns (t: Sys)
    requires In(s, c, r, ForkWant(q)) && q < |s.procs| && s.procs[q].state == UNUSED
    requires s.procs[q].lock == None && s.wait == None
    ensures Leads(c, s, t) && OnlyIn(s, t, {r, q}) && q != r && t.procs[r] == s.procs[r].(pc := User)
    ensures t.procs[q].state == UNUSED && t.procs[q].parent == None
  {
    hide Reachable, Leads, Held, PcOk, Out, Free, LockOf, HasWait, HasSpin;
    InCalls(s, c, r, ForkWant(q));
    Unmade(s, c, r, q);
    t := Place(With(s, q, Freed(Allocated(s, r, s.procs[q]))), r, User);
  }

  /** A fork that finds no free slot leaves everything as it was. */
  lemma ForkRefused(s: Sys, c: nat, r: nat, q: nat)
    requires In(s, c, r, ForkWant(q)) && q < |s.procs| && s.procs[q].state != UNUSED
    requires s.procs[q].lock == None && s.wait == None
    ensures Leads(c, s, Place(s, r, User))
  {
    hide Reachable, Leads, Held, PcOk, Out, Free, LockOf, HasWait, HasSpin, Steps;
    InCalls(s, c, r, ForkWant(q));
    ForkSteps(s, r, q);
    ForkSteps(Place(s, r, ForkHave(q)), r, q);
    StepStep(s, c, r, ForkHave(q), User);
    HoldsNothing(Place(s, r, User), c, r);
  }

  /** kill takes the slot of any pid, and 0 is the pid of the unused slots: marked there, the next
      process in the slot is born killed. */
  lemma KilledAtBirth() returns (t: Sys)
    ensures Reachable(t) && |t.procs| == 2 && t.procs[1].killed
    ensures t.procs[1].state == RUNNABLE && t.procs[1].parent == Some(INIT) && t.procs[1].run == 0
  {
    hide Reachable, Leads;
    var s := Start(2, 1, 0);
    StartReachable(s);
    t := SwitchRuns(s, 0, INIT);
    LeadsReachable(0, s, t);
    t := KillUnused(t);
    s := t;
    Begins(s, 0, INIT, ForkWant(1));
    t := ForkMakes(Place(s, INIT, ForkWant(1)), 0, INIT, 1);
    LeadsReachable(0, Place(s, INIT, ForkWant(1)), t);
  }

  lemma KillUnused(s: Sys) returns (t: Sys)
    requires In(s, 0, INIT, User) && |s.procs| == 2 && s.procs[1].state == UNUSED && s.procs[1].lock == None
    requires s.wait == None
    ensures In(t, 0, INIT, User) && |t.procs| == 2 && t.procs[1] == s.procs[1].(killed := true) && t.wait == None
  {
    hide Reachable, Leads;
    Begins(s, 0, INIT, KillWant(1));
    var m := Place(s, INIT, KillWant(1));
    t := KillWakes(m, 0, INIT, 1);
    LeadsReachable(0, m, t);
  }

  lemma StartReachable(s: Sys)
    requires s == Start(2, 1, 0)
    ensures Reachable(s)
  {
    hide Start;
    assert IsRun(Start(2, 1, 0), []) && After(Start(2, 1, 0), []) == s;
  }
}
