/** What the system calls achieve: each one, run by itself with the locks it needs free, comes to its
    end and has changed exactly what it is for. */
module ProcCalls {
  import opened Wrappers
  import opened ProcState
  import opened ProcInv
  import opened ProcSteps
  import opened ProcRuns
  import opened ProcAlone

  /** b with process r at pc. */
  function Place(b: Sys, r: nat, pc: Pc): (t: Sys)
    requires r < |b.procs|
    ensures |t.procs| == |b.procs|
  {
    b.(procs := b.procs[r := b.procs[r].(pc := pc)])
  }

  /** Process r can step to `to`, and writes nothing but its place. */
  ghost predicate Steps(b: Sys, r: nat, ch: Choice, to: Pc)
    requires r < |b.procs|
  {
    && !Leaves(b.procs[r].pc) && !b.procs[r].pc.AcqTake? && !b.procs[r].pc.RelHave?
    && (b.procs[r].pc.User? ==> ch.Begin? && CanBegin(b, r, ch.op))
    && PcAfter(b, r, ch) == to && Free(b, r, to)
    && var q := Target(r, b.procs[r].pc);
       q < |b.procs| ==> Effect(b.ticks, r, b.procs[r].pc, ch, b.procs[q]) == b.procs[q]
  }

  lemma StepsTo(b: Sys, c: nat, r: nat, ch: Choice, to: Pc)
    requires Calls(b, c, r) && Steps(b, r, ch, to)
    ensures Calls(Place(b, r, to), c, r) && Leads(c, Held(b, c, r), Held(Place(b, r, to), c, r))
  {
    hide Effect, PcAfter, Target, Free, PcOk, Out, Leaves, Held, CanBegin, Leads;
    assert Alone(b, r, ch) == Place(b, r, to);
    AloneCalls(b, c, r, ch);
    Stays(c, Held(Place(b, r, to), c, r));
    Proceeds(b, c, r, ch, Held(Place(b, r, to), c, r));
  }

  /** A step that writes process q too, which becomes me. */
  ghost predicate Changes(b: Sys, r: nat, ch: Choice, to: Pc, q: nat, me: Proc)
    requires r < |b.procs| && q < |b.procs|
  {
    && !Leaves(b.procs[r].pc) && !b.procs[r].pc.AcqTake? && !b.procs[r].pc.RelHave? && !b.procs[r].pc.User?
    && PcAfter(b, r, ch) == to && Free(b, r, to) && me.lock == b.procs[q].lock
    && Target(r, b.procs[r].pc) == q && Effect(b.ticks, r, b.procs[r].pc, ch, b.procs[q]) == me
  }

  function With(b: Sys, q: nat, me: Proc): (t: Sys)
    requires q < |b.procs|
    ensures |t.procs| == |b.procs|
  {
    b.(procs := b.procs[q := me])
  }

  lemma ChangesTo(b: Sys, c: nat, r: nat, ch: Choice, to: Pc, q: nat, me: Proc)
    requires Calls(b, c, r) && q < |b.procs| && Changes(b, r, ch, to, q, me)
    ensures var t := Place(With(b, q, me), r, to); Calls(t, c, r) && Leads(c, Held(b, c, r), Held(t, c, r))
  {
    hide Effect, PcAfter, Target, Free, PcOk, Out, Leaves, Held, CanBegin, Leads;
    var t := Place(With(b, q, me), r, to);
    assert Alone(b, r, ch) == t;
    AloneCalls(b, c, r, ch);
    Stays(c, Held(t, c, r));
    Proceeds(b, c, r, ch, Held(t, c, r));
  }

  lemma HoldsNothing(b: Sys, c: nat, r: nat)
    requires r < |b.procs| && b.procs[r].pc == User
    ensures Held(b, c, r) == b
  {}

  /** Nothing but the records of ps changed. */
  ghost predicate OnlyIn(s: Sys, t: Sys, ps: set<nat>) {
    && t == s.(procs := t.procs) && |t.procs| == |s.procs|
    && forall p :: 0 <= p < |s.procs| && p !in ps ==> t.procs[p] == s.procs[p]
  }

  lemma StepStep(b: Sys, c: nat, r: nat, mid: Pc, to: Pc)
    requires Calls(b, c, r) && Steps(b, r, Go(true), mid) && Steps(Place(b, r, mid), r, Go(true), to)
    ensures var t := Place(b, r, to); Calls(t, c, r) && Leads(c, Held(b, c, r), Held(t, c, r))
  {
    hide Leads, Held, PcOk, Out, Free, Steps;
    var m := Place(b, r, mid);
    StepsTo(b, c, r, Go(true), mid);
    StepsTo(m, c, r, Go(true), to);
    assert Place(m, r, to) == Place(b, r, to);
    LeadsTrans(c, Held(b, c, r), Held(m, c, r), Held(Place(b, r, to), c, r));
  }

  lemma StepChange(b: Sys, c: nat, r: nat, mid: Pc, ch: Choice, to: Pc, q: nat, me: Proc)
    requires Calls(b, c, r) && q < |b.procs| && q != r && Steps(b, r, Go(true), mid)
    requires Changes(Place(b, r, mid), r, ch, to, q, me)
    ensures var t := Place(With(b, q, me), r, to); Calls(t, c, r) && Leads(c, Held(b, c, r), Held(t, c, r))
  {
    hide Leads, Held, PcOk, Out, Free, Steps, Changes;
    var m, t := Place(b, r, mid), Place(With(b, q, me), r, to);
    StepsTo(b, c, r, Go(true), mid);
    ChangesTo(m, c, r, ch, to, q, me);
    assert Place(With(m, q, me), r, to) == t;
    LeadsTrans(c, Held(b, c, r), Held(m, c, r), Held(t, c, r));
  }

  /** Taking a lock, and then the step that writes process q and returns. */
  lemma TakeAndChange(b: Sys, c: nat, r: nat, mid: Pc, ch: Choice, q: nat, me: Proc) returns (t: Sys)
    requires Calls(b, c, r) && q < |b.procs| && q != r && Steps(b, r, Go(true), mid)
    requires Changes(Place(b, r, mid), r, ch, User, q, me)
    ensures Leads(c, Held(b, c, r), t) && t == Place(With(b, q, me), r, User)
    ensures OnlyIn(b, t, {r, q}) && t.procs[r] == b.procs[r].(pc := User) && t.procs[q] == me
  {
    hide Leads, Held, PcOk, Out, Free, Steps, Changes;
    t := Place(With(b, q, me), r, User);
    StepChange(b, c, r, mid, ch, User, q, me);
    HoldsNothing(t, c, r);
  }

  /** Process r, running on CPU c, is at pc and holds no lock there. */
  ghost predicate In(s: Sys, c: nat, r: nat, pc: Pc) {
    && Reachable(s) && Current(s, c) && s.cpus[c].proc == Some(r) && s.procs[r].pc == pc
    && LockOf(r, pc) == None && !HasWait(pc) && !HasSpin(pc)
  }

  /** The calls that process r can make at any time in user code. */
  ghost predicate Call(s: Sys, r: nat, op: Pc) {
    || op == WaitWant || op.SleepWant? || (op.KillWant? && op.q < |s.procs|) || (op.ForkWant? && op.q < |s.procs|)
    || (op == ExitWant && r != INIT && s.owner != Some(r)) || (op == AcqWant && s.owner != Some(r))
    || (op == RelWant && s.owner == Some(r)) || (op.Wake? && op.chan.Other? && op.k == 0 && op.next == Plain)
  }

  /** Each of them begins with the one step that enters it. */
  lemma Begins(s: Sys, c: nat, r: nat, op: Pc)
    requires In(s, c, r, User) && Call(s, r, op)
    ensures Leads(c, s, Place(s, r, op)) && In(Place(s, r, op), c, r, op)
  {
    hide Leads, Held, Reachable, PcOk, Out;
    InCalls(s, c, r, User);
    StepsTo(s, c, r, Begin(op), op);
    assert Held(Place(s, r, op), c, r) == Place(s, r, op) by { CallHolds(s, c, r, op); }
    LeadsReachable(c, s, Place(s, r, op));
  }

  lemma CallHolds(s: Sys, c: nat, r: nat, op: Pc)
    requires r < |s.procs| && Call(s, r, op)
    ensures Held(Place(s, r, op), c, r) == Place(s, r, op)
  {}

  lemma InCalls(s: Sys, c: nat, r: nat, pc: Pc)
    requires In(s, c, r, pc)
    ensures Calls(s, c, r) && Held(s, c, r) == s && s.procs[r].state == RUNNING
  {
    hide Reachable, PcOk, LocksOk, MakeOk, Family, Times, SleepLock, Waits, LockOf, HasWait, HasSpin;
    ReachableOk(s);
    CurrentRuns(s, c);
    assert ProcOk(s, r);
  }

  // wait.

  /** The locks that wait takes are free. */
  predicate WaitFree(b: Sys, r: nat) {
    b.wait == None && forall k :: 0 <= k < |b.procs| && b.procs[k].parent == Some(r) ==> b.procs[k].lock == None
  }

  lemma ScanSteps(b: Sys, r: nat, k: nat, kids: bool)
    requires r < |b.procs| && WaitFree(b, r) && b.procs[r].pc == WaitScan(k, kids) && k < |b.procs|
    ensures Steps(b, r, Go(true), if b.procs[k].parent == Some(r) then WaitHave(k) else WaitScan(k + 1, kids))
  {}

  lemma HaveSteps(b: Sys, r: nat, k: nat)
    requires r < |b.procs| && WaitFree(b, r) && b.procs[r].pc == WaitHave(k) && k < |b.procs|
    requires b.procs[k].state != ZOMBIE
    ensures Steps(b, r, Go(true), WaitScan(k + 1, true))
  {}

  /** One turn of wait's loop at slot k, which holds no zombie child. */
  lemma ScanOne(b: Sys, c: nat, r: nat, k: nat, kids: bool)
    requires Calls(b, c, r) && WaitFree(b, r) && b.procs[r].pc == WaitScan(k, kids) && k < |b.procs|
    requires !ZombieChild(b, r, k)
    ensures var t := Place(b, r, WaitScan(k + 1, kids || b.procs[k].parent == Some(r)));
            Calls(t, c, r) && WaitFree(t, r) && Leads(c, Held(b, c, r), Held(t, c, r))
  {
    hide Leads, Held, PcOk, Out, Free, Steps;
    ScanSteps(b, r, k, kids);
    if b.procs[k].parent == Some(r) {
      StepsTo(b, c, r, Go(true), WaitHave(k));
      var m := Place(b, r, WaitHave(k));
      HaveSteps(m, r, k);
      StepsTo(m, c, r, Go(true), WaitScan(k + 1, true));
      assert Place(m, r, WaitScan(k + 1, true)) == Place(b, r, WaitScan(k + 1, true));
      LeadsTrans(c, Held(b, c, r), Held(m, c, r), Held(Place(b, r, WaitScan(k + 1, true)), c, r));
    } else {
      StepsTo(b, c, r, Go(true), WaitScan(k + 1, kids));
    }
  }

  lemma {:induction false} ScanTo(b: Sys, c: nat, r: nat, k: nat, kids: bool, q: nat) returns (found: bool)
    requires Calls(b, c, r) && WaitFree(b, r) && b.procs[r].pc == WaitScan(k, kids) && k <= q <= |b.procs|
    requires forall j :: k <= j < q ==> !ZombieChild(b, r, j)
    ensures found <==> kids || exists j :: k <= j < q && b.procs[j].parent == Some(r)
    ensures var t := Place(b, r, WaitScan(q, found));
            Calls(t, c, r) && WaitFree(t, r) && Leads(c, Held(b, c, r), Held(t, c, r))
    decreases q - k
  {
    hide Leads, Held, PcOk, Out, Free;
    if k == q {
      found := kids;
      assert Place(b, r, WaitScan(q, kids)) == b;
      Stays(c, Held(b, c, r));
    } else {
      ScanOne(b, c, r, k, kids);
      var m := Place(b, r, WaitScan(k + 1, kids || b.procs[k].parent == Some(r)));
      forall j | k + 1 <= j < q ensures !ZombieChild(m, r, j) && m.procs[j].parent == b.procs[j].parent {
        assert !ZombieChild(b, r, j);
      }
      found := ScanTo(m, c, r, k + 1, kids || b.procs[k].parent == Some(r), q);
      assert Place(m, r, WaitScan(q, found)) == Place(b, r, WaitScan(q, found));
      LeadsTrans(c, Held(b, c, r), Held(m, c, r), Held(Place(b, r, WaitScan(q, found)), c, r));
    }
  }

  lemma StartsScan(s: Sys, c: nat, r: nat)
    requires In(s, c, r, WaitWant) && WaitFree(s, r)
    ensures var t := Place(s, r, WaitScan(0, false));
            Calls(t, c, r) && WaitFree(t, r) && Leads(c, s, Held(t, c, r)) && s.procs[r].state == RUNNING
  {
    hide Reachable, Leads, Held, PcOk, Out;
    InCalls(s, c, r, WaitWant);
    StepsTo(s, c, r, Go(true), WaitScan(0, false));
  }

  lemma Collects(b: Sys, c: nat, r: nat, q: nat, ok: bool) returns (t: Sys)
    requires Calls(b, c, r) && WaitFree(b, r) && b.procs[r].pc.WaitScan? && b.procs[r].pc.k == q < |b.procs|
    requires ZombieChild(b, r, q) && q != r
    ensures Leads(c, Held(b, c, r), t) && OnlyIn(b, t, {r, q}) && t.procs[r] == b.procs[r].(pc := User)
    ensures if ok then t.procs[q].state == UNUSED && t.procs[q].parent == None else t.procs[q] == b.procs[q]
  {
    hide Leads, PcOk, Out, Steps, Changes, Held, Free, Freed;
    ScanSteps(b, r, q, b.procs[r].pc.kids);
    CollectChanges(Place(b, r, WaitHave(q)), r, q, ok);
    FreedIs(b.procs[q]);
    t := TakeAndChange(b, c, r, WaitHave(q), Go(ok), q, if ok then Freed(b.procs[q]) else b.procs[q]);
  }

  lemma FreedIs(p: Proc)
    ensures Freed(p).state == UNUSED && Freed(p).parent == None
  {}

  lemma CollectChanges(b: Sys, r: nat, q: nat, ok: bool)
    requires r < |b.procs| && q < |b.procs| && b.procs[r].pc == WaitHave(q) && b.procs[q].state == ZOMBIE
    ensures Changes(b, r, Go(ok), User, q, if ok then Freed(b.procs[q]) else b.procs[q])
  {}

  /** wait with a zombie child collects the first one: its slot is free again, and nothing else has
      changed. When the copy of the exit status fails, nothing has. */
  lemma WaitCollects(s: Sys, c: nat, r: nat, ok: bool) returns (q: nat, t: Sys)
    requires In(s, c, r, WaitWant) && WaitFree(s, r) && exists k :: 0 <= k < |s.procs| && ZombieChild(s, r, k)
    ensures q < |s.procs| && ZombieChild(s, r, q) && forall j :: 0 <= j < q ==> !ZombieChild(s, r, j)
    ensures Leads(c, s, t) && OnlyIn(s, t, {r, q}) && q != r && t.procs[r] == s.procs[r].(pc := User)
    ensures if ok then t.procs[q].state == UNUSED && t.procs[q].parent == None else t.procs[q] == s.procs[q]
  {
    hide Leads, PcOk, Out, Held, Reachable, Free;
    q := FirstZombie(s, r);
    StartsScan(s, c, r);
    var b := Place(s, r, WaitScan(0, false));
    forall j | 0 <= j <= q ensures ZombieChild(b, r, j) == ZombieChild(s, r, j) {}
    var found := ScanTo(b, c, r, 0, false, q);
    var m := Place(b, r, WaitScan(q, found));
    t := Collects(m, c, r, q, ok);
    LeadsTrans(c, s, Held(b, c, r), Held(m, c, r));
    LeadsTrans(c, s, Held(m, c, r), t);
  }

  lemma {:induction false} FirstZombie(s: Sys, r: nat) returns (q: nat)
    requires exists k :: 0 <= k < |s.procs| && ZombieChild(s, r, k)
    ensures q < |s.procs| && ZombieChild(s, r, q) && forall j :: 0 <= j < q ==> !ZombieChild(s, r, j)
  {
    q := 0;
    while !ZombieChild(s, r, q)
      invariant q < |s.procs| && (forall j :: 0 <= j < q ==> !ZombieChild(s, r, j))
      decreases |s.procs| - q
    {
      q := q + 1;
    }
  }

  // Giving up the CPU.

  /** Process r has left CPU c, as Left says. */
  function Gone(b: Sys, c: nat, r: nat): Sys
    requires r < |b.procs| && c < |b.cpus|
  {
    b.(procs := b.procs[r := Left(b, r).(lock := None, cpu := None)], cpus := b.cpus[c := Cpu(None, Choosing)])
  }

  /** Process r has switched away and the scheduler still holds its lock. */
  function Leaving(b: Sys, c: nat, r: nat): Sys
    requires r < |b.procs| && c < |b.cpus|
  {
    b.(procs := b.procs[r := Left(b, r).(lock := Some(c))], cpus := b.cpus[c := Cpu(Some(r), Back(r))])
  }

  lemma LeftHeld(b: Sys, c: nat, r: nat)
    requires r < |b.procs| && Leaves(b.procs[r].pc) && Free(b, r, b.procs[r].pc)
    ensures var s := Held(b, c, r);
            && s == b.(procs := b.procs[r := b.procs[r].(lock := Some(c))],
                       wait := if b.procs[r].pc.ExitOwn? then Some(c) else b.wait)
            && Left(s, r) == Left(b, r).(lock := Some(c)) && (b.procs[r].pc.ExitOwn? ==> b.wait == None)
  {
    LeaveLocks(r, b.procs[r].pc);
    hide LockOf, HasWait, HasSpin;
  }

  lemma Departs(b: Sys, c: nat, r: nat)
    requires Calls(b, c, r) && Leaves(b.procs[r].pc)
    ensures Leads(c, Held(b, c, r), Gone(b, c, r))
  {
    hide PcOk, Out, LockOf, HasWait, HasSpin, Leads, Held, Left, Leaves, Free;
    var s, m := Held(b, c, r), Leaving(b, c, r);
    LeftHeld(b, c, r);
    assert Enabled(s, SwitchOut(c)) && Next(s, SwitchOut(c)) == m;
    assert Enabled(m, Done(c)) && Next(m, Done(c)) == Gone(b, c, r);
    Stays(c, Gone(b, c, r));
    LeadsOn(c, m, Done(c), Gone(b, c, r));
    LeadsOn(c, s, SwitchOut(c), Gone(b, c, r));
  }

  /** Process r sleeps on chan, off its CPU, and will go on at `back`; nothing else has changed. */
  ghost predicate FellAsleep(s: Sys, t: Sys, c: nat, r: nat, chan: Chan, back: Pc)
    requires r < |s.procs| && c < |s.cpus|
  {
    var me := s.procs[r].(state := SLEEPING, chan := Some(chan), pc := Off(back), cpu := None);
    t == s.(procs := s.procs[r := me], cpus := s.cpus[c := Cpu(None, Choosing)])
  }

  lemma EndSteps(b: Sys, r: nat, kids: bool)
    requires r < |b.procs| && b.procs[r].pc == WaitScan(|b.procs|, kids) && b.procs[r].lock == None && b.wait == None
    ensures Steps(b, r, Go(true), if kids && !b.procs[r].killed then WaitOwn else User)
  {}

  lemma OwnSteps(b: Sys, r: nat, pc: Pc, to: Pc)
    requires r < |b.procs| && b.procs[r].pc == pc && b.procs[r].lock == None
    requires (pc, to) in {(WaitOwn, WaitGo), (AcqOwn, AcqGo)} || (pc.SleepWant? && to == SleepOwn(pc.x))
    ensures Steps(b, r, Go(true), to)
  {}

  /** The channel that a thread at this place sleeps on, and where it goes on. */
  function SleepsOn(r: nat, to: Pc): (Chan, Pc) {
    if to.SleepOwn? then (Other(to.x), User) else if to == WaitGo then (Of(r), WaitWant) else (Lock, AcqWant)
  }

  lemma GoneAsleep(b: Sys, c: nat, r: nat, to: Pc)
    requires r < |b.procs| && c < |b.cpus| && b.procs[r].lock == None && (to in {WaitGo, AcqGo} || to.SleepOwn?)
    ensures FellAsleep(b, Gone(Place(b, r, to), c, r), c, r, SleepsOn(r, to).0, SleepsOn(r, to).1) && Leaves(to)
  {}

  /** The end of sleep, under the process's own lock. */
  lemma SleepsNow(b: Sys, c: nat, r: nat, to: Pc) returns (t: Sys)
    requires Calls(b, c, r) && b.procs[r].lock == None
    requires (b.procs[r].pc, to) in {(WaitOwn, WaitGo), (AcqOwn, AcqGo)}
             || (b.procs[r].pc.SleepWant? && to == SleepOwn(b.procs[r].pc.x))
    ensures Leads(c, Held(b, c, r), t) && FellAsleep(b, t, c, r, SleepsOn(r, to).0, SleepsOn(r, to).1)
  {
    hide Leads, PcOk, Held, Steps, Free, FellAsleep, SleepsOn, Gone, Leaves;
    OwnSteps(b, r, b.procs[r].pc, to);
    StepsTo(b, c, r, Go(true), to);
    GoneAsleep(b, c, r, to);
    t := Gone(Place(b, r, to), c, r);
    Departs(Place(b, r, to), c, r);
    LeadsTrans(c, Held(b, c, r), Held(Place(b, r, to), c, r), t);
  }

  lemma ScanAll(s: Sys, c: nat, r: nat) returns (kids: bool)
    requires In(s, c, r, WaitWant) && WaitFree(s, r) && forall k :: 0 <= k < |s.procs| ==> !ZombieChild(s, r, k)
    ensures kids <==> exists k :: 0 <= k < |s.procs| && s.procs[k].parent == Some(r)
    ensures var e := Place(s, r, WaitScan(|s.procs|, kids)); Calls(e, c, r) && Leads(c, s, Held(e, c, r))
  {
    hide Leads, PcOk, Out, Held, Reachable, Free;
    StartsScan(s, c, r);
    var n, b := |s.procs|, Place(s, r, WaitScan(0, false));
    forall j | 0 <= j < n ensures !ZombieChild(b, r, j) && b.procs[j].parent == s.procs[j].parent {
      assert !ZombieChild(s, r, j);
    }
    kids := ScanTo(b, c, r, 0, false, n);
    assert Place(b, r, WaitScan(n, kids)) == Place(s, r, WaitScan(n, kids));
    LeadsTrans(c, s, Held(b, c, r), Held(Place(s, r, WaitScan(n, kids)), c, r));
  }

  /** wait without a zombie child: with children it sleeps, unless the process has been killed;
      without any it returns at once. */
  lemma WaitSleeps(s: Sys, c: nat, r: nat) returns (t: Sys)
    requires In(s, c, r, WaitWant) && WaitFree(s, r) && s.procs[r].lock == None
    requires forall k :: 0 <= k < |s.procs| ==> !ZombieChild(s, r, k)
    ensures Leads(c, s, t)
    ensures if !s.procs[r].killed && (exists k :: 0 <= k < |s.procs| && s.procs[k].parent == Some(r))
            then FellAsleep(s, t, c, r, Of(r), WaitWant) else t == Place(s, r, User)
  {
    hide Leads, PcOk, Out, Held, Reachable, Steps, LockOf, HasWait, HasSpin;
    var kids := ScanAll(s, c, r);
    var e := Place(s, r, WaitScan(|s.procs|, kids));
    EndSteps(e, r, kids);
    if kids && !s.procs[r].killed {
      t := ScanSleeps(e, c, r);
      LeadsTrans(c, s, Held(e, c, r), t);
    } else {
      StepsTo(e, c, r, Go(true), User);
      t := Place(e, r, User);
      HoldsNothing(t, c, r);
      LeadsTrans(c, s, Held(e, c, r), t);
    }
  }

  lemma ScanSleeps(e: Sys, c: nat, r: nat) returns (t: Sys)
    requires Calls(e, c, r) && Steps(e, r, Go(true), WaitOwn) && e.procs[r].lock == None
    ensures Leads(c, Held(e, c, r), t) && FellAsleep(e, t, c, r, Of(r), WaitWant)
  {
    hide Leads, PcOk, Out, Held, Steps, Free;
    StepsTo(e, c, r, Go(true), WaitOwn);
    var o := Place(e, r, WaitOwn);
    t := SleepsNow(o, c, r, WaitGo);
    LeadsTrans(c, Held(e, c, r), Held(o, c, r), t);
  }

  /** sleep(x): the process sleeps on x, off its CPU. */
  lemma SleepSleeps(s: Sys, c: nat, r: nat, x: nat) returns (t: Sys)
    requires In(s, c, r, SleepWant(x)) && s.procs[r].lock == None
    ensures Leads(c, s, t) && FellAsleep(s, t, c, r, Other(x), User)
  {
    hide Reachable, Leads, Held, Calls;
    InCalls(s, c, r, SleepWant(x));
    t := SleepsNow(s, c, r, SleepOwn(x));
  }

  // kill and fork.

  lemma KillSteps(b: Sys, r: nat, q: nat)
    requires r < |b.procs| && q < |b.procs|
    ensures b.procs[r].pc == KillWant(q) && b.procs[q].lock == None ==> Steps(b, r, Go(true), KillHave(q))
    ensures b.procs[r].pc == KillHave(q) ==> Changes(b, r, Go(true), User, q, Woken(b.procs[q]).(killed := true))
  {}

  /** kill marks its victim, wakes it if it sleeps, and does nothing else to the table. */
  lemma KillWakes(s: Sys, c: nat, r: nat, q: nat) returns (t: Sys)
    requires In(s, c, r, KillWant(q)) && q < |s.procs| && q != r && s.procs[q].lock == None
    ensures Leads(c, s, t) && OnlyIn(s, t, {r, q}) && t.procs[r] == s.procs[r].(pc := User)
    ensures var a := s.procs[q];
            t.procs[q] == a.(killed := true, state := if a.state == SLEEPING then RUNNABLE else a.state)
  {
    hide Reachable, Leads, Held, PcOk, Out, Free, Steps, Changes, LockOf, HasWait, HasSpin;
    InCalls(s, c, r, KillWant(q));
    KillSteps(s, r, q);
    KillSteps(Place(s, r, KillHave(q)), r, q);
    t := TakeAndChange(s, c, r, KillHave(q), Go(true), q, Woken(s.procs[q]).(killed := true));
  }
}
