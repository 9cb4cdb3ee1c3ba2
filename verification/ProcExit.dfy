/** exit, run by itself: the children go to init, both parents are woken, and a zombie is left. */
module ProcExit {
  import opened Wrappers
  import opened ProcState
  import opened ProcInv
  import opened ProcAlone
  import opened ProcCalls
  import opened ProcRuns
  import opened ProcWake

  /** Process r has a child below k. */
  ghost predicate HasChild(b: Sys, r: nat, k: nat) {
    exists j :: 0 <= j < k && j < |b.procs| && b.procs[j].parent == Some(r)
  }

  /** Process p once r has given its children below k to init: p has another parent if it is one of
      them, and is awake if it sleeps as init does and there are any. */
  ghost function GivenAt(b: Sys, r: nat, k: nat, p: nat): Proc
    requires p < |b.procs|
  {
    var me := b.procs[p];
    me.(parent := if p < k && me.parent == Some(r) then Some(INIT) else me.parent,
        state := if p != r && HasChild(b, r, k) && me.state == SLEEPING && me.chan == Some(Of(INIT)) then RUNNABLE
                 else me.state)
  }

  ghost function Given(b: Sys, r: nat, k: nat): (t: Sys)
    ensures |t.procs| == |b.procs| && t == b.(procs := t.procs)
    ensures forall p :: 0 <= p < |b.procs| ==> t.procs[p] == GivenAt(b, r, k, p)
  {
    b.(procs := seq(|b.procs|, p requires 0 <= p < |b.procs| => GivenAt(b, r, k, p)))
  }

  lemma ExitChanges(b: Sys, r: nat, k: nat)
    requires r < |b.procs| && k < |b.procs| && b.procs[r].pc == ExitScan(k) && b.wait == None
    ensures b.procs[k].parent == Some(r) ==>
              Changes(b, r, Go(true), Wake(Of(INIT), 0, ExitNext(k + 1)), k, b.procs[k].(parent := Some(INIT)))
    ensures b.procs[k].parent != Some(r) ==> Steps(b, r, Go(true), ExitScan(k + 1))
  {}

  lemma GivenOne(b: Sys, r: nat, k: nat, p: nat)
    requires r < |b.procs| && k < |b.procs| && b.procs[k].parent == Some(r) && p < |b.procs|
    ensures var x := GivenAt(b, r, k, p);
            var y := if p == k then x.(parent := Some(INIT)) else x;
            GivenAt(b, r, k + 1, p)
            == if p != r && y.state == SLEEPING && y.chan == Some(Of(INIT)) then y.(state := RUNNABLE) else y
  {
    assert HasChild(b, r, k + 1);
  }

  /** Giving child k to init and waking init is one more child given. */
  lemma GivenMore(b: Sys, r: nat, k: nat, pc: Pc, mid: Pc, to: Pc)
    requires r < |b.procs| && k < |b.procs| && b.procs[k].parent == Some(r)
    ensures var x := Place(Given(b, r, k), r, pc);
            var y := Place(With(x, k, x.procs[k].(parent := Some(INIT))), r, mid);
            Place(Woke(y, r, Of(INIT), |b.procs|), r, to) == Place(Given(b, r, k + 1), r, to)
  {
    hide Woke, Given, GivenAt;
    var x := Place(Given(b, r, k), r, pc);
    var y := Place(With(x, k, x.procs[k].(parent := Some(INIT))), r, mid);
    SameRest(y, r, Of(INIT), |b.procs|);
    var u, v := Place(Woke(y, r, Of(INIT), |b.procs|), r, to), Place(Given(b, r, k + 1), r, to);
    forall p | 0 <= p < |b.procs| ensures u.procs[p] == v.procs[p] { GivenOne(b, r, k, p); }
    assert u.procs == v.procs;
  }

  lemma GivenSame(b: Sys, r: nat, k: nat)
    requires k < |b.procs| && b.procs[k].parent != Some(r)
    ensures Given(b, r, k + 1) == Given(b, r, k)
  {
    assert HasChild(b, r, k + 1) == HasChild(b, r, k);
    assert Given(b, r, k + 1).procs == Given(b, r, k).procs;
  }

  lemma GivenFree(b: Sys, r: nat, k: nat)
    requires OthersFree(b, r)
    ensures OthersFree(Given(b, r, k), r)
  {}

  lemma GiveChild(b: Sys, c: nat, r: nat, k: nat)
    requires r < |b.procs| && k < |b.procs| && OthersFree(b, r) && b.wait == None && b.procs[k].parent == Some(r)
    requires Calls(Place(Given(b, r, k), r, ExitScan(k)), c, r)
    ensures var x, t := Place(Given(b, r, k), r, ExitScan(k)), Place(Given(b, r, k + 1), r, ExitScan(k + 1));
            Calls(t, c, r) && Leads(c, Held(x, c, r), Held(t, c, r))
  {
    hide Leads, Held, Calls, Steps, Changes, Woke, Given;
    var x, t := Place(Given(b, r, k), r, ExitScan(k)), Place(Given(b, r, k + 1), r, ExitScan(k + 1));
    var me, mid := x.procs[k].(parent := Some(INIT)), Wake(Of(INIT), 0, ExitNext(k + 1));
    ExitChanges(x, r, k);
    GivenFree(b, r, k);
    ChangesTo(x, c, r, Go(true), mid, k, me);
    var y := Place(With(x, k, me), r, mid);
    WakeAll(y, c, r, Of(INIT), ExitNext(k + 1), ExitScan(k + 1));
    GivenMore(b, r, k, ExitScan(k), mid, ExitScan(k + 1));
    LeadsTrans(c, Held(x, c, r), Held(y, c, r), Held(t, c, r));
  }

  /** One turn of reparent's loop. */
  lemma GiveOne(b: Sys, c: nat, r: nat, k: nat)
    requires r < |b.procs| && k < |b.procs| && OthersFree(b, r) && b.wait == None
    requires Calls(Place(Given(b, r, k), r, ExitScan(k)), c, r)
    ensures var x, t := Place(Given(b, r, k), r, ExitScan(k)), Place(Given(b, r, k + 1), r, ExitScan(k + 1));
            Calls(t, c, r) && Leads(c, Held(x, c, r), Held(t, c, r))
  {
    hide Leads, Held, Calls, Steps, Changes, Woke;
    var x, t := Place(Given(b, r, k), r, ExitScan(k)), Place(Given(b, r, k + 1), r, ExitScan(k + 1));
    hide Given;
    ExitChanges(x, r, k);
    if b.procs[k].parent == Some(r) {
      GiveChild(b, c, r, k);
    } else {
      GivenSame(b, r, k);
      StepsTo(x, c, r, Go(true), ExitScan(k + 1));
      assert Place(x, r, ExitScan(k + 1)) == t;
    }
  }

  lemma {:induction false} GiveAll(b: Sys, c: nat, r: nat, k: nat)
    requires r < |b.procs| && k <= |b.procs| && OthersFree(b, r) && b.wait == None
    requires Calls(Place(Given(b, r, k), r, ExitScan(k)), c, r)
    ensures var n := |b.procs|;
            var x, t := Place(Given(b, r, k), r, ExitScan(k)), Place(Given(b, r, n), r, ExitScan(n));
            Calls(t, c, r) && Leads(c, Held(x, c, r), Held(t, c, r))
    decreases |b.procs| - k
  {
    hide Leads, Held, Calls, Given, Place;
    var n := |b.procs|;
    var x, t := Place(Given(b, r, k), r, ExitScan(k)), Place(Given(b, r, n), r, ExitScan(n));
    if k == n {
      Stays(c, Held(x, c, r));
    } else {
      GiveOne(b, c, r, k);
      var m := Place(Given(b, r, k + 1), r, ExitScan(k + 1));
      GiveAll(b, c, r, k + 1);
      LeadsTrans(c, Held(x, c, r), Held(m, c, r), Held(t, c, r));
    }
  }

  /** Who is left with the exiting process: its parent, or init if it was its own. */
  function Heir(p: Proc, r: nat): Option<nat> { if p.parent == Some(r) then Some(INIT) else p.parent }

  /** Process p after the exit of r. */
  ghost function Survivor(s: Sys, r: nat, p: nat): Proc
    requires r < |s.procs| && p < |s.procs| && s.procs[r].parent.Some?
  {
    var me, heir := s.procs[p], Heir(s.procs[r], r).value;
    me.(parent := Heir(me, r),
        state := if && me.state == SLEEPING
                    && (me.chan == Some(Of(heir)) || (HasChild(s, r, |s.procs|) && me.chan == Some(Of(INIT))))
                 then RUNNABLE else me.state)
  }

  lemma LastSteps(b: Sys, r: nat)
    requires r < |b.procs| && b.wait == None
    ensures b.procs[r].pc == ExitWant ==> Steps(b, r, Go(true), ExitScan(0))
    ensures b.procs[r].pc == ExitScan(|b.procs|) && b.procs[r].parent.Some? ==>
              Steps(b, r, Go(true), Wake(Of(b.procs[r].parent.value), 0, ExitLast))
    ensures b.procs[r].pc == ExitLock && b.procs[r].lock == None ==> Steps(b, r, Go(true), ExitOwn)
  {}

  /** The state in which the exiting process switches away for the last time. */
  ghost function Leaver(s: Sys, r: nat): (t: Sys)
    requires r < |s.procs| && s.procs[r].parent.Some?
    ensures |t.procs| == |s.procs| && t == s.(procs := t.procs)
    ensures t.procs[r] == s.procs[r].(parent := Heir(s.procs[r], r), pc := ExitOwn)
    ensures forall p :: 0 <= p < |s.procs| && p != r ==> t.procs[p] == Survivor(s, r, p)
  {
    s.(procs := seq(|s.procs|, p requires 0 <= p < |s.procs| =>
         if p == r then s.procs[r].(parent := Heir(s.procs[r], r), pc := ExitOwn) else Survivor(s, r, p)))
  }

  lemma LeaverIs(s: Sys, r: nat, pc: Pc)
    requires r < |s.procs| && s.procs[r].parent.Some?
    ensures var n := |s.procs|;
            var g := Given(s, r, n);
            && g.procs[r].parent == Heir(s.procs[r], r)
            && Place(Woke(Place(g, r, pc), r, Of(Heir(s.procs[r], r).value), n), r, ExitOwn) == Leaver(s, r)
  {
    hide Woke, Given, Leaver;
    var n := |s.procs|;
    var g := Given(s, r, n);
    var heir := Heir(s.procs[r], r).value;
    var u := Place(Woke(Place(g, r, pc), r, Of(heir), n), r, ExitOwn);
    SameRest(Place(g, r, pc), r, Of(heir), n);
    assert u.procs == Leaver(s, r).procs;
  }

  /** exit up to its last switch. */
  lemma ExitComes(s: Sys, c: nat, r: nat)
    requires Calls(s, c, r) && s.procs[r].pc == ExitWant && OthersFree(s, r) && s.wait == None
    requires s.procs[r].lock == None && s.procs[r].parent.Some?
    ensures Calls(Leaver(s, r), c, r) && Leads(c, Held(s, c, r), Held(Leaver(s, r), c, r))
  {
    hide Leads, Held, Steps, Free, PcOk, Out, Woke, Given, Leaver;
    var n, heir := |s.procs|, Heir(s.procs[r], r).value;
    LastSteps(s, r);
    StepsTo(s, c, r, Go(true), ExitScan(0));
    var a, g := Place(s, r, ExitScan(0)), Place(Given(s, r, n), r, ExitScan(n));
    assert Place(Given(s, r, 0), r, ExitScan(0)).procs == a.procs;
    GiveAll(s, c, r, 0);
    LeadsTrans(c, Held(s, c, r), Held(a, c, r), Held(g, c, r));
    ExitWakes(s, c, r);
    LeadsTrans(c, Held(s, c, r), Held(g, c, r), Held(Leaver(s, r), c, r));
  }

  lemma ExitWakes(s: Sys, c: nat, r: nat)
    requires r < |s.procs| && OthersFree(s, r) && s.wait == None
    requires s.procs[r].lock == None && s.procs[r].parent.Some?
    requires Calls(Place(Given(s, r, |s.procs|), r, ExitScan(|s.procs|)), c, r)
    ensures var g := Place(Given(s, r, |s.procs|), r, ExitScan(|s.procs|));
            Calls(Leaver(s, r), c, r) && Leads(c, Held(g, c, r), Held(Leaver(s, r), c, r))
  {
    hide Leads, Held, Steps, Calls, Woke, Leaver, Given;
    var n, heir := |s.procs|, Heir(s.procs[r], r).value;
    var g, pc := Place(Given(s, r, n), r, ExitScan(n)), Wake(Of(heir), 0, ExitLast);
    LeaverIs(s, r, pc);
    LastSteps(g, r);
    StepsTo(g, c, r, Go(true), pc);
    var w := Place(Given(s, r, n), r, pc);
    assert Place(g, r, pc) == w;
    GivenFree(s, r, n);
    WakesAndLocks(w, c, r, heir);
    LeadsTrans(c, Held(g, c, r), Held(w, c, r), Held(Leaver(s, r), c, r));
  }

  lemma WakesAndLocks(w: Sys, c: nat, r: nat, heir: nat)
    requires Calls(w, c, r) && OthersFree(w, r) && w.procs[r].pc == Wake(Of(heir), 0, ExitLast)
    requires w.wait == None && w.procs[r].lock == None
    ensures var t := Place(Woke(w, r, Of(heir), |w.procs|), r, ExitOwn);
            Calls(t, c, r) && Leads(c, Held(w, c, r), Held(t, c, r))
  {
    hide Leads, Held, Steps, Woke, PcOk, Out, Free;
    var n := |w.procs|;
    WakeAll(w, c, r, Of(heir), ExitLast, ExitLock);
    var e := Place(Woke(w, r, Of(heir), n), r, ExitLock);
    SameRest(w, r, Of(heir), n);
    LastSteps(e, r);
    StepsTo(e, c, r, Go(true), ExitOwn);
    assert Place(e, r, ExitOwn) == Place(Woke(w, r, Of(heir), n), r, ExitOwn);
    LeadsTrans(c, Held(w, c, r), Held(e, c, r), Held(Place(e, r, ExitOwn), c, r));
  }

  /** exit: the process is a zombie that has left its CPU and records its times, its children are
      init's, and its parent is awake, and init too if it got children. Nothing else has changed. */
  lemma ExitLeavesZombie(s: Sys, c: nat, r: nat) returns (t: Sys)
    requires In(s, c, r, ExitWant) && OthersFree(s, r) && s.wait == None && s.procs[r].lock == None
    ensures s.procs[r].parent.Some? && s.procs[r].creation + s.procs[r].run <= s.ticks
    ensures Leads(c, s, t) && |t.procs| == |s.procs|
    ensures t == s.(procs := t.procs, cpus := s.cpus[c := Cpu(None, Choosing)])
    ensures var a, time := s.procs[r], s.ticks - s.procs[r].creation;
            t.procs[r] == a.(state := ZOMBIE, pc := Dead, cpu := None, parent := Heir(a, r), turnaround := time,
                             waiting := time - a.run)
    ensures forall p :: 0 <= p < |s.procs| && p != r ==> t.procs[p] == Survivor(s, r, p)
  {
    hide Reachable, Leads, Held, PcOk, Out, Free, LockOf, HasWait, HasSpin, Leaver, Survivor, Steps;
    InCalls(s, c, r, ExitWant);
    Exits(s, r);
    ExitComes(s, c, r);
    Departs(Leaver(s, r), c, r);
    t := Gone(Leaver(s, r), c, r);
    LeadsTrans(c, s, Held(Leaver(s, r), c, r), t);
  }

  lemma Exits(s: Sys, r: nat)
    requires Reachable(s) && r < |s.procs| && s.procs[r].pc == ExitWant && s.procs[r].state == RUNNING
    ensures s.procs[r].parent.Some? && s.procs[r].creation + s.procs[r].run <= s.ticks
  {
    hide Reachable, Core, SleepLock, Waits, NamedOk;
    ReachableOk(s);
    assert FamilyOk(s, r) && TimeOk(s, s.procs[r]);
  }
}
