/** wakeup and the sleep lock, run by themselves: exactly the sleepers of the channel are woken. */
module ProcWake {
  import opened Wrappers
  import opened ProcState
  import opened ProcInv
  import opened ProcAlone
  import opened ProcCalls
  import opened ProcRuns

  /** The processes below k that sleep on chan are runnable, process r aside. */
  function Woke(b: Sys, r: nat, chan: Chan, k: nat): (t: Sys)
    ensures |t.procs| == |b.procs|
    ensures forall p :: 0 <= p < |b.procs| ==>
      t.procs[p] == if p < k && p != r && b.procs[p].state == SLEEPING && b.procs[p].chan == Some(chan)
                    then b.procs[p].(state := RUNNABLE) else b.procs[p]
  {
    b.(procs := seq(|b.procs|, p requires 0 <= p < |b.procs| =>
         if p < k && p != r && b.procs[p].state == SLEEPING && b.procs[p].chan == Some(chan)
         then b.procs[p].(state := RUNNABLE) else b.procs[p]))
  }

  /** The locks of all other processes are free. */
  predicate OthersFree(b: Sys, r: nat) { forall p :: 0 <= p < |b.procs| && p != r ==> b.procs[p].lock == None }

  lemma WakeSteps(b: Sys, r: nat, chan: Chan, k: nat, next: Then)
    requires r < |b.procs| && k < |b.procs| && b.procs[r].pc == Wake(chan, k, next) && Free(b, r, b.procs[r].pc)
    requires OthersFree(b, r)
    ensures Steps(b, r, Go(true), if k == r then Wake(chan, k + 1, next) else WakeHave(chan, k, next))
  {}

  lemma WakeChanges(b: Sys, r: nat, chan: Chan, k: nat, next: Then)
    requires r < |b.procs| && k < |b.procs| && b.procs[r].pc == WakeHave(chan, k, next) && Free(b, r, b.procs[r].pc)
    ensures Changes(b, r, Go(true), Wake(chan, k + 1, next), k,
                    if b.procs[k].chan == Some(chan) then Woken(b.procs[k]) else b.procs[k])
  {}

  lemma HaveFree(b: Sys, r: nat, chan: Chan, k: nat, next: Then)
    requires r < |b.procs| && k < |b.procs| && k != r && OthersFree(b, r) && Free(b, r, Wake(chan, k, next))
    ensures Free(Place(b, r, WakeHave(chan, k, next)), r, WakeHave(chan, k, next))
  {}

  /** One turn of wakeup's loop. */
  lemma WakeOne(b: Sys, c: nat, r: nat, chan: Chan, k: nat, next: Then)
    requires Calls(b, c, r) && OthersFree(b, r) && b.procs[r].pc == Wake(chan, k, next) && k < |b.procs|
    ensures var p := b.procs[k];
            var me := if k != r && p.state == SLEEPING && p.chan == Some(chan) then p.(state := RUNNABLE) else p;
            var t := Place(With(b, k, me), r, Wake(chan, k + 1, next));
            Calls(t, c, r) && Leads(c, Held(b, c, r), Held(t, c, r))
  {
    hide Leads, Held, PcOk, Out, Free, Steps, Changes;
    WakeSteps(b, r, chan, k, next);
    if k == r {
      StepsTo(b, c, r, Go(true), Wake(chan, k + 1, next));
      assert With(b, k, b.procs[k]).procs == b.procs;
    } else {
      var p := b.procs[k];
      HaveFree(b, r, chan, k, next);
      WakeChanges(Place(b, r, WakeHave(chan, k, next)), r, chan, k, next);
      StepChange(b, c, r, WakeHave(chan, k, next), Go(true), Wake(chan, k + 1, next), k,
                 if p.chan == Some(chan) then Woken(p) else p);
    }
  }

  lemma WokeOne(b: Sys, r: nat, chan: Chan, k: nat, pc: Pc, to: Pc)
    requires r < |b.procs| && k < |b.procs|
    ensures var x, p := Place(Woke(b, r, chan, k), r, pc), b.procs[k];
            var q := x.procs[k];
            var me := if k != r && q.state == SLEEPING && q.chan == Some(chan) then q.(state := RUNNABLE) else q;
            Place(With(x, k, me), r, to) == Place(Woke(b, r, chan, k + 1), r, to)
  {
    hide Woke;
    var x := Place(Woke(b, r, chan, k), r, pc);
    var q := x.procs[k];
    var me := if k != r && q.state == SLEEPING && q.chan == Some(chan) then q.(state := RUNNABLE) else q;
    assert Place(With(x, k, me), r, to).procs == Place(Woke(b, r, chan, k + 1), r, to).procs;
    SameRest(b, r, chan, k);
    SameRest(b, r, chan, k + 1);
  }

  lemma SameRest(b: Sys, r: nat, chan: Chan, k: nat)
    ensures Woke(b, r, chan, k) == b.(procs := Woke(b, r, chan, k).procs)
  {}

  /** The rest of wakeup's loop, from slot k on. */
  lemma {:induction false} WakeFrom(b: Sys, c: nat, r: nat, chan: Chan, k: nat, next: Then)
    requires r < |b.procs| && k <= |b.procs| && OthersFree(b, r)
    requires Calls(Place(Woke(b, r, chan, k), r, Wake(chan, k, next)), c, r)
    ensures var n, x := |b.procs|, Place(Woke(b, r, chan, k), r, Wake(chan, k, next));
            var t := Place(Woke(b, r, chan, n), r, Wake(chan, n, next));
            Calls(t, c, r) && Leads(c, Held(x, c, r), Held(t, c, r))
    decreases |b.procs| - k
  {
    hide Leads, Held, Calls, Woke;
    var n := |b.procs|;
    var x, t := Place(Woke(b, r, chan, k), r, Wake(chan, k, next)), Place(Woke(b, r, chan, n), r, Wake(chan, n, next));
    if k == n {
      Stays(c, Held(x, c, r));
    } else {
      WakeOne(x, c, r, chan, k, next);
      WokeOne(b, r, chan, k, Wake(chan, k, next), Wake(chan, k + 1, next));
      var m := Place(Woke(b, r, chan, k + 1), r, Wake(chan, k + 1, next));
      WakeFrom(b, c, r, chan, k + 1, next);
      LeadsTrans(c, Held(x, c, r), Held(m, c, r), Held(t, c, r));
    }
  }

  /** All of wakeup's loop, and the step after it. */
  lemma WakeAll(b: Sys, c: nat, r: nat, chan: Chan, next: Then, to: Pc)
    requires Calls(b, c, r) && OthersFree(b, r) && b.procs[r].pc == Wake(chan, 0, next)
    requires to == match next case ExitNext(j) => ExitScan(j) case ExitLast => ExitLock case _ => User
    ensures var t := Place(Woke(b, r, chan, |b.procs|), r, to);
            Calls(t, c, r) && Leads(c, Held(b, c, r), Held(t, c, r))
  {
    hide Leads, Held, PcOk, Out, Free, Steps, Woke;
    var n := |b.procs|;
    var x, t := Place(Woke(b, r, chan, n), r, Wake(chan, n, next)), Place(Woke(b, r, chan, n), r, to);
    WokeNone(b, r, chan);
    WakeFrom(b, c, r, chan, 0, next);
    AfterWake(x, r, chan, next, to);
    StepsTo(x, c, r, Go(true), to);
    assert Place(x, r, to) == t;
    LeadsTrans(c, Held(b, c, r), Held(x, c, r), Held(t, c, r));
  }

  lemma WokeNone(b: Sys, r: nat, chan: Chan)
    requires r < |b.procs|
    ensures Place(Woke(b, r, chan, 0), r, b.procs[r].pc) == b
  {
    assert Place(Woke(b, r, chan, 0), r, b.procs[r].pc).procs == b.procs;
  }

  lemma AfterWake(b: Sys, r: nat, chan: Chan, next: Then, to: Pc)
    requires r < |b.procs| && b.procs[r].pc == Wake(chan, |b.procs|, next) && Free(b, r, b.procs[r].pc)
    requires to == match next case ExitNext(j) => ExitScan(j) case ExitLast => ExitLock case _ => User
    ensures Steps(b, r, Go(true), to)
  {}

  /** wakeup(x) makes exactly the sleepers on x runnable. */
  lemma WakeupWakes(s: Sys, c: nat, r: nat, x: nat) returns (t: Sys)
    requires In(s, c, r, Wake(Other(x), 0, Plain)) && OthersFree(s, r)
    ensures Leads(c, s, t) && t == s.(procs := t.procs) && |t.procs| == |s.procs|
    ensures t.procs[r] == s.procs[r].(pc := User)
    ensures forall p :: 0 <= p < |s.procs| && p != r ==>
              t.procs[p] == if s.procs[p].state == SLEEPING && s.procs[p].chan == Some(Other(x))
                            then s.procs[p].(state := RUNNABLE) else s.procs[p]
  {
    hide Reachable, Leads, Held, Calls, LockOf, HasWait, HasSpin, Woke;
    InCalls(s, c, r, Wake(Other(x), 0, Plain));
    WakeAll(s, c, r, Other(x), Plain, User);
    t := Place(Woke(s, r, Other(x), |s.procs|), r, User);
    HoldsNothing(t, c, r);
    SameRest(s, r, Other(x), |s.procs|);
  }

  // The sleep lock.

  /** A step that writes the lock. */
  lemma Does(b: Sys, c: nat, r: nat)
    requires Calls(b, c, r) && (b.procs[r].pc.AcqTake? || b.procs[r].pc.RelHave?)
    ensures var pc := b.procs[r].pc;
            var d := With(b, r, b.procs[r].(holds := pc.AcqTake?));
            var e := d.(locked := pc.AcqTake?, owner := if pc.AcqTake? then Some(r) else None);
            var t := Place(e, r, if pc.AcqTake? then User else Wake(Lock, 0, Unlock));
            Calls(t, c, r) && Leads(c, Held(b, c, r), Held(t, c, r))
  {
    hide Leads, Held, PcOk, Out;
    var t := Alone(b, r, Go(true));
    AloneCalls(b, c, r, Go(true));
    Stays(c, Held(t, c, r));
    Proceeds(b, c, r, Go(true), Held(t, c, r));
  }

  lemma LockSteps(b: Sys, r: nat)
    requires r < |b.procs| && b.spin == None
    ensures b.procs[r].pc == AcqWant ==> Steps(b, r, Go(true), AcqTest)
    ensures b.procs[r].pc == AcqTest && !b.locked ==> Steps(b, r, Go(true), AcqTake)
    ensures b.procs[r].pc == AcqTest && b.locked && b.procs[r].lock == None ==> Steps(b, r, Go(true), AcqOwn)
    ensures b.procs[r].pc == RelWant ==> Steps(b, r, Go(true), RelHave)
  {}

  /** acquiresleep of a free lock takes it. */
  lemma AcquireTakes(s: Sys, c: nat, r: nat) returns (t: Sys)
    requires In(s, c, r, AcqWant) && s.spin == None && !s.locked
    ensures Leads(c, s, t) && t.locked && t.owner == Some(r)
    ensures t == s.(procs := s.procs[r := s.procs[r].(pc := User, holds := true)], locked := true, owner := Some(r))
  {
    hide Reachable, Leads, Held, PcOk, Out, Free, LockOf, HasWait, HasSpin, Steps;
    InCalls(s, c, r, AcqWant);
    LockSteps(s, r);
    LockSteps(Place(s, r, AcqTest), r);
    StepStep(s, c, r, AcqTest, AcqTake);
    var m := Place(s, r, AcqTake);
    Does(m, c, r);
    t := s.(procs := s.procs[r := s.procs[r].(pc := User, holds := true)], locked := true, owner := Some(r));
    assert t == Place(With(m, r, m.procs[r].(holds := true)).(locked := true, owner := Some(r)), r, User);
    HoldsNothing(t, c, r);
    LeadsTrans(c, s, Held(m, c, r), t);
  }

  /** acquiresleep of a lock that is taken sleeps on it. */
  lemma AcquireSleeps(s: Sys, c: nat, r: nat) returns (t: Sys)
    requires In(s, c, r, AcqWant) && s.spin == None && s.locked && s.procs[r].lock == None
    ensures Leads(c, s, t) && FellAsleep(s, t, c, r, Lock, AcqWant)
  {
    hide Reachable, Leads, Held, PcOk, Out, Free, LockOf, HasWait, HasSpin, Steps;
    InCalls(s, c, r, AcqWant);
    LockSteps(s, r);
    LockSteps(Place(s, r, AcqTest), r);
    StepStep(s, c, r, AcqTest, AcqOwn);
    var m := Place(s, r, AcqOwn);
    t := SleepsNow(m, c, r, AcqGo);
    LeadsTrans(c, s, Held(m, c, r), t);
  }

  /** releasesleep frees the lock and makes exactly its sleepers runnable. */
  lemma ReleaseWakes(s: Sys, c: nat, r: nat) returns (t: Sys)
    requires In(s, c, r, RelWant) && s.spin == None && OthersFree(s, r)
    ensures Leads(c, s, t) && t == s.(procs := t.procs, locked := false, owner := None) && |t.procs| == |s.procs|
    ensures t.procs[r] == s.procs[r].(pc := User, holds := false)
    ensures forall p :: 0 <= p < |s.procs| && p != r ==>
              t.procs[p] == if s.procs[p].state == SLEEPING && s.procs[p].chan == Some(Lock)
                            then s.procs[p].(state := RUNNABLE) else s.procs[p]
  {
    hide Reachable, Leads, Held, Calls, LockOf, HasWait, HasSpin, Woke;
    InCalls(s, c, r, RelWant);
    Unlocks(s, c, r);
    var e := Unlocked(s, r);
    WakeAll(e, c, r, Lock, Unlock, User);
    t := Place(Woke(e, r, Lock, |e.procs|), r, User);
    SameRest(e, r, Lock, |e.procs|);
    HoldsNothing(t, c, r);
    LeadsTrans(c, s, Held(e, c, r), t);
  }

  /** The lock is free, and process r is about to wake its sleepers. */
  function Unlocked(s: Sys, r: nat): Sys
    requires r < |s.procs|
  {
    Place(With(s, r, s.procs[r].(holds := false)).(locked := false, owner := None), r, Wake(Lock, 0, Unlock))
  }

  lemma Unlocks(s: Sys, c: nat, r: nat)
    requires Calls(s, c, r) && s.procs[r].pc == RelWant && s.spin == None
    ensures Calls(Unlocked(s, r), c, r) && Leads(c, Held(s, c, r), Held(Unlocked(s, r), c, r))
  {
    hide Leads, Held, PcOk, Out, Free, Steps;
    LockSteps(s, r);
    StepsTo(s, c, r, Go(true), RelHave);
    var m := Place(s, r, RelHave);
    Does(m, c, r);
    assert Unlocked(s, r) == Unlocked(m, r);
    LeadsTrans(c, Held(s, c, r), Held(m, c, r), Held(Unlocked(s, r), c, r));
  }
}
