/** What one process does by itself, from place to place, while the locks it comes to are free. */
module ProcAlone {
  import opened Wrappers
  import opened ProcState
  import opened ProcInv
  import opened ProcSteps
  import opened ProcRuns

  /** The step is one of CPU c. */
  predicate On(c: nat, l: Label) { !l.Tick? && l.c == c }

  /** Steps of CPU c lead from s to t. */
  ghost predicate Leads(c: nat, s: Sys, t: Sys) { exists ls :: Goes(c, s, ls, t) }

  ghost predicate Goes(c: nat, s: Sys, ls: seq<Label>, t: Sys) {
    IsRun(s, ls) && After(s, ls) == t && forall i :: 0 <= i < |ls| ==> On(c, ls[i])
  }

  lemma Stays(c: nat, s: Sys)
    ensures Leads(c, s, s)
  {
    assert Goes(c, s, [], s);
  }

  lemma LeadsOn(c: nat, s: Sys, l: Label, t: Sys)
    requires Enabled(s, l) && On(c, l) && Leads(c, Next(s, l), t)
    ensures Leads(c, s, t)
  {
    hide Enabled, Next, On;
    var ls :| Goes(c, Next(s, l), ls, t);
    assert ([l] + ls)[1..] == ls;
    assert Goes(c, s, [l] + ls, t);
  }

  lemma {:induction false} GoesOn(c: nat, s: Sys, ls: seq<Label>, t: Sys, u: Sys)
    requires Goes(c, s, ls, t) && Leads(c, t, u)
    ensures Leads(c, s, u)
    decreases |ls|
  {
    hide Enabled, Next, On;
    if ls != [] {
      GoesOn(c, Next(s, ls[0]), ls[1..], t, u);
      LeadsOn(c, s, ls[0], u);
    }
  }

  lemma LeadsTrans(c: nat, s: Sys, t: Sys, u: Sys)
    requires Leads(c, s, t) && Leads(c, t, u)
    ensures Leads(c, s, u)
  {
    var ls :| Goes(c, s, ls, t);
    GoesOn(c, s, ls, t, u);
  }

  lemma {:induction false} RunOn(s: Sys, ls: seq<Label>, ms: seq<Label>)
    requires IsRun(s, ls) && IsRun(After(s, ls), ms)
    ensures IsRun(s, ls + ms) && After(s, ls + ms) == After(After(s, ls), ms)
    decreases |ls|
  {
    hide Enabled, Next;
    if ls == [] {
      assert [] + ms == ms;
    } else {
      RunOn(Next(s, ls[0]), ls[1..], ms);
      assert (ls + ms)[1..] == ls[1..] + ms;
    }
  }

  lemma LeadsReachable(c: nat, s: Sys, t: Sys)
    requires Reachable(s) && Leads(c, s, t)
    ensures Reachable(t)
  {
    hide IsRun, After, Start;
    var n: nat, cpus: nat, ticks: nat, ls: seq<Label> :|
      n > 0 && IsRun(Start(n, cpus, ticks), ls) && s == After(Start(n, cpus, ticks), ls);
    var ms :| Goes(c, s, ms, t);
    RunOn(Start(n, cpus, ticks), ls, ms);
  }

  /** b with the locks that process r, current on CPU c, has at its place. */
  function Held(b: Sys, c: nat, r: nat): Sys
    requires r < |b.procs|
  {
    var pc := b.procs[r].pc;
    b.(procs := Relock(b.procs, LockOf(r, pc), Some(c)), wait := if HasWait(pc) then Some(c) else b.wait,
       spin := if HasSpin(pc) then Some(c) else b.spin)
  }

  /** Nobody else has the locks of process r at pc. */
  predicate Free(b: Sys, r: nat, pc: Pc) {
    && (LockOf(r, pc).Some? ==> LockOf(r, pc).value < |b.procs| && b.procs[LockOf(r, pc).value].lock == None)
    && (HasWait(pc) ==> b.wait == None) && (HasSpin(pc) ==> b.spin == None)
  }

  /** Process r is current on CPU c and can have the locks of its place. */
  ghost predicate Calls(b: Sys, c: nat, r: nat) {
    && Current(b, c) && b.cpus[c].proc == Some(r) && Free(b, r, b.procs[r].pc)
    && PcOk(|b.procs|, r, b.procs[r].pc) && !Out(b.procs[r].pc)
  }

  /** b after the next step of process r, locks aside. */
  function Alone(b: Sys, r: nat, ch: Choice): Sys
    requires r < |b.procs|
  {
    var d := DataAfter(b, r, ch);
    d.(procs := d.procs[r := d.procs[r].(pc := PcAfter(b, r, ch))])
  }

  /** A step never goes from one process lock to another. */
  lemma OneLock(s: Sys, r: nat, ch: Choice)
    requires r < |s.procs| && PcOk(|s.procs|, r, s.procs[r].pc) && !Out(s.procs[r].pc) && !Leaves(s.procs[r].pc)
    requires s.procs[r].pc.User? ==> ch.Begin? && CanBegin(s, r, ch.op)
    ensures var pc, to := s.procs[r].pc, PcAfter(s, r, ch);
            LockOf(r, to).Some? ==> LockOf(r, to).value < |s.procs| && LockOf(r, pc) in {None, LockOf(r, to)}
  {}

  /** s is b but for locks. */
  ghost predicate LocksAside(s: Sys, b: Sys) {
    && |s.procs| == |b.procs| && s.cpus == b.cpus && s.locked == b.locked && s.owner == b.owner && s.ticks == b.ticks
    && forall p :: 0 <= p < |s.procs| ==> s.procs[p] == b.procs[p].(lock := s.procs[p].lock)
  }

  lemma HeldAside(b: Sys, c: nat, r: nat)
    requires r < |b.procs|
    ensures LocksAside(Held(b, c, r), b)
  {
    hide LockOf, HasWait, HasSpin;
  }

  lemma SamePc(s: Sys, b: Sys, r: nat, ch: Choice)
    requires LocksAside(s, b) && r < |b.procs|
    ensures PcAfter(s, r, ch) == PcAfter(b, r, ch)
  {
    assert s.procs[r] == b.procs[r].(lock := s.procs[r].lock);
    var pc := b.procs[r].pc;
    if pc.WaitScan? || pc.WaitHave? || pc.ExitScan? {
      if pc.k < |b.procs| { assert s.procs[pc.k] == b.procs[pc.k].(lock := s.procs[pc.k].lock); }
    }
    if pc.ForkHave? && pc.q < |b.procs| { assert s.procs[pc.q] == b.procs[pc.q].(lock := s.procs[pc.q].lock); }
  }

  lemma SameEffect(ticks: nat, r: nat, pc: Pc, ch: Choice, p: Proc, q: Proc)
    requires p == q.(lock := p.lock)
    ensures var e, f := Effect(ticks, r, pc, ch, p), Effect(ticks, r, pc, ch, q);
            e == f.(lock := p.lock) && f.lock == q.lock
  {}

  lemma SameData(s: Sys, b: Sys, r: nat, ch: Choice)
    requires LocksAside(s, b) && r < |b.procs|
    ensures var d, e := DataAfter(s, r, ch), DataAfter(b, r, ch);
            && LocksAside(d, e) && |e.procs| == |b.procs| && d.wait == s.wait && d.spin == s.spin
            && e.wait == b.wait && e.spin == b.spin && e.cpus == b.cpus
            && forall p :: 0 <= p < |b.procs| ==>
                 d.procs[p].lock == s.procs[p].lock && e.procs[p].lock == b.procs[p].lock
  {
    hide Target, Effect;
    assert s.procs[r] == b.procs[r].(lock := s.procs[r].lock);
    var pc := b.procs[r].pc;
    var q := Target(r, pc);
    if q < |b.procs| { SameEffect(s.ticks, r, pc, ch, s.procs[q], b.procs[q]); }
  }

  /** Dropping lock `was` for lock `to`, each free but for its holder. */
  lemma RelockAt(d: seq<Proc>, e: seq<Proc>, c: nat, was: Option<nat>, to: Option<nat>, p: nat)
    requires |d| == |e| && p < |e| && d[p] == e[p].(lock := d[p].lock)
    requires (was == Some(p) || to == Some(p) ==> e[p].lock == None)
    requires d[p].lock == if was == Some(p) then Some(c) else e[p].lock
    ensures Relock(if was == to then d else Relock(d, was, None), to, Some(c))[p] == Relock(e, to, Some(c))[p]
  {}

  /** Moving from place to place with the locks that the places say. */
  lemma MoveHeld(d: Sys, e: Sys, c: nat, r: nat, was: Pc, to: Pc)
    requires LocksAside(d, e) && Free(e, r, was) && Free(e, r, to) && r < |e.procs|
    requires forall p :: 0 <= p < |e.procs| ==>
               d.procs[p].lock == if LockOf(r, was) == Some(p) then Some(c) else e.procs[p].lock
    requires d.wait == (if HasWait(was) then Some(c) else e.wait) && d.spin == if HasSpin(was) then Some(c) else e.spin
    ensures Move(d, c, r, was, to) == Held(e.(procs := e.procs[r := e.procs[r].(pc := to)]), c, r)
  {
    hide LockOf, HasWait, HasSpin, Relock;
    var m, h := Move(d, c, r, was, to), Held(e.(procs := e.procs[r := e.procs[r].(pc := to)]), c, r);
    forall p | 0 <= p < |e.procs| ensures m.procs[p] == h.procs[p] {
      assert d.procs[p] == e.procs[p].(lock := d.procs[p].lock);
      var ds, es := d.procs[r := d.procs[r].(pc := to)], e.procs[r := e.procs[r].(pc := to)];
      RelockAt(ds, es, c, LockOf(r, was), LockOf(r, to), p);
    }
    assert m.procs == h.procs;
  }

  /** A step of process r with its locks is a step of Alone. */
  lemma AloneStep(b: Sys, c: nat, r: nat, ch: Choice)
    requires Calls(b, c, r) && !Leaves(b.procs[r].pc) && Free(b, r, PcAfter(b, r, ch))
    requires b.procs[r].pc.User? ==> ch.Begin? && CanBegin(b, r, ch.op)
    ensures var s := Held(b, c, r);
            Enabled(s, Step(c, ch)) && Next(s, Step(c, ch)) == Held(Alone(b, r, ch), c, r)
  {
    hide LockOf, HasWait, HasSpin, PcAfter, Effect, Target, DataAfter, PcOk, Leaves, Move, Out;
    var s, to, pc := Held(b, c, r), PcAfter(b, r, ch), b.procs[r].pc;
    HeldAside(b, c, r);
    SamePc(s, b, r, ch);
    SameData(s, b, r, ch);
    SameData(b, b, r, ch);
    OneLock(b, r, ch);
    assert CanMove(s, r, to);
    if ch.Begin? { assert CanBegin(s, r, ch.op) == CanBegin(b, r, ch.op); }
    MoveHeld(DataAfter(s, r, ch), DataAfter(b, r, ch), c, r, pc, to);
  }

  lemma AloneCalls(b: Sys, c: nat, r: nat, ch: Choice)
    requires Calls(b, c, r) && Free(b, r, PcAfter(b, r, ch))
    requires b.procs[r].pc.User? ==> ch.Begin? && CanBegin(b, r, ch.op)
    ensures Calls(Alone(b, r, ch), c, r)
  {
    hide LockOf, HasWait, HasSpin, PcAfter, Effect, Target, DataAfter, PcOk, Out;
    SameData(b, b, r, ch);
    PcAfterOk(b, r, ch);
  }

  lemma Proceeds(b: Sys, c: nat, r: nat, ch: Choice, t: Sys)
    requires Calls(b, c, r) && !Leaves(b.procs[r].pc) && Free(b, r, PcAfter(b, r, ch))
    requires b.procs[r].pc.User? ==> ch.Begin? && CanBegin(b, r, ch.op)
    requires Leads(c, Held(Alone(b, r, ch), c, r), t)
    ensures Leads(c, Held(b, c, r), t)
  {
    hide Free, Held, Alone, PcAfter, Leads, Leaves, CanBegin, Enabled, Next, PcOk, Out;
    AloneStep(b, c, r, ch);
    LeadsOn(c, Held(b, c, r), Step(c, ch), t);
  }
}
