/** Processes, CPUs, sleep and wakeup, and one sleep lock (kernel/proc.c, kernel/sleeplock.c) as a
    step system: any number of CPUs and processes, interleaved between lock operations. */
module ProcState {
  import opened Wrappers

  const INIT: nat := 0

  datatype State = UNUSED | USED | SLEEPING | RUNNABLE | RUNNING | ZOMBIE

  /** A sleep channel: the sleep lock, a process (for wait), or anything else. */
  datatype Chan = Lock | Of(p: nat) | Other(x: nat)

  /** What follows a wakeup loop. */
  datatype Then = Plain | Unlock | ExitNext(k: nat) | ExitLast

  /** Where the kernel thread of a process stands. The names say which call it is in; a thread
      at `Want` is about to acquire a lock and one at `Have` holds it. */
  datatype Pc =
    | User
    | KillWant(q: nat) | KillHave(q: nat)
    | Wake(chan: Chan, k: nat, next: Then) | WakeHave(chan: Chan, k: nat, next: Then)
    | ForkWant(q: nat) | ForkHave(q: nat) | ForkMade(q: nat) | ForkFree(q: nat)
    | ForkParent(q: nat) | ForkNamed(q: nat) | ForkGo(q: nat)
    | ExitWant | ExitScan(k: nat) | ExitLock | ExitOwn
    | WaitWant | WaitScan(k: nat, kids: bool) | WaitHave(k: nat) | WaitOwn | WaitGo
    | AcqWant | AcqTest | AcqTake | AcqOwn | AcqGo | RelWant | RelHave
    | SleepWant(x: nat) | SleepOwn(x: nat)
    | Yield(back: Pc) | Off(back: Pc) | Resumed(back: Pc) | Dead

  /** `lock` is the CPU holding p->lock. `cpu`, `maker` and `holds` are auxiliary: the CPU whose
      current process this is, the process forking it, and whether it has returned from
      acquiresleep and not yet called releasesleep. */
  datatype Proc = Proc(state: State, chan: Option<Chan>, killed: bool, parent: Option<nat>, lock: Option<nat>,
                       creation: nat, run: nat, turnaround: nat, waiting: nat,
                       pc: Pc, cpu: Option<nat>, maker: Option<nat>, holds: bool)

  /** Where a CPU stands in scheduler(): choosing, having chosen, holding the chosen process's
      lock, running a process, or back from swtch. */
  datatype At = Choosing | Chose(p: nat) | Locked(p: nat) | Running | Back(p: nat)

  datatype Cpu = Cpu(proc: Option<nat>, at: At)

  /** `wait` and `spin` are the CPUs holding wait_lock and the sleep lock's spinlock. */
  datatype Sys = Sys(procs: seq<Proc>, cpus: seq<Cpu>, wait: Option<nat>, spin: Option<nat>,
                     locked: bool, owner: Option<nat>, ticks: nat)

  // Locks held at each place.

  predicate OwnLock(pc: Pc) {
    pc.ExitOwn? || pc.WaitOwn? || pc.WaitGo? || pc.AcqOwn? || pc.AcqGo? || pc.SleepOwn? || pc.Yield? || pc.Resumed?
  }

  /** The process lock that process r holds at pc. */
  function LockOf(r: nat, pc: Pc): Option<nat> {
    if OwnLock(pc) then Some(r)
    else if pc.KillHave? || pc.ForkHave? || pc.ForkMade? || pc.ForkGo? then Some(pc.q)
    else if pc.WakeHave? || pc.WaitHave? then Some(pc.k)
    else None
  }

  predicate HasWait(pc: Pc) {
    || pc.ForkParent? || pc.ExitScan? || pc.ExitLock? || pc.ExitOwn? || pc.WaitScan? || pc.WaitHave? || pc.WaitOwn?
    || ((pc.Wake? || pc.WakeHave?) && (pc.next.ExitNext? || pc.next.ExitLast?))
  }

  predicate HasSpin(pc: Pc) {
    || pc.AcqTest? || pc.AcqTake? || pc.AcqOwn? || pc.RelHave?
    || ((pc.Wake? || pc.WakeHave?) && pc.next.Unlock?)
  }

  /** The thread is switched out. */
  predicate Out(pc: Pc) { pc.Off? || pc.Dead? }

  /** No lock is held, so a timer interrupt can come. */
  predicate Preemptible(pc: Pc) {
    LockOf(0, pc).None? && !HasWait(pc) && !HasSpin(pc) && !pc.SleepWant? && !Out(pc)
  }

  // Steps.

  datatype Choice = Begin(op: Pc) | Go(ok: bool)

  datatype Label =
    | Choose(c: nat, p: nat)
    | LockChosen(c: nat)
    | Switch(c: nat)
    | Done(c: nat)
    | Step(c: nat, choice: Choice)
    | Preempt(c: nat)
    | SwitchOut(c: nat)
    | Tick

  predicate Current(s: Sys, c: nat) {
    c < |s.cpus| && s.cpus[c].at.Running? && s.cpus[c].proc.Some? && s.cpus[c].proc.value < |s.procs|
  }

  /** Calls that user code, or kernel code on its behalf, can start. */
  predicate CanBegin(s: Sys, r: nat, op: Pc) {
    match op
    case KillWant(q) => q < |s.procs|
    case ForkWant(q) => q < |s.procs|
    case ExitWant => r != INIT && s.owner != Some(r)
    case WaitWant => true
    case AcqWant => s.owner != Some(r)
    case RelWant => s.owner == Some(r)
    case SleepWant(_) => true
    case Wake(chan, k, next) => chan.Other? && k == 0 && next == Plain
    case _ => false
  }

  /** The next place of process r's thread. */
  function PcAfter(s: Sys, r: nat, ch: Choice): Pc
    requires r < |s.procs|
  {
    var n := |s.procs|;
    match s.procs[r].pc
    case User => if ch.Begin? then ch.op else User
    case KillWant(q) => KillHave(q)
    case KillHave(_) => User
    case Wake(chan, k, next) =>
      if k < n then (if k == r then Wake(chan, k + 1, next) else WakeHave(chan, k, next))
      else (match next case ExitNext(j) => ExitScan(j) case ExitLast => ExitLock case _ => User)
    case WakeHave(chan, k, next) => Wake(chan, k + 1, next)
    case ForkWant(q) => ForkHave(q)
    case ForkHave(q) => if q < n && s.procs[q].state == UNUSED then ForkMade(q) else User
    case ForkMade(q) => if ch.Go? && ch.ok then ForkFree(q) else User
    case ForkFree(q) => ForkParent(q)
    case ForkParent(q) => ForkNamed(q)
    case ForkNamed(q) => ForkGo(q)
    case ForkGo(_) => User
    case ExitWant => ExitScan(0)
    case ExitScan(k) =>
      if k < n then (if s.procs[k].parent == Some(r) then Wake(Of(INIT), 0, ExitNext(k + 1)) else ExitScan(k + 1))
      else Wake(if s.procs[r].parent.Some? then Of(s.procs[r].parent.value) else Other(0), 0, ExitLast)
    case ExitLock => ExitOwn
    case WaitWant => WaitScan(0, false)
    case WaitScan(k, kids) =>
      if k < n then (if s.procs[k].parent == Some(r) then WaitHave(k) else WaitScan(k + 1, kids))
      else if kids && !s.procs[r].killed then WaitOwn else User
    case WaitHave(k) => if k < n && s.procs[k].state == ZOMBIE then User else WaitScan(k + 1, true)
    case WaitOwn => WaitGo
    case AcqWant => AcqTest
    case AcqTest => if s.locked then AcqOwn else AcqTake
    case AcqTake => User
    case AcqOwn => AcqGo
    case RelWant => RelHave
    case RelHave => Wake(Lock, 0, Unlock)
    case SleepWant(x) => SleepOwn(x)
    case Resumed(back) => back
    case _ => s.procs[r].pc
  }

  /** SLEEPING becomes RUNNABLE. */
  function Woken(p: Proc): Proc {
    if p.state == SLEEPING then p.(state := RUNNABLE) else p
  }

  /** freeproc. */
  function Freed(p: Proc): Proc {
    p.(state := UNUSED, chan := None, killed := false, parent := None, creation := 0, run := 0, turnaround := 0,
       waiting := 0, pc := Dead, maker := None)
  }

  /** The process whose fields the next step of process r writes. */
  function Target(r: nat, pc: Pc): nat {
    match pc
    case KillHave(q) => q
    case WakeHave(_, k, _) => k
    case ForkHave(q) => q
    case ForkMade(q) => q
    case ForkParent(q) => q
    case ForkGo(q) => q
    case ExitScan(k) => k
    case WaitHave(k) => k
    case _ => r
  }

  /** The fields of that process, p, afterwards: its lock and r's own place aside. */
  function Effect(ticks: nat, r: nat, pc: Pc, ch: Choice, p: Proc): Proc {
    match pc
    case KillHave(_) => Woken(p).(killed := true)
    case WakeHave(chan, _, _) => if p.chan == Some(chan) then Woken(p) else p
    case ForkHave(_) =>
      if p.state == UNUSED
      then p.(state := USED, creation := ticks, run := 0, turnaround := 0, waiting := 0, maker := Some(r))
      else p
    case ForkMade(_) => if ch.Go? && ch.ok then p else Freed(p)
    case ForkParent(_) => p.(parent := Some(r))
    case ForkGo(_) => p.(state := RUNNABLE, pc := Off(User), maker := None)
    case ExitScan(_) => if p.parent == Some(r) then p.(parent := Some(INIT)) else p
    case WaitHave(_) => if p.state == ZOMBIE && ch.Go? && ch.ok then Freed(p) else p
    case AcqTake => p.(holds := true)
    case RelHave => p.(holds := false)
    case Resumed(_) => p.(chan := None)
    case _ => p
  }

  function DataAfter(s: Sys, r: nat, ch: Choice): (d: Sys)
    requires r < |s.procs|
  {
    var pc := s.procs[r].pc;
    var q := Target(r, pc);
    var locked := if pc.AcqTake? then true else if pc.RelHave? then false else s.locked;
    var owner := if pc.AcqTake? then Some(r) else if pc.RelHave? then None else s.owner;
    s.(procs := if q < |s.procs| then s.procs[q := Effect(s.ticks, r, pc, ch, s.procs[q])] else s.procs,
       locked := locked, owner := owner)
  }

  /** Going from one place to another acquires and releases what the places say. */
  predicate CanMove(s: Sys, r: nat, pc: Pc)
    requires r < |s.procs|
  {
    var was := s.procs[r].pc;
    && (LockOf(r, pc).Some? && LockOf(r, was) != LockOf(r, pc) ==>
          LockOf(r, was).None? && LockOf(r, pc).value < |s.procs| && s.procs[LockOf(r, pc).value].lock.None?)
    && (HasWait(pc) && !HasWait(was) ==> s.wait.None?)
    && (HasSpin(pc) && !HasSpin(was) ==> s.spin.None?)
  }

  function Relock(procs: seq<Proc>, q: Option<nat>, holder: Option<nat>): (r: seq<Proc>)
    ensures |r| == |procs|
  {
    if q.Some? && q.value < |procs| then procs[q.value := procs[q.value].(lock := holder)] else procs
  }

  function Move(s: Sys, c: nat, r: nat, was: Pc, pc: Pc): Sys
    requires r < |s.procs|
  {
    var procs := s.procs[r := s.procs[r].(pc := pc)];
    var dropped := if LockOf(r, was) == LockOf(r, pc) then procs else Relock(procs, LockOf(r, was), None);
    s.(procs := Relock(dropped, LockOf(r, pc), Some(c)),
       wait := if HasWait(pc) then Some(c) else if HasWait(was) then None else s.wait,
       spin := if HasSpin(pc) then Some(c) else if HasSpin(was) then None else s.spin)
  }

  /** What a thread that gives up its CPU leaves behind: yield, sleep and exit. */
  function Left(s: Sys, r: nat): Proc
    requires r < |s.procs|
  {
    var p := s.procs[r];
    match p.pc
    case Yield(back) => p.(state := RUNNABLE, pc := Off(back))
    case SleepOwn(x) => p.(state := SLEEPING, chan := Some(Other(x)), pc := Off(User))
    case WaitGo => p.(state := SLEEPING, chan := Some(Of(r)), pc := Off(WaitWant))
    case AcqGo => p.(state := SLEEPING, chan := Some(Lock), pc := Off(AcqWant))
    case ExitOwn =>
      var turnaround: int := s.ticks - p.creation;
      var waiting: int := turnaround - p.run;
      p.(state := ZOMBIE, pc := Dead, turnaround := Unsigned(turnaround), waiting := Unsigned(waiting))
    case _ => p
  }

  /** A uint result of a subtraction. */
  function Unsigned(x: int): (r: nat)
    ensures x >= 0 ==> r == x
  {
    if x >= 0 then x else x % 0x1_0000_0000
  }

  predicate Leaves(pc: Pc) { pc.Yield? || pc.SleepOwn? || pc.WaitGo? || pc.AcqGo? || pc.ExitOwn? }

  /** Process r, current on CPU c, can take its next step. */
  predicate Ready(s: Sys, c: nat, r: nat, ch: Choice) {
    && Current(s, c) && s.cpus[c].proc == Some(r) && !Leaves(s.procs[r].pc)
    && (s.procs[r].pc.User? ==> ch.Begin? && CanBegin(s, r, ch.op))
    && CanMove(s, r, PcAfter(s, r, ch))
  }

  predicate Enabled(s: Sys, l: Label) {
    match l
    case Choose(c, p) => c < |s.cpus| && s.cpus[c].at.Choosing? && p < |s.procs|
    case LockChosen(c) =>
      c < |s.cpus| && s.cpus[c].at.Chose? && s.cpus[c].at.p < |s.procs| && s.procs[s.cpus[c].at.p].lock.None?
    case Switch(c) => c < |s.cpus| && s.cpus[c].at.Locked? && s.cpus[c].at.p < |s.procs|
    case Done(c) => c < |s.cpus| && s.cpus[c].at.Back? && s.cpus[c].at.p < |s.procs|
    case Step(c, ch) => Current(s, c) && Ready(s, c, s.cpus[c].proc.value, ch)
    case Preempt(c) =>
      && Current(s, c)
      && var r := s.cpus[c].proc.value;
      Preemptible(s.procs[r].pc) && s.procs[r].lock.None?
    case SwitchOut(c) => Current(s, c) && Leaves(s.procs[s.cpus[c].proc.value].pc)
    case Tick => true
  }

  function Ticked(p: Proc): Proc {
    if p.state == RUNNING then p.(run := p.run + 1) else p
  }

  /** One CPU and one process change, and possibly wait_lock. */
  function Put(s: Sys, c: nat, u: Cpu, p: nat, me: Proc, wait: Option<nat>): Sys
    requires c < |s.cpus| && p < |s.procs|
  {
    s.(procs := s.procs[p := me], cpus := s.cpus[c := u], wait := wait)
  }

  function Grabbed(s: Sys, c: nat, p: nat): Sys
    requires c < |s.cpus| && p < |s.procs|
  {
    Put(s, c, s.cpus[c].(at := Locked(p)), p, s.procs[p].(lock := Some(c)), s.wait)
  }

  /** The scheduler's second look, under the lock: RUNNABLE still, or not. */
  function Dispatched(s: Sys, c: nat, p: nat): Sys
    requires c < |s.cpus| && p < |s.procs|
  {
    var me := s.procs[p];
    if me.state == RUNNABLE
    then Put(s, c, Cpu(Some(p), Running), p,
             me.(state := RUNNING, pc := Resumed(if me.pc.Off? then me.pc.back else User), cpu := Some(c)), s.wait)
    else Put(s, c, s.cpus[c].(at := Choosing), p, me.(lock := None), s.wait)
  }

  function Finished(s: Sys, c: nat, p: nat): Sys
    requires c < |s.cpus| && p < |s.procs|
  {
    Put(s, c, Cpu(None, Choosing), p, s.procs[p].(lock := None, cpu := None), s.wait)
  }

  function Departed(s: Sys, c: nat, r: nat): Sys
    requires c < |s.cpus| && r < |s.procs|
  {
    Put(s, c, Cpu(Some(r), Back(r)), r, Left(s, r), if s.procs[r].pc.ExitOwn? then None else s.wait)
  }

  function AllTicked(s: Sys): Sys {
    s.(ticks := s.ticks + 1, procs := seq(|s.procs|, i requires 0 <= i < |s.procs| => Ticked(s.procs[i])))
  }

  function Stepped(s: Sys, c: nat, r: nat, ch: Choice): Sys
    requires r < |s.procs|
  {
    Move(DataAfter(s, r, ch), c, r, s.procs[r].pc, PcAfter(s, r, ch))
  }

  function Next(s: Sys, l: Label): Sys
    requires Enabled(s, l)
  {
    match l
    case Choose(c, p) => s.(cpus := s.cpus[c := s.cpus[c].(at := Chose(p))])
    case LockChosen(c) => Grabbed(s, c, s.cpus[c].at.p)
    case Switch(c) => Dispatched(s, c, s.cpus[c].at.p)
    case Done(c) => Finished(s, c, s.cpus[c].at.p)
    case Step(c, ch) => Stepped(s, c, s.cpus[c].proc.value, ch)
    case Preempt(c) =>
      var r := s.cpus[c].proc.value;
      Move(s, c, r, s.procs[r].pc, Yield(s.procs[r].pc))
    case SwitchOut(c) => Departed(s, c, s.cpus[c].proc.value)
    case Tick => AllTicked(s)
  }
}
