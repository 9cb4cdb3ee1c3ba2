/** What every reachable state of the process system satisfies. */
module ProcInv {
  import opened Wrappers
  import opened ProcState

  /** The place a thread is at, or will be at when it runs again. */
  function Inner(pc: Pc): Pc {
    if pc.Yield? || pc.Off? || pc.Resumed? then pc.back else pc
  }

  /** The process that a fork is making. */
  function Making(pc: Pc): Option<nat> {
    match Inner(pc)
    case ForkMade(q) => Some(q)
    case ForkFree(q) => Some(q)
    case ForkParent(q) => Some(q)
    case ForkNamed(q) => Some(q)
    case ForkGo(q) => Some(q)
    case _ => None
  }

  predicate Alive(p: Proc) { p.state == RUNNABLE || p.state == RUNNING || p.state == SLEEPING }

  // CPUs, locks and places.

  ghost predicate CpuOk(s: Sys, c: nat)
    requires c < |s.cpus|
  {
    var n, u := |s.procs|, s.cpus[c];
    match u.at
    case Choosing => u.proc == None
    case Chose(p) => u.proc == None && p < n
    case Locked(p) => u.proc == None && p < n
    case Running =>
      u.proc.Some? && u.proc.value < n && s.procs[u.proc.value].cpu == Some(c) && !Out(s.procs[u.proc.value].pc)
    case Back(p) => u.proc == Some(p) && p < n && s.procs[p].cpu == Some(c) && Out(s.procs[p].pc)
  }

  predicate PcOk(n: nat, r: nat, pc: Pc) {
    match pc
    case KillWant(q) => q < n
    case KillHave(q) => q < n
    case Wake(_, k, next) => k <= n && (next.ExitNext? ==> next.k <= n)
    case WakeHave(_, k, next) => k < n && k != r && (next.ExitNext? ==> next.k <= n)
    case ForkWant(q) => q < n
    case ForkHave(q) => q < n
    case ForkMade(q) => q < n
    case ForkFree(q) => q < n
    case ForkParent(q) => q < n
    case ForkNamed(q) => q < n
    case ForkGo(q) => q < n
    case ExitScan(k) => k <= n
    case WaitScan(k, _) => k <= n
    case WaitHave(k) => k < n
    case Yield(back) => Preemptible(back) && !Out(back) && PcOk(n, r, back)
    case Off(back) => Preemptible(back) && !Out(back) && PcOk(n, r, back)
    case Resumed(back) => Preemptible(back) && !Out(back) && PcOk(n, r, back)
    case _ => true
  }

  predicate StateOk(p: Proc) {
    (Out(p.pc) <==> p.state != RUNNING) && (p.pc.Dead? <==> !Alive(p))
  }

  ghost predicate ProcOk(s: Sys, p: nat)
    requires p < |s.procs|
  {
    var me := s.procs[p];
    && PcOk(|s.procs|, p, me.pc) && StateOk(me)
    && (me.cpu.Some? ==> me.cpu.value < |s.cpus| && s.cpus[me.cpu.value].proc == Some(p))
    && (!Out(me.pc) ==> me.cpu.Some?)
    && (me.lock.Some? ==> me.lock.value < |s.cpus|)
  }

  /** CPU c holds p's lock, going by where it stands. */
  predicate Claims(s: Sys, c: nat, p: nat)
    requires c < |s.cpus|
  {
    var u := s.cpus[c];
    || u.at == Locked(p) || u.at == Back(p)
    || (Current(s, c) && LockOf(u.proc.value, s.procs[u.proc.value].pc) == Some(p))
  }

  predicate ClaimsWait(s: Sys, c: nat)
    requires c < |s.cpus|
  {
    Current(s, c) && HasWait(s.procs[s.cpus[c].proc.value].pc)
  }

  predicate ClaimsSpin(s: Sys, c: nat)
    requires c < |s.cpus|
  {
    Current(s, c) && HasSpin(s.procs[s.cpus[c].proc.value].pc)
  }

  ghost predicate LocksOk(s: Sys) {
    && (forall p, c :: 0 <= p < |s.procs| && 0 <= c < |s.cpus| ==> (s.procs[p].lock == Some(c) <==> Claims(s, c, p)))
    && (forall c :: 0 <= c < |s.cpus| ==> (s.wait == Some(c) <==> ClaimsWait(s, c)))
    && (forall c :: 0 <= c < |s.cpus| ==> (s.spin == Some(c) <==> ClaimsSpin(s, c)))
    && (s.wait.Some? ==> s.wait.value < |s.cpus|) && (s.spin.Some? ==> s.spin.value < |s.cpus|)
  }

  ghost predicate MakeOk(s: Sys, p: nat)
    requires p < |s.procs|
  {
    var me := s.procs[p];
    && (me.state == USED <==> me.maker.Some?)
    && (me.maker.Some? ==> me.maker.value < |s.procs| && Making(s.procs[me.maker.value].pc) == Some(p))
    && (Making(me.pc).Some? ==> Making(me.pc).value < |s.procs| && s.procs[Making(me.pc).value].maker == Some(p))
  }

  ghost predicate Core(s: Sys) {
    && |s.procs| > 0 && LocksOk(s)
    && (forall c :: 0 <= c < |s.cpus| ==> CpuOk(s, c))
    && (forall p :: 0 <= p < |s.procs| ==> ProcOk(s, p))
    && (forall p :: 0 <= p < |s.procs| ==> MakeOk(s, p))
  }

  // Parents.

  /** How many table slots an exiting process has already passed on to init. */
  function Passed(n: nat, pc: Pc): nat {
    match pc
    case ExitScan(k) => k
    case Wake(_, _, next) => (match next case ExitNext(k) => k case ExitLast => n case _ => 0)
    case WakeHave(_, _, next) => (match next case ExitNext(k) => k case ExitLast => n case _ => 0)
    case ExitLock => n
    case ExitOwn => n
    case _ => 0
  }

  /** In exit, up to and including the last switch. */
  predicate Exiting(pc: Pc) {
    match Inner(pc)
    case ExitWant => true
    case ExitScan(_) => true
    case Wake(_, _, next) => next.ExitNext? || next.ExitLast?
    case WakeHave(_, _, next) => next.ExitNext? || next.ExitLast?
    case ExitLock => true
    case ExitOwn => true
    case _ => false
  }

  /** A parent is alive, and every process but init that is alive or a zombie has one. */
  ghost predicate ParentOk(s: Sys, p: nat)
    requires p < |s.procs|
  {
    var n, me := |s.procs|, s.procs[p];
    && (me.parent.Some? ==> me.parent.value < n && Alive(s.procs[me.parent.value]))
    && (me.state == UNUSED ==> me.parent == None)
    && ((Alive(me) || me.state == ZOMBIE) && p != INIT ==> me.parent.Some?)
  }

  /** A fork that has set its child's parent. */
  predicate Named(pc: Pc, q: nat) {
    Inner(pc) == ForkNamed(q) || Inner(pc) == ForkGo(q)
  }

  ghost predicate NamedOk(s: Sys, p: nat)
    requires p < |s.procs|
  {
    forall q :: 0 <= q < |s.procs| && Named(s.procs[p].pc, q) ==> s.procs[q].parent == Some(p)
  }

  ghost predicate PassedOk(s: Sys, p: nat)
    requires p < |s.procs|
  {
    && (Exiting(s.procs[p].pc) ==> p != INIT)
    && (forall k :: 0 <= k < Passed(|s.procs|, s.procs[p].pc) && k < |s.procs| ==> s.procs[k].parent != Some(p))
  }

  ghost predicate FamilyOk(s: Sys, p: nat)
    requires p < |s.procs|
  {
    ParentOk(s, p) && NamedOk(s, p) && PassedOk(s, p)
  }

  ghost predicate Family(s: Sys) {
    && |s.procs| > INIT && Alive(s.procs[INIT])
    && forall p :: 0 <= p < |s.procs| ==> FamilyOk(s, p)
  }

  // Time.

  predicate TimeOk(s: Sys, p: Proc) {
    && p.creation <= s.ticks && p.run <= s.ticks - p.creation
    && (p.state == ZOMBIE ==> p.turnaround == p.waiting + p.run && p.creation + p.turnaround <= s.ticks)
  }

  ghost predicate Times(s: Sys) {
    forall p :: 0 <= p < |s.procs| ==> TimeOk(s, s.procs[p])
  }

  // The sleep lock.

  /** p sleeps on the sleep lock, or has released its spinlock in order to. */
  predicate WaitsForLock(p: Proc) {
    p.pc.AcqGo? || (p.pc == Off(AcqWant) && p.state == SLEEPING)
  }

  /** The releaser, on CPU c, has yet to come to process p in its wakeup loop. */
  predicate LockWakeDue(s: Sys, c: nat, p: nat) {
    && Current(s, c)
    && var pc := s.procs[s.cpus[c].proc.value].pc;
    (pc.Wake? || pc.WakeHave?) && pc.chan == Lock && pc.next == Unlock && pc.k <= p
  }

  ghost predicate SleepOk(s: Sys, p: nat)
    requires p < |s.procs|
  {
    var me := s.procs[p];
    && (me.state == SLEEPING && me.pc == Off(AcqWant) ==> me.chan == Some(Lock))
    && (me.pc.AcqOwn? ==> s.locked) && (me.pc.AcqTake? ==> !s.locked)
    && (me.holds <==> s.owner == Some(p))
    && (Inner(me.pc).RelWant? || me.pc.RelHave? ==> s.owner == Some(p))
    && (WaitsForLock(me) ==> s.locked || (s.spin.Some? && LockWakeDue(s, s.spin.value, p)))
  }

  ghost predicate SleepLock(s: Sys) {
    && (s.locked <==> s.owner.Some?)
    && forall p :: 0 <= p < |s.procs| ==> SleepOk(s, p)
  }

  // wait.

  /** p sleeps in wait, or has released wait_lock in order to. */
  predicate WaitsForChild(p: Proc) {
    p.pc.WaitGo? || (p.pc == Off(WaitWant) && p.state == SLEEPING)
  }

  /** The exiting process on CPU c has yet to come to p in waking channel p. */
  predicate ExitWakeDue(s: Sys, c: nat, p: nat) {
    && Current(s, c)
    && var pc := s.procs[s.cpus[c].proc.value].pc;
    (pc.Wake? || pc.WakeHave?) && pc.chan == Of(p) && (pc.next.ExitNext? || pc.next.ExitLast?) && pc.k <= p
  }

  predicate ZombieChild(s: Sys, p: nat, q: nat)
    requires q < |s.procs|
  {
    s.procs[q].state == ZOMBIE && s.procs[q].parent == Some(p)
  }

  /** How far p has looked for a zombie without finding one. */
  function Looked(n: nat, pc: Pc): nat {
    match pc
    case WaitScan(k, _) => k
    case WaitHave(k) => k
    case WaitOwn => n
    case _ => 0
  }

  ghost predicate LookedOk(s: Sys, p: nat)
    requires p < |s.procs|
  {
    forall q :: 0 <= q < Looked(|s.procs|, s.procs[p].pc) && q < |s.procs| ==> !ZombieChild(s, p, q)
  }

  /** A process sleeping in wait has no zombie child, unless whoever gave it one is about to wake it. */
  ghost predicate ChildOk(s: Sys, p: nat)
    requires p < |s.procs|
  {
    && (s.procs[p].state == SLEEPING && s.procs[p].pc == Off(WaitWant) ==> s.procs[p].chan == Some(Of(p)))
    && (WaitsForChild(s.procs[p]) ==>
          forall q :: 0 <= q < |s.procs| && ZombieChild(s, p, q) ==> s.wait.Some? && ExitWakeDue(s, s.wait.value, p))
  }

  /** The last wakeup loop of exit. */
  predicate LastWake(pc: Pc) { (pc.Wake? || pc.WakeHave?) && pc.next.ExitLast? }

  /** An exiting process that has woken its parent, or has yet to, before it becomes a zombie. */
  ghost predicate ParentWoken(s: Sys, p: nat)
    requires p < |s.procs|
  {
    var n, me := |s.procs|, s.procs[p];
    && (LastWake(me.pc) ==>
          && me.parent.Some? && me.parent.value < n && me.pc.chan == Of(me.parent.value)
          && (WaitsForChild(s.procs[me.parent.value]) ==> me.pc.k <= me.parent.value))
    && (me.pc.ExitLock? || me.pc.ExitOwn? ==>
          me.parent.Some? && me.parent.value < n && !WaitsForChild(s.procs[me.parent.value]))
  }

  ghost predicate WaitOk(s: Sys, p: nat)
    requires p < |s.procs|
  {
    LookedOk(s, p) && ChildOk(s, p) && ParentWoken(s, p)
  }

  ghost predicate Waits(s: Sys) {
    forall p :: 0 <= p < |s.procs| ==> WaitOk(s, p)
  }

  ghost predicate Inv(s: Sys) {
    Core(s) && Family(s) && Times(s) && SleepLock(s) && Waits(s)
  }
}
