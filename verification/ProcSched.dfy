/** choose_next_process of kernel/proc.c: the scan over the process table for each policy. */
module ProcSched {
  import opened Wrappers
  import opened ProcState

  datatype Mode = RoundRobin | Fcfs | Priority | Unknown

  predicate Waiting(procs: seq<Proc>, i: nat) { i < |procs| && procs[i].state == RUNNABLE }

  /** i is preferred to j: FCFS takes the older process, PRIORITY the younger one, and the lower
      slot settles ties and decides in round robin. */
  predicate Before(mode: Mode, procs: seq<Proc>, i: nat, j: nat)
    requires i < |procs| && j < |procs|
  {
    match mode
    case Fcfs => procs[i].creation < procs[j].creation || (procs[i].creation == procs[j].creation && i <= j)
    case Priority => procs[i].creation > procs[j].creation || (procs[i].creation == procs[j].creation && i <= j)
    case _ => i <= j
  }

  /** The runnable process that comes before all the others, if there is one. */
  method ChooseNext(mode: Mode, procs: seq<Proc>) returns (r: Option<nat>)
    ensures r.Some? ==> Waiting(procs, r.value) && mode != Unknown
    ensures r.Some? ==> forall i :: Waiting(procs, i) ==> Before(mode, procs, r.value, i)
    ensures r.None? ==> mode == Unknown || forall i :: !Waiting(procs, i)
  {
    if mode == RoundRobin {
      for p := 0 to |procs|
        invariant forall i :: 0 <= i < p ==> !Waiting(procs, i)
      {
        if procs[p].state == RUNNABLE {
          return Some(p);
        }
      }
    } else if mode == Fcfs {
      var chosen: Option<nat> := None;
      for q := 0 to |procs|
        invariant chosen.Some? ==> chosen.value < q && Waiting(procs, chosen.value)
        invariant forall i :: 0 <= i < q && Waiting(procs, i) ==> chosen.Some? && Before(Fcfs, procs, chosen.value, i)
      {
        if procs[q].state == RUNNABLE {
          if chosen == None || procs[q].creation < procs[chosen.value].creation {
            chosen := Some(q);
          }
        }
      }
      return chosen;
    } else if mode == Priority {
      var chosen: Option<nat> := None;
      for q := 0 to |procs|
        invariant chosen.Some? ==> chosen.value < q && Waiting(procs, chosen.value)
        invariant forall i :: 0 <= i < q && Waiting(procs, i) ==>
                    chosen.Some? && Before(Priority, procs, chosen.value, i)
      {
        if procs[q].state == RUNNABLE {
          if chosen == None || procs[q].creation > procs[chosen.value].creation {
            chosen := Some(q);
          }
        }
      }
      return chosen;
    }
    return None;
  }
}
