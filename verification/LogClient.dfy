/** Any number of processes running file-system operations over the log protocol, while the
    machine may crash anywhere. Their log_writes come in units, each of which takes the file
    system from one state at rest to the next: one operation, or several whose writes mix. */
module LogClient {
  import opened Wrappers
  import opened Blocks
  import opened LogDisk
  import opened LogProtocol
  import opened LogRuns

  /** The disk after the first k units, and after j writes more. */
  function DiskAt(d: Disk, txs: seq<seq<Update>>, k: nat): (r: Disk)
    requires k <= |txs|
    ensures |r| == |d|
  {
    if k == 0 then d else Applied(DiskAt(d, txs, k - 1), txs[k - 1])
  }

  function Now(d: Disk, txs: seq<seq<Update>>, k: nat, j: nat): (r: Disk)
    requires k <= |txs| && (k < |txs| ==> j <= |txs[k]|)
    ensures |r| == |d|
  {
    if k < |txs| then Applied(DiskAt(d, txs, k), txs[k][..j]) else DiskAt(d, txs, k)
  }

  /** Where the processes are: k units written and j writes of the next; `last` units were written
      when no operation was in progress last, and `prev` the time before. After a crash, the
      processes are gone. */
  datatype Place = At(k: nat, j: nat, prev: nat, last: nat) | Gone(prev: nat, last: nat)

  ghost predicate Good(at: Place, txs: seq<seq<Update>>) {
    && at.prev <= at.last <= |txs|
    && (at.At? ==> at.last <= at.k <= |txs| && if at.k < |txs| then at.j <= |txs[at.k]| else at.j == 0)
  }

  /** Past the units that are complete. */
  function Onward(txs: seq<seq<Update>>, k: nat, j: nat): (r: (nat, nat))
    requires k <= |txs| && if k < |txs| then j <= |txs[k]| else j == 0
    ensures k <= r.0 <= |txs| && if r.0 < |txs| then r.1 < |txs[r.0]| else r.1 == 0
    decreases |txs| - k
  {
    if k < |txs| && j == |txs[k]| then Onward(txs, k + 1, 0) else (k, j)
  }

  lemma {:induction false} OnwardNow(d: Disk, txs: seq<seq<Update>>, k: nat, j: nat)
    requires k <= |txs| && if k < |txs| then j <= |txs[k]| else j == 0
    ensures var r := Onward(txs, k, j); Now(d, txs, r.0, r.1) == Now(d, txs, k, j)
    decreases |txs| - k
  {
    hide Applied;
    if k < |txs| && j == |txs[k]| {
      assert txs[k][..j] == txs[k];
      OnwardNow(d, txs, k + 1, 0);
      UnitStart(d, txs, k + 1);
    }
  }

  lemma UnitStart(d: Disk, txs: seq<seq<Update>>, k: nat)
    requires k <= |txs|
    ensures Now(d, txs, k, 0) == DiskAt(d, txs, k)
  {
    if k < |txs| { assert txs[k][..0] == []; }
  }

  ghost function Begun(txs: seq<seq<Update>>): (at: Place)
    ensures Good(at, txs)
  {
    At(Onward(txs, 0, 0).0, Onward(txs, 0, 0).1, 0, 0)
  }

  /** Any process may write the next block, begin and end; the last one to end leaves no unit
      half written. The log steps and the machine crashes at any time. */
  ghost predicate Allowed(s: State, l: Label, at: Place, txs: seq<seq<Update>>)
    requires Good(at, txs)
  {
    match l
    case Write(_, b, v) =>
      at.At? && at.k < |txs| && at.j < |txs[at.k]| && txs[at.k][at.j] == Update(b, v)
    case End(_) => at.At? && s.outstanding == 1 ==> at.j == 0
    case _ => true
  }

  ghost function Moved(s: State, l: Label, at: Place, txs: seq<seq<Update>>): (r: Place)
    requires Good(at, txs) && Allowed(s, l, at, txs)
    ensures Good(r, txs)
  {
    match l
    case Write(_, _, _) =>
      var r := Onward(txs, at.k, at.j + 1);
      At(r.0, r.1, at.prev, at.last)
    case End(_) => if at.At? && s.outstanding == 1 then At(at.k, at.j, at.last, at.k) else at
    case Crash => Gone(at.prev, at.last)
    case _ => at
  }

  ghost predicate Carries(g: Region, s: State, ls: seq<Label>, at: Place, txs: seq<seq<Update>>)
    requires Inv(g, s) && IsRun(g, s, ls) && Good(at, txs)
    decreases |ls|
  {
    ls == [] || (Allowed(s, ls[0], at, txs)
                 && (StepRefines(g, s, ls[0]);
                     Carries(g, Next(g, s, ls[0]), ls[1..], Moved(s, ls[0], at, txs), txs)))
  }

  ghost function PlaceAfter(g: Region, s: State, ls: seq<Label>, at: Place, txs: seq<seq<Update>>): (r: Place)
    requires Inv(g, s) && IsRun(g, s, ls) && Good(at, txs) && Carries(g, s, ls, at, txs)
    ensures Good(r, txs)
    decreases |ls|
  {
    if ls == [] then at
    else StepRefines(g, s, ls[0]); PlaceAfter(g, Next(g, s, ls[0]), ls[1..], Moved(s, ls[0], at, txs), txs)
  }

  /** The file system is what the writes so far make it, and what survives a crash is what it was
      when no operation was in progress last, or the time before while the commit is under way. */
  ghost predicate Tracks(g: Region, s: State, at: Place, txs: seq<seq<Update>>, d: Disk)
    requires Good(at, txs)
  {
    && Inv(g, s) && |d| == |s.disk|
    && var a := Abs(g, s);
       match at
       case At(k, j, prev, last) =>
         && Running(s) && a.current == Home(g, Now(d, txs, k, j))
         && (s.outstanding == 0 ==> a.current == Home(g, DiskAt(d, txs, last)))
         && (a.durable == Home(g, DiskAt(d, txs, last)) || (!s.phase.Up? && a.durable == Home(g, DiskAt(d, txs, prev))))
       case Gone(prev, last) =>
         && a.current == a.durable
         && (a.durable == Home(g, DiskAt(d, txs, last)) || a.durable == Home(g, DiskAt(d, txs, prev)))
  }

  lemma Quiet(g: Region, s: State)
    requires Inv(g, s) && Running(s) && s.outstanding == 0 && s.phase.Up?
    ensures Abs(g, s).durable == Abs(g, s).current
  {
    EmptyLog(g, s);
  }

  lemma Busy(g: Region, s: State, p: nat)
    requires Inv(g, s) && Running(s) && p < |s.ops| && s.ops[p].Active?
    ensures s.phase.Up? && s.outstanding > 0
  {
    BudgetBounds(s.ops);
  }

  lemma WriteTracks(g: Region, s: State, at: Place, txs: seq<seq<Update>>, d: Disk, p: nat, b: nat, v: Block)
    requires Good(at, txs) && Tracks(g, s, at, txs, d) && Enabled(g, s, Write(p, b, v))
    requires Allowed(s, Write(p, b, v), at, txs)
    ensures Tracks(g, Next(g, s, Write(p, b, v)), Moved(s, Write(p, b, v), at, txs), txs, d)
  {
    hide Home, Recovered, Over, DiskOk, Applied, DiskAt;
    StepRefines(g, s, Write(p, b, v));
    Busy(g, s, p);
    hide OpsOk, Onward;
    var ws, u := txs[at.k][..at.j], Update(b, v);
    assert txs[at.k][..at.j + 1] == ws + [u];
    AppliedMore(DiskAt(d, txs, at.k), ws, u);
    HomePut(g, Now(d, txs, at.k, at.j), b, v);
    OnwardNow(d, txs, at.k, at.j + 1);
  }

  lemma HomePut(g: Region, d: Disk, b: nat, v: Block)
    requires b < |d| && !InLog(g, b)
    ensures |Home(g, d)| == |d| && Home(g, d[b := v]) == Home(g, d)[b := v]
  {
  }

  lemma EndTracks(g: Region, s: State, at: Place, txs: seq<seq<Update>>, d: Disk, p: nat)
    requires Good(at, txs) && Tracks(g, s, at, txs, d) && Enabled(g, s, End(p)) && Allowed(s, End(p), at, txs)
    ensures Tracks(g, Next(g, s, End(p)), Moved(s, End(p), at, txs), txs, d)
  {
    hide Home, Recovered, Over, DiskOk, Applied, DiskAt, Now;
    StepRefines(g, s, End(p));
    Busy(g, s, p);
    hide OpsOk;
    if at.At? { UnitStart(d, txs, at.k); }
  }

  lemma CommitTracks(g: Region, s: State, at: Place, txs: seq<seq<Update>>, d: Disk)
    requires Good(at, txs) && Tracks(g, s, at, txs, d) && Enabled(g, s, CommitStep)
    ensures Tracks(g, Next(g, s, CommitStep), at, txs, d)
  {
    hide Home, Recovered, Over, DiskOk, Applied, DiskAt, Now;
    StepRefines(g, s, CommitStep);
    var t := Next(g, s, CommitStep);
    assert s.outstanding == 0 == t.outstanding;
    hide OpsOk;
    if t.phase.Up? { Quiet(g, t); }
  }

  lemma StepTracks(g: Region, s: State, at: Place, txs: seq<seq<Update>>, d: Disk, l: Label)
    requires Good(at, txs) && Tracks(g, s, at, txs, d) && Enabled(g, s, l) && Allowed(s, l, at, txs)
    ensures Tracks(g, Next(g, s, l), Moved(s, l, at, txs), txs, d)
  {
    match l {
      case Write(p, b, v) => WriteTracks(g, s, at, txs, d, p, b, v);
      case End(p) => EndTracks(g, s, at, txs, d, p);
      case CommitStep => CommitTracks(g, s, at, txs, d);
      case _ => OtherTracks(g, s, at, txs, d, l);
    }
  }

  lemma OtherTracks(g: Region, s: State, at: Place, txs: seq<seq<Update>>, d: Disk, l: Label)
    requires Good(at, txs) && Tracks(g, s, at, txs, d) && Enabled(g, s, l) && (l.Begin? || l.Crash? || l.RecoverStep?)
    ensures Tracks(g, Next(g, s, l), Moved(s, l, at, txs), txs, d)
  {
    hide Home, Recovered, Over, DiskOk, Applied, OpsOk, DiskAt, Now;
    StepRefines(g, s, l);
  }

  lemma {:induction false} RunTracks(g: Region, s: State, ls: seq<Label>, at: Place, txs: seq<seq<Update>>, d: Disk)
    requires Good(at, txs) && Tracks(g, s, at, txs, d) && IsRun(g, s, ls) && Carries(g, s, ls, at, txs)
    ensures Tracks(g, After(g, s, ls), PlaceAfter(g, s, ls, at, txs), txs, d)
    decreases |ls|
  {
    if ls != [] {
      StepTracks(g, s, at, txs, d, ls[0]);
      hide Tracks;
      StepRefines(g, s, ls[0]);
      RunTracks(g, Next(g, s, ls[0]), ls[1..], Moved(s, ls[0], at, txs), txs, d);
    }
  }

  /** No operation is in progress, and the file system is d. */
  ghost predicate AtRest(g: Region, s: State, d: Disk) {
    Inv(g, s) && s.phase.Up? && s.outstanding == 0 && |d| == |s.disk| && Home(g, s.disk) == Home(g, d)
  }

  lemma RestTracks(g: Region, s: State, txs: seq<seq<Update>>, d: Disk)
    requires AtRest(g, s, d)
    ensures Tracks(g, s, Begun(txs), txs, d)
  {
    EmptyLog(g, s);
    OnwardNow(d, txs, 0, 0);
    UnitStart(d, txs, 0);
    hide Home, Recovered, Over, DiskOk, OpsOk, Now, Onward;
  }

  /** Wherever the run stops, a reboot comes up with the file system as it was at the last moment
      when no operation was in progress, with every operation up to then whole, or at the moment
      before that if the commit since had not got to the header. */
  lemma RebootAfterPrefix(g: Region, s: State, ls: seq<Label>, txs: seq<seq<Update>>, d: Disk) returns (k: nat)
    requires AtRest(g, s, d) && IsRun(g, s, ls) && Carries(g, s, ls, Begun(txs), txs)
    ensures var at, t := PlaceAfter(g, s, ls, Begun(txs), txs), After(g, s, ls);
            && (k == at.last || k == at.prev) && (at.At? && t.phase.Up? ==> k == at.last)
            && Recovered(g, t.disk) == Home(g, DiskAt(d, txs, k))
  {
    hide Home, Recovered, Over, Applied, OpsOk, DiskOk, Carries, PlaceAfter, IsRun, After, Now, Begun;
    RestTracks(g, s, txs, d);
    RunTracks(g, s, ls, Begun(txs), txs, d);
    var t, at := After(g, s, ls), PlaceAfter(g, s, ls, Begun(txs), txs);
    k := if Recovered(g, t.disk) == Home(g, DiskAt(d, txs, at.last)) then at.last else at.prev;
  }

  // Room in the log for one operation among many.

  /** What the operation that process q is in has written. */
  function Made(s: State, l: Label, q: nat, ws: seq<Update>): seq<Update> {
    match l
    case Begin(p) => if p == q && Admits(s) then [] else ws
    case Write(p, b, v) => if p == q then ws + [Update(b, v)] else ws
    case _ => ws
  }

  ghost function MadeAfter(g: Region, s: State, ls: seq<Label>, q: nat, ws: seq<Update>): seq<Update>
    requires Inv(g, s) && IsRun(g, s, ls)
    decreases |ls|
  {
    if ls == [] then ws
    else StepRefines(g, s, ls[0]); MadeAfter(g, Next(g, s, ls[0]), ls[1..], q, Made(s, ls[0], q, ws))
  }

  /** It has used no more of its budget than the different blocks it wrote, which are all logged. */
  ghost predicate Within(o: Op, lh: seq<nat>, blocks: set<nat>) {
    o.Active? ==> o.used <= |blocks| && forall b :: b in blocks ==> b in lh
  }

  ghost predicate Charged(s: State, q: nat, ws: seq<Update>) { q < |s.ops| && Within(s.ops[q], s.lh, BlocksOf(ws)) }

  lemma Charge(o: Op, lh: seq<nat>, blocks: set<nat>, b: nat)
    requires Within(o, lh, blocks)
    ensures b in lh ==> Within(o, lh, blocks + {b})
    ensures b !in lh ==> Within(o, lh + [b], blocks)
    ensures b !in lh && o.Active? ==> Within(Active(o.used + 1), lh + [b], blocks + {b})
  {
    if o.Active? {
      if b in blocks { assert blocks + {b} == blocks; }
      assert (lh + [b])[|lh|] == b;
    }
  }

  lemma WriteCharges(g: Region, s: State, p: nat, b: nat, v: Block, q: nat, ws: seq<Update>)
    requires Inv(g, s) && Enabled(g, s, Write(p, b, v)) && Charged(s, q, ws)
    ensures Charged(Next(g, s, Write(p, b, v)), q, Made(s, Write(p, b, v), q, ws))
  {
    hide BlocksOf, Inv, Within;
    AppliedMore([], ws, Update(b, v));
    Charge(s.ops[q], s.lh, BlocksOf(ws), b);
  }

  lemma StepCharges(g: Region, s: State, l: Label, q: nat, ws: seq<Update>)
    requires Inv(g, s) && Enabled(g, s, l) && Charged(s, q, ws)
    ensures Charged(Next(g, s, l), q, Made(s, l, q, ws))
  {
    match l {
      case Begin(_) => AppliedNone([]); hide BlocksOf, Inv;
      case Write(p, b, v) => hide BlocksOf, Inv, Charged, Next; WriteCharges(g, s, p, b, v, q, ws);
      case End(_) => hide BlocksOf, Inv;
      case CommitStep => IdleCharges(g, s, l, q, ws);
      case _ => IdleCharges(g, s, l, q, ws);
    }
  }

  /** Nobody is in an operation while the log commits or recovers. */
  lemma IdleCharges(g: Region, s: State, l: Label, q: nat, ws: seq<Update>)
    requires Inv(g, s) && Enabled(g, s, l) && (l.CommitStep? || l.Crash? || l.RecoverStep?) && q < |s.ops|
    ensures q < |Next(g, s, l).ops| && !Next(g, s, l).ops[q].Active?
  {
    hide DiskOk, GoodDisk, GoodList;
    if l.CommitStep? && s.ops[q].Active? { Busy(g, s, q); assert false; }
  }

  lemma {:induction false} RunCharges(g: Region, s: State, ls: seq<Label>, q: nat, ws: seq<Update>)
    requires Inv(g, s) && IsRun(g, s, ls) && Charged(s, q, ws)
    ensures Charged(After(g, s, ls), q, MadeAfter(g, s, ls, q, ws))
    decreases |ls|
  {
    if ls != [] {
      StepRefines(g, s, ls[0]);
      StepCharges(g, s, ls[0], q, ws);
      hide Charged, Made, Inv;
      RunCharges(g, Next(g, s, ls[0]), ls[1..], q, Made(s, ls[0], q, ws));
    }
  }

  lemma PrefixSmaller(ws: seq<Update>, j: nat)
    requires j < |ws| && EndsFresh(ws)
    ensures |BlocksOf(ws[..j])| < |BlocksOf(ws)|
  {
    var n := |ws| - 1;
    forall x | x in ws[..j] ensures x in ws[..n] {}
    forall x | x in ws[..n] ensures x in ws {}
    assert ws[n] in ws;
    SubsetCard(BlocksOf(ws[..j]) + {ws[n].block}, BlocksOf(ws));
  }

  /** An operation of at most MAXOPBLOCKS different home blocks, the last of them written once, never
      makes log_write panic in a log of the full size, whatever other processes have in progress. */
  lemma WriteFits(g: Region, s: State, ls: seq<Label>, q: nat, ws: seq<Update>, j: nat)
    requires Inv(g, s) && IsRun(g, s, ls) && q < |s.ops| && !s.ops[q].Active? && g.size > LOGSIZE
    requires |BlocksOf(ws)| <= MAXOPBLOCKS && EndsFresh(ws) && j < |ws|
    requires forall b :: b in BlocksOf(ws) ==> b < |s.disk| && !InLog(g, b)
    requires var t := After(g, s, ls);
             Running(t) && q < |t.ops| && t.ops[q].Active? && MadeAfter(g, s, ls, q, []) == ws[..j]
    ensures Enabled(g, After(g, s, ls), Write(q, ws[j].block, ws[j].contents))
  {
    hide BlocksOf, Inv, IsRun, After, MadeAfter;
    var t := After(g, s, ls);
    RunCharges(g, s, ls, q, []);
    PrefixSmaller(ws, j);
    BudgetSuffices(g, t, q);
    SameSize(g, s, ls);
    assert ws[j].block in BlocksOf(ws) by { Member(ws, j); }
  }

  lemma Member(ws: seq<Update>, j: nat)
    requires j < |ws|
    ensures ws[j].block in BlocksOf(ws)
  {
    assert ws[j] in ws;
  }

  lemma {:induction false} SameSize(g: Region, s: State, ls: seq<Label>)
    requires Inv(g, s) && IsRun(g, s, ls)
    ensures |After(g, s, ls).disk| == |s.disk|
    decreases |ls|
  {
    if ls != [] {
      StepRefines(g, s, ls[0]);
      SameSize(g, Next(g, s, ls[0]), ls[1..]);
    }
  }
}
