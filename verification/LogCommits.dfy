/** One operation on a log at rest, from begin_op to the end of its commit. */
module LogCommits {
  import opened Blocks
  import opened LogDisk
  import opened LogProtocol
  import opened LogRuns
  import opened LogClient

  lemma {:induction false} Snoc(g: Region, s: State, ls: seq<Label>, l: Label, q: nat, ws: seq<Update>)
    requires Inv(g, s) && IsRun(g, s, ls) && Enabled(g, After(g, s, ls), l)
    ensures IsRun(g, s, ls + [l]) && After(g, s, ls + [l]) == Next(g, After(g, s, ls), l)
    ensures MadeAfter(g, s, ls + [l], q, ws) == Made(After(g, s, ls), l, q, MadeAfter(g, s, ls, q, ws))
    decreases |ls|
  {
    hide Inv, Enabled, Next, Made;
    if ls == [] {
      StepRefines(g, s, l);
      assert ([l])[1..] == [];
    } else {
      StepRefines(g, s, ls[0]);
      Snoc(g, Next(g, s, ls[0]), ls[1..], l, q, Made(s, ls[0], q, ws));
      assert (ls + [l])[1..] == ls[1..] + [l];
    }
  }

  lemma {:induction false} RunRun(g: Region, s: State, ls: seq<Label>, ms: seq<Label>)
    requires Inv(g, s) && IsRun(g, s, ls) && IsRun(g, After(g, s, ls), ms)
    ensures IsRun(g, s, ls + ms) && After(g, s, ls + ms) == After(g, After(g, s, ls), ms)
    decreases |ls|
  {
    hide Inv, Enabled, Next;
    if ls == [] {
      assert [] + ms == ms;
    } else {
      StepRefines(g, s, ls[0]);
      RunRun(g, Next(g, s, ls[0]), ls[1..], ms);
      assert (ls + ms)[1..] == ls[1..] + ms;
    }
  }

  /** Process p alone is in an operation, and has made the file system d. */
  ghost predicate Under(g: Region, t: State, p: nat, d: Disk) {
    && Inv(g, t) && t.phase.Up? && t.outstanding == 1 && p < |t.ops| && t.ops[p].Active? && |d| == |t.disk|
    && Abs(g, t).current == Home(g, d)
  }

  lemma BeginsAlone(g: Region, s: State, p: nat, d: Disk)
    requires AtRest(g, s, d) && p < |s.ops| && s.ops[p].Idle?
    ensures Enabled(g, s, Begin(p)) && Under(g, Next(g, s, Begin(p)), p, d)
  {
    EmptyLog(g, s);
    StepRefines(g, s, Begin(p));
    hide Home, Recovered, Over, DiskOk, GoodDisk, GoodList;
  }

  lemma WritesOne(g: Region, t: State, p: nat, d: Disk, u: Update)
    requires Under(g, t, p, d) && Enabled(g, t, Write(p, u.block, u.contents))
    ensures u.block < |d| && Under(g, Next(g, t, Write(p, u.block, u.contents)), p, d[u.block := u.contents])
  {
    hide Home, Recovered, Over, DiskOk, GoodDisk, GoodList;
    StepRefines(g, t, Write(p, u.block, u.contents));
    HomePut(g, d, u.block, u.contents);
  }

  lemma EndsAlone(g: Region, t: State, p: nat, d: Disk)
    requires Under(g, t, p, d)
    ensures Enabled(g, t, End(p))
    ensures var e := Next(g, t, End(p)); Inv(g, e) && Running(e) && !e.phase.Up? && Abs(g, e).current == Home(g, d)
  {
    hide Home, Recovered, Over, DiskOk, GoodDisk, GoodList;
    StepRefines(g, t, End(p));
  }

  /** An operation that the log has room for: so many different home blocks, the last written once. */
  ghost predicate Fits(g: Region, d: Disk, ws: seq<Update>) {
    && |BlocksOf(ws)| <= MAXOPBLOCKS && EndsFresh(ws) && forall b :: b in BlocksOf(ws) ==> b < |d| && !InLog(g, b)
  }

  lemma {:induction false} WritesRun(g: Region, s: State, p: nat, d: Disk, ws: seq<Update>, j: nat)
    returns (ls: seq<Label>)
    requires AtRest(g, s, d) && p < |s.ops| && s.ops[p].Idle? && g.size > LOGSIZE && Fits(g, d, ws) && j <= |ws|
    ensures IsRun(g, s, ls) && MadeAfter(g, s, ls, p, []) == ws[..j]
    ensures Under(g, After(g, s, ls), p, Applied(d, ws[..j]))
    decreases j
  {
    hide Under, Enabled, Next, Applied, Home, Inv, BlocksOf;
    if j == 0 {
      BeginsAlone(g, s, p, d);
      AtRestInv(g, s, d);
      Snoc(g, s, [], Begin(p), p, []);
      AppliedNone(d);
      ls := [] + [Begin(p)];
    } else {
      var ms := WritesRun(g, s, p, d, ws, j - 1);
      var t, u := After(g, s, ms), ws[j - 1];
      UnderIs(g, t, p, Applied(d, ws[..j - 1]));
      WriteFits(g, s, ms, p, ws, j - 1);
      Snoc(g, s, ms, Write(p, u.block, u.contents), p, []);
      WritesOne(g, t, p, Applied(d, ws[..j - 1]), u);
      assert ws[..j] == ws[..j - 1] + [u];
      AppliedMore(d, ws[..j - 1], u);
      ls := ms + [Write(p, u.block, u.contents)];
    }
  }

  lemma AtRestInv(g: Region, s: State, d: Disk)
    requires AtRest(g, s, d)
    ensures Inv(g, s)
  {}

  lemma UnderIs(g: Region, t: State, p: nat, d: Disk)
    requires Under(g, t, p, d)
    ensures Running(t) && p < |t.ops| && t.ops[p].Active?
  {}

  /** An operation that the log has room for can begin, make its writes, end and commit; the log is
      then at rest again with exactly those writes made, and a reboot comes up with them. */
  lemma OperationCommits(g: Region, s: State, p: nat, d: Disk, ws: seq<Update>) returns (ls: seq<Label>)
    requires AtRest(g, s, d) && p < |s.ops| && s.ops[p].Idle? && g.size > LOGSIZE && Fits(g, d, ws)
    ensures IsRun(g, s, ls)
    ensures var t := After(g, s, ls); AtRest(g, t, Applied(d, ws)) && Recovered(g, t.disk) == Home(g, Applied(d, ws))
  {
    hide Under, Enabled, Next, Applied, Home, Inv, BlocksOf, Recovered, MadeAfter;
    var ms := WritesRun(g, s, p, d, ws, |ws|);
    assert ws[..|ws|] == ws;
    var t := After(g, s, ms);
    AtRestInv(g, s, d);
    EndsAlone(g, t, p, Applied(d, ws));
    Snoc(g, s, ms, End(p), p, []);
    var e := Next(g, t, End(p));
    var ns := CommitCompletes(g, e);
    RunRun(g, s, ms + [End(p)], ns);
    ls := ms + [End(p)] + ns;
    SameSize(g, s, ls);
    SettledRests(g, After(g, s, ls), Applied(d, ws));
  }

  lemma SettledRests(g: Region, t: State, d: Disk)
    requires Inv(g, t) && Settled(g, t, Home(g, d)) && |d| == |t.disk|
    ensures AtRest(g, t, d) && Recovered(g, t.disk) == Home(g, d)
  {
    hide Home, Recovered, Over;
  }
}
