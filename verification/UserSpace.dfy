/** A process's address space: its page tables and the frames it owns through them. */
module UserSpace {
  import opened PageTable
  import opened Vm

  /** The tree, and the frame that each owned user page is mapped to. Pages mapped
      without being owned (trampoline, trapframe) are in the tree only. */
  datatype Space = Space(node: Tree, user: map<nat, nat>)

  predicate IsData(p: Page) { p.Bytes? && |p.data| == PGSIZE }

  /** An entry that maps frame f as a leaf. */
  predicate MapsTo(e: nat, f: nat) { V(e) && Frame(e) == f && IsLeaf(e) }

  ghost predicate PageOk(ram: Ram, free: seq<nat>, s: Space, v: nat)
    requires v in s.user
  {
    && v < MAXVPN && s.user[v] < |ram| && IsData(ram[s.user[v]])
    && s.user[v] !in free && s.user[v] !in s.node.Values
    && MapsTo(Lookup(ram, s.node, v), s.user[v])
  }

  ghost predicate Separate(user: map<nat, nat>) {
    forall v, w :: v in user && w in user && v != w ==> user[v] != user[w]
  }

  ghost predicate SpaceOk(ram: Ram, free: seq<nat>, s: Space) {
    && Base(ram, free, s.node)
    && (forall v :: v in s.user ==> PageOk(ram, free, s, v))
    && Separate(s.user)
    && (forall v: nat :: V(Lookup(ram, s.node, v)) && U(Lookup(ram, s.node, v)) ==> v in s.user)
    && (forall v: nat :: !V(Lookup(ram, s.node, v)) ==> Lookup(ram, s.node, v) == 0)
  }

  /** Every frame that is free, holds a table page, or holds a user page. */
  ghost function Frames(free: seq<nat>, s: Space): set<nat> { Pool(free, s.node) + s.user.Values }

  /** A frame that is none of those: allocated and held by the running code. */
  ghost predicate Held(ram: Ram, free: seq<nat>, s: Space, f: nat) { f < |ram| && f !in Frames(free, s) }

  lemma PutUser(user: map<nat, nat>, v: nat, f: nat)
    requires v !in user
    ensures user[v := f].Values == user.Values + {f}
  {
    assert forall w :: w in user ==> user[v := f][w] == user[w];
    assert user[v := f][v] == f;
  }

  lemma DropUser(user: map<nat, nat>, v: nat)
    requires v in user && Separate(user)
    ensures (user - {v}).Values == user.Values - {user[v]} && Separate(user - {v})
  {
    forall f | f in user.Values - {user[v]} ensures f in (user - {v}).Values {
      var w :| w in user && user[w] == f;
      assert w in user - {v};
    }
  }

  /** Taking a free frame and putting one back. */
  lemma TakeOk(ram: Ram, free: seq<nat>, s: Space, p: Page)
    requires SpaceOk(ram, free, s) && free != []
    ensures free[0] < |ram| && SpaceOk(ram[free[0] := p], free[1..], s)
    ensures Held(ram[free[0] := p], free[1..], s, free[0])
    ensures Frames(free, s) == Frames(free[1..], s) + {free[0]}
    ensures SameMap(ram, s.node, ram[free[0] := p], s.node)
  {
    var f, r := free[0], ram[free[0] := p];
    assert f in free;
    Elsewhere(ram, r, s.node);
    assert (set g | g in free) == {f} + (set g | g in free[1..]);
    assert f !in s.node.Values;
    assert f !in free[1..];
    forall v | v in s.user ensures PageOk(r, free[1..], s, v) && s.user[v] != f { assert PageOk(ram, free, s, v); }
    hide TreeOk, Lookup, V, U;
  }

  lemma GiveOk(ram: Ram, free: seq<nat>, s: Space, f: nat)
    requires SpaceOk(ram, free, s) && Held(ram, free, s, f)
    ensures SpaceOk(ram[f := Junk], [f] + free, s) && Frames([f] + free, s) == Frames(free, s) + {f}
    ensures SameMap(ram, s.node, ram[f := Junk], s.node)
  {
    var r := ram[f := Junk];
    assert f !in free && f !in s.node.Values && f !in s.user.Values;
    Elsewhere(ram, r, s.node);
    assert (set g | g in [f] + free) == {f} + (set g | g in free);
    forall v | v in s.user ensures PageOk(r, [f] + free, s, v) { assert PageOk(ram, free, s, v); }
    hide TreeOk, Lookup, V, U;
  }

  /** Allocating table pages disturbs no user page. */
  lemma QuietOk(ram: Ram, free: seq<nat>, s: Space, ram': Ram, free': seq<nat>, t': Tree)
    requires SpaceOk(ram, free, s) && Quiet(ram, free, s.node, ram', free', t') && Base(ram', free', t')
    ensures SpaceOk(ram', free', Space(t', s.user)) && Frames(free', Space(t', s.user)) == Frames(free, s)
    ensures forall v :: v in s.user ==> s.user[v] < |ram| == |ram'| && ram'[s.user[v]] == ram[s.user[v]]
  {
    hide TreeOk, Lookup, V, U, FreeOk;
    forall v | v in s.user
      ensures PageOk(ram', free', Space(t', s.user), v) && s.user[v] < |ram| && ram'[s.user[v]] == ram[s.user[v]]
    {
      assert PageOk(ram, free, s, v);
      NotInPool(free, s.node, s.user[v]);
      InNeither(free', t', s.user[v]);
    }
  }

  lemma NotInPool(free: seq<nat>, t: Tree, f: nat)
    requires f !in free && f !in t.Values
    ensures f !in Pool(free, t)
  {
  }

  lemma InNeither(free: seq<nat>, t: Tree, f: nat)
    requires f !in Pool(free, t)
    ensures f !in free && f !in t.Values
  {
  }

  /** mappages of one held frame makes it a user page. */
  lemma MapUserOk(ram: Ram, free: seq<nat>, s: Space, ram': Ram, free': seq<nat>, t': Tree, v: nat, f: nat, flags: nat)
    requires SpaceOk(ram, free, s) && Held(ram, free, s, f) && IsData(ram[f]) && v < MAXVPN
    requires Maps(ram, free, s.node, ram', free', t', v, 1, f, flags) && Base(ram', free', t')
    requires flags < 1024 && V(flags) && IsLeaf(flags) && !V(Lookup(ram, s.node, v))
    ensures v !in s.user
    ensures SpaceOk(ram', free', Space(t', s.user[v := f]))
    ensures Frames(free', Space(t', s.user[v := f])) == Frames(free, s) + {f}
    ensures forall w :: w in s.user ==> s.user[w] < |ram| == |ram'| && ram'[s.user[w]] == ram[s.user[w]]
    ensures |ram'| == |ram| && ram'[f] == ram[f]
  {
    hide TreeOk, Lookup, FreeOk;
    PteFields(f, flags);
    assert v in s.user ==> PageOk(ram, free, s, v);
    PutUser(s.user, v, f);
    var s' := Space(t', s.user[v := f]);
    assert Lookup(ram', t', v) == MakePte(f, flags) && V(MakePte(f, flags));
    hide MakePte, V, U, Flags, Frame;
    InNeither(free', t', f);
    forall w | w in s'.user
      ensures PageOk(ram', free', s', w) && s'.user[w] < |ram| && ram'[s'.user[w]] == ram[s'.user[w]]
    {
      if w != v {
        assert PageOk(ram, free, s, w);
        NotInPool(free, s.node, s.user[w]);
        InNeither(free', t', s.user[w]);
      }
    }
    forall w | w in s.user ensures s.user[w] != f { assert s.user[w] in s.user.Values; }
  }

  function LeafOf(v: nat): Path { Leaf(I2(v), I1(v)) }

  lemma MappedHasLeaf(ram: Ram, t: Tree, v: nat)
    requires TreeOk(ram, t) && V(Lookup(ram, t, v))
    ensures LeafOf(v) in t && IsTable(ram, t[LeafOf(v)]) && I0(v) < ENTRIES
    ensures Lookup(ram, t, v) == ram[t[LeafOf(v)]].ptes[I0(v)]
  {
  }

  lemma ZeroPte()
    ensures !V(0) && !U(0)
  {
  }

  /** The other pages when the entry of page v has been cleared. */
  lemma ForgottenPage(ram: Ram, free: seq<nat>, s: Space, v: nat, r: Ram, w: nat)
    requires w in s.user && PageOk(ram, free, s, w) && w != v && Contained(ram, free, s.node, r, free, s.node)
    requires Lookup(r, s.node, w) == Lookup(ram, s.node, w)
    ensures PageOk(r, free, Space(s.node, s.user - {v}), w)
  {
    hide Lookup, V, U, MapsTo;
    NotInPool(free, s.node, s.user[w]);
  }

  /** The space that is left when the entry of page v has been cleared. */
  lemma ForgottenOk(ram: Ram, free: seq<nat>, s: Space, v: nat, r: Ram)
    requires SpaceOk(ram, free, s) && v in s.user && Base(r, free, s.node)
    requires Contained(ram, free, s.node, r, free, s.node)
    requires forall w: nat :: Lookup(r, s.node, w) == if w == v then 0 else Lookup(ram, s.node, w)
    ensures SpaceOk(r, free, Space(s.node, s.user - {v}))
  {
    hide TreeOk, Lookup, FreeOk, V, U, MapsTo, Base, PageOk, Contained, Separate;
    ZeroPte();
    DropUser(s.user, v);
    var s' := Space(s.node, s.user - {v});
    forall w | w in s'.user ensures PageOk(r, free, s', w) {
      ForgottenPage(ram, free, s, v, r, w);
    }
  }

  /** Clearing the entry of an owned page gives its frame up to the running code. */
  lemma ForgetOk(ram: Ram, free: seq<nat>, s: Space, v: nat)
    requires SpaceOk(ram, free, s) && v in s.user
    ensures LeafOf(v) in s.node && IsTable(ram, s.node[LeafOf(v)]) && I0(v) < ENTRIES
    ensures s.user[v] < |ram| && s.user[v] !in free && s.user[v] !in s.node.Values
    ensures var r, s' := PutPte(ram, s.node[LeafOf(v)], I0(v), 0), Space(s.node, s.user - {v});
            && SpaceOk(r, free, s') && Held(r, free, s', s.user[v]) && Frames(free, s) == Frames(free, s') + {s.user[v]}
            && Contained(ram, free, s.node, r, free, s.node)
            && forall w: nat :: Lookup(r, s.node, w) == if w == v then 0 else Lookup(ram, s.node, w)
  {
    assert PageOk(ram, free, s, v);
    MappedHasLeaf(ram, s.node, v);
    hide TreeOk, Lookup, FreeOk, Frame, I2, I1, I0, V, U;
    StoreOne(ram, free, s.node, v, 0);
    DropUser(s.user, v);
    ForgottenOk(ram, free, s, v, PutPte(ram, s.node[LeafOf(v)], I0(v), 0));
    hide PageOk, SpaceOk, Base;
    NotInPool(free, s.node, s.user[v]);
  }

  /** Clearing the entry of a page that is mapped but not owned. */
  lemma UnmapOk(ram: Ram, free: seq<nat>, s: Space, v: nat, e: nat)
    requires SpaceOk(ram, free, s) && v !in s.user && V(Lookup(ram, s.node, v)) && !U(e) && (V(e) || e == 0)
    ensures LeafOf(v) in s.node && IsTable(ram, s.node[LeafOf(v)]) && I0(v) < ENTRIES
    ensures var r := PutPte(ram, s.node[LeafOf(v)], I0(v), e);
            && SpaceOk(r, free, s)
            && (forall w: nat :: Lookup(r, s.node, w) == if w == v then e else Lookup(ram, s.node, w))
            && (forall g :: 0 <= g < |ram| && g !in Frames(free, s) ==> r[g] == ram[g])
            && (forall w :: w in s.user ==> s.user[w] < |ram| && r[s.user[w]] == ram[s.user[w]])
  {
    MappedHasLeaf(ram, s.node, v);
    hide TreeOk, Lookup, FreeOk, Frame, I2, I1, I0, V, U;
    StoreOne(ram, free, s.node, v, e);
    var r := PutPte(ram, s.node[LeafOf(v)], I0(v), e);
    forall w | w in s.user ensures PageOk(r, free, s, w) {
      assert PageOk(ram, free, s, w);
      NotInPool(free, s.node, s.user[w]);
    }
  }

  /** The two halves of uvmunmap with do_free, in the order of the code. */
  lemma ReleaseOk(ram: Ram, free: seq<nat>, s: Space, v: nat)
    requires SpaceOk(ram, free, s) && v in s.user
    ensures s.user[v] < |ram| && s.user[v] !in free && LeafOf(v) in s.node && s.user[v] != s.node[LeafOf(v)]
    ensures IsTable(ram, s.node[LeafOf(v)]) && I0(v) < ENTRIES
    ensures var f, s' := s.user[v], Space(s.node, s.user - {v});
            var r := PutPte(ram[f := Junk], s.node[LeafOf(v)], I0(v), 0);
            && SpaceOk(r, [f] + free, s') && Frames([f] + free, s') == Frames(free, s)
            && (forall w: nat :: Lookup(r, s.node, w) == if w == v then 0 else Lookup(ram, s.node, w))
            && (forall g :: 0 <= g < |ram| && g !in Frames(free, s) ==> r[g] == ram[g])
            && (forall w :: w in s'.user ==> s.user[w] < |ram| && r[s.user[w]] == ram[s.user[w]])
  {
    hide Base, Lookup, I2, I1, I0, V, U, MapsTo, IsData, Separate;
    ForgetOk(ram, free, s, v);
    var f, s' := s.user[v], Space(s.node, s.user - {v});
    var r1 := PutPte(ram, s.node[LeafOf(v)], I0(v), 0);
    GiveOk(r1, free, s', f);
    assert s.node[LeafOf(v)] in s.node.Values;
    assert PutPte(ram[f := Junk], s.node[LeafOf(v)], I0(v), 0) == r1[f := Junk];
    forall w | w in s'.user ensures s.user[w] < |ram| && r1[f := Junk][s.user[w]] == ram[s.user[w]] {
      assert PageOk(ram, free, s, w);
      assert PageOk(r1, free, s', w);
      assert s.user[w] in s'.user.Values;
      NotInPool(free, s.node, s.user[w]);
    }
  }
}
