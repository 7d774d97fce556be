/**
  The portal invariant under the steps that add or remove buffers: attaching an ME, the three steps of attaching an MD,
  unlinking an MD, the end of a move, and the switches of the portal.

  While an attach is in progress its MD does not count: the invariant speaks about the table without it.  When the
  attach ends, either both lists were seen empty, and then a message in the middle of its move is recorded as lost to
  the MD if the MD takes it, or the sweep under the lock has offered the MD to every blocked message, so that what is
  left of it can take none of those that stay.
 */
module PortalAttach {
  import opened Common
  import opened MatchTable
  import opened Portal
  import opened PortalInv
  import opened PortalSteps

  /** Steps that replace one settled table by one that takes no more, and change no list or phase. */
  lemma TableCover(cfg: Cfg, s: State, s': State)
    requires Shape(cfg, s) && Shape(cfg, s') && Shrinks(cfg, s, s') && ParkedOk(cfg, s) && WalkOk(cfg, s)
    requires ListsOk(cfg, s)
    requires s'.phase == s.phase && s'.stealing == s.stealing && s.racy <= s'.racy
    ensures ParkedOk(cfg, s') && WalkOk(cfg, s')
  {
    ParkedKept(cfg, s, s', {});
    forall m, j | m in s'.stealing && Walks(cfg, s', m) && 0 <= j < s'.phase[m].i
      ensures TakersWithin(Settled(cfg, s', Cpt(cfg, s'.phase[m].first, j)), cfg.info(m), {})
    {
      var c := Cpt(cfg, s.phase[m].first, j);
      assert Walks(cfg, s, m);
      assert TakersWithin(Settled(cfg, s, c), cfg.info(m), {});
      WithinShrinks(Settled(cfg, s, c), Settled(cfg, s', c), cfg.info(m), {}, {});
    }
  }

  lemma SameBook(cfg: Cfg, s: State, s': State)
    requires ListsOk(cfg, s) && GotOk(s) && (s'.kind == s.kind || s.kind == Unset)
    requires s'.phase == s.phase && s'.stealing == s.stealing && s'.delayed == s.delayed && s'.mover == s.mover
    requires s'.got == s.got
    ensures ListsOk(cfg, s') && GotOk(s')
  {
    assert forall m :: m in s.phase && s.phase[m].Walking? ==> Walks(cfg, s', m);
  }

  // ----- one table changes at a CPT whose lock is free -----

  lemma OneTable(cfg: Cfg, s: State, c: nat, t: Table)
    requires Shape(cfg, s) && c < cfg.n && s.hold[c].Free? && TableShape(t) && TableShrinks(s.tabs[c], t)
    requires t.spent == s.tabs[c].spent && t.enabled == s.tabs[c].enabled
    ensures var s' := s.(tabs := s.tabs[c := t]);
            Shape(cfg, s') && Shrinks(cfg, s, s') && (Honest(cfg, s) ==> Honest(cfg, s')) &&
              (MapsOk(cfg, s) ==> MapsOk(cfg, s'))
  {
    var s' := s.(tabs := s.tabs[c := t]);
    forall d | 0 <= d < cfg.n
      ensures TableShrinks(Settled(cfg, s, d), Settled(cfg, s', d))
      ensures SpentHonest(Settled(cfg, s, d)) ==> SpentHonest(Settled(cfg, s', d))
    {
      if d != c { assert Settled(cfg, s', d) == Settled(cfg, s, d); }
    }
  }

  lemma MeAttachKeeps(cfg: Cfg, s: State, c: nat, me: Me, front: bool)
    requires CfgOk(cfg) && Inv(cfg, s) && s.kind != Unset && c < cfg.n && s.hold[c].Free? && me.md.None?
    requires s.kind == Unique ==> UniqueMe(me) && c == HomeCpt(cfg, me.nid.v)
    ensures Inv(cfg, DoMeAttach(cfg, s, c, me, front))
  {
    var s' := DoMeAttach(cfg, s, c, me, front);
    var p := HomePos(cfg, s.kind, me);
    var l' := s'.tabs[c].mhash[p];
    EmptyMeShrinks(s.tabs[c], p, l', me);
    OneTable(cfg, s, c, s'.tabs[c]);
    MeAttachPlaced(cfg, s, c, me, front);
    TableCover(cfg, s, s');
    SameBook(cfg, s, s');
  }

  /** An entry without an MD takes nothing. */
  lemma EmptyMeShrinks(t: Table, p: nat, l': seq<Me>, me: Me)
    requires TableShape(t) && p < NLISTS && me.md.None?
    requires forall x :: x in l' <==> x in t.mhash[p] || x == me
    ensures TableShrinks(t, t.(mhash := t.mhash[p := l']))
  {
    forall i ensures Takers(l', i) == Takers(t.mhash[p], i) {}
    assert LiveMds(l') == LiveMds(t.mhash[p]);
  }

  lemma MeAttachPlaced(cfg: Cfg, s: State, c: nat, me: Me, front: bool)
    requires CfgOk(cfg) && Shape(cfg, s) && Placed(cfg, s) && s.kind != Unset && c < cfg.n
    requires s.kind == Unique ==> UniqueMe(me) && c == HomeCpt(cfg, me.nid.v)
    requires Shape(cfg, DoMeAttach(cfg, s, c, me, front))
    ensures Placed(cfg, DoMeAttach(cfg, s, c, me, front))
  {
    var p := HomePos(cfg, s.kind, me);
    var l' := DoMeAttach(cfg, s, c, me, front).tabs[c].mhash[p];
    assert forall x :: x in l' ==> x in s.tabs[c].mhash[p] || x == me;
  }

  lemma MdUnlinkKeeps(cfg: Cfg, s: State, c: nat, pos: nat, k: nat)
    requires CfgOk(cfg) && Inv(cfg, s) && c < cfg.n && s.hold[c].Free? && pos < NLISTS && k < |s.tabs[c].mhash[pos]|
    ensures Inv(cfg, DoMdUnlink(cfg, s, c, pos, k))
  {
    var s' := DoMdUnlink(cfg, s, c, pos, k);
    var me := s.tabs[c].mhash[pos][k];
    SetMeShrinks(s.tabs[c], pos, k, if me.unlink then [] else [me.(md := None)]);
    OneTable(cfg, s, c, s'.tabs[c]);
    SetMePlaced(cfg, s, c, pos, k, if me.unlink then [] else [me.(md := None)]);
    TableCover(cfg, s, s');
    SameBook(cfg, s, s');
  }

  /** Changing only the MD of an ME, or dropping the ME, keeps placement. */
  lemma SetMePlaced(cfg: Cfg, s: State, c: nat, pos: nat, k: nat, with: seq<Me>)
    requires Shape(cfg, s) && Placed(cfg, s) && c < cfg.n && pos < NLISTS && k < |s.tabs[c].mhash[pos]|
    requires forall x :: x in with ==> x == s.tabs[c].mhash[pos][k].(md := x.md)
    ensures forall p, me :: 0 <= p < NLISTS && me in SetMe(s.tabs[c], pos, k, with).mhash[p] ==>
              MePlaced(cfg, s.kind, c, p, me)
  {
    var l := s.tabs[c].mhash[pos];
    assert MePlaced(cfg, s.kind, c, pos, l[k]);
    forall p, me | 0 <= p < NLISTS && me in SetMe(s.tabs[c], pos, k, with).mhash[p]
      ensures MePlaced(cfg, s.kind, c, p, me)
    {
      if p == pos && me in with {} else { assert me in s.tabs[c].mhash[p]; }
    }
  }

  lemma AttachBeginKeeps(cfg: Cfg, s: State, c: nat, pos: nat, k: nat, md: Md)
    requires CfgOk(cfg) && Inv(cfg, s) && c < cfg.n && s.hold[c].Free? && pos < NLISTS && k < |s.tabs[c].mhash[pos]|
    requires s.tabs[c].mhash[pos][k].md.None?
    ensures Inv(cfg, DoAttachBegin(cfg, s, c, pos, k, md))
  {
    var s' := DoAttachBegin(cfg, s, c, pos, k, md);
    BeginSettled(cfg, s, c, pos, k, md);
    SetMePlaced(cfg, s, c, pos, k, [s.tabs[c].mhash[pos][k].(md := Some(md))]);
    SettledSame(cfg, s, s');
    TableCover(cfg, s, s');
    SameBook(cfg, s, s');
  }

  /** The MD that is being attached does not count yet. */
  lemma BeginSettled(cfg: Cfg, s: State, c: nat, pos: nat, k: nat, md: Md)
    requires Shape(cfg, s) && c < cfg.n && s.hold[c].Free? && pos < NLISTS && k < |s.tabs[c].mhash[pos]|
    requires s.tabs[c].mhash[pos][k].md.None?
    ensures var s' := DoAttachBegin(cfg, s, c, pos, k, md);
            Shape(cfg, s') && forall d :: 0 <= d < cfg.n ==> Settled(cfg, s', d) == Settled(cfg, s, d)
  {
    var t, l := s.tabs[c], s.tabs[c].mhash[pos];
    var s' := DoAttachBegin(cfg, s, c, pos, k, md);
    var l' := s'.tabs[c].mhash[pos];
    assert l'[k] == l[k].(md := Some(md));
    assert l'[..k] + [l'[k].(md := None)] + l'[k + 1..] == l;
    assert Settled(cfg, s', c).mhash == t.mhash;
  }

  /** What is said about settled tables holds of a state with the same ones. */
  lemma SettledSame(cfg: Cfg, s: State, s': State)
    requires Shape(cfg, s) && Shape(cfg, s') && s'.kind == s.kind && s'.maps == s.maps
    requires forall d :: 0 <= d < cfg.n ==> Settled(cfg, s', d) == Settled(cfg, s, d)
    ensures Shrinks(cfg, s, s')
    ensures Honest(cfg, s) ==> Honest(cfg, s')
    ensures MapsOk(cfg, s) ==> MapsOk(cfg, s')
  {
    forall d | 0 <= d < cfg.n
      ensures s'.tabs[d].spent == s.tabs[d].spent && s'.tabs[d].enabled == s.tabs[d].enabled
    {
      assert Settled(cfg, s', d) == Settled(cfg, s, d);
    }
  }

  // ----- the end of an attach -----

  /** Table c once the attach there ends with left in place of its ME. */
  function Ended(cfg: Cfg, s: State, c: nat, left: seq<Me>): Table
    requires Shape(cfg, s) && c < cfg.n && s.hold[c].Attaching?
  {
    SetMe(s.tabs[c], s.hold[c].pos, s.hold[c].k, left)
  }

  /** Ending an attach adds at most the takers among what is left of the ME. */
  lemma EndedTakers(cfg: Cfg, s: State, c: nat, left: seq<Me>, i: Info)
    requires Shape(cfg, s) && c < cfg.n && s.hold[c].Attaching?
    ensures forall p :: 0 <= p < NLISTS ==>
              Takers(Ended(cfg, s, c, left).mhash[p], i) <= Takers(Settled(cfg, s, c).mhash[p], i) + Takers(left, i)
    ensures forall p :: 0 <= p < NLISTS ==>
              LiveMds(Ended(cfg, s, c, left).mhash[p]) <=
              LiveMds(Settled(cfg, s, c).mhash[p]) + (if p == s.hold[c].pos then LiveMds(left) else {})
  {
    var h := s.hold[c];
    var l := s.tabs[c].mhash[h.pos];
    var none := [l[h.k].(md := None)];
    var a, z := l[..h.k], l[h.k + 1..];
    TakersConcat(a + left, z, i);
    TakersConcat(a, left, i);
    TakersConcat(a + none, z, i);
    TakersConcat(a, none, i);
  }

  lemma EndedWithin(cfg: Cfg, s: State, c: nat, left: seq<Me>, i: Info, ex: set<nat>)
    requires Shape(cfg, s) && c < cfg.n && s.hold[c].Attaching?
    requires TakersWithin(Settled(cfg, s, c), i, ex) && Takers(left, i) <= ex
    ensures TakersWithin(Ended(cfg, s, c, left), i, ex)
  {
    EndedTakers(cfg, s, c, left, i);
  }

  /** Bits stay honest if the bit of the ME's list is cleared or what is left cannot match. */
  lemma EndedHonest(cfg: Cfg, s: State, c: nat, left: seq<Me>, t: Table)
    requires Shape(cfg, s) && c < cfg.n && s.hold[c].Attaching? && SpentHonest(Settled(cfg, s, c))
    requires TableShape(t) && t.mhash == Ended(cfg, s, c, left).mhash
    requires forall p :: 0 <= p < NLISTS && t.spent[p] ==> s.tabs[c].spent[p]
    requires t.spent[s.hold[c].pos] ==> LiveMds(left) == {}
    ensures SpentHonest(t)
  {
    EndedTakers(cfg, s, c, left, Info(0, 0, 0, false, 0, 0));
    assert Settled(cfg, s, c).spent == s.tabs[c].spent;
  }

  lemma SelfSet(t: Table, pos: nat, k: nat)
    requires TableShape(t) && pos < NLISTS && k < |t.mhash[pos]|
    ensures SetMe(t, pos, k, [t.mhash[pos][k]]) == t
  {
    var l := t.mhash[pos];
    assert l[..k] + [l[k]] + l[k + 1..] == l;
    assert t.mhash[pos := l] == t.mhash;
  }

  /** The unlocked test that finds nothing to do ends the attach. */
  lemma AttachReturnKeeps(cfg: Cfg, s: State, c: nat)
    requires CfgOk(cfg) && Inv(cfg, s) && c < cfg.n && s.hold[c].Attaching?
    requires SeesNothing(cfg, s, c)
    ensures Inv(cfg, DoAttachTest(cfg, s, c))
  {
    var h, t := s.hold[c], s.tabs[c];
    var me := t.mhash[h.pos][h.k];
    var s' := DoAttachTest(cfg, s, c);
    SelfSet(t, h.pos, h.k);
    assert Ended(cfg, s, c, [me]) == t && Settled(cfg, s', c) == t;
    assert forall d :: 0 <= d < cfg.n && d != c ==> Settled(cfg, s', d) == Settled(cfg, s, d);
    assert MePlaced(cfg, s.kind, c, h.pos, me);
    if s.kind == Wildcard { EndedHonest(cfg, s, c, [me], t); }
    AttachReturnParked(cfg, s, c);
    SameBook(cfg, s, s');
  }

  lemma AttachReturnParked(cfg: Cfg, s: State, c: nat)
    requires Shape(cfg, s) && ParkedOk(cfg, s) && ListsOk(cfg, s) && c < cfg.n && s.hold[c].Attaching?
    requires SeesNothing(cfg, s, c)
    ensures ParkedOk(cfg, DoAttachTest(cfg, s, c))
  {
    var h, t := s.hold[c], s.tabs[c];
    var me := t.mhash[h.pos][h.k];
    var s' := DoAttachTest(cfg, s, c);
    SelfSet(t, h.pos, h.k);
    forall m, d | m in s'.phase && (s'.phase[m].Parked? || s'.phase[m].Parking?) && 0 <= d < cfg.n
      ensures TakersWithin(Settled(cfg, s', d), cfg.info(m), RacyOf(s', m, d))
    {
      assert s.mover == Some(m) by { assert m !in s.delayed; }
      assert TakersWithin(Settled(cfg, s, d), cfg.info(m), RacyOf(s, m, d));
      assert RacyOf(s, m, d) <= RacyOf(s', m, d);
      if d == c {
        TakersOne(me, cfg.info(m));
        assert Takes(me, cfg.info(m)) ==> (m, c, me.md.value.id) in s'.racy;
        EndedWithin(cfg, s, c, [me], cfg.info(m), RacyOf(s', m, d));
      } else {
        assert Settled(cfg, s', d) == Settled(cfg, s, d);
      }
    }
  }

  lemma AttachTestKeeps(cfg: Cfg, s: State, c: nat)
    requires CfgOk(cfg) && Inv(cfg, s) && c < cfg.n && s.hold[c].Attaching?
    ensures Inv(cfg, DoAttachTest(cfg, s, c))
  {
    if SeesNothing(cfg, s, c) {
      AttachReturnKeeps(cfg, s, c);
    } else {
      var s' := DoAttachTest(cfg, s, c);
      assert forall d :: 0 <= d < cfg.n ==> Settled(cfg, s', d) == Settled(cfg, s, d);
      SettledSame(cfg, s, s');
      TableCover(cfg, s, s');
      SameBook(cfg, s, s');
    }
  }

  /** What SweepBoth leaves of the ME takes none of the messages it leaves blocked. */
  lemma SweepBothOk(cfg: Cfg, s: State, me: Me, md: Md, i: Info)
    requires NoDup(s.stealing) && NoDup(s.delayed)
    ensures var (a, b) := SweepBoth(cfg, s, me, md);
            && (forall m :: m in a.rest || m in b.rest ==> Takers(b.left, cfg.info(m)) == {})
            && (b.exhausted ==> LiveMds(b.left) == {})
            && (forall x :: x in b.left ==> x == me.(md := x.md))
  {
    var (a, b) := SweepBoth(cfg, s, me, md);
    SweepShrinks(cfg.info, me, md, s.stealing, i);
    if !a.exhausted {
      SweepShrinks(cfg.info, a.left[0], a.left[0].md.value, s.delayed, i);
      assert a.left[0] in a.left;
    }
    forall m | m in a.rest || m in b.rest ensures Takers(b.left, cfg.info(m)) == {} {
      if a.exhausted {
        TakersAreLive(a.left, cfg.info(m));
      } else if m in b.rest {
        SweepLeavesNone(cfg.info, a.left[0], a.left[0].md.value, s.delayed, m);
      } else {
        SweepLeavesNone(cfg.info, me, md, s.stealing, m);
        SweepShrinks(cfg.info, a.left[0], a.left[0].md.value, s.delayed, cfg.info(m));
        assert a.left == [a.left[0]];
      }
    }
  }

  /** Tables, locks and map of s' are those of s after the attach at c ended. */
  ghost predicate EndsAttach(cfg: Cfg, s: State, s': State, c: nat, left: seq<Me>, exhausted: bool) {
    && Shape(cfg, s) && c < cfg.n && s.hold[c].Attaching?
    && s'.kind == s.kind && s'.hold == s.hold[c := Free]
    && s'.tabs == s.tabs[c := if s.kind == Wildcard && !exhausted
                              then Ended(cfg, s, c, left).(spent := s.tabs[c].spent[s.hold[c].pos := false],
                                                           enabled := true)
                              else Ended(cfg, s, c, left)]
    && s'.maps == (if s.kind == Wildcard && !exhausted && !s.tabs[c].enabled then Insert(s.maps, c) else s.maps)
  }

  lemma EndsPlaced(cfg: Cfg, s: State, s': State, c: nat, left: seq<Me>, exhausted: bool)
    requires EndsAttach(cfg, s, s', c, left, exhausted) && Placed(cfg, s)
    requires forall x :: x in left ==> x == s.tabs[c].mhash[s.hold[c].pos][s.hold[c].k].(md := x.md)
    ensures Shape(cfg, s') && Placed(cfg, s')
    ensures forall d :: 0 <= d < cfg.n && d != c ==> Settled(cfg, s', d) == Settled(cfg, s, d)
    ensures Settled(cfg, s', c).mhash == Ended(cfg, s, c, left).mhash
  {
    SetMePlaced(cfg, s, c, s.hold[c].pos, s.hold[c].k, left);
  }

  lemma EndsHonest(cfg: Cfg, s: State, s': State, c: nat, left: seq<Me>, exhausted: bool)
    requires EndsAttach(cfg, s, s', c, left, exhausted) && Shape(cfg, s') && Honest(cfg, s) && s.kind != Unset
    requires forall d :: 0 <= d < cfg.n && d != c ==> Settled(cfg, s', d) == Settled(cfg, s, d)
    requires exhausted ==> LiveMds(left) == {}
    ensures Honest(cfg, s')
  {
    if s.kind == Wildcard { EndedHonest(cfg, s, c, left, s'.tabs[c]); }
  }

  lemma EndsMaps(cfg: Cfg, s: State, s': State, c: nat, left: seq<Me>, exhausted: bool)
    requires EndsAttach(cfg, s, s', c, left, exhausted) && Shape(cfg, s') && MapsOk(cfg, s)
    ensures MapsOk(cfg, s')
  {
    if !s.tabs[c].enabled { InsertOk(s.maps, c); }
  }

  lemma LockedTables(cfg: Cfg, s: State, s': State, c: nat, a: Sweep, b: Sweep)
    requires CfgOk(cfg) && Shape(cfg, s) && Placed(cfg, s) && Honest(cfg, s) && MapsOk(cfg, s)
    requires EndsAttach(cfg, s, s', c, b.left, b.exhausted) && NoDup(s.stealing) && NoDup(s.delayed)
    requires var me := s.tabs[c].mhash[s.hold[c].pos][s.hold[c].k]; SweepBoth(cfg, s, me, me.md.value) == (a, b)
    ensures Shape(cfg, s') && Placed(cfg, s') && Honest(cfg, s') && MapsOk(cfg, s')
    ensures forall d :: 0 <= d < cfg.n && d != c ==> Settled(cfg, s', d) == Settled(cfg, s, d)
    ensures Settled(cfg, s', c).mhash == Ended(cfg, s, c, b.left).mhash
  {
    var me := s.tabs[c].mhash[s.hold[c].pos][s.hold[c].k];
    SweepBothOk(cfg, s, me, me.md.value, Info(0, 0, 0, false, 0, 0));
    assert MePlaced(cfg, s.kind, c, s.hold[c].pos, me);
    EndsPlaced(cfg, s, s', c, b.left, b.exhausted);
    EndsHonest(cfg, s, s', c, b.left, b.exhausted);
    EndsMaps(cfg, s, s', c, b.left, b.exhausted);
  }

  /** Messages left on a list keep their cover when an attach ends. */
  lemma EndsCover(cfg: Cfg, s: State, s': State, c: nat, left: seq<Me>, m: nat, d: nat, ex: set<nat>)
    requires Shape(cfg, s) && Shape(cfg, s') && c < cfg.n && d < cfg.n && s.hold[c].Attaching?
    requires d != c ==> Settled(cfg, s', d) == Settled(cfg, s, d)
    requires d == c ==> Settled(cfg, s', c).mhash == Ended(cfg, s, c, left).mhash
    requires Takers(left, cfg.info(m)) == {} && TakersWithin(Settled(cfg, s, d), cfg.info(m), ex)
    ensures TakersWithin(Settled(cfg, s', d), cfg.info(m), ex)
  {
    if d == c { EndedWithin(cfg, s, c, left, cfg.info(m), ex); }
  }

  lemma LockedCover(cfg: Cfg, s: State, s': State, c: nat, a: Sweep, b: Sweep)
    requires Shape(cfg, s) && Shape(cfg, s') && ParkedOk(cfg, s) && WalkOk(cfg, s) && c < cfg.n && s.hold[c].Attaching?
    requires forall d :: 0 <= d < cfg.n && d != c ==> Settled(cfg, s', d) == Settled(cfg, s, d)
    requires Settled(cfg, s', c).mhash == Ended(cfg, s, c, b.left).mhash
    requires forall m :: m in a.rest || m in b.rest ==> Takers(b.left, cfg.info(m)) == {}
    requires forall m :: m in s'.phase && (s'.phase[m].Parked? || s'.phase[m].Parking?) ==>
               m in b.rest && m in s.phase && s.phase[m].Parked?
    requires forall m :: m in s'.stealing ==> m in a.rest && m in s.stealing
    requires forall m :: m in s'.phase && s'.phase[m].Walking? ==> m in s.phase && s.phase[m] == s'.phase[m]
    requires s'.racy == s.racy
    ensures ParkedOk(cfg, s') && WalkOk(cfg, s')
  {
    forall m, d | m in s'.phase && (s'.phase[m].Parked? || s'.phase[m].Parking?) && 0 <= d < cfg.n
      ensures TakersWithin(Settled(cfg, s', d), cfg.info(m), RacyOf(s', m, d))
    {
      assert RacyOf(s, m, d) == RacyOf(s', m, d);
      EndsCover(cfg, s, s', c, b.left, m, d, RacyOf(s, m, d));
    }
    forall m, j | m in s'.stealing && Walks(cfg, s', m) && 0 <= j < s'.phase[m].i
      ensures TakersWithin(Settled(cfg, s', Cpt(cfg, s'.phase[m].first, j)), cfg.info(m), {})
    {
      assert Walks(cfg, s, m);
      EndsCover(cfg, s, s', c, b.left, m, Cpt(cfg, s.phase[m].first, j), {});
    }
  }

  lemma SweepBothSplits(cfg: Cfg, s: State, me: Me, md: Md)
    requires NoDup(s.stealing) && NoDup(s.delayed)
    ensures var (a, b) := SweepBoth(cfg, s, me, md);
            Splits(s.stealing, a.rest, a.taken) && Splits(s.delayed, b.rest, b.taken)
  {
    var (a, b) := SweepBoth(cfg, s, me, md);
    SweepSplits(cfg.info, me, md, s.stealing);
    if !a.exhausted { SweepSplits(cfg.info, a.left[0], a.left[0].md.value, s.delayed); }
  }

  /** taken holds exactly the messages that left list l, of which rest stays. */
  ghost predicate Splits(l: seq<nat>, rest: seq<nat>, taken: map<nat, bool>) {
    && NoDup(rest)
    && (forall m :: m in l <==> m in rest || m in taken)
    && (forall m :: m in taken ==> m !in rest)
  }

  /** The bookkeeping of a sweep that took a off the stealing list and b off the delayed one. */
  lemma LockedLists(cfg: Cfg, s: State, s': State, a: Sweep, b: Sweep)
    requires ListsOk(cfg, s) && Splits(s.stealing, a.rest, a.taken) && Splits(s.delayed, b.rest, b.taken)
    requires s'.stealing == a.rest && s'.delayed == b.rest && s'.mover == s.mover && s'.kind == s.kind
    requires s'.phase == s.phase + Dones(b.taken)
    ensures ListsOk(cfg, s')
  {
    LockedPhases(cfg, s, s', b);
    assert forall m :: m in s.phase && s.phase[m].Walking? ==> Walks(cfg, s', m);
  }

  lemma LockedGot(s: State, s': State, a: map<nat, bool>, b: map<nat, bool>)
    requires GotOk(s)
    requires forall m :: m in a ==>
               m in s.stealing && m in s.phase && s.phase[m].Walking? && s.phase[m].i > 0 && m !in s'.stealing
    requires forall m :: m in b ==> m in s.phase && s.phase[m].Parked?
    requires forall m :: m in s'.stealing ==> m in s.stealing
    requires forall m :: m in s'.got <==> m in s.got || (m in a && a[m]) || (m in b && b[m])
    requires forall m :: m in s'.phase <==> m in s.phase
    requires forall m :: m in s'.phase ==> s'.phase[m] == if m in b then Done(b[m]) else s.phase[m]
    ensures GotOk(s')
  {
  }

  lemma AttachLockedKeeps(cfg: Cfg, s: State, c: nat)
    requires CfgOk(cfg) && Inv(cfg, s) && c < cfg.n && s.hold[c].Attaching? && s.mover.None?
    ensures Inv(cfg, DoAttachLocked(cfg, s, c))
  {
    var me := NewMe(cfg, s, c);
    var (a, b) := SweepBoth(cfg, s, me, me.md.value);
    LockedIsSwept(cfg, s, c);
    SweptKeeps(cfg, s, DoAttachLocked(cfg, s, c), c, a, b);
  }

  /** s' is s after the attach at c took a off the stealing list and b off the delayed one. */
  ghost predicate Swept(cfg: Cfg, s: State, s': State, c: nat, a: Sweep, b: Sweep, md: nat) {
    && EndsAttach(cfg, s, s', c, b.left, b.exhausted)
    && s'.stealing == a.rest && s'.delayed == b.rest && s'.mover == s.mover && s'.racy == s.racy
    && s'.got == s.got + Oks(a.taken, md) + Oks(b.taken, md) && s'.phase == s.phase + Dones(b.taken)
  }

  lemma LockedIsSwept(cfg: Cfg, s: State, c: nat)
    requires Shape(cfg, s) && c < cfg.n && s.hold[c].Attaching?
    ensures var me := NewMe(cfg, s, c);
            var (a, b) := SweepBoth(cfg, s, me, me.md.value);
            Swept(cfg, s, DoAttachLocked(cfg, s, c), c, a, b, me.md.value.id)
  {
  }

  lemma SweptKeeps(cfg: Cfg, s: State, s': State, c: nat, a: Sweep, b: Sweep)
    requires CfgOk(cfg) && Inv(cfg, s) && c < cfg.n && s.hold[c].Attaching? && s.mover.None?
    requires var me := NewMe(cfg, s, c);
             SweepBoth(cfg, s, me, me.md.value) == (a, b) && Swept(cfg, s, s', c, a, b, me.md.value.id)
    ensures Inv(cfg, s')
  {
    var me := NewMe(cfg, s, c);
    LockedTables(cfg, s, s', c, a, b);
    SweepBothOk(cfg, s, me, me.md.value, Info(0, 0, 0, false, 0, 0));
    SweepBothSplits(cfg, s, me, me.md.value);
    LockedBook(cfg, s, s', a, b, me.md.value.id);
    LockedMsgs(cfg, s, s', a, b);
    LockedCover(cfg, s, s', c, a, b);
  }

  /** Nobody starts to wait or to walk by a sweep. */
  lemma LockedMsgs(cfg: Cfg, s: State, s': State, a: Sweep, b: Sweep)
    requires ListsOk(cfg, s) && s.mover.None? && Splits(s.stealing, a.rest, a.taken)
    requires Splits(s.delayed, b.rest, b.taken)
    requires s'.stealing == a.rest && s'.phase == s.phase + Dones(b.taken)
    ensures forall m :: m in s'.phase && (s'.phase[m].Parked? || s'.phase[m].Parking?) ==>
              m in b.rest && m in s.phase && s.phase[m].Parked?
    ensures forall m :: m in s'.stealing ==> m in a.rest && m in s.stealing
    ensures forall m :: m in s'.phase && s'.phase[m].Walking? ==> m in s.phase && s.phase[m] == s'.phase[m]
  {
    forall m | m in s'.phase && !s'.phase[m].Done? ensures m in s.phase && s'.phase[m] == s.phase[m] && m !in b.taken {}
  }

  lemma LockedBook(cfg: Cfg, s: State, s': State, a: Sweep, b: Sweep, md: nat)
    requires ListsOk(cfg, s) && GotOk(s) && Splits(s.stealing, a.rest, a.taken) && Splits(s.delayed, b.rest, b.taken)
    requires s'.stealing == a.rest && s'.delayed == b.rest && s'.mover == s.mover && s'.kind == s.kind
    requires s'.got == s.got + Oks(a.taken, md) + Oks(b.taken, md) && s'.phase == s.phase + Dones(b.taken)
    ensures ListsOk(cfg, s') && GotOk(s')
  {
    LockedLists(cfg, s, s', a, b);
    LockedPhases(cfg, s, s', b);
    OksAre(s.got, a.taken, b.taken, md);
    LockedGot(s, s', a.taken, b.taken);
  }

  lemma OksAre(got: map<nat, nat>, a: map<nat, bool>, b: map<nat, bool>, md: nat)
    ensures var got' := got + Oks(a, md) + Oks(b, md);
            forall m :: m in got' <==> m in got || (m in a && a[m]) || (m in b && b[m])
  {
  }

  lemma LockedPhases(cfg: Cfg, s: State, s': State, b: Sweep)
    requires ListsOk(cfg, s) && Splits(s.delayed, b.rest, b.taken) && s'.phase == s.phase + Dones(b.taken)
    ensures forall m :: m in s'.phase <==> m in s.phase
    ensures forall m :: m in s.phase && m !in b.taken ==> s'.phase[m] == s.phase[m]
    ensures forall m :: m in b.taken ==> s'.phase[m] == Done(b.taken[m]) && s.phase[m].Parked?
  {
    forall m ensures m in s'.phase <==> m in s.phase { if m in b.taken { assert m in s.delayed; } }
    assert forall m :: m in b.taken ==> m in s.delayed;
  }

  // ----- the remaining steps -----

  lemma SetKindKeeps(cfg: Cfg, s: State, unique: bool)
    requires CfgOk(cfg) && Inv(cfg, s) && s.kind == Unset
    ensures Inv(cfg, s.(kind := if unique then Unique else Wildcard))
  {
    var s' := s.(kind := if unique then Unique else Wildcard);
    assert forall c :: 0 <= c < cfg.n ==> Settled(cfg, s', c) == Settled(cfg, s, c);
    TableCover(cfg, s, s');
    SameBook(cfg, s, s');
  }

  lemma MatchEarlyKeeps(cfg: Cfg, s: State, m: nat, s': State)
    requires CfgOk(cfg) && Inv(cfg, s) && s.kind == Unset && m !in s.phase
    requires s' == (if !s.lazy then s.(phase := s.phase[m := Done(false)])
                    else s.(delayed := s.delayed + [m], phase := s.phase[m := Parked]))
    ensures Inv(cfg, s')
  {
    assert IsFirstVerdict(cfg, s, s', m);
    SameTables(cfg, s, s');
    assert m !in s.stealing;
    forall d | 0 <= d < cfg.n ensures TakersWithin(Settled(cfg, s, d), cfg.info(m), {}) {
      SettledShrinks(cfg, s, d);
      forall p | 0 <= p < NLISTS ensures Takers(s.tabs[d].mhash[p], cfg.info(m)) == {} {
        assert forall me :: me !in s.tabs[d].mhash[p];
      }
    }
    FirstCover(cfg, s, s, s', m);
    FirstLists(cfg, s, s', m);
    FirstGot(cfg, s, s', m);
  }

  lemma MoveEndKeeps(cfg: Cfg, s: State, c: nat)
    requires CfgOk(cfg) && Inv(cfg, s) && c < cfg.n && s.hold[c].Moving? && s.mover.Some?
    ensures Inv(cfg, DoMoveEnd(s, c))
  {
    var m := s.mover.value;
    var s' := DoMoveEnd(s, c);
    SameTables(cfg, s, s');
    ParkedKept(cfg, s, s', {});
    assert m in s.phase && s.phase[m].Parking? && m !in s.stealing;
    WalkKept(cfg, s, s', m, 0);
    MoveEndBook(cfg, s, s', m);
  }

  lemma MoveEndBook(cfg: Cfg, s: State, s': State, m: nat)
    requires ListsOk(cfg, s) && GotOk(s) && s.mover == Some(m)
    requires s'.delayed == s.delayed + [m] && s'.phase == s.phase[m := Parked] && s'.mover == None
    requires s'.stealing == s.stealing && s'.kind == s.kind && s'.got == s.got
    ensures ListsOk(cfg, s') && GotOk(s')
  {
    assert m in s.phase && s.phase[m].Parking? && m !in s.delayed;
    assert forall x :: x in s.phase && s.phase[x].Walking? ==> Walks(cfg, s', x);
  }

  lemma ClearLazyKeeps(cfg: Cfg, s: State, dropped: set<nat>, off: bool)
    requires CfgOk(cfg) && Inv(cfg, s) && (forall m :: m in dropped ==> m in s.delayed)
    ensures Inv(cfg, s.(delayed := DropMsgs(s.delayed, dropped), lazy := !off,
                        phase := s.phase + Dones(map m | m in dropped :: false)))
  {
    var none := map m | m in dropped :: false;
    var s' := s.(delayed := DropMsgs(s.delayed, dropped), lazy := !off, phase := s.phase + Dones(none));
    DropMsgsOk(s.delayed, dropped);
    SameTables(cfg, s, s');
    assert Splits(s.delayed, s'.delayed, none) && Splits(s.stealing, s.stealing, map[]);
    LockedLists(cfg, s, s', Sweep([], map[], s.stealing, false), Sweep([], none, s'.delayed, false));
    ClearGot(s, s', none);
    ClearCover(cfg, s, s', none);
  }

  lemma ClearGot(s: State, s': State, none: map<nat, bool>)
    requires GotOk(s) && (forall m :: m in none ==> !none[m] && m in s.phase && s.phase[m].Parked?)
    requires s'.phase == s.phase + Dones(none) && s'.stealing == s.stealing && s'.got == s.got
    ensures GotOk(s')
  {
    LockedGot(s, s', map[], none);
  }

  lemma ClearCover(cfg: Cfg, s: State, s': State, none: map<nat, bool>)
    requires Shape(cfg, s) && Shape(cfg, s') && Shrinks(cfg, s, s') && ParkedOk(cfg, s) && WalkOk(cfg, s)
    requires forall m :: m in none ==> m in s.phase && s.phase[m].Parked?
    requires s'.phase == s.phase + Dones(none) && s'.stealing == s.stealing && s'.racy == s.racy
    ensures ParkedOk(cfg, s') && WalkOk(cfg, s')
  {
    ParkedKept(cfg, s, s', {});
    forall m, j | m in s'.stealing && Walks(cfg, s', m) && 0 <= j < s'.phase[m].i
      ensures TakersWithin(Settled(cfg, s', Cpt(cfg, s'.phase[m].first, j)), cfg.info(m), {})
    {
      var c := Cpt(cfg, s.phase[m].first, j);
      assert Walks(cfg, s, m);
      WithinShrinks(Settled(cfg, s, c), Settled(cfg, s', c), cfg.info(m), {}, {});
    }
  }

  lemma SetLazyKeeps(cfg: Cfg, s: State)
    requires CfgOk(cfg) && Inv(cfg, s)
    ensures Inv(cfg, s.(lazy := true))
  {
    SameTables(cfg, s, s.(lazy := true));
    TableCover(cfg, s, s.(lazy := true));
    SameBook(cfg, s, s.(lazy := true));
  }

  /** The steps about buffers keep the invariant. */
  lemma BufferStepKeeps(cfg: Cfg, s: State, st: Step)
    requires CfgOk(cfg) && Inv(cfg, s) && Enabled(cfg, s, st)
    requires st.MeAttach? || st.AttachBegin? || st.AttachTest? || st.AttachLocked? || st.MdUnlink?
    ensures Inv(cfg, Apply(cfg, s, st))
  {
    match st
    case MeAttach(c, me, front) => MeAttachKeeps(cfg, s, c, me, front);
    case AttachBegin(c, pos, k, md) => AttachBeginKeeps(cfg, s, c, pos, k, md);
    case AttachTest(c) => AttachTestKeeps(cfg, s, c);
    case AttachLocked(c) => AttachLockedKeeps(cfg, s, c);
    case MdUnlink(c, pos, k) => MdUnlinkKeeps(cfg, s, c, pos, k);
  }

  /** The steps about messages keep the invariant. */
  lemma MessageStepKeeps(cfg: Cfg, s: State, st: Step)
    requires CfgOk(cfg) && Inv(cfg, s) && Enabled(cfg, s, st)
    requires st.MatchEarly? || st.MatchFirst? || st.WalkPeek? || st.WalkVisit? || st.MoveEnd?
    ensures Inv(cfg, Apply(cfg, s, st))
  {
    match st
    case MatchEarly(m, ready) => if !s.lazy || ready { MatchEarlyKeeps(cfg, s, m, Apply(cfg, s, st)); }
    case MatchFirst(m, c, first, ready) => MatchFirstKeeps(cfg, s, m, c, first, ready);
    case WalkPeek(m) => WalkPeekKeeps(cfg, s, m, Apply(cfg, s, st).phase[m]);
    case WalkVisit(m) =>
      if s.phase[m].i > 0 && m !in s.stealing { WalkTakenKeeps(cfg, s, m); } else { WalkVisitKeeps(cfg, s, m); }
    case MoveEnd(c) => MoveEndKeeps(cfg, s, c);
  }

  /** Every enabled step keeps the invariant. */
  lemma StepKeeps(cfg: Cfg, s: State, st: Step)
    requires CfgOk(cfg) && Inv(cfg, s) && Enabled(cfg, s, st)
    ensures Inv(cfg, Apply(cfg, s, st))
  {
    if st.MeAttach? || st.AttachBegin? || st.AttachTest? || st.AttachLocked? || st.MdUnlink? {
      BufferStepKeeps(cfg, s, st);
    } else if st.MatchEarly? || st.MatchFirst? || st.WalkPeek? || st.WalkVisit? || st.MoveEnd? {
      MessageStepKeeps(cfg, s, st);
    } else if st.SetKind? {
      SetKindKeeps(cfg, s, st.unique);
    } else if st.SetLazy? {
      SetLazyKeeps(cfg, s);
    } else {
      ClearLazyKeeps(cfg, s, st.dropped, st.off);
    }
  }
}
