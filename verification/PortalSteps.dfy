/**
  The portal invariant under the steps of matching: the first try of a message, the unlocked look at a table and the
  locked visit of a walk.

  A match can only shrink what a table holds: it uses up MDs, may unlink one, and may set exhausted bits.  So a parked
  message that no MD could take stays untakeable, and the CPTs a walker has passed stay passed.  What has to be shown
  for each step is that the message it speaks about is parked only when every table is known to hold nothing for it:
  either the walk came by all of them, or the tables it skipped are disabled and hence empty of live MDs.  The lemmas
  follow the parts of the invariant (tables, lists, coverage of parked and walking messages) one by one.
 */
module PortalSteps {
  import opened Common
  import opened MatchTable
  import opened Portal
  import opened PortalInv

  ghost predicate TableShrinks(t: Table, t': Table) {
    && |t'.mhash| == |t.mhash|
    && (forall p, i :: 0 <= p < |t.mhash| ==> Takers(t'.mhash[p], i) <= Takers(t.mhash[p], i))
    && (forall p :: 0 <= p < |t.mhash| ==> LiveMds(t'.mhash[p]) <= LiveMds(t.mhash[p]))
  }

  /** No settled MD of s' can take more than it could in s. */
  ghost predicate Shrinks(cfg: Cfg, s: State, s': State)
    requires Shape(cfg, s) && Shape(cfg, s')
  {
    forall c :: 0 <= c < cfg.n ==> TableShrinks(Settled(cfg, s, c), Settled(cfg, s', c))
  }

  lemma WithinShrinks(t: Table, t': Table, i: Info, ex: set<nat>, ex': set<nat>)
    requires TableShrinks(t, t') && TakersWithin(t, i, ex) && ex <= ex'
    ensures TakersWithin(t', i, ex')
  {
  }

  lemma SpentMeansNone(t: Table, i: Info)
    requires TableShape(t) && SpentHonest(t) && AllSpent(t.spent)
    ensures TakersWithin(t, i, {})
  {
    forall p | 0 <= p < NLISTS ensures Takers(t.mhash[p], i) <= {} {
      TakersAreLive(t.mhash[p], i);
    }
  }

  /** Messages already parked stay safe when nothing grows. */
  lemma ParkedKept(cfg: Cfg, s: State, s': State, newly: set<nat>)
    requires Shape(cfg, s) && Shape(cfg, s') && ParkedOk(cfg, s) && Shrinks(cfg, s, s') && s.racy <= s'.racy
    requires forall m :: m in s'.phase && (s'.phase[m].Parked? || s'.phase[m].Parking?) && m !in newly ==>
               m in s.phase && (s.phase[m].Parked? || s.phase[m].Parking?)
    requires forall m, c :: m in newly && 0 <= c < cfg.n ==> TakersWithin(Settled(cfg, s', c), cfg.info(m), {})
    ensures ParkedOk(cfg, s')
  {
    forall m, c | m in s'.phase && (s'.phase[m].Parked? || s'.phase[m].Parking?) && 0 <= c < cfg.n
      ensures TakersWithin(Settled(cfg, s', c), cfg.info(m), RacyOf(s', m, c))
    {
      if m in newly {
        assert TakersWithin(Settled(cfg, s', c), cfg.info(m), {});
      } else {
        assert RacyOf(s, m, c) <= RacyOf(s', m, c);
        WithinShrinks(Settled(cfg, s, c), Settled(cfg, s', c), cfg.info(m), RacyOf(s, m, c), RacyOf(s', m, c));
      }
    }
  }

  /** Walkers keep what they have covered; one of them, w, may have covered one CPT more. */
  lemma WalkKept(cfg: Cfg, s: State, s': State, w: nat, last: nat)
    requires Shape(cfg, s) && Shape(cfg, s') && WalkOk(cfg, s) && Shrinks(cfg, s, s')
    requires forall m :: m in s'.stealing && Walks(cfg, s', m) ==>
               || (m in s.stealing && Walks(cfg, s, m) && s'.phase[m].first == s.phase[m].first &&
                   s'.phase[m].i <= s.phase[m].i + (if m == w then 1 else 0))
               || (m == w && s'.phase[m].i <= 1)
    requires w in s'.stealing && Walks(cfg, s', w) && s'.phase[w].i > 0 ==>
               last == s'.phase[w].i - 1 &&
                 TakersWithin(Settled(cfg, s', Cpt(cfg, s'.phase[w].first, last)), cfg.info(w), {})
    ensures WalkOk(cfg, s')
  {
    forall m, j | m in s'.stealing && Walks(cfg, s', m) && 0 <= j < s'.phase[m].i
      ensures TakersWithin(Settled(cfg, s', Cpt(cfg, s'.phase[m].first, j)), cfg.info(m), {})
    {
      if m == w && j == last {
      } else {
        var c := Cpt(cfg, s'.phase[m].first, j);
        assert j < s.phase[m].i;
        assert TakersWithin(Settled(cfg, s, c), cfg.info(m), {});
        WithinShrinks(Settled(cfg, s, c), Settled(cfg, s', c), cfg.info(m), {}, {});
      }
    }
  }

  // ----- placement -----

  lemma BitsEqual(a: bv64, b: bv64)
    requires BitsFit(a, 0, b)
    ensures a == b
  {
  }

  lemma TakerHome(cfg: Cfg, kind: Kind, c: nat, p: nat, me: Me, info: Info)
    requires MePlaced(cfg, kind, c, p, me) && Takes(me, info)
    ensures p == IGNORE_LIST || p == Head(cfg, kind, info.mbits, info.nid, info.pid)
    ensures kind == Unique ==> c == HomeCpt(cfg, info.nid)
  {
    if me.ignore == 0 { BitsEqual(me.mbits, info.mbits); }
  }

  lemma PlacedForMsg(cfg: Cfg, s: State, c: nat, info: Info)
    requires CfgOk(cfg) && Shape(cfg, s) && Placed(cfg, s) && c < cfg.n && s.kind != Unset
    ensures PlacedFor(s.tabs[c], Head(cfg, s.kind, info.mbits, info.nid, info.pid), info)
    ensures s.kind == Unique && c != HomeCpt(cfg, info.nid) ==> TakersWithin(s.tabs[c], info, {})
  {
    forall p | 0 <= p < NLISTS && Takers(s.tabs[c].mhash[p], info) != {}
      ensures p == IGNORE_LIST || p == Head(cfg, s.kind, info.mbits, info.nid, info.pid)
      ensures s.kind == Unique ==> c == HomeCpt(cfg, info.nid)
    {
      var me :| me in s.tabs[c].mhash[p] && Takes(me, info);
      TakerHome(cfg, s.kind, c, p, me, info);
    }
  }

  // ----- a match attempt at one table -----

  lemma MtMatchShrinks(wildcard: bool, t: Table, head: nat, info: Info)
    requires TableShape(t) && head < HASH_SIZE
    ensures TableShrinks(t, MtMatch(wildcard, t, head, info).table)
  {
    var t' := MtMatch(wildcard, t, head, info).table;
    MtMatchKeeps(wildcard, t, head, info, info);
    forall p, i | 0 <= p < NLISTS ensures Takers(t'.mhash[p], i) <= Takers(t.mhash[p], i) {
      MtMatchKeeps(wildcard, t, head, info, i);
    }
  }

  /** The match attempt itself, as seen by the portal. */
  lemma MatchAtOk(cfg: Cfg, s: State, c: nat, m: nat)
    requires CfgOk(cfg) && Shape(cfg, s) && Placed(cfg, s) && Honest(cfg, s)
    requires c < cfg.n && s.hold[c].Free? && s.kind != Unset
    ensures var f := MatchAt(cfg, s, c, m);
            && TableShape(f.table) && TableShrinks(s.tabs[c], f.table) && f.table.enabled == s.tabs[c].enabled
            && (s.kind != Unique ==> SpentHonest(f.table))
            && (f.hit.None? <==> TakersWithin(s.tabs[c], cfg.info(m), {}))
            && (f.exhausted ==> AllSpent(f.table.spent))
            && (AllSpent(s.tabs[c].spent) ==> AllSpent(f.table.spent))
  {
    var info := cfg.info(m);
    var head := Head(cfg, s.kind, info.mbits, info.nid, info.pid);
    PlacedForMsg(cfg, s, c, info);
    assert Settled(cfg, s, c) == s.tabs[c];
    IndexEqualsScan(s.kind == Wildcard, s.tabs[c], head, info);
    MtMatchShrinks(s.kind == Wildcard, s.tabs[c], head, info);
    MtMatchKeeps(s.kind == Wildcard, s.tabs[c], head, info, info);
  }

  lemma PutShrinks(cfg: Cfg, s: State, c: nat, f: Found)
    requires Shape(cfg, s) && c < cfg.n && s.hold[c].Free? && TableShape(f.table) && TableShrinks(s.tabs[c], f.table)
    ensures Shape(cfg, PutFound(cfg, s, c, f)) && Shrinks(cfg, s, PutFound(cfg, s, c, f))
  {
    var s' := PutFound(cfg, s, c, f);
    forall d | 0 <= d < cfg.n ensures TableShrinks(Settled(cfg, s, d), Settled(cfg, s', d)) {
      if d == c { assert s'.tabs[c].mhash == f.table.mhash; } else { assert Settled(cfg, s', d) == Settled(cfg, s, d); }
    }
  }

  lemma PutMaps(cfg: Cfg, s: State, c: nat, f: Found)
    requires Shape(cfg, s) && c < cfg.n && s.hold[c].Free? && TableShape(f.table)
    requires f.table.enabled == s.tabs[c].enabled
    requires MapsOk(cfg, s)
    ensures Shape(cfg, PutFound(cfg, s, c, f)) && MapsOk(cfg, PutFound(cfg, s, c, f))
  {
    RemoveOk(s.maps, c);
  }

  lemma PutFlags(cfg: Cfg, s: State, c: nat, f: Found)
    requires Shape(cfg, s) && c < cfg.n && s.hold[c].Free? && TableShape(f.table)
    requires f.table.enabled == s.tabs[c].enabled
    requires Honest(cfg, s) && MapsOk(cfg, s) && (s.kind != Unique ==> SpentHonest(f.table))
    requires f.exhausted || AllSpent(s.tabs[c].spent) ==> AllSpent(f.table.spent)
    ensures Shape(cfg, PutFound(cfg, s, c, f)) && Honest(cfg, PutFound(cfg, s, c, f))
    ensures MapsOk(cfg, PutFound(cfg, s, c, f))
  {
    var s' := PutFound(cfg, s, c, f);
    PutMaps(cfg, s, c, f);
    assert SpentHonest(f.table) ==> SpentHonest(s'.tabs[c]);
    forall d | 0 <= d < cfg.n && d != c ensures Settled(cfg, s', d) == Settled(cfg, s, d) {}
  }

  /** What a match attempt does to the portal. */
  lemma PutFoundOk(cfg: Cfg, s: State, c: nat, m: nat)
    requires CfgOk(cfg) && Shape(cfg, s) && Placed(cfg, s) && Honest(cfg, s) && MapsOk(cfg, s)
    requires c < cfg.n && s.hold[c].Free? && s.kind != Unset
    ensures var f := MatchAt(cfg, s, c, m);
            var s' := PutFound(cfg, s, c, f);
            && Shape(cfg, s') && Shrinks(cfg, s, s') && Honest(cfg, s') && MapsOk(cfg, s')
            && (f.hit.None? <==> TakersWithin(Settled(cfg, s, c), cfg.info(m), {}))
            && (f.hit.None? ==> TakersWithin(Settled(cfg, s', c), cfg.info(m), {}))
  {
    var f := MatchAt(cfg, s, c, m);
    MatchAtOk(cfg, s, c, m);
    PutShrinks(cfg, s, c, f);
    PutFlags(cfg, s, c, f);
    if f.hit.None? {
      WithinShrinks(Settled(cfg, s, c), Settled(cfg, PutFound(cfg, s, c, f), c), cfg.info(m), {}, {});
    }
  }

  /** A match attempt leaves every ME where it belongs. */
  lemma PutFoundPlaced(cfg: Cfg, s: State, c: nat, m: nat)
    requires CfgOk(cfg) && Shape(cfg, s) && Placed(cfg, s) && c < cfg.n
    ensures Shape(cfg, PutFound(cfg, s, c, MatchAt(cfg, s, c, m))) ==>
              Placed(cfg, PutFound(cfg, s, c, MatchAt(cfg, s, c, m)))
  {
    var f := MatchAt(cfg, s, c, m);
    forall p, me | 0 <= p < NLISTS && p < |f.table.mhash| && me in f.table.mhash[p]
      ensures MePlaced(cfg, s.kind, c, p, me)
    {
      MtMatchMes(s.kind == Wildcard, s.tabs[c], Head(cfg, s.kind, cfg.info(m).mbits, cfg.info(m).nid, cfg.info(m).pid),
                 cfg.info(m), p, me);
      var md :| me.(md := md) in s.tabs[c].mhash[p];
      assert MePlaced(cfg, s.kind, c, p, me.(md := md));
    }
  }

  /** An ME after a match attempt was there before, perhaps with another MD state. */
  lemma MtMatchMes(wildcard: bool, t: Table, head: nat, info: Info, p: nat, me: Me)
    requires TableShape(t) && head < HASH_SIZE && p < NLISTS
    requires p < |MtMatch(wildcard, t, head, info).table.mhash| && me in MtMatch(wildcard, t, head, info).table.mhash[p]
    ensures exists md :: me.(md := md) in t.mhash[p]
  {
    if t.mhash[IGNORE_LIST] == [] {
      PassMes(wildcard, t, head, info, p, me);
    } else {
      var f := MtPass(wildcard, t, IGNORE_LIST, info);
      if f.hit.None? && !f.exhausted {
        PassMes(wildcard, f.table, head, info, p, me);
      } else {
        PassMes(wildcard, t, IGNORE_LIST, info, p, me);
      }
    }
  }

  lemma PassMes(wildcard: bool, t: Table, pos: nat, info: Info, p: nat, me: Me)
    requires TableShape(t) && pos < NLISTS && p < NLISTS && me in MtPass(wildcard, t, pos, info).table.mhash[p]
    ensures exists md :: me.(md := md) in t.mhash[p]
  {
    if p == pos && MtPass(wildcard, t, pos, info).hit.Some? {
      ScanMes(t.mhash[pos], info, me);
    } else {
      assert me.(md := me.md) in t.mhash[p];
    }
  }

  lemma {:induction false} ScanMes(l: seq<Me>, info: Info, me: Me)
    ensures me in ScanList(l, info).rest ==> exists md :: me.(md := md) in l
  {
    if me in ScanList(l, info).rest {
      if Takes(l[0], info) {
        if me in l[1..] {
          assert me.(md := me.md) in l;
        } else {
          assert me.(md := l[0].md) == l[0];
        }
      } else if me == l[0] {
        assert me.(md := me.md) in l;
      } else {
        ScanMes(l[1..], info, me);
        var md :| me.(md := md) in l[1..];
        assert me.(md := md) in l;
      }
    }
  }

  // ----- the steps -----

  /** Steps that touch neither tables nor attaches keep everything said about those. */
  lemma SameTables(cfg: Cfg, s: State, s': State)
    requires Shape(cfg, s) && s'.tabs == s.tabs && s'.kind == s.kind && s'.maps == s.maps && |s'.hold| == cfg.n
    requires forall c :: 0 <= c < cfg.n ==> s'.hold[c] == s.hold[c] || (!s.hold[c].Attaching? && !s'.hold[c].Attaching?)
    ensures Shape(cfg, s')
    ensures Placed(cfg, s) ==> Placed(cfg, s')
    ensures Honest(cfg, s) ==> Honest(cfg, s')
    ensures MapsOk(cfg, s) ==> MapsOk(cfg, s')
    ensures forall c :: 0 <= c < cfg.n ==> Settled(cfg, s', c) == Settled(cfg, s, c)
    ensures Shrinks(cfg, s, s')
  {
    assert forall c :: 0 <= c < cfg.n ==> Settled(cfg, s', c) == Settled(cfg, s, c);
  }

  lemma ShrinksTrans(cfg: Cfg, a: State, b: State, c: State)
    requires Shape(cfg, a) && Shape(cfg, b) && Shape(cfg, c) && Shrinks(cfg, a, b) && Shrinks(cfg, b, c)
    ensures Shrinks(cfg, a, c)
  {
    forall d | 0 <= d < cfg.n ensures TableShrinks(Settled(cfg, a, d), Settled(cfg, c, d)) {
      assert TableShrinks(Settled(cfg, a, d), Settled(cfg, b, d)) &&
               TableShrinks(Settled(cfg, b, d), Settled(cfg, c, d));
    }
  }

  /** Removing or emptying an ME only shrinks a table. */
  lemma SetMeShrinks(t: Table, pos: nat, k: nat, with: seq<Me>)
    requires TableShape(t) && pos < NLISTS && k < |t.mhash[pos]|
    requires with == [] || with == [t.mhash[pos][k].(md := None)]
    ensures TableShape(SetMe(t, pos, k, with)) && TableShrinks(t, SetMe(t, pos, k, with))
  {
    var l := t.mhash[pos];
    var l' := l[..k] + with + l[k + 1..];
    forall me | me in l' && me.md.Some? ensures me in l {}
    forall i ensures Takers(l', i) <= Takers(l, i) {}
  }

  lemma SettledShrinks(cfg: Cfg, s: State, c: nat)
    requires Shape(cfg, s) && c < cfg.n
    ensures TableShrinks(s.tabs[c], Settled(cfg, s, c))
  {
    var h := s.hold[c];
    if h.Attaching? { SetMeShrinks(s.tabs[c], h.pos, h.k, [s.tabs[c].mhash[h.pos][h.k].(md := None)]); }
  }

  /** A message refused by its home table is refused by all tables of a unique or single-CPT portal. */
  lemma HomeIsAll(cfg: Cfg, s: State, m: nat, c: nat)
    requires CfgOk(cfg) && Shape(cfg, s) && Placed(cfg, s) && s.kind != Unset && (s.kind == Unique || cfg.n == 1)
    requires c == HomeCpt(cfg, cfg.info(m).nid) && TakersWithin(Settled(cfg, s, c), cfg.info(m), {})
    ensures forall d :: 0 <= d < cfg.n ==> TakersWithin(Settled(cfg, s, d), cfg.info(m), {})
  {
    forall d | 0 <= d < cfg.n ensures TakersWithin(Settled(cfg, s, d), cfg.info(m), {}) {
      if d != c {
        PlacedForMsg(cfg, s, d, cfg.info(m));
        SettledShrinks(cfg, s, d);
        WithinShrinks(s.tabs[d], Settled(cfg, s, d), cfg.info(m), {}, {});
      }
    }
  }

  ghost predicate IsFirstVerdict(cfg: Cfg, s: State, s': State, m: nat) {
    && m !in s.phase && s'.stealing == s.stealing && s'.mover == s.mover && s'.kind == s.kind
    && ( || (s'.phase == s.phase && s'.delayed == s.delayed && s'.got == s.got)
         || (s'.phase == s.phase[m := Parked] && s'.delayed == s.delayed + [m] && s'.got == s.got)
         || (s'.delayed == s.delayed && s'.got == s.got && s'.phase == s.phase[m := Done(false)])
         || (s'.delayed == s.delayed && m in s'.got && s'.got == s.got[m := s'.got[m]] &&
             s'.phase == s.phase[m := Done(true)])
         || (exists f: nat :: s'.delayed == s.delayed && s'.got == s.got && s.kind == Wildcard && cfg.n > 1 && f < cfg.n
                         && s'.phase == s.phase[m := Walking(f, 0, true)]))
  }

  /** Lists and phases after a new message got its first verdict. */
  lemma FirstLists(cfg: Cfg, s: State, s': State, m: nat)
    requires ListsOk(cfg, s) && IsFirstVerdict(cfg, s, s', m)
    ensures ListsOk(cfg, s')
  {
    assert m !in s.delayed && m !in s.stealing;
  }

  lemma FirstGot(cfg: Cfg, s: State, s': State, m: nat)
    requires GotOk(s) && IsFirstVerdict(cfg, s, s', m)
    ensures GotOk(s')
  {
    assert m !in s.got;
  }

  lemma FirstCover(cfg: Cfg, s: State, s1: State, s': State, m: nat)
    requires Shape(cfg, s) && Shape(cfg, s1) && Shrinks(cfg, s, s1) && ParkedOk(cfg, s) && WalkOk(cfg, s)
    requires s'.tabs == s1.tabs && s'.hold == s1.hold && s'.kind == s1.kind && s'.maps == s1.maps && s'.racy == s.racy
    requires IsFirstVerdict(cfg, s, s', m) && m !in s.stealing
    requires m in s'.phase && s'.phase[m].Parked? ==>
               forall d :: 0 <= d < cfg.n ==> TakersWithin(Settled(cfg, s1, d), cfg.info(m), {})
    ensures Shape(cfg, s') && ParkedOk(cfg, s') && WalkOk(cfg, s')
  {
    SameTables(cfg, s1, s');
    ShrinksTrans(cfg, s, s1, s');
    FirstOthers(cfg, s, s', m);
    ParkedKept(cfg, s, s', if m in s'.phase && s'.phase[m].Parked? then {m} else {});
    WalkKept(cfg, s, s', m, 0);
  }

  lemma FirstOthers(cfg: Cfg, s: State, s': State, m: nat)
    requires IsFirstVerdict(cfg, s, s', m) && m !in s.stealing && s'.racy == s.racy
    ensures OthersSame(s, s', m) && m !in s'.stealing && (m in s'.phase ==> !s'.phase[m].Parking?)
    ensures forall x :: x in s'.stealing && Walks(cfg, s', x) ==> Walks(cfg, s, x) && s'.phase[x] == s.phase[x]
  {
  }

  lemma FirstIs(cfg: Cfg, s: State, s1: State, hit: Option<Hit>, m: nat, first: nat, ready: bool)
    requires cfg.n >= 1 && m !in s.phase && first < cfg.n && s.kind != Unset
    requires s1 == s.(tabs := s1.tabs, maps := s1.maps)
    ensures IsFirstVerdict(cfg, s, FirstVerdict(cfg, s1, hit, m, first, ready), m)
  {
  }

  /** s1 is the portal right after the first table was tried. */
  lemma FirstVerdictKeeps(cfg: Cfg, s: State, s1: State, hit: Option<Hit>, m: nat, c: nat, first: nat, ready: bool)
    requires CfgOk(cfg) && Inv(cfg, s) && m !in s.phase && c < cfg.n && first < cfg.n && s.kind != Unset
    requires s.kind == Unique || cfg.n == 1 ==> c == HomeCpt(cfg, cfg.info(m).nid)
    requires s1 == s.(tabs := s1.tabs, maps := s1.maps) && Shape(cfg, s1) && Shrinks(cfg, s, s1)
    requires Placed(cfg, s1) && Honest(cfg, s1) && MapsOk(cfg, s1)
    requires hit.None? ==> TakersWithin(Settled(cfg, s1, c), cfg.info(m), {})
    ensures Inv(cfg, FirstVerdict(cfg, s1, hit, m, first, ready))
  {
    var s' := FirstVerdict(cfg, s1, hit, m, first, ready);
    FirstIs(cfg, s, s1, hit, m, first, ready);
    SameTables(cfg, s1, s');
    if m in s'.phase && s'.phase[m].Parked? { HomeIsAll(cfg, s1, m, c); }
    assert m !in s.stealing;
    FirstCover(cfg, s, s1, s', m);
    FirstLists(cfg, s, s', m);
    FirstGot(cfg, s, s', m);
  }

  lemma MatchFirstKeeps(cfg: Cfg, s: State, m: nat, c: nat, first: nat, ready: bool)
    requires CfgOk(cfg) && Inv(cfg, s) && m !in s.phase && c < cfg.n && first < cfg.n && s.hold[c].Free?
    requires s.kind != Unset
    requires s.kind == Unique || cfg.n == 1 ==> c == HomeCpt(cfg, cfg.info(m).nid)
    ensures Inv(cfg, DoMatchFirst(cfg, s, m, c, first, ready))
  {
    var f := MatchAt(cfg, s, c, m);
    PutFoundOk(cfg, s, c, m);
    PutFoundPlaced(cfg, s, c, m);
    FirstVerdictKeeps(cfg, s, PutFound(cfg, s, c, f), f.hit, m, c, first, ready);
  }

  /** A walker that may stop here has been refused by every settled MD of the portal. */
  lemma WalkComplete(cfg: Cfg, s: State, s1: State, m: nat, c: nat, first: nat, i: nat)
    requires CfgOk(cfg) && Shape(cfg, s) && Shape(cfg, s1) && Shrinks(cfg, s, s1) && WalkOk(cfg, s)
    requires Honest(cfg, s1) && MapsOk(cfg, s1) && s1.kind == Wildcard
    requires m in s.phase && s.phase[m].Walking? && s.phase[m].first == first && s.phase[m].i == i
    requires (i > 0 ==> m in s.stealing)
    requires first < cfg.n && i < cfg.n && c == Cpt(cfg, first, i) && TakersWithin(Settled(cfg, s1, c), cfg.info(m), {})
    requires i == cfg.n - 1 || s1.maps == [] || s1.maps == [c]
    ensures forall d :: 0 <= d < cfg.n ==> TakersWithin(Settled(cfg, s1, d), cfg.info(m), {})
  {
    forall d | 0 <= d < cfg.n ensures TakersWithin(Settled(cfg, s1, d), cfg.info(m), {}) {
      if i == cfg.n - 1 {
        var j := CptCovers(cfg, first, d);
        if j < i {
          assert TakersWithin(Settled(cfg, s, Cpt(cfg, first, j)), cfg.info(m), {});
          WithinShrinks(Settled(cfg, s, d), Settled(cfg, s1, d), cfg.info(m), {}, {});
        }
      } else if d != c {
        assert d !in s1.maps;
        SpentMeansNone(Settled(cfg, s1, d), cfg.info(m));
      }
    }
  }

  lemma WalkLists(cfg: Cfg, s: State, s1: State, hit: Option<Hit>, m: nat, c: nat, first: nat, i: nat)
    requires ListsOk(cfg, s) && c < |s1.hold| && s.mover.None?
    requires m in s.phase && s.phase[m] == Walking(first, i, true)
    requires s1 == s.(tabs := s1.tabs, maps := s1.maps, stealing := s1.stealing)
    requires NoDup(s1.stealing) && (forall x :: x in s1.stealing <==> x in s.stealing || x == m)
    ensures ListsOk(cfg, WalkVerdict(cfg, s1, hit, m, c, first, i))
  {
    VerdictOthers(cfg, s, s1, hit, m, c, first, i);
    VerdictOwn(cfg, s1, hit, m, c, first, i);
    WalkedLists(cfg, s, WalkVerdict(cfg, s1, hit, m, c, first, i), m);
  }

  /** What a visit does to the messages other than its own. */
  lemma VerdictOthers(cfg: Cfg, s: State, s1: State, hit: Option<Hit>, m: nat, c: nat, first: nat, i: nat)
    requires c < |s1.hold| && s1 == s.(tabs := s1.tabs, maps := s1.maps, stealing := s1.stealing)
    requires NoDup(s1.stealing) && (forall x :: x in s1.stealing <==> x in s.stealing || x == m)
    ensures var s' := WalkVerdict(cfg, s1, hit, m, c, first, i);
            OthersSame(s, s', m) && NoDup(s'.stealing) && s'.delayed == s.delayed && s'.kind == s.kind
  {
    RemoveKeeps(s1.stealing, m);
  }

  /** What a visit does to its own message: a verdict, the first half of the move, or on to the next CPT. */
  lemma VerdictOwn(cfg: Cfg, s1: State, hit: Option<Hit>, m: nat, c: nat, first: nat, i: nat)
    requires c < |s1.hold| && NoDup(s1.stealing) && m in s1.stealing && first < cfg.n && i < cfg.n && s1.mover.None?
    ensures var s' := WalkVerdict(cfg, s1, hit, m, c, first, i);
            && m in s'.phase
            && (s'.mover == if s'.phase[m].Parking? then Some(m) else None)
            && (s'.phase[m].Parking? || s'.phase[m].Done? ||
                (s'.phase[m] == Walking(first, i + 1, false) && i + 1 < cfg.n))
            && (m in s'.stealing <==> s'.phase[m].Walking?)
            && (s'.phase[m].Parking? ==> hit.None? && (i == cfg.n - 1 || s1.maps == [] || s1.maps == [c]))
            && (s'.phase[m].Walking? ==> hit.None?)
  {
    RemoveKeeps(s1.stealing, m);
  }

  lemma WalkedLists(cfg: Cfg, s: State, s': State, m: nat)
    requires ListsOk(cfg, s) && m in s.phase && s.phase[m].Walking? && s.mover.None?
    requires OthersSame(s, s', m) && NoDup(s'.stealing) && s'.delayed == s.delayed && s'.kind == s.kind && m in s'.phase
    requires s'.mover == if s'.phase[m].Parking? then Some(m) else None
    requires s'.phase[m].Parking? || s'.phase[m].Done? || (Walks(cfg, s', m) && s'.phase[m].i > 0)
    requires m in s'.stealing <==> s'.phase[m].Walking?
    ensures ListsOk(cfg, s')
  {
    assert forall x :: x != m && x in s.phase && s.phase[x].Walking? ==> Walks(cfg, s', x);
  }

  lemma WalkGot(cfg: Cfg, s: State, s1: State, hit: Option<Hit>, m: nat, c: nat, first: nat, i: nat)
    requires GotOk(s) && c < |s1.hold| && m in s.phase && s.phase[m] == Walking(first, i, true)
    requires (i > 0 ==> m in s.stealing)
    requires s1 == s.(tabs := s1.tabs, maps := s1.maps, stealing := s1.stealing)
    requires NoDup(s1.stealing) && (forall x :: x in s1.stealing <==> x in s.stealing || x == m)
    ensures GotOk(WalkVerdict(cfg, s1, hit, m, c, first, i))
  {
    RemoveKeeps(s1.stealing, m);
    var s' := WalkVerdict(cfg, s1, hit, m, c, first, i);
    assert m !in s.got;
    assert forall x :: x != m ==> (x in s'.phase <==> x in s.phase) && (x in s.phase ==> s'.phase[x] == s.phase[x]);
    assert forall x :: x != m ==> (x in s'.got <==> x in s.got);
  }

  /** The phases and stealing list of s' after a walker's visit, seen from the other messages. */
  ghost predicate OthersSame(s: State, s': State, m: nat) {
    && (forall x :: x != m ==> (x in s'.phase <==> x in s.phase) && (x in s.phase ==> s'.phase[x] == s.phase[x]))
    && (forall x :: x != m ==> (x in s'.stealing ==> x in s.stealing))
    && s.racy == s'.racy
  }

  lemma WalkParked(cfg: Cfg, s: State, s1: State, s': State, m: nat, c: nat, first: nat, i: nat)
    requires CfgOk(cfg) && Shape(cfg, s) && Shape(cfg, s1) && Shape(cfg, s') && Shrinks(cfg, s, s1) && ParkedOk(cfg, s)
    requires WalkOk(cfg, s)
    requires Shrinks(cfg, s, s') && (forall d :: 0 <= d < cfg.n ==> Settled(cfg, s', d) == Settled(cfg, s1, d))
    requires first < cfg.n && i < cfg.n && c == Cpt(cfg, first, i)
    requires Honest(cfg, s1) && MapsOk(cfg, s1) && s1.kind == Wildcard
    requires m in s.phase && s.phase[m].Walking? && s.phase[m].first == first && s.phase[m].i == i
    requires (i > 0 ==> m in s.stealing)
    requires OthersSame(s, s', m) && m in s'.phase && !s'.phase[m].Parked?
    requires s'.phase[m].Parking? ==>
               && TakersWithin(Settled(cfg, s1, c), cfg.info(m), {})
               && (i == cfg.n - 1 || s1.maps == [] || s1.maps == [c])
    ensures ParkedOk(cfg, s')
  {
    if s'.phase[m].Parking? {
      WalkComplete(cfg, s, s1, m, c, first, i);
      ParkedKept(cfg, s, s', {m});
    } else {
      ParkedKept(cfg, s, s', {});
    }
  }

  lemma WalkCover(cfg: Cfg, s: State, s1: State, hit: Option<Hit>, m: nat, c: nat, first: nat, i: nat)
    requires CfgOk(cfg) && Shape(cfg, s) && Shape(cfg, s1) && Shrinks(cfg, s, s1) && ParkedOk(cfg, s) && WalkOk(cfg, s)
    requires first < cfg.n && i < cfg.n && c == Cpt(cfg, first, i) && s.hold[c].Free?
    requires m in s.phase && s.phase[m] == Walking(first, i, true) && (i > 0 ==> m in s.stealing)
    requires s1 == s.(tabs := s1.tabs, maps := s1.maps, stealing := s1.stealing) && s.mover.None?
    requires NoDup(s1.stealing) && (forall x :: x in s1.stealing <==> x in s.stealing || x == m)
    requires Honest(cfg, s1) && MapsOk(cfg, s1) && s1.kind == Wildcard
    requires hit.None? ==> TakersWithin(Settled(cfg, s1, c), cfg.info(m), {})
    ensures var s' := WalkVerdict(cfg, s1, hit, m, c, first, i); Shape(cfg, s') && ParkedOk(cfg, s') && WalkOk(cfg, s')
  {
    var s' := WalkVerdict(cfg, s1, hit, m, c, first, i);
    SameTables(cfg, s1, s');
    ShrinksTrans(cfg, s, s1, s');
    VerdictOthers(cfg, s, s1, hit, m, c, first, i);
    VerdictOwn(cfg, s1, hit, m, c, first, i);
    WalkParked(cfg, s, s1, s', m, c, first, i);
    WalkOn(cfg, s, s', m, c, first, i);
  }

  /** The walkers after a visit of m, which may have covered table c on top. */
  lemma WalkOn(cfg: Cfg, s: State, s': State, m: nat, c: nat, first: nat, i: nat)
    requires Shape(cfg, s) && Shape(cfg, s') && WalkOk(cfg, s) && Shrinks(cfg, s, s') && OthersSame(s, s', m)
    requires first < cfg.n && i < cfg.n && c == Cpt(cfg, first, i)
    requires m in s.phase && s.phase[m] == Walking(first, i, true) && (i > 0 ==> m in s.stealing)
    requires m in s'.phase && (s'.phase[m].Walking? ==>
               s'.phase[m] == Walking(first, i + 1, false) && TakersWithin(Settled(cfg, s', c), cfg.info(m), {}))
    ensures WalkOk(cfg, s')
  {
    WalkKept(cfg, s, s', m, i);
  }

  lemma WalkVisitKeeps(cfg: Cfg, s: State, m: nat)
    requires CfgOk(cfg) && Inv(cfg, s) && Walks(cfg, s, m) && s.phase[m].go && s.mover.None?
    requires s.phase[m].i == 0 || m in s.stealing
    requires s.hold[Cpt(cfg, s.phase[m].first, s.phase[m].i)].Free?
    ensures Inv(cfg, DoWalkVisit(cfg, s, m, s.phase[m].first, s.phase[m].i))
  {
    var first, i := s.phase[m].first, s.phase[m].i;
    var c := Cpt(cfg, first, i);
    var s0 := if i == 0 then s.(stealing := s.stealing + [m]) else s;
    SameTables(cfg, s, s0);
    var f := MatchAt(cfg, s0, c, m);
    var s1 := PutFound(cfg, s0, c, f);
    PutFoundOk(cfg, s0, c, m);
    PutFoundPlaced(cfg, s0, c, m);
    ShrinksTrans(cfg, s, s0, s1);
    Joined(cfg, s, m, s1.stealing);
    WalkVerdictKeeps(cfg, s, s1, f.hit, m, c, first, i);
  }

  /** The stealing list while the walker of m visits a table. */
  lemma Joined(cfg: Cfg, s: State, m: nat, stealing: seq<nat>)
    requires ListsOk(cfg, s) && Walks(cfg, s, m) && (s.phase[m].i == 0 || m in s.stealing)
    requires stealing == if s.phase[m].i == 0 then s.stealing + [m] else s.stealing
    ensures NoDup(stealing) && forall x :: x in stealing <==> x in s.stealing || x == m
  {
    assert s.phase[m].i == 0 ==> m !in s.stealing;
  }

  /** s1 is the portal right after table c was tried on behalf of walker m. */
  lemma WalkVerdictKeeps(cfg: Cfg, s: State, s1: State, hit: Option<Hit>, m: nat, c: nat, first: nat, i: nat)
    requires CfgOk(cfg) && Shape(cfg, s) && ParkedOk(cfg, s) && WalkOk(cfg, s) && ListsOk(cfg, s) && GotOk(s)
    requires s.mover.None? && first < cfg.n && i < cfg.n && c == Cpt(cfg, first, i) && s.hold[c].Free?
    requires m in s.phase && s.phase[m] == Walking(first, i, true) && (i > 0 ==> m in s.stealing)
    requires s1 == s.(tabs := s1.tabs, maps := s1.maps, stealing := s1.stealing)
    requires NoDup(s1.stealing) && (forall x :: x in s1.stealing <==> x in s.stealing || x == m)
    requires Shape(cfg, s1) && Shrinks(cfg, s, s1) && Placed(cfg, s1) && Honest(cfg, s1) && MapsOk(cfg, s1)
    requires hit.None? ==> TakersWithin(Settled(cfg, s1, c), cfg.info(m), {})
    ensures Inv(cfg, WalkVerdict(cfg, s1, hit, m, c, first, i))
  {
    var s' := WalkVerdict(cfg, s1, hit, m, c, first, i);
    SameTables(cfg, s1, s');
    WalkCover(cfg, s, s1, hit, m, c, first, i);
    WalkLists(cfg, s, s1, hit, m, c, first, i);
    WalkGot(cfg, s, s1, hit, m, c, first, i);
  }

  /** A step that only changes the phase of one message, from walking to p. */
  lemma PhaseCover(cfg: Cfg, s: State, m: nat, p: Phase)
    requires Shape(cfg, s) && ParkedOk(cfg, s) && WalkOk(cfg, s) && Walks(cfg, s, m)
    requires p.Walking? ==>
               && p.first == s.phase[m].first && s.phase[m].i <= p.i <= s.phase[m].i + 1 && p.i < cfg.n
               && (p.i > s.phase[m].i ==>
                   TakersWithin(Settled(cfg, s, Cpt(cfg, p.first, s.phase[m].i)), cfg.info(m), {}))
    requires !p.Walking? ==> p.Done? && m !in s.stealing
    ensures var s' := s.(phase := s.phase[m := p]); Shape(cfg, s') && ParkedOk(cfg, s') && WalkOk(cfg, s')
  {
    var s' := s.(phase := s.phase[m := p]);
    SameTables(cfg, s, s');
    ParkedKept(cfg, s, s', {});
    if p.Walking? && p.i > 0 && p.i == s.phase[m].i && m in s.stealing {
      assert TakersWithin(Settled(cfg, s, Cpt(cfg, p.first, p.i - 1)), cfg.info(m), {});
    }
    WalkKept(cfg, s, s', m, if p.Walking? && p.i > 0 then p.i - 1 else 0);
  }

  lemma PhaseLists(cfg: Cfg, s: State, m: nat, p: Phase)
    requires ListsOk(cfg, s) && GotOk(s) && Walks(cfg, s, m)
    requires
      || (p.Walking? && p.first < cfg.n && p.i < cfg.n && s.phase[m].i <= p.i && (p.i == 0 ==> p.go) &&
          (s.phase[m].i == 0 ==> p.i == 0))
      || (p == Done(m in s.got) && m !in s.stealing)
    ensures var s' := s.(phase := s.phase[m := p]); ListsOk(cfg, s') && GotOk(s')
  {
  }

  lemma WalkPeekKeeps(cfg: Cfg, s: State, m: nat, p: Phase)
    requires CfgOk(cfg) && Inv(cfg, s) && Walks(cfg, s, m) && !s.phase[m].go && p.Walking?
    requires p == (if s.phase[m].i >= cfg.n - 1 || s.tabs[Cpt(cfg, s.phase[m].first, s.phase[m].i)].enabled
                   then s.phase[m].(go := true) else s.phase[m].(i := s.phase[m].i + 1))
    ensures Inv(cfg, s.(phase := s.phase[m := p]))
  {
    if p.i > s.phase[m].i {
      SpentMeansNone(Settled(cfg, s, Cpt(cfg, p.first, s.phase[m].i)), cfg.info(m));
    }
    SameTables(cfg, s, s.(phase := s.phase[m := p]));
    PhaseCover(cfg, s, m, p);
    PhaseLists(cfg, s, m, p);
  }

  /** The walker of a message that an attaching thread took finds it off the stealing list. */
  lemma WalkTakenKeeps(cfg: Cfg, s: State, m: nat)
    requires CfgOk(cfg) && Inv(cfg, s) && Walks(cfg, s, m) && s.phase[m].i > 0 && m !in s.stealing
    ensures Inv(cfg, s.(phase := s.phase[m := Done(m in s.got)]))
  {
    SameTables(cfg, s, s.(phase := s.phase[m := Done(m in s.got)]));
    PhaseCover(cfg, s, m, Done(m in s.got));
    PhaseLists(cfg, s, m, Done(m in s.got));
  }
}
