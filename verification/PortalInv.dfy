/** The invariant of the portal machine, kept by every step. */
module PortalInv {
  import opened Common
  import opened MatchTable
  import opened Portal

  /** Table c without the MD whose attach is still in progress there. */
  function Settled(cfg: Cfg, s: State, c: nat): Table
    requires Shape(cfg, s) && c < cfg.n
  {
    var h := s.hold[c];
    if h.Attaching? then SetMe(s.tabs[c], h.pos, h.k, [s.tabs[c].mhash[h.pos][h.k].(md := None)])
    else s.tabs[c]
  }

  ghost predicate MePlaced(cfg: Cfg, kind: Kind, c: nat, p: nat, me: Me) {
    && kind != Unset
    && p == HomePos(cfg, kind, me)
    && (kind == Unique ==> UniqueMe(me) && c == HomeCpt(cfg, me.nid.v))
  }

  ghost predicate Placed(cfg: Cfg, s: State)
    requires Shape(cfg, s)
  {
    forall c, p, me :: 0 <= c < cfg.n && 0 <= p < NLISTS && me in s.tabs[c].mhash[p] ==> MePlaced(cfg, s.kind, c, p, me)
  }

  /** On a wildcard portal: bits are honest, and a disabled table has all of them set. */
  ghost predicate Honest(cfg: Cfg, s: State)
    requires Shape(cfg, s)
  {
    s.kind != Unique ==>
      forall c :: 0 <= c < cfg.n ==>
        SpentHonest(Settled(cfg, s, c)) && (!s.tabs[c].enabled ==> AllSpent(s.tabs[c].spent))
  }

  ghost predicate MapsOk(cfg: Cfg, s: State)
    requires Shape(cfg, s)
  {
    && Ascending(s.maps)
    && (forall c :: c in s.maps ==> c < cfg.n)
    && (forall c :: 0 <= c < cfg.n ==> (c in s.maps <==> s.tabs[c].enabled))
  }

  /** The MDs of table c whose look lost message m. */
  function RacyOf(s: State, m: nat, c: nat): set<nat> {
    set x | x in s.racy && x.0 == m && x.1 == c :: x.2
  }

  /** A parked message can be taken by no settled MD, up to lost looks. */
  ghost predicate ParkedOk(cfg: Cfg, s: State)
    requires Shape(cfg, s)
  {
    forall m, c :: m in s.phase && (s.phase[m].Parked? || s.phase[m].Parking?) && 0 <= c < cfg.n ==>
      TakersWithin(Settled(cfg, s, c), cfg.info(m), RacyOf(s, m, c))
  }

  /** A message on the stealing list can be taken by no settled MD of a CPT its walker has passed. */
  ghost predicate WalkOk(cfg: Cfg, s: State)
    requires Shape(cfg, s)
  {
    forall m, j :: m in s.stealing && Walks(cfg, s, m) && 0 <= j < s.phase[m].i ==>
      TakersWithin(Settled(cfg, s, Cpt(cfg, s.phase[m].first, j)), cfg.info(m), {})
  }

  /** Lists, phases and the message in flight agree. */
  ghost predicate ListsOk(cfg: Cfg, s: State) {
    && NoDup(s.stealing) && NoDup(s.delayed)
    && (forall m :: m in s.delayed <==> m in s.phase && s.phase[m].Parked?)
    && (forall m :: m in s.stealing ==> m in s.phase && s.phase[m].Walking? && s.phase[m].i > 0)
    && (forall m :: m in s.phase && s.phase[m].Parking? <==> s.mover == Some(m))
    && (forall m :: m in s.phase && s.phase[m].Walking? ==>
          s.kind == Wildcard && cfg.n > 1 && Walks(cfg, s, m) && (s.phase[m].i == 0 ==> s.phase[m].go))
  }

  /** msg_md is set exactly for messages that were matched, each once. */
  ghost predicate GotOk(s: State) {
    && (forall m :: m in s.got ==> m in s.phase)
    && (forall m :: m in s.phase && s.phase[m].Done? ==> (s.phase[m].ok <==> m in s.got))
    && (forall m :: m in s.phase && (s.phase[m].Parked? || s.phase[m].Parking?) ==> m !in s.got)
    && (forall m :: m in s.phase && s.phase[m].Walking? && (s.phase[m].i == 0 || m in s.stealing) ==> m !in s.got)
  }

  ghost predicate Inv(cfg: Cfg, s: State) {
    && Shape(cfg, s) && Placed(cfg, s) && Honest(cfg, s) && MapsOk(cfg, s)
    && ParkedOk(cfg, s) && WalkOk(cfg, s) && ListsOk(cfg, s) && GotOk(s)
  }

  lemma InitInv(cfg: Cfg)
    requires CfgOk(cfg)
    ensures Inv(cfg, Init(cfg))
  {
  }

  // ----- sequence helpers -----

  lemma AscendingSnoc(a: seq<nat>, x: nat)
    requires Ascending(a) && forall y :: y in a ==> y < x
    ensures Ascending(a + [x])
  {
    forall i, j | 0 <= i < j < |a + [x]| ensures (a + [x])[i] < (a + [x])[j] {
      assert (a + [x])[i] == a[i] && a[i] in a;
    }
  }

  lemma AscendingCons(x: nat, a: seq<nat>)
    requires Ascending(a) && forall y :: y in a ==> x < y
    ensures Ascending([x] + a)
  {
    forall i, j | 0 <= i < j < |[x] + a| ensures ([x] + a)[i] < ([x] + a)[j] {
      assert ([x] + a)[j] == a[j - 1] && a[j - 1] in a && (i > 0 ==> ([x] + a)[i] == a[i - 1]);
    }
  }

  lemma BelowLast(a: seq<nat>, x: nat)
    requires Ascending(a + [x])
    ensures Ascending(a) && forall y :: y in a ==> y < x
  {
    forall i | 0 <= i < |a| ensures a[i] < x { assert (a + [x])[i] == a[i] && (a + [x])[|a|] == x; }
    assert forall i :: 0 <= i < |a| ==> (a + [x])[i] == a[i];
  }

  lemma AboveFirst(x: nat, a: seq<nat>)
    requires Ascending([x] + a)
    ensures Ascending(a) && forall y :: y in a ==> x < y
  {
    forall i | 0 <= i < |a| ensures x < a[i] { assert ([x] + a)[i + 1] == a[i] && ([x] + a)[0] == x; }
    assert forall i :: 0 <= i < |a| ==> ([x] + a)[i + 1] == a[i];
  }

  lemma {:induction false} InsertOk(maps: seq<nat>, c: nat)
    requires Ascending(maps) && c !in maps
    ensures Ascending(Insert(maps, c))
    ensures forall x :: x in Insert(maps, c) <==> x in maps || x == c
  {
    if maps != [] {
      var front, last := maps[..|maps| - 1], maps[|maps| - 1];
      assert maps == front + [last];
      BelowLast(front, last);
      if last < c {
        AscendingSnoc(maps, c);
      } else {
        InsertOk(front, c);
        AscendingSnoc(Insert(front, c), last);
      }
    }
  }

  lemma {:induction false} RemoveOk(maps: seq<nat>, c: nat)
    requires Ascending(maps)
    ensures Ascending(Remove(maps, c))
    ensures forall x :: x in Remove(maps, c) <==> x in maps && x != c
  {
    if maps != [] {
      assert maps == [maps[0]] + maps[1..];
      AboveFirst(maps[0], maps[1..]);
      RemoveOk(maps[1..], c);
      if maps[0] != c { AscendingCons(maps[0], Remove(maps[1..], c)); }
    }
  }

  lemma {:induction false} DropMsgsOk(l: seq<nat>, d: set<nat>)
    requires NoDup(l)
    ensures NoDup(DropMsgs(l, d))
    ensures forall x :: x in DropMsgs(l, d) <==> x in l && x !in d
  {
    if l != [] {
      assert l == [l[0]] + l[1..];
      DropMsgsOk(l[1..], d);
      if l[0] !in d { NoDupCons(l[0], DropMsgs(l[1..], d)); }
    }
  }

  lemma CptIsMod(cfg: Cfg, first: nat, i: nat)
    requires first < cfg.n && i < cfg.n
    ensures Cpt(cfg, first, i) == (first + i) % cfg.n
  {
  }

  /** The walk visits every CPT once. */
  lemma CptCovers(cfg: Cfg, first: nat, c: nat) returns (j: nat)
    requires cfg.n >= 1 && first < cfg.n && c < cfg.n
    ensures j < cfg.n && Cpt(cfg, first, j) == c
    ensures forall i: nat :: i < cfg.n && Cpt(cfg, first, i) == c ==> i == j
  {
    j := if c >= first then c - first else c - first + cfg.n;
  }

  // ----- what a sweep leaves behind -----

  /** Every swept message ends in exactly one of rest and taken. */
  lemma {:induction false} SweepSplits(info: nat -> Info, me: Me, md: Md, msgs: seq<nat>)
    requires NoDup(msgs)
    ensures var r := SweepMsgs(info, me, md, msgs);
            && NoDup(r.rest)
            && (forall x :: x in msgs <==> x in r.rest || x in r.taken)
            && (forall x :: x in r.taken ==> x !in r.rest)
    decreases |msgs|
  {
    if msgs != [] {
      var m := msgs[0];
      assert msgs == [m] + msgs[1..];
      match TryMatch(me, md, info(m)) {
        case Miss(x) =>
          if !x {
            SweepSplits(info, me, md, msgs[1..]);
            NoDupCons(m, SweepMsgs(info, me, md, msgs[1..]).rest);
          }
        case Drop => SweepSplits(info, me, md, msgs[1..]);
        case Ok(x) => if !x { SweepSplits(info, me, Committed(md, info(m)), msgs[1..]); }
      }
    }
  }

  lemma {:induction false} DropSame(l: seq<nat>, a: set<nat>, b: set<nat>)
    requires forall x :: x in l ==> (x in a <==> x in b)
    ensures DropMsgs(l, a) == DropMsgs(l, b)
    ensures (forall x :: x in l ==> x !in a) ==> DropMsgs(l, a) == l
  {
    if l != [] {
      assert l == [l[0]] + l[1..];
      DropSame(l[1..], a, b);
    }
  }

  /** The messages a sweep leaves stay in their order. */
  lemma {:induction false} SweepInOrder(info: nat -> Info, me: Me, md: Md, msgs: seq<nat>)
    requires NoDup(msgs)
    ensures SweepMsgs(info, me, md, msgs).rest == DropMsgs(msgs, SweepMsgs(info, me, md, msgs).taken.Keys)
    decreases |msgs|
  {
    if msgs != [] {
      var m, tail, gone := msgs[0], msgs[1..], SweepMsgs(info, me, md, msgs).taken.Keys;
      assert m !in tail;
      match TryMatch(me, md, info(m)) {
        case Miss(x) =>
          if x { DropSame(msgs, gone, gone); } else {
            SweepInOrder(info, me, md, tail);
            SweepSplits(info, me, md, tail);
          }
        case Drop =>
          SweepInOrder(info, me, md, tail);
          DropSame(tail, SweepMsgs(info, me, md, tail).taken.Keys, gone);
        case Ok(x) =>
          if x { DropSame(tail, gone, gone); } else {
            var md' := Committed(md, info(m));
            SweepInOrder(info, me, md', tail);
            DropSame(tail, SweepMsgs(info, me, md', tail).taken.Keys, gone);
          }
      }
    }
  }

  /** A sweep only uses the MD up. */
  lemma {:induction false} SweepShrinks(info: nat -> Info, me: Me, md: Md, msgs: seq<nat>, i: Info)
    ensures var r := SweepMsgs(info, me, md, msgs);
            && Takers(r.left, i) <= Takers([me.(md := Some(md))], i)
            && (r.exhausted ==> LiveMds(r.left) == {})
            && (forall x :: x in r.left ==> x == me.(md := x.md) && (x.md.Some? ==> x.md.value.id == md.id))
    decreases |msgs|
  {
    var me1 := me.(md := Some(md));
    TakersOne(me1, i);
    if msgs != [] {
      var m := msgs[0];
      match TryMatch(me, md, info(m)) {
        case Miss(x) => if !x { SweepShrinks(info, me, md, msgs[1..], i); }
        case Drop => SweepShrinks(info, me, md, msgs[1..], i);
        case Ok(x) =>
          LeftShrinks(me1, info(m), i);
          if !x { SweepShrinks(info, me, Committed(md, info(m)), msgs[1..], i); }
      }
    }
  }

  /** The swept MD can take none of the messages it left behind. */
  lemma {:induction false} SweepLeavesNone(info: nat -> Info, me: Me, md: Md, msgs: seq<nat>, m: nat)
    requires m in SweepMsgs(info, me, md, msgs).rest
    ensures Takers(SweepMsgs(info, me, md, msgs).left, info(m)) == {}
    decreases |msgs|
  {
    var r := SweepMsgs(info, me, md, msgs);
    if r.exhausted {
      SweepShrinks(info, me, md, msgs, info(m));
      TakersAreLive(r.left, info(m));
    } else {
      var m0 := msgs[0];
      match TryMatch(me, md, info(m0)) {
        case Miss(x) =>
          if m != m0 { SweepLeavesNone(info, me, md, msgs[1..], m); }
          else {
            SweepShrinks(info, me, md, msgs, info(m));
            TakersOne(me.(md := Some(md)), info(m));
          }
        case Drop => SweepLeavesNone(info, me, md, msgs[1..], m);
        case Ok(x) => SweepLeavesNone(info, me, Committed(md, info(m0)), msgs[1..], m);
      }
    }
  }
}
