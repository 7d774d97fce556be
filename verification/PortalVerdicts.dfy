/** What becomes of a message at each step, told from the entries of the tables rather than from the code. */
module PortalVerdicts {
  import opened Common
  import opened MatchTable
  import opened MdFill
  import opened Portal
  import opened PortalInv
  import opened PortalSteps
  import opened PortalAttach
  import opened PortalTheorems

  lemma ReachInv(cfg: Cfg, s: State)
    requires CfgOk(cfg) && Reachable(cfg, s)
    ensures Inv(cfg, s)
  {
    var steps, states :| IsRun(cfg, steps, states) && s == states[|steps|];
    RunInv(cfg, steps, states, |steps|);
  }

  /** No entry of table c takes message m. */
  ghost predicate NoTaker(cfg: Cfg, s: State, c: nat, m: nat)
    requires Shape(cfg, s) && c < cfg.n
  {
    forall p, me :: 0 <= p < NLISTS && me in s.tabs[c].mhash[p] ==> !Takes(me, cfg.info(m))
  }

  /** The entry of table c that message m meets first. */
  function Taker(cfg: Cfg, s: State, c: nat, m: nat): Option<Me>
    requires CfgOk(cfg) && Shape(cfg, s) && c < cfg.n
  {
    var info := cfg.info(m);
    TableTaker(s.tabs[c], Head(cfg, s.kind, info.mbits, info.nid, info.pid), info)
  }

  /** A match attempt answers for that entry, and there is one if any entry of the table takes the message. */
  lemma AttemptAnswers(cfg: Cfg, s: State, c: nat, m: nat)
    requires CfgOk(cfg) && Inv(cfg, s) && s.kind != Unset && c < cfg.n && s.hold[c].Free?
    ensures Taker(cfg, s, c, m).None? <==> NoTaker(cfg, s, c, m)
    ensures match Taker(cfg, s, c, m)
            case None => MatchAt(cfg, s, c, m).hit == None
            case Some(me) =>
              && me.md.Some? && Takes(me, cfg.info(m))
              && var hit := MatchAt(cfg, s, c, m).hit;
              hit.Some? && hit.value.md == me.md.value.id && (hit.value.ok <==> !TooBig(me.md.value, cfg.info(m)))
  {
    var info := cfg.info(m);
    var head := Head(cfg, s.kind, info.mbits, info.nid, info.pid);
    assert Settled(cfg, s, c) == s.tabs[c];
    MtAnswers(s.kind == Wildcard, s.tabs[c], head, info);
    TableTakerIn(s.tabs[c], head, info);
    AttemptMisses(cfg, s, c, m);
  }

  lemma AttemptMisses(cfg: Cfg, s: State, c: nat, m: nat)
    requires CfgOk(cfg) && Inv(cfg, s) && s.kind != Unset && c < cfg.n && s.hold[c].Free?
    ensures MatchAt(cfg, s, c, m).hit.None? <==> NoTaker(cfg, s, c, m)
  {
    MatchAtOk(cfg, s, c, m);
    NoneWithin(s.tabs[c], cfg.info(m));
  }

  lemma TableTakerIn(t: Table, head: nat, info: Info)
    requires TableShape(t) && head < HASH_SIZE
    ensures var r := TableTaker(t, head, info); r.Some? ==> r.value.md.Some? && Takes(r.value, info)
  {
  }

  lemma NoneWithin(t: Table, info: Info)
    requires TableShape(t)
    ensures TakersWithin(t, info, {}) <==>
              forall p, me :: 0 <= p < NLISTS && me in t.mhash[p] ==> !Takes(me, info)
  {
    forall p | 0 <= p < NLISTS
      ensures Takers(t.mhash[p], info) <= {} <==> forall me :: me in t.mhash[p] ==> !Takes(me, info)
    {
      NoTakers(t.mhash[p], info);
    }
  }

  // ----- the first try -----

  /** Message m can wait: a PUT on a lazy portal that may be put off. */
  predicate MayWait(cfg: Cfg, s: State, m: nat, ready: bool) {
    !cfg.info(m).get && s.lazy && ready
  }

  /** The first try of a message, in every reachable state: it is matched if the first taker has room for it.  It is
      dropped if that has not, or if nobody takes it and it is a GET or the portal is not lazy.  It joins the end of the
      delayed list if nobody takes it, it may wait, and there are no other tables to try.  It starts to walk if there
      are.  A message that may not be put off yet is left alone. */
  lemma FirstTry(cfg: Cfg, s: State, m: nat, c: nat, first: nat, ready: bool)
    requires CfgOk(cfg) && Reachable(cfg, s) && Enabled(cfg, s, MatchFirst(m, c, first, ready))
    ensures Taker(cfg, s, c, m).None? <==> NoTaker(cfg, s, c, m)
    ensures FirstVerdictIs(cfg, s, Apply(cfg, s, MatchFirst(m, c, first, ready)), m, c, first, ready)
  {
    ReachInv(cfg, s);
    AttemptAnswers(cfg, s, c, m);
    FirstBranches(cfg, s, PutFound(cfg, s, c, MatchAt(cfg, s, c, m)), m, c, first, ready, MatchAt(cfg, s, c, m).hit);
  }

  ghost predicate FirstVerdictIs(cfg: Cfg, s: State, s': State, m: nat, c: nat, first: nat, ready: bool)
    requires CfgOk(cfg) && Shape(cfg, s) && c < cfg.n
  {
    var taker, info := Taker(cfg, s, c, m), cfg.info(m);
    var fits := taker.Some? && taker.value.md.Some? && !TooBig(taker.value.md.value, info);
    var alone := s.kind == Unique || cfg.n == 1;
    && (m in s'.phase && s'.phase[m] == Done(true) <==> fits)
    && (m in s'.phase && s'.phase[m] == Done(false) <==>
        (taker.Some? && !fits) || (taker.None? && (info.get || !s.lazy)))
    && (m in s'.phase && s'.phase[m] == Parked <==> taker.None? && MayWait(cfg, s, m, ready) && alone)
    && (m in s'.phase && s'.phase[m].Walking? <==> taker.None? && MayWait(cfg, s, m, ready) && !alone)
    && (m in s'.phase && s'.phase[m].Walking? ==> s'.phase[m] == Walking(first, 0, true))
    && (m !in s'.phase <==> taker.None? && !info.get && s.lazy && !ready)
    && s'.delayed == (if m in s'.phase && s'.phase[m] == Parked then s.delayed + [m] else s.delayed)
    && s'.stealing == s.stealing
    && s'.got == (if fits then s.got[m := taker.value.md.value.id] else s.got)
  }

  lemma FirstBranches(cfg: Cfg, s: State, s1: State, m: nat, c: nat, first: nat, ready: bool, hit: Option<Hit>)
    requires CfgOk(cfg) && Shape(cfg, s) && c < cfg.n && m !in s.phase && s1 == s.(tabs := s1.tabs, maps := s1.maps)
    requires match Taker(cfg, s, c, m)
             case None => hit == None
             case Some(me) =>
               && me.md.Some?
               && hit.Some? && hit.value.md == me.md.value.id && (hit.value.ok <==> !TooBig(me.md.value, cfg.info(m)))
    ensures FirstVerdictIs(cfg, s, FirstVerdict(cfg, s1, hit, m, first, ready), m, c, first, ready)
  {
  }

  /** A portal without a type has no entries, so nobody could take a message that comes that early: it waits on a lazy
      portal if it may, and another drops it. */
  lemma EarlyTry(cfg: Cfg, s: State, m: nat, ready: bool)
    requires CfgOk(cfg) && Reachable(cfg, s) && Enabled(cfg, s, MatchEarly(m, ready))
    ensures forall c, p :: 0 <= c < cfg.n && 0 <= p < NLISTS ==> s.tabs[c].mhash[p] == []
    ensures var s' := Apply(cfg, s, MatchEarly(m, ready));
            && s'.delayed == (if s.lazy && ready then s.delayed + [m] else s.delayed)
            && (m in s'.phase && s'.phase[m] == Done(false) <==> !s.lazy)
            && (m in s'.phase && s'.phase[m] == Parked <==> s.lazy && ready)
            && s'.got == s.got && s'.tabs == s.tabs
  {
    ReachInv(cfg, s);
    forall c, p | 0 <= c < cfg.n && 0 <= p < NLISTS ensures s.tabs[c].mhash[p] == [] {
      EmptyOrNot(s.tabs[c].mhash[p]);
    }
  }

  lemma EmptyOrNot(l: seq<Me>)
    ensures l == [] || exists me :: me in l
  {
    if l != [] { assert l[0] in l; }
  }

  // ----- one iteration of the walk -----

  /** No table but c is enabled. */
  ghost predicate OnlyAt(cfg: Cfg, s: State, c: nat)
    requires Shape(cfg, s)
  {
    forall d :: 0 <= d < cfg.n && d != c ==> !s.tabs[d].enabled
  }

  lemma MapsOnlyAt(cfg: Cfg, s: State, c: nat)
    requires Shape(cfg, s) && MapsOk(cfg, s)
    ensures s.maps == [] || s.maps == [c] <==> OnlyAt(cfg, s, c)
  {
    assert |s.maps| > 0 ==> s.maps[0] in s.maps;
    assert |s.maps| > 1 ==> s.maps[1] in s.maps && s.maps[0] < s.maps[1];
    assert |s.maps| == 1 ==> s.maps == [s.maps[0]];
  }

  /** What one locked iteration at table c does to a message that is (still) to be matched. */
  ghost predicate VisitIs(cfg: Cfg, s: State, s': State, m: nat, c: nat, first: nat, i: nat)
    requires CfgOk(cfg) && Shape(cfg, s) && Shape(cfg, s') && c < cfg.n
  {
    var taker := Taker(cfg, s, c, m);
    var fits := taker.Some? && taker.value.md.Some? && !TooBig(taker.value.md.value, cfg.info(m));
    var last := i == cfg.n - 1 || OnlyAt(cfg, s', c);
    && m in s'.phase
    && (s'.phase[m] == Done(true) <==> fits)
    && (s'.phase[m] == Done(false) <==> (taker.Some? && !fits) || (taker.None? && !s.lazy))
    && (s'.phase[m] == Parking <==> taker.None? && s.lazy && last)
    && (s'.phase[m] == Walking(first, i + 1, false) <==> taker.None? && s.lazy && !last)
    && (m in s'.stealing <==> s'.phase[m].Walking?)
    && s'.mover == (if s'.phase[m] == Parking then Some(m) else None)
    && s'.delayed == s.delayed && s'.got == (if fits then s.got[m := taker.value.md.value.id] else s.got)
  }

  /** One iteration of the walk, in every reachable state.  A message that an attaching thread took off the stealing
      list ends as that thread decided.  Any other is matched if the first taker of the table has room for it, and
      dropped if that has not or the portal is no longer lazy.  With no taker it begins its move to the delayed list
      if this was the last CPT or no other table is enabled, and goes on to the next CPT otherwise. */
  lemma WalkTry(cfg: Cfg, s: State, m: nat)
    requires CfgOk(cfg) && Reachable(cfg, s) && Enabled(cfg, s, WalkVisit(m))
    ensures var s', p := Apply(cfg, s, WalkVisit(m)), s.phase[m];
            if p.i > 0 && m !in s.stealing then m in s'.phase && s'.phase[m] == Done(m in s.got) && s'.got == s.got
            else Shape(cfg, s') && VisitIs(cfg, s, s', m, Cpt(cfg, p.first, p.i), p.first, p.i)
  {
    var p := s.phase[m];
    ReachInv(cfg, s);
    if p.i == 0 || m in s.stealing { VisitTry(cfg, s, m, Cpt(cfg, p.first, p.i), p.first, p.i); }
  }

  lemma VisitTry(cfg: Cfg, s: State, m: nat, c: nat, first: nat, i: nat)
    requires CfgOk(cfg) && Inv(cfg, s) && Enabled(cfg, s, WalkVisit(m)) && s.phase[m] == Walking(first, i, true)
    requires c == Cpt(cfg, first, i) && (i == 0 || m in s.stealing)
    ensures Shape(cfg, DoWalkVisit(cfg, s, m, first, i))
    ensures VisitIs(cfg, s, DoWalkVisit(cfg, s, m, first, i), m, c, first, i)
  {
    var s0 := if i == 0 then s.(stealing := s.stealing + [m]) else s;
    var f := MatchAt(cfg, s, c, m);
    var s1 := PutFound(cfg, s0, c, f);
    AttemptAnswers(cfg, s, c, m);
    SameTables(cfg, s, s0);
    PutFoundOk(cfg, s0, c, m);
    Joined(cfg, s, m, s1.stealing);
    MapsOnlyAt(cfg, s1, c);
    VisitBranches(cfg, s, s1, m, c, first, i, f.hit);
  }

  lemma VisitBranches(cfg: Cfg, s: State, s1: State, m: nat, c: nat, first: nat, i: nat, hit: Option<Hit>)
    requires CfgOk(cfg) && Shape(cfg, s) && Shape(cfg, s1) && c < cfg.n && first < cfg.n && i < cfg.n && s.mover.None?
    requires s1 == s.(tabs := s1.tabs, maps := s1.maps, stealing := s1.stealing) && s.hold[c].Free?
    requires NoDup(s1.stealing) && m in s1.stealing && (s1.maps == [] || s1.maps == [c] <==> OnlyAt(cfg, s1, c))
    requires match Taker(cfg, s, c, m)
             case None => hit == None
             case Some(me) =>
               && me.md.Some?
               && hit.Some? && hit.value.md == me.md.value.id && (hit.value.ok <==> !TooBig(me.md.value, cfg.info(m)))
    ensures var s' := WalkVerdict(cfg, s1, hit, m, c, first, i); Shape(cfg, s') && VisitIs(cfg, s, s', m, c, first, i)
  {
    var s' := WalkVerdict(cfg, s1, hit, m, c, first, i);
    VerdictOwn(cfg, s1, hit, m, c, first, i);
    assert s'.tabs == s1.tabs;
    assert OnlyAt(cfg, s1, c) <==> forall d :: 0 <= d < cfg.n && d != c ==> !s'.tabs[d].enabled;
  }

  // ----- the blocked messages when an MD is attached -----

  lemma ScanOne(me: Me, info: Info)
    ensures ScanList([me], info).hit == (if Takes(me, info) then Some(HitOf(me.md.value, info)) else None)
    ensures ScanList([me], info).rest == if Takes(me, info) then Left(me, me.md.value, info) else [me]
  {
    assert [me][1..] == [];
  }

  lemma {:induction false} OfferNone(info: nat -> Info, l: seq<Me>, msgs: seq<nat>)
    requires LiveMds(l) == {}
    ensures OfferAll(info, l, msgs) == Offer(l, map[], msgs)
    decreases |msgs|
  {
    if msgs != [] {
      TakersAreLive(l, info(msgs[0]));
      ScanFinds(l, info(msgs[0]));
      OfferNone(info, l, msgs[1..]);
      assert msgs == [msgs[0]] + msgs[1..];
    }
  }

  lemma OfferStep(info: nat -> Info, l: seq<Me>, msgs: seq<nat>)
    requires msgs != []
    ensures var m, s := msgs[0], ScanList(l, info(msgs[0]));
            var r := OfferAll(info, s.rest, msgs[1..]);
            OfferAll(info, l, msgs) ==
            if s.hit.Some? then r.(taken := map[m := s.hit.value.ok] + r.taken) else r.(rest := [m] + r.rest)
  {
  }

  /** The sweep of a new MD past the blocked messages, with its early exits, is what would happen if each message in
      turn came in and walked a list with that MD alone on it. */
  lemma {:induction false} SweepIsOffer(info: nat -> Info, me: Me, md: Md, msgs: seq<nat>)
    ensures var r := SweepMsgs(info, me, md, msgs);
            OfferAll(info, [me.(md := Some(md))], msgs) == Offer(r.left, r.taken, r.rest)
    decreases |msgs|
  {
    var me1 := me.(md := Some(md));
    if msgs != [] {
      var m, i := msgs[0], info(msgs[0]);
      OfferStep(info, [me1], msgs);
      ScanOne(me1, i);
      match TryMatch(me, md, i) {
        case Miss(x) =>
          if x { TakersOne(me1, i); OfferNone(info, [me1], msgs); } else { SweepIsOffer(info, me, md, msgs[1..]); }
        case Drop => SweepIsOffer(info, me, md, msgs[1..]);
        case Ok(x) => SweepOkIsOffer(info, me, md, msgs);
      }
    }
  }

  lemma SweepOkIsOffer(info: nat -> Info, me: Me, md: Md, msgs: seq<nat>)
    requires msgs != [] && TryMatch(me, md, info(msgs[0])).Ok?
    ensures var r := SweepMsgs(info, me, md, msgs);
            OfferAll(info, [me.(md := Some(md))], msgs) == Offer(r.left, r.taken, r.rest)
    decreases |msgs|, 0
  {
    var me1, i := me.(md := Some(md)), info(msgs[0]);
    OfferStep(info, [me1], msgs);
    ScanOne(me1, i);
    assert Left(me1, md, i) == AfterOk(me, md, i);
    if Exhausted(Committed(md, i)) {
      TakersOne(me.(md := Some(Committed(md, i))), i);
      TakersOne(me.(md := None), i);
      OfferNone(info, AfterOk(me, md, i), msgs[1..]);
      assert map[msgs[0] := true] + map[] == map[msgs[0] := true];
    } else {
      SweepIsOffer(info, me, Committed(md, i), msgs[1..]);
    }
  }

  /** Attaching an MD serves the blocked messages as if each had come in after it: first those on the stealing list in
      order, then those on the delayed one.  Who is taken leaves its list, and is matched or dropped by that MD; what is
      left of the entry is in its place. */
  ghost predicate AttachIs(cfg: Cfg, s: State, s': State, c: nat)
    requires Shape(cfg, s) && c < cfg.n && s.hold[c].Attaching?
  {
    var me, h := NewMe(cfg, s, c), s.hold[c];
    var a := OfferAll(cfg.info, [me], s.stealing);
    var b := OfferAll(cfg.info, a.left, s.delayed);
    && s'.stealing == a.rest && s'.delayed == b.rest && s'.hold == s.hold[c := Free]
    && |s'.tabs| == |s.tabs| && (forall d :: 0 <= d < cfg.n && d != c ==> s'.tabs[d] == s.tabs[d])
    && s'.tabs[c].mhash == s.tabs[c].mhash[h.pos := s.tabs[c].mhash[h.pos][..h.k] + b.left +
                                                    s.tabs[c].mhash[h.pos][h.k + 1..]]
    && (forall m :: m in s'.got <==> m in s.got || (m in a.taken && a.taken[m]) || (m in b.taken && b.taken[m]))
    && (forall m :: m in s'.got && m !in s.got ==> s'.got[m] == me.md.value.id)
    && (forall m :: m in s'.phase <==> m in s.phase || m in b.taken)
    && (forall m :: m in s'.phase ==> s'.phase[m] == if m in b.taken then Done(b.taken[m]) else s.phase[m])
  }

  lemma BothAreOffers(cfg: Cfg, s: State, me: Me)
    requires me.md.Some?
    ensures var (x, y) := SweepBoth(cfg, s, me, me.md.value);
            var a := OfferAll(cfg.info, [me], s.stealing);
            && a == Offer(x.left, x.taken, x.rest)
            && OfferAll(cfg.info, a.left, s.delayed) == Offer(y.left, y.taken, y.rest)
  {
    var x := SweepMsgs(cfg.info, me, me.md.value, s.stealing);
    assert me.(md := Some(me.md.value)) == me;
    SweepIsOffer(cfg.info, me, me.md.value, s.stealing);
    if x.exhausted {
      SweepShrinks(cfg.info, me, me.md.value, s.stealing, Info(0, 0, 0, false, 0, 0));
      OfferNone(cfg.info, x.left, s.delayed);
    } else {
      var z := x.left[0];
      assert x.left == [z] && z.(md := Some(z.md.value)) == z;
      SweepIsOffer(cfg.info, z, z.md.value, s.delayed);
    }
  }

  lemma AttachServes(cfg: Cfg, s: State, c: nat)
    requires CfgOk(cfg) && Enabled(cfg, s, AttachLocked(c))
    ensures AttachIs(cfg, s, Apply(cfg, s, AttachLocked(c)), c)
  {
    var me := NewMe(cfg, s, c);
    var (x, y) := SweepBoth(cfg, s, me, me.md.value);
    BothAreOffers(cfg, s, me);
    LockedIsSwept(cfg, s, c);
    OksAre(s.got, x.taken, y.taken, me.md.value.id);
  }

  // ----- when a table is enabled -----

  /** A table counts as enabled only while one of its exhausted bits is clear. */
  ghost predicate OpenIsClear(cfg: Cfg, s: State) {
    cfg.n > 1 ==>
      forall c :: 0 <= c < |s.tabs| && s.tabs[c].enabled ==> s.kind == Wildcard && !AllSpent(s.tabs[c].spent)
  }

  lemma PutIsClear(cfg: Cfg, s: State, c: nat, m: nat)
    requires CfgOk(cfg) && Shape(cfg, s) && c < cfg.n && OpenIsClear(cfg, s)
    ensures OpenIsClear(cfg, PutFound(cfg, s, c, MatchAt(cfg, s, c, m)))
  {
    var info := cfg.info(m);
    MtMatchKeeps(s.kind == Wildcard, s.tabs[c], Head(cfg, s.kind, info.mbits, info.nid, info.pid), info, info);
  }

  lemma LockedIsClear(cfg: Cfg, s: State, c: nat)
    requires CfgOk(cfg) && Shape(cfg, s) && c < cfg.n && s.hold[c].Attaching? && OpenIsClear(cfg, s)
    ensures OpenIsClear(cfg, DoAttachLocked(cfg, s, c))
  {
    var t, t' := s.tabs[c], DoAttachLocked(cfg, s, c).tabs[c];
    assert (t'.spent == t.spent && t'.enabled == t.enabled) || !t'.spent[s.hold[c].pos];
  }

  lemma FirstIsClear(cfg: Cfg, s: State, m: nat, c: nat, first: nat, ready: bool)
    requires CfgOk(cfg) && Shape(cfg, s) && c < cfg.n && OpenIsClear(cfg, s)
    ensures OpenIsClear(cfg, DoMatchFirst(cfg, s, m, c, first, ready))
  {
    var s1 := PutFound(cfg, s, c, MatchAt(cfg, s, c, m));
    var s' := DoMatchFirst(cfg, s, m, c, first, ready);
    PutIsClear(cfg, s, c, m);
    assert s'.tabs == s1.tabs && s'.kind == s1.kind;
  }

  lemma VisitIsClear(cfg: Cfg, s: State, m: nat, first: nat, i: nat)
    requires CfgOk(cfg) && Shape(cfg, s) && first < cfg.n && i < cfg.n && OpenIsClear(cfg, s)
    ensures OpenIsClear(cfg, DoWalkVisit(cfg, s, m, first, i))
  {
    var c, s0 := Cpt(cfg, first, i), if i == 0 then s.(stealing := s.stealing + [m]) else s;
    var f := MatchAt(cfg, s0, c, m);
    PutIsClear(cfg, s0, c, m);
    VerdictTabs(cfg, PutFound(cfg, s0, c, f), f.hit, m, c, first, i);
  }

  lemma VerdictTabs(cfg: Cfg, s: State, hit: Option<Hit>, m: nat, c: nat, first: nat, i: nat)
    requires c < |s.hold|
    ensures var s' := WalkVerdict(cfg, s, hit, m, c, first, i); s'.tabs == s.tabs && s'.kind == s.kind
  {
  }

  /** The other steps touch neither the bits nor the flag of a table. */
  lemma OtherBits(cfg: Cfg, s: State, st: Step, d: nat)
    requires CfgOk(cfg) && Enabled(cfg, s, st) && !st.AttachLocked? && !st.MatchFirst? && !st.WalkVisit? && d < cfg.n
    ensures var s' := Apply(cfg, s, st);
            && |s'.tabs| == |s.tabs| && s'.tabs[d].spent == s.tabs[d].spent && s'.tabs[d].enabled == s.tabs[d].enabled
            && (s'.kind == s.kind || s.kind == Unset)
  {
    if !st.MeAttach? && !st.AttachBegin? && !st.MdUnlink? { SameTabs(cfg, s, st); }
  }

  lemma SameTabs(cfg: Cfg, s: State, st: Step)
    requires CfgOk(cfg) && Enabled(cfg, s, st) && !st.MeAttach? && !st.AttachBegin? && !st.MdUnlink?
    requires !st.AttachLocked? && !st.MatchFirst? && !st.WalkVisit?
    ensures Apply(cfg, s, st).tabs == s.tabs && (Apply(cfg, s, st).kind == s.kind || s.kind == Unset)
  {
  }

  lemma StepIsClear(cfg: Cfg, s: State, st: Step)
    requires CfgOk(cfg) && Enabled(cfg, s, st) && OpenIsClear(cfg, s)
    ensures OpenIsClear(cfg, Apply(cfg, s, st))
  {
    if st.AttachLocked? {
      LockedIsClear(cfg, s, st.c);
    } else if st.MatchFirst? {
      FirstIsClear(cfg, s, st.m, st.c, st.first, st.ready);
    } else if st.WalkVisit? {
      VisitIsClear(cfg, s, st.m, s.phase[st.m].first, s.phase[st.m].i);
    } else {
      OthersAreClear(cfg, s, st);
    }
  }

  lemma OthersAreClear(cfg: Cfg, s: State, st: Step)
    requires CfgOk(cfg) && Enabled(cfg, s, st) && OpenIsClear(cfg, s)
    requires !st.AttachLocked? && !st.MatchFirst? && !st.WalkVisit?
    ensures OpenIsClear(cfg, Apply(cfg, s, st))
  {
    var s' := Apply(cfg, s, st);
    OtherBits(cfg, s, st, 0);
    forall d | 0 <= d < |s'.tabs| && cfg.n > 1 && s'.tabs[d].enabled
      ensures s'.kind == Wildcard && !AllSpent(s'.tabs[d].spent)
    {
      OtherBits(cfg, s, st, d);
      assert s.tabs[d].enabled;
    }
  }

  lemma {:induction false} RunIsClear(cfg: Cfg, steps: seq<Step>, states: seq<State>, k: nat)
    requires CfgOk(cfg) && IsRun(cfg, steps, states) && k <= |steps|
    ensures OpenIsClear(cfg, states[k])
  {
    if k > 0 {
      RunIsClear(cfg, steps, states, k - 1);
      StepIsClear(cfg, states[k - 1], steps[k - 1]);
    }
  }

  /** In every run of a wildcard portal with several CPTs a table is enabled exactly while one of its 257 exhausted bits
      is clear: it is disabled at once when a match attempt sets the last, and enabled by the attach that clears one. */
  lemma EnabledIff(cfg: Cfg, steps: seq<Step>, states: seq<State>, k: nat, c: nat)
    requires CfgOk(cfg) && IsRun(cfg, steps, states) && k <= |steps| && c < cfg.n && cfg.n > 1
    requires states[k].kind == Wildcard
    ensures |states[k].tabs| == cfg.n && (states[k].tabs[c].enabled <==> !AllSpent(states[k].tabs[c].spent))
  {
    RunInv(cfg, steps, states, k);
    RunIsClear(cfg, steps, states, k);
  }

  // ----- entries come and go -----

  /** An ME comes to the head or the tail of one list, and an earlier entry keeps its claim on a message exactly if the
      new one does not come before it. */
  lemma AttachOrder(cfg: Cfg, s: State, c: nat, me: Me, front: bool, md: Md, info: Info)
    requires CfgOk(cfg) && Enabled(cfg, s, MeAttach(c, me, front))
    ensures var s', p := Apply(cfg, s, MeAttach(c, me, front)), HomePos(cfg, s.kind, me);
            && |s'.tabs| == |s.tabs| && TableShape(s'.tabs[c]) && p < NLISTS
            && var l, l' := s.tabs[c].mhash[p], s'.tabs[c].mhash[p];
            && |l'| == |l| + 1
            && var k := if front then 0 else |l|;
            && l'[k] == me && l'[..k] + l'[k + 1..] == l
            && var added := me.(md := Some(md));
            FirstTaker(l'[k := added], info) ==
            if Takes(added, info) && (front || FirstTaker(l, info).None?) then Some(added) else FirstTaker(l, info)
  {
    var l := s.tabs[c].mhash[HomePos(cfg, s.kind, me)];
    var added := me.(md := Some(md));
    TakerOfFirst(l, added, info);
    TakerOfLast(l, added, info);
    assert ([me] + l)[0 := added] == [added] + l && (l + [me])[|l| := added] == l + [added];
    assert (l + [me])[..|l|] == l;
  }

  lemma TakerOfFirst(l: seq<Me>, x: Me, info: Info)
    ensures FirstTaker([x] + l, info) == if Takes(x, info) then Some(x) else FirstTaker(l, info)
  {
    assert ([x] + l)[1..] == l;
  }

  lemma {:induction false} TakerOfLast(l: seq<Me>, x: Me, info: Info)
    ensures FirstTaker(l + [x], info) ==
            if FirstTaker(l, info).Some? then FirstTaker(l, info) else if Takes(x, info) then Some(x) else None
  {
    if l == [] {
      assert l + [x] == [x] && [x][1..] == [];
    } else {
      assert (l + [x])[1..] == l[1..] + [x];
      TakerOfLast(l[1..], x, info);
    }
  }

  /** Unlinking an MD takes it off its ME, and the ME off its list exactly if it was made with LNET_UNLINK; to every
      message the list is as if the entry were not there, and no other list and no message is touched. */
  lemma UnlinkIs(cfg: Cfg, s: State, c: nat, pos: nat, k: nat, info: Info)
    requires CfgOk(cfg) && Enabled(cfg, s, MdUnlink(c, pos, k))
    ensures var s', l := Apply(cfg, s, MdUnlink(c, pos, k)), s.tabs[c].mhash[pos];
            && |s'.tabs| == |s.tabs| && TableShape(s'.tabs[c])
            && (l[k].unlink ==> s'.tabs[c].mhash[pos] == l[..k] + l[k + 1..])
            && (!l[k].unlink ==> s'.tabs[c].mhash[pos] == l[k := l[k].(md := None)])
            && FirstTaker(s'.tabs[c].mhash[pos], info) == FirstTaker(l[..k] + l[k + 1..], info)
            && (forall p :: 0 <= p < NLISTS && p != pos ==> s'.tabs[c].mhash[p] == s.tabs[c].mhash[p])
            && (forall d :: 0 <= d < cfg.n && d != c ==> s'.tabs[d] == s.tabs[d])
            && s'.delayed == s.delayed && s'.stealing == s.stealing && s'.phase == s.phase && s'.got == s.got
  {
    var l := s.tabs[c].mhash[pos];
    assert l[..k] + [] + l[k + 1..] == l[..k] + l[k + 1..];
    assert l[..k] + [l[k].(md := None)] + l[k + 1..] == l[k := l[k].(md := None)];
    TakerSkips(l[..k], l[k].(md := None), l[k + 1..], info);
  }

  lemma {:induction false} TakerSkips(a: seq<Me>, x: Me, b: seq<Me>, info: Info)
    requires !Takes(x, info)
    ensures FirstTaker(a + [x] + b, info) == FirstTaker(a + b, info)
  {
    if a == [] {
      assert a + [x] + b == [x] + b && a + b == b;
      TakerOfFirst(b, x, info);
    } else {
      assert (a + [x] + b)[1..] == a[1..] + [x] + b && (a + b)[1..] == a[1..] + b;
      TakerSkips(a[1..], x, b, info);
    }
  }

  /** Clearing a portal drops the messages named from the delayed list and leaves the others in order; it stops being
      lazy exactly when it is cleared for all NIs, and then nobody is left to wait. */
  lemma ClearIs(cfg: Cfg, s: State, dropped: set<nat>, off: bool)
    requires CfgOk(cfg) && Reachable(cfg, s) && Enabled(cfg, s, ClearLazy(dropped, off))
    ensures var s' := Apply(cfg, s, ClearLazy(dropped, off));
            && s'.lazy == !off && (off ==> s'.delayed == [])
            && (forall m :: m in s'.delayed <==> m in s.delayed && m !in dropped)
            && InOrder(s.delayed, s'.delayed)
            && (forall m :: m in dropped ==> m in s'.phase && s'.phase[m] == Done(false) && m !in s'.got)
            && s'.stealing == s.stealing && s'.tabs == s.tabs
  {
    ReachInv(cfg, s);
    ClearedList(s.delayed, dropped);
    var s' := Apply(cfg, s, ClearLazy(dropped, off));
    assert s'.delayed != [] ==> s'.delayed[0] in s'.delayed;
  }

  lemma ClearedList(l: seq<nat>, dropped: set<nat>)
    requires NoDup(l)
    ensures InOrder(l, DropMsgs(l, dropped)) && forall x :: x in DropMsgs(l, dropped) <==> x in l && x !in dropped
  {
    DropMsgsOk(l, dropped);
    var r := DropMsgs(l, dropped);
    forall i, j | 0 <= i < j < |r| ensures Earlier(l, r[i], r[j]) { DropOrder(l, dropped, r, i, j); }
  }

  ghost predicate InOrder(l: seq<nat>, r: seq<nat>) {
    forall i, j :: 0 <= i < j < |r| ==> Earlier(l, r[i], r[j])
  }

  ghost predicate Earlier(l: seq<nat>, x: nat, y: nat) {
    exists i, j :: 0 <= i < j < |l| && l[i] == x && l[j] == y
  }

  lemma {:induction false} DropOrder(l: seq<nat>, d: set<nat>, r: seq<nat>, i: nat, j: nat)
    requires r == DropMsgs(l, d) && i < j < |r|
    ensures Earlier(l, r[i], r[j])
  {
    var t := DropMsgs(l[1..], d);
    if l[0] in d {
      DropOrder(l[1..], d, t, i, j);
      EarlierTail(l, r[i], r[j]);
    } else if i > 0 {
      DropOrder(l[1..], d, t, i - 1, j - 1);
      EarlierTail(l, r[i], r[j]);
    } else {
      var y := DroppedFrom(l[1..], d, j - 1);
      assert l[0] == r[0] && l[y + 1] == r[j];
    }
  }

  lemma {:induction false} DroppedFrom(l: seq<nat>, d: set<nat>, j: nat) returns (y: nat)
    requires j < |DropMsgs(l, d)|
    ensures y < |l| && l[y] == DropMsgs(l, d)[j]
  {
    y := 0;
    if l[0] in d {
      var x := DroppedFrom(l[1..], d, j);
      y := x + 1;
    } else if j > 0 {
      var x := DroppedFrom(l[1..], d, j - 1);
      y := x + 1;
    }
  }

  lemma EarlierTail(l: seq<nat>, x: nat, y: nat)
    requires l != [] && Earlier(l[1..], x, y)
    ensures Earlier(l, x, y)
  {
    var i, j :| 0 <= i < j < |l[1..]| && l[1..][i] == x && l[1..][j] == y;
    assert l[i + 1] == x && l[j + 1] == y;
  }
}
