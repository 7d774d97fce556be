/** What the portal promises over every run of the machine. */
module PortalTheorems {
  import opened Common
  import opened MatchTable
  import opened Portal
  import opened PortalInv
  import opened PortalSteps
  import opened PortalAttach

  lemma {:induction false} RunInv(cfg: Cfg, steps: seq<Step>, states: seq<State>, k: nat)
    requires CfgOk(cfg) && IsRun(cfg, steps, states) && k <= |steps|
    ensures Inv(cfg, states[k])
  {
    if k == 0 {
      InitInv(cfg);
    } else {
      RunInv(cfg, steps, states, k - 1);
      StepKeeps(cfg, states[k - 1], steps[k - 1]);
    }
  }

  lemma ReachStep(cfg: Cfg, s: State, st: Step)
    requires CfgOk(cfg) && Reachable(cfg, s) && Enabled(cfg, s, st)
    ensures Reachable(cfg, Apply(cfg, s, st))
  {
    var s' := Apply(cfg, s, st);
    var steps, states :| IsRun(cfg, steps, states) && s == states[|steps|];
    RunPlus(cfg, steps, states, st, s');
    assert s' == (states + [s'])[|steps + [st]|];
  }

  lemma RunPlus(cfg: Cfg, steps: seq<Step>, states: seq<State>, st: Step, s': State)
    requires CfgOk(cfg) && IsRun(cfg, steps, states)
    requires Enabled(cfg, states[|steps|], st) && s' == Apply(cfg, states[|steps|], st)
    ensures IsRun(cfg, steps + [st], states + [s'])
  {
    var steps', states' := steps + [st], states + [s'];
    forall k | 0 <= k < |steps'|
      ensures Enabled(cfg, states'[k], steps'[k]) && states'[k + 1] == Apply(cfg, states'[k], steps'[k])
    {
      if k < |steps| {
        assert steps'[k] == steps[k] && states'[k] == states[k] && states'[k + 1] == states[k + 1];
      }
    }
  }

  // ----- no missed match, and exactly when it fails -----

  /** Some attached MD of table c could take message m. */
  ghost predicate CouldTake(cfg: Cfg, s: State, m: nat, c: nat, p: nat, me: Me) {
    c < |s.tabs| && p < |s.tabs[c].mhash| && me in s.tabs[c].mhash[p] && Takes(me, cfg.info(m))
  }

  /** Message m stays delayed although an MD of table c could take it and no attach there will look again. */
  ghost predicate Missed(cfg: Cfg, s: State, m: nat, c: nat, p: nat, me: Me) {
    m in s.delayed && CouldTake(cfg, s, m, c, p, me) && c < |s.hold| && !s.hold[c].Attaching?
  }

  /** Step st is the look of MD id at c, and message m is between the lists at that moment. */
  ghost predicate Loses(cfg: Cfg, s: State, st: Step, m: nat, c: nat, id: nat) {
    st == AttachTest(c) && LostLook(cfg, s, c) && s.mover == Some(m) && NewMe(cfg, s, c).md.value.id == id
  }

  lemma VerdictRacy(cfg: Cfg, s: State, hit: Option<Hit>, m: nat, c: nat, first: nat, i: nat)
    requires c < |s.hold|
    ensures WalkVerdict(cfg, s, hit, m, c, first, i).racy == s.racy
  {
  }

  lemma VisitRacy(cfg: Cfg, s: State, m: nat, first: nat, i: nat)
    requires CfgOk(cfg) && Shape(cfg, s) && first < cfg.n && i < cfg.n
    ensures DoWalkVisit(cfg, s, m, first, i).racy == s.racy
  {
    var c := Cpt(cfg, first, i);
    var s0 := if i == 0 then s.(stealing := s.stealing + [m]) else s;
    var f := MatchAt(cfg, s0, c, m);
    VerdictRacy(cfg, PutFound(cfg, s0, c, f), f.hit, m, c, first, i);
  }

  lemma RacyGrows(cfg: Cfg, s: State, st: Step, m: nat, c: nat, id: nat)
    requires CfgOk(cfg) && Enabled(cfg, s, st) && (m, c, id) in Apply(cfg, s, st).racy
    ensures (m, c, id) in s.racy || Loses(cfg, s, st, m, c, id)
  {
    if st.WalkVisit? { VisitRacy(cfg, s, st.m, s.phase[st.m].first, s.phase[st.m].i); }
    else if st.MatchFirst? { FirstLeaves(cfg, s, st.m, st.c, st.first, st.ready); }
    else if st.AttachLocked? { LockedLeaves(cfg, s, st.c); }
  }

  lemma FirstLeaves(cfg: Cfg, s: State, m: nat, c: nat, first: nat, ready: bool)
    requires CfgOk(cfg) && Shape(cfg, s) && c < cfg.n
    ensures var s' := DoMatchFirst(cfg, s, m, c, first, ready); s'.racy == s.racy && s'.hold == s.hold
  {
  }

  lemma LockedLeaves(cfg: Cfg, s: State, c: nat)
    requires Shape(cfg, s) && c < cfg.n && s.hold[c].Attaching?
    ensures var s' := DoAttachLocked(cfg, s, c); s'.racy == s.racy && s'.hold == s.hold[c := Free]
  {
  }

  /** What a run does to racy. */
  ghost predicate RacyRun(cfg: Cfg, steps: seq<Step>, states: seq<State>) {
    && |states| == |steps| + 1 && states[0].racy == {}
    && forall k, m, c, id :: 0 <= k < |steps| && (m, c, id) in states[k + 1].racy ==>
         (m, c, id) in states[k].racy || Loses(cfg, states[k], steps[k], m, c, id)
  }

  lemma RunIsRacyRun(cfg: Cfg, steps: seq<Step>, states: seq<State>)
    requires CfgOk(cfg) && IsRun(cfg, steps, states)
    ensures RacyRun(cfg, steps, states)
  {
    forall k, m, c, id | 0 <= k < |steps| && (m, c, id) in states[k + 1].racy
      ensures (m, c, id) in states[k].racy || Loses(cfg, states[k], steps[k], m, c, id)
    {
      RacyGrows(cfg, states[k], steps[k], m, c, id);
    }
  }

  lemma {:induction false} RacyFrom(cfg: Cfg, steps: seq<Step>, states: seq<State>, k: nat, m: nat, c: nat, id: nat)
    returns (j: nat)
    requires RacyRun(cfg, steps, states) && k <= |steps| && (m, c, id) in states[k].racy
    ensures j < k && Loses(cfg, states[j], steps[j], m, c, id)
  {
    j := k - 1;
    if (m, c, id) in states[k - 1].racy {
      j := RacyFrom(cfg, steps, states, k - 1, m, c, id);
    }
  }

  /** A message is missed by one kind of event only: some step j of the run was the unlocked look of that very MD, it
      saw both lists empty, and this very message was between them. */
  lemma MissedOnlyByRace(cfg: Cfg, steps: seq<Step>, states: seq<State>, k: nat, m: nat, c: nat, p: nat, me: Me)
    returns (j: nat)
    requires CfgOk(cfg) && IsRun(cfg, steps, states) && k <= |steps| && Missed(cfg, states[k], m, c, p, me)
    ensures j < k && Loses(cfg, states[j], steps[j], m, c, me.md.value.id)
  {
    var s := states[k];
    RunInv(cfg, steps, states, k);
    assert s.phase[m].Parked?;
    assert TakersWithin(Settled(cfg, s, c), cfg.info(m), RacyOf(s, m, c));
    assert me.md.value.id in Takers(s.tabs[c].mhash[p], cfg.info(m));
    RunIsRacyRun(cfg, steps, states);
    j := RacyFrom(cfg, steps, states, k, m, c, me.md.value.id);
  }

  /** No look of the first k steps is lost.  A look inside a move is harmless if its MD does not take the message. */
  ghost predicate NoLostLook(cfg: Cfg, steps: seq<Step>, states: seq<State>, k: nat) {
    forall j :: 0 <= j < k && j < |steps| && j < |states| && steps[j].AttachTest? ==>
      !LostLook(cfg, states[j], steps[j].c)
  }

  /** No missed match: if no look was lost, no delayed message could be taken by an attached, non-exhausted MD, whatever
      the interleaving. */
  lemma NoMissedMatch(cfg: Cfg, steps: seq<Step>, states: seq<State>, k: nat)
    requires CfgOk(cfg) && IsRun(cfg, steps, states) && k <= |steps| && NoLostLook(cfg, steps, states, k)
    ensures forall m, c, p, me :: !Missed(cfg, states[k], m, c, p, me)
  {
    forall m, c, p, me | Missed(cfg, states[k], m, c, p, me) ensures false {
      var j := MissedOnlyByRace(cfg, steps, states, k, m, c, p, me);
    }
  }

  /** The converse, for every reachable state with a message between the lists: once the move has ended, the message
      is missed exactly if the look was a lost one. */
  lemma LookLoses(cfg: Cfg, s: State, c: nat, d: nat)
    requires CfgOk(cfg) && Reachable(cfg, s) && Enabled(cfg, s, AttachTest(c))
    requires s.mover.Some? && d < cfg.n && s.hold[d].Moving?
    ensures var s1 := Apply(cfg, s, AttachTest(c));
            && Enabled(cfg, s1, MoveEnd(d))
            && var s2 := Apply(cfg, s1, MoveEnd(d));
            && Reachable(cfg, s2) && s.mover.value in s2.delayed
            && (Missed(cfg, s2, s.mover.value, c, s.hold[c].pos, NewMe(cfg, s, c)) <==> LostLook(cfg, s, c))
  {
    var s1 := DoAttachTest(cfg, s, c);
    LookThenEnd(cfg, s, c, d);
    ReachStep(cfg, s, AttachTest(c));
    ReachStep(cfg, s1, MoveEnd(d));
  }

  lemma LookThenEnd(cfg: Cfg, s: State, c: nat, d: nat)
    requires Shape(cfg, s) && c < cfg.n && s.hold[c].Attaching? && s.mover.Some? && d < cfg.n && s.hold[d].Moving?
    ensures var s1 := DoAttachTest(cfg, s, c);
            && Shape(cfg, s1) && s1.mover == s.mover && s1.hold[d].Moving?
            && var s2 := DoMoveEnd(s1, d);
            && s.mover.value in s2.delayed
            && (Missed(cfg, s2, s.mover.value, c, s.hold[c].pos, NewMe(cfg, s, c)) <==> LostLook(cfg, s, c))
  {
    assert DoAttachTest(cfg, s, c).tabs == s.tabs;
  }

  /** A message between the lists is carried by a thread that holds a resource lock. */
  ghost predicate Carried(s: State) {
    s.mover.Some? ==> exists d :: 0 <= d < |s.hold| && s.hold[d].Moving?
  }

  lemma VerdictCarried(cfg: Cfg, s: State, hit: Option<Hit>, m: nat, c: nat, first: nat, i: nat)
    requires c < |s.hold| && s.mover.None?
    ensures Carried(WalkVerdict(cfg, s, hit, m, c, first, i))
  {
    assert s.hold[c := Moving][c].Moving?;
  }

  lemma VisitCarried(cfg: Cfg, s: State, m: nat, first: nat, i: nat)
    requires CfgOk(cfg) && Shape(cfg, s) && first < cfg.n && i < cfg.n && s.mover.None?
    ensures Carried(DoWalkVisit(cfg, s, m, first, i))
  {
    var c := Cpt(cfg, first, i);
    var s0 := if i == 0 then s.(stealing := s.stealing + [m]) else s;
    var f := MatchAt(cfg, s0, c, m);
    VerdictCarried(cfg, PutFound(cfg, s0, c, f), f.hit, m, c, first, i);
  }

  lemma StepCarried(cfg: Cfg, s: State, st: Step)
    requires CfgOk(cfg) && Enabled(cfg, s, st) && Carried(s)
    ensures Carried(Apply(cfg, s, st))
  {
    if st.WalkVisit? {
      VisitCarried(cfg, s, st.m, s.phase[st.m].first, s.phase[st.m].i);
    } else if s.mover.Some? && !st.MoveEnd? {
      var d :| 0 <= d < |s.hold| && s.hold[d].Moving?;
      StillMoving(cfg, s, st, d);
    }
  }

  lemma StillMoving(cfg: Cfg, s: State, st: Step, d: nat)
    requires CfgOk(cfg) && Enabled(cfg, s, st) && !st.WalkVisit? && !st.MoveEnd? && d < |s.hold| && s.hold[d].Moving?
    ensures d < |Apply(cfg, s, st).hold| && Apply(cfg, s, st).hold[d].Moving?
  {
    if st.MatchFirst? { FirstLeaves(cfg, s, st.m, st.c, st.first, st.ready); }
    else if st.AttachLocked? { LockedLeaves(cfg, s, st.c); }
  }

  lemma {:induction false} RunCarried(cfg: Cfg, steps: seq<Step>, states: seq<State>, k: nat)
    requires CfgOk(cfg) && IsRun(cfg, steps, states) && k <= |steps|
    ensures Carried(states[k])
  {
    if k > 0 {
      RunCarried(cfg, steps, states, k - 1);
      StepCarried(cfg, states[k - 1], steps[k - 1]);
    }
  }

  /** The exact condition: a match can be missed if and only if a look can be lost. */
  lemma MissedIff(cfg: Cfg)
    requires CfgOk(cfg)
    ensures (exists s, m, c, p, me :: Reachable(cfg, s) && Missed(cfg, s, m, c, p, me)) <==>
            (exists s, c :: Reachable(cfg, s) && Enabled(cfg, s, AttachTest(c)) && LostLook(cfg, s, c))
  {
    if s, m, c, p, me :| Reachable(cfg, s) && Missed(cfg, s, m, c, p, me) {
      var s0 := BeforeMiss(cfg, s, m, c, p, me);
    }
    if s, c :| Reachable(cfg, s) && Enabled(cfg, s, AttachTest(c)) && LostLook(cfg, s, c) {
      var s2 := AfterLook(cfg, s, c);
    }
  }

  lemma BeforeMiss(cfg: Cfg, s: State, m: nat, c: nat, p: nat, me: Me) returns (s0: State)
    requires CfgOk(cfg) && Reachable(cfg, s) && Missed(cfg, s, m, c, p, me)
    ensures Reachable(cfg, s0) && Enabled(cfg, s0, AttachTest(c)) && LostLook(cfg, s0, c)
  {
    var steps, states :| IsRun(cfg, steps, states) && s == states[|steps|];
    var j := MissedOnlyByRace(cfg, steps, states, |steps|, m, c, p, me);
    ReachPrefix(cfg, steps, states, j);
    s0 := states[j];
  }

  lemma AfterLook(cfg: Cfg, s: State, c: nat) returns (s2: State)
    requires CfgOk(cfg) && Reachable(cfg, s) && Enabled(cfg, s, AttachTest(c)) && LostLook(cfg, s, c)
    ensures Reachable(cfg, s2) && Missed(cfg, s2, s.mover.value, c, s.hold[c].pos, NewMe(cfg, s, c))
  {
    var steps, states :| IsRun(cfg, steps, states) && s == states[|steps|];
    RunCarried(cfg, steps, states, |steps|);
    var d :| 0 <= d < |s.hold| && s.hold[d].Moving?;
    LookLoses(cfg, s, c, d);
    s2 := Apply(cfg, Apply(cfg, s, AttachTest(c)), MoveEnd(d));
  }

  lemma ReachPrefix(cfg: Cfg, steps: seq<Step>, states: seq<State>, k: nat)
    requires CfgOk(cfg) && IsRun(cfg, steps, states) && k <= |steps|
    ensures Reachable(cfg, states[k])
  {
    assert IsRun(cfg, steps[..k], states[..k + 1]) && states[k] == states[..k + 1][|steps[..k]|];
  }

  /** ptl_mt_maps is strictly ascending and lists exactly the enabled tables. */
  lemma MapsAreEnabled(cfg: Cfg, steps: seq<Step>, states: seq<State>, k: nat)
    requires CfgOk(cfg) && IsRun(cfg, steps, states) && k <= |steps|
    ensures Ascending(states[k].maps) && |states[k].tabs| == cfg.n
    ensures forall c :: 0 <= c < cfg.n ==> (c in states[k].maps <==> states[k].tabs[c].enabled)
    ensures forall c :: c in states[k].maps ==> c < cfg.n
  {
    RunInv(cfg, steps, states, k);
  }

  /** A disabled table of a wildcard portal holds no MD that could still match, outside an attach in
      progress: this is what lets a walker skip it. */
  lemma DisabledHoldsNothing(cfg: Cfg, steps: seq<Step>, states: seq<State>, k: nat, c: nat, p: nat)
    requires CfgOk(cfg) && IsRun(cfg, steps, states) && k <= |steps| && c < cfg.n && p < NLISTS
    requires c < |states[k].tabs| && c < |states[k].hold| && p < |states[k].tabs[c].mhash|
    requires states[k].kind == Wildcard && !states[k].tabs[c].enabled && !states[k].hold[c].Attaching?
    ensures LiveMds(states[k].tabs[c].mhash[p]) == {}
  {
    RunInv(cfg, steps, states, k);
    assert SpentHonest(Settled(cfg, states[k], c));
  }

  // ----- exactly one outcome per message -----

  /** The messages whose phase or MD a step may set. */
  predicate MaySet(s: State, st: Step, m: nat) {
    match st
    case MatchEarly(x, _) => m == x
    case MatchFirst(x, _, _, _) => m == x
    case WalkPeek(x) => m == x
    case WalkVisit(x) => m == x
    case MoveEnd(_) => s.mover == Some(m)
    case AttachLocked(_) => m in s.delayed || m in s.stealing
    case ClearLazy(_, _) => m in s.delayed
    case _ => false
  }

  ghost predicate SameFor(s: State, s': State, m: nat) {
    && (m in s'.phase <==> m in s.phase) && (m in s.phase ==> s'.phase[m] == s.phase[m])
    && (m in s'.got <==> m in s.got) && (m in s.got ==> s'.got[m] == s.got[m])
  }

  lemma LockedFrame(cfg: Cfg, s: State, c: nat, m: nat)
    requires Shape(cfg, s) && NoDup(s.stealing) && NoDup(s.delayed) && c < cfg.n && s.hold[c].Attaching?
    ensures m !in s.delayed && m !in s.stealing ==> SameFor(s, DoAttachLocked(cfg, s, c), m)
    ensures m !in s.delayed ==> (m in DoAttachLocked(cfg, s, c).phase <==> m in s.phase)
    ensures m !in s.delayed && m in s.phase ==> DoAttachLocked(cfg, s, c).phase[m] == s.phase[m]
  {
    var me := s.tabs[c].mhash[s.hold[c].pos][s.hold[c].k];
    SweepBothSplits(cfg, s, me, me.md.value);
    var (a, b) := SweepBoth(cfg, s, me, me.md.value);
    TakenFrame(s, DoAttachLocked(cfg, s, c), a, b, me.md.value.id, m);
  }

  lemma TakenFrame(s: State, s': State, a: Sweep, b: Sweep, id: nat, m: nat)
    requires s'.phase == s.phase + Dones(b.taken) && s'.got == s.got + Oks(a.taken, id) + Oks(b.taken, id)
    ensures m !in a.taken && m !in b.taken ==> SameFor(s, s', m)
    ensures m !in b.taken ==> (m in s'.phase <==> m in s.phase) && (m in s.phase ==> s'.phase[m] == s.phase[m])
  {
  }

  lemma VerdictFrame(cfg: Cfg, s: State, hit: Option<Hit>, x: nat, c: nat, first: nat, i: nat, m: nat)
    requires c < |s.hold| && m != x
    ensures SameFor(s, WalkVerdict(cfg, s, hit, x, c, first, i), m)
  {
  }

  lemma WalkFrame(cfg: Cfg, s: State, x: nat, m: nat)
    requires CfgOk(cfg) && Shape(cfg, s) && Walks(cfg, s, x) && m != x
    ensures SameFor(s, DoWalkVisit(cfg, s, x, s.phase[x].first, s.phase[x].i), m)
  {
    var c := Cpt(cfg, s.phase[x].first, s.phase[x].i);
    var s0 := if s.phase[x].i == 0 then s.(stealing := s.stealing + [x]) else s;
    var f := MatchAt(cfg, s0, c, x);
    VerdictFrame(cfg, PutFound(cfg, s0, c, f), f.hit, x, c, s.phase[x].first, s.phase[x].i, m);
  }

  lemma FirstFrame(cfg: Cfg, s: State, x: nat, c: nat, first: nat, ready: bool, m: nat)
    requires CfgOk(cfg) && Enabled(cfg, s, MatchFirst(x, c, first, ready)) && m != x
    ensures SameFor(s, DoMatchFirst(cfg, s, x, c, first, ready), m)
  {
  }

  /** A step leaves alone the messages it does not speak about. */
  lemma StepFrame(cfg: Cfg, s: State, st: Step, m: nat)
    requires CfgOk(cfg) && NoDup(s.stealing) && NoDup(s.delayed) && Enabled(cfg, s, st) && !MaySet(s, st, m)
    ensures SameFor(s, Apply(cfg, s, st), m)
  {
    if st.AttachLocked? { LockedFrame(cfg, s, st.c, m); }
    else if st.WalkVisit? { WalkFrame(cfg, s, st.m, m); }
    else if st.MatchFirst? { FirstFrame(cfg, s, st.m, st.c, st.first, st.ready, m); }
  }

  lemma StepIsFinal(cfg: Cfg, s: State, st: Step, m: nat)
    requires CfgOk(cfg) && NoDup(s.stealing) && NoDup(s.delayed) && Enabled(cfg, s, st)
    requires m in s.phase && s.phase[m].Done?
    requires m !in s.delayed && m !in s.stealing && s.mover != Some(m)
    ensures SameFor(s, Apply(cfg, s, st), m)
  {
    StepFrame(cfg, s, st, m);
  }

  /** A message with a verdict is on no list, and was matched exactly if it has an MD. */
  lemma DoneIsOff(cfg: Cfg, steps: seq<Step>, states: seq<State>, k: nat, m: nat)
    requires CfgOk(cfg) && IsRun(cfg, steps, states) && k <= |steps|
    requires m in states[k].phase && states[k].phase[m].Done?
    ensures m !in states[k].delayed && m !in states[k].stealing && states[k].mover != Some(m)
    ensures NoDup(states[k].stealing) && NoDup(states[k].delayed)
    ensures states[k].phase[m].ok <==> m in states[k].got
  {
    RunInv(cfg, steps, states, k);
  }

  /** A message is in one place at a time: on the stealing list while it walks, on the delayed list exactly while it is
      parked, never twice, and never with an MD while it is on a list. */
  lemma OnePlace(cfg: Cfg, steps: seq<Step>, states: seq<State>, k: nat, m: nat)
    requires CfgOk(cfg) && IsRun(cfg, steps, states) && k <= |steps|
    ensures var s := states[k];
            && NoDup(s.stealing) && NoDup(s.delayed)
            && (m in s.delayed <==> m in s.phase && s.phase[m] == Parked)
            && (m in s.stealing ==> m in s.phase && s.phase[m].Walking? && m !in s.delayed)
            && (m in s.stealing || m in s.delayed ==> m !in s.got && s.mover != Some(m))
  {
    RunInv(cfg, steps, states, k);
  }

  /** Each message gets at most one verdict over a whole run: once it is matched or dropped, its verdict and
      its MD stay what they are. */
  lemma {:induction false} OneOutcome(cfg: Cfg, steps: seq<Step>, states: seq<State>, j: nat, k: nat, m: nat)
    requires CfgOk(cfg) && IsRun(cfg, steps, states) && j <= k <= |steps|
    requires m in states[j].phase && states[j].phase[m].Done?
    ensures SameFor(states[j], states[k], m)
    decreases k
  {
    if j < k {
      OneOutcome(cfg, steps, states, j, k - 1, m);
      DoneIsOff(cfg, steps, states, k - 1, m);
      StepIsFinal(cfg, states[k - 1], steps[k - 1], m);
    }
  }

  /** Iterations of lnet_ptl_match_delay still to come for a walker. */
  function WalkLeft(cfg: Cfg, s: State, m: nat): nat {
    if Walks(cfg, s, m) then 2 * (cfg.n - s.phase[m].i) - (if s.phase[m].go then 1 else 0) else 0
  }

  /** Nobody but its own thread moves a walker. */
  lemma WalkerAlone(cfg: Cfg, s: State, st: Step, m: nat)
    requires CfgOk(cfg) && ListsOk(cfg, s) && Enabled(cfg, s, st) && Walks(cfg, s, m)
    requires st != WalkPeek(m) && st != WalkVisit(m)
    ensures m in Apply(cfg, s, st).phase && Apply(cfg, s, st).phase[m] == s.phase[m]
  {
    assert m !in s.delayed && s.mover != Some(m);
    if st.AttachLocked? { LockedFrame(cfg, s, st.c, m); } else { StepFrame(cfg, s, st, m); }
  }

  lemma VerdictTotal(cfg: Cfg, s: State, hit: Option<Hit>, m: nat, c: nat, first: nat, i: nat)
    requires c < |s.hold| && first < cfg.n && i < cfg.n && m in s.phase
    ensures var s' := WalkVerdict(cfg, s, hit, m, c, first, i);
            && m in s'.phase
            && (s'.phase[m].Done? || s'.phase[m].Parking? ||
                (s'.phase[m] == Walking(first, i + 1, false) && i < cfg.n - 1))
  {
  }

  /** The walk is total: each of its steps ends it with a verdict (matched, dropped or parked) or brings its
      end nearer, so it cannot run out of CPTs without one, also when another thread takes the message. */
  lemma WalkTotal(cfg: Cfg, s: State, m: nat)
    requires CfgOk(cfg) && Shape(cfg, s) && Walks(cfg, s, m)
    ensures !s.phase[m].go ==>
              && Enabled(cfg, s, WalkPeek(m)) && Apply(cfg, s, WalkPeek(m)).phase[m].Walking?
              && WalkLeft(cfg, Apply(cfg, s, WalkPeek(m)), m) < WalkLeft(cfg, s, m)
    ensures s.phase[m].go ==>
              var s' := DoWalkVisit(cfg, s, m, s.phase[m].first, s.phase[m].i);
              && m in s'.phase && WalkLeft(cfg, s', m) < WalkLeft(cfg, s, m)
              && (s'.phase[m].Done? || s'.phase[m].Parking? || (s'.phase[m].Walking? && s.phase[m].i < cfg.n - 1))
  {
    if s.phase[m].go { VisitTotal(cfg, s, m); } else { assert Enabled(cfg, s, WalkPeek(m)); }
  }

  lemma VisitTotal(cfg: Cfg, s: State, m: nat)
    requires CfgOk(cfg) && Shape(cfg, s) && Walks(cfg, s, m)
    ensures var s' := DoWalkVisit(cfg, s, m, s.phase[m].first, s.phase[m].i);
            && m in s'.phase
            && (s'.phase[m].Done? || s'.phase[m].Parking? ||
                (s'.phase[m] == Walking(s.phase[m].first, s.phase[m].i + 1, false) && s.phase[m].i < cfg.n - 1))
  {
    var first, i := s.phase[m].first, s.phase[m].i;
    var c := Cpt(cfg, first, i);
    var s0 := if i == 0 then s.(stealing := s.stealing + [m]) else s;
    var f := MatchAt(cfg, s0, c, m);
    VerdictTotal(cfg, PutFound(cfg, s0, c, f), f.hit, m, c, first, i);
  }

  /** Locked and skipped iterations of m's walk so far. */
  function OwnSteps(steps: seq<Step>, m: nat): nat {
    if steps == [] then 0
    else OwnSteps(steps[..|steps| - 1], m) +
         (if steps[|steps| - 1] == WalkPeek(m) || steps[|steps| - 1] == WalkVisit(m) then 1 else 0)
  }

  lemma WalkBudget(cfg: Cfg, s: State, st: Step, m: nat)
    requires CfgOk(cfg) && Inv(cfg, s) && Enabled(cfg, s, st)
    ensures var s' := Apply(cfg, s, st);
            var own := if st == WalkPeek(m) || st == WalkVisit(m) then 1 else 0;
            && (m in s.phase ==> m in s'.phase && own + WalkLeft(cfg, s', m) <= WalkLeft(cfg, s, m))
            && (m !in s.phase ==> own == 0 && WalkLeft(cfg, s', m) < 2 * cfg.n)
  {
    if m in s.phase && s.phase[m].Walking? {
      if st == WalkPeek(m) || st == WalkVisit(m) { WalkTotal(cfg, s, m); } else { WalkerAlone(cfg, s, st, m); }
    } else {
      NotWalking(cfg, s, st, m);
    }
  }

  lemma NotWalking(cfg: Cfg, s: State, st: Step, m: nat)
    requires CfgOk(cfg) && ListsOk(cfg, s) && Enabled(cfg, s, st) && !(m in s.phase && s.phase[m].Walking?)
    ensures m in s.phase ==> m in Apply(cfg, s, st).phase && !Apply(cfg, s, st).phase[m].Walking?
    ensures m !in s.phase ==> WalkLeft(cfg, Apply(cfg, s, st), m) < 2 * cfg.n
  {
    if !MaySet(s, st, m) { StepFrame(cfg, s, st, m); }
    else if st.AttachLocked? {
      var me := s.tabs[st.c].mhash[s.hold[st.c].pos][s.hold[st.c].k];
      SweepBothSplits(cfg, s, me, me.md.value);
    }
  }

  /** lnet_ptl_match_delay ends: over a whole run a message makes fewer than 2N iterations. */
  lemma {:induction false} WalkEnds(cfg: Cfg, steps: seq<Step>, states: seq<State>, m: nat)
    requires CfgOk(cfg) && IsRun(cfg, steps, states)
    ensures m in states[|steps|].phase ==> OwnSteps(steps, m) + WalkLeft(cfg, states[|steps|], m) < 2 * cfg.n
    ensures m !in states[|steps|].phase ==> OwnSteps(steps, m) == 0
    decreases |steps|
  {
    if steps != [] {
      var n := |steps| - 1;
      assert IsRun(cfg, steps[..n], states[..n + 1]);
      WalkEnds(cfg, steps[..n], states[..n + 1], m);
      RunInv(cfg, steps, states, n);
      WalkBudget(cfg, states[n], steps[n], m);
    }
  }
}
