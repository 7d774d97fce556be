/**
  The lost look of MissedIff is real: a run of the two-CPT machine in which the unlocked look of an attach falls
  between the two halves of a move, and the message stays delayed although the new MD could take it.

  Both tables get an entry with an MD for node 9, which keeps them enabled and never takes the message of node 1.
  Table 0 also gets an open entry without an MD.  Message 0 tries table 0, walks to table 1, and is taken off the
  stealing list because table 1 is the last.  Now an MD is attached to the open entry: the unlocked look sees both lists
  empty and the attach is over.  Then the message is put on the delayed list.  Each lemma below is one of these steps,
  with the state before and after it.
 */
module PortalRace {
  import opened Common
  import opened MatchTable
  import opened Portal
  import opened PortalTheorems

  const PUT := Info(1, 1, 0, false, 8, 0)

  /** Two CPTs, and message 0 is that PUT. */
  ghost predicate Two(cfg: Cfg) {
    CfgOk(cfg) && cfg.n == 2 && cfg.info(0) == PUT
  }

  function Buffer(id: nat): Md {
    Md(id, true, false, false, false, false, false, 0, 64, 0, 1, 0)
  }

  /** An entry for node 9 only: it keeps its table enabled without ever taking the message from node 1. */
  const OTHER := Me(Only(9), Any, 0, 1, false, None)
  const OPEN := Me(Any, Any, 0, 1, false, None)

  function With(me: Me, id: nat): Me {
    me.(md := Some(Buffer(id)))
  }

  /** A table with only list l on it; live: its exhausted bit is clear and the table is enabled. */
  function Tab(l: seq<Me>, live: bool): Table {
    Table(seq(NLISTS, p => [])[IGNORE_LIST := l], seq(NLISTS, p => true)[IGNORE_LIST := !live], live)
  }

  function Put(s: State, c: nat, l: seq<Me>, live: bool): State
    requires c < |s.tabs|
  {
    s.(tabs := s.tabs[c := Tab(l, live)])
  }

  lemma PutTab(l: seq<Me>, live: bool, l': seq<Me>, live': bool)
    ensures TableShape(Tab(l, live))
    ensures Tab(l, live).mhash[IGNORE_LIST := l'] == Tab(l', live).mhash
    ensures Tab(l, live).spent[IGNORE_LIST := !live'] == Tab(l, live').spent
  {
  }

  lemma Started(cfg: Cfg) returns (s: State)
    requires Two(cfg)
    ensures Reachable(cfg, s)
    ensures s == State(Wildcard, true, [Tab([], false), Tab([], false)], [Free, Free], [], [], [], None, map[], map[],
                       {}, {})
  {
    var s0 := Init(cfg);
    var none: seq<Step> := [];
    assert IsRun(cfg, none, [s0]) && s0 == [s0][|none|];
    var s1 := s0.(lazy := true);
    ReachStep(cfg, s0, SetLazy);
    s := s1.(kind := Wildcard);
    ReachStep(cfg, s1, SetKind(false));
    assert Tab([], false).mhash == seq(NLISTS, p => []);
    assert Tab([], false).spent == seq(NLISTS, p => true);
    assert s.tabs == [Tab([], false), Tab([], false)];
  }

  /** An ME is appended to the ignore list of table c. */
  lemma AddMe(cfg: Cfg, s: State, c: nat, l: seq<Me>, live: bool, me: Me)
    requires Two(cfg) && Reachable(cfg, s) && Shape(cfg, s) && c < 2 && s.hold[c] == Free && s.tabs[c] == Tab(l, live)
    requires s.kind == Wildcard && me.ignore == 1 && me.md == None
    ensures Reachable(cfg, Put(s, c, l + [me], live))
  {
    PutTab(l, live, l + [me], live);
    assert DoMeAttach(cfg, s, c, me, false) == Put(s, c, l + [me], live);
    ReachStep(cfg, s, MeAttach(c, me, false));
  }

  /** The state once an MD is put into the last ME of that list: the attach is in progress. */
  function Begun(s: State, c: nat, l: seq<Me>, live: bool, me: Me, id: nat): State
    requires c < |s.tabs| && c < |s.hold|
  {
    Put(s, c, l + [With(me, id)], live).(hold := s.hold[c := Attaching(IGNORE_LIST, |l|, false)], born := s.born + {id})
  }

  lemma Begin(cfg: Cfg, s: State, c: nat, l: seq<Me>, live: bool, me: Me, id: nat)
    requires Two(cfg) && Reachable(cfg, s) && Shape(cfg, s) && c < 2 && s.hold[c] == Free
    requires s.tabs[c] == Tab(l + [me], live) && me.md == None && id !in s.born
    ensures Reachable(cfg, Begun(s, c, l, live, me, id))
  {
    PutTab(l + [me], live, l + [With(me, id)], live);
    assert (l + [me])[..|l|] + [With(me, id)] + (l + [me])[|l| + 1..] == l + [With(me, id)];
    assert SetMe(s.tabs[c], IGNORE_LIST, |l|, [With(me, id)]) == Tab(l + [With(me, id)], live);
    ReachStep(cfg, s, AttachBegin(c, IGNORE_LIST, |l|, Buffer(id)));
  }

  /** With the bit set, the attach takes the lock, finds no blocked message and enables the table. */
  lemma Locked(cfg: Cfg, s: State, c: nat, me: Me)
    requires Two(cfg) && Shape(cfg, s) && c < 2 && s.hold[c] == Attaching(IGNORE_LIST, 0, true)
    requires s.tabs[c] == Tab([me], false) && me.md.Some? && s.kind == Wildcard
    requires s.stealing == [] && s.delayed == [] && s.mover == None && s.phase == map[] && s.got == map[]
    ensures DoAttachLocked(cfg, s, c) == Put(s, c, [me], true).(maps := Insert(s.maps, c), hold := s.hold[c := Free])
  {
    PutTab([me], false, [me], true);
    assert me.(md := Some(me.md.value)) == me;
    assert [me][..0] + [me] + [me][1..] == [me];
    assert SetMe(s.tabs[c], IGNORE_LIST, 0, [me]).mhash == Tab([me], true).mhash;
    assert SweepBoth(cfg, s, me, me.md.value).1 == Sweep([me], map[], [], false);
  }

  /** A table whose only MD waits for node 9 refuses the message and stays as it is. */
  lemma Refused(id: nat, l: seq<Me>)
    requires l == [With(OTHER, id)] || l == [With(OTHER, id), OPEN]
    ensures TableShape(Tab(l, true))
    ensures MtMatch(true, Tab(l, true), 0, PUT) == Found(None, Tab(l, true), false)
  {
    var t := Tab(l, true);
    var tail := l[1..];
    assert tail == [] || tail == [OPEN];
    assert ScanList(tail, PUT) == Scan(None, tail, true) by {
      if tail != [] { assert tail[1..] == []; assert [OPEN] + [] == tail; }
    }
    assert [l[0]] + tail == l;
    assert ScanList(l, PUT) == Scan(None, l, false);
    assert t.mhash[0] == [] && ScanList(t.mhash[0], PUT) == Scan(None, [], true);
    assert t.spent[0 := true] == t.spent && !t.spent[IGNORE_LIST];
  }

  lemma MatchAtRefused(cfg: Cfg, s: State, c: nat, id: nat, l: seq<Me>)
    requires Two(cfg) && Shape(cfg, s) && c < 2 && s.kind == Wildcard && s.tabs[c] == Tab(l, true)
    requires l == [With(OTHER, id)] || l == [With(OTHER, id), OPEN]
    ensures MatchAt(cfg, s, c, 0) == Found(None, s.tabs[c], false)
    ensures PutFound(cfg, s, c, MatchAt(cfg, s, c, 0)) == s
  {
    Refused(id, l);
    assert Bucket(0) == 0;
    assert s.tabs[c := s.tabs[c]] == s.tabs;
  }

  predicate Ready(cfg: Cfg, s: State) {
    && Shape(cfg, s) && s.kind == Wildcard && s.lazy && s.hold == [Free, Free] && s.maps == [0, 1]
    && s.tabs == [Tab([With(OTHER, 10), OPEN], true), Tab([With(OTHER, 11)], true)]
    && s.delayed == [] && s.mover == None
  }

  /** Message 0 is refused by table 0 and starts to walk there. */
  lemma Arrive(cfg: Cfg, s: State)
    requires Two(cfg) && Reachable(cfg, s) && Ready(cfg, s) && s.phase == map[]
    ensures Reachable(cfg, s.(phase := map[0 := Walking(0, 0, true)]))
  {
    MatchAtRefused(cfg, s, 0, 10, [With(OTHER, 10), OPEN]);
    assert DoMatchFirst(cfg, s, 0, 0, 0, true) == s.(phase := map[0 := Walking(0, 0, true)]);
    ReachStep(cfg, s, MatchFirst(0, 0, 0, true));
  }

  lemma Visit0(cfg: Cfg, s: State)
    requires Two(cfg) && Reachable(cfg, s) && Ready(cfg, s) && s.stealing == []
    requires s.phase == map[0 := Walking(0, 0, true)]
    ensures Reachable(cfg, s.(stealing := [0], phase := map[0 := Walking(0, 1, false)]))
  {
    Visit0Is(cfg, s);
    ReachStep(cfg, s, WalkVisit(0));
  }

  lemma Visit0Is(cfg: Cfg, s: State)
    requires Two(cfg) && Ready(cfg, s) && s.stealing == [] && s.phase == map[0 := Walking(0, 0, true)]
    ensures DoWalkVisit(cfg, s, 0, 0, 0) == s.(stealing := [0], phase := map[0 := Walking(0, 1, false)])
  {
    var s1 := s.(stealing := s.stealing + [0]);
    MatchAtRefused(cfg, s1, 0, 10, [With(OTHER, 10), OPEN]);
    assert WalkVerdict(cfg, s1, None, 0, 0, 0, 0) == s.(stealing := [0], phase := map[0 := Walking(0, 1, false)]);
  }

  lemma Peek(cfg: Cfg, s: State)
    requires Two(cfg) && Reachable(cfg, s) && Ready(cfg, s) && s.phase == map[0 := Walking(0, 1, false)]
    ensures Reachable(cfg, s.(phase := map[0 := Walking(0, 1, true)]))
  {
    assert s.phase[0 := Walking(0, 1, true)] == map[0 := Walking(0, 1, true)];
    ReachStep(cfg, s, WalkPeek(0));
  }

  /** The message is between the two lists. */
  function Between(s: State): State {
    s.(stealing := [], phase := map[0 := Parking], mover := Some(0), hold := [Free, Moving])
  }

  lemma Visit1(cfg: Cfg, s: State)
    requires Two(cfg) && Reachable(cfg, s) && Ready(cfg, s) && s.stealing == [0]
    requires s.phase == map[0 := Walking(0, 1, true)]
    ensures Reachable(cfg, Between(s))
  {
    MatchAtRefused(cfg, s, 1, 11, [With(OTHER, 11)]);
    assert WalkVerdict(cfg, s, None, 0, 1, 0, 1) == Between(s);
    ReachStep(cfg, s, WalkVisit(0));
  }

  /** From its arrival until it is between the two lists. */
  lemma Walked(cfg: Cfg, s: State) returns (s': State)
    requires Two(cfg) && Reachable(cfg, s) && Ready(cfg, s) && s.phase == map[] && s.stealing == []
    ensures Reachable(cfg, s') && s' == Between(s)
  {
    Arrive(cfg, s);
    var s1 := s.(phase := map[0 := Walking(0, 0, true)]);
    Visit0(cfg, s1);
    var s2 := s1.(stealing := [0], phase := map[0 := Walking(0, 1, false)]);
    Peek(cfg, s2);
    var s3 := s2.(phase := map[0 := Walking(0, 1, true)]);
    Visit1(cfg, s3);
    s' := Between(s3);
  }

  predicate Quiet(s: State) {
    && s.kind == Wildcard && s.lazy && s.stealing == [] && s.delayed == []
    && s.mover == None && s.phase == map[] && s.got == map[] && s.racy == {}
  }

  /** Table c gets an entry and an MD for node 9, and is enabled. */
  lemma Fill(cfg: Cfg, s: State, c: nat, id: nat) returns (s': State)
    requires Two(cfg) && Reachable(cfg, s) && Shape(cfg, s) && c < 2 && s.hold[c] == Free && s.tabs[c] == Tab([], false)
    requires Quiet(s) && id !in s.born
    ensures Reachable(cfg, s') && Shape(cfg, s') && Quiet(s') && s'.tabs == s.tabs[c := Tab([With(OTHER, id)], true)]
    ensures s'.hold == s.hold && s'.maps == Insert(s.maps, c) && s'.born == s.born + {id}
  {
    var s1 := FillBegin(cfg, s, c, id);
    var s2 := FillLook(cfg, s1, c, id);
    Locked(cfg, s2, c, With(OTHER, id));
    ReachStep(cfg, s2, AttachLocked(c));
    s' := Put(s2, c, [With(OTHER, id)], true).(maps := Insert(s.maps, c), hold := s2.hold[c := Free]);
    PutTab([With(OTHER, id)], true, [], false);
    assert s'.hold == s.hold;
  }

  /** The exhausted bit is set, so the look does not end the attach. */
  lemma FillLook(cfg: Cfg, s: State, c: nat, id: nat) returns (s': State)
    requires Two(cfg) && Reachable(cfg, s) && Shape(cfg, s) && c < 2 && s.hold[c] == Attaching(IGNORE_LIST, 0, false)
    requires s.kind == Wildcard && s.tabs[c] == Tab([With(OTHER, id)], false)
    ensures Reachable(cfg, s') && Shape(cfg, s')
    ensures s' == s.(hold := s.hold[c := Attaching(IGNORE_LIST, 0, true)])
  {
    s' := DoAttachTest(cfg, s, c);
    ReachStep(cfg, s, AttachTest(c));
  }

  lemma FillBegin(cfg: Cfg, s: State, c: nat, id: nat) returns (s': State)
    requires Two(cfg) && Reachable(cfg, s) && Shape(cfg, s) && c < 2 && s.hold[c] == Free && s.tabs[c] == Tab([], false)
    requires s.kind == Wildcard && id !in s.born
    ensures Reachable(cfg, s') && Shape(cfg, s') && s' == Begun(s, c, [], false, OTHER, id)
    ensures s'.tabs[c] == Tab([With(OTHER, id)], false)
  {
    AddMe(cfg, s, c, [], false, OTHER);
    var s1 := Put(s, c, [] + [OTHER], false);
    PutTab([] + [OTHER], false, [], false);
    Begin(cfg, s1, c, [], false, OTHER, id);
    s' := Begun(s1, c, [], false, OTHER, id);
    assert [] + [With(OTHER, id)] == [With(OTHER, id)];
    PutTab([With(OTHER, id)], false, [], false);
    assert s1.tabs[c := s'.tabs[c]] == s.tabs[c := s'.tabs[c]];
  }

  lemma Prepared(cfg: Cfg) returns (s: State)
    requires Two(cfg)
    ensures Reachable(cfg, s) && Ready(cfg, s) && Quiet(s) && s.born == {10, 11}
  {
    var s0 := Started(cfg);
    PutTab([], false, [], false);
    var s1 := Fill(cfg, s0, 0, 10);
    assert s1.tabs[1] == Tab([], false) && s1.hold[1] == Free;
    var s2 := Fill(cfg, s1, 1, 11);
    assert Insert([0], 1) == [0, 1];
    s := Opened(cfg, s2);
  }

  lemma Opened(cfg: Cfg, s: State) returns (s': State)
    requires Two(cfg) && Reachable(cfg, s) && Shape(cfg, s) && Quiet(s) && s.hold == [Free, Free] && s.maps == [0, 1]
    requires s.tabs == [Tab([With(OTHER, 10)], true), Tab([With(OTHER, 11)], true)]
    ensures Reachable(cfg, s') && Ready(cfg, s') && Quiet(s') && s'.born == s.born
  {
    AddMe(cfg, s, 0, [With(OTHER, 10)], true, OPEN);
    s' := Put(s, 0, [With(OTHER, 10)] + [OPEN], true);
    assert [With(OTHER, 10)] + [OPEN] == [With(OTHER, 10), OPEN];
    PutTab([With(OTHER, 10), OPEN], true, [], false);
  }

  lemma RaceRun(cfg: Cfg) returns (s: State)
    requires Two(cfg)
    ensures Reachable(cfg, s) && Missed(cfg, s, 0, 0, IGNORE_LIST, With(OPEN, 12))
  {
    s := Prepared(cfg);
    s := Walked(cfg, s);
    s := Finale(cfg, s);
  }

  /** A match can be missed: a reachable state in which a delayed message could be taken by an attached MD. */
  lemma RaceMisses() returns (cfg: Cfg, s: State, me: Me)
    ensures CfgOk(cfg) && Reachable(cfg, s) && Missed(cfg, s, 0, 0, IGNORE_LIST, me)
  {
    cfg := Cfg(2, (nid: nat) => 0, (b: bv64, nid: nat, pid: nat) => 0, (m: nat) => PUT);
    s := RaceRun(cfg);
    me := With(OPEN, 12);
  }

  lemma Finale(cfg: Cfg, s: State) returns (s': State)
    requires Two(cfg) && Reachable(cfg, s) && Shape(cfg, s) && s.kind == Wildcard && s.stealing == [] && s.delayed == []
    requires 12 !in s.born
    requires s.tabs[0] == Tab([With(OTHER, 10), OPEN], true) && s.hold == [Free, Moving] && s.mover == Some(0)
    ensures Reachable(cfg, s') && Missed(cfg, s', 0, 0, IGNORE_LIST, With(OPEN, 12))
  {
    assert [With(OTHER, 10)] + [OPEN] == [With(OTHER, 10), OPEN];
    Begin(cfg, s, 0, [With(OTHER, 10)], true, OPEN, 12);
    var s1 := Begun(s, 0, [With(OTHER, 10)], true, OPEN, 12);
    PutTab([With(OTHER, 10)] + [With(OPEN, 12)], true, [], false);
    s' := Lost(cfg, s1);
  }

  /** The last two steps: the attach's unlocked test sees both lists empty, then the move ends. */
  lemma Lost(cfg: Cfg, s: State) returns (s': State)
    requires Two(cfg) && Reachable(cfg, s) && Shape(cfg, s) && s.kind == Wildcard && s.stealing == [] && s.delayed == []
    requires s.tabs[0] == Tab([With(OTHER, 10)] + [With(OPEN, 12)], true)
    requires s.hold == [Attaching(IGNORE_LIST, 1, false), Moving] && s.mover == Some(0)
    ensures Reachable(cfg, s') && Missed(cfg, s', 0, 0, IGNORE_LIST, With(OPEN, 12))
  {
    assert NewMe(cfg, s, 0) == With(OPEN, 12);
    assert BitsFit(0, 1, 0);
    LookLoses(cfg, s, 0, 1);
    s' := Apply(cfg, Apply(cfg, s, AttachTest(0)), MoveEnd(1));
  }
}
