/**
  Two-level tx credits (lib-move.c): a message first needs a credit of the peer NI, then one of the tx queue of its
  CPT, and may wait in the queue of either.  Posting and returning are split into one step for each credit they
  touch, so that other threads may run in between.
 */
module TxCredits {
  import opened Gate

  const HDR_SIZE := 72  // sizeof(struct lnet_hdr)

  /** Where a message is: not under way, inside lnet_post_send_locked, on lpni_txq, on tq_delayed, or handed to the
      LND (or to lnet_finalize) until its credits are returned. */
  datatype Place = Idle | Posting | InTxq | InDelayed | Out

  datatype Msg = Msg(peer: nat, tq: nat, peerCredit: bool, txCredit: bool, place: Place)

  /** Capacities of peers and tx queues, the NI of a tx queue, the length of a message. */
  datatype Cfg = Cfg(peerCap: seq<int>, tqCap: seq<int>, niOf: seq<nat>, nis: nat, len: nat -> nat)

  predicate CfgOk(cfg: Cfg) {
    |cfg.niOf| == |cfg.tqCap| && forall t :: 0 <= t < |cfg.niOf| ==> cfg.niOf[t] < cfg.nis
  }

  /** nob: lpni_txqnob.  ni: ni_tx_credits.  wakes: how often a waiter was dequeued. */
  datatype State = State(msgs: map<nat, Msg>, peers: seq<Gate>, nob: seq<int>, tqs: seq<Gate>, ni: seq<int>, wakes: nat)

  predicate Shape(cfg: Cfg, s: State) {
    && |s.peers| == |s.nob| == |cfg.peerCap| && |s.tqs| == |cfg.tqCap| && |s.ni| == cfg.nis && CfgOk(cfg)
    && forall m :: m in s.msgs ==> s.msgs[m].peer < |s.peers| && s.msgs[m].tq < |s.tqs|
  }

  datatype Step =
    | Start(m: nat, peer: nat, tq: nat)  // lnet_send chose the path
    | Fail(m: nat)                       // peer not alive or MD unlinked: to lnet_finalize
    | TakePeer(m: nat)
    | TakeTq(m: nat)
    | Send(m: nat)                       // lnet_ni_send, or held back by a delay rule
    | GiveTq(m: nat)
    | GivePeer(m: nat)
    | Finish(m: nat)

  predicate Enabled(cfg: Cfg, s: State, st: Step) {
    && Shape(cfg, s)
    && match st
       case Start(m, peer, tq) => (m in s.msgs ==> s.msgs[m].place == Idle) && peer < |s.peers| && tq < |s.tqs|
       case Fail(m) => m in s.msgs && s.msgs[m].place == Posting
       case TakePeer(m) => m in s.msgs && s.msgs[m].place == Posting && !s.msgs[m].peerCredit
       case TakeTq(m) => m in s.msgs && s.msgs[m].place == Posting && s.msgs[m].peerCredit && !s.msgs[m].txCredit
       case Send(m) => m in s.msgs && s.msgs[m].place == Posting && s.msgs[m].peerCredit && s.msgs[m].txCredit
       case GiveTq(m) =>
         m in s.msgs && s.msgs[m].place == Out && s.msgs[m].txCredit &&
         var g := s.tqs[s.msgs[m].tq]; g.credits + 1 <= 0 ==> g.queue != [] && g.queue[0] in s.msgs
       case GivePeer(m) =>
         m in s.msgs && s.msgs[m].place == Out && !s.msgs[m].txCredit && s.msgs[m].peerCredit &&
         var g := s.peers[s.msgs[m].peer]; g.credits + 1 <= 0 ==> g.queue != [] && g.queue[0] in s.msgs
       case Finish(m) => m in s.msgs && s.msgs[m].place == Out && !s.msgs[m].txCredit && !s.msgs[m].peerCredit
  }

  /** The waiter at the head of a queue goes on with lnet_post_send_locked. */
  function Wake(msgs: map<nat, Msg>, g: Gate): map<nat, Msg>
    requires g.credits + 1 <= 0 ==> g.queue != [] && g.queue[0] in msgs
  {
    if g.credits + 1 <= 0 then msgs[g.queue[0] := msgs[g.queue[0]].(place := Posting)] else msgs
  }

  function Woken(g: Gate): nat {
    if g.credits + 1 <= 0 then 1 else 0
  }

  function DoTakePeer(cfg: Cfg, s: State, m: nat): State
    requires Enabled(cfg, s, TakePeer(m))
  {
    var x := s.msgs[m];
    var g := s.peers[x.peer];
    s.(msgs := s.msgs[m := x.(peerCredit := true, place := if g.credits - 1 < 0 then InTxq else Posting)],
       peers := s.peers[x.peer := Enter(g, m)],
       nob := s.nob[x.peer := s.nob[x.peer] + cfg.len(m) + HDR_SIZE])
  }

  function DoTakeTq(cfg: Cfg, s: State, m: nat): State
    requires Enabled(cfg, s, TakeTq(m))
  {
    var x := s.msgs[m];
    var g := s.tqs[x.tq];
    var n := cfg.niOf[x.tq];
    s.(msgs := s.msgs[m := x.(txCredit := true, place := if g.credits - 1 < 0 then InDelayed else Posting)],
       tqs := s.tqs[x.tq := Enter(g, m)],
       ni := s.ni[n := s.ni[n] - 1])
  }

  function DoGiveTq(cfg: Cfg, s: State, m: nat): State
    requires Enabled(cfg, s, GiveTq(m))
  {
    var x := s.msgs[m];
    var g := s.tqs[x.tq];
    var n := cfg.niOf[x.tq];
    s.(msgs := Wake(s.msgs[m := x.(txCredit := false)], g),
       tqs := s.tqs[x.tq := Leave(g)],
       ni := s.ni[n := s.ni[n] + 1],
       wakes := s.wakes + Woken(g))
  }

  function DoGivePeer(cfg: Cfg, s: State, m: nat): State
    requires Enabled(cfg, s, GivePeer(m))
  {
    var x := s.msgs[m];
    var g := s.peers[x.peer];
    s.(msgs := Wake(s.msgs[m := x.(peerCredit := false)], g),
       peers := s.peers[x.peer := Leave(g)],
       nob := s.nob[x.peer := s.nob[x.peer] - (cfg.len(m) + HDR_SIZE)],
       wakes := s.wakes + Woken(g))
  }

  function SetPlace(s: State, m: nat, place: Place): State
    requires m in s.msgs
  {
    s.(msgs := s.msgs[m := s.msgs[m].(place := place)])
  }

  function Apply(cfg: Cfg, s: State, st: Step): State
    requires Enabled(cfg, s, st)
  {
    match st
    case Start(m, peer, tq) => s.(msgs := s.msgs[m := Msg(peer, tq, false, false, Posting)])
    case Fail(m) => SetPlace(s, m, Out)
    case TakePeer(m) => DoTakePeer(cfg, s, m)
    case TakeTq(m) => DoTakeTq(cfg, s, m)
    case Send(m) => SetPlace(s, m, Out)
    case GiveTq(m) => DoGiveTq(cfg, s, m)
    case GivePeer(m) => DoGivePeer(cfg, s, m)
    case Finish(m) => SetPlace(s, m, Idle)
  }

  function Open(cap: int): Gate {
    Gate(cap, [], [], [])
  }

  predicate Init(cfg: Cfg, s: State) {
    && Shape(cfg, s) && s.msgs == map[]
    && (forall p :: 0 <= p < |s.peers| ==> cfg.peerCap[p] >= 0 && s.peers[p] == Open(cfg.peerCap[p]) && s.nob[p] == 0)
    && (forall t :: 0 <= t < |s.tqs| ==> cfg.tqCap[t] >= 0 && s.tqs[t] == Open(cfg.tqCap[t]))
  }

  predicate IsRun(cfg: Cfg, steps: seq<Step>, states: seq<State>) {
    && |states| == |steps| + 1 && Init(cfg, states[0])
    && forall k :: 0 <= k < |steps| ==>
         Enabled(cfg, states[k], steps[k]) && states[k + 1] == Apply(cfg, states[k], steps[k])
  }

  // ----- the invariant -----

  function PeerHolders(msgs: map<nat, Msg>, p: nat): set<nat> {
    set m | m in msgs && msgs[m].peerCredit && msgs[m].peer == p
  }

  function PeerWaiting(msgs: map<nat, Msg>, p: nat): set<nat> {
    set m | m in msgs && msgs[m].place == InTxq && msgs[m].peer == p
  }

  function TqHolders(msgs: map<nat, Msg>, t: nat): set<nat> {
    set m | m in msgs && msgs[m].txCredit && msgs[m].tq == t
  }

  function TqWaiting(msgs: map<nat, Msg>, t: nat): set<nat> {
    set m | m in msgs && msgs[m].place == InDelayed && msgs[m].tq == t
  }

  ghost function Nob(cfg: Cfg, holders: set<nat>): int {
    if holders == {} then 0
    else
      var m :| m in holders;
      cfg.len(m) + HDR_SIZE + Nob(cfg, holders - {m})
  }

  /** The sum does not depend on the order. */
  lemma {:induction false} NobRemove(cfg: Cfg, holders: set<nat>, x: nat)
    requires x in holders
    ensures Nob(cfg, holders) == Nob(cfg, holders - {x}) + cfg.len(x) + HDR_SIZE
    decreases |holders|
  {
    var m :| m in holders && Nob(cfg, holders) == cfg.len(m) + HDR_SIZE + Nob(cfg, holders - {m});
    if m != x {
      NobRemove(cfg, holders - {m}, x);
      assert holders - {m} - {x} == holders - {x} - {m};
      NobRemove(cfg, holders - {x}, m);
    }
  }

  predicate MsgOk(x: Msg) {
    match x.place
    case Idle => !x.peerCredit && !x.txCredit
    case InTxq => x.peerCredit && !x.txCredit
    case InDelayed => x.peerCredit && x.txCredit
    case _ => x.txCredit ==> x.peerCredit
  }

  predicate MsgsOk(msgs: map<nat, Msg>) {
    forall m :: m in msgs ==> MsgOk(msgs[m])
  }

  ghost predicate PeersOk(cfg: Cfg, s: State)
    requires |s.peers| == |cfg.peerCap|
  {
    forall p :: 0 <= p < |s.peers| ==> Ok(s.peers[p], cfg.peerCap[p], PeerHolders(s.msgs, p), PeerWaiting(s.msgs, p))
  }

  ghost predicate TqsOk(cfg: Cfg, s: State)
    requires |s.tqs| == |cfg.tqCap|
  {
    forall t :: 0 <= t < |s.tqs| ==> Ok(s.tqs[t], cfg.tqCap[t], TqHolders(s.msgs, t), TqWaiting(s.msgs, t))
  }

  ghost predicate NobOk(cfg: Cfg, s: State)
    requires |s.nob| == |cfg.peerCap|
  {
    forall p :: 0 <= p < |s.nob| ==> s.nob[p] == Nob(cfg, PeerHolders(s.msgs, p))
  }

  ghost predicate Inv(cfg: Cfg, s: State) {
    Shape(cfg, s) && MsgsOk(s.msgs) && PeersOk(cfg, s) && TqsOk(cfg, s) && NobOk(cfg, s)
  }

  lemma InitInv(cfg: Cfg, s: State)
    requires Init(cfg, s)
    ensures Inv(cfg, s)
  {
    assert forall p :: PeerHolders(s.msgs, p) == {} && PeerWaiting(s.msgs, p) == {};
    assert forall t :: TqHolders(s.msgs, t) == {} && TqWaiting(s.msgs, t) == {};
  }

  // ----- what one message's change does to the holder sets -----

  /** Only m changes, and it keeps its path and its peer credit and stays out of (or in) the peer's queue. */
  lemma PeerSame(msgs: map<nat, Msg>, msgs': map<nat, Msg>, m: nat, p: nat)
    requires m in msgs && m in msgs' && msgs'.Keys == msgs.Keys
    requires forall k :: k in msgs && k != m ==> msgs'[k] == msgs[k]
    requires msgs'[m].peer == msgs[m].peer && msgs'[m].peerCredit == msgs[m].peerCredit
    requires msgs'[m].place == InTxq <==> msgs[m].place == InTxq
    ensures PeerHolders(msgs', p) == PeerHolders(msgs, p) && PeerWaiting(msgs', p) == PeerWaiting(msgs, p)
  {
  }

  lemma TqSame(msgs: map<nat, Msg>, msgs': map<nat, Msg>, m: nat, t: nat)
    requires m in msgs && m in msgs' && msgs'.Keys == msgs.Keys
    requires forall k :: k in msgs && k != m ==> msgs'[k] == msgs[k]
    requires msgs'[m].tq == msgs[m].tq && msgs'[m].txCredit == msgs[m].txCredit
    requires msgs'[m].place == InDelayed <==> msgs[m].place == InDelayed
    ensures TqHolders(msgs', t) == TqHolders(msgs, t) && TqWaiting(msgs', t) == TqWaiting(msgs, t)
  {
  }

  function In(b: bool, m: nat): set<nat> {
    if b then {m} else {}
  }

  /** m takes a peer credit. */
  lemma PeerTaken(msgs: map<nat, Msg>, m: nat, place: Place, p: nat)
    requires m in msgs && !msgs[m].peerCredit && msgs[m].place == Posting
    ensures var msgs' := msgs[m := msgs[m].(peerCredit := true, place := place)];
            && PeerHolders(msgs', p) == PeerHolders(msgs, p) + In(msgs[m].peer == p, m)
            && PeerWaiting(msgs', p) == PeerWaiting(msgs, p) + In(msgs[m].peer == p && place == InTxq, m)
  {
  }

  lemma TqTaken(msgs: map<nat, Msg>, m: nat, place: Place, t: nat)
    requires m in msgs && !msgs[m].txCredit && msgs[m].place == Posting
    ensures var msgs' := msgs[m := msgs[m].(txCredit := true, place := place)];
            && TqHolders(msgs', t) == TqHolders(msgs, t) + In(msgs[m].tq == t, m)
            && TqWaiting(msgs', t) == TqWaiting(msgs, t) + In(msgs[m].tq == t && place == InDelayed, m)
  {
  }

  /** m gives its peer credit back, and h, if any, leaves the queue of the same peer. */
  lemma PeerGiven(msgs: map<nat, Msg>, m: nat, wake: bool, h: nat, p: nat)
    requires m in msgs && msgs[m].peerCredit && msgs[m].place == Out
    requires wake ==> h in msgs && msgs[h].place == InTxq && msgs[h].peer == msgs[m].peer
    ensures var msgs1 := msgs[m := msgs[m].(peerCredit := false)];
            var msgs' := if wake then msgs1[h := msgs1[h].(place := Posting)] else msgs1;
            && PeerHolders(msgs', p) == PeerHolders(msgs, p) - In(msgs[m].peer == p, m)
            && PeerWaiting(msgs', p) == PeerWaiting(msgs, p) - In(msgs[m].peer == p && wake, h)
  {
  }

  lemma TqGiven(msgs: map<nat, Msg>, m: nat, wake: bool, h: nat, t: nat)
    requires m in msgs && msgs[m].txCredit && msgs[m].place == Out
    requires wake ==> h in msgs && msgs[h].place == InDelayed && msgs[h].tq == msgs[m].tq
    ensures var msgs1 := msgs[m := msgs[m].(txCredit := false)];
            var msgs' := if wake then msgs1[h := msgs1[h].(place := Posting)] else msgs1;
            && TqHolders(msgs', t) == TqHolders(msgs, t) - In(msgs[m].tq == t, m)
            && TqWaiting(msgs', t) == TqWaiting(msgs, t) - In(msgs[m].tq == t && wake, h)
  {
  }

  // ----- steps -----

  lemma StartKeeps(cfg: Cfg, s: State, m: nat, peer: nat, tq: nat)
    requires Inv(cfg, s) && Enabled(cfg, s, Start(m, peer, tq))
    ensures Inv(cfg, Apply(cfg, s, Start(m, peer, tq)))
  {
    var msgs' := s.msgs[m := Msg(peer, tq, false, false, Posting)];
    forall p | 0 <= p < |s.peers|
      ensures PeerHolders(msgs', p) == PeerHolders(s.msgs, p) && PeerWaiting(msgs', p) == PeerWaiting(s.msgs, p)
    {}
    forall t | 0 <= t < |s.tqs|
      ensures TqHolders(msgs', t) == TqHolders(s.msgs, t) && TqWaiting(msgs', t) == TqWaiting(s.msgs, t)
    {}
  }

  lemma PlaceKeeps(cfg: Cfg, s: State, m: nat, place: Place)
    requires Inv(cfg, s) && m in s.msgs && (s.msgs[m].place == Posting || s.msgs[m].place == Out)
    requires place == Out || (place == Idle && !s.msgs[m].peerCredit && !s.msgs[m].txCredit)
    ensures Inv(cfg, SetPlace(s, m, place))
  {
    var msgs' := SetPlace(s, m, place).msgs;
    forall p | 0 <= p < |s.peers|
      ensures PeerHolders(msgs', p) == PeerHolders(s.msgs, p) && PeerWaiting(msgs', p) == PeerWaiting(s.msgs, p)
    { PeerSame(s.msgs, msgs', m, p); }
    forall t | 0 <= t < |s.tqs|
      ensures TqHolders(msgs', t) == TqHolders(s.msgs, t) && TqWaiting(msgs', t) == TqWaiting(s.msgs, t)
    { TqSame(s.msgs, msgs', m, t); }
  }

  lemma TakePeerPeers(cfg: Cfg, s: State, m: nat)
    requires Shape(cfg, s) && PeersOk(cfg, s) && Enabled(cfg, s, TakePeer(m))
    ensures PeersOk(cfg, DoTakePeer(cfg, s, m))
  {
    var s' := DoTakePeer(cfg, s, m);
    var q := s.msgs[m].peer;
    EnterOk(s.peers[q], cfg.peerCap[q], PeerHolders(s.msgs, q), PeerWaiting(s.msgs, q), m);
    forall p | 0 <= p < |s'.peers|
      ensures Ok(s'.peers[p], cfg.peerCap[p], PeerHolders(s'.msgs, p), PeerWaiting(s'.msgs, p))
    { PeerTaken(s.msgs, m, s'.msgs[m].place, p); }
  }

  lemma TakePeerNob(cfg: Cfg, s: State, m: nat)
    requires Shape(cfg, s) && NobOk(cfg, s) && Enabled(cfg, s, TakePeer(m))
    ensures NobOk(cfg, DoTakePeer(cfg, s, m))
  {
    var s' := DoTakePeer(cfg, s, m);
    var hold := PeerHolders(s.msgs, s.msgs[m].peer);
    NobRemove(cfg, hold + {m}, m);
    assert hold + {m} - {m} == hold;
    forall p | 0 <= p < |s'.nob| ensures s'.nob[p] == Nob(cfg, PeerHolders(s'.msgs, p)) {
      PeerTaken(s.msgs, m, s'.msgs[m].place, p);
      assert PeerHolders(s'.msgs, p) == if p == s.msgs[m].peer then hold + {m} else PeerHolders(s.msgs, p);
    }
  }

  lemma TakePeerKeeps(cfg: Cfg, s: State, m: nat)
    requires Inv(cfg, s) && Enabled(cfg, s, TakePeer(m))
    ensures Inv(cfg, DoTakePeer(cfg, s, m))
  {
    var s' := DoTakePeer(cfg, s, m);
    TakePeerPeers(cfg, s, m);
    TakePeerNob(cfg, s, m);
    forall t | 0 <= t < |s.tqs|
      ensures TqHolders(s'.msgs, t) == TqHolders(s.msgs, t) && TqWaiting(s'.msgs, t) == TqWaiting(s.msgs, t)
    { TqSame(s.msgs, s'.msgs, m, t); }
  }

  lemma TakeTqTqs(cfg: Cfg, s: State, m: nat)
    requires Shape(cfg, s) && TqsOk(cfg, s) && Enabled(cfg, s, TakeTq(m))
    ensures TqsOk(cfg, DoTakeTq(cfg, s, m))
  {
    var s' := DoTakeTq(cfg, s, m);
    var q := s.msgs[m].tq;
    EnterOk(s.tqs[q], cfg.tqCap[q], TqHolders(s.msgs, q), TqWaiting(s.msgs, q), m);
    forall t | 0 <= t < |s'.tqs|
      ensures Ok(s'.tqs[t], cfg.tqCap[t], TqHolders(s'.msgs, t), TqWaiting(s'.msgs, t))
    { TqTaken(s.msgs, m, s'.msgs[m].place, t); }
  }

  lemma TakeTqKeeps(cfg: Cfg, s: State, m: nat)
    requires Inv(cfg, s) && Enabled(cfg, s, TakeTq(m))
    ensures Inv(cfg, DoTakeTq(cfg, s, m))
  {
    var s' := DoTakeTq(cfg, s, m);
    TakeTqTqs(cfg, s, m);
    forall p | 0 <= p < |s.peers|
      ensures PeerHolders(s'.msgs, p) == PeerHolders(s.msgs, p) && PeerWaiting(s'.msgs, p) == PeerWaiting(s.msgs, p)
    { PeerSame(s.msgs, s'.msgs, m, p); }
  }

  /** The head of a tx queue waits there. */
  lemma TqHead(cfg: Cfg, s: State, t: nat)
    requires Inv(cfg, s) && t < |s.tqs| && s.tqs[t].queue != []
    ensures var h := s.tqs[t].queue[0]; h in s.msgs && s.msgs[h].place == InDelayed && s.msgs[h].tq == t
  {
    assert s.tqs[t].queue[0] in TqWaiting(s.msgs, t);
  }

  lemma PeerHead(cfg: Cfg, s: State, p: nat)
    requires Inv(cfg, s) && p < |s.peers| && s.peers[p].queue != []
    ensures var h := s.peers[p].queue[0]; h in s.msgs && s.msgs[h].place == InTxq && s.msgs[h].peer == p
  {
    assert s.peers[p].queue[0] in PeerWaiting(s.msgs, p);
  }

  lemma GiveTqTqs(cfg: Cfg, s: State, m: nat, h: nat)
    requires Shape(cfg, s) && TqsOk(cfg, s) && Enabled(cfg, s, GiveTq(m))
    requires var g := s.tqs[s.msgs[m].tq];
             g.queue != [] ==>
               h == g.queue[0] && h in s.msgs && s.msgs[h].place == InDelayed && s.msgs[h].tq == s.msgs[m].tq
    ensures TqsOk(cfg, DoGiveTq(cfg, s, m))
  {
    var s' := DoGiveTq(cfg, s, m);
    var q := s.msgs[m].tq;
    LeaveOk(s.tqs[q], cfg.tqCap[q], TqHolders(s.msgs, q), TqWaiting(s.msgs, q), m);
    forall t | 0 <= t < |s'.tqs|
      ensures Ok(s'.tqs[t], cfg.tqCap[t], TqHolders(s'.msgs, t), TqWaiting(s'.msgs, t))
    { TqGiven(s.msgs, m, s.tqs[q].queue != [], h, t); }
  }

  lemma GiveTqKeeps(cfg: Cfg, s: State, m: nat)
    requires Inv(cfg, s) && Enabled(cfg, s, GiveTq(m))
    ensures Inv(cfg, DoGiveTq(cfg, s, m))
  {
    var s' := DoGiveTq(cfg, s, m);
    var g := s.tqs[s.msgs[m].tq];
    if g.queue != [] { TqHead(cfg, s, s.msgs[m].tq); }
    GiveTqTqs(cfg, s, m, if g.queue != [] then g.queue[0] else 0);
    forall p | 0 <= p < |s.peers|
      ensures PeerHolders(s'.msgs, p) == PeerHolders(s.msgs, p) && PeerWaiting(s'.msgs, p) == PeerWaiting(s.msgs, p)
    { GiveTqPeer(cfg, s, m, p); }
  }

  lemma GiveTqPeer(cfg: Cfg, s: State, m: nat, p: nat)
    requires Shape(cfg, s) && Enabled(cfg, s, GiveTq(m))
    requires var g := s.tqs[s.msgs[m].tq]; g.queue != [] ==>
               g.queue[0] in s.msgs && s.msgs[g.queue[0]].place == InDelayed
    ensures var s' := DoGiveTq(cfg, s, m);
            PeerHolders(s'.msgs, p) == PeerHolders(s.msgs, p) && PeerWaiting(s'.msgs, p) == PeerWaiting(s.msgs, p)
  {
  }

  lemma GivePeerPeers(cfg: Cfg, s: State, m: nat, h: nat)
    requires Shape(cfg, s) && PeersOk(cfg, s) && Enabled(cfg, s, GivePeer(m))
    requires var g := s.peers[s.msgs[m].peer];
             g.queue != [] ==>
               h == g.queue[0] && h in s.msgs && s.msgs[h].place == InTxq && s.msgs[h].peer == s.msgs[m].peer
    ensures PeersOk(cfg, DoGivePeer(cfg, s, m))
  {
    var s' := DoGivePeer(cfg, s, m);
    var q := s.msgs[m].peer;
    LeaveOk(s.peers[q], cfg.peerCap[q], PeerHolders(s.msgs, q), PeerWaiting(s.msgs, q), m);
    forall p | 0 <= p < |s'.peers|
      ensures Ok(s'.peers[p], cfg.peerCap[p], PeerHolders(s'.msgs, p), PeerWaiting(s'.msgs, p))
    { PeerGiven(s.msgs, m, s.peers[q].queue != [], h, p); }
  }

  lemma GivePeerNob(cfg: Cfg, s: State, m: nat, h: nat)
    requires Shape(cfg, s) && NobOk(cfg, s) && Enabled(cfg, s, GivePeer(m))
    requires var g := s.peers[s.msgs[m].peer];
             g.credits + 1 <= 0 ==>
               h == g.queue[0] && h in s.msgs && s.msgs[h].place == InTxq && s.msgs[h].peer == s.msgs[m].peer
    ensures NobOk(cfg, DoGivePeer(cfg, s, m))
  {
    var s' := DoGivePeer(cfg, s, m);
    var q := s.msgs[m].peer;
    NobRemove(cfg, PeerHolders(s.msgs, q), m);
    forall p | 0 <= p < |s'.nob| ensures s'.nob[p] == Nob(cfg, PeerHolders(s'.msgs, p)) {
      PeerGiven(s.msgs, m, s.peers[q].credits + 1 <= 0, h, p);
      assert PeerHolders(s'.msgs, p) == if p == q then PeerHolders(s.msgs, q) - {m} else PeerHolders(s.msgs, p);
    }
  }

  lemma GivePeerKeeps(cfg: Cfg, s: State, m: nat)
    requires Inv(cfg, s) && Enabled(cfg, s, GivePeer(m))
    ensures Inv(cfg, DoGivePeer(cfg, s, m))
  {
    var s' := DoGivePeer(cfg, s, m);
    var g := s.peers[s.msgs[m].peer];
    if g.queue != [] { PeerHead(cfg, s, s.msgs[m].peer); }
    var h := if g.queue != [] then g.queue[0] else 0;
    GivePeerPeers(cfg, s, m, h);
    GivePeerNob(cfg, s, m, h);
    forall t | 0 <= t < |s.tqs|
      ensures TqHolders(s'.msgs, t) == TqHolders(s.msgs, t) && TqWaiting(s'.msgs, t) == TqWaiting(s.msgs, t)
    {}
  }

  lemma StepKeeps(cfg: Cfg, s: State, st: Step)
    requires Inv(cfg, s) && Enabled(cfg, s, st)
    ensures Inv(cfg, Apply(cfg, s, st))
  {
    match st
    case Start(m, peer, tq) => StartKeeps(cfg, s, m, peer, tq);
    case Fail(m) => PlaceKeeps(cfg, s, m, Out);
    case TakePeer(m) => TakePeerKeeps(cfg, s, m);
    case TakeTq(m) => TakeTqKeeps(cfg, s, m);
    case Send(m) => PlaceKeeps(cfg, s, m, Out);
    case GiveTq(m) => GiveTqKeeps(cfg, s, m);
    case GivePeer(m) => GivePeerKeeps(cfg, s, m);
    case Finish(m) => PlaceKeeps(cfg, s, m, Idle);
  }

  lemma {:induction false} RunInv(cfg: Cfg, steps: seq<Step>, states: seq<State>, k: nat)
    requires IsRun(cfg, steps, states) && k <= |steps|
    ensures Inv(cfg, states[k])
  {
    if k == 0 {
      InitInv(cfg, states[0]);
    } else {
      RunInv(cfg, steps, states, k - 1);
      StepKeeps(cfg, states[k - 1], steps[k - 1]);
    }
  }
}
