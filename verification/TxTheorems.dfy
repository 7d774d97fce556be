/** What the tx credits keep over every run, and why no message waits for ever. */
module TxTheorems {
  import opened Common
  import opened Gate
  import opened TxCredits

  // ----- conservation and order -----

  /** Each peer keeps credits + holders constant, its queue is as long as its credits are below zero, lpni_txqnob is
      the sum over its holders, and whoever took a credit first is first past the gate: those past it, followed by
      the queue, are all takers in order. */
  lemma PeerConserved(cfg: Cfg, steps: seq<Step>, states: seq<State>, k: nat, p: nat)
    requires IsRun(cfg, steps, states) && k <= |steps| && p < |cfg.peerCap|
    ensures var s := states[k];
            && |s.peers| == |s.nob| == |cfg.peerCap|
            && s.peers[p].credits + |PeerHolders(s.msgs, p)| == cfg.peerCap[p]
            && |s.peers[p].queue| == (if s.peers[p].credits < 0 then -s.peers[p].credits else 0)
            && s.nob[p] == Nob(cfg, PeerHolders(s.msgs, p))
            && s.peers[p].takes == s.peers[p].passes + s.peers[p].queue
            && (forall m :: m in s.peers[p].queue <==> m in PeerWaiting(s.msgs, p))
  {
    RunInv(cfg, steps, states, k);
  }

  lemma TqConserved(cfg: Cfg, steps: seq<Step>, states: seq<State>, k: nat, t: nat)
    requires IsRun(cfg, steps, states) && k <= |steps| && t < |cfg.tqCap|
    ensures var s := states[k];
            && |s.tqs| == |cfg.tqCap|
            && s.tqs[t].credits + |TqHolders(s.msgs, t)| == cfg.tqCap[t]
            && |s.tqs[t].queue| == (if s.tqs[t].credits < 0 then -s.tqs[t].credits else 0)
            && s.tqs[t].takes == s.tqs[t].passes + s.tqs[t].queue
            && (forall m :: m in s.tqs[t].queue <==> m in TqWaiting(s.msgs, t))
  {
    RunInv(cfg, steps, states, k);
  }

  ghost predicate Extends(a: seq<Gate>, b: seq<Gate>) {
    |a| == |b| && forall i :: 0 <= i < |a| ==> a[i].takes <= b[i].takes && a[i].passes <= b[i].passes
  }

  lemma StepExtends(cfg: Cfg, s: State, st: Step)
    requires Enabled(cfg, s, st)
    ensures Extends(s.peers, Apply(cfg, s, st).peers) && Extends(s.tqs, Apply(cfg, s, st).tqs)
  {
  }

  lemma {:induction false} Chained(gs: seq<seq<Gate>>, j: nat, k: nat)
    requires j <= k < |gs| && forall i :: 0 <= i < |gs| - 1 ==> Extends(gs[i], gs[i + 1])
    ensures Extends(gs[j], gs[k])
  {
    if j < k { Chained(gs, j, k - 1); }
  }

  /** Both orders only ever grow at their end. */
  lemma OrdersGrow(cfg: Cfg, steps: seq<Step>, states: seq<State>, j: nat, k: nat)
    requires IsRun(cfg, steps, states) && j <= k <= |steps|
    ensures Extends(states[j].peers, states[k].peers) && Extends(states[j].tqs, states[k].tqs)
  {
    var peers := seq(|states|, i requires 0 <= i < |states| => states[i].peers);
    var tqs := seq(|states|, i requires 0 <= i < |states| => states[i].tqs);
    forall i | 0 <= i < |steps| ensures Extends(peers[i], peers[i + 1]) && Extends(tqs[i], tqs[i + 1]) {
      StepExtends(cfg, states[i], steps[i]);
    }
    Chained(peers, j, k);
    Chained(tqs, j, k);
  }

  /** The i-th waiter of a keeps its place among the takers of the later b, and as long as it is not past, it still
      waits and those past are all takers from before it. */
  ghost predicate NotOvertaken(a: Gate, i: nat, b: Gate)
    requires i < |a.queue|
  {
    var at := |a.passes| + i;
    && at < |b.takes| && b.takes[at] == a.queue[i]
    && (at >= |b.passes| ==> b.passes == b.takes[..|b.passes|] && a.queue[i] in b.queue)
  }

  lemma GateInOrder(a: Gate, i: nat, b: Gate)
    requires a.takes == a.passes + a.queue && b.takes == b.passes + b.queue && a.takes <= b.takes && i < |a.queue|
    ensures NotOvertaken(a, i, b)
  {
    var at := |a.passes| + i;
    assert a.takes[at] == a.queue[i];
    if at >= |b.passes| { assert b.takes[at] == b.queue[at - |b.passes|]; }
  }

  /** No overtaking: while a message waits for a peer credit, nobody who takes one later gets past. */
  lemma NoOvertaking(cfg: Cfg, steps: seq<Step>, states: seq<State>, j: nat, k: nat, p: nat, i: nat)
    requires IsRun(cfg, steps, states) && j <= k <= |steps| && p < |cfg.peerCap|
    requires p < |states[j].peers| && i < |states[j].peers[p].queue|
    ensures p < |states[k].peers| && NotOvertaken(states[j].peers[p], i, states[k].peers[p])
  {
    OrdersGrow(cfg, steps, states, j, k);
    RunInv(cfg, steps, states, j);
    RunInv(cfg, steps, states, k);
    GateInOrder(states[j].peers[p], i, states[k].peers[p]);
  }

  /** The same for the credits of a tx queue. */
  lemma NoOvertakingTq(cfg: Cfg, steps: seq<Step>, states: seq<State>, j: nat, k: nat, t: nat, i: nat)
    requires IsRun(cfg, steps, states) && j <= k <= |steps| && t < |cfg.tqCap|
    requires t < |states[j].tqs| && i < |states[j].tqs[t].queue|
    ensures t < |states[k].tqs| && NotOvertaken(states[j].tqs[t], i, states[k].tqs[t])
  {
    OrdersGrow(cfg, steps, states, j, k);
    RunInv(cfg, steps, states, j);
    RunInv(cfg, steps, states, k);
    GateInOrder(states[j].tqs[t], i, states[k].tqs[t]);
  }

  // ----- ni_tx_credits -----

  function TqSum(cfg: Cfg, tqs: seq<Gate>, n: nat): int
    requires |tqs| <= |cfg.niOf|
  {
    if tqs == [] then 0
    else
      var t := |tqs| - 1;
      TqSum(cfg, tqs[..t], n) + if cfg.niOf[t] == n then tqs[t].credits else 0
  }

  lemma {:induction false} TqSumSet(cfg: Cfg, tqs: seq<Gate>, n: nat, q: nat, g: Gate)
    requires |tqs| <= |cfg.niOf| && q < |tqs|
    ensures TqSum(cfg, tqs[q := g], n) == TqSum(cfg, tqs, n) + if cfg.niOf[q] == n then g.credits - tqs[q].credits
              else 0
  {
    var t := |tqs| - 1;
    if q < t {
      TqSumSet(cfg, tqs[..t], n, q, g);
      assert tqs[q := g][..t] == tqs[..t][q := g];
    } else {
      assert tqs[q := g][..t] == tqs[..t];
    }
  }

  lemma NiStep(cfg: Cfg, s: State, st: Step, n: nat)
    requires Enabled(cfg, s, st) && n < cfg.nis
    ensures var s' := Apply(cfg, s, st);
            |s'.tqs| == |s.tqs| && |s'.ni| == |s.ni| &&
              s'.ni[n] - TqSum(cfg, s'.tqs, n) == s.ni[n] - TqSum(cfg, s.tqs, n)
  {
    if st.TakeTq? {
      var q := s.msgs[st.m].tq;
      TqSumSet(cfg, s.tqs, n, q, Enter(s.tqs[q], st.m));
    } else if st.GiveTq? {
      var q := s.msgs[st.m].tq;
      TqSumSet(cfg, s.tqs, n, q, Leave(s.tqs[q]));
    }
  }

  /** ni_tx_credits minus the sum of the NI's tq_credits never changes. */
  lemma {:induction false} NiConserved(cfg: Cfg, steps: seq<Step>, states: seq<State>, k: nat, n: nat)
    requires IsRun(cfg, steps, states) && k <= |steps| && n < cfg.nis
    ensures |states[k].tqs| == |states[0].tqs| == |cfg.tqCap| && |states[k].ni| == |states[0].ni| == cfg.nis
    ensures CfgOk(cfg)
    ensures states[k].ni[n] - TqSum(cfg, states[k].tqs, n) == states[0].ni[n] - TqSum(cfg, states[0].tqs, n)
  {
    if k > 0 {
      NiConserved(cfg, steps, states, k - 1, n);
      NiStep(cfg, states[k - 1], steps[k - 1], n);
    }
  }

  // ----- no stall -----

  /** lnet_ni_tq_credits; the tunables are signed, and the division truncates toward zero. */
  function TqCredits(ncpts: nat, maxTx: int, peerTx: int): int
    requires ncpts >= 1
  {
    if ncpts == 1 then maxTx
    else
      var share := if maxTx >= 0 then maxTx / ncpts else -(-maxTx / ncpts);
      var floor := if share >= 8 * peerTx then share else 8 * peerTx;
      if floor <= maxTx then floor else maxTx
  }

  /** The tunables that lnet_startup_lndni lets pass. */
  predicate Accepted(maxTx: int, peerTx: int) {
    peerTx != 0 && maxTx != 0
  }

  /** Every tx queue gets a credit exactly when the NI has credits and moreover one CPT, a credit for each of them, or
      positive peer credits. */
  lemma TqCreditsPositive(ncpts: nat, maxTx: int, peerTx: int)
    requires ncpts >= 1
    ensures TqCredits(ncpts, maxTx, peerTx) <= maxTx
    ensures TqCredits(ncpts, maxTx, peerTx) >= 1 <==> maxTx >= 1 && (ncpts == 1 || ncpts <= maxTx || peerTx >= 1)
  {
    if ncpts <= maxTx {
      DivOne(maxTx, ncpts);
    } else if maxTx >= 1 {
      assert maxTx / ncpts == 0;
    }
  }

  /** On several CPTs a queue gets no more than all credits, no less than its equal share rounded down, and eight
      credits for each peer credit as long as there are that many; more than its share only for the sake of the
      peers. */
  lemma TqCreditsShare(ncpts: nat, maxTx: int, peerTx: int)
    requires ncpts >= 2 && maxTx >= 0
    ensures var r := TqCredits(ncpts, maxTx, peerTx);
            && r <= maxTx && (r + 1) * ncpts > maxTx
            && (r < 8 * peerTx ==> r == maxTx) && (r * ncpts > maxTx ==> r <= 8 * peerTx)
  {
    var q, r := maxTx / ncpts, TqCredits(ncpts, maxTx, peerTx);
    assert maxTx == ncpts * q + maxTx % ncpts;
    assert (q + 1) * ncpts == ncpts * q + ncpts;
    if r >= q { TimesUp(q + 1, r + 1, ncpts); }
    QuotientFits(maxTx, ncpts);
  }

  lemma TimesUp(a: int, b: int, n: nat)
    requires a <= b
    ensures a * n <= b * n
  {
  }

  lemma QuotientFits(a: nat, n: nat)
    requires n >= 1
    ensures a / n <= a && (a / n) * n <= a
  {
    assert a == n * (a / n) + a % n;
  }

  /** Tunables that pass the test of lnet_startup_lndni and leave a tx queue without credits: peer credits below 0. */
  lemma TqCreditsCanBeZero()
    ensures Accepted(1, -1) && TqCredits(2, 1, -1) == 0
  {
    assert 1 / 2 == 0;
  }

  lemma DivOne(a: nat, b: nat)
    requires 1 <= b <= a
    ensures a / b >= 1
  {
    assert a == b * (a / b) + a % b;
  }

  /** Not in a wait queue, and under way. */
  predicate AtLarge(s: State, m: nat) {
    m in s.msgs && (s.msgs[m].place == Posting || s.msgs[m].place == Out)
  }

  lemma SomeIn(s: set<nat>) returns (x: nat)
    requires |s| >= 1
    ensures x in s
  {
    x :| x in s;
  }

  lemma TqHolderAtLarge(cfg: Cfg, s: State, t: nat) returns (h: nat)
    requires Inv(cfg, s) && t < |s.tqs| && cfg.tqCap[t] >= 1 && s.tqs[t].queue != []
    ensures AtLarge(s, h) && s.msgs[h].txCredit && s.msgs[h].peerCredit && s.msgs[h].tq == t
  {
    var holders, waiting := TqHolders(s.msgs, t), TqWaiting(s.msgs, t);
    PastGate(s.tqs[t], cfg.tqCap[t], holders, waiting);
    h := SomeIn(holders - waiting);
    assert MsgOk(s.msgs[h]);
  }

  lemma PeerHolderPast(cfg: Cfg, s: State, p: nat) returns (h: nat)
    requires Inv(cfg, s) && p < |s.peers| && cfg.peerCap[p] >= 1 && s.peers[p].queue != []
    ensures h in s.msgs && s.msgs[h].peerCredit && s.msgs[h].peer == p && s.msgs[h].place != InTxq
    ensures s.msgs[h].place != Idle
  {
    var holders, waiting := PeerHolders(s.msgs, p), PeerWaiting(s.msgs, p);
    PastGate(s.peers[p], cfg.peerCap[p], holders, waiting);
    h := SomeIn(holders - waiting);
    assert MsgOk(s.msgs[h]);
  }

  predicate SomeoneWaits(s: State) {
    || (exists p :: 0 <= p < |s.peers| && s.peers[p].queue != [])
    || (exists t :: 0 <= t < |s.tqs| && s.tqs[t].queue != [])
  }

  /** h's credit is what some waiter is waiting for. */
  predicate WaitedFor(cfg: Cfg, s: State, h: nat)
    requires Shape(cfg, s) && h in s.msgs
  {
    || (s.msgs[h].txCredit && s.tqs[s.msgs[h].tq].queue != [])
    || (s.msgs[h].peerCredit && s.peers[s.msgs[h].peer].queue != [])
  }

  predicate CapsOk(cfg: Cfg) {
    && (forall p :: 0 <= p < |cfg.peerCap| ==> cfg.peerCap[p] >= 1)
    && (forall t :: 0 <= t < |cfg.tqCap| ==> cfg.tqCap[t] >= 1)
  }

  /** No credit stall: whenever a message waits, a credit that is waited for is held by a message outside every wait
      queue, whichever of the two levels the waiters are on. */
  lemma NoStall(cfg: Cfg, s: State) returns (h: nat)
    requires Inv(cfg, s) && CapsOk(cfg) && SomeoneWaits(s)
    ensures AtLarge(s, h) && WaitedFor(cfg, s, h)
  {
    if t :| 0 <= t < |s.tqs| && s.tqs[t].queue != [] {
      h := TqHolderAtLarge(cfg, s, t);
    } else {
      var p :| 0 <= p < |s.peers| && s.peers[p].queue != [];
      h := PeerHolderPast(cfg, s, p);
      if s.msgs[h].place == InDelayed {
        assert h in TqWaiting(s.msgs, s.msgs[h].tq);
      }
    }
  }

  /** s' is reached from s by these steps. */
  predicate Leads(cfg: Cfg, s: State, steps: seq<Step>, s': State)
    decreases |steps|
  {
    if steps == [] then s' == s
    else Enabled(cfg, s, steps[0]) && Leads(cfg, Apply(cfg, s, steps[0]), steps[1..], s')
  }

  lemma {:induction false} LeadsInv(cfg: Cfg, s: State, steps: seq<Step>, s': State)
    requires Inv(cfg, s) && Leads(cfg, s, steps, s')
    ensures Inv(cfg, s')
    decreases |steps|
  {
    if steps != [] {
      StepKeeps(cfg, s, steps[0]);
      LeadsInv(cfg, Apply(cfg, s, steps[0]), steps[1..], s');
    }
  }

  lemma {:induction false} LeadsConcat(cfg: Cfg, a: State, xs: seq<Step>, b: State, ys: seq<Step>, c: State)
    requires Leads(cfg, a, xs, b) && Leads(cfg, b, ys, c)
    ensures Leads(cfg, a, xs + ys, c)
    decreases |xs|
  {
    if xs == [] {
      assert xs + ys == ys;
    } else {
      assert (xs + ys)[1..] == xs[1..] + ys;
      LeadsConcat(cfg, Apply(cfg, a, xs[0]), xs[1..], b, ys, c);
    }
  }

  lemma LeadsOne(cfg: Cfg, s: State, st: Step)
    requires Enabled(cfg, s, st)
    ensures Leads(cfg, s, [st], Apply(cfg, s, st))
  {
    assert Leads(cfg, Apply(cfg, s, st), [st][1..], Apply(cfg, s, st));
  }

  /** A return is always possible, and wakes the first waiter. */
  lemma GiveTqWakes(cfg: Cfg, s: State, m: nat)
    requires Inv(cfg, s) && m in s.msgs && s.msgs[m].place == Out && s.msgs[m].txCredit
    ensures Enabled(cfg, s, GiveTq(m))
    ensures var s' := DoGiveTq(cfg, s, m);
            && s'.wakes == s.wakes + (if s.tqs[s.msgs[m].tq].queue != [] then 1 else 0)
            && m in s'.msgs && s'.msgs[m] == s.msgs[m].(txCredit := false) && s'.peers == s.peers
  {
    var t := s.msgs[m].tq;
    if s.tqs[t].queue != [] { TqHead(cfg, s, t); }
    assert Ok(s.tqs[t], cfg.tqCap[t], TqHolders(s.msgs, t), TqWaiting(s.msgs, t));
  }

  lemma GivePeerWakes(cfg: Cfg, s: State, m: nat)
    requires Inv(cfg, s) && m in s.msgs && s.msgs[m].place == Out && s.msgs[m].peerCredit && !s.msgs[m].txCredit
    ensures Enabled(cfg, s, GivePeer(m))
    ensures DoGivePeer(cfg, s, m).wakes == s.wakes + (if s.peers[s.msgs[m].peer].queue != [] then 1 else 0)
  {
    var p := s.msgs[m].peer;
    if s.peers[p].queue != [] { PeerHead(cfg, s, p); }
    assert Ok(s.peers[p], cfg.peerCap[p], PeerHolders(s.msgs, p), PeerWaiting(s.msgs, p));
  }

  /** A message that is out, or has both credits, gives back all it holds: a waiter for either gets on. */
  lemma ReturnAll(cfg: Cfg, s: State, h: nat) returns (steps: seq<Step>, s': State)
    requires Inv(cfg, s) && AtLarge(s, h) && WaitedFor(cfg, s, h)
    requires s.msgs[h].place == Out || (s.msgs[h].peerCredit && s.msgs[h].txCredit)
    ensures Leads(cfg, s, steps, s') && s'.wakes > s.wakes
    ensures forall st :: st in steps ==> st == Send(h) || st == GiveTq(h) || st == GivePeer(h)
  {
    var s1, head := s, [];
    if s.msgs[h].place == Posting {
      s1, head := Apply(cfg, s, Send(h)), [Send(h)];
      LeadsOne(cfg, s, Send(h));
      StepKeeps(cfg, s, Send(h));
    }
    steps, s' := GiveBoth(cfg, s1, h);
    LeadsConcat(cfg, s, head, s1, steps, s');
    steps := head + steps;
  }

  lemma GiveBoth(cfg: Cfg, s: State, h: nat) returns (steps: seq<Step>, s': State)
    requires Inv(cfg, s) && h in s.msgs && s.msgs[h].place == Out && WaitedFor(cfg, s, h)
    ensures Leads(cfg, s, steps, s') && s'.wakes > s.wakes
    ensures forall st :: st in steps ==> st == GiveTq(h) || st == GivePeer(h)
  {
    var s1 := s;
    steps := [];
    if s.msgs[h].txCredit {
      GiveTqWakes(cfg, s, h);
      LeadsOne(cfg, s, GiveTq(h));
      StepKeeps(cfg, s, GiveTq(h));
      s1, steps := DoGiveTq(cfg, s, h), [GiveTq(h)];
    }
    s' := s1;
    if s1.wakes == s.wakes {
      GivePeerWakes(cfg, s1, h);
      LeadsOne(cfg, s1, GivePeer(h));
      s' := DoGivePeer(cfg, s1, h);
      LeadsConcat(cfg, s, steps, s1, [GivePeer(h)], s');
      steps := steps + [GivePeer(h)];
    }
  }

  /** A message that passed the peer gate goes on to the tx queue: it gets a credit, or waits there itself. */
  lemma TakeTqGoesOn(cfg: Cfg, s: State, h: nat)
    requires Inv(cfg, s) && h in s.msgs && s.msgs[h].place == Posting && s.msgs[h].peerCredit && !s.msgs[h].txCredit
    ensures Enabled(cfg, s, TakeTq(h)) && Inv(cfg, DoTakeTq(cfg, s, h))
    ensures var s' := DoTakeTq(cfg, s, h);
            && s'.wakes == s.wakes && s'.peers == s.peers && h in s'.msgs && s'.msgs[h].peer == s.msgs[h].peer
            && s'.msgs[h].peerCredit && s'.msgs[h].txCredit && s'.msgs[h].tq == s.msgs[h].tq
            && (s'.msgs[h].place == Posting || s'.tqs[s.msgs[h].tq].queue != [])
            && Leads(cfg, s, [TakeTq(h)], s')
  {
    StepKeeps(cfg, s, TakeTq(h));
    LeadsOne(cfg, s, TakeTq(h));
  }

  /** A holder of a peer credit that is not through yet either comes through, or finds a holder of the tx queue's
      credit that is. */
  lemma HolderGetsOn(cfg: Cfg, s: State, h: nat) returns (s': State, h': nat)
    requires Inv(cfg, s) && CapsOk(cfg) && AtLarge(s, h) && WaitedFor(cfg, s, h)
    requires s.msgs[h].place == Posting && !s.msgs[h].txCredit
    ensures Inv(cfg, s') && Leads(cfg, s, [TakeTq(h)], s') && s'.wakes == s.wakes
    ensures AtLarge(s', h') && WaitedFor(cfg, s', h') && s'.msgs[h'].peerCredit && s'.msgs[h'].txCredit
  {
    TakeTqGoesOn(cfg, s, h);
    s', h' := DoTakeTq(cfg, s, h), h;
    if s'.msgs[h].place != Posting { h' := TqHolderAtLarge(cfg, s', s.msgs[h].tq); }
  }

  /** From there, steps that are always open to the messages outside the queues (go on posting,
      be sent, return credits; no failure and no new message is needed) get a waiter dequeued. */
  lemma WaiterGetsOn(cfg: Cfg, s: State, h: nat) returns (steps: seq<Step>, s': State)
    requires Inv(cfg, s) && CapsOk(cfg) && AtLarge(s, h) && WaitedFor(cfg, s, h)
    ensures Leads(cfg, s, steps, s') && s'.wakes > s.wakes
    ensures forall st :: st in steps ==> !st.Start? && !st.Fail?
  {
    if s.msgs[h].place == Posting && !s.msgs[h].txCredit {
      var s1, h1 := HolderGetsOn(cfg, s, h);
      steps, s' := ReturnAll(cfg, s1, h1);
      LeadsConcat(cfg, s, [TakeTq(h)], s1, steps, s');
      steps := [TakeTq(h)] + steps;
    } else {
      assert MsgOk(s.msgs[h]);
      steps, s' := ReturnAll(cfg, s, h);
    }
  }

  // ----- every waiter gets on -----

  /** How often a message can still be dequeued before it is through. */
  function Level(x: Msg): nat {
    match x.place
    case InTxq => 2
    case InDelayed => 1
    case Posting => if !x.peerCredit then 2 else if !x.txCredit then 1 else 0
    case _ => 0
  }

  function AtLevel(msgs: map<nat, Msg>, n: nat): set<nat> {
    set m | m in msgs && Level(msgs[m]) >= n
  }

  /** The dequeuings that can still happen without a new message. */
  function Ahead(s: State): nat {
    |AtLevel(s.msgs, 1)| + |AtLevel(s.msgs, 2)|
  }

  /** No message rises, and one falls if a waiter was dequeued. */
  ghost predicate Falls(a: map<nat, Msg>, b: map<nat, Msg>, woken: bool) {
    && (forall m :: m in b ==> m in a && Level(b[m]) <= Level(a[m]))
    && (woken ==> exists m :: m in b && Level(b[m]) < Level(a[m]) <= 2)
  }

  lemma FallsAhead(s: State, s': State, woken: bool)
    requires Falls(s.msgs, s'.msgs, woken)
    ensures Ahead(s') <= Ahead(s) && (woken ==> Ahead(s') < Ahead(s))
  {
    SubsetCard(AtLevel(s'.msgs, 1), AtLevel(s.msgs, 1));
    SubsetCard(AtLevel(s'.msgs, 2), AtLevel(s.msgs, 2));
    if woken {
      var m :| m in s'.msgs && Level(s'.msgs[m]) < Level(s.msgs[m]) <= 2;
      var n := Level(s.msgs[m]);
      assert m in AtLevel(s.msgs, n) && m !in AtLevel(s'.msgs, n);
    }
  }

  lemma StepFalls(cfg: Cfg, s: State, st: Step)
    requires Inv(cfg, s) && Enabled(cfg, s, st) && !st.Start?
    ensures Falls(s.msgs, Apply(cfg, s, st).msgs, Apply(cfg, s, st).wakes > s.wakes)
    ensures s.wakes <= Apply(cfg, s, st).wakes <= s.wakes + 1
  {
    var s' := Apply(cfg, s, st);
    if st.GiveTq? && s'.wakes > s.wakes {
      TqHead(cfg, s, s.msgs[st.m].tq);
      var h := s.tqs[s.msgs[st.m].tq].queue[0];
      assert MsgOk(s.msgs[h]) && Level(s'.msgs[h]) < Level(s.msgs[h]);
    } else if st.GivePeer? && s'.wakes > s.wakes {
      PeerHead(cfg, s, s.msgs[st.m].peer);
      var h := s.peers[s.msgs[st.m].peer].queue[0];
      assert MsgOk(s.msgs[h]) && Level(s'.msgs[h]) < Level(s.msgs[h]);
    }
  }

  lemma {:induction false} LeadsDown(cfg: Cfg, s: State, steps: seq<Step>, s': State)
    requires Inv(cfg, s) && Leads(cfg, s, steps, s') && forall st :: st in steps ==> !st.Start?
    ensures Ahead(s') <= Ahead(s) && s.wakes <= s'.wakes && (s'.wakes > s.wakes ==> Ahead(s') < Ahead(s))
    decreases |steps|
  {
    if steps != [] {
      var s1 := Apply(cfg, s, steps[0]);
      StepFalls(cfg, s, steps[0]);
      FallsAhead(s, s1, s1.wakes > s.wakes);
      StepKeeps(cfg, s, steps[0]);
      LeadsDown(cfg, s1, steps[1..], s');
    }
  }

  /** Every waiter gets on: such steps empty all wait queues, so that whoever waits now has passed the gate it waits at.
      In which order they pass is what NoOvertaking and NoOvertakingTq say. */
  lemma AllGetOn(cfg: Cfg, s: State) returns (steps: seq<Step>, s': State)
    requires Inv(cfg, s) && CapsOk(cfg)
    ensures Inv(cfg, s') && Leads(cfg, s, steps, s') && !SomeoneWaits(s')
    ensures forall st :: st in steps ==> !st.Start? && !st.Fail?
    decreases Ahead(s)
  {
    if !SomeoneWaits(s) {
      steps, s' := [], s;
    } else {
      var h := NoStall(cfg, s);
      var first, s1 := WaiterGetsOn(cfg, s, h);
      LeadsInv(cfg, s, first, s1);
      LeadsDown(cfg, s, first, s1);
      var rest;
      rest, s' := AllGetOn(cfg, s1);
      LeadsConcat(cfg, s, first, s1, rest, s');
      steps := first + rest;
    }
  }

  /** The same for every reachable state and every message that waits in it. */
  lemma NoCreditStall(cfg: Cfg, steps: seq<Step>, states: seq<State>, k: nat, w: nat)
    returns (h: nat, more: seq<Step>, s': State)
    requires IsRun(cfg, steps, states) && k <= |steps| && CapsOk(cfg) && Waits(states[k], w)
    ensures Shape(cfg, states[k]) && AtLarge(states[k], h) && WaitedFor(cfg, states[k], h)
    ensures Leads(cfg, states[k], more, s') && forall st :: st in more ==> !st.Start? && !st.Fail?
    ensures w in s'.msgs && !Waits(s', w)
  {
    var s := states[k];
    RunInv(cfg, steps, states, k);
    WaiterIsSeen(cfg, s, w);
    h := NoStall(cfg, s);
    more, s' := AllGetOn(cfg, s);
    LeadsStays(cfg, s, more, s', w);
    if Waits(s', w) { WaiterIsSeen(cfg, s', w); }
  }

  predicate Waits(s: State, w: nat) {
    w in s.msgs && (s.msgs[w].place == InTxq || s.msgs[w].place == InDelayed)
  }

  lemma WaiterIsSeen(cfg: Cfg, s: State, w: nat)
    requires Inv(cfg, s) && Waits(s, w)
    ensures SomeoneWaits(s)
  {
    if s.msgs[w].place == InTxq {
      assert w in PeerWaiting(s.msgs, s.msgs[w].peer);
    } else {
      assert w in TqWaiting(s.msgs, s.msgs[w].tq);
    }
  }

  lemma {:induction false} LeadsStays(cfg: Cfg, s: State, steps: seq<Step>, s': State, w: nat)
    requires Leads(cfg, s, steps, s') && w in s.msgs
    ensures w in s'.msgs
    decreases |steps|
  {
    if steps != [] { LeadsStays(cfg, Apply(cfg, s, steps[0]), steps[1..], s', w); }
  }
}
