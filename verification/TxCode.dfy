/** The in-place code of lnet_post_send_locked and lnet_return_tx_credits_locked: each call is
    proved to do what a run of the steps does. */
module TxCode {
  import opened Gate
  import opened TxCredits
  import opened TxTheorems

  datatype Counter = Counter(credits: int, queue: seq<nat>)

  datatype Credit = CreditOk | CreditWait | Unreachable

  predicate Same(cs: seq<Counter>, gs: seq<Gate>) {
    |cs| == |gs| && forall i :: 0 <= i < |cs| ==> cs[i] == Counter(gs[i].credits, gs[i].queue)
  }

  // ----- what a whole call does, as a composition of steps -----

  function PostPastPeer(cfg: Cfg, s: State, m: nat): State
    requires Shape(cfg, s) && m in s.msgs && s.msgs[m].place == Posting && s.msgs[m].peerCredit
  {
    if s.msgs[m].txCredit then Apply(cfg, s, Send(m))
    else
      var s1 := Apply(cfg, s, TakeTq(m));
      if s1.msgs[m].place == InDelayed then s1 else Apply(cfg, s1, Send(m))
  }

  function Post(cfg: Cfg, s: State, m: nat, dead: bool): State
    requires Shape(cfg, s) && m in s.msgs && s.msgs[m].place == Posting
  {
    if dead then Apply(cfg, s, Fail(m))
    else if s.msgs[m].peerCredit then PostPastPeer(cfg, s, m)
    else
      var s1 := Apply(cfg, s, TakePeer(m));
      if s1.msgs[m].place == InTxq then s1 else PostPastPeer(cfg, s1, m)
  }

  /** m's tx queue credit went back, and the waiter that got it was posted again. */
  ghost function TqReturned(cfg: Cfg, s: State, m: nat, dead: nat -> bool): State
    requires Inv(cfg, s) && m in s.msgs && s.msgs[m].place == Out && s.msgs[m].txCredit
  {
    GiveTqWakes(cfg, s, m);
    var q := s.tqs[s.msgs[m].tq].queue;
    if q == [] then Apply(cfg, s, GiveTq(m))
    else
      TqHead(cfg, s, s.msgs[m].tq);
      StepKeeps(cfg, s, GiveTq(m));
      Post(cfg, Apply(cfg, s, GiveTq(m)), q[0], dead(q[0]))
  }

  ghost function PeerReturned(cfg: Cfg, s: State, m: nat, dead: nat -> bool): State
    requires Inv(cfg, s) && m in s.msgs && s.msgs[m].place == Out && s.msgs[m].peerCredit && !s.msgs[m].txCredit
  {
    GivePeerWakes(cfg, s, m);
    var q := s.peers[s.msgs[m].peer].queue;
    if q == [] then Apply(cfg, s, GivePeer(m))
    else
      PeerHead(cfg, s, s.msgs[m].peer);
      StepKeeps(cfg, s, GivePeer(m));
      Post(cfg, Apply(cfg, s, GivePeer(m)), q[0], dead(q[0]))
  }

  /** A posted message ends with both credits, or in the queue of the one it lacks, or (dead) unchanged on its way
      to lnet_finalize; no other message is touched. */
  lemma PostMeans(cfg: Cfg, s: State, m: nat, dead: bool)
    requires Inv(cfg, s) && m in s.msgs && s.msgs[m].place == Posting
    ensures var s' := Post(cfg, s, m, dead);
            && Inv(cfg, s') && s'.msgs.Keys == s.msgs.Keys &&
                 (forall k :: k in s.msgs && k != m ==> s'.msgs[k] == s.msgs[k])
            && s'.msgs[m].peer == s.msgs[m].peer && s'.msgs[m].tq == s.msgs[m].tq
            && (dead ==> s'.msgs[m] == s.msgs[m].(place := Out) && s'.peers == s.peers && s'.tqs == s.tqs)
            && (!dead ==> s'.msgs[m].peerCredit &&
                          s'.msgs[m].place == (if !s'.msgs[m].txCredit then InTxq
                                               else if m in s'.tqs[s.msgs[m].tq].queue then InDelayed else Out))
  {
    if dead {
      StepKeeps(cfg, s, Fail(m));
    } else if s.msgs[m].peerCredit {
      PastPeerMeans(cfg, s, m);
    } else {
      StepKeeps(cfg, s, TakePeer(m));
      var s1 := Apply(cfg, s, TakePeer(m));
      if s1.msgs[m].place != InTxq { PastPeerMeans(cfg, s1, m); }
    }
  }

  lemma PastPeerMeans(cfg: Cfg, s: State, m: nat)
    requires Inv(cfg, s) && m in s.msgs && s.msgs[m].place == Posting && s.msgs[m].peerCredit
    ensures var s' := PostPastPeer(cfg, s, m);
            && Inv(cfg, s') && s'.msgs.Keys == s.msgs.Keys &&
                 (forall k :: k in s.msgs && k != m ==> s'.msgs[k] == s.msgs[k])
            && s'.msgs[m].peer == s.msgs[m].peer && s'.msgs[m].tq == s.msgs[m].tq
            && s'.msgs[m].peerCredit && s'.msgs[m].txCredit
            && s'.msgs[m].place == (if m in s'.tqs[s.msgs[m].tq].queue then InDelayed else Out)
  {
    var s1 := s;
    if !s.msgs[m].txCredit {
      StepKeeps(cfg, s, TakeTq(m));
      s1 := Apply(cfg, s, TakeTq(m));
    }
    if s1.msgs[m].place != InDelayed { StepKeeps(cfg, s1, Send(m)); }
    var s' := PostPastPeer(cfg, s, m);
    assert m in TqWaiting(s'.msgs, s.msgs[m].tq) <==> s'.msgs[m].place == InDelayed;
  }

  lemma TqReturnedKeeps(cfg: Cfg, s: State, m: nat, dead: nat -> bool)
    requires Inv(cfg, s) && m in s.msgs && s.msgs[m].place == Out && s.msgs[m].txCredit
    ensures var s' := TqReturned(cfg, s, m, dead);
            Inv(cfg, s') && m in s'.msgs && s'.msgs[m] == s.msgs[m].(txCredit := false)
  {
    GiveTqWakes(cfg, s, m);
    StepKeeps(cfg, s, GiveTq(m));
    var q := s.tqs[s.msgs[m].tq].queue;
    if q != [] {
      TqHead(cfg, s, s.msgs[m].tq);
      PostMeans(cfg, Apply(cfg, s, GiveTq(m)), q[0], dead(q[0]));
    }
  }

  // ----- what a return does, told from the states before and after -----

  /** Nobody is left in the middle of posting, and only m and the first waiter of q have changed. */
  ghost predicate NobodyLeft(s: State, s': State, m: nat, q: seq<nat>) {
    && s'.msgs.Keys == s.msgs.Keys
    && (forall k :: k in s.msgs && k != m && k !in q[..if q == [] then 0 else 1] ==> s'.msgs[k] == s.msgs[k])
    && (forall k :: k in s'.msgs && s'.msgs[k].place == Posting ==> k in s.msgs && s.msgs[k].place == Posting)
  }

  /** The gate at i got its credit back and lost its first waiter; the other gates are as they were. */
  ghost predicate GaveBack(gs: seq<Gate>, gs': seq<Gate>, i: nat)
    requires i < |gs|
  {
    && |gs'| == |gs| && (forall k :: 0 <= k < |gs| && k != i ==> gs'[k] == gs[k])
    && gs'[i].credits == gs[i].credits + 1 && gs'[i].queue == (if gs[i].queue == [] then [] else gs[i].queue[1..])
  }

  /** Message h took a credit of the gate at i: it is at the end of the queue exactly if there was none. */
  ghost predicate Took(gs: seq<Gate>, gs': seq<Gate>, i: nat, h: nat)
    requires i < |gs|
  {
    && |gs'| == |gs| && (forall k :: 0 <= k < |gs| && k != i ==> gs'[k] == gs[k])
    && gs'[i].credits == gs[i].credits - 1
    && gs'[i].queue == (if gs[i].credits > 0 then gs[i].queue else gs[i].queue + [h])
  }

  /** m's tx queue credit goes back; the first message on tq_delayed is off the queue and out. */
  ghost predicate TqHandedOn(cfg: Cfg, s: State, s': State, m: nat)
    requires Shape(cfg, s) && m in s.msgs
  {
    var x := s.msgs[m];
    var q := s.tqs[x.tq].queue;
    && NobodyLeft(s, s', m, q) && GaveBack(s.tqs, s'.tqs, x.tq) && s'.peers == s.peers
    && s'.msgs[m] == x.(txCredit := false)
    && (q != [] ==> q[0] in s.msgs && s'.msgs[q[0]] == s.msgs[q[0]].(place := Out))
  }

  /** m's peer credit goes back; the first message on lpni_txq is off the queue, and with a tx queue credit it is out,
      or else at the end of its tx queue's tq_delayed; a dead one is out without a tx queue credit. */
  ghost predicate PeerHandedOn(cfg: Cfg, s: State, s': State, m: nat, dead: nat -> bool)
    requires Shape(cfg, s) && m in s.msgs
  {
    var x := s.msgs[m];
    var q := s.peers[x.peer].queue;
    && NobodyLeft(s, s', m, q) && GaveBack(s.peers, s'.peers, x.peer)
    && s'.msgs[m] == x.(peerCredit := false)
    && (q == [] ==> s'.tqs == s.tqs)
    && (q != [] ==>
          && q[0] in s.msgs
          && var y := s.msgs[q[0]];
          if dead(q[0]) then s'.tqs == s.tqs && s'.msgs[q[0]] == y.(place := Out)
          else && Took(s.tqs, s'.tqs, y.tq, q[0])
               && s'.msgs[q[0]] == y.(txCredit := true, place := if s.tqs[y.tq].credits > 0 then Out else InDelayed))
  }

  lemma TqReturnedMeans(cfg: Cfg, s: State, m: nat, dead: nat -> bool)
    requires Inv(cfg, s) && m in s.msgs && s.msgs[m].place == Out && s.msgs[m].txCredit
    ensures TqHandedOn(cfg, s, TqReturned(cfg, s, m, dead), m)
  {
    GiveTqWakes(cfg, s, m);
    TqReady(cfg, s, m);
    var q := s.tqs[s.msgs[m].tq].queue;
    if q != [] {
      TqHead(cfg, s, s.msgs[m].tq);
      assert MsgOk(s.msgs[q[0]]);
    }
  }

  lemma PeerReturnedMeans(cfg: Cfg, s: State, m: nat, dead: nat -> bool)
    requires Inv(cfg, s) && m in s.msgs && s.msgs[m].place == Out && s.msgs[m].peerCredit && !s.msgs[m].txCredit
    ensures PeerHandedOn(cfg, s, PeerReturned(cfg, s, m, dead), m, dead)
  {
    PeerReady(cfg, s, m);
    PeerGaveBack(cfg, s, m);
    var q := s.peers[s.msgs[m].peer].queue;
    if q != [] {
      PeerHead(cfg, s, s.msgs[m].peer);
      assert MsgOk(s.msgs[q[0]]);
      WokenPosted(cfg, DoGivePeer(cfg, s, m), q[0], dead(q[0]));
    }
  }

  lemma PeerGaveBack(cfg: Cfg, s: State, m: nat)
    requires Enabled(cfg, s, GivePeer(m))
    requires var g := s.peers[s.msgs[m].peer];
             (g.credits + 1 <= 0 <==> g.queue != []) && (g.queue != [] ==> g.queue[0] in s.msgs && g.queue[0] != m)
    ensures var s1, q := DoGivePeer(cfg, s, m), s.peers[s.msgs[m].peer].queue;
            && GaveBack(s.peers, s1.peers, s.msgs[m].peer) && s1.tqs == s.tqs
            && s1.msgs == (if q == [] then s.msgs else s.msgs[q[0] := s.msgs[q[0]].(place := Posting)])
                            [m := s.msgs[m].(peerCredit := false)]
  {
  }

  /** A message past the peer gate is posted: out with a tx queue credit, or in the queue for one. */
  lemma WokenPosted(cfg: Cfg, s: State, h: nat, dead: bool)
    requires Shape(cfg, s) && h in s.msgs && s.msgs[h].place == Posting && s.msgs[h].peerCredit && !s.msgs[h].txCredit
    ensures var s', y := Post(cfg, s, h, dead), s.msgs[h];
            && s'.peers == s.peers
            && (dead ==> s'.tqs == s.tqs && s'.msgs == s.msgs[h := y.(place := Out)])
            && (!dead ==>
                  && Took(s.tqs, s'.tqs, y.tq, h)
                  && var place := if s.tqs[y.tq].credits > 0 then Out else InDelayed;
                  s'.msgs == s.msgs[h := y.(txCredit := true, place := place)])
  {
  }

  lemma TqReady(cfg: Cfg, s: State, m: nat)
    requires Inv(cfg, s) && m in s.msgs && s.msgs[m].place == Out && s.msgs[m].txCredit
    ensures Enabled(cfg, s, GiveTq(m)) && Inv(cfg, DoGiveTq(cfg, s, m))
    ensures var g := s.tqs[s.msgs[m].tq];
            (g.credits + 1 <= 0 <==> g.queue != []) && (g.queue != [] ==> g.queue[0] in s.msgs && g.queue[0] != m)
  {
    GiveTqWakes(cfg, s, m);
    StepKeeps(cfg, s, GiveTq(m));
    var t := s.msgs[m].tq;
    if s.tqs[t].queue != [] { TqHead(cfg, s, t); }
  }

  lemma PeerReady(cfg: Cfg, s: State, m: nat)
    requires Inv(cfg, s) && m in s.msgs && s.msgs[m].place == Out && s.msgs[m].peerCredit && !s.msgs[m].txCredit
    ensures Enabled(cfg, s, GivePeer(m)) && Inv(cfg, DoGivePeer(cfg, s, m))
    ensures var g := s.peers[s.msgs[m].peer];
            (g.credits + 1 <= 0 <==> g.queue != []) && (g.queue != [] ==> g.queue[0] in s.msgs && g.queue[0] != m)
  {
    GivePeerWakes(cfg, s, m);
    StepKeeps(cfg, s, GivePeer(m));
    var p := s.msgs[m].peer;
    if s.peers[p].queue != [] { PeerHead(cfg, s, p); }
  }

  class TxEngine {
    const cfg: Cfg
    var msgs: map<nat, Msg>
    var peers: seq<Counter>  // lpni_txcredits, lpni_txq
    var nob: seq<int>        // lpni_txqnob
    var tqs: seq<Counter>    // tq_credits, tq_delayed
    var ni: seq<int>         // ni_tx_credits
    ghost var s: State       // the same with its history

    ghost predicate Linked()
      reads this
    {
      s.msgs == msgs && Same(peers, s.peers) && s.nob == nob && Same(tqs, s.tqs) && s.ni == ni
    }

    ghost predicate Valid()
      reads this
    {
      Linked() && Inv(cfg, s)
    }

    /** The peer half of lnet_post_send_locked: whether the message has to wait. */
    method TakePeerCredit(m: nat) returns (wait: bool)
      requires Linked() && Enabled(cfg, s, TakePeer(m))
      modifies this
      ensures Linked() && s == DoTakePeer(cfg, old(s), m) && (wait <==> msgs[m].place == InTxq)
    {
      s := DoTakePeer(cfg, s, m);
      var x := msgs[m];
      var p := x.peer;
      x := x.(peerCredit := true);
      nob := nob[p := nob[p] + cfg.len(m) + HDR_SIZE];
      peers := peers[p := peers[p].(credits := peers[p].credits - 1)];
      wait := peers[p].credits < 0;
      if wait {
        peers := peers[p := peers[p].(queue := peers[p].queue + [m])];
        x := x.(place := InTxq);
      }
      msgs := msgs[m := x];
    }

    /** The tx queue half. */
    method TakeTqCredit(m: nat) returns (wait: bool)
      requires Linked() && Enabled(cfg, s, TakeTq(m))
      modifies this
      ensures Linked() && s == DoTakeTq(cfg, old(s), m) && (wait <==> msgs[m].place == InDelayed)
    {
      s := DoTakeTq(cfg, s, m);
      var x := msgs[m];
      var t := x.tq;
      x := x.(txCredit := true);
      tqs := tqs[t := tqs[t].(credits := tqs[t].credits - 1)];
      ni := ni[cfg.niOf[t] := ni[cfg.niOf[t]] - 1];
      wait := tqs[t].credits < 0;
      if wait {
        tqs := tqs[t := tqs[t].(queue := tqs[t].queue + [m])];
        x := x.(place := InDelayed);
      }
      msgs := msgs[m := x];
    }

    /** lnet_post_send_locked; dead: the peer is not alive or the MD was unlinked. */
    method PostSend(m: nat, dead: bool) returns (rc: Credit)
      requires Valid() && m in msgs && msgs[m].place == Posting
      modifies this
      ensures Valid() && s == Post(cfg, old(s), m, dead)
      ensures rc == if dead then Unreachable else if msgs[m].place == Out then CreditOk else CreditWait
    {
      if dead {
        PlaceKeeps(cfg, s, m, Out);
        s := SetPlace(s, m, Out);
        msgs := msgs[m := msgs[m].(place := Out)];
        return Unreachable;
      }
      if !msgs[m].peerCredit {
        StepKeeps(cfg, s, TakePeer(m));
        var wait := TakePeerCredit(m);
        if wait { return CreditWait; }
      }
      rc := PostTq(m);
    }

    /** lnet_post_send_locked from the tx queue credit on. */
    method PostTq(m: nat) returns (rc: Credit)
      requires Valid() && m in msgs && msgs[m].place == Posting && msgs[m].peerCredit
      modifies this
      ensures Valid() && s == PostPastPeer(cfg, old(s), m)
      ensures rc == if msgs[m].place == Out then CreditOk else CreditWait
    {
      if !msgs[m].txCredit {
        StepKeeps(cfg, s, TakeTq(m));
        var wait := TakeTqCredit(m);
        if wait { return CreditWait; }
      }
      PlaceKeeps(cfg, s, m, Out);
      s := SetPlace(s, m, Out);
      msgs := msgs[m := msgs[m].(place := Out)];
      return CreditOk;
    }

    /** The tx queue half of lnet_return_tx_credits_locked: the waiter to post again, if any. */
    method GiveTqCredit(m: nat) returns (next: seq<nat>)
      requires Linked() && Enabled(cfg, s, GiveTq(m))
      requires var g := tqs[msgs[m].tq]; (g.credits + 1 <= 0 <==> g.queue != []) && (g.queue != [] ==> g.queue[0] != m)
      modifies this
      ensures Linked() && s == DoGiveTq(cfg, old(s), m)
      ensures next == (if old(tqs[msgs[m].tq].queue) == [] then [] else old(tqs[msgs[m].tq].queue)[..1])
      ensures next != [] ==> next[0] in msgs && msgs[next[0]].place == Posting && next[0] != m
    {
      var t := msgs[m].tq;
      s := DoGiveTq(cfg, s, m);
      msgs := msgs[m := msgs[m].(txCredit := false)];
      tqs := tqs[t := tqs[t].(credits := tqs[t].credits + 1)];
      ni := ni[cfg.niOf[t] := ni[cfg.niOf[t]] + 1];
      next := [];
      if tqs[t].credits <= 0 {
        var h := tqs[t].queue[0];
        next := [h];
        tqs := tqs[t := tqs[t].(queue := tqs[t].queue[1..])];
        msgs := msgs[h := msgs[h].(place := Posting)];
      }
    }

    /** The peer half. */
    method GivePeerCredit(m: nat) returns (next: seq<nat>)
      requires Linked() && Enabled(cfg, s, GivePeer(m))
      requires var g := peers[msgs[m].peer];
                 (g.credits + 1 <= 0 <==> g.queue != []) && (g.queue != [] ==> g.queue[0] != m)
      modifies this
      ensures Linked() && s == DoGivePeer(cfg, old(s), m)
      ensures next == (if old(peers[msgs[m].peer].queue) == [] then [] else old(peers[msgs[m].peer].queue)[..1])
      ensures next != [] ==> next[0] in msgs && msgs[next[0]].place == Posting && next[0] != m
    {
      var p := msgs[m].peer;
      s := DoGivePeer(cfg, s, m);
      msgs := msgs[m := msgs[m].(peerCredit := false)];
      nob := nob[p := nob[p] - (cfg.len(m) + HDR_SIZE)];
      peers := peers[p := peers[p].(credits := peers[p].credits + 1)];
      next := [];
      if peers[p].credits <= 0 {
        var h := peers[p].queue[0];
        next := [h];
        peers := peers[p := peers[p].(queue := peers[p].queue[1..])];
        msgs := msgs[h := msgs[h].(place := Posting)];
      }
    }

    /** lnet_return_tx_credits_locked, tx queue: the credit goes back and may send a waiter on its way; dead:
        whether the peer of a waiter is found dead then. */
    method ReturnTq(m: nat, dead: nat -> bool)
      requires Valid() && m in msgs && msgs[m].place == Out && msgs[m].txCredit
      modifies this
      ensures Valid() && s == TqReturned(cfg, old(s), m, dead) && TqHandedOn(cfg, old(s), s, m)
    {
      TqReturnedMeans(cfg, s, m, dead);
      TqReady(cfg, s, m);
      var next := GiveTqCredit(m);
      if next != [] { var rc := PostSend(next[0], dead(next[0])); }
    }

    method ReturnPeer(m: nat, dead: nat -> bool)
      requires Valid() && m in msgs && msgs[m].place == Out && msgs[m].peerCredit && !msgs[m].txCredit
      modifies this
      ensures Valid() && s == PeerReturned(cfg, old(s), m, dead) && PeerHandedOn(cfg, old(s), s, m, dead)
    {
      PeerReturnedMeans(cfg, s, m, dead);
      PeerReady(cfg, s, m);
      var next := GivePeerCredit(m);
      if next != [] { var rc := PostSend(next[0], dead(next[0])); }
    }

    /** lnet_return_tx_credits_locked: the tx queue's credit first. */
    method ReturnTxCredits(m: nat, dead: nat -> bool) returns (ghost mid: State)
      requires Valid() && m in msgs && msgs[m].place == Out
      modifies this
      ensures Valid() && Inv(cfg, mid) && m in mid.msgs && mid.msgs[m] == old(msgs[m]).(txCredit := false)
      ensures mid == if old(msgs[m].txCredit) then TqReturned(cfg, old(s), m, dead) else old(s)
      ensures s == if mid.msgs[m].peerCredit then PeerReturned(cfg, mid, m, dead) else mid
      ensures forall k :: k in msgs && msgs[k].place == Posting ==> k in old(msgs) && old(msgs)[k].place == Posting
      ensures m in msgs && msgs[m] == old(msgs[m]).(peerCredit := false, txCredit := false)
    {
      if msgs[m].txCredit {
        TqReturnedKeeps(cfg, s, m, dead);
        ReturnTq(m, dead);
      }
      mid := s;
      if msgs[m].peerCredit { ReturnPeer(m, dead); }
    }
  }
}
