/** Round robin over peer NIs that are alike in everything but lpni_seq (lib-move.c): repeated sends use them evenly,
    until the 32-bit counter wraps. */
module RoundRobin {
  import opened Common
  import opened PathSelect

  predicate Alike(ps: seq<PeerNi>) {
    && (forall i, j :: 0 <= i < |ps| && 0 <= j < |ps| ==> ps[i] == ps[j].(seqno := ps[i].seqno))
    && (forall i :: 0 <= i < |ps| ==> ps[i].seqno < U32)
  }

  /** The counters are within one of each other. */
  predicate Even(ps: seq<PeerNi>) {
    forall i, j :: 0 <= i < |ps| && 0 <= j < |ps| ==> ps[i].seqno <= ps[j].seqno + 1
  }

  /** lpni_seq++ for the NI a message was sent to. */
  function Sent(ps: seq<PeerNi>, b: nat): seq<PeerNi>
    requires b < |ps|
  {
    ps[b := ps[b].(seqno := (ps[b].seqno + 1) % U32)]
  }

  /** The selection takes the least used. */
  lemma LeastUsed(ps: seq<PeerNi>, b: nat)
    requires Alike(ps) && FirstBest(PeerKeys(ps), |ps|, Some(b))
    ensures b < |ps| && forall j :: 0 <= j < |ps| ==> ps[b].seqno <= ps[j].seqno
  {
    var keys := PeerKeys(ps);
    forall j | 0 <= j < |ps| ensures ps[b].seqno <= ps[j].seqno {
      var p, q := ps[j], ps[b];
      assert !Better(keys[j].value, keys[b].value) && p == q.(seqno := p.seqno);
      Better5(p.healthv, Neg(p.selPrio), B(p.preferred), p.txcredits, Neg(p.seqno),
              q.healthv, Neg(q.selPrio), B(q.preferred), q.txcredits, Neg(q.seqno));
    }
  }

  /** A send keeps the counters even exactly when the chosen one does not wrap, or is the only one. */
  lemma {:induction false} SendKeepsEven(ps: seq<PeerNi>, b: nat)
    requires Alike(ps) && Even(ps) && FirstBest(PeerKeys(ps), |ps|, Some(b))
    ensures b < |ps| && Alike(Sent(ps, b))
    ensures Even(Sent(ps, b)) <==> |ps| == 1 || ps[b].seqno != U32 - 1
  {
    LeastUsed(ps, b);
    var ps' := Sent(ps, b);
    if |ps| > 1 && ps[b].seqno == U32 - 1 {
      var j := if b == 0 then 1 else 0;
      assert ps'[j].seqno == U32 - 1 && ps'[b].seqno == 0;
    }
  }

  function Total(ps: seq<PeerNi>): nat {
    if ps == [] then 0 else ps[0].seqno + Total(ps[1..])
  }

  lemma {:induction false} TotalSet(ps: seq<PeerNi>, b: nat, n: nat)
    requires b < |ps|
    ensures Total(ps[b := ps[b].(seqno := n)]) == Total(ps) - ps[b].seqno + n
  {
    var ps' := ps[b := ps[b].(seqno := n)];
    if b == 0 {
      assert ps'[1..] == ps[1..];
    } else {
      assert ps'[1..] == ps[1..][b - 1 := ps[1..][b - 1].(seqno := n)];
      TotalSet(ps[1..], b - 1, n);
    }
  }

  lemma {:induction false} TotalBounds(ps: seq<PeerNi>, lo: int, hi: int)
    requires forall i :: 0 <= i < |ps| ==> lo <= ps[i].seqno <= hi
    ensures |ps| * lo <= Total(ps) <= |ps| * hi
  {
    if ps != [] {
      TotalBounds(ps[1..], lo, hi);
      Times(|ps|, lo);
      Times(|ps|, hi);
    }
  }

  lemma Times(n: nat, x: int)
    requires n > 0
    ensures n * x == x + (n - 1) * x
  {
  }

  /** Sends, each to the NI that lnet_select_peer_ni picks, from unused NIs. */
  predicate IsRun(chosen: seq<nat>, states: seq<seq<PeerNi>>) {
    && |states| == |chosen| + 1 && Alike(states[0]) && (forall i :: 0 <= i < |states[0]| ==> states[0][i].seqno == 0)
    && forall k :: 0 <= k < |chosen| ==>
         && FirstBest(PeerKeys(states[k]), |states[k]|, Some(chosen[k])) && chosen[k] < |states[k]|
         && states[k + 1] == Sent(states[k], chosen[k])
  }

  /** If all sends so far are counted and the counters are even, the least is below 2^32-1 until each reached it. */
  lemma {:induction false} LeastBelow(ps: seq<PeerNi>, b: nat, n: nat)
    requires b < |ps| && (forall j :: 0 <= j < |ps| ==> ps[b].seqno <= ps[j].seqno)
    ensures Total(ps) < |ps| * n ==> ps[b].seqno < n
  {
    if ps[b].seqno >= n && forall j :: 0 <= j < |ps| ==> ps[j].seqno <= Total(ps) + n {
      TotalBounds(ps, n, Total(ps) + n);
    } else if ps[b].seqno >= n {
      var j :| 0 <= j < |ps| && ps[j].seqno > Total(ps) + n;
      OneBelowTotal(ps, j);
    }
  }

  lemma {:induction false} OneBelowTotal(ps: seq<PeerNi>, j: nat)
    requires j < |ps|
    ensures ps[j].seqno <= Total(ps)
  {
    if j > 0 { OneBelowTotal(ps[1..], j - 1); }
  }

  lemma {:induction false} FairStep(ps: seq<PeerNi>, b: nat)
    requires Alike(ps) && Even(ps) && FirstBest(PeerKeys(ps), |ps|, Some(b)) && Total(ps) < |ps| * (U32 - 1)
    ensures b < |ps| && Alike(Sent(ps, b)) && Even(Sent(ps, b)) && Total(Sent(ps, b)) == Total(ps) + 1
  {
    LeastUsed(ps, b);
    LeastBelow(ps, b, U32 - 1);
    SendKeepsEven(ps, b);
    TotalSet(ps, b, ps[b].seqno + 1);
  }

  lemma {:induction false} RunSize(chosen: seq<nat>, states: seq<seq<PeerNi>>, k: nat)
    requires IsRun(chosen, states) && k <= |chosen|
    ensures |states[k]| == |states[0]|
  {
    if k > 0 { RunSize(chosen, states, k - 1); }
  }

  /** Through the first n * (2^32 - 1) sends every counter is within one of every other, and they add up to the number
      of sends: each NI had its share, rounded up or down. */
  lemma {:induction false} FairUntilWrap(chosen: seq<nat>, states: seq<seq<PeerNi>>, k: nat)
    requires IsRun(chosen, states) && k <= |chosen| && k <= |states[0]| * (U32 - 1)
    ensures |states[k]| == |states[0]| && Alike(states[k]) && Even(states[k]) && Total(states[k]) == k
  {
    RunSize(chosen, states, k);
    if k == 0 {
      TotalBounds(states[0], 0, 0);
      Zero(|states[0]|);
    } else {
      FairUntilWrap(chosen, states, k - 1);
      FairStep(states[k - 1], chosen[k - 1]);
    }
  }

  lemma Zero(n: nat)
    ensures n * 0 == 0
  {
  }

  lemma {:induction false} AllAtTop(ps: seq<PeerNi>, top: nat)
    requires (forall i :: 0 <= i < |ps| ==> ps[i].seqno <= top) && Total(ps) == |ps| * top
    ensures forall i :: 0 <= i < |ps| ==> ps[i].seqno == top
  {
    if ps != [] {
      TotalBounds(ps[1..], 0, top);
      Times(|ps|, top);
      AllAtTop(ps[1..], top);
      assert forall i :: 0 < i < |ps| ==> ps[i] == ps[1..][i - 1];
    }
  }

  /** The next send wraps one counter, and the others are 2^32 - 1 ahead of it. */
  lemma UnevenAfterWrap(chosen: seq<nat>, states: seq<seq<PeerNi>>, k: nat)
    requires IsRun(chosen, states) && |states[0]| >= 2 && k == |states[0]| * (U32 - 1) && k < |chosen|
    ensures !Even(states[k + 1])
  {
    FairUntilWrap(chosen, states, k);
    AllAtTop(states[k], U32 - 1);
    SendKeepsEven(states[k], chosen[k]);
  }
}
