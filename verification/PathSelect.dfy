/**
  The selection loops of lib-move.c: the best peer NI on a net, the best local NI, the best route.  Each is proved to
  return a candidate whose key is lexicographically greatest; larger numbers are better in every place of a key.
 */
module PathSelect {
  import opened Common

  // ----- the order -----

  /** a comes before b in the lexicographic order: a is strictly better. */
  predicate Better(a: seq<int>, b: seq<int>)
    requires |a| == |b|
  {
    a != [] && (a[0] > b[0] || (a[0] == b[0] && Better(a[1..], b[1..])))
  }

  lemma {:induction false} BetterTotal(a: seq<int>, b: seq<int>)
    requires |a| == |b|
    ensures Better(a, b) ==> !Better(b, a)
    ensures Better(a, b) || Better(b, a) || a == b
    ensures a == b ==> !Better(a, b)
  {
    if a != [] {
      BetterTotal(a[1..], b[1..]);
      assert a == [a[0]] + a[1..] && b == [b[0]] + b[1..];
    }
  }

  lemma {:induction false} BetterTrans(a: seq<int>, b: seq<int>, c: seq<int>)
    requires |a| == |b| == |c|
    ensures Better(a, b) && !Better(c, b) ==> Better(a, c)
    ensures !Better(b, a) && Better(b, c) ==> Better(a, c)
    ensures !Better(b, a) && !Better(c, b) ==> !Better(c, a)
  {
    if a != [] { BetterTrans(a[1..], b[1..], c[1..]); }
  }

  lemma BetterCons(x: int, a: seq<int>, y: int, b: seq<int>)
    requires |a| == |b|
    ensures Better([x] + a, [y] + b) <==> x > y || (x == y && Better(a, b))
  {
    assert ([x] + a)[1..] == a && ([y] + b)[1..] == b;
  }

  lemma Better1(a: int, b: int)
    ensures Better([a], [b]) <==> a > b
  {
    assert [a][1..] == [] && [b][1..] == [];
  }

  lemma Better2(a0: int, a1: int, b0: int, b1: int)
    ensures Better([a0, a1], [b0, b1]) <==> a0 > b0 || (a0 == b0 && a1 > b1)
  {
    Better1(a1, b1);
    BetterCons(a0, [a1], b0, [b1]);
    assert [a0] + [a1] == [a0, a1] && [b0] + [b1] == [b0, b1];
  }

  lemma Better3(a0: int, a1: int, a2: int, b0: int, b1: int, b2: int)
    ensures Better([a0, a1, a2], [b0, b1, b2]) <==> a0 > b0 || (a0 == b0 && (a1 > b1 || (a1 == b1 && a2 > b2)))
  {
    Better2(a1, a2, b1, b2);
    BetterCons(a0, [a1, a2], b0, [b1, b2]);
    assert [a0] + [a1, a2] == [a0, a1, a2] && [b0] + [b1, b2] == [b0, b1, b2];
  }

  /** The comparison of five-place keys, written out. */
  lemma Better5(a0: int, a1: int, a2: int, a3: int, a4: int, b0: int, b1: int, b2: int, b3: int, b4: int)
    ensures Better([a0, a1, a2, a3, a4], [b0, b1, b2, b3, b4]) <==>
            a0 > b0 || (a0 == b0 && (a1 > b1 ||
                                     (a1 == b1 && (a2 > b2 || (a2 == b2 && (a3 > b3 || (a3 == b3 && a4 > b4)))))))
  {
    Better3(a2, a3, a4, b2, b3, b4);
    var a, b := [a2, a3, a4], [b2, b3, b4];
    BetterCons(a1, a, b1, b);
    BetterCons(a0, [a1] + a, b0, [b1] + b);
    assert [a0] + ([a1] + a) == [a0, a1, a2, a3, a4] && [b0] + ([b1] + b) == [b0, b1, b2, b3, b4];
  }

  /** Of the first n keys (those that are present), best is the first that no other is better than. */
  predicate FirstBest(keys: seq<Option<seq<int>>>, n: nat, best: Option<nat>)
    requires n <= |keys| && Uniform(keys)
  {
    match best
    case None => forall j :: 0 <= j < n ==> keys[j].None?
    case Some(b) =>
      && b < n && keys[b].Some?
      && (forall j :: 0 <= j < n && keys[j].Some? ==> !Better(keys[j].value, keys[b].value))
      && (forall j :: 0 <= j < b && keys[j].Some? ==> Better(keys[b].value, keys[j].value))
  }

  /** The same, taking the last of equals. */
  predicate LastBest(keys: seq<Option<seq<int>>>, n: nat, best: Option<nat>)
    requires n <= |keys| && Uniform(keys)
  {
    match best
    case None => forall j :: 0 <= j < n ==> keys[j].None?
    case Some(b) =>
      && b < n && keys[b].Some?
      && (forall j :: 0 <= j < n && keys[j].Some? ==> !Better(keys[j].value, keys[b].value))
      && (forall j :: b < j < n && keys[j].Some? ==> Better(keys[b].value, keys[j].value))
  }

  predicate Uniform(keys: seq<Option<seq<int>>>) {
    forall i, j :: 0 <= i < |keys| && 0 <= j < |keys| && keys[i].Some? && keys[j].Some? ==>
      |keys[i].value| == |keys[j].value|
  }

  lemma FirstStep(keys: seq<Option<seq<int>>>, n: nat, best: Option<nat>, take: bool)
    requires n < |keys| && Uniform(keys) && FirstBest(keys, n, best)
    requires take <==> keys[n].Some? && (best.None? || Better(keys[n].value, keys[best.value].value))
    ensures FirstBest(keys, n + 1, if take then Some(n) else best)
  {
    if take && best.Some? {
      BetterTotal(keys[n].value, keys[n].value);
      forall j | 0 <= j < n && keys[j].Some?
        ensures Better(keys[n].value, keys[j].value) && !Better(keys[j].value, keys[n].value)
      {
        BetterTrans(keys[n].value, keys[best.value].value, keys[j].value);
        BetterTotal(keys[n].value, keys[j].value);
      }
    } else if take {
      BetterTotal(keys[n].value, keys[n].value);
    }
  }

  lemma LastStep(keys: seq<Option<seq<int>>>, n: nat, best: Option<nat>, take: bool)
    requires n < |keys| && Uniform(keys) && LastBest(keys, n, best)
    requires take <==> keys[n].Some? && (best.None? || !Better(keys[best.value].value, keys[n].value))
    ensures LastBest(keys, n + 1, if take then Some(n) else best)
  {
    if take {
      BetterTotal(keys[n].value, keys[n].value);
      if best.Some? {
        forall j | 0 <= j < n && keys[j].Some? ensures !Better(keys[j].value, keys[n].value) {
          BetterTrans(keys[n].value, keys[best.value].value, keys[j].value);
        }
      }
    } else if keys[n].Some? {
      BetterTotal(keys[n].value, keys[best.value].value);
    }
  }

  /** Two candidates cannot both be the first best. */
  lemma FirstBestUnique(keys: seq<Option<seq<int>>>, a: Option<nat>, b: Option<nat>)
    requires Uniform(keys) && FirstBest(keys, |keys|, a) && FirstBest(keys, |keys|, b)
    ensures a == b
  {
  }

  /** Where less is better. */
  function Neg(x: int): int {
    -x
  }

  function B(b: bool): int {
    if b then 1 else 0
  }

  // ----- lnet_select_peer_ni, from no candidate, on one net -----

  datatype PeerNi = PeerNi(healthv: int, selPrio: nat, preferred: bool, txcredits: int, seqno: nat)

  /** The healthiest, then the highest priority (the lowest number), a preferred one, the most credits, and last the
      one used least. */
  function PeerKey(p: PeerNi): seq<int> {
    [p.healthv, Neg(p.selPrio), B(p.preferred), p.txcredits, Neg(p.seqno)]
  }

  function PeerKeys(ps: seq<PeerNi>): (r: seq<Option<seq<int>>>)
    ensures |r| == |ps| && Uniform(r) && forall i :: 0 <= i < |ps| ==> r[i] == Some(PeerKey(ps[i]))
  {
    seq(|ps|, i requires 0 <= i < |ps| => Some(PeerKey(ps[i])))
  }

  /** The tests of one iteration: true at select_lpni. */
  method PeerSelected(p: PeerNi, best: PeerNi) returns (take: bool)
    ensures take <==> Better(PeerKey(p), PeerKey(best))
  {
    Better5(p.healthv, Neg(p.selPrio), B(p.preferred), p.txcredits, Neg(p.seqno),
            best.healthv, Neg(best.selPrio), B(best.preferred), best.txcredits, Neg(best.seqno));
    if p.healthv < best.healthv { return false; } else if p.healthv > best.healthv { return true; }
    if p.selPrio > best.selPrio { return false; } else if p.selPrio < best.selPrio { return true; }
    if !best.preferred && p.preferred { return true; } else if best.preferred && !p.preferred { return false; }
    if p.txcredits < best.txcredits { return false; } else if p.txcredits > best.txcredits { return true; }
    if best.seqno <= p.seqno { return false; }
    return true;
  }

  method SelectPeerNi(ps: seq<PeerNi>) returns (best: Option<nat>)
    ensures FirstBest(PeerKeys(ps), |ps|, best)
  {
    best := None;
    ghost var keys := PeerKeys(ps);
    for i := 0 to |ps|
      invariant FirstBest(keys, i, best)
    {
      var take := best.None?;
      if best.Some? { take := PeerSelected(ps[i], ps[best.value]); }
      FirstStep(keys, i, best, take);
      if take { best := Some(i); }
    }
  }

  // ----- lnet_get_best_ni, from no candidate -----

  datatype Ni = Ni(fatal: bool, healthv: int, selPrio: nat, distance: nat, txcredits: int, seqno: nat)

  /** Distances below the NUMA range count as equal. */
  function Clamped(numaRange: nat, distance: nat): nat {
    if distance < numaRange then numaRange else distance
  }

  function NiKey(numaRange: nat, ni: Ni): Option<seq<int>> {
    if ni.fatal then None
    else Some([ni.healthv, Neg(ni.selPrio), Neg(Clamped(numaRange, ni.distance)), ni.txcredits, Neg(ni.seqno)])
  }

  function NiKeys(numaRange: nat, nis: seq<Ni>): (r: seq<Option<seq<int>>>)
    ensures |r| == |nis| && Uniform(r) && forall i :: 0 <= i < |nis| ==> r[i] == NiKey(numaRange, nis[i])
  {
    seq(|nis|, i requires 0 <= i < |nis| => NiKey(numaRange, nis[i]))
  }

  method NiSelected(ni: Ni, distance: nat, best: Ni, shortest: nat) returns (take: bool)
    ensures take <==> Better([ni.healthv, Neg(ni.selPrio), Neg(distance), ni.txcredits, Neg(ni.seqno)],
                             [best.healthv, Neg(best.selPrio), Neg(shortest), best.txcredits, Neg(best.seqno)])
  {
    Better5(ni.healthv, Neg(ni.selPrio), Neg(distance), ni.txcredits, Neg(ni.seqno),
            best.healthv, Neg(best.selPrio), Neg(shortest), best.txcredits, Neg(best.seqno));
    if ni.healthv < best.healthv { return false; } else if ni.healthv > best.healthv { return true; }
    if ni.selPrio > best.selPrio { return false; } else if ni.selPrio < best.selPrio { return true; }
    if distance > shortest { return false; } else if distance < shortest { return true; }
    if ni.txcredits < best.txcredits { return false; } else if ni.txcredits > best.txcredits { return true; }
    if best.seqno <= ni.seqno { return false; }
    return true;
  }

  method GetBestNi(nis: seq<Ni>, numaRange: nat) returns (best: Option<nat>)
    ensures FirstBest(NiKeys(numaRange, nis), |nis|, best)
  {
    best := None;
    var shortest: nat := 0;
    ghost var keys := NiKeys(numaRange, nis);
    for i := 0 to |nis|
      invariant FirstBest(keys, i, best)
      invariant best.Some? ==> shortest == Clamped(numaRange, nis[best.value].distance)
    {
      var distance := nis[i].distance;
      if distance < numaRange { distance := numaRange; }
      var take := !nis[i].fatal && best.None?;
      if !nis[i].fatal && best.Some? { take := NiSelected(nis[i], distance, nis[best.value], shortest); }
      FirstStep(keys, i, best, take);
      if take { best, shortest := Some(i), distance; }
    }
  }

  // ----- lnet_find_route_locked -----

  const UNDEFINED_HOPS := U32 - 1

  /** gw: txqnob and credits of the gateway's NI, if it has one on the source net. */
  datatype Gw = Gw(txqnob: int, txcredits: int)
  datatype Route = Route(alive: bool, preferred: bool, priority: nat, hops: nat, gw: Option<Gw>, seqno: int)

  /** lr_hops as the int it is compared as: undefined counts as 1. */
  function Hops(h: nat): int {
    if h == UNDEFINED_HOPS then 1 else if h >= U32 / 2 then h - U32 else h
  }

  /** lnet_compare_routes */
  function CompareRoutes(a: Route, b: Route): (r: int)
    ensures r == 1 <==> Better([Neg(a.priority), Neg(Hops(a.hops))], [Neg(b.priority), Neg(Hops(b.hops))])
    ensures r == -1 <==> Better([Neg(b.priority), Neg(Hops(b.hops))], [Neg(a.priority), Neg(Hops(a.hops))])
    ensures r == 0 || r == 1 || r == -1
  {
    Better2(Neg(a.priority), Neg(Hops(a.hops)), Neg(b.priority), Neg(Hops(b.hops)));
    Better2(Neg(b.priority), Neg(Hops(b.hops)), Neg(a.priority), Neg(Hops(a.hops)));
    if a.priority < b.priority then 1 else if a.priority > b.priority then -1
    else if Hops(a.hops) < Hops(b.hops) then 1 else if Hops(a.hops) > Hops(b.hops) then -1 else 0
  }

  /** lnet_compare_gw_lpnis */
  function CompareGw(a: Gw, b: Gw): (r: int)
    ensures r == 1 <==> Better([Neg(a.txqnob), a.txcredits], [Neg(b.txqnob), b.txcredits])
    ensures r == -1 <==> Better([Neg(b.txqnob), b.txcredits], [Neg(a.txqnob), a.txcredits])
    ensures r == 0 || r == 1 || r == -1
  {
    Better2(Neg(a.txqnob), a.txcredits, Neg(b.txqnob), b.txcredits);
    Better2(Neg(b.txqnob), b.txcredits, Neg(a.txqnob), a.txcredits);
    if a.txqnob < b.txqnob then 1 else if a.txqnob > b.txqnob then -1
    else if a.txcredits > b.txcredits then 1 else if a.txcredits < b.txcredits then -1 else 0
  }

  /** A preferred router, then the lowest priority number, the fewest hops, the shortest queue, the most credits, and
      the least used. */
  function RouteKey(r: Route): Option<seq<int>> {
    if r.alive && r.gw.Some?
    then Some([B(r.preferred), Neg(r.priority), Neg(Hops(r.hops)), Neg(r.gw.value.txqnob), r.gw.value.txcredits,
               Neg(r.seqno)])
    else None
  }

  function RouteKeys(rs: seq<Route>): (k: seq<Option<seq<int>>>)
    ensures |k| == |rs| && Uniform(k) && forall i :: 0 <= i < |rs| ==> k[i] == RouteKey(rs[i])
  {
    seq(|rs|, i requires 0 <= i < |rs| => RouteKey(rs[i]))
  }

  lemma Better6(a0: int, a1: int, a2: int, a3: int, a4: int, a5: int, b0: int, b1: int, b2: int, b3: int, b4: int,
                b5: int)
    ensures Better([a0, a1, a2, a3, a4, a5], [b0, b1, b2, b3, b4, b5]) <==>
            a0 > b0 || (a0 == b0 && Better([a1, a2, a3, a4, a5], [b1, b2, b3, b4, b5]))
  {
    BetterCons(a0, [a1, a2, a3, a4, a5], b0, [b1, b2, b3, b4, b5]);
    assert [a0] + [a1, a2, a3, a4, a5] == [a0, a1, a2, a3, a4, a5] &&
             [b0] + [b1, b2, b3, b4, b5] == [b0, b1, b2, b3, b4, b5];
  }

  /** Whether b stays against a, in the terms of the loop. */
  lemma RouteOrder(a: Route, b: Route)
    requires RouteKey(a).Some? && RouteKey(b).Some?
    ensures Better(RouteKey(b).value, RouteKey(a).value) <==>
            || (b.preferred && !a.preferred)
            || (a.preferred == b.preferred &&
                  (|| CompareRoutes(a, b) == -1
                   || (CompareRoutes(a, b) == 0 &&
                         (CompareGw(a.gw.value, b.gw.value) == -1 ||
                          (CompareGw(a.gw.value, b.gw.value) == 0 && b.seqno < a.seqno)))))
  {
    var x, y := a.gw.value, b.gw.value;
    Better6(B(b.preferred), Neg(b.priority), Neg(Hops(b.hops)), Neg(y.txqnob), y.txcredits, Neg(b.seqno),
            B(a.preferred), Neg(a.priority), Neg(Hops(a.hops)), Neg(x.txqnob), x.txcredits, Neg(a.seqno));
    Better5(Neg(b.priority), Neg(Hops(b.hops)), Neg(y.txqnob), y.txcredits, Neg(b.seqno), Neg(a.priority),
            Neg(Hops(a.hops)), Neg(x.txqnob), x.txcredits, Neg(a.seqno));
    Better2(Neg(a.priority), Neg(Hops(a.hops)), Neg(b.priority), Neg(Hops(b.hops)));
    Better2(Neg(b.priority), Neg(Hops(b.hops)), Neg(a.priority), Neg(Hops(a.hops)));
    Better2(Neg(x.txqnob), x.txcredits, Neg(y.txqnob), y.txcredits);
    Better2(Neg(y.txqnob), y.txcredits, Neg(x.txqnob), x.txcredits);
  }

  /** The last route used: of the routes alive from the first usable one on, the one with the highest lr_seq. */
  predicate LastUsed(rs: seq<Route>, n: nat, last: Option<nat>)
    requires n <= |rs|
  {
    match last
    case None => forall j :: 0 <= j < n ==> RouteKey(rs[j]).None?
    case Some(l) =>
      && l < n && rs[l].alive
      && (exists f :: 0 <= f <= l && RouteKey(rs[f]).Some? && forall j :: 0 <= j < f ==> RouteKey(rs[j]).None?)
      && (forall f, j :: 0 <= f < n && RouteKey(rs[f]).Some? && f <= j < n && rs[j].alive ==>
          rs[j].seqno <= rs[l].seqno)
  }

  /** The body of the loop for a live route: whether it becomes the best. */
  method RouteSelected(route: Route, best: Option<Route>) returns (take: bool)
    requires route.alive && (best.Some? ==> RouteKey(best.value).Some?)
    ensures take <==>
              RouteKey(route).Some? && (best.None? || !Better(RouteKey(best.value).value, RouteKey(route).value))
  {
    var bestPreferred := best.Some? && best.value.preferred;
    if best.None? || (route.preferred && !bestPreferred) {
      if route.gw.None? { return false; }
    }
    if best.Some? && route.gw.Some? { RouteOrder(route, best.value); }
    if route.preferred && !bestPreferred { return true; }
    if !route.preferred && bestPreferred { return false; }
    if best.None? { return true; }
    var rc := CompareRoutes(route, best.value);
    if rc == -1 { return false; }
    if route.gw.None? { return false; }
    if rc == 1 { return true; }
    rc := CompareGw(route.gw.value, best.value.gw.value);
    if rc == -1 { return false; }
    return rc == 1 || route.seqno <= best.value.seqno;
  }

  lemma LastUsedStep(rs: seq<Route>, i: nat, last: Option<nat>)
    requires i < |rs| && LastUsed(rs, i, last)
    ensures var use := rs[i].alive && (if last.Some? then rs[last.value].seqno < rs[i].seqno
                                       else RouteKey(rs[i]).Some?);
            LastUsed(rs, i + 1, if use then Some(i) else last)
  {
  }

  /** best and last are right for the first n routes. */
  ghost predicate FoundTo(rs: seq<Route>, n: nat, best: Option<nat>, last: Option<nat>) {
    && n <= |rs| && LastBest(RouteKeys(rs), n, best) && LastUsed(rs, n, last)
    && (best.Some? <==> last.Some?) && (best.Some? ==>
                                        best.value < n && last.value < n && RouteKey(rs[best.value]).Some?)
  }

  lemma FoundStep(rs: seq<Route>, i: nat, best: Option<nat>, last: Option<nat>, take: bool)
    requires i < |rs| && FoundTo(rs, i, best, last)
    requires take <==>
               RouteKey(rs[i]).Some? && (best.None? || !Better(RouteKey(rs[best.value]).value, RouteKey(rs[i]).value))
    ensures FoundTo(rs, i + 1, if take then Some(i) else best,
                    if last.None? then (if take then Some(i) else None)
                    else if rs[i].alive && rs[last.value].seqno < rs[i].seqno then Some(i) else last)
  {
    LastStep(RouteKeys(rs), i, best, take);
    LastUsedStep(rs, i, last);
  }

  method FindRoute(rs: seq<Route>) returns (best: Option<nat>, last: Option<nat>)
    ensures LastBest(RouteKeys(rs), |rs|, best)
    ensures LastUsed(rs, |rs|, last)
  {
    best, last := None, None;
    for i := 0 to |rs|
      invariant FoundTo(rs, i, best, last)
    {
      if !rs[i].alive {
        FoundStep(rs, i, best, last, false);
      } else {
        var take := RouteSelected(rs[i], if best.None? then None else Some(rs[best.value]));
        FoundStep(rs, i, best, last, take);
        if last.Some? && rs[last.value].seqno - rs[i].seqno < 0 { last := Some(i); }
        if take {
          best := Some(i);
          if last.None? { last := Some(i); }
        }
      }
    }
  }
}
