/** The in-place code of lib-ptl.c, proved against the functions the step machine is built from. */
module PortalCode {
  import opened Common
  import opened MatchTable
  import opened Portal
  import opened PortalInv

  // ----- ptl_mt_maps -----

  lemma {:induction false} InsertAt(v: seq<nat>, k: nat, c: nat)
    requires k <= |v| && (k > 0 ==> v[k - 1] < c)
    requires forall j :: k <= j < |v| ==> v[j] > c
    ensures Insert(v, c) == v[..k] + [c] + v[k..]
  {
    if |v| > k {
      var front := v[..|v| - 1];
      InsertAt(front, k, c);
      assert front[..k] == v[..k];
      assert v[..k] + [c] + front[k..] + [v[|v| - 1]] == v[..k] + [c] + v[k..];
    } else {
      assert v == v[..k];
    }
  }

  lemma {:induction false} RemoveAt(v: seq<nat>, k: nat, c: nat)
    requires k < |v| && v[k] == c && forall j :: 0 <= j < k ==> v[j] != c
    ensures Remove(v, c) == v[..k] + v[k + 1..]
  {
    if k > 0 {
      RemoveAt(v[1..], k - 1, c);
      assert [v[0]] + v[1..][..k - 1] == v[..k];
    }
  }

  lemma Inserted(v: seq<nat>, k: nat, c: nat, w: seq<nat>)
    requires Ascending(v) && c !in v && |w| == |v| + 1 && k <= |v| && w[k] == c && (k > 0 ==> v[k - 1] < c)
    requires forall j :: 0 <= j < k ==> w[j] == v[j]
    requires forall j {:trigger w[j]} :: k < j < |w| ==> w[j] == v[j - 1] && v[j - 1] > c
    ensures w == Insert(v, c) && Ascending(w)
  {
    forall j | k <= j < |v| ensures w[j + 1] == v[j] && v[j] > c { assert w[j + 1] == v[j + 1 - 1]; }
    InsertAt(v, k, c);
    InsertOk(v, c);
    assert w == v[..k] + [c] + v[k..];
  }

  lemma Removed(v: seq<nat>, k: nat, c: nat, w: seq<nat>)
    requires Ascending(v) && k < |v| && v[k] == c && |w| == |v| - 1
    requires forall j {:trigger w[j]} :: 0 <= j < |w| ==> w[j] == if j < k then v[j] else v[j + 1]
    ensures w == Remove(v, c) && Ascending(w)
  {
    RemoveAt(v, k, c);
    RemoveOk(v, c);
    assert w == v[..k] + v[k + 1..];
  }

  class MtMaps {
    var maps: array<nat>
    var nmaps: nat

    ghost predicate Valid() reads this, maps {
      nmaps <= maps.Length && Ascending(maps[..nmaps])
    }

    ghost function View(): seq<nat>
      reads this, maps
      requires nmaps <= maps.Length
    {
      maps[..nmaps]
    }

    /** lnet_ptl_enable_mt */
    method EnableMt(cpt: nat)
      requires Valid() && nmaps < maps.Length && cpt !in View()
      modifies this`nmaps, maps
      ensures Valid() && View() == Insert(old(View()), cpt)
    {
      ghost var v := View();
      var i := nmaps;
      maps[i] := cpt;
      while i > 0
        invariant 0 <= i <= nmaps == |v| < maps.Length
        invariant maps[i] == cpt
        invariant forall j :: 0 <= j < i ==> maps[j] == v[j]
        invariant forall j {:trigger maps[j]} :: i < j <= nmaps ==> maps[j] == v[j - 1] && v[j - 1] > cpt
      {
        assert v[i - 1] in v;
        if maps[i - 1] < cpt { break; }
        maps[i] := maps[i - 1];
        maps[i - 1] := cpt;
        i := i - 1;
      }
      nmaps := nmaps + 1;
      ghost var w := maps[..nmaps];
      assert forall j :: 0 <= j < |w| ==> w[j] == maps[j];
      Inserted(v, i, cpt, w);
    }

    /** lnet_ptl_disable_mt, on a system with more than one CPT */
    method DisableMt(cpt: nat)
      requires Valid() && cpt in View()
      modifies this`nmaps, maps
      ensures Valid() && View() == Remove(old(View()), cpt)
    {
      ghost var v := View();
      ghost var k :| 0 <= k < |v| && v[k] == cpt;
      assert forall j :: 0 <= j < |v| ==> (v[j] >= cpt <==> j >= k);
      nmaps := nmaps - 1;
      var n := nmaps;
      for i := 0 to n
        invariant nmaps == n && n + 1 == |v| <= maps.Length
        invariant forall j {:trigger maps[j]} :: 0 <= j < i ==> maps[j] == if j < k then v[j] else v[j + 1]
        invariant forall j {:trigger maps[j]} :: i <= j < |v| ==> maps[j] == v[j]
      {
        assert maps[i] == v[i] && maps[i + 1] == v[i + 1];
        if maps[i] >= cpt { maps[i] := maps[i + 1]; }
      }
      ghost var w := maps[..n];
      assert forall j :: 0 <= j < |w| ==> w[j] == maps[j];
      Removed(v, k, cpt, w);
    }
  }

  // ----- the match table -----

  const WORDS := 5
  const WORD_BITS := 64

  predicate AllOnes(w: seq<bool>) {
    forall q :: 0 <= q < |w| ==> w[q]
  }

  predicate NoneLive(l: seq<Me>) {
    forall me :: me in l ==> !Live(me)
  }

  /** A scan that found nothing in the first k entries goes on with the others. */
  lemma {:induction false} ScanSkips(l: seq<Me>, k: nat, info: Info)
    requires k <= |l| && forall j :: 0 <= j < k ==> !Takes(l[j], info)
    ensures var a, b := ScanList(l, info), ScanList(l[k..], info);
            && a.hit == b.hit && a.rest == l[..k] + b.rest
            && (a.drained <==> b.drained && NoneLive(l[..k]))
  {
    if k > 0 {
      var tail := l[1..];
      ScanSkips(tail, k - 1, info);
      assert tail[k - 1..] == l[k..];
      assert l[..k] == [l[0]] + tail[..k - 1];
      assert [l[0]] + (tail[..k - 1] + ScanList(l[k..], info).rest) == l[..k] + ScanList(l[k..], info).rest;
    } else {
      assert l[0..] == l;
    }
  }

  lemma NoneLiveStep(l: seq<Me>, k: nat)
    requires k < |l|
    ensures NoneLive(l[..k + 1]) <==> NoneLive(l[..k]) && !Live(l[k])
  {
    assert l[..k + 1] == l[..k] + [l[k]];
  }

  /** The four answers of lnet_try_match_md. */
  lemma TryMatchMeans(me: Me, info: Info)
    requires me.md.Some?
    ensures var rc := TryMatch(me, me.md.value, info);
            && (rc.Miss? <==> !Takes(me, info)) && (rc == Miss(true) <==> !Live(me))
            && (!rc.Miss? ==> (rc.Ok? <==> HitOf(me.md.value, info).ok))
  {
  }

  /** A scan that meets no taker. */
  lemma ScanMisses(l: seq<Me>, info: Info)
    requires forall j :: 0 <= j < |l| ==> !Takes(l[j], info)
    ensures ScanList(l, info) == Scan(None, l, NoneLive(l))
  {
    ScanSkips(l, |l|, info);
    assert l[..|l|] == l && l[|l|..] == [];
  }

  /** A scan that reaches its first taker at k. */
  lemma ScanHits(l: seq<Me>, k: nat, info: Info)
    requires k < |l| && Takes(l[k], info) && forall j :: 0 <= j < k ==> !Takes(l[j], info)
    ensures var md := l[k].md.value;
            var ok := TryMatch(l[k], md, info).Ok?;
            ScanList(l, info) == Scan(Some(Hit(md.id, ok, StartOffset(md, info), MLength(md, info))),
                                      if ok then l[..k] + AfterOk(l[k], md, info) + l[k + 1..] else l, false)
  {
    TryMatchMeans(l[k], info);
    ScanSkips(l, k, info);
    var left := Left(l[k], l[k].md.value, info);
    assert l[k..][0] == l[k] && l[k..][1..] == l[k + 1..];
    assert l[..k] + (left + l[k + 1..]) == l[..k] + left + l[k + 1..];
    assert l[..k] + [l[k]] + l[k + 1..] == l;
  }

  class MtTable {
    var mhash: array<seq<Me>>
    var words: array<seq<bool>>  // mt_exhausted: each __u64 as its 64 bits
    var enabled: bool

    /** The last word has one used bit; the others were set by lnet_ptl_setup and stay set. */
    ghost predicate Valid() reads this, words {
      && mhash.Length == NLISTS && words.Length == WORDS
      && (forall i :: 0 <= i < WORDS ==> |words[i]| == WORD_BITS)
      && AllOnes(words[WORDS - 1][1..])
    }

    ghost function Bits(): (r: seq<bool>)
      reads this, words
      requires Valid()
      ensures |r| == NLISTS
    {
      seq(NLISTS, p requires Valid() && 0 <= p < NLISTS reads this, words => words[p / 64][p % 64])
    }

    ghost function View(): Table
      reads this, mhash, words
      requires Valid()
    {
      Table(mhash[..], Bits(), enabled)
    }

    /** lnet_mt_test_exhausted with pos < 0, on a wildcard portal */
    method TestAllExhausted() returns (all: bool)
      requires Valid()
      ensures all <==> AllSpent(Bits())
    {
      var i := 0;
      while i < WORDS
        invariant 0 <= i <= WORDS
        invariant forall j :: 0 <= j < i ==> AllOnes(words[j])
      {
        if !AllOnes(words[i]) {
          ghost var q :| 0 <= q < 64 && !words[i][q];
          assert !Bits()[i * 64 + q];
          return false;
        }
        i := i + 1;
      }
      forall p | 0 <= p < NLISTS ensures Bits()[p] {
        assert AllOnes(words[p / 64]);
      }
      return true;
    }

    /** lnet_mt_set_exhausted */
    method SetExhausted(pos: nat, exhausted: bool)
      requires Valid() && pos < NLISTS
      modifies words
      ensures Valid() && Bits() == old(Bits())[pos := exhausted]
    {
      var w, q := pos / 64, pos % 64;
      words[w] := words[w][q := exhausted];
      forall p | 0 <= p < NLISTS ensures Bits()[p] == old(Bits())[pos := exhausted][p] {
        assert p / 64 == w && p % 64 == q ==> p == pos;
      }
    }

    /** The list loop of lnet_mt_match_md; with lnet_try_match_md's edit of the list once an entry takes the message. */
    static method WalkList(l: seq<Me>, info: Info) returns (hit: Option<Hit>, rest: seq<Me>, drained: bool)
      ensures ScanList(l, info) == Scan(hit, rest, drained)
    {
      var k := 0;
      drained := true;
      while k < |l|
        invariant k <= |l|
        invariant forall j :: 0 <= j < k ==> !Takes(l[j], info)
        invariant drained <==> NoneLive(l[..k])
      {
        var me := l[k];
        if me.md.Some? {
          var rc := TryMatch(me, me.md.value, info);
          TryMatchMeans(me, info);
          if rc != Miss(true) { drained := false; }
          if !rc.Miss? {
            ScanHits(l, k, info);
            rest := if rc.Ok? then l[..k] + AfterOk(me, me.md.value, info) + l[k + 1..] else l;
            var md := me.md.value;
            return Some(Hit(md.id, rc.Ok?, StartOffset(md, info), MLength(md, info))), rest, false;
          }
        }
        NoneLiveStep(l, k);
        k := k + 1;
      }
      assert l[..k] == l;
      ScanMisses(l, info);
      return None, l, drained;
    }

    /** One trip through the "again" label of lnet_mt_match_md. */
    method MatchPass(wildcard: bool, pos: nat, info: Info) returns (hit: Option<Hit>, exhausted: bool)
      requires Valid() && pos < NLISTS
      modifies mhash, words
      ensures Valid() && MtPass(wildcard, old(View()), pos, info) == Found(hit, View(), exhausted)
    {
      var rest, drained;
      hit, rest, drained := WalkList(mhash[pos], info);
      if hit.Some? {
        mhash[pos] := rest;
        return hit, false;
      }
      exhausted := wildcard && drained;
      if exhausted {
        SetExhausted(pos, true);
        exhausted := TestAllExhausted();
      }
    }

    /** lnet_mt_match_md, up to the DROP or NONE the caller adds when nothing matched. */
    method MatchMd(wildcard: bool, head: nat, info: Info) returns (hit: Option<Hit>, exhausted: bool)
      requires Valid() && head < HASH_SIZE
      modifies mhash, words
      ensures Valid() && MtMatch(wildcard, old(View()), head, info) == Found(hit, View(), exhausted)
    {
      var ignoring := mhash[IGNORE_LIST] != [];
      hit, exhausted := MatchPass(wildcard, if ignoring then IGNORE_LIST else head, info);
      if hit.None? && !exhausted && ignoring {
        hit, exhausted := MatchPass(wildcard, head, info);
      }
    }
  }

  // ----- lnet_ptl_attach_md -----

  function Join(taken: map<nat, bool>, rest: seq<nat>, s: Sweep): Sweep {
    Sweep(s.left, taken + s.taken, rest + s.rest, s.exhausted)
  }

  lemma JoinAssoc(t: map<nat, bool>, r: seq<nat>, t1: map<nat, bool>, r1: seq<nat>, s: Sweep)
    ensures Join(t, r, Join(t1, r1, s)) == Join(t + t1, r + r1, s)
  {
    assert t + (t1 + s.taken) == t + t1 + s.taken;
    assert r + (r1 + s.rest) == r + r1 + s.rest;
  }

  /** One of the two list loops: try the new MD on every blocked message until it is exhausted. */
  method SweepLoop(info: nat -> Info, me: Me, md0: Md, msgs: seq<nat>) returns (r: Sweep)
    ensures r == SweepMsgs(info, me, md0, msgs)
  {
    var md := md0;
    var taken: map<nat, bool> := map[];
    var rest: seq<nat> := [];
    var k := 0;
    assert msgs[0..] == msgs;
    while k < |msgs|
      invariant k <= |msgs|
      invariant SweepMsgs(info, me, md0, msgs) == Join(taken, rest, SweepMsgs(info, me, md, msgs[k..]))
    {
      var m := msgs[k];
      var tail := msgs[k + 1..];
      assert msgs[k..][0] == m && msgs[k..][1..] == tail;
      var rc := TryMatch(me, md, info(m));
      if rc.Miss? {
        if rc.exhausted { return Sweep([me.(md := Some(md))], taken, rest + msgs[k..], true); }
        JoinAssoc(taken, rest, map[], [m], SweepMsgs(info, me, md, tail));
        rest := rest + [m];
      } else if rc.Drop? {
        JoinAssoc(taken, rest, map[m := false], [], SweepMsgs(info, me, md, tail));
        taken := taken + map[m := false];
      } else {
        if rc.exhausted { return Sweep(AfterOk(me, md, info(m)), taken + map[m := true], rest + tail, true); }
        JoinAssoc(taken, rest, map[m := true], [], SweepMsgs(info, me, Committed(md, info(m)), tail));
        taken := taken + map[m := true];
        md := Committed(md, info(m));
      }
      k := k + 1;
    }
    return Sweep([me.(md := Some(md))], taken, rest, false);
  }
}
