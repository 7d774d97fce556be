/** A table that is being rehashed still behaves as the multimap of its items. */
module RehashProof {
  import opened Common
  import opened Rehash

  // ----- multiset bookkeeping -----

  lemma Carry(a: multiset<Item>, r: multiset<Item>, r': multiset<Item>, m: multiset<Item>, l: multiset<Item>)
    requires r' + m == r + l
    ensures a + r' + m == a + r + l
  {
    assert a + r' + m == a + (r' + m);
    assert a + r + l == a + (r + l);
  }

  lemma {:induction false} ListSet(ls: seq<seq<Item>>, o: nat, l: seq<Item>)
    requires o < |ls|
    ensures ListItems(ls[o := l]) + multiset(ls[o]) == ListItems(ls) + multiset(l)
  {
    if o == 0 {
      assert ls[o := l][1..] == ls[1..];
    } else {
      ListSet(ls[1..], o - 1, l);
      assert ls[o := l][1..] == ls[1..][o - 1 := l] && ls[1..][o - 1] == ls[o];
      Carry(multiset(ls[0]), ListItems(ls[1..]), ListItems(ls[o := l][1..]), multiset(ls[o]), multiset(l));
    }
  }

  lemma {:induction false} BktSet(bs: seq<Bkt>, b: nat, x: Bkt)
    requires b < |bs|
    ensures Items(bs[b := x]) + ListItems(bs[b].lists) == Items(bs) + ListItems(x.lists)
  {
    if b == 0 {
      assert bs[b := x][1..] == bs[1..];
    } else {
      BktSet(bs[1..], b - 1, x);
      assert bs[b := x][1..] == bs[1..][b - 1 := x] && bs[1..][b - 1] == bs[b];
      Carry(ListItems(bs[0].lists), Items(bs[1..]), Items(bs[b := x][1..]), ListItems(bs[b].lists), ListItems(x.lists));
    }
  }

  /** If one part grows from m to m + d, so does the whole. */
  lemma Grows(t: multiset<Item>, t': multiset<Item>, m: multiset<Item>, d: multiset<Item>)
    requires t' + m == t + (m + d)
    ensures t' == t + d
  {
    assert t + (m + d) == t + d + m;
    forall x ensures t'[x] == (t + d)[x] {
      assert (t' + m)[x] == t'[x] + m[x] && (t + d + m)[x] == (t + d)[x] + m[x];
    }
  }

  lemma {:induction false} ListIn(ls: seq<seq<Item>>, x: Item)
    ensures x in ListItems(ls) <==> exists o :: 0 <= o < |ls| && x in ls[o]
  {
    if ls != [] {
      ListIn(ls[1..], x);
      assert ls == [ls[0]] + ls[1..];
      assert forall o :: 0 <= o < |ls| - 1 ==> ls[1..][o] == ls[o + 1];
      if o :| 0 <= o < |ls| && x in ls[o] { if o > 0 { assert x in ls[1..][o - 1]; } }
    }
  }

  lemma {:induction false} ItemIn(bs: seq<Bkt>, x: Item)
    ensures x in Items(bs) <==> exists b, o :: 0 <= b < |bs| && 0 <= o < |bs[b].lists| && x in bs[b].lists[o]
  {
    if bs != [] {
      ItemIn(bs[1..], x);
      ListIn(bs[0].lists, x);
      if b, o :| 0 <= b < |bs| && 0 <= o < |bs[b].lists| && x in bs[b].lists[o] {
        if b > 0 { assert x in bs[1..][b - 1].lists[o]; }
      }
      if x in Items(bs[1..]) {
        var b, o :| 0 <= b < |bs| - 1 && 0 <= o < |bs[1..][b].lists| && x in bs[1..][b].lists[o];
        assert x in bs[b + 1].lists[o];
      }
    }
  }

  lemma AddListItems(cfg: Cfg, ls: seq<seq<Item>>, o: nat, x: Item)
    requires o < |ls|
    ensures ListItems(ls[o := Insert(cfg, ls[o], x)]) == ListItems(ls) + multiset{x}
  {
    var l := Insert(cfg, ls[o], x);
    assert multiset(l) == multiset(ls[o]) + multiset{x};
    ListSet(ls, o, l);
    Grows(ListItems(ls), ListItems(ls[o := l]), multiset(ls[o]), multiset{x});
  }

  lemma AddItems(cfg: Cfg, bs: seq<Bkt>, at: (nat, nat), x: Item)
    requires at.0 < |bs| && at.1 < |bs[at.0].lists|
    ensures Items(AddAt(cfg, bs, at, x)) == Items(bs) + multiset{x}
    ensures ListItems(AddAt(cfg, bs, at, x)[at.0].lists) == ListItems(bs[at.0].lists) + multiset{x}
  {
    var b := bs[at.0];
    var b' := Bkt(b.lists[at.1 := Insert(cfg, b.lists[at.1], x)], b.count + 1);
    var bs' := bs[at.0 := b'];
    assert AddAt(cfg, bs, at, x) == bs';
    AddListItems(cfg, b.lists, at.1, x);
    BktSet(bs, at.0, b');
    Grows(Items(bs), Items(bs'), ListItems(b.lists), multiset{x});
  }

  lemma DelItems(bs: seq<Bkt>, at: (nat, nat), k: nat)
    requires at.0 < |bs| && at.1 < |bs[at.0].lists| && k < |bs[at.0].lists[at.1]|
    ensures Items(bs) == Items(DelAt(bs, at, k)) + multiset{At(bs, at)[k]}
    ensures ListItems(bs[at.0].lists) == ListItems(DelAt(bs, at, k)[at.0].lists) + multiset{At(bs, at)[k]}
  {
    var b := bs[at.0];
    var l := b.lists[at.1];
    var b' := Bkt(b.lists[at.1 := Without(l, k)], b.count - 1);
    assert l == l[..k] + [l[k]] + l[k + 1..];
    assert multiset(l) == multiset(Without(l, k)) + multiset{l[k]};
    ListSet(b.lists, at.1, Without(l, k));
    Grows(ListItems(b'.lists), ListItems(b.lists), multiset(Without(l, k)), multiset{l[k]});
    BktSet(bs, at.0, b');
    Grows(Items(bs[at.0 := b']), Items(bs), ListItems(b'.lists), multiset{l[k]});
  }

  /** hsb_count of every bucket is the number of its items. */
  ghost predicate Counted(bs: seq<Bkt>) {
    forall b :: 0 <= b < |bs| ==> bs[b].count == |ListItems(bs[b].lists)|
  }

  lemma AddCounted(cfg: Cfg, bs: seq<Bkt>, at: (nat, nat), x: Item)
    requires Counted(bs) && at.0 < |bs| && at.1 < |bs[at.0].lists|
    ensures Counted(AddAt(cfg, bs, at, x))
  {
    AddItems(cfg, bs, at, x);
  }

  lemma DelCounted(bs: seq<Bkt>, at: (nat, nat), k: nat)
    requires Counted(bs) && at.0 < |bs| && at.1 < |bs[at.0].lists| && k < |bs[at.0].lists[at.1]|
    ensures Counted(DelAt(bs, at, k))
  {
    DelItems(bs, at, k);
  }

  // ----- moving one bucket -----

  /** Every item is at its new location, or still at its old one in a bucket not yet processed. */
  ghost predicate Sited(cfg: Cfg, bs: seq<Bkt>, cur: nat, reh: nat, next: nat) {
    forall b, o, x :: 0 <= b < |bs| && 0 <= o < |bs[b].lists| && x in bs[b].lists[o] ==>
      cfg.loc(x.key, reh) == (b, o) || (b >= next && cfg.loc(x.key, cur) == (b, o))
  }

  /** The same in the middle of bucket i, at index k of its list o. */
  ghost predicate Partly(cfg: Cfg, bs: seq<Bkt>, cur: nat, reh: nat, i: nat, o: nat, k: nat) {
    && (forall b, p, x :: 0 <= b < |bs| && 0 <= p < |bs[b].lists| && x in bs[b].lists[p] && (b, p) != (i, o) ==>
          cfg.loc(x.key, reh) == (b, p) || ((b > i || (b == i && p > o)) && cfg.loc(x.key, cur) == (b, p)))
    && (i < |bs| && o < |bs[i].lists| ==>
          forall j :: 0 <= j < |bs[i].lists[o]| ==>
            cfg.loc(bs[i].lists[o][j].key, reh) == (i, o) || (j >= k && cfg.loc(bs[i].lists[o][j].key, cur) == (i, o)))
  }

  lemma PartlyMove(cfg: Cfg, bs: seq<Bkt>, cur: nat, reh: nat, i: nat, o: nat, k: nat)
    requires Shaped(cfg, bs) && Partly(cfg, bs, cur, reh, i, o, k)
    requires i < |bs| && o < |bs[i].lists| && k < |bs[i].lists[o]|
    requires var at := cfg.loc(bs[i].lists[o][k].key, reh); at != (i, o) && at.0 < |bs| && at.1 < Pow2(cfg.bktBits)
    ensures var x := bs[i].lists[o][k];
            var bs' := MoveOne(cfg, bs, (i, o), k, cfg.loc(x.key, reh));
            Shaped(cfg, bs') && |bs'| == |bs| && bs'[i].lists[o] == Without(bs[i].lists[o], k) &&
              Partly(cfg, bs', cur, reh, i, o, k)
  {
    var x := bs[i].lists[o][k];
    var at := cfg.loc(x.key, reh);
    var bs1 := DelAt(bs, (i, o), k);
    var bs' := AddAt(cfg, bs1, at, x);
    forall b, p, y | 0 <= b < |bs'| && 0 <= p < |bs'[b].lists| && y in bs'[b].lists[p] && (b, p) != (i, o)
      ensures y in bs[b].lists[p] || (y == x && (b, p) == at)
    {
      assert bs1[b].lists[p] == bs[b].lists[p];
    }
  }

  lemma {:induction false} MoveAllSites(cfg: Cfg, bs: seq<Bkt>, cur: nat, reh: nat, i: nat, o: nat, k: nat)
    requires CfgOk(cfg) && cfg.minBits <= reh <= cfg.maxBits && Shaped(cfg, bs) && i < |bs| && Size(cfg, reh) <= |bs|
    requires o <= Pow2(cfg.bktBits) && (o < Pow2(cfg.bktBits) ==> k <= |bs[i].lists[o]|)
    requires Partly(cfg, bs, cur, reh, i, o, k)
    ensures var r := MoveAll(cfg, bs, reh, i, o, k);
            Shaped(cfg, r) && |r| == |bs| && Sited(cfg, r, cur, reh, i + 1)
    decreases Pow2(cfg.bktBits) - o, if o < Pow2(cfg.bktBits) then |bs[i].lists[o]| - k else 0
  {
    if o == Pow2(cfg.bktBits) {
    } else if k == |bs[i].lists[o]| {
      assert Partly(cfg, bs, cur, reh, i, o + 1, 0);
      MoveAllSites(cfg, bs, cur, reh, i, o + 1, 0);
    } else {
      var x := bs[i].lists[o][k];
      if cfg.loc(x.key, reh) == (i, o) {
        MoveAllSites(cfg, bs, cur, reh, i, o, k + 1);
      } else {
        PartlyMove(cfg, bs, cur, reh, i, o, k);
        MoveAllSites(cfg, MoveOne(cfg, bs, (i, o), k, cfg.loc(x.key, reh)), cur, reh, i, o, k);
      }
    }
  }

  lemma MoveOneKeeps(cfg: Cfg, bs: seq<Bkt>, from: (nat, nat), k: nat, to: (nat, nat))
    requires Movable(bs, from, k, to)
    ensures Items(MoveOne(cfg, bs, from, k, to)) == Items(bs)
    ensures Counted(bs) ==> Counted(MoveOne(cfg, bs, from, k, to))
  {
    var bs1 := DelAt(bs, from, k);
    DelItems(bs, from, k);
    AddItems(cfg, bs1, to, At(bs, from)[k]);
    if Counted(bs) { DelCounted(bs, from, k); AddCounted(cfg, bs1, to, At(bs, from)[k]); }
  }

  /** The table holds the same items, and every bucket that counted its own still does. */
  ghost predicate SameItems(bs: seq<Bkt>, bs': seq<Bkt>) {
    Items(bs') == Items(bs) && (Counted(bs) ==> Counted(bs'))
  }

  /** What every single move keeps, the whole walk keeps. */
  lemma {:induction false} MoveAllInduction(cfg: Cfg, bs: seq<Bkt>, reh: nat, i: nat, o: nat, k: nat,
                                            p: seq<Bkt> -> bool)
    requires CfgOk(cfg) && cfg.minBits <= reh <= cfg.maxBits && Shaped(cfg, bs) && i < |bs| && Size(cfg, reh) <= |bs|
    requires o <= Pow2(cfg.bktBits) && (o < Pow2(cfg.bktBits) ==> k <= |bs[i].lists[o]|)
    requires p(bs) && forall b, from, j, to :: p(b) && Movable(b, from, j, to) ==> p(MoveOne(cfg, b, from, j, to))
    ensures p(MoveAll(cfg, bs, reh, i, o, k))
    decreases Pow2(cfg.bktBits) - o, if o < Pow2(cfg.bktBits) then |bs[i].lists[o]| - k else 0
  {
    if o == Pow2(cfg.bktBits) {
    } else if k == |bs[i].lists[o]| {
      MoveAllInduction(cfg, bs, reh, i, o + 1, 0, p);
    } else {
      var at := cfg.loc(bs[i].lists[o][k].key, reh);
      if at == (i, o) {
        MoveAllInduction(cfg, bs, reh, i, o, k + 1, p);
      } else {
        assert Movable(bs, (i, o), k, at);
        MoveAllInduction(cfg, MoveOne(cfg, bs, (i, o), k, at), reh, i, o, k, p);
      }
    }
  }

  /** Moving a bucket moves items and nothing else. */
  lemma MoveAllKeeps(cfg: Cfg, bs: seq<Bkt>, reh: nat, i: nat)
    requires CfgOk(cfg) && cfg.minBits <= reh <= cfg.maxBits && Shaped(cfg, bs) && i < |bs| && Size(cfg, reh) <= |bs|
    ensures SameItems(bs, MoveAll(cfg, bs, reh, i, 0, 0))
  {
    forall b, from, j, to | SameItems(bs, b) && Movable(b, from, j, to)
      ensures SameItems(bs, MoveOne(cfg, b, from, j, to))
    {
      MoveOneKeeps(cfg, b, from, j, to);
    }
    MoveAllInduction(cfg, bs, reh, i, 0, 0, b => SameItems(bs, b));
  }

  // ----- the invariant -----

  /** Outside a rehash every item is at its place, except in a table whose destruction cut a growing rehash short. */
  ghost predicate Placed(cfg: Cfg, h: Hash) {
    if h.active then Sited(cfg, h.bkts, h.cur, h.reh, h.next)
    else !h.exiting || h.reh != 0 ==> Sited(cfg, h.bkts, h.cur, h.cur, 0)
  }

  ghost predicate Inv(cfg: Cfg, h: Hash) {
    && CfgOk(cfg) && WellFormed(cfg, h) && Placed(cfg, h) && Counted(h.bkts) && h.count == |Items(h.bkts)|
  }

  lemma {:induction false} EmptyLists(n: nat)
    ensures ListItems(Blank(n)) == multiset{}
  {
    if n > 0 {
      EmptyLists(n - 1);
      assert Blank(n)[1..] == Blank(n - 1);
    }
  }

  lemma {:induction false} EmptyBkts(cfg: Cfg, n: nat)
    ensures Items(Empties(cfg, n)) == multiset{}
    ensures Counted(Empties(cfg, n))
  {
    EmptyLists(Pow2(cfg.bktBits));
    if n > 0 {
      EmptyBkts(cfg, n - 1);
      assert Empties(cfg, n)[1..] == Empties(cfg, n - 1);
    }
  }

  lemma PlusAssoc(l: multiset<Item>, r: multiset<Item>, t: multiset<Item>)
    ensures l + (r + t) == l + r + t
  {
  }

  lemma {:induction false} ItemsConcat(a: seq<Bkt>, b: seq<Bkt>)
    ensures Items(a + b) == Items(a) + Items(b)
  {
    if a == [] {
      assert a + b == b;
    } else {
      ItemsConcat(a[1..], b);
      assert a + b == [a[0]] + (a[1..] + b);
      ItemsCons(a[0], a[1..] + b);
      PlusAssoc(ListItems(a[0].lists), Items(a[1..]), Items(b));
    }
  }

  lemma ItemsCons(x: Bkt, bs: seq<Bkt>)
    ensures Items([x] + bs) == ListItems(x.lists) + Items(bs)
  {
    assert ([x] + bs)[1..] == bs;
  }

  lemma InitInv(cfg: Cfg)
    requires CfgOk(cfg)
    ensures Inv(cfg, Init(cfg))
  {
    EmptyBkts(cfg, Size(cfg, cfg.minBits));
  }

  /** Buckets without items can be dropped or added. */
  lemma {:induction false} NoItems(bs: seq<Bkt>)
    requires forall b, o :: 0 <= b < |bs| && 0 <= o < |bs[b].lists| ==> bs[b].lists[o] == []
    ensures Items(bs) == multiset{}
  {
    if x :| x in Items(bs) {
      ItemIn(bs, x);
    }
  }

  lemma ProcessedSite(cfg: Cfg, h: Hash, b: nat, o: nat, x: Item)
    requires Inv(cfg, h) && h.active && h.next == Size(cfg, h.cur)
    requires b < |h.bkts| && o < |h.bkts[b].lists| && x in h.bkts[b].lists[o]
    ensures cfg.loc(x.key, h.reh) == (b, o) && b < Size(cfg, h.reh)
  {
    assert cfg.loc(x.key, h.cur).0 < Size(cfg, h.cur);
    assert cfg.loc(x.key, h.reh).0 < Size(cfg, h.reh);
  }

  /** When the last bucket has been processed, everything is at its new location: a shrink frees empty buckets only. */
  lemma ProcessedIsNew(cfg: Cfg, h: Hash)
    requires Inv(cfg, h) && h.active && h.next == Size(cfg, h.cur)
    ensures Sited(cfg, h.bkts, h.reh, h.reh, 0)
    ensures forall b, o :: Size(cfg, h.reh) <= b < |h.bkts| && 0 <= o < |h.bkts[b].lists| ==> h.bkts[b].lists[o] == []
  {
    forall b, o, x | 0 <= b < |h.bkts| && 0 <= o < |h.bkts[b].lists| && x in h.bkts[b].lists[o]
      ensures cfg.loc(x.key, h.reh) == (b, o)
    {
      ProcessedSite(cfg, h, b, o, x);
    }
    forall b, o | Size(cfg, h.reh) <= b < |h.bkts| && 0 <= o < |h.bkts[b].lists| ensures h.bkts[b].lists[o] == [] {
      if h.bkts[b].lists[o] != [] { ProcessedSite(cfg, h, b, o, h.bkts[b].lists[o][0]); }
    }
  }

  // ----- lookups -----

  lemma {:induction false} FindInOk(l: seq<Item>, key: nat, want: Option<Item>)
    ensures FindIn(l, key, want).None? <==> forall x :: x in l ==> x.key != key || (want.Some? && want.value != x)
    ensures FindIn(l, key, want).Some? ==>
              l[FindIn(l, key, want).value].key == key && (want.Some? ==> l[FindIn(l, key, want).value] == want.value)
  {
    if l != [] { FindInOk(l[1..], key, want); }
  }

  /** Every item with this key is in one of the one or two lists a search goes through. */
  lemma KeyInDuals(cfg: Cfg, h: Hash, b: nat, o: nat, x: Item)
    requires Inv(cfg, h) && !h.exiting && b < |h.bkts| && o < |h.bkts[b].lists| && x in h.bkts[b].lists[o]
    ensures (b, o) in Duals(cfg, h, x.key)
  {
  }

  lemma {:induction false} SearchOk(cfg: Cfg, h: Hash, ats: seq<(nat, nat)>, key: nat, want: Option<Item>)
    requires WellFormed(cfg, h) && forall j :: 0 <= j < |ats| ==> InTable(cfg, h, ats[j])
    ensures match Search(cfg, h, ats, key, want)
            case None => forall at, x :: at in ats && InTable(cfg, h, at) && x in At(h.bkts, at) ==>
              x.key != key || (want.Some? && want.value != x)
            case Some((at, k)) =>
              && InTable(cfg, h, at) && k < |At(h.bkts, at)| && At(h.bkts, at)[k].key == key
              && (want.Some? ==> At(h.bkts, at)[k] == want.value)
  {
    if ats != [] {
      assert InTable(cfg, h, ats[0]);
      FindInOk(At(h.bkts, ats[0]), key, want);
      SearchOk(cfg, h, ats[1..], key, want);
    }
  }

  /** A lookup answers as the multimap would, at any point of a rehash: it finds an item with this key (and
      identity, if given) exactly when there is one. */
  lemma LookupRefines(cfg: Cfg, h: Hash, key: nat, want: Option<Item>)
    requires Inv(cfg, h) && !h.exiting
    ensures match Lookup(cfg, h, key, want)
            case None => forall x :: x in Items(h.bkts) ==> x.key != key || (want.Some? && want.value != x)
            case Some((at, k)) =>
              && InTable(cfg, h, at) && k < |At(h.bkts, at)| && At(h.bkts, at)[k].key == key
              && (want.Some? ==> At(h.bkts, at)[k] == want.value)
              && At(h.bkts, at)[k] in Items(h.bkts)
  {
    DualsInTable(cfg, h, key);
    var ats := Duals(cfg, h, key);
    SearchOk(cfg, h, ats, key, want);
    match Lookup(cfg, h, key, want) {
      case None =>
        forall x | x in Items(h.bkts) && x.key == key ensures want.Some? && want.value != x {
          ItemIn(h.bkts, x);
          var b, o :| 0 <= b < |h.bkts| && 0 <= o < |h.bkts[b].lists| && x in h.bkts[b].lists[o];
          KeyInDuals(cfg, h, b, o, x);
          assert InTable(cfg, h, (b, o)) && x in At(h.bkts, (b, o));
        }
      case Some((at, k)) => ItemIn(h.bkts, At(h.bkts, at)[k]);
    }
  }
}
