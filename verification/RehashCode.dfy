/** The in-place code of hash.c: bucket objects shared by the old and the new array, edited under the locks. */
module RehashCode {
  import opened Common
  import opened Rehash
  import opened RehashProof
  import RehashTheorems

  class HBucket {
    const index: nat  // hsb_index
    var lists: seq<seq<Item>>
    var count: int

    constructor (cfg: Cfg, index: nat)
      ensures this.index == index && Val() == Empty(cfg)
    {
      this.index, lists, count := index, Blank(Pow2(cfg.bktBits)), 0;
    }

    function Val(): Bkt
      reads this
    {
      Bkt(lists, count)
    }
  }

  function Vals(bs: seq<HBucket>): (r: seq<Bkt>)
    reads bs
    ensures |r| == |bs| && forall i :: 0 <= i < |bs| ==> r[i] == bs[i].Val()
  {
    seq(|bs|, i requires 0 <= i < |bs| reads bs => bs[i].Val())
  }

  /** The buckets are different objects, each at its own index. */
  predicate Indexed(bs: seq<HBucket>) {
    forall i :: 0 <= i < |bs| ==> bs[i].index == i
  }

  function ItemAt(h: Hash, r: Option<((nat, nat), nat)>): Option<Item>
    requires r.Some? ==> r.value.0.0 < |h.bkts| && r.value.0.1 < |h.bkts[r.value.0.0].lists|
    requires r.Some? ==> r.value.1 < |At(h.bkts, r.value.0)|
  {
    if r.None? then None else Some(At(h.bkts, r.value.0)[r.value.1])
  }

  lemma SearchStep(cfg: Cfg, h: Hash, bds: seq<(nat, nat)>, i: nat, key: nat, want: Option<Item>)
    requires WellFormed(cfg, h) && i < |bds| && forall j :: 0 <= j < |bds| ==> InTable(cfg, h, bds[j])
    ensures InTable(cfg, h, bds[i])
    ensures Search(cfg, h, bds[i..], key, want) ==
            match FindIn(At(h.bkts, bds[i]), key, want)
            case Some(k) => Some((bds[i], k))
            case None => Search(cfg, h, bds[i + 1..], key, want)
  {
    assert bds[i..][1..] == bds[i + 1..] && bds[i..][0] == bds[i];
  }

  ghost predicate CanMove(cfg: Cfg, bs: seq<Bkt>, bits: nat, i: nat, o: nat, k: nat) {
    && CfgOk(cfg) && cfg.minBits <= bits <= cfg.maxBits && Shaped(cfg, bs) && i < |bs| && Size(cfg, bits) <= |bs|
    && o <= Pow2(cfg.bktBits) && (o < Pow2(cfg.bktBits) ==> k <= |bs[i].lists[o]|)
  }

  /** MoveAll where it is defined. */
  ghost function Moved(cfg: Cfg, bs: seq<Bkt>, bits: nat, i: nat, o: nat, k: nat): seq<Bkt> {
    if CanMove(cfg, bs, bits, i, o, k) then MoveAll(cfg, bs, bits, i, o, k) else bs
  }

  lemma MovedEnds(cfg: Cfg, bs: seq<Bkt>, bits: nat, i: nat, o: nat)
    requires CanMove(cfg, bs, bits, i, o, 0)
    ensures o == Pow2(cfg.bktBits) ==> Moved(cfg, bs, bits, i, o, 0) == bs
    ensures o < Pow2(cfg.bktBits) ==> Moved(cfg, bs, bits, i, o, |bs[i].lists[o]|) == Moved(cfg, bs, bits, i, o + 1, 0)
  {
  }

  lemma MoveStep(cfg: Cfg, bs: seq<Bkt>, bits: nat, i: nat, o: nat, k: nat)
    requires CanMove(cfg, bs, bits, i, o, k) && o < Pow2(cfg.bktBits) && k < |bs[i].lists[o]|
    ensures var at := cfg.loc(bs[i].lists[o][k].key, bits);
            && at.0 < |bs| && at.1 < Pow2(cfg.bktBits) && Movable(bs, (i, o), k, at)
            && (at == (i, o) ==>
                CanMove(cfg, bs, bits, i, o, k + 1) &&
                Moved(cfg, bs, bits, i, o, k) == Moved(cfg, bs, bits, i, o, k + 1))
            && (at != (i, o) ==>
                  var bs' := MoveOne(cfg, bs, (i, o), k, at);
                  && CanMove(cfg, bs', bits, i, o, k) && |bs'[i].lists[o]| == |bs[i].lists[o]| - 1
                  && Moved(cfg, bs, bits, i, o, k) == Moved(cfg, bs', bits, i, o, k))
  {
  }

  /** A node that is on no list is not found. */
  lemma NotHeld(cfg: Cfg, h: Hash, x: Item)
    requires Inv(cfg, h) && !h.exiting && x !in Items(h.bkts)
    ensures DoDel(cfg, h, x.key, Some(x)) == h
  {
    LookupRefines(cfg, h, x.key, Some(x));
    ItemIn(h.bkts, x);
  }

  /** A node that is on a list is found. */
  lemma Held(cfg: Cfg, h: Hash, x: Item)
    requires Inv(cfg, h) && !h.exiting && x in Items(h.bkts)
    ensures Lookup(cfg, h, x.key, Some(x)).Some? && ItemAt(h, Lookup(cfg, h, x.key, Some(x))) == Some(x)
  {
    LookupRefines(cfg, h, x.key, Some(x));
  }

  /** With one descriptor it is on that list. */
  lemma HeldThere(cfg: Cfg, h: Hash, x: Item, at: (nat, nat))
    requires Inv(cfg, h) && !h.exiting && x in Items(h.bkts) && Duals(cfg, h, x.key) == [at]
    ensures InTable(cfg, h, at) && FindIn(At(h.bkts, at), x.key, Some(x)).Some?
    ensures var k := FindIn(At(h.bkts, at), x.key, Some(x)).value;
            DoDel(cfg, h, x.key, Some(x)) == h.(bkts := DelAt(h.bkts, at, k), count := h.count - 1)
  {
    Held(cfg, h, x);
    DualsInTable(cfg, h, x.key);
    assert InTable(cfg, h, Duals(cfg, h, x.key)[0]);
    SearchOne(cfg, h, at, x.key, Some(x));
  }

  lemma SearchOne(cfg: Cfg, h: Hash, at: (nat, nat), key: nat, want: Option<Item>)
    requires WellFormed(cfg, h) && InTable(cfg, h, at)
    ensures Search(cfg, h, [at], key, want) == match FindIn(At(h.bkts, at), key, want)
                                               case Some(k) => Some((at, k))
                                               case None => None
  {
    assert [at][1..] == [];
  }

  class HashTable {
    const cfg: Cfg
    var buckets: seq<HBucket>
    var rehash: seq<HBucket>  // meaningful while active
    var active: bool
    var cur: nat
    var reh: nat
    var count: int
    var exiting: bool
    ghost var next: nat       // the worker's position

    function Full(): seq<HBucket>
      reads this
    {
      if active && |rehash| > |buckets| then rehash else buckets
    }

    ghost function View(): Hash
      reads this, Full()
    {
      Hash(Vals(Full()), cur, reh, active, next, count, exiting)
    }

    /** Both arrays are prefixes of the full one: they share their bucket objects. */
    ghost predicate Valid()
      reads this, Full()
    {
      && CfgOk(cfg) && WellFormed(cfg, View()) && Indexed(Full())
      && buckets <= Full() && |buckets| == Size(cfg, cur)
      && (active ==> rehash <= Full() && |rehash| == Size(cfg, reh))
    }

    /** cfs_hash_bd_lookup_intent without its side effects: the walk of one list. */
    static method FindInList(l: seq<Item>, key: nat, want: Option<Item>) returns (r: Option<nat>)
      ensures r == FindIn(l, key, want)
    {
      var k := 0;
      assert l[0..] == l;
      while k < |l|
        invariant 0 <= k <= |l|
        invariant FindIn(l, key, want) == match FindIn(l[k..], key, want) case None => None case Some(j) => Some(j + k)
      {
        assert l[k..][1..] == l[k + 1..];
        if l[k].key == key && (want.None? || want.value == l[k]) { return Some(k); }
        k := k + 1;
      }
      return None;
    }

    /** cfs_hash_bd_hhead */
    function ListAt(at: (nat, nat)): (l: seq<Item>)
      requires Valid() && InTable(cfg, View(), at)
      reads this, Full()
      ensures l == At(View().bkts, at)
    {
      Full()[at.0].lists[at.1]
    }

    /** cfs_hash_dual_bd_get with cfs_hash_bd_order. */
    method DualGet(key: nat) returns (bds: seq<(nat, nat)>)
      requires Valid()
      ensures bds == Duals(cfg, View(), key)
    {
      var bd0 := cfg.loc(key, cur);
      if !active { return [bd0]; }
      var bd1 := cfg.loc(key, reh);
      if bd0 == bd1 { return [bd0]; }
      if Before(bd1, bd0) { bd0, bd1 := bd1, bd0; }
      return [bd0, bd1];
    }

    /** cfs_hash_multi_bd_lookup_locked over the one or two descriptors. */
    method SearchLists(ghost h: Hash, bds: seq<(nat, nat)>, key: nat, want: Option<Item>)
      returns (r: Option<((nat, nat), nat)>)
      requires Valid() && h == View() && forall j :: 0 <= j < |bds| ==> InTable(cfg, h, bds[j])
      ensures r == Search(cfg, h, bds, key, want)
    {
      var i := 0;
      assert bds[0..] == bds;
      while i < |bds|
        invariant 0 <= i <= |bds| && Search(cfg, h, bds[i..], key, want) == Search(cfg, h, bds, key, want)
      {
        SearchStep(cfg, h, bds, i, key, want);
        var k := FindInList(ListAt(bds[i]), key, want);
        if k.Some? { return Some((bds[i], k.value)); }
        i := i + 1;
      }
      return None;
    }

    method DualFind(key: nat, want: Option<Item>) returns (r: Option<((nat, nat), nat)>)
      requires Valid()
      ensures r == Lookup(cfg, View(), key, want)
    {
      ghost var h := View();
      var bds := DualGet(key);
      DualsInTable(cfg, h, key);
      r := SearchLists(h, bds, key, want);
    }

    /** cfs_hash_bd_add_locked */
    method BdAdd(at: (nat, nat), x: Item)
      requires Valid() && InTable(cfg, View(), at)
      modifies this`count, Full()[at.0]
      ensures Valid() && Full() == old(Full())
      ensures View() == old(View()).(bkts := AddAt(cfg, old(View()).bkts, at, x), count := old(count) + 1)
    {
      var b := Full()[at.0];
      b.lists := b.lists[at.1 := Insert(cfg, b.lists[at.1], x)];
      b.count := b.count + 1;
      count := count + 1;
      assert forall i :: 0 <= i < |Full()| && i != at.0 ==> Full()[i] != b;
      assert Vals(Full()) == AddAt(cfg, old(View()).bkts, at, x);
    }

    /** cfs_hash_bd_del_locked */
    method BdDel(at: (nat, nat), k: nat)
      requires Valid() && InTable(cfg, View(), at) && k < |At(View().bkts, at)|
      modifies this`count, Full()[at.0]
      ensures Valid() && Full() == old(Full())
      ensures View() == old(View()).(bkts := DelAt(old(View()).bkts, at, k), count := old(count) - 1)
    {
      var b := Full()[at.0];
      b.lists := b.lists[at.1 := Without(b.lists[at.1], k)];
      b.count := b.count - 1;
      count := count - 1;
      assert forall i :: 0 <= i < |Full()| && i != at.0 ==> Full()[i] != b;
      assert Vals(Full()) == DelAt(old(View()).bkts, at, k);
    }

    /** cfs_hash_add */
    method Add(x: Item)
      requires Valid() && !exiting
      modifies this, Full()
      ensures Valid() && View() == DoAdd(cfg, old(View()), x) && Full() == old(Full())
    {
      DualsInTable(cfg, View(), x.key);
      BdAdd(cfg.loc(x.key, if active then reh else cur), x);
    }

    /** The addition of cfs_hash_multi_bd_findadd_locked: with one descriptor the new item goes there, with two to the
        rehash location. */
    method AddNew(ghost h: Hash, bds: seq<(nat, nat)>, x: Item)
      requires Valid() && View() == h && bds == Duals(cfg, h, x.key)
      modifies this, Full()
      ensures Valid() && Full() == old(Full()) && View() == DoAdd(cfg, h, x)
    {
      DualsInTable(cfg, h, x.key);
      var at := if |bds| == 1 then bds[0] else cfg.loc(x.key, reh);
      assert at == Target(cfg, h, x.key);
      BdAdd(at, x);
    }

    /** cfs_hash_find_or_add */
    method FindOrAdd(x: Item) returns (found: Option<Item>)
      requires Valid() && !exiting
      modifies this, Full()
      ensures Valid() && Full() == old(Full())
      ensures View() == if Lookup(cfg, old(View()), x.key, None).Some? then old(View()) else DoAdd(cfg, old(View()), x)
      ensures found == ItemAt(old(View()), Lookup(cfg, old(View()), x.key, None))
    {
      ghost var h := View();
      var bds := DualGet(x.key);
      var r := DualFind(x.key, None);
      if r.Some? {
        return Some(ListAt(r.value.0)[r.value.1]);
      }
      AddNew(h, bds, x);
      return None;
    }

    /** cfs_hash_dual_bd_finddel_locked */
    method FindDel(key: nat, want: Option<Item>) returns (obj: Option<Item>)
      requires Valid() && !exiting
      modifies this, Full()
      ensures Valid() && View() == DoDel(cfg, old(View()), key, want) && Full() == old(Full())
      ensures obj == ItemAt(old(View()), Lookup(cfg, old(View()), key, want))
    {
      var r := DualFind(key, want);
      if r.None? { return None; }
      obj := Some(ListAt(r.value.0)[r.value.1]);
      BdDel(r.value.0, r.value.1);
    }

    /** cfs_hash_del; hashed: whether a node that is given is on a list.  A node that is not is handed back and nothing
        happens; with one descriptor a node that is leaves its list unsearched, wherever on the list it is. */
    method Delete(key: nat, want: Option<Item>, hashed: bool) returns (obj: Option<Item>)
      requires Valid() && !exiting && Inv(cfg, View())
      requires want.Some? ==> want.value.key == key && (hashed <==> want.value in Items(View().bkts))
      modifies this, Full()
      ensures Valid() && View() == DoDel(cfg, old(View()), key, want) && Full() == old(Full())
      ensures obj == if want.Some? then want else ItemAt(old(View()), Lookup(cfg, old(View()), key, want))
    {
      ghost var h := View();
      if want.Some? {
        if !hashed {
          NotHeld(cfg, h, want.value);
          return want;
        }
        var bds := DualGet(key);
        if |bds| == 1 {
          HeldThere(cfg, h, want.value, bds[0]);
          ghost var k := DelNode(bds[0], want.value);
          return want;
        }
        Held(cfg, h, want.value);
      }
      obj := FindDel(key, want);
    }

    /** cfs_hash_bd_del_locked on a node that is known to be on that list, at place k. */
    method DelNode(at: (nat, nat), x: Item) returns (ghost k: nat)
      requires Valid() && InTable(cfg, View(), at) && FindIn(At(View().bkts, at), x.key, Some(x)).Some?
      modifies this, Full()
      ensures Valid() && Full() == old(Full()) && k == FindIn(At(old(View()).bkts, at), x.key, Some(x)).value
      ensures View() == old(View()).(bkts := DelAt(old(View()).bkts, at, k), count := old(count) - 1)
    {
      var r := FindInList(ListAt(at), x.key, Some(x));
      k := r.value;
      BdDel(at, r.value);
    }

    /** cfs_hash_bd_move_locked: like del and add, but hs_count does not change. */
    method BdMove(i: nat, o: nat, k: nat, at: (nat, nat))
      requires Valid() && InTable(cfg, View(), (i, o)) && k < |At(View().bkts, (i, o))| && InTable(cfg, View(), at)
      modifies this`count, Full()
      ensures Valid() && Full() == old(Full())
      ensures View() == if at == (i, o) then old(View())
                        else old(View()).(bkts := MoveOne(cfg, old(View()).bkts, (i, o), k, at))
    {
      if at == (i, o) { return; }
      var l := ListAt((i, o));
      BdDel((i, o), k);
      BdAdd(at, l[k]);
    }

    /** One item of the walk: it stays and is passed, or leaves the list. */
    method RehashItem(i: nat, o: nat, k: nat, ghost bs: seq<Bkt>) returns (moved: bool, ghost bs': seq<Bkt>)
      requires Valid() && active && Vals(Full()) == bs && CanMove(cfg, bs, reh, i, o, k)
      requires o < Pow2(cfg.bktBits) && k < |bs[i].lists[o]|
      modifies this`count, Full()
      ensures Valid() && Vals(Full()) == bs' && count == old(count)
      ensures CanMove(cfg, bs', reh, i, o, if moved then k else k + 1)
      ensures |bs'[i].lists[o]| == |bs[i].lists[o]| - (if moved then 1 else 0)
      ensures Moved(cfg, bs', reh, i, o, if moved then k else k + 1) == Moved(cfg, bs, reh, i, o, k)
    {
      MoveStep(cfg, bs, reh, i, o, k);
      var at := cfg.loc(ListAt((i, o))[k].key, reh);
      BdMove(i, o, k, at);
      moved := at != (i, o);
      bs' := if moved then MoveOne(cfg, bs, (i, o), k, at) else bs;
    }

    /** The inner loop of cfs_hash_rehash_bd: one list. */
    method RehashList(i: nat, o: nat, ghost bs0: seq<Bkt>) returns (ghost bs: seq<Bkt>)
      requires Valid() && active && Vals(Full()) == bs0 && CanMove(cfg, bs0, reh, i, o, 0) && o < Pow2(cfg.bktBits)
      modifies this`count, Full()
      ensures Valid() && Vals(Full()) == bs && count == old(count)
      ensures CanMove(cfg, bs, reh, i, o + 1, 0)
      ensures Moved(cfg, bs, reh, i, o + 1, 0) == Moved(cfg, bs0, reh, i, o, 0)
    {
      bs := bs0;
      var k, n := 0, |ListAt((i, o))|;
      while k < n
        invariant Valid() && Vals(Full()) == bs && count == old(count)
        invariant CanMove(cfg, bs, reh, i, o, k) && k <= n == |bs[i].lists[o]|
        invariant Moved(cfg, bs, reh, i, o, k) == Moved(cfg, bs0, reh, i, o, 0)
        decreases n - k
      {
        var moved;
        moved, bs := RehashItem(i, o, k, bs);
        if moved { n := n - 1; } else { k := k + 1; }
      }
      MovedEnds(cfg, bs, reh, i, o);
    }

    /** cfs_hash_rehash_bd; the worker holds the table lock. */
    method RehashBd(i: nat, ghost bs0: seq<Bkt>)
      requires Valid() && active && Vals(Full()) == bs0 && i < |bs0|
      modifies this`count, Full()
      ensures Valid() && count == old(count) && CanMove(cfg, bs0, reh, i, 0, 0)
      ensures Vals(Full()) == Moved(cfg, bs0, reh, i, 0, 0)
    {
      ghost var bs := bs0;
      var o, nlists := 0, Pow2(cfg.bktBits);
      while o < nlists
        invariant o <= nlists && Valid() && Vals(Full()) == bs && count == old(count)
        invariant CanMove(cfg, bs, reh, i, o, 0) && Moved(cfg, bs, reh, i, o, 0) == Moved(cfg, bs0, reh, i, 0, 0)
      {
        bs := RehashList(i, o, bs);
        o := o + 1;
      }
      MovedEnds(cfg, bs, reh, i, o);
    }

    /** One iteration of the worker's loop, at bucket i. */
    method RehashBucket(i: nat)
      requires Valid() && active && !exiting && i == next && i < |buckets|
      modifies this, Full()
      ensures Valid() && Full() == old(Full())
      ensures Enabled(cfg, old(View()), WorkBucket) && View() == Apply(cfg, old(View()), WorkBucket)
    {
      assert Enabled(cfg, View(), WorkBucket);
      RehashBd(i, View().bkts);
      next := next + 1;
    }

    /** cfs_hash_buckets_realloc: the old buckets, as far as they fit, and new empty ones. */
    static method Realloc(cfg: Cfg, old_: seq<HBucket>, newSize: nat) returns (bkts: seq<HBucket>)
      requires Indexed(old_)
      ensures |bkts| == newSize && Indexed(bkts)
      ensures (if newSize <= |old_| then bkts == old_[..newSize] else old_ <= bkts)
      ensures forall i :: |old_| <= i < newSize ==> fresh(bkts[i]) && bkts[i].Val() == Empty(cfg)
    {
      bkts := if newSize <= |old_| then old_[..newSize] else old_;
      while |bkts| < newSize
        invariant |bkts| <= newSize && Indexed(bkts)
        invariant (if newSize <= |old_| then bkts == old_[..newSize] else old_ <= bkts)
        invariant forall i :: |old_| <= i < |bkts| ==> fresh(bkts[i]) && bkts[i].Val() == Empty(cfg)
        decreases newSize - |bkts|
      {
        var b := new HBucket(cfg, |bkts|);
        bkts := bkts + [b];
      }
    }

    /** hs_rehash_buckets comes into use. */
    method Activate(bkts: seq<HBucket>)
      requires Valid() && reh != 0 && !active && Indexed(bkts) && |bkts| == Size(cfg, reh)
      requires if |bkts| <= |buckets| then bkts == buckets[..|bkts|] else buckets <= bkts
      requires forall i :: |buckets| <= i < |bkts| ==> bkts[i].Val() == Empty(cfg)
      modifies this
      ensures Valid() && Full() == if |bkts| > |old(buckets)| then bkts else old(buckets)
      ensures View() == old(View()).(bkts := Grown(cfg, old(View()).bkts, |bkts|), active := true, next := 0)
    {
      GrownVals(cfg, buckets, bkts);
      rehash, active, next := bkts, true, 0;
    }

    /** The worker up to its bucket loop; alloc: whether memory could be had. */
    method StartRehash(alloc: bool)
      requires Valid() && reh != 0 && !active
      modifies this
      ensures Valid() && View() == Apply(cfg, old(View()), WorkStart(alloc))
      ensures active <==> alloc && (count * 1024 >= (cfg.maxTheta + 1) * Pow2(cur) ||
                                    count * 1024 < cfg.minTheta * Pow2(cur))
      ensures forall b :: b in Full() && b !in old(Full()) ==> fresh(b)
    {
      RehashTheorems.WorkStartIff(cfg, View(), alloc);
      if !alloc { reh := 0; return; }
      var bkts := Realloc(cfg, buckets, Size(cfg, reh));
      var theta := count * 1024 / Pow2(cur);
      if cfg.minTheta <= theta <= cfg.maxTheta { reh := 0; return; }
      Activate(bkts);
    }

    /** The end of the worker, after i buckets: all of them, or fewer because the table is going away. */
    method EndRehash(i: nat)
      requires Valid() && active && i == next && (i == |buckets| || exiting)
      modifies this
      ensures Valid() && View() == DoWorkEnd(cfg, old(View()))
    {
      if i < |buckets| && |rehash| < |buckets| {
        active, reh := false, 0;
        return;
      }
      PrefixVals(rehash, Full());
      buckets, active, cur, reh := rehash, false, reh, 0;
    }
  }

  lemma PrefixVals(a: seq<HBucket>, b: seq<HBucket>)
    requires a <= b
    ensures Vals(a) == Vals(b)[..|a|]
  {
  }

  /** What the full array holds after the reallocation. */
  lemma GrownVals(cfg: Cfg, bs: seq<HBucket>, bkts: seq<HBucket>)
    requires if |bkts| <= |bs| then bkts == bs[..|bkts|] else bs <= bkts
    requires forall i :: |bs| <= i < |bkts| ==> bkts[i].Val() == Empty(cfg)
    ensures Vals(if |bkts| > |bs| then bkts else bs) == Grown(cfg, Vals(bs), |bkts|)
  {
    if |bkts| > |bs| {
      var r := Grown(cfg, Vals(bs), |bkts|);
      forall i | 0 <= i < |bkts| ensures Vals(bkts)[i] == r[i] {
        if i < |bs| { assert bkts[i] == bs[i]; }
      }
    }
  }
}
