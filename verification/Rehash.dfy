/**
  The libcfs hash table with incremental rehash (hash.c), as a step machine: lookups, additions and deletions
  run between any two buckets that the rehash worker moves.

  A bucket is named by its hsb_index.  hs_buckets is the first Size(cur) buckets and, while a rehash is active,
  hs_rehash_buckets is the first Size(reh) ones: the two arrays share their common prefix.
 */
module Rehash {
  import opened Common

  /** An hnode: its key and its identity. */
  datatype Item = Item(key: nat, id: nat)

  /** bktBits, whether items go to the tail of a list, the theta bounds, and where a key lives for a given
      number of bits: any function into the table of that size. */
  datatype Cfg = Cfg(bktBits: nat, addTail: bool, minTheta: nat, maxTheta: nat, minBits: nat, maxBits: nat,
                     loc: (nat, nat) -> (nat, nat))

  function Pow2(n: nat): (r: nat)
    ensures r >= 1
  {
    if n == 0 then 1 else 2 * Pow2(n - 1)
  }

  /** CFS_HASH_NBKT */
  function Size(cfg: Cfg, bits: nat): nat {
    if bits <= cfg.bktBits then 1 else 2 * Size(cfg, bits - 1)
  }

  ghost predicate CfgOk(cfg: Cfg) {
    && 1 <= cfg.minBits <= cfg.maxBits && cfg.bktBits <= cfg.minBits
    && (forall k, bits :: cfg.minBits <= bits <= cfg.maxBits ==>
          cfg.loc(k, bits).0 < Size(cfg, bits) && cfg.loc(k, bits).1 < Pow2(cfg.bktBits))
  }

  /** cfs_hash_bd_from_key: a hash below 2^bits, split into bucket and list, is such a location. */
  lemma {:induction false} BdFromKey(cfg: Cfg, bits: nat, index: nat)
    requires cfg.bktBits <= bits && index < Pow2(bits)
    ensures Size(cfg, bits) >= 1 && Size(cfg, bits) == Pow2(bits - cfg.bktBits)
    ensures index % Size(cfg, bits) < Size(cfg, bits)
    ensures index / Size(cfg, bits) < Pow2(cfg.bktBits)
  {
    SizeIsPow2(cfg, bits);
    Pow2Splits(bits - cfg.bktBits, cfg.bktBits);
    DivBelow(index, Size(cfg, bits), Pow2(cfg.bktBits));
  }

  lemma DivBelow(x: nat, a: nat, b: nat)
    requires a >= 1 && x < a * b
    ensures x / a < b
  {
    assert x == a * (x / a) + x % a;
  }

  lemma {:induction false} SizeIsPow2(cfg: Cfg, bits: nat)
    requires cfg.bktBits <= bits
    ensures Size(cfg, bits) == Pow2(bits - cfg.bktBits)
  {
    if bits > cfg.bktBits { SizeIsPow2(cfg, bits - 1); }
  }

  lemma {:induction false} Pow2Splits(a: nat, b: nat)
    ensures Pow2(a + b) == Pow2(a) * Pow2(b)
  {
    if a > 0 { Pow2Splits(a - 1, b); }
  }

  // ----- buckets -----

  datatype Bkt = Bkt(lists: seq<seq<Item>>, count: int)

  function Insert(cfg: Cfg, l: seq<Item>, x: Item): seq<Item> {
    if cfg.addTail then l + [x] else [x] + l
  }

  function Without(l: seq<Item>, k: nat): seq<Item>
    requires k < |l|
  {
    l[..k] + l[k + 1..]
  }

  /** cfs_hash_bd_add_locked, the bucket part */
  function AddAt(cfg: Cfg, bs: seq<Bkt>, at: (nat, nat), x: Item): seq<Bkt>
    requires at.0 < |bs| && at.1 < |bs[at.0].lists|
  {
    var b := bs[at.0];
    bs[at.0 := Bkt(b.lists[at.1 := Insert(cfg, b.lists[at.1], x)], b.count + 1)]
  }

  /** cfs_hash_bd_del_locked, the bucket part */
  function DelAt(bs: seq<Bkt>, at: (nat, nat), k: nat): seq<Bkt>
    requires at.0 < |bs| && at.1 < |bs[at.0].lists| && k < |bs[at.0].lists[at.1]|
  {
    var b := bs[at.0];
    bs[at.0 := Bkt(b.lists[at.1 := Without(b.lists[at.1], k)], b.count - 1)]
  }

  function At(bs: seq<Bkt>, at: (nat, nat)): seq<Item>
    requires at.0 < |bs| && at.1 < |bs[at.0].lists|
  {
    bs[at.0].lists[at.1]
  }

  predicate Movable(bs: seq<Bkt>, from: (nat, nat), k: nat, to: (nat, nat)) {
    && from.0 < |bs| && from.1 < |bs[from.0].lists| && k < |bs[from.0].lists[from.1]|
    && to.0 < |bs| && to.1 < |bs[to.0].lists|
  }

  /** cfs_hash_bd_move_locked */
  function MoveOne(cfg: Cfg, bs: seq<Bkt>, from: (nat, nat), k: nat, to: (nat, nat)): seq<Bkt>
    requires Movable(bs, from, k, to)
  {
    AddAt(cfg, DelAt(bs, from, k), to, At(bs, from)[k])
  }

  predicate Shaped(cfg: Cfg, bs: seq<Bkt>) {
    forall b :: 0 <= b < |bs| ==> |bs[b].lists| == Pow2(cfg.bktBits)
  }

  /** cfs_hash_rehash_bd: walk all lists of bucket i and move every item to its new location.  An item that
      lands further on in the same bucket is met again and stays. */
  function MoveAll(cfg: Cfg, bs: seq<Bkt>, bits: nat, i: nat, o: nat, k: nat): seq<Bkt>
    requires CfgOk(cfg) && cfg.minBits <= bits <= cfg.maxBits
    requires Shaped(cfg, bs) && i < |bs| && Size(cfg, bits) <= |bs|
    requires o <= Pow2(cfg.bktBits) && (o < Pow2(cfg.bktBits) ==> k <= |bs[i].lists[o]|)
    decreases Pow2(cfg.bktBits) - o, if o < Pow2(cfg.bktBits) then |bs[i].lists[o]| - k else 0
  {
    if o == Pow2(cfg.bktBits) then bs
    else if k == |bs[i].lists[o]| then MoveAll(cfg, bs, bits, i, o + 1, 0)
    else
      var x := bs[i].lists[o][k];
      var at := cfg.loc(x.key, bits);
      if at == (i, o) then MoveAll(cfg, bs, bits, i, o, k + 1)
      else MoveAll(cfg, MoveOne(cfg, bs, (i, o), k, at), bits, i, o, k)
  }

  // ----- the table -----

  datatype Hash = Hash(bkts: seq<Bkt>, cur: nat, reh: nat, active: bool, next: nat, count: int, exiting: bool)

  /** cfs_hash_bd_get: where an addition goes. */
  function Target(cfg: Cfg, h: Hash, key: nat): (nat, nat) {
    cfg.loc(key, if h.active then h.reh else h.cur)
  }

  /** cfs_hash_bd_compare < 0 */
  predicate Before(a: (nat, nat), b: (nat, nat)) {
    a.0 < b.0 || (a.0 == b.0 && a.1 < b.1)
  }

  /** cfs_hash_dual_bd_get: one or two locations, ordered, without repetition. */
  function Duals(cfg: Cfg, h: Hash, key: nat): seq<(nat, nat)> {
    var a := cfg.loc(key, h.cur);
    if !h.active then [a]
    else
      var b := cfg.loc(key, h.reh);
      if a == b then [a] else if Before(b, a) then [b, a] else [a, b]
  }

  /** The first item of the list with this key (and, if given, this identity). */
  function FindIn(l: seq<Item>, key: nat, want: Option<Item>): (r: Option<nat>)
    ensures r.Some? ==> r.value < |l|
  {
    if l == [] then None
    else if l[0].key == key && (want.None? || want.value == l[0]) then Some(0)
    else match FindIn(l[1..], key, want)
         case None => None
         case Some(k) => Some(k + 1)
  }

  predicate WellFormed(cfg: Cfg, h: Hash) {
    && cfg.minBits <= h.cur <= cfg.maxBits
    && (h.reh != 0 ==> cfg.minBits <= h.reh <= cfg.maxBits && h.reh != h.cur)
    && (h.active ==> h.reh != 0)
    && Shaped(cfg, h.bkts)
    && |h.bkts| == (if h.active && Size(cfg, h.reh) > Size(cfg, h.cur) then Size(cfg, h.reh) else Size(cfg, h.cur))
    && (h.active ==> h.next <= Size(cfg, h.cur))
  }

  predicate InTable(cfg: Cfg, h: Hash, at: (nat, nat)) {
    at.0 < |h.bkts| && at.1 < Pow2(cfg.bktBits)
  }

  /** Search the locations in order: the location and index of the first item found. */
  function Search(cfg: Cfg, h: Hash, ats: seq<(nat, nat)>, key: nat, want: Option<Item>): (r: Option<((nat, nat), nat)>)
    requires WellFormed(cfg, h) && forall j :: 0 <= j < |ats| ==> InTable(cfg, h, ats[j])
    ensures r.Some? ==> InTable(cfg, h, r.value.0) && r.value.1 < |At(h.bkts, r.value.0)|
  {
    if ats == [] then None
    else
      assert InTable(cfg, h, ats[0]);
      match FindIn(At(h.bkts, ats[0]), key, want)
      case Some(k) => Some((ats[0], k))
      case None => Search(cfg, h, ats[1..], key, want)
  }

  lemma DualsInTable(cfg: Cfg, h: Hash, key: nat)
    requires CfgOk(cfg) && WellFormed(cfg, h)
    ensures forall j :: 0 <= j < |Duals(cfg, h, key)| ==> InTable(cfg, h, Duals(cfg, h, key)[j])
    ensures InTable(cfg, h, Target(cfg, h, key))
  {
  }

  datatype Step =
    | Add(x: Item)                         // cfs_hash_add
    | FindAdd(x: Item)                     // cfs_hash_find_or_add
    | Del(key: nat, want: Option<Item>)    // cfs_hash_del, cfs_hash_del_key
    | Launch(grow: bool)                   // cfs_hash_rehash
    | WorkStart(alloc: bool)               // the worker up to its bucket loop
    | WorkBucket                           // one iteration of the bucket loop
    | WorkEnd                              // the end of the loop, or its exit when the table goes away
    | Exit                                 // cfs_hash_destroy

  /** __cfs_hash_theta within its bounds */
  predicate ThetaFits(cfg: Cfg, h: Hash) {
    cfg.minTheta <= h.count * 1024 / Pow2(h.cur) <= cfg.maxTheta
  }

  function Blank(n: nat): seq<seq<Item>> {
    seq(n, o => [])
  }

  function Empty(cfg: Cfg): Bkt {
    Bkt(Blank(Pow2(cfg.bktBits)), 0)
  }

  function Empties(cfg: Cfg, n: nat): seq<Bkt> {
    seq(n, i => Empty(cfg))
  }

  /** cfs_hash_buckets_realloc: the old buckets and, when growing, new empty ones. */
  function Grown(cfg: Cfg, bs: seq<Bkt>, size: nat): seq<Bkt> {
    if size <= |bs| then bs else bs + Empties(cfg, size - |bs|)
  }

  ghost predicate Enabled(cfg: Cfg, h: Hash, st: Step) {
    && CfgOk(cfg) && WellFormed(cfg, h)
    && match st
       case Add(_) => !h.exiting
       case FindAdd(_) => !h.exiting
       case Del(_, _) => !h.exiting
       case Launch(grow) => !h.exiting && h.reh == 0 && (if grow then h.cur < cfg.maxBits else h.cur > cfg.minBits)
       case WorkStart(_) => h.reh != 0 && !h.active
       case WorkBucket => h.active && !h.exiting && h.next < Size(cfg, h.cur)
       case WorkEnd => h.active && (h.next == Size(cfg, h.cur) || h.exiting)
       case Exit => !h.exiting
  }

  function DoAdd(cfg: Cfg, h: Hash, x: Item): Hash
    requires CfgOk(cfg) && WellFormed(cfg, h)
  {
    h.(bkts := AddAt(cfg, h.bkts, Target(cfg, h, x.key), x), count := h.count + 1)
  }

  function Lookup(cfg: Cfg, h: Hash, key: nat, want: Option<Item>): (r: Option<((nat, nat), nat)>)
    requires CfgOk(cfg) && WellFormed(cfg, h)
    ensures r.Some? ==> InTable(cfg, h, r.value.0) && r.value.1 < |At(h.bkts, r.value.0)|
  {
    DualsInTable(cfg, h, key);
    Search(cfg, h, Duals(cfg, h, key), key, want)
  }

  function DoDel(cfg: Cfg, h: Hash, key: nat, want: Option<Item>): Hash
    requires CfgOk(cfg) && WellFormed(cfg, h)
  {
    match Lookup(cfg, h, key, want)
    case None => h
    case Some((at, k)) => h.(bkts := DelAt(h.bkts, at, k), count := h.count - 1)
  }

  /** The end of the worker: publish the new array, unless a shrink is abandoned. */
  function DoWorkEnd(cfg: Cfg, h: Hash): Hash {
    if h.next < Size(cfg, h.cur) && Size(cfg, h.reh) < Size(cfg, h.cur) then
      h.(active := false, reh := 0)
    else
      h.(bkts := if Size(cfg, h.reh) < |h.bkts| then h.bkts[..Size(cfg, h.reh)] else h.bkts,
         cur := h.reh, active := false, reh := 0)
  }

  function Apply(cfg: Cfg, h: Hash, st: Step): Hash
    requires Enabled(cfg, h, st)
  {
    match st
    case Add(x) => DoAdd(cfg, h, x)
    case FindAdd(x) => if Lookup(cfg, h, x.key, None).Some? then h else DoAdd(cfg, h, x)
    case Del(key, want) => DoDel(cfg, h, key, want)
    case Launch(grow) => h.(reh := if grow then h.cur + 1 else h.cur - 1)
    case WorkStart(alloc) =>
      if !alloc || ThetaFits(cfg, h) then h.(reh := 0)
      else h.(bkts := Grown(cfg, h.bkts, Size(cfg, h.reh)), active := true, next := 0)
    case WorkBucket =>
      h.(bkts := MoveAll(cfg, h.bkts, h.reh, h.next, 0, 0), next := h.next + 1)
    case WorkEnd => DoWorkEnd(cfg, h)
    case Exit => h.(exiting := true)
  }

  function Init(cfg: Cfg): Hash {
    Hash(Empties(cfg, Size(cfg, cfg.minBits)), cfg.minBits, 0, false, 0, 0, false)
  }

  // ----- the multimap it stands for -----

  function ListItems(ls: seq<seq<Item>>): multiset<Item> {
    if ls == [] then multiset{} else multiset(ls[0]) + ListItems(ls[1..])
  }

  function Items(bs: seq<Bkt>): multiset<Item> {
    if bs == [] then multiset{} else ListItems(bs[0].lists) + Items(bs[1..])
  }
}
