/** Every run of the table with its rehash worker is a run of a plain multimap. */
module RehashTheorems {
  import opened Common
  import opened Rehash
  import opened RehashProof

  predicate Matches(x: Item, key: nat, want: Option<Item>) {
    x.key == key && (want.None? || want.value == x)
  }

  /** What a plain multimap does in each step; the worker's steps do nothing to it. */
  ghost predicate MultimapStep(ms: multiset<Item>, st: Step, ms': multiset<Item>) {
    match st
    case Add(x) => ms' == ms + multiset{x}
    case FindAdd(x) => ms' == if exists y :: y in ms && y.key == x.key then ms else ms + multiset{x}
    case Del(key, want) =>
      if exists y :: y in ms && Matches(y, key, want)
      then exists y :: y in ms && Matches(y, key, want) && ms == ms' + multiset{y}
      else ms' == ms
    case _ => ms' == ms
  }

  ghost predicate Good(cfg: Cfg, h: Hash, st: Step, h': Hash) {
    Inv(cfg, h') && MultimapStep(Items(h.bkts), st, Items(h'.bkts))
  }

  // ----- additions and deletions -----

  lemma AddSited(cfg: Cfg, bs: seq<Bkt>, cur: nat, reh: nat, next: nat, at: (nat, nat), x: Item)
    requires Sited(cfg, bs, cur, reh, next) && at.0 < |bs| && at.1 < |bs[at.0].lists| && cfg.loc(x.key, reh) == at
    ensures Sited(cfg, AddAt(cfg, bs, at, x), cur, reh, next)
  {
    var bs' := AddAt(cfg, bs, at, x);
    forall b, o, y | 0 <= b < |bs'| && 0 <= o < |bs'[b].lists| && y in bs'[b].lists[o]
      ensures y in bs[b].lists[o] || (y == x && (b, o) == at)
    {
    }
  }

  /** The invariant after a change of the items alone. */
  lemma InvWith(cfg: Cfg, h: Hash, bs: seq<Bkt>, count: int)
    requires CfgOk(cfg) && WellFormed(cfg, h) && |bs| == |h.bkts| && Shaped(cfg, bs) && Counted(bs)
    requires count == |Items(bs)|
    requires Sited(cfg, bs, h.cur, if h.active then h.reh else h.cur, if h.active then h.next else 0)
    ensures Inv(cfg, h.(bkts := bs, count := count))
  {
  }

  lemma AddGood(cfg: Cfg, h: Hash, x: Item)
    requires Inv(cfg, h) && !h.exiting
    ensures Inv(cfg, DoAdd(cfg, h, x)) && Items(DoAdd(cfg, h, x).bkts) == Items(h.bkts) + multiset{x}
  {
    var at := Target(cfg, h, x.key);
    var reh, next := if h.active then h.reh else h.cur, if h.active then h.next else 0;
    assert Sited(cfg, h.bkts, h.cur, reh, next) && Counted(h.bkts);
    AddedOk(cfg, h.bkts, h.cur, reh, next, at, x);
    InvWith(cfg, h, AddAt(cfg, h.bkts, at, x), h.count + 1);
  }

  lemma AddedOk(cfg: Cfg, bs: seq<Bkt>, cur: nat, reh: nat, next: nat, at: (nat, nat), x: Item)
    requires Sited(cfg, bs, cur, reh, next) && Counted(bs) && Shaped(cfg, bs)
    requires at.0 < |bs| && at.1 < |bs[at.0].lists| && cfg.loc(x.key, reh) == at
    ensures var bs' := AddAt(cfg, bs, at, x);
            && Sited(cfg, bs', cur, reh, next) && Counted(bs') && Shaped(cfg, bs') && |bs'| == |bs|
            && Items(bs') == Items(bs) + multiset{x} && |Items(bs')| == |Items(bs)| + 1
  {
    AddItems(cfg, bs, at, x);
    AddCounted(cfg, bs, at, x);
    AddSited(cfg, bs, cur, reh, next, at, x);
  }

  lemma DelSited(cfg: Cfg, bs: seq<Bkt>, cur: nat, reh: nat, next: nat, at: (nat, nat), k: nat)
    requires Sited(cfg, bs, cur, reh, next) && at.0 < |bs| && at.1 < |bs[at.0].lists| && k < |bs[at.0].lists[at.1]|
    ensures Sited(cfg, DelAt(bs, at, k), cur, reh, next)
  {
    var bs' := DelAt(bs, at, k);
    forall b, o, y | 0 <= b < |bs'| && 0 <= o < |bs'[b].lists| && y in bs'[b].lists[o] ensures y in bs[b].lists[o] {}
  }

  lemma DelAtGood(cfg: Cfg, h: Hash, at: (nat, nat), k: nat)
    requires Inv(cfg, h) && !h.exiting && InTable(cfg, h, at) && k < |At(h.bkts, at)|
    ensures var h' := h.(bkts := DelAt(h.bkts, at, k), count := h.count - 1);
            Inv(cfg, h') && Items(h.bkts) == Items(h'.bkts) + multiset{At(h.bkts, at)[k]}
  {
    var y := At(h.bkts, at)[k];
    var bs' := DelAt(h.bkts, at, k);
    DelItems(h.bkts, at, k);
    DelCounted(h.bkts, at, k);
    DelSited(cfg, h.bkts, h.cur, if h.active then h.reh else h.cur, if h.active then h.next else 0, at, k);
    assert |Items(bs') + multiset{y}| == |Items(bs')| + 1;
    InvWith(cfg, h, bs', h.count - 1);
  }

  lemma TakeOut(ms: multiset<Item>, ms': multiset<Item>, y: Item, key: nat, want: Option<Item>)
    requires Matches(y, key, want) && ms == ms' + multiset{y}
    ensures MultimapStep(ms, Del(key, want), ms')
  {
    assert y in ms;
  }

  lemma LeaveAll(ms: multiset<Item>, key: nat, want: Option<Item>)
    requires forall x :: x in ms ==> x.key != key || (want.Some? && want.value != x)
    ensures MultimapStep(ms, Del(key, want), ms)
  {
  }

  /** Deleting a matching item found at place k of location at. */
  lemma FoundGood(cfg: Cfg, h: Hash, key: nat, want: Option<Item>, at: (nat, nat), k: nat)
    requires Inv(cfg, h) && !h.exiting && InTable(cfg, h, at) && k < |At(h.bkts, at)|
    requires Matches(At(h.bkts, at)[k], key, want)
    ensures Good(cfg, h, Del(key, want), h.(bkts := DelAt(h.bkts, at, k), count := h.count - 1))
  {
    DelAtGood(cfg, h, at, k);
    TakeOut(Items(h.bkts), Items(DelAt(h.bkts, at, k)), At(h.bkts, at)[k], key, want);
  }

  lemma DelGood(cfg: Cfg, h: Hash, key: nat, want: Option<Item>)
    requires Inv(cfg, h) && !h.exiting
    ensures Good(cfg, h, Del(key, want), DoDel(cfg, h, key, want))
  {
    LookupRefines(cfg, h, key, want);
    DelIsAt(cfg, h, key, want, Lookup(cfg, h, key, want), DoDel(cfg, h, key, want));
  }

  lemma DelIsAt(cfg: Cfg, h: Hash, key: nat, want: Option<Item>, r: Option<((nat, nat), nat)>, h': Hash)
    requires Inv(cfg, h) && !h.exiting
    requires match r
             case None =>
               h' == h && forall x :: x in Items(h.bkts) ==> x.key != key || (want.Some? && want.value != x)
             case Some((at, k)) =>
               && InTable(cfg, h, at) && k < |At(h.bkts, at)| && Matches(At(h.bkts, at)[k], key, want)
               && h' == h.(bkts := DelAt(h.bkts, at, k), count := h.count - 1)
    ensures Good(cfg, h, Del(key, want), h')
  {
    if r.None? { MissingGood(cfg, h, key, want); } else { FoundGood(cfg, h, key, want, r.value.0, r.value.1); }
  }

  /** Deleting a key that is not there. */
  lemma MissingGood(cfg: Cfg, h: Hash, key: nat, want: Option<Item>)
    requires Inv(cfg, h) && forall x :: x in Items(h.bkts) ==> x.key != key || (want.Some? && want.value != x)
    ensures Good(cfg, h, Del(key, want), h)
  {
    LeaveAll(Items(h.bkts), key, want);
  }

  lemma FindAddGood(cfg: Cfg, h: Hash, x: Item)
    requires Inv(cfg, h) && !h.exiting
    ensures Good(cfg, h, FindAdd(x), if Lookup(cfg, h, x.key, None).Some? then h else DoAdd(cfg, h, x))
  {
    LookupRefines(cfg, h, x.key, None);
    if Lookup(cfg, h, x.key, None).None? {
      AddGood(cfg, h, x);
    }
  }

  // ----- the worker -----

  lemma GrownSited(cfg: Cfg, bs: seq<Bkt>, n: nat, cur: nat, reh: nat)
    requires Sited(cfg, bs, cur, cur, 0)
    ensures var bs' := Grown(cfg, bs, n);
            Sited(cfg, bs', cur, reh, 0) && forall b :: |bs| <= b < |bs'| ==> bs'[b] == Empty(cfg)
  {
    var bs' := Grown(cfg, bs, n);
    assert forall b :: |bs| <= b < |bs'| ==> bs'[b] == Empty(cfg);
  }

  lemma GrownItems(cfg: Cfg, bs: seq<Bkt>, n: nat)
    requires Counted(bs)
    ensures Items(Grown(cfg, bs, n)) == Items(bs) && Counted(Grown(cfg, bs, n))
  {
    if n > |bs| {
      var extra := Empties(cfg, n - |bs|);
      ItemsConcat(bs, extra);
      EmptyBkts(cfg, n - |bs|);
      EmptyLists(Pow2(cfg.bktBits));
      forall b | |bs| <= b < n ensures (bs + extra)[b] == Empty(cfg) { assert (bs + extra)[b] == extra[b - |bs|]; }
    }
  }

  lemma StartGood(cfg: Cfg, h: Hash)
    requires Inv(cfg, h) && h.reh != 0 && !h.active
    ensures var h' := h.(bkts := Grown(cfg, h.bkts, Size(cfg, h.reh)), active := true, next := 0);
            Inv(cfg, h') && Items(h'.bkts) == Items(h.bkts)
  {
    var bs' := Grown(cfg, h.bkts, Size(cfg, h.reh));
    GrownSited(cfg, h.bkts, Size(cfg, h.reh), h.cur, h.reh);
    GrownItems(cfg, h.bkts, Size(cfg, h.reh));
    assert Shaped(cfg, bs');
  }

  lemma BucketGood(cfg: Cfg, h: Hash)
    requires Inv(cfg, h) && h.active && h.next < Size(cfg, h.cur)
    ensures var h' := h.(bkts := MoveAll(cfg, h.bkts, h.reh, h.next, 0, 0), next := h.next + 1);
            Inv(cfg, h') && Items(h'.bkts) == Items(h.bkts)
  {
    assert Partly(cfg, h.bkts, h.cur, h.reh, h.next, 0, 0);
    MoveAllSites(cfg, h.bkts, h.cur, h.reh, h.next, 0, 0);
    MoveAllKeeps(cfg, h.bkts, h.reh, h.next);
  }

  /** After a complete shrink the buckets that go away hold nothing. */
  lemma {:induction false} DropsNothing(bs: seq<Bkt>, n: nat)
    requires n <= |bs| && forall b, o :: n <= b < |bs| && 0 <= o < |bs[b].lists| ==> bs[b].lists[o] == []
    ensures Items(bs[..n]) == Items(bs)
  {
    var keep, gone := bs[..n], bs[n..];
    assert bs == keep + gone;
    ItemsConcat(keep, gone);
    forall b, o | 0 <= b < |gone| && 0 <= o < |gone[b].lists| ensures gone[b].lists[o] == [] {
      assert gone[b] == bs[b + n];
    }
    NoItems(gone);
  }

  lemma EndFull(cfg: Cfg, h: Hash)
    requires Inv(cfg, h) && h.active && h.next == Size(cfg, h.cur)
    ensures var bs' := if Size(cfg, h.reh) < |h.bkts| then h.bkts[..Size(cfg, h.reh)] else h.bkts;
            Items(bs') == Items(h.bkts) && Sited(cfg, bs', h.reh, h.reh, 0) && Counted(bs') && Shaped(cfg, bs') &&
              |bs'| == Size(cfg, h.reh)
  {
    ProcessedIsNew(cfg, h);
    if Size(cfg, h.reh) < |h.bkts| { DropsNothing(h.bkts, Size(cfg, h.reh)); }
  }

  /** Publishing the new array, or giving up. */
  lemma EndGood(cfg: Cfg, h: Hash)
    requires Inv(cfg, h) && h.active && (h.next == Size(cfg, h.cur) || h.exiting)
    ensures Inv(cfg, DoWorkEnd(cfg, h)) && Items(DoWorkEnd(cfg, h).bkts) == Items(h.bkts)
  {
    if h.next == Size(cfg, h.cur) { EndFull(cfg, h); }
  }

  lemma StepRefines(cfg: Cfg, h: Hash, st: Step)
    requires Inv(cfg, h) && Enabled(cfg, h, st)
    ensures Good(cfg, h, st, Apply(cfg, h, st))
  {
    match st {
      case Add(x) => AddGood(cfg, h, x);
      case FindAdd(x) => FindAddGood(cfg, h, x);
      case Del(key, want) => DelGood(cfg, h, key, want);
      case _ => WorkerGood(cfg, h, st);
    }
  }

  lemma WorkerGood(cfg: Cfg, h: Hash, st: Step)
    requires Inv(cfg, h) && Enabled(cfg, h, st) && !st.Add? && !st.FindAdd? && !st.Del?
    ensures Good(cfg, h, st, Apply(cfg, h, st))
  {
    match st {
      case WorkStart(alloc) => if alloc && !ThetaFits(cfg, h) { StartGood(cfg, h); }
      case WorkBucket => BucketGood(cfg, h);
      case WorkEnd => EndGood(cfg, h);
      case _ =>
    }
  }

  ghost predicate IsRun(cfg: Cfg, steps: seq<Step>, hs: seq<Hash>) {
    && |hs| == |steps| + 1 && hs[0] == Init(cfg)
    && forall k :: 0 <= k < |steps| ==> Enabled(cfg, hs[k], steps[k]) && hs[k + 1] == Apply(cfg, hs[k], steps[k])
  }

  lemma {:induction false} RunInv(cfg: Cfg, steps: seq<Step>, hs: seq<Hash>, k: nat)
    requires CfgOk(cfg) && IsRun(cfg, steps, hs) && k <= |steps|
    ensures Inv(cfg, hs[k])
  {
    if k == 0 {
      InitInv(cfg);
    } else {
      RunInv(cfg, steps, hs, k - 1);
      StepRefines(cfg, hs[k - 1], steps[k - 1]);
    }
  }

  /** At every lock release of every run the table is the multimap of the additions and deletions so far: each
      step does to its items what it would do to a plain multimap, and hs_count is their number. */
  lemma RunRefines(cfg: Cfg, steps: seq<Step>, hs: seq<Hash>, k: nat)
    requires CfgOk(cfg) && IsRun(cfg, steps, hs) && k < |steps|
    ensures Items(hs[0].bkts) == multiset{}
    ensures MultimapStep(Items(hs[k].bkts), steps[k], Items(hs[k + 1].bkts))
    ensures hs[k].count == |Items(hs[k].bkts)| && hs[k + 1].count == |Items(hs[k + 1].bkts)|
  {
    EmptyBkts(cfg, Size(cfg, cfg.minBits));
    RunInv(cfg, steps, hs, k);
    StepRefines(cfg, hs[k], steps[k]);
  }

  /** While a rehash is active, in every run: each item is at its old or its new location, at the new one in
      every bucket already processed. */
  lemma RunSites(cfg: Cfg, steps: seq<Step>, hs: seq<Hash>, k: nat, b: nat, o: nat, x: Item)
    requires CfgOk(cfg) && IsRun(cfg, steps, hs) && k <= |steps| && hs[k].active
    requires b < |hs[k].bkts| && o < |hs[k].bkts[b].lists| && x in hs[k].bkts[b].lists[o]
    ensures cfg.loc(x.key, hs[k].reh) == (b, o) || cfg.loc(x.key, hs[k].cur) == (b, o)
    ensures b < hs[k].next ==> cfg.loc(x.key, hs[k].reh) == (b, o)
  {
    RunInv(cfg, steps, hs, k);
  }

  /** Lookups in every run, rehashing or not, agree with the multimap. */
  lemma RunLookups(cfg: Cfg, steps: seq<Step>, hs: seq<Hash>, k: nat, key: nat)
    requires CfgOk(cfg) && IsRun(cfg, steps, hs) && k <= |steps| && !hs[k].exiting
    ensures WellFormed(cfg, hs[k])
    ensures Lookup(cfg, hs[k], key, None).Some? <==> exists x :: x in Items(hs[k].bkts) && x.key == key
  {
    RunInv(cfg, steps, hs, k);
    LookupRefines(cfg, hs[k], key, None);
    match Lookup(cfg, hs[k], key, None) {
      case None =>
      case Some((at, i)) => assert At(hs[k].bkts, at)[i] in Items(hs[k].bkts);
    }
  }

  /** Every way out of the worker keeps the items, their number and every bucket that holds one: what it drops
      from the table is empty. */
  lemma WorkerDropsEmpty(cfg: Cfg, h: Hash, st: Step, b: nat, o: nat)
    requires Inv(cfg, h) && Enabled(cfg, h, st) && (st.WorkStart? || st.WorkBucket? || st.WorkEnd?)
    requires b < |h.bkts| && o < |h.bkts[b].lists|
    ensures Items(Apply(cfg, h, st).bkts) == Items(h.bkts) && Apply(cfg, h, st).count == h.count
    ensures b >= |Apply(cfg, h, st).bkts| ==> st.WorkEnd? && h.bkts[b].lists[o] == []
    ensures st.WorkEnd? && b < |Apply(cfg, h, st).bkts| ==> Apply(cfg, h, st).bkts[b] == h.bkts[b]
  {
    StepRefines(cfg, h, st);
    if st.WorkEnd? && h.next == Size(cfg, h.cur) { ProcessedIsNew(cfg, h); }
    if st.WorkBucket? { BucketKeepsArray(cfg, h); }
  }

  lemma BucketKeepsArray(cfg: Cfg, h: Hash)
    requires Inv(cfg, h) && Enabled(cfg, h, WorkBucket)
    ensures |Apply(cfg, h, WorkBucket).bkts| == |h.bkts|
  {
    assert Partly(cfg, h.bkts, h.cur, h.reh, h.next, 0, 0);
    MoveAllSites(cfg, h.bkts, h.cur, h.reh, h.next, 0, 0);
  }

  // ----- when the worker rehashes, and what comes of it -----

  lemma QuotientAbove(a: int, p: nat, bound: nat)
    requires p >= 1
    ensures a / p > bound <==> a >= (bound + 1) * p
    ensures a / p < bound <==> a < bound * p
  {
    var q := a / p;
    assert a == q * p + a % p;
    if q > bound { MulUp(bound + 1, q, p); } else { MulUp(q, bound, p); }
    if q < bound { MulUp(q + 1, bound, p); } else { MulUp(bound, q, p); }
  }

  lemma MulUp(a: int, b: int, p: nat)
    requires a <= b
    ensures a * p <= b * p && (a + 1) * p == a * p + p
  {
  }

  /** The worker rehashes exactly if memory could be had and the table holds more than maxTheta / 1024 or fewer than
      minTheta / 1024 items for each of its 2^cur lists; otherwise it leaves everything as it is and withdraws. */
  lemma WorkStartIff(cfg: Cfg, h: Hash, alloc: bool)
    requires Enabled(cfg, h, WorkStart(alloc))
    ensures var h' := Apply(cfg, h, WorkStart(alloc));
            && (h'.active <==> alloc && (h.count * 1024 >= (cfg.maxTheta + 1) * Pow2(h.cur) ||
                                         h.count * 1024 < cfg.minTheta * Pow2(h.cur)))
            && (!h'.active ==> h' == h.(reh := 0))
            && (h'.active ==> h'.cur == h.cur && h'.reh == h.reh && h'.next == 0 && h'.count == h.count)
  {
    QuotientAbove(h.count * 1024, Pow2(h.cur), cfg.maxTheta);
    QuotientAbove(h.count * 1024, Pow2(h.cur), cfg.minTheta);
  }

  /** Step j is the last launch of a rehash before step k. */
  predicate LastLaunch(steps: seq<Step>, j: nat, k: nat) {
    j < k <= |steps| && steps[j].Launch? && forall x :: j < x < k ==> !steps[x].Launch?
  }

  function LaunchedBits(h: Hash, grow: bool): int {
    if grow then h.cur + 1 else h.cur - 1
  }

  /** Until it ends, a launched rehash keeps its goal. */
  ghost predicate UnderWay(h: Hash, cur: nat, bits: int) {
    h.reh == 0 || (h.reh == bits && h.cur == cur)
  }

  lemma StaysUnderWay(cfg: Cfg, h: Hash, st: Step, cur: nat, bits: int)
    requires Enabled(cfg, h, st) && !st.Launch? && UnderWay(h, cur, bits)
    ensures UnderWay(Apply(cfg, h, st), cur, bits)
  {
  }

  lemma {:induction false} RunUnderWay(cfg: Cfg, steps: seq<Step>, hs: seq<Hash>, j: nat, k: nat)
    requires CfgOk(cfg) && IsRun(cfg, steps, hs) && LastLaunch(steps, j, k)
    ensures UnderWay(hs[k], hs[j].cur, LaunchedBits(hs[j], steps[j].grow))
    decreases k
  {
    if k > j + 1 {
      RunUnderWay(cfg, steps, hs, j, k - 1);
      StaysUnderWay(cfg, hs[k - 1], steps[k - 1], hs[j].cur, LaunchedBits(hs[j], steps[j].grow));
    }
  }

  /** A rehash that ends was launched, and leaves the table with one bit more if that was to grow it and one less if it
      was to shrink it; only a shrink that is given up because the table goes away leaves it as it was. */
  lemma RehashEnds(cfg: Cfg, steps: seq<Step>, hs: seq<Hash>, j: nat, k: nat)
    requires CfgOk(cfg) && IsRun(cfg, steps, hs) && LastLaunch(steps, j, k) && k < |steps| && steps[k].WorkEnd?
    ensures !hs[k + 1].active && hs[k + 1].reh == 0 && hs[k].cur == hs[j].cur
    ensures hs[k + 1].cur == if steps[j].grow then hs[j].cur + 1
                             else if hs[k].next == Size(cfg, hs[k].cur) then hs[j].cur - 1
                             else hs[j].cur
    ensures hs[k].next == Size(cfg, hs[k].cur) || hs[k].exiting
  {
    RunUnderWay(cfg, steps, hs, j, k);
  }

  lemma {:induction false} LaunchBefore(cfg: Cfg, steps: seq<Step>, hs: seq<Hash>, k: nat) returns (j: nat)
    requires CfgOk(cfg) && IsRun(cfg, steps, hs) && k <= |steps| && hs[k].reh != 0
    ensures LastLaunch(steps, j, k)
  {
    j := k - 1;
    if !steps[k - 1].Launch? { j := LaunchBefore(cfg, steps, hs, k - 1); }
  }

  /** The descriptors of a key are its location for the current size and, during a rehash, the one for the new size, in
      the order in which bucket locks are taken. */
  lemma DualsAre(cfg: Cfg, h: Hash, key: nat)
    ensures var ds := Duals(cfg, h, key);
            && (forall d :: d in ds <==> d == cfg.loc(key, h.cur) || (h.active && d == cfg.loc(key, h.reh)))
            && 1 <= |ds| <= 2 && (|ds| == 2 ==> ds[0].0 < ds[1].0 || (ds[0].0 == ds[1].0 && ds[0].1 < ds[1].1))
  {
  }

  /** Of several items with one key on a list a search finds the one added last, or with CFS_HASH_ADD_TAIL the one added
      first. */
  lemma {:induction false} WhoIsFound(cfg: Cfg, l: seq<Item>, x: Item)
    ensures FindIn(Insert(cfg, l, x), x.key, None) ==
            if !cfg.addTail then Some(0) else if FindIn(l, x.key, None).Some? then FindIn(l, x.key, None) else Some(|l|)
  {
    if !cfg.addTail {
      assert ([x] + l)[0] == x;
    } else if l == [] {
      assert l + [x] == [x];
    } else {
      assert (l + [x])[1..] == l[1..] + [x];
      WhoIsFound(cfg, l[1..], x);
    }
  }
}
