/**
  One match table of a portal (lib-ptl.c, lib-me.c): 256 hashed lists of match entries, one
  extra list for entries with ignore bits, and one "exhausted" bit per list.

  A memory descriptor (MD) lives inside its match entry (ME) while it is attached.
 */
module MatchTable {
  import opened Common

  const HASH_SIZE := 256
  const IGNORE_LIST := HASH_SIZE
  const NLISTS := HASH_SIZE + 1

  /** A nid or pid criterion: LNET_NID_ANY / LNET_PID_ANY, or one value. */
  datatype Wild = Any | Only(v: nat)

  predicate Fits(w: Wild, v: nat) {
    w.Any? || w.v == v
  }

  datatype Md = Md(id: nat, put: bool, get: bool, remote: bool, capped: bool, truncate: bool,
                   autoUnlink: bool, offset: nat, length: nat, maxSize: nat, threshold: int, refcount: nat)

  datatype Me = Me(nid: Wild, pid: Wild, mbits: bv64, ignore: bv64, unlink: bool, md: Option<Md>)

  /** What a PUT or GET asks for (struct lnet_match_info). */
  datatype Info = Info(nid: nat, pid: nat, mbits: bv64, get: bool, rlength: nat, roffset: nat)

  /** lnet_md_exhausted; the sum is an unsigned 32-bit one. */
  predicate Exhausted(md: Md) {
    UsedUp(md.threshold, md.capped && (md.offset + md.maxSize) % U32 > md.length)
  }

  /** The operation, nid, pid and match-bit tests of lnet_try_match_md. */
  predicate Suits(me: Me, md: Md, info: Info) {
    && (if info.get then md.get else md.put)
    && Fits(me.nid, info.nid)
    && Fits(me.pid, info.pid)
    && BitsFit(me.mbits, me.ignore, info.mbits)
  }

  /** The match bits agree outside the ignored ones. */
  predicate BitsFit(mbits: bv64, ignore: bv64, wanted: bv64) {
    (mbits ^ wanted) & !ignore == 0
  }

  function StartOffset(md: Md, info: Info): nat {
    if md.remote then info.roffset else md.offset
  }

  /** The allowed length; md_length - offset is an unsigned 32-bit difference. */
  function Room(md: Md, info: Info): nat {
    if md.capped then md.maxSize else (md.length - StartOffset(md, info)) % U32
  }

  /** The result bits of lnet_try_match_md. */
  datatype Verdict = Miss(exhausted: bool) | Ok(exhausted: bool) | Drop

  /** The length taken: all of the message, or what is allowed of it. */
  function MLength(md: Md, info: Info): nat {
    if info.rlength <= Room(md, info) then info.rlength else Room(md, info)
  }

  function Committed(md: Md, info: Info): Md {
    md.(offset := (StartOffset(md, info) + MLength(md, info)) % U32,
        threshold := OneLess(md.threshold),
        refcount := md.refcount + 1)
  }

  function TryMatch(me: Me, md: Md, info: Info): Verdict {
    if Exhausted(md) then Miss(true)
    else if !Suits(me, md, info) then Miss(false)
    else if info.rlength > Room(md, info) && !md.truncate then Drop
    else Ok(Exhausted(Committed(md, info)))
  }

  /** What is left of an ME on its list after lnet_try_match_md said OK: an exhausted
      auto-unlink MD is detached, and its ME goes too if it was created with LNET_UNLINK. */
  function AfterOk(me: Me, md: Md, info: Info): seq<Me> {
    var md' := Committed(md, info);
    if !(Exhausted(md') && md'.autoUnlink) then [me.(md := Some(md'))]
    else if me.unlink then []
    else [me.(md := None)]
  }

  /** lnet_try_match_md on this ME would end the search (OK or DROP). */
  predicate Takes(me: Me, info: Info) {
    me.md.Some? && !Exhausted(me.md.value) && Suits(me, me.md.value, info)
  }

  predicate Live(me: Me) {
    me.md.Some? && !Exhausted(me.md.value)
  }

  /** The MDs on a list that would take the message: the plain scan the index replaces. */
  function Takers(l: seq<Me>, info: Info): set<nat> {
    set me | me in l && Takes(me, info) :: me.md.value.id
  }

  function LiveMds(l: seq<Me>): set<nat> {
    set me | me in l && Live(me) :: me.md.value.id
  }

  /** The MD, whether it is a match or a drop, and the msg_offset and msg_wanted of a match. */
  datatype Hit = Hit(md: nat, ok: bool, offset: nat, length: nat)
  datatype Scan = Scan(hit: Option<Hit>, rest: seq<Me>, drained: bool)

  function HitOf(md: Md, info: Info): Hit {
    Hit(md.id, info.rlength <= Room(md, info) || md.truncate, StartOffset(md, info), MLength(md, info))
  }

  /** What stays on the list of an ME that took the message. */
  function Left(me: Me, md: Md, info: Info): seq<Me> {
    if HitOf(md, info).ok then AfterOk(me, md, info) else [me]
  }

  /** The list walk inside lnet_mt_match_md; drained: every MD seen reported EXHAUSTED. */
  function ScanList(l: seq<Me>, info: Info): Scan {
    if l == [] then Scan(None, [], true)
    else if Takes(l[0], info) then
      Scan(Some(HitOf(l[0].md.value, info)), Left(l[0], l[0].md.value, info) + l[1..], false)
    else
      var s := ScanList(l[1..], info);
      Scan(s.hit, [l[0]] + s.rest, s.drained && !Live(l[0]))
  }

  lemma LeftShrinks(me: Me, info: Info, i: Info)
    requires Takes(me, info)
    ensures Takers(Left(me, me.md.value, info), i) <= Takers([me], i)
    ensures LiveMds(Left(me, me.md.value, info)) <= LiveMds([me])
  {
    var me' := me.(md := Some(Committed(me.md.value, info)));
    NoLiver(me, me', i);
    assert Left(me, me.md.value, info) in {[me'], [me.(md := None)], [me], []};
    TakersOne(me.(md := None), i);
  }

  /** A live MD that changed in neither id nor what it is for takes no more than before. */
  lemma NoLiver(me: Me, me': Me, i: Info)
    requires me.md.Some? && Live(me) && me'.md.Some? && me' == me.(md := me'.md)
    requires var md, md' := me.md.value, me'.md.value; md'.id == md.id && md'.put == md.put && md'.get == md.get
    ensures Takers([me'], i) <= Takers([me], i) && LiveMds([me']) <= LiveMds([me])
  {
    TakersOne(me, i);
    TakersOne(me', i);
  }

  lemma TakersConcat(a: seq<Me>, b: seq<Me>, i: Info)
    ensures Takers(a + b, i) == Takers(a, i) + Takers(b, i)
    ensures LiveMds(a + b) == LiveMds(a) + LiveMds(b)
  {
  }

  lemma TakersOne(me: Me, i: Info)
    ensures Takers([me], i) == (if Takes(me, i) then {me.md.value.id} else {})
    ensures LiveMds([me]) == (if Live(me) then {me.md.value.id} else {})
  {
    assert me in [me];
  }

  /** A scan hits exactly when some MD on the list takes the message; an unsuccessful one leaves the
      list as it was and reports it drained exactly when no live MD is on it. */
  lemma {:induction false} ScanFinds(l: seq<Me>, info: Info)
    ensures ScanList(l, info).hit.None? <==> Takers(l, info) == {}
    ensures ScanList(l, info).hit.None? ==>
              && ScanList(l, info).rest == l
              && (ScanList(l, info).drained <==> LiveMds(l) == {})
  {
    if l != [] {
      var me := l[0];
      ScanFinds(l[1..], info);
      assert l == [me] + l[1..];
      TakersConcat([me], l[1..], info);
      TakersOne(me, info);
    }
  }

  /** No scan makes an MD able to take more, or revives an exhausted one. */
  lemma {:induction false} ScanShrinks(l: seq<Me>, info: Info, i: Info)
    ensures Takers(ScanList(l, info).rest, i) <= Takers(l, i)
    ensures LiveMds(ScanList(l, info).rest) <= LiveMds(l)
  {
    if l != [] {
      var me := l[0];
      var s := ScanList(l[1..], info);
      ScanShrinks(l[1..], info, i);
      assert l == [me] + l[1..];
      TakersConcat([me], l[1..], i);
      TakersConcat([me], s.rest, i);
      if Takes(me, info) {
        LeftShrinks(me, info, i);
        TakersConcat(Left(me, me.md.value, info), l[1..], i);
      }
    }
  }

  /** The hit is the first taker in list order, and it is a drop exactly when the payload does not fit. */
  lemma {:induction false} ScanFirst(l: seq<Me>, info: Info) returns (k: nat)
    requires ScanList(l, info).hit.Some?
    ensures k < |l| && Takes(l[k], info)
    ensures forall j :: 0 <= j < k ==> !Takes(l[j], info)
    ensures ScanList(l, info).hit == Some(HitOf(l[k].md.value, info))
    ensures ScanList(l, info).rest == l[..k] + Left(l[k], l[k].md.value, info) + l[k + 1..]
  {
    var me, tail := l[0], l[1..];
    if Takes(me, info) {
      k := 0;
      var left := Left(me, me.md.value, info);
      assert l[..k] + left + tail == left + tail;
    } else {
      var j := ScanFirst(tail, info);
      k := j + 1;
      var left := Left(l[k], l[k].md.value, info);
      ReplaceLater(l, j, left);
    }
  }

  lemma ReplaceLater(l: seq<Me>, j: nat, left: seq<Me>)
    requires j + 1 < |l|
    ensures [l[0]] + (l[1..][..j] + left + l[1..][j + 1..]) == l[..j + 1] + left + l[j + 2..]
  {
    assert l[..j + 1] == [l[0]] + l[1..][..j] && l[1..][j + 1..] == l[j + 2..];
  }

  datatype Table = Table(mhash: seq<seq<Me>>, spent: seq<bool>, enabled: bool)

  predicate TableShape(t: Table) {
    |t.mhash| == NLISTS && |t.spent| == NLISTS
  }

  predicate AllSpent(spent: seq<bool>) {
    forall p :: 0 <= p < |spent| ==> spent[p]
  }

  datatype Found = Found(hit: Option<Hit>, table: Table, exhausted: bool)

  /** One trip through the "again" label of lnet_mt_match_md. */
  function MtPass(wildcard: bool, t: Table, pos: nat, info: Info): Found
    requires TableShape(t) && pos < NLISTS
  {
    var s := ScanList(t.mhash[pos], info);
    if s.hit.Some? then Found(s.hit, t.(mhash := t.mhash[pos := s.rest]), false)
    else if wildcard && s.drained then
      var spent := t.spent[pos := true];
      Found(None, t.(spent := spent), AllSpent(spent))
    else Found(None, t, false)
  }

  /** lnet_mt_match_md; head is the hashed list of the message. */
  function MtMatch(wildcard: bool, t: Table, head: nat, info: Info): Found
    requires TableShape(t) && head < HASH_SIZE
  {
    if t.mhash[IGNORE_LIST] == [] then MtPass(wildcard, t, head, info)
    else
      var f := MtPass(wildcard, t, IGNORE_LIST, info);
      if f.hit.None? && !f.exhausted then MtPass(wildcard, f.table, head, info) else f
  }

  /** Every MD of the table that could take the message is in ex. */
  ghost predicate TakersWithin(t: Table, info: Info, ex: set<nat>) {
    forall p :: 0 <= p < |t.mhash| ==> Takers(t.mhash[p], info) <= ex
  }

  /** A set bit means that no MD on that list can match anything any more. */
  ghost predicate SpentHonest(t: Table)
    requires TableShape(t)
  {
    forall p :: 0 <= p < NLISTS && t.spent[p] ==> LiveMds(t.mhash[p]) == {}
  }

  /** Entries sit where LNetMEAttach puts them, as far as this message is concerned. */
  ghost predicate PlacedFor(t: Table, head: nat, info: Info)
    requires TableShape(t)
  {
    forall p :: 0 <= p < NLISTS && Takers(t.mhash[p], info) != {} ==> p == IGNORE_LIST || p == head
  }

  lemma TakersAreLive(l: seq<Me>, info: Info)
    ensures Takers(l, info) <= LiveMds(l)
  {
  }

  lemma MtPassFacts(wildcard: bool, t: Table, pos: nat, info: Info, i: Info)
    requires TableShape(t) && pos < NLISTS
    ensures var f := MtPass(wildcard, t, pos, info);
            && TableShape(f.table) && f.table.enabled == t.enabled
            && (f.hit.None? <==> Takers(t.mhash[pos], info) == {})
            && (f.hit.None? ==> f.table.mhash == t.mhash)
            && (f.hit.Some? ==> f.table.spent == t.spent)
            && (forall p :: 0 <= p < NLISTS ==> Takers(f.table.mhash[p], i) <= Takers(t.mhash[p], i))
            && (forall p :: 0 <= p < NLISTS ==> LiveMds(f.table.mhash[p]) <= LiveMds(t.mhash[p]))
            && (f.exhausted ==> wildcard && f.hit.None? && AllSpent(f.table.spent))
    ensures SpentHonest(t) ==> SpentHonest(MtPass(wildcard, t, pos, info).table)
    ensures forall p :: 0 <= p < NLISTS && t.spent[p] ==> MtPass(wildcard, t, pos, info).table.spent[p]
    ensures !wildcard ==> MtPass(wildcard, t, pos, info).table.spent == t.spent
  {
    ScanFinds(t.mhash[pos], info);
    ScanShrinks(t.mhash[pos], info, i);
  }

  /** What a call of lnet_mt_match_md may change: it never revives an MD, never widens what the table can
      take, keeps the exhausted bits honest, and reports EXHAUSTED only for a wholly exhausted table. */
  lemma MtMatchKeeps(wildcard: bool, t: Table, head: nat, info: Info, i: Info)
    requires TableShape(t) && head < HASH_SIZE
    ensures var f := MtMatch(wildcard, t, head, info);
            && TableShape(f.table) && (SpentHonest(t) ==> SpentHonest(f.table)) && f.table.enabled == t.enabled
            && (forall p :: 0 <= p < NLISTS ==> Takers(f.table.mhash[p], i) <= Takers(t.mhash[p], i))
            && (forall p :: 0 <= p < NLISTS ==> LiveMds(f.table.mhash[p]) <= LiveMds(t.mhash[p]))
            && (f.hit.None? ==> f.table.mhash == t.mhash)
            && (f.exhausted ==> f.hit.None? && AllSpent(f.table.spent))
            && (forall p :: 0 <= p < NLISTS && t.spent[p] ==> f.table.spent[p])
            && (AllSpent(f.table.spent) ==> AllSpent(t.spent) || f.exhausted)
  {
    var start := if t.mhash[IGNORE_LIST] == [] then head else IGNORE_LIST;
    MtPassFacts(wildcard, t, start, info, i);
    var f := MtPass(wildcard, t, start, info);
    MtPassFacts(wildcard, f.table, head, info, i);
  }

  /** The index is as good as a scan of all 257 lists: lnet_mt_match_md ends the search exactly when
      some MD anywhere in the table takes the message. */
  lemma IndexEqualsScan(wildcard: bool, t: Table, head: nat, info: Info)
    requires TableShape(t) && head < HASH_SIZE && (wildcard ==> SpentHonest(t)) && PlacedFor(t, head, info)
    ensures MtMatch(wildcard, t, head, info).hit.None? <==> TakersWithin(t, info, {})
  {
    var start := if t.mhash[IGNORE_LIST] == [] then head else IGNORE_LIST;
    MtPassFacts(wildcard, t, start, info, info);
    var f := MtPass(wildcard, t, start, info);
    MtPassFacts(wildcard, f.table, head, info, info);
    TakersAreLive(f.table.mhash[head], info);
    assert Takers(t.mhash[IGNORE_LIST], info) == {} && Takers(t.mhash[head], info) == {} <==> TakersWithin(t, info, {});
  }
}
