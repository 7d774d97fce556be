/** Where the messages land that one memory descriptor accepts (lnet_try_match_md). */
module MdFill {
  import opened Common
  import opened MatchTable

  /** Each message is matched in its turn, on the MD the ones before have left. */
  predicate AllMatched(me: Me, md: Md, infos: seq<Info>)
    decreases |infos|
  {
    infos == [] || (TryMatch(me, md, infos[0]).Ok? && AllMatched(me, Committed(md, infos[0]), infos[1..]))
  }

  function After(md: Md, infos: seq<Info>): Md
    decreases |infos|
  {
    if infos == [] then md else After(Committed(md, infos[0]), infos[1..])
  }

  datatype Extent = Extent(start: nat, length: nat)

  /** msg_offset and msg_wanted of each message. */
  function Extents(md: Md, infos: seq<Info>): seq<Extent>
    decreases |infos|
  {
    if infos == [] then []
    else [Extent(HitOf(md, infos[0]).offset, HitOf(md, infos[0]).length)] + Extents(Committed(md, infos[0]), infos[1..])
  }

  /** The offset is inside the MD, and adding max_size to it does not wrap around. */
  predicate NoWrap(md: Md) {
    md.offset <= md.length < U32 && (md.capped ==> md.length + md.maxSize < U32)
  }

  function Min(a: int, b: int): int {
    if a <= b then a else b
  }

  /** The k-th extent begins where the one before ends, is as long as its message or as is allowed, and is inside. */
  predicate Next(md: Md, infos: seq<Info>, es: seq<Extent>, k: nat)
    requires k < |es| == |infos|
  {
    && es[k].start == (if k == 0 then md.offset else es[k - 1].start + es[k - 1].length)
    && es[k].length == Min(infos[k].rlength, if md.capped then md.maxSize else md.length - es[k].start)
    && es[k].start + es[k].length <= md.length
  }

  ghost predicate EndToEnd(md: Md, infos: seq<Info>, es: seq<Extent>) {
    |es| == |infos| && forall k :: 0 <= k < |es| ==> Next(md, infos, es, k)
  }

  ghost predicate Disjoint(es: seq<Extent>) {
    forall j, k :: 0 <= j < k < |es| ==> es[j].start + es[j].length <= es[k].start
  }

  /** One message on an MD that manages its offset itself. */
  lemma LocalStep(me: Me, md: Md, info: Info)
    requires !md.remote && NoWrap(md) && TryMatch(me, md, info).Ok?
    ensures var md', e := Committed(md, info), HitOf(md, info);
            && e.offset == md.offset && md'.offset == md.offset + e.length <= md.length
            && e.length == Min(info.rlength, if md.capped then md.maxSize else md.length - md.offset)
            && NoWrap(md') && md' == md.(offset := md'.offset, threshold := md'.threshold, refcount := md.refcount + 1)
            && md.threshold != 0 && md'.threshold == (if md.threshold == -1 then -1 else md.threshold - 1)
  {
    assert md.capped ==> (md.offset + md.maxSize) % U32 == md.offset + md.maxSize;
    assert !md.capped ==> (md.length - md.offset) % U32 == md.length - md.offset;
  }

  lemma EndToEndCons(md: Md, infos: seq<Info>, md': Md, e: Extent, es: seq<Extent>)
    requires infos != [] && EndToEnd(md', infos[1..], es)
    requires md' == md.(offset := md'.offset, threshold := md'.threshold, refcount := md'.refcount)
    requires e.start == md.offset && md'.offset == e.start + e.length <= md.length
    requires e.length == Min(infos[0].rlength, if md.capped then md.maxSize else md.length - md.offset)
    ensures EndToEnd(md, infos, [e] + es)
  {
    var all := [e] + es;
    forall k | 0 <= k < |all| ensures Next(md, infos, all, k) {
      if k > 0 {
        assert Next(md', infos[1..], es, k - 1);
        assert all[k] == es[k - 1] && infos[k] == infos[1..][k - 1] && (k > 1 ==> all[k - 1] == es[k - 2]);
      }
    }
  }

  lemma {:induction false} EndToEndIsDisjoint(md: Md, infos: seq<Info>, es: seq<Extent>, j: nat, k: nat)
    requires EndToEnd(md, infos, es) && j < k < |es|
    ensures es[j].start + es[j].length <= es[k].start
  {
    assert Next(md, infos, es, k);
    if j < k - 1 { EndToEndIsDisjoint(md, infos, es, j, k - 1); }
  }

  /** The messages that an MD with locally managed offset accepts, however many and in whatever sizes, lie end to end:
      no byte is written twice and none outside the MD, each takes min(rlength, room), and the MD ends with the offset
      behind the last, the threshold down by their number and a reference for each. */
  lemma {:induction false} LocalFill(me: Me, md: Md, infos: seq<Info>)
    requires !md.remote && NoWrap(md) && AllMatched(me, md, infos)
    ensures var es, md' := Extents(md, infos), After(md, infos);
            && EndToEnd(md, infos, es) && Disjoint(es)
            && md'.offset == (if es == [] then md.offset else es[|es| - 1].start + es[|es| - 1].length)
            && md'.threshold == (if md.threshold == -1 then -1 else md.threshold - |infos|)
            && (md.threshold >= 0 ==> |infos| <= md.threshold) && md'.refcount == md.refcount + |infos|
    decreases |infos|
  {
    var es := Extents(md, infos);
    if infos != [] {
      var md1 := Committed(md, infos[0]);
      LocalStep(me, md, infos[0]);
      LocalFill(me, md1, infos[1..]);
      var tail := Extents(md1, infos[1..]);
      EndToEndCons(md, infos, md1, es[0], tail);
      assert tail != [] ==> es[|es| - 1] == tail[|tail| - 1];
    }
    forall j, k | 0 <= j < k < |es| ensures es[j].start + es[j].length <= es[k].start {
      EndToEndIsDisjoint(md, infos, es, j, k);
    }
  }

  /** On an MD whose offset the sender manages, each message lands where it asks to, inside the MD if it asks for a
      place inside, whatever was matched before. */
  lemma {:induction false} RemoteFill(me: Me, md: Md, infos: seq<Info>, k: nat)
    requires md.remote && !md.capped && md.length < U32 && AllMatched(me, md, infos) && k < |infos|
    ensures |Extents(md, infos)| == |infos|
    ensures var e, info := Extents(md, infos)[k], infos[k];
            && e.start == info.roffset
            && (info.roffset <= md.length ==>
                  e.length == Min(info.rlength, md.length - info.roffset) && e.start + e.length <= md.length)
    decreases |infos|
  {
    var tail := infos[1..];
    if k > 0 {
      RemoteFill(me, Committed(md, infos[0]), tail, k - 1);
      assert Extents(md, infos)[k] == Extents(Committed(md, infos[0]), tail)[k - 1];
    } else {
      ExtentsSize(Committed(md, infos[0]), tail);
      if infos[0].roffset <= md.length {
        assert (md.length - infos[0].roffset) % U32 == md.length - infos[0].roffset;
      }
    }
  }

  lemma {:induction false} ExtentsSize(md: Md, infos: seq<Info>)
    ensures |Extents(md, infos)| == |infos|
    decreases |infos|
  {
    if infos != [] { ExtentsSize(Committed(md, infos[0]), infos[1..]); }
  }

  // ----- the answer of a list walk -----

  /** The first entry in list order that takes the message. */
  function FirstTaker(l: seq<Me>, info: Info): (r: Option<Me>)
    ensures r.Some? ==> r.value in l && Takes(r.value, info)
    ensures r.None? ==> forall me :: me in l ==> !Takes(me, info)
  {
    if l == [] then None
    else if Takes(l[0], info) then Some(l[0])
    else
      var r := FirstTaker(l[1..], info);
      assert l == [l[0]] + l[1..];
      r
  }

  /** The message is longer than what the MD allows, and may not be cut. */
  predicate TooBig(md: Md, info: Info) {
    var start := if md.remote then info.roffset else md.offset;
    info.rlength > (if md.capped then md.maxSize else (md.length - start) % U32) && !md.truncate
  }

  /** The walk answers for the first taker: a drop if the message is too big for it, or else a match. */
  lemma {:induction false} ScanAnswers(l: seq<Me>, info: Info)
    ensures match FirstTaker(l, info)
            case None => ScanList(l, info).hit == None
            case Some(me) =>
              && ScanList(l, info).hit.Some? && ScanList(l, info).hit.value.md == me.md.value.id
              && (ScanList(l, info).hit.value.ok <==> !TooBig(me.md.value, info))
  {
    if l != [] && !Takes(l[0], info) { ScanAnswers(l[1..], info); }
  }

  /** What is to become of an entry that a message meets: a drop changes nothing.  A match leaves the MD where it is, as
      far on as LocalFill and RemoteFill say; only an exhausted auto-unlink MD goes, and its ME with it if that was made
      with LNET_UNLINK. */
  function EntryAfter(me: Me, info: Info): seq<Me>
    requires me.md.Some?
  {
    var md, md' := me.md.value, After(me.md.value, [info]);
    var gone := md.autoUnlink && (md'.threshold == 0 || (md.capped && (md'.offset + md.maxSize) % U32 > md.length));
    if TooBig(md, info) then [me]
    else if !gone then [me.(md := Some(md'))]
    else if me.unlink then []
    else [me.(md := None)]
  }

  lemma LeftIs(me: Me, info: Info)
    requires me.md.Some?
    ensures Left(me, me.md.value, info) == EntryAfter(me, info)
  {
    assert After(me.md.value, [info]) == Committed(me.md.value, info) by { assert [info][1..] == []; }
  }

  /** The walk changes the first taker's entry as it should and no other. */
  lemma ScanEntry(l: seq<Me>, info: Info) returns (k: nat)
    requires ScanList(l, info).hit.Some?
    ensures k < |l| && Some(l[k]) == FirstTaker(l, info)
    ensures ScanList(l, info).rest == l[..k] + EntryAfter(l[k], info) + l[k + 1..]
  {
    k := ScanFirst(l, info);
    FirstAt(l, k, info);
    LeftIs(l[k], info);
  }

  lemma {:induction false} FirstAt(l: seq<Me>, k: nat, info: Info)
    requires k < |l| && Takes(l[k], info) && forall j :: 0 <= j < k ==> !Takes(l[j], info)
    ensures FirstTaker(l, info) == Some(l[k])
  {
    if k > 0 { FirstAt(l[1..], k - 1, info); }
  }

  /** The first taker of a table: the list of entries with ignore bits comes first, then the hashed list. */
  function TableTaker(t: Table, head: nat, info: Info): Option<Me>
    requires TableShape(t) && head < HASH_SIZE
  {
    match FirstTaker(t.mhash[IGNORE_LIST], info)
    case Some(me) => Some(me)
    case None => FirstTaker(t.mhash[head], info)
  }

  lemma NoTakers(l: seq<Me>, info: Info)
    ensures Takers(l, info) == {} <==> FirstTaker(l, info).None?
  {
    if FirstTaker(l, info).Some? {
      var me := FirstTaker(l, info).value;
      assert me in l && Takes(me, info) && me.md.value.id in Takers(l, info);
    }
  }

  /** lnet_mt_match_md answers for the first taker of the table. */
  lemma MtAnswers(wildcard: bool, t: Table, head: nat, info: Info)
    requires TableShape(t) && head < HASH_SIZE && (wildcard ==> SpentHonest(t))
    ensures match TableTaker(t, head, info)
            case None => MtMatch(wildcard, t, head, info).hit == None
            case Some(me) =>
              var hit := MtMatch(wildcard, t, head, info).hit;
              hit.Some? && hit.value.md == me.md.value.id && (hit.value.ok <==> !TooBig(me.md.value, info))
  {
    ScanAnswers(t.mhash[IGNORE_LIST], info);
    ScanAnswers(t.mhash[head], info);
    if t.mhash[IGNORE_LIST] != [] {
      var f := MtPass(wildcard, t, IGNORE_LIST, info);
      MtPassFacts(wildcard, t, IGNORE_LIST, info, info);
      if f.exhausted {
        TakersAreLive(f.table.mhash[head], info);
        NoTakers(t.mhash[head], info);
      }
    }
  }

  // ----- offering one MD to several messages -----

  datatype Offer = Offer(left: seq<Me>, taken: map<nat, bool>, rest: seq<nat>)

  /** Each message in turn walks the list l as if it had just come in. */
  function OfferAll(info: nat -> Info, l: seq<Me>, msgs: seq<nat>): Offer
    decreases |msgs|
  {
    if msgs == [] then Offer(l, map[], [])
    else
      var m, s := msgs[0], ScanList(l, info(msgs[0]));
      var r := OfferAll(info, s.rest, msgs[1..]);
      if s.hit.Some? then r.(taken := map[m := s.hit.value.ok] + r.taken) else r.(rest := [m] + r.rest)
  }
}
