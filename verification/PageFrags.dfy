/** Cutting a buffer into page fragments (lnet_md_build) and taking a sub-range of a fragment list
    (lnet_extract_kiov), against the addresses both denote. */
module PageFrags {
  import opened Common
  import opened IovCopy

  /** DIV_ROUND_UP(offset_in_page(start) + length, PAGE_SIZE) */
  function PagesFor(start: nat, length: nat): nat {
    (start % PAGE_SIZE + length + PAGE_SIZE - 1) / PAGE_SIZE
  }

  /** No fragment crosses the end of its page. */
  predicate InPages(kiov: seq<BioVec>) {
    forall i :: 0 <= i < |kiov| ==> kiov[i].offset + kiov[i].len <= PAGE_SIZE
  }

  function Denotes(kiov: seq<BioVec>): seq<nat> {
    Flat(Frags(kiov))
  }

  lemma DenotesAppend(kiov: seq<BioVec>, b: BioVec)
    ensures Denotes(kiov + [b]) == Denotes(kiov) + Range(Addr(b), b.len)
  {
    var f := Frags(kiov + [b]);
    assert f[..|kiov|] == Frags(kiov);
  }

  lemma {:induction false} DenotesConcat(a: seq<BioVec>, b: seq<BioVec>)
    ensures Denotes(a + b) == Denotes(a) + Denotes(b)
  {
    if b == [] {
      assert a + b == a;
    } else {
      var front, last := b[..|b| - 1], b[|b| - 1];
      DenotesConcat(a, front);
      DenotesAppend(a + front, last);
      DenotesAppend(front, last);
      assert a + front + [last] == a + b && front + [last] == b;
      Assoc(Denotes(a), Denotes(front), Range(Addr(last), last.len));
    }
  }

  lemma Assoc(x: seq<nat>, y: seq<nat>, z: seq<nat>)
    ensures x + (y + z) == x + y + z
  {
  }

  // ----- lnet_md_build -----

  lemma PageOf(pa: nat)
    ensures (pa / PAGE_SIZE) * PAGE_SIZE + pa % PAGE_SIZE == pa && pa % PAGE_SIZE < PAGE_SIZE
  {
  }

  /** After the first fragment the cut is at page boundaries: fragment i lies in page start / PAGE_SIZE + i. */
  predicate CutAt(start: nat, length: nat, pa: nat, i: nat) {
    && start <= pa <= start + length
    && (i == 0 ==> pa == start)
    && (i > 0 ==> pa == start + length || pa == (start / PAGE_SIZE + i) * PAGE_SIZE)
    && (i > 0 ==> (start / PAGE_SIZE + i - 1) * PAGE_SIZE < pa <= (start / PAGE_SIZE + i) * PAGE_SIZE)
  }

  lemma RoomLeft(start: nat, length: nat, pa: nat, i: nat)
    requires CutAt(start, length, pa, i) && pa < start + length
    ensures i < PagesFor(start, length)
  {
    PageOf(start);
    if i == 0 {
      DivAbove(start % PAGE_SIZE + length + PAGE_SIZE - 1, 1);
    } else {
      assert i * PAGE_SIZE < start % PAGE_SIZE + length;
      DivAbove(start % PAGE_SIZE + length + PAGE_SIZE - 1, i + 1);
    }
  }

  lemma DivAbove(x: nat, k: nat)
    requires x >= k * PAGE_SIZE
    ensures x / PAGE_SIZE >= k
  {
  }

  lemma DivBelow(x: nat, k: nat)
    requires x < (k + 1) * PAGE_SIZE
    ensures x / PAGE_SIZE <= k
  {
  }

  lemma AllUsed(start: nat, length: nat, i: nat)
    requires CutAt(start, length, start + length, i)
    ensures if length == 0 then PagesFor(start, length) <= 1 else i == PagesFor(start, length)
  {
    PageOf(start);
    if length == 0 {
      DivBelow(start % PAGE_SIZE + PAGE_SIZE - 1, 1);
    } else {
      DivAbove(start % PAGE_SIZE + length + PAGE_SIZE - 1, i);
      DivBelow(start % PAGE_SIZE + length + PAGE_SIZE - 1, i);
    }
  }

  lemma NextCut(start: nat, length: nat, pa: nat, i: nat, plen: nat)
    requires CutAt(start, length, pa, i) && pa < start + length
    requires plen == (if start + length - pa <= PAGE_SIZE - pa % PAGE_SIZE then start + length - pa
                      else PAGE_SIZE - pa % PAGE_SIZE)
    ensures CutAt(start, length, pa + plen, i + 1) && plen > 0 && pa + plen <= (start / PAGE_SIZE + i + 1) * PAGE_SIZE
  {
    PageOf(pa);
    PageOf(start);
    if i > 0 { assert pa / PAGE_SIZE == start / PAGE_SIZE + i; }
  }

  /** The fragment of plen bytes at address pa. */
  function PageAt(pa: nat, plen: nat): BioVec {
    BioVec(pa / PAGE_SIZE, pa % PAGE_SIZE, plen)
  }

  lemma OneMore(kiov: seq<BioVec>, start: nat, pa: nat, plen: nat)
    requires start <= pa && Denotes(kiov) == Range(start, pa - start) && InPages(kiov)
    requires plen <= PAGE_SIZE - pa % PAGE_SIZE
    ensures Denotes(kiov + [PageAt(pa, plen)]) == Range(start, pa + plen - start) && InPages(kiov + [PageAt(pa, plen)])
  {
    PageOf(pa);
    DenotesAppend(kiov, PageAt(pa, plen));
    assert Range(start, pa - start) + Range(pa, plen) == Range(start, pa + plen - start);
  }

  lemma NothingCut(kiov: seq<BioVec>)
    requires |kiov| <= 1 && forall i :: 0 <= i < |kiov| ==> kiov[i] == BioVec(0, 0, 0)
    ensures Denotes(kiov) == []
  {
    if kiov != [] {
      assert kiov == [BioVec(0, 0, 0)];
      DenotesOne(BioVec(0, 0, 0));
    }
  }

  /** The contiguous branch of lnet_md_build: the zeroed kiov has room for PagesFor fragments and no more are written.
      For an empty buffer that starts inside a page, one fragment is counted but not written. */
  method CutPages(start: nat, length: nat) returns (kiov: array<BioVec>)
    ensures fresh(kiov) && kiov.Length == PagesFor(start, length)
    ensures Denotes(kiov[..]) == Range(start, length) && InPages(kiov[..])
  {
    kiov := new BioVec[PagesFor(start, length)](_ => BioVec(0, 0, 0));
    var pa, len, i := start, length, 0;
    while len > 0
      invariant 0 <= len <= length && pa == start + (length - len) && 0 <= i <= kiov.Length
      invariant CutAt(start, length, pa, i) && (length == 0 ==> i == 0)
      invariant Denotes(kiov[..i]) == Range(start, pa - start) && InPages(kiov[..i])
      invariant forall j :: i <= j < kiov.Length ==> kiov[j] == BioVec(0, 0, 0)
    {
      RoomLeft(start, length, pa, i);
      var plen := if len <= PAGE_SIZE - pa % PAGE_SIZE then len else PAGE_SIZE - pa % PAGE_SIZE;
      NextCut(start, length, pa, i, plen);
      ghost var before := kiov[..i];
      OneMore(before, start, pa, plen);
      kiov[i] := PageAt(pa, plen);
      assert kiov[..i + 1] == before + [PageAt(pa, plen)];
      len := len - plen;
      pa := pa + plen;
      i := i + 1;
    }
    AllUsed(start, length, i);
    if length == 0 { NothingCut(kiov[..]); } else { assert kiov[..i] == kiov[..]; }
  }

  // ----- lnet_extract_kiov -----

  /** The part of a fragment from offset on, at most len bytes. */
  function PartOf(b: BioVec, offset: nat, len: nat): BioVec
    requires offset <= b.len
  {
    BioVec(b.page, b.offset + offset, if len <= b.len - offset then len else b.len - offset)
  }

  /** From offset inside fragment s on. */
  function TakeFrom(src: seq<BioVec>, s: nat, offset: nat, len: nat): seq<BioVec>
    requires s < |src| ==> offset <= src[s].len
    decreases |src| - s
  {
    if s >= |src| then []
    else if len <= src[s].len - offset then [PartOf(src[s], offset, len)]
    else [PartOf(src[s], offset, len)] + TakeFrom(src, s + 1, 0, len - (src[s].len - offset))
  }

  /** From offset after the start of fragment s on. */
  function ExtractFrom(src: seq<BioVec>, s: nat, offset: nat, len: nat): seq<BioVec>
    decreases |src| - s
  {
    if len == 0 || s >= |src| then []
    else if offset >= src[s].len then ExtractFrom(src, s + 1, offset - src[s].len, len)
    else TakeFrom(src, s, offset, len)
  }

  function Extract(src: seq<BioVec>, offset: nat, len: nat): seq<BioVec> {
    ExtractFrom(src, 0, offset, len)
  }

  lemma DenotesFirst(src: seq<BioVec>)
    requires src != []
    ensures Denotes(src) == Range(Addr(src[0]), src[0].len) + Denotes(src[1..])
  {
    assert src == [src[0]] + src[1..];
    DenotesConcat([src[0]], src[1..]);
    DenotesAppend([], src[0]);
    assert [] + [src[0]] == [src[0]];
  }

  lemma DenotesOne(b: BioVec)
    ensures Denotes([b]) == Range(Addr(b), b.len)
  {
    DenotesAppend([], b);
    assert [] + [b] == [b];
  }

  lemma RangePart(a: nat, len: nat, rest: seq<nat>, offset: nat, n: nat)
    requires offset + n <= len
    ensures (Range(a, len) + rest)[offset..offset + n] == Range(a + offset, n)
  {
    var all := Range(a, len) + rest;
    var part := all[offset..offset + n];
    forall k | 0 <= k < n ensures part[k] == a + offset + k { assert part[k] == all[offset + k]; }
    assert part == Range(a + offset, n);
  }

  lemma TakePart(first: BioVec, offset: nat, len: nat, rest: seq<nat>)
    requires offset <= first.len
    ensures var b := PartOf(first, offset, len);
            Denotes([b]) == (Range(Addr(first), first.len) + rest)[offset..offset + b.len]
  {
    var b := PartOf(first, offset, len);
    DenotesOne(b);
    RangePart(Addr(first), first.len, rest, offset, b.len);
  }

  lemma {:induction false} TakeInPages(src: seq<BioVec>, s: nat, offset: nat, len: nat)
    requires s < |src| && offset <= src[s].len && InPages(src)
    ensures InPages(TakeFrom(src, s, offset, len)) && |TakeFrom(src, s, offset, len)| <= |src| - s
    decreases |src| - s
  {
    if len > src[s].len - offset && s + 1 < |src| {
      TakeInPages(src, s + 1, 0, len - (src[s].len - offset));
    }
  }

  lemma {:induction false} TakeDenotes(src: seq<BioVec>, s: nat, offset: nat, len: nat)
    requires s < |src| && offset <= src[s].len && offset + len <= |Denotes(src[s..])|
    ensures Denotes(TakeFrom(src, s, offset, len)) == Denotes(src[s..])[offset..offset + len]
    decreases |src| - s
  {
    DenotesFirst(src[s..]);
    assert src[s..][1..] == src[s + 1..];
    var first, frag := src[s], src[s].len - offset;
    var rest := Denotes(src[s + 1..]);
    TakePart(first, offset, len, rest);
    if len > frag {
      MoreBytes(src, s + 1);
      TakeDenotes(src, s + 1, 0, len - frag);
      var b, t := PartOf(first, offset, len), TakeFrom(src, s + 1, 0, len - frag);
      DenotesConcat([b], t);
      Glue(Range(Addr(first), first.len), rest, offset, len, Denotes([b]), Denotes(t));
    }
  }

  lemma Glue(a: seq<nat>, b: seq<nat>, offset: nat, len: nat, x: seq<nat>, y: seq<nat>)
    requires offset <= |a| && |a| <= offset + len <= |a| + |b|
    requires x == (a + b)[offset..offset + (|a| - offset)] && y == b[0..0 + (offset + len - |a|)]
    ensures x + y == (a + b)[offset..offset + len]
  {
  }

  lemma {:induction false} ExtractFromDenotes(src: seq<BioVec>, s: nat, offset: nat, len: nat)
    requires s <= |src| && offset + len <= |Denotes(src[s..])| && InPages(src)
    ensures var r := ExtractFrom(src, s, offset, len);
            Denotes(r) == Denotes(src[s..])[offset..offset + len] && InPages(r) && |r| <= |src| - s
    decreases |src| - s
  {
    if len > 0 && s < |src| {
      if offset >= src[s].len {
        DenotesFirst(src[s..]);
        assert src[s..][1..] == src[s + 1..];
        ExtractFromDenotes(src, s + 1, offset - src[s].len, len);
        SkipPart(Range(Addr(src[s]), src[s].len), Denotes(src[s + 1..]), offset, len);
      } else {
        TakeDenotes(src, s, offset, len);
        TakeInPages(src, s, offset, len);
      }
    }
  }

  lemma SkipPart(a: seq<nat>, b: seq<nat>, offset: nat, len: nat)
    requires |a| <= offset && offset + len <= |a| + |b|
    ensures (a + b)[offset..offset + len] == b[offset - |a|..offset - |a| + len]
  {
  }

  /** The extracted fragments denote exactly the requested bytes, in pages, with no more fragments than the source. */
  lemma ExtractDenotes(src: seq<BioVec>, offset: nat, len: nat)
    requires offset + len <= |Denotes(src)| && InPages(src)
    ensures Denotes(Extract(src, offset, len)) == Denotes(src)[offset..offset + len]
    ensures InPages(Extract(src, offset, len))
    ensures |Extract(src, offset, len)| <= |src|
  {
    assert src[0..] == src;
    ExtractFromDenotes(src, 0, offset, len);
  }

  /** The loop that skips initial fragments. */
  method SkipFrags(src: seq<BioVec>, offset: nat, len: nat) returns (s: nat, off: nat)
    requires offset + len <= |Denotes(src)| && len > 0
    ensures s < |src| && off < src[s].len && Extract(src, offset, len) == TakeFrom(src, s, off, len)
    ensures Off(Frags(src), s) + off == offset
  {
    s, off := 0, offset;
    ghost var frags := Frags(src);
    MoreFrags(frags, s, off, offset);
    while off >= src[s].len
      invariant s < |src| && ExtractFrom(src, s, off, len) == Extract(src, offset, len)
      invariant Off(frags, s) + off == offset
      decreases |src| - s
    {
      off := off - src[s].len;
      s := s + 1;
      MoreFrags(frags, s, off, offset);
    }
  }

  lemma MoreBytes(src: seq<BioVec>, s: nat)
    requires s <= |src|
    ensures |Denotes(src[s..])| > 0 ==> s < |src|
  {
  }

  /** One turn of the loop: the next entry of all, and what is left to take after it. */
  lemma FillStep(all: seq<BioVec>, k: nat, src: seq<BioVec>, s: nat, off: nat, left: nat)
    requires s < |src| && off <= src[s].len && k <= |all| && all[k..] == TakeFrom(src, s, off, left)
    ensures k < |all| && all[k] == PartOf(src[s], off, left)
    ensures if left <= src[s].len - off then k + 1 == |all|
            else all[k + 1..] == TakeFrom(src, s + 1, 0, left - (src[s].len - off))
  {
    assert all[k..][0] == all[k] && all[k..][1..] == all[k + 1..];
  }

  /** lnet_extract_kiov: how many entries of dst it filled. */
  method ExtractKiov(dst: array<BioVec>, src: seq<BioVec>, offset: nat, len: nat) returns (niov: nat)
    requires offset + len <= |Denotes(src)| && |Extract(src, offset, len)| <= dst.Length
    modifies dst
    ensures niov <= dst.Length && dst[..niov] == Extract(src, offset, len)
    ensures forall j :: niov <= j < dst.Length ==> dst[j] == old(dst[j])
  {
    niov := 0;
    if len == 0 { return; }
    ghost var all, frags := Extract(src, offset, len), Frags(src);
    var s: nat, off: nat := SkipFrags(src, offset, len);
    var left: nat := len;
    while true
      invariant s < |src| && off <= src[s].len && left > 0 && Off(frags, s) + off + left == offset + len
      invariant niov <= |all| && all[niov..] == TakeFrom(src, s, off, left)
      invariant forall j :: 0 <= j < niov ==> dst[j] == all[j]
      invariant forall j :: niov <= j < dst.Length ==> dst[j] == old(dst[j])
      decreases |src| - s
    {
      FillStep(all, niov, src, s, off, left);
      var frag := src[s].len - off;
      dst[niov] := PartOf(src[s], off, left);
      niov := niov + 1;
      if left <= frag { return; }
      left, off, s := left - frag, 0, s + 1;
      MoreFrags(frags, s, off, offset + len - left);
    }
  }

  /** What the caller of lnet_extract_kiov gets. */
  method ExtractRange(dst: array<BioVec>, src: seq<BioVec>, offset: nat, len: nat) returns (niov: nat)
    requires offset + len <= |Denotes(src)| && InPages(src) && dst.Length >= |src|
    modifies dst
    ensures niov <= |src| && Denotes(dst[..niov]) == Denotes(src)[offset..offset + len] && InPages(dst[..niov])
  {
    ExtractDenotes(src, offset, len);
    niov := ExtractKiov(dst, src, offset, len);
  }
}
