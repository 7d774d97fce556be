/**
  The scatter/gather copies of lib-move.c.  Memory is one byte array; a kvec is a range of addresses and a bio_vec a
  range inside a page, which kmap places at a fixed address.  A fragment list stands for the sequence of the
  addresses of its bytes, and a copy is specified on those sequences.
 */
module IovCopy {
  import opened Common

  type byte = x: int | 0 <= x < 256

  datatype Frag = Frag(base: nat, len: nat)                    // struct kvec
  datatype BioVec = BioVec(page: nat, offset: nat, len: nat)   // struct bio_vec

  /** kmap(bv_page) + bv_offset */
  function Addr(b: BioVec): nat {
    b.page * PAGE_SIZE + b.offset
  }

  function Frags(kiov: seq<BioVec>): (r: seq<Frag>)
    ensures |r| == |kiov| && forall i :: 0 <= i < |kiov| ==> r[i] == Frag(Addr(kiov[i]), kiov[i].len)
  {
    seq(|kiov|, i requires 0 <= i < |kiov| => Frag(Addr(kiov[i]), kiov[i].len))
  }

  /** n addresses from a on. */
  function Range(a: nat, n: nat): (r: seq<nat>)
    ensures |r| == n && forall i :: 0 <= i < n ==> r[i] == a + i
  {
    seq(n, i requires 0 <= i => a + i)
  }

  /** The addresses of a fragment list, in order. */
  function Flat(frags: seq<Frag>): seq<nat> {
    if frags == [] then []
    else var n := |frags| - 1; Flat(frags[..n]) + Range(frags[n].base, frags[n].len)
  }

  /** Where fragment i begins. */
  function Off(frags: seq<Frag>, i: nat): nat
    requires i <= |frags|
  {
    if i == 0 then 0 else Off(frags, i - 1) + frags[i - 1].len
  }

  lemma {:induction false} OffIsLength(frags: seq<Frag>, i: nat)
    requires i <= |frags|
    ensures |Flat(frags[..i])| == Off(frags, i)
  {
    if i > 0 {
      OffIsLength(frags, i - 1);
      assert frags[..i][..i - 1] == frags[..i - 1];
    }
  }

  lemma {:induction false} FlatPrefix(frags: seq<Frag>, i: nat)
    requires i <= |frags|
    ensures Flat(frags[..i]) <= Flat(frags)
  {
    if i == |frags| {
      assert frags[..i] == frags;
    } else {
      var front := frags[..|frags| - 1];
      FlatPrefix(front, i);
      assert front[..i] == frags[..i];
    }
  }

  lemma FlatStep(frags: seq<Frag>, i: nat)
    requires i < |frags|
    ensures Off(frags, i + 1) == Off(frags, i) + frags[i].len <= |Flat(frags)|
    ensures Flat(frags)[Off(frags, i)..Off(frags, i + 1)] == Range(frags[i].base, frags[i].len)
  {
    FlatPrefix(frags, i + 1);
    OffIsLength(frags, i);
    OffIsLength(frags, i + 1);
    var to := frags[..i + 1];
    assert to[..i] == frags[..i] && to[i] == frags[i];
    assert Flat(to) == Flat(frags[..i]) + Range(frags[i].base, frags[i].len);
    assert Flat(frags)[..|Flat(to)|] == Flat(to);
  }

  lemma Slice(f: seq<nat>, o: nat, e: nat, x: nat, n: nat)
    requires o <= e <= |f| && o + x + n <= e
    ensures f[o + x..o + x + n] == f[o..e][x..x + n]
  {
    var a, b := f[o + x..o + x + n], f[o..e][x..x + n];
    forall k | 0 <= k < n ensures a[k] == b[k] { assert b[k] == f[o..e][x + k]; }
  }

  /** Inside fragment i addresses run on from its base. */
  lemma FlatInside(frags: seq<Frag>, i: nat, x: nat, n: nat)
    requires i < |frags| && x + n <= frags[i].len
    ensures Off(frags, i + 1) == Off(frags, i) + frags[i].len <= |Flat(frags)|
    ensures Flat(frags)[Off(frags, i) + x..Off(frags, i) + x + n] == Range(frags[i].base + x, n)
  {
    FlatStep(frags, i);
    Slice(Flat(frags), Off(frags, i), Off(frags, i + 1), x, n);
    assert Range(frags[i].base, frags[i].len)[x..x + n] == Range(frags[i].base + x, n);
  }

  // ----- copying bytes -----

  predicate InBounds(addrs: seq<nat>, n: nat) {
    forall k :: 0 <= k < |addrs| ==> addrs[k] < n
  }

  predicate Apart(a: seq<nat>, b: seq<nat>) {
    forall i, j :: 0 <= i < |a| && 0 <= j < |b| ==> a[i] != b[j]
  }

  /** Every destination byte is its source byte, and nothing else changed. */
  ghost predicate Copied(m: seq<byte>, r: seq<byte>, da: seq<nat>, sa: seq<nat>)
    requires |da| == |sa| && InBounds(da, |m|) && InBounds(sa, |m|)
  {
    && |r| == |m|
    && (forall k :: 0 <= k < |da| ==> r[da[k]] == m[sa[k]])
    && (forall a :: 0 <= a < |m| && a !in da ==> r[a] == m[a])
  }

  predicate Among(da: seq<nat>, k: nat, a: int)
    requires k <= |da|
  {
    exists j :: 0 <= j < k && da[j] == a
  }

  /** The same when only the first k bytes are copied. */
  ghost predicate Done(m: seq<byte>, r: seq<byte>, da: seq<nat>, sa: seq<nat>, k: nat)
    requires |da| == |sa| && InBounds(da, |m|) && InBounds(sa, |m|)
  {
    && |r| == |m| && k <= |da|
    && (forall j :: 0 <= j < k ==> r[da[j]] == m[sa[j]])
    && (forall a :: 0 <= a < |m| && !Among(da, k, a) ==> r[a] == m[a])
  }

  /** The addresses of bytes offset..offset+nob of a fragment list. */
  function Part(frags: seq<Frag>, offset: nat, nob: nat): (r: seq<nat>)
    requires offset + nob <= |Flat(frags)|
    ensures |r| == nob
  {
    Flat(frags)[offset..offset + nob]
  }

  predicate Disjoint(size: nat, da: seq<nat>, sa: seq<nat>) {
    InBounds(da, size) && InBounds(sa, size) && NoDup(da) && Apart(da, sa)
  }

  /** The preconditions of a copy: both lists are long enough and inside memory, no destination byte occurs twice,
      and source and destination are disjoint. */
  predicate Copyable(size: nat, diov: seq<Frag>, doffset: nat, siov: seq<Frag>, soffset: nat, nob: nat) {
    && doffset + nob <= |Flat(diov)| && soffset + nob <= |Flat(siov)|
    && Disjoint(size, Part(diov, doffset, nob), Part(siov, soffset, nob))
  }

  predicate Inside(a: int, d: nat, n: nat) {
    d <= a < d + n
  }

  /** memcpy of ranges that do not overlap */
  method MemCpy(mem: array<byte>, d: nat, s: nat, n: nat)
    requires n > 0 ==> d + n <= mem.Length && s + n <= mem.Length && (d + n <= s || s + n <= d)
    modifies mem
    ensures forall a :: 0 <= a < mem.Length ==> mem[a] == if Inside(a, d, n) then old(mem[s + (a - d)]) else old(mem[a])
  {
    var k := 0;
    while k < n
      invariant k <= n
      invariant forall a :: 0 <= a < mem.Length ==>
                  mem[a] == if Inside(a, d, k) then old(mem[s + (a - d)]) else old(mem[a])
    {
      mem[d + k] := mem[s + k];
      k := k + 1;
    }
  }

  // ----- cursors -----

  /** Fragment i, offset off into it, is byte pos of the list. */
  ghost predicate At(frags: seq<Frag>, i: nat, off: nat, pos: nat) {
    i <= |frags| && Off(frags, i) + off == pos && (i < |frags| ==> off <= frags[i].len)
  }

  /** While bytes are left there is a fragment. */
  lemma MoreFrags(frags: seq<Frag>, i: nat, off: nat, pos: nat)
    requires i <= |frags| && Off(frags, i) + off == pos && pos < |Flat(frags)|
    ensures i < |frags|
  {
    OffIsLength(frags, |frags|);
    assert frags[..|frags|] == frags;
  }

  /** A position: a fragment and an offset into it. */
  datatype Cursor = Cursor(i: nat, off: nat)

  /** The same into a list of pages, with the mapped address if the page is mapped. */
  datatype KCursor = KCursor(i: nat, off: nat, addr: Option<nat>)

  ghost predicate KAt(kiov: seq<BioVec>, c: KCursor, pos: nat) {
    && At(Frags(kiov), c.i, c.off, pos)
    && (c.addr.Some? ==> c.i < |kiov| && c.addr.value == Addr(kiov[c.i]) + c.off)
  }

  /** The loop that skips whole fragments before the offset. */
  method Skip(frags: seq<Frag>, offset: nat) returns (c: Cursor)
    requires offset < |Flat(frags)|
    ensures At(frags, c.i, c.off, offset) && c.i < |frags| && c.off < frags[c.i].len
  {
    var i: nat, off: nat := 0, offset;
    MoreFrags(frags, i, off, offset);
    while off >= frags[i].len
      invariant i < |frags| && Off(frags, i) + off == offset
      decreases |frags| - i
    {
      FlatInside(frags, i, 0, 0);
      off := off - frags[i].len;
      i := i + 1;
      MoreFrags(frags, i, off, offset);
    }
    c := Cursor(i, off);
  }

  method SkipKiov(kiov: seq<BioVec>, offset: nat) returns (c: KCursor)
    requires offset < |Flat(Frags(kiov))|
    ensures KAt(kiov, c, offset) && c.i < |kiov| && c.off < kiov[c.i].len && c.addr.None?
  {
    var i: nat, off: nat := 0, offset;
    ghost var frags := Frags(kiov);
    MoreFrags(frags, i, off, offset);
    while off >= kiov[i].len
      invariant i < |kiov| && Off(frags, i) + off == offset
      decreases |kiov| - i
    {
      FlatInside(frags, i, 0, 0);
      off := off - kiov[i].len;
      i := i + 1;
      MoreFrags(frags, i, off, offset);
    }
    c := KCursor(i, off, None);
  }

  /** One step of a cursor: within its fragment, or to the next.  The bytes it passes are a range. */
  lemma Advance(frags: seq<Frag>, i: nat, off: nat, offset: nat, nob: nat, done: nat, n: nat)
    requires offset + nob <= |Flat(frags)| && done + n <= nob
    requires At(frags, i, off, offset + done) && i < |frags| && off + n <= frags[i].len
    ensures if frags[i].len > off + n then At(frags, i, off + n, offset + done + n)
              else At(frags, i + 1, 0, offset + done + n)
    ensures Part(frags, offset, nob)[done..done + n] == Range(frags[i].base + off, n)
  {
    FlatInside(frags, i, off, n);
    Slice(Flat(frags), offset, offset + nob, done, n);
  }

  /** (char *)iov_base + offset */
  function Here(frags: seq<Frag>, c: Cursor): nat
    requires c.i < |frags|
  {
    frags[c.i].base + c.off
  }

  /** The end of a loop iteration: stay in the fragment or go to the next. */
  function Next(frags: seq<Frag>, c: Cursor, n: nat): Cursor
    requires c.i < |frags|
  {
    if frags[c.i].len > c.off + n then Cursor(c.i, c.off + n) else Cursor(c.i + 1, 0)
  }

  /** Map the page unless it is mapped. */
  function Map(kiov: seq<BioVec>, c: KCursor): (r: KCursor)
    requires c.i < |kiov|
    ensures r.addr.Some? && r.i == c.i && r.off == c.off
  {
    if c.addr.None? then c.(addr := Some(Addr(kiov[c.i]) + c.off)) else c
  }

  function NextK(kiov: seq<BioVec>, c: KCursor, n: nat): KCursor
    requires c.i < |kiov| && c.addr.Some?
  {
    if kiov[c.i].len > c.off + n then KCursor(c.i, c.off + n, Some(c.addr.value + n)) else KCursor(c.i + 1, 0, None)
  }

  lemma NextMeans(frags: seq<Frag>, c: Cursor, offset: nat, nob: nat, done: nat, n: nat)
    requires offset + nob <= |Flat(frags)| && done + n <= nob
    requires At(frags, c.i, c.off, offset + done) && c.i < |frags| && c.off + n <= frags[c.i].len
    ensures var c' := Next(frags, c, n);
            At(frags, c'.i, c'.off, offset + done + n) &&
              (c'.i == c.i + 1 || (c'.i == c.i && n < frags[c.i].len - c.off))
    ensures Part(frags, offset, nob)[done..done + n] == Range(Here(frags, c), n)
  {
    Advance(frags, c.i, c.off, offset, nob, done, n);
  }

  lemma NextKMeans(kiov: seq<BioVec>, c: KCursor, offset: nat, nob: nat, done: nat, n: nat)
    requires offset + nob <= |Flat(Frags(kiov))| && done + n <= nob
    requires KAt(kiov, c, offset + done) && c.i < |kiov| && c.off + n <= kiov[c.i].len
    ensures var m := Map(kiov, c);
            var c' := NextK(kiov, m, n);
            && KAt(kiov, c', offset + done + n) && (c'.i == c.i + 1 || (c'.i == c.i && n < kiov[c.i].len - c.off))
            && Part(Frags(kiov), offset, nob)[done..done + n] == Range(m.addr.value, n)
  {
    Advance(Frags(kiov), c.i, c.off, offset, nob, done, n);
  }

  function Min3(a: nat, b: nat, c: nat): (r: nat)
    ensures r <= a && r <= b && r <= c && (r == a || r == b || r == c)
  {
    if a <= b && a <= c then a else if b <= c then b else c
  }

  /** A piece of da or sa that is a range lies in memory, and the two ranges do not meet. */
  lemma ChunkApart(size: nat, da: seq<nat>, sa: seq<nat>, done: nat, daddr: nat, saddr: nat, n: nat)
    requires |da| == |sa| && Disjoint(size, da, sa) && done + n <= |da| && n > 0
    requires da[done..done + n] == Range(daddr, n) && sa[done..done + n] == Range(saddr, n)
    ensures forall k :: done <= k < done + n ==> da[k] == daddr + k - done && sa[k] == saddr + k - done
    ensures daddr + n <= size && saddr + n <= size && (daddr + n <= saddr || saddr + n <= daddr)
  {
    forall k | done <= k < done + n ensures da[k] == daddr + k - done && sa[k] == saddr + k - done {
      assert da[k] == da[done..done + n][k - done] && sa[k] == sa[done..done + n][k - done];
    }
    assert da[done + n - 1] == daddr + n - 1 && sa[done + n - 1] == saddr + n - 1;
    var x := if saddr <= daddr < saddr + n then daddr - saddr else 0;
    var y := if daddr <= saddr < daddr + n then saddr - daddr else 0;
    assert da[done] != sa[done + x] && sa[done] != da[done + y];
  }

  lemma EarlierOutside(da: seq<nat>, done: nat, daddr: nat, n: nat, j: nat)
    requires NoDup(da) && done + n <= |da| && j < done
    requires forall k :: done <= k < done + n ==> da[k] == daddr + k - done
    ensures !Inside(da[j], daddr, n)
  {
    var x := if Inside(da[j], daddr, n) then da[j] - daddr else 0;
    assert n > 0 ==> da[j] != da[done + x];
  }

  lemma LaterAmong(da: seq<nat>, done: nat, daddr: nat, n: nat, a: int)
    requires done + n <= |da| && Inside(a, daddr, n)
    requires forall k :: done <= k < done + n ==> da[k] == daddr + k - done
    ensures Among(da, done + n, a)
  {
    assert da[done + (a - daddr)] == a;
  }

  lemma ChunkDone(m: seq<byte>, r: seq<byte>, r': seq<byte>, da: seq<nat>, sa: seq<nat>, done: nat,
                  daddr: nat, saddr: nat, n: nat)
    requires |da| == |sa| && Disjoint(|m|, da, sa) && done + n <= |da| && Done(m, r, da, sa, done) && |r'| == |r|
    requires forall k :: done <= k < done + n ==> da[k] == daddr + k - done && sa[k] == saddr + k - done
    requires daddr + n <= |m| && saddr + n <= |m|
    requires forall a {:trigger r'[a]} :: 0 <= a < |m| && Inside(a, daddr, n) ==> r'[a] == r[saddr + (a - daddr)]
    requires forall a {:trigger r'[a]} :: 0 <= a < |m| && !Inside(a, daddr, n) ==> r'[a] == r[a]
    ensures Done(m, r', da, sa, done + n)
  {
    forall j | 0 <= j < done + n ensures r'[da[j]] == m[sa[j]] {
      if j < done {
        EarlierOutside(da, done, daddr, n, j);
      } else {
        assert r'[da[j]] == r[sa[j]];
        assert !Among(da, done, sa[j]);
      }
    }
    forall a | 0 <= a < |m| && !Among(da, done + n, a) ensures r'[a] == m[a] {
      if Inside(a, daddr, n) { LaterAmong(da, done, daddr, n, a); }
      assert !Among(da, done, a);
    }
  }

  /** Copy a chunk between the ranges the two cursors are in. */
  method CopyChunk(mem: array<byte>, ghost m: seq<byte>, ghost da: seq<nat>, ghost sa: seq<nat>, ghost done: nat,
                   daddr: nat, saddr: nat, n: nat)
    requires |m| == mem.Length && |da| == |sa| && Disjoint(|m|, da, sa) && done + n <= |da|
    requires Done(m, mem[..], da, sa, done)
    requires da[done..done + n] == Range(daddr, n) && sa[done..done + n] == Range(saddr, n)
    modifies mem
    ensures Done(m, mem[..], da, sa, done + n)
  {
    if n == 0 { return; }
    ghost var r := mem[..];
    ChunkApart(|m|, da, sa, done, daddr, saddr, n);
    MemCpy(mem, daddr, saddr, n);
    ChunkDone(m, r, mem[..], da, sa, done, daddr, saddr, n);
  }

  /** lnet_copy_iov2iov */
  method CopyIov2Iov(mem: array<byte>, diov: seq<Frag>, doffset: nat, siov: seq<Frag>, soffset: nat, nob: nat)
    requires Copyable(mem.Length, diov, doffset, siov, soffset, nob)
    modifies mem
    ensures Copied(old(mem[..]), mem[..], Part(diov, doffset, nob), Part(siov, soffset, nob))
  {
    if nob == 0 { return; }
    ghost var m, da, sa := mem[..], Part(diov, doffset, nob), Part(siov, soffset, nob);
    var d := Skip(diov, doffset);
    var s := Skip(siov, soffset);
    var left := nob;
    ghost var done: nat := 0;
    while left > 0
      invariant 0 <= left <= nob && done == nob - left
      invariant At(diov, d.i, d.off, doffset + done) && At(siov, s.i, s.off, soffset + done)
      invariant Done(m, mem[..], da, sa, done)
      decreases left + (|diov| - d.i) + (|siov| - s.i)
    {
      MoreFrags(diov, d.i, d.off, doffset + done);
      MoreFrags(siov, s.i, s.off, soffset + done);
      var n := Min3(diov[d.i].len - d.off, siov[s.i].len - s.off, left);
      NextMeans(diov, d, doffset, nob, done, n);
      NextMeans(siov, s, soffset, nob, done, n);
      CopyChunk(mem, m, da, sa, done, Here(diov, d), Here(siov, s), n);
      left := left - n;
      done := done + n;
      d := Next(diov, d, n);
      s := Next(siov, s, n);
    }
  }

  /** lnet_copy_kiov2kiov */
  method CopyKiov2Kiov(mem: array<byte>, diov: seq<BioVec>, doffset: nat, siov: seq<BioVec>, soffset: nat, nob: nat)
    requires Copyable(mem.Length, Frags(diov), doffset, Frags(siov), soffset, nob)
    modifies mem
    ensures Copied(old(mem[..]), mem[..], Part(Frags(diov), doffset, nob), Part(Frags(siov), soffset, nob))
  {
    if nob == 0 { return; }
    ghost var m, da, sa := mem[..], Part(Frags(diov), doffset, nob), Part(Frags(siov), soffset, nob);
    var d := SkipKiov(diov, doffset);
    var s := SkipKiov(siov, soffset);
    var left := nob;
    ghost var done: nat := 0;
    while left > 0
      invariant 0 <= left <= nob && done == nob - left
      invariant KAt(diov, d, doffset + done) && KAt(siov, s, soffset + done)
      invariant Done(m, mem[..], da, sa, done)
      decreases left + (|diov| - d.i) + (|siov| - s.i)
    {
      MoreFrags(Frags(diov), d.i, d.off, doffset + done);
      MoreFrags(Frags(siov), s.i, s.off, soffset + done);
      var n := Min3(diov[d.i].len - d.off, siov[s.i].len - s.off, left);
      NextKMeans(diov, d, doffset, nob, done, n);
      NextKMeans(siov, s, soffset, nob, done, n);
      d := Map(diov, d);
      s := Map(siov, s);
      CopyChunk(mem, m, da, sa, done, d.addr.value, s.addr.value, n);
      left := left - n;
      done := done + n;
      d := NextK(diov, d, n);
      s := NextK(siov, s, n);
    }
  }

  /** lnet_copy_kiov2iov */
  method CopyKiov2Iov(mem: array<byte>, iov: seq<Frag>, iovoffset: nat, kiov: seq<BioVec>, kiovoffset: nat, nob: nat)
    requires Copyable(mem.Length, iov, iovoffset, Frags(kiov), kiovoffset, nob)
    modifies mem
    ensures Copied(old(mem[..]), mem[..], Part(iov, iovoffset, nob), Part(Frags(kiov), kiovoffset, nob))
  {
    if nob == 0 { return; }
    ghost var m, da, sa := mem[..], Part(iov, iovoffset, nob), Part(Frags(kiov), kiovoffset, nob);
    var d := Skip(iov, iovoffset);
    var s := SkipKiov(kiov, kiovoffset);
    var left := nob;
    ghost var done: nat := 0;
    while left > 0
      invariant 0 <= left <= nob && done == nob - left
      invariant At(iov, d.i, d.off, iovoffset + done) && KAt(kiov, s, kiovoffset + done)
      invariant Done(m, mem[..], da, sa, done)
      decreases left + (|iov| - d.i) + (|kiov| - s.i)
    {
      MoreFrags(iov, d.i, d.off, iovoffset + done);
      MoreFrags(Frags(kiov), s.i, s.off, kiovoffset + done);
      var n := Min3(iov[d.i].len - d.off, kiov[s.i].len - s.off, left);
      NextMeans(iov, d, iovoffset, nob, done, n);
      NextKMeans(kiov, s, kiovoffset, nob, done, n);
      s := Map(kiov, s);
      CopyChunk(mem, m, da, sa, done, Here(iov, d), s.addr.value, n);
      left := left - n;
      done := done + n;
      d := Next(iov, d, n);
      s := NextK(kiov, s, n);
    }
  }

  /** lnet_copy_iov2kiov */
  method CopyIov2Kiov(mem: array<byte>, kiov: seq<BioVec>, kiovoffset: nat, iov: seq<Frag>, iovoffset: nat, nob: nat)
    requires Copyable(mem.Length, Frags(kiov), kiovoffset, iov, iovoffset, nob)
    modifies mem
    ensures Copied(old(mem[..]), mem[..], Part(Frags(kiov), kiovoffset, nob), Part(iov, iovoffset, nob))
  {
    if nob == 0 { return; }
    ghost var m, da, sa := mem[..], Part(Frags(kiov), kiovoffset, nob), Part(iov, iovoffset, nob);
    var d := SkipKiov(kiov, kiovoffset);
    var s := Skip(iov, iovoffset);
    var left := nob;
    ghost var done: nat := 0;
    while left > 0
      invariant 0 <= left <= nob && done == nob - left
      invariant KAt(kiov, d, kiovoffset + done) && At(iov, s.i, s.off, iovoffset + done)
      invariant Done(m, mem[..], da, sa, done)
      decreases left + (|kiov| - d.i) + (|iov| - s.i)
    {
      MoreFrags(Frags(kiov), d.i, d.off, kiovoffset + done);
      MoreFrags(iov, s.i, s.off, iovoffset + done);
      var n := Min3(kiov[d.i].len - d.off, iov[s.i].len - s.off, left);
      NextKMeans(kiov, d, kiovoffset, nob, done, n);
      NextMeans(iov, s, iovoffset, nob, done, n);
      d := Map(kiov, d);
      CopyChunk(mem, m, da, sa, done, d.addr.value, Here(iov, s), n);
      left := left - n;
      done := done + n;
      d := NextK(kiov, d, n);
      s := Next(iov, s, n);
    }
  }
}
