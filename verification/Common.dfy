/** What several parts of the model share. */
module Common {
  datatype Option<+T> = None | Some(value: T)

  const U32 := 0x1_0000_0000
  const PAGE_SIZE := 4096

  /** LNET_MD_THRESH_INF */
  const THRESH_INF := -1

  /** The threshold of an MD after one more operation. */
  function OneLess(threshold: int): int {
    if threshold == THRESH_INF then THRESH_INF else threshold - 1
  }

  /** lnet_md_exhausted; full: max_size no longer fits behind the offset. */
  predicate UsedUp(threshold: int, full: bool) {
    threshold == 0 || full
  }

  /** No element occurs twice. */
  predicate NoDup(s: seq<nat>) {
    forall i, j :: 0 <= i < j < |s| ==> s[i] != s[j]
  }

  lemma NoDupCons(x: nat, s: seq<nat>)
    requires NoDup(s) && x !in s
    ensures NoDup([x] + s)
  {
    forall i, j | 0 <= i < j < |[x] + s| ensures ([x] + s)[i] != ([x] + s)[j] {
      assert ([x] + s)[j] == s[j - 1];
      assert i > 0 ==> ([x] + s)[i] == s[i - 1];
    }
  }

  /** list_del: s without the first x on it. */
  function Remove(s: seq<nat>, x: nat): seq<nat> {
    if s == [] then [] else if s[0] == x then s[1..] else [s[0]] + Remove(s[1..], x)
  }

  lemma {:induction false} RemoveKeeps(s: seq<nat>, x: nat)
    requires NoDup(s)
    ensures NoDup(Remove(s, x)) && |Remove(s, x)| == |s| - (if x in s then 1 else 0)
    ensures forall y :: y in Remove(s, x) <==> y in s && y != x
    ensures x !in s ==> Remove(s, x) == s
  {
    if s != [] {
      assert s == [s[0]] + s[1..];
      RemoveKeeps(s[1..], x);
      assert s[0] !in s[1..];
      if s[0] != x { NoDupCons(s[0], Remove(s[1..], x)); }
    }
  }

  lemma SubsetCard(a: set<nat>, b: set<nat>)
    requires a <= b
    ensures |a| <= |b| && (a != b ==> |a| < |b|)
  {
    assert b == a + (b - a);
    if a != b { assert b - a != {}; }
  }
}
