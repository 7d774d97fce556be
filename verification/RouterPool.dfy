/**
  A router buffer pool (lib-move.c, router.c) with routing on: posts take a buffer or block, returns hand the buffer
  on, put it back or discard it, and lnet_rtrpool_adjust_bufs changes the pool's size.  A step is a region under
  lnet_net_lock.  Growing the pool serves the blocked messages one by one and drops the lock for each of them, so
  its loop is one step an iteration; at most one thread at a time adjusts a pool.
 */
module RouterPool {
  import opened Common

  /** Where the adjusting thread is: outside, allocating so many buffers, or in its scheduling loop. */
  datatype Grow = Still | Allocating(n: nat, oldReq: int) | Scheduling

  /** bufs: rbp_bufs.  blocked: rbp_msgs.  held: the buffer of each message that has one. */
  datatype Pool = Pool(credits: int, nbuffers: int, req: int, bufs: seq<nat>, blocked: seq<nat>, held: map<nat, nat>,
                       grow: Grow)

  datatype Step =
    | Post(m: nat)               // lnet_post_routed_recv_locked, from the pool's credit on
    | Return(m: nat)             // lnet_return_rx_credits_locked, the pool's part
    | Resize(n: nat)             // lnet_rtrpool_adjust_bufs, enough buffers are there
    | GrowStart(n: nat)          // it needs more
    | GrowFail                   // out of memory
    | GrowAdd(extra: seq<nat>)   // the new buffers join the pool
    | GrowServe                  // one iteration of the scheduling loop
    | GrowEnd

  predicate Enabled(s: Pool, st: Step) {
    match st
    case Post(m) => m !in s.held && m !in s.blocked && (s.credits >= 1 ==> s.bufs != [])
    case Return(m) => m in s.held
    case Resize(n) => s.grow == Still && (n <= s.req || n <= s.nbuffers)
    case GrowStart(n) => s.grow == Still && n > s.req && n > s.nbuffers
    case GrowFail => s.grow.Allocating?
    case GrowAdd(extra) =>
      s.grow.Allocating? && |extra| == s.grow.n && NoDup(extra) &&
      (forall b :: b in extra ==> b !in s.bufs) && (forall m, b :: m in s.held && b in extra ==> s.held[m] != b)
    case GrowServe => s.grow == Scheduling && s.bufs != [] && s.blocked != []
    case GrowEnd => s.grow == Scheduling && (s.bufs == [] || s.blocked == [])
  }

  /** lnet_schedule_blocked_locked: the first blocked message gets the first free buffer. */
  function Serve(s: Pool): Pool
    requires s.bufs != []
  {
    if s.blocked == [] then s
    else s.(held := s.held[s.blocked[0] := s.bufs[0]], bufs := s.bufs[1..], blocked := s.blocked[1..])
  }

  function DoPost(s: Pool, m: nat): Pool
    requires Enabled(s, Post(m))
  {
    if s.credits - 1 < 0 then s.(credits := s.credits - 1, blocked := s.blocked + [m])
    else s.(credits := s.credits - 1, held := s.held[m := s.bufs[0]], bufs := s.bufs[1..])
  }

  /** The return before anyone is served. */
  function PutBack(s: Pool, m: nat): Pool
    requires m in s.held
  {
    s.(credits := s.credits + 1, bufs := [s.held[m]] + s.bufs, held := s.held - {m})
  }

  function DoReturn(s: Pool, m: nat): Pool
    requires m in s.held
  {
    if s.credits >= s.req then s.(nbuffers := s.nbuffers - 1, held := s.held - {m})
    else
      var s1 := PutBack(s, m);
      if s1.credits <= 0 then Serve(s1) else s1
  }

  function Apply(s: Pool, st: Step): Pool
    requires Enabled(s, st)
  {
    match st
    case Post(m) => DoPost(s, m)
    case Return(m) => DoReturn(s, m)
    case Resize(n) => s.(req := n)
    case GrowStart(n) => s.(req := n, grow := Allocating(n - s.nbuffers, s.req))
    case GrowFail => s.(req := s.grow.oldReq, grow := Still)
    case GrowAdd(extra) =>
      s.(bufs := s.bufs + extra, nbuffers := s.nbuffers + |extra|, credits := s.credits + |extra|, grow := Scheduling)
    case GrowServe => Serve(s)
    case GrowEnd => s.(grow := Still)
  }

  predicate Init(s: Pool) {
    && s.credits == s.nbuffers == s.req == |s.bufs| && NoDup(s.bufs) && s.blocked == [] && s.held == map[] &&
         s.grow == Still
  }

  predicate IsRun(steps: seq<Step>, states: seq<Pool>) {
    && |states| == |steps| + 1 && Init(states[0])
    && forall k :: 0 <= k < |steps| ==> Enabled(states[k], steps[k]) && states[k + 1] == Apply(states[k], steps[k])
  }

  // ----- invariants -----

  /** Each buffer is free or held by one message, and each message is blocked or holds one buffer. */
  predicate Owned(s: Pool) {
    && NoDup(s.bufs) && NoDup(s.blocked)
    && (forall m :: m in s.held ==> m !in s.blocked && s.held[m] !in s.bufs)
    && (forall m, n :: m in s.held && n in s.held && m != n ==> s.held[m] != s.held[n])
  }

  predicate Counted(s: Pool) {
    && s.credits == |s.bufs| - |s.blocked|
    && s.nbuffers == |s.bufs| + |s.held|
    && s.req >= 0
  }

  /** While the pool grows its requested size is what it will have; outside the loop nobody is blocked next to a free
      buffer. */
  predicate Sized(s: Pool) {
    match s.grow
    case Still => s.bufs == [] || s.blocked == []
    case Allocating(n, oldReq) => (s.bufs == [] || s.blocked == []) && s.req == s.nbuffers + n && n >= 1 && oldReq >= 0
    case Scheduling => s.req == s.nbuffers
  }

  predicate Inv(s: Pool) {
    Owned(s) && Counted(s) && Sized(s)
  }

  lemma ServeOwned(s: Pool)
    requires Owned(s) && s.bufs != []
    ensures Owned(Serve(s))
  {
    if s.blocked != [] {
      var m, b := s.blocked[0], s.bufs[0];
      assert forall x :: x in s.bufs[1..] ==> x in s.bufs && x != b;
      assert forall x :: x in s.blocked[1..] ==> x in s.blocked && x != m;
    }
  }

  lemma ServeCounted(s: Pool)
    requires Owned(s) && Counted(s) && s.bufs != []
    ensures Counted(Serve(s))
  {
    if s.blocked != [] { assert s.blocked[0] in s.blocked && s.blocked[0] !in s.held; }
  }

  lemma PostOwned(s: Pool, m: nat)
    requires Owned(s) && Enabled(s, Post(m))
    ensures Owned(DoPost(s, m))
  {
    if s.credits >= 1 {
      assert forall x :: x in s.bufs[1..] ==> x in s.bufs && x != s.bufs[0];
    }
  }

  lemma HeldLess(s: Pool, m: nat)
    requires m in s.held
    ensures |s.held - {m}| == |s.held| - 1
  {
    assert (s.held - {m}).Keys == s.held.Keys - {m};
    assert |(s.held - {m}).Keys| == |s.held - {m}| && |s.held.Keys| == |s.held|;
  }

  lemma PutBackOwned(s: Pool, m: nat)
    requires Owned(s) && Counted(s) && m in s.held
    ensures Owned(PutBack(s, m)) && Counted(PutBack(s, m))
  {
    HeldLess(s, m);
  }

  lemma ReturnInv(s: Pool, m: nat)
    requires Inv(s) && m in s.held
    ensures Inv(DoReturn(s, m))
  {
    HeldLess(s, m);
    if s.credits < s.req {
      PutBackOwned(s, m);
      ServeOwned(PutBack(s, m));
      ServeCounted(PutBack(s, m));
    }
  }

  lemma AddInv(s: Pool, extra: seq<nat>)
    requires Inv(s) && Enabled(s, GrowAdd(extra))
    ensures Inv(Apply(s, GrowAdd(extra)))
  {
    var all := s.bufs + extra;
    forall i, j | 0 <= i < j < |all| ensures all[i] != all[j] {
      if i < |s.bufs| <= j { assert all[j] in extra && all[i] in s.bufs; }
    }
  }

  lemma StepInv(s: Pool, st: Step)
    requires Inv(s) && Enabled(s, st)
    ensures Inv(Apply(s, st))
  {
    match st
    case Post(m) => PostOwned(s, m);
    case Return(m) => ReturnInv(s, m);
    case GrowAdd(extra) => AddInv(s, extra);
    case GrowServe => ServeOwned(s); ServeCounted(s);
    case _ =>
  }

  lemma {:induction false} RunInv(steps: seq<Step>, states: seq<Pool>, k: nat)
    requires IsRun(steps, states) && k <= |steps|
    ensures Inv(states[k])
  {
    if k > 0 {
      RunInv(steps, states, k - 1);
      StepTo(states[k - 1], steps[k - 1], states[k]);
    }
  }

  lemma StepTo(s: Pool, st: Step, s': Pool)
    requires Inv(s) && Enabled(s, st) && s' == Apply(s, st)
    ensures Inv(s')
  {
    StepInv(s, st);
  }

  // ----- theorems -----

  /** credits + holders is the number of buffers, through posts, returns, discards and growth.  Outside the growth
      loop the free buffers are the positive credits and the blocked messages the negative ones. */
  lemma PoolConserved(steps: seq<Step>, states: seq<Pool>, k: nat)
    requires IsRun(steps, states) && k <= |steps|
    ensures var s := states[k];
            && s.credits + |s.held| + |s.blocked| == s.nbuffers == |s.bufs| + |s.held|
            && (s.grow != Scheduling ==>
                  && |s.bufs| == (if s.credits > 0 then s.credits else 0)
                  && |s.blocked| == (if s.credits < 0 then -s.credits else 0))
  {
    RunInv(steps, states, k);
  }

  lemma DiscardUnblocked(s: Pool, m: nat)
    requires Inv(s) && m in s.held && s.credits >= s.req
    ensures s.blocked == []
  {
    HeldLess(s, m);
  }

  /** No buffer is discarded while a message is blocked, not even while the pool grows. */
  lemma NoDiscardWhileBlocked(steps: seq<Step>, states: seq<Pool>, k: nat)
    requires IsRun(steps, states) && k < |steps| && states[k].blocked != []
    ensures states[k + 1].nbuffers >= states[k].nbuffers
    ensures steps[k].Return? ==> states[k + 1].blocked == states[k].blocked[1..] || states[k].grow == Scheduling
  {
    RunInv(steps, states, k);
  }

  /** A return discards its buffer exactly if the free ones had already reached the requested number. */
  lemma DiscardIff(steps: seq<Step>, states: seq<Pool>, k: nat)
    requires IsRun(steps, states) && k < |steps| && steps[k].Return?
    ensures var s, s' := states[k], states[k + 1];
            && s'.nbuffers == s.nbuffers - (if s.credits >= s.req then 1 else 0) && s'.req == s.req
            && (s.credits >= s.req <==> s'.credits == s.credits) && s.credits <= s'.credits <= s.credits + 1
            && (s.credits >= s.req ==> s'.bufs == s.bufs && s.held[steps[k].m] !in s'.bufs && s'.blocked == [])
  {
    RunInv(steps, states, k);
    if states[k].credits >= states[k].req { DiscardUnblocked(states[k], steps[k].m); }
  }

  function Min(a: int, b: int): int {
    if a <= b then a else b
  }

  /** The size that returns alone bring the pool to: the requested one, or the present one if that is smaller, or the
      free buffers if there are more of them already. */
  function Settles(s: Pool): int {
    if s.credits >= s.req then s.credits else Min(s.req, s.nbuffers)
  }

  /** How far a lowered pool shrinks: once all buffers are back it has that size. */
  lemma {:induction false} ReturnsSettle(steps: seq<Step>, states: seq<Pool>, j: nat, k: nat)
    requires IsRun(steps, states) && j <= k <= |steps| && forall x :: j <= x < k ==> steps[x].Return?
    ensures Settles(states[k]) == Settles(states[j]) && states[k].req == states[j].req
    ensures states[k].held == map[] && states[k].blocked == [] ==> states[k].nbuffers == Settles(states[j])
    decreases k
  {
    RunInv(steps, states, k);
    if j < k {
      ReturnsSettle(steps, states, j, k - 1);
      RunInv(steps, states, k - 1);
      DiscardIff(steps, states, k - 1);
      HeldLess(states[k - 1], steps[k - 1].m);
    }
  }

  /** A pool asked for n buffers that it has, or for fewer than before, has n once all buffers are back, or what it had
      if that is fewer, or those that were free already if they are more. */
  lemma ResizeSettles(steps: seq<Step>, states: seq<Pool>, j: nat, k: nat)
    requires IsRun(steps, states) && j < k <= |steps| && steps[j].Resize? && forall x :: j < x < k ==> steps[x].Return?
    requires states[k].held == map[] && states[k].blocked == []
    ensures var n, free := steps[j].n, states[j].credits;
            states[k].nbuffers == if free >= n then free else Min(n, states[j].nbuffers)
  {
    ReturnsSettle(steps, states, j + 1, k);
  }

  /** Blocked messages wait in the order in which they came: one joins at the end by its own post, and one leaves
      only at the head, with a buffer. */
  lemma BlockedInOrder(steps: seq<Step>, states: seq<Pool>, k: nat)
    requires IsRun(steps, states) && k < |steps|
    ensures var a, b := states[k].blocked, states[k + 1].blocked;
            || b == a
            || (steps[k].Post? && b == a + [steps[k].m])
            || (a != [] && b == a[1..] && a[0] in states[k + 1].held)
  {
    RunInv(steps, states, k);
  }

  /** While the thread that adjusts the pool allocates, it remembers what was asked for before. */
  lemma {:induction false} Allocates(steps: seq<Step>, states: seq<Pool>, j: nat, k: nat)
    requires IsRun(steps, states) && j < k <= |steps| && steps[j].GrowStart?
    requires forall x :: j < x < k ==> !steps[x].GrowFail? && !steps[x].GrowAdd?
    ensures states[k].req == steps[j].n && states[k].grow.Allocating? && states[k].grow.oldReq == states[j].req
    decreases k
  {
    if k > j + 1 { Allocates(steps, states, j, k - 1); }
  }

  /** How a growth ends: with memory the pool has the size asked for, and without it the old request is back. */
  lemma GrowthEnds(steps: seq<Step>, states: seq<Pool>, j: nat, k: nat)
    requires IsRun(steps, states) && j < k < |steps| && steps[j].GrowStart? && (steps[k].GrowFail? || steps[k].GrowAdd?)
    requires forall x :: j < x < k ==> !steps[x].GrowFail? && !steps[x].GrowAdd?
    ensures steps[k].GrowAdd? ==> states[k + 1].nbuffers == states[k + 1].req == steps[j].n
    ensures steps[k].GrowFail? ==> states[k + 1].req == states[j].req && states[k + 1].nbuffers == states[k].nbuffers
  {
    Allocates(steps, states, j, k);
    RunInv(steps, states, k);
    RunInv(steps, states, k + 1);
  }

  /** The assertion at the start of the return: positive credits mean a free buffer, and no others do. */
  predicate ReturnAssertion(s: Pool) {
    s.credits > 0 <==> s.bufs != []
  }

  /** It holds in every reachable state but those where the growth loop has not yet served as many blocked messages
      as there are free buffers. */
  lemma ReturnAssertionIff(steps: seq<Step>, states: seq<Pool>, k: nat)
    requires IsRun(steps, states) && k <= |steps|
    ensures ReturnAssertion(states[k]) <==> !(states[k].bufs != [] && |states[k].bufs| <= |states[k].blocked|)
    ensures states[k].grow != Scheduling ==> ReturnAssertion(states[k])
  {
    RunInv(steps, states, k);
  }

  // The run of ReturnAssertionCanFail.
  function Race(k: nat): Pool {
    if k == 0 then Pool(1, 1, 1, [10], [], map[], Still)
    else if k == 1 then Pool(0, 1, 1, [], [], map[0 := 10], Still)
    else if k == 2 then Pool(-1, 1, 1, [], [1], map[0 := 10], Still)
    else if k == 3 then Pool(-2, 1, 1, [], [1, 2], map[0 := 10], Still)
    else if k == 4 then Pool(-2, 1, 3, [], [1, 2], map[0 := 10], Allocating(2, 1))
    else if k == 5 then Pool(0, 3, 3, [11, 12], [1, 2], map[0 := 10], Scheduling)
    else Pool(0, 3, 3, [12], [2], map[0 := 10, 1 := 11], Scheduling)
  }

  function RaceSteps(): seq<Step> {
    [Post(0), Post(1), Post(2), GrowStart(3), GrowAdd([11, 12]), GrowServe]
  }

  lemma RacePosts(k: nat)
    requires k < 3
    ensures Enabled(Race(k), Post(k)) && DoPost(Race(k), k) == Race(k + 1)
  {
  }

  lemma RaceGrows()
    ensures Enabled(Race(3), GrowStart(3)) && Apply(Race(3), GrowStart(3)) == Race(4)
  {
    assert Race(3).blocked == [1, 2];
  }

  lemma RaceAdds()
    ensures Enabled(Race(4), GrowAdd([11, 12])) && Apply(Race(4), GrowAdd([11, 12])) == Race(5)
  {
    assert Race(4).bufs + [11, 12] == Race(5).bufs;
  }

  lemma RaceServes()
    ensures Enabled(Race(5), GrowServe) && Apply(Race(5), GrowServe) == Race(6)
  {
    assert Race(5).bufs[1..] == Race(6).bufs && Race(5).blocked[1..] == Race(6).blocked;
    assert Race(5).held[1 := 11] == Race(6).held;
  }

  /** And such a state is reachable: three messages share a pool of one buffer, the pool grows to three, and the
      first message returns its buffer while the growth loop is between two iterations. */
  lemma ReturnAssertionCanFail() returns (steps: seq<Step>, states: seq<Pool>)
    ensures IsRun(steps, states) && Enabled(states[|steps|], Return(0)) && !ReturnAssertion(states[|steps|])
  {
    steps, states := RaceSteps(), seq(7, k requires 0 <= k < 7 => Race(k));
    forall k | 0 <= k < |steps| ensures Enabled(states[k], steps[k]) && states[k + 1] == Apply(states[k], steps[k]) {
      if k < 3 { RacePosts(k); } else if k == 3 { RaceGrows(); } else if k == 4 { RaceAdds(); } else { RaceServes(); }
    }
  }

  /** A buffer is there when a post is about to take one. */
  lemma BufferForPost(steps: seq<Step>, states: seq<Pool>, k: nat)
    requires IsRun(steps, states) && k <= |steps| && states[k].credits >= 1
    ensures states[k].bufs != []
  {
    RunInv(steps, states, k);
  }

  /** A blocked message is served next by any return, and someone can return exactly when the pool has a buffer at
      all. */
  lemma BlockedGetsServed(steps: seq<Step>, states: seq<Pool>, k: nat, m: nat)
    requires IsRun(steps, states) && k <= |steps| && states[k].grow != Scheduling && states[k].blocked != []
    ensures states[k].held != map[] <==> states[k].nbuffers >= 1
    ensures m in states[k].held ==>
              var s' := DoReturn(states[k], m);
              && s'.blocked == states[k].blocked[1..] && states[k].blocked[0] in s'.held
              && s'.held[states[k].blocked[0]] == states[k].held[m]
  {
    RunInv(steps, states, k);
    assert |states[k].held| == 0 <==> states[k].held == map[];
  }

  predicate AtLeastOne(s: Pool) {
    s.nbuffers >= 1 && s.req >= 1 && (s.grow.Allocating? ==> s.grow.oldReq >= 1)
  }

  lemma StepKeepsOne(s: Pool, st: Step)
    requires Inv(s) && Enabled(s, st) && AtLeastOne(s) && (st.Resize? ==> st.n >= 1)
    ensures AtLeastOne(Apply(s, st))
  {
    if st.Return? { HeldLess(s, st.m); }
  }

  /** A pool that is never asked for fewer than one buffer, and started with one, keeps one. */
  lemma {:induction false} KeepsOne(steps: seq<Step>, states: seq<Pool>, k: nat)
    requires IsRun(steps, states) && k <= |steps| && states[0].nbuffers >= 1
    requires forall j :: 0 <= j < |steps| && steps[j].Resize? ==> steps[j].n >= 1
    ensures AtLeastOne(states[k])
  {
    if k > 0 {
      KeepsOne(steps, states, k - 1);
      RunInv(steps, states, k - 1);
      StepKeepsOne(states[k - 1], steps[k - 1]);
    }
  }

  // ----- the code, in place -----

  class RtrBufPool {
    var credits: int
    var nbuffers: int
    var req: int
    var bufs: seq<nat>
    var msgs: seq<nat>
    var held: map<nat, nat>  // msg_kiov of the messages with a buffer
    ghost var grow: Grow

    ghost function View(): Pool
      reads this
    {
      Pool(credits, nbuffers, req, bufs, msgs, held, grow)
    }

    /** The end of lnet_post_routed_recv_locked: take the first free buffer. */
    method TakeBuffer(m: nat)
      requires bufs != []
      modifies this`bufs, this`held
      ensures View() == old(View()).(bufs := old(bufs)[1..], held := old(held)[m := old(bufs)[0]])
    {
      held := held[m := bufs[0]];
      bufs := bufs[1..];
    }

    /** lnet_post_routed_recv_locked: whether the message got a buffer. */
    method PostRoutedRecv(m: nat) returns (ok: bool)
      requires Inv(View()) && m !in held && m !in msgs
      modifies this
      ensures Inv(View()) && View() == DoPost(old(View()), m) && (ok <==> m in held)
    {
      StepInv(View(), Post(m));
      credits := credits - 1;
      if credits < 0 {
        msgs := msgs + [m];
        return false;
      }
      TakeBuffer(m);
      return true;
    }

    /** lnet_schedule_blocked_locked; a message that was blocked already has its credit. */
    method ScheduleBlocked()
      requires bufs != []
      modifies this`bufs, this`msgs, this`held
      ensures View() == Serve(old(View()))
    {
      if msgs == [] { return; }
      var m := msgs[0];
      msgs := msgs[1..];
      TakeBuffer(m);
    }

    /** lnet_return_rx_credits_locked, the pool's part with routing on. */
    method ReturnRxCredits(m: nat) returns (discarded: bool)
      requires Inv(View()) && m in held
      modifies this
      ensures View() == DoReturn(old(View()), m) && Inv(View())
      ensures discarded ==> old(msgs) == []
    {
      ReturnInv(View(), m);
      if credits >= req { DiscardUnblocked(View(), m); }
      var rb := held[m];
      held := held - {m};
      if credits >= req {
        nbuffers := nbuffers - 1;
        assert View() == DoReturn(old(View()), m);
        return true;
      }
      bufs := [rb] + bufs;
      credits := credits + 1;
      assert View() == PutBack(old(View()), m);
      if credits <= 0 { ScheduleBlocked(); }
      assert View() == DoReturn(old(View()), m);
      return false;
    }

    /** The scheduling loop of lnet_rtrpool_adjust_bufs, with nobody else taking the lock: served messages got the
        first buffers, in order, until one of the two lists was empty. */
    method ServeAll() returns (ghost served: nat)
      requires Inv(View()) && grow == Scheduling
      modifies this`bufs, this`msgs, this`held
      ensures Inv(View()) && (bufs == [] || msgs == [])
      ensures served <= old(|bufs|) && served <= old(|msgs|) && bufs == old(bufs)[served..]
      ensures msgs == old(msgs)[served..]
      ensures forall i :: 0 <= i < served ==> old(msgs)[i] in held && held[old(msgs)[i]] == old(bufs)[i]
    {
      ghost var all, waiting := bufs, msgs;
      served := 0;
      while bufs != [] && msgs != []
        invariant Inv(View())
        invariant served <= |all| && served <= |waiting| && bufs == all[served..] && msgs == waiting[served..]
        invariant forall i :: 0 <= i < served ==> waiting[i] in held && held[waiting[i]] == all[i]
        decreases |msgs|
      {
        StepInv(View(), GrowServe);
        assert msgs[0] == waiting[served] && bufs[0] == all[served];
        assert forall i :: 0 <= i < served ==> waiting[i] != waiting[served];
        ScheduleBlocked();
        served := served + 1;
      }
    }

    /** The last locked region of lnet_rtrpool_adjust_bufs. */
    method AddBuffers(extra: seq<nat>) returns (ghost served: nat)
      requires Inv(View()) && Enabled(View(), GrowAdd(extra))
      modifies this
      ensures Inv(View()) && grow == Still && req == nbuffers == old(nbuffers) + |extra|
      ensures served <= old(|bufs|) + |extra| && served <= old(|msgs|)
      ensures bufs == (old(bufs) + extra)[served..] && msgs == old(msgs)[served..]
    {
      AddInv(View(), extra);
      bufs := bufs + extra;
      nbuffers := nbuffers + |extra|;
      credits := credits + |extra|;
      grow := Scheduling;
      served := ServeAll();
      StepInv(View(), GrowEnd);
      grow := Still;
    }
  }

  /** lnet_msg2bufpool: the first pool whose buffers are large enough; the last pool takes a whole LNET_MTU. */
  method Msg2BufPool(npages: seq<nat>, len: nat) returns (i: nat)
    requires npages != [] && len <= npages[|npages| - 1] * PAGE_SIZE
    ensures i < |npages| && len <= npages[i] * PAGE_SIZE
    ensures forall j :: 0 <= j < i ==> len > npages[j] * PAGE_SIZE
  {
    i := 0;
    while len > npages[i] * PAGE_SIZE
      invariant i < |npages|
      invariant forall j :: 0 <= j < i ==> len > npages[j] * PAGE_SIZE
      decreases |npages| - i
    {
      i := i + 1;
    }
  }
}
