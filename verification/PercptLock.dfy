/**
  The CPT lock (libcfs_lock.c): an array of spin locks, one for each partition, of which an exclusive locker takes
  all.  Any number of threads; a step is one access to a spin lock or to pcl_locked.
 */
module PercptLock {
  import opened Common

  /** What cfs_percpt_lock is asked for: CFS_PERCPT_LOCK_EX or the lock of one partition. */
  datatype Want = Ex | Private(i: nat)

  datatype Pc =
    | Idle
    | Spin(want: Want)   // while (pcl_locked)
    | Ask(i: nat)        // at spin_lock of a private lock
    | Own(i: nat)        // holds a private lock
    | Climb(i: nat)      // exclusive: holds the locks below i, at spin_lock of lock i
    | Mark               // exclusive: holds lock 0, about to set pcl_locked
    | OwnAll
    | Descend(i: nat)    // unlocking: still holds locks 0..i, about to release i (for 0: to clear pcl_locked)
    | Last               // pcl_locked is clear, lock 0 still held

  /** pcs: where each thread is (a thread not listed is idle).  owner: who holds each spin lock. */
  datatype State = State(pcs: map<nat, Pc>, owner: seq<Option<nat>>, locked: bool)

  function PcOf(s: State, t: nat): Pc {
    if t in s.pcs then s.pcs[t] else Idle
  }

  datatype Step =
    | Begin(t: nat, want: Want)
    | Go(t: nat)

  /** Whether a thread that has begun can move. */
  predicate CanGo(s: State, t: nat) {
    match PcOf(s, t)
    case Idle => false
    case Spin(_) => !s.locked
    case Ask(i) => i < |s.owner| && s.owner[i].None?
    case Climb(i) => i < |s.owner| && s.owner[i].None?
    case Own(i) => i < |s.owner|
    case Descend(i) => i < |s.owner|
    case Last => |s.owner| > 0
    case _ => true
  }

  predicate Enabled(s: State, st: Step) {
    match st
    case Begin(t, want) => PcOf(s, t) == Idle && (want.Private? ==> want.i < |s.owner|)
    case Go(t) => CanGo(s, t)
  }

  function Moved(s: State, t: nat, pc: Pc): State {
    s.(pcs := s.pcs[t := pc])
  }

  function Take(s: State, t: nat, i: nat, pc: Pc): State
    requires i < |s.owner|
  {
    State(s.pcs[t := pc], s.owner[i := Some(t)], s.locked)
  }

  function Drop(s: State, t: nat, i: nat, pc: Pc): State
    requires i < |s.owner|
  {
    State(s.pcs[t := pc], s.owner[i := None], s.locked)
  }

  function DoGo(s: State, t: nat): State
    requires CanGo(s, t)
  {
    match PcOf(s, t)
    case Idle => s
    case Spin(want) => Moved(s, t, if want.Ex? then Climb(0) else Ask(want.i))
    case Ask(i) => Take(s, t, i, Own(i))
    case Own(i) => Drop(s, t, i, Idle)
    case Climb(i) => Take(s, t, i, if i == 0 then Mark else if i + 1 == |s.owner| then OwnAll else Climb(i + 1))
    case Mark => Moved(s, t, Climb(1)).(locked := true)
    case OwnAll => Moved(s, t, if |s.owner| > 0 then Descend(|s.owner| - 1) else Idle)
    case Descend(i) => if i > 0 then Drop(s, t, i, Descend(i - 1)) else Moved(s, t, Last).(locked := false)
    case Last => Drop(s, t, 0, Idle)
  }

  /** With one partition every request is for lock 0, and pcl_locked is not looked at. */
  function Apply(s: State, st: Step): State
    requires Enabled(s, st)
  {
    match st
    case Begin(t, want) => Moved(s, t, if |s.owner| == 1 then Ask(0) else Spin(want))
    case Go(t) => DoGo(s, t)
  }

  predicate Init(s: State) {
    |s.owner| >= 1 && s.pcs == map[] && !s.locked && forall i :: 0 <= i < |s.owner| ==> s.owner[i] == None
  }

  predicate IsRun(steps: seq<Step>, states: seq<State>) {
    && |states| == |steps| + 1 && Init(states[0])
    && forall k :: 0 <= k < |steps| ==> Enabled(states[k], steps[k]) && states[k + 1] == Apply(states[k], steps[k])
  }

  // ----- the invariant -----

  predicate Holds(pc: Pc, i: nat) {
    match pc
    case Own(j) => i == j
    case Climb(j) => i < j
    case Mark => i == 0
    case OwnAll => true
    case Descend(j) => i <= j
    case Last => i == 0
    case _ => false
  }

  /** Between the set and the clear of pcl_locked. */
  predicate Marked(pc: Pc) {
    match pc
    case Climb(j) => j >= 1
    case OwnAll => true
    case Descend(_) => true
    case _ => false
  }

  predicate PcOk(n: nat, pc: Pc) {
    match pc
    case Spin(want) => n >= 2 && (want.Private? ==> want.i < n)
    case Ask(i) => i < n
    case Own(i) => i < n
    case Climb(i) => n >= 2 && i < n
    case Descend(i) => n >= 2 && i < n
    case Idle => true
    case _ => n >= 2
  }

  ghost predicate Owners(s: State) {
    forall t: nat, i: nat :: i < |s.owner| ==> (Holds(PcOf(s, t), i) <==> s.owner[i] == Some(t))
  }

  ghost predicate Inv(s: State) {
    && |s.owner| >= 1 && Owners(s)
    && (forall t :: PcOk(|s.owner|, PcOf(s, t)))
    && (s.locked <==> exists t :: Marked(PcOf(s, t)))
  }

  lemma OneHolder(s: State, t: nat, u: nat, i: nat)
    requires Inv(s) && i < |s.owner|
    ensures Holds(PcOf(s, t), i) && Holds(PcOf(s, u), i) ==> t == u
  {
    assert Holds(PcOf(s, t), i) <==> s.owner[i] == Some(t);
    assert Holds(PcOf(s, u), i) <==> s.owner[i] == Some(u);
  }

  /** Everyone between set and clear, or about to set, holds lock 0, so there is only one. */
  lemma OneAtZero(s: State, t: nat, u: nat)
    requires Inv(s) && Holds(PcOf(s, t), 0) && Holds(PcOf(s, u), 0)
    ensures t == u
  {
    assert s.owner[0] == Some(t) && s.owner[0] == Some(u);
  }

  lemma MarkedHolds(pc: Pc)
    ensures Marked(pc) ==> Holds(pc, 0)
  {
  }

  lemma GoOwners(s: State, t: nat)
    requires Inv(s) && CanGo(s, t)
    ensures Owners(DoGo(s, t)) && |DoGo(s, t).owner| == |s.owner|
  {
    var s' := DoGo(s, t);
    forall u: nat, i: nat | i < |s'.owner| ensures Holds(PcOf(s', u), i) <==> s'.owner[i] == Some(u) {
      assert PcOk(|s.owner|, PcOf(s, t));
      assert Holds(PcOf(s, u), i) <==> s.owner[i] == Some(u);
    }
  }

  lemma GoLocked(s: State, t: nat)
    requires Inv(s) && CanGo(s, t)
    ensures var s' := DoGo(s, t); s'.locked <==> exists u :: Marked(PcOf(s', u))
  {
    var s' := DoGo(s, t);
    var pc, pc' := PcOf(s, t), PcOf(s', t);
    assert PcOk(|s.owner|, pc);
    assert forall u :: u != t ==> PcOf(s', u) == PcOf(s, u);
    if Marked(pc) {
      forall u | Marked(PcOf(s, u)) ensures u == t { MarkedHolds(PcOf(s, u)); MarkedHolds(pc); OneAtZero(s, t, u); }
    }
    if Marked(pc') {
    } else if s.locked && !Marked(pc) {
      var u :| Marked(PcOf(s, u));
      assert Marked(PcOf(s', u));
    }
  }

  lemma GoPcs(s: State, t: nat)
    requires Inv(s) && CanGo(s, t)
    ensures forall u :: PcOk(|s.owner|, PcOf(DoGo(s, t), u))
  {
    forall u: nat ensures PcOk(|s.owner|, PcOf(DoGo(s, t), u)) {
      assert PcOk(|s.owner|, PcOf(s, t)) && PcOk(|s.owner|, PcOf(s, u));
    }
  }

  lemma BeginInv(s: State, t: nat, want: Want)
    requires Inv(s) && Enabled(s, Begin(t, want))
    ensures Inv(Apply(s, Begin(t, want)))
  {
    var s' := Apply(s, Begin(t, want));
    assert forall u :: u != t ==> PcOf(s', u) == PcOf(s, u);
    if s.locked {
      var u :| Marked(PcOf(s, u));
      assert Marked(PcOf(s', u));
    }
    forall u: nat, i: nat | i < |s'.owner| ensures Holds(PcOf(s', u), i) <==> s'.owner[i] == Some(u) {
      assert Holds(PcOf(s, u), i) <==> s.owner[i] == Some(u);
    }
  }

  lemma StepInv(s: State, st: Step)
    requires Inv(s) && Enabled(s, st)
    ensures Inv(Apply(s, st))
  {
    match st
    case Begin(t, want) => BeginInv(s, t, want);
    case Go(t) =>
      GoOwners(s, t);
      GoLocked(s, t);
      GoPcs(s, t);
  }

  lemma {:induction false} RunInv(steps: seq<Step>, states: seq<State>, k: nat)
    requires IsRun(steps, states) && k <= |steps|
    ensures Inv(states[k])
  {
    if k > 0 {
      RunInv(steps, states, k - 1);
      StepInv(states[k - 1], steps[k - 1]);
    }
  }

  // ----- theorems -----

  /** An exclusive holder is alone, and no two threads hold the same private lock. */
  lemma Exclusion(steps: seq<Step>, states: seq<State>, k: nat, t: nat, u: nat)
    requires IsRun(steps, states) && k <= |steps| && t != u
    ensures PcOf(states[k], t) == OwnAll ==> PcOf(states[k], u) != OwnAll && !PcOf(states[k], u).Own?
    ensures PcOf(states[k], t).Own? ==> PcOf(states[k], u) != PcOf(states[k], t)
  {
    RunInv(steps, states, k);
    var s := states[k];
    var pc := PcOf(s, u);
    assert PcOk(|s.owner|, pc) && PcOk(|s.owner|, PcOf(s, t));
    OneHolder(s, t, u, if pc.Own? then pc.i else 0);
  }

  // ----- what a request obtains -----

  /** Step j is the last request of t before k. */
  predicate LastRequest(steps: seq<Step>, j: nat, k: nat, t: nat) {
    && j < k <= |steps| && steps[j].Begin? && steps[j].t == t
    && forall x :: j < x < k && steps[x].Begin? ==> steps[x].t != t
  }

  /** The lock call of the thread has returned and the unlock call has not begun. */
  predicate Obtained(pc: Pc) {
    pc.Own? || pc == OwnAll
  }

  /** Where a thread can be on behalf of a request. */
  predicate OnBehalf(n: nat, want: Want, pc: Pc) {
    if n == 1 then pc in {Ask(0), Own(0), Idle}
    else match want
      case Private(i) => pc in {Spin(want), Ask(i), Own(i), Idle}
      case Ex => pc.Climb? || pc.Descend? || pc in {Spin(want), Mark, OwnAll, Last, Idle}
  }

  lemma OnBehalfStep(s: State, st: Step, t: nat, want: Want)
    requires Inv(s) && Enabled(s, st) && OnBehalf(|s.owner|, want, PcOf(s, t)) && !(st.Begin? && st.t == t)
    ensures OnBehalf(|Apply(s, st).owner|, want, PcOf(Apply(s, st), t)) && |Apply(s, st).owner| == |s.owner|
  {
    assert PcOk(|s.owner|, PcOf(s, t));
  }

  lemma {:induction false} RunOnBehalf(steps: seq<Step>, states: seq<State>, j: nat, k: nat, t: nat)
    requires IsRun(steps, states) && LastRequest(steps, j, k, t)
    ensures OnBehalf(|states[k].owner|, steps[j].want, PcOf(states[k], t))
    ensures |states[k].owner| == |states[j].owner|
  {
    if k == j + 1 {
      RunInv(steps, states, j);
    } else {
      RunOnBehalf(steps, states, j, k - 1, t);
      RunInv(steps, states, k - 1);
      OnBehalfStep(states[k - 1], steps[k - 1], t, steps[j].want);
    }
  }

  /** Who asked for the exclusive lock and got it owns every spin lock, so nobody else owns any, and pcl_locked is set
      where there are several; who asked for a private lock and got it owns that one and no other. */
  lemma Granted(steps: seq<Step>, states: seq<State>, j: nat, k: nat, t: nat)
    requires IsRun(steps, states) && LastRequest(steps, j, k, t) && Obtained(PcOf(states[k], t))
    ensures var owner := states[k].owner;
            match steps[j].want
            case Ex =>
              && (forall i :: 0 <= i < |owner| ==> owner[i] == Some(t))
              && (|owner| > 1 ==> states[k].locked)
            case Private(i) => i < |owner| && forall x :: 0 <= x < |owner| ==> (owner[x] == Some(t) <==> x == i)
  {
    var s := states[k];
    RunInv(steps, states, k);
    RunOnBehalf(steps, states, j, k, t);
    assert PcOk(|s.owner|, PcOf(s, t));
    forall i: nat | i < |s.owner| ensures Holds(PcOf(s, t), i) <==> s.owner[i] == Some(t) {}
    if PcOf(s, t) == OwnAll { assert Marked(PcOf(s, t)); }
  }

  /** A thread whose last call is over owns nothing. */
  lemma IdleOwnsNone(steps: seq<Step>, states: seq<State>, k: nat, t: nat)
    requires IsRun(steps, states) && k <= |steps| && PcOf(states[k], t) == Idle
    ensures forall i :: 0 <= i < |states[k].owner| ==> states[k].owner[i] != Some(t)
  {
    RunInv(steps, states, k);
    forall i: nat | i < |states[k].owner| ensures Holds(PcOf(states[k], t), i) <==> states[k].owner[i] == Some(t) {}
  }

  /** Both assertions hold: pcl_locked is clear when an exclusive locker is about to set it, and set when one is
      about to clear it. */
  lemma AssertionsHold(steps: seq<Step>, states: seq<State>, k: nat, t: nat)
    requires IsRun(steps, states) && k <= |steps|
    ensures PcOf(states[k], t) == Mark ==> !states[k].locked
    ensures PcOf(states[k], t) == Descend(0) ==> states[k].locked
  {
    RunInv(steps, states, k);
    var s := states[k];
    if PcOf(s, t) == Mark && s.locked {
      var u :| Marked(PcOf(s, u));
      MarkedHolds(PcOf(s, u));
      OneAtZero(s, t, u);
    }
  }

  /** pcl_locked is 1 exactly while one thread, the owner of lock 0, is between set and clear. */
  lemma LockedByOne(steps: seq<Step>, states: seq<State>, k: nat)
    requires IsRun(steps, states) && k <= |steps|
    ensures |states[k].owner| >= 1
    ensures states[k].locked <==> states[k].owner[0].Some? && Marked(PcOf(states[k], states[k].owner[0].value))
    ensures forall t: nat, u: nat :: Marked(PcOf(states[k], t)) && Marked(PcOf(states[k], u)) ==> t == u
  {
    RunInv(steps, states, k);
    var s := states[k];
    forall t: nat | Marked(PcOf(s, t)) ensures s.owner[0] == Some(t) { MarkedHolds(PcOf(s, t)); }
  }

  /** The holder of lock i < n that is not itself waiting for a higher lock can go. */
  lemma OwnerGoes(s: State, i: nat)
    requires Inv(s) && i < |s.owner| && s.owner[i].Some?
    ensures var u := s.owner[i].value;
            CanGo(s, u) || (PcOf(s, u).Climb? && PcOf(s, u).i > i)
  {
    var u := s.owner[i].value;
    assert Holds(PcOf(s, u), i) && PcOk(|s.owner|, PcOf(s, u));
  }

  lemma OneClimber(s: State, t: nat, u: nat)
    requires Inv(s) && PcOf(s, t).Climb? && PcOf(s, t).i >= 1
    ensures PcOf(s, u).Climb? && PcOf(s, u).i >= 1 ==> u == t
  {
    if PcOf(s, u).Climb? && PcOf(s, u).i >= 1 { OneAtZero(s, t, u); }
  }

  /** A climbing thread waits only for a holder that can go. */
  lemma ClimberHelped(s: State, t: nat) returns (u: nat)
    requires Inv(s) && PcOf(s, t).Climb? && PcOf(s, t).i >= 1
    ensures CanGo(s, u)
  {
    var i := PcOf(s, t).i;
    assert PcOk(|s.owner|, PcOf(s, t));
    u := t;
    if s.owner[i].Some? {
      u := s.owner[i].value;
      OwnerGoes(s, i);
      OneClimber(s, t, u);
    }
  }

  /** No reachable state with a thread under way is deadlocked: some thread under way can move. */
  lemma NoDeadlock(steps: seq<Step>, states: seq<State>, k: nat, t: nat) returns (u: nat)
    requires IsRun(steps, states) && k <= |steps| && PcOf(states[k], t) != Idle
    ensures PcOf(states[k], u) != Idle && Enabled(states[k], Go(u))
  {
    RunInv(steps, states, k);
    u := SomeoneGoes(states[k], t);
  }

  lemma SomeoneGoes(s: State, t: nat) returns (u: nat)
    requires Inv(s) && PcOf(s, t) != Idle
    ensures CanGo(s, u)
  {
    var pc := PcOf(s, t);
    assert PcOk(|s.owner|, pc);
    u := t;
    if s.locked {
      var v :| Marked(PcOf(s, v));
      assert PcOk(|s.owner|, PcOf(s, v));
      if PcOf(s, v).Climb? { u := ClimberHelped(s, v); } else { u := v; }
    } else if pc.Ask? || pc.Climb? {
      if s.owner[pc.i].Some? {
        u := s.owner[pc.i].value;
        OwnerGoes(s, pc.i);
        assert !Marked(PcOf(s, u));
      }
    }
  }

  /** Past the spin loop and waiting for a spin lock, with none in hand. */
  predicate Competes(pc: Pc) {
    pc.Ask? || pc == Climb(0)
  }

  /** While pcl_locked is set nobody new gets past the spin loop. */
  lemma NoNewcomers(steps: seq<Step>, states: seq<State>, k: nat, t: nat)
    requires IsRun(steps, states) && k < |steps| && states[k].locked && Competes(PcOf(states[k + 1], t))
    ensures Competes(PcOf(states[k], t))
  {
    RunInv(steps, states, k);
    var s := states[k];
    var v :| Marked(PcOf(s, v));
    assert PcOk(|s.owner|, PcOf(s, v));
    assert PcOk(|s.owner|, PcOf(s, t));
  }

  /** Who competes with the exclusive locker. */
  function Competitors(s: State): set<nat> {
    set t | t in s.pcs && Competes(s.pcs[t])
  }

  /** The step takes a private lock. */
  predicate Grabs(s: State, st: Step) {
    st.Go? && PcOf(s, st.t).Ask?
  }

  /** Private locks taken in steps j to k - 1. */
  function Grabbed(steps: seq<Step>, states: seq<State>, j: nat, k: nat): nat
    requires j <= k <= |steps| && |states| == |steps| + 1
  {
    if j == k then 0 else Grabbed(steps, states, j, k - 1) + (if Grabs(states[k - 1], steps[k - 1]) then 1 else 0)
  }

  predicate Fewer(s: State, st: Step, s': State) {
    |Competitors(s')| + (if Grabs(s, st) then 1 else 0) <= |Competitors(s)|
  }

  lemma FewerCompete(steps: seq<Step>, states: seq<State>, k: nat)
    requires IsRun(steps, states) && k < |steps| && states[k].locked
    ensures Fewer(states[k], steps[k], states[k + 1])
  {
    var a, b := Competitors(states[k]), Competitors(states[k + 1]);
    forall t: nat | t in b ensures t in a { NoNewcomers(steps, states, k, t); }
    SubsetCard(b, a);
    if Grabs(states[k], steps[k]) {
      assert steps[k].t in a && steps[k].t !in b;
    }
  }

  /** The bound pcl_locked is there for: while it is set, private locks are taken at most as often as there were
      competitors when it was set, each of them once. */
  lemma PassedAtMost(steps: seq<Step>, states: seq<State>, j: nat, k: nat)
    requires IsRun(steps, states) && j <= k <= |steps| && forall x :: j <= x < k ==> states[x].locked
    ensures Grabbed(steps, states, j, k) + |Competitors(states[k])| <= |Competitors(states[j])|
  {
    forall x: nat | j <= x < k ensures Fewer(states[x], steps[x], states[x + 1]) { FewerCompete(steps, states, x); }
    GrabsAddUp(steps, states, j, k);
  }

  lemma {:induction false} GrabsAddUp(steps: seq<Step>, states: seq<State>, j: nat, k: nat)
    requires j <= k <= |steps| && |states| == |steps| + 1
    requires forall x :: j <= x < k ==> Fewer(states[x], steps[x], states[x + 1])
    ensures Grabbed(steps, states, j, k) + |Competitors(states[k])| <= |Competitors(states[j])|
    decreases k
  {
    if j < k {
      GrabsAddUp(steps, states, j, k - 1);
      assert Fewer(states[k - 1], steps[k - 1], states[k - 1 + 1]);
    }
  }
}
