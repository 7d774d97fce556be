/**
  The workitem scheduler (workitem.c) with any number of worker threads.  A step is a region under ws_lock; between
  its start and its finish an item's action runs without the lock and may schedule, deschedule or exit items.
 */
module WorkItem {
  import opened Common

  /**
    scheduled, running: the items with wi_scheduled, wi_running set.  executing: the item whose action each worker
    is in.  exited: items that called cfs_wi_exit, after which nobody may schedule or deschedule them.
   */
  datatype Sched = Sched(runq: seq<nat>, rerunq: seq<nat>, nscheduled: int, scheduled: set<nat>, running: set<nat>,
                         executing: map<nat, nat>, exited: set<nat>)

  datatype Step =
    | Schedule(w: nat)
    | Deschedule(w: nat)
    | Exit(worker: nat)                  // from the action the worker is in
    | Start(worker: nat)                 // the worker takes the head of the run queue
    | Finish(worker: nat, dead: bool)    // its action returned; nonzero (dead) only after an exit

  predicate Enabled(s: Sched, st: Step) {
    match st
    case Schedule(w) => w !in s.exited
    case Deschedule(w) => w !in s.exited
    case Exit(t) => t in s.executing && s.executing[t] !in s.exited
    case Start(t) => t !in s.executing && s.runq != []
    case Finish(t, dead) => t in s.executing && (dead ==> s.executing[t] in s.exited)
  }

  predicate Queued(s: Sched, w: nat) {
    w in s.runq || w in s.rerunq
  }

  function DoSchedule(s: Sched, w: nat): Sched {
    if w in s.scheduled then s
    else
      var s1 := s.(scheduled := s.scheduled + {w}, nscheduled := s.nscheduled + 1);
      if w !in s.running then s1.(runq := s.runq + [w]) else s1.(rerunq := [w] + s.rerunq)
  }

  /** Cancel a pending schedule. */
  function Cancelled(s: Sched, w: nat): Sched {
    if w !in s.scheduled then s
    else s.(runq := Remove(s.runq, w), rerunq := Remove(s.rerunq, w), nscheduled := s.nscheduled - 1,
            scheduled := s.scheduled - {w})
  }

  function DoExit(s: Sched, w: nat): Sched {
    var s1 := Cancelled(s, w);
    s1.(scheduled := s1.scheduled + {w}, exited := s1.exited + {w})
  }

  function DoStart(s: Sched, t: nat): Sched
    requires s.runq != []
  {
    var w := s.runq[0];
    s.(runq := s.runq[1..], nscheduled := s.nscheduled - 1, running := s.running + {w}, scheduled := s.scheduled - {w},
       executing := s.executing[t := w])
  }

  function DoFinish(s: Sched, t: nat, dead: bool): Sched
    requires t in s.executing
  {
    var w := s.executing[t];
    var s1 := s.(executing := s.executing - {t});
    if dead then s1
    else
      var s2 := s1.(running := s1.running - {w});
      if !Queued(s2, w) then s2
      else s2.(runq := Remove(s2.runq, w) + [w], rerunq := Remove(s2.rerunq, w))
  }

  function Apply(s: Sched, st: Step): Sched
    requires Enabled(s, st)
  {
    match st
    case Schedule(w) => DoSchedule(s, w)
    case Deschedule(w) => Cancelled(s, w)
    case Exit(t) => DoExit(s, s.executing[t])
    case Start(t) => DoStart(s, t)
    case Finish(t, dead) => DoFinish(s, t, dead)
  }

  function Init(): Sched {
    Sched([], [], 0, {}, {}, map[], {})
  }

  predicate IsRun(steps: seq<Step>, states: seq<Sched>) {
    && |states| == |steps| + 1 && states[0] == Init()
    && forall k :: 0 <= k < |steps| ==> Enabled(states[k], steps[k]) && states[k + 1] == Apply(states[k], steps[k])
  }

  // ----- the invariant -----

  ghost predicate Inv(s: Sched) {
    && s.nscheduled == |s.runq| + |s.rerunq| && NoDup(s.runq) && NoDup(s.rerunq)
    && (forall w :: w in s.runq ==> w in s.scheduled && w !in s.running && w !in s.exited)
    && (forall w :: w in s.rerunq ==> w in s.scheduled && w in s.running && w !in s.exited)
    && (forall w :: w in s.scheduled ==> w in s.runq || w in s.rerunq || w in s.exited)
    && (forall t :: t in s.executing ==> s.executing[t] in s.running)
    && (forall w :: w in s.running ==> w in s.exited || exists t :: t in s.executing && s.executing[t] == w)
    && (forall t, u :: t in s.executing && u in s.executing && t != u ==> s.executing[t] != s.executing[u])
  }

  lemma CancelInv(s: Sched, w: nat)
    requires Inv(s) && w !in s.exited
    ensures Inv(Cancelled(s, w)) && !Queued(Cancelled(s, w), w)
  {
    RemoveKeeps(s.runq, w);
    RemoveKeeps(s.rerunq, w);
  }

  lemma ScheduleInv(s: Sched, w: nat)
    requires Inv(s) && w !in s.exited
    ensures Inv(DoSchedule(s, w))
  {
  }

  lemma ExitInv(s: Sched, t: nat)
    requires Inv(s) && Enabled(s, Exit(t))
    ensures Inv(Apply(s, Exit(t)))
  {
    CancelInv(s, s.executing[t]);
  }

  lemma StartInv(s: Sched, t: nat)
    requires Inv(s) && Enabled(s, Start(t))
    ensures Inv(DoStart(s, t))
  {
    var w, tail := s.runq[0], s.runq[1..];
    assert forall x :: x in s.runq <==> x == w || x in tail;
    assert w !in tail;
    var s' := DoStart(s, t);
    forall x | x in s'.running ensures x in s'.exited || exists u :: u in s'.executing && s'.executing[u] == x {
      if x == w {
        assert s'.executing[t] == w;
      } else if x !in s.exited {
        var u :| u in s.executing && s.executing[u] == x;
        assert s'.executing[u] == x;
      }
    }
  }

  lemma FinishInv(s: Sched, t: nat, dead: bool)
    requires Inv(s) && Enabled(s, Finish(t, dead))
    ensures Inv(DoFinish(s, t, dead))
  {
    RemoveKeeps(s.runq, s.executing[t]);
    RemoveKeeps(s.rerunq, s.executing[t]);
    FinishRunning(s, t, dead);
  }

  /** Who is running is still in its action or has exited. */
  lemma FinishRunning(s: Sched, t: nat, dead: bool)
    requires Inv(s) && Enabled(s, Finish(t, dead))
    ensures var s' := DoFinish(s, t, dead);
            forall x :: x in s'.running ==> x in s'.exited || exists u :: u in s'.executing && s'.executing[u] == x
  {
    var s' := DoFinish(s, t, dead);
    forall x | x in s'.running ensures x in s'.exited || exists u :: u in s'.executing && s'.executing[u] == x {
      if x !in s.exited {
        var u :| u in s.executing && s.executing[u] == x;
        assert s'.executing[u] == x;
      }
    }
  }

  lemma StepInv(s: Sched, st: Step)
    requires Inv(s) && Enabled(s, st)
    ensures Inv(Apply(s, st))
  {
    match st
    case Schedule(w) => ScheduleInv(s, w);
    case Deschedule(w) => CancelInv(s, w);
    case Exit(t) => ExitInv(s, t);
    case Start(t) => StartInv(s, t);
    case Finish(t, dead) => FinishInv(s, t, dead);
  }

  lemma {:induction false} RunInv(steps: seq<Step>, states: seq<Sched>, k: nat)
    requires IsRun(steps, states) && k <= |steps|
    ensures Inv(states[k])
  {
    if k > 0 {
      RunInv(steps, states, k - 1);
      StepInv(states[k - 1], steps[k - 1]);
    }
  }

  // ----- theorems -----

  /** ws_nscheduled counts both queues, no action runs on two workers at once, and the rerun queue holds only items
      that a worker is running right now. */
  lemma OneRunner(steps: seq<Step>, states: seq<Sched>, k: nat)
    requires IsRun(steps, states) && k <= |steps|
    ensures var s := states[k];
            && s.nscheduled == |s.runq| + |s.rerunq|
            && (forall t, u :: t in s.executing && u in s.executing && t != u ==> s.executing[t] != s.executing[u])
            && (forall w :: w in s.rerunq ==> exists t :: t in s.executing && s.executing[t] == w)
            && (forall w :: w in s.runq ==> forall t :: t in s.executing ==> s.executing[t] != w)
  {
    RunInv(steps, states, k);
  }

  /** An accepted schedule is cleared only by a start of the action, a deschedule or an exit of that item. */
  lemma ScheduleKept(steps: seq<Step>, states: seq<Sched>, k: nat, w: nat)
    requires IsRun(steps, states) && k < |steps| && Queued(states[k], w) && !Queued(states[k + 1], w)
    ensures match steps[k]
            case Start(t) => t in states[k + 1].executing && states[k + 1].executing[t] == w
            case Deschedule(x) => x == w
            case Exit(t) => t in states[k].executing && states[k].executing[t] == w
            case _ => false
  {
    RunInv(steps, states, k);
    var s, st := states[k], steps[k];
    if st.Start? {
      assert s.runq == [s.runq[0]] + s.runq[1..];
    } else if !st.Schedule? {
      var x := if st.Deschedule? then st.w else s.executing[st.worker];
      RemoveKeeps(s.runq, x);
      RemoveKeeps(s.rerunq, x);
    }
  }

  /** A schedule is accepted exactly when the item is not already pending, and then it is pending. */
  lemma ScheduleAccepted(steps: seq<Step>, states: seq<Sched>, k: nat, w: nat)
    requires IsRun(steps, states) && k < |steps| && steps[k] == Schedule(w)
    ensures Queued(states[k + 1], w)
    ensures states[k + 1].nscheduled == states[k].nscheduled + (if Queued(states[k], w) then 0 else 1)
    ensures w !in states[k].running && !Queued(states[k], w) ==> states[k + 1].runq == states[k].runq + [w]
  {
    RunInv(steps, states, k);
  }

  /** Starts among steps k to k' - 1. */
  function Starts(steps: seq<Step>, k: nat, k': nat): nat
    requires k <= k' <= |steps|
    decreases k' - k
  {
    if k == k' then 0 else (if steps[k].Start? then 1 else 0) + Starts(steps, k + 1, k')
  }

  lemma {:induction false} StillAhead(q: seq<nat>, x: nat, i: nat) returns (j: nat)
    requires i < |q| && q[i] != x
    ensures j <= i && j < |Remove(q, x)| && Remove(q, x)[j] == q[i]
  {
    if q[0] == x {
      j := i - 1;
    } else if i == 0 {
      j := 0;
    } else {
      var h := StillAhead(q[1..], x, i - 1);
      j := h + 1;
    }
  }

  /** A step that neither starts nor deschedules the item at place i of the run queue leaves it no further back, and
      nearer by one if it is a start. */
  lemma ComesNearer(s: Sched, st: Step, i: nat) returns (j: nat)
    requires Inv(s) && Enabled(s, st) && i < |s.runq| && st != Deschedule(s.runq[i]) && !(st.Start? && i == 0)
    ensures j <= (if st.Start? then i - 1 else i) && j < |Apply(s, st).runq| && Apply(s, st).runq[j] == s.runq[i]
  {
    j := if st.Start? then i - 1 else i;
    if st.Deschedule? && st.w in s.scheduled {
      j := StillAhead(s.runq, st.w, i);
    } else if st.Exit? || st.Finish? {
      RemoveKeeps(s.runq, s.executing[st.worker]);
    }
  }

  /** A pending item comes up: over any stretch of a run that does not deschedule it and has more starts than there are
      items before it, some worker starts it, whatever else is scheduled, descheduled or finished meanwhile. */
  lemma {:induction false} PendingComesUp(steps: seq<Step>, states: seq<Sched>, k: nat, k': nat, i: nat)
    returns (j: nat)
    requires IsRun(steps, states) && k <= k' <= |steps| && i < |states[k].runq| && Starts(steps, k, k') > i
    requires forall x :: k <= x < k' ==> steps[x] != Deschedule(states[k].runq[i])
    ensures k <= j < k' && steps[j].Start? && states[j].runq != [] && states[j].runq[0] == states[k].runq[i]
    ensures steps[j].worker in states[j + 1].executing && states[j + 1].executing[steps[j].worker] == states[k].runq[i]
    decreases k' - k
  {
    if steps[k].Start? && i == 0 {
      j := k;
    } else {
      RunInv(steps, states, k);
      var i' := ComesNearer(states[k], steps[k], i);
      j := PendingComesUp(steps, states, k + 1, k', i');
    }
  }

  lemma RerunComesUp(steps: seq<Step>, states: seq<Sched>, k: nat)
    requires IsRun(steps, states) && k < |steps| && steps[k].Finish?
    ensures var w := states[k].executing[steps[k].worker];
            w in states[k].rerunq ==>
              !steps[k].dead && states[k + 1].runq == states[k].runq + [w] && w !in states[k + 1].rerunq
  {
    RunInv(steps, states, k);
    var s, w := states[k], states[k].executing[steps[k].worker];
    RemoveKeeps(s.runq, w);
    RemoveKeeps(s.rerunq, w);
  }

  lemma ExitedStays(s: Sched, st: Step, w: nat)
    requires Inv(s) && Enabled(s, st) && w in s.exited && w in s.scheduled
    ensures w in Apply(s, st).exited && w in Apply(s, st).scheduled
  {
  }

  /** After its exit an item is never queued again, and keeps wi_scheduled set, which bars a schedule. */
  lemma {:induction false} ExitIsFinal(steps: seq<Step>, states: seq<Sched>, j: nat, k: nat, w: nat)
    requires IsRun(steps, states) && j < k <= |steps| && steps[j].Exit? && states[j].executing[steps[j].worker] == w
    ensures w in states[k].exited && w in states[k].scheduled && !Queued(states[k], w)
    decreases k
  {
    RunInv(steps, states, k);
    if k > j + 1 {
      ExitIsFinal(steps, states, j, k - 1, w);
      RunInv(steps, states, k - 1);
      ExitedStays(states[k - 1], steps[k - 1], w);
    }
  }

  /** Neither pending nor in its action. */
  predicate Quiet(s: Sched, w: nat) {
    !Queued(s, w) && forall t :: t in s.executing ==> s.executing[t] != w
  }

  lemma StaysQuiet(s: Sched, st: Step, w: nat)
    requires Inv(s) && Enabled(s, st) && Quiet(s, w) && st != Schedule(w)
    ensures Quiet(Apply(s, st), w)
  {
    if st.Deschedule? {
      RemoveKeeps(s.runq, st.w);
      RemoveKeeps(s.rerunq, st.w);
    } else if st.Exit? || st.Finish? {
      RemoveKeeps(s.runq, s.executing[st.worker]);
      RemoveKeeps(s.rerunq, s.executing[st.worker]);
    }
  }

  /** cfs_wi_deschedule answers 1 exactly when no worker is in the action; then the item is quiet, and stays so until
      somebody schedules it. */
  lemma {:induction false} DescheduleQuiets(steps: seq<Step>, states: seq<Sched>, j: nat, k: nat, w: nat)
    requires IsRun(steps, states) && j < k <= |steps| && steps[j] == Deschedule(w) && w !in states[j].running
    requires forall i :: j < i < k ==> steps[i] != Schedule(w)
    ensures Quiet(states[k], w)
  {
    RunInv(steps, states, k - 1);
    if k == j + 1 {
      CancelInv(states[j], w);
    } else {
      DescheduleQuiets(steps, states, j, k - 1, w);
      StaysQuiet(states[k - 1], steps[k - 1], w);
    }
  }

  // ----- the code, in place -----

  class WiSched {
    var runq: seq<nat>
    var rerunq: seq<nat>
    var nscheduled: int
    var scheduled: set<nat>
    var running: set<nat>
    ghost var executing: map<nat, nat>
    ghost var exited: set<nat>

    ghost function View(): Sched
      reads this
    {
      Sched(runq, rerunq, nscheduled, scheduled, running, executing, exited)
    }

    /** list_empty(&wi->wi_list) is false */
    predicate OnList(w: nat)
      reads this
    {
      w in runq || w in rerunq
    }

    constructor ()
      ensures View() == Init()
    {
      runq, rerunq, nscheduled, scheduled, running := [], [], 0, {}, {};
      executing, exited := map[], {};
    }

    method ListDel(w: nat)
      requires Inv(View()) && w in scheduled && w !in exited
      modifies this
      ensures View() == Cancelled(old(View()), w).(scheduled := old(scheduled))
    {
      assert OnList(w);
      nscheduled := nscheduled - 1;
      runq, rerunq := Remove(runq, w), Remove(rerunq, w);
    }

    /** cfs_wi_schedule */
    method ScheduleItem(w: nat)
      requires Inv(View()) && w !in exited
      modifies this
      ensures Inv(View()) && View() == DoSchedule(old(View()), w) && OnList(w)
    {
      ScheduleInv(View(), w);
      if w !in scheduled {
        scheduled := scheduled + {w};
        nscheduled := nscheduled + 1;
        if w !in running { runq := runq + [w]; } else { rerunq := [w] + rerunq; }
      }
    }

    /** cfs_wi_deschedule */
    method DescheduleItem(w: nat) returns (rc: bool)
      requires Inv(View()) && w !in exited
      modifies this
      ensures Inv(View()) && View() == Cancelled(old(View()), w) && !OnList(w)
      ensures rc <==> forall t :: t in old(executing) ==> old(executing)[t] != w
      ensures rc <==> Quiet(View(), w)
    {
      CancelInv(View(), w);
      rc := w !in running;
      if w in scheduled {
        ListDel(w);
        scheduled := scheduled - {w};
      }
    }

    /** cfs_wi_exit */
    method ExitItem(w: nat)
      requires Inv(View()) && w !in exited && w in running
      modifies this
      ensures View() == DoExit(old(View()), w) && !OnList(w)
    {
      CancelInv(View(), w);
      if w in scheduled { ListDel(w); }
      scheduled := scheduled + {w};
      exited := exited + {w};
    }

    /** The start of one iteration of cfs_wi_scheduler, by worker t. */
    method TakeItem(t: nat) returns (w: nat)
      requires Inv(View()) && t !in executing && runq != []
      modifies this
      ensures Inv(View()) && View() == DoStart(old(View()), t) && w == old(runq)[0]
    {
      StartInv(View(), t);
      w := runq[0];
      assert w in scheduled && w !in running && nscheduled > 0;
      runq := runq[1..];
      nscheduled := nscheduled - 1;
      running, scheduled := running + {w}, scheduled - {w};
      executing := executing[t := w];
    }

    /** The end of the iteration; rc is what the action returned. */
    method PutItem(t: nat, w: nat, rc: int)
      requires Inv(View()) && t in executing && executing[t] == w && (rc != 0 ==> w in exited)
      modifies this
      ensures Inv(View()) && View() == DoFinish(old(View()), t, rc != 0)
    {
      FinishInv(View(), t, rc != 0);
      executing := executing - {t};
      if rc != 0 { return; }
      running := running - {w};
      if !OnList(w) { return; }
      assert w in scheduled;
      runq, rerunq := Remove(runq, w), Remove(rerunq, w);
      runq := runq + [w];
    }
  }
}
