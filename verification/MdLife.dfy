/**
  The life of one memory descriptor (lib-md.c, lib-msg.c) under any number of messages and threads.  A step is a
  region under lnet_res_lock, or the return of an event handler, which runs without the lock.  A thread in
  lnet_md_wait_handling, and an unlink call that finds the handle gone, change nothing and have no step.
 */
module MdLife {
  import opened Common

  datatype Md = Md(refcount: int, threshold: int, zombie: bool, handling: bool, linked: bool, sizeOut: bool)

  /** What lnet_md_build fixes: LNET_UNLINK, whether there is a handler, and the operation threshold. */
  datatype Cfg = Cfg(autoUnlink: bool, handler: bool, threshold: int)

  predicate CfgOk(cfg: Cfg) {
    cfg.threshold >= THRESH_INF
  }

  /** lnet_md_exhausted */
  predicate Exhausted(md: Md) {
    UsedUp(md.threshold, md.sizeOut)
  }

  /** lnet_md_unlinkable */
  predicate Unlinkable(cfg: Cfg, md: Md) {
    md.refcount == 0 && (md.zombie || (cfg.autoUnlink && Exhausted(md)))
  }

  /** lnet_md_unlink: mark the MD, and free it unless an operation still holds it. */
  function UnlinkMd(md: Md): Md {
    md.(zombie := true, linked := md.refcount != 0 && md.linked)
  }

  /** lnet_msg_attach_md */
  function AttachMd(md: Md): Md {
    md.(refcount := md.refcount + 1, threshold := OneLess(md.threshold))
  }

  /** lnet_msg_attach_md as the last act of lnet_try_match_md, with the auto-unlink that may follow. */
  function MatchMd(cfg: Cfg, md: Md, sizeOut: bool): Md {
    var md' := AttachMd(md).(sizeOut := sizeOut);
    if cfg.autoUnlink && Exhausted(md') then UnlinkMd(md') else md'
  }

  /** The locked region of lnet_msg_detach_md. */
  function DetachMd(cfg: Cfg, md: Md): Md {
    var md' := md.(refcount := md.refcount - 1);
    if Unlinkable(cfg, md') then UnlinkMd(md') else md'.(handling := cfg.handler || md'.handling)
  }

  /**
    attached: the messages whose msg_md is this MD.  log: for each event, whether its unlinked field is set.
    running: the events whose handler has not returned yet.  ops: operations attached so far.  frees: calls of
    lnet_md_free.
   */
  datatype State = State(md: Md, attached: set<nat>, log: seq<bool>, running: set<nat>, ops: nat, frees: nat)

  datatype Step =
    | Attach(m: nat, holder: nat)     // LNetPut, LNetGet, ack, reply by handle; or next to a message that holds the MD
    | Match(m: nat, sizeOut: bool)    // lnet_try_match_md committed to the MD
    | Detach(m: nat)                  // lnet_msg_detach_md, once no handler is running
    | Return(ev: nat)                 // a handler returned
    | Unlink                          // __LNetMDUnlink past its wait loop

  predicate Enabled(cfg: Cfg, s: State, st: Step) {
    match st
    case Attach(m, holder) =>
      m !in s.attached && s.md.threshold != 0 && ((s.md.linked && !s.md.zombie) || holder in s.attached)
    case Match(m, sizeOut) =>
      m !in s.attached && s.md.linked && !s.md.zombie && !Exhausted(s.md)
    case Detach(m) => m in s.attached && !s.md.handling
    case Return(ev) => ev in s.running
    case Unlink => s.md.linked && !s.md.zombie && !(s.md.refcount == 0 && s.md.handling)
  }

  /** Report an event (if there is a handler) and account for a free. */
  function Report(cfg: Cfg, s: State, md: Md, attached: set<nat>, event: bool): State {
    var freed := s.md.linked && !md.linked;
    s.(md := md, attached := attached, frees := s.frees + if freed then 1 else 0,
       log := if event && cfg.handler then s.log + [freed] else s.log,
       running := if event && cfg.handler then s.running + {|s.log|} else s.running)
  }

  function Apply(cfg: Cfg, s: State, st: Step): State
    requires Enabled(cfg, s, st)
  {
    match st
    case Attach(m, _) => s.(md := AttachMd(s.md), attached := s.attached + {m}, ops := s.ops + 1)
    case Match(m, sizeOut) => s.(md := MatchMd(cfg, s.md, sizeOut), attached := s.attached + {m}, ops := s.ops + 1)
    case Detach(m) => Report(cfg, s, DetachMd(cfg, s.md), s.attached - {m}, true)
    case Return(ev) =>
      s.(running := s.running - {ev},
         md := if ev < |s.log| && !s.log[ev] then s.md.(handling := false) else s.md)
    case Unlink => Report(cfg, s, UnlinkMd(s.md), s.attached, s.md.refcount == 0)
  }

  function Init(cfg: Cfg): State {
    State(Md(0, cfg.threshold, false, false, true, false), {}, [], {}, 0, 0)
  }

  predicate IsRun(cfg: Cfg, steps: seq<Step>, states: seq<State>) {
    && |states| == |steps| + 1 && states[0] == Init(cfg)
    && forall k :: 0 <= k < |steps| ==>
         Enabled(cfg, states[k], steps[k]) && states[k + 1] == Apply(cfg, states[k], steps[k])
  }

  // ----- what every step keeps -----

  predicate Freed(s: State) {
    !s.md.linked
  }

  predicate Inv(cfg: Cfg, s: State) {
    && s.md.refcount == |s.attached| <= s.ops
    && (Freed(s) ==> s.md.zombie && s.attached == {} && !s.md.handling)
    && (s.md.zombie && s.attached == {} ==> Freed(s))
    && s.frees == (if Freed(s) then 1 else 0)
    && (cfg.threshold == THRESH_INF ==> s.md.threshold == THRESH_INF)
    && (cfg.threshold != THRESH_INF ==> s.md.threshold >= 0 && s.ops + s.md.threshold == cfg.threshold)
    && Logged(cfg, s)
    && (cfg.autoUnlink && Exhausted(s.md) && s.ops > 0 && s.attached == {} ==> Freed(s))
    && (s.md.sizeOut ==> s.ops > 0)
  }

  /** Every event but the last left the MD alive, the last is flagged iff the MD is freed, only the last event's
      handler can be running, and HANDLING is set exactly while the handler of an unflagged event runs. */
  predicate Logged(cfg: Cfg, s: State) {
    && (!cfg.handler ==> s.log == [])
    && (forall i :: 0 <= i < |s.log| - 1 ==> !s.log[i])
    && (cfg.handler ==> (Freed(s) <==> |s.log| > 0 && s.log[|s.log| - 1]))
    && s.running <= {|s.log| - 1}
    && (forall i :: i in s.running ==> i < |s.log|)
    && (s.md.handling <==> |s.log| - 1 in s.running && |s.log| > 0 && !s.log[|s.log| - 1])
  }

  lemma AttachInv(cfg: Cfg, s: State, m: nat, md: Md)
    requires CfgOk(cfg) && Inv(cfg, s) && m !in s.attached && s.md.threshold != 0 && !Freed(s)
    requires md == AttachMd(s.md) || exists sizeOut :: md == MatchMd(cfg, s.md, sizeOut)
    ensures Inv(cfg, s.(md := md, attached := s.attached + {m}, ops := s.ops + 1))
  {
    assert s.attached + {m} != {};
  }

  lemma DetachInv(cfg: Cfg, s: State, m: nat)
    requires CfgOk(cfg) && Inv(cfg, s) && Enabled(cfg, s, Detach(m))
    ensures Inv(cfg, Apply(cfg, s, Detach(m)))
  {
    var left := s.attached - {m};
    assert |left| == |s.attached| - 1 && (|left| == 0 <==> left == {});
    assert s.running == {} && !Freed(s);
    var log' := Apply(cfg, s, Detach(m)).log;
    assert cfg.handler ==> log'[..|log'| - 1] == s.log;
  }

  lemma ReturnInv(cfg: Cfg, s: State, ev: nat)
    requires Inv(cfg, s) && ev in s.running
    ensures Inv(cfg, Apply(cfg, s, Return(ev)))
  {
    assert s.running == {ev};
  }

  lemma UnlinkInv(cfg: Cfg, s: State)
    requires CfgOk(cfg) && Inv(cfg, s) && Enabled(cfg, s, Unlink)
    ensures Inv(cfg, Apply(cfg, s, Unlink))
  {
    assert s.md.refcount == 0 ==> s.running == {};
    var log' := Apply(cfg, s, Unlink).log;
    assert log' == s.log || log'[..|log'| - 1] == s.log;
  }

  lemma StepInv(cfg: Cfg, s: State, st: Step)
    requires CfgOk(cfg) && Inv(cfg, s) && Enabled(cfg, s, st)
    ensures Inv(cfg, Apply(cfg, s, st))
  {
    match st
    case Attach(m, _) => AttachInv(cfg, s, m, AttachMd(s.md));
    case Match(m, sizeOut) => AttachInv(cfg, s, m, MatchMd(cfg, s.md, sizeOut));
    case Detach(m) => DetachInv(cfg, s, m);
    case Return(ev) => ReturnInv(cfg, s, ev);
    case Unlink => UnlinkInv(cfg, s);
  }

  lemma {:induction false} RunInv(cfg: Cfg, steps: seq<Step>, states: seq<State>, k: nat)
    requires CfgOk(cfg) && IsRun(cfg, steps, states) && k <= |steps|
    ensures Inv(cfg, states[k])
  {
    if k > 0 {
      RunInv(cfg, steps, states, k - 1);
      StepInv(cfg, states[k - 1], steps[k - 1]);
    }
  }

  // ----- theorems over every run -----

  /** Over every run: an MD is freed at most once; a freed MD with a handler saw exactly one event with unlinked
      set, and that event was the last; before the free no event had it. */
  lemma OneUnlinkedEvent(cfg: Cfg, steps: seq<Step>, states: seq<State>, k: nat)
    requires CfgOk(cfg) && IsRun(cfg, steps, states) && k <= |steps|
    ensures states[k].frees <= 1 && (states[k].frees == 1 <==> Freed(states[k]))
    ensures cfg.handler ==>
              forall i :: 0 <= i < |states[k].log| ==>
                (states[k].log[i] <==> Freed(states[k]) && i == |states[k].log| - 1)
    ensures cfg.handler && Freed(states[k]) ==> states[k].log != []
  {
    RunInv(cfg, steps, states, k);
  }

  /** Handler calls never overlap, and none is still running when the MD is freed: at the step that frees it
      (or adds any event) no handler runs, the reference count is zero and HANDLING is clear. */
  lemma HandlersAlone(cfg: Cfg, steps: seq<Step>, states: seq<State>, k: nat)
    requires CfgOk(cfg) && IsRun(cfg, steps, states) && k < |steps|
    ensures |states[k].running| <= 1
    ensures states[k + 1].log != states[k].log ==>
              states[k].running == {} && states[k + 1].log[..|states[k].log|] == states[k].log
    ensures states[k + 1].frees != states[k].frees ==>
              states[k].running == {} && states[k + 1].md.refcount == 0 && !states[k + 1].md.handling &&
                states[k + 1].attached == {}
  {
    RunInv(cfg, steps, states, k);
    RunInv(cfg, steps, states, k + 1);
    var s := states[k];
    if s.running != {} { assert s.running == {|s.log| - 1}; }
    match steps[k]
    case Detach(m) => assert s.running == {};
    case Unlink => assert s.md.refcount == 0 ==> s.running == {};
    case _ =>
  }

  /** Nothing touches a freed MD: only the handler of its last event can still return. */
  lemma FreedIsFinal(cfg: Cfg, steps: seq<Step>, states: seq<State>, j: nat, k: nat)
    requires CfgOk(cfg) && IsRun(cfg, steps, states) && j <= k < |steps| && Freed(states[j])
    ensures Freed(states[k]) && steps[k].Return? && steps[k].ev == |states[j].log| - 1
    ensures states[k].log == states[j].log && states[k].md == states[j].md
    decreases k - j
  {
    if k > j { FreedIsFinal(cfg, steps, states, j, k - 1); }
    RunInv(cfg, steps, states, k);
    RunInv(cfg, steps, states, j);
  }

  /** A finite threshold admits that many operations and no more. */
  lemma ThresholdBounds(cfg: Cfg, steps: seq<Step>, states: seq<State>, k: nat)
    requires CfgOk(cfg) && IsRun(cfg, steps, states) && k <= |steps| && cfg.threshold != THRESH_INF
    ensures states[k].ops <= cfg.threshold && states[k].md.threshold == cfg.threshold - states[k].ops
    ensures |states[k].attached| <= cfg.threshold
    ensures k < |steps| && (steps[k].Attach? || steps[k].Match?) ==> states[k].ops < cfg.threshold
  {
    RunInv(cfg, steps, states, k);
    if k < |steps| { RunInv(cfg, steps, states, k + 1); }
  }

  /** An unlinked MD is not forgotten: it is freed at once or some operation still holds it, and then either a
      handler is running or every holder may detach.  An exhausted auto-unlink MD whose operations are done is
      gone. */
  lemma UnlinkCompletes(cfg: Cfg, steps: seq<Step>, states: seq<State>, k: nat)
    requires CfgOk(cfg) && IsRun(cfg, steps, states) && k <= |steps|
    ensures states[k].md.zombie && !Freed(states[k]) ==> states[k].attached != {}
    ensures cfg.autoUnlink && Exhausted(states[k].md) && states[k].ops > 0 && states[k].attached == {} ==>
              Freed(states[k])
    ensures states[k].md.handling ==> exists ev :: ev in states[k].running && Enabled(cfg, states[k], Return(ev))
    ensures !states[k].md.handling ==> forall m :: m in states[k].attached ==> Enabled(cfg, states[k], Detach(m))
  {
    RunInv(cfg, steps, states, k);
  }

  lemma {:induction false} ZombieStays(cfg: Cfg, steps: seq<Step>, states: seq<State>, j: nat, k: nat)
    requires CfgOk(cfg) && IsRun(cfg, steps, states) && j <= k <= |steps| && states[j].md.zombie
    ensures states[k].md.zombie
    decreases k
  {
    if j < k { ZombieStays(cfg, steps, states, j, k - 1); }
  }

  /** A match marks the MD at once exactly if it exhausts an auto-unlink one. */
  lemma MatchMarks(cfg: Cfg, steps: seq<Step>, states: seq<State>, k: nat)
    requires CfgOk(cfg) && IsRun(cfg, steps, states) && k < |steps| && steps[k].Match?
    ensures states[k + 1].md.zombie <==> cfg.autoUnlink && (states[k + 1].md.threshold == 0 || steps[k].sizeOut)
    ensures states[k + 1].md.refcount == states[k].md.refcount + 1 && !Freed(states[k + 1])
  {
    RunInv(cfg, steps, states, k);
  }

  /** From the moment it is marked no message is matched to the MD, nobody finds it by its handle, and it is not
      unlinked again; only a message that holds it may still be joined by another. */
  lemma MarkedIsClosed(cfg: Cfg, steps: seq<Step>, states: seq<State>, j: nat, k: nat)
    requires CfgOk(cfg) && IsRun(cfg, steps, states) && j <= k < |steps| && states[j].md.zombie
    ensures !steps[k].Match? && !steps[k].Unlink? && (steps[k].Attach? ==> steps[k].holder in states[k].attached)
  {
    ZombieStays(cfg, steps, states, j, k);
  }

  /** How an explicit unlink is reported: with no operation pending, by an event before the call returns;
      otherwise by the event of the last operation to complete. */
  lemma UnlinkReport(cfg: Cfg, s: State, st: Step)
    requires CfgOk(cfg) && cfg.handler && Inv(cfg, s) && Enabled(cfg, s, st)
    ensures st.Unlink? && s.attached == {} ==> Apply(cfg, s, st).log == s.log + [true] && Freed(Apply(cfg, s, st))
    ensures st.Unlink? && s.attached != {} ==> Apply(cfg, s, st).log == s.log && Apply(cfg, s, st).md.zombie
    ensures st.Detach? && s.md.zombie ==> Apply(cfg, s, st).log == s.log + [s.attached == {st.m}]
  {
    if st.Detach? && s.md.zombie {
      var left := s.attached - {st.m};
      assert left == {} <==> s.attached == {st.m};
      assert |left| == |s.attached| - 1 && (|left| == 0 <==> left == {});
    }
  }

  // ----- the code, in place -----

  class LibMd {
    const cfg: Cfg
    var refcount: int
    var threshold: int
    var zombie: bool
    var handling: bool
    var linked: bool    // on rec_active; lnet_md_free follows its removal
    var sizeOut: bool

    constructor (cfg: Cfg)
      ensures this.cfg == cfg && View() == Init(cfg).md
    {
      this.cfg, refcount, threshold := cfg, 0, cfg.threshold;
      zombie, handling, linked, sizeOut := false, false, true, false;
    }

    function View(): Md
      reads this
    {
      Md(refcount, threshold, zombie, handling, linked, sizeOut)
    }

    /** lnet_md_unlink; its assertions are the preconditions. */
    method MdUnlink()
      requires refcount == 0 ==> linked && !handling
      modifies this`zombie, this`linked
      ensures View() == UnlinkMd(old(View()))
    {
      if !zombie { zombie := true; }
      if refcount != 0 { return; }
      linked := false;
    }

    /** lnet_msg_attach_md */
    method MsgAttach()
      requires threshold != 0 && threshold >= THRESH_INF
      modifies this`refcount, this`threshold
      ensures View() == AttachMd(old(View()))
    {
      refcount := refcount + 1;
      if threshold != THRESH_INF {
        threshold := threshold - 1;
      }
    }

    /** The end of lnet_try_match_md; the new offset decides whether max_size still fits. */
    method TryMatchCommit(sizeOut': bool)
      requires refcount >= 0 && threshold != 0 && threshold >= THRESH_INF
      modifies this
      ensures View() == MatchMd(cfg, old(View()), sizeOut')
    {
      MsgAttach();
      sizeOut := sizeOut';
      if Exhausted(View()) {
        if cfg.autoUnlink { MdUnlink(); }
      }
    }

    /** The locked region of lnet_msg_detach_md: the event it reports, if any. */
    method MsgDetach() returns (event: bool, unlinked: bool)
      requires refcount > 0 && !handling && linked
      modifies this
      ensures View() == DetachMd(cfg, old(View()))
      ensures event == cfg.handler && (unlinked <==> !linked)
    {
      refcount := refcount - 1;
      unlinked := Unlinkable(cfg, View());
      event := cfg.handler;
      if cfg.handler && !unlinked { handling := true; }
      if unlinked { MdUnlink(); }
    }

    /** After the handler, for an event that left the MD alive. */
    method HandlerDone()
      requires linked
      modifies this`handling
      ensures View() == old(View()).(handling := false)
    {
      handling := false;
    }

    /** __LNetMDUnlink past its wait loop: whether it reports an event of its own. */
    method Unlink() returns (event: bool)
      requires linked && !(refcount == 0 && handling)
      modifies this`zombie, this`linked
      ensures View() == UnlinkMd(old(View())) && event == (cfg.handler && refcount == 0)
    {
      event := cfg.handler && refcount == 0;
      MdUnlink();
    }
  }

  /** In every state of every run the methods may be called as the steps call them: the assertions in
      lnet_msg_attach_md, lnet_msg_detach_md and lnet_md_unlink hold. */
  lemma AssertionsHold(cfg: Cfg, steps: seq<Step>, states: seq<State>, k: nat)
    requires CfgOk(cfg) && IsRun(cfg, steps, states) && k < |steps|
    ensures steps[k].Attach? || steps[k].Match? ==>
              states[k].md.linked && states[k].md.threshold >= THRESH_INF && states[k].md.threshold != 0
    ensures steps[k].Detach? ==> states[k].md.refcount > 0 && !states[k].md.handling && states[k].md.linked
    ensures steps[k].Return? ==> steps[k].ev < |states[k].log|
    ensures steps[k].Return? && !states[k].log[steps[k].ev] ==> states[k].md.linked && states[k].md.handling
    ensures steps[k].Unlink? && states[k].md.refcount == 0 ==> !states[k].md.handling
  {
    RunInv(cfg, steps, states, k);
  }
}
