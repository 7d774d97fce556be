/**
  The whole portal as a step machine (lib-ptl.c): any number of CPTs, messages, match walkers and
  attaching threads.  A region under lnet_ptl_lock is one step, except that the move of a message
  from the stealing to the delayed list is two steps (WalkVisit, MoveEnd), because the unlocked
  emptiness test of lnet_ptl_attach_md (AttachTest) can fall between them.
 */
module Portal {
  import opened Common
  import opened MatchTable

  datatype Kind = Unset | Unique | Wildcard

  /** What never changes: the number of CPTs, the hash functions and what each message asks for. */
  datatype Cfg = Cfg(n: nat, cptOfNid: nat -> nat, hash: (bv64, nat, nat) -> nat, info: nat -> Info)

  ghost predicate CfgOk(cfg: Cfg) {
    && cfg.n >= 1
    && (forall nid :: cfg.cptOfNid(nid) < cfg.n)
    && (forall b, nid, pid :: cfg.hash(b, nid, pid) < HASH_SIZE)
  }

  /** Who holds lnet_res_lock(cpt) between steps. */
  datatype Holder = Free | Attaching(pos: nat, k: nat, tested: bool) | Moving

  datatype Phase =
    | Walking(first: nat, i: nat, go: bool)  // in lnet_ptl_match_delay
    | Parking                                // between the two lists
    | Parked                                 // on ptl_msg_delayed
    | Done(ok: bool)                         // LNET_MATCHMD_OK or LNET_MATCHMD_DROP

  datatype State = State(
    kind: Kind, lazy: bool, tabs: seq<Table>, hold: seq<Holder>, maps: seq<nat>,
    stealing: seq<nat>, delayed: seq<nat>, mover: Option<nat>,
    phase: map<nat, Phase>, got: map<nat, nat>, born: set<nat>, racy: set<(nat, nat, nat)>)

  datatype Step =
    | SetKind(unique: bool)
    | MeAttach(c: nat, me: Me, front: bool)
    | AttachBegin(c: nat, pos: nat, k: nat, md: Md)
    | AttachTest(c: nat)
    | AttachLocked(c: nat)
    | MdUnlink(c: nat, pos: nat, k: nat)
    | MatchEarly(m: nat, ready: bool)
    | MatchFirst(m: nat, c: nat, first: nat, ready: bool)
    | WalkPeek(m: nat)
    | WalkVisit(m: nat)
    | MoveEnd(c: nat)
    | SetLazy
    | ClearLazy(dropped: set<nat>, off: bool)

  // ----- placement -----

  function Bucket(mbits: bv64): (r: nat)
    ensures r < HASH_SIZE
  {
    var b := mbits & 0xff;
    assert b <= 0xff;
    b as nat
  }

  /** lnet_mt_match_head */
  function Head(cfg: Cfg, kind: Kind, mbits: bv64, nid: nat, pid: nat): nat {
    if kind == Wildcard then Bucket(mbits) else cfg.hash(mbits, nid, pid)
  }

  predicate UniqueMe(me: Me) {
    me.ignore == 0 && me.nid.Only? && me.pid.Only?
  }

  /** The list LNetMEAttach chooses. */
  function HomePos(cfg: Cfg, kind: Kind, me: Me): nat {
    if me.ignore != 0 then IGNORE_LIST
    else Head(cfg, kind, me.mbits, if me.nid.Only? then me.nid.v else 0, if me.pid.Only? then me.pid.v else 0)
  }

  /** lnet_match2mt: the one table of a unique portal, or of a single-CPT system, for this nid. */
  function HomeCpt(cfg: Cfg, nid: nat): nat {
    if cfg.n == 1 then 0 else cfg.cptOfNid(nid)
  }

  // ----- ptl_mt_maps -----

  function Insert(maps: seq<nat>, c: nat): seq<nat> {
    if maps == [] then [c]
    else if maps[|maps| - 1] < c then maps + [c]
    else Insert(maps[..|maps| - 1], c) + [maps[|maps| - 1]]
  }

  ghost predicate Ascending(maps: seq<nat>) {
    forall i, j :: 0 <= i < j < |maps| ==> maps[i] < maps[j]
  }

  // ----- sweeping the blocked messages past a new MD (lnet_ptl_attach_md) -----

  datatype Sweep = Sweep(left: seq<Me>, taken: map<nat, bool>, rest: seq<nat>, exhausted: bool)

  function SweepMsgs(info: nat -> Info, me: Me, md: Md, msgs: seq<nat>): (r: Sweep)
    ensures !r.exhausted ==> |r.left| == 1 && r.left[0].md.Some?
    decreases |msgs|
  {
    if msgs == [] then Sweep([me.(md := Some(md))], map[], [], false)
    else
      var m := msgs[0];
      match TryMatch(me, md, info(m))
      case Miss(x) =>
        if x then Sweep([me.(md := Some(md))], map[], msgs, true)
        else
          var s := SweepMsgs(info, me, md, msgs[1..]);
          s.(rest := [m] + s.rest)
      case Drop =>
        var s := SweepMsgs(info, me, md, msgs[1..]);
        s.(taken := map[m := false] + s.taken)
      case Ok(x) =>
        if x then Sweep(AfterOk(me, md, info(m)), map[m := true], msgs[1..], true)
        else
          var s := SweepMsgs(info, me, Committed(md, info(m)), msgs[1..]);
          s.(taken := map[m := true] + s.taken)
  }

  // ----- steps -----

  /** (first + i) % LNET_CPT_NUMBER, for first and i below that number (see CptIsMod). */
  function Cpt(cfg: Cfg, first: nat, i: nat): (c: nat)
    requires first < cfg.n && i < cfg.n
    ensures c < cfg.n
  {
    if first + i < cfg.n then first + i else first + i - cfg.n
  }

  predicate Shape(cfg: Cfg, s: State) {
    && cfg.n >= 1 && |s.tabs| == cfg.n && |s.hold| == cfg.n
    && (forall c :: 0 <= c < cfg.n ==> TableShape(s.tabs[c]))
    && (forall c :: 0 <= c < cfg.n && s.hold[c].Attaching? ==>
          && s.hold[c].pos < NLISTS
          && s.hold[c].k < |s.tabs[c].mhash[s.hold[c].pos]|
          && s.tabs[c].mhash[s.hold[c].pos][s.hold[c].k].md.Some?)
  }

  function SetMe(t: Table, pos: nat, k: nat, with: seq<Me>): Table
    requires TableShape(t) && pos < NLISTS && k < |t.mhash[pos]|
  {
    t.(mhash := t.mhash[pos := t.mhash[pos][..k] + with + t.mhash[pos][k + 1..]])
  }

  /** Store the result of lnet_mt_match_md at cpt, disabling the table if it reported EXHAUSTED. */
  function PutFound(cfg: Cfg, s: State, c: nat, f: Found): State
    requires c < |s.tabs|
  {
    if f.exhausted && f.table.enabled && cfg.n > 1
    then s.(tabs := s.tabs[c := f.table.(enabled := false)], maps := Remove(s.maps, c))
    else s.(tabs := s.tabs[c := f.table])
  }

  function MatchAt(cfg: Cfg, s: State, c: nat, m: nat): Found
    requires CfgOk(cfg) && Shape(cfg, s) && c < cfg.n
  {
    var info := cfg.info(m);
    MtMatch(s.kind == Wildcard, s.tabs[c], Head(cfg, s.kind, info.mbits, info.nid, info.pid), info)
  }

  function Finish(s: State, m: nat, hit: Hit): State {
    s.(phase := s.phase[m := Done(hit.ok)], got := if hit.ok then s.got[m := hit.md] else s.got)
  }

  /** The rest of lnet_ptl_match_md after the first table was tried. */
  function FirstVerdict(cfg: Cfg, s: State, hit: Option<Hit>, m: nat, first: nat, ready: bool): State {
    if hit.Some? then Finish(s, m, hit.value)
    else if cfg.info(m).get || !s.lazy then s.(phase := s.phase[m := Done(false)])
    else if !ready then s
    else if s.kind == Unique || cfg.n == 1 then s.(delayed := s.delayed + [m], phase := s.phase[m := Parked])
    else s.(phase := s.phase[m := Walking(first, 0, true)])
  }

  function DoMatchFirst(cfg: Cfg, s: State, m: nat, c: nat, first: nat, ready: bool): State
    requires CfgOk(cfg) && Shape(cfg, s) && c < cfg.n
  {
    var f := MatchAt(cfg, s, c, m);
    FirstVerdict(cfg, PutFound(cfg, s, c, f), f.hit, m, first, ready)
  }

  /** The rest of one locked iteration of lnet_ptl_match_delay after table c was tried; the message is on
      the stealing list. */
  function WalkVerdict(cfg: Cfg, s: State, hit: Option<Hit>, m: nat, c: nat, first: nat, i: nat): State
    requires c < |s.hold|
  {
    var s2 := s.(stealing := Remove(s.stealing, m));
    if hit.Some? then Finish(s2, m, hit.value)
    else if !s.lazy then s2.(phase := s2.phase[m := Done(false)])
    else if i == cfg.n - 1 || s.maps == [] || s.maps == [c] then
      s2.(phase := s2.phase[m := Parking], mover := Some(m), hold := s2.hold[c := Moving])
    else s.(phase := s.phase[m := Walking(first, i + 1, false)])
  }

  function DoWalkVisit(cfg: Cfg, s: State, m: nat, first: nat, i: nat): State
    requires CfgOk(cfg) && Shape(cfg, s) && first < cfg.n && i < cfg.n
  {
    var c := Cpt(cfg, first, i);
    var s0 := if i == 0 then s.(stealing := s.stealing + [m]) else s;
    if m !in s0.stealing then s0.(phase := s0.phase[m := Done(m in s.got)])
    else
      var f := MatchAt(cfg, s0, c, m);
      WalkVerdict(cfg, PutFound(cfg, s0, c, f), f.hit, m, c, first, i)
  }

  /** The entry whose attach is in progress at c. */
  function NewMe(cfg: Cfg, s: State, c: nat): (me: Me)
    requires Shape(cfg, s) && c < cfg.n && s.hold[c].Attaching?
    ensures me.md.Some?
  {
    s.tabs[c].mhash[s.hold[c].pos][s.hold[c].k]
  }

  /** What the unlocked test of lnet_ptl_attach_md asks: no blocked message in sight, and no bit to clear. */
  predicate SeesNothing(cfg: Cfg, s: State, c: nat)
    requires Shape(cfg, s) && c < cfg.n && s.hold[c].Attaching?
  {
    s.stealing == [] && s.delayed == [] && !(s.kind == Wildcard && s.tabs[c].spent[s.hold[c].pos])
  }

  /** The test at c would see nothing to do although a message that the new MD takes is between the two lists. */
  predicate LostLook(cfg: Cfg, s: State, c: nat) {
    && Shape(cfg, s) && c < cfg.n && s.hold[c].Attaching? && SeesNothing(cfg, s, c)
    && s.mover.Some? && Takes(NewMe(cfg, s, c), cfg.info(s.mover.value))
  }

  /** The history variable racy records message, CPT and MD of every lost look. */
  function DoAttachTest(cfg: Cfg, s: State, c: nat): State
    requires Shape(cfg, s) && c < cfg.n && s.hold[c].Attaching?
  {
    if SeesNothing(cfg, s, c) then
      s.(hold := s.hold[c := Free],
         racy := if LostLook(cfg, s, c) then s.racy + {(s.mover.value, c, NewMe(cfg, s, c).md.value.id)} else s.racy)
    else s.(hold := s.hold[c := s.hold[c].(tested := true)])
  }

  /** The two list loops of lnet_ptl_attach_md: stealing first, then delayed unless already exhausted. */
  function SweepBoth(cfg: Cfg, s: State, me: Me, md: Md): (Sweep, Sweep) {
    var a := SweepMsgs(cfg.info, me, md, s.stealing);
    if a.exhausted then (a, Sweep(a.left, map[], s.delayed, true))
    else (a, SweepMsgs(cfg.info, a.left[0], a.left[0].md.value, s.delayed))
  }

  function Oks(taken: map<nat, bool>, md: nat): map<nat, nat> {
    map m | m in taken && taken[m] :: md
  }

  function Dones(taken: map<nat, bool>): map<nat, Phase> {
    map m | m in taken :: Done(taken[m])
  }

  function DoAttachLocked(cfg: Cfg, s: State, c: nat): State
    requires Shape(cfg, s) && c < cfg.n && s.hold[c].Attaching?
  {
    var h, t := s.hold[c], s.tabs[c];
    var me := t.mhash[h.pos][h.k];
    var (a, b) := SweepBoth(cfg, s, me, me.md.value);
    var t1 := SetMe(t, h.pos, h.k, b.left);
    var s1 := s.(stealing := a.rest, delayed := b.rest, hold := s.hold[c := Free],
                 got := s.got + Oks(a.taken, me.md.value.id) + Oks(b.taken, me.md.value.id),
                 phase := s.phase + Dones(b.taken));
    if s.kind == Wildcard && !b.exhausted then
      s1.(tabs := s.tabs[c := t1.(spent := t1.spent[h.pos := false], enabled := true)],
          maps := if t.enabled then s.maps else Insert(s.maps, c))
    else s1.(tabs := s.tabs[c := t1])
  }

  function DoMeAttach(cfg: Cfg, s: State, c: nat, me: Me, front: bool): State
    requires CfgOk(cfg) && Shape(cfg, s) && c < cfg.n
  {
    var p := HomePos(cfg, s.kind, me);
    var l := s.tabs[c].mhash[p];
    s.(tabs := s.tabs[c := s.tabs[c].(mhash := s.tabs[c].mhash[p := if front then [me] + l else l + [me]])])
  }

  function DoAttachBegin(cfg: Cfg, s: State, c: nat, pos: nat, k: nat, md: Md): State
    requires Shape(cfg, s) && c < cfg.n && pos < NLISTS && k < |s.tabs[c].mhash[pos]|
  {
    s.(tabs := s.tabs[c := SetMe(s.tabs[c], pos, k, [s.tabs[c].mhash[pos][k].(md := Some(md))])],
       hold := s.hold[c := Attaching(pos, k, false)], born := s.born + {md.id})
  }

  /** The second half of the move: the message comes to the delayed list. */
  function DoMoveEnd(s: State, c: nat): State
    requires c < |s.hold| && s.mover.Some?
  {
    s.(delayed := s.delayed + [s.mover.value], phase := s.phase[s.mover.value := Parked],
       mover := None, hold := s.hold[c := Free])
  }

  function DoMdUnlink(cfg: Cfg, s: State, c: nat, pos: nat, k: nat): State
    requires Shape(cfg, s) && c < cfg.n && pos < NLISTS && k < |s.tabs[c].mhash[pos]|
  {
    var me := s.tabs[c].mhash[pos][k];
    s.(tabs := s.tabs[c := SetMe(s.tabs[c], pos, k, if me.unlink then [] else [me.(md := None)])])
  }

  function DropMsgs(l: seq<nat>, dropped: set<nat>): seq<nat> {
    if l == [] then [] else if l[0] in dropped then DropMsgs(l[1..], dropped)
    else [l[0]] + DropMsgs(l[1..], dropped)
  }

  predicate AllFree(s: State) {
    s.mover.None? && forall c :: 0 <= c < |s.hold| ==> s.hold[c].Free?
  }

  predicate Walks(cfg: Cfg, s: State, m: nat) {
    m in s.phase && s.phase[m].Walking? && s.phase[m].first < cfg.n && s.phase[m].i < cfg.n
  }

  ghost predicate Enabled(cfg: Cfg, s: State, st: Step)
    requires CfgOk(cfg)
  {
    && Shape(cfg, s)
    && match st
       case SetKind(_) => s.kind == Unset && s.mover.None?
       case MeAttach(c, me, _) =>
         && s.kind != Unset && c < cfg.n && s.hold[c].Free? && me.md.None?
         && (s.kind == Unique <==> UniqueMe(me))
         && (s.kind == Unique ==> c == HomeCpt(cfg, me.nid.v))
       case AttachBegin(c, pos, k, md) =>
         && c < cfg.n && s.hold[c].Free? && pos < NLISTS && k < |s.tabs[c].mhash[pos]|
         && s.tabs[c].mhash[pos][k].md.None? && md.refcount == 0 && md.id !in s.born
       case AttachTest(c) => c < cfg.n && s.hold[c].Attaching? && !s.hold[c].tested
       case AttachLocked(c) => c < cfg.n && s.hold[c].Attaching? && s.hold[c].tested && s.mover.None?
       case MdUnlink(c, pos, k) =>
         && c < cfg.n && s.hold[c].Free? && pos < NLISTS && k < |s.tabs[c].mhash[pos]|
         && s.tabs[c].mhash[pos][k].md.Some?
       case MatchEarly(m, ready) => s.kind == Unset && m !in s.phase && s.mover.None? && (ready ==> !cfg.info(m).get)
       case MatchFirst(m, c, first, ready) =>
         && s.kind != Unset && m !in s.phase && c < cfg.n && first < cfg.n && s.hold[c].Free?
         && (s.kind == Unique || cfg.n == 1 ==> c == HomeCpt(cfg, cfg.info(m).nid) && s.mover.None?)
         && (MatchAt(cfg, s, c, m).exhausted && s.tabs[c].enabled ==> s.mover.None?)
       case WalkPeek(m) => Walks(cfg, s, m) && !s.phase[m].go
       case WalkVisit(m) =>
         && Walks(cfg, s, m) && s.phase[m].go && s.mover.None?
         && s.hold[Cpt(cfg, s.phase[m].first, s.phase[m].i)].Free?
       case MoveEnd(c) => c < cfg.n && s.hold[c].Moving? && s.mover.Some?
       case SetLazy => AllFree(s)
       case ClearLazy(dropped, off) =>
         AllFree(s) && s.lazy && (forall m :: m in dropped ==> m in s.delayed) &&
           (off ==> forall m :: m in s.delayed ==> m in dropped)
  }

  function Apply(cfg: Cfg, s: State, st: Step): State
    requires CfgOk(cfg) && Enabled(cfg, s, st)
  {
    match st
    case SetKind(u) => s.(kind := if u then Unique else Wildcard)
    case MeAttach(c, me, front) => DoMeAttach(cfg, s, c, me, front)
    case AttachBegin(c, pos, k, md) => DoAttachBegin(cfg, s, c, pos, k, md)
    case AttachTest(c) => DoAttachTest(cfg, s, c)
    case AttachLocked(c) => DoAttachLocked(cfg, s, c)
    case MdUnlink(c, pos, k) => DoMdUnlink(cfg, s, c, pos, k)
    case MatchEarly(m, ready) =>
      if !s.lazy then s.(phase := s.phase[m := Done(false)])
      else if ready then s.(delayed := s.delayed + [m], phase := s.phase[m := Parked])
      else s
    case MatchFirst(m, c, first, ready) => DoMatchFirst(cfg, s, m, c, first, ready)
    case WalkPeek(m) =>
      var p := s.phase[m];
      if p.i >= cfg.n - 1 || s.tabs[Cpt(cfg, p.first, p.i)].enabled
      then s.(phase := s.phase[m := p.(go := true)])
      else s.(phase := s.phase[m := p.(i := p.i + 1)])
    case WalkVisit(m) => DoWalkVisit(cfg, s, m, s.phase[m].first, s.phase[m].i)
    case MoveEnd(c) => DoMoveEnd(s, c)
    case SetLazy => s.(lazy := true)
    case ClearLazy(dropped, off) =>
      s.(delayed := DropMsgs(s.delayed, dropped), lazy := !off,
         phase := s.phase + Dones(map m | m in dropped :: false))
  }

  /** lnet_ptl_setup: empty lists, all exhausted bits set, nothing enabled. */
  function Init(cfg: Cfg): State {
    State(Unset, false,
          seq(cfg.n, c => Table(seq(NLISTS, p => []), seq(NLISTS, p => true), false)),
          seq(cfg.n, c => Free), [], [], [], None, map[], map[], {}, {})
  }

  /** The states after each prefix of a schedule. */
  ghost predicate IsRun(cfg: Cfg, steps: seq<Step>, states: seq<State>)
    requires CfgOk(cfg)
  {
    && |states| == |steps| + 1 && states[0] == Init(cfg)
    && forall k :: 0 <= k < |steps| ==>
         Enabled(cfg, states[k], steps[k]) && states[k + 1] == Apply(cfg, states[k], steps[k])
  }

  ghost predicate Reachable(cfg: Cfg, s: State)
    requires CfgOk(cfg)
  {
    exists steps, states :: IsRun(cfg, steps, states) && s == states[|steps|]
  }
}
