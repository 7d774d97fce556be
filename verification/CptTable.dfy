/**
  Building the CPU partition table (libcfs_cpu.c): the online CPUs, given by the masks of the NUMA nodes, are dealt
  out to partitions of as equal a size as can be, preferring CPUs of one core and one socket.  A cpumask is a set.
 */
module CptTable {
  import opened Common

  // ----- cpumask_first -----

  lemma {:induction false} Least(s: set<nat>) returns (x: nat)
    requires s != {}
    ensures x in s && forall y :: y in s ==> x <= y
  {
    x :| x in s;
    var rest := s - {x};
    assert forall y :: y in s ==> y == x || y in rest;
    if rest != {} {
      var z := Least(rest);
      if z < x { x := z; }
    }
  }

  lemma HasFirst(s: set<nat>)
    requires s != {}
    ensures exists x :: x in s && forall y :: y in s ==> x <= y
  {
    var x := Least(s);
  }

  function First(s: set<nat>): (x: nat)
    requires s != {}
    ensures x in s && forall y :: y in s ==> x <= y
  {
    HasFirst(s);
    var x :| x in s && forall y :: y in s ==> x <= y;
    x
  }

  /** What a choice of CPUs for one partition did to the node's mask: the online CPUs it took out are the ones added,
      no more than asked for, and fewer only if the mask is used up. */
  predicate Taken(online: set<nat>, mask: set<nat>, mask': set<nat>, added: set<nat>, number: nat) {
    && mask' <= mask && added == (mask - mask') * online
    && |added| <= number && (|added| == number || mask' == {})
  }

  /** topology_sibling_cpumask and topology_core_cpumask: every CPU is in its own. */
  datatype Topology = Topology(siblings: nat -> set<nat>, socket: nat -> set<nat>)

  ghost predicate TopologyOk(top: Topology) {
    forall c :: c in top.siblings(c) && c in top.socket(c)
  }

  // ----- cores and sockets stay together -----

  /** The cores and the sockets partition the CPUs, and a core is in one socket. */
  ghost predicate Partitioned(top: Topology) {
    Classes(top.siblings) && Classes(top.socket) && forall c :: top.siblings(c) <= top.socket(c)
  }

  ghost predicate Classes(rel: nat -> set<nat>) {
    (forall c :: c in rel(c)) && forall c, d :: d in rel(c) ==> rel(d) == rel(c)
  }

  /** What went from mask0 to leave mask are whole classes. */
  ghost predicate WholeOnly(rel: nat -> set<nat>, mask0: set<nat>, mask: set<nat>) {
    forall c, d :: c in mask0 && c !in mask && d in mask ==> d !in rel(c)
  }

  /** At most the class of x was split. */
  ghost predicate SplitsOnly(rel: nat -> set<nat>, mask0: set<nat>, mask: set<nat>, x: nat) {
    forall c, d :: c in mask0 && c !in mask && d in mask && d in rel(c) ==> c in rel(x) && d in rel(x)
  }

  lemma ClassGone(rel: nat -> set<nat>, mask0: set<nat>, mask: set<nat>, x: nat)
    requires Classes(rel) && mask == mask0 - rel(x)
    ensures WholeOnly(rel, mask0, mask)
  {
  }

  lemma ClassPart(rel: nat -> set<nat>, mask0: set<nat>, mask: set<nat>, x: nat)
    requires Classes(rel) && mask0 - mask <= rel(x)
    ensures SplitsOnly(rel, mask0, mask, x)
  {
    forall c, d | c in mask0 && c !in mask && d in mask && d in rel(c) ensures c in rel(x) && d in rel(x) {
      assert c in mask0 - mask;
    }
  }

  lemma WholeThen(rel: nat -> set<nat>, mask0: set<nat>, mask1: set<nat>, mask: set<nat>, x: nat)
    requires WholeOnly(rel, mask0, mask1) && mask <= mask1 <= mask0
    ensures WholeOnly(rel, mask1, mask) ==> WholeOnly(rel, mask0, mask)
    ensures SplitsOnly(rel, mask1, mask, x) ==> SplitsOnly(rel, mask0, mask, x)
  {
  }

  /** The masks of a table: cpt_cpumask of each partition, ctb_cpumask, ctb_cpu2cpt. */
  datatype Masks = Masks(parts: seq<set<nat>>, cpumask: set<nat>, cpu2cpt: seq<int>)

  /** Each CPU is in at most one partition, which cpu2cpt names, and cpumask has those that are in one. */
  ghost predicate Consistent(nr: nat, online: set<nat>, t: Masks) {
    && |t.cpu2cpt| == nr && (forall c :: c in online ==> c < nr)
    && (forall i: nat, c: nat :: i < |t.parts| && c in t.parts[i] ==> c in online && t.cpu2cpt[c] == i)
    && (forall c: nat :: c < nr && t.cpu2cpt[c] != -1 ==> 0 <= t.cpu2cpt[c] < |t.parts| && c in t.parts[t.cpu2cpt[c]])
    && t.cpumask <= online && (forall c: nat :: c < nr ==> (c in t.cpumask <==> t.cpu2cpt[c] != -1))
  }

  /** The CPUs of added went to partition cpt, and nothing else changed. */
  predicate Added(t0: Masks, t: Masks, cpt: nat, added: set<nat>) {
    && cpt < |t0.parts| && t.parts == t0.parts[cpt := t0.parts[cpt] + added]
    && t.cpumask == t0.cpumask + added && added !! t0.cpumask
  }

  lemma AddedMore(t0: Masks, t1: Masks, t: Masks, cpt: nat, a: set<nat>, b: set<nat>)
    requires Added(t0, t1, cpt, a) && Added(t1, t, cpt, b)
    ensures Added(t0, t, cpt, a + b)
  {
    assert t0.parts[cpt] + a + b == t0.parts[cpt] + (a + b);
    assert t0.cpumask + a + b == t0.cpumask + (a + b);
  }

  lemma AddedNothing(t: Masks, cpt: nat)
    requires cpt < |t.parts|
    ensures Added(t, t, cpt, {})
  {
    assert t.parts[cpt] + {} == t.parts[cpt] && t.cpumask + {} == t.cpumask;
  }

  /** One more CPU leaves the mask. */
  lemma OneCpuLess(online: set<nat>, mask0: set<nat>, mask: set<nat>, cpu: nat)
    requires mask <= mask0 && cpu in mask
    ensures mask - {cpu} <= mask0 && cpu !in (mask0 - mask) * online
    ensures cpu in online ==> (mask0 - (mask - {cpu})) * online == (mask0 - mask) * online + {cpu}
    ensures cpu !in online ==> (mask0 - (mask - {cpu})) * online == (mask0 - mask) * online
  {
  }

  /** The hyperthreads seen so far are out of the masks of the socket and the node. */
  predicate Seen(core: set<nat>, rest: set<nat>, socket0: set<nat>, socket: set<nat>, mask0: set<nat>, mask: set<nat>) {
    rest <= core && rest <= mask <= mask0 && mask0 - mask == core - rest && socket == socket0 - (core - rest)
  }

  lemma SeeOne(core: set<nat>, rest: set<nat>, socket0: set<nat>, socket: set<nat>, mask0: set<nat>, mask: set<nat>,
               i: nat)
    requires Seen(core, rest, socket0, socket, mask0, mask) && i in rest
    ensures i in mask && Seen(core, rest - {i}, socket0, socket - {i}, mask0, mask - {i})
  {
    assert core - (rest - {i}) == core - rest + {i};
    assert mask0 - (mask - {i}) == mask0 - mask + {i};
  }

  lemma SeenNone(core: set<nat>, socket: set<nat>, mask: set<nat>)
    requires core <= mask
    ensures Seen(core, core, socket, socket, mask, mask)
  {
    assert core - core == {} && socket - {} == socket;
  }

  lemma SeenAll(core: set<nat>, socket0: set<nat>, socket: set<nat>, mask0: set<nat>, mask: set<nat>)
    requires core <= mask0 && Seen(core, {}, socket0, socket, mask0, mask)
    ensures mask == mask0 - core && socket == socket0 - core
  {
    assert core - {} == core;
    assert mask == mask0 - (mask0 - mask);
  }

  predicate Untaken(online: set<nat>, mask: set<nat>, cpumask: set<nat>) {
    forall c :: c in mask && c in online ==> c !in cpumask
  }

  /** Of number CPUs wanted from mask0, left are still to be found in mask. */
  predicate Progress(online: set<nat>, t0: Masks, t: Masks, cpt: nat, mask0: set<nat>, mask: set<nat>, number: nat,
                     left: nat, added: set<nat>) {
    Added(t0, t, cpt, added) && mask <= mask0 && added == (mask0 - mask) * online && |added| + left == number
  }

  lemma ProgressStart(online: set<nat>, t: Masks, cpt: nat, mask: set<nat>, number: nat)
    requires cpt < |t.parts|
    ensures Progress(online, t, t, cpt, mask, mask, number, number, {})
  {
    AddedNothing(t, cpt);
    assert mask - mask == {} && {} * online == {};
  }

  /** One CPU leaves the mask, and is added if it is online. */
  lemma ProgressOne(online: set<nat>, t0: Masks, t1: Masks, t: Masks, cpt: nat, mask0: set<nat>, mask: set<nat>,
                    number: nat, left: nat, a: set<nat>, cpu: nat)
    requires Progress(online, t0, t1, cpt, mask0, mask, number, left, a) && cpu in mask && left > 0
    requires if cpu in online then Added(t1, t, cpt, {cpu}) else t == t1
    ensures if cpu in online then Progress(online, t0, t, cpt, mask0, mask - {cpu}, number, left - 1, a + {cpu})
            else Progress(online, t0, t, cpt, mask0, mask - {cpu}, number, left, a)
  {
    OneCpuLess(online, mask0, mask, cpu);
    if cpu in online { AddedMore(t0, t1, t, cpt, a, {cpu}); }
  }

  lemma ProgressMore(online: set<nat>, t0: Masks, t1: Masks, t: Masks, cpt: nat, mask0: set<nat>, mask1: set<nat>,
                     mask: set<nat>, number: nat, left1: nat, left: nat, a: set<nat>, b: set<nat>)
    requires Progress(online, t0, t1, cpt, mask0, mask1, number, left1, a)
    requires Progress(online, t1, t, cpt, mask1, mask, left1, left, b)
    ensures Progress(online, t0, t, cpt, mask0, mask, number, left, a + b)
  {
    AddedMore(t0, t1, t, cpt, a, b);
    assert mask0 - mask == (mask0 - mask1) + (mask1 - mask);
    assert (mask0 - mask) * online == a + b;
    assert a * b == {};
  }

  lemma StillUntaken(online: set<nat>, t0: Masks, t: Masks, cpt: nat, mask0: set<nat>, mask: set<nat>, number: nat,
                     left: nat, added: set<nat>)
    requires Progress(online, t0, t, cpt, mask0, mask, number, left, added) && Untaken(online, mask0, t0.cpumask)
    ensures Untaken(online, mask, t.cpumask)
  {
  }

  class Table {
    const nr: nat           // nr_cpu_ids
    const online: set<nat>
    var t: Masks

    ghost predicate Valid()
      reads this
    {
      Consistent(nr, online, t)
    }

    /** cfs_cpt_table_alloc */
    constructor (nr: nat, online: set<nat>, ncpt: nat)
      requires forall c :: c in online ==> c < nr
      ensures this.nr == nr && this.online == online && Valid()
      ensures t.cpumask == {} && |t.parts| == ncpt && forall i :: 0 <= i < ncpt ==> t.parts[i] == {}
    {
      this.nr, this.online := nr, online;
      t := Masks(seq(ncpt, _ => {}), {}, seq(nr, _ => -1));
    }

    /** cfs_cpt_set_cpu */
    method SetCpu(cpt: nat, cpu: nat) returns (rc: bool)
      requires Valid() && cpt < |t.parts|
      modifies this
      ensures Valid() && (rc <==> cpu in online && cpu !in old(t).cpumask)
      ensures Added(old(t), t, cpt, if rc then {cpu} else {})
    {
      AddedNothing(t, cpt);
      if cpu >= nr || cpu !in online { return false; }
      if t.cpu2cpt[cpu] != -1 { return false; }
      if cpu in t.cpumask { return false; }
      if cpu in t.parts[cpt] { return false; }
      t := t.(parts := t.parts[cpt := t.parts[cpt] + {cpu}]);
      t := t.(cpumask := t.cpumask + {cpu});
      t := t.(cpu2cpt := t.cpu2cpt[cpu := cpt]);
      return true;
    }

    /** The first branch of cfs_cpt_choose_ncpus: the whole mask.  It fails only over a CPU that is taken already. */
    method ChooseAll(cpt: nat, mask0: set<nat>) returns (ok: bool, ghost added: set<nat>)
      requires Valid() && cpt < |t.parts|
      modifies this
      ensures Valid() && Added(old(t), t, cpt, added)
      ensures Untaken(online, mask0, old(t).cpumask) ==> ok
      ensures ok ==> added == mask0 * online
    {
      var mask := mask0;
      added := {};
      AddedNothing(t, cpt);
      while mask != {}
        invariant Valid() && Added(old(t), t, cpt, added)
        invariant mask <= mask0 && added == (mask0 - mask) * online
        decreases |mask|
      {
        var cpu := First(mask);
        OneCpuLess(online, mask0, mask, cpu);
        mask := mask - {cpu};
        if cpu in online {
          ok, added := AddCpu(old(t), added, cpt, cpu);
          if !ok { return; }
        }
      }
      ok := true;
    }

    /** cfs_cpt_set_cpu again, in terms of all CPUs added so far. */
    method AddCpu(ghost t0: Masks, ghost added0: set<nat>, cpt: nat, cpu: nat)
      returns (ok: bool, ghost added: set<nat>)
      requires Valid() && Added(t0, t, cpt, added0) && cpu in online && cpu !in added0
      modifies this
      ensures Valid() && Added(t0, t, cpt, added)
      ensures ok <==> cpu !in t0.cpumask
      ensures added == if ok then added0 + {cpu} else added0
    {
      ok := SetCpu(cpt, cpu);
      AddedMore(t0, old(t), t, cpt, added0, if ok then {cpu} else {});
      added := added0 + if ok then {cpu} else {};
    }

    /** The body of the innermost loop: one CPU of the mask, which goes to the partition if it is online. */
    method TakeCpu(cpt: nat, cpu: nat, ghost t0: Masks, ghost mask0: set<nat>, mask: set<nat>, ghost number: nat,
                   left0: nat, ghost added0: set<nat>)
      returns (ok: bool, left: nat, ghost added: set<nat>)
      requires Valid() && Progress(online, t0, t, cpt, mask0, mask, number, left0, added0) && cpu in mask && left0 > 0
      modifies this
      ensures Valid() && |t.parts| == |old(t).parts| && (Untaken(online, mask, old(t).cpumask) ==> ok)
      ensures ok ==> Progress(online, t0, t, cpt, mask0, mask - {cpu}, number, left, added)
      ensures left >= left0 - 1
    {
      ok, left, added := true, left0, added0;
      if cpu in online {
        ok := SetCpu(cpt, cpu);
        left := left - 1;
        added := added + {cpu};
      }
      if ok { ProgressOne(online, t0, old(t), t, cpt, mask0, mask, number, left0, added0, cpu); }
    }

    /** The innermost loop of the second branch: the hyperthreads of one core, until left CPUs are found. */
    method ChooseCore(cpt: nat, core: set<nat>, socket0: set<nat>, mask0: set<nat>, left0: nat)
      returns (ok: bool, socket: set<nat>, mask: set<nat>, left: nat, ghost added: set<nat>)
      requires Valid() && cpt < |t.parts| && core <= mask0 && left0 > 0
      modifies this
      ensures Valid() && |t.parts| == |old(t).parts|
      ensures Untaken(online, mask0, old(t).cpumask) ==> ok
      ensures ok ==> Progress(online, old(t), t, cpt, mask0, mask, left0, left, added)
      ensures ok ==> mask0 - mask <= core
      ensures ok && left > 0 ==> mask == mask0 - core && socket == socket0 - core
    {
      socket, mask, left, added := socket0, mask0, left0, {};
      ProgressStart(online, t, cpt, mask0, left0);
      SeenNone(core, socket, mask);
      var rest := core;
      while rest != {}
        invariant Valid() && Progress(online, old(t), t, cpt, mask0, mask, left0, left, added) && left > 0
        invariant Seen(core, rest, socket0, socket, mask0, mask)
        decreases |rest|
      {
        var i := First(rest);
        SeeOne(core, rest, socket0, socket, mask0, mask, i);
        if Untaken(online, mask0, old(t).cpumask) {
          StillUntaken(online, old(t), t, cpt, mask0, mask, left0, left, added);
        }
        ok, left, added := TakeCpu(cpt, i, old(t), mask0, mask, left0, left, added);
        rest, socket, mask := rest - {i}, socket - {i}, mask - {i};
        if !ok || left == 0 { return; }
      }
      SeenAll(core, socket0, socket, mask0, mask);
      ok := true;
    }

    /** The body of the middle loop: the core of one CPU of the socket. */
    method NextCore(top: Topology, cpt: nat, cpu: nat, socket0: set<nat>, mask0: set<nat>, left0: nat)
      returns (ok: bool, socket: set<nat>, mask: set<nat>, left: nat, ghost added: set<nat>)
      requires TopologyOk(top) && Valid() && cpt < |t.parts| && cpu in mask0 && left0 > 0
      modifies this
      ensures Valid() && |t.parts| == |old(t).parts|
      ensures Untaken(online, mask0, old(t).cpumask) ==> ok
      ensures ok ==> Progress(online, old(t), t, cpt, mask0, mask, left0, left, added)
      ensures ok ==> mask0 - mask <= top.siblings(cpu)
      ensures ok && left > 0 ==> mask == mask0 - top.siblings(cpu) && cpu !in mask
      ensures ok && left > 0 ==> socket == socket0 - top.siblings(cpu) * mask0
    {
      var core := top.siblings(cpu) * mask0;
      ok, socket, mask, left, added := ChooseCore(cpt, core, socket0, mask0, left0);
    }

    /** The middle loop: the cores of one socket, starting with that of cpu.  Only the last core may be split. */
    method ChooseSocket(top: Topology, cpt: nat, cpu0: nat, mask0: set<nat>, left0: nat)
      returns (ok: bool, mask: set<nat>, left: nat, ghost added: set<nat>, ghost last: nat)
      requires TopologyOk(top) && Valid() && cpt < |t.parts| && cpu0 in mask0 && left0 > 0
      modifies this
      ensures Valid() && |t.parts| == |old(t).parts|
      ensures Untaken(online, mask0, old(t).cpumask) ==> ok
      ensures ok ==> Progress(online, old(t), t, cpt, mask0, mask, left0, left, added) && (left > 0 ==> cpu0 !in mask)
      ensures ok ==> InSocket(top, mask0, mask, left, cpu0, last)
    {
      var cpu := cpu0;
      var socket := top.socket(cpu) * mask0;
      mask, left, added, last := mask0, left0, {}, cpu0;
      ProgressStart(online, t, cpt, mask0, left0);
      NothingGone(top, mask0, cpu0);
      while socket != {}
        invariant Valid() && Progress(online, old(t), t, cpt, mask0, mask, left0, left, added) && left > 0
        invariant socket <= mask && (socket != {} ==> cpu in socket) && (cpu0 in mask ==> socket != {} && cpu == cpu0)
        invariant socket == {} ==> InSocket(top, mask0, mask, left, cpu0, last)
        invariant CoresGone(top, mask0, mask, socket, cpu0, cpu)
        decreases |mask|
      {
        ghost var t1, socket1, mask1, left1, a := t, socket, mask, left, added;
        ghost var more;
        if Untaken(online, mask0, old(t).cpumask) {
          StillUntaken(online, old(t), t, cpt, mask0, mask, left0, left, added);
        }
        ok, socket, mask, left, more := NextCore(top, cpt, cpu, socket, mask, left);
        if !ok { return; }
        ProgressMore(online, old(t), t1, t, cpt, mask0, mask1, mask, left0, left1, left, a, more);
        added, last := a + more, cpu;
        CoreTaken(top, mask0, mask1, mask, socket1, socket, cpu0, cpu, left);
        if left == 0 { return; }
        assert mask < mask1;
        if socket != {} { cpu := First(socket); }
      }
      ok := true;
    }

    /** cfs_cpt_choose_ncpus: at most number CPUs of the node's mask go to the partition, fewer only if the mask is used
        up; it fails only over a CPU that is taken already.  CPUs of one core and of one socket go together: at most one
        core and at most one socket is split. */
    method ChooseNcpus(top: Topology, cpt: nat, mask0: set<nat>, number: nat)
      returns (ok: bool, mask: set<nat>, ghost added: set<nat>)
      requires TopologyOk(top) && Valid() && cpt < |t.parts| && number > 0
      modifies this
      ensures Valid() && |t.parts| == |old(t).parts|
      ensures Untaken(online, mask0, old(t).cpumask) ==> ok
      ensures ok ==> Added(old(t), t, cpt, added) && Taken(online, mask0, mask, added, number)
      ensures ok ==> Together(top, mask0, mask)
    {
      if number >= |mask0| {
        ok, added := ChooseAll(cpt, mask0);
        mask := {};
        AllTaken(online, mask0, number);
        AllTogether(top, mask0);
        return;
      }
      mask, added, ok := mask0, {}, true;
      var left := number;
      ProgressStart(online, t, cpt, mask0, number);
      NothingGone(top, mask0, 0);
      while mask != {}
        invariant Valid() && Progress(online, old(t), t, cpt, mask0, mask, number, left, added) && left > 0 && ok
        invariant Apart(top, mask0, mask)
        decreases |mask|
      {
        ghost var t1, mask1, left1, a := t, mask, left, added;
        var cpu := First(mask);
        ghost var more, last;
        if Untaken(online, mask0, old(t).cpumask) {
          StillUntaken(online, old(t), t, cpt, mask0, mask, number, left, added);
        }
        ok, mask, left, more, last := ChooseSocket(top, cpt, cpu, mask, left);
        if !ok { return; }
        ProgressMore(online, old(t), t1, t, cpt, mask0, mask1, mask, number, left1, left, a, more);
        added := a + more;
        SocketTaken(top, mask0, mask1, mask, left, cpu, last);
        if left == 0 { return; }
        assert mask < mask1;
      }
      AllTogether(top, mask0);
    }
  }

  /** If cores and sockets partition the CPUs, at most one core and one socket of mask0 are split between what was taken
      and what is left in mask. */
  ghost predicate Together(top: Topology, mask0: set<nat>, mask: set<nat>) {
    Partitioned(top) ==>
      exists core: nat, socket: nat ::
        SplitsOnly(top.siblings, mask0, mask, core) && SplitsOnly(top.socket, mask0, mask, socket)
  }

  lemma AllTogether(top: Topology, mask0: set<nat>)
    ensures Together(top, mask0, {})
  {
    assert SplitsOnly(top.siblings, mask0, {}, 0) && SplitsOnly(top.socket, mask0, {}, 0);
  }

  ghost predicate Apart(top: Topology, mask0: set<nat>, mask: set<nat>) {
    Partitioned(top) ==> WholeOnly(top.siblings, mask0, mask) && WholeOnly(top.socket, mask0, mask)
  }

  lemma NothingGone(top: Topology, mask: set<nat>, cpu: nat)
    ensures Apart(top, mask, mask) && CoresGone(top, mask, mask, top.socket(cpu) * mask, cpu, cpu)
  {
  }

  /** What the middle loop leaves of mask0: it took from the socket of cpu0 only, whole cores and perhaps part of the
      last; and the socket is used up unless enough was found. */
  ghost predicate InSocket(top: Topology, mask0: set<nat>, mask: set<nat>, left: nat, cpu0: nat, last: nat) {
    Partitioned(top) ==>
      && mask <= mask0 && mask0 - mask <= top.socket(cpu0) && SplitsOnly(top.siblings, mask0, mask, last)
      && (left > 0 ==> mask == mask0 - top.socket(cpu0) && WholeOnly(top.siblings, mask0, mask))
  }

  /** The same while it goes on. */
  ghost predicate CoresGone(top: Topology, mask0: set<nat>, mask: set<nat>, socket: set<nat>, cpu0: nat, cpu: nat) {
    Partitioned(top) ==>
      && mask0 - mask <= top.socket(cpu0) && WholeOnly(top.siblings, mask0, mask) && socket == top.socket(cpu0) * mask
  }

  lemma CoreTaken(top: Topology, mask0: set<nat>, mask1: set<nat>, mask: set<nat>, socket1: set<nat>, socket: set<nat>,
                  cpu0: nat, cpu: nat, left: nat)
    requires CoresGone(top, mask0, mask1, socket1, cpu0, cpu) && mask <= mask1 <= mask0
    requires cpu in socket1 && mask1 - mask <= top.siblings(cpu)
    requires left > 0 ==> mask == mask1 - top.siblings(cpu) && socket == socket1 - top.siblings(cpu) * mask1
    ensures left > 0 ==> CoresGone(top, mask0, mask, socket, cpu0, cpu)
    ensures left == 0 || socket == {} ==> InSocket(top, mask0, mask, left, cpu0, cpu)
  {
    if Partitioned(top) {
      ClassPart(top.siblings, mask1, mask, cpu);
      if left > 0 { ClassGone(top.siblings, mask1, mask, cpu); }
      WholeThen(top.siblings, mask0, mask1, mask, cpu);
      assert top.socket(cpu) == top.socket(cpu0);
      assert top.siblings(cpu) <= top.socket(cpu0);
      assert mask0 - mask == (mask0 - mask1) + (mask1 - mask);
      assert left > 0 ==> socket == top.socket(cpu0) * mask;
      if left > 0 && socket == {} { AllOfIt(mask0, mask, top.socket(cpu0)); }
    }
  }

  lemma AllOfIt(a: set<nat>, b: set<nat>, s: set<nat>)
    requires b <= a && a - b <= s && s * b == {}
    ensures b == a - s
  {
    forall x | x in b ensures x in a - s { assert x !in s * b; }
    forall x | x in a - s ensures x in b { assert x !in a - b; }
  }

  lemma SocketTaken(top: Topology, mask0: set<nat>, mask1: set<nat>, mask: set<nat>, left: nat, cpu: nat, last: nat)
    requires Apart(top, mask0, mask1) && mask1 <= mask0 && InSocket(top, mask1, mask, left, cpu, last)
    ensures Together(top, mask0, mask) && (left > 0 ==> Apart(top, mask0, mask))
  {
    if Partitioned(top) {
      ClassPart(top.socket, mask1, mask, cpu);
      if left > 0 { ClassGone(top.socket, mask1, mask, cpu); }
      WholeThen(top.siblings, mask0, mask1, mask, last);
      WholeThen(top.socket, mask0, mask1, mask, cpu);
    }
  }

  lemma AllTaken(online: set<nat>, mask: set<nat>, number: nat)
    requires number >= |mask|
    ensures Taken(online, mask, {}, mask * online, number)
  {
    assert mask - {} == mask;
    SubsetCard(mask * online, mask);
  }

  // ----- cfs_cpt_num_estimate -----

  const CPT_WEIGHT_MIN := 4

  /** The first loop: two partitions, and more while each would have more than two cores. */
  method Growing(ncpu: nat, nthr: nat) returns (ncpt: nat)
    requires ncpu >= 2 && nthr >= 1
    ensures 2 <= ncpt <= ncpu <= 2 * nthr * ncpt && (ncpt == 2 || ncpu > 2 * nthr * (ncpt - 1))
  {
    ncpt := 2;
    while ncpu > 2 * nthr * ncpt
      invariant 2 <= ncpt <= ncpu && (ncpt == 2 || ncpu > 2 * nthr * (ncpt - 1))
      decreases ncpu - ncpt
    {
      Grows(nthr, ncpt);
      ncpt := ncpt + 1;
    }
  }

  /** The second loop: down to a divisor, 1 at worst. */
  method DownToDivisor(ncpu: nat, from: nat) returns (ncpt: nat)
    requires 1 <= from
    ensures 1 <= ncpt <= from && Divides(ncpt, ncpu) && forall d :: ncpt < d <= from ==> !Divides(d, ncpu)
  {
    ncpt := from;
    ModOne(ncpu);
    while ncpu % ncpt != 0
      invariant 1 <= ncpt <= from && forall d :: ncpt < d <= from ==> !Divides(d, ncpu)
      decreases ncpt
    {
      ncpt := ncpt - 1;
    }
  }

  /** The number the first loop comes to: one partition for few CPUs, or else the least number from two on at which no
      partition would have more than two cores. */
  predicate Wished(ncpu: nat, nthr: nat, c: nat) {
    if ncpu <= CPT_WEIGHT_MIN then c == 1
    else c >= 2 && ncpu <= 2 * nthr * c && (c == 2 || ncpu > 2 * nthr * (c - 1))
  }

  /** cfs_cpt_num_estimate: the largest number of partitions up to the wished one that divides the number of CPUs. */
  method NumEstimate(ncpu: nat, nthr: nat) returns (ncpt: nat, ghost wished: nat)
    requires ncpu >= 1 && nthr >= 1
    ensures Wished(ncpu, nthr, wished)
    ensures 1 <= ncpt <= wished && ncpt <= ncpu && Divides(ncpt, ncpu)
    ensures forall d :: ncpt < d <= wished ==> !Divides(d, ncpu)
  {
    ncpt := 1;
    if ncpu > CPT_WEIGHT_MIN { ncpt := Growing(ncpu, nthr); }
    wished := ncpt;
    ncpt := DownToDivisor(ncpu, ncpt);
  }

  predicate Divides(d: nat, n: nat) {
    d >= 1 && n % d == 0
  }

  lemma Grows(nthr: nat, ncpt: nat)
    requires nthr >= 1
    ensures 2 * nthr * ncpt >= 2 * ncpt
  {
  }

  lemma ModOne(n: nat)
    ensures n % 1 == 0
  {
  }

  // ----- cfs_cpt_table_create -----

  /** The size of partition i: an equal share, and one of the remainder for the first ones. */
  function Share(n: nat, ncpt: nat, i: nat): nat
    requires ncpt >= 1
  {
    n / ncpt + if i < n % ncpt then 1 else 0
  }

  function Shares(n: nat, ncpt: nat): (r: seq<nat>)
    requires ncpt >= 1
    ensures |r| == ncpt && forall i :: 0 <= i < ncpt ==> r[i] == Share(n, ncpt, i)
  {
    seq(ncpt, i requires 0 <= i => Share(n, ncpt, i))
  }

  function Sum(s: seq<nat>): nat {
    if s == [] then 0 else Sum(s[..|s| - 1]) + s[|s| - 1]
  }

  /** The shares: num for each partition, and one more for the first extra ones. */
  predicate Spread(want: seq<nat>, num: nat, extra: nat) {
    forall i :: 0 <= i < |want| ==> want[i] == num + if i < extra then 1 else 0
  }

  lemma {:induction false} SpreadSum(want: seq<nat>, num: nat, extra: nat)
    requires Spread(want, num, extra)
    ensures Sum(want) == |want| * num + if |want| <= extra then |want| else extra
  {
    if want != [] {
      var front := want[..|want| - 1];
      assert forall i :: 0 <= i < |front| ==> front[i] == want[i];
      SpreadSum(front, num, extra);
      Next(|want|, num);
    }
  }

  lemma Next(k: nat, q: nat)
    requires k > 0
    ensures k * q == (k - 1) * q + q
  {
  }

  lemma AllShares(n: nat, ncpt: nat)
    requires ncpt >= 1
    ensures Sum(Shares(n, ncpt)) == n
  {
    SpreadSum(Shares(n, ncpt), n / ncpt, n % ncpt);
    assert n == ncpt * (n / ncpt) + n % ncpt;
  }

  function Sizes(parts: seq<set<nat>>): nat {
    if parts == [] then 0 else Sizes(parts[..|parts| - 1]) + |parts[|parts| - 1]|
  }

  /** If no partition has more than its share, the total tells whether all have it. */
  lemma {:induction false} SizesVersusShares(parts: seq<set<nat>>, want: seq<nat>)
    requires |parts| == |want| && forall i :: 0 <= i < |parts| ==> |parts[i]| <= want[i]
    ensures Sizes(parts) <= Sum(want)
    ensures Sizes(parts) == Sum(want) <==> forall i :: 0 <= i < |parts| ==> |parts[i]| == want[i]
  {
    if parts != [] {
      var k := |parts| - 1;
      SizesVersusShares(parts[..k], want[..k]);
      assert forall i :: 0 <= i < k ==> parts[i] == parts[..k][i] && want[i] == want[..k][i];
    }
  }

  function Below(nr: nat, t: Masks, k: nat): set<nat>
    requires |t.cpu2cpt| == nr
  {
    set c | c in t.cpumask && c < nr && t.cpu2cpt[c] < k
  }

  /** What the table says of a CPU in partition i. */
  lemma InPart(nr: nat, online: set<nat>, t: Masks, i: nat, c: nat)
    requires Consistent(nr, online, t) && i < |t.parts| && c in t.parts[i]
    ensures c in online && c < nr && t.cpu2cpt[c] == i && c in t.cpumask
  {
  }

  lemma BelowNext(nr: nat, online: set<nat>, t: Masks, k: nat)
    requires Consistent(nr, online, t) && k < |t.parts|
    ensures Below(nr, t, k + 1) == Below(nr, t, k) + t.parts[k] && Below(nr, t, k) !! t.parts[k]
  {
    forall c: nat | c in t.parts[k]
      ensures c in Below(nr, t, k + 1) && c !in Below(nr, t, k)
    { InPart(nr, online, t, k, c); }
    forall c: nat | c in Below(nr, t, k + 1) && c !in Below(nr, t, k) ensures c in t.parts[k] {
      assert c < nr && t.cpu2cpt[c] == k && t.cpu2cpt[c] != -1;
    }
  }

  /** The partitions are disjoint, so their sizes add up. */
  lemma {:induction false} SizesAreMask(nr: nat, online: set<nat>, t: Masks, k: nat)
    requires Consistent(nr, online, t) && k <= |t.parts|
    ensures Sizes(t.parts[..k]) == |Below(nr, t, k)|
    decreases k
  {
    if k == 0 {
      assert Below(nr, t, k) == {};
    } else {
      SizesAreMask(nr, online, t, k - 1);
      BelowNext(nr, online, t, k - 1);
      SizesSnoc(t.parts, k - 1);
      DisjointCard(Below(nr, t, k - 1), t.parts[k - 1]);
    }
  }

  lemma SizesSnoc(parts: seq<set<nat>>, k: nat)
    requires k < |parts|
    ensures Sizes(parts[..k + 1]) == Sizes(parts[..k]) + |parts[k]|
  {
    assert parts[..k + 1][..k] == parts[..k];
  }

  lemma DisjointCard(a: set<nat>, b: set<nat>)
    requires a !! b
    ensures |a + b| == |a| + |b|
  {
  }

  lemma SizesTotal(nr: nat, online: set<nat>, t: Masks)
    requires Consistent(nr, online, t)
    ensures Sizes(t.parts) == |t.cpumask|
  {
    SizesAreMask(nr, online, t, |t.parts|);
    assert t.parts[..|t.parts|] == t.parts;
    assert t.cpumask == Below(nr, t, |t.parts|);
  }

  /** The node masks partition the online CPUs. */
  ghost predicate NodesOk(online: set<nat>, nodes: seq<set<nat>>) {
    && (forall c :: c in online ==> exists k :: 0 <= k < |nodes| && c in nodes[k])
    && (forall j, k, c :: 0 <= j < k < |nodes| && c in nodes[j] && c in nodes[k] ==> c !in online)
  }

  /** Every online CPU is in exactly one partition, and the partitions have their shares. */
  ghost predicate Balanced(online: set<nat>, parts: seq<set<nat>>) {
    && |parts| >= 1
    && (forall i :: 0 <= i < |parts| ==> |parts[i]| == Share(|online|, |parts|, i) && parts[i] <= online)
    && (forall c :: c in online ==> exists i :: 0 <= i < |parts| && c in parts[i])
    && (forall i, j :: 0 <= i < j < |parts| ==> parts[i] !! parts[j])
  }

  /** The partitions before cpt are full, the others have less than their share. */
  predicate Filling(want: seq<nat>, parts: seq<set<nat>>, cpt: nat) {
    && |parts| == |want| >= 1 && cpt <= |parts|
    && (forall i :: 0 <= i < cpt ==> |parts[i]| == want[i])
    && (forall i :: cpt <= i < |parts| ==> |parts[i]| < want[i])
  }

  /** CPUs in the table come from the nodes done, or from this node and are out of its mask. */
  ghost predicate From(online: set<nat>, nodes: seq<set<nat>>, k: nat, mask: set<nat>, cpumask: set<nat>)
    requires k < |nodes|
  {
    && mask <= nodes[k]
    && (forall c :: c in cpumask ==> c in nodes[k] - mask || exists j :: 0 <= j < k && c in nodes[j])
    && (forall c :: c in online && c in nodes[k] - mask ==> c in cpumask)
  }

  lemma FromUntaken(online: set<nat>, nodes: seq<set<nat>>, k: nat, mask: set<nat>, cpumask: set<nat>)
    requires k < |nodes| && NodesOk(online, nodes) && From(online, nodes, k, mask, cpumask)
    ensures Untaken(online, mask, cpumask)
  {
  }

  /** Filled to the last partition, or with every node used up, the table has placed all CPUs and is full. */
  lemma AllPlaced(nr: nat, online: set<nat>, t: Masks, cpt: nat, want: seq<nat>)
    requires Consistent(nr, online, t) && Filling(want, t.parts, cpt) && Sum(want) == |online|
    requires cpt == |t.parts| || online <= t.cpumask
    ensures t.cpumask == online && forall i :: 0 <= i < |want| ==> |t.parts[i]| == want[i]
  {
    SizesTotal(nr, online, t);
    SizesVersusShares(t.parts, want);
    SubsetCard(t.cpumask, online);
  }

  lemma FullIsBalanced(nr: nat, online: set<nat>, t: Masks)
    requires Consistent(nr, online, t) && t.cpumask == online && |t.parts| >= 1
    requires forall i :: 0 <= i < |t.parts| ==> |t.parts[i]| == Share(|online|, |t.parts|, i)
    ensures Balanced(online, t.parts)
  {
    forall i: nat, c: nat | i < |t.parts| && c in t.parts[i] ensures c in online && c < nr && t.cpu2cpt[c] == i {
      InPart(nr, online, t, i, c);
    }
    forall c: nat | c in online ensures exists i :: 0 <= i < |t.parts| && c in t.parts[i] {
      assert c < nr && t.cpu2cpt[c] != -1;
      assert c in t.parts[t.cpu2cpt[c]];
    }
  }

  /** The masks after a choice for partition cpt that took at most what it lacked. */
  lemma FillStep(nr: nat, online: set<nat>, t0: Masks, t: Masks, cpt: nat, added: set<nat>, want: seq<nat>)
    requires Consistent(nr, online, t0) && Filling(want, t0.parts, cpt) && cpt < |want| && Added(t0, t, cpt, added)
    requires |t0.parts[cpt]| + |added| <= want[cpt]
    ensures |t.parts| == |t0.parts| && |t.parts[cpt]| == |t0.parts[cpt]| + |added|
    ensures Filling(want, t.parts, if |t.parts[cpt]| == want[cpt] then cpt + 1 else cpt)
  {
    forall c: nat | c in t0.parts[cpt] ensures c !in added { InPart(nr, online, t0, cpt, c); }
    assert |t0.parts[cpt] + added| == |t0.parts[cpt]| + |added|;
  }

  lemma FromStep(online: set<nat>, nodes: seq<set<nat>>, k: nat, mask: set<nat>, cpumask: set<nat>, mask': set<nat>,
                 added: set<nat>)
    requires k < |nodes| && From(online, nodes, k, mask, cpumask) && mask' <= mask && added == (mask - mask') * online
    ensures From(online, nodes, k, mask', cpumask + added)
  {
    forall c | c in online && c in nodes[k] - mask' ensures c in cpumask + added {
      if c !in mask { assert c in nodes[k] - mask; }
    }
  }

  /** Where the walk over the nodes is: at partition cpt, with rem more CPUs to spread. */
  ghost predicate Dealing(nr: nat, online: set<nat>, t: Masks, want: seq<nat>, extra: nat, cpt: nat, rem: int) {
    Consistent(nr, online, t) && Filling(want, t.parts, cpt) && rem == extra - cpt
  }

  /** The inner loop of cfs_cpt_table_create: deal out one node's CPUs.  The number asked for is always positive. */
  method DealNode(tab: Table, top: Topology, ghost nodes: seq<set<nat>>, ghost k: nat, ghost want: seq<nat>,
                  ghost extra: nat, mask0: set<nat>, num: nat, cpt0: nat, rem0: int)
    returns (ok: bool, cpt: nat, rem: int)
    requires TopologyOk(top) && NodesOk(tab.online, nodes) && k < |nodes| && mask0 == nodes[k]
    requires Dealing(tab.nr, tab.online, tab.t, want, extra, cpt0, rem0) && Spread(want, num, extra)
    requires From(tab.online, nodes, k, mask0, tab.t.cpumask)
    modifies tab
    ensures ok && Dealing(tab.nr, tab.online, tab.t, want, extra, cpt, rem) && |tab.t.parts| == |old(tab.t).parts|
    ensures old(tab.t).cpumask <= tab.t.cpumask
    ensures cpt == |tab.t.parts| || From(tab.online, nodes, k, {}, tab.t.cpumask)
  {
    ok, cpt, rem := true, cpt0, rem0;
    var mask := mask0;
    var ncpt := |tab.t.parts|;
    while cpt < ncpt && mask != {}
      invariant ok && |tab.t.parts| == ncpt && Dealing(tab.nr, tab.online, tab.t, want, extra, cpt, rem)
      invariant old(tab.t).cpumask <= tab.t.cpumask
      invariant From(tab.online, nodes, k, mask, tab.t.cpumask)
      decreases ncpt - cpt, |mask|
    {
      ghost var t0, m0, added := tab.t, mask, {};
      var ncpu := |tab.t.parts[cpt]|;
      FromUntaken(tab.online, nodes, k, mask, tab.t.cpumask);
      ok, mask, added := tab.ChooseNcpus(top, cpt, mask, (if rem > 0 then 1 else 0) + num - ncpu);
      FillStep(tab.nr, tab.online, t0, tab.t, cpt, added, want);
      FromStep(tab.online, nodes, k, m0, t0.cpumask, mask, added);
      ncpu := |tab.t.parts[cpt]|;
      if ncpu == num + (if rem > 0 then 1 else 0) {
        cpt := cpt + 1;
        rem := rem - 1;
      }
    }
  }

  /** All online CPUs of the first k nodes are placed, and no others. */
  ghost predicate DoneTo(online: set<nat>, nodes: seq<set<nat>>, k: nat, cpumask: set<nat>)
    requires k <= |nodes|
  {
    && (forall c :: c in cpumask ==> exists j :: 0 <= j < k && c in nodes[j])
    && (forall j, c :: 0 <= j < k && c in nodes[j] && c in online ==> c in cpumask)
  }

  lemma DoneNext(online: set<nat>, nodes: seq<set<nat>>, k: nat, cpumask0: set<nat>, cpumask: set<nat>)
    requires k < |nodes| && DoneTo(online, nodes, k, cpumask0) && cpumask0 <= cpumask
    requires From(online, nodes, k, {}, cpumask)
    ensures DoneTo(online, nodes, k + 1, cpumask)
  {
    assert nodes[k] - {} == nodes[k];
  }

  lemma FromDone(online: set<nat>, nodes: seq<set<nat>>, k: nat, cpumask: set<nat>)
    requires k < |nodes| && DoneTo(online, nodes, k, cpumask)
    ensures From(online, nodes, k, nodes[k], cpumask)
  {
  }

  /** cfs_cpt_table_create, where the node masks partition the online CPUs: it fails (other than for memory) only if
      more partitions are asked for than there are CPUs, and the table is balanced. */
  method CreateTable(nr: nat, online: set<nat>, nodes: seq<set<nat>>, top: Topology, request: int, nthr: nat)
    returns (tab: Table?)
    requires online != {} && (forall c :: c in online ==> c < nr) && NodesOk(online, nodes) && TopologyOk(top)
    requires nthr >= 1
    ensures tab == null <==> request > |online|
    ensures tab != null ==> fresh(tab) && tab.Valid() && tab.online == online && Balanced(online, tab.t.parts)
    ensures tab != null ==> if request > 0 then |tab.t.parts| == request else |online| % |tab.t.parts| == 0
  {
    var ncpt, wished := NumEstimate(|online|, nthr);
    if request > 0 { ncpt := request; }
    if ncpt > |online| { return null; }
    tab := new Table(nr, online, ncpt);
    ghost var want := Shares(|online|, ncpt);
    EmptyFilling(|online|, ncpt, tab.t.parts);
    AllShares(|online|, ncpt);
    DealAll(tab, top, nodes, want, |online| / ncpt, |online| % ncpt);
    FullIsBalanced(nr, online, tab.t);
  }

  /** The loop over the nodes. */
  method DealAll(tab: Table, top: Topology, nodes: seq<set<nat>>, ghost want: seq<nat>, num: nat, extra: nat)
    requires TopologyOk(top) && NodesOk(tab.online, nodes) && tab.Valid() && Spread(want, num, extra)
    requires Sum(want) == |tab.online|
    requires Filling(want, tab.t.parts, 0) && tab.t.cpumask == {}
    modifies tab
    ensures tab.Valid() && |tab.t.parts| == |want| && tab.t.cpumask == tab.online
    ensures forall i :: 0 <= i < |want| ==> |tab.t.parts[i]| == want[i]
  {
    var ncpt := |tab.t.parts|;
    var rem: int, cpt: nat := extra, 0;
    for k := 0 to |nodes|
      invariant Dealing(tab.nr, tab.online, tab.t, want, extra, cpt, rem)
      invariant cpt == ncpt || DoneTo(tab.online, nodes, k, tab.t.cpumask)
    {
      if cpt < ncpt {
        ghost var cpumask0 := tab.t.cpumask;
        FromDone(tab.online, nodes, k, cpumask0);
        var ok;
        ok, cpt, rem := DealNode(tab, top, nodes, k, want, extra, nodes[k], num, cpt, rem);
        if cpt < ncpt { DoneNext(tab.online, nodes, k, cpumask0, tab.t.cpumask); }
      }
    }
    if cpt < ncpt { AllDone(tab.online, nodes, tab.t.cpumask); }
    AllPlaced(tab.nr, tab.online, tab.t, cpt, want);
  }

  lemma AllDone(online: set<nat>, nodes: seq<set<nat>>, cpumask: set<nat>)
    requires NodesOk(online, nodes) && DoneTo(online, nodes, |nodes|, cpumask)
    ensures online <= cpumask
  {
  }

  lemma EmptyFilling(n: nat, ncpt: nat, parts: seq<set<nat>>)
    requires 1 <= ncpt <= n && |parts| == ncpt && forall i :: 0 <= i < ncpt ==> parts[i] == {}
    ensures Filling(Shares(n, ncpt), parts, 0)
  {
    assert n == ncpt * (n / ncpt) + n % ncpt;
    assert n / ncpt >= 1;
  }
}
