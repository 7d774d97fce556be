/**
  The credit counter with a wait queue that LNet uses for peers and tx queues: the counter
  goes below zero by the number of those waiting.
 */
module Gate {
  import opened Common

  /** takes: everyone who ever took a credit, in order.  passes: everyone who got past the gate, in order. */
  datatype Gate = Gate(credits: int, queue: seq<nat>, takes: seq<nat>, passes: seq<nat>)

  function Enter(g: Gate, m: nat): Gate {
    if g.credits - 1 < 0
    then Gate(g.credits - 1, g.queue + [m], g.takes + [m], g.passes)
    else Gate(g.credits - 1, g.queue, g.takes + [m], g.passes + [m])
  }

  /** The head of the queue, if any, gets the returned credit. */
  function Leave(g: Gate): Gate
    requires g.credits < 0 ==> g.queue != []
  {
    if g.credits + 1 <= 0
    then Gate(g.credits + 1, g.queue[1..], g.takes, g.passes + [g.queue[0]])
    else g.(credits := g.credits + 1)
  }

  /** holders own a credit of this gate; waiting are those among them that stand in its queue. */
  ghost predicate Ok(g: Gate, cap: int, holders: set<nat>, waiting: set<nat>) {
    && g.credits + |holders| == cap
    && |g.queue| == (if g.credits < 0 then -g.credits else 0)
    && g.takes == g.passes + g.queue
    && NoDup(g.queue) && waiting <= holders && (forall m :: m in g.queue <==> m in waiting)
  }

  lemma EnterOk(g: Gate, cap: int, holders: set<nat>, waiting: set<nat>, m: nat)
    requires Ok(g, cap, holders, waiting) && m !in holders
    ensures Ok(Enter(g, m), cap, holders + {m}, if g.credits - 1 < 0 then waiting + {m} else waiting)
  {
    if g.credits - 1 < 0 {
      assert g.takes + [m] == g.passes + (g.queue + [m]);
    } else {
      assert g.queue == [];
    }
  }

  lemma LeaveOk(g: Gate, cap: int, holders: set<nat>, waiting: set<nat>, m: nat)
    requires Ok(g, cap, holders, waiting) && m in holders && m !in waiting
    ensures Ok(Leave(g), cap, holders - {m}, if g.queue != [] then waiting - {g.queue[0]} else waiting)
    ensures (g.credits + 1 <= 0) <==> g.queue != []
  {
    if g.credits + 1 <= 0 {
      var h := g.queue[0];
      assert g.queue == [h] + g.queue[1..];
      assert g.passes + g.queue == g.passes + [h] + g.queue[1..];
      assert h !in g.queue[1..];
    }
  }

  lemma {:induction false} QueueSize(q: seq<nat>, s: set<nat>)
    requires NoDup(q) && forall m :: m in q <==> m in s
    ensures |s| == |q|
  {
    if q == [] {
      assert s == {};
    } else {
      assert q == [q[0]] + q[1..];
      QueueSize(q[1..], s - {q[0]});
    }
  }

  /** As many holders as the gate has capacity are past it. */
  lemma PastGate(g: Gate, cap: int, holders: set<nat>, waiting: set<nat>)
    requires Ok(g, cap, holders, waiting) && g.queue != []
    ensures |holders - waiting| == cap
  {
    QueueSize(g.queue, waiting);
    assert |holders - waiting| == |holders| - |waiting|;
  }
}
