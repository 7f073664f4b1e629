/**
 * The main-thread dispatcher: a FIFO queue of actions that background work
 * fills and the once-per-frame update drains. Actions are opaque ids; what
 * invoking one does to the queue (the actions it enqueues in turn, and whether
 * it throws) is given by a behaviour function. The lock is re-entrant and the
 * loop re-reads the count, so an action enqueued by a running action runs in
 * the same drain; the model is sequential.
 */
module Dispatcher {
  import opened Wrappers

  type ActionId = nat
  type Queue = seq<ActionId>

  /** What invoking an action does: the actions it passes to `Enqueue` (None for a null one), in order, and whether it then throws. */
  datatype Effect = Effect(enqueues: seq<Option<ActionId>>, throws: bool)

  /** `Enqueue`: a null action is ignored; any other goes to the back, and nothing else changes. */
  function Enqueue(q: Queue, a: Option<ActionId>): (r: Queue)
    ensures a.None? ==> r == q
    ensures a.Some? ==> |r| == |q| + 1 && r[..|q|] == q && r[|q|] == a.value
  {
    if a.None? then q else q + [a.value]
  }

  /** The non-null actions of a sequence of `Enqueue` arguments, in order. */
  function Present(xs: seq<Option<ActionId>>): (ps: seq<ActionId>)
    ensures |ps| <= |xs|
  {
    if xs == [] then []
    else (if xs[0].Some? then [xs[0].value] else []) + Present(xs[1..])
  }

  /** Several `Enqueue` calls in a row put exactly their non-null actions at the back, in call order. */
  function EnqueueAll(q: Queue, xs: seq<Option<ActionId>>): (r: Queue)
    ensures r == q + Present(xs)
    decreases |xs|
  {
    if xs == [] then q
    else
      var head := if xs[0].Some? then [xs[0].value] else [];
      var r := EnqueueAll(Enqueue(q, xs[0]), xs[1..]);
      assert Enqueue(q, xs[0]) == q + head;
      assert Present(xs) == head + Present(xs[1..]);
      assert q + head + Present(xs[1..]) == q + (head + Present(xs[1..]));
      r
  }

  /** Everything the actions in `ran` enqueued, in the order they ran. */
  function Spawned(ran: seq<ActionId>, behave: ActionId -> Effect): seq<ActionId> {
    if ran == [] then [] else Present(behave(ran[0]).enqueues) + Spawned(ran[1..], behave)
  }

  lemma {:induction false} SpawnedAppend(ran: seq<ActionId>, a: ActionId, behave: ActionId -> Effect)
    ensures Spawned(ran + [a], behave) == Spawned(ran, behave) + Present(behave(a).enqueues)
    decreases |ran|
  {
    if ran == [] {
      assert [a][1..] == [];
      assert Spawned([a], behave) == Present(behave(a).enqueues) + Spawned([], behave);
    } else {
      assert (ran + [a])[1..] == ran[1..] + [a];
      SpawnedAppend(ran[1..], a, behave);
    }
  }

  /** How a drain ended: the queue ran empty, an action threw out of it, or the bound on invocations was reached. */
  datatype Outcome = Drained | Threw | OutOfFuel

  /** The actions invoked, in order, the queue left behind, and how the drain ended. */
  datatype Drain = Drain(ran: seq<ActionId>, queue: Queue, outcome: Outcome)

  /** The drain with `prefix` already invoked in front of it. */
  function After(prefix: seq<ActionId>, r: Drain): Drain {
    Drain(prefix + r.ran, r.queue, r.outcome)
  }

  /**
   * Reference semantics of one update: invoke the front action, let it enqueue
   * its followers, and carry on while the queue is non-empty; an exception
   * ends the update with the rest still queued. `fuel` bounds the number of
   * invocations, since an action that keeps re-enqueuing never lets it end.
   */
  function DrainQueue(q: Queue, behave: ActionId -> Effect, fuel: nat): Drain
    decreases fuel
  {
    if q == [] then Drain([], [], Drained)
    else if fuel == 0 then Drain([], q, OutOfFuel)
    else
      var a := q[0];
      var e := behave(a);
      var q1 := EnqueueAll(q[1..], e.enqueues);
      if e.throws then Drain([a], q1, Threw)
      else After([a], DrainQueue(q1, behave, fuel - 1))
  }

  /**
   * What a drain guarantees: the invoked actions followed by those left queued
   * are the initial queue followed by everything the invoked actions enqueued;
   * a normal end leaves the queue empty; running out of fuel means fuel
   * actions ran with more still queued; an exception stops at the action that threw.
   */
  lemma {:induction false} DrainFacts(q: Queue, behave: ActionId -> Effect, fuel: nat)
    ensures var r := DrainQueue(q, behave, fuel);
            && r.ran + r.queue == q + Spawned(r.ran, behave)
            && |r.ran| <= fuel
            && (r.outcome.Drained? ==> r.queue == [])
            && (r.outcome.OutOfFuel? ==> |r.ran| == fuel && r.queue != [])
            && (r.outcome.Threw? ==> |r.ran| > 0 && behave(r.ran[|r.ran| - 1]).throws)
    decreases fuel
  {
    if q != [] && fuel > 0 {
      var a := q[0];
      var q1 := EnqueueAll(q[1..], behave(a).enqueues);
      if behave(a).throws {
        DrainStep(q, q1, [], q1, behave);
        assert [a] + [] + q1 == [a] + q1;
      } else {
        DrainFacts(q1, behave, fuel - 1);
        var r1 := DrainQueue(q1, behave, fuel - 1);
        DrainStep(q, q1, r1.ran, r1.queue, behave);
        assert DrainQueue(q, behave, fuel) == Drain([a] + r1.ran, r1.queue, r1.outcome);
      }
    }
  }

  /** Invoking the front action and then draining what is left keeps the conservation equation. */
  lemma DrainStep(q: Queue, q1: Queue, ran: seq<ActionId>, rest: Queue, behave: ActionId -> Effect)
    requires q != [] && q1 == EnqueueAll(q[1..], behave(q[0]).enqueues)
    requires ran + rest == q1 + Spawned(ran, behave)
    ensures [q[0]] + ran + rest == q + Spawned([q[0]] + ran, behave)
  {
    SpawnedCons(q[0], ran, behave);
    Regroup(q, Present(behave(q[0]).enqueues), Spawned(ran, behave), ran, rest);
  }

  lemma SpawnedCons(a: ActionId, ran: seq<ActionId>, behave: ActionId -> Effect)
    ensures Spawned([a] + ran, behave) == Present(behave(a).enqueues) + Spawned(ran, behave)
  {
    assert ([a] + ran)[1..] == ran;
  }

  lemma Regroup(q: Queue, p: seq<ActionId>, sp: seq<ActionId>, ran: seq<ActionId>, rest: Queue)
    requires q != []
    requires ran + rest == q[1..] + p + sp
    ensures [q[0]] + ran + rest == q + (p + sp)
  {
    var h := [q[0]];
    assert h + q[1..] == q;
    calc {
      h + ran + rest;
      h + (ran + rest);
      h + (q[1..] + p + sp);
      h + (q[1..] + (p + sp));
      (h + q[1..]) + (p + sp);
      q + (p + sp);
    }
  }

  lemma AfterAfter(xs: seq<ActionId>, ys: seq<ActionId>, r: Drain)
    ensures After(xs, After(ys, r)) == After(xs + ys, r)
  {
    assert xs + (ys + r.ran) == (xs + ys) + r.ran;
  }

  /**
   * `Update`: while the queue is not empty, dequeue the front action and invoke
   * it. It computes exactly the reference drain.
   */
  method Update(q: Queue, behave: ActionId -> Effect, fuel: nat) returns (ran: seq<ActionId>, rest: Queue, outcome: Outcome)
    ensures Drain(ran, rest, outcome) == DrainQueue(q, behave, fuel)
    ensures outcome.Drained? ==> rest == []
  {
    ran, rest := [], q;
    var left := fuel;
    while true
      invariant DrainQueue(q, behave, fuel) == After(ran, DrainQueue(rest, behave, left))
      decreases left
    {
      if rest == [] {
        StopEmpty(ran, behave, left);
        outcome := Drained;
        return;
      }
      if left == 0 {
        StopOutOfFuel(ran, rest, behave);
        outcome := OutOfFuel;
        return;
      }
      var a := rest[0];
      var e := behave(a);
      if e.throws {
        StepThrows(ran, rest, behave, left);
        rest := EnqueueAll(rest[1..], e.enqueues);
        ran := ran + [a];
        outcome := Threw;
        return;
      }
      StepOn(ran, rest, behave, left);
      rest := EnqueueAll(rest[1..], e.enqueues);
      ran := ran + [a];
      left := left - 1;
    }
  }

  lemma StopEmpty(ran: seq<ActionId>, behave: ActionId -> Effect, left: nat)
    ensures After(ran, DrainQueue([], behave, left)) == Drain(ran, [], Drained)
  {
    assert ran + [] == ran;
  }

  lemma StopOutOfFuel(ran: seq<ActionId>, rest: Queue, behave: ActionId -> Effect)
    requires rest != []
    ensures After(ran, DrainQueue(rest, behave, 0)) == Drain(ran, rest, OutOfFuel)
  {
    assert ran + [] == ran;
  }

  /** A front action that throws ends the update, with what it enqueued still queued. */
  lemma StepThrows(ran: seq<ActionId>, rest: Queue, behave: ActionId -> Effect, left: nat)
    requires rest != [] && left > 0 && behave(rest[0]).throws
    ensures After(ran, DrainQueue(rest, behave, left))
            == Drain(ran + [rest[0]], EnqueueAll(rest[1..], behave(rest[0]).enqueues), Threw)
  {
    UnfoldDrain(rest, behave, left);
  }

  /** A front action that returns moves from the queue to the invoked actions, and the drain goes on. */
  lemma StepOn(ran: seq<ActionId>, rest: Queue, behave: ActionId -> Effect, left: nat)
    requires rest != [] && left > 0 && !behave(rest[0]).throws
    ensures After(ran, DrainQueue(rest, behave, left))
            == After(ran + [rest[0]], DrainQueue(EnqueueAll(rest[1..], behave(rest[0]).enqueues), behave, left - 1))
  {
    UnfoldDrain(rest, behave, left);
    AfterAfter(ran, [rest[0]], DrainQueue(EnqueueAll(rest[1..], behave(rest[0]).enqueues), behave, left - 1));
  }

  /** One step of the reference drain on a non-empty queue with fuel left. */
  lemma UnfoldDrain(q: Queue, behave: ActionId -> Effect, fuel: nat)
    requires q != [] && fuel > 0
    ensures var q1 := EnqueueAll(q[1..], behave(q[0]).enqueues);
            DrainQueue(q, behave, fuel)
              == if behave(q[0]).throws then Drain([q[0]], q1, Threw)
                 else After([q[0]], DrainQueue(q1, behave, fuel - 1))
  {
  }

  // ---------------------------------------------------------------------------
  // Properties
  // ---------------------------------------------------------------------------

  /** No action enqueues anything. */
  ghost predicate Quiet(behave: ActionId -> Effect) {
    forall a :: Present(behave(a).enqueues) == []
  }

  /** No action throws. */
  ghost predicate Safe(behave: ActionId -> Effect) {
    forall a :: !behave(a).throws
  }

  lemma {:induction false} SpawnedQuiet(ran: seq<ActionId>, behave: ActionId -> Effect)
    requires Quiet(behave)
    ensures Spawned(ran, behave) == []
    decreases |ran|
  {
    if ran != [] {
      SpawnedQuiet(ran[1..], behave);
    }
  }

  /** FIFO: when actions enqueue nothing, the update invokes a prefix of the queue in queue order and leaves the rest. */
  lemma FifoOrder(q: Queue, behave: ActionId -> Effect, fuel: nat)
    requires Quiet(behave)
    ensures var r := DrainQueue(q, behave, fuel);
            |r.ran| <= |q| && r.ran == q[..|r.ran|] && r.queue == q[|r.ran|..]
  {
    var r := DrainQueue(q, behave, fuel);
    DrainFacts(q, behave, fuel);
    SpawnedQuiet(r.ran, behave);
    assert r.ran + r.queue == q;
  }

  /**
   * Actions enqueued during an update run in that same update, after every
   * action that was already queued, and in the order they were enqueued.
   */
  lemma SpawnedRunLast(q: Queue, behave: ActionId -> Effect, fuel: nat)
    requires DrainQueue(q, behave, fuel).outcome.Drained?
    ensures var r := DrainQueue(q, behave, fuel);
            |q| <= |r.ran| && r.ran[..|q|] == q && r.ran[|q|..] == Spawned(r.ran, behave)
  {
    var r := DrainQueue(q, behave, fuel);
    DrainFacts(q, behave, fuel);
    assert r.ran + [] == r.ran;
  }

  /** Every invoked action returned normally, except the last one of a drain that ended by throwing. */
  ghost predicate NoEarlyThrow(r: Drain, behave: ActionId -> Effect) {
    forall k :: 0 <= k < |r.ran| && (k < |r.ran| - 1 || !r.outcome.Threw?) ==> !behave(r.ran[k]).throws
  }

  /** Only the last invoked action can have thrown, and only when the drain ended by throwing. */
  lemma {:induction false} OnlyLastThrows(q: Queue, behave: ActionId -> Effect, fuel: nat)
    ensures NoEarlyThrow(DrainQueue(q, behave, fuel), behave)
    decreases fuel
  {
    if q != [] && fuel > 0 && !behave(q[0]).throws {
      var q1 := EnqueueAll(q[1..], behave(q[0]).enqueues);
      OnlyLastThrows(q1, behave, fuel - 1);
      var r1 := DrainQueue(q1, behave, fuel - 1);
      var r := DrainQueue(q, behave, fuel);
      assert r.ran == [q[0]] + r1.ran && r.outcome == r1.outcome;
      forall k | 0 <= k < |r.ran| && (k < |r.ran| - 1 || !r.outcome.Threw?)
        ensures !behave(r.ran[k]).throws
      {
        if k > 0 {
          assert r.ran[k] == r1.ran[k - 1];
          assert k - 1 < |r1.ran| - 1 || !r1.outcome.Threw?;
        } else {
          assert r.ran[0] == q[0];
        }
      }
    }
  }

  /** With quiet, safe actions and enough fuel, one update empties the queue. */
  lemma {:induction false} QuietDrains(q: Queue, behave: ActionId -> Effect, fuel: nat)
    requires Quiet(behave) && Safe(behave) && |q| <= fuel
    ensures DrainQueue(q, behave, fuel) == Drain(q, [], Drained)
    decreases |q|
  {
    if q != [] {
      var e := behave(q[0]);
      assert Present(e.enqueues) == [];
      assert q[1..] + [] == q[1..];
      assert !e.throws;
      UnfoldDrain(q, behave, fuel);
      QuietDrains(q[1..], behave, fuel - 1);
      assert [q[0]] + q[1..] == q;
    }
  }

  /** k non-null enqueues into an empty queue followed by one update invoke exactly those k actions, in order. */
  lemma EnqueuesThenUpdate(xs: seq<Option<ActionId>>, behave: ActionId -> Effect, fuel: nat)
    requires Quiet(behave) && Safe(behave) && |xs| <= fuel
    ensures var r := DrainQueue(EnqueueAll([], xs), behave, fuel);
            r.ran == Present(xs) && r.queue == [] && r.outcome == Drained
  {
    assert EnqueueAll([], xs) == Present(xs);
    QuietDrains(Present(xs), behave, fuel);
  }
}
