/**
  The two-lane arm scheduler of the benchmark runner (scripts/cross_file_benchmark_runner.py, lines 1798-1997):
  a balanced first wave, nondeterministic completions and greedy refill of the least loaded lane.
 */
module Scheduler {
  import opened Wrappers
  import opened Sequences

  datatype Lane = NoLsp | WithLsp

  /** The arm of a question in a lane. */
  datatype Item = Item(question: nat, lane: Lane)

  /** What an arm returned; an arm that raised is recorded as failed in the same place. */
  datatype Execution = Execution(item: Item, failed: bool)

  function Slot(item: Item): nat {
    2 * item.question + (if item.lane == NoLsp then 0 else 1)
  }

  // ----- The invariant ------------------------------------------------------

  /** The queue holds the last questions of its lane, in order. */
  ghost predicate LaneQueue(n: nat, lane: Lane, q: seq<Item>) {
    |q| <= n && forall j :: 0 <= j < |q| ==> q[j] == Item(n - |q| + j, lane)
  }

  /** With `a` and `b` arms still queued, this one has left its queue. */
  predicate Started(n: nat, a: nat, b: nat, item: Item) {
    item.question + (if item.lane == NoLsp then a else b) < n
  }

  /** Every arm that left its queue was submitted once. */
  ghost predicate LogOk(n: nat, a: nat, b: nat, log: seq<Item>) {
    && Distinct(log)
    && (forall item :: item in log <==> Started(n, a, b, item))
  }

  /** A slot is filled exactly when its own arm was submitted and has finished. */
  ghost predicate SlotOk(n: nat, a: nat, b: nat, running: set<Item>, slots: seq<Option<Execution>>, item: Item)
    requires Slot(item) < |slots|
  {
    var slot := slots[Slot(item)];
    (slot.Some? <==> Started(n, a, b, item) && item !in running) && (slot.Some? ==> slot.value.item == item)
  }

  ghost predicate SlotsOk(n: nat, a: nat, b: nat, running: set<Item>, slots: seq<Option<Execution>>) {
    && |slots| == 2 * n
    && (forall item :: item in running ==> Started(n, a, b, item))
    && (forall item: Item :: item.question < n ==> SlotOk(n, a, b, running, slots, item))
  }

  function InLane(items: set<Item>, lane: Lane): set<Item> {
    set item | item in items && item.lane == lane
  }

  function Done(slots: seq<Option<Execution>>): nat {
    if slots == [] then 0 else Done(slots[..|slots| - 1]) + (if slots[|slots| - 1].Some? then 1 else 0)
  }

  lemma {:induction false} DoneUpdates(slots: seq<Option<Execution>>, k: nat, e: Execution)
    requires k < |slots| && slots[k].None?
    ensures Done(slots[k := Some(e)]) == Done(slots) + 1
  {
    var n := |slots| - 1;
    if k < n {
      DoneUpdates(slots[..n], k, e);
      assert slots[k := Some(e)][..n] == slots[..n][k := Some(e)];
    } else {
      assert slots[k := Some(e)][..n] == slots[..n];
    }
  }

  lemma {:induction false} DoneNone(n: nat)
    ensures Done(seq(n, _ => None)) == 0
  {
    if n > 0 {
      DoneNone(n - 1);
      assert seq<Option<Execution>>(n, _ => None)[..n - 1] == seq<Option<Execution>>(n - 1, _ => None);
    }
  }

  // ----- One submission -----------------------------------------------------

  lemma {:induction false} QueueHead(n: nat, lane: Lane, q: seq<Item>)
    requires LaneQueue(n, lane, q) && q != []
    ensures q[0] == Item(n - |q|, lane) && LaneQueue(n, lane, q[1..])
  {
  }

  lemma {:induction false} SubmitLog(n: nat, a: nat, b: nat, log: seq<Item>, item: Item, a': nat, b': nat)
    requires LogOk(n, a, b, log) && Leaves(n, a, b, item, a', b')
    ensures LogOk(n, a', b', log + [item])
  {
    assert item !in log;
    forall other
      ensures other in log + [item] <==> Started(n, a', b', other)
    {
      NextStarted(n, a, b, item, a', b', other);
    }
  }

  /** The head of a lane's queue leaves it. */
  ghost predicate Leaves(n: nat, a: nat, b: nat, item: Item, a': nat, b': nat) {
    && item.question + (if item.lane == NoLsp then a else b) == n
    && (if item.lane == NoLsp then a == a' + 1 && b' == b else b == b' + 1 && a' == a)
  }

  lemma {:induction false} NextStarted(n: nat, a: nat, b: nat, item: Item, a': nat, b': nat, other: Item)
    requires Leaves(n, a, b, item, a', b')
    ensures Started(n, a', b', other) <==> Started(n, a, b, other) || other == item
    ensures !Started(n, a, b, item)
  {
    assert other.lane == NoLsp || other.lane == WithLsp;
  }

  lemma {:induction false} SubmitSlots(n: nat, a: nat, b: nat, running: set<Item>, slots: seq<Option<Execution>>,
                                       item: Item, a': nat, b': nat)
    requires SlotsOk(n, a, b, running, slots) && Leaves(n, a, b, item, a', b')
    ensures item !in running && SlotsOk(n, a', b', running + {item}, slots)
  {
    hide Started, Leaves;
    NextStarted(n, a, b, item, a', b', item);
    forall other: Item
      ensures Started(n, a', b', other) <==> Started(n, a, b, other) || other == item
    {
      NextStarted(n, a, b, item, a', b', other);
    }
    forall other: Item | other.question < n
      ensures SlotOk(n, a', b', running + {item}, slots, other)
    {
      assert SlotOk(n, a, b, running, slots, other);
    }
  }

  lemma {:induction false} LaneGrows(running: set<Item>, item: Item)
    requires item !in running
    ensures InLane(running + {item}, item.lane) == InLane(running, item.lane) + {item}
    ensures forall lane :: lane != item.lane ==> InLane(running + {item}, lane) == InLane(running, lane)
    ensures |InLane(running + {item}, item.lane)| == |InLane(running, item.lane)| + 1
    ensures |running + {item}| == |running| + 1
  {
  }

  // ----- One completion -----------------------------------------------------

  lemma {:induction false} SlotsDiffer(x: Item, y: Item)
    ensures Slot(x) == Slot(y) ==> x == y
  {
    assert (x.lane == NoLsp || x.lane == WithLsp) && (y.lane == NoLsp || y.lane == WithLsp);
  }

  lemma {:induction false} CompleteSlots(n: nat, a: nat, b: nat, running: set<Item>, slots: seq<Option<Execution>>,
                                         e: Execution)
    requires SlotsOk(n, a, b, running, slots) && e.item in running
    ensures Slot(e.item) < |slots| && slots[Slot(e.item)].None?
    ensures SlotsOk(n, a, b, running - {e.item}, slots[Slot(e.item) := Some(e)])
  {
    assert Started(n, a, b, e.item);
    assert e.item.question < n && SlotOk(n, a, b, running, slots, e.item);
    hide Started;
    var next := slots[Slot(e.item) := Some(e)];
    forall other: Item | other.question < n
      ensures SlotOk(n, a, b, running - {e.item}, next, other)
    {
      assert SlotOk(n, a, b, running, slots, other);
      SlotsDiffer(other, e.item);
    }
  }

  lemma {:induction false} LaneShrinks(running: set<Item>, item: Item)
    requires item in running
    ensures forall lane :: lane != item.lane ==> InLane(running - {item}, lane) == InLane(running, lane)
    ensures |InLane(running - {item}, item.lane)| == |InLane(running, item.lane)| - 1
    ensures |running - {item}| == |running| - 1
  {
    assert InLane(running - {item}, item.lane) == InLane(running, item.lane) - {item};
  }

  // ----- The end ------------------------------------------------------------

  ghost predicate OwnSlot(slots: seq<Option<Execution>>, item: Item)
    requires Slot(item) < |slots|
  {
    slots[Slot(item)].Some? && slots[Slot(item)].value.item == item
  }

  /** When nothing is queued or running, every arm was submitted exactly once and every slot holds its own arm. */
  lemma {:induction false} AllDone(n: nat, slots: seq<Option<Execution>>, log: seq<Item>)
    requires SlotsOk(n, 0, 0, {}, slots) && LogOk(n, 0, 0, log)
    ensures |slots| == 2 * n && forall k :: 0 <= k < 2 * n ==> slots[k].Some?
    ensures forall item: Item :: item.question < n ==> OwnSlot(slots, item) && multiset(log)[item] == 1
  {
    forall k | 0 <= k < 2 * n
      ensures slots[k].Some?
    {
      var item := Item(k / 2, if k % 2 == 0 then NoLsp else WithLsp);
      assert Slot(item) == k && SlotOk(n, 0, 0, {}, slots, item);
    }
    forall item: Item | item.question < n
      ensures OwnSlot(slots, item) && multiset(log)[item] == 1
    {
      assert SlotOk(n, 0, 0, {}, slots, item) && item in log;
      OccursOnce(log, item);
    }
  }

  lemma {:induction false} OccursOnce(log: seq<Item>, item: Item)
    requires item in log && Distinct(log)
    ensures multiset(log)[item] == 1
  {
    var k :| 0 <= k < |log| && log[k] == item;
    assert log == log[..k] + [item] + log[k + 1..];
    assert item !in log[..k] && item !in log[k + 1..];
    assert multiset(log) == multiset(log[..k]) + multiset{item} + multiset(log[k + 1..]);
  }

  /** The first arms of the plan: the questions in order, no_lsp before with_lsp. */
  function PlanOrder(n: nat): seq<Item> {
    if n == 0 then [] else PlanOrder(n - 1) + [Item((n - 1) / 2, if n % 2 == 1 then NoLsp else WithLsp)]
  }

  lemma {:induction false} PlanOrderPair(k: nat)
    ensures PlanOrder(0) == [] && PlanOrder(2 * k + 1) == PlanOrder(2 * k) + [Item(k, NoLsp)]
    ensures PlanOrder(2 * k + 2) == PlanOrder(2 * k + 1) + [Item(k, WithLsp)]
  {
  }

  // ----- The full wave ------------------------------------------------------

  /** The slots of finished threads are filled, each by its own arm, and no others. */
  ghost predicate WaveOk(n: nat, threads: set<Item>, slots: seq<Option<Execution>>) {
    && |slots| == 2 * n && (forall item :: item in threads ==> item.question < n)
    && forall item: Item :: item.question < n ==> WaveSlot(threads, slots, item)
  }

  ghost predicate WaveSlot(threads: set<Item>, slots: seq<Option<Execution>>, item: Item)
    requires Slot(item) < |slots|
  {
    var slot := slots[Slot(item)];
    (slot.Some? <==> item !in threads) && (slot.Some? ==> slot.value.item == item)
  }

  /** The arms of the plan, question by question. */
  function Prepared(n: nat, a: seq<Item>, b: seq<Item>): (p: seq<Item>)
    requires |a| == n && |b| == n
    ensures |p| == 2 * n
    ensures LaneQueue(n, NoLsp, a) && LaneQueue(n, WithLsp, b) ==>
              forall k :: 0 <= k < |p| ==> p[k] == Item(k / 2, if k % 2 == 0 then NoLsp else WithLsp)
  {
    seq(2 * n, k requires 0 <= k < 2 * n => if k % 2 == 0 then a[k / 2] else b[k / 2])
  }

  function Unstarted(prepared: seq<Item>, position: nat): set<Item> {
    set k | position <= k < |prepared| :: prepared[k]
  }

  lemma {:induction false} WaveStarts(n: nat, a: seq<Item>, b: seq<Item>, running: set<Item>,
                                      slots: seq<Option<Execution>>)
    requires LaneQueue(n, NoLsp, a) && LaneQueue(n, WithLsp, b) && |a| == n && |b| == n
    requires SlotsOk(n, n, n, running, slots)
    ensures WaveOk(n, {} + Unstarted(Prepared(n, a, b), 0), slots)
  {
    var prepared := Prepared(n, a, b);
    var threads := {} + Unstarted(prepared, 0);
    forall item: Item | item.question < n
      ensures item in threads && WaveSlot(threads, slots, item)
    {
      assert item.lane == NoLsp || item.lane == WithLsp;
      assert prepared[Slot(item)] == item;
      assert SlotOk(n, n, n, running, slots, item);
    }
  }

  /** The next arm of the plan leaves the unstarted ones. */
  lemma {:induction false} StartsNext(n: nat, a: seq<Item>, b: seq<Item>, position: nat)
    requires LaneQueue(n, NoLsp, a) && LaneQueue(n, WithLsp, b) && |a| == n && |b| == n && position < 2 * n
    ensures var prepared := Prepared(n, a, b);
            var item := prepared[position];
            && PlanOrder(position + 1) == PlanOrder(position) + [item]
            && Unstarted(prepared, position) == {item} + Unstarted(prepared, position + 1)
            && item !in Unstarted(prepared, position + 1)
  {
    hide LaneQueue;
    var prepared := Prepared(n, a, b);
    assert prepared[position] in Unstarted(prepared, position);
    assert forall k :: position < k < |prepared| ==> Slot(prepared[k]) == k;
  }

  lemma {:induction false} WaveFills(n: nat, threads: set<Item>, slots: seq<Option<Execution>>, e: Execution)
    requires WaveOk(n, threads, slots) && e.item in threads
    ensures Slot(e.item) < |slots| && slots[Slot(e.item)].None?
    ensures WaveOk(n, threads - {e.item}, slots[Slot(e.item) := Some(e)])
  {
    assert e.item.question < n && WaveSlot(threads, slots, e.item);
    forall item: Item | item.question < n
      ensures WaveSlot(threads - {e.item}, slots[Slot(e.item) := Some(e)], item)
    {
      assert WaveSlot(threads, slots, item);
      SlotsDiffer(item, e.item);
    }
  }

  lemma {:induction false} DoneAll(slots: seq<Option<Execution>>)
    requires forall k :: 0 <= k < |slots| ==> slots[k].Some?
    ensures Done(slots) == |slots|
  {
    if slots != [] {
      DoneAll(slots[..|slots| - 1]);
    }
  }

  lemma {:induction false} WaveEnds(n: nat, slots: seq<Option<Execution>>)
    requires WaveOk(n, {}, slots)
    ensures SlotsOk(n, 0, 0, {}, slots) && Done(slots) == 2 * n
  {
    forall item: Item | item.question < n
      ensures SlotOk(n, 0, 0, {}, slots, item)
    {
      assert WaveSlot({}, slots, item);
    }
    forall k | 0 <= k < |slots|
      ensures slots[k].Some?
    {
      var item := Item(k / 2, if k % 2 == 0 then NoLsp else WithLsp);
      assert Slot(item) == k && WaveSlot({}, slots, item);
    }
    DoneAll(slots);
  }

  lemma {:induction false} PlanOrderAt(n: nat, k: nat)
    requires k < n
    ensures |PlanOrder(n)| == n && Slot(PlanOrder(n)[k]) == k
  {
    if k < n - 1 {
      PlanOrderAt(n - 1, k);
    } else if n > 1 {
      PlanOrderAt(n - 1, 0);
    }
  }

  /** The plan order holds every arm once. */
  lemma {:induction false} PlanLog(n: nat)
    ensures LogOk(n, 0, 0, PlanOrder(2 * n))
  {
    var log := PlanOrder(2 * n);
    forall k | 0 <= k < 2 * n
      ensures |log| == 2 * n && Slot(log[k]) == k
    {
      PlanOrderAt(2 * n, k);
    }
    assert n == 0 ==> log == [];
    if n > 0 {
      PlanOrderAt(2 * n, 0);
    }
    forall item
      ensures item in log <==> Started(n, 0, 0, item)
    {
      if item in log {
        var k :| 0 <= k < |log| && log[k] == item;
        assert Slot(item) == k;
      }
      if item.question < n {
        assert Slot(item) < 2 * n;
        SlotsDiffer(log[Slot(item)], item);
      }
    }
  }

  lemma {:induction false} EmptyQueues(n: nat)
    ensures LaneQueue(n, NoLsp, []) && LaneQueue(n, WithLsp, [])
  {
  }

  // ----- The scheduler ------------------------------------------------------

  class LaneScheduler {
    const questions: nat
    const maxConcurrency: nat
    var noLspQueue: seq<Item>
    var withLspQueue: seq<Item>
    var running: set<Item>
    var noLspCount: int
    var withLspCount: int
    var slots: seq<Option<Execution>>
    /** Every arm in the order of submission. */
    ghost var log: seq<Item>
    /** Whether a submission or a refill has found an empty queue. */
    ghost var dry: bool

    ghost predicate Valid()
      reads this
    {
      && LaneQueue(questions, NoLsp, noLspQueue) && LaneQueue(questions, WithLsp, withLspQueue)
      && LogOk(questions, |noLspQueue|, |withLspQueue|, log)
      && SlotsOk(questions, |noLspQueue|, |withLspQueue|, running, slots)
      && noLspCount == |InLane(running, NoLsp)| && withLspCount == |InLane(running, WithLsp)|
      && noLspCount + withLspCount == |running|
      && |noLspQueue| + |withLspQueue| + |running| + Done(slots) == 2 * questions
      && (dry ==> noLspQueue == [] || withLspQueue == [])
    }

    ghost function Queued(): nat
      reads this
    {
      |noLspQueue| + |withLspQueue|
    }

    ghost function Waiting(lane: Lane): seq<Item>
      reads this
    {
      if lane == NoLsp then noLspQueue else withLspQueue
    }

    ghost function Imbalance(): nat
      reads this
    {
      if noLspCount < withLspCount then withLspCount - noLspCount else noLspCount - withLspCount
    }

    constructor (questions: nat, maxConcurrency: nat)
      requires questions >= 1 && 1 <= maxConcurrency <= 40
      ensures Valid() && this.questions == questions && this.maxConcurrency == maxConcurrency
      ensures running == {} && log == [] && !dry && |noLspQueue| == |withLspQueue| == questions
    {
      this.questions, this.maxConcurrency := questions, maxConcurrency;
      noLspQueue := seq(questions, (q: nat) => Item(q, NoLsp));
      withLspQueue := seq(questions, (q: nat) => Item(q, WithLsp));
      running, noLspCount, withLspCount := {}, 0, 0;
      slots := seq(2 * questions, _ => None);
      log, dry := [], false;
      DoneNone(2 * questions);
      assert InLane({}, NoLsp) == {} && InLane({}, WithLsp) == {};
    }

    /** Take the head of a lane's queue and start it. */
    method SubmitOne(lane: Lane)
      requires Valid() && Waiting(lane) != []
      modifies this
      ensures Valid() && dry == old(dry) && slots == old(slots)
      ensures |running| == old(|running|) + 1 && Queued() == old(Queued()) - 1
      ensures log == old(log) + [Item(questions - old(|Waiting(lane)|), lane)]
      ensures lane == NoLsp ==> |noLspQueue| == old(|noLspQueue|) - 1 && withLspQueue == old(withLspQueue)
      ensures lane == NoLsp ==> noLspCount == old(noLspCount) + 1 && withLspCount == old(withLspCount)
      ensures lane == WithLsp ==> |withLspQueue| == old(|withLspQueue|) - 1 && noLspQueue == old(noLspQueue)
      ensures lane == WithLsp ==> withLspCount == old(withLspCount) + 1 && noLspCount == old(noLspCount)
    {
      hide LogOk, SlotsOk, InLane, Done, LaneQueue;
      ghost var a, b := |noLspQueue|, |withLspQueue|;
      QueueHead(questions, lane, Waiting(lane));
      var item;
      if lane == NoLsp {
        item := noLspQueue[0];
        noLspQueue := noLspQueue[1..];
        noLspCount := noLspCount + 1;
      } else {
        item := withLspQueue[0];
        withLspQueue := withLspQueue[1..];
        withLspCount := withLspCount + 1;
      }
      SubmitLog(questions, a, b, log, item, |noLspQueue|, |withLspQueue|);
      SubmitSlots(questions, a, b, running, slots, item, |noLspQueue|, |withLspQueue|);
      LaneGrows(running, item);
      running := running + {item};
      log := log + [item];
    }

    /** The lane with the fewest running arms among those with a queue; no_lsp on a tie. */
    method SubmitLeastLoaded()
      requires Valid() && Queued() > 0
      modifies this
      ensures Valid() && slots == old(slots)
      ensures |running| == old(|running|) + 1 && Queued() == old(Queued()) - 1
      ensures var lane :=
                if old(noLspQueue != [] && (withLspQueue == [] || noLspCount <= withLspCount)) then NoLsp else WithLsp;
              log == old(log) + [Item(questions - old(|Waiting(lane)|), lane)]
      ensures dry <==> old(dry) || old(noLspQueue == []) || old(withLspQueue == [])
      ensures !dry ==> Imbalance() == if old(Imbalance()) == 0 then 1 else old(Imbalance()) - 1
    {
      hide LogOk, SlotsOk, LaneQueue, InLane, Done;
      if noLspQueue == [] || withLspQueue == [] {
        dry := true;
      }
      if noLspQueue != [] && (withLspQueue == [] || noLspCount <= withLspCount) {
        SubmitOne(NoLsp);
      } else {
        SubmitOne(WithLsp);
      }
    }

    /** One finished arm frees its place and fills its own empty slot. */
    method Complete(item: Item, failed: bool)
      requires Valid() && item in running
      modifies this
      ensures Valid() && dry == old(dry) && log == old(log)
      ensures running == old(running) - {item} && Queued() == old(Queued())
      ensures noLspQueue == old(noLspQueue) && withLspQueue == old(withLspQueue)
      ensures Slot(item) < old(|slots|) && old(slots)[Slot(item)].None?
      ensures slots == old(slots)[Slot(item) := Some(Execution(item, failed))]
      ensures Imbalance() <= old(Imbalance()) + 1
    {
      hide LogOk, SlotsOk, LaneQueue, InLane, Done;
      var e := Execution(item, failed);
      CompleteSlots(questions, |noLspQueue|, |withLspQueue|, running, slots, e);
      DoneUpdates(slots, Slot(item), e);
      LaneShrinks(running, item);
      running := running - {item};
      if item.lane == NoLsp {
        noLspCount := noLspCount - 1;
      } else {
        withLspCount := withLspCount - 1;
      }
      slots := slots[Slot(item) := Some(e)];
    }

    /** The number of arms the scheduler keeps running while arms are queued. */
    function Capacity(): nat {
      if maxConcurrency < 2 * questions then maxConcurrency else 2 * questions
    }

    /** Within the limit, never idle while an arm is queued, and balanced until a queue runs dry. */
    ghost predicate Safe()
      reads this
    {
      && Valid()
      && |running| <= maxConcurrency
      && (Queued() > 0 ==> |running| == Capacity())
      && (!dry ==> Imbalance() <= 1)
    }

    /** Nothing has finished yet, and arms were submitted in the order of the plan. */
    ghost predicate InPlanOrder()
      reads this
    {
      && |noLspQueue| + noLspCount == questions == |withLspQueue| + withLspCount
      && log == PlanOrder(|running|)
    }

    /**
      Forty arms at a limit of forty: every arm gets a thread of its own, started in plan order.  A started thread
      fills its slot at any time, and the queues are emptied once all have been joined.
     */
    method FullWave()
      requires Valid() && running == {} && log == [] && maxConcurrency == 40 == 2 * questions
      requires |noLspQueue| == questions && |withLspQueue| == questions
      modifies this
      ensures Valid() && running == {} && Queued() == 0 && dry == old(dry) && log == PlanOrder(2 * questions)
    {
      hide LogOk, SlotsOk, InLane, Done, PlanOrder, WaveOk, LaneQueue;
      var prepared := Prepared(questions, noLspQueue, withLspQueue);
      WaveStarts(questions, noLspQueue, withLspQueue, running, slots);
      PlanOrderPair(0);
      var threads: set<Item> := {};
      for position := 0 to |prepared|
        invariant log == PlanOrder(position)
        invariant WaveOk(questions, threads + Unstarted(prepared, position), slots)
        invariant threads !! Unstarted(prepared, position)
        invariant unchanged(this`noLspQueue, this`withLspQueue, this`running, this`dry)
        invariant unchanged(this`noLspCount, this`withLspCount)
      {
        StartsNext(questions, noLspQueue, withLspQueue, position);
        assert threads + Unstarted(prepared, position)
            == threads + {prepared[position]} + Unstarted(prepared, position + 1);
        threads := threads + {prepared[position]};
        log := log + [prepared[position]];
        var finished := *;
        threads := JoinSome(threads, Unstarted(prepared, position + 1), finished * threads);
      }
      threads := JoinSome(threads, {}, threads);
      WaveEnds(questions, slots);
      noLspQueue, withLspQueue := [], [];
      PlanLog(questions);
      EmptyQueues(questions);
    }

    /** Some started threads finish, in any order, each with or without an error. */
    method JoinSome(threads: set<Item>, waiting: set<Item>, finished: set<Item>) returns (left: set<Item>)
      requires WaveOk(questions, threads + waiting, slots) && threads !! waiting && finished <= threads
      modifies this`slots
      ensures left == threads - finished && WaveOk(questions, left + waiting, slots)
    {
      hide WaveOk;
      left := threads;
      var rest := finished;
      while rest != {}
        invariant rest <= left && left == (threads - finished) + rest && WaveOk(questions, left + waiting, slots)
        decreases rest
      {
        var item :| item in rest;
        var failed := *;
        WaveFills(questions, left + waiting, slots, Execution(item, failed));
        slots := slots[Slot(item) := Some(Execution(item, failed))];
        assert left + waiting - {item} == (left - {item}) + waiting;
        left, rest := left - {item}, rest - {item};
      }
    }

    /** The first wave: half of the capacity in each lane, the odd one in no_lsp, submitted round robin. */
    method InitialFill()
      requires Valid() && running == {} && !dry && questions >= 1 && maxConcurrency >= 1
      requires Queued() == 0 || (|noLspQueue| == questions && |withLspQueue| == questions)
      modifies this
      ensures Valid() && dry == old(dry)
      ensures |running| == if old(Queued()) == 0 then 0 else Capacity()
      ensures old(Queued()) > 0 && old(log) == [] ==> log == PlanOrder(Capacity())
      ensures old(Queued()) == 0 ==> Queued() == 0 && log == old(log) && running == old(running)
      ensures withLspCount <= noLspCount <= withLspCount + 1
    {
      hide LogOk, SlotsOk, LaneQueue, InLane, Done, PlanOrder;
      PlanOrderPair(0);
      var each, odd := Capacity() / 2, Capacity() % 2;
      var noLspTarget := if each + odd < |noLspQueue| then each + odd else |noLspQueue|;
      var withLspTarget := if each < |withLspQueue| then each else |withLspQueue|;
      ghost var first, second := noLspTarget, withLspTarget;
      while noLspTarget > 0 || withLspTarget > 0
        invariant Valid() && dry == old(dry)
        invariant 0 <= noLspTarget <= |noLspQueue| && noLspTarget + noLspCount == first
        invariant 0 <= withLspTarget <= |withLspQueue| && withLspTarget + withLspCount == second
        invariant old(Queued()) == 0 ==> Queued() == 0 && log == old(log) && running == old(running)
        invariant withLspTarget <= noLspTarget <= withLspTarget + 1 && (noLspTarget > 0 ==> noLspCount == withLspCount)
        invariant InPlanOrder() || old(Queued()) == 0 || old(log) != []
        decreases noLspTarget + withLspTarget
      {
        ghost var k: nat := withLspCount;
        PlanOrderPair(k);
        if noLspTarget > 0 {
          assert |running| == 2 * k;
          SubmitOne(NoLsp);
          noLspTarget := noLspTarget - 1;
        }
        if withLspTarget > 0 {
          assert |running| == 2 * k + 1;
          SubmitOne(WithLsp);
          withLspTarget := withLspTarget - 1;
        }
      }
    }

    /** Submit until the capacity is reached or nothing is queued. */
    method TopUp() returns (ghost submitted: nat)
      requires Valid()
      modifies this
      ensures Valid() && Queued() + submitted == old(Queued()) && |running| == old(|running|) + submitted
      ensures submitted == if old(|running|) >= Capacity() then 0
                           else if old(Queued()) < Capacity() - old(|running|) then old(Queued())
                           else Capacity() - old(|running|)
      ensures submitted == 0 ==> dry == old(dry) && noLspCount == old(noLspCount) && withLspCount == old(withLspCount)
                                 && log == old(log)
    {
      submitted := 0;
      while |running| < Capacity()
        invariant Valid() && Queued() + submitted == old(Queued()) && |running| == old(|running|) + submitted
        invariant old(|running|) >= Capacity() ==> submitted == 0
        invariant |running| <= Capacity() || submitted == 0
        invariant submitted == 0 ==>
                    dry == old(dry) && noLspCount == old(noLspCount) && withLspCount == old(withLspCount)
                    && log == old(log)
        decreases Queued()
      {
        hide LogOk, SlotsOk, LaneQueue, InLane, Done;
        if noLspQueue == [] && withLspQueue == [] {
          break;
        }
        SubmitLeastLoaded();
        submitted := submitted + 1;
      }
    }

    /** Both fill loops; the second never submits. */
    method Fill() returns (ghost second: nat)
      requires Valid() && running == {} && !dry && questions >= 1 && maxConcurrency >= 1
      requires Queued() == 0 || (|noLspQueue| == questions && |withLspQueue| == questions)
      modifies this
      ensures Safe() && second == 0
      ensures old(Queued()) == 0 ==> log == old(log) && running == {}
    {
      hide LogOk, SlotsOk, LaneQueue, InLane, Done;
      InitialFill();
      second := TopUp();
    }

    /** Some arms finish together. */
    method CompleteAll(completed: set<Item>)
      requires Valid() && completed <= running
      modifies this
      ensures Valid() && Queued() == old(Queued()) && dry == old(dry)
      ensures |running| == old(|running|) - |completed|
      ensures Imbalance() <= old(Imbalance()) + |completed|
    {
      hide LogOk, SlotsOk, LaneQueue, InLane, Done;
      var todo := completed;
      while todo != {}
        invariant Valid() && todo <= running && Queued() == old(Queued()) && dry == old(dry)
        invariant |running| + |completed| == old(|running|) + |todo|
        invariant Imbalance() + |todo| <= old(Imbalance()) + |completed|
        decreases todo
      {
        var item :| item in todo;
        var failed := *;
        Complete(item, failed);
        todo := todo - {item};
      }
    }

    /** One submission for every finished arm, to the least loaded lane. */
    method Refill(count: nat)
      requires Valid() && (!dry ==> Imbalance() <= 1 + count)
      modifies this
      ensures Valid() && slots == old(slots)
      ensures |running| <= old(|running|) + count && (Queued() > 0 ==> |running| == old(|running|) + count)
      ensures Queued() <= old(Queued()) && (!dry ==> Imbalance() <= 1)
    {
      hide LogOk, SlotsOk, LaneQueue, InLane, Done;
      var left := count;
      while left > 0
        invariant Valid() && 0 <= left && slots == old(slots)
        invariant |running| + left == old(|running|) + count && Queued() <= old(Queued())
        invariant !dry ==> Imbalance() <= 1 + left
        decreases left
      {
        if noLspQueue == [] && withLspQueue == [] {
          dry := true;
          break;
        }
        SubmitLeastLoaded();
        left := left - 1;
      }
    }

    /** Some arms finish together, and as many are submitted in their place. */
    method Step(completed: set<Item>)
      requires Safe() && {} < completed <= running
      modifies this
      ensures Safe() && Done(slots) > old(Done(slots))
    {
      hide LogOk, SlotsOk, LaneQueue, InLane, Done;
      CompleteAll(completed);
      assert Done(slots) == old(Done(slots)) + |completed|;
      Refill(|completed|);
    }

    /** The whole plan: whatever finishes when, every arm is submitted once and fills its own slot. */
    method Run()
      requires Valid() && running == {} && log == [] && !dry && questions >= 1 && 1 <= maxConcurrency <= 40
      requires |noLspQueue| == questions && |withLspQueue| == questions
      modifies this
      ensures Safe() && running == {} && Queued() == 0 && Done(slots) == 2 * questions
      ensures |slots| == 2 * questions && forall k :: 0 <= k < 2 * questions ==> slots[k].Some?
      ensures forall item: Item :: item.question < questions ==> OwnSlot(slots, item) && multiset(log)[item] == 1
      ensures maxConcurrency == 40 == 2 * questions ==> log == PlanOrder(40)
    {
      hide LogOk, SlotsOk, LaneQueue, InLane, Done, PlanOrder;
      if maxConcurrency == 40 && 2 * questions == 40 {
        FullWave();
      }
      ghost var _ := Fill();
      while running != {}
        invariant Safe() && (maxConcurrency == 40 == 2 * questions ==> running == {} && log == PlanOrder(40))
        decreases 2 * questions - Done(slots)
      {
        var completed :| {} < completed <= running;
        Step(completed);
      }
      AllDone(questions, slots, log);
    }
  }
}
