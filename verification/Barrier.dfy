/** A reusable barrier with a generation number: threads arrive and wait, the last to arrive lets all of
    its generation go. Every step is taken under the lock; waking up without cause changes nothing. */
module Barrier {
  datatype Barrier = Barrier(threshold: nat, count: nat, generation: nat, waiting: map<nat, nat>, unblocked: bool)

  datatype Event = Arrived(thread: nat, generation: nat) | Left(thread: nat, generation: nat, last: bool)

  datatype Step = Arrive(thread: nat) | Wake(thread: nat) | Unblock

  /** The constructor refuses a threshold of zero. */
  function NewBarrier(threshold: nat): Barrier
    requires threshold > 0
  {
    Barrier(threshold, threshold, 0, map[], false)
  }

  /** The barrier when a thread has called it and gone to sleep, or has let everyone go. */
  function AfterArrival(b: Barrier, t: nat): Barrier
    requires b.count > 0
  {
    if b.unblocked then b
    else if b.count == 1 then b.(generation := b.generation + 1, count := b.threshold)
    else b.(count := b.count - 1, waiting := b.waiting[t := b.generation])
  }

  predicate MayLeave(b: Barrier, t: nat) {
    t in b.waiting && (b.unblocked || b.waiting[t] != b.generation)
  }

  function AfterLeaving(b: Barrier, t: nat): Barrier {
    b.(waiting := b.waiting - {t})
  }

  /** A step, and the events it adds to the history. */
  predicate Next(b: Barrier, s: Step, c: Barrier, events: seq<Event>) {
    match s
    case Arrive(t) =>
      && t !in b.waiting && b.count > 0 && c == AfterArrival(b, t)
      && events == if b.unblocked then []
                   else if b.count == 1 then [Arrived(t, b.generation), Left(t, b.generation, true)]
                   else [Arrived(t, b.generation)]
    case Wake(t) =>
      && t in b.waiting
      && if MayLeave(b, t) then c == AfterLeaving(b, t) && events == [Left(t, b.waiting[t], false)]
         else c == b && events == []
    case Unblock => c == b.(unblocked := true) && events == []
  }

  // ----- what the history shows

  function Arrivals(h: seq<Event>, g: nat): nat {
    if h == [] then 0
    else Arrivals(h[..|h| - 1], g) + if h[|h| - 1].Arrived? && h[|h| - 1].generation == g then 1 else 0
  }

  function Leavers(h: seq<Event>, g: nat): nat {
    if h == [] then 0 else Leavers(h[..|h| - 1], g) + if h[|h| - 1].Left? && h[|h| - 1].generation == g then 1 else 0
  }

  function Trues(h: seq<Event>, g: nat): nat {
    if h == [] then 0
    else Trues(h[..|h| - 1], g) + if h[|h| - 1].Left? && h[|h| - 1].generation == g && h[|h| - 1].last then 1 else 0
  }

  function Waiters(b: Barrier, g: nat): set<nat> {
    set t | t in b.waiting && b.waiting[t] == g
  }

  ghost predicate Inv(b: Barrier, h: seq<Event>) {
    && 0 < b.count <= b.threshold
    && b.count + Arrivals(h, b.generation) == b.threshold
    && (forall t :: t in b.waiting ==> b.waiting[t] <= b.generation)
    && (forall g: nat :: g < b.generation ==> Arrivals(h, g) == b.threshold && Trues(h, g) == 1)
    && (forall g: nat :: g >= b.generation ==> Trues(h, g) == 0)
    && (forall g: nat :: g > b.generation ==> Arrivals(h, g) == 0)
    && (forall g: nat :: Arrivals(h, g) == Leavers(h, g) + |Waiters(b, g)|)
    && (!b.unblocked ==> Leavers(h, b.generation) == 0)
  }

  lemma Snoc(h: seq<Event>, e: Event, g: nat)
    ensures Arrivals(h + [e], g) == Arrivals(h, g) + if e.Arrived? && e.generation == g then 1 else 0
    ensures Leavers(h + [e], g) == Leavers(h, g) + if e.Left? && e.generation == g then 1 else 0
    ensures Trues(h + [e], g) == Trues(h, g) + if e.Left? && e.generation == g && e.last then 1 else 0
  {
    assert (h + [e])[..|h + [e]| - 1] == h;
  }

  lemma WaitersAfter(b: Barrier, t: nat, g: nat)
    requires b.count > 0 && t !in b.waiting && !b.unblocked && b.count > 1
    ensures |Waiters(AfterArrival(b, t), g)| == |Waiters(b, g)| + if g == b.generation then 1 else 0
  {
    var v, w := Waiters(b, g), Waiters(AfterArrival(b, t), g);
    assert t !in v;
    assert w == if g == b.generation then v + {t} else v;
    hide Waiters, AfterArrival;
  }

  lemma WaitersLeft(b: Barrier, t: nat, g: nat)
    requires t in b.waiting
    ensures |Waiters(AfterLeaving(b, t), g)| == |Waiters(b, g)| - if g == b.waiting[t] then 1 else 0
  {
    var c := AfterLeaving(b, t);
    if g == b.waiting[t] {
      assert Waiters(c, g) == Waiters(b, g) - {t};
    } else {
      assert Waiters(c, g) == Waiters(b, g);
    }
  }

  lemma InvAtStart(threshold: nat)
    requires threshold > 0
    ensures Inv(NewBarrier(threshold), [])
  {
    forall g: nat ensures Waiters(NewBarrier(threshold), g) == {} {}
  }

  lemma SleeperKeeps(b: Barrier, h: seq<Event>, t: nat)
    requires Inv(b, h) && t !in b.waiting && !b.unblocked && b.count > 1
    ensures Inv(AfterArrival(b, t), h + [Arrived(t, b.generation)])
  {
    hide Arrivals, Leavers, Trues, Waiters;
    forall g: nat { Snoc(h, Arrived(t, b.generation), g); }
    forall g: nat { WaitersAfter(b, t, g); }
  }

  lemma LastKeeps(b: Barrier, h: seq<Event>, t: nat)
    requires Inv(b, h) && t !in b.waiting && !b.unblocked && b.count == 1
    ensures Inv(AfterArrival(b, t), h + [Arrived(t, b.generation), Left(t, b.generation, true)])
  {
    hide Arrivals, Leavers, Trues;
    var k := h + [Arrived(t, b.generation)];
    assert h + [Arrived(t, b.generation), Left(t, b.generation, true)] == k + [Left(t, b.generation, true)];
    forall g: nat { Snoc(h, Arrived(t, b.generation), g); }
    forall g: nat { Snoc(k, Left(t, b.generation, true), g); }
    forall g: nat ensures Waiters(AfterArrival(b, t), g) == Waiters(b, g) {}
    hide Waiters;
  }

  lemma LeaverKeeps(b: Barrier, h: seq<Event>, t: nat)
    requires Inv(b, h) && MayLeave(b, t)
    ensures Inv(AfterLeaving(b, t), h + [Left(t, b.waiting[t], false)])
  {
    hide Arrivals, Leavers, Trues, Waiters;
    forall g: nat { Snoc(h, Left(t, b.waiting[t], false), g); }
    forall g: nat { WaitersLeft(b, t, g); }
  }

  /** Every step keeps the invariant, a wakeup without cause included. */
  lemma InvKept(b: Barrier, h: seq<Event>, s: Step, c: Barrier, events: seq<Event>)
    requires Inv(b, h) && Next(b, s, c, events)
    ensures Inv(c, h + events)
  {
    hide Arrivals, Leavers, Trues;
    assert events == [] ==> h + events == h;
    forall g: nat ensures c.waiting == b.waiting ==> Waiters(c, g) == Waiters(b, g) {}
    hide Waiters;
    match s
    case Arrive(t) =>
      if !b.unblocked && b.count > 1 {
        SleeperKeeps(b, h, t);
      } else if !b.unblocked {
        LastKeeps(b, h, t);
      }
    case Wake(t) =>
      if MayLeave(b, t) {
        LeaverKeeps(b, h, t);
      }
    case Unblock =>
  }

  /** A run from a new barrier, with the history of its events. */
  ghost predicate Run(threshold: nat, states: seq<Barrier>, steps: seq<Step>, events: seq<seq<Event>>)
    requires threshold > 0
  {
    && |states| == |steps| + 1 && |events| == |steps| && states[0] == NewBarrier(threshold)
    && forall i :: 0 <= i < |steps| ==> Next(states[i], steps[i], states[i + 1], events[i])
  }

  function History(events: seq<seq<Event>>, i: nat): seq<Event>
    requires i <= |events|
  {
    if i == 0 then [] else History(events, i - 1) + events[i - 1]
  }

  lemma {:induction false} InvAlways(threshold: nat, states: seq<Barrier>, steps: seq<Step>, events: seq<seq<Event>>,
                                     i: nat)
    requires threshold > 0 && Run(threshold, states, steps, events) && i < |states|
    ensures Inv(states[i], History(events, i)) && states[i].threshold == threshold
  {
    hide Inv;
    if i == 0 {
      InvAtStart(threshold);
    } else {
      InvAlways(threshold, states, steps, events, i - 1);
      assert Next(states[i - 1], steps[i - 1], states[i], events[i - 1]);
      InvKept(states[i - 1], History(events, i - 1), steps[i - 1], states[i], events[i - 1]);
    }
  }

  /** What the barrier promises at every point of every run, as long as nobody has unblocked it: the count
      is the threshold less the arrivals of the generation; whoever leaves a generation leaves it complete;
      a complete generation has returned true once, and its threads leave it as often as they arrived. */
  lemma BarrierSafety(threshold: nat, states: seq<Barrier>, steps: seq<Step>, events: seq<seq<Event>>, i: nat, g: nat)
    requires threshold > 0 && Run(threshold, states, steps, events) && i < |states| && !states[i].unblocked
    ensures var b, h := states[i], History(events, i);
            && b.count == threshold - Arrivals(h, b.generation)
            && (Leavers(h, g) > 0 ==> Arrivals(h, g) == threshold)
            && Trues(h, g) == (if g < b.generation then 1 else 0)
            && (Waiters(b, g) == {} ==> Leavers(h, g) == Arrivals(h, g))
  {
    hide Arrivals, Leavers, Trues, Waiters;
    InvAlways(threshold, states, steps, events, i);
  }

  // ----- no more threads than the threshold

  /** Only these threads use the barrier. */
  ghost predicate Users(b: Barrier, users: set<nat>) {
    b.waiting.Keys <= users && |users| == b.threshold
  }

  /** Nobody sleeps through a whole generation. */
  ghost predicate Close(b: Barrier) {
    && (!b.unblocked ==> b.count + |Waiters(b, b.generation)| == b.threshold)
    && forall t :: t in b.waiting ==> b.waiting[t] <= b.generation <= b.waiting[t] + 1
  }

  /** At the last arrival everybody else is waiting in this generation. */
  lemma AllWaiting(b: Barrier, users: set<nat>, t: nat)
    requires Users(b, users) && Close(b) && b.count == 1 && !b.unblocked && t in users && t !in b.waiting
    ensures Waiters(b, b.generation) == users - {t}
  {
    var w := Waiters(b, b.generation);
    SubsetSame(w, users - {t});
  }

  lemma SubsetSame(a: set<nat>, b: set<nat>)
    requires a <= b && |a| == |b|
    ensures a == b
  {
    var d := b - a;
    assert b == a + d && |a + d| == |a| + |d|;
  }

  lemma CloseKept(b: Barrier, users: set<nat>, s: Step, c: Barrier, events: seq<Event>)
    requires Users(b, users) && Close(b) && Next(b, s, c, events) && (s.Arrive? ==> s.thread in users)
    ensures Users(c, users) && Close(c)
  {
    hide Waiters;
    match s
    case Arrive(t) =>
      if !b.unblocked && b.count > 1 {
        WaitersAfter(b, t, b.generation);
      } else if !b.unblocked {
        AllWaiting(b, users, t);
        NoneOfNext(b, users, t);
      }
    case Wake(t) =>
      if MayLeave(b, t) {
        WaitersLeft(b, t, b.generation);
      }
    case Unblock =>
  }

  lemma NoneOfNext(b: Barrier, users: set<nat>, t: nat)
    requires Users(b, users) && Close(b) && b.count == 1 && !b.unblocked && t in users && t !in b.waiting
    ensures Waiters(AfterArrival(b, t), b.generation + 1) == {}
    ensures forall u :: u in b.waiting ==> b.waiting[u] == b.generation
  {
    AllWaiting(b, users, t);
    forall u | u in b.waiting ensures b.waiting[u] == b.generation {
      assert u in Waiters(b, b.generation);
    }
  }

  /** So the generation may be kept in 32 bits: a sleeper still tells its own from the next. */
  lemma GenerationWraps(b: Barrier, t: nat)
    requires Close(b) && t in b.waiting
    ensures b.waiting[t] % 0x1_0000_0000 == b.generation % 0x1_0000_0000 <==> b.waiting[t] == b.generation
  {}
}
