/** Threads that pass two barriers in turn. Each is in front of the first, between the two, or behind the
    second; whatever the interleaving, none is between them unless the first has let a generation go that
    the second has not. */
module Meeting {
  import opened Barrier

  datatype Place = Front | Middle | Back

  datatype Meeting = Meeting(start: Barrier, stop: Barrier, places: seq<Place>) {
    /** The start barrier has let a generation go that the stop barrier has not. */
    predicate Open() {
      start.generation == stop.generation + 1
    }

    ghost predicate Placed(t: nat)
      requires t < |places|
    {
      if Open() then
        if places[t] == Front then
          t in start.waiting && start.waiting[t] + 1 == start.generation && t !in stop.waiting
        else
          && t !in start.waiting
          && (t in stop.waiting ==> places[t] == Back && stop.waiting[t] == stop.generation)
      else
        if places[t] == Back then
          t in stop.waiting && stop.waiting[t] + 1 == stop.generation && t !in start.waiting
        else
          && places[t] == Front && t !in stop.waiting
          && (t in start.waiting ==> start.waiting[t] == start.generation)
    }

    ghost predicate Met() {
      && |places| > 0 && Gate(start, |places|) && Gate(stop, |places|)
      && (Open() || start.generation == stop.generation)
      && forall t :: 0 <= t < |places| ==> Placed(t)
    }

    /** The thread moves between barriers. */
    function Move(t: nat, p: Place): Meeting
      requires t < |places|
    {
      this.(places := places[t := p])
    }

    predicate Steps(t: nat, p: Place)
      requires t < |places|
    {
      p == places[t] || (places[t] == Middle && p == Back)
    }

    /** The thread calls the start barrier, and sleeps or passes. */
    predicate MayCallStart(t: nat) {
      t < |places| && places[t] == Front && t !in start.waiting && start.count > 0
    }

    function CallStart(t: nat): Meeting
      requires MayCallStart(t)
    {
      Meeting(AfterArrival(start, t), stop, if start.count == 1 then places[t := Middle] else places)
    }

    predicate MayCallStop(t: nat) {
      t < |places| && places[t] == Back && t !in stop.waiting && stop.count > 0
    }

    function CallStop(t: nat): Meeting
      requires MayCallStop(t)
    {
      Meeting(start, AfterArrival(stop, t), if stop.count == 1 then places[t := Front] else places)
    }

    function LeaveStart(t: nat): Meeting
      requires t < |places|
    {
      Meeting(AfterLeaving(start, t), stop, places[t := Middle])
    }

    function LeaveStop(t: nat): Meeting
      requires t < |places|
    {
      Meeting(start, AfterLeaving(stop, t), places[t := Front])
    }

    lemma MoveKeeps(t: nat, p: Place)
      requires Met() && t < |places| && Steps(t, p)
      ensures Move(t, p).Met()
    {
      hide Gate;
      var m := Move(t, p);
      forall u | 0 <= u < |places| ensures m.Placed(u) {
        assert Placed(u);
      }
    }

    lemma CallStartKeeps(t: nat)
      requires Met() && MayCallStart(t)
      ensures CallStart(t).Met()
    {
      var m := CallStart(t);
      assert Placed(t);
      assert !Open();
      Ordered(t);
      GateArrival(start, |places|, t);
      if start.count == 1 {
        EverybodyWaits(start, |places|, t);
      }
      hide Gate;
      forall u | 0 <= u < |places| ensures m.Placed(u) {
        assert Placed(u);
      }
    }

    lemma CallStopKeeps(t: nat)
      requires Met() && MayCallStop(t)
      ensures CallStop(t).Met()
    {
      var m := CallStop(t);
      assert Placed(t);
      assert Open();
      Ordered(t);
      GateArrival(stop, |places|, t);
      if stop.count == 1 {
        EverybodyWaits(stop, |places|, t);
      }
      hide Gate;
      forall u | 0 <= u < |places| ensures m.Placed(u) {
        assert Placed(u);
      }
    }

    lemma Ordered(t: nat)
      requires Met()
      ensures forall u :: u in start.waiting ==> start.waiting[u] <= start.generation
      ensures forall u :: u in stop.waiting ==> stop.waiting[u] <= stop.generation
    {
      forall u | u in start.waiting ensures start.waiting[u] <= start.generation {
        assert u in UpTo(|places|);
        assert Placed(u);
      }
      forall u | u in stop.waiting ensures stop.waiting[u] <= stop.generation {
        assert u in UpTo(|places|);
        assert Placed(u);
      }
    }

    lemma LeaveStartKeeps(t: nat)
      requires Met() && t < |places| && places[t] == Front && MayLeave(start, t)
      ensures LeaveStart(t).Met()
    {
      var m := LeaveStart(t);
      assert Placed(t);
      GateLeaving(start, |places|, t);
      hide Gate;
      forall u | 0 <= u < |places| ensures m.Placed(u) {
        assert Placed(u);
      }
    }

    lemma LeaveStopKeeps(t: nat)
      requires Met() && t < |places| && places[t] == Back && MayLeave(stop, t)
      ensures LeaveStop(t).Met()
    {
      var m := LeaveStop(t);
      assert Placed(t);
      GateLeaving(stop, |places|, t);
      hide Gate;
      forall u | 0 <= u < |places| ensures m.Placed(u) {
        assert Placed(u);
      }
    }
  }

  function UpTo(n: nat): (u: set<nat>)
    ensures |u| == n && forall t: nat :: t in u <==> t < n
  {
    if n == 0 then {} else UpTo(n - 1) + {n - 1}
  }

  /** A barrier for n threads, in the middle of a generation. */
  ghost predicate Gate(b: Barrier, n: nat) {
    && !b.unblocked && 0 < b.count <= b.threshold == n
    && b.waiting.Keys <= UpTo(n)
    && b.count + |Waiters(b, b.generation)| == b.threshold
  }

  /** At the last arrival everybody else waits in this generation. */
  lemma EverybodyWaits(b: Barrier, n: nat, t: nat)
    requires Gate(b, n) && b.count == 1 && t < n && t !in b.waiting
    ensures forall u :: 0 <= u < n && u != t ==> u in b.waiting && b.waiting[u] == b.generation
  {
    var w := Waiters(b, b.generation);
    SubsetSame(w, UpTo(n) - {t});
    forall u | 0 <= u < n && u != t ensures u in b.waiting && b.waiting[u] == b.generation {
      assert u in w;
    }
  }

  lemma GateArrival(b: Barrier, n: nat, t: nat)
    requires Gate(b, n) && t < n && t !in b.waiting
    requires forall u :: u in b.waiting ==> b.waiting[u] <= b.generation
    ensures Gate(AfterArrival(b, t), n)
  {
    if b.count > 1 {
      WaitersAfter(b, t, b.generation);
    } else {
      assert Waiters(AfterArrival(b, t), b.generation + 1) == {};
    }
  }

  lemma GateLeaving(b: Barrier, n: nat, t: nat)
    requires Gate(b, n) && t in b.waiting && b.waiting[t] != b.generation
    ensures Gate(AfterLeaving(b, t), n)
  {
    WaitersLeft(b, t, b.generation);
  }

  /** A gate that not everybody waits at has somebody who does not. */
  lemma SomebodyAway(b: Barrier, n: nat) returns (t: nat)
    requires Gate(b, n)
    ensures t < n && !(t in b.waiting && b.waiting[t] == b.generation)
  {
    var w := Waiters(b, b.generation);
    assert w != UpTo(n);
    assert w <= UpTo(n);
    t :| t in UpTo(n) && t !in w;
  }
}
