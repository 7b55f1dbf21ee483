/** The frame-by-frame thread pool: N workers and their owner meet at a start barrier, run the frame's jobs
    from a shared queue, and meet again at a stop barrier. Any interleaving of their steps, any number of frames. */
module Pool {
  import opened Barrier
  import opened Meeting

  /** Where a worker is: outside run(), inside it, in a job, catching what a job threw, or at a barrier. */
  datatype WorkerPc = AtStart | Entering | Inside | Running(job: nat) | Caught | AtStop

  /** Where the owner is: between frames, in ready() (exceptions cleared, queue reset, work made), or in execute(). */
  datatype OwnerPc = Between | Cleared | Fresh | OwnerAtStart | Posting | OwnerAtStop

  /** given, ran and threw record the frame: the jobs in the queue since ready(), and what became of them. */
  datatype Pool = Pool(start: Barrier, stop: Barrier, workers: seq<WorkerPc>, owner: OwnerPc,
                       queue: seq<nat>, work: bool, stopped: bool, exceptions: nat, result: nat,
                       given: multiset<nat>, ran: multiset<nat>, threw: multiset<nat>)
  {
    /** The owner's number among the threads; the workers' come before it. */
    function Owner(): nat {
      |workers|
    }

    /** run() returns when there is no work object and no job is queued or running. */
    predicate Drained() {
      !work && queue == [] && forall w :: 0 <= w < |workers| ==> !workers[w].Running?
    }

    function At(w: nat, pc: WorkerPc): Pool
      requires w < |workers|
    {
      this.(workers := workers[w := pc])
    }
  }

  function NewPool(n: nat): Pool
    requires n > 0
  {
    Pool(NewBarrier(n + 1), NewBarrier(n + 1), seq(n, i => AtStart), Between, [], false, false, 0, 0,
         multiset{}, multiset{}, multiset{})
  }

  datatype Move =
    | Clear | Reset | MakeWork | Post(job: nat) | DropWork | OwnerArrive | OwnerWake
    | WorkerArrive(w: nat) | WorkerWake(w: nat) | Enter(w: nat) | Take(w: nat) | Finish(w: nat)
    | Throw(w: nat) | Count(w: nat) | Return(w: nat)

  predicate Can(s: Pool, m: Move) {
    match m
    case Clear => s.owner == Between
    case Reset => s.owner == Cleared
    case MakeWork => s.owner == Fresh
    case Post(_) => s.owner == Posting
    case DropWork => s.owner == Posting
    case OwnerArrive =>
      || (s.owner == OwnerAtStart && s.Owner() !in s.start.waiting && s.start.count > 0)
      || (s.owner == OwnerAtStop && s.Owner() !in s.stop.waiting && s.stop.count > 0)
    case OwnerWake =>
      || (s.owner == OwnerAtStart && s.Owner() in s.start.waiting)
      || (s.owner == OwnerAtStop && s.Owner() in s.stop.waiting)
    case WorkerArrive(w) => w < |s.workers| && (
      || (s.workers[w] == AtStart && w !in s.start.waiting && s.start.count > 0)
      || (s.workers[w] == AtStop && w !in s.stop.waiting && s.stop.count > 0))
    case WorkerWake(w) => w < |s.workers| && (
      || (s.workers[w] == AtStart && w in s.start.waiting)
      || (s.workers[w] == AtStop && w in s.stop.waiting))
    case Enter(w) => w < |s.workers| && s.workers[w] == Entering
    case Take(w) => w < |s.workers| && s.workers[w] == Inside && s.queue != [] && !s.stopped
    case Finish(w) => w < |s.workers| && s.workers[w].Running?
    case Throw(w) => w < |s.workers| && s.workers[w].Running?
    case Count(w) => w < |s.workers| && s.workers[w] == Caught
    case Return(w) => w < |s.workers| && s.workers[w] == Inside && (s.stopped || s.Drained())
  }

  function OwnerStarted(s: Pool): Pool {
    s.(owner := Posting)
  }

  function OwnerDone(s: Pool): Pool {
    s.(owner := Between, result := s.exceptions)
  }

  function OwnerArrives(s: Pool): Pool
    requires Can(s, OwnerArrive)
  {
    if s.owner == OwnerAtStart then
      var t := s.(start := AfterArrival(s.start, s.Owner()));
      if s.start.count == 1 then OwnerStarted(t) else t
    else
      var t := s.(stop := AfterArrival(s.stop, s.Owner()));
      if s.stop.count == 1 then OwnerDone(t) else t
  }

  function OwnerWakes(s: Pool): Pool
    requires Can(s, OwnerWake)
  {
    if s.owner == OwnerAtStart then
      if MayLeave(s.start, s.Owner()) then OwnerStarted(s.(start := AfterLeaving(s.start, s.Owner()))) else s
    else
      if MayLeave(s.stop, s.Owner()) then OwnerDone(s.(stop := AfterLeaving(s.stop, s.Owner()))) else s
  }

  function WorkerArrives(s: Pool, w: nat): Pool
    requires Can(s, WorkerArrive(w))
  {
    if s.workers[w] == AtStart then
      var t := s.(start := AfterArrival(s.start, w));
      if s.start.count == 1 then t.At(w, Entering) else t
    else
      var t := s.(stop := AfterArrival(s.stop, w));
      if s.stop.count == 1 then t.At(w, AtStart) else t
  }

  function WorkerWakesUp(s: Pool, w: nat): Pool
    requires Can(s, WorkerWake(w))
  {
    if s.workers[w] == AtStart then
      if MayLeave(s.start, w) then s.(start := AfterLeaving(s.start, w)).At(w, Entering) else s
    else
      if MayLeave(s.stop, w) then s.(stop := AfterLeaving(s.stop, w)).At(w, AtStart) else s
  }

  function Do(s: Pool, m: Move): Pool
    requires Can(s, m)
  {
    match m
    case Clear => s.(owner := Cleared, exceptions := 0, given := multiset(s.queue), ran := multiset{},
                     threw := multiset{})
    case Reset => s.(owner := Fresh, stopped := false)
    case MakeWork => s.(owner := OwnerAtStart, work := true)
    case Post(job) => s.(queue := s.queue + [job], given := s.given + multiset{job})
    case DropWork => s.(owner := OwnerAtStop, work := false)
    case OwnerArrive => OwnerArrives(s)
    case OwnerWake => OwnerWakes(s)
    case WorkerArrive(w) => WorkerArrives(s, w)
    case WorkerWake(w) => WorkerWakesUp(s, w)
    case Enter(w) => s.At(w, Inside)
    case Take(w) => s.(queue := s.queue[1..]).At(w, Running(s.queue[0]))
    case Finish(w) => s.(ran := s.ran + multiset{s.workers[w].job}).At(w, Inside)
    case Throw(w) => s.(threw := s.threw + multiset{s.workers[w].job}).At(w, Caught)
    case Count(w) => s.(exceptions := s.exceptions + 1).At(w, AtStop)
    case Return(w) => s.(stopped := true).At(w, AtStop)
  }

  // ----- where the threads may be

  function WorkerPlace(pc: WorkerPc): Place {
    match pc
    case AtStart => Front
    case AtStop => Back
    case _ => Middle
  }

  function OwnerPlace(pc: OwnerPc): Place {
    match pc
    case Posting => Middle
    case OwnerAtStop => Back
    case _ => Front
  }

  function Places(s: Pool): (p: seq<Place>)
    ensures |p| == |s.workers| + 1 && p[|s.workers|] == OwnerPlace(s.owner)
    ensures forall w :: 0 <= w < |s.workers| ==> p[w] == WorkerPlace(s.workers[w])
  {
    seq(|s.workers| + 1, t requires 0 <= t <= |s.workers| =>
      if t < |s.workers| then WorkerPlace(s.workers[t]) else OwnerPlace(s.owner))
  }

  function MeetingOf(s: Pool): Meeting {
    Meeting(s.start, s.stop, Places(s))
  }

  /** The frame runs: the start barrier has let everybody go, and the stop barrier has not yet. */
  predicate Frame(s: Pool) {
    MeetingOf(s).Open()
  }

  ghost predicate Sync(s: Pool) {
    && |s.workers| > 0 && MeetingOf(s).Met()
    && (s.Owner() in s.start.waiting ==> s.owner == OwnerAtStart)
    && (s.Owner() in s.stop.waiting ==> s.owner == OwnerAtStop)
  }

  // ----- what becomes of the jobs

  /** How many workers run that job. */
  function InHand(ws: seq<WorkerPc>, j: nat): nat {
    if ws == [] then 0 else InHand(ws[..|ws| - 1], j) + if ws[|ws| - 1] == Running(j) then 1 else 0
  }

  function Catching(ws: seq<WorkerPc>): nat {
    if ws == [] then 0 else Catching(ws[..|ws| - 1]) + if ws[|ws| - 1] == Caught then 1 else 0
  }

  /** The job is in the queue, with a worker, or over, as often as it was given. */
  ghost predicate Balanced(s: Pool, j: nat) {
    s.given[j] == multiset(s.queue)[j] + InHand(s.workers, j) + s.ran[j] + s.threw[j]
  }

  ghost predicate Books(s: Pool) {
    && (forall j: nat :: Balanced(s, j))
    && s.exceptions + Catching(s.workers) == |s.threw|
  }

  ghost predicate Done(s: Pool) {
    && (s.work <==> s.owner == OwnerAtStart || s.owner == Posting)
    && (s.owner == Fresh || s.owner == OwnerAtStart || s.owner == Posting ==> !s.stopped)
    && (Frame(s) || s.owner == OwnerAtStop ==> s.stopped ==> s.Drained())
    && (Frame(s) ==> forall w :: 0 <= w < |s.workers| && s.workers[w] == AtStop ==> s.stopped || |s.threw| > 0)
    && (!Frame(s) && s.owner == OwnerAtStop ==> s.stopped || |s.threw| > 0)
  }

  ghost predicate Inv(s: Pool) {
    Sync(s) && Books(s) && Done(s)
  }

  // ----- every step keeps the invariant

  lemma {:induction false} InHandSet(ws: seq<WorkerPc>, w: nat, pc: WorkerPc, j: nat)
    requires w < |ws|
    ensures InHand(ws[w := pc], j) + (if ws[w] == Running(j) then 1 else 0)
            == InHand(ws, j) + if pc == Running(j) then 1 else 0
    decreases |ws|
  {
    var n := |ws| - 1;
    if w < n {
      assert ws[w := pc][..n] == ws[..n][w := pc];
      InHandSet(ws[..n], w, pc, j);
    } else {
      assert ws[w := pc][..n] == ws[..n];
    }
  }

  lemma {:induction false} CatchingSet(ws: seq<WorkerPc>, w: nat, pc: WorkerPc)
    requires w < |ws|
    ensures Catching(ws[w := pc]) + (if ws[w] == Caught then 1 else 0) == Catching(ws) + if pc == Caught then 1 else 0
    decreases |ws|
  {
    var n := |ws| - 1;
    if w < n {
      assert ws[w := pc][..n] == ws[..n][w := pc];
      CatchingSet(ws[..n], w, pc);
    } else {
      assert ws[w := pc][..n] == ws[..n];
    }
  }

  lemma {:induction false} NobodyInside(ws: seq<WorkerPc>, j: nat)
    requires forall w :: 0 <= w < |ws| ==> !ws[w].Running?
    ensures InHand(ws, j) == 0
    decreases |ws|
  {
    if ws != [] {
      NobodyInside(ws[..|ws| - 1], j);
    }
  }

  lemma {:induction false} NobodyCatching(ws: seq<WorkerPc>)
    requires forall w :: 0 <= w < |ws| ==> ws[w] != Caught
    ensures Catching(ws) == 0
    decreases |ws|
  {
    if ws != [] {
      NobodyCatching(ws[..|ws| - 1]);
    }
  }

  /** No thread is between the barriers unless a frame runs. */
  lemma OutsideFrame(s: Pool)
    requires Sync(s) && !Frame(s)
    ensures forall w :: 0 <= w < |s.workers| ==> s.workers[w] == AtStart || s.workers[w] == AtStop
    ensures (forall j: nat :: InHand(s.workers, j) == 0) && Catching(s.workers) == 0 && s.owner != Posting
  {
    hide Gate;
    forall w | 0 <= w < |s.workers| ensures s.workers[w] == AtStart || s.workers[w] == AtStop {
      assert MeetingOf(s).Placed(w);
    }
    assert MeetingOf(s).Placed(s.Owner());
    forall j: nat { NobodyInside(s.workers, j); }
    NobodyCatching(s.workers);
  }

  /** The owner prepares a frame only when the last one is over. */
  lemma OwnerInFront(s: Pool)
    requires Sync(s) && s.owner in {Between, Cleared, Fresh}
    ensures !Frame(s)
  {
    hide Gate;
    assert MeetingOf(s).Placed(s.Owner());
  }

  predicate IsWork(m: Move) {
    m.Enter? || m.Take? || m.Finish? || m.Throw? || m.Count? || m.Return?
  }

  predicate AtBarrier(m: Move) {
    m.WorkerArrive? || m.WorkerWake?
  }

  /** A move of worker w that touches nothing but w's place, and perhaps the barriers and the stopped flag. */
  ghost predicate Quiet(s: Pool, t: Pool, w: nat) {
    && w < |s.workers| && |t.workers| == |s.workers| && t.workers == s.workers[w := t.workers[w]]
    && t.queue == s.queue && t.exceptions == s.exceptions && t.given == s.given && t.ran == s.ran && t.threw == s.threw
    && !s.workers[w].Running? && s.workers[w] != Caught && !t.workers[w].Running? && t.workers[w] != Caught
  }

  lemma QuietBooks(s: Pool, t: Pool, w: nat)
    requires Books(s) && Quiet(s, t, w)
    ensures Books(t)
  {
    hide InHand, Catching;
    forall j: nat ensures Balanced(t, j) {
      assert Balanced(s, j);
      InHandSet(s.workers, w, t.workers[w], j);
    }
    CatchingSet(s.workers, w, t.workers[w]);
  }

  lemma QuietMoves(s: Pool, m: Move)
    requires Can(s, m) && (AtBarrier(m) || m.Enter? || m.Return?)
    ensures Quiet(s, Do(s, m), m.w)
  {
    if AtBarrier(m) {
      QuietAtBarrier(s, m);
    }
  }

  lemma QuietAtBarrier(s: Pool, m: Move)
    requires Can(s, m) && AtBarrier(m)
    ensures Quiet(s, Do(s, m), m.w)
  {
    hide MayLeave, AfterArrival, AfterLeaving;
  }

  lemma HeadOf(q: seq<nat>, j: nat)
    requires q != []
    ensures multiset(q)[j] == multiset(q[1..])[j] + if q[0] == j then 1 else 0
  {
    assert q == [q[0]] + q[1..];
  }

  lemma TakeBooks(s: Pool, w: nat)
    requires Books(s) && Can(s, Take(w))
    ensures Books(Do(s, Take(w)))
  {
    hide InHand, Catching;
    forall j: nat ensures Balanced(Do(s, Take(w)), j) {
      assert Balanced(s, j);
      InHandSet(s.workers, w, Running(s.queue[0]), j);
      HeadOf(s.queue, j);
    }
    CatchingSet(s.workers, w, Running(s.queue[0]));
  }

  lemma FinishBooks(s: Pool, w: nat)
    requires Books(s) && Can(s, Finish(w))
    ensures Books(Do(s, Finish(w)))
  {
    hide InHand, Catching;
    forall j: nat ensures Balanced(Do(s, Finish(w)), j) {
      assert Balanced(s, j);
      InHandSet(s.workers, w, Inside, j);
    }
    CatchingSet(s.workers, w, Inside);
  }

  lemma ThrowBooks(s: Pool, w: nat)
    requires Books(s) && Can(s, Throw(w))
    ensures Books(Do(s, Throw(w)))
  {
    hide InHand, Catching;
    forall j: nat ensures Balanced(Do(s, Throw(w)), j) {
      assert Balanced(s, j);
      InHandSet(s.workers, w, Caught, j);
    }
    CatchingSet(s.workers, w, Caught);
  }

  lemma CountBooks(s: Pool, w: nat)
    requires Books(s) && Can(s, Count(w))
    ensures Books(Do(s, Count(w)))
  {
    hide InHand, Catching;
    forall j: nat ensures Balanced(Do(s, Count(w)), j) {
      assert Balanced(s, j);
      InHandSet(s.workers, w, AtStop, j);
    }
    CatchingSet(s.workers, w, AtStop);
  }

  /** What the owner leaves alone. */
  lemma OwnerMoves(s: Pool, m: Move)
    requires Can(s, m) && !IsWork(m) && !AtBarrier(m) && m != Clear
    ensures var t := Do(s, m);
            && t.workers == s.workers && t.ran == s.ran && t.threw == s.threw && t.exceptions == s.exceptions
            && if m.Post? then t.queue == s.queue + [m.job] && t.given == s.given + multiset{m.job}
               else t.queue == s.queue && t.given == s.given
  {
    hide MayLeave, AfterArrival, AfterLeaving;
  }

  lemma OwnerBooks(s: Pool, m: Move)
    requires Books(s) && Can(s, m) && !IsWork(m) && !AtBarrier(m) && m != Clear
    ensures Books(Do(s, m))
  {
    hide InHand, Catching, Do;
    OwnerMoves(s, m);
    forall j: nat ensures Balanced(Do(s, m), j) {
      assert Balanced(s, j);
    }
  }

  lemma ClearBooks(s: Pool)
    requires Sync(s) && Can(s, Clear)
    ensures Books(Do(s, Clear))
  {
    OwnerInFront(s);
    OutsideFrame(s);
    hide Sync, InHand, Catching;
  }

  lemma BooksKept(s: Pool, m: Move)
    requires Sync(s) && Books(s) && Can(s, m)
    ensures Books(Do(s, m))
  {
    hide Sync, Books, Do, Can;
    match m
    case Clear => ClearBooks(s);
    case Take(w) => TakeBooks(s, w);
    case Finish(w) => FinishBooks(s, w);
    case Throw(w) => ThrowBooks(s, w);
    case Count(w) => CountBooks(s, w);
    case WorkerArrive(w) => QuietMoves(s, m); QuietBooks(s, Do(s, m), w);
    case WorkerWake(w) => QuietMoves(s, m); QuietBooks(s, Do(s, m), w);
    case Enter(w) => QuietMoves(s, m); QuietBooks(s, Do(s, m), w);
    case Return(w) => QuietMoves(s, m); QuietBooks(s, Do(s, m), w);
    case _ => OwnerBooks(s, m);
  }

  // ----- the threads' places

  /** A worker's work does not touch the barriers, the owner or the other workers. */
  lemma WorkAlone(s: Pool, m: Move)
    requires Can(s, m) && IsWork(m)
    ensures var t := Do(s, m);
            && t.start == s.start && t.stop == s.stop && t.owner == s.owner
            && |t.workers| == |s.workers| && t.workers == s.workers[m.w := t.workers[m.w]]
            && WorkerPlace(s.workers[m.w]) == Middle && WorkerPlace(t.workers[m.w]) != Front
  {
    if m.Take? || m.Finish? || m.Throw? {
      JobAlone(s, m);
    }
    hide MayLeave, AfterArrival, AfterLeaving, Pool.Drained;
  }

  lemma JobAlone(s: Pool, m: Move)
    requires Can(s, m) && (m.Take? || m.Finish? || m.Throw?)
    ensures var t := Do(s, m);
            && t.start == s.start && t.stop == s.stop && t.owner == s.owner
            && |t.workers| == |s.workers| && t.workers == s.workers[m.w := t.workers[m.w]]
            && WorkerPlace(s.workers[m.w]) == Middle && WorkerPlace(t.workers[m.w]) != Front
  {
    hide MayLeave, AfterArrival, AfterLeaving, Pool.Drained;
  }

  lemma OneMoved(s: Pool, t: Pool, w: nat)
    requires w < |s.workers| == |t.workers| && t.owner == s.owner && t.workers == s.workers[w := t.workers[w]]
    ensures Places(t) == MeetingOf(s).Move(w, WorkerPlace(t.workers[w])).places
  {}

  lemma WorkMoves(s: Pool, m: Move)
    requires Can(s, m) && IsWork(m)
    ensures MeetingOf(Do(s, m)).places == MeetingOf(s).Move(m.w, WorkerPlace(Do(s, m).workers[m.w])).places
    ensures MeetingOf(s).Steps(m.w, WorkerPlace(Do(s, m).workers[m.w]))
    ensures Do(s, m).start == s.start && Do(s, m).stop == s.stop && Do(s, m).owner == s.owner
    ensures |Do(s, m).workers| == |s.workers|
  {
    WorkAlone(s, m);
    hide Do, Can;
    OneMoved(s, Do(s, m), m.w);
  }

  /** What a call of a barrier, or a wakeup at one, is to the meeting. */
  lemma WorkerCalls(s: Pool, w: nat)
    requires Can(s, WorkerArrive(w))
    ensures var a, b := MeetingOf(s), MeetingOf(Do(s, WorkerArrive(w)));
            if s.workers[w] == AtStart then a.MayCallStart(w) && b == a.CallStart(w)
            else a.MayCallStop(w) && b == a.CallStop(w)
  {
    hide AfterArrival, Places;
    OneMoved(s, Do(s, WorkerArrive(w)), w);
  }

  lemma WorkerWakes(s: Pool, w: nat)
    requires Can(s, WorkerWake(w))
    ensures var a, b := MeetingOf(s), MeetingOf(Do(s, WorkerWake(w)));
            if s.workers[w] == AtStart then if MayLeave(s.start, w) then b == a.LeaveStart(w) else b == a
            else if MayLeave(s.stop, w) then b == a.LeaveStop(w) else b == a
  {
    hide MayLeave, AfterLeaving, Places;
    OneMoved(s, Do(s, WorkerWake(w)), w);
  }

  lemma OwnerMeets(s: Pool, m: Move)
    requires Can(s, m) && (m.OwnerArrive? || m.OwnerWake?)
    ensures var a, b, t := MeetingOf(s), MeetingOf(Do(s, m)), s.Owner();
            && (m.OwnerArrive? ==> if s.owner == OwnerAtStart then a.MayCallStart(t) && b == a.CallStart(t)
                                   else a.MayCallStop(t) && b == a.CallStop(t))
            && (m.OwnerWake? ==> if s.owner == OwnerAtStart
                                 then if MayLeave(s.start, t) then b == a.LeaveStart(t) else b == a
                                 else if MayLeave(s.stop, t) then b == a.LeaveStop(t) else b == a)
  {
    hide MayLeave, AfterArrival, AfterLeaving;
    assert Places(Do(s, m)) == Places(s)[s.Owner() := OwnerPlace(Do(s, m).owner)];
  }

  /** Only the owner's own moves change what its waiting says. */
  lemma OwnerUndisturbed(s: Pool, t: Pool, w: nat)
    requires |t.workers| == |s.workers| && w < |s.workers| && t.owner == s.owner && Sync(s) && MeetingOf(t).Met()
    requires t.start == s.start || t.start == AfterLeaving(s.start, w)
             || (s.start.count > 0 && t.start == AfterArrival(s.start, w))
    requires t.stop == s.stop || t.stop == AfterLeaving(s.stop, w)
             || (s.stop.count > 0 && t.stop == AfterArrival(s.stop, w))
    ensures Sync(t)
  {
    hide Meeting.Met;
  }

  lemma ArriveSync(s: Pool, w: nat)
    requires Sync(s) && Can(s, WorkerArrive(w))
    ensures Sync(Do(s, WorkerArrive(w)))
  {
    WorkerCalls(s, w);
    if s.workers[w] == AtStart {
      MeetingOf(s).CallStartKeeps(w);
    } else {
      MeetingOf(s).CallStopKeeps(w);
    }
    hide Meeting.Met, Places, AfterArrival;
    OwnerUndisturbed(s, Do(s, WorkerArrive(w)), w);
  }

  lemma WakeSync(s: Pool, w: nat)
    requires Sync(s) && Can(s, WorkerWake(w))
    ensures Sync(Do(s, WorkerWake(w)))
  {
    WorkerWakes(s, w);
    if s.workers[w] == AtStart {
      if MayLeave(s.start, w) {
        MeetingOf(s).LeaveStartKeeps(w);
      }
    } else if MayLeave(s.stop, w) {
      MeetingOf(s).LeaveStopKeeps(w);
    }
    hide Meeting.Met, MayLeave, AfterLeaving, Places;
    OwnerUndisturbed(s, Do(s, WorkerWake(w)), w);
  }

  lemma WorkerSync(s: Pool, m: Move)
    requires Sync(s) && Can(s, m) && AtBarrier(m)
    ensures Sync(Do(s, m))
  {
    hide Sync, Can, Do;
    match m
    case WorkerArrive(w) => ArriveSync(s, w);
    case WorkerWake(w) => WakeSync(s, w);
  }

  lemma OwnerSync(s: Pool, m: Move)
    requires Sync(s) && Can(s, m) && (m.OwnerArrive? || m.OwnerWake?)
    ensures Sync(Do(s, m))
  {
    OwnerMeets(s, m);
    var a, t := MeetingOf(s), s.Owner();
    if m.OwnerArrive? {
      if s.owner == OwnerAtStart {
        a.CallStartKeeps(t);
      } else {
        a.CallStopKeeps(t);
      }
    } else if s.owner == OwnerAtStart {
      if MayLeave(s.start, t) {
        a.LeaveStartKeeps(t);
      }
    } else if MayLeave(s.stop, t) {
      a.LeaveStopKeeps(t);
    }
    hide Gate, Meeting.Met, Places;
  }

  lemma OwnerPreparesSync(s: Pool, m: Move)
    requires Sync(s) && Can(s, m) && !IsWork(m) && !AtBarrier(m) && !m.OwnerArrive? && !m.OwnerWake?
    ensures Sync(Do(s, m))
  {
    var t := s.Owner();
    assert MeetingOf(s).Placed(t);
    MeetingOf(s).MoveKeeps(t, OwnerPlace(Do(s, m).owner));
    hide Gate, Meeting.Met;
    assert Places(Do(s, m)) == Places(s)[t := OwnerPlace(Do(s, m).owner)];
  }

  lemma SyncKept(s: Pool, m: Move)
    requires Sync(s) && Can(s, m)
    ensures Sync(Do(s, m))
  {
    if IsWork(m) {
      hide Meeting.Met;
      WorkMoves(s, m);
      MeetingOf(s).MoveKeeps(m.w, WorkerPlace(Do(s, m).workers[m.w]));
    } else {
      hide Sync, Can, Do;
      if AtBarrier(m) {
        WorkerSync(s, m);
      } else if m.OwnerArrive? || m.OwnerWake? {
        OwnerSync(s, m);
      } else {
        OwnerPreparesSync(s, m);
      }
    }
  }

  // ----- the end of the jobs

  lemma CatchingSome(ws: seq<WorkerPc>, w: nat)
    requires w < |ws| && ws[w] == Caught
    ensures Catching(ws) > 0
  {
    if w < |ws| - 1 {
      CatchingSome(ws[..|ws| - 1], w);
    }
  }

  lemma InsideMeansFrame(s: Pool, w: nat)
    requires Sync(s) && w < |s.workers| && WorkerPlace(s.workers[w]) == Middle
    ensures Frame(s)
  {
    assert MeetingOf(s).Placed(w);
  }

  lemma ReturnDone(s: Pool, w: nat)
    requires Inv(s) && Can(s, Return(w))
    ensures Done(Do(s, Return(w)))
  {
    InsideMeansFrame(s, w);
    WorkMoves(s, Return(w));
    if s.owner == Fresh {
      OwnerInFront(s);
    }
    hide Sync, Books, Places;
  }

  lemma CountDone(s: Pool, w: nat)
    requires Inv(s) && Can(s, Count(w))
    ensures Done(Do(s, Count(w)))
  {
    InsideMeansFrame(s, w);
    WorkMoves(s, Count(w));
    CatchingSome(s.workers, w);
    hide Sync, Places, InHand, Catching;
  }

  lemma JobDone(s: Pool, m: Move)
    requires Inv(s) && Can(s, m) && (m.Finish? || m.Throw?)
    ensures Done(Do(s, m))
  {
    InsideMeansFrame(s, m.w);
    WorkMoves(s, m);
    SameFrame(s, Do(s, m));
    hide Sync, Places, Books, Frame;
  }

  lemma EnterDone(s: Pool, w: nat)
    requires Inv(s) && Can(s, Enter(w))
    ensures Done(Do(s, Enter(w)))
  {
    InsideMeansFrame(s, w);
    WorkMoves(s, Enter(w));
    SameFrame(s, Do(s, Enter(w)));
    hide Sync, Places, Books, Frame;
  }

  lemma TakeDone(s: Pool, w: nat)
    requires Inv(s) && Can(s, Take(w))
    ensures Done(Do(s, Take(w)))
  {
    InsideMeansFrame(s, w);
    WorkMoves(s, Take(w));
    SameFrame(s, Do(s, Take(w)));
    hide Sync, Places, Books, Frame;
  }

  lemma WorkDone(s: Pool, m: Move)
    requires Inv(s) && Can(s, m) && IsWork(m)
    ensures Done(Do(s, m))
  {
    hide Inv, Done, Do, Can;
    match m
    case Return(w) => ReturnDone(s, w);
    case Count(w) => CountDone(s, w);
    case Finish(_) => JobDone(s, m);
    case Throw(_) => JobDone(s, m);
    case Enter(w) => EnterDone(s, w);
    case Take(w) => TakeDone(s, w);
  }

  /** The start barrier lets a frame begin when everybody is in front of it. */
  lemma FrameBegins(s: Pool, t: nat)
    requires Sync(s) && MeetingOf(s).MayCallStart(t) && s.start.count == 1
    ensures !Frame(s) && forall u :: 0 <= u < |s.workers| && u != t ==> s.workers[u] == AtStart
    ensures t != s.Owner() ==> s.owner == OwnerAtStart
  {
    var m := MeetingOf(s);
    assert m.Placed(t);
    EverybodyWaits(s.start, |m.places|, t);
    forall u | 0 <= u < |m.places| && u != t ensures m.places[u] == Front {
      assert m.Placed(u);
    }
  }

  /** The stop barrier ends a frame when everybody is behind it. */
  lemma FrameEnds(s: Pool, t: nat)
    requires Sync(s) && MeetingOf(s).MayCallStop(t) && s.stop.count == 1
    ensures Frame(s) && forall u :: 0 <= u < |s.workers| ==> s.workers[u] == AtStop
    ensures s.owner == OwnerAtStop
  {
    var m := MeetingOf(s);
    assert m.Placed(t);
    EverybodyWaits(s.stop, |m.places|, t);
    forall u | 0 <= u < |m.places| ensures m.places[u] == Back {
      assert m.Placed(u);
    }
  }

  lemma WorkerDone(s: Pool, m: Move)
    requires Inv(s) && Can(s, m) && AtBarrier(m)
    ensures Done(Do(s, m))
  {
    QuietMoves(s, m);
    WorkerLeaves(s, m);
    GatesShut(s);
    FrameIs(s);
    FrameIs(Do(s, m));
    if m.WorkerArrive? && s.workers[m.w] == AtStart && s.start.count == 1 {
      WorkerCalls(s, m.w);
      FrameBegins(s, m.w);
    }
    if m.WorkerArrive? && s.workers[m.w] == AtStop && s.stop.count == 1 {
      WorkerCalls(s, m.w);
      FrameEnds(s, m.w);
    }
    hide Sync, Books, Places, Do, Frame;
  }

  lemma WorkerLeaves(s: Pool, m: Move)
    requires Can(s, m) && AtBarrier(m)
    ensures var t := Do(s, m);
            && t.owner == s.owner && t.work == s.work && t.stopped == s.stopped
            && (t.workers[m.w] == AtStop ==> s.workers[m.w] == AtStop)
            && t.start.generation == s.start.generation
               + (if m.WorkerArrive? && s.workers[m.w] == AtStart && s.start.count == 1 && !s.start.unblocked then 1
                  else 0)
            && t.stop.generation == s.stop.generation
               + (if m.WorkerArrive? && s.workers[m.w] == AtStop && s.stop.count == 1 && !s.stop.unblocked then 1
                  else 0)
  {}

  lemma SameFrame(s: Pool, t: Pool)
    requires t.start == s.start && t.stop == s.stop
    ensures Frame(t) == Frame(s)
  {}

  lemma ReadyDone(s: Pool, m: Move)
    requires Inv(s) && Can(s, m) && (m == Clear || m == Reset || m == MakeWork)
    ensures Done(Do(s, m))
  {
    OwnerInFront(s);
    SameFrame(s, Do(s, m));
    hide Sync, Books, Places, Frame;
  }

  lemma PostingDone(s: Pool, m: Move)
    requires Inv(s) && Can(s, m) && (m.Post? || m == DropWork)
    ensures Done(Do(s, m))
  {
    assert MeetingOf(s).Placed(s.Owner());
    assert Frame(s);
    SameFrame(s, Do(s, m));
    hide Sync, Books, Places, Frame;
  }

  lemma OwnerEffects(s: Pool, m: Move)
    requires Can(s, m) && (m.OwnerArrive? || m.OwnerWake?)
    ensures var t := Do(s, m);
            && t.workers == s.workers && t.work == s.work && t.stopped == s.stopped && t.queue == s.queue
            && t.threw == s.threw
            && (s.owner == OwnerAtStart ==> t.owner == OwnerAtStart || t.owner == Posting)
            && (s.owner == OwnerAtStop ==> t.owner == OwnerAtStop || t.owner == Between)
            && t.start.generation == s.start.generation
               + (if m.OwnerArrive? && s.owner == OwnerAtStart && s.start.count == 1 && !s.start.unblocked then 1
                  else 0)
            && t.stop.generation == s.stop.generation
               + (if m.OwnerArrive? && s.owner == OwnerAtStop && s.stop.count == 1 && !s.stop.unblocked then 1 else 0)
            && (m.OwnerArrive? && s.owner == OwnerAtStop && s.stop.count == 1 ==> t.owner == Between)
  {
    hide MayLeave;
  }

  lemma OwnerDoneKept(s: Pool, m: Move)
    requires Inv(s) && Can(s, m) && (m.OwnerArrive? || m.OwnerWake?)
    ensures Done(Do(s, m))
  {
    OwnerEffects(s, m);
    GatesShut(s);
    if m.OwnerArrive? && s.owner == OwnerAtStart && s.start.count == 1 {
      FrameBegins(s, s.Owner());
    }
    if m.OwnerArrive? && s.owner == OwnerAtStop && s.stop.count == 1 {
      FrameEnds(s, s.Owner());
    }
    FrameIs(s);
    FrameIs(Do(s, m));
    hide Sync, Books, Places, Do, Frame;
  }

  lemma GatesShut(s: Pool)
    requires Sync(s)
    ensures !s.start.unblocked && !s.stop.unblocked
    ensures Frame(s) || s.start.generation == s.stop.generation
  {}

  lemma FrameIs(s: Pool)
    ensures Frame(s) <==> s.start.generation == s.stop.generation + 1
  {}

  lemma DoneKept(s: Pool, m: Move)
    requires Inv(s) && Can(s, m)
    ensures Done(Do(s, m))
  {
    hide Inv, Can, Do, Done;
    if IsWork(m) {
      WorkDone(s, m);
    } else if AtBarrier(m) {
      WorkerDone(s, m);
    } else if m.OwnerArrive? || m.OwnerWake? {
      OwnerDoneKept(s, m);
    } else if m == Clear || m == Reset || m == MakeWork {
      ReadyDone(s, m);
    } else {
      PostingDone(s, m);
    }
  }

  lemma InvKept(s: Pool, m: Move)
    requires Inv(s) && Can(s, m)
    ensures Inv(Do(s, m))
  {
    hide Sync, Books, Done, Can, Do;
    SyncKept(s, m);
    BooksKept(s, m);
    DoneKept(s, m);
  }

  lemma InvAtStart(n: nat)
    requires n > 0
    ensures Inv(NewPool(n))
  {
    var s := NewPool(n);
    assert Waiters(s.start, 0) == {};
    forall j: nat { NobodyInside(s.workers, j); }
    NobodyCatching(s.workers);
    forall t | 0 <= t < |Places(s)| ensures MeetingOf(s).Placed(t) {}
  }

  // ----- what the pool promises

  /** No worker is inside run() when ready() resets it. */
  lemma ResetIsSafe(s: Pool, w: nat)
    requires Inv(s) && Can(s, Reset) && w < |s.workers|
    ensures s.workers[w] == AtStart || s.workers[w] == AtStop
  {
    OwnerInFront(s);
    OutsideFrame(s);
  }

  predicate ExecuteReturns(s: Pool, m: Move)
    requires Can(s, m)
  {
    s.owner == OwnerAtStop && Do(s, m).owner == Between
  }

  lemma AllBehind(s: Pool, m: Move)
    requires Inv(s) && Can(s, m) && ExecuteReturns(s, m)
    ensures forall w :: 0 <= w < |s.workers| ==> s.workers[w] == AtStart || s.workers[w] == AtStop
    ensures s.stopped || |s.threw| > 0
  {
    var t := s.Owner();
    assert MeetingOf(s).Placed(t);
    if m.OwnerArrive? {
      FrameEnds(s, t);
    } else {
      OutsideFrame(s);
    }
  }

  /** When execute() returns, it counts the jobs that threw; and when none did, every job of the frame has run
      exactly once and none is left. */
  lemma ExecuteIsComplete(s: Pool, m: Move)
    requires Inv(s) && Can(s, m) && ExecuteReturns(s, m)
    ensures Do(s, m).result == |s.threw|
    ensures s.threw == multiset{} ==> Do(s, m).ran == Do(s, m).given && Do(s, m).queue == []
  {
    hide Sync, Books, Done, Do, Can, ExecuteReturns;
    AllBehind(s, m);
    ReturnEffects(s, m);
    ResultIs(s, m);
    BooksClosed(s);
  }

  lemma ReturnEffects(s: Pool, m: Move)
    requires Can(s, m) && ExecuteReturns(s, m)
    ensures s.owner == OwnerAtStop
    ensures Do(s, m).ran == s.ran && Do(s, m).given == s.given && Do(s, m).queue == s.queue && Do(s, m).threw == s.threw
  {
    OwnerMoves(s, m);
  }

  lemma ResultIs(s: Pool, m: Move)
    requires Can(s, m) && ExecuteReturns(s, m)
    ensures Do(s, m).result == s.exceptions
  {}

  /** With nobody in a job, the books say where every job went. */
  lemma BooksClosed(s: Pool)
    requires Books(s) && Done(s) && (Frame(s) || s.owner == OwnerAtStop) && (s.stopped || |s.threw| > 0)
    requires forall w :: 0 <= w < |s.workers| ==> s.workers[w] == AtStart || s.workers[w] == AtStop
    ensures s.exceptions == |s.threw|
    ensures s.threw == multiset{} ==> s.ran == s.given && s.queue == []
  {
    hide Frame;
    NobodyCatching(s.workers);
    forall j: nat ensures s.threw == multiset{} ==> s.ran[j] == s.given[j] {
      assert Balanced(s, j);
      NobodyInside(s.workers, j);
    }
  }

  // ----- runs

  /** Any interleaving of moves, over any number of frames. */
  ghost predicate Run(n: nat, states: seq<Pool>, moves: seq<Move>)
    requires n > 0
  {
    && |states| == |moves| + 1 && states[0] == NewPool(n)
    && forall i :: 0 <= i < |moves| ==> Can(states[i], moves[i]) && states[i + 1] == Do(states[i], moves[i])
  }

  lemma {:induction false} InvAlways(n: nat, states: seq<Pool>, moves: seq<Move>, i: nat)
    requires n > 0 && Run(n, states, moves) && i < |states|
    ensures Inv(states[i])
  {
    hide Inv, Can, Do;
    if i == 0 {
      InvAtStart(n);
    } else {
      InvAlways(n, states, moves, i - 1);
      InvKept(states[i - 1], moves[i - 1]);
    }
  }

  /** In every run: whenever execute() returns zero, all the frame's jobs have run exactly once. */
  lemma PoolSafety(n: nat, states: seq<Pool>, moves: seq<Move>, i: nat)
    requires n > 0 && Run(n, states, moves) && i < |moves|
    ensures moves[i] == Reset ==> forall w :: 0 <= w < |states[i].workers| ==>
              states[i].workers[w] == AtStart || states[i].workers[w] == AtStop
    ensures ExecuteReturns(states[i], moves[i]) && states[i + 1].result == 0 ==>
              states[i + 1].ran == states[i + 1].given && states[i + 1].queue == []
  {
    InvAlways(n, states, moves, i);
    var s, m := states[i], moves[i];
    hide Inv, Do, Run;
    if m == Reset {
      forall w | 0 <= w < |s.workers| ensures s.workers[w] == AtStart || s.workers[w] == AtStop {
        ResetIsSafe(s, w);
      }
    }
    if ExecuteReturns(s, m) {
      ExecuteIsComplete(s, m);
    }
  }

  // ----- somebody can always go on

  /** A move that is not just waking up to sleep again. */
  predicate Useful(s: Pool, m: Move) {
    Can(s, m) && Do(s, m) != s
  }

  lemma WorkerCan(s: Pool, w: nat) returns (m: Move)
    requires Inv(s) && Frame(s) && s.owner == OwnerAtStop && w < |s.workers| && WorkerPlace(s.workers[w]) == Middle
    ensures Useful(s, m)
  {
    hide Sync, Books, Places;
    match s.workers[w]
    case Entering => m := Enter(w);
    case Running(_) => m := Finish(w);
    case Caught => m := Count(w);
    case Inside =>
      if s.stopped {
        m := Return(w);
      } else if s.queue != [] {
        m := Take(w);
      } else if v: nat :| v < |s.workers| && s.workers[v].Running? {
        m := Finish(v);
      } else {
        m := Return(w);
      }
  }

  lemma ArrivalIsUseful(b: Barrier, t: nat)
    requires !b.unblocked && b.count > 0
    ensures AfterArrival(b, t) != b
    ensures t in b.waiting ==> AfterLeaving(b, t) != b
  {
    if t in b.waiting {
      assert t !in AfterLeaving(b, t).waiting;
    }
  }

  lemma StartCan(s: Pool) returns (m: Move)
    requires Inv(s) && s.owner == OwnerAtStart
    ensures Useful(s, m)
  {
    var a, o := MeetingOf(s), s.Owner();
    assert a.Placed(o);
    ArrivalIsUseful(s.start, o);
    if o !in s.start.waiting {
      m := OwnerArrive;
    } else if MayLeave(s.start, o) {
      m := OwnerWake;
    } else {
      var u := SomebodyAway(s.start, |a.places|);
      assert a.Placed(u);
      ArrivalIsUseful(s.start, u);
      m := if s.workers[u] == AtStart then WorkerArrive(u) else WorkerWake(u);
    }
  }

  lemma StopCan(s: Pool) returns (m: Move)
    requires Inv(s) && s.owner == OwnerAtStop
    ensures Useful(s, m)
  {
    var a, o := MeetingOf(s), s.Owner();
    assert a.Placed(o);
    ArrivalIsUseful(s.stop, o);
    if o !in s.stop.waiting {
      m := OwnerArrive;
    } else if MayLeave(s.stop, o) {
      m := OwnerWake;
    } else {
      var u := SomebodyAway(s.stop, |a.places|);
      assert a.Placed(u);
      ArrivalIsUseful(s.stop, u);
      if WorkerPlace(s.workers[u]) == Middle {
        m := WorkerCan(s, u);
      } else {
        m := if s.workers[u] == AtStop then WorkerArrive(u) else WorkerWake(u);
      }
    }
  }

  /** No deadlock: at every point of every run some thread can make a move that changes something. */
  lemma NoDeadlock(n: nat, states: seq<Pool>, moves: seq<Move>, i: nat) returns (m: Move)
    requires n > 0 && Run(n, states, moves) && i < |states|
    ensures Useful(states[i], m)
  {
    InvAlways(n, states, moves, i);
    hide Run, Inv;
    var s := states[i];
    match s.owner
    case Between => m := Clear;
    case Cleared => m := Reset;
    case Fresh => m := MakeWork;
    case Posting => m := DropWork;
    case OwnerAtStart => m := StartCan(s);
    case OwnerAtStop => m := StopCan(s);
  }

  // ----- execute() ends

  /** How far a worker is from where execute() leaves it. */
  function Weight(s: Pool, w: nat): nat
    requires w < |s.workers|
  {
    match s.workers[w]
    case AtStart => if Frame(s) then 8 else if w in s.start.waiting then 0 else 1
    case Entering => 7
    case Inside => 6
    case Running(_) => 8
    case Caught => 5
    case AtStop => if !Frame(s) then 2 else if w in s.stop.waiting then 3 else 4
  }

  function Weights(s: Pool, n: nat): nat
    requires n <= |s.workers|
  {
    if n == 0 then 0 else Weights(s, n - 1) + Weight(s, n - 1)
  }

  /** What is left to do while the owner waits for the frame's end. */
  function Left(s: Pool): nat {
    Weights(s, |s.workers|) + 3 * |s.queue| + if s.Owner() in s.stop.waiting then 0 else 1
  }

  lemma {:induction false} LessWeight(s: Pool, t: Pool, n: nat, w: nat, d: int)
    requires n <= |s.workers| == |t.workers| && w < n && Weight(t, w) + d <= Weight(s, w)
    requires forall u: nat :: u < n && u != w ==> Weight(t, u) <= Weight(s, u)
    ensures Weights(t, n) + d <= Weights(s, n)
  {
    hide Weight;
    if w < n - 1 {
      LessWeight(s, t, n - 1, w, d);
    } else {
      NoMoreWeight(s, t, n - 1);
    }
  }

  lemma {:induction false} NoMoreWeight(s: Pool, t: Pool, n: nat)
    requires n <= |s.workers| == |t.workers| && forall u: nat :: u < n ==> Weight(t, u) <= Weight(s, u)
    ensures Weights(t, n) <= Weights(s, n)
  {
    hide Weight;
    if n > 0 {
      NoMoreWeight(s, t, n - 1);
    }
  }

  lemma WorkLeft(s: Pool, m: Move)
    requires Inv(s) && Can(s, m) && IsWork(m)
    ensures Left(Do(s, m)) < Left(s)
  {
    var t := Do(s, m);
    InsideMeansFrame(s, m.w);
    WorkAlone(s, m);
    SameFrame(s, t);
    WorkWeighs(s, m);
    OthersWeigh(s, t, m.w);
    hide Inv, Frame, Do, Can, Weight;
    LessWeight(s, t, |s.workers|, m.w, if m.Take? then -2 else 1);
  }

  lemma OthersWeigh(s: Pool, t: Pool, w: nat)
    requires t.start == s.start && t.stop == s.stop && w < |s.workers| == |t.workers|
    requires t.workers == s.workers[w := t.workers[w]]
    ensures forall u: nat :: u < |s.workers| && u != w ==> Weight(t, u) == Weight(s, u)
  {
    SameFrame(s, t);
    hide Frame;
  }

  lemma WorkWeighs(s: Pool, m: Move)
    requires Can(s, m) && IsWork(m) && Frame(s) && Frame(Do(s, m))
    ensures var t := Do(s, m);
            && Weight(t, m.w) + (if m.Take? then -2 else 1) <= Weight(s, m.w)
            && |t.queue| == |s.queue| - if m.Take? then 1 else 0
  {
    hide Frame, MayLeave, AfterArrival, AfterLeaving, Pool.Drained;
    if m.Take? {
      TakeWeighs(s, m);
    }
  }

  lemma TakeWeighs(s: Pool, m: Move)
    requires Can(s, m) && m.Take? && Frame(s) && Frame(Do(s, m))
    ensures var t := Do(s, m); Weight(t, m.w) - 2 <= Weight(s, m.w) && |t.queue| == |s.queue| - 1
  {
    hide Frame, MayLeave, AfterArrival, AfterLeaving, Pool.Drained;
  }

  lemma ArriveLeft(s: Pool, w: nat)
    requires Inv(s) && s.owner == OwnerAtStop && Can(s, WorkerArrive(w))
    ensures Left(Do(s, WorkerArrive(w))) < Left(s)
  {
    var m := WorkerArrive(w);
    var t := Do(s, m);
    WorkerLeaves(s, m);
    QuietMoves(s, m);
    WorkerCalls(s, w);
    GatesShut(s);
    FrameIs(s);
    FrameIs(t);
    if s.workers[w] == AtStart && s.start.count == 1 {
      FrameBegins(s, w);
    }
    if s.workers[w] == AtStop && s.stop.count == 1 {
      FrameEnds(s, w);
    }
    PlacedInPhase(s, w);
    SleepersAfter(s, w);
    hide Inv, Frame, Do;
    LessWeight(s, t, |s.workers|, w, 1);
  }

  /** In front of the start barrier a thread of a running frame is asleep. */
  lemma PlacedInPhase(s: Pool, w: nat)
    requires Sync(s) && w < |s.workers|
    ensures s.workers[w] == AtStart && w !in s.start.waiting ==> !Frame(s)
    ensures s.workers[w] == AtStop && w !in s.stop.waiting ==> Frame(s)
    ensures s.workers[w] == AtStop && !Frame(s) ==> w !in s.start.waiting
  {
    assert MeetingOf(s).Placed(w);
  }

  lemma SleepersAfter(s: Pool, w: nat)
    requires Can(s, WorkerArrive(w))
    ensures var t := Do(s, WorkerArrive(w));
            && (forall u :: u != w ==> (u in t.start.waiting <==> u in s.start.waiting))
            && (forall u :: u != w ==> (u in t.stop.waiting <==> u in s.stop.waiting))
            && (!s.start.unblocked && s.workers[w] == AtStart && s.start.count > 1 ==>
                w in t.start.waiting && t.workers[w] == AtStart)
            && (!s.stop.unblocked && s.workers[w] == AtStop && s.stop.count > 1 ==>
                w in t.stop.waiting && t.workers[w] == AtStop)
            && (s.workers[w] == AtStop && s.stop.count == 1 ==> t.workers[w] == AtStart)
  {}

  lemma WakeLeft(s: Pool, w: nat)
    requires Inv(s) && s.owner == OwnerAtStop && Useful(s, WorkerWake(w))
    ensures Left(Do(s, WorkerWake(w))) < Left(s)
  {
    var m := WorkerWake(w);
    var t := Do(s, m);
    WorkerLeaves(s, m);
    QuietMoves(s, m);
    FrameIs(s);
    FrameIs(t);
    PlacedInPhase(s, w);
    WakesAfter(s, w);
    assert MeetingOf(s).Placed(w);
    hide Inv, Do;
    LessWeight(s, t, |s.workers|, w, 1);
  }

  lemma WakesAfter(s: Pool, w: nat)
    requires Useful(s, WorkerWake(w))
    ensures var t := Do(s, WorkerWake(w));
            && (forall u :: u != w ==> (u in t.start.waiting <==> u in s.start.waiting))
            && (forall u :: u != w ==> (u in t.stop.waiting <==> u in s.stop.waiting))
            && (if s.workers[w] == AtStart then MayLeave(s.start, w) && t.workers[w] == Entering
                else MayLeave(s.stop, w) && t.workers[w] == AtStart && t.start == s.start)
  {}

  lemma OwnerLeft(s: Pool, m: Move)
    requires Inv(s) && s.owner == OwnerAtStop && Useful(s, m) && (m == OwnerArrive || m == OwnerWake)
    ensures Do(s, m).owner == Between || Left(Do(s, m)) < Left(s)
  {
    var t := Do(s, m);
    OwnerEffects(s, m);
    GatesShut(s);
    FrameIs(s);
    FrameIs(t);
    if t.owner != Between {
      OwnerSleeps(s, m);
      hide Inv, Do, Frame;
      NoMoreWeight(s, t, |s.workers|);
    }
  }

  lemma OwnerSleeps(s: Pool, m: Move)
    requires s.owner == OwnerAtStop && Useful(s, m) && (m == OwnerArrive || m == OwnerWake) && !s.stop.unblocked
    requires Do(s, m).owner != Between
    ensures var t := Do(s, m);
            && m == OwnerArrive && t.start == s.start && s.stop.count > 1
            && s.Owner() !in s.stop.waiting && t.Owner() in t.stop.waiting
            && forall u :: u != s.Owner() ==> (u in t.stop.waiting <==> u in s.stop.waiting)
  {}

  /** While the owner is in execute(), every move that changes something ends it or leaves less to do. */
  lemma LessLeft(s: Pool, m: Move)
    requires Inv(s) && s.owner == OwnerAtStop && Useful(s, m)
    ensures Do(s, m).owner == Between || Left(Do(s, m)) < Left(s)
  {
    MovesOfExecute(s, m);
    hide Inv, Do, Left, Useful, Can;
    if IsWork(m) {
      WorkLeft(s, m);
    } else if m.WorkerArrive? {
      ArriveLeft(s, m.w);
    } else if m.WorkerWake? {
      WakeLeft(s, m.w);
    } else {
      OwnerLeft(s, m);
    }
  }

  lemma MovesOfExecute(s: Pool, m: Move)
    requires Useful(s, m) && s.owner == OwnerAtStop
    ensures Can(s, m) && (IsWork(m) || AtBarrier(m) || m == OwnerArrive || m == OwnerWake)
  {}

  /** execute() ends: from any point of any run there are no more than so many useful moves before it returns. */
  lemma {:induction false} ExecuteEnds(n: nat, states: seq<Pool>, moves: seq<Move>, i: nat, j: nat)
    requires n > 0 && Run(n, states, moves) && i <= j <= |moves|
    requires forall k :: i <= k <= j ==> states[k].owner == OwnerAtStop
    requires forall k :: i <= k < j ==> Useful(states[k], moves[k])
    ensures j - i <= Left(states[i])
    decreases j - i
  {
    hide Inv, Left, Can, Do;
    if i < j {
      InvAlways(n, states, moves, i);
      LessLeft(states[i], moves[i]);
      ExecuteEnds(n, states, moves, i + 1, j);
    }
  }
}
