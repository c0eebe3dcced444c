/** What the runs of an interaction guarantee to its users. */
module RoomGuarantees {
  import opened Common
  import opened Rooms
  import opened RoomRuns

  ghost predicate Reachable(p: RoomRun, jp: JoinPayload, c: ConnId, steps: seq<Step>) {
    Legal(Initial(jp, c), steps) && p == Run(Initial(jp, c), steps)
  }

  lemma ReachableInv(p: RoomRun, jp: JoinPayload, c: ConnId, steps: seq<Step>)
    requires Reachable(p, jp, c, steps)
    ensures Inv(p)
  {
    InitialInv(jp, c);
    RunKeepsInv(Initial(jp, c), steps);
  }

  /**
   Over all interleavings: the end is announced only after the start, the start only after readiness, readiness only
   after every needed track; and none of the four channels is ever closed twice.
   */
  lemma LifecycleOrder(p: RoomRun, jp: JoinPayload, c: ConnId, steps: seq<Step>)
    requires Reachable(p, jp, c, steps)
    ensures p.room.doneCloses > 0 ==> p.room.startedCloses > 0
    ensures p.room.startedCloses > 0 ==> p.room.readyCloses > 0
    ensures p.room.readyCloses > 0 <==> p.room.inTracks >= p.room.neededTracks
    ensures p.room.startedCloses > 0 <==> p.room.pipelineStarts > (if p.room.size == 1 then 0 else 1)
    ensures p.room.readyCloses <= 1 && p.room.startedCloses <= 1 && p.room.abortedCloses <= 1 && p.room.doneCloses <= 1
  {
    ReachableInv(p, jp, c, steps);
  }

  /** A room that got ready before its abort timer fired is never aborted, whatever happens next. */
  lemma ReadyInTimeIsNeverAborted(p: RoomRun, jp: JoinPayload, c: ConnId, steps: seq<Step>, more: seq<Step>)
    requires Reachable(p, jp, c, steps) && p.room.readyCloses > 0 && p.room.abortTimer != Fired
    requires Legal(p, more)
    ensures Run(p, more).room.abortedCloses == 0
  {
    ReachableInv(p, jp, c, steps);
    StoppedStays(p, more);
    RunKeepsInv(p, more);
  }

  lemma {:induction false} StoppedStays(p: RoomRun, steps: seq<Step>)
    requires p.room.abortTimer == Stopped && Legal(p, steps)
    ensures Run(p, steps).room.abortTimer == Stopped
    decreases |steps|
  {
    if steps == [] {
    } else {
      StepKeepsStopped(p, steps[0]);
      StoppedStays(Next(p, steps[0]), steps[1..]);
    }
  }

  lemma StepKeepsStopped(p: RoomRun, step: Step)
    requires p.room.abortTimer == Stopped && Enabled(p, step)
    ensures Next(p, step).room.abortTimer == Stopped
  {
    match step
    case JoinUser(u, c) => JoinFrame(p, u, c);
    case OnConn(c, a) => ConnFrame(p, c, a);
    case Arrive(s, c) =>
    case OnSlice(s, a) => SliceKeepsStopped(p.room, a);
    case OnTimer(a) => TimerKeepsStopped(p, a);
  }

  lemma SliceKeepsStopped(r: Room, a: SliceAct)
    requires r.abortTimer == Stopped
    ensures RoomAfter(a, r).abortTimer == Stopped
  {
  }

  lemma TimerKeepsStopped(p: RoomRun, a: TimerAct)
    requires p.room.abortTimer == Stopped && TimerEnabled(p, a)
    ensures AfterTimer(p, a).room.abortTimer == Stopped
  {
  }

  predicate PastClear(pc: StopPc) {
    pc == Cleared || pc == Passed || pc == Finished
  }

  /** Readiness begins with the last needed track and ends with a stop; a graceful one ends it for good. */
  predicate ReadyUntilStopped(p: RoomRun) {
    && (p.room.ready ==> p.room.readyCloses == 1)
    && (PastClear(p.graceful) ==> !p.room.ready)
    && (p.room.readyCloses == 1 && !p.room.ready ==> PastClear(p.abort) || PastClear(p.graceful))
  }

  lemma StepKeepsReadiness(p: RoomRun, step: Step)
    requires Lifecycle(p) && ReadyUntilStopped(p) && Enabled(p, step)
    ensures ReadyUntilStopped(Next(p, step))
  {
    match step
    case JoinUser(u, c) => JoinFrame(p, u, c);
    case OnConn(c, a) => ConnFrame(p, c, a);
    case Arrive(s, c) =>
    case OnSlice(s, a) => SliceKeepsReadiness(p, s, a);
    case OnTimer(a) => TimerKeepsReadiness(p, a);
  }

  lemma SliceKeepsReadiness(p: RoomRun, s: SliceId, a: SliceAct)
    requires Lifecycle(p) && ReadyUntilStopped(p) && SliceEnabled(p, s, a)
    ensures ReadyUntilStopped(AfterSlice(p, s, a))
  {
    if a != CountIn && a != PipelineUp {
      OthersOnlyCountOut(p.room, a);
    }
  }

  lemma TimerKeepsReadiness(p: RoomRun, a: TimerAct)
    requires Lifecycle(p) && ReadyUntilStopped(p) && TimerEnabled(p, a)
    ensures ReadyUntilStopped(AfterTimer(p, a))
  {
  }

  lemma {:induction false} RunKeepsReadiness(p: RoomRun, steps: seq<Step>)
    requires Lifecycle(p) && ReadyUntilStopped(p) && Legal(p, steps)
    ensures ReadyUntilStopped(Run(p, steps))
    decreases |steps|
  {
    if steps == [] {
    } else {
      StepKeepsLifecycle(p, steps[0]);
      StepKeepsReadiness(p, steps[0]);
      RunKeepsReadiness(Next(p, steps[0]), steps[1..]);
    }
  }

  /**
   Over all interleavings: a room is ready only after its tracks were counted, stays ready until one of its stops has
   ended that, and is never ready after a graceful stop has.
   */
  lemma ReadinessLasts(p: RoomRun, jp: JoinPayload, c: ConnId, steps: seq<Step>)
    requires Reachable(p, jp, c, steps)
    ensures p.room.ready ==> p.room.inTracks >= p.room.neededTracks
    ensures p.room.inTracks >= p.room.neededTracks && !PastClear(p.abort) && !PastClear(p.graceful) ==> p.room.ready
    ensures PastClear(p.graceful) ==> !p.room.ready
  {
    ReachableInv(p, jp, c, steps);
    InitialInv(jp, c);
    RunKeepsReadiness(Initial(jp, c), steps);
  }

  /** Either stop ends readiness. */
  lemma StopEndsReadiness(p: RoomRun, gracefully: bool)
    requires Enabled(p, OnTimer(ClearReady(gracefully)))
    ensures !Next(p, OnTimer(ClearReady(gracefully))).room.ready
  {
  }

  lemma {:induction false} SkippedStays(p: RoomRun, steps: seq<Step>)
    requires p.abort == Skipped && Legal(p, steps)
    ensures Run(p, steps).abort == Skipped
    decreases |steps|
  {
    if steps == [] {
    } else {
      StepKeepsSkipped(p, steps[0]);
      SkippedStays(Next(p, steps[0]), steps[1..]);
    }
  }

  lemma StepKeepsSkipped(p: RoomRun, step: Step)
    requires p.abort == Skipped && Enabled(p, step)
    ensures Next(p, step).abort == Skipped
  {
    match step
    case JoinUser(u, c) => JoinFrame(p, u, c);
    case OnConn(c, a) => ConnFrame(p, c, a);
    case Arrive(s, c) =>
    case OnSlice(s, a) =>
    case OnTimer(a) =>
  }

  ghost predicate MayAbort(p: RoomRun) {
    exists more :: Legal(p, more) && Run(p, more).room.abortedCloses > 0
  }

  lemma SkippedNeverAborts(p: RoomRun)
    requires Inv(p) && p.abort == Skipped
    ensures !MayAbort(p)
  {
    forall more | Legal(p, more) ensures Run(p, more).room.abortedCloses == 0 {
      SkippedStays(p, more);
      RunKeepsInv(p, more);
    }
  }

  lemma AbortingMayAbort(p: RoomRun)
    requires p.abort == Aborting
    ensures MayAbort(p)
  {
    var close := OnTimer(AbortClose);
    RunSnoc(p, [], close);
    assert [] + [close] == [close];
    assert Run(p, [close]).room.abortedCloses > 0;
  }

  /** After its timer fired, a room can be aborted if and only if it was not ready when the goroutine looked. */
  lemma AbortDecision(p: RoomRun, jp: JoinPayload, c: ConnId, steps: seq<Step>)
    requires Reachable(p, jp, c, steps) && Enabled(p, OnTimer(AbortCheck))
    ensures MayAbort(Next(p, OnTimer(AbortCheck))) <==> !p.room.ready
  {
    NextInv(p, jp, c, steps, OnTimer(AbortCheck));
    if p.room.ready {
      SkippedNeverAborts(Next(p, OnTimer(AbortCheck)));
    } else {
      AbortingMayAbort(Next(p, OnTimer(AbortCheck)));
    }
  }

  /** A pipeline that comes up is counted; the room starts with the second one, or the first in a room for one. */
  lemma StartDecision(p: RoomRun, jp: JoinPayload, c: ConnId, steps: seq<Step>, s: SliceId)
    requires Reachable(p, jp, c, steps) && Enabled(p, OnSlice(s, PipelineUp))
    ensures var q := Next(p, OnSlice(s, PipelineUp));
            && q.room.pipelineStarts == p.room.pipelineStarts + 1
            && (q.room.started <==> p.room.size == 1 || p.room.pipelineStarts >= 1)
            && (q.graceful == Sleeping && p.graceful == Idle <==> q.room.started && !p.room.started)
  {
    ReachableInv(p, jp, c, steps);
  }

  lemma ClosesGrow(p: RoomRun, step: Step)
    requires Enabled(p, step)
    ensures p.room.readyCloses <= Next(p, step).room.readyCloses
    ensures p.room.abortedCloses <= Next(p, step).room.abortedCloses
  {
    match step
    case JoinUser(u, c) => JoinFrame(p, u, c);
    case OnConn(c, a) => ConnFrame(p, c, a);
    case Arrive(s, c) =>
    case OnSlice(s, a) =>
      if a != CountIn && a != PipelineUp {
        OthersOnlyCountOut(p.room, a);
      }
    case OnTimer(a) =>
  }

  lemma StepWaits(p: RoomRun, step: Step, s: SliceId)
    requires s in p.slices && p.slices[s].pc == Waiting && Enabled(p, step)
    requires p.room.readyCloses == p.room.abortedCloses == 0
    ensures var q := Next(p, step); s in q.slices && q.slices[s] == p.slices[s]
  {
    match step
    case JoinUser(u, c) => JoinFrame(p, u, c);
    case OnConn(c, a) => ConnFrame(p, c, a);
    case Arrive(t, c) =>
    case OnSlice(t, a) =>
    case OnTimer(a) => TimerFrame(p, a);
  }

  lemma {:induction false} ClosesGrowOverRuns(p: RoomRun, steps: seq<Step>)
    requires Legal(p, steps)
    ensures p.room.readyCloses <= Run(p, steps).room.readyCloses
    ensures p.room.abortedCloses <= Run(p, steps).room.abortedCloses
    decreases |steps|
  {
    if steps == [] {
    } else {
      ClosesGrow(p, steps[0]);
      ClosesGrowOverRuns(Next(p, steps[0]), steps[1..]);
    }
  }

  /** A waiting goroutine waits until one of the two channels is closed, whatever else happens. */
  lemma {:induction false} WaitingWaits(p: RoomRun, steps: seq<Step>, s: SliceId)
    requires Legal(p, steps) && s in p.slices && p.slices[s].pc == Waiting
    requires Run(p, steps).room.readyCloses == Run(p, steps).room.abortedCloses == 0
    ensures s in Run(p, steps).slices && Run(p, steps).slices[s] == p.slices[s]
    decreases |steps|
  {
    ClosesGrowOverRuns(p, steps);
    if steps == [] {
    } else {
      StepWaits(p, steps[0], s);
      WaitingWaits(Next(p, steps[0]), steps[1..], s);
    }
  }

  /** Each stop, left alone, ends with the room marked deleted. */
  lemma StopDeletes(p: RoomRun, gracefully: bool) returns (more: seq<Step>)
    requires (if gracefully then p.graceful else p.abort) == Closed
    ensures Legal(p, more) && !Run(p, more).room.ready && Run(p, more).room.deleted
    ensures (if gracefully then Run(p, more).graceful else Run(p, more).abort) == Finished
  {
    var clear, check, mark := OnTimer(ClearReady(gracefully)), OnTimer(DeleteCheck(gracefully)),
                              OnTimer(DeleteMark(gracefully));
    RunSnoc(p, [], clear);
    RunSnoc(p, [clear], check);
    assert [] + [clear] == [clear] && [clear] + [check] == [clear, check];
    more := [clear, check];
    if !p.room.deleted {
      RunSnoc(p, more, mark);
      more := more + [mark];
    }
  }

  /**
   A track that arrives after readiness is not counted in again, unless two goroutines have completed the count
   together: then the test for equality fails from there on.
   */
  lemma LateTrackCounts(p: RoomRun, jp: JoinPayload, c: ConnId, steps: seq<Step>, s: SliceId)
    requires Reachable(p, jp, c, steps) && Enabled(p, OnSlice(s, CheckReady)) && p.room.readyCloses > 0
    ensures Enabled(Next(p, OnSlice(s, CheckReady)), OnSlice(s, CountIn)) <==> p.room.inTracks > p.room.neededTracks
  {
    ReachableInv(p, jp, c, steps);
  }

  /** Whatever is joined and closed again: seats are never exceeded, and joins and leaves balance for each user. */
  lemma SeatsAndConservation(p: RoomRun, jp: JoinPayload, c: ConnId, steps: seq<Step>, u: UserId)
    requires Reachable(p, jp, c, steps)
    ensures 1 <= p.room.size <= MAX_SIZE && |p.joins| <= p.room.size
    ensures Count(p.joins, u) == Count(p.leaves, u) + if IsConnected(p.room, u) then 1 else 0
    ensures JoinedCount(p.room, u) == Count(p.joins, u)
    ensures u in p.joins ==> AfterJoin(p.room, u).1 != Full
  {
    ReachableInv(p, jp, c, steps);
    assert |p.joins| == |p.joins.Keys| && |p.room.connected| == |p.room.connected.Keys|;
  }

  ghost predicate NobodyDeliveredMore(p: RoomRun) {
    forall u | u in p.joins :: |Fiber(p.delivered, Owners(p), u)| <= p.perUser
  }

  /** Every seat was taken, and each user delivered exactly the expected tracks. */
  ghost predicate EverybodyIsHere(p: RoomRun) {
    && |p.joins.Keys| == p.room.size
    && forall u | u in p.joins :: |Fiber(p.delivered, Owners(p), u)| == p.perUser
  }

  /**
   An interaction that got ready has everybody exactly when no user delivered more than the expected tracks until then
   (a reconnection before readiness delivers again).
   */
  lemma ReadinessMeansEverybody(p: RoomRun, jp: JoinPayload, c: ConnId, steps: seq<Step>)
    requires Reachable(p, jp, c, steps) && p.room.readyCloses > 0
    ensures NobodyDeliveredMore(p) <==> EverybodyIsHere(p)
  {
    ReachableInv(p, jp, c, steps);
    if NobodyDeliveredMore(p) {
      FullHouse(p);
    }
  }

  lemma FullHouse(p: RoomRun)
    requires Inv(p) && p.room.readyCloses > 0 && NobodyDeliveredMore(p)
    ensures EverybodyIsHere(p)
  {
    assert |p.room.connected| == |p.room.connected.Keys|;
    assert OwnedWithin(p.delivered, Owners(p), p.joins.Keys);
    FibersFull(p.delivered, Owners(p), p.joins.Keys, p.perUser, p.room.size);
  }

  /** The out-track count is the number of goroutines between increment and decrement; their slices are indexed. */
  lemma OutTrackConservation(p: RoomRun, jp: JoinPayload, c: ConnId, steps: seq<Step>, s: SliceId)
    requires Reachable(p, jp, c, steps)
    ensures p.room.outTracks == |RunningSlices(p.slices)|
    ensures s in RunningSlices(p.slices) && p.slices[s].pc != Unindexed ==> s in p.index
  {
    ReachableInv(p, jp, c, steps);
  }

  /** The running slices of one user. */
  function RunningOf(p: RoomRun, u: UserId): set<SliceId> {
    Fiber(RunningSlices(p.slices), Owners(p), u)
  }

  /** The users with an odd number of running slices. */
  function OddUsers(p: RoomRun): set<UserId> {
    OddFibers(RunningSlices(p.slices), Owners(p), p.joins.Keys)
  }

  lemma NextInv(p: RoomRun, jp: JoinPayload, c: ConnId, steps: seq<Step>, step: Step)
    requires Reachable(p, jp, c, steps) && Enabled(p, step)
    ensures Inv(p) && Inv(Next(p, step))
  {
    ReachableInv(p, jp, c, steps);
    StepKeepsInv(p, step);
  }

  /**
   The exact condition of the trigger, in every room: an increment requests a signaling pass if and only if it completes
   the out tracks, or the room is ready and an even number of users have an odd number of running slices after it.
   */
  lemma TriggerIff(p: RoomRun, jp: JoinPayload, c: ConnId, steps: seq<Step>, s: SliceId)
    requires Reachable(p, jp, c, steps) && Enabled(p, OnSlice(s, CountOut))
    ensures var q := Next(p, OnSlice(s, CountOut));
            q.requests == p.requests + 1
            <==> q.room.outTracks == q.room.neededTracks || (q.room.ready && |OddUsers(q)| % 2 == 0)
  {
    ReachableInv(p, jp, c, steps);
    var q := Next(p, OnSlice(s, CountOut));
    StepKeepsInv(p, OnSlice(s, CountOut));
    FibersParity(RunningSlices(q.slices), Owners(q), q.joins.Keys);
  }

  lemma NoOddUsers(q: RoomRun)
    requires forall u | u in q.joins :: |RunningOf(q, u)| % 2 == 0
    ensures OddUsers(q) == {}
  {
  }

  lemma EvenUsersAreSignaled(p: RoomRun, jp: JoinPayload, c: ConnId, steps: seq<Step>, s: SliceId)
    requires Reachable(p, jp, c, steps) && Enabled(p, OnSlice(s, CountOut))
    requires var q := Next(p, OnSlice(s, CountOut));
             q.room.ready && forall u | u in q.joins :: |RunningOf(q, u)| % 2 == 0
    ensures Next(p, OnSlice(s, CountOut)).requests == p.requests + 1
  {
    TriggerIff(p, jp, c, steps, s);
    NoOddUsers(Next(p, OnSlice(s, CountOut)));
  }

  lemma LoopingAreIndexed(p: RoomRun, jp: JoinPayload, c: ConnId, steps: seq<Step>, step: Step)
    requires Reachable(p, jp, c, steps) && Enabled(p, step)
    ensures var q := Next(p, step);
            forall t | t in RunningSlices(q.slices) && q.slices[t].pc != Unindexed :: t in q.index
  {
    NextInv(p, jp, c, steps, step);
  }

  /**
   So when every user has an even number of running slices after it, in a ready room: a returning user's second one, the
   others having both or none. All slices that still loop are then indexed.
   */
  lemma CompleteUsersAreSignaled(p: RoomRun, jp: JoinPayload, c: ConnId, steps: seq<Step>, s: SliceId)
    requires Reachable(p, jp, c, steps) && Enabled(p, OnSlice(s, CountOut))
    ensures var q := Next(p, OnSlice(s, CountOut));
            && (q.room.outTracks == q.room.neededTracks ==> q.requests == p.requests + 1)
            && (q.room.ready && (forall u | u in q.joins :: |RunningOf(q, u)| % 2 == 0) ==>
                  q.requests == p.requests + 1)
            && (forall t | t in RunningSlices(q.slices) && q.slices[t].pc != Unindexed :: t in q.index)
  {
    var q := Next(p, OnSlice(s, CountOut));
    if q.room.ready && forall u | u in q.joins :: |RunningOf(q, u)| % 2 == 0 {
      EvenUsersAreSignaled(p, jp, c, steps, s);
    }
    LoopingAreIndexed(p, jp, c, steps, OnSlice(s, CountOut));
  }

  /**
   The trigger goes by pairs, also in audio-only rooms. There, with one slice for each of `present` users, an increment
   in a ready room requests a pass if and only if all seats are present or an even number of users is.
   */
  lemma AudioOnlyTrigger(p: RoomRun, jp: JoinPayload, c: ConnId, steps: seq<Step>, s: SliceId, present: set<UserId>)
    requires Reachable(p, jp, c, steps) && Enabled(p, OnSlice(s, CountOut)) && p.room.ready && p.perUser == 1
    requires var q := Next(p, OnSlice(s, CountOut));
             && OwnedWithin(RunningSlices(q.slices), Owners(q), present)
             && forall u | u in present :: |RunningOf(q, u)| == 1
    ensures Next(p, OnSlice(s, CountOut)).requests == p.requests + 1
            <==> |present| == p.room.size || |present| % 2 == 0
  {
    TriggerIff(p, jp, c, steps, s);
    NextInv(p, jp, c, steps, OnSlice(s, CountOut));
    OddArePresent(Next(p, OnSlice(s, CountOut)), present);
  }

  lemma OddArePresent(q: RoomRun, present: set<UserId>)
    requires Inv(q) && OwnedWithin(RunningSlices(q.slices), Owners(q), present)
    requires forall u | u in present :: |RunningOf(q, u)| == 1
    ensures OddUsers(q) == present && q.room.outTracks == |present|
  {
    FibersExactly(RunningSlices(q.slices), Owners(q), present, 1);
    forall u | u in present ensures u in q.joins {
      var t :| t in RunningOf(q, u);
      assert q.slices[t].user in q.room.connected;
    }
    forall u | u !in present ensures u !in OddUsers(q) {
      assert RunningOf(q, u) == {};
    }
  }

  // Building runs

  lemma {:induction false} RunSnoc(p: RoomRun, steps: seq<Step>, step: Step)
    requires Legal(p, steps) && Enabled(Run(p, steps), step)
    ensures Legal(p, steps + [step]) && Run(p, steps + [step]) == Next(Run(p, steps), step)
    decreases |steps|
  {
    if steps == [] {
      assert [step][1..] == [];
    } else {
      assert (steps + [step])[1..] == steps[1..] + [step];
      RunSnoc(Next(p, steps[0]), steps[1..], step);
    }
  }

  lemma Extend(jp: JoinPayload, p: RoomRun, steps: seq<Step>, step: Step) returns (q: RoomRun, more: seq<Step>)
    requires Reachable(p, jp, 0, steps) && Enabled(p, step)
    ensures q == Next(p, step) && more == steps + [step] && Reachable(q, jp, 0, more)
  {
    RunSnoc(Initial(jp, 0), steps, step);
    q, more := Next(p, step), steps + [step];
  }
}
