/**
 What deletions do to the store (sfu/interaction.go, sfu/interaction_store.go): nothing wrong without races, and exactly
 when a room can take out a successor that reused its id.
 */
module Evictions {
  import opened Common
  import opened Rooms
  import opened StoreRefinement
  import opened Stores
  import Deletions
  import Identity
  import RoomRuns

  // Without races

  lemma CleanBindings(w: World)
    requires Deletions.Inv(Marks(w))
    ensures forall id | id in w.index ::
              Indexed(w, id) && w.rooms[w.index[id]].id == id && !w.rooms[w.index[id]].Removed()
    ensures forall i | 0 <= i < |w.rooms| && !w.rooms[i].Removed() :: LeadsTo(w, i)
  {
    forall i | 0 <= i < |w.rooms| ensures Marks(w).rooms[i] == MarkOf(w.rooms[i]) {}
  }

  lemma CleanRoom(w: World, i: nat)
    requires Deletions.Inv(Marks(w)) && i < |w.rooms|
    ensures Deletions.OneDeleter(MarkOf(w.rooms[i])) && (!w.rooms[i].run.room.deleted ==> !w.rooms[i].Removed())
  {
    assert Marks(w).rooms[i] == MarkOf(w.rooms[i]);
  }

  /**
   In every state reached without a race the store maps an id to a room exactly when that room was created with the id
   and its deletion has not gone through; so no two such rooms share an id, and an unmarked room is always found.
   */
  lemma IndexAgreement(w: World, steps: seq<WorldStep>, id: string, i: nat)
    requires Legal(EMPTY, steps) && w == Run(EMPTY, steps) && NoRace(EMPTY, steps)
    ensures id in w.index && w.index[id] == i <==> i < |w.rooms| && w.rooms[i].id == id && !w.rooms[i].Removed()
    ensures i < |w.rooms| && !w.rooms[i].run.room.deleted ==> LeadsTo(w, i)
  {
    ReachableWorld(w, steps);
    CleanBindings(w);
    if i < |w.rooms| {
      CleanRoom(w, i);
    }
  }

  /** A deletion that goes through the store takes out its own room's binding, and every other id keeps its own. */
  lemma DeleteIsExact(w: World, steps: seq<WorldStep>, i: nat, d: Deletions.Deleter)
    requires Legal(EMPTY, steps) && w == Run(EMPTY, steps) && NoRace(EMPTY, steps) && Enabled(w, StoreDelete(i, d))
    ensures LeadsTo(w, i)
    ensures var after := Next(w, StoreDelete(i, d));
            && w.rooms[i].id !in after.index
            && forall j | 0 <= j < |w.rooms| && j != i && !w.rooms[j].Removed() :: LeadsTo(after, j)
  {
    DueIsNotRemoved(w, steps, i, d);
    IndexAgreement(w, steps, w.rooms[i].id, i);
    forall j | 0 <= j < |w.rooms| && j != i && !w.rooms[j].Removed()
      ensures LeadsTo(Next(w, StoreDelete(i, d)), j)
    {
      IndexAgreement(w, steps, w.rooms[j].id, j);
    }
  }

  lemma DueIsNotRemoved(w: World, steps: seq<WorldStep>, i: nat, d: Deletions.Deleter)
    requires Legal(EMPTY, steps) && w == Run(EMPTY, steps) && NoRace(EMPTY, steps) && Enabled(w, StoreDelete(i, d))
    ensures !w.rooms[i].Removed()
  {
    ReachableWorld(w, steps);
    UnboundMoves(w.rooms[i], d);
    CleanRoom(w, i);
  }

  /** Nothing is left to do for the deleters of this room. */
  ghost predicate Spent(entry: Entry) {
    entry.run.room.deleted && entry.due == {} && PassedOf(entry.run) == {}
  }

  lemma StepKeepsSpent(entry: Entry, step: RoomRuns.Step)
    requires Sound(entry) && Spent(entry) && RoomRuns.Enabled(entry.run, step)
    ensures Spent(Stepped(entry, step))
  {
    if Aside(step, entry.run) {
      AsideLeavesMark(entry.run, step);
    } else if step.OnTimer? {
      TimerAtMark(entry.run, step.timerAct);
    } else {
      DepartureMarks(entry.run, step);
    }
  }

  ghost predicate OnlyRoom(steps: seq<WorldStep>, i: nat) {
    forall k | 0 <= k < |steps| ::
      match steps[k]
      case StoreJoin(_, _) => false
      case InRoom(j, _) => j == i
      case StoreDelete(j, _) => j == i
  }

  lemma {:induction false} SpentNeverEvicts(w: World, i: nat, steps: seq<WorldStep>)
    requires WorldInv(w) && i < |w.rooms| && Spent(w.rooms[i]) && Legal(w, steps) && OnlyRoom(steps, i)
    ensures Run(w, steps).index == w.index
    decreases |steps|
  {
    if steps == [] {
    } else {
      assert OnlyRoom(steps[1..], i) by {
        forall k | 0 <= k < |steps| - 1 ensures steps[1..][k] == steps[k + 1] {}
      }
      StepKeepsSpent(w.rooms[i], steps[0].step);
      StepKeepsWorldInv(w, steps[0]);
      SpentNeverEvicts(Next(w, steps[0]), i, steps[1..]);
    }
  }

  /**
   Once a deletion has gone through without a race, nothing the old room still does (late closes, the delayed delete of
   its timers) touches the store: a successor that reused its id stays.
   */
  lemma OldRoomNeverEvicts(w: World, steps: seq<WorldStep>, i: nat, more: seq<WorldStep>)
    requires Legal(EMPTY, steps) && w == Run(EMPTY, steps) && NoRace(EMPTY, steps)
    requires i < |w.rooms| && w.rooms[i].Removed() && Legal(w, more) && OnlyRoom(more, i)
    ensures Run(w, more).index == w.index
  {
    ReachableWorld(w, steps);
    CleanRoom(w, i);
    RemovedIsSpent(w.rooms[i]);
    SpentNeverEvicts(w, i, more);
  }

  lemma RemovedIsSpent(entry: Entry)
    requires Sound(entry) && Deletions.OneDeleter(MarkOf(entry)) && entry.Removed()
    ensures Spent(entry)
  {
    var mark := MarkOf(entry);
    forall d ensures d !in entry.due && d !in PassedOf(entry.run) {
      PassedIsKnown(entry, d);
      if d in entry.due {
        UnboundMoves(entry, d);
      }
    }
  }

  // The exact condition, where a room is marked

  /** This call to the store would take out the binding of another room, which has reused the id. */
  predicate Evicts(w: World, i: nat, d: Deletions.Deleter) {
    Enabled(w, StoreDelete(i, d)) && w.rooms[i].id in w.index && w.index[w.rooms[i].id] != i
  }

  ghost predicate MayEvict(w: World, i: nat) {
    exists more, d :: Legal(w, more) && Evicts(Run(w, more), i, d)
  }

  lemma SettledRoomNeverEvicts(w: World, i: nat, d: Deletions.Deleter)
    requires WorldInv(w) && Deletions.Settled(Marks(w), i, d)
    ensures !MayEvict(w, i)
  {
    forall more, e | Legal(w, more) ensures !Evicts(Run(w, more), i, e) {
      var deletions := RunRefines(w, more);
      Deletions.RunKeepsSettled(Marks(w), i, d, deletions);
      RunKeepsWorldInv(w, more);
      SettledNow(Run(w, more), i, d, e);
    }
  }

  lemma SettledNow(w: World, i: nat, d: Deletions.Deleter, e: Deletions.Deleter)
    requires WorldInv(w) && Deletions.Settled(Marks(w), i, d)
    ensures !Evicts(w, i, e)
  {
    if Enabled(w, StoreDelete(i, e)) {
      UnboundMoves(w.rooms[i], e);
      assert Marks(w).rooms[i] == MarkOf(w.rooms[i]);
    }
  }

  lemma TimerSettles(w: World, i: nat, a: RoomRuns.TimerAct)
    requires WorldInv(w) && Deletions.Inv(Marks(w)) && i < |w.rooms|
    requires RoomRuns.TimerEnabled(w.rooms[i].run, a) && a.DeleteMark?
    requires PassedOf(w.rooms[i].run) - {TimerOf(a.gracefully)} == {}
    ensures Deletions.Settled(Marks(Advanced(w, i, RoomRuns.OnTimer(a))), i, TimerOf(a.gracefully))
  {
    var d := TimerOf(a.gracefully);
    TimerMarksRoom(w, i, a);
    PassedRaces(w, i, d, Marks(w));
    Deletions.MarkSettles(Marks(w), i, d);
  }

  lemma DepartureSettles(w: World, i: nat, step: RoomRuns.Step)
    requires WorldInv(w) && Deletions.Inv(Marks(w)) && i < |w.rooms| && RoomRuns.Enabled(w.rooms[i].run, step)
    requires !step.OnTimer? && MarkedBy(w.rooms[i].run, step) != {} && PassedOf(w.rooms[i].run) - {DEPARTURE} == {}
    ensures Deletions.Settled(Marks(Advanced(w, i, step)), i, DEPARTURE)
  {
    DepartureMarksRoom(w, i, step);
    DepartureMayCheck(w, i);
    PassedRaces(w, i, DEPARTURE, Marks(w));
    Deletions.CheckThenMark(Marks(w), i, DEPARTURE);
    Deletions.StepKeepsInv(Marks(w), Deletions.Check(i, DEPARTURE));
    Deletions.MarkSettles(Deletions.Next(Marks(w), Deletions.Check(i, DEPARTURE)), i, DEPARTURE);
  }

  lemma MarkedRoomSettles(w: World, i: nat, step: RoomRuns.Step) returns (d: Deletions.Deleter)
    requires WorldInv(w) && Deletions.Inv(Marks(w)) && Enabled(w, InRoom(i, step))
    requires MarkedBy(w.rooms[i].run, step) != {} && !Races(w, InRoom(i, step))
    ensures Deletions.Settled(Marks(Advanced(w, i, step)), i, d)
  {
    if step.OnTimer? {
      d := TimerOf(step.timerAct.gracefully);
      TimerSettles(w, i, step.timerAct);
    } else {
      d := DEPARTURE;
      DepartureMarks(w.rooms[i].run, step);
      DepartureSettles(w, i, step);
    }
  }

  /** A connection that no room has yet. */
  ghost predicate Unused(w: World, c: ConnId) {
    forall i | 0 <= i < |w.rooms| :: c !in w.rooms[i].run.conns
  }

  lemma MarkingAddsNoConn(p: RoomRuns.RoomRun, step: RoomRuns.Step)
    requires RoomRuns.Enabled(p, step) && MarkedBy(p, step) != {}
    ensures RoomRuns.Next(p, step).conns == p.conns
    ensures PassedOf(p) - MarkedBy(p, step) <= PassedOf(RoomRuns.Next(p, step))
  {
    if step.OnTimer? {
      TimerAtMark(p, step.timerAct);
    } else {
      DepartureMarks(p, step);
    }
  }

  /** Another timer that has passed the check marks the room too. */
  lemma TimerMarksToo(p: RoomRuns.RoomRun, d: Deletions.Deleter) returns (step: RoomRuns.Step)
    requires d in PassedOf(p)
    ensures RoomRuns.Enabled(p, step) && step.OnTimer? && MarkedBy(p, step) == {d}
  {
    step := RoomRuns.OnTimer(RoomRuns.DeleteMark(d == Deletions.GracefulTimer));
  }

  /** What becomes of a room whose deletion goes through while `e` has still to mark it, and of its successor. */
  lemma SuccessorIsEvicted(w: World, i: nat, d: Deletions.Deleter, e: Deletions.Deleter, jp: JoinPayload, c: ConnId)
    requires i < |w.rooms| && d in w.rooms[i].due && e in PassedOf(w.rooms[i].run)
    requires Identity.GenerateId(jp) == w.rooms[i].id && Unused(w, c)
    ensures MayEvict(w, i)
  {
    var w1 := Next(w, StoreDelete(i, d));
    var w2 := Next(w1, StoreJoin(jp, c));
    IdsAreReused(w, i, d, jp, c);
    var step := TimerMarksToo(w2.rooms[i].run, e);
    var w3 := Next(w2, InRoom(i, step));
    assert Evicts(w3, i, e);
    ThreeSteps(w, StoreDelete(i, d), StoreJoin(jp, c), InRoom(i, step));
  }

  lemma {:induction false} RunSnoc(w: World, steps: seq<WorldStep>, step: WorldStep)
    requires Legal(w, steps) && Enabled(Run(w, steps), step)
    ensures Legal(w, steps + [step]) && Run(w, steps + [step]) == Next(Run(w, steps), step)
    ensures NoRace(w, steps) && !Races(Run(w, steps), step) ==> NoRace(w, steps + [step])
    decreases |steps|
  {
    if steps == [] {
      assert [step][1..] == [];
    } else {
      assert (steps + [step])[1..] == steps[1..] + [step];
      RunSnoc(Next(w, steps[0]), steps[1..], step);
    }
  }

  lemma ThreeSteps(w: World, first: WorldStep, second: WorldStep, third: WorldStep)
    requires Enabled(w, first) && Enabled(Next(w, first), second) && Enabled(Next(Next(w, first), second), third)
    ensures Legal(w, [first, second, third])
    ensures Run(w, [first, second, third]) == Next(Next(Next(w, first), second), third)
  {
    RunSnoc(w, [], first);
    RunSnoc(w, [first], second);
    RunSnoc(w, [first, second], third);
    assert [] + [first] == [first] && [first] + [second] == [first, second];
    assert [first, second] + [third] == [first, second, third];
  }

  /** What a racing step leaves: a call to the store that is due, and a timer that has still to mark the room. */
  lemma RaceLeaves(w: World, i: nat, step: RoomRuns.Step, c: ConnId)
    returns (d: Deletions.Deleter, e: Deletions.Deleter)
    requires Unused(w, c) && Enabled(w, InRoom(i, step)) && Races(w, InRoom(i, step))
    ensures var next := Advanced(w, i, step);
            && d in next.rooms[i].due && e in PassedOf(next.rooms[i].run)
            && next.rooms[i].id == w.rooms[i].id && Unused(next, c)
  {
    var p := w.rooms[i].run;
    d :| d in MarkedBy(p, step);
    e :| e in PassedOf(p) - MarkedBy(p, step);
    MarkingAddsNoConn(p, step);
  }

  /** Some join has the id of the room. */
  lemma JoinedWith(w: World, steps: seq<WorldStep>, i: nat) returns (jp: JoinPayload)
    requires Legal(EMPTY, steps) && w == Run(EMPTY, steps) && i < |w.rooms|
    ensures Identity.GenerateId(jp) == w.rooms[i].id
  {
    var c, trace;
    jp, c, trace := EveryRoomIsReachable(w, steps, i);
  }

  lemma RaceEvicts(w: World, steps: seq<WorldStep>, i: nat, step: RoomRuns.Step, c: ConnId)
    requires Legal(EMPTY, steps) && w == Run(EMPTY, steps) && Unused(w, c)
    requires Enabled(w, InRoom(i, step)) && Races(w, InRoom(i, step))
    ensures MayEvict(Next(w, InRoom(i, step)), i)
  {
    var jp := JoinedWith(w, steps, i);
    var d, e := RaceLeaves(w, i, step, c);
    SuccessorIsEvicted(Advanced(w, i, step), i, d, e, jp, c);
  }

  /**
   In every state reached without a race: a step that marks a room can end, in any continuation, in that room's evicting
   a successor from the store, if and only if a timer of the room has passed the check and still has to mark it. (`c` is
   a connection the successor can be joined with.)
   */
  lemma EvictionIffRace(w: World, steps: seq<WorldStep>, i: nat, step: RoomRuns.Step, c: ConnId)
    requires Legal(EMPTY, steps) && w == Run(EMPTY, steps) && NoRace(EMPTY, steps) && Unused(w, c)
    requires Enabled(w, InRoom(i, step)) && MarkedBy(w.rooms[i].run, step) != {}
    ensures MayEvict(Next(w, InRoom(i, step)), i) <==> Races(w, InRoom(i, step))
  {
    if Races(w, InRoom(i, step)) {
      RaceEvicts(w, steps, i, step, c);
    } else {
      ReachableWorld(w, steps);
      var d := MarkedRoomSettles(w, i, step);
      StepKeepsWorldInv(w, InRoom(i, step));
      SettledRoomNeverEvicts(Advanced(w, i, step), i, d);
    }
  }

  // The condition can fail: a room whose only user leaves after its abort timer has passed the check

  /** One room ever created, with no race yet. */
  ghost predicate Alone(w: World, steps: seq<WorldStep>) {
    Legal(EMPTY, steps) && w == Run(EMPTY, steps) && NoRace(EMPTY, steps) && |w.rooms| == 1
  }

  ghost predicate OneUser(p: RoomRuns.RoomRun, u: UserId, number: RoomRuns.Number, connected: bool,
                          timer: Timer, abort: RoomRuns.StopPc)
  {
    && p.conns == map[0 := RoomRuns.Conn(u, 1, number, connected)] && p.room.connected == map[u := true]
    && p.room.abortTimer == timer && p.abort == abort && !p.room.ready && !p.room.deleted
  }

  lemma Goes(w: World, steps: seq<WorldStep>, step: RoomRuns.Step) returns (next: World, more: seq<WorldStep>)
    requires Alone(w, steps) && RoomRuns.Enabled(w.rooms[0].run, step) && !step.JoinUser?
    requires MarkedBy(w.rooms[0].run, step) == {}
    ensures Alone(next, more) && next.rooms[0].id == w.rooms[0].id
    ensures next.rooms[0].run == RoomRuns.Next(w.rooms[0].run, step)
  {
    RunSnoc(EMPTY, steps, InRoom(0, step));
    next, more := Next(w, InRoom(0, step)), steps + [InRoom(0, step)];
  }

  lemma Joined(jp: JoinPayload) returns (w: World, steps: seq<WorldStep>)
    ensures Alone(w, steps) && w.rooms[0].id == Identity.GenerateId(jp)
    ensures OneUser(w.rooms[0].run, jp.userId, RoomRuns.Pending, false, Armed, RoomRuns.Sleeping)
  {
    var step := StoreJoin(jp, 0);
    RunSnoc(EMPTY, [], step);
    assert [] + [step] == [step];
    w, steps := Next(EMPTY, step), [step];
  }

  lemma OneReads(p: RoomRuns.RoomRun, u: UserId)
    requires OneUser(p, u, RoomRuns.Pending, false, Armed, RoomRuns.Sleeping)
    ensures var step := RoomRuns.OnConn(0, RoomRuns.ReadNumber);
            && RoomRuns.Enabled(p, step) && MarkedBy(p, step) == {}
            && OneUser(RoomRuns.Next(p, step), u, RoomRuns.Read(JoinedCount(p.room, u)), false,
                       Armed, RoomRuns.Sleeping)
  {
  }

  lemma OneConnects(p: RoomRuns.RoomRun, u: UserId, n: nat)
    requires OneUser(p, u, RoomRuns.Read(n), false, Armed, RoomRuns.Sleeping)
    ensures var step := RoomRuns.OnConn(0, RoomRuns.Connect);
            && RoomRuns.Enabled(p, step) && MarkedBy(p, step) == {}
            && OneUser(RoomRuns.Next(p, step), u, RoomRuns.Read(n), true, Armed, RoomRuns.Sleeping)
  {
  }

  lemma Connected(jp: JoinPayload) returns (w: World, steps: seq<WorldStep>, n: nat)
    ensures Alone(w, steps) && w.rooms[0].id == Identity.GenerateId(jp)
    ensures OneUser(w.rooms[0].run, jp.userId, RoomRuns.Read(n), true, Armed, RoomRuns.Sleeping)
  {
    w, steps := Joined(jp);
    n := JoinedCount(w.rooms[0].run.room, jp.userId);
    OneReads(w.rooms[0].run, jp.userId);
    w, steps := Goes(w, steps, RoomRuns.OnConn(0, RoomRuns.ReadNumber));
    OneConnects(w.rooms[0].run, jp.userId, n);
    w, steps := Goes(w, steps, RoomRuns.OnConn(0, RoomRuns.Connect));
  }

  /** The abort timer's goroutine takes its next step. */
  lemma TimerGoes(w: World, steps: seq<WorldStep>, a: RoomRuns.TimerAct, u: UserId, n: nat,
                  timer: Timer, abort: RoomRuns.StopPc) returns (next: World, more: seq<WorldStep>)
    requires Alone(w, steps) && OneUser(w.rooms[0].run, u, RoomRuns.Read(n), true, timer, abort)
    requires RoomRuns.TimerEnabled(w.rooms[0].run, a) && !a.DeleteMark?
    ensures Alone(next, more) && next.rooms[0].id == w.rooms[0].id
    ensures OneUser(next.rooms[0].run, u, RoomRuns.Read(n), true, if a.AbortFires? then Fired else timer,
                    RoomRuns.TimerAbort(a, abort, w.rooms[0].run.room))
  {
    next, more := Goes(w, steps, RoomRuns.OnTimer(a));
  }

  lemma TimedOut(jp: JoinPayload) returns (w: World, steps: seq<WorldStep>, n: nat)
    ensures Alone(w, steps) && w.rooms[0].id == Identity.GenerateId(jp)
    ensures OneUser(w.rooms[0].run, jp.userId, RoomRuns.Read(n), true, Fired, RoomRuns.Closed)
  {
    w, steps, n := Connected(jp);
    w, steps := TimerGoes(w, steps, RoomRuns.AbortFires, jp.userId, n, Armed, RoomRuns.Sleeping);
    w, steps := TimerGoes(w, steps, RoomRuns.AbortCheck, jp.userId, n, Fired, RoomRuns.Sleeping);
    w, steps := TimerGoes(w, steps, RoomRuns.AbortClose, jp.userId, n, Fired, RoomRuns.Aborting);
  }

  lemma PastTheCheck(jp: JoinPayload) returns (w: World, steps: seq<WorldStep>, n: nat)
    ensures Alone(w, steps) && w.rooms[0].id == Identity.GenerateId(jp)
    ensures OneUser(w.rooms[0].run, jp.userId, RoomRuns.Read(n), true, Fired, RoomRuns.Passed)
  {
    w, steps, n := TimedOut(jp);
    w, steps := TimerGoes(w, steps, RoomRuns.ClearReady(false), jp.userId, n, Fired, RoomRuns.Closed);
    w, steps := TimerGoes(w, steps, RoomRuns.DeleteCheck(false), jp.userId, n, Fired, RoomRuns.Cleared);
  }

  /** The last user leaves: her departure marks the room too. */
  lemma OneLeaves(p: RoomRuns.RoomRun, u: UserId, n: nat)
    requires OneUser(p, u, RoomRuns.Read(n), true, Fired, RoomRuns.Passed)
    ensures var step := RoomRuns.OnConn(0, RoomRuns.Close);
            RoomRuns.Enabled(p, step) && MarkedBy(p, step) == {DEPARTURE} && Deletions.AbortTimer in PassedOf(p)
  {
    DisconnectDecision(p.room, u);
    assert ConnectedUsers(p.room) == {u};
  }

  /** Whoever joins: the abort timer and the departure of a room that times out can stand at the mark together. */
  lemma RaceIsReachable(jp: JoinPayload) returns (w: World, steps: seq<WorldStep>)
    ensures Legal(EMPTY, steps) && w == Run(EMPTY, steps) && NoRace(EMPTY, steps)
    ensures var leave := InRoom(0, RoomRuns.OnConn(0, RoomRuns.Close));
            Enabled(w, leave) && Races(w, leave) && MayEvict(Next(w, leave), 0)
  {
    var n;
    w, steps, n := PastTheCheck(jp);
    OneLeaves(w.rooms[0].run, jp.userId, n);
    EvictionIffRace(w, steps, 0, RoomRuns.OnConn(0, RoomRuns.Close), 1);
  }

  lemma Takes(w: World, steps: seq<WorldStep>, step: WorldStep) returns (next: World, more: seq<WorldStep>)
    requires Legal(EMPTY, steps) && w == Run(EMPTY, steps) && Enabled(w, step)
    ensures next == Next(w, step) && Legal(EMPTY, more) && next == Run(EMPTY, more)
  {
    RunSnoc(EMPTY, steps, step);
    next, more := Next(w, step), steps + [step];
  }

  lemma OnlyBinding(w: World)
    requires IdsMatch(w) && |w.rooms| == 1
    ensures w.index - {w.rooms[0].id} == map[]
  {
    forall id | id in w.index ensures id == w.rooms[0].id {}
  }

  /** Her departure has marked the room, and the timer has still to. */
  lemma Left(jp: JoinPayload) returns (w: World, steps: seq<WorldStep>)
    ensures Legal(EMPTY, steps) && w == Run(EMPTY, steps) && |w.rooms| == 1 && DEPARTURE in w.rooms[0].due
    ensures w.rooms[0].id == Identity.GenerateId(jp) && w.rooms[0].run.conns.Keys == {0}
    ensures Deletions.AbortTimer in PassedOf(w.rooms[0].run)
  {
    var n;
    w, steps, n := PastTheCheck(jp);
    OneLeaves(w.rooms[0].run, jp.userId, n);
    MarkingAddsNoConn(w.rooms[0].run, RoomRuns.OnConn(0, RoomRuns.Close));
    w, steps := Takes(w, steps, InRoom(0, RoomRuns.OnConn(0, RoomRuns.Close)));
  }

  /** And has gone through. */
  lemma Gone(jp: JoinPayload) returns (w: World, steps: seq<WorldStep>)
    ensures Legal(EMPTY, steps) && w == Run(EMPTY, steps) && w.index == map[] && |w.rooms| == 1
    ensures w.rooms[0].id == Identity.GenerateId(jp) && w.rooms[0].run.conns.Keys == {0}
    ensures Deletions.AbortTimer in PassedOf(w.rooms[0].run)
  {
    w, steps := Left(jp);
    RunKeepsIds(EMPTY, steps);
    OnlyBinding(w);
    w, steps := Takes(w, steps, StoreDelete(0, DEPARTURE));
  }

  /** In full: the successor, whom nobody has left and no timer has stopped, is no longer found under its id. */
  lemma LiveRoomIsLost(jp: JoinPayload) returns (w: World, steps: seq<WorldStep>)
    ensures Legal(EMPTY, steps) && w == Run(EMPTY, steps) && |w.rooms| == 2
    ensures w.rooms[1].run == RoomRuns.Initial(jp, 1) && w.rooms[1].id == Identity.GenerateId(jp)
    ensures w.rooms[1].id !in w.index
  {
    w, steps := Gone(jp);
    w, steps := Takes(w, steps, StoreJoin(jp, 1));
    var mark := TimerMarksToo(w.rooms[0].run, Deletions.AbortTimer);
    w, steps := Takes(w, steps, InRoom(0, mark));
    w, steps := Takes(w, steps, StoreDelete(0, Deletions.AbortTimer));
  }
}
