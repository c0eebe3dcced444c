/** Every run of the store is a run of `Deletions`: what is proved there of marks and races holds of whole rooms. */
module StoreRefinement {
  import opened Rooms
  import opened Stores
  import Deletions
  import Identity
  import RoomRuns

  // What the rooms show of their deletion

  /** The timers that have passed the check of the room's mark, and will set it. */
  function PassedOf(p: RoomRuns.RoomRun): set<Deletions.Deleter> {
    (if p.abort == RoomRuns.Passed then {Deletions.AbortTimer} else {})
    + (if p.graceful == RoomRuns.Passed then {Deletions.GracefulTimer} else {})
  }

  function Pcs(passed: set<Deletions.Deleter>, due: set<Deletions.Deleter>, done: set<Deletions.Deleter>)
    : map<Deletions.Deleter, Deletions.DeleterPc>
  {
    map d | d in passed + due + done ::
      if d in done then Deletions.Done else if d in due then Deletions.Marked else Deletions.Passed
  }

  function MarkOf(entry: Entry): Deletions.MarkedRoom {
    Deletions.MarkedRoom(entry.id, entry.run.room.deleted, Pcs(PassedOf(entry.run), entry.due, entry.done),
                         entry.Removed())
  }

  function Marks(w: World): Deletions.State {
    Deletions.State(w.index, seq(|w.rooms|, i requires 0 <= i < |w.rooms| => MarkOf(w.rooms[i])))
  }

  // What holds of each room, races or not

  /** A deleter that set the mark is past its check for good. */
  ghost predicate DeletersAgree(entry: Entry) {
    && entry.due !! entry.done
    && entry.due + entry.done <= {DEPARTURE, Deletions.AbortTimer, Deletions.GracefulTimer}
    && (DEPARTURE in entry.due + entry.done ==> entry.run.room.deleted)
    && (Deletions.AbortTimer in entry.due + entry.done ==> entry.run.abort == RoomRuns.Finished)
    && (Deletions.GracefulTimer in entry.due + entry.done ==> entry.run.graceful == RoomRuns.Finished)
  }

  ghost predicate Sound(entry: Entry) {
    RoomRuns.Inv(entry.run) && DeletersAgree(entry)
  }

  ghost predicate WorldInv(w: World) {
    IdsMatch(w) && forall i | 0 <= i < |w.rooms| :: Sound(w.rooms[i])
  }

  /** The steps that concern neither the mark nor a timer at it. */
  predicate Aside(step: RoomRuns.Step, p: RoomRuns.RoomRun)
    requires RoomRuns.Enabled(p, step)
  {
    MarkedBy(p, step) == {} && !(step.OnTimer? && step.timerAct.DeleteCheck?)
  }

  lemma AsideLeavesMark(p: RoomRuns.RoomRun, step: RoomRuns.Step)
    requires RoomRuns.Inv(p) && RoomRuns.Enabled(p, step) && Aside(step, p)
    ensures var q := RoomRuns.Next(p, step);
            && q.room.deleted == p.room.deleted
            && (q.abort == RoomRuns.Passed <==> p.abort == RoomRuns.Passed)
            && (q.graceful == RoomRuns.Passed <==> p.graceful == RoomRuns.Passed)
            && (p.abort == RoomRuns.Finished ==> q.abort == RoomRuns.Finished)
            && (p.graceful == RoomRuns.Finished ==> q.graceful == RoomRuns.Finished)
  {
    match step
    case JoinUser(u, c) => RoomRuns.JoinFrame(p, u, c);
    case OnConn(c, a) => ConnLeavesMark(p, c, a);
    case Arrive(s, c) =>
    case OnSlice(s, a) => SliceLeavesMark(p, s, a);
    case OnTimer(a) => TimerLeavesMark(p, a);
  }

  lemma ConnLeavesMark(p: RoomRuns.RoomRun, c: ConnId, a: RoomRuns.ConnAct)
    requires RoomRuns.ConnEnabled(p, c, a)
    ensures var q := RoomRuns.AfterConn(p, c, a);
            q.abort == p.abort && q.graceful == p.graceful && (p.room.deleted ==> q.room.deleted)
  {
    RoomRuns.ConnFrame(p, c, a);
  }

  lemma SliceLeavesMark(p: RoomRuns.RoomRun, s: RoomRuns.SliceId, a: RoomRuns.SliceAct)
    requires RoomRuns.Inv(p) && RoomRuns.SliceEnabled(p, s, a)
    ensures var q := RoomRuns.AfterSlice(p, s, a);
            q.room.deleted == p.room.deleted && q.abort == p.abort
            && (q.graceful == p.graceful || (p.graceful == RoomRuns.Idle && q.graceful == RoomRuns.Sleeping))
  {
    assert RoomRuns.RoomAfter(a, p.room).deleted == p.room.deleted;
    assert p.graceful != RoomRuns.Idle <==> p.room.started;
  }

  lemma TimerLeavesMark(p: RoomRuns.RoomRun, a: RoomRuns.TimerAct)
    requires RoomRuns.TimerEnabled(p, a) && !a.DeleteMark? && !a.DeleteCheck?
    ensures var q := RoomRuns.AfterTimer(p, a);
            && q.room.deleted == p.room.deleted
            && (q.abort == p.abort || (q.abort != RoomRuns.Passed && p.abort != RoomRuns.Passed
                                       && p.abort != RoomRuns.Finished))
            && (q.graceful == p.graceful || (q.graceful != RoomRuns.Passed && p.graceful != RoomRuns.Passed
                                             && p.graceful != RoomRuns.Finished))
  {
    match a
    case AbortFires =>
    case AbortCheck =>
    case AbortClose =>
    case GracefulFires =>
    case ClearReady(gracefully) =>
  }

  lemma TimerAtMark(p: RoomRuns.RoomRun, a: RoomRuns.TimerAct)
    requires RoomRuns.TimerEnabled(p, a) && (a.DeleteMark? || a.DeleteCheck?)
    ensures var q, g := RoomRuns.AfterTimer(p, a), a.gracefully;
            && q.room.deleted == (p.room.deleted || a.DeleteMark?)
            && (if g then q.abort == p.abort else q.graceful == p.graceful)
            && (a.DeleteMark? ==> (if g then q.graceful else q.abort) == RoomRuns.Finished)
            && (if g then p.graceful else p.abort) != RoomRuns.Finished
    ensures var passed, d := PassedOf(p), TimerOf(a.gracefully);
            && (a.DeleteCheck? ==> d !in passed)
            && (a.DeleteMark? ==> d in passed)
            && PassedOf(RoomRuns.AfterTimer(p, a))
            == if a.DeleteMark? then passed - {d} else if p.room.deleted then passed else passed + {d}
  {
  }

  lemma StepKeepsDeleters(entry: Entry, step: RoomRuns.Step)
    requires Sound(entry) && RoomRuns.Enabled(entry.run, step)
    ensures DeletersAgree(Stepped(entry, step))
  {
    if Aside(step, entry.run) {
      AsideLeavesMark(entry.run, step);
    } else if step.OnTimer? {
      TimerAtMark(entry.run, step.timerAct);
    } else {
      DepartureMarks(entry.run, step);
    }
  }

  /** Besides the timers, only a close marks a room. */
  lemma DepartureMarks(p: RoomRuns.RoomRun, step: RoomRuns.Step)
    requires RoomRuns.Enabled(p, step) && !step.OnTimer?
    ensures MarkedBy(p, step) != {} ==>
              && step.OnConn? && !p.room.deleted && RoomRuns.Next(p, step).room.deleted
              && MarkedBy(p, step) == {DEPARTURE}
              && RoomRuns.Next(p, step).abort == p.abort && RoomRuns.Next(p, step).graceful == p.graceful
  {
    match step
    case JoinUser(u, c) => assert AfterJoin(p.room, u).0.deleted == p.room.deleted;
    case OnConn(c, a) => ConnLeavesMark(p, c, a);
    case Arrive(s, c) =>
    case OnSlice(s, a) => assert RoomRuns.RoomAfter(a, p.room).deleted == p.room.deleted;
  }

  lemma AdvanceKeepsInv(w: World, i: nat, step: RoomRuns.Step)
    requires WorldInv(w) && i < |w.rooms| && RoomRuns.Enabled(w.rooms[i].run, step)
    ensures forall j | 0 <= j < |w.rooms| :: Sound(Advanced(w, i, step).rooms[j])
  {
    StepKeepsDeleters(w.rooms[i], step);
    RoomRuns.StepKeepsInv(w.rooms[i].run, step);
  }

  lemma CreatedKeepsInv(w: World, jp: JoinPayload, c: ConnId)
    requires WorldInv(w)
    ensures forall j | 0 <= j <= |w.rooms| :: Sound(Created(w, jp, c).rooms[j])
  {
    RoomRuns.InitialInv(jp, c);
    forall j | 0 <= j < |w.rooms| ensures Created(w, jp, c).rooms[j] == w.rooms[j] {}
  }

  lemma UnboundKeepsInv(w: World, i: nat, d: Deletions.Deleter)
    requires WorldInv(w) && Enabled(w, StoreDelete(i, d))
    ensures forall j | 0 <= j < |w.rooms| :: Sound(Unbound(w, i, d).rooms[j])
  {
    var entry := w.rooms[i];
    assert Sound(entry);
    assert (entry.due - {d}) + (entry.done + {d}) == entry.due + entry.done;
  }

  lemma StepKeepsWorldInv(w: World, step: WorldStep)
    requires WorldInv(w) && Enabled(w, step)
    ensures WorldInv(Next(w, step))
  {
    StepKeepsIds(w, step);
    match step
    case StoreJoin(jp, c) =>
      if Indexed(w, Identity.GenerateId(jp)) {
        AdvanceKeepsInv(w, w.index[Identity.GenerateId(jp)], RoomRuns.JoinUser(jp.userId, c));
      } else {
        CreatedKeepsInv(w, jp, c);
      }
    case InRoom(i, s) => AdvanceKeepsInv(w, i, s);
    case StoreDelete(i, d) => UnboundKeepsInv(w, i, d);
  }

  lemma {:induction false} RunKeepsWorldInv(w: World, steps: seq<WorldStep>)
    requires WorldInv(w) && Legal(w, steps)
    ensures WorldInv(Run(w, steps))
    decreases |steps|
  {
    if steps == [] {
    } else {
      StepKeepsWorldInv(w, steps[0]);
      RunKeepsWorldInv(Next(w, steps[0]), steps[1..]);
    }
  }

  // One room's deletion, as the deleters of `Deletions` see it

  lemma PassedSets(passed: set<Deletions.Deleter>, due: set<Deletions.Deleter>, done: set<Deletions.Deleter>,
                   d: Deletions.Deleter)
    requires d !in passed + due + done
    ensures Pcs(passed + {d}, due, done) == Pcs(passed, due, done)[d := Deletions.Passed]
  {
  }

  lemma MarkedSets(passed: set<Deletions.Deleter>, due: set<Deletions.Deleter>, done: set<Deletions.Deleter>,
                   d: Deletions.Deleter)
    requires d !in due + done
    ensures Pcs(passed - {d}, due + {d}, done) == Pcs(passed, due, done)[d := Deletions.Marked]
  {
  }

  lemma DoneSets(passed: set<Deletions.Deleter>, due: set<Deletions.Deleter>, done: set<Deletions.Deleter>,
                 d: Deletions.Deleter)
    ensures Pcs(passed, due - {d}, done + {d}) == Pcs(passed, due, done)[d := Deletions.Done]
  {
  }

  lemma AsideKeepsMark(entry: Entry, step: RoomRuns.Step)
    requires Sound(entry) && RoomRuns.Enabled(entry.run, step) && Aside(step, entry.run)
    ensures MarkOf(Stepped(entry, step)) == MarkOf(entry)
  {
    AsideLeavesMark(entry.run, step);
    var next := Stepped(entry, step);
    assert next.due == entry.due && next.done == entry.done && PassedOf(next.run) == PassedOf(entry.run);
  }

  /** Where a timer comes to the mark: it is not among the room's deleters, or has just passed the check. */
  lemma TimerIsKnown(entry: Entry, a: RoomRuns.TimerAct)
    requires DeletersAgree(entry) && RoomRuns.TimerEnabled(entry.run, a) && (a.DeleteMark? || a.DeleteCheck?)
    ensures TimerOf(a.gracefully) !in entry.due + entry.done
  {
    TimerAtMark(entry.run, a);
  }

  lemma CheckMoves(entry: Entry, a: RoomRuns.TimerAct)
    requires DeletersAgree(entry) && RoomRuns.TimerEnabled(entry.run, a) && a.DeleteCheck?
    ensures var d := TimerOf(a.gracefully);
            && d !in MarkOf(entry).deleters
            && MarkOf(Stepped(entry, RoomRuns.OnTimer(a)))
            == if entry.run.room.deleted then MarkOf(entry) else Deletions.Moved(MarkOf(entry), d, Deletions.Passed)
  {
    TimerIsKnown(entry, a);
    TimerAtMark(entry.run, a);
    PassedSets(PassedOf(entry.run), entry.due, entry.done, TimerOf(a.gracefully));
    assert Stepped(entry, RoomRuns.OnTimer(a)).due == entry.due;
  }

  lemma MarkMoves(entry: Entry, a: RoomRuns.TimerAct)
    requires DeletersAgree(entry) && RoomRuns.TimerEnabled(entry.run, a) && a.DeleteMark?
    ensures var d := TimerOf(a.gracefully);
            && d in MarkOf(entry).deleters && MarkOf(entry).deleters[d] == Deletions.Passed
            && MarkOf(Stepped(entry, RoomRuns.OnTimer(a)))
            == Deletions.Moved(MarkOf(entry), d, Deletions.Marked).(deleted := true)
  {
    TimerIsKnown(entry, a);
    TimerAtMark(entry.run, a);
    MarkedSets(PassedOf(entry.run), entry.due, entry.done, TimerOf(a.gracefully));
  }

  lemma DepartureMoves(entry: Entry, step: RoomRuns.Step)
    requires DeletersAgree(entry) && RoomRuns.Enabled(entry.run, step) && !step.OnTimer?
    requires MarkedBy(entry.run, step) != {}
    ensures DEPARTURE !in MarkOf(entry).deleters && !MarkOf(entry).deleted
    ensures MarkOf(Stepped(entry, step))
         == Deletions.Moved(MarkOf(entry), DEPARTURE, Deletions.Marked).(deleted := true)
  {
    DepartureMarks(entry.run, step);
    var passed := PassedOf(entry.run);
    assert PassedOf(RoomRuns.Next(entry.run, step)) == passed == passed - {DEPARTURE};
    MarkedSets(passed, entry.due, entry.done, DEPARTURE);
  }

  lemma UnboundMoves(entry: Entry, d: Deletions.Deleter)
    requires DeletersAgree(entry) && d in entry.due
    ensures d in MarkOf(entry).deleters && MarkOf(entry).deleters[d] == Deletions.Marked
    ensures MarkOf(entry.(due := entry.due - {d}, done := entry.done + {d}))
         == Deletions.Moved(MarkOf(entry), d, Deletions.Done).(removed := true)
  {
    DoneSets(PassedOf(entry.run), entry.due, entry.done, d);
  }

  // Every run of the store is a run of `Deletions`

  function RoomDeletionSteps(i: nat, p: RoomRuns.RoomRun, step: RoomRuns.Step): seq<Deletions.Step>
    requires RoomRuns.Enabled(p, step)
  {
    if Aside(step, p) then []
    else if step.OnTimer? then
      var d := TimerOf(step.timerAct.gracefully);
      if step.timerAct.DeleteCheck? then [Deletions.Check(i, d)] else [Deletions.Mark(i, d)]
    else [Deletions.Check(i, DEPARTURE), Deletions.Mark(i, DEPARTURE)]
  }

  function DeletionSteps(w: World, step: WorldStep): seq<Deletions.Step>
    requires Enabled(w, step)
  {
    match step
    case StoreJoin(jp, c) =>
      var id := Identity.GenerateId(jp);
      if Indexed(w, id) then RoomDeletionSteps(w.index[id], w.rooms[w.index[id]].run, RoomRuns.JoinUser(jp.userId, c))
      else [Deletions.Create(id)]
    case InRoom(i, s) => RoomDeletionSteps(i, w.rooms[i].run, s)
    case StoreDelete(i, d) => [Deletions.StoreDelete(i, d)]
  }

  /** The step marks the room while a timer that has passed the check still has to. */
  ghost predicate Races(w: World, step: WorldStep)
    requires Enabled(w, step)
  {
    step.InRoom? && MarkedBy(w.rooms[step.i].run, step.step) != {}
    && PassedOf(w.rooms[step.i].run) - MarkedBy(w.rooms[step.i].run, step.step) != {}
  }

  ghost predicate NoRace(w: World, steps: seq<WorldStep>)
    requires Legal(w, steps)
    decreases |steps|
  {
    steps == [] || (!Races(w, steps[0]) && NoRace(Next(w, steps[0]), steps[1..]))
  }

  ghost predicate Refines(w: World, after: World, steps: seq<Deletions.Step>, onlyClean: bool) {
    && Deletions.Legal(Marks(w), steps) && Deletions.Run(Marks(w), steps) == Marks(after)
    && (onlyClean ==> Deletions.NoRace(Marks(w), steps))
  }

  /** One step of `Deletions` on the room with number `i`. */
  lemma OneStepRefines(w: World, after: World, i: nat, step: Deletions.Step)
    requires i < |w.rooms| && (step.Check? || step.Mark? || step.StoreDelete?) && step.i == i
    requires Deletions.Enabled(Marks(w), step)
    requires |after.rooms| == |w.rooms| && after.rooms == w.rooms[i := after.rooms[i]]
    requires after.index == Deletions.Next(Marks(w), step).index
    requires MarkOf(after.rooms[i]) == Deletions.Next(Marks(w), step).rooms[i]
    ensures Refines(w, after, [step], !(step.Mark? && Deletions.Races(Marks(w), i, step.d)))
  {
    assert Marks(after).rooms == Deletions.Next(Marks(w), step).rooms;
    Deletions.OneStep(Marks(w), step);
  }

  lemma AsideRefines(w: World, i: nat, step: RoomRuns.Step)
    requires i < |w.rooms| && Sound(w.rooms[i]) && RoomRuns.Enabled(w.rooms[i].run, step) && Aside(step, w.rooms[i].run)
    ensures Refines(w, Advanced(w, i, step), [], true)
  {
    AsideKeepsMark(w.rooms[i], step);
    assert Marks(Advanced(w, i, step)).rooms == Marks(w).rooms;
  }

  /** Who has passed the check is the same for the marks and the rooms. */
  lemma PassedRaces(w: World, i: nat, d: Deletions.Deleter, s: Deletions.State)
    requires i < |w.rooms| && i < |s.rooms| && Sound(w.rooms[i])
    requires s.rooms[i].deleters - {d} == MarkOf(w.rooms[i]).deleters - {d}
    ensures Deletions.Races(s, i, d) <==> PassedOf(w.rooms[i].run) - {d} != {}
  {
    forall e | e != d ensures Deletions.At(s, i, e, Deletions.Passed) <==> e in PassedOf(w.rooms[i].run) {
      PassedIsKnown(w.rooms[i], e);
      assert e in s.rooms[i].deleters - {d} <==> e in MarkOf(w.rooms[i]).deleters - {d};
      assert e in s.rooms[i].deleters ==> (s.rooms[i].deleters - {d})[e] == s.rooms[i].deleters[e];
      assert e in MarkOf(w.rooms[i]).deleters ==>
        (MarkOf(w.rooms[i]).deleters - {d})[e] == MarkOf(w.rooms[i]).deleters[e];
    }
  }

  lemma PassedIsKnown(entry: Entry, e: Deletions.Deleter)
    requires Sound(entry)
    ensures e in PassedOf(entry.run) <==> e in MarkOf(entry).deleters && MarkOf(entry).deleters[e] == Deletions.Passed
  {
  }

  lemma TimerChecks(w: World, i: nat, a: RoomRuns.TimerAct)
    requires i < |w.rooms| && Sound(w.rooms[i]) && RoomRuns.TimerEnabled(w.rooms[i].run, a) && a.DeleteCheck?
    ensures Refines(w, Advanced(w, i, RoomRuns.OnTimer(a)), [Deletions.Check(i, TimerOf(a.gracefully))], true)
  {
    CheckMoves(w.rooms[i], a);
    OneStepRefines(w, Advanced(w, i, RoomRuns.OnTimer(a)), i, Deletions.Check(i, TimerOf(a.gracefully)));
  }

  lemma MarksUpdated(w: World, after: World, i: nat)
    requires i < |w.rooms| == |after.rooms| && after.rooms == w.rooms[i := after.rooms[i]] && after.index == w.index
    ensures Marks(after) == Marks(w).(rooms := Marks(w).rooms[i := MarkOf(after.rooms[i])])
  {
  }

  lemma TimerMarksRoom(w: World, i: nat, a: RoomRuns.TimerAct)
    requires i < |w.rooms| && Sound(w.rooms[i]) && RoomRuns.TimerEnabled(w.rooms[i].run, a) && a.DeleteMark?
    ensures var mark := Deletions.Mark(i, TimerOf(a.gracefully));
            && Deletions.Enabled(Marks(w), mark)
            && Deletions.Next(Marks(w), mark) == Marks(Advanced(w, i, RoomRuns.OnTimer(a)))
  {
    MarkMoves(w.rooms[i], a);
    MarksUpdated(w, Advanced(w, i, RoomRuns.OnTimer(a)), i);
  }

  lemma TimerMarks(w: World, i: nat, a: RoomRuns.TimerAct)
    requires i < |w.rooms| && Sound(w.rooms[i]) && RoomRuns.TimerEnabled(w.rooms[i].run, a) && a.DeleteMark?
    ensures var d := TimerOf(a.gracefully);
            Refines(w, Advanced(w, i, RoomRuns.OnTimer(a)), [Deletions.Mark(i, d)],
                    PassedOf(w.rooms[i].run) - {d} == {})
  {
    TimerMarksRoom(w, i, a);
    PassedRaces(w, i, TimerOf(a.gracefully), Marks(w));
    Deletions.OneStep(Marks(w), Deletions.Mark(i, TimerOf(a.gracefully)));
  }

  lemma NobodyDeparted(entry: Entry)
    requires Sound(entry) && !entry.run.room.deleted
    ensures forall e | e in MarkOf(entry).deleters :: !e.Departure?
  {
    forall e | e in MarkOf(entry).deleters ensures !e.Departure? {
      assert e in PassedOf(entry.run) || e in entry.due + entry.done;
      assert e != DEPARTURE;
    }
  }

  /** A departure that finds the room not marked finds its lock free. */
  lemma DepartureMayCheck(w: World, i: nat)
    requires i < |w.rooms| && Sound(w.rooms[i]) && !w.rooms[i].run.room.deleted
    ensures Deletions.Enabled(Marks(w), Deletions.Check(i, DEPARTURE)) && !Marks(w).rooms[i].deleted
  {
    NobodyDeparted(w.rooms[i]);
    assert Marks(w).rooms[i] == MarkOf(w.rooms[i]);
  }

  lemma DepartureMarksRoom(w: World, i: nat, step: RoomRuns.Step)
    requires i < |w.rooms| && Sound(w.rooms[i]) && RoomRuns.Enabled(w.rooms[i].run, step) && !step.OnTimer?
    requires MarkedBy(w.rooms[i].run, step) != {}
    ensures MarkedBy(w.rooms[i].run, step) == {DEPARTURE} && !w.rooms[i].run.room.deleted
    ensures Marks(Advanced(w, i, step)) == Deletions.CheckedAndMarked(Marks(w), i, DEPARTURE)
  {
    DepartureMarks(w.rooms[i].run, step);
    DepartureMoves(w.rooms[i], step);
    MarksUpdated(w, Advanced(w, i, step), i);
  }

  lemma DepartureRefines(w: World, i: nat, step: RoomRuns.Step)
    requires i < |w.rooms| && Sound(w.rooms[i]) && RoomRuns.Enabled(w.rooms[i].run, step) && !step.OnTimer?
    requires MarkedBy(w.rooms[i].run, step) != {}
    ensures Refines(w, Advanced(w, i, step), [Deletions.Check(i, DEPARTURE), Deletions.Mark(i, DEPARTURE)],
                    PassedOf(w.rooms[i].run) - {DEPARTURE} == {})
  {
    DepartureMarksRoom(w, i, step);
    DepartureMayCheck(w, i);
    PassedRaces(w, i, DEPARTURE, Marks(w));
    Deletions.CheckThenMark(Marks(w), i, DEPARTURE);
    var check, mark := Deletions.Check(i, DEPARTURE), Deletions.Mark(i, DEPARTURE);
    Deletions.TwoSteps(Marks(w), check, mark);
  }

  lemma CreatedRefines(w: World, jp: JoinPayload, c: ConnId)
    requires Identity.GenerateId(jp) !in w.index
    ensures Refines(w, Created(w, jp, c), [Deletions.Create(Identity.GenerateId(jp))], true)
  {
    var step := Deletions.Create(Identity.GenerateId(jp));
    assert MarkOf(Created(w, jp, c).rooms[|w.rooms|]).deleters == map[];
    assert Marks(Created(w, jp, c)).rooms == Deletions.Next(Marks(w), step).rooms;
    assert [step][1..] == [];
  }

  lemma UnboundRefines(w: World, i: nat, d: Deletions.Deleter)
    requires i < |w.rooms| && Sound(w.rooms[i]) && d in w.rooms[i].due
    ensures Refines(w, Unbound(w, i, d), [Deletions.StoreDelete(i, d)], true)
  {
    UnboundMoves(w.rooms[i], d);
    OneStepRefines(w, Unbound(w, i, d), i, Deletions.StoreDelete(i, d));
  }

  lemma RoomStepRefines(w: World, i: nat, step: RoomRuns.Step)
    requires i < |w.rooms| && Sound(w.rooms[i]) && RoomRuns.Enabled(w.rooms[i].run, step)
    ensures var p := w.rooms[i].run;
            Refines(w, Advanced(w, i, step), RoomDeletionSteps(i, p, step),
                    MarkedBy(p, step) == {} || PassedOf(p) - MarkedBy(p, step) == {})
  {
    var p := w.rooms[i].run;
    if Aside(step, p) {
      AsideRefines(w, i, step);
    } else if step.OnTimer? {
      if step.timerAct.DeleteCheck? {
        TimerChecks(w, i, step.timerAct);
      } else {
        TimerMarks(w, i, step.timerAct);
      }
    } else {
      DepartureMarks(p, step);
      DepartureRefines(w, i, step);
    }
  }

  /** Each step of the store is a sequence of steps of `Deletions`, and one without a race is free of races there. */
  lemma StepRefines(w: World, step: WorldStep)
    requires WorldInv(w) && Enabled(w, step)
    ensures Refines(w, Next(w, step), DeletionSteps(w, step), !Races(w, step))
  {
    match step
    case StoreJoin(jp, c) =>
      var id := Identity.GenerateId(jp);
      if Indexed(w, id) {
        DepartureMarks(w.rooms[w.index[id]].run, RoomRuns.JoinUser(jp.userId, c));
        RoomStepRefines(w, w.index[id], RoomRuns.JoinUser(jp.userId, c));
      } else {
        CreatedRefines(w, jp, c);
      }
    case InRoom(i, s) => RoomStepRefines(w, i, s);
    case StoreDelete(i, d) => UnboundRefines(w, i, d);
  }

  /** So is each run of it; what `Deletions` proves of its runs holds of the store. */
  lemma {:induction false} RunRefines(w: World, steps: seq<WorldStep>) returns (deletions: seq<Deletions.Step>)
    requires WorldInv(w) && Legal(w, steps)
    ensures Refines(w, Run(w, steps), deletions, NoRace(w, steps))
    decreases |steps|
  {
    if steps == [] {
      deletions := [];
    } else {
      StepRefines(w, steps[0]);
      StepKeepsWorldInv(w, steps[0]);
      var first := DeletionSteps(w, steps[0]);
      var rest := RunRefines(Next(w, steps[0]), steps[1..]);
      deletions := first + rest;
      Deletions.RunConcat(Marks(w), first, rest);
    }
  }

  lemma ReachableWorld(w: World, steps: seq<WorldStep>)
    requires Legal(EMPTY, steps) && w == Run(EMPTY, steps)
    ensures WorldInv(w) && (NoRace(EMPTY, steps) ==> Deletions.Inv(Marks(w)))
  {
    RunKeepsWorldInv(EMPTY, steps);
    var deletions := RunRefines(EMPTY, steps);
    assert Marks(EMPTY) == Deletions.EMPTY;
    if NoRace(EMPTY, steps) {
      Deletions.RunKeepsInv(Deletions.EMPTY, deletions);
    }
  }
}
