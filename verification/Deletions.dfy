/**
 Deleting rooms from the store, where checking a room's mark, setting it, and the call to the store are three steps
 (sfu/interaction.go). A departure does all three under the room's lock; the two timers hold no lock.
 */
module Deletions {

  datatype Deleter = Departure(n: nat) | AbortTimer | GracefulTimer

  /** A deleter that found the mark set is not listed: it has nothing left to do. */
  datatype DeleterPc = Passed | Marked | Done

  datatype MarkedRoom = MarkedRoom(
    id: string,
    deleted: bool,
    deleters: map<Deleter, DeleterPc>,
    removed: bool)  // history: a deletion of this room has gone through

  datatype State = State(index: map<string, nat>, rooms: seq<MarkedRoom>)

  datatype Step =
    | Create(id: string)
    | Check(i: nat, d: Deleter)
    | Mark(i: nat, d: Deleter)
    | StoreDelete(i: nat, d: Deleter)

  predicate At(s: State, i: nat, d: Deleter, pc: DeleterPc) {
    i < |s.rooms| && d in s.rooms[i].deleters && s.rooms[i].deleters[d] == pc
  }

  /** Only one departure at a time holds the room's lock. */
  predicate LockIsFree(room: MarkedRoom) {
    forall e | e in room.deleters && e.Departure? :: room.deleters[e] == Done
  }

  predicate Enabled(s: State, step: Step) {
    match step
    case Create(id) => id !in s.index
    case Check(i, d) => i < |s.rooms| && d !in s.rooms[i].deleters && (d.Departure? ==> LockIsFree(s.rooms[i]))
    case Mark(i, d) => At(s, i, d, Passed)
    case StoreDelete(i, d) => At(s, i, d, Marked)
  }

  function Moved(room: MarkedRoom, d: Deleter, pc: DeleterPc): MarkedRoom {
    room.(deleters := room.deleters[d := pc])
  }

  function Next(s: State, step: Step): State
    requires Enabled(s, step)
  {
    match step
    case Create(id) => State(s.index[id := |s.rooms|], s.rooms + [MarkedRoom(id, false, map[], false)])
    case Check(i, d) =>
      if s.rooms[i].deleted then s else s.(rooms := s.rooms[i := Moved(s.rooms[i], d, Passed)])
    case Mark(i, d) => s.(rooms := s.rooms[i := Moved(s.rooms[i], d, Marked).(deleted := true)])
    case StoreDelete(i, d) =>
      State(s.index - {s.rooms[i].id}, s.rooms[i := Moved(s.rooms[i], d, Done).(removed := true)])
  }

  ghost predicate Legal(s: State, steps: seq<Step>)
    decreases |steps|
  {
    steps == [] || (Enabled(s, steps[0]) && Legal(Next(s, steps[0]), steps[1..]))
  }

  ghost function Run(s: State, steps: seq<Step>): State
    requires Legal(s, steps)
    decreases |steps|
  {
    if steps == [] then s else Run(Next(s, steps[0]), steps[1..])
  }

  const EMPTY := State(map[], [])

  /** Another deleter of the room has passed the check when this one sets the mark. */
  ghost predicate Races(s: State, i: nat, d: Deleter) {
    exists e :: e != d && At(s, i, e, Passed)
  }

  ghost predicate NoRace(s: State, steps: seq<Step>)
    requires Legal(s, steps)
    decreases |steps|
  {
    steps == [] || (!(steps[0].Mark? && Races(s, steps[0].i, steps[0].d)) && NoRace(Next(s, steps[0]), steps[1..]))
  }

  lemma {:induction false} RunConcat(s: State, first: seq<Step>, second: seq<Step>)
    requires Legal(s, first) && Legal(Run(s, first), second)
    ensures Legal(s, first + second) && Run(s, first + second) == Run(Run(s, first), second)
    ensures NoRace(s, first) && NoRace(Run(s, first), second) ==> NoRace(s, first + second)
    decreases |first|
  {
    if first == [] {
      assert first + second == second;
    } else {
      assert (first + second)[1..] == first[1..] + second;
      RunConcat(Next(s, first[0]), first[1..], second);
    }
  }

  lemma OneStep(s: State, step: Step)
    requires Enabled(s, step)
    ensures Legal(s, [step]) && Run(s, [step]) == Next(s, step)
    ensures NoRace(s, [step]) <==> !(step.Mark? && Races(s, step.i, step.d))
  {
    assert [step][1..] == [];
  }

  lemma TwoSteps(s: State, first: Step, second: Step)
    requires Enabled(s, first) && Enabled(Next(s, first), second)
    ensures Legal(s, [first, second]) && Run(s, [first, second]) == Next(Next(s, first), second)
    ensures !(first.Mark? && Races(s, first.i, first.d)) && !(second.Mark? && Races(Next(s, first), second.i, second.d))
            ==> NoRace(s, [first, second])
  {
    OneStep(s, first);
    OneStep(Next(s, first), second);
    RunConcat(s, [first], [second]);
    assert [first] + [second] == [first, second];
  }

  /** This deletion would take out the binding of another room, which has reused the id. */
  predicate Evicts(s: State, i: nat, d: Deleter) {
    At(s, i, d, Marked) && s.rooms[i].id in s.index && s.index[s.rooms[i].id] != i
  }

  /** A departure's check and mark, with nothing in between. */
  function CheckedAndMarked(s: State, i: nat, d: Deleter): State
    requires i < |s.rooms|
  {
    s.(rooms := s.rooms[i := Moved(s.rooms[i], d, Marked).(deleted := true)])
  }

  lemma CheckThenMark(s: State, i: nat, d: Deleter)
    requires i < |s.rooms| && !s.rooms[i].deleted && Enabled(s, Check(i, d))
    ensures Enabled(Next(s, Check(i, d)), Mark(i, d))
    ensures Next(Next(s, Check(i, d)), Mark(i, d)) == CheckedAndMarked(s, i, d)
    ensures Races(Next(s, Check(i, d)), i, d) <==> Races(s, i, d)
  {
    var checked := Next(s, Check(i, d));
    assert Moved(checked.rooms[i], d, Marked) == Moved(s.rooms[i], d, Marked);
    forall e | e != d ensures At(checked, i, e, Passed) <==> At(s, i, e, Passed) {}
  }

  // Without races

  /** A room that is marked has one deleter, past its check; its binding is gone once that one is done. */
  ghost predicate OneDeleter(room: MarkedRoom) {
    && (!room.deleted ==> !room.removed && forall d | d in room.deleters :: room.deleters[d] == Passed)
    && (room.deleted ==> forall d | d in room.deleters :: room.deleters[d] == if room.removed then Done else Marked)
    && (room.deleted ==> forall d, e | d in room.deleters && e in room.deleters :: d == e)
  }

  ghost predicate Bindings(s: State) {
    && (forall id | id in s.index ::
          s.index[id] < |s.rooms| && s.rooms[s.index[id]].id == id && !s.rooms[s.index[id]].removed)
    && (forall i | 0 <= i < |s.rooms| && !s.rooms[i].removed ::
          s.rooms[i].id in s.index && s.index[s.rooms[i].id] == i)
  }

  ghost predicate Inv(s: State) {
    Bindings(s) && forall i | 0 <= i < |s.rooms| :: OneDeleter(s.rooms[i])
  }

  lemma StepKeepsInv(s: State, step: Step)
    requires Inv(s) && Enabled(s, step) && !(step.Mark? && Races(s, step.i, step.d))
    ensures Inv(Next(s, step))
  {
    match step
    case Create(id) => CreateKeepsInv(s, id);
    case Check(i, d) =>
    case Mark(i, d) => MarkKeepsInv(s, i, d);
    case StoreDelete(i, d) => DeleteKeepsInv(s, i, d);
  }

  lemma CreateKeepsInv(s: State, id: string)
    requires Inv(s) && id !in s.index
    ensures Inv(Next(s, Create(id)))
  {
    var t := Next(s, Create(id));
    forall j | 0 <= j < |s.rooms| ensures t.rooms[j] == s.rooms[j] {}
  }

  lemma MarkKeepsInv(s: State, i: nat, d: Deleter)
    requires Inv(s) && Enabled(s, Mark(i, d)) && !Races(s, i, d)
    ensures Inv(Next(s, Mark(i, d)))
  {
    var t := Next(s, Mark(i, d));
    assert OneDeleter(s.rooms[i]) && !s.rooms[i].deleted;
    forall e | e in t.rooms[i].deleters ensures e == d {
      assert e != d ==> At(s, i, e, Passed);
    }
    forall j | 0 <= j < |s.rooms| ensures t.rooms[j].id == s.rooms[j].id && t.rooms[j].removed == s.rooms[j].removed {}
  }

  lemma DeleteKeepsInv(s: State, i: nat, d: Deleter)
    requires Inv(s) && Enabled(s, StoreDelete(i, d))
    ensures Inv(Next(s, StoreDelete(i, d)))
  {
    var t := Next(s, StoreDelete(i, d));
    assert OneDeleter(s.rooms[i]) && !s.rooms[i].removed;
    forall j | 0 <= j < |s.rooms|
      ensures t.rooms[j].id == s.rooms[j].id && t.rooms[j].removed == (s.rooms[j].removed || j == i)
    {}
  }

  lemma {:induction false} RunKeepsInv(s: State, steps: seq<Step>)
    requires Inv(s) && Legal(s, steps) && NoRace(s, steps)
    ensures Inv(Run(s, steps))
    decreases |steps|
  {
    if steps == [] {
    } else {
      StepKeepsInv(s, steps[0]);
      RunKeepsInv(Next(s, steps[0]), steps[1..]);
    }
  }

  /** As long as no mark was set in a race, every deletion takes out its own room's binding. */
  lemma NoRaceNoEviction(s: State, steps: seq<Step>, i: nat, d: Deleter)
    requires Legal(EMPTY, steps) && NoRace(EMPTY, steps) && s == Run(EMPTY, steps)
    ensures !Evicts(s, i, d)
  {
    RunKeepsInv(EMPTY, steps);
    if At(s, i, d, Marked) {
      assert OneDeleter(s.rooms[i]);
    }
  }

  // The exact condition, where the mark is set

  ghost predicate MayEvict(s: State, i: nat) {
    exists more, d :: Legal(s, more) && Evicts(Run(s, more), i, d)
  }

  /** No deleter of this room has anything left to do. */
  ghost predicate AllDone(room: MarkedRoom) {
    room.deleted && forall d | d in room.deleters :: room.deleters[d] == Done
  }

  /** Only `d` is left to delete room `i`; until it does, the room is bound and older rooms with its id are done. */
  ghost predicate Settled(s: State, i: nat, d: Deleter) {
    && i < |s.rooms| && s.rooms[i].deleted
    && (forall e | e in s.rooms[i].deleters && e != d :: s.rooms[i].deleters[e] == Done)
    && (At(s, i, d, Marked) || At(s, i, d, Done))
    && (At(s, i, d, Marked) ==>
          && s.rooms[i].id in s.index && s.index[s.rooms[i].id] == i
          && forall j | 0 <= j < |s.rooms| && j != i && s.rooms[j].id == s.rooms[i].id :: AllDone(s.rooms[j]))
  }

  lemma StepKeepsSettled(s: State, i: nat, d: Deleter, step: Step)
    requires Settled(s, i, d) && Enabled(s, step)
    ensures Settled(Next(s, step), i, d)
  {
    var t := Next(s, step);
    forall j | 0 <= j < |s.rooms| && AllDone(s.rooms[j]) ensures t.rooms[j] == s.rooms[j] {}
    assert t.rooms[i].id == s.rooms[i].id;
  }

  lemma {:induction false} RunKeepsSettled(s: State, i: nat, d: Deleter, steps: seq<Step>)
    requires Settled(s, i, d) && Legal(s, steps)
    ensures Settled(Run(s, steps), i, d)
    decreases |steps|
  {
    if steps == [] {
    } else {
      StepKeepsSettled(s, i, d, steps[0]);
      RunKeepsSettled(Next(s, steps[0]), i, d, steps[1..]);
    }
  }

  lemma SettledNeverEvicts(s: State, i: nat, d: Deleter)
    requires Settled(s, i, d)
    ensures !MayEvict(s, i)
  {
    forall more, e | Legal(s, more) ensures !Evicts(Run(s, more), i, e) {
      RunKeepsSettled(s, i, d, more);
    }
  }

  /** A deleter that sets the mark while another has passed the check: a successor under the same id may be evicted. */
  lemma RaceEvicts(s: State, i: nat, d: Deleter, e: Deleter)
    requires Enabled(s, Mark(i, d)) && e != d && At(s, i, e, Passed)
    ensures MayEvict(Next(s, Mark(i, d)), i)
  {
    var id := s.rooms[i].id;
    var s1 := Next(s, Mark(i, d));
    var s2 := Next(s1, StoreDelete(i, d));
    var s3 := Next(s2, Create(id));
    var s4 := Next(s3, Mark(i, e));
    assert Evicts(s4, i, e);
    TwoSteps(s1, StoreDelete(i, d), Create(id));
    OneStep(s3, Mark(i, e));
    RunConcat(s1, [StoreDelete(i, d), Create(id)], [Mark(i, e)]);
    var more := [StoreDelete(i, d), Create(id)] + [Mark(i, e)];
    assert Legal(s1, more) && Evicts(Run(s1, more), i, e);
  }

  /**
   As long as no mark was set in a race: setting the mark of a room can end in the eviction of a successor by that
   room, now or ever after, if and only if a second deleter has passed the check before.
   */
  lemma EvictionIffRace(s: State, steps: seq<Step>, i: nat, d: Deleter)
    requires Legal(EMPTY, steps) && NoRace(EMPTY, steps) && s == Run(EMPTY, steps) && Enabled(s, Mark(i, d))
    ensures MayEvict(Next(s, Mark(i, d)), i) <==> Races(s, i, d)
  {
    if Races(s, i, d) {
      var e :| e != d && At(s, i, e, Passed);
      RaceEvicts(s, i, d, e);
    } else {
      RunKeepsInv(EMPTY, steps);
      MarkKeepsInv(s, i, d);
      MarkSettles(s, i, d);
      SettledNeverEvicts(Next(s, Mark(i, d)), i, d);
    }
  }

  lemma MarkSettles(s: State, i: nat, d: Deleter)
    requires Inv(s) && Enabled(s, Mark(i, d)) && !Races(s, i, d)
    ensures Settled(Next(s, Mark(i, d)), i, d)
  {
    var t := Next(s, Mark(i, d));
    MarkKeepsInv(s, i, d);
    assert OneDeleter(t.rooms[i]) && OneDeleter(s.rooms[i]);
    forall j | 0 <= j < |t.rooms| && j != i && t.rooms[j].id == t.rooms[i].id ensures AllDone(t.rooms[j]) {
      assert OneDeleter(t.rooms[j]);
    }
  }

  /** The condition can fail: a departure and the abort timer of one room, both past the check. */
  lemma RaceIsReachable(id: string) returns (s: State, steps: seq<Step>)
    ensures Legal(EMPTY, steps) && NoRace(EMPTY, steps) && s == Run(EMPTY, steps)
    ensures Enabled(s, Mark(0, Departure(0))) && Races(s, 0, Departure(0))
    ensures MayEvict(Next(s, Mark(0, Departure(0))), 0)
  {
    var create, first, second := Create(id), Check(0, AbortTimer), Check(0, Departure(0));
    var s1 := Next(EMPTY, create);
    var s2 := Next(s1, first);
    TwoSteps(EMPTY, create, first);
    steps := [create, first, second];
    s := Next(s2, second);
    OneStep(s2, second);
    RunConcat(EMPTY, [create, first], [second]);
    assert [create, first] + [second] == steps;
    assert At(s, 0, AbortTimer, Passed);
    RaceEvicts(s, 0, Departure(0), AbortTimer);
  }
}
