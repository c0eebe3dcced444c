/**
 The store of interactions (sfu/interaction_store.go) and all rooms under it: rooms are looked up by id, ids are reused
 once a room is deleted, and a room may be deleted from three places.
 */
module Stores {
  import opened Rooms
  import Connections
  import Deletions
  import Identity
  import RoomGuarantees
  import RoomRuns

  /** A room ever created, with the deleters whose call to the store is due, or done. */
  datatype Entry = Entry(
    id: string,
    run: RoomRuns.RoomRun,
    due: set<Deletions.Deleter>,
    done: set<Deletions.Deleter>) {

    /** A deletion of this room has gone through the store. */
    predicate Removed() {
      done != {}
    }
  }

  datatype World = World(index: map<string, nat>, rooms: seq<Entry>)

  datatype WorldStep =
    | StoreJoin(jp: JoinPayload, c: ConnId)
    | InRoom(i: nat, step: RoomRuns.Step)
    | StoreDelete(i: nat, d: Deletions.Deleter)  // last third of a deletion, after the room was marked

  /** A departure marks an unmarked room, so there is one at most. */
  const DEPARTURE := Deletions.Departure(0)

  function TimerOf(gracefully: bool): Deletions.Deleter {
    if gracefully then Deletions.GracefulTimer else Deletions.AbortTimer
  }

  /** The deleter, if any, that marks the room with this step. */
  function MarkedBy(p: RoomRuns.RoomRun, step: RoomRuns.Step): set<Deletions.Deleter>
    requires RoomRuns.Enabled(p, step)
  {
    match step
    case OnTimer(a) => if a.DeleteMark? then {TimerOf(a.gracefully)} else {}
    case _ => if !p.room.deleted && RoomRuns.Next(p, step).room.deleted then {DEPARTURE} else {}
  }

  function Stepped(entry: Entry, step: RoomRuns.Step): Entry
    requires RoomRuns.Enabled(entry.run, step)
  {
    entry.(run := RoomRuns.Next(entry.run, step), due := entry.due + MarkedBy(entry.run, step))
  }

  predicate Enabled(w: World, step: WorldStep) {
    match step
    case StoreJoin(jp, c) => forall i | 0 <= i < |w.rooms| :: c !in w.rooms[i].run.conns
    case InRoom(i, s) => i < |w.rooms| && !s.JoinUser? && RoomRuns.Enabled(w.rooms[i].run, s)
    case StoreDelete(i, d) => i < |w.rooms| && d in w.rooms[i].due
  }

  function Advanced(w: World, i: nat, step: RoomRuns.Step): World
    requires i < |w.rooms| && RoomRuns.Enabled(w.rooms[i].run, step)
  {
    w.(rooms := w.rooms[i := Stepped(w.rooms[i], step)])
  }

  function Created(w: World, jp: JoinPayload, c: ConnId): World {
    var id := Identity.GenerateId(jp);
    World(w.index[id := |w.rooms|], w.rooms + [Entry(id, RoomRuns.Initial(jp, c), {}, {})])
  }

  function Unbound(w: World, i: nat, d: Deletions.Deleter): World
    requires i < |w.rooms|
  {
    var entry := w.rooms[i];
    World(w.index - {entry.id}, w.rooms[i := entry.(due := entry.due - {d}, done := entry.done + {d})])
  }

  predicate Indexed(w: World, id: string) {
    id in w.index && w.index[id] < |w.rooms|
  }

  function Next(w: World, step: WorldStep): World
    requires Enabled(w, step)
  {
    match step
    case StoreJoin(jp, c) =>
      var id := Identity.GenerateId(jp);
      if Indexed(w, id) then Advanced(w, w.index[id], RoomRuns.JoinUser(jp.userId, c)) else Created(w, jp, c)
    case InRoom(i, s) => Advanced(w, i, s)
    case StoreDelete(i, d) => Unbound(w, i, d)
  }

  ghost predicate Legal(w: World, steps: seq<WorldStep>)
    decreases |steps|
  {
    steps == [] || (Enabled(w, steps[0]) && Legal(Next(w, steps[0]), steps[1..]))
  }

  ghost function Run(w: World, steps: seq<WorldStep>): World
    requires Legal(w, steps)
    decreases |steps|
  {
    if steps == [] then w else Run(Next(w, steps[0]), steps[1..])
  }

  const EMPTY := World(map[], [])

  /** Where the store leads, there is a room with that id. */
  ghost predicate IdsMatch(w: World) {
    forall id | id in w.index :: Indexed(w, id) && w.rooms[w.index[id]].id == id
  }

  lemma StepKeepsIds(w: World, step: WorldStep)
    requires IdsMatch(w) && Enabled(w, step)
    ensures IdsMatch(Next(w, step))
  {
    var next := Next(w, step);
    forall i | 0 <= i < |w.rooms| ensures next.rooms[i].id == w.rooms[i].id {}
  }

  lemma {:induction false} RunKeepsIds(w: World, steps: seq<WorldStep>)
    requires IdsMatch(w) && Legal(w, steps)
    ensures IdsMatch(Run(w, steps))
    decreases |steps|
  {
    if steps == [] {
    } else {
      StepKeepsIds(w, steps[0]);
      RunKeepsIds(Next(w, steps[0]), steps[1..]);
    }
  }

  /** An id can be used again once a deletion took it out: the next join creates a room, whatever the old one does. */
  lemma IdsAreReused(w: World, i: nat, d: Deletions.Deleter, jp: JoinPayload, c: ConnId)
    requires Enabled(w, StoreDelete(i, d)) && Identity.GenerateId(jp) == w.rooms[i].id
    requires Enabled(Next(w, StoreDelete(i, d)), StoreJoin(jp, c))
    ensures var after := Next(Next(w, StoreDelete(i, d)), StoreJoin(jp, c));
            && |after.rooms| == |w.rooms| + 1
            && w.rooms[i].id in after.index && after.index[w.rooms[i].id] == |w.rooms|
            && after.rooms[|w.rooms|].run == RoomRuns.Initial(jp, c)
  {
  }

  // Each room, on its own

  /** A join that is early in the room it leads to. */
  ghost predicate EarlyJoin(w: World, step: WorldStep) {
    step.StoreJoin? && Indexed(w, Identity.GenerateId(step.jp))
    && var room := w.rooms[w.index[Identity.GenerateId(step.jp)]];
       Connections.EarlyJoin(room.run, RoomRuns.JoinUser(step.jp.userId, step.c))
  }

  ghost predicate NoEarlyJoin(w: World, steps: seq<WorldStep>)
    requires Legal(w, steps)
    decreases |steps|
  {
    steps == [] || (!EarlyJoin(w, steps[0]) && NoEarlyJoin(Next(w, steps[0]), steps[1..]))
  }

  /** What the room has lived through is a run of a room on its own, without early joins if `onTime`. */
  ghost predicate Lived(entry: Entry, onTime: bool, jp: JoinPayload, c: ConnId, steps: seq<RoomRuns.Step>) {
    && entry.id == Identity.GenerateId(jp) && RoomGuarantees.Reachable(entry.run, jp, c, steps)
    && (onTime ==> Connections.NoEarlyJoin(RoomRuns.Initial(jp, c), steps))
  }

  ghost predicate HasLived(entry: Entry, onTime: bool) {
    exists jp, c, steps :: Lived(entry, onTime, jp, c, steps)
  }

  ghost predicate AllLived(w: World, onTime: bool) {
    forall i | 0 <= i < |w.rooms| :: HasLived(w.rooms[i], onTime)
  }

  lemma StepLives(entry: Entry, onTime: bool, step: RoomRuns.Step)
    requires HasLived(entry, onTime)
    requires RoomRuns.Enabled(entry.run, step) && (onTime ==> !Connections.EarlyJoin(entry.run, step))
    ensures HasLived(Stepped(entry, step), onTime)
  {
    var jp, c, steps :| Lived(entry, onTime, jp, c, steps);
    RoomGuarantees.RunSnoc(RoomRuns.Initial(jp, c), steps, step);
    if onTime {
      Connections.NoEarlyJoinSnoc(RoomRuns.Initial(jp, c), steps, step);
    }
    assert Lived(Stepped(entry, step), onTime, jp, c, steps + [step]);
  }

  lemma AdvanceKeepsLived(w: World, onTime: bool, i: nat, step: RoomRuns.Step)
    requires AllLived(w, onTime) && i < |w.rooms|
    requires RoomRuns.Enabled(w.rooms[i].run, step) && (onTime ==> !Connections.EarlyJoin(w.rooms[i].run, step))
    ensures AllLived(Advanced(w, i, step), onTime)
  {
    StepLives(w.rooms[i], onTime, step);
    var next := Advanced(w, i, step);
    forall j | 0 <= j < |w.rooms| && j != i ensures next.rooms[j] == w.rooms[j] {}
  }

  lemma CreateKeepsLived(w: World, onTime: bool, jp: JoinPayload, c: ConnId)
    requires AllLived(w, onTime)
    ensures AllLived(Created(w, jp, c), onTime)
  {
    var next := Created(w, jp, c);
    forall j | 0 <= j < |w.rooms| ensures next.rooms[j] == w.rooms[j] {}
    assert Lived(next.rooms[|w.rooms|], onTime, jp, c, []);
  }

  lemma SameLife(before: Entry, after: Entry, onTime: bool)
    requires HasLived(before, onTime) && after.id == before.id && after.run == before.run
    ensures HasLived(after, onTime)
  {
    var jp, c, steps :| Lived(before, onTime, jp, c, steps);
    assert Lived(after, onTime, jp, c, steps);
  }

  lemma UnboundKeepsLived(w: World, onTime: bool, i: nat, d: Deletions.Deleter)
    requires AllLived(w, onTime) && i < |w.rooms|
    ensures AllLived(Unbound(w, i, d), onTime)
  {
    var next := Unbound(w, i, d);
    forall j | 0 <= j < |w.rooms| ensures HasLived(next.rooms[j], onTime) {
      SameLife(w.rooms[j], next.rooms[j], onTime);
    }
  }

  lemma StepKeepsLived(w: World, onTime: bool, step: WorldStep)
    requires AllLived(w, onTime) && Enabled(w, step) && (onTime ==> !EarlyJoin(w, step))
    ensures AllLived(Next(w, step), onTime)
  {
    match step
    case StoreJoin(jp, c) =>
      var id := Identity.GenerateId(jp);
      if Indexed(w, id) {
        AdvanceKeepsLived(w, onTime, w.index[id], RoomRuns.JoinUser(jp.userId, c));
      } else {
        CreateKeepsLived(w, onTime, jp, c);
      }
    case InRoom(i, s) => AdvanceKeepsLived(w, onTime, i, s);
    case StoreDelete(i, d) => UnboundKeepsLived(w, onTime, i, d);
  }

  lemma {:induction false} RunKeepsLived(w: World, onTime: bool, steps: seq<WorldStep>)
    requires AllLived(w, onTime) && Legal(w, steps) && (onTime ==> NoEarlyJoin(w, steps))
    ensures AllLived(Run(w, steps), onTime)
    decreases |steps|
  {
    if steps == [] {
    } else {
      StepKeepsLived(w, onTime, steps[0]);
      RunKeepsLived(Next(w, steps[0]), onTime, steps[1..]);
    }
  }

  /**
   Rooms do not disturb each other: in every reachable state of the store, each room is in a reachable state of a room
   on its own, created by a join with its id. So everything that holds of one room holds of each under the store.
   */
  lemma EveryRoomIsReachable(w: World, steps: seq<WorldStep>, i: nat)
    returns (jp: JoinPayload, c: ConnId, trace: seq<RoomRuns.Step>)
    requires Legal(EMPTY, steps) && w == Run(EMPTY, steps) && i < |w.rooms|
    ensures w.rooms[i].id == Identity.GenerateId(jp) && RoomGuarantees.Reachable(w.rooms[i].run, jp, c, trace)
    ensures NoEarlyJoin(EMPTY, steps) ==> Connections.NoEarlyJoin(RoomRuns.Initial(jp, c), trace)
  {
    var onTime := NoEarlyJoin(EMPTY, steps);
    RunKeepsLived(EMPTY, onTime, steps);
    assert HasLived(w.rooms[i], onTime);
    jp, c, trace :| Lived(w.rooms[i], onTime, jp, c, trace);
  }

  lemma EveryRoomIsSound(w: World, steps: seq<WorldStep>, i: nat)
    requires Legal(EMPTY, steps) && w == Run(EMPTY, steps) && i < |w.rooms|
    ensures RoomRuns.Inv(w.rooms[i].run)
  {
    var jp, c, trace := EveryRoomIsReachable(w, steps, i);
    RoomGuarantees.ReachableInv(w.rooms[i].run, jp, c, trace);
  }

  /** Under any number of rooms and reused ids, without early joins no room ever repeats a connection number. */
  lemma NumbersAreDistinctEverywhere(w: World, steps: seq<WorldStep>, i: nat, c: ConnId, d: ConnId)
    requires Legal(EMPTY, steps) && w == Run(EMPTY, steps) && i < |w.rooms| && NoEarlyJoin(EMPTY, steps)
    ensures !Connections.Repeated(w.rooms[i].run, c, d)
  {
    var jp, c0, trace := EveryRoomIsReachable(w, steps, i);
    Connections.NumbersAreDistinct(w.rooms[i].run, jp, c0, trace, c, d);
  }

  // The object, and the rooms it leads to

  /** The rooms that the ids lead to are those of world `w`. */
  ghost predicate Represents(views: map<string, Room>, w: World) {
    && views.Keys == w.index.Keys
    && forall id | id in views :: Indexed(w, id) && views[id] == w.rooms[w.index[id]].run.room
  }

  function JoinedViews(views: map<string, Room>, jp: JoinPayload): map<string, Room> {
    var id := Identity.GenerateId(jp);
    views[id := if id in views then AfterJoin(views[id], jp.userId).0 else NewRoom(jp)]
  }

  predicate LeadsTo(w: World, i: nat) {
    i < |w.rooms| && w.rooms[i].id in w.index && w.index[w.rooms[i].id] == i
  }

  /** A step of a room shows under an id exactly if its id still leads to it. */
  lemma AdvanceRepresents(views: map<string, Room>, w: World, i: nat, step: RoomRuns.Step)
    requires IdsMatch(w) && Represents(views, w) && i < |w.rooms| && RoomRuns.Enabled(w.rooms[i].run, step)
    ensures var next := Advanced(w, i, step);
            Represents(if LeadsTo(w, i) then views[w.rooms[i].id := next.rooms[i].run.room] else views, next)
  {
  }

  lemma CreateRepresents(views: map<string, Room>, w: World, jp: JoinPayload, c: ConnId)
    requires IdsMatch(w) && Represents(views, w) && Identity.GenerateId(jp) !in views
    ensures Represents(views[Identity.GenerateId(jp) := NewRoom(jp)], Created(w, jp, c))
  {
    var next := Created(w, jp, c);
    forall other | other in views
      ensures Indexed(next, other) && next.rooms[next.index[other]] == w.rooms[w.index[other]]
    {}
  }

  /** What the methods below do to the object's rooms is what the steps of a world do to its own. */
  lemma JoinRepresents(views: map<string, Room>, w: World, jp: JoinPayload, c: ConnId)
    requires IdsMatch(w) && Represents(views, w) && Enabled(w, StoreJoin(jp, c))
    ensures Represents(JoinedViews(views, jp), Next(w, StoreJoin(jp, c)))
  {
    var id := Identity.GenerateId(jp);
    if id in views {
      AdvanceRepresents(views, w, w.index[id], RoomRuns.JoinUser(jp.userId, c));
      var run := w.rooms[w.index[id]].run;
      assert RoomRuns.AfterJoinUser(run, jp.userId, c).room == AfterJoin(views[id], jp.userId).0 by {
        JoinDecision(views[id], jp.userId);
      }
    } else {
      CreateRepresents(views, w, jp, c);
    }
  }

  lemma DeleteRepresents(views: map<string, Room>, w: World, i: nat, d: Deletions.Deleter)
    requires IdsMatch(w) && Represents(views, w) && Enabled(w, StoreDelete(i, d))
    ensures Represents(views - {w.rooms[i].id}, Next(w, StoreDelete(i, d)))
  {
  }

  class InteractionStore {
    var index: map<string, Interaction>

    constructor ()
      ensures index == map[] && Views() == map[]
    {
      index := map[];
    }

    /** Each room is indexed under its own id. */
    ghost predicate Valid()
      reads this
    {
      forall id | id in index :: index[id].id == id
    }

    ghost function Views(): map<string, Room>
      reads this, index.Values
    {
      map id | id in index :: index[id].View()
    }

    method Join(jp: JoinPayload) returns (i: Interaction, result: JoinResult)
      requires Valid()
      modifies this, index.Values
      ensures Valid() && Views() == JoinedViews(old(Views()), jp)
      ensures Identity.GenerateId(jp) in index && index[Identity.GenerateId(jp)] == i
      ensures Identity.GenerateId(jp) in old(index) ==>
        index == old(index) && result == AfterJoin(old(index[Identity.GenerateId(jp)].View()), jp.userId).1
      ensures Identity.GenerateId(jp) !in old(index) ==> fresh(i) && result == NewInteraction
      ensures forall other | other in old(index.Values) && other != i :: unchanged(other)
    {
      var interactionId := Identity.GenerateId(jp);
      if interactionId in index {
        i := index[interactionId];
        result := i.Join(jp.userId);
      } else {
        i := new Interaction(interactionId, jp);
        index := index[interactionId := i];
        result := NewInteraction;
      }
      assert Views() == JoinedViews(old(Views()), jp);
    }

    /** Removes whatever room the id leads to: that is this room's own binding only if it is still the indexed one. */
    method Delete(i: Interaction)
      requires Valid()
      modifies this
      ensures Valid() && index == old(index) - {i.id} && Views() == old(Views()) - {i.id}
    {
      index := index - {i.id};
      assert Views() == old(Views()) - {i.id};
    }
  }
}
