/**
 One interaction (room) of sfu/interaction.go. Each function below is one region held under the room's lock; the class
 at the end is the mutable object, proved against them.
 */
module Rooms {
  import opened Common

  const DEFAULT_SIZE := 2
  const MAX_SIZE := 8
  const DEFAULT_DURATION := 30
  const MAX_DURATION := 1200

  type ConnId = nat

  datatype JoinPayload = JoinPayload(
    origin: string, namespace: string, interactionName: string, userId: UserId,
    videoFormat: string, recordingMode: string, width: int, height: int, framerate: int,
    size: int, duration: int, audioOnly: bool)

  datatype JoinResult = NewInteraction | ExistingInteraction | Reconnection | Duplicate | Full {
    predicate Refused() {
      Duplicate? || Full?
    }
  }

  /** The abort timer: it can no longer be stopped once it has fired. */
  datatype Timer = Armed | Fired | Stopped

  datatype Room = Room(
    size: nat,
    neededTracks: nat,
    duration: int,
    connected: map<UserId, bool>,     // absent: never joined; false: joined and left
    joinedCount: map<UserId, nat>,
    peers: map<UserId, ConnId>,       // the connection that serves each user
    ready: bool,
    started: bool,
    deleted: bool,
    pipelineStarts: nat,
    inTracks: nat,
    outTracks: int,
    abortTimer: Timer,
    readyCloses: nat,                 // how often each channel was closed; closing twice would panic
    startedCloses: nat,
    abortedCloses: nat,
    doneCloses: nat)

  function RoomSize(requested: int): nat {
    if requested < 1 then DEFAULT_SIZE else if requested > MAX_SIZE then MAX_SIZE else requested
  }

  function RoomDuration(requested: int): int {
    if requested < 1 then DEFAULT_DURATION else if requested > MAX_DURATION then MAX_DURATION else requested
  }

  function NewRoom(jp: JoinPayload): Room {
    var size := RoomSize(jp.size);
    Room(size, if jp.audioOnly then size else 2 * size, RoomDuration(jp.duration),
         map[jp.userId := true], map[jp.userId := 1], map[],
         false, false, false, 0, 0, 0, Armed, 0, 0, 0, 0)
  }

  function ConnectedUsers(r: Room): set<UserId> {
    set u | u in r.connected && r.connected[u]
  }

  function AfterJoin(r: Room, u: UserId): (Room, JoinResult) {
    if u in r.connected then
      if r.connected[u] then (r, Duplicate)
      else
        var count := if u in r.joinedCount then r.joinedCount[u] else 0;
        (r.(connected := r.connected[u := true], joinedCount := r.joinedCount[u := count + 1]), Reconnection)
    else if |r.connected| == r.size then (r, Full)
    else (r.(connected := r.connected[u := true], joinedCount := r.joinedCount[u := 1]), ExistingInteraction)
  }

  function JoinedCount(r: Room, u: UserId): nat {
    if u in r.joinedCount then r.joinedCount[u] else 0
  }

  function ConnectPeer(r: Room, u: UserId, c: ConnId): Room {
    r.(peers := r.peers[u := c])
  }

  function IsConnected(r: Room, u: UserId): bool {
    u in r.connected && r.connected[u]
  }

  function StopTimer(t: Timer): Timer {
    if t == Armed then Stopped else t
  }

  /** Any close of any connection of `u` ends here; only the first since the last join has an effect. */
  function AfterDisconnect(r: Room, u: UserId): Room {
    if IsConnected(r, u) then
      var left := r.(peers := r.peers - {u}, connected := r.connected[u := false]);
      if ConnectedUsers(left) == {} && !left.ready && !left.deleted then
        left.(abortTimer := StopTimer(left.abortTimer), deleted := true)
      else left
    else r
  }

  function StartRoom(r: Room): Room {
    var counted := r.(pipelineStarts := r.pipelineStarts + 1);
    if !counted.started && (counted.size == 1 || counted.pipelineStarts > 1) then
      counted.(started := true, startedCloses := counted.startedCloses + 1)
    else counted
  }

  /** First critical section of the in-track count. */
  function AlreadyReady(r: Room): bool {
    r.inTracks == r.neededTracks
  }

  /** Second critical section of the in-track count. */
  function CountInTrack(r: Room): Room {
    var counted := r.(inTracks := r.inTracks + 1);
    if counted.inTracks == counted.neededTracks then
      counted.(ready := true, abortTimer := StopTimer(counted.abortTimer), readyCloses := counted.readyCloses + 1)
    else counted
  }

  /** Also tells whether a signaling pass is needed. */
  function IncOutTracks(r: Room): (Room, bool) {
    var counted := r.(outTracks := r.outTracks + 1);
    (counted, counted.outTracks == counted.neededTracks || (counted.ready && counted.outTracks % 2 == 0))
  }

  function DecOutTracks(r: Room): Room {
    r.(outTracks := r.outTracks - 1)
  }

  function CloseAborted(r: Room): Room {
    r.(abortedCloses := r.abortedCloses + 1)
  }

  function CloseDone(r: Room): Room {
    r.(doneCloses := r.doneCloses + 1)
  }

  function Delete(r: Room): Room {
    r.(deleted := true)
  }

  // What joins and disconnections keep

  /** Who was ever admitted; no more than there are seats. */
  ghost predicate SeatsKept(r: Room) {
    && 1 <= r.size <= MAX_SIZE
    && |r.connected| <= r.size
    && r.connected.Keys == r.joinedCount.Keys
  }

  lemma NewRoomKeepsSeats(jp: JoinPayload)
    ensures SeatsKept(NewRoom(jp)) && NewRoom(jp).size <= NewRoom(jp).neededTracks <= 2 * NewRoom(jp).size
    ensures NewRoom(jp).size == jp.size <==> 1 <= jp.size <= MAX_SIZE
    ensures (jp.size < 1 ==> NewRoom(jp).size == 2) && (jp.size > 8 ==> NewRoom(jp).size == 8)
    ensures NewRoom(jp).duration == jp.duration <==> 1 <= jp.duration <= MAX_DURATION
    ensures (jp.duration < 1 ==> NewRoom(jp).duration == 30) && (jp.duration > 1200 ==> NewRoom(jp).duration == 1200)
    ensures NewRoom(jp).neededTracks == NewRoom(jp).size <==> jp.audioOnly
    ensures NewRoom(jp).neededTracks == 2 * NewRoom(jp).size <==> !jp.audioOnly
    ensures ConnectedUsers(NewRoom(jp)) == {jp.userId} && JoinedCount(NewRoom(jp), jp.userId) == 1
  {
    var r := NewRoom(jp);
    assert r.connected.Keys == {jp.userId};
  }

  /**
   A newcomer is refused only when all seats are taken; someone already admitted never is, unless still connected. Who
   is accepted is told which of the two she is.
   */
  lemma JoinDecision(r: Room, u: UserId)
    ensures var (after, result) := AfterJoin(r, u);
            && (result == Full <==> u !in r.connected && |r.connected| == r.size)
            && (result == Duplicate <==> u in ConnectedUsers(r))
            && (result == Reconnection <==> u in r.connected && u !in ConnectedUsers(r))
            && (result == ExistingInteraction <==> u !in r.connected && |r.connected| != r.size)
            && (result.Refused() ==> after == r)
            && (!result.Refused() ==> ConnectedUsers(after) == ConnectedUsers(r) + {u})
  {
    var (after, result) := AfterJoin(r, u);
    assert u in ConnectedUsers(r) <==> IsConnected(r, u);
    if !result.Refused() {
      forall v ensures v in ConnectedUsers(after) <==> v in ConnectedUsers(r) + {u} {}
    }
  }

  lemma JoinKeepsSeats(r: Room, u: UserId)
    requires SeatsKept(r)
    ensures SeatsKept(AfterJoin(r, u).0)
    ensures !AfterJoin(r, u).1.Refused() ==> AfterJoin(r, u).0.connected.Keys == r.connected.Keys + {u}
  {
    var (after, result) := AfterJoin(r, u);
    if !result.Refused() {
      assert after == r.(connected := r.connected[u := true], joinedCount := r.joinedCount[u := after.joinedCount[u]]);
      SeatTaken(r, u, after.joinedCount[u]);
    }
  }

  lemma SeatTaken(r: Room, u: UserId, count: nat)
    requires SeatsKept(r) && (u in r.connected || |r.connected| < r.size)
    ensures SeatsKept(r.(connected := r.connected[u := true], joinedCount := r.joinedCount[u := count]))
    ensures r.connected[u := true].Keys == r.connected.Keys + {u}
  {
    AddKey(r.connected, u, true);
    AddKey(r.joinedCount, u, count);
  }

  /** A join counts once for the user who joined, and touches nobody else. */
  lemma JoinIsLocal(r: Room, u: UserId, v: UserId)
    requires r.connected.Keys == r.joinedCount.Keys
    ensures var (after, result) := AfterJoin(r, u);
            && JoinedCount(after, v) == JoinedCount(r, v) + (if v == u && !result.Refused() then 1 else 0)
            && IsConnected(after, v) == (IsConnected(r, v) || (v == u && !result.Refused()))
  {
  }

  /** A disconnection takes out one connected user, or nothing; the last one out of a room not ready deletes it. */
  lemma DisconnectDecision(r: Room, u: UserId)
    ensures var after := AfterDisconnect(r, u);
            && ConnectedUsers(after) == ConnectedUsers(r) - {u}
            && (IsConnected(r, u) ==>
                  after.connected.Keys == r.connected.Keys && after.peers.Keys == r.peers.Keys - {u})
            && (!IsConnected(r, u) ==> after == r)
            && after.joinedCount == r.joinedCount
            && (after.deleted <==> r.deleted || (ConnectedUsers(r) == {u} && !r.ready))
            && (after.deleted && !r.deleted ==> after.abortTimer != Armed)
            && (after.deleted == r.deleted ==> after.abortTimer == r.abortTimer)
            && (r.abortTimer != Armed ==> after.abortTimer == r.abortTimer)
            && after.ready == r.ready
  {
    if IsConnected(r, u) {
      var left := r.(peers := r.peers - {u}, connected := r.connected[u := false]);
      assert left.connected.Keys == r.connected.Keys;
      assert ConnectedUsers(left) == ConnectedUsers(r) - {u};
      assert u in ConnectedUsers(r);
      assert ConnectedUsers(left) == {} <==> ConnectedUsers(r) == {u};
    } else {
      assert u !in ConnectedUsers(r);
    }
  }

  lemma DisconnectIsLocal(r: Room, u: UserId, v: UserId)
    ensures IsConnected(AfterDisconnect(r, u), v) == (IsConnected(r, v) && v != u)
    ensures JoinedCount(AfterDisconnect(r, u), v) == JoinedCount(r, v)
  {
  }

  // The object

  class Interaction {
    const id: string
    const size: nat
    const neededTracks: nat
    const duration: int
    var connectedIndex: map<UserId, bool>
    var joinedCountIndex: map<UserId, nat>
    var peerServerIndex: map<UserId, ConnId>
    var ready: bool
    var started: bool
    var deleted: bool
    var pipelineStartCount: nat
    var inTracksReadyCount: nat
    var outTracksReadyCount: int
    var abortTimer: Timer
    ghost var readyCloses: nat
    ghost var startedCloses: nat
    ghost var abortedCloses: nat
    ghost var doneCloses: nat

    ghost function View(): Room
      reads this
    {
      Room(size, neededTracks, duration, connectedIndex, joinedCountIndex, peerServerIndex, ready, started, deleted,
           pipelineStartCount, inTracksReadyCount, outTracksReadyCount, abortTimer,
           readyCloses, startedCloses, abortedCloses, doneCloses)
    }

    constructor (id: string, jp: JoinPayload)
      ensures this.id == id && View() == NewRoom(jp)
    {
      var durationInSeconds := jp.duration;
      if durationInSeconds < 1 {
        durationInSeconds := DEFAULT_DURATION;
      } else if durationInSeconds > MAX_DURATION {
        durationInSeconds := MAX_DURATION;
      }
      var size := jp.size;
      if size < 1 {
        size := DEFAULT_SIZE;
      } else if size > MAX_SIZE {
        size := MAX_SIZE;
      }
      var needed := size * 2;
      if jp.audioOnly {
        needed := size;
      }
      this.id, this.size, neededTracks, duration := id, size, needed, durationInSeconds;
      connectedIndex, joinedCountIndex, peerServerIndex := map[jp.userId := true], map[jp.userId := 1], map[];
      ready, started, deleted := false, false, false;
      pipelineStartCount, inTracksReadyCount, outTracksReadyCount, abortTimer := 0, 0, 0, Armed;
      readyCloses, startedCloses, abortedCloses, doneCloses := 0, 0, 0, 0;
    }

    method Join(userId: UserId) returns (result: JoinResult)
      modifies this`connectedIndex, this`joinedCountIndex
      ensures (View(), result) == AfterJoin(old(View()), userId)
    {
      if userId in connectedIndex {
        if connectedIndex[userId] {
          return Duplicate;
        }
        connectedIndex := connectedIndex[userId := true];
        var count := if userId in joinedCountIndex then joinedCountIndex[userId] else 0;
        joinedCountIndex := joinedCountIndex[userId := count + 1];
        return Reconnection;
      } else if |connectedIndex| == size {
        return Full;
      }
      connectedIndex := connectedIndex[userId := true];
      joinedCountIndex := joinedCountIndex[userId := 1];
      return ExistingInteraction;
    }

    /** Counts the users marked connected. */
    method UnguardedConnectedUserCount() returns (count: nat)
      ensures count == |ConnectedUsers(View())|
    {
      count := 0;
      var remaining := connectedIndex.Keys;
      while remaining != {}
        invariant remaining <= connectedIndex.Keys
        invariant count == |ConnectedUsers(View()) - remaining|
        decreases remaining
      {
        var u :| u in remaining;
        var rest := remaining - {u};
        assert ConnectedUsers(View()) - rest
            == (ConnectedUsers(View()) - remaining) + if connectedIndex[u] then {u} else {};
        if connectedIndex[u] {
          count := count + 1;
        }
        remaining := rest;
      }
      assert ConnectedUsers(View()) - {} == ConnectedUsers(View());
    }

    method AllUsersConnected() returns (all: bool)
      ensures all == (|ConnectedUsers(View())| == size)
    {
      var count := UnguardedConnectedUserCount();
      all := count == size;
    }

    method ConnectPeerServer(userId: UserId, conn: ConnId)
      modifies this`peerServerIndex
      ensures View() == ConnectPeer(old(View()), userId, conn)
    {
      peerServerIndex := peerServerIndex[userId := conn];
    }

    /**
     Tells whether this call marked the room deleted, and so must take it out of the store, and whether it asked for a
     pass: only if the room was deleted before, so the pass will do nothing.
     */
    method DisconnectUser(userId: UserId) returns (toDelete: bool, passRequested: bool)
      modifies this`peerServerIndex, this`connectedIndex, this`abortTimer, this`deleted
      ensures View() == AfterDisconnect(old(View()), userId)
      ensures toDelete == (deleted && !old(deleted))
      ensures passRequested == (old(IsConnected(View(), userId)) && old(deleted))
    {
      toDelete, passRequested := false, false;
      if userId in connectedIndex && connectedIndex[userId] {
        peerServerIndex := peerServerIndex - {userId};
        connectedIndex := connectedIndex[userId := false];
        passRequested := deleted;
        var count := UnguardedConnectedUserCount();
        if count == 0 && !ready && !deleted {
          abortTimer := StopTimer(abortTimer);
          toDelete := UnguardedDelete();
        }
      }
    }

    /** First half of a deletion. A departure does both under the lock, the timers hold none. */
    method DeleteCheck() returns (pass: bool)
      ensures pass == !View().deleted
    {
      pass := !deleted;
    }

    /** Second half, after which the room is to be taken out of the store. */
    method DeleteMark()
      modifies this`deleted
      ensures View() == Delete(old(View()))
    {
      deleted := true;
    }

    method UnguardedDelete() returns (first: bool)
      modifies this`deleted
      ensures View() == Delete(old(View())) && first == !old(deleted)
    {
      first := DeleteCheck();
      if first {
        DeleteMark();
      }
    }

    method Start()
      modifies this`pipelineStartCount, this`started, this`startedCloses
      ensures View() == StartRoom(old(View()))
    {
      pipelineStartCount := pipelineStartCount + 1;
      if !started && (size == 1 || pipelineStartCount > 1) {
        started := true;
        startedCloses := startedCloses + 1;
      }
    }

    method IsAlreadyReady() returns (already: bool)
      ensures already == AlreadyReady(View())
    {
      already := inTracksReadyCount == neededTracks;
    }

    method IncInTracksReadyCount()
      modifies this`inTracksReadyCount, this`ready, this`abortTimer, this`readyCloses
      ensures View() == CountInTrack(old(View()))
    {
      inTracksReadyCount := inTracksReadyCount + 1;
      var isReadyNow := inTracksReadyCount == neededTracks;
      if isReadyNow {
        ready := true;
        abortTimer := StopTimer(abortTimer);
        readyCloses := readyCloses + 1;
      }
    }

    method IncOutTracksReadyCount() returns (signalingNeeded: bool)
      modifies this`outTracksReadyCount
      ensures (View(), signalingNeeded) == IncOutTracks(old(View()))
    {
      outTracksReadyCount := outTracksReadyCount + 1;
      if outTracksReadyCount == neededTracks {
        return true;
      }
      if ready && outTracksReadyCount % 2 == 0 {
        return true;
      }
      return false;
    }

    /** What the abort goroutine decides under the lock, once its timer fired. */
    method AbortCheck() returns (aborting: bool)
      ensures aborting == !View().ready
    {
      aborting := !ready;
    }

    /** What it does after that, without the lock. */
    method AbortClose()
      modifies this`abortedCloses
      ensures View() == CloseAborted(old(View()))
    {
      abortedCloses := abortedCloses + 1;
    }

    /** What the graceful countdown does once the duration is over. */
    method End()
      modifies this`doneCloses
      ensures View() == CloseDone(old(View()))
    {
      doneCloses := doneCloses + 1;
    }

    /** Either way of stopping ends readiness, before the delayed deletion. */
    method ClearReady()
      modifies this`ready
      ensures View() == old(View()).(ready := false)
    {
      ready := false;
    }

    method DecOutTracksReadyCount()
      modifies this`outTracksReadyCount
      ensures View() == DecOutTracks(old(View()))
    {
      outTracksReadyCount := outTracksReadyCount - 1;
    }
  }
}
