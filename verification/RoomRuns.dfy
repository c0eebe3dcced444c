/**
 Every run of one interaction: connections, one goroutine per incoming track, and the two timer goroutines, interleaved
 at the granularity of the room's lock (sfu/interaction.go).
 */
module RoomRuns {
  import opened Common
  import opened Rooms

  type SliceId = TrackId

  /** Where the goroutine of an incoming track stands (runMixerSliceFromRemote). */
  datatype SlicePc =
    | Arrived     // before the first critical section of the in-track count
    | Counting    // between the two
    | Counted     // the slice is not built yet
    | Waiting     // indexed, for everyone to be ready
    | Released    // ready, not counted as an out track yet
    | Looping     // counted, waiting for its pipeline to start
    | Streaming
    | Stopping    // the loop has ended
    | Unindexed
    | Ended

  datatype Slice = Slice(user: UserId, pc: SlicePc)

  /** A connection number: not read yet, read, or never to be read, as the peer connection could not be created. */
  datatype Number = Pending | Read(value: nat) | Abandoned

  /** A websocket connection of a user. `ordinal` is history: it is the user's ordinal-th successful join. */
  datatype Conn = Conn(user: UserId, ordinal: nat, number: Number, connected: bool)

  /** Where a timer's goroutine stands. `Passed`: it found the room not deleted and is about to mark it. */
  datatype StopPc = Idle | Sleeping | Skipped | Aborting | Closed | Cleared | Passed | Finished

  datatype RoomRun = RoomRun(
    room: Room,
    perUser: nat,                  // tracks expected of each user
    conns: map<ConnId, Conn>,
    slices: map<SliceId, Slice>,
    index: set<SliceId>,           // the mixer's slice index
    abort: StopPc,
    graceful: StopPc,
    // history
    joins: map<UserId, nat>,       // successful joins
    leaves: map<UserId, nat>,      // effective disconnections
    delivered: set<SliceId>,       // tracks counted until readiness
    requests: nat)                 // signaling passes requested

  datatype ConnAct = ReadNumber | Abandon | Connect | Close

  datatype SliceAct =
    | CheckReady
    | CountIn
    | Build(ok: bool)
    | Release
    | GiveUp
    | CountOut
    | PipelineUp
    | EndLoop
    | Unindex
    | UncountOut

  datatype TimerAct =
    | AbortFires
    | AbortCheck  // under the lock; the close that may follow is not
    | AbortClose
    | GracefulFires
    | ClearReady(gracefully: bool)
    | DeleteCheck(gracefully: bool)  // neither is under the lock
    | DeleteMark(gracefully: bool)

  datatype Step =
    | JoinUser(u: UserId, c: ConnId)
    | OnConn(c: ConnId, connAct: ConnAct)
    | Arrive(s: SliceId, c: ConnId)
    | OnSlice(s: SliceId, sliceAct: SliceAct)
    | OnTimer(timerAct: TimerAct)

  function Count(m: map<UserId, nat>, u: UserId): nat {
    if u in m then m[u] else 0
  }

  function Owners(p: RoomRun): map<SliceId, UserId> {
    map s | s in p.slices :: p.slices[s].user
  }

  function Initial(jp: JoinPayload, c: ConnId): RoomRun {
    RoomRun(NewRoom(jp), if jp.audioOnly then 1 else 2, map[c := Conn(jp.userId, 1, Pending, false)], map[], {},
            Sleeping, Idle, map[jp.userId := 1], map[], {}, 0)
  }

  // The goroutine of a track

  function From(a: SliceAct): SlicePc {
    match a
    case CheckReady => Arrived
    case CountIn => Counting
    case Build(ok) => Counted
    case Release => Waiting
    case GiveUp => Waiting
    case CountOut => Released
    case PipelineUp => Looping
    case EndLoop => Streaming
    case Unindex => Stopping
    case UncountOut => Unindexed
  }

  function To(a: SliceAct, room: Room): SlicePc {
    match a
    case CheckReady => if AlreadyReady(room) then Counted else Counting
    case CountIn => Counted
    case Build(ok) => if ok then Waiting else Ended
    case Release => Released
    case GiveUp => Ended
    case CountOut => Looping
    case PipelineUp => Streaming
    case EndLoop => Stopping
    case Unindex => Unindexed
    case UncountOut => Ended
  }

  function RoomAfter(a: SliceAct, room: Room): Room {
    match a
    case CountIn => CountInTrack(room)
    case CountOut => IncOutTracks(room).0
    case PipelineUp => StartRoom(room)
    case UncountOut => DecOutTracks(room)
    case _ => room
  }

  function IndexAfter(a: SliceAct, index: set<SliceId>, s: SliceId): set<SliceId> {
    match a
    case Build(ok) => if ok then index + {s} else index
    case Unindex => index - {s}
    case _ => index
  }

  function DeliveredAfter(a: SliceAct, p: RoomRun, s: SliceId): set<SliceId> {
    if a == CountIn && p.room.inTracks < p.room.neededTracks then p.delivered + {s} else p.delivered
  }

  predicate Requests(a: SliceAct, room: Room) {
    a == CountOut && IncOutTracks(room).1
  }

  predicate SliceEnabled(p: RoomRun, s: SliceId, a: SliceAct) {
    && s in p.slices && p.slices[s].pc == From(a)
    && (a == Release ==> p.room.readyCloses > 0)
    && (a == GiveUp ==> p.room.abortedCloses > 0)
  }

  function AfterSlice(p: RoomRun, s: SliceId, a: SliceAct): RoomRun
    requires s in p.slices
  {
    p.(room := RoomAfter(a, p.room),
       slices := p.slices[s := Slice(p.slices[s].user, To(a, p.room))],
       index := IndexAfter(a, p.index, s),
       graceful := if RoomAfter(a, p.room).started && !p.room.started then Sleeping else p.graceful,
       delivered := DeliveredAfter(a, p, s),
       requests := p.requests + if Requests(a, p.room) then 1 else 0)
  }

  // Connections

  function AfterJoinUser(p: RoomRun, u: UserId, c: ConnId): RoomRun {
    var (room, result) := AfterJoin(p.room, u);
    if result.Refused() then p
    else
      var n := Count(p.joins, u) + 1;
      p.(room := room, joins := p.joins[u := n], conns := p.conns[c := Conn(u, n, Pending, false)])
  }

  predicate ConnEnabled(p: RoomRun, c: ConnId, a: ConnAct) {
    && c in p.conns
    && match a
       case ReadNumber => p.conns[c].number == Pending
       case Abandon => p.conns[c].number == Pending
       case Connect => p.conns[c].number.Read? && !p.conns[c].connected
       case Close => p.conns[c].connected
  }

  function AfterConn(p: RoomRun, c: ConnId, a: ConnAct): RoomRun
    requires c in p.conns
  {
    var u := p.conns[c].user;
    match a
    case ReadNumber => p.(conns := p.conns[c := p.conns[c].(number := Read(JoinedCount(p.room, u)))])
    case Abandon => p.(conns := p.conns[c := p.conns[c].(number := Abandoned)])
    case Connect => p.(room := ConnectPeer(p.room, u, c), conns := p.conns[c := p.conns[c].(connected := true)])
    case Close =>
      p.(room := AfterDisconnect(p.room, u),
         leaves := if IsConnected(p.room, u) then p.leaves[u := Count(p.leaves, u) + 1] else p.leaves)
  }

  // Timers

  predicate TimerEnabled(p: RoomRun, a: TimerAct) {
    match a
    case AbortFires => p.room.abortTimer == Armed
    case AbortCheck => p.abort == Sleeping && p.room.abortTimer == Fired
    case AbortClose => p.abort == Aborting
    case GracefulFires => p.graceful == Sleeping
    case ClearReady(gracefully) => (if gracefully then p.graceful else p.abort) == Closed
    case DeleteCheck(gracefully) => (if gracefully then p.graceful else p.abort) == Cleared
    case DeleteMark(gracefully) => (if gracefully then p.graceful else p.abort) == Passed
  }

  function TimerRoom(a: TimerAct, r: Room): Room {
    match a
    case AbortFires => r.(abortTimer := Fired)
    case AbortCheck => r
    case AbortClose => CloseAborted(r)
    case GracefulFires => CloseDone(r)
    case ClearReady(gracefully) => r.(ready := false)
    case DeleteCheck(gracefully) => r
    case DeleteMark(gracefully) => Delete(r)
  }

  /** After the check of a room's mark. */
  function Checked(deleted: bool): StopPc {
    if deleted then Finished else Passed
  }

  function TimerAbort(a: TimerAct, abort: StopPc, r: Room): StopPc {
    match a
    case AbortCheck => if r.ready then Skipped else Aborting
    case AbortClose => Closed
    case ClearReady(gracefully) => if gracefully then abort else Cleared
    case DeleteCheck(gracefully) => if gracefully then abort else Checked(r.deleted)
    case DeleteMark(gracefully) => if gracefully then abort else Finished
    case _ => abort
  }

  function TimerGraceful(a: TimerAct, graceful: StopPc, r: Room): StopPc {
    match a
    case GracefulFires => Closed
    case ClearReady(gracefully) => if gracefully then Cleared else graceful
    case DeleteCheck(gracefully) => if gracefully then Checked(r.deleted) else graceful
    case DeleteMark(gracefully) => if gracefully then Finished else graceful
    case _ => graceful
  }

  function AfterTimer(p: RoomRun, a: TimerAct): RoomRun {
    p.(room := TimerRoom(a, p.room),
       abort := TimerAbort(a, p.abort, p.room),
       graceful := TimerGraceful(a, p.graceful, p.room))
  }

  // Runs

  predicate Enabled(p: RoomRun, step: Step) {
    match step
    case JoinUser(u, c) => c !in p.conns
    case OnConn(c, a) => ConnEnabled(p, c, a)
    case Arrive(s, c) => s !in p.slices && c in p.conns && p.conns[c].connected
    case OnSlice(s, a) => SliceEnabled(p, s, a)
    case OnTimer(a) => TimerEnabled(p, a)
  }

  function Next(p: RoomRun, step: Step): RoomRun
    requires Enabled(p, step)
  {
    match step
    case JoinUser(u, c) => AfterJoinUser(p, u, c)
    case OnConn(c, a) => AfterConn(p, c, a)
    case Arrive(s, c) => p.(slices := p.slices[s := Slice(p.conns[c].user, Arrived)])
    case OnSlice(s, a) => AfterSlice(p, s, a)
    case OnTimer(a) => AfterTimer(p, a)
  }

  ghost predicate Legal(p: RoomRun, steps: seq<Step>)
    decreases |steps|
  {
    steps == [] || (Enabled(p, steps[0]) && Legal(Next(p, steps[0]), steps[1..]))
  }

  ghost function Run(p: RoomRun, steps: seq<Step>): RoomRun
    requires Legal(p, steps)
    decreases |steps|
  {
    if steps == [] then p else Run(Next(p, steps[0]), steps[1..])
  }

  // What the other goroutines leave to those of the tracks, and the timers to those of the connections

  predicate SameTracks(p: RoomRun, q: RoomRun) {
    && q.slices == p.slices && q.index == p.index && q.delivered == p.delivered && q.perUser == p.perUser
    && q.room.inTracks == p.room.inTracks && q.room.outTracks == p.room.outTracks
    && q.room.neededTracks == p.room.neededTracks && q.room.size == p.room.size
  }

  predicate SameChannels(r: Room, t: Room) {
    && t.readyCloses == r.readyCloses && t.startedCloses == r.startedCloses
    && t.abortedCloses == r.abortedCloses && t.doneCloses == r.doneCloses
    && t.started == r.started && t.ready == r.ready
    && t.inTracks == r.inTracks && t.neededTracks == r.neededTracks
    && t.pipelineStarts == r.pipelineStarts && t.size == r.size
    && (t.abortTimer == r.abortTimer || t.abortTimer == StopTimer(r.abortTimer))
  }

  predicate SameUsers(p: RoomRun, q: RoomRun) {
    && q.conns == p.conns && q.joins == p.joins && q.leaves == p.leaves
    && q.room.connected == p.room.connected && q.room.joinedCount == p.room.joinedCount
    && q.room.peers == p.room.peers && q.room.size == p.room.size
  }

  lemma JoinFrame(p: RoomRun, u: UserId, c: ConnId)
    ensures var q := AfterJoinUser(p, u, c);
            SameTracks(p, q) && SameChannels(p.room, q.room) && q.abort == p.abort && q.graceful == p.graceful
  {
  }

  lemma ConnFrame(p: RoomRun, c: ConnId, a: ConnAct)
    requires c in p.conns
    ensures var q := AfterConn(p, c, a);
            SameTracks(p, q) && SameChannels(p.room, q.room) && q.abort == p.abort && q.graceful == p.graceful
  {
  }

  lemma TimerFrame(p: RoomRun, a: TimerAct)
    ensures SameTracks(p, AfterTimer(p, a)) && SameUsers(p, AfterTimer(p, a))
  {
  }

  lemma SliceFrame(p: RoomRun, s: SliceId, a: SliceAct)
    requires s in p.slices
    ensures SameUsers(p, AfterSlice(p, s, a))
  {
  }

  // Lifecycle

  predicate HasClosed(pc: StopPc) {
    pc == Closed || pc == Cleared || pc == Passed || pc == Finished
  }

  predicate PastReady(pc: SlicePc) {
    pc == Released || pc == Looping || pc == Streaming || pc == Stopping || pc == Unindexed
  }

  /** Each channel is closed at most once, and none before the one it depends on. */
  predicate Channels(r: Room, abort: StopPc, graceful: StopPc) {
    && 0 < r.neededTracks
    && r.readyCloses == (if r.inTracks >= r.neededTracks then 1 else 0)
    && r.startedCloses == (if r.started then 1 else 0)
    && (r.started ==> r.readyCloses == 1)
    && r.abortedCloses == (if HasClosed(abort) then 1 else 0)
    && r.doneCloses == (if HasClosed(graceful) then 1 else 0)
    && (graceful != Idle <==> r.started)
    && (r.started <==> r.pipelineStarts > (if r.size == 1 then 0 else 1))
  }

  /** The abort goroutine acts only after its timer fired, and readiness leaves no timer armed. */
  predicate Timers(r: Room, abort: StopPc) {
    && (r.abortTimer != Fired ==> abort == Sleeping)
    && (r.readyCloses > 0 ==> r.abortTimer != Armed)
  }

  ghost predicate Lifecycle(p: RoomRun) {
    && Channels(p.room, p.abort, p.graceful) && Timers(p.room, p.abort)
    && 0 < p.perUser && p.room.neededTracks == p.perUser * p.room.size
    && (p.room.readyCloses == 0 ==> forall s | s in p.slices :: !PastReady(p.slices[s].pc))
  }

  lemma StepKeepsLifecycle(p: RoomRun, step: Step)
    requires Lifecycle(p) && Enabled(p, step)
    ensures Lifecycle(Next(p, step))
  {
    match step
    case JoinUser(u, c) => JoinFrame(p, u, c);
    case OnConn(c, a) => ConnFrame(p, c, a);
    case Arrive(s, c) =>
    case OnSlice(s, a) => SliceKeepsLifecycle(p, s, a);
    case OnTimer(a) => TimerFrame(p, a); TimerKeepsChannels(p, a);
  }

  lemma TimerKeepsChannels(p: RoomRun, a: TimerAct)
    requires Channels(p.room, p.abort, p.graceful) && Timers(p.room, p.abort) && TimerEnabled(p, a)
    ensures var q := AfterTimer(p, a);
            Channels(q.room, q.abort, q.graceful) && Timers(q.room, q.abort) && q.room.readyCloses == p.room.readyCloses
  {
    match a
    case AbortFires =>
    case AbortCheck =>
    case AbortClose =>
    case GracefulFires =>
    case ClearReady(gracefully) =>
    case DeleteCheck(gracefully) =>
    case DeleteMark(gracefully) =>
  }

  lemma SliceKeepsLifecycle(p: RoomRun, s: SliceId, a: SliceAct)
    requires Lifecycle(p) && SliceEnabled(p, s, a)
    ensures Lifecycle(AfterSlice(p, s, a))
  {
    var q := AfterSlice(p, s, a);
    SliceKeepsChannels(p.room, p.abort, p.graceful, a);
    assert PastReady(q.slices[s].pc) ==> p.room.readyCloses == 1;
  }

  lemma SliceKeepsChannels(r: Room, abort: StopPc, graceful: StopPc, a: SliceAct)
    requires Channels(r, abort, graceful) && Timers(r, abort) && (PastReady(From(a)) ==> r.readyCloses == 1)
    ensures var after := RoomAfter(a, r);
            && Channels(after, abort, if after.started && !r.started then Sleeping else graceful)
            && Timers(after, abort)
            && r.readyCloses <= after.readyCloses
            && after.neededTracks == r.neededTracks && after.size == r.size
  {
    match a
    case CountIn => CountKeepsChannels(r, abort, graceful);
    case PipelineUp => StartKeepsChannels(r, abort, graceful);
    case _ => OthersKeepChannels(r, abort, graceful, a);
  }

  lemma OthersKeepChannels(r: Room, abort: StopPc, graceful: StopPc, a: SliceAct)
    requires Channels(r, abort, graceful) && Timers(r, abort) && a != CountIn && a != PipelineUp
    ensures RoomAfter(a, r) == r.(outTracks := RoomAfter(a, r).outTracks)
    ensures Channels(RoomAfter(a, r), abort, graceful) && Timers(RoomAfter(a, r), abort)
  {
    OthersOnlyCountOut(r, a);
    OutTracksAreAside(r, abort, graceful, RoomAfter(a, r).outTracks);
  }

  lemma OthersOnlyCountOut(r: Room, a: SliceAct)
    requires a != CountIn && a != PipelineUp
    ensures RoomAfter(a, r) == r.(outTracks := RoomAfter(a, r).outTracks)
  {
  }

  lemma OutTracksAreAside(r: Room, abort: StopPc, graceful: StopPc, n: int)
    requires Channels(r, abort, graceful) && Timers(r, abort)
    ensures Channels(r.(outTracks := n), abort, graceful) && Timers(r.(outTracks := n), abort)
  {
  }

  lemma CountKeepsChannels(r: Room, abort: StopPc, graceful: StopPc)
    requires Channels(r, abort, graceful) && Timers(r, abort)
    ensures Channels(CountInTrack(r), abort, graceful) && Timers(CountInTrack(r), abort)
  {
  }

  lemma StartKeepsChannels(r: Room, abort: StopPc, graceful: StopPc)
    requires Channels(r, abort, graceful) && Timers(r, abort) && r.readyCloses == 1
    ensures var after := StartRoom(r);
            Channels(after, abort, if after.started && !r.started then Sleeping else graceful) && Timers(after, abort)
  {
  }

  // Seats

  ghost predicate Seats(p: RoomRun) {
    && SeatsKept(p.room)
    && p.joins.Keys == p.room.connected.Keys
    && (forall u :: JoinedCount(p.room, u) == Count(p.joins, u))
    && (forall u :: Count(p.joins, u) == Count(p.leaves, u) + if IsConnected(p.room, u) then 1 else 0)
    && UsersAdmitted(p)
  }

  ghost predicate UsersAdmitted(p: RoomRun) {
    && (forall c | c in p.conns :: p.conns[c].user in p.room.connected)
    && (forall s | s in p.slices :: p.slices[s].user in p.room.connected)
    && (forall u | u in p.room.peers :: u in p.room.connected)
  }

  lemma StepKeepsSeats(p: RoomRun, step: Step)
    requires Seats(p) && Enabled(p, step)
    ensures Seats(Next(p, step))
  {
    match step
    case JoinUser(u, c) => JoinKeepsRunSeats(p, u, c);
    case OnConn(c, a) => ConnKeepsSeats(p, c, a);
    case Arrive(s, c) =>
    case OnSlice(s, a) => SliceKeepsSeats(p, s, a);
    case OnTimer(a) => TimerKeepsSeats(p, a);
  }

  lemma JoinKeepsRunSeats(p: RoomRun, u: UserId, c: ConnId)
    requires Seats(p) && c !in p.conns
    ensures Seats(AfterJoinUser(p, u, c))
  {
    var q := AfterJoinUser(p, u, c);
    if q != p {
      JoinKeepsSeats(p.room, u);
      assert q.joins.Keys == q.room.connected.Keys;
      forall v
        ensures JoinedCount(q.room, v) == Count(q.joins, v)
        ensures Count(q.joins, v) == Count(q.leaves, v) + if IsConnected(q.room, v) then 1 else 0
      {
        JoinKeepsBalance(p, u, c, v);
      }
    }
  }

  lemma JoinKeepsBalance(p: RoomRun, u: UserId, c: ConnId, v: UserId)
    requires Seats(p)
    ensures var q := AfterJoinUser(p, u, c);
            && JoinedCount(q.room, v) == Count(q.joins, v)
            && Count(q.joins, v) == Count(q.leaves, v) + if IsConnected(q.room, v) then 1 else 0
  {
    assert u in ConnectedUsers(p.room) <==> IsConnected(p.room, u);
    JoinDecision(p.room, u);
    JoinIsLocal(p.room, u, v);
    assert JoinedCount(p.room, v) == Count(p.joins, v);
  }

  lemma ConnKeepsSeats(p: RoomRun, c: ConnId, a: ConnAct)
    requires Seats(p) && ConnEnabled(p, c, a)
    ensures Seats(AfterConn(p, c, a))
  {
    var q, u := AfterConn(p, c, a), p.conns[c].user;
    if a == Close {
      DisconnectDecision(p.room, u);
      forall v
        ensures JoinedCount(q.room, v) == Count(q.joins, v)
        ensures Count(q.joins, v) == Count(q.leaves, v) + if IsConnected(q.room, v) then 1 else 0
      {
        DisconnectIsLocal(p.room, u, v);
      }
    }
  }

  lemma SliceKeepsSeats(p: RoomRun, s: SliceId, a: SliceAct)
    requires Seats(p) && SliceEnabled(p, s, a)
    ensures Seats(AfterSlice(p, s, a))
  {
    var q := AfterSlice(p, s, a);
    SliceFrame(p, s, a);
    SameSeats(p, q);
    assert UsersAdmitted(q);
  }

  lemma TimerKeepsSeats(p: RoomRun, a: TimerAct)
    requires Seats(p) && TimerEnabled(p, a)
    ensures Seats(AfterTimer(p, a))
  {
    var q := AfterTimer(p, a);
    TimerFrame(p, a);
    SameSeats(p, q);
  }

  lemma SameSeats(p: RoomRun, q: RoomRun)
    requires Seats(p) && SameUsers(p, q)
    ensures SeatsKept(q.room)
    ensures forall u :: JoinedCount(q.room, u) == Count(q.joins, u)
    ensures forall u :: Count(q.joins, u) == Count(q.leaves, u) + if IsConnected(q.room, u) then 1 else 0
  {
    forall u
      ensures JoinedCount(q.room, u) == Count(q.joins, u)
      ensures Count(q.joins, u) == Count(q.leaves, u) + if IsConnected(q.room, u) then 1 else 0
    {
      assert JoinedCount(p.room, u) == Count(p.joins, u);
      assert IsConnected(q.room, u) == IsConnected(p.room, u);
    }
  }

  // In tracks

  ghost predicate InTracks(p: RoomRun) {
    && p.delivered <= p.slices.Keys
    && (forall s | s in p.delivered :: p.slices[s].pc != Arrived && p.slices[s].pc != Counting)
    && |p.delivered| == Min(p.room.inTracks, p.room.neededTracks)
  }

  lemma StepKeepsInTracks(p: RoomRun, step: Step)
    requires InTracks(p) && Enabled(p, step)
    ensures InTracks(Next(p, step))
  {
    var q := Next(p, step);
    match step
    case JoinUser(u, c) => JoinFrame(p, u, c);
    case OnConn(c, a) => ConnFrame(p, c, a);
    case Arrive(s, c) =>
    case OnSlice(s, a) => SliceKeepsInTracks(p, s, a);
    case OnTimer(a) => TimerFrame(p, a);
  }

  lemma SliceKeepsInTracks(p: RoomRun, s: SliceId, a: SliceAct)
    requires InTracks(p) && SliceEnabled(p, s, a)
    ensures InTracks(AfterSlice(p, s, a))
  {
    var q := AfterSlice(p, s, a);
    assert q.room.inTracks == p.room.inTracks + (if a == CountIn then 1 else 0);
    assert q.room.neededTracks == p.room.neededTracks;
    if a == CountIn {
      assert s !in p.delivered;
    }
  }

  // Out tracks

  predicate Running(pc: SlicePc) {
    pc == Looping || pc == Streaming || pc == Stopping || pc == Unindexed
  }

  /** The goroutines between their increment and their decrement of the out-track count. */
  function RunningSlices(slices: map<SliceId, Slice>): set<SliceId> {
    set s | s in slices && Running(slices[s].pc)
  }

  predicate NeedsIndex(pc: SlicePc) {
    pc == Waiting || pc == Released || pc == Looping || pc == Streaming || pc == Stopping
  }

  ghost predicate OutTracks(p: RoomRun) {
    && p.room.outTracks == |RunningSlices(p.slices)|
    && p.index <= p.slices.Keys
    && (forall s | s in p.slices && NeedsIndex(p.slices[s].pc) :: s in p.index)
  }

  lemma MoveRuns(slices: map<SliceId, Slice>, s: SliceId, to: Slice)
    requires s in slices ==> Running(slices[s].pc) == Running(to.pc)
    requires s !in slices ==> !Running(to.pc)
    ensures RunningSlices(slices[s := to]) == RunningSlices(slices)
  {
  }

  lemma MoveStartsRunning(slices: map<SliceId, Slice>, s: SliceId, to: Slice)
    requires s in slices && Running(slices[s].pc) != Running(to.pc)
    ensures |RunningSlices(slices[s := to])| == |RunningSlices(slices)| + if Running(to.pc) then 1 else -1
  {
    if Running(to.pc) {
      assert RunningSlices(slices[s := to]) == RunningSlices(slices) + {s};
    } else {
      assert RunningSlices(slices[s := to]) == RunningSlices(slices) - {s};
    }
  }

  lemma StepKeepsOutTracks(p: RoomRun, step: Step)
    requires OutTracks(p) && Enabled(p, step)
    ensures OutTracks(Next(p, step))
  {
    var q := Next(p, step);
    match step
    case OnSlice(s, a) => SliceKeepsOutTracks(p, s, a);
    case Arrive(s, c) => MoveRuns(p.slices, s, q.slices[s]);
    case JoinUser(u, c) => JoinFrame(p, u, c);
    case OnConn(c, a) => ConnFrame(p, c, a);
    case OnTimer(a) => TimerFrame(p, a);
  }

  lemma SliceKeepsOutTracks(p: RoomRun, s: SliceId, a: SliceAct)
    requires OutTracks(p) && SliceEnabled(p, s, a)
    ensures OutTracks(AfterSlice(p, s, a))
  {
    var q := AfterSlice(p, s, a);
    if Running(From(a)) == Running(To(a, p.room)) {
      MoveRuns(p.slices, s, q.slices[s]);
      assert q.room.outTracks == p.room.outTracks;
    } else {
      MoveStartsRunning(p.slices, s, q.slices[s]);
    }
    assert q.index <= q.slices.Keys;
    assert NeedsIndex(q.slices[s].pc) ==> s in q.index;
  }

  // All of it, over every run

  ghost predicate Inv(p: RoomRun) {
    Lifecycle(p) && Seats(p) && InTracks(p) && OutTracks(p)
  }

  lemma InitialInv(jp: JoinPayload, c: ConnId)
    ensures Inv(Initial(jp, c))
  {
    var p := Initial(jp, c);
    NewRoomKeepsSeats(jp);
    assert RunningSlices(p.slices) == {};
  }

  lemma StepKeepsInv(p: RoomRun, step: Step)
    requires Inv(p) && Enabled(p, step)
    ensures Inv(Next(p, step))
  {
    StepKeepsLifecycle(p, step);
    StepKeepsSeats(p, step);
    StepKeepsInTracks(p, step);
    StepKeepsOutTracks(p, step);
  }

  lemma {:induction false} RunKeepsInv(p: RoomRun, steps: seq<Step>)
    requires Inv(p) && Legal(p, steps)
    ensures Inv(Run(p, steps))
    decreases |steps|
  {
    if steps == [] {
    } else {
      StepKeepsInv(p, steps[0]);
      RunKeepsInv(Next(p, steps[0]), steps[1..]);
    }
  }
}
