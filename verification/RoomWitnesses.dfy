/** Reachable runs in which the conditions of `RoomGuarantees` fail. */
module RoomWitnesses {
  import opened Common
  import opened Rooms
  import opened RoomRuns
  import opened RoomGuarantees

  /** An audio-only room with `n` seats: its slices, how many tracks were counted in, and how many out. */
  ghost predicate Stands(p: RoomRun, n: nat, slices: map<SliceId, Slice>, counted: nat, out: int) {
    && p.perUser == 1 && p.room.size == n && p.room.neededTracks == n && counted <= n
    && p.slices == slices && p.room.inTracks == counted && p.room.outTracks == out
    && p.room.ready == (counted == n) && p.room.readyCloses == (if counted == n then 1 else 0)
  }

  /** Connection `c` serves user `u`. */
  predicate Serves(p: RoomRun, c: ConnId, u: UserId) {
    c in p.conns && p.conns[c].user == u && p.conns[c].connected
  }

  ghost predicate SameConns(p: RoomRun, q: RoomRun) {
    q.conns == p.conns && q.room.connected == p.room.connected && q.room.peers == p.room.peers
  }

  /** `q` differs from `p` in its connections only by `c`, which serves `u`. */
  ghost predicate NowServes(p: RoomRun, q: RoomRun, c: ConnId, u: UserId) {
    && q.conns.Keys == p.conns.Keys + {c} && Serves(q, c, u) && q.room.peers == p.room.peers[u := c]
    && forall d | d in p.conns && d != c :: q.conns[d] == p.conns[d]
  }

  /** Nothing changed for the tracks and the channels. */
  ghost predicate Unmoved(p: RoomRun, q: RoomRun) {
    SameTracks(p, q) && SameChannels(p.room, q.room) && q.room.ready == p.room.ready
  }

  lemma Connects(jp: JoinPayload, p: RoomRun, steps: seq<Step>, c: ConnId) returns (q: RoomRun, more: seq<Step>)
    requires Reachable(p, jp, 0, steps) && c in p.conns && p.conns[c].number == Pending && !p.conns[c].connected
    ensures Reachable(q, jp, 0, more) && NowServes(p, q, c, p.conns[c].user)
    ensures Unmoved(p, q) && q.room.connected == p.room.connected
  {
    ConnFrame(p, c, ReadNumber);
    q, more := Extend(jp, p, steps, OnConn(c, ReadNumber));
    ConnFrame(q, c, Connect);
    q, more := Extend(jp, q, more, OnConn(c, Connect));
  }

  lemma Joins(jp: JoinPayload, p: RoomRun, steps: seq<Step>, u: UserId, c: ConnId)
    returns (q: RoomRun, more: seq<Step>, conn: Conn)
    requires Reachable(p, jp, 0, steps) && c !in p.conns && !AfterJoin(p.room, u).1.Refused()
    ensures Reachable(q, jp, 0, more)
    ensures q.conns == p.conns[c := conn] && conn.user == u && conn.number == Pending && !conn.connected
    ensures Unmoved(p, q) && q.room.connected == p.room.connected[u := true] && q.room.peers == p.room.peers
  {
    JoinFrame(p, u, c);
    q, more := Extend(jp, p, steps, JoinUser(u, c));
    conn := Conn(u, Count(p.joins, u) + 1, Pending, false);
  }

  lemma NewServes(p: RoomRun, joined: RoomRun, q: RoomRun, c: ConnId, conn: Conn)
    requires joined.conns == p.conns[c := conn] && joined.room.peers == p.room.peers
    requires NowServes(joined, q, c, conn.user)
    ensures NowServes(p, q, c, conn.user)
  {
  }

  /** User `u` joins, or joins again, with connection `c`. */
  lemma Comes(jp: JoinPayload, p: RoomRun, steps: seq<Step>, u: UserId, c: ConnId) returns (q: RoomRun, more: seq<Step>)
    requires Reachable(p, jp, 0, steps) && c !in p.conns && !AfterJoin(p.room, u).1.Refused()
    ensures Reachable(q, jp, 0, more) && NowServes(p, q, c, u)
    ensures Unmoved(p, q) && q.room.connected == p.room.connected[u := true]
  {
    var joined, conn;
    joined, more, conn := Joins(jp, p, steps, u, c);
    q, more := Connects(jp, joined, more, c);
    NewServes(p, joined, q, c, conn);
  }

  lemma Leaves(jp: JoinPayload, p: RoomRun, steps: seq<Step>, c: ConnId) returns (q: RoomRun, more: seq<Step>)
    requires Reachable(p, jp, 0, steps) && c in p.conns && p.conns[c].connected && IsConnected(p.room, p.conns[c].user)
    ensures Reachable(q, jp, 0, more) && q.conns == p.conns
    ensures Unmoved(p, q) && q.room.connected == p.room.connected[p.conns[c].user := false]
  {
    ConnFrame(p, c, Close);
    q, more := Extend(jp, p, steps, OnConn(c, Close));
  }

  // A slice of `u` beside the others: where its goroutine stands, and how it goes on

  ghost predicate StandsAt(p: RoomRun, s: SliceId, slice: Slice,
                           n: nat, others: map<SliceId, Slice>, counted: nat, out: int)
  {
    Stands(p, n, others[s := slice], counted, out)
  }

  /** The room can take this step of a slice. */
  predicate Allows(p: RoomRun, a: SliceAct) {
    a != GiveUp && (a == Release ==> p.room.readyCloses > 0) && (a == CountIn ==> p.room.inTracks < p.room.neededTracks)
  }

  function OutAfter(a: SliceAct, out: int): int {
    if a == CountOut then out + 1 else if a == UncountOut then out - 1 else out
  }

  lemma MoveStands(p: RoomRun, s: SliceId, u: UserId, a: SliceAct,
                   n: nat, others: map<SliceId, Slice>, counted: nat, out: int)
    requires StandsAt(p, s, Slice(u, From(a)), n, others, counted, out) && Allows(p, a)
    ensures SliceEnabled(p, s, a) && SameConns(p, AfterSlice(p, s, a))
    ensures StandsAt(AfterSlice(p, s, a), s, Slice(u, To(a, p.room)), n, others,
                     if a == CountIn then counted + 1 else counted, OutAfter(a, out))
  {
    assert AfterSlice(p, s, a).slices == others[s := Slice(u, To(a, p.room))];
  }

  lemma Moves(jp: JoinPayload, p: RoomRun, steps: seq<Step>, s: SliceId, u: UserId, a: SliceAct,
              n: nat, others: map<SliceId, Slice>, counted: nat, out: int) returns (q: RoomRun, more: seq<Step>)
    requires Reachable(p, jp, 0, steps) && StandsAt(p, s, Slice(u, From(a)), n, others, counted, out) && Allows(p, a)
    ensures Reachable(q, jp, 0, more) && SameConns(p, q)
    ensures StandsAt(q, s, Slice(u, To(a, p.room)), n, others,
                     if a == CountIn then counted + 1 else counted, OutAfter(a, out))
  {
    MoveStands(p, s, u, a, n, others, counted, out);
    q, more := Extend(jp, p, steps, OnSlice(s, a));
  }

  /** A track of `u` arrives, is counted in unless the room is ready, and waits. */
  lemma Delivers(jp: JoinPayload, p: RoomRun, steps: seq<Step>, s: SliceId, c: ConnId, u: UserId,
                 n: nat, others: map<SliceId, Slice>, counted: nat, out: int) returns (q: RoomRun, more: seq<Step>)
    requires Reachable(p, jp, 0, steps) && Stands(p, n, others, counted, out) && s !in others && Serves(p, c, u)
    ensures Reachable(q, jp, 0, more) && SameConns(p, q)
    ensures StandsAt(q, s, Slice(u, Waiting), n, others, Min(counted + 1, n), out)
  {
    q, more := Extend(jp, p, steps, Arrive(s, c));
    q, more := Moves(jp, q, more, s, u, CheckReady, n, others, counted, out);
    if counted < n {
      q, more := Moves(jp, q, more, s, u, CountIn, n, others, counted, out);
    }
    q, more := Moves(jp, q, more, s, u, Build(true), n, others, Min(counted + 1, n), out);
  }

  /** A waiting slice of a ready room is released and counted out. */
  lemma StartsOut(jp: JoinPayload, p: RoomRun, steps: seq<Step>, s: SliceId, u: UserId,
                  n: nat, others: map<SliceId, Slice>, out: int) returns (q: RoomRun, more: seq<Step>)
    requires Reachable(p, jp, 0, steps) && StandsAt(p, s, Slice(u, Waiting), n, others, n, out)
    ensures Reachable(q, jp, 0, more) && SameConns(p, q)
    ensures StandsAt(q, s, Slice(u, Looping), n, others, n, out + 1)
  {
    q, more := Moves(jp, p, steps, s, u, Release, n, others, n, out);
    q, more := Moves(jp, q, more, s, u, CountOut, n, others, n, out);
  }

  lemma LoopEnds(jp: JoinPayload, p: RoomRun, steps: seq<Step>, s: SliceId, u: UserId,
                 n: nat, others: map<SliceId, Slice>, out: int) returns (q: RoomRun, more: seq<Step>)
    requires Reachable(p, jp, 0, steps) && StandsAt(p, s, Slice(u, Looping), n, others, n, out)
    ensures Reachable(q, jp, 0, more) && SameConns(p, q)
    ensures StandsAt(q, s, Slice(u, Stopping), n, others, n, out)
  {
    q, more := Moves(jp, p, steps, s, u, PipelineUp, n, others, n, out);
    q, more := Moves(jp, q, more, s, u, EndLoop, n, others, n, out);
  }

  /** A looping slice ends. */
  lemma EndsOut(jp: JoinPayload, p: RoomRun, steps: seq<Step>, s: SliceId, u: UserId,
                n: nat, others: map<SliceId, Slice>, out: int) returns (q: RoomRun, more: seq<Step>)
    requires Reachable(p, jp, 0, steps) && StandsAt(p, s, Slice(u, Looping), n, others, n, out)
    ensures Reachable(q, jp, 0, more) && SameConns(p, q)
    ensures StandsAt(q, s, Slice(u, Ended), n, others, n, out - 1)
  {
    q, more := LoopEnds(jp, p, steps, s, u, n, others, out);
    q, more := Moves(jp, q, more, s, u, Unindex, n, others, n, out);
    q, more := Moves(jp, q, more, s, u, UncountOut, n, others, n, out);
  }

  lemma Begins(jp: JoinPayload) returns (p: RoomRun, steps: seq<Step>)
    requires jp.audioOnly && 1 <= jp.size <= MAX_SIZE
    ensures Reachable(p, jp, 0, steps) && Stands(p, jp.size, map[], 0, 0)
    ensures p.conns.Keys == {0} && Serves(p, 0, jp.userId) && p.room.connected == map[jp.userId := true]
    ensures p.room.peers == map[jp.userId := 0]
  {
    p, steps := Connects(jp, Initial(jp, 0), [], 0);
  }

  /** A user who delivers two tracks to an audio-only room makes it ready while the other seat is empty. */
  lemma OneUserMakesReady(jp: JoinPayload) returns (p: RoomRun, steps: seq<Step>)
    requires jp.audioOnly && jp.size == 2
    ensures Reachable(p, jp, 0, steps) && p.room.readyCloses > 0
    ensures p.joins.Keys == {jp.userId} && !NobodyDeliveredMore(p) && !EverybodyIsHere(p)
  {
    p, steps := Begins(jp);
    p, steps := Delivers(jp, p, steps, "audio", 0, jp.userId, 2, map[], 0, 0);
    p, steps := Delivers(jp, p, steps, "video", 0, jp.userId, 2, p.slices, 1, 0);
    ReachableInv(p, jp, 0, steps);
    assert p.joins.Keys == {jp.userId};
    ReadinessMeansEverybody(p, jp, 0, steps);
  }

  lemma TwoUsersDeliver(jp: JoinPayload, v: UserId, a: SliceId, b: SliceId) returns (p: RoomRun, steps: seq<Step>)
    requires jp.audioOnly && jp.size == 2 && jp.userId != v && a != b
    ensures Reachable(p, jp, 0, steps) && p.room.peers.Keys == {jp.userId, v}
    ensures StandsAt(p, b, Slice(v, Waiting), 2, map[a := Slice(jp.userId, Waiting)], 2, 0)
  {
    p, steps := Begins(jp);
    p, steps := Comes(jp, p, steps, v, 1);
    p, steps := Delivers(jp, p, steps, a, 0, jp.userId, 2, map[], 0, 0);
    p, steps := Delivers(jp, p, steps, b, 1, v, 2, map[a := Slice(jp.userId, Waiting)], 1, 0);
  }

  /** A room with two seats, where both users run one slice each. */
  lemma TwoUsersRun(jp: JoinPayload, v: UserId, a: SliceId, b: SliceId) returns (p: RoomRun, steps: seq<Step>)
    requires jp.audioOnly && jp.size == 2 && jp.userId != v && a != b
    ensures Reachable(p, jp, 0, steps) && p.room.peers.Keys == {jp.userId, v}
    ensures StandsAt(p, a, Slice(jp.userId, Looping), 2, map[b := Slice(v, Looping)], 2, 2)
  {
    p, steps := TwoUsersDeliver(jp, v, a, b);
    p, steps := StartsOut(jp, p, steps, b, v, 2, map[a := Slice(jp.userId, Waiting)], 0);
    assert p.slices == map[b := Slice(v, Looping)][a := Slice(jp.userId, Waiting)];
    p, steps := StartsOut(jp, p, steps, a, jp.userId, 2, map[b := Slice(v, Looping)], 1);
  }

  // A return that is not signaled

  /** Four users and their tracks, and the track of the one who comes back. */
  datatype Cast = Cast(a: UserId, b: UserId, c: UserId, d: UserId,
                       ta: SliceId, tb: SliceId, tc: SliceId, td: SliceId, back: SliceId)

  predicate Differ(x: Cast) {
    && x.a != x.b && x.a != x.c && x.a != x.d && x.b != x.c && x.b != x.d && x.c != x.d
    && x.ta != x.tb && x.ta != x.tc && x.ta != x.td && x.tb != x.tc && x.tb != x.td && x.tc != x.td
    && x.back != x.ta && x.back != x.tb && x.back != x.tc && x.back != x.td
  }

  predicate FourSeats(jp: JoinPayload, x: Cast) {
    jp.audioOnly && jp.size == 4 && jp.userId == x.a && Differ(x)
  }

  /** The first two stay; whether the others are connected. */
  function Present(x: Cast, c: bool, d: bool): map<UserId, bool> {
    map[x.a := true, x.b := true, x.c := c, x.d := d]
  }

  function FourSlices(x: Cast, a: SlicePc, b: SlicePc, c: SlicePc, d: SlicePc): map<SliceId, Slice> {
    map[x.ta := Slice(x.a, a), x.tb := Slice(x.b, b), x.tc := Slice(x.c, c), x.td := Slice(x.d, d)]
  }

  lemma OneChanges(x: Cast, a: SlicePc, b: SlicePc, c: SlicePc, d: SlicePc, pc: SlicePc)
    requires Differ(x)
    ensures FourSlices(x, a, b, c, d)[x.ta := Slice(x.a, pc)] == FourSlices(x, pc, b, c, d)
    ensures FourSlices(x, a, b, c, d)[x.tb := Slice(x.b, pc)] == FourSlices(x, a, pc, c, d)
    ensures FourSlices(x, a, b, c, d)[x.tc := Slice(x.c, pc)] == FourSlices(x, a, b, pc, d)
    ensures FourSlices(x, a, b, c, d)[x.td := Slice(x.d, pc)] == FourSlices(x, a, b, c, pc)
  {
  }

  /** Four users are connected, and each one's connection is served. */
  ghost predicate FourServed(p: RoomRun, x: Cast) {
    && p.conns.Keys == {0, 1, 2, 3} && p.room.connected == Present(x, true, true)
    && Serves(p, 0, x.a) && Serves(p, 1, x.b) && Serves(p, 2, x.c) && Serves(p, 3, x.d)
  }

  lemma TwoCome(jp: JoinPayload, x: Cast) returns (p: RoomRun, steps: seq<Step>)
    requires FourSeats(jp, x)
    ensures Reachable(p, jp, 0, steps) && Stands(p, 4, map[], 0, 0)
    ensures p.conns.Keys == {0, 1} && Serves(p, 0, x.a) && Serves(p, 1, x.b)
    ensures p.room.connected == map[x.a := true, x.b := true]
  {
    p, steps := Begins(jp);
    p, steps := Comes(jp, p, steps, x.b, 1);
  }

  lemma FourCome(jp: JoinPayload, x: Cast) returns (p: RoomRun, steps: seq<Step>)
    requires FourSeats(jp, x)
    ensures Reachable(p, jp, 0, steps) && Stands(p, 4, map[], 0, 0) && FourServed(p, x)
  {
    p, steps := TwoCome(jp, x);
    assert |p.room.connected| == 2;
    p, steps := Comes(jp, p, steps, x.c, 2);
    assert p.room.connected == map[x.a := true, x.b := true, x.c := true] && |p.room.connected| == 3;
    p, steps := Comes(jp, p, steps, x.d, 3);
  }

  lemma FourDeliver(jp: JoinPayload, x: Cast) returns (p: RoomRun, steps: seq<Step>)
    requires FourSeats(jp, x)
    ensures Reachable(p, jp, 0, steps) && Stands(p, 4, FourSlices(x, Waiting, Waiting, Waiting, Waiting), 4, 0)
    ensures FourServed(p, x)
  {
    p, steps := FourCome(jp, x);
    p, steps := Delivers(jp, p, steps, x.ta, 0, x.a, 4, map[], 0, 0);
    p, steps := Delivers(jp, p, steps, x.tb, 1, x.b, 4, p.slices, 1, 0);
    p, steps := Delivers(jp, p, steps, x.tc, 2, x.c, 4, p.slices, 2, 0);
    p, steps := Delivers(jp, p, steps, x.td, 3, x.d, 4, p.slices, 3, 0);
    assert p.slices == FourSlices(x, Waiting, Waiting, Waiting, Waiting);
  }

  lemma TwoRun(jp: JoinPayload, x: Cast) returns (p: RoomRun, steps: seq<Step>)
    requires FourSeats(jp, x)
    ensures Reachable(p, jp, 0, steps) && Stands(p, 4, FourSlices(x, Looping, Looping, Waiting, Waiting), 4, 2)
    ensures FourServed(p, x)
  {
    p, steps := FourDeliver(jp, x);
    OneChanges(x, Waiting, Waiting, Waiting, Waiting, Waiting);
    OneChanges(x, Waiting, Waiting, Waiting, Waiting, Looping);
    p, steps := StartsOut(jp, p, steps, x.ta, x.a, 4, FourSlices(x, Waiting, Waiting, Waiting, Waiting), 0);
    OneChanges(x, Looping, Waiting, Waiting, Waiting, Waiting);
    OneChanges(x, Looping, Waiting, Waiting, Waiting, Looping);
    p, steps := StartsOut(jp, p, steps, x.tb, x.b, 4, FourSlices(x, Looping, Waiting, Waiting, Waiting), 1);
  }

  lemma FourRun(jp: JoinPayload, x: Cast) returns (p: RoomRun, steps: seq<Step>)
    requires FourSeats(jp, x)
    ensures Reachable(p, jp, 0, steps) && Stands(p, 4, FourSlices(x, Looping, Looping, Looping, Looping), 4, 4)
    ensures FourServed(p, x)
  {
    p, steps := TwoRun(jp, x);
    OneChanges(x, Looping, Looping, Waiting, Waiting, Waiting);
    OneChanges(x, Looping, Looping, Waiting, Waiting, Looping);
    p, steps := StartsOut(jp, p, steps, x.tc, x.c, 4, FourSlices(x, Looping, Looping, Waiting, Waiting), 2);
    OneChanges(x, Looping, Looping, Looping, Waiting, Waiting);
    OneChanges(x, Looping, Looping, Looping, Waiting, Looping);
    p, steps := StartsOut(jp, p, steps, x.td, x.d, 4, FourSlices(x, Looping, Looping, Looping, Waiting), 3);
  }

  lemma TwoLeave(jp: JoinPayload, x: Cast) returns (p: RoomRun, steps: seq<Step>)
    requires FourSeats(jp, x)
    ensures Reachable(p, jp, 0, steps) && Stands(p, 4, FourSlices(x, Looping, Looping, Ended, Ended), 4, 2)
    ensures p.conns.Keys == {0, 1, 2, 3} && p.room.connected == Present(x, false, false)
  {
    p, steps := FourRun(jp, x);
    p, steps := Leaves(jp, p, steps, 2);
    p, steps := Leaves(jp, p, steps, 3);
    OneChanges(x, Looping, Looping, Looping, Looping, Looping);
    OneChanges(x, Looping, Looping, Looping, Looping, Ended);
    p, steps := EndsOut(jp, p, steps, x.tc, x.c, 4, FourSlices(x, Looping, Looping, Looping, Looping), 4);
    OneChanges(x, Looping, Looping, Ended, Looping, Looping);
    OneChanges(x, Looping, Looping, Ended, Looping, Ended);
    p, steps := EndsOut(jp, p, steps, x.td, x.d, 4, FourSlices(x, Looping, Looping, Ended, Looping), 3);
  }

  lemma OneComesBack(jp: JoinPayload, x: Cast) returns (p: RoomRun, steps: seq<Step>)
    requires FourSeats(jp, x)
    ensures Reachable(p, jp, 0, steps) && Stands(p, 4, FourSlices(x, Looping, Looping, Ended, Ended), 4, 2)
    ensures p.room.connected == Present(x, true, false) && Serves(p, 4, x.c)
  {
    p, steps := TwoLeave(jp, x);
    p, steps := Comes(jp, p, steps, x.c, 4);
    assert p.room.connected == Present(x, true, false);
  }

  lemma OneReturns(jp: JoinPayload, x: Cast) returns (p: RoomRun, steps: seq<Step>)
    requires FourSeats(jp, x)
    ensures Reachable(p, jp, 0, steps) && p.room.connected == Present(x, true, false)
    ensures StandsAt(p, x.back, Slice(x.c, Released), 4, FourSlices(x, Looping, Looping, Ended, Ended), 4, 2)
  {
    p, steps := OneComesBack(jp, x);
    var before := FourSlices(x, Looping, Looping, Ended, Ended);
    p, steps := Delivers(jp, p, steps, x.back, 4, x.c, 4, before, 4, 2);
    p, steps := Moves(jp, p, steps, x.back, x.c, Release, 4, before, 4, 2);
  }

  /**
   Four users run in an audio-only room, two leave, and one comes back: when her slice is counted out, three users run
   one slice each, and no pass is requested.
   */
  lemma ReturnIsMissed(jp: JoinPayload, x: Cast) returns (p: RoomRun, steps: seq<Step>)
    requires FourSeats(jp, x)
    ensures Reachable(p, jp, 0, steps) && p.perUser == 1 && p.room.size == 4 && p.room.ready
    ensures ConnectedUsers(p.room) == {x.a, x.b, x.c} && Enabled(p, OnSlice(x.back, CountOut))
    ensures var q := Next(p, OnSlice(x.back, CountOut));
            && RunningOf(q, x.a) == {x.ta} && RunningOf(q, x.b) == {x.tb} && RunningOf(q, x.c) == {x.back}
            && q.requests == p.requests
  {
    p, steps := OneReturns(jp, x);
    ThirdIsMissed(p, x);
    ThreeRun(Next(p, OnSlice(x.back, CountOut)), x);
  }

  lemma ThirdIsMissed(p: RoomRun, x: Cast)
    requires Differ(x)
    requires StandsAt(p, x.back, Slice(x.c, Released), 4, FourSlices(x, Looping, Looping, Ended, Ended), 4, 2)
    ensures Enabled(p, OnSlice(x.back, CountOut))
    ensures var q := Next(p, OnSlice(x.back, CountOut));
            && q.slices == FourSlices(x, Looping, Looping, Ended, Ended)[x.back := Slice(x.c, Looping)]
            && q.requests == p.requests
  {
  }

  lemma ThreeRun(q: RoomRun, x: Cast)
    requires Differ(x)
    requires q.slices == FourSlices(x, Looping, Looping, Ended, Ended)[x.back := Slice(x.c, Looping)]
    ensures RunningOf(q, x.a) == {x.ta} && RunningOf(q, x.b) == {x.tb} && RunningOf(q, x.c) == {x.back}
  {
    assert RunningSlices(q.slices) == {x.ta, x.tb, x.back};
  }
}
