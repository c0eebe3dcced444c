/** Connection numbers: which run of a room lets two connections of a user record under one number. */
module Connections {
  import opened Common
  import opened Rooms
  import opened RoomRuns
  import opened RoomGuarantees

  // The condition at the join

  /** A connection of the user that may still read its number. */
  ghost predicate Unread(p: RoomRun, u: UserId) {
    exists d :: d in p.conns && p.conns[d].user == u && p.conns[d].number == Pending
  }

  /** A join that is accepted while an earlier connection of its user has not read its number yet. */
  ghost predicate EarlyJoin(p: RoomRun, step: Step) {
    step.JoinUser? && !AfterJoin(p.room, step.u).1.Refused() && Unread(p, step.u)
  }

  ghost predicate NoEarlyJoin(p: RoomRun, steps: seq<Step>)
    requires Legal(p, steps)
    decreases |steps|
  {
    steps == [] || (!EarlyJoin(p, steps[0]) && NoEarlyJoin(Next(p, steps[0]), steps[1..]))
  }

  ghost predicate Ordinals(p: RoomRun) {
    && (forall c | c in p.conns :: 1 <= p.conns[c].ordinal <= Count(p.joins, p.conns[c].user))
    && (forall c, d | c in p.conns && d in p.conns && c != d && p.conns[c].user == p.conns[d].user ::
          p.conns[c].ordinal != p.conns[d].ordinal)
  }

  /** What was read is the ordinal of the connection, and what may still be read is too. */
  ghost predicate ReadsOrdinals(p: RoomRun) {
    forall c | c in p.conns ::
      match p.conns[c].number
      case Read(n) => n == p.conns[c].ordinal
      case Pending => p.conns[c].ordinal == Count(p.joins, p.conns[c].user)
      case Abandoned => true
  }

  ghost predicate NumberInv(p: RoomRun) {
    Seats(p) && Ordinals(p) && ReadsOrdinals(p)
  }

  lemma NewConnKeepsNumbers(p: RoomRun, q: RoomRun, u: UserId, c: ConnId)
    requires Ordinals(p) && ReadsOrdinals(p) && c !in p.conns && !Unread(p, u)
    requires q.conns == p.conns[c := Conn(u, Count(p.joins, u) + 1, Pending, false)]
    requires q.joins == p.joins[u := Count(p.joins, u) + 1]
    ensures Ordinals(q) && ReadsOrdinals(q)
  {
    forall d | d in p.conns
      ensures q.conns[d] == p.conns[d] && p.conns[d].ordinal <= Count(p.joins, p.conns[d].user)
      ensures p.conns[d].user == u ==> p.conns[d].number != Pending
    {}
  }

  lemma SameConnsKeepNumbers(p: RoomRun, q: RoomRun)
    requires Ordinals(p) && ReadsOrdinals(p) && q.conns == p.conns && q.joins == p.joins
    ensures Ordinals(q) && ReadsOrdinals(q)
  {
  }

  lemma ChangedConnKeepsNumbers(p: RoomRun, q: RoomRun, c: ConnId, conn: Conn)
    requires Ordinals(p) && ReadsOrdinals(p) && c in p.conns && q.conns == p.conns[c := conn] && q.joins == p.joins
    requires conn.user == p.conns[c].user && conn.ordinal == p.conns[c].ordinal
    requires conn.number == p.conns[c].number || conn.number == Read(conn.ordinal) || conn.number == Abandoned
    ensures Ordinals(q) && ReadsOrdinals(q)
  {
    forall d | d in q.conns ensures q.conns[d].user == p.conns[d].user && q.conns[d].ordinal == p.conns[d].ordinal {}
  }

  lemma ConnKeepsNumbers(p: RoomRun, c: ConnId, a: ConnAct)
    requires NumberInv(p) && ConnEnabled(p, c, a)
    ensures Ordinals(AfterConn(p, c, a)) && ReadsOrdinals(AfterConn(p, c, a))
  {
    var q := AfterConn(p, c, a);
    if a == Close {
      SameConnsKeepNumbers(p, q);
    } else {
      assert JoinedCount(p.room, p.conns[c].user) == Count(p.joins, p.conns[c].user);
      ChangedConnKeepsNumbers(p, q, c, q.conns[c]);
    }
  }

  lemma JoinKeepsNumbers(p: RoomRun, u: UserId, c: ConnId)
    requires Ordinals(p) && ReadsOrdinals(p) && c !in p.conns && !EarlyJoin(p, JoinUser(u, c))
    ensures Ordinals(AfterJoinUser(p, u, c)) && ReadsOrdinals(AfterJoinUser(p, u, c))
  {
    if AfterJoin(p.room, u).1.Refused() {
    } else {
      NewConnKeepsNumbers(p, AfterJoinUser(p, u, c), u, c);
    }
  }

  lemma StepKeepsNumberInv(p: RoomRun, step: Step)
    requires NumberInv(p) && Enabled(p, step) && !EarlyJoin(p, step)
    ensures NumberInv(Next(p, step))
  {
    match step {
      case JoinUser(u, c) =>
        JoinKeepsNumbers(p, u, c);
      case OnConn(c, a) =>
        ConnKeepsNumbers(p, c, a);
      case Arrive(s, c) =>
        SameConnsKeepNumbers(p, Next(p, step));
      case OnSlice(s, a) =>
        SliceFrame(p, s, a);
        SameConnsKeepNumbers(p, Next(p, step));
      case OnTimer(a) =>
        TimerFrame(p, a);
        SameConnsKeepNumbers(p, Next(p, step));
    }
    StepKeepsSeats(p, step);
  }

  lemma {:induction false} RunKeepsNumberInv(p: RoomRun, steps: seq<Step>)
    requires NumberInv(p) && Legal(p, steps) && NoEarlyJoin(p, steps)
    ensures NumberInv(Run(p, steps))
    decreases |steps|
  {
    if steps == [] {
    } else {
      StepKeepsNumberInv(p, steps[0]);
      RunKeepsNumberInv(Next(p, steps[0]), steps[1..]);
    }
  }

  lemma {:induction false} NoEarlyJoinSnoc(p: RoomRun, steps: seq<Step>, step: Step)
    requires Legal(p, steps) && NoEarlyJoin(p, steps)
    requires Enabled(Run(p, steps), step) && !EarlyJoin(Run(p, steps), step)
    ensures Legal(p, steps + [step]) && NoEarlyJoin(p, steps + [step])
    decreases |steps|
  {
    if steps == [] {
      assert [step][1..] == [];
    } else {
      assert (steps + [step])[1..] == steps[1..] + [step];
      NoEarlyJoinSnoc(Next(p, steps[0]), steps[1..], step);
    }
  }

  lemma ReachableNumbers(p: RoomRun, jp: JoinPayload, c: ConnId, steps: seq<Step>)
    requires Reachable(p, jp, c, steps) && NoEarlyJoin(Initial(jp, c), steps)
    ensures NumberInv(p)
  {
    InitialInv(jp, c);
    RunKeepsNumberInv(Initial(jp, c), steps);
  }

  /** Two connections of one user that have read the same number. */
  predicate Repeated(p: RoomRun, c: ConnId, d: ConnId) {
    && c in p.conns && d in p.conns && c != d
    && p.conns[c].user == p.conns[d].user && p.conns[c].number.Read? && p.conns[c].number == p.conns[d].number
  }

  /** As long as no join was early, no two connections of a room share both user and connection number. */
  lemma NumbersAreDistinct(p: RoomRun, jp: JoinPayload, c0: ConnId, steps: seq<Step>, c: ConnId, d: ConnId)
    requires Reachable(p, jp, c0, steps) && NoEarlyJoin(Initial(jp, c0), steps)
    ensures !Repeated(p, c, d)
  {
    ReachableNumbers(p, jp, c0, steps);
  }

  /** In any reachable state, an early join can be followed by two reads of the same number. */
  lemma EarlyJoinRepeats(p: RoomRun, jp: JoinPayload, c0: ConnId, steps: seq<Step>, u: UserId, c: ConnId, d: ConnId)
    requires Reachable(p, jp, c0, steps) && Enabled(p, JoinUser(u, c)) && !AfterJoin(p.room, u).1.Refused()
    requires d in p.conns && p.conns[d].user == u && p.conns[d].number == Pending
    ensures var more := [JoinUser(u, c), OnConn(d, ReadNumber), OnConn(c, ReadNumber)];
            Legal(p, more) && Repeated(Run(p, more), c, d)
  {
    var first, second, third := JoinUser(u, c), OnConn(d, ReadNumber), OnConn(c, ReadNumber);
    var q := Next(p, first);
    assert q.conns == p.conns[c := Conn(u, Count(p.joins, u) + 1, Pending, false)];
    var r := Next(q, second);
    assert r.room == q.room && r.conns == q.conns[d := q.conns[d].(number := Read(JoinedCount(q.room, u)))];
    ThreeSteps(p, first, second, third);
  }

  lemma ThreeSteps(p: RoomRun, first: Step, second: Step, third: Step)
    requires Enabled(p, first) && Enabled(Next(p, first), second) && Enabled(Next(Next(p, first), second), third)
    ensures Legal(p, [first, second, third])
    ensures Run(p, [first, second, third]) == Next(Next(Next(p, first), second), third)
  {
    RunSnoc(p, [], first);
    RunSnoc(p, [first], second);
    RunSnoc(p, [first, second], third);
    assert [] + [first] == [first] && [first] + [second] == [first, second];
    assert [first, second] + [third] == [first, second, third];
  }

  predicate NoJoin(steps: seq<Step>) {
    forall k | 0 <= k < |steps| :: !steps[k].JoinUser?
  }

  /** Some continuation without further joins ends in a repeated number. */
  ghost predicate MayRepeat(p: RoomRun, c: ConnId, d: ConnId) {
    exists more :: NoJoin(more) && Legal(p, more) && Repeated(Run(p, more), c, d)
  }

  lemma {:induction false} NoJoinIsNotEarly(p: RoomRun, steps: seq<Step>)
    requires Legal(p, steps) && NoJoin(steps)
    ensures NoEarlyJoin(p, steps)
    decreases |steps|
  {
    if steps == [] {
    } else {
      assert NoJoin(steps[1..]) by {
        forall k | 0 <= k < |steps| - 1 ensures steps[1..][k] == steps[k + 1] {}
      }
      NoJoinIsNotEarly(Next(p, steps[0]), steps[1..]);
    }
  }

  /**
   The exact condition, at the join: as long as numbers are distinct for sure, an accepted join can end in a repeated
   number if and only if it comes before an earlier connection of its user has read its own.
   */
  lemma RepeatIffEarlyJoin(p: RoomRun, jp: JoinPayload, c0: ConnId, steps: seq<Step>, u: UserId, c: ConnId)
    requires Reachable(p, jp, c0, steps) && NoEarlyJoin(Initial(jp, c0), steps)
    requires Enabled(p, JoinUser(u, c)) && !AfterJoin(p.room, u).1.Refused()
    ensures (exists c1, c2 :: MayRepeat(Next(p, JoinUser(u, c)), c1, c2)) <==> EarlyJoin(p, JoinUser(u, c))
  {
    var q := Next(p, JoinUser(u, c));
    if EarlyJoin(p, JoinUser(u, c)) {
      var d :| d in p.conns && p.conns[d].user == u && p.conns[d].number == Pending;
      EarlyJoinRepeats(p, jp, c0, steps, u, c, d);
      var all := [JoinUser(u, c), OnConn(d, ReadNumber), OnConn(c, ReadNumber)];
      assert all[1..] == [OnConn(d, ReadNumber), OnConn(c, ReadNumber)];
      assert NoJoin(all[1..]) && Legal(q, all[1..]) && Repeated(Run(q, all[1..]), c, d);
      assert MayRepeat(q, c, d);
    } else {
      ReachableNumbers(p, jp, c0, steps);
      StepKeepsNumberInv(p, JoinUser(u, c));
      forall c1, c2 ensures !MayRepeat(q, c1, c2) {
        NothingRepeats(q, c1, c2);
      }
    }
  }

  lemma NothingRepeats(p: RoomRun, c: ConnId, d: ConnId)
    requires NumberInv(p)
    ensures !MayRepeat(p, c, d)
  {
    forall more | NoJoin(more) && Legal(p, more) ensures !Repeated(Run(p, more), c, d) {
      NoJoinIsNotEarly(p, more);
      RunKeepsNumberInv(p, more);
    }
  }

  // Stale closes

  /** A close that takes effect although the user has joined again since that connection. */
  predicate Stale(p: RoomRun, step: Step) {
    step.OnConn? && step.connAct == Close && step.c in p.conns
    && var conn := p.conns[step.c]; IsConnected(p.room, conn.user) && conn.ordinal != Count(p.joins, conn.user)
  }

  ghost predicate NeverStale(p: RoomRun, steps: seq<Step>)
    requires Legal(p, steps)
    decreases |steps|
  {
    steps == [] || (!Stale(p, steps[0]) && NeverStale(Next(p, steps[0]), steps[1..]))
  }

  /** A connection is the latest of a user who is connected. */
  predicate Current(p: RoomRun, conn: Conn) {
    conn.ordinal == Count(p.joins, conn.user) && IsConnected(p.room, conn.user)
  }

  ghost predicate Numbered(p: RoomRun) {
    && (forall c | c in p.conns :: !p.conns[c].connected ==> Current(p, p.conns[c]))
    && (forall c | c in p.conns :: p.conns[c].connected ==> p.conns[c].number.Read?)
  }

  ghost predicate PeersCurrent(p: RoomRun) {
    && (forall u | u in p.room.peers :: p.room.peers[u] in p.conns
          && var conn := p.conns[p.room.peers[u]]; conn.user == u && conn.connected && Current(p, conn))
    && (forall c | c in p.conns && p.conns[c].connected && Current(p, p.conns[c]) ::
          p.conns[c].user in p.room.peers && p.room.peers[p.conns[c].user] == c)
  }

  ghost predicate ConnInv(p: RoomRun) {
    Seats(p) && Ordinals(p) && Numbered(p) && PeersCurrent(p)
  }

  lemma StepKeepsConnInv(p: RoomRun, step: Step)
    requires ConnInv(p) && Enabled(p, step) && !Stale(p, step)
    ensures ConnInv(Next(p, step))
  {
    StepKeepsSeats(p, step);
    match step
    case JoinUser(u, c) => JoinKeepsConnInv(p, u, c);
    case OnConn(c, a) =>
      if a == Close { CloseKeepsConnInv(p, c); } else { ConnKeepsConnInv(p, c, a); }
    case Arrive(s, c) => SameUsersKeepConnInv(p, Next(p, step));
    case OnSlice(s, a) =>
      SliceFrame(p, s, a);
      SameUsersKeepConnInv(p, Next(p, step));
    case OnTimer(a) =>
      TimerFrame(p, a);
      SameUsersKeepConnInv(p, Next(p, step));
  }

  lemma SameUsersKeepConnInv(p: RoomRun, q: RoomRun)
    requires ConnInv(p) && SameUsers(p, q)
    ensures Ordinals(q) && Numbered(q) && PeersCurrent(q)
  {
    forall c | c in p.conns ensures Current(q, q.conns[c]) == Current(p, p.conns[c]) {}
  }

  /** `q` is `p` with connection `c` added or replaced, and every other one as current as before. */
  ghost predicate ConnUpdated(p: RoomRun, q: RoomRun, c: ConnId, conn: Conn) {
    && q.conns == p.conns[c := conn] && q.conns[c] == conn
    && forall d | d in p.conns && d != c :: q.conns[d] == p.conns[d] && Current(q, p.conns[d]) == Current(p, p.conns[d])
  }

  lemma JoinKeepsConnInv(p: RoomRun, u: UserId, c: ConnId)
    requires ConnInv(p) && c !in p.conns
    ensures var q := AfterJoinUser(p, u, c); Ordinals(q) && Numbered(q) && PeersCurrent(q)
  {
    if !AfterJoin(p.room, u).1.Refused() {
      JoinedConnIsNew(p, u, c);
      NewConnKeepsInv(p, AfterJoinUser(p, u, c), u, c);
    }
  }

  lemma JoinedConnIsNew(p: RoomRun, u: UserId, c: ConnId)
    requires ConnInv(p) && c !in p.conns && !AfterJoin(p.room, u).1.Refused()
    ensures var q := AfterJoinUser(p, u, c);
            && u !in p.room.peers && q.room.peers == p.room.peers
            && q.joins == p.joins[u := Count(p.joins, u) + 1]
            && ConnUpdated(p, q, c, Conn(u, Count(p.joins, u) + 1, Pending, false))
            && Current(q, q.conns[c])
            && forall d | d in p.conns :: p.conns[d].user == u ==> p.conns[d].connected
  {
    var q := AfterJoinUser(p, u, c);
    assert !IsConnected(p.room, u);
    assert JoinedCount(p.room, u) == Count(p.joins, u);
    forall d | d in p.conns
      ensures (p.conns[d].user == u ==> p.conns[d].connected) && Current(q, p.conns[d]) == Current(p, p.conns[d])
    {
      JoinKeepsCurrent(p, u, c, p.conns[d]);
    }
  }

  lemma JoinKeepsCurrent(p: RoomRun, u: UserId, c: ConnId, conn: Conn)
    requires !IsConnected(p.room, u) && conn.ordinal <= Count(p.joins, conn.user)
    ensures Current(AfterJoinUser(p, u, c), conn) == Current(p, conn)
  {
  }

  lemma NewConnKeepsInv(p: RoomRun, q: RoomRun, u: UserId, c: ConnId)
    requires Ordinals(p) && Numbered(p) && PeersCurrent(p) && c !in p.conns && u !in p.room.peers
    requires q.room.peers == p.room.peers && q.joins == p.joins[u := Count(p.joins, u) + 1]
    requires ConnUpdated(p, q, c, Conn(u, Count(p.joins, u) + 1, Pending, false)) && Current(q, q.conns[c])
    ensures Ordinals(q) && Numbered(q) && PeersCurrent(q)
  {
    NewConnKeepsOrdinals(p, q, u, c);
    NewConnKeepsPeers(p, q, c);
  }

  lemma NewConnKeepsOrdinals(p: RoomRun, q: RoomRun, u: UserId, c: ConnId)
    requires Ordinals(p) && Numbered(p) && c !in p.conns && q.joins == p.joins[u := Count(p.joins, u) + 1]
    requires ConnUpdated(p, q, c, Conn(u, Count(p.joins, u) + 1, Pending, false)) && Current(q, q.conns[c])
    ensures Ordinals(q) && Numbered(q)
  {
    forall d | d in p.conns ensures p.conns[d].ordinal <= Count(q.joins, p.conns[d].user) {}
  }

  lemma NewConnKeepsPeers(p: RoomRun, q: RoomRun, c: ConnId)
    requires PeersCurrent(p) && c !in p.conns && q.room.peers == p.room.peers
    requires c in q.conns && ConnUpdated(p, q, c, q.conns[c]) && !q.conns[c].connected
    ensures PeersCurrent(q)
  {
    forall v | v in q.room.peers ensures q.room.peers[v] in p.conns && q.room.peers[v] != c {}
  }

  lemma ConnKeepsConnInv(p: RoomRun, c: ConnId, a: ConnAct)
    requires ConnInv(p) && ConnEnabled(p, c, a) && a != Close
    ensures var q := AfterConn(p, c, a); Ordinals(q) && Numbered(q) && PeersCurrent(q)
  {
    assert Current(p, p.conns[c]);
    var q := AfterConn(p, c, a);
    assert ConnUpdated(p, q, c, q.conns[c]);
    if a == Connect {
      ConnectKeepsNumbers(p, q, c);
      ConnectKeepsPeers(p, c);
    } else {
      NumberKeepsConnInv(p, q, c, q.conns[c].number);
    }
  }

  lemma NumberKeepsConnInv(p: RoomRun, q: RoomRun, c: ConnId, number: Number)
    requires Ordinals(p) && Numbered(p) && PeersCurrent(p) && c in p.conns && !p.conns[c].connected
    requires q.room == p.room && q.joins == p.joins
    requires ConnUpdated(p, q, c, p.conns[c].(number := number))
    ensures Ordinals(q) && Numbered(q) && PeersCurrent(q)
  {
    assert Current(q, q.conns[c]) == Current(p, p.conns[c]);
    assert Ordinals(q);
    assert Numbered(q);
    forall v | v in q.room.peers ensures q.room.peers[v] != c {}
  }

  lemma ConnectKeepsNumbers(p: RoomRun, q: RoomRun, c: ConnId)
    requires Ordinals(p) && Numbered(p) && c in p.conns && p.conns[c].number.Read? && q.joins == p.joins
    requires ConnUpdated(p, q, c, p.conns[c].(connected := true))
    ensures Ordinals(q) && Numbered(q)
  {
  }

  lemma ConnectKeepsPeers(p: RoomRun, c: ConnId)
    requires ConnInv(p) && ConnEnabled(p, c, Connect)
    ensures PeersCurrent(AfterConn(p, c, Connect))
  {
    var q, u := AfterConn(p, c, Connect), p.conns[c].user;
    assert Current(p, p.conns[c]);
    forall d | d in q.conns && q.conns[d].connected && Current(q, q.conns[d])
      ensures q.conns[d].user in q.room.peers && q.room.peers[q.conns[d].user] == d
    {
      assert Current(p, p.conns[d]);
      if d != c && p.conns[d].user == u {
        assert false;
      }
    }
  }

  lemma CloseKeepsConnInv(p: RoomRun, c: ConnId)
    requires ConnInv(p) && ConnEnabled(p, c, Close) && !Stale(p, OnConn(c, Close))
    ensures var q := AfterConn(p, c, Close); Ordinals(q) && Numbered(q) && PeersCurrent(q)
  {
    var q, u := AfterConn(p, c, Close), p.conns[c].user;
    DisconnectDecision(p.room, u);
    if IsConnected(p.room, u) {
      forall d | d in p.conns ensures Current(q, p.conns[d]) == (Current(p, p.conns[d]) && p.conns[d].user != u) {
        DisconnectIsLocal(p.room, u, p.conns[d].user);
      }
      LeaveKeepsInv(p, q, u, c);
    } else {
      SameUsersKeepConnInv(p, q);
    }
  }

  lemma LeaveKeepsInv(p: RoomRun, q: RoomRun, u: UserId, c: ConnId)
    requires Ordinals(p) && Numbered(p) && PeersCurrent(p)
    requires c in p.conns && p.conns[c].user == u && p.conns[c].connected && Current(p, p.conns[c])
    requires q.conns == p.conns && q.joins == p.joins && q.room.peers == p.room.peers - {u}
    requires forall d | d in p.conns :: Current(q, p.conns[d]) == (Current(p, p.conns[d]) && p.conns[d].user != u)
    ensures Ordinals(q) && Numbered(q) && PeersCurrent(q)
  {
    forall d | d in q.conns && !q.conns[d].connected ensures Current(q, q.conns[d]) {
      assert Current(p, p.conns[d]) && d != c;
    }
  }

  lemma {:induction false} RunKeepsConnInv(p: RoomRun, steps: seq<Step>)
    requires ConnInv(p) && Legal(p, steps) && NeverStale(p, steps)
    ensures ConnInv(Run(p, steps))
    decreases |steps|
  {
    if steps == [] {
    } else {
      StepKeepsConnInv(p, steps[0]);
      RunKeepsConnInv(Next(p, steps[0]), steps[1..]);
    }
  }

  lemma InitialConnInv(jp: JoinPayload, c: ConnId)
    ensures ConnInv(Initial(jp, c))
  {
    InitialInv(jp, c);
  }

  /** A join is only ever early after a stale close. */
  lemma {:induction false} NeverStaleNeverEarly(p: RoomRun, steps: seq<Step>)
    requires ConnInv(p) && Legal(p, steps) && NeverStale(p, steps)
    ensures NoEarlyJoin(p, steps)
    decreases |steps|
  {
    if steps == [] {
    } else {
      StepKeepsConnInv(p, steps[0]);
      NeverStaleNeverEarly(Next(p, steps[0]), steps[1..]);
    }
  }

  /** So without stale closes, no two connections of a room share both user and connection number. */
  lemma NumbersAreDistinctUnlessStale(p: RoomRun, jp: JoinPayload, c0: ConnId, steps: seq<Step>, c: ConnId, d: ConnId)
    requires Reachable(p, jp, c0, steps) && NeverStale(Initial(jp, c0), steps)
    ensures NoEarlyJoin(Initial(jp, c0), steps) && !Repeated(p, c, d)
  {
    InitialConnInv(jp, c0);
    NeverStaleNeverEarly(Initial(jp, c0), steps);
    NumbersAreDistinct(p, jp, c0, steps, c, d);
  }

  /** Without stale closes, the indexed peer server of a user is that of the latest connection of a connected user. */
  lemma PeerIndexAgrees(p: RoomRun, jp: JoinPayload, c0: ConnId, steps: seq<Step>, u: UserId, c: ConnId)
    requires Reachable(p, jp, c0, steps) && NeverStale(Initial(jp, c0), steps)
    ensures u in p.room.peers && p.room.peers[u] == c
       <==> c in p.conns && p.conns[c].user == u && p.conns[c].connected && Current(p, p.conns[c])
  {
    InitialConnInv(jp, c0);
    RunKeepsConnInv(Initial(jp, c0), steps);
  }

  lemma {:induction false} AbandonedStays(p: RoomRun, steps: seq<Step>, c: ConnId)
    requires Legal(p, steps) && c in p.conns && p.conns[c].number == Abandoned && !p.conns[c].connected
    ensures var q := Run(p, steps); c in q.conns && q.conns[c] == p.conns[c]
    decreases |steps|
  {
    if steps == [] {
    } else {
      AbandonedStays(Next(p, steps[0]), steps[1..], c);
    }
  }

  /**
   A user whose peer connection could not be created is never marked as gone: without stale closes she keeps her seat
   for good, and is refused as a duplicate whenever she joins again.
   */
  lemma AbandonedLocksOut(p: RoomRun, jp: JoinPayload, c0: ConnId, steps: seq<Step>, c: ConnId, more: seq<Step>)
    requires Reachable(p, jp, c0, steps) && NeverStale(Initial(jp, c0), steps)
    requires c in p.conns && p.conns[c].number == Abandoned && Legal(p, more) && NeverStale(p, more)
    ensures var q, u := Run(p, more), p.conns[c].user;
            u in ConnectedUsers(q.room) && AfterJoin(q.room, u).1 == Duplicate
  {
    InitialConnInv(jp, c0);
    RunKeepsConnInv(Initial(jp, c0), steps);
    RunKeepsConnInv(p, more);
    AbandonedStays(p, more, c);
    assert Current(Run(p, more), p.conns[c]);
  }

  lemma AbandonedAtOnce(jp: JoinPayload, c: ConnId) returns (p: RoomRun, steps: seq<Step>)
    ensures Reachable(p, jp, c, steps) && NeverStale(Initial(jp, c), steps)
    ensures c in p.conns && p.conns[c].user == jp.userId && p.conns[c].number == Abandoned
  {
    steps := [OnConn(c, Abandon)];
    p := Next(Initial(jp, c), steps[0]);
    assert steps[1..] == [];
  }

  /**
   With one stale close it fails: the user reconnects, the close of the old connection marks her as gone, she joins a
   third time, and her second and third connections read the same number.
   */
  lemma StaleCloseRepeatsNumber(jp: JoinPayload) returns (p: RoomRun, steps: seq<Step>)
    requires jp.userId == "u" && jp.size == 2
    ensures Reachable(p, jp, 0, steps)
    ensures Repeated(p, 1, 2) && p.conns[1].number == Read(3)
  {
    p, steps := LeftOnce(jp);
    p, steps := Extend(jp, p, steps, JoinUser("u", 1));
    p, steps := Extend(jp, p, steps, OnConn(0, Close));
    assert UserLeft(p, 2);
    p, steps := Extend(jp, p, steps, JoinUser("u", 2));
    assert p.conns[1] == Conn("u", 2, Pending, false) && p.conns[2] == Conn("u", 3, Pending, false);
    assert JoinedCount(p.room, "u") == 3;
    p, steps := Extend(jp, p, steps, OnConn(1, ReadNumber));
    p, steps := Extend(jp, p, steps, OnConn(2, ReadNumber));
  }

  predicate UserLeft(p: RoomRun, n: nat) {
    && 0 in p.conns && p.conns[0].user == "u" && p.conns[0].connected && 2 !in p.conns
    && "u" in p.room.connected && !p.room.connected["u"]
    && JoinedCount(p.room, "u") == Count(p.joins, "u") == n
  }

  predicate BothIn(p: RoomRun, number: Number, connected: bool) {
    && p.conns == map[0 := Conn("u", 1, number, connected), 9 := Conn("v", 1, Pending, false)]
    && p.room.connected == map["u" := true, "v" := true]
    && JoinedCount(p.room, "u") == Count(p.joins, "u") == 1
  }

  /** The user joins, another does, and the user leaves. */
  lemma LeftOnce(jp: JoinPayload) returns (p: RoomRun, steps: seq<Step>)
    requires jp.userId == "u" && jp.size == 2
    ensures Reachable(p, jp, 0, steps) && UserLeft(p, 1) && 1 !in p.conns
  {
    p, steps := Initial(jp, 0), [];
    p, steps := Extend(jp, p, steps, JoinUser("v", 9));
    SecondJoins(jp);
    p, steps := ConnectedFirst(jp, p, steps);
    p, steps := Extend(jp, p, steps, OnConn(0, Close));
  }

  lemma SecondJoins(jp: JoinPayload)
    requires jp.userId == "u" && jp.size == 2
    ensures BothIn(Next(Initial(jp, 0), JoinUser("v", 9)), Pending, false)
  {
    var p := Initial(jp, 0);
    assert p.room.connected == map["u" := true] && |p.room.connected| == 1;
    assert Next(p, JoinUser("v", 9)).conns == p.conns[9 := Conn("v", 1, Pending, false)];
  }

  lemma ConnectedFirst(jp: JoinPayload, p: RoomRun, steps: seq<Step>) returns (q: RoomRun, more: seq<Step>)
    requires Reachable(p, jp, 0, steps) && BothIn(p, Pending, false)
    ensures Reachable(q, jp, 0, more) && BothIn(q, Read(1), true)
  {
    q, more := Extend(jp, p, steps, OnConn(0, ReadNumber));
    ReadsOne(p);
    q, more := Extend(jp, q, more, OnConn(0, Connect));
  }

  lemma ReadsOne(p: RoomRun)
    requires BothIn(p, Pending, false)
    ensures BothIn(Next(p, OnConn(0, ReadNumber)), Read(1), false)
  {
    var q := Next(p, OnConn(0, ReadNumber));
    assert q.conns == p.conns[0 := Conn("u", 1, Read(1), false)];
  }
}
