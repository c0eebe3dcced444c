/**
 One room together with its mixer: the goroutines of the room index and remove slices, connect and disconnect peers
 (sfu/interaction.go), and signaling happens in between (sfu/mixer.go, sfu/peer_server.go).
 */
module JointRuns {
  import opened Common
  import opened Rooms
  import RoomGuarantees
  import RoomRuns
  import RoomWitnesses
  import Signaling

  datatype Joint = Joint(p: RoomRuns.RoomRun, s: Signaling.MixerState)

  datatype JointStep =
    | InRoom(step: RoomRuns.Step, blankSenders: nat)  // of the connection, if the step connects one
    | Signal(event: Signaling.Event)

  /** What a step of the room does to the mixer or to the connected peers. */
  function MixerEvent(p: RoomRuns.RoomRun, step: RoomRuns.Step, blankSenders: nat): Option<Signaling.Event>
    requires RoomRuns.Enabled(p, step)
  {
    match step
    case OnConn(c, a) =>
      var u := p.conns[c].user;
      if a == RoomRuns.Connect then Some(Signaling.Connect(u, blankSenders))
      else if a == RoomRuns.Close && IsConnected(p.room, u) then Some(Signaling.Disconnect(u))
      else None
    case OnSlice(t, a) =>
      if a == RoomRuns.Build(true) then Some(Signaling.IndexSlice(t, p.slices[t].user))
      else if a == RoomRuns.Unindex then Some(Signaling.RemoveSlice(t))
      else None
    case _ => None
  }

  /** The events that are not the room's. */
  predicate OfSignaling(e: Signaling.Event) {
    e.Pass? || e.UpdateOne? || e.ShareOffer? || e.Answer?
  }

  ghost predicate Enabled(j: Joint, step: JointStep) {
    match step
    case InRoom(r, blankSenders) =>
      && RoomRuns.Enabled(j.p, r)
      && (MixerEvent(j.p, r, blankSenders).Some? ==> Signaling.Enabled(j.s, MixerEvent(j.p, r, blankSenders).value))
    case Signal(e) => OfSignaling(e) && Signaling.Enabled(j.s, e)
  }

  ghost function Next(j: Joint, step: JointStep): Joint
    requires Enabled(j, step)
  {
    match step
    case InRoom(r, blankSenders) =>
      var e := MixerEvent(j.p, r, blankSenders);
      Joint(RoomRuns.Next(j.p, r), if e.Some? then Signaling.Next(j.s, e.value) else j.s)
    case Signal(e) => Joint(j.p, Signaling.Next(j.s, e))
  }

  ghost predicate Legal(j: Joint, steps: seq<JointStep>)
    decreases |steps|
  {
    steps == [] || (Enabled(j, steps[0]) && Legal(Next(j, steps[0]), steps[1..]))
  }

  ghost function Run(j: Joint, steps: seq<JointStep>): Joint
    requires Legal(j, steps)
    decreases |steps|
  {
    if steps == [] then j else Run(Next(j, steps[0]), steps[1..])
  }

  function Initial(jp: JoinPayload, c: ConnId): Joint {
    Joint(RoomRuns.Initial(jp, c), Signaling.Initial(NewRoom(jp).size))
  }

  ghost predicate Reachable(j: Joint, jp: JoinPayload, c: ConnId, steps: seq<JointStep>) {
    Legal(Initial(jp, c), steps) && j == Run(Initial(jp, c), steps)
  }

  // What the two halves agree on

  /** The goroutine has come to the building of its slice. */
  predicate Built(pc: RoomRuns.SlicePc) {
    pc != RoomRuns.Arrived && pc != RoomRuns.Counting && pc != RoomRuns.Counted
  }

  predicate BuiltIn(p: RoomRuns.RoomRun, t: TrackId) {
    t in p.slices && Built(p.slices[t].pc)
  }

  ghost predicate SameIndex(p: RoomRuns.RoomRun, s: Signaling.MixerState) {
    s.index.Keys == p.index && forall t | t in s.index :: BuiltIn(p, t) && s.index[t] == p.slices[t].user
  }

  ghost predicate SentAreBuilt(p: RoomRuns.RoomRun, s: Signaling.MixerState) {
    forall u, t | u in s.peers && t in Signaling.Live(s.peers[u].senders) :: BuiltIn(p, t)
  }

  ghost predicate Agree(j: Joint) {
    && j.s.size == j.p.room.size
    && j.s.peers.Keys == j.p.room.peers.Keys
    && SameIndex(j.p, j.s) && SentAreBuilt(j.p, j.s)
  }

  /** Slices keep their users, and stay built. */
  predicate SlicesGoOn(p: RoomRuns.RoomRun, q: RoomRuns.RoomRun) {
    forall t | t in p.slices ::
      t in q.slices && q.slices[t].user == p.slices[t].user && (Built(p.slices[t].pc) ==> Built(q.slices[t].pc))
  }

  lemma StepGoesOn(p: RoomRuns.RoomRun, step: RoomRuns.Step)
    requires RoomRuns.Enabled(p, step)
    ensures SlicesGoOn(p, RoomRuns.Next(p, step)) && RoomRuns.Next(p, step).room.size == p.room.size
  {
    match step
    case JoinUser(u, c) => RoomRuns.JoinFrame(p, u, c);
    case OnConn(c, a) => RoomRuns.ConnFrame(p, c, a);
    case Arrive(t, c) =>
    case OnSlice(t, a) =>
      RoomRuns.SliceFrame(p, t, a);
      assert Built(RoomRuns.From(a)) ==> Built(RoomRuns.To(a, p.room));
    case OnTimer(a) => RoomRuns.TimerFrame(p, a);
  }

  /** Steps that do nothing to the mixer leave the index and the peers. */
  lemma OtherStepsLeave(p: RoomRuns.RoomRun, step: RoomRuns.Step, blankSenders: nat)
    requires RoomRuns.Enabled(p, step) && MixerEvent(p, step, blankSenders).None?
    ensures RoomRuns.Next(p, step).index == p.index && RoomRuns.Next(p, step).room.peers == p.room.peers
  {
    match step
    case JoinUser(u, c) => RoomRuns.JoinFrame(p, u, c);
    case OnConn(c, a) => RoomRuns.ConnFrame(p, c, a);
    case Arrive(t, c) =>
    case OnSlice(t, a) => RoomRuns.SliceFrame(p, t, a);
    case OnTimer(a) => RoomRuns.TimerFrame(p, a);
  }

  lemma OtherStepsAgree(p: RoomRuns.RoomRun, q: RoomRuns.RoomRun, s: Signaling.MixerState)
    requires Agree(Joint(p, s)) && SlicesGoOn(p, q)
    requires q.index == p.index && q.room.peers == p.room.peers && q.room.size == p.room.size
    ensures Agree(Joint(q, s))
  {
    forall t | BuiltIn(p, t) ensures BuiltIn(q, t) && q.slices[t].user == p.slices[t].user {}
  }

  lemma ConnectAgrees(p: RoomRuns.RoomRun, s: Signaling.MixerState, c: ConnId, blankSenders: nat)
    requires Agree(Joint(p, s)) && RoomRuns.ConnEnabled(p, c, RoomRuns.Connect)
    ensures Agree(Joint(RoomRuns.AfterConn(p, c, RoomRuns.Connect),
                        Signaling.Next(s, Signaling.Connect(p.conns[c].user, blankSenders))))
  {
    var u := p.conns[c].user;
    var q, after := RoomRuns.AfterConn(p, c, RoomRuns.Connect), Signaling.Next(s, Signaling.Connect(u, blankSenders));
    assert Signaling.Live(after.peers[u].senders) == {};
    forall t | BuiltIn(p, t) ensures BuiltIn(q, t) {}
    assert after.peers.Keys == s.peers.Keys + {u} && q.room.peers.Keys == p.room.peers.Keys + {u};
  }

  lemma CloseAgrees(p: RoomRuns.RoomRun, s: Signaling.MixerState, c: ConnId)
    requires Agree(Joint(p, s)) && RoomRuns.ConnEnabled(p, c, RoomRuns.Close) && IsConnected(p.room, p.conns[c].user)
    ensures Agree(Joint(RoomRuns.AfterConn(p, c, RoomRuns.Close),
                        Signaling.Next(s, Signaling.Disconnect(p.conns[c].user))))
  {
    var u := p.conns[c].user;
    var q, after := RoomRuns.AfterConn(p, c, RoomRuns.Close), Signaling.Next(s, Signaling.Disconnect(u));
    RoomRuns.ConnFrame(p, c, RoomRuns.Close);
    DisconnectDecision(p.room, u);
    forall t | BuiltIn(p, t) ensures BuiltIn(q, t) {}
  }

  lemma IndexIsFresh(j: Joint, t: TrackId)
    requires Agree(j) && t in j.p.slices && !Built(j.p.slices[t].pc)
    ensures Signaling.Unused(j.s, t)
  {
    assert !BuiltIn(j.p, t);
    forall u | u in j.s.peers ensures t !in Signaling.Live(j.s.peers[u].senders) {}
  }

  lemma SliceStepAgrees(j: Joint, t: TrackId, a: RoomRuns.SliceAct)
    requires Agree(j) && RoomRuns.SliceEnabled(j.p, t, a) && (a == RoomRuns.Build(true) || a == RoomRuns.Unindex)
    ensures Enabled(j, InRoom(RoomRuns.OnSlice(t, a), 0)) && Agree(Next(j, InRoom(RoomRuns.OnSlice(t, a), 0)))
  {
    var p, step := j.p, RoomRuns.OnSlice(t, a);
    if a == RoomRuns.Build(true) {
      IndexIsFresh(j, t);
    }
    var next := Next(j, InRoom(step, 0));
    StepGoesOn(p, step);
    RoomRuns.SliceFrame(p, t, a);
    assert next.p.slices[t] == RoomRuns.Slice(p.slices[t].user, RoomRuns.To(a, p.room));
    assert SameIndex(next.p, next.s);
    forall x | BuiltIn(p, x) ensures BuiltIn(next.p, x) {}
  }

  /** No step of the room is ever held up by the mixer: a track that is to be indexed is not in use. */
  lemma RoomStepAgrees(j: Joint, step: RoomRuns.Step, blankSenders: nat)
    requires Agree(j) && RoomRuns.Enabled(j.p, step)
    ensures Enabled(j, InRoom(step, blankSenders)) && Agree(Next(j, InRoom(step, blankSenders)))
  {
    if MixerEvent(j.p, step, blankSenders).None? {
      StepGoesOn(j.p, step);
      OtherStepsLeave(j.p, step, blankSenders);
      OtherStepsAgree(j.p, RoomRuns.Next(j.p, step), j.s);
    } else {
      match step
      case OnConn(c, a) =>
        if a == RoomRuns.Connect { ConnectAgrees(j.p, j.s, c, blankSenders); } else { CloseAgrees(j.p, j.s, c); }
      case OnSlice(t, a) => SliceStepAgrees(j, t, a);
    }
  }

  lemma SignalAgrees(j: Joint, e: Signaling.Event)
    requires Agree(j) && Signaling.Inv(j.s) && Enabled(j, Signal(e))
    ensures Agree(Next(j, Signal(e)))
  {
    Signaling.EventAdvances(j.s, e);
  }

  /** Both halves keep their own invariants. */
  ghost predicate Inv(j: Joint) {
    RoomRuns.Inv(j.p) && Signaling.Inv(j.s) && Agree(j)
  }

  lemma StepKeepsInv(j: Joint, step: JointStep)
    requires Inv(j) && Enabled(j, step)
    ensures Inv(Next(j, step))
  {
    match step
    case InRoom(r, blankSenders) =>
      RoomStepAgrees(j, r, blankSenders);
      RoomRuns.StepKeepsInv(j.p, r);
      if MixerEvent(j.p, r, blankSenders).Some? {
        Signaling.EventKeepsInv(j.s, MixerEvent(j.p, r, blankSenders).value);
      }
    case Signal(e) =>
      SignalAgrees(j, e);
      Signaling.EventKeepsInv(j.s, e);
  }

  lemma {:induction false} RunKeepsInv(j: Joint, steps: seq<JointStep>)
    requires Inv(j) && Legal(j, steps)
    ensures Inv(Run(j, steps))
    decreases |steps|
  {
    if steps == [] {
    } else {
      StepKeepsInv(j, steps[0]);
      RunKeepsInv(Next(j, steps[0]), steps[1..]);
    }
  }

  lemma ReachableInv(j: Joint, jp: JoinPayload, c: ConnId, steps: seq<JointStep>)
    requires Reachable(j, jp, c, steps)
    ensures Inv(j)
  {
    RoomRuns.InitialInv(jp, c);
    RunKeepsInv(Initial(jp, c), steps);
  }

  // What holds in every joint run

  /**
   The mixer indexes exactly the slices that the goroutines have put in, each under its user, and the connected peers
   are exactly those of the room.
   */
  lemma MixerFollowsRoom(j: Joint, jp: JoinPayload, c: ConnId, steps: seq<JointStep>)
    requires Reachable(j, jp, c, steps)
    ensures j.s.size == j.p.room.size && j.s.peers.Keys == j.p.room.peers.Keys
    ensures j.s.index.Keys == j.p.index
    ensures forall t | t in j.s.index :: t in j.p.slices && j.s.index[t] == j.p.slices[t].user
  {
    ReachableInv(j, jp, c, steps);
  }

  /** What a peer connection still sends, indexed or not, comes from a slice that was built. */
  lemma SentTracksWereBuilt(j: Joint, jp: JoinPayload, c: ConnId, steps: seq<JointStep>, u: UserId, t: TrackId)
    requires Reachable(j, jp, c, steps) && u in j.s.peers && t in Signaling.Live(j.s.peers[u].senders)
    ensures BuiltIn(j.p, t)
  {
    ReachableInv(j, jp, c, steps);
  }

  ghost predicate OneEncoding(steps: seq<JointStep>) {
    forall k | 0 <= k < |steps| :: steps[k].Signal? ==> Signaling.EventOneEncoding(steps[k].event)
  }

  predicate NothingOffered(s: Signaling.MixerState) {
    forall u | u in s.peers :: !s.peers[u].pending
  }

  /** The room's part of a joint run is a run of the room: what holds of rooms holds of it. */
  lemma {:induction false} RoomOf(j: Joint, steps: seq<JointStep>) returns (trace: seq<RoomRuns.Step>)
    requires Legal(j, steps)
    ensures RoomRuns.Legal(j.p, trace) && RoomRuns.Run(j.p, trace) == Run(j, steps).p
    decreases |steps|
  {
    if steps == [] {
      trace := [];
    } else {
      trace := RoomOf(Next(j, steps[0]), steps[1..]);
      if steps[0].InRoom? {
        assert ([steps[0].step] + trace)[1..] == trace;
        trace := [steps[0].step] + trace;
      }
    }
  }

  lemma Cons(j: Joint, step: JointStep, rest: seq<JointStep>)
    requires Enabled(j, step) && Legal(Next(j, step), rest)
    ensures Legal(j, [step] + rest) && Run(j, [step] + rest) == Run(Next(j, step), rest)
  {
    assert ([step] + rest)[1..] == rest;
  }

  lemma RoomOffersNothing(j: Joint, step: RoomRuns.Step)
    requires Agree(j) && RoomRuns.Enabled(j.p, step) && NothingOffered(j.s)
    ensures Enabled(j, InRoom(step, 0)) && NothingOffered(Next(j, InRoom(step, 0)).s)
  {
    RoomStepAgrees(j, step, 0);
  }

  /** Conversely, every run of a room is the room's part of some joint run: the mixer never holds it up. */
  lemma {:induction false} JointOf(j: Joint, trace: seq<RoomRuns.Step>) returns (steps: seq<JointStep>)
    requires Inv(j) && RoomRuns.Legal(j.p, trace) && NothingOffered(j.s)
    ensures Legal(j, steps) && Run(j, steps).p == RoomRuns.Run(j.p, trace)
    ensures OneEncoding(steps) && NothingOffered(Run(j, steps).s)
    decreases |trace|
  {
    if trace == [] {
      steps := [];
    } else {
      var step := InRoom(trace[0], 0);
      RoomOffersNothing(j, trace[0]);
      StepKeepsInv(j, step);
      var rest := JointOf(Next(j, step), trace[1..]);
      Cons(j, step, rest);
      steps := [step] + rest;
    }
  }

  lemma RoomKeepsControlled(j: Joint, r: RoomRuns.Step, blankSenders: nat)
    requires Signaling.Inv(j.s) && Signaling.Controlled(j.s) && Enabled(j, InRoom(r, blankSenders))
    ensures Signaling.Controlled(Next(j, InRoom(r, blankSenders)).s)
  {
    var e := MixerEvent(j.p, r, blankSenders);
    if e.Some? {
      Signaling.EventKeepsControlled(j.s, e.value);
    }
  }

  lemma StepKeepsControlled(j: Joint, step: JointStep)
    requires Inv(j) && Signaling.Controlled(j.s) && Enabled(j, step)
    requires step.Signal? ==> Signaling.EventOneEncoding(step.event)
    ensures Signaling.Controlled(Next(j, step).s)
  {
    match step
    case InRoom(r, blankSenders) => RoomKeepsControlled(j, r, blankSenders);
    case Signal(e) => Signaling.EventKeepsControlled(j.s, e);
  }

  /** With one encoding per sender, every indexed track that a peer sends has a controller for it. */
  lemma {:induction false} RunKeepsControlled(j: Joint, steps: seq<JointStep>)
    requires Inv(j) && Signaling.Controlled(j.s) && Legal(j, steps) && OneEncoding(steps)
    ensures Signaling.Controlled(Run(j, steps).s)
    decreases |steps|
  {
    if steps == [] {
    } else {
      StepKeepsControlled(j, steps[0]);
      StepKeepsInv(j, steps[0]);
      assert OneEncoding(steps[1..]) by {
        forall k | 0 <= k < |steps| - 1 ensures steps[1..][k] == steps[k + 1] {}
      }
      RunKeepsControlled(Next(j, steps[0]), steps[1..]);
    }
  }

  lemma ReachableControlled(j: Joint, jp: JoinPayload, c: ConnId, steps: seq<JointStep>)
    requires Reachable(j, jp, c, steps) && OneEncoding(steps)
    ensures Inv(j) && Signaling.Controlled(j.s)
  {
    ReachableInv(j, jp, c, steps);
    RoomRuns.InitialInv(jp, c);
    RunKeepsControlled(Initial(jp, c), steps);
  }

  // Fan-out of a complete room

  function IndexedOf(p: RoomRuns.RoomRun, u: UserId): set<TrackId> {
    Fiber(p.index, RoomRuns.Owners(p), u)
  }

  /** The out tracks are complete, no goroutine is between removing its slice and counting it out. */
  ghost predicate OutTracksComplete(p: RoomRuns.RoomRun) {
    && p.room.outTracks == p.room.neededTracks
    && forall t | t in p.slices :: p.slices[t].pc != RoomRuns.Unindexed
  }

  lemma IndexIsFull(p: RoomRuns.RoomRun)
    requires RoomRuns.Inv(p) && OutTracksComplete(p)
    requires forall v | v in p.joins :: |IndexedOf(p, v)| <= p.perUser
    ensures |p.joins.Keys| == p.room.size && OwnedWithin(p.index, RoomRuns.Owners(p), p.joins.Keys)
    ensures forall v | v in p.joins :: |IndexedOf(p, v)| == p.perUser
    ensures p.index == RoomRuns.RunningSlices(p.slices)
  {
    var running, owners, users := RoomRuns.RunningSlices(p.slices), RoomRuns.Owners(p), p.joins.Keys;
    assert |p.room.connected| == |p.room.connected.Keys|;
    assert OwnedWithin(p.index, owners, users);
    FibersAtMost(p.index, owners, users, p.perUser);
    AtMostFull(p.perUser, |users|, p.room.size);
    assert running <= p.index;
    SubsetIsWhole(running, p.index);
    FibersFull(p.index, owners, users, p.perUser, p.room.size);
  }

  lemma AtMostFull(k: nat, n: nat, size: nat)
    requires n <= size
    ensures k * n <= k * size
  {
    assert 0 <= k * (size - n) == k * size - k * n;
  }

  lemma SubsetIsWhole<T>(a: set<T>, b: set<T>)
    requires a <= b && |b| <= |a|
    ensures a == b
  {
    Signaling.SubsetCardinality(b - a, b);
    assert |b| == |a| + |b - a| by { assert b == a + (b - a); }
  }

  lemma SameOwners(index: Signaling.SliceOwners, owners: map<TrackId, UserId>, users: set<UserId>, k: nat)
    requires forall t | t in index :: t in owners && index[t] == owners[t]
    requires OwnedWithin(index.Keys, owners, users)
    requires forall v | v in users :: |Fiber(index.Keys, owners, v)| == k
    ensures Signaling.SlicesPerUser(index, users, k)
  {
    forall v | v in users ensures Fiber(index.Keys, index, v) == Fiber(index.Keys, owners, v) {}
  }

  /** Once the out tracks are complete and no user has more slices indexed than expected, the mixer has all of them. */
  lemma MixerIsFull(j: Joint)
    requires Inv(j) && OutTracksComplete(j.p)
    requires forall v | v in j.p.joins :: |IndexedOf(j.p, v)| <= j.p.perUser
    ensures |j.p.joins.Keys| == j.p.room.size
    ensures Signaling.SlicesPerUser(j.s.index, j.p.joins.Keys, j.p.perUser)
  {
    IndexIsFull(j.p);
    SameOwners(j.s.index, RoomRuns.Owners(j.p), j.p.joins.Keys, j.p.perUser);
  }

  lemma PeersAreAdmitted(j: Joint)
    requires Inv(j)
    ensures j.s.peers.Keys == j.p.room.peers.Keys <= j.p.joins.Keys
  {
  }

  lemma FullMixerFansOut(j: Joint, envs: UserId -> Signaling.PeerEnv, outcomes: map<UserId, Signaling.Outcome>,
                         u: UserId)
    requires Inv(j) && Signaling.Controlled(j.s) && OutTracksComplete(j.p)
    requires forall v | v in j.p.joins :: |IndexedOf(j.p, v)| <= j.p.perUser
    requires u in j.p.room.peers
    requires Signaling.LegalPass(j.s, envs, outcomes) && Signaling.PassOk(j.s, envs, outcomes)
    requires Signaling.RemovalsWork(j.s, envs) && Signaling.EventOneEncoding(Signaling.Pass(envs, outcomes))
    ensures Signaling.ReceivesFrom(Signaling.AfterPass(j.s, envs, outcomes), u, j.p.room.size, j.p.perUser)
  {
    MixerIsFull(j);
    PeersAreAdmitted(j);
    Signaling.PassFansOut(j.s, envs, outcomes, j.p.joins.Keys, j.p.perUser, u);
  }

  /**
   From the first join to the media, in every joint run with one encoding per sender: once the out tracks are complete
   and no user has more slices indexed than expected, a successful pass leaves each connected peer with the tracks of
   all other seats, k(size-1) of them (k in a mirror), each with a controller.
   */
  lemma CompleteRoomFansOut(j: Joint, jp: JoinPayload, c: ConnId, steps: seq<JointStep>,
                            envs: UserId -> Signaling.PeerEnv, outcomes: map<UserId, Signaling.Outcome>, u: UserId)
    requires Reachable(j, jp, c, steps) && OneEncoding(steps) && OutTracksComplete(j.p)
    requires forall v | v in j.p.joins :: |IndexedOf(j.p, v)| <= j.p.perUser
    requires u in j.p.room.peers
    requires Signaling.LegalPass(j.s, envs, outcomes) && Signaling.PassOk(j.s, envs, outcomes)
    requires Signaling.RemovalsWork(j.s, envs) && Signaling.EventOneEncoding(Signaling.Pass(envs, outcomes))
    ensures Signaling.ReceivesFrom(Signaling.AfterPass(j.s, envs, outcomes), u, j.p.room.size, j.p.perUser)
  {
    ReachableControlled(j, jp, c, steps);
    FullMixerFansOut(j, envs, outcomes, u);
  }

  // The premises of `CompleteRoomFansOut` can be met: two users in an audio-only room

  lemma TwoUsersRun(jp: JoinPayload, v: UserId, a: TrackId, b: TrackId) returns (j: Joint, steps: seq<JointStep>)
    requires jp.audioOnly && jp.size == 2 && jp.userId != v && a != b
    ensures Reachable(j, jp, 0, steps) && OneEncoding(steps) && NothingOffered(j.s)
    ensures OutTracksComplete(j.p) && j.p.room.size == 2 && j.p.perUser == 1
    ensures j.p.room.peers.Keys == {jp.userId, v}
    ensures j.p.slices
         == map[b := RoomRuns.Slice(v, RoomRuns.Looping), a := RoomRuns.Slice(jp.userId, RoomRuns.Looping)]
  {
    var p, trace := RoomWitnesses.TwoUsersRun(jp, v, a, b);
    RoomRuns.InitialInv(jp, 0);
    steps := JointOf(Initial(jp, 0), trace);
    j := Run(Initial(jp, 0), steps);
  }

  lemma OneEach(index: set<TrackId>, owners: map<TrackId, UserId>, u: UserId, v: UserId, a: TrackId, b: TrackId,
                w: UserId)
    requires u != v && a != b && index <= {a, b} && owners == map[b := v, a := u]
    ensures |Fiber(index, owners, w)| <= 1
  {
    var one := if w == u then {a} else {b};
    assert Fiber(index, owners, w) <= one;
    Signaling.SubsetCardinality(Fiber(index, owners, w), one);
  }

  lemma TwoUsersOwnOne(j: Joint, u: UserId, v: UserId, a: TrackId, b: TrackId)
    requires Inv(j) && u != v && a != b
    requires j.p.slices == map[b := RoomRuns.Slice(v, RoomRuns.Looping), a := RoomRuns.Slice(u, RoomRuns.Looping)]
    ensures forall w | w in j.p.joins :: |IndexedOf(j.p, w)| <= 1
  {
    assert RoomRuns.Owners(j.p) == map[b := v, a := u];
    forall w | w in j.p.joins ensures |IndexedOf(j.p, w)| <= 1 {
      OneEach(j.p.index, RoomRuns.Owners(j.p), u, v, a, b, w);
    }
  }

  /** Each of them is sent the other's track. */
  lemma TwoUsersFanOut(jp: JoinPayload, v: UserId, a: TrackId, b: TrackId, u: UserId)
    returns (j: Joint, steps: seq<JointStep>, outcomes: map<UserId, Signaling.Outcome>)
    requires jp.audioOnly && jp.size == 2 && jp.userId != v && a != b && u in {jp.userId, v}
    ensures Reachable(j, jp, 0, steps) && Signaling.LegalPass(j.s, Signaling.NO_FAILURE, outcomes)
    ensures Signaling.ReceivesFrom(Signaling.AfterPass(j.s, Signaling.NO_FAILURE, outcomes), u, 2, 1)
  {
    j, steps := TwoUsersRun(jp, v, a, b);
    outcomes := Signaling.WithoutFailure(j.s);
    ReachableInv(j, jp, 0, steps);
    TwoUsersOwnOne(j, jp.userId, v, a, b);
    CompleteRoomFansOut(j, jp, 0, steps, Signaling.NO_FAILURE, outcomes, u);
  }
}
