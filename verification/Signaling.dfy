/**
 What a signaling pass computes: the tracks each peer connection should send, and the offer that announces them
 (sfu/mixer.go, sfu/peer_server.go). Calls into the WebRTC library and the websocket may fail; an environment says how.
 */
module Signaling {
  import opened Common

  /** A peer connection: one entry per sender, with the track it carries, if any. */
  datatype Peer = Peer(
    senders: seq<Option<TrackId>>,
    pending: bool,                 // a local description is waiting for its answer
    offersSet: nat,
    answersApplied: nat,
    lastOffer: Option<set<TrackId>>)  // tracks listed by the last offer that reached the client

  /** The outcomes of the calls made while updating one peer. */
  datatype PeerEnv = PeerEnv(
    removeOk: nat -> bool,        // per sender
    addOk: TrackId -> bool,
    encodings: TrackId -> nat,    // of the sender created for a track
    ssrc: TrackId -> int,         // of its first encoding
    createOk: bool,
    setLocalOk: bool,
    marshalOk: bool,
    sendOk: bool)

  type SliceOwners = map<TrackId, UserId>

  function Live(senders: seq<Option<TrackId>>): set<TrackId> {
    set k | 0 <= k < |senders| && senders[k].Some? :: senders[k].value
  }

  /** No track is sent twice. */
  ghost predicate Once(senders: seq<Option<TrackId>>) {
    forall j, k | 0 <= j < k < |senders| && senders[j].Some? && senders[k].Some? :: senders[j].value != senders[k].value
  }

  function SentCount(senders: seq<Option<TrackId>>): nat {
    if senders == [] then 0
    else SentCount(senders[..|senders| - 1]) + if senders[|senders| - 1].Some? then 1 else 0
  }

  /** Everyone's tracks but one's own; an interaction of size 1 is a mirror. */
  function Wanted(index: SliceOwners, size: int, u: UserId): set<TrackId> {
    set t | t in index && (size == 1 || index[t] != u)
  }

  function Cleaned(env: PeerEnv, index: SliceOwners, senders: seq<Option<TrackId>>): seq<Option<TrackId>> {
    seq(|senders|, k requires 0 <= k < |senders| =>
      if senders[k].Some? && senders[k].value !in index && env.removeOk(k) then None else senders[k])
  }

  /** The tracks that should have been removed but could not be. */
  function Stuck(env: PeerEnv, index: SliceOwners, senders: seq<Option<TrackId>>): set<TrackId> {
    set k | 0 <= k < |senders| && senders[k].Some? && senders[k].value !in index && !env.removeOk(k) :: senders[k].value
  }

  function Appended(senders: seq<Option<TrackId>>, added: seq<TrackId>): seq<Option<TrackId>> {
    senders + seq(|added|, k requires 0 <= k < |added| => Some(added[k]))
  }

  ghost predicate Distinct(ts: seq<TrackId>) {
    forall j, k | 0 <= j < k < |ts| :: ts[j] != ts[k]
  }

  /** How far adding the missing tracks went: slices are visited in no given order, up to the first failure. */
  datatype Outcome = Outcome(added: seq<TrackId>, allAdded: bool)

  ghost predicate PossibleOutcome(env: PeerEnv, index: SliceOwners, size: int, u: UserId,
                                  senders: seq<Option<TrackId>>, o: Outcome)
  {
    var missing := Wanted(index, size, u) - Live(senders);
    && Distinct(o.added)
    && (forall t | t in o.added :: t in missing && env.addOk(t))
    && (o.allAdded ==> forall t | t in missing :: t in o.added)
    && (!o.allAdded ==> exists t :: t in missing && t !in o.added && !env.addOk(t))
  }

  /** Half-way through adding the missing tracks: `remaining` slices have not been visited. */
  ghost predicate Adding(env: PeerEnv, missing: set<TrackId>, added: seq<TrackId>, remaining: set<TrackId>) {
    && Distinct(added)
    && (forall t | t in added :: t in missing && env.addOk(t) && t !in remaining)
    && (forall t | t in missing :: t in added || t in remaining)
  }

  lemma AddOne(env: PeerEnv, missing: set<TrackId>, added: seq<TrackId>, remaining: set<TrackId>, t: TrackId)
    requires Adding(env, missing, added, remaining) && t in remaining && t in missing && env.addOk(t)
    ensures Adding(env, missing, added + [t], remaining - {t})
  {
    var more := added + [t];
    forall j, k | 0 <= j < k < |more| ensures more[j] != more[k] {
      assert more[j] in added;
    }
  }

  lemma SkipOne(env: PeerEnv, missing: set<TrackId>, added: seq<TrackId>, remaining: set<TrackId>, t: TrackId)
    requires Adding(env, missing, added, remaining) && t !in missing
    ensures Adding(env, missing, added, remaining - {t})
  {
  }

  /** Adding ends when all slices have been visited, or at a missing track that cannot be added. */
  lemma AddingEnds(env: PeerEnv, index: SliceOwners, size: int, u: UserId, senders: seq<Option<TrackId>>,
                   added: seq<TrackId>, remaining: set<TrackId>)
    requires Adding(env, Wanted(index, size, u) - Live(senders), added, remaining)
    ensures remaining == {} ==> PossibleOutcome(env, index, size, u, senders, Outcome(added, true))
    ensures (exists t :: t in remaining && t in Wanted(index, size, u) - Live(senders) && !env.addOk(t))
            ==> PossibleOutcome(env, index, size, u, senders, Outcome(added, false))
  {
  }

  lemma AppendedOne(senders: seq<Option<TrackId>>, added: seq<TrackId>, t: TrackId)
    ensures Appended(senders, added + [t]) == Appended(senders, added) + [Some(t)]
  {
  }

  /** Sharing an offer: only without a pending one. Once set locally it stays pending, even if it is never sent. */
  function Offered(env: PeerEnv, p: Peer): (Peer, bool) {
    if p.pending || !env.createOk || !env.setLocalOk then (p, false)
    else
      var described := p.(pending := true, offersSet := p.offersSet + 1);
      if env.marshalOk && env.sendOk then (described.(lastOffer := Some(Live(p.senders))), true) else (described, false)
  }

  /**
   The client has a new offer exactly when the call succeeds. A failure keeps the client's offer, and blocks every
   further call until an answer exactly when an offer was pending already or was set locally before failing.
   */
  lemma OfferOutcome(env: PeerEnv, p: Peer, later: PeerEnv)
    ensures var (q, ok) := Offered(env, p);
            && q.senders == p.senders
            && (ok <==> !p.pending && env.createOk && env.setLocalOk && env.marshalOk && env.sendOk)
            && (q.pending <==> p.pending || (env.createOk && env.setLocalOk))
            && (ok ==> !p.pending && q.pending && q.lastOffer == Some(Live(p.senders)))
            && (!ok ==> q.lastOffer == p.lastOffer)
            && (q.pending ==> !Offered(later, q).1 && Offered(later, q).0 == q)
            && (q.pending <==> p.pending || q.offersSet == p.offersSet + 1)
  {
  }

  function Reconciled(env: PeerEnv, index: SliceOwners, p: Peer, o: Outcome): Peer {
    p.(senders := Appended(Cleaned(env, index, p.senders), o.added))
  }

  function Updated(env: PeerEnv, index: SliceOwners, p: Peer, o: Outcome): (Peer, bool) {
    var reconciled := Reconciled(env, index, p, o);
    if o.allAdded then Offered(env, reconciled) else (reconciled, false)
  }

  /** An answer applies to a pending offer only. */
  function Answered(p: Peer, applies: bool): Peer {
    if p.pending && applies then p.(pending := false, answersApplied := p.answersApplied + 1) else p
  }

  /** An answer makes room for another offer exactly when it applies, and changes neither tracks nor the last offer. */
  lemma AnswerOutcome(env: PeerEnv, p: Peer, applies: bool)
    requires p.pending && env.createOk && env.setLocalOk && env.marshalOk && env.sendOk
    ensures var q := Answered(p, applies);
            && (Offered(env, q).1 <==> applies)
            && q.senders == p.senders && q.lastOffer == p.lastOffer && q.offersSet == p.offersSet
            && (!applies ==> q == p)
    ensures Answered(p.(pending := false), applies) == p.(pending := false)
  {
  }

  /** Sender by sender: only a track that is no longer indexed is taken off, and only if its removal succeeds. */
  lemma CleanedAt(env: PeerEnv, index: SliceOwners, senders: seq<Option<TrackId>>, k: nat)
    requires k < |senders|
    ensures var cleaned := Cleaned(env, index, senders);
            && |cleaned| == |senders|
            && (cleaned[k] != senders[k] <==> senders[k].Some? && senders[k].value !in index && env.removeOk(k))
            && (cleaned[k] != senders[k] ==> cleaned[k] == None)
  {
  }

  // When an update succeeds

  /**
   No offer is pending, the four calls of sharing one succeed, and every indexed track that is not the user's own (any,
   in a mirror) and not yet sent can be added.
   */
  ghost predicate WillSucceed(env: PeerEnv, index: SliceOwners, size: int, u: UserId, p: Peer) {
    && !p.pending && env.createOk && env.setLocalOk && env.marshalOk && env.sendOk
    && CanAdd(env, index, size, u, p.senders)
  }

  ghost predicate CanAdd(env: PeerEnv, index: SliceOwners, size: int, u: UserId, senders: seq<Option<TrackId>>) {
    forall t | t in index && t !in Live(senders) && (size == 1 || index[t] != u) :: env.addOk(t)
  }

  /** Adding completes exactly if each missing track can be added, in whatever order the slices are visited. */
  lemma AddingSucceedsIff(env: PeerEnv, index: SliceOwners, size: int, u: UserId, senders: seq<Option<TrackId>>,
                          o: Outcome)
    requires PossibleOutcome(env, index, size, u, senders, o)
    ensures o.allAdded <==> CanAdd(env, index, size, u, senders)
  {
  }

  lemma CleaningKeepsMissing(env: PeerEnv, index: SliceOwners, size: int, u: UserId, senders: seq<Option<TrackId>>)
    ensures CanAdd(env, index, size, u, Cleaned(env, index, senders)) <==> CanAdd(env, index, size, u, senders)
  {
    CleanedLive(env, index, senders);
    forall t | t in index ensures t in Live(Cleaned(env, index, senders)) <==> t in Live(senders) {}
  }

  /** An update that cannot add everything offers nothing. */
  lemma NothingOfferedUnlessAdded(env: PeerEnv, index: SliceOwners, size: int, u: UserId, p: Peer, o: Outcome)
    requires PossibleOutcome(env, index, size, u, Cleaned(env, index, p.senders), o)
    requires !CanAdd(env, index, size, u, p.senders)
    ensures Updated(env, index, p, o).0 == p.(senders := Updated(env, index, p, o).0.senders)
  {
    AddingSucceedsIff(env, index, size, u, Cleaned(env, index, p.senders), o);
    CleaningKeepsMissing(env, index, size, u, p.senders);
  }

  lemma UpdateSucceedsIff(env: PeerEnv, index: SliceOwners, size: int, u: UserId, p: Peer, o: Outcome)
    requires PossibleOutcome(env, index, size, u, Cleaned(env, index, p.senders), o)
    ensures Updated(env, index, p, o).1 <==> WillSucceed(env, index, size, u, p)
  {
    AddingSucceedsIff(env, index, size, u, Cleaned(env, index, p.senders), o);
    CleaningKeepsMissing(env, index, size, u, p.senders);
    OfferOutcome(env, Reconciled(env, index, p, o), env);
  }

  // One peer

  /** A peer never sends a track twice, nor its own tracks back to their user (except in a mirror). */
  ghost predicate PeerInv(index: SliceOwners, size: int, u: UserId, p: Peer) {
    && Once(p.senders)
    && (forall t | t in Live(p.senders) && t in index :: t in Wanted(index, size, u))
    && p.offersSet == p.answersApplied + if p.pending then 1 else 0
  }

  lemma LiveAt(senders: seq<Option<TrackId>>, k: nat)
    requires k < |senders| && senders[k].Some?
    ensures senders[k].value in Live(senders)
  {
  }

  /** Cleaning keeps every indexed track, and drops the others unless the removal failed. */
  lemma CleanedLive(env: PeerEnv, index: SliceOwners, senders: seq<Option<TrackId>>)
    ensures Live(Cleaned(env, index, senders)) == (Live(senders) * index.Keys) + Stuck(env, index, senders)
  {
    var cleaned := Cleaned(env, index, senders);
    forall t | t in Live(senders) * index.Keys ensures t in Live(cleaned) {
      var k :| 0 <= k < |senders| && senders[k].Some? && senders[k].value == t;
      LiveAt(cleaned, k);
    }
    forall t | t in Stuck(env, index, senders) ensures t in Live(cleaned) {
      var k :| 0 <= k < |senders| && senders[k].Some? && senders[k].value == t && t !in index && !env.removeOk(k);
      LiveAt(cleaned, k);
    }
    forall t | t in Live(cleaned) ensures t in (Live(senders) * index.Keys) + Stuck(env, index, senders) {
      var k :| 0 <= k < |cleaned| && cleaned[k].Some? && cleaned[k].value == t;
      LiveAt(senders, k);
    }
  }

  lemma AppendedLive(senders: seq<Option<TrackId>>, added: seq<TrackId>)
    ensures Live(Appended(senders, added)) == Live(senders) + set t | t in added
  {
    var all := Appended(senders, added);
    forall t | t in Live(senders) ensures t in Live(all) {
      var k :| 0 <= k < |senders| && senders[k].Some? && senders[k].value == t;
      LiveAt(all, k);
    }
    forall t | t in added ensures t in Live(all) {
      var k :| 0 <= k < |added| && added[k] == t;
      LiveAt(all, |senders| + k);
    }
  }

  lemma OnceIsKept(env: PeerEnv, index: SliceOwners, senders: seq<Option<TrackId>>, added: seq<TrackId>)
    requires Once(senders) && Distinct(added)
    requires forall t | t in added :: t !in Live(Cleaned(env, index, senders))
    ensures Once(Appended(Cleaned(env, index, senders), added))
  {
    var cleaned := Cleaned(env, index, senders);
    var all := Appended(cleaned, added);
    forall j, k | 0 <= j < k < |all| && all[j].Some? && all[k].Some? ensures all[j].value != all[k].value {
      if k >= |cleaned| && j < |cleaned| {
        LiveAt(cleaned, j);
        assert all[k].value in added;
      }
    }
  }

  /** Exactly what an update leaves on a connection whose missing tracks were all added. */
  lemma UpdateIsExact(env: PeerEnv, index: SliceOwners, size: int, u: UserId, p: Peer, o: Outcome)
    requires PeerInv(index, size, u, p)
    requires PossibleOutcome(env, index, size, u, Cleaned(env, index, p.senders), o)
    ensures PeerInv(index, size, u, Updated(env, index, p, o).0)
    ensures Live(Reconciled(env, index, p, o).senders)
         == (Live(p.senders) * index.Keys) + (set t | t in o.added) + Stuck(env, index, p.senders)
    ensures o.allAdded ==>
      Live(Reconciled(env, index, p, o).senders) == Wanted(index, size, u) + Stuck(env, index, p.senders)
  {
    CleanedLive(env, index, p.senders);
    AppendedLive(Cleaned(env, index, p.senders), o.added);
    OnceIsKept(env, index, p.senders, o.added);
    var live := Live(Reconciled(env, index, p, o).senders);
    forall t | t in live && t in index ensures t in Wanted(index, size, u) {}
    if o.allAdded {
      forall t | t in Wanted(index, size, u) ensures t in live {}
    }
  }

  /** A track sent once takes one sender. */
  lemma {:induction false} SentCountIsLive(senders: seq<Option<TrackId>>)
    requires Once(senders)
    ensures SentCount(senders) == |Live(senders)|
    decreases |senders|
  {
    if senders == [] {
      assert Live(senders) == {};
    } else {
      var front, last := senders[..|senders| - 1], senders[|senders| - 1];
      SentCountIsLive(front);
      assert senders == front + [last];
      LiveOfLast(front, last);
      if last.Some? {
        assert last.value !in Live(front);
      }
    }
  }

  lemma LiveOfLast(front: seq<Option<TrackId>>, last: Option<TrackId>)
    ensures Live(front + [last]) == Live(front) + if last.Some? then {last.value} else {}
  {
    var senders := front + [last];
    forall t | t in Live(front) ensures t in Live(senders) {
      var k :| 0 <= k < |front| && front[k].Some? && front[k].value == t;
      LiveAt(senders, k);
    }
    if last.Some? {
      LiveAt(senders, |front|);
    }
  }

  // The whole interaction

  datatype MixerState = MixerState(
    size: int,
    index: SliceOwners,
    peers: map<UserId, Peer>,
    receivers: set<(TrackId, UserId)>)  // a slice, and a user it has a sender controller for

  datatype Event =
    | Pass(envs: UserId -> PeerEnv, outcomes: map<UserId, Outcome>)
    | UpdateOne(u: UserId, env: PeerEnv, outcome: Outcome)  // a new peer server, once everyone is connected
    | ShareOffer(u: UserId, env: PeerEnv)                   // first offer, ICE restart, negotiation needed
    | Answer(u: UserId, applies: bool)
    | IndexSlice(t: TrackId, owner: UserId)
    | RemoveSlice(t: TrackId)
    | Connect(u: UserId, blankSenders: nat)
    | Disconnect(u: UserId)

  ghost predicate OutcomeFits(s: MixerState, env: PeerEnv, u: UserId, o: Outcome)
    requires u in s.peers
  {
    PossibleOutcome(env, s.index, s.size, u, Cleaned(env, s.index, s.peers[u].senders), o)
  }

  /** Whether a pass that reached peer `u` succeeded there. */
  function PeerOk(s: MixerState, env: PeerEnv, u: UserId, o: Outcome): bool
    requires u in s.peers
  {
    Updated(env, s.index, s.peers[u], o).1
  }

  ghost predicate Fits(s: MixerState, envs: UserId -> PeerEnv, outcomes: map<UserId, Outcome>) {
    && outcomes.Keys <= s.peers.Keys
    && (forall u | u in outcomes :: OutcomeFits(s, envs(u), u, outcomes[u]))
  }

  /** A pass visits peers in no given order, up to the first failure. */
  ghost predicate LegalPass(s: MixerState, envs: UserId -> PeerEnv, outcomes: map<UserId, Outcome>) {
    && Fits(s, envs, outcomes)
    && (forall u, v | u in outcomes && v in outcomes && u != v ::
          PeerOk(s, envs(u), u, outcomes[u]) || PeerOk(s, envs(v), v, outcomes[v]))
    && (PassOk(s, envs, outcomes) ==> outcomes.Keys == s.peers.Keys)
  }

  ghost predicate PassOk(s: MixerState, envs: UserId -> PeerEnv, outcomes: map<UserId, Outcome>)
    requires outcomes.Keys <= s.peers.Keys
  {
    forall u | u in outcomes :: PeerOk(s, envs(u), u, outcomes[u])
  }

  /**
   Whether a pass succeeds is settled before it starts, whatever the order of the peers: exactly if the update of each
   connected peer will.
   */
  lemma PassSucceedsIff(s: MixerState, envs: UserId -> PeerEnv, outcomes: map<UserId, Outcome>)
    requires LegalPass(s, envs, outcomes)
    ensures PassOk(s, envs, outcomes) <==> AllWillSucceed(s, envs)
  {
    forall u | u in outcomes
      ensures PeerOk(s, envs(u), u, outcomes[u]) <==> WillSucceed(envs(u), s.index, s.size, u, s.peers[u])
    {
      UpdateSucceedsIff(envs(u), s.index, s.size, u, s.peers[u], outcomes[u]);
    }
  }

  ghost predicate AllWillSucceed(s: MixerState, envs: UserId -> PeerEnv) {
    forall u | u in s.peers :: WillSucceed(envs(u), s.index, s.size, u, s.peers[u])
  }

  /**
   A pass that fails does so at one peer, whose update will not succeed. Every other one has been updated and offered
   its tracks, or is as it was.
   */
  lemma FailedPassStops(s: MixerState, envs: UserId -> PeerEnv, outcomes: map<UserId, Outcome>) returns (u: UserId)
    requires LegalPass(s, envs, outcomes) && !PassOk(s, envs, outcomes)
    ensures u in s.peers && !WillSucceed(envs(u), s.index, s.size, u, s.peers[u])
    ensures var after := AfterPass(s, envs, outcomes);
            && after.peers.Keys == s.peers.Keys
            && forall v | v in s.peers && v != u ::
                 after.peers[v] == s.peers[v]
                 || (WillSucceed(envs(v), s.index, s.size, v, s.peers[v]) && after.peers[v].pending
                     && after.peers[v].lastOffer == Some(Live(after.peers[v].senders)))
  {
    u :| u in outcomes && !PeerOk(s, envs(u), u, outcomes[u]);
    UpdateSucceedsIff(envs(u), s.index, s.size, u, s.peers[u], outcomes[u]);
    forall v | v in outcomes && v != u ensures WillSucceed(envs(v), s.index, s.size, v, s.peers[v]) {
      UpdateSucceedsIff(envs(v), s.index, s.size, v, s.peers[v], outcomes[v]);
    }
  }

  /** Where updates created a sender with exactly one encoding, the slice gets a controller for that user. */
  function NewReceivers(envs: UserId -> PeerEnv, outcomes: map<UserId, Outcome>): set<(TrackId, UserId)> {
    set u, t | u in outcomes && t in outcomes[u].added && envs(u).encodings(t) == 1 :: (t, u)
  }

  /** The same for one peer. */
  function Gained(env: PeerEnv, u: UserId, added: seq<TrackId>): set<(TrackId, UserId)> {
    set t | t in added && env.encodings(t) == 1 :: (t, u)
  }

  lemma GainedOne(env: PeerEnv, u: UserId, added: seq<TrackId>, t: TrackId)
    ensures Gained(env, u, []) == {}
    ensures Gained(env, u, added + [t]) == Gained(env, u, added) + Gained(env, u, [t])
  {
  }

  function AfterPass(s: MixerState, envs: UserId -> PeerEnv, outcomes: map<UserId, Outcome>): MixerState {
    var peers := map u | u in s.peers ::
      if u in outcomes then Updated(envs(u), s.index, s.peers[u], outcomes[u]).0 else s.peers[u];
    s.(peers := peers, receivers := s.receivers + NewReceivers(envs, outcomes))
  }

  function AfterUpdate(s: MixerState, u: UserId, env: PeerEnv, o: Outcome): MixerState
    requires u in s.peers
  {
    s.(peers := s.peers[u := Updated(env, s.index, s.peers[u], o).0],
       receivers := s.receivers + Gained(env, u, o.added))
  }

  /** Updating one peer is a pass that stops there. */
  lemma UpdateIsPass(s: MixerState, u: UserId, env: PeerEnv, o: Outcome)
    requires u in s.peers
    ensures AfterUpdate(s, u, env, o) == AfterPass(s, _ => env, map[u := o])
  {
    assert NewReceivers(_ => env, map[u := o]) == Gained(env, u, o.added);
    assert AfterUpdate(s, u, env, o).peers == AfterPass(s, _ => env, map[u := o]).peers;
  }

  lemma PassStart(s: MixerState, envs: UserId -> PeerEnv)
    ensures AfterPass(s, envs, map[]) == s
  {
    assert AfterPass(s, envs, map[]).peers == s.peers;
    assert NewReceivers(envs, map[]) == {};
  }

  /** Visiting one more peer extends the pass. */
  lemma PassAdvances(s: MixerState, envs: UserId -> PeerEnv, outcomes: map<UserId, Outcome>, u: UserId, o: Outcome)
    requires outcomes.Keys <= s.peers.Keys && u in s.peers && u !in outcomes
    ensures AfterPass(s, envs, outcomes).peers[u] == s.peers[u]
    ensures AfterUpdate(AfterPass(s, envs, outcomes), u, envs(u), o) == AfterPass(s, envs, outcomes[u := o])
  {
    assert NewReceivers(envs, outcomes[u := o]) == NewReceivers(envs, outcomes) + Gained(envs(u), u, o.added);
    assert AfterUpdate(AfterPass(s, envs, outcomes), u, envs(u), o).peers == AfterPass(s, envs, outcomes[u := o]).peers;
  }

  /** The next peer of a pass that succeeded so far decides whether it still does; a failure there ends it. */
  lemma PassDecides(s: MixerState, envs: UserId -> PeerEnv, outcomes: map<UserId, Outcome>, u: UserId, o: Outcome)
    requires Fits(s, envs, outcomes) && PassOk(s, envs, outcomes) && u in s.peers && u !in outcomes
    requires OutcomeFits(s, envs(u), u, o)
    ensures Fits(s, envs, outcomes[u := o])
    ensures PassOk(s, envs, outcomes[u := o]) == PeerOk(s, envs(u), u, o)
    ensures !PeerOk(s, envs(u), u, o) ==> LegalPass(s, envs, outcomes[u := o])
  {
    var more := outcomes[u := o];
    if PassOk(s, envs, more) {
      assert u in more && PeerOk(s, envs(u), u, more[u]);
    }
    if PeerOk(s, envs(u), u, o) {
      forall v | v in more ensures PeerOk(s, envs(v), v, more[v]) {
        if v != u { assert v in outcomes; }
      }
    }
  }

  /** What a pass from `s` that returned `ok` leaves. */
  ghost predicate PassResult(s: MixerState, envs: UserId -> PeerEnv, outcomes: map<UserId, Outcome>, ok: bool,
                             after: MixerState)
  {
    LegalPass(s, envs, outcomes) && ok == PassOk(s, envs, outcomes) && after == AfterPass(s, envs, outcomes)
  }

  /** A pass under way: `remaining` peers have not been visited, and the others succeeded. */
  ghost predicate Passing(s: MixerState, envs: UserId -> PeerEnv, outcomes: map<UserId, Outcome>,
                          remaining: set<UserId>, now: MixerState)
  {
    && Fits(s, envs, outcomes) && PassOk(s, envs, outcomes)
    && remaining == s.peers.Keys - outcomes.Keys
    && now == AfterPass(s, envs, outcomes)
  }

  lemma PassingBegins(s: MixerState, envs: UserId -> PeerEnv)
    ensures Passing(s, envs, map[], s.peers.Keys, s)
  {
    PassStart(s, envs);
  }

  lemma PassingEnds(s: MixerState, envs: UserId -> PeerEnv, outcomes: map<UserId, Outcome>, now: MixerState)
    requires Passing(s, envs, outcomes, {}, now)
    ensures PassResult(s, envs, outcomes, true, now)
  {
    assert s.peers.Keys == outcomes.Keys + (s.peers.Keys - outcomes.Keys);
  }

  lemma PassingContinues(s: MixerState, envs: UserId -> PeerEnv, outcomes: map<UserId, Outcome>, remaining: set<UserId>,
                         now: MixerState, u: UserId, o: Outcome)
    requires Passing(s, envs, outcomes, remaining, now) && u in remaining && OutcomeFits(now, envs(u), u, o)
    ensures var after := AfterUpdate(now, u, envs(u), o);
            if PeerOk(now, envs(u), u, o) then Passing(s, envs, outcomes[u := o], remaining - {u}, after)
            else PassResult(s, envs, outcomes[u := o], false, after)
  {
    PassAdvances(s, envs, outcomes, u, o);
    PassDecides(s, envs, outcomes, u, o);
  }

  /** Remote track ids are fresh: a new one is neither indexed nor sent anywhere. */
  ghost predicate Unused(s: MixerState, t: TrackId) {
    t !in s.index && forall u | u in s.peers :: t !in Live(s.peers[u].senders)
  }

  function ControllersOf(s: MixerState, t: TrackId): set<(TrackId, UserId)> {
    set r | r in s.receivers && r.0 == t
  }

  function WithSlice(s: MixerState, t: TrackId, owner: UserId): MixerState {
    s.(index := s.index[t := owner], receivers := s.receivers - ControllersOf(s, t))
  }

  ghost predicate Enabled(s: MixerState, e: Event) {
    match e
    case Pass(envs, outcomes) => LegalPass(s, envs, outcomes)
    case UpdateOne(u, env, o) => u in s.peers && OutcomeFits(s, env, u, o)
    case ShareOffer(u, env) => u in s.peers
    case Answer(u, applies) => u in s.peers
    case IndexSlice(t, owner) => Unused(s, t)
    case RemoveSlice(t) => true
    case Connect(u, blankSenders) => true
    case Disconnect(u) => true
  }

  ghost function Next(s: MixerState, e: Event): MixerState
    requires Enabled(s, e)
  {
    match e
    case Pass(envs, outcomes) => AfterPass(s, envs, outcomes)
    case UpdateOne(u, env, o) => AfterUpdate(s, u, env, o)
    case ShareOffer(u, env) => s.(peers := s.peers[u := Offered(env, s.peers[u]).0])
    case Answer(u, applies) => s.(peers := s.peers[u := Answered(s.peers[u], applies)])
    case IndexSlice(t, owner) => WithSlice(s, t, owner)
    case RemoveSlice(t) => s.(index := s.index - {t}, receivers := s.receivers - ControllersOf(s, t))
    case Connect(u, blankSenders) =>
      s.(peers := s.peers[u := Peer(seq(blankSenders, _ => None), false, 0, 0, None)])
    case Disconnect(u) => s.(peers := s.peers - {u})
  }

  /** A new connection sends nothing and has offered nothing, whatever an earlier one of its user did. */
  lemma ConnectStartsBlank(s: MixerState, u: UserId, blankSenders: nat, v: UserId)
    ensures var after := Next(s, Connect(u, blankSenders));
            && u in after.peers && |after.peers[u].senders| == blankSenders && Live(after.peers[u].senders) == {}
            && !after.peers[u].pending && after.peers[u].lastOffer == None
            && (v != u ==> (v in after.peers <==> v in s.peers) && (v in s.peers ==> after.peers[v] == s.peers[v]))
            && after.index == s.index && after.receivers == s.receivers
  {
  }

  ghost predicate Legal(s: MixerState, events: seq<Event>)
    decreases |events|
  {
    events == [] || (Enabled(s, events[0]) && Legal(Next(s, events[0]), events[1..]))
  }

  ghost function Run(s: MixerState, events: seq<Event>): MixerState
    requires Legal(s, events)
    decreases |events|
  {
    if events == [] then s else Run(Next(s, events[0]), events[1..])
  }

  function Initial(size: int): MixerState {
    MixerState(size, map[], map[], {})
  }

  ghost predicate Inv(s: MixerState) {
    forall u | u in s.peers :: PeerInv(s.index, s.size, u, s.peers[u])
  }

  lemma UpdatesKeepInv(s: MixerState, envs: UserId -> PeerEnv, outcomes: map<UserId, Outcome>)
    requires Inv(s) && Fits(s, envs, outcomes)
    ensures Inv(AfterPass(s, envs, outcomes))
  {
    forall u | u in outcomes ensures PeerInv(s.index, s.size, u, Updated(envs(u), s.index, s.peers[u], outcomes[u]).0) {
      UpdateIsExact(envs(u), s.index, s.size, u, s.peers[u], outcomes[u]);
    }
  }

  lemma EventKeepsInv(s: MixerState, e: Event)
    requires Inv(s) && Enabled(s, e)
    ensures Inv(Next(s, e))
  {
    match e
    case Pass(envs, outcomes) => UpdatesKeepInv(s, envs, outcomes);
    case UpdateOne(u, env, o) =>
      UpdateIsPass(s, u, env, o);
      UpdatesKeepInv(s, _ => env, map[u := o]);
    case Connect(u, blankSenders) =>
      assert Live(Next(s, e).peers[u].senders) == {};
    case _ =>
  }

  lemma {:induction false} RunKeepsInv(s: MixerState, events: seq<Event>)
    requires Inv(s) && Legal(s, events)
    ensures Inv(Run(s, events))
    decreases |events|
  {
    if events == [] {
    } else {
      EventKeepsInv(s, events[0]);
      RunKeepsInv(Next(s, events[0]), events[1..]);
    }
  }

  /** In every run, the offers a peer has set are the answers it has applied plus the one still pending, if any. */
  lemma AtMostOneOutstandingOffer(size: int, events: seq<Event>, u: UserId)
    requires Legal(Initial(size), events) && u in Run(Initial(size), events).peers
    ensures var p := Run(Initial(size), events).peers[u];
            p.offersSet == p.answersApplied + if p.pending then 1 else 0
  {
    RunKeepsInv(Initial(size), events);
  }

  ghost predicate RemovalsWork(s: MixerState, envs: UserId -> PeerEnv) {
    forall u | u in s.peers :: Stuck(envs(u), s.index, s.peers[u].senders) == {}
  }

  /**
   After a successful pass every peer sends exactly the tracks it should, plus those whose removal failed; each once;
   and the last offer it got lists exactly what it now sends.
   */
  lemma SuccessfulPassIsExact(s: MixerState, envs: UserId -> PeerEnv, outcomes: map<UserId, Outcome>, u: UserId)
    requires Inv(s) && LegalPass(s, envs, outcomes) && PassOk(s, envs, outcomes) && u in s.peers
    ensures var p := AfterPass(s, envs, outcomes).peers[u];
            && Live(p.senders) == Wanted(s.index, s.size, u) + Stuck(envs(u), s.index, s.peers[u].senders)
            && Once(p.senders)
            && p.lastOffer == Some(Live(p.senders)) && p.pending
            && (RemovalsWork(s, envs) ==> Live(p.senders) == Wanted(s.index, s.size, u))
  {
    UpdateIsExact(envs(u), s.index, s.size, u, s.peers[u], outcomes[u]);
  }

  lemma NothingToAdd(added: seq<TrackId>, missing: set<TrackId>)
    requires forall t | t in added :: t in missing
    ensures missing == {} ==> added == []
  {
    if added == [] {
    } else {
      assert added[0] in missing;
    }
  }

  /** A pass right after an exact one, whatever its outcome, adds and removes nothing. */
  lemma SecondPassChangesNoSender(s: MixerState, envs: UserId -> PeerEnv, outcomes: map<UserId, Outcome>, u: UserId)
    requires Inv(s) && LegalPass(s, envs, outcomes) && u in s.peers
    requires Live(s.peers[u].senders) == Wanted(s.index, s.size, u)
    ensures AfterPass(s, envs, outcomes).peers[u].senders == s.peers[u].senders
  {
    if u in outcomes {
      var p := s.peers[u];
      var cleaned := Cleaned(envs(u), s.index, p.senders);
      forall k | 0 <= k < |p.senders| ensures cleaned[k] == p.senders[k] {
        if p.senders[k].Some? { LiveAt(p.senders, k); }
      }
      assert cleaned == p.senders;
      NothingToAdd(outcomes[u].added, Wanted(s.index, s.size, u) - Live(cleaned));
      assert Appended(cleaned, outcomes[u].added) == p.senders;
    }
  }

  // Retries

  function MissingPairs(s: MixerState): set<(UserId, TrackId)> {
    set u, t | u in s.peers && t in Wanted(s.index, s.size, u) && t !in Live(s.peers[u].senders) :: (u, t)
  }

  /** Between retries nothing is indexed, removed, connected or disconnected. */
  ghost predicate RetryPhase(events: seq<Event>) {
    forall k | 0 <= k < |events| ::
      events[k].Pass? || events[k].UpdateOne? || events[k].Answer? || events[k].ShareOffer?
  }

  /** `t` keeps everything wanted that `s` sends, with the same peers and slices. */
  ghost predicate Advances(s: MixerState, t: MixerState) {
    && t.size == s.size && t.index == s.index && t.peers.Keys == s.peers.Keys
    && (forall u | u in s.peers :: Live(s.peers[u].senders) * s.index.Keys <= Live(t.peers[u].senders))
    && (forall u | u in s.peers :: Live(t.peers[u].senders) - s.index.Keys <= Live(s.peers[u].senders))
  }

  lemma UpdatesAdvance(s: MixerState, envs: UserId -> PeerEnv, outcomes: map<UserId, Outcome>)
    requires Inv(s) && Fits(s, envs, outcomes)
    ensures Advances(s, AfterPass(s, envs, outcomes))
  {
    var after := AfterPass(s, envs, outcomes);
    forall u | u in s.peers
      ensures Live(s.peers[u].senders) * s.index.Keys <= Live(after.peers[u].senders)
      ensures Live(after.peers[u].senders) - s.index.Keys <= Live(s.peers[u].senders)
    {
      if u in outcomes {
        UpdateAdvances(envs(u), s.index, s.size, u, s.peers[u], outcomes[u]);
      }
    }
  }

  lemma UpdateAdvances(env: PeerEnv, index: SliceOwners, size: int, u: UserId, p: Peer, o: Outcome)
    requires PeerInv(index, size, u, p)
    requires PossibleOutcome(env, index, size, u, Cleaned(env, index, p.senders), o)
    ensures var after := Updated(env, index, p, o).0;
            && Live(p.senders) * index.Keys <= Live(after.senders)
            && Live(after.senders) - index.Keys <= Live(p.senders)
  {
    UpdateIsExact(env, index, size, u, p, o);
  }

  lemma EventAdvances(s: MixerState, e: Event)
    requires Inv(s) && Enabled(s, e)
    requires e.Pass? || e.UpdateOne? || e.Answer? || e.ShareOffer?
    ensures Advances(s, Next(s, e))
  {
    match e
    case Pass(envs, outcomes) => UpdatesAdvance(s, envs, outcomes);
    case UpdateOne(u, env, o) =>
      UpdateIsPass(s, u, env, o);
      UpdatesAdvance(s, _ => env, map[u := o]);
    case _ =>
  }

  lemma {:induction false} RetriesAdvance(s: MixerState, events: seq<Event>)
    requires Inv(s) && Legal(s, events) && RetryPhase(events)
    ensures Inv(Run(s, events)) && Advances(s, Run(s, events))
    decreases |events|
  {
    if events == [] {
    } else {
      EventAdvances(s, events[0]);
      EventKeepsInv(s, events[0]);
      RetriesAdvance(Next(s, events[0]), events[1..]);
    }
  }

  /** Failed passes, answers and renegotiations never remove a wanted track, so what is missing only shrinks. */
  lemma MissingNeverGrows(s: MixerState, events: seq<Event>)
    requires Inv(s) && Legal(s, events) && RetryPhase(events)
    ensures MissingPairs(Run(s, events)) <= MissingPairs(s)
    ensures |MissingPairs(Run(s, events))| <= |MissingPairs(s)|
    ensures Run(s, events).peers.Keys == s.peers.Keys
    ensures forall u, t | u in s.peers && t in Wanted(s.index, s.size, u) && t in Live(s.peers[u].senders) ::
              t in Live(Run(s, events).peers[u].senders)
  {
    RetriesAdvance(s, events);
    SubsetCardinality(MissingPairs(Run(s, events)), MissingPairs(s));
  }

  lemma {:induction false} SubsetCardinality<T>(a: set<T>, b: set<T>)
    requires a <= b
    ensures |a| <= |b|
    decreases a
  {
    if a == {} {
    } else {
      var x :| x in a;
      SubsetCardinality(a - {x}, b - {x});
    }
  }

  /**
   However many passes fail first, the first one that succeeds leaves the same tracks as a pass that would have
   succeeded at once.
   */
  lemma RetriesConverge(s: MixerState, retries: seq<Event>, envs: UserId -> PeerEnv, outcomes: map<UserId, Outcome>,
                        atOnce: UserId -> PeerEnv, atOnceOutcomes: map<UserId, Outcome>, u: UserId)
    requires Inv(s) && Legal(s, retries) && RetryPhase(retries) && u in s.peers
    requires var late := Run(s, retries);
             LegalPass(late, envs, outcomes) && PassOk(late, envs, outcomes) && RemovalsWork(late, envs)
    requires LegalPass(s, atOnce, atOnceOutcomes) && PassOk(s, atOnce, atOnceOutcomes) && RemovalsWork(s, atOnce)
    ensures Run(s, retries).peers.Keys == s.peers.Keys
    ensures Live(AfterPass(Run(s, retries), envs, outcomes).peers[u].senders)
         == Live(AfterPass(s, atOnce, atOnceOutcomes).peers[u].senders)
  {
    RetriesAdvance(s, retries);
    SuccessfulPassIsExact(Run(s, retries), envs, outcomes, u);
    SuccessfulPassIsExact(s, atOnce, atOnceOutcomes, u);
  }

  /** A pass that fails after adding something makes progress: strictly fewer tracks are missing. */
  lemma FailedPassMakesProgress(s: MixerState, envs: UserId -> PeerEnv, outcomes: map<UserId, Outcome>, u: UserId)
    requires Inv(s) && Fits(s, envs, outcomes) && u in outcomes && outcomes[u].added != []
    ensures |MissingPairs(AfterPass(s, envs, outcomes))| < |MissingPairs(s)|
  {
    UpdatesAdvance(s, envs, outcomes);
    AddedWasMissing(s, envs, outcomes, u);
    var t := outcomes[u].added[0];
    var before, after := MissingPairs(s), MissingPairs(AfterPass(s, envs, outcomes));
    assert (u, t) in before && (u, t) !in after;
    assert after <= before - {(u, t)};
    SubsetCardinality(after, before - {(u, t)});
  }

  lemma AddedWasMissing(s: MixerState, envs: UserId -> PeerEnv, outcomes: map<UserId, Outcome>, u: UserId)
    requires Inv(s) && Fits(s, envs, outcomes) && u in outcomes && outcomes[u].added != []
    ensures var t := outcomes[u].added[0];
            && t in Wanted(s.index, s.size, u) && t !in Live(s.peers[u].senders)
            && t in Live(AfterPass(s, envs, outcomes).peers[u].senders)
  {
    UpdateIsExact(envs(u), s.index, s.size, u, s.peers[u], outcomes[u]);
    CleanedLive(envs(u), s.index, s.peers[u].senders);
    assert outcomes[u].added[0] in outcomes[u].added;
  }

  /** A pass, or an update of one peer, that added something. */
  ghost predicate Adds(e: Event) {
    match e
    case Pass(envs, outcomes) => exists u :: u in outcomes && outcomes[u].added != []
    case UpdateOne(u, env, o) => o.added != []
    case _ => false
  }

  ghost function AddingEvents(events: seq<Event>): nat {
    if events == [] then 0 else AddingEvents(events[1..]) + if Adds(events[0]) then 1 else 0
  }

  lemma AddingMakesProgress(s: MixerState, e: Event)
    requires Inv(s) && Enabled(s, e) && Adds(e)
    ensures |MissingPairs(Next(s, e))| < |MissingPairs(s)|
  {
    match e
    case Pass(envs, outcomes) =>
      var u :| u in outcomes && outcomes[u].added != [];
      FailedPassMakesProgress(s, envs, outcomes, u);
    case UpdateOne(u, env, o) =>
      UpdateIsPass(s, u, env, o);
      FailedPassMakesProgress(s, _ => env, map[u := o], u);
  }

  /**
   Over any run of retries, the passes and updates that added something, and the tracks still missing at the end, are
   together no more than the tracks missing at the start: progress ends after that many.
   */
  lemma {:induction false} ProgressIsBounded(s: MixerState, events: seq<Event>)
    requires Inv(s) && Legal(s, events) && RetryPhase(events)
    ensures AddingEvents(events) + |MissingPairs(Run(s, events))| <= |MissingPairs(s)|
    decreases |events|
  {
    if events == [] {
    } else {
      if Adds(events[0]) {
        AddingMakesProgress(s, events[0]);
      } else {
        assert RetryPhase([events[0]]);
        OneRetryNeverLoses(s, events[0]);
      }
      EventKeepsInv(s, events[0]);
      assert RetryPhase(events[1..]) by {
        forall k | 0 <= k < |events| - 1 ensures events[1..][k] == events[k + 1] {}
      }
      ProgressIsBounded(Next(s, events[0]), events[1..]);
    }
  }

  lemma OneRetryNeverLoses(s: MixerState, e: Event)
    requires Inv(s) && Enabled(s, e) && RetryPhase([e])
    ensures |MissingPairs(Next(s, e))| <= |MissingPairs(s)|
  {
    assert [e][0] == e;
    EventAdvances(s, e);
    SubsetCardinality(MissingPairs(Next(s, e)), MissingPairs(s));
  }

  ghost predicate NoAnswerFrom(events: seq<Event>, u: UserId) {
    forall k | 0 <= k < |events| ::
      match events[k]
      case Answer(v, applies) => v != u || !applies
      case Connect(v, _) => v != u
      case Disconnect(v) => v != u
      case _ => true
  }

  lemma {:induction false} PendingStays(s: MixerState, events: seq<Event>, u: UserId)
    requires Legal(s, events) && NoAnswerFrom(events, u) && u in s.peers && s.peers[u].pending
    ensures u in Run(s, events).peers && Run(s, events).peers[u].pending
    ensures Run(s, events).peers[u].lastOffer == s.peers[u].lastOffer
    decreases |events|
  {
    if events == [] {
    } else {
      assert NoAnswerFrom(events[1..], u) by {
        forall k | 0 <= k < |events| - 1 ensures events[1..][k] == events[k + 1] {}
      }
      PendingStays(Next(s, events[0]), events[1..], u);
    }
  }

  /** One connected client that does not answer (or never got its offer) makes every later pass fail. */
  lemma UnansweredOfferBlocksEveryPass(s: MixerState, events: seq<Event>, u: UserId,
                                       envs: UserId -> PeerEnv, outcomes: map<UserId, Outcome>)
    requires Legal(s, events) && NoAnswerFrom(events, u) && u in s.peers && s.peers[u].pending
    requires LegalPass(Run(s, events), envs, outcomes)
    ensures !PassOk(Run(s, events), envs, outcomes)
  {
    PendingStays(s, events, u);
    var late := Run(s, events);
    if u in outcomes {
      assert !PeerOk(late, envs(u), u, outcomes[u]);
    }
  }

  // Fan-out

  ghost predicate OneEncoding(env: PeerEnv) {
    forall t :: env.encodings(t) == 1
  }

  ghost predicate EventOneEncoding(e: Event) {
    match e
    case Pass(envs, outcomes) => forall u | u in outcomes :: OneEncoding(envs(u))
    case UpdateOne(u, env, o) => OneEncoding(env)
    case _ => true
  }

  ghost predicate AllOneEncoding(events: seq<Event>) {
    forall k | 0 <= k < |events| :: EventOneEncoding(events[k])
  }

  /** Every indexed track that a peer sends has a sender controller for that peer. */
  ghost predicate Controlled(s: MixerState) {
    forall u, t | u in s.peers && t in Live(s.peers[u].senders) && t in s.index :: (t, u) in s.receivers
  }

  lemma UpdatesKeepControlled(s: MixerState, envs: UserId -> PeerEnv, outcomes: map<UserId, Outcome>)
    requires Inv(s) && Controlled(s) && Fits(s, envs, outcomes)
    requires forall u | u in outcomes :: OneEncoding(envs(u))
    ensures Controlled(AfterPass(s, envs, outcomes))
  {
    var after := AfterPass(s, envs, outcomes);
    forall u, t | u in after.peers && t in Live(after.peers[u].senders) && t in s.index
      ensures (t, u) in after.receivers
    {
      if u in outcomes && t !in Live(s.peers[u].senders) {
        UpdateAddsOnly(envs(u), s.index, s.size, u, s.peers[u], outcomes[u], t);
        assert (t, u) in NewReceivers(envs, outcomes);
      }
    }
  }

  /** An indexed track that was not sent before an update and is sent after it was added by that update. */
  lemma UpdateAddsOnly(env: PeerEnv, index: SliceOwners, size: int, u: UserId, p: Peer, o: Outcome, t: TrackId)
    requires PeerInv(index, size, u, p)
    requires PossibleOutcome(env, index, size, u, Cleaned(env, index, p.senders), o)
    requires t in index && t in Live(Updated(env, index, p, o).0.senders) && t !in Live(p.senders)
    ensures t in o.added
  {
    UpdateIsExact(env, index, size, u, p, o);
  }

  /** A pass gives a slice a controller for a user exactly if it added the slice's track there on one encoding. */
  lemma PassControls(s: MixerState, envs: UserId -> PeerEnv, outcomes: map<UserId, Outcome>, t: TrackId, u: UserId)
    requires Inv(s) && Fits(s, envs, outcomes) && (t, u) !in s.receivers && u in s.peers && t in s.index
    requires t !in Live(s.peers[u].senders)
    ensures (t, u) in AfterPass(s, envs, outcomes).receivers
            <==> t in Live(AfterPass(s, envs, outcomes).peers[u].senders) && envs(u).encodings(t) == 1
  {
    var after := AfterPass(s, envs, outcomes);
    if u in outcomes {
      UpdateAdds(envs(u), s.index, s.size, u, s.peers[u], outcomes[u], t);
      assert (t, u) in NewReceivers(envs, outcomes) <==> t in outcomes[u].added && envs(u).encodings(t) == 1;
    } else {
      assert after.peers[u] == s.peers[u] && (t, u) !in NewReceivers(envs, outcomes);
    }
  }

  lemma UpdateAdds(env: PeerEnv, index: SliceOwners, size: int, u: UserId, p: Peer, o: Outcome, t: TrackId)
    requires PeerInv(index, size, u, p)
    requires PossibleOutcome(env, index, size, u, Cleaned(env, index, p.senders), o)
    requires t in index && t !in Live(p.senders)
    ensures t in Live(Updated(env, index, p, o).0.senders) <==> t in o.added
  {
    UpdateIsExact(env, index, size, u, p, o);
  }

  lemma EventKeepsControlled(s: MixerState, e: Event)
    requires Inv(s) && Controlled(s) && Enabled(s, e) && EventOneEncoding(e)
    ensures Controlled(Next(s, e))
  {
    match e
    case Pass(envs, outcomes) => UpdatesKeepControlled(s, envs, outcomes);
    case UpdateOne(u, env, o) =>
      UpdateIsPass(s, u, env, o);
      UpdatesKeepControlled(s, _ => env, map[u := o]);
    case Connect(u, blankSenders) =>
      assert Live(Next(s, e).peers[u].senders) == {};
    case _ =>
  }

  lemma {:induction false} RunKeepsControlled(s: MixerState, events: seq<Event>)
    requires Inv(s) && Controlled(s) && Legal(s, events) && AllOneEncoding(events)
    ensures Controlled(Run(s, events)) && Inv(Run(s, events))
    decreases |events|
  {
    if events == [] {
    } else {
      EventKeepsControlled(s, events[0]);
      EventKeepsInv(s, events[0]);
      RunKeepsControlled(Next(s, events[0]), events[1..]);
    }
  }

  /** Each of `users` has exactly `k` indexed slices, and nobody else has any. */
  ghost predicate SlicesPerUser(index: SliceOwners, users: set<UserId>, k: nat) {
    && OwnedWithin(index.Keys, index, users)
    && forall v | v in users :: |Fiber(index.Keys, index, v)| == k
  }

  lemma WantedCount(index: SliceOwners, size: int, users: set<UserId>, k: nat, u: UserId)
    requires SlicesPerUser(index, users, k) && u in users
    ensures |Wanted(index, size, u)| == if size == 1 then k * |users| else k * (|users| - 1)
  {
    FibersExactly(index.Keys, index, users, k);
    if size == 1 {
      assert Wanted(index, size, u) == index.Keys;
    } else {
      assert Wanted(index, size, u) == index.Keys - Fiber(index.Keys, index, u);
      Distribute(k, |users| - 1);
    }
  }

  /** `u` is sent `k` tracks of each of the n-1 other users (of all n in a mirror), and each such slice controls it. */
  ghost predicate ReceivesFrom(s: MixerState, u: UserId, n: int, k: nat) {
    && u in s.peers
    && SentCount(s.peers[u].senders) == (if s.size == 1 then k * n else k * (n - 1))
    && forall t | t in Wanted(s.index, s.size, u) ::
         t in Live(s.peers[u].senders) && (t, u) in s.receivers
  }

  lemma ReachableIsControlled(size: int, events: seq<Event>)
    requires Legal(Initial(size), events) && AllOneEncoding(events)
    ensures var s := Run(Initial(size), events); Inv(s) && Controlled(s) && s.size == size
  {
    RunKeepsControlled(Initial(size), events);
    RunKeepsSize(Initial(size), events);
  }

  /** The same for one pass, `k` slices a user, and users who may not all be connected. */
  lemma PassFansOut(s: MixerState, envs: UserId -> PeerEnv, outcomes: map<UserId, Outcome>,
                    users: set<UserId>, k: nat, u: UserId)
    requires Inv(s) && Controlled(s) && SlicesPerUser(s.index, users, k) && u in users && u in s.peers
    requires LegalPass(s, envs, outcomes) && PassOk(s, envs, outcomes) && RemovalsWork(s, envs)
    requires EventOneEncoding(Pass(envs, outcomes))
    ensures ReceivesFrom(AfterPass(s, envs, outcomes), u, |users|, k)
  {
    UpdatesKeepControlled(s, envs, outcomes);
    SuccessfulPassIsExact(s, envs, outcomes, u);
    SentCountIsLive(AfterPass(s, envs, outcomes).peers[u].senders);
    WantedCount(s.index, s.size, users, k, u);
  }

  lemma {:induction false} RunKeepsSize(s: MixerState, events: seq<Event>)
    requires Legal(s, events)
    ensures Run(s, events).size == s.size
    decreases |events|
  {
    if events == [] {
    } else {
      RunKeepsSize(Next(s, events[0]), events[1..]);
    }
  }

  /**
   Fan-out over whole runs: from any reachable state in which each of the n connected users has one audio and one video
   slice indexed, a successful pass leaves every peer with exactly 2(n-1) sent tracks, each on one sender, and every
   slice with a controller for every peer it goes to. In a mirror (size 1) the single peer gets its own 2 tracks.
   */
  lemma FanOut(size: int, events: seq<Event>, s: MixerState, envs: UserId -> PeerEnv, outcomes: map<UserId, Outcome>,
               u: UserId)
    requires Legal(Initial(size), events) && AllOneEncoding(events) && s == Run(Initial(size), events)
    requires SlicesPerUser(s.index, s.peers.Keys, 2) && u in s.peers
    requires LegalPass(s, envs, outcomes) && PassOk(s, envs, outcomes) && RemovalsWork(s, envs)
    requires EventOneEncoding(Pass(envs, outcomes))
    ensures ReceivesFrom(AfterPass(s, envs, outcomes), u, |s.peers|, 2)
  {
    ReachableIsControlled(size, events);
    PassFansOut(s, envs, outcomes, s.peers.Keys, 2, u);
  }

  // Passes that can succeed

  const ALL_WELL := PeerEnv(_ => true, _ => true, _ => 1, _ => 0, true, true, true, true)
  const NO_FAILURE: UserId -> PeerEnv := _ => ALL_WELL

  ghost function SeqOf(ts: set<TrackId>): (r: seq<TrackId>)
    ensures Distinct(r) && forall t :: t in r <==> t in ts
    decreases ts
  {
    if ts == {} then []
    else
      var t :| t in ts;
      [t] + SeqOf(ts - {t})
  }

  /** Everything missing on one connection is added. */
  ghost function AllAdded(s: MixerState, u: UserId): Outcome
    requires u in s.peers
  {
    Outcome(SeqOf(Wanted(s.index, s.size, u) - Live(Cleaned(ALL_WELL, s.index, s.peers[u].senders))), true)
  }

  ghost predicate CanSucceed(s: MixerState) {
    exists envs, outcomes :: LegalPass(s, envs, outcomes) && PassOk(s, envs, outcomes)
  }

  lemma WithoutFailure(s: MixerState) returns (outcomes: map<UserId, Outcome>)
    requires forall u | u in s.peers :: !s.peers[u].pending
    ensures LegalPass(s, NO_FAILURE, outcomes) && PassOk(s, NO_FAILURE, outcomes) && RemovalsWork(s, NO_FAILURE)
    ensures EventOneEncoding(Pass(NO_FAILURE, outcomes))
  {
    outcomes := map u | u in s.peers :: AllAdded(s, u);
    forall u | u in s.peers ensures OutcomeFits(s, ALL_WELL, u, outcomes[u]) && PeerOk(s, ALL_WELL, u, outcomes[u]) {}
  }

  /** A pass can succeed if and only if no connected peer has an unanswered offer. */
  lemma CanSucceedIff(s: MixerState)
    ensures CanSucceed(s) <==> forall u | u in s.peers :: !s.peers[u].pending
  {
    if forall u | u in s.peers :: !s.peers[u].pending {
      var outcomes := WithoutFailure(s);
      assert LegalPass(s, NO_FAILURE, outcomes) && PassOk(s, NO_FAILURE, outcomes);
    }
    forall envs, outcomes, u | LegalPass(s, envs, outcomes) && PassOk(s, envs, outcomes) && u in s.peers
      ensures !s.peers[u].pending
    {
      assert PeerOk(s, envs(u), u, outcomes[u]);
    }
  }

  ghost predicate OnlyAnswers(events: seq<Event>) {
    forall k | 0 <= k < |events| :: events[k].Answer?
  }

  lemma RunCons(s: MixerState, e: Event, rest: seq<Event>)
    requires Enabled(s, e) && Legal(Next(s, e), rest)
    ensures Legal(s, [e] + rest) && Run(s, [e] + rest) == Run(Next(s, e), rest)
  {
    assert ([e] + rest)[1..] == rest;
  }

  ghost predicate Settled(s: MixerState, t: MixerState) {
    t.index == s.index && t.peers.Keys == s.peers.Keys && forall u | u in t.peers :: !t.peers[u].pending
  }

  lemma AnswerSettlesOne(s: MixerState, waiting: set<UserId>, u: UserId)
    requires u in waiting && waiting <= s.peers.Keys
    requires forall v | v in s.peers && v !in waiting :: !s.peers[v].pending
    ensures var next := Next(s, Answer(u, true));
            && next.index == s.index && next.peers.Keys == s.peers.Keys
            && forall v | v in next.peers && v !in waiting - {u} :: !next.peers[v].pending
  {
  }

  lemma {:induction false} AnswersSettle(s: MixerState, waiting: set<UserId>) returns (events: seq<Event>)
    requires waiting <= s.peers.Keys
    requires forall u | u in s.peers && u !in waiting :: !s.peers[u].pending
    ensures Legal(s, events) && OnlyAnswers(events) && Settled(s, Run(s, events))
    decreases waiting
  {
    if waiting == {} {
      events := [];
    } else {
      var u :| u in waiting;
      AnswerSettlesOne(s, waiting, u);
      var rest := AnswersSettle(Next(s, Answer(u, true)), waiting - {u});
      RunCons(s, Answer(u, true), rest);
      events := [Answer(u, true)] + rest;
    }
  }

  /** From any state, the clients' answers are enough for a pass to be able to succeed. */
  lemma AnswersUnblock(s: MixerState) returns (events: seq<Event>)
    ensures Legal(s, events) && OnlyAnswers(events) && CanSucceed(Run(s, events))
    ensures Run(s, events).index == s.index && Run(s, events).peers.Keys == s.peers.Keys
  {
    events := AnswersSettle(s, s.peers.Keys);
    CanSucceedIff(Run(s, events));
  }

  // The premises of `FanOut` can be met: by a mirror, and by two users

  lemma Extend(size: int, s: MixerState, events: seq<Event>, e: Event) returns (t: MixerState, more: seq<Event>)
    requires Legal(Initial(size), events) && s == Run(Initial(size), events) && AllOneEncoding(events)
    requires Enabled(s, e) && EventOneEncoding(e)
    ensures t == Next(s, e) && more == events + [e]
    ensures Legal(Initial(size), more) && t == Run(Initial(size), more) && AllOneEncoding(more)
  {
    RunSnoc(Initial(size), events, e);
    t, more := Next(s, e), events + [e];
  }

  lemma {:induction false} RunSnoc(s: MixerState, events: seq<Event>, e: Event)
    requires Legal(s, events) && Enabled(Run(s, events), e)
    ensures Legal(s, events + [e]) && Run(s, events + [e]) == Next(Run(s, events), e)
    decreases |events|
  {
    if events == [] {
      assert [e][1..] == [];
    } else {
      assert (events + [e])[1..] == events[1..] + [e];
      RunSnoc(Next(s, events[0]), events[1..], e);
    }
  }

  /** No peer has been sent anything yet, nor offered anything. */
  ghost predicate Quiet(s: MixerState, index: SliceOwners, users: set<UserId>) {
    && s.index == index && s.peers.Keys == users
    && forall u | u in s.peers :: s.peers[u] == Peer([], false, 0, 0, None)
  }

  lemma Arrives(size: int, s: MixerState, events: seq<Event>, u: UserId, index: SliceOwners, users: set<UserId>)
    returns (t: MixerState, more: seq<Event>)
    requires Legal(Initial(size), events) && s == Run(Initial(size), events) && AllOneEncoding(events)
    requires Quiet(s, index, users)
    ensures Legal(Initial(size), more) && t == Run(Initial(size), more) && AllOneEncoding(more)
    ensures Quiet(t, index, users + {u})
  {
    t, more := Extend(size, s, events, Connect(u, 0));
    assert t.peers[u].senders == [];
  }

  lemma Indexes(size: int, s: MixerState, events: seq<Event>, t: TrackId, u: UserId, index: SliceOwners,
                users: set<UserId>)
    returns (after: MixerState, more: seq<Event>)
    requires Legal(Initial(size), events) && s == Run(Initial(size), events) && AllOneEncoding(events)
    requires Quiet(s, index, users) && t !in index
    ensures Legal(Initial(size), more) && after == Run(Initial(size), more) && AllOneEncoding(more)
    ensures Quiet(after, index[t := u], users)
  {
    after, more := Extend(size, s, events, IndexSlice(t, u));
  }

  /** One connection with an unanswered offer is enough: a reachable state in which no pass can succeed. */
  lemma BlockedAtOnce(u: UserId) returns (s: MixerState, events: seq<Event>)
    ensures Legal(Initial(2), events) && s == Run(Initial(2), events) && u in s.peers && !CanSucceed(s)
  {
    s, events := Arrives(2, Initial(2), [], u, map[], {});
    s, events := Extend(2, s, events, ShareOffer(u, ALL_WELL));
    CanSucceedIff(s);
  }

  lemma MirrorIndexed(u: UserId, a: TrackId, v: TrackId) returns (s: MixerState, events: seq<Event>)
    requires a != v
    ensures Legal(Initial(1), events) && AllOneEncoding(events) && s == Run(Initial(1), events)
    ensures Quiet(s, map[a := u, v := u], {u})
  {
    s, events := Arrives(1, Initial(1), [], u, map[], {});
    s, events := Indexes(1, s, events, a, u, map[], {u});
    s, events := Indexes(1, s, events, v, u, map[a := u], {u});
  }

  /** A user with two slices in a mirror is sent exactly her own. */
  lemma MirrorFansOut(u: UserId, a: TrackId, v: TrackId)
    returns (s: MixerState, events: seq<Event>, outcomes: map<UserId, Outcome>)
    requires a != v
    ensures Legal(Initial(1), events) && AllOneEncoding(events) && s == Run(Initial(1), events)
    ensures LegalPass(s, NO_FAILURE, outcomes) && PassOk(s, NO_FAILURE, outcomes)
    ensures s.peers.Keys == {u} && ReceivesFrom(AfterPass(s, NO_FAILURE, outcomes), u, 1, 2)
  {
    s, events := MirrorIndexed(u, a, v);
    assert Fiber(s.index.Keys, s.index, u) == {a, v};
    assert |s.peers| == |s.peers.Keys| == 1;
    outcomes := WithoutFailure(s);
    FanOut(1, events, s, NO_FAILURE, outcomes, u);
  }

  lemma TwoUsersHalfIndexed(x: UserId, y: UserId, ax: TrackId, vx: TrackId)
    returns (s: MixerState, events: seq<Event>)
    requires x != y && ax != vx
    ensures Legal(Initial(2), events) && AllOneEncoding(events) && s == Run(Initial(2), events)
    ensures Quiet(s, map[ax := x, vx := x], {x, y})
  {
    s, events := Arrives(2, Initial(2), [], x, map[], {});
    s, events := Arrives(2, s, events, y, map[], {x});
    s, events := Indexes(2, s, events, ax, x, map[], {x, y});
    s, events := Indexes(2, s, events, vx, x, map[ax := x], {x, y});
  }

  lemma TwoUsersIndexed(x: UserId, y: UserId, ax: TrackId, vx: TrackId, ay: TrackId, vy: TrackId)
    returns (s: MixerState, events: seq<Event>)
    requires x != y && ax != vx && ax != ay && ax != vy && vx != ay && vx != vy && ay != vy
    ensures Legal(Initial(2), events) && AllOneEncoding(events) && s == Run(Initial(2), events)
    ensures Quiet(s, map[ax := x, vx := x, ay := y, vy := y], {x, y})
  {
    s, events := TwoUsersHalfIndexed(x, y, ax, vx);
    s, events := Indexes(2, s, events, ay, y, map[ax := x, vx := x], {x, y});
    s, events := Indexes(2, s, events, vy, y, map[ax := x, vx := x, ay := y], {x, y});
  }

  /** Two users with two slices each are sent the other's two. */
  lemma TwoUsersFanOut(x: UserId, y: UserId, ax: TrackId, vx: TrackId, ay: TrackId, vy: TrackId)
    returns (s: MixerState, events: seq<Event>, outcomes: map<UserId, Outcome>)
    requires x != y && ax != vx && ax != ay && ax != vy && vx != ay && vx != vy && ay != vy
    ensures Legal(Initial(2), events) && AllOneEncoding(events) && s == Run(Initial(2), events)
    ensures LegalPass(s, NO_FAILURE, outcomes) && PassOk(s, NO_FAILURE, outcomes) && s.peers.Keys == {x, y}
    ensures Wanted(s.index, 2, x) == {ay, vy} && Wanted(s.index, 2, y) == {ax, vx}
    ensures forall u | u in s.peers :: ReceivesFrom(AfterPass(s, NO_FAILURE, outcomes), u, 2, 2)
  {
    s, events := TwoUsersIndexed(x, y, ax, vx, ay, vy);
    TwoSlicesEach(s.index, x, y, ax, vx, ay, vy);
    outcomes := WithoutFailure(s);
    assert |s.peers| == |s.peers.Keys| == 2;
    forall u | u in s.peers ensures ReceivesFrom(AfterPass(s, NO_FAILURE, outcomes), u, 2, 2) {
      FanOut(2, events, s, NO_FAILURE, outcomes, u);
    }
  }

  lemma TwoSlicesEach(index: SliceOwners, x: UserId, y: UserId, ax: TrackId, vx: TrackId, ay: TrackId, vy: TrackId)
    requires x != y && ax != vx && ax != ay && ax != vy && vx != ay && vx != vy && ay != vy
    requires index == map[ax := x, vx := x, ay := y, vy := y]
    ensures SlicesPerUser(index, {x, y}, 2)
    ensures Wanted(index, 2, x) == {ay, vy} && Wanted(index, 2, y) == {ax, vx}
  {
    assert Fiber(index.Keys, index, x) == {ax, vx};
    assert Fiber(index.Keys, index, y) == {ay, vy};
  }
}
