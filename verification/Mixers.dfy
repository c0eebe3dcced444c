/** The mutable objects of a signaling pass, proved against `Signaling` (sfu/mixer.go, sfu/peer_server.go). */
module Mixers {
  import opened Common
  import opened MixerSlices
  import opened Signaling

  /** The part of the WebRTC connection that signaling reads and writes. */
  class PeerConn {
    const userId: UserId
    var senders: seq<Option<TrackId>>
    var pendingLocalDescription: bool
    ghost var offersSet: nat
    ghost var answersApplied: nat
    ghost var lastOffer: Option<set<TrackId>>

    constructor (userId: UserId, blankSenders: nat)
      ensures this.userId == userId
      ensures View() == Peer(seq(blankSenders, _ => None), false, 0, 0, None)
    {
      this.userId := userId;
      senders := seq(blankSenders, _ => None);
      pendingLocalDescription, offersSet, answersApplied, lastOffer := false, 0, 0, None;
    }

    ghost function View(): Peer
      reads this
    {
      Peer(senders, pendingLocalDescription, offersSet, answersApplied, lastOffer)
    }

    method SetRemoteDescription(applies: bool)
      modifies this
      ensures View() == Answered(old(View()), applies)
    {
      if pendingLocalDescription && applies {
        pendingLocalDescription, answersApplied := false, answersApplied + 1;
      }
    }
  }

  function Owners(index: map<TrackId, MixerSlice>): SliceOwners {
    map t | t in index :: index[t].fromUserId
  }

  function Receivers(index: map<TrackId, MixerSlice>): set<(TrackId, UserId)>
    reads index.Values
  {
    set t, u | t in index && u in index[t].senderControllerIndex :: (t, u)
  }

  ghost predicate ValidIndex(index: map<TrackId, MixerSlice>)
    reads index.Values
  {
    forall t | t in index :: index[t].id == t && index[t].Valid()
  }

  class PeerServer {
    const userId: UserId
    const pc: PeerConn

    constructor (userId: UserId, pc: PeerConn)
      ensures this.userId == userId && this.pc == pc
    {
      this.userId, this.pc := userId, pc;
    }

    method CleanOutTracks(index: map<TrackId, MixerSlice>, env: PeerEnv)
      modifies pc`senders
      ensures pc.senders == Cleaned(env, Owners(index), old(pc.senders))
    {
      var all := pc.senders;
      for k := 0 to |all|
        invariant |pc.senders| == |all|
        invariant pc.senders[..k] == Cleaned(env, Owners(index), all)[..k]
        invariant pc.senders[k..] == all[k..]
      {
        if all[k].Some? && all[k].value !in index && env.removeOk(k) {
          pc.senders := pc.senders[k := None];
        }
      }
    }

    /** The indexed tracks that are already sent. */
    method AlreadySent(index: map<TrackId, MixerSlice>) returns (sent: set<TrackId>)
      ensures sent == Live(pc.senders) * index.Keys
    {
      sent := {};
      for k := 0 to |pc.senders|
        invariant sent == Live(pc.senders[..k]) * index.Keys
      {
        var sender := pc.senders[k];
        assert pc.senders[..k + 1] == pc.senders[..k] + [sender];
        LiveOfLast(pc.senders[..k], sender);
        if sender.Some? && sender.value in index {
          sent := sent + {sender.value};
        }
      }
      assert pc.senders[..|pc.senders|] == pc.senders;
    }

    /** Sends a slice's track on this connection, and gives the slice a controller for it. */
    method SendTrack(index: map<TrackId, MixerSlice>, t: TrackId, env: PeerEnv) returns (ok: bool)
      requires ValidIndex(index) && t in index && pc.userId == userId
      modifies pc`senders, {index[t]}
      ensures ValidIndex(index) && ok == env.addOk(t)
      ensures ok ==> pc.senders == old(pc.senders) + [Some(t)]
      ensures ok ==> Receivers(index) == old(Receivers(index)) + Gained(env, userId, [t])
      ensures ok && env.encodings(t) == 1 ==>
        userId in index[t].senderControllerIndex && index[t].senderControllerIndex[userId].ssrc == env.ssrc(t)
      ensures !ok ==> pc.senders == old(pc.senders) && Receivers(index) == old(Receivers(index))
    {
      if !env.addOk(t) {
        return false;
      }
      pc.senders := pc.senders + [Some(t)];
      index[t].AddSender(pc.userId, env.ssrc(t), env.encodings(t));
      return true;
    }

    method PrepareOutTracks(index: map<TrackId, MixerSlice>, size: int, env: PeerEnv)
      returns (ok: bool, ghost added: seq<TrackId>)
      requires ValidIndex(index) && pc.userId == userId
      modifies pc`senders, index.Values
      ensures ValidIndex(index)
      ensures PossibleOutcome(env, Owners(index), size, userId, old(pc.senders), Outcome(added, ok))
      ensures ok <==> CanAdd(env, Owners(index), size, userId, old(pc.senders))
      ensures pc.senders == Appended(old(pc.senders), added)
      ensures Receivers(index) == old(Receivers(index)) + Gained(env, userId, added)
    {
      var alreadySent := AlreadySent(index);
      ghost var before := pc.senders;
      assert Gained(env, userId, []) == {};
      ghost var missing := Wanted(Owners(index), size, userId) - Live(before);
      added := [];
      var remaining := index.Keys;
      while remaining != {}
        invariant remaining <= index.Keys && ValidIndex(index)
        invariant Adding(env, missing, added, remaining)
        invariant pc.senders == Appended(before, added)
        invariant Receivers(index) == old(Receivers(index)) + Gained(env, userId, added)
        decreases remaining
      {
        var t :| t in remaining;
        var s := index[t];
        if t in alreadySent {
          SkipOne(env, missing, added, remaining, t);
        } else if size != 1 && s.fromUserId == userId {
          SkipOne(env, missing, added, remaining, t);
        } else {
          ok := SendTrack(index, t, env);
          if !ok {
            AddingEnds(env, Owners(index), size, userId, before, added, remaining);
            AddingSucceedsIff(env, Owners(index), size, userId, before, Outcome(added, false));
            return false, added;
          }
          AddOne(env, missing, added, remaining, t);
          GainedOne(env, userId, added, t);
          AppendedOne(before, added, t);
          added := added + [t];
        }
        remaining := remaining - {t};
      }
      ok := true;
      AddingEnds(env, Owners(index), size, userId, before, added, remaining);
      AddingSucceedsIff(env, Owners(index), size, userId, before, Outcome(added, true));
    }

    /** Setting the offer locally and sending it: a failure after the first step leaves the offer pending. */
    method ShareOffer(env: PeerEnv) returns (ok: bool)
      modifies pc`pendingLocalDescription, pc`offersSet, pc`lastOffer
      ensures (pc.View(), ok) == Offered(env, old(pc.View()))
    {
      if pc.pendingLocalDescription {
        return false;
      }
      if !env.createOk {
        return false;
      }
      ghost var listed := Live(pc.senders);
      if !env.setLocalOk {
        return false;
      }
      pc.pendingLocalDescription, pc.offersSet := true, pc.offersSet + 1;
      if !env.marshalOk {
        return false;
      }
      if !env.sendOk {
        return false;
      }
      pc.lastOffer := Some(listed);
      return true;
    }

    method UpdateTracksAndShareOffer(index: map<TrackId, MixerSlice>, size: int, env: PeerEnv)
      returns (ok: bool, ghost o: Outcome)
      requires ValidIndex(index) && pc.userId == userId
      modifies pc, index.Values
      ensures ValidIndex(index)
      ensures PossibleOutcome(env, Owners(index), size, userId, Cleaned(env, Owners(index), old(pc.senders)), o)
      ensures (pc.View(), ok) == Updated(env, Owners(index), old(pc.View()), o)
      ensures ok <==> WillSucceed(env, Owners(index), size, userId, old(pc.View()))
      ensures Receivers(index) == old(Receivers(index)) + Gained(env, userId, o.added)
    {
      ghost var before := pc.View();
      CleanOutTracks(index, env);
      ghost var added;
      ok, added := PrepareOutTracks(index, size, env);
      o := Outcome(added, ok);
      UpdateSucceedsIff(env, Owners(index), size, userId, before, o);
      if !ok {
        return;
      }
      ok := ShareOffer(env);
    }
  }

  ghost predicate ValidPeers(peers: map<UserId, PeerServer>) {
    forall u | u in peers :: peers[u].userId == u && peers[u].pc.userId == u
  }

  function Conns(peers: map<UserId, PeerServer>): set<PeerConn> {
    set u | u in peers :: peers[u].pc
  }

  class Mixer {
    var sliceIndex: map<TrackId, MixerSlice>

    constructor ()
      ensures sliceIndex == map[]
    {
      sliceIndex := map[];
    }

    ghost function State(peers: map<UserId, PeerServer>, size: int): MixerState
      reads this, Conns(peers), sliceIndex.Values
    {
      MixerState(size, Owners(sliceIndex), map u | u in peers :: peers[u].pc.View(), Receivers(sliceIndex))
    }

    method IndexMixerSlice(ms: MixerSlice, ghost peers: map<UserId, PeerServer>, ghost size: int)
      requires ValidIndex(sliceIndex) && ms.Valid() && ms.senderControllerIndex == map[]
      modifies this
      ensures ValidIndex(sliceIndex) && sliceIndex == old(sliceIndex)[ms.id := ms]
      ensures State(peers, size) == WithSlice(old(State(peers, size)), ms.id, ms.fromUserId)
    {
      assert ms.senderControllerIndex.Keys == {};
      sliceIndex := sliceIndex[ms.id := ms];
      assert State(peers, size).receivers == WithSlice(old(State(peers, size)), ms.id, ms.fromUserId).receivers;
    }

    method RemoveMixerSlice(ms: MixerSlice, ghost peers: map<UserId, PeerServer>, ghost size: int)
      requires ValidIndex(sliceIndex)
      modifies this
      ensures ValidIndex(sliceIndex) && sliceIndex == old(sliceIndex) - {ms.id}
      ensures State(peers, size) == Next(old(State(peers, size)), RemoveSlice(ms.id))
    {
      sliceIndex := sliceIndex - {ms.id};
      assert State(peers, size).index == Next(old(State(peers, size)), RemoveSlice(ms.id)).index;
    }

    /** One pass over the connected peers, up to the first that fails. */
    method UpdateSignaling(peers: map<UserId, PeerServer>, size: int, envs: UserId -> PeerEnv)
      returns (ok: bool, ghost outcomes: map<UserId, Outcome>)
      requires ValidIndex(sliceIndex) && ValidPeers(peers)
      modifies Conns(peers), sliceIndex.Values
      ensures ValidIndex(sliceIndex)
      ensures PassResult(old(State(peers, size)), envs, outcomes, ok, State(peers, size))
      ensures ok <==> AllWillSucceed(old(State(peers, size)), envs)
    {
      ghost var s := State(peers, size);
      outcomes := map[];
      var remaining := peers.Keys;
      PassingBegins(s, envs);
      while remaining != {}
        invariant ValidIndex(sliceIndex) && remaining <= peers.Keys
        invariant Passing(s, envs, outcomes, remaining, State(peers, size))
        decreases remaining
      {
        var u :| u in remaining;
        ok, outcomes := UpdatePeer(peers, size, u, envs, s, outcomes, remaining);
        if !ok {
          PassSucceedsIff(s, envs, outcomes);
          return;
        }
        remaining := remaining - {u};
      }
      ok := true;
      PassingEnds(s, envs, outcomes, State(peers, size));
      PassSucceedsIff(s, envs, outcomes);
    }

    /** The next peer of a pass that started in state `s` and succeeded with `visited` so far. */
    method UpdatePeer(peers: map<UserId, PeerServer>, size: int, u: UserId, envs: UserId -> PeerEnv,
                      ghost s: MixerState, ghost visited: map<UserId, Outcome>, ghost remaining: set<UserId>)
      returns (ok: bool, ghost outcomes: map<UserId, Outcome>)
      requires ValidIndex(sliceIndex) && ValidPeers(peers) && u in peers && u in remaining
      requires Passing(s, envs, visited, remaining, State(peers, size))
      modifies peers[u].pc, sliceIndex.Values
      ensures ValidIndex(sliceIndex)
      ensures if ok then Passing(s, envs, outcomes, remaining - {u}, State(peers, size))
              else PassResult(s, envs, outcomes, false, State(peers, size))
    {
      ghost var before := State(peers, size);
      ghost var o;
      ok, o := peers[u].UpdateTracksAndShareOffer(sliceIndex, size, envs(u));
      forall v | v in peers && v != u ensures peers[v].pc.View() == before.peers[v] {
        assert peers[v].pc != peers[u].pc;
      }
      assert State(peers, size).peers == AfterUpdate(before, u, envs(u), o).peers;
      PassingContinues(s, envs, visited, remaining, before, u, o);
      outcomes := visited[u := o];
    }

    /** A deleted interaction is left alone; a failed pass is to be retried later. */
    method ManagedSignalingForEveryone(deleted: bool, peers: map<UserId, PeerServer>, size: int,
                                       envs: UserId -> PeerEnv)
      returns (retry: bool, ghost outcomes: map<UserId, Outcome>)
      requires ValidIndex(sliceIndex) && ValidPeers(peers)
      modifies Conns(peers), sliceIndex.Values
      ensures ValidIndex(sliceIndex)
      ensures deleted ==> !retry && State(peers, size) == old(State(peers, size))
      ensures !deleted ==> PassResult(old(State(peers, size)), envs, outcomes, !retry, State(peers, size))
      ensures !deleted ==> (retry <==> !AllWillSucceed(old(State(peers, size)), envs))
    {
      retry, outcomes := false, map[];
      if !deleted {
        var ok;
        ok, outcomes := UpdateSignaling(peers, size, envs);
        retry := !ok;
      }
    }
  }
}
