/**
 The encoder side of a mixer slice (sfu/mixer_slice.go): one sender controller for each user receiving the slice, and
 an encoder target that follows the slowest of them.
 */
module MixerSlices {
  import opened Common
  import opened RateControl

  // Specification: a slice as a state machine over what its goroutines do

  /** What one sender controller has estimated so far; 0 is "no estimate yet" for congestion control. */
  datatype Receiver = Receiver(loss: int, cc: int)

  datatype SliceState = SliceState(
    config: StreamConfig,
    video: bool,
    gcc: bool,
    receivers: map<UserId, Receiver>,
    target: int) {

    function Rate(u: UserId): int
      requires u in receivers
    {
      if gcc then receivers[u].cc else receivers[u].loss
    }

    /** The lowest rate among some of the receivers. */
    ghost function LeastRate(users: set<UserId>): (least: int)
      requires {} < users <= receivers.Keys
      ensures exists u :: u in users && Rate(u) == least
      ensures forall u | u in users :: least <= Rate(u)
      decreases users
    {
      var u :| u in users;
      if users == {u} then Rate(u)
      else
        var least := LeastRate(users - {u});
        if least < Rate(u) then least else Rate(u)
    }
  }

  datatype SliceStep =
    | AddSender(u: UserId, encodings: nat)
    | LossReport(u: UserId, loss: FractionLost)
    | Estimate(u: UserId, bitrate: int)
    | Tick

  ghost function Apply(s: SliceState, step: SliceStep): SliceState {
    match step
    case AddSender(u, encodings) =>
      if encodings == 1 then s.(receivers := s.receivers[u := Receiver(s.config.defaultBitrate, 0)]) else s
    case LossReport(u, loss) =>
      if u in s.receivers && s.video && !s.gcc then
        var r := s.receivers[u];
        s.(receivers := s.receivers[u := r.(loss := RateAfterReport(s.config, r.loss, loss))])
      else s
    case Estimate(u, bitrate) =>
      if u in s.receivers && s.video && s.gcc then
        s.(receivers := s.receivers[u := s.receivers[u].(cc := CapRate(s.config, bitrate))])
      else s
    case Tick =>
      if s.video && s.receivers.Keys != {} then
        var least := s.LeastRate(s.receivers.Keys);
        if least > 0 then s.(target := least) else s
      else s
  }

  ghost function Run(s: SliceState, steps: seq<SliceStep>): SliceState
    decreases |steps|
  {
    if steps == [] then s else Run(Apply(s, steps[0]), steps[1..])
  }

  ghost predicate Fresh(s: SliceState) {
    s.config.Valid() && s.receivers == map[] && s.target == 0
  }

  ghost predicate TargetInLimits(s: SliceState) {
    s.target == 0 || s.config.InLimits(s.target)
  }

  ghost predicate Safe(s: SliceState) {
    && s.config.Valid()
    && TargetInLimits(s)
    && forall u | u in s.receivers ::
      s.config.InLimits(s.receivers[u].loss) && (s.receivers[u].cc == 0 || s.config.InLimits(s.receivers[u].cc))
  }

  lemma StepKeepsSafe(s: SliceState, step: SliceStep)
    requires Safe(s)
    ensures Safe(Apply(s, step))
  {
    if step.Tick? && s.video && s.receivers.Keys != {} {
      TickFollowsSlowest(s);
    }
  }

  lemma {:induction false} RunKeepsSafe(s: SliceState, steps: seq<SliceStep>)
    requires Safe(s)
    ensures Safe(Run(s, steps))
    decreases |steps|
  {
    if steps == [] {
    } else {
      StepKeepsSafe(s, steps[0]);
      RunKeepsSafe(Apply(s, steps[0]), steps[1..]);
    }
  }

  /** In every reachable state, in both control modes, the target has never been set or is within the limits. */
  lemma TargetSafety(s: SliceState, steps: seq<SliceStep>)
    requires Fresh(s)
    ensures TargetInLimits(Run(s, steps))
  {
    RunKeepsSafe(s, steps);
  }

  /**
   A tick sets the target exactly when the slice is a video one, has receivers, and none of them is without a positive
   rate; it then sets it to the rate of a slowest receiver.
   */
  lemma TickFollowsSlowest(s: SliceState)
    ensures var after := Apply(s, Tick);
            if s.video && s.receivers.Keys != {} && (forall u | u in s.receivers :: s.Rate(u) > 0) then
              && (exists u :: u in s.receivers && after.target == s.Rate(u))
              && (forall u | u in s.receivers :: after.target <= s.Rate(u))
            else after == s
  {
    if s.video && s.receivers.Keys != {} {
      var least := s.LeastRate(s.receivers.Keys);
      var u :| u in s.receivers.Keys && s.Rate(u) == least;
    }
  }

  /** In loss mode the target follows the least loss-based rate, whatever congestion control has estimated. */
  lemma TickByLoss(s: SliceState)
    requires s.video && !s.gcc && s.receivers.Keys != {}
    ensures var target := Apply(s, Tick).target;
            if forall u | u in s.receivers :: s.receivers[u].loss > 0 then
              && (exists u :: u in s.receivers && target == s.receivers[u].loss)
              && (forall u | u in s.receivers :: target <= s.receivers[u].loss)
            else target == s.target
  {
    TickFollowsSlowest(s);
    assert forall u | u in s.receivers :: s.Rate(u) == s.receivers[u].loss;
  }

  /** Under congestion control it follows the least estimate, whatever the loss-based rates. */
  lemma TickByEstimate(s: SliceState)
    requires s.video && s.gcc && s.receivers.Keys != {}
    ensures var target := Apply(s, Tick).target;
            if forall u | u in s.receivers :: s.receivers[u].cc > 0 then
              && (exists u :: u in s.receivers && target == s.receivers[u].cc)
              && (forall u | u in s.receivers :: target <= s.receivers[u].cc)
            else target == s.target
  {
    TickFollowsSlowest(s);
    assert forall u | u in s.receivers :: s.Rate(u) == s.receivers[u].cc;
  }

  /** A sender with one encoding starts its user afresh at the default rate; any other changes nothing. */
  lemma AddSenderStartsAfresh(s: SliceState, u: UserId, v: UserId, encodings: nat)
    ensures var after := Apply(s, AddSender(u, encodings));
            && (encodings != 1 ==> after == s)
            && (encodings == 1 ==> u in after.receivers && after.receivers[u].loss == s.config.defaultBitrate
                                   && after.receivers[u].cc == 0 && after.target == s.target)
            && (v != u ==> (v in after.receivers <==> v in s.receivers))
            && (v != u && v in s.receivers ==> after.receivers[v] == s.receivers[v])
  {
  }

  ghost predicate NotReplaced(steps: seq<SliceStep>, u: UserId) {
    forall k | 0 <= k < |steps| :: !(steps[k].AddSender? && steps[k].u == u && steps[k].encodings == 1)
  }

  /** The losses reported by one receiver. */
  function LossesTo(steps: seq<SliceStep>, u: UserId): seq<FractionLost> {
    if steps == [] then []
    else (if steps[0].LossReport? && steps[0].u == u then [steps[0].loss] else []) + LossesTo(steps[1..], u)
  }

  /** The latest estimate for one receiver, capped; `before` if there was none. */
  function LatestEstimate(config: StreamConfig, before: int, steps: seq<SliceStep>, u: UserId): int
    decreases |steps|
  {
    if steps == [] then before
    else
      var now := if steps[0].Estimate? && steps[0].u == u then CapRate(config, steps[0].bitrate) else before;
      LatestEstimate(config, now, steps[1..], u)
  }

  /**
   Over whole runs receivers do not disturb each other: a video receiver's loss-based rate in loss mode is that of its
   own reports, and its estimate under congestion control the latest of its own; nothing else ever changes.
   */
  lemma {:induction false} ReceiverFollowsItsOwn(s: SliceState, steps: seq<SliceStep>, u: UserId)
    requires u in s.receivers && NotReplaced(steps, u)
    ensures var after := Run(s, steps);
            && u in after.receivers
            && after.receivers[u].loss == (if s.video && !s.gcc
                                           then RateAfter(s.config, s.receivers[u].loss, LossesTo(steps, u))
                                           else s.receivers[u].loss)
            && after.receivers[u].cc == (if s.video && s.gcc
                                         then LatestEstimate(s.config, s.receivers[u].cc, steps, u)
                                         else s.receivers[u].cc)
    decreases |steps|
  {
    if steps == [] {
    } else {
      var next := Apply(s, steps[0]);
      assert NotReplaced(steps[1..], u) by {
        forall k | 0 <= k < |steps| - 1 ensures steps[1..][k] == steps[k + 1] {}
      }
      assert u in next.receivers && next.config == s.config && next.video == s.video && next.gcc == s.gcc;
      ReceiverFollowsItsOwn(next, steps[1..], u);
      if steps[0].LossReport? && steps[0].u == u {
        assert LossesTo(steps, u)[1..] == LossesTo(steps[1..], u);
      } else {
        assert LossesTo(steps, u) == LossesTo(steps[1..], u);
      }
    }
  }

  ghost predicate Untouched(steps: seq<SliceStep>, u: UserId) {
    forall k | 0 <= k < |steps| ::
      match steps[k]
      case AddSender(v, _) => v != u
      case LossReport(v, _) => v != u
      case Estimate(v, _) => v != u
      case Tick => true
  }

  /**
   Entries are never removed: a receiver that left (no more steps of its own) keeps its last rate, and the target
   never again rises above it.
   */
  lemma {:induction false} SilentReceiverStillCaps(s: SliceState, steps: seq<SliceStep>, u: UserId)
    requires u in s.receivers && Untouched(steps, u)
    ensures var after := Run(s, steps);
            && u in after.receivers && after.receivers[u] == s.receivers[u]
            && (after.target == s.target || after.target <= s.Rate(u))
    decreases |steps|
  {
    if steps == [] {
    } else {
      if steps[0].Tick? {
        TickFollowsSlowest(s);
      }
      assert Untouched(steps[1..], u) by {
        forall k | 0 <= k < |steps| - 1 ensures steps[1..][k] == steps[k + 1] {}
      }
      SilentReceiverStillCaps(Apply(s, steps[0]), steps[1..], u);
      assert Apply(s, steps[0]).gcc == s.gcc;
    }
  }

  ghost predicate NoEstimateFor(steps: seq<SliceStep>, u: UserId) {
    forall k | 0 <= k < |steps| :: !(steps[k].Estimate? && steps[k].u == u)
  }

  /** Under congestion control, one receiver without an estimate freezes the target, whatever else happens. */
  lemma {:induction false} NoEstimateNoUpdate(s: SliceState, steps: seq<SliceStep>, u: UserId)
    requires s.gcc && u in s.receivers && s.receivers[u].cc == 0 && NoEstimateFor(steps, u)
    ensures Run(s, steps).target == s.target
    decreases |steps|
  {
    if steps == [] {
    } else {
      TickFollowsSlowest(s);
      assert s.Rate(u) == 0;
      assert NoEstimateFor(steps[1..], u) by {
        forall k | 0 <= k < |steps| - 1 ensures steps[1..][k] == steps[k + 1] {}
      }
      NoEstimateNoUpdate(Apply(s, steps[0]), steps[1..], u);
    }
  }

  // The slice itself

  /** The smallest value, 0 when there is none. */
  method MinInt(v: seq<int>) returns (min: int)
    ensures v == [] ==> min == 0
    ensures v != [] ==> min in v && forall k | 0 <= k < |v| :: min <= v[k]
  {
    min := 0;
    if |v| > 0 {
      min := v[0];
    }
    var i := 1;
    while i < |v|
      invariant 1 <= i && (v != [] ==> i <= |v|)
      invariant v != [] ==> min in v && forall k | 0 <= k < i :: min <= v[k]
      invariant v == [] ==> min == 0
    {
      if v[i] < min {
        min := v[i];
      }
      i := i + 1;
    }
  }

  class MixerSlice {
    const id: TrackId
    const fromUserId: UserId
    const video: bool
    const config: StreamConfig
    const gcc: bool
    var senderControllerIndex: map<UserId, SenderController>
    var targetBitrate: int

    constructor (id: TrackId, fromUserId: UserId, video: bool, config: StreamConfig, gcc: bool)
      ensures this.id == id && this.fromUserId == fromUserId
      ensures Valid() && State() == SliceState(config, video, gcc, map[], 0)
    {
      this.id, this.fromUserId, this.video, this.config, this.gcc := id, fromUserId, video, config, gcc;
      senderControllerIndex, targetBitrate := map[], 0;
    }

    ghost predicate Valid()
      reads this
    {
      && (forall u | u in senderControllerIndex ::
            var sc := senderControllerIndex[u]; sc.config == config && sc.gcc == gcc && sc.toUserId == u)
    }

    ghost function State(): SliceState
      reads this, senderControllerIndex.Values
    {
      var receivers := map u | u in senderControllerIndex ::
        Receiver(senderControllerIndex[u].lossOptimalBitrate, senderControllerIndex[u].ccOptimalBitrate);
      SliceState(config, video, gcc, receivers, targetBitrate)
    }

    /** A sender with anything but one encoding gets no controller. */
    method AddSender(toUserId: UserId, ssrc: int, encodings: nat)
      requires Valid()
      modifies this`senderControllerIndex
      ensures Valid() && State() == Apply(old(State()), SliceStep.AddSender(toUserId, encodings))
      ensures senderControllerIndex.Keys == old(senderControllerIndex.Keys) + if encodings == 1 then {toUserId} else {}
      ensures encodings == 1 ==> senderControllerIndex[toUserId].ssrc == ssrc
    {
      if encodings == 1 {
        var sc := new SenderController(config, toUserId, ssrc, gcc);
        senderControllerIndex := senderControllerIndex[toUserId := sc];
      }
    }

    /** The rates of all indexed receivers, in no particular order. */
    method CollectRates() returns (rates: seq<int>)
      requires Valid()
      ensures forall rate :: rate in rates <==> exists u :: u in State().receivers && rate == State().Rate(u)
    {
      ghost var s := State();
      rates := [];
      var remaining := senderControllerIndex.Keys;
      while remaining != {}
        invariant remaining <= senderControllerIndex.Keys
        invariant forall rate :: rate in rates <==>
          exists u :: u in s.receivers && u !in remaining && rate == s.Rate(u)
        decreases remaining
      {
        var u :| u in remaining;
        rates := rates + [senderControllerIndex[u].OptimalRate()];
        remaining := remaining - {u};
      }
    }

    /** One turn of the encoder control loop, which runs for video slices only. */
    method EncoderTick()
      requires Valid() && video
      modifies this`targetBitrate
      ensures State() == Apply(old(State()), Tick)
    {
      if |senderControllerIndex| > 0 {
        var rates := CollectRates();
        var newPotentialRate := MinInt(rates);
        assert State().receivers.Keys == senderControllerIndex.Keys;
        assert |senderControllerIndex.Keys| == |senderControllerIndex|;
        TickSets(State(), rates, newPotentialRate);
        if newPotentialRate > 0 {
          targetBitrate := newPotentialRate;
        }
      }
    }
  }

  lemma TickSets(s: SliceState, rates: seq<int>, least: int)
    requires s.video && s.receivers.Keys != {}
    requires forall rate :: rate in rates <==> exists u :: u in s.receivers && rate == s.Rate(u)
    requires rates != [] ==> least in rates && forall k | 0 <= k < |rates| :: least <= rates[k]
    ensures Apply(s, Tick) == if least > 0 then s.(target := least) else s
  {
    LeastIsUnique(s, rates, least);
  }

  /** The smallest of all receivers' rates, however they were listed. */
  lemma LeastIsUnique(s: SliceState, rates: seq<int>, least: int)
    requires s.receivers.Keys != {}
    requires forall rate :: rate in rates <==> exists u :: u in s.receivers && rate == s.Rate(u)
    requires rates != [] ==> least in rates && forall k | 0 <= k < |rates| :: least <= rates[k]
    ensures least == s.LeastRate(s.receivers.Keys)
  {
    var u :| u in s.receivers.Keys && s.Rate(u) == s.LeastRate(s.receivers.Keys);
    assert s.Rate(u) in rates;
    var v :| v in s.receivers && least == s.Rate(v);
  }

  /** What a loss report does to a controller is a step of the slice that indexes it, and of no other user's entry. */
  twostate lemma ControllerUpdatesSlice(ms: MixerSlice, sc: SenderController, loss: FractionLost)
    requires old(ms.Valid()) && unchanged(ms) && old(sc.toUserId in ms.senderControllerIndex)
    requires sc == old(ms.senderControllerIndex[sc.toUserId]) && ms.video && !ms.gcc
    requires forall u | u in old(ms.senderControllerIndex) && u != sc.toUserId :: unchanged(ms.senderControllerIndex[u])
    requires sc.lossOptimalBitrate == RateAfterReport(sc.config, old(sc.lossOptimalBitrate), loss)
    requires sc.ccOptimalBitrate == old(sc.ccOptimalBitrate)
    ensures ms.State() == Apply(old(ms.State()), LossReport(sc.toUserId, loss))
  {
    assert ms.State().receivers == Apply(old(ms.State()), LossReport(sc.toUserId, loss)).receivers;
  }

  /** The same for the congestion-control callback. */
  twostate lemma EstimatorUpdatesSlice(ms: MixerSlice, sc: SenderController, bitrate: int)
    requires old(ms.Valid()) && unchanged(ms) && old(sc.toUserId in ms.senderControllerIndex)
    requires sc == old(ms.senderControllerIndex[sc.toUserId]) && ms.video && ms.gcc
    requires forall u | u in old(ms.senderControllerIndex) && u != sc.toUserId :: unchanged(ms.senderControllerIndex[u])
    requires sc.ccOptimalBitrate == CapRate(sc.config, bitrate)
    requires sc.lossOptimalBitrate == old(sc.lossOptimalBitrate)
    ensures ms.State() == Apply(old(ms.State()), Estimate(sc.toUserId, bitrate))
  {
    assert ms.State().receivers == Apply(old(ms.State()), Estimate(sc.toUserId, bitrate)).receivers;
  }

  // What the encoder is asked for (gst/pipeline.go)

  datatype VideoFormat = VP8 | H264

  /** The bitrate property in the encoder's own unit: bit/s for VP8, kbit/s for H264. */
  function EncoderBitrate(format: VideoFormat, value: int): int {
    if format == H264 then GoDiv(value, 1000) else value
  }

  /** The NVENC peak bitrate, in kbit/s. */
  function EncoderMaxBitrate(value: int): int {
    GoDiv(GoDiv(value, 1000) * 280, 256)
  }

  function UnitOf(format: VideoFormat): int {
    if format == H264 then 1000 else 1
  }

  /**
   End to end: after a tick that sets the target, the encoder is asked for no more than any receiver's rate, less than
   1 kbit/s below the slowest one, and the H264 peak never exceeds that rate by more than 280/256.
   */
  lemma EncoderNeverOutpacesReceivers(s: SliceState, format: VideoFormat, u: UserId)
    requires Safe(s) && s.video && u in s.receivers && forall v | v in s.receivers :: s.Rate(v) > 0
    ensures var target := Apply(s, Tick).target;
            && EncoderBitrate(format, target) * UnitOf(format) <= s.Rate(u)
            && target < EncoderBitrate(format, target) * UnitOf(format) + UnitOf(format)
            && EncoderMaxBitrate(target) * 256 * 1000 <= s.Rate(u) * 280
            && target * 280 < (EncoderMaxBitrate(target) + 1) * 256 * 1000 + 280 * 1000
            && 0 <= EncoderMaxBitrate(target) <= EncoderMaxBitrate(s.config.maxBitrate)
  {
    TickFollowsSlowest(s);
    StepKeepsSafe(s, Tick);
    var target := Apply(s, Tick).target;
    assert target / 1000 <= s.config.maxBitrate / 1000;
  }
}
