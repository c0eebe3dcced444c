/**
 The per-receiver bitrate control of sfu/sender_controller.go: a multiplicative controller on integer bitrates,
 driven by the 8-bit "fraction lost" of RTCP receiver reports (section 6.4.1 of RFC 3550), after the loss-based
 controller of section 6 of draft-ietf-rmcat-gcc-02.
 */
module RateControl {
  import opened Common

  /** The bitrates of one kind of stream (config/sfu.yml). */
  datatype StreamConfig = StreamConfig(defaultBitrate: int, minBitrate: int, maxBitrate: int) {
    predicate Valid() {
      0 <= minBitrate <= defaultBitrate <= maxBitrate
    }

    predicate InLimits(rate: int) {
      minBitrate <= rate <= maxBitrate
    }
  }

  /** "Fraction lost" of a receiver report: packets lost, in 1/256. */
  type FractionLost = x: int | 0 <= x < 256

  /** One report block of an RTCP receiver report. */
  datatype Report = Report(ssrc: int, fractionLost: FractionLost)

  /** Go's integer division by a positive number truncates toward zero. */
  function GoDiv(a: int, b: int): int
    requires 0 < b
  {
    if a < 0 then -(-a / b) else a / b
  }

  function CapRate(config: StreamConfig, rate: int): int {
    if rate > config.maxBitrate then config.maxBitrate
    else if rate < config.minBitrate then config.minBitrate
    else rate
  }

  /** The new rate before it is capped. */
  function AdjustedRate(rate: int, loss: FractionLost): int {
    if loss < 5 then GoDiv(rate * 269, 256)
    else if loss > 25 then GoDiv(rate * (512 - loss), 512)
    else rate
  }

  function RateAfterReport(config: StreamConfig, rate: int, loss: FractionLost): int {
    CapRate(config, AdjustedRate(rate, loss))
  }

  /** The rate after a whole run of reports. */
  function RateAfter(config: StreamConfig, rate: int, losses: seq<FractionLost>): int
    decreases |losses|
  {
    if losses == [] then rate
    else RateAfter(config, RateAfterReport(config, rate, losses[0]), losses[1..])
  }

  /** The losses reported about one stream. */
  function LossesOf(reports: seq<Report>, ssrc: int): seq<FractionLost> {
    if reports == [] then []
    else
      var rest := LossesOf(reports[..|reports| - 1], ssrc);
      if reports[|reports| - 1].ssrc == ssrc then rest + [reports[|reports| - 1].fractionLost] else rest
  }

  class SenderController {
    const config: StreamConfig
    const toUserId: string
    const ssrc: int
    const gcc: bool  // env.GCC: rely on the congestion control estimator
    var ccOptimalBitrate: int
    var lossOptimalBitrate: int

    constructor (config: StreamConfig, toUserId: string, ssrc: int, gcc: bool)
      ensures this.config == config && this.toUserId == toUserId && this.ssrc == ssrc && this.gcc == gcc
      ensures lossOptimalBitrate == config.defaultBitrate && ccOptimalBitrate == 0
    {
      this.config, this.toUserId, this.ssrc, this.gcc := config, toUserId, ssrc, gcc;
      ccOptimalBitrate, lossOptimalBitrate := 0, config.defaultBitrate;
    }

    function OptimalRate(): int
      reads this
    {
      if gcc then ccOptimalBitrate else lossOptimalBitrate
    }

    method UpdateRateFromLoss(loss: FractionLost)
      modifies this`lossOptimalBitrate
      ensures lossOptimalBitrate == RateAfterReport(config, old(lossOptimalBitrate), loss)
    {
      var prevOptimalBitrate := lossOptimalBitrate;
      var newOptimalBitrate := prevOptimalBitrate;
      if loss < 5 {
        newOptimalBitrate := GoDiv(prevOptimalBitrate * 269, 256);
      } else if loss > 25 {
        newOptimalBitrate := GoDiv(prevOptimalBitrate * (512 - loss), 512);
      }
      lossOptimalBitrate := CapRate(config, newOptimalBitrate);
    }

    /** A receiver report may hold blocks about several streams: only those about this sender's count. */
    method HandleReceiverReport(reports: seq<Report>)
      modifies this`lossOptimalBitrate
      ensures lossOptimalBitrate == RateAfter(config, old(lossOptimalBitrate), LossesOf(reports, ssrc))
    {
      for k := 0 to |reports|
        invariant lossOptimalBitrate == RateAfter(config, old(lossOptimalBitrate), LossesOf(reports[..k], ssrc))
      {
        assert reports[..k + 1][..k] == reports[..k];
        if reports[k].ssrc == ssrc {
          RateAfterSplit(config, old(lossOptimalBitrate), LossesOf(reports[..k], ssrc), [reports[k].fractionLost]);
          UpdateRateFromLoss(reports[k].fractionLost);
        }
      }
      assert reports[..|reports|] == reports;
    }

    /** The estimator's callback: its target is capped like the loss-based one. */
    method OnTargetBitrateChange(bitrate: int)
      modifies this`ccOptimalBitrate
      ensures ccOptimalBitrate == CapRate(config, bitrate)
      ensures config.InLimits(bitrate) ==> ccOptimalBitrate == bitrate
    {
      ccOptimalBitrate := CapRate(config, bitrate);
    }
  }

  lemma {:induction false} RateAfterSplit(config: StreamConfig, rate: int,
                                          first: seq<FractionLost>, second: seq<FractionLost>)
    ensures RateAfter(config, rate, first + second) == RateAfter(config, RateAfter(config, rate, first), second)
    decreases |first|
  {
    if first == [] {
      assert first + second == second;
    } else {
      assert (first + second)[1..] == first[1..] + second;
      RateAfterSplit(config, RateAfterReport(config, rate, first[0]), first[1..], second);
    }
  }

  lemma RateAfterCut(config: StreamConfig, rate: int, losses: seq<FractionLost>, k: nat)
    requires k <= |losses|
    ensures RateAfter(config, rate, losses) == RateAfter(config, RateAfter(config, rate, losses[..k]), losses[k..])
  {
    assert losses == losses[..k] + losses[k..];
    RateAfterSplit(config, rate, losses[..k], losses[k..]);
  }

  // What one report does

  function Distance(a: int, b: int): int {
    if a < b then b - a else a - b
  }

  /** Capping gives the nearest bitrate within the limits; one that is within is left alone. */
  lemma CapIsNearest(config: StreamConfig, rate: int, other: int)
    requires config.InLimits(other)
    ensures config.InLimits(CapRate(config, rate))
    ensures config.InLimits(rate) ==> CapRate(config, rate) == rate
    ensures Distance(CapRate(config, rate), rate) <= Distance(other, rate)
  {
  }

  /** Go's quotient is the exact one without its fraction, on either side of zero. */
  lemma GoDivTruncates(a: int, b: int)
    requires 0 < b
    ensures GoDiv(-a, b) == -GoDiv(a, b)
    ensures 0 <= a ==> GoDiv(a, b) == (a as real / b as real).Floor
  {
    FloorOfQuotient(a, b);
  }

  /** The operation by loss value: 269/256 up to the maximum, nothing, or rate * (1 - p/2) down to the minimum. */
  lemma ReportByLoss(config: StreamConfig, rate: int, loss: FractionLost)
    requires config.Valid() && config.InLimits(rate)
    ensures var next := RateAfterReport(config, rate, loss);
            && (loss < 5 ==> next == Min(config.maxBitrate, (rate as real * 269.0 / 256.0).Floor))
            && (5 <= loss <= 25 ==> next == rate)
            && (25 < loss ==>
                  next == -Min(-config.minBitrate, -(rate as real * (1.0 - LossRatio(loss) / 2.0)).Floor))
  {
    if loss < 5 {
      FloorOfQuotient(rate * 269, 256);
    } else if 25 < loss {
      DraftDecrease(rate, loss);
      ScaleMonotone(rate, rate, 512 - loss, 512);
    }
  }

  /** So a report moves the rate down exactly above 10% of loss, up exactly below value 5, short of the limits. */
  lemma ReportRegimes(config: StreamConfig, rate: int, loss: FractionLost)
    requires config.Valid() && config.InLimits(rate) && 20 <= rate
    ensures RateAfterReport(config, rate, loss) < rate <==> LossRatio(loss) > 0.1 && config.minBitrate < rate
    ensures RateAfterReport(config, rate, loss) > rate <==> loss < 5 && rate < config.maxBitrate
  {
    DraftRegimes(rate, loss);
  }

  /** Of a receiver report exactly the blocks with this SSRC count, all of them and in order. */
  lemma {:induction false} LossesOfConcat(first: seq<Report>, second: seq<Report>, ssrc: int)
    ensures LossesOf(first + second, ssrc) == LossesOf(first, ssrc) + LossesOf(second, ssrc)
    decreases |second|
  {
    if second == [] {
      assert first + second == first;
    } else {
      var front := second[..|second| - 1];
      assert (first + second)[..|first + second| - 1] == first + front;
      LossesOfConcat(first, front, ssrc);
    }
  }

  lemma LossesOfOne(report: Report, ssrc: int)
    ensures LossesOf([report], ssrc) == if report.ssrc == ssrc then [report.fractionLost] else []
  {
    assert [report][..0] == [];
  }

  // Safety

  /** Whatever is reported, the rate is within the limits after the first report, and stays there. */
  lemma {:induction false} RateStaysInLimits(config: StreamConfig, rate: int, losses: seq<FractionLost>)
    requires config.minBitrate <= config.maxBitrate
    requires losses != [] || config.InLimits(rate)
    ensures config.InLimits(RateAfter(config, rate, losses))
    decreases |losses|
  {
    if losses == [] {
    } else {
      RateStaysInLimits(config, RateAfterReport(config, rate, losses[0]), losses[1..]);
    }
  }

  // Order preservation

  lemma ScaleMonotone(a: int, b: int, k: int, l: int)
    requires 0 <= a <= b && 0 <= k <= l
    ensures 0 <= a * k <= b * l
  {
    assert a * k <= b * k by { assert 0 <= (b - a) * k == b * k - a * k; }
    assert b * k <= b * l by { assert 0 <= b * (l - k) == b * l - b * k; }
  }

  /** A report that is no better never leaves a higher rate. */
  lemma ReportPreservesOrder(config: StreamConfig, low: int, high: int, worse: FractionLost, better: FractionLost)
    requires config.Valid() && 0 <= low <= high && better <= worse
    ensures 0 <= RateAfterReport(config, low, worse) <= RateAfterReport(config, high, better)
  {
    ScaleMonotone(low, high, 512 - worse, 512 - better);
    ScaleMonotone(low, high, 512 - worse, 512);
    ScaleMonotone(high, high, 512 - better, 512);
    assert 0 <= AdjustedRate(low, worse) <= AdjustedRate(high, better);
  }

  /**
   Over whole runs: a receiver that starts no lower and whose reports are pointwise no worse keeps a rate no lower.
   Runs of every length are covered, so this holds after each report.
   */
  lemma {:induction false} RunPreservesOrder(config: StreamConfig, low: int, high: int,
                                             worse: seq<FractionLost>, better: seq<FractionLost>)
    requires config.Valid() && 0 <= low <= high && |worse| == |better|
    requires forall k | 0 <= k < |worse| :: better[k] <= worse[k]
    ensures 0 <= RateAfter(config, low, worse) <= RateAfter(config, high, better)
    decreases |worse|
  {
    if worse == [] {
    } else {
      ReportPreservesOrder(config, low, high, worse[0], better[0]);
      RunPreservesOrder(config, RateAfterReport(config, low, worse[0]), RateAfterReport(config, high, better[0]),
                        worse[1..], better[1..]);
    }
  }

  // Rounding: the same controller on exact rates

  function ExactAdjusted(rate: real, loss: FractionLost): real {
    if loss < 5 then rate * 269.0 / 256.0
    else if loss > 25 then rate * (512 - loss) as real / 512.0
    else rate
  }

  function ExactAfterReport(config: StreamConfig, rate: real, loss: FractionLost): real {
    var adjusted := ExactAdjusted(rate, loss);
    if adjusted > config.maxBitrate as real then config.maxBitrate as real
    else if adjusted < config.minBitrate as real then config.minBitrate as real
    else adjusted
  }

  function ExactAfter(config: StreamConfig, rate: real, losses: seq<FractionLost>): real
    decreases |losses|
  {
    if losses == [] then rate
    else ExactAfter(config, ExactAfterReport(config, rate, losses[0]), losses[1..])
  }

  lemma ExactDominatesStep(config: StreamConfig, rate: int, exact: real, loss: FractionLost)
    requires config.Valid() && 0 <= rate && rate as real <= exact
    ensures 0 <= RateAfterReport(config, rate, loss)
    ensures RateAfterReport(config, rate, loss) as real <= ExactAfterReport(config, exact, loss)
  {
    var factor := 512 - loss;
    ScaleMonotone(0, rate, 0, factor);
    assert rate as real * factor as real <= exact * factor as real by {
      assert 0.0 <= (exact - rate as real) * factor as real == exact * factor as real - rate as real * factor as real;
    }
    assert (rate * factor) as real == rate as real * factor as real;
    assert AdjustedRate(rate, loss) as real <= ExactAdjusted(exact, loss);
  }

  /** Truncation only ever lowers the rate: the integer run never exceeds the exact one on the same reports. */
  lemma {:induction false} ExactRunDominates(config: StreamConfig, rate: int, exact: real, losses: seq<FractionLost>)
    requires config.Valid() && 0 <= rate && rate as real <= exact
    ensures 0 <= RateAfter(config, rate, losses)
    ensures RateAfter(config, rate, losses) as real <= ExactAfter(config, exact, losses)
    decreases |losses|
  {
    if losses == [] {
    } else {
      ExactDominatesStep(config, rate, exact, losses[0]);
      ExactRunDominates(config, RateAfterReport(config, rate, losses[0]), ExactAfterReport(config, exact, losses[0]),
                        losses[1..]);
    }
  }

  // The draft

  /** The loss ratio a report stands for. */
  function LossRatio(loss: FractionLost): real {
    loss as real / 256.0
  }

  /**
   The three regimes of the draft. Lowering happens exactly above 10% of loss. Raising happens for report values below
   5, where the draft raises up to 5, which is 5/256 or about 1.95%. Rates under 20 are too small to move.
   */
  lemma DraftRegimes(rate: int, loss: FractionLost)
    requires 20 <= rate
    ensures AdjustedRate(rate, loss) < rate <==> LossRatio(loss) > 0.1
    ensures AdjustedRate(rate, loss) > rate <==> loss < 5
    ensures LossRatio(loss) < 0.02 <==> loss <= 5
  {
    if loss > 25 {
      assert rate * (512 - loss) == rate * 512 - rate * loss;
      ScaleMonotone(1, rate, 1, loss);
    }
  }

  /** The decrease is the floor of rate * (1 - p/2), where p is the loss ratio. */
  lemma DraftDecrease(rate: int, loss: FractionLost)
    requires 0 <= rate && LossRatio(loss) > 0.1
    ensures AdjustedRate(rate, loss) == (rate as real * (1.0 - LossRatio(loss) / 2.0)).Floor
  {
    var product := rate * (512 - loss);
    ScaleMonotone(0, rate, 0, 512 - loss);
    assert 1.0 - LossRatio(loss) / 2.0 == (512 - loss) as real / 512.0;
    assert product as real == rate as real * (512 - loss) as real;
    assert rate as real * ((512 - loss) as real / 512.0) == product as real / 512.0;
    FloorOfQuotient(product, 512);
  }

  lemma FloorOfQuotient(a: int, b: int)
    requires 0 < b
    ensures (a as real / b as real).Floor == a / b
  {
    var q, r := a / b, a % b;
    assert a == b * q + r;
    assert a as real == b as real * q as real + r as real;
    assert a as real / b as real == q as real + r as real / b as real;
    assert 0.0 <= r as real / b as real < 1.0;
  }

  /** The increase is at most 5.1%, and at least the draft's 5% once truncation no longer matters. */
  lemma DraftIncrease(rate: int, loss: FractionLost)
    requires 0 <= rate && loss < 5
    ensures AdjustedRate(rate, loss) * 1000 <= rate * 1051
    ensures 1280 <= rate ==> rate * 105 <= AdjustedRate(rate, loss) * 100
  {
    assert rate * 269 - 255 <= (rate * 269 / 256) * 256 <= rate * 269;
  }

  /** Both products fit in a signed 32-bit integer up to 4194303 bit/s; the configured maximum is 1800000. */
  lemma ProductsFitIn32Bits(config: StreamConfig, rate: int, losses: seq<FractionLost>, loss: FractionLost)
    requires config.Valid() && config.InLimits(rate) && config.maxBitrate <= 4194303
    ensures var reached := RateAfter(config, rate, losses);
            0 <= reached * 269 < 0x8000_0000 && 0 <= reached * (512 - loss) < 0x8000_0000
  {
    RateStaysInLimits(config, rate, losses);
    ScaleMonotone(0, RateAfter(config, rate, losses), 0, 512 - loss);
    ScaleMonotone(RateAfter(config, rate, losses), 4194303, 512 - loss, 512);
  }

  // Convergence

  ghost predicate AllBelow(losses: seq<FractionLost>, bound: int) {
    forall k | 0 <= k < |losses| :: losses[k] < bound
  }

  ghost predicate AllAbove(losses: seq<FractionLost>, bound: int) {
    forall k | 0 <= k < |losses| :: losses[k] > bound
  }

  /** `n` increases without any cap. */
  function Grown(rate: nat, n: nat): nat
    decreases n
  {
    if n == 0 then rate else Grown(rate * 269 / 256, n - 1)
  }

  /** `n` of the mildest decreases without any cap. */
  function Shrunk(rate: nat, n: nat): nat
    decreases n
  {
    if n == 0 then rate else Shrunk(rate * 486 / 512, n - 1)
  }

  /** Under low loss the capped run is the uncapped one, capped once at the end. */
  lemma {:induction false} LowLossRun(config: StreamConfig, rate: nat, losses: seq<FractionLost>)
    requires config.Valid() && config.InLimits(rate) && AllBelow(losses, 5)
    ensures RateAfter(config, rate, losses) == if Grown(rate, |losses|) > config.maxBitrate then config.maxBitrate
                                               else Grown(rate, |losses|)
    decreases |losses|
  {
    if losses == [] {
    } else {
      var next := rate * 269 / 256;
      assert rate <= next;
      if next <= config.maxBitrate {
        LowLossRun(config, next, losses[1..]);
      } else {
        LowLossRun(config, config.maxBitrate, losses[1..]);
        GrownIsMonotone(config.maxBitrate, next, |losses| - 1);
        GrownNeverFalls(config.maxBitrate, |losses| - 1);
        GrownNeverFalls(next, |losses| - 1);
      }
    }
  }

  lemma {:induction false} GrownNeverFalls(rate: nat, n: nat)
    ensures rate <= Grown(rate, n)
    decreases n
  {
    if n == 0 {
    } else {
      GrownNeverFalls(rate * 269 / 256, n - 1);
    }
  }

  lemma {:induction false} GrownIsMonotone(low: nat, high: nat, n: nat)
    requires low <= high
    ensures Grown(low, n) <= Grown(high, n)
    decreases n
  {
    if n == 0 {
    } else {
      GrownIsMonotone(low * 269 / 256, high * 269 / 256, n - 1);
    }
  }

  lemma {:induction false} HighLossRun(config: StreamConfig, rate: nat, losses: seq<FractionLost>)
    requires config.Valid() && config.InLimits(rate) && AllAbove(losses, 25)
    ensures RateAfter(config, rate, losses) == config.minBitrate
            || RateAfter(config, rate, losses) <= Shrunk(rate, |losses|)
    decreases |losses|
  {
    if losses == [] {
    } else {
      var next := RateAfterReport(config, rate, losses[0]);
      var loss: int := losses[0];
      ScaleMonotone(rate, rate, 512 - loss, 486);
      ScaleMonotone(rate, rate, 486, 512);
      HighLossRun(config, next, losses[1..]);
      if next == config.minBitrate {
        StuckAtMin(config, losses[1..]);
      } else {
        ShrunkIsMonotone(next, rate * 486 / 512, |losses| - 1);
      }
    }
  }

  lemma {:induction false} StuckAtMin(config: StreamConfig, losses: seq<FractionLost>)
    requires config.Valid() && AllAbove(losses, 25)
    ensures RateAfter(config, config.minBitrate, losses) == config.minBitrate
    decreases |losses|
  {
    if losses == [] {
    } else {
      var loss: int := losses[0];
      ScaleMonotone(config.minBitrate, config.minBitrate, 512 - loss, 512);
      StuckAtMin(config, losses[1..]);
    }
  }

  lemma {:induction false} ShrunkIsMonotone(low: nat, high: nat, n: nat)
    requires low <= high
    ensures Shrunk(low, n) <= Shrunk(high, n)
    decreases n
  {
    if n == 0 {
    } else {
      ShrunkIsMonotone(low * 486 / 512, high * 486 / 512, n - 1);
    }
  }

  lemma {:induction false} GrownSplit(rate: nat, m: nat, n: nat)
    ensures Grown(rate, m + n) == Grown(Grown(rate, m), n)
    decreases m
  {
    if m == 0 {
    } else {
      GrownSplit(rate * 269 / 256, m - 1, n);
    }
  }

  lemma {:induction false} ShrunkSplit(rate: nat, m: nat, n: nat)
    ensures Shrunk(rate, m + n) == Shrunk(Shrunk(rate, m), n)
    decreases m
  {
    if m == 0 {
    } else {
      ShrunkSplit(rate * 486 / 512, m - 1, n);
    }
  }

  /** Five increases gain 28%, up to what truncation may lose on the way. */
  lemma FiveIncreases(rate: nat)
    ensures 1280 * rate - 5520 <= 1000 * Grown(rate, 5)
  {
    var r1 := rate * 269 / 256;
    var r2 := r1 * 269 / 256;
    var r3 := r2 * 269 / 256;
    var r4 := r3 * 269 / 256;
    var r5 := r4 * 269 / 256;
    assert Grown(rate, 5) == Grown(r1, 4) == Grown(r2, 3) == Grown(r3, 2) == Grown(r4, 1) == r5;
  }

  lemma GrownDoubles(rate: nat)
    requires 256 <= rate
    ensures 2 * rate <= Grown(rate, 15)
  {
    var r5 := Grown(rate, 5);
    var r10 := Grown(r5, 5);
    FiveIncreases(rate);
    FiveIncreases(r5);
    FiveIncreases(r10);
    GrownSplit(rate, 5, 10);
    GrownSplit(r5, 5, 5);
  }

  /** Seven decreases lose at least 30.5%. */
  lemma SevenDecreases(rate: nat)
    ensures 1000 * Shrunk(rate, 7) <= 695 * rate
  {
    var r1 := rate * 486 / 512;
    var r2 := r1 * 486 / 512;
    var r3 := r2 * 486 / 512;
    var r4 := r3 * 486 / 512;
    var r5 := r4 * 486 / 512;
    var r6 := r5 * 486 / 512;
    var r7 := r6 * 486 / 512;
    assert Shrunk(rate, 7) == Shrunk(r1, 6) == Shrunk(r2, 5) == Shrunk(r3, 4);
    assert Shrunk(r3, 4) == Shrunk(r4, 3) == Shrunk(r5, 2) == Shrunk(r6, 1) == r7;
  }

  lemma ShrunkHalves(rate: nat)
    ensures 2 * Shrunk(rate, 14) <= rate
  {
    SevenDecreases(rate);
    SevenDecreases(Shrunk(rate, 7));
    ShrunkSplit(rate, 7, 7);
  }

  /** Fifteen low-loss reports at least double the rate, or reach the maximum. */
  lemma FifteenReportsDouble(config: StreamConfig, rate: nat, losses: seq<FractionLost>)
    requires config.Valid() && 256 <= config.minBitrate && config.InLimits(rate)
    requires |losses| == 15 && AllBelow(losses, 5)
    ensures RateAfter(config, rate, losses) == config.maxBitrate || 2 * rate <= RateAfter(config, rate, losses)
  {
    LowLossRun(config, rate, losses);
    GrownDoubles(rate);
  }

  /** Fourteen high-loss reports at least halve the rate, or reach the minimum. */
  lemma FourteenReportsHalve(config: StreamConfig, rate: nat, losses: seq<FractionLost>)
    requires config.Valid() && config.InLimits(rate)
    requires |losses| == 14 && AllAbove(losses, 25)
    ensures RateAfter(config, rate, losses) == config.minBitrate || 2 * RateAfter(config, rate, losses) <= rate
  {
    HighLossRun(config, rate, losses);
    ShrunkHalves(rate);
  }

  function Pow2(n: nat): nat {
    if n == 0 then 1 else 2 * Pow2(n - 1)
  }

  lemma Halved(p: nat, rate: nat, next: nat)
    requires 2 * rate <= next
    ensures 2 * p * rate <= p * next
  {
    ScaleMonotone(2 * rate, next, p, p);
    assert 2 * p * rate == (2 * rate) * p;
  }

  lemma HalvedBound(p: nat, min: nat, rate: nat, next: nat)
    requires 2 * next <= rate <= 2 * p * min
    ensures next <= p * min
  {
    assert 2 * p * min == 2 * (p * min);
  }

  /** Fifteen low-loss reports bring the maximum one doubling closer. */
  lemma DoublingBlock(config: StreamConfig, rate: nat, losses: seq<FractionLost>, doublings: nat)
    requires config.Valid() && 256 <= config.minBitrate && config.InLimits(rate) && 0 < doublings
    requires config.maxBitrate <= Pow2(doublings) * rate
    requires |losses| == 15 && AllBelow(losses, 5)
    ensures var next := RateAfter(config, rate, losses);
            config.InLimits(next) && config.maxBitrate <= Pow2(doublings - 1) * next
  {
    var next := RateAfter(config, rate, losses);
    FifteenReportsDouble(config, rate, losses);
    RateStaysInLimits(config, rate, losses);
    Pow2IsPositive(doublings - 1);
    if next == config.maxBitrate {
      ScaleMonotone(next, next, 1, Pow2(doublings - 1));
    } else {
      Halved(Pow2(doublings - 1), rate, next);
    }
  }

  lemma {:induction false} Pow2IsPositive(n: nat)
    ensures 0 < Pow2(n)
    decreases n
  {
    if n == 0 {
    } else {
      Pow2IsPositive(n - 1);
    }
  }

  /** From any rate, 15 times ceil(log2(max / rate)) low-loss reports reach the maximum, and further ones hold it. */
  lemma {:induction false} ReachesMax(config: StreamConfig, rate: nat, losses: seq<FractionLost>, doublings: nat)
    requires config.Valid() && 256 <= config.minBitrate && config.InLimits(rate)
    requires config.maxBitrate <= Pow2(doublings) * rate
    requires 15 * doublings <= |losses| && AllBelow(losses, 5)
    ensures RateAfter(config, rate, losses) == config.maxBitrate
    decreases doublings
  {
    if doublings == 0 {
      LowLossRun(config, rate, losses);
      GrownNeverFalls(rate, |losses|);
    } else {
      assert AllBelow(losses[..15], 5) && AllBelow(losses[15..], 5);
      DoublingBlock(config, rate, losses[..15], doublings);
      RateAfterCut(config, rate, losses, 15);
      ReachesMax(config, RateAfter(config, rate, losses[..15]), losses[15..], doublings - 1);
    }
  }

  /** Fourteen high-loss reports bring the minimum one halving closer. */
  lemma HalvingBlock(config: StreamConfig, rate: nat, losses: seq<FractionLost>, halvings: nat)
    requires config.Valid() && config.InLimits(rate) && 0 < halvings
    requires rate <= Pow2(halvings) * config.minBitrate
    requires |losses| == 14 && AllAbove(losses, 25)
    ensures var next := RateAfter(config, rate, losses);
            config.InLimits(next) && next <= Pow2(halvings - 1) * config.minBitrate
  {
    var next := RateAfter(config, rate, losses);
    FourteenReportsHalve(config, rate, losses);
    RateStaysInLimits(config, rate, losses);
    Pow2IsPositive(halvings - 1);
    if next == config.minBitrate {
      ScaleMonotone(next, next, 1, Pow2(halvings - 1));
    } else {
      HalvedBound(Pow2(halvings - 1), config.minBitrate, rate, next);
    }
  }

  /** From any rate, 14 times ceil(log2(rate / min)) high-loss reports reach the minimum, and further ones hold it. */
  lemma {:induction false} ReachesMin(config: StreamConfig, rate: nat, losses: seq<FractionLost>, halvings: nat)
    requires config.Valid() && config.InLimits(rate)
    requires rate <= Pow2(halvings) * config.minBitrate
    requires 14 * halvings <= |losses| && AllAbove(losses, 25)
    ensures RateAfter(config, rate, losses) == config.minBitrate
    decreases halvings
  {
    if halvings == 0 {
      StuckAtMin(config, losses);
    } else {
      assert AllAbove(losses[..14], 25) && AllAbove(losses[14..], 25);
      HalvingBlock(config, rate, losses[..14], halvings);
      RateAfterCut(config, rate, losses, 14);
      ReachesMin(config, RateAfter(config, rate, losses[..14]), losses[14..], halvings - 1);
    }
  }
}
