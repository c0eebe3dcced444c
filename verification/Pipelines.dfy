/**
 Starting and stopping the media pipeline that the slices of one user share (gst/pipeline.go, and the loop of
 sfu/mixer_slice.go that brackets it): the last needed slice to bind starts it, the last one to close stops it.
 */
module Pipelines {
  import opened Common

  // The object, and what each of its calls does

  datatype Kind = Audio | Video

  datatype PipelineState = PipelineState(
    audioOnly: bool,
    audioBound: bool,
    videoBound: bool,
    starts: nat,        // native starts, each closing the started channel
    stopped: nat,
    nativeStops: nat) {

    function Buffers(): nat {
      if audioOnly then 1 else 2
    }
  }

  function Bound(p: PipelineState, kind: Kind): PipelineState {
    var q := if kind == Audio then p.(audioBound := true) else p.(videoBound := true);
    if (if q.audioOnly then kind == Audio else q.audioBound && q.videoBound) then q.(starts := q.starts + 1) else q
  }

  function StoppedOnce(p: PipelineState): PipelineState {
    var q := p.(stopped := p.stopped + 1);
    if q.stopped == q.Buffers() then q.(nativeStops := q.nativeStops + 1) else q
  }

  class Pipeline {
    const audioOnly: bool
    var audioOutput: Option<TrackId>
    var videoOutput: Option<TrackId>
    var stoppedCount: nat
    ghost var starts: nat
    ghost var nativeStops: nat

    constructor (audioOnly: bool)
      ensures View() == PipelineState(audioOnly, false, false, 0, 0, 0)
    {
      this.audioOnly := audioOnly;
      audioOutput, videoOutput, stoppedCount, starts, nativeStops := None, None, 0, 0, 0;
    }

    ghost function View(): PipelineState
      reads this
    {
      PipelineState(audioOnly, audioOutput.Some?, videoOutput.Some?, starts, stoppedCount, nativeStops)
    }

    method BindTrackAutoStart(kind: Kind, t: TrackId)
      modifies this
      ensures View() == Bound(old(View()), kind)
      ensures kind == Audio ==> audioOutput == Some(t) && videoOutput == old(videoOutput)
      ensures kind == Video ==> videoOutput == Some(t) && audioOutput == old(audioOutput)
    {
      if kind == Audio {
        audioOutput := Some(t);
      } else {
        videoOutput := Some(t);
      }
      UpdateReady(kind);
    }

    method UpdateReady(kind: Kind)
      modifies this`starts
      ensures starts == old(starts) +
        if (if audioOnly then kind == Audio else audioOutput.Some? && videoOutput.Some?) then 1 else 0
    {
      if audioOnly {
        if kind == Audio {
          starts := starts + 1;
        }
      } else if audioOutput.Some? && videoOutput.Some? {
        starts := starts + 1;
      }
    }

    method Stop()
      modifies this`stoppedCount, this`nativeStops
      ensures View() == StoppedOnce(old(View()))
    {
      var buffers := if audioOnly then 1 else 2;
      stoppedCount := stoppedCount + 1;
      if stoppedCount == buffers {
        nativeStops := nativeStops + 1;
      }
    }
  }

  // The slices around it

  datatype SlicePc = Made | Waiting | Running | Closed

  datatype PipeSlice = PipeSlice(kind: Kind, pc: SlicePc)

  datatype Bracket = Bracket(pipeline: PipelineState, slices: map<TrackId, PipeSlice>)

  datatype Step =
    | Make(s: TrackId, kind: Kind)
    | Bind(s: TrackId)
    | Begin(s: TrackId)   // the started channel is closed
    | Close(s: TrackId)

  predicate At(b: Bracket, s: TrackId, pc: SlicePc) {
    s in b.slices && b.slices[s].pc == pc
  }

  predicate Enabled(b: Bracket, step: Step) {
    match step
    case Make(s, kind) => s !in b.slices
    case Bind(s) => At(b, s, Made)
    case Begin(s) => At(b, s, Waiting) && b.pipeline.starts > 0
    case Close(s) => At(b, s, Running)
  }

  function Move(b: Bracket, s: TrackId, pc: SlicePc): Bracket
    requires s in b.slices
  {
    b.(slices := b.slices[s := b.slices[s].(pc := pc)])
  }

  function Next(b: Bracket, step: Step): Bracket
    requires Enabled(b, step)
  {
    match step
    case Make(s, kind) => b.(slices := b.slices[s := PipeSlice(kind, Made)])
    case Bind(s) => Move(b, s, Waiting).(pipeline := Bound(b.pipeline, b.slices[s].kind))
    case Begin(s) => Move(b, s, Running)
    case Close(s) => Move(b, s, Closed).(pipeline := StoppedOnce(b.pipeline))
  }

  ghost predicate Legal(b: Bracket, steps: seq<Step>)
    decreases |steps|
  {
    steps == [] || (Enabled(b, steps[0]) && Legal(Next(b, steps[0]), steps[1..]))
  }

  ghost function Run(b: Bracket, steps: seq<Step>): Bracket
    requires Legal(b, steps)
    decreases |steps|
  {
    if steps == [] then b else Run(Next(b, steps[0]), steps[1..])
  }

  function Initial(audioOnly: bool): Bracket {
    Bracket(PipelineState(audioOnly, false, false, 0, 0, 0), map[])
  }

  predicate Needed(b: Bracket, kind: Kind) {
    kind == Audio || !b.pipeline.audioOnly
  }

  /** No two slices of a kind, and none of a kind that is not needed. */
  ghost predicate OneSlicePerKind(b: Bracket) {
    && (forall s | s in b.slices :: Needed(b, b.slices[s].kind))
    && (forall s, t | s in b.slices && t in b.slices && b.slices[s].kind == b.slices[t].kind :: s == t)
  }

  ghost predicate HasBound(b: Bracket, kind: Kind) {
    exists s :: s in b.slices && b.slices[s].kind == kind && b.slices[s].pc != Made
  }

  ghost predicate HasClosed(b: Bracket, kind: Kind) {
    exists s :: s in b.slices && b.slices[s].kind == kind && b.slices[s].pc == Closed
  }

  ghost predicate AllBound(b: Bracket) {
    HasBound(b, Audio) && (b.pipeline.audioOnly || HasBound(b, Video))
  }

  ghost predicate AllClosed(b: Bracket) {
    HasClosed(b, Audio) && (b.pipeline.audioOnly || HasClosed(b, Video))
  }

  function Flag(b: bool): nat {
    if b then 1 else 0
  }

  ghost predicate Inv(b: Bracket) {
    && b.pipeline.audioBound == HasBound(b, Audio) && b.pipeline.videoBound == HasBound(b, Video)
    && b.pipeline.starts == Flag(AllBound(b))
    && b.pipeline.stopped == Flag(HasClosed(b, Audio)) + Flag(HasClosed(b, Video))
    && b.pipeline.nativeStops == Flag(AllClosed(b))
    && (forall s | s in b.slices && (b.slices[s].pc == Running || b.slices[s].pc == Closed) :: b.pipeline.starts > 0)
  }

  /** Moving one slice is felt by the predicates of its own kind only. */
  lemma MovedKinds(b: Bracket, s: TrackId, pc: SlicePc)
    requires OneSlicePerKind(b) && s in b.slices && pc != Made
    ensures var c, kind := Move(b, s, pc), b.slices[s].kind;
            && HasBound(c, kind)
            && (HasClosed(c, kind) <==> pc == Closed)
            && (HasBound(b, kind) <==> b.slices[s].pc != Made)
            && (HasClosed(b, kind) <==> b.slices[s].pc == Closed)
            && forall other | other != kind ::
                 HasBound(c, other) == HasBound(b, other) && HasClosed(c, other) == HasClosed(b, other)
  {
    var c, kind := Move(b, s, pc), b.slices[s].kind;
    assert c.slices[s].kind == kind && c.slices[s].pc == pc;
    forall other | other != kind
      ensures HasBound(c, other) == HasBound(b, other) && HasClosed(c, other) == HasClosed(b, other)
    {
      assert forall t | t in b.slices && b.slices[t].kind == other :: c.slices[t] == b.slices[t];
      assert forall t | t in c.slices && c.slices[t].kind == other :: b.slices[t] == c.slices[t];
    }
  }

  lemma MakeKeepsInv(b: Bracket, s: TrackId, kind: Kind)
    requires Inv(b) && s !in b.slices
    ensures Inv(Next(b, Make(s, kind)))
  {
    var c := Next(b, Make(s, kind));
    forall k ensures HasBound(c, k) == HasBound(b, k) && HasClosed(c, k) == HasClosed(b, k) {
      assert forall t | t in b.slices :: c.slices[t] == b.slices[t];
      assert forall t | t in c.slices && c.slices[t].pc != Made :: t in b.slices && b.slices[t] == c.slices[t];
    }
  }

  lemma StepKeepsInv(b: Bracket, step: Step)
    requires Inv(b) && Enabled(b, step) && OneSlicePerKind(Next(b, step))
    ensures Inv(Next(b, step)) && OneSlicePerKind(b)
  {
    FewerSlices(b, step);
    match step
    case Make(s, kind) => MakeKeepsInv(b, s, kind);
    case Bind(s) => MovedKinds(b, s, Waiting);
    case Begin(s) => MovedKinds(b, s, Running);
    case Close(s) => MovedKinds(b, s, Closed);
  }

  lemma FewerSlices(b: Bracket, step: Step)
    requires Enabled(b, step) && OneSlicePerKind(Next(b, step))
    ensures OneSlicePerKind(b)
  {
    var c := Next(b, step);
    forall s | s in b.slices ensures s in c.slices && c.slices[s].kind == b.slices[s].kind {}
  }

  lemma {:induction false} LaterHasMore(b: Bracket, steps: seq<Step>)
    requires Legal(b, steps) && OneSlicePerKind(Run(b, steps))
    ensures OneSlicePerKind(b)
    decreases |steps|
  {
    if steps == [] {
    } else {
      LaterHasMore(Next(b, steps[0]), steps[1..]);
      FewerSlices(b, steps[0]);
    }
  }

  lemma {:induction false} RunKeepsInv(b: Bracket, steps: seq<Step>)
    requires Inv(b) && Legal(b, steps) && OneSlicePerKind(Run(b, steps))
    ensures Inv(Run(b, steps))
    decreases |steps|
  {
    if steps == [] {
    } else {
      LaterHasMore(Next(b, steps[0]), steps[1..]);
      StepKeepsInv(b, steps[0]);
      RunKeepsInv(Next(b, steps[0]), steps[1..]);
    }
  }

  /**
   With one slice of each needed kind: the pipeline has been started once, and only once, all needed slices have bound;
   it has been stopped once, and only once, all have closed; so never under a running slice.
   */
  lemma PipelineBracket(b: Bracket, audioOnly: bool, steps: seq<Step>)
    requires Legal(Initial(audioOnly), steps) && b == Run(Initial(audioOnly), steps) && OneSlicePerKind(b)
    ensures b.pipeline.starts <= 1 && (b.pipeline.starts == 1 <==> AllBound(b))
    ensures b.pipeline.nativeStops == 1 <==> AllClosed(b)
    ensures forall s | At(b, s, Running) :: b.pipeline.starts == 1 && b.pipeline.nativeStops == 0
  {
    RunKeepsInv(Initial(audioOnly), steps);
    KindsAreNeeded(b);
  }

  lemma KindsAreNeeded(b: Bracket)
    requires Inv(b) && OneSlicePerKind(b)
    ensures AllClosed(b) ==> AllBound(b)
    ensures forall s | At(b, s, Running) :: !AllClosed(b)
  {
    forall s | At(b, s, Running) ensures !AllClosed(b) {
      assert !HasClosed(b, b.slices[s].kind);
    }
  }

  /** Started means that everything needed has bound at some time, whatever slices there are. */
  predicate StartedWhenBound(p: PipelineState) {
    p.starts > 0 <==> p.audioBound && (p.audioOnly || p.videoBound)
  }

  lemma {:induction false} RunKeepsStarted(b: Bracket, steps: seq<Step>)
    requires Legal(b, steps) && StartedWhenBound(b.pipeline)
    ensures StartedWhenBound(Run(b, steps).pipeline)
    decreases |steps|
  {
    if steps == [] {
    } else {
      RunKeepsStarted(Next(b, steps[0]), steps[1..]);
    }
  }

  /** Once started, a further bind closes the started channel again exactly when its slice is of a needed kind. */
  lemma SecondStartIff(b: Bracket, audioOnly: bool, steps: seq<Step>, s: TrackId)
    requires Legal(Initial(audioOnly), steps) && b == Run(Initial(audioOnly), steps) && Enabled(b, Bind(s))
    requires b.pipeline.starts > 0
    ensures Next(b, Bind(s)).pipeline.starts > b.pipeline.starts <==> Needed(b, b.slices[s].kind)
  {
    RunKeepsStarted(Initial(audioOnly), steps);
  }

  function ClosedSlices(b: Bracket): set<TrackId> {
    set s | s in b.slices && b.slices[s].pc == Closed
  }

  /** The native stop comes with the last needed close, whoever closes, and no slice gets that far before the start. */
  ghost predicate StopsCounted(b: Bracket) {
    && b.pipeline.stopped == |ClosedSlices(b)|
    && b.pipeline.nativeStops == Flag(b.pipeline.stopped >= b.pipeline.Buffers())
    && (forall s | At(b, s, Running) || At(b, s, Closed) :: b.pipeline.starts > 0)
  }

  lemma MovedClosed(b: Bracket, s: TrackId, slice: PipeSlice)
    requires !At(b, s, Closed)
    ensures var c := b.(slices := b.slices[s := slice]);
            |ClosedSlices(c)| == |ClosedSlices(b)| + if slice.pc == Closed then 1 else 0
  {
    var c := b.(slices := b.slices[s := slice]);
    if slice.pc == Closed {
      assert ClosedSlices(c) == ClosedSlices(b) + {s};
    } else {
      assert ClosedSlices(c) == ClosedSlices(b);
    }
  }

  lemma StepKeepsStops(b: Bracket, step: Step)
    requires StopsCounted(b) && Enabled(b, step)
    ensures StopsCounted(Next(b, step))
  {
    var c := Next(b, step);
    MovedClosed(b, step.s, c.slices[step.s]);
    assert ClosedSlices(c) == ClosedSlices(b.(slices := b.slices[step.s := c.slices[step.s]]));
    forall t | At(c, t, Running) || At(c, t, Closed) ensures c.pipeline.starts > 0 {
      if t == step.s {
        assert step.Begin? || At(b, t, Running);
      } else {
        assert At(b, t, c.slices[t].pc);
      }
    }
  }

  lemma {:induction false} RunKeepsStops(b: Bracket, steps: seq<Step>)
    requires StopsCounted(b) && Legal(b, steps)
    ensures StopsCounted(Run(b, steps))
    decreases |steps|
  {
    if steps == [] {
    } else {
      StepKeepsStops(b, steps[0]);
      RunKeepsStops(Next(b, steps[0]), steps[1..]);
    }
  }

  lemma ReachableStops(b: Bracket, audioOnly: bool, steps: seq<Step>)
    requires Legal(Initial(audioOnly), steps) && b == Run(Initial(audioOnly), steps)
    ensures StopsCounted(b)
  {
    assert ClosedSlices(Initial(audioOnly)) == {};
    RunKeepsStops(Initial(audioOnly), steps);
  }

  /**
   Whatever slices there are: the pipeline is stopped at most once, exactly when as many slices have closed as there are
   needed kinds, and never before it started.
   */
  lemma StopsOnceAfterStart(b: Bracket, audioOnly: bool, steps: seq<Step>)
    requires Legal(Initial(audioOnly), steps) && b == Run(Initial(audioOnly), steps)
    ensures b.pipeline.nativeStops <= 1
    ensures b.pipeline.nativeStops == 1 <==> |ClosedSlices(b)| >= b.pipeline.Buffers()
    ensures b.pipeline.nativeStops <= b.pipeline.starts
  {
    ReachableStops(b, audioOnly, steps);
    if ClosedSlices(b) == {} {
    } else {
      var s :| s in ClosedSlices(b);
      assert At(b, s, Closed);
    }
  }

  /** The exact condition, at a close: it stops the pipeline under a running slice. */
  lemma StopUnderRunningIff(b: Bracket, audioOnly: bool, steps: seq<Step>, s: TrackId)
    requires Legal(Initial(audioOnly), steps) && b == Run(Initial(audioOnly), steps) && Enabled(b, Close(s))
    ensures var c := Next(b, Close(s));
            c.pipeline.nativeStops > b.pipeline.nativeStops && (exists t :: At(c, t, Running))
            <==> |ClosedSlices(b)| + 1 == b.pipeline.Buffers() && exists t :: t != s && At(b, t, Running)
  {
    ReachableStops(b, audioOnly, steps);
    var c := Next(b, Close(s));
    assert !At(c, s, Running);
    forall t | t != s ensures At(c, t, Running) == At(b, t, Running) {}
  }

  lemma Extend(audioOnly: bool, steps: seq<Step>, step: Step)
    requires Legal(Initial(audioOnly), steps) && Enabled(Run(Initial(audioOnly), steps), step)
    ensures Legal(Initial(audioOnly), steps + [step])
    ensures Run(Initial(audioOnly), steps + [step]) == Next(Run(Initial(audioOnly), steps), step)
  {
    ExtendFrom(Initial(audioOnly), steps, step);
  }

  lemma {:induction false} ExtendFrom(b: Bracket, steps: seq<Step>, step: Step)
    requires Legal(b, steps) && Enabled(Run(b, steps), step)
    ensures Legal(b, steps + [step]) && Run(b, steps + [step]) == Next(Run(b, steps), step)
    decreases |steps|
  {
    if steps == [] {
      assert [step][1..] == [];
    } else {
      assert (steps + [step])[1..] == steps[1..] + [step];
      ExtendFrom(Next(b, steps[0]), steps[1..], step);
    }
  }

  /** A second audio slice closes the started channel a second time. */
  lemma SecondAudioRestarts() returns (b: Bracket, steps: seq<Step>)
    ensures Legal(Initial(true), steps) && b == Run(Initial(true), steps)
    ensures Enabled(b, Bind("b")) && b.pipeline.starts == 1 && Next(b, Bind("b")).pipeline.starts == 2
  {
    b, steps := Initial(true), [];
    var plan := [Make("a", Audio), Make("b", Audio), Bind("a")];
    Extend(true, steps, plan[0]); b, steps := Next(b, plan[0]), steps + [plan[0]];
    Extend(true, steps, plan[1]); b, steps := Next(b, plan[1]), steps + [plan[1]];
    Extend(true, steps, plan[2]); b, steps := Next(b, plan[2]), steps + [plan[2]];
  }

  /** A video slice in an audio-only interaction stops the pipeline under the running audio slice. */
  lemma VideoStopsAudioOnly() returns (b: Bracket, steps: seq<Step>)
    ensures Legal(Initial(true), steps) && b == Run(Initial(true), steps)
    ensures b.pipeline.nativeStops == 1 && At(b, "a", Running) && b.slices["a"].kind == Audio
  {
    b, steps := Initial(true), [];
    var plan := [Make("a", Audio), Make("v", Video), Bind("a"), Bind("v"), Begin("a"), Begin("v"), Close("v")];
    Extend(true, steps, plan[0]); b, steps := Next(b, plan[0]), steps + [plan[0]];
    Extend(true, steps, plan[1]); b, steps := Next(b, plan[1]), steps + [plan[1]];
    Extend(true, steps, plan[2]); b, steps := Next(b, plan[2]), steps + [plan[2]];
    Extend(true, steps, plan[3]); b, steps := Next(b, plan[3]), steps + [plan[3]];
    Extend(true, steps, plan[4]); b, steps := Next(b, plan[4]), steps + [plan[4]];
    Extend(true, steps, plan[5]); b, steps := Next(b, plan[5]), steps + [plan[5]];
    Extend(true, steps, plan[6]); b, steps := Next(b, plan[6]), steps + [plan[6]];
  }
}
