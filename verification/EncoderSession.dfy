/** The encoder session on the render thread: when it is opened and destroyed, which transport timestamp and
    which metadata an input gets, and how an output finds its metadata again. The hardware encoder is an
    oracle: it rejects an input, delays its output, or returns an output with some timestamp. */
module EncoderSession {
  import opened Wrappers
  import RosEpochs

  const RTP_CLOCK_RATE := 90_000
  const MAXIMUM_PENDING_ENCODED_FRAMES := 4

  // ----- transport timestamps -----

  /** Frames per second as a fraction, already clamped to at least 0.1. */
  datatype Rate = Rate(frames: nat, seconds: nat)
  {
    predicate Clamped() { seconds > 0 && 10 * frames >= seconds }
  }

  /** index * 90000 / rate, rounded half away from zero. */
  function Timestamp(rate: Rate, index: nat): nat
    requires rate.Clamped()
  {
    (2 * RTP_CLOCK_RATE * rate.seconds * index + rate.frames) / (2 * rate.frames)
  }

  /** A timestamp is within half a tick of the exact time, and a half is rounded up. */
  lemma TimestampRounds(rate: Rate, index: nat)
    requires rate.Clamped()
    ensures var exact, ticks := 2 * RTP_CLOCK_RATE * rate.seconds * index, 2 * rate.frames * Timestamp(rate, index);
            ticks - rate.frames <= exact < ticks + rate.frames
  {
    var a := 2 * RTP_CLOCK_RATE * rate.seconds * index + rate.frames;
    assert a == 2 * rate.frames * (a / (2 * rate.frames)) + a % (2 * rate.frames);
  }

  lemma DivideAdds(a: nat, b: nat, d: nat)
    requires d > 0 && b >= d
    ensures a / d + 1 <= (a + b) / d
  {
    var p, q := a / d, (a + b) / d;
    assert a + b == d * q + (a + b) % d && a == d * p + a % d;
    assert q < p + 1 ==> d * q <= d * p;
  }

  lemma TimestampStep(rate: Rate, index: nat)
    requires rate.Clamped() && rate.frames <= RTP_CLOCK_RATE * rate.seconds
    ensures Timestamp(rate, index) < Timestamp(rate, index + 1)
  {
    var a := 2 * RTP_CLOCK_RATE * rate.seconds * index + rate.frames;
    assert 2 * RTP_CLOCK_RATE * rate.seconds * (index + 1) + rate.frames == a + 2 * RTP_CLOCK_RATE * rate.seconds;
    DivideAdds(a, 2 * RTP_CLOCK_RATE * rate.seconds, 2 * rate.frames);
  }

  lemma {:induction false} TimestampsIncrease(rate: Rate, i: nat, j: nat)
    requires rate.Clamped() && rate.frames <= RTP_CLOCK_RATE * rate.seconds && i < j
    ensures Timestamp(rate, i) < Timestamp(rate, j)
    decreases j
  {
    TimestampStep(rate, j - 1);
    if i < j - 1 {
      TimestampsIncrease(rate, i, j - 1);
    }
  }

  lemma {:induction false} SlowClockRepeats(rate: Rate, n: nat) returns (i: nat)
    requires rate.Clamped() && Timestamp(rate, n) < n
    ensures Timestamp(rate, i + 1) <= Timestamp(rate, i)
  {
    if Timestamp(rate, n) <= Timestamp(rate, n - 1) {
      i := n - 1;
    } else {
      i := SlowClockRepeats(rate, n - 1);
    }
  }

  /** The clock moves with every frame exactly if there are no more frames than clock ticks in a second. */
  lemma ClockMovesWithEveryFrame(rate: Rate)
    requires rate.Clamped()
    ensures rate.frames <= RTP_CLOCK_RATE * rate.seconds
       <==> forall i: nat {:trigger Timestamp(rate, i + 1)} :: Timestamp(rate, i) < Timestamp(rate, i + 1)
  {
    if rate.frames <= RTP_CLOCK_RATE * rate.seconds {
      forall i: nat ensures Timestamp(rate, i) < Timestamp(rate, i + 1) { TimestampStep(rate, i); }
    } else {
      var n, k := rate.frames, RTP_CLOCK_RATE * rate.seconds;
      assert 2 * RTP_CLOCK_RATE * rate.seconds * n + n == k * (2 * n) + n;
      QuotientBound(k * (2 * n) + n, 2 * n, k);
      var i := SlowClockRepeats(rate, n);
    }
  }

  lemma QuotientBound(a: nat, d: nat, k: nat)
    requires d > 0 && a < k * d + d
    ensures a / d <= k
  {
    var q := a / d;
    assert a == d * q + a % d;
    assert q > k ==> d * q >= d * (k + 1);
  }

  // ----- state and steps -----

  datatype Pending = Pending(index: nat, timestamp: nat, sourceTime: int, sourceSequence: nat, session: nat)

  datatype Encoder = Encoder(
    rate: Rate,
    open: bool,
    width: nat,
    height: nat,
    everOpened: bool,
    lastSourceTime: Option<int>,
    pending: seq<Pending>,
    frameIndex: nat,
    session: nat,              // sessions opened so far
    inputs: seq<Pending>,      // submitted; the place is the source sequence
    outputs: seq<Pending>)     // metadata handed out with an encoded frame

  datatype Outcome = Rejected | Delayed | Output(locked: bool, timestamp: nat)

  /** One rendered frame, and what the world answers while it is encoded. */
  datatype Render = Render(
    texture: bool, sourceTime: int, width: nat, height: nat,
    opens: bool,               // an encoder could be opened
    epochPending: bool,        // the ROS branch has stamped no frame of its epoch
    prepared: bool,            // picture copied and mapped
    forced: bool,              // a keyframe was requested
    outcome: Outcome)

  /** What the render thread does to the other parts, in order. */
  datatype Op =
    | ClearRtp | BeginEpoch(d: RosEpochs.Discontinuity) | RequestKeyframe
    | AskPendingEpoch(answer: bool) | StartSession(session: nat)
    | TakeRequest(forced: bool) | NoFrame | Send(frame: Pending, current: bool)

  function Initial(rate: Rate): Encoder {
    Encoder(rate, false, 0, 0, false, None, [], 0, 0, [], [])
  }

  function Destroyed(e: Encoder): Encoder {
    e.(open := false, width := 0, height := 0, pending := [], lastSourceTime := None)
  }

  predicate Backwards(e: Encoder, time: int) {
    e.lastSourceTime.Some? && time < e.lastSourceTime.value
  }

  function Observed(e: Encoder, time: int): Encoder {
    (if Backwards(e, time) then Destroyed(e) else e).(lastSourceTime := Some(time))
  }

  predicate Fits(e: Encoder, width: nat, height: nat) {
    e.open && e.width == width && e.height == height
  }

  function Ensured(e: Encoder, r: Render): Encoder {
    if Fits(e, r.width, r.height) then e
    else if r.width == 0 || r.height == 0 || !r.opens then Destroyed(e)
    else Destroyed(e).(open := true, width := r.width, height := r.height, everOpened := true,
                       session := e.session + 1)
  }

  function Submitted(e: Encoder, time: int): Encoder
    requires e.rate.Clamped()
  {
    var p := Pending(e.frameIndex, Timestamp(e.rate, e.frameIndex), time, |e.inputs|, e.session);
    e.(pending := e.pending + [p], inputs := e.inputs + [p])
  }

  /** The place of the first pending frame with the timestamp; behind the end if there is none. */
  function Find(pending: seq<Pending>, timestamp: nat): (k: nat)
    ensures k <= |pending|
    ensures k < |pending| ==> pending[k].timestamp == timestamp
    ensures forall i :: 0 <= i < k ==> pending[i].timestamp != timestamp
  {
    if pending == [] then 0
    else if pending[0].timestamp == timestamp then 0
    else 1 + Find(pending[1..], timestamp)
  }

  lemma FindsExactly(pending: seq<Pending>, timestamp: nat)
    ensures Find(pending, timestamp) < |pending|
       <==> exists k :: 0 <= k < |pending| && pending[k].timestamp == timestamp
  {
    var k := Find(pending, timestamp);
    assert k < |pending| ==> pending[k].timestamp == timestamp;
  }

  function Without(pending: seq<Pending>, k: nat): seq<Pending>
    requires k < |pending|
  {
    pending[..k] + pending[k + 1..]
  }

  predicate Loses(e: Encoder, outcome: Outcome) {
    match outcome
    case Rejected => true
    case Delayed => |e.pending| > MAXIMUM_PENDING_ENCODED_FRAMES
    case Output(locked, timestamp) => !locked || Find(e.pending, timestamp) == |e.pending|
  }

  /** What the encoder's answer to the last input leaves behind. */
  function Answered(e: Encoder, outcome: Outcome): Encoder {
    match outcome
    case Rejected => Destroyed(e)
    case Delayed => if Loses(e, outcome) then Destroyed(e) else e.(frameIndex := e.frameIndex + 1)
    case Output(_, timestamp) =>
      if Loses(e, outcome) then Destroyed(e)
      else
        var k := Find(e.pending, timestamp);
        e.(pending := Without(e.pending, k), outputs := e.outputs + [e.pending[k]], frameIndex := e.frameIndex + 1)
  }

  predicate Submits(e: Encoder, r: Render) {
    r.texture && Ensured(Observed(e, r.sourceTime), r).open && r.prepared
  }

  function Encode(e: Encoder, r: Render): Encoder
    requires e.rate.Clamped()
  {
    if !r.texture then e
    else
      var ready := Ensured(Observed(e, r.sourceTime), r);
      if Submits(e, r) then Answered(Submitted(ready, r.sourceTime), r.outcome) else ready
  }

  const RESET := [ClearRtp, BeginEpoch(RosEpochs.EncoderReset), RequestKeyframe]

  function ObserveOps(e: Encoder, time: int): seq<Op> {
    if Backwards(e, time) then [ClearRtp, BeginEpoch(RosEpochs.SourceTimeReset), RequestKeyframe] else []
  }

  function EnsureOps(e: Encoder, r: Render): seq<Op> {
    if Fits(e, r.width, r.height) || !Ensured(e, r).open then []
    else
      [AskPendingEpoch(r.epochPending)]
      + (if e.everOpened && !r.epochPending then [ClearRtp, BeginEpoch(RosEpochs.EncoderReset)] else [])
      + [StartSession(e.session + 1), RequestKeyframe]
  }

  function AnswerOps(e: Encoder, outcome: Outcome): seq<Op> {
    if Loses(e, outcome) then RESET
    else match outcome
      case Output(_, timestamp) =>
        var frame := e.pending[Find(e.pending, timestamp)];
        [Send(frame, frame.index == e.frameIndex)]
      case _ => [NoFrame]
  }

  function EncodeOps(e: Encoder, r: Render): seq<Op>
    requires e.rate.Clamped()
  {
    if !r.texture then []
    else
      var seen := Observed(e, r.sourceTime);
      ObserveOps(e, r.sourceTime) + EnsureOps(seen, r)
      + if Submits(e, r) then
          [TakeRequest(r.forced)] + AnswerOps(Submitted(Ensured(seen, r), r.sourceTime), r.outcome)
        else []
  }

  /** A rendered frame, or the encoder is released: rendering ends, a transition failed, or the gate asks for it. */
  datatype Event = Frame(r: Render) | Release

  function Step(e: Encoder, event: Event): Encoder
    requires e.rate.Clamped()
  {
    match event
    case Frame(r) => Encode(e, r)
    case Release => Destroyed(e)
  }

  function Run(e: Encoder, events: seq<Event>): Encoder
    requires e.rate.Clamped()
    decreases |events|
  {
    if events == [] then e
    else
      StepKeepsRate(e, events[0]);
      Run(Step(e, events[0]), events[1..])
  }

  lemma StepKeepsRate(e: Encoder, event: Event)
    requires e.rate.Clamped()
    ensures Step(e, event).rate == e.rate
  {
    hide Encode;
    if event.Frame? { EncodeShape(e, event.r); }
  }

  /** The encoder took the frame's input and is not rebuilt over it. */
  predicate Accepts(e: Encoder, r: Render)
    requires e.rate.Clamped()
  {
    Submits(e, r) && !Loses(Submitted(Ensured(Observed(e, r.sourceTime), r), r.sourceTime), r.outcome)
  }

  lemma ReadyShape(e: Encoder, r: Render)
    ensures var t := Ensured(Observed(e, r.sourceTime), r);
            t.inputs == e.inputs && t.outputs == e.outputs && t.rate == e.rate
  {
  }

  lemma AnswerShape(e: Encoder, outcome: Outcome)
    ensures var t := Answered(e, outcome);
            && t.inputs == e.inputs && t.rate == e.rate && e.outputs <= t.outputs && |t.outputs| <= |e.outputs| + 1
            && (|t.outputs| > |e.outputs| ==> !Loses(e, outcome))
  {
    hide Without;
  }

  /** A frame submits one input or none, and hands out one output or none, that only if it is accepted. */
  lemma EncodeShape(e: Encoder, r: Render)
    requires e.rate.Clamped()
    ensures var t := Encode(e, r);
            && t.rate == e.rate
            && e.inputs <= t.inputs && |t.inputs| == |e.inputs| + (if Submits(e, r) then 1 else 0)
            && (Submits(e, r) ==> t.inputs[|e.inputs|].sourceTime == r.sourceTime)
            && e.outputs <= t.outputs && |t.outputs| <= |e.outputs| + 1
            && (|t.outputs| > |e.outputs| ==> Accepts(e, r))
  {
    hide Timestamp, Submits, Ensured, Observed, Answered, Loses;
    ReadyShape(e, r);
    var ready := Ensured(Observed(e, r.sourceTime), r);
    if Submits(e, r) {
      SubmitsTexture(e, r);
      AnswerShape(Submitted(ready, r.sourceTime), r.outcome);
    }
  }

  lemma SubmitsTexture(e: Encoder, r: Render)
    requires Submits(e, r)
    ensures r.texture
  {
  }

  // ----- the invariant -----

  /** A frame is the input its source sequence names, and has the timestamp of its index. */
  predicate Genuine(e: Encoder, p: Pending)
    requires e.rate.Clamped()
  {
    && p.sourceSequence < |e.inputs| && e.inputs[p.sourceSequence] == p
    && p.timestamp == Timestamp(e.rate, p.index)
  }

  predicate InputOk(e: Encoder, i: nat)
    requires e.rate.Clamped() && i < |e.inputs|
  {
    && e.inputs[i].sourceSequence == i && e.inputs[i].timestamp == Timestamp(e.rate, e.inputs[i].index)
    && e.inputs[i].session <= e.session
    && (i > 0 ==>
          && e.inputs[i - 1].session <= e.inputs[i].session
          && (e.inputs[i - 1].session == e.inputs[i].session ==> e.inputs[i - 1].index < e.inputs[i].index))
    && (i > 1 && e.inputs[i - 2].session == e.inputs[i].session ==>
          e.inputs[i - 1].sourceTime <= e.inputs[i].sourceTime)
  }

  predicate InputsOk(e: Encoder)
    requires e.rate.Clamped()
  {
    forall i: nat {:trigger InputOk(e, i)} :: i < |e.inputs| ==> InputOk(e, i)
  }

  /** Pending frames are in the order of their index, of the running session, and not handed out. */
  predicate PendingOk(e: Encoder, bound: nat)
    requires e.rate.Clamped()
  {
    && (!e.open ==> e.pending == [])
    && (forall k {:trigger e.pending[k]} :: 0 <= k < |e.pending| ==>
          && Genuine(e, e.pending[k]) && e.pending[k].session == e.session && e.pending[k].index < bound
          && forall i :: 0 <= i < |e.outputs| ==> e.outputs[i].index != e.pending[k].index)
    && (forall j, k :: 0 <= j < k < |e.pending| ==> e.pending[j].index < e.pending[k].index)
  }

  predicate OutputsOk(e: Encoder)
    requires e.rate.Clamped()
  {
    && (forall i {:trigger e.outputs[i]} :: 0 <= i < |e.outputs| ==>
          Genuine(e, e.outputs[i]) && e.outputs[i].index < e.frameIndex)
    && (forall i, j :: 0 <= i < j < |e.outputs| ==> e.outputs[i].index != e.outputs[j].index)
  }

  /** The last two inputs are of the running session. */
  predicate TwoInputs(e: Encoder) {
    e.open && |e.inputs| > 1 && e.inputs[|e.inputs| - 2].session == e.inputs[|e.inputs| - 1].session == e.session
  }

  /** From a session's second input on, the source time remembered is not before the last input. */
  predicate TimeOk(e: Encoder) {
    TwoInputs(e) ==>
      e.lastSourceTime.Some? && e.inputs[|e.inputs| - 1].sourceTime <= e.lastSourceTime.value
  }

  predicate IndexOk(e: Encoder, bound: nat) {
    e.open && e.inputs != [] && e.inputs[|e.inputs| - 1].session == e.session ==>
      e.inputs[|e.inputs| - 1].index < bound
  }

  predicate Inv(e: Encoder) {
    && e.rate.Clamped()
    && InputsOk(e) && PendingOk(e, e.frameIndex) && OutputsOk(e) && TimeOk(e) && IndexOk(e, e.frameIndex)
    && |e.pending| <= MAXIMUM_PENDING_ENCODED_FRAMES
    && (e.open ==> e.everOpened)
  }

  lemma InitialInv(rate: Rate)
    requires rate.Clamped()
    ensures Inv(Initial(rate))
  {
  }

  /** The time that was observed, behind what is left of the session. */
  predicate SeenAt(t: Encoder, time: int) {
    && (TwoInputs(t) ==> t.inputs[|t.inputs| - 1].sourceTime <= time)
    && (t.open ==> t.lastSourceTime.None? || t.lastSourceTime == Some(time))
    && (t.open && t.lastSourceTime.None? ==> t.inputs == [] || t.inputs[|t.inputs| - 1].session < t.session)
  }

  lemma ObservedKeepsInv(e: Encoder, time: int)
    requires Inv(e)
    ensures var t := Observed(e, time);
            Inv(t) && SeenAt(t, time) && t.rate == e.rate && t.frameIndex == e.frameIndex && t.inputs == e.inputs
  {
    hide Timestamp, InputsOk;
    SameInputs(e, Observed(e, time));
  }

  lemma EnsuredKeepsInv(e: Encoder, r: Render)
    requires Inv(e) && SeenAt(e, r.sourceTime)
    ensures var t := Ensured(e, r);
            Inv(t) && SeenAt(t, r.sourceTime) && t.rate == e.rate && t.frameIndex == e.frameIndex
            && t.inputs == e.inputs
  {
    hide Timestamp;
    var t := Ensured(e, r);
    assert e.inputs != [] ==> InputOk(e, |e.inputs| - 1);
    SameInputsLater(e, t);
    hide InputsOk, InputOk;
  }

  lemma SameInputsLater(e: Encoder, t: Encoder)
    requires e.rate.Clamped() && InputsOk(e) && t.rate == e.rate && t.inputs == e.inputs && e.session <= t.session
    ensures InputsOk(t)
  {
    forall i: nat | i < |t.inputs| ensures InputOk(t, i) { assert InputOk(e, i); }
  }

  lemma ReadyKeepsInv(e: Encoder, r: Render)
    requires Inv(e)
    ensures var t := Ensured(Observed(e, r.sourceTime), r);
            Inv(t) && SeenAt(t, r.sourceTime) && t.rate == e.rate && t.frameIndex == e.frameIndex
            && t.inputs == e.inputs
  {
    hide Inv, Ensured, Observed, SeenAt;
    ObservedKeepsInv(e, r.sourceTime);
    EnsuredKeepsInv(Observed(e, r.sourceTime), r);
  }

  /** Between submission and answer one more frame may be pending, with the index that is not counted yet. */
  predicate Midway(e: Encoder) {
    && e.rate.Clamped()
    && InputsOk(e) && PendingOk(e, e.frameIndex + 1) && OutputsOk(e) && TimeOk(e) && IndexOk(e, e.frameIndex + 1)
    && e.open && e.everOpened && 0 < |e.pending| <= MAXIMUM_PENDING_ENCODED_FRAMES + 1
    && e.pending[|e.pending| - 1].index == e.frameIndex
    && e.pending[|e.pending| - 1].sourceSequence == |e.inputs| - 1
  }

  lemma SubmitGivesMidway(e: Encoder, time: int)
    requires Inv(e) && e.open && SeenAt(e, time)
    ensures Midway(Submitted(e, time))
  {
    hide Timestamp;
    var t, n := Submitted(e, time), |e.inputs|;
    forall i: nat | i < |t.inputs|
      ensures InputOk(t, i)
    {
      assert i < n ==> InputOk(e, i);
      assert n > 0 ==> InputOk(e, n - 1);
    }
  }

  lemma SameInputs(e: Encoder, t: Encoder)
    requires e.rate.Clamped() && InputsOk(e) && t.rate == e.rate && t.inputs == e.inputs && t.session == e.session
    ensures InputsOk(t)
  {
    forall i: nat | i < |t.inputs| ensures InputOk(t, i) { assert InputOk(e, i); }
  }

  lemma TakeKeepsFrames(e: Encoder, k: nat)
    requires Midway(e) && k < |e.pending|
    ensures var t := e.(pending := Without(e.pending, k), outputs := e.outputs + [e.pending[k]],
                        frameIndex := e.frameIndex + 1);
            PendingOk(t, t.frameIndex) && OutputsOk(t)
  {
    hide Timestamp, InputsOk, TimeOk;
    var t := e.(pending := Without(e.pending, k), outputs := e.outputs + [e.pending[k]],
                frameIndex := e.frameIndex + 1);
    forall j | 0 <= j < |t.pending|
      ensures t.pending[j] == e.pending[if j < k then j else j + 1]
    {
    }
  }

  lemma AnswerKeepsInv(e: Encoder, outcome: Outcome)
    requires Midway(e)
    ensures Inv(Answered(e, outcome))
  {
    hide Timestamp;
    SameInputs(e, Answered(e, outcome));
    if outcome.Output? && !Loses(e, outcome) {
      hide InputsOk, PendingOk, OutputsOk;
      TakeKeepsFrames(e, Find(e.pending, outcome.timestamp));
    }
  }

  lemma EncodeKeepsInv(e: Encoder, r: Render)
    requires Inv(e)
    ensures Inv(Encode(e, r))
  {
    hide Inv, Midway, Answered, Submitted, Ensured, Observed, SeenAt;
    assert e.rate.Clamped() by { ClampedByInv(e); }
    if r.texture {
      ReadyKeepsInv(e, r);
      if Submits(e, r) {
        var t := Ensured(Observed(e, r.sourceTime), r);
        SubmitGivesMidway(t, r.sourceTime);
        AnswerKeepsInv(Submitted(t, r.sourceTime), r.outcome);
      }
    }
  }

  lemma ClampedByInv(e: Encoder)
    requires Inv(e)
    ensures e.rate.Clamped() && (e.open ==> e.everOpened)
  {
  }

  lemma DestroyKeepsInv(e: Encoder)
    requires Inv(e)
    ensures Inv(Destroyed(e))
  {
    SameInputs(e, Destroyed(e));
  }

  lemma {:induction false} RunKeepsInv(e: Encoder, events: seq<Event>)
    requires Inv(e) && e.rate.Clamped()
    ensures Inv(Run(e, events)) && Run(e, events).rate == e.rate
    decreases |events|
  {
    hide Inv, Encode, Destroyed;
    if events != [] {
      StepKeepsRate(e, events[0]);
      match events[0] {
        case Frame(r) => EncodeKeepsInv(e, r);
        case Release => DestroyKeepsInv(e);
      }
      RunKeepsInv(Step(e, events[0]), events[1..]);
    }
  }

  // ----- pairing -----

  lemma {:induction false} SessionIndexes(e: Encoder, i: nat, j: nat)
    requires e.rate.Clamped() && InputsOk(e) && i < j < |e.inputs|
    ensures e.inputs[i].session <= e.inputs[j].session
    ensures e.inputs[i].session == e.inputs[j].session ==> e.inputs[i].index < e.inputs[j].index
    decreases j
  {
    assert InputOk(e, j);
    if i < j - 1 {
      SessionIndexes(e, i, j - 1);
    }
  }

  /** Two different inputs of one session never have the same timestamp. */
  lemma OneInputPerTimestamp(rate: Rate, events: seq<Event>, i: nat, j: nat)
    requires rate.Clamped() && rate.frames <= RTP_CLOCK_RATE * rate.seconds
    requires i < j < |Run(Initial(rate), events).inputs|
    ensures var a, b := Run(Initial(rate), events).inputs[i], Run(Initial(rate), events).inputs[j];
            a.session == b.session ==> a.timestamp < b.timestamp
  {
    InitialInv(rate);
    RunKeepsInv(Initial(rate), events);
    var e := Run(Initial(rate), events);
    assert InputOk(e, i) && InputOk(e, j);
    SessionIndexes(e, i, j);
    if e.inputs[i].session == e.inputs[j].session {
      TimestampsIncrease(rate, e.inputs[i].index, e.inputs[j].index);
    }
  }

  /** What one frame hands out: nothing, or the metadata of the one input of the running session that has the
      output's timestamp. Between frames at most four frames wait, in the order of their timestamps. */
  lemma EveryOutputIsPaired(rate: Rate, events: seq<Event>, r: Render)
    requires rate.Clamped() && rate.frames <= RTP_CLOCK_RATE * rate.seconds
    ensures var e := Run(Initial(rate), events);
            && |e.pending| <= MAXIMUM_PENDING_ENCODED_FRAMES
            && (forall j, k :: 0 <= j < k < |e.pending| ==> e.pending[j].timestamp < e.pending[k].timestamp)
            && e.rate == rate
            && var t := Encode(e, r);
               t.outputs == e.outputs
               || (r.outcome.Output?
                   && exists p :: t.outputs == e.outputs + [p] && Genuine(t, p)
                                  && p.session == t.session && p.timestamp == r.outcome.timestamp)
  {
    InitialInv(rate);
    RunKeepsInv(Initial(rate), events);
    var e := Run(Initial(rate), events);
    forall j, k | 0 <= j < k < |e.pending|
      ensures e.pending[j].timestamp < e.pending[k].timestamp
    {
      assert Genuine(e, e.pending[j]) && Genuine(e, e.pending[k]);
      TimestampsIncrease(rate, e.pending[j].index, e.pending[k].index);
    }
    HandsOutOne(e, r);
  }

  lemma HandsOutOne(e: Encoder, r: Render)
    requires Inv(e)
    ensures var t := Encode(e, r);
            t.outputs == e.outputs
            || (r.outcome.Output?
                && exists p :: t.outputs == e.outputs + [p] && Genuine(t, p)
                               && p.session == t.session && p.timestamp == r.outcome.timestamp)
  {
    hide Timestamp, Inv, Midway, Observed, Ensured, Submitted, Answered, Submits, Genuine;
    EncodeKeepsInv(e, r);
    ClampedByInv(e);
    if Submits(e, r) {
      SubmitsOpen(e, r);
      ReadyKeepsInv(e, r);
      var ready := Ensured(Observed(e, r.sourceTime), r);
      SubmitGivesMidway(ready, r.sourceTime);
      AnswerHandsOutOne(Submitted(ready, r.sourceTime), r.outcome);
      ReadyShape(e, r);
      SubmittedShape(ready, r.sourceTime);
    } else {
      NothingHandedOut(e, r);
    }
  }

  lemma SubmitsOpen(e: Encoder, r: Render)
    requires Submits(e, r)
    ensures r.texture && Ensured(Observed(e, r.sourceTime), r).open
  {
    hide Ensured, Observed;
  }

  lemma NothingHandedOut(e: Encoder, r: Render)
    requires e.rate.Clamped() && !Submits(e, r)
    ensures Encode(e, r).outputs == e.outputs
  {
    hide Submits, Ensured, Observed;
    ReadyShape(e, r);
  }

  lemma SubmittedShape(e: Encoder, time: int)
    requires e.rate.Clamped()
    ensures Submitted(e, time).outputs == e.outputs
  {
    hide Timestamp;
  }

  lemma AnswerHandsOutOne(m: Encoder, outcome: Outcome)
    requires Midway(m)
    ensures var t := Answered(m, outcome);
            t.rate.Clamped()
            && (t.outputs == m.outputs
                || (outcome.Output?
                    && exists p :: t.outputs == m.outputs + [p] && Genuine(t, p)
                                   && p.session == t.session && p.timestamp == outcome.timestamp))
  {
    hide Timestamp, InputsOk, OutputsOk, TimeOk;
    if outcome.Output? && !Loses(m, outcome) {
      var p := m.pending[Find(m.pending, outcome.timestamp)];
      assert Genuine(m, p);
      assert Answered(m, outcome).outputs == m.outputs + [p] && Genuine(Answered(m, outcome), p);
    }
  }

  /** No transport timestamp is handed out twice over the plugin's life, across all sessions. */
  lemma TimestampsHandedOutOnce(rate: Rate, events: seq<Event>, i: nat, j: nat)
    requires rate.Clamped() && rate.frames <= RTP_CLOCK_RATE * rate.seconds
    requires i < j < |Run(Initial(rate), events).outputs|
    ensures var o := Run(Initial(rate), events).outputs;
            o[i].timestamp != o[j].timestamp && o[i].sourceSequence != o[j].sourceSequence
  {
    InitialInv(rate);
    RunKeepsInv(Initial(rate), events);
    var e := Run(Initial(rate), events);
    var a, b := e.outputs[i], e.outputs[j];
    assert Genuine(e, a) && Genuine(e, b);
    if a.index < b.index {
      TimestampsIncrease(rate, a.index, b.index);
    } else {
      TimestampsIncrease(rate, b.index, a.index);
    }
  }

  // ----- the clock counts accepted frames -----

  /** How many of the events are frames that the encoder accepts. */
  function Counted(e: Encoder, events: seq<Event>): nat
    requires e.rate.Clamped()
    decreases |events|
  {
    if events == [] then 0
    else
      StepKeepsRate(e, events[0]);
      (if events[0].Frame? && Accepts(e, events[0].r) then 1 else 0) + Counted(Step(e, events[0]), events[1..])
  }

  lemma AnswerCounts(e: Encoder, outcome: Outcome)
    ensures Answered(e, outcome).frameIndex == e.frameIndex + (if Loses(e, outcome) then 0 else 1)
  {
  }

  lemma ReadyIndex(e: Encoder, r: Render)
    ensures var t := Ensured(Observed(e, r.sourceTime), r); t.frameIndex == e.frameIndex && t.rate == e.rate
  {
  }

  lemma EncodeCounts(e: Encoder, r: Render)
    requires e.rate.Clamped()
    ensures Encode(e, r).frameIndex == e.frameIndex + (if Accepts(e, r) then 1 else 0)
  {
    hide Observed, Ensured, Answered, Loses, Timestamp;
    ReadyIndex(e, r);
    var ready := Ensured(Observed(e, r.sourceTime), r);
    if Submits(e, r) { AnswerCounts(Submitted(ready, r.sourceTime), r.outcome); }
  }

  lemma {:induction false} RunCounts(e: Encoder, events: seq<Event>)
    requires e.rate.Clamped()
    ensures Run(e, events).frameIndex == e.frameIndex + Counted(e, events)
    decreases |events|
  {
    hide Encode, Accepts;
    if events != [] {
      StepKeepsRate(e, events[0]);
      if events[0].Frame? { EncodeCounts(e, events[0].r); }
      RunCounts(Step(e, events[0]), events[1..]);
    }
  }

  lemma {:induction false} RunInTwoParts(e: Encoder, a: seq<Event>, b: seq<Event>)
    requires e.rate.Clamped()
    ensures Run(e, a).rate == e.rate && Run(e, a + b) == Run(Run(e, a), b)
    decreases |a|
  {
    hide Step;
    if a == [] {
      assert a + b == b;
    } else {
      assert (a + b)[1..] == a[1..] + b;
      StepKeepsRate(e, a[0]);
      RunInTwoParts(Step(e, a[0]), a[1..], b);
    }
  }

  lemma {:induction false} RunGrows(e: Encoder, events: seq<Event>)
    requires e.rate.Clamped()
    ensures e.inputs <= Run(e, events).inputs
    decreases |events|
  {
    hide Encode;
    if events != [] {
      StepKeepsRate(e, events[0]);
      if events[0].Frame? { EncodeShape(e, events[0].r); }
      RunGrows(Step(e, events[0]), events[1..]);
    }
  }

  lemma SubmitsOne(e: Encoder, r: Render)
    requires e.rate.Clamped() && Submits(e, r)
    ensures var t, n := Encode(e, r), |e.inputs|;
            && |t.inputs| == n + 1
            && t.inputs[n] == Pending(e.frameIndex, Timestamp(e.rate, e.frameIndex), r.sourceTime, n,
                                      Ensured(Observed(e, r.sourceTime), r).session)
  {
    hide Observed, Ensured, Timestamp, Submits;
    EncodeShape(e, r);
    ReadyIndex(e, r);
    ReadyShape(e, r);
    SubmitsTexture(e, r);
    AnswerShape(Submitted(Ensured(Observed(e, r.sourceTime), r), r.sourceTime), r.outcome);
  }

  /** In every run, an input has the timestamp of the number of frames that were accepted before it, over all
      sessions, and the source time of its own frame. */
  lemma InputIsStamped(rate: Rate, before: seq<Event>, r: Render, later: seq<Event>)
    requires rate.Clamped()
    requires Submits(Run(Initial(rate), before), r)
    ensures var n, k := Counted(Initial(rate), before), |Run(Initial(rate), before).inputs|;
            var inputs := Run(Initial(rate), before + ([Frame(r)] + later)).inputs;
            && k < |inputs| && inputs[k].timestamp == Timestamp(rate, n) && inputs[k].index == n
            && inputs[k].sourceTime == r.sourceTime && inputs[k].sourceSequence == k
  {
    hide Step, Submits, Timestamp, Counted;
    var e := Run(Initial(rate), before);
    RunInTwoParts(Initial(rate), before, [Frame(r)] + later);
    RunInTwoParts(e, [Frame(r)], later);
    RunCounts(Initial(rate), before);
    SubmitsOne(e, r);
    FrameRun(e, r);
    RunGrows(Encode(e, r), later);
  }

  lemma FrameRun(e: Encoder, r: Render)
    requires e.rate.Clamped()
    ensures Encode(e, r).rate == e.rate && Run(e, [Frame(r)]) == Encode(e, r)
  {
    hide Encode;
    StepKeepsRate(e, Frame(r));
    assert [Frame(r)][1..] == [];
  }

  // ----- a run without a loss -----

  /** Frames of one size that the encoder answers at once, each with its own output, and whose times do not go
      back. */
  predicate Smooth(rate: Rate, frames: seq<Render>)
    requires rate.Clamped()
  {
    forall i {:trigger frames[i]} :: 0 <= i < |frames| ==>
      && frames[i].texture && frames[i].opens && frames[i].prepared
      && frames[i].width == frames[0].width > 0 && frames[i].height == frames[0].height > 0
      && frames[i].outcome == Output(true, Timestamp(rate, i))
      && (i > 0 ==> frames[i - 1].sourceTime <= frames[i].sourceTime)
  }

  function Frames(frames: seq<Render>): (events: seq<Event>)
    ensures |events| == |frames|
  {
    seq(|frames|, i requires 0 <= i < |frames| => Frame(frames[i]))
  }

  /** The input of the n-th frame. */
  function SmoothInput(rate: Rate, frames: seq<Render>, i: nat): Pending
    requires rate.Clamped() && i < |frames|
  {
    Pending(i, Timestamp(rate, i), frames[i].sourceTime, i, 1)
  }

  predicate SmoothState(e: Encoder, frames: seq<Render>)
    requires e.rate.Clamped()
  {
    && e.open == e.everOpened == (frames != []) && e.pending == [] && e.frameIndex == |frames|
    && e.session == (if frames == [] then 0 else 1)
    && (frames != [] ==> e.width == frames[0].width && e.height == frames[0].height)
    && e.outputs == e.inputs && |e.inputs| == |frames|
    && (forall i: nat :: i < |frames| ==> e.inputs[i] == SmoothInput(e.rate, frames, i))
    && (e.lastSourceTime.Some? ==> frames != [] && e.lastSourceTime.value <= frames[|frames| - 1].sourceTime)
  }

  /** The next frame of such a run. */
  lemma SmoothStep(e: Encoder, frames: seq<Render>, r: Render)
    requires e.rate.Clamped() && Smooth(e.rate, frames + [r]) && SmoothState(e, frames)
    ensures Encode(e, r).rate == e.rate && SmoothState(Encode(e, r), frames + [r])
    ensures frames != [] ==>
              EncodeOps(e, r) == [TakeRequest(r.forced), Send(SmoothInput(e.rate, frames + [r], |frames|), true)]
  {
    hide Timestamp;
    var n, all := |frames|, frames + [r];
    assert all[n] == r && (n > 0 ==> all[n - 1] == frames[n - 1] && all[0] == frames[0]);
    SmoothReady(e, frames, r);
    hide Observed, Ensured, Smooth;
    var ready := Ensured(Observed(e, r.sourceTime), r);
    var p := SmoothInput(e.rate, all, n);
    assert Submitted(ready, r.sourceTime).pending == [] + [p] == [p];
    SmoothAnswer(Submitted(ready, r.sourceTime), p);
    assert [TakeRequest(r.forced)] + [Send(p, true)] == [TakeRequest(r.forced), Send(p, true)];
    assert [] + [] + [TakeRequest(r.forced), Send(p, true)] == [TakeRequest(r.forced), Send(p, true)];
  }

  lemma SmoothReady(e: Encoder, frames: seq<Render>, r: Render)
    requires e.rate.Clamped() && Smooth(e.rate, frames + [r]) && SmoothState(e, frames)
    ensures var t := Ensured(Observed(e, r.sourceTime), r);
            && t == e.(open := true, width := r.width, height := r.height, everOpened := true, session := 1,
                       lastSourceTime := t.lastSourceTime)
            && (t.lastSourceTime.Some? ==> t.lastSourceTime.value <= r.sourceTime)
    ensures ObserveOps(e, r.sourceTime) == []
    ensures frames != [] ==> EnsureOps(Observed(e, r.sourceTime), r) == []
  {
    hide Timestamp;
    var n, all := |frames|, frames + [r];
    assert all[n] == r && (n > 0 ==> all[n - 1] == frames[n - 1] && all[0] == frames[0]);
  }

  lemma SmoothAnswer(m: Encoder, p: Pending)
    requires m.pending == [p] && p.index == m.frameIndex
    ensures var t := Answered(m, Output(true, p.timestamp));
            t == m.(pending := [], outputs := m.outputs + [p], frameIndex := m.frameIndex + 1)
    ensures AnswerOps(m, Output(true, p.timestamp)) == [Send(p, true)]
  {
  }

  lemma {:induction false} SmoothPrefix(rate: Rate, frames: seq<Render>)
    requires rate.Clamped() && Smooth(rate, frames)
    ensures Run(Initial(rate), Frames(frames)).rate == rate && SmoothState(Run(Initial(rate), Frames(frames)), frames)
    decreases |frames|
  {
    hide Timestamp, Encode, Step;
    if frames == [] {
      assert Frames(frames) == [];
    } else {
      var n := |frames| - 1;
      var init := frames[..n];
      SmoothInit(rate, frames);
      SmoothPrefix(rate, init);
      assert init + [frames[n]] == frames && Frames(init) + [Frame(frames[n])] == Frames(frames);
      RunInTwoParts(Initial(rate), Frames(init), [Frame(frames[n])]);
      FrameRun(Run(Initial(rate), Frames(init)), frames[n]);
      SmoothStep(Run(Initial(rate), Frames(init)), init, frames[n]);
    }
  }

  lemma SmoothInit(rate: Rate, frames: seq<Render>)
    requires rate.Clamped() && Smooth(rate, frames) && frames != []
    ensures Smooth(rate, frames[..|frames| - 1])
  {
    var init := frames[..|frames| - 1];
    assert forall i :: 0 <= i < |init| ==> init[i] == frames[i];
  }

  /** Frames that come one after the other, and whose encoder answers at once, make one session: the n-th frame has
      the timestamp round(n * 90000 / rate), its own source time, and comes out with both. */
  lemma SmoothRun(rate: Rate, frames: seq<Render>)
    requires rate.Clamped() && Smooth(rate, frames)
    ensures var e := Run(Initial(rate), Frames(frames));
            && |e.inputs| == |frames| && e.outputs == e.inputs && e.session == (if frames == [] then 0 else 1)
            && forall i: nat :: i < |frames| ==> e.inputs[i] == SmoothInput(rate, frames, i)
  {
    SmoothPrefix(rate, frames);
    hide Run, Smooth;
  }

  // ----- what a frame asks of the others -----

  /** The frame opens a session: it has a size, an encoder could be opened, and none of that size is open any more. */
  predicate Opens(e: Encoder, r: Render) {
    && r.texture && r.width > 0 && r.height > 0 && r.opens
    && !(e.open && e.width == r.width && e.height == r.height
         && !(e.lastSourceTime.Some? && r.sourceTime < e.lastSourceTime.value))
  }

  predicate TimeJumpsBack(e: Encoder, r: Render) {
    r.texture && e.lastSourceTime.Some? && r.sourceTime < e.lastSourceTime.value
  }

  lemma OpenOps(e: Encoder, r: Render)
    requires r.texture
    ensures var seen := Observed(e, r.sourceTime);
            && Ensured(seen, r).session == e.session + (if Opens(e, r) then 1 else 0)
            && EnsureOps(seen, r)
               == (if !Opens(e, r) then []
                   else if e.everOpened && !r.epochPending then
                     [AskPendingEpoch(r.epochPending), ClearRtp, BeginEpoch(RosEpochs.EncoderReset),
                      StartSession(e.session + 1), RequestKeyframe]
                   else [AskPendingEpoch(r.epochPending), StartSession(e.session + 1), RequestKeyframe])
  {
  }

  lemma AnswerAsks(m: Encoder, outcome: Outcome)
    ensures forall op :: op in AnswerOps(m, outcome) && !op.Send? && !op.NoFrame? ==> Loses(m, outcome)
    ensures Loses(m, outcome) ==> AnswerOps(m, outcome) == RESET
  {
  }

  /** Exactly when a frame purges RTP, begins an epoch and for which reason, starts a session, and asks for a
      keyframe. */
  lemma FrameAsks(e: Encoder, r: Render)
    requires e.rate.Clamped()
    ensures var ops, lost := EncodeOps(e, r), Submits(e, r) && !Accepts(e, r);
            var reopened := Opens(e, r) && e.everOpened && !r.epochPending;
            && (BeginEpoch(RosEpochs.SourceTimeReset) in ops <==> TimeJumpsBack(e, r))
            && (BeginEpoch(RosEpochs.EncoderReset) in ops <==> reopened || lost)
            && (forall d :: BeginEpoch(d) in ops ==> d == RosEpochs.SourceTimeReset || d == RosEpochs.EncoderReset)
            && (forall x :: StartSession(x) in ops <==> Opens(e, r) && x == e.session + 1)
            && (RequestKeyframe in ops <==> TimeJumpsBack(e, r) || Opens(e, r) || lost)
            && (ClearRtp in ops <==> TimeJumpsBack(e, r) || reopened || lost)
  {
    hide EncodeOps, Submits, Accepts, Opens, TimeJumpsBack, ObserveOps, EnsureOps, AnswerOps;
    forall op ensures op in EncodeOps(e, r) <==> Does(e, r, op) { OpsAre(e, r, op); }
    DoesReset(e, r);
    DoesOpen(e, r);
    hide Does;
  }

  /** The operation is one of the frame's. */
  predicate Does(e: Encoder, r: Render, op: Op)
    requires e.rate.Clamped()
  {
    var seen := Observed(e, r.sourceTime);
    r.texture
    && (op in ObserveOps(e, r.sourceTime) || op in EnsureOps(seen, r)
        || (Submits(e, r) && (op == TakeRequest(r.forced)
                              || op in AnswerOps(Submitted(Ensured(seen, r), r.sourceTime), r.outcome))))
  }

  lemma OpsAre(e: Encoder, r: Render, op: Op)
    requires e.rate.Clamped()
    ensures op in EncodeOps(e, r) <==> Does(e, r, op)
  {
    hide Observed, Ensured, ObserveOps, EnsureOps, Submitted, AnswerOps, Submits;
  }

  lemma DoesReset(e: Encoder, r: Render)
    requires e.rate.Clamped()
    ensures var lost := Submits(e, r) && !Accepts(e, r);
            var reopened := Opens(e, r) && e.everOpened && !r.epochPending;
            && (Does(e, r, BeginEpoch(RosEpochs.SourceTimeReset)) <==> TimeJumpsBack(e, r))
            && (Does(e, r, BeginEpoch(RosEpochs.EncoderReset)) <==> reopened || lost)
            && (forall d :: Does(e, r, BeginEpoch(d)) ==>
                  d == RosEpochs.SourceTimeReset || d == RosEpochs.EncoderReset)
            && (Does(e, r, ClearRtp) <==> TimeJumpsBack(e, r) || reopened || lost)
  {
    DoesParts(e, r);
    hide Observed, Ensured, EnsureOps, Submitted, Opens, AnswerOps, Loses, ObserveOps;
  }

  lemma DoesOpen(e: Encoder, r: Render)
    requires e.rate.Clamped()
    ensures var lost := Submits(e, r) && !Accepts(e, r);
            && (forall x :: Does(e, r, StartSession(x)) <==> Opens(e, r) && x == e.session + 1)
            && (Does(e, r, RequestKeyframe) <==> TimeJumpsBack(e, r) || Opens(e, r) || lost)
  {
    DoesParts(e, r);
    hide Observed, Ensured, EnsureOps, Submitted, Opens, AnswerOps, Loses, ObserveOps;
  }

  /** The three parts of a frame's operations. */
  lemma DoesParts(e: Encoder, r: Render)
    requires e.rate.Clamped()
    ensures var seen := Observed(e, r.sourceTime);
            var answer := AnswerOps(Submitted(Ensured(seen, r), r.sourceTime), r.outcome);
            && (r.texture ==>
                  ObserveOps(e, r.sourceTime)
                  == if TimeJumpsBack(e, r) then [ClearRtp, BeginEpoch(RosEpochs.SourceTimeReset), RequestKeyframe]
                     else [])
            && (r.texture ==>
                  EnsureOps(seen, r)
                  == (if !Opens(e, r) then []
                      else if e.everOpened && !r.epochPending then
                        [AskPendingEpoch(r.epochPending), ClearRtp, BeginEpoch(RosEpochs.EncoderReset),
                         StartSession(e.session + 1), RequestKeyframe]
                      else [AskPendingEpoch(r.epochPending), StartSession(e.session + 1), RequestKeyframe]))
            && (Submits(e, r) ==> r.texture)
            && (Submits(e, r) && !Accepts(e, r) ==>
                  answer == [ClearRtp, BeginEpoch(RosEpochs.EncoderReset), RequestKeyframe])
            && (Submits(e, r) && Accepts(e, r) ==> forall op :: op in answer ==> op.Send? || op.NoFrame?)
  {
    if r.texture { OpenOps(e, r); }
    AnswerAsks(Submitted(Ensured(Observed(e, r.sourceTime), r), r.sourceTime), r.outcome);
    hide Ensured, EnsureOps, Submitted, Opens, AnswerOps, Loses;
  }

  // ----- source times -----

  /** Inputs `first` to `last` are all of one session, from its first one on. */
  predicate SessionInputs(e: Encoder, first: nat, last: nat) {
    && first <= last < |e.inputs|
    && e.inputs[first].session == e.inputs[last].session
    && (first > 0 ==> e.inputs[first - 1].session != e.inputs[first].session)
  }

  predicate Nondecreasing(e: Encoder, first: nat, last: nat)
    requires last < |e.inputs|
  {
    forall i, j :: first <= i < j <= last ==> e.inputs[i].sourceTime <= e.inputs[j].sourceTime
  }

  lemma {:induction false} LaterTimes(e: Encoder, first: nat, i: nat, j: nat)
    requires Inv(e) && SessionInputs(e, first, j) && first < i < j
    ensures e.inputs[i].sourceTime <= e.inputs[j].sourceTime
    decreases j
  {
    assert InputOk(e, j) && InputOk(e, j - 1);
    if first < j - 2 {
      SessionIndexes(e, first, j - 2);
    }
    SessionIndexes(e, j - 2, j);
    if i < j - 1 {
      LaterTimes(e, first, i, j - 1);
    }
  }

  /** From a session's second input on source times never decrease, so all its times are in order exactly if
      the second is not before the first. */
  lemma SessionTimes(rate: Rate, events: seq<Event>, first: nat, last: nat)
    requires rate.Clamped() && SessionInputs(Run(Initial(rate), events), first, last)
    ensures var e := Run(Initial(rate), events);
            && Nondecreasing(e, first + 1, last)
            && (Nondecreasing(e, first, last)
                <==> first == last || e.inputs[first].sourceTime <= e.inputs[first + 1].sourceTime)
  {
    InitialInv(rate);
    RunKeepsInv(Initial(rate), events);
    var e := Run(Initial(rate), events);
    forall i, j | first < i < j <= last
      ensures e.inputs[i].sourceTime <= e.inputs[j].sourceTime
    {
      SameSession(e, first, j, last);
      LaterTimes(e, first, i, j);
    }
    assert first < last ==> first + 1 <= last;
  }

  lemma SameSession(e: Encoder, first: nat, j: nat, last: nat)
    requires Inv(e) && SessionInputs(e, first, last) && first < j <= last
    ensures SessionInputs(e, first, j)
  {
    SessionIndexes(e, first, j);
    if j < last {
      SessionIndexes(e, j, last);
    }
  }

  /** Opening a session forgets the time just recorded, so a jump back before its second input goes through. */
  lemma FirstJumpBackIsMissed(rate: Rate)
    requires rate.Clamped()
    ensures var frame := Render(true, 5, 640, 480, true, true, true, true, Delayed);
            var e := Run(Initial(rate), [Frame(frame), Frame(frame.(sourceTime := 3))]);
            SessionInputs(e, 0, 1) && !Nondecreasing(e, 0, 1)
  {
    var frame := Render(true, 5, 640, 480, true, true, true, true, Delayed);
    hide Timestamp;
    var events := [Frame(frame), Frame(frame.(sourceTime := 3))];
    var a := Encode(Initial(rate), frame);
    var b := Encode(a, events[1].r);
    assert events[1..] == [events[1]] && events[1..][1..] == [];
    assert Run(a, events[1..]) == Run(b, []);
    assert b.inputs[0].sourceTime == 5 && b.inputs[1].sourceTime == 3;
  }

  // ----- the methods -----

  lemma EnsuredCases(e: Encoder, r: Render)
    ensures var t, d := Ensured(e, r), Destroyed(e);
            var begin := if e.everOpened && !r.epochPending then [ClearRtp, BeginEpoch(RosEpochs.EncoderReset)] else [];
            && d.everOpened == e.everOpened && d.session == e.session && !d.open && d.pending == []
            && (if Fits(e, r.width, r.height) then t == e && EnsureOps(e, r) == []
                else if r.width == 0 || r.height == 0 || !r.opens then t == d && EnsureOps(e, r) == []
                else t == d.(open := true, width := r.width, height := r.height, everOpened := true,
                             session := e.session + 1)
                     && EnsureOps(e, r) == [AskPendingEpoch(r.epochPending)] + begin
                                           + [StartSession(e.session + 1), RequestKeyframe])
  {
  }

  lemma SubmittedIs(e: Encoder, time: int)
    requires e.rate.Clamped()
    ensures var p := Pending(e.frameIndex, Timestamp(e.rate, e.frameIndex), time, |e.inputs|, e.session);
            Submitted(e, time) == e.(pending := e.pending + [p], inputs := e.inputs + [p])
  {
    hide Timestamp;
  }

  lemma FrameOps(a: seq<Op>, b: seq<Op>, c: seq<Op>, d: seq<Op>, e: seq<Op>)
    ensures a + b + c + d + e == a + ((b + c) + (d + e))
    ensures d == [] && e == [] ==> a + b + c == a + ((b + c) + [])
  {
  }

  /** A frame step by step. */
  lemma EncodeCases(e: Encoder, r: Render)
    requires e.rate.Clamped()
    ensures var seen := Observed(e, r.sourceTime);
            var ready, asked := Ensured(seen, r), ObserveOps(e, r.sourceTime) + EnsureOps(seen, r);
            && ready.rate == e.rate && ready.outputs == e.outputs
            && (!r.texture ==> Encode(e, r) == e && EncodeOps(e, r) == [] && !Accepts(e, r))
            && (r.texture && !(ready.open && r.prepared) ==>
                  Encode(e, r) == ready && EncodeOps(e, r) == asked + [] && !Accepts(e, r))
            && (r.texture && ready.open && r.prepared ==>
                  var m := Submitted(ready, r.sourceTime);
                  && Encode(e, r) == Answered(m, r.outcome) && (Accepts(e, r) <==> !Loses(m, r.outcome))
                  && EncodeOps(e, r) == asked + ([TakeRequest(r.forced)] + AnswerOps(m, r.outcome)))
  {
    ReadyShape(e, r);
    hide Observed, ObserveOps, Ensured, EnsureOps, Submitted, Answered, AnswerOps, Loses;
  }

  /** The encoder fields of the plugin. The ghost field `ops` collects what is done to the other parts. */
  class RenderedFrameEncoder {
    const rate: Rate
    var encoderOpen: bool
    var encoderWidth: nat
    var encoderHeight: nat
    var encoderEverInitialized: bool
    var lastSourceTimeNanoseconds: Option<int>
    var pendingEncodedFrames: seq<Pending>
    var encodedFrameIndex: nat
    var sourceFrameSequence: nat
    var session: nat          // names sessions; the program has no such number
    ghost var inputs: seq<Pending>
    ghost var outputs: seq<Pending>
    ghost var ops: seq<Op>

    ghost function View(): Encoder
      reads this
    {
      Encoder(rate, encoderOpen, encoderWidth, encoderHeight, encoderEverInitialized, lastSourceTimeNanoseconds,
              pendingEncodedFrames, encodedFrameIndex, session, inputs, outputs)
    }

    ghost predicate Valid()
      reads this
    {
      rate.Clamped() && sourceFrameSequence == |inputs|
    }

    constructor (rate: Rate)
      requires rate.Clamped()
      ensures Valid() && View() == Initial(rate) && ops == []
    {
      this.rate := rate;
      encoderOpen, encoderWidth, encoderHeight, encoderEverInitialized := false, 0, 0, false;
      lastSourceTimeNanoseconds, pendingEncodedFrames, encodedFrameIndex, sourceFrameSequence := None, [], 0, 0;
      session, inputs, outputs, ops := 0, [], [], [];
    }

    method DestroyEncoder()
      requires Valid()
      modifies this
      ensures Valid() && View() == Destroyed(old(View())) && ops == old(ops)
      ensures !encoderOpen && pendingEncodedFrames == [] && lastSourceTimeNanoseconds == None
    {
      encoderOpen, encoderWidth, encoderHeight := false, 0, 0;
      pendingEncodedFrames := [];
      lastSourceTimeNanoseconds := None;
    }

    method ObserveSourceTime(sourceTime: int)
      requires Valid()
      modifies this
      ensures Valid() && View() == Observed(old(View()), sourceTime)
      ensures ops == old(ops) + ObserveOps(old(View()), sourceTime)
    {
      if lastSourceTimeNanoseconds.Some? && sourceTime < lastSourceTimeNanoseconds.value {
        ops := ops + [ClearRtp, BeginEpoch(RosEpochs.SourceTimeReset), RequestKeyframe];
        DestroyEncoder();
      }
      lastSourceTimeNanoseconds := Some(sourceTime);
    }

    method EnsureEncoder(r: Render) returns (ok: bool)
      requires Valid()
      modifies this
      ensures Valid() && View() == Ensured(old(View()), r) && ok == encoderOpen
      ensures ops == old(ops) + EnsureOps(old(View()), r)
    {
      hide Ensured, EnsureOps, Destroyed;
      EnsuredCases(View(), r);
      if encoderOpen && encoderWidth == r.width && encoderHeight == r.height { return true; }
      DestroyEncoder();
      if r.width == 0 || r.height == 0 || !r.opens { return false; }
      encoderOpen, encoderWidth, encoderHeight := true, r.width, r.height;
      session, pendingEncodedFrames := session + 1, [];
      ghost var begun := [];
      if encoderEverInitialized && !r.epochPending {
        begun := [ClearRtp, BeginEpoch(RosEpochs.EncoderReset)];
      }
      encoderEverInitialized := true;
      ops := ops + ([AskPendingEpoch(r.epochPending)] + begun + [StartSession(session), RequestKeyframe]);
      return true;
    }

    /** Finds and removes the first pending frame with the timestamp. */
    method TakePendingEncodedFrame(timestamp: nat) returns (frame: Option<Pending>)
      requires Valid()
      modifies this
      ensures Valid() && ops == old(ops)
      ensures var k := Find(old(pendingEncodedFrames), timestamp);
              if k == |old(pendingEncodedFrames)| then frame.None? && View() == old(View())
              else
                && frame == Some(old(pendingEncodedFrames)[k])
                && View() == old(View()).(pending := Without(old(pendingEncodedFrames), k),
                                          outputs := old(outputs) + [frame.value])
    {
      var found := 0;
      while found < |pendingEncodedFrames| && pendingEncodedFrames[found].timestamp != timestamp
        invariant found <= |pendingEncodedFrames|
        invariant forall i :: 0 <= i < found ==> pendingEncodedFrames[i].timestamp != timestamp
      {
        found := found + 1;
      }
      FoundFirst(pendingEncodedFrames, timestamp, found);
      if found == |pendingEncodedFrames| { return None; }
      frame := Some(pendingEncodedFrames[found]);
      pendingEncodedFrames := pendingEncodedFrames[..found] + pendingEncodedFrames[found + 1..];
      outputs := outputs + [frame.value];
    }

    /** The encoder's answer: a lost frame or an unknown output rebuilds the encoder. */
    method HandleOutcome(outcome: Outcome) returns (accepted: bool, output: Option<Pending>)
      requires Valid()
      modifies this
      ensures Valid() && View() == Answered(old(View()), outcome)
      ensures ops == old(ops) + AnswerOps(old(View()), outcome)
      ensures accepted <==> !Loses(old(View()), outcome)
      ensures accepted <==>
                match outcome
                case Rejected => false
                case Delayed => |old(pendingEncodedFrames)| <= 4
                case Output(locked, timestamp) =>
                  locked && exists k :: 0 <= k < |old(pendingEncodedFrames)|
                                        && old(pendingEncodedFrames)[k].timestamp == timestamp
      ensures encodedFrameIndex == old(encodedFrameIndex) + (if accepted then 1 else 0)
      ensures !accepted ==> !encoderOpen && pendingEncodedFrames == []
      ensures output.Some? <==> |outputs| > |old(outputs)|
      ensures output.Some? ==> outputs == old(outputs) + [output.value]
    {
      if outcome.Output? { FindsExactly(pendingEncodedFrames, outcome.timestamp); }
      output := None;
      var recreateEncoder := outcome.Rejected?;
      if outcome.Output? {
        if outcome.locked {
          output := TakePendingEncodedFrame(outcome.timestamp);
        }
        recreateEncoder := output.None?;
      } else if outcome.Delayed? {
        recreateEncoder := |pendingEncodedFrames| > MAXIMUM_PENDING_ENCODED_FRAMES;
      }
      if recreateEncoder {
        ops := ops + [ClearRtp, BeginEpoch(RosEpochs.EncoderReset), RequestKeyframe];
        DestroyEncoder();
      } else {
        ops := ops + [if output.Some? then Send(output.value, output.value.index == encodedFrameIndex) else NoFrame];
        encodedFrameIndex := encodedFrameIndex + 1;
      }
      accepted := !recreateEncoder;
    }

    method EncodeRenderedFrame(r: Render) returns (accepted: bool, output: Option<Pending>)
      requires Valid()
      modifies this
      ensures Valid() && View() == Encode(old(View()), r)
      ensures ops == old(ops) + EncodeOps(old(View()), r)
      ensures accepted <==> Accepts(old(View()), r)
      ensures encodedFrameIndex == old(encodedFrameIndex) + (if accepted then 1 else 0)
      ensures output.Some? ==> outputs == old(outputs) + [output.value]
    {
      hide Answered, AnswerOps, Ensured, EnsureOps, Observed, ObserveOps, Encode, EncodeOps, Submits, Accepts, Loses;
      hide Submitted, Timestamp;
      ghost var e, done := View(), ops;
      EncodeCases(e, r);
      EncodeCounts(e, r);
      if !r.texture { return false, None; }
      ObserveSourceTime(r.sourceTime);
      var ok := EnsureEncoder(r);
      FrameOps(done, ObserveOps(e, r.sourceTime), EnsureOps(Observed(e, r.sourceTime), r), [], []);
      if !ok || !r.prepared { return false, None; }
      SubmittedIs(View(), r.sourceTime);
      var pending := Pending(encodedFrameIndex, Timestamp(rate, encodedFrameIndex), r.sourceTime,
                             sourceFrameSequence, session);
      sourceFrameSequence := sourceFrameSequence + 1;
      pendingEncodedFrames := pendingEncodedFrames + [pending];
      inputs := inputs + [pending];
      ops := ops + [TakeRequest(r.forced)];
      ghost var m := View();
      accepted, output := HandleOutcome(r.outcome);
      FrameOps(done, ObserveOps(e, r.sourceTime), EnsureOps(Observed(e, r.sourceTime), r), [TakeRequest(r.forced)],
               AnswerOps(m, r.outcome));
    }
  }

  lemma {:induction false} FoundFirst(pending: seq<Pending>, timestamp: nat, k: nat)
    requires k <= |pending| && (k < |pending| ==> pending[k].timestamp == timestamp)
    requires forall i :: 0 <= i < k ==> pending[i].timestamp != timestamp
    ensures k == Find(pending, timestamp)
  {
    if k > 0 {
      forall i | 0 <= i < k - 1 ensures pending[1..][i].timestamp != timestamp {
        assert pending[i + 1].timestamp != timestamp;
      }
      FoundFirst(pending[1..], timestamp, k - 1);
    }
  }
}
