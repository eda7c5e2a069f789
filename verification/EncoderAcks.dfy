/** The control mailbox and the encoder session together: what acknowledges a start and a keyframe request. The
    first frame that is encoded while a start is awaited acknowledges it, a keyframe that was forced for a keyframe
    request acknowledges that, and a frame that is not encoded fails either. */
module EncoderAcks {
  import opened Wrappers
  import C = ControlProtocol
  import Enc = EncoderSession
  import T = TaggedEncoder

  datatype State = State(
    control: C.State,
    encoder: T.Tagged,          // its requests are the commands consumed, by revision
    starts: map<nat, nat>,      // per acknowledged start: the input that did it
    frames: seq<bool>,          // per rendered frame: it was encoded
    since: map<nat, nat>)       // per command: frames when it was consumed

  datatype Event =
    | Control(c: C.Event)                  // requests, flushes, CameraInfo
    | Ask                                  // any thread asks for a keyframe
    | Consume
    | Render(r: Enc.Render, key: bool, sent: bool)   // a frame; is its output a keyframe, and was it handed on?
    | Drained                              // a stop has drained
    | Release                              // encoder resources

  predicate Awaits(c: C.State, kind: C.Kind) { c.awaiting.Some? && c.awaiting.value.kind == kind }

  /** The revision of the keyframe command that is awaited; 0 if there is none. */
  function Awaited(c: C.State): nat { if Awaits(c, C.Keyframe) then c.awaiting.value.revision else 0 }

  /** A consumed command asks for a keyframe if it wants one, or switches RTP on. */
  predicate Forces(c: C.State)
    requires c.mailbox.Some?
  {
    c.mailbox.value.keyframe || (c.mailbox.value.active && !c.desiredActive)
  }

  function Consumed(s: State): State {
    var c := C.Step(s.control, C.Consume);
    if s.control.mailbox.None? then s.(control := c)
    else
      var r := s.control.mailbox.value.revision;
      s.(control := c, encoder := T.Asked(s.encoder, r, Forces(s.control)), since := s.since[r := |s.frames|])
  }

  /** The frame with its tags, and the keyframe request it may answer. */
  function Framed(s: State, r: Enc.Render, key: bool): State
    requires s.encoder.enc.rate.Clamped()
  {
    var a := Awaited(s.control);
    s.(encoder := T.Rendered(s.encoder, r, key, a),
       control := if T.Answers(s.encoder, r, key, a) then C.Step(s.control, C.Acknowledge) else s.control)
  }

  /** A start that is awaited is acknowledged by input `k`. */
  function Started(s: State, k: nat): State {
    if Awaits(s.control, C.Start) then
      s.(control := C.Step(s.control, C.Acknowledge), starts := s.starts[s.control.awaiting.value.revision := k],
         frames := s.frames + [true])
    else s.(frames := s.frames + [true])
  }

  /** A start or keyframe command that is awaited fails, and the encoder goes. */
  function Failed(s: State): State {
    if Awaits(s.control, C.Start) || Awaits(s.control, C.Keyframe) then
      s.(control := C.Step(s.control, C.Fail), encoder := T.Released(s.encoder), frames := s.frames + [false])
    else s.(frames := s.frames + [false])
  }

  function Step(s: State, e: Event): State
    requires s.encoder.enc.rate.Clamped()
  {
    match e
    case Control(c) => if C.ControlOnly(c) then s.(control := C.Step(s.control, c)) else s
    case Ask => s.(encoder := T.AskedFor(s.encoder))
    case Consume => Consumed(s)
    case Render(r, key, sent) =>
      if !T.RightlyForced(s.encoder, r) then s
      else if T.Succeeds(s.encoder, r, sent) then Started(Framed(s, r, key), |s.encoder.enc.inputs|)
      else Failed(Framed(s, r, key))
    case Drained => if Awaits(s.control, C.Stop) then s.(control := C.Step(s.control, C.Acknowledge)) else s
    case Release => s.(encoder := T.Released(s.encoder))
  }

  lemma StepKeepsRate(s: State, e: Event)
    requires s.encoder.enc.rate.Clamped()
    ensures Step(s, e).encoder.enc.rate == s.encoder.enc.rate
  {
    hide C.Step, T.Rendered, T.Answers, T.RightlyForced, T.Succeeds;
    match e
    case Render(r, key, _) => T.RenderedRate(s.encoder, r, key, Awaited(s.control));
    case _ =>
  }

  function Run(s: State, events: seq<Event>): State
    requires s.encoder.enc.rate.Clamped()
    decreases |events|
  {
    if events == [] then s
    else
      StepKeepsRate(s, events[0]);
      Run(Step(s, events[0]), events[1..])
  }

  function Initial(ros: bool, quality: int, first: nat, rate: Enc.Rate): State {
    State(C.Initial(ros, quality, first), T.Initial(rate), map[], [], map[])
  }

  // ----- the invariant -----

  predicate IsOfKind(c: C.State, r: nat, kind: C.Kind) { C.IsOfKind(c.log.accepted, r, kind) }

  /** The input was submitted behind the command, and the encoder took it. */
  predicate StartOk(s: State, r: nat)
    requires r in s.starts
  {
    && r in s.encoder.taken && s.encoder.taken[r] <= s.starts[r] < |s.encoder.accepted|
    && s.encoder.accepted[s.starts[r]]
  }

  predicate IsAwaited(c: C.State, r: nat) { c.awaiting.Some? && c.awaiting.value.revision == r }

  predicate GivenUp(c: C.State, r: nat) { C.GaveUp(r) in c.log.render }

  /** Neither acknowledged nor given up. */
  predicate IsOpen(c: C.State, r: nat) { IsAwaited(c, r) && r !in c.log.acknowledged && !GivenUp(c, r) }

  /** The first frame behind a start, frame `n`, decides it. */
  predicate StartDecided(c: C.State, frames: seq<bool>, n: nat, r: nat) {
    if IsAwaited(c, r) then IsOpen(c, r) && n == |frames|
    else n < |frames| && (r in c.log.acknowledged <==> frames[n]) && (GivenUp(c, r) <==> !frames[n])
  }

  /** Frame `k` is behind the command and was not encoded. */
  predicate FailedAt(frames: seq<bool>, n: nat, k: int) { n <= k < |frames| && !frames[k] }

  /** A keyframe command is awaited only while every frame behind it is encoded, and it is given up only over one that
      was not. */
  ghost predicate KeyframeDecided(c: C.State, frames: seq<bool>, n: nat, r: nat) {
    && n <= |frames|
    && (IsAwaited(c, r) ==> IsOpen(c, r) && forall k {:trigger FailedAt(frames, n, k)} :: !FailedAt(frames, n, k))
    && (GivenUp(c, r) ==> exists k :: FailedAt(frames, n, k))
    && (!IsAwaited(c, r) ==> (r in c.log.acknowledged <==> !GivenUp(c, r)))
  }

  /** What is awaited was consumed, and commands are consumed once; a keyframe command asks for a keyframe. */
  ghost predicate RequestsOk(s: State) {
    && (s.control.awaiting.Some? ==>
          s.control.awaiting.value.revision != 0 && T.Made(s.encoder, s.control.awaiting.value.revision))
    && (forall r :: r in s.encoder.taken ==> r in s.control.log.consumed)
    && (forall r :: r in s.encoder.taken <==> r in s.since)
    && (forall r :: r in s.control.log.consumed ==> r in s.since)
    && (forall r :: r in s.since && IsOfKind(s.control, r, C.Keyframe) ==> r in s.encoder.urgent)
    && (forall r :: GivenUp(s.control, r) ==> r in s.control.log.consumed)
  }

  /** A keyframe command that is awaited is not answered yet. */
  predicate OpenOk(s: State) { Awaited(s.control) != 0 ==> T.Unanswered(s.encoder, Awaited(s.control)) }

  predicate AcksOk(s: State) {
    && (forall r :: r in s.control.log.acknowledged && IsOfKind(s.control, r, C.Keyframe) ==> r in s.encoder.acks)
    && (forall r :: r in s.control.log.acknowledged && IsOfKind(s.control, r, C.Start) ==> r in s.starts)
    && (forall r {:trigger StartOk(s, r)} :: r in s.starts ==> StartOk(s, r))
  }

  ghost predicate DecisionsOk(s: State) {
    && (forall r {:trigger s.since[r]} :: r in s.since && IsOfKind(s.control, r, C.Start) ==>
          StartDecided(s.control, s.frames, s.since[r], r))
    && (forall r {:trigger s.since[r]} :: r in s.since && IsOfKind(s.control, r, C.Keyframe) ==>
          KeyframeDecided(s.control, s.frames, s.since[r], r))
  }

  ghost predicate Inv(s: State, first: nat) {
    C.Inv(s.control, first) && T.Inv(s.encoder) && RequestsOk(s) && AcksOk(s)
  }

  // ----- the control side -----

  /** A command under way is the last accepted mutation, and it was not consumed while it is in the mailbox. */
  lemma CommandKind(c: C.State, first: nat)
    requires C.Inv(c, first)
    ensures c.awaiting.Some? ==> c.awaiting.value.revision == |c.log.accepted| + 1 >= 2
                                 && c.log.accepted[|c.log.accepted| - 1].kind == c.awaiting.value.kind
    ensures c.mailbox.Some? ==> c.mailbox.value.revision == |c.log.accepted| + 1 >= 2
                                && c.log.accepted[|c.log.accepted| - 1].kind == c.mailbox.value.kind
    ensures c.mailbox.Some? ==> c.awaiting.None? && c.mailbox.value.revision !in c.log.consumed
    ensures forall r :: r in c.log.acknowledged ==> r <= |c.log.accepted| + 1
  {
    hide C.Infos, C.Origins, C.RtpOk, C.ReceiptOk;
  }

  /** What only requests, flushes and the publisher change is not on the native side. */
  predicate SameNative(c: C.State, d: C.State) {
    && d.awaiting == c.awaiting && d.log.acknowledged == c.log.acknowledged
    && c.log.accepted <= d.log.accepted && d.log.consumed == c.log.consumed && d.log.render == c.log.render
  }

  lemma HandleKeepsNative(c: C.State, q: C.Request, used: bool)
    ensures SameNative(c, C.Handled(c, q, used))
  {
    hide C.Judge, C.NewDesired, C.NewRecord, C.NewCommand;
  }

  lemma FlushKeepsNative(c: C.State, late: bool)
    ensures SameNative(c, C.Flushed(c, late))
  {
    hide C.Completes, C.Closed;
    if c.pending.Some? {
      ClosedKeepsNative(c, C.EncoderFailed);
      ClosedKeepsNative(c, C.Completed);
      ClosedKeepsNative(c, C.DeadlineExceeded);
    }
  }

  lemma ClosedKeepsNative(c: C.State, stage: C.Stage)
    requires c.pending.Some?
    ensures SameNative(c, C.Closed(c, stage))
  {
  }

  lemma PublisherKeepsNative(c: C.State, e: C.Event)
    requires e.Register? || e.TakeInfo? || e.PublishInfo?
    ensures SameNative(c, C.Step(c, e))
  {
    hide C.Handled, C.Flushed, C.Consumed, C.Failed;
  }

  lemma ControlKeepsNative(c: C.State, e: C.Event)
    requires C.ControlOnly(e)
    ensures SameNative(c, C.Step(c, e))
  {
    hide C.Handled, C.Flushed, C.Consumed, C.Failed, SameNative;
    match e
    case Handle(q, used) => HandleKeepsNative(c, q, used);
    case Flush(late) => FlushKeepsNative(c, late);
    case _ => PublisherKeepsNative(c, e);
  }

  lemma ConsumeEffect(c: C.State)
    requires c.mailbox.Some?
    ensures var d := C.Step(c, C.Consume);
            var r := c.mailbox.value.revision;
            && d.log.accepted == c.log.accepted && d.log.consumed == c.log.consumed + [r]
            && (if c.mailbox.value.kind == C.Config then
                  d.awaiting == c.awaiting && d.log.acknowledged == c.log.acknowledged + [r]
                else d.awaiting == c.mailbox && d.log.acknowledged == c.log.acknowledged)
            && forall x {:trigger GivenUp(d, x)} :: GivenUp(d, x) <==> GivenUp(c, x)
  {
  }

  lemma AcknowledgeEffect(c: C.State)
    requires c.awaiting.Some?
    ensures var d := C.Step(c, C.Acknowledge);
            && d.log.accepted == c.log.accepted && d.log.consumed == c.log.consumed && d.awaiting.None?
            && d.log.acknowledged == c.log.acknowledged + [c.awaiting.value.revision]
            && forall x {:trigger GivenUp(d, x)} :: GivenUp(d, x) <==> GivenUp(c, x)
  {
  }

  lemma FailEffect(c: C.State)
    requires Awaits(c, C.Start) || Awaits(c, C.Keyframe)
    ensures var d := C.Step(c, C.Fail);
            && d.log.accepted == c.log.accepted && d.log.consumed == c.log.consumed
            && d.log.acknowledged == c.log.acknowledged && d.awaiting.None?
            && forall x {:trigger GivenUp(d, x)} :: GivenUp(d, x) <==> GivenUp(c, x) || IsAwaited(c, x)
  {
  }

  lemma ControlStepKeepsInv(c: C.State, first: nat, e: C.Event)
    requires C.Inv(c, first)
    ensures C.Inv(C.Step(c, e), first)
  {
    hide C.Inv, C.Step;
    C.StepKeepsInv(c, first, e);
  }

  /** What was acknowledged keeps its kind. */
  lemma SameKind(c: C.State, d: C.State, first: nat, r: nat, kind: C.Kind)
    requires C.Inv(c, first) && c.log.accepted <= d.log.accepted && r in c.log.acknowledged
    ensures IsOfKind(d, r, kind) ==> IsOfKind(c, r, kind)
  {
    hide C.Inv;
    CommandKind(c, first);
  }

  /** A step that acknowledges nothing, and gives up nothing but what is awaited. */
  lemma NativeKeepsInv(s: State, d: C.State, first: nat)
    requires Inv(s, first) && C.Inv(d, first)
    requires s.control.log.accepted <= d.log.accepted && d.log.consumed == s.control.log.consumed
    requires d.log.acknowledged == s.control.log.acknowledged && (d.awaiting == s.control.awaiting || d.awaiting.None?)
    requires forall x {:trigger GivenUp(d, x)} :: GivenUp(d, x) ==> GivenUp(s.control, x) || IsAwaited(s.control, x)
    ensures Inv(s.(control := d), first)
  {
    hide C.Inv, T.Inv, IsOfKind, GivenUp;
    var t := s.(control := d);
    forall r, kind | r in d.log.acknowledged && IsOfKind(d, r, kind) ensures IsOfKind(s.control, r, kind) {
      SameKind(s.control, d, first, r, kind);
    }
    forall r, kind | r in s.since && IsOfKind(d, r, kind) ensures IsOfKind(s.control, r, kind) {
      SinceBound(s, first, r);
      SameKindBelow(s.control, d, r, kind);
    }
    forall r | r in t.starts ensures StartOk(t, r) { assert StartOk(s, r); }
  }

  lemma SameKindBelow(c: C.State, d: C.State, r: nat, kind: C.Kind)
    requires c.log.accepted <= d.log.accepted && r <= |c.log.accepted| + 1
    ensures IsOfKind(d, r, kind) <==> IsOfKind(c, r, kind)
  {
  }

  lemma SinceBound(s: State, first: nat, r: nat)
    requires C.Inv(s.control, first) && RequestsOk(s) && r in s.since
    ensures r <= |s.control.log.accepted| + 1
  {
    hide C.Infos, C.Origins, C.RtpOk, C.Commands, C.ReceiptOk, T.Made;
  }

  lemma ControlKeepsInv(s: State, first: nat, e: C.Event)
    requires Inv(s, first) && C.ControlOnly(e)
    ensures Inv(s.(control := C.Step(s.control, e)), first)
  {
    hide C.Inv, C.Step, T.Inv, RequestsOk, AcksOk;
    ControlStepKeepsInv(s.control, first, e);
    ControlKeepsNative(s.control, e);
    NativeKeepsInv(s, C.Step(s.control, e), first);
  }

  lemma ConsumeKeepsRequests(s: State, first: nat)
    requires Inv(s, first) && s.control.mailbox.Some?
    ensures RequestsOk(Consumed(s))
  {
    hide C.Inv, C.Step, T.Inv, AcksOk, IsOfKind, GivenUp, Forces;
    CommandKind(s.control, first);
    ConsumeEffect(s.control);
    CommandForces(s.control, first);
    var t := Consumed(s);
    forall r, kind ensures IsOfKind(t.control, r, kind) == IsOfKind(s.control, r, kind) {
      SameKinds(s.control, t.control, r, kind);
    }
    KindOfLast(s.control, s.control.mailbox.value.revision);
  }

  lemma ConsumeKeepsAcks(s: State, first: nat)
    requires Inv(s, first) && s.control.mailbox.Some?
    ensures AcksOk(Consumed(s))
  {
    hide C.Inv, C.Step, T.Inv, IsOfKind, GivenUp, Forces;
    CommandKind(s.control, first);
    ConsumeEffect(s.control);
    var t := Consumed(s);
    forall r, kind ensures IsOfKind(t.control, r, kind) == IsOfKind(s.control, r, kind) {
      SameKinds(s.control, t.control, r, kind);
    }
    KindOfLast(s.control, s.control.mailbox.value.revision);
    NewRequest(s);
    forall r | r in t.starts ensures StartOk(t, r) { assert StartOk(s, r); }
  }

  lemma SameKinds(c: C.State, d: C.State, r: nat, kind: C.Kind)
    requires c.log.accepted == d.log.accepted
    ensures IsOfKind(d, r, kind) <==> IsOfKind(c, r, kind)
  {
  }

  lemma KindOfLast(c: C.State, r: nat)
    requires c.log.accepted != [] && r == |c.log.accepted| + 1
    ensures forall kind :: IsOfKind(c, r, kind) <==> c.log.accepted[|c.log.accepted| - 1].kind == kind
  {
  }

  /** A keyframe command asks for a keyframe. */
  lemma CommandForces(c: C.State, first: nat)
    requires C.Inv(c, first) && c.mailbox.Some?
    ensures c.mailbox.value.kind == C.Keyframe ==> Forces(c)
  {
    hide C.Infos, C.Origins, C.RtpOk, C.Logs;
  }

  lemma ConsumeKeepsInv(s: State, first: nat)
    requires Inv(s, first)
    ensures Inv(Consumed(s), first)
  {
    hide C.Inv, C.Step, T.Inv, T.Asked, RequestsOk, AcksOk;
    ControlStepKeepsInv(s.control, first, C.Consume);
    if s.control.mailbox.Some? {
      CommandKind(s.control, first);
      ConsumeKeepsRequests(s, first);
      ConsumeKeepsAcks(s, first);
      NewRequest(s);
      T.AskKeepsInv(s.encoder, s.control.mailbox.value.revision, Forces(s.control));
    } else {
      NothingConsumed(s);
    }
  }

  lemma NewRequest(s: State)
    requires RequestsOk(s)
    ensures forall r :: r !in s.control.log.consumed ==> r !in s.encoder.taken
  {
  }

  lemma NothingConsumed(s: State)
    requires s.control.mailbox.None?
    ensures Consumed(s) == s
  {
  }

  /** The awaited command is acknowledged, in a state that already says by what. */
  lemma AcknowledgeKeepsInv(s: State, first: nat)
    requires Inv(s, first) && s.control.awaiting.Some?
    requires Awaits(s.control, C.Keyframe) ==> s.control.awaiting.value.revision in s.encoder.acks
    requires Awaits(s.control, C.Start) ==> s.control.awaiting.value.revision in s.starts
    ensures Inv(s.(control := C.Step(s.control, C.Acknowledge)), first)
  {
    hide C.Inv, C.Step, T.Inv;
    ControlStepKeepsInv(s.control, first, C.Acknowledge);
    CommandKind(s.control, first);
    AcknowledgeEffect(s.control);
    hide GivenUp;
    var t := s.(control := C.Step(s.control, C.Acknowledge));
    forall r | r in t.starts ensures StartOk(t, r) { assert StartOk(s, r); }
  }

  // ----- the encoder side -----

  lemma AwaitedIsMade(s: State)
    requires RequestsOk(s)
    ensures Awaited(s.control) != 0 ==> T.Made(s.encoder, Awaited(s.control))
  {
  }

  /** The encoder moves on, and no request is forgotten. */
  lemma EncoderKeepsInv(s: State, u: T.Tagged, first: nat)
    requires Inv(s, first) && T.Inv(u)
    requires u.taken == s.encoder.taken && s.encoder.accepted <= u.accepted
    requires |s.encoder.enc.inputs| <= |u.enc.inputs| && forall a :: a in s.encoder.acks ==> a in u.acks
    requires u.urgent == s.encoder.urgent
    ensures Inv(s.(encoder := u), first)
  {
    hide C.Inv, T.Inv, IsOfKind;
    var t := s.(encoder := u);
    forall r | r in t.starts ensures StartOk(t, r) { assert StartOk(s, r); }
  }

  lemma FrameKeepsInv(s: State, first: nat, r: Enc.Render, key: bool)
    requires Inv(s, first) && s.encoder.enc.rate.Clamped() && T.RightlyForced(s.encoder, r)
    ensures Inv(Framed(s, r, key), first)
  {
    hide C.Inv, C.Step, T.Inv, RequestsOk, AcksOk, T.Rendered, T.Answers, Enc.Encode, Enc.Accepts, T.RightlyForced;
    var a := Awaited(s.control);
    AwaitedIsMade(s);
    T.LengthsByInv(s.encoder);
    T.RenderKeepsInv(s.encoder, r, key, a);
    T.RenderShape(s.encoder, r, key, a);
    var t := s.(encoder := T.Rendered(s.encoder, r, key, a));
    EncoderKeepsInv(s, t.encoder, first);
    if T.Answers(s.encoder, r, key, a) {
      T.AnswersSomething(s.encoder, r, key, a);
      AcknowledgeKeepsInv(t, first);
    }
  }

  lemma StartKeepsInv(s: State, first: nat, k: nat)
    requires Inv(s, first) && k < |s.encoder.accepted| && s.encoder.accepted[k]
    requires Awaits(s.control, C.Start) ==>
               var r := s.control.awaiting.value.revision; r in s.encoder.taken && s.encoder.taken[r] <= k
    ensures Inv(Started(s, k), first)
  {
    hide C.Inv, C.Step, T.Inv;
    if Awaits(s.control, C.Start) {
      var t := s.(starts := s.starts[s.control.awaiting.value.revision := k]);
      StartedOk(s, first, k);
      AcknowledgeKeepsInv(t, first);
    }
    FramesKeepInv(if Awaits(s.control, C.Start) then Started(s, k).(frames := s.frames) else s, first, true);
  }

  /** One frame more. */
  lemma FramesKeepInv(s: State, first: nat, frame: bool)
    requires Inv(s, first)
    ensures Inv(s.(frames := s.frames + [frame]), first)
  {
    hide C.Inv, T.Inv, IsOfKind, GivenUp;
    var t := s.(frames := s.frames + [frame]);
    forall r | r in t.starts ensures StartOk(t, r) { assert StartOk(s, r); }
  }

  lemma StartedOk(s: State, first: nat, k: nat)
    requires Inv(s, first) && k < |s.encoder.accepted| && s.encoder.accepted[k] && Awaits(s.control, C.Start)
    requires var r := s.control.awaiting.value.revision; r in s.encoder.taken && s.encoder.taken[r] <= k
    ensures Inv(s.(starts := s.starts[s.control.awaiting.value.revision := k]), first)
  {
    hide C.Inv, T.Inv, IsOfKind;
    var t := s.(starts := s.starts[s.control.awaiting.value.revision := k]);
    forall r | r in t.starts ensures StartOk(t, r) { assert r in s.starts ==> StartOk(s, r); }
  }

  lemma ReleaseKeepsInv(s: State, first: nat)
    requires Inv(s, first)
    ensures Inv(s.(encoder := T.Released(s.encoder)), first)
  {
    hide C.Inv, T.Inv, RequestsOk, AcksOk, Enc.Destroyed;
    T.ReleaseKeepsInv(s.encoder);
    T.ReleaseShape(s.encoder);
    EncoderKeepsInv(s, T.Released(s.encoder), first);
  }

  lemma FailKeepsInv(s: State, first: nat)
    requires Inv(s, first)
    ensures Inv(Failed(s), first)
  {
    hide C.Inv, C.Step, T.Inv, T.Released, RequestsOk, AcksOk, GivenUp;
    if Awaits(s.control, C.Start) || Awaits(s.control, C.Keyframe) {
      ControlStepKeepsInv(s.control, first, C.Fail);
      FailEffect(s.control);
      NativeKeepsInv(s, C.Step(s.control, C.Fail), first);
      ReleaseKeepsInv(s.(control := C.Step(s.control, C.Fail)), first);
    }
    FramesKeepInv(Failed(s).(frames := s.frames), first, false);
  }

  lemma RenderKeepsInv(s: State, first: nat, r: Enc.Render, key: bool, sent: bool)
    requires Inv(s, first) && s.encoder.enc.rate.Clamped()
    ensures Inv(Step(s, Render(r, key, sent)), first)
  {
    hide Inv, Framed, Started, Failed, Enc.Accepts, T.HasOutput, T.RightlyForced;
    if T.RightlyForced(s.encoder, r) {
      FrameKeepsInv(s, first, r, key);
      if T.Succeeds(s.encoder, r, sent) {
        AcceptedInput(s, first, r, key);
        StartKeepsInv(Framed(s, r, key), first, |s.encoder.enc.inputs|);
      } else {
        FailKeepsInv(Framed(s, r, key), first);
      }
    }
  }

  /** An accepted frame's input is behind every command consumed. */
  lemma AcceptedInput(s: State, first: nat, r: Enc.Render, key: bool)
    requires Inv(s, first) && s.encoder.enc.rate.Clamped() && Enc.Accepts(s.encoder.enc, r)
    ensures var t, k := Framed(s, r, key), |s.encoder.enc.inputs|;
            && k < |t.encoder.accepted| && t.encoder.accepted[k]
            && (Awaits(t.control, C.Start) ==>
                  var r := t.control.awaiting.value.revision; r in t.encoder.taken && t.encoder.taken[r] <= k)
  {
    hide C.Inv, C.Step, T.Inv, AcksOk, T.Rendered, T.Answers, Enc.Encode, Enc.Accepts;
    T.LengthsByInv(s.encoder);
    T.RenderShape(s.encoder, r, key, Awaited(s.control));
    if Awaited(s.control) != 0 { AcknowledgeEffect(s.control); }
    if T.Answers(s.encoder, r, key, Awaited(s.control)) {
      T.AnswersSomething(s.encoder, r, key, Awaited(s.control));
    }
  }

  lemma AskKeepsInv(s: State, first: nat)
    requires Inv(s, first)
    ensures Inv(s.(encoder := T.AskedFor(s.encoder)), first)
  {
    hide C.Inv, T.Inv, RequestsOk, AcksOk;
    T.AskForKeepsInv(s.encoder);
    EncoderKeepsInv(s, T.AskedFor(s.encoder), first);
  }

  lemma DrainedKeepsInv(s: State, first: nat)
    requires Inv(s, first) && Awaits(s.control, C.Stop)
    ensures Inv(s.(control := C.Step(s.control, C.Acknowledge)), first)
  {
    hide Inv, C.Step;
    AcknowledgeKeepsInv(s, first);
  }

  lemma StepKeepsInv(s: State, first: nat, e: Event)
    requires Inv(s, first) && s.encoder.enc.rate.Clamped()
    ensures Inv(Step(s, e), first)
  {
    hide Inv, Consumed, Framed, Started, Failed, T.Succeeds, C.Step, T.RightlyForced;
    match e
    case Control(c) => if C.ControlOnly(c) { ControlKeepsInv(s, first, c); }
    case Ask => AskKeepsInv(s, first);
    case Consume => ConsumeKeepsInv(s, first);
    case Render(r, key, sent) => RenderKeepsInv(s, first, r, key, sent);
    case Drained => if Awaits(s.control, C.Stop) { DrainedKeepsInv(s, first); }
    case Release => ReleaseKeepsInv(s, first);
  }

  lemma {:induction false} RunKeepsInv(s: State, first: nat, events: seq<Event>)
    requires Inv(s, first) && s.encoder.enc.rate.Clamped()
    ensures Inv(Run(s, events), first)
    decreases |events|
  {
    hide Inv, Step;
    if events != [] {
      StepKeepsRate(s, events[0]);
      StepKeepsInv(s, first, events[0]);
      RunKeepsInv(Step(s, events[0]), first, events[1..]);
    }
  }

  lemma InitialInv(ros: bool, quality: int, first: nat, rate: Enc.Rate)
    requires rate.Clamped()
    ensures Inv(Initial(ros, quality, first, rate), first)
  {
    C.InitialInv(ros, quality, first);
    T.InitialInv(rate);
    hide C.Inv, T.Inv;
  }

  // ----- every step keeps the decisions -----

  predicate SameVerdict(c: C.State, d: C.State, r: nat) {
    && (IsAwaited(d, r) <==> IsAwaited(c, r)) && (GivenUp(d, r) <==> GivenUp(c, r))
    && (r in d.log.acknowledged <==> r in c.log.acknowledged)
  }

  lemma StartStays(c: C.State, d: C.State, frames: seq<bool>, more: seq<bool>, n: nat, r: nat)
    requires StartDecided(c, frames, n, r) && SameVerdict(c, d, r) && frames <= more
    requires IsAwaited(c, r) ==> more == frames
    ensures StartDecided(d, more, n, r)
  {
  }

  lemma KeyframeStays(c: C.State, d: C.State, frames: seq<bool>, more: seq<bool>, n: nat, r: nat)
    requires KeyframeDecided(c, frames, n, r) && SameVerdict(c, d, r) && frames <= more
    requires IsAwaited(c, r) ==> forall k :: |frames| <= k < |more| ==> more[k]
    ensures KeyframeDecided(d, more, n, r)
  {
    hide GivenUp;
    if GivenUp(c, r) {
      var k :| FailedAt(frames, n, k);
      assert FailedAt(more, n, k);
    }
    forall k | FailedAt(more, n, k) ensures !IsAwaited(c, r) { assert k < |frames| ==> FailedAt(frames, n, k); }
  }

  /** Nothing happens to the commands that were consumed, but frames may be encoded. */
  lemma VerdictsStay(s: State, t: State, first: nat)
    requires Inv(s, first) && DecisionsOk(s) && t.since == s.since && s.frames <= t.frames
    requires s.control.log.accepted <= t.control.log.accepted
    requires forall r :: r in s.since ==> Untouched(s, t, r)
    ensures DecisionsOk(t)
  {
    hide C.Inv, T.Inv, IsOfKind, GivenUp, StartDecided, KeyframeDecided, SameVerdict, AcksOk;
    forall r, kind | r in s.since && IsOfKind(t.control, r, kind) ensures IsOfKind(s.control, r, kind) {
      SinceBound(s, first, r);
      SameKindBelow(s.control, t.control, r, kind);
    }
    forall r | r in t.since && IsOfKind(t.control, r, C.Start)
      ensures StartDecided(t.control, t.frames, t.since[r], r)
    {
      assert Untouched(s, t, r);
      StartStays(s.control, t.control, s.frames, t.frames, s.since[r], r);
    }
    forall r | r in t.since && IsOfKind(t.control, r, C.Keyframe)
      ensures KeyframeDecided(t.control, t.frames, t.since[r], r)
    {
      assert Untouched(s, t, r);
      KeyframeStays(s.control, t.control, s.frames, t.frames, s.since[r], r);
    }
  }

  predicate Untouched(s: State, t: State, r: nat) {
    SameVerdict(s.control, t.control, r) && (IsAwaited(s.control, r) ==> t.frames == s.frames)
  }

  lemma ControlKeepsDecisions(s: State, first: nat, e: C.Event)
    requires Inv(s, first) && DecisionsOk(s) && OpenOk(s) && C.ControlOnly(e)
    ensures var t := s.(control := C.Step(s.control, e)); DecisionsOk(t) && OpenOk(t)
  {
    hide Inv, DecisionsOk, C.Step, T.Unanswered;
    ControlKeepsNative(s.control, e);
    VerdictsStay(s, s.(control := C.Step(s.control, e)), first);
  }

  lemma EncoderKeepsDecisions(s: State, u: T.Tagged, first: nat)
    requires Inv(s, first) && DecisionsOk(s) && OpenOk(s)
    requires Awaited(s.control) != 0 ==> T.Unanswered(u, Awaited(s.control))
    ensures var t := s.(encoder := u); DecisionsOk(t) && OpenOk(t)
  {
    hide Inv, T.Unanswered, StartDecided, KeyframeDecided, IsOfKind;
  }

  lemma AskKeepsDecisions(s: State, first: nat)
    requires Inv(s, first) && DecisionsOk(s) && OpenOk(s)
    ensures var t := s.(encoder := T.AskedFor(s.encoder)); DecisionsOk(t) && OpenOk(t)
  {
    hide Inv, DecisionsOk, T.Unanswered;
    var a := Awaited(s.control);
    if a != 0 { T.SameUnanswered(s.encoder, T.AskedFor(s.encoder), a); }
    EncoderKeepsDecisions(s, T.AskedFor(s.encoder), first);
  }

  lemma ReleaseKeepsDecisions(s: State, first: nat)
    requires Inv(s, first) && DecisionsOk(s) && OpenOk(s)
    ensures var t := s.(encoder := T.Released(s.encoder)); DecisionsOk(t) && OpenOk(t)
  {
    hide Inv, DecisionsOk, T.Unanswered, T.Released;
    var a := Awaited(s.control);
    T.ReleaseShape(s.encoder);
    if a != 0 { T.SameUnanswered(s.encoder, T.Released(s.encoder), a); }
    EncoderKeepsDecisions(s, T.Released(s.encoder), first);
  }

  /** A command that is in the mailbox is not decided. */
  lemma MailboxIsNew(s: State, first: nat)
    requires Inv(s, first) && s.control.mailbox.Some?
    ensures var r := s.control.mailbox.value.revision;
            r !in s.since && r !in s.control.log.acknowledged && !GivenUp(s.control, r) && s.control.awaiting.None?
  {
    CommandKind(s.control, first);
    AcknowledgedIsConsumed(s.control, first);
    hide C.Inv, T.Inv, IsOfKind;
  }

  lemma AcknowledgedIsConsumed(c: C.State, first: nat)
    requires C.Inv(c, first)
    ensures forall r :: r in c.log.acknowledged ==> r in c.log.consumed
  {
    hide C.Infos, C.Origins, C.RtpOk, C.Commands, C.ReceiptOk;
  }

  lemma ConsumeKeepsDecisions(s: State, first: nat)
    requires Inv(s, first) && DecisionsOk(s) && OpenOk(s) && s.control.mailbox.Some?
    ensures DecisionsOk(Consumed(s)) && OpenOk(Consumed(s))
  {
    hide C.Inv, C.Step, T.Inv, IsOfKind, GivenUp, T.Asked, T.Unanswered, Forces, RequestsOk, AcksOk, StartDecided;
    hide KeyframeDecided;
    MailboxIsNew(s, first);
    CommandKind(s.control, first);
    ConsumeEffect(s.control);
    var t, r := Consumed(s), s.control.mailbox.value.revision;
    KindOfLast(t.control, r);
    NewRequest(s);
    T.AskKeepsInv(s.encoder, r, Forces(s.control));
    FreshCommand(t.control, t.frames, r);
    forall x, kind ensures IsOfKind(t.control, x, kind) == IsOfKind(s.control, x, kind) {
      SameKinds(s.control, t.control, x, kind);
    }
    forall x | x in s.since && IsOfKind(s.control, x, C.Start)
      ensures StartDecided(t.control, t.frames, s.since[x], x)
    {
      StartStays(s.control, t.control, s.frames, t.frames, s.since[x], x);
    }
    forall x | x in s.since && IsOfKind(s.control, x, C.Keyframe)
      ensures KeyframeDecided(t.control, t.frames, s.since[x], x)
    {
      KeyframeStays(s.control, t.control, s.frames, t.frames, s.since[x], x);
    }
  }

  lemma FreshCommand(c: C.State, frames: seq<bool>, r: nat)
    ensures IsOpen(c, r) ==> StartDecided(c, frames, |frames|, r) && KeyframeDecided(c, frames, |frames|, r)
  {
  }

  /** What a rendered frame does to the awaited command: `answered`, by a keyframe. */
  ghost predicate Decides(c: C.State, d: C.State, encoded: bool, answered: bool) {
    && d.log.accepted == c.log.accepted
    && (forall x {:trigger GivenUp(d, x)} ::
          GivenUp(d, x) <==> GivenUp(c, x) || (IsAwaited(c, x) && !encoded && !answered && !Awaits(c, C.Stop)))
    && d.log.acknowledged
       == (if c.awaiting.Some? && (answered || (encoded && Awaits(c, C.Start))) then
             c.log.acknowledged + [c.awaiting.value.revision]
           else c.log.acknowledged)
    && d.awaiting == (if answered || Awaits(c, C.Start) || (Awaits(c, C.Keyframe) && !encoded) then None
                      else c.awaiting)
  }

  lemma FrameDecides(s: State, first: nat, r: Enc.Render, key: bool, sent: bool)
    requires Inv(s, first) && s.encoder.enc.rate.Clamped() && T.RightlyForced(s.encoder, r)
    ensures var t, ok := Step(s, Render(r, key, sent)), T.Succeeds(s.encoder, r, sent);
            var answered := T.Answers(s.encoder, r, key, Awaited(s.control));
            && Decides(s.control, t.control, ok, answered) && t.frames == s.frames + [ok] && t.since == s.since
            && (answered ==> Awaits(s.control, C.Keyframe))
  {
    hide C.Inv, C.Step, T.Inv, T.Answers, T.Rendered, T.Succeeds, T.RightlyForced, GivenUp, T.Released;
    var answered := T.Answers(s.encoder, r, key, Awaited(s.control));
    NotConfig(s.control, first);
    if answered { T.AnswersSomething(s.encoder, r, key, Awaited(s.control)); }
    if s.control.awaiting.Some? { AcknowledgeEffect(s.control); }
    if Awaits(s.control, C.Start) || Awaits(s.control, C.Keyframe) { FailEffect(s.control); }
  }

  lemma NotConfig(c: C.State, first: nat)
    requires C.Inv(c, first)
    ensures !Awaits(c, C.Config)
  {
    hide C.Infos, C.Origins, C.RtpOk, C.Logs;
  }

  lemma RenderKeepsVerdict(s: State, t: State, first: nat, ok: bool, answered: bool)
    requires Inv(s, first) && DecisionsOk(s) && t.since == s.since && t.frames == s.frames + [ok]
    requires Decides(s.control, t.control, ok, answered) && (answered ==> Awaits(s.control, C.Keyframe))
    ensures DecisionsOk(t)
  {
    hide C.Inv, T.Inv, IsOfKind, GivenUp, RequestsOk, AcksOk;
    forall r, kind ensures IsOfKind(t.control, r, kind) == IsOfKind(s.control, r, kind) {
      SameKinds(s.control, t.control, r, kind);
    }
    AwaitedKind(s.control, first);
    forall r | r in t.since && IsOfKind(t.control, r, C.Start)
      ensures StartDecided(t.control, t.frames, t.since[r], r)
    {
      StartMoves(s.control, t.control, s.frames, s.since[r], r, ok, answered);
    }
    forall r | r in t.since && IsOfKind(t.control, r, C.Keyframe)
      ensures KeyframeDecided(t.control, t.frames, t.since[r], r)
    {
      KeyframeMoves(s.control, t.control, s.frames, s.since[r], r, ok, answered);
    }
  }

  lemma AwaitedKind(c: C.State, first: nat)
    requires C.Inv(c, first)
    ensures forall r, kind {:trigger IsOfKind(c, r, kind)} :: IsAwaited(c, r) ==>
              (IsOfKind(c, r, kind) <==> c.awaiting.value.kind == kind)
  {
    CommandKind(c, first);
    hide C.Inv;
  }

  lemma StartMoves(c: C.State, d: C.State, frames: seq<bool>, n: nat, r: nat, ok: bool, answered: bool)
    requires StartDecided(c, frames, n, r) && Decides(c, d, ok, answered)
    requires IsAwaited(c, r) ==> Awaits(c, C.Start)
    requires answered ==> Awaits(c, C.Keyframe)
    ensures StartDecided(d, frames + [ok], n, r)
  {
    hide GivenUp;
  }

  lemma KeyframeMoves(c: C.State, d: C.State, frames: seq<bool>, n: nat, r: nat, ok: bool, answered: bool)
    requires KeyframeDecided(c, frames, n, r) && Decides(c, d, ok, answered)
    requires IsAwaited(c, r) ==> Awaits(c, C.Keyframe)
    requires answered ==> Awaits(c, C.Keyframe)
    ensures KeyframeDecided(d, frames + [ok], n, r)
  {
    hide GivenUp;
    var more := frames + [ok];
    if GivenUp(c, r) {
      var k :| FailedAt(frames, n, k);
      assert FailedAt(more, n, k);
    } else if GivenUp(d, r) {
      assert FailedAt(more, n, |frames|);
    }
    forall k | FailedAt(more, n, k) ensures k < |frames| ==> FailedAt(frames, n, k) {}
  }

  lemma RenderKeepsOpen(s: State, first: nat, r: Enc.Render, key: bool, sent: bool)
    requires Inv(s, first) && OpenOk(s) && s.encoder.enc.rate.Clamped() && T.RightlyForced(s.encoder, r)
    ensures OpenOk(Step(s, Render(r, key, sent)))
  {
    hide Inv, Step, T.Answers, T.Rendered, T.Succeeds, T.RightlyForced, T.Unanswered, Decides, Awaited;
    FrameDecides(s, first, r, key, sent);
    var t, ok, a := Step(s, Render(r, key, sent)), T.Succeeds(s.encoder, r, sent), Awaited(s.control);
    var answered := T.Answers(s.encoder, r, key, a);
    StillAwaited(s.control, t.control, ok, answered);
    if Awaited(t.control) != 0 {
      EncodedFrame(s, r, key, sent);
      EncoderByInv(s, first);
      T.StaysUnanswered(s.encoder, r, key, a);
    }
  }

  lemma EncoderByInv(s: State, first: nat)
    requires Inv(s, first)
    ensures T.Inv(s.encoder)
  {
    hide C.Inv, T.Inv, RequestsOk, AcksOk;
  }

  lemma StillAwaited(c: C.State, d: C.State, ok: bool, answered: bool)
    requires Decides(c, d, ok, answered)
    ensures Awaited(d) != 0 ==> Awaited(d) == Awaited(c) && ok && !answered
  {
    hide GivenUp;
  }

  lemma EncodedFrame(s: State, r: Enc.Render, key: bool, sent: bool)
    requires s.encoder.enc.rate.Clamped() && T.RightlyForced(s.encoder, r) && T.Succeeds(s.encoder, r, sent)
    ensures Step(s, Render(r, key, sent)).encoder == T.Rendered(s.encoder, r, key, Awaited(s.control))
  {
    hide C.Step, T.Answers, T.Rendered, T.Succeeds, T.RightlyForced;
  }

  lemma DrainedKeepsDecisions(s: State, first: nat)
    requires Inv(s, first) && DecisionsOk(s) && OpenOk(s) && Awaits(s.control, C.Stop)
    ensures var t := s.(control := C.Step(s.control, C.Acknowledge)); DecisionsOk(t) && OpenOk(t)
  {
    hide C.Inv, T.Inv, IsOfKind, GivenUp, RequestsOk, AcksOk, C.Step, StartDecided, KeyframeDecided;
    var t := s.(control := C.Step(s.control, C.Acknowledge));
    AcknowledgeEffect(s.control);
    AwaitedKind(s.control, first);
    forall r, kind ensures IsOfKind(t.control, r, kind) == IsOfKind(s.control, r, kind) {
      SameKinds(s.control, t.control, r, kind);
    }
    forall r | r in t.since && IsOfKind(t.control, r, C.Start)
      ensures StartDecided(t.control, t.frames, t.since[r], r)
    {
      StartStays(s.control, t.control, s.frames, t.frames, s.since[r], r);
    }
    forall r | r in t.since && IsOfKind(t.control, r, C.Keyframe)
      ensures KeyframeDecided(t.control, t.frames, t.since[r], r)
    {
      KeyframeStays(s.control, t.control, s.frames, t.frames, s.since[r], r);
    }
  }

  lemma StepKeepsDecisions(s: State, first: nat, e: Event)
    requires Inv(s, first) && DecisionsOk(s) && OpenOk(s) && s.encoder.enc.rate.Clamped()
    ensures DecisionsOk(Step(s, e)) && OpenOk(Step(s, e))
  {
    hide Inv, DecisionsOk, OpenOk, C.Step, T.Succeeds, T.RightlyForced, Framed, Started, Failed, Consumed, Decides;
    match e
    case Control(c) => if C.ControlOnly(c) { ControlKeepsDecisions(s, first, c); }
    case Ask => AskKeepsDecisions(s, first);
    case Consume =>
      if s.control.mailbox.Some? { ConsumeKeepsDecisions(s, first); } else { NothingConsumed(s); }
    case Render(r, key, sent) =>
      if T.RightlyForced(s.encoder, r) {
        FrameDecides(s, first, r, key, sent);
        RenderKeepsVerdict(s, Step(s, e), first, T.Succeeds(s.encoder, r, sent),
                           T.Answers(s.encoder, r, key, Awaited(s.control)));
        RenderKeepsOpen(s, first, r, key, sent);
      }
    case Drained => if Awaits(s.control, C.Stop) { DrainedKeepsDecisions(s, first); }
    case Release => ReleaseKeepsDecisions(s, first);
  }

  lemma {:induction false} RunKeepsDecisions(s: State, first: nat, events: seq<Event>)
    requires Inv(s, first) && DecisionsOk(s) && OpenOk(s) && s.encoder.enc.rate.Clamped()
    ensures Inv(Run(s, events), first) && DecisionsOk(Run(s, events)) && OpenOk(Run(s, events))
    decreases |events|
  {
    hide Inv, DecisionsOk, OpenOk, Step;
    if events != [] {
      StepKeepsRate(s, events[0]);
      StepKeepsInv(s, first, events[0]);
      StepKeepsDecisions(s, first, events[0]);
      RunKeepsDecisions(Step(s, events[0]), first, events[1..]);
    }
  }

  /** In every run, the first frame behind a consumed start decides it: it is acknowledged exactly if that frame was
      encoded, and given up exactly if it was not. */
  lemma StartIsDecided(ros: bool, quality: int, first: nat, rate: Enc.Rate, events: seq<Event>, r: nat)
    requires rate.Clamped()
    requires var s := Run(Initial(ros, quality, first, rate), events);
             r in s.control.log.consumed && IsOfKind(s.control, r, C.Start)
    ensures var s := Run(Initial(ros, quality, first, rate), events);
            && r in s.since
            && (r in s.control.log.acknowledged <==> s.since[r] < |s.frames| && s.frames[s.since[r]])
            && (GivenUp(s.control, r) <==> s.since[r] < |s.frames| && !s.frames[s.since[r]])
  {
    hide Run, C.Inv, T.Inv, KeyframeDecided, GivenUp;
    InitialInv(ros, quality, first, rate);
    NothingDecided(ros, quality, first, rate);
    RunKeepsDecisions(Initial(ros, quality, first, rate), first, events);
  }

  /** In every run: the first input behind a consumed keyframe command is forced. While the command is awaited, every
      input forced since carries its revision, no keyframe has come out with one of them, and every frame since was
      encoded; it is given up only over one that was not, and else acknowledged. */
  lemma KeyframeIsDecided(ros: bool, quality: int, first: nat, rate: Enc.Rate, events: seq<Event>, r: nat)
    requires rate.Clamped()
    requires var s := Run(Initial(ros, quality, first, rate), events);
             r in s.control.log.consumed && IsOfKind(s.control, r, C.Keyframe)
    ensures var s := Run(Initial(ros, quality, first, rate), events);
            && r in s.since && r in s.encoder.taken && |s.encoder.forced| == |s.encoder.enc.inputs|
            && (s.encoder.taken[r] < |s.encoder.forced| ==> s.encoder.forced[s.encoder.taken[r]])
            && (IsAwaited(s.control, r) ==>
                  T.Unanswered(s.encoder, r) && forall n :: s.since[r] <= n < |s.frames| ==> s.frames[n])
            && (GivenUp(s.control, r) ==> exists n :: s.since[r] <= n < |s.frames| && !s.frames[n])
            && (!IsAwaited(s.control, r) ==> (r in s.control.log.acknowledged <==> !GivenUp(s.control, r)))
  {
    hide Run, C.Inv, T.Inv, GivenUp, T.Unanswered, IsOfKind;
    InitialInv(ros, quality, first, rate);
    NothingDecided(ros, quality, first, rate);
    RunKeepsDecisions(Initial(ros, quality, first, rate), first, events);
    var s := Run(Initial(ros, quality, first, rate), events);
    AwaitedKind(s.control, first);
    T.UrgentIsForced(s.encoder, r);
    forall n | s.since[r] <= n < |s.frames| && !s.frames[n] ensures FailedAt(s.frames, s.since[r], n) {}
    KindMeansReal(s.control, r);
  }

  lemma KindMeansReal(c: C.State, r: nat)
    requires IsOfKind(c, r, C.Keyframe)
    ensures r != 0
  {
  }

  lemma NothingDecided(ros: bool, quality: int, first: nat, rate: Enc.Rate)
    requires rate.Clamped()
    ensures var s := Initial(ros, quality, first, rate); DecisionsOk(s) && OpenOk(s)
  {
  }

  // ----- what a completion means -----

  /** In every run, a completed keyframe request was answered by a keyframe that came out with the metadata of an
      input submitted, and forced, after the request was consumed. */
  lemma CompletedKeyframeIsReal(ros: bool, quality: int, first: nat, rate: Enc.Rate, events: seq<Event>, i: nat)
    returns (o: nat)
    requires rate.Clamped()
    requires var s := Run(Initial(ros, quality, first, rate), events);
             && i < |s.control.log.receipts| && s.control.log.receipts[i].stage == C.Completed
             && IsOfKind(s.control, s.control.log.receipts[i].revision, C.Keyframe)
    ensures var s := Run(Initial(ros, quality, first, rate), events);
            T.IsAnswer(s.encoder, o, s.control.log.receipts[i].revision)
  {
    InitialInv(ros, quality, first, rate);
    RunKeepsInv(Initial(ros, quality, first, rate), first, events);
    var s := Run(Initial(ros, quality, first, rate), events);
    hide Run, C.Inv, T.Inv, T.IsAnswer;
    ReceiptIsAcknowledged(s.control, first, i);
    o := T.AcknowledgedIsAnswered(s.encoder, s.control.log.receipts[i].revision);
  }

  /** In every run, a completed start has an input that was submitted after the start was consumed, and that the
      encoder accepted. */
  lemma CompletedStartWasEncoded(ros: bool, quality: int, first: nat, rate: Enc.Rate, events: seq<Event>, i: nat)
    returns (k: nat)
    requires rate.Clamped()
    requires var s := Run(Initial(ros, quality, first, rate), events);
             && i < |s.control.log.receipts| && s.control.log.receipts[i].stage == C.Completed
             && IsOfKind(s.control, s.control.log.receipts[i].revision, C.Start)
    ensures var s := Run(Initial(ros, quality, first, rate), events);
            var r := s.control.log.receipts[i].revision;
            && r in s.encoder.taken && s.encoder.taken[r] <= k < |s.encoder.enc.inputs| == |s.encoder.accepted|
            && s.encoder.accepted[k]
  {
    InitialInv(ros, quality, first, rate);
    RunKeepsInv(Initial(ros, quality, first, rate), first, events);
    var s := Run(Initial(ros, quality, first, rate), events);
    hide Run, C.Inv, T.Inv;
    ReceiptIsAcknowledged(s.control, first, i);
    T.LengthsByInv(s.encoder);
    var r := s.control.log.receipts[i].revision;
    k := s.starts[r];
    assert StartOk(s, r);
  }

  lemma ReceiptIsAcknowledged(c: C.State, first: nat, i: nat)
    requires C.Inv(c, first) && i < |c.log.receipts| && c.log.receipts[i].stage == C.Completed
    ensures c.log.receipts[i].revision in c.log.acknowledged
  {
    hide C.Infos, C.Origins, C.RtpOk;
    assert C.ReceiptOk(c, c.log.receipts[i]);
  }
}
