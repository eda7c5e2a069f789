/** The control mailbox and the RTP branch together. Consuming a command switches RTP and purges its queue; a
    stop is acknowledged only when the pacer has nothing in flight. */
module StopDrain {
  import C = ControlProtocol
  import P = RtpPacer

  datatype State = State(control: C.State, rtp: P.State)

  datatype Event =
    | Control(c: C.Event)      // requests, flushes, CameraInfo
    | Consume | Acknowledge | Fail
    | Rtp(p: P.Event)          // everything else the render thread and the pacer do

  predicate RtpOnly(e: P.Event) { !e.Apply? && !e.FailStream? }

  predicate AwaitsStop(s: State) { s.control.awaiting.Some? && s.control.awaiting.value.kind == C.Stop }

  /** The flag that pop sets under the lock that purges the queue is read before a stop is acknowledged. */
  predicate Enabled(s: State, e: Event) {
    match e
    case Control(c) => C.ControlOnly(c)
    case Consume => s.control.mailbox.Some? && s.rtp.render.Idle?
    case Acknowledge => s.control.awaiting.Some? && (AwaitsStop(s) ==> !s.rtp.InFlight())
    case Fail => s.rtp.render.Idle? && s.control.awaiting.Some? && !AwaitsStop(s)
    case Rtp(p) => RtpOnly(p)
  }

  function Step(s: State, e: Event): State {
    if !Enabled(s, e) then s
    else match e
      case Control(c) => s.(control := C.Step(s.control, c))
      case Consume =>
        var c := s.control.mailbox.value;
        State(C.Step(s.control, C.Consume), P.Step(s.rtp, P.Apply(c.active, c.keyframe)))
      case Acknowledge => s.(control := C.Step(s.control, C.Acknowledge))
      case Fail => State(C.Step(s.control, C.Fail), P.Step(s.rtp, P.FailStream))
      case Rtp(p) => s.(rtp := P.Step(s.rtp, p))
  }

  function Run(s: State, events: seq<Event>): State
    decreases |events|
  {
    if events == [] then s else Run(Step(s, events[0]), events[1..])
  }

  predicate Inv(s: State, first: nat) {
    C.Inv(s.control, first) && P.Inv(s.rtp) && s.rtp.active == s.control.desiredActive
  }

  lemma ControlKeepsActive(s: C.State, e: C.Event)
    requires C.ControlOnly(e) || e.Acknowledge?
    ensures C.Step(s, e).desiredActive == s.desiredActive
  {
  }

  lemma RtpKeepsActive(s: P.State, e: P.Event)
    requires RtpOnly(e)
    ensures P.Step(s, e).active == s.active
  {
  }

  lemma StepKeepsInv(s: State, first: nat, e: Event)
    requires Inv(s, first)
    ensures Inv(Step(s, e), first)
  {
    hide C.Inv, P.Inv;
    if Enabled(s, e) {
      match e
      case Control(c) => hide C.Step; C.StepKeepsInv(s.control, first, c); ControlKeepsActive(s.control, c);
      case Consume =>
        C.StepKeepsInv(s.control, first, C.Consume);
        P.StepKeepsInv(s.rtp, P.Apply(s.control.mailbox.value.active, s.control.mailbox.value.keyframe));
      case Acknowledge =>
        C.StepKeepsInv(s.control, first, C.Acknowledge);
        ControlKeepsActive(s.control, C.Acknowledge);
      case Fail =>
        AwaitingKinds(s, first);
        C.StepKeepsInv(s.control, first, C.Fail);
        P.StepKeepsInv(s.rtp, P.FailStream);
      case Rtp(p) => hide P.Step; P.StepKeepsInv(s.rtp, p); RtpKeepsActive(s.rtp, p);
    }
  }

  lemma AwaitingKinds(s: State, first: nat)
    requires Inv(s, first) && s.control.awaiting.Some?
    ensures s.control.awaiting.value.kind != C.Config
    ensures s.control.desiredActive == s.control.awaiting.value.active
    ensures AwaitsStop(s) ==> !s.control.desiredActive
  {
  }

  /** RTP is off, nothing is on its way, and only a start can change that. */
  predicate Drained(s: State) {
    C.Stopped(s.control) && !s.rtp.active && !s.rtp.InFlight()
  }

  lemma AcknowledgedStopIsDrained(s: State, first: nat)
    requires Inv(s, first) && AwaitsStop(s) && Enabled(s, Acknowledge)
    ensures Drained(Step(s, Acknowledge)) && Step(s, Acknowledge).rtp == s.rtp
  {
    AwaitingKinds(s, first);
    C.StopAcknowledged(s.control, first);
    hide C.Step;
  }

  /** A pacer with nothing to send stays so while RTP is off. */
  lemma QuietStep(s: P.State, e: P.Event)
    requires P.Inv(s) && !s.active && !s.InFlight() && !(e.Apply? && e.active)
    ensures var t := P.Step(s, e); !t.active && !t.InFlight() && t.sent == s.sent
  {
    assert s.queue == [];
  }

  predicate ConsumesStart(s: State, e: Event) {
    e.Consume? && Enabled(s, e) && s.control.mailbox.value.kind == C.Start
  }

  lemma DrainedStep(s: State, first: nat, e: Event)
    requires Inv(s, first) && Drained(s) && !ConsumesStart(s, e)
    ensures Drained(Step(s, e)) && Step(s, e).rtp.sent == s.rtp.sent
  {
    hide P.Step, C.Step, C.Inv, P.Inv;
    if Enabled(s, e) {
      match e
      case Control(c) => C.StoppedStaysStopped(s.control, first, c);
      case Consume =>
        C.StoppedStaysStopped(s.control, first, C.Consume);
        QuietStep(s.rtp, P.Apply(s.control.mailbox.value.active, s.control.mailbox.value.keyframe));
      case Acknowledge => C.StoppedStaysStopped(s.control, first, C.Acknowledge);
      case Fail => C.StoppedStaysStopped(s.control, first, C.Fail); QuietStep(s.rtp, P.FailStream);
      case Rtp(p) => QuietStep(s.rtp, p);
    }
  }

  /** No start command is consumed in the run. */
  predicate NoStartConsumed(s: State, events: seq<Event>)
    decreases |events|
  {
    events == [] || (!ConsumesStart(s, events[0]) && NoStartConsumed(Step(s, events[0]), events[1..]))
  }

  lemma {:induction false} DrainedRun(s: State, first: nat, events: seq<Event>)
    requires Inv(s, first) && Drained(s) && NoStartConsumed(s, events)
    ensures Run(s, events).rtp.sent == s.rtp.sent
    decreases |events|
  {
    hide Inv, Drained, Step, ConsumesStart;
    if events != [] {
      DrainedStep(s, first, events[0]);
      StepKeepsInv(s, first, events[0]);
      DrainedRun(Step(s, events[0]), first, events[1..]);
    }
  }

  function Initial(ros: bool, quality: int, first: nat, limit: nat): State {
    State(C.Initial(ros, quality, first), P.Initial(limit))
  }

  lemma {:induction false} RunKeepsInv(s: State, first: nat, events: seq<Event>)
    requires Inv(s, first)
    ensures Inv(Run(s, events), first)
    decreases |events|
  {
    hide Inv, Step;
    if events != [] {
      StepKeepsInv(s, first, events[0]);
      RunKeepsInv(Step(s, events[0]), first, events[1..]);
    }
  }

  /** Whatever happened before: once a stop is acknowledged, no RTP packet is sent until a start command is
      consumed. */
  lemma StopReallyDrains(ros: bool, quality: int, first: nat, limit: nat, before: seq<Event>, later: seq<Event>)
    requires var s := Run(Initial(ros, quality, first, limit), before);
             && AwaitsStop(s) && Enabled(s, Acknowledge) && NoStartConsumed(Step(s, Acknowledge), later)
    ensures var s := Run(Initial(ros, quality, first, limit), before);
            Run(Step(s, Acknowledge), later).rtp.sent == s.rtp.sent
  {
    var s := Run(Initial(ros, quality, first, limit), before);
    C.InitialInv(ros, quality, first);
    P.InitialInv(limit);
    RunKeepsInv(Initial(ros, quality, first, limit), first, before);
    AcknowledgedStopIsDrained(s, first);
    StepKeepsInv(s, first, Acknowledge);
    DrainedRun(Step(s, Acknowledge), first, later);
  }
}
