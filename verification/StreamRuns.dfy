/** The fresh-render gate, the encoder session, the ROS branch and the RTP branch put together. The render thread
    works through the operations of one rendered frame while subscriber callbacks, the publisher, the pacer and
    other threads take their steps in between. */
module StreamRuns {
  import opened Wrappers
  import Ros = RosEpochs
  import Rtp = RtpPacer
  import Enc = EncoderSession
  import Gate = FreshRenderGate

  /** One atomic operation of the render thread. An output is emitted, offered to ROS, stamped, and queued. */
  datatype Op =
    | Do(op: Enc.Op)
    | Emit(unit: Rtp.Encoded, current: bool)
    | Offer(key: bool, session: nat)
    | Stamp
    | Queue

  datatype Stream = Stream(
    enc: Enc.Encoder,
    ros: Ros.State,
    rtp: Rtp.State,
    todo: seq<Op>,           // of the rendered frame in progress
    sources: seq<int>,       // for every unit that reached the ROS queue, which output it is
    missed: set<int>,        // outputs with NAL units that did not: no consumers, or the branch stopped
    callbacks: seq<Gate.Callback>,
    accepted: seq<nat>)      // for every encoder input, the callback it is from

  datatype Event =
    | Frame(generation: nat, r: Enc.Render, unit: Rtp.Encoded)   // a render callback; what its output looks like
    | Release                                      // encoder resources are released
    | Control(active: bool, keyframe: bool)        // a native command is consumed
    | FailTransition                               // an encoder failure ends a start or keyframe command
    | Work                                         // the next operation of the frame
    | RosThread(ros: Ros.Event)                    // subscriber callback, publisher, teardown
    | RtpThread(rtp: Rtp.Event)                    // pacer, keyframe request, teardown

  /** An output without NAL units is neither offered nor queued. */
  function Handled(frame: Enc.Pending, current: bool, unit: Rtp.Encoded): seq<Op> {
    if unit.count == 0 then [Emit(unit, current), Queue]
    else [Emit(unit, current), Offer(unit.key, frame.session), Stamp, Queue]
  }

  function Expand(ops: seq<Enc.Op>, unit: Rtp.Encoded): seq<Op> {
    if ops == [] then []
    else (if ops[0].Send? then Handled(ops[0].frame, ops[0].current, unit) else [Do(ops[0])])
         + Expand(ops[1..], unit)
  }

  predicate RosBackground(e: Ros.Event) {
    e.Connect? || e.ConnectEpoch? || e.Activate? || e.Disconnect? || e.DisconnectPurge? || e.Take? || e.Compare?
    || e.Publish? || e.Stop?
  }

  predicate RtpBackground(e: Rtp.Event) {
    e.AnyForce? || e.Pop? || e.Compare? || e.Gate? || e.Send? || e.Stop?
  }

  /** A step of the ROS branch may request a keyframe, which both branches share. */
  function RosMoved(s: Stream, e: Ros.Event): Stream {
    var ros := Ros.Step(s.ros, e);
    s.(ros := ros, rtp := if ros.force then Rtp.Step(s.rtp, Rtp.AnyForce) else s.rtp)
  }

  function RtpMoved(s: Stream, e: Rtp.Event): Stream {
    s.(rtp := Rtp.Step(s.rtp, e))
  }

  /** The operation finds what it expects: only a question's answer and a keyframe request can differ. */
  predicate Found(s: Stream, op: Op) {
    match op
    case Do(AskPendingEpoch(answer)) => answer == (s.ros.core.waiting && s.ros.core.next == 0)
    case Do(TakeRequest(forced)) => forced == s.rtp.forceKeyframe
    case _ => true
  }

  function Done(s: Stream, op: Op): Stream {
    match op
    case Do(ClearRtp) => RtpMoved(s, Rtp.Purge)
    case Do(BeginEpoch(d)) => RosMoved(s, Ros.Begin(d))
    case Do(RequestKeyframe) => RtpMoved(s, Rtp.RenderForce)
    case Do(AskPendingEpoch(answer)) => RosMoved(s, Ros.Ask(answer))
    case Do(StartSession(session)) => RosMoved(s, Ros.OpenSession(session))
    case Do(TakeRequest(forced)) => RtpMoved(s, Rtp.Take(forced))
    case Do(NoFrame) => RtpMoved(s, Rtp.NoOutput)
    case Do(Send(_, _)) => s
    case Emit(unit, current) => RtpMoved(s, Rtp.Emit(unit, current))
    case Offer(key, session) =>
      var t := RosMoved(s, Ros.Offer(Ros.AccessUnit(key, session)));
      if t.ros.held.None? then t.(missed := s.missed + {|s.enc.outputs| - 1}) else t
    case Stamp =>
      var t := RosMoved(s, Ros.Stamp);
      if |t.ros.log.offered| > |s.ros.log.offered| then t.(sources := s.sources + [|s.enc.outputs| - 1])
      else if s.ros.held.Some? then t.(missed := s.missed + {|s.enc.outputs| - 1})
      else t
    case Queue => RtpMoved(s, Rtp.Queue)
  }

  /** The gate lets the callback pass. */
  function Encoded(s: Stream, r: Enc.Render, unit: Rtp.Encoded): Stream
    requires s.enc.rate.Clamped()
  {
    var enc := Enc.Encode(s.enc, r);
    s.(enc := enc, todo := Expand(Enc.EncodeOps(s.enc, r), unit),
       accepted := if |enc.inputs| > |s.enc.inputs| then s.accepted + [|s.callbacks|] else s.accepted)
  }

  /** The gate discards the callback, and with it whatever the encoder holds. */
  function Discarded(s: Stream): Stream {
    s.(enc := Enc.Destroyed(s.enc), todo := [Do(Enc.ClearRtp), Do(Enc.RequestKeyframe)])
  }

  ghost function Rendered(s: Stream, generation: nat, r: Enc.Render, unit: Rtp.Encoded): Stream
    requires s.enc.rate.Clamped()
  {
    var callback := Gate.Callback(generation, r.sourceTime);
    var t := if Gate.Expected(s.callbacks, callback, Gate.Accept) then Encoded(s, r, unit)
             else if Gate.Expected(s.callbacks, callback, Gate.DiscardAndReset) then Discarded(s)
             else s;
    t.(callbacks := s.callbacks + [callback])
  }

  ghost function Step(s: Stream, e: Event): Stream
    requires s.enc.rate.Clamped()
  {
    match e
    case Frame(generation, r, unit) => if s.todo == [] then Rendered(s, generation, r, unit) else s
    case Release => if s.todo == [] then s.(enc := Enc.Destroyed(s.enc)) else s
    case Control(active, keyframe) => if s.todo == [] then RtpMoved(s, Rtp.Apply(active, keyframe)) else s
    case FailTransition =>
      if s.todo == [] then RtpMoved(s.(enc := Enc.Destroyed(s.enc)), Rtp.FailStream) else s
    case Work =>
      if s.todo != [] && Found(s, s.todo[0]) then Done(s.(todo := s.todo[1..]), s.todo[0]) else s
    case RosThread(event) => if RosBackground(event) then RosMoved(s, event) else s
    case RtpThread(event) => if RtpBackground(event) then RtpMoved(s, event) else s
  }

  function Initial(rate: Enc.Rate, ros: bool, capacity: nat, limit: nat): Stream {
    Stream(Enc.Initial(rate), Ros.Initial(ros, capacity), Rtp.Initial(limit), [], [], {}, [], [])
  }

  // ----- the render thread keeps its protocol -----

  datatype RenderPhase = Ready | Encoding | InHand

  /** What the order of the remaining operations depends on. */
  datatype Phase = Phase(session: nat, unstamped: bool, held: bool, owed: bool, render: RenderPhase)

  function PhaseOf(s: Stream): Phase {
    Phase(s.ros.session, s.ros.unstamped || s.ros.log.stamped == [], s.ros.held.Some?, s.rtp.owed,
          match s.rtp.render case Idle => Ready case Took(_) => Encoding case Holding => InHand)
  }

  predicate Allowed(p: Phase, op: Op) {
    match op
    case Do(ClearRtp) => !p.render.InHand?
    case Do(BeginEpoch(d)) => !p.held && d != Ros.NoDiscontinuity
    case Do(RequestKeyframe) => !p.render.InHand?
    case Do(AskPendingEpoch(_)) => !p.held
    case Do(StartSession(_)) => !p.held && p.unstamped
    case Do(TakeRequest(_)) => p.render.Ready? && !p.owed
    case Do(NoFrame) => p.render.Encoding? && !p.owed
    case Do(Send(_, _)) => false
    case Emit(_, _) => p.render.Encoding? && !p.owed
    case Offer(_, session) => !p.held && session == p.session && p.render.InHand?
    case Stamp => p.render.InHand?
    case Queue => p.render.InHand? && !p.held
  }

  function After(p: Phase, op: Op): Phase {
    match op
    case Do(ClearRtp) => p.(owed := true)
    case Do(BeginEpoch(_)) => p.(unstamped := true)
    case Do(RequestKeyframe) => p.(owed := false, render := Ready)
    case Do(AskPendingEpoch(answer)) => p.(unstamped := p.unstamped || answer)
    case Do(StartSession(session)) => p.(session := session)
    case Do(TakeRequest(_)) => p.(render := Encoding)
    case Do(NoFrame) => p.(render := Ready)
    case Do(Send(_, _)) => p
    case Emit(_, _) => p.(render := InHand)
    case Offer(_, _) => p.(held := true)
    case Stamp => p.(held := false, unstamped := false)
    case Queue => p.(render := Ready)
  }

  /** From phase `p` the operations are allowed one after the other, and end where a frame begins, with the
      encoder's session known to ROS. */
  predicate Script(p: Phase, ops: seq<Op>, session: nat)
    decreases |ops|
  {
    if ops == [] then !p.held && !p.owed && p.render.Ready? && p.session == session
    else Allowed(p, ops[0]) && Script(After(p, ops[0]), ops[1..], session)
  }

  predicate Better(p: Phase, q: Phase) {
    p.session == q.session && p.owed == q.owed && p.render == q.render && (p.unstamped ==> q.unstamped)
    && (q.held ==> p.held)
  }

  lemma {:induction false} ScriptFromBetter(p: Phase, q: Phase, ops: seq<Op>, session: nat)
    requires Script(p, ops, session) && Better(p, q)
    ensures Script(q, ops, session)
    decreases |ops|
  {
    if ops != [] {
      ScriptFromBetter(After(p, ops[0]), After(q, ops[0]), ops[1..], session);
    }
  }

  lemma ScriptStep(p: Phase, op: Op, rest: seq<Op>, session: nat)
    requires Allowed(p, op) && Script(After(p, op), rest, session)
    ensures Script(p, [op] + rest, session)
  {
    assert ([op] + rest)[1..] == rest;
  }

  lemma ExpandStep(op: Enc.Op, rest: seq<Enc.Op>, unit: Rtp.Encoded)
    ensures Expand([op] + rest, unit)
         == (if op.Send? then Handled(op.frame, op.current, unit) else [Do(op)]) + Expand(rest, unit)
  {
    assert ([op] + rest)[1..] == rest;
  }

  lemma ScriptDo(p: Phase, op: Enc.Op, rest: seq<Enc.Op>, unit: Rtp.Encoded, session: nat)
    requires !op.Send? && Allowed(p, Do(op)) && Script(After(p, Do(op)), Expand(rest, unit), session)
    ensures Script(p, Expand([op] + rest, unit), session)
  {
    ExpandStep(op, rest, unit);
    ScriptStep(p, Do(op), Expand(rest, unit), session);
  }

  /** A purge of both branches, the next epoch, and the request for a keyframe. */
  lemma ScriptReset(p: Phase, d: Ros.Discontinuity, rest: seq<Enc.Op>, unit: Rtp.Encoded, session: nat)
    requires !p.held && !p.render.InHand? && d != Ros.NoDiscontinuity
    requires Script(p.(unstamped := true, owed := false, render := Ready), Expand(rest, unit), session)
    ensures Script(p, Expand([Enc.ClearRtp, Enc.BeginEpoch(d), Enc.RequestKeyframe] + rest, unit), session)
  {
    hide Script, Expand;
    var q := p.(owed := true);
    ScriptDo(q.(unstamped := true), Enc.RequestKeyframe, rest, unit, session);
    ScriptDo(q, Enc.BeginEpoch(d), [Enc.RequestKeyframe] + rest, unit, session);
    ScriptDo(p, Enc.ClearRtp, [Enc.BeginEpoch(d)] + ([Enc.RequestKeyframe] + rest), unit, session);
    assert [Enc.ClearRtp] + ([Enc.BeginEpoch(d)] + ([Enc.RequestKeyframe] + rest))
        == [Enc.ClearRtp, Enc.BeginEpoch(d), Enc.RequestKeyframe] + rest;
  }

  lemma AnswerScript(e: Enc.Encoder, outcome: Enc.Outcome, p: Phase, unit: Rtp.Encoded)
    requires p.render.Encoding? && !p.owed && !p.held && p.session == e.session
    requires forall k :: 0 <= k < |e.pending| ==> e.pending[k].session == e.session
    ensures Script(p, Expand(Enc.AnswerOps(e, outcome), unit), e.session)
  {
    if Enc.Loses(e, outcome) {
      ScriptReset(p, Ros.EncoderReset, [], unit, e.session);
      assert Enc.RESET + [] == Enc.RESET;
    } else if outcome.Output? {
      var frame := e.pending[Enc.Find(e.pending, outcome.timestamp)];
      var current := frame.index == e.frameIndex;
      ExpandStep(Enc.Send(frame, current), [], unit);
      assert [Enc.Send(frame, current)] + [] == [Enc.Send(frame, current)];
      assert Handled(frame, current, unit) + [] == Handled(frame, current, unit);
      OutputScript(p, frame, current, unit);
    } else {
      ScriptDo(p, Enc.NoFrame, [], unit, e.session);
    }
  }

  lemma OutputScript(p: Phase, frame: Enc.Pending, current: bool, unit: Rtp.Encoded)
    requires p.render.Encoding? && !p.owed && !p.held && p.session == frame.session
    ensures Script(p, Handled(frame, current, unit), p.session)
  {
    hide Script;
    var a := p.(render := InHand);
    var b := a.(held := true);
    EmptyScript(p.(render := Ready), p.session);
    EmptyScript(p.(render := Ready, unstamped := false), p.session);
    if unit.count == 0 {
      ScriptStep(a, Queue, [], p.session);
      ScriptStep(p, Emit(unit, current), [Queue] + [], p.session);
      assert [Emit(unit, current)] + ([Queue] + []) == Handled(frame, current, unit);
    } else {
      ScriptStep(a.(unstamped := false), Queue, [], p.session);
      ScriptStep(b, Stamp, [Queue] + [], p.session);
      ScriptStep(a, Offer(unit.key, frame.session), [Stamp] + ([Queue] + []), p.session);
      ScriptStep(p, Emit(unit, current), [Offer(unit.key, frame.session)] + ([Stamp] + ([Queue] + [])), p.session);
      assert [Emit(unit, current)] + ([Offer(unit.key, frame.session)] + ([Stamp] + ([Queue] + [])))
          == Handled(frame, current, unit);
    }
  }

  lemma EmptyScript(p: Phase, session: nat)
    requires !p.held && !p.owed && p.render.Ready? && p.session == session
    ensures Script(p, [], session)
  {
  }

  /** What follows an opened or kept session. */
  lemma EnsureScript(e: Enc.Encoder, r: Enc.Render, p: Phase, rest: seq<Enc.Op>, unit: Rtp.Encoded, session: nat)
    requires p.render.Ready? && !p.owed && !p.held && p.session == e.session && (!e.everOpened ==> p.unstamped)
    requires Script(p.(session := Enc.Ensured(e, r).session, unstamped := false), Expand(rest, unit), session)
    ensures Script(p, Expand(Enc.EnsureOps(e, r) + rest, unit), session)
  {
    hide Script, Expand;
    var running := Enc.Ensured(e, r).session;
    var last := p.(session := running, unstamped := true);
    ScriptFromBetter(p.(session := running, unstamped := false), p.(session := running), Expand(rest, unit), session);
    ScriptFromBetter(p.(session := running, unstamped := false), last, Expand(rest, unit), session);
    if Enc.EnsureOps(e, r) == [] {
      assert [] + rest == rest;
    } else {
      var tail := [Enc.StartSession(e.session + 1)] + ([Enc.RequestKeyframe] + rest);
      var owing := last.(session := e.session, owed := true);
      ScriptDo(last, Enc.RequestKeyframe, rest, unit, session);
      ScriptDo(last.(session := e.session), Enc.StartSession(e.session + 1), [Enc.RequestKeyframe] + rest, unit,
               session);
      ScriptDo(last.(owed := true), Enc.RequestKeyframe, rest, unit, session);
      ScriptDo(owing, Enc.StartSession(e.session + 1), [Enc.RequestKeyframe] + rest, unit, session);
      if e.everOpened && !r.epochPending {
        ScriptDo(p.(owed := true), Enc.BeginEpoch(Ros.EncoderReset), tail, unit, session);
        ScriptDo(p, Enc.ClearRtp, [Enc.BeginEpoch(Ros.EncoderReset)] + tail, unit, session);
        ScriptDo(p, Enc.AskPendingEpoch(r.epochPending), [Enc.ClearRtp] + ([Enc.BeginEpoch(Ros.EncoderReset)] + tail),
                 unit, session);
        assert [Enc.AskPendingEpoch(r.epochPending)] + ([Enc.ClearRtp] + ([Enc.BeginEpoch(Ros.EncoderReset)] + tail))
            == Enc.EnsureOps(e, r) + rest;
      } else {
        ScriptDo(p, Enc.AskPendingEpoch(r.epochPending), tail, unit, session);
        assert [Enc.AskPendingEpoch(r.epochPending)] + tail == Enc.EnsureOps(e, r) + rest;
      }
    }
  }

  lemma ObserveScript(e: Enc.Encoder, time: int, p: Phase, rest: seq<Enc.Op>, unit: Rtp.Encoded, session: nat)
    requires p.render.Ready? && !p.owed && !p.held
    requires Script(p, Expand(rest, unit), session)
    ensures Script(p, Expand(Enc.ObserveOps(e, time) + rest, unit), session)
  {
    if Enc.Backwards(e, time) {
      ScriptFromBetter(p, p.(unstamped := true), Expand(rest, unit), session);
      ScriptReset(p, Ros.SourceTimeReset, rest, unit, session);
    } else {
      assert [] + rest == rest;
    }
  }

  lemma SubmitScript(e: Enc.Encoder, r: Enc.Render, p: Phase, unit: Rtp.Encoded)
    requires Enc.Inv(e) && p.render.Ready? && !p.owed && !p.held && p.session == e.session
    ensures Script(p, Expand([Enc.TakeRequest(r.forced)] + Enc.AnswerOps(Enc.Submitted(e, r.sourceTime), r.outcome),
                             unit), e.session)
  {
    hide Script, Expand;
    var t := Enc.Submitted(e, r.sourceTime);
    AnswerScript(t, r.outcome, p.(render := Encoding), unit);
    ScriptDo(p, Enc.TakeRequest(r.forced), Enc.AnswerOps(t, r.outcome), unit, e.session);
  }

  lemma AnswerKeepsSession(e: Enc.Encoder, outcome: Enc.Outcome)
    ensures Enc.Answered(e, outcome).session == e.session
  {
  }

  /** All a rendered frame does is in an order the branches allow. */
  lemma FrameScript(e: Enc.Encoder, r: Enc.Render, p: Phase, unit: Rtp.Encoded)
    requires Enc.Inv(e) && p.render.Ready? && !p.owed && !p.held && p.session == e.session
    requires !e.everOpened ==> p.unstamped
    ensures Script(p, Expand(Enc.EncodeOps(e, r), unit), Enc.Encode(e, r).session)
  {
    hide Script, Expand, Enc.Inv, Enc.Submitted, Enc.Answered, Enc.AnswerOps, Enc.EnsureOps, Enc.ObserveOps;
    Enc.ClampedByInv(e);
    SeenSession(e, r.sourceTime);
    if r.texture {
      var seen := Enc.Observed(e, r.sourceTime);
      var ready := Enc.Ensured(seen, r);
      var q := p.(session := ready.session, unstamped := false);
      Enc.ReadyKeepsInv(e, r);
      var last := if Enc.Submits(e, r) then
                    [Enc.TakeRequest(r.forced)] + Enc.AnswerOps(Enc.Submitted(ready, r.sourceTime), r.outcome)
                  else [];
      assert Script(q, Expand(last, unit), ready.session) by {
        if Enc.Submits(e, r) {
          SubmitScript(ready, r, q, unit);
        } else {
          NothingToExpand(unit);
          EmptyScript(q, ready.session);
        }
      }
      EnsureScript(seen, r, p, last, unit, ready.session);
      ObserveScript(e, r.sourceTime, p, Enc.EnsureOps(seen, r) + last, unit, ready.session);
      assert Enc.ObserveOps(e, r.sourceTime) + (Enc.EnsureOps(seen, r) + last) == Enc.EncodeOps(e, r);
      SubmittedSession(ready, r.sourceTime);
      AnswerKeepsSession(Enc.Submitted(ready, r.sourceTime), r.outcome);
    } else {
      NothingToExpand(unit);
      EmptyScript(p, e.session);
    }
  }

  lemma SubmittedSession(e: Enc.Encoder, time: int)
    requires e.rate.Clamped()
    ensures Enc.Submitted(e, time).session == e.session
  {
  }

  lemma NothingToExpand(unit: Rtp.Encoded)
    ensures Expand([], unit) == []
  {
  }

  lemma SeenSession(e: Enc.Encoder, time: int)
    ensures Enc.Observed(e, time).session == e.session && Enc.Observed(e, time).everOpened == e.everOpened
  {
  }

  // ----- the invariant -----

  /** Only the last output is emitted, offered and stamped, and only at the end of its frame. */
  predicate Tail(outputs: seq<Enc.Pending>, todo: seq<Op>) {
    forall k {:trigger todo[k]} :: 0 <= k < |todo| ==>
      && (todo[k].Stamp? ==> k == |todo| - 2 && outputs != [] && (k > 0 ==> todo[k - 1].Offer?))
      && (todo[k].Offer? ==>
            k == |todo| - 3 && todo[k + 1].Stamp? && outputs != [] && todo[k].session == outputs[|outputs| - 1].session)
      && (todo[k].Emit? ==>
            outputs != [] && if todo[k].unit.count == 0 then k == |todo| - 2 else k == |todo| - 4 && todo[k + 1].Offer?)
  }

  predicate ToStamp(todo: seq<Op>) {
    exists k :: 0 <= k < |todo| && todo[k].Stamp?
  }

  predicate ToEmit(todo: seq<Op>) {
    exists k :: 0 <= k < |todo| && todo[k].Emit?
  }

  // ----- which outputs the ROS queue got -----

  /** What happened to the outputs so far, in their order. */
  datatype Trace = Trace(
    encoded: seq<Rtp.Encoded>,
    sources: seq<int>,
    missed: set<int>,
    open: bool,                  // one was missed behind the last source
    stamped: seq<Ros.Frame>,
    skips: set<nat>)

  function TraceOf(s: Stream): Trace {
    Trace(s.rtp.encoded, s.sources, s.missed, s.ros.log.missed, s.ros.log.stamped, s.ros.log.skips)
  }

  function LastSource(t: Trace): int { if t.sources == [] then -1 else t.sources[|t.sources| - 1] }

  /** An output that was missed lies in between. */
  predicate MissedBetween(t: Trace, a: int, b: int) { exists k :: k in t.missed && a < k < b }

  predicate SkipOk(t: Trace, i: nat)
    requires i < |t.stamped|
  {
    var k := t.stamped[i].offer;
    k < |t.sources|
    && (t.stamped[i].number > 0 ==>
          k > 0 && (i in t.skips <==> MissedBetween(t, t.sources[k - 1], t.sources[k])))
  }

  /** The output reached the queue, was missed, or has no NAL units. */
  predicate Settled(t: Trace, k: nat)
    requires k < |t.encoded|
  {
    k in t.sources || k in t.missed || t.encoded[k].count == 0
  }

  predicate SourceOk(t: Trace, i: nat, bound: nat)
    requires i < |t.sources| && bound <= |t.encoded|
  {
    && 0 <= t.sources[i] < bound && t.encoded[t.sources[i]].count > 0 && t.sources[i] !in t.missed
    && (i > 0 ==> t.sources[i - 1] < t.sources[i])
  }

  /** The first `bound` outputs are settled, each in one way. */
  predicate TraceOk(t: Trace, bound: nat) {
    && bound <= |t.encoded|
    && (forall k: nat {:trigger Settled(t, k)} :: k < bound ==> Settled(t, k))
    && (forall k :: k in t.missed ==> 0 <= k < bound && t.encoded[k].count > 0)
    && (forall i: nat {:trigger SourceOk(t, i, bound)} :: i < |t.sources| ==> SourceOk(t, i, bound))
    && (t.open <==> MissedBetween(t, LastSource(t), bound))
    && (forall g :: g in t.skips ==> g < |t.stamped|)
    && (forall i: nat {:trigger SkipOk(t, i)} :: i < |t.stamped| ==> SkipOk(t, i))
  }

  /** The last output is not settled yet. */
  predicate Unsettled(s: Stream) {
    ToEmit(s.todo) || (ToStamp(s.todo) && !(s.todo[0].Stamp? && s.ros.held.None?))
  }

  predicate ChainOk(s: Stream) {
    var n := |s.enc.outputs|;
    && |s.rtp.encoded| == n - (if ToEmit(s.todo) then 1 else 0)
    && (ToStamp(s.todo) && !ToEmit(s.todo) ==> n > 0 && s.rtp.encoded[n - 1].count > 0)
    && n >= (if Unsettled(s) then 1 else 0)
    && TraceOk(TraceOf(s), n - (if Unsettled(s) then 1 else 0))
  }

  /** Another output that is not settled yet. */
  lemma TraceEmits(t: Trace, unit: Rtp.Encoded, bound: nat)
    requires TraceOk(t, bound)
    ensures TraceOk(t.(encoded := t.encoded + [unit]), bound)
  {
    var u := t.(encoded := t.encoded + [unit]);
    forall k: nat | k < bound ensures Settled(u, k) { assert Settled(t, k); }
    forall i: nat | i < |u.sources| ensures SourceOk(u, i, bound) { assert SourceOk(t, i, bound); }
    forall i: nat | i < |u.stamped| ensures SkipOk(u, i) { assert SkipOk(t, i); }
  }

  lemma SameBetween(t: Trace, u: Trace, a: int, b: int)
    requires forall k :: a < k < b ==> (k in t.missed <==> k in u.missed)
    ensures MissedBetween(t, a, b) <==> MissedBetween(u, a, b)
  {
  }

  /** The next output has no NAL units. */
  lemma TraceLoses(t: Trace, bound: nat)
    requires TraceOk(t, bound) && bound < |t.encoded| && t.encoded[bound].count == 0
    ensures TraceOk(t, bound + 1)
  {
    var next := bound + 1;
    forall k: nat | k < next ensures Settled(t, k) { assert k < bound ==> Settled(t, k); }
    forall i: nat | i < |t.sources| ensures SourceOk(t, i, next) { assert SourceOk(t, i, bound); }
    assert MissedBetween(t, LastSource(t), next) <==> MissedBetween(t, LastSource(t), bound);
  }

  /** The next output is missed. */
  lemma TraceMisses(t: Trace, bound: nat)
    requires TraceOk(t, bound) && bound < |t.encoded| && t.encoded[bound].count > 0
    ensures TraceOk(t.(missed := t.missed + {bound}, open := true), bound + 1)
  {
    var next := bound + 1;
    var u := t.(missed := t.missed + {bound}, open := true);
    forall k: nat | k < next ensures Settled(u, k) { assert k < bound ==> Settled(t, k); }
    forall i: nat | i < |u.sources| ensures SourceOk(u, i, next) { assert SourceOk(t, i, bound); }
    forall i: nat | i < |u.stamped|
      ensures SkipOk(u, i)
    {
      assert SkipOk(t, i);
      var k := t.stamped[i].offer;
      assert SourceOk(t, k, bound);
      if k > 0 { SameBetween(t, u, t.sources[k - 1], t.sources[k]); }
    }
    assert LastSource(t) < bound by {
      assert t.sources != [] ==> SourceOk(t, |t.sources| - 1, bound);
    }
    assert bound in u.missed;
  }

  /** What the next output becomes when it reaches the queue: it may be stamped. */
  predicate Reaches(t: Trace, u: Trace) {
    || u == t.(open := false, sources := u.sources)
    || (|u.stamped| == |t.stamped| + 1
        && var f := u.stamped[|t.stamped|];
           && u == t.(open := false, sources := u.sources, stamped := t.stamped + [f],
                      skips := if f.number > 0 && t.open then t.skips + {|t.stamped|} else t.skips)
           && f.offer == |t.sources| && (f.number > 0 ==> f.offer > 0))
  }

  lemma TraceReaches(t: Trace, u: Trace, bound: nat)
    requires TraceOk(t, bound) && bound < |t.encoded| && t.encoded[bound].count > 0
    requires Reaches(t, u) && u.sources == t.sources + [bound]
    ensures TraceOk(u, bound + 1)
  {
    var next := bound + 1;
    forall k: nat | k < next
      ensures Settled(u, k)
    {
      if k < bound {
        assert Settled(t, k);
      } else {
        assert u.sources[|t.sources|] == bound;
      }
    }
    forall i: nat | i < |u.sources|
      ensures SourceOk(u, i, next)
    {
      if i < |t.sources| { assert SourceOk(t, i, bound); }
      assert i > 0 ==> i - 1 < |t.sources| && SourceOk(t, i - 1, bound);
    }
    forall i: nat | i < |u.stamped|
      ensures SkipOk(u, i)
    {
      TraceReachesSkip(t, u, bound, i);
    }
    assert LastSource(u) == bound;
  }

  lemma TraceReachesSkip(t: Trace, u: Trace, bound: nat, i: nat)
    requires TraceOk(t, bound) && Reaches(t, u) && u.sources == t.sources + [bound] && i < |u.stamped|
    ensures SkipOk(u, i)
  {
    var k := u.stamped[i].offer;
    if i < |t.stamped| {
      assert SkipOk(t, i);
      if k > 0 { SameBetween(t, u, t.sources[k - 1], t.sources[k]); }
    } else if k > 0 {
      SameBetween(t, u, LastSource(t), bound);
    }
  }

  /** Every unit that reached the ROS queue is an output, the outputs in order, and has its session. */
  predicate SourcesOk(s: Stream, bound: int) {
    && |s.sources| == |s.ros.log.offered|
    && (forall i {:trigger s.sources[i]} :: 0 <= i < |s.sources| ==>
          && 0 <= s.sources[i] < bound <= |s.enc.outputs|
          && s.enc.outputs[s.sources[i]].session == s.ros.log.offered[i].session)
    && (forall i, j :: 0 <= i < j < |s.sources| ==> s.sources[i] < s.sources[j])
  }

  predicate HeldOk(s: Stream) {
    s.ros.held.Some? ==>
      s.enc.outputs != [] && s.ros.held.value.session == s.enc.outputs[|s.enc.outputs| - 1].session
  }

  /** Input `i` is from a callback the gate let pass. */
  ghost predicate FreshInput(s: Stream, i: nat)
    requires i < |s.accepted| == |s.enc.inputs|
  {
    && s.accepted[i] < |s.callbacks|
    && s.callbacks[s.accepted[i]].time == s.enc.inputs[i].sourceTime
    && Gate.Expected(s.callbacks[..s.accepted[i]], s.callbacks[s.accepted[i]], Gate.Accept)
  }

  ghost predicate FreshInputs(s: Stream) {
    && |s.accepted| == |s.enc.inputs|
    && forall i: nat {:trigger FreshInput(s, i)} :: i < |s.accepted| ==> FreshInput(s, i)
  }

  ghost predicate Inv(s: Stream) {
    FreshInputs(s) && PartsInv(s)
  }

  predicate BranchesInv(s: Stream) { Enc.Inv(s.enc) && Ros.Inv(s.ros) && Rtp.Inv(s.rtp) }

  predicate ScriptOk(s: Stream) { Script(PhaseOf(s), s.todo, s.enc.session) }

  predicate FramesOk(s: Stream) {
    && (!s.enc.everOpened ==> s.ros.log.stamped == [] && !ToStamp(s.todo))
    && HeldOk(s) && SourcesOk(s, if ToStamp(s.todo) then |s.enc.outputs| - 1 else |s.enc.outputs|)
  }

  predicate PartsInv(s: Stream) {
    BranchesInv(s) && ScriptOk(s) && FramesOk(s) && Tail(s.enc.outputs, s.todo) && ChainOk(s)
  }

  /** The part of the state that the render thread's order, its frames and the trace depend on. */
  predicate SameOrder(s: Stream, t: Stream) {
    && t.todo == s.todo && t.sources == s.sources && t.missed == s.missed && t.enc == s.enc
    && SamePhase(s.ros, t.ros)
    && t.rtp.owed == s.rtp.owed && t.rtp.render == s.rtp.render && t.rtp.encoded == s.rtp.encoded
  }

  lemma SameOrderKeepsParts(s: Stream, t: Stream)
    requires PartsInv(s) && SameOrder(s, t) && BranchesInv(t)
    ensures PartsInv(t)
  {
    hide BranchesInv, Script, Tail, TraceOk, ToStamp, ToEmit;
    assert PhaseOf(t) == PhaseOf(s) && TraceOf(t) == TraceOf(s);
  }

  // ----- steps of the other threads -----

  predicate SamePhase(s: Ros.State, t: Ros.State) {
    && t.session == s.session && t.unstamped == s.unstamped && t.held == s.held
    && t.log.stamped == s.log.stamped && t.log.offered == s.log.offered
    && t.log.missed == s.log.missed && t.log.skips == s.log.skips
  }

  lemma TakeKeepsPhase(s: Ros.State)
    requires s.core.infoPending || s.core.queue != []
    ensures SamePhase(s, Ros.TakeStep(s))
  {
  }

  lemma CompareKeepsPhase(s: Ros.State)
    ensures SamePhase(s, Ros.CompareStep(s))
  {
    assert s.publisher.PoppedInfo? ==> SamePhase(s, Ros.ComparedInfo(s));
    assert s.publisher.PoppedFrame? ==> SamePhase(s, Ros.ComparedFrame(s));
    hide SamePhase, Ros.ComparedInfo, Ros.ComparedFrame;
  }

  lemma PublishKeepsPhase(s: Ros.State)
    ensures SamePhase(s, Ros.PublishStep(s))
  {
    assert s.publisher.ClearedInfo? ==> SamePhase(s, Ros.SentInfo(s));
    assert s.publisher.ClearedFrame? ==> SamePhase(s, Ros.SentFrame(s));
    hide SamePhase, Ros.SentInfo, Ros.SentFrame;
  }

  lemma SubscribersKeepPhase(s: Ros.State, e: Ros.Event)
    requires Ros.Enabled(s, e) && RosBackground(e) && !e.Take? && !e.Compare? && !e.Publish?
    ensures SamePhase(s, Ros.Fire(s, e))
  {
    hide Ros.StampUnit, Ros.TakeStep, Ros.CompareStep, Ros.PublishStep;
  }

  lemma RosBackgroundKeepsPhase(s: Ros.State, e: Ros.Event)
    requires RosBackground(e)
    ensures SamePhase(s, Ros.Step(s, e))
  {
    hide Ros.StampUnit, Ros.TakeStep, Ros.CompareStep, Ros.PublishStep, Ros.BeginEpoch, Ros.DisconnectPurgeStep;
    hide Ros.StopStep;
    var r := s.(force := false);
    if Ros.Enabled(s, e) {
      match e
      case Take => TakeKeepsPhase(r);
      case Compare => CompareKeepsPhase(r);
      case Publish => PublishKeepsPhase(r);
      case _ => SubscribersKeepPhase(r, e);
    }
  }

  predicate SameRender(s: Rtp.State, t: Rtp.State) {
    t.owed == s.owed && t.render == s.render && t.encoded == s.encoded && t.honest == s.honest
  }

  lemma PacerKeepsRender(s: Rtp.State, e: Rtp.Event)
    requires Rtp.Enabled(s, e) && (e.Pop? || e.Compare? || e.Gate? || e.Send?)
    ensures SameRender(s, Rtp.Fire(s, e))
  {
    hide Rtp.Queued, Rtp.QueueStep, Rtp.Applied, Rtp.Emitted, Rtp.Purged;
  }

  lemma RtpBackgroundKeepsPhase(s: Rtp.State, e: Rtp.Event)
    requires RtpBackground(e) || e.Apply? || e.FailStream?
    ensures SameRender(s, Rtp.Step(s, e))
  {
    hide Rtp.Queued, Rtp.QueueStep, Rtp.Emitted, Rtp.PopStep, Rtp.CompareStep, Rtp.GateStep, Rtp.SendStep;
    if Rtp.Enabled(s, e) && (e.Pop? || e.Compare? || e.Gate? || e.Send?) {
      PacerKeepsRender(s, e);
    }
  }

  lemma RosThreadKeepsInv(s: Stream, e: Ros.Event)
    requires PartsInv(s) && RosBackground(e)
    ensures PartsInv(RosMoved(s, e))
  {
    hide Ros.Inv, Rtp.Inv, Enc.Inv, Ros.Step, Rtp.Step, ScriptOk, FramesOk, ChainOk, Tail, SamePhase;
    Ros.StepKeepsInv(s.ros, e);
    RosBackgroundKeepsPhase(s.ros, e);
    Rtp.StepKeepsInv(s.rtp, Rtp.AnyForce);
    RtpBackgroundKeepsPhase(s.rtp, Rtp.AnyForce);
    SameOrderKeepsParts(s, RosMoved(s, e));
  }

  lemma RtpMovedKeepsInv(s: Stream, e: Rtp.Event)
    requires PartsInv(s) && (RtpBackground(e) || e.Apply? || e.FailStream?)
    ensures PartsInv(RtpMoved(s, e))
  {
    hide Ros.Inv, Rtp.Inv, Enc.Inv, Rtp.Step, ScriptOk, FramesOk, ChainOk, Tail;
    Rtp.StepKeepsInv(s.rtp, e);
    RtpBackgroundKeepsPhase(s.rtp, e);
    SameOrderKeepsParts(s, RtpMoved(s, e));
  }

  // ----- steps of the render thread -----

  /** The branches find the operation in order. */
  predicate Possible(s: Stream, op: Op) {
    match op
    case Do(ClearRtp) => Rtp.Enabled(s.rtp, Rtp.Purge)
    case Do(BeginEpoch(d)) => Ros.Enabled(s.ros, Ros.Begin(d))
    case Do(RequestKeyframe) => Rtp.Enabled(s.rtp, Rtp.RenderForce)
    case Do(AskPendingEpoch(_)) => Ros.Enabled(s.ros, Ros.Ask(s.ros.core.waiting && s.ros.core.next == 0))
    case Do(StartSession(session)) => Ros.Enabled(s.ros, Ros.OpenSession(session))
    case Do(TakeRequest(_)) => Rtp.Enabled(s.rtp, Rtp.Take(s.rtp.forceKeyframe))
    case Do(NoFrame) => Rtp.Enabled(s.rtp, Rtp.NoOutput)
    case Do(Send(_, _)) => false
    case Emit(unit, current) => Rtp.Enabled(s.rtp, Rtp.Emit(unit, current))
    case Offer(key, session) => Ros.Enabled(s.ros, Ros.Offer(Ros.AccessUnit(key, session)))
    case Stamp => s.rtp.render.Holding?
    case Queue => Rtp.Enabled(s.rtp, Rtp.Queue)
  }

  lemma AllowedIsPossible(s: Stream, op: Op)
    requires Allowed(PhaseOf(s), op) && (s.rtp.render.Holding? ==> s.rtp.encoded != [])
    ensures Possible(s, op)
  {
  }

  lemma HoldingIsEmitted(s: Rtp.State)
    requires Rtp.Inv(s)
    ensures s.render.Holding? ==> s.encoded != []
  {
    hide Rtp.Log, Rtp.Chain;
  }

  lemma RenderNeverFindsDisorder(s: Stream)
    requires PartsInv(s) && s.todo != []
    ensures Possible(s, s.todo[0])
  {
    hide Ros.Inv, Rtp.Inv, Enc.Inv, FramesOk, ChainOk, Tail, Allowed, Possible;
    HoldingIsEmitted(s.rtp);
    AllowedIsPossible(s, s.todo[0]);
  }

  /** The locked section adds the unit, and perhaps a frame, to the history. */
  predicate OneMore(a: Ros.History, b: Ros.History, next: nat) {
    && !b.missed
    && ((b.stamped == a.stamped && b.skips == a.skips)
        || (|b.stamped| == |a.stamped| + 1
            && var f := b.stamped[|a.stamped|];
               && b.stamped == a.stamped + [f] && f.offer == |a.offered| && (f.number > 0 ==> next > 0)
               && b.skips == if f.number > 0 && a.missed then a.skips + {|a.stamped|} else a.skips))
  }

  lemma AcceptedLog(s: Ros.State, unit: Ros.AccessUnit)
    ensures var t := Ros.Accepted(s, unit);
            && t.session == s.session && t.held.None? && t.log.offered == s.log.offered + [unit]
            && OneMore(s.log, t.log, s.core.next)
  {
    hide Ros.BehindGap, Ros.InfoComing;
    assert Ros.Accepted(s, unit).log.stamped == s.log.stamped + [Ros.NewFrame(s, unit)];
  }

  lemma DroppedLog(s: Ros.State, unit: Ros.AccessUnit, c: Ros.Core)
    ensures var t := Ros.Dropped(s, unit, c);
            && t.session == s.session && t.held.None? && t.log.offered == s.log.offered + [unit]
            && OneMore(s.log, t.log, s.core.next)
  {
  }

  lemma StampUnitLog(s: Ros.State, unit: Ros.AccessUnit)
    ensures var t := Ros.StampUnit(s, unit);
            && t.session == s.session && t.held.None?
            && (t.log.offered == s.log.offered ==>
                  t.log.stamped == s.log.stamped && t.log.missed && t.log.skips == s.log.skips)
            && (t.log.offered != s.log.offered ==>
                  t.log.offered == s.log.offered + [unit] && OneMore(s.log, t.log, s.core.next))
  {
    hide Ros.StampUnit, Ros.Accepted, Ros.Dropped, Ros.Advanced, OneMore;
    var c := s.core;
    var moved := s.(core := Ros.Advanced(c, Ros.QueueOverflow, if unit.key then 0 else 1), purged := false);
    Ros.StampEffect(s, unit);
    AcceptedLog(s, unit);
    AcceptedLog(moved, unit);
    DroppedLog(s, unit, c.(dropped := c.dropped + 1));
    DroppedLog(moved, unit, moved.core);
    MovedLog(s.log, Ros.Accepted(moved, unit).log, moved.core.next, c);
    MovedLog(s.log, Ros.Dropped(moved, unit, moved.core).log, moved.core.next, c);
  }

  /** Behind an overflow the frame has number 0. */
  lemma MovedLog(a: Ros.History, b: Ros.History, next: nat, c: Ros.Core)
    requires OneMore(a, b, next)
    ensures next == 0 ==> OneMore(a, b, c.next)
  {
  }

  lemma StampPhase(s: Ros.State)
    ensures var t := Ros.Step(s, Ros.Stamp);
            && t.session == s.session && t.held.None?
            && (t.log.offered == s.log.offered ==>
                  t.log.stamped == s.log.stamped && t.log.skips == s.log.skips
                  && t.log.missed == (s.held.Some? || s.log.missed))
            && (t.log.offered != s.log.offered ==>
                  && s.held.Some? && t.log.offered == s.log.offered + [s.held.value]
                  && OneMore(s.log, t.log, s.core.next))
  {
    hide Ros.StampUnit;
    if s.held.Some? {
      StampUnitLog(s.(force := false), s.held.value);
    }
  }

  /** The operations that are steps of the ROS branch, the locked section aside, and those of the RTP branch. */
  predicate RosOp(op: Op) {
    op.Offer? || (op.Do? && (op.op.BeginEpoch? || op.op.AskPendingEpoch? || op.op.StartSession?))
  }

  predicate RtpOp(op: Op) {
    op.Emit? || op.Queue?
    || (op.Do? && (op.op.ClearRtp? || op.op.RequestKeyframe? || op.op.TakeRequest? || op.op.NoFrame?))
  }

  /** What such a step changes of what the render thread sees. */
  predicate RosEffect(s: Ros.State, e: Ros.Event, t: Ros.State) {
    && t.log.offered == s.log.offered && t.log.stamped == s.log.stamped && t.log.skips == s.log.skips
    && t.session == (if e.OpenSession? then e.session else s.session)
    && (s.unstamped || e.Begin? || (e.Ask? && e.answer) ==> t.unstamped)
    && ((t.held == s.held && t.log.missed == (e.Offer? || s.log.missed))
        || (e.Offer? && t.held == Some(e.unit) && t.log.missed == s.log.missed))
  }

  lemma BeginKeepsHistory(s: Ros.State, d: Ros.Discontinuity)
    ensures var t := Ros.BeginEpoch(s, d);
            t.log == s.log && t.session == s.session && t.held == s.held
  {
  }

  lemma RosOpEffect(s: Ros.State, e: Ros.Event)
    requires Ros.Enabled(s, e) && (e.Begin? || e.Ask? || e.OpenSession? || e.Offer?)
    ensures RosEffect(s, e, Ros.Step(s, e))
  {
    hide Ros.StampUnit, Ros.TakeStep, Ros.CompareStep, Ros.PublishStep, Ros.BeginEpoch, Ros.DisconnectPurgeStep;
    hide Ros.StopStep;
    if e.Begin? { BeginKeepsHistory(s.(force := false), e.d); }
  }

  function RosEventOf(op: Op): Ros.Event
    requires RosOp(op)
  {
    match op
    case Do(BeginEpoch(d)) => Ros.Begin(d)
    case Do(AskPendingEpoch(answer)) => Ros.Ask(answer)
    case Do(StartSession(session)) => Ros.OpenSession(session)
    case Offer(key, session) => Ros.Offer(Ros.AccessUnit(key, session))
  }

  lemma RosOpIs(s: Stream, op: Op)
    requires RosOp(op) && Possible(s, op) && Found(s, op)
    ensures Ros.Enabled(s.ros, RosEventOf(op)) && s.ros.held.None?
    ensures var t := RosMoved(s, RosEventOf(op));
            Done(s, op) == if op.Offer? && t.ros.held.None? then t.(missed := s.missed + {|s.enc.outputs| - 1}) else t
  {
    hide Ros.Step, RosMoved;
  }

  lemma RosOpPhase(s: Stream, op: Op)
    requires RosOp(op) && Possible(s, op) && Found(s, op)
    ensures var t := Done(s, op);
            && Better(After(PhaseOf(s), op), PhaseOf(t))
            && t.ros.log.offered == s.ros.log.offered && t.ros.log.stamped == s.ros.log.stamped
            && t.sources == s.sources && t.enc == s.enc && t.todo == s.todo
            && (t.ros.held == s.ros.held || (op.Offer? && t.ros.held == Some(Ros.AccessUnit(op.key, op.session))))
            && t.rtp.encoded == s.rtp.encoded
            && TraceOf(t) == (if op.Offer? && t.ros.held.None? then
                                TraceOf(s).(missed := s.missed + {|s.enc.outputs| - 1}, open := true)
                              else TraceOf(s))
  {
    hide Ros.Step, Ros.Enabled, Rtp.Step, Possible, Found, Done;
    RosOpIs(s, op);
    RosOpEffect(s.ros, RosEventOf(op));
    RtpBackgroundKeepsPhase(s.rtp, Rtp.AnyForce);
  }

  /** What a step of the RTP branch by the render thread changes. */
  predicate RtpEffect(s: Rtp.State, e: Rtp.Event, t: Rtp.State) {
    && t.encoded == (if e.Emit? then s.encoded + [e.unit] else s.encoded)
    && t.owed == (if e.Purge? then true else if e.RenderForce? then false else s.owed)
    && t.render == (match e case Purge => s.render case Take(forced) => Rtp.Took(forced)
                            case Emit(_, _) => Rtp.Holding case _ => Rtp.Idle)
    && t.honest == match e
                   case NoOutput => false
                   case Emit(unit, current) =>
                     s.honest && current && (s.render.Took? && s.render.forced && unit.count > 0 ==> unit.key)
                   case _ => s.honest
  }

  lemma QueueEffect(s: Rtp.State)
    requires s.encoded != []
    ensures RtpEffect(s, Rtp.Queue, Rtp.QueueStep(s))
  {
  }

  predicate OfRender(e: Rtp.Event) {
    e.Purge? || e.RenderForce? || e.Take? || e.NoOutput? || e.Emit? || e.Queue?
  }

  lemma RtpOpEffect(s: Rtp.State, e: Rtp.Event)
    requires Rtp.Enabled(s, e) && OfRender(e)
    ensures RtpEffect(s, e, Rtp.Step(s, e))
  {
    hide Rtp.QueueStep, Rtp.Applied, Rtp.PopStep, Rtp.CompareStep, Rtp.GateStep, Rtp.SendStep;
    if e.Queue? { QueueEffect(s); }
  }

  function RtpEventOf(op: Op): (e: Rtp.Event)
    requires RtpOp(op)
    ensures OfRender(e)
  {
    match op
    case Do(ClearRtp) => Rtp.Purge
    case Do(RequestKeyframe) => Rtp.RenderForce
    case Do(TakeRequest(forced)) => Rtp.Take(forced)
    case Do(NoFrame) => Rtp.NoOutput
    case Emit(unit, current) => Rtp.Emit(unit, current)
    case Queue => Rtp.Queue
  }

  lemma RtpOpIs(s: Stream, op: Op)
    requires RtpOp(op) && Possible(s, op) && Found(s, op)
    ensures Rtp.Enabled(s.rtp, RtpEventOf(op)) && Done(s, op) == RtpMoved(s, RtpEventOf(op))
  {
    hide RtpMoved;
  }

  lemma RtpOpPhase(s: Stream, op: Op)
    requires RtpOp(op) && Possible(s, op) && Found(s, op)
    ensures var t := Done(s, op);
            && PhaseOf(t) == After(PhaseOf(s), op)
            && t.ros == s.ros && t.sources == s.sources && t.enc == s.enc && t.todo == s.todo
            && TraceOf(t) == TraceOf(s).(encoded := if op.Emit? then s.rtp.encoded + [op.unit] else s.rtp.encoded)
  {
    hide Rtp.Step, Rtp.Enabled, Possible, Found, Done;
    RtpOpIs(s, op);
    RtpOpEffect(s.rtp, RtpEventOf(op));
  }

  lemma StampOpPhase(s: Stream)
    requires Possible(s, Stamp)
    ensures var t := Done(s, Stamp);
            && Better(After(PhaseOf(s), Stamp), PhaseOf(t)) && t.enc == s.enc && t.todo == s.todo
  {
    hide Ros.StampUnit;
    StampPhase(s.ros);
    hide Ros.Step;
  }

  lemma StampOpTrace(s: Stream)
    requires Possible(s, Stamp) && |s.sources| == |s.ros.log.offered|
    requires s.ros.core.next > 0 ==> s.ros.log.offered != []
    ensures var t := Done(s, Stamp);
            var n := |s.enc.outputs| - 1;
            && t.rtp.encoded == s.rtp.encoded
            && (s.ros.held.None? ==> TraceOf(t) == TraceOf(s))
            && (s.ros.held.Some? ==>
                  || TraceOf(t) == TraceOf(s).(missed := s.missed + {n}, open := true)
                  || (t.sources == s.sources + [n] && Reaches(TraceOf(s), TraceOf(t))))
  {
    hide Ros.Step, Rtp.Inv;
    StampPhase(s.ros);
    StampKeepsEncoded(s);
  }

  lemma StampKeepsEncoded(s: Stream)
    ensures RosMoved(s, Ros.Stamp).rtp.encoded == s.rtp.encoded
  {
    hide Ros.Step;
  }

  lemma DoneKeepsBranches(s: Stream, op: Op)
    requires Ros.Inv(s.ros) && Rtp.Inv(s.rtp)
    ensures Ros.Inv(Done(s, op).ros) && Rtp.Inv(Done(s, op).rtp)
  {
    hide Ros.Inv, Rtp.Inv, Ros.Step, Rtp.Step;
    Rtp.StepKeepsInv(s.rtp, Rtp.AnyForce);
    match op
    case Do(ClearRtp) => Rtp.StepKeepsInv(s.rtp, Rtp.Purge);
    case Do(BeginEpoch(d)) => Ros.StepKeepsInv(s.ros, Ros.Begin(d));
    case Do(RequestKeyframe) => Rtp.StepKeepsInv(s.rtp, Rtp.RenderForce);
    case Do(AskPendingEpoch(answer)) => Ros.StepKeepsInv(s.ros, Ros.Ask(answer));
    case Do(StartSession(session)) => Ros.StepKeepsInv(s.ros, Ros.OpenSession(session));
    case Do(TakeRequest(forced)) => Rtp.StepKeepsInv(s.rtp, Rtp.Take(forced));
    case Do(NoFrame) => Rtp.StepKeepsInv(s.rtp, Rtp.NoOutput);
    case Do(Send(_, _)) =>
    case Emit(unit, current) => Rtp.StepKeepsInv(s.rtp, Rtp.Emit(unit, current));
    case Offer(key, session) => Ros.StepKeepsInv(s.ros, Ros.Offer(Ros.AccessUnit(key, session)));
    case Stamp => Ros.StepKeepsInv(s.ros, Ros.Stamp);
    case Queue => Rtp.StepKeepsInv(s.rtp, Rtp.Queue);
  }

  lemma TailOfRest(outputs: seq<Enc.Pending>, todo: seq<Op>)
    requires todo != [] && Tail(outputs, todo)
    ensures Tail(outputs, todo[1..])
    ensures todo[0].Stamp? ==> !ToStamp(todo[1..])
    ensures !todo[0].Stamp? ==> (ToStamp(todo[1..]) <==> ToStamp(todo))
  {
    var rest := todo[1..];
    forall k | 0 <= k < |rest|
      ensures rest[k] == todo[k + 1]
    {
    }
    if ToStamp(todo) && !todo[0].Stamp? {
      var k :| 0 <= k < |todo| && todo[k].Stamp?;
      assert rest[k - 1].Stamp?;
    }
  }

  /** What is left to do with the last output. */
  lemma TailCases(outputs: seq<Enc.Pending>, todo: seq<Op>)
    requires todo != [] && Tail(outputs, todo)
    ensures var op, rest := todo[0], todo[1..];
            && (op.Emit? ==> !ToEmit(rest) && (op.unit.count == 0 ==> !ToStamp(rest))
                             && (op.unit.count > 0 ==> ToStamp(rest) && !rest[0].Stamp?))
            && (op.Offer? ==> !ToEmit(todo) && !ToEmit(rest) && ToStamp(rest) && rest[0].Stamp?)
            && (op.Stamp? ==> !ToEmit(todo) && !ToEmit(rest))
            && (op.Do? || op.Queue? ==> (ToEmit(rest) <==> ToEmit(todo)) && (ToStamp(rest) ==> !rest[0].Stamp?))
  {
    var op, rest := todo[0], todo[1..];
    forall k | 0 <= k < |rest|
      ensures rest[k] == todo[k + 1]
    {
    }
    if op.Emit? && op.unit.count > 0 {
      assert todo[1].Offer?;
      assert rest[1].Stamp?;
    } else if op.Offer? {
      assert rest[0].Stamp?;
    } else if (op.Do? || op.Queue?) && ToEmit(todo) {
      var k :| 0 <= k < |todo| && todo[k].Emit?;
      assert rest[k - 1].Emit?;
    }
  }

  /** The next operation finds what it expects, and the trace is in order. */
  predicate WorkReady(s: Stream) {
    && s.todo != [] && Possible(s, s.todo[0]) && Found(s, s.todo[0]) && ChainOk(s) && Tail(s.enc.outputs, s.todo)
    && |s.sources| == |s.ros.log.offered| && (s.ros.core.next > 0 ==> s.ros.log.offered != [])
  }

  lemma EmitKeepsChain(s: Stream)
    requires WorkReady(s) && s.todo[0].Emit?
    ensures ChainOk(Done(s.(todo := s.todo[1..]), s.todo[0]))
  {
    hide Rtp.Step, Tail, TraceOk, Done, Possible, Found, ToEmit, ToStamp;
    var op, r, n := s.todo[0], s.(todo := s.todo[1..]), |s.enc.outputs|;
    SamePossible(s, op);
    TailCases(s.enc.outputs, s.todo);
    TailHasOutput(s.enc.outputs, s.todo);
    RtpOpPhase(r, op);
    TraceEmits(TraceOf(s), op.unit, n - 1);
    if op.unit.count == 0 { TraceLoses(TraceOf(Done(r, op)), n - 1); }
  }

  lemma StampKeepsChain(s: Stream)
    requires WorkReady(s) && s.todo[0].Stamp?
    ensures ChainOk(Done(s.(todo := s.todo[1..]), s.todo[0]))
  {
    hide Rtp.Step, Ros.Step, Tail, TraceOk, Reaches, Done, Possible, Found, ToEmit, ToStamp;
    var op, r, n := s.todo[0], s.(todo := s.todo[1..]), |s.enc.outputs|;
    SamePossible(s, op);
    TailCases(s.enc.outputs, s.todo);
    TailOfRest(s.enc.outputs, s.todo);
    TailHasOutput(s.enc.outputs, s.todo);
    var t := Done(r, op);
    StampOpPhase(r);
    StampOpTrace(r);
    if s.ros.held.Some? {
      if TraceOf(t) == TraceOf(s).(missed := s.missed + {n - 1}, open := true) {
        TraceMisses(TraceOf(s), n - 1);
      } else {
        TraceReaches(TraceOf(s), TraceOf(t), n - 1);
      }
    }
  }

  lemma OfferKeepsChain(s: Stream)
    requires WorkReady(s) && s.todo[0].Offer?
    ensures ChainOk(Done(s.(todo := s.todo[1..]), s.todo[0]))
  {
    hide Rtp.Step, Ros.Step, Tail, TraceOk, Done, Possible, Found, ToEmit, ToStamp, Better;
    var op, r, n := s.todo[0], s.(todo := s.todo[1..]), |s.enc.outputs|;
    SamePossible(s, op);
    TailCases(s.enc.outputs, s.todo);
    TailHasOutput(s.enc.outputs, s.todo);
    RosOpPhase(r, op);
    if Done(r, op).ros.held.None? { TraceMisses(TraceOf(s), n - 1); }
  }

  lemma OtherKeepsChain(s: Stream)
    requires WorkReady(s) && (s.todo[0].Do? || s.todo[0].Queue?)
    ensures ChainOk(Done(s.(todo := s.todo[1..]), s.todo[0]))
  {
    hide Rtp.Step, Ros.Step, Tail, TraceOk, Done, Possible, Found, ToEmit, ToStamp, Better;
    var op, r := s.todo[0], s.(todo := s.todo[1..]);
    SamePossible(s, op);
    NotSend(s, op);
    TailCases(s.enc.outputs, s.todo);
    TailOfRest(s.enc.outputs, s.todo);
    if RosOp(op) { RosOpPhase(r, op); } else { RtpOpPhase(r, op); }
  }

  lemma WorkKeepsChain(s: Stream)
    requires WorkReady(s)
    ensures ChainOk(Done(s.(todo := s.todo[1..]), s.todo[0]))
  {
    hide ChainOk, Done, Tail, Possible, Found;
    match s.todo[0]
    case Emit(_, _) => EmitKeepsChain(s);
    case Stamp => StampKeepsChain(s);
    case Offer(_, _) => OfferKeepsChain(s);
    case _ => OtherKeepsChain(s);
  }

  lemma SamePossible(s: Stream, op: Op)
    requires s.todo != [] && Possible(s, op) && Found(s, op)
    ensures var r := s.(todo := s.todo[1..]); Possible(r, op) && Found(r, op) && TraceOf(r) == TraceOf(s)
  {
  }

  lemma TailHasOutput(outputs: seq<Enc.Pending>, todo: seq<Op>)
    requires todo != [] && Tail(outputs, todo) && (todo[0].Emit? || todo[0].Offer? || todo[0].Stamp?)
    ensures outputs != [] && (todo[0].Emit? ==> ToEmit(todo)) && (!todo[0].Emit? ==> ToStamp(todo))
  {
    if todo[0].Offer? { assert todo[1].Stamp?; }
  }

  lemma StampKeepsSources(s: Stream)
    requires SourcesOk(s, |s.enc.outputs| - 1) && HeldOk(s)
    ensures SourcesOk(Done(s, Stamp), |s.enc.outputs|)
  {
    hide Ros.StampUnit;
    StampPhase(s.ros);
    hide Ros.Step;
    var t := Done(s, Stamp);
    if t.ros.log.offered != s.ros.log.offered {
      forall i | 0 <= i < |t.sources|
        ensures t.sources[i] == if i < |s.sources| then s.sources[i] else |s.enc.outputs| - 1
      {
      }
    }
  }

  /** Once a frame of the epoch is stamped, some unit was offered. */
  lemma OfferedByInv(s: Ros.State)
    requires Ros.Inv(s)
    ensures s.core.next > 0 ==> s.log.offered != []
  {
    hide Ros.PublisherOk, Ros.Publishes, Ros.Ledger, Ros.RacesOk, Ros.Discards, Ros.QueueOk;
    if s.core.next > 0 {
      assert Ros.StampOk(s, |s.log.stamped| - 1);
    }
  }

  lemma WorkKeepsInv(s: Stream)
    requires PartsInv(s) && s.todo != [] && Found(s, s.todo[0])
    ensures PartsInv(Done(s.(todo := s.todo[1..]), s.todo[0]))
  {
    hide Ros.Inv, Rtp.Inv, Enc.Inv, ScriptOk, ChainOk, FramesOk, Tail, Done, Found, Possible;
    var op, r := s.todo[0], s.(todo := s.todo[1..]);
    RenderNeverFindsDisorder(s);
    OfferedByInv(s.ros);
    OfferedSources(s);
    WorkKeepsChain(s);
    OpKeepsOrder(s);
    DoneKeepsBranches(r, op);
    TailOfRest(s.enc.outputs, s.todo);
    OpKeepsFrames(s);
  }

  lemma OfferedSources(s: Stream)
    requires FramesOk(s)
    ensures |s.sources| == |s.ros.log.offered|
  {
  }

  lemma OpKeepsOrder(s: Stream)
    requires PartsInv(s) && s.todo != [] && Found(s, s.todo[0])
    ensures var t := Done(s.(todo := s.todo[1..]), s.todo[0]);
            t.enc == s.enc && t.todo == s.todo[1..] && ScriptOk(t)
  {
    hide BranchesInv, Tail, FramesOk, ChainOk, Done, Possible, Found, Allowed, After, PhaseOf, Better;
    RenderNeverFindsDisorder(s);
    var op, r := s.todo[0], s.(todo := s.todo[1..]);
    SamePossible(s, op);
    SamePhaseOf(s, r);
    if op.Stamp? {
      StampOpPhase(r);
    } else if RosOp(op) {
      RosOpPhase(r, op);
    } else {
      RtpOpPhase(r, op);
      BetterThanItself(After(PhaseOf(s), op));
    }
    ScriptFromBetter(After(PhaseOf(s), op), PhaseOf(Done(r, op)), s.todo[1..], s.enc.session);
  }

  lemma SamePhaseOf(s: Stream, r: Stream)
    requires r.ros == s.ros && r.rtp == s.rtp
    ensures PhaseOf(r) == PhaseOf(s)
  {
  }

  lemma BetterThanItself(p: Phase)
    ensures Better(p, p)
  {
  }

  lemma OpKeepsFrames(s: Stream)
    requires s.todo != [] && Possible(s, s.todo[0]) && Found(s, s.todo[0]) && FramesOk(s) && Tail(s.enc.outputs, s.todo)
    ensures FramesOk(Done(s.(todo := s.todo[1..]), s.todo[0]))
  {
    hide Done, Possible, Found, Allowed, After, PhaseOf, Better, TraceOf, Tail, SourcesOk;
    var op, r := s.todo[0], s.(todo := s.todo[1..]);
    SamePossible(s, op);
    SameSources(s, r, |s.enc.outputs|);
    SameSources(s, r, |s.enc.outputs| - 1);
    TailOfRest(s.enc.outputs, s.todo);
    var t := Done(r, op);
    if op.Stamp? {
      StampOpPhase(r);
      StampStamped(s.todo);
      StampKeepsFrames(r);
      StampKeepsSources(r);
    } else if RosOp(op) {
      RosOpPhase(r, op);
      if op.Offer? { OfferHasOutput(s.enc.outputs, s.todo); }
      SameSources(r, t, |s.enc.outputs|);
      SameSources(r, t, |s.enc.outputs| - 1);
    } else {
      RtpOpPhase(r, op);
      SameSources(r, t, |s.enc.outputs|);
      SameSources(r, t, |s.enc.outputs| - 1);
    }
  }

  lemma SameSources(s: Stream, t: Stream, bound: int)
    requires t.sources == s.sources && t.ros.log.offered == s.ros.log.offered && t.enc.outputs == s.enc.outputs
    ensures SourcesOk(s, bound) ==> SourcesOk(t, bound)
  {
    if SourcesOk(s, bound) {
      forall i | 0 <= i < |t.sources|
        ensures 0 <= t.sources[i] < bound <= |t.enc.outputs|
        ensures t.enc.outputs[t.sources[i]].session == t.ros.log.offered[i].session
      {
        assert 0 <= s.sources[i] < bound;
      }
    }
  }

  lemma StampStamped(todo: seq<Op>)
    requires todo != [] && todo[0].Stamp?
    ensures ToStamp(todo)
  {
  }

  lemma OfferHasOutput(outputs: seq<Enc.Pending>, todo: seq<Op>)
    requires todo != [] && todo[0].Offer? && Tail(outputs, todo)
    ensures outputs != [] && todo[0].session == outputs[|outputs| - 1].session
  {
  }

  lemma StampKeepsFrames(s: Stream)
    requires Possible(s, Stamp)
    ensures Done(s, Stamp).ros.held.None?
  {
    hide Ros.StampUnit;
    StampPhase(s.ros);
    hide Ros.Step;
  }

  // ----- a new frame -----

  predicate OnlyDo(ops: seq<Op>) {
    forall k :: 0 <= k < |ops| ==> ops[k].Do? && !ops[k].op.NoFrame? && !ops[k].op.TakeRequest?
  }

  predicate Plain(ops: seq<Enc.Op>) {
    forall k :: 0 <= k < |ops| ==> !ops[k].Send? && !ops[k].NoFrame? && !ops[k].TakeRequest?
  }

  lemma {:induction false} ExpandPlain(ops: seq<Enc.Op>, rest: seq<Enc.Op>, unit: Rtp.Encoded) returns (done: seq<Op>)
    requires Plain(ops)
    ensures Expand(ops + rest, unit) == done + Expand(rest, unit) && OnlyDo(done)
    decreases |ops|
  {
    if ops == [] {
      done := [];
      assert ops + rest == rest && [] + Expand(rest, unit) == Expand(rest, unit);
    } else {
      var later := ExpandPlain(ops[1..], rest, unit);
      done := [Do(ops[0])] + later;
      assert ops + rest == [ops[0]] + (ops[1..] + rest);
      ExpandStep(ops[0], ops[1..] + rest, unit);
      assert done + Expand(rest, unit) == [Do(ops[0])] + (later + Expand(rest, unit));
    }
  }

  /** A frame's operations: preparations, and then, if the input was submitted, the request that was found and
      what the answer leads to. */
  lemma FrameShape(e: Enc.Encoder, r: Enc.Render, unit: Rtp.Encoded) returns (before: seq<Op>)
    requires e.rate.Clamped()
    ensures OnlyDo(before)
    ensures !Enc.Submits(e, r) ==> Expand(Enc.EncodeOps(e, r), unit) == before
    ensures Enc.Submits(e, r) ==>
              var m := Enc.Submitted(Enc.Ensured(Enc.Observed(e, r.sourceTime), r), r.sourceTime);
              Expand(Enc.EncodeOps(e, r), unit)
              == before + ([Do(Enc.TakeRequest(r.forced))] + Expand(Enc.AnswerOps(m, r.outcome), unit))
  {
    if !r.texture {
      return [];
    }
    var seen := Enc.Observed(e, r.sourceTime);
    var plain := Enc.ObserveOps(e, r.sourceTime) + Enc.EnsureOps(seen, r);
    if Enc.Submits(e, r) {
      var m := Enc.Submitted(Enc.Ensured(seen, r), r.sourceTime);
      var answer := Enc.AnswerOps(m, r.outcome);
      before := ExpandPlain(plain, [Enc.TakeRequest(r.forced)] + answer, unit);
      ExpandStep(Enc.TakeRequest(r.forced), answer, unit);
    } else {
      before := ExpandPlain(plain, [], unit);
      assert before + Expand([], unit) == before;
    }
  }

  lemma AnswerTail(m: Enc.Encoder, outcome: Enc.Outcome, unit: Rtp.Encoded)
    ensures var todo := Expand(Enc.AnswerOps(m, outcome), unit);
            var t := Enc.Answered(m, outcome);
            && Tail(t.outputs, todo) && m.outputs <= t.outputs && t.everOpened == m.everOpened
            && |t.outputs| == |m.outputs| + (if ToEmit(todo) then 1 else 0)
            && (ToStamp(todo) ==> ToEmit(todo)) && (todo != [] ==> !todo[0].Stamp?)
  {
    var todo := Expand(Enc.AnswerOps(m, outcome), unit);
    if Enc.Loses(m, outcome) {
      var done := ExpandPlain(Enc.RESET, [], unit);
      assert Enc.RESET + [] == Enc.RESET && done + [] == done;
    } else if outcome.Output? {
      var frame := m.pending[Enc.Find(m.pending, outcome.timestamp)];
      ExpandStep(Enc.Send(frame, frame.index == m.frameIndex), [], unit);
      assert [Enc.Send(frame, frame.index == m.frameIndex)] + [] == Enc.AnswerOps(m, outcome);
      assert todo == Handled(frame, frame.index == m.frameIndex, unit) + [] && todo[0].Emit?;
    } else {
      ExpandStep(Enc.NoFrame, [], unit);
      assert [Enc.NoFrame] + [] == Enc.AnswerOps(m, outcome) && todo == [Do(Enc.NoFrame)] + [];
    }
  }

  lemma TailBehind(outputs: seq<Enc.Pending>, before: seq<Op>, todo: seq<Op>)
    requires forall k :: 0 <= k < |before| ==> before[k].Do?
    requires Tail(outputs, todo) && (todo != [] ==> !todo[0].Stamp?)
    ensures Tail(outputs, before + todo)
    ensures ToStamp(before + todo) ==> ToStamp(todo)
    ensures ToEmit(before + todo) <==> ToEmit(todo)
    ensures before + todo != [] ==> !(before + todo)[0].Stamp?
  {
    var all := before + todo;
    forall k | 0 <= k < |all|
      ensures all[k] == if k < |before| then before[k] else todo[k - |before|]
    {
    }
    if ToEmit(todo) {
      var k :| 0 <= k < |todo| && todo[k].Emit?;
      assert all[|before| + k].Emit?;
    }
  }

  lemma FrameTail(e: Enc.Encoder, r: Enc.Render, unit: Rtp.Encoded)
    requires e.rate.Clamped() && (e.open ==> e.everOpened)
    ensures var todo, t := Expand(Enc.EncodeOps(e, r), unit), Enc.Encode(e, r);
            && Tail(t.outputs, todo) && e.outputs <= t.outputs
            && |t.outputs| == |e.outputs| + (if ToEmit(todo) then 1 else 0)
            && (ToStamp(todo) ==> ToEmit(todo) && t.everOpened)
            && (e.everOpened ==> t.everOpened)
  {
    var before := FrameShape(e, r, unit);
    var ready := Enc.Ensured(Enc.Observed(e, r.sourceTime), r);
    if Enc.Submits(e, r) {
      var m := Enc.Submitted(ready, r.sourceTime);
      var answer := Expand(Enc.AnswerOps(m, r.outcome), unit);
      AnswerTail(m, r.outcome, unit);
      hide Expand, Enc.EncodeOps, Enc.AnswerOps, Enc.Answered;
      var taken := [Do(Enc.TakeRequest(r.forced))];
      TailBehind(Enc.Encode(e, r).outputs, taken, answer);
      TailBehind(Enc.Encode(e, r).outputs, before, taken + answer);
    } else {
      hide Expand, Enc.EncodeOps, Enc.AnswerOps, Enc.Answered;
      TailBehind(Enc.Encode(e, r).outputs, before, []);
      assert before + [] == before;
    }
  }

  lemma EncoderKeepsSources(s: Stream, t: Stream)
    requires s.enc.outputs <= t.enc.outputs && t.ros == s.ros && t.sources == s.sources
    requires SourcesOk(s, |s.enc.outputs|)
    ensures SourcesOk(t, |s.enc.outputs|) && SourcesOk(t, |t.enc.outputs|)
  {
  }

  /** A new frame leaves the outputs before it settled. */
  lemma FrameKeepsChain(s: Stream, t: Stream)
    requires ChainOk(s) && s.todo == [] && t.ros == s.ros && t.rtp == s.rtp && t.sources == s.sources
    requires t.missed == s.missed && (ToStamp(t.todo) ==> ToEmit(t.todo))
    requires |t.enc.outputs| == |s.enc.outputs| + (if ToEmit(t.todo) then 1 else 0)
    ensures ChainOk(t)
  {
    hide TraceOk;
    assert TraceOf(t) == TraceOf(s);
  }

  lemma FrameKeepsFrames(s: Stream, t: Stream)
    requires FramesOk(s) && s.todo == [] && t.ros == s.ros && t.sources == s.sources
    requires s.enc.outputs <= t.enc.outputs && (s.enc.everOpened ==> t.enc.everOpened)
    requires ToStamp(t.todo) ==> |t.enc.outputs| == |s.enc.outputs| + 1 && t.enc.everOpened
    requires s.ros.held.None?
    ensures FramesOk(t)
  {
    hide SourcesOk;
    assert !ToStamp(s.todo);
    EncoderKeepsSources(s, t);
  }

  lemma NothingHeld(s: Stream)
    requires ScriptOk(s) && s.todo == []
    ensures s.ros.held.None?
  {
  }

  lemma FrameKeepsParts(s: Stream, r: Enc.Render, unit: Rtp.Encoded)
    requires PartsInv(s) && s.todo == [] && s.enc.rate.Clamped()
    ensures PartsInv(Encoded(s, r, unit))
  {
    hide Ros.Inv, Rtp.Inv, Enc.Inv, FramesOk, ChainOk, Tail, Script, PhaseOf, Expand, Enc.Encode, Enc.EncodeOps;
    Enc.ClampedByInv(s.enc);
    var t := Encoded(s, r, unit);
    Enc.EncodeKeepsInv(s.enc, r);
    FrameBegins(s);
    FrameScript(s.enc, r, PhaseOf(s), unit);
    FrameTail(s.enc, r, unit);
    NothingHeld(s);
    FrameKeepsChain(s, t);
    FrameKeepsFrames(s, t);
    SamePhaseOf(s, t);
  }

  /** Where a frame begins. */
  lemma FrameBegins(s: Stream)
    requires ScriptOk(s) && FramesOk(s) && s.todo == []
    ensures var p := PhaseOf(s);
            p.render.Ready? && !p.owed && !p.held && p.session == s.enc.session && (!s.enc.everOpened ==> p.unstamped)
  {
  }

  lemma EncoderDestroyedKeepsParts(s: Stream)
    requires PartsInv(s) && s.todo == []
    ensures PartsInv(s.(enc := Enc.Destroyed(s.enc)))
  {
    hide Ros.Inv, Rtp.Inv, Enc.Inv, FramesOk, ChainOk, Script, PhaseOf;
    Enc.DestroyKeepsInv(s.enc);
    var t := s.(enc := Enc.Destroyed(s.enc));
    NothingHeld(s);
    NoStamp(s);
    FrameKeepsChain(s, t);
    FrameKeepsFrames(s, t);
    SamePhaseOf(s, t);
  }

  lemma NoStamp(s: Stream)
    requires s.todo == []
    ensures !ToStamp(s.todo) && !ToEmit(s.todo)
  {
  }

  lemma DiscardKeepsParts(s: Stream)
    requires PartsInv(s) && s.todo == []
    ensures PartsInv(Discarded(s))
  {
    hide Ros.Inv, Rtp.Inv, Enc.Inv, FramesOk, ChainOk, Script;
    Enc.DestroyKeepsInv(s.enc);
    NothingHeld(s);
    var t := Discarded(s);
    FrameKeepsChain(s, t);
    FrameKeepsFrames(s, t);
    DiscardScript(s);
    SamePhaseOf(s, t);
  }

  lemma DiscardScript(s: Stream)
    requires ScriptOk(s) && s.todo == []
    ensures Script(PhaseOf(s), [Do(Enc.ClearRtp), Do(Enc.RequestKeyframe)], s.enc.session)
  {
    var p := PhaseOf(s);
    EmptyScript(p, s.enc.session);
    ScriptStep(p.(owed := true), Do(Enc.RequestKeyframe), [], s.enc.session);
    ScriptStep(p, Do(Enc.ClearRtp), [Do(Enc.RequestKeyframe)] + [], s.enc.session);
    assert [Do(Enc.ClearRtp)] + ([Do(Enc.RequestKeyframe)] + []) == [Do(Enc.ClearRtp), Do(Enc.RequestKeyframe)];
  }

  lemma SameParts(s: Stream, t: Stream)
    requires PartsInv(s) && t == s.(callbacks := t.callbacks)
    ensures PartsInv(t)
  {
    hide ScriptOk, FramesOk, ChainOk, Ros.Inv, Rtp.Inv, Enc.Inv;
    SameOrderKeepsParts(s, t);
  }

  lemma RenderedKeepsFresh(s: Stream, generation: nat, r: Enc.Render, unit: Rtp.Encoded)
    requires FreshInputs(s) && s.enc.rate.Clamped()
    ensures FreshInputs(Rendered(s, generation, r, unit))
  {
    hide Gate.Expected, Enc.Encode, Enc.EncodeOps, Expand;
    var t := Rendered(s, generation, r, unit);
    Enc.EncodeShape(s.enc, r);
    forall i: nat | i < |t.accepted|
      ensures FreshInput(t, i)
    {
      if i < |s.accepted| {
        assert FreshInput(s, i);
        assert t.callbacks[..s.accepted[i]] == s.callbacks[..s.accepted[i]];
      } else {
        assert t.callbacks[..|s.callbacks|] == s.callbacks;
      }
    }
  }

  lemma SameFresh(s: Stream, t: Stream)
    requires FreshInputs(s) && t.callbacks == s.callbacks && t.accepted == s.accepted && t.enc.inputs == s.enc.inputs
    ensures FreshInputs(t)
  {
    forall i: nat | i < |t.accepted| ensures FreshInput(t, i) { assert FreshInput(s, i); }
  }

  lemma RenderedKeepsInv(s: Stream, generation: nat, r: Enc.Render, unit: Rtp.Encoded)
    requires Inv(s) && s.todo == [] && s.enc.rate.Clamped()
    ensures Inv(Rendered(s, generation, r, unit))
  {
    hide PartsInv, FreshInputs, Gate.Expected, Encoded, Discarded;
    RenderedKeepsFresh(s, generation, r, unit);
    FrameKeepsParts(s, r, unit);
    DiscardKeepsParts(s);
    var callback := Gate.Callback(generation, r.sourceTime);
    var u := if Gate.Expected(s.callbacks, callback, Gate.Accept) then Encoded(s, r, unit)
             else if Gate.Expected(s.callbacks, callback, Gate.DiscardAndReset) then Discarded(s)
             else s;
    SameParts(u, Rendered(s, generation, r, unit));
  }

  lemma StepKeepsParts(s: Stream, e: Event)
    requires PartsInv(s) && s.enc.rate.Clamped() && !e.Frame?
    ensures PartsInv(Step(s, e))
  {
    hide PartsInv, RtpMoved, RosMoved, Done;
    match e
    case Release => if s.todo == [] { EncoderDestroyedKeepsParts(s); }
    case Control(active, keyframe) => RtpMovedKeepsInv(s, Rtp.Apply(active, keyframe));
    case FailTransition =>
      if s.todo == [] {
        EncoderDestroyedKeepsParts(s);
        RtpMovedKeepsInv(s.(enc := Enc.Destroyed(s.enc)), Rtp.FailStream);
      }
    case Work => if s.todo != [] && Found(s, s.todo[0]) { WorkKeepsInv(s); }
    case RosThread(event) => if RosBackground(event) { RosThreadKeepsInv(s, event); }
    case RtpThread(event) => if RtpBackground(event) { RtpMovedKeepsInv(s, event); }
  }

  lemma StepKeepsFresh(s: Stream, e: Event)
    requires FreshInputs(s) && s.enc.rate.Clamped() && !e.Frame?
    ensures FreshInputs(Step(s, e))
  {
    hide FreshInputs, Ros.Step, Rtp.Step;
    SameFresh(s, Step(s, e));
  }

  lemma StepKeepsInv(s: Stream, e: Event)
    requires Inv(s)
    ensures s.enc.rate.Clamped() && Inv(Step(s, e))
  {
    Enc.ClampedByInv(s.enc);
    hide PartsInv, FreshInputs, Rendered;
    if e.Frame? {
      if s.todo == [] {
        RenderedKeepsInv(s, e.generation, e.r, e.unit);
      }
    } else {
      StepKeepsParts(s, e);
      StepKeepsFresh(s, e);
    }
  }

  ghost function Run(s: Stream, events: seq<Event>): Stream
    requires s.enc.rate.Clamped()
    decreases |events|
  {
    if events == [] then s
    else
      StepKeepsRate(s, events[0]);
      Run(Step(s, events[0]), events[1..])
  }

  lemma StepKeepsRate(s: Stream, e: Event)
    requires s.enc.rate.Clamped()
    ensures Step(s, e).enc.rate == s.enc.rate
  {
    hide Ros.Step, Rtp.Step, Enc.Encode, Enc.EncodeOps, Expand, Gate.Expected, Done;
    match e
    case Frame(_, r, _) => Enc.EncodeShape(s.enc, r);
    case Work => if s.todo != [] { DoneKeepsEncoder(s.(todo := s.todo[1..]), s.todo[0]); }
    case _ =>
  }

  lemma DoneKeepsEncoder(s: Stream, op: Op)
    ensures Done(s, op).enc == s.enc
  {
    hide Ros.Step, Rtp.Step;
  }

  lemma {:induction false} RunKeepsInv(s: Stream, events: seq<Event>)
    requires Inv(s) && s.enc.rate.Clamped()
    ensures Inv(Run(s, events)) && Run(s, events).enc.rate == s.enc.rate
    decreases |events|
  {
    hide Inv, Step;
    if events != [] {
      StepKeepsRate(s, events[0]);
      StepKeepsInv(s, events[0]);
      RunKeepsInv(Step(s, events[0]), events[1..]);
    }
  }

  lemma InitialInv(rate: Enc.Rate, ros: bool, capacity: nat, limit: nat)
    requires rate.Clamped() && capacity > 0
    ensures Inv(Initial(rate, ros, capacity, limit))
  {
    Enc.InitialInv(rate);
    Ros.InitialInv(ros, capacity);
    Rtp.InitialInv(limit);
  }

  // ----- a synchronous encoder -----

  /** Every emitted unit is the current one, and a keyframe if one was requested and it has NAL units; nothing is
      delayed. */
  predicate Faithful(todo: seq<Op>, forced: bool)
    decreases |todo|
  {
    todo == []
    || match todo[0]
       case Do(NoFrame) => false
       case Do(TakeRequest(f)) => Faithful(todo[1..], f)
       case Emit(unit, current) =>
         current && (forced && unit.count > 0 ==> unit.key) && Faithful(todo[1..], forced)
       case _ => Faithful(todo[1..], forced)
  }

  predicate Honest(s: Stream) {
    s.rtp.honest && Faithful(s.todo, s.rtp.render.Took? && s.rtp.render.forced)
  }

  /** The frame's input is answered at once with its own output, a keyframe if requested, or with a failure. */
  predicate Synchronous(e: Enc.Encoder, r: Enc.Render, unit: Rtp.Encoded)
    requires e.rate.Clamped()
  {
    match r.outcome
    case Rejected => true
    case Delayed => false
    case Output(locked, timestamp) =>
      locked ==> timestamp == Enc.Timestamp(e.rate, e.frameIndex) && (r.forced && unit.count > 0 ==> unit.key)
  }

  /** The event is a render callback that the gate lets pass. */
  ghost predicate Encodes(s: Stream, e: Event) {
    e.Frame? && s.todo == []
    && Gate.Expected(s.callbacks, Gate.Callback(e.generation, e.r.sourceTime), Gate.Accept)
  }

  ghost predicate SynchronousRun(s: Stream, events: seq<Event>)
    requires s.enc.rate.Clamped()
    decreases |events|
  {
    events == []
    || ((Encodes(s, events[0]) ==> Synchronous(s.enc, events[0].r, events[0].unit))
        && (StepKeepsRate(s, events[0]); SynchronousRun(Step(s, events[0]), events[1..])))
  }

  lemma {:induction false} FaithfulBehind(before: seq<Op>, todo: seq<Op>, forced: bool)
    requires OnlyDo(before) && Faithful(todo, forced)
    ensures Faithful(before + todo, forced)
    decreases |before|
  {
    if before == [] {
      assert before + todo == todo;
    } else {
      assert (before + todo)[1..] == before[1..] + todo;
      FaithfulBehind(before[1..], todo, forced);
    }
  }

  lemma FaithfulAnswer(m: Enc.Encoder, outcome: Enc.Outcome, unit: Rtp.Encoded, forced: bool)
    requires Enc.Midway(m) && m.rate.frames <= Enc.RTP_CLOCK_RATE * m.rate.seconds
    requires !outcome.Delayed?
    requires outcome.Output? && outcome.locked ==>
               outcome.timestamp == Enc.Timestamp(m.rate, m.frameIndex) && (forced && unit.count > 0 ==> unit.key)
    ensures Faithful(Expand(Enc.AnswerOps(m, outcome), unit), forced)
  {
    if Enc.Loses(m, outcome) {
      var done := ExpandPlain(Enc.RESET, [], unit);
      assert Enc.RESET + [] == Enc.RESET && done + [] == done;
      FaithfulBehind(done, [], forced);
    } else {
      var frame := m.pending[Enc.Find(m.pending, outcome.timestamp)];
      AnsweredIsCurrent(m, frame, outcome.timestamp);
      ExpandStep(Enc.Send(frame, true), [], unit);
      assert [Enc.Send(frame, true)] + [] == Enc.AnswerOps(m, outcome);
      FaithfulOutput(frame, unit, forced);
      assert Handled(frame, true, unit) + [] == Handled(frame, true, unit);
    }
  }

  lemma AnsweredIsCurrent(m: Enc.Encoder, frame: Enc.Pending, timestamp: nat)
    requires Enc.Midway(m) && m.rate.frames <= Enc.RTP_CLOCK_RATE * m.rate.seconds
    requires frame in m.pending && frame.timestamp == timestamp == Enc.Timestamp(m.rate, m.frameIndex)
    ensures frame.index == m.frameIndex
  {
    hide Enc.Timestamp, Enc.InputsOk, Enc.OutputsOk, Enc.TimeOk;
    assert Enc.Genuine(m, frame);
    if frame.index < m.frameIndex {
      Enc.TimestampsIncrease(m.rate, frame.index, m.frameIndex);
    }
  }

  lemma FaithfulOutput(frame: Enc.Pending, unit: Rtp.Encoded, forced: bool)
    requires forced && unit.count > 0 ==> unit.key
    ensures Faithful(Handled(frame, true, unit), forced)
  {
    var h := Handled(frame, true, unit);
    if unit.count == 0 {
      assert h[1..] == [Queue] && [Queue][1..] == [];
    } else {
      assert h[1..] == [h[1], h[2], h[3]] && h[1..][1..] == [h[2], h[3]];
      assert h[1..][1..][1..] == [h[3]] && [h[3]][1..] == [];
      assert Faithful(h[1..][1..], forced);
    }
  }

  lemma FaithfulFrame(e: Enc.Encoder, r: Enc.Render, unit: Rtp.Encoded)
    requires Enc.Inv(e) && e.rate.Clamped() && e.rate.frames <= Enc.RTP_CLOCK_RATE * e.rate.seconds
    requires Synchronous(e, r, unit)
    ensures Faithful(Expand(Enc.EncodeOps(e, r), unit), false)
  {
    hide Faithful, Expand, Enc.EncodeOps, Enc.AnswerOps, Enc.Inv, Enc.Midway, Enc.Submitted, Enc.Timestamp;
    hide Enc.Observed, Enc.Ensured;
    var before := FrameShape(e, r, unit);
    if Enc.Submits(e, r) {
      Enc.ReadyKeepsInv(e, r);
      var ready := Enc.Ensured(Enc.Observed(e, r.sourceTime), r);
      var m := Enc.Submitted(ready, r.sourceTime);
      Enc.SubmitGivesMidway(ready, r.sourceTime);
      SubmittedClock(ready, r.sourceTime);
      FaithfulAnswer(m, r.outcome, unit, r.forced);
      var answer := Expand(Enc.AnswerOps(m, r.outcome), unit);
      FaithfulRequest(r.forced, answer);
      FaithfulBehind(before, [Do(Enc.TakeRequest(r.forced))] + answer, false);
    } else {
      FaithfulNothing(false);
      FaithfulBehind(before, [], false);
      assert before + [] == before;
    }
  }

  lemma SubmittedClock(e: Enc.Encoder, time: int)
    requires e.rate.Clamped()
    ensures Enc.Submitted(e, time).frameIndex == e.frameIndex && Enc.Submitted(e, time).rate == e.rate
  {
  }

  lemma FaithfulNothing(forced: bool)
    ensures Faithful([], forced)
  {
  }

  lemma FaithfulRequest(forced: bool, todo: seq<Op>)
    requires Faithful(todo, forced)
    ensures Faithful([Do(Enc.TakeRequest(forced))] + todo, false)
  {
    assert ([Do(Enc.TakeRequest(forced))] + todo)[1..] == todo;
  }

  lemma {:induction false} FaithfulWithoutRequest(todo: seq<Op>, forced: bool)
    requires Faithful(todo, forced)
    ensures Faithful(todo, false)
    decreases |todo|
  {
    if todo != [] && !(todo[0].Do? && todo[0].op.TakeRequest?) {
      FaithfulWithoutRequest(todo[1..], forced);
    }
  }

  predicate SameHonesty(s: Stream, t: Stream) {
    t.rtp.honest == s.rtp.honest && t.rtp.render == s.rtp.render && t.todo == s.todo
  }

  lemma RosMovedKeepsHonesty(s: Stream, e: Ros.Event)
    ensures SameHonesty(s, RosMoved(s, e))
  {
    hide Ros.Step, Rtp.Step;
    RtpBackgroundKeepsPhase(s.rtp, Rtp.AnyForce);
  }

  lemma RosOpKeepsHonesty(s: Stream, op: Op)
    requires (RosOp(op) || op.Stamp?) && Possible(s, op) && Found(s, op)
    ensures SameHonesty(s, Done(s, op))
  {
    hide RosMoved, Possible, Found;
    if op.Stamp? {
      RosMovedKeepsHonesty(s, Ros.Stamp);
    } else {
      RosOpIs(s, op);
      RosMovedKeepsHonesty(s, RosEventOf(op));
      hide Done;
    }
  }

  /** The first operation is as a synchronous encoder has it. */
  predicate FaithfulOp(op: Op, forced: bool) {
    && op != Do(Enc.NoFrame)
    && (op.Emit? ==> op.current && (forced && op.unit.count > 0 ==> op.unit.key))
  }

  lemma FaithfulStep(op: Op, rest: seq<Op>, forced: bool)
    requires Faithful([op] + rest, forced)
    ensures FaithfulOp(op, forced)
    ensures Faithful(rest, if op.Do? && op.op.TakeRequest? then op.op.forced else forced) && Faithful(rest, false)
  {
    assert ([op] + rest)[1..] == rest;
    FaithfulWithoutRequest(rest, if op.Do? && op.op.TakeRequest? then op.op.forced else forced);
  }

  lemma OpKeepsHonest(s: Stream, op: Op)
    requires Possible(s, op) && Found(s, op) && s.rtp.honest
    requires Faithful([op] + s.todo, s.rtp.render.Took? && s.rtp.render.forced)
    ensures Honest(Done(s, op))
  {
    hide Rtp.Step, Rtp.Enabled, Possible, Found, Done, Faithful;
    FaithfulStep(op, s.todo, s.rtp.render.Took? && s.rtp.render.forced);
    if RosOp(op) || op.Stamp? {
      RosOpKeepsHonesty(s, op);
    } else {
      NotSend(s, op);
      RtpOpIs(s, op);
      RtpOpEffect(s.rtp, RtpEventOf(op));
    }
  }

  lemma NotSend(s: Stream, op: Op)
    requires Possible(s, op)
    ensures !(op.Do? && op.op.Send?)
  {
  }

  lemma WorkKeepsHonest(s: Stream)
    requires Inv(s) && Honest(s) && s.todo != [] && Found(s, s.todo[0])
    ensures Honest(Done(s.(todo := s.todo[1..]), s.todo[0]))
  {
    RenderNeverFindsDisorder(s);
    hide Ros.Step, Rtp.Step, Inv, Faithful, Done;
    var op, r := s.todo[0], s.(todo := s.todo[1..]);
    assert [op] + r.todo == s.todo;
    OpKeepsHonest(r, op);
  }

  lemma RenderedKeepsHonest(s: Stream, e: Event)
    requires Inv(s) && Honest(s) && s.enc.rate.Clamped() && e.Frame? && s.todo == []
    requires s.enc.rate.frames <= Enc.RTP_CLOCK_RATE * s.enc.rate.seconds
    requires Encodes(s, e) ==> Synchronous(s.enc, e.r, e.unit)
    ensures Honest(Rendered(s, e.generation, e.r, e.unit))
  {
    assert !s.rtp.render.Took? by { assert Script(PhaseOf(s), s.todo, s.enc.session); }
    if Encodes(s, e) {
      FaithfulFrame(s.enc, e.r, e.unit);
    } else {
      var todo := Discarded(s).todo;
      assert todo[1..] == [Do(Enc.RequestKeyframe)] && todo[1..][1..] == [];
      assert Faithful(todo[1..], false);
    }
  }

  lemma StepKeepsHonest(s: Stream, e: Event)
    requires Inv(s) && Honest(s) && s.enc.rate.Clamped()
    requires s.enc.rate.frames <= Enc.RTP_CLOCK_RATE * s.enc.rate.seconds
    requires Encodes(s, e) ==> Synchronous(s.enc, e.r, e.unit)
    ensures Honest(Step(s, e))
  {
    hide PartsInv, FreshInputs, Rendered, Done, Encodes, Honest;
    if e.Work? {
      if s.todo != [] && Found(s, s.todo[0]) {
        WorkKeepsHonest(s);
      }
    } else if e.Frame? {
      if s.todo == [] {
        RenderedKeepsHonest(s, e);
      }
    } else {
      StepOutsideFrame(s, e);
    }
  }

  lemma StepOutsideFrame(s: Stream, e: Event)
    requires Inv(s) && Honest(s) && s.enc.rate.Clamped() && !e.Work? && !e.Frame?
    ensures Honest(Step(s, e))
  {
    hide Ros.Step, Rtp.Step, Tail, SourcesOk, Ros.Inv, Rtp.Inv, Enc.Inv;
    RtpBackgroundKeepsPhase(s.rtp, Rtp.AnyForce);
    match e
    case Control(active, keyframe) => RtpBackgroundKeepsPhase(s.rtp, Rtp.Apply(active, keyframe));
    case FailTransition => RtpBackgroundKeepsPhase(s.rtp, Rtp.FailStream);
    case RtpThread(event) => if RtpBackground(event) { RtpBackgroundKeepsPhase(s.rtp, event); }
    case _ =>
  }

  lemma {:induction false} RunKeepsHonest(s: Stream, events: seq<Event>)
    requires Inv(s) && Honest(s) && s.enc.rate.Clamped()
    requires s.enc.rate.frames <= Enc.RTP_CLOCK_RATE * s.enc.rate.seconds
    requires SynchronousRun(s, events)
    ensures Honest(Run(s, events))
    decreases |events|
  {
    hide Inv, Step, Honest, Synchronous;
    if events != [] {
      StepKeepsRate(s, events[0]);
      StepKeepsInv(s, events[0]);
      StepKeepsHonest(s, events[0]);
      RunKeepsHonest(Step(s, events[0]), events[1..]);
    }
  }

  // ----- what every run of the whole stream keeps -----

  /** The input that a stamped frame encodes. */
  function Source(s: Stream, f: Ros.Frame): Enc.Pending
    requires f.offer < |s.sources| && 0 <= s.sources[f.offer] < |s.enc.outputs|
  {
    s.enc.outputs[s.sources[f.offer]]
  }

  predicate HasSource(s: Stream, f: Ros.Frame) {
    f.offer < |s.sources| && 0 <= s.sources[f.offer] < |s.enc.outputs|
  }

  lemma StampedSource(s: Stream, i: nat)
    requires Inv(s) && i < |s.ros.log.stamped|
    ensures var f := s.ros.log.stamped[i];
            && HasSource(s, f) && Source(s, f).session == f.session
            && s.enc.rate.Clamped() && Enc.Genuine(s.enc, Source(s, f))
  {
    assert Ros.StampOk(s.ros, i);
    hide Ros.Inv, Rtp.Inv, Script;
    var f := s.ros.log.stamped[i];
    assert 0 <= s.sources[f.offer] < |s.enc.outputs|;
  }

  lemma StampedSourcesDiffer(s: Stream, i: nat, j: nat)
    requires Inv(s) && s.enc.rate.Clamped() && s.enc.rate.frames <= Enc.RTP_CLOCK_RATE * s.enc.rate.seconds
    requires i < j < |s.ros.log.stamped|
    ensures var e, f := s.ros.log.stamped[i], s.ros.log.stamped[j];
            && HasSource(s, e) && HasSource(s, f)
            && Source(s, e).timestamp != Source(s, f).timestamp
            && (e.epoch == f.epoch ==> Source(s, e).session == Source(s, f).session)
  {
    StampedSource(s, i);
    StampedSource(s, j);
    StampedOffers(s.ros, i, j);
    var e, f := s.ros.log.stamped[i], s.ros.log.stamped[j];
    hide Ros.Inv, Rtp.Inv, Script;
    var a, b := Source(s, e), Source(s, f);
    assert s.sources[e.offer] < s.sources[f.offer];
    if a.index < b.index {
      Enc.TimestampsIncrease(s.enc.rate, a.index, b.index);
    } else {
      Enc.TimestampsIncrease(s.enc.rate, b.index, a.index);
    }
  }

  lemma {:induction false} StampedOffers(s: Ros.State, i: nat, j: nat)
    requires Ros.Inv(s) && i < j < |s.log.stamped|
    ensures s.log.stamped[i].offer < s.log.stamped[j].offer
    ensures s.log.stamped[i].epoch == s.log.stamped[j].epoch ==> s.log.stamped[i].session == s.log.stamped[j].session
    decreases j
  {
    Ros.StampedOrder(s, i, j);
    assert Ros.StampOk(s, j);
    if i < j - 1 {
      StampedOffers(s, i, j - 1);
    }
  }

  /** The stamped frame encodes a callback that the gate let pass, and carries its source time. */
  ghost predicate FromFreshCallback(s: Stream, f: Ros.Frame) {
    && HasSource(s, f) && Source(s, f).sourceSequence < |s.accepted| == |s.enc.inputs|
    && FreshInput(s, Source(s, f).sourceSequence)
    && s.enc.inputs[Source(s, f).sourceSequence] == Source(s, f)
  }

  lemma StampedIsFresh(s: Stream, i: nat)
    requires Inv(s) && i < |s.ros.log.stamped|
    ensures FromFreshCallback(s, s.ros.log.stamped[i])
  {
    StampedSource(s, i);
    hide PartsInv, Enc.Inv;
    assert FreshInput(s, Source(s, s.ros.log.stamped[i]).sourceSequence);
  }

  // ----- what a recorder can decode -----

  /** The output that stamped frame `i` is. */
  function OutputOf(s: Stream, i: nat): int
    requires i < |s.ros.log.stamped|
  {
    var k := s.ros.log.stamped[i].offer;
    if k < |s.sources| then s.sources[k] else -1
  }

  predicate IsStamped(s: Stream, g: nat, i: nat, k: int)
    requires i < |s.ros.log.stamped|
  {
    exists j: nat {:trigger OutputOf(s, j)} :: g <= j <= i && OutputOf(s, j) == k
  }

  /** Every output from frame `g` to frame `i` is stamped between them. */
  predicate Complete(s: Stream, g: nat, i: nat)
    requires g <= i < |s.ros.log.stamped|
  {
    forall k {:trigger IsStamped(s, g, i, k)} :: OutputOf(s, g) <= k <= OutputOf(s, i) ==> IsStamped(s, g, i, k)
  }

  /** None of them was without NAL units or missed. */
  predicate Unbroken(s: Stream, g: nat, i: nat)
    requires g <= i < |s.ros.log.stamped|
  {
    forall k: int {:trigger s.rtp.Count(k)} :: OutputOf(s, g) < k < OutputOf(s, i) ==>
      s.rtp.Count(k) > 0 && k !in s.missed
  }

  predicate SameEpoch(s: Stream, g: nat, i: nat) {
    g <= i < |s.ros.log.stamped| && s.ros.log.stamped[g].epoch == s.ros.log.stamped[i].epoch
  }

  lemma EpochOffers(s: Stream, g: nat, i: nat)
    requires Ros.Stamps(s.ros) && SameEpoch(s, g, i)
    ensures s.ros.log.stamped[i].offer == s.ros.log.stamped[g].offer + (i - g)
    ensures g < i ==> s.ros.log.stamped[i].number > 0
  {
    if g < i { Ros.StampedOrder(s.ros, g, i); }
  }

  lemma EpochMember(s: Stream, g: nat, j: nat, i: nat)
    requires Ros.Stamps(s.ros) && SameEpoch(s, g, i) && g <= j <= i
    ensures SameEpoch(s, g, j) && SameEpoch(s, j, i)
  {
    if g < j { Ros.StampedOrder(s.ros, g, j); }
    if j < i { Ros.StampedOrder(s.ros, j, i); }
  }

  lemma {:induction false} SourcesIncrease(t: Trace, bound: nat, a: nat, b: nat)
    requires TraceOk(t, bound) && a < b < |t.sources|
    ensures t.sources[a] < t.sources[b]
    decreases b
  {
    assert SourceOk(t, b, bound);
    if a < b - 1 { SourcesIncrease(t, bound, a, b - 1); }
  }

  lemma UnbrokenIsComplete(s: Stream, bound: nat, g: nat, i: nat, k: int)
    requires Ros.Stamps(s.ros) && TraceOk(TraceOf(s), bound) && SameEpoch(s, g, i) && Unbroken(s, g, i)
    requires OutputOf(s, g) <= k <= OutputOf(s, i)
    ensures IsStamped(s, g, i, k)
  {
    var t, a := TraceOf(s), s.ros.log.stamped[g].offer;
    EpochOffers(s, g, i);
    assert SkipOk(t, g) && SkipOk(t, i);
    assert SourceOk(t, a, bound) && SourceOk(t, a + (i - g), bound);
    if OutputOf(s, g) < k < OutputOf(s, i) {
      assert s.rtp.Count(k) > 0 && Settled(t, k);
      var m: nat :| m < |t.sources| && t.sources[m] == k;
      if m < a { SourcesIncrease(t, bound, m, a); }
      if a + (i - g) < m { SourcesIncrease(t, bound, a + (i - g), m); }
      EpochMember(s, g, g + (m - a), i);
      EpochOffers(s, g, g + (m - a));
      assert OutputOf(s, g + (m - a)) == k;
    }
  }

  lemma CompleteIsUnbroken(s: Stream, bound: nat, g: nat, i: nat)
    requires TraceOk(TraceOf(s), bound) && SameEpoch(s, g, i) && Complete(s, g, i)
    ensures Unbroken(s, g, i)
  {
    forall k: int | OutputOf(s, g) < k < OutputOf(s, i)
      ensures s.rtp.Count(k) > 0 && k !in s.missed
    {
      assert IsStamped(s, g, i, k);
      StampedIsNotMissed(s, bound, g, i, k);
    }
  }

  lemma StampedIsNotMissed(s: Stream, bound: nat, g: nat, i: nat, k: int)
    requires TraceOk(TraceOf(s), bound) && i < |s.ros.log.stamped| && IsStamped(s, g, i, k)
    ensures k !in s.missed && s.rtp.Count(k) > 0
  {
    var j: nat :| g <= j <= i && OutputOf(s, j) == k;
    assert SkipOk(TraceOf(s), j) && SourceOk(TraceOf(s), s.ros.log.stamped[j].offer, bound);
  }

  /** For any two frames of an epoch: all outputs from the one to the other are stamped in it exactly if none of
      them was without NAL units or missed. With a keyframe first that is: the frame can be decoded. */
  ghost predicate EpochsComplete(s: Stream) {
    forall g: nat, i: nat {:trigger SameEpoch(s, g, i)} ::
      SameEpoch(s, g, i) ==> (Complete(s, g, i) <==> Unbroken(s, g, i))
  }

  /** Frame `i` is a skip exactly if an output between it and the frame before was missed. */
  ghost predicate SkipsMiss(s: Stream) {
    forall i: nat {:trigger s.ros.log.stamped[i]} :: 0 < i < |s.ros.log.stamped| && SameEpoch(s, i - 1, i) ==>
      (i in s.ros.log.skips <==> MissedBetween(TraceOf(s), OutputOf(s, i - 1), OutputOf(s, i)))
  }

  lemma InvSkipsMiss(s: Stream)
    requires PartsInv(s)
    ensures SkipsMiss(s)
  {
    hide ScriptOk, FramesOk, Tail, Ros.Shape, Ros.Stamps, Rtp.Inv, Enc.Inv, TraceOk, MissedBetween;
    forall i: nat | 0 < i < |s.ros.log.stamped| && SameEpoch(s, i - 1, i)
      ensures i in s.ros.log.skips <==> MissedBetween(TraceOf(s), OutputOf(s, i - 1), OutputOf(s, i))
    {
      EpochOffers(s, i - 1, i);
      SkipByTrace(s, |s.enc.outputs| - (if Unsettled(s) then 1 else 0), i - 1);
      SkipByTrace(s, |s.enc.outputs| - (if Unsettled(s) then 1 else 0), i);
    }
  }

  lemma SkipByTrace(s: Stream, bound: nat, i: nat)
    requires TraceOk(TraceOf(s), bound) && i < |s.ros.log.stamped|
    ensures SkipOk(TraceOf(s), i)
  {
  }

  lemma InvEpochsComplete(s: Stream)
    requires PartsInv(s)
    ensures EpochsComplete(s)
  {
    hide Complete, Unbroken, TraceOk, Ros.Stamps, ScriptOk, FramesOk, Tail, Ros.Shape, Rtp.Inv, Enc.Inv;
    var bound: nat := |s.enc.outputs| - (if Unsettled(s) then 1 else 0);
    assert TraceOk(TraceOf(s), bound);
    forall g: nat, i: nat | SameEpoch(s, g, i)
      ensures Complete(s, g, i) <==> Unbroken(s, g, i)
    {
      EpochIsComplete(s, bound, g, i);
    }
  }

  lemma EpochIsComplete(s: Stream, bound: nat, g: nat, i: nat)
    requires Ros.Stamps(s.ros) && TraceOk(TraceOf(s), bound) && SameEpoch(s, g, i)
    ensures Complete(s, g, i) <==> Unbroken(s, g, i)
  {
    hide Ros.Stamps, TraceOk, Unbroken, IsStamped;
    if Unbroken(s, g, i) {
      forall k | OutputOf(s, g) <= k <= OutputOf(s, i)
        ensures IsStamped(s, g, i, k)
      {
        UnbrokenIsComplete(s, bound, g, i, k);
      }
    }
    if Complete(s, g, i) { CompleteIsUnbroken(s, bound, g, i); }
  }

  /** Whatever the threads do in between: the render thread finds both branches in the state its next
      operation needs; every stamped frame has the metadata of the input it encodes, which is from a callback
      the fresh-render gate let pass; no two have the same timestamp, and all of one epoch are of one encoder
      session; all encoder outputs between two frames of an epoch are stamped in it exactly if none was without
      NAL units or missed; and with a synchronous encoder a packet sent can be decoded exactly if no output from the
      last keyframe up to its own was without NAL units. */
  lemma EveryStreamRun(rate: Enc.Rate, ros: bool, capacity: nat, limit: nat, events: seq<Event>)
    requires rate.Clamped() && rate.frames <= Enc.RTP_CLOCK_RATE * rate.seconds && capacity > 0
    ensures var s := Run(Initial(rate, ros, capacity, limit), events);
            && (s.todo != [] ==> Possible(s, s.todo[0]))
            && (forall i: nat :: i < |s.ros.log.stamped| ==> FromFreshCallback(s, s.ros.log.stamped[i]))
            && (forall i, j :: 0 <= i < j < |s.ros.log.stamped| ==>
                  var e, f := s.ros.log.stamped[i], s.ros.log.stamped[j];
                  && HasSource(s, e) && HasSource(s, f)
                  && Source(s, e).timestamp != Source(s, f).timestamp
                  && (e.epoch == f.epoch ==> Source(s, e).session == Source(s, f).session))
            && EpochsComplete(s) && SkipsMiss(s)
            && (SynchronousRun(Initial(rate, ros, capacity, limit), events) ==>
                  forall i: nat :: i < |s.rtp.sent| ==>
                    (Rtp.DecodableAt(s.rtp, i) <==> Rtp.WellFormed(s.rtp, s.rtp.sent[i].id)))
  {
    var first := Initial(rate, ros, capacity, limit);
    var s := Run(first, events);
    InitialInv(rate, ros, capacity, limit);
    RunKeepsInv(first, events);
    if SynchronousRun(first, events) {
      RunKeepsHonest(first, events);
      InvDecodable(s.rtp);
    }
    if s.todo != [] {
      RenderNeverFindsDisorder(s);
    }
    InvEpochsComplete(s);
    InvSkipsMiss(s);
    hide Inv, Run, Possible, SynchronousRun;
    forall i: nat | i < |s.ros.log.stamped|
      ensures FromFreshCallback(s, s.ros.log.stamped[i])
    {
      StampedIsFresh(s, i);
    }
    forall i, j | 0 <= i < j < |s.ros.log.stamped|
      ensures var e, f := s.ros.log.stamped[i], s.ros.log.stamped[j];
              && HasSource(s, e) && HasSource(s, f)
              && Source(s, e).timestamp != Source(s, f).timestamp
              && (e.epoch == f.epoch ==> Source(s, e).session == Source(s, f).session)
    {
      StampedSourcesDiffer(s, i, j);
    }
  }

  lemma InvDecodable(s: Rtp.State)
    requires Rtp.Inv(s) && s.honest
    ensures forall i: nat :: i < |s.sent| ==> (Rtp.DecodableAt(s, i) <==> Rtp.WellFormed(s, s.sent[i].id))
  {
    hide Rtp.Inv, Rtp.DecodableAt, Rtp.WellFormed;
    forall i: nat | i < |s.sent|
      ensures Rtp.DecodableAt(s, i) <==> Rtp.WellFormed(s, s.sent[i].id)
    {
      Rtp.DecodableExactly(s, i);
    }
  }
}
