/** The client half of the compare-and-set protocol: one owner reconciles its calibration with a source, over
    and over, while replies are lost and requests are late or arrive twice. Nobody else writes. */
module Reconcile {
  import opened Wrappers
  import C = ControlProtocol

  /** What a status reply says. */
  datatype Status = Status(pending: bool, applied: nat, desiredRevision: nat, appliedRevision: nat,
                           publishedRevision: nat)

  function Report(s: C.State): Status {
    Status(s.pending.Some?, s.applied.calibration, s.desiredRevision, s.appliedRevision, s.publishedRevision)
  }

  datatype Outcome = StillPending | NotPublished | Reconciled

  /** One attempt behind its first read: the write it makes, and what its last reply lets it conclude. An attempt
      whose reply is lost ends there. */
  method ApplyCameraInfoMetadata(calibration: nat, status: Status, reply: Option<Status>)
    returns (write: Option<nat>, outcome: Option<Outcome>)
    ensures write == Write(calibration, status)
    ensures outcome == Some(StillPending) <==> status.pending
    ensures outcome.None? <==> write.Some? && reply.None?
    ensures outcome == Some(Reconciled) <==>
              && !status.pending && (write.Some? ==> reply.Some?)
              && var last := if write.Some? then reply.value else status;
                 !last.pending && last.publishedRevision == last.appliedRevision
  {
    write := None;
    if status.pending { return None, Some(StillPending); }
    var last := status;
    if status.applied != calibration {
      write := Some(status.desiredRevision);
      if reply.None? { return write, None; }
      last := reply.value;
    }
    if last.pending || last.publishedRevision != last.appliedRevision { return write, Some(NotPublished); }
    return write, Some(Reconciled);
  }

  /** The revision named by the write that follows a read, if one follows. */
  function Write(calibration: nat, status: Status): Option<nat> {
    if status.pending || status.applied == calibration then None else Some(status.desiredRevision)
  }

  function Patch(id: string, calibration: nat, expected: nat): C.Request {
    C.Request(id, C.Config, false, false, Some(expected), C.Patch(1, false, false, None, Some(Some(calibration))))
  }

  datatype State = State(
    calibration: nat,          // owned by the client
    source: C.State,
    write: Option<nat>,        // decided, not sent yet
    wire: seq<nat>)            // every write ever sent; it may arrive late, or again

  datatype Event =
    | Read                                     // a status reply arrives; a lost one changes nothing
    | Send
    | Arrive(k: nat, id: string, used: bool)   // a write reaches the source; its reply may be lost
    | Source(e: C.Event)                       // the source's own threads

  function Step(s: State, e: Event): State {
    match e
    case Read => s.(write := Write(s.calibration, Report(s.source)))
    case Send => if s.write.Some? then s.(wire := s.wire + [s.write.value], write := None) else s
    case Arrive(k, id, used) =>
      if k < |s.wire| then s.(source := C.Step(s.source, C.Handle(Patch(id, s.calibration, s.wire[k]), used))) else s
    case Source(e) => if e.Handle? then s else s.(source := C.Step(s.source, e))
  }

  function Run(s: State, events: seq<Event>): State
    decreases |events|
  {
    if events == [] then s else Run(Step(s, events[0]), events[1..])
  }

  function Initial(calibration: nat, ros: bool, quality: int, first: nat): State {
    State(calibration, C.Initial(ros, quality, first), None, [])
  }

  /** Every write decided or sent names a revision below `bound`. */
  predicate Below(s: State, bound: nat) {
    && (s.write.Some? ==> s.write.value < bound)
    && (forall k :: 0 <= k < |s.wire| ==> s.wire[k] < bound)
  }

  /** The pending mutation is an owned one. */
  predicate Owned(s: State) {
    && (s.source.pending.Some? ==>
          s.source.pending.value.kind == C.Config && s.source.pending.value.calibration
          && s.source.desired.calibration == s.calibration && Below(s, s.source.desiredRevision))
    && (forall n {:trigger s.source.log.accepted[n]} :: 0 <= n < |s.source.log.accepted| ==>
          s.source.log.accepted[n].Calibrated() == Some(s.calibration))
    && s.source.awaiting.None? && s.source.nativeFailed == 0
  }

  /** Before anything is consumed the source still has its first calibration; what was consumed is either still
      pending or reported as applied, and no write names the present revision. */
  predicate AtMostOne(s: State, first: nat) {
    if s.source.log.consumed == [] then
      && s.source.applied.calibration == first && s.source.metadata.record == first
      && s.source.appliedRevision == s.source.nativeApplied == 1
      && (s.source.pending.Some? ==> s.source.mailbox.Some?)
      && (first == s.calibration ==> s.wire == [] && s.write.None? && s.source.pending.None?)
    else
      && |s.source.log.consumed| == 1 && s.source.metadata.record == s.calibration
      && Below(s, s.source.desiredRevision)
      && (if s.source.pending.Some? then s.source.mailbox.None?
          else s.source.applied.calibration == s.calibration && s.source.appliedRevision >= 2)
  }

  predicate Inv(s: State, first: nat) {
    && C.Inv(s.source, first) && Below(s, s.source.desiredRevision + 1) && Owned(s) && AtMostOne(s, first)
  }

  lemma InitialInv(calibration: nat, ros: bool, quality: int, first: nat)
    ensures Inv(Initial(calibration, ros, quality, first), first)
  {
    C.InitialInv(ros, quality, first);
  }

  lemma ArriveKeepsOwned(s: State, first: nat, k: nat, id: string, used: bool)
    requires Inv(s, first) && k < |s.wire|
    ensures var t := Step(s, Arrive(k, id, used));
            Below(t, t.source.desiredRevision + 1) && Owned(t) && AtMostOne(t, first)
  {
    hide C.Logs, C.Infos, C.Origins, C.RtpOk;
  }

  lemma ConsumeKeepsOwned(s: State, first: nat)
    requires Inv(s, first) && s.source.mailbox.Some?
    ensures var t := Step(s, Source(C.Consume));
            Below(t, t.source.desiredRevision + 1) && Owned(t) && AtMostOne(t, first)
  {
    hide C.Logs, C.Infos, C.Origins, C.RtpOk;
  }

  lemma FlushKeepsOwned(s: State, first: nat, late: bool)
    requires Inv(s, first)
    ensures var t := Step(s, Source(C.Flush(late)));
            Below(t, t.source.desiredRevision + 1) && Owned(t) && AtMostOne(t, first)
  {
    if s.source.pending.Some? { PendingConsumed(s, first); }
    hide C.Logs, C.Infos, C.Origins, C.RtpOk;
  }

  lemma PendingConsumed(s: State, first: nat)
    requires Inv(s, first) && s.source.pending.Some?
    ensures C.Completes(s.source) ==> s.source.log.consumed != []
    ensures s.source.nativeFailed != s.source.pending.value.revision
  {
    hide C.Infos, C.Origins, C.RtpOk;
  }

  lemma OtherKeepsOwned(s: State, first: nat, c: C.Event)
    requires Inv(s, first) && !c.Handle? && !c.Consume? && !c.Flush?
    ensures var t := Step(s, Source(c));
            Below(t, t.source.desiredRevision + 1) && Owned(t) && AtMostOne(t, first)
  {
    hide C.Logs, C.Infos, C.Origins, C.RtpOk;
  }

  lemma StepKeepsInv(s: State, first: nat, e: Event)
    requires Inv(s, first)
    ensures Inv(Step(s, e), first) && Step(s, e).calibration == s.calibration
  {
    hide C.Inv, C.Step, Owned, AtMostOne;
    match e
    case Arrive(k, id, used) =>
      if k < |s.wire| {
        C.StepKeepsInv(s.source, first, C.Handle(Patch(id, s.calibration, s.wire[k]), used));
        ArriveKeepsOwned(s, first, k, id, used);
      }
    case Source(c) =>
      C.StepKeepsInv(s.source, first, c);
      if c.Consume? {
        if s.source.mailbox.Some? {
          ConsumeKeepsOwned(s, first);
        } else {
          NothingToConsume(s.source);
        }
      } else if c.Flush? {
        FlushKeepsOwned(s, first, c.late);
      } else if !c.Handle? {
        OtherKeepsOwned(s, first, c);
      }
    case _ => ReadOrSendKeepsOwned(s, first, e);
  }

  lemma NothingToConsume(s: C.State)
    requires s.mailbox.None?
    ensures C.Step(s, C.Consume) == s
  {
  }

  lemma ReadOrSendKeepsOwned(s: State, first: nat, e: Event)
    requires Inv(s, first) && (e.Read? || e.Send?)
    ensures var t := Step(s, e);
            Below(t, t.source.desiredRevision + 1) && Owned(t) && AtMostOne(t, first)
  {
    hide C.Logs, C.Infos, C.Origins, C.RtpOk;
  }

  lemma {:induction false} RunKeepsInv(s: State, first: nat, events: seq<Event>)
    requires Inv(s, first)
    ensures Inv(Run(s, events), first) && Run(s, events).calibration == s.calibration
    decreases |events|
  {
    hide Inv, Step;
    if events != [] {
      StepKeepsInv(s, first, events[0]);
      RunKeepsInv(Step(s, events[0]), first, events[1..]);
    }
  }

  /** Whatever replies are lost and however late or often the writes arrive: the owned calibration is natively
      applied at most once, not at all if the source already had it, and a status reply that lets the client
      stop tells the truth about the metadata in use. */
  lemma AppliedAtMostOnce(calibration: nat, ros: bool, quality: int, first: nat, events: seq<Event>)
    ensures var s := Run(Initial(calibration, ros, quality, first), events);
            && |s.source.log.consumed| <= 1
            && (first == calibration ==> s.source.log.accepted == [])
            && (!Report(s.source).pending && Report(s.source).applied == calibration ==>
                  s.source.metadata.record == calibration)
  {
    InitialInv(calibration, ros, quality, first);
    RunKeepsInv(Initial(calibration, ros, quality, first), first, events);
    if first == calibration {
      NothingToWrite(Initial(calibration, ros, quality, first), first, events);
    }
  }

  lemma {:induction false} NothingToWrite(s: State, first: nat, events: seq<Event>)
    requires Inv(s, first) && first == s.calibration && s.source.log.accepted == [] && s.source.log.consumed == []
    ensures Run(s, events).source.log.accepted == []
    decreases |events|
  {
    if events != [] {
      StepKeepsInv(s, first, events[0]);
      NothingWritten(s, first, events[0]);
      NothingToWrite(Step(s, events[0]), first, events[1..]);
    }
  }

  lemma NothingWritten(s: State, first: nat, e: Event)
    requires Inv(s, first) && first == s.calibration && s.source.log.accepted == [] && s.source.log.consumed == []
    ensures var t := Step(s, e);
            t.source.log.accepted == [] && t.source.log.consumed == [] && t.calibration == s.calibration
  {
    hide C.Infos, C.Logs;
  }

  // ----- when the client stops -----

  /** A status with which an attempt ends in success. */
  predicate Convinces(calibration: nat, status: Status) {
    !status.pending && status.applied == calibration && status.publishedRevision == status.appliedRevision
  }

  lemma ConvincedIsTrue(s: State, first: nat)
    requires Inv(s, first) && Convinces(s.calibration, Report(s.source))
    ensures s.source.metadata.record == s.calibration
    ensures C.Calibration(s.calibration, s.source.appliedRevision) in s.source.log.infos
  {
    hide C.Logs, C.Origins, C.RtpOk;
    var infos := s.source.log.infos;
    assert infos != [] && C.Genuine(s.source, first, infos[|infos| - 1]);
  }

  lemma CompletionConvinces(s: State, first: nat, late: bool)
    requires Inv(s, first) && C.Completes(s.source)
    ensures Convinces(s.calibration, Report(C.Flushed(s.source, late)))
  {
    hide C.Logs, C.Infos, C.Origins, C.RtpOk;
  }

  /** A client that stops is right: with a status that convinces it, from a read or from the completion of its own
      write, the owned calibration is in use and was published under the applied revision; and every completed
      write does convince it. */
  lemma StoppingIsRight(calibration: nat, ros: bool, quality: int, first: nat, events: seq<Event>, late: bool)
    ensures var s := Run(Initial(calibration, ros, quality, first), events);
            && (Convinces(calibration, Report(s.source)) ==>
                  && s.source.metadata.record == calibration
                  && C.Calibration(calibration, s.source.appliedRevision) in s.source.log.infos)
            && (C.Completes(s.source) ==>
                  var t := C.Flushed(s.source, late);
                  && Convinces(calibration, Report(t)) && t.metadata.record == calibration
                  && C.Calibration(calibration, t.appliedRevision) in t.log.infos)
  {
    hide Inv, Run, Convinces, Report, C.Completes, C.Flushed;
    InitialInv(calibration, ros, quality, first);
    RunKeepsInv(Initial(calibration, ros, quality, first), first, events);
    var s := Run(Initial(calibration, ros, quality, first), events);
    if Convinces(calibration, Report(s.source)) { ConvincedIsTrue(s, first); }
    if C.Completes(s.source) { CompletedIsTrue(s, first, late); }
  }

  lemma FlushIsAStep(s: State, late: bool)
    ensures var t := Step(s, Source(C.Flush(late)));
            t.source == C.Flushed(s.source, late) && t.calibration == s.calibration
  {
    hide C.Flushed;
  }

  lemma CompletedIsTrue(s: State, first: nat, late: bool)
    requires Inv(s, first) && C.Completes(s.source)
    ensures var t := C.Flushed(s.source, late);
            && Convinces(s.calibration, Report(t)) && t.metadata.record == s.calibration
            && C.Calibration(s.calibration, t.appliedRevision) in t.log.infos
  {
    hide Inv, Convinces, Report, C.Completes, C.Flushed;
    CompletionConvinces(s, first, late);
    StepKeepsInv(s, first, Source(C.Flush(late)));
    FlushIsAStep(s, late);
    ConvincedIsTrue(Step(s, Source(C.Flush(late))), first);
  }

  // ----- a write that nothing comes before -----

  /** A write decided on a status names the revision that is present, so that it is accepted if it arrives before
      anything else changes the source, under an id that is not used. */
  lemma WriteWins(calibration: nat, s: C.State, id: string, used: bool)
    requires Write(calibration, Report(s)).Some?
    ensures var q := Patch(id, calibration, Write(calibration, Report(s)).value);
            && (C.Judge(s, q, used) == C.Accept <==> s.ros && !used)
            && (s.ros && !used ==>
                  var t := C.Step(s, C.Handle(q, used));
                  && t.pending == Some(C.Pending(s.desiredRevision + 1, id, C.Config, true))
                  && t.desired.calibration == calibration)
  {
  }

  /** The write is accepted. */
  function Written(s: C.State, calibration: nat, id: string): C.State {
    C.Step(s, C.Handle(Patch(id, calibration, s.desiredRevision), false))
  }

  predicate WriteUnderWay(t: C.State, calibration: nat, r: nat) {
    && t.pending.Some? && t.pending.value.revision == r && t.pending.value.calibration && t.nativeFailed < r
    && t.desired.calibration == calibration && t.publishing.None?
  }

  lemma WriteIsUnderWay(s: C.State, first: nat, calibration: nat, id: string)
    requires C.Inv(s, first) && s.ros && s.publishing.None? && Write(calibration, Report(s)).Some?
    ensures var t, r := Written(s, calibration, id), s.desiredRevision + 1;
            && WriteUnderWay(t, calibration, r) && t.mailbox.Some? && t.mailbox.value.kind == C.Config
            && t.mailbox.value.revision == r && t.mailbox.value.calibration == Some(C.Calibration(calibration, r))
  {
    hide C.Infos, C.Logs, C.Origins, C.RtpOk, C.Commands;
  }

  lemma WriteIsConsumed(t: C.State, calibration: nat, r: nat)
    requires WriteUnderWay(t, calibration, r) && t.mailbox.Some? && t.mailbox.value.kind == C.Config
    requires t.mailbox.value.revision == r && t.mailbox.value.calibration == Some(C.Calibration(calibration, r))
    ensures var u := C.Step(t, C.Consume);
            && WriteUnderWay(u, calibration, r) && u.infoPending && u.nativeApplied == r
            && u.metadata == C.Calibration(calibration, r)
  {
  }

  lemma WriteIsPublished(u: C.State, calibration: nat, r: nat)
    requires WriteUnderWay(u, calibration, r) && u.infoPending && u.nativeApplied == r
    requires u.metadata == C.Calibration(calibration, r)
    ensures var v := C.Step(C.Step(u, C.TakeInfo), C.PublishInfo);
            && WriteUnderWay(v, calibration, r) && v.nativeApplied == r == v.publishedRevision
            && v.metadata == C.Calibration(calibration, r)
  {
  }

  lemma WriteIsReported(v: C.State, calibration: nat, r: nat)
    requires WriteUnderWay(v, calibration, r) && v.nativeApplied == r == v.publishedRevision
    ensures var w := C.Step(v, C.Flush(false));
            && Convinces(calibration, Report(w)) && w.appliedRevision == r
            && w.metadata == v.metadata
  {
  }

  /** An attempt that nothing disturbs succeeds from wherever the source is: written, consumed, published and flushed,
      the owned calibration is in use, and the reply lets the client stop. */
  lemma UndisturbedAttemptSucceeds(ros: bool, quality: int, first: nat, events: seq<C.Event>, calibration: nat,
                                   id: string)
    requires var s := C.Run(C.Initial(ros, quality, first), events);
             s.ros && s.publishing.None? && Write(calibration, Report(s)).Some?
    ensures var s := C.Run(C.Initial(ros, quality, first), events);
            var t := C.Step(C.Step(C.Step(C.Step(Written(s, calibration, id), C.Consume), C.TakeInfo), C.PublishInfo),
                            C.Flush(false));
            Convinces(calibration, Report(t)) && t.metadata.record == calibration
  {
    C.InitialInv(ros, quality, first);
    C.RunKeepsInv(C.Initial(ros, quality, first), first, events);
    var s := C.Run(C.Initial(ros, quality, first), events);
    var r := s.desiredRevision + 1;
    hide C.Run, C.Inv, C.Step, Written, Convinces, WriteUnderWay;
    WriteIsUnderWay(s, first, calibration, id);
    var t := Written(s, calibration, id);
    WriteIsConsumed(t, calibration, r);
    var u := C.Step(t, C.Consume);
    WriteIsPublished(u, calibration, r);
    WriteIsReported(C.Step(C.Step(u, C.TakeInfo), C.PublishInfo), calibration, r);
  }
}
