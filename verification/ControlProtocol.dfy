/** The control mailbox: a compare-and-set configuration protocol between the control executor, which accepts
    requests and answers them, the render thread, which consumes one command at a time and acknowledges it,
    and the publisher, which sends CameraInfo. */
module ControlProtocol {
  import opened Wrappers

  datatype Kind = Config | Start | Stop | Keyframe

  /** `record` stands for the camera model of a calibration. */
  datatype Calibration = Calibration(record: nat, revision: nat)

  datatype Configuration = Configuration(active: bool, quality: int, calibration: nat)

  /** The fixed record handed to the render thread. */
  datatype Command = Command(revision: nat, active: bool, quality: int, keyframe: bool,
                             calibration: Option<Calibration>, kind: Kind)

  datatype Pending = Pending(revision: nat, requestId: string, kind: Kind, calibration: bool)

  datatype Stage = Completed | EncoderFailed | DeadlineExceeded

  datatype Receipt = Receipt(revision: nat, requestId: string, stage: Stage)

  /** An accepted mutation as it was requested; the n-th one has revision n + 2. */
  datatype Accepted = Accepted(requestId: string, kind: Kind, expected: Option<nat>, patch: Patch)
  {
    function Calibrated(): Option<nat> {
      if kind == Config && patch.calibration.Some? then patch.calibration.value else None
    }

    function Quality(): Option<int> { if kind == Config then patch.quality else None }
  }

  /** What the render thread did to a command: it took it, applied it, or gave it up. */
  datatype RenderEvent = Took(command: Command) | Applied(revision: nat) | GaveUp(revision: nat)

  datatype History = History(
    accepted: seq<Accepted>,
    consumed: seq<nat>,            // revisions the render thread took, in order
    render: seq<RenderEvent>,
    acknowledged: seq<nat>,        // revisions it applied
    receipts: seq<Receipt>,
    infos: seq<Calibration>)       // published CameraInfo messages

  datatype State = State(
    ros: bool,                     // CameraInfo can be published
    desiredRevision: nat,
    appliedRevision: nat,
    desired: Configuration,
    applied: Configuration,
    pending: Option<Pending>,
    mailbox: Option<Command>,      // nativeCommand_
    awaiting: Option<Command>,     // consumed, not acknowledged yet
    desiredActive: bool,           // RTP is on
    quality: int,                  // of the next snapshot
    nativeActive: bool,            // last acknowledged
    nativeApplied: nat,
    nativeFailed: nat,
    metadata: Calibration,
    infoPending: bool,
    publishing: Option<Calibration>,
    publishedRevision: nat,
    log: History)

  // ----- requests -----

  /** What the patch says; a calibration that is not valid for the source has no record. */
  datatype Patch = Patch(fields: nat, unknown: bool, startupBinding: bool, quality: Option<int>,
                         calibration: Option<Option<nat>>)

  datatype Request = Request(id: string, kind: Kind, unknown: bool, persist: bool, expected: Option<nat>, patch: Patch)

  datatype Verdict = Accept | InvalidArgument | Conflict | Busy | RestartRequired | Unavailable

  function PatchVerdict(s: State, p: Patch): Verdict {
    if p.fields == 0 || p.unknown then InvalidArgument
    else if p.startupBinding then RestartRequired
    else if p.quality.Some? && !(50 <= p.quality.value <= 100) then InvalidArgument
    else if p.calibration.Some? && !s.ros then Unavailable
    else if p.calibration.Some? && p.calibration.value.None? then InvalidArgument
    else Accept
  }

  /** The checks of a mutation in their order; `used`: a receipt names the request id. */
  function Judge(s: State, q: Request, used: bool): Verdict {
    if q.unknown || q.persist || (q.kind == Config && q.expected.None?) then InvalidArgument
    else if q.expected.Some? && q.expected.value != s.desiredRevision then Conflict
    else if s.pending.Some? then Busy
    else if q.kind == Keyframe && !s.nativeActive then Conflict
    else if used then Conflict
    else if q.kind == Config then PatchVerdict(s, q.patch)
    else Accept
  }

  function NewDesired(s: State, q: Request): Configuration {
    match q.kind
    case Config =>
      var d := s.desired.(quality := if q.patch.quality.Some? then q.patch.quality.value else s.desired.quality);
      if q.patch.calibration.Some? && q.patch.calibration.value.Some? then
        d.(calibration := q.patch.calibration.value.value)
      else d
    case Keyframe => s.desired
    case _ => s.desired.(active := q.kind == Start)
  }

  function NewRecord(q: Request): Option<nat> {
    if q.kind == Config && q.patch.calibration.Some? then q.patch.calibration.value else None
  }

  function NewCommand(s: State, q: Request): Command {
    var r := s.desiredRevision + 1;
    var d := NewDesired(s, q);
    Command(r, if q.kind == Config then s.desiredActive else d.active, d.quality, q.kind == Keyframe,
            if NewRecord(q).Some? then Some(Calibration(NewRecord(q).value, r)) else None, q.kind)
  }

  // ----- steps -----

  function Handled(s: State, q: Request, used: bool): State {
    if Judge(s, q, used) != Accept then s
    else
      var r := s.desiredRevision + 1;
      s.(desiredRevision := r, desired := NewDesired(s, q),
         pending := Some(Pending(r, q.id, q.kind, NewRecord(q).Some?)), mailbox := Some(NewCommand(s, q)),
         log := s.log.(accepted := s.log.accepted + [Accepted(q.id, q.kind, q.expected, q.patch)]))
  }

  /** The command is natively applied. */
  function Acknowledged(s: State, c: Command): State {
    s.(nativeActive := if c.kind == Start then true else if c.kind == Stop then false else s.nativeActive,
       nativeApplied := c.revision,
       log := s.log.(acknowledged := s.log.acknowledged + [c.revision], render := s.log.render + [Applied(c.revision)]))
  }

  function TakenCommand(s: State): State
    requires s.mailbox.Some?
  {
    var c := s.mailbox.value;
    s.(mailbox := None, desiredActive := c.active, quality := c.quality,
       metadata := if c.calibration.Some? then c.calibration.value else s.metadata,
       infoPending := s.infoPending || c.calibration.Some?,
       log := s.log.(consumed := s.log.consumed + [c.revision], render := s.log.render + [Took(c)]))
  }

  /** The render thread takes the command. A configuration is applied at once. */
  function Consumed(s: State): State
    requires s.mailbox.Some?
  {
    var c := s.mailbox.value;
    if c.kind == Config then Acknowledged(TakenCommand(s), c) else TakenCommand(s).(awaiting := Some(c))
  }

  function Failed(s: State): State {
    if s.awaiting.Some? && (s.awaiting.value.kind == Start || s.awaiting.value.kind == Keyframe) then
      s.(nativeFailed := s.awaiting.value.revision, awaiting := None, desiredActive := false, nativeActive := false,
         log := s.log.(render := s.log.render + [GaveUp(s.awaiting.value.revision)]))
    else s
  }

  function Closed(s: State, stage: Stage): State
    requires s.pending.Some?
  {
    s.(pending := None,
       log := s.log.(receipts := s.log.receipts
                                 + [Receipt(s.pending.value.revision, s.pending.value.requestId, stage)]))
  }

  predicate Completes(s: State) {
    s.pending.Some? && s.nativeFailed != s.pending.value.revision && s.nativeApplied == s.pending.value.revision
    && (s.pending.value.calibration ==> s.publishedRevision == s.pending.value.revision)
  }

  /** `late`: the caller is gone or its deadline has passed, and the mailbox could be locked. */
  function Flushed(s: State, late: bool): State {
    if s.pending.None? then s
    else
      var p := s.pending.value;
      if s.nativeFailed == p.revision then Closed(s, EncoderFailed)
      else if Completes(s) then
        Closed(s, Completed).(appliedRevision := p.revision, applied := s.desired.(active := s.nativeActive))
      else if late && s.mailbox.Some? && s.mailbox.value.revision == p.revision then
        Closed(s, DeadlineExceeded).(mailbox := None)
      else s
  }

  function TakenInfo(s: State): State {
    s.(publishing := Some(s.metadata), infoPending := false)
  }

  function PublishedInfo(s: State): State
    requires s.publishing.Some?
  {
    s.(publishing := None, publishedRevision := s.publishing.value.revision,
       log := s.log.(infos := s.log.infos + [s.publishing.value]))
  }

  datatype Event =
    | Handle(q: Request, used: bool)       // control executor
    | Flush(late: bool)
    | Consume                              // render thread
    | Acknowledge                          // a frame was encoded, RTP drained, or a keyframe came out
    | Fail                                 // an encoder failure
    | Register | TakeInfo | PublishInfo    // publisher

  /** Not a step of the render thread. */
  predicate ControlOnly(e: Event) { !e.Consume? && !e.Acknowledge? && !e.Fail? }

  predicate Enabled(s: State, e: Event) {
    match e
    case Consume => s.mailbox.Some?
    case Acknowledge => s.awaiting.Some?
    case Register => s.ros
    case TakeInfo => s.infoPending && s.publishing.None?
    case PublishInfo => s.publishing.Some?
    case _ => true
  }

  function Fire(s: State, e: Event): State
    requires Enabled(s, e)
  {
    match e
    case Handle(q, used) => Handled(s, q, used)
    case Flush(late) => Flushed(s, late)
    case Consume => Consumed(s)
    case Acknowledge => Acknowledged(s, s.awaiting.value).(awaiting := None)
    case Fail => Failed(s)
    case Register => s.(infoPending := true)
    case TakeInfo => TakenInfo(s)
    case PublishInfo => PublishedInfo(s)
  }

  function Step(s: State, e: Event): State {
    if Enabled(s, e) then Fire(s, e) else s
  }

  function Run(s: State, events: seq<Event>): State
    decreases |events|
  {
    if events == [] then s else Run(Step(s, events[0]), events[1..])
  }

  function Initial(ros: bool, quality: int, calibration: nat): State {
    var c := Configuration(false, quality, calibration);
    State(ros, 1, 1, c, c, None, None, None, false, quality, false, 1, 0, Calibration(calibration, 1), false, None, 0,
          History([], [], [], [], [], []))
  }

  // ----- the invariant -----

  predicate MailboxHolds(s: State, r: nat) { s.mailbox.Some? && s.mailbox.value.revision == r }
  predicate AwaitingHolds(s: State, r: nat) { s.awaiting.Some? && s.awaiting.value.revision == r }

  /** Exactly one of mailbox, awaiting, natively applied and natively failed holds the revision. */
  predicate OneHolder(s: State, r: nat) {
    var a, b, c, d := MailboxHolds(s, r), AwaitingHolds(s, r), s.nativeApplied == r, s.nativeFailed == r;
    (a || b || c || d) && !(a && b) && !(a && c) && !(a && d) && !(b && c) && !(b && d) && !(c && d)
  }

  /** While a revision is pending it is the last one and has one holder; otherwise nothing is under way. */
  predicate Ownership(s: State) {
    if s.pending.Some? then
      var r := s.pending.value.revision;
      && r == s.desiredRevision && OneHolder(s, r)
      && s.log.accepted != []
      && s.log.accepted[|s.log.accepted| - 1].requestId == s.pending.value.requestId
      && s.log.accepted[|s.log.accepted| - 1].kind == s.pending.value.kind
      && s.log.accepted[|s.log.accepted| - 1].Calibrated().Some? == s.pending.value.calibration
      && (s.mailbox.Some? ==> MailboxHolds(s, r)) && (s.awaiting.Some? ==> AwaitingHolds(s, r))
    else s.mailbox.None? && s.awaiting.None?
  }

  predicate Revisions(s: State) {
    && 1 <= s.appliedRevision <= s.nativeApplied <= s.desiredRevision == |s.log.accepted| + 1
    && s.nativeFailed <= s.desiredRevision
    && (s.nativeFailed == 0 || s.nativeFailed != s.nativeApplied)
    && (s.pending.Some? ==> s.appliedRevision < s.pending.value.revision)
  }

  predicate Matches(s: State, c: Command) {
    && s.pending.Some? && c.kind == s.pending.value.kind && c.quality == s.desired.quality
    && (c.calibration.Some? <==> s.pending.value.calibration) && (c.calibration.Some? ==> c.kind == Config)
    && (c.calibration.Some? ==> c.calibration.value == Calibration(s.desired.calibration, c.revision))
    && (c.kind != Config ==> c.active == s.desired.active)
    && (c.kind == Start ==> c.active) && (c.kind == Stop ==> !c.active) && (c.keyframe <==> c.kind == Keyframe)
  }

  predicate Commands(s: State) {
    && (s.mailbox.Some? ==> Matches(s, s.mailbox.value))
    && (s.awaiting.Some? ==>
          && Matches(s, s.awaiting.value) && s.awaiting.value.kind != Config && s.awaiting.value.calibration.None?
          && s.desiredActive == s.awaiting.value.active)
    && (s.pending.Some? && s.mailbox.None? ==> s.quality == s.desired.quality)
  }

  /** The calibration of the accepted mutation with that revision, or the initial one. */
  predicate Genuine(s: State, first: nat, c: Calibration) {
    && c.revision <= s.desiredRevision
    && (c == Calibration(first, 1)
        || (2 <= c.revision && c.revision - 2 < |s.log.accepted|
            && s.log.accepted[c.revision - 2].Calibrated() == Some(c.record)))
  }

  predicate Infos(s: State, first: nat) {
    && Genuine(s, first, s.metadata)
    && (s.publishing.Some? ==>
          Genuine(s, first, s.publishing.value) && s.publishing.value.revision <= s.metadata.revision)
    && s.publishedRevision == (if s.log.infos == [] then 0 else s.log.infos[|s.log.infos| - 1].revision)
    && s.publishedRevision <= (if s.publishing.Some? then s.publishing.value.revision else s.metadata.revision)
    && (forall i :: 0 <= i < |s.log.infos| ==> Genuine(s, first, s.log.infos[i]))
    && (forall i, j :: 0 <= i < j < |s.log.infos| ==> s.log.infos[i].revision <= s.log.infos[j].revision)
    && (s.mailbox.Some? ==> s.metadata.revision < s.mailbox.value.revision)
    && (s.pending.Some? && s.pending.value.calibration ==>
          && s.log.accepted != []
          && s.log.accepted[|s.log.accepted| - 1].Calibrated() == Some(s.desired.calibration))
  }

  predicate Increasing(revisions: seq<nat>, bound: nat) {
    && (forall i :: 0 <= i < |revisions| ==> revisions[i] <= bound)
    && (forall i, j :: 0 <= i < j < |revisions| ==> revisions[i] < revisions[j])
  }

  /** The n-th accepted mutation named the revision of the one before it, if it named one; a configuration did. */
  predicate AcceptedOk(s: State) {
    forall n :: 0 <= n < |s.log.accepted| ==>
      && (s.log.accepted[n].expected.Some? ==> s.log.accepted[n].expected.value == n + 1)
      && (s.log.accepted[n].kind == Config ==> s.log.accepted[n].expected.Some?)
  }

  predicate Logs(s: State) {
    && AcceptedOk(s)
    && Increasing(s.log.consumed, s.desiredRevision)
    && (forall r :: r in s.log.acknowledged ==> r in s.log.consumed)
    && (s.pending.Some? ==>
          && (s.pending.value.revision in s.log.consumed <==> s.mailbox.None?)
          && (s.nativeApplied == s.pending.value.revision ==> s.pending.value.revision in s.log.acknowledged))
    && (forall i {:trigger s.log.receipts[i]} :: 0 <= i < |s.log.receipts| ==> ReceiptOk(s, s.log.receipts[i]))
    && (forall i, j :: 0 <= i < j < |s.log.receipts| ==> s.log.receipts[i].revision < s.log.receipts[j].revision)
  }

  /** What a receipt promises. */
  predicate ReceiptOk(s: State, r: Receipt) {
    && 2 <= r.revision <= s.desiredRevision && (s.pending.Some? ==> r.revision < s.pending.value.revision)
    && r.revision - 2 < |s.log.accepted| && s.log.accepted[r.revision - 2].requestId == r.requestId
    && (r.stage == Completed ==> r.revision in s.log.acknowledged)
    && (r.stage == DeadlineExceeded ==> r.revision !in s.log.consumed)
    && (r.stage == EncoderFailed ==> r.revision in s.log.consumed)
    && (r.stage == Completed && s.log.accepted[r.revision - 2].Calibrated().Some? ==>
          Calibration(s.log.accepted[r.revision - 2].Calibrated().value, r.revision) in s.log.infos)
  }

  predicate Base(s: State, first: nat) {
    Ownership(s) && Revisions(s) && Commands(s) && Infos(s, first) && Logs(s)
  }

  /** The revision of the last accepted calibration; 0 if there is none. */
  function LastAccepted(accepted: seq<Accepted>): (r: nat)
    ensures r == 0 || (2 <= r <= |accepted| + 1 && accepted[r - 2].Calibrated().Some?)
    ensures forall n :: 0 <= n < |accepted| && n > r - 2 ==> accepted[n].Calibrated().None?
  {
    if accepted == [] then 0
    else if accepted[|accepted| - 1].Calibrated().Some? then |accepted| + 1
    else LastAccepted(accepted[..|accepted| - 1])
  }

  predicate IsCalibration(accepted: seq<Accepted>, r: nat) {
    2 <= r <= |accepted| + 1 && accepted[r - 2].Calibrated().Some?
  }

  /** The revision of the last calibration that was consumed; 0 if there is none. */
  function LastConsumed(accepted: seq<Accepted>, consumed: seq<nat>): (r: nat)
    ensures r == 0 || (IsCalibration(accepted, r) && r in consumed)
  {
    if consumed == [] then 0
    else if IsCalibration(accepted, consumed[|consumed| - 1]) then consumed[|consumed| - 1]
    else LastConsumed(accepted, consumed[..|consumed| - 1])
  }

  /** The record of the calibration with that revision; the first one for 0. */
  function RecordOf(accepted: seq<Accepted>, r: nat, first: nat): nat {
    if IsCalibration(accepted, r) then accepted[r - 2].Calibrated().value else first
  }

  /** The configured calibration is the last accepted one, the one in use the last consumed. */
  predicate Origins(s: State, first: nat) {
    && s.desired.calibration == RecordOf(s.log.accepted, LastAccepted(s.log.accepted), first)
    && s.metadata.record == RecordOf(s.log.accepted, LastConsumed(s.log.accepted, s.log.consumed), first)
  }

  /** Since the last consumed start or stop, or the last failure, a keyframe command was consumed, and the last
      one carried an inactive configuration. */
  predicate SwitchedOff(render: seq<RenderEvent>) {
    render != []
    && match render[|render| - 1]
       case Took(c) =>
         if c.kind == Keyframe then !c.active else c.kind == Config && SwitchedOff(render[..|render| - 1])
       case Applied(_) => SwitchedOff(render[..|render| - 1])
       case GaveUp(_) => false
  }

  /** RTP is on exactly while the last acknowledged state is active and no keyframe command switched it off. */
  predicate RtpOk(s: State) {
    && (s.mailbox.Some? && s.mailbox.value.kind == Config ==> s.mailbox.value.active == s.desiredActive)
    && (s.mailbox.Some? && s.mailbox.value.kind == Keyframe ==> s.nativeActive)
    && (s.awaiting.Some? && s.awaiting.value.kind == Keyframe ==> s.nativeActive)
    && (s.awaiting.Some? && s.awaiting.value.kind != Keyframe ==> !SwitchedOff(s.log.render))
    && (s.awaiting.None? || s.awaiting.value.kind == Keyframe ==>
          if s.nativeActive then s.desiredActive == !SwitchedOff(s.log.render)
          else !s.desiredActive && !SwitchedOff(s.log.render))
  }

  predicate Inv(s: State, first: nat) {
    Base(s, first) && Origins(s, first) && RtpOk(s)
  }

  lemma InitialInv(ros: bool, quality: int, calibration: nat)
    ensures Inv(Initial(ros, quality, calibration), calibration)
  {
  }

  lemma HandleKeepsHolder(s: State, first: nat, q: Request, used: bool)
    requires Base(s, first)
    ensures var t := Handled(s, q, used); Ownership(t) && Revisions(t) && Commands(t)
  {
    hide Logs, Infos, PatchVerdict;
  }

  lemma HandleKeepsInfos(s: State, first: nat, q: Request, used: bool)
    requires Base(s, first)
    ensures Infos(Handled(s, q, used), first)
  {
    hide Logs, Commands, PatchVerdict;
    var t := Handled(s, q, used);
    if Judge(s, q, used) == Accept {
      forall c | Genuine(s, first, c) ensures Genuine(t, first, c) {}
      hide Genuine;
    }
  }

  lemma HandleKeepsLogs(s: State, first: nat, q: Request, used: bool)
    requires Base(s, first)
    ensures Logs(Handled(s, q, used))
  {
    hide Infos, Commands, PatchVerdict;
    var t := Handled(s, q, used);
    if Judge(s, q, used) == Accept {
      assert t.log.accepted[..|s.log.accepted|] == s.log.accepted;
      forall i | 0 <= i < |t.log.receipts| ensures ReceiptOk(t, t.log.receipts[i]) {
        assert ReceiptOk(s, s.log.receipts[i]);
      }
    }
  }

  lemma HandleKeepsBase(s: State, first: nat, q: Request, used: bool)
    requires Base(s, first)
    ensures Base(Handled(s, q, used), first)
  {
    hide Ownership, Revisions, Commands, Infos, Logs, Handled;
    HandleKeepsHolder(s, first, q, used);
    HandleKeepsInfos(s, first, q, used);
    HandleKeepsLogs(s, first, q, used);
  }

  /** The logs of what is not touched. */
  lemma SameLogs(s: State, t: State)
    requires Logs(s) && s.log.infos <= t.log.infos
    requires t.log.accepted == s.log.accepted && t.log.consumed == s.log.consumed
    requires t.log.acknowledged == s.log.acknowledged && t.log.receipts == s.log.receipts
    requires t.desiredRevision == s.desiredRevision && t.pending == s.pending && t.mailbox == s.mailbox
    requires t.nativeApplied == s.nativeApplied
    ensures Logs(t)
  {
    forall i | 0 <= i < |t.log.receipts| ensures ReceiptOk(t, t.log.receipts[i]) {
      assert ReceiptOk(s, s.log.receipts[i]);
    }
  }

  lemma ConsumeKeepsHolder(s: State)
    requires Ownership(s) && Revisions(s) && Commands(s) && s.mailbox.Some?
    ensures var t := Consumed(s); Ownership(t) && Revisions(t) && Commands(t)
  {
  }

  /** The calibration of a command under way is that of the last accepted mutation. */
  lemma CommandIsGenuine(s: State, first: nat)
    requires Ownership(s) && Revisions(s) && Commands(s) && Infos(s, first) && s.mailbox.Some?
    ensures s.mailbox.value.calibration.Some? ==>
              Genuine(s, first, s.mailbox.value.calibration.value)
              && s.mailbox.value.calibration.value.revision == s.mailbox.value.revision > s.metadata.revision
  {
  }

  lemma SameGenuine(s: State, t: State, first: nat)
    requires t.desiredRevision == s.desiredRevision && t.log.accepted == s.log.accepted
    ensures forall c {:trigger Genuine(t, first, c)} :: Genuine(s, first, c) ==> Genuine(t, first, c)
  {
  }

  lemma ConsumeShape(s: State)
    requires s.mailbox.Some?
    ensures var t := Consumed(s);
            && t.desiredRevision == s.desiredRevision && t.log.accepted == s.log.accepted
            && t.log.infos == s.log.infos && t.publishing == s.publishing && t.mailbox.None?
            && t.publishedRevision == s.publishedRevision && t.pending == s.pending && t.desired == s.desired
            && t.infoPending == (s.infoPending || s.mailbox.value.calibration.Some?)
            && t.metadata == if s.mailbox.value.calibration.Some? then s.mailbox.value.calibration.value
                             else s.metadata
  {
  }

  lemma ConsumeKeepsInfos(s: State, first: nat)
    requires Ownership(s) && Revisions(s) && Commands(s) && Infos(s, first) && s.mailbox.Some?
    ensures Infos(Consumed(s), first)
  {
    hide Ownership, Revisions, Commands, Genuine, Consumed;
    CommandIsGenuine(s, first);
    ConsumeShape(s);
    SameGenuine(s, Consumed(s), first);
  }

  lemma ConsumeKeepsLogs(s: State, first: nat)
    requires Base(s, first) && s.mailbox.Some?
    ensures Logs(Consumed(s))
  {
    hide Infos;
    var t := Consumed(s);
    forall i | 0 <= i < |t.log.receipts| ensures ReceiptOk(t, t.log.receipts[i]) {
      assert ReceiptOk(s, s.log.receipts[i]);
    }
  }

  lemma ConsumeKeepsBase(s: State, first: nat)
    requires Base(s, first) && s.mailbox.Some?
    ensures Base(Consumed(s), first)
  {
    hide Ownership, Revisions, Commands, Infos, Logs, Consumed;
    ConsumeKeepsHolder(s);
    ConsumeKeepsInfos(s, first);
    ConsumeKeepsLogs(s, first);
  }

  lemma AcknowledgeKeepsBase(s: State, first: nat)
    requires Base(s, first) && s.awaiting.Some?
    ensures Base(Acknowledged(s, s.awaiting.value).(awaiting := None), first)
  {
    var t := Acknowledged(s, s.awaiting.value).(awaiting := None);
    forall i | 0 <= i < |t.log.receipts| ensures ReceiptOk(t, t.log.receipts[i]) {
      assert ReceiptOk(s, s.log.receipts[i]);
    }
  }

  lemma FailKeepsHolder(s: State, first: nat)
    requires Ownership(s) && Revisions(s) && Commands(s) && Infos(s, first)
    ensures var t := Failed(s); Ownership(t) && Revisions(t) && Commands(t) && Infos(t, first)
  {
    forall c | Genuine(s, first, c) ensures Genuine(Failed(s), first, c) {}
    hide Genuine;
  }

  lemma FailKeepsBase(s: State, first: nat)
    requires Base(s, first)
    ensures Base(Failed(s), first)
  {
    hide Ownership, Revisions, Commands, Infos, Logs;
    FailKeepsHolder(s, first);
    SameLogs(s, Failed(s));
  }

  /** All a flush can change: the pending mutation is closed, and with it the mailbox. */
  predicate Settled(s: State, t: State) {
    && t == s.(pending := None, mailbox := t.mailbox, appliedRevision := t.appliedRevision, applied := t.applied,
               log := s.log.(receipts := t.log.receipts))
    && (t.mailbox == s.mailbox || t.mailbox.None?) && s.log.receipts <= t.log.receipts
    && (t.appliedRevision == s.appliedRevision
        || (s.pending.Some? && t.appliedRevision == s.pending.value.revision == s.nativeApplied))
  }

  lemma ClosedIsSettled(s: State, stage: Stage)
    requires s.pending.Some?
    ensures Settled(s, Closed(s, stage))
  {
  }

  lemma FlushIsSettled(s: State, late: bool)
    ensures Flushed(s, late) == s || Settled(s, Flushed(s, late))
  {
    hide Closed;
    if s.pending.Some? {
      ClosedIsSettled(s, EncoderFailed);
      ClosedIsSettled(s, Completed);
      ClosedIsSettled(s, DeadlineExceeded);
    }
  }

  lemma FlushKeepsHolder(s: State, first: nat, late: bool)
    requires Ownership(s) && Revisions(s)
    ensures var t := Flushed(s, late); Ownership(t) && Revisions(t)
  {
  }

  lemma FlushKeepsCommands(s: State, first: nat, late: bool)
    requires Ownership(s) && Revisions(s) && Commands(s)
    ensures Commands(Flushed(s, late))
  {
    hide Matches;
  }

  lemma SettledInfos(s: State, t: State, first: nat)
    requires Infos(s, first) && t.pending.None? && t.mailbox.None?
    requires t.log.accepted == s.log.accepted && t.log.infos == s.log.infos && t.desiredRevision == s.desiredRevision
    requires t.metadata == s.metadata && t.publishing == s.publishing && t.publishedRevision == s.publishedRevision
    requires t.desired == s.desired
    ensures Infos(t, first)
  {
    forall c | Genuine(s, first, c) ensures Genuine(t, first, c) {}
    hide Genuine;
  }

  lemma FlushSettles(s: State, late: bool)
    requires Ownership(s) && Flushed(s, late) != s
    ensures var t := Flushed(s, late);
            && t.pending.None? && t.mailbox.None? && t.desiredRevision == s.desiredRevision
            && t.log.accepted == s.log.accepted && t.log.infos == s.log.infos && t.desired == s.desired
            && t.metadata == s.metadata && t.publishing == s.publishing && t.publishedRevision == s.publishedRevision
  {
    FlushIsSettled(s, late);
    FlushEmpties(s, late);
    hide Flushed, Ownership;
  }

  /** What is closed is not in the mailbox. */
  lemma FlushEmpties(s: State, late: bool)
    requires Ownership(s) && Flushed(s, late) != s
    ensures Flushed(s, late).mailbox.None?
  {
    hide Closed;
    if s.pending.Some? {
      ClosedIsSettled(s, EncoderFailed);
      ClosedIsSettled(s, Completed);
      SameMailbox(s, EncoderFailed);
      SameMailbox(s, Completed);
    }
  }

  lemma SameMailbox(s: State, stage: Stage)
    requires s.pending.Some?
    ensures Closed(s, stage).mailbox == s.mailbox
  {
  }

  lemma FlushKeepsInfos(s: State, first: nat, late: bool)
    requires Ownership(s) && Infos(s, first)
    ensures Infos(Flushed(s, late), first)
  {
    hide Genuine, Flushed, Ownership;
    if Flushed(s, late) != s {
      FlushSettles(s, late);
      SettledInfos(s, Flushed(s, late), first);
    }
  }

  /** What a receipt for the pending mutation would promise. */
  predicate Promise(s: State, stage: Stage)
    requires s.pending.Some? && Ownership(s) && Revisions(s)
  {
    var r := s.pending.value.revision;
    var a := s.log.accepted[|s.log.accepted| - 1];
    && (stage == Completed ==> r in s.log.acknowledged)
    && (stage == DeadlineExceeded ==> r !in s.log.consumed)
    && (stage == EncoderFailed ==> r in s.log.consumed)
    && (stage == Completed && a.Calibrated().Some? ==> Calibration(a.Calibrated().value, r) in s.log.infos)
  }

  lemma CompletionPromise(s: State, first: nat)
    requires Base(s, first) && Completes(s)
    ensures Promise(s, Completed)
  {
    var n := |s.log.infos|;
    if s.pending.value.calibration {
      assert n > 0 && Genuine(s, first, s.log.infos[n - 1]) && s.log.infos[n - 1] in s.log.infos;
    }
  }

  lemma FlushPromise(s: State, first: nat, late: bool)
    requires Base(s, first) && Flushed(s, late) != s
    ensures var stage := if s.nativeFailed == s.pending.value.revision then EncoderFailed
                         else if Completes(s) then Completed else DeadlineExceeded;
            && Promise(s, stage)
            && Flushed(s, late).log == Closed(s, stage).log && Flushed(s, late).pending.None?
            && Flushed(s, late).desiredRevision == s.desiredRevision
  {
    if s.nativeFailed != s.pending.value.revision && Completes(s) {
      CompletionPromise(s, first);
    } else {
      hide Infos, Commands;
    }
  }

  lemma ClosedKeepsLogs(s: State, t: State, stage: Stage)
    requires Logs(s) && s.pending.Some? && Ownership(s) && Revisions(s) && Promise(s, stage)
    requires t.log == Closed(s, stage).log && t.pending.None? && t.desiredRevision == s.desiredRevision
    ensures Logs(t)
  {
    hide OneHolder;
    var n := |s.log.receipts|;
    forall i | 0 <= i < |t.log.receipts| ensures ReceiptOk(t, t.log.receipts[i]) {
      assert i < n ==> ReceiptOk(s, s.log.receipts[i]);
    }
  }

  lemma FlushKeepsBase(s: State, first: nat, late: bool)
    requires Base(s, first)
    ensures Base(Flushed(s, late), first)
  {
    hide Ownership, Revisions, Commands, Infos, Logs, Promise, Closed;
    FlushKeepsHolder(s, first, late);
    FlushKeepsCommands(s, first, late);
    FlushKeepsInfos(s, first, late);
    if Flushed(s, late) != s {
      var stage := if s.nativeFailed == s.pending.value.revision then EncoderFailed
                   else if Completes(s) then Completed else DeadlineExceeded;
      FlushPromise(s, first, late);
      ClosedKeepsLogs(s, Flushed(s, late), stage);
    }
  }

  lemma PublisherKeepsHolder(s: State, e: Event)
    requires Ownership(s) && Revisions(s) && Commands(s) && Logs(s)
    requires Enabled(s, e) && (e.Register? || e.TakeInfo? || e.PublishInfo?)
    ensures var t := Fire(s, e); Ownership(t) && Revisions(t) && Commands(t) && Logs(t)
  {
    hide Handled, Flushed, Consumed, Failed, Acknowledged, Logs;
    SameLogs(s, Fire(s, e));
  }

  lemma PublisherKeepsInfos(s: State, first: nat, e: Event)
    requires Infos(s, first) && Enabled(s, e) && (e.Register? || e.TakeInfo? || e.PublishInfo?)
    ensures Infos(Fire(s, e), first)
  {
    hide Handled, Flushed, Consumed, Failed, Acknowledged;
    forall c | Genuine(s, first, c) ensures Genuine(Fire(s, e), first, c) {}
    hide Genuine;
  }

  lemma PublisherKeepsBase(s: State, first: nat, e: Event)
    requires Base(s, first) && Enabled(s, e) && (e.Register? || e.TakeInfo? || e.PublishInfo?)
    ensures Base(Fire(s, e), first)
  {
    hide Ownership, Revisions, Commands, Infos, Logs, Fire;
    PublisherKeepsHolder(s, e);
    PublisherKeepsInfos(s, first, e);
  }

  lemma {:induction false} MoreAccepted(accepted: seq<Accepted>, a: Accepted, consumed: seq<nat>)
    requires forall i :: 0 <= i < |consumed| ==> consumed[i] <= |accepted| + 1
    ensures LastConsumed(accepted + [a], consumed) == LastConsumed(accepted, consumed)
    decreases |consumed|
  {
    if consumed != [] {
      MoreAccepted(accepted, a, consumed[..|consumed| - 1]);
    }
  }

  /** The records behind one more accepted mutation. */
  lemma RecordsBehind(accepted: seq<Accepted>, a: Accepted, consumed: seq<nat>, first: nat)
    requires forall i :: 0 <= i < |consumed| ==> consumed[i] <= |accepted| + 1
    ensures var now := accepted + [a];
            && RecordOf(now, LastConsumed(now, consumed), first)
               == RecordOf(accepted, LastConsumed(accepted, consumed), first)
            && RecordOf(now, LastAccepted(now), first)
               == if a.Calibrated().Some? then a.Calibrated().value
                  else RecordOf(accepted, LastAccepted(accepted), first)
  {
    MoreAccepted(accepted, a, consumed);
    assert (accepted + [a])[..|accepted|] == accepted;
    hide LastConsumed;
  }

  /** The configured calibration behind an accepted mutation. */
  lemma HandledCalibration(s: State, q: Request, used: bool)
    requires Judge(s, q, used) == Accept
    ensures var t, a := Handled(s, q, used), Accepted(q.id, q.kind, q.expected, q.patch);
            && t.log.accepted == s.log.accepted + [a] && t.log.consumed == s.log.consumed && t.metadata == s.metadata
            && t.desired.calibration
               == if a.Calibrated().Some? then a.Calibrated().value else s.desired.calibration
  {
    hide Judge, NewCommand;
  }

  lemma HandleKeepsOrigins(s: State, first: nat, q: Request, used: bool)
    requires Revisions(s) && Logs(s) && Origins(s, first)
    ensures Origins(Handled(s, q, used), first)
  {
    if Judge(s, q, used) == Accept {
      HandledCalibration(s, q, used);
      RecordsBehind(s.log.accepted, Accepted(q.id, q.kind, q.expected, q.patch), s.log.consumed, first);
    }
    hide Judge, LastAccepted, LastConsumed, RecordOf, NewDesired, NewRecord, NewCommand, AcceptedOk, ReceiptOk;
  }

  lemma ConsumeKeepsOrigins(s: State, first: nat)
    requires Inv(s, first) && s.mailbox.Some?
    ensures Origins(Consumed(s), first)
  {
    ConsumeShape(s);
    CommandIsRecord(s, first);
    hide Logs, RtpOk, Infos, Commands, Ownership, Genuine, LastAccepted, Consumed, RecordOf;
    assert Consumed(s).log.consumed[..|s.log.consumed|] == s.log.consumed;
  }

  /** The command in the mailbox carries the record of the last accepted mutation, if that has one. */
  lemma CommandIsRecord(s: State, first: nat)
    requires Ownership(s) && Revisions(s) && Commands(s) && Infos(s, first) && s.mailbox.Some?
    ensures var c, a := s.mailbox.value, s.log.accepted;
            && (IsCalibration(a, c.revision) <==> c.calibration.Some?)
            && (c.calibration.Some? ==> c.calibration.value.record == RecordOf(a, c.revision, first))
            && Consumed(s).log.consumed == s.log.consumed + [c.revision]
  {
    hide Genuine;
  }

  lemma HandleKeepsRtp(s: State, q: Request, used: bool)
    requires Ownership(s) && RtpOk(s)
    ensures RtpOk(Handled(s, q, used))
  {
  }

  lemma ConsumeKeepsRtp(s: State, first: nat)
    requires Ownership(s) && Commands(s) && RtpOk(s) && s.mailbox.Some?
    ensures RtpOk(Consumed(s))
  {
    var t := Consumed(s);
    assert t.log.render[..|s.log.render|] == s.log.render;
  }

  lemma AcknowledgeKeepsRtp(s: State)
    requires Ownership(s) && Commands(s) && RtpOk(s) && s.awaiting.Some?
    ensures RtpOk(Acknowledged(s, s.awaiting.value).(awaiting := None))
  {
  }

  lemma FailKeepsRtp(s: State)
    requires Ownership(s) && RtpOk(s)
    ensures RtpOk(Failed(s))
  {
  }

  lemma FlushKeepsRtp(s: State, late: bool)
    requires RtpOk(s)
    ensures RtpOk(Flushed(s, late))
  {
    FlushIsSettled(s, late);
    hide SwitchedOff, Flushed;
  }

  lemma FlushKeepsOrigins(s: State, first: nat, late: bool)
    requires Origins(s, first)
    ensures Origins(Flushed(s, late), first)
  {
    FlushIsSettled(s, late);
    hide RecordOf, LastAccepted, LastConsumed, Flushed;
  }

  lemma StepKeepsInv(s: State, first: nat, e: Event)
    requires Inv(s, first)
    ensures Inv(Step(s, e), first)
  {
    hide Ownership, Revisions, Commands, Infos, Logs, Consumed, Flushed, Handled, Failed, Acknowledged;
    if Enabled(s, e) {
      match e
      case Handle(q, used) =>
        HandleKeepsBase(s, first, q, used);
        HandleKeepsOrigins(s, first, q, used);
        HandleKeepsRtp(s, q, used);
      case Flush(late) =>
        FlushKeepsBase(s, first, late);
        FlushKeepsRtp(s, late);
        FlushKeepsOrigins(s, first, late);
      case Consume =>
        ConsumeKeepsBase(s, first);
        ConsumeKeepsOrigins(s, first);
        ConsumeKeepsRtp(s, first);
      case Acknowledge =>
        AcknowledgeKeepsBase(s, first);
        AcknowledgeKeepsRtp(s);
        assert Origins(Acknowledged(s, s.awaiting.value).(awaiting := None), first) by { SameOrigins(s, first); }
      case Fail =>
        FailKeepsBase(s, first);
        FailKeepsRtp(s);
        assert Origins(Failed(s), first) by { SameOrigins(s, first); }
      case _ => PublisherKeepsBase(s, first, e);
    }
  }

  lemma SameOrigins(s: State, first: nat)
    requires Origins(s, first)
    ensures Origins(Failed(s), first)
    ensures s.awaiting.Some? ==> Origins(Acknowledged(s, s.awaiting.value).(awaiting := None), first)
  {
  }

  lemma {:induction false} RunKeepsInv(s: State, first: nat, events: seq<Event>)
    requires Inv(s, first)
    ensures Inv(Run(s, events), first)
    decreases |events|
  {
    if events != [] {
      StepKeepsInv(s, first, events[0]);
      RunKeepsInv(Step(s, events[0]), first, events[1..]);
    }
  }

  // ----- what every run keeps -----

  /** A pending mutation has exactly one holder, else nothing is under way; the revisions are ordered; every
      accepted request that named a revision named the one just before, and every configuration named one; every
      receipt keeps its promise and no mutation has two; CameraInfo revisions never go back. */
  lemma EveryRun(ros: bool, quality: int, first: nat, events: seq<Event>)
    ensures var s := Run(Initial(ros, quality, first), events);
            && Ownership(s)
            && 1 <= s.appliedRevision <= s.nativeApplied <= s.desiredRevision
            && (forall n :: 0 <= n < |s.log.accepted| ==>
                  && (s.log.accepted[n].expected.Some? ==> s.log.accepted[n].expected.value == n + 1)
                  && (s.log.accepted[n].kind == Config ==> s.log.accepted[n].expected.Some?))
            && (forall i :: 0 <= i < |s.log.receipts| ==> ReceiptOk(s, s.log.receipts[i]))
            && (forall i, j :: 0 <= i < j < |s.log.receipts| ==>
                  s.log.receipts[i].revision < s.log.receipts[j].revision)
            && (forall i, j :: 0 <= i < j < |s.log.infos| ==> s.log.infos[i].revision <= s.log.infos[j].revision)
  {
    InitialInv(ros, quality, first);
    RunKeepsInv(Initial(ros, quality, first), first, events);
  }

  predicate Grows(s: State, t: State) {
    && s.log.accepted <= t.log.accepted && s.log.consumed <= t.log.consumed
    && s.log.receipts <= t.log.receipts && s.log.infos <= t.log.infos
    && s.appliedRevision <= t.appliedRevision && s.nativeApplied <= t.nativeApplied
    && s.desiredRevision <= t.desiredRevision
  }

  lemma FlushGrows(s: State, late: bool)
    requires Revisions(s)
    ensures Grows(s, Flushed(s, late))
  {
    FlushIsSettled(s, late);
    hide Flushed;
  }

  lemma HandleGrows(s: State, q: Request, used: bool)
    ensures Grows(s, Handled(s, q, used))
  {
    hide Judge, NewDesired, NewRecord, NewCommand;
  }

  lemma RenderGrows(s: State, e: Event)
    requires Ownership(s) && Revisions(s) && Enabled(s, e) && (e.Consume? || e.Acknowledge? || e.Fail?)
    ensures Grows(s, Fire(s, e))
  {
    hide Handled, Flushed;
  }

  lemma PublisherGrows(s: State, e: Event)
    requires Enabled(s, e) && (e.Register? || e.TakeInfo? || e.PublishInfo?)
    ensures Grows(s, Fire(s, e))
  {
    hide Handled, Flushed, Consumed, Failed, Acknowledged;
  }

  lemma FireGrows(s: State, e: Event)
    requires Ownership(s) && Revisions(s) && Enabled(s, e)
    ensures Grows(s, Fire(s, e))
  {
    hide Ownership, Revisions, Grows, Enabled;
    match e
    case Flush(late) => FlushGrows(s, late);
    case Handle(q, used) => HandleGrows(s, q, used);
    case Consume => RenderGrows(s, e);
    case Acknowledge => RenderGrows(s, e);
    case Fail => RenderGrows(s, e);
    case _ => PublisherGrows(s, e);
  }

  lemma StepGrows(s: State, first: nat, e: Event)
    requires Inv(s, first)
    ensures Grows(s, Step(s, e))
  {
    hide Infos, Logs, Commands, Ownership, Revisions, Origins, RtpOk, Fire, Enabled;
    if Enabled(s, e) { FireGrows(s, e); }
  }

  /** Histories are only extended and revisions never go back. */
  lemma {:induction false} RunGrows(s: State, first: nat, events: seq<Event>)
    requires Inv(s, first)
    ensures Grows(s, Run(s, events))
    decreases |events|
  {
    hide Inv, Step;
    if events != [] {
      StepGrows(s, first, events[0]);
      StepKeepsInv(s, first, events[0]);
      RunGrows(Step(s, events[0]), first, events[1..]);
    }
  }

  /** A deadline cancels only what was never consumed, and never will be. */
  lemma DeadlineIsFinal(ros: bool, quality: int, first: nat, events: seq<Event>, later: seq<Event>, i: nat)
    requires var s := Run(Initial(ros, quality, first), events);
             i < |s.log.receipts| && s.log.receipts[i].stage == DeadlineExceeded
    ensures var s := Run(Initial(ros, quality, first), events);
            s.log.receipts[i].revision !in Run(s, later).log.consumed
  {
    var s := Run(Initial(ros, quality, first), events);
    InitialInv(ros, quality, first);
    RunKeepsInv(Initial(ros, quality, first), first, events);
    RunKeepsInv(s, first, later);
    RunGrows(s, first, later);
    assert ReceiptOk(Run(s, later), Run(s, later).log.receipts[i]);
  }

  /** A completed calibration was published, as requested and with its revision. */
  lemma CompletedCalibrationWasPublished(ros: bool, quality: int, first: nat, events: seq<Event>, i: nat)
    requires var s := Run(Initial(ros, quality, first), events);
             i < |s.log.receipts| && s.log.receipts[i].stage == Completed
    ensures var s := Run(Initial(ros, quality, first), events);
            var r := s.log.receipts[i].revision;
            && 0 <= r - 2 < |s.log.accepted| && s.log.accepted[r - 2].requestId == s.log.receipts[i].requestId
            && (s.log.accepted[r - 2].Calibrated().Some? ==>
                  Calibration(s.log.accepted[r - 2].Calibrated().value, r) in s.log.infos)
  {
    InitialInv(ros, quality, first);
    RunKeepsInv(Initial(ros, quality, first), first, events);
    var s := Run(Initial(ros, quality, first), events);
    assert ReceiptOk(s, s.log.receipts[i]);
  }

  lemma {:induction false} LastAcceptedConsumed(accepted: seq<Accepted>, consumed: seq<nat>)
    requires Increasing(consumed, |accepted| + 1) && LastAccepted(accepted) in consumed
    ensures LastConsumed(accepted, consumed) == LastAccepted(accepted)
    decreases |consumed|
  {
    var last := consumed[|consumed| - 1];
    if last != LastAccepted(accepted) {
      var init := consumed[..|consumed| - 1];
      var k :| 0 <= k < |consumed| && consumed[k] == LastAccepted(accepted);
      assert init[k] == LastAccepted(accepted) && consumed[k] < last;
      assert !IsCalibration(accepted, last);
      LastAcceptedConsumed(accepted, init);
    }
  }

  /** At each completion the applied configuration has the render side's quality. It has the state of RTP exactly
      if the last keyframe command since the last start, stop or failure, if there is one, carried active, and the
      calibration in use exactly if none was accepted, the last accepted one was consumed, or the last consumed one
      is the same. */
  lemma CompletionAgrees(ros: bool, quality: int, first: nat, events: seq<Event>, late: bool)
    requires Completes(Run(Initial(ros, quality, first), events))
    ensures var s := Run(Initial(ros, quality, first), events);
            var t := Flushed(s, late);
            var accepted, consumed := LastAccepted(s.log.accepted), LastConsumed(s.log.accepted, s.log.consumed);
            && t.pending.None? && t.appliedRevision == s.pending.value.revision
            && t.applied.quality == t.quality
            && (t.applied.active == t.desiredActive <==> !SwitchedOff(s.log.render))
            && (t.applied.calibration == t.metadata.record
                <==> accepted == 0 || accepted in s.log.consumed
                     || RecordOf(s.log.accepted, accepted, first) == RecordOf(s.log.accepted, consumed, first))
  {
    InitialInv(ros, quality, first);
    RunKeepsInv(Initial(ros, quality, first), first, events);
    CompletionState(Run(Initial(ros, quality, first), events), first, late);
  }

  lemma CompletionState(s: State, first: nat, late: bool)
    requires Inv(s, first) && Completes(s)
    ensures var t := Flushed(s, late);
            var accepted, consumed := LastAccepted(s.log.accepted), LastConsumed(s.log.accepted, s.log.consumed);
            && t.pending.None? && t.appliedRevision == s.pending.value.revision
            && t.applied.quality == t.quality
            && (t.applied.active == t.desiredActive <==> !SwitchedOff(s.log.render))
            && (t.applied.calibration == t.metadata.record
                <==> accepted == 0 || accepted in s.log.consumed
                     || RecordOf(s.log.accepted, accepted, first) == RecordOf(s.log.accepted, consumed, first))
  {
    hide Infos, SwitchedOff;
    if LastAccepted(s.log.accepted) in s.log.consumed {
      LastAcceptedConsumed(s.log.accepted, s.log.consumed);
    }
  }

  /** A keyframe request carries the configured active state: consuming it leaves RTP on exactly if that is
      on. */
  lemma KeyframeRequestKeepsRtp(ros: bool, quality: int, first: nat, events: seq<Event>)
    requires var s := Run(Initial(ros, quality, first), events);
             s.mailbox.Some? && s.mailbox.value.kind == Keyframe
    ensures var s := Run(Initial(ros, quality, first), events);
            Consumed(s).desiredActive == s.desired.active
  {
    InitialInv(ros, quality, first);
    RunKeepsInv(Initial(ros, quality, first), first, events);
  }

  /** Of all requests that name one revision at most one is ever accepted. */
  lemma OneWinnerPerRevision(ros: bool, quality: int, first: nat, events: seq<Event>, m: nat, n: nat)
    requires var a := Run(Initial(ros, quality, first), events).log.accepted;
             m < |a| && n < |a| && a[m].expected.Some? && a[m].expected == a[n].expected
    ensures m == n
  {
    EveryRun(ros, quality, first, events);
  }

  // ----- which requests are accepted -----

  predicate ValidPatch(p: Patch, ros: bool) {
    && p.fields > 0 && !p.unknown && !p.startupBinding
    && (p.quality.Some? ==> 50 <= p.quality.value <= 100)
    && (p.calibration.Some? ==> ros && p.calibration.value.Some?)
  }

  /** Fields, persistence and the revision a configuration has to name. */
  predicate WellFormed(q: Request) { !q.unknown && !q.persist && (q.kind == Config ==> q.expected.Some?) }

  /** What is accepted, and what is refused with which answer. */
  lemma JudgeExactly(s: State, q: Request, used: bool)
    ensures var v, p := Judge(s, q, used), q.patch;
            var current := WellFormed(q) && (q.expected.Some? ==> q.expected.value == s.desiredRevision);
            var free := current && s.pending.None?;
            var admissible := free && !(q.kind == Keyframe && !s.nativeActive) && !used;
            && (v == Accept <==> admissible && (q.kind == Config ==> ValidPatch(p, s.ros)))
            && (v == Busy <==> current && s.pending.Some?)
            && (v == Conflict <==> WellFormed(q) && (!current || (free && !admissible)))
            && (v == RestartRequired <==>
                  admissible && q.kind == Config && p.fields > 0 && !p.unknown && p.startupBinding)
            && (v == Unavailable <==>
                  && admissible && q.kind == Config && p.fields > 0 && !p.unknown && !p.startupBinding
                  && (p.quality.Some? ==> 50 <= p.quality.value <= 100) && p.calibration.Some? && !s.ros)
  {
  }

  predicate AllValid(s: State) {
    forall n :: 0 <= n < |s.log.accepted| && s.log.accepted[n].kind == Config ==>
      ValidPatch(s.log.accepted[n].patch, s.ros)
  }

  lemma StepKeepsValid(s: State, e: Event)
    requires AllValid(s)
    ensures AllValid(Step(s, e)) && Step(s, e).ros == s.ros
  {
    hide Consumed, Failed, Acknowledged, Judge, ValidPatch, NewDesired, NewCommand;
    match e
    case Handle(q, used) => JudgeExactly(s, q, used);
    case Flush(late) =>
      FlushIsSettled(s, late);
      hide Flushed;
    case _ => OtherKeepsAccepted(s, e);
  }

  lemma OtherKeepsAccepted(s: State, e: Event)
    requires !e.Handle? && !e.Flush?
    ensures Step(s, e).log.accepted == s.log.accepted && Step(s, e).ros == s.ros
  {
    hide Handled, Flushed;
  }

  lemma {:induction false} RunKeepsValid(s: State, events: seq<Event>)
    requires AllValid(s)
    ensures AllValid(Run(s, events)) && Run(s, events).ros == s.ros
    decreases |events|
  {
    hide Step, AllValid;
    if events != [] {
      StepKeepsValid(s, events[0]);
      RunKeepsValid(Step(s, events[0]), events[1..]);
    }
  }

  /** In every run, every accepted configuration is valid: a quality in its range, a calibration only where CameraInfo
      can be published. */
  lemma AcceptedAreValid(ros: bool, quality: int, first: nat, events: seq<Event>, n: nat)
    requires var a := Run(Initial(ros, quality, first), events).log.accepted; n < |a| && a[n].kind == Config
    ensures ValidPatch(Run(Initial(ros, quality, first), events).log.accepted[n].patch, ros)
  {
    RunKeepsValid(Initial(ros, quality, first), events);
  }

  // ----- what was requested is what is configured and used -----

  /** The quality of the last accepted configuration that named one. */
  function LastQuality(accepted: seq<Accepted>, first: int): int {
    if accepted == [] then first
    else if accepted[|accepted| - 1].Quality().Some? then accepted[|accepted| - 1].Quality().value
    else LastQuality(accepted[..|accepted| - 1], first)
  }

  /** Whether the last accepted start or stop was a start. */
  function LastActive(accepted: seq<Accepted>): bool {
    if accepted == [] then false
    else match accepted[|accepted| - 1].kind
         case Start => true
         case Stop => false
         case _ => LastActive(accepted[..|accepted| - 1])
  }

  predicate IsOfKind(accepted: seq<Accepted>, r: nat, kind: Kind) {
    2 <= r <= |accepted| + 1 && accepted[r - 2].kind == kind
  }

  /** Whether the last start or stop that was applied was a start, and nothing was given up since. */
  function NativeOn(render: seq<RenderEvent>, accepted: seq<Accepted>): bool {
    render != []
    && var before := render[..|render| - 1];
       match render[|render| - 1]
       case Took(_) => NativeOn(before, accepted)
       case GaveUp(_) => false
       case Applied(r) => IsOfKind(accepted, r, Start) || (!IsOfKind(accepted, r, Stop) && NativeOn(before, accepted))
  }

  /** How many mutations were accepted up to the one consumed last. */
  function Taken(consumed: seq<nat>): int {
    var last: int := if consumed == [] then 1 else consumed[|consumed| - 1];
    last - 1
  }

  predicate Known(render: seq<RenderEvent>, bound: nat) {
    forall e :: e in render ==> (e.Applied? || e.GaveUp? ==> e.revision <= bound)
  }

  /** The configuration is what was requested last, and the render side uses what it was when the last consumed
      mutation was accepted. */
  predicate Wishes(s: State, quality: int) {
    && s.desired.quality == LastQuality(s.log.accepted, quality) && s.desired.active == LastActive(s.log.accepted)
    && 0 <= Taken(s.log.consumed) <= |s.log.accepted|
    && s.quality == LastQuality(s.log.accepted[..Taken(s.log.consumed)], quality)
  }

  /** Only starts and keyframe requests are given up. */
  predicate Fallible(render: seq<RenderEvent>, accepted: seq<Accepted>) {
    forall e :: e in render && e.GaveUp? ==>
      IsOfKind(accepted, e.revision, Start) || IsOfKind(accepted, e.revision, Keyframe)
  }

  predicate NativeOk(s: State) {
    && s.nativeActive == NativeOn(s.log.render, s.log.accepted) && Known(s.log.render, s.desiredRevision)
    && Fallible(s.log.render, s.log.accepted)
    && (s.nativeFailed != 0 ==> GaveUp(s.nativeFailed) in s.log.render)
    && (s.pending.Some? ==>
          && (GaveUp(s.pending.value.revision) in s.log.render ==> s.nativeFailed == s.pending.value.revision)
          && (s.pending.value.revision in s.log.acknowledged ==> s.nativeApplied == s.pending.value.revision))
  }

  /** The calibration in use is published, or will be. */
  predicate InfoOwed(s: State) {
    s.metadata.revision > 1 ==>
      s.metadata in s.log.infos || s.publishing == Some(s.metadata) || s.infoPending
  }

  predicate Requested(s: State, quality: int) { Wishes(s, quality) && NativeOk(s) && InfoOwed(s) }

  lemma {:induction false} KindsStay(render: seq<RenderEvent>, accepted: seq<Accepted>, a: Accepted)
    requires Known(render, |accepted| + 1)
    ensures NativeOn(render, accepted + [a]) == NativeOn(render, accepted)
    decreases |render|
  {
    if render != [] {
      KindsStay(render[..|render| - 1], accepted, a);
    }
  }

  lemma HandleKeepsRequested(s: State, first: nat, quality: int, q: Request, used: bool)
    requires Inv(s, first) && Requested(s, quality)
    ensures Requested(Handled(s, q, used), quality)
  {
    hide Ownership, Commands, Infos, Origins, RtpOk, PatchVerdict;
    var t := Handled(s, q, used);
    if Judge(s, q, used) == Accept {
      var n := |s.log.accepted|;
      var a := t.log.accepted[n];
      KindsStay(s.log.render, s.log.accepted, a);
      assert t.log.accepted[..n] == s.log.accepted;
      assert t.log.accepted[..Taken(s.log.consumed)] == s.log.accepted[..Taken(s.log.consumed)];
    }
  }

  lemma FlushKeepsRequested(s: State, quality: int, late: bool)
    requires Requested(s, quality)
    ensures Requested(Flushed(s, late), quality)
  {
    FlushIsSettled(s, late);
    hide Flushed, LastQuality, LastActive, NativeOn;
  }

  lemma ConsumeKeepsWishes(s: State, first: nat, quality: int)
    requires Inv(s, first) && Wishes(s, quality) && s.mailbox.Some?
    ensures Wishes(Consumed(s), quality)
  {
    hide Infos, Origins, RtpOk, Logs, LastQuality, LastActive;
    var t := Consumed(s);
    assert Taken(t.log.consumed) == |s.log.accepted|;
    assert s.log.accepted[..|s.log.accepted|] == s.log.accepted;
  }

  /** The pending command is applied. */
  lemma ApplyKeepsNative(s: State, c: Command)
    requires NativeOk(s) && s.pending.Some? && s.pending.value.revision == c.revision <= s.desiredRevision
    requires IsOfKind(s.log.accepted, c.revision, c.kind)
    ensures NativeOk(Acknowledged(s, c))
  {
    var t := Acknowledged(s, c);
    assert t.log.render[..|s.log.render|] == s.log.render;
  }

  /** A command under way is of the kind that was requested. */
  lemma CommandKinds(s: State, first: nat)
    requires Inv(s, first)
    ensures s.mailbox.Some? ==>
              s.pending.Some? && s.pending.value.revision == s.mailbox.value.revision == s.desiredRevision
              && IsOfKind(s.log.accepted, s.mailbox.value.revision, s.mailbox.value.kind)
    ensures s.awaiting.Some? ==>
              s.pending.Some? && s.pending.value.revision == s.awaiting.value.revision == s.desiredRevision
              && IsOfKind(s.log.accepted, s.awaiting.value.revision, s.awaiting.value.kind)
  {
    hide Infos, Origins, RtpOk, Logs;
  }

  lemma TakeKeepsNative(s: State)
    requires NativeOk(s) && InfoOwed(s) && s.mailbox.Some?
    ensures NativeOk(TakenCommand(s)) && InfoOwed(TakenCommand(s))
  {
    var t := TakenCommand(s);
    assert t.log.render[..|s.log.render|] == s.log.render;
  }

  lemma ConsumeKeepsNative(s: State, first: nat)
    requires Inv(s, first) && NativeOk(s) && InfoOwed(s) && s.mailbox.Some?
    ensures NativeOk(Consumed(s)) && InfoOwed(Consumed(s))
  {
    hide Inv, NativeOn, Acknowledged;
    TakeKeepsNative(s);
    CommandKinds(s, first);
    if s.mailbox.value.kind == Config {
      ApplyKeepsNative(TakenCommand(s), s.mailbox.value);
      SameInfo(TakenCommand(s), s.mailbox.value);
    }
  }

  lemma SameInfo(s: State, c: Command)
    requires InfoOwed(s)
    ensures InfoOwed(Acknowledged(s, c))
  {
  }

  lemma AcknowledgeKeepsRequested(s: State, first: nat, quality: int)
    requires Inv(s, first) && Requested(s, quality) && s.awaiting.Some?
    ensures Requested(Acknowledged(s, s.awaiting.value).(awaiting := None), quality)
  {
    hide Inv, LastQuality, LastActive, NativeOn;
    CommandKinds(s, first);
    ApplyKeepsNative(s, s.awaiting.value);
  }

  lemma FailKeepsRequested(s: State, first: nat, quality: int)
    requires Inv(s, first) && Requested(s, quality)
    ensures Requested(Failed(s), quality)
  {
    hide Infos, Origins, RtpOk, LastQuality, LastActive;
    assert Failed(s).log.render != s.log.render ==>
             Failed(s).log.render[|s.log.render|] == GaveUp(Failed(s).nativeFailed);
  }

  lemma PublisherKeepsRequested(s: State, quality: int, e: Event)
    requires Requested(s, quality) && Enabled(s, e) && (e.Register? || e.TakeInfo? || e.PublishInfo?)
    ensures Requested(Fire(s, e), quality)
  {
    hide Handled, Flushed, Consumed, Failed, Acknowledged, LastQuality, LastActive, NativeOn;
  }

  lemma StepKeepsRequested(s: State, first: nat, quality: int, e: Event)
    requires Inv(s, first) && Requested(s, quality)
    ensures Requested(Step(s, e), quality)
  {
    hide Inv, Requested, Handled, Flushed, Consumed, Failed, Acknowledged;
    if Enabled(s, e) {
      match e
      case Handle(q, used) => HandleKeepsRequested(s, first, quality, q, used);
      case Flush(late) => FlushKeepsRequested(s, quality, late);
      case Consume => ConsumeKeepsRequested(s, first, quality);
      case Acknowledge => AcknowledgeKeepsRequested(s, first, quality);
      case Fail => FailKeepsRequested(s, first, quality);
      case _ => PublisherKeepsRequested(s, quality, e);
    }
  }

  lemma ConsumeKeepsRequested(s: State, first: nat, quality: int)
    requires Inv(s, first) && Requested(s, quality) && s.mailbox.Some?
    ensures Requested(Consumed(s), quality)
  {
    hide Inv, Wishes, NativeOk, InfoOwed, Consumed;
    ConsumeKeepsWishes(s, first, quality);
    ConsumeKeepsNative(s, first);
  }

  lemma {:induction false} RunKeepsRequested(s: State, first: nat, quality: int, events: seq<Event>)
    requires Inv(s, first) && Requested(s, quality)
    ensures Inv(Run(s, events), first) && Requested(Run(s, events), quality)
    decreases |events|
  {
    hide Inv, Requested, Step;
    if events != [] {
      StepKeepsInv(s, first, events[0]);
      StepKeepsRequested(s, first, quality, events[0]);
      RunKeepsRequested(Step(s, events[0]), first, quality, events[1..]);
    }
  }

  lemma InitialRequested(ros: bool, quality: int, first: nat)
    ensures Requested(Initial(ros, quality, first), quality)
  {
  }

  /** In every run: the configured quality and state are those of the last accepted requests that named one; snapshots
      have the quality that was configured when the mutation consumed last was accepted; the applied state is that of
      the start or stop applied last, unless a start or a keyframe request was given up since, and nothing else is
      given up; and the calibration in use is published, or will be. */
  lemma RequestsTakeEffect(ros: bool, quality: int, first: nat, events: seq<Event>)
    ensures var s := Run(Initial(ros, quality, first), events);
            && s.desired.quality == LastQuality(s.log.accepted, quality)
            && s.desired.active == LastActive(s.log.accepted)
            && s.desired.calibration == RecordOf(s.log.accepted, LastAccepted(s.log.accepted), first)
            && 0 <= Taken(s.log.consumed) <= |s.log.accepted|
            && s.quality == LastQuality(s.log.accepted[..Taken(s.log.consumed)], quality)
            && s.nativeActive == NativeOn(s.log.render, s.log.accepted) && Fallible(s.log.render, s.log.accepted)
            && InfoOwed(s)
  {
    InitialInv(ros, quality, first);
    InitialRequested(ros, quality, first);
    RunKeepsRequested(Initial(ros, quality, first), first, quality, events);
    hide Run, Base, RtpOk, LastQuality, LastActive, RecordOf, LastAccepted, LastConsumed, NativeOn, InfoOwed, Fallible;
  }

  // ----- each publication of CameraInfo has a cause -----

  /** Publications made, under way, and asked for. */
  function Publications(s: State): nat {
    |s.log.infos| + (if s.publishing.Some? then 1 else 0) + (if s.infoPending then 1 else 0)
  }

  /** A consumed command with a calibration, or the publisher's start, asks for one. */
  predicate AsksForInfo(s: State, e: Event) {
    Enabled(s, e) && (e.Register? || (e.Consume? && s.mailbox.value.calibration.Some?))
  }

  /** How often a run asked while nothing was owed; what is asked for twice before it is taken is published once. */
  function Causes(s: State, events: seq<Event>): nat
    decreases |events|
  {
    if events == [] then 0
    else (if AsksForInfo(s, events[0]) && !s.infoPending then 1 else 0) + Causes(Step(s, events[0]), events[1..])
  }

  lemma HandlePublishesNothing(s: State, q: Request, used: bool)
    ensures Publications(Handled(s, q, used)) == Publications(s)
  {
    hide Judge, NewDesired, NewRecord, NewCommand;
  }

  lemma FlushPublishesNothing(s: State, late: bool)
    ensures Publications(Flushed(s, late)) == Publications(s)
  {
    FlushIsSettled(s, late);
    hide Flushed;
  }

  lemma AnswerPublishesNothing(s: State, c: Command)
    ensures Publications(Acknowledged(s, c).(awaiting := None)) == Publications(s)
  {
  }

  lemma FailurePublishesNothing(s: State)
    ensures Publications(Failed(s)) == Publications(s)
  {
  }

  lemma StepPublishes(s: State, e: Event)
    ensures Publications(Step(s, e)) == Publications(s) + (if AsksForInfo(s, e) && !s.infoPending then 1 else 0)
  {
    hide Handled, Flushed, Failed, Acknowledged, Consumed;
    match e
    case Consume => if s.mailbox.Some? { ConsumeShape(s); }
    case Handle(q, used) => HandlePublishesNothing(s, q, used);
    case Flush(late) => FlushPublishesNothing(s, late);
    case Acknowledge => if s.awaiting.Some? { AnswerPublishesNothing(s, s.awaiting.value); }
    case Fail => FailurePublishesNothing(s);
    case _ =>
  }

  lemma {:induction false} RunPublishes(s: State, events: seq<Event>)
    ensures Publications(Run(s, events)) == Publications(s) + Causes(s, events)
    decreases |events|
  {
    hide Step, AsksForInfo, Publications;
    if events != [] {
      StepPublishes(s, events[0]);
      RunPublishes(Step(s, events[0]), events[1..]);
    }
  }

  /** In every run there are as many publications, made, under way or owed, as were asked for; and behind each asking
      one more is made than had begun before it, or is under way or owed. */
  lemma InfosHaveCauses(ros: bool, quality: int, first: nat, before: seq<Event>, e: Event, later: seq<Event>)
    ensures var s := Run(Initial(ros, quality, first), before);
            && Publications(s) == Causes(Initial(ros, quality, first), before)
            && (AsksForInfo(s, e) ==>
                  Publications(Run(Step(s, e), later))
                    >= |s.log.infos| + (if s.publishing.Some? then 1 else 0) + 1)
  {
    var s := Run(Initial(ros, quality, first), before);
    RunPublishes(Initial(ros, quality, first), before);
    StepPublishes(s, e);
    RunPublishes(Step(s, e), later);
    hide Run, Step, Causes, AsksForInfo;
  }

  /** What a completion reports as applied, over the requests: the quality and the calibration asked for last, and
      the state of the start or stop applied last. */
  lemma CompletionIsAsRequested(ros: bool, quality: int, first: nat, events: seq<Event>, late: bool)
    requires Completes(Run(Initial(ros, quality, first), events))
    ensures var s := Run(Initial(ros, quality, first), events);
            var t := Flushed(s, late);
            && t.applied.quality == LastQuality(s.log.accepted, quality)
            && t.applied.calibration == RecordOf(s.log.accepted, LastAccepted(s.log.accepted), first)
            && t.applied.active == NativeOn(s.log.render, s.log.accepted)
  {
    RequestsTakeEffect(ros, quality, first, events);
    hide Run, Completes, LastQuality, LastActive, RecordOf, LastAccepted, LastConsumed, NativeOn, InfoOwed;
    CompletionApplies(Run(Initial(ros, quality, first), events), late);
  }

  lemma CompletionApplies(s: State, late: bool)
    requires Completes(s)
    ensures Flushed(s, late).applied == s.desired.(active := s.nativeActive)
  {
  }

  /** The pending mutation was applied, and its calibration, if it has one, was published. */
  predicate Done(s: State, r: nat) {
    && r in s.log.acknowledged && 2 <= r <= |s.log.accepted| + 1
    && (s.log.accepted[r - 2].Calibrated().Some? ==>
          Calibration(s.log.accepted[r - 2].Calibrated().value, r) in s.log.infos)
  }

  /** How a flush answers the pending mutation, over the histories: with a failure if it was given up, as completed
      if it is done, with a deadline error if the caller is late and it was never consumed, and else not at all. */
  lemma FlushAnswers(ros: bool, quality: int, first: nat, events: seq<Event>, late: bool)
    requires Run(Initial(ros, quality, first), events).pending.Some?
    ensures var s := Run(Initial(ros, quality, first), events);
            var t, r := Flushed(s, late), |s.log.accepted| + 1;
            && s.log.accepted != []
            && var id := s.log.accepted[r - 2].requestId;
               if GaveUp(r) in s.log.render then t.log.receipts == s.log.receipts + [Receipt(r, id, EncoderFailed)]
               else if Done(s, r) then t.log.receipts == s.log.receipts + [Receipt(r, id, Completed)]
               else if late && r !in s.log.consumed then
                 t.log.receipts == s.log.receipts + [Receipt(r, id, DeadlineExceeded)]
               else t == s
  {
    hide Inv, Requested, Run, Flushed, Done;
    InitialInv(ros, quality, first);
    InitialRequested(ros, quality, first);
    RunKeepsRequested(Initial(ros, quality, first), first, quality, events);
    FlushAnswer(Run(Initial(ros, quality, first), events), first, quality, late);
  }

  lemma FlushAnswer(s: State, first: nat, quality: int, late: bool)
    requires Inv(s, first) && Requested(s, quality) && s.pending.Some?
    ensures var t, r := Flushed(s, late), |s.log.accepted| + 1;
            && s.log.accepted != []
            && var id := s.log.accepted[r - 2].requestId;
               if GaveUp(r) in s.log.render then t.log.receipts == s.log.receipts + [Receipt(r, id, EncoderFailed)]
               else if Done(s, r) then t.log.receipts == s.log.receipts + [Receipt(r, id, Completed)]
               else if late && r !in s.log.consumed then
                 t.log.receipts == s.log.receipts + [Receipt(r, id, DeadlineExceeded)]
               else t == s
  {
    PendingIsLast(s, first);
    if s.nativeFailed != s.pending.value.revision { DoneCompletes(s, first, quality); }
    GivenUp(s, first, quality);
    hide Inv, Requested, Done, Completes;
  }

  lemma GivenUp(s: State, first: nat, quality: int)
    requires Inv(s, first) && Requested(s, quality) && s.pending.Some?
    ensures s.nativeFailed == s.pending.value.revision <==> GaveUp(s.pending.value.revision) in s.log.render
  {
    hide Infos, Commands, Origins, RtpOk, Logs, Wishes, NativeOn;
  }

  lemma PendingIsLast(s: State, first: nat)
    requires Inv(s, first) && s.pending.Some?
    ensures var p, n := s.pending.value, |s.log.accepted|;
            && n > 0 && p.revision == n + 1 && s.log.accepted[n - 1].requestId == p.requestId
            && (p.revision in s.log.consumed <==> s.mailbox.None?)
            && (s.mailbox.Some? ==> s.mailbox.value.revision == p.revision)
  {
    hide Infos, Commands, Origins, RtpOk, ReceiptOk;
  }

  lemma DoneCompletes(s: State, first: nat, quality: int)
    requires Inv(s, first) && Requested(s, quality) && s.pending.Some? && s.nativeFailed != s.pending.value.revision
    ensures Done(s, s.pending.value.revision) <==> Completes(s)
  {
    hide Commands, Origins, RtpOk, ReceiptOk, Wishes;
    if Completes(s) { CompletionPromise(s, first); }
  }

  // ----- after a stop -----

  /** RTP is off, and only a start command can turn it on. */
  predicate Stopped(s: State) {
    && !s.desiredActive && !s.nativeActive && (s.awaiting.Some? ==> s.awaiting.value.kind == Stop)
    && (s.mailbox.Some? ==>
          s.mailbox.value.kind != Keyframe && (s.mailbox.value.kind != Start ==> !s.mailbox.value.active))
  }

  lemma StopAcknowledged(s: State, first: nat)
    requires Inv(s, first) && s.awaiting.Some? && s.awaiting.value.kind == Stop
    ensures Stopped(Step(s, Acknowledge))
  {
    hide Logs, Infos;
  }

  /** Other commands are consumed in between, but RTP stays off until a start is. */
  lemma StoppedStaysStopped(s: State, first: nat, e: Event)
    requires Inv(s, first) && Stopped(s)
    requires !(e.Consume? && s.mailbox.Some? && s.mailbox.value.kind == Start)
    ensures !Step(s, e).desiredActive
    ensures Stopped(Step(s, e))
  {
    hide Logs, Infos;
  }

  // ----- two surprises -----

  lemma RunFour(s: State, a: Event, b: Event, c: Event, d: Event, rest: seq<Event>)
    ensures Run(s, [a, b, c, d] + rest) == Run(Step(Step(Step(Step(s, a), b), c), d), rest)
  {
    hide Step;
    var all := [a, b, c, d] + rest;
    assert all[1..] == [b, c, d] + rest && ([b, c, d] + rest)[1..] == [c, d] + rest;
    assert ([c, d] + rest)[1..] == [d] + rest && ([d] + rest)[1..] == rest;
    var t := Step(Step(s, a), b);
    assert Run(s, all) == Run(Step(s, a), [b, c, d] + rest);
    assert Run(Step(s, a), [b, c, d] + rest) == Run(t, [c, d] + rest);
    assert Run(t, [c, d] + rest) == Run(Step(t, c), [d] + rest);
  }

  const NO_PATCH := Patch(0, false, false, None, None)

  const CALIBRATE := Request("a", Config, false, false, Some(1), Patch(1, false, false, None, Some(Some(7))))
  const RETOUCH := Request("b", Config, false, false, Some(2), Patch(1, false, false, Some(60), None))

  /** The calibration has expired in the mailbox. */
  function Expired(): State {
    Initial(true, 90, 5).(
      desiredRevision := 2, desired := Configuration(false, 90, 7),
      log := History([Accepted("a", Config, Some(1), CALIBRATE.patch)], [], [], [],
                     [Receipt(2, "a", DeadlineExceeded)], []))
  }

  lemma ReachExpired()
    ensures Step(Step(Initial(true, 90, 5), Handle(CALIBRATE, false)), Flush(true)) == Expired()
  {
    var s := Step(Initial(true, 90, 5), Handle(CALIBRATE, false));
    assert s.log.accepted == [Accepted("a", Config, Some(1), CALIBRATE.patch)];
    assert [] + [Receipt(2, "a", DeadlineExceeded)] == [Receipt(2, "a", DeadlineExceeded)];
  }

  lemma RetouchCompletes()
    ensures var s := Step(Step(Step(Expired(), Handle(RETOUCH, false)), Consume), Flush(false));
            && s.applied.calibration == 7 && s.metadata.record == 5
            && s.log.receipts == [Receipt(2, "a", DeadlineExceeded), Receipt(3, "b", Completed)]
  {
    var s := Step(Step(Expired(), Handle(RETOUCH, false)), Consume);
    assert s.nativeApplied == 3 && Completes(s) && s.desired.calibration == 7 && s.metadata.record == 5;
    assert s.log.receipts == [Receipt(2, "a", DeadlineExceeded)];
  }

  /** A calibration expires unconsumed; the next success reports it as applied. */
  lemma LostCalibrationIsReported()
    ensures var s := Run(Initial(true, 90, 5), [Handle(CALIBRATE, false), Flush(true), Handle(RETOUCH, false), Consume]
                                              + [Flush(false)]);
            && s.applied.calibration == 7 && s.metadata.record == 5
            && s.log.receipts == [Receipt(2, "a", DeadlineExceeded), Receipt(3, "b", Completed)]
  {
    hide Step;
    RunFour(Initial(true, 90, 5), Handle(CALIBRATE, false), Flush(true), Handle(RETOUCH, false), Consume,
            [Flush(false)]);
    ReachExpired();
    RetouchCompletes();
    assert [Flush(false)][1..] == [];
  }

  const START := Request("a", Start, false, false, None, NO_PATCH)
  const STOP := START.(id := "b", kind := Stop)
  const KEYFRAME := START.(id := "c", kind := Keyframe)

  /** The state behind an acknowledged start. */
  function Started(): State {
    Initial(false, 90, 5).(
      desiredRevision := 2, appliedRevision := 2, desired := Configuration(true, 90, 5),
      applied := Configuration(true, 90, 5), desiredActive := true, nativeActive := true, nativeApplied := 2,
      log := History([Accepted("a", Start, None, NO_PATCH)], [2],
                     [Took(Command(2, true, 90, false, None, Start)), Applied(2)], [2],
                     [Receipt(2, "a", Completed)], []))
  }

  lemma ReachStarted(rest: seq<Event>)
    ensures Run(Initial(false, 90, 5), [Handle(START, false), Consume, Acknowledge, Flush(false)] + rest)
         == Run(Started(), rest)
  {
    hide Run;
    RunFour(Initial(false, 90, 5), Handle(START, false), Consume, Acknowledge, Flush(false), rest);
    var s := Step(Initial(false, 90, 5), Handle(START, false));
    assert s.log.accepted == [Accepted("a", Start, None, NO_PATCH)];
    var t := Step(Step(s, Consume), Acknowledge);
    assert t.log.consumed == [2] && t.log.acknowledged == [2] && Completes(t);
    assert Step(t, Flush(false)) == Started();
  }

  /** A stop expired unconsumed, and the keyframe request that followed was consumed. */
  function SwitchedOffState(): State {
    Started().(
      desiredRevision := 4, desired := Configuration(false, 90, 5), desiredActive := false,
      pending := Some(Pending(4, "c", Keyframe, false)),
      awaiting := Some(Command(4, false, 90, true, None, Keyframe)),
      log := History([Accepted("a", Start, None, NO_PATCH), Accepted("b", Stop, None, NO_PATCH),
                      Accepted("c", Keyframe, None, NO_PATCH)], [2, 4],
                     [Took(Command(2, true, 90, false, None, Start)), Applied(2),
                      Took(Command(4, false, 90, true, None, Keyframe))],
                     [2], [Receipt(2, "a", Completed), Receipt(3, "b", DeadlineExceeded)], []))
  }

  lemma ReachSwitchedOff(rest: seq<Event>)
    ensures Run(Started(), [Handle(STOP, false), Flush(true), Handle(KEYFRAME, false), Consume] + rest)
         == Run(SwitchedOffState(), rest)
  {
    hide Run;
    RunFour(Started(), Handle(STOP, false), Flush(true), Handle(KEYFRAME, false), Consume, rest);
    var s := Step(Step(Started(), Handle(STOP, false)), Flush(true));
    assert s.pending.None? && s.nativeActive && !s.desired.active;
    assert s.log.receipts == [Receipt(2, "a", Completed), Receipt(3, "b", DeadlineExceeded)];
    var t := Step(s, Handle(KEYFRAME, false));
    assert t.log.accepted == SwitchedOffState().log.accepted;
    assert Step(t, Consume) == SwitchedOffState();
  }

  /** A stop expires unconsumed; the keyframe request that follows switches RTP off, and completes with a
      configuration that says active, without any stop being acknowledged. */
  lemma KeyframeRequestStops()
    ensures var s := Run(Initial(false, 90, 5), [Handle(START, false), Consume, Acknowledge, Flush(false)]
                                               + ([Handle(STOP, false), Flush(true), Handle(KEYFRAME, false), Consume]
                                                  + [Acknowledge, Flush(false)]));
            && Started().desiredActive && !s.desiredActive && s.applied.active && s.log.acknowledged == [2, 4]
            && s.log.receipts == [Receipt(2, "a", Completed), Receipt(3, "b", DeadlineExceeded),
                                  Receipt(4, "c", Completed)]
  {
    var rest := [Acknowledge, Flush(false)];
    ReachStarted([Handle(STOP, false), Flush(true), Handle(KEYFRAME, false), Consume] + rest);
    ReachSwitchedOff(rest);
    var s := Step(SwitchedOffState(), Acknowledge);
    assert Completes(s) && s.log.acknowledged == [2, 4];
    assert rest[1..] == [Flush(false)] && rest[1..][1..] == [];
    assert Run(SwitchedOffState(), rest) == Run(s, [Flush(false)]) == Step(s, Flush(false));
  }

  // ----- the methods -----

  lemma PlainDesired(s: State, q: Request)
    requires q.kind != Config
    ensures NewDesired(s, q) == (if q.kind == Keyframe then s.desired else s.desired.(active := q.kind == Start))
    ensures NewRecord(q) == None
  {
  }

  lemma AdmittedIs(s: State, q: Request, desired: Configuration, record: Option<nat>)
    requires Judge(s, q, false) == Accept && desired == NewDesired(s, q) && record == NewRecord(q)
    ensures var r := s.desiredRevision + 1;
            Handled(s, q, false)
            == s.(desiredRevision := r, desired := desired, pending := Some(Pending(r, q.id, q.kind, record.Some?)),
                  mailbox := Some(NewCommand(s, q)), log := Handled(s, q, false).log)
  {
    hide Judge, NewDesired, NewRecord, NewCommand;
  }

  lemma CommandIs(s: State, q: Request, desired: Configuration, record: Option<nat>, active: bool,
                  metadata: Option<Calibration>)
    requires desired == NewDesired(s, q) && record == NewRecord(q)
    requires active == if q.kind == Config then s.desiredActive else desired.active
    requires metadata == if record.Some? then Some(Calibration(record.value, s.desiredRevision + 1)) else None
    ensures NewCommand(s, q)
         == Command(s.desiredRevision + 1, active, desired.quality, q.kind == Keyframe, metadata, q.kind)
  {
    hide NewDesired, NewRecord;
  }

  /** The control fields of one source. `History` is the only ghost state. */
  class ControlMailbox {
    const rosPublishingEnabled: bool
    var desiredRevision: nat
    var appliedRevision: nat
    var desiredConfig: Configuration
    var appliedConfig: Configuration
    var pendingControl: Option<Pending>
    var nativeCommand: Option<Command>
    var awaitingNativeControl: Option<Command>
    var desiredActive: bool
    var jpegQuality: int
    var nativeAppliedActive: bool
    var nativeAppliedRevision: nat
    var nativeFailedRevision: nat
    var calibrationMetadata: Calibration
    var rosCameraInfoPending: bool
    var publishing: Option<Calibration>
    var publishedCalibrationRevision: nat
    ghost var log: History

    ghost function View(): State
      reads this
    {
      State(rosPublishingEnabled, desiredRevision, appliedRevision, desiredConfig, appliedConfig, pendingControl,
            nativeCommand, awaitingNativeControl, desiredActive, jpegQuality, nativeAppliedActive,
            nativeAppliedRevision, nativeFailedRevision, calibrationMetadata, rosCameraInfoPending, publishing,
            publishedCalibrationRevision, log)
    }

    constructor (ros: bool, quality: int, calibration: nat)
      ensures View() == Initial(ros, quality, calibration)
    {
      rosPublishingEnabled, desiredRevision, appliedRevision := ros, 1, 1;
      desiredConfig := Configuration(false, quality, calibration);
      appliedConfig := Configuration(false, quality, calibration);
      pendingControl, nativeCommand, awaitingNativeControl := None, None, None;
      desiredActive, jpegQuality := false, quality;
      nativeAppliedActive, nativeAppliedRevision, nativeFailedRevision := false, 1, 0;
      calibrationMetadata, rosCameraInfoPending := Calibration(calibration, 1), false;
      publishing, publishedCalibrationRevision := None, 0;
      log := History([], [], [], [], [], []);
    }

    /** The patch of a configuration request, checked field by field. */
    method ReadPatch(q: Request) returns (verdict: Verdict, desired: Configuration, record: Option<nat>)
      requires q.kind == Config
      ensures verdict == PatchVerdict(View(), q.patch)
      ensures verdict == Accept ==> desired == NewDesired(View(), q) && record == NewRecord(q)
    {
      verdict, desired, record := Accept, desiredConfig, None;
      if q.patch.fields == 0 || q.patch.unknown { return InvalidArgument, desired, record; }
      if q.patch.startupBinding { return RestartRequired, desired, record; }
      if q.patch.quality.Some? {
        if q.patch.quality.value < 50 || q.patch.quality.value > 100 { return InvalidArgument, desired, record; }
        desired := desired.(quality := q.patch.quality.value);
      }
      if q.patch.calibration.Some? {
        if !rosPublishingEnabled { return Unavailable, desired, record; }
        if q.patch.calibration.value.None? { return InvalidArgument, desired, record; }
        record := q.patch.calibration.value;
        desired := desired.(calibration := record.value);
      }
    }

    /** The accepted mutation goes into the mailbox under the next revision. */
    method Admit(q: Request, desired: Configuration, record: Option<nat>)
      requires Judge(View(), q, false) == Accept && desired == NewDesired(View(), q) && record == NewRecord(q)
      modifies this
      ensures View() == Handled(old(View()), q, false)
      ensures desiredRevision == old(desiredRevision) + 1 && nativeCommand.Some?
      ensures pendingControl == Some(Pending(desiredRevision, q.id, q.kind, record.Some?))
    {
      hide Judge, Handled, NewDesired, NewRecord, NewCommand;
      ghost var t := Handled(View(), q, false);
      AdmittedIs(View(), q, desired, record);
      var revision := desiredRevision + 1;
      var metadata := if record.Some? then Some(Calibration(record.value, revision)) else None;
      var active := if q.kind == Config then desiredActive else desired.active;
      CommandIs(View(), q, desired, record, active, metadata);
      var command := Command(revision, active, desired.quality, q.kind == Keyframe, metadata, q.kind);
      desiredRevision, desiredConfig := revision, desired;
      nativeCommand, pendingControl := Some(command), Some(Pending(revision, q.id, q.kind, record.Some?));
      log := t.log;
      assert View() == t;
    }

    /** A mutation request: refused without a change, or admitted. */
    method HandleMutation(q: Request, used: bool) returns (verdict: Verdict)
      modifies this
      ensures View() == Handled(old(View()), q, used) && verdict == Judge(old(View()), q, used)
      ensures verdict == Accept ==> old(pendingControl).None? && pendingControl.Some? && nativeCommand.Some?
      ensures verdict != Accept ==> View() == old(View())
    {
      hide PatchVerdict, NewDesired, NewRecord, NewCommand;
      if q.unknown || q.persist { return InvalidArgument; }
      if q.kind == Config && q.expected.None? { return InvalidArgument; }
      if q.expected.Some? && q.expected.value != desiredRevision { return Conflict; }
      if pendingControl.Some? { return Busy; }
      if q.kind == Keyframe && !nativeAppliedActive { return Conflict; }
      if used { return Conflict; }
      var desired, record := desiredConfig, None;
      if q.kind == Config {
        verdict, desired, record := ReadPatch(q);
        if verdict != Accept { return verdict; }
      } else {
        if q.kind != Keyframe { desired := desired.(active := q.kind == Start); }
        PlainDesired(View(), q);
      }
      Admit(q, desired, record);
      return Accept;
    }

    method CompleteNativeControl(command: Command)
      modifies this
      ensures View() == Acknowledged(old(View()), command)
    {
      if command.kind == Start { nativeAppliedActive := true; }
      if command.kind == Stop { nativeAppliedActive := false; }
      nativeAppliedRevision := command.revision;
      log := log.(acknowledged := log.acknowledged + [command.revision],
                  render := log.render + [Applied(command.revision)]);
    }

    method TakeCommand() returns (command: Command)
      requires nativeCommand.Some?
      modifies this
      ensures View() == TakenCommand(old(View())) && command == old(nativeCommand).value
    {
      command := nativeCommand.value;
      log := TakenCommand(View()).log;
      nativeCommand, desiredActive, jpegQuality := None, command.active, command.quality;
      if command.calibration.Some? {
        calibrationMetadata, rosCameraInfoPending := command.calibration.value, true;
      }
    }

    /** The render thread's handoff, with both locks. */
    method ApplyNativeControl()
      modifies this
      ensures View() == if old(nativeCommand).Some? then Consumed(old(View())) else old(View())
    {
      hide Acknowledged, TakenCommand;
      if nativeCommand.None? { return; }
      var command := TakeCommand();
      if command.kind == Config {
        CompleteNativeControl(command);
      } else {
        awaitingNativeControl := Some(command);
      }
    }

    /** A stop is complete once nothing is in flight and no encoder works for anyone else. */
    method CompleteNativeStopIfDrained(inFlight: bool, consumersActive: bool, encoderActive: bool)
      returns (completed: bool)
      modifies this
      ensures completed == (old(awaitingNativeControl).Some? && old(awaitingNativeControl).value.kind == Stop
                            && !inFlight && (consumersActive || !encoderActive))
      ensures View() == if completed then Step(old(View()), Acknowledge) else old(View())
    {
      completed := awaitingNativeControl.Some? && awaitingNativeControl.value.kind == Stop && !inFlight
                   && (consumersActive || !encoderActive);
      if completed {
        CompleteNativeControl(awaitingNativeControl.value);
        awaitingNativeControl := None;
      }
    }

    method FailNativeEncoderTransition()
      modifies this
      ensures View() == Failed(old(View()))
    {
      if awaitingNativeControl.Some?
         && (awaitingNativeControl.value.kind == Start || awaitingNativeControl.value.kind == Keyframe) {
        nativeFailedRevision := awaitingNativeControl.value.revision;
        log := log.(render := log.render + [GaveUp(nativeFailedRevision)]);
        awaitingNativeControl, desiredActive, nativeAppliedActive := None, false, false;
      }
    }

    /** Closes the pending mutation once its fate is known. */
    method FlushControl(late: bool) returns (receipt: Option<Receipt>)
      modifies this
      ensures View() == Flushed(old(View()), late)
      ensures receipt.None? ==> View() == old(View())
      ensures receipt.Some? ==> log.receipts == old(log.receipts) + [receipt.value] && pendingControl.None?
    {
      if pendingControl.None? { return None; }
      var pending := pendingControl.value;
      ghost var t := Flushed(View(), late);
      if nativeFailedRevision == pending.revision {
        receipt := Some(Receipt(pending.revision, pending.requestId, EncoderFailed));
      } else if nativeAppliedRevision == pending.revision
          && (!pending.calibration || publishedCalibrationRevision == pending.revision) {
        appliedRevision := pending.revision;
        appliedConfig := desiredConfig.(active := nativeAppliedActive);
        receipt := Some(Receipt(pending.revision, pending.requestId, Completed));
      } else if late && nativeCommand.Some? && nativeCommand.value.revision == pending.revision {
        nativeCommand := None;
        receipt := Some(Receipt(pending.revision, pending.requestId, DeadlineExceeded));
      } else {
        return None;
      }
      pendingControl := None;
      log := t.log;
    }

    /** The publisher takes the calibration that is in use now. */
    method TakeCameraInfo() returns (metadata: Calibration)
      requires rosCameraInfoPending && publishing.None?
      modifies this
      ensures View() == TakenInfo(old(View())) && metadata == calibrationMetadata
    {
      metadata := calibrationMetadata;
      publishing, rosCameraInfoPending := Some(metadata), false;
    }

    /** What it took is published, and its revision is stored for the control executor. */
    method PublishCameraInfo(metadata: Calibration)
      requires publishing == Some(metadata)
      modifies this
      ensures View() == PublishedInfo(old(View()))
      ensures log.infos == old(log.infos) + [metadata] && publishedCalibrationRevision == metadata.revision
    {
      publishing, publishedCalibrationRevision := None, metadata.revision;
      log := log.(infos := log.infos + [metadata]);
    }
  }
}
