/** The ROS branch as a state machine over its atomic steps. Four threads share it: the render thread offers
    access units and begins epochs, the subscriber callbacks (one spinner thread) connect and disconnect, the
    publisher pops, compares generations and publishes. An epoch starts with a keyframe; overload drops
    what is queued and starts the next one. */
module RosEpochs {
  import opened Wrappers

  datatype Discontinuity = NoDiscontinuity | StreamStart | SourceTimeReset | EncoderReset | QueueOverflow

  const MAX_UINT32 := 0xFFFF_FFFF

  /** An access unit offered to the branch, and the encoder session it comes from. */
  datatype AccessUnit = AccessUnit(key: bool, session: nat)

  /** A stamped frame. `epoch` counts epochs; `index` and `offer` say which stamped frame and which offered
      access unit it is. */
  datatype Frame = Frame(index: nat, offer: nat, session: nat, key: bool, epoch: nat, number: nat,
                         generation: nat, discontinuity: Discontinuity, droppedBefore: nat)

  /** The fields behind the publisher mutex. */
  datatype Core = Core(
    queue: seq<Frame>,
    waiting: bool,               // for a keyframe
    dropped: nat,                // since the last stamped keyframe report
    generation: nat,
    epoch: nat,
    next: nat,                   // number of the next frame of the epoch
    pending: Discontinuity,
    infoPending: bool,
    stopping: bool)

  /** A StreamInfo message describes an epoch and the encoder session it was taken in. */
  datatype StreamInfo = StreamInfo(epoch: nat, session: nat)

  datatype Subscribers = Quiet | Connecting | Activating | Disconnecting

  datatype Publisher =
    | Idle
    | PoppedInfo(info: StreamInfo, generation: nat)
    | ClearedInfo(info: StreamInfo)
    | PoppedFrame(frame: Frame)
    | ClearedFrame(frame: Frame)

  datatype History = History(
    offered: seq<AccessUnit>,    // what reached the locked section
    stamped: seq<Frame>,
    published: seq<Frame>,
    infos: set<StreamInfo>,      // published
    discards: nat,               // popped, then found stale
    clipped: nat,                // dropped frames a 32-bit report could not hold
    abandoned: nat,              // queued at teardown
    gaps: set<nat>,              // frames stamped behind one that was neither published nor on its way
    silent: set<nat>,            // frames stamped while their StreamInfo was neither
    skips: set<nat>,             // frames stamped behind one of their epoch and a unit that never came this far
    missed: bool)                // since the last offered unit, one found no consumers or the branch stopped

  datatype State = State(
    enabled: bool,
    capacity: nat,
    core: Core,
    connections: nat,
    consumers: bool,
    subscribers: Subscribers,
    held: Option<AccessUnit>,    // found consumers active, not in the locked section yet
    unstamped: bool,                 // the render thread knows that no frame of the epoch is stamped yet
    session: nat,                // of the running encoder
    publisher: Publisher,
    purged: bool,                // the queue was emptied by a disconnect, and no epoch begun since
    force: bool,                 // this step requested a keyframe
    log: History)

  datatype Event =
    | Connect | ConnectEpoch | Activate | Disconnect | DisconnectPurge     // subscriber callbacks
    | Begin(d: Discontinuity) | Ask(answer: bool) | OpenSession(session: nat)
    | Offer(unit: AccessUnit) | Stamp                                      // render thread
    | Take | Compare | Publish                                             // publisher thread
    | Stop

  // ----- the steps -----

  function Advanced(c: Core, d: Discontinuity, additional: nat): Core {
    c.(queue := [], dropped := c.dropped + |c.queue| + additional, epoch := c.epoch + 1, next := 0,
       pending := d, waiting := true, generation := c.generation + 1, infoPending := true)
  }

  function BeginEpoch(s: State, d: Discontinuity): State {
    if !s.enabled || s.core.stopping then s
    else s.(core := Advanced(s.core, d, 0), purged := false, force := true)
  }

  function ConnectStep(s: State): State {
    s.(connections := s.connections + 1, subscribers := if s.connections == 0 then Connecting else Quiet,
       force := s.connections > 0)
  }

  function DisconnectStep(s: State): State
    requires s.connections > 0
  {
    if s.connections == 1 then s.(connections := 0, consumers := false, subscribers := Disconnecting)
    else s.(connections := s.connections - 1)
  }

  function DisconnectPurgeStep(s: State): State {
    var t := s.(subscribers := Quiet);
    if s.core.stopping then t
    else t.(core := s.core.(dropped := s.core.dropped + |s.core.queue|, queue := [],
                            generation := s.core.generation + 1), purged := true)
  }

  function NewFrame(s: State, unit: AccessUnit): Frame {
    var c := s.core;
    Frame(|s.log.stamped|, |s.log.offered|, unit.session, unit.key, c.epoch, c.next, c.generation,
          if c.waiting then c.pending else NoDiscontinuity,
          if c.waiting then Min(c.dropped, MAX_UINT32) else 0)
  }

  function LastPublished(s: State, i: nat): int
    requires i <= |s.log.published|
  {
    if i == 0 then -1 else s.log.published[i - 1].index
  }

  /** The last stamped frame that is published or on its way, -1 if there is none. */
  function Front(s: State): int {
    match s.publisher
    case ClearedFrame(f) => f.index
    case PoppedFrame(f) =>
      if f.generation == s.core.generation then f.index else LastPublished(s, |s.log.published|)
    case _ => LastPublished(s, |s.log.published|)
  }

  /** The epoch goes on behind an emptied queue, and the frame before is neither published nor on its way. */
  predicate BehindGap(s: State) {
    s.core.next > 0 && s.core.queue == [] && Front(s) != |s.log.stamped| - 1
  }

  function PresentInfo(s: State): StreamInfo { StreamInfo(s.core.epoch, s.session) }

  function InfoOf(f: Frame): StreamInfo { StreamInfo(f.epoch, f.session) }

  /** The StreamInfo of the epoch, with the running session, is published or on its way. */
  predicate InfoComing(s: State) {
    || s.core.infoPending || PresentInfo(s) in s.log.infos
    || s.publisher == PoppedInfo(PresentInfo(s), s.core.generation) || s.publisher == ClearedInfo(PresentInfo(s))
  }

  /** A unit that is accepted: stamped with the epoch's next number and queued. */
  function Accepted(s: State, unit: AccessUnit): State {
    var c, f := s.core, NewFrame(s, unit);
    s.(core := c.(queue := c.queue + [f], next := c.next + 1, waiting := false,
                  dropped := if c.waiting then 0 else c.dropped,
                  pending := if c.waiting then NoDiscontinuity else c.pending),
       held := None, unstamped := false,
       log := s.log.(offered := s.log.offered + [unit], stamped := s.log.stamped + [f],
                     clipped := s.log.clipped + (if c.waiting then c.dropped - f.droppedBefore else 0),
                     gaps := if BehindGap(s) then s.log.gaps + {f.index} else s.log.gaps,
                     silent := if InfoComing(s) then s.log.silent else s.log.silent + {f.index},
                     skips := if s.log.missed && c.next > 0 then s.log.skips + {f.index} else s.log.skips,
                     missed := false))
  }

  /** A unit that is dropped by the core it leaves behind. */
  function Dropped(s: State, unit: AccessUnit, c: Core): State {
    s.(core := c, held := None, force := true, log := s.log.(offered := s.log.offered + [unit], missed := false))
  }

  function Missed(s: State): State { s.(log := s.log.(missed := true)) }

  function StampUnit(s: State, unit: AccessUnit): State {
    var c := s.core;
    var full := |c.queue| >= s.capacity;
    if c.stopping then Missed(s).(held := None)
    else if full && !unit.key then Dropped(s, unit, Advanced(c, QueueOverflow, 1)).(purged := false)
    else if full then Accepted(s.(core := Advanced(c, QueueOverflow, 0), purged := false), unit)
    else if c.waiting && !unit.key then Dropped(s, unit, c.(dropped := c.dropped + 1))
    else Accepted(s, unit)
  }

  function TakeStep(s: State): State
    requires s.core.infoPending || s.core.queue != []
  {
    var c := s.core;
    if c.infoPending then s.(core := c.(infoPending := false), publisher := PoppedInfo(PresentInfo(s), c.generation))
    else s.(core := c.(queue := c.queue[1..]), publisher := PoppedFrame(c.queue[0]))
  }

  function ComparedInfo(s: State): State
    requires s.publisher.PoppedInfo?
  {
    s.(publisher := if s.publisher.generation == s.core.generation then ClearedInfo(s.publisher.info) else Idle)
  }

  function ComparedFrame(s: State): State
    requires s.publisher.PoppedFrame?
  {
    if s.publisher.frame.generation == s.core.generation then s.(publisher := ClearedFrame(s.publisher.frame))
    else s.(publisher := Idle, log := s.log.(discards := s.log.discards + 1))
  }

  function CompareStep(s: State): State {
    match s.publisher
    case PoppedInfo(_, _) => ComparedInfo(s)
    case PoppedFrame(_) => ComparedFrame(s)
    case _ => s
  }

  function SentInfo(s: State): State
    requires s.publisher.ClearedInfo?
  {
    s.(publisher := Idle, log := s.log.(infos := s.log.infos + {s.publisher.info}))
  }

  function SentFrame(s: State): State
    requires s.publisher.ClearedFrame?
  {
    s.(publisher := Idle, log := s.log.(published := s.log.published + [s.publisher.frame]))
  }

  function PublishStep(s: State): State {
    match s.publisher
    case ClearedInfo(_) => SentInfo(s)
    case ClearedFrame(_) => SentFrame(s)
    case _ => s
  }

  function StopStep(s: State): State {
    s.(core := s.core.(queue := [], infoPending := false, stopping := true, generation := s.core.generation + 1),
       connections := 0, consumers := false,
       log := s.log.(abandoned := s.log.abandoned + |s.core.queue|))
  }

  /** What a step needs: the order within each thread; for `Ask`, the value found; for a new session, that
      no frame of the epoch is stamped; for an offer, that it comes from the running session. */
  predicate Enabled(s: State, e: Event) {
    match e
    case Connect => s.subscribers.Quiet? && !s.core.stopping
    case ConnectEpoch => s.subscribers.Connecting?
    case Activate => s.subscribers.Activating?
    case Disconnect => s.subscribers.Quiet? && s.connections > 0
    case DisconnectPurge => s.subscribers.Disconnecting?
    case Begin(d) => s.held.None? && d != NoDiscontinuity
    case Ask(answer) => s.held.None? && answer == (s.core.waiting && s.core.next == 0)
    case OpenSession(_) => s.held.None? && (s.unstamped || s.log.stamped == [])
    case Offer(unit) => s.held.None? && unit.session == s.session
    case Stamp => s.held.Some?
    case Take => s.publisher.Idle? && !s.core.stopping && (s.core.infoPending || s.core.queue != [])
    case Compare => s.publisher.PoppedInfo? || s.publisher.PoppedFrame?
    case Publish => s.publisher.ClearedInfo? || s.publisher.ClearedFrame?
    case Stop => true
  }

  function Fire(s: State, e: Event): State
    requires Enabled(s, e)
  {
    match e
    case Connect => ConnectStep(s)
    case ConnectEpoch => BeginEpoch(s, StreamStart).(subscribers := Activating)
    case Activate => s.(subscribers := Quiet, consumers := s.consumers || (s.connections > 0 && !s.core.stopping))
    case Disconnect => DisconnectStep(s)
    case DisconnectPurge => DisconnectPurgeStep(s)
    case Begin(d) => BeginEpoch(s, d).(unstamped := true)
    case Ask(answer) => s.(unstamped := s.unstamped || answer)
    case OpenSession(session) => s.(session := session, core := s.core.(infoPending := s.enabled))
    case Offer(unit) => if s.enabled && s.consumers then s.(held := Some(unit)) else Missed(s)
    case Stamp => StampUnit(s, s.held.value)
    case Take => TakeStep(s)
    case Compare => CompareStep(s)
    case Publish => PublishStep(s)
    case Stop => StopStep(s)
  }

  function Step(s: State, e: Event): State {
    if Enabled(s, e) then Fire(s.(force := false), e) else s
  }

  function Run(s: State, events: seq<Event>): State
    decreases |events|
  {
    if events == [] then s else Run(Step(s, events[0]), events[1..])
  }

  function Initial(enabled: bool, capacity: nat): State {
    State(enabled, capacity, Core([], true, 0, 0, 0, 0, StreamStart, enabled, false), 0, false, Quiet, None, false,
          0, Idle, false, false, History([], [], [], {}, 0, 0, 0, {}, {}, {}, false))
  }

  // ----- the invariant -----

  /** A stamped frame starts its epoch with a keyframe and the discontinuity, or carries neither and directly
      follows the frame before it: next number, next offered unit, same encoder session. */
  predicate StampOk(s: State, i: nat)
    requires i < |s.log.stamped|
  {
    var f := s.log.stamped[i];
    && f.index == i && f.offer < |s.log.offered| && s.log.offered[f.offer] == AccessUnit(f.key, f.session)
    && f.epoch <= s.core.epoch && f.generation <= s.core.generation
    && (f.number == 0 ==> f.key && f.discontinuity != NoDiscontinuity)
    && (f.number > 0 ==> i > 0 && f.discontinuity == NoDiscontinuity && f.droppedBefore == 0)
    && (i > 0 ==>
          var e := s.log.stamped[i - 1];
          && (f.number == 0 ==> e.epoch < f.epoch && e.offer < f.offer)
          && (f.number > 0 ==> e.epoch == f.epoch && e.number + 1 == f.number && e.offer + 1 == f.offer
                               && e.session == f.session))
  }

  predicate Stamps(s: State) {
    forall i: nat {:trigger StampOk(s, i)} :: i < |s.log.stamped| ==> StampOk(s, i)
  }

  /** The frame is the stamped one. */
  predicate Genuine(s: State, f: Frame) {
    f.index < |s.log.stamped| && s.log.stamped[f.index] == f
  }

  /** Published behind frame number `last` of all stamped ones (-1: none): the next of its epoch, or its first,
      and behind its StreamInfo. */
  predicate InSequence(s: State, last: int, f: Frame) {
    && last < f.index
    && (f.number > 0 && f.index !in s.log.gaps ==> last == f.index - 1)
    && (f.index !in s.log.silent ==> InfoOf(f) in s.log.infos)
  }

  predicate PublishOk(s: State, i: nat)
    requires i < |s.log.published|
  {
    Genuine(s, s.log.published[i]) && InSequence(s, LastPublished(s, i), s.log.published[i])
  }

  predicate Publishes(s: State) {
    forall i: nat {:trigger PublishOk(s, i)} :: i < |s.log.published| ==> PublishOk(s, i)
  }

  /** The queue is the tail of what is stamped, all in the current epoch and generation. */
  predicate QueueOk(s: State) {
    var c, n, q := s.core, |s.log.stamped|, |s.core.queue|;
    && c.waiting == (c.next == 0)
    && (c.waiting ==> c.pending != NoDiscontinuity)
    && q <= s.capacity && q <= c.next && q <= n
    && forall k :: 0 <= k < q ==>
         && Genuine(s, c.queue[k]) && c.queue[k].index == n - q + k
         && c.queue[k].epoch == c.epoch && c.queue[k].generation == c.generation
         && c.queue[k].number == c.next - q + k
  }

  predicate LastStamped(s: State) {
    var c, n := s.core, |s.log.stamped|;
    && (c.next == 0 && n > 0 ==> s.log.stamped[n - 1].epoch < c.epoch)
    && (c.next > 0 ==>
          && n > 0 && s.log.stamped[n - 1].epoch == c.epoch && s.log.stamped[n - 1].number == c.next - 1
          && s.log.stamped[n - 1].offer == |s.log.offered| - 1
          && (s.enabled && !c.stopping ==> s.log.stamped[n - 1].session == s.session))
    && (!s.enabled ==> n == 0 && s.held.None?)
    && (s.held.Some? ==> s.held.value.session == s.session)
    && (s.unstamped ==> c.next == 0 || c.stopping || !s.enabled)
  }

  predicate InFlight(s: State) { s.publisher.PoppedFrame? || s.publisher.ClearedFrame? }

  /** What the publisher has taken comes before the queue and behind what is published. */
  predicate FlightOk(s: State) {
    var n, q, last := |s.log.stamped|, |s.core.queue|, LastPublished(s, |s.log.published|);
    && last < n - q
    && (InFlight(s) ==>
          var f := s.publisher.frame;
          Genuine(s, f) && InSequence(s, last, f) && f.index < n - q && f.generation <= s.core.generation)
    && (s.publisher.PoppedInfo? ==> s.publisher.generation <= s.core.generation)
  }

  /** The queue directly follows what is published or on its way, up to a gap or a purge. */
  predicate FrontOk(s: State) {
    var c, n, q := s.core, |s.log.stamped|, |s.core.queue|;
    && (0 < q < c.next && !c.stopping ==> Front(s) == n - q - 1 || n - q in s.log.gaps)
    && (q == 0 && c.next > 0 && !s.purged && !c.stopping ==> Front(s) == n - 1)
  }

  predicate InfosOk(s: State) {
    var n, q := |s.log.stamped|, |s.core.queue|;
    && (!InfoComing(s) && !s.core.stopping ==> forall g :: n - q <= g < n ==> g in s.log.silent)
    && (!s.purged && s.enabled && !s.core.stopping ==> InfoComing(s))
  }

  predicate PublisherOk(s: State) { FlightOk(s) && FrontOk(s) && InfosOk(s) }

  /** What a gap is behind is lost for good. */
  predicate GapOk(s: State, g: nat) {
    && 0 < g <= |s.log.stamped| - |s.core.queue| && g < |s.log.stamped| && s.log.stamped[g].number > 0
    && (forall i :: 0 <= i < |s.log.published| ==> s.log.published[i].index != g - 1)
    && (InFlight(s) && (s.publisher.PoppedFrame? ==> s.publisher.frame.generation == s.core.generation) ==>
          s.publisher.frame.index != g - 1)
  }

  /** The StreamInfo of a silent frame is never published. */
  predicate SilentOk(s: State, g: nat) {
    && g < |s.log.stamped|
    && var i := InfoOf(s.log.stamped[g]);
       && i.epoch <= s.core.epoch && (i.epoch == s.core.epoch ==> s.core.next > 0)
       && i !in s.log.infos && s.publisher != ClearedInfo(i) && s.publisher != PoppedInfo(i, s.core.generation)
       && (i.epoch == s.core.epoch && s.core.infoPending ==> s.core.stopping)
  }

  predicate RacesOk(s: State) {
    (forall g: nat :: g in s.log.gaps ==> GapOk(s, g)) && (forall g: nat :: g in s.log.silent ==> SilentOk(s, g))
  }

  /** Sum of the reports of frames dropped before. */
  function Reported(frames: seq<Frame>): nat {
    if frames == [] then 0
    else Reported(frames[..|frames| - 1]) + frames[|frames| - 1].droppedBefore
  }

  /** Every offered unit is accounted for, and a report is only ever too large behind 2^32 units. */
  predicate Ledger(s: State) {
    && |s.log.offered| == |s.core.queue| + (if InFlight(s) then 1 else 0) + |s.log.published| + s.log.discards
                          + Reported(s.log.stamped) + s.core.dropped + s.log.clipped + s.log.abandoned
    && (s.log.clipped > 0 ==> |s.log.offered| > MAX_UINT32)
  }

  predicate Discards(s: State) {
    && s.log.discards <= s.core.generation
    && (s.publisher.PoppedFrame? ==> s.log.discards <= s.publisher.frame.generation <= s.core.generation)
  }

  predicate Shape(s: State) {
    QueueOk(s) && LastStamped(s) && PublisherOk(s) && s.capacity > 0
  }

  predicate Inv(s: State) {
    Shape(s) && Stamps(s) && Publishes(s) && Ledger(s) && Discards(s) && RacesOk(s)
  }

  // ----- every step keeps it -----

  lemma SameStamps(s: State, t: State)
    requires Stamps(s) && t.log.stamped == s.log.stamped && s.log.offered <= t.log.offered
    requires s.core.epoch <= t.core.epoch && s.core.generation <= t.core.generation
    ensures Stamps(t)
  {
    forall i: nat | i < |t.log.stamped|
      ensures StampOk(t, i)
    {
      assert StampOk(s, i);
    }
  }

  lemma SamePublishes(s: State, t: State)
    requires Publishes(s) && t.log.published == s.log.published && s.log.stamped <= t.log.stamped
    requires s.log.infos <= t.log.infos
    requires forall k: nat :: k < |s.log.stamped| ==> (k in s.log.gaps <==> k in t.log.gaps)
    requires forall k: nat :: k < |s.log.stamped| ==> (k in s.log.silent <==> k in t.log.silent)
    ensures Publishes(t)
  {
    forall i: nat | i < |t.log.published|
      ensures PublishOk(t, i)
    {
      assert PublishOk(s, i);
    }
  }

  /** Fields that the frames do not depend on. */
  predicate SameFrames(s: State, t: State) {
    t == s.(connections := t.connections, consumers := t.consumers, subscribers := t.subscribers, held := t.held,
            unstamped := t.unstamped, force := t.force,
            log := s.log.(skips := t.log.skips, missed := t.log.missed))
  }

  lemma SameFramesKeepPublisher(s: State, t: State)
    requires PublisherOk(s) && SameFrames(s, t)
    ensures PublisherOk(t)
  {
    hide Genuine;
    assert forall f {:trigger Genuine(t, f)} :: Genuine(s, f) ==> Genuine(t, f) by { SameGenuine(s, t); }
    assert Front(t) == Front(s) && InfoComing(t) == InfoComing(s);
    hide Front, InfoComing;
  }

  lemma SameGenuine(s: State, t: State)
    requires t.log.stamped == s.log.stamped
    ensures forall f {:trigger Genuine(t, f)} :: Genuine(s, f) ==> Genuine(t, f)
  {
  }

  lemma SameFramesKeepRaces(s: State, t: State)
    requires RacesOk(s) && SameFrames(s, t)
    ensures RacesOk(t)
  {
    forall g: nat | g in t.log.gaps ensures GapOk(t, g) { assert GapOk(s, g); }
    forall g: nat | g in t.log.silent ensures SilentOk(t, g) { assert SilentOk(s, g); }
  }

  lemma SameFramesKeepInv(s: State, t: State)
    requires Inv(s) && SameFrames(s, t) && LastStamped(t)
    ensures Inv(t)
  {
    hide Stamps, Publishes, RacesOk, PublisherOk, LastStamped, Reported;
    SameStamps(s, t);
    SamePublishes(s, t);
    SameFramesKeepPublisher(s, t);
    SameFramesKeepRaces(s, t);
  }

  lemma BeginKeepsPublisher(s: State, d: Discontinuity)
    requires QueueOk(s) && PublisherOk(s) && d != NoDiscontinuity
    ensures var t := BeginEpoch(s, d); QueueOk(t) && PublisherOk(t)
  {
  }

  lemma BeginKeepsRaces(s: State, d: Discontinuity)
    requires RacesOk(s) && FlightOk(s)
    ensures RacesOk(BeginEpoch(s, d))
  {
    var t := BeginEpoch(s, d);
    forall g: nat | g in t.log.gaps ensures GapOk(t, g) { assert GapOk(s, g); }
    forall g: nat | g in t.log.silent ensures SilentOk(t, g) { assert SilentOk(s, g); }
  }

  lemma BeginKeepsCounts(s: State, d: Discontinuity)
    requires Ledger(s) && Discards(s)
    ensures var t := BeginEpoch(s, d); Ledger(t) && Discards(t)
  {
    hide Reported;
  }

  lemma BeginKeepsLast(s: State, d: Discontinuity)
    requires LastStamped(s) && Stamps(s)
    ensures LastStamped(BeginEpoch(s, d)) && Stamps(BeginEpoch(s, d))
  {
    assert s.log.stamped != [] ==> StampOk(s, |s.log.stamped| - 1);
    SameStamps(s, BeginEpoch(s, d));
  }

  lemma BeginKeepsInv(s: State, d: Discontinuity)
    requires Inv(s) && d != NoDiscontinuity
    ensures Inv(BeginEpoch(s, d))
  {
    BeginKeepsPublisher(s, d);
    BeginKeepsRaces(s, d);
    BeginKeepsCounts(s, d);
    BeginKeepsLast(s, d);
    hide QueueOk, PublisherOk, LastStamped, Stamps, Publishes, Ledger, Discards, RacesOk;
    SamePublishes(s, BeginEpoch(s, d));
  }

  lemma PurgeKeepsFlight(s: State)
    requires FlightOk(s)
    ensures FlightOk(DisconnectPurgeStep(s))
  {
    hide InSequence;
    var t, last := DisconnectPurgeStep(s), LastPublished(s, |s.log.published|);
    assert t.log == s.log && t.publisher == s.publisher;
    if InFlight(s) {
      SameInSequence(s, t, last, s.publisher.frame);
    }
  }

  lemma PurgeKeepsFront(s: State)
    requires QueueOk(s) && FrontOk(s) && InfosOk(s)
    ensures var t := DisconnectPurgeStep(s); QueueOk(t) && FrontOk(t) && InfosOk(t)
  {
  }

  lemma PurgeKeepsRaces(s: State)
    requires RacesOk(s) && FlightOk(s)
    ensures RacesOk(DisconnectPurgeStep(s))
  {
    var t := DisconnectPurgeStep(s);
    forall g: nat | g in t.log.gaps ensures GapOk(t, g) { assert GapOk(s, g); }
    forall g: nat | g in t.log.silent ensures SilentOk(t, g) { assert SilentOk(s, g); }
  }

  lemma PurgeKeepsCounts(s: State)
    requires Ledger(s) && Discards(s)
    ensures var t := DisconnectPurgeStep(s); Ledger(t) && Discards(t)
  {
    hide Reported;
  }

  lemma PurgeKeepsLast(s: State)
    requires LastStamped(s)
    ensures LastStamped(DisconnectPurgeStep(s))
  {
  }

  lemma PurgeKeepsInv(s: State)
    requires Inv(s)
    ensures Inv(DisconnectPurgeStep(s))
  {
    hide QueueOk, FlightOk, FrontOk, InfosOk, LastStamped, Stamps, Publishes, Ledger, Discards, RacesOk;
    PurgeKeepsFlight(s);
    PurgeKeepsFront(s);
    PurgeKeepsRaces(s);
    PurgeKeepsCounts(s);
    PurgeKeepsLast(s);
    SameStamps(s, DisconnectPurgeStep(s));
    SamePublishes(s, DisconnectPurgeStep(s));
  }

  lemma DropKeepsShape(s: State, unit: AccessUnit)
    requires Shape(s) && s.core.waiting && !s.core.stopping && s.enabled
    ensures Shape(Dropped(s, unit, s.core.(dropped := s.core.dropped + 1)))
  {
  }

  lemma DropKeepsLog(s: State, unit: AccessUnit)
    requires Stamps(s) && Publishes(s) && Ledger(s) && Discards(s)
    ensures var t := Dropped(s, unit, s.core.(dropped := s.core.dropped + 1));
            Stamps(t) && Publishes(t) && Ledger(t) && Discards(t)
  {
    hide Reported, Stamps, Publishes;
    var t := Dropped(s, unit, s.core.(dropped := s.core.dropped + 1));
    SameStamps(s, t);
    SamePublishes(s, t);
  }

  lemma DropKeepsRaces(s: State, unit: AccessUnit)
    requires RacesOk(s)
    ensures RacesOk(Dropped(s, unit, s.core.(dropped := s.core.dropped + 1)))
  {
    var t := Dropped(s, unit, s.core.(dropped := s.core.dropped + 1));
    forall g: nat | g in t.log.gaps ensures GapOk(t, g) { assert GapOk(s, g); }
    forall g: nat | g in t.log.silent ensures SilentOk(t, g) { assert SilentOk(s, g); }
  }

  lemma DropKeepsInv(s: State, unit: AccessUnit)
    requires Inv(s) && s.core.waiting && !s.core.stopping && s.enabled
    ensures Inv(Dropped(s, unit, s.core.(dropped := s.core.dropped + 1)))
  {
    hide Dropped, Shape, Stamps, Publishes, Ledger, Discards, RacesOk;
    DropKeepsShape(s, unit);
    DropKeepsLog(s, unit);
    DropKeepsRaces(s, unit);
  }

  /** A full queue: its frames are counted and the next epoch begins. */
  function Overflown(s: State): State { s.(core := Advanced(s.core, QueueOverflow, 0), purged := false) }

  lemma OverflownKeepsInv(s: State)
    requires Inv(s) && s.enabled && !s.core.stopping
    ensures Inv(Overflown(s)) && Overflown(s).core.queue == [] && Overflown(s).core.waiting
  {
    hide Inv;
    BeginKeepsInv(s, QueueOverflow);
    var t := BeginEpoch(s, QueueOverflow);
    LastStampedByInv(t);
    SameFramesKeepInv(t, Overflown(s));
  }

  lemma LastStampedByInv(s: State)
    requires Inv(s)
    ensures LastStamped(s.(force := false)) && LastStamped(s.(force := true))
  {
    hide Stamps, Publishes, RacesOk, PublisherOk, Ledger, Discards, QueueOk;
  }

  lemma AcceptKeepsShape(s: State, unit: AccessUnit)
    requires Inv(s) && !s.core.stopping && s.enabled && (s.core.waiting ==> unit.key)
    requires |s.core.queue| < s.capacity && unit.session == s.session
    ensures Shape(Accepted(s, unit))
  {
  }

  lemma AcceptKeepsStamps(s: State, unit: AccessUnit)
    requires Inv(s) && (s.core.waiting ==> unit.key) && unit.session == s.session && !s.core.stopping && s.enabled
    ensures Stamps(Accepted(s, unit))
  {
    hide Publishes, Ledger, Discards, RacesOk, PublisherOk, BehindGap, InfoComing, Front;
    var t, n := Accepted(s, unit), |s.log.stamped|;
    assert n > 0 ==> StampOk(s, n - 1);
    forall i: nat | i < |t.log.stamped|
      ensures StampOk(t, i)
    {
      if i < n {
        assert StampOk(s, i);
      }
    }
  }

  lemma AcceptKeepsCounts(s: State, unit: AccessUnit)
    requires Ledger(s) && Discards(s)
    ensures Ledger(Accepted(s, unit)) && Discards(Accepted(s, unit))
  {
    hide BehindGap, InfoComing, Front;
    var t := Accepted(s, unit);
    assert t.log.stamped[..|s.log.stamped|] == s.log.stamped;
  }

  /** What the new frame is behind, if that is a gap, was neither published nor is on its way. */
  lemma AcceptKeepsRaces(s: State, unit: AccessUnit)
    requires Inv(s) && !s.core.stopping && s.enabled && unit.session == s.session
    ensures RacesOk(Accepted(s, unit))
  {
    hide Ledger, Discards, Stamps;
    var t, n, p := Accepted(s, unit), |s.log.stamped|, |s.log.published|;
    forall j | 0 <= j < p ensures s.log.published[j].index <= LastPublished(s, p) { PublishedBelow(s, p, j); }
    hide Publishes;
    forall g: nat | g in t.log.gaps ensures GapOk(t, g) { assert g in s.log.gaps ==> GapOk(s, g); }
    forall g: nat | g in t.log.silent ensures SilentOk(t, g) { assert g in s.log.silent ==> SilentOk(s, g); }
  }

  lemma AcceptKeepsInv(s: State, unit: AccessUnit)
    requires Inv(s) && !s.core.stopping && s.enabled && (s.core.waiting ==> unit.key)
    requires |s.core.queue| < s.capacity && unit.session == s.session
    ensures Inv(Accepted(s, unit))
  {
    AcceptKeepsShape(s, unit);
    AcceptKeepsStamps(s, unit);
    AcceptKeepsCounts(s, unit);
    AcceptKeepsRaces(s, unit);
    hide Shape, Stamps, Publishes, Ledger, Discards, RacesOk, BehindGap, InfoComing, Front;
    SamePublishes(s, Accepted(s, unit));
  }

  /** The four outcomes of the locked section. */
  lemma StampEffect(s: State, unit: AccessUnit)
    ensures var c, t := s.core, StampUnit(s, unit);
            var full := |c.queue| >= s.capacity;
            var moved := s.(core := Advanced(c, QueueOverflow, if unit.key then 0 else 1), purged := false);
            && moved.core.waiting && moved.core.next == 0 && moved.core.stopping == c.stopping
            && (c.stopping ==> t == Missed(s).(held := None))
            && (!c.stopping && full && unit.key ==> t == Accepted(moved, unit))
            && (!c.stopping && full && !unit.key ==> t == Dropped(moved, unit, moved.core))
            && (!c.stopping && !full && !unit.key && c.waiting ==>
                  t == Dropped(s, unit, c.(dropped := c.dropped + 1)))
            && (!c.stopping && !full && (unit.key || !c.waiting) ==> t == Accepted(s, unit))
            && (|t.log.stamped| > |s.log.stamped| <==> !c.stopping && (unit.key || (!full && !c.waiting)))
  {
  }

  lemma MissKeepsInv(s: State)
    requires Inv(s)
    ensures Inv(Missed(s).(held := None))
  {
    assert LastStamped(Missed(s).(held := None)) by { hide Stamps, Publishes, RacesOk, PublisherOk, Ledger; }
    hide Inv;
    SameFramesKeepInv(s, Missed(s).(held := None));
  }

  lemma StampKeepsInv(s: State, unit: AccessUnit)
    requires Inv(s) && s.held == Some(unit) && s.enabled && unit.session == s.session && s.capacity > 0
    ensures Inv(StampUnit(s, unit))
  {
    hide Inv, Accepted, Dropped, Overflown, Missed, Advanced;
    var c := s.core;
    var full := |c.queue| >= s.capacity;
    if c.stopping {
      MissKeepsInv(s);
    } else if full {
      OverflownKeepsInv(s);
      OverflownIs(s, unit);
      if unit.key {
        AcceptKeepsInv(Overflown(s), unit);
      } else {
        DropKeepsInv(Overflown(s), unit);
      }
    } else if c.waiting && !unit.key {
      DropKeepsInv(s, unit);
    } else {
      AcceptKeepsInv(s, unit);
    }
  }

  /** A delta that overflows the queue is dropped behind the overflow. */
  lemma OverflownIs(s: State, unit: AccessUnit)
    ensures var t := Overflown(s);
            && t == s.(core := Advanced(s.core, QueueOverflow, 0), purged := false)
            && t.core.queue == [] && t.core.waiting && t.core.stopping == s.core.stopping
            && Dropped(s, unit, Advanced(s.core, QueueOverflow, 1)).(purged := false)
               == Dropped(t, unit, t.core.(dropped := t.core.dropped + 1))
  {
  }

  lemma TakeKeepsFlight(s: State)
    requires QueueOk(s) && FlightOk(s) && FrontOk(s) && s.publisher.Idle? && !s.core.stopping
    requires s.core.infoPending || s.core.queue != []
    requires s.core.queue != [] ==> PresentInfo(s) in s.log.infos || s.core.infoPending
                                    || |s.log.stamped| - |s.core.queue| in s.log.silent
    requires s.core.queue != [] ==> s.core.queue[0].session == s.session
    ensures FlightOk(TakeStep(s))
  {
  }

  lemma TakeKeepsFront(s: State)
    requires QueueOk(s) && FrontOk(s) && s.publisher.Idle? && !s.core.stopping
    requires s.core.infoPending || s.core.queue != []
    ensures FrontOk(TakeStep(s))
  {
  }

  lemma TakeKeepsInfos(s: State)
    requires InfosOk(s) && s.publisher.Idle? && !s.core.stopping
    requires s.core.infoPending || s.core.queue != []
    ensures InfosOk(TakeStep(s))
    ensures !s.core.infoPending && s.core.queue != [] ==>
              PresentInfo(s) in s.log.infos || |s.log.stamped| - |s.core.queue| in s.log.silent
  {
  }

  lemma TakeKeepsQueue(s: State)
    requires QueueOk(s) && LastStamped(s) && (s.core.infoPending || s.core.queue != [])
    ensures QueueOk(TakeStep(s)) && LastStamped(TakeStep(s))
  {
  }

  lemma TakeKeepsCounts(s: State)
    requires Ledger(s) && Discards(s) && s.publisher.Idle? && (s.core.infoPending || s.core.queue != [])
    requires s.core.queue != [] ==> s.core.queue[0].generation == s.core.generation
    ensures Ledger(TakeStep(s)) && Discards(TakeStep(s))
  {
    hide Reported;
  }

  lemma TakeKeepsRaces(s: State)
    requires RacesOk(s) && QueueOk(s) && s.publisher.Idle? && !s.core.stopping
    requires s.core.infoPending || s.core.queue != []
    ensures RacesOk(TakeStep(s))
  {
    hide LastStamped;
    var t := TakeStep(s);
    forall g: nat | g in t.log.gaps ensures GapOk(t, g) { assert GapOk(s, g); }
    forall g: nat | g in t.log.silent ensures SilentOk(t, g) { assert SilentOk(s, g); }
  }

  /** What is queued is of the running session. */
  lemma QueueSession(s: State)
    requires QueueOk(s) && LastStamped(s) && Stamps(s) && s.core.queue != [] && !s.core.stopping
    ensures s.core.queue[0].session == s.session
  {
    var n, q := |s.log.stamped|, |s.core.queue|;
    assert s.log.stamped[n - q] == s.core.queue[0];
    if q > 1 { StampedOrder(s, n - q, n - 1); }
  }

  lemma TakeKeepsInv(s: State)
    requires Inv(s) && s.publisher.Idle? && !s.core.stopping && (s.core.infoPending || s.core.queue != [])
    ensures Inv(TakeStep(s))
  {
    hide Reported, Stamps, Publishes, FlightOk, FrontOk, InfosOk, LastStamped, Ledger, Discards, RacesOk;
    TakeKeepsRaces(s);
    SameStamps(s, TakeStep(s));
    SamePublishes(s, TakeStep(s));
    TakeKeepsInfos(s);
    if s.core.queue != [] { QueueSession(s); }
    TakeKeepsFlight(s);
    TakeKeepsFront(s);
    TakeKeepsQueue(s);
    TakeKeepsCounts(s);
  }

  lemma SameQueue(s: State, t: State)
    requires QueueOk(s) && LastStamped(s) && t.log.stamped == s.log.stamped && t.log.offered == s.log.offered
    requires t == s.(publisher := t.publisher, log := t.log)
    ensures QueueOk(t) && LastStamped(t)
  {
  }

  /** What is on its way stays so or is found stale already. */
  lemma SameView(s: State, t: State)
    requires FrontOk(s) && InfosOk(s) && Front(t) == Front(s) && InfoComing(t) == InfoComing(s)
    requires t.core == s.core && t.purged == s.purged && t.enabled == s.enabled
    requires t.log.stamped == s.log.stamped && t.log.gaps == s.log.gaps && t.log.silent == s.log.silent
    ensures FrontOk(t) && InfosOk(t)
  {
    hide Front, InfoComing;
  }

  lemma SameSilence(s: State, t: State, g: nat)
    requires SilentOk(s, g) && t.log == s.log.(discards := t.log.discards) && t.core == s.core
    requires t.publisher.Idle? || t.publisher.ClearedFrame?
             || (t.publisher.ClearedInfo? && s.publisher == PoppedInfo(t.publisher.info, s.core.generation))
    ensures SilentOk(t, g)
  {
  }

  lemma CompareInfoKeeps(s: State)
    requires PublisherOk(s) && RacesOk(s) && Ledger(s) && Discards(s) && s.publisher.PoppedInfo?
    ensures var t := ComparedInfo(s); PublisherOk(t) && RacesOk(t) && Ledger(t) && Discards(t)
  {
    hide Reported, FrontOk, InfosOk, SilentOk;
    var t := ComparedInfo(s);
    SameView(s, t);
    forall g: nat | g in t.log.gaps ensures GapOk(t, g) { assert GapOk(s, g); }
    forall g: nat | g in t.log.silent ensures SilentOk(t, g) { SameSilence(s, t, g); }
  }

  lemma CompareFrameKeepsFlight(s: State)
    requires FlightOk(s) && s.publisher.PoppedFrame?
    ensures FlightOk(ComparedFrame(s))
  {
    hide InSequence;
    var t := ComparedFrame(s);
    assert LastPublished(t, |t.log.published|) == LastPublished(s, |s.log.published|);
    if t.publisher.ClearedFrame? {
      SameInSequence(s, t, LastPublished(s, |s.log.published|), s.publisher.frame);
    }
  }

  lemma CompareFrameKeepsView(s: State)
    requires s.publisher.PoppedFrame?
    ensures var t := ComparedFrame(s); Front(t) == Front(s) && InfoComing(t) == InfoComing(s)
  {
  }

  lemma CompareFrameKeepsPublisher(s: State)
    requires PublisherOk(s) && s.publisher.PoppedFrame?
    ensures PublisherOk(ComparedFrame(s))
  {
    hide FlightOk, FrontOk, InfosOk, Front, InfoComing;
    CompareFrameKeepsFlight(s);
    CompareFrameKeepsView(s);
    SameView(s, ComparedFrame(s));
  }

  lemma CompareFrameKeepsGap(s: State, g: nat)
    requires GapOk(s, g) && s.publisher.PoppedFrame?
    ensures GapOk(ComparedFrame(s), g)
  {
  }

  lemma CompareFrameKeepsRaces(s: State)
    requires RacesOk(s) && s.publisher.PoppedFrame?
    ensures RacesOk(ComparedFrame(s))
  {
    hide GapOk, SilentOk;
    var t := ComparedFrame(s);
    forall g: nat | g in t.log.gaps ensures GapOk(t, g) { CompareFrameKeepsGap(s, g); }
    forall g: nat | g in t.log.silent ensures SilentOk(t, g) { SameSilence(s, t, g); }
  }

  lemma CompareFrameKeepsCounts(s: State)
    requires Ledger(s) && Discards(s) && s.publisher.PoppedFrame?
    ensures Ledger(ComparedFrame(s)) && Discards(ComparedFrame(s))
  {
    hide Reported;
    assert ComparedFrame(s).log.stamped == s.log.stamped && ComparedFrame(s).core == s.core;
  }

  /** A step of the publisher that publishes nothing. */
  lemma ComparedKeepsInv(s: State, t: State)
    requires Inv(s) && t == s.(publisher := t.publisher, log := s.log.(discards := t.log.discards))
    requires PublisherOk(t) && RacesOk(t) && Ledger(t) && Discards(t)
    ensures Inv(t)
  {
    hide Stamps, Publishes, QueueOk, PublisherOk, LastStamped, Ledger, Discards, RacesOk;
    SameStamps(s, t);
    SamePublishes(s, t);
    SameQueue(s, t);
  }

  lemma CompareKeepsInv(s: State)
    requires Inv(s) && (s.publisher.PoppedInfo? || s.publisher.PoppedFrame?)
    ensures Inv(CompareStep(s))
  {
    hide Stamps, Publishes, QueueOk, PublisherOk, LastStamped, Ledger, Discards, RacesOk;
    if s.publisher.PoppedInfo? {
      CompareInfoKeeps(s);
      ComparedKeepsInv(s, ComparedInfo(s));
    } else {
      CompareFrameKeepsCounts(s);
      CompareFrameKeepsRaces(s);
      CompareFrameKeepsPublisher(s);
      ComparedKeepsInv(s, ComparedFrame(s));
    }
  }

  lemma PublishFrameKeepsLog(s: State)
    requires Publishes(s) && FlightOk(s) && s.publisher.ClearedFrame?
    ensures Publishes(SentFrame(s))
  {
    hide InSequence;
    var t := SentFrame(s);
    forall i: nat | i < |t.log.published|
      ensures PublishOk(t, i)
    {
      assert i < |s.log.published| ==> PublishOk(s, i);
      assert LastPublished(t, i) == LastPublished(s, i);
      SameInSequence(s, t, LastPublished(s, i), t.log.published[i]);
    }
  }

  lemma SameInSequence(s: State, t: State, last: int, f: Frame)
    requires InSequence(s, last, f)
    requires t.log.gaps == s.log.gaps && t.log.silent == s.log.silent && t.log.infos == s.log.infos
    ensures InSequence(t, last, f)
  {
  }

  lemma PublishFrameKeepsPublisher(s: State)
    requires PublisherOk(s) && s.publisher.ClearedFrame?
    ensures PublisherOk(SentFrame(s))
  {
    hide FrontOk, InfosOk;
    SameView(s, SentFrame(s));
  }

  lemma PublishFrameKeepsRaces(s: State)
    requires RacesOk(s) && s.publisher.ClearedFrame?
    ensures RacesOk(SentFrame(s))
  {
    var t := SentFrame(s);
    forall g: nat | g in t.log.gaps ensures GapOk(t, g) { assert GapOk(s, g); }
    forall g: nat | g in t.log.silent ensures SilentOk(t, g) { assert SilentOk(s, g); }
  }

  lemma PublishInfoKeepsPublisher(s: State)
    requires PublisherOk(s) && s.publisher.ClearedInfo?
    ensures PublisherOk(SentInfo(s))
  {
    hide FrontOk, InfosOk;
    assert InfoComing(SentInfo(s)) == InfoComing(s);
    SameView(s, SentInfo(s));
  }

  lemma PublishInfoKeepsRaces(s: State)
    requires RacesOk(s) && s.publisher.ClearedInfo?
    ensures RacesOk(SentInfo(s))
  {
    var t := SentInfo(s);
    forall g: nat | g in t.log.gaps ensures GapOk(t, g) { assert GapOk(s, g); }
    forall g: nat | g in t.log.silent ensures SilentOk(t, g) { assert SilentOk(s, g); }
  }

  lemma PublishKeepsCounts(s: State)
    requires Ledger(s) && Discards(s) && (s.publisher.ClearedInfo? || s.publisher.ClearedFrame?)
    ensures Ledger(PublishStep(s)) && Discards(PublishStep(s))
  {
    hide Reported;
  }

  lemma SentKeepsQueue(s: State, t: State)
    requires Stamps(s) && QueueOk(s) && LastStamped(s)
    requires t == s.(publisher := t.publisher, log := s.log.(infos := t.log.infos, published := t.log.published))
    ensures Stamps(t) && QueueOk(t) && LastStamped(t)
  {
    hide QueueOk, LastStamped, Stamps;
    SameStamps(s, t);
    SameQueue(s, t);
  }

  lemma PublishKeepsInv(s: State)
    requires Inv(s) && (s.publisher.ClearedInfo? || s.publisher.ClearedFrame?)
    ensures Inv(PublishStep(s))
  {
    hide Stamps, Publishes, QueueOk, FlightOk, FrontOk, InfosOk, LastStamped, RacesOk, Ledger, Discards;
    PublishKeepsCounts(s);
    if s.publisher.ClearedInfo? {
      SamePublishes(s, SentInfo(s));
      SentKeepsQueue(s, SentInfo(s));
      PublishInfoKeepsPublisher(s);
      PublishInfoKeepsRaces(s);
    } else {
      PublishFrameKeepsLog(s);
      SentKeepsQueue(s, SentFrame(s));
      PublishFrameKeepsPublisher(s);
      PublishFrameKeepsRaces(s);
    }
  }

  lemma StopKeepsShape(s: State)
    requires Shape(s)
    ensures Shape(StopStep(s))
  {
  }

  lemma StopKeepsRaces(s: State)
    requires RacesOk(s) && FlightOk(s)
    ensures RacesOk(StopStep(s))
  {
    var t := StopStep(s);
    forall g: nat | g in t.log.gaps ensures GapOk(t, g) { assert GapOk(s, g); }
    forall g: nat | g in t.log.silent ensures SilentOk(t, g) { assert SilentOk(s, g); }
  }

  lemma StopKeepsInv(s: State)
    requires Inv(s)
    ensures Inv(StopStep(s))
  {
    hide QueueOk, LastStamped, FlightOk, FrontOk, InfosOk, Stamps, Publishes, RacesOk, Reported;
    StopKeepsShape(s);
    StopKeepsRaces(s);
    SameStamps(s, StopStep(s));
    SamePublishes(s, StopStep(s));
  }

  lemma SessionKeepsInv(s: State, session: nat)
    requires Inv(s) && s.held.None? && (s.unstamped || s.log.stamped == [])
    ensures Inv(Fire(s, OpenSession(session)))
  {
    hide Stamps, Publishes, RacesOk, FlightOk, Reported;
    var t := Fire(s, OpenSession(session));
    SameStamps(s, t);
    SamePublishes(s, t);
    SessionKeepsFlight(s, t);
    SessionKeepsRaces(s, t);
  }

  lemma SessionKeepsFlight(s: State, t: State)
    requires FlightOk(s) && t == s.(session := t.session, core := s.core.(infoPending := s.enabled))
    ensures FlightOk(t)
  {
  }

  lemma SessionKeepsRaces(s: State, t: State)
    requires RacesOk(s) && LastStamped(s) && (s.unstamped || s.log.stamped == [])
    requires t == s.(session := t.session, core := s.core.(infoPending := s.enabled))
    ensures RacesOk(t)
  {
    forall g: nat | g in t.log.gaps ensures GapOk(t, g) { assert GapOk(s, g); }
    forall g: nat | g in t.log.silent ensures SilentOk(t, g) { assert SilentOk(s, g); }
  }

  /** What is in hand is from the running session. */
  lemma HandIsCurrent(s: State)
    requires Inv(s)
    ensures s.capacity > 0 && (s.held.Some? ==> s.enabled && s.held.value.session == s.session)
  {
    hide Stamps, Publishes, RacesOk, PublisherOk, QueueOk, Ledger;
  }

  predicate OfFields(e: Event) { e.Connect? || e.Activate? || e.Disconnect? || e.Ask? || e.Offer? }

  lemma FieldsKeepFrames(s: State, e: Event)
    requires LastStamped(s) && Enabled(s, e) && OfFields(e)
    ensures SameFrames(s, Fire(s, e)) && LastStamped(Fire(s, e))
  {
    hide BeginEpoch, StampUnit, TakeStep, CompareStep, PublishStep, DisconnectPurgeStep, StopStep;
  }

  lemma FieldsKeepInv(s: State, e: Event)
    requires Inv(s) && Enabled(s, e) && OfFields(e)
    ensures Inv(Fire(s, e))
  {
    hide Stamps, Publishes, RacesOk, PublisherOk, QueueOk, Ledger, LastStamped, Discards, Fire, SameFrames, Enabled;
    FieldsKeepFrames(s, e);
    SameFramesKeepInv(s, Fire(s, e));
  }

  lemma BeginEventKeepsInv(s: State, d: Discontinuity)
    requires Inv(s) && d != NoDiscontinuity
    ensures Inv(BeginEpoch(s, d).(unstamped := true)) && Inv(BeginEpoch(s, d).(subscribers := Activating))
  {
    hide Inv;
    BeginKeepsInv(s, d);
    var t := BeginEpoch(s, d);
    BegunLast(s, d);
    SameFramesKeepInv(t, t.(unstamped := true));
    SameFramesKeepInv(t, t.(subscribers := Activating));
  }

  lemma BegunLast(s: State, d: Discontinuity)
    requires Inv(s)
    ensures LastStamped(BeginEpoch(s, d).(unstamped := true))
    ensures LastStamped(BeginEpoch(s, d).(subscribers := Activating))
  {
    hide Publishes, RacesOk, PublisherOk, QueueOk, Ledger, Discards;
    BeginKeepsLast(s, d);
    hide Stamps;
  }

  lemma FireKeepsInv(s: State, e: Event)
    requires Inv(s) && Enabled(s, e)
    ensures Inv(Fire(s, e))
  {
    hide Inv, BeginEpoch, StampUnit, TakeStep, CompareStep, PublishStep, DisconnectPurgeStep, StopStep;
    match e
    case Begin(d) => BeginEventKeepsInv(s, d);
    case ConnectEpoch => BeginEventKeepsInv(s, StreamStart);
    case OpenSession(session) => SessionKeepsInv(s, session);
    case DisconnectPurge => PurgeKeepsInv(s);
    case Stamp =>
      HandIsCurrent(s);
      StampKeepsInv(s, s.held.value);
    case Take => TakeKeepsInv(s);
    case Compare => CompareKeepsInv(s);
    case Publish => PublishKeepsInv(s);
    case Stop => StopKeepsInv(s);
    case _ => FieldsKeepInv(s, e);
  }

  lemma StepKeepsInv(s: State, e: Event)
    requires Inv(s)
    ensures Inv(Step(s, e))
  {
    hide Inv, Fire;
    if Enabled(s, e) {
      LastStampedByInv(s);
      SameFramesKeepInv(s, s.(force := false));
      FireKeepsInv(s.(force := false), e);
    }
  }

  lemma {:induction false} RunKeepsInv(s: State, events: seq<Event>)
    requires Inv(s)
    ensures Inv(Run(s, events))
    decreases |events|
  {
    if events != [] {
      StepKeepsInv(s, events[0]);
      RunKeepsInv(Step(s, events[0]), events[1..]);
    }
  }

  lemma InitialInv(enabled: bool, capacity: nat)
    requires capacity > 0
    ensures Inv(Initial(enabled, capacity))
  {
  }

  // ----- what every run keeps -----

  /** Stamped frames are ordered by epoch and number, without gaps inside an epoch. */
  lemma {:induction false} StampedOrder(s: State, i: nat, j: nat)
    requires Stamps(s) && i < j < |s.log.stamped|
    ensures var e, f := s.log.stamped[i], s.log.stamped[j];
            && e.epoch <= f.epoch
            && (e.epoch == f.epoch ==> f.number == e.number + (j - i) && f.offer == e.offer + (j - i)
                                       && f.session == e.session)
            && (e.epoch < f.epoch ==> f.number < j - i)
    decreases j
  {
    assert StampOk(s, j);
    if i < j - 1 {
      StampedOrder(s, i, j - 1);
    }
  }

  /** An epoch is pending exactly if no frame of it is stamped. */
  lemma PendingEpoch(s: State)
    requires Inv(s)
    ensures s.core.waiting && s.core.next == 0 <==> forall f :: f in s.log.stamped ==> f.epoch != s.core.epoch
  {
    hide PublisherOk, Publishes, Ledger, RacesOk, Discards;
    var n := |s.log.stamped|;
    if s.core.next == 0 {
      forall i | 0 <= i < n
        ensures s.log.stamped[i].epoch < s.core.epoch
      {
        if i < n - 1 { StampedOrder(s, i, n - 1); }
      }
    } else {
      assert s.log.stamped[n - 1] in s.log.stamped;
    }
  }

  /** Frame `k` of the published prefix that ends at place `i`. */
  predicate PrefixFrame(s: State, i: nat, k: nat)
    requires i < |s.log.published| && k <= s.log.published[i].number <= i
  {
    var f := s.log.published[i];
    var g := s.log.published[i - f.number + k];
    && g.epoch == f.epoch && g.number == k && g.session == f.session && g.offer + f.number == f.offer + k
    && g.offer < |s.log.offered| && s.log.offered[g.offer] == AccessUnit(g.key, g.session)
    && (k == 0 <==> g.discontinuity != NoDiscontinuity) && (k == 0 ==> g.key)
  }

  /** The published frames that end at place `i` are the frames 0 to `number` of one epoch in order: frame 0
      a keyframe with the discontinuity, the others without one, made of consecutive offered units. */
  predicate PrefixPublished(s: State, i: nat)
    requires i < |s.log.published|
  {
    && s.log.published[i].number <= i
    && forall k: nat {:trigger PrefixFrame(s, i, k)} :: k <= s.log.published[i].number ==> PrefixFrame(s, i, k)
  }

  /** No gap of the frame's epoch lies at or before it. */
  predicate NoGap(s: State, f: Frame) {
    forall g: nat :: g in s.log.gaps && g <= f.index && g < |s.log.stamped| ==> s.log.stamped[g].epoch != f.epoch
  }

  lemma {:induction false} PublishedPrefix(s: State, i: nat)
    requires Inv(s) && i < |s.log.published| && NoGap(s, s.log.published[i])
    ensures PrefixPublished(s, i)
    decreases i
  {
    hide Ledger, Shape, Discards, RacesOk;
    var f := s.log.published[i];
    assert PublishOk(s, i) && StampOk(s, f.index);
    if f.number > 0 {
      assert f.index !in s.log.gaps;
      var e := s.log.published[i - 1];
      assert PublishOk(s, i - 1);
      assert e == s.log.stamped[f.index - 1];
      PublishedPrefix(s, i - 1);
      forall k: nat | k <= f.number
        ensures PrefixFrame(s, i, k)
      {
        assert k < f.number ==> PrefixFrame(s, i - 1, k);
      }
    } else {
      assert PrefixFrame(s, i, 0);
    }
  }

  /** A stamped frame is known by its epoch and number. */
  lemma UniqueFrame(s: State, a: nat, b: nat)
    requires Stamps(s) && a < |s.log.stamped| && b < |s.log.stamped|
    requires s.log.stamped[a].epoch == s.log.stamped[b].epoch && s.log.stamped[a].number == s.log.stamped[b].number
    ensures a == b
  {
    if a < b {
      StampedOrder(s, a, b);
    } else if b < a {
      StampedOrder(s, b, a);
    }
  }

  /** Behind a gap nothing of the epoch is published as a prefix: what the gap is behind is missing. */
  lemma GapBreaksPrefix(s: State, i: nat, g: nat)
    requires Inv(s) && i < |s.log.published| && g in s.log.gaps && g <= s.log.published[i].index
    requires g < |s.log.stamped| && s.log.stamped[g].epoch == s.log.published[i].epoch
    ensures !PrefixPublished(s, i)
  {
    hide Ledger, Shape, Discards;
    var f := s.log.published[i];
    assert PublishOk(s, i) && StampOk(s, g) && GapOk(s, g);
    if g < f.index {
      StampedOrder(s, g, f.index);
    }
    var k: nat := s.log.stamped[g].number - 1;
    if f.number <= i {
      var j := i - f.number + k;
      assert PublishOk(s, j);
      var p := s.log.published[j];
      if p.epoch == f.epoch && p.number == k {
        UniqueFrame(s, p.index, g - 1);
      }
      assert !PrefixFrame(s, i, k);
    }
  }

  /** No frame is published twice, and epochs are published in order. */
  lemma {:induction false} PublishedInOrder(s: State, i: nat, j: nat)
    requires Inv(s) && i < j < |s.log.published|
    ensures var e, f := s.log.published[i], s.log.published[j];
            e.index < f.index && (e.epoch < f.epoch || (e.epoch == f.epoch && e.number < f.number))
    decreases j
  {
    var e, f := s.log.published[i], s.log.published[j];
    assert PublishOk(s, j) && PublishOk(s, i);
    if i < j - 1 {
      PublishedInOrder(s, i, j - 1);
    }
    StampedOrder(s, e.index, f.index);
  }

  /** The recorder's contract in every run. What is published of an epoch is a prefix of what was stamped in it
      exactly up to the first gap, and behind its StreamInfo exactly if the frame is not silent; frames are
      published in order and once; all of an epoch are of one encoder session; and every offered unit is
      accounted for. */
  lemma EveryRun(enabled: bool, capacity: nat, events: seq<Event>)
    requires capacity > 0
    ensures var s := Run(Initial(enabled, capacity), events);
            && (forall i: nat :: i < |s.log.published| ==>
                  && (PrefixPublished(s, i) <==> NoGap(s, s.log.published[i]))
                  && (InfoOf(s.log.published[i]) in s.log.infos <==> s.log.published[i].index !in s.log.silent))
            && (forall i, j :: 0 <= i < j < |s.log.published| ==>
                  var e, f := s.log.published[i], s.log.published[j];
                  e.index < f.index && (e.epoch < f.epoch || (e.epoch == f.epoch && e.number < f.number)))
            && (forall i, j :: 0 <= i < j < |s.log.stamped| && s.log.stamped[i].epoch == s.log.stamped[j].epoch ==>
                  s.log.stamped[i].session == s.log.stamped[j].session)
            && Ledger(s)
            && s.log.discards <= s.core.generation
  {
    InitialInv(enabled, capacity);
    RunKeepsInv(Initial(enabled, capacity), events);
    var s := Run(Initial(enabled, capacity), events);
    hide Shape, Ledger, Run, Stamps, Publishes, RacesOk, PrefixPublished;
    forall i: nat | i < |s.log.published|
      ensures PrefixPublished(s, i) <==> NoGap(s, s.log.published[i])
      ensures InfoOf(s.log.published[i]) in s.log.infos <==> s.log.published[i].index !in s.log.silent
    {
      PrefixUpToTheGap(s, i);
    }
    forall i, j | 0 <= i < j < |s.log.published|
      ensures var e, f := s.log.published[i], s.log.published[j];
              e.index < f.index && (e.epoch < f.epoch || (e.epoch == f.epoch && e.number < f.number))
    {
      PublishedInOrder(s, i, j);
    }
    forall i, j | 0 <= i < j < |s.log.stamped| && s.log.stamped[i].epoch == s.log.stamped[j].epoch
      ensures s.log.stamped[i].session == s.log.stamped[j].session
    {
      StampedOrder(s, i, j);
    }
  }

  lemma PrefixUpToTheGap(s: State, i: nat)
    requires Inv(s) && i < |s.log.published|
    ensures PrefixPublished(s, i) <==> NoGap(s, s.log.published[i])
    ensures InfoOf(s.log.published[i]) in s.log.infos <==> s.log.published[i].index !in s.log.silent
  {
    hide Ledger, Shape, Discards, PrefixPublished;
    var f := s.log.published[i];
    assert PublishOk(s, i);
    assert f.index in s.log.silent ==> SilentOk(s, f.index);
    if NoGap(s, f) {
      PublishedPrefix(s, i);
    } else {
      var g: nat :| g in s.log.gaps && g <= f.index && g < |s.log.stamped| && s.log.stamped[g].epoch == f.epoch;
      GapBreaksPrefix(s, i, g);
    }
  }

  // ----- why epochs begin, and when units are taken -----

  function Reason(e: Event): Discontinuity {
    match e
    case Begin(d) => d
    case ConnectEpoch => StreamStart
    case _ => QueueOverflow
  }

  function Begun(s: State, e: Event): seq<Discontinuity> {
    if Step(s, e).core.epoch > s.core.epoch then [Reason(e)] else []
  }

  /** Why each epoch of the run began. */
  function Reasons(s: State, events: seq<Event>): seq<Discontinuity>
    decreases |events|
  {
    if events == [] then [] else Begun(s, events[0]) + Reasons(Step(s, events[0]), events[1..])
  }

  /** The reason of an epoch; the one before the first connection starts the stream. */
  function ReasonAt(reasons: seq<Discontinuity>, epoch: nat): Discontinuity {
    if 0 < epoch <= |reasons| then reasons[epoch - 1] else StreamStart
  }

  predicate FirstOk(f: Frame, reasons: seq<Discontinuity>) {
    f.number == 0 ==> f.discontinuity == ReasonAt(reasons, f.epoch) && f.epoch <= |reasons|
  }

  predicate ReasonsOk(s: State, reasons: seq<Discontinuity>) {
    && |reasons| == s.core.epoch && (s.core.waiting ==> s.core.pending == ReasonAt(reasons, s.core.epoch))
    && forall i {:trigger s.log.stamped[i]} :: 0 <= i < |s.log.stamped| ==> FirstOk(s.log.stamped[i], reasons)
  }

  /** The active consumers are the connections, but for the moments of the first and the last one. */
  predicate ConsumersOk(s: State) {
    !s.core.stopping ==>
      && (s.subscribers.Quiet? ==> (s.consumers <==> s.connections > 0))
      && (s.subscribers.Connecting? || s.subscribers.Activating? ==> s.connections > 0 && !s.consumers)
      && (s.subscribers.Disconnecting? ==> s.connections == 0 && !s.consumers)
  }

  lemma MoreReasons(reasons: seq<Discontinuity>, more: seq<Discontinuity>)
    ensures forall f {:trigger FirstOk(f, reasons)} :: FirstOk(f, reasons) ==> FirstOk(f, reasons + more)
  {
  }

  lemma BeginKeepsReasons(s: State, d: Discontinuity, reasons: seq<Discontinuity>)
    requires ReasonsOk(s, reasons)
    ensures var t := BeginEpoch(s, d);
            && s.core.epoch <= t.core.epoch <= s.core.epoch + 1 && t.log == s.log
            && (if t.core.epoch > s.core.epoch then ReasonsOk(t, reasons + [d]) else ReasonsOk(t, reasons))
  {
    MoreReasons(reasons, [d]);
    hide FirstOk;
  }

  lemma AcceptKeepsReasons(s: State, unit: AccessUnit, reasons: seq<Discontinuity>)
    requires ReasonsOk(s, reasons) && (s.core.next == 0 ==> s.core.waiting)
    ensures ReasonsOk(Accepted(s, unit), reasons) && Accepted(s, unit).core.epoch == s.core.epoch
  {
    hide BehindGap, InfoComing;
    assert Accepted(s, unit).log.stamped == s.log.stamped + [NewFrame(s, unit)];
    assert FirstOk(NewFrame(s, unit), reasons);
    hide FirstOk;
  }

  lemma DropKeepsReasons(s: State, unit: AccessUnit, c: Core, reasons: seq<Discontinuity>)
    requires ReasonsOk(s, reasons) && c.epoch == s.core.epoch && c.waiting == s.core.waiting
    requires c.pending == s.core.pending
    ensures ReasonsOk(Dropped(s, unit, c), reasons) && Dropped(s, unit, c).core.epoch == s.core.epoch
  {
    hide FirstOk;
  }

  lemma OverflowKeepsReasons(s: State, additional: nat, reasons: seq<Discontinuity>)
    requires ReasonsOk(s, reasons)
    ensures var t := s.(core := Advanced(s.core, QueueOverflow, additional), purged := false);
            ReasonsOk(t, reasons + [QueueOverflow]) && t.core.epoch == s.core.epoch + 1
  {
    MoreReasons(reasons, [QueueOverflow]);
    hide FirstOk;
  }

  lemma StampKeepsReasons(s: State, unit: AccessUnit, reasons: seq<Discontinuity>)
    requires ReasonsOk(s, reasons) && (s.core.next == 0 ==> s.core.waiting)
    ensures var t := StampUnit(s, unit);
            && s.core.epoch <= t.core.epoch <= s.core.epoch + 1
            && ReasonsOk(t, if t.core.epoch > s.core.epoch then reasons + [QueueOverflow] else reasons)
  {
    hide StampUnit, Accepted, Dropped, Advanced, FirstOk;
    StampEffect(s, unit);
    var c, full := s.core, |s.core.queue| >= s.capacity;
    if !c.stopping && full {
      var moved := s.(core := Advanced(c, QueueOverflow, if unit.key then 0 else 1), purged := false);
      OverflowKeepsReasons(s, if unit.key then 0 else 1, reasons);
      if unit.key {
        AcceptKeepsReasons(moved, unit, reasons + [QueueOverflow]);
      } else {
        DropKeepsReasons(moved, unit, moved.core, reasons + [QueueOverflow]);
      }
    } else if !c.stopping && c.waiting && !unit.key {
      DropKeepsReasons(s, unit, c.(dropped := c.dropped + 1), reasons);
    } else if !c.stopping {
      AcceptKeepsReasons(s, unit, reasons);
    }
  }

  /** Steps that begin no epoch and stamp nothing. */
  predicate SameReasons(s: State, t: State) {
    && t.core.epoch == s.core.epoch && t.core.waiting == s.core.waiting && t.core.pending == s.core.pending
    && t.log.stamped == s.log.stamped
  }

  lemma PublisherKeepsReasons(s: State, e: Event)
    requires Enabled(s, e) && (e.Take? || e.Compare? || e.Publish?)
    ensures SameReasons(s, Fire(s, e))
  {
    hide BeginEpoch, StampUnit, TakeStep, CompareStep, PublishStep, DisconnectPurgeStep, StopStep;
    if e.Take? { TakeKeepsConsumers(s); } else { PublisherKeepsConsumers(s, e); }
  }

  lemma SubscribersKeepReasons(s: State, e: Event)
    requires Enabled(s, e) && !e.Begin? && !e.ConnectEpoch? && !e.Stamp? && !e.Take? && !e.Compare? && !e.Publish?
    ensures SameReasons(s, Fire(s, e))
  {
    hide BeginEpoch, StampUnit, TakeStep, CompareStep, PublishStep;
  }

  lemma OtherKeepsReasons(s: State, e: Event, reasons: seq<Discontinuity>)
    requires ReasonsOk(s, reasons) && Enabled(s, e) && !e.Begin? && !e.ConnectEpoch? && !e.Stamp?
    ensures ReasonsOk(Fire(s, e), reasons) && Fire(s, e).core.epoch == s.core.epoch
  {
    hide Fire, FirstOk, Enabled;
    if e.Take? || e.Compare? || e.Publish? { PublisherKeepsReasons(s, e); } else { SubscribersKeepReasons(s, e); }
  }

  lemma WaitingByInv(s: State)
    requires Inv(s)
    ensures s.core.next == 0 ==> s.core.waiting
  {
    hide Stamps, Publishes, RacesOk, PublisherOk, LastStamped, Ledger;
  }

  lemma StepKeepsReasons(s: State, e: Event, reasons: seq<Discontinuity>)
    requires Inv(s) && ReasonsOk(s, reasons)
    ensures ReasonsOk(Step(s, e), reasons + Begun(s, e))
  {
    hide Inv, BeginEpoch, StampUnit, TakeStep, CompareStep, PublishStep, DisconnectPurgeStep, StopStep, FirstOk;
    WaitingByInv(s);
    assert reasons + [] == reasons;
    if Enabled(s, e) {
      var r := s.(force := false);
      match e
      case Begin(d) => BeginKeepsReasons(r, d, reasons);
      case ConnectEpoch => BeginKeepsReasons(r, StreamStart, reasons);
      case Stamp => StampKeepsReasons(r, r.held.value, reasons);
      case _ => OtherKeepsReasons(r, e, reasons);
    }
  }

  lemma StepKeepsActive(s: State, e: Event)
    requires ConsumersOk(s)
    ensures ConsumersOk(Step(s, e))
  {
    hide TakeStep, CompareStep, PublishStep, StampUnit, StopStep, BeginEpoch;
    if Enabled(s, e) {
      var r := s.(force := false);
      match e
      case Stamp => StampKeepsSubscribers(r, r.held.value);
      case Take => TakeKeepsConsumers(r);
      case Compare => PublisherKeepsConsumers(r, e);
      case Publish => PublisherKeepsConsumers(r, e);
      case Stop => StopKeepsConsumers(r);
      case Begin(d) => BeginKeepsConsumers(r, d);
      case ConnectEpoch => BeginKeepsConsumers(r, StreamStart);
      case _ =>
    }
  }

  lemma StampKeepsSubscribers(s: State, unit: AccessUnit)
    ensures var t := StampUnit(s, unit);
            t.consumers == s.consumers && t.connections == s.connections && t.subscribers == s.subscribers
            && t.core.stopping == s.core.stopping
  {
    hide BehindGap, InfoComing, NewFrame, StampUnit;
    StampEffect(s, unit);
  }

  lemma {:induction false} RunKeepsReasons(s: State, events: seq<Event>, reasons: seq<Discontinuity>)
    requires Inv(s) && ReasonsOk(s, reasons) && ConsumersOk(s)
    ensures ReasonsOk(Run(s, events), reasons + Reasons(s, events)) && ConsumersOk(Run(s, events))
    decreases |events|
  {
    hide Inv, Step, ReasonsOk, ConsumersOk, Begun;
    if events == [] {
      assert reasons + [] == reasons;
    } else {
      StepKeepsInv(s, events[0]);
      StepKeepsReasons(s, events[0], reasons);
      StepKeepsActive(s, events[0]);
      RunKeepsReasons(Step(s, events[0]), events[1..], reasons + Begun(s, events[0]));
      assert reasons + Begun(s, events[0]) + Reasons(Step(s, events[0]), events[1..])
          == reasons + (Begun(s, events[0]) + Reasons(Step(s, events[0]), events[1..]));
    }
  }

  /** In every run, an epoch's first frame says why the epoch began: a connection, what the render thread says, or an
      overflow; and units are taken exactly while somebody is connected, but for the moments of the first and the last
      connection. */
  lemma EpochsSayWhy(enabled: bool, capacity: nat, events: seq<Event>)
    requires capacity > 0
    ensures var s, reasons := Run(Initial(enabled, capacity), events), Reasons(Initial(enabled, capacity), events);
            && |reasons| == s.core.epoch
            && (forall i {:trigger s.log.stamped[i]} :: 0 <= i < |s.log.stamped| && s.log.stamped[i].number == 0 ==>
                  s.log.stamped[i].discontinuity == ReasonAt(reasons, s.log.stamped[i].epoch))
            && (!s.core.stopping && s.subscribers.Quiet? ==> (s.consumers <==> s.connections > 0))
  {
    hide Inv, Run, Reasons;
    InitialInv(enabled, capacity);
    RunKeepsReasons(Initial(enabled, capacity), events, []);
    assert [] + Reasons(Initial(enabled, capacity), events) == Reasons(Initial(enabled, capacity), events);
  }

  /** Exactly which steps ask for a keyframe: a later connection, the beginning of an epoch, and a unit that is offered
      and not stamped. */
  lemma ForceExactly(s: State, e: Event)
    ensures var t := Step(s, e);
            Enabled(s, e) ==>
              (t.force <==> (e.Connect? && s.connections > 0)
                            || ((e.Begin? || e.ConnectEpoch?) && s.enabled && !s.core.stopping)
                            || (e.Stamp? && |t.log.offered| > |s.log.offered| && t.log.stamped == s.log.stamped))
  {
    hide TakeStep, CompareStep, PublishStep, StampUnit, StopStep, DisconnectPurgeStep;
    if Enabled(s, e) {
      var r := s.(force := false);
      match e
      case Stamp => StampForces(r, r.held.value);
      case Take => TakeKeepsConsumers(r);
      case Compare => PublisherKeepsConsumers(r, e);
      case Publish => PublisherKeepsConsumers(r, e);
      case Stop => QuietStop(r);
      case DisconnectPurge => QuietPurge(r);
      case _ =>
    }
  }

  lemma StampForces(s: State, unit: AccessUnit)
    requires !s.force
    ensures var t := StampUnit(s, unit);
            t.force <==> |t.log.offered| > |s.log.offered| && t.log.stamped == s.log.stamped
  {
    hide BehindGap, InfoComing;
  }

  lemma QuietStop(s: State)
    ensures StopStep(s).force == s.force
  {
  }

  lemma QuietPurge(s: State)
    ensures DisconnectPurgeStep(s).force == s.force
  {
  }

  // ----- what the recorder is told about losses -----

  lemma {:induction false} ReportedGrows(frames: seq<Frame>, a: nat, b: nat)
    requires a <= b <= |frames|
    ensures Reported(frames[..a]) <= Reported(frames[..b])
    ensures Reported(frames[..a]) == Reported(frames[..b])
       <==> forall k :: a <= k < b ==> frames[k].droppedBefore == 0
    decreases b
  {
    if a < b {
      ReportedGrows(frames, a, b - 1);
      assert frames[..b][..b - 1] == frames[..b - 1];
    }
  }

  /** The stamped frame is among the first `i` published ones. */
  predicate PublishedBy(s: State, i: nat, k: nat)
    requires i <= |s.log.published|
  {
    exists j :: 0 <= j < i && s.log.published[j].index == k
  }

  /** Of the first `n` stamped frames, every one with a report is among the first `i` published ones. */
  predicate ReportsOut(s: State, i: nat, n: int)
    requires i <= |s.log.published| && n <= |s.log.stamped|
  {
    forall k: nat :: k < n && s.log.stamped[k].droppedBefore > 0 ==> PublishedBy(s, i, k)
  }

  lemma {:induction false} PublishedBelow(s: State, i: nat, j: nat)
    requires Publishes(s) && j < i <= |s.log.published|
    ensures s.log.published[j].index <= LastPublished(s, i)
    decreases i
  {
    if j < i - 1 {
      PublishedBelow(s, i - 1, j);
      assert PublishOk(s, i - 1);
    }
  }

  /** One more published frame: the reports so far are out exactly if those before were and nothing with a report
      was skipped. */
  lemma ReportsOutStep(s: State, i: nat)
    requires Publishes(s) && 0 < i <= |s.log.published|
    ensures LastPublished(s, i - 1) < LastPublished(s, i) < |s.log.stamped|
    ensures ReportsOut(s, i, LastPublished(s, i) + 1)
       <==> ReportsOut(s, i - 1, LastPublished(s, i - 1) + 1)
            && forall k: nat :: LastPublished(s, i - 1) < k < LastPublished(s, i) ==>
                 s.log.stamped[k].droppedBefore == 0
  {
    var last, next := LastPublished(s, i - 1), LastPublished(s, i);
    assert PublishOk(s, i - 1);
    forall j | 0 <= j < i - 1 ensures s.log.published[j].index <= last { PublishedBelow(s, i - 1, j); }
    hide Publishes;
    assert PublishedBy(s, i, next);
    forall k: nat | k <= last ensures PublishedBy(s, i, k) <==> PublishedBy(s, i - 1, k) {}
    forall k: nat | last < k < next ensures !PublishedBy(s, i, k) {}
  }

  lemma {:induction false} PublishedReports(s: State, i: nat)
    requires Publishes(s) && i <= |s.log.published|
    ensures LastPublished(s, i) < |s.log.stamped|
    ensures Reported(s.log.published[..i]) <= Reported(s.log.stamped[..LastPublished(s, i) + 1])
    ensures Reported(s.log.published[..i]) == Reported(s.log.stamped[..LastPublished(s, i) + 1])
       <==> ReportsOut(s, i, LastPublished(s, i) + 1)
    decreases i
  {
    hide Publishes, ReportsOut, Reported;
    if i == 0 {
      NoReports(s);
    } else {
      var last := LastPublished(s, i - 1);
      PublishedReports(s, i - 1);
      ReportsOutStep(s, i);
      LastReport(s, i);
      ReportedGrows(s.log.stamped, last + 1, LastPublished(s, i));
    }
  }

  lemma NoReports(s: State)
    ensures Reported(s.log.published[..0]) == 0 == Reported(s.log.stamped[..0]) && ReportsOut(s, 0, 0)
  {
    assert s.log.published[..0] == [] && s.log.stamped[..0] == [];
  }

  /** The last published frame adds its report to what is published, and to what is stamped up to it. */
  lemma LastReport(s: State, i: nat)
    requires Publishes(s) && 0 < i <= |s.log.published|
    ensures var f := s.log.published[i - 1];
            && LastPublished(s, i) == f.index < |s.log.stamped|
            && Reported(s.log.published[..i]) == Reported(s.log.published[..i - 1]) + f.droppedBefore
            && Reported(s.log.stamped[..f.index + 1]) == Reported(s.log.stamped[..f.index]) + f.droppedBefore
  {
    assert PublishOk(s, i - 1);
    hide Publishes;
    var f := s.log.published[i - 1];
    assert s.log.published[..i][..i - 1] == s.log.published[..i - 1];
    assert s.log.stamped[..f.index + 1][..f.index] == s.log.stamped[..f.index];
  }

  /** Nothing is on its way, no loss waits for a report, none was abandoned, and no report was too large. */
  predicate Settled(s: State) {
    !InFlight(s) && s.core.queue == [] && s.core.dropped == 0 && s.log.abandoned == 0 && s.log.clipped == 0
  }

  /** Published frames never report more losses than there were. They report all of them exactly if everything is
      settled, no popped frame was found stale, and every stamped frame with a report was published. */
  lemma PublishedReportsAreBounds(enabled: bool, capacity: nat, events: seq<Event>)
    requires capacity > 0
    ensures var s := Run(Initial(enabled, capacity), events);
            var lost := |s.log.offered| - |s.log.published|;
            && Reported(s.log.published) <= lost
            && (Reported(s.log.published) == lost
                <==> Settled(s) && s.log.discards == 0
                     && forall f :: f in s.log.stamped && f.droppedBefore > 0 ==> f in s.log.published)
  {
    InitialInv(enabled, capacity);
    RunKeepsInv(Initial(enabled, capacity), events);
    var s := Run(Initial(enabled, capacity), events);
    AllReports(s);
  }

  lemma AllReports(s: State)
    requires Inv(s)
    ensures Reported(s.log.published) <= Reported(s.log.stamped)
    ensures Reported(s.log.published) == Reported(s.log.stamped)
       <==> forall f :: f in s.log.stamped && f.droppedBefore > 0 ==> f in s.log.published
  {
    hide Shape, Ledger, Discards, RacesOk, ReportsOut, PublishedBy;
    var p, n := |s.log.published|, |s.log.stamped|;
    var last := LastPublished(s, p);
    PublishedReports(s, p);
    ReportedGrows(s.log.stamped, last + 1, n);
    assert s.log.published[..p] == s.log.published && s.log.stamped[..n] == s.log.stamped;
    ReportsOutSplit(s, last);
    ReportsOutMeansPublished(s);
  }

  /** Behind the last published frame no report is out. */
  lemma ReportsOutSplit(s: State, last: int)
    requires Stamps(s) && Publishes(s) && last == LastPublished(s, |s.log.published|) < |s.log.stamped|
    ensures ReportsOut(s, |s.log.published|, |s.log.stamped|)
       <==> ReportsOut(s, |s.log.published|, last + 1)
            && forall k :: last + 1 <= k < |s.log.stamped| ==> s.log.stamped[k].droppedBefore == 0
  {
    var p, n := |s.log.published|, |s.log.stamped|;
    forall k: nat | k < n ensures PublishedBy(s, p, k) ==> k <= last { PublishedFrame(s, k); }
    hide Stamps, Publishes, PublishedBy;
  }

  lemma ReportsOutMeansPublished(s: State)
    requires Stamps(s) && Publishes(s)
    ensures ReportsOut(s, |s.log.published|, |s.log.stamped|)
       <==> forall f :: f in s.log.stamped && f.droppedBefore > 0 ==> f in s.log.published
  {
    var p, n := |s.log.published|, |s.log.stamped|;
    forall k: nat | k < n
      ensures PublishedBy(s, p, k) <==> s.log.stamped[k] in s.log.published
    {
      PublishedFrame(s, k);
    }
    hide Stamps, Publishes, PublishedBy;
  }

  /** Being published is the same for a frame and for its place. */
  lemma PublishedFrame(s: State, k: nat)
    requires Stamps(s) && Publishes(s) && k < |s.log.stamped|
    ensures var p := |s.log.published|;
            && (PublishedBy(s, p, k) <==> s.log.stamped[k] in s.log.published)
            && (PublishedBy(s, p, k) ==> k <= LastPublished(s, p))
  {
    var p := |s.log.published|;
    assert StampOk(s, k);
    if PublishedBy(s, p, k) {
      var j :| 0 <= j < p && s.log.published[j].index == k;
      assert PublishOk(s, j);
      PublishedBelow(s, p, j);
    }
    if s.log.stamped[k] in s.log.published {
      var j :| 0 <= j < p && s.log.published[j] == s.log.stamped[k];
      assert s.log.published[j].index == k;
    }
  }

  // ----- if the test and the locked section were one step -----

  /** The last consumer is gone before a disconnect purges, and a new one comes with a new epoch. */
  predicate Consumers(s: State) {
    s.enabled && !s.core.stopping ==>
      && (s.consumers ==> s.connections > 0 && s.subscribers.Quiet?)
      && (s.purged ==> !s.consumers && !s.subscribers.Activating?)
      && (s.subscribers.Activating? ==> s.core.next == 0)
      && (s.log.missed ==> s.core.next == 0 || !s.consumers)
  }

  /** Every offered unit enters the locked section in the very next step. */
  predicate Atomic(events: seq<Event>)
    decreases |events|
  {
    || events == []
    || (!events[0].Offer? && Atomic(events[1..]))
    || (events[0].Offer? && |events| > 1 && events[1].Stamp? && Atomic(events[2..]))
  }

  predicate SameRaces(s: State, t: State) { 
    t.log.gaps == s.log.gaps && t.log.silent == s.log.silent && t.log.skips == s.log.skips
  }

  /** Only a unit that was in hand when the last consumer left can be stamped behind a gap, silently, or behind a
      unit that found none. */
  lemma StampWithoutRace(s: State, unit: AccessUnit)
    requires Inv(s) && s.enabled && Consumers(s) && (s.consumers || s.core.stopping)
    ensures SameRaces(s, StampUnit(s, unit))
  {
    hide Stamps, Publishes, Ledger, RacesOk, Reported;
  }

  lemma StampKeepsConsumers(s: State, unit: AccessUnit)
    requires Consumers(s) && (s.consumers || s.core.stopping)
    ensures var t := StampUnit(s, unit);
            Consumers(t) && t.held.None?
  {
  }

  /** Only the publisher's own fields differ. */
  predicate SameConsumers(s: State, t: State) {
    && t.enabled == s.enabled && t.connections == s.connections && t.consumers == s.consumers
    && t.subscribers == s.subscribers && t.held == s.held && t.purged == s.purged && t.force == s.force
    && t.core.stopping == s.core.stopping && t.core.next == s.core.next && t.core.epoch == s.core.epoch
    && t.core.waiting == s.core.waiting && t.core.pending == s.core.pending
    && t.log.missed == s.log.missed && t.log.stamped == s.log.stamped && SameRaces(s, t)
  }

  lemma TakeKeepsConsumers(s: State)
    requires s.core.infoPending || s.core.queue != []
    ensures SameConsumers(s, TakeStep(s))
  {
  }

  lemma CompareInfoKeepsConsumers(s: State)
    requires s.publisher.PoppedInfo?
    ensures SameConsumers(s, ComparedInfo(s))
  {
  }

  lemma CompareFrameKeepsConsumers(s: State)
    requires s.publisher.PoppedFrame?
    ensures SameConsumers(s, ComparedFrame(s))
  {
    var t := ComparedFrame(s);
    SamePublisherSide(s, t.publisher, t.log.discards);
    assert t == s.(publisher := t.publisher, log := s.log.(discards := t.log.discards));
    hide SameConsumers, ComparedFrame;
  }

  lemma SamePublisherSide(s: State, p: Publisher, discards: nat)
    ensures SameConsumers(s, s.(publisher := p, log := s.log.(discards := discards)))
  {
  }

  lemma PublishInfoKeepsConsumers(s: State)
    requires s.publisher.ClearedInfo?
    ensures SameConsumers(s, SentInfo(s))
  {
  }

  lemma PublishFrameKeepsConsumers(s: State)
    requires s.publisher.ClearedFrame?
    ensures SameConsumers(s, SentFrame(s))
  {
  }

  lemma PublisherKeepsConsumers(s: State, e: Event)
    requires Enabled(s, e) && (e.Compare? || e.Publish?)
    ensures SameConsumers(s, Fire(s, e))
  {
    hide ComparedInfo, ComparedFrame, SentInfo, SentFrame, SameConsumers, BeginEpoch, StampUnit, TakeStep;
    hide DisconnectPurgeStep, StopStep;
    match s.publisher
    case PoppedInfo(_, _) => CompareInfoKeepsConsumers(s);
    case PoppedFrame(_) => CompareFrameKeepsConsumers(s);
    case ClearedInfo(_) => PublishInfoKeepsConsumers(s);
    case ClearedFrame(_) => PublishFrameKeepsConsumers(s);
  }

  lemma BeginKeepsConsumers(s: State, d: Discontinuity)
    ensures var t := BeginEpoch(s, d);
            && SameRaces(s, t)
            && (s.enabled && !s.core.stopping ==>
                  t == s.(core := t.core, purged := false, force := true) && t.core.next == 0 && !t.core.stopping)
            && (!s.enabled || s.core.stopping ==> t == s)
  {
  }

  lemma StopKeepsConsumers(s: State)
    ensures var t := StopStep(s);
            Consumers(t) && t.held == s.held && SameRaces(s, t) && t.core.stopping
  {
  }

  lemma StampEventKeepsConsumers(s: State)
    requires Inv(s) && Consumers(s) && s.held.Some? && (s.consumers || s.core.stopping)
    ensures Consumers(StampUnit(s, s.held.value)) && SameRaces(s, StampUnit(s, s.held.value))
  {
    hide StampUnit, Inv, Consumers, SameRaces;
    HandIsCurrent(s);
    StampWithoutRace(s, s.held.value);
    StampKeepsConsumers(s, s.held.value);
  }

  lemma SubscribersKeepConsumers(s: State, e: Event)
    requires Consumers(s) && Enabled(s, e) && (OfFields(e) || e.DisconnectPurge? || e.OpenSession?)
    ensures Consumers(Fire(s, e)) && SameRaces(s, Fire(s, e))
    ensures s.held.None? && !e.Offer? ==> Fire(s, e).held.None?
  {
    hide TakeStep, CompareStep, PublishStep, StampUnit, StopStep, BeginEpoch;
  }

  lemma FireKeepsConsumers(s: State, e: Event)
    requires Inv(s) && Consumers(s) && (s.held.Some? ==> s.consumers || s.core.stopping) && Enabled(s, e)
    ensures Consumers(Fire(s, e)) && SameRaces(s, Fire(s, e))
    ensures s.held.None? && !e.Offer? ==> Fire(s, e).held.None?
  {
    hide TakeStep, CompareStep, PublishStep, StampUnit, StopStep, BeginEpoch, Inv, DisconnectPurgeStep;
    match e
    case Stamp => StampEventKeepsConsumers(s);
    case Take => TakeKeepsConsumers(s);
    case Compare => PublisherKeepsConsumers(s, e);
    case Publish => PublisherKeepsConsumers(s, e);
    case Stop => StopKeepsConsumers(s);
    case Begin(d) => BeginKeepsConsumers(s, d);
    case ConnectEpoch => BeginKeepsConsumers(s, StreamStart);
    case _ => SubscribersKeepConsumers(s, e);
  }

  lemma StepKeepsConsumers(s: State, e: Event)
    requires Inv(s) && Consumers(s) && (s.held.Some? ==> s.consumers || s.core.stopping)
    ensures Consumers(Step(s, e))
    ensures s.held.None? && !e.Offer? ==> Step(s, e).held.None?
    ensures SameRaces(s, Step(s, e))
  {
    hide Inv, Fire;
    if Enabled(s, e) {
      LastStampedByInv(s);
      SameFramesKeepInv(s, s.(force := false));
      FireKeepsConsumers(s.(force := false), e);
    }
  }

  lemma OfferAndStamp(s: State, unit: AccessUnit)
    requires Inv(s) && Consumers(s) && s.held.None?
    ensures var t := Step(Step(s, Offer(unit)), Stamp);
            Consumers(t) && t.held.None? && SameRaces(s, t)
  {
    StepKeepsConsumers(s, Offer(unit));
    StepKeepsInv(s, Offer(unit));
    hide Inv;
    StepKeepsConsumers(Step(s, Offer(unit)), Stamp);
  }

  lemma {:induction false} AtomicRunsDoNotRace(s: State, events: seq<Event>)
    requires Inv(s) && Consumers(s) && s.held.None? && Atomic(events)
    ensures SameRaces(s, Run(s, events))
    decreases |events|
  {
    hide Inv, Step, Consumers;
    if events != [] {
      var t := Step(s, events[0]);
      StepKeepsInv(s, events[0]);
      if events[0].Offer? {
        OfferAndStamp(s, events[0].unit);
        StepKeepsInv(t, events[1]);
        assert events[1..][0] == events[1] && events[1..][1..] == events[2..];
        AtomicRunsDoNotRace(Step(t, events[1]), events[2..]);
      } else {
        StepKeepsConsumers(s, events[0]);
        AtomicRunsDoNotRace(t, events[1..]);
      }
    }
  }

  /** With that assumption the contract holds for every frame. */
  lemma EveryAtomicRun(capacity: nat, events: seq<Event>)
    requires capacity > 0 && Atomic(events)
    ensures var s := Run(Initial(true, capacity), events);
            forall i: nat :: i < |s.log.published| ==>
              && PrefixPublished(s, i) && InfoOf(s.log.published[i]) in s.log.infos
              && s.log.published[i].index !in s.log.skips
  {
    EveryRun(true, capacity, events);
    InitialInv(true, capacity);
    AtomicRunsDoNotRace(Initial(true, capacity), events);
  }

  // ----- runs -----

  lemma {:induction false} RunInTwoParts(s: State, a: seq<Event>, b: seq<Event>)
    ensures Run(s, a + b) == Run(Run(s, a), b)
    decreases |a|
  {
    if a == [] {
      assert a + b == b;
    } else {
      assert (a + b)[1..] == a[1..] + b;
      RunInTwoParts(Step(s, a[0]), a[1..], b);
    }
  }

  lemma RunOne(s: State, e: Event)
    ensures Run(s, [e]) == Step(s, e)
  {
    assert [e][1..] == [];
  }

  lemma RunTwo(s: State, a: Event, b: Event)
    ensures Run(s, [a, b]) == Step(Step(s, a), b)
  {
    hide Step;
    assert [a, b][1..] == [b];
    RunOne(Step(s, a), b);
  }

  lemma RunThree(s: State, a: Event, b: Event, c: Event)
    ensures Run(s, [a, b, c]) == Step(Step(Step(s, a), b), c)
  {
    hide Step;
    assert [a, b, c][1..] == [b, c];
    RunTwo(Step(s, a), b, c);
  }

  const CONNECT := [Connect, ConnectEpoch, Activate]
  const PUBLISH := [Take, Compare, Publish]
  const KEY := AccessUnit(true, 0)
  const FIRST_INFO := StreamInfo(1, 0)
  const DELTA := AccessUnit(false, 0)

  /** The publisher takes, checks and publishes the StreamInfo that is pending. */
  lemma InfoIsPublished(s: State)
    requires s.publisher.Idle? && s.core.infoPending && !s.core.stopping
    ensures Run(s, PUBLISH) == s.(core := s.core.(infoPending := false), force := false,
                                  log := s.log.(infos := s.log.infos + {PresentInfo(s)}))
  {
    hide Run, StampUnit, BeginEpoch, DisconnectPurgeStep, StopStep, ComparedFrame, SentFrame;
    RunThree(s, Take, Compare, Publish);
    var a := s.(core := s.core.(infoPending := false), force := false,
                publisher := PoppedInfo(PresentInfo(s), s.core.generation));
    assert Step(s, Take) == a;
    assert Step(a, Compare) == a.(publisher := ClearedInfo(PresentInfo(s)));
  }

  lemma ClearedIsPublished(s: State, f: Frame)
    requires s.publisher == PoppedFrame(f) && f.generation == s.core.generation && !s.force
    ensures Step(Step(s, Compare), Publish)
         == s.(publisher := Idle, log := s.log.(published := s.log.published + [f]))
  {
    hide Run, StampUnit, BeginEpoch, DisconnectPurgeStep, StopStep, TakeStep, ComparedInfo, SentInfo;
    assert Step(s, Compare) == s.(publisher := ClearedFrame(f));
  }

  /** The publisher takes, checks and publishes the first queued frame. */
  lemma FrameIsPublished(s: State)
    requires s.publisher.Idle? && !s.core.infoPending && !s.core.stopping
    requires s.core.queue != [] && s.core.queue[0].generation == s.core.generation
    ensures Run(s, PUBLISH) == s.(core := s.core.(queue := s.core.queue[1..]), force := false,
                                  log := s.log.(published := s.log.published + [s.core.queue[0]]))
  {
    hide Run, StampUnit, BeginEpoch, DisconnectPurgeStep, StopStep, CompareStep, PublishStep;
    RunThree(s, Take, Compare, Publish);
    var a := s.(core := s.core.(queue := s.core.queue[1..]), force := false,
                publisher := PoppedFrame(s.core.queue[0]));
    assert Step(s, Take) == a;
    ClearedIsPublished(a, s.core.queue[0]);
  }

  /** Connected, and the StreamInfo of epoch 1 is pending. */
  function Connected(): State {
    State(true, 8, Core([], true, 0, 1, 1, 0, StreamStart, true, false), 1, true, Quiet, None, false,
          0, Idle, false, false, History([], [], [], {}, 0, 0, 0, {}, {}, {}, false))
  }

  function InfoPublished(): State {
    Connected().(core := Connected().core.(infoPending := false), log := Connected().log.(infos := {FIRST_INFO}))
  }

  lemma ReachConnected()
    ensures Run(Initial(true, 8), CONNECT) == Connected()
  {
    hide Run, StampUnit, TakeStep, CompareStep, PublishStep, DisconnectPurgeStep, StopStep;
    RunThree(Initial(true, 8), Connect, ConnectEpoch, Activate);
  }

  lemma ReachInfoPublished(rest: seq<Event>)
    ensures Run(Initial(true, 8), CONNECT + (PUBLISH + rest)) == Run(InfoPublished(), rest)
  {
    hide Run, Step;
    ReachConnected();
    InfoIsPublished(Connected());
    assert {} + {FIRST_INFO} == {FIRST_INFO};
    RunInTwoParts(Initial(true, 8), CONNECT, PUBLISH + rest);
    RunInTwoParts(Connected(), PUBLISH, rest);
  }

  const KEY_FRAME := Frame(0, 0, 0, true, 1, 0, 1, StreamStart, 0)

  function KeyQueued(): State {
    InfoPublished().(core := Core([KEY_FRAME], false, 0, 1, 1, 1, NoDiscontinuity, false, false),
                     log := InfoPublished().log.(offered := [KEY], stamped := [KEY_FRAME]))
  }

  lemma ReachKeyQueued(rest: seq<Event>)
    ensures Run(InfoPublished(), [Offer(KEY), Stamp] + rest) == Run(KeyQueued(), rest)
  {
    hide Run, BeginEpoch, TakeStep, CompareStep, PublishStep, DisconnectPurgeStep, StopStep;
    assert [] + [KEY] == [KEY] && [] + [KEY_FRAME] == [KEY_FRAME];
    RunTwo(InfoPublished(), Offer(KEY), Stamp);
    RunInTwoParts(InfoPublished(), [Offer(KEY), Stamp], rest);
  }

  // ----- the race -----

  /** A keyframe is queued, the next unit is in hand, and the only viewer has left. */
  function LeftBehind(): State {
    KeyQueued().(core := KeyQueued().core.(queue := [], dropped := 1, generation := 2), held := Some(DELTA),
                 connections := 0, consumers := false, purged := true)
  }

  const LEAVE := [Offer(DELTA), Disconnect, DisconnectPurge]

  lemma ReachLeftBehind(rest: seq<Event>)
    ensures Run(KeyQueued(), LEAVE + rest) == Run(LeftBehind(), rest)
  {
    hide Run, BeginEpoch, StampUnit, TakeStep, CompareStep, PublishStep, StopStep;
    RunThree(KeyQueued(), Offer(DELTA), Disconnect, DisconnectPurge);
    RunInTwoParts(KeyQueued(), LEAVE, rest);
  }

  const GAP_FRAME := Frame(1, 1, 0, false, 1, 1, 2, NoDiscontinuity, 0)

  function GapQueued(): State {
    LeftBehind().(core := LeftBehind().core.(queue := [GAP_FRAME], next := 2), held := None,
                  log := LeftBehind().log.(offered := [KEY, DELTA], stamped := [KEY_FRAME, GAP_FRAME], gaps := {1}))
  }

  lemma ReachGapQueued(rest: seq<Event>)
    ensures Run(LeftBehind(), [Stamp] + rest) == Run(GapQueued(), rest)
  {
    hide Run, BeginEpoch, TakeStep, CompareStep, PublishStep, DisconnectPurgeStep, StopStep;
    assert [] + [GAP_FRAME] == [GAP_FRAME];
    assert [KEY] + [DELTA] == [KEY, DELTA] && [KEY_FRAME] + [GAP_FRAME] == [KEY_FRAME, GAP_FRAME];
    RunOne(LeftBehind(), Stamp);
    assert {} + {1} == {1};
    RunInTwoParts(LeftBehind(), [Stamp], rest);
  }

  /** One viewer that leaves at the wrong moment is enough: frame 1 is published, and frame 0 never is. */
  lemma RaceIsReachable() returns (events: seq<Event>)
    ensures var s := Run(Initial(true, 8), events);
            |s.log.published| == 1 && s.log.published[0].number == 1 && !PrefixPublished(s, 0)
  {
    hide Run, Step;
    var d := [Stamp] + PUBLISH;
    events := CONNECT + (PUBLISH + ([Offer(KEY), Stamp] + (LEAVE + d)));
    ReachInfoPublished([Offer(KEY), Stamp] + (LEAVE + d));
    ReachKeyQueued(LEAVE + d);
    ReachLeftBehind(d);
    ReachGapQueued(PUBLISH);
    FrameIsPublished(GapQueued());
  }

  // ----- a frame without its StreamInfo -----

  /** The StreamInfo is being checked when the viewer leaves. */
  function CheckedInfo(): State {
    Connected().(core := Connected().core.(infoPending := false), held := Some(KEY),
                 publisher := PoppedInfo(FIRST_INFO, 1),
                 connections := 0, consumers := false, subscribers := Disconnecting)
  }

  const SILENT_FRAME := Frame(0, 0, 0, true, 1, 0, 2, StreamStart, 0)

  function SilentQueued(): State {
    CheckedInfo().(core := Core([SILENT_FRAME], false, 0, 2, 1, 1, NoDiscontinuity, false, false), held := None,
                   publisher := Idle, subscribers := Quiet, purged := true,
                   log := CheckedInfo().log.(offered := [KEY], stamped := [SILENT_FRAME], silent := {0}))
  }

  lemma ReachCheckedInfo(rest: seq<Event>)
    ensures Run(Connected(), [Offer(KEY), Take, Disconnect] + rest) == Run(CheckedInfo(), rest)
  {
    hide Run, BeginEpoch, StampUnit, CompareStep, PublishStep, DisconnectPurgeStep, StopStep;
    RunThree(Connected(), Offer(KEY), Take, Disconnect);
    RunInTwoParts(Connected(), [Offer(KEY), Take, Disconnect], rest);
  }

  lemma ReachSilentQueued(rest: seq<Event>)
    ensures Run(CheckedInfo(), [DisconnectPurge, Compare, Stamp] + rest) == Run(SilentQueued(), rest)
  {
    hide Run, BeginEpoch, TakeStep, PublishStep, StopStep, ComparedFrame;
    assert [] + [KEY] == [KEY] && [] + [SILENT_FRAME] == [SILENT_FRAME];
    RunThree(CheckedInfo(), DisconnectPurge, Compare, Stamp);
    var s := CheckedInfo().(core := CheckedInfo().core.(generation := 2), subscribers := Quiet, purged := true,
                            publisher := Idle);
    assert Step(Step(CheckedInfo(), DisconnectPurge), Compare) == s && !InfoComing(s);
    assert {} + {0} == {0};
    RunInTwoParts(CheckedInfo(), [DisconnectPurge, Compare, Stamp], rest);
  }

  /** The same wrong moment can publish a frame whose StreamInfo never is. */
  lemma SilentFrameIsReachable() returns (events: seq<Event>)
    ensures var s := Run(Initial(true, 8), events);
            |s.log.published| == 1 && s.log.published[0].number == 0 && InfoOf(s.log.published[0]) !in s.log.infos
  {
    hide Run, Step;
    var a, b := [Offer(KEY), Take, Disconnect], [DisconnectPurge, Compare, Stamp];
    events := CONNECT + (a + (b + PUBLISH));
    RunInTwoParts(Initial(true, 8), CONNECT, a + (b + PUBLISH));
    ReachConnected();
    ReachCheckedInfo(b + PUBLISH);
    ReachSilentQueued(PUBLISH);
    FrameIsPublished(SilentQueued());
  }

  // ----- a unit that is missing inside an epoch -----

  /** A keyframe is in hand, the viewer has left, and the next one has connected. */
  function NextViewer(): State {
    InfoPublished().(core := Core([], true, 0, 3, 2, 0, StreamStart, true, false), held := Some(KEY),
                     consumers := false, subscribers := Activating, force := true)
  }

  const CHANGE := [Disconnect, DisconnectPurge, Connect]

  lemma ReachNextViewer(rest: seq<Event>)
    ensures Run(InfoPublished(), [Offer(KEY)] + (CHANGE + ([ConnectEpoch] + rest))) == Run(NextViewer(), rest)
  {
    hide Run, StampUnit, TakeStep, CompareStep, PublishStep, StopStep;
    var a := InfoPublished().(held := Some(KEY));
    RunOne(InfoPublished(), Offer(KEY));
    RunInTwoParts(InfoPublished(), [Offer(KEY)], CHANGE + ([ConnectEpoch] + rest));
    assert Step(InfoPublished(), Offer(KEY)) == a;
    var b := a.(core := a.core.(generation := 2), connections := 1, consumers := false, subscribers := Connecting,
                purged := true);
    ReachChange();
    RunInTwoParts(a, CHANGE, [ConnectEpoch] + rest);
    RunInTwoParts(b, [ConnectEpoch], rest);
    RunOne(b, ConnectEpoch);
  }

  lemma ReachChange()
    ensures var a := InfoPublished().(held := Some(KEY));
            Run(a, CHANGE) == a.(core := a.core.(generation := 2), connections := 1, consumers := false,
                                 subscribers := Connecting, purged := true)
  {
    hide Run, StampUnit, TakeStep, CompareStep, PublishStep, StopStep, BeginEpoch;
    RunThree(InfoPublished().(held := Some(KEY)), Disconnect, DisconnectPurge, Connect);
  }

  const FIRST := Frame(0, 0, 0, true, 2, 0, 3, StreamStart, 0)
  const SECOND := Frame(1, 1, 0, false, 2, 1, 3, NoDiscontinuity, 0)

  /** That keyframe begins the epoch, and the one behind it, which the epoch asked for, still finds no consumers. */
  function NextMissed(): State {
    NextViewer().(core := Core([FIRST], false, 0, 3, 2, 1, NoDiscontinuity, true, false), held := None, force := false,
                  log := NextViewer().log.(offered := [KEY], stamped := [FIRST], missed := true))
  }

  lemma ReachNextMissed(rest: seq<Event>)
    ensures Run(NextViewer(), [Stamp, Offer(KEY)] + rest) == Run(NextMissed(), rest)
  {
    hide Run, BeginEpoch, TakeStep, CompareStep, PublishStep, DisconnectPurgeStep, StopStep;
    assert [] + [KEY] == [KEY] && [] + [FIRST] == [FIRST];
    RunTwo(NextViewer(), Stamp, Offer(KEY));
    RunInTwoParts(NextViewer(), [Stamp, Offer(KEY)], rest);
  }

  function SkipQueued(): State {
    NextMissed().(core := Core([FIRST, SECOND], false, 0, 3, 2, 2, NoDiscontinuity, true, false), consumers := true,
                   subscribers := Quiet,
                   log := NextMissed().log.(offered := [KEY, DELTA], stamped := [FIRST, SECOND], skips := {1},
                                             missed := false))
  }

  lemma ReachSkipQueued(rest: seq<Event>)
    ensures Run(NextMissed(), [Activate, Offer(DELTA), Stamp] + rest) == Run(SkipQueued(), rest)
  {
    hide Run, BeginEpoch, TakeStep, CompareStep, PublishStep, DisconnectPurgeStep, StopStep;
    assert [KEY] + [DELTA] == [KEY, DELTA] && [FIRST] + [SECOND] == [FIRST, SECOND];
    RunThree(NextMissed(), Activate, Offer(DELTA), Stamp);
    assert {} + {1} == {1};
    RunInTwoParts(NextMissed(), [Activate, Offer(DELTA), Stamp], rest);
  }

  /** A viewer that leaves while another one comes: frames 0 and 1 of an epoch are published as a prefix, between
      them the keyframe that frame 1 refers to is missing, and nothing reports it. */
  lemma SkipIsReachable() returns (events: seq<Event>)
    ensures var s := Run(Initial(true, 8), events);
            && |s.log.published| == 2 && s.log.published[1].number == 1 && PrefixPublished(s, 1)
            && !s.log.published[1].key && s.log.published[1].index in s.log.skips
            && s.core.dropped == 0 && s.core.queue == [] && Reported(s.log.published) == 0
  {
    hide Run, Step;
    var publish := PUBLISH + (PUBLISH + PUBLISH);
    var a := [Activate, Offer(DELTA), Stamp] + publish;
    var b := [Stamp, Offer(KEY)] + a;
    var c := [Offer(KEY)] + (CHANGE + ([ConnectEpoch] + b));
    events := CONNECT + (PUBLISH + c);
    ReachInfoPublished(c);
    ReachNextViewer(b);
    ReachNextMissed(a);
    ReachSkipQueued(publish);
    InfoAndTwoFrames(SkipQueued(), FIRST, SECOND);
    ReportsOfTwo(FIRST, SECOND);
    EveryRun(true, 8, events);
  }

  lemma InfoAndTwoFrames(s: State, f: Frame, g: Frame)
    requires s.publisher.Idle? && s.core.infoPending && !s.core.stopping && s.core.queue == [f, g]
    requires f.generation == g.generation == s.core.generation && s.log.published == []
    ensures var t := Run(s, PUBLISH + (PUBLISH + PUBLISH));
            && t.log == s.log.(infos := s.log.infos + {PresentInfo(s)}, published := [f, g])
            && t.core == s.core.(infoPending := false, queue := [])
  {
    hide Run, Step;
    RunInTwoParts(s, PUBLISH, PUBLISH + PUBLISH);
    InfoIsPublished(s);
    var t := Run(s, PUBLISH);
    RunInTwoParts(t, PUBLISH, PUBLISH);
    FrameIsPublished(t);
    FrameIsPublished(Run(t, PUBLISH));
  }

  lemma ReportsOfTwo(f: Frame, g: Frame)
    ensures Reported([f, g]) == f.droppedBefore + g.droppedBefore
  {
    assert [f, g][..1] == [f];
    OneReport([f]);
  }

  // ----- lost reports -----

  const LOST_REPORT := Frame(0, 1, 0, true, 1, 0, 1, StreamStart, 1)
  const NEXT_EPOCH := Frame(1, 2, 0, true, 2, 0, 2, SourceTimeReset, 1)

  /** A delta was dropped, and the keyframe that will report it is in hand. */
  function DeltaDropped(): State {
    InfoPublished().(core := InfoPublished().core.(dropped := 1), held := Some(KEY),
                     log := InfoPublished().log.(offered := [DELTA]))
  }

  /** The next epoch began before that keyframe was taken. */
  function ReportPurged(): State {
    InfoPublished().(core := Core([], true, 1, 2, 2, 0, SourceTimeReset, true, false), held := Some(KEY),
                     unstamped := true,
                     log := InfoPublished().log.(offered := [DELTA, KEY], stamped := [LOST_REPORT]))
  }

  function NextQueued(): State {
    InfoPublished().(core := Core([NEXT_EPOCH], false, 0, 2, 2, 1, NoDiscontinuity, true, false),
                     log := InfoPublished().log.(offered := [DELTA, KEY, KEY], stamped := [LOST_REPORT, NEXT_EPOCH]))
  }

  lemma ReachDeltaDropped(rest: seq<Event>)
    ensures Run(InfoPublished(), [Offer(DELTA), Stamp, Offer(KEY)] + rest) == Run(DeltaDropped(), rest)
  {
    hide Run, BeginEpoch, TakeStep, CompareStep, PublishStep, DisconnectPurgeStep, StopStep;
    assert [] + [DELTA] == [DELTA];
    RunThree(InfoPublished(), Offer(DELTA), Stamp, Offer(KEY));
    RunInTwoParts(InfoPublished(), [Offer(DELTA), Stamp, Offer(KEY)], rest);
  }

  lemma ReachReportPurged(rest: seq<Event>)
    ensures Run(DeltaDropped(), [Stamp, Begin(SourceTimeReset), Offer(KEY)] + rest) == Run(ReportPurged(), rest)
  {
    hide Run, TakeStep, CompareStep, PublishStep, DisconnectPurgeStep, StopStep;
    RunThree(DeltaDropped(), Stamp, Begin(SourceTimeReset), Offer(KEY));
    var s := Step(DeltaDropped(), Stamp);
    assert s.core.queue == [LOST_REPORT] && s.log.offered == [DELTA, KEY] && s.log.stamped == [LOST_REPORT];
    RunInTwoParts(DeltaDropped(), [Stamp, Begin(SourceTimeReset), Offer(KEY)], rest);
  }

  lemma ReachNextQueued(rest: seq<Event>)
    ensures Run(ReportPurged(), [Stamp] + rest) == Run(NextQueued(), rest)
  {
    hide Run, BeginEpoch, TakeStep, CompareStep, PublishStep, DisconnectPurgeStep, StopStep;
    assert [] + [NEXT_EPOCH] == [NEXT_EPOCH] && [DELTA, KEY] + [KEY] == [DELTA, KEY, KEY];
    assert [LOST_REPORT] + [NEXT_EPOCH] == [LOST_REPORT, NEXT_EPOCH];
    RunOne(ReportPurged(), Stamp);
    RunInTwoParts(ReportPurged(), [Stamp], rest);
  }

  lemma InfoAndFrame(s: State, f: Frame)
    requires s.publisher.Idle? && s.core.infoPending && !s.core.stopping && s.core.queue == [f]
    requires f.generation == s.core.generation && s.log.published == []
    ensures var t := Run(s, PUBLISH + PUBLISH);
            && t.log == s.log.(infos := s.log.infos + {PresentInfo(s)}, published := [f])
            && t.core == s.core.(infoPending := false, queue := []) && t.publisher.Idle?
  {
    hide Run, Step;
    RunInTwoParts(s, PUBLISH, PUBLISH);
    InfoIsPublished(s);
    FrameIsPublished(Run(s, PUBLISH));
  }

  /** A report is purged with its frame; the epoch's next keyframe reports only what was dropped since. */
  lemma ReportIsLost() returns (events: seq<Event>)
    ensures var s := Run(Initial(true, 8), events);
            && Settled(s) && s.log.discards == 0
            && Reported(s.log.published) == 1 && |s.log.offered| - |s.log.published| == 2
  {
    hide Run, Step;
    var c := [Stamp] + (PUBLISH + PUBLISH);
    var b := [Stamp, Begin(SourceTimeReset), Offer(KEY)] + c;
    var a := [Offer(DELTA), Stamp, Offer(KEY)] + b;
    events := CONNECT + (PUBLISH + a);
    ReachInfoPublished(a);
    ReachDeltaDropped(b);
    ReachReportPurged(c);
    ReachNextQueued(PUBLISH + PUBLISH);
    InfoAndFrame(NextQueued(), NEXT_EPOCH);
    OneReport([NEXT_EPOCH]);
  }

  lemma OneReport(frames: seq<Frame>)
    requires |frames| == 1
    ensures Reported(frames) == frames[0].droppedBefore
  {
    assert frames[..0] == [];
  }

  const STALE_NEXT := Frame(1, 1, 0, true, 2, 0, 2, SourceTimeReset, 0)

  /** The epoch ended before the generation of the popped frame was compared. */
  function FrameDiscarded(): State {
    InfoPublished().(core := Core([], true, 0, 2, 2, 0, SourceTimeReset, true, false), unstamped := true,
                     log := InfoPublished().log.(offered := [KEY], stamped := [KEY_FRAME], discards := 1))
  }

  function StaleNextQueued(): State {
    InfoPublished().(core := Core([STALE_NEXT], false, 0, 2, 2, 1, NoDiscontinuity, true, false),
                     log := InfoPublished().log.(offered := [KEY, KEY], stamped := [KEY_FRAME, STALE_NEXT],
                                                 discards := 1))
  }

  lemma ReachFrameDiscarded(rest: seq<Event>)
    ensures Run(KeyQueued(), [Take, Begin(SourceTimeReset), Compare] + rest) == Run(FrameDiscarded(), rest)
  {
    hide Run, StampUnit, PublishStep, DisconnectPurgeStep, StopStep, ComparedInfo;
    RunThree(KeyQueued(), Take, Begin(SourceTimeReset), Compare);
    RunInTwoParts(KeyQueued(), [Take, Begin(SourceTimeReset), Compare], rest);
  }

  lemma ReachStaleNextQueued(rest: seq<Event>)
    ensures Run(FrameDiscarded(), [Offer(KEY), Stamp] + rest) == Run(StaleNextQueued(), rest)
  {
    hide Run, BeginEpoch, TakeStep, CompareStep, PublishStep, DisconnectPurgeStep, StopStep;
    assert [] + [STALE_NEXT] == [STALE_NEXT] && [KEY] + [KEY] == [KEY, KEY];
    assert [KEY_FRAME] + [STALE_NEXT] == [KEY_FRAME, STALE_NEXT];
    RunTwo(FrameDiscarded(), Offer(KEY), Stamp);
    RunInTwoParts(FrameDiscarded(), [Offer(KEY), Stamp], rest);
  }

  /** A popped frame is found stale, and no report counts it. */
  lemma DiscardIsNotReported() returns (events: seq<Event>)
    ensures var s := Run(Initial(true, 8), events);
            && Settled(s) && s.log.discards == 1
            && Reported(s.log.published) == 0 && |s.log.offered| - |s.log.published| == 1
  {
    hide Run, Step;
    var c := [Offer(KEY), Stamp] + (PUBLISH + PUBLISH);
    var b := [Take, Begin(SourceTimeReset), Compare] + c;
    events := CONNECT + (PUBLISH + ([Offer(KEY), Stamp] + b));
    ReachInfoPublished([Offer(KEY), Stamp] + b);
    ReachKeyQueued(b);
    ReachFrameDiscarded(c);
    ReachStaleNextQueued(PUBLISH + PUBLISH);
    InfoAndFrame(StaleNextQueued(), STALE_NEXT);
    OneReport([STALE_NEXT]);
  }
}
