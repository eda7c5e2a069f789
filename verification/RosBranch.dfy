/** The ROS fields of the plugin and the methods that share them, each proved to take the steps that the
    state machine of `RosEpochs` gives for it. Published epochs are 64-bit tokens. */
module RosBranch {
  import opened RosEpochs
  import opened Wrappers

  const TWO_64 := 0x1_0000_0000_0000_0000

  type Token = t: nat | 0 < t < TWO_64 witness 1

  /** The increment of an unsigned 64-bit number; zero is left out. */
  function NextEpochToken(current: Token): Token {
    if (current + 1) % TWO_64 == 0 then 1 else (current + 1) % TWO_64
  }

  /** The token of the n-th epoch after the one that has token `first`. */
  function TokenOf(first: Token, n: nat): Token {
    if n == 0 then first else NextEpochToken(TokenOf(first, n - 1))
  }

  lemma NextToken(first: Token, n: nat)
    ensures TokenOf(first, n + 1) == NextEpochToken(TokenOf(first, n))
  {
  }

  lemma SameRemainder(a: int, b: int, k: int)
    requires k > 0
    ensures a % k == b % k <==> (a - b) % k == 0
  {
    var q, c := a / k - b / k, a % k - b % k;
    assert a - b == k * q + c by {
      assert a == k * (a / k) + a % k && b == k * (b / k) + b % k;
      assert k * (a / k) - k * (b / k) == k * q;
    }
    if c == 0 {
      MultipleOf(k, q);
    } else if c > 0 {
      DivideWithRemainder(a - b, k, q, c);
    } else {
      assert k * (q - 1) == k * q - k;
      DivideWithRemainder(a - b, k, q - 1, c + k);
    }
  }

  lemma DivideWithRemainder(a: int, k: int, q: int, r: int)
    requires 0 <= r < k && a == k * q + r
    ensures a % k == r
  {
    var d := q - a / k;
    assert a == k * (a / k) + a % k;
    assert k * q == k * (a / k) + k * d;
    assert d > 0 ==> k * d >= k;
    assert d < 0 ==> k * d <= -k;
  }

  lemma MultipleOf(k: int, q: int)
    requires k > 0
    ensures (k * q) % k == 0
  {
    DivideWithRemainder(k * q, k, q, 0);
  }

  lemma NextRemainder(x: int, k: int)
    requires k > 0
    ensures (x + 1) % k == if x % k == k - 1 then 0 else x % k + 1
  {
    assert x == k * (x / k) + x % k;
    assert k * (x / k + 1) == k * (x / k) + k;
    if x % k == k - 1 {
      DivideWithRemainder(x + 1, k, x / k + 1, 0);
    } else {
      DivideWithRemainder(x + 1, k, x / k, x % k + 1);
    }
  }

  /** The increment counts modulo 2^64 - 1, from one. */
  lemma NextIsModulo(current: Token)
    ensures NextEpochToken(current) == (if current == TWO_64 - 1 then 0 else current) + 1
  {
    if current < TWO_64 - 1 {
      DivideWithRemainder(current + 1, TWO_64, 0, current + 1);
    }
  }

  lemma {:induction false} TokenCycle(first: Token, n: nat)
    ensures TokenOf(first, n) == (first - 1 + n) % (TWO_64 - 1) + 1
  {
    hide NextEpochToken;
    if n == 0 {
      DivideWithRemainder(first - 1, TWO_64 - 1, 0, first - 1);
    } else {
      TokenCycle(first, n - 1);
      NextIsModulo(TokenOf(first, n - 1));
      NextRemainder(first - 1 + n - 1, TWO_64 - 1);
    }
  }

  /** Two epochs have the same token exactly if they are a multiple of 2^64 - 1 epochs apart. */
  lemma TokensTellEpochsApart(first: Token, m: nat, n: nat)
    ensures TokenOf(first, m) == TokenOf(first, n) <==> (m - n) % (TWO_64 - 1) == 0
  {
    TokenCycle(first, m);
    TokenCycle(first, n);
    SameRemainder(first - 1 + m, first - 1 + n, TWO_64 - 1);
    hide TokenOf;
    assert (first - 1 + m) - (first - 1 + n) == m - n;
  }

  datatype PendingMetadata = PendingMetadata(sourceTime: int, sourceSequence: nat)

  datatype QueuedROSFrame = QueuedROSFrame(
    annexB: seq<int>, sourceTime: int, sourceSequence: nat, rtpTimestamp: nat, keyframe: bool, epoch: Token,
    frameSequence: nat, generation: nat, discontinuity: Discontinuity, droppedFramesBefore: nat)

  function Arrived(s: State): State { ConnectStep(s.(force := false)) }

  function Joined(s: State): State { s.(subscribers := Quiet, consumers := true, force := false) }

  lemma FirstConnection(s: State)
    requires s.subscribers.Quiet? && !s.core.stopping && s.connections == 0
    ensures Step(Step(Step(s, Connect), ConnectEpoch), Activate) == Joined(BeginEpoch(Arrived(s), StreamStart))
  {
    hide StampUnit, TakeStep, CompareStep, PublishStep, DisconnectPurgeStep, StopStep, Run;
    assert Step(s, Connect) == Arrived(s);
    BegunScalars(Arrived(s), StreamStart);
    hide BeginEpoch;
    assert Step(Arrived(s), ConnectEpoch) == BeginEpoch(Arrived(s), StreamStart).(subscribers := Activating);
  }

  lemma LaterConnection(s: State)
    requires s.subscribers.Quiet? && !s.core.stopping && s.connections > 0
    ensures Step(s, Connect) == Arrived(s)
  {
    hide StampUnit, TakeStep, CompareStep, PublishStep, DisconnectPurgeStep, StopStep, BeginEpoch;
  }

  function Left(s: State): State
    requires s.connections > 0
  {
    DisconnectStep(s.(force := false))
  }

  lemma LastDisconnection(s: State)
    requires s.subscribers.Quiet? && s.connections == 1
    ensures Step(Step(s, Disconnect), DisconnectPurge) == DisconnectPurgeStep(Left(s))
  {
    hide StampUnit, TakeStep, CompareStep, PublishStep, DisconnectPurgeStep, StopStep, BeginEpoch;
  }

  lemma EarlierDisconnection(s: State)
    requires s.subscribers.Quiet? && s.connections != 1
    ensures Step(s, Disconnect)
         == if s.connections == 0 then s else Left(s)
  {
    hide StampUnit, TakeStep, CompareStep, PublishStep, DisconnectPurgeStep, StopStep, BeginEpoch;
  }

  lemma BegunScalars(s: State, d: Discontinuity)
    ensures var t := BeginEpoch(s, d);
            t.enabled == s.enabled && t.capacity == s.capacity && t.connections == s.connections
            && t.consumers == s.consumers && t.core.stopping == s.core.stopping
  {
  }

  lemma OfferedAndStamped(s: State, unit: AccessUnit)
    requires s.held.None? && unit.session == s.session
    ensures Step(Step(s, Offer(unit)), Stamp)
         == if s.enabled && s.consumers then StampUnit(s.(held := Some(unit), force := false), unit)
            else Missed(s.(force := false))
  {
    hide StampUnit;
  }

  // ----- the fields and the machine's state -----

  /** The plugin's fields for the ROS branch. */
  datatype Fields = Fields(
    enabled: bool, capacity: nat, first: Token, queue: seq<QueuedROSFrame>, waiting: bool, dropped: nat,
    generation: nat, epoch: Token, next: nat, pending: Discontinuity, infoPending: bool, stopping: bool,
    connections: nat, consumers: bool)

  predicate Represents(first: Token, q: QueuedROSFrame, f: Frame) {
    && q.keyframe == f.key && q.epoch == TokenOf(first, f.epoch) && q.frameSequence == f.number
    && q.generation == f.generation && q.discontinuity == f.discontinuity
    && q.droppedFramesBefore == f.droppedBefore
  }

  predicate QueueShows(first: Token, queue: seq<QueuedROSFrame>, frames: seq<Frame>) {
    |queue| == |frames| && forall k :: 0 <= k < |queue| ==> Represents(first, queue[k], frames[k])
  }

  predicate CoreShows(f: Fields, c: Core) {
    && QueueShows(f.first, f.queue, c.queue)
    && f.waiting == c.waiting && f.dropped == c.dropped && f.generation == c.generation
    && f.epoch == TokenOf(f.first, c.epoch) && f.next == c.next && f.pending == c.pending
    && f.infoPending == c.infoPending && f.stopping == c.stopping
  }

  /** The fields are those of the state. */
  predicate Shows(f: Fields, s: State) {
    && f.enabled == s.enabled && f.capacity == s.capacity && f.connections == s.connections
    && f.consumers == s.consumers && CoreShows(f, s.core)
  }

  lemma ShowsScalars(f: Fields, s: State)
    requires Shows(f, s)
    ensures f.enabled == s.enabled && f.capacity == s.capacity && f.connections == s.connections
    ensures f.consumers == s.consumers && f.waiting == s.core.waiting && f.dropped == s.core.dropped
    ensures f.generation == s.core.generation && f.next == s.core.next && f.pending == s.core.pending
    ensures f.infoPending == s.core.infoPending && f.stopping == s.core.stopping && |f.queue| == |s.core.queue|
  {
    hide TokenOf, Represents;
  }

  lemma EmptyShows(first: Token)
    ensures QueueShows(first, [], [])
  {
  }

  /** What the methods leave alone. */
  lemma ShowsSame(f: Fields, s: State, t: State)
    requires Shows(f, s) && t.core == s.core && t.enabled == s.enabled && t.capacity == s.capacity
    ensures Shows(f.(connections := t.connections, consumers := t.consumers), t)
  {
    hide QueueShows, TokenOf;
  }

  lemma AdvancedShows(f: Fields, s: State, d: Discontinuity, additional: nat)
    requires Shows(f, s)
    ensures Shows(f.(queue := [], dropped := f.dropped + |f.queue| + additional, epoch := NextEpochToken(f.epoch),
                     next := 0, pending := d, waiting := true, generation := f.generation + 1, infoPending := true),
                  s.(core := Advanced(s.core, d, additional), purged := false))
  {
    ShowsScalars(f, s);
    EmptyShows(f.first);
    NextToken(f.first, s.core.epoch);
    hide QueueShows, TokenOf;
  }

  lemma PurgedShows(f: Fields, s: State)
    requires Shows(f, s)
    ensures Shows(if f.stopping then f
                  else f.(queue := [], dropped := f.dropped + |f.queue|, generation := f.generation + 1),
                  DisconnectPurgeStep(s))
  {
    ShowsScalars(f, s);
    EmptyShows(f.first);
    hide QueueShows, TokenOf;
  }

  lemma AcceptedShows(f: Fields, s: State, unit: AccessUnit, q: QueuedROSFrame)
    requires Shows(f, s)
    requires q == QueuedROSFrame(q.annexB, q.sourceTime, q.sourceSequence, q.rtpTimestamp, unit.key, f.epoch, f.next,
                                 f.generation, if f.waiting then f.pending else NoDiscontinuity,
                                 if f.waiting then Min(f.dropped, MAX_UINT32) else 0)
    ensures Shows(f.(queue := f.queue + [q], next := f.next + 1, waiting := false,
                     dropped := if f.waiting then 0 else f.dropped,
                     pending := if f.waiting then NoDiscontinuity else f.pending),
                  Accepted(s, unit))
  {
    hide TokenOf, BehindGap, InfoComing;
    assert Represents(f.first, q, NewFrame(s, unit));
    hide Represents;
  }

  lemma DroppedShows(f: Fields, s: State, unit: AccessUnit, count: nat)
    requires Shows(f, s)
    ensures Shows(f.(dropped := f.dropped + count), Dropped(s, unit, s.core.(dropped := s.core.dropped + count)))
  {
    hide QueueShows, TokenOf;
  }

  lemma TakenShows(f: Fields, s: State)
    requires Shows(f, s) && Enabled(s, Take)
    ensures f.infoPending || f.queue != []
    ensures Shows(if f.infoPending then f.(infoPending := false) else f.(queue := f.queue[1..]), Step(s, Take))
    ensures f.infoPending ==> Step(s, Take).publisher == PoppedInfo(PresentInfo(s), f.generation)
    ensures f.infoPending ==> f.epoch == TokenOf(f.first, s.core.epoch)
    ensures !f.infoPending ==> var p := Step(s, Take).publisher;
                               p.PoppedFrame? && Represents(f.first, f.queue[0], p.frame)
  {
    hide TokenOf, Represents, BeginEpoch, StampUnit, CompareStep, PublishStep, DisconnectPurgeStep, StopStep;
  }

  lemma ComparedShows(f: Fields, s: State)
    requires Shows(f, s) && (s.publisher.PoppedInfo? || s.publisher.PoppedFrame?)
    ensures Shows(f, Step(s, Compare))
    ensures Step(s, Compare) == CompareStep(s.(force := false)) && f.generation == s.core.generation
  {
    hide QueueShows, TokenOf, BeginEpoch, StampUnit, TakeStep, PublishStep, DisconnectPurgeStep, StopStep;
  }

  lemma StoppedShows(f: Fields, s: State)
    requires Shows(f, s)
    ensures Shows(f.(queue := [], infoPending := false, stopping := true, generation := f.generation + 1,
                     connections := 0, consumers := false),
                  Step(s, Stop))
  {
    hide QueueShows, TokenOf, BeginEpoch, StampUnit, TakeStep, CompareStep, PublishStep, DisconnectPurgeStep;
    EmptyShows(f.first);
  }

  lemma ArrivedShows(f: Fields, s: State)
    requires Shows(f, s)
    ensures Shows(f.(connections := f.connections + 1), Arrived(s))
  {
    ShowsScalars(f, s);
    hide QueueShows, TokenOf;
  }

  lemma JoinedShows(f: Fields, s: State)
    requires Shows(f, s)
    ensures Shows(f.(consumers := true), Joined(s))
  {
    hide QueueShows, TokenOf;
  }

  lemma LeftShows(f: Fields, s: State)
    requires Shows(f, s) && s.connections > 0
    ensures Shows(f.(connections := f.connections - 1, consumers := f.consumers && f.connections > 1), Left(s))
  {
    ShowsScalars(f, s);
    hide QueueShows, TokenOf;
  }

  class RosFrameQueue {
    const rosPublishingEnabled: bool
    const rosPublisherQueueCapacity: nat
    const firstEpoch: Token
    var rosFrameQueue: seq<QueuedROSFrame>
    var rosWaitingForIDR: bool
    var rosDroppedFramesBeforeIDR: nat
    var rosPublisherGeneration: nat
    var streamEpoch: Token
    var nextPublishedFrameSequence: nat
    var pendingDiscontinuity: Discontinuity
    var rosStreamInfoPending: bool
    var rosPublisherStopping: bool
    var rosSubscriberConnectionCount: nat
    var rosConsumersActive: bool
    var forceKeyframe: bool
    ghost var s: State

    ghost function View(): Fields
      reads this
    {
      Fields(rosPublishingEnabled, rosPublisherQueueCapacity, firstEpoch, rosFrameQueue, rosWaitingForIDR,
             rosDroppedFramesBeforeIDR, rosPublisherGeneration, streamEpoch, nextPublishedFrameSequence,
             pendingDiscontinuity, rosStreamInfoPending, rosPublisherStopping, rosSubscriberConnectionCount,
             rosConsumersActive)
    }

    /** The fields are the state `s` of the state machine. */
    ghost predicate Valid()
      reads this
    {
      Shows(View(), s)
    }

    constructor (enabled: bool, capacity: nat, first: Token)
      requires capacity > 0
      ensures Valid() && s == Initial(enabled, capacity) && firstEpoch == first
    {
      rosPublishingEnabled, rosPublisherQueueCapacity, firstEpoch := enabled, capacity, first;
      rosFrameQueue, rosWaitingForIDR, rosDroppedFramesBeforeIDR, rosPublisherGeneration := [], true, 0, 0;
      streamEpoch, nextPublishedFrameSequence, pendingDiscontinuity := first, 0, StreamStart;
      rosStreamInfoPending, rosPublisherStopping := enabled, false;
      rosSubscriberConnectionCount, rosConsumersActive, forceKeyframe := 0, false, true;
      s := Initial(enabled, capacity);
    }

    /** Called with the lock held: everything queued is dropped and counted, and the next epoch awaits its
        keyframe. */
    method AdvanceROSEpochLocked(discontinuity: Discontinuity, additionallyDroppedFrames: nat)
      requires Valid()
      modifies this
      ensures Valid()
      ensures s == old(s).(core := Advanced(old(s.core), discontinuity, additionallyDroppedFrames), purged := false)
      ensures streamEpoch == NextEpochToken(old(streamEpoch)) && rosFrameQueue == []
      ensures forceKeyframe == old(forceKeyframe)
    {
      hide Shows, NextEpochToken, Advanced;
      AdvancedShows(View(), s, discontinuity, additionallyDroppedFrames);
      rosDroppedFramesBeforeIDR := rosDroppedFramesBeforeIDR + |rosFrameQueue| + additionallyDroppedFrames;
      rosFrameQueue := [];
      streamEpoch := NextEpochToken(streamEpoch);
      nextPublishedFrameSequence := 0;
      pendingDiscontinuity := discontinuity;
      rosWaitingForIDR := true;
      rosPublisherGeneration := rosPublisherGeneration + 1;
      rosStreamInfoPending := true;
      s := s.(core := Advanced(s.core, discontinuity, additionallyDroppedFrames), purged := false);
    }

    method BeginROSEpoch(discontinuity: Discontinuity)
      requires Valid()
      modifies this
      ensures Valid() && s == BeginEpoch(old(s), discontinuity)
      ensures rosPublisherStopping == old(rosPublisherStopping)
      ensures rosPublishingEnabled && !rosPublisherStopping ==> forceKeyframe
      ensures old(forceKeyframe) ==> forceKeyframe
    {
      hide Shows;
      ShowsScalars(View(), s);
      if !rosPublishingEnabled || rosPublisherStopping { return; }
      AdvanceROSEpochLocked(discontinuity, 0);
      forceKeyframe := true;
      ShowsSame(View(), s, s.(force := true));
      ShowsScalars(View(), s);
      s := s.(force := true);
    }

    method ROSHasPendingEpoch() returns (pending: bool)
      requires Valid()
      ensures pending == (s.core.waiting && s.core.next == 0)
      ensures Inv(s) ==> (pending <==> forall f :: f in s.log.stamped ==> f.epoch != s.core.epoch)
    {
      hide Inv, Shows;
      ShowsScalars(View(), s);
      if Inv(s) { PendingEpoch(s); }
      pending := rosWaitingForIDR && nextPublishedFrameSequence == 0;
    }

    /** The first connection begins an epoch before the branch accepts units; every later one only asks for a
        keyframe. Behind the teardown a connection changes nothing. */
    method OnROSSubscriberConnected()
      requires Valid() && s.subscribers.Quiet?
      modifies this
      ensures Valid()
      ensures old(rosPublisherStopping) ==> s == old(s) && forceKeyframe == old(forceKeyframe)
      ensures !old(rosPublisherStopping) ==>
                s == if old(s.connections) == 0 then Step(Step(Step(old(s), Connect), ConnectEpoch), Activate)
                     else Step(old(s), Connect)
      ensures !old(rosPublisherStopping) && rosPublishingEnabled ==> forceKeyframe
    {
      hide Shows, Step, BeginEpoch, Arrived, Joined;
      ShowsScalars(View(), s);
      if rosPublisherStopping { return; }
      var firstConnection := rosSubscriberConnectionCount == 0;
      ArrivedShows(View(), s);
      rosSubscriberConnectionCount := rosSubscriberConnectionCount + 1;
      s := Arrived(s);
      if firstConnection {
        FirstConnection(old(s));
        BeginROSEpoch(StreamStart);
        JoinedShows(View(), s);
        rosConsumersActive := true;
        s := Joined(s);
      } else {
        LaterConnection(old(s));
        forceKeyframe := true;
      }
    }

    /** What the last disconnection does with the lock held. */
    method PurgeQueue()
      requires Valid()
      modifies this
      ensures Valid() && s == DisconnectPurgeStep(old(s)) && forceKeyframe == old(forceKeyframe)
      ensures rosPublisherStopping == old(rosPublisherStopping) && rosConsumersActive == old(rosConsumersActive)
      ensures rosPublisherStopping || rosFrameQueue == []
    {
      hide Shows, DisconnectPurgeStep;
      PurgedShows(View(), s);
      s := DisconnectPurgeStep(s);
      if rosPublisherStopping { return; }
      rosDroppedFramesBeforeIDR := rosDroppedFramesBeforeIDR + |rosFrameQueue|;
      rosFrameQueue := [];
      rosPublisherGeneration := rosPublisherGeneration + 1;
    }

    method OnROSSubscriberDisconnected()
      requires Valid() && s.subscribers.Quiet?
      modifies this
      ensures Valid() && forceKeyframe == old(forceKeyframe)
      ensures s == if old(s.connections) == 1 then Step(Step(old(s), Disconnect), DisconnectPurge)
                   else Step(old(s), Disconnect)
      ensures old(s.connections) == 1 ==> !rosConsumersActive && (rosPublisherStopping || rosFrameQueue == [])
    {
      hide Shows, Step, DisconnectPurgeStep, Left;
      ShowsScalars(View(), s);
      if rosSubscriberConnectionCount != 1 { EarlierDisconnection(s); }
      if rosSubscriberConnectionCount == 0 { return; }
      ghost var t := Left(s);
      LeftShows(View(), s);
      if rosSubscriberConnectionCount == 1 { LastDisconnection(s); }
      rosSubscriberConnectionCount := rosSubscriberConnectionCount - 1;
      s := t;
      if rosSubscriberConnectionCount == 0 {
        rosConsumersActive := false;
        PurgeQueue();
      }
    }

    /** The accepting half of the locked section. */
    method AppendLocked(data: seq<int>, rtpTimestamp: nat, keyframe: bool, metadata: PendingMetadata)
      requires Valid()
      modifies this
      ensures Valid() && s == Accepted(old(s), AccessUnit(keyframe, old(s.session)))
      ensures forceKeyframe == old(forceKeyframe) && |rosFrameQueue| == |old(rosFrameQueue)| + 1
      ensures var f := rosFrameQueue[|rosFrameQueue| - 1];
              f.annexB == data && f.rtpTimestamp == rtpTimestamp && f.sourceTime == metadata.sourceTime
              && f.sourceSequence == metadata.sourceSequence
    {
      hide Shows, Accepted;
      var discontinuity, droppedFramesBefore := NoDiscontinuity, 0;
      if rosWaitingForIDR {
        discontinuity := pendingDiscontinuity;
        droppedFramesBefore := Min(rosDroppedFramesBeforeIDR, MAX_UINT32);
      }
      var frame := QueuedROSFrame(data, metadata.sourceTime, metadata.sourceSequence, rtpTimestamp, keyframe,
                                  streamEpoch, nextPublishedFrameSequence, rosPublisherGeneration, discontinuity,
                                  droppedFramesBefore);
      AcceptedShows(View(), s, AccessUnit(keyframe, s.session), frame);
      nextPublishedFrameSequence := nextPublishedFrameSequence + 1;
      if rosWaitingForIDR {
        rosDroppedFramesBeforeIDR := 0;
        pendingDiscontinuity := NoDiscontinuity;
        rosWaitingForIDR := false;
      }
      rosFrameQueue := rosFrameQueue + [frame];
      s := Accepted(s, AccessUnit(keyframe, s.session));
    }

    /** The refusing half. */
    method DropLocked(count: nat)
      requires Valid() && s.held.Some?
      modifies this
      ensures Valid() && forceKeyframe
      ensures s == Dropped(old(s), old(s.held.value), old(s.core).(dropped := old(s.core.dropped) + count))
    {
      hide Shows, Dropped;
      DroppedShows(View(), s, s.held.value, count);
      rosDroppedFramesBeforeIDR := rosDroppedFramesBeforeIDR + count;
      forceKeyframe := true;
      s := Dropped(s, s.held.value, s.core.(dropped := s.core.dropped + count));
    }

    /** The locked section for a unit that found consumers active. */
    method EnqueueLocked(data: seq<int>, rtpTimestamp: nat, keyframe: bool, metadata: PendingMetadata)
      returns (queued: bool)
      requires Valid() && s.held == Some(AccessUnit(keyframe, s.session))
      modifies this
      ensures Valid() && s == StampUnit(old(s), old(s.held.value))
      ensures queued <==> |s.log.stamped| > |old(s.log.stamped)|
      ensures queued ==>
                && rosFrameQueue != []
                && var f := rosFrameQueue[|rosFrameQueue| - 1];
                   f.annexB == data && f.rtpTimestamp == rtpTimestamp && f.sourceTime == metadata.sourceTime
                   && f.sourceSequence == metadata.sourceSequence
      ensures old(forceKeyframe) || (!queued && !rosPublisherStopping) ==> forceKeyframe
    {
      hide Shows, StampUnit, Accepted, Dropped, Advanced;
      StampEffect(s, s.held.value);
      ShowsScalars(View(), s);
      var full := |rosFrameQueue| >= rosPublisherQueueCapacity;
      if rosPublisherStopping {
        ShowsSame(View(), s, Missed(s).(held := None));
        s := Missed(s).(held := None);
        return false;
      }
      if full { AdvanceROSEpochLocked(QueueOverflow, if keyframe then 0 else 1); }
      ShowsScalars(View(), s);
      queued := keyframe || !rosWaitingForIDR;
      if queued {
        AppendLocked(data, rtpTimestamp, keyframe, metadata);
      } else {
        DropLocked(if full then 0 else 1);
      }
    }

    /** One access unit, without an interruption between test and locked section. Nothing happens to an empty
        buffer. */
    method EnqueueROSAccessUnit(data: seq<int>, rtpTimestamp: nat, keyframe: bool, metadata: PendingMetadata)
      returns (queued: bool)
      requires Valid() && s.held.None?
      modifies this
      ensures Valid()
      ensures data == [] ==> s == old(s) && !queued && forceKeyframe == old(forceKeyframe)
      ensures data != [] ==> s == Step(Step(old(s), Offer(AccessUnit(keyframe, old(s.session)))), Stamp)
      ensures queued <==> |s.log.stamped| > |old(s.log.stamped)|
      ensures queued ==> rosFrameQueue != [] && rosFrameQueue[|rosFrameQueue| - 1].annexB == data
      ensures !queued && data != [] && old(rosPublishingEnabled && rosConsumersActive) && !rosPublisherStopping ==>
                forceKeyframe
    {
      hide Shows, Step, StampUnit;
      ghost var unit := AccessUnit(keyframe, s.session);
      OfferedAndStamped(s, unit);
      ShowsScalars(View(), s);
      if data == [] { return false; }
      if !rosPublishingEnabled || !rosConsumersActive {
        ShowsSame(View(), s, Missed(s.(force := false)));
        s := Missed(s.(force := false));
        return false;
      }
      ShowsSame(View(), s, s.(held := Some(unit), force := false));
      s := s.(held := Some(unit), force := false);
      queued := EnqueueLocked(data, rtpTimestamp, keyframe, metadata);
    }

    /** The locked section of the publisher's loop: StreamInfo goes before any frame. */
    method TakeNext() returns (info: Option<(Token, nat)>, frame: Option<QueuedROSFrame>)
      requires Valid() && Enabled(s, RosEpochs.Take)
      modifies this
      ensures Valid() && s == Step(old(s), RosEpochs.Take) && forceKeyframe == old(forceKeyframe)
      ensures old(rosStreamInfoPending) ==>
                && frame.None? && info == Some((streamEpoch, rosPublisherGeneration))
                && s.publisher == PoppedInfo(old(PresentInfo(s)), rosPublisherGeneration)
                && streamEpoch == TokenOf(firstEpoch, old(s.core.epoch))
      ensures !old(rosStreamInfoPending) ==>
                && info.None? && old(rosFrameQueue) != [] && frame == Some(old(rosFrameQueue)[0])
                && s.publisher.PoppedFrame? && Represents(firstEpoch, frame.value, s.publisher.frame)
    {
      hide Shows, Step, TokenOf, Represents, Enabled;
      TakenShows(View(), s);
      info, frame := None, None;
      if rosStreamInfoPending {
        info := Some((streamEpoch, rosPublisherGeneration));
        rosStreamInfoPending := false;
      } else {
        frame := Some(rosFrameQueue[0]);
        rosFrameQueue := rosFrameQueue[1..];
      }
      s := Step(s, RosEpochs.Take);
    }

    /** The generation check; what it lets pass is published after the lock is released. */
    method FrameIsCurrent(frame: QueuedROSFrame) returns (current: bool)
      requires Valid() && s.publisher.PoppedFrame? && Represents(firstEpoch, frame, s.publisher.frame)
      modifies this
      ensures Valid() && s == Step(old(s), RosEpochs.Compare) && forceKeyframe == old(forceKeyframe)
      ensures current == (frame.generation == rosPublisherGeneration)
      ensures current ==> s.publisher == ClearedFrame(old(s.publisher.frame))
      ensures !current ==> s.publisher.Idle? && s.log.discards == old(s.log.discards) + 1
    {
      hide Shows, Step, TokenOf;
      ComparedShows(View(), s);
      current := frame.generation == rosPublisherGeneration;
      s := Step(s, RosEpochs.Compare);
    }

    /** The same check for a StreamInfo that was taken. */
    method InfoIsCurrent(generation: nat) returns (current: bool)
      requires Valid() && s.publisher.PoppedInfo? && s.publisher.generation == generation
      modifies this
      ensures Valid() && s == Step(old(s), RosEpochs.Compare) && forceKeyframe == old(forceKeyframe)
      ensures current == (generation == rosPublisherGeneration)
      ensures s.publisher == if current then ClearedInfo(old(s.publisher.info)) else Idle
    {
      hide Shows, Step;
      ComparedShows(View(), s);
      current := generation == rosPublisherGeneration;
      s := Step(s, RosEpochs.Compare);
    }

    /** Teardown: what is queued is abandoned, and nothing is taken any more. */
    method StopROSPublisher()
      requires Valid()
      modifies this
      ensures Valid() && s == Step(old(s), RosEpochs.Stop)
      ensures rosFrameQueue == [] && !rosConsumersActive && rosPublisherStopping
    {
      hide Shows, Step;
      StoppedShows(View(), s);
      rosPublisherStopping := true;
      rosFrameQueue := [];
      rosStreamInfoPending := false;
      rosPublisherGeneration := rosPublisherGeneration + 1;
      rosSubscriberConnectionCount := 0;
      rosConsumersActive := false;
      s := Step(s, RosEpochs.Stop);
    }
  }
}
