/** Snapshot capture: the control executor admits and closes captures under one slot shared by all sources of
    the host, the render thread reads pixels back (through a pixel buffer object or synchronously), and a worker
    thread of each source encodes them. Submitted work keeps its capture, and with it the slot, until it ends. */
module Capture {
  import opened Wrappers

  /** A readback: the capture it is for, the render callback its metadata is from, and its pixels'. */
  datatype Shot = Shot(generation: nat, frame: nat, pixels: nat)

  /** The admitted capture. `admittedAt` counts the render callbacks begun before its admission. */
  datatype Snapshot = Snapshot(generation: nat, admittedAt: nat, submitted: bool, completed: bool, failed: bool,
                               shot: Option<Shot>)

  datatype Phase =
    | Between                  // render callbacks
    | Callback                 // begun, capture not looked at
    | Began(shot: Shot)        // metadata frozen
    | Read(shot: Shot)         // pixels in hand
    | Queueing(shot: Shot)     // submitted, not handed to the worker yet
    | Spent

  datatype Source = Source(
    removed: bool,
    held: bool,                // the reply, and the slot
    snapshot: Option<Snapshot>,
    generation: nat,
    keyframe: nat,             // generation that also waits for a keyframe; 0: none
    skip: nat,                 // render passes to let go by
    frame: nat,                // render callbacks begun
    pbo: bool,                 // pixel buffers still trusted
    phase: Phase,
    readback: Option<Shot>,
    job: Option<Shot>,
    worker: Option<Shot>,
    keyPending: nat,
    keyApplied: nat,
    keyFailed: nat,
    rearms: nat,
    log: seq<Snapshot>)        // closed captures, as they were answered

  datatype PollResult = Timeout | PboFailure | Copied

  datatype Event =
    | Flush(late: bool)                          // control executor; `late`: cancelled or past the deadline
    | StartCallback | EndCallback                // render thread
    | Poll(result: PollResult)
    | Begin | GiveUp | Issue(ok: bool) | ReadPixels(ok: bool) | Submit | Queue
    | KeyframeOut | KeyframeLost                 // a requested keyframe was encoded, or the encoder failed
    | PopJob | Deliver(failed: bool)             // worker thread

  // ----- steps of one source -----

  function Admitted(s: Source, keyframe: bool): Source {
    var g := s.generation + 1;
    s.(held := true, generation := g, skip := 1, keyframe := if keyframe then g else 0,
       keyPending := if keyframe then g else s.keyPending,
       snapshot := Some(Snapshot(g, s.frame, false, false, false, None)))
  }

  predicate WaitsForKeyframe(s: Source) {
    s.snapshot.Some? && s.snapshot.value.completed && s.keyframe != 0 && s.keyApplied != s.keyframe
  }

  function Closed(s: Source, answer: Snapshot): Source {
    s.(held := false, snapshot := None, skip := 0, log := s.log + [answer])
  }

  function Flushed(s: Source, late: bool): Source {
    if !s.held || s.snapshot.None? then s
    else
      var c := s.snapshot.value;
      if WaitsForKeyframe(s) then (if s.keyFailed == s.keyframe then Closed(s, c.(failed := true)) else s)
      else if c.completed then Closed(s, c)
      else if late && !c.submitted && s.readback.None? then Closed(s, c.(failed := true))
      else s
  }

  /** Marks whatever capture is there as failed; it does not ask which one the failure belongs to. */
  function Failure(s: Source): Source {
    if s.snapshot.None? || s.snapshot.value.completed then s
    else s.(snapshot := Some(s.snapshot.value.(failed := true, completed := true)))
  }

  predicate Current(s: Source, shot: Shot) {
    s.snapshot.Some? && s.snapshot.value.generation == shot.generation && !s.snapshot.value.completed
  }

  function Submitted(s: Source, value: bool): Source
    requires s.snapshot.Some?
  {
    s.(snapshot := Some(s.snapshot.value.(submitted := value)))
  }

  function Polled(s: Source, result: PollResult): Source
    requires s.readback.Some?
  {
    var shot := s.readback.value;
    match result
    case Timeout => s.(phase := Spent)
    case Copied => s.(readback := None, phase := Queueing(shot))
    case PboFailure =>
      var t := s.(readback := None, pbo := false, phase := Spent, rearms := s.rearms + 1);
      if Current(s, shot) then Submitted(t, false).(skip := 0) else t
  }

  function Begun(s: Source): Source {
    if s.snapshot.None? || s.snapshot.value.completed || s.snapshot.value.submitted then s.(phase := Spent)
    else if s.skip > 0 then s.(skip := s.skip - 1, phase := Spent)
    else s.(phase := Began(Shot(s.snapshot.value.generation, s.frame, 0)))
  }

  function Issued(s: Source, ok: bool): Source
    requires s.phase.Began?
  {
    var shot := s.phase.shot.(pixels := s.frame);
    if !ok then s.(pbo := false)
    else if Current(s, shot) then Submitted(s, true).(readback := Some(shot), phase := Spent)
    else s.(phase := Spent)
  }

  function PixelsRead(s: Source, ok: bool): Source
    requires s.phase.Began?
  {
    if ok then s.(phase := Read(s.phase.shot.(pixels := s.frame))) else Failure(s).(phase := Spent)
  }

  function SubmitStep(s: Source): Source
    requires s.phase.Read?
  {
    if Current(s, s.phase.shot) then Submitted(s, true).(phase := Queueing(s.phase.shot)) else s.(phase := Spent)
  }

  function Queued(s: Source): Source
    requires s.phase.Queueing?
  {
    if s.job.Some? then Failure(s).(phase := Spent) else s.(job := Some(s.phase.shot), phase := Spent)
  }

  function Delivered(s: Source, failed: bool): Source
    requires s.worker.Some?
  {
    var shot := s.worker.value;
    var t := s.(worker := None);
    if Current(s, shot) then
      t.(snapshot := Some(Snapshot(shot.generation, s.snapshot.value.admittedAt, false, true, failed, Some(shot))))
    else t
  }

  predicate Enabled(s: Source, e: Event) {
    !s.removed
    && match e
       case StartCallback => s.phase.Between?
       case EndCallback => s.phase.Callback? || s.phase.Spent?
       case Poll(_) => s.phase.Callback? && s.readback.Some?
       case Begin => s.phase.Callback? && s.readback.None?
       case GiveUp => s.phase.Began?
       case Issue(_) => s.phase.Began? && s.pbo
       case ReadPixels(_) => s.phase.Began? && !s.pbo
       case Submit => s.phase.Read?
       case Queue => s.phase.Queueing?
       case PopJob => s.worker.None? && s.job.Some?
       case Deliver(_) => s.worker.Some?
       case _ => true
  }

  function Fire(s: Source, e: Event): Source
    requires Enabled(s, e)
  {
    match e
    case Flush(late) => Flushed(s, late)
    case StartCallback => s.(frame := s.frame + 1, phase := Callback)
    case EndCallback => s.(phase := Between)
    case Poll(result) => Polled(s, result)
    case Begin => Begun(s)
    case GiveUp => Failure(s).(phase := Spent)
    case Issue(ok) => Issued(s, ok)
    case ReadPixels(ok) => PixelsRead(s, ok)
    case Submit => SubmitStep(s)
    case Queue => Queued(s)
    case KeyframeOut => if s.keyPending == 0 then s else s.(keyApplied := s.keyPending, keyPending := 0)
    case KeyframeLost => if s.keyPending == 0 then s else s.(keyFailed := s.keyPending, keyPending := 0)
    case PopJob => s.(worker := s.job, job := None)
    case Deliver(failed) => Delivered(s, failed)
  }

  /** A removed source: the render callbacks are gone and the worker has joined. */
  function Removed(s: Source): Source {
    s.(removed := true, held := false, snapshot := None, phase := Between, readback := None, job := None,
       worker := None)
  }

  function NewSource(): Source {
    Source(false, false, None, 0, 0, 0, 0, true, Between, None, None, None, 0, 0, 0, 0, [])
  }

  // ----- the invariant of one source -----

  /** Submitted work that has not ended. */
  function Work(s: Source): seq<Shot> {
    (if s.readback.Some? then [s.readback.value] else [])
    + (if s.phase.Queueing? then [s.phase.shot] else [])
    + (if s.job.Some? then [s.job.value] else [])
    + (if s.worker.Some? then [s.worker.value] else [])
  }

  predicate Busy(s: Source) { Work(s) != [] }

  /** Metadata and pixels are of one render callback, and that one began after the admission. */
  predicate Fresh(c: Snapshot, shot: Shot) {
    shot.generation == c.generation && shot.pixels == shot.frame > c.admittedAt
  }

  /** There is work exactly while a submitted capture is not completed, one piece of it, and its own. */
  predicate WorkOk(s: Source) {
    && |Work(s)| <= 1
    && (Busy(s) <==> s.snapshot.Some? && s.snapshot.value.submitted && !s.snapshot.value.completed)
    && (Busy(s) ==> Fresh(s.snapshot.value, Work(s)[0]))
  }

  predicate SnapshotOk(s: Source) {
    s.snapshot.Some? ==>
      var c := s.snapshot.value;
      && c.generation == s.generation >= 1 && c.admittedAt <= s.frame
      && (c.completed && !c.failed ==> c.shot.Some? && Fresh(c, c.shot.value))
      && (!c.submitted && !c.completed && s.skip == 0 && s.phase.Callback? ==> c.admittedAt < s.frame)
  }

  predicate PhaseOk(s: Source) {
    && (s.phase.Began? || s.phase.Read? ==>
          && !Busy(s) && s.phase.shot.frame == s.frame && 1 <= s.phase.shot.generation <= s.generation
          && (s.snapshot.Some? ==> !s.snapshot.value.completed)
          && (s.phase.Read? ==> s.phase.shot.pixels == s.frame)
          && (s.snapshot.Some? && s.snapshot.value.generation == s.phase.shot.generation ==>
                s.snapshot.value.admittedAt < s.frame))
    && (s.readback.Some? ==> s.pbo)
    && s.rearms <= 1 && (s.pbo ==> s.rearms == 0)
  }

  /** Every admitted capture was closed once, in order; a successful one with a fresh shot. */
  predicate LogOk(s: Source) {
    && |s.log| + (if s.held then 1 else 0) <= s.generation
    && (!s.removed ==> |s.log| + (if s.held then 1 else 0) == s.generation)
    && forall k {:trigger s.log[k]} :: 0 <= k < |s.log| ==>
         && s.log[k].generation == k + 1
         && (!s.log[k].failed ==> s.log[k].shot.Some? && Fresh(s.log[k], s.log[k].shot.value))
  }

  predicate SourceInv(s: Source) {
    && (s.held <==> s.snapshot.Some?) && (s.removed ==> !s.held)
    && WorkOk(s) && SnapshotOk(s) && PhaseOk(s) && LogOk(s)
  }

  lemma AdmitKeepsInv(s: Source, keyframe: bool)
    requires SourceInv(s) && !s.held && !s.removed
    ensures SourceInv(Admitted(s, keyframe))
  {
  }

  lemma FlushKeepsInv(s: Source, late: bool)
    requires SourceInv(s)
    ensures SourceInv(Flushed(s, late))
  {
  }

  lemma PollKeepsInv(s: Source, result: PollResult)
    requires SourceInv(s) && Enabled(s, Poll(result))
    ensures SourceInv(Polled(s, result))
  {
  }

  lemma BeginKeepsInv(s: Source)
    requires SourceInv(s) && Enabled(s, Begin)
    ensures SourceInv(Begun(s))
  {
  }

  lemma IssueKeepsInv(s: Source, ok: bool)
    requires SourceInv(s) && Enabled(s, Issue(ok))
    ensures SourceInv(Issued(s, ok))
  {
  }

  lemma ReadKeepsInv(s: Source, ok: bool)
    requires SourceInv(s) && Enabled(s, ReadPixels(ok))
    ensures SourceInv(PixelsRead(s, ok))
  {
  }

  lemma SubmitKeepsInv(s: Source)
    requires SourceInv(s) && Enabled(s, Submit)
    ensures SourceInv(SubmitStep(s))
  {
  }

  lemma QueueKeepsInv(s: Source)
    requires SourceInv(s) && Enabled(s, Queue)
    ensures SourceInv(Queued(s)) && s.job.None?
  {
  }

  lemma WorkerKeepsInv(s: Source, e: Event)
    requires SourceInv(s) && Enabled(s, e) && (e.PopJob? || e.Deliver?)
    ensures SourceInv(Fire(s, e))
  {
  }

  lemma OtherKeepsInv(s: Source, e: Event)
    requires SourceInv(s) && Enabled(s, e)
    requires e.StartCallback? || e.EndCallback? || e.KeyframeOut? || e.KeyframeLost?
    ensures SourceInv(Fire(s, e))
  {
  }

  lemma GiveUpKeepsInv(s: Source)
    requires SourceInv(s) && Enabled(s, GiveUp)
    ensures SourceInv(Fire(s, GiveUp))
  {
  }

  lemma RemoveKeepsInv(s: Source)
    requires SourceInv(s)
    ensures SourceInv(Removed(s))
  {
  }

  lemma FireKeepsInv(s: Source, e: Event)
    requires SourceInv(s) && Enabled(s, e)
    ensures SourceInv(Fire(s, e))
  {
    hide SourceInv, Flushed, Polled, Begun, Issued, PixelsRead, SubmitStep, Queued, Delivered, Failure;
    match e
    case Flush(late) => FlushKeepsInv(s, late);
    case Poll(result) => PollKeepsInv(s, result);
    case Begin => BeginKeepsInv(s);
    case Issue(ok) => IssueKeepsInv(s, ok);
    case ReadPixels(ok) => ReadKeepsInv(s, ok);
    case GiveUp => GiveUpKeepsInv(s);
    case Submit => SubmitKeepsInv(s);
    case Queue => QueueKeepsInv(s);
    case PopJob => WorkerKeepsInv(s, e);
    case Deliver(_) => WorkerKeepsInv(s, e);
    case _ => OtherKeepsInv(s, e);
  }

  // ----- all sources of the host -----

  datatype Host = Host(reserved: bool, sources: seq<Source>, admitted: nat, released: nat)

  datatype HostEvent = Admit(i: nat, keyframe: bool) | Local(i: nat, e: Event) | Remove(i: nat)

  /** A source that lets go of its capture releases the slot. */
  function Moved(h: Host, i: nat, t: Source): Host
    requires i < |h.sources|
  {
    var k := h.(sources := h.sources[i := t]);
    if h.sources[i].held && !t.held then k.(reserved := false, released := h.released + 1) else k
  }

  /** Admission succeeds only with the free slot; a source is removed between callbacks. */
  function Step(h: Host, e: HostEvent): Host {
    if e.i >= |h.sources| || h.sources[e.i].removed then h
    else match e
      case Admit(i, keyframe) =>
        if h.reserved then h
        else
          h.(reserved := true, sources := h.sources[i := Admitted(h.sources[i], keyframe)],
             admitted := h.admitted + 1)
      case Local(i, event) =>
        if Enabled(h.sources[i], event) then Moved(h, i, Fire(h.sources[i], event)) else h
      case Remove(i) => if h.sources[i].phase.Between? then Moved(h, i, Removed(h.sources[i])) else h
  }

  function Run(h: Host, events: seq<HostEvent>): Host
    decreases |events|
  {
    if events == [] then h else Run(Step(h, events[0]), events[1..])
  }

  function Initial(n: nat): Host { Host(false, seq(n, _ => NewSource()), 0, 0) }

  predicate SlotOk(h: Host) {
    && (forall i, j :: 0 <= i < j < |h.sources| ==> !(h.sources[i].held && h.sources[j].held))
    && (h.reserved <==> exists i :: 0 <= i < |h.sources| && h.sources[i].held)
    && h.admitted == h.released + (if h.reserved then 1 else 0)
  }

  predicate HostInv(h: Host) {
    SlotOk(h) && forall i {:trigger h.sources[i]} :: 0 <= i < |h.sources| ==> SourceInv(h.sources[i])
  }

  lemma FireKeepsHeld(s: Source, e: Event)
    requires SourceInv(s) && Enabled(s, e)
    ensures Fire(s, e).held ==> s.held
  {
  }

  lemma MovedKeepsSlot(h: Host, i: nat, t: Source)
    requires SlotOk(h) && i < |h.sources| && (t.held ==> h.sources[i].held)
    ensures SlotOk(Moved(h, i, t))
  {
    var k := Moved(h, i, t);
    if h.reserved && h.sources[i].held == t.held {
      var j :| 0 <= j < |h.sources| && h.sources[j].held;
      assert k.sources[j].held;
    }
  }

  lemma AdmitKeepsSlot(h: Host, i: nat, keyframe: bool)
    requires SlotOk(h) && i < |h.sources| && !h.reserved
    ensures SlotOk(h.(reserved := true, sources := h.sources[i := Admitted(h.sources[i], keyframe)],
                      admitted := h.admitted + 1))
  {
    var k := h.sources[i := Admitted(h.sources[i], keyframe)];
    assert k[i].held;
  }

  lemma HostStepKeepsInv(h: Host, e: HostEvent)
    requires HostInv(h)
    ensures HostInv(Step(h, e))
  {
    hide SlotOk, SourceInv, Admitted, Fire, Removed;
    if e.i < |h.sources| && !h.sources[e.i].removed {
      var s := h.sources[e.i];
      match e
      case Admit(i, keyframe) =>
        if !h.reserved {
          FreeSource(h, i);
          AdmitKeepsSlot(h, i, keyframe);
          AdmitKeepsInv(s, keyframe);
        }
      case Local(i, event) =>
        if Enabled(s, event) {
          FireKeepsInv(s, event);
          FireKeepsHeld(s, event);
          MovedKeepsSlot(h, i, Fire(s, event));
        }
      case Remove(i) =>
        if s.phase.Between? {
          RemoveKeepsInv(s);
          assert !Removed(s).held by { RemovedIsFree(s); }
          MovedKeepsSlot(h, i, Removed(s));
        }
    }
  }

  lemma RemovedIsFree(s: Source)
    ensures !Removed(s).held
  {
  }

  lemma FreeSource(h: Host, i: nat)
    requires SlotOk(h) && i < |h.sources| && !h.reserved
    ensures !h.sources[i].held
  {
  }

  lemma {:induction false} RunKeepsInv(h: Host, events: seq<HostEvent>)
    requires HostInv(h)
    ensures HostInv(Run(h, events))
    decreases |events|
  {
    hide HostInv, Step;
    if events != [] {
      HostStepKeepsInv(h, events[0]);
      RunKeepsInv(Step(h, events[0]), events[1..]);
    }
  }

  lemma InitialInv(n: nat)
    ensures HostInv(Initial(n))
  {
  }

  // ----- what every run keeps -----

  /** Across all sources at most one capture has submitted work outstanding; that is one piece of work, of the
      capture that holds the slot; the encode queue takes it; and the slot was released once for every admission
      but the one that holds it. */
  lemma EveryRunIsExclusive(n: nat, events: seq<HostEvent>)
    ensures var h := Run(Initial(n), events);
            && (forall i, j :: 0 <= i < j < |h.sources| ==> !(Busy(h.sources[i]) && Busy(h.sources[j])))
            && (forall i {:trigger h.sources[i]} :: 0 <= i < |h.sources| && Busy(h.sources[i]) ==>
                  h.sources[i].held && h.reserved && |Work(h.sources[i])| == 1
                  && Current(h.sources[i], Work(h.sources[i])[0]))
            && (forall i {:trigger h.sources[i]} :: 0 <= i < |h.sources| && h.sources[i].phase.Queueing? ==>
                  h.sources[i].job.None? && h.sources[i].worker.None?)
            && h.admitted == h.released + (if h.reserved then 1 else 0)
  {
    InitialInv(n);
    RunKeepsInv(Initial(n), events);
    var h := Run(Initial(n), events);
    forall i | 0 <= i < |h.sources| ensures SourceInv(h.sources[i]) {}
  }

  /** Every admitted capture of a source that is still there was answered exactly once, in order; a successful
      answer has metadata and pixels of one render callback, begun after the admission; and pixel buffers sent a
      capture round again at most once in the source's life. */
  lemma EveryRunIsFresh(n: nat, events: seq<HostEvent>, i: nat)
    requires i < |Run(Initial(n), events).sources|
    ensures var s := Run(Initial(n), events).sources[i];
            && (!s.removed ==> |s.log| + (if s.held then 1 else 0) == s.generation)
            && (forall k :: 0 <= k < |s.log| ==> s.log[k].generation == k + 1)
            && (forall k :: 0 <= k < |s.log| && !s.log[k].failed ==>
                  s.log[k].shot.Some? && Fresh(s.log[k], s.log[k].shot.value))
            && s.rearms <= 1
  {
    InitialInv(n);
    RunKeepsInv(Initial(n), events);
    var s := Run(Initial(n), events).sources[i];
    assert SourceInv(s);
  }

  lemma ReachableSource(n: nat, events: seq<HostEvent>, i: nat)
    requires i < |Run(Initial(n), events).sources|
    ensures SourceInv(Run(Initial(n), events).sources[i])
  {
    InitialInv(n);
    RunKeepsInv(Initial(n), events);
  }

  /** The worker's result always meets the capture it was made for. */
  lemma ResultsAreDelivered(n: nat, events: seq<HostEvent>, i: nat, failed: bool)
    requires i < |Run(Initial(n), events).sources| && Run(Initial(n), events).sources[i].worker.Some?
    ensures var s := Run(Initial(n), events).sources[i];
            var t := Delivered(s, failed);
            && t.snapshot.Some? && t.snapshot.value.completed && t.snapshot.value.failed == failed
            && t.snapshot.value.shot == s.worker && s.snapshot.value.generation == s.worker.value.generation
  {
    ReachableSource(n, events, i);
    var s := Run(Initial(n), events).sources[i];
    assert s.worker.value in Work(s);
  }

  /** A late caller is answered at once exactly if no submitted work is left and the capture is not complete but
      for its keyframe; for that it waits past any deadline. */
  lemma LateFlushCloses(n: nat, events: seq<HostEvent>, i: nat)
    requires i < |Run(Initial(n), events).sources| && Run(Initial(n), events).sources[i].held
    ensures var s := Run(Initial(n), events).sources[i];
            !Flushed(s, true).held <==> !Busy(s) && (WaitsForKeyframe(s) ==> s.keyFailed == s.keyframe)
  {
    ReachableSource(n, events, i);
  }

  /** The capture was answered. */
  predicate WasClosed(s: Source, generation: nat) {
    exists k :: 0 <= k < |s.log| && s.log[k].generation == generation
  }

  /** A failure of the callback under way answers a capture that is not the callback's own exactly if its own was
      closed and another one admitted meanwhile; then it is that one, of which nothing was submitted. */
  lemma FailureHits(n: nat, events: seq<HostEvent>, i: nat, e: Event)
    requires var h := Run(Initial(n), events);
             i < |h.sources| && Enabled(h.sources[i], e) && (e == GiveUp || e == ReadPixels(false))
    ensures var s := Run(Initial(n), events).sources[i];
            var t := Fire(s, e);
            var hit := t.snapshot != s.snapshot;
            && (hit ==> t.snapshot.Some? && t.snapshot.value.failed && t.snapshot.value.completed)
            && (hit && t.snapshot.value.generation != s.phase.shot.generation
                <==> WasClosed(s, s.phase.shot.generation) && s.held)
            && (hit ==> t.snapshot.value.generation == |s.log| + 1 && !t.snapshot.value.submitted)
  {
    ReachableSource(n, events, i);
    var s := Run(Initial(n), events).sources[i];
    ClosedGenerations(s, s.phase.shot.generation);
    hide Run, LogOk, WasClosed;
  }

  /** The closed captures are those with the first generations. */
  lemma ClosedGenerations(s: Source, g: nat)
    requires LogOk(s) && !s.removed && g >= 1
    ensures |s.log| + (if s.held then 1 else 0) == s.generation
    ensures WasClosed(s, g) <==> g <= |s.log|
  {
    if g <= |s.log| {
      assert s.log[g - 1].generation == g;
    }
  }

  lemma RunFour(h: Host, a: HostEvent, b: HostEvent, c: HostEvent, d: HostEvent, rest: seq<HostEvent>)
    ensures Run(h, [a, b, c, d] + rest) == Run(Step(Step(Step(Step(h, a), b), c), d), rest)
  {
    hide Step;
    var all := [a, b, c, d] + rest;
    assert all[1..] == [b, c, d] + rest && ([b, c, d] + rest)[1..] == [c, d] + rest;
    assert ([c, d] + rest)[1..] == [d] + rest && ([d] + rest)[1..] == rest;
    var t := Step(Step(h, a), b);
    assert Run(h, all) == Run(Step(h, a), [b, c, d] + rest);
    assert Run(Step(h, a), [b, c, d] + rest) == Run(t, [c, d] + rest);
    assert Run(t, [c, d] + rest) == Run(Step(t, c), [d] + rest);
  }

  /** The first capture's callback is under way when its caller gives up and the next capture is admitted; the
      callback's failure then answers the second capture, of which nothing was tried. */
  lemma FailureHitsTheNextCapture()
    ensures var h := Run(Initial(1), [Admit(0, false), Local(0, StartCallback), Local(0, Begin), Local(0, EndCallback)]
                                     + ([Local(0, StartCallback), Local(0, Begin), Local(0, Flush(true)),
                                         Admit(0, false)]
                                        + [Local(0, GiveUp)]));
            |h.sources| == 1 && h.sources[0].snapshot == Some(Snapshot(2, 2, false, true, true, None))
  {
    var h0 := Initial(1);
    var second := [Local(0, StartCallback), Local(0, Begin), Local(0, Flush(true)), Admit(0, false)];
    RunFour(h0, Admit(0, false), Local(0, StartCallback), Local(0, Begin), Local(0, EndCallback),
            second + [Local(0, GiveUp)]);
    var s4 := NewSource().(held := true, generation := 1, frame := 1,
                           snapshot := Some(Snapshot(1, 0, false, false, false, None)));
    var h4 := Host(true, [s4], 1, 0);
    assert h0.sources == [NewSource()];
    var a := Step(h0, Admit(0, false));
    var b := Step(a, Local(0, StartCallback));
    var c := Step(b, Local(0, Begin));
    assert c.sources[0] == s4.(phase := Spent);
    assert Step(c, Local(0, EndCallback)) == h4;
    RunFour(h4, Local(0, StartCallback), Local(0, Begin), Local(0, Flush(true)), Admit(0, false), [Local(0, GiveUp)]);
    SecondAdmission(h4, s4);
  }

  lemma SecondAdmission(h4: Host, s4: Source)
    requires s4 == NewSource().(held := true, generation := 1, frame := 1,
                                snapshot := Some(Snapshot(1, 0, false, false, false, None)))
    requires h4 == Host(true, [s4], 1, 0)
    ensures var d := Step(Step(Step(Step(h4, Local(0, StartCallback)), Local(0, Begin)), Local(0, Flush(true))),
                          Admit(0, false));
            var h := Run(d, [Local(0, GiveUp)]);
            |h.sources| == 1 && h.sources[0].snapshot == Some(Snapshot(2, 2, false, true, true, None))
  {
    var a := Step(h4, Local(0, StartCallback));
    var b := Step(a, Local(0, Begin));
    assert b.sources[0].phase == Began(Shot(1, 2, 0));
    var c := Step(b, Local(0, Flush(true)));
    assert !c.reserved && c.sources[0].snapshot.None?;
    var d := Step(c, Admit(0, false));
    assert d.sources[0].snapshot == Some(Snapshot(2, 2, false, false, false, None));
    var e := Step(d, Local(0, GiveUp));
    assert [Local(0, GiveUp)][1..] == [] && Run(d, [Local(0, GiveUp)]) == Run(e, []);
  }

  const BEGIN_FIRST := [Admit(0, true), Local(0, StartCallback), Local(0, Begin), Local(0, EndCallback)]
  const READ := [Local(0, StartCallback), Local(0, Begin), Local(0, Issue(true)), Local(0, EndCallback)]
  const HAND_OVER := [Local(0, StartCallback), Local(0, Poll(Copied)), Local(0, Queue), Local(0, PopJob)]
  const FIRST_SHOT := Shot(1, 2, 2)

  /** A capture that also wants a keyframe, after the callback that lets the first pass go by. */
  function Skipped(): Source {
    NewSource().(held := true, generation := 1, keyframe := 1, keyPending := 1, frame := 1,
                 snapshot := Some(Snapshot(1, 0, false, false, false, None)))
  }

  function Issuing(): Source {
    Skipped().(frame := 2, snapshot := Some(Snapshot(1, 0, true, false, false, None)), readback := Some(FIRST_SHOT))
  }

  function Encoding(): Source {
    Issuing().(frame := 3, readback := None, worker := Some(FIRST_SHOT), phase := Spent)
  }

  function One(s: Source): Host { Host(true, [s], 1, 0) }

  lemma ReachSkipped(rest: seq<HostEvent>)
    ensures Run(Initial(1), BEGIN_FIRST + rest) == Run(One(Skipped()), rest)
  {
    hide Run;
    RunFour(Initial(1), Admit(0, true), Local(0, StartCallback), Local(0, Begin), Local(0, EndCallback), rest);
    assert Initial(1).sources == [NewSource()];
    var a := Step(Initial(1), Admit(0, true));
    var c := Step(Step(a, Local(0, StartCallback)), Local(0, Begin));
    assert c.sources[0] == Skipped().(phase := Spent);
    assert Step(c, Local(0, EndCallback)) == One(Skipped());
  }

  lemma ReachIssuing(rest: seq<HostEvent>)
    ensures Run(One(Skipped()), READ + rest) == Run(One(Issuing()), rest)
  {
    hide Run;
    RunFour(One(Skipped()), Local(0, StartCallback), Local(0, Begin), Local(0, Issue(true)), Local(0, EndCallback),
            rest);
    var b := Step(Step(One(Skipped()), Local(0, StartCallback)), Local(0, Begin));
    assert b.sources[0] == Skipped().(frame := 2, phase := Began(Shot(1, 2, 0)));
    var c := Step(b, Local(0, Issue(true)));
    assert c.sources[0] == Issuing().(phase := Spent);
    assert Step(c, Local(0, EndCallback)) == One(Issuing());
  }

  lemma ReachEncoding(rest: seq<HostEvent>)
    ensures Run(One(Issuing()), HAND_OVER + rest) == Run(One(Encoding()), rest)
  {
    hide Run;
    RunFour(One(Issuing()), Local(0, StartCallback), Local(0, Poll(Copied)), Local(0, Queue), Local(0, PopJob), rest);
    var b := Step(Step(One(Issuing()), Local(0, StartCallback)), Local(0, Poll(Copied)));
    assert b.sources[0] == Issuing().(frame := 3, readback := None, phase := Queueing(FIRST_SHOT));
    var c := Step(b, Local(0, Queue));
    assert c.sources[0] == Issuing().(frame := 3, readback := None, job := Some(FIRST_SHOT), phase := Spent);
    assert Step(c, Local(0, PopJob)) == One(Encoding());
  }

  /** The picture is there. */
  function Pictured(): Source {
    Encoding().(worker := None, snapshot := Some(Snapshot(1, 0, false, true, false, Some(FIRST_SHOT))))
  }

  lemma PictureWaits()
    ensures Step(One(Encoding()), Local(0, Deliver(false))) == One(Pictured())
    ensures Step(One(Pictured()), Local(0, Flush(true))) == One(Pictured())
  {
    assert Fire(Encoding(), Deliver(false)) == Pictured() && Fire(Pictured(), Flush(true)) == Pictured();
    hide Fire;
  }

  /** The picture is encoded, no work is left, the caller's deadline has passed, and the capture stays open,
      waiting for a keyframe that nobody encodes. */
  lemma CompleteCaptureStaysOpen()
    ensures var h := Run(Initial(1), BEGIN_FIRST + (READ + (HAND_OVER + [Local(0, Deliver(false)),
                                                                         Local(0, Flush(true))])));
            && |h.sources| == 1 && h.sources[0].held && h.reserved && !Busy(h.sources[0])
            && h.sources[0].snapshot == Some(Snapshot(1, 0, false, true, false, Some(FIRST_SHOT)))
  {
    hide Step;
    var rest := [Local(0, Deliver(false)), Local(0, Flush(true))];
    ReachSkipped(READ + (HAND_OVER + rest));
    ReachIssuing(HAND_OVER + rest);
    ReachEncoding(rest);
    assert rest[1..] == [rest[1]] && rest[1..][1..] == [];
    PictureWaits();
    assert Run(One(Encoding()), rest) == Run(One(Pictured()), [rest[1]]) == Run(One(Pictured()), []);
  }

  // ----- the methods -----

  lemma AdmittedIs(s: Source, keyframe: bool)
    ensures var t, g := Admitted(s, keyframe), s.generation + 1;
            && t == s.(held := true, generation := g, skip := 1, keyframe := t.keyframe, keyPending := t.keyPending,
                       snapshot := Some(Snapshot(g, s.frame, false, false, false, None)))
            && t.keyframe == (if keyframe then g else 0) && t.keyPending == (if keyframe then g else s.keyPending)
  {
  }

  /** The one capture slot of the host. */
  class CaptureSlot {
    var captureReserved: bool

    constructor ()
      ensures !captureReserved
    {
      captureReserved := false;
    }

    method ReserveCapture() returns (ok: bool)
      modifies this
      ensures ok == !old(captureReserved) && captureReserved
    {
      ok := !captureReserved;
      captureReserved := true;
    }

    method ReleaseCapture()
      modifies this
      ensures !captureReserved
    {
      captureReserved := false;
    }
  }

  /** The capture fields of one source; `phase` is where its render thread is. */
  class SnapshotCapture {
    const slot: CaptureSlot
    var captureSlotHeld: bool
    var snapshot: Option<Snapshot>
    var snapshotGeneration: nat
    var captureKeyframeGeneration: nat
    var renderPassesToSkip: nat
    var renderFrameSequence: nat
    var pboAvailable: bool
    var phase: Phase
    var readback: Option<Shot>
    var encodeJob: Option<Shot>
    var worker: Option<Shot>
    var keyframePending: nat
    var keyframeApplied: nat
    var keyframeFailed: nat
    ghost var rearms: nat
    ghost var log: seq<Snapshot>

    ghost function View(): Source
      reads this
    {
      Source(false, captureSlotHeld, snapshot, snapshotGeneration, captureKeyframeGeneration, renderPassesToSkip,
             renderFrameSequence, pboAvailable, phase, readback, encodeJob, worker, keyframePending, keyframeApplied,
             keyframeFailed, rearms, log)
    }

    constructor (slot: CaptureSlot)
      ensures View() == NewSource() && this.slot == slot
    {
      this.slot := slot;
      captureSlotHeld, snapshot, snapshotGeneration, captureKeyframeGeneration := false, None, 0, 0;
      renderPassesToSkip, renderFrameSequence, pboAvailable, phase := 0, 0, true, Between;
      readback, encodeJob, worker := None, None, None;
      keyframePending, keyframeApplied, keyframeFailed, rearms, log := 0, 0, 0, 0, [];
    }

    method AdmitCapture(requestKeyframe: bool) returns (admitted: bool)
      modifies this, slot
      ensures admitted == !old(slot.captureReserved) && slot.captureReserved
      ensures View() == if admitted then Admitted(old(View()), requestKeyframe) else old(View())
    {
      hide Admitted;
      AdmittedIs(View(), requestKeyframe);
      admitted := slot.ReserveCapture();
      if !admitted { return; }
      snapshotGeneration, renderPassesToSkip := snapshotGeneration + 1, 1;
      snapshot := Some(Snapshot(snapshotGeneration, renderFrameSequence, false, false, false, None));
      captureKeyframeGeneration := if requestKeyframe then snapshotGeneration else 0;
      if captureKeyframeGeneration != 0 { keyframePending := captureKeyframeGeneration; }
      captureSlotHeld := true;
    }

    /** Answers the capture if it is complete, or late with no submitted work; only then the slot is released. */
    method FlushCapture(late: bool) returns (answer: Option<Snapshot>)
      requires captureSlotHeld && SourceInv(View())
      modifies this, slot
      ensures View() == Flushed(old(View()), late)
      ensures answer.Some? <==> !captureSlotHeld
      ensures slot.captureReserved == (old(slot.captureReserved) && answer.None?)
      ensures answer.Some? ==> log == old(log) + [answer.value]
    {
      answer := None;
      var c := snapshot.value;
      if c.completed {
        if captureKeyframeGeneration != 0 && keyframeApplied != captureKeyframeGeneration {
          if keyframeFailed != captureKeyframeGeneration { return; }
          c := c.(failed := true);
        }
      } else {
        if !late || c.submitted || readback.Some? { return; }
        c := c.(failed := true);
      }
      snapshot, renderPassesToSkip := None, 0;
      captureSlotHeld, log := false, log + [c];
      slot.ReleaseCapture();
      answer := Some(c);
    }

    /** The locked section at the start of a capture callback. */
    method BeginCapture()
      requires phase.Callback? && readback.None?
      modifies this
      ensures View() == Begun(old(View()))
    {
      if snapshot.None? || snapshot.value.completed || snapshot.value.submitted {
        phase := Spent;
      } else if renderPassesToSkip > 0 {
        renderPassesToSkip, phase := renderPassesToSkip - 1, Spent;
      } else {
        phase := Began(Shot(snapshot.value.generation, renderFrameSequence, 0));
      }
    }

    method CompleteSnapshotFailure()
      modifies this
      ensures View() == Failure(old(View()))
    {
      if snapshot.None? || snapshot.value.completed { return; }
      snapshot := Some(snapshot.value.(failed := true, completed := true));
    }

    method IssueSnapshotPBOReadback(ok: bool)
      requires phase.Began? && pboAvailable
      modifies this
      ensures View() == Issued(old(View()), ok)
    {
      var shot := phase.shot.(pixels := renderFrameSequence);
      if !ok {
        pboAvailable := false;
        return;
      }
      if snapshot.Some? && snapshot.value.generation == shot.generation && !snapshot.value.completed {
        snapshot := Some(snapshot.value.(submitted := true));
        readback := Some(shot);
      }
      phase := Spent;
    }

    method PollSnapshotPBOReadback(result: PollResult)
      requires readback.Some?
      modifies this
      ensures View() == Polled(old(View()), result)
    {
      var shot := readback.value;
      match result
      case Timeout => phase := Spent;
      case Copied => readback, phase := None, Queueing(shot);
      case PboFailure =>
        readback, phase := None, Spent;
        RearmSnapshotAfterPBOFailure(shot);
    }

    method RearmSnapshotAfterPBOFailure(shot: Shot)
      modifies this
      ensures var s := old(View()).(pbo := false, rearms := old(rearms) + 1);
              View() == if Current(s, shot) then Submitted(s, false).(skip := 0) else s
    {
      pboAvailable, rearms := false, rearms + 1;
      if snapshot.Some? && snapshot.value.generation == shot.generation && !snapshot.value.completed {
        snapshot, renderPassesToSkip := Some(snapshot.value.(submitted := false)), 0;
      }
    }

    /** The locked section behind a synchronous readback. */
    method SubmitCapture()
      requires phase.Read?
      modifies this
      ensures View() == SubmitStep(old(View()))
    {
      var shot := phase.shot;
      if snapshot.Some? && snapshot.value.generation == shot.generation && !snapshot.value.completed {
        snapshot, phase := Some(snapshot.value.(submitted := true)), Queueing(shot);
      } else {
        phase := Spent;
      }
    }

    method QueueSnapshotEncode() returns (ok: bool)
      requires phase.Queueing?
      modifies this
      ensures View() == Queued(old(View())) && ok == old(encodeJob).None?
    {
      ok := encodeJob.None?;
      if ok {
        encodeJob := Some(phase.shot);
      } else {
        CompleteSnapshotFailure();
      }
      phase := Spent;
    }

    /** The worker's result goes only to the capture it was made for. */
    method DeliverResult(failed: bool) returns (delivered: bool)
      requires worker.Some?
      modifies this
      ensures View() == Delivered(old(View()), failed) && delivered == Current(old(View()), old(worker).value)
    {
      var shot := worker.value;
      worker := None;
      delivered := snapshot.Some? && snapshot.value.generation == shot.generation && !snapshot.value.completed;
      if delivered {
        snapshot := Some(Snapshot(shot.generation, snapshot.value.admittedAt, false, true, failed, Some(shot)));
      }
    }
  }
}
