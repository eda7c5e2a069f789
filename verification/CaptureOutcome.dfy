/** How captures end, over what was seen of them: which ones asked for a keyframe, which keyframes came or were lost,
    for which captures a picture was delivered, and which ones a failure hit. */
module CaptureOutcome {
  import opened Wrappers
  import opened Capture

  /** What was seen of a source, by capture generations. */
  datatype Seen = Seen(
    wanted: set<nat>,          // asked for a keyframe
    open: nat,                 // whose keyframe neither came nor was lost; 0: none
    keyed: set<nat>,           // whose keyframe came
    lost: set<nat>,            // whose keyframe was lost
    pictured: set<nat>,        // the worker delivered a picture
    spoiled: set<nat>)         // the worker delivered a failure, or a render callback failed

  function Noted(s: Source, e: Event, x: Seen): Seen
    requires Enabled(s, e)
  {
    match e
    case Deliver(failed) =>
      if failed then x.(spoiled := x.spoiled + {s.worker.value.generation})
      else x.(pictured := x.pictured + {s.worker.value.generation})
    case KeyframeOut => if x.open == 0 then x else x.(keyed := x.keyed + {x.open}, open := 0)
    case KeyframeLost => if x.open == 0 then x else x.(lost := x.lost + {x.open}, open := 0)
    case GiveUp => Spoiled(s, x)
    case ReadPixels(ok) => if ok then x else Spoiled(s, x)
    case Queue => if s.job.Some? then Spoiled(s, x) else x
    case _ => x
  }

  /** The failure hits the capture that is there, unless it is complete. */
  function Spoiled(s: Source, x: Seen): Seen {
    if s.snapshot.Some? && !s.snapshot.value.completed then
      x.(spoiled := x.spoiled + {s.snapshot.value.generation})
    else x
  }

  function Wanted(s: Source, keyframe: bool, x: Seen): Seen {
    if keyframe then x.(wanted := x.wanted + {s.generation + 1}, open := s.generation + 1) else x
  }

  datatype Watched = Watched(host: Host, seen: seq<Seen>)

  function Watch(w: Watched, e: HostEvent): Watched {
    var h := Step(w.host, e);
    if e.i >= |w.seen| || e.i >= |w.host.sources| || w.host.sources[e.i].removed then w.(host := h)
    else
      var s, x := w.host.sources[e.i], w.seen[e.i];
      var y := match e
               case Admit(_, keyframe) => if w.host.reserved then x else Wanted(s, keyframe, x)
               case Local(_, event) => if Enabled(s, event) then Noted(s, event, x) else x
               case Remove(_) => x;
      Watched(h, w.seen[e.i := y])
  }

  function WatchRun(w: Watched, events: seq<HostEvent>): Watched
    decreases |events|
  {
    if events == [] then w else WatchRun(Watch(w, events[0]), events[1..])
  }

  const NOTHING := Seen({}, 0, {}, {}, {}, {})

  function InitialWatch(n: nat): Watched { Watched(Initial(n), seq(n, _ => NOTHING)) }

  // ----- the invariant -----

  predicate Bounded(s: Source, x: Seen) {
    && (forall g :: g in x.wanted ==> 1 <= g <= s.generation)
    && (forall g :: g in x.keyed ==> 1 <= g <= s.generation)
    && (forall g :: g in x.lost ==> 1 <= g <= s.generation)
    && (forall g :: g in x.pictured ==> 1 <= g <= s.generation)
    && (forall g :: g in x.spoiled ==> 1 <= g <= s.generation)
    && x.open <= s.generation && (x.open != 0 ==> x.open in x.wanted)
    && (x.open != 0 ==> forall g :: g in x.keyed ==> g < x.open)
    && (x.open != 0 ==> forall g :: g in x.lost ==> g < x.open)
  }

  /** The fields remember the last keyframe that came, and the last that was lost. */
  predicate KeysOk(s: Source, x: Seen) {
    && s.keyPending == x.open
    && (forall g :: g in x.keyed ==> g <= s.keyApplied) && (s.keyApplied != 0 ==> s.keyApplied in x.keyed)
    && (forall g :: g in x.lost ==> g <= s.keyFailed) && (s.keyFailed != 0 ==> s.keyFailed in x.lost)
  }

  /** The open capture is complete exactly if it got a picture or was hit by a failure. */
  predicate OpenOk(s: Source, x: Seen) {
    s.snapshot.Some? ==>
      var c := s.snapshot.value;
      && c.generation == s.generation
      && (c.completed <==> c.generation in x.pictured || c.generation in x.spoiled)
      && (c.completed ==> (c.failed <==> c.generation !in x.pictured))
      && s.keyframe == (if c.generation in x.wanted then c.generation else 0)
  }

  predicate Success(x: Seen, g: nat) { g in x.pictured && (g in x.wanted ==> g in x.keyed) }

  predicate AnswerOk(s: Source, x: Seen, k: nat)
    requires k < |s.log|
  {
    && (!s.log[k].failed <==> Success(x, k + 1))
    && (k + 1 in x.pictured && k + 1 in x.wanted ==> k + 1 in x.keyed || k + 1 in x.lost)
  }

  predicate SeenOk(s: Source, x: Seen) {
    && Bounded(s, x) && KeysOk(s, x) && OpenOk(s, x)
    && forall k: nat {:trigger AnswerOk(s, x, k)} :: k < |s.log| ==> AnswerOk(s, x, k)
  }

  /** Steps that nothing is seen of. */
  predicate SameSight(s: Source, t: Source) {
    && t.generation == s.generation && t.keyframe == s.keyframe && t.keyPending == s.keyPending
    && t.keyApplied == s.keyApplied && t.keyFailed == s.keyFailed && t.log == s.log
    && (t.snapshot.Some? <==> s.snapshot.Some?)
    && (s.snapshot.Some? ==>
          t.snapshot.value.generation == s.snapshot.value.generation
          && t.snapshot.value.completed == s.snapshot.value.completed
          && t.snapshot.value.failed == s.snapshot.value.failed)
  }

  lemma SameSightKeeps(s: Source, t: Source, x: Seen)
    requires SeenOk(s, x) && SameSight(s, t)
    ensures SeenOk(t, x)
  {
    forall k: nat | k < |t.log| ensures AnswerOk(t, x, k) { assert AnswerOk(s, x, k); }
  }

  predicate Quiet(e: Event) {
    e.StartCallback? || e.EndCallback? || e.Poll? || e.Begin? || e.Issue? || e.Submit? || e.PopJob?
  }

  lemma PollIsSame(s: Source, result: PollResult)
    requires s.readback.Some?
    ensures SameSight(s, Polled(s, result))
  {
  }

  lemma ReadIsSame(s: Source, e: Event)
    requires Enabled(s, e) && (e.Issue? || e.Submit? || (e.Queue? && s.job.None?) || e == ReadPixels(true))
    ensures SameSight(s, Fire(s, e))
  {
    hide Flushed, Failure, Delivered, Polled, Begun;
  }

  lemma QuietIsSame(s: Source, e: Event)
    requires Enabled(s, e) && (Quiet(e) || (e.Queue? && s.job.None?) || e == ReadPixels(true))
    ensures SameSight(s, Fire(s, e))
  {
    hide Flushed, Failure, Delivered, Polled, Issued, PixelsRead, SubmitStep, Queued;
    match e
    case Poll(result) => PollIsSame(s, result);
    case StartCallback =>
    case EndCallback =>
    case Begin =>
    case PopJob =>
    case _ => ReadIsSame(s, e);
  }

  lemma FailureIsSeen(s: Source, x: Seen, t: Source)
    requires SourceInv(s) && SeenOk(s, x) && t == Failure(s).(phase := t.phase)
    ensures SeenOk(t, Spoiled(s, x))
  {
    hide WorkOk, PhaseOk;
    var y := Spoiled(s, x);
    forall k: nat | k < |t.log| ensures AnswerOk(t, y, k) { assert AnswerOk(s, x, k); }
  }

  lemma DeliveryMeets(s: Source)
    requires SourceInv(s) && s.worker.Some?
    ensures Current(s, s.worker.value) && !s.snapshot.value.completed
    ensures s.worker.value.generation == s.generation && |s.log| + 1 == s.generation
  {
    assert s.worker.value in Work(s);
  }

  lemma DeliveryIsSeen(s: Source, x: Seen, failed: bool)
    requires SourceInv(s) && SeenOk(s, x) && s.worker.Some? && !s.removed
    ensures SeenOk(Delivered(s, failed), Noted(s, Deliver(failed), x))
  {
    DeliveryMeets(s);
    hide SourceInv;
    var t, y := Delivered(s, failed), Noted(s, Deliver(failed), x);
    forall k: nat | k < |t.log| ensures AnswerOk(t, y, k) { assert AnswerOk(s, x, k); }
  }

  lemma KeyIsSeen(s: Source, x: Seen, e: Event)
    requires SeenOk(s, x) && Enabled(s, e) && (e.KeyframeOut? || e.KeyframeLost?)
    ensures SeenOk(Fire(s, e), Noted(s, e, x))
  {
    var t, y := Fire(s, e), Noted(s, e, x);
    forall k: nat | k < |t.log| ensures AnswerOk(t, y, k) { assert AnswerOk(s, x, k); }
  }

  lemma FireIsSeen(s: Source, x: Seen, e: Event)
    requires SourceInv(s) && SeenOk(s, x) && Enabled(s, e)
    ensures SeenOk(Fire(s, e), Noted(s, e, x))
  {
    hide SourceInv, SeenOk, Delivered, Flushed, Failure, Spoiled, SameSight;
    match e
    case Deliver(failed) => DeliveryIsSeen(s, x, failed);
    case Flush(late) => FlushIsSeen(s, x, late);
    case KeyframeOut => KeyIsSeen(s, x, e);
    case KeyframeLost => KeyIsSeen(s, x, e);
    case GiveUp => FailureIsSeen(s, x, Fire(s, e));
    case ReadPixels(ok) =>
      if ok {
        QuietIsSame(s, e);
        SameSightKeeps(s, Fire(s, e), x);
      } else {
        FailureIsSeen(s, x, Fire(s, e));
      }
    case Queue =>
      if s.job.Some? {
        FailureIsSeen(s, x, Fire(s, e));
      } else {
        QuietIsSame(s, e);
        SameSightKeeps(s, Fire(s, e), x);
      }
    case _ =>
      QuietIsSame(s, e);
      SameSightKeeps(s, Fire(s, e), x);
  }

  /** Whether the keyframe of the last admitted capture came, and whether it was lost, can be read off the fields. */
  lemma KeyFields(s: Source, x: Seen)
    requires Bounded(s, x) && KeysOk(s, x) && s.generation >= 1
    ensures s.keyApplied == s.generation <==> s.generation in x.keyed
    ensures s.keyFailed == s.generation <==> s.generation in x.lost
  {
  }

  lemma FlushIsSeen(s: Source, x: Seen, late: bool)
    requires SourceInv(s) && SeenOk(s, x)
    ensures SeenOk(Flushed(s, late), x)
  {
    var t := Flushed(s, late);
    if s.held {
      OpenIsNext(s);
      KeyFields(s, x);
    }
    hide SourceInv;
    forall k: nat | k < |t.log|
      ensures AnswerOk(t, x, k)
    {
      assert k < |s.log| ==> AnswerOk(s, x, k);
    }
  }

  lemma OpenIsNext(s: Source)
    requires SourceInv(s) && s.held
    ensures s.snapshot.Some? && s.generation == |s.log| + 1 && s.snapshot.value.generation == s.generation
  {
    hide WorkOk, PhaseOk;
  }

  lemma AdmissionIsSeen(s: Source, x: Seen, keyframe: bool)
    requires SourceInv(s) && SeenOk(s, x) && !s.held
    ensures SeenOk(Admitted(s, keyframe), Wanted(s, keyframe, x))
  {
    hide WorkOk, PhaseOk, SnapshotOk;
    var t, y := Admitted(s, keyframe), Wanted(s, keyframe, x);
    forall k: nat | k < |t.log| ensures AnswerOk(t, y, k) { assert AnswerOk(s, x, k); }
  }

  lemma RemovalIsSeen(s: Source, x: Seen)
    requires SeenOk(s, x)
    ensures SeenOk(Removed(s), x)
  {
    forall k: nat | k < |s.log| ensures AnswerOk(Removed(s), x, k) { assert AnswerOk(s, x, k); }
  }

  predicate AllSeen(w: Watched) {
    && |w.seen| == |w.host.sources|
    && forall i {:trigger w.seen[i]} :: 0 <= i < |w.seen| ==> SeenOk(w.host.sources[i], w.seen[i])
  }

  lemma OneMoves(w: Watched, i: nat, t: Source, y: Seen, h: Host)
    requires AllSeen(w) && i < |w.seen| && SeenOk(t, y) && h.sources == w.host.sources[i := t]
    ensures AllSeen(Watched(h, w.seen[i := y]))
  {
    hide SeenOk;
  }

  lemma WatchKeepsSeen(w: Watched, e: HostEvent)
    requires HostInv(w.host) && AllSeen(w)
    ensures Watch(w, e).host == Step(w.host, e) && AllSeen(Watch(w, e))
  {
    hide SlotOk, SourceInv, SeenOk, Admitted, Fire, Removed, Noted, Wanted, Enabled;
    if e.i < |w.seen| && !w.host.sources[e.i].removed {
      var s, x := w.host.sources[e.i], w.seen[e.i];
      match e
      case Admit(i, keyframe) =>
        if !w.host.reserved {
          FreeSource(w.host, i);
          AdmissionIsSeen(s, x, keyframe);
          OneMoves(w, i, Admitted(s, keyframe), Wanted(s, keyframe, x), Step(w.host, e));
        } else {
          OneMoves(w, i, s, x, w.host);
        }
      case Local(i, event) =>
        if Enabled(s, event) {
          FireIsSeen(s, x, event);
          OneMoves(w, i, Fire(s, event), Noted(s, event, x), Step(w.host, e));
        } else {
          OneMoves(w, i, s, x, w.host);
        }
      case Remove(i) =>
        if s.phase.Between? {
          RemovalIsSeen(s, x);
          OneMoves(w, i, Removed(s), x, Step(w.host, e));
        } else {
          OneMoves(w, i, s, x, w.host);
        }
    }
  }

  lemma {:induction false} RunIsSeen(w: Watched, events: seq<HostEvent>)
    requires HostInv(w.host) && AllSeen(w)
    ensures var u := WatchRun(w, events); u.host == Run(w.host, events) && HostInv(u.host) && AllSeen(u)
    decreases |events|
  {
    hide HostInv, AllSeen, Watch, Step;
    if events != [] {
      WatchKeepsSeen(w, events[0]);
      HostStepKeepsInv(w.host, events[0]);
      RunIsSeen(Watch(w, events[0]), events[1..]);
    }
  }

  lemma InitialSeen(n: nat)
    ensures AllSeen(InitialWatch(n))
  {
  }

  // ----- which captures succeed -----

  /** In every run: an answer is a success exactly if the worker delivered a picture for that capture and the
      keyframe it asked for, if it did, came. */
  lemma AnswersExactly(n: nat, events: seq<HostEvent>, i: nat, k: nat)
    requires i < |Run(Initial(n), events).sources| && k < |Run(Initial(n), events).sources[i].log|
    ensures var w := WatchRun(InitialWatch(n), events);
            && w.host == Run(Initial(n), events) && i < |w.seen|
            && (!w.host.sources[i].log[k].failed <==>
                  k + 1 in w.seen[i].pictured && (k + 1 in w.seen[i].wanted ==> k + 1 in w.seen[i].keyed))
  {
    InitialInv(n);
    InitialSeen(n);
    RunIsSeen(InitialWatch(n), events);
    var w := WatchRun(InitialWatch(n), events);
    hide Run, WatchRun, HostInv, Bounded, KeysOk, OpenOk;
    assert SeenOk(w.host.sources[i], w.seen[i]) && AnswerOk(w.host.sources[i], w.seen[i], k);
  }

  /** The open capture has a picture or a failure, and the keyframe it asked for, if it did, came or was lost. */
  predicate Decided(x: Seen, g: nat) {
    (g in x.pictured || g in x.spoiled) && (g in x.wanted ==> g in x.keyed || g in x.lost)
  }

  /** The answer is added to the earlier ones. */
  predicate Answers(s: Source, t: Source) {
    && t.snapshot.None? && |t.log| == |s.log| + 1 && t.log[..|s.log|] == s.log
    && t.log[|s.log|].generation == |s.log| + 1
  }

  /** In every run, a flush answers the open capture exactly if it is decided, or if the caller is late, it has neither
      picture nor failure, and none of its work is under way; and as a success exactly in the first case with picture
      and keyframe. */
  lemma FlushAnswersExactly(n: nat, events: seq<HostEvent>, i: nat, late: bool)
    requires var h := Run(Initial(n), events); i < |h.sources| && h.sources[i].held
    ensures var w := WatchRun(InitialWatch(n), events);
            && w.host == Run(Initial(n), events) && i < |w.seen|
            && var s, x := w.host.sources[i], w.seen[i];
               var t, g := Flushed(s, late), |s.log| + 1;
               && (!t.held <==> Decided(x, g) || (late && g !in x.pictured && g !in x.spoiled && !Busy(s)))
               && (!t.held ==> Answers(s, t))
               && (t.held ==> t == s)
               && (!t.held ==> (!t.log[g - 1].failed <==> Success(x, g)))
  {
    InitialInv(n);
    InitialSeen(n);
    RunIsSeen(InitialWatch(n), events);
    var w := WatchRun(InitialWatch(n), events);
    hide Run, WatchRun, SeenOk, SourceInv;
    assert SeenOk(w.host.sources[i], w.seen[i]);
    FlushIsExact(w.host.sources[i], w.seen[i], late);
  }

  lemma FlushIsExact(s: Source, x: Seen, late: bool)
    requires SourceInv(s) && SeenOk(s, x) && s.held
    ensures var t, g := Flushed(s, late), |s.log| + 1;
            && (!t.held <==> Decided(x, g) || (late && g !in x.pictured && g !in x.spoiled && !Busy(s)))
            && (!t.held ==> Answers(s, t))
            && (t.held ==> t == s)
            && (!t.held ==> (!t.log[g - 1].failed <==> Success(x, g)))
  {
    OpenIsNext(s);
    KeyFields(s, x);
    BusyIsSubmitted(s);
    hide SourceInv, Busy;
  }

  lemma BusyIsSubmitted(s: Source)
    requires SourceInv(s) && s.held
    ensures Busy(s) <==> s.snapshot.value.submitted && !s.snapshot.value.completed
    ensures s.readback.Some? ==> Busy(s)
  {
  }
}
