/** The captures of one source and the encoder session together: what the keyframe of a capture is. A capture that
    asks for one is a request whose number is the capture's generation. */
module CaptureKeyframe {
  import opened Wrappers
  import P = Capture
  import Enc = EncoderSession
  import T = TaggedEncoder

  datatype State = State(
    source: P.Source,
    encoder: T.Tagged,
    wanted: set<nat>)          // captures that asked for a keyframe

  datatype Event =
    | Admit(keyframe: bool)
    | Local(e: P.Event)        // whatever happens to the source but keyframes
    | Render(r: Enc.Render, key: bool, sent: bool)   // an encoded frame; is its output a keyframe, was it handed on?
    | Ask                      // any thread asks for a keyframe
    | Release                  // encoder resources

  function Admitted(s: State, keyframe: bool): State {
    var t := s.(source := P.Admitted(s.source, keyframe));
    if keyframe then
      t.(encoder := T.Asked(s.encoder, t.source.generation, true), wanted := s.wanted + {t.source.generation})
    else t
  }

  /** The frame with its tags, and the request it may answer. */
  function Framed(s: State, r: Enc.Render, key: bool): State
    requires s.encoder.enc.rate.Clamped() && !s.source.removed
  {
    var a := s.source.keyPending;
    s.(encoder := T.Rendered(s.encoder, r, key, a),
       source := if T.Answers(s.encoder, r, key, a) then P.Fire(s.source, P.KeyframeOut) else s.source)
  }

  /** A frame that is not encoded loses the keyframe that is asked for. */
  function Ended(s: State, encoded: bool): State {
    if encoded || s.source.removed then s else s.(source := P.Fire(s.source, P.KeyframeLost))
  }

  function Step(s: State, e: Event): State
    requires s.encoder.enc.rate.Clamped()
  {
    match e
    case Admit(keyframe) => if s.source.removed || s.source.held then s else Admitted(s, keyframe)
    case Local(event) =>
      if P.Enabled(s.source, event) && !event.KeyframeOut? && !event.KeyframeLost? then
        s.(source := P.Fire(s.source, event))
      else s
    case Render(r, key, sent) =>
      if s.source.removed || !T.RightlyForced(s.encoder, r) then s
      else Ended(Framed(s, r, key), T.Succeeds(s.encoder, r, sent))
    case Ask => s.(encoder := T.AskedFor(s.encoder))
    case Release => s.(encoder := T.Released(s.encoder))
  }

  lemma StepKeepsRate(s: State, e: Event)
    requires s.encoder.enc.rate.Clamped()
    ensures Step(s, e).encoder.enc.rate == s.encoder.enc.rate
  {
    hide P.Fire, P.Enabled, P.Admitted, T.Rendered, T.Answers, T.Succeeds, T.RightlyForced;
    match e
    case Render(r, key, _) =>
      if !s.source.removed { T.RenderedRate(s.encoder, r, key, s.source.keyPending); }
    case _ =>
  }

  function Run(s: State, events: seq<Event>): State
    requires s.encoder.enc.rate.Clamped()
    decreases |events|
  {
    if events == [] then s
    else
      StepKeepsRate(s, events[0]);
      Run(Step(s, events[0]), events[1..])
  }

  function Initial(rate: Enc.Rate): State { State(P.NewSource(), T.Initial(rate), {}) }

  // ----- the invariant -----

  /** The keyframe that is asked for was made a request, and the one that came was an answer. */
  predicate KeysOk(s: State) {
    && (s.source.keyPending != 0 ==> T.Made(s.encoder, s.source.keyPending))
    && (s.source.keyApplied != 0 ==> s.source.keyApplied in s.encoder.acks)
    && (forall g :: g in s.encoder.taken ==> g <= s.source.generation)
    && (forall g :: g in s.wanted ==> g in s.encoder.urgent)
  }

  predicate WantedOk(s: State) {
    && (forall g :: g in s.wanted ==> g <= s.source.generation)
    && (s.source.held ==>
          s.source.keyframe == if s.source.generation in s.wanted then s.source.generation else 0)
  }

  /** A successful capture that asked for a keyframe got one. */
  predicate ServedOk(s: State, k: nat)
    requires k < |s.source.log|
  {
    s.source.log[k].generation in s.wanted && !s.source.log[k].failed ==> s.source.log[k].generation in s.encoder.acks
  }

  predicate AllServed(s: State) { forall k: nat {:trigger ServedOk(s, k)} :: k < |s.source.log| ==> ServedOk(s, k) }

  predicate Inv(s: State) {
    P.SourceInv(s.source) && T.Inv(s.encoder) && KeysOk(s) && WantedOk(s) && AllServed(s)
  }

  /** The fields that keyframes depend on. */
  predicate SameKeys(s: P.Source, t: P.Source) {
    && t.keyPending == s.keyPending && t.keyApplied == s.keyApplied && t.keyframe == s.keyframe
    && t.generation == s.generation && t.held == s.held && t.log == s.log
  }

  lemma FailureKeepsKeys(s: P.Source)
    ensures SameKeys(s, P.Failure(s))
  {
  }

  /** What render thread and worker do besides leaves the keyframes alone. */
  lemma LocalKeepsKeys(s: P.Source, e: P.Event)
    requires P.Enabled(s, e) && !e.KeyframeOut? && !e.KeyframeLost? && !e.Flush?
    ensures SameKeys(s, P.Fire(s, e))
  {
    hide P.Failure;
    FailureKeepsKeys(s);
  }

  lemma FlushShape(s: P.Source, late: bool)
    ensures var t := P.Flushed(s, late);
            && t.keyPending == s.keyPending && t.keyApplied == s.keyApplied && t.keyframe == s.keyframe
            && t.generation == s.generation
            && ((t.held == s.held && t.log == s.log)
                || (s.held && !t.held && s.snapshot.Some? && |t.log| == |s.log| + 1
                    && t.log == s.log + [t.log[|s.log|]]
                    && t.log[|s.log|].generation == s.snapshot.value.generation
                    && (!t.log[|s.log|].failed ==> s.keyframe == 0 || s.keyApplied == s.keyframe)))
  {
  }

  /** The log's entries are of earlier captures, and an open one is the last admitted. */
  lemma Generations(s: P.Source)
    requires P.SourceInv(s)
    ensures s.held ==> s.snapshot.Some? && s.snapshot.value.generation == s.generation >= 1
    ensures forall k :: 0 <= k < |s.log| ==> s.log[k].generation <= s.generation
  {
    hide P.WorkOk, P.PhaseOk;
  }

  // ----- every step keeps it -----

  lemma SameKeysKeepInv(s: State, t: P.Source)
    requires Inv(s) && P.SourceInv(t) && SameKeys(s.source, t)
    ensures Inv(s.(source := t))
  {
    hide P.SourceInv, T.Inv;
    var u := s.(source := t);
    forall k: nat | k < |t.log| ensures ServedOk(u, k) { assert ServedOk(s, k); }
  }

  lemma FlushKeepsServed(s: State, late: bool)
    requires P.SourceInv(s.source) && KeysOk(s) && WantedOk(s) && AllServed(s)
    ensures var t := s.(source := P.Flushed(s.source, late)); KeysOk(t) && WantedOk(t) && AllServed(t)
  {
    hide P.SourceInv, P.Flushed;
    Generations(s.source);
    FlushShape(s.source, late);
    var t := s.(source := P.Flushed(s.source, late));
    forall k: nat | k < |t.source.log| ensures ServedOk(t, k) { assert k < |s.source.log| ==> ServedOk(s, k); }
  }

  lemma LocalKeepsInv(s: State, e: P.Event)
    requires Inv(s) && P.Enabled(s.source, e) && !e.KeyframeOut? && !e.KeyframeLost?
    ensures Inv(s.(source := P.Fire(s.source, e)))
  {
    hide P.SourceInv, P.Fire, P.Enabled, T.Inv, KeysOk, WantedOk, AllServed;
    P.FireKeepsInv(s.source, e);
    if e.Flush? {
      FlushIs(s.source, e.late);
      FlushKeepsServed(s, e.late);
    } else {
      LocalKeepsKeys(s.source, e);
      SameKeysKeepInv(s, P.Fire(s.source, e));
    }
  }

  lemma FlushIs(s: P.Source, late: bool)
    requires P.Enabled(s, P.Flush(late))
    ensures P.Fire(s, P.Flush(late)) == P.Flushed(s, late)
  {
    hide P.Flushed;
  }

  lemma AdmitKeepsInv(s: State, keyframe: bool)
    requires Inv(s) && !s.source.held && !s.source.removed
    ensures Inv(Admitted(s, keyframe))
  {
    hide P.SourceInv, P.Admitted, T.Inv;
    P.AdmitKeepsInv(s.source, keyframe);
    P.AdmittedIs(s.source, keyframe);
    Generations(s.source);
    var t := Admitted(s, keyframe);
    if keyframe { T.AskKeepsInv(s.encoder, t.source.generation, true); }
    forall k: nat | k < |t.source.log| ensures ServedOk(t, k) { assert ServedOk(s, k); }
  }

  /** The encoder moves on, and no request is forgotten. */
  lemma EncoderKeepsInv(s: State, u: T.Tagged)
    requires Inv(s) && T.Inv(u) && u.taken == s.encoder.taken && |s.encoder.enc.inputs| <= |u.enc.inputs|
    requires (forall a :: a in s.encoder.acks ==> a in u.acks) && u.urgent == s.encoder.urgent
    ensures Inv(s.(encoder := u))
  {
    hide P.SourceInv, T.Inv;
    var t := s.(encoder := u);
    forall k: nat | k < |t.source.log| ensures ServedOk(t, k) { assert ServedOk(s, k); }
  }

  lemma ReleaseKeepsInv(s: State)
    requires Inv(s)
    ensures Inv(s.(encoder := T.Released(s.encoder)))
  {
    hide P.SourceInv, T.Inv, T.Released, KeysOk, WantedOk, AllServed;
    T.ReleaseKeepsInv(s.encoder);
    T.ReleaseShape(s.encoder);
    EncoderKeepsInv(s, T.Released(s.encoder));
  }

  lemma AskKeepsInv(s: State)
    requires Inv(s)
    ensures Inv(s.(encoder := T.AskedFor(s.encoder)))
  {
    hide P.SourceInv, T.Inv, KeysOk, WantedOk, AllServed;
    T.AskForKeepsInv(s.encoder);
    EncoderKeepsInv(s, T.AskedFor(s.encoder));
  }

  lemma KeyShape(s: P.Source, e: P.Event)
    requires P.Enabled(s, e) && (e.KeyframeOut? || e.KeyframeLost?)
    ensures var t := P.Fire(s, e);
            && t.keyPending == 0 && t.keyframe == s.keyframe && t.generation == s.generation && t.held == s.held
            && t.log == s.log
            && t.keyApplied == (if e.KeyframeOut? && s.keyPending != 0 then s.keyPending else s.keyApplied)
  {
  }

  lemma KeyKeepsInv(s: State, e: P.Event)
    requires Inv(s) && P.Enabled(s.source, e) && (e.KeyframeOut? || e.KeyframeLost?)
    requires e.KeyframeOut? && s.source.keyPending != 0 ==> s.source.keyPending in s.encoder.acks
    ensures Inv(s.(source := P.Fire(s.source, e)))
  {
    hide P.SourceInv, P.Fire, P.Enabled, T.Inv;
    P.FireKeepsInv(s.source, e);
    KeyShape(s.source, e);
    var t := s.(source := P.Fire(s.source, e));
    forall k: nat | k < |t.source.log| ensures ServedOk(t, k) { assert ServedOk(s, k); }
  }

  lemma FrameKeepsInv(s: State, r: Enc.Render, key: bool)
    requires Inv(s) && s.encoder.enc.rate.Clamped() && !s.source.removed && T.RightlyForced(s.encoder, r)
    ensures Inv(Framed(s, r, key)) && !Framed(s, r, key).source.removed
  {
    hide P.SourceInv, P.Fire, T.Inv, WantedOk, AllServed, T.Rendered, T.Answers, Enc.Encode, Enc.Accepts;
    hide T.RightlyForced;
    var a := s.source.keyPending;
    T.LengthsByInv(s.encoder);
    T.RenderKeepsInv(s.encoder, r, key, a);
    T.RenderShape(s.encoder, r, key, a);
    var t := s.(encoder := T.Rendered(s.encoder, r, key, a));
    EncoderKeepsInv(s, t.encoder);
    StaysHere(s.source, P.KeyframeOut);
    if T.Answers(s.encoder, r, key, a) { KeyKeepsInv(t, P.KeyframeOut); }
  }

  lemma StaysHere(s: P.Source, e: P.Event)
    requires !s.removed && (e.KeyframeOut? || e.KeyframeLost?)
    ensures P.Enabled(s, e) && !P.Fire(s, e).removed
  {
  }

  lemma StepKeepsInv(s: State, e: Event)
    requires Inv(s) && s.encoder.enc.rate.Clamped()
    ensures Inv(Step(s, e))
  {
    hide Inv, Admitted, Framed, P.Fire, P.Enabled, T.Succeeds, T.RightlyForced;
    match e
    case Admit(keyframe) => if !s.source.removed && !s.source.held { AdmitKeepsInv(s, keyframe); }
    case Local(event) =>
      if P.Enabled(s.source, event) && !event.KeyframeOut? && !event.KeyframeLost? { LocalKeepsInv(s, event); }
    case Render(r, key, _) =>
      if !s.source.removed && T.RightlyForced(s.encoder, r) {
        FrameKeepsInv(s, r, key);
        StaysHere(Framed(s, r, key).source, P.KeyframeLost);
        KeyKeepsInv(Framed(s, r, key), P.KeyframeLost);
      }
    case Ask => AskKeepsInv(s);
    case Release => ReleaseKeepsInv(s);
  }

  lemma InitialInv(rate: Enc.Rate)
    requires rate.Clamped()
    ensures Inv(Initial(rate))
  {
    hide T.Inv;
    T.InitialInv(rate);
    NewSourceInv();
  }

  lemma NewSourceInv()
    ensures P.SourceInv(P.NewSource())
  {
  }

  lemma {:induction false} RunKeepsInv(s: State, events: seq<Event>)
    requires Inv(s) && s.encoder.enc.rate.Clamped()
    ensures Inv(Run(s, events))
    decreases |events|
  {
    hide Inv, Step;
    if events != [] {
      StepKeepsRate(s, events[0]);
      StepKeepsInv(s, events[0]);
      RunKeepsInv(Step(s, events[0]), events[1..]);
    }
  }

  // ----- a keyframe that is still asked for -----

  /** The keyframe that is asked for has not come. */
  predicate OpenOk(s: State) {
    s.source.keyPending != 0 ==> T.Unanswered(s.encoder, s.source.keyPending)
  }

  lemma LocalKeepsPending(s: State, e: P.Event)
    requires P.Enabled(s.source, e) && !e.KeyframeOut? && !e.KeyframeLost?
    ensures P.Fire(s.source, e).keyPending == s.source.keyPending
  {
    hide P.Fire, P.Enabled;
    if e.Flush? {
      FlushIs(s.source, e.late);
      FlushShape(s.source, e.late);
    } else {
      LocalKeepsKeys(s.source, e);
    }
  }

  lemma AdmitKeepsOpen(s: State, keyframe: bool)
    requires Inv(s) && OpenOk(s)
    ensures OpenOk(Admitted(s, keyframe))
  {
    hide P.SourceInv, P.Admitted, T.Inv, T.Unanswered;
    P.AdmittedIs(s.source, keyframe);
    if keyframe { T.AskKeepsInv(s.encoder, s.source.generation + 1, true); }
  }

  lemma RenderKeepsOpen(s: State, r: Enc.Render, key: bool, sent: bool)
    requires Inv(s) && OpenOk(s) && s.encoder.enc.rate.Clamped() && !s.source.removed
    ensures OpenOk(Ended(Framed(s, r, key), T.Succeeds(s.encoder, r, sent)))
  {
    hide P.SourceInv, P.Fire, T.Inv, T.Unanswered, T.Rendered, T.Answers, T.Succeeds;
    var a := s.source.keyPending;
    StaysHere(s.source, P.KeyframeOut);
    KeyShape(s.source, P.KeyframeOut);
    var t := Framed(s, r, key);
    StaysHere(t.source, P.KeyframeLost);
    KeyShape(t.source, P.KeyframeLost);
    if a != 0 && !T.Answers(s.encoder, r, key, a) { T.StaysUnanswered(s.encoder, r, key, a); }
  }

  lemma StepKeepsOpen(s: State, e: Event)
    requires Inv(s) && OpenOk(s) && s.encoder.enc.rate.Clamped()
    ensures OpenOk(Step(s, e))
  {
    hide Inv, Admitted, Framed, Ended, P.Fire, P.Enabled, T.Succeeds, T.RightlyForced, T.Unanswered, T.Released;
    match e
    case Admit(keyframe) => if !s.source.removed && !s.source.held { AdmitKeepsOpen(s, keyframe); }
    case Local(event) =>
      if P.Enabled(s.source, event) && !event.KeyframeOut? && !event.KeyframeLost? { LocalKeepsPending(s, event); }
    case Render(r, key, sent) =>
      if !s.source.removed && T.RightlyForced(s.encoder, r) { RenderKeepsOpen(s, r, key, sent); }
    case Ask =>
      if s.source.keyPending != 0 { T.SameUnanswered(s.encoder, T.AskedFor(s.encoder), s.source.keyPending); }
    case Release =>
      T.ReleaseShape(s.encoder);
      if s.source.keyPending != 0 { T.SameUnanswered(s.encoder, T.Released(s.encoder), s.source.keyPending); }
  }

  lemma {:induction false} RunKeepsOpen(s: State, events: seq<Event>)
    requires Inv(s) && OpenOk(s) && s.encoder.enc.rate.Clamped()
    ensures Inv(Run(s, events)) && OpenOk(Run(s, events))
    decreases |events|
  {
    hide Inv, OpenOk, Step;
    if events != [] {
      StepKeepsRate(s, events[0]);
      StepKeepsInv(s, events[0]);
      StepKeepsOpen(s, events[0]);
      RunKeepsOpen(Step(s, events[0]), events[1..]);
    }
  }

  /** In every run, the first input behind the admission of a capture that asks for a keyframe is forced; and while that
      keyframe is still asked for, every input forced since carries the capture's number, and no keyframe has come out
      with one of them. */
  lemma WantedKeyframeIsForced(rate: Enc.Rate, events: seq<Event>, g: nat)
    requires rate.Clamped() && g in Run(Initial(rate), events).wanted
    ensures var s := Run(Initial(rate), events);
            && g in s.encoder.taken && |s.encoder.forced| == |s.encoder.enc.inputs|
            && (s.encoder.taken[g] < |s.encoder.forced| ==> s.encoder.forced[s.encoder.taken[g]])
            && (s.source.keyPending == g && g != 0 ==> T.Unanswered(s.encoder, g))
  {
    hide Run, P.SourceInv, T.Inv, T.Unanswered, WantedOk, AllServed;
    InitialInv(rate);
    RunKeepsOpen(Initial(rate), events);
    T.UrgentIsForced(Run(Initial(rate), events).encoder, g);
  }

  /** In every run, a capture that asked for a keyframe and was answered as a success has a keyframe output, paired
      with an input that was submitted, and forced, after the capture was admitted. */
  lemma CapturedKeyframeIsReal(rate: Enc.Rate, events: seq<Event>, k: nat) returns (o: nat)
    requires rate.Clamped()
    requires var s := Run(Initial(rate), events);
             && k < |s.source.log| && !s.source.log[k].failed && s.source.log[k].generation in s.wanted
    ensures var s := Run(Initial(rate), events);
            T.IsAnswer(s.encoder, o, s.source.log[k].generation)
  {
    hide Run, P.SourceInv, T.Inv, T.IsAnswer, KeysOk, WantedOk;
    InitialInv(rate);
    RunKeepsInv(Initial(rate), events);
    var s := Run(Initial(rate), events);
    assert ServedOk(s, k);
    o := T.AcknowledgedIsAnswered(s.encoder, s.source.log[k].generation);
  }
}
