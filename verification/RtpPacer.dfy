/** The RTP branch as a state machine over its atomic steps: the render thread that encodes, queues and
    purges access units, the pacer thread that pops and sends them, and any thread that asks for a
    keyframe. Every purge bumps a generation; the pacer compares generations under the lock. */
module RtpPacer {
  import opened RtpPacing
  import opened Wrappers

  /** What pacing needs to know of an access unit the encoder emitted: how many packets it became and how
      many bytes they take. No packets: it was not a well-formed unit. */
  datatype Encoded = Encoded(key: bool, count: nat, bytes: nat)

  /** A queued access unit: which emitted unit it is, and the generation it was queued in. */
  datatype Unit = Unit(id: nat, generation: nat)

  /** One packet handed to the socket: packet `index` of unit `id`, under a 16-bit sequence number. */
  datatype Wire = Wire(id: nat, index: nat, sequence: nat)

  datatype Pacer =
    | Waiting
    | Popped(unit: Unit)                          // in flight, generation not compared yet
    | Sending(unit: Unit, next: nat, gate: nat)   // packets below `gate` are cleared for sending

  datatype Render =
    | Idle
    | Took(forced: bool)   // read and reset the keyframe request, encoding
    | Holding              // has the last emitted unit in hand, not queued yet

  datatype State = State(
    limit: nat,               // largest delta unit that is queued
    queue: seq<Unit>,
    queuedBytes: nat,
    generation: nat,
    stopping: bool,
    pacer: Pacer,
    sequence: nat,
    forceKeyframe: bool,
    active: bool,             // RTP requested
    render: Render,
    owed: bool,               // the render thread purged and has yet to request a keyframe
    encoded: seq<Encoded>,    // every unit emitted
    honest: bool,             // so far the encoder was synchronous and honoured requests
    sent: seq<Wire>)
  {
    /** What the source publishes as rtp_in_flight. */
    predicate InFlight() { !pacer.Waiting? }

    function Count(id: int): nat { if 0 <= id < |encoded| then encoded[id].count else 0 }

    function Bytes(id: int): nat { if 0 <= id < |encoded| then encoded[id].bytes else 0 }

    predicate Key(id: int) { 0 <= id < |encoded| && encoded[id].key }
  }

  datatype Event =
    | Purge                                                  // ClearRTPQueue by the render thread
    | RenderForce                                            // the render thread requests a keyframe
    | AnyForce                                               // any other thread does
    | Take(forced: bool)                                     // the request is read and reset
    | NoOutput                                               // input accepted, output delayed
    | Emit(unit: Encoded, current: bool)                   // an output; of the current input?
    | Queue                                                  // EnqueueRTPAccessUnit, if RTP is active
    | Apply(active: bool, keyframe: bool)                    // a native command is consumed
    | FailStream                                             // an encoder failure ends a start or keyframe command
    | Pop | Compare | Gate | Send                            // the pacer thread
    | Stop                                                   // teardown

  function Initial(limit: nat): State {
    State(limit, [], 0, 0, false, Waiting, 0, true, false, Idle, false, [], true, [])
  }

  // ----- the steps -----

  function Purged(s: State): State {
    s.(queue := [], queuedBytes := 0, generation := s.generation + 1)
  }

  function Queued(s: State, u: Encoded): State
    requires s.encoded != []
  {
    if u.count == 0 || s.stopping then s
    else if !u.key && s.queue != [] then Purged(s).(forceKeyframe := true)
    else if !u.key && u.bytes > s.limit then s.(forceKeyframe := true)
    else
      var t := if s.queue != [] then Purged(s) else s;
      t.(queue := t.queue + [Unit(|s.encoded| - 1, t.generation)],
         queuedBytes := t.queuedBytes + u.bytes)
  }

  function Applied(s: State, active: bool, keyframe: bool): State {
    var t := s.(active := active, forceKeyframe := s.forceKeyframe || keyframe || (active && !s.active));
    if active then t else Purged(t)
  }

  /** What a step needs: the order in which each thread does things, and, for `Take`, the value found. */
  predicate Enabled(s: State, e: Event) {
    match e
    case Purge => !s.render.Holding?
    case RenderForce => !s.render.Holding?
    case AnyForce => true
    case Take(forced) => s.render.Idle? && !s.owed && forced == s.forceKeyframe
    case NoOutput => s.render.Took? && !s.owed
    case Emit(_, _) => s.render.Took? && !s.owed
    case Queue => s.render.Holding? && s.encoded != []
    case Apply(_, _) => s.render.Idle?
    case FailStream => s.render.Idle?
    case Pop => s.pacer.Waiting? && s.queue != [] && !s.stopping
    case Compare => s.pacer.Popped?
    case Gate => s.pacer.Sending? && s.pacer.next >= s.pacer.gate
    case Send => s.pacer.Sending? && s.pacer.next < s.pacer.gate <= s.Count(s.pacer.unit.id)
    case Stop => true
  }

  function Taken(s: State, forced: bool): State {
    s.(forceKeyframe := false, render := Took(forced))
  }

  function Emitted(s: State, u: Encoded, current: bool): State {
    s.(render := Holding, encoded := s.encoded + [u],
       honest := s.honest && current && (s.render.Took? && s.render.forced && u.count > 0 ==> u.key))
  }

  function QueueStep(s: State): State
    requires s.encoded != []
  {
    if s.active then Queued(s, s.encoded[|s.encoded| - 1]).(render := Idle) else s.(render := Idle)
  }

  function PopStep(s: State): State
    requires s.queue != []
  {
    var bytes := s.Bytes(s.queue[0].id);
    s.(queue := s.queue[1..], queuedBytes := if bytes <= s.queuedBytes then s.queuedBytes - bytes else 0,
       pacer := Popped(s.queue[0]))
  }

  function CompareStep(s: State): State
    requires s.pacer.Popped?
  {
    s.(pacer := if s.stopping || s.pacer.unit.generation != s.generation then Waiting
                else Sending(s.pacer.unit, 0, 0))
  }

  function GateStep(s: State): State
    requires s.pacer.Sending?
  {
    var p := s.pacer;
    s.(pacer := if p.next >= s.Count(p.unit.id) || s.stopping || p.unit.generation != s.generation then Waiting
                else Sending(p.unit, p.next, Min(s.Count(p.unit.id), p.next + BATCH)))
  }

  function SendStep(s: State): State
    requires s.pacer.Sending?
  {
    var p := s.pacer;
    s.(sent := s.sent + [Wire(p.unit.id, p.next, s.sequence)],
       sequence := (s.sequence + 1) % 0x1_0000,
       pacer := Sending(p.unit, p.next + 1, p.gate))
  }

  function Fire(s: State, e: Event): State
    requires Enabled(s, e)
  {
    match e
    case Purge => Purged(s).(owed := true)
    case RenderForce => s.(forceKeyframe := true, owed := false, render := Idle)
    case AnyForce => s.(forceKeyframe := true)
    case Take(forced) => Taken(s, forced)
    case NoOutput => s.(render := Idle, honest := false)
    case Emit(u, current) => Emitted(s, u, current)
    case Queue => QueueStep(s)
    case Apply(active, keyframe) => Applied(s, active, keyframe)
    case FailStream => Purged(s).(active := false)
    case Pop => PopStep(s)
    case Compare => CompareStep(s)
    case Gate => GateStep(s)
    case Send => SendStep(s)
    case Stop => Purged(s).(stopping := true)
  }

  /** A step that is not enabled does nothing. */
  function Step(s: State, e: Event): State {
    if Enabled(s, e) then Fire(s, e) else s
  }

  function Run(s: State, events: seq<Event>): State
    decreases |events|
  {
    if events == [] then s else Run(Step(s, events[0]), events[1..])
  }

  // ----- the invariant -----

  /** The last packet handed to the socket is packet `index` of unit `id`. */
  predicate LastSent(s: State, id: int, index: int) {
    s.sent != [] && s.sent[|s.sent| - 1].id == id && s.sent[|s.sent| - 1].index == index
  }

  /** Everything sent so far belongs to units before `id`. */
  predicate SentBefore(s: State, id: int) {
    s.sent != [] ==> s.sent[|s.sent| - 1].id < id
  }

  /** The unit was emitted, and is not the one the render thread still holds. */
  predicate Known(s: State, u: Unit) {
    && s.Count(u.id) > 0
    && (s.render.Holding? ==> u.id < |s.encoded| - 1)
  }

  predicate QueueShape(s: State) {
    && |s.queue| <= 1
    && s.queuedBytes == (if s.queue == [] then 0 else s.Bytes(s.queue[0].id))
    && (s.queue != [] ==>
          && Known(s, s.queue[0]) && s.queue[0].generation == s.generation
          && SentBefore(s, s.queue[0].id) && s.active && !s.stopping)
    && (s.render.Holding? ==> s.encoded != [])
  }

  predicate PacerShape(s: State) {
    !s.pacer.Waiting? ==>
      var u := s.pacer.unit;
      && Known(s, u) && u.generation <= s.generation
      && (s.queue != [] ==> u.id < s.queue[0].id)
      && (s.pacer.Popped? ==> SentBefore(s, u.id))
      && (s.pacer.Sending? ==>
            && s.pacer.next <= s.pacer.gate <= Min(s.Count(u.id), s.pacer.next + BATCH)
            && (s.pacer.next == 0 ==> SentBefore(s, u.id))
            && (s.pacer.next > 0 ==> LastSent(s, u.id, s.pacer.next - 1)))
  }

  predicate Position(s: State) {
    && SentBefore(s, |s.encoded|)
    && (s.render.Holding? ==> SentBefore(s, |s.encoded| - 1))
    && s.sequence == |s.sent| % 0x1_0000
  }

  /** Each packet sent is the next one of its unit, or the first one of a later unit. */
  predicate InOrder(s: State, i: nat)
    requires i < |s.sent|
  {
    var w := s.sent[i];
    && w.index < s.Count(w.id)
    && w.sequence == i % 0x1_0000
    && (w.index > 0 ==> i > 0 && s.sent[i - 1].id == w.id && s.sent[i - 1].index == w.index - 1)
    && (w.index == 0 && i > 0 ==> s.sent[i - 1].id < w.id)
  }

  /** A delta unit starts right behind the last packet of the unit encoded before it. */
  predicate OnChain(s: State, i: nat)
    requires i < |s.sent|
  {
    var w := s.sent[i];
    w.index == 0 && !s.Key(w.id) ==>
      i > 0 && s.sent[i - 1].id == w.id - 1 && s.sent[i - 1].index == s.Count(w.id - 1) - 1
  }

  predicate LogInOrder(s: State) {
    forall i {:trigger InOrder(s, i)} :: 0 <= i < |s.sent| ==> InOrder(s, i)
  }

  /** The unit was emitted, but had no packets: its picture is lost. */
  predicate Lost(s: State, id: int) { 0 <= id < |s.encoded| && s.Count(id) == 0 }

  /** Only a lost unit can leave a delta without its reference. */
  predicate ChainOk(s: State, i: nat)
    requires i < |s.sent|
  {
    OnChain(s, i) || Lost(s, s.sent[i].id - 1)
  }

  predicate LogOnChain(s: State) {
    forall i {:trigger ChainOk(s, i)} :: 0 <= i < |s.sent| ==> ChainOk(s, i)
  }

  /** All packets of unit `id` went out, and nothing after them. */
  predicate Full(s: State, id: int) {
    LastSent(s, id, s.Count(id) - 1)
  }

  predicate SentOrLost(s: State, id: int) { Full(s, id) || Lost(s, id) }

  predicate OnItsWay(s: State, id: int) {
    !s.pacer.Waiting? && s.pacer.unit.id == id && s.pacer.unit.generation == s.generation
  }

  /** Unit `id` was sent in full or lost, or will be sent unless the next purge catches it. */
  predicate Intact(s: State, id: int) {
    || SentOrLost(s, id)
    || OnItsWay(s, id)
    || (s.queue != [] && s.queue[0].id == id)
  }

  /** The reference chain: what may still be sent has its reference, or that is lost. */
  predicate Chain(s: State) {
    && (s.pacer.Popped? && !s.Key(s.pacer.unit.id) ==> SentOrLost(s, s.pacer.unit.id - 1))
    && (s.pacer.Sending? && s.pacer.next == 0 && !s.Key(s.pacer.unit.id) ==> SentOrLost(s, s.pacer.unit.id - 1))
    && (s.queue != [] && !s.Key(s.queue[0].id) ==>
          SentOrLost(s, s.queue[0].id - 1) || OnItsWay(s, s.queue[0].id - 1))
    && (s.render.Holding? ==> !s.owed)
    && (s.active && !s.stopping && !s.owed ==> RenderChain(s))
  }

  /** What the render thread emits next is a keyframe, or has its reference, or that is lost. */
  predicate RenderChain(s: State) {
    var last := |s.encoded| - 1;
    match s.render
    case Idle => s.forceKeyframe || Intact(s, last)
    case Took(forced) => forced || Intact(s, last)
    case Holding => s.Key(last) || Lost(s, last) || Intact(s, last - 1)
  }

  predicate Shape(s: State) {
    QueueShape(s) && PacerShape(s) && Position(s)
  }

  predicate Log(s: State) {
    LogInOrder(s) && (s.honest ==> LogOnChain(s))
  }

  predicate Inv(s: State) {
    Shape(s) && Log(s) && (s.honest ==> Chain(s))
  }

  lemma SameLog(s: State, t: State)
    requires Log(s)
    requires t.sent == s.sent && s.encoded <= t.encoded && (t.honest ==> s.honest)
    ensures Log(t)
  {
    forall i | 0 <= i < |t.sent|
      ensures InOrder(t, i)
      ensures t.honest ==> ChainOk(t, i)
    {
      assert InOrder(s, i);
      assert s.honest ==> ChainOk(s, i);
    }
  }

  lemma SendKeepsLog(s: State)
    requires Inv(s) && Enabled(s, Send)
    ensures Log(SendStep(s))
  {
    var t := SendStep(s);
    var n := |s.sent|;
    forall i | 0 <= i < |t.sent|
      ensures InOrder(t, i)
      ensures t.honest ==> ChainOk(t, i)
    {
      if i < n {
        assert t.sent[i] == s.sent[i];
        assert i > 0 ==> t.sent[i - 1] == s.sent[i - 1];
        assert InOrder(s, i);
        assert s.honest ==> ChainOk(s, i);
      } else {
        assert t.sent[i].id == s.pacer.unit.id && t.sent[i].index == s.pacer.next;
        assert i > 0 ==> t.sent[i - 1] == s.sent[i - 1];
      }
    }
  }

  lemma SendKeepsShape(s: State)
    requires Inv(s) && Enabled(s, Send)
    ensures Shape(SendStep(s))
  {
  }

  lemma SendKeepsChain(s: State)
    requires Inv(s) && Enabled(s, Send) && s.honest
    ensures Chain(SendStep(s))
  {
  }

  lemma PopKeepsInv(s: State)
    requires Inv(s) && Enabled(s, Pop)
    ensures Inv(PopStep(s))
  {
    SameLog(s, PopStep(s));
  }

  lemma CompareKeepsInv(s: State)
    requires Inv(s) && Enabled(s, Compare)
    ensures Inv(CompareStep(s))
  {
    SameLog(s, CompareStep(s));
  }

  lemma GateKeepsShape(s: State)
    requires Inv(s) && Enabled(s, Gate)
    ensures Shape(GateStep(s))
  {
  }

  lemma GateKeepsChain(s: State)
    requires Inv(s) && Enabled(s, Gate) && s.honest
    ensures Chain(GateStep(s))
  {
  }

  lemma EmitKeepsShape(s: State, u: Encoded, current: bool)
    requires Shape(s) && s.render.Took?
    ensures Shape(Emitted(s, u, current))
  {
  }

  lemma EmitKeepsChain(s: State, u: Encoded, current: bool)
    requires Shape(s) && Chain(s) && s.render.Took? && !s.owed && Emitted(s, u, current).honest
    ensures Chain(Emitted(s, u, current))
  {
  }

  lemma EmitKeepsInv(s: State, u: Encoded, current: bool)
    requires Inv(s) && s.render.Took? && !s.owed
    ensures Inv(Emitted(s, u, current))
  {
    hide Shape, Log, Chain;
    SameLog(s, Emitted(s, u, current));
    EmitKeepsShape(s, u, current);
    if Emitted(s, u, current).honest { EmitKeepsChain(s, u, current); }
  }

  /** What queueing the unit in hand does, spelled out. */
  lemma QueueEffect(s: State)
    requires s.encoded != [] && |s.queue| <= 1 && (s.queue == [] ==> s.queuedBytes == 0)
    ensures var t := QueueStep(s);
            var last := |s.encoded| - 1;
            var u := s.encoded[last];
            var ignored := u.count == 0 || s.stopping || !s.active;
            var stale := !ignored && s.queue != [];
            var kept := !ignored && (u.key || (!stale && u.bytes <= s.limit));
            && t == s.(queue := t.queue, queuedBytes := t.queuedBytes, generation := t.generation,
                       forceKeyframe := t.forceKeyframe, render := Idle)
            && t.generation == s.generation + (if stale then 1 else 0)
            && t.queue == (if kept then [Unit(last, t.generation)] else if stale then [] else s.queue)
            && t.queuedBytes == (if kept then u.bytes else if stale then 0 else s.queuedBytes)
            && t.forceKeyframe == (s.forceKeyframe || (!ignored && !kept))
  {
  }

  lemma QueueKeepsQueue(s: State)
    requires Inv(s) && Enabled(s, Queue)
    ensures QueueShape(QueueStep(s))
  {
    hide QueueStep, Log, Chain;
    QueueEffect(s);
  }

  lemma QueueKeepsPacer(s: State)
    requires Inv(s) && Enabled(s, Queue)
    ensures PacerShape(QueueStep(s)) && Position(QueueStep(s))
  {
    hide QueueStep, Log, Chain;
    QueueEffect(s);
  }

  lemma QueueKeepsChain(s: State)
    requires Inv(s) && Enabled(s, Queue) && s.honest
    ensures Chain(QueueStep(s))
  {
    hide QueueStep, Log;
    QueueEffect(s);
  }

  /** The queue is empty and the generation is a new one; whoever waits for a keyframe is asked for nothing. */
  predicate Emptied(s: State, t: State) {
    t == Purged(s).(owed := t.owed, active := t.active, stopping := t.stopping, forceKeyframe := t.forceKeyframe)
  }

  lemma PurgeKeepsShape(s: State, t: State)
    requires Shape(s) && Emptied(s, t)
    ensures Shape(t)
  {
  }

  lemma PurgeKeepsChain(s: State, t: State)
    requires Chain(s) && Shape(s) && Emptied(s, t) && (t.owed ==> !s.render.Holding?)
    requires t.owed || !t.active || t.stopping
    ensures Chain(t)
  {
  }

  lemma PurgeKeepsInv(s: State, t: State)
    requires Inv(s) && Emptied(s, t) && (s.honest && t.owed ==> !s.render.Holding?)
    requires t.owed || !t.active || t.stopping
    ensures Inv(t)
  {
    hide Shape, Log, Chain;
    SameLog(s, t);
    PurgeKeepsShape(s, t);
    if s.honest { PurgeKeepsChain(s, t); }
  }

  /** Only requests change, and what the render thread is at; nothing is in its hand. */
  predicate SameFlow(s: State, t: State) {
    && t == s.(active := t.active, owed := t.owed, render := t.render, forceKeyframe := t.forceKeyframe,
               honest := t.honest)
    && (t.honest ==> s.honest) && (t.render == s.render || !t.render.Holding?)
  }

  lemma SameFlowKeepsShape(s: State, t: State)
    requires Shape(s) && SameFlow(s, t) && (s.queue != [] ==> t.active)
    ensures Shape(t)
  {
  }

  lemma SameFlowKeepsChain(s: State, t: State)
    requires Chain(s) && SameFlow(s, t) && (t.render.Holding? ==> !t.owed)
    requires t.active && !t.stopping && !t.owed ==> RenderChain(t)
    ensures Chain(t)
  {
    hide RenderChain;
  }

  lemma SameFlowKeepsInv(s: State, t: State)
    requires Inv(s) && SameFlow(s, t) && (t.render.Holding? ==> !t.owed) && (s.queue != [] ==> t.active)
    requires t.honest && t.active && !t.stopping && !t.owed ==> RenderChain(t)
    ensures Inv(t)
  {
    hide Shape, Log, Chain, RenderChain;
    SameLog(s, t);
    SameFlowKeepsShape(s, t);
    if t.honest { SameFlowKeepsChain(s, t); }
  }

  /** What the render thread's next unit needs, in a state that it does not change. */
  lemma RenderChainBy(s: State)
    requires Inv(s) && s.honest && s.active && !s.stopping && !s.owed
    ensures RenderChain(s)
  {
    hide Shape, Log, RenderChain, Intact;
  }

  lemma QueuedIsActive(s: State)
    requires Inv(s)
    ensures s.queue != [] ==> s.active
  {
    hide Log, Chain, PacerShape, Position;
  }

  lemma HandIsPaid(s: State)
    requires Inv(s) && s.honest
    ensures s.render.Holding? ==> !s.owed
  {
    hide Log, Shape;
  }

  lemma ApplyKeepsInv(s: State, active: bool, keyframe: bool)
    requires Inv(s) && s.render.Idle?
    ensures Inv(Applied(s, active, keyframe))
  {
    hide Inv;
    if active {
      if s.honest && s.active && !s.stopping && !s.owed { RenderChainBy(s); }
      SameFlowKeepsInv(s, Applied(s, active, keyframe));
    } else {
      OwedOrIdle(s, Applied(s, active, keyframe));
    }
  }

  lemma OwedOrIdle(s: State, t: State)
    requires Inv(s) && s.render.Idle? && Emptied(s, t) && t.owed == s.owed && !t.active
    ensures Inv(t)
  {
    hide Inv;
    PurgeKeepsInv(s, t);
  }

  lemma TakeKeepsInv(s: State, forced: bool)
    requires Inv(s) && s.render.Idle? && !s.owed && forced == s.forceKeyframe
    ensures Inv(Taken(s, forced))
  {
    hide Inv;
    QueuedIsActive(s);
    if s.honest && s.active && !s.stopping { RenderChainBy(s); }
    SameFlowKeepsInv(s, Taken(s, forced));
  }

  lemma RenderForceKeepsInv(s: State)
    requires Inv(s)
    ensures Inv(s.(forceKeyframe := true, owed := false, render := Idle))
  {
    hide Inv;
    QueuedIsActive(s);
    SameFlowKeepsInv(s, s.(forceKeyframe := true, owed := false, render := Idle));
  }

  lemma AnyForceKeepsInv(s: State)
    requires Inv(s)
    ensures Inv(s.(forceKeyframe := true))
  {
    hide Log;
    SameLog(s, s.(forceKeyframe := true));
    hide Shape, Intact, SentOrLost;
    SameFlowKeepsShape(s, s.(forceKeyframe := true)) by { QueuedIsActive(s); }
  }

  lemma NoOutputKeepsInv(s: State)
    requires Inv(s)
    ensures Inv(s.(render := Idle, honest := false))
  {
    hide Inv;
    QueuedIsActive(s);
    SameFlowKeepsInv(s, s.(render := Idle, honest := false));
  }

  lemma StepKeepsInv(s: State, e: Event)
    requires Inv(s)
    ensures Inv(Step(s, e))
  {
    hide Inv;
    if Enabled(s, e) { FireKeepsInv(s, e); }
  }

  lemma SendStepKeepsInv(s: State)
    requires Inv(s) && Enabled(s, Send)
    ensures Inv(SendStep(s))
  {
    SendKeepsLog(s);
    SendKeepsShape(s);
    if s.honest { SendKeepsChain(s); }
    hide Shape, Log, Chain;
  }

  lemma QueueKeepsInv(s: State)
    requires Inv(s) && Enabled(s, Queue)
    ensures Inv(QueueStep(s))
  {
    hide QueueShape, PacerShape, Position, Log, Chain;
    QueueKeepsLog(s);
    QueueKeepsQueue(s);
    QueueKeepsPacer(s);
    if s.honest { QueueKeepsChain(s); }
  }

  lemma QueueKeepsLog(s: State)
    requires Inv(s) && Enabled(s, Queue)
    ensures Log(QueueStep(s)) && QueueStep(s).honest == s.honest
  {
    hide QueueStep, Log, Chain, PacerShape, Position;
    QueueEffect(s);
    SameLog(s, QueueStep(s));
  }

  lemma GateKeepsInv(s: State)
    requires Inv(s) && Enabled(s, Gate)
    ensures Inv(GateStep(s))
  {
    hide Shape, Log, Chain;
    SameLog(s, GateStep(s));
    GateKeepsShape(s);
    if s.honest { GateKeepsChain(s); }
  }

  lemma FireKeepsInv(s: State, e: Event)
    requires Inv(s) && Enabled(s, e)
    ensures Inv(Fire(s, e))
  {
    hide Inv, Purged, Applied, Taken, Emitted, QueueStep, PopStep, CompareStep, GateStep, SendStep;
    match e
    case Send => SendStepKeepsInv(s);
    case Emit(u, current) => EmitKeepsInv(s, u, current);
    case Queue => QueueKeepsInv(s);
    case Gate => GateKeepsInv(s);
    case Take(forced) => TakeKeepsInv(s, forced);
    case Pop => PopKeepsInv(s);
    case Compare => CompareKeepsInv(s);
    case Apply(active, keyframe) => ApplyKeepsInv(s, active, keyframe);
    case Purge => PurgeEventKeepsInv(s);
    case FailStream => FailKeepsInv(s);
    case Stop => StopKeepsInv(s);
    case RenderForce => RenderForceKeepsInv(s);
    case AnyForce => AnyForceKeepsInv(s);
    case NoOutput => NoOutputKeepsInv(s);
  }

  lemma PurgeEventKeepsInv(s: State)
    requires Inv(s) && !s.render.Holding?
    ensures Inv(Purged(s).(owed := true))
  {
    hide Inv;
    PurgeKeepsInv(s, Purged(s).(owed := true));
  }

  lemma FailKeepsInv(s: State)
    requires Inv(s) && s.render.Idle?
    ensures Inv(Purged(s).(active := false))
  {
    hide Inv;
    PurgeKeepsInv(s, Purged(s).(active := false));
  }

  lemma StopKeepsInv(s: State)
    requires Inv(s)
    ensures Inv(Purged(s).(stopping := true))
  {
    hide Inv;
    if s.honest { HandIsPaid(s); }
    PurgeKeepsInv(s, Purged(s).(stopping := true));
  }

  lemma {:induction false} RunKeepsInv(s: State, events: seq<Event>)
    requires Inv(s)
    ensures Inv(Run(s, events))
    decreases |events|
  {
    hide Inv, Step;
    if events != [] {
      StepKeepsInv(s, events[0]);
      RunKeepsInv(Step(s, events[0]), events[1..]);
    }
  }

  // ----- what every run keeps -----

  lemma InitialInv(limit: nat)
    ensures Inv(Initial(limit))
  {
  }

  /** Packet `k` of unit `id` is in the log at a place from `lo` up to `hi`. */
  predicate SentWithin(s: State, id: nat, k: nat, lo: nat, hi: nat)
    requires hi < |s.sent|
  {
    exists p :: lo <= p <= hi && s.sent[p].id == id && s.sent[p].index == k
  }

  /** From a keyframe `g` at place `start` on, everything up to packet `i` of the log went out, and no unit in
      between was lost. */
  predicate CompleteFrom(s: State, g: nat, start: nat, i: nat)
    requires i < |s.sent|
  {
    && start <= i && g <= s.sent[i].id
    && s.Key(g) && s.sent[start].id == g && s.sent[start].index == 0
    && (forall id: nat :: g <= id <= s.sent[i].id ==> s.Count(id) > 0)
    && (forall id: nat, k: nat | g <= id < s.sent[i].id && k < s.Count(id) :: SentWithin(s, id, k, start, i))
    && (forall k: nat | k <= s.sent[i].index :: SentWithin(s, s.sent[i].id, k, start, i))
  }

  lemma Extend(s: State, g: nat, start: nat, i: nat, j: nat)
    requires j == i + 1 < |s.sent| && CompleteFrom(s, g, start, i)
    requires InOrder(s, i) && InOrder(s, j)
    requires s.sent[j].index > 0 || (s.sent[j].id == s.sent[i].id + 1 && s.sent[i].index == s.Count(s.sent[i].id) - 1)
    ensures CompleteFrom(s, g, start, j)
  {
    var w, x := s.sent[i], s.sent[j];
    forall id: nat, k: nat | g <= id < x.id && k < s.Count(id)
      ensures SentWithin(s, id, k, start, j)
    {
      assert SentWithin(s, id, k, start, i);
    }
    forall k: nat | k <= x.index
      ensures SentWithin(s, x.id, k, start, j)
    {
      assert k < x.index ==> SentWithin(s, x.id, k, start, i);
      assert s.sent[j].index == x.index;
    }
  }

  /** No unit was lost from the last keyframe up to unit `id`. */
  predicate WellFormed(s: State, id: nat) {
    s.Count(id) > 0 && (s.Key(id) || (id > 0 && WellFormed(s, id - 1)))
  }

  /** Decodability: whatever the interleaving, every packet sent has behind it, complete and in order, its
      unit so far and all units back to a keyframe, if none of them was lost. */
  lemma {:induction false} Decodable(s: State, i: nat) returns (g: nat, start: nat)
    requires Inv(s) && s.honest && i < |s.sent| && WellFormed(s, s.sent[i].id)
    ensures CompleteFrom(s, g, start, i)
  {
    var w := s.sent[i];
    assert InOrder(s, i) && ChainOk(s, i);
    if w.index == 0 && s.Key(w.id) {
      g, start := w.id, i;
    } else {
      g, start := Decodable(s, i - 1);
      assert InOrder(s, i - 1);
      Extend(s, g, start, i - 1, i);
    }
  }

  lemma {:induction false} WellFormedFrom(s: State, g: nat, id: nat)
    requires g <= id && s.Key(g) && forall k: nat :: g <= k <= id ==> s.Count(k) > 0
    ensures WellFormed(s, id)
    decreases id
  {
    if g < id {
      WellFormedFrom(s, g, id - 1);
    }
  }

  ghost predicate DecodableAt(s: State, i: nat) {
    i < |s.sent| && exists g: nat, start: nat :: CompleteFrom(s, g, start, i)
  }

  lemma DecodableExactly(s: State, i: nat)
    requires Inv(s) && s.honest && i < |s.sent|
    ensures DecodableAt(s, i) <==> WellFormed(s, s.sent[i].id)
    ensures OnChain(s, i) <==> s.sent[i].index > 0 || s.Key(s.sent[i].id) || !Lost(s, s.sent[i].id - 1)
  {
    assert InOrder(s, i) && ChainOk(s, i);
    assert i > 0 ==> InOrder(s, i - 1);
    if WellFormed(s, s.sent[i].id) {
      var g, start := Decodable(s, i);
    }
    hide Inv, WellFormed;
    if DecodableAt(s, i) {
      var g: nat, start: nat :| CompleteFrom(s, g, start, i);
      WellFormedFrom(s, g, s.sent[i].id);
    }
  }

  /** With a synchronous encoder, in every interleaving: a packet can be decoded exactly if no unit from the last
      keyframe up to its own was lost, and a delta has its reference exactly if the unit before it was not. */
  lemma EveryRunIsDecodable(limit: nat, events: seq<Event>)
    requires Run(Initial(limit), events).honest
    ensures var s := Run(Initial(limit), events);
            forall i: nat :: i < |s.sent| ==>
              && (DecodableAt(s, i) <==> WellFormed(s, s.sent[i].id))
              && (OnChain(s, i) <==> s.sent[i].index > 0 || s.Key(s.sent[i].id) || !Lost(s, s.sent[i].id - 1))
  {
    InitialInv(limit);
    RunKeepsInv(Initial(limit), events);
    var s := Run(Initial(limit), events);
    hide Inv, Run, DecodableAt, WellFormed, OnChain, Lost;
    forall i: nat | i < |s.sent|
      ensures DecodableAt(s, i) <==> WellFormed(s, s.sent[i].id)
      ensures OnChain(s, i) <==> s.sent[i].index > 0 || s.Key(s.sent[i].id) || !Lost(s, s.sent[i].id - 1)
    {
      DecodableExactly(s, i);
    }
  }

  /** Packets leave in order: units by unit, each as a prefix, under consecutive 16-bit sequence numbers. */
  lemma EveryRunSendsInOrder(limit: nat, events: seq<Event>, i: nat)
    requires i < |Run(Initial(limit), events).sent|
    ensures var s := Run(Initial(limit), events);
            InOrder(s, i)
  {
    InitialInv(limit);
    RunKeepsInv(Initial(limit), events);
  }

  /** What a purge leaves to be sent: the rest of the batch already cleared. */
  function Leftover(s: State): nat {
    if s.pacer.Sending? && s.pacer.next <= s.pacer.gate then s.pacer.gate - s.pacer.next else 0
  }

  predicate NoStart(events: seq<Event>) {
    forall e :: e in events ==> !(e.Apply? && e.active)
  }

  /** Nothing new can be queued, and what is in flight is overtaken. */
  predicate Closed(s: State) {
    (!s.active || s.stopping) && (s.pacer.Waiting? || s.pacer.unit.generation != s.generation || s.stopping)
  }

  lemma ClosedStep(s: State, e: Event)
    requires Inv(s) && Closed(s) && (s.stopping || !(e.Apply? && e.active))
    ensures Closed(Step(s, e)) && (s.stopping ==> Step(s, e).stopping)
    ensures |Step(s, e).sent| + Leftover(Step(s, e)) <= |s.sent| + Leftover(s)
    ensures s.sent <= Step(s, e).sent
  {
    if e.Queue? {
      if Enabled(s, e) { ClosedQueue(s); }
      hide QueueStep;
    } else {
      hide Log, Chain, QueueStep;
    }
  }

  lemma ClosedQueue(s: State)
    requires Closed(s) && s.encoded != []
    ensures var t := QueueStep(s);
            Closed(t) && t.stopping == s.stopping && t.pacer == s.pacer && t.sent == s.sent
  {
  }

  lemma {:induction false} ClosedRun(s: State, events: seq<Event>)
    requires Inv(s) && Closed(s) && (s.stopping || NoStart(events))
    ensures var t := Run(s, events);
            && s.sent <= t.sent
            && |t.sent| <= |s.sent| + Leftover(s) <= |s.sent| + 32
            && (!s.InFlight() ==> t.sent == s.sent)
    decreases |events|
  {
    if events != [] {
      ClosedStep(s, events[0]);
      StepKeepsInv(s, events[0]);
      assert NoStart(events) ==> NoStart(events[1..]);
      ClosedRun(Step(s, events[0]), events[1..]);
    }
  }

  lemma StopCloses(s: State, keyframe: bool)
    requires Inv(s) && Enabled(s, Apply(false, keyframe))
    ensures Closed(Step(s, Apply(false, keyframe)))
    ensures Step(s, Apply(false, keyframe)).sent == s.sent
    ensures Step(s, Apply(false, keyframe)).InFlight() == s.InFlight()
  {
  }

  /** Whatever happened before: when RTP is switched off, and until it is switched on again, at most the rest of
      one batch of 32 packets still leaves, and nothing at all if nothing is in flight. */
  lemma StopDrains(limit: nat, before: seq<Event>, keyframe: bool, later: seq<Event>)
    requires Enabled(Run(Initial(limit), before), Apply(false, keyframe)) && NoStart(later)
    ensures var s := Run(Initial(limit), before);
            var t := Run(Step(s, Apply(false, keyframe)), later);
            && s.sent <= t.sent && |t.sent| <= |s.sent| + 32
            && (!s.InFlight() ==> t.sent == s.sent)
  {
    InitialInv(limit);
    RunKeepsInv(Initial(limit), before);
    var s := Run(Initial(limit), before);
    hide Inv, Run, Enabled;
    StopCloses(s, keyframe);
    StepKeepsInv(s, Apply(false, keyframe));
    ClosedRun(Step(s, Apply(false, keyframe)), later);
  }

  lemma TeardownCloses(s: State)
    requires Inv(s)
    ensures var t := Step(s, Stop); Closed(t) && t.stopping && t.sent == s.sent && t.InFlight() == s.InFlight()
  {
  }

  /** The same holds of teardown, for ever: a start command consumed behind it lets nothing out. */
  lemma TeardownDrains(limit: nat, before: seq<Event>, later: seq<Event>)
    ensures var s := Run(Initial(limit), before);
            var t := Run(Step(s, Stop), later);
            && s.sent <= t.sent && |t.sent| <= |s.sent| + 32
            && (!s.InFlight() ==> t.sent == s.sent)
  {
    InitialInv(limit);
    RunKeepsInv(Initial(limit), before);
    var s := Run(Initial(limit), before);
    hide Inv, Run, Enabled;
    TeardownCloses(s);
    StepKeepsInv(s, Stop);
    ClosedRun(Step(s, Stop), later);
  }

  // ----- keyframe requests -----

  /** The step asks for a keyframe: the render thread or another one does, a command that wants one or switches RTP
      on is consumed, or a delta is refused. */
  predicate Asks(s: State, e: Event) {
    Enabled(s, e)
    && match e
       case RenderForce => true
       case AnyForce => true
       case Apply(active, keyframe) => keyframe || (active && !s.active)
       case Queue =>
         var u := s.encoded[|s.encoded| - 1];
         s.active && !s.stopping && u.count > 0 && !u.key && (s.queue != [] || u.bytes > s.limit)
       case _ => false
  }

  predicate Reads(s: State, e: Event) { Enabled(s, e) && e.Take? }

  /** A keyframe was asked for, and nobody has read that yet; `asked`: before the events. */
  predicate Outstanding(s: State, asked: bool, events: seq<Event>)
    decreases |events|
  {
    if events == [] then asked
    else Outstanding(Step(s, events[0]), !Reads(s, events[0]) && (asked || Asks(s, events[0])), events[1..])
  }

  lemma QueueAsks(s: State)
    requires s.encoded != []
    ensures var u := s.encoded[|s.encoded| - 1];
            QueueStep(s).forceKeyframe
            == (s.forceKeyframe || (s.active && !s.stopping && u.count > 0 && !u.key
                                    && (s.queue != [] || u.bytes > s.limit)))
  {
  }

  lemma StepAsks(s: State, e: Event)
    ensures Step(s, e).forceKeyframe == (!Reads(s, e) && (s.forceKeyframe || Asks(s, e)))
  {
    hide QueueStep;
    if e.Queue? && Enabled(s, e) { QueueAsks(s); }
  }

  lemma {:induction false} RequestIsOutstanding(s: State, asked: bool, events: seq<Event>)
    requires s.forceKeyframe == asked
    ensures Run(s, events).forceKeyframe == Outstanding(s, asked, events)
    decreases |events|
  {
    hide Step, Reads, Asks;
    if events != [] {
      StepAsks(s, events[0]);
      RequestIsOutstanding(Step(s, events[0]), !Reads(s, events[0]) && (asked || Asks(s, events[0])), events[1..]);
    }
  }

  /** In every run, an input is forced to be a keyframe exactly if one was asked for since the request was last read,
      or if it never was. */
  lemma ForcedExactly(limit: nat, events: seq<Event>, forced: bool)
    requires Enabled(Run(Initial(limit), events), Take(forced))
    ensures forced == Outstanding(Initial(limit), true, events)
  {
    RequestIsOutstanding(Initial(limit), true, events);
    hide Run, Outstanding;
  }

  /** No step of the events reads the request. */
  predicate Unread(s: State, events: seq<Event>)
    decreases |events|
  {
    events == [] || (!Reads(s, events[0]) && Unread(Step(s, events[0]), events[1..]))
  }

  lemma {:induction false} RequestStays(s: State, events: seq<Event>)
    requires s.forceKeyframe && Unread(s, events)
    ensures Run(s, events).forceKeyframe
    decreases |events|
  {
    hide Step, Reads;
    if events != [] {
      StepAsks(s, events[0]);
      RequestStays(Step(s, events[0]), events[1..]);
    }
  }

  /** Whatever happens before and in between: the first input behind a consumed keyframe command is forced. */
  lemma KeyframeCommandForces(limit: nat, before: seq<Event>, active: bool, later: seq<Event>, forced: bool)
    requires Enabled(Run(Initial(limit), before), Apply(active, true))
    requires var t := Step(Run(Initial(limit), before), Apply(active, true));
             Unread(t, later) && Enabled(Run(t, later), Take(forced))
    ensures forced
  {
    var s := Run(Initial(limit), before);
    hide Run, Unread;
    StepAsks(s, Apply(active, true));
    RequestStays(Step(s, Apply(active, true)), later);
  }

  lemma {:induction false} RunInTwoParts(s: State, a: seq<Event>, b: seq<Event>)
    ensures Run(s, a + b) == Run(Run(s, a), b)
    decreases |a|
  {
    if a == [] {
      assert a + b == b;
    } else {
      assert (a + b)[1..] == a[1..] + b;
      RunInTwoParts(Step(s, a[0]), a[1..], b);
    }
  }

  lemma RunOne(s: State, e: Event, rest: seq<Event>)
    ensures Run(s, [e] + rest) == Run(Step(s, e), rest)
  {
    assert ([e] + rest)[1..] == rest;
  }

  lemma RunFive(s: State, a: Event, b: Event, c: Event, d: Event, e: Event)
    ensures Run(s, [a, b, c, d, e]) == Step(Step(Step(Step(Step(s, a), b), c), d), e)
  {
    hide Step;
    var s1, s2 := Step(s, a), Step(Step(s, a), b);
    RunOne(s, a, [b, c, d, e]);
    RunOne(s1, b, [c, d, e]);
    RunOne(s2, c, [d, e]);
    RunOne(Step(s2, c), d, [e]);
    RunOne(Step(Step(s2, c), d), e, []);
    assert [a] + [b, c, d, e] == [a, b, c, d, e] && [b] + [c, d, e] == [b, c, d, e];
    assert [c] + [d, e] == [c, d, e] && [d] + [e] == [d, e] && [e] + [] == [e];
  }

  const KEY_UNIT := Encoded(true, 1, 100)
  const DELTA_UNIT := Encoded(false, 1, 100)
  const MALFORMED_UNIT := Encoded(false, 0, 0)

  const SEND_KEY := [Apply(true, false), Take(true), Emit(KEY_UNIT, true), Queue, Pop]
  const FINISH_KEY := [Compare, Gate, Send, Gate, Take(false)]
  const LOSE_ONE := [Emit(MALFORMED_UNIT, true), Queue, Take(false), Emit(DELTA_UNIT, true), Queue]
  const SEND_DELTA := [Pop, Compare, Gate, Send, Gate]

  function KeySent(): State {
    State(1000, [], 0, 0, false, Waiting, 1, false, true, Took(false), false, [KEY_UNIT], true, [Wire(0, 0, 0)])
  }

  function OneLost(): State {
    KeySent().(queue := [Unit(2, 0)], queuedBytes := 100, render := Idle,
               encoded := [KEY_UNIT, MALFORMED_UNIT, DELTA_UNIT])
  }

  function KeyPopped(): State {
    KeySent().(pacer := Popped(Unit(0, 0)), sequence := 0, render := Idle, sent := [])
  }

  lemma KeyIsPopped()
    ensures Run(Initial(1000), SEND_KEY) == KeyPopped()
  {
    hide Run;
    RunFive(Initial(1000), Apply(true, false), Take(true), Emit(KEY_UNIT, true), Queue, Pop);
    KeyIsQueued();
  }

  function KeyTaken(): State { Initial(1000).(active := true, forceKeyframe := false, render := Took(true)) }

  function KeyHeld(): State { KeyTaken().(render := Holding, encoded := [KEY_UNIT]) }

  lemma KeyIsTaken()
    ensures Step(Step(Initial(1000), Apply(true, false)), Take(true)) == KeyTaken()
    ensures Step(KeyTaken(), Emit(KEY_UNIT, true)) == KeyHeld()
  {
    hide PopStep, CompareStep, GateStep, SendStep, QueueStep;
  }

  lemma HeldIsPopped()
    ensures Step(Step(KeyHeld(), Queue), Pop) == KeyPopped()
  {
    hide CompareStep, GateStep, SendStep;
    assert Step(KeyHeld(), Queue) == KeyHeld().(render := Idle, queue := [Unit(0, 0)], queuedBytes := 100);
  }

  lemma KeyIsQueued()
    ensures var a := Step(Step(Initial(1000), Apply(true, false)), Take(true));
            Step(Step(Step(a, Emit(KEY_UNIT, true)), Queue), Pop) == KeyPopped()
  {
    hide Step, KeyTaken, KeyHeld, KeyPopped, Initial;
    KeyIsTaken();
    HeldIsPopped();
  }

  lemma KeyIsSent()
    ensures Run(KeyPopped(), FINISH_KEY) == KeySent()
  {
    hide Run;
    RunFive(KeyPopped(), Compare, Gate, Send, Gate, Take(false));
  }

  lemma OneIsLost()
    ensures Run(KeySent(), LOSE_ONE) == OneLost()
  {
    hide Run;
    RunFive(KeySent(), Emit(MALFORMED_UNIT, true), Queue, Take(false), Emit(DELTA_UNIT, true), Queue);
  }

  lemma DeltaIsSent()
    ensures var s := Run(OneLost(), SEND_DELTA);
            s.honest && s.sent == [Wire(0, 0, 0), Wire(2, 0, 1)] && !OnChain(s, 1) && !WellFormed(s, 2)
  {
    hide Run;
    RunFive(OneLost(), Pop, Compare, Gate, Send, Gate);
  }

  lemma RunInFourParts(s: State, a: seq<Event>, b: seq<Event>, c: seq<Event>, d: seq<Event>)
    ensures Run(s, a + (b + (c + d))) == Run(Run(Run(Run(s, a), b), c), d)
  {
    RunInTwoParts(s, a, b + (c + d));
    RunInTwoParts(Run(s, a), b, c + d);
    RunInTwoParts(Run(Run(s, a), b), c, d);
  }

  /** That happens with a synchronous encoder too: an output without units is dropped, no keyframe is requested,
      and the next delta goes out without its reference. */
  lemma LostOutputBreaksTheChain() returns (events: seq<Event>)
    ensures var s := Run(Initial(1000), events);
            s.honest && s.sent == [Wire(0, 0, 0), Wire(2, 0, 1)] && !OnChain(s, 1) && !DecodableAt(s, 1)
  {
    events := SEND_KEY + (FINISH_KEY + (LOSE_ONE + SEND_DELTA));
    RunInFourParts(Initial(1000), SEND_KEY, FINISH_KEY, LOSE_ONE, SEND_DELTA);
    KeyIsPopped();
    KeyIsSent();
    OneIsLost();
    DeltaIsSent();
    EveryRunIsDecodable(1000, events);
  }
}
