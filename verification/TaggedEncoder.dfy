/** Keyframe requests and the encoder session. An input is forced if a keyframe was asked for since the last input;
    one that is forced while a request is awaited carries the request's number, and only a keyframe that comes out
    with that input's metadata answers the request. */
module TaggedEncoder {
  import Enc = EncoderSession

  datatype Tagged = Tagged(
    enc: Enc.Encoder,
    tags: seq<nat>,            // per encoder input: the request it carries; 0: none
    forced: seq<bool>,         // per encoder input
    accepted: seq<bool>,       // per encoder input: the encoder took it
    keys: seq<bool>,           // per output: it has an IDR unit
    taken: map<nat, nat>,      // per request: encoder inputs when it was made
    acks: map<nat, nat>,       // per answered request: the output that did it
    urgent: set<nat>,          // requests that asked for a keyframe when they were made
    asked: bool)               // a keyframe was asked for since the last input; forceKeyframe_

  function Initial(rate: Enc.Rate): Tagged { Tagged(Enc.Initial(rate), [], [], [], [], map[], map[], {}, true) }

  /** A request is made, and perhaps a keyframe asked for with it. */
  function Asked(t: Tagged, request: nat, force: bool): Tagged {
    t.(taken := t.taken[request := |t.enc.inputs|], asked := t.asked || force,
       urgent := if force then t.urgent + {request} else t.urgent)
  }

  /** Some thread asks for a keyframe. */
  function AskedFor(t: Tagged): Tagged { t.(asked := true) }

  /** The frame asks for a keyframe before its input is submitted. */
  predicate AsksFirst(e: Enc.Encoder, r: Enc.Render) {
    r.texture
    && Enc.RequestKeyframe in Enc.ObserveOps(e, r.sourceTime) + Enc.EnsureOps(Enc.Observed(e, r.sourceTime), r)
  }

  /** It asks for one because its input was lost. */
  predicate AsksLast(e: Enc.Encoder, r: Enc.Render)
    requires e.rate.Clamped()
  {
    Enc.Submits(e, r) && !Enc.Accepts(e, r)
  }

  /** The input is forced exactly if a keyframe was asked for. */
  predicate RightlyForced(t: Tagged, r: Enc.Render) {
    Enc.Submits(t.enc, r) ==> r.forced == (t.asked || AsksFirst(t.enc, r))
  }

  function Released(t: Tagged): Tagged { t.(enc := Enc.Destroyed(t.enc)) }

  /** The input is submitted, with its tag. */
  function Submitted(t: Tagged, r: Enc.Render, awaited: nat): Tagged
    requires t.enc.rate.Clamped()
  {
    var u := t.(enc := Enc.Encode(t.enc, r));
    if Enc.Submits(t.enc, r) then
      u.(tags := t.tags + [if r.forced then awaited else 0], forced := t.forced + [r.forced],
         accepted := t.accepted + [Enc.Accepts(t.enc, r)], asked := AsksLast(t.enc, r))
    else u.(asked := t.asked || AsksFirst(t.enc, r))
  }

  /** An output came out and was looked at. */
  function Looked(t: Tagged, key: bool): Tagged { t.(keys := t.keys + [key]) }

  /** The last output answers what is awaited. */
  predicate Matches(t: Tagged, awaited: nat) {
    && t.enc.outputs != [] && |t.keys| == |t.enc.outputs| && t.keys[|t.keys| - 1]
    && var k := t.enc.outputs[|t.enc.outputs| - 1].sourceSequence;
       k < |t.tags| && t.tags[k] != 0 && t.tags[k] == awaited
  }

  function Answered(t: Tagged, awaited: nat): Tagged
    requires t.enc.outputs != []
  {
    t.(acks := t.acks[awaited := |t.enc.outputs| - 1])
  }

  predicate HasOutput(t: Tagged, r: Enc.Render)
    requires t.enc.rate.Clamped()
  {
    |Enc.Encode(t.enc, r).outputs| > |t.enc.outputs|
  }

  /** The frame was encoded: its input was accepted, and its output, if there is one, was handed on. */
  predicate Succeeds(t: Tagged, r: Enc.Render, sent: bool)
    requires t.enc.rate.Clamped()
  {
    Enc.Accepts(t.enc, r) && (HasOutput(t, r) ==> sent)
  }

  /** One rendered frame; `key`: what comes out, if anything, is a keyframe. */
  function Rendered(t: Tagged, r: Enc.Render, key: bool, awaited: nat): Tagged
    requires t.enc.rate.Clamped()
  {
    var u := Submitted(t, r, awaited);
    if !HasOutput(t, r) then u
    else
      var v := Looked(u, key);
      if Matches(v, awaited) then Answered(v, awaited) else v
  }

  /** The frame answers the request. */
  predicate Answers(t: Tagged, r: Enc.Render, key: bool, awaited: nat)
    requires t.enc.rate.Clamped()
  {
    HasOutput(t, r) && Matches(Looked(Submitted(t, r, awaited), key), awaited)
  }

  // ----- the invariant -----

  /** A tag is a request made before the input was submitted, and the input was forced. */
  predicate TagOk(t: Tagged, k: nat)
    requires k < |t.tags| == |t.forced|
  {
    t.tags[k] != 0 ==> t.forced[k] && t.tags[k] in t.taken && t.taken[t.tags[k]] <= k
  }

  /** The output is a keyframe, with the metadata of an input that carries the request. */
  predicate AckOk(t: Tagged, request: nat)
    requires request in t.acks
  {
    && t.acks[request] < |t.enc.outputs| && t.acks[request] < |t.keys| && t.keys[t.acks[request]]
    && t.enc.outputs[t.acks[request]].sourceSequence < |t.tags|
    && t.tags[t.enc.outputs[t.acks[request]].sourceSequence] == request != 0
  }

  predicate TagsOk(t: Tagged) {
    && |t.tags| == |t.forced| == |t.accepted| == |t.enc.inputs|
    && forall k: nat {:trigger TagOk(t, k)} :: k < |t.tags| ==> TagOk(t, k)
  }

  predicate AcksOk(t: Tagged) { forall r {:trigger AckOk(t, r)} :: r in t.acks ==> AckOk(t, r) }

  /** The first input behind a request that asked for a keyframe is forced, or will be. */
  predicate UrgentOk(t: Tagged, request: nat) {
    && request in t.taken && t.taken[request] <= |t.forced|
    && (if t.taken[request] < |t.forced| then t.forced[t.taken[request]] else t.asked)
  }

  predicate AllUrgentOk(t: Tagged) { forall r {:trigger UrgentOk(t, r)} :: r in t.urgent ==> UrgentOk(t, r) }

  predicate Inv(t: Tagged) {
    && Enc.Inv(t.enc) && TagsOk(t) && AcksOk(t) && |t.keys| == |t.enc.outputs| && AllUrgentOk(t)
    && forall r :: r in t.taken ==> t.taken[r] <= |t.enc.inputs|
  }

  /** Every input forced since the request carries it, and no keyframe has come out with one of them. */
  predicate Unanswered(t: Tagged, request: nat) {
    && request in t.taken && request !in t.acks
    && (forall k: nat :: t.taken[request] <= k < |t.tags| && k < |t.forced| && t.forced[k] ==> t.tags[k] == request)
    && (forall o: nat {:trigger Carries(t, o, request)} :: o < |t.keys| && Carries(t, o, request) ==> !t.keys[o])
  }

  /** Output `o` is paired with an input that carries the request. */
  predicate Carries(t: Tagged, o: nat, request: nat) {
    o < |t.enc.outputs| && t.enc.outputs[o].sourceSequence < |t.tags|
    && t.tags[t.enc.outputs[o].sourceSequence] == request
  }

  /** The request was made before whatever is submitted from now on. */
  predicate Made(t: Tagged, request: nat) {
    request in t.taken && t.taken[request] <= |t.enc.inputs|
  }

  lemma InitialInv(rate: Enc.Rate)
    requires rate.Clamped()
    ensures Inv(Initial(rate))
  {
    Enc.InitialInv(rate);
  }

  lemma AskKeepsInv(t: Tagged, request: nat, force: bool)
    requires Inv(t) && request !in t.taken
    ensures Inv(Asked(t, request, force)) && Made(Asked(t, request, force), request)
    ensures request != 0 ==> Unanswered(Asked(t, request, force), request)
  {
    hide Enc.Inv;
    var u := Asked(t, request, force);
    forall k: nat | k < |u.tags| ensures TagOk(u, k) { assert TagOk(t, k); }
    forall r | r in u.acks ensures AckOk(u, r) { assert AckOk(t, r); }
    forall r | r in u.urgent ensures UrgentOk(u, r) { assert r in t.urgent ==> UrgentOk(t, r); }
    if request != 0 {
      forall k: nat | k < |t.tags| ensures t.tags[k] != request { assert TagOk(t, k); }
      AnswersTaken(t, request);
    }
  }

  /** What is answered was requested. */
  lemma AnswersTaken(t: Tagged, request: nat)
    requires TagsOk(t) && AcksOk(t)
    ensures request in t.acks ==> request in t.taken
  {
    if request in t.acks {
      assert AckOk(t, request);
      assert TagOk(t, t.enc.outputs[t.acks[request]].sourceSequence);
    }
  }

  lemma AskForKeepsInv(t: Tagged)
    requires Inv(t)
    ensures Inv(AskedFor(t))
  {
    hide Enc.Inv;
    var u := AskedFor(t);
    forall k: nat | k < |u.tags| ensures TagOk(u, k) { assert TagOk(t, k); }
    forall r | r in u.acks ensures AckOk(u, r) { assert AckOk(t, r); }
    forall r | r in u.urgent ensures UrgentOk(u, r) { assert UrgentOk(t, r); }
  }

  lemma ReleaseKeepsInv(t: Tagged)
    requires Inv(t)
    ensures Inv(Released(t))
  {
    hide Enc.Inv;
    Enc.DestroyKeepsInv(t.enc);
    var u := Released(t);
    forall k: nat | k < |u.tags| ensures TagOk(u, k) { assert TagOk(t, k); }
    forall r | r in u.acks ensures AckOk(u, r) { assert AckOk(t, r); }
    forall r | r in u.urgent ensures UrgentOk(u, r) { assert UrgentOk(t, r); }
  }

  lemma SubmitKeepsTags(t: Tagged, r: Enc.Render, awaited: nat)
    requires TagsOk(t) && t.enc.rate.Clamped() && (awaited != 0 ==> Made(t, awaited))
    ensures TagsOk(Submitted(t, r, awaited))
  {
    hide Enc.Encode, Enc.Submits, Enc.Accepts;
    Enc.EncodeShape(t.enc, r);
    var u := Submitted(t, r, awaited);
    forall k: nat | k < |u.tags| ensures TagOk(u, k) { assert k < |t.tags| ==> TagOk(t, k); }
  }

  lemma SubmitKeepsAcks(t: Tagged, r: Enc.Render, awaited: nat)
    requires AcksOk(t) && t.enc.rate.Clamped()
    ensures AcksOk(Submitted(t, r, awaited))
  {
    hide Enc.Encode, Enc.Submits, Enc.Accepts;
    Enc.EncodeShape(t.enc, r);
    var u := Submitted(t, r, awaited);
    forall a | a in u.acks ensures AckOk(u, a) { assert AckOk(t, a); }
  }

  lemma SubmitKeepsUrgent(t: Tagged, r: Enc.Render, awaited: nat)
    requires AllUrgentOk(t) && t.enc.rate.Clamped() && RightlyForced(t, r)
    ensures AllUrgentOk(Submitted(t, r, awaited))
  {
    hide Enc.Encode, Enc.Submits, Enc.Accepts, AsksFirst, AsksLast;
    var u := Submitted(t, r, awaited);
    forall q | q in u.urgent ensures UrgentOk(u, q) { assert UrgentOk(t, q); }
  }

  lemma LookKeepsInv(t: Tagged, key: bool)
    requires TagsOk(t) && AcksOk(t) && AllUrgentOk(t)
    ensures TagsOk(Looked(t, key)) && AcksOk(Looked(t, key)) && AllUrgentOk(Looked(t, key))
  {
    var u := Looked(t, key);
    forall k: nat | k < |u.tags| ensures TagOk(u, k) { assert TagOk(t, k); }
    forall a | a in u.acks ensures AckOk(u, a) { assert AckOk(t, a); }
    forall q | q in u.urgent ensures UrgentOk(u, q) { assert UrgentOk(t, q); }
  }

  lemma AnswerKeepsInv(t: Tagged, awaited: nat)
    requires TagsOk(t) && AcksOk(t) && AllUrgentOk(t) && Matches(t, awaited)
    ensures var u := Answered(t, awaited); TagsOk(u) && AcksOk(u) && AllUrgentOk(u)
  {
    var u := Answered(t, awaited);
    forall k: nat | k < |u.tags| ensures TagOk(u, k) { assert TagOk(t, k); }
    forall a | a in u.acks ensures AckOk(u, a) { assert a in t.acks ==> AckOk(t, a); }
    forall q | q in u.urgent ensures UrgentOk(u, q) { assert UrgentOk(t, q); }
  }

  lemma SubmittedIs(t: Tagged, r: Enc.Render, awaited: nat)
    requires t.enc.rate.Clamped()
    ensures var u := Submitted(t, r, awaited);
            && u.enc == Enc.Encode(t.enc, r) && u.keys == t.keys && u.taken == t.taken && u.acks == t.acks
            && t.tags <= u.tags && |u.tags| <= |t.tags| + 1 && t.forced <= u.forced && u.urgent == t.urgent
  {
    hide Enc.Encode, Enc.Submits, Enc.Accepts, AsksFirst, AsksLast;
  }

  lemma RenderKeepsInv(t: Tagged, r: Enc.Render, key: bool, awaited: nat)
    requires Inv(t) && t.enc.rate.Clamped() && (awaited != 0 ==> Made(t, awaited)) && RightlyForced(t, r)
    ensures Inv(Rendered(t, r, key, awaited))
  {
    hide Enc.Inv, Enc.Encode, TagsOk, AcksOk, AllUrgentOk, RightlyForced, Matches, Submitted;
    Enc.EncodeKeepsInv(t.enc, r);
    Enc.EncodeShape(t.enc, r);
    SubmittedIs(t, r, awaited);
    SubmitKeepsTags(t, r, awaited);
    SubmitKeepsAcks(t, r, awaited);
    SubmitKeepsUrgent(t, r, awaited);
    var u := Submitted(t, r, awaited);
    if HasOutput(t, r) {
      LookKeepsInv(u, key);
      if Matches(Looked(u, key), awaited) { AnswerKeepsInv(Looked(u, key), awaited); }
    }
  }

  lemma SubmitStaysUnanswered(t: Tagged, r: Enc.Render, awaited: nat)
    requires Inv(t) && t.enc.rate.Clamped() && Unanswered(t, awaited)
    ensures var u := Submitted(t, r, awaited);
            && awaited in u.taken && awaited !in u.acks
            && (forall k: nat :: u.taken[awaited] <= k < |u.tags| && k < |u.forced| && u.forced[k] ==>
                  u.tags[k] == awaited)
            && (forall o: nat {:trigger Carries(u, o, awaited)} ::
                  o < |t.keys| && Carries(u, o, awaited) ==> !t.keys[o])
  {
    hide Enc.Encode, Enc.Submits, Enc.Accepts, AsksFirst, AsksLast;
    Enc.EncodeShape(t.enc, r);
    var u := Submitted(t, r, awaited);
    forall o: nat | o < |t.keys| && Carries(u, o, awaited)
      ensures !t.keys[o]
    {
      OutputIsOld(t, o);
      assert Carries(t, o, awaited);
    }
  }

  /** An output's input was submitted before. */
  lemma OutputIsOld(t: Tagged, o: nat)
    requires Inv(t) && o < |t.enc.outputs|
    ensures t.enc.outputs[o].sourceSequence < |t.tags|
  {
    assert Enc.Genuine(t.enc, t.enc.outputs[o]);
  }

  /** As long as no frame answers it, the request stays unanswered. */
  lemma StaysUnanswered(t: Tagged, r: Enc.Render, key: bool, awaited: nat)
    requires Inv(t) && t.enc.rate.Clamped() && Unanswered(t, awaited) && awaited != 0
    requires !Answers(t, r, key, awaited)
    ensures Unanswered(Rendered(t, r, key, awaited), awaited)
  {
    hide Enc.Inv, Enc.Encode, Submitted, Inv;
    SubmitStaysUnanswered(t, r, awaited);
    SubmittedIs(t, r, awaited);
    LengthsByInv(t);
    Enc.EncodeShape(t.enc, r);
    var u, v := Submitted(t, r, awaited), Rendered(t, r, key, awaited);
    forall o: nat | o < |v.keys| && Carries(v, o, awaited)
      ensures !v.keys[o]
    {
      assert Carries(u, o, awaited);
    }
  }

  /** What a frame does to the requests: inputs are only added, and an answered one is remembered. */
  lemma RenderShape(t: Tagged, r: Enc.Render, key: bool, awaited: nat)
    requires t.enc.rate.Clamped() && |t.accepted| == |t.enc.inputs|
    ensures var u := Rendered(t, r, key, awaited);
            && u.enc == Enc.Encode(t.enc, r) && u.enc.rate == t.enc.rate && u.taken == t.taken
            && u.urgent == t.urgent
            && t.enc.inputs <= u.enc.inputs && t.accepted <= u.accepted
            && (forall a :: a in t.acks ==> a in u.acks)
            && (Answers(t, r, key, awaited) ==> awaited in u.acks)
            && (Enc.Accepts(t.enc, r) ==> |u.enc.inputs| == |u.accepted| == |t.enc.inputs| + 1
                                          && u.accepted[|t.enc.inputs|])
  {
    hide Enc.Encode, Enc.Submits, Enc.Accepts, Matches, AsksFirst, AsksLast;
    Enc.EncodeShape(t.enc, r);
    if Enc.Accepts(t.enc, r) { AcceptsSubmits(t.enc, r); }
  }

  lemma AcceptsSubmits(e: Enc.Encoder, r: Enc.Render)
    requires e.rate.Clamped() && Enc.Accepts(e, r)
    ensures Enc.Submits(e, r)
  {
    hide Enc.Submits, Enc.Loses;
  }

  lemma UrgentIsForced(t: Tagged, request: nat)
    requires Inv(t) && request in t.urgent
    ensures request in t.taken && |t.forced| == |t.enc.inputs|
    ensures t.taken[request] < |t.forced| ==> t.forced[t.taken[request]]
  {
    LengthsByInv(t);
    hide Enc.Inv, TagsOk, AcksOk;
    assert UrgentOk(t, request);
  }

  /** What requests and answers consist of is the same. */
  lemma SameUnanswered(t: Tagged, u: Tagged, request: nat)
    requires Unanswered(t, request) && u.taken == t.taken && u.acks == t.acks && u.tags == t.tags
    requires u.forced == t.forced && u.keys == t.keys && u.enc.outputs == t.enc.outputs
    ensures Unanswered(u, request)
  {
    forall o: nat | o < |u.keys| && Carries(u, o, request) ensures !u.keys[o] { assert Carries(t, o, request); }
  }

  lemma RenderedRate(t: Tagged, r: Enc.Render, key: bool, awaited: nat)
    requires t.enc.rate.Clamped()
    ensures Rendered(t, r, key, awaited).enc.rate == t.enc.rate
  {
    hide Enc.Encode, Enc.Submits, Enc.Accepts, Matches;
    Enc.EncodeShape(t.enc, r);
  }

  lemma LengthsByInv(t: Tagged)
    requires Inv(t)
    ensures |t.accepted| == |t.enc.inputs| == |t.tags| == |t.forced| && |t.keys| == |t.enc.outputs|
  {
    hide Enc.Inv, AcksOk, AllUrgentOk;
  }

  lemma AnswersSomething(t: Tagged, r: Enc.Render, key: bool, awaited: nat)
    requires t.enc.rate.Clamped() && Answers(t, r, key, awaited)
    ensures awaited != 0
  {
    hide Enc.Encode, Submitted;
  }

  lemma ReleaseShape(t: Tagged)
    ensures var u := Released(t);
            && u.taken == t.taken && u.accepted == t.accepted && u.acks == t.acks && u.enc.inputs == t.enc.inputs
            && u.urgent == t.urgent && u.tags == t.tags && u.forced == t.forced && u.enc.outputs == t.enc.outputs
            && u.keys == t.keys
  {
  }

  /** Output `o` is a keyframe, paired with an input that was forced, carries the request, and was submitted after
      the request was made. */
  predicate IsAnswer(t: Tagged, o: nat, request: nat) {
    && o < |t.enc.outputs| == |t.keys| && t.keys[o]
    && t.enc.rate.Clamped() && Enc.Genuine(t.enc, t.enc.outputs[o])
    && var k := t.enc.outputs[o].sourceSequence;
       && k < |t.tags| == |t.forced| && t.tags[k] == request && t.forced[k]
       && request in t.taken && t.taken[request] <= k
  }

  lemma AcknowledgedIsAnswered(t: Tagged, request: nat) returns (o: nat)
    requires Inv(t) && request in t.acks
    ensures IsAnswer(t, o, request)
  {
    o := t.acks[request];
    assert AckOk(t, request);
    assert Enc.Genuine(t.enc, t.enc.outputs[o]);
    assert TagOk(t, t.enc.outputs[o].sourceSequence);
  }
}
