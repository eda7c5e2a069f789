/** The gate between a reactivated sensor and the encoder. The first callback of an activation may still show
    the old picture, so it only records a source time; nothing passes until the time differs from it. */
module FreshRenderGate {
  import opened Wrappers

  datatype Decision = Accept | DiscardAndReset | WaitForSourceTimeChange

  /** One render callback: the activation generation asked for, and its source time. */
  datatype Callback = Callback(generation: nat, time: int)

  /** The generation the last callback asked for; a new plugin has generation 0. */
  function Generation(past: seq<Callback>): nat {
    if past == [] then 0 else past[|past| - 1].generation
  }

  predicate Activates(past: seq<Callback>, i: nat)
    requires i < |past|
  {
    past[i].generation != Generation(past[..i])
  }

  /** Callback `c` is the last one that began an activation. */
  predicate IsActivation(past: seq<Callback>, c: nat) {
    c < |past| && Activates(past, c) && forall i: nat :: c < i < |past| ==> !Activates(past, i)
  }

  predicate NeverActivated(past: seq<Callback>) {
    forall i: nat :: i < |past| ==> !Activates(past, i)
  }

  /** Some callback since `c` showed another source time. */
  predicate Moved(past: seq<Callback>, c: nat)
    requires c < |past|
  {
    exists i: nat :: c < i < |past| && past[i].time != past[c].time
  }

  /** What must happen to the next callback, said about the callbacks before it. */
  ghost predicate Expected(past: seq<Callback>, next: Callback, decision: Decision) {
    match decision
    case DiscardAndReset => next.generation != Generation(past)
    case Accept =>
      && next.generation == Generation(past)
      && forall c: nat :: IsActivation(past, c) ==> Moved(past, c) || next.time != past[c].time
    case WaitForSourceTimeChange =>
      && next.generation == Generation(past)
      && exists c: nat :: IsActivation(past, c) && !Moved(past, c) && next.time == past[c].time
  }

  lemma OneActivation(past: seq<Callback>, c: nat, d: nat)
    requires IsActivation(past, c) && IsActivation(past, d)
    ensures c == d
  {
  }

  lemma ActivatesLater(past: seq<Callback>, next: Callback, i: nat)
    requires i < |past|
    ensures Activates(past + [next], i) == Activates(past, i)
  {
    assert (past + [next])[..i] == past[..i];
  }

  /** The next callback begins an activation, or the last activation stays the last. */
  lemma ActivationAfter(past: seq<Callback>, next: Callback)
    ensures Activates(past + [next], |past|) <==> next.generation != Generation(past)
    ensures next.generation != Generation(past) ==> IsActivation(past + [next], |past|)
    ensures forall c: nat :: next.generation == Generation(past) ==>
              (IsActivation(past + [next], c) <==> IsActivation(past, c))
    ensures NeverActivated(past + [next]) <==> NeverActivated(past) && next.generation == Generation(past)
  {
    var now := past + [next];
    assert now[..|past|] == past;
    forall i: nat | i < |past|
      ensures Activates(now, i) == Activates(past, i)
    {
      ActivatesLater(past, next, i);
    }
    assert NeverActivated(now) ==> NeverActivated(past) && !Activates(now, |past|) by {
      if NeverActivated(now) {
        forall i: nat | i < |past| ensures !Activates(past, i) { assert !Activates(now, i); }
      }
    }
    forall c: nat | next.generation == Generation(past)
      ensures IsActivation(now, c) <==> IsActivation(past, c)
    {
      if IsActivation(now, c) {
        forall i: nat | c < i < |past| ensures !Activates(past, i) { assert !Activates(now, i); }
      }
    }
  }

  class Gate {
    var observedGeneration: nat
    var sourceTimeFloor: Option<int>
    ghost var past: seq<Callback>

    /** The floor is set as long as the current activation has shown only the time it began with. */
    ghost predicate Valid()
      reads this
    {
      && observedGeneration == Generation(past)
      && (sourceTimeFloor.None? ==> forall c: nat :: IsActivation(past, c) ==> Moved(past, c))
      && (sourceTimeFloor.Some? ==>
            exists c: nat :: IsActivation(past, c) && !Moved(past, c) && past[c].time == sourceTimeFloor.value)
    }

    constructor ()
      ensures Valid() && past == []
    {
      observedGeneration, sourceTimeFloor, past := 0, None, [];
    }

    method Observe(requestedGeneration: nat, sourceTime: int) returns (decision: Decision)
      requires Valid()
      modifies this
      ensures Valid() && past == old(past) + [Callback(requestedGeneration, sourceTime)]
      ensures Expected(old(past), Callback(requestedGeneration, sourceTime), decision)
    {
      ghost var next := Callback(requestedGeneration, sourceTime);
      ghost var before := past;
      ActivationAfter(past, next);
      past := past + [next];
      if requestedGeneration != observedGeneration {
        observedGeneration := requestedGeneration;
        sourceTimeFloor := Some(sourceTime);
        assert IsActivation(past, |before|) && !Moved(past, |before|);
        return DiscardAndReset;
      }
      if sourceTimeFloor.None? {
        StillMoved(before, next);
        return Accept;
      }
      ghost var c: nat :| IsActivation(before, c) && !Moved(before, c) && before[c].time == sourceTimeFloor.value;
      assert IsActivation(past, c);
      if sourceTime == sourceTimeFloor.value {
        assert !Moved(past, c);
        return WaitForSourceTimeChange;
      }
      sourceTimeFloor := None;
      assert past[|before|].time != past[c].time;
      forall d: nat | IsActivation(before, d) ensures d == c { OneActivation(before, c, d); }
      return Accept;
    }
  }

  lemma StillMoved(past: seq<Callback>, next: Callback)
    requires forall c: nat :: IsActivation(past, c) ==> Moved(past, c)
    requires next.generation == Generation(past)
    ensures forall c: nat :: IsActivation(past + [next], c) ==> Moved(past + [next], c)
  {
    ActivationAfter(past, next);
    forall c: nat | IsActivation(past + [next], c)
      ensures Moved(past + [next], c)
    {
      var i: nat :| c < i < |past| && past[i].time != past[c].time;
      assert (past + [next])[i].time != (past + [next])[c].time;
    }
  }

  /** Exactly one decision is right for a callback, whatever came before. */
  lemma OneDecision(past: seq<Callback>, next: Callback) returns (decision: Decision)
    ensures forall d: Decision :: Expected(past, next, d) <==> d == decision
  {
    decision := if next.generation != Generation(past) then DiscardAndReset
                else if Expected(past, next, Accept) then Accept else WaitForSourceTimeChange;
    if decision.WaitForSourceTimeChange? {
      var c: nat :| IsActivation(past, c) && !Moved(past, c) && next.time == past[c].time;
    }
  }

  /** Once a callback of an activation was accepted, so is every later one of it. */
  lemma AcceptanceIsStable(past: seq<Callback>, next: Callback, later: Callback, decision: Decision)
    requires Expected(past, next, Accept) && later.generation == next.generation
    requires Expected(past + [next], later, decision)
    ensures decision == Accept
  {
    ActivationAfter(past, next);
    var now := past + [next];
    forall c: nat | IsActivation(now, c)
      ensures Moved(now, c)
    {
      assert IsActivation(past, c);
      if Moved(past, c) {
        var i: nat :| c < i < |past| && past[i].time != past[c].time;
        assert now[i].time != now[c].time;
      } else {
        assert now[|past|].time != now[c].time;
      }
    }
  }
}
