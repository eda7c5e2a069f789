/** The RTP fields of the plugin and the methods that share them, each proved to take the step that the
    state machine of `RtpPacer` gives for it. */
module RtpBranch {
  import opened RtpPacketizer
  import opened RtpPacing
  import opened RtpPacer
  import opened Wrappers

  const MINIMUM_PACED_QUEUE_BYTES := 256 * 1024

  function TotalBytes(packets: seq<Packet>): nat {
    if packets == [] then 0 else TotalBytes(packets[..|packets| - 1]) + |packets[|packets| - 1]|
  }

  method SumBytes(packets: seq<Packet>) returns (bytes: nat)
    ensures bytes == TotalBytes(packets)
  {
    bytes := 0;
    for index := 0 to |packets|
      invariant bytes == TotalBytes(packets[..index])
    {
      assert packets[..index + 1][..index] == packets[..index];
      bytes := bytes + |packets[index]|;
    }
    assert packets[..|packets|] == packets;
  }

  lemma GateShape(s: State)
    requires s.pacer.Sending?
    ensures var t, u := GateStep(s), s.pacer.unit;
            && t == s.(pacer := t.pacer)
            && t.InFlight() == (s.pacer.next < s.Count(u.id) && !s.stopping && u.generation == s.generation)
  {
  }

  /** `tag` names the emitted unit; it is carried for the history only. */
  datatype QueuedAccessUnit = QueuedAccessUnit(packets: seq<Packet>, bytes: nat, generation: nat,
                                               framePeriod: nat, tag: nat)

  class PacedRtpQueue {
    const pacingBitrate: nat
    const framePeriod: nat
    var rtpQueue: seq<QueuedAccessUnit>
    var rtpQueuedBytes: nat
    var rtpQueueGeneration: nat
    var rtpPacerStopping: bool
    var rtpInFlight: bool
    var rtpSequence: uint16
    var forceKeyframe: bool
    var desiredActive: bool
    ghost var emitted: seq<seq<Packet>>   // packets of every unit emitted
    ghost var s: State

    ghost predicate Represents(q: QueuedAccessUnit, u: Unit)
      reads this
    {
      && q.tag == u.id && q.generation == u.generation && u.id < |emitted| == |s.encoded|
      && q.packets == emitted[u.id]
      && |q.packets| == s.Count(u.id) && q.bytes == s.Bytes(u.id)
      && q.framePeriod == framePeriod
    }

    /** The fields are the state `s` of the state machine. */
    ghost predicate Valid()
      reads this
    {
      && pacingBitrate > 0 && framePeriod > 0
      && s.limit == MaximumPacedAccessUnitBytes()
      && |rtpQueue| == |s.queue| <= 1
      && (rtpQueue == [] ==> rtpQueuedBytes == 0)
      && (rtpQueue != [] ==> rtpQueuedBytes == rtpQueue[0].bytes && Represents(rtpQueue[0], s.queue[0]))
      && |emitted| == |s.encoded|
      && rtpQueuedBytes == s.queuedBytes && rtpQueueGeneration == s.generation
      && rtpPacerStopping == s.stopping && rtpInFlight == s.InFlight()
      && rtpSequence == s.sequence && forceKeyframe == s.forceKeyframe && desiredActive == s.active
    }

    /** A defensive bound for one encoded frame. */
    function MaximumPacedAccessUnitBytes(): nat {
      Max(MINIMUM_PACED_QUEUE_BYTES, pacingBitrate / 8)
    }

    constructor (pacingBitrate: nat, framePeriod: nat)
      requires pacingBitrate > 0 && framePeriod > 0
      ensures Valid() && s == Initial(MaximumPacedAccessUnitBytes())
      ensures s.limit == if pacingBitrate / 8 > 262144 then pacingBitrate / 8 else 262144
    {
      this.pacingBitrate, this.framePeriod := pacingBitrate, framePeriod;
      rtpQueue, rtpQueuedBytes, rtpQueueGeneration := [], 0, 0;
      rtpPacerStopping, rtpInFlight, rtpSequence := false, false, 0;
      forceKeyframe, desiredActive := true, false;
      emitted := [];
      s := Initial(Max(MINIMUM_PACED_QUEUE_BYTES, pacingBitrate / 8));
    }

    // ----- render thread -----

    method ClearRTPQueue()
      requires Valid() && Enabled(s, Purge)
      modifies this
      ensures Valid() && s == Purged(old(s)).(owed := true) && emitted == old(emitted)
      ensures rtpQueue == [] && rtpQueueGeneration == old(rtpQueueGeneration) + 1
    {
      rtpQueue := [];
      rtpQueuedBytes := 0;
      rtpQueueGeneration := rtpQueueGeneration + 1;
      s := Purged(s).(owed := true);
    }

    /** The encoder's output, turned into packets, is in the render thread's hand. */
    ghost method EmitUnit(packets: seq<Packet>, keyframe: bool, current: bool)
      requires Valid() && s.render.Took? && !s.owed
      modifies this
      ensures Valid() && emitted == old(emitted) + [packets]
      ensures s == Emitted(old(s), Encoded(keyframe, |packets|, TotalBytes(packets)), current)
    {
      var u := Encoded(keyframe, |packets|, TotalBytes(packets));
      emitted := emitted + [packets];
      s := Emitted(s, u, current);
    }

    /** The unit in hand is queued, or dropped; a keyframe replaces what is queued, a delta never joins it. */
    method EnqueueRTPAccessUnit(packets: seq<Packet>, keyframe: bool, tag: nat) returns (queued: bool)
      requires Valid() && s.encoded != [] && s.active
      requires tag == |emitted| - 1 && emitted[tag] == packets
      requires s.encoded[tag].key == keyframe && s.encoded[tag].count == |packets|
      requires s.encoded[tag].bytes == TotalBytes(packets)
      modifies this
      ensures Valid() && s == QueueStep(old(s)) && emitted == old(emitted)
      ensures queued == (packets != [] && !old(rtpPacerStopping)
                         && (keyframe || (old(rtpQueue) == [] && s.encoded[tag].bytes <= s.limit)))
      ensures queued ==> |rtpQueue| == 1 && rtpQueue[0].packets == packets
      ensures !queued && packets != [] && !old(rtpPacerStopping) ==> forceKeyframe && rtpQueue == []
    {
      hide TotalBytes, QueueStep;
      var bytes := SumBytes(packets);
      ghost var t := QueueStep(s);
      QueueEffect(s);
      queued := false;
      if packets != [] && !rtpPacerStopping {
        var stale := rtpQueue != [];
        if stale {
          rtpQueue, rtpQueuedBytes, rtpQueueGeneration := [], 0, rtpQueueGeneration + 1;
        }
        if !keyframe && (stale || bytes > MaximumPacedAccessUnitBytes()) {
          forceKeyframe := true;
        } else {
          rtpQueuedBytes := rtpQueuedBytes + bytes;
          rtpQueue := [QueuedAccessUnit(packets, bytes, rtpQueueGeneration, framePeriod, tag)];
          queued := true;
        }
      }
      s := t;
    }

    /** The RTP half of consuming a native command. */
    method ApplyActive(active: bool, keyframe: bool)
      requires Valid() && Enabled(s, Apply(active, keyframe))
      modifies this
      ensures Valid() && s == Applied(old(s), active, keyframe) && emitted == old(emitted)
      ensures desiredActive == active
      ensures forceKeyframe == (old(forceKeyframe) || keyframe || (active && !old(desiredActive)))
    {
      ghost var t := Applied(s, active, keyframe);
      var oldActive := desiredActive;
      desiredActive := active;
      if keyframe || (active && !oldActive) { forceKeyframe := true; }
      if !active {
        rtpQueue := [];
        rtpQueuedBytes := 0;
        rtpQueueGeneration := rtpQueueGeneration + 1;
      }
      s := t;
    }

    /** Teardown, which then waits for the pacer thread to return. */
    method StopRTPPacer()
      requires Valid()
      modifies this
      ensures Valid() && s == Purged(old(s)).(stopping := true) && emitted == old(emitted)
      ensures rtpPacerStopping && rtpQueue == [] && rtpQueueGeneration == old(rtpQueueGeneration) + 1
    {
      rtpPacerStopping := true;
      rtpQueue := [];
      rtpQueuedBytes := 0;
      rtpQueueGeneration := rtpQueueGeneration + 1;
      s := Purged(s).(stopping := true);
    }

    // ----- pacer thread -----

    method PopAccessUnit() returns (accessUnit: QueuedAccessUnit, spread: nat)
      requires Valid() && Enabled(s, RtpPacer.Pop)
      modifies this
      ensures Valid() && s == PopStep(old(s)) && emitted == old(emitted)
      ensures Represents(accessUnit, s.pacer.unit) && accessUnit == old(rtpQueue)[0]
      ensures rtpInFlight && rtpQueue == old(rtpQueue)[1..]
      ensures spread == Spread(accessUnit.bytes, pacingBitrate, framePeriod) && 1 <= spread <= framePeriod
    {
      SpreadBounds(rtpQueue[0].bytes, pacingBitrate, framePeriod);
      assert Represents(rtpQueue[0], s.queue[0]);
      accessUnit := rtpQueue[0];
      rtpQueue := rtpQueue[1..];
      rtpQueuedBytes := rtpQueuedBytes - accessUnit.bytes;
      spread := Spread(accessUnit.bytes, pacingBitrate, accessUnit.framePeriod);
      rtpInFlight := true;
      s := PopStep(s);
    }

    /** The check between popping and sending: a unit overtaken by a purge is dropped. */
    method CompareGeneration(accessUnit: QueuedAccessUnit) returns (send: bool)
      requires Valid() && s.pacer.Popped? && Represents(accessUnit, s.pacer.unit)
      modifies this
      ensures Valid() && s == CompareStep(old(s)) && emitted == old(emitted)
      ensures send == (!rtpPacerStopping && accessUnit.generation == rtpQueueGeneration) == rtpInFlight
    {
      send := !rtpPacerStopping && accessUnit.generation == rtpQueueGeneration;
      rtpInFlight := send;
      s := CompareStep(s);
    }

    /** What is looked at under the lock before a batch; `end` is where the batch ends. Behind the last batch
        and behind a closed gate nothing is in flight any more. */
    method OpenGate(accessUnit: QueuedAccessUnit, begin: nat) returns (open: bool, end: nat)
      requires Valid() && s.pacer.Sending? && Represents(accessUnit, s.pacer.unit)
      requires begin == s.pacer.next == s.pacer.gate
      modifies this
      ensures Valid() && s == GateStep(old(s)) && emitted == old(emitted)
      ensures open == rtpInFlight
           == (begin < |accessUnit.packets| && !rtpPacerStopping && accessUnit.generation == rtpQueueGeneration)
      ensures open ==> begin < end == Min(|accessUnit.packets|, begin + 32)
    {
      hide GateStep;
      GateShape(s);
      end := Min(|accessUnit.packets|, begin + BATCH);
      open := begin < |accessUnit.packets| && !rtpPacerStopping && accessUnit.generation == rtpQueueGeneration;
      rtpInFlight := open;
      s := GateStep(s);
    }

    method SendPacedRTPPacket(accessUnit: QueuedAccessUnit, index: nat) returns (wire: Packet)
      requires Valid() && Enabled(s, RtpPacer.Send) && Represents(accessUnit, s.pacer.unit)
      requires index == s.pacer.next
      modifies this
      ensures Valid() && s == SendStep(old(s)) && emitted == old(emitted)
      ensures wire == Stamp(accessUnit.packets[index], old(rtpSequence))
      ensures s.sent == old(s.sent) + [Wire(accessUnit.tag, index, old(rtpSequence))]
      ensures rtpSequence == NextSequence(old(rtpSequence), 1)
    {
      wire := Stamp(accessUnit.packets[index], rtpSequence);
      rtpSequence := (rtpSequence + 1) % 0x1_0000;
      s := SendStep(s);
    }
  }
}
