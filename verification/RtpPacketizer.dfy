/** RTP packetization of one access unit: single NAL unit packets and FU-A fragments
    (sections 5.6 and 5.8 of RFC 6184) behind the fixed RTP header (section 5.1 of RFC 3550),
    and a receiver that undoes it. */
module RtpPacketizer {
  import opened AnnexB

  const MAXIMUM_PAYLOAD := 1200
  const FRAGMENT_PAYLOAD := MAXIMUM_PAYLOAD - 2
  const PAYLOAD_TYPE := 96
  const SSRC := 0x58474332
  const FU_A := 28

  type Payload = seq<byte>
  /** An RTP packet has at least its fixed header of 12 bytes. */
  type Packet = p: seq<byte> | |p| >= 12 witness seq(12, _ => 0)
  type uint16 = n: int | 0 <= n < 0x1_0000
  type uint32 = n: int | 0 <= n < 0x1_0000_0000

  // Bit fields of a byte, written arithmetically: h & 0xe0, h & 0x1f, h & 0x80, h & 0x40.
  function TopBits(h: byte): byte { h / 32 * 32 }
  function NalType(h: byte): byte { h % 32 }
  predicate StartBit(h: byte) { h >= 128 }
  predicate EndBit(h: byte) { h % 128 >= 64 }

  // ----- what a unit becomes -----

  function FuHeader(nalHeader: byte, first: bool, last: bool): (h: byte)
    ensures StartBit(h) == first && EndBit(h) == last && NalType(h) == NalType(nalHeader)
  {
    NalType(nalHeader) + (if first then 128 else 0) + (if last then 64 else 0)
  }

  function Fragment(nalHeader: byte, body: seq<byte>, first: bool, last: bool): Payload {
    [TopBits(nalHeader) + FU_A, FuHeader(nalHeader, first, last)] + body
  }

  /** The FU-A payloads for what is left of a unit behind its header byte. */
  function Fragments(nalHeader: byte, rest: seq<byte>, first: bool): (r: seq<Payload>)
    decreases |rest|
  {
    if rest == [] then []
    else if |rest| <= FRAGMENT_PAYLOAD then [Fragment(nalHeader, rest, first, true)]
    else [Fragment(nalHeader, rest[..FRAGMENT_PAYLOAD], first, false)]
         + Fragments(nalHeader, rest[FRAGMENT_PAYLOAD..], false)
  }

  function UnitPayloads(nal: Nal): seq<Payload> {
    if nal == [] then []
    else if |nal| <= MAXIMUM_PAYLOAD then [nal] else Fragments(nal[0], nal[1..], true)
  }

  function Payloads(nals: seq<Nal>): seq<Payload> {
    if nals == [] then [] else UnitPayloads(nals[0]) + Payloads(nals[1..])
  }

  function BigEndian32(n: uint32): (r: seq<byte>)
    ensures |r| == 4
  {
    BigEndian16(n / 0x1_0000) + BigEndian16(n % 0x1_0000)
  }

  function BigEndian16(n: uint16): (r: seq<byte>)
    ensures |r| == 2
  {
    [n / 0x100, n % 0x100]
  }

  /** A packet as it is queued: its sequence number is still zero. */
  function MakePacket(payload: Payload, timestamp: uint32, marker: bool): (r: Packet)
    ensures |r| == 12 + |payload|
  {
    [0x80, PAYLOAD_TYPE + (if marker then 128 else 0), 0, 0] + BigEndian32(timestamp) + BigEndian32(SSRC) + payload
  }

  /** The pacer writes the sequence number just before sending. */
  function Stamp(packet: Packet, sequence: uint16): (r: Packet)
    ensures |r| == |packet|
  {
    packet[2 := sequence / 0x100][3 := sequence % 0x100]
  }

  /** The packets of an access unit; only the last one carries the marker bit. */
  function Packets(payloads: seq<Payload>, timestamp: uint32): (r: seq<Packet>)
    ensures |r| == |payloads|
  {
    seq(|payloads|, k requires 0 <= k < |payloads| => MakePacket(payloads[k], timestamp, k == |payloads| - 1))
  }

  // ----- the receiver -----

  datatype Header = Header(marker: bool, payloadType: nat, sequence: uint16, timestamp: uint32, ssrc: uint32)

  function Read16(packet: seq<byte>, at: nat): uint16
    requires at + 2 <= |packet|
  {
    var high: int, low: int := packet[at], packet[at + 1];
    high * 0x100 + low
  }

  function Read32(packet: seq<byte>, at: nat): uint32
    requires at + 4 <= |packet|
  {
    Read16(packet, at) as int * 0x1_0000 + Read16(packet, at + 2)
  }

  function ParseHeader(packet: Packet): Header {
    Header(packet[1] >= 128, packet[1] % 128, Read16(packet, 2), Read32(packet, 4), Read32(packet, 8))
  }

  /** A receiver in the middle of an access unit: the units it has, and the one it is collecting. */
  datatype Receiver = Receiving(units: seq<Nal>, partial: seq<byte>) | Rejected

  /** Single NAL unit packets carry types 1 to 23; a fragment is accepted only in order. */
  function Receive(r: Receiver, payload: Payload): Receiver {
    if r.Rejected? || payload == [] then Rejected
    else if 1 <= NalType(payload[0]) <= 23 then
      if r.partial == [] then Receiving(r.units + [payload], []) else Rejected
    else if NalType(payload[0]) == FU_A && |payload| > 2 && !(StartBit(payload[1]) && EndBit(payload[1])) then
      var header: byte := TopBits(payload[0]) + NalType(payload[1]);
      if StartBit(payload[1]) != (r.partial == []) then Rejected
      else if r.partial != [] && r.partial[0] != header then Rejected
      else
        var nal := (if r.partial == [] then [header] else r.partial) + payload[2..];
        if EndBit(payload[1]) then Receiving(r.units + [nal], []) else Receiving(r.units, nal)
    else Rejected
  }

  function ReceiveAll(r: Receiver, payloads: seq<Payload>): Receiver
    decreases |payloads|
  {
    if payloads == [] then r else ReceiveAll(Receive(r, payloads[0]), payloads[1..])
  }

  lemma {:induction false} ReceiveInTwoParts(r: Receiver, a: seq<Payload>, b: seq<Payload>)
    ensures ReceiveAll(r, a + b) == ReceiveAll(ReceiveAll(r, a), b)
    decreases |a|
  {
    if a == [] {
      assert a + b == b;
    } else {
      assert (a + b)[1..] == a[1..] + b;
      ReceiveInTwoParts(Receive(r, a[0]), a[1..], b);
    }
  }

  // ----- round trip -----

  function Collected(nalHeader: byte, done: seq<byte>): seq<byte> {
    if done == [] then [] else [nalHeader] + done
  }

  lemma FragmentHeader(nalHeader: byte, body: seq<byte>, first: bool, last: bool)
    requires body != [] && !(first && last)
    ensures var f := Fragment(nalHeader, body, first, last);
            && |f| > 2 && NalType(f[0]) == FU_A && StartBit(f[1]) == first && EndBit(f[1]) == last
            && TopBits(f[0]) + NalType(f[1]) == nalHeader && f[2..] == body
  {
  }

  lemma ReceiveFragment(units: seq<Nal>, nalHeader: byte, done: seq<byte>, body: seq<byte>, last: bool)
    requires body != [] && !(done == [] && last)
    ensures Receive(Receiving(units, Collected(nalHeader, done)), Fragment(nalHeader, body, done == [], last))
         == if last then Receiving(units + [[nalHeader] + (done + body)], [])
            else Receiving(units, Collected(nalHeader, done + body))
  {
    hide NalType, TopBits, StartBit, EndBit, Fragment;
    FragmentHeader(nalHeader, body, done == [], last);
    Sequences.Associative([nalHeader], done, body);
    assert done == [] ==> done + body == body;
  }

  lemma ReceiveOne(r: Receiver, p: Payload)
    ensures ReceiveAll(r, [p]) == Receive(r, p)
  {
    assert ReceiveAll(r, [p]) == ReceiveAll(Receive(r, p), [p][1..]);
  }

  /** Received in a row, the fragments of a unit put it together again. */
  lemma {:induction false} FragmentsRoundTrip(units: seq<Nal>, nalHeader: byte, done: seq<byte>, rest: seq<byte>)
    requires rest != [] && (done == [] ==> |rest| > FRAGMENT_PAYLOAD)
    ensures ReceiveAll(Receiving(units, Collected(nalHeader, done)), Fragments(nalHeader, rest, done == []))
         == Receiving(units + [[nalHeader] + (done + rest)], [])
    decreases |rest|
  {
    var r := Receiving(units, Collected(nalHeader, done));
    if |rest| <= FRAGMENT_PAYLOAD {
      ReceiveFragment(units, nalHeader, done, rest, true);
      ReceiveOne(r, Fragment(nalHeader, rest, false, true));
    } else {
      var body, more := rest[..FRAGMENT_PAYLOAD], rest[FRAGMENT_PAYLOAD..];
      var f := Fragment(nalHeader, body, done == [], false);
      ReceiveFragment(units, nalHeader, done, body, false);
      ReceiveOne(r, f);
      ReceiveInTwoParts(r, [f], Fragments(nalHeader, more, false));
      FragmentsRoundTrip(units, nalHeader, done + body, more);
      Sequences.Associative(done, body, more);
      Sequences.TakeDrop(rest, FRAGMENT_PAYLOAD);
    }
  }

  lemma UnitRoundTrip(units: seq<Nal>, nal: Nal)
    requires nal != [] && 1 <= NalType(nal[0]) <= 23
    ensures ReceiveAll(Receiving(units, []), UnitPayloads(nal)) == Receiving(units + [nal], [])
  {
    if |nal| <= MAXIMUM_PAYLOAD {
      ReceiveOne(Receiving(units, []), nal);
    } else {
      FragmentsRoundTrip(units, nal[0], [], nal[1..]);
      assert [nal[0]] + ([] + nal[1..]) == nal;
    }
  }

  /** Receiving the payloads of any list of nonempty units of types 1 to 23 gives back that list. */
  lemma {:induction false} RoundTrip(units: seq<Nal>, nals: seq<Nal>)
    requires forall k :: 0 <= k < |nals| ==> nals[k] != [] && 1 <= NalType(nals[k][0]) <= 23
    ensures ReceiveAll(Receiving(units, []), Payloads(nals)) == Receiving(units + nals, [])
    decreases |nals|
  {
    if nals == [] {
      assert units + nals == units;
    } else {
      UnitRoundTrip(units, nals[0]);
      RoundTrip(units + [nals[0]], nals[1..]);
      ReceiveInTwoParts(Receiving(units, []), UnitPayloads(nals[0]), Payloads(nals[1..]));
      Sequences.Associative(units, [nals[0]], nals[1..]);
      assert [nals[0]] + nals[1..] == nals;
    }
  }

  /** Sizes: every payload fits, no fragment is both first and last, and a unit of n > 1200 bytes
      takes ceil((n - 1) / 1198) packets. */
  lemma {:induction false} FragmentSizes(nalHeader: byte, rest: seq<byte>, first: bool)
    requires rest != [] && (first ==> |rest| > FRAGMENT_PAYLOAD)
    ensures |Fragments(nalHeader, rest, first)| == (|rest| + 1198 - 1) / 1198
    ensures forall p :: p in Fragments(nalHeader, rest, first) ==>
              && 2 < |p| <= 1200 && NalType(p[0]) == 28
              && !(StartBit(p[1]) && EndBit(p[1]))
    decreases |rest|
  {
    FragmentIsSmall(nalHeader, rest, first);
    hide NalType, StartBit, EndBit;
    if |rest| > FRAGMENT_PAYLOAD {
      FragmentSizes(nalHeader, rest[FRAGMENT_PAYLOAD..], false);
    }
  }

  lemma FragmentIsSmall(nalHeader: byte, rest: seq<byte>, first: bool)
    requires rest != [] && (first ==> |rest| > FRAGMENT_PAYLOAD)
    ensures var p := Fragments(nalHeader, rest, first)[0];
            && 2 < |p| <= MAXIMUM_PAYLOAD && NalType(p[0]) == FU_A
            && !(StartBit(p[1]) && EndBit(p[1]))
  {
  }

  lemma UnitSizes(nal: Nal)
    ensures 0 < |nal| <= 1200 ==> UnitPayloads(nal) == [nal]
    ensures |nal| > 1200 ==>
              |UnitPayloads(nal)| == (|nal| - 1 + 1198 - 1) / 1198 >= 2
    ensures forall p :: p in UnitPayloads(nal) ==> 0 < |p| <= 1200
  {
    if |nal| > MAXIMUM_PAYLOAD {
      FragmentSizes(nal[0], nal[1..], true);
    }
  }

  lemma {:induction false} PayloadSizes(nals: seq<Nal>)
    ensures forall p :: p in Payloads(nals) ==> 0 < |p| <= 1200
  {
    if nals != [] {
      UnitSizes(nals[0]);
      PayloadSizes(nals[1..]);
    }
  }

  lemma BigEndianRoundTrip(n: uint32)
    ensures Read32(BigEndian32(n), 0) == n
  {
  }

  lemma Read32Behind(front: seq<byte>, field: seq<byte>, back: seq<byte>)
    requires |field| == 4
    ensures Read32(front + field + back, |front|) == Read32(field, 0)
  {
    var p := front + field + back;
    assert forall k :: 0 <= k < 4 ==> p[|front| + k] == field[k];
  }

  lemma QueuedPacket(payload: Payload, timestamp: uint32, marker: bool)
    ensures var p := MakePacket(payload, timestamp, marker);
            && ParseHeader(p) == Header(marker, PAYLOAD_TYPE, 0, timestamp, SSRC)
            && p[12..] == payload
            && p[0] == 0x80
  {
    var front: seq<byte> := [0x80, PAYLOAD_TYPE + (if marker then 128 else 0), 0, 0];
    var stamp, source := BigEndian32(timestamp), BigEndian32(SSRC);
    var p := MakePacket(payload, timestamp, marker);
    BigEndianRoundTrip(timestamp);
    BigEndianRoundTrip(SSRC);
    Read32Behind(front, stamp, source + payload);
    Read32Behind(front + stamp, source, payload);
    assert p == front + stamp + (source + payload);
  }

  /** Header and payload survive, whatever sequence number the pacer writes. */
  lemma PacketRoundTrip(payload: Payload, timestamp: uint32, marker: bool, sequence: uint16)
    ensures var p := Stamp(MakePacket(payload, timestamp, marker), sequence);
            && ParseHeader(p) == Header(marker, 96, sequence, timestamp, 0x58474332)
            && p[12..] == payload
            && p[0] == 0x80
  {
    var q := MakePacket(payload, timestamp, marker);
    var p := Stamp(q, sequence);
    QueuedPacket(payload, timestamp, marker);
    assert p[12..] == q[12..];
    assert Read16(p, 2) == sequence;
    assert Read32(p, 4) == Read32(q, 4) && Read32(p, 8) == Read32(q, 8);
  }

  /** Strips the headers of packets as they were sent. */
  function Stripped(packets: seq<Packet>): seq<Payload> {
    seq(|packets|, k requires 0 <= k < |packets| => packets[k][12..])
  }

  lemma WireRoundTrip(nals: seq<Nal>, timestamp: uint32, sequences: seq<uint16>, wire: seq<Packet>)
    requires forall k :: 0 <= k < |nals| ==> nals[k] != [] && 1 <= NalType(nals[k][0]) <= 23
    requires |sequences| == |wire| == |Payloads(nals)|
    requires forall k :: 0 <= k < |wire| ==> wire[k] == Stamp(Packets(Payloads(nals), timestamp)[k], sequences[k])
    ensures ReceiveAll(Receiving([], []), Stripped(wire)) == Receiving(nals, [])
    ensures forall k :: 0 <= k < |wire| ==>
              ParseHeader(wire[k]) == Header(k == |wire| - 1, PAYLOAD_TYPE, sequences[k], timestamp, SSRC)
  {
    var payloads := Payloads(nals);
    forall k | 0 <= k < |wire|
      ensures wire[k][12..] == payloads[k]
      ensures ParseHeader(wire[k]) == Header(k == |wire| - 1, PAYLOAD_TYPE, sequences[k], timestamp, SSRC)
    {
      PacketRoundTrip(payloads[k], timestamp, k == |payloads| - 1, sequences[k]);
    }
    assert Stripped(wire) == payloads;
    RoundTrip([], nals);
    assert [] + nals == nals;
  }

  /** From the encoder's buffer to the receiver: if all packets of an access unit arrive, in order and
      under whatever sequence numbers, the receiver has exactly the encoder's units, and knows from the
      marker bits where the access unit ends. */
  lemma AccessUnitRoundTrip(data: seq<byte>, timestamp: uint32, sequences: seq<uint16>, wire: seq<Packet>)
    requires forall u :: u in Split(data) && u != [] ==> 1 <= NalType(u[0]) <= 23
    requires |sequences| == |wire| == |Payloads(Split(data))|
    requires forall k :: 0 <= k < |wire| ==>
               wire[k] == Stamp(Packets(Payloads(Split(data)), timestamp)[k], sequences[k])
    ensures ReceiveAll(Receiving([], []), Stripped(wire)) == Receiving(Split(data), [])
    ensures forall k :: 0 <= k < |wire| ==>
              ParseHeader(wire[k]) == Header(k == |wire| - 1, PAYLOAD_TYPE, sequences[k], timestamp, SSRC)
  {
    SplitAccountsForEveryByte(data);
    var nals := Split(data);
    forall k | 0 <= k < |nals|
      ensures nals[k] != [] && 1 <= NalType(nals[k][0]) <= 23
    {
      assert nals[k] in nals;
    }
    WireRoundTrip(nals, timestamp, sequences, wire);
  }

  // ----- the loops of the source -----

  /** Fails on an empty or an oversized payload. */
  method AppendRTPPacket(packets: seq<Packet>, payload: Payload, timestamp: uint32, marker: bool)
    returns (ok: bool, more: seq<Packet>)
    ensures ok == (0 < |payload| <= MAXIMUM_PAYLOAD)
    ensures more == if ok then packets + [MakePacket(payload, timestamp, marker)] else packets
  {
    if |payload| == 0 || |payload| > MAXIMUM_PAYLOAD { return false, packets; }
    var packet: seq<byte> := [0x80, if marker then PAYLOAD_TYPE + 0x80 else PAYLOAD_TYPE, 0, 0];
    packet := packet + BigEndian32(timestamp) + BigEndian32(SSRC) + payload;
    return true, packets + [packet];
  }

  /** Packets of a prefix of the units: the marker is on the last one only if the unit list is done. */
  ghost predicate Packed(packets: seq<Packet>, payloads: seq<Payload>, timestamp: uint32, marked: bool) {
    && |packets| == |payloads|
    && forall k :: 0 <= k < |packets| ==>
         packets[k] == MakePacket(payloads[k], timestamp, marked && k == |payloads| - 1)
  }

  lemma PayloadsSnoc(nals: seq<Nal>, index: nat)
    requires index < |nals|
    ensures Payloads(nals[..index + 1]) == Payloads(nals[..index]) + UnitPayloads(nals[index])
  {
    if index == 0 {
      assert nals[..1] == [nals[0]];
      assert Payloads([nals[0]]) == UnitPayloads(nals[0]) + Payloads([nals[0]][1..]);
    } else {
      assert nals[..index + 1][1..] == nals[1..][..index];
      assert nals[..index][1..] == nals[1..][..index - 1];
      PayloadsSnoc(nals[1..], index - 1);
      Sequences.Associative(UnitPayloads(nals[0]), Payloads(nals[1..][..index - 1]), UnitPayloads(nals[index]));
    }
  }

  /** Empty units are skipped; the marker is set on the last packet of a nonempty last unit. */
  method PacketizeAccessUnit(nalUnits: seq<Nal>, timestamp: uint32) returns (packets: seq<Packet>)
    ensures Packed(packets, Payloads(nalUnits), timestamp, nalUnits != [] && nalUnits[|nalUnits| - 1] != [])
    ensures nalUnits != [] && nalUnits[|nalUnits| - 1] != [] ==> packets == Packets(Payloads(nalUnits), timestamp)
  {
    packets := [];
    var index := 0;
    while index < |nalUnits|
      invariant 0 <= index <= |nalUnits|
      invariant Packed(packets, Payloads(nalUnits[..index]), timestamp,
                       0 < index == |nalUnits| && nalUnits[index - 1] != [])
    {
      var nal := nalUnits[index];
      var lastNAL := index + 1 == |nalUnits|;
      ghost var before := Payloads(nalUnits[..index]);
      PayloadsSnoc(nalUnits, index);
      index := index + 1;
      if nal == [] {
        assert before + [] == before;
        continue;
      }
      if |nal| <= MAXIMUM_PAYLOAD {
        var ok, more := AppendRTPPacket(packets, nal, timestamp, lastNAL);
        packets := more;
      } else {
        packets := AppendFragments(packets, before, nal, timestamp, lastNAL);
      }
    }
    assert nalUnits[..index] == nalUnits;
  }

  method AppendFragments(queued: seq<Packet>, ghost before: seq<Payload>, nal: Nal, timestamp: uint32, lastNAL: bool)
    returns (packets: seq<Packet>)
    requires |nal| > MAXIMUM_PAYLOAD
    requires Packed(queued, before, timestamp, false)
    ensures Packed(packets, before + UnitPayloads(nal), timestamp, lastNAL)
  {
    hide Fragments, MakePacket;
    packets := queued;
    var nalHeader := nal[0];
    var fuIndicator: byte := TopBits(nalHeader) + FU_A;
    var offset := 1;
    var first := true;
    ghost var sent: seq<Payload>, all := [], before;
    assert before + [] == before;
    while offset < |nal|
      invariant 1 <= offset <= |nal|
      invariant first == (offset == 1)
      invariant sent + Fragments(nalHeader, nal[offset..], first) == UnitPayloads(nal)
      invariant all == before + sent
      invariant Packed(packets, all, timestamp, lastNAL && offset == |nal|)
    {
      var count := if FRAGMENT_PAYLOAD <= |nal| - offset then FRAGMENT_PAYLOAD else |nal| - offset;
      var last := offset + count == |nal|;
      var fragment := [fuIndicator, FuHeader(nalHeader, first, last)] + nal[offset..offset + count];
      var ok, more := AppendRTPPacket(packets, fragment, timestamp, lastNAL && last);
      all := FragmentStep(before, sent, nalHeader, nal, offset, count, first, fragment);
      packets, sent := more, sent + [fragment];
      offset := offset + count;
      first := false;
    }
    NothingLeft(nalHeader, nal[offset..]);
    assert sent == UnitPayloads(nal);
  }

  lemma NothingLeft(nalHeader: byte, rest: seq<byte>)
    requires rest == []
    ensures Fragments(nalHeader, rest, false) == []
  {
  }

  lemma FragmentStep(before: seq<Payload>, sent: seq<Payload>, nalHeader: byte, nal: Nal, offset: nat, count: nat,
                     first: bool, f: Payload)
    returns (all: seq<Payload>)
    requires 0 < offset < |nal|
    requires count == if FRAGMENT_PAYLOAD <= |nal| - offset then FRAGMENT_PAYLOAD else |nal| - offset
    requires f == Fragment(nalHeader, nal[offset..offset + count], first, offset + count == |nal|)
    ensures all == before + (sent + [f]) == (before + sent) + [f]
    ensures sent + Fragments(nalHeader, nal[offset..], first)
         == (sent + [f]) + Fragments(nalHeader, nal[offset + count..], false)
  {
    all := before + (sent + [f]);
    Sequences.Associative(before, sent, [f]);
    var rest := nal[offset..];
    assert rest[..count] == nal[offset..offset + count] && rest[count..] == nal[offset + count..];
    if |rest| <= FRAGMENT_PAYLOAD {
      assert rest[..count] == rest;
    }
    assert Fragments(nalHeader, rest, first) == [f] + Fragments(nalHeader, rest[count..], false);
    Sequences.Associative(sent, [f], Fragments(nalHeader, rest[count..], false));
  }
}
