/** The Annex B byte stream of ITU-T H.264 (section B.1.1) as the camera source reads it:
    an index scan for start codes, and the cutting of a buffer into NAL units. */
module AnnexB {
  import Sequences

  type byte = b: int | 0 <= b < 256
  type Nal = seq<byte>

  const CODE3: seq<byte> := [0, 0, 1]
  const CODE4: seq<byte> := [0, 0, 0, 1]

  /** Length of the start code at the front of `s`, 0 if there is none. */
  function CodeLength(s: seq<byte>): (n: nat)
    ensures n == 0 || n == 3 || n == 4
    ensures n <= |s|
  {
    if |s| >= 3 && s[0] == 0 && s[1] == 0 && s[2] == 1 then 3
    else if |s| >= 4 && s[0] == 0 && s[1] == 0 && s[2] == 0 && s[3] == 1 then 4
    else 0
  }

  /** How many bytes precede the first start code of `s` (all of them if there is none). */
  function Scan(s: seq<byte>): (n: nat)
    ensures n <= |s|
  {
    if s == [] || CodeLength(s) > 0 then 0 else 1 + Scan(s[1..])
  }

  /** `n` is the offset of the first start code, or the length if there is none. */
  ghost predicate FirstCodeAt(s: seq<byte>, n: nat) {
    && n <= |s|
    && (n < |s| ==> CodeLength(s[n..]) > 0)
    && forall i :: 0 <= i < n ==> CodeLength(s[i..]) == 0
  }

  lemma {:induction false} ScanFindsFirstCode(s: seq<byte>)
    ensures FirstCodeAt(s, Scan(s))
  {
    if s == [] || CodeLength(s) > 0 {
      assert s[0..] == s;
    } else {
      var t, m := s[1..], Scan(s[1..]);
      ScanFindsFirstCode(t);
      assert s[m + 1..] == t[m..];
      forall i | 0 <= i < m + 1
        ensures CodeLength(s[i..]) == 0
      {
        assert s[i..] == if i == 0 then s else t[i - 1..];
      }
    }
  }

  lemma FirstCodeIsUnique(s: seq<byte>, m: nat, n: nat)
    requires FirstCodeAt(s, m) && FirstCodeAt(s, n)
    ensures m == n
  {
    assert m < |s| ==> CodeLength(s[m..]) > 0;
    assert n < |s| ==> CodeLength(s[n..]) > 0;
  }

  /** One start code and the bytes up to the next one. */
  datatype Segment = Segment(code: seq<byte>, body: Nal)

  function Head(s: seq<byte>): Segment {
    var c := CodeLength(s);
    Segment(s[..c], s[c..][..Scan(s[c..])])
  }

  function Tail(s: seq<byte>): (t: seq<byte>)
    ensures t == [] || CodeLength(t) > 0
    ensures CodeLength(s) > 0 ==> |t| < |s|
  {
    var c := CodeLength(s);
    ScanFindsFirstCode(s[c..]);
    s[c..][Scan(s[c..])..]
  }

  /** Cuts a buffer that begins with a start code (or is empty) into segments. */
  function Segments(s: seq<byte>): (r: seq<Segment>)
    requires s == [] || CodeLength(s) > 0
    decreases |s|
  {
    if s == [] then [] else [Head(s)] + Segments(Tail(s))
  }

  function Bodies(segments: seq<Segment>): (r: seq<Nal>)
  {
    if segments == [] then [] else
      (if segments[0].body == [] then [] else [segments[0].body]) + Bodies(segments[1..])
  }

  function Flatten(segments: seq<Segment>): seq<byte>
  {
    if segments == [] then [] else segments[0].code + segments[0].body + Flatten(segments[1..])
  }

  /** The NAL units of a buffer: what precedes the first start code is skipped, empty units are dropped. */
  function Split(s: seq<byte>): seq<Nal> {
    ScanFindsFirstCode(s);
    Bodies(Segments(s[Scan(s)..]))
  }

  /** 00 00 01 occurs somewhere in `s`. */
  predicate ContainsCode(s: seq<byte>) {
    exists i :: 0 <= i <= |s| - 3 && s[i] == 0 && s[i + 1] == 0 && s[i + 2] == 1
  }

  lemma ScanStopsAtCode(s: seq<byte>, n: nat)
    requires n <= Scan(s)
    ensures !ContainsCode(s[..n])
  {
    var t := s[..n];
    ScanFindsFirstCode(s);
    forall i | 0 <= i <= |t| - 3
      ensures !(t[i] == 0 && t[i + 1] == 0 && t[i + 2] == 1)
    {
      var u := s[i..];
      assert CodeLength(u) == 0 && u[0] == t[i] && u[1] == t[i + 1] && u[2] == t[i + 2];
    }
  }

  lemma HeadAndTail(s: seq<byte>)
    requires CodeLength(s) > 0
    ensures s == Head(s).code + Head(s).body + Tail(s)
    ensures Head(s).code in {CODE3, CODE4} && !ContainsCode(Head(s).body)
  {
    var c := CodeLength(s);
    assert s[..c] == if c == 3 then CODE3 else CODE4;
    ScanStopsAtCode(s[c..], Scan(s[c..]));
  }

  lemma FlattenCons(g: Segment, rest: seq<Segment>)
    ensures Flatten([g] + rest) == g.code + g.body + Flatten(rest)
  {
    assert ([g] + rest)[1..] == rest;
  }

  lemma BodiesCons(g: Segment, rest: seq<Segment>)
    ensures Bodies([g] + rest) == (if g.body == [] then [] else [g.body]) + Bodies(rest)
  {
    assert ([g] + rest)[1..] == rest;
  }

  /** Nothing is lost or moved: codes and bodies in order are the buffer; every code is a start code
      and no body contains one. */
  lemma {:induction false} SegmentsPartition(s: seq<byte>)
    requires s == [] || CodeLength(s) > 0
    ensures Flatten(Segments(s)) == s
    ensures forall g :: g in Segments(s) ==> g.code in {CODE3, CODE4} && !ContainsCode(g.body)
    decreases |s|
  {
    if s != [] {
      SegmentsPartition(Tail(s));
      HeadAndTail(s);
      FlattenCons(Head(s), Segments(Tail(s)));
    }
  }

  lemma {:induction false} BodiesAreNonempty(segments: seq<Segment>)
    ensures forall u :: u in Bodies(segments) ==> u != [] && exists g :: g in segments && g.body == u
  {
    if segments != [] {
      BodiesAreNonempty(segments[1..]);
      forall u | u in Bodies(segments)
        ensures u != [] && exists g :: g in segments && g.body == u
      {
        if u in Bodies(segments[1..]) {
          var g :| g in segments[1..] && g.body == u;
          assert g in segments;
        } else {
          assert segments[0] in segments && segments[0].body == u;
        }
      }
    }
  }

  /** For every buffer at all: the units returned are nonempty and free of start codes, and with the
      skipped prefix, the codes and the (possibly empty) bodies they account for every byte. */
  lemma SplitAccountsForEveryByte(s: seq<byte>)
    ensures !ContainsCode(s[..Scan(s)])
    ensures Scan(s) == |s| || CodeLength(s[Scan(s)..]) > 0
    ensures s == s[..Scan(s)] + Flatten(Segments(s[Scan(s)..]))
    ensures forall u :: u in Split(s) ==> u != [] && !ContainsCode(u)
  {
    var n := Scan(s);
    ScanFindsFirstCode(s);
    ScanStopsAtCode(s, n);
    var segments := Segments(s[n..]);
    SegmentsPartition(s[n..]);
    BodiesAreNonempty(segments);
    forall u | u in Split(s)
      ensures u != [] && !ContainsCode(u)
    {
      var g :| g in segments && g.body == u;
    }
    Sequences.TakeDrop(s, n);
  }

  // ----- joining -----

  /** Joins units, the k-th behind a 4-byte start code when `long[k]` and a 3-byte one otherwise. */
  function Join(nals: seq<Nal>, long: seq<bool>): (r: seq<byte>)
    requires |nals| == |long|
    ensures nals == [] ==> r == []
    ensures nals != [] ==> CodeLength(r) == if long[0] then 4 else 3
  {
    if nals == [] then [] else
      (if long[0] then CODE4 else CODE3) + nals[0] + Join(nals[1..], long[1..])
  }

  predicate EndsInZero(s: Nal) { s != [] && s[|s| - 1] == 0 }

  /** A unit ending in 00 is followed only by a 4-byte start code or by the end of the buffer. */
  predicate Unambiguous(nals: seq<Nal>, long: seq<bool>)
    requires |nals| == |long|
  {
    forall k :: 0 <= k < |nals| - 1 && EndsInZero(nals[k]) ==> long[k + 1]
  }

  predicate Joinable(nals: seq<Nal>) {
    forall u :: u in nals ==> u != [] && !ContainsCode(u)
  }

  /** Where the scan stops behind a code-free unit: at its end, or one byte early when its last 00
      runs into a 3-byte start code. */
  lemma ScanOfUnit(u: Nal, rest: seq<byte>)
    requires u != [] && !ContainsCode(u)
    requires rest == [] || CodeLength(rest) > 0
    ensures Scan(u + rest) == if EndsInZero(u) && CodeLength(rest) == 3 then |u| - 1 else |u|
  {
    var s := u + rest;
    var early := EndsInZero(u) && CodeLength(rest) == 3;
    var n := if early then |u| - 1 else |u|;
    forall i | 0 <= i < n
      ensures CodeLength(s[i..]) == 0
    {
      var t := s[i..];
      assert i + 3 <= |u| ==> !(u[i] == 0 && u[i + 1] == 0 && u[i + 2] == 1);
      assert i + 4 <= |u| ==> !(u[i + 1] == 0 && u[i + 2] == 0 && u[i + 3] == 1);
      assert forall k :: 0 <= k < 4 && i + k < |u| ==> t[k] == u[i + k];
      assert forall k :: 0 <= k < 4 && |u| <= i + k < |s| ==> t[k] == rest[i + k - |u|];
    }
    if early {
      assert s[n..] == [0] + rest;
    } else {
      assert s[n..] == rest;
    }
    ScanFindsFirstCode(s);
    FirstCodeIsUnique(s, Scan(s), n);
  }

  /** The bytes of a join behind its first start code. */
  function AfterCode(nals: seq<Nal>, long: seq<bool>): seq<byte>
    requires |nals| == |long| && nals != []
  {
    nals[0] + Join(nals[1..], long[1..])
  }

  lemma HeadAndTailBehind(c: seq<byte>, t: seq<byte>)
    requires c == CODE3 || c == CODE4
    ensures CodeLength(c + t) == |c|
    ensures Head(c + t) == Segment(c, t[..Scan(t)])
    ensures Tail(c + t) == t[Scan(t)..]
  {
    var s := c + t;
    assert s[..|c|] == c && s[|c|..] == t;
    assert s[0] == c[0] && s[1] == c[1] && s[2] == c[2];
    assert |c| == 4 ==> s[3] == c[3];
  }

  lemma SegmentsOfJoin(nals: seq<Nal>, long: seq<bool>)
    requires |nals| == |long| && nals != []
    ensures var s, t := Join(nals, long), AfterCode(nals, long);
            && Head(s) == Segment(if long[0] then CODE4 else CODE3, t[..Scan(t)])
            && Tail(s) == t[Scan(t)..]
  {
    var c := if long[0] then CODE4 else CODE3;
    Sequences.Associative(c, nals[0], Join(nals[1..], long[1..]));
    HeadAndTailBehind(c, AfterCode(nals, long));
  }

  lemma JoinableTail(nals: seq<Nal>)
    requires nals != [] && Joinable(nals)
    ensures nals[0] != [] && !ContainsCode(nals[0]) && Joinable(nals[1..])
  {
    assert nals[0] in nals;
    forall u | u in nals[1..] ensures u in nals {}
  }

  lemma {:induction false} SplitOfJoin(nals: seq<Nal>, long: seq<bool>)
    requires |nals| == |long| && Joinable(nals) && Unambiguous(nals, long)
    ensures Bodies(Segments(Join(nals, long))) == nals
  {
    if nals != [] {
      JoinableTail(nals);
      var rest := Join(nals[1..], long[1..]);
      forall k | 0 <= k < |nals[1..]| - 1 && EndsInZero(nals[1..][k])
        ensures long[1..][k + 1]
      {
        assert EndsInZero(nals[k + 1]);
      }
      SplitOfJoin(nals[1..], long[1..]);
      ScanOfUnit(nals[0], rest);
      SegmentsOfJoin(nals, long);
      var s := AfterCode(nals, long);
      assert s[..|nals[0]|] == nals[0] && s[|nals[0]|..] == rest;
      BodiesCons(Head(Join(nals, long)), Segments(rest));
    }
  }

  /** The units of a join: what the first scan finds, and the units behind it. */
  lemma UnitsOfJoin(nals: seq<Nal>, long: seq<bool>)
    requires |nals| == |long| && nals != []
    ensures var s, n := AfterCode(nals, long), Scan(AfterCode(nals, long));
            && n <= |s| && (s[n..] == [] || CodeLength(s[n..]) > 0)
            && Bodies(Segments(Join(nals, long))) == (if n == 0 then [] else [s[..n]]) + Bodies(Segments(s[n..]))
  {
    var s := AfterCode(nals, long);
    ScanFindsFirstCode(s);
    SegmentsOfJoin(nals, long);
    hide Head, Tail, Scan, CodeLength;
    BodiesCons(Head(Join(nals, long)), Segments(Tail(Join(nals, long))));
  }

  /** A unit that was the single byte 00 is swallowed, and one unit too few is returned. */
  lemma SwallowedUnit(nals: seq<Nal>, long: seq<bool>)
    requires |nals| == |long| && Joinable(nals) && |nals| > 1 && !long[1]
    ensures var t := [0] + Join(nals[1..], long[1..]); CodeLength(t) > 0 && |Bodies(Segments(t))| < |nals|
  {
    var rest := Join(nals[1..], long[1..]);
    JoinableTail(nals);
    ShortJoin(nals[1..], long[1..]);
    SwallowedZero(nals[1..], long[1..]);
    BodiesAreAtMost(Segments([0] + rest));
  }

  /** The first ambiguous unit comes back without its trailing 00 (or not at all). */
  lemma {:induction false} AmbiguousJoinIsMisread(nals: seq<Nal>, long: seq<bool>)
    requires |nals| == |long| && Joinable(nals) && !Unambiguous(nals, long)
    ensures Bodies(Segments(Join(nals, long))) != nals
  {
    hide Bodies, Segments, Scan, CodeLength, ContainsCode, Unambiguous, Joinable, Join;
    AmbiguousIsLong(nals, long);
    JoinableTail(nals);
    var u, rest := nals[0], Join(nals[1..], long[1..]);
    var s := AfterCode(nals, long);
    var n := Scan(s);
    ScanOfUnit(u, rest);
    UnitsOfJoin(nals, long);
    var units := Bodies(Segments(Join(nals, long)));
    if n == |u| {
      assert s[..n] == u && s[n..] == rest;
      LaterAmbiguity(nals, long);
      AmbiguousJoinIsMisread(nals[1..], long[1..]);
      assert units == [u] + Bodies(Segments(rest));
      assert units[1..] == Bodies(Segments(rest));
    } else if n > 0 {
      assert units[0] == s[..n];
    } else {
      assert u == [0] && s[n..] == s == [0] + rest;
      SwallowedUnit(nals, long);
      assert units == Bodies(Segments(s[n..]));
    }
  }

  lemma AmbiguousIsLong(nals: seq<Nal>, long: seq<bool>)
    requires |nals| == |long| && !Unambiguous(nals, long)
    ensures |nals| > 1
  {
  }

  lemma LaterAmbiguity(nals: seq<Nal>, long: seq<bool>)
    requires |nals| == |long| && nals != [] && !Unambiguous(nals, long)
    requires !(EndsInZero(nals[0]) && CodeLength(Join(nals[1..], long[1..])) == 3)
    ensures !Unambiguous(nals[1..], long[1..])
  {
    var k :| 0 <= k < |nals| - 1 && EndsInZero(nals[k]) && !long[k + 1];
    var t, l := nals[1..], long[1..];
    assert EndsInZero(t[k - 1]) && !l[k];
  }

  lemma {:induction false} BodiesAreAtMost(segments: seq<Segment>)
    ensures |Bodies(segments)| <= |segments|
  {
    if segments != [] { BodiesAreAtMost(segments[1..]); }
  }

  lemma ZeroBeforeCode(s: seq<byte>)
    ensures [0] + (CODE3 + s) == CODE4 + s
  {
  }

  /** Behind the first unit comes the rest of the join, or a 00 and the rest with its 3-byte code. */
  lemma BehindUnit(nals: seq<Nal>, long: seq<bool>)
    requires |nals| == |long| && Joinable(nals) && nals != []
    ensures var s, rest := AfterCode(nals, long), Join(nals[1..], long[1..]);
            && Scan(s) <= |s|
            && (s[Scan(s)..] == rest || (|nals| > 1 && !long[1] && s[Scan(s)..] == [0] + rest))
  {
    JoinableTail(nals);
    var u, rest := nals[0], Join(nals[1..], long[1..]);
    ScanOfUnit(u, rest);
    hide Scan, ContainsCode, Joinable;
    assert (u + rest)[|u|..] == rest;
    assert EndsInZero(u) ==> (u + rest)[|u| - 1..] == [0] + rest;
  }

  /** A join has as many segments as units, also with one 00 put before its 3-byte first code. */
  lemma {:induction false} SwallowedZero(nals: seq<Nal>, long: seq<bool>)
    requires |nals| == |long| && Joinable(nals) && nals != []
    ensures |Segments(Join(nals, long))| == |nals|
    ensures !long[0] ==> |Segments([0] + Join(nals, long))| == |nals|
  {
    JoinableTail(nals);
    BehindUnit(nals, long);
    SegmentsOfJoin(nals, long);
    if |nals| > 1 {
      SwallowedZero(nals[1..], long[1..]);
    }
    hide Scan, Joinable, AfterCode, Head, Tail;
    var s := AfterCode(nals, long);
    assert |Segments(s[Scan(s)..])| == |nals| - 1;
    if !long[0] {
      ShortJoin(nals, long);
      HeadAndTailBehind(CODE4, s);
    }
  }

  lemma ShortJoin(nals: seq<Nal>, long: seq<bool>)
    requires |nals| == |long| && nals != [] && !long[0]
    ensures [0] + Join(nals, long) == CODE4 + AfterCode(nals, long)
  {
    ZeroBeforeCode(AfterCode(nals, long));
    Sequences.Associative(CODE3, nals[0], Join(nals[1..], long[1..]));
  }

  /** Splitting undoes joining exactly when the join is unambiguous. */
  lemma SplitInvertsJoin(nals: seq<Nal>, long: seq<bool>)
    requires |nals| == |long| && Joinable(nals)
    ensures Split(Join(nals, long)) == nals <==> Unambiguous(nals, long)
  {
    var s := Join(nals, long);
    assert Scan(s) == 0 && s[0..] == s;
    if Unambiguous(nals, long) {
      SplitOfJoin(nals, long);
    } else {
      AmbiguousJoinIsMisread(nals, long);
    }
  }

  // ----- the loop of the source -----

  /** The start-code test at an offset of the whole buffer. */
  method StartCodeLength(data: seq<byte>, offset: nat) returns (n: nat)
    requires offset <= |data|
    ensures n == CodeLength(data[offset..])
  {
    if offset + 3 <= |data| && data[offset] == 0 && data[offset + 1] == 0 && data[offset + 2] == 1 {
      return 3;
    }
    if offset + 4 <= |data| && data[offset] == 0 && data[offset + 1] == 0 && data[offset + 2] == 0 &&
       data[offset + 3] == 1 {
      return 4;
    }
    return 0;
  }

  /** Advances from an offset to the next start code or the end. */
  method NextCode(data: seq<byte>, from: nat) returns (next: nat)
    requires from <= |data|
    ensures next == from + Scan(data[from..])
  {
    next := from;
    assert data[from..] == data[next..];
    while next < |data|
      invariant from <= next <= |data|
      invariant from + Scan(data[from..]) == next + Scan(data[next..])
    {
      var n := StartCodeLength(data, next);
      if n != 0 { return; }
      assert data[next..][1..] == data[next + 1..];
      next := next + 1;
    }
  }

  method SplitAnnexB(data: seq<byte>) returns (nalUnits: seq<Nal>)
    ensures nalUnits == Split(data)
  {
    nalUnits := [];
    assert data[0..] == data;
    var start := NextCode(data, 0);
    ScanFindsFirstCode(data);
    ghost var remaining := Bodies(Segments(data[start..]));
    while start < |data|
      invariant start <= |data|
      invariant data[start..] == [] || CodeLength(data[start..]) > 0
      invariant remaining == Bodies(Segments(data[start..]))
      invariant nalUnits + remaining == Split(data)
      decreases |data| - start
    {
      var prefix := StartCodeLength(data, start);
      if prefix == 0 { break; }
      var payloadStart := start + prefix;
      var next := NextCode(data, payloadStart);
      ghost var rest := SplitStepAfter(data, start, payloadStart, next, nalUnits);
      if next > payloadStart {
        nalUnits := nalUnits + [data[payloadStart..next]];
      }
      start, remaining := next, rest;
    }
  }

  lemma SplitStep(data: seq<byte>, start: nat, from: nat, next: nat) returns (rest: seq<Nal>)
    requires start < |data| && CodeLength(data[start..]) > 0 && from == start + CodeLength(data[start..])
    requires next == from + Scan(data[from..])
    ensures next <= |data| && (data[next..] == [] || CodeLength(data[next..]) > 0)
    ensures rest == Bodies(Segments(data[next..]))
    ensures Bodies(Segments(data[start..])) == if next > from then [data[from..next]] + rest else rest
  {
    var s := data[start..];
    assert s[CodeLength(s)..] == data[from..];
    assert Head(s).body == data[from..next] && Tail(s) == data[next..];
    rest := Bodies(Segments(Tail(s)));
    BodiesCons(Head(s), Segments(Tail(s)));
  }

  lemma SplitStepAfter(data: seq<byte>, start: nat, from: nat, next: nat, done: seq<Nal>) returns (rest: seq<Nal>)
    requires start < |data| && CodeLength(data[start..]) > 0 && from == start + CodeLength(data[start..])
    requires next == from + Scan(data[from..])
    ensures next <= |data| && (data[next..] == [] || CodeLength(data[next..]) > 0)
    ensures rest == Bodies(Segments(data[next..]))
    ensures done + Bodies(Segments(data[start..]))
         == if next > from then (done + [data[from..next]]) + rest else done + rest
  {
    rest := SplitStep(data, start, from, next);
    Sequences.Associative(done, [data[from..next]], rest);
  }
}
