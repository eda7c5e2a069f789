/** The table of camera sources of one control host: sixteen places, found by identifier. */
module SourceHost {
  import opened Wrappers

  const SOURCES := 16

  predicate SafeCharacter(c: char) {
    'a' <= c <= 'z' || 'A' <= c <= 'Z' || '0' <= c <= '9' || c == '-' || c == '_' || c == '.'
  }

  predicate SafeSourceIdentifier(value: string) {
    value != "" && |value| <= 128 && forall i :: 0 <= i < |value| ==> SafeCharacter(value[i])
  }

  /** An identifier has 1 to 128 characters: digits, letters, hyphens, dots and underscores of ASCII. */
  lemma SafeIdentifiers(value: string)
    ensures SafeSourceIdentifier(value) <==>
              && 1 <= |value| <= 128
              && forall i :: 0 <= i < |value| ==>
                   var c := value[i] as int;
                   48 <= c <= 57 || 65 <= c <= 90 || 97 <= c <= 122 || c == 45 || c == 46 || c == 95
  {
  }

  /** A free place has the empty identifier. `handler` stands for the callbacks of the source. */
  datatype Source = Source(id: string, handler: nat)

  const FREE := Source("", 0)

  /** No identifier is registered twice. */
  predicate Distinct(sources: seq<Source>) {
    forall i, j :: 0 <= i < j < |sources| && sources[i].id != "" ==> sources[i].id != sources[j].id
  }

  function Roster(sources: seq<Source>): set<string> {
    set i | 0 <= i < |sources| && sources[i].id != "" :: sources[i].id
  }

  function Registered(sources: seq<Source>): nat {
    if sources == [] then 0
    else Registered(sources[..|sources| - 1]) + (if sources[|sources| - 1].id == "" then 0 else 1)
  }

  lemma RosterLast(sources: seq<Source>, last: Source)
    ensures Roster(sources + [last]) == Roster(sources) + (if last.id == "" then {} else {last.id})
  {
    var all, n := sources + [last], |sources|;
    forall id | id in Roster(sources) ensures id in Roster(all) {
      var i :| 0 <= i < n && sources[i].id == id && id != "";
      assert all[i].id == id;
    }
    assert last.id != "" ==> all[n].id in Roster(all);
    forall id | id in Roster(all) ensures id in Roster(sources) || (last.id != "" && id == last.id) {
      var i :| 0 <= i < |all| && all[i].id == id && id != "";
      assert i < n ==> sources[i].id == id;
    }
  }

  lemma {:induction false} RosterSize(sources: seq<Source>)
    requires Distinct(sources)
    ensures |Roster(sources)| == Registered(sources)
    decreases |sources|
  {
    if sources != [] {
      var n := |sources| - 1;
      var before := sources[..n];
      RosterSize(before);
      assert before + [sources[n]] == sources;
      RosterLast(before, sources[n]);
      assert sources[n].id != "" ==> sources[n].id !in Roster(before);
    }
  }

  /** A place is free exactly if fewer sources are registered than there are places. */
  lemma {:induction false} FreePlace(sources: seq<Source>)
    ensures Registered(sources) <= |sources|
    ensures Registered(sources) < |sources| <==> exists i :: 0 <= i < |sources| && sources[i].id == ""
    decreases |sources|
  {
    if sources != [] {
      var n := |sources| - 1;
      var before := sources[..n];
      FreePlace(before);
      if i :| 0 <= i < |before| && before[i].id == "" {
        assert sources[i].id == "";
      }
    }
  }

  datatype Registration = Accepted | InvalidIdentifier | Duplicate | Exhausted

  class CameraSourceControlHost {
    const sources: array<Source>

    ghost predicate Valid()
      reads sources
    {
      sources.Length == SOURCES && Distinct(sources[..])
    }

    constructor ()
      ensures Valid() && fresh(sources) && Roster(sources[..]) == {}
    {
      sources := new Source[SOURCES](_ => FREE);
    }

    /** Takes the first free place, unless the identifier is malformed or taken or there is none. */
    method Register(id: string, handler: nat) returns (result: Registration)
      requires Valid()
      modifies sources
      ensures Valid()
      ensures result == InvalidIdentifier <==> !SafeSourceIdentifier(id)
      ensures result == Duplicate <==> SafeSourceIdentifier(id) && id in old(Roster(sources[..]))
      ensures result == Accepted <==> SafeSourceIdentifier(id) && id !in old(Roster(sources[..]))
                                      && |old(Roster(sources[..]))| < 16
      ensures result == Accepted ==>
                && Roster(sources[..]) == old(Roster(sources[..])) + {id}
                && exists k :: 0 <= k < SOURCES && old(sources[k]).id == ""
                               && sources[..] == old(sources[..])[k := Source(id, handler)]
      ensures result != Accepted ==> sources[..] == old(sources[..])
    {
      if !SafeSourceIdentifier(id) { return InvalidIdentifier; }
      ghost var was := sources[..];
      var k := 0;
      while k < sources.Length
        invariant k <= SOURCES && sources[..] == was
        invariant forall j :: 0 <= j < k ==> sources[j].id != id
      {
        if sources[k].id == id {
          assert was[k].id in Roster(was);
          return Duplicate;
        }
        k := k + 1;
      }
      RosterSize(was);
      FreePlace(was);
      k := 0;
      while k < sources.Length
        invariant k <= SOURCES && sources[..] == was
        invariant forall j :: 0 <= j < k ==> sources[j].id != ""
      {
        if sources[k].id == "" {
          assert was[k].id == "";
          sources[k] := Source(id, handler);
          assert sources[..] == was[k := Source(id, handler)];
          RosterWith(was, k, Source(id, handler));
          return Accepted;
        }
        k := k + 1;
      }
      assert forall i :: 0 <= i < |was| ==> was[i].id != "";
      return Exhausted;
    }

    /** Frees the place of the source; an identifier that is not registered changes nothing. */
    method Unregister(id: string)
      requires Valid()
      modifies sources
      ensures Valid()
      ensures forall k :: 0 <= k < SOURCES ==>
                sources[k].id == (if old(sources[k]).id == id then "" else old(sources[k]).id)
                && (old(sources[k]).id != id ==> sources[k] == old(sources[k]))
      ensures Roster(sources[..]) == old(Roster(sources[..])) - {id}
    {
      var k := 0;
      while k < sources.Length
        invariant k <= SOURCES
        invariant forall j :: k <= j < SOURCES ==> sources[j] == old(sources[j])
        invariant forall j :: 0 <= j < k ==>
                    sources[j] == if old(sources[j]).id == id then FREE else old(sources[j])
      {
        if sources[k].id == id { sources[k] := FREE; }
        k := k + 1;
      }
      RosterWithout(old(sources[..]), sources[..], id);
    }

    /** The source a request is dispatched to. */
    method Find(id: string) returns (handler: Option<nat>)
      requires Valid()
      ensures handler.Some? <==> SafeSourceIdentifier(id) && id in Roster(sources[..])
      ensures handler.Some? ==> Source(id, handler.value) in sources[..]
    {
      if !SafeSourceIdentifier(id) { return None; }
      var k := 0;
      while k < sources.Length
        invariant k <= SOURCES
        invariant forall j :: 0 <= j < k ==> sources[j].id != id
      {
        if sources[k].id == id {
          assert sources[..][k].id in Roster(sources[..]) && sources[..][k] == Source(id, sources[k].handler);
          return Some(sources[k].handler);
        }
        k := k + 1;
      }
      return None;
    }
  }

  lemma RosterWith(was: seq<Source>, k: nat, source: Source)
    requires k < |was| && was[k].id == "" && source.id != "" && source.id !in Roster(was) && Distinct(was)
    ensures Roster(was[k := source]) == Roster(was) + {source.id} && Distinct(was[k := source])
  {
    var now := was[k := source];
    forall id | id in Roster(was) + {source.id} ensures id in Roster(now) {
      if id == source.id {
        assert now[k].id == id;
      } else {
        var i :| 0 <= i < |was| && was[i].id == id && id != "";
        assert now[i].id == id;
      }
    }
    forall i | 0 <= i < |was| && was[i].id != "" ensures was[i].id in Roster(was) {}
  }

  lemma RosterWithout(was: seq<Source>, now: seq<Source>, id: string)
    requires |was| == |now|
    requires forall k :: 0 <= k < |was| ==> now[k] == if was[k].id == id then FREE else was[k]
    ensures Roster(now) == Roster(was) - {id}
  {
    forall x | x in Roster(was) && x != id ensures x in Roster(now) {
      var i :| 0 <= i < |was| && was[i].id == x && x != "";
      assert now[i].id == x;
    }
  }
}
