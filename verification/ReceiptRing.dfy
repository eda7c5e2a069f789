/** The ring of the last terminal receipts and the held observers of one source, and what the ring's
    admission check guarantees about request ids. */
module ReceiptRing {
  import opened Wrappers

  const SLOTS := 32
  const WATCHERS := 4

  datatype Receipt = Receipt(requestId: string, operation: string, completed: bool, eventRevision: nat)

  /** A slot that was never written reads as the empty id. */
  datatype Slot = Blank | Filled(receipt: Receipt)
  {
    function Id(): string { if Blank? then "" else receipt.requestId }
  }

  datatype Watcher = Watcher(after: nat)

  datatype Answer = NoAnswer | Dropped | Status | DeadlineError

  datatype Observation = Ahead | Immediate | Held | Full

  /** Whether an id is among the last 32 receipts; fewer leave slots with the empty id. */
  predicate InWindow(log: seq<Receipt>, id: string) {
    (exists i :: 0 <= i < |log| && |log| - SLOTS <= i && log[i].requestId == id) || (id == "" && |log| < SLOTS)
  }

  /** What a flush does with one observer: a caller that is gone gets nothing, an event is answered before a
      deadline is looked at. */
  function AnswerTo(w: Option<Watcher>, revision: nat, cancelled: bool, due: bool): Answer {
    if w.None? then NoAnswer
    else if cancelled then Dropped
    else if w.value.after < revision then Status
    else if due then DeadlineError
    else NoAnswer
  }

  // ----- observers over whole runs -----

  datatype Observers = Observers(revision: nat, held: seq<Option<Watcher>>)

  /** A request to observe, or a flush that writes receipts and then looks at every observer. */
  datatype Observing = Ask(after: nat) | Flush(closings: nat, cancelled: seq<bool>, due: seq<bool>)

  predicate FirstFree(held: seq<Option<Watcher>>, k: nat) {
    k < |held| && held[k].None? && forall j :: 0 <= j < k ==> held[j].Some?
  }

  function FindFree(held: seq<Option<Watcher>>): (k: nat)
    ensures k <= |held|
    ensures FirstFree(held, k) || (k == |held| && None !in held)
  {
    if held == [] then 0 else if held[0].None? then 0 else 1 + FindFree(held[1..])
  }

  function Asked(o: Observers, after: nat): Observers {
    var k := FindFree(o.held);
    if after == o.revision && k < |o.held| then o.(held := o.held[k := Some(Watcher(after))]) else o
  }

  function Flushed(o: Observers, closings: nat, cancelled: seq<bool>, due: seq<bool>): Observers
    requires |cancelled| == |due| == |o.held|
  {
    var revision := o.revision + closings;
    Observers(revision, seq(|o.held|, k requires 0 <= k < |o.held| =>
      if AnswerTo(o.held[k], revision, cancelled[k], due[k]) == NoAnswer then o.held[k] else None))
  }

  function Observed(o: Observers, e: Observing): Observers {
    match e
    case Ask(after) => Asked(o, after)
    case Flush(closings, cancelled, due) =>
      if |cancelled| == |due| == |o.held| then Flushed(o, closings, cancelled, due) else o
  }

  function ObserverRun(o: Observers, events: seq<Observing>): Observers
    decreases |events|
  {
    if events == [] then o else ObserverRun(Observed(o, events[0]), events[1..])
  }

  /** Every held observer waits at exactly the current revision. */
  predicate AllCurrent(o: Observers) {
    |o.held| == WATCHERS
    && forall k :: 0 <= k < WATCHERS && o.held[k].Some? ==> o.held[k].value.after == o.revision
  }

  lemma {:induction false} ObserversStayCurrent(o: Observers, events: seq<Observing>)
    requires AllCurrent(o)
    ensures AllCurrent(ObserverRun(o, events))
    decreases |events|
  {
    if events != [] {
      ObserversStayCurrent(Observed(o, events[0]), events[1..]);
    }
  }

  const NOBODY := Observers(0, [None, None, None, None])

  /** No held observer misses an event: in every run, the first flush that writes a receipt answers every one
      that was not cancelled, and none is held any longer; a flush without a receipt answers nobody with a
      status. */
  lemma NoEventIsMissed(events: seq<Observing>, closings: nat, cancelled: seq<bool>, due: seq<bool>, k: nat)
    requires |cancelled| == |due| == WATCHERS && k < WATCHERS
    ensures var o := ObserverRun(NOBODY, events);
            && |o.held| == WATCHERS
            && var answer := AnswerTo(o.held[k], o.revision + closings, cancelled[k], due[k]);
               && (answer == Status <==> o.held[k].Some? && closings > 0 && !cancelled[k])
               && (answer == Dropped <==> o.held[k].Some? && cancelled[k])
               && (answer == DeadlineError <==> o.held[k].Some? && closings == 0 && !cancelled[k] && due[k])
               && (answer == NoAnswer ==> Flushed(o, closings, cancelled, due).held[k] == o.held[k])
               && (closings > 0 ==> Flushed(o, closings, cancelled, due).held[k].None?)
  {
    ObserversStayCurrent(NOBODY, events);
  }

  // ----- the methods -----

  class ControlReceipts {
    const controlReceipts: array<Slot>
    const controlWatchers: array<Option<Watcher>>
    var nextControlReceipt: nat
    var controlEventRevision: nat
    ghost var log: seq<Receipt>

    /** The ring holds exactly the last min(32, n) entries of the log. */
    ghost predicate Valid()
      reads this, controlReceipts
    {
      && controlReceipts.Length == SLOTS && controlWatchers.Length == WATCHERS
      && nextControlReceipt == controlEventRevision == |log|
      && (forall i {:trigger log[i]} :: 0 <= i < |log| && |log| - SLOTS <= i ==>
            controlReceipts[i % SLOTS] == Filled(log[i]))
      && (forall k :: |log| <= k < SLOTS ==> controlReceipts[k] == Blank)
      && (forall i {:trigger log[i]} :: 0 <= i < |log| ==> log[i].eventRevision == i + 1)
    }

    /** Every held observer waits at exactly the current revision. */
    ghost predicate Waiting()
      requires controlWatchers.Length == WATCHERS
      reads this, controlWatchers
    {
      forall k :: 0 <= k < WATCHERS && controlWatchers[k].Some? ==>
        controlWatchers[k].value.after == controlEventRevision
    }

    ghost function View(): Observers
      reads this, controlWatchers
    {
      Observers(controlEventRevision, controlWatchers[..])
    }

    constructor ()
      ensures Valid() && View() == NOBODY && log == [] && fresh(controlReceipts) && fresh(controlWatchers) && Waiting()
    {
      controlReceipts := new Slot[SLOTS](_ => Blank);
      controlWatchers := new Option<Watcher>[WATCHERS](_ => None);
      nextControlReceipt, controlEventRevision, log := 0, 0, [];
    }

    method RememberReceipt(requestId: string, operation: string, completed: bool) returns (receipt: Receipt)
      requires Valid()
      modifies this, controlReceipts
      ensures Valid() && log == old(log) + [receipt]
      ensures receipt == Receipt(requestId, operation, completed, controlEventRevision)
      ensures controlEventRevision == old(controlEventRevision) + 1
    {
      controlEventRevision := controlEventRevision + 1;
      receipt := Receipt(requestId, operation, completed, controlEventRevision);
      controlReceipts[nextControlReceipt % SLOTS] := Filled(receipt);
      SlotsDiffer(nextControlReceipt);
      nextControlReceipt := nextControlReceipt + 1;
      log := log + [receipt];
    }

    /** The slot that holds the id, if one does. */
    method FindReceipt(id: string) returns (found: Option<Slot>)
      requires Valid()
      ensures found.Some? <==> InWindow(log, id)
      ensures found.Some? && id != "" ==>
                found.value.Filled? && found.value.receipt.requestId == id && found.value.receipt in log
    {
      var k := 0;
      while k < controlReceipts.Length
        invariant k <= SLOTS
        invariant forall j :: 0 <= j < k ==> controlReceipts[j].Id() != id
      {
        if controlReceipts[k].Id() == id {
          SlotHolds(log, k);
          return Some(controlReceipts[k]);
        }
        k := k + 1;
      }
      assert forall i :: 0 <= i < |log| && |log| - SLOTS <= i ==> controlReceipts[i % SLOTS].Id() == log[i].requestId;
      assert |log| < SLOTS ==> controlReceipts[|log|].Id() == "";
      return None;
    }

    /** An observer of the current revision is held in the first free place; any other gets its answer. */
    method Observe(after: nat) returns (result: Observation)
      requires Valid() && Waiting()
      modifies controlWatchers
      ensures Valid() && Waiting()
      ensures result == Ahead <==> after > controlEventRevision
      ensures result == Immediate <==> after < controlEventRevision
      ensures result == Held <==> after == controlEventRevision && None in old(controlWatchers[..4])
      ensures View() == Asked(old(View()), after)
      ensures result != Held ==> controlWatchers[..] == old(controlWatchers[..])
    {
      if after > controlEventRevision { return Ahead; }
      if after < controlEventRevision { return Immediate; }
      var k := 0;
      while k < controlWatchers.Length
        invariant k <= WATCHERS
        invariant forall j :: 0 <= j < k ==> controlWatchers[j].Some?
        invariant controlWatchers[..] == old(controlWatchers[..])
      {
        if controlWatchers[k].None? {
          assert old(controlWatchers[..])[k] == None;
          assert FirstFree(old(controlWatchers[..]), k);
          OneFirstFree(old(controlWatchers[..]), k, FindFree(old(controlWatchers[..])));
          controlWatchers[k] := Some(Watcher(after));
          return Held;
        }
        k := k + 1;
      }
      return Full;
    }

    /** A flush: the receipts of all requests that ended, then every observer. */
    method FlushControl(closings: seq<(string, string, bool)>, cancelled: seq<bool>, due: seq<bool>)
      returns (answers: seq<Answer>)
      requires Valid() && Waiting() && |cancelled| == |due| == WATCHERS
      modifies this, controlReceipts, controlWatchers
      ensures Valid() && Waiting() && |answers| == WATCHERS
      ensures View() == Flushed(old(View()), |closings|, cancelled, due)
      ensures |log| == |old(log)| + |closings| && old(log) <= log
      ensures forall n :: 0 <= n < |closings| ==>
                log[|old(log)| + n] == Receipt(closings[n].0, closings[n].1, closings[n].2, |old(log)| + n + 1)
      ensures forall k :: 0 <= k < WATCHERS && old(controlWatchers[k]).Some? ==>
                (answers[k] == Status <==> closings != [] && !cancelled[k])
    {
      ghost var before, held := log, controlWatchers[..];
      var n := 0;
      while n < |closings|
        invariant n <= |closings| && Valid() && controlWatchers[..] == held
        invariant |log| == |before| + n && before <= log
        invariant forall m :: 0 <= m < n ==>
                    log[|before| + m] == Receipt(closings[m].0, closings[m].1, closings[m].2, |before| + m + 1)
      {
        var receipt := RememberReceipt(closings[n].0, closings[n].1, closings[n].2);
        n := n + 1;
      }
      assert forall k :: 0 <= k < WATCHERS ==> held[k] == old(controlWatchers[k]);
      answers := FlushWatchers(cancelled, due);
      ghost var flushed := Flushed(old(View()), |closings|, cancelled, due);
      assert forall k :: 0 <= k < WATCHERS ==> controlWatchers[..][k] == flushed.held[k];
    }

    /** The end of a flush. Whatever receipts it wrote, every observer still held waits at the new revision. */
    method FlushWatchers(cancelled: seq<bool>, due: seq<bool>) returns (answers: seq<Answer>)
      requires Valid() && |cancelled| == |due| == WATCHERS
      requires forall k :: 0 <= k < WATCHERS && controlWatchers[k].Some? ==>
                 controlWatchers[k].value.after <= controlEventRevision
      modifies controlWatchers
      ensures Valid() && Waiting() && |answers| == WATCHERS && log == old(log)
      ensures forall k :: 0 <= k < WATCHERS ==>
                && answers[k] == AnswerTo(old(controlWatchers[k]), controlEventRevision, cancelled[k], due[k])
                && controlWatchers[k] == if answers[k] == NoAnswer then old(controlWatchers[k]) else None
    {
      answers := [];
      var k := 0;
      while k < controlWatchers.Length
        invariant k == |answers| <= WATCHERS
        invariant forall j :: k <= j < WATCHERS ==> controlWatchers[j] == old(controlWatchers[j])
        invariant forall j :: 0 <= j < k ==>
                    && answers[j] == AnswerTo(old(controlWatchers[j]), controlEventRevision, cancelled[j], due[j])
                    && controlWatchers[j] == if answers[j] == NoAnswer then old(controlWatchers[j]) else None
      {
        var answer := NoAnswer;
        if controlWatchers[k].Some? {
          if cancelled[k] {
            answer := Dropped;
          } else if controlWatchers[k].value.after < controlEventRevision {
            answer := Status;
          } else if due[k] {
            answer := DeadlineError;
          }
          if answer != NoAnswer { controlWatchers[k] := None; }
        }
        answers := answers + [answer];
        k := k + 1;
      }
    }
  }

  lemma OneFirstFree(held: seq<Option<Watcher>>, j: nat, k: nat)
    requires FirstFree(held, j) && (FirstFree(held, k) || None !in held)
    ensures j == k
  {
    assert held[j] in held;
  }

  lemma SlotsDiffer(n: nat)
    ensures forall i :: n - SLOTS < i < n ==> i % SLOTS != n % SLOTS
    ensures n < SLOTS ==> n % SLOTS == n
  {
  }

  /** Slot `k` holds the one log entry of the window whose place is congruent to `k`. */
  lemma SlotHolds(log: seq<Receipt>, k: nat)
    requires k < SLOTS
    ensures k < |log| ==>
              var i := |log| - 1 - (|log| - 1 - k) % SLOTS;
              0 <= i < |log| && |log| - SLOTS <= i && i % SLOTS == k && log[i] in log
  {
  }

  // ----- request ids -----

  /** A request. `admitted` receipts had been written when it was admitted, and `ticket` numbers the admissions;
      `beside` is the ticket of the other kind's request that was in flight then, and `clash` says that the two
      had the same id. */
  datatype Entry = Entry(id: string, mutation: bool, admitted: nat, ticket: nat, beside: Option<nat>, clash: bool)

  /** At most one mutation and one capture of a source are in flight. */
  datatype Requests = Requests(log: seq<Entry>, mutation: Option<Entry>, capture: Option<Entry>, tickets: nat)

  datatype Event = Admit(id: string, mutation: bool) | Close(mutation: bool)

  /** The check made on admission. */
  predicate Used(log: seq<Entry>, id: string) {
    (exists i :: 0 <= i < |log| && |log| - SLOTS <= i && log[i].id == id) || (id == "" && |log| < SLOTS)
  }

  function InFlight(s: Requests, mutation: bool): Option<Entry> { if mutation then s.mutation else s.capture }

  function NewEntry(s: Requests, id: string, mutation: bool): Entry {
    var other := InFlight(s, !mutation);
    Entry(id, mutation, |s.log|, s.tickets, if other.Some? then Some(other.value.ticket) else None,
          other.Some? && other.value.id == id)
  }

  function Admitted(s: Requests, e: Entry): Requests {
    if e.mutation then s.(mutation := Some(e), tickets := s.tickets + 1)
    else s.(capture := Some(e), tickets := s.tickets + 1)
  }

  function Closed(s: Requests, mutation: bool): Requests
    requires InFlight(s, mutation).Some?
  {
    var t := s.(log := s.log + [InFlight(s, mutation).value]);
    if mutation then t.(mutation := None) else t.(capture := None)
  }

  function Step(s: Requests, e: Event): Requests {
    match e
    case Admit(id, mutation) =>
      if InFlight(s, mutation).Some? || Used(s.log, id) then s else Admitted(s, NewEntry(s, id, mutation))
    case Close(mutation) => if InFlight(s, mutation).None? then s else Closed(s, mutation)
  }

  function Run(s: Requests, events: seq<Event>): Requests
    decreases |events|
  {
    if events == [] then s else Run(Step(s, events[0]), events[1..])
  }

  /** An admitted id differed from every receipt of the window it was admitted in. */
  predicate Checked(log: seq<Entry>, e: Entry, n: nat, tickets: nat) {
    && e.admitted <= n <= |log| && e.ticket < tickets && (e.beside.Some? ==> e.beside.value < tickets)
    && forall i :: 0 <= i < e.admitted && e.admitted - SLOTS <= i ==> log[i].id != e.id
  }

  predicate Beside(x: Entry, y: Entry) { x.beside == Some(y.ticket) ==> (x.clash <==> x.id == y.id) }

  /** The later one of two requests in flight together was admitted beside the earlier one. */
  predicate Linked(x: Entry, y: Entry) {
    if x.ticket < y.ticket then y.beside == Some(x.ticket) else x.beside == Some(y.ticket)
  }

  /** `x` was closed as receipt `i`, and `y` later or not yet. */
  predicate PairOk(x: Entry, y: Entry, i: int) {
    && x.ticket != y.ticket && Beside(x, y) && Beside(y, x)
    && (x.mutation == y.mutation ==> i < y.admitted)
    && (y.admitted <= i ==> Linked(x, y))
  }

  predicate LogOk(s: Requests) {
    forall j {:trigger s.log[j]} :: 0 <= j < |s.log| ==>
      Checked(s.log, s.log[j], j, s.tickets) && forall i :: 0 <= i < j ==> PairOk(s.log[i], s.log[j], i)
  }

  predicate FlightOk(s: Requests, mutation: bool) {
    InFlight(s, mutation).Some? ==>
      var y := InFlight(s, mutation).value;
      && y.mutation == mutation && Checked(s.log, y, |s.log|, s.tickets)
      && forall i :: 0 <= i < |s.log| ==> PairOk(s.log[i], y, i)
  }

  predicate BothOk(s: Requests) {
    s.mutation.Some? && s.capture.Some? ==>
      var x, y := s.mutation.value, s.capture.value;
      x.ticket != y.ticket && Beside(x, y) && Beside(y, x) && Linked(x, y)
  }

  predicate Inv(s: Requests) { LogOk(s) && FlightOk(s, true) && FlightOk(s, false) && BothOk(s) }

  lemma AdmitKeepsInv(s: Requests, id: string, mutation: bool)
    requires Inv(s) && InFlight(s, mutation).None? && !Used(s.log, id)
    ensures Inv(Admitted(s, NewEntry(s, id, mutation)))
  {
    var e := NewEntry(s, id, mutation);
    var t := Admitted(s, e);
    assert Checked(t.log, e, |t.log|, t.tickets);
    forall i | 0 <= i < |t.log| ensures PairOk(t.log[i], e, i) {
      assert Checked(s.log, s.log[i], i, s.tickets);
      assert InFlight(s, !mutation).Some? ==> PairOk(s.log[i], InFlight(s, !mutation).value, i);
    }
  }

  lemma CloseKeepsInv(s: Requests, mutation: bool)
    requires Inv(s) && InFlight(s, mutation).Some?
    ensures Inv(Closed(s, mutation))
  {
    var y, t, n := InFlight(s, mutation).value, Closed(s, mutation), |s.log|;
    forall j | 0 <= j < |t.log|
      ensures Checked(t.log, t.log[j], j, t.tickets)
    {
      assert j < n ==> Checked(s.log, s.log[j], j, s.tickets);
    }
    forall i, j | 0 <= i < j < |t.log|
      ensures PairOk(t.log[i], t.log[j], i)
    {
      assert j < n ==> PairOk(s.log[i], s.log[j], i);
      assert j == n ==> PairOk(s.log[i], y, i);
    }
    CloseKeepsFlight(s, mutation);
  }

  lemma CloseKeepsFlight(s: Requests, mutation: bool)
    requires Inv(s) && InFlight(s, mutation).Some?
    ensures FlightOk(Closed(s, mutation), true) && FlightOk(Closed(s, mutation), false)
  {
    var t := Closed(s, mutation);
    if InFlight(t, !mutation).Some? {
      var z := InFlight(t, !mutation).value;
      forall i | 0 <= i < |t.log| ensures PairOk(t.log[i], z, i) {
        assert i < |s.log| ==> PairOk(s.log[i], z, i);
      }
    }
  }

  lemma {:induction false} RunKeepsInv(s: Requests, events: seq<Event>)
    requires Inv(s)
    ensures Inv(Run(s, events))
    decreases |events|
  {
    hide Inv, Admitted, Closed, NewEntry;
    if events != [] {
      match events[0] {
        case Admit(id, mutation) =>
          if InFlight(s, mutation).None? && !Used(s.log, id) { AdmitKeepsInv(s, id, mutation); }
        case Close(mutation) => if InFlight(s, mutation).Some? { CloseKeepsInv(s, mutation); }
      }
      RunKeepsInv(Step(s, events[0]), events[1..]);
    }
  }

  const IDLE := Requests([], None, None, 0)

  function Earlier(x: Entry, y: Entry): Entry { if x.ticket < y.ticket then x else y }
  function Later(x: Entry, y: Entry): Entry { if x.ticket < y.ticket then y else x }

  /** Two receipts at most 32 apart share an id exactly if the later admitted of the two was admitted while the
      other was in flight with that id, which the admission does not check; one is a mutation then, one a
      capture. */
  lemma SharedIds(events: seq<Event>, i: nat, j: nat)
    requires i < j < |Run(IDLE, events).log| && j - i <= 32
    ensures var x, y := Run(IDLE, events).log[i], Run(IDLE, events).log[j];
            && (x.id == y.id <==> Later(x, y).clash && Later(x, y).beside == Some(Earlier(x, y).ticket))
            && (x.id == y.id ==> x.mutation != y.mutation && y.admitted <= i)
  {
    RunKeepsInv(IDLE, events);
    var log := Run(IDLE, events).log;
    hide Run;
    assert Checked(log, log[j], j, Run(IDLE, events).tickets) && PairOk(log[i], log[j], i);
  }

  /** A capture and a mutation in flight together may share an id. */
  lemma CaptureAndMutationShareAnId(id: string)
    requires id != ""
    ensures var log := Run(IDLE, [Admit(id, true), Admit(id, false), Close(true), Close(false)]).log;
            |log| == 2 && log[0].id == log[1].id == id && log[0].mutation && !log[1].mutation
  {
    var events := [Admit(id, true), Admit(id, false), Close(true), Close(false)];
    assert events[1..][1..] == [Close(true), Close(false)] && events[1..][1..][1..] == [Close(false)];
    var s := Step(Step(IDLE, Admit(id, true)), Admit(id, false));
    assert s == Requests([], Some(Entry(id, true, 0, 0, None, false)), Some(Entry(id, false, 0, 1, Some(0), true)), 2);
    assert Run(Step(IDLE, events[0]), events[1..]) == Run(s, events[1..][1..]);
    var t := Step(s, Close(true));
    assert Run(t, [Close(false)]) == Run(Step(t, Close(false)), []);
  }
}
