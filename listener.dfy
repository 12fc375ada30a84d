/**
 * `udp_listener` of each client family: the loop that waits for datagrams
 * from the peer agent, filters and unframes them, passes them to
 * `handle_udp_message`, and stops when `stop_event` is set, when the peer
 * has been quiet for too long, or (in some families) at the first
 * exception. What the loop receives is given as a sequence of events whose
 * clock readings stand for `time.time()`.
 */
module Listeners {
  import opened Wrappers
  import opened Holdings
  import opened Peer
  import opened Ledgers

  /** Seconds of quiet after which the listeners that have the rule give up. */
  const IdleLimit := 180

  /**
   * What one pass of the listener's loop meets: `stop_event` set at the
   * loop test; a receive that timed out at clock `at`; or a datagram
   * `data` from `from` received at clock `at` (the families that test the
   * idle time before receiving read the clock at that test).
   */
  datatype Event = Stop | Quiet(at: int) | Datagram(at: int, from: Addr, data: string)

  /**
   * The listener families: client-0-38 and client-0-40 (framed), client-0-30
   * (address filter), client-0-24 (idle test before each receive, address
   * filter), client-0-20 (idle test, no filter), client-0-18 (idle test,
   * timer reset before handling), client-0-29 (sets the event after each
   * message) and client-0-17 (no filter, no timeout). `L30` is client-0-30
   * with its handler call given the missing seventh argument (`Hear30`);
   * the program as it runs is `Hear30AsWritten`, which no family dispatches
   * to and which `Listener30AsWrittenKeepsBooks` covers over whole runs.
   */
  datatype Family = L38 | L30 | L24 | L20 | L18 | L29 | L17

  /** How a listener stopped; `Listening` means it is still in its loop. */
  datatype ListenEnd = Listening | Stopped | IdledOut | Died

  /** One pass of the loop: the new books, what was sent, the new idle timer, and whether the loop goes on. */
  datatype Heard = Heard(ledger: Ledger, sent: seq<Send>, last: int, end: ListenEnd)

  predicate IdleTooLong(at: int, last: int) {
    at - last > IdleLimit
  }

  function Carry(l: Ledger, last: int): Heard {
    Heard(l, [], last, Listening)
  }

  /**
   * client-0-38 and client-0-40: a timeout ends the loop once the quiet
   * time exceeds the limit; a datagram without ':' or with the own id as
   * sender is dropped; any other body is handled, and the timer is reset
   * only when the handler returns normally (an exception is logged and
   * the loop goes on).
   */
  function Hear38(ownId: string, l: Ledger, last: int, ev: Event): (h: Heard)
    ensures h.end != Died
  {
    match ev
    case Stop => Heard(l, [], last, Stopped)
    case Quiet(at) => if IdleTooLong(at, last) then Heard(l, [], last, IdledOut) else Carry(l, last)
    case Datagram(at, from, data) =>
      if data == "" then Carry(l, last)
      else match ParseFrame(data)
        case None => Carry(l, last)
        case Some((senderId, body)) =>
          if senderId == ownId then Carry(l, last)
          else
            var r := ReactTrader(Some(ownId), l, from, body);
            Heard(r.ledger, r.sent, if r.raised then last else at, Listening)
  }

  /**
   * client-0-30 as written: a datagram from any other address reaches a
   * call of `handle_udp_message` with one argument too few, which raises
   * before the handler runs; the exception is logged and the timer is not
   * reset.
   */
  function Hear30AsWritten(own: Addr, l: Ledger, last: int, ev: Event): (h: Heard)
    ensures h.end != Died
  {
    match ev
    case Stop => Heard(l, [], last, Stopped)
    case Quiet(at) => if IdleTooLong(at, last) then Heard(l, [], last, IdledOut) else Carry(l, last)
    case Datagram(at, from, data) => Carry(l, last)
  }

  /** client-0-30 with the event passed to the handler, as its signature asks. */
  function Hear30(own: Addr, l: Ledger, last: int, ev: Event): (h: Heard)
    ensures h.end != Died
  {
    match ev
    case Stop => Heard(l, [], last, Stopped)
    case Quiet(at) => if IdleTooLong(at, last) then Heard(l, [], last, IdledOut) else Carry(l, last)
    case Datagram(at, from, data) =>
      if data == "" || from == own then Carry(l, last)
      else
        var r := ReactTrader(None, l, from, data);
        Heard(r.ledger, r.sent, if r.raised then last else at, Listening)
  }

  /**
   * client-0-24: the idle test comes before every receive; a datagram from
   * another address is handled and resets the timer, and an exception in
   * the handler leaves the loop.
   */
  function Hear24(own: Addr, l: Ledger, last: int, ev: Event): (h: Heard)
  {
    match ev
    case Stop => Heard(l, [], last, Stopped)
    case Quiet(at) => if IdleTooLong(at, last) then Heard(l, [], last, IdledOut) else Carry(l, last)
    case Datagram(at, from, data) =>
      if IdleTooLong(at, last) then Heard(l, [], last, IdledOut)
      else if data == "" || from == own then Carry(l, last)
      else
        var r := React24(l, from, data);
        if r.raised then Heard(r.ledger, r.sent, last, Died) else Heard(r.ledger, r.sent, at, Listening)
  }

  /** client-0-20: as client-0-24, but every datagram is handled, whatever its source. */
  function Hear20(l: Ledger, last: int, ev: Event): (h: Heard)
  {
    match ev
    case Stop => Heard(l, [], last, Stopped)
    case Quiet(at) => if IdleTooLong(at, last) then Heard(l, [], last, IdledOut) else Carry(l, last)
    case Datagram(at, from, data) =>
      if IdleTooLong(at, last) then Heard(l, [], last, IdledOut)
      else if data == "" then Carry(l, last)
      else
        var r := React20(l, from, data);
        if r.raised then Heard(r.ledger, r.sent, last, Died) else Heard(r.ledger, r.sent, at, Listening)
  }

  /** client-0-18: the timer is reset as soon as a datagram arrives, before it is handled. */
  function Hear18(l: Ledger, last: int, ev: Event): (h: Heard)
  {
    match ev
    case Stop => Heard(l, [], last, Stopped)
    case Quiet(at) => if IdleTooLong(at, last) then Heard(l, [], last, IdledOut) else Carry(l, last)
    case Datagram(at, from, data) =>
      if IdleTooLong(at, last) then Heard(l, [], last, IdledOut)
      else if data == "" then Carry(l, last)
      else
        var r := React18(l, data);
        Heard(r.ledger, r.sent, at, if r.raised then Died else Listening)
  }

  /**
   * client-0-29: no idle rule; a datagram from another address is handled
   * and then sets `transaction_complete`; an exception is logged, skips
   * the setting, and the loop goes on.
   */
  function Hear29(own: Addr, l: Ledger, last: int, ev: Event): (h: Heard)
    ensures h.end != Died && h.end != IdledOut
  {
    match ev
    case Stop => Heard(l, [], last, Stopped)
    case Quiet(at) => Carry(l, last)
    case Datagram(at, from, data) =>
      if data == "" || from == own then Carry(l, last)
      else
        var r := React29(l, data);
        if r.raised then Heard(r.ledger, r.sent, last, Listening)
        else Heard(r.ledger.(complete := true), r.sent, last, Listening)
  }

  /**
   * client-0-17: the socket has no timeout, so a receive only returns with
   * a datagram; every datagram is handled, even an empty one, and the
   * first exception leaves the loop.
   */
  function Hear17(l: Ledger, last: int, ev: Event): (h: Heard)
    ensures h.end != IdledOut
  {
    match ev
    case Stop => Heard(l, [], last, Stopped)
    case Quiet(at) => Carry(l, last)
    case Datagram(at, from, data) =>
      var r := React17(l, data);
      Heard(r.ledger, r.sent, last, if r.raised then Died else Listening)
  }

  /** One pass of the loop of the family `f`, for the agent `ownId` bound at `own` (client-0-30's as corrected). */
  function HearOne(f: Family, ownId: string, own: Addr, l: Ledger, last: int, ev: Event): Heard {
    match f
    case L38 => Hear38(ownId, l, last, ev)
    case L30 => Hear30(own, l, last, ev)
    case L24 => Hear24(own, l, last, ev)
    case L20 => Hear20(l, last, ev)
    case L18 => Hear18(l, last, ev)
    case L29 => Hear29(own, l, last, ev)
    case L17 => Hear17(l, last, ev)
  }

  // ---- the families side by side ----

  /** `handle_udp_message` of each family, as a function of the books. */
  function Handler(f: Family, ownId: string, l: Ledger, from: Addr, body: string): Reaction {
    match f
    case L38 => ReactTrader(Some(ownId), l, from, body)
    case L30 => ReactTrader(None, l, from, body)
    case L24 => React24(l, from, body)
    case L20 => React20(l, from, body)
    case L18 => React18(l, body)
    case L29 => React29(l, body)
    case L17 => React17(l, body)
  }

  /**
   * The body a datagram hands to the handler, or `None` when the family
   * drops it: an empty datagram (except in client-0-17), one without a
   * frame or with the own id (client-0-38, client-0-40), or one from the
   * own address (client-0-30, client-0-24, client-0-29).
   */
  function Accepted(f: Family, ownId: string, own: Addr, from: Addr, data: string): Option<string> {
    if f == L17 then Some(data)
    else if data == "" then None
    else if f == L38 then
      match ParseFrame(data)
      case None => None
      case Some((senderId, body)) => if senderId == ownId then None else Some(body)
    else if (f == L30 || f == L24 || f == L29) && from == own then None
    else Some(data)
  }

  /** The families that give up after a quiet spell longer than the limit. */
  predicate HasIdleRule(f: Family) {
    f != L29 && f != L17
  }

  /** The families that test the quiet time before every receive, not only when a receive times out. */
  predicate IdleTestFirst(f: Family) {
    f == L24 || f == L20 || f == L18
  }

  /** The families whose loop ends at an exception from the handler; the others log it and go on. */
  predicate DiesOnException(f: Family) {
    f == L24 || f == L20 || f == L18 || f == L17
  }

  /** The families with an idle timer that a handled message resets. */
  predicate ResetsTimer(f: Family) {
    f != L29 && f != L17
  }

  /**
   * Across the families: `stop_event` ends every loop; a timeout ends it
   * exactly when the family has the idle rule and the quiet time exceeds
   * the limit; a datagram is handed over exactly when `Accepted` says so,
   * unless the idle test before the receive fires first. A handled body
   * sends what the handler sends; an exception leaves the books as they
   * were and ends the loop exactly in the families that do not catch it;
   * otherwise the books are the handler's (with the event set in
   * client-0-29) and the timer, where there is one, is reset (client-0-18
   * resets it even when the handler raises).
   */
  predicate Described(f: Family, ownId: string, own: Addr, l: Ledger, last: int, ev: Event, h: Heard) {
    match ev
    case Stop => h == Heard(l, [], last, Stopped)
    case Quiet(at) =>
      h == if HasIdleRule(f) && IdleTooLong(at, last) then Heard(l, [], last, IdledOut) else Carry(l, last)
    case Datagram(at, from, data) =>
      if IdleTestFirst(f) && IdleTooLong(at, last) then h == Heard(l, [], last, IdledOut)
      else match Accepted(f, ownId, own, from, data)
        case None => h == Carry(l, last)
        case Some(body) =>
          var r := Handler(f, ownId, l, from, body);
          && h.sent == r.sent
          && (h.end == Died <==> r.raised && DiesOnException(f))
          && (h.end == Listening <==> !(r.raised && DiesOnException(f)))
          && (r.raised ==> h.ledger == l)
          && (!r.raised ==> h.ledger == if f == L29 then r.ledger.(complete := true) else r.ledger)
          && h.last == if ResetsTimer(f) && (!r.raised || f == L18) then at else last
  }

  lemma HearOneMeaning(f: Family, ownId: string, own: Addr, l: Ledger, last: int, ev: Event)
    ensures Described(f, ownId, own, l, last, ev, HearOne(f, ownId, own, l, last, ev))
  {
    match f
    case L38 => Described38(ownId, own, l, last, ev);
    case L30 => Described30(ownId, own, l, last, ev);
    case L24 => Described24(ownId, own, l, last, ev);
    case L20 => Described20(ownId, own, l, last, ev);
    case L18 => Described18(ownId, own, l, last, ev);
    case L29 => Described29(ownId, own, l, last, ev);
    case L17 => Described17(ownId, own, l, last, ev);
  }

  lemma Described38(ownId: string, own: Addr, l: Ledger, last: int, ev: Event)
    ensures Described(L38, ownId, own, l, last, ev, Hear38(ownId, l, last, ev))
  {
    if ev.Datagram? && ev.data != "" && ParseFrame(ev.data).Some? {
      var (senderId, body) := ParseFrame(ev.data).value;
      assert Accepted(L38, ownId, own, ev.from, ev.data) == if senderId == ownId then None else Some(body);
    }
  }

  lemma Described30(ownId: string, own: Addr, l: Ledger, last: int, ev: Event)
    ensures Described(L30, ownId, own, l, last, ev, Hear30(own, l, last, ev))
  {
  }

  lemma Described24(ownId: string, own: Addr, l: Ledger, last: int, ev: Event)
    ensures Described(L24, ownId, own, l, last, ev, Hear24(own, l, last, ev))
  {
  }

  lemma Described20(ownId: string, own: Addr, l: Ledger, last: int, ev: Event)
    ensures Described(L20, ownId, own, l, last, ev, Hear20(l, last, ev))
  {
  }

  lemma Described18(ownId: string, own: Addr, l: Ledger, last: int, ev: Event)
    ensures Described(L18, ownId, own, l, last, ev, Hear18(l, last, ev))
  {
  }

  lemma Described29(ownId: string, own: Addr, l: Ledger, last: int, ev: Event)
    ensures Described(L29, ownId, own, l, last, ev, Hear29(own, l, last, ev))
  {
  }

  lemma Described17(ownId: string, own: Addr, l: Ledger, last: int, ev: Event)
    ensures Described(L17, ownId, own, l, last, ev, Hear17(l, last, ev))
  {
  }

  // ---- the framed listener of client-0-38 and client-0-40 ----

  /** A datagram framed with the agent's own id is dropped: nothing changes and the timer is not reset. */
  lemma OwnFrameIgnored38(ownId: string, l: Ledger, last: int, at: int, from: Addr, body: string)
    requires ':' !in ownId
    ensures Hear38(ownId, l, last, Datagram(at, from, Frame(ownId, body))) == Carry(l, last)
  {
    ParseFrameOfFrame(ownId, body);
  }

  /** A datagram framed with another id has its body handled, as sent after the first ':'. */
  lemma ForeignFrameHandled38(ownId: string, senderId: string, l: Ledger, last: int, at: int, from: Addr, body: string)
    requires ':' !in senderId && senderId != ownId
    ensures var r := ReactTrader(Some(ownId), l, from, body);
      Hear38(ownId, l, last, Datagram(at, from, Frame(senderId, body))) ==
        Heard(r.ledger, r.sent, if r.raised then last else at, Listening)
  {
    ParseFrameOfFrame(senderId, body);
    assert Frame(senderId, body) != "" by {
      assert |Frame(senderId, body)| > |senderId|;
    }
  }

  /** A datagram without ':' is dropped as malformed. */
  lemma UnframedDropped38(ownId: string, l: Ledger, last: int, at: int, from: Addr, data: string)
    requires ':' !in data
    ensures Hear38(ownId, l, last, Datagram(at, from, data)) == Carry(l, last)
  {
  }

  // ---- client-0-30: the handler call as written ----

  /**
   * client-0-30 as written never passes a message to its handler: a NOMONEY
   * from the peer leaves the holding unsold and the event clear, where the
   * handler with its full argument list sells the holding back and sets
   * the event.
   */
  lemma Listener30DropsNoMoney(own: Addr, from: Addr, at: int)
    requires from != own
    ensures var l := Ledger(100, [Holding("10000", 300)], false);
      var ev := Datagram(at, from, NoMoney);
      Hear30AsWritten(own, l, 0, ev) == Carry(l, 0) &&
      Hear30(own, l, 0, ev).ledger == Ledger(400, [], true)
  {
    var l := Ledger(100, [Holding("10000", 300)], false);
    assert NoMoney != "";
    TraderNoMoney(None, l, from);
    assert RemoveAt(l.holdings, 0) == [];
  }

  /** With the argument supplied, a foreign NOMONEY sells one holding back and releases the next round. */
  lemma Listener30TakesNoMoney(own: Addr, l: Ledger, last: int, at: int, from: Addr)
    requires from != own
    ensures Hear30(own, l, last, Datagram(at, from, NoMoney)) ==
      Heard(SellOldest(l).0.(complete := true), SellOldest(l).1, at, Listening)
  {
    assert NoMoney != "";
    TraderNoMoney(None, l, from);
  }

  // ---- client-0-29 ----

  /** A foreign message that the client-0-29 handler gets through sets the event; one that raises does not. */
  lemma Hear29Releases(own: Addr, l: Ledger, last: int, at: int, from: Addr, data: string)
    requires data != "" && from != own
    ensures var h := Hear29(own, l, last, Datagram(at, from, data));
      h.ledger.complete <==> !React29(l, data).raised || l.complete
  {
  }

  // ---- the whole loop ----

  /** What one pass of a listener's loop does, given the books, the idle timer and the event. */
  type Hearer = (Ledger, int, Event) -> Heard

  function HearerOf(f: Family, ownId: string, own: Addr): Hearer {
    (l, last, ev) => HearOne(f, ownId, own, l, last, ev)
  }

  /** The books after the loop, everything sent, the idle timer, the number of events taken, and how it ended. */
  datatype Run = Run(ledger: Ledger, sent: seq<Send>, last: int, taken: nat, end: ListenEnd)

  /**
   * The loop from the event at `taken` on, with books `l` and idle timer
   * `last`, after `sent` was sent. When the events run out the listener is
   * still waiting.
   */
  function ListenFrom(hear: Hearer, l: Ledger, last: int, events: seq<Event>, taken: nat, sent: seq<Send>): (r: Run)
    requires taken <= |events|
    ensures taken <= r.taken <= |events|
    ensures r.end == Listening ==> r.taken == |events|
    ensures r.end != Listening ==> taken < r.taken
    decreases |events| - taken
  {
    if taken == |events| then Run(l, sent, last, taken, Listening)
    else
      var h := hear(l, last, events[taken]);
      if h.end == Listening then ListenFrom(hear, h.ledger, h.last, events, taken + 1, sent + h.sent)
      else Run(h.ledger, sent + h.sent, h.last, taken + 1, h.end)
  }

  /** `udp_listener` over `events`, with the timer started at `start`. */
  function Listen(f: Family, ownId: string, own: Addr, l: Ledger, start: int, events: seq<Event>): Run {
    ListenFrom(HearerOf(f, ownId, own), l, start, events, 0, [])
  }

  /** A loop whose every pass keeps the holding ids distinct keeps them distinct to the end. */
  lemma {:induction false} ListenFromKeepsDistinctIds(hear: Hearer, l: Ledger, last: int, events: seq<Event>, taken: nat, sent: seq<Send>)
    requires taken <= |events| && DistinctIds(l.holdings)
    requires forall l0: Ledger, last0: int, ev: Event :: DistinctIds(l0.holdings) ==> DistinctIds(hear(l0, last0, ev).ledger.holdings)
    ensures DistinctIds(ListenFrom(hear, l, last, events, taken, sent).ledger.holdings)
    decreases |events| - taken
  {
    if taken < |events| {
      var h := hear(l, last, events[taken]);
      if h.end == Listening {
        ListenFromKeepsDistinctIds(hear, h.ledger, h.last, events, taken + 1, sent + h.sent);
      }
    }
  }

  /** A loop whose every pass leaves the books alone leaves them alone to the end. */
  lemma {:induction false} ListenFromKeepsBooks(hear: Hearer, l: Ledger, last: int, events: seq<Event>, taken: nat, sent: seq<Send>)
    requires taken <= |events|
    requires forall l0: Ledger, last0: int, ev: Event :: hear(l0, last0, ev).ledger == l0
    ensures ListenFrom(hear, l, last, events, taken, sent).ledger == l
    decreases |events| - taken
  {
    if taken < |events| {
      var h := hear(l, last, events[taken]);
      if h.end == Listening {
        ListenFromKeepsBooks(hear, h.ledger, h.last, events, taken + 1, sent + h.sent);
      }
    }
  }

  /** A loop that every `Stop` ends never takes an event after the first `Stop`. */
  lemma {:induction false} ListenFromEndsAtStop(hear: Hearer, l: Ledger, last: int, events: seq<Event>, taken: nat, sent: seq<Send>, j: nat)
    requires taken <= j < |events| && events[j] == Stop
    requires forall l0: Ledger, last0: int :: hear(l0, last0, Stop).end == Stopped
    ensures ListenFrom(hear, l, last, events, taken, sent).taken <= j + 1
    decreases |events| - taken
  {
    if taken < j {
      var h := hear(l, last, events[taken]);
      if h.end == Listening {
        ListenFromEndsAtStop(hear, h.ledger, h.last, events, taken + 1, sent + h.sent, j);
      }
    }
  }

  /** Every listener keeps the holding ids distinct. */
  lemma ListenKeepsDistinctIds(f: Family, ownId: string, own: Addr, l: Ledger, start: int, events: seq<Event>)
    requires DistinctIds(l.holdings)
    ensures DistinctIds(Listen(f, ownId, own, l, start, events).ledger.holdings)
  {
    var hear := HearerOf(f, ownId, own);
    forall l0: Ledger, last0: int, ev: Event | DistinctIds(l0.holdings) ensures DistinctIds(hear(l0, last0, ev).ledger.holdings) {
      HearKeepsDistinctIds(f, ownId, own, l0, last0, ev);
    }
    ListenFromKeepsDistinctIds(hear, l, start, events, 0, []);
  }

  lemma HearKeepsDistinctIds(f: Family, ownId: string, own: Addr, l: Ledger, last: int, ev: Event)
    requires DistinctIds(l.holdings)
    ensures DistinctIds(HearOne(f, ownId, own, l, last, ev).ledger.holdings)
  {
    if ev.Datagram? {
      var body := match Accepted(f, ownId, own, ev.from, ev.data) case Some(b) => b case None => ev.data;
      ReactionsKeepDistinctIds(Some(ownId), l, ev.from, body);
      ReactionsKeepDistinctIds(None, l, ev.from, body);
      OfferOnlyHandlersKeepBooks(l, body);
      HearOneMeaning(f, ownId, own, l, last, ev);
    }
  }

  /** The client-0-18 and client-0-17 listeners never change the books, whatever they receive. */
  lemma OfferOnlyListenersKeepBooks(f: Family, ownId: string, own: Addr, l: Ledger, start: int, events: seq<Event>)
    requires f == L18 || f == L17
    ensures Listen(f, ownId, own, l, start, events).ledger == l
  {
    var hear := HearerOf(f, ownId, own);
    forall l0: Ledger, last0: int, ev: Event ensures hear(l0, last0, ev).ledger == l0 {
      if ev.Datagram? {
        OfferOnlyHandlersKeepBooks(l0, ev.data);
      }
    }
    ListenFromKeepsBooks(hear, l, start, events, 0, []);
  }

  /** client-0-30 as written never changes the books, whatever it receives. */
  lemma Listener30AsWrittenKeepsBooks(own: Addr, l: Ledger, start: int, events: seq<Event>)
    ensures ListenFrom((l0, last0, ev) => Hear30AsWritten(own, l0, last0, ev), l, start, events, 0, []).ledger == l
  {
    ListenFromKeepsBooks((l0, last0, ev) => Hear30AsWritten(own, l0, last0, ev), l, start, events, 0, []);
  }

  /** No listener takes an event after the first `Stop`: `stop_event` is tested before every receive. */
  lemma ListenEndsAtStop(f: Family, ownId: string, own: Addr, l: Ledger, start: int, events: seq<Event>, j: nat)
    requires j < |events| && events[j] == Stop
    ensures Listen(f, ownId, own, l, start, events).taken <= j + 1
  {
    ListenFromEndsAtStop(HearerOf(f, ownId, own), l, start, events, 0, [], j);
  }
}
