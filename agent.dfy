/**
 * A trading agent's mutable state and the client functions that update it
 * in place: `sell_ticket`, `handle_udp_message` per client family, and one
 * round and the whole loop of `send_requests_to_server`. Each method is
 * proved to do to the fields exactly what the matching function of the
 * Ledgers module does to a `Ledger` value.
 */
module Agents {
  import opened Wrappers
  import opened Text
  import opened Holdings
  import opened Peer
  import opened Ledgers
  import opened Listeners

  class Agent {
    /** `user_balance[0]` (a plain variable in client-0-6, client-0-13 and client-0-16). */
    var balance: int
    /** `ticket_db`, in insertion order. */
    var holdings: seq<Holding>
    /** The `transaction_complete` event of client-0-38, client-0-40, client-0-30 and client-0-29. */
    var complete: bool

    /** The fields as a `Ledger` value. */
    function Books(): Ledger
      reads this
    {
      Ledger(balance, holdings, complete)
    }

    /**
     * The ids held are distinct, as the keys of a dict are. No method needs
     * it to run: it is the invariant the constructor sets up and every method
     * that changes the holdings keeps.
     */
    ghost predicate Valid()
      reads this
    {
      DistinctIds(holdings)
    }

    /** A fresh agent: 4000 in cash, nothing held, and the event set. */
    constructor ()
      ensures Books() == Ledger(StartingBalance, [], true)
      ensures Valid()
    {
      balance := StartingBalance;
      holdings := [];
      complete := true;
    }

    /** `sell_ticket`: sell the oldest holding back, if there is one. */
    method SellTicket() returns (sent: seq<Send>)
      modifies this
      ensures (Books(), sent) == SellOldest(old(Books()))
      ensures old(Valid()) ==> Valid()
    {
      if holdings == [] {
        sent := [];
      } else {
        var x := holdings[0];
        sent := [Tcp("SELL " + x.id)];
        balance := balance + x.price;
        holdings := RemoveAt(holdings, 0);
      }
    }

    /** `ticket_db[id] = price` and `user_balance[0] -= price`. */
    method Buy(id: string, price: int)
      modifies this
      ensures Books() == Record(old(Books()), id, price)
      ensures old(Valid()) ==> Valid()
    {
      holdings := Put(holdings, id, price);
      balance := balance - price;
    }

    /** The scalper's answer for the holding at `k`; with `transfer` a sale moves the ticket out and the doubled price in. */
    method OfferHolding(k: nat, funds: int, to: Addr, tag: Option<string>, transfer: bool) returns (sent: seq<Send>)
      requires k < |holdings|
      modifies this
      ensures Reaction(Books(), sent, false) == Offer(old(Books()), k, funds, to, tag, transfer)
      ensures old(Valid()) ==> Valid()
    {
      var x := holdings[k];
      var doubled := 2 * x.price;
      if funds >= doubled {
        sent := [Udp(to, Tagged(tag, PriceLine(x.id, doubled)))];
        if transfer {
          holdings := RemoveAt(holdings, k);
          balance := balance + doubled;
        }
      } else {
        sent := [Udp(to, Tagged(tag, NoMoney))];
      }
    }

    /** `handle_udp_message` of client-0-38 and client-0-40 (`tag` is the own id) and of client-0-30 (`tag` is `None`). */
    method HandleTrader(tag: Option<string>, from: Addr, body: string) returns (sent: seq<Send>, raised: bool)
      modifies this
      ensures Reaction(Books(), sent, raised) == ReactTrader(tag, old(Books()), from, body)
      ensures old(Valid()) ==> Valid()
    {
      var parts := Split(body);
      sent, raised := [], false;
      if |parts| == 0 {
        raised := true;
      } else if parts[0] == "SCALP" {
        var funds := ScalpFunds(parts);
        if funds.None? {
          raised := true;
        } else if holdings == [] {
          sent := [Udp(from, Tagged(tag, SoldOutNotice))];
        } else {
          sent := OfferHolding(Cheapest(holdings), funds.value, from, tag, true);
        }
      } else if IsOfferShape(parts) {
        var price := ParseInt(parts[1]);
        if price.None? {
          raised := true;
        } else {
          Buy(parts[0], price.value);
          complete := true;
        }
      } else if body == NoMoney {
        sent := SellTicket();
        complete := true;
      }
    }

    /** `handle_udp_message` of client-0-29. */
    method Handle29(body: string) returns (sent: seq<Send>, raised: bool)
      modifies this
      ensures Reaction(Books(), sent, raised) == React29(old(Books()), body)
      ensures old(Valid()) ==> Valid()
    {
      var parts := Split(body);
      sent, raised := [], false;
      if |parts| == 0 {
        raised := true;
      } else if parts[0] == "SCALP" {
        var funds := ScalpFunds(parts);
        if funds.None? {
          raised := true;
        } else if holdings != [] {
          var k := Cheapest(holdings);
          var x := holdings[k];
          if funds.value >= 2 * x.price {
            sent := [Udp(StaticPeer, PriceLine(x.id, 2 * x.price))];
            holdings := RemoveAt(holdings, k);
            balance := balance + 2 * x.price;
          }
        }
      }
    }

    /** `handle_udp_message` of client-0-24. */
    method Handle24(from: Addr, body: string) returns (sent: seq<Send>, raised: bool)
      modifies this
      ensures Reaction(Books(), sent, raised) == React24(old(Books()), from, body)
      ensures old(Valid()) ==> Valid()
    {
      var parts := Split(body);
      sent, raised := [], false;
      if |parts| == 0 {
        raised := true;
      } else if parts[0] == "SCALP" {
        var funds := ScalpFunds(parts);
        if funds.None? {
          raised := true;
        } else if holdings == [] {
          sent := [Udp(from, SoldOutNotice)];
        } else {
          sent := OfferHolding(Cheapest(holdings), funds.value, from, None, true);
        }
      } else if IsOfferShape(parts) {
        var price := ParseInt(parts[1]);
        if price.None? {
          raised := true;
        } else if balance >= price.value {
          Buy(parts[0], price.value);
        } else {
          var s := SellTicket();
          sent := [Udp(StaticPeer, NoMoney)] + s;
        }
      }
    }

    /** `handle_udp_message` of client-0-20. */
    method Handle20(from: Addr, body: string) returns (sent: seq<Send>, raised: bool)
      modifies this
      ensures Reaction(Books(), sent, raised) == React20(old(Books()), from, body)
      ensures old(Valid()) ==> Valid()
    {
      var parts := Split(body);
      sent, raised := [], false;
      if |parts| == 0 {
        raised := true;
      } else if parts[0] == "SCALP" {
        var funds := ScalpFunds(parts);
        if funds.None? {
          raised := true;
        } else if holdings == [] {
          sent := [Udp(from, SoldOutNotice)];
        } else {
          sent := OfferHolding(0, funds.value, from, None, true);
        }
      }
    }

    /** `handle_udp_message` of client-0-18. */
    method Handle18(body: string) returns (sent: seq<Send>, raised: bool)
      modifies this
      ensures Reaction(Books(), sent, raised) == React18(old(Books()), body)
      ensures old(Valid()) ==> Valid()
    {
      var parts := Split(body);
      sent, raised := [], false;
      if |parts| == 0 {
        raised := true;
      } else if parts[0] == "SCALP" {
        var funds := ScalpFunds(parts);
        if funds.None? {
          raised := true;
        } else if holdings == [] {
          sent := [Udp(StaticPeer, NoMoney)];
        } else {
          sent := OfferHolding(0, funds.value, StaticPeer, None, false);
        }
      }
    }

    /** `handle_udp_message` of client-0-17. */
    method Handle17(body: string) returns (sent: seq<Send>, raised: bool)
      modifies this
      ensures Reaction(Books(), sent, raised) == React17(old(Books()), body)
      ensures old(Valid()) ==> Valid()
    {
      var parts := Split(body);
      sent, raised := [], false;
      if |parts| == 0 {
        raised := true;
      } else if parts[0] == "SCALP" {
        if holdings == [] {
          sent := [Udp(StaticPeer, NoMoney)];
        } else {
          sent := OfferHolding(0, balance, StaticPeer, None, false);
        }
      }
    }

    /** The purchase branch of a round: `ticket_number, price = response.split()`, then record and debit. */
    method TakeReply(response: string, release: bool) returns (status: RoundStatus)
      modifies this
      ensures (Books(), status) == TakePurchase(old(Books()), response, release)
      ensures old(Valid()) ==> Valid()
    {
      var p := ParsePurchase(response);
      if p.None? {
        status := Raised;
      } else {
        Buy(p.value.0, p.value.1);
        complete := complete || release;
        status := Continued;
      }
    }

    /** One round of `send_requests_to_server` after the event has been waited for and cleared. */
    method Round(e: Engine, ownId: string, peer: Addr, inbox: seq<string>, cursor: nat)
      returns (sent: seq<Send>, used: nat, status: RoundStatus)
      modifies this
      ensures RoundResult(Books(), sent, used, status) == PlayRound(e, ownId, peer, old(Books()), inbox, cursor)
      ensures old(Valid()) ==> Valid()
    {
      var response := Recv(inbox, cursor);
      sent, used, status := [Tcp(BuyRequest(balance))], 1, Continued;
      match e
      case Engine38 | Engine30 =>
        if Contains(response, "NOFUNDS") {
          var s := SellTicket();
          complete := true;
          sent, used := sent + s, 1 + |s|;
        } else if Contains(response, "SOLDOUT") {
          sent := sent + [Udp(peer, Tagged(ScalpTag(e, ownId), ScalpRequest(balance)))];
        } else {
          status := TakeReply(response, true);
        }
      case Engine29 | Engine24 =>
        if Contains(response, "NOFUNDS") {
          var s := SellTicket();
          sent, used := sent + s, 1 + |s|;
        } else if Contains(response, "SOLDOUT") {
          sent := sent + [Udp(peer, ScalpRequest(balance))];
        } else if response != "" {
          status := TakeReply(response, false);
        }
      case Engine18 =>
        if Contains(response, "NOFUNDS") || Contains(response, "SOLDOUT") {
          status := Raised;
        } else if response != "" {
          status := TakeReply(response, false);
        }
      case Engine17 =>
        if Contains(response, "NOFUNDS") {
          var s := SellTicket();
          sent, used := sent + s, 1 + |s|;
        } else if !Contains(response, "SOLDOUT") && response != "" {
          status := TakeReply(response, false);
        }
      case Engine13 =>
        if Contains(response, "NOFUNDS") {
          var s := SellTicket();
          sent, used := sent + s, 1 + |s|;
        } else if !Contains(response, "SOLDOUT") {
          status := TakeReply(response, false);
        }
      case Engine06 =>
        if StartsWith(response, "NOFUNDS") {
          var s := SellTicket();
          sent := sent + s;
        } else if !StartsWith(response, "SOLDOUT") {
          status := TakeReply(response, false);
        }
    }

    /**
     * One pass of the loop of `send_requests_to_server` with `remaining`
     * rounds to go, after `rounds` rounds that sent `sent`: a waiting engine
     * whose event is clear stops there; otherwise the event is cleared and
     * the round is played, and a raise stops the loop. What the rounds from
     * here on do is what this pass and the rounds after it do.
     */
    method Turn(e: Engine, ownId: string, peer: Addr, inbox: seq<string>, at: nat, remaining: nat, sent: seq<Send>, rounds: nat)
      returns (at': nat, remaining': nat, sent': seq<Send>, rounds': nat, outcome: EngineOutcome, stop: bool)
      requires remaining > 0
      modifies this
      ensures remaining' < remaining
      ensures stop ==> EngineRun(Books(), sent', rounds', outcome) == RunRounds(e, ownId, peer, old(Books()), inbox, at, remaining, sent, rounds)
      ensures !stop ==> outcome == Finished
      ensures !stop ==>
        RunRounds(e, ownId, peer, Books(), inbox, at', remaining', sent', rounds') == RunRounds(e, ownId, peer, old(Books()), inbox, at, remaining, sent, rounds)
      ensures old(Valid()) ==> Valid()
    {
      at', remaining', sent', rounds', outcome, stop := at, remaining - 1, sent, rounds, Finished, false;
      if Waits(e) && !complete {
        outcome, stop := Blocked, true;
        return;
      }
      ghost var play, start := RounderOf(e, ownId, peer, inbox), Books();
      if Waits(e) {
        complete := false;
      }
      var s, used, status := Round(e, ownId, peer, inbox, at);
      at', sent', rounds' := at + used, sent + s, rounds + 1;
      RoundsFromStep(play, Waits(e), start, at, remaining, sent, rounds, RoundResult(Books(), s, used, status), at', remaining', sent', rounds');
      if status == Raised {
        outcome, stop := Failed, true;
      }
    }

    /**
     * The loop of `send_requests_to_server` from reply `cursor` on, with
     * `left` rounds to go: it stops at a raise, or (for the engines that
     * wait) where the event is clear at the start of a round.
     */
    method PlayRounds(e: Engine, ownId: string, peer: Addr, inbox: seq<string>, cursor: nat, left: nat)
      returns (sent: seq<Send>, rounds: nat, outcome: EngineOutcome)
      modifies this
      ensures EngineRun(Books(), sent, rounds, outcome) == RunRounds(e, ownId, peer, old(Books()), inbox, cursor, left, [], 0)
      ensures old(Valid()) ==> Valid()
    {
      ghost var total := RunRounds(e, ownId, peer, Books(), inbox, cursor, left, [], 0);
      ghost var valid := Valid();
      var at, remaining := cursor, left;
      sent, rounds, outcome := [], 0, Finished;
      while remaining > 0
        invariant outcome == Finished
        invariant RunRounds(e, ownId, peer, Books(), inbox, at, remaining, sent, rounds) == total
        invariant valid ==> Valid()
        decreases remaining
      {
        var stop;
        at, remaining, sent, rounds, outcome, stop := Turn(e, ownId, peer, inbox, at, remaining, sent, rounds);
        if stop {
          return;
        }
      }
    }

    /** `send_requests_to_server`: `for _ in range(15)` over the exchange's replies `inbox`. */
    method SendRequests(e: Engine, ownId: string, peer: Addr, inbox: seq<string>)
      returns (sent: seq<Send>, rounds: nat, outcome: EngineOutcome)
      modifies this
      ensures EngineRun(Books(), sent, rounds, outcome) == RunRounds(e, ownId, peer, old(Books()), inbox, 0, MaxRounds, [], 0)
      ensures old(Valid()) ==> Valid()
    {
      sent, rounds, outcome := PlayRounds(e, ownId, peer, inbox, 0, MaxRounds);
    }

    /** `handle_udp_message` of the family `f`. */
    method Dispatch(f: Family, ownId: string, from: Addr, body: string) returns (sent: seq<Send>, raised: bool)
      modifies this
      ensures Reaction(Books(), sent, raised) == Handler(f, ownId, old(Books()), from, body)
      ensures old(Valid()) ==> Valid()
    {
      match f
      case L38 => sent, raised := HandleTrader(Some(ownId), from, body);
      case L30 => sent, raised := HandleTrader(None, from, body);
      case L24 => sent, raised := Handle24(from, body);
      case L20 => sent, raised := Handle20(from, body);
      case L18 => sent, raised := Handle18(body);
      case L29 => sent, raised := Handle29(body);
      case L17 => sent, raised := Handle17(body);
    }

    /**
     * One pass of `udp_listener` of the family `f` for the agent `ownId`
     * bound at `own`, with the idle timer at `last`: the new timer, what was
     * sent, and whether the loop goes on.
     */
    method Hear(f: Family, ownId: string, own: Addr, last: int, ev: Event) returns (sent: seq<Send>, last': int, end: ListenEnd)
      modifies this
      ensures Heard(Books(), sent, last', end) == HearOne(f, ownId, own, old(Books()), last, ev)
      ensures old(Valid()) ==> Valid()
    {
      HearOneMeaning(f, ownId, own, Books(), last, ev);
      sent, last', end := [], last, Listening;
      match ev
      case Stop =>
        end := Stopped;
      case Quiet(at) =>
        if HasIdleRule(f) && IdleTooLong(at, last) {
          end := IdledOut;
        }
      case Datagram(at, from, data) =>
        if IdleTestFirst(f) && IdleTooLong(at, last) {
          end := IdledOut;
          return;
        }
        var body := Accepted(f, ownId, own, from, data);
        if body.None? {
          return;
        }
        if f == L18 {
          last' := at;
        }
        var raised;
        sent, raised := Dispatch(f, ownId, from, body.value);
        if raised {
          if DiesOnException(f) {
            end := Died;
          }
        } else {
          if f == L29 {
            complete := true;
          }
          if ResetsTimer(f) {
            last' := at;
          }
        }
    }

    /**
     * One pass of the loop over `events` at `taken`, after `sent` was sent:
     * what the loop does from here on is what this pass and the passes after
     * it do.
     */
    method ListenOne(f: Family, ownId: string, own: Addr, events: seq<Event>, taken: nat, last: int, sent: seq<Send>)
      returns (taken': nat, last': int, sent': seq<Send>, end: ListenEnd, stop: bool)
      requires taken < |events|
      modifies this
      ensures taken' == taken + 1
      ensures stop ==> Run(Books(), sent', last', taken', end) == ListenFrom(HearerOf(f, ownId, own), old(Books()), last, events, taken, sent)
      ensures !stop ==> end == Listening
      ensures !stop ==>
        (ListenFrom(HearerOf(f, ownId, own), Books(), last', events, taken', sent') == ListenFrom(HearerOf(f, ownId, own), old(Books()), last, events, taken, sent))
      ensures old(Valid()) ==> Valid()
    {
      var s;
      s, last', end := Hear(f, ownId, own, last, events[taken]);
      taken', sent' := taken + 1, sent + s;
      stop := end != Listening;
    }

    /** `udp_listener` of the family `f` over `events`, with the timer started at `start`. */
    method Listen(f: Family, ownId: string, own: Addr, start: int, events: seq<Event>)
      returns (sent: seq<Send>, last: int, taken: nat, end: ListenEnd)
      modifies this
      ensures Run(Books(), sent, last, taken, end) == Listeners.Listen(f, ownId, own, old(Books()), start, events)
      ensures old(Valid()) ==> Valid()
    {
      ghost var total := Listeners.Listen(f, ownId, own, Books(), start, events);
      ghost var valid := Valid();
      sent, last, taken, end := [], start, 0, Listening;
      while taken < |events|
        invariant taken <= |events| && end == Listening
        invariant valid ==> Valid()
        invariant ListenFrom(HearerOf(f, ownId, own), Books(), last, events, taken, sent) == total
        decreases |events| - taken
      {
        var stop;
        taken, last, sent, end, stop := ListenOne(f, ownId, own, events, taken, last, sent);
        if stop {
          return;
        }
      }
    }
  }
}
