/**
 * What the trading agents do to their books, as functions of the books:
 * `sell_ticket`, the reactions of `handle_udp_message` to a peer's message,
 * and one round of `send_requests_to_server`, for each family of client
 * programs. The `Agent` class in the Agents module carries out the same
 * steps on its fields.
 */
module Ledgers {
  import opened Wrappers
  import opened Text
  import opened Holdings
  import opened Peer

  const StartingBalance := 4000
  const MaxRounds := 15

  /** The agent's books: `user_balance[0]`, `ticket_db` and the `transaction_complete` event. */
  datatype Ledger = Ledger(balance: int, holdings: seq<Holding>, complete: bool)

  /** Cash plus the recorded prices of the tickets held. */
  function Worth(l: Ledger): int {
    l.balance + Total(l.holdings)
  }

  /** What handling one message does: the new books, what was sent, and whether an exception escaped. */
  datatype Reaction = Reaction(ledger: Ledger, sent: seq<Send>, raised: bool)

  function Raise(l: Ledger): Reaction {
    Reaction(l, [], true)
  }

  /**
   * `sell_ticket`: with tickets held, the oldest is offered back to the
   * exchange and its recorded price credited, whatever the exchange answers;
   * with none held nothing happens.
   */
  function SellOldest(l: Ledger): (r: (Ledger, seq<Send>))
    ensures r.0.complete == l.complete
    ensures l.holdings == [] ==> r == (l, [])
    ensures l.holdings != [] ==>
      r.1 == [Tcp("SELL " + l.holdings[0].id)] &&
      r.0.balance == l.balance + l.holdings[0].price &&
      Keys(r.0.holdings) == Keys(l.holdings)[1..] &&
      (forall x :: x != l.holdings[0].id ==> Lookup(r.0.holdings, x) == Lookup(l.holdings, x))
    ensures DistinctIds(l.holdings) ==> DistinctIds(r.0.holdings)
    ensures DistinctIds(l.holdings) && l.holdings != [] ==> Lookup(r.0.holdings, l.holdings[0].id) == None
  {
    if l.holdings == [] then (l, [])
    else
      var h := l.holdings;
      (l.(balance := l.balance + h[0].price, holdings := RemoveAt(h, 0)), [Tcp("SELL " + h[0].id)])
  }

  /** Selling back moves the recorded price from the holdings to the cash: the worth is unchanged. */
  lemma SellOldestKeepsWorth(l: Ledger)
    ensures Worth(SellOldest(l).0) == Worth(l)
  {
    if l.holdings != [] {
      TotalRemove(l.holdings, 0);
    }
  }

  /** `ticket_db[id] = price` and `user_balance -= price`. */
  function Record(l: Ledger, id: string, price: int): Ledger {
    l.(holdings := Put(l.holdings, id, price), balance := l.balance - price)
  }

  /** Recording a ticket not yet held moves its price from the cash to the holdings. */
  lemma RecordKeepsWorth(l: Ledger, id: string, price: int)
    requires Lookup(l.holdings, id).None?
    ensures Worth(Record(l, id, price)) == Worth(l)
  {
    TotalPut(l.holdings, id, price);
  }

  /**
   * The scalper's answer when it offers the holding at `k` to a buyer with
   * `funds`: at twice the recorded price if the funds reach it, and then
   * (when `transfer`) the ticket leaves the books and the doubled price is
   * credited; NOMONEY otherwise.
   */
  function Offer(l: Ledger, k: nat, funds: int, to: Addr, tag: Option<string>, transfer: bool): Reaction
    requires k < |l.holdings|
  {
    var x := l.holdings[k];
    if funds >= 2 * x.price then
      var l2 := if transfer then l.(balance := l.balance + 2 * x.price, holdings := RemoveAt(l.holdings, k)) else l;
      Reaction(l2, [Udp(to, Tagged(tag, PriceLine(x.id, 2 * x.price)))], false)
    else Reaction(l, [Udp(to, Tagged(tag, NoMoney))], false)
  }

  /** `int(parts[1])` for a SCALP request; `None` when it raises. */
  function ScalpFunds(parts: seq<string>): Option<int> {
    if |parts| < 2 then None else ParseInt(parts[1])
  }

  /** The offer branch's test `parts[0].isdigit() and len(parts) == 2`. */
  predicate IsOfferShape(parts: seq<string>) {
    |parts| == 2 && IsDigits(parts[0])
  }

  /**
   * `handle_udp_message` of client-0-38 and client-0-40 (`tag` is the own
   * id) and of client-0-30 (`tag` is `None`): the scalper offers its
   * cheapest holding, the buyer records an offer, and NOMONEY makes the
   * buyer sell one holding back.
   */
  function ReactTrader(tag: Option<string>, l: Ledger, from: Addr, body: string): Reaction {
    var parts := Split(body);
    if |parts| == 0 then Raise(l)
    else if parts[0] == "SCALP" then
      match ScalpFunds(parts)
      case None => Raise(l)
      case Some(funds) =>
        if l.holdings == [] then Reaction(l, [Udp(from, Tagged(tag, SoldOutNotice))], false)
        else Offer(l, Cheapest(l.holdings), funds, from, tag, true)
    else if IsOfferShape(parts) then
      match ParseInt(parts[1])
      case None => Raise(l)
      case Some(price) => Reaction(Record(l, parts[0], price).(complete := true), [], false)
    else if body == NoMoney then
      var (l2, s) := SellOldest(l);
      Reaction(l2.(complete := true), s, false)
    else Reaction(l, [], false)
  }

  /** client-0-29: only SCALP is acted on; an affordable offer goes to the static peer, an unaffordable one gets no answer. */
  function React29(l: Ledger, body: string): Reaction {
    var parts := Split(body);
    if |parts| == 0 then Raise(l)
    else if parts[0] == "SCALP" then
      match ScalpFunds(parts)
      case None => Raise(l)
      case Some(funds) =>
        if l.holdings == [] then Reaction(l, [], false)
        else
          var k := Cheapest(l.holdings);
          var x := l.holdings[k];
          if funds >= 2 * x.price then
            Reaction(l.(balance := l.balance + 2 * x.price, holdings := RemoveAt(l.holdings, k)),
                     [Udp(StaticPeer, PriceLine(x.id, 2 * x.price))], false)
          else Reaction(l, [], false)
    else Reaction(l, [], false)
  }

  /**
   * client-0-24: the scalper side as in client-0-30; the buyer takes an
   * offer only if its own balance covers it, and otherwise answers NOMONEY
   * to the static peer and sells one holding back.
   */
  function React24(l: Ledger, from: Addr, body: string): Reaction {
    var parts := Split(body);
    if |parts| == 0 then Raise(l)
    else if parts[0] == "SCALP" then
      match ScalpFunds(parts)
      case None => Raise(l)
      case Some(funds) =>
        if l.holdings == [] then Reaction(l, [Udp(from, SoldOutNotice)], false)
        else Offer(l, Cheapest(l.holdings), funds, from, None, true)
    else if IsOfferShape(parts) then
      match ParseInt(parts[1])
      case None => Raise(l)
      case Some(price) =>
        if l.balance >= price then Reaction(Record(l, parts[0], price), [], false)
        else
          var (l2, s) := SellOldest(l);
          Reaction(l2, [Udp(StaticPeer, NoMoney)] + s, false)
    else Reaction(l, [], false)
  }

  /** client-0-20: only SCALP is acted on, and the oldest holding is offered instead of the cheapest. */
  function React20(l: Ledger, from: Addr, body: string): Reaction {
    var parts := Split(body);
    if |parts| == 0 then Raise(l)
    else if parts[0] == "SCALP" then
      match ScalpFunds(parts)
      case None => Raise(l)
      case Some(funds) =>
        if l.holdings == [] then Reaction(l, [Udp(from, SoldOutNotice)], false)
        else Offer(l, 0, funds, from, None, true)
    else Reaction(l, [], false)
  }

  /** client-0-18: the oldest holding is offered to the static peer, but a sale changes nothing in the books. */
  function React18(l: Ledger, body: string): Reaction {
    var parts := Split(body);
    if |parts| == 0 then Raise(l)
    else if parts[0] == "SCALP" then
      match ScalpFunds(parts)
      case None => Raise(l)
      case Some(funds) =>
        if l.holdings == [] then Reaction(l, [Udp(StaticPeer, NoMoney)], false)
        else Offer(l, 0, funds, StaticPeer, None, false)
    else Reaction(l, [], false)
  }

  /** client-0-17: like client-0-18, but the test uses the scalper's own balance and the buyer's is never read. */
  function React17(l: Ledger, body: string): Reaction {
    var parts := Split(body);
    if |parts| == 0 then Raise(l)
    else if parts[0] == "SCALP" then
      if l.holdings == [] then Reaction(l, [Udp(StaticPeer, NoMoney)], false)
      else Offer(l, 0, l.balance, StaticPeer, None, false)
    else Reaction(l, [], false)
  }

  /**
   * A SCALP from a buyer with `funds` that reach twice the cheapest price
   * sells that ticket (the first of equal cheapest ones): it leaves the
   * books, twice its price is credited, the offer goes back to the sender,
   * and the worth grows by exactly the recorded price.
   */
  lemma TraderScalpSale(tag: Option<string>, l: Ledger, from: Addr, funds: int)
    requires DistinctIds(l.holdings) && l.holdings != []
    requires funds >= 2 * l.holdings[Cheapest(l.holdings)].price
    ensures var k := Cheapest(l.holdings);
      var x := l.holdings[k];
      var r := ReactTrader(tag, l, from, ScalpRequest(funds));
      (forall j :: 0 <= j < |l.holdings| ==> x.price <= l.holdings[j].price) &&
      (forall j :: 0 <= j < k ==> l.holdings[j].price > x.price) &&
      r.sent == [Udp(from, Tagged(tag, PriceLine(x.id, 2 * x.price)))] && !r.raised &&
      r.ledger.balance == l.balance + 2 * x.price && r.ledger.complete == l.complete &&
      r.ledger.holdings == RemoveAt(l.holdings, k) &&
      Lookup(r.ledger.holdings, x.id) == None && DistinctIds(r.ledger.holdings) &&
      (forall y :: y != x.id ==> Lookup(r.ledger.holdings, y) == Lookup(l.holdings, y)) &&
      Worth(r.ledger) == Worth(l) + x.price
  {
    var k := Cheapest(l.holdings);
    ReadScalpRequest(funds);
    assert ReactTrader(tag, l, from, ScalpRequest(funds)) == Offer(l, k, funds, from, tag, true);
    TotalRemove(l.holdings, k);
  }

  /** A SCALP the scalper cannot serve changes nothing: NOMONEY when the funds fall short, a sold-out notice when it holds nothing. */
  lemma TraderScalpRefused(tag: Option<string>, l: Ledger, from: Addr, funds: int)
    requires l.holdings == [] || funds < 2 * l.holdings[Cheapest(l.holdings)].price
    ensures var r := ReactTrader(tag, l, from, ScalpRequest(funds));
      r.ledger == l && !r.raised &&
      r.sent == [Udp(from, Tagged(tag, if l.holdings == [] then SoldOutNotice else NoMoney))]
  {
    ReadScalpRequest(funds);
  }

  /**
   * An offer `"<digits> <price>"` for a ticket not yet held is recorded at
   * that price and debited, which keeps the worth, and releases the next
   * round.
   */
  lemma TraderTakesOffer(tag: Option<string>, l: Ledger, from: Addr, id: string, price: int)
    requires IsDigits(id) && Lookup(l.holdings, id).None?
    ensures var r := ReactTrader(tag, l, from, PriceLine(id, price));
      !r.raised && r.sent == [] && r.ledger == Record(l, id, price).(complete := true) &&
      Lookup(r.ledger.holdings, id) == Some(price) && r.ledger.balance == l.balance - price &&
      (forall y :: y != id ==> Lookup(r.ledger.holdings, y) == Lookup(l.holdings, y)) &&
      Worth(r.ledger) == Worth(l)
  {
    ReadPriceLine(id, price);
    assert "SCALP"[0] == 'S';
    assert IsOfferShape(Split(PriceLine(id, price)));
    assert ReactTrader(tag, l, from, PriceLine(id, price)) == Reaction(Record(l, id, price).(complete := true), [], false);
    RecordKeepsWorth(l, id, price);
  }

  /** NOMONEY makes the buyer sell one holding back, if it has one, and always releases the next round. */
  lemma TraderNoMoney(tag: Option<string>, l: Ledger, from: Addr)
    ensures var r := ReactTrader(tag, l, from, NoMoney);
      !r.raised && r.ledger == SellOldest(l).0.(complete := true) && r.sent == SellOldest(l).1 &&
      Worth(r.ledger) == Worth(l)
  {
    assert Split(NoMoney) == [NoMoney] by {
      assert IsToken(NoMoney) by {
        forall i | 0 <= i < |NoMoney| ensures !IsSpace(NoMoney[i]) { }
      }
      SplitOneToken(NoMoney);
    }
    assert NoMoney[0] == 'N';
    SellOldestKeepsWorth(l);
  }

  /**
   * Every other body leaves the books as they are and is not answered;
   * the sold-out notice is one of them, so it does not release the next round.
   */
  lemma TraderIgnoresOthers(tag: Option<string>, l: Ledger, from: Addr, body: string)
    requires |Split(body)| > 0 && Split(body)[0] != "SCALP"
    requires !IsOfferShape(Split(body)) && body != NoMoney
    ensures ReactTrader(tag, l, from, body) == Reaction(l, [], false)
  {
  }

  /** The client-0-24 buyer never takes an offer it cannot pay for, so an offer never drives a non-negative balance below zero. */
  lemma OfferNeverOverdraws24(l: Ledger, from: Addr, id: string, price: int)
    requires IsDigits(id) && l.balance >= 0
    requires forall j :: 0 <= j < |l.holdings| ==> l.holdings[j].price >= 0
    ensures var r := React24(l, from, PriceLine(id, price));
      !r.raised && r.ledger.balance >= 0 &&
      (l.balance >= price ==> r.ledger == Record(l, id, price) && r.sent == []) &&
      (l.balance < price ==> r.ledger == SellOldest(l).0 && r.sent == [Udp(StaticPeer, NoMoney)] + SellOldest(l).1)
  {
    ReadPriceLine(id, price);
  }

  /** The client-0-20 scalper offers its oldest holding, whatever the prices of the others. */
  lemma Scalp20OffersOldest(l: Ledger, from: Addr, funds: int)
    requires l.holdings != []
    ensures var x := l.holdings[0];
      var r := React20(l, from, ScalpRequest(funds));
      !r.raised &&
      (funds >= 2 * x.price ==>
         r.sent == [Udp(from, PriceLine(x.id, 2 * x.price))] &&
         r.ledger.balance == l.balance + 2 * x.price && r.ledger.holdings == RemoveAt(l.holdings, 0)) &&
      (funds < 2 * x.price ==> r.sent == [Udp(from, NoMoney)] && r.ledger == l)
  {
    ReadScalpRequest(funds);
  }

  /** The client-0-18 and client-0-17 handlers never change the books, and answer only the static peer. */
  lemma OfferOnlyHandlersKeepBooks(l: Ledger, body: string)
    ensures React18(l, body).ledger == l && React17(l, body).ledger == l
    ensures forall i :: 0 <= i < |React18(l, body).sent| ==> React18(l, body).sent[i].Udp? && React18(l, body).sent[i].to == StaticPeer
    ensures forall i :: 0 <= i < |React17(l, body).sent| ==> React17(l, body).sent[i].Udp? && React17(l, body).sent[i].to == StaticPeer
  {
  }

  /** In client-0-17 the answer depends on the scalper's own balance: the same request gets a different answer for a different scalper balance. */
  lemma Scalp17ReadsOwnBalance(l: Ledger, funds: int)
    requires l.holdings != []
    ensures var x := l.holdings[0];
      React17(l, ScalpRequest(funds)).sent ==
        [Udp(StaticPeer, if l.balance >= 2 * x.price then PriceLine(x.id, 2 * x.price) else NoMoney)]
  {
    ReadScalpRequest(funds);
  }

  /** Each handler keeps the holding ids distinct. */
  lemma ReactionsKeepDistinctIds(tag: Option<string>, l: Ledger, from: Addr, body: string)
    requires DistinctIds(l.holdings)
    ensures DistinctIds(ReactTrader(tag, l, from, body).ledger.holdings)
    ensures DistinctIds(React29(l, body).ledger.holdings)
    ensures DistinctIds(React24(l, from, body).ledger.holdings)
    ensures DistinctIds(React20(l, from, body).ledger.holdings)
  {
    TraderKeepsDistinctIds(tag, l, from, body);
    React29KeepsDistinctIds(l, body);
    React24KeepsDistinctIds(l, from, body);
    React20KeepsDistinctIds(l, from, body);
  }

  lemma TraderKeepsDistinctIds(tag: Option<string>, l: Ledger, from: Addr, body: string)
    requires DistinctIds(l.holdings)
    ensures DistinctIds(ReactTrader(tag, l, from, body).ledger.holdings)
  {
  }

  lemma React29KeepsDistinctIds(l: Ledger, body: string)
    requires DistinctIds(l.holdings)
    ensures DistinctIds(React29(l, body).ledger.holdings)
  {
  }

  lemma React24KeepsDistinctIds(l: Ledger, from: Addr, body: string)
    requires DistinctIds(l.holdings)
    ensures DistinctIds(React24(l, from, body).ledger.holdings)
  {
  }

  lemma React20KeepsDistinctIds(l: Ledger, from: Addr, body: string)
    requires DistinctIds(l.holdings)
    ensures DistinctIds(React20(l, from, body).ledger.holdings)
  {
  }

  // ---- send_requests_to_server ----

  /** The families of `send_requests_to_server`; client-0-40 shares client-0-38's, client-0-20 client-0-24's, client-0-16 client-0-13's. */
  datatype Engine = Engine38 | Engine30 | Engine29 | Engine24 | Engine18 | Engine17 | Engine13 | Engine06

  /** The engines that wait for and clear `transaction_complete` at the start of every round. */
  predicate Waits(e: Engine) {
    e == Engine38 || e == Engine30 || e == Engine29
  }

  datatype RoundStatus = Continued | Raised

  /** One round: the new books, what was sent, how many exchange replies were read, and whether it raised. */
  datatype RoundResult = RoundResult(ledger: Ledger, sent: seq<Send>, used: nat, status: RoundStatus)

  /** `tcp_socket.recv(1024)`: the exchange's replies one per call, then the empty string once the connection is closed. */
  function Recv(inbox: seq<string>, cursor: nat): string {
    if cursor < |inbox| then inbox[cursor] else ""
  }

  function BuyRequest(balance: int): string {
    "BUY " + IntToString(balance)
  }

  /** `ticket_number, price = response.split()` and `int(price)`; `None` when either raises. */
  function ParsePurchase(response: string): Option<(string, int)> {
    var w := Split(response);
    if |w| == 2 then
      match ParseInt(w[1])
      case Some(p) => Some((w[0], p))
      case None => None
    else None
  }

  lemma ParsePurchaseOfPriceLine(id: string, price: int)
    requires IsToken(id)
    ensures ParsePurchase(PriceLine(id, price)) == Some((id, price))
  {
    ReadPriceLine(id, price);
  }

  /** A purchase reply: recorded and debited, or a raise when it does not parse. */
  function TakePurchase(l: Ledger, response: string, release: bool): (Ledger, RoundStatus) {
    match ParsePurchase(response)
    case None => (l, Raised)
    case Some((id, price)) => (Record(l, id, price).(complete := l.complete || release), Continued)
  }

  lemma TakePurchaseKeepsWorth(l: Ledger, response: string, release: bool)
    requires var p := ParsePurchase(response); p.Some? ==> Lookup(l.holdings, p.value.0).None?
    ensures Worth(TakePurchase(l, response, release).0) == Worth(l)
  {
    var p := ParsePurchase(response);
    if p.Some? {
      RecordKeepsWorth(l, p.value.0, p.value.1);
    }
  }

  /** The scalp request `become_scalper` sends: framed with the own id by client-0-38 and client-0-40. */
  function ScalpTag(e: Engine, ownId: string): Option<string> {
    if e == Engine38 then Some(ownId) else None
  }

  /**
   * One round of client-0-38, client-0-40 and client-0-30: a NOFUNDS reply
   * sells the oldest holding back and releases the next round; SOLDOUT asks
   * the peer to scalp; anything else is a purchase, which also releases it.
   */
  function RoundTrader(tag: Option<string>, peer: Addr, l: Ledger, response: string): (r: RoundResult)
    ensures r.status == Raised ==> r.ledger == l
  {
    var buy := [Tcp(BuyRequest(l.balance))];
    if Contains(response, "NOFUNDS") then
      var (l2, s) := SellOldest(l);
      RoundResult(l2.(complete := true), buy + s, 1 + |s|, Continued)
    else if Contains(response, "SOLDOUT") then
      RoundResult(l, buy + [Udp(peer, Tagged(tag, ScalpRequest(l.balance)))], 1, Continued)
    else
      var (l2, st) := TakePurchase(l, response, true);
      RoundResult(l2, buy, 1, st)
  }

  /** One round of client-0-29, client-0-24 and client-0-20: as the traders', but an empty reply is skipped and nothing releases the next round. */
  function Round29(peer: Addr, l: Ledger, response: string): (r: RoundResult)
    ensures r.status == Raised ==> r.ledger == l
  {
    var buy := [Tcp(BuyRequest(l.balance))];
    if Contains(response, "NOFUNDS") then
      var (l2, s) := SellOldest(l);
      RoundResult(l2, buy + s, 1 + |s|, Continued)
    else if Contains(response, "SOLDOUT") then
      RoundResult(l, buy + [Udp(peer, ScalpRequest(l.balance))], 1, Continued)
    else if response == "" then RoundResult(l, buy, 1, Continued)
    else
      var (l2, st) := TakePurchase(l, response, false);
      RoundResult(l2, buy, 1, st)
  }

  /**
   * One round of client-0-18: `sell_ticket` is not defined and
   * `become_scalper` names a socket that is not in scope, so NOFUNDS and
   * SOLDOUT both raise.
   */
  function Round18(l: Ledger, response: string): (r: RoundResult)
    ensures r.status == Raised ==> r.ledger == l
  {
    var buy := [Tcp(BuyRequest(l.balance))];
    if Contains(response, "NOFUNDS") || Contains(response, "SOLDOUT") then RoundResult(l, buy, 1, Raised)
    else if response == "" then RoundResult(l, buy, 1, Continued)
    else
      var (l2, st) := TakePurchase(l, response, false);
      RoundResult(l2, buy, 1, st)
  }

  /** One round of client-0-17: SOLDOUT and an empty reply end the round with nothing else sent. */
  function Round17(l: Ledger, response: string): (r: RoundResult)
    ensures r.status == Raised ==> r.ledger == l
  {
    var buy := [Tcp(BuyRequest(l.balance))];
    if Contains(response, "NOFUNDS") then
      var (l2, s) := SellOldest(l);
      RoundResult(l2, buy + s, 1 + |s|, Continued)
    else if Contains(response, "SOLDOUT") || response == "" then RoundResult(l, buy, 1, Continued)
    else
      var (l2, st) := TakePurchase(l, response, false);
      RoundResult(l2, buy, 1, st)
  }

  /** One round of client-0-13 and client-0-16: SOLDOUT ends the round; an empty reply fails to parse. */
  function Round13(l: Ledger, response: string): (r: RoundResult)
    ensures r.status == Raised ==> r.ledger == l
  {
    var buy := [Tcp(BuyRequest(l.balance))];
    if Contains(response, "NOFUNDS") then
      var (l2, s) := SellOldest(l);
      RoundResult(l2, buy + s, 1 + |s|, Continued)
    else if Contains(response, "SOLDOUT") then RoundResult(l, buy, 1, Continued)
    else
      var (l2, st) := TakePurchase(l, response, false);
      RoundResult(l2, buy, 1, st)
  }

  /** One round of client-0-6: the replies are told apart by their first word, and the SELL goes out with its reply left unread. */
  function Round06(l: Ledger, response: string): (r: RoundResult)
    ensures r.status == Raised ==> r.ledger == l
  {
    var buy := [Tcp(BuyRequest(l.balance))];
    if StartsWith(response, "NOFUNDS") then
      var (l2, s) := SellOldest(l);
      RoundResult(l2, buy + s, 1, Continued)
    else if StartsWith(response, "SOLDOUT") then RoundResult(l, buy, 1, Continued)
    else
      var (l2, st) := TakePurchase(l, response, false);
      RoundResult(l2, buy, 1, st)
  }

  /**
   * One round after the event has been waited for and cleared: `BUY <balance>`
   * is sent, one reply is read, and the reply picks the branch.
   */
  function PlayRound(e: Engine, ownId: string, peer: Addr, l: Ledger, inbox: seq<string>, cursor: nat): (r: RoundResult)
    ensures r.status == Raised ==> r.ledger == l
    ensures |r.sent| > 0 && r.sent[0] == Tcp(BuyRequest(l.balance))
  {
    var response := Recv(inbox, cursor);
    match e
    case Engine38 | Engine30 => RoundTrader(ScalpTag(e, ownId), peer, l, response)
    case Engine29 | Engine24 => Round29(peer, l, response)
    case Engine18 => Round18(l, response)
    case Engine17 => Round17(l, response)
    case Engine13 => Round13(l, response)
    case Engine06 => Round06(l, response)
  }

  /** A reply that every engine takes as the purchase of `id` at `price`: no refusal word in it, and it splits and parses. */
  predicate IsPurchaseReply(response: string, id: string, price: int) {
    !Contains(response, "NOFUNDS") && !Contains(response, "SOLDOUT") && response != "" &&
    ParsePurchase(response) == Some((id, price))
  }

  /** The exchange's purchase reply `"<id> <price>"` for a numeric ticket id is such a reply. */
  lemma PriceLineIsPurchaseReply(id: string, price: int)
    requires IsDigits(id)
    ensures IsPurchaseReply(PriceLine(id, price), id, price)
  {
    PriceLineLacksWord(id, price, "NOFUNDS");
    PriceLineLacksWord(id, price, "SOLDOUT");
    ParsePurchaseOfPriceLine(id, price);
    assert PriceLine(id, price) != "";
  }

  /** What a purchase reply is not, and what `TakePurchase` does with it. */
  lemma ReadPurchaseReply(l: Ledger, response: string, id: string, price: int, release: bool)
    requires IsPurchaseReply(response, id, price)
    ensures !StartsWith(response, "NOFUNDS") && !StartsWith(response, "SOLDOUT")
    ensures TakePurchase(l, response, release) == (Record(l, id, price).(complete := l.complete || release), Continued)
  {
    if StartsWith(response, "NOFUNDS") { ContainsPrefix(response, "NOFUNDS"); }
    if StartsWith(response, "SOLDOUT") { ContainsPrefix(response, "SOLDOUT"); }
  }

  /** A purchase reply for a ticket not yet held: every engine records it, debits its price and keeps the worth. */
  lemma RoundRecordsPurchase(e: Engine, ownId: string, peer: Addr, l: Ledger, inbox: seq<string>, cursor: nat, id: string, price: int)
    requires IsPurchaseReply(Recv(inbox, cursor), id, price)
    requires Lookup(l.holdings, id).None?
    ensures var l2 := Record(l, id, price);
      PlayRound(e, ownId, peer, l, inbox, cursor) ==
      RoundResult(if e == Engine38 || e == Engine30 then l2.(complete := true) else l2,
                  [Tcp(BuyRequest(l.balance))], 1, Continued)
    ensures Lookup(Record(l, id, price).holdings, id) == Some(price)
    ensures Record(l, id, price).balance == l.balance - price
    ensures Worth(Record(l, id, price)) == Worth(l)
  {
    PurchaseRound(e, ownId, peer, l, Recv(inbox, cursor), id, price);
    RecordKeepsWorth(l, id, price);
  }

  lemma PurchaseRound(e: Engine, ownId: string, peer: Addr, l: Ledger, response: string, id: string, price: int)
    requires IsPurchaseReply(response, id, price)
    ensures var l2 := Record(l, id, price);
      var buy := [Tcp(BuyRequest(l.balance))];
      match e
      case Engine38 | Engine30 => RoundTrader(ScalpTag(e, ownId), peer, l, response) == RoundResult(l2.(complete := true), buy, 1, Continued)
      case Engine29 | Engine24 => Round29(peer, l, response) == RoundResult(l2, buy, 1, Continued)
      case Engine18 => Round18(l, response) == RoundResult(l2, buy, 1, Continued)
      case Engine17 => Round17(l, response) == RoundResult(l2, buy, 1, Continued)
      case Engine13 => Round13(l, response) == RoundResult(l2, buy, 1, Continued)
      case Engine06 => Round06(l, response) == RoundResult(l2, buy, 1, Continued)
  {
    match e
    case Engine38 | Engine30 => TraderRoundPurchase(ScalpTag(e, ownId), peer, l, response, id, price);
    case Engine29 | Engine24 => Round29Purchase(peer, l, response, id, price);
    case Engine18 => Round18Purchase(l, response, id, price);
    case Engine17 => Round17Purchase(l, response, id, price);
    case Engine13 => Round13Purchase(l, response, id, price);
    case Engine06 => Round06Purchase(l, response, id, price);
  }

  lemma TraderRoundPurchase(tag: Option<string>, peer: Addr, l: Ledger, response: string, id: string, price: int)
    requires IsPurchaseReply(response, id, price)
    ensures RoundTrader(tag, peer, l, response) == RoundResult(Record(l, id, price).(complete := true), [Tcp(BuyRequest(l.balance))], 1, Continued)
  {
    ReadPurchaseReply(l, response, id, price, true);
  }

  lemma Round29Purchase(peer: Addr, l: Ledger, response: string, id: string, price: int)
    requires IsPurchaseReply(response, id, price)
    ensures Round29(peer, l, response) == RoundResult(Record(l, id, price), [Tcp(BuyRequest(l.balance))], 1, Continued)
  {
    ReadPurchaseReply(l, response, id, price, false);
  }

  lemma Round18Purchase(l: Ledger, response: string, id: string, price: int)
    requires IsPurchaseReply(response, id, price)
    ensures Round18(l, response) == RoundResult(Record(l, id, price), [Tcp(BuyRequest(l.balance))], 1, Continued)
  {
    ReadPurchaseReply(l, response, id, price, false);
  }

  lemma Round17Purchase(l: Ledger, response: string, id: string, price: int)
    requires IsPurchaseReply(response, id, price)
    ensures Round17(l, response) == RoundResult(Record(l, id, price), [Tcp(BuyRequest(l.balance))], 1, Continued)
  {
    ReadPurchaseReply(l, response, id, price, false);
  }

  lemma Round13Purchase(l: Ledger, response: string, id: string, price: int)
    requires IsPurchaseReply(response, id, price)
    ensures Round13(l, response) == RoundResult(Record(l, id, price), [Tcp(BuyRequest(l.balance))], 1, Continued)
  {
    ReadPurchaseReply(l, response, id, price, false);
  }

  lemma Round06Purchase(l: Ledger, response: string, id: string, price: int)
    requires IsPurchaseReply(response, id, price)
    ensures Round06(l, response) == RoundResult(Record(l, id, price), [Tcp(BuyRequest(l.balance))], 1, Continued)
  {
    ReadPurchaseReply(l, response, id, price, false);
  }

  /**
   * A NOFUNDS reply makes every engine except client-0-18's sell its oldest
   * holding back; client-0-38, client-0-40 and client-0-30 then release the
   * next round, and client-0-6 leaves the SELL's reply unread.
   */
  lemma RoundSellsBackOnNoFunds(e: Engine, ownId: string, peer: Addr, l: Ledger, inbox: seq<string>, cursor: nat)
    requires e != Engine18
    requires if e == Engine06 then StartsWith(Recv(inbox, cursor), "NOFUNDS") else Contains(Recv(inbox, cursor), "NOFUNDS")
    ensures var (l2, s) := SellOldest(l);
      PlayRound(e, ownId, peer, l, inbox, cursor) ==
      RoundResult(if e == Engine38 || e == Engine30 then l2.(complete := true) else l2,
                  [Tcp(BuyRequest(l.balance))] + s, if e == Engine06 then 1 else 1 + |s|, Continued)
  {
  }

  predicate SameBooks(a: Ledger, b: Ledger) {
    a.balance == b.balance && a.holdings == b.holdings
  }

  /** The books after a round are the books before, or those after a sale of the oldest holding or after a purchase. */
  predicate RoundBooks(l: Ledger, response: string, l2: Ledger) {
    SameBooks(l2, l) || SameBooks(l2, SellOldest(l).0) || SameBooks(l2, TakePurchase(l, response, false).0)
  }

  lemma TraderRoundBooks(tag: Option<string>, peer: Addr, l: Ledger, response: string)
    ensures RoundBooks(l, response, RoundTrader(tag, peer, l, response).ledger)
  {
  }

  lemma Round29Books(peer: Addr, l: Ledger, response: string)
    ensures RoundBooks(l, response, Round29(peer, l, response).ledger)
  {
  }

  lemma Round18Books(l: Ledger, response: string)
    ensures RoundBooks(l, response, Round18(l, response).ledger)
  {
  }

  lemma Round17Books(l: Ledger, response: string)
    ensures RoundBooks(l, response, Round17(l, response).ledger)
  {
  }

  lemma Round13Books(l: Ledger, response: string)
    ensures RoundBooks(l, response, Round13(l, response).ledger)
  {
  }

  lemma Round06Books(l: Ledger, response: string)
    ensures RoundBooks(l, response, Round06(l, response).ledger)
  {
  }

  lemma PlayRoundBooks(e: Engine, ownId: string, peer: Addr, l: Ledger, inbox: seq<string>, cursor: nat)
    ensures RoundBooks(l, Recv(inbox, cursor), PlayRound(e, ownId, peer, l, inbox, cursor).ledger)
  {
    var response := Recv(inbox, cursor);
    match e
    case Engine38 | Engine30 => TraderRoundBooks(ScalpTag(e, ownId), peer, l, response);
    case Engine29 | Engine24 => Round29Books(peer, l, response);
    case Engine18 => Round18Books(l, response);
    case Engine17 => Round17Books(l, response);
    case Engine13 => Round13Books(l, response);
    case Engine06 => Round06Books(l, response);
  }

  /** A round that does not raise keeps the worth, as long as a purchase it records is of a ticket not yet held. */
  lemma RoundKeepsWorth(e: Engine, ownId: string, peer: Addr, l: Ledger, inbox: seq<string>, cursor: nat)
    requires var p := ParsePurchase(Recv(inbox, cursor)); p.Some? ==> Lookup(l.holdings, p.value.0).None?
    ensures Worth(PlayRound(e, ownId, peer, l, inbox, cursor).ledger) == Worth(l)
  {
    PlayRoundBooks(e, ownId, peer, l, inbox, cursor);
    RoundBooksKeepWorth(l, Recv(inbox, cursor), PlayRound(e, ownId, peer, l, inbox, cursor).ledger);
  }

  lemma RoundBooksKeepWorth(l: Ledger, response: string, l2: Ledger)
    requires var p := ParsePurchase(response); p.Some? ==> Lookup(l.holdings, p.value.0).None?
    requires RoundBooks(l, response, l2)
    ensures Worth(l2) == Worth(l)
  {
    SellOldestKeepsWorth(l);
    TakePurchaseKeepsWorth(l, response, false);
  }

  datatype EngineOutcome = Finished | Blocked | Failed

  /** The books after the rounds, everything sent, the number of rounds started, and how the loop ended. */
  datatype EngineRun = EngineRun(ledger: Ledger, sent: seq<Send>, rounds: nat, outcome: EngineOutcome)

  /** A round played from given books at a given reply: one engine's `PlayRound` against one stream of replies. */
  type Rounder = (Ledger, nat) -> RoundResult

  function RounderOf(e: Engine, ownId: string, peer: Addr, inbox: seq<string>): Rounder {
    (l: Ledger, cursor: nat) => PlayRound(e, ownId, peer, l, inbox, cursor)
  }

  /**
   * `for _ in range(left)` over the rounds played by `play`, after `done`
   * rounds that sent `sent`. When the loop `waits`, a round whose event is
   * clear at its start blocks there until the listener sets it; the model
   * stops at that point. Otherwise the event is cleared and the round played.
   */
  function RoundsFrom(play: Rounder, waits: bool, l: Ledger, cursor: nat, left: nat, sent: seq<Send>, done: nat): (r: EngineRun)
    ensures done <= r.rounds <= done + left
    ensures r.outcome == Finished ==> r.rounds == done + left
    ensures r.outcome == Blocked ==> waits
    ensures r.outcome == Failed ==> r.rounds > done
    decreases left
  {
    if left == 0 then EngineRun(l, sent, done, Finished)
    else if waits && !l.complete then EngineRun(l, sent, done, Blocked)
    else
      var r := play(if waits then l.(complete := false) else l, cursor);
      if r.status == Raised then EngineRun(r.ledger, sent + r.sent, done + 1, Failed)
      else RoundsFrom(play, waits, r.ledger, cursor + r.used, left - 1, sent + r.sent, done + 1)
  }

  /** A round that starts is played from the books with the event cleared, and the rest of the loop goes on from its result. */
  lemma RoundsFromStep(play: Rounder, waits: bool, l: Ledger, cursor: nat, left: nat, sent: seq<Send>, done: nat,
                       r: RoundResult, cursor': nat, left': nat, sent': seq<Send>, done': nat)
    requires left > 0 && (waits ==> l.complete)
    requires r == play(if waits then l.(complete := false) else l, cursor)
    requires cursor' == cursor + r.used && left' == left - 1 && sent' == sent + r.sent && done' == done + 1
    ensures r.status == Raised ==> RoundsFrom(play, waits, l, cursor, left, sent, done) == EngineRun(r.ledger, sent', done', Failed)
    ensures r.status != Raised ==>
      RoundsFrom(play, waits, l, cursor, left, sent, done) == RoundsFrom(play, waits, r.ledger, cursor', left', sent', done')
  {
  }

  /** The round loop of the engine `e` over the exchange's replies `inbox`. */
  function RunRounds(e: Engine, ownId: string, peer: Addr, l: Ledger, inbox: seq<string>, cursor: nat, left: nat,
                     sent: seq<Send>, done: nat): (r: EngineRun)
    ensures r.outcome == Blocked ==> Waits(e)
    ensures r.outcome == Finished ==> r.rounds == done + left
  {
    RoundsFrom(RounderOf(e, ownId, peer, inbox), Waits(e), l, cursor, left, sent, done)
  }

  /** client-0-29's rounds never set the event themselves, so without the listener at most one round runs. */
  lemma Engine29RunsOneRoundAlone(ownId: string, peer: Addr, l: Ledger, inbox: seq<string>, cursor: nat, left: nat)
    ensures RunRounds(Engine29, ownId, peer, l, inbox, cursor, left, [], 0).rounds <= 1
  {
    if left > 0 && l.complete {
      var play := RounderOf(Engine29, ownId, peer, inbox);
      var r := play(l.(complete := false), cursor);
      assert !r.ledger.complete;
      if r.status == Continued && left > 1 {
        assert RoundsFrom(play, true, r.ledger, cursor + r.used, left - 1, [] + r.sent, 1).rounds == 1;
      }
    }
  }

  /**
   * client-0-38, client-0-40 and client-0-30: a SOLDOUT reply sends the
   * scalp request to the peer and leaves the event clear, so the next round
   * waits for the listener.
   */
  lemma SoldOutWaitsForPeer(e: Engine, ownId: string, peer: Addr, l: Ledger, inbox: seq<string>, cursor: nat, left: nat)
    requires e == Engine38 || e == Engine30
    requires l.complete && left >= 2
    requires !Contains(Recv(inbox, cursor), "NOFUNDS") && Contains(Recv(inbox, cursor), "SOLDOUT")
    ensures RunRounds(e, ownId, peer, l, inbox, cursor, left, [], 0) ==
      EngineRun(l.(complete := false),
                [Tcp(BuyRequest(l.balance)), Udp(peer, Tagged(ScalpTag(e, ownId), ScalpRequest(l.balance)))],
                1, Blocked)
  {
    var play := RounderOf(e, ownId, peer, inbox);
    var start := l.(complete := false);
    var r := play(start, cursor);
    assert r == RoundResult(start, [Tcp(BuyRequest(l.balance)), Udp(peer, Tagged(ScalpTag(e, ownId), ScalpRequest(l.balance)))], 1, Continued);
    assert [] + r.sent == r.sent;
    assert RoundsFrom(play, true, l, cursor, left, [], 0) == RoundsFrom(play, true, start, cursor + 1, left - 1, r.sent, 1);
  }

  /** client-0-18 ends its loop at the first NOFUNDS or SOLDOUT reply, with nothing sent after the BUY. */
  lemma Engine18StopsOnRefusal(ownId: string, peer: Addr, l: Ledger, inbox: seq<string>, cursor: nat, left: nat)
    requires left > 0
    requires Contains(Recv(inbox, cursor), "NOFUNDS") || Contains(Recv(inbox, cursor), "SOLDOUT")
    ensures RunRounds(Engine18, ownId, peer, l, inbox, cursor, left, [], 0) ==
      EngineRun(l, [Tcp(BuyRequest(l.balance))], 1, Failed)
  {
    assert [] + [Tcp(BuyRequest(l.balance))] == [Tcp(BuyRequest(l.balance))];
  }

  /** The number of requests sent to the exchange. */
  function TcpCount(sent: seq<Send>): (n: nat)
    ensures n <= |sent|
  {
    if sent == [] then 0 else (if sent[0].Tcp? then 1 else 0) + TcpCount(sent[1..])
  }

  lemma TcpCountOfPair(a: Send, b: Send)
    ensures TcpCount([a, b]) == (if a.Tcp? then 1 else 0) + (if b.Tcp? then 1 else 0)
  {
    assert [a, b][1..] == [b];
    assert [b][1..] == [];
  }

  /**
   * Every engine except client-0-6's reads exactly one exchange reply for
   * each request it sends, so the next round reads the answer to its own BUY.
   */
  lemma OneReplyPerRequest(e: Engine, ownId: string, peer: Addr, l: Ledger, inbox: seq<string>, cursor: nat)
    requires e != Engine06
    ensures var r := PlayRound(e, ownId, peer, l, inbox, cursor);
      r.status == Continued ==> r.used == TcpCount(r.sent)
  {
    var r := PlayRound(e, ownId, peer, l, inbox, cursor);
    var b := Tcp(BuyRequest(l.balance));
    assert [b][1..] == [];
    if |r.sent| == 2 {
      TcpCountOfPair(r.sent[0], r.sent[1]);
    }
  }

  /**
   * client-0-6 as written: after a NOFUNDS reply it sends the BUY and the
   * SELL but reads one reply, so the answer to the SELL, `"<id> <price>"`,
   * is read by the next round as the answer to its BUY: the ticket just sold
   * back is recorded as bought again and its price debited, which undoes
   * the sale in the books though the exchange has taken the ticket back.
   */
  lemma UnreadSellReply06(ownId: string, peer: Addr, l: Ledger, inbox: seq<string>, cursor: nat)
    requires DistinctIds(l.holdings) && l.holdings != []
    requires StartsWith(Recv(inbox, cursor), "NOFUNDS")
    requires IsPurchaseReply(Recv(inbox, cursor + 1), l.holdings[0].id, l.holdings[0].price)
    ensures var x := l.holdings[0];
      var r1 := PlayRound(Engine06, ownId, peer, l, inbox, cursor);
      var r2 := PlayRound(Engine06, ownId, peer, r1.ledger, inbox, cursor + r1.used);
      TcpCount(r1.sent) == 2 && r1.used == 1 && r2.status == Continued &&
      Lookup(r2.ledger.holdings, x.id) == Some(x.price) && r2.ledger.balance == l.balance
  {
    var x := l.holdings[0];
    var l1 := SellOldest(l).0;
    var r1 := PlayRound(Engine06, ownId, peer, l, inbox, cursor);
    assert r1.ledger == l1 && r1.used == 1 && r1.sent == [Tcp(BuyRequest(l.balance)), Tcp("SELL " + x.id)] by {
      RoundSellsBackOnNoFunds(Engine06, ownId, peer, l, inbox, cursor);
    }
    TcpCountOfPair(Tcp(BuyRequest(l.balance)), Tcp("SELL " + x.id));
    var r2 := PlayRound(Engine06, ownId, peer, l1, inbox, cursor + 1);
    assert r2.status == Continued && r2.ledger == Record(l1, x.id, x.price) by {
      RoundRecordsPurchase(Engine06, ownId, peer, l1, inbox, cursor + 1, x.id, x.price);
    }
  }

  lemma ContainsPrefix(s: string, p: string)
    requires StartsWith(s, p)
    ensures Contains(s, p)
  {
  }
}
