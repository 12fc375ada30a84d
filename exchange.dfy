/**
 * The exchange's ticket table (`tickets` in the server programs): 25 tickets
 * whose ids are "10000" to "10024" in issuance order, each with a price and a
 * sold flag. Every BUY and every SELL runs inside `with lock:`, so each is one
 * atomic step on the table; the model gives each its own method.
 */
module Exchange {
  import opened Wrappers
  import opened Text

  const TicketCount := 25
  const FirstId := 10000
  const MinPrice := 200
  const MaxPrice := 400

  datatype Ticket = Ticket(id: string, price: int, sold: bool)

  /** What the critical section of a BUY decides. */
  datatype BuyOutcome = Purchased(id: string, price: int) | NoFunds | SoldOut

  /** What the critical section of a SELL decides. */
  datatype SellOutcome = Resold(id: string, price: int) | NotSold | UnknownId

  /** `f"{10000 + i}"`. */
  function TicketId(i: nat): string {
    NatToString(FirstId + i)
  }

  /** The dict comprehension that creates the table, with the drawn prices given in issuance order. */
  function InitialTable(prices: seq<int>): seq<Ticket> {
    seq(|prices|, i requires 0 <= i < |prices| => Ticket(TicketId(i), prices[i], false))
  }

  predicate DistinctIds(t: seq<Ticket>) {
    forall i, j :: 0 <= i < j < |t| ==> t[i].id != t[j].id
  }

  /** Same ids and prices in the same order: only the sold flags may differ. */
  predicate SameStock(a: seq<Ticket>, b: seq<Ticket>) {
    |a| == |b| && forall i :: 0 <= i < |a| ==> a[i].id == b[i].id && a[i].price == b[i].price
  }

  /** `b` is `a` with at most the ticket at position `k` changed, and then only in its sold flag. */
  predicate OnlyFlagAt(a: seq<Ticket>, b: seq<Ticket>, k: nat) {
    SameStock(a, b) && forall i :: 0 <= i < |a| && i != k ==> a[i] == b[i]
  }

  predicate InPriceRange(t: seq<Ticket>) {
    forall i :: 0 <= i < |t| ==> MinPrice <= t[i].price <= MaxPrice
  }

  predicate AllSold(t: seq<Ticket>) {
    forall i :: 0 <= i < |t| ==> t[i].sold
  }

  /** The guard of the BUY scan: `not details['sold'] and user_balance >= details['price']`. */
  predicate Affordable(x: Ticket, balance: int) {
    !x.sold && balance >= x.price
  }

  /** Position of the first unsold ticket in issuance order, or `|t|` when all are sold. */
  function FirstUnsold(t: seq<Ticket>): (k: nat)
    ensures k <= |t|
    ensures k < |t| ==> !t[k].sold
    ensures forall j :: 0 <= j < k ==> t[j].sold
  {
    if t == [] then 0 else if !t[0].sold then 0 else 1 + FirstUnsold(t[1..])
  }

  /** Position of the first unsold ticket priced within `balance`, or `|t|` when there is none. */
  function FirstAffordable(t: seq<Ticket>, balance: int): (k: nat)
    ensures k <= |t|
    ensures k < |t| ==> Affordable(t[k], balance)
    ensures forall j :: 0 <= j < k ==> !Affordable(t[j], balance)
  {
    if t == [] then 0 else if Affordable(t[0], balance) then 0 else 1 + FirstAffordable(t[1..], balance)
  }

  /** Position of the ticket called `id`, or `|t|` when there is none. */
  function IndexOfId(t: seq<Ticket>, id: string): (k: nat)
    ensures k <= |t|
    ensures k < |t| ==> t[k].id == id
    ensures forall j :: 0 <= j < k ==> t[j].id != id
  {
    if t == [] then 0 else if t[0].id == id then 0 else 1 + IndexOfId(t[1..], id)
  }

  function SetSold(t: seq<Ticket>, k: nat, sold: bool): seq<Ticket>
    requires k < |t|
  {
    t[k := t[k].(sold := sold)]
  }

  /** The table and reply after a BUY that stops at the first unsold ticket (server-0-5). */
  function BuyFirstUnsold(t: seq<Ticket>, balance: int): (r: (BuyOutcome, seq<Ticket>)) {
    var k := FirstUnsold(t);
    if k == |t| then (SoldOut, t)
    else if balance >= t[k].price then (Purchased(t[k].id, t[k].price), SetSold(t, k, true))
    else (NoFunds, t)
  }

  /** The table and reply after a BUY that takes the first affordable ticket or answers SOLDOUT (server-0-4, 0-7, 0-9). */
  function BuyFirstAffordable(t: seq<Ticket>, balance: int): (r: (BuyOutcome, seq<Ticket>)) {
    var k := FirstAffordable(t, balance);
    if k == |t| then (SoldOut, t) else (Purchased(t[k].id, t[k].price), SetSold(t, k, true))
  }

  /** The table and reply after server-0-8's for-else BUY: SOLDOUT only when every ticket is sold. */
  function BuyFirstAffordableOrNoFunds(t: seq<Ticket>, balance: int): (r: (BuyOutcome, seq<Ticket>)) {
    var k := FirstAffordable(t, balance);
    if k < |t| then (Purchased(t[k].id, t[k].price), SetSold(t, k, true))
    else if AllSold(t) then (SoldOut, t)
    else (NoFunds, t)
  }

  /** The table and outcome after a SELL of `id`. */
  function SellBack(t: seq<Ticket>, id: string): (r: (SellOutcome, seq<Ticket>)) {
    var k := IndexOfId(t, id);
    if k == |t| then (UnknownId, t)
    else if t[k].sold then (Resold(id, t[k].price), SetSold(t, k, false))
    else (NotSold, t)
  }

  /** The three BUY policies of the server programs. */
  datatype Policy = StopAtFirstUnsold | FirstAffordableElseSoldOut | FirstAffordableElseNoFunds

  function BuyWith(p: Policy, t: seq<Ticket>, balance: int): (BuyOutcome, seq<Ticket>) {
    match p
    case StopAtFirstUnsold => BuyFirstUnsold(t, balance)
    case FirstAffordableElseSoldOut => BuyFirstAffordable(t, balance)
    case FirstAffordableElseNoFunds => BuyFirstAffordableOrNoFunds(t, balance)
  }

  /** The ticket a policy picks: the first unsold one, or the first affordable one. */
  predicate Chosen(p: Policy, t: seq<Ticket>, balance: int, k: int) {
    0 <= k < |t| &&
    if p == StopAtFirstUnsold then !t[k].sold && forall j :: 0 <= j < k ==> t[j].sold
    else Affordable(t[k], balance) && forall j :: 0 <= j < k ==> !Affordable(t[j], balance)
  }

  predicate NoneAffordable(t: seq<Ticket>, balance: int) {
    forall i :: 0 <= i < |t| ==> !Affordable(t[i], balance)
  }

  function BuyReply(o: BuyOutcome): string {
    match o
    case Purchased(id, price) => PriceLine(id, price)
    case NoFunds => "NOFUNDS"
    case SoldOut => "SOLDOUT"
  }

  /**
   * A BUY that goes through marks exactly the chosen ticket sold, which was
   * unsold and priced within the balance, and replies with that ticket's id
   * and price; any other reply leaves the table as it was.
   */
  lemma BuyOutcomeMeaning(p: Policy, t: seq<Ticket>, balance: int)
    ensures var (o, t2) := BuyWith(p, t, balance);
      match o
      case Purchased(id, price) =>
        exists k :: Chosen(p, t, balance, k) && Affordable(t[k], balance) &&
          t[k].id == id && t[k].price == price && t2 == SetSold(t, k, true)
      case _ => t2 == t
  {
    var (o, t2) := BuyWith(p, t, balance);
    if o.Purchased? {
      var k := if p == StopAtFirstUnsold then FirstUnsold(t) else FirstAffordable(t, balance);
      assert Chosen(p, t, balance, k);
    }
  }

  /** When SOLDOUT is the reply: every ticket sold, except for the policy that also says it when nothing is affordable. */
  lemma SoldOutMeaning(p: Policy, t: seq<Ticket>, balance: int)
    ensures BuyWith(p, t, balance).0 == SoldOut <==>
      if p == FirstAffordableElseSoldOut then NoneAffordable(t, balance) else AllSold(t)
  {
    if p == StopAtFirstUnsold && AllSold(t) {
      assert FirstUnsold(t) == |t|;
    }
    if p == FirstAffordableElseSoldOut && NoneAffordable(t, balance) {
      assert FirstAffordable(t, balance) == |t|;
    }
    if p == FirstAffordableElseNoFunds && AllSold(t) {
      assert FirstAffordable(t, balance) == |t|;
    }
  }

  /**
   * When NOFUNDS is the reply: the first unsold ticket is too dear (server-0-5),
   * or nothing unsold is affordable while something is unsold (server-0-8);
   * the first-affordable-else-SOLDOUT policy never says it.
   */
  lemma NoFundsMeaning(p: Policy, t: seq<Ticket>, balance: int)
    ensures BuyWith(p, t, balance).0 == NoFunds <==>
      match p
      case StopAtFirstUnsold => exists k :: Chosen(p, t, balance, k) && t[k].price > balance
      case FirstAffordableElseSoldOut => false
      case FirstAffordableElseNoFunds => NoneAffordable(t, balance) && !AllSold(t)
  {
    match p
    case StopAtFirstUnsold =>
      var k := FirstUnsold(t);
      if k < |t| {
        assert Chosen(p, t, balance, k);
      }
      forall k2 | Chosen(p, t, balance, k2) ensures k2 == k { }
    case FirstAffordableElseSoldOut =>
    case FirstAffordableElseNoFunds =>
      if NoneAffordable(t, balance) {
        assert FirstAffordable(t, balance) == |t|;
      }
  }

  /** Stopping at the first unsold ticket answers NOFUNDS even though a later ticket is affordable. */
  lemma StopAtFirstUnsoldIgnoresCheaperTicket()
    ensures var t := [Ticket("10000", 300, false), Ticket("10001", 200, false)];
      BuyWith(StopAtFirstUnsold, t, 250) == (NoFunds, t) && Affordable(t[1], 250)
  {
    var t := [Ticket("10000", 300, false), Ticket("10001", 200, false)];
    assert FirstUnsold(t) == 0;
  }

  /**
   * The dead NOFUNDS branch of server-0-4 and server-0-7: with an unsold
   * ticket the balance cannot reach, the reply is SOLDOUT, while the nested
   * test was evidently meant to answer NOFUNDS there, as server-0-5 does.
   */
  lemma FirstAffordableSaysSoldOutWithStockLeft()
    ensures var t := [Ticket("10000", 300, false)];
      BuyWith(FirstAffordableElseSoldOut, t, 250).0 == SoldOut && !AllSold(t) &&
      BuyWith(StopAtFirstUnsold, t, 250).0 == NoFunds
  {
    var t := [Ticket("10000", 300, false)];
    assert FirstAffordable(t, 250) == 1 by {
      assert FirstAffordable(t[1..], 250) == 0;
    }
    assert FirstUnsold(t) == 0;
  }

  /** BUY and SELL keep every id and price and the distinctness of the ids. */
  lemma OperationsKeepStock(p: Policy, t: seq<Ticket>, balance: int, id: string)
    ensures SameStock(t, BuyWith(p, t, balance).1)
    ensures SameStock(t, SellBack(t, id).1)
    ensures DistinctIds(t) ==> DistinctIds(BuyWith(p, t, balance).1) && DistinctIds(SellBack(t, id).1)
  {
    BuyOutcomeMeaning(p, t, balance);
  }

  /** Round trip: selling back the ticket a BUY returned yields its price and restores the table exactly. */
  lemma SellUndoesBuy(p: Policy, t: seq<Ticket>, balance: int)
    requires DistinctIds(t)
    requires BuyWith(p, t, balance).0.Purchased?
    ensures var (o, t2) := BuyWith(p, t, balance);
      SellBack(t2, o.id) == (Resold(o.id, o.price), t)
  {
    var (o, t2) := BuyWith(p, t, balance);
    BuyOutcomeMeaning(p, t, balance);
    var k :| Chosen(p, t, balance, k) && Affordable(t[k], balance) &&
      t[k].id == o.id && t[k].price == o.price && t2 == SetSold(t, k, true);
    assert IndexOfId(t2, o.id) == k by {
      assert t2[k].id == o.id;
    }
    assert SetSold(t2, k, false) == t;
  }

  /** A ticket bought once is not returned by any later BUY until it is sold back. */
  lemma SecondBuyGetsAnotherTicket(p: Policy, q: Policy, t: seq<Ticket>, balance: int, balance2: int)
    requires DistinctIds(t)
    requires BuyWith(p, t, balance).0.Purchased?
    ensures var (o, t2) := BuyWith(p, t, balance);
      var o2 := BuyWith(q, t2, balance2).0;
      o2.Purchased? ==> o2.id != o.id
  {
    var (o, t2) := BuyWith(p, t, balance);
    BuyOutcomeMeaning(p, t, balance);
    BuyOutcomeMeaning(q, t2, balance2);
    var k :| Chosen(p, t, balance, k) && Affordable(t[k], balance) &&
      t[k].id == o.id && t[k].price == o.price && t2 == SetSold(t, k, true);
    var o2 := BuyWith(q, t2, balance2).0;
    if o2.Purchased? {
      var k2 :| Chosen(q, t2, balance2, k2) && Affordable(t2[k2], balance2) && t2[k2].id == o2.id;
      assert k2 != k;
    }
  }

  /** SELL flips a sold ticket back; an unknown id or an unsold ticket leaves the table as it was. */
  lemma SellMeaning(t: seq<Ticket>, id: string)
    ensures var (o, t2) := SellBack(t, id);
      match o
      case Resold(id2, price) =>
        id2 == id && exists k :: 0 <= k < |t| && t[k].id == id && t[k].sold && t[k].price == price && t2 == SetSold(t, k, false)
      case NotSold => t2 == t && exists k :: 0 <= k < |t| && t[k].id == id && !t[k].sold
      case UnknownId => t2 == t && forall k :: 0 <= k < |t| ==> t[k].id != id
  {
    var k := IndexOfId(t, id);
    if k < |t| {
      assert t[k].id == id;
    }
  }

  lemma InitialTableIds(prices: seq<int>)
    ensures DistinctIds(InitialTable(prices))
  {
    var t := InitialTable(prices);
    forall i, j | 0 <= i < j < |t| ensures t[i].id != t[j].id {
      NatToStringInjective(FirstId + i, FirstId + j);
    }
  }

  class Inventory {
    var tickets: seq<Ticket>

    ghost predicate Valid()
      reads this
    {
      |tickets| == TicketCount && DistinctIds(tickets) && InPriceRange(tickets)
    }

    /** The table as the server creates it, every ticket unsold and priced as drawn. */
    constructor (prices: seq<int>)
      requires |prices| == TicketCount
      requires forall i :: 0 <= i < |prices| ==> MinPrice <= prices[i] <= MaxPrice
      ensures Valid()
      ensures forall i :: 0 <= i < TicketCount ==> tickets[i] == Ticket(TicketId(i), prices[i], false)
    {
      tickets := InitialTable(prices);
      InitialTableIds(prices);
    }

    /** server-0-5: the scan stops at the first unsold ticket, buying it if affordable and answering NOFUNDS if not. */
    method Buy05(balance: int) returns (r: BuyOutcome)
      requires Valid()
      modifies this
      ensures Valid()
      ensures (r, tickets) == BuyWith(StopAtFirstUnsold, old(tickets), balance)
    {
      r := SoldOut;
      var i := 0;
      while i < |tickets|
        invariant 0 <= i <= |tickets|
        invariant tickets == old(tickets) && r == SoldOut
        invariant forall j :: 0 <= j < i ==> tickets[j].sold
      {
        var details := tickets[i];
        if !details.sold && balance >= details.price {
          tickets := tickets[i := details.(sold := true)];
          r := Purchased(details.id, details.price);
          break;
        } else if !details.sold {
          r := NoFunds;
          break;
        }
        i := i + 1;
      }
    }

    /**
     * server-0-4 and server-0-7 as written: the inner test repeats the outer
     * one, so its NOFUNDS branch is never taken.
     */
    method Buy07(balance: int) returns (r: BuyOutcome)
      requires Valid()
      modifies this
      ensures Valid()
      ensures r != NoFunds
      ensures (r, tickets) == BuyWith(FirstAffordableElseSoldOut, old(tickets), balance)
    {
      r := SoldOut;
      var i := 0;
      while i < |tickets|
        invariant 0 <= i <= |tickets|
        invariant tickets == old(tickets) && r == SoldOut
        invariant forall j :: 0 <= j < i ==> !Affordable(tickets[j], balance)
      {
        var details := tickets[i];
        if !details.sold && balance >= details.price {
          if balance >= details.price {
            tickets := tickets[i := details.(sold := true)];
            r := Purchased(details.id, details.price);
            break;
          } else {
            r := NoFunds;
            break;
          }
        }
        i := i + 1;
      }
    }

    /** server-0-9: the first affordable unsold ticket, SOLDOUT otherwise. */
    method Buy09(balance: int) returns (r: BuyOutcome)
      requires Valid()
      modifies this
      ensures Valid()
      ensures (r, tickets) == BuyWith(FirstAffordableElseSoldOut, old(tickets), balance)
    {
      r := SoldOut;
      var i := 0;
      while i < |tickets|
        invariant 0 <= i <= |tickets|
        invariant tickets == old(tickets) && r == SoldOut
        invariant forall j :: 0 <= j < i ==> !Affordable(tickets[j], balance)
      {
        var details := tickets[i];
        if !details.sold && balance >= details.price {
          tickets := tickets[i := details.(sold := true)];
          r := Purchased(details.id, details.price);
          break;
        }
        i := i + 1;
      }
    }

    /** server-0-8: the for-else scan; when nothing was bought, SOLDOUT if every ticket is sold, NOFUNDS otherwise. */
    method Buy08(balance: int) returns (r: BuyOutcome)
      requires Valid()
      modifies this
      ensures Valid()
      ensures (r, tickets) == BuyWith(FirstAffordableElseNoFunds, old(tickets), balance)
    {
      var bought := false;
      r := SoldOut;
      var i := 0;
      while i < |tickets|
        invariant 0 <= i <= |tickets|
        invariant tickets == old(tickets) && !bought
        invariant forall j :: 0 <= j < i ==> !Affordable(tickets[j], balance)
      {
        var details := tickets[i];
        if !details.sold && balance >= details.price {
          tickets := tickets[i := details.(sold := true)];
          r := Purchased(details.id, details.price);
          bought := true;
          break;
        }
        i := i + 1;
      }
      if !bought {
        r := if AllSold(tickets) then SoldOut else NoFunds;
      }
    }

    /**
     * The SELL critical section: a ticket that exists and is sold becomes
     * unsold. Each server turns the two failures into its own reply.
     */
    method Sell(id: string) returns (r: SellOutcome)
      requires Valid()
      modifies this
      ensures Valid()
      ensures (r, tickets) == SellBack(old(tickets), id)
    {
      var k := IndexOfId(tickets, id);
      if k == |tickets| {
        r := UnknownId;
      } else if tickets[k].sold {
        tickets := tickets[k := tickets[k].(sold := false)];
        r := Resold(id, tickets[k].price);
      } else {
        r := NotSold;
      }
    }
  }
}
