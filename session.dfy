/**
 * `handle_client` of the five server programs: the loop that reads one
 * request per received chunk, splits it into a command word and arguments,
 * runs BUY or SELL on the shared ticket table and writes the reply.
 */
module Session {
  import opened Wrappers
  import opened Text
  import opened Exchange

  /** The server programs modelled; server-0-4 and server-0-7 differ only in the start barrier. */
  datatype Server = Server04 | Server05 | Server07 | Server08 | Server09

  datatype Action = BuyAction | SellAction

  /** An entry of the per-client `transaction_log`. */
  datatype LogEntry = LogEntry(id: string, action: Action)

  /**
   * What one received chunk does to the handler: it ends the loop normally
   * (`if not data: break`), raises and ends it, or is answered with at
   * most one reply and at most one log entry.
   */
  datatype Step = Close | Fail | Answer(reply: Option<string>, log: Option<LogEntry>)

  datatype SessionEnd = Disconnected | Crashed | BarrierBroken

  function PolicyOf(v: Server): Policy {
    match v
    case Server05 => StopAtFirstUnsold
    case Server08 => FirstAffordableElseNoFunds
    case _ => FirstAffordableElseSoldOut
  }

  predicate KeepsLog(v: Server) {
    v == Server04 || v == Server05 || v == Server07
  }

  predicate HasBarrier(v: Server) {
    v == Server07 || v == Server09
  }

  /**
   * The end-of-input test: server-0-9 tests the raw chunk before stripping
   * it, the others test the stripped text.
   */
  predicate Closes(v: Server, data: string) {
    if v == Server09 then data == "" else IsBlank(data)
  }

  /** The reply to a SELL that finds no sold ticket of that id, where the server answers at all. */
  function SellRefusal(v: Server): Step {
    if v == Server08 then Answer(Some("UNKNOWN COMMAND"), None)
    else if v == Server09 then Answer(None, None)
    else Answer(Some("ERROR"), None)
  }

  function LogFor(v: Server, id: string, action: Action): Option<LogEntry> {
    if KeepsLog(v) then Some(LogEntry(id, action)) else None
  }

  /** The step and the new table for one received chunk `data`. */
  function Respond(v: Server, t: seq<Ticket>, data: string): (Step, seq<Ticket>) {
    if Closes(v, data) then (Close, t)
    else
      var words := Split(data);
      if |words| == 0 then (Fail, t)
      else if words[0] == "BUY" then
        if |words| < 2 then (Fail, t)
        else match ParseInt(words[1])
          case None => (Fail, t)
          case Some(balance) =>
            var (o, t2) := BuyWith(PolicyOf(v), t, balance);
            (Answer(Some(BuyReply(o)), if o.Purchased? then LogFor(v, o.id, BuyAction) else None), t2)
      else if words[0] == "SELL" then
        if |words| < 2 then (Fail, t)
        else
          var (o, t2) := SellBack(t, words[1]);
          match o
          case Resold(id, price) => (Answer(Some(PriceLine(id, price)), LogFor(v, id, SellAction)), t2)
          case NotSold => (SellRefusal(v), t)
          case UnknownId => (if v == Server09 then Fail else SellRefusal(v), t)
      else (Answer(if v == Server08 then Some("UNKNOWN COMMAND") else None, None), t)
  }

  /** A request that raises before any reply: no command word, a missing argument, or a BUY balance `int()` rejects. */
  predicate Malformed(words: seq<string>) {
    |words| == 0 ||
    ((words[0] == "BUY" || words[0] == "SELL") && |words| < 2) ||
    (words[0] == "BUY" && |words| >= 2 && ParseInt(words[1]).None?)
  }

  /**
   * A request ends the handler exactly when it is malformed, or, on
   * server-0-9 only, when it sells an id the table does not have.
   */
  lemma FailMeaning(v: Server, t: seq<Ticket>, data: string)
    ensures Respond(v, t, data).0 == Fail <==>
      !Closes(v, data) &&
      (Malformed(Split(data)) ||
       (v == Server09 && Split(data)[0] == "SELL" && SellBack(t, Split(data)[1]).0 == UnknownId))
  {
  }

  /** Every request handled keeps the ids, the prices and their distinctness. */
  lemma RespondKeepsStock(v: Server, t: seq<Ticket>, data: string)
    ensures SameStock(t, Respond(v, t, data).1)
    ensures DistinctIds(t) ==> DistinctIds(Respond(v, t, data).1)
  {
    var words := Split(data);
    if |words| >= 2 {
      OperationsKeepStock(PolicyOf(v), t, if ParseInt(words[1]).Some? then ParseInt(words[1]).value else 0, words[1]);
    }
  }

  /**
   * Where a transaction log is kept, a request adds an entry exactly when it
   * changes the table: each BUY and SELL that goes through, and nothing else.
   */
  lemma LogEntryIffTableChanged(v: Server, t: seq<Ticket>, data: string)
    requires KeepsLog(v)
    ensures var (step, t2) := Respond(v, t, data);
      (step.Answer? && step.log.Some?) <==> t2 != t
  {
    var words := Split(data);
    if !Closes(v, data) && !Malformed(words) && (words[0] == "BUY" || words[0] == "SELL") {
      if words[0] == "BUY" {
        var (o, t2) := BuyWith(PolicyOf(v), t, ParseInt(words[1]).value);
        BuyOutcomeMeaning(PolicyOf(v), t, ParseInt(words[1]).value);
        if o.Purchased? {
          var k :| Chosen(PolicyOf(v), t, ParseInt(words[1]).value, k) && Affordable(t[k], ParseInt(words[1]).value) &&
            t[k].id == o.id && t[k].price == o.price && t2 == SetSold(t, k, true);
          assert t2[k] != t[k];
        }
      } else {
        var (o, t2) := SellBack(t, words[1]);
        SellMeaning(t, words[1]);
        if o.Resold? {
          var k :| 0 <= k < |t| && t[k].id == words[1] && t[k].sold && t[k].price == o.price && t2 == SetSold(t, k, false);
          assert t2[k] != t[k];
        }
      }
    }
  }

  /** server-0-8 answers every request it does not fail on: exactly one reply each. */
  lemma EveryRequestAnswered08(t: seq<Ticket>, data: string)
    ensures Respond(Server08, t, data).0.Answer? ==> Respond(Server08, t, data).0.reply.Some?
  {
  }

  /** A command other than BUY or SELL changes nothing and, except on server-0-8, gets no reply. */
  lemma UnknownCommandIgnored(v: Server, t: seq<Ticket>, data: string)
    requires !Closes(v, data) && |Split(data)| > 0
    requires Split(data)[0] != "BUY" && Split(data)[0] != "SELL"
    ensures Respond(v, t, data) ==
      (Answer(if v == Server08 then Some("UNKNOWN COMMAND") else None, None), t)
  {
  }

  /** One pass of the handler loop's body: the dispatch on the command word. */
  method HandleRequest(v: Server, inv: Inventory, data: string) returns (step: Step)
    requires inv.Valid()
    modifies inv
    ensures inv.Valid()
    ensures (step, inv.tickets) == Respond(v, old(inv.tickets), data)
    ensures step == Close <==> Closes(v, data)
    ensures !step.Answer? ==> inv.tickets == old(inv.tickets)
  {
    if Closes(v, data) {
      return Close;
    }
    var words := Split(data);
    if |words| == 0 {
      return Fail;
    }
    if words[0] == "BUY" {
      if |words| < 2 {
        return Fail;
      }
      var parsed := ParseInt(words[1]);
      if parsed.None? {
        return Fail;
      }
      var o: BuyOutcome;
      match v {
        case Server05 => o := inv.Buy05(parsed.value);
        case Server04 => o := inv.Buy07(parsed.value);
        case Server07 => o := inv.Buy07(parsed.value);
        case Server08 => o := inv.Buy08(parsed.value);
        case Server09 => o := inv.Buy09(parsed.value);
      }
      step := Answer(Some(BuyReply(o)), if o.Purchased? then LogFor(v, o.id, BuyAction) else None);
    } else if words[0] == "SELL" {
      if |words| < 2 {
        return Fail;
      }
      var o := inv.Sell(words[1]);
      match o {
        case Resold(id, price) => step := Answer(Some(PriceLine(id, price)), LogFor(v, id, SellAction));
        case NotSold => step := SellRefusal(v);
        case UnknownId => step := if v == Server09 then Fail else SellRefusal(v);
      }
    } else {
      step := Answer(if v == Server08 then Some("UNKNOWN COMMAND") else None, None);
    }
  }

  /** The element an `Option` holds, as a sequence of zero or one elements. */
  function Written<T>(o: Option<T>): (r: seq<T>)
    ensures |r| == if o.Some? then 1 else 0
  {
    if o.Some? then [o.value] else []
  }

  /** The whole of one client's session: what was written and logged, how many requests were answered, and how it ended. */
  datatype Session = Session(replies: seq<string>, log: seq<LogEntry>, handled: nat, end: SessionEnd, table: seq<Ticket>)

  /** What one request does with the table it finds, as `Respond` gives it for one server. */
  type Responder = (seq<Ticket>, string) -> (Step, seq<Ticket>)

  function ResponderOf(v: Server): Responder {
    (t, data) => Respond(v, t, data)
  }

  /**
   * The handler loop, the same on every server, from the chunk at `handled`
   * on, with table `t`, after `replies` were written and `log` kept. Past
   * the last chunk `recv` returns the empty string, which ends the loop as
   * a closed connection does.
   */
  function ServeFrom(respond: Responder, t: seq<Ticket>, chunks: seq<string>, handled: nat,
                     replies: seq<string>, log: seq<LogEntry>): (r: Session)
    requires handled <= |chunks|
    ensures handled <= r.handled <= |chunks|
    ensures r.end != BarrierBroken
    decreases |chunks| - handled
  {
    if handled == |chunks| then Session(replies, log, handled, Disconnected, t)
    else
      var (step, t2) := respond(t, chunks[handled]);
      match step
      case Close => Session(replies, log, handled, Disconnected, t)
      case Fail => Session(replies, log, handled, Crashed, t)
      case Answer(reply, entry) => ServeFrom(respond, t2, chunks, handled + 1, replies + Written(reply), log + Written(entry))
  }

  /** `handle_client` for one client: the barrier first, on the servers that have one, then the loop. */
  function ServeSession(v: Server, t: seq<Ticket>, chunks: seq<string>, barrierBroken: bool): Session {
    if HasBarrier(v) && barrierBroken then
      // server-0-7 returns from the handler; server-0-9 lets the error escape the thread
      Session([], [], 0, if v == Server09 then Crashed else BarrierBroken, t)
    else ServeFrom(ResponderOf(v), t, chunks, 0, [], [])
  }

  /**
   * The loop ends at a request that raises, at a chunk that closes it, or
   * after the last chunk; each request answered writes at most one reply
   * and at most one log entry, after those written before.
   */
  lemma {:induction false} ServeFromEnds(respond: Responder, t: seq<Ticket>, chunks: seq<string>, handled: nat,
                                        replies: seq<string>, log: seq<LogEntry>)
    requires handled <= |chunks|
    ensures var r := ServeFrom(respond, t, chunks, handled, replies, log);
      && (r.end == Crashed ==> r.handled < |chunks| && respond(r.table, chunks[r.handled]).0 == Fail)
      && (r.end == Disconnected ==> r.handled == |chunks| || respond(r.table, chunks[r.handled]).0 == Close)
      && |replies| <= |r.replies| <= |replies| + (r.handled - handled)
      && |log| <= |r.log| <= |log| + (r.handled - handled)
      && replies <= r.replies && log <= r.log
    decreases |chunks| - handled
  {
    if handled < |chunks| {
      var (step, t2) := respond(t, chunks[handled]);
      if step.Answer? {
        var replies', log' := replies + Written(step.reply), log + Written(step.log);
        ServeFromEnds(respond, t2, chunks, handled + 1, replies', log');
        assert replies <= replies' && log <= log';
      }
    }
  }

  /** A session keeps every id and price and the distinctness of the ids; only sold flags change. */
  lemma {:induction false} ServeFromKeepsStock(respond: Responder, t: seq<Ticket>, chunks: seq<string>, handled: nat,
                                              replies: seq<string>, log: seq<LogEntry>)
    requires handled <= |chunks|
    requires forall t0, data :: SameStock(t0, respond(t0, data).1)
    requires forall t0, data :: DistinctIds(t0) ==> DistinctIds(respond(t0, data).1)
    ensures SameStock(t, ServeFrom(respond, t, chunks, handled, replies, log).table)
    ensures DistinctIds(t) ==> DistinctIds(ServeFrom(respond, t, chunks, handled, replies, log).table)
    decreases |chunks| - handled
  {
    if handled < |chunks| {
      var (step, t2) := respond(t, chunks[handled]);
      if step.Answer? {
        ServeFromKeepsStock(respond, t2, chunks, handled + 1, replies + Written(step.reply), log + Written(step.log));
        assert SameStock(t, t2);
      }
    }
  }

  /** A server that answers every request it does not fail on writes exactly one reply for each. */
  lemma {:induction false} ServeFromAnswersAll(respond: Responder, t: seq<Ticket>, chunks: seq<string>, handled: nat,
                                              replies: seq<string>, log: seq<LogEntry>)
    requires handled <= |chunks|
    requires forall t0, data :: respond(t0, data).0.Answer? ==> respond(t0, data).0.reply.Some?
    ensures var r := ServeFrom(respond, t, chunks, handled, replies, log);
      |r.replies| == |replies| + (r.handled - handled)
    decreases |chunks| - handled
  {
    if handled < |chunks| {
      var (step, t2) := respond(t, chunks[handled]);
      if step.Answer? {
        ServeFromAnswersAll(respond, t2, chunks, handled + 1, replies + Written(step.reply), log + Written(step.log));
      }
    }
  }

  /**
   * A whole session: the table keeps its stock and its distinct ids; it
   * ends at a request that raises, at the end of input, or after the last
   * chunk, or at a broken barrier with nothing handled; and server-0-8
   * writes one reply per request answered.
   */
  lemma ServeSessionMeaning(v: Server, t: seq<Ticket>, chunks: seq<string>, barrierBroken: bool)
    ensures var r := ServeSession(v, t, chunks, barrierBroken);
      && SameStock(t, r.table) && (DistinctIds(t) ==> DistinctIds(r.table))
      && r.handled <= |chunks| && |r.replies| <= r.handled && |r.log| <= r.handled
      && (HasBarrier(v) && barrierBroken <==> r.end == BarrierBroken || (v == Server09 && r.end == Crashed && r.handled == 0 && barrierBroken))
      && (r.end == Crashed && !(HasBarrier(v) && barrierBroken) ==>
            r.handled < |chunks| && Respond(v, r.table, chunks[r.handled]).0 == Fail)
      && (r.end == Disconnected ==> r.handled == |chunks| || Closes(v, chunks[r.handled]))
      && (v == Server08 ==> |r.replies| == r.handled)
  {
    var respond := ResponderOf(v);
    if !(HasBarrier(v) && barrierBroken) {
      forall t0, data ensures SameStock(t0, respond(t0, data).1) && (DistinctIds(t0) ==> DistinctIds(respond(t0, data).1)) {
        RespondKeepsStock(v, t0, data);
      }
      ServeFromKeepsStock(respond, t, chunks, 0, [], []);
      ServeFromEnds(respond, t, chunks, 0, [], []);
      var r := ServeFrom(respond, t, chunks, 0, [], []);
      if r.end == Disconnected && r.handled < |chunks| {
        CloseMeaning(v, r.table, chunks[r.handled]);
      }
      if v == Server08 {
        forall t0, data ensures respond(t0, data).0.Answer? ==> respond(t0, data).0.reply.Some? {
          EveryRequestAnswered08(t0, data);
        }
        ServeFromAnswersAll(respond, t, chunks, 0, [], []);
      }
    } else {
      assert SameStock(t, t);
    }
  }

  lemma ServeFromDone(respond: Responder, t: seq<Ticket>, chunks: seq<string>, replies: seq<string>, log: seq<LogEntry>)
    ensures ServeFrom(respond, t, chunks, |chunks|, replies, log) == Session(replies, log, |chunks|, Disconnected, t)
  {
  }

  /** A chunk ends the loop normally exactly when the server's end-of-input test accepts it. */
  lemma CloseMeaning(v: Server, t: seq<Ticket>, data: string)
    ensures Respond(v, t, data).0 == Close <==> Closes(v, data)
  {
  }

  /**
   * One pass of the handler loop: the next chunk is handled; when it is
   * answered, its reply and log entry, if any, are written, and otherwise
   * the loop stops.
   */
  method ServeOne(v: Server, inv: Inventory, chunks: seq<string>, handled: nat, replies: seq<string>, log: seq<LogEntry>)
    returns (stop: bool, end: SessionEnd, handled': nat, replies': seq<string>, log': seq<LogEntry>)
    requires inv.Valid() && handled < |chunks|
    modifies inv
    ensures inv.Valid() && handled' == if stop then handled else handled + 1
    ensures !stop ==> end == Disconnected
    ensures stop ==> (Session(replies', log', handled', end, inv.tickets) ==
      ServeFrom(ResponderOf(v), old(inv.tickets), chunks, handled, replies, log))
    ensures !stop ==> (ServeFrom(ResponderOf(v), inv.tickets, chunks, handled', replies', log') ==
      ServeFrom(ResponderOf(v), old(inv.tickets), chunks, handled, replies, log))
  {
    var step := HandleRequest(v, inv, chunks[handled]);
    stop, end, handled', replies', log' := false, Disconnected, handled + 1, replies, log;
    if step.Answer? {
      replies' := replies + Written(step.reply);
      log' := log + Written(step.log);
    } else {
      stop, handled' := true, handled;
      end := if step == Close then Disconnected else Crashed;
    }
  }

  /** The handler loop over the chunks one client sends, in order. */
  method Serve(v: Server, inv: Inventory, chunks: seq<string>, barrierBroken: bool)
    returns (replies: seq<string>, log: seq<LogEntry>, handled: nat, end: SessionEnd)
    requires inv.Valid()
    modifies inv
    ensures inv.Valid()
    ensures Session(replies, log, handled, end, inv.tickets) == ServeSession(v, old(inv.tickets), chunks, barrierBroken)
  {
    replies, log, handled := [], [], 0;
    if HasBarrier(v) && barrierBroken {
      end := if v == Server09 then Crashed else BarrierBroken;
      return;
    }
    end := Disconnected;
    while handled < |chunks|
      invariant inv.Valid() && handled <= |chunks| && end == Disconnected
      invariant ServeFrom(ResponderOf(v), inv.tickets, chunks, handled, replies, log) ==
        ServeSession(v, old(inv.tickets), chunks, barrierBroken)
      decreases |chunks| - handled
    {
      var stop;
      stop, end, handled, replies, log := ServeOne(v, inv, chunks, handled, replies, log);
      if stop {
        return;
      }
    }
    ServeFromDone(ResponderOf(v), inv.tickets, chunks, replies, log);
  }
}
