# Ticket exchange and trading agents

A Dafny model of a small ticket-selling experiment written in Python.

The exchange server holds a table of 25 tickets, `"10000"` to `"10024"`, each with a price and a `sold` flag. It answers two commands from each connected client:

- `BUY <balance>` marks one ticket sold and replies `"<id> <price>"`, or replies `NOFUNDS` or `SOLDOUT`.
- `SELL <id>` flips a sold ticket back and replies `"<id> <price>"`, or refuses.

The five server programs differ in their buy policy and in how they refuse a sale.

Each trading agent keeps three things:

- a cash balance, starting at 4000;
- an insertion-ordered dictionary of held tickets and the prices it paid;
- in the newer clients, a `transaction_complete` event.

An agent runs up to 15 buy rounds against the exchange. It sells its oldest ticket back when the exchange answers NOFUNDS. When the exchange is sold out, it asks its peer agent by UDP to scalp a ticket at twice the price the peer paid. A listener thread answers such requests and takes the peer's offers.

The model covers these pieces, one module each:

- `Text`: the Python string operations involved: `split()`, `strip()` emptiness, `int()`, `in`, `startswith` and decimal rendering.
- `Holdings`: the agent's dictionary, as a sequence of entries with distinct ids.
- `Exchange`: the ticket table as a class `Inventory`, with one atomic method per critical section of each server's BUY and SELL. Each method is proved against a function on the table.
- `Session`: `handle_client` of each server. It covers one request (the method `HandleRequest`) and the whole loop over a client's received chunks (`Serve`), proved against `ServeSession`.
- `Peer`: the UDP message texts, the `<senderId>:<body>` framing and client-0-40's port plan.
- `Ledgers`: the agent's books as a value. It holds:
  - every `handle_udp_message` variant;
  - every round of `send_requests_to_server`;
  - the 15-round loop as `RoundsFrom`, over any function that plays one round, and `RunRounds`, that loop for one engine.
- `Listeners`: every `udp_listener` variant, over a sequence of events: stop, receive timeout, or datagram. The family `L30` is client-0-30 with its handler call corrected; the program as written is `Hear30AsWritten` (see Findings).
- `Agents`: the class `Agent` whose fields are the balance, the holdings and the event. Its methods mirror the client functions. Each method is proved to change the fields exactly as the matching `Ledgers` or `Listeners` function says.

Shared code is modelled once:

- client-0-40 shares client-0-38's handler, rounds and listener;
- client-0-20's rounds equal client-0-24's;
- client-0-16's rounds equal client-0-13's;
- server-0-4 differs from server-0-7 only in having no start barrier.

## Model

| member | source | states |
|---|---|---|
| Text.Split | Exp/0/server-0-5.py:36 | every field of `split()` is a non-empty run of non-whitespace characters |
| Text.SplitEmptyIffBlank | Exp/0/server-0-5.py:31-36 | `split()` is empty exactly when the stripped text is empty |
| Text.SplitTwoTokens | Exp/0/client-0-38.py:115 | splitting `"<a> <b>"` gives back exactly the two fields |
| Text.IntToString | Exp/0/client-0-38.py:103 | the rendering of an integer is one whitespace-free field |
| Text.ParseIntOfIntToString | Exp/0/client-0-38.py:116 | `int()` of a rendered integer gives the integer back |
| Text.NatToStringInjective | Exp/0/server-0-5.py:22 | distinct numbers render to distinct ids |
| Text.ReadPriceLine | Exp/0/server-0-5.py:46 | a `"<id> <price>"` reply splits into the id and the rendered price, which reads back as the price |
| Text.PriceLineLacksWord | Exp/0/client-0-38.py:109-116 | a price line for a numeric id contains no NOFUNDS or SOLDOUT, so the engines take it as a purchase |
| Holdings.IndexOf | Exp/0/client-0-38.py:84 | the first position holding the key, or the length when there is none |
| Holdings.LookupIffKey | Exp/0/client-0-38.py:84 | `d.get(id)` finds a price exactly when `id` is one of the keys |
| Holdings.Put | Exp/0/client-0-38.py:84 | `d[id] = price`: the key now maps to the price; other keys keep their prices; a new key goes last and an old key keeps its place; ids stay distinct |
| Holdings.RemoveAt | Exp/0/client-0-38.py:128 | `del`: the key is gone, the other keys keep their order and their prices, ids stay distinct |
| Holdings.RemoveAtKeepsOther | Exp/0/client-0-38.py:128 | after `del`, `d.get` of any other key gives the same price as before |
| Holdings.Cheapest | Exp/0/client-0-38.py:63 | `min(d.items(), key=price)`: a lowest price, and the first entry among equal lowest prices |
| Holdings.TotalPut | Exp/0/client-0-38.py:84 | recording a price changes the sum of prices by the new price less the one it replaces |
| Holdings.TotalRemove | Exp/0/client-0-38.py:128 | deleting an entry lowers the sum by exactly its price |
| Exchange.FirstUnsold | Exp/0/server-0-5.py:43-51 | the position the server-0-5 scan stops at: unsold, and every earlier ticket sold |
| Exchange.FirstAffordable | Exp/0/server-0-7.py:53-59 | the first unsold ticket within the balance, every earlier one failing that test |
| Exchange.IndexOfId | Exp/0/server-0-5.py:59 | the position of the ticket with that id, or none |
| Exchange.BuyOutcomeMeaning | Exp/0/server-0-5.py:41-51 | a BUY that goes through marks exactly the chosen affordable unsold ticket sold and replies with its id and price; any other reply leaves the table unchanged |
| Exchange.SoldOutMeaning | Exp/0/server-0-8.py:44-50 | SOLDOUT exactly when every ticket is sold (server-0-5, server-0-8), or when none is affordable (server-0-4, 0-7, 0-9) |
| Exchange.NoFundsMeaning | Exp/0/server-0-8.py:49-50 | NOFUNDS exactly when the first unsold ticket is too dear (server-0-5), never (server-0-4, 0-7, 0-9), or when nothing unsold is affordable but something is unsold (server-0-8) |
| Exchange.StopAtFirstUnsoldIgnoresCheaperTicket | Exp/0/server-0-5.py:49-51 | server-0-5 answers NOFUNDS even when a later unsold ticket is affordable |
| Exchange.FirstAffordableSaysSoldOutWithStockLeft | Exp/0/server-0-7.py:54-62 | with an unsold ticket the balance cannot reach, server-0-7 answers SOLDOUT, where server-0-5 answers NOFUNDS |
| Exchange.OperationsKeepStock | Exp/0/server-0-5.py:22 | BUY and SELL keep every id and price and the distinctness of ids |
| Exchange.SellUndoesBuy | Exp/0/server-0-5.py:45-46 | selling back the ticket a BUY returned replies with the same price and restores the table exactly |
| Exchange.SecondBuyGetsAnotherTicket | Exp/0/server-0-9.py:47-52 | a ticket once bought is not returned by a later BUY until it is sold back |
| Exchange.SellMeaning | Exp/0/server-0-5.py:58-68 | SELL of a sold ticket flips it back and replies with its price; an unsold ticket or an unknown id leaves the table unchanged |
| Exchange.InitialTableIds | Exp/0/server-0-5.py:22 | the ids `"10000"` to `"10024"` of the initial table are distinct |
| Exchange.Inventory.Buy05 | Exp/0/server-0-5.py:41-51 | the scan loop's reply and new table are those of the stop-at-first-unsold policy; the ids stay distinct |
| Exchange.Inventory.Buy07 | Exp/0/server-0-7.py:51-62 | the scan loop's reply and new table are those of the first-affordable-else-SOLDOUT policy; it never answers NOFUNDS |
| Exchange.Inventory.Buy09 | Exp/0/server-0-9.py:47-53 | the first-affordable-else-SOLDOUT policy |
| Exchange.Inventory.Buy08 | Exp/0/server-0-8.py:44-50 | the for-else scan gives the first-affordable, else SOLDOUT or NOFUNDS, policy |
| Exchange.Inventory.Sell | Exp/0/server-0-5.py:58-68 | the SELL critical section's outcome and new table are `SellBack`'s |
| Session.FailMeaning | Exp/0/server-0-9.py:42-67 | a request ends the handler exactly when it is malformed, or (server-0-9 only) when it sells an unknown id |
| Session.RespondKeepsStock | Exp/0/server-0-8.py:41-55 | one request keeps every id and price, and the distinctness of ids |
| Session.LogEntryIffTableChanged | Exp/0/server-0-5.py:47-62 | where a log is kept, a request adds an entry exactly when it changes the table |
| Session.EveryRequestAnswered08 | Exp/0/server-0-8.py:40-57 | server-0-8 writes a reply to every request it answers |
| Session.UnknownCommandIgnored | Exp/0/server-0-7.py:49-67 | any other command changes nothing; it gets `UNKNOWN COMMAND` on server-0-8 and no reply elsewhere |
| Session.CloseMeaning | Exp/0/server-0-9.py:36-38 | a chunk ends the loop normally exactly when the server's end-of-input test accepts it |
| Session.HandleRequest | Exp/0/server-0-8.py:38-57 | one dispatch on the command word does what `Respond` says; it closes exactly on end of input; a step that is not answered leaves the table alone |
| Session.ServeFrom | Exp/0/server-0-5.py:29-72 | the handler loop takes chunks in order and never reads past the last |
| Session.ServeFromEnds | Exp/0/server-0-5.py:29-72 | the loop ends at a failing request, at a closing chunk or after the last chunk; each answered request adds at most one reply and one log entry after the earlier ones |
| Session.ServeSessionMeaning | Exp/0/server-0-7.py:28-82 | a whole session keeps the stock and distinct ids. A broken barrier ends it before any request. It ends at a failing request or at the end of input. server-0-8 writes one reply per request answered |
| Session.ServeOne | Exp/0/server-0-5.py:30-72 | one pass of the loop advances the session as `ServeFrom` says |
| Session.Serve | Exp/0/server-0-7.py:28-82 | the loop over a client's chunks leaves the table and produces the replies, log and end that `ServeSession` gives |
| Peer.ParseFrame | Exp/0/client-0-38.py:32-33 | `split(':', 1)`: none exactly when there is no ':'; otherwise a colon-free sender id and a body that frame back to the message |
| Peer.ParseFrameOfFrame | Exp/0/client-0-38.py:67 | unframing a framed body gives back the sender id and the body |
| Peer.ReadScalpRequest | Exp/0/client-0-38.py:134 | `SCALP <balance>` splits into the command and the rendered balance, which reads back as the balance |
| Peer.PeerIdPairs | Exp/0/client-0-40.py:156 | the peer of the peer is the agent itself exactly for ids "1" and "2" |
| Peer.PlanPortsMeaning | Exp/0/client-0-40.py:137-158 | the port plan exists exactly when the id is an integer; the own port is 12346 plus it; the peer port is 12348 for "1" and 12347 otherwise |
| Peer.PlansMirror | Exp/0/client-0-40.py:137-158 | agents "1" and "2" each send to the port the other binds |
| Peer.PlanPortsClash | Exp/0/client-0-40.py:137-158 | an agent sends to its own port exactly when its id reads as 1 without being "1" |
| Ledgers.SellOldest | Exp/0/client-0-38.py:120-129 | `sell_ticket` sends SELL for the oldest holding, credits its price and removes it, every other holding keeping its price, and does nothing with no holdings |
| Ledgers.SellOldestKeepsWorth | Exp/0/client-0-16.py:55-63 | selling back keeps the balance plus the total of held prices |
| Ledgers.RecordKeepsWorth | Exp/0/client-0-16.py:64-67 | recording a purchase of a ticket not held keeps that worth |
| Ledgers.TakePurchaseKeepsWorth | Exp/0/client-0-13.py:58-61 | taking a purchase reply keeps the worth, or raises with the books unchanged |
| Ledgers.ParsePurchaseOfPriceLine | Exp/0/client-0-38.py:115-116 | a purchase reply parses back to its id and price |
| Ledgers.TraderScalpSale | Exp/0/client-0-38.py:59-71 | a fundable SCALP sells the cheapest holding (the first among ties) at twice its price to the sender; the holding leaves the books and every other one keeps its price and place; the event is untouched; the worth grows by its price |
| Ledgers.TraderScalpRefused | Exp/0/client-0-38.py:72-79 | an unfundable SCALP is answered NOMONEY, and one with nothing held is answered sold-out; the books are unchanged |
| Ledgers.TraderTakesOffer | Exp/0/client-0-38.py:81-87 | an offer is recorded and debited, every other holding keeping its price; the worth is kept and the event set |
| Ledgers.TraderNoMoney | Exp/0/client-0-38.py:89-92 | NOMONEY sells back one holding if there is one, keeps the worth, and always sets the event |
| Ledgers.TraderIgnoresOthers | Exp/0/client-0-38.py:59-95 | any other body, the sold-out notice included, changes nothing and does not set the event |
| Ledgers.OfferNeverOverdraws24 | Exp/0/client-0-24.py:68-79 | the client-0-24 buyer takes an offer only within its balance, else answers NOMONEY and sells back; a non-negative balance stays non-negative |
| Ledgers.Scalp20OffersOldest | Exp/0/client-0-20.py:50-65 | client-0-20 offers its oldest holding, whatever the prices of the others |
| Ledgers.OfferOnlyHandlersKeepBooks | Exp/0/client-0-18.py:46-62 | the client-0-18 and client-0-17 handlers never change the books and answer only the static peer |
| Ledgers.Scalp17ReadsOwnBalance | Exp/0/client-0-17.py:39-52 | in client-0-17 the answer depends on the scalper's own balance, not the buyer's |
| Ledgers.ReactionsKeepDistinctIds | Exp/0/client-0-30.py:49-90 | every handler keeps the holding ids distinct |
| Ledgers.PlayRound | Exp/0/client-0-24.py:83-98 | every round sends `BUY <balance>` first, and a raising round leaves the books unchanged |
| Ledgers.PriceLineIsPurchaseReply | Exp/0/server-0-5.py:46 | the exchange's purchase reply for a numeric id is one that every engine takes as a purchase |
| Ledgers.RoundRecordsPurchase | Exp/0/client-0-38.py:114-118 | every engine records a purchase reply for a ticket not held, debits it and keeps the worth; client-0-38 and client-0-30 also set the event |
| Ledgers.RoundSellsBackOnNoFunds | Exp/0/client-0-38.py:109-111 | NOFUNDS makes every engine except client-0-18's sell its oldest holding back; client-0-38, client-0-40 and client-0-30 then set the event |
| Ledgers.PlayRoundBooks | Exp/0/client-0-13.py:39-65 | after a round the books are unchanged, are those after selling the oldest holding, or are those after the purchase |
| Ledgers.RoundKeepsWorth | Exp/0/client-0-13.py:56-61 | a round keeps the balance plus the held total when a purchase it records is of a ticket not yet held |
| Ledgers.RoundsFrom | Exp/0/client-0-38.py:100-118 | the loop runs at most `left` rounds, all of them when it finishes, at least one more when it stops at a raise, and blocks only when it waits on the event |
| Ledgers.RoundsFromStep | Exp/0/client-0-38.py:100-118 | a round that starts clears the event, and after it the loop either ends at a raise or goes on from the round's books, reply index and sends |
| Ledgers.RunRounds | Exp/0/client-0-38.py:100-118 | an engine's loop blocks only if that engine waits on the event, and runs all its rounds when it finishes |
| Ledgers.Engine29RunsOneRoundAlone | Exp/0/client-0-29.py:60-77 | client-0-29's rounds never set the event, so without the listener at most one round runs |
| Ledgers.SoldOutWaitsForPeer | Exp/0/client-0-38.py:112-113 | after SOLDOUT, client-0-38 and client-0-30 send the SCALP request and block on the clear event |
| Ledgers.Engine18StopsOnRefusal | Exp/0/client-0-18.py:75-86 | in client-0-18, NOFUNDS or SOLDOUT raises and ends the loop after one round with the books unchanged |
| Ledgers.OneReplyPerRequest | Exp/0/client-0-38.py:104-124 | every engine but client-0-6's reads exactly one exchange reply per request it sends |
| Ledgers.UnreadSellReply06 | Exp/0/client-0-6.py:56-64 | client-0-6 sends SELL without reading its reply, so the next round takes the SELL's reply as the purchase and debits the ticket it just sold |
| Listeners.Hear38 | Exp/0/client-0-38.py:23-51 | the framed listener catches every handler exception |
| Listeners.Hear29 | Exp/0/client-0-29.py:24-41 | the client-0-29 listener neither idles out nor dies |
| Listeners.Hear17 | Exp/0/client-0-17.py:22-34 | the client-0-17 listener never idles out |
| Listeners.HearOneMeaning | Exp/0/client-0-24.py:23-46 | across the families: stop ends every loop; the idle rule and the filters decide what is handed to the handler; an exception ends exactly the loops that do not catch it, with the books unchanged; the timer is reset as each family does it |
| Listeners.OwnFrameIgnored38 | Exp/0/client-0-40.py:29-38 | a datagram framed with the own id is dropped without resetting the timer |
| Listeners.ForeignFrameHandled38 | Exp/0/client-0-38.py:32-38 | a body framed with another id is handled, and the timer is reset unless the handler raised |
| Listeners.UnframedDropped38 | Exp/0/client-0-38.py:32-42 | a datagram without ':' is dropped |
| Listeners.Listener30DropsNoMoney | Exp/0/client-0-30.py:33-36 | as written, a NOMONEY from the peer never reaches the handler, while the intended call sells back |
| Listeners.Listener30TakesNoMoney | Exp/0/client-0-30.py:86-90 | with the handler reached, a foreign NOMONEY sells a holding back, sets the event and resets the timer |
| Listeners.Hear29Releases | Exp/0/client-0-29.py:34-37 | a handled foreign message sets the event exactly when the handler does not raise |
| Listeners.ListenFrom | Exp/0/client-0-38.py:27-46 | the loop never takes more events than there are; a loop still listening has taken them all; a stopped loop took at least one |
| Listeners.ListenKeepsDistinctIds | Exp/0/client-0-24.py:23-46 | every listener keeps the holding ids distinct over any run |
| Listeners.OfferOnlyListenersKeepBooks | Exp/0/client-0-18.py:23-44 | the client-0-18 and client-0-17 listeners never change the books over any run |
| Listeners.Listener30AsWrittenKeepsBooks | Exp/0/client-0-30.py:23-47 | as written, the client-0-30 listener never changes the books over any run |
| Listeners.ListenEndsAtStop | Exp/0/client-0-18.py:27 | no listener takes an event after the first stop |
| Agents.Agent.constructor | Exp/0/client-0-24.py:118-119 | a fresh agent holds 4000 in cash and nothing else, with the event set |
| Agents.Agent.SellTicket | Exp/0/client-0-38.py:120-129 | `sell_ticket` changes the fields as `SellOldest` says and keeps the ids distinct |
| Agents.Agent.Buy | Exp/0/client-0-38.py:115-117 | a purchase changes the fields as `Record` says |
| Agents.Agent.OfferHolding | Exp/0/client-0-38.py:63-75 | the scalper's offer changes the fields as `Offer` says |
| Agents.Agent.HandleTrader | Exp/0/client-0-38.py:54-95 | `handle_udp_message` of client-0-38, 0-40 and 0-30 changes the fields as `ReactTrader` says |
| Agents.Agent.Handle29 | Exp/0/client-0-29.py:43-56 | the client-0-29 handler changes the fields as `React29` says |
| Agents.Agent.Handle24 | Exp/0/client-0-24.py:48-79 | the client-0-24 handler changes the fields as `React24` says |
| Agents.Agent.Handle20 | Exp/0/client-0-20.py:47-65 | the client-0-20 handler changes the fields as `React20` says |
| Agents.Agent.Handle18 | Exp/0/client-0-18.py:46-62 | the client-0-18 handler changes the fields as `React18` says |
| Agents.Agent.Handle17 | Exp/0/client-0-17.py:36-52 | the client-0-17 handler changes the fields as `React17` says |
| Agents.Agent.TakeReply | Exp/0/client-0-24.py:95-98 | taking a purchase reply changes the fields as `TakePurchase` says, and the ids stay distinct |
| Agents.Agent.Round | Exp/0/client-0-38.py:103-118 | one round changes the fields as `PlayRound` says, and the ids stay distinct |
| Agents.Agent.Turn | Exp/0/client-0-38.py:100-118 | one pass of the 15-round loop advances it as `RunRounds` says, and the ids stay distinct |
| Agents.Agent.PlayRounds | Exp/0/client-0-38.py:100-118 | the round loop changes the fields and sends what `RunRounds` says, and the ids stay distinct |
| Agents.Agent.SendRequests | Exp/0/client-0-29.py:58-77 | `send_requests_to_server` runs the 15 rounds `RunRounds` describes, and the ids stay distinct |
| Agents.Agent.Dispatch | Exp/0/client-0-24.py:48-79 | each family's `handle_udp_message` changes the fields as `Handler` says |
| Agents.Agent.Hear | Exp/0/client-0-24.py:27-41 | one pass of each family's listener loop changes the fields, the timer and the loop state as `HearOne` says |
| Agents.Agent.Listen | Exp/0/client-0-38.py:23-51 | `udp_listener` over the events ends with the fields, sends and end that `Listen` gives |

## Left out

- Sockets are not modelled. What the exchange and the peer send arrives as sequences: TCP chunks fed to a session or an engine, and UDP events fed to a listener. What would be sent is returned as a list of `Send` values. TCP's merging or splitting of messages into chunks is not modelled.
- Threads, locks and the interleaving of the engine with the listener are not modelled. Each critical section is one method call. The engine's wait on an empty `transaction_complete` event ends the modelled loop as `Blocked`.
- Time is not modelled. `time.time()` is an integer clock reading carried by each event, and one reading serves both the idle test and the timer reset of a pass. `time.sleep` is not modelled.
- `random.randint` prices are parameters of the `Inventory` constructor, required to lie in 200..400.
- Logging, `print`, `input()`, byte decoding and the exceptions they could raise are not modelled.
- `int()` accepts an optional sign and ASCII digits, and `str.isdigit()` (the offer test `parts[0].isdigit()`) holds for ASCII digits only. Underscores and non-ASCII digits such as "٣" or "²" are not modelled, so an offer whose id is written in such digits is ignored by the model where the program records it.
- Listeners.HearOne: the family `L30` dispatches to the corrected `Hear30`, so `Listen`, `HearOneMeaning`, `ListenKeepsDistinctIds`, `Agents.Agent.Hear` and `Agents.Agent.Listen` describe client-0-30 as it would run with the missing argument passed. As written, its handler call raises `TypeError`, so every datagram leaves the books, the event and the timer unchanged (`Hear30AsWritten`, `Listener30DropsNoMoney`, `Listener30AsWrittenKeepsBooks`); no family of `Listen` or of the `Agent` methods runs that version.
- server-0-3 and client-0-12 only receive and print, so they are not modelled. The listeners of client-0-6, client-0-13 and client-0-16 only log, so they are not modelled either.
- Start-up and shutdown in `main`/`start_server` are not modelled. That includes the `stop_event.set()` that client-0-18's listener runs on exit, which the model reports as the listener's end.

## Findings

| source | as written | input that shows it | evidently intended | confidence | as-written member | corrected member |
|---|---|---|---|---|---|---|
| Exp/0/server-0-7.py:54-55 (also Exp/0/server-0-4.py:32-33) | the inner test repeats the outer one, so the NOFUNDS branch can never run | one unsold ticket priced 300, `BUY 250`: the reply is SOLDOUT | NOFUNDS when an unsold ticket exists that the balance cannot reach | not executed | Exchange.FirstAffordableSaysSoldOutWithStockLeft | Exchange.NoFundsMeaning |
| Exp/0/client-0-30.py:35 | the listener calls the seven-parameter `handle_udp_message` with six arguments, so every foreign message raises before the handler runs | holding "10000" at 300, NOMONEY from the peer: the holding stays unsold and the event stays clear | the event passed as the seventh argument, so NOMONEY sells the holding back and sets the event | not executed | Listeners.Listener30DropsNoMoney | Listeners.Listener30TakesNoMoney |
