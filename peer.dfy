/**
 * The datagrams the agents exchange: the `<senderId>:<body>` framing of
 * client-0-38 and client-0-40, the message texts, and client-0-40's
 * derivation of its own and its peer's UDP ports from the agent id.
 */
module Peer {
  import opened Wrappers
  import opened Text

  const Host := "localhost"
  const TcpPort := 12345
  /** `tcp_port + 1`: the UDP port every agent before client-0-40 binds, and also sends to. */
  const UdpPort := TcpPort + 1

  datatype Addr = Addr(host: string, port: int)

  /** A message an agent sends: over its TCP connection to the exchange, or as a datagram. */
  datatype Send = Tcp(text: string) | Udp(to: Addr, text: string)

  /** `other_client_address` of every agent with a fixed peer: the same address it binds itself. */
  const StaticPeer := Addr(Host, UdpPort)

  const NoMoney := "NOMONEY"
  const SoldOutNotice := "Scalper is sold-out"

  /** `become_scalper`'s request, without the sender id. */
  function ScalpRequest(balance: int): string {
    "SCALP " + IntToString(balance)
  }

  function Frame(senderId: string, body: string): string {
    senderId + ":" + body
  }

  /** The body as sent: framed with the sender's id by client-0-38 and client-0-40, bare by the others. */
  function Tagged(tag: Option<string>, body: string): string {
    match tag
    case Some(id) => Frame(id, body)
    case None => body
  }

  /** Position of the first ':' in `s`. */
  function ColonAt(s: string): (k: nat)
    requires ':' in s
    ensures k < |s| && s[k] == ':' && ':' !in s[..k]
  {
    if s[0] == ':' then 0
    else
      var k := 1 + ColonAt(s[1..]);
      assert s[..k] == [s[0]] + s[1..][..k - 1];
      k
  }

  /**
   * The listener's framing check and `message.split(':', 1)`: no frame when
   * the message has no ':'; otherwise the sender id before the first ':'
   * and the body after it.
   */
  function ParseFrame(message: string): (r: Option<(string, string)>)
    ensures r.None? <==> ':' !in message
    ensures r.Some? ==> ':' !in r.value.0 && Frame(r.value.0, r.value.1) == message
  {
    if ':' !in message then None
    else
      var k := ColonAt(message);
      assert message == message[..k] + ":" + message[k + 1..];
      Some((message[..k], message[k + 1..]))
  }

  /** Round trip: a frame whose sender id has no ':' is read back as that id and body. */
  lemma ParseFrameOfFrame(senderId: string, body: string)
    requires ':' !in senderId
    ensures ParseFrame(Frame(senderId, body)) == Some((senderId, body))
  {
    var m := Frame(senderId, body);
    assert m[|senderId|] == ':';
    var k := ColonAt(m);
    assert m[..k] == senderId;
    assert m[k + 1..] == body;
  }

  /** Reading a scalp request back with `split()` and `int()` gives the buyer's balance. */
  lemma ReadScalpRequest(balance: int)
    ensures Split(ScalpRequest(balance)) == ["SCALP", IntToString(balance)]
    ensures ParseInt(IntToString(balance)) == Some(balance)
  {
    assert ScalpRequest(balance) == "SCALP" + " " + IntToString(balance);
    assert IsToken("SCALP") by {
      forall i | 0 <= i < 5 ensures !IsSpace("SCALP"[i]) { }
    }
    SplitTwoTokens("SCALP", IntToString(balance));
    ParseIntOfIntToString(balance);
  }

  /** `other_client_id` in client-0-40: "2" for agent "1", "1" for any other id. */
  function PeerId(ownId: string): string {
    if ownId == "1" then "2" else "1"
  }

  /** The peer of the peer is the agent itself exactly for the two ids "1" and "2". */
  lemma PeerIdPairs(ownId: string)
    ensures PeerId(PeerId(ownId)) == ownId <==> ownId == "1" || ownId == "2"
  {
  }

  datatype PortPlan = PortPlan(own: int, peer: int)

  /**
   * client-0-40's ports: `base_udp_port + int(client_id)` for its own socket
   * and `base_udp_port + int(other_client_id)` for its peer; the first
   * `int()` raises on an id that is not an integer, modelled as `None`.
   */
  function PlanPorts(ownId: string): Option<PortPlan> {
    match PyInt(ownId)
    case None => None
    case Some(n) =>
      match PyInt(PeerId(ownId))
      case None => None
      case Some(m) => Some(PortPlan(UdpPort + n, UdpPort + m))
  }

  lemma PyIntOfDigit(s: string)
    requires |s| == 1 && IsDigit(s[0])
    ensures PyInt(s) == Some(DigitValue(s[0]))
  {
    assert IsToken(s);
    SplitOneToken(s);
    assert IsDigits(s);
    assert s[..|s| - 1] == [];
    assert DigitsValue(s) == DigitValue(s[0]);
  }

  /**
   * The plan exists exactly when the id is an integer; the own port is the
   * base plus that integer and the peer port is 12348 for agent "1" and
   * 12347 for every other agent.
   */
  lemma PlanPortsMeaning(ownId: string)
    ensures PlanPorts(ownId).Some? <==> PyInt(ownId).Some?
    ensures PlanPorts(ownId).Some? ==>
      PlanPorts(ownId).value.own == UdpPort + PyInt(ownId).value &&
      PlanPorts(ownId).value.peer == (if ownId == "1" then UdpPort + 2 else UdpPort + 1)
  {
    PyIntOfDigit("1");
    PyIntOfDigit("2");
  }

  /** Agents "1" and "2" each send to the port the other binds. */
  lemma PlansMirror()
    ensures PlanPorts("1") == Some(PortPlan(12347, 12348))
    ensures PlanPorts("2") == Some(PortPlan(12348, 12347))
  {
    PlanPortsMeaning("1");
    PlanPortsMeaning("2");
    PyIntOfDigit("1");
    PyIntOfDigit("2");
  }

  /**
   * An agent's plan sends to its own port exactly when its id reads as the
   * integer 1 without being the string "1" (such as "01" or "+1").
   */
  lemma PlanPortsClash(ownId: string)
    requires PlanPorts(ownId).Some?
    ensures PlanPorts(ownId).value.own == PlanPorts(ownId).value.peer <==>
      PyInt(ownId) == Some(1) && ownId != "1"
  {
    PlanPortsMeaning(ownId);
    if ownId == "1" {
      PyIntOfDigit("1");
    }
  }
}
