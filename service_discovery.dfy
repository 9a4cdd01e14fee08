/** The neighbour discovery of src/dtnd/service_discovery.rs.

    Every node periodically multicasts an announcement (its endpoint id and
    the (scheme, port) of each of its convergence-layer agents) and listens
    for the announcements of others. Each announcement that decodes becomes a
    `Dynamic` peer record for the node's peer table, followed by an
    "encountered peer" notification to routing.

    The peer table and the routing layer are seen only through the calls
    discovery makes on them (`peers_add`, `routing_notify`), recorded in order
    in an append-only event log. The CBOR codec, the socket's send outcome and
    each agent's `name()` and `port()` are parameters. */
module ServiceDiscovery {
  import opened Wrappers
  import opened Numeric

  /** A `bp7::EndpointID`, kept opaque. */
  type EndpointId = string

  type Ipv4Octets = s: seq<byte> | |s| == 4 witness [0, 0, 0, 0]
  type Ipv6Segments = s: seq<u16> | |s| == 8 witness [0, 0, 0, 0, 0, 0, 0, 0]

  datatype IpAddr = V4(octets: Ipv4Octets) | V6(segments: Ipv6Segments)

  datatype SocketAddr = SocketAddr(ip: IpAddr, port: u16)

  const DISCOVERY_PORT: u16 := 3003
  const MULTICAST_V4: IpAddr := V4([224, 0, 0, 26])
  const MULTICAST_V6: IpAddr := V6([0xFF02, 0, 0, 0, 0, 0, 0, 0x300])

  /** Length of the receive buffer `vec![0; 1024]`. */
  const RECV_BUFFER_SIZE: nat := 1024

  /** The wire record: the sender's endpoint id and its (scheme, port) list. */
  datatype AnnouncementPkt = AnnouncementPkt(eid: EndpointId, cl: seq<(string, u16)>)

  datatype PeerType = Static | Dynamic

  /** The record `DtnPeer::new(eid, addr, con_type, cla_list)` builds. */
  datatype DtnPeer = DtnPeer(eid: EndpointId, addr: IpAddr, conType: PeerType,
                             claList: seq<(string, Option<u16>)>)

  datatype RoutingNotification = EncounteredPeer(eid: EndpointId)

  /** One call discovery makes on the rest of the node. */
  datatype Event = PeerAdded(peer: DtnPeer) | Routing(notification: RoutingNotification)

  /** What one `recv_from` gives: a datagram and its sender, or an I/O error. */
  datatype Received = Datagram(bytes: seq<byte>, from: SocketAddr) | RecvError

  /** `serde_cbor::from_slice` for an `AnnouncementPkt`, with `Err` as None. */
  type Decoder = seq<byte> -> Option<AnnouncementPkt>

  // ---------------------------------------------------------------------
  // Receiving: one datagram
  // ---------------------------------------------------------------------

  /** The bytes decoding sees: the first `size` bytes of the 1024-byte buffer,
      where `recv_from` fills at most the buffer and drops the rest. */
  function Truncate(datagram: seq<byte>): (payload: seq<byte>)
    ensures |payload| <= RECV_BUFFER_SIZE
    ensures |payload| == if |datagram| < RECV_BUFFER_SIZE then |datagram| else RECV_BUFFER_SIZE
    ensures payload == datagram[..|payload|]
  {
    if |datagram| < RECV_BUFFER_SIZE then datagram else datagram[..RECV_BUFFER_SIZE]
  }

  /** The transport options `cl.iter().map(|(scheme, port)| (scheme, Some(port)))`. */
  function TransportOptions(cl: seq<(string, u16)>): (opts: seq<(string, Option<u16>)>)
    ensures |opts| == |cl|
    ensures forall i :: 0 <= i < |cl| ==> opts[i] == (cl[i].0, Some(cl[i].1))
  {
    if cl == [] then [] else [(cl[0].0, Some(cl[0].1))] + TransportOptions(cl[1..])
  }

  /** The peer record built from a decoded announcement and the datagram's
      source address. */
  function PeerFromAnnouncement(pkt: AnnouncementPkt, src: IpAddr): DtnPeer
  {
    DtnPeer(pkt.eid, src, Dynamic, TransportOptions(pkt.cl))
  }

  function CountEncountered(events: seq<Event>): nat
  {
    if events == [] then 0
    else CountEncountered(events[..|events| - 1]) + if events[|events| - 1].Routing? then 1 else 0
  }

  function CountPeersAdded(events: seq<Event>): nat
  {
    if events == [] then 0
    else CountPeersAdded(events[..|events| - 1]) + if events[|events| - 1].PeerAdded? then 1 else 0
  }

  /** Every peer addition is immediately followed by the notification for
      the same endpoint id, and nothing else occurs. */
  predicate WellPaired(events: seq<Event>)
  {
    events == [] ||
    (|events| >= 2 && events[0].PeerAdded? &&
     events[1] == Routing(EncounteredPeer(events[0].peer.eid)) &&
     WellPaired(events[2..]))
  }

  /** The events one datagram produces, given what decoding made of it: none
      when decoding failed, otherwise one peer addition and one notification. */
  function ReceiveEvents(decoded: Option<AnnouncementPkt>, src: IpAddr): (events: seq<Event>)
    ensures decoded.None? <==> events == []
    ensures CountEncountered(events) == CountPeersAdded(events) == if decoded.Some? then 1 else 0
    ensures WellPaired(events)
    ensures decoded.Some? ==> events[1] == Routing(EncounteredPeer(decoded.value.eid))
    ensures forall e :: e in events && e.PeerAdded? ==>
              e.peer.conType == Dynamic && e.peer.addr == src && e.peer.eid == decoded.value.eid
  {
    match decoded
    case None => []
    case Some(pkt) =>
      var events := [PeerAdded(PeerFromAnnouncement(pkt, src)), Routing(EncounteredPeer(pkt.eid))];
      assert events[..1][..0] == [] && events[..1] == [events[0]];
      assert CountEncountered(events[..1]) == 0 && CountPeersAdded(events[..1]) == 1;
      events
  }

  /** The events one receive result produces. A receive error produces none
      (it ends the loop, see `Server.Run`). */
  function DatagramEvents(r: Received, decode: Decoder): seq<Event>
  {
    match r
    case Datagram(bytes, from) => ReceiveEvents(decode(Truncate(bytes)), from.ip)
    case RecvError => []
  }

  /** A successfully decoded announcement yields the peer with the packet's
      endpoint id, the datagram's source address (never anything from the
      payload), the `Dynamic` tag and one `Some(port)` option per announced
      (scheme, port), in order. */
  lemma ReceivedPeer(pkt: AnnouncementPkt, src: IpAddr)
    ensures var events := ReceiveEvents(Some(pkt), src);
            |events| == 2 && events[0].PeerAdded? &&
            events[0].peer.eid == pkt.eid && events[0].peer.addr == src &&
            events[0].peer.conType == Dynamic &&
            |events[0].peer.claList| == |pkt.cl| &&
            (forall i :: 0 <= i < |pkt.cl| ==>
               events[0].peer.claList[i].0 == pkt.cl[i].0 &&
               events[0].peer.claList[i].1 == Some(pkt.cl[i].1))
  {
  }

  /** Bytes past the first 1024 never reach the decoder. */
  lemma TrailingBytesIgnored(bytes: seq<byte>, extra: seq<byte>, from: SocketAddr, decode: Decoder)
    requires |bytes| >= RECV_BUFFER_SIZE
    ensures DatagramEvents(Datagram(bytes + extra, from), decode) == DatagramEvents(Datagram(bytes, from), decode)
  {
    assert Truncate(bytes + extra) == Truncate(bytes);
  }

  // ---------------------------------------------------------------------
  // Receiving: the loop
  // ---------------------------------------------------------------------

  /** The events a sequence of receive results produces, in arrival order. */
  function RunEvents(incoming: seq<Received>, decode: Decoder): seq<Event>
  {
    if incoming == [] then []
    else RunEvents(incoming[..|incoming| - 1], decode) + DatagramEvents(incoming[|incoming| - 1], decode)
  }

  lemma RunEventsStep(incoming: seq<Received>, k: nat, decode: Decoder)
    requires k < |incoming|
    ensures RunEvents(incoming[..k + 1], decode) == RunEvents(incoming[..k], decode) + DatagramEvents(incoming[k], decode)
  {
    assert incoming[..k + 1][..k] == incoming[..k];
  }

  /** How many of the received datagrams decode. */
  function Decoded(incoming: seq<Received>, decode: Decoder): nat
  {
    if incoming == [] then 0
    else
      var last := incoming[|incoming| - 1];
      Decoded(incoming[..|incoming| - 1], decode)
        + if last.Datagram? && decode(Truncate(last.bytes)).Some? then 1 else 0
  }

  lemma {:induction false} CountsOfAppend(a: seq<Event>, b: seq<Event>)
    ensures CountEncountered(a + b) == CountEncountered(a) + CountEncountered(b)
    ensures CountPeersAdded(a + b) == CountPeersAdded(a) + CountPeersAdded(b)
  {
    if b != [] {
      assert (a + b)[..|a + b| - 1] == a + b[..|b| - 1];
      CountsOfAppend(a, b[..|b| - 1]);
    } else {
      assert a + b == a;
    }
  }

  lemma {:induction false} WellPairedAppend(a: seq<Event>, b: seq<Event>)
    requires WellPaired(a) && WellPaired(b)
    ensures WellPaired(a + b)
  {
    if a != [] {
      assert (a + b)[2..] == a[2..] + b;
      WellPairedAppend(a[2..], b);
    } else {
      assert a + b == b;
    }
  }

  /** Exactly one peer addition and one notification per datagram that
      decodes, and none for a datagram that does not. */
  lemma {:induction false} OneNotificationPerDecodedDatagram(incoming: seq<Received>, decode: Decoder)
    ensures CountEncountered(RunEvents(incoming, decode)) == Decoded(incoming, decode)
    ensures CountPeersAdded(RunEvents(incoming, decode)) == Decoded(incoming, decode)
  {
    if incoming != [] {
      var init := incoming[..|incoming| - 1];
      OneNotificationPerDecodedDatagram(init, decode);
      CountsOfAppend(RunEvents(init, decode), DatagramEvents(incoming[|incoming| - 1], decode));
    }
  }

  /** Over any run, each peer addition is immediately followed by the
      notification for that peer's endpoint id. */
  lemma {:induction false} RunEventsPaired(incoming: seq<Received>, decode: Decoder)
    ensures WellPaired(RunEvents(incoming, decode))
  {
    if incoming != [] {
      var init := incoming[..|incoming| - 1];
      RunEventsPaired(init, decode);
      WellPairedAppend(RunEvents(init, decode), DatagramEvents(incoming[|incoming| - 1], decode));
    }
  }

  /** Over any run, every peer discovery adds is `Dynamic` and carries the
      source address of some received datagram. */
  lemma {:induction false} RunPeersDynamic(incoming: seq<Received>, decode: Decoder)
    ensures forall e :: e in RunEvents(incoming, decode) && e.PeerAdded? ==>
              e.peer.conType == Dynamic &&
              exists r :: r in incoming && r.Datagram? && r.from.ip == e.peer.addr
  {
    if incoming != [] {
      var init := incoming[..|incoming| - 1];
      var last := incoming[|incoming| - 1];
      RunPeersDynamic(init, decode);
      forall e | e in RunEvents(incoming, decode) && e.PeerAdded?
        ensures e.peer.conType == Dynamic
        ensures exists r :: r in incoming && r.Datagram? && r.from.ip == e.peer.addr
      {
        if e in RunEvents(init, decode) {
          var r :| r in init && r.Datagram? && r.from.ip == e.peer.addr;
          assert r in incoming;
        } else {
          assert e in DatagramEvents(last, decode);
          assert last in incoming;
        }
      }
    }
  }

  /** A datagram that fails to decode is dropped: the log is as if it had
      never arrived. */
  lemma DroppedDatagram(incoming: seq<Received>, bytes: seq<byte>, from: SocketAddr, decode: Decoder)
    requires decode(Truncate(bytes)) == None
    ensures RunEvents(incoming + [Datagram(bytes, from)], decode) == RunEvents(incoming, decode)
  {
    assert (incoming + [Datagram(bytes, from)])[..|incoming|] == incoming;
    assert RunEvents(incoming, decode) + [] == RunEvents(incoming, decode);
  }

  /** The node state discovery writes to: the peer table (`peers_add`) and the
      routing layer (`routing_notify`), as the ordered log of those calls. */
  class NodeState {
    var events: seq<Event>

    constructor ()
      ensures events == []
    {
      events := [];
    }

    /** `peers_add(peer)`. */
    method PeersAdd(peer: DtnPeer)
      modifies this
      ensures events == old(events) + [PeerAdded(peer)]
    {
      events := events + [PeerAdded(peer)];
    }

    /** `routing_notify(notification)`. */
    method RoutingNotify(notification: RoutingNotification)
      modifies this
      ensures events == old(events) + [Routing(notification)]
    {
      events := events + [Routing(notification)];
    }
  }

  /** The receiving half of discovery, with its reused receive buffer. */
  class Server {
    const buf: array<byte>

    /** `Server { socket, buf: vec![0; 1024] }`. */
    constructor ()
      ensures buf.Length == RECV_BUFFER_SIZE && fresh(buf)
      ensures forall i :: 0 <= i < buf.Length ==> buf[i] == 0
    {
      buf := new byte[RECV_BUFFER_SIZE](_ => 0);
    }

    /** `recv_from(&mut buf)`: the datagram's first bytes, as many as fit,
        land at the front of the buffer; the rest of the buffer keeps
        whatever an earlier datagram left there. */
    method RecvFrom(datagram: seq<byte>) returns (size: nat)
      modifies buf
      ensures size == if |datagram| < buf.Length then |datagram| else buf.Length
      ensures buf[..size] == datagram[..size]
      ensures buf[size..] == old(buf[size..])
    {
      size := if |datagram| < buf.Length then |datagram| else buf.Length;
      forall i | 0 <= i < size {
        buf[i] := datagram[i];
      }
    }

    /** The body of the receive loop for one datagram: decode the first
        `size` bytes; on failure drop the datagram, otherwise add the peer
        and notify routing, once each, in that order. */
    method HandleDatagram(node: NodeState, bytes: seq<byte>, from: SocketAddr, decode: Decoder)
      requires buf.Length == RECV_BUFFER_SIZE
      modifies buf, node
      ensures node.events == old(node.events) + DatagramEvents(Datagram(bytes, from), decode)
      // Only the first `size` bytes of the buffer are read, and they are the
      // datagram's own; what lies beyond is left from earlier datagrams.
      ensures buf[..|Truncate(bytes)|] == Truncate(bytes)
    {
      var size := RecvFrom(bytes);
      assert buf[..size] == Truncate(bytes);
      var decoded := decode(buf[..size]);
      if decoded.None? {
        return;
      }
      var pkt := decoded.value;
      var peer := PeerFromAnnouncement(pkt, from.ip);
      node.PeersAdd(peer);
      node.RoutingNotify(EncounteredPeer(pkt.eid));
    }

    /** `Server::run` over a finite sequence of receive results: every
        datagram is handled in turn, a decode failure does not end the loop,
        and the first receive error ends it (the `?` returns the error).
        `handled` is the number of receive results consumed before that. The
        buffer's contents afterwards are not specified: each iteration
        overwrites the bytes it reads before reading them. */
    method Run(node: NodeState, incoming: seq<Received>, decode: Decoder) returns (handled: nat)
      requires buf.Length == RECV_BUFFER_SIZE
      modifies buf, node
      ensures handled <= |incoming|
      ensures handled < |incoming| ==> incoming[handled].RecvError?
      ensures forall i :: 0 <= i < handled ==> incoming[i].Datagram?
      ensures node.events == old(node.events) + RunEvents(incoming[..handled], decode)
    {
      handled := 0;
      while handled < |incoming|
        invariant handled <= |incoming|
        invariant forall i :: 0 <= i < handled ==> incoming[i].Datagram?
        invariant node.events == old(node.events) + RunEvents(incoming[..handled], decode)
      {
        var r := incoming[handled];
        if r.RecvError? {
          return;
        }
        HandleDatagram(node, r.bytes, r.from, decode);
        RunEventsStep(incoming, handled, decode);
        handled := handled + 1;
      }
    }
  }

  // ---------------------------------------------------------------------
  // Announcing
  // ---------------------------------------------------------------------

  /** Whether an address lies in the multicast range of its family:
      224.0.0.0/4 for IPv4, ff00::/8 for IPv6. */
  predicate IsMulticast(ip: IpAddr)
  {
    match ip
    case V4(octets) => 224 <= octets[0] <= 239
    case V6(segments) => segments[0] >= 0xFF00
  }

  /** The multicast group and port announcements are sent to:
      `224.0.0.26:3003`, or `[FF02::300]:3003` when `v6` is set. */
  function AnnouncementDestination(v6: bool): (addr: SocketAddr)
    ensures addr.port == DISCOVERY_PORT == 3003
    ensures addr.ip.V6? <==> v6
    ensures addr.ip == if v6 then V6([0xFF02, 0, 0, 0, 0, 0, 0, 0x300]) else V4([224, 0, 0, 26])
    ensures IsMulticast(addr.ip)
  {
    SocketAddr(if v6 then MULTICAST_V6 else MULTICAST_V4, DISCOVERY_PORT)
  }

  /** The (name, port) of each agent of the agent list, in list order. */
  function ClEntries<A>(clList: seq<A>, name: A -> string, port: A -> u16): (cl: seq<(string, u16)>)
    ensures |cl| == |clList|
    ensures forall i :: 0 <= i < |clList| ==> cl[i] == (name(clList[i]), port(clList[i]))
  {
    if clList == [] then []
    else ClEntries(clList[..|clList| - 1], name, port) + [(name(clList[|clList| - 1]), port(clList[|clList| - 1]))]
  }

  /** The packet one announcer tick builds: the `(cl.name(), cl.port())` of
      each active agent pushed in list order, and the configured host eid.
      `name` and `port` stand for the agents' `name()` and `port()`. */
  method BuildAnnouncement<A>(clList: seq<A>, name: A -> string, port: A -> u16, hostEid: EndpointId)
    returns (pkt: AnnouncementPkt)
    ensures pkt.eid == hostEid
    ensures |pkt.cl| == |clList|
    ensures forall i :: 0 <= i < |clList| ==> pkt.cl[i] == (name(clList[i]), port(clList[i]))
  {
    var cls: seq<(string, u16)> := [];
    for i := 0 to |clList|
      invariant |cls| == i
      invariant forall j :: 0 <= j < i ==> cls[j] == (name(clList[j]), port(clList[j]))
    {
      cls := cls + [(name(clList[i]), port(clList[i]))];
    }
    pkt := AnnouncementPkt(hostEid, cls);
  }

  /** The datagrams a sequence of ticks hands to the socket: one per tick,
      each the encoded announcement for that tick's agent list. */
  function TickDatagrams<A>(snapshots: seq<seq<A>>, name: A -> string, port: A -> u16, hostEid: EndpointId,
                            encode: AnnouncementPkt -> seq<byte>, v6: bool): seq<(seq<byte>, SocketAddr)>
  {
    if snapshots == [] then []
    else TickDatagrams(snapshots[..|snapshots| - 1], name, port, hostEid, encode, v6)
         + [(encode(AnnouncementPkt(hostEid, ClEntries(snapshots[|snapshots| - 1], name, port))),
             AnnouncementDestination(v6))]
  }

  function CountFailures(sendOk: seq<bool>): nat
  {
    if sendOk == [] then 0 else CountFailures(sendOk[..|sendOk| - 1]) + if sendOk[|sendOk| - 1] then 0 else 1
  }

  /** A send failure never stops the announcer: after any sequence of ticks,
      one announcement per tick went to the multicast group of the family,
      each carrying that tick's agent list and the host eid. */
  lemma {:induction false} EveryTickAnnounces<A>(snapshots: seq<seq<A>>, name: A -> string, port: A -> u16,
                                                 hostEid: EndpointId, encode: AnnouncementPkt -> seq<byte>, v6: bool)
    ensures |TickDatagrams(snapshots, name, port, hostEid, encode, v6)| == |snapshots|
    ensures forall i :: 0 <= i < |snapshots| ==>
              TickDatagrams(snapshots, name, port, hostEid, encode, v6)[i] ==
                (encode(AnnouncementPkt(hostEid, ClEntries(snapshots[i], name, port))), AnnouncementDestination(v6))
  {
    if snapshots != [] {
      var init := snapshots[..|snapshots| - 1];
      EveryTickAnnounces(init, name, port, hostEid, encode, v6);
    }
  }

  /** The sending half of discovery for one address family. `sent` is every
      datagram handed to `send_to`, whether or not the send succeeded. */
  class Announcer {
    const v6: bool
    var sent: seq<(seq<byte>, SocketAddr)>

    constructor (v6: bool)
      ensures this.v6 == v6 && sent == []
    {
      this.v6 := v6;
      sent := [];
    }

    /** One tick of `announcer`: build the packet from the current agent
        list, encode it and send it to the family's multicast group.
        `sendOk` is the socket's verdict; a failure is only reported. */
    method Tick<A>(clList: seq<A>, name: A -> string, port: A -> u16, hostEid: EndpointId,
                   encode: AnnouncementPkt -> seq<byte>, sendOk: bool) returns (failed: bool)
      modifies this
      ensures failed == !sendOk
      ensures sent == old(sent) + [(encode(AnnouncementPkt(hostEid, ClEntries(clList, name, port))),
                                    AnnouncementDestination(v6))]
    {
      var pkt := BuildAnnouncement(clList, name, port, hostEid);
      assert pkt.cl == ClEntries(clList, name, port);
      var addr := AnnouncementDestination(v6);
      sent := sent + [(encode(pkt), addr)];
      failed := !sendOk;
    }

    /** `announcer` over a finite number of ticks, with the agent list as it
        stood at each tick and each send's verdict: every tick sends, and the
        number of failed sends is returned. */
    method Run<A>(snapshots: seq<seq<A>>, name: A -> string, port: A -> u16, hostEid: EndpointId,
                  encode: AnnouncementPkt -> seq<byte>, sendOk: seq<bool>) returns (failures: nat)
      requires |sendOk| == |snapshots|
      modifies this
      ensures failures == CountFailures(sendOk)
      ensures sent == old(sent) + TickDatagrams(snapshots, name, port, hostEid, encode, v6)
    {
      failures := 0;
      for t := 0 to |snapshots|
        invariant failures == CountFailures(sendOk[..t])
        invariant sent == old(sent) + TickDatagrams(snapshots[..t], name, port, hostEid, encode, v6)
      {
        var failed := Tick(snapshots[t], name, port, hostEid, encode, sendOk[t]);
        if failed {
          failures := failures + 1;
        }
        assert snapshots[..t + 1][..t] == snapshots[..t];
        assert sendOk[..t + 1][..t] == sendOk[..t];
      }
      assert snapshots[..|snapshots|] == snapshots;
      assert sendOk[..|sendOk|] == sendOk;
    }
  }

  /** An announcement that survives the codec (the foreign CBOR library is
      assumed only for this packet, as a precondition) and fits the receive
      buffer reaches the listening node as exactly one `Dynamic` peer with
      the announcer's eid, the datagram's source address and one option per
      announced agent, followed by one notification. */
  lemma AnnouncementReachesPeerTable<A>(clList: seq<A>, name: A -> string, port: A -> u16, hostEid: EndpointId,
                                        encode: AnnouncementPkt -> seq<byte>, decode: Decoder, from: SocketAddr)
    requires var pkt := AnnouncementPkt(hostEid, ClEntries(clList, name, port));
             |encode(pkt)| <= RECV_BUFFER_SIZE && decode(encode(pkt)) == Some(pkt)
    ensures var events := DatagramEvents(Datagram(encode(AnnouncementPkt(hostEid, ClEntries(clList, name, port))), from), decode);
            |events| == 2 &&
            events[0].PeerAdded? && events[0].peer.eid == hostEid && events[0].peer.addr == from.ip &&
            events[0].peer.conType == Dynamic && |events[0].peer.claList| == |clList| &&
            (forall i :: 0 <= i < |clList| ==>
               events[0].peer.claList[i] == (name(clList[i]), Some(port(clList[i])))) &&
            events[1] == Routing(EncounteredPeer(hostEid))
  {
    var pkt := AnnouncementPkt(hostEid, ClEntries(clList, name, port));
    assert Truncate(encode(pkt)) == encode(pkt);
  }
}
