# dtn7-rs convergence layers and neighbour discovery, in Dafny

This project models two pieces of a delay-tolerant networking node (dtn7-rs):

- **The convergence-layer registry and outbound dispatch** (`src/cla/mod.rs`).
  A convergence-layer agent (CLA) is selected by a string `"<name>[:<port>]"`.
  `new` splits the selector on `':'`. It matches component 0 exactly against
  `dummy`, `mtcp` and `http`. It parses component 1 (or `"-1"` when there is
  none) as a `u16` and turns a parse failure into `None`. An unknown name
  panics. `ClaSender::transfer` builds a fresh agent from its `agent` string,
  formats the destination as `remote` or `remote:port`, and returns the
  agent's `scheduled_submission` verdict unchanged.
- **Neighbour discovery** (`src/dtnd/service_discovery.rs`). The receiver loop
  decodes each datagram (at most 1024 bytes of it). A datagram that does not
  decode is dropped. One that decodes becomes one `Dynamic` peer record, built
  from the packet's endpoint id and the datagram's source address, passed to
  `peers_add`; then one `EncounteredPeer` notification goes to routing. The
  announcer tick lists `(name, port)` of every active agent in order, builds
  the packet with the host endpoint id, and sends it to `224.0.0.26:3003` or
  `[FF02::300]:3003`. A failed send is only reported.

Modules: `Wrappers` (Option, Result), `Numeric` (Rust's `u16` parsing and
decimal display), `Strings` (Rust's `str::split` and `join`), `Cla`
(src/cla/mod.rs, pure functions) and `ServiceDiscovery`
(src/dtnd/service_discovery.rs). In `ServiceDiscovery` the packet-to-peer
construction is made of functions. The receive loop is the class `Server`,
which owns the reused 1024-byte buffer as an `array`. The node's peer table
and routing layer are the class `NodeState`, an append-only log of the
`peers_add` and `routing_notify` calls. The announcer is the class
`Announcer`, which logs every datagram handed to the socket.

Things the source leaves to code outside this model are parameters:

- the CBOR decoder (`Decoder`) and encoder;
- `scheduled_submission` (`submit`);
- each agent's `name()` and `port()`;
- the socket's send verdict and the sequence of received datagrams.

## Model

| member | source | states |
|---|---|---|
| `Cla.ConvergencyLayerAgents` | src/cla/mod.rs:36-38 | the list is the registry names of the three agent kinds in the order dummy, mtcp, http, without duplicates, and names every kind of agent |
| `Cla.New` | src/cla/mod.rs:42-50 | construction fails (the panic) exactly when component 0 of the selector is not a listed name, and the failure carries that name; on success the agent is of the kind component 0 names, and mtcp/http agents get exactly the parsed port |
| `Cla.NameBeforeFirstColon` | src/cla/mod.rs:43-45 | the matched name is the text before the first `':'`, or the whole selector when it has none |
| `Cla.NoColonNoPort` | src/cla/mod.rs:43-44 | a selector without `':'` is all name and yields port None, because the stand-in `"-1"` never parses |
| `Cla.SelectorComponents` | src/cla/mod.rs:43-44 | for `name:port:more...` the name is component 0, the port is the parse of component 1, and the third and later components are ignored |
| `Cla.NameAndPortText` | src/cla/mod.rs:43-44 | for `name:text` with one `':'` the name is `name` and the port is the `u16` parse of `text` |
| `Cla.RegistryIsExactlyTheList` | src/cla/mod.rs:45-49 | a port-less selector constructs an agent if and only if it is a listed name, and that agent reports the same registry name; every other name panics |
| `Cla.KnownSelectorWithPort` | src/cla/mod.rs:44-48 | `"dummy:<p>"` builds the dummy agent and ignores p; `"mtcp:<p>"` and `"http:<p>"` build their agent with `Some(p)` |
| `Cla.KnownSelectorWithoutPort` | src/cla/mod.rs:44-48 | `"dummy"`, `"mtcp"` and `"http"` build their agent, the last two with port None |
| `Cla.KnownSelectorWithPortText` | src/cla/mod.rs:44-48 | `"<known name>:<text>"` builds that agent with whatever `u16` parsing makes of the text |
| `Cla.CaseSensitive` | src/cla/mod.rs:45-49 | `"MTCP"` and `"Dummy:80"` panic: names are matched case-sensitively, with no fallback agent |
| `Cla.InvalidPortIsNone` | src/cla/mod.rs:44 | an empty port (`"mtcp:"`) or a negative one (`"http:-1"`) yields None rather than an error |
| `Cla.OverflowingPortIsNone` | src/cla/mod.rs:44 | a port above 65535 yields None while the agent is still constructed |
| `Cla.Destination` | src/cla/mod.rs:19-23 | the destination starts with the remote and is longer than it exactly when a port is set; with a port, the remote is followed by `':'` and decimal digits that parse back to that port |
| `Cla.DestinationRoundTrip` | src/cla/mod.rs:19-23 | for a remote without `':'` the destination splits back into exactly the remote, plus the port text when a port is set, and that text parses back to the port |
| `Cla.DestinationAmbiguousForIpv6` | src/cla/mod.rs:19-20 | since IPv6 remotes are not bracketed, `("::1", Some(80))` and `("::1:80", None)` give the same destination |
| `Cla.DestinationExamples` | src/cla/mod.rs:19-23 | remote `10.0.0.5` gives `"10.0.0.5"` without a port and `"10.0.0.5:16161"` with port 16161 |
| `Cla.Transfer` | src/cla/mod.rs:17-25 | transfer panics exactly when the sender's agent name is unknown; otherwise it returns the single submission verdict of the agent freshly built from `agent`, for the formatted destination and the given buffers, unchanged |
| `Strings.Split` | src/cla/mod.rs:43 | splitting gives at least one part, and no part contains the separator |
| `Strings.JoinSplit` | src/cla/mod.rs:43 | joining the parts of a split with the separator gives the text back |
| `Strings.SplitJoin` | src/cla/mod.rs:43 | splitting the join of separator-free parts gives back exactly those parts |
| `Strings.FirstPart` | src/cla/mod.rs:43 | the first part is the text before the first separator |
| `Numeric.ParseU16` | src/cla/mod.rs:44 | a successful parse comes from a non-empty text of ASCII digits with at most a leading `'+'` |
| `Numeric.ParseDecimal` | src/cla/mod.rs:44 | every `u16` written in decimal, with or without `'+'`, parses back to itself |
| `Numeric.ParseLeadingZero` | src/cla/mod.rs:44 | a leading zero is accepted and does not change the parsed value |
| `Numeric.ParseRejectsOverflow` | src/cla/mod.rs:44 | a value above 65535 is rejected rather than wrapped or saturated |
| `Numeric.ParseRejectsMinus` | src/cla/mod.rs:44 | any text beginning with `'-'` (such as the stand-in `"-1"`) is rejected |
| `Numeric.ParseRejectsEmpty` | src/cla/mod.rs:44 | the empty text and a lone `'+'` are rejected |
| `Numeric.DecimalString` | src/cla/mod.rs:20 | a port is displayed as one or more ASCII digits, a single digit exactly below 10, and without a leading zero |
| `Numeric.DigitsValueOfDecimal` | src/cla/mod.rs:20 | the digits of a displayed number have that number as their value |
| `ServiceDiscovery.Truncate` | src/dtnd/service_discovery.rs:32-33 | the decoder sees at most 1024 bytes, namely the first `min(len, 1024)` bytes of the datagram |
| `ServiceDiscovery.TrailingBytesIgnored` | src/dtnd/service_discovery.rs:32-33 | bytes past the first 1024 of a datagram never change what it produces |
| `ServiceDiscovery.TransportOptions` | src/dtnd/service_discovery.rs:47-51 | each `(scheme, port)` of the packet becomes `(scheme, Some(port))`, in order, one for one |
| `ServiceDiscovery.ReceiveEvents` | src/dtnd/service_discovery.rs:33-54 | a datagram produces no event exactly when decoding fails; otherwise exactly one peer addition then one `EncounteredPeer` with the packet's eid, and the peer is `Dynamic`, has the packet's eid and the datagram's source address |
| `ServiceDiscovery.ReceivedPeer` | src/dtnd/service_discovery.rs:43-52 | the peer added for a decoded packet has the packet's eid, the source address, the `Dynamic` tag and one `Some(port)` transport option per announced entry, in order |
| `ServiceDiscovery.OneNotificationPerDecodedDatagram` | src/dtnd/service_discovery.rs:31-56 | over any sequence of datagrams, the number of peer additions and the number of notifications both equal the number of datagrams that decode |
| `ServiceDiscovery.RunEventsPaired` | src/dtnd/service_discovery.rs:53-54 | over any run, every peer addition is immediately followed by the notification for that peer's eid, and nothing else is logged |
| `ServiceDiscovery.RunPeersDynamic` | src/dtnd/service_discovery.rs:43-46 | every peer discovery ever adds is `Dynamic` and carries the source address of a received datagram |
| `ServiceDiscovery.DroppedDatagram` | src/dtnd/service_discovery.rs:33-38 | a datagram that fails to decode leaves the log as if it had never arrived |
| `ServiceDiscovery.NodeState.PeersAdd` | src/dtnd/service_discovery.rs:53 | `peers_add` appends exactly one peer addition to the log |
| `ServiceDiscovery.NodeState.RoutingNotify` | src/dtnd/service_discovery.rs:54 | `routing_notify` appends exactly one notification to the log |
| `ServiceDiscovery.Server.constructor` | src/dtnd/service_discovery.rs:111-114 | the server's receive buffer is a fresh, zero-filled 1024-byte array |
| `ServiceDiscovery.Server.RecvFrom` | src/dtnd/service_discovery.rs:32 | the received bytes that fit land at the front of the buffer, `size` is how many, and the rest of the buffer is unchanged |
| `ServiceDiscovery.Server.HandleDatagram` | src/dtnd/service_discovery.rs:32-55 | one loop iteration appends to the node log exactly the events its datagram produces: none on decode failure, one peer addition and one notification on success; the buffer's first `size` bytes then hold the datagram's (truncated) bytes |
| `ServiceDiscovery.Server.Run` | src/dtnd/service_discovery.rs:25-57 | the loop handles every datagram in turn, keeps going after decode failures, and stops only at the first receive error; the log grows by the events of the handled datagrams, in order |
| `ServiceDiscovery.AnnouncementDestination` | src/dtnd/service_discovery.rs:76-80 | announcements go to port 3003 of `FF02::300` when `v6` is set and of `224.0.0.26` otherwise; both addresses are in their family's multicast range |
| `ServiceDiscovery.ClEntries` | src/dtnd/service_discovery.rs:68-72 | the announced list has one `(name, port)` entry per agent, in list order |
| `ServiceDiscovery.BuildAnnouncement` | src/dtnd/service_discovery.rs:68-84 | the loop builds a packet with the host eid and one `(name(), port())` entry per agent of the list, in the same order |
| `ServiceDiscovery.EveryTickAnnounces` | src/dtnd/service_discovery.rs:63-88 | after any sequence of ticks, exactly one datagram per tick was sent, each the encoded packet for that tick's agent list, to the family's multicast group |
| `ServiceDiscovery.Announcer.Tick` | src/dtnd/service_discovery.rs:63-88 | a tick hands exactly one datagram (the encoded packet, to the multicast group) to the socket and reports a failure exactly when the send failed |
| `ServiceDiscovery.Announcer.Run` | src/dtnd/service_discovery.rs:60-89 | the announcer keeps ticking after failed sends: the sent log grows by one datagram per tick and the number of failures is counted |
| `ServiceDiscovery.AnnouncementReachesPeerTable` | src/dtnd/service_discovery.rs:81-85 | an announcement that fits the buffer and survives the codec reaches a listener as one `Dynamic` peer with the host eid, the source address and one `Some(port)` option per announced agent, then one notification |

## Left out

- Socket creation, address reuse, bind, multicast loopback and group join, socket cloning, `tokio::spawn` and the interval timer (src/dtnd/service_discovery.rs:60-64, 90-153). These are operating-system I/O and async scheduling. Which loops start for which address family is therefore not modelled.
- The CBOR codec (`serde_cbor`). It is a library outside this model, so decoding and encoding are parameters and no round trip is proved for them. `AnnouncementReachesPeerTable` assumes the round trip for the one packet it talks about, as a precondition.
- The panic of `serde_cbor::to_vec(&pkt).unwrap()` in the announcer: the encoder is a total function here.
- The concrete agents (`dummy`, `mtcp`, `http`): their `setup`, `name()`, `port()` and `scheduled_submission` are not part of this model. `Agent` records what `new` passes to each constructor. `RegistryName` is the registry key of each kind, not the agent's own `name()`. The announcer takes `name()` and `port()` as parameters.
- The internals of `peers_add`, `routing_notify` and `DtnPeer::new`, and the collection type that `.collect()` builds. These live outside the two modelled files. The log records the calls in order and assumes no deduplication or overwrite, so "last announcement wins" in the peer table is not modelled. The transport options stay a sequence in announcement order.
- The global `CONFIG` and `DTNCORE` locks. `host_eid`, the agent list and `v6` are parameters. `Announcer.Run` takes one agent list per tick but a single host eid for the whole run.
- `bp7::EndpointID` is an opaque string. `IpAddr` display is an opaque string in `ClaSender`.
- Logging (`debug!`, `error!`, `info!`).
- `Server.Run`, `Announcer.Run`: the source loops run forever; the model runs them over a finite sequence of receive results or ticks.
- `Cla.Transfer`: a panic in `new` is returned as `Failure` instead of unwinding.
- `Numeric.ParseU16`: Rust's error kinds (empty, invalid digit, overflow) are not distinguished, since `.ok()` discards them. Overflow is decided on the full digit value; because leading digits only ever increase the value, this agrees with Rust's step-by-step checked arithmetic.
