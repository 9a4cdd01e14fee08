/** The convergence-layer registry and outbound dispatch of src/cla/mod.rs.

    A convergence-layer agent (CLA) is chosen at run time by a selector string
    "<name>[:<port>]". The three agents the registry knows are a closed set, so
    the trait object the source returns is modelled as a tagged union holding
    what the registry passes to each agent's constructor. */
module Cla {
  import opened Wrappers
  import opened Numeric
  import opened Strings

  /** The agent `new` constructs: `DummyConvergencyLayer::new()` takes no
      port, `MtcpConversionLayer::new(port)` and `HttpConversionLayer::new(port)`
      take the parsed `Option<u16>`. */
  datatype Agent = Dummy | Mtcp(port: Option<u16>) | Http(port: Option<u16>)

  /** An opaque bundle buffer handed to a transport (`bp7::ByteBuffer`). */
  type ByteBuffer = seq<byte>

  /** `ClaSender`: where to send and through which agent. `remote` stands for
      the text the source's `IpAddr` displays as. */
  datatype ClaSender = ClaSender(remote: string, port: Option<u16>, agent: string)

  const SELECTOR_SEPARATOR: char := ':'

  /** The text `new` parses when the selector has no port component. */
  const MISSING_PORT: string := "-1"

  /** `convergency_layer_agents()`: the closed list of registry names, one
      per kind of agent, in the order dummy, mtcp, http. Computing it builds
      no agent. */
  function ConvergencyLayerAgents(): (names: seq<string>)
    ensures names == [RegistryName(Dummy), RegistryName(Mtcp(None)), RegistryName(Http(None))]
    ensures forall i, j :: 0 <= i < j < |names| ==> names[i] != names[j]
    ensures forall a: Agent :: RegistryName(a) in names
  {
    ["dummy", "mtcp", "http"]
  }

  /** The registry name that selects each kind of agent. */
  function RegistryName(a: Agent): string
  {
    match a
    case Dummy => "dummy"
    case Mtcp(_) => "mtcp"
    case Http(_) => "http"
  }

  /** Component 0 of the selector split on ':'. */
  function AgentName(selector: string): string
  {
    Split(selector, SELECTOR_SEPARATOR)[0]
  }

  /** Component 1 of the selector parsed as a `u16`, or the parse of "-1" when
      there is no component 1; any parse failure becomes None. */
  function SelectorPort(selector: string): Option<u16>
  {
    var parts := Split(selector, SELECTOR_SEPARATOR);
    ParseU16(if |parts| > 1 then parts[1] else MISSING_PORT)
  }

  /** `new(cla_str)`: construct the agent the selector names. An unknown name
      is the source's panic, returned here as `Failure` carrying that name. */
  function New(selector: string): (r: Result<Agent, string>)
    ensures r.Failure? <==> AgentName(selector) !in ConvergencyLayerAgents()
    ensures r.Failure? ==> r.error == AgentName(selector)
    ensures r.Success? ==> RegistryName(r.value) == AgentName(selector)
    ensures r.Success? && !r.value.Dummy? ==> r.value.port == SelectorPort(selector)
  {
    var port := SelectorPort(selector);
    match AgentName(selector)
    case "dummy" => Success(Dummy)
    case "mtcp" => Success(Mtcp(port))
    case "http" => Success(Http(port))
    case name => Failure(name)
  }

  /** The agent name is the text before the first ':', or the whole selector
      when it has none. */
  lemma NameBeforeFirstColon(selector: string, k: nat)
    requires k <= |selector| && SELECTOR_SEPARATOR !in selector[..k]
    requires k == |selector| || selector[k] == SELECTOR_SEPARATOR
    ensures AgentName(selector) == selector[..k]
  {
    FirstPart(selector, SELECTOR_SEPARATOR, k);
  }

  /** A selector without ':' is all name and has no port, because the
      stand-in "-1" never parses as a `u16`. */
  lemma NoColonNoPort(selector: string)
    requires SELECTOR_SEPARATOR !in selector
    ensures AgentName(selector) == selector
    ensures SelectorPort(selector) == None
  {
    SplitJoin([selector], SELECTOR_SEPARATOR);
    ParseRejectsMinus(MISSING_PORT);
  }

  /** For "<name>:<port>[:<more>...]", the name is component 0, the port is
      the parse of component 1, and every later component is ignored. */
  lemma SelectorComponents(name: string, port: string, more: seq<string>)
    requires SELECTOR_SEPARATOR !in name && SELECTOR_SEPARATOR !in port
    requires forall i :: 0 <= i < |more| ==> SELECTOR_SEPARATOR !in more[i]
    ensures AgentName(Join([name, port] + more, SELECTOR_SEPARATOR)) == name
    ensures SelectorPort(Join([name, port] + more, SELECTOR_SEPARATOR)) == ParseU16(port)
  {
    var parts := [name, port] + more;
    assert forall i :: 0 <= i < |parts| ==> SELECTOR_SEPARATOR !in parts[i] by {
      forall i | 0 <= i < |parts|
        ensures SELECTOR_SEPARATOR !in parts[i]
      {
        if i >= 2 {
          assert parts[i] == more[i - 2];
        }
      }
    }
    SplitJoin(parts, SELECTOR_SEPARATOR);
    SelectorFromParts(Join(parts, SELECTOR_SEPARATOR), parts);
  }

  /** Name and port read off the parts of a selector. */
  lemma SelectorFromParts(selector: string, parts: seq<string>)
    requires Split(selector, SELECTOR_SEPARATOR) == parts
    ensures AgentName(selector) == parts[0]
    ensures SelectorPort(selector) == ParseU16(if |parts| > 1 then parts[1] else MISSING_PORT)
  {
  }

  /** "<name>:<port>" with one ':' has that name and the parse of that port text. */
  lemma NameAndPortText(name: string, port: string)
    requires SELECTOR_SEPARATOR !in name && SELECTOR_SEPARATOR !in port
    ensures AgentName(name + [SELECTOR_SEPARATOR] + port) == name
    ensures SelectorPort(name + [SELECTOR_SEPARATOR] + port) == ParseU16(port)
  {
    SelectorComponents(name, port, []);
    assert [name, port] + [] == [name, port];
  }

  /** Every listed name constructs an agent reporting that name, and every
      other name panics: there is no fallback agent. */
  lemma RegistryIsExactlyTheList(name: string)
    requires SELECTOR_SEPARATOR !in name
    ensures New(name).Success? <==> name in ConvergencyLayerAgents()
    ensures New(name).Success? ==> RegistryName(New(name).value) == name
  {
    NoColonNoPort(name);
  }

  /** A selector naming a known agent with a decimal port: "dummy" ignores
      the port, "mtcp" and "http" keep exactly that port. */
  lemma KnownSelectorWithPort(name: string, p: u16)
    requires name in ConvergencyLayerAgents()
    ensures New(name + ":" + DecimalString(p)) ==
              if name == "dummy" then Success(Dummy)
              else if name == "mtcp" then Success(Mtcp(Some(p)))
              else Success(Http(Some(p)))
  {
    var digits := DecimalString(p);
    assert SELECTOR_SEPARATOR !in digits by {
      assert forall i :: 0 <= i < |digits| ==> IsDigit(digits[i]);
    }
    NameAndPortText(name, digits);
    ParseDecimal(p);
  }

  /** A selector that is just a known name: "mtcp" and "http" get no port. */
  lemma KnownSelectorWithoutPort(name: string)
    requires name in ConvergencyLayerAgents()
    ensures New(name) ==
              if name == "dummy" then Success(Dummy)
              else if name == "mtcp" then Success(Mtcp(None))
              else Success(Http(None))
  {
    NoColonNoPort(name);
  }

  /** Names are matched case-sensitively: a different capitalisation of a
      known name panics, with or without a port. */
  lemma CaseSensitive()
    ensures New("MTCP").Failure?
    ensures New("Dummy:80").Failure?
  {
    assert "MTCP" !in ConvergencyLayerAgents() by {
      assert "MTCP"[0] != "mtcp"[0] && "MTCP"[0] != "http"[0] && |"MTCP"| != |"dummy"|;
    }
    RegistryIsExactlyTheList("MTCP");
    assert "Dummy" !in ConvergencyLayerAgents() by {
      assert "Dummy"[0] != "dummy"[0] && |"Dummy"| != |"mtcp"| && |"Dummy"| != |"http"|;
    }
    NameAndPortText("Dummy", "80");
    assert "Dummy" + [SELECTOR_SEPARATOR] + "80" == "Dummy:80";
  }

  /** The agent a known name builds from "<name>:<text>": the port is
      whatever `u16` parsing makes of the text, None when it fails. */
  lemma KnownSelectorWithPortText(name: string, text: string)
    requires name in ConvergencyLayerAgents() && SELECTOR_SEPARATOR !in text
    ensures New(name + [SELECTOR_SEPARATOR] + text) ==
              if name == "dummy" then Success(Dummy)
              else if name == "mtcp" then Success(Mtcp(ParseU16(text)))
              else Success(Http(ParseU16(text)))
  {
    NameAndPortText(name, text);
  }

  /** An empty or negative port gives None instead of an error. */
  lemma InvalidPortIsNone()
    ensures New("mtcp:") == Success(Mtcp(None))
    ensures New("http:-1") == Success(Http(None))
  {
    KnownSelectorWithPortText("mtcp", "");
    assert "mtcp" + [SELECTOR_SEPARATOR] + "" == "mtcp:";
    KnownSelectorWithPortText("http", "-1");
    assert "http" + [SELECTOR_SEPARATOR] + "-1" == "http:-1";
    ParseRejectsMinus("-1");
  }

  /** A port above 65535 gives None instead of an error. */
  lemma OverflowingPortIsNone(name: string, n: nat)
    requires name in ConvergencyLayerAgents() && n > U16_MAX
    ensures New(name + ":" + DecimalString(n)).Success?
    ensures SelectorPort(name + ":" + DecimalString(n)) == None
  {
    var digits := DecimalString(n);
    assert SELECTOR_SEPARATOR !in digits by {
      assert forall i :: 0 <= i < |digits| ==> IsDigit(digits[i]);
    }
    NameAndPortText(name, digits);
    ParseRejectsOverflow(n);
  }

  /** The destination `transfer` hands to the agent: the remote alone, or
      "<remote>:<port>" in decimal. IPv6 remotes are not bracketed. */
  function Destination(remote: string, port: Option<u16>): (dest: string)
    ensures |dest| >= |remote| && dest[..|remote|] == remote
    ensures |dest| == |remote| <==> port.None?
    ensures port.Some? ==>
              dest[|remote|] == SELECTOR_SEPARATOR &&
              AllDigits(dest[|remote| + 1..]) &&
              ParseU16(dest[|remote| + 1..]) == port
  {
    if port.Some? then
      ParseDecimal(port.value);
      var dest := remote + [SELECTOR_SEPARATOR] + DecimalString(port.value);
      assert dest[|remote| + 1..] == DecimalString(port.value);
      dest
    else remote
  }

  /** When the remote contains no ':' (an IPv4 address), the destination
      splits back into exactly the remote and the port. */
  lemma DestinationRoundTrip(remote: string, port: Option<u16>)
    requires SELECTOR_SEPARATOR !in remote
    ensures var parts := Split(Destination(remote, port), SELECTOR_SEPARATOR);
            parts[0] == remote
            && (port.None? <==> |parts| == 1)
            && (port.Some? ==> |parts| == 2 && ParseU16(parts[1]) == port)
  {
    if port.Some? {
      var digits := DecimalString(port.value);
      assert SELECTOR_SEPARATOR !in digits by {
        assert forall i :: 0 <= i < |digits| ==> IsDigit(digits[i]);
      }
      SplitJoin([remote, digits], SELECTOR_SEPARATOR);
      ParseDecimal(port.value);
    } else {
      SplitJoin([remote], SELECTOR_SEPARATOR);
    }
  }

  /** Because an IPv6 remote is not bracketed, different (remote, port)
      pairs can give the same destination text. */
  lemma DestinationAmbiguousForIpv6()
    ensures Destination("::1", Some(80)) == Destination("::1:80", None)
  {
    assert DecimalString(80) == "80";
  }

  /** The example destinations: "10.0.0.5" with no port and with port 16161. */
  lemma DestinationExamples()
    ensures Destination("10.0.0.5", None) == "10.0.0.5"
    ensures Destination("10.0.0.5", Some(16161)) == "10.0.0.5:16161"
  {
    assert DecimalString(16161) == "16161";
  }

  /** `ClaSender::transfer`: build a fresh agent from `agent` (the sender's
      own `port` plays no part in it), format the destination and return the
      agent's `scheduled_submission` verdict unchanged, once, with no retry.
      `submit` stands for `scheduled_submission`, whose network behaviour is
      not part of this model; a panic in `new` is returned as `Failure`. */
  function Transfer(sender: ClaSender, ready: seq<ByteBuffer>,
                    submit: (Agent, string, seq<ByteBuffer>) -> bool): (r: Result<bool, string>)
    ensures r.Failure? <==> AgentName(sender.agent) !in ConvergencyLayerAgents()
    ensures r.Success? ==> r.value == submit(New(sender.agent).value, Destination(sender.remote, sender.port), ready)
  {
    match New(sender.agent)
    case Failure(name) => Failure(name)
    case Success(agent) => Success(submit(agent, Destination(sender.remote, sender.port), ready))
  }
}
