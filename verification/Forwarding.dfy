/** internal/proxy/proxy.go: the X-Forwarded-For chain and X-Real-IP of a forwarded request. */
module Forwarding {
  import opened Wrappers
  import opened Text

  type Header = map<string, seq<string>>

  // Header names in Go's canonical form.
  const X_FORWARDED_FOR := "X-Forwarded-For"
  const X_REAL_IP := "X-Real-Ip"

  /** One proxy handler. Each trusted network is the set of addresses it contains; `parses` is
      net.ParseIP. */
  datatype Handler = Handler(
    trustedProxies: seq<string -> bool>,
    parses: string -> bool,
    removeUpstream: seq<string>,
    upstreamHeaders: map<string, string>)

  /** The inbound request: `peer` is the host of the remote address, None when it does not split into
      host and port; `funnel` is the source address of a Funnel connection. */
  datatype Inbound = Inbound(header: Header, peer: Option<string>, funnel: Option<string>)

  /** http.Header.Get: the first value, empty when there is none. */
  function First(h: Header, key: string): string {
    if key in h && |h[key]| > 0 then h[key][0] else ""
  }

  function Values(h: Header, key: string): seq<string> {
    if key in h then h[key] else []
  }

  function ClientIP(r: Inbound): string {
    if r.peer.Some? then r.peer.value else ""
  }

  ghost predicate Trusts(h: Handler, ip: string) {
    h.parses(ip) && exists i :: 0 <= i < |h.trustedProxies| && h.trustedProxies[i](ip)
  }

  method IsTrustedProxy(h: Handler, ip: string) returns (trusted: bool)
    ensures trusted <==> Trusts(h, ip)
  {
    if |h.trustedProxies| == 0 {
      return false;
    }
    if !h.parses(ip) {
      return false;
    }
    for i := 0 to |h.trustedProxies|
      invariant forall j | 0 <= j < i :: !h.trustedProxies[j](ip)
    {
      if h.trustedProxies[i](ip) {
        return true;
      }
    }
    return false;
  }

  /** The forwarded-for values the outgoing request starts from. */
  ghost function Prior(h: Handler, r: Inbound): seq<string> {
    if r.funnel.Some? then [r.funnel.value]
    else if Trusts(h, ClientIP(r)) then Values(r.header, X_FORWARDED_FOR)
    else []
  }

  /** The outgoing X-Forwarded-For, None when the remote address is unusable. */
  ghost function Forwarded(h: Handler, r: Inbound): Option<string> {
    if r.peer.None? then None else Some(Join(Prior(h, r) + [r.peer.value], ", "))
  }

  /** The outgoing X-Real-IP, None when the rewrite does not set it. */
  ghost function RealIP(h: Handler, r: Inbound): Option<string> {
    if r.funnel.Some? then r.funnel
    else if Trusts(h, ClientIP(r)) && First(r.header, X_FORWARDED_FOR) != "" then
      Some(TrimSpace(Split(First(r.header, X_FORWARDED_FOR), ',')[0]))
    else if ClientIP(r) != "" then Some(ClientIP(r))
    else None
  }

  function SetOrKeep(h: Header, key: string, value: Option<string>): Header {
    if value.Some? then h[key := [value.value]] else h
  }

  /** The configured removals and additions, which come last. */
  function Customized(h: Handler, header: Header): Header {
    (header - (set k | k in h.removeUpstream)) + map k | k in h.upstreamHeaders :: [h.upstreamHeaders[k]]
  }

  /** The header that leaves the proxy when the rewrite starts from `base`. */
  ghost function Outbound(h: Handler, r: Inbound, base: Header): Header {
    Customized(h, SetOrKeep(SetOrKeep(base, X_FORWARDED_FOR, Forwarded(h, r)), X_REAL_IP, RealIP(h, r)))
  }

  /** The header of an outgoing request. */
  class Outgoing {
    var header: Header

    constructor (header: Header)
      ensures this.header == header
    {
      this.header := header;
    }

    method Set(key: string, value: string)
      modifies this
      ensures header == old(header)[key := [value]]
    {
      header := header[key := [value]];
    }

    method Del(key: string)
      modifies this
      ensures header == old(header) - {key}
    {
      header := header - {key};
    }

    /** SetXForwarded of net/http/httputil, as far as X-Forwarded-For goes. */
    method SetXForwarded(r: Inbound)
      modifies this
      ensures header == if r.peer.None? then old(header) - {X_FORWARDED_FOR}
        else old(header)[X_FORWARDED_FOR := [Join(Values(old(header), X_FORWARDED_FOR) + [r.peer.value], ", ")]]
    {
      if r.peer.Some? {
        var clientIP := r.peer.value;
        var prior := Values(header, X_FORWARDED_FOR);
        if |prior| > 0 {
          JoinAppend(prior, clientIP, ", ");
          clientIP := Join(prior, ", ") + ", " + clientIP;
        } else {
          assert prior + [clientIP] == [clientIP];
        }
        Set(X_FORWARDED_FOR, clientIP);
      } else {
        Del(X_FORWARDED_FOR);
      }
    }

    /** The rewrite. httputil has already stripped the forwarding headers from the outgoing copy. */
    method Rewrite(h: Handler, r: Inbound)
      requires X_FORWARDED_FOR !in header
      modifies this
      ensures header == Outbound(h, r, old(header))
    {
      var clientIP := ClientIP(r);
      var fromTrustedProxy := IsTrustedProxy(h, clientIP);
      if r.funnel.Some? {
        Set(X_FORWARDED_FOR, r.funnel.value);
        fromTrustedProxy := true;
      } else if fromTrustedProxy {
        var xff := Values(r.header, X_FORWARDED_FOR);
        if |xff| > 0 {
          header := header[X_FORWARDED_FOR := xff];
        }
      }
      SetXForwarded(r);
      assert header == SetOrKeep(old(header), X_FORWARDED_FOR, Forwarded(h, r));
      SetRealIP(r, clientIP, fromTrustedProxy);
      Customize(h);
    }

    method SetRealIP(r: Inbound, clientIP: string, fromTrustedProxy: bool)
      modifies this
      ensures header == SetOrKeep(old(header), X_REAL_IP,
        if r.funnel.Some? then r.funnel
        else if fromTrustedProxy && First(r.header, X_FORWARDED_FOR) != "" then
          Some(TrimSpace(Split(First(r.header, X_FORWARDED_FOR), ',')[0]))
        else if clientIP != "" then Some(clientIP) else None)
    {
      if r.funnel.Some? {
        Set(X_REAL_IP, r.funnel.value);
      } else if fromTrustedProxy {
        var existingXFF := First(r.header, X_FORWARDED_FOR);
        if existingXFF != "" {
          var ips := Split(existingXFF, ',');
          if |ips| > 0 {
            Set(X_REAL_IP, TrimSpace(ips[0]));
          }
        } else if clientIP != "" {
          Set(X_REAL_IP, clientIP);
        }
      } else if clientIP != "" {
        Set(X_REAL_IP, clientIP);
      }
    }

    method RemoveHeaders(names: seq<string>)
      modifies this
      ensures header == old(header) - set k | k in names
    {
      for i := 0 to |names|
        invariant header == old(header) - set k | k in names[..i]
      {
        Del(names[i]);
      }
      assert names[..|names|] == names;
    }

    method AddHeaders(added: map<string, string>)
      modifies this
      ensures header == old(header) + map k | k in added :: [added[k]]
    {
      var keys := added.Keys;
      while keys != {}
        invariant keys <= added.Keys
        invariant header == old(header) + map k | k in added && k !in keys :: [added[k]]
        decreases keys
      {
        var key :| key in keys;
        Set(key, added[key]);
        keys := keys - {key};
      }
    }

    method Customize(h: Handler)
      modifies this
      ensures header == Customized(h, old(header))
    {
      RemoveHeaders(h.removeUpstream);
      AddHeaders(h.upstreamHeaders);
    }
  }

  // ---------------------------------------------------------------- chains

  function TrimAll(parts: seq<string>): (r: seq<string>)
    ensures |r| == |parts| && forall i | 0 <= i < |r| :: r[i] == TrimSpace(parts[i])
  {
    seq(|parts|, i requires 0 <= i < |parts| => TrimSpace(parts[i]))
  }

  /** The addresses a header value lists. */
  function Entries(value: string): seq<string> {
    TrimAll(Split(value, ','))
  }

  /** The addresses listed by all values of a header. */
  function Chain(values: seq<string>): seq<string> {
    if values == [] then [] else Chain(values[..|values| - 1]) + Entries(values[|values| - 1])
  }

  lemma ChainOfOne(value: string)
    ensures Chain([value]) == Entries(value)
  {
    var values := [value];
    assert values[..|values| - 1] == [];
    assert Chain(values) == Chain([]) + Entries(value);
  }

  lemma {:induction false} SplitSpaced(b: string)
    ensures Split(" " + b, ',') == [" " + Split(b, ',')[0]] + Split(b, ',')[1..]
  {
    assert (" " + b)[1..] == b;
  }

  lemma TrimSpaced(s: string)
    ensures TrimSpace(" " + s) == TrimSpace(s)
  {
    assert (" " + s)[1..] == s;
  }

  lemma CommaSpace(a: string, b: string)
    ensures a + ", " + b == a + [','] + (" " + b)
  {
    assert ", " == [','] + " ";
  }

  lemma TrimAllConcat(xs: seq<string>, ys: seq<string>)
    ensures TrimAll(xs + ys) == TrimAll(xs) + TrimAll(ys)
  {
  }

  lemma TrimAllSpaced(parts: seq<string>)
    requires parts != []
    ensures TrimAll([" " + parts[0]] + parts[1..]) == TrimAll(parts)
  {
    TrimSpaced(parts[0]);
  }

  lemma EntriesSpaced(a: string, b: string)
    ensures Entries(a + ", " + b) == Entries(a) + Entries(b)
  {
    var parts := Split(b, ',');
    CommaSpace(a, b);
    SplitConcat(a, " " + b, ',');
    SplitSpaced(b);
    TrimAllConcat(Split(a, ','), [" " + parts[0]] + parts[1..]);
    TrimAllSpaced(parts);
  }

  /** Joining values and splitting the result again finds the same addresses. */
  lemma {:induction false} JoinedChain(values: seq<string>)
    requires values != []
    ensures Entries(Join(values, ", ")) == Chain(values)
  {
    var front, last := values[..|values| - 1], values[|values| - 1];
    if front == [] {
      assert values == [last];
    } else {
      JoinedChain(front);
      JoinAppend(front, last, ", ");
      assert front + [last] == values;
      EntriesSpaced(Join(front, ", "), last);
    }
  }

  /** An address as net prints it: no comma, no space around it. */
  predicate Address(s: string) {
    s != "" && ',' !in s && TrimSpace(s) == s
  }

  lemma ForwardedEntries(h: Handler, r: Inbound)
    requires r.peer.Some? && Address(r.peer.value)
    ensures Entries(Forwarded(h, r).value) == Chain(Prior(h, r)) + [r.peer.value]
  {
    var values := Prior(h, r) + [r.peer.value];
    JoinedChain(values);
    assert values[..|values| - 1] == Prior(h, r);
    SplitWithout(r.peer.value, ',');
  }

  lemma {:induction false} ChainStart(values: seq<string>)
    requires values != []
    ensures Chain(values) != [] && Chain(values)[0] == TrimSpace(Split(values[0], ',')[0])
  {
    if |values| > 1 { ChainStart(values[..|values| - 1]); }
  }

  /** At a hop that trusts its peer, X-Real-IP is the first address of the outgoing chain, unless the
      first inbound header line is blank. */
  lemma RealIPIsChainStart(h: Handler, r: Inbound)
    requires r.funnel.None? && r.peer.Some? && Address(r.peer.value) && Trusts(h, r.peer.value)
    ensures
      var values := Values(r.header, X_FORWARDED_FOR);
      RealIP(h, r) == Some(Entries(Forwarded(h, r).value)[0]) <==> values == [] || values[0] != ""
  {
    ForwardedEntries(h, r);
    var values := Values(r.header, X_FORWARDED_FOR);
    if values != [] { ChainStart(values); }
  }

  // ---------------------------------------------------------------- the header that is sent

  /** The header sent on for an inbound request: httputil strips the inbound X-Forwarded-For from the
      copy that the rewrite starts from. */
  ghost function Sends(h: Handler, r: Inbound): Header {
    Outbound(h, r, r.header - {X_FORWARDED_FOR})
  }

  /** Whether the handler is not configured to remove or override a header. */
  predicate LeavesAlone(h: Handler, key: string) {
    key !in h.removeUpstream && key !in h.upstreamHeaders
  }

  lemma CustomizedValues(h: Handler, header: Header, key: string)
    ensures Values(Customized(h, header), key) ==
      if key in h.upstreamHeaders then [h.upstreamHeaders[key]]
      else if key in h.removeUpstream then []
      else Values(header, key)
  {
  }

  /** The two headers as they are sent. */
  lemma SentValues(h: Handler, r: Inbound)
    ensures LeavesAlone(h, X_FORWARDED_FOR) ==>
      Values(Sends(h, r), X_FORWARDED_FOR) == if r.peer.Some? then [Forwarded(h, r).value] else []
    ensures LeavesAlone(h, X_REAL_IP) ==>
      Values(Sends(h, r), X_REAL_IP) == if RealIP(h, r).Some? then [RealIP(h, r).value] else Values(r.header, X_REAL_IP)
  {
    var base := r.header - {X_FORWARDED_FOR};
    var forwarded := SetOrKeep(base, X_FORWARDED_FOR, Forwarded(h, r));
    var full := SetOrKeep(forwarded, X_REAL_IP, RealIP(h, r));
    CustomizedValues(h, full, X_FORWARDED_FOR);
    CustomizedValues(h, full, X_REAL_IP);
    assert X_FORWARDED_FOR[2] != X_REAL_IP[2];
  }

  /** A customized header is sent as configured, whatever came in. */
  lemma CustomizedIsConstant(h: Handler, r: Inbound, r': Inbound, key: string)
    requires !LeavesAlone(h, key)
    ensures Values(Sends(h, r), key) == Values(Sends(h, r'), key)
  {
    var base := SetOrKeep(r.header - {X_FORWARDED_FOR}, X_FORWARDED_FOR, Forwarded(h, r));
    var base' := SetOrKeep(r'.header - {X_FORWARDED_FOR}, X_FORWARDED_FOR, Forwarded(h, r'));
    CustomizedValues(h, SetOrKeep(base, X_REAL_IP, RealIP(h, r)), key);
    CustomizedValues(h, SetOrKeep(base', X_REAL_IP, RealIP(h, r')), key);
  }

  /** Whether a header is sent the same whatever the inbound headers are. */
  ghost predicate Ignores(h: Handler, peer: Option<string>, funnel: Option<string>, key: string) {
    forall header, header' ::
      Values(Sends(h, Inbound(header, peer, funnel)), key) == Values(Sends(h, Inbound(header', peer, funnel)), key)
  }

  /** For a peer that is not trusted, and for a Funnel connection, the X-Forwarded-For that is sent is
      independent of the inbound headers. X-Real-IP is so exactly when there is an address to set it
      to, or the configuration removes or overrides it; otherwise the inbound one passes through. */
  lemma UntrustedHeadersDoNotCount(h: Handler, peer: Option<string>, funnel: Option<string>)
    requires funnel.Some? || !Trusts(h, if peer.Some? then peer.value else "")
    ensures Ignores(h, peer, funnel, X_FORWARDED_FOR)
    ensures Ignores(h, peer, funnel, X_REAL_IP) <==>
      funnel.Some? || (peer.Some? && peer.value != "") || !LeavesAlone(h, X_REAL_IP)
  {
    forall header, header'
      ensures Values(Sends(h, Inbound(header, peer, funnel)), X_FORWARDED_FOR)
        == Values(Sends(h, Inbound(header', peer, funnel)), X_FORWARDED_FOR)
      ensures funnel.Some? || (peer.Some? && peer.value != "") || !LeavesAlone(h, X_REAL_IP) ==>
        Values(Sends(h, Inbound(header, peer, funnel)), X_REAL_IP)
          == Values(Sends(h, Inbound(header', peer, funnel)), X_REAL_IP)
    {
      UntrustedPair(h, Inbound(header, peer, funnel), Inbound(header', peer, funnel));
    }
    if Ignores(h, peer, funnel, X_REAL_IP) && funnel.None? && LeavesAlone(h, X_REAL_IP) {
      var r, r' := Inbound(map[], peer, funnel), Inbound(map[X_REAL_IP := ["a"]], peer, funnel);
      SentValues(h, r);
      SentValues(h, r');
      assert Values(Sends(h, r), X_REAL_IP) == Values(Sends(h, r'), X_REAL_IP);
    }
  }

  lemma UntrustedPair(h: Handler, r: Inbound, r': Inbound)
    requires r.peer == r'.peer && r.funnel == r'.funnel
    requires r.funnel.Some? || !Trusts(h, ClientIP(r))
    ensures Values(Sends(h, r), X_FORWARDED_FOR) == Values(Sends(h, r'), X_FORWARDED_FOR)
    ensures r.funnel.Some? || ClientIP(r) != "" || !LeavesAlone(h, X_REAL_IP) ==>
      Values(Sends(h, r), X_REAL_IP) == Values(Sends(h, r'), X_REAL_IP)
  {
    SentValues(h, r);
    SentValues(h, r');
    if !LeavesAlone(h, X_FORWARDED_FOR) { CustomizedIsConstant(h, r, r', X_FORWARDED_FOR); }
    if !LeavesAlone(h, X_REAL_IP) { CustomizedIsConstant(h, r, r', X_REAL_IP); }
  }

  /** What an untrusted peer or a Funnel connection is forwarded as. */
  lemma UntrustedHeaders(h: Handler, r: Inbound)
    requires r.peer.Some?
    requires r.funnel.Some? || !Trusts(h, r.peer.value)
    ensures
      var chain := if r.funnel.Some? then r.funnel.value + ", " + r.peer.value else r.peer.value;
      LeavesAlone(h, X_FORWARDED_FOR) ==> Values(Sends(h, r), X_FORWARDED_FOR) == [chain]
    ensures
      var realIP :=
        if r.funnel.Some? then [r.funnel.value]
        else if r.peer.value != "" then [r.peer.value]
        else Values(r.header, X_REAL_IP);
      LeavesAlone(h, X_REAL_IP) ==> Values(Sends(h, r), X_REAL_IP) == realIP
  {
    SentValues(h, r);
    if r.funnel.Some? { JoinAppend([r.funnel.value], r.peer.value, ", "); }
    else { assert Prior(h, r) + [r.peer.value] == [r.peer.value]; }
  }

  /** A trusted peer hands on the inbound chain; X-Real-IP is the chain's first address, or the peer when
      there is no chain to speak of. */
  lemma TrustedHeaders(h: Handler, r: Inbound)
    requires r.peer.Some? && r.funnel.None? && Trusts(h, r.peer.value)
    ensures
      var chain := Join(Values(r.header, "X-Forwarded-For") + [r.peer.value], ", ");
      LeavesAlone(h, "X-Forwarded-For") ==> Values(Sends(h, r), "X-Forwarded-For") == [chain]
    ensures
      var inbound := Values(r.header, "X-Forwarded-For");
      var realIP :=
        if inbound != [] && inbound[0] != "" then [TrimSpace(Split(inbound[0], ',')[0])]
        else if r.peer.value != "" then [r.peer.value]
        else Values(r.header, "X-Real-Ip");
      LeavesAlone(h, "X-Real-Ip") ==> Values(Sends(h, r), "X-Real-Ip") == realIP
  {
    SentValues(h, r);
  }

  /** Without a peer address there is no chain, and X-Real-IP can only come from the connection's source,
      or from the inbound chain of a handler that trusts the empty address. */
  lemma NoPeerHeaders(h: Handler, r: Inbound)
    requires r.peer.None?
    ensures LeavesAlone(h, X_FORWARDED_FOR) ==> Values(Sends(h, r), X_FORWARDED_FOR) == []
    ensures LeavesAlone(h, X_REAL_IP) ==>
      (r.funnel.Some? ==> Values(Sends(h, r), X_REAL_IP) == [r.funnel.value])
      && (r.funnel.None? && !Trusts(h, "") ==> Values(Sends(h, r), X_REAL_IP) == Values(r.header, X_REAL_IP))
  {
    SentValues(h, r);
  }

  /** An overridden header is sent as configured and a removed one not at all; a header that is neither,
      nor one of the two the rewrite sets, is sent as it came. */
  lemma OtherHeaders(h: Handler, r: Inbound, key: string)
    ensures key in h.upstreamHeaders ==> Values(Sends(h, r), key) == [h.upstreamHeaders[key]]
    ensures key !in h.upstreamHeaders && key in h.removeUpstream ==> Values(Sends(h, r), key) == []
    ensures key !in h.upstreamHeaders && key !in h.removeUpstream && key != "X-Forwarded-For" && key != "X-Real-Ip" ==>
      Values(Sends(h, r), key) == Values(r.header, key)
  {
    var base := SetOrKeep(r.header - {X_FORWARDED_FOR}, X_FORWARDED_FOR, Forwarded(h, r));
    CustomizedValues(h, SetOrKeep(base, X_REAL_IP, RealIP(h, r)), key);
  }

  /** Trust is membership of a parsable address in one of the trusted networks. */
  lemma TrustIff(h: Handler, ip: string)
    ensures Trusts(h, ip) <==> h.parses(ip) && exists network | network in h.trustedProxies :: network(ip)
  {
    if h.parses(ip) && exists network | network in h.trustedProxies :: network(ip) {
      var network :| network in h.trustedProxies && network(ip);
      var i :| 0 <= i < |h.trustedProxies| && h.trustedProxies[i] == network;
    }
  }

  // ---------------------------------------------------------------- hops

  /** A request received from a peer that is not a Funnel node. */
  function Received(header: Header, peer: string): Inbound {
    Inbound(header, Some(peer), None)
  }

  /** The addresses a header's X-Forwarded-For lists. */
  function Listed(header: Header): seq<string> {
    Chain(Values(header, X_FORWARDED_FOR))
  }

  /** Whether the first X-Forwarded-For line, if there is one, is not blank. */
  predicate StartsClean(header: Header) {
    var values := Values(header, X_FORWARDED_FOR);
    values == [] || values[0] != ""
  }

  lemma HopAppends(h: Handler, header: Header, peer: string)
    requires Address(peer) && Trusts(h, peer) && LeavesAlone(h, X_FORWARDED_FOR)
    ensures Listed(Sends(h, Received(header, peer))) == Listed(header) + [peer]
  {
    var r := Received(header, peer);
    SentValues(h, r);
    ForwardedEntries(h, r);
    ChainOfOne(Forwarded(h, r).value);
  }

  /** One hop: a handler that trusts the peer appends the peer's address to every inbound chain
      exactly when it is not configured to remove or override X-Forwarded-For. */
  lemma HopAppendsIffLeftAlone(h: Handler, peer: string)
    requires Address(peer) && Trusts(h, peer)
    ensures (forall header :: Listed(Sends(h, Received(header, peer))) == Listed(header) + [peer])
      <==> LeavesAlone(h, X_FORWARDED_FOR)
  {
    if LeavesAlone(h, X_FORWARDED_FOR) {
      forall header ensures Listed(Sends(h, Received(header, peer))) == Listed(header) + [peer] {
        HopAppends(h, header, peer);
      }
    } else {
      var r, r' := Received(map[], peer), Received(OneLine("x"), peer);
      CustomizedIsConstant(h, r, r', X_FORWARDED_FOR);
      OneLineListed("x");
      assert Listed(Sends(h, r)) == Listed(Sends(h, r'));
    }
  }

  function OneLine(value: string): Header {
    map[X_FORWARDED_FOR := [value]]
  }

  lemma OneLineListed(value: string)
    requires Address(value)
    ensures Listed(OneLine(value)) == [value] && StartsClean(OneLine(value))
  {
    SplitWithout(value, ',');
    ChainOfOne(value);
    assert Entries(value) == [value];
  }

  lemma HopSetsRealIP(h: Handler, header: Header, peer: string)
    requires Address(peer) && Trusts(h, peer) && LeavesAlone(h, X_REAL_IP)
    ensures Values(Sends(h, Received(header, peer)), X_REAL_IP) == [(Listed(header) + [peer])[0]]
      <==> StartsClean(header)
  {
    var r := Received(header, peer);
    SentValues(h, r);
    ForwardedEntries(h, r);
    RealIPIsChainStart(h, r);
  }

  lemma ConstantRealIPIsWrong(h: Handler, peer: string)
    requires Address(peer) && !LeavesAlone(h, X_REAL_IP)
    ensures exists header | StartsClean(header) ::
      Values(Sends(h, Received(header, peer)), X_REAL_IP) != [(Listed(header) + [peer])[0]]
  {
    var none, other := map[], OneLine(Another(peer));
    CustomizedIsConstant(h, Received(none, peer), Received(other, peer), X_REAL_IP);
    OneLineListed(Another(peer));
    assert StartsClean(none) && Listed(none) == [];
    assert StartsClean(other) && Listed(other) == [Another(peer)];
    var sent := Values(Sends(h, Received(none, peer)), X_REAL_IP);
    if sent == [(Listed(none) + [peer])[0]] {
      assert Values(Sends(h, Received(other, peer)), X_REAL_IP) != [(Listed(other) + [peer])[0]];
    }
  }

  /** An address other than the given one. */
  function Another(peer: string): (a: string)
    ensures Address(a) && a != peer
  {
    if peer == "x" then "y" else "x"
  }

  /** One hop: a handler that trusts the peer sends the first address of the chain as X-Real-IP, for
      every inbound header without a blank first line, exactly when it leaves X-Real-IP alone. */
  lemma HopSetsRealIPIffLeftAlone(h: Handler, peer: string)
    requires Address(peer) && Trusts(h, peer)
    ensures (forall header | StartsClean(header) ::
        Values(Sends(h, Received(header, peer)), X_REAL_IP) == [(Listed(header) + [peer])[0]])
      <==> LeavesAlone(h, X_REAL_IP)
  {
    if LeavesAlone(h, X_REAL_IP) {
      forall header | StartsClean(header)
        ensures Values(Sends(h, Received(header, peer)), X_REAL_IP) == [(Listed(header) + [peer])[0]]
      {
        HopSetsRealIP(h, header, peer);
      }
    } else {
      ConstantRealIPIsWrong(h, peer);
    }
  }

  /** A hop on the way: its handler, and the address of the peer it receives the request from. */
  datatype Hop = Hop(handler: Handler, peer: string)

  /** The header a request carries after the hops, each of which sends its own on to the next. */
  ghost function Travel(header: Header, hops: seq<Hop>): Header {
    if hops == [] then header
    else
      var hop := hops[|hops| - 1];
      Sends(hop.handler, Received(Travel(header, hops[..|hops| - 1]), hop.peer))
  }

  ghost predicate TrustedPath(hops: seq<Hop>) {
    forall i | 0 <= i < |hops| :: Address(hops[i].peer) && Trusts(hops[i].handler, hops[i].peer)
  }

  predicate Transparent(hops: seq<Hop>) {
    forall i | 0 <= i < |hops| :: LeavesAlone(hops[i].handler, X_FORWARDED_FOR)
  }

  function Peers(hops: seq<Hop>): (ps: seq<string>)
    ensures |ps| == |hops| && forall i | 0 <= i < |hops| :: ps[i] == hops[i].peer
  {
    seq(|hops|, i requires 0 <= i < |hops| => hops[i].peer)
  }

  lemma PeersAppend(original: seq<string>, hops: seq<Hop>)
    requires hops != []
    ensures original + Peers(hops) == original + Peers(hops[..|hops| - 1]) + [hops[|hops| - 1].peer]
  {
    assert Peers(hops) == Peers(hops[..|hops| - 1]) + [hops[|hops| - 1].peer];
  }

  lemma {:induction false} ChainGrows(header: Header, hops: seq<Hop>)
    requires TrustedPath(hops) && Transparent(hops)
    ensures Listed(Travel(header, hops)) == Listed(header) + Peers(hops)
  {
    if hops == [] {
      assert Listed(header) + Peers(hops) == Listed(header);
    } else {
      var front, hop := hops[..|hops| - 1], hops[|hops| - 1];
      ChainGrows(header, front);
      HopAppends(hop.handler, Travel(header, front), hop.peer);
      PeersAppend(Listed(header), hops);
    }
  }

  lemma ChainDecidesChain(h: Handler, r: Inbound, r': Inbound)
    requires r.peer == r'.peer && r.funnel == r'.funnel && LeavesAlone(h, X_FORWARDED_FOR)
    requires Values(r.header, X_FORWARDED_FOR) == Values(r'.header, X_FORWARDED_FOR)
    ensures Values(Sends(h, r), X_FORWARDED_FOR) == Values(Sends(h, r'), X_FORWARDED_FOR)
  {
    SentValues(h, r);
    SentValues(h, r');
  }

  /** One hop that removes or overrides the chain makes the rest of the way forget the original. */
  lemma {:induction false} ChainIsForgotten(header: Header, header': Header, hops: seq<Hop>)
    requires !Transparent(hops)
    ensures Values(Travel(header, hops), X_FORWARDED_FOR) == Values(Travel(header', hops), X_FORWARDED_FOR)
  {
    var front, hop := hops[..|hops| - 1], hops[|hops| - 1];
    var r, r' := Received(Travel(header, front), hop.peer), Received(Travel(header', front), hop.peer);
    if LeavesAlone(hop.handler, X_FORWARDED_FOR) {
      ChainIsForgotten(header, header', front);
      ChainDecidesChain(hop.handler, r, r');
    } else {
      CustomizedIsConstant(hop.handler, r, r', X_FORWARDED_FOR);
    }
  }

  lemma OriginalMatters(hops: seq<Hop>)
    requires !Transparent(hops)
    ensures exists header :: Listed(Travel(header, hops)) != Listed(header) + Peers(hops)
  {
    var none, one := map[], OneLine("x");
    ChainIsForgotten(none, one, hops);
    OneLineListed("x");
    assert |Listed(none)| == 0 && |Listed(one)| == 1;
    if Listed(Travel(none, hops)) == Listed(none) + Peers(hops) {
      assert |Listed(Travel(one, hops))| == |Peers(hops)|;
      assert Listed(Travel(one, hops)) != Listed(one) + Peers(hops);
    }
  }

  /** Over any number of hops that trust their peers, the chain that arrives is the original one
      followed by one peer address per hop, for every original, exactly when no hop is configured to
      remove or override X-Forwarded-For. */
  lemma ChainOverHops(hops: seq<Hop>)
    requires TrustedPath(hops)
    ensures (forall header :: Listed(Travel(header, hops)) == Listed(header) + Peers(hops)) <==> Transparent(hops)
  {
    if Transparent(hops) {
      forall header ensures Listed(Travel(header, hops)) == Listed(header) + Peers(hops) { ChainGrows(header, hops); }
    } else {
      OriginalMatters(hops);
    }
  }

  /** A hop that leaves the chain alone never sends a blank first line. */
  lemma SentStartsClean(h: Handler, r: Inbound)
    requires r.peer.Some? && Address(r.peer.value) && LeavesAlone(h, X_FORWARDED_FOR)
    ensures StartsClean(Sends(h, r))
  {
    SentValues(h, r);
    if Prior(h, r) == [] { assert Prior(h, r) + [r.peer.value] == [r.peer.value]; }
    else { JoinAppend(Prior(h, r), r.peer.value, ", "); }
  }

  lemma PrefixOfPath(hops: seq<Hop>, k: nat)
    requires TrustedPath(hops) && Transparent(hops) && k < |hops|
    ensures TrustedPath(hops[..k]) && Transparent(hops[..k])
    ensures Address(hops[k].peer) && Trusts(hops[k].handler, hops[k].peer)
  {
  }

  lemma PeersSplit(hops: seq<Hop>, k: nat)
    requires k < |hops|
    ensures Peers(hops) == Peers(hops[..k]) + [hops[k].peer] + Peers(hops)[k + 1..]
  {
  }

  lemma Reassociated(xs: seq<string>, ys: seq<string>, x: string, zs: seq<string>)
    ensures xs + (ys + [x] + zs) == xs + ys + [x] + zs
  {
  }

  /** The chain that leaves the k-th hop is a beginning of the chain that finally arrives. */
  lemma PrefixGrows(header: Header, hops: seq<Hop>, k: nat)
    requires TrustedPath(hops) && Transparent(hops) && k < |hops|
    ensures
      var sent := Listed(Travel(header, hops[..k])) + [hops[k].peer];
      Listed(Travel(header, hops)) == sent + Peers(hops)[k + 1..]
  {
    PrefixOfPath(hops, k);
    ChainGrows(header, hops[..k]);
    ChainGrows(header, hops);
    PeersSplit(hops, k);
    Reassociated(Listed(header), Peers(hops[..k]), hops[k].peer, Peers(hops)[k + 1..]);
  }

  lemma StartOfExtension(xs: seq<string>, x: string, ys: seq<string>)
    ensures (xs + [x] + ys)[0] == (xs + [x])[0]
  {
  }

  lemma LastHop(header: Header, hops: seq<Hop>, k: nat)
    requires k < |hops|
    ensures Travel(header, hops[..k + 1]) == Sends(hops[k].handler, Received(Travel(header, hops[..k]), hops[k].peer))
  {
    assert hops[..k + 1][..k] == hops[..k];
  }

  /** After at least one hop no blank line is left at the start. */
  lemma TravelStartsClean(header: Header, hops: seq<Hop>, k: nat)
    requires TrustedPath(hops) && Transparent(hops) && 0 < k <= |hops|
    ensures StartsClean(Travel(header, hops[..k]))
  {
    LastHop(header, hops, k - 1);
    SentStartsClean(hops[k - 1].handler, Received(Travel(header, hops[..k - 1]), hops[k - 1].peer));
  }

  /** At every hop of a transparent way that leaves X-Real-IP alone, the X-Real-IP it sends is the
      first address of the chain as it finally arrives, exactly unless it is the first hop and the
      original header starts with a blank line. */
  lemma RealIPOverHops(header: Header, hops: seq<Hop>, k: nat)
    requires TrustedPath(hops) && Transparent(hops) && k < |hops|
    requires LeavesAlone(hops[k].handler, X_REAL_IP)
    ensures Listed(Travel(header, hops)) != []
    ensures Values(Travel(header, hops[..k + 1]), X_REAL_IP) == [Listed(Travel(header, hops))[0]]
      <==> k > 0 || StartsClean(header)
  {
    var before := Travel(header, hops[..k]);
    LastHop(header, hops, k);
    PrefixGrows(header, hops, k);
    StartOfExtension(Listed(before), hops[k].peer, Peers(hops)[k + 1..]);
    PrefixOfPath(hops, k);
    HopSetsRealIP(hops[k].handler, before, hops[k].peer);
    if k == 0 { assert before == header; } else { TravelStartsClean(header, hops, k); }
  }
}
