/** The configuration records of internal/config/config.go, after decoding. A pointer field is an
    Option; a slice or map field whose nil value the code distinguishes is an Option too. */
module ConfigModel {
  import opened Wrappers

  /** Nanoseconds. */
  type Duration = int

  const SECOND: Duration := 1_000_000_000

  datatype Tailscale = Tailscale(
    oauthClientID: string,
    oauthClientIDEnv: string,
    oauthClientIDFile: string,
    oauthClientSecret: string,
    oauthClientSecretEnv: string,
    oauthClientSecretFile: string,
    authKey: string,
    authKeyEnv: string,
    authKeyFile: string,
    stateDir: string,
    stateDirEnv: string,
    defaultTags: Option<seq<string>>,
    controlURL: string,
    oauthPreauthorized: Option<bool>)

  datatype Global = Global(
    flushInterval: Option<Duration>,
    accessLog: Option<bool>,
    trustedProxies: seq<string>,
    metricsAddr: string,
    responseHeaderTimeout: Option<Duration>,
    shutdownTimeout: Option<Duration>,
    startupTimeout: Option<Duration>,
    writeTimeout: Option<Duration>,
    idleTimeout: Option<Duration>,
    readHeaderTimeout: Option<Duration>,
    maxRequestBodySize: Option<int>,
    dialTimeout: Option<Duration>,
    keepAliveTimeout: Option<Duration>,
    idleConnTimeout: Option<Duration>,
    tlsHandshakeTimeout: Option<Duration>,
    expectContinueTimeout: Option<Duration>,
    metricsReadHeaderTimeout: Option<Duration>)

  datatype Service = Service(
    name: string,
    backendAddr: string,
    listenAddr: string,
    whoisEnabled: Option<bool>,
    whoisTimeout: Option<Duration>,
    tlsMode: string,
    tags: Option<seq<string>>,
    startupTimeout: Option<Duration>,
    readHeaderTimeout: Option<Duration>,
    writeTimeout: Option<Duration>,
    idleTimeout: Option<Duration>,
    responseHeaderTimeout: Option<Duration>,
    accessLog: Option<bool>,
    maxRequestBodySize: Option<int>,
    funnelEnabled: Option<bool>,
    ephemeral: bool,
    oauthPreauthorized: Option<bool>,
    flushInterval: Option<Duration>,
    insecureSkipVerify: Option<bool>,
    upstreamHeaders: Option<map<string, string>>,
    downstreamHeaders: Option<map<string, string>>,
    removeUpstream: Option<seq<string>>,
    removeDownstream: Option<seq<string>>)

  datatype Config = Config(tailscale: Tailscale, global: Global, services: seq<Service>)

  const TLS_MODE_AUTO := "auto"
  const TLS_MODE_OFF := "off"

  /** A pointer to a boolean that is set and true. */
  predicate IsTrue(b: Option<bool>) {
    b == Some(true)
  }

  /** A pointer to a duration that is nil or not negative. */
  predicate NonNegative(d: Option<Duration>) {
    d.Some? ==> d.value >= 0
  }

  /** The names of a service list, in order. */
  function Names(ss: seq<Service>): (ns: seq<string>)
    ensures |ns| == |ss| && forall i | 0 <= i < |ss| :: ns[i] == ss[i].name
  {
    seq(|ss|, i requires 0 <= i < |ss| => ss[i].name)
  }

  predicate UniqueNames(ss: seq<Service>) {
    forall i, j | 0 <= i < j < |ss| :: ss[i].name != ss[j].name
  }

  predicate NonEmptyNames(ss: seq<Service>) {
    forall i | 0 <= i < |ss| :: ss[i].name != ""
  }

  /** The lookup table a loop builds by `m[svc.Name] = svc`: a later entry overwrites. */
  function ByName(ss: seq<Service>): map<string, Service> {
    if ss == [] then map[] else ByName(ss[..|ss| - 1])[ss[|ss| - 1].name := ss[|ss| - 1]]
  }

  /** Every entry of the table is an element of the list, filed under its own name; every name of
      the list has an entry. */
  lemma {:induction false} ByNameContents(ss: seq<Service>)
    ensures forall n | n in ByName(ss) :: ByName(ss)[n] in ss && ByName(ss)[n].name == n
    ensures forall s | s in ss :: s.name in ByName(ss)
    ensures forall n :: n in ByName(ss) <==> n in Names(ss)
  {
    if ss != [] {
      var front := ss[..|ss| - 1];
      ByNameContents(front);
      assert ss == front + [ss[|ss| - 1]];
      forall n ensures n in ByName(ss) <==> n in Names(ss) {
        if n in Names(ss) {
          var i :| 0 <= i < |ss| && Names(ss)[i] == n;
          assert ss[i] in ss;
        }
        if n in ByName(ss) {
          var i :| 0 <= i < |ss| && ss[i] == ByName(ss)[n];
          assert Names(ss)[i] == n;
        }
      }
    }
  }

  /** The entry of a name is the last one in the list. */
  lemma {:induction false} LastEntryWins(ss: seq<Service>, i: nat)
    requires i < |ss| && forall j | i < j < |ss| :: ss[j].name != ss[i].name
    ensures Get(ByName(ss), ss[i].name) == Some(ss[i])
  {
    if i < |ss| - 1 { LastEntryWins(ss[..|ss| - 1], i); }
  }

  /** With unique names the table holds each element of the list. */
  lemma {:induction false} ByNameUnique(ss: seq<Service>)
    requires UniqueNames(ss)
    ensures forall i | 0 <= i < |ss| :: Get(ByName(ss), ss[i].name) == Some(ss[i])
    ensures |ByName(ss)| == |ss|
  {
    if ss != [] {
      var front := ss[..|ss| - 1];
      var last := ss[|ss| - 1];
      ByNameUnique(front);
      ByNameContents(front);
      assert last.name !in Names(front);
    }
  }

  /** A table never has more entries than the list; it has as many only when names are unique. */
  lemma {:induction false} ByNameCounts(ss: seq<Service>)
    ensures |ByName(ss)| <= |ss|
    ensures |ByName(ss)| == |ss| ==> UniqueNames(ss)
  {
    if ss != [] {
      var front := ss[..|ss| - 1];
      var last := ss[|ss| - 1];
      ByNameCounts(front);
      ByNameContents(front);
      if |ByName(ss)| == |ss| {
        assert last.name !in ByName(front);
        forall i, j | 0 <= i < j < |ss| ensures ss[i].name != ss[j].name {
          if j == |ss| - 1 {
            assert Names(front)[i] == ss[i].name;
          } else {
            assert front[i].name != front[j].name;
          }
        }
      }
    }
  }

  lemma PermutedEntry(ss: seq<Service>, tt: seq<Service>, n: string)
    requires UniqueNames(ss) && forall s :: s in ss <==> s in tt
    ensures Get(ByName(ss), n) == Get(ByName(tt), n)
  {
    ByNameUnique(ss);
    ByNameContents(ss);
    ByNameContents(tt);
    if n in ByName(tt) {
      var s := ByName(tt)[n];
      assert s in ss;
      var i :| 0 <= i < |ss| && ss[i] == s;
    }
  }

  /** The table of a list with unique names does not depend on the order of the list. */
  lemma ByNamePermuted(ss: seq<Service>, tt: seq<Service>)
    requires UniqueNames(ss) && multiset(ss) == multiset(tt)
    ensures ByName(ss) == ByName(tt) && UniqueNames(tt)
  {
    assert |ss| == |multiset(ss)| == |multiset(tt)| == |tt|;
    forall s ensures s in ss <==> s in tt {
      assert s in ss <==> s in multiset(ss);
      assert s in tt <==> s in multiset(tt);
    }
    forall n ensures Get(ByName(ss), n) == Get(ByName(tt), n) {
      PermutedEntry(ss, tt, n);
    }
    SameEntries(ByName(ss), ByName(tt));
    ByNameUnique(ss);
    ByNameCounts(tt);
  }
}
