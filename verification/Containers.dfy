/** internal/docker/labels.go and docker.go: the backend address a container gets, and dropping the
    services of a container that stopped. */
module Containers {
  import opened Wrappers
  import opened ConfigModel
  import opened Text
  import opened Compare
  import opened Diff
  import opened Filters

  function Digits(n: nat): (s: string)
    ensures s != "" && forall c | c in s :: '0' <= c <= '9'
  {
    var d := ['0' + (n % 10) as char];
    if n < 10 then d else Digits(n / 10) + d
  }

  /** The part of a container summary the backend address depends on. */
  datatype Container = Container(
    names: seq<string>,
    id: string,
    backendAddrLabel: string,
    portLabel: string,
    privatePorts: seq<nat>)

  datatype AddressError = MultiplePorts | Undetermined

  function ContainerAddress(c: Container): string {
    if |c.names| > 0 then TrimPrefix(c.names[0], "/")
    else if |c.id| > 12 then c.id[..12]
    else c.id
  }

  function ExposedPorts(ports: seq<nat>): seq<nat> {
    Filter((p: nat) => p != 0, ports)
  }

  /** The port of a container without a backend label: the label's, else the only exposed one. */
  function PortOf(c: Container): Result<string, AddressError> {
    var exposed := ExposedPorts(c.privatePorts);
    if c.portLabel != "" then Success(c.portLabel)
    else if |exposed| == 0 then Failure(Undetermined)
    else if |exposed| == 1 then Success(Digits(exposed[0]))
    else Failure(MultiplePorts)
  }

  /** The backend address parseServiceConfig arrives at, before it is validated. */
  function BackendAddress(c: Container): Result<string, AddressError> {
    if c.backendAddrLabel != "" then Success(c.backendAddrLabel)
    else match PortOf(c)
      case Failure(e) => Failure(e)
      case Success(port) => Success(ContainerAddress(c) + ":" + port)
  }

  /** The number a string of digits stands for. */
  function Number(s: string): int {
    if s == "" then 0 else Number(s[..|s| - 1]) * 10 + (s[|s| - 1] as int - '0' as int)
  }

  /** A port is printed in decimal, without leading zeros. */
  lemma {:induction false} DigitsPrint(n: nat)
    ensures Number(Digits(n)) == n
    ensures n > 0 ==> Digits(n)[0] != '0'
  {
    var s := Digits(n);
    if n >= 10 {
      DigitsPrint(n / 10);
      assert s[..|s| - 1] == Digits(n / 10);
    } else {
      assert s[..|s| - 1] == "";
    }
  }

  /** The container's address is its first name without the slash Docker puts before it, or the first
      twelve characters of its identifier. */
  lemma AddressOfContainer(c: Container)
    ensures c.names != [] ==> c.names[0] == ContainerAddress(c) || c.names[0] == "/" + ContainerAddress(c)
    ensures c.names != [] && "/" <= c.names[0] ==> c.names[0] == "/" + ContainerAddress(c)
    ensures c.names == [] ==>
      ContainerAddress(c) <= c.id && |ContainerAddress(c)| == if |c.id| < 12 then |c.id| else 12
  {
  }

  /** There is exactly one exposed port, and it is this one. */
  predicate OnlyPort(ports: seq<nat>, i: int) {
    0 <= i < |ports| && ports[i] != 0 && forall j | 0 <= j < |ports| && j != i :: ports[j] == 0
  }

  lemma {:induction false} NoPort(ports: seq<nat>)
    ensures ExposedPorts(ports) == [] <==> forall j | 0 <= j < |ports| :: ports[j] == 0
  {
    if ports != [] { NoPort(ports[..|ports| - 1]); }
  }

  lemma {:induction false} OnePort(ports: seq<nat>)
    ensures |ExposedPorts(ports)| == 1 <==> exists i :: OnlyPort(ports, i)
    ensures forall i | OnlyPort(ports, i) :: ExposedPorts(ports) == [ports[i]]
  {
    if ports != [] {
      var last := |ports| - 1;
      NoPort(ports[..last]);
      OnePort(ports[..last]);
      assert OnlyPort(ports, last) <==> ports[last] != 0 && ExposedPorts(ports[..last]) == [];
      forall i | 0 <= i < last ensures OnlyPort(ports, i) <==> ports[last] == 0 && OnlyPort(ports[..last], i) {
        assert forall j | 0 <= j < last :: ports[..last][j] == ports[j];
      }
      forall i | OnlyPort(ports, i) ensures ExposedPorts(ports) == [ports[i]] {
        if i < last {
          assert OnlyPort(ports[..last], i);
        } else {
          assert ExposedPorts(ports) == [] + [ports[last]];
        }
      }
    }
  }

  /** The backend address of a container: its label's if there is one; else its own address with the
      port of its port label or, without one, with its only exposed port, and an error when it exposes
      none or several. */
  lemma BackendOfContainer(c: Container)
    ensures
      var r := BackendAddress(c);
      && (c.backendAddrLabel != "" ==> r == Success(c.backendAddrLabel))
      && (c.backendAddrLabel == "" && c.portLabel != "" ==> r == Success(ContainerAddress(c) + ":" + c.portLabel))
      && (c.backendAddrLabel == c.portLabel == "" ==>
            && (forall i | OnlyPort(c.privatePorts, i) ::
                  r == Success(ContainerAddress(c) + ":" + Digits(c.privatePorts[i])))
            && (r == Failure(Undetermined) <==> forall j | 0 <= j < |c.privatePorts| :: c.privatePorts[j] == 0)
            && (r.Success? <==> exists i :: OnlyPort(c.privatePorts, i)))
  {
    NoPort(c.privatePorts);
    OnePort(c.privatePorts);
  }

  /** The host part of a backend address: everything before the last colon, unless that is the first
      character or there is none. */
  function HostPart(addr: string): string {
    if LastIndex(addr, ':') > 0 then addr[..LastIndex(addr, ':')] else addr
  }

  /** The host part undoes the printing of name and port exactly when the port has no colon. */
  lemma HostPartOfPrinted(name: string, port: string)
    requires name != ""
    ensures HostPart(name + ":" + port) == name <==> ':' !in port
  {
    var s := name + ":" + port;
    var i := LastIndex(s, ':');
    LastIndexIsLast(s, ':', |name|);
    assert s[..|name|] == name;
    assert i > |name| ==> s[i] == port[i - |name| - 1];
    if ':' in port {
      var k :| 0 <= k < |port| && port[k] == ':';
      LastIndexIsLast(s, ':', |name| + 1 + k);
    }
  }

  /** An address is its own host part exactly when it has no colon, or only one at its start. */
  lemma HostPartWhole(addr: string)
    ensures HostPart(addr) == addr <==> forall i | 0 < i < |addr| :: addr[i] != ':'
  {
    forall i | 0 < i < |addr| && addr[i] == ':' ensures LastIndex(addr, ':') >= i { LastIndexIsLast(addr, ':', i); }
  }

  /** A service is kept when its backend's host part is not the container's name. */
  function Keeps(containerName: string): Service -> bool {
    (s: Service) => HostPart(s.backendAddr) != containerName
  }

  function Pruned(c: Config, containerName: string): Config {
    if containerName == "" then c else c.(services := Filter(Keeps(containerName), c.services))
  }

  method RemoveServiceByContainerName(cfg: Option<Config>, containerName: string) returns (r: Option<Config>)
    ensures r == if cfg.None? then None else Some(Pruned(cfg.value, containerName))
  {
    if cfg.None? || containerName == "" {
      return cfg;
    }
    var ss := cfg.value.services;
    ghost var keeps := Keeps(containerName);
    var kept := [];
    for i := 0 to |ss|
      invariant kept == Filter(keeps, ss[..i])
    {
      FilterStep(keeps, ss, i);
      var hostPort := ss[i].backendAddr;
      var hostname := hostPort;
      var idx := LastIndex(hostPort, ':');
      if idx > 0 {
        hostname := hostPort[..idx];
      }
      if hostname != containerName {
        kept := kept + [ss[i]];
      }
    }
    assert ss[..|ss|] == ss;
    return Some(Config(cfg.value.tailscale, cfg.value.global, kept));
  }

  /** A stop event removes the service of its own container: its backend, printed from the
      container's name, is not kept, exactly when the port has no colon. */
  lemma StopRemovesOwnService(c: Container, s: Service)
    requires c.backendAddrLabel == "" && |c.names| > 0 && TrimPrefix(c.names[0], "/") != ""
    requires BackendAddress(c) == Success(s.backendAddr)
    ensures !Keeps(TrimPrefix(c.names[0], "/"))(s) <==> ':' !in PortOf(c).value
    ensures c.portLabel == "" ==> !Keeps(TrimPrefix(c.names[0], "/"))(s)
  {
    HostPartOfPrinted(TrimPrefix(c.names[0], "/"), PortOf(c).value);
  }

  /** A unix socket backend whose path has no colon has the host part "unix", and only such a one: a
      container of that name takes it along. */
  lemma UnixBackendsShareAHost(path: string, s: Service)
    requires s.backendAddr == "unix://" + path
    ensures !Keeps("unix")(s) <==> ':' !in path
  {
    assert s.backendAddr == "unix" + ":" + ("//" + path);
    HostPartOfPrinted("unix", "//" + path);
    assert forall i | 0 <= i < |path| :: ("//" + path)[i + 2] == path[i];
  }

  /** Survivors, in order, are exactly the services with another host part; everything else of the
      configuration is kept, and so are the guarantees about names. */
  lemma PrunedContents(c: Config, name: string)
    requires name != ""
    ensures var p := Pruned(c, name);
      && (forall s :: s in p.services <==> s in c.services && HostPart(s.backendAddr) != name)
      && p.global == c.global && p.tailscale == c.tailscale
      && (|p.services| == |c.services| <==> p == c)
      && (UniqueNames(c.services) ==> UniqueNames(p.services))
      && (NonEmptyNames(c.services) ==> NonEmptyNames(p.services))
    ensures Pruned(c, "") == c
  {
    FilterContents(Keeps(name), c.services);
    if UniqueNames(c.services) { SelectedUnique(Keeps(name), c.services); }
    if NonEmptyNames(c.services) {
      var f := Filter(Keeps(name), c.services);
      forall i | 0 <= i < |f| ensures f[i].name != "" { FilterMember(Keeps(name), c.services, f[i]); }
    }
  }

  /** Configurations that compare equal still do after pruning, although the lists may be in different
      order. */
  lemma PrunedAlike(a: Config, b: Config, name: string)
    requires UniqueNames(a.services) && UniqueNames(b.services) && ConfigEqual(Some(a), Some(b))
    ensures ConfigEqual(Some(Pruned(a, name)), Some(Pruned(b, name)))
  {
    if name != "" {
      var p, q := Filter(Keeps(name), a.services), Filter(Keeps(name), b.services);
      SelectedUnique(Keeps(name), a.services);
      SelectedUnique(Keeps(name), b.services);
      ServicesEqualIffSameDesired(a.services, b.services);
      forall n
        ensures n in ByName(p) <==> n in ByName(q)
        ensures n in ByName(q) ==> ServiceConfigEqual(ByName(p)[n], ByName(q)[n])
      {
        PrunedEntryAlike(a.services, b.services, name, n);
      }
      SameDesiredFromEntries(p, q);
      ServicesEqualIffSameDesired(p, q);
    }
  }

  lemma PrunedEntryAlike(a: seq<Service>, b: seq<Service>, name: string, n: string)
    requires UniqueNames(a) && UniqueNames(b) && Desired(a) == Desired(b)
    ensures
      var p, q := Get(ByName(Filter(Keeps(name), a)), n), Get(ByName(Filter(Keeps(name), b)), n);
      (p.Some? <==> q.Some?) && (p.Some? ==> ServiceConfigEqual(p.value, q.value))
  {
    SelectedEntry(Keeps(name), a, n);
    SelectedEntry(Keeps(name), b, n);
    SameDesiredEntry(a, b, n);
  }

  lemma PrunedTwice(c: Config, name: string)
    ensures Pruned(Pruned(c, name), name) == Pruned(c, name)
  {
    FilterContents(Keeps(name), c.services);
    FilterContents(Keeps(name), Filter(Keeps(name), c.services));
  }

  /** Two containers that stop can be handled in either order. */
  lemma PrunedCommutes(c: Config, m: string, n: string)
    ensures Pruned(Pruned(c, m), n) == Pruned(Pruned(c, n), m)
  {
    FilterFilter(Keeps(m), Keeps(n), c.services);
    FilterFilter(Keeps(n), Keeps(m), c.services);
    FilterCongruence(Both(Keeps(m), Keeps(n)), Both(Keeps(n), Keeps(m)), c.services);
  }
}
