/** internal/service/service.go: the registry of running services, with the handler of
    internal/proxy/proxy.go and the collector of internal/metrics/metrics.go it drives. */
module Registry {
  import opened Wrappers
  import opened ConfigModel
  import opened Lifecycle
  import opened TailscaleServer

  /** The proxy handler of one service. Only its identity matters here; whether its Close ran is kept
      in the ghost sets of the registry that created it. */
  class HttpHandler {
    const serviceName: string
    const whois: Option<TsnetServer>  // the server its identity lookups ask, if they are enabled
    ghost const slot: string          // the registry key its service is filed under

    constructor (serviceName: string, whois: Option<TsnetServer>, ghost slot: string)
      ensures this.serviceName == serviceName && this.whois == whois && this.slot == slot
    {
      this.serviceName := serviceName;
      this.whois := whois;
      this.slot := slot;
    }
  }

  datatype OpKind = AddOp | RemoveOp | UpdateOp

  class Collector {
    var servicesActive: nat
    var serviceOperations: multiset<(OpKind, bool)>
    var configReloads: multiset<bool>

    constructor ()
      ensures servicesActive == 0 && serviceOperations == multiset{} && configReloads == multiset{}
    {
      servicesActive, serviceOperations, configReloads := 0, multiset{}, multiset{};
    }

    method RecordServiceOperation(kind: OpKind, success: bool)
      modifies this`serviceOperations
      ensures serviceOperations == old(serviceOperations) + multiset{(kind, success)}
    {
      serviceOperations := serviceOperations + multiset{(kind, success)};
    }

    method SetActiveServices(count: nat)
      modifies this`servicesActive
      ensures servicesActive == count
    {
      servicesActive := count;
    }

    method RecordConfigReload(success: bool)
      modifies this`configReloads
      ensures configReloads == old(configReloads) + multiset{success}
    {
      configReloads := configReloads + multiset{success};
    }
  }

  /** A running service. */
  class Instance {
    const config: Service
    const handler: HttpHandler

    constructor (config: Service, handler: HttpHandler)
      ensures this.config == config && this.handler == handler
    {
      this.config := config;
      this.handler := handler;
    }
  }

  /** What is registered under a name. Its HTTP server accepts connections until it is told to shut
      down; `silenced` holds the handlers of the servers that were. */
  ghost function EntryAt(m: map<string, Instance>, silenced: set<HttpHandler>, n: string): Option<Running> {
    if n in m then Some(Running(m[n].config, m[n].handler !in silenced)) else None
  }

  /** Whether the registered services are those of `running`. */
  ghost predicate Mirrors(m: map<string, Instance>, silenced: set<HttpHandler>, running: map<string, Running>) {
    forall n :: EntryAt(m, silenced, n) == Get(running, n)
  }

  /** From `m` to `m'` nothing happens to the services under other names. */
  ghost predicate OnlyTouches(m: map<string, Instance>, silenced: set<HttpHandler>,
                              m': map<string, Instance>, silenced': set<HttpHandler>, name: string) {
    forall n | n != name :: EntryAt(m', silenced', n) == EntryAt(m, silenced, n)
  }

  lemma MirrorsPut(m: map<string, Instance>, silenced: set<HttpHandler>, running: map<string, Running>,
                   m': map<string, Instance>, silenced': set<HttpHandler>, name: string)
    requires Mirrors(m, silenced, running) && OnlyTouches(m, silenced, m', silenced', name)
    ensures Mirrors(m', silenced', Put(running, name, EntryAt(m', silenced', name)))
  {
    forall n ensures EntryAt(m', silenced', n) == Get(Put(running, name, EntryAt(m', silenced', name)), n) {
      assert EntryAt(m, silenced, n) == Get(running, n);
    }
  }

  lemma MirrorsAdd(m: map<string, Instance>, silenced: set<HttpHandler>, running: map<string, Running>,
                   name: string, inst: Instance)
    requires Mirrors(m, silenced, running) && inst.handler !in silenced
    ensures Mirrors(m[name := inst], silenced, running[name := Running(inst.config, true)])
  {
    var m', running' := m[name := inst], running[name := Running(inst.config, true)];
    forall n ensures EntryAt(m', silenced, n) == Get(running', n) {
      assert EntryAt(m, silenced, n) == Get(running, n);
    }
  }

  /** Changing the entry of `name` and silencing handlers filed under `name` touches nothing else. */
  lemma TouchesOnly(m: map<string, Instance>, silenced: set<HttpHandler>,
                    m': map<string, Instance>, silenced': set<HttpHandler>, name: string)
    requires forall n | n in m :: m[n].handler.slot == n
    requires m' - {name} == m - {name}
    requires silenced <= silenced' && forall h | h in silenced' && h !in silenced :: h.slot == name
    ensures OnlyTouches(m, silenced, m', silenced', name)
  {
    forall n | n != name ensures EntryAt(m', silenced', n) == EntryAt(m, silenced, n) {
      assert n in m' <==> n in m' - {name};
      assert n in m <==> n in m - {name};
      if n in m { assert (m' - {name})[n] == (m - {name})[n]; }
    }
  }

  /** Whether the handler is the one registered under its slot. */
  ghost predicate Registered(m: map<string, Instance>, h: HttpHandler) {
    h.slot in m && m[h.slot].handler == h
  }

  /** With `m` registered: each service has its own open handler, and no other handler is open. */
  ghost predicate Sound(m: map<string, Instance>, handlers: set<HttpHandler>, closed: set<HttpHandler>) {
    && closed <= handlers
    && (forall n | n in m :: m[n].handler in handlers && m[n].handler !in closed && m[n].handler.slot == n)
    && (forall h | h in handlers && h !in closed :: Registered(m, h))
  }

  lemma SoundFiled(m: map<string, Instance>, handlers: set<HttpHandler>, closed: set<HttpHandler>,
                   slot: string, inst: Instance)
    requires Sound(m, handlers, closed) && slot !in m
    requires inst.handler !in handlers && inst.handler.slot == slot
    ensures Sound(m[slot := inst], handlers + {inst.handler}, closed)
  {
  }

  /** Whether the handler asks `server` for identities exactly when its service has lookups enabled. */
  predicate AsksFor(inst: Instance, server: TsnetServer) {
    inst.handler.whois == if IsTrue(inst.config.whoisEnabled) then Some(server) else None
  }

  /** Lookups are asked of the service's own server, and only when the setting is there and true. */
  lemma AsksIffEnabled(inst: Instance, server: TsnetServer)
    requires AsksFor(inst, server)
    ensures inst.config.whoisEnabled == Some(true) ==> inst.handler.whois == Some(server)
    ensures inst.config.whoisEnabled != Some(true) ==> inst.handler.whois == None
  {
  }

  ghost predicate WhoisCurrent(m: map<string, Instance>, servers: map<string, TsnetServer>) {
    forall n | n in m && n in servers :: AsksFor(m[n], servers[n])
  }

  /** What a restart under `name` with a configuration named `newName` does to the agreement of the two
      owners, when it dropped the old server and then filed, refused or freed the new name. */
  lemma RestartAgreement(before: map<string, Instance>, after: map<string, Instance>, servers: map<string, TsnetServer>,
                         servers': map<string, TsnetServer>, name: string, newName: string, ok: bool, admitted: bool)
    requires before.Keys == servers.Keys && name in before && WhoisCurrent(before, servers)
    requires after - {name} == before - {name} && (name in after <==> ok)
    requires ok ==> newName in servers' && AsksFor(after[name], servers'[newName])
    requires servers' ==
      if ok then (servers - {name})[newName := servers'[newName]]
      else if !admitted then servers - {name}
      else servers - {name} - {newName}
    ensures after.Keys == servers'.Keys <==> name == newName || (!ok && (newName !in before || !admitted))
    ensures after.Keys == servers'.Keys ==> WhoisCurrent(after, servers')
  {
    assert after.Keys == if ok then before.Keys else before.Keys - {name} by {
      forall n ensures n in after <==> n in before && (n == name ==> ok) {
        assert n != name ==> (n in after <==> n in after - {name}) && (n in before <==> n in before - {name});
      }
    }
    if after.Keys == servers'.Keys {
      forall n | n in after && n in servers' ensures AsksFor(after[n], servers'[n]) {
        if n != name {
          assert after[n] == (after - {name})[n] == (before - {name})[n] == before[n];
          assert servers'[n] == servers[n];
        }
      }
    }
  }

  class ServiceRegistry {
    const config: Config
    const tsServer: Server
    var services: map<string, Instance>
    var metricsCollector: Collector?

    ghost var handlers: set<HttpHandler>  // every handler ever created
    ghost var closed: set<HttpHandler>    // Close was called
    ghost var silenced: set<HttpHandler>  // the HTTP server of its service was told to shut down

    ghost predicate Valid()
      reads this, tsServer
    {
      tsServer.Valid() && Sound(services, handlers, closed) && silenced <= handlers
    }

    ghost function Entry(n: string): Option<Running>
      reads this
    {
      EntryAt(services, silenced, n)
    }

    /** The two owners agree: a name is registered exactly when it has a tsnet server, no tsnet server
        is open without a name, and identity lookups ask the service's own server. */
    ghost predicate Conserved()
      reads this, tsServer
    {
      && services.Keys == tsServer.serviceServers.Keys && tsServer.NoLeak()
      && WhoisCurrent(services, tsServer.serviceServers)
    }

    ghost predicate GaugeExact()
      reads this, metricsCollector
    {
      metricsCollector != null ==> metricsCollector.servicesActive == |services|
    }

    constructor (config: Config, tsServer: Server)
      requires tsServer.Valid() && tsServer.NoLeak() && tsServer.serviceServers == map[]
      ensures this.config == config && this.tsServer == tsServer
      ensures Valid() && Conserved() && GaugeExact() && services == map[]
      ensures handlers == closed == silenced == {} && metricsCollector == null
    {
      this.config := config;
      this.tsServer := tsServer;
      services := map[];
      metricsCollector := null;
      handlers, closed, silenced := {}, {}, {};
    }

    /** httpHandler.Close closes the metrics-stop channel, which panics the second time. */
    method CloseHandler(h: HttpHandler)
      requires h in handlers && h !in closed
      modifies this`closed
      ensures closed == old(closed) + {h}
    {
      closed := closed + {h};
    }

    /** http.Server's Shutdown stops accepting for good and then drains. */
    method ShutdownServer(inst: Instance, o: Outcome) returns (drained: bool)
      modifies this`silenced
      ensures drained == o.stops
      ensures silenced == old(silenced) + {inst.handler}
    {
      silenced := silenced + {inst.handler};
      drained := o.stops;
    }

    /** Service.Stop drains the server first; when that fails nothing is closed and Stop can be tried
        again, but the service no longer accepts connections. */
    method StopService(inst: Instance, o: Outcome) returns (failed: bool)
      requires inst.handler in handlers && inst.handler !in closed
      modifies this`closed, this`silenced
      ensures failed == !o.stops
      ensures closed == old(closed) + if failed then {} else {inst.handler}
      ensures silenced == old(silenced) + {inst.handler}
    {
      var drained := ShutdownServer(inst, o);
      if !drained {
        return true;
      }
      CloseHandler(inst.handler);
      return false;
    }

    /** CreateHandler, whose only way to fail is the proxy's construction. */
    method CreateHandler(svc: Service, o: Outcome, ghost slot: string) returns (h: HttpHandler?)
      ensures h != null <==> o.builds
      ensures h != null ==> (fresh(h) && h.serviceName == svc.name && h.slot == slot
        && h.whois == if IsTrue(svc.whoisEnabled) then Get(tsServer.serviceServers, svc.name) else None)
    {
      if !o.builds {
        return null;
      }
      var whois: Option<TsnetServer> := None;
      if IsTrue(svc.whoisEnabled) {
        whois := tsServer.GetServiceServer(svc.name);
      }
      h := new HttpHandler(svc.name, whois, slot);
    }

    /** startService: a new instance with a server and a handler of its own, or nothing kept open.
        The caller files the instance under `slot`. */
    method StartService(svc: Service, o: Outcome, ghost slot: string) returns (inst: Instance?)
      requires tsServer.Valid()
      modifies this`handlers, tsServer
      ensures tsServer.Valid()
      ensures inst == null ==> handlers == old(handlers)
      ensures inst != null ==>
        (handlers == old(handlers) + {inst.handler} && inst.handler !in old(handlers) && inst.handler.slot == slot)
      ensures inst != null <==> Starts(tsServer.config, svc, o)
      ensures inst != null ==> inst.config == svc
      ensures inst != null ==> svc.name in tsServer.serviceServers && AsksFor(inst, tsServer.serviceServers[svc.name])
      ensures tsServer.serviceServers ==
        if inst != null then old(tsServer.serviceServers)[svc.name := tsServer.serviceServers[svc.name]]
        else if !AuthReady(tsServer.config, svc, o) then old(tsServer.serviceServers)
        else old(tsServer.serviceServers) - {svc.name}
      ensures svc.name !in old(tsServer.serviceServers) || !AuthReady(tsServer.config, svc, o) ==>
        (old(tsServer.NoLeak()) ==> tsServer.NoLeak())
    {
      var err := tsServer.Listen(svc, svc.tlsMode, IsTrue(svc.funnelEnabled), o);
      if err.Some? {
        return null;
      }
      var handler := CreateHandler(svc, o, slot);
      if handler == null {
        tsServer.CloseService(svc.name);
        return null;
      }
      inst := new Instance(svc, handler);
      handlers := handlers + {handler};
    }

    /** The metrics of one finished operation; the gauge is set only where the code sets it. */
    method Report(kind: OpKind, success: bool, setGauge: bool)
      modifies metricsCollector
      ensures metricsCollector != null ==>
        (metricsCollector.serviceOperations == old(metricsCollector.serviceOperations) + multiset{(kind, success)}
        && metricsCollector.configReloads == old(metricsCollector.configReloads))
      ensures setGauge || old(GaugeExact()) ==> GaugeExact()
    {
      if metricsCollector != null {
        metricsCollector.RecordServiceOperation(kind, success);
        if setGauge {
          metricsCollector.SetActiveServices(|services|);
        }
      }
    }

    /** Starts a service and files it under its name, which must be free. */
    method Launch(svc: Service, o: Outcome) returns (ok: bool)
      requires Valid() && svc.name !in services
      modifies this`handlers, this`services, tsServer
      ensures Valid()
      ensures old(Conserved()) ==> Conserved()
      ensures ok == Starts(tsServer.config, svc, o)
      ensures ok ==> Entry(svc.name) == Some(Running(svc, true))
      ensures ok ==> services == old(services)[svc.name := services[svc.name]]
      ensures !ok ==> services == old(services)
    {
      var inst := StartService(svc, o, svc.name);
      if inst == null {
        return false;
      }
      SoundFiled(services, old(handlers), closed, svc.name, inst);
      services := services[svc.name := inst];
      return true;
    }

    method AddService(svc: Service, o: Outcome) returns (err: Option<OpError>)
      requires Valid() && GaugeExact()
      modifies this, tsServer, metricsCollector
      ensures svc.name in old(services) ==> err == Some(AlreadyExists) && services == old(services)
      ensures svc.name !in old(services) ==> err == if svc.name in services then None else Some(StartFailed)
      ensures Valid() && GaugeExact() && metricsCollector == old(metricsCollector)
      ensures old(Conserved()) ==> Conserved()
      ensures (Entry(svc.name), err) == OpResult(tsServer.config, Add(svc), old(Entry(svc.name)), o)
      ensures OnlyTouches(old(services), old(silenced), services, silenced, svc.name)
      ensures services - {svc.name} == old(services) - {svc.name}
      ensures metricsCollector != null ==> (metricsCollector.serviceOperations
        == old(metricsCollector.serviceOperations) + multiset{(AddOp, err.None?)}
        && metricsCollector.configReloads == old(metricsCollector.configReloads))
    {
      if svc.name in services {
        Report(AddOp, false, false);
        return Some(AlreadyExists);
      }
      var ok := Launch(svc, o);
      Report(AddOp, ok, ok);
      return if ok then None else Some(StartFailed);
    }

    /** Stops the service and closes its server. The caller still has to drop or replace the entry. */
    method Retire(name: string, o: Outcome) returns (ok: bool)
      requires Valid() && name in services
      modifies this`closed, this`silenced, tsServer
      ensures tsServer.Valid() && ok == o.stops
      ensures silenced == old(silenced) + {services[name].handler} && silenced <= handlers
      ensures !ok ==> Valid() && (old(Conserved()) ==> Conserved())
      ensures ok ==> Sound(services - {name}, handlers, closed)
      ensures ok ==> tsServer.serviceServers == old(tsServer.serviceServers) - {name}
      ensures old(tsServer.NoLeak()) ==> tsServer.NoLeak()
    {
      var failed := StopService(services[name], o);
      if failed {
        return false;
      }
      tsServer.CloseService(name);
      return true;
    }

    /** RemoveService without its metrics. */
    method TryRemove(name: string, o: Outcome) returns (err: Option<OpError>)
      requires Valid()
      modifies this`closed, this`silenced, this`services, tsServer
      ensures Valid()
      ensures old(Conserved()) ==> Conserved()
      ensures (Entry(name), err) == OpResult(tsServer.config, Remove(name), old(Entry(name)), o)
      ensures OnlyTouches(old(services), old(silenced), services, silenced, name)
      ensures services - {name} == old(services) - {name}
      ensures err.Some? ==> services == old(services)
    {
      if name !in services {
        return Some(NotFound);
      }
      var stopped := Retire(name, o);
      if stopped {
        services := services - {name};
      }
      TouchesOnly(old(services), old(silenced), services, silenced, name);
      return if stopped then None else Some(StopFailed);
    }

    method RemoveService(name: string, o: Outcome) returns (err: Option<OpError>)
      requires Valid() && GaugeExact()
      modifies this, tsServer, metricsCollector
      ensures name !in old(services) ==> err == Some(NotFound) && services == old(services)
      ensures name in old(services) ==> err == if name !in services then None else Some(StopFailed)
      ensures Valid() && GaugeExact() && metricsCollector == old(metricsCollector)
      ensures old(Conserved()) ==> Conserved()
      ensures (Entry(name), err) == OpResult(tsServer.config, Remove(name), old(Entry(name)), o)
      ensures OnlyTouches(old(services), old(silenced), services, silenced, name)
      ensures services - {name} == old(services) - {name}
      ensures metricsCollector != null ==> (metricsCollector.serviceOperations
        == old(metricsCollector.serviceOperations) + multiset{(RemoveOp, err.None?)}
        && metricsCollector.configReloads == old(metricsCollector.configReloads))
    {
      err := TryRemove(name, o);
      Report(RemoveOp, err.None?, err.None?);
    }

    /** Whether restarting the service under `name` keeps the two owners in agreement: always when the
        configuration carries that name; otherwise only when the start fails, and then exactly when
        it was refused credentials or its own name was free. */
    ghost predicate KeepsAgreement(before: map<string, Instance>, name: string, newCfg: Service, o: Outcome, ok: bool) {
      name == newCfg.name || (!ok && (newCfg.name !in before || !AuthReady(tsServer.config, newCfg, o)))
    }

    /** Starts the new configuration in the place of a retired service; when that fails the entry is
        dropped rather than left pointing at a stopped service. */
    method Replace(name: string, newCfg: Service, o: Outcome) returns (ok: bool)
      requires tsServer.Valid() && name in services
      requires Sound(services - {name}, handlers, closed) && silenced <= handlers
      modifies this`handlers, this`services, tsServer
      ensures Valid()
      ensures ok == Starts(tsServer.config, newCfg, o)
      ensures ok ==> services.Keys == old(services).Keys && Entry(name) == Some(Running(newCfg, true))
      ensures !ok ==> services == old(services) - {name}
      ensures services - {name} == old(services) - {name}
      ensures ok ==> newCfg.name in tsServer.serviceServers
      ensures ok ==> AsksFor(services[name], tsServer.serviceServers[newCfg.name])
      ensures tsServer.serviceServers ==
        if ok then old(tsServer.serviceServers)[newCfg.name := tsServer.serviceServers[newCfg.name]]
        else if !AuthReady(tsServer.config, newCfg, o) then old(tsServer.serviceServers)
        else old(tsServer.serviceServers) - {newCfg.name}
      ensures newCfg.name !in old(tsServer.serviceServers) || !AuthReady(tsServer.config, newCfg, o) ==>
        (old(tsServer.NoLeak()) ==> tsServer.NoLeak())
    {
      var inst := StartService(newCfg, o, name);
      if inst == null {
        services := services - {name};
        return false;
      }
      SoundFiled(services - {name}, old(handlers), closed, name, inst);
      assert (services - {name})[name := inst] == services[name := inst];
      services := services[name := inst];
      return true;
    }

    method Restart(name: string, newCfg: Service, o: Outcome) returns (err: Option<OpError>)
      requires Valid() && name in services
      modifies this`handlers, this`closed, this`silenced, this`services, tsServer
      ensures Valid()
      ensures old(Conserved()) ==>
        (Conserved() <==> err == Some(StopFailed) || KeepsAgreement(old(services), name, newCfg, o, err.None?))
      ensures err ==
        if !o.stops then Some(StopFailed)
        else if !Starts(tsServer.config, newCfg, o) then Some(StartFailed)
        else None
      ensures err == Some(StopFailed) ==> services == old(services)
      ensures err == Some(StartFailed) ==> services == old(services) - {name}
      ensures err.None? ==> services.Keys == old(services).Keys && Entry(name) == Some(Running(newCfg, true))
      ensures silenced == old(silenced) + {old(services)[name].handler}
      ensures services - {name} == old(services) - {name}
    {
      var stopped := Retire(name, o);
      if !stopped {
        return Some(StopFailed);
      }
      var ok := Replace(name, newCfg, o);
      if old(Conserved()) {
        RestartAgreement(old(services), services, old(tsServer.serviceServers), tsServer.serviceServers,
          name, newCfg.name, ok, AuthReady(tsServer.config, newCfg, o));
      }
      return if ok then None else Some(StartFailed);
    }

    /** UpdateService without its metrics. */
    method TryUpdate(name: string, newCfg: Service, o: Outcome) returns (err: Option<OpError>)
      requires Valid()
      modifies this`handlers, this`closed, this`silenced, this`services, tsServer
      ensures Valid()
      ensures old(Conserved()) && err.None? ==> (Conserved() <==> name == newCfg.name)
      ensures old(Conserved()) && err == Some(StartFailed) ==>
        (Conserved() <==>
          name == newCfg.name || newCfg.name !in old(services) || !AuthReady(tsServer.config, newCfg, o))
      ensures old(Conserved()) && err.Some? && err != Some(StartFailed) ==> Conserved() && services == old(services)
      ensures (Entry(name), err) == OpResult(tsServer.config, Update(newCfg), old(Entry(name)), o)
      ensures OnlyTouches(old(services), old(silenced), services, silenced, name)
      ensures services - {name} == old(services) - {name}
      ensures err != Some(StartFailed) ==> services.Keys == old(services).Keys
      ensures name !in old(services) ==> err == Some(NotFound) && services == old(services)
    {
      if name !in services {
        return Some(NotFound);
      }
      var acceptable := ValidateServiceConfig(newCfg, o);
      if !acceptable {
        return Some(InvalidConfig);
      }
      err := Restart(name, newCfg, o);
      TouchesOnly(old(services), old(silenced), services, silenced, name);
    }

    /** UpdateService restarts the service filed under `name` with a new configuration. An update that
        is refused before the restart changes nothing; a successful update under another name always
        breaks the agreement of the two owners. */
    method UpdateService(name: string, newCfg: Service, o: Outcome) returns (err: Option<OpError>)
      requires Valid() && GaugeExact()
      modifies this, tsServer, metricsCollector
      ensures name !in old(services) ==> err == Some(NotFound) && services == old(services)
      ensures name in old(services) && name !in services ==> err == Some(StartFailed)
      ensures Valid() && GaugeExact() && metricsCollector == old(metricsCollector)
      ensures old(Conserved()) && err.None? ==> (Conserved() <==> name == newCfg.name)
      ensures old(Conserved()) && err == Some(StartFailed) ==>
        (Conserved() <==>
          name == newCfg.name || newCfg.name !in old(services) || !AuthReady(tsServer.config, newCfg, o))
      ensures old(Conserved()) && err.Some? && err != Some(StartFailed) ==> Conserved() && services == old(services)
      ensures (Entry(name), err) == OpResult(tsServer.config, Update(newCfg), old(Entry(name)), o)
      ensures OnlyTouches(old(services), old(silenced), services, silenced, name)
      ensures services - {name} == old(services) - {name}
      ensures metricsCollector != null ==> (metricsCollector.serviceOperations
        == old(metricsCollector.serviceOperations) + multiset{(UpdateOp, err.None?)}
        && metricsCollector.configReloads == old(metricsCollector.configReloads))
    {
      err := TryUpdate(name, newCfg, o);
      Report(UpdateOp, err.None?, err == Some(StartFailed));
    }

    method ValidateServiceConfig(cfg: Service, o: Outcome) returns (ok: bool)
      ensures ok == Acceptable(cfg, o)
    {
      if cfg.name == "" {
        return false;
      }
      if cfg.backendAddr == "" {
        return false;
      }
      if "unix://" <= cfg.backendAddr {
        if !("/" <= cfg.backendAddr[7..]) {
          return false;
        }
      } else if !o.urlParses {
        return false;
      }
      if cfg.tlsMode != TLS_MODE_OFF && cfg.tlsMode != TLS_MODE_AUTO {
        return false;
      }
      if cfg.readHeaderTimeout.Some? && cfg.readHeaderTimeout.value < 0 {
        return false;
      }
      if cfg.writeTimeout.Some? && cfg.writeTimeout.value < 0 {
        return false;
      }
      if cfg.idleTimeout.Some? && cfg.idleTimeout.value < 0 {
        return false;
      }
      if cfg.responseHeaderTimeout.Some? && cfg.responseHeaderTimeout.value < 0 {
        return false;
      }
      return true;
    }

    method SetMetricsCollector(collector: Collector)
      modifies this`metricsCollector
      ensures metricsCollector == collector
    {
      metricsCollector := collector;
    }

    /** One round of StartServices; `s` is the start-up so far. */
    method StartNext(svc: Service, failures: map<string, OpError>, successful: nat, w: string -> Outcome,
                     ghost s: Startup)
      returns (failures': map<string, OpError>, successful': nat)
      requires Valid() && svc.name !in services
      requires failures == s.failures && successful == s.successful && Mirrors(services, silenced, s.running)
      modifies this`handlers, this`services, tsServer
      ensures Valid() && services.Keys <= old(services).Keys + {svc.name}
      ensures old(Conserved()) ==> Conserved()
      ensures var s' := StartOne(tsServer.config, s, svc, w);
        failures' == s'.failures && successful' == s'.successful && Mirrors(services, silenced, s'.running)
    {
      var ok := Launch(svc, w(svc.name));
      if !ok {
        return failures[svc.name := StartFailed], successful;
      }
      MirrorsAdd(old(services), silenced, s.running, svc.name, services[svc.name]);
      return failures, successful + 1;
    }

    /** StartServices: every configured service is tried; the failures are reported by name. */
    method StartServices(w: string -> Outcome) returns (failures: map<string, OpError>, successful: nat)
      requires Valid() && services == map[] && UniqueNames(config.services)
      modifies this`handlers, this`services, tsServer, metricsCollector
      ensures Valid() && GaugeExact()
      ensures old(Conserved()) ==> Conserved()
      ensures var s := StartAll(tsServer.config, config.services, w);
        && failures == s.failures && successful == s.successful
        && Mirrors(services, silenced, s.running)
    {
      var ss := config.services;
      failures, successful := map[], 0;
      ghost var s := StartAll(tsServer.config, [], w);
      for i := 0 to |ss|
        invariant Valid()
        invariant old(Conserved()) ==> Conserved()
        invariant s == StartAll(tsServer.config, ss[..i], w)
        invariant failures == s.failures && successful == s.successful && Mirrors(services, silenced, s.running)
        invariant forall n | n in services :: n in Names(ss[..i])
      {
        var svc := ss[i];
        assert ss[..i + 1][..i] == ss[..i];
        assert Names(ss[..i + 1]) == Names(ss[..i]) + [svc.name];
        assert svc.name !in Names(ss[..i]);
        failures, successful := StartNext(svc, failures, successful, w, s);
        s := StartOne(tsServer.config, s, svc, w);
      }
      assert ss[..|ss|] == ss;
      if metricsCollector != null {
        metricsCollector.SetActiveServices(|services|);
      }
    }

    /** Shutdown stops every service; those that do not drain in time keep their handler. */
    method Shutdown(w: string -> Outcome) returns (failed: set<string>)
      requires Valid()
      modifies this`closed, this`silenced
      ensures failed == set n | n in services && !w(n).stops
      ensures silenced == old(silenced) + set n | n in services :: services[n].handler
      ensures closed <= handlers
      ensures forall n | n in services :: services[n].handler in closed <==> w(n).stops
      ensures forall h | h in handlers && h !in closed :: Registered(services, h)
    {
      failed := {};
      var names := services.Keys;
      while names != {}
        invariant names <= services.Keys && old(closed) <= closed <= handlers
        invariant forall n | n in services :: services[n].handler in closed <==> n !in names && w(n).stops
        invariant failed == set n | n in services && n !in names && !w(n).stops
        invariant silenced == old(silenced) + set n | n in services && n !in names :: services[n].handler
        decreases names
      {
        var name :| name in names;
        var stuck := StopService(services[name], w(name));
        if stuck {
          failed := failed + {name};
        }
        names := names - {name};
      }
    }
  }
}
