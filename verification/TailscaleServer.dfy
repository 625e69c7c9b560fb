/** internal/tailscale/tailscale.go: who owns the tsnet servers. */
module TailscaleServer {
  import opened Wrappers
  import opened ConfigModel
  import opened Lifecycle

  /** One tsnet server object. Only its identity matters here; what was called on it is kept in the
      ghost sets of the Server that created it. */
  class TsnetServer {
    const hostname: string

    constructor (hostname: string)
      ensures this.hostname == hostname
    {
      this.hostname := hostname;
    }
  }

  /** Every open server is the one filed under its own hostname. */
  ghost predicate Covers(open: set<TsnetServer>, m: map<string, TsnetServer>) {
    forall s | s in open :: s.hostname in m && m[s.hostname] == s
  }

  datatype ListenError = NoCredentials | UpFailed | ListenFailed

  class Server {
    const config: Tailscale
    var serviceServers: map<string, TsnetServer>

    ghost var started: set<TsnetServer>  // Up was called
    ghost var closed: set<TsnetServer>   // Close was called

    /** Every filed server is open and filed under its own hostname, so under one name only. */
    ghost predicate Valid()
      reads this
    {
      && closed <= started
      && forall n | n in serviceServers ::
        && serviceServers[n] in started && serviceServers[n] !in closed
        && serviceServers[n].hostname == n
    }

    /** Every server that was started and not closed can still be reached by name. */
    ghost predicate NoLeak()
      reads this
    {
      Covers(started - closed, serviceServers)
    }

    constructor (config: Tailscale)
      ensures Valid() && NoLeak()
      ensures this.config == config && serviceServers == map[] && started == {}
    {
      this.config := config;
      serviceServers := map[];
      started, closed := {}, {};
    }

    /** Up on a new server. */
    method StartServiceServer(server: TsnetServer, o: Outcome) returns (ok: bool)
      modifies this`started
      ensures started == old(started) + {server}
      ensures ok == o.comesUp
    {
      started := started + {server};
      ok := o.comesUp;
    }

    /** Close on a server: never twice, and only on one that was started. */
    method CloseTsnet(server: TsnetServer)
      requires server in started && server !in closed
      modifies this`closed
      ensures closed == old(closed) + {server}
    {
      closed := closed + {server};
    }

    /** Listen files a new running server under the service's name and returns nil, or closes what it
        started and leaves the name free. A server already filed under the name is lost: it stays
        open and nothing refers to it any more. */
    method Listen(svc: Service, tlsMode: string, funnelEnabled: bool, o: Outcome) returns (err: Option<ListenError>)
      requires Valid()
      modifies this
      ensures Valid()
      ensures err == (if !AuthReady(config, svc, o) then Some(NoCredentials)
        else if !o.comesUp then Some(UpFailed)
        else if (funnelEnabled || tlsMode == TLS_MODE_AUTO || tlsMode == TLS_MODE_OFF) && o.listens then None
        else Some(ListenFailed))
      ensures err.None? ==> svc.name in serviceServers && fresh(serviceServers[svc.name])
      ensures serviceServers == match err
        case None => old(serviceServers)[svc.name := serviceServers[svc.name]]
        case Some(NoCredentials) => old(serviceServers)
        case Some(_) => old(serviceServers) - {svc.name}
      ensures old(started) <= started && old(closed) <= closed
      ensures old(NoLeak()) ==> (NoLeak() <==> err == Some(NoCredentials) || svc.name !in old(serviceServers))
    {
      var server := new TsnetServer(svc.name);

      var ready := PrepareServiceAuth(svc, o);
      if !ready {
        return Some(NoCredentials);
      }

      serviceServers := serviceServers[svc.name := server];

      var up := StartServiceServer(server, o);
      if !up {
        serviceServers := serviceServers - {svc.name};
        CloseTsnet(server);
        return Some(UpFailed);
      }

      var listening := CreateServiceListener(tlsMode, funnelEnabled, o);
      if !listening {
        serviceServers := serviceServers - {svc.name};
        CloseTsnet(server);
        return Some(ListenFailed);
      }
      return None;
    }

    /** A node without identity of its own, or an ephemeral one, needs a key. */
    method PrepareServiceAuth(svc: Service, o: Outcome) returns (ok: bool)
      ensures ok <==> AuthReady(config, svc, o)
      ensures !svc.ephemeral && o.hasState ==> ok
      ensures svc.ephemeral || !o.hasState ==>
        (ok <==>
          o.keyIssued && (config.authKey != "" || (config.oauthClientID != "" && config.oauthClientSecret != "")))
    {
      var needsAuthKey := true;
      if !svc.ephemeral {
        needsAuthKey := !o.hasState;
      }
      if needsAuthKey {
        if !HasSecrets(config) {
          return false;
        }
        return o.keyIssued;
      }
      return true;
    }

    method CreateServiceListener(tlsMode: string, funnelEnabled: bool, o: Outcome) returns (ok: bool)
      ensures ok == ((funnelEnabled || tlsMode == TLS_MODE_AUTO || tlsMode == TLS_MODE_OFF) && o.listens)
    {
      if funnelEnabled {
        return o.listens;
      }
      if tlsMode == TLS_MODE_AUTO || tlsMode == TLS_MODE_OFF {
        return o.listens;
      }
      return false;
    }

    /** CloseService closes the name's server and forgets it; a name without one is left alone. */
    method CloseService(name: string)
      requires Valid()
      modifies this
      ensures Valid()
      ensures serviceServers == old(serviceServers) - {name}
      ensures started == old(started)
      ensures closed == old(closed) + if name in old(serviceServers) then {old(serviceServers)[name]} else {}
      ensures old(NoLeak()) ==> NoLeak()
    {
      if name !in serviceServers {
        return;
      }
      var server := serviceServers[name];
      serviceServers := serviceServers - {name};
      CloseTsnet(server);
    }

    function GetServiceServer(name: string): (s: Option<TsnetServer>)
      reads this
      ensures s.Some? <==> name in serviceServers
    {
      Get(serviceServers, name)
    }

    /** Close closes every filed server; `closesInTime` says which of them report no error. */
    method Close(closesInTime: string -> bool) returns (failed: set<string>)
      requires Valid()
      modifies this
      ensures Valid()
      ensures serviceServers == map[] && started == old(started)
      ensures failed == set n | n in old(serviceServers) && !closesInTime(n)
      ensures old(NoLeak()) ==> closed == started
    {
      var servers := serviceServers;
      serviceServers := map[];
      failed := {};
      var names := servers.Keys;
      while names != {}
        invariant names <= servers.Keys
        invariant serviceServers == map[] && started == old(started) && closed <= started
        invariant forall n | n in names :: servers[n] in started && servers[n] !in closed
        invariant forall n | n in servers && n !in names :: servers[n] in closed
        invariant old(closed) <= closed
        invariant failed == set n | n in servers && n !in names && !closesInTime(n)
        decreases names
      {
        var name :| name in names;
        CloseTsnet(servers[name]);
        if !closesInTime(name) {
          failed := failed + {name};
        }
        names := names - {name};
      }
      if old(NoLeak()) {
        forall s | s in started ensures s in closed {
          if s !in old(closed) {
            assert s in started - old(closed);
          }
        }
      }
    }
  }
}
