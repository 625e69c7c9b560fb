/** internal/app: the application, which reloads the registry and finally shuts everything down. */
module App {
  import opened Wrappers
  import opened ConfigModel
  import opened Diff
  import opened Lifecycle
  import opened Reload
  import opened ReloadErrors
  import opened Registry

  lemma {:induction false} ExecConcat(ts: Tailscale, p: Progress, xs: seq<Op>, ys: seq<Op>, w: string -> Outcome)
    ensures Exec(ts, p, xs + ys, w) == Exec(ts, Exec(ts, p, xs, w), ys, w)
  {
    if ys == [] {
      assert xs + ys == xs;
    } else {
      assert (xs + ys)[..|xs + ys| - 1] == xs + ys[..|ys| - 1];
      ExecConcat(ts, p, xs, ys[..|ys| - 1], w);
    }
  }

  lemma ExecStep(ts: Tailscale, p: Progress, ops: seq<Op>, i: nat, w: string -> Outcome)
    requires i < |ops|
    ensures Exec(ts, p, ops[..i + 1], w) == Apply(ts, Exec(ts, p, ops[..i], w), ops[i], w)
  {
    assert ops[..i + 1][..i] == ops[..i];
  }

  /** The registry and the error record are at `p`. */
  ghost predicate Tracks(r: ServiceRegistry, e: ReloadError, p: Progress)
    reads r, e
  {
    Mirrors(r.services, r.silenced, p.running) && e.View() == p.ledger
  }

  /** What was found when a reload began: the collector and the reloads it had recorded, and whether the
      two owners of the services agreed. */
  datatype Mark = Mark(collector: Collector?, reloads: multiset<bool>, conserved: bool)

  ghost function MarkOf(r: ServiceRegistry): Mark
    reads r, r.tsServer, r.metricsCollector
  {
    var reloads := if r.metricsCollector == null then multiset{} else r.metricsCollector.configReloads;
    Mark(r.metricsCollector, reloads, r.Conserved())
  }

  /** What every operation of a reload keeps. */
  ghost predicate Steady(r: ServiceRegistry, m: Mark)
    reads r, r.tsServer, r.metricsCollector
  {
    && r.Valid() && r.GaugeExact()
    && r.metricsCollector == m.collector
    && (r.metricsCollector != null ==> r.metricsCollector.configReloads == m.reloads)
    && (m.conserved ==> r.Conserved())
  }

  /** How the result of an operation is recorded. */
  method Book(e: ReloadError, op: Op, err: Option<OpError>)
    modifies e
    ensures e.View() == Record(old(e.View()), op, err)
  {
    if err.None? {
      e.RecordSuccess();
    } else {
      match op
      case Remove(_) => e.RecordRemoveError(op, err.value);
      case Add(_) => e.RecordAddError(op, err.value);
      case Update(_) => e.RecordUpdateError(op, err.value);
    }
  }

  /** One removal of the reload. */
  method RemoveOne(r: ServiceRegistry, e: ReloadError, name: string, w: string -> Outcome,
                   ghost m: Mark, ghost p: Progress)
    requires Steady(r, m) && Tracks(r, e, p)
    modifies r, r.tsServer, r.metricsCollector, e
    ensures Steady(r, m) && Tracks(r, e, Apply(r.tsServer.config, p, Remove(name), w))
  {
    var err := r.RemoveService(name, w(name));
    MirrorsPut(old(r.services), old(r.silenced), p.running, r.services, r.silenced, name);
    Book(e, Remove(name), err);
  }

  method AddOne(r: ServiceRegistry, e: ReloadError, svc: Service, w: string -> Outcome,
                ghost m: Mark, ghost p: Progress)
    requires Steady(r, m) && Tracks(r, e, p)
    modifies r, r.tsServer, r.metricsCollector, e
    ensures Steady(r, m) && Tracks(r, e, Apply(r.tsServer.config, p, Add(svc), w))
  {
    var err := r.AddService(svc, w(svc.name));
    MirrorsPut(old(r.services), old(r.silenced), p.running, r.services, r.silenced, svc.name);
    Book(e, Add(svc), err);
  }

  method UpdateOne(r: ServiceRegistry, e: ReloadError, svc: Service, w: string -> Outcome,
                   ghost m: Mark, ghost p: Progress)
    requires Steady(r, m) && Tracks(r, e, p)
    modifies r, r.tsServer, r.metricsCollector, e
    ensures Steady(r, m) && Tracks(r, e, Apply(r.tsServer.config, p, Update(svc), w))
  {
    var err := r.UpdateService(svc.name, svc, w(svc.name));
    MirrorsPut(old(r.services), old(r.silenced), p.running, r.services, r.silenced, svc.name);
    Book(e, Update(svc), err);
  }

  method ProcessRemovals(r: ServiceRegistry, e: ReloadError, names: seq<string>, w: string -> Outcome,
                         ghost m: Mark, ghost p: Progress)
    requires Steady(r, m) && Tracks(r, e, p)
    modifies r, r.tsServer, r.metricsCollector, e
    ensures Steady(r, m) && Tracks(r, e, Exec(r.tsServer.config, p, Removes(names), w))
  {
    ghost var ops := Removes(names);
    for i := 0 to |names|
      invariant Steady(r, m) && Tracks(r, e, Exec(r.tsServer.config, p, ops[..i], w))
    {
      RemoveOne(r, e, names[i], w, m, Exec(r.tsServer.config, p, ops[..i], w));
      ExecStep(r.tsServer.config, p, ops, i, w);
    }
    assert ops[..|names|] == ops;
  }

  method ProcessAdditions(r: ServiceRegistry, e: ReloadError, svcs: seq<Service>, w: string -> Outcome,
                          ghost m: Mark, ghost p: Progress)
    requires Steady(r, m) && Tracks(r, e, p)
    modifies r, r.tsServer, r.metricsCollector, e
    ensures Steady(r, m) && Tracks(r, e, Exec(r.tsServer.config, p, Adds(svcs), w))
  {
    ghost var ops := Adds(svcs);
    for i := 0 to |svcs|
      invariant Steady(r, m) && Tracks(r, e, Exec(r.tsServer.config, p, ops[..i], w))
    {
      AddOne(r, e, svcs[i], w, m, Exec(r.tsServer.config, p, ops[..i], w));
      ExecStep(r.tsServer.config, p, ops, i, w);
    }
    assert ops[..|svcs|] == ops;
  }

  method ProcessUpdates(r: ServiceRegistry, e: ReloadError, svcs: seq<Service>, w: string -> Outcome,
                        ghost m: Mark, ghost p: Progress)
    requires Steady(r, m) && Tracks(r, e, p)
    modifies r, r.tsServer, r.metricsCollector, e
    ensures Steady(r, m) && Tracks(r, e, Exec(r.tsServer.config, p, Updates(svcs), w))
  {
    ghost var ops := Updates(svcs);
    for i := 0 to |svcs|
      invariant Steady(r, m) && Tracks(r, e, Exec(r.tsServer.config, p, ops[..i], w))
    {
      UpdateOne(r, e, svcs[i], w, m, Exec(r.tsServer.config, p, ops[..i], w));
      ExecStep(r.tsServer.config, p, ops, i, w);
    }
    assert ops[..|svcs|] == ops;
  }

  /** What a registry runs, as a map. */
  ghost function RunningOf(m: map<string, Instance>, silenced: set<HttpHandler>): (running: map<string, Running>)
    ensures Mirrors(m, silenced, running)
  {
    map n | n in m :: EntryAt(m, silenced, n).value
  }

  lemma MirrorsRunningOf(m: map<string, Instance>, silenced: set<HttpHandler>, running: map<string, Running>)
    requires Mirrors(m, silenced, running)
    ensures RunningOf(m, silenced) == running
  {
    forall n ensures Get(RunningOf(m, silenced), n) == Get(running, n) {
      assert EntryAt(m, silenced, n) == Get(running, n) && EntryAt(m, silenced, n) == Get(RunningOf(m, silenced), n);
    }
    SameEntries(RunningOf(m, silenced), running);
  }

  /** reloadConfigWithRegistry: removals, additions, updates, continuing on errors. */
  method ReloadConfigWithRegistry(oldCfg: Config, newCfg: Config, r: ServiceRegistry, w: string -> Outcome)
    returns (err: ReloadError?)
    requires r.Valid() && r.GaugeExact()
    modifies r, r.tsServer, r.metricsCollector
    ensures r.Valid() && r.GaugeExact() && r.metricsCollector == old(r.metricsCollector)
    ensures r.metricsCollector != null ==> r.metricsCollector.configReloads == old(r.metricsCollector.configReloads)
    ensures old(r.Conserved()) ==> r.Conserved()
    ensures
      var p0 := Progress(RunningOf(old(r.services), old(r.silenced)), EMPTY_LEDGER);
      var p := Exec(r.tsServer.config, p0, Plan(oldCfg.services, newCfg.services), w);
      && RunningOf(r.services, r.silenced) == p.running
      && (err == null <==> p.ledger.failed == 0)
      && (err != null ==> fresh(err) && err.View() == p.ledger)
  {
    var toRemove := FindServicesToRemove(oldCfg, newCfg);
    var toAdd := FindServicesToAdd(oldCfg, newCfg);
    var toUpdate := FindServicesToUpdate(oldCfg, newCfg);
    if !(|toRemove| > 0 || |toAdd| > 0 || |toUpdate| > 0) {
      assert Plan(oldCfg.services, newCfg.services) == [];
      return null;
    }
    var e := new ReloadError();
    ghost var ts, m := r.tsServer.config, MarkOf(r);
    ghost var p0 := Progress(RunningOf(r.services, r.silenced), EMPTY_LEDGER);
    ghost var p1 := Exec(ts, p0, Removes(toRemove), w);
    ghost var p2 := Exec(ts, p1, Adds(toAdd), w);
    ExecConcat(ts, p0, Removes(toRemove), Adds(toAdd), w);
    ExecConcat(ts, p0, Removes(toRemove) + Adds(toAdd), Updates(toUpdate), w);
    ProcessRemovals(r, e, toRemove, w, m, p0);
    ProcessAdditions(r, e, toAdd, w, m, p1);
    ProcessUpdates(r, e, toUpdate, w, m, p2);
    MirrorsRunningOf(r.services, r.silenced, Exec(ts, p2, Updates(toUpdate), w).running);
    err := e.ToError();
  }

  class Application {
    var cfg: Config
    const registry: ServiceRegistry
    var startDone: bool  // startOnce
    var stopDone: bool   // stopOnce

    /** What the reload theorems speak about. */
    ghost function View(): Bridge
      reads this, registry
    {
      Bridge(cfg, RunningOf(registry.services, registry.silenced))
    }

    ghost predicate Valid()
      reads this, registry, registry.tsServer, registry.metricsCollector
    {
      && registry.Valid() && registry.Conserved() && registry.GaugeExact()
      && (!startDone ==> registry.services == map[] && cfg == registry.config && UniqueNames(cfg.services))
    }

    constructor (cfg: Config, registry: ServiceRegistry)
      requires registry.Valid() && registry.Conserved() && registry.GaugeExact()
      requires registry.services == map[] && registry.config == cfg && UniqueNames(cfg.services)
      modifies registry`metricsCollector
      ensures Valid() && this.cfg == cfg && this.registry == registry && !startDone && !stopDone
      ensures cfg.global.metricsAddr == "" ==> registry.metricsCollector == old(registry.metricsCollector)
      ensures cfg.global.metricsAddr != "" ==> registry.metricsCollector != null && fresh(registry.metricsCollector)
    {
      this.cfg := cfg;
      this.registry := registry;
      startDone, stopDone := false, false;
      new;
      if cfg.global.metricsAddr != "" {
        var collector := new Collector();
        registry.SetMetricsCollector(collector);
      }
    }

    /** Start runs the registry's start-up once; nothing is reported the second time. A partial failure
        is not an error: `failed` is returned only when services are configured and none of them runs. */
    method Start(w: string -> Outcome) returns (failed: bool, failures: map<string, OpError>, successful: nat)
      requires Valid() && !stopDone
      modifies this, registry, registry.tsServer, registry.metricsCollector
      ensures Valid() && startDone && cfg == old(cfg) && !stopDone
      ensures old(startDone) ==> View() == old(View()) && !failed && failures == map[] && successful == 0
      ensures !old(startDone) ==>
        var s := StartAll(registry.tsServer.config, cfg.services, w);
        && View() == Bridge(cfg, s.running) && failures == s.failures && successful == s.successful
        && (failed <==> cfg.services != [] && s.running == map[])
    {
      if startDone {
        return false, map[], 0;
      }
      startDone := true;
      ghost var s := StartAll(registry.tsServer.config, cfg.services, w);
      failures, successful := registry.StartServices(w);
      AllFailedIffNoneRuns(registry.tsServer.config, cfg.services, w);
      MirrorsRunningOf(registry.services, registry.silenced, s.running);
      failed := |failures| > 0 && |failures| == |cfg.services|;
    }

    /** ReloadConfig follows ReloadStep and returns nil exactly when no operation failed. */
    method ReloadConfig(newCfg: Config, w: string -> Outcome) returns (err: ReloadError?)
      requires Valid() && startDone && !stopDone
      modifies this, registry, registry.tsServer, registry.metricsCollector
      ensures Valid() && startDone && !stopDone && registry.metricsCollector == old(registry.metricsCollector)
      ensures View() == ReloadStep(registry.tsServer.config, old(View()), Request(newCfg, w))
      ensures
        var ledger := ReloadProgress(registry.tsServer.config, old(View()), Request(newCfg, w)).ledger;
        (err == null <==> ledger.failed == 0) && (err != null ==> err.View() == ledger)
      ensures registry.metricsCollector != null ==> (registry.metricsCollector.configReloads
        == old(registry.metricsCollector.configReloads) + multiset{err == null})
    {
      err := ReloadConfigWithRegistry(cfg, newCfg, registry, w);
      var collector := registry.metricsCollector;
      if collector != null {
        collector.RecordConfigReload(err == null);
      }
      cfg := newCfg;
    }

    /** watchConfigChanges over the configurations received until the channel closes: any run of
        reloads keeps both owners in agreement and follows Run. */
    method WatchConfigChanges(received: seq<Request>)
      requires Valid() && startDone && !stopDone
      modifies this, registry, registry.tsServer, registry.metricsCollector
      ensures Valid() && startDone && !stopDone
      ensures View() == Run(registry.tsServer.config, old(View()), received)
    {
      for i := 0 to |received|
        invariant Valid() && startDone && !stopDone && registry.metricsCollector == old(registry.metricsCollector)
        invariant View() == Run(registry.tsServer.config, old(View()), received[..i])
      {
        assert received[..i + 1][..i] == received[..i];
        var err := ReloadConfig(received[i].cfg, received[i].w);
      }
      assert received[..|received|] == received;
    }

    /** Shutdown runs once: it closes every tsnet server ever started, and every handler whose
        service drained; no handler or server is closed twice. */
    method Shutdown(w: string -> Outcome, closesInTime: string -> bool)
      returns (stuck: set<string>, unclosed: set<string>)
      requires !stopDone ==> Valid()
      modifies this`stopDone, registry`closed, registry`silenced, registry.tsServer
      ensures stopDone
      ensures old(stopDone) ==> (stuck == unclosed == {} && registry.closed == old(registry.closed)
        && registry.silenced == old(registry.silenced)
        && registry.tsServer.closed == old(registry.tsServer.closed))
      ensures !old(stopDone) ==>
        && registry.tsServer.closed == registry.tsServer.started == old(registry.tsServer.started)
        && (forall n | n in registry.services :: registry.services[n].handler in registry.silenced)
        && stuck == (set n | n in registry.services && !w(n).stops)
        && unclosed == (set n | n in registry.services && !closesInTime(n))
        && (forall h | h in registry.handlers ::
              h !in registry.closed <==> Registered(registry.services, h) && !w(h.slot).stops)
    {
      if stopDone {
        return {}, {};
      }
      stopDone := true;
      stuck := registry.Shutdown(w);
      unclosed := registry.tsServer.Close(closesInTime);
    }
  }
}
