/** The whole program as objects: the provider's watch loop in internal/docker/docker.go feeding the
    app's receive loop in internal/app/app.go. */
module Reconciler {
  import opened Wrappers
  import opened ConfigModel
  import opened Secrets
  import opened Pipeline
  import opened Reload
  import opened App
  import opened Provider
  import opened Agreement

  /** What the theorems about runs speak about. */
  ghost function SystemOf(p: DockerProvider, app: Application): System
    reads p, app, app.registry
  {
    System(p.lastConfig, app.View())
  }

  ghost function CacheOf(p: DockerProvider, env: Environment): Cache
    reads p, env
  {
    Cache(p.cachedTailscale, env.vars)
  }

  /** One poll or stop event: the provider handles it, and the app reloads what it is sent. */
  method React(p: DockerProvider, env: Environment, app: Application, o: Observation, net: Net)
    requires app.Valid() && app.startDone && !app.stopDone
    modifies p, env, app, app.registry, app.registry.tsServer, app.registry.metricsCollector
    ensures app.Valid() && app.startDone && !app.stopDone
    ensures app.registry.metricsCollector == old(app.registry.metricsCollector)
    ensures CacheOf(p, env) == LoadStep(old(CacheOf(p, env)), o.input, net)
    ensures SystemOf(p, app)
      == SystemStep(app.registry.tsServer.config, old(SystemOf(p, app)), TickOf(old(CacheOf(p, env)), o, net))
  {
    var sent;
    match o {
      case Polled(input, ready, _) =>
        sent := p.ImmediateReload(input.s, env, input.files, net, ready);
      case Stopped(input, container, _) =>
        var armed;
        sent, armed := p.HandleContainerEvent(Event(true, true, "stop", container), input.s, env, input.files, net);
    }
    if sent.Some? {
      var err := app.ReloadConfig(sent.value, o.w);
    }
  }

  lemma OneMore(ts: Tailscale, s: System, c: Cache, os: seq<Observation>, net: Net, i: nat)
    requires i < |os|
    ensures
      var before := LoadRun(c, Inputs(os)[..i], net);
      && LoadRun(c, Inputs(os)[..i + 1], net) == LoadStep(before, os[i].input, net)
      && SystemRun(ts, s, Ticks(c, os, net)[..i + 1])
           == SystemStep(ts, SystemRun(ts, s, Ticks(c, os, net)[..i]), TickOf(before, os[i], net))
  {
    assert Inputs(os)[..i + 1][..i] == Inputs(os)[..i];
    assert Ticks(c, os, net)[..i + 1][..i] == Ticks(c, os, net)[..i];
  }

  /** Any run of polls and stop events, whatever Docker answers and however the outside responds: memory,
      configuration and registry follow SystemRun, cache and environment LoadRun. */
  method RunSystem(p: DockerProvider, env: Environment, app: Application, os: seq<Observation>, net: Net)
    requires app.Valid() && app.startDone && !app.stopDone
    modifies p, env, app, app.registry, app.registry.tsServer, app.registry.metricsCollector
    ensures app.Valid() && app.startDone && !app.stopDone
    ensures CacheOf(p, env) == LoadRun(old(CacheOf(p, env)), Inputs(os), net)
    ensures SystemOf(p, app)
      == SystemRun(app.registry.tsServer.config, old(SystemOf(p, app)), Ticks(old(CacheOf(p, env)), os, net))
  {
    ghost var c, s := CacheOf(p, env), SystemOf(p, app);
    ghost var ticks := Ticks(c, os, net);
    for i := 0 to |os|
      invariant app.Valid() && app.startDone && !app.stopDone
      invariant app.registry.metricsCollector == old(app.registry.metricsCollector)
      invariant CacheOf(p, env) == LoadRun(c, Inputs(os)[..i], net)
      invariant SystemOf(p, app) == SystemRun(app.registry.tsServer.config, s, ticks[..i])
    {
      React(p, env, app, os[i], net);
      OneMore(app.registry.tsServer.config, s, c, os, net, i);
    }
    assert Inputs(os)[..|os|] == Inputs(os);
    assert ticks[..|os|] == ticks;
  }
}
