/** Whether the provider's memory, the app's configuration and the registry say the same. */
module Agreement {
  import opened Wrappers
  import opened ConfigModel
  import opened Diff
  import opened Secrets
  import opened Pipeline
  import opened Containers
  import opened Lifecycle
  import opened Reload
  import opened Provider

  /** The provider's lastConfig and the configuration the app adopted last. */
  datatype Link = Link(last: Option<Config>, accepted: Config)

  ghost function LinkStep(l: Link, step: Step): Link {
    var sent := Sent(l.last, step);
    Link(LastAfter(l.last, step), if sent.Some? then sent.value else l.accepted)
  }

  ghost function LinkRun(l: Link, steps: seq<Step>): Link {
    if steps == [] then l else LinkStep(LinkRun(l, steps[..|steps| - 1]), steps[|steps| - 1])
  }

  ghost predicate Agree(l: Link) {
    ConfigEqual(l.last, Some(l.accepted))
  }

  ghost predicate SoundLink(l: Link) {
    UniqueNames(l.accepted.services) && (l.last.Some? ==> UniqueNames(l.last.value.services))
  }

  /** Loads deliver validated configurations. */
  ghost predicate SoundStep(step: Step) {
    step.loaded.Some? ==> UniqueNames(step.loaded.value.services)
  }

  ghost predicate SoundSteps(steps: seq<Step>) {
    forall i | 0 <= i < |steps| :: SoundStep(steps[i])
  }

  lemma StepKeepsSoundness(l: Link, step: Step)
    requires SoundLink(l) && SoundStep(step)
    ensures SoundLink(LinkStep(l, step))
  {
    if step.Stop? && step.loaded.Some? && step.container != "" { PrunedContents(step.loaded.value, step.container); }
  }

  lemma {:induction false} RunKeepsSoundness(l: Link, steps: seq<Step>)
    requires SoundLink(l) && SoundSteps(steps)
    ensures SoundLink(LinkRun(l, steps))
  {
    if steps != [] {
      RunKeepsSoundness(l, steps[..|steps| - 1]);
      StepKeepsSoundness(LinkRun(l, steps[..|steps| - 1]), steps[|steps| - 1]);
    }
  }

  /** The two ways to lose track: a changed configuration is dropped because the app is busy, or a
      stop event that changes nothing still pruned a service from what was loaded. */
  ghost predicate Safe(l: Link, step: Step) {
    step.loaded.None? ||
    match step
    case Poll(loaded, ready) => ready || ConfigEqual(l.last, loaded)
    case Stop(loaded, container) =>
      var pruned := Pruned(loaded.value, container);
      !ConfigEqual(l.last, Some(pruned)) || |pruned.services| == |loaded.value.services|
  }

  /** A step keeps the agreement exactly when it is safe. */
  lemma AgreementKeptIffSafe(l: Link, step: Step)
    requires SoundLink(l) && SoundStep(step) && Agree(l)
    ensures Agree(LinkStep(l, step)) <==> Safe(l, step)
  {
    if step.loaded.Some? {
      var after := step.loaded.value;
      var last := l.last.value;
      match step {
        case Poll(_, _) =>
          ConfigEqualIsAnEquivalence(after, last, l.accepted);
          ConfigEqualIsAnEquivalence(last, after, l.accepted);
          ConfigEqualIsAnEquivalence(last, l.accepted, after);
          ConfigEqualIsAnEquivalence(after, l.accepted, last);
        case Stop(_, container) =>
          StopKeepsIffNothingPruned(l, after, container);
      }
    }
  }

  lemma StopKeepsIffNothingPruned(l: Link, after: Config, container: string)
    requires SoundLink(l) && UniqueNames(after.services) && Agree(l)
    ensures Agree(LinkStep(l, Stop(Some(after), container))) <==> Safe(l, Stop(Some(after), container))
  {
    var pruned := Pruned(after, container);
    if container != "" { PrunedContents(after, container); }
    ConfigEqualIsAnEquivalence(pruned, pruned, pruned);
    if ConfigEqual(l.last, Some(pruned)) {
      var last := l.last.value;
      // The app has what was pruned, the provider remembers what was loaded.
      ConfigEqualIsAnEquivalence(l.accepted, last, pruned);
      ConfigEqualIsAnEquivalence(last, l.accepted, pruned);
      ConfigEqualIsAnEquivalence(after, l.accepted, pruned);
      ConfigEqualIsAnEquivalence(pruned, l.accepted, after);
      assert ConfigEqual(Some(l.accepted), Some(pruned));
    }
  }

  /** The two agree before, between and after the steps. */
  ghost predicate AlwaysAgree(l: Link, steps: seq<Step>) {
    Agree(LinkRun(l, steps)) && (steps != [] ==> AlwaysAgree(l, steps[..|steps| - 1]))
  }

  ghost predicate AllSafe(l: Link, steps: seq<Step>) {
    steps != [] ==>
      AllSafe(l, steps[..|steps| - 1]) && Safe(LinkRun(l, steps[..|steps| - 1]), steps[|steps| - 1])
  }

  /** Over any run: the two agree after every step exactly when every step was safe. */
  lemma {:induction false} AgreementOverRuns(l: Link, steps: seq<Step>)
    requires SoundLink(l) && SoundSteps(steps) && Agree(l)
    ensures AlwaysAgree(l, steps) <==> AllSafe(l, steps)
  {
    if steps != [] {
      var front := steps[..|steps| - 1];
      AgreementOverRuns(l, front);
      RunKeepsSoundness(l, front);
      if AlwaysAgree(l, front) { AgreementKeptIffSafe(LinkRun(l, front), steps[|steps| - 1]); }
    }
  }

  /** Polls whose loads, as far as they succeed, find the same services. */
  ghost predicate AllFind(polls: seq<Step>, seen: Config) {
    forall i | 0 <= i < |polls| ::
      polls[i].Poll? && (polls[i].loaded.Some? ==> ConfigEqual(polls[i].loaded, Some(seen)))
  }

  /** While every load finds what the provider already remembers, nothing is sent. */
  lemma {:induction false} QuietWhileUnchanged(l: Link, seen: Config, polls: seq<Step>)
    requires SoundLink(l) && UniqueNames(seen.services) && ConfigEqual(l.last, Some(seen))
    requires SoundSteps(polls) && AllFind(polls, seen)
    ensures var l' := LinkRun(l, polls);
      l'.accepted == l.accepted && ConfigEqual(l'.last, Some(seen))
  {
    if polls != [] {
      var front, poll := polls[..|polls| - 1], polls[|polls| - 1];
      QuietWhileUnchanged(l, seen, front);
      RunKeepsSoundness(l, front);
      var last := LinkRun(l, front).last.value;
      if poll.loaded.Some? {
        ConfigEqualIsAnEquivalence(last, seen, poll.loaded.value);
        ConfigEqualIsAnEquivalence(poll.loaded.value, seen, last);
      }
    }
  }

  /** A dropped configuration is not sent again: while Docker stays as it is, however often it is
      polled, the app keeps the old configuration. */
  lemma DroppedConfigIsNotResent(l: Link, after: Config, polls: seq<Step>)
    requires SoundLink(l) && UniqueNames(after.services) && Agree(l) && !ConfigEqual(l.last, Some(after))
    requires SoundSteps(polls) && AllFind(polls, after)
    ensures var l' := LinkRun(LinkStep(l, Poll(Some(after), false)), polls);
      l'.accepted == l.accepted && !Agree(l')
  {
    var l1 := LinkStep(l, Poll(Some(after), false));
    ConfigEqualIsAnEquivalence(after, after, after);
    QuietWhileUnchanged(l1, after, polls);
    RunKeepsSoundness(l1, polls);
    StaysApart(LinkRun(l1, polls), l, after);
  }

  lemma StaysApart(l': Link, l: Link, after: Config)
    requires SoundLink(l') && SoundLink(l) && UniqueNames(after.services)
    requires Agree(l) && !ConfigEqual(l.last, Some(after))
    requires l'.accepted == l.accepted && ConfigEqual(l'.last, Some(after))
    ensures !Agree(l')
  {
    var last, last' := l.last.value, l'.last.value;
    if Agree(l') {
      ConfigEqualIsAnEquivalence(last, l.accepted, last');
      ConfigEqualIsAnEquivalence(last', l.accepted, last);
      ConfigEqualIsAnEquivalence(last, last', after);
    }
  }

  /** A restarted container can be forgotten: when Docker still lists it while its die and stop events
      are handled, and it is up again before the next reload, no reload brings its service back. The
      two loads may list the containers in different order. */
  lemma {:induction false} RestartedServiceIsForgotten(l: Link, full: Config, full': Config, container: string,
                                                       polls: seq<Step>)
    requires SoundLink(l) && UniqueNames(full.services) && UniqueNames(full'.services) && Agree(l)
    requires ConfigEqual(l.last, Some(full)) && ConfigEqual(Some(full), Some(full'))
    requires |Pruned(full, container).services| < |full.services|
    requires SoundSteps(polls) && AllFind(polls, full)
    ensures
      var die, stop := Stop(Some(full), container), Stop(Some(full'), container);
      LinkRun(LinkStep(LinkStep(l, die), stop), polls).accepted == Pruned(full, container)
  {
    var die, stop := Stop(Some(full), container), Stop(Some(full'), container);
    PrunedContents(full, container);
    PrunedAlike(full, full', container);
    ConfigEqualIsAnEquivalence(full, full', full);
    assert LinkStep(l, die) == Link(Some(Pruned(full, container)), Pruned(full, container));
    assert LinkStep(LinkStep(l, die), stop) == Link(Some(full'), Pruned(full, container));
    QuietWhileUnchanged(LinkStep(LinkStep(l, die), stop), full, polls);
  }

  // ---------------------------------------------------------------- provider, app and registry

  /** The provider's memory and the app with its registry. */
  datatype System = System(last: Option<Config>, app: Bridge)

  /** A provider step, and how the outside world responds to the reload it may cause. */
  datatype Tick = Tick(step: Step, w: string -> Outcome)

  ghost function SystemStep(ts: Tailscale, s: System, t: Tick): System {
    var sent := Sent(s.last, t.step);
    System(LastAfter(s.last, t.step),
      if sent.Some? then ReloadStep(ts, s.app, Request(sent.value, t.w)) else s.app)
  }

  ghost function SystemRun(ts: Tailscale, s: System, ticks: seq<Tick>): System {
    if ticks == [] then s else SystemStep(ts, SystemRun(ts, s, ticks[..|ticks| - 1]), ticks[|ticks| - 1])
  }

  function LinkOf(s: System): Link {
    Link(s.last, s.app.cfg)
  }

  /** The reloads a run of ticks causes: one for each configuration that is sent. */
  ghost function Requests(last: Option<Config>, ticks: seq<Tick>): seq<Request> {
    if ticks == [] then []
    else
      var front, t := ticks[..|ticks| - 1], ticks[|ticks| - 1];
      var sent := Sent(LastRun(last, front), t.step);
      Requests(last, front) + if sent.Some? then [Request(sent.value, t.w)] else []
  }

  /** What the provider remembers after a run. */
  ghost function LastRun(last: Option<Config>, ticks: seq<Tick>): Option<Config> {
    if ticks == [] then last else LastAfter(LastRun(last, ticks[..|ticks| - 1]), ticks[|ticks| - 1].step)
  }

  /** Seen from the app, a run of the system is the run of reloads it is sent, and every theorem about
      runs of reloads applies to it. */
  lemma {:induction false} SystemRunsReloads(ts: Tailscale, s: System, ticks: seq<Tick>)
    ensures SystemRun(ts, s, ticks) == System(LastRun(s.last, ticks), Run(ts, s.app, Requests(s.last, ticks)))
  {
    if ticks != [] {
      var front, t := ticks[..|ticks| - 1], ticks[|ticks| - 1];
      SystemRunsReloads(ts, s, front);
      var sent := Sent(LastRun(s.last, front), t.step);
      if sent.Some? { RunAppend(ts, s.app, Requests(s.last, front), Request(sent.value, t.w)); }
      else { assert Requests(s.last, ticks) == Requests(s.last, front); }
    }
  }

  lemma RunAppend(ts: Tailscale, b: Bridge, rs: seq<Request>, r: Request)
    ensures Run(ts, b, rs + [r]) == ReloadStep(ts, Run(ts, b, rs), r)
  {
    assert (rs + [r])[..|rs + [r]| - 1] == rs;
  }

  /** Provider, app and registry all say the same, and what is registered accepts connections. */
  ghost predicate Coherent(s: System) {
    SoundLink(LinkOf(s)) && Agree(LinkOf(s)) && AllInStep(s.app) && AllListening(s.app)
  }

  /** Nothing the step sends is dropped or mispruned, and no operation it causes fails. */
  ghost predicate Smooth(ts: Tailscale, s: System, t: Tick) {
    var sent := Sent(s.last, t.step);
    && Safe(LinkOf(s), t.step)
    && (sent.Some? ==> ReloadProgress(ts, s.app, Request(sent.value, t.w)).ledger.failed == 0)
  }

  /** One step keeps all three coherent exactly when it is smooth. */
  lemma CoherentIffSmooth(ts: Tailscale, s: System, t: Tick)
    requires Coherent(s) && SoundStep(t.step)
    ensures Coherent(SystemStep(ts, s, t)) <==> Smooth(ts, s, t)
  {
    AgreementKeptIffSafe(LinkOf(s), t.step);
    StepKeepsSoundness(LinkOf(s), t.step);
    var sent := Sent(s.last, t.step);
    if sent.Some? {
      var r := Request(sent.value, t.w);
      ReloadConverges(ts, s.app, r);
      if ReloadProgress(ts, s.app, r).ledger.failed == 0 { CleanReloadSilencesNothing(ts, s.app, r); }
    }
  }

  ghost predicate AlwaysCoherent(ts: Tailscale, s: System, ticks: seq<Tick>) {
    Coherent(SystemRun(ts, s, ticks)) && (ticks != [] ==> AlwaysCoherent(ts, s, ticks[..|ticks| - 1]))
  }

  ghost predicate AllSmooth(ts: Tailscale, s: System, ticks: seq<Tick>) {
    ticks != [] ==>
      AllSmooth(ts, s, ticks[..|ticks| - 1]) && Smooth(ts, SystemRun(ts, s, ticks[..|ticks| - 1]), ticks[|ticks| - 1])
  }

  /** The whole system over any run: provider, app and registry say the same after every step exactly
      when every step was smooth. */
  lemma {:induction false} CoherenceOverRuns(ts: Tailscale, s: System, ticks: seq<Tick>)
    requires Coherent(s) && forall i | 0 <= i < |ticks| :: SoundStep(ticks[i].step)
    ensures AlwaysCoherent(ts, s, ticks) <==> AllSmooth(ts, s, ticks)
  {
    if ticks != [] {
      var front := ticks[..|ticks| - 1];
      CoherenceOverRuns(ts, s, front);
      if AlwaysCoherent(ts, s, front) { CoherentIffSmooth(ts, SystemRun(ts, s, front), ticks[|ticks| - 1]); }
    }
  }

  /** What a step wants the app to run: the loaded services, less those of a stopped container. */
  function Target(step: Step): Config
    requires step.loaded.Some?
  {
    if step.Poll? then step.loaded.value else Pruned(step.loaded.value, step.container)
  }

  /** End to end: from a coherent system one step makes the registry run exactly what Docker now asks
      for, unless an operation it causes fails. A step that sends nothing has nothing to do. */
  lemma StepConverges(ts: Tailscale, s: System, t: Tick)
    requires Coherent(s) && SoundStep(t.step) && t.step.loaded.Some? && (t.step.Poll? ==> t.step.ready)
    ensures CanonAll(Configs(SystemStep(ts, s, t).app.running)) == Desired(Target(t.step).services)
      <==> ReloadProgress(ts, s.app, Request(Target(t.step), t.w)).ledger.failed == 0
    ensures Sent(s.last, t.step).None? ==> Plan(s.app.cfg.services, Target(t.step).services) == []
  {
    var target := Target(t.step);
    StepKeepsSoundness(LinkOf(s), t.step);
    if t.step.Stop? && t.step.container != "" { PrunedContents(t.step.loaded.value, t.step.container); }
    if ConfigEqual(s.last, Some(target)) {
      ConfigEqualIsAnEquivalence(s.app.cfg, s.last.value, target);
      ConfigEqualIsAnEquivalence(s.last.value, s.app.cfg, target);
      ServicesEqualIffSameDesired(s.app.cfg.services, target.services);
      RepeatedReloadIsIdle(s.app.cfg.services, target.services);
    } else {
      ReloadConverges(ts, s.app, Request(target, t.w));
    }
  }

  /** Start-up leaves all three coherent exactly when every service started. */
  lemma StartsCoherent(ts: Tailscale, cfg: Config, w: string -> Outcome)
    requires UniqueNames(cfg.services)
    ensures var s := StartAll(ts, cfg.services, w);
      Coherent(System(Some(cfg), Bridge(cfg, s.running))) <==> s.failures == map[]
  {
    ConfigEqualIsAnEquivalence(cfg, cfg, cfg);
    StartupInStep(ts, cfg, w);
    StartupListens(ts, cfg, w);
  }

  /** When a service of a loaded configuration starts: tsnet and the proxy cooperate, and it has an
      identity it may keep, or the loaded settings have an auth key or OAuth credentials that yield a key. */
  lemma LoadedServicesStartIff(cached: Option<Tailscale>, s: Snapshot, env: Vars, files: Files, net: Net,
                               svc: Service, o: Outcome)
    requires Loaded(cached, s, env, files, net).result.Success?
    requires svc in Loaded(cached, s, env, files, net).result.value.services
    ensures
      var t := Loaded(cached, s, env, files, net).result.value.tailscale;
      Starts(t, svc, o) <==>
        && o.comesUp && o.listens && o.builds
        && ((!svc.ephemeral && o.hasState) || (o.keyIssued && (t.authKey != "" || t.oauthClientID != "")))
  {
    var t := if cached.Some? then cached.value else s.own.value.0;
    ProcessedIsSafe(Config(t, s.own.value.1, Parsed(s.containers.value)), env, files, true, net);
    StartsIff(Loaded(cached, s, env, files, net).result.value.tailscale, svc, o);
  }

  lemma ValidServiceIsAcceptable(svc: Service, t: Tailscale, net: Net, o: Outcome)
    requires ServiceOk(svc, t, net) && svc.name != "" && svc.tlsMode != ""
    ensures Acceptable(svc, o) <==> "unix://" <= svc.backendAddr || o.urlParses
  {
  }

  /** A service of a loaded configuration passes the registry's own checks, unless its backend address
      is neither a unix socket nor a URL that parses. */
  lemma LoadedServicesAreAcceptable(cached: Option<Tailscale>, s: Snapshot, env: Vars, files: Files, net: Net,
                                    svc: Service, o: Outcome)
    requires Loaded(cached, s, env, files, net).result.Success?
    requires svc in Loaded(cached, s, env, files, net).result.value.services
    ensures Acceptable(svc, o) <==> "unix://" <= svc.backendAddr || o.urlParses
  {
    var t := if cached.Some? then cached.value else s.own.value.0;
    ProcessedServicesAreOk(Config(t, s.own.value.1, Parsed(s.containers.value)), env, files, true, net);
    var c := Loaded(cached, s, env, files, net).result.value;
    var i :| 0 <= i < |c.services| && c.services[i] == svc;
    ValidServiceIsAcceptable(c.services[i], c.tailscale, net, o);
  }

  // ---------------------------------------------------------------- order

  ghost predicate SameSystem(s: System, s': System) {
    BothShuffled(s.last, s'.last) && Shuffled(s.app.cfg, s'.app.cfg) && s.app.running == s'.app.running
  }

  ghost predicate SameTick(t: Tick, t': Tick) {
    StepShuffled(t.step, t'.step) && t.w == t'.w
  }

  lemma SystemStepIgnoresOrder(ts: Tailscale, s: System, t: Tick, s': System, t': Tick)
    requires SoundLink(LinkOf(s)) && SoundStep(t.step)
    requires SameSystem(s, s') && SameTick(t, t')
    ensures SameSystem(SystemStep(ts, s, t), SystemStep(ts, s', t'))
  {
    SentIgnoresOrder(s.last, s'.last, t.step, t'.step);
    StepKeepsSoundness(LinkOf(s), t.step);
    var sent, sent' := Sent(s.last, t.step), Sent(s'.last, t'.step);
    if sent.Some? {
      ReloadIgnoresOrder(ts, s.app, Request(sent.value, t.w), s'.app, Request(sent'.value, t'.w));
    }
  }

  lemma {:induction false} SystemKeepsSoundness(ts: Tailscale, s: System, ticks: seq<Tick>)
    requires SoundLink(LinkOf(s)) && forall i | 0 <= i < |ticks| :: SoundStep(ticks[i].step)
    ensures SoundLink(LinkOf(SystemRun(ts, s, ticks)))
  {
    if ticks != [] {
      SystemKeepsSoundness(ts, s, ticks[..|ticks| - 1]);
      StepKeepsSoundness(LinkOf(SystemRun(ts, s, ticks[..|ticks| - 1])), ticks[|ticks| - 1].step);
    }
  }

  /** Over any run, the order of what was loaded decides nothing: the same services run, and memory and
      configuration differ in order only. */
  lemma {:induction false} SystemIgnoresOrder(ts: Tailscale, s: System, ticks: seq<Tick>, s': System, ticks': seq<Tick>)
    requires SoundLink(LinkOf(s)) && forall i | 0 <= i < |ticks| :: SoundStep(ticks[i].step)
    requires SameSystem(s, s')
    requires |ticks| == |ticks'| && forall i | 0 <= i < |ticks| :: SameTick(ticks[i], ticks'[i])
    ensures SameSystem(SystemRun(ts, s, ticks), SystemRun(ts, s', ticks'))
  {
    if ticks != [] {
      var last := |ticks| - 1;
      SystemIgnoresOrder(ts, s, ticks[..last], s', ticks'[..last]);
      SystemKeepsSoundness(ts, s, ticks[..last]);
      assert SameTick(ticks[last], ticks'[last]);
      var before, before' := SystemRun(ts, s, ticks[..last]), SystemRun(ts, s', ticks'[..last]);
      SystemStepIgnoresOrder(ts, before, ticks[last], before', ticks'[last]);
    }
  }

  // ---------------------------------------------------------------- from listings to ticks

  /** One step as the world decides it: what Docker answers to the load, whether a poll or a stop event
      caused it, and how the outside responds to the reload it may cause. */
  datatype Observation =
    | Polled(input: Input, ready: bool, w: string -> Outcome)
    | Stopped(input: Input, container: string, w: string -> Outcome)

  function Inputs(os: seq<Observation>): (inputs: seq<Input>)
    ensures |inputs| == |os| && forall i | 0 <= i < |os| :: inputs[i] == os[i].input
  {
    seq(|os|, i requires 0 <= i < |os| => os[i].input)
  }

  /** The tick an observation amounts to, given what earlier loads left in cache and environment. */
  ghost function TickOf(c: Cache, o: Observation, net: Net): Tick {
    var r := Loaded(c.tailscale, o.input.s, c.env, o.input.files, net).result;
    var loaded := if r.Success? then Some(r.value) else None;
    Tick(if o.Polled? then Poll(loaded, o.ready) else Stop(loaded, o.container), o.w)
  }

  ghost function TickAt(c: Cache, os: seq<Observation>, net: Net, i: nat): Tick
    requires i < |os|
  {
    TickOf(LoadRun(c, Inputs(os)[..i], net), os[i], net)
  }

  ghost function Ticks(c: Cache, os: seq<Observation>, net: Net): (ticks: seq<Tick>)
    ensures |ticks| == |os| && forall i | 0 <= i < |os| :: ticks[i] == TickAt(c, os, net, i)
  {
    seq(|os|, i requires 0 <= i < |os| => TickAt(c, os, net, i))
  }

  /** The same observations with the containers listed in another order each time. */
  ghost predicate SameObservations(os: seq<Observation>, os': seq<Observation>) {
    && SameInputs(Inputs(os), Inputs(os'))
    && (forall i | 0 <= i < |os| ::
          os[i].w == os'[i].w &&
          match os[i]
          case Polled(_, ready, _) => os'[i].Polled? && os'[i].ready == ready
          case Stopped(_, container, _) => os'[i].Stopped? && os'[i].container == container)
  }

  lemma TicksAreSound(c: Cache, os: seq<Observation>, net: Net)
    ensures forall i | 0 <= i < |os| :: SoundStep(Ticks(c, os, net)[i].step)
  {
    forall i | 0 <= i < |os| ensures SoundStep(TickAt(c, os, net, i).step) {
      var before := LoadRun(c, Inputs(os)[..i], net);
      LoadedNamesAreSound(before.tailscale, os[i].input.s, before.env, os[i].input.files, net);
    }
  }

  lemma SameTickAt(c: Cache, os: seq<Observation>, os': seq<Observation>, net: Net, i: nat)
    requires SameObservations(os, os') && i < |os|
    ensures SameTick(TickAt(c, os, net, i), TickAt(c, os', net, i))
  {
    var inputs, inputs' := Inputs(os), Inputs(os');
    LoadRunIgnoresOrder(c, inputs[..i], inputs'[..i], net);
    var before := LoadRun(c, inputs[..i], net);
    assert SameAnswers(inputs[i].s, inputs'[i].s) && inputs[i].files == inputs'[i].files;
    LoadIgnoresOrder(before.tailscale, os[i].input.s, os'[i].input.s, before.env, os[i].input.files, net);
  }

  /** Over any run of polls and stop events, the order in which Docker lists the containers at each load
      decides nothing: the same services run, and memory and configuration differ in order only. */
  lemma ListingOrderIsImmaterial(ts: Tailscale, s: System, s': System, c: Cache,
                                 os: seq<Observation>, os': seq<Observation>, net: Net)
    requires SoundLink(LinkOf(s)) && SameSystem(s, s') && SameObservations(os, os')
    ensures SameSystem(SystemRun(ts, s, Ticks(c, os, net)), SystemRun(ts, s', Ticks(c, os', net)))
  {
    var ticks, ticks' := Ticks(c, os, net), Ticks(c, os', net);
    TicksAreSound(c, os, net);
    forall i | 0 <= i < |ticks| ensures SameTick(ticks[i], ticks'[i]) { SameTickAt(c, os, os', net, i); }
    SystemIgnoresOrder(ts, s, ticks, s', ticks');
  }

  /** The whole system over any run of listings, whatever they contain: provider, app and registry say
      the same and every service accepts connections after every step exactly when every step was
      smooth. */
  lemma CoherenceOverListings(ts: Tailscale, s: System, c: Cache, os: seq<Observation>, net: Net)
    requires Coherent(s)
    ensures AlwaysCoherent(ts, s, Ticks(c, os, net)) <==> AllSmooth(ts, s, Ticks(c, os, net))
  {
    TicksAreSound(c, os, net);
    CoherenceOverRuns(ts, s, Ticks(c, os, net));
  }
}
