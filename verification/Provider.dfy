/** internal/docker/docker.go: the provider that loads configurations from Docker, decides which of
    them to send, and remembers the last one. */
module Provider {
  import opened Wrappers
  import opened ConfigModel
  import opened Diff
  import opened Filters
  import opened Secrets
  import opened Pipeline
  import opened Containers

  /** What Docker answers during one load: tsbridge's own labels, if its container is found, and one
      entry per enabled running container, None where its labels do not parse. The entries come in
      Go map order, that is, in any order. */
  datatype Snapshot = Snapshot(own: Option<(Tailscale, Global)>, containers: Option<seq<Option<Service>>>)

  datatype LoadFailure = NoOwnContainer | NoContainerList | NotProcessed(cause: LoadError)

  function Parsed(cs: seq<Option<Service>>): seq<Service> {
    if cs == [] then []
    else Parsed(cs[..|cs| - 1]) + if cs[|cs| - 1].Some? then [cs[|cs| - 1].value] else []
  }

  datatype LoadOutcome = LoadOutcome(result: Result<Config, LoadFailure>, env: Vars)

  /** One load as a function of the cached settings, Docker's answers, the environment and the files. */
  ghost function Loaded(cached: Option<Tailscale>, s: Snapshot, env: Vars, files: Files, net: Net): LoadOutcome {
    if s.own.None? then LoadOutcome(Failure(NoOwnContainer), env)
    else if s.containers.None? then LoadOutcome(Failure(NoContainerList), env)
    else
      var t := if cached.Some? then cached.value else s.own.value.0;
      var p := Processed(Config(t, s.own.value.1, Parsed(s.containers.value)), env, files, true, net);
      LoadOutcome(if p.result.Success? then Success(p.result.value) else Failure(NotProcessed(p.result.error)), p.env)
  }

  /** What one load is given. */
  datatype Input = Input(s: Snapshot, files: Files)

  /** What one load hands to the next: the cached settings and the environment. */
  datatype Cache = Cache(tailscale: Option<Tailscale>, env: Vars)

  ghost function LoadStep(c: Cache, i: Input, net: Net): Cache {
    var out := Loaded(c.tailscale, i.s, c.env, i.files, net);
    Cache(if out.result.Success? && c.tailscale.None? then Some(out.result.value.tailscale) else c.tailscale, out.env)
  }

  ghost function LoadRun(c: Cache, inputs: seq<Input>, net: Net): Cache {
    if inputs == [] then c else LoadStep(LoadRun(c, inputs[..|inputs| - 1], net), inputs[|inputs| - 1], net)
  }

  /** A container event, as far as the handler looks at it. */
  datatype Event = Event(isContainer: bool, enabled: bool, action: string, name: string)

  /** One provider step: a reload after a poll or a debounce, where `ready` says whether the app was
      receiving, or the handling of a stop or die event. `loaded` is None when the load failed. */
  datatype Step =
    | Poll(loaded: Option<Config>, ready: bool)
    | Stop(loaded: Option<Config>, container: string)

  /** The configuration a step hands to the app. */
  ghost function Sent(last: Option<Config>, step: Step): Option<Config> {
    if step.loaded.None? then None
    else match step
      case Poll(loaded, ready) =>
        if last.Some? && ConfigEqual(last, loaded) then None else if ready then loaded else None
      case Stop(loaded, container) =>
        var pruned := Some(Pruned(loaded.value, container));
        if ConfigEqual(last, pruned) then None else pruned
  }

  /** The configuration the provider remembers after a step. Load itself already overwrites it. */
  ghost function LastAfter(last: Option<Config>, step: Step): Option<Config> {
    if step.loaded.None? then last
    else if step.Stop? && Sent(last, step).Some? then Sent(last, step)
    else step.loaded
  }

  class DockerProvider {
    var lastConfig: Option<Config>
    var cachedTailscale: Option<Tailscale>

    constructor ()
      ensures lastConfig == None && cachedTailscale == None
    {
      lastConfig, cachedTailscale := None, None;
    }

    method Load(s: Snapshot, env: Environment, files: Files, net: Net) returns (r: Result<Config, LoadFailure>)
      modifies this, env
      ensures LoadOutcome(r, env.vars) == Loaded(old(cachedTailscale), s, old(env.vars), files, net)
      ensures lastConfig == if r.Success? then Some(r.value) else old(lastConfig)
      ensures cachedTailscale ==
        if r.Success? && old(cachedTailscale).None? then Some(r.value.tailscale) else old(cachedTailscale)
      ensures Cache(cachedTailscale, env.vars)
        == LoadStep(Cache(old(cachedTailscale), old(env.vars)), Input(s, files), net)
    {
      if s.own.None? {
        return Failure(NoOwnContainer);
      }
      var tailscale, global := s.own.value.0, s.own.value.1;
      if cachedTailscale.Some? {
        tailscale := cachedTailscale.value;
      }
      if s.containers.None? {
        return Failure(NoContainerList);
      }
      var cs := s.containers.value;
      var services := [];
      for i := 0 to |cs|
        invariant services == Parsed(cs[..i])
      {
        assert cs[..i + 1][..i] == cs[..i];
        if cs[i].Some? {
          services := services + [cs[i].value];
        }
      }
      assert cs[..|cs|] == cs;
      var draft := new Draft(Config(tailscale, global, services));
      var err := draft.Process(env, files, true, net);
      if err.Some? {
        return Failure(NotProcessed(err.value));
      }
      var cfg := draft.View();
      if cachedTailscale.None? {
        cachedTailscale := Some(cfg.tailscale);
      }
      lastConfig := Some(cfg);
      return Success(cfg);
    }

    /** immediateReload: the send does not wait, so a configuration nobody is receiving is dropped. */
    method ImmediateReload(s: Snapshot, env: Environment, files: Files, net: Net, ready: bool)
      returns (sent: Option<Config>)
      modifies this, env
      ensures
        var out := Loaded(old(cachedTailscale), s, old(env.vars), files, net);
        var step := Poll(if out.result.Success? then Some(out.result.value) else None, ready);
        env.vars == out.env && sent == Sent(old(lastConfig), step) && lastConfig == LastAfter(old(lastConfig), step)
      ensures Cache(cachedTailscale, env.vars)
        == LoadStep(Cache(old(cachedTailscale), old(env.vars)), Input(s, files), net)
    {
      var oldConfig := lastConfig;
      var loaded := Load(s, env, files, net);
      if loaded.Failure? {
        return None;
      }
      var newConfig := Some(loaded.value);
      var same := ConfigsEqual(oldConfig, newConfig);
      if oldConfig.Some? && same {
        return None;
      }
      if ready {
        lastConfig := newConfig;
        return newConfig;
      }
      return None;
    }

    /** handleContainerEvent; the send of a stop or die event waits for the app. `armed` reports that
        a debounced reload was scheduled instead. */
    method HandleContainerEvent(e: Event, s: Snapshot, env: Environment, files: Files, net: Net)
      returns (sent: Option<Config>, armed: bool)
      modifies this, env
      ensures armed <==> e.isContainer && e.enabled && e.action != "stop" && e.action != "die"
      ensures !(e.isContainer && e.enabled) || armed ==>
        sent == None && lastConfig == old(lastConfig)
        && env.vars == old(env.vars) && cachedTailscale == old(cachedTailscale)
      ensures e.isContainer && e.enabled && !armed ==>
        var out := Loaded(old(cachedTailscale), s, old(env.vars), files, net);
        var step := Stop(if out.result.Success? then Some(out.result.value) else None, e.name);
        && env.vars == out.env && sent == Sent(old(lastConfig), step) && lastConfig == LastAfter(old(lastConfig), step)
        && Cache(cachedTailscale, env.vars)
          == LoadStep(Cache(old(cachedTailscale), old(env.vars)), Input(s, files), net)
    {
      if !e.isContainer {
        return None, false;
      }
      if !e.enabled {
        return None, false;
      }
      if e.action == "stop" || e.action == "die" {
        var oldConfig := lastConfig;
        var loaded := Load(s, env, files, net);
        if loaded.Failure? {
          return None, false;
        }
        var newConfig := Some(loaded.value);
        if e.name != "" {
          newConfig := RemoveServiceByContainerName(newConfig, e.name);
        }
        var same := ConfigsEqual(oldConfig, newConfig);
        if !same {
          lastConfig := newConfig;
          return newConfig, false;
        }
        return None, false;
      }
      return None, true;
    }
  }

  ghost predicate SoundNames(c: Config) {
    UniqueNames(c.services) && NonEmptyNames(c.services)
  }

  lemma LoadedNamesAreSound(cached: Option<Tailscale>, s: Snapshot, env: Vars, files: Files, net: Net)
    ensures var r := Loaded(cached, s, env, files, net).result;
      r.Success? ==> SoundNames(r.value)
  {
  }

  lemma SentKeepsNames(last: Option<Config>, step: Step)
    requires step.loaded.Some? ==> SoundNames(step.loaded.value)
    ensures Sent(last, step).Some? ==> SoundNames(Sent(last, step).value)
  {
    if step.Stop? && step.loaded.Some? && step.container != "" { PrunedContents(step.loaded.value, step.container); }
  }

  /** Every configuration that is loaded, and every configuration that is sent, names each of its
      services once and none of them by the empty name. */
  lemma SentNamesAreSound(cached: Option<Tailscale>, s: Snapshot, env: Vars, files: Files, net: Net,
                          last: Option<Config>, container: string, ready: bool)
    requires Loaded(cached, s, env, files, net).result.Success?
    ensures
      var loaded := Loaded(cached, s, env, files, net).result.value;
      && SoundNames(loaded)
      && forall step | step in {Poll(Some(loaded), ready), Stop(Some(loaded), container)} ::
          Sent(last, step).Some? ==> SoundNames(Sent(last, step).value)
  {
    var loaded := Loaded(cached, s, env, files, net).result.value;
    LoadedNamesAreSound(cached, s, env, files, net);
    SentKeepsNames(last, Poll(Some(loaded), ready));
    SentKeepsNames(last, Stop(Some(loaded), container));
  }

  // ---------------------------------------------------------------- order

  lemma {:induction false} ParsedConcat(cs: seq<Option<Service>>, ds: seq<Option<Service>>)
    ensures Parsed(cs + ds) == Parsed(cs) + Parsed(ds)
  {
    if ds == [] {
      assert cs + ds == cs;
    } else {
      assert (cs + ds)[..|cs + ds| - 1] == cs + ds[..|ds| - 1];
      ParsedConcat(cs, ds[..|ds| - 1]);
    }
  }

  lemma ParsedSplitAt(cs: seq<Option<Service>>, i: nat)
    requires i < |cs|
    ensures multiset(Parsed(cs)) ==
      multiset(Parsed(cs[..i] + cs[i + 1..])) + if cs[i].Some? then multiset{cs[i].value} else multiset{}
  {
    var left, right := cs[..i], cs[i + 1..];
    SplitAt(cs, i);
    ParsedConcat(left, right);
    ParsedConcat(left + [cs[i]], right);
    assert (left + [cs[i]])[..i] == left;
  }

  lemma {:induction false} ParsedPermuted(cs: seq<Option<Service>>, ds: seq<Option<Service>>)
    requires multiset(cs) == multiset(ds)
    ensures multiset(Parsed(cs)) == multiset(Parsed(ds))
    decreases |cs|
  {
    if cs == [] {
      NothingLeft(cs, ds);
    } else {
      var i := WithoutLast(cs, ds);
      ParsedPermuted(cs[..|cs| - 1], ds[..i] + ds[i + 1..]);
      ParsedSplitAt(ds, i);
    }
  }

  lemma ParsedOne(c: Option<Service>)
    ensures Parsed([c]) == if c.Some? then [c.value] else []
  {
    assert [c][..0] == [];
  }

  /** A container whose labels parse contributes its service, once per listing, and no other does. */
  lemma {:induction false} ParsedCounts(cs: seq<Option<Service>>, svc: Service)
    ensures multiset(Parsed(cs))[svc] == multiset(cs)[Some(svc)]
  {
    if cs != [] {
      var front, last := cs[..|cs| - 1], cs[|cs| - 1];
      ParsedCounts(front, svc);
      assert cs == front + [last];
    }
  }

  /** Where everything in a loaded configuration comes from: the global settings from tsbridge's own
      labels, the services from the containers' labels and, where those are silent, from the global
      settings, and on the first load the Tailscale settings from tsbridge's own labels. */
  lemma LoadedFrom(cached: Option<Tailscale>, s: Snapshot, env: Vars, files: Files, net: Net)
    requires Loaded(cached, s, env, files, net).result.Success?
    ensures s.own.Some? && s.containers.Some?
    ensures
      var out := Loaded(cached, s, env, files, net).result.value;
      var t := match cached { case Some(c) => c case None => s.own.value.0 };
      ConfigFrom(out, Config(t, s.own.value.1, Parsed(s.containers.value)), env, files)
  {
    var t := if cached.Some? then cached.value else s.own.value.0;
    PipelinePrecedence(Config(t, s.own.value.1, Parsed(s.containers.value)), env, files, true, net);
  }

  /** How a load fails: without its own container, without a container list, in resolving a secret, or
      because validation refuses the completed configuration. */
  lemma LoadFails(cached: Option<Tailscale>, s: Snapshot, env: Vars, files: Files, net: Net)
    ensures var r := Loaded(cached, s, env, files, net).result;
      && (r == Failure(NoOwnContainer) <==> s.own.None?)
      && (r == Failure(NoContainerList) <==> s.own.Some? && s.containers.None?)
      && (s.own.Some? && s.containers.Some? ==>
            var t := match cached { case Some(c) => c case None => s.own.value.0 };
            var resolved := ResolveTailscale(t, env, files).result;
            && (resolved.Failure? ==> r == Failure(NotProcessed(SecretFailed(resolved.error))))
            && (resolved.Success? ==>
                  var done := Completed(Config(resolved.value, s.own.value.1, Parsed(s.containers.value)));
                  r == if Validated(done, true, net) then Success(done) else Failure(NotProcessed(Invalid))))
  {
    if s.own.Some? && s.containers.Some? {
      var t := if cached.Some? then cached.value else s.own.value.0;
      ProcessedResolves(Config(t, s.own.value.1, Parsed(s.containers.value)), env, files, true, net);
    }
  }

  /** The same answers with the containers listed in another order. */
  ghost predicate SameAnswers(s: Snapshot, s': Snapshot) {
    && s.own == s'.own
    && (s.containers.Some? <==> s'.containers.Some?)
    && (s.containers.Some? ==> multiset(s.containers.value) == multiset(s'.containers.value))
  }

  /** The order in which Docker's map lists the containers does not matter to a load: it fails the same
      way, leaves the same environment behind, and loads the same configuration up to the order of its
      services. */
  lemma LoadIgnoresOrder(cached: Option<Tailscale>, s: Snapshot, s': Snapshot, env: Vars, files: Files, net: Net)
    requires SameAnswers(s, s')
    ensures
      var out, out' := Loaded(cached, s, env, files, net), Loaded(cached, s', env, files, net);
      && out.env == out'.env
      && (if out.result.Success? then out'.result.Success? && Shuffled(out.result.value, out'.result.value)
          else out'.result == out.result)
  {
    if s.own.Some? && s.containers.Some? {
      var t := if cached.Some? then cached.value else s.own.value.0;
      var c := Config(t, s.own.value.1, Parsed(s.containers.value));
      ParsedPermuted(s.containers.value, s'.containers.value);
      PipelineIgnoresOrder(c, c.(services := Parsed(s'.containers.value)), env, files, true, net);
    }
  }

  /** Both absent, or the same up to order. */
  ghost predicate BothShuffled(c: Option<Config>, c': Option<Config>) {
    (c.Some? <==> c'.Some?) && (c.Some? ==> Shuffled(c.value, c'.value))
  }

  /** The same step, with what was loaded in another order. */
  ghost predicate StepShuffled(step: Step, step': Step) {
    BothShuffled(step.loaded, step'.loaded) &&
    match step
    case Poll(_, ready) => step'.Poll? && step'.ready == ready
    case Stop(_, container) => step'.Stop? && step'.container == container
  }

  lemma PrunedShuffled(c: Config, c': Config, container: string)
    requires Shuffled(c, c')
    ensures Shuffled(Pruned(c, container), Pruned(c', container))
  {
    if container != "" { FilterPermuted(Keeps(container), c.services, c'.services); }
  }

  /** Neither does it matter to what a step sends and remembers. */
  lemma SentIgnoresOrder(last: Option<Config>, last': Option<Config>, step: Step, step': Step)
    requires BothShuffled(last, last') && StepShuffled(step, step')
    requires last.Some? ==> UniqueNames(last.value.services)
    requires step.loaded.Some? ==> UniqueNames(step.loaded.value.services)
    ensures BothShuffled(Sent(last, step), Sent(last', step'))
    ensures BothShuffled(LastAfter(last, step), LastAfter(last', step'))
  {
    if step.loaded.Some? {
      var c, c' := step.loaded.value, step'.loaded.value;
      var p, p' := c, c';
      if step.Stop? {
        p, p' := Pruned(c, step.container), Pruned(c', step.container);
        PrunedShuffled(c, c', step.container);
        if step.container != "" { PrunedContents(c, step.container); }
      }
      if last.Some? {
        ConfigEqualIgnoresOrder(last.value.services, last'.value.services, p.services, p'.services);
      }
    }
  }

  /** The same loads with the containers listed in another order each time. */
  ghost predicate SameInputs(inputs: seq<Input>, inputs': seq<Input>) {
    |inputs| == |inputs'| &&
    forall i | 0 <= i < |inputs| :: SameAnswers(inputs[i].s, inputs'[i].s) && inputs[i].files == inputs'[i].files
  }

  /** Nor does the order matter to what any number of loads leave in the cache and the environment. */
  lemma {:induction false} LoadRunIgnoresOrder(c: Cache, inputs: seq<Input>, inputs': seq<Input>, net: Net)
    requires SameInputs(inputs, inputs')
    ensures LoadRun(c, inputs, net) == LoadRun(c, inputs', net)
  {
    if inputs != [] {
      var last := |inputs| - 1;
      LoadRunIgnoresOrder(c, inputs[..last], inputs'[..last], net);
      var before := LoadRun(c, inputs[..last], net);
      LoadIgnoresOrder(before.tailscale, inputs[last].s, inputs'[last].s, before.env, inputs[last].files, net);
    }
  }

  // ---------------------------------------------------------------- the settings survive every load

  ghost predicate Primed(c: Cache, t: Tailscale) {
    c.tailscale == Some(t) && Settled(t, c.env) && t.oauthPreauthorized.Some?
  }

  /** A load that finds settled settings in the cache leaves cache and environment alone and, when it
      succeeds, yields those settings. */
  lemma PrimedLoad(c: Cache, t: Tailscale, i: Input, net: Net)
    requires Primed(c, t)
    ensures LoadStep(c, i, net) == c
    ensures var r := Loaded(c.tailscale, i.s, c.env, i.files, net).result; r.Success? ==> r.value.tailscale == t
  {
    assert ResolveTailscale(t, c.env, i.files) == Resolution(Success(t), c.env);
    assert DefaultedTailscale(t) == t;
  }

  lemma {:induction false} PrimedRun(c: Cache, t: Tailscale, inputs: seq<Input>, net: Net)
    requires Primed(c, t)
    ensures LoadRun(c, inputs, net) == c
  {
    if inputs != [] {
      PrimedRun(c, t, inputs[..|inputs| - 1], net);
      PrimedLoad(c, t, inputs[|inputs| - 1], net);
    }
  }

  /** Load stability: after the first successful load, whatever labels and files the later loads
      find and however many of them fail, every success yields the settings of the first, although
      the variables they came from have been deleted. */
  lemma LoadsAreStable(c: Cache, first: Input, later: seq<Input>, final: Input, net: Net)
    requires c.tailscale.None? && Loaded(None, first.s, c.env, first.files, net).result.Success?
    ensures
      var t := Loaded(None, first.s, c.env, first.files, net).result.value.tailscale;
      var c' := LoadRun(LoadStep(c, first, net), later, net);
      var r := Loaded(c'.tailscale, final.s, c'.env, final.files, net).result;
      r.Success? ==> r.value.tailscale == t
  {
    var t := first.s.own.value.0;
    var cfg := Config(t, first.s.own.value.1, Parsed(first.s.containers.value));
    ProcessedSettles(cfg, c.env, first.files, true, net);
    var c1 := LoadStep(c, first, net);
    PrimedRun(c1, c1.tailscale.value, later, net);
    PrimedLoad(c1, c1.tailscale.value, final, net);
  }

  /** The load gets as far as the point where the auth keys are deleted from the environment. */
  predicate Reached(s: Snapshot, env: Vars, files: Files) {
    s.own.Some? && s.containers.Some? && SecretsResolve(s.own.value.0, env, files)
  }

  /** The auth key is left to TS_AUTHKEY. */
  predicate KeyLeftToEnvironment(s: Snapshot) {
    s.own.Some? && s.own.value.0.authKey == s.own.value.0.authKeyEnv == s.own.value.0.authKeyFile == ""
  }

  lemma LoadedEnvironment(s: Snapshot, env: Vars, files: Files, net: Net)
    ensures Loaded(None, s, env, files, net).env == if Reached(s, env, files) then Scrubbed(env) else env
  {
    if s.own.Some? && s.containers.Some? {
      var c := Config(s.own.value.0, s.own.value.1, Parsed(s.containers.value));
      ProcessedResolves(c, env, files, true, net);
      ResolvedEnvironment(c.tailscale, env, files);
    }
  }

  lemma ImplicitKey(s: Snapshot, env: Vars, files: Files, net: Net)
    requires KeyLeftToEnvironment(s)
    ensures var r := Loaded(None, s, env, files, net).result;
      r.Success? ==> r.value.tailscale.authKey == Getenv(env, AUTHKEY)
  {
    if s.containers.Some? {
      var c := Config(s.own.value.0, s.own.value.1, Parsed(s.containers.value));
      ProcessedResolves(c, env, files, true, net);
      ResolvedImplicitKey(c.tailscale, env, files);
    }
  }

  /** Load called again after a failed first call, where the labels leave the auth key to TS_AUTHKEY:
      the second call, when it succeeds, has the key exactly when there was none to lose, or the first
      call failed before it had resolved all three secrets. */
  lemma FailedFirstLoadLosesTheKey(s: Snapshot, s': Snapshot, env: Vars, files: Files, files': Files, net: Net)
    requires KeyLeftToEnvironment(s')
    requires Loaded(None, s, env, files, net).result.Failure?
    requires Loaded(None, s', Loaded(None, s, env, files, net).env, files', net).result.Success?
    ensures
      var out := Loaded(None, s, env, files, net);
      var key := Loaded(None, s', out.env, files', net).result.value.tailscale.authKey;
      key == Getenv(env, AUTHKEY) <==> Getenv(env, AUTHKEY) == "" || !Reached(s, env, files)
  {
    LoadedEnvironment(s, env, files, net);
    ImplicitKey(s', Loaded(None, s, env, files, net).env, files', net);
    assert Getenv(Scrubbed(env), AUTHKEY) == "";
  }

  const BLANK_TAILSCALE := Tailscale("", "", "", "", "", "", "", "", "", "", "", None, "", None)

  const BLANK_GLOBAL := Global(None, None, [], "", None, None, None, None, None, None, None, None, None, None,
                               None, None, None)

  const PLAIN_SERVICE := Service("web", "web:80", "", None, None, "", None, None, None, None, None, None, None, None,
                                 None, false, None, None, None, None, None, None, None)

  const TWIN_SERVICES := [Some(PLAIN_SERVICE), Some(PLAIN_SERVICE)]

  lemma NothingIsLoaded(env: Vars, files: Files, net: Net)
    requires Getenv(env, OAUTH_CLIENT_ID) == Getenv(env, OAUTH_CLIENT_SECRET) == ""
    ensures Loaded(None, Snapshot(Some((BLANK_TAILSCALE, BLANK_GLOBAL)), Some([])), env, files, net).result.Success?
  {
    var t := ResolveTailscale(BLANK_TAILSCALE, env, files).result.value;
    assert Parsed([]) == [];
    assert OAuthOk(t);
    assert GlobalOk(DefaultedGlobal(BLANK_GLOBAL), net);
  }

  lemma TwinsParse()
    ensures Parsed(TWIN_SERVICES) == [PLAIN_SERVICE, PLAIN_SERVICE]
  {
    assert TWIN_SERVICES[..1] == [Some(PLAIN_SERVICE)] && [Some(PLAIN_SERVICE)][..0] == [];
    assert Parsed([Some(PLAIN_SERVICE)]) == [PLAIN_SERVICE];
  }

  lemma TwinsAreInvalid(c: Config, docker: bool, net: Net)
    requires |c.services| == 2 && c.services[0].name == c.services[1].name
    ensures !Validated(Completed(c), docker, net)
  {
    assert Completed(c).services[0].name == Completed(c).services[1].name;
  }

  lemma TwinsAreRefused(env: Vars, files: Files, net: Net)
    requires Getenv(env, OAUTH_CLIENT_ID) == Getenv(env, OAUTH_CLIENT_SECRET) == ""
    ensures Loaded(None, Snapshot(Some((BLANK_TAILSCALE, BLANK_GLOBAL)), Some(TWIN_SERVICES)), env, files, net).result
      == Failure(NotProcessed(Invalid))
  {
    TwinsParse();
    var c := Config(BLANK_TAILSCALE, BLANK_GLOBAL, [PLAIN_SERVICE, PLAIN_SERVICE]);
    TwinsAreInvalid(c.(tailscale := ResolveTailscale(BLANK_TAILSCALE, env, files).result.value), true, net);
  }

  /** One such pair of calls: the first finds two containers that claim the same service name, the
      second finds none. */
  lemma TheKeyCanBeLost(files: Files, net: Net)
    ensures
      var s := Snapshot(Some((BLANK_TAILSCALE, BLANK_GLOBAL)), Some(TWIN_SERVICES));
      var s' := Snapshot(Some((BLANK_TAILSCALE, BLANK_GLOBAL)), Some([]));
      var env: Vars := map[AUTHKEY := "k"];
      var first := Loaded(None, s, env, files, net);
      var alone, second := Loaded(None, s', env, files, net), Loaded(None, s', first.env, files, net);
      && first.result == Failure(NotProcessed(Invalid))
      && alone.result.Success? && alone.result.value.tailscale.authKey == "k"
      && second.result.Success? && second.result.value.tailscale.authKey == ""
  {
    var s := Snapshot(Some((BLANK_TAILSCALE, BLANK_GLOBAL)), Some(TWIN_SERVICES));
    var s' := Snapshot(Some((BLANK_TAILSCALE, BLANK_GLOBAL)), Some([]));
    var env: Vars := map[AUTHKEY := "k"];
    TwinsAreRefused(env, files, net);
    LoadedEnvironment(s, env, files, net);
    NothingIsLoaded(env, files, net);
    NothingIsLoaded(Scrubbed(env), files, net);
    ImplicitKey(s', env, files, net);
    ImplicitKey(s', Scrubbed(env), files, net);
  }
}
