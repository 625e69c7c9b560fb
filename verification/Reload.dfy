/** Reloads, one after another: the plan of internal/app/reload.go, the automaton it amounts to for
    each service name, and what every run keeps. */
module Reload {
  import opened Wrappers
  import opened ConfigModel
  import opened Compare
  import opened Filters
  import opened Diff
  import opened Lifecycle

  function Removes(names: seq<string>): (ops: seq<Op>)
    ensures |ops| == |names| && forall i | 0 <= i < |ops| :: ops[i] == Remove(names[i])
  {
    seq(|names|, i requires 0 <= i < |names| => Remove(names[i]))
  }

  function Adds(ss: seq<Service>): (ops: seq<Op>)
    ensures |ops| == |ss| && forall i | 0 <= i < |ops| :: ops[i] == Add(ss[i])
  {
    seq(|ss|, i requires 0 <= i < |ss| => Add(ss[i]))
  }

  function Updates(ss: seq<Service>): (ops: seq<Op>)
    ensures |ops| == |ss| && forall i | 0 <= i < |ops| :: ops[i] == Update(ss[i])
  {
    seq(|ss|, i requires 0 <= i < |ss| => Update(ss[i]))
  }

  /** The operations of one reload, in the order reloadConfigWithRegistry runs them. */
  function Plan(before: seq<Service>, after: seq<Service>): seq<Op> {
    Removes(ToRemove(before, after)) + Adds(ToAdd(before, after)) + Updates(ToUpdate(before, after))
  }

  /** What the plan does about one name, from the two configurations' entries for it. */
  function Planned(was: Option<Service>, want: Option<Service>): Option<Op> {
    match (was, want)
    case (None, None) => None
    case (Some(s), None) => Some(Remove(s.name))
    case (None, Some(t)) => Some(Add(t))
    case (Some(s), Some(t)) => if ServiceConfigEqual(s, t) then None else Some(Update(t))
  }

  lemma PlanKind(before: seq<Service>, after: seq<Service>, k: nat)
    requires k < |Plan(before, after)|
    ensures Plan(before, after)[k].Remove? <==> k < |ToRemove(before, after)|
    ensures Plan(before, after)[k].Update? <==> k >= |ToRemove(before, after)| + |ToAdd(before, after)|
  {
    var r, a, u := Removes(ToRemove(before, after)), Adds(ToAdd(before, after)), Updates(ToUpdate(before, after));
    assert Plan(before, after)[k] ==
      if k < |r| then r[k] else if k < |r| + |a| then a[k - |r|] else u[k - |r| - |a|];
  }

  /** Removals come first, then additions, then updates. */
  lemma PlanOrder(before: seq<Service>, after: seq<Service>, i: nat, j: nat)
    requires i < j < |Plan(before, after)|
    ensures Plan(before, after)[j].Remove? ==> Plan(before, after)[i].Remove?
    ensures Plan(before, after)[j].Add? ==> !Plan(before, after)[i].Update?
  {
    PlanKind(before, after, i);
    PlanKind(before, after, j);
  }

  lemma {:induction false} AtConcat(xs: seq<Op>, ys: seq<Op>, n: string)
    ensures At(xs + ys, n) == if At(ys, n).Some? then At(ys, n) else At(xs, n)
  {
    if ys == [] {
      assert xs + ys == xs;
    } else {
      assert (xs + ys)[..|xs + ys| - 1] == xs + ys[..|ys| - 1];
      AtConcat(xs, ys[..|ys| - 1], n);
    }
  }

  lemma DistinctConcat(xs: seq<Op>, ys: seq<Op>)
    requires DistinctNames(xs) && DistinctNames(ys)
    requires forall n :: At(xs, n).None? || At(ys, n).None?
    ensures DistinctNames(xs + ys)
  {
    forall i, j | 0 <= i < |xs| && 0 <= j < |ys| ensures OpName(xs[i]) != OpName(ys[j]) {
      AtFinds(xs, OpName(xs[i]));
      AtFinds(ys, OpName(xs[i]));
    }
  }

  lemma {:induction false} RemovesAt(ss: seq<Service>, n: string)
    ensures At(Removes(Names(ss)), n) == if n in ByName(ss) then Some(Remove(n)) else None
  {
    if ss != [] {
      RemovesAt(ss[..|ss| - 1], n);
      assert Removes(Names(ss))[..|ss| - 1] == Removes(Names(ss[..|ss| - 1]));
    }
  }

  lemma {:induction false} AddsAt(ss: seq<Service>, n: string)
    ensures At(Adds(ss), n) == if n in ByName(ss) then Some(Add(ByName(ss)[n])) else None
  {
    if ss != [] {
      AddsAt(ss[..|ss| - 1], n);
      assert Adds(ss)[..|ss| - 1] == Adds(ss[..|ss| - 1]);
    }
  }

  lemma {:induction false} UpdatesAt(ss: seq<Service>, n: string)
    ensures At(Updates(ss), n) == if n in ByName(ss) then Some(Update(ByName(ss)[n])) else None
  {
    if ss != [] {
      UpdatesAt(ss[..|ss| - 1], n);
      assert Updates(ss)[..|ss| - 1] == Updates(ss[..|ss| - 1]);
    }
  }

  /** The three lists of a plan at one name: at most one of them has it. */
  lemma ListsAt(before: seq<Service>, after: seq<Service>, n: string)
    requires UniqueNames(before) && UniqueNames(after)
    ensures var op := Planned(Get(ByName(before), n), Get(ByName(after), n));
      && At(Removes(ToRemove(before, after)), n) == (if op.Some? && op.value.Remove? then op else None)
      && At(Adds(ToAdd(before, after)), n) == (if op.Some? && op.value.Add? then op else None)
      && At(Updates(ToUpdate(before, after)), n) == (if op.Some? && op.value.Update? then op else None)
  {
    ByNameContents(before);
    ByNameContents(after);
    RemovesAt(Filter(Gone(after), before), n);
    SelectedEntry(Gone(after), before, n);
    AddsAt(ToAdd(before, after), n);
    SelectedEntry(Gone(before), after, n);
    UpdatesAt(ToUpdate(before, after), n);
    SelectedEntry(Changed(before), after, n);
  }

  /** The three lists never name a service twice. */
  lemma PlanDistinct(before: seq<Service>, after: seq<Service>)
    requires UniqueNames(before) && UniqueNames(after)
    ensures DistinctNames(Plan(before, after))
  {
    var r, a, u := Removes(ToRemove(before, after)), Adds(ToAdd(before, after)), Updates(ToUpdate(before, after));
    SelectedUnique(Gone(after), before);
    SelectedUnique(Gone(before), after);
    SelectedUnique(Changed(before), after);
    forall n ensures (At(r, n).None? || At(a, n).None?) && (At(r + a, n).None? || At(u, n).None?) {
      ListsAt(before, after, n);
      AtConcat(r, a, n);
    }
    DistinctConcat(r, a);
    DistinctConcat(r + a, u);
  }

  /** The plan, name by name. */
  lemma PlanAt(before: seq<Service>, after: seq<Service>, n: string)
    requires UniqueNames(before) && UniqueNames(after)
    ensures At(Plan(before, after), n) == Planned(Get(ByName(before), n), Get(ByName(after), n))
  {
    var r, a, u := Removes(ToRemove(before, after)), Adds(ToAdd(before, after)), Updates(ToUpdate(before, after));
    ListsAt(before, after, n);
    AtConcat(r, a, n);
    AtConcat(r + a, u, n);
  }

  /** App.cfg and the registry. */
  datatype Bridge = Bridge(cfg: Config, running: map<string, Running>)

  /** One reload request and how the outside world responds to each name's operation. */
  datatype Request = Request(cfg: Config, w: string -> Outcome)

  function ReloadProgress(ts: Tailscale, b: Bridge, r: Request): Progress {
    Exec(ts, Progress(b.running, EMPTY_LEDGER), Plan(b.cfg.services, r.cfg.services), r.w)
  }

  /** ReloadConfig: run the plan, then adopt the new configuration whatever failed. */
  function ReloadStep(ts: Tailscale, b: Bridge, r: Request): Bridge {
    Bridge(r.cfg, ReloadProgress(ts, b, r).running)
  }

  function Run(ts: Tailscale, b: Bridge, rs: seq<Request>): Bridge {
    if rs == [] then b else ReloadStep(ts, Run(ts, b, rs[..|rs| - 1]), rs[|rs| - 1])
  }

  // ---------------------------------------------------------------- one name at a time

  /** All that a bridge says of one name: what is wanted and what runs. */
  datatype Slot = Slot(wanted: Option<Service>, running: Option<Running>)

  /** All that a request says of one name. */
  datatype Turn = Turn(wanted: Option<Service>, o: Outcome)

  function SlotOf(b: Bridge, n: string): Slot {
    Slot(Get(ByName(b.cfg.services), n), Get(b.running, n))
  }

  function TurnOf(r: Request, n: string): Turn {
    Turn(Get(ByName(r.cfg.services), n), r.w(n))
  }

  function TurnsOf(rs: seq<Request>, n: string): (ts: seq<Turn>)
    ensures |ts| == |rs| && forall i | 0 <= i < |rs| :: ts[i] == TurnOf(rs[i], n)
  {
    seq(|rs|, i requires 0 <= i < |rs| => TurnOf(rs[i], n))
  }

  /** The error the name's operation returns in a turn, None when it has no operation or it succeeds. */
  function SlotError(ts: Tailscale, s: Slot, t: Turn): Option<OpError> {
    SlotAfter(ts, Planned(s.wanted, t.wanted), s.running, t.o).1
  }

  function SlotStep(ts: Tailscale, s: Slot, t: Turn): Slot {
    Slot(t.wanted, SlotAfter(ts, Planned(s.wanted, t.wanted), s.running, t.o).0)
  }

  function SlotRun(ts: Tailscale, s: Slot, turns: seq<Turn>): Slot {
    if turns == [] then s else SlotStep(ts, SlotRun(ts, s, turns[..|turns| - 1]), turns[|turns| - 1])
  }

  ghost predicate AllUnique(b: Bridge, rs: seq<Request>) {
    UniqueNames(b.cfg.services) && forall i | 0 <= i < |rs| :: UniqueNames(rs[i].cfg.services)
  }

  lemma {:induction false} RunConfig(ts: Tailscale, b: Bridge, rs: seq<Request>)
    ensures Run(ts, b, rs).cfg == if rs == [] then b.cfg else rs[|rs| - 1].cfg
  {
  }

  lemma StepRefines(ts: Tailscale, b: Bridge, r: Request, n: string)
    requires UniqueNames(b.cfg.services) && UniqueNames(r.cfg.services)
    ensures SlotOf(ReloadStep(ts, b, r), n) == SlotStep(ts, SlotOf(b, n), TurnOf(r, n))
  {
    PlanDistinct(b.cfg.services, r.cfg.services);
    PlanAt(b.cfg.services, r.cfg.services, n);
    ExecAt(ts, Progress(b.running, EMPTY_LEDGER), Plan(b.cfg.services, r.cfg.services), r.w, n);
  }

  /** Refinement: any run of reloads, under any pattern of failures, seen at one name is a run of
      that name's own small machine, which never looks at another name. */
  lemma {:induction false} RunRefines(ts: Tailscale, b: Bridge, rs: seq<Request>, n: string)
    requires AllUnique(b, rs)
    ensures SlotOf(Run(ts, b, rs), n) == SlotRun(ts, SlotOf(b, n), TurnsOf(rs, n))
  {
    if rs != [] {
      var front := rs[..|rs| - 1];
      RunRefines(ts, b, front, n);
      RunConfig(ts, b, front);
      assert TurnsOf(rs, n)[..|rs| - 1] == TurnsOf(front, n);
      StepRefines(ts, Run(ts, b, front), rs[|rs| - 1], n);
    }
  }

  /** A failure of one name never changes another: two runs that agree about a name, however they
      differ about all others, leave that name in the same state. */
  lemma FailuresAreIsolated(ts: Tailscale, b: Bridge, rs: seq<Request>, b': Bridge, rs': seq<Request>, n: string)
    requires AllUnique(b, rs) && AllUnique(b', rs')
    requires SlotOf(b, n) == SlotOf(b', n)
    requires |rs| == |rs'| && forall i | 0 <= i < |rs| :: TurnOf(rs[i], n) == TurnOf(rs'[i], n)
    ensures SlotOf(Run(ts, b, rs), n) == SlotOf(Run(ts, b', rs'), n)
  {
    RunRefines(ts, b, rs, n);
    RunRefines(ts, b', rs', n);
    assert TurnsOf(rs, n) == TurnsOf(rs', n);
  }

  // ---------------------------------------------------------------- the automaton

  datatype Phase = Absent | Aligned | Missing | Stale | Unwanted

  function PhaseOf(s: Slot): Phase {
    match (s.wanted, s.running)
    case (None, None) => Absent
    case (Some(_), None) => Missing
    case (None, Some(_)) => Unwanted
    case (Some(want), Some(run)) => if ServiceConfigEqual(run.config, want) then Aligned else Stale
  }

  datatype Change = Ignored | Kept | Introduced | Dropped | Modified

  function ChangeOf(was: Option<Service>, want: Option<Service>): Change {
    match (was, want)
    case (None, None) => Ignored
    case (None, Some(_)) => Introduced
    case (Some(_), None) => Dropped
    case (Some(s), Some(t)) => if ServiceConfigEqual(s, t) then Kept else Modified
  }

  /** The automaton. `fits` says that what runs already matches the new entry. */
  function NextPhase(p: Phase, c: Change, fits: bool, acceptable: bool, stops: bool, starts: bool): Phase {
    match c
    case Ignored => p
    case Kept => p
    case Introduced =>
      if p == Unwanted then (if fits then Aligned else Stale)
      else if starts then Aligned else Missing
    case Dropped => if p == Missing || stops then Absent else Unwanted
    case Modified =>
      if p == Missing then Missing
      else if !acceptable || !stops then (if fits then Aligned else Stale)
      else if starts then Aligned else Missing
  }

  lemma SlotFollowsAutomaton(ts: Tailscale, s: Slot, t: Turn)
    ensures PhaseOf(SlotStep(ts, s, t)) ==
      NextPhase(PhaseOf(s), ChangeOf(s.wanted, t.wanted),
        s.running.Some? && t.wanted.Some? && ServiceConfigEqual(s.running.value.config, t.wanted.value),
        t.wanted.Some? && Acceptable(t.wanted.value, t.o), t.o.stops,
        t.wanted.Some? && Starts(ts, t.wanted.value, t.o))
  {
    if t.wanted.Some? {
      EqualIsAnEquivalence(t.wanted.value, t.wanted.value, t.wanted.value);
      if s.wanted.Some? && s.running.Some? {
        EqualIsAnEquivalence(s.running.value.config, s.wanted.value, t.wanted.value);
        EqualIsAnEquivalence(s.wanted.value, t.wanted.value, s.wanted.value);
        EqualIsAnEquivalence(s.running.value.config, t.wanted.value, s.wanted.value);
      }
    }
  }

  /** The error table beside the automaton: what the name's operation returns. */
  function NextError(p: Phase, c: Change, acceptable: bool, stops: bool, starts: bool): Option<OpError> {
    match c
    case Ignored => None
    case Kept => None
    case Introduced =>
      if p == Unwanted then Some(AlreadyExists) else if starts then None else Some(StartFailed)
    case Dropped => if p == Missing then Some(NotFound) else if stops then None else Some(StopFailed)
    case Modified =>
      if p == Missing then Some(NotFound)
      else if !acceptable then Some(InvalidConfig)
      else if !stops then Some(StopFailed)
      else if starts then None
      else Some(StartFailed)
  }

  lemma ErrorFollowsAutomaton(ts: Tailscale, s: Slot, t: Turn)
    ensures SlotError(ts, s, t) ==
      NextError(PhaseOf(s), ChangeOf(s.wanted, t.wanted),
        t.wanted.Some? && Acceptable(t.wanted.value, t.o), t.o.stops,
        t.wanted.Some? && Starts(ts, t.wanted.value, t.o))
  {
  }

  /** What the reported error says about the registry: after success the name has what was asked for, a
      failed start leaves nothing, a failed stop silences, and every other error changes nothing. */
  lemma RegisteredFollowsError(ts: Tailscale, s: Slot, t: Turn)
    requires Planned(s.wanted, t.wanted).Some?
    ensures SlotStep(ts, s, t).running ==
      match SlotError(ts, s, t)
      case None => (match t.wanted case Some(want) => Some(Running(want, true)) case None => None)
      case Some(StartFailed) => None
      case Some(StopFailed) => (match s.running case Some(r) => Some(Running(r.config, false)) case None => None)
      case Some(_) => s.running
  {
  }

  predicate InStep(p: Phase) {
    p == Absent || p == Aligned
  }

  /** A name that is in step stays in step exactly when its operation succeeds. */
  lemma InStepIffNoError(ts: Tailscale, s: Slot, t: Turn)
    requires InStep(PhaseOf(s))
    ensures InStep(PhaseOf(SlotStep(ts, s, t))) <==> SlotError(ts, s, t).None?
  {
    if t.wanted.Some? {
      EqualIsAnEquivalence(t.wanted.value, t.wanted.value, t.wanted.value);
      if s.wanted.Some? && s.running.Some? {
        EqualIsAnEquivalence(s.running.value.config, s.wanted.value, t.wanted.value);
        EqualIsAnEquivalence(s.running.value.config, t.wanted.value, t.wanted.value);
        EqualIsAnEquivalence(s.running.value.config, s.wanted.value, s.wanted.value);
        EqualIsAnEquivalence(s.wanted.value, s.running.value.config, t.wanted.value);
      }
    }
  }

  /** No reload of the run fails an operation on the name. */
  predicate CleanRun(ts: Tailscale, b: Bridge, rs: seq<Request>, n: string) {
    rs == [] ||
    var before := Run(ts, b, rs[..|rs| - 1]);
    CleanRun(ts, b, rs[..|rs| - 1], n) && SlotError(ts, SlotOf(before, n), TurnOf(rs[|rs| - 1], n)).None?
  }

  /** Over a whole run: as long as no operation on the name failed, the name runs exactly when the
      current configuration has it, with an equal configuration. */
  lemma {:induction false} CleanNameStaysInStep(ts: Tailscale, b: Bridge, rs: seq<Request>, n: string)
    requires AllUnique(b, rs) && InStep(PhaseOf(SlotOf(b, n))) && CleanRun(ts, b, rs, n)
    ensures InStep(PhaseOf(SlotOf(Run(ts, b, rs), n)))
  {
    if rs != [] {
      var front := rs[..|rs| - 1];
      CleanNameStaysInStep(ts, b, front, n);
      RunConfig(ts, b, front);
      CleanStep(ts, Run(ts, b, front), rs[|rs| - 1], n);
    }
  }

  lemma CleanStep(ts: Tailscale, b: Bridge, r: Request, n: string)
    requires UniqueNames(b.cfg.services) && UniqueNames(r.cfg.services) && InStep(PhaseOf(SlotOf(b, n)))
    ensures InStep(PhaseOf(SlotOf(ReloadStep(ts, b, r), n))) <==> SlotError(ts, SlotOf(b, n), TurnOf(r, n)).None?
  {
    StepRefines(ts, b, r, n);
    InStepIffNoError(ts, SlotOf(b, n), TurnOf(r, n));
  }

  /** A wanted service that is not running is never started again while every configuration has it. */
  lemma {:induction false} MissingWhileWanted(ts: Tailscale, s: Slot, turns: seq<Turn>)
    requires PhaseOf(s) == Missing
    requires forall i | 0 <= i < |turns| :: turns[i].wanted.Some?
    ensures PhaseOf(SlotRun(ts, s, turns)) == Missing
  {
    if turns != [] { MissingWhileWanted(ts, s, turns[..|turns| - 1]); }
  }

  /** It comes back in step exactly at the first reload that omits it. */
  lemma MissingUntilOmitted(ts: Tailscale, b: Bridge, rs: seq<Request>, n: string)
    requires AllUnique(b, rs) && PhaseOf(SlotOf(b, n)) == Missing
    requires rs != [] && forall i | 0 <= i < |rs| - 1 :: n in ByName(rs[i].cfg.services)
    ensures forall k | 0 <= k < |rs| :: PhaseOf(SlotOf(Run(ts, b, rs[..k]), n)) == Missing
    ensures InStep(PhaseOf(SlotOf(Run(ts, b, rs), n))) <==> n !in ByName(rs[|rs| - 1].cfg.services)
  {
    forall k | 0 <= k < |rs| ensures PhaseOf(SlotOf(Run(ts, b, rs[..k]), n)) == Missing {
      MissingPrefix(ts, b, rs[..k], n);
    }
    RunConfig(ts, b, rs[..|rs| - 1]);
    MissingStep(ts, Run(ts, b, rs[..|rs| - 1]), rs[|rs| - 1], n);
  }

  lemma MissingStep(ts: Tailscale, b: Bridge, r: Request, n: string)
    requires UniqueNames(b.cfg.services) && UniqueNames(r.cfg.services) && PhaseOf(SlotOf(b, n)) == Missing
    ensures InStep(PhaseOf(SlotOf(ReloadStep(ts, b, r), n))) <==> n !in ByName(r.cfg.services)
  {
    StepRefines(ts, b, r, n);
  }

  lemma MissingPrefix(ts: Tailscale, b: Bridge, rs: seq<Request>, n: string)
    requires AllUnique(b, rs) && PhaseOf(SlotOf(b, n)) == Missing
    requires forall i | 0 <= i < |rs| :: n in ByName(rs[i].cfg.services)
    ensures PhaseOf(SlotOf(Run(ts, b, rs), n)) == Missing
  {
    RunRefines(ts, b, rs, n);
    MissingWhileWanted(ts, SlotOf(b, n), TurnsOf(rs, n));
  }

  lemma {:induction false} UnwantedWhileIgnored(ts: Tailscale, s: Slot, turns: seq<Turn>)
    requires PhaseOf(s) == Unwanted
    requires forall i | 0 <= i < |turns| :: turns[i].wanted.None?
    ensures SlotRun(ts, s, turns) == s
  {
    if turns != [] { UnwantedWhileIgnored(ts, s, turns[..|turns| - 1]); }
  }

  lemma UnwantedPrefix(ts: Tailscale, b: Bridge, rs: seq<Request>, n: string)
    requires AllUnique(b, rs) && PhaseOf(SlotOf(b, n)) == Unwanted
    requires forall i | 0 <= i < |rs| :: n !in ByName(rs[i].cfg.services)
    ensures SlotOf(Run(ts, b, rs), n) == SlotOf(b, n)
  {
    RunRefines(ts, b, rs, n);
    UnwantedWhileIgnored(ts, SlotOf(b, n), TurnsOf(rs, n));
  }

  lemma UnwantedStep(ts: Tailscale, b: Bridge, r: Request, n: string)
    requires UniqueNames(b.cfg.services) && UniqueNames(r.cfg.services) && PhaseOf(SlotOf(b, n)) == Unwanted
    ensures
      var s, want := SlotOf(ReloadStep(ts, b, r), n), Get(ByName(r.cfg.services), n);
      InStep(PhaseOf(s)) <==> want.Some? && ServiceConfigEqual(b.running[n].config, want.value)
  {
    StepRefines(ts, b, r, n);
  }

  /** A service whose removal failed is forgotten: while it stays out of the configuration no reload
      tries to remove it again and it stays registered as it is. It is back in step exactly at a reload
      that asks for what is registered. */
  lemma UnwantedUntilWantedAsIs(ts: Tailscale, b: Bridge, rs: seq<Request>, n: string)
    requires AllUnique(b, rs) && PhaseOf(SlotOf(b, n)) == Unwanted
    requires rs != [] && forall i | 0 <= i < |rs| - 1 :: n !in ByName(rs[i].cfg.services)
    ensures forall k | 0 <= k < |rs| :: SlotOf(Run(ts, b, rs[..k]), n) == SlotOf(b, n)
    ensures
      var want := Get(ByName(rs[|rs| - 1].cfg.services), n);
      InStep(PhaseOf(SlotOf(Run(ts, b, rs), n))) <==> want.Some? && ServiceConfigEqual(b.running[n].config, want.value)
  {
    forall k | 0 <= k < |rs| ensures SlotOf(Run(ts, b, rs[..k]), n) == SlotOf(b, n) {
      UnwantedPrefix(ts, b, rs[..k], n);
    }
    var before := Run(ts, b, rs[..|rs| - 1]);
    RunConfig(ts, b, rs[..|rs| - 1]);
    assert SlotOf(before, n) == SlotOf(b, n);
    UnwantedStep(ts, before, rs[|rs| - 1], n);
  }

  // ---------------------------------------------------------------- stale names

  /** Turns that all ask for what is wanted already. */
  predicate Keeping(s: Slot, turns: seq<Turn>) {
    s.wanted.Some? &&
    forall i | 0 <= i < |turns| :: turns[i].wanted.Some? && ServiceConfigEqual(s.wanted.value, turns[i].wanted.value)
  }

  /** They do nothing, whatever is registered. */
  lemma {:induction false} KeptAsItIs(ts: Tailscale, s: Slot, turns: seq<Turn>)
    requires Keeping(s, turns)
    ensures
      var s' := SlotRun(ts, s, turns);
      s'.running == s.running && s'.wanted.Some? && ServiceConfigEqual(s.wanted.value, s'.wanted.value)
  {
    EqualIsAnEquivalence(s.wanted.value, s.wanted.value, s.wanted.value);
    if turns != [] {
      var front, last := turns[..|turns| - 1], turns[|turns| - 1].wanted.value;
      KeptAsItIs(ts, s, front);
      var wanted := SlotRun(ts, s, front).wanted.value;
      EqualIsAnEquivalence(s.wanted.value, wanted, last);
      EqualIsAnEquivalence(wanted, s.wanted.value, last);
    }
  }

  /** Requests that all keep the name's entry. */
  predicate KeepsEntry(b: Bridge, rs: seq<Request>, n: string) {
    Keeping(SlotOf(b, n), TurnsOf(rs, n))
  }

  lemma KeptPrefix(ts: Tailscale, b: Bridge, rs: seq<Request>, n: string)
    requires AllUnique(b, rs) && KeepsEntry(b, rs, n)
    ensures
      var s, s' := SlotOf(b, n), SlotOf(Run(ts, b, rs), n);
      && s'.running == s.running && PhaseOf(s') == PhaseOf(s)
      && s'.wanted.Some? && ServiceConfigEqual(s.wanted.value, s'.wanted.value)
  {
    var s := SlotOf(b, n);
    RunRefines(ts, b, rs, n);
    KeptAsItIs(ts, s, TurnsOf(rs, n));
    var s' := SlotOf(Run(ts, b, rs), n);
    if s.running.Some? {
      EqualIsAnEquivalence(s.running.value.config, s.wanted.value, s'.wanted.value);
      EqualIsAnEquivalence(s.wanted.value, s'.wanted.value, s.running.value.config);
      EqualIsAnEquivalence(s.running.value.config, s'.wanted.value, s.wanted.value);
    }
  }

  /** The way back for a stale name: it is dropped and stops, or its entry changes and either the
      restart goes through or, when there is none, the new entry is what is registered. */
  predicate Recovers(ts: Tailscale, wanted: Service, config: Service, t: Turn) {
    if t.wanted.None? then t.o.stops
    else
      && !ServiceConfigEqual(wanted, t.wanted.value)
      && (if Acceptable(t.wanted.value, t.o) && t.o.stops then Starts(ts, t.wanted.value, t.o)
          else ServiceConfigEqual(config, t.wanted.value))
  }

  lemma StaleStep(ts: Tailscale, s: Slot, t: Turn)
    requires PhaseOf(s) == Stale
    ensures InStep(PhaseOf(SlotStep(ts, s, t))) <==> Recovers(ts, s.wanted.value, s.running.value.config, t)
  {
    SlotFollowsAutomaton(ts, s, t);
  }

  lemma RecoversAlike(ts: Tailscale, wanted: Service, wanted': Service, config: Service, t: Turn)
    requires ServiceConfigEqual(wanted, wanted')
    ensures Recovers(ts, wanted, config, t) == Recovers(ts, wanted', config, t)
  {
    if t.wanted.Some? {
      EqualIsAnEquivalence(wanted, wanted', t.wanted.value);
      EqualIsAnEquivalence(wanted', wanted, t.wanted.value);
    }
  }

  /** A name that runs with another configuration than the wanted one is not touched by any reload that
      keeps its entry, and is back in step exactly at one that recovers it. */
  lemma StaleUntilChanged(ts: Tailscale, b: Bridge, rs: seq<Request>, n: string)
    requires AllUnique(b, rs) && PhaseOf(SlotOf(b, n)) == Stale
    requires rs != [] && KeepsEntry(b, rs[..|rs| - 1], n)
    ensures forall k | 0 <= k < |rs| ::
      PhaseOf(SlotOf(Run(ts, b, rs[..k]), n)) == Stale && Get(Run(ts, b, rs[..k]).running, n) == Get(b.running, n)
    ensures InStep(PhaseOf(SlotOf(Run(ts, b, rs), n)))
      <==> Recovers(ts, ByName(b.cfg.services)[n], b.running[n].config, TurnOf(rs[|rs| - 1], n))
  {
    var last := |rs| - 1;
    forall k | 0 <= k < |rs|
      ensures PhaseOf(SlotOf(Run(ts, b, rs[..k]), n)) == Stale
      ensures Get(Run(ts, b, rs[..k]).running, n) == Get(b.running, n)
    {
      assert TurnsOf(rs[..k], n) == TurnsOf(rs[..last], n)[..k];
      KeptPrefix(ts, b, rs[..k], n);
    }
    KeptPrefix(ts, b, rs[..last], n);
    var before := Run(ts, b, rs[..last]);
    RunConfig(ts, b, rs[..last]);
    StepRefines(ts, before, rs[last], n);
    StaleStep(ts, SlotOf(before, n), TurnOf(rs[last], n));
    var wanted := SlotOf(before, n).wanted.value;
    RecoversAlike(ts, ByName(b.cfg.services)[n], wanted, b.running[n].config, TurnOf(rs[last], n));
  }

  // ---------------------------------------------------------------- accepting connections

  /** Whatever is registered under the name accepts connections. */
  predicate Audible(s: Slot) {
    s.running.Some? ==> s.running.value.listening
  }

  /** The turn runs an operation on the name, and it succeeds. */
  predicate Succeeds(ts: Tailscale, s: Slot, t: Turn) {
    Planned(s.wanted, t.wanted).Some? && SlotError(ts, s, t).None?
  }

  lemma AudibleStep(ts: Tailscale, s: Slot, t: Turn)
    requires SlotStep(ts, s, t).running.Some?
    ensures Audible(SlotStep(ts, s, t)) <==>
      SlotError(ts, s, t) != Some(StopFailed) && (Audible(s) || Succeeds(ts, s, t))
  {
  }

  /** In the k-th turn the registered service could not be stopped. */
  predicate StopFailsAt(ts: Tailscale, s: Slot, turns: seq<Turn>, k: nat)
    requires k < |turns|
  {
    SlotError(ts, SlotRun(ts, s, turns[..k]), turns[k]) == Some(StopFailed)
  }

  predicate SucceedsAt(ts: Tailscale, s: Slot, turns: seq<Turn>, k: nat)
    requires k < |turns|
  {
    Succeeds(ts, SlotRun(ts, s, turns[..k]), turns[k])
  }

  /** Every failed stop was followed by a successful operation. */
  predicate EveryStopMadeUp(ts: Tailscale, s: Slot, turns: seq<Turn>) {
    forall k | 0 <= k < |turns| && StopFailsAt(ts, s, turns, k) ::
      exists j | k < j < |turns| :: SucceedsAt(ts, s, turns, j)
  }

  lemma SameTurns(ts: Tailscale, s: Slot, turns: seq<Turn>, k: nat)
    requires k < |turns| - 1
    ensures StopFailsAt(ts, s, turns[..|turns| - 1], k) == StopFailsAt(ts, s, turns, k)
    ensures SucceedsAt(ts, s, turns[..|turns| - 1], k) == SucceedsAt(ts, s, turns, k)
  {
    assert turns[..|turns| - 1][..k] == turns[..k];
  }

  lemma MadeUpBefore(ts: Tailscale, s: Slot, turns: seq<Turn>)
    requires turns != [] && EveryStopMadeUp(ts, s, turns) && !SucceedsAt(ts, s, turns, |turns| - 1)
    ensures EveryStopMadeUp(ts, s, turns[..|turns| - 1])
  {
    var front, last := turns[..|turns| - 1], |turns| - 1;
    forall k | 0 <= k < last && StopFailsAt(ts, s, front, k)
      ensures exists j | k < j < last :: SucceedsAt(ts, s, front, j)
    {
      SameTurns(ts, s, turns, k);
      var j :| k < j < |turns| && SucceedsAt(ts, s, turns, j);
      SameTurns(ts, s, turns, j);
    }
  }

  lemma MadeUpAfter(ts: Tailscale, s: Slot, turns: seq<Turn>)
    requires turns != [] && EveryStopMadeUp(ts, s, turns[..|turns| - 1]) && !StopFailsAt(ts, s, turns, |turns| - 1)
    ensures EveryStopMadeUp(ts, s, turns)
  {
    var front, last := turns[..|turns| - 1], |turns| - 1;
    forall k | 0 <= k < |turns| && StopFailsAt(ts, s, turns, k)
      ensures exists j | k < j < |turns| :: SucceedsAt(ts, s, turns, j)
    {
      SameTurns(ts, s, turns, k);
      var j :| k < j < last && SucceedsAt(ts, s, front, j);
      SameTurns(ts, s, turns, j);
    }
  }

  lemma MadeUpStep(ts: Tailscale, s: Slot, turns: seq<Turn>)
    requires turns != []
    ensures
      var last := |turns| - 1;
      EveryStopMadeUp(ts, s, turns) <==>
        !StopFailsAt(ts, s, turns, last) && (EveryStopMadeUp(ts, s, turns[..last]) || SucceedsAt(ts, s, turns, last))
  {
    var last := |turns| - 1;
    if EveryStopMadeUp(ts, s, turns) && !SucceedsAt(ts, s, turns, last) { MadeUpBefore(ts, s, turns); }
    if !StopFailsAt(ts, s, turns, last) && EveryStopMadeUp(ts, s, turns[..last]) { MadeUpAfter(ts, s, turns); }
  }

  lemma {:induction false} SlotListensIff(ts: Tailscale, s: Slot, turns: seq<Turn>)
    requires Audible(s) && SlotRun(ts, s, turns).running.Some?
    ensures Audible(SlotRun(ts, s, turns)) <==> EveryStopMadeUp(ts, s, turns)
  {
    if turns != [] {
      var front, last := turns[..|turns| - 1], turns[|turns| - 1];
      var before := SlotRun(ts, s, front);
      AudibleStep(ts, before, last);
      MadeUpStep(ts, s, turns);
      if before.running.Some? { SlotListensIff(ts, s, front); }
    }
  }

  /** Over any run: a service that is registered at the end accepts connections exactly when every
      operation that failed to stop the name was followed by one on it that succeeded. */
  lemma ListensIffStopsMadeUp(ts: Tailscale, b: Bridge, rs: seq<Request>, n: string)
    requires AllUnique(b, rs) && Audible(SlotOf(b, n)) && n in Run(ts, b, rs).running
    ensures Run(ts, b, rs).running[n].listening <==> EveryStopMadeUp(ts, SlotOf(b, n), TurnsOf(rs, n))
  {
    RunRefines(ts, b, rs, n);
    SlotListensIff(ts, SlotOf(b, n), TurnsOf(rs, n));
  }

  /** What is registered without being wanted does not accept connections. */
  predicate UnwantedIsSilent(s: Slot) {
    PhaseOf(s) == Unwanted ==> !s.running.value.listening
  }

  lemma {:induction false} UnwantedStaysSilent(ts: Tailscale, s: Slot, turns: seq<Turn>)
    requires UnwantedIsSilent(s)
    ensures UnwantedIsSilent(SlotRun(ts, s, turns))
  {
    if turns != [] { UnwantedStaysSilent(ts, s, turns[..|turns| - 1]); }
  }

  /** Over any run: a service that is registered without being wanted does not accept connections. */
  lemma UnwantedDoesNotListen(ts: Tailscale, b: Bridge, rs: seq<Request>, n: string)
    requires AllUnique(b, rs) && UnwantedIsSilent(SlotOf(b, n))
    ensures UnwantedIsSilent(SlotOf(Run(ts, b, rs), n))
  {
    RunRefines(ts, b, rs, n);
    UnwantedStaysSilent(ts, SlotOf(b, n), TurnsOf(rs, n));
  }

  lemma SilentReturn(ts: Tailscale, b: Bridge, r: Request, n: string)
    requires UniqueNames(b.cfg.services) && UniqueNames(r.cfg.services)
    requires PhaseOf(SlotOf(b, n)) == Unwanted
    requires n in ByName(r.cfg.services) && ServiceConfigEqual(b.running[n].config, ByName(r.cfg.services)[n])
    ensures SlotOf(ReloadStep(ts, b, r), n) == Slot(Some(ByName(r.cfg.services)[n]), Some(b.running[n]))
  {
    StepRefines(ts, b, r, n);
  }

  /** In step by the books, and yet silent: a service whose removal failed, and which is asked for again
      as it is, stays in step and without a listener through every reload that keeps its entry. */
  lemma SilentThoughInStep(ts: Tailscale, b: Bridge, r: Request, rs: seq<Request>, n: string)
    requires UniqueNames(b.cfg.services) && AllUnique(ReloadStep(ts, b, r), rs)
    requires PhaseOf(SlotOf(b, n)) == Unwanted && UnwantedIsSilent(SlotOf(b, n))
    requires n in ByName(r.cfg.services) && ServiceConfigEqual(b.running[n].config, ByName(r.cfg.services)[n])
    requires KeepsEntry(ReloadStep(ts, b, r), rs, n)
    ensures
      var s := SlotOf(Run(ts, ReloadStep(ts, b, r), rs), n);
      PhaseOf(s) == Aligned && s.running == Get(b.running, n) && !Audible(s)
  {
    SilentReturn(ts, b, r, n);
    KeptPrefix(ts, ReloadStep(ts, b, r), rs, n);
  }

  // ---------------------------------------------------------------- all names together

  /** The configurations of what is registered. */
  function Configs(running: map<string, Running>): map<string, Service> {
    map n | n in running :: running[n].config
  }

  /** The registry runs exactly the configured services. */
  ghost predicate AllInStep(b: Bridge) {
    CanonAll(Configs(b.running)) == Desired(b.cfg.services)
  }

  lemma AllInStepEntry(b: Bridge, n: string)
    requires AllInStep(b)
    ensures InStep(PhaseOf(SlotOf(b, n)))
  {
    var table := ByName(b.cfg.services);
    assert CanonAll(Configs(b.running)).Keys == b.running.Keys && Desired(b.cfg.services).Keys == table.Keys;
    if n in table {
      assert CanonAll(Configs(b.running))[n] == Desired(b.cfg.services)[n];
      EqualIffSameCanon(b.running[n].config, table[n]);
    }
  }

  lemma InStepEntry(b: Bridge, n: string)
    requires InStep(PhaseOf(SlotOf(b, n)))
    ensures Get(CanonAll(Configs(b.running)), n) == Get(Desired(b.cfg.services), n)
  {
    if n in b.running { EqualIffSameCanon(b.running[n].config, ByName(b.cfg.services)[n]); }
  }

  lemma AllInStepPointwise(b: Bridge)
    ensures AllInStep(b) <==> forall n :: InStep(PhaseOf(SlotOf(b, n)))
  {
    if AllInStep(b) {
      forall n ensures InStep(PhaseOf(SlotOf(b, n))) { AllInStepEntry(b, n); }
    }
    if forall n :: InStep(PhaseOf(SlotOf(b, n))) {
      forall n ensures Get(CanonAll(Configs(b.running)), n) == Get(Desired(b.cfg.services), n) { InStepEntry(b, n); }
      SameEntries(CanonAll(Configs(b.running)), Desired(b.cfg.services));
    }
  }

  /** Everything registered accepts connections. */
  ghost predicate AllListening(b: Bridge) {
    forall n | n in b.running :: b.running[n].listening
  }

  /** A reload that reports no failure silences nothing. */
  lemma CleanReloadSilencesNothing(ts: Tailscale, b: Bridge, r: Request)
    requires UniqueNames(b.cfg.services) && UniqueNames(r.cfg.services) && AllListening(b)
    requires ReloadProgress(ts, b, r).ledger.failed == 0
    ensures AllListening(ReloadStep(ts, b, r))
  {
    PlanDistinct(b.cfg.services, r.cfg.services);
    NoFailureIffAllSucceed(ts, b.running, Plan(b.cfg.services, r.cfg.services), r.w);
    forall n | n in ReloadStep(ts, b, r).running ensures ReloadStep(ts, b, r).running[n].listening {
      PlanAt(b.cfg.services, r.cfg.services, n);
      StepRefines(ts, b, r, n);
      AudibleStep(ts, SlotOf(b, n), TurnOf(r, n));
      assert SlotOf(ReloadStep(ts, b, r), n).running == Some(ReloadStep(ts, b, r).running[n]);
    }
  }

  /** Convergence: from a registry in step with the old configuration, ReloadConfig returns nil
      exactly when it leaves the registry in step with the new one. */
  lemma ReloadConverges(ts: Tailscale, b: Bridge, r: Request)
    requires UniqueNames(b.cfg.services) && UniqueNames(r.cfg.services) && AllInStep(b)
    ensures AllInStep(ReloadStep(ts, b, r)) <==> ReloadProgress(ts, b, r).ledger.failed == 0
  {
    AllInStepPointwise(b);
    AllInStepPointwise(ReloadStep(ts, b, r));
    PlanDistinct(b.cfg.services, r.cfg.services);
    NoFailureIffAllSucceed(ts, b.running, Plan(b.cfg.services, r.cfg.services), r.w);
    forall n
      ensures InStep(PhaseOf(SlotOf(ReloadStep(ts, b, r), n)))
        <==> SlotAfter(ts, At(Plan(b.cfg.services, r.cfg.services), n), Get(b.running, n), r.w(n)).1.None?
    {
      PlanAt(b.cfg.services, r.cfg.services, n);
      StepRefines(ts, b, r, n);
      InStepIffNoError(ts, SlotOf(b, n), TurnOf(r, n));
    }
  }

  /** Asking again for what the current configuration already says does nothing, in any order and
      whatever earlier reloads failed to do. */
  lemma RepeatedReloadIsIdle(before: seq<Service>, after: seq<Service>)
    requires UniqueNames(before) && UniqueNames(after)
    ensures Plan(before, after) == [] <==> Desired(before) == Desired(after)
  {
    PlanEmptyIffSameDesired(before, after);
    assert Plan(before, after) == [] <==> |Plan(before, after)| == 0;
  }

  /** A reload that permutes both configurations ends in the same registry with the same books. */
  lemma ReloadIgnoresOrder(ts: Tailscale, b: Bridge, r: Request, b': Bridge, r': Request)
    requires UniqueNames(b.cfg.services) && UniqueNames(r.cfg.services)
    requires b.running == b'.running && r.w == r'.w
    requires multiset(b.cfg.services) == multiset(b'.cfg.services)
    requires multiset(r.cfg.services) == multiset(r'.cfg.services)
    ensures ReloadProgress(ts, b, r) == ReloadProgress(ts, b', r')
  {
    PlanPermuted(b.cfg.services, r.cfg.services, b'.cfg.services, r'.cfg.services);
    PlanDistinct(b.cfg.services, r.cfg.services);
    OrderIsImmaterial(ts, b.running, Plan(b.cfg.services, r.cfg.services), Plan(b'.cfg.services, r'.cfg.services), r.w);
  }

  lemma PlanPermuted(a: seq<Service>, b: seq<Service>, a': seq<Service>, b': seq<Service>)
    requires UniqueNames(a) && UniqueNames(b)
    requires multiset(a) == multiset(a') && multiset(b) == multiset(b')
    ensures multiset(Plan(a, b)) == multiset(Plan(a', b'))
  {
    ByNamePermuted(a, a');
    ByNamePermuted(b, b');
    PlanDistinct(a, b);
    PlanDistinct(a', b');
    forall op ensures multiset(Plan(a, b))[op] == multiset(Plan(a', b'))[op] {
      MultiplicityFromAt(Plan(a, b), op);
      MultiplicityFromAt(Plan(a', b'), op);
      PlanAt(a, b, OpName(op));
      PlanAt(a', b', OpName(op));
    }
  }

  lemma {:induction false} MultiplicityFromAt(ops: seq<Op>, op: Op)
    requires DistinctNames(ops)
    ensures multiset(ops)[op] == if At(ops, OpName(op)) == Some(op) then 1 else 0
  {
    if ops != [] {
      var front, last := ops[..|ops| - 1], ops[|ops| - 1];
      assert ops == front + [last];
      MultiplicityFromAt(front, op);
      AtFinds(front, OpName(last));
    }
  }

  // ---------------------------------------------------------------- start-up

  /** After start-up a configured name runs or is reported as failed, by its own outcome alone. */
  lemma {:induction false} StartupAt(ts: Tailscale, ss: seq<Service>, w: string -> Outcome, n: string)
    requires UniqueNames(ss)
    ensures
      var s := StartAll(ts, ss, w);
      var wanted := Get(ByName(ss), n);
      var started := wanted.Some? && Starts(ts, wanted.value, w(n));
      && Get(s.running, n) == (if started then Some(Running(wanted.value, true)) else None)
      && Get(s.failures, n) == (if wanted.Some? && !started then Some(StartFailed) else None)
  {
    if ss != [] {
      var front := ss[..|ss| - 1];
      StartupAt(ts, front, w, n);
      LastNameIsNew(ss);
    }
  }

  /** The books of a start-up balance. */
  lemma {:induction false} StartupBalances(ts: Tailscale, ss: seq<Service>, w: string -> Outcome)
    requires UniqueNames(ss)
    ensures
      var s := StartAll(ts, ss, w);
      && s.successful + |s.failures| == |ss|
      && |s.running| == s.successful
  {
    if ss != [] {
      var front, svc := ss[..|ss| - 1], ss[|ss| - 1];
      StartupBalances(ts, front, w);
      StartupAt(ts, front, w, svc.name);
      LastNameIsNew(ss);
    }
  }

  /** As many failures as services means that none runs. */
  lemma AllFailedIffNoneRuns(ts: Tailscale, ss: seq<Service>, w: string -> Outcome)
    requires UniqueNames(ss)
    ensures var s := StartAll(ts, ss, w);
      |s.failures| > 0 && |s.failures| == |ss| <==> ss != [] && s.running == map[]
  {
    StartupBalances(ts, ss, w);
  }

  /** After start-up a configured name is in step or missing, no other name runs, and whatever runs
      accepts connections. */
  lemma StartupPhases(ts: Tailscale, cfg: Config, w: string -> Outcome, n: string)
    requires UniqueNames(cfg.services)
    ensures
      var slot := SlotOf(Bridge(cfg, StartAll(ts, cfg.services, w).running), n);
      PhaseOf(slot) ==
        if slot.wanted.None? then Absent
        else if Starts(ts, slot.wanted.value, w(n)) then Aligned else Missing
    ensures Audible(SlotOf(Bridge(cfg, StartAll(ts, cfg.services, w).running), n))
  {
    StartupAt(ts, cfg.services, w, n);
    var wanted := Get(ByName(cfg.services), n);
    if wanted.Some? { EqualIsAnEquivalence(wanted.value, wanted.value, wanted.value); }
  }

  lemma StartupInStep(ts: Tailscale, cfg: Config, w: string -> Outcome)
    requires UniqueNames(cfg.services)
    ensures var s := StartAll(ts, cfg.services, w);
      AllInStep(Bridge(cfg, s.running)) <==> s.failures == map[]
  {
    var s := StartAll(ts, cfg.services, w);
    var b := Bridge(cfg, s.running);
    AllInStepPointwise(b);
    forall n ensures InStep(PhaseOf(SlotOf(b, n))) <==> n !in s.failures {
      StartupPhases(ts, cfg, w, n);
      StartupAt(ts, cfg.services, w, n);
    }
  }

  lemma StartupListens(ts: Tailscale, cfg: Config, w: string -> Outcome)
    requires UniqueNames(cfg.services)
    ensures AllListening(Bridge(cfg, StartAll(ts, cfg.services, w).running))
  {
    var b := Bridge(cfg, StartAll(ts, cfg.services, w).running);
    forall n | n in b.running ensures b.running[n].listening {
      StartupPhases(ts, cfg, w, n);
      assert SlotOf(b, n).running == Some(b.running[n]);
    }
  }
}
