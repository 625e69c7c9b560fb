/** The slow and the fast comparison of two configurations: the three find functions of
    internal/app/app.go and Provider.configEqual of internal/docker/docker.go. */
module Diff {
  import opened Wrappers
  import opened ConfigModel
  import opened Compare
  import opened Filters

  // The predicates the three lists select by.

  function Gone(after: seq<Service>): Service -> bool {
    (s: Service) => s.name !in ByName(after)
  }

  function Changed(before: seq<Service>): Service -> bool {
    (s: Service) => s.name in ByName(before) && !ServiceConfigEqual(ByName(before)[s.name], s)
  }

  function ToRemove(before: seq<Service>, after: seq<Service>): seq<string> {
    Names(Filter(Gone(after), before))
  }

  function ToAdd(before: seq<Service>, after: seq<Service>): seq<Service> {
    Filter(Gone(before), after)
  }

  function ToUpdate(before: seq<Service>, after: seq<Service>): seq<Service> {
    Filter(Changed(before), after)
  }

  /** The set of names collected by the first loop of each find function. */
  method CollectNames(ss: seq<Service>) returns (seen: map<string, bool>)
    ensures seen.Keys == ByName(ss).Keys && forall n | n in seen :: seen[n]
  {
    seen := map[];
    for i := 0 to |ss|
      invariant seen.Keys == ByName(ss[..i]).Keys && forall n | n in seen :: seen[n]
    {
      assert ss[..i + 1][..i] == ss[..i];
      seen := seen[ss[i].name := true];
    }
    assert ss[..|ss|] == ss;
  }

  method FindServicesToRemove(before: Config, after: Config) returns (toRemove: seq<string>)
    ensures toRemove == ToRemove(before.services, after.services)
  {
    var newServices := CollectNames(after.services);
    var ss := before.services;
    ghost var p := Gone(after.services);
    toRemove := [];
    for i := 0 to |ss|
      invariant toRemove == Names(Filter(p, ss[..i]))
    {
      FilterStep(p, ss, i);
      if ss[i].name !in newServices {
        toRemove := toRemove + [ss[i].name];
      }
    }
    assert ss[..|ss|] == ss;
  }

  method FindServicesToAdd(before: Config, after: Config) returns (toAdd: seq<Service>)
    ensures toAdd == ToAdd(before.services, after.services)
  {
    var oldServices := CollectNames(before.services);
    var ss := after.services;
    ghost var p := Gone(before.services);
    toAdd := [];
    for i := 0 to |ss|
      invariant toAdd == Filter(p, ss[..i])
    {
      FilterStep(p, ss, i);
      if ss[i].name !in oldServices {
        toAdd := toAdd + [ss[i]];
      }
    }
    assert ss[..|ss|] == ss;
  }

  /** The map both comparisons index a service list with. */
  method IndexByName(ss: seq<Service>) returns (m: map<string, Service>)
    ensures m == ByName(ss)
  {
    m := map[];
    for i := 0 to |ss|
      invariant m == ByName(ss[..i])
    {
      assert ss[..i + 1][..i] == ss[..i];
      m := m[ss[i].name := ss[i]];
    }
    assert ss[..|ss|] == ss;
  }

  method FindServicesToUpdate(before: Config, after: Config) returns (toUpdate: seq<Service>)
    ensures toUpdate == ToUpdate(before.services, after.services)
  {
    var oldServices := IndexByName(before.services);
    var ss := after.services;
    ghost var p := Changed(before.services);
    toUpdate := [];
    for i := 0 to |ss|
      invariant toUpdate == Filter(p, ss[..i])
    {
      FilterStep(p, ss, i);
      if ss[i].name in oldServices {
        if !ServiceConfigEqual(oldServices[ss[i].name], ss[i]) {
          toUpdate := toUpdate + [ss[i]];
        }
      }
    }
    assert ss[..|ss|] == ss;
  }

  /** Whether every service of `a` is found in `b` with an equal configuration. */
  ghost predicate CoveredBy(a: seq<Service>, b: seq<Service>) {
    forall s | s in a :: s.name in ByName(b) && ServiceConfigEqual(s, ByName(b)[s.name])
  }

  ghost predicate ServicesEqual(a: seq<Service>, b: seq<Service>) {
    |a| == |b| && CoveredBy(a, b)
  }

  ghost predicate ConfigEqual(a: Option<Config>, b: Option<Config>) {
    if a.None? || b.None? then a.None? && b.None? else ServicesEqual(a.value.services, b.value.services)
  }

  method ConfigsEqual(a: Option<Config>, b: Option<Config>) returns (equal: bool)
    ensures equal <==> ConfigEqual(a, b)
  {
    if a.None? || b.None? {
      return a.None? && b.None?;
    }
    var xs, ys := a.value.services, b.value.services;
    if |xs| != |ys| {
      return false;
    }
    var bServices := IndexByName(ys);
    for i := 0 to |xs|
      invariant CoveredBy(xs[..i], ys)
    {
      if xs[i].name !in bServices {
        return false;
      }
      if !ServiceConfigEqual(xs[i], bServices[xs[i].name]) {
        return false;
      }
      assert xs[..i + 1] == xs[..i] + [xs[i]];
    }
    assert xs[..|xs|] == xs;
    return true;
  }

  /** The meaning of a table of services: each name with the canonical form of its configuration. */
  function CanonAll(m: map<string, Service>): map<string, Service> {
    map n | n in m :: Canon(m[n])
  }

  /** What a configuration asks for. */
  function Desired(ss: seq<Service>): map<string, Service> {
    CanonAll(ByName(ss))
  }

  ghost predicate PlanEmpty(a: seq<Service>, b: seq<Service>) {
    ToRemove(a, b) == [] && ToAdd(a, b) == [] && ToUpdate(a, b) == []
  }

  lemma SelectsNothing(p: Service -> bool, ss: seq<Service>)
    ensures Filter(p, ss) == [] <==> forall s | s in ss :: !p(s)
  {
    FilterContents(p, ss);
    EmptyIffNone(Filter(p, ss));
  }

  /** What an empty plan says of each service. */
  lemma PlanEmptyPointwise(a: seq<Service>, b: seq<Service>)
    ensures PlanEmpty(a, b) <==>
      && (forall s | s in a :: !Gone(b)(s)) && (forall s | s in b :: !Gone(a)(s))
      && (forall s | s in b :: !Changed(a)(s))
  {
    SelectsNothing(Gone(b), a);
    SelectsNothing(Gone(a), b);
    SelectsNothing(Changed(a), b);
    assert ToRemove(a, b) == [] <==> |Filter(Gone(b), a)| == 0;
  }

  lemma EmptyIffNone<T>(xs: seq<T>)
    ensures xs == [] <==> forall x :: x !in xs
  {
    if xs != [] { assert xs[0] in xs; }
  }

  lemma SameDesiredEntry(a: seq<Service>, b: seq<Service>, n: string)
    requires Desired(a) == Desired(b)
    ensures n in ByName(a) <==> n in ByName(b)
    ensures n in ByName(a) ==> ServiceConfigEqual(ByName(a)[n], ByName(b)[n])
  {
    assert Desired(a).Keys == ByName(a).Keys && Desired(b).Keys == ByName(b).Keys;
    if n in ByName(a) {
      assert Desired(a)[n] == Desired(b)[n];
      EqualIffSameCanon(ByName(a)[n], ByName(b)[n]);
    }
  }

  lemma SameDesiredFromEntries(a: seq<Service>, b: seq<Service>)
    requires forall n | n in ByName(a) :: n in ByName(b)
    requires forall n | n in ByName(b) :: n in ByName(a) && ServiceConfigEqual(ByName(a)[n], ByName(b)[n])
    ensures Desired(a) == Desired(b)
  {
    forall n | n in ByName(b) ensures Canon(ByName(a)[n]) == Canon(ByName(b)[n]) {
      EqualIffSameCanon(ByName(a)[n], ByName(b)[n]);
    }
  }

  /** The differ finds nothing to do exactly when both configurations ask for the same services. */
  lemma PlanEmptyIffSameDesired(a: seq<Service>, b: seq<Service>)
    requires UniqueNames(a) && UniqueNames(b)
    ensures PlanEmpty(a, b) <==> Desired(a) == Desired(b)
  {
    PlanEmptyPointwise(a, b);
    ByNameContents(a);
    ByNameContents(b);
    ByNameUnique(b);
    if Desired(a) == Desired(b) {
      forall s | s in a ensures !Gone(b)(s) { SameDesiredEntry(a, b, s.name); }
      forall s | s in b ensures !Gone(a)(s) && !Changed(a)(s) { SameDesiredEntry(a, b, s.name); }
    }
    if PlanEmpty(a, b) {
      forall n | n in ByName(a) ensures n in ByName(b) { assert !Gone(b)(ByName(a)[n]); }
      forall n | n in ByName(b) ensures n in ByName(a) && ServiceConfigEqual(ByName(a)[n], ByName(b)[n]) {
        assert !Gone(a)(ByName(b)[n]) && !Changed(a)(ByName(b)[n]);
      }
      SameDesiredFromEntries(a, b);
    }
  }

  /** The pigeonhole step: a list with unique names whose names all occur in a list no longer than
      itself misses none of them. */
  lemma CoveredByCountsNames(a: seq<Service>, b: seq<Service>)
    requires UniqueNames(a) && |a| == |b| && CoveredBy(a, b)
    ensures ByName(a).Keys == ByName(b).Keys && UniqueNames(b)
  {
    ByNameUnique(a);
    ByNameContents(a);
    ByNameCounts(b);
    var ka, kb := ByName(a).Keys, ByName(b).Keys;
    assert |ka| == |ByName(a)| && |kb| == |ByName(b)|;
    assert ka <= kb;
    assert |kb| == |ka| + |kb - ka|;
  }

  lemma SameDesiredCounts(a: seq<Service>, b: seq<Service>)
    requires UniqueNames(a) && UniqueNames(b) && Desired(a) == Desired(b)
    ensures |a| == |b|
  {
    ByNameUnique(a);
    ByNameUnique(b);
    assert Desired(a).Keys == ByName(a).Keys && Desired(b).Keys == ByName(b).Keys;
    assert |ByName(a)| == |ByName(a).Keys| && |ByName(b)| == |ByName(b).Keys|;
  }

  lemma SameDesiredCovers(a: seq<Service>, b: seq<Service>)
    requires UniqueNames(a) && UniqueNames(b) && Desired(a) == Desired(b)
    ensures ServicesEqual(a, b)
  {
    SameDesiredCounts(a, b);
    ByNameContents(a);
    forall s | s in a ensures s.name in ByName(b) && ServiceConfigEqual(s, ByName(b)[s.name]) {
      SameDesiredEntry(a, b, s.name);
    }
  }

  lemma ServicesEqualIffSameDesired(a: seq<Service>, b: seq<Service>)
    requires UniqueNames(a)
    ensures ServicesEqual(a, b) <==> UniqueNames(b) && Desired(a) == Desired(b)
  {
    if ServicesEqual(a, b) {
      ByNameContents(a);
      CoveredByCountsNames(a, b);
      SameDesiredFromEntries(a, b);
    }
    if UniqueNames(b) && Desired(a) == Desired(b) {
      SameDesiredCovers(a, b);
    }
  }

  /** The fast check of the Docker provider decides whether the reload would do anything, although
      it only compares lengths and looks up the names of one side. */
  lemma FastCheckIsEmptyPlan(a: seq<Service>, b: seq<Service>)
    requires UniqueNames(a)
    ensures ServicesEqual(a, b) <==> UniqueNames(b) && PlanEmpty(a, b)
  {
    ServicesEqualIffSameDesired(a, b);
    if UniqueNames(b) { PlanEmptyIffSameDesired(a, b); }
  }

  lemma SelectedUnique(p: Service -> bool, ss: seq<Service>)
    requires UniqueNames(ss)
    ensures UniqueNames(Filter(p, ss))
  {
    FilterInjective(p, (s: Service) => s.name, ss);
    var f := Filter(p, ss);
    forall i, j | 0 <= i < j < |f| ensures f[i].name != f[j].name {
      var key := (s: Service) => s.name;
      assert key(f[i]) != key(f[j]);
    }
  }

  lemma ByNameAppend(ss: seq<Service>, t: Service)
    ensures ByName(ss + [t]) == ByName(ss)[t.name := t]
  {
    assert (ss + [t])[..|ss + [t]| - 1] == ss;
  }

  lemma LastNameIsNew(ss: seq<Service>)
    requires ss != [] && UniqueNames(ss)
    ensures UniqueNames(ss[..|ss| - 1]) && ss[|ss| - 1].name !in ByName(ss[..|ss| - 1])
  {
    ByNameContents(ss[..|ss| - 1]);
    assert ss[|ss| - 1].name !in Names(ss[..|ss| - 1]);
  }

  lemma {:induction false} SelectedEntry(p: Service -> bool, ss: seq<Service>, n: string)
    requires UniqueNames(ss)
    ensures Get(ByName(Filter(p, ss)), n)
      == if n in ByName(ss) && p(ByName(ss)[n]) then Some(ByName(ss)[n]) else None
  {
    if ss != [] {
      LastNameIsNew(ss);
      SelectedEntry(p, ss[..|ss| - 1], n);
      if p(ss[|ss| - 1]) { ByNameAppend(Filter(p, ss[..|ss| - 1]), ss[|ss| - 1]); }
      else { assert Filter(p, ss) == Filter(p, ss[..|ss| - 1]); }
    }
  }

  function NotNamed(name: string): Service -> bool {
    (s: Service) => s.name != name
  }

  /** A list without the entries that a later one of the same name overwrites. */
  function Deduplicated(ss: seq<Service>): seq<Service> {
    if ss == [] then []
    else
      var last := ss[|ss| - 1];
      Filter(NotNamed(last.name), Deduplicated(ss[..|ss| - 1])) + [last]
  }

  lemma UniqueAppend(ss: seq<Service>, t: Service)
    requires UniqueNames(ss) && t.name !in ByName(ss)
    ensures UniqueNames(ss + [t])
  {
    ByNameContents(ss);
    forall i | 0 <= i < |ss| ensures ss[i].name != t.name { assert ss[i] in ss; }
  }

  lemma {:induction false} DeduplicatedTable(ss: seq<Service>)
    ensures UniqueNames(Deduplicated(ss)) && ByName(Deduplicated(ss)) == ByName(ss)
  {
    if ss != [] {
      var front, last := ss[..|ss| - 1], ss[|ss| - 1];
      DeduplicatedTable(front);
      var d := Deduplicated(front);
      var kept := Filter(NotNamed(last.name), d);
      SelectedUnique(NotNamed(last.name), d);
      forall n ensures Get(ByName(kept), n) == if n == last.name then None else Get(ByName(d), n) {
        SelectedEntry(NotNamed(last.name), d, n);
        ByNameContents(d);
      }
      assert Get(ByName(kept), last.name) == None;
      UniqueAppend(kept, last);
      ByNameAppend(kept, last);
      forall n ensures Get(ByName(kept + [last]), n) == Get(ByName(ss), n) {
        assert Get(ByName(kept), n) == if n == last.name then None else Get(ByName(d), n);
      }
      SameEntries(ByName(kept + [last]), ByName(ss));
    }
  }

  /** The differ sees no difference between a list and its deduplicated form; the fast check does
      unless nothing was dropped. */
  lemma DuplicatesSeparateTheChecks(a: seq<Service>)
    requires !UniqueNames(a)
    ensures PlanEmpty(a, Deduplicated(a)) && !ServicesEqual(a, Deduplicated(a))
  {
    var b := Deduplicated(a);
    DeduplicatedTable(a);
    ByNameUnique(b);
    ByNameCounts(a);
    ByNameContents(a);
    ByNameContents(b);
    forall s | s in b ensures !Changed(a)(s) { EqualIffSameCanon(s, s); }
    PlanEmptyPointwise(a, b);
  }

  /** Unique names on the left are exactly what the fast check needs to agree with the differ on
      every validated right side. */
  lemma FastCheckRightIffUnique(a: seq<Service>)
    ensures UniqueNames(a) <==> forall b | UniqueNames(b) :: ServicesEqual(a, b) <==> PlanEmpty(a, b)
  {
    if UniqueNames(a) {
      forall b | UniqueNames(b) ensures ServicesEqual(a, b) <==> PlanEmpty(a, b) { FastCheckIsEmptyPlan(a, b); }
    } else {
      DuplicatesSeparateTheChecks(a);
      DeduplicatedTable(a);
    }
  }

  /** The fast check is an equivalence on the configurations a provider loads. */
  lemma ConfigEqualIsAnEquivalence(a: Config, b: Config, c: Config)
    requires UniqueNames(a.services) && UniqueNames(b.services) && UniqueNames(c.services)
    ensures ConfigEqual(Some(a), Some(a))
    ensures ConfigEqual(Some(a), Some(b)) <==> ConfigEqual(Some(b), Some(a))
    ensures ConfigEqual(Some(a), Some(b)) && ConfigEqual(Some(b), Some(c)) ==> ConfigEqual(Some(a), Some(c))
  {
    ServicesEqualIffSameDesired(a.services, a.services);
    ServicesEqualIffSameDesired(a.services, b.services);
    ServicesEqualIffSameDesired(b.services, a.services);
    ServicesEqualIffSameDesired(b.services, c.services);
    ServicesEqualIffSameDesired(a.services, c.services);
  }

  /** Docker lists containers in Go map order: rearranging either side changes nothing. */
  lemma ConfigEqualIgnoresOrder(a: seq<Service>, a': seq<Service>, b: seq<Service>, b': seq<Service>)
    requires UniqueNames(a) && UniqueNames(b)
    requires multiset(a) == multiset(a') && multiset(b) == multiset(b')
    ensures ServicesEqual(a, b) <==> ServicesEqual(a', b')
  {
    ByNamePermuted(a, a');
    ByNamePermuted(b, b');
    ServicesEqualIffSameDesired(a, b);
    ServicesEqualIffSameDesired(a', b');
  }
}
