/** internal/config/compare.go: when two service configurations count as the same. */
module Compare {
  import opened Wrappers
  import opened ConfigModel

  /** Go's order on strings: lexicographic. */
  predicate Le(a: string, b: string) {
    a == [] || (b != [] && (a[0] < b[0] || (a[0] == b[0] && Le(a[1..], b[1..]))))
  }

  function Insert(x: string, xs: seq<string>): seq<string> {
    if xs == [] then [x]
    else if Le(x, xs[0]) then [x] + xs
    else [xs[0]] + Insert(x, xs[1..])
  }

  /** The sorted copy that slices.Clone and slices.Sort produce. SortedIsUnique shows that every
      sorting algorithm yields this same sequence. */
  function SortedCopy(xs: seq<string>): seq<string> {
    if xs == [] then [] else Insert(xs[0], SortedCopy(xs[1..]))
  }

  ghost predicate Sorted(xs: seq<string>) {
    forall i, j | 0 <= i < j < |xs| :: Le(xs[i], xs[j])
  }

  lemma {:induction false} LeTotal(a: string, b: string)
    ensures Le(a, b) || Le(b, a)
  {
    if a != [] && b != [] && a[0] == b[0] { LeTotal(a[1..], b[1..]); }
  }

  lemma {:induction false} LeAntisymmetric(a: string, b: string)
    requires Le(a, b) && Le(b, a)
    ensures a == b
  {
    if a != [] && b != [] {
      LeAntisymmetric(a[1..], b[1..]);
      assert a == [a[0]] + a[1..] && b == [b[0]] + b[1..];
    }
  }

  lemma {:induction false} LeTransitive(a: string, b: string, c: string)
    requires Le(a, b) && Le(b, c)
    ensures Le(a, c)
  {
    if a != [] && a[0] == b[0] == c[0] { LeTransitive(a[1..], b[1..], c[1..]); }
  }

  lemma {:induction false} InsertContents(x: string, xs: seq<string>)
    ensures multiset(Insert(x, xs)) == multiset{x} + multiset(xs)
  {
    if xs != [] {
      assert xs == [xs[0]] + xs[1..];
      InsertContents(x, xs[1..]);
    }
  }

  lemma {:induction false} InsertSorted(x: string, xs: seq<string>)
    requires Sorted(xs)
    ensures Sorted(Insert(x, xs))
  {
    if xs != [] {
      if Le(x, xs[0]) {
        forall j | 0 <= j < |xs| ensures Le(x, xs[j]) {
          if j > 0 { LeTransitive(x, xs[0], xs[j]); }
        }
      } else {
        LeTotal(x, xs[0]);
        var rest := Insert(x, xs[1..]);
        InsertSorted(x, xs[1..]);
        InsertContents(x, xs[1..]);
        forall j | 0 <= j < |rest| ensures Le(xs[0], rest[j]) {
          assert rest[j] in multiset(rest);
          assert rest[j] == x || rest[j] in multiset(xs[1..]);
        }
      }
    }
  }

  lemma {:induction false} SortedCopySorts(xs: seq<string>)
    ensures Sorted(SortedCopy(xs)) && multiset(SortedCopy(xs)) == multiset(xs)
  {
    if xs != [] {
      SortedCopySorts(xs[1..]);
      InsertContents(xs[0], SortedCopy(xs[1..]));
      InsertSorted(xs[0], SortedCopy(xs[1..]));
      assert xs == [xs[0]] + xs[1..];
    }
  }

  lemma SortedHead(xs: seq<string>, y: string)
    requires Sorted(xs) && y in multiset(xs)
    ensures xs != [] && Le(xs[0], y)
  {
    var i :| 0 <= i < |xs| && xs[i] == y;
    if i == 0 { LeTotal(y, y); }
  }

  lemma SortedTail(xs: seq<string>)
    requires xs != [] && Sorted(xs)
    ensures Sorted(xs[1..])
  {
  }

  lemma SortedHeadsAgree(xs: seq<string>, ys: seq<string>)
    requires Sorted(xs) && Sorted(ys) && multiset(xs) == multiset(ys) && xs != []
    ensures ys != [] && xs[0] == ys[0]
  {
    assert xs[0] in multiset(ys);
    SortedHead(xs, ys[0]);
    SortedHead(ys, xs[0]);
    LeAntisymmetric(xs[0], ys[0]);
  }

  lemma TailsAgree(xs: seq<string>, ys: seq<string>)
    requires multiset(xs) == multiset(ys) && xs != [] && ys != [] && xs[0] == ys[0]
    ensures multiset(xs[1..]) == multiset(ys[1..])
  {
    assert xs == [xs[0]] + xs[1..] && ys == [ys[0]] + ys[1..];
    assert multiset(xs[1..]) == multiset(xs) - multiset{xs[0]};
    assert multiset(ys[1..]) == multiset(ys) - multiset{ys[0]};
  }

  /** Two sorted arrangements of the same strings are the same sequence. */
  lemma {:induction false} SortedIsUnique(xs: seq<string>, ys: seq<string>)
    requires Sorted(xs) && Sorted(ys) && multiset(xs) == multiset(ys)
    ensures xs == ys
    decreases |xs|
  {
    if xs == [] {
      assert |multiset(ys)| == 0;
    } else {
      SortedHeadsAgree(xs, ys);
      TailsAgree(xs, ys);
      SortedTail(xs);
      SortedTail(ys);
      SortedIsUnique(xs[1..], ys[1..]);
      assert xs == [xs[0]] + xs[1..];
      assert ys == [ys[0]] + ys[1..];
    }
  }

  /** A slice or map read with its nil value taken for the empty one. */
  function Elems(x: Option<seq<string>>): (r: seq<string>)
    ensures x.Some? ==> x == Some(r)
    ensures x.None? ==> |r| == 0
  {
    if x.None? then [] else x.value
  }

  function Entries(x: Option<map<string, string>>): (r: map<string, string>)
    ensures x.Some? ==> x == Some(r)
    ensures x.None? ==> |r| == 0
  {
    if x.None? then map[] else x.value
  }

  predicate TagsEqual(x: Option<seq<string>>, y: Option<seq<string>>) {
    if |Elems(x)| == 0 && |Elems(y)| == 0 then true
    else if |Elems(x)| != |Elems(y)| then false
    else SortedCopy(Elems(x)) == SortedCopy(Elems(y))
  }

  predicate StringSlicesEqual(x: Option<seq<string>>, y: Option<seq<string>>) {
    if |Elems(x)| == 0 && |Elems(y)| == 0 then true
    else if |Elems(x)| != |Elems(y)| then false
    else Elems(x) == Elems(y)
  }

  predicate StringMapsEqual(x: Option<map<string, string>>, y: Option<map<string, string>>) {
    if |Entries(x)| == 0 && |Entries(y)| == 0 then true else x == y
  }

  /** ServiceConfigEqual: go-cmp visits every field, three comparers replace its default. */
  predicate ServiceConfigEqual(a: Service, b: Service) {
    && a.name == b.name
    && a.backendAddr == b.backendAddr
    && a.listenAddr == b.listenAddr
    && a.whoisEnabled == b.whoisEnabled
    && a.whoisTimeout == b.whoisTimeout
    && a.tlsMode == b.tlsMode
    && TagsEqual(a.tags, b.tags)
    && a.startupTimeout == b.startupTimeout
    && a.readHeaderTimeout == b.readHeaderTimeout
    && a.writeTimeout == b.writeTimeout
    && a.idleTimeout == b.idleTimeout
    && a.responseHeaderTimeout == b.responseHeaderTimeout
    && a.accessLog == b.accessLog
    && a.maxRequestBodySize == b.maxRequestBodySize
    && a.funnelEnabled == b.funnelEnabled
    && a.ephemeral == b.ephemeral
    && a.oauthPreauthorized == b.oauthPreauthorized
    && a.flushInterval == b.flushInterval
    && a.insecureSkipVerify == b.insecureSkipVerify
    && StringMapsEqual(a.upstreamHeaders, b.upstreamHeaders)
    && StringMapsEqual(a.downstreamHeaders, b.downstreamHeaders)
    && StringSlicesEqual(a.removeUpstream, b.removeUpstream)
    && StringSlicesEqual(a.removeDownstream, b.removeDownstream)
  }

  /** Sorting copies and comparing them decides equality as multisets. */
  lemma TagsEqualIsMultisetEquality(x: Option<seq<string>>, y: Option<seq<string>>)
    ensures TagsEqual(x, y) <==> multiset(Elems(x)) == multiset(Elems(y))
  {
    var xs, ys := Elems(x), Elems(y);
    assert |xs| == |multiset(xs)| && |ys| == |multiset(ys)|;
    SortedCopySorts(xs);
    SortedCopySorts(ys);
    if multiset(xs) == multiset(ys) { SortedIsUnique(SortedCopy(xs), SortedCopy(ys)); }
  }

  /** What a service configuration means to the differ: tags as a multiset in sorted order, nil
      slices and maps as empty ones. */
  function Canon(s: Service): Service {
    s.(tags := Some(SortedCopy(Elems(s.tags))),
       upstreamHeaders := Some(Entries(s.upstreamHeaders)),
       downstreamHeaders := Some(Entries(s.downstreamHeaders)),
       removeUpstream := Some(Elems(s.removeUpstream)),
       removeDownstream := Some(Elems(s.removeDownstream)))
  }

  lemma MapsEqualIffEntriesEqual(x: Option<map<string, string>>, y: Option<map<string, string>>)
    ensures StringMapsEqual(x, y) <==> Entries(x) == Entries(y)
  {
    if |Entries(x)| == 0 { assert Entries(x) == map[]; }
    if |Entries(y)| == 0 { assert Entries(y) == map[]; }
  }

  /** Two configurations are equal exactly when they differ at most in the order of the tags and in nil for
      empty collections. */
  lemma EqualIffSameSettings(a: Service, b: Service)
    ensures ServiceConfigEqual(a, b) <==>
      && multiset(Elems(a.tags)) == multiset(Elems(b.tags))
      && Entries(a.upstreamHeaders) == Entries(b.upstreamHeaders)
      && Entries(a.downstreamHeaders) == Entries(b.downstreamHeaders)
      && Elems(a.removeUpstream) == Elems(b.removeUpstream)
      && Elems(a.removeDownstream) == Elems(b.removeDownstream)
      && b == a.(tags := b.tags, upstreamHeaders := b.upstreamHeaders, downstreamHeaders := b.downstreamHeaders,
                 removeUpstream := b.removeUpstream, removeDownstream := b.removeDownstream)
  {
    TagsEqualIsMultisetEquality(a.tags, b.tags);
    MapsEqualIffEntriesEqual(a.upstreamHeaders, b.upstreamHeaders);
    MapsEqualIffEntriesEqual(a.downstreamHeaders, b.downstreamHeaders);
  }

  /** The comparison is equality of meanings, hence an equivalence relation. */
  lemma EqualIffSameCanon(a: Service, b: Service)
    ensures ServiceConfigEqual(a, b) <==> Canon(a) == Canon(b)
  {
    SortedCopySorts(Elems(a.tags));
    SortedCopySorts(Elems(b.tags));
    TagsEqualIsMultisetEquality(a.tags, b.tags);
    MapsEqualIffEntriesEqual(a.upstreamHeaders, b.upstreamHeaders);
    MapsEqualIffEntriesEqual(a.downstreamHeaders, b.downstreamHeaders);
  }

  lemma EqualIsAnEquivalence(a: Service, b: Service, c: Service)
    ensures ServiceConfigEqual(a, a)
    ensures ServiceConfigEqual(a, b) ==> ServiceConfigEqual(b, a)
    ensures ServiceConfigEqual(a, b) && ServiceConfigEqual(b, c) ==> ServiceConfigEqual(a, c)
  {
    EqualIffSameCanon(a, a);
    EqualIffSameCanon(a, b);
    EqualIffSameCanon(b, a);
    EqualIffSameCanon(b, c);
    EqualIffSameCanon(a, c);
  }
}
