/** The two timed behaviours of internal/docker/docker.go: debouncing container events and backing
    off between event streams. */
module Timing {
  import opened Wrappers

  /** Milliseconds. */
  const DOCKER_EVENT_DEBOUNCE_DELAY: nat := 500

  datatype Timer = Timer(id: nat, deadline: nat)

  /** A start-like container event. When a timer is due at the very moment of the event, `timerWins`
      says which of the two goes first. */
  datatype Arrival = Arrival(time: nat, timerWins: bool)

  predicate Ordered(events: seq<Arrival>) {
    forall i, j | 0 <= i < j < |events| :: events[i].time <= events[j].time
  }

  function Deadline(e: Arrival): nat {
    e.time + DOCKER_EVENT_DEBOUNCE_DELAY
  }

  /** Whether the next event comes too late to cancel the timer of the event before it. */
  predicate TooLate(e: Arrival, next: Arrival) {
    Deadline(e) < next.time || (Deadline(e) == next.time && next.timerWins)
  }

  class Debouncer {
    var debounceTimer: Option<Timer>
    var armed: set<Timer>  // the timers the runtime will still fire
    var nextId: nat
    var fires: seq<nat>    // when reloads were triggered

    /** Only the remembered timer can be armed, so there are never two. */
    ghost predicate Valid()
      reads this
    {
      && |armed| <= 1
      && (forall t | t in armed :: debounceTimer == Some(t) && t.id < nextId)
    }

    constructor ()
      ensures Valid() && armed == {} && fires == []
    {
      debounceTimer, armed, nextId, fires := None, {}, 0, [];
    }

    /** debouncedReload: cancel the pending timer, if any, and arm a new one. */
    method DebouncedReload(now: nat)
      requires Valid()
      modifies this
      ensures Valid() && fires == old(fires)
      ensures debounceTimer.Some? && armed == {debounceTimer.value}
      ensures debounceTimer.value.deadline == now + DOCKER_EVENT_DEBOUNCE_DELAY
    {
      if debounceTimer.Some? {
        armed := armed - {debounceTimer.value};
      }
      var t := Timer(nextId, now + DOCKER_EVENT_DEBOUNCE_DELAY);
      nextId := nextId + 1;
      armed := armed + {t};
      debounceTimer := Some(t);
    }

    /** Time passes up to `now`: an armed timer fires when it is due before, or at `now` itself when
        `inclusive`. */
    method Elapse(now: nat, inclusive: bool)
      requires Valid()
      modifies this
      ensures Valid()
      ensures
        var due := set t | t in old(armed) && (t.deadline < now || (t.deadline == now && inclusive));
        && armed == old(armed) - due
        && fires == old(fires) + if due == {} then [] else [old(debounceTimer).value.deadline]
    {
      var due := set t | t in armed && (t.deadline < now || (t.deadline == now && inclusive));
      if due != {} {
        var t :| t in due;
        fires := fires + [t.deadline];
        armed := {};
      }
    }
  }

  /** The reloads that are certain once the event at index `k` has arrived: those of earlier events
      whose next event came too late. */
  function FiredBy(events: seq<Arrival>, k: nat): seq<nat>
    requires k < |events|
  {
    if k == 0 then []
    else FiredBy(events, k - 1) + if TooLate(events[k - 1], events[k]) then [Deadline(events[k - 1])] else []
  }

  function Fires(events: seq<Arrival>, end: nat): seq<nat> {
    if events == [] then []
    else
      var last := |events| - 1;
      FiredBy(events, last) + if Deadline(events[last]) <= end then [Deadline(events[last])] else []
  }

  /** Debouncing refines the windows: a reload happens 500 milliseconds after exactly those events
      that no later event cancelled, in order. */
  method RunDebouncer(events: seq<Arrival>, end: nat) returns (fires: seq<nat>)
    requires Ordered(events)
    ensures fires == Fires(events, end)
  {
    var d := new Debouncer();
    for i := 0 to |events|
      invariant d.Valid() && fresh(d)
      invariant i == 0 ==> d.armed == {} && d.fires == []
      invariant i > 0 ==>
        && d.fires == FiredBy(events, i - 1)
        && d.debounceTimer.Some? && d.armed == {d.debounceTimer.value}
        && d.debounceTimer.value.deadline == Deadline(events[i - 1])
    {
      d.Elapse(events[i].time, events[i].timerWins);
      d.DebouncedReload(events[i].time);
    }
    d.Elapse(end, true);
    return d.fires;
  }

  lemma {:induction false} FiredByContents(events: seq<Arrival>, k: nat, f: nat)
    requires k < |events|
    ensures f in FiredBy(events, k)
      <==> exists i :: 0 <= i < k && f == Deadline(events[i]) && TooLate(events[i], events[i + 1])
  {
    if k > 0 { FiredByContents(events, k - 1, f); }
  }

  /** Whether the timer of the event at index `i` gets to fire: the next event comes too late to cancel
      it, or there is none and the run lasts long enough. */
  predicate Uncancelled(events: seq<Arrival>, end: nat, i: nat)
    requires i < |events|
  {
    if i + 1 < |events| then TooLate(events[i], events[i + 1]) else Deadline(events[i]) <= end
  }

  /** A moment is a reload exactly when it is the deadline of an event whose timer gets to fire. */
  lemma FiresContents(events: seq<Arrival>, end: nat, f: nat)
    ensures f in Fires(events, end)
      <==> exists i :: 0 <= i < |events| && f == Deadline(events[i]) && Uncancelled(events, end, i)
  {
    if events != [] {
      var last := |events| - 1;
      FiredByContents(events, last, f);
      if f in FiredBy(events, last) {
        var i :| 0 <= i < last && f == Deadline(events[i]) && TooLate(events[i], events[i + 1]);
        assert Uncancelled(events, end, i);
      }
      if Uncancelled(events, end, last) && f == Deadline(events[last]) { assert f in Fires(events, end); }
    }
  }

  /** In figures: two events less than half a second apart cause one reload, half a second after the
      second; further apart, each causes its own. */
  lemma TwoEvents(a: Arrival, b: Arrival, end: nat)
    requires a.time <= b.time && b.time + 500 <= end
    ensures b.time < a.time + 500 ==> Fires([a, b], end) == [b.time + 500]
    ensures b.time > a.time + 500 ==> Fires([a, b], end) == [a.time + 500, b.time + 500]
    ensures b.time == a.time + 500 ==>
      Fires([a, b], end) == if b.timerWins then [a.time + 500, b.time + 500] else [b.time + 500]
  {
    assert FiredBy([a, b], 0) == [];
    assert FiredBy([a, b], 1) == FiredBy([a, b], 0) + if TooLate(a, b) then [Deadline(a)] else [];
  }

  /** The index of the last event of the burst that the event at `i` belongs to. */
  function BurstEnd(events: seq<Arrival>, i: nat): (j: nat)
    requires i < |events|
    ensures i <= j < |events|
    ensures j + 1 < |events| ==> TooLate(events[j], events[j + 1])
    ensures forall m | i <= m < j :: !TooLate(events[m], events[m + 1])
    decreases |events| - i
  {
    if i + 1 == |events| || TooLate(events[i], events[i + 1]) then i else BurstEnd(events, i + 1)
  }

  /** Every event is covered as soon as its burst pauses: the first reload at or after the event's own
      deadline is the deadline of the burst's last event. */
  lemma EveryEventIsCovered(events: seq<Arrival>, end: nat, i: nat)
    requires Ordered(events) && i < |events| && Uncancelled(events, end, BurstEnd(events, i))
    ensures
      var f := Deadline(events[BurstEnd(events, i)]);
      && f in Fires(events, end) && Deadline(events[i]) <= f
      && forall g | g in Fires(events, end) && Deadline(events[i]) <= g :: f <= g
  {
    var j := BurstEnd(events, i);
    var f := Deadline(events[j]);
    FiresContents(events, end, f);
    forall g | g in Fires(events, end) && Deadline(events[i]) <= g ensures f <= g {
      FiresContents(events, end, g);
      var m :| 0 <= m < |events| && g == Deadline(events[m]) && Uncancelled(events, end, m);
      if m >= j {
        assert events[j].time <= events[m].time;
      }
    }
  }

  ghost predicate Spaced(fs: seq<nat>, limit: nat) {
    && (forall i | 0 <= i < |fs| :: fs[i] <= limit)
    && forall i, j | 0 <= i < j < |fs| :: fs[i] + DOCKER_EVENT_DEBOUNCE_DELAY <= fs[j]
  }

  lemma SpacedAppend(fs: seq<nat>, limit: nat, f: nat, limit': nat)
    requires Spaced(fs, limit) && limit + DOCKER_EVENT_DEBOUNCE_DELAY <= f <= limit'
    ensures Spaced(fs + [f], limit')
  {
    var gs := fs + [f];
    forall i, j | 0 <= i < j < |gs| ensures gs[i] + DOCKER_EVENT_DEBOUNCE_DELAY <= gs[j] {
      if j == |fs| { assert fs[i] <= limit; }
    }
  }

  lemma {:induction false} FiresAreSpaced(events: seq<Arrival>, k: nat)
    requires Ordered(events) && k < |events|
    ensures Spaced(FiredBy(events, k), events[k].time)
  {
    if k > 0 {
      assert events[k - 1].time <= events[k].time;
      FiresAreSpaced(events, k - 1);
      if TooLate(events[k - 1], events[k]) {
        SpacedAppend(FiredBy(events, k - 1), events[k - 1].time, Deadline(events[k - 1]), events[k].time);
      } else {
        assert FiredBy(events, k) == FiredBy(events, k - 1);
      }
    }
  }

  /** Two reloads are never closer than the delay. */
  lemma AllFiresAreSpaced(events: seq<Arrival>, end: nat)
    requires Ordered(events)
    ensures Spaced(Fires(events, end), if events == [] then 0 else Deadline(events[|events| - 1]))
  {
    if events != [] {
      var last := |events| - 1;
      FiresAreSpaced(events, last);
      if Deadline(events[last]) <= end {
        SpacedAppend(FiredBy(events, last), events[last].time, Deadline(events[last]), Deadline(events[last]));
      } else {
        assert Fires(events, end) == FiredBy(events, last);
      }
    }
  }

  // ---------------------------------------------------------------- reconnecting

  /** A Go int64, here a time.Duration in nanoseconds. */
  newtype Int64 = x: int | -0x8000_0000_0000_0000 <= x < 0x8000_0000_0000_0000

  const INITIAL_RECONNECT_BACKOFF: Int64 := 1_000_000_000
  const DOCKER_MAX_RECONNECT_BACKOFF: Int64 := 300_000_000_000

  function Pow2(k: nat): nat {
    if k == 0 then 1 else 2 * Pow2(k - 1)
  }

  /** The number of failed streams since the last one that was established, or since the start. */
  function Failures(established: seq<bool>, i: nat): nat
    requires i < |established|
  {
    if established[i] || i == 0 then 0 else Failures(established, i - 1) + 1
  }

  function ClosedForm(k: nat): int {
    var seconds := if Pow2(k) < 300 then Pow2(k) else 300;
    seconds * 1_000_000_000
  }

  lemma {:induction false} Doubling(k: nat)
    ensures 1_000_000_000 <= ClosedForm(k) <= 300_000_000_000
    ensures ClosedForm(k + 1) == if 2 * ClosedForm(k) > 300_000_000_000 then 300_000_000_000 else 2 * ClosedForm(k)
  {
    Pow2Grows(0, k);
  }

  /** watchLoop: `established` says of each stream in turn whether it delivered an event before it
      closed. The k-th wait since the last established stream is 2^k seconds, at most five minutes;
      doubling never leaves 64 bits. */
  method WatchLoop(established: seq<bool>) returns (waits: seq<Int64>)
    ensures |waits| == |established|
    ensures forall i | 0 <= i < |waits| :: waits[i] as int == ClosedForm(Failures(established, i))
  {
    var backoff := INITIAL_RECONNECT_BACKOFF;
    ghost var failures := 0;
    waits := [];
    for i := 0 to |established|
      invariant |waits| == i
      invariant backoff as int == ClosedForm(failures)
      invariant failures == if i == 0 then 0 else Failures(established, i - 1) + 1
      invariant forall j | 0 <= j < i :: waits[j] as int == ClosedForm(Failures(established, j))
    {
      if established[i] {
        backoff := INITIAL_RECONNECT_BACKOFF;
        failures := 0;
      }
      Doubling(failures);
      waits := waits + [backoff];
      backoff := Doubled(backoff);
      failures := failures + 1;
    }
  }

  /** Doubling up to the maximum, in 64 bits. */
  method Doubled(backoff: Int64) returns (next: Int64)
    requires INITIAL_RECONNECT_BACKOFF <= backoff <= DOCKER_MAX_RECONNECT_BACKOFF
    ensures next as int ==
      if 2 * (backoff as int) > DOCKER_MAX_RECONNECT_BACKOFF as int then DOCKER_MAX_RECONNECT_BACKOFF as int
      else 2 * (backoff as int)
  {
    next := backoff * 2;
    if next > DOCKER_MAX_RECONNECT_BACKOFF {
      next := DOCKER_MAX_RECONNECT_BACKOFF;
    }
  }

  lemma {:induction false} Pow2Grows(j: nat, k: nat)
    requires j <= k
    ensures 1 <= Pow2(j) <= Pow2(k)
  {
    if j < k { Pow2Grows(j, k - 1); }
    else if k > 0 { Pow2Grows(j - 1, k - 1); }
  }

  /** Waits lie between one second and five minutes and do not shrink before the next established
      stream. */
  lemma {:induction false} WaitsGrow(established: seq<bool>, i: nat, j: nat)
    requires i <= j < |established|
    requires forall m | i < m <= j :: !established[m]
    ensures 1_000_000_000 <= ClosedForm(Failures(established, i))
    ensures ClosedForm(Failures(established, i)) <= ClosedForm(Failures(established, j)) <= 300_000_000_000
    decreases j
  {
    Pow2Grows(0, Failures(established, i));
    if i < j {
      WaitsGrow(established, i, j - 1);
      Pow2Grows(Failures(established, j - 1), Failures(established, j));
    }
  }

  /** The wait after a stream that was established is one second, the k-th wait after it without another
      one 2^k seconds, up to five minutes; the count starts anew with the first stream. */
  lemma {:induction false} WaitsInFigures(established: seq<bool>, i: nat, k: nat)
    requires i + k < |established| && (i == 0 || established[i])
    requires forall m | i < m <= i + k :: !established[m]
    ensures ClosedForm(Failures(established, i + k))
      == if Pow2(k) < 300 then Pow2(k) * 1_000_000_000 else 300_000_000_000
    ensures k == 0 ==> ClosedForm(Failures(established, i + k)) == 1_000_000_000
    ensures k == 3 ==> ClosedForm(Failures(established, i + k)) == 8_000_000_000
  {
    CountsSince(established, i, k);
    assert Pow2(3) == 2 * Pow2(2) == 4 * Pow2(1) == 8 * Pow2(0);
  }

  lemma {:induction false} CountsSince(established: seq<bool>, i: nat, k: nat)
    requires i + k < |established| && (i == 0 || established[i])
    requires forall m | i < m <= i + k :: !established[m]
    ensures Failures(established, i + k) == k
  {
    if k > 0 { CountsSince(established, i, k - 1); }
  }
}
