/** One registry operation seen from outside: which services run, by name, before and after. The
    world's part in an operation (tsnet, the network, HTTP draining) is an Outcome; the registry in
    Registry.dfy is proved to follow OpResult on every outcome. */
module Lifecycle {
  import opened Wrappers
  import opened ConfigModel

  /** How everything outside the program responds while one service is started or stopped. */
  datatype Outcome = Outcome(
    hasState: bool,     // the state directory already holds the node's identity
    keyIssued: bool,    // an auth key could be resolved or generated
    comesUp: bool,      // tsnet's Up succeeded in time
    listens: bool,      // tsnet opened the listener
    builds: bool,       // the proxy handler could be created
    stops: bool,        // the HTTP server drained before the stop timeout
    urlParses: bool)    // net/url accepted the backend address

  datatype OpError = AlreadyExists | NotFound | InvalidConfig | StopFailed | StartFailed

  datatype Op = Remove(target: string) | Add(svc: Service) | Update(svc: Service)

  function OpName(op: Op): string {
    if op.Remove? then op.target else op.svc.name
  }

  predicate HasSecrets(ts: Tailscale) {
    ts.authKey != "" || (ts.oauthClientID != "" && ts.oauthClientSecret != "")
  }

  predicate AuthReady(ts: Tailscale, svc: Service, o: Outcome) {
    (!svc.ephemeral && o.hasState) || (HasSecrets(ts) && o.keyIssued)
  }

  predicate ListenerOpens(svc: Service, o: Outcome) {
    (IsTrue(svc.funnelEnabled) || svc.tlsMode == TLS_MODE_AUTO || svc.tlsMode == TLS_MODE_OFF) && o.listens
  }

  predicate Starts(ts: Tailscale, svc: Service, o: Outcome) {
    AuthReady(ts, svc, o) && o.comesUp && ListenerOpens(svc, o) && o.builds
  }

  /** A service starts exactly when tsnet brings it up, the listener opens in a known mode, the handler
      can be built, and it has an identity it may keep, or a key from an auth key or OAuth credentials. */
  lemma StartsIff(ts: Tailscale, svc: Service, o: Outcome)
    ensures Starts(ts, svc, o) <==>
      && o.comesUp && o.listens && o.builds
      && (svc.funnelEnabled == Some(true) || svc.tlsMode == "auto" || svc.tlsMode == "off")
      && (svc.ephemeral || !o.hasState ==>
            o.keyIssued && (ts.authKey != "" || (ts.oauthClientID != "" && ts.oauthClientSecret != "")))
  {
  }

  /** The registry refuses a configuration exactly for a missing name or backend, a relative socket path,
      an address that does not parse, an unknown TLS mode or a negative timeout. */
  lemma AcceptableRefusals(cfg: Service, o: Outcome)
    ensures !Acceptable(cfg, o) <==>
      || cfg.name == "" || cfg.backendAddr == ""
      || ("unix://" <= cfg.backendAddr && !("unix:///" <= cfg.backendAddr))
      || (!("unix://" <= cfg.backendAddr) && !o.urlParses)
      || (cfg.tlsMode != "auto" && cfg.tlsMode != "off")
      || (exists d | d < 0 ::
            Some(d) in {cfg.readHeaderTimeout, cfg.writeTimeout, cfg.idleTimeout, cfg.responseHeaderTimeout})
  {
    var addr := cfg.backendAddr;
    if "unix://" <= addr { assert addr == "unix://" + addr[7..]; }
    if "unix:///" <= addr { assert addr[..7] == "unix://"; }
  }

  /** Registry.validateServiceConfig; the URL parser is the outcome's. */
  predicate Acceptable(cfg: Service, o: Outcome) {
    && cfg.name != ""
    && cfg.backendAddr != ""
    && (if "unix://" <= cfg.backendAddr then "/" <= cfg.backendAddr[7..] else o.urlParses)
    && (cfg.tlsMode == TLS_MODE_OFF || cfg.tlsMode == TLS_MODE_AUTO)
    && NonNegative(cfg.readHeaderTimeout) && NonNegative(cfg.writeTimeout)
    && NonNegative(cfg.idleTimeout) && NonNegative(cfg.responseHeaderTimeout)
  }

  /** What is registered under a name: the configuration it was started with, and whether its HTTP
      server still accepts connections. */
  datatype Running = Running(config: Service, listening: bool)

  /** What is registered under the operation's name afterwards, and the error it returns. An HTTP server
      that is told to shut down stops accepting before it drains, so also when the stop fails. */
  function OpResult(ts: Tailscale, op: Op, cur: Option<Running>, o: Outcome): (Option<Running>, Option<OpError>) {
    match op
    case Remove(_) =>
      if cur.None? then (None, Some(NotFound))
      else if !o.stops then (Some(cur.value.(listening := false)), Some(StopFailed))
      else (None, None)
    case Add(svc) =>
      if cur.Some? then (cur, Some(AlreadyExists))
      else if !Starts(ts, svc, o) then (None, Some(StartFailed))
      else (Some(Running(svc, true)), None)
    case Update(svc) =>
      if cur.None? then (None, Some(NotFound))
      else if !Acceptable(svc, o) then (cur, Some(InvalidConfig))
      else if !o.stops then (Some(cur.value.(listening := false)), Some(StopFailed))
      else if !Starts(ts, svc, o) then (None, Some(StartFailed))
      else (Some(Running(svc, true)), None)
  }

  /** ReloadError of internal/errors/reload.go as a value. */
  datatype Ledger = Ledger(
    addErrors: map<string, OpError>,
    removeErrors: map<string, OpError>,
    updateErrors: map<string, OpError>,
    successful: nat,
    failed: nat)

  const EMPTY_LEDGER := Ledger(map[], map[], map[], 0, 0)

  /** The ledger after an operation returned `err`. */
  function Record(l: Ledger, op: Op, err: Option<OpError>): Ledger {
    if err.None? then l.(successful := l.successful + 1)
    else match op
      case Remove(n) => l.(removeErrors := l.removeErrors[n := err.value], failed := l.failed + 1)
      case Add(svc) => l.(addErrors := l.addErrors[svc.name := err.value], failed := l.failed + 1)
      case Update(svc) => l.(updateErrors := l.updateErrors[svc.name := err.value], failed := l.failed + 1)
  }

  /** The registry's contents together with the ledger of the reload in progress. */
  datatype Progress = Progress(running: map<string, Running>, ledger: Ledger)

  function Apply(ts: Tailscale, p: Progress, op: Op, w: string -> Outcome): Progress {
    var n := OpName(op);
    var (slot, err) := OpResult(ts, op, Get(p.running, n), w(n));
    Progress(Put(p.running, n, slot), Record(p.ledger, op, err))
  }

  /** Operations run in order, none of them stopping the rest. `w` gives the outcome per name. */
  function Exec(ts: Tailscale, p: Progress, ops: seq<Op>, w: string -> Outcome): Progress {
    if ops == [] then p
    else Apply(ts, Exec(ts, p, ops[..|ops| - 1], w), ops[|ops| - 1], w)
  }

  predicate DistinctNames(ops: seq<Op>) {
    forall i, j | 0 <= i < j < |ops| :: OpName(ops[i]) != OpName(ops[j])
  }

  /** The operation on the name `n`, if there is one. */
  function At(ops: seq<Op>, n: string): Option<Op> {
    if ops == [] then None
    else if OpName(ops[|ops| - 1]) == n then Some(ops[|ops| - 1])
    else At(ops[..|ops| - 1], n)
  }

  lemma {:induction false} AtFinds(ops: seq<Op>, n: string)
    ensures At(ops, n).Some? ==> At(ops, n).value in ops && OpName(At(ops, n).value) == n
    ensures At(ops, n).None? <==> forall i | 0 <= i < |ops| :: OpName(ops[i]) != n
  {
    if ops != [] {
      AtFinds(ops[..|ops| - 1], n);
      if At(ops[..|ops| - 1], n).Some? {
        var i :| 0 <= i < |ops| - 1 && ops[i] == At(ops[..|ops| - 1], n).value;
      } else if OpName(ops[|ops| - 1]) != n {
        forall i | 0 <= i < |ops| ensures OpName(ops[i]) != n {
          if i < |ops| - 1 { assert ops[..|ops| - 1][i] == ops[i]; }
        }
      }
    }
  }

  /** What one operation, or none, makes of a slot. */
  function SlotAfter(ts: Tailscale, op: Option<Op>, cur: Option<Running>, o: Outcome)
    : (Option<Running>, Option<OpError>)
  {
    if op.None? then (cur, None) else OpResult(ts, op.value, cur, o)
  }

  /** When no name has two operations, each name's fate depends on its own slot, its own operation
      and its own outcome: no failure elsewhere can touch it. */
  lemma {:induction false} ExecAt(ts: Tailscale, p: Progress, ops: seq<Op>, w: string -> Outcome, n: string)
    requires DistinctNames(ops)
    ensures Get(Exec(ts, p, ops, w).running, n) == SlotAfter(ts, At(ops, n), Get(p.running, n), w(n)).0
  {
    if ops != [] {
      var front, last := ops[..|ops| - 1], ops[|ops| - 1];
      ExecAt(ts, p, front, w, n);
      if OpName(last) == n { AtFinds(front, n); }
    }
  }

  /** One operation touches the books of its own name only, in the map of its kind. */
  lemma RecordAt(l: Ledger, op: Op, err: Option<OpError>, n: string)
    ensures
      var l' := Record(l, op, err);
      var mine := OpName(op) == n && err.Some?;
      && Get(l'.addErrors, n) == (if mine && op.Add? then err else Get(l.addErrors, n))
      && Get(l'.removeErrors, n) == (if mine && op.Remove? then err else Get(l.removeErrors, n))
      && Get(l'.updateErrors, n) == (if mine && op.Update? then err else Get(l.updateErrors, n))
  {
  }

  /** The error recorded for the operation on `n`, in the map of that operation's kind only. */
  lemma {:induction false} LedgerAt(ts: Tailscale, running: map<string, Running>, ops: seq<Op>,
                                    w: string -> Outcome, n: string)
    requires DistinctNames(ops)
    ensures
      var l := Exec(ts, Progress(running, EMPTY_LEDGER), ops, w).ledger;
      var op := At(ops, n);
      var err := SlotAfter(ts, op, Get(running, n), w(n)).1;
      && Get(l.addErrors, n) == (if op.Some? && op.value.Add? then err else None)
      && Get(l.removeErrors, n) == (if op.Some? && op.value.Remove? then err else None)
      && Get(l.updateErrors, n) == (if op.Some? && op.value.Update? then err else None)
  {
    if ops != [] {
      var front, last := ops[..|ops| - 1], ops[|ops| - 1];
      LedgerAt(ts, running, front, w, n);
      var p := Exec(ts, Progress(running, EMPTY_LEDGER), front, w);
      var err := OpResult(ts, last, Get(p.running, OpName(last)), w(OpName(last))).1;
      RecordAt(p.ledger, last, err, n);
      if OpName(last) == n {
        AtFinds(front, n);
        ExecAt(ts, Progress(running, EMPTY_LEDGER), front, w, n);
      }
    }
  }

  /** The books balance: every operation is counted once, every failure is filed under its name in
      one of the three maps, and nothing else is. */
  lemma {:induction false} LedgerBalances(ts: Tailscale, running: map<string, Running>, ops: seq<Op>,
                                          w: string -> Outcome)
    requires DistinctNames(ops)
    ensures
      var l := Exec(ts, Progress(running, EMPTY_LEDGER), ops, w).ledger;
      && l.successful + l.failed == |ops|
      && l.failed == |l.addErrors| + |l.removeErrors| + |l.updateErrors|
  {
    if ops != [] {
      var front, last := ops[..|ops| - 1], ops[|ops| - 1];
      LedgerBalances(ts, running, front, w);
      LedgerAt(ts, running, front, w, OpName(last));
      AtFinds(front, OpName(last));
      var l := Exec(ts, Progress(running, EMPTY_LEDGER), front, w).ledger;
      assert OpName(last) !in l.addErrors && OpName(last) !in l.removeErrors && OpName(last) !in l.updateErrors;
    }
  }

  /** ToError returns nil exactly when every operation succeeded. */
  lemma {:induction false} NoFailureIffAllSucceed(ts: Tailscale, running: map<string, Running>, ops: seq<Op>,
                                                  w: string -> Outcome)
    requires DistinctNames(ops)
    ensures Exec(ts, Progress(running, EMPTY_LEDGER), ops, w).ledger.failed == 0
      <==> forall n :: SlotAfter(ts, At(ops, n), Get(running, n), w(n)).1.None?
  {
    if ops == [] {
      assert forall n :: At(ops, n).None?;
    } else {
      var front, last := ops[..|ops| - 1], ops[|ops| - 1];
      var m := OpName(last);
      NoFailureIffAllSucceed(ts, running, front, w);
      ExecAt(ts, Progress(running, EMPTY_LEDGER), front, w, m);
      AtFinds(front, m);
      assert At(front, m).None?;
      assert At(ops, m) == Some(last);
      assert forall n | n != m :: At(ops, n) == At(front, n);
    }
  }

  function OpNames(ops: seq<Op>): set<string> {
    if ops == [] then {} else OpNames(ops[..|ops| - 1]) + {OpName(ops[|ops| - 1])}
  }

  lemma {:induction false} OpNamesAt(ops: seq<Op>, n: string)
    ensures n in OpNames(ops) <==> At(ops, n).Some?
  {
    if ops != [] { OpNamesAt(ops[..|ops| - 1], n); }
  }

  /** Names are distinct exactly when there are as many of them as operations. */
  lemma {:induction false} DistinctIffCounted(ops: seq<Op>)
    ensures |OpNames(ops)| <= |ops|
    ensures |OpNames(ops)| == |ops| <==> DistinctNames(ops)
  {
    if ops != [] {
      var front, last := ops[..|ops| - 1], ops[|ops| - 1];
      DistinctIffCounted(front);
      OpNamesAt(front, OpName(last));
      AtFinds(front, OpName(last));
      DistinctAppend(ops);
      if OpName(last) in OpNames(front) {
        assert OpNames(ops) == OpNames(front);
      } else {
        assert |OpNames(ops)| == |OpNames(front)| + 1;
      }
    }
  }

  lemma DistinctAppend(ops: seq<Op>)
    requires ops != []
    ensures DistinctNames(ops) <==>
      DistinctNames(ops[..|ops| - 1]) && forall i | 0 <= i < |ops| - 1 :: OpName(ops[i]) != OpName(ops[|ops| - 1])
  {
  }

  lemma DistinctPermuted(ops: seq<Op>, ops': seq<Op>)
    requires DistinctNames(ops) && multiset(ops) == multiset(ops')
    ensures DistinctNames(ops') && |ops| == |ops'|
  {
    assert |ops| == |multiset(ops)| == |multiset(ops')| == |ops'|;
    forall n ensures n in OpNames(ops) <==> n in OpNames(ops') {
      NamesPermuted(ops, ops', n);
      NamesPermuted(ops', ops, n);
    }
    assert OpNames(ops) == OpNames(ops');
    DistinctIffCounted(ops);
    DistinctIffCounted(ops');
  }

  lemma NamesPermuted(ops: seq<Op>, ops': seq<Op>, n: string)
    requires multiset(ops) == multiset(ops')
    ensures n in OpNames(ops) ==> n in OpNames(ops')
  {
    OpNamesAt(ops, n);
    OpNamesAt(ops', n);
    AtFinds(ops, n);
    AtFinds(ops', n);
    if n in OpNames(ops) {
      var op := At(ops, n).value;
      assert op in multiset(ops');
      var i :| 0 <= i < |ops'| && ops'[i] == op;
    }
  }

  lemma AtPermuted(ops: seq<Op>, ops': seq<Op>, n: string)
    requires DistinctNames(ops) && multiset(ops) == multiset(ops')
    ensures At(ops, n) == At(ops', n)
  {
    AtFinds(ops, n);
    AtFinds(ops', n);
    if At(ops', n).Some? {
      var op := At(ops', n).value;
      assert op in multiset(ops') && op in ops;
      var i :| 0 <= i < |ops| && ops[i] == op;
    }
    if At(ops, n).Some? {
      var op := At(ops, n).value;
      assert op in multiset(ops) && op in ops';
      var i :| 0 <= i < |ops'| && ops'[i] == op;
      var j :| 0 <= j < |ops| && ops[j] == op;
      var op' := At(ops', n).value;
      assert op' in multiset(ops') && op' in ops;
      var k :| 0 <= k < |ops| && ops[k] == op';
    }
  }

  /** Any interleaving of the same operations with the same per-name outcomes ends in the same
      registry and the same ledger. */
  lemma OrderIsImmaterial(ts: Tailscale, running: map<string, Running>, ops: seq<Op>, ops': seq<Op>,
                          w: string -> Outcome)
    requires DistinctNames(ops) && multiset(ops) == multiset(ops')
    ensures Exec(ts, Progress(running, EMPTY_LEDGER), ops, w) == Exec(ts, Progress(running, EMPTY_LEDGER), ops', w)
  {
    DistinctPermuted(ops, ops');
    var p := Progress(running, EMPTY_LEDGER);
    var e, e' := Exec(ts, p, ops, w), Exec(ts, p, ops', w);
    forall n
      ensures Get(e.running, n) == Get(e'.running, n)
      ensures Get(e.ledger.addErrors, n) == Get(e'.ledger.addErrors, n)
      ensures Get(e.ledger.removeErrors, n) == Get(e'.ledger.removeErrors, n)
      ensures Get(e.ledger.updateErrors, n) == Get(e'.ledger.updateErrors, n)
    {
      AtPermuted(ops, ops', n);
      ExecAt(ts, p, ops, w, n);
      ExecAt(ts, p, ops', w, n);
      LedgerAt(ts, running, ops, w, n);
      LedgerAt(ts, running, ops', w, n);
    }
    SameEntries(e.running, e'.running);
    SameEntries(e.ledger.addErrors, e'.ledger.addErrors);
    SameEntries(e.ledger.removeErrors, e'.ledger.removeErrors);
    SameEntries(e.ledger.updateErrors, e'.ledger.updateErrors);
    LedgerBalances(ts, running, ops, w);
    LedgerBalances(ts, running, ops', w);
  }

  /** StartServices: the registry it leaves and the failures it reports, by name. */
  datatype Startup = Startup(running: map<string, Running>, failures: map<string, OpError>, successful: nat)

  function StartOne(ts: Tailscale, before: Startup, svc: Service, w: string -> Outcome): Startup {
    if Starts(ts, svc, w(svc.name))
    then before.(running := before.running[svc.name := Running(svc, true)], successful := before.successful + 1)
    else before.(failures := before.failures[svc.name := StartFailed])
  }

  function StartAll(ts: Tailscale, ss: seq<Service>, w: string -> Outcome): Startup {
    if ss == [] then Startup(map[], map[], 0)
    else StartOne(ts, StartAll(ts, ss[..|ss| - 1], w), ss[|ss| - 1], w)
  }
}
