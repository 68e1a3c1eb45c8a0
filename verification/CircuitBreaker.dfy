/**
 The circuit breaker and the fallback provider that drives it.  A breaker is specified by the
 log of its calls alone; time is an arbitrary reading per call.
 */
module CircuitBreaker {
  import opened Prelude

  datatype Event = Asked(at: int) | Succeeded | Failed(at: int)

  datatype Config = Config(threshold: nat, cooldown: int)

  // ---- What the log says ----

  function Failures(log: seq<Event>): nat {
    if log == [] then 0
    else
      match log[|log| - 1]
      case Succeeded => 0
      case Failed(_) => Failures(log[..|log| - 1]) + 1
      case Asked(_) => Failures(log[..|log| - 1])
  }

  function LastFailure(log: seq<Event>): Option<int> {
    if log == [] then None
    else if log[|log| - 1].Failed? then Some(log[|log| - 1].at)
    else LastFailure(log[..|log| - 1])
  }

  /** Enough failures since the last success; a threshold of zero acts like one. */
  predicate Tripped(cfg: Config, log: seq<Event>) {
    Failures(log) >= if cfg.threshold == 0 then 1 else cfg.threshold
  }

  /** A call admitted while tripped. */
  predicate Probe(cfg: Config, log: seq<Event>, at: int)
    decreases |log|, 1
  {
    Tripped(cfg, log) && !Probing(cfg, log) && LastFailure(log).Some? && at - LastFailure(log).value >= cfg.cooldown
  }

  /** A probe was admitted and no result recorded since. */
  predicate Probing(cfg: Config, log: seq<Event>)
    decreases |log|, 0
  {
    && log != [] && log[|log| - 1].Asked?
    && (Probing(cfg, log[..|log| - 1]) || Probe(cfg, log[..|log| - 1], log[|log| - 1].at))
  }

  predicate Admits(cfg: Config, log: seq<Event>, at: int) {
    !Tripped(cfg, log) || Probe(cfg, log, at)
  }

  lemma LogPush(cfg: Config, log: seq<Event>, e: Event)
    ensures Failures(log + [e])
            == match e case Succeeded => 0 case Failed(_) => Failures(log) + 1 case Asked(_) => Failures(log)
    ensures LastFailure(log + [e]) == if e.Failed? then Some(e.at) else LastFailure(log)
    ensures Probing(cfg, log + [e]) <==> e.Asked? && (Probing(cfg, log) || Probe(cfg, log, e.at))
  {
    assert (log + [e])[..|log|] == log;
  }

  // ---- The breaker ----

  datatype State = Closed | Open | HalfOpen

  /** The breaker's fields are what the log says. */
  ghost predicate Fits(cfg: Config, log: seq<Event>, failures: nat, state: State, openedAt: Option<int>) {
    && failures == Failures(log)
    && (state == Closed <==> !Tripped(cfg, log))
    && (state == HalfOpen <==> Probing(cfg, log))
    && (state != Closed ==> openedAt.Some? && openedAt == LastFailure(log))
  }

  function AfterAsking(cfg: Config, state: State, openedAt: Option<int>, now: int): State {
    if state == Open && openedAt.Some? && now - openedAt.value >= cfg.cooldown then HalfOpen else state
  }

  lemma AskFits(cfg: Config, log: seq<Event>, failures: nat, state: State, openedAt: Option<int>, now: int)
    requires Fits(cfg, log, failures, state, openedAt)
    ensures var state' := AfterAsking(cfg, state, openedAt, now);
            && Fits(cfg, log + [Asked(now)], failures, state', openedAt)
            && (Admits(cfg, log, now) <==> state == Closed || state' != state)
  {
    LogPush(cfg, log, Asked(now));
    ProbingIsTripped(cfg, log);
  }

  lemma FailFits(cfg: Config, log: seq<Event>, failures: nat, state: State, openedAt: Option<int>, now: int)
    requires Fits(cfg, log, failures, state, openedAt)
    ensures if state == HalfOpen || failures + 1 >= cfg.threshold
            then Fits(cfg, log + [Failed(now)], failures + 1, Open, Some(now))
            else Fits(cfg, log + [Failed(now)], failures + 1, state, openedAt)
  {
    LogPush(cfg, log, Failed(now));
    ProbingIsTripped(cfg, log);
  }

  lemma SucceedFits(cfg: Config, log: seq<Event>, openedAt: Option<int>)
    ensures Fits(cfg, log + [Succeeded], 0, Closed, openedAt)
  {
    LogPush(cfg, log, Succeeded);
  }

  class Breaker {
    const cfg: Config
    var failures: nat
    var state: State
    var openedAt: Option<int>
    ghost var log: seq<Event>

    ghost predicate Valid()
      reads this
    {
      Fits(cfg, log, failures, state, openedAt)
    }

    constructor (cfg: Config)
      ensures Valid() && log == [] && this.cfg == cfg
    {
      this.cfg := cfg;
      failures, state, openedAt, log := 0, Closed, None, [];
    }

    method Allow(now: int) returns (ok: bool)
      requires Valid()
      modifies this
      ensures Valid() && log == old(log) + [Asked(now)]
      ensures ok <==> Admits(cfg, old(log), now)
    {
      AskFits(cfg, log, failures, state, openedAt, now);
      log := log + [Asked(now)];
      match state {
        case Closed => return true;
        case Open =>
          if openedAt.Some? && now - openedAt.value >= cfg.cooldown {
            state := HalfOpen;
            return true;
          }
          return false;
        case HalfOpen => return false;
      }
    }

    method RecordSuccess()
      requires Valid()
      modifies this
      ensures Valid() && log == old(log) + [Succeeded]
    {
      SucceedFits(cfg, log, openedAt);
      log := log + [Succeeded];
      failures := 0;
      state := Closed;
    }

    method RecordFailure(now: int)
      requires Valid()
      modifies this
      ensures Valid() && log == old(log) + [Failed(now)]
    {
      FailFits(cfg, log, failures, state, openedAt, now);
      log := log + [Failed(now)];
      failures := failures + 1;
      if state == HalfOpen || failures >= cfg.threshold {
        state := Open;
        openedAt := Some(now);
      }
    }
  }

  lemma {:induction false} ProbingIsTripped(cfg: Config, log: seq<Event>)
    ensures Probing(cfg, log) ==> Tripped(cfg, log)
  {
    if log != [] && log[|log| - 1].Asked? {
      var front := log[..|log| - 1];
      ProbingIsTripped(cfg, front);
      assert Probe(cfg, front, log[|log| - 1].at) ==> Tripped(cfg, front);
      assert Failures(log) == Failures(front);
    }
  }

  // ---- Over whole runs ----

  /** The call at `i` asked and was let through as a probe. */
  predicate ProbeAt(cfg: Config, log: seq<Event>, i: nat) {
    i < |log| && log[i].Asked? && Probe(cfg, log[..i], log[i].at)
  }

  predicate RecordAt(log: seq<Event>, i: nat) {
    i < |log| && !log[i].Asked?
  }

  /** Where the latest failure stands in the log. */
  lemma {:induction false} LatestFailure(log: seq<Event>) returns (k: nat)
    requires LastFailure(log).Some?
    ensures k < |log| && log[k] == Failed(LastFailure(log).value)
    ensures forall j :: k < j < |log| ==> !log[j].Failed?
  {
    var n := |log| - 1;
    if log[n].Failed? {
      k := n;
    } else {
      k := LatestFailure(log[..n]);
      assert forall j :: k < j < n ==> log[j] == log[..n][j];
    }
  }

  /** Since the last success, or ever, there is a failure for every one counted. */
  lemma {:induction false} NoFailureNoCount(log: seq<Event>, i: nat)
    requires i < |log| && log[i].Succeeded? && forall j :: i < j < |log| ==> !log[j].Failed?
    ensures Failures(log) == 0
    decreases |log|
  {
    var n := |log| - 1;
    if i < n {
      assert forall j :: i < j < n ==> log[..n][j] == log[j];
      NoFailureNoCount(log[..n], i);
    }
  }

  lemma {:induction false} ProbePersists(cfg: Config, log: seq<Event>, i: nat)
    requires ProbeAt(cfg, log, i) && forall j :: i < j < |log| ==> !RecordAt(log, j)
    ensures Probing(cfg, log)
    decreases |log|
  {
    var n := |log| - 1;
    var front := log[..n];
    if i < n {
      assert front[..i] == log[..i];
      forall j | i < j < |front| ensures !RecordAt(front, j) { assert !RecordAt(log, j); }
      ProbePersists(cfg, front, i);
      assert !RecordAt(log, n);
    }
  }

  /** A probe comes at least a cooldown after the latest failure, and between two probes there was a failure. */
  lemma ProbesAreSpaced(cfg: Config, log: seq<Event>, i: nat, j: nat) returns (k: nat)
    requires ProbeAt(cfg, log, i) && ProbeAt(cfg, log, j) && i < j
    ensures i < k < j && log[k].Failed? && log[j].at - log[k].at >= cfg.cooldown
    ensures forall m :: k < m < j ==> !log[m].Failed?
  {
    var before := log[..j];
    k := LatestFailure(before);
    assert before[..i] == log[..i] && before[i] == log[i];
    assert forall m :: 0 <= m < j ==> before[m] == log[m];
    if k < i {
      if r :| i < r < j && RecordAt(before, r) {
        NoFailureNoCount(before, r);
      } else {
        ProbePersists(cfg, before, i);
      }
      assert false;
    }
  }

  /** While a probe has no recorded result, every call is refused, however long it takes. */
  lemma {:induction false} UnrecordedProbeBlocks(cfg: Config, log: seq<Event>, later: seq<Event>)
    requires Probing(cfg, log) && forall k :: 0 <= k < |later| ==> later[k].Asked?
    ensures Probing(cfg, log + later) && forall at :: !Admits(cfg, log + later, at)
  {
    if later != [] {
      var n := |later| - 1;
      UnrecordedProbeBlocks(cfg, log, later[..n]);
      assert (log + later)[..|log| + n] == log + later[..n];
    } else {
      assert log + later == log;
    }
    ProbingIsTripped(cfg, log + later);
  }

  // ---- The fallback provider ----

  const FALLBACK := Config(3, 60)

  /**
   One request as it turns out: the primary answers or fails at some time, or the request is
   dropped while it waits.
   */
  datatype Outcome = Answered | Refused(at: int) | Dropped

  datatype Request = Request(at: int, primary: Outcome)

  /** What the request adds to the breaker's log. */
  function Logged(log: seq<Event>, r: Request): seq<Event> {
    [Asked(r.at)] +
    if !Admits(FALLBACK, log, r.at) then []
    else match r.primary
      case Answered => [Succeeded]
      case Refused(at) => [Failed(at)]
      case Dropped => []
  }

  datatype Served = ByPrimary | ByFallback | ByNobody

  function Serves(log: seq<Event>, r: Request): Served {
    if !Admits(FALLBACK, log, r.at) then ByFallback
    else match r.primary
      case Answered => ByPrimary
      case Refused(_) => ByFallback
      case Dropped => ByNobody
  }

  /** The fallback serves exactly the requests the breaker refuses and those on which the primary fails. */
  lemma FallbackServesIff(log: seq<Event>, r: Request)
    ensures Serves(log, r) == ByFallback <==> !Admits(FALLBACK, log, r.at) || r.primary.Refused?
    ensures Serves(log, r) == ByPrimary <==> Admits(FALLBACK, log, r.at) && r.primary.Answered?
  {
  }

  class FallbackProvider {
    const circuit: Breaker

    constructor ()
      ensures circuit.Valid() && circuit.log == [] && circuit.cfg == FALLBACK && fresh(circuit)
    {
      circuit := new Breaker(FALLBACK);
    }

    method Chat(r: Request) returns (served: Served)
      requires circuit.Valid() && circuit.cfg == FALLBACK
      modifies circuit
      ensures circuit.Valid() && circuit.log == old(circuit.log) + Logged(old(circuit.log), r)
      ensures served == Serves(old(circuit.log), r)
      ensures served == ByPrimary <==> Admits(FALLBACK, old(circuit.log), r.at) && r.primary.Answered?
      ensures served == ByNobody <==> Admits(FALLBACK, old(circuit.log), r.at) && r.primary.Dropped?
    {
      var ok := circuit.Allow(r.at);
      if ok {
        match r.primary {
          case Answered =>
            circuit.RecordSuccess();
            return ByPrimary;
          case Refused(at) =>
            circuit.RecordFailure(at);
          case Dropped =>
            return ByNobody;
        }
      }
      return ByFallback;
    }
  }

  function LogOf(log: seq<Event>, requests: seq<Request>): seq<Event> {
    if requests == [] then log
    else
      var before := LogOf(log, requests[..|requests| - 1]);
      before + Logged(before, requests[|requests| - 1])
  }

  /** Some later request gets through to the primary. */
  ghost predicate AskedAgain(log: seq<Event>) {
    exists later: seq<Request>, r: Request :: Admits(FALLBACK, LogOf(log, later), r.at)
  }

  /** While a probe is unanswered, requests made one after another all go to the fallback. */
  lemma {:induction false} ProbingIsForever(log: seq<Event>, later: seq<Request>)
    requires Probing(FALLBACK, log)
    ensures Probing(FALLBACK, LogOf(log, later)) && forall r :: Serves(LogOf(log, later), r) == ByFallback
  {
    if later != [] {
      ProbingIsForever(log, later[..|later| - 1]);
      var before, r := LogOf(log, later[..|later| - 1]), later[|later| - 1];
      ProbingServesNobody(before, r);
      LogPush(FALLBACK, before, Asked(r.at));
    }
    forall r ensures Serves(LogOf(log, later), r) == ByFallback { ProbingServesNobody(LogOf(log, later), r); }
  }

  /** One probe dropped while it waits and the primary is never asked again. */
  lemma DroppedProbeIsForever(log: seq<Event>, dropped: Request, later: seq<Request>)
    requires dropped.primary.Dropped? && Probe(FALLBACK, log, dropped.at)
    ensures var now := LogOf(log + Logged(log, dropped), later);
            Probing(FALLBACK, now) && forall r :: Serves(now, r) == ByFallback
  {
    LogPush(FALLBACK, log, Asked(dropped.at));
    assert Logged(log, dropped) == [Asked(dropped.at)];
    ProbingIsForever(log + [Asked(dropped.at)], later);
  }

  /** After a probe that is answered or refused, a request late enough is admitted. */
  lemma RecordedProbeReopens(log: seq<Event>, probe: Request) returns (r: Request)
    requires Probe(FALLBACK, log, probe.at) && !probe.primary.Dropped?
    ensures Admits(FALLBACK, log + Logged(log, probe), r.at)
  {
    var asked := log + [Asked(probe.at)];
    if probe.primary.Answered? {
      LogPush(FALLBACK, asked, Succeeded);
      assert log + Logged(log, probe) == asked + [Succeeded];
      r := probe;
    } else {
      var at := probe.primary.at;
      LogPush(FALLBACK, asked, Failed(at));
      assert log + Logged(log, probe) == asked + [Failed(at)];
      r := Request(at + FALLBACK.cooldown, Answered);
    }
  }

  /**
   With requests made one after another, the primary is asked again after a probe exactly if
   that probe is not dropped.
   */
  lemma AskedAgainIff(log: seq<Event>, probe: Request)
    requires Probe(FALLBACK, log, probe.at)
    ensures AskedAgain(log + Logged(log, probe)) <==> !probe.primary.Dropped?
  {
    var now := log + Logged(log, probe);
    if probe.primary.Dropped? {
      forall later: seq<Request>, r: Request ensures !Admits(FALLBACK, LogOf(now, later), r.at) {
        DroppedProbeIsForever(log, probe, later);
        assert Serves(LogOf(now, later), Request(r.at, Answered)) == ByFallback;
      }
    } else {
      var r := RecordedProbeReopens(log, probe);
      assert LogOf(now, []) == now;
    }
  }

  const REFUSED := Request(0, Refused(0))

  lemma ThreeRefusals()
    ensures var log := LogOf([], [REFUSED, REFUSED, REFUSED]);
            Failures(log) == 3 && LastFailure(log) == Some(0) && !Probing(FALLBACK, log)
  {
    RefusalLogged([], REFUSED);
    RefusalLogged([] + [REFUSED], REFUSED);
    RefusalLogged([] + [REFUSED] + [REFUSED], REFUSED);
    assert [] + [REFUSED] + [REFUSED] + [REFUSED] == [REFUSED, REFUSED, REFUSED];
  }

  /** Three refusals, and a minute later a request that is dropped: the primary is never asked again. */
  lemma PrimaryCanBeLost()
    ensures var log := LogOf([], [REFUSED, REFUSED, REFUSED]);
            Probe(FALLBACK, log, 60) && !AskedAgain(log + Logged(log, Request(60, Dropped)))
  {
    ThreeRefusals();
    AskedAgainIff(LogOf([], [REFUSED, REFUSED, REFUSED]), Request(60, Dropped));
  }

  /** A refused request that is admitted as the failures are still too few. */
  lemma RefusalLogged(requests: seq<Request>, r: Request)
    requires Failures(LogOf([], requests)) < 3 && r.primary.Refused?
    ensures var log, now := LogOf([], requests), LogOf([], requests + [r]);
            && Failures(now) == Failures(log) + 1 && LastFailure(now) == Some(r.primary.at) && !Probing(FALLBACK, now)
  {
    var log := LogOf([], requests);
    assert (requests + [r])[..|requests|] == requests;
    LogPush(FALLBACK, log, Asked(r.at));
    LogPush(FALLBACK, log + [Asked(r.at)], Failed(r.primary.at));
    assert Logged(log, r) == [Asked(r.at), Failed(r.primary.at)];
    assert log + Logged(log, r) == log + [Asked(r.at)] + [Failed(r.primary.at)];
  }

  lemma ProbingServesNobody(log: seq<Event>, r: Request)
    requires Probing(FALLBACK, log)
    ensures Serves(log, r) == ByFallback && Logged(log, r) == [Asked(r.at)]
  {
    ProbingIsTripped(FALLBACK, log);
  }
}
