/** The inference cascade: a circuit breaker per route, and one call failing over
    from route to route while other calls use the same breakers. */
module Cascade {
  import opened Common
  import opened Wrappers

  type Time = int   // 0 stands for the zero time

  datatype RouteStatus = RouteStatus(failures: nat, retryAt: Time, probing: bool)

  // ---------- the breaker of one route ----------

  const HEALTHY: RouteStatus := RouteStatus(0, 0, false)

  function Admit(s: RouteStatus, now: Time): (RouteStatus, bool) {
    if s.failures == 0 then (s, true)
    else if s.probing || now < s.retryAt then (s, false)
    else (s.(probing := true), true)
  }

  function Conclude(s: RouteStatus, ok: bool, cancelled: bool, now: Time, cooldown: Time): RouteStatus {
    var idle := s.(probing := false);
    if cancelled then idle
    else if ok then HEALTHY
    else idle.(failures := idle.failures + 1, retryAt := now + cooldown)
  }

  /** What calls do to a breaker, in the order the mutex lets them. */
  datatype Op = Acquire(now: Time) | Finish(ok: bool, cancelled: bool, now: Time)

  function Apply(s: RouteStatus, op: Op, cooldown: Time): RouteStatus {
    match op
    case Acquire(now) => Admit(s, now).0
    case Finish(ok, cancelled, now) => Conclude(s, ok, cancelled, now, cooldown)
  }

  function Run(s: RouteStatus, ops: seq<Op>, cooldown: Time): RouteStatus
    decreases |ops|
  {
    if ops == [] then s else Run(Apply(s, ops[0], cooldown), ops[1..], cooldown)
  }

  /** A route without failures is neither probed nor cooling down. */
  predicate Consistent(s: RouteStatus) {
    s.failures == 0 ==> s == HEALTHY
  }

  lemma {:induction false} BreakerStaysConsistent(s: RouteStatus, ops: seq<Op>, cooldown: Time)
    requires Consistent(s)
    ensures Consistent(Run(s, ops, cooldown))
    decreases |ops|
  {
    if ops != [] {
      BreakerStaysConsistent(Apply(s, ops[0], cooldown), ops[1..], cooldown);
    }
  }

  predicate AllCancelled(ops: seq<Op>) {
    forall i | 0 <= i < |ops| && ops[i].Finish? :: ops[i].cancelled
  }

  /** However many calls come, go and are cancelled, a route's failures and retry
      time stay what they were. */
  lemma {:induction false} CancellationIsNeutral(s: RouteStatus, ops: seq<Op>, cooldown: Time)
    requires AllCancelled(ops)
    ensures var t := Run(s, ops, cooldown);
            t.failures == s.failures && t.retryAt == s.retryAt
    decreases |ops|
  {
    if ops != [] {
      CancellationIsNeutral(Apply(s, ops[0], cooldown), ops[1..], cooldown);
    }
  }

  predicate OnlyAcquires(ops: seq<Op>) {
    forall i | 0 <= i < |ops| :: ops[i].Acquire?
  }

  /** From a probe's admission until the next finish on the route, every other
      acquire is refused and nothing changes. */
  lemma {:induction false} ProbeExcludes(s: RouteStatus, now: Time, others: seq<Op>, later: Time, cooldown: Time)
    requires s.failures > 0 && Admit(s, now).1 && OnlyAcquires(others)
    ensures Run(Admit(s, now).0, others, cooldown) == Admit(s, now).0
    ensures Admit(Run(Admit(s, now).0, others, cooldown), later) == (Admit(s, now).0, false)
    decreases |others|
  {
    if others != [] {
      assert Apply(Admit(s, now).0, others[0], cooldown) == Admit(s, now).0;
      ProbeExcludes(s, now, others[1..], later, cooldown);
    }
  }

  /** After a failure the route is left alone until its cooldown has passed. */
  lemma {:induction false} CooldownHolds(s: RouteStatus, failedAt: Time, others: seq<Op>, now: Time, cooldown: Time)
    requires OnlyAcquires(others) && now < failedAt + cooldown
    requires forall i | 0 <= i < |others| :: others[i].now < failedAt + cooldown
    ensures var failed := Conclude(s, false, false, failedAt, cooldown);
            Run(failed, others, cooldown) == failed && !Admit(failed, now).1
    decreases |others|
  {
    if others != [] {
      CooldownHolds(s, failedAt, others[1..], now, cooldown);
    }
  }

  predicate AnyFinish(ops: seq<Op>) {
    exists i :: 0 <= i < |ops| && ops[i].Finish?
  }

  /** The last finish that says something about the provider. */
  function LastVerdict(ops: seq<Op>): (f: Option<Op>)
    ensures f.Some? ==> f.value.Finish? && !f.value.cancelled
  {
    if ops == [] then None
    else if ops[|ops| - 1].Finish? && !ops[|ops| - 1].cancelled then Some(ops[|ops| - 1])
    else LastVerdict(ops[..|ops| - 1])
  }

  /** No acquire among ops is let through. */
  predicate NoneAdmitted(s: RouteStatus, ops: seq<Op>, cooldown: Time)
    decreases |ops|
  {
    ops == [] || ((ops[0].Acquire? ==> !Admit(s, ops[0].now).1)
                  && NoneAdmitted(Apply(s, ops[0], cooldown), ops[1..], cooldown))
  }

  lemma {:induction false} RunLast(s: RouteStatus, ops: seq<Op>, op: Op, cooldown: Time)
    ensures Run(s, ops + [op], cooldown) == Apply(Run(s, ops, cooldown), op, cooldown)
    ensures NoneAdmitted(s, ops + [op], cooldown) <==>
              NoneAdmitted(s, ops, cooldown) && (op.Acquire? ==> !Admit(Run(s, ops, cooldown), op.now).1)
    decreases |ops|
  {
    if ops == [] {
      assert [op][1..] == [] && [] + [op] == [op];
    } else {
      assert (ops + [op])[0] == ops[0] && (ops + [op])[1..] == ops[1..] + [op];
      RunLast(Apply(s, ops[0], cooldown), ops[1..], op, cooldown);
    }
  }

  /** The breaker after a probe's admission and any ops that let nobody in. */
  ghost predicate AfterProbe(s: RouteStatus, ops: seq<Op>, v: RouteStatus, cooldown: Time) {
    && v.probing == !AnyFinish(ops)
    && match LastVerdict(ops)
       case None => v.failures == s.failures && v.retryAt == s.retryAt
       case Some(f) => if f.ok then v.failures == 0 else v.failures > 0 && v.retryAt == f.now + cooldown
  }

  lemma {:induction false} ProbeUnfolds(s: RouteStatus, now: Time, ops: seq<Op>, cooldown: Time)
    requires s.failures > 0 && Admit(s, now).1 && NoneAdmitted(Admit(s, now).0, ops, cooldown)
    ensures AfterProbe(s, ops, Run(Admit(s, now).0, ops, cooldown), cooldown)
    decreases |ops|
  {
    if ops != [] {
      var n := |ops| - 1;
      var front, last := ops[..n], ops[n];
      assert ops == front + [last];
      RunLast(Admit(s, now).0, front, last, cooldown);
      ProbeUnfolds(s, now, front, cooldown);
      assert forall i | 0 <= i < n :: ops[i] == front[i];
      assert AnyFinish(ops) <==> AnyFinish(front) || last.Finish? by {
        assert last.Finish? ==> ops[n].Finish?;
        if AnyFinish(front) {
          var i :| 0 <= i < n && front[i].Finish?;
          assert ops[i].Finish?;
        }
      }
    }
  }

  /** Exactly when another call gets in beside a probe that has not finished. For
      any failing route and admitted probe, and any interleaving of other calls'
      acquires and finishes that let nobody in so far: the next acquire is admitted
      if and only if some other call finished meanwhile and, by the last such finish
      that was not cancelled, the route is well or has cooled down again; if all
      were cancelled, the probe's own retry time has to have passed. */
  lemma SecondAdmissionExactlyWhen(s: RouteStatus, now: Time, ops: seq<Op>, later: Time, cooldown: Time)
    requires s.failures > 0 && Admit(s, now).1 && NoneAdmitted(Admit(s, now).0, ops, cooldown)
    ensures Admit(Run(Admit(s, now).0, ops, cooldown), later).1
            <==> AnyFinish(ops) && match LastVerdict(ops)
                                   case None => later >= s.retryAt
                                   case Some(f) => f.ok || later >= f.now + cooldown
  {
    hide AnyFinish, LastVerdict, Run, NoneAdmitted;
    ProbeUnfolds(s, now, ops, cooldown);
    VerdictIsAFinish(ops);
  }

  lemma {:induction false} VerdictIsAFinish(ops: seq<Op>)
    ensures LastVerdict(ops).Some? ==> AnyFinish(ops)
  {
    if ops != [] && LastVerdict(ops).Some? && !(ops[|ops| - 1].Finish? && !ops[|ops| - 1].cancelled) {
      VerdictIsAFinish(ops[..|ops| - 1]);
      var i :| 0 <= i < |ops| - 1 && ops[..|ops| - 1][i].Finish?;
      assert ops[i].Finish?;
    }
  }

  /** One late finish, with other calls trying before and after it: somebody gets in
      if and only if one of the later tries meets that condition. */
  lemma {:induction false} LateFinishAdmitsExactlyWhen(s: RouteStatus, now: Time, before: seq<Op>, f: Op,
                                                       tries: seq<Op>, cooldown: Time)
    requires s.failures > 0 && Admit(s, now).1 && OnlyAcquires(before) && f.Finish? && OnlyAcquires(tries)
    ensures var v := Apply(Run(Admit(s, now).0, before, cooldown), f, cooldown);
            !NoneAdmitted(v, tries, cooldown)
            <==> exists i :: 0 <= i < |tries|
                              && if f.cancelled then tries[i].now >= s.retryAt
                                 else (f.ok || tries[i].now >= f.now + cooldown)
  {
    ProbeExcludes(s, now, before, now, cooldown);
    TriesExactlyWhen(Apply(Admit(s, now).0, f, cooldown), tries, cooldown);
  }

  /** Tries at an idle breaker change nothing until one is admitted. */
  lemma {:induction false} TriesExactlyWhen(v: RouteStatus, tries: seq<Op>, cooldown: Time)
    requires OnlyAcquires(tries)
    ensures !NoneAdmitted(v, tries, cooldown) <==> exists i :: 0 <= i < |tries| && Admit(v, tries[i].now).1
    decreases |tries|
  {
    if tries != [] {
      var rest := tries[1..];
      if !Admit(v, tries[0].now).1 {
        TriesExactlyWhen(v, rest, cooldown);
        if i :| 0 <= i < |rest| && Admit(v, rest[i].now).1 {
          assert tries[i + 1] == rest[i];
        }
        if i :| 0 <= i < |tries| && Admit(v, tries[i].now).1 {
          assert rest[i - 1] == tries[i];
        }
      }
    }
  }

  /** For example: two calls admitted while the route was healthy, one failing and
      one cancelled late, put two probes in flight at once. */
  lemma LateFinishAdmitsSecondProbe(cooldown: Time)
    requires cooldown > 0
    ensures var before := Run(HEALTHY, [Acquire(0), Acquire(0), Finish(false, false, 0)], cooldown);
            var probe := Admit(before, cooldown);
            var after := Apply(probe.0, Finish(true, true, cooldown), cooldown);
            before.failures == 1 && probe.1 && probe.0.probing && Admit(after, cooldown).1
              && Admit(after, cooldown).0.probing
  {
    var ops := [Acquire(0), Acquire(0), Finish(false, false, 0)];
    assert ops[1..] == [Acquire(0), Finish(false, false, 0)];
    assert ops[1..][1..] == [Finish(false, false, 0)];
    assert ops[1..][1..][1..] == [];
  }

  // ---------- one call ----------

  /** What happens during one call, other calls aside. Emission is a callback
      that marks the attempt: non-empty text or thinking, a tool call or result,
      or usage. */
  datatype Event =
    | Refused(route: nat)
    | Acquired(route: nat)
    | Emitted(route: nat)
    | Finished(route: nat, ok: bool, cancelled: bool)

  /** What one turn of the call meets: whether its context is already cancelled,
      the breaker other calls left behind, what the provider does, whether the context
      is cancelled when the attempt is finished or only when it is looked at once
      more after that, and the breaker and clock at its end. */
  datatype Turn = Turn(canceledBefore: bool, found: RouteStatus, now: Time, emissions: nat, ok: bool, canceled: bool,
                       canceledAfter: bool, left: RouteStatus, finishedAt: Time)

  /** Lost: the attempt failed after emitting, so it cannot be replayed elsewhere. */
  datatype Outcome = Response(route: nat) | Canceled | Lost(route: nat) | Failed(failures: nat) | CoolingDown

  /** A cancelled context stays cancelled. */
  predicate CanceledByThen(t: Turn) {
    t.canceled || t.canceledAfter
  }

  function Emissions(route: nat, n: nat): seq<Event> {
    seq(n, _ => Emitted(route))
  }

  /** The events of an attempt that was admitted. */
  function Tried(route: nat, t: Turn): seq<Event> {
    [Acquired(route)] + Emissions(route, t.emissions) + [Finished(route, t.ok, t.canceled)]
  }

  /** The call from position k of its order on, with so many failures behind it. */
  function Trace(order: seq<nat>, turns: nat -> Turn, k: nat, failures: nat): (seq<Event>, Outcome)
    requires k <= |order|
    decreases |order| - k
  {
    if k == |order| then ([], if failures == 0 then CoolingDown else Failed(failures)) else
      var t := turns(k);
      if t.canceledBefore then ([], Canceled)
      else if !Admit(t.found, t.now).1 then
        var (log, outcome) := Trace(order, turns, k + 1, failures);
        ([Refused(order[k])] + log, outcome)
      else if CanceledByThen(t) then (Tried(order[k], t), Canceled)
      else if t.ok then (Tried(order[k], t), Response(order[k]))
      else if t.emissions > 0 then (Tried(order[k], t), Lost(order[k]))
      else
        var (log, outcome) := Trace(order, turns, k + 1, failures + 1);
        (Tried(order[k], t) + log, outcome)
  }

  function Acquires(log: seq<Event>, route: nat): nat {
    if log == [] then 0
    else Acquires(log[..|log| - 1], route) + if log[|log| - 1] == Acquired(route) then 1 else 0
  }

  function Finishes(log: seq<Event>, route: nat): nat {
    if log == [] then 0
    else Finishes(log[..|log| - 1], route) + if log[|log| - 1].Finished? && log[|log| - 1].route == route then 1 else 0
  }

  ghost predicate NoEmission(log: seq<Event>) {
    forall i | 0 <= i < |log| :: !log[i].Emitted?
  }

  /** After an emission there is nothing but the rest of that attempt. */
  ghost predicate EmissionIsLast(log: seq<Event>) {
    forall i, k | 0 <= i < k < |log| && log[i].Emitted? :: (log[k].Emitted? || log[k].Finished?)
      && log[k].route == log[i].route
  }

  lemma {:induction false} CountsJoin(a: seq<Event>, b: seq<Event>, route: nat)
    ensures Acquires(a + b, route) == Acquires(a, route) + Acquires(b, route)
    ensures Finishes(a + b, route) == Finishes(a, route) + Finishes(b, route)
    decreases |b|
  {
    if b == [] {
      assert a + b == a;
    } else {
      var n := |b| - 1;
      CountsJoin(a, b[..n], route);
      assert (a + b)[..|a| + n] == a + b[..n];
    }
  }

  lemma {:induction false} EmissionsCountNothing(route: nat, n: nat, r: nat)
    ensures Acquires(Emissions(route, n), r) == 0 == Finishes(Emissions(route, n), r)
  {
    if n > 0 {
      EmissionsCountNothing(route, n - 1, r);
      assert Emissions(route, n)[..n - 1] == Emissions(route, n - 1);
    }
  }

  lemma TriedCounts(route: nat, t: Turn, r: nat)
    ensures Acquires(Tried(route, t), r) == Finishes(Tried(route, t), r) == if r == route then 1 else 0
  {
    EmissionsCountNothing(route, t.emissions, r);
    CountsJoin([Acquired(route)], Emissions(route, t.emissions), r);
    CountsJoin([Acquired(route)] + Emissions(route, t.emissions), [Finished(route, t.ok, t.canceled)], r);
    assert [Acquired(route)][..0] == [] && [Finished(route, t.ok, t.canceled)][..0] == [];
  }

  lemma RefusedCounts(route: nat, r: nat)
    ensures Acquires([Refused(route)], r) == 0 == Finishes([Refused(route)], r)
  {
    assert [Refused(route)][..0] == [];
  }

  /** A route before position k is not touched from there on. */
  lemma {:induction false} LaterTurnsLeaveItAlone(order: seq<nat>, turns: nat -> Turn, k: nat,
                                                  failures: nat, route: nat)
    requires k <= |order| && forall p | k <= p < |order| :: order[p] != route
    ensures var log := Trace(order, turns, k, failures).0;
            Acquires(log, route) == 0 == Finishes(log, route)
    decreases |order| - k
  {
    hide Tried;
    if k < |order| {
      var t := turns(k);
      TriedCounts(order[k], t, route);
      RefusedCounts(order[k], route);
      LaterTurnsLeaveItAlone(order, turns, k + 1, failures, route);
      LaterTurnsLeaveItAlone(order, turns, k + 1, failures + 1, route);
      CountsJoin([Refused(order[k])], Trace(order, turns, k + 1, failures).0, route);
      CountsJoin(Tried(order[k], t), Trace(order, turns, k + 1, failures + 1).0, route);
    }
  }

  /** Each route is acquired at most once in a call, and each acquire has exactly
      one finish. */
  lemma {:induction false} EveryAcquireIsFinished(order: seq<nat>, turns: nat -> Turn, k: nat,
                                                  failures: nat, route: nat)
    requires k <= |order| && Distinct(order)
    ensures var log := Trace(order, turns, k, failures).0;
            Acquires(log, route) == Finishes(log, route) <= 1
    decreases |order| - k
  {
    hide Tried, Acquires, Finishes, Admit;
    if k == |order| {
      NothingCounted(route);
    } else {
      var t := turns(k);
      NothingCounted(route);
      TriedCounts(order[k], t, route);
      if !Admit(t.found, t.now).1 {
        RefusedCounts(order[k], route);
        EveryAcquireIsFinished(order, turns, k + 1, failures, route);
        CountsJoin([Refused(order[k])], Trace(order, turns, k + 1, failures).0, route);
      } else {
        EveryAcquireIsFinished(order, turns, k + 1, failures + 1, route);
        CountsJoin(Tried(order[k], t), Trace(order, turns, k + 1, failures + 1).0, route);
        if route == order[k] {
          LaterTurnsLeaveItAlone(order, turns, k + 1, failures + 1, route);
        }
      }
    }
  }

  lemma NothingCounted(route: nat)
    ensures Acquires([], route) == 0 == Finishes([], route)
  {
  }

  lemma TriedEmits(route: nat, t: Turn)
    ensures EmissionIsLast(Tried(route, t)) && (t.emissions == 0 ==> NoEmission(Tried(route, t)))
    ensures forall i | 0 <= i < |Tried(route, t)| :: Tried(route, t)[i].route == route
  {
  }

  lemma QuietPrefix(a: seq<Event>, b: seq<Event>)
    requires NoEmission(a) && EmissionIsLast(b)
    ensures EmissionIsLast(a + b)
  {
  }

  /** Everything emitted during a call comes from its last attempt, so nothing a
      caller has seen is ever produced a second time by another route. */
  lemma {:induction false} EmissionsAreOfTheLastAttempt(order: seq<nat>, turns: nat -> Turn, k: nat, failures: nat)
    requires k <= |order|
    ensures EmissionIsLast(Trace(order, turns, k, failures).0)
    decreases |order| - k
  {
    hide Tried, EmissionIsLast;
    if k < |order| {
      var t := turns(k);
      TriedEmits(order[k], t);
      EmissionsAreOfTheLastAttempt(order, turns, k + 1, failures);
      EmissionsAreOfTheLastAttempt(order, turns, k + 1, failures + 1);
      QuietPrefix([Refused(order[k])], Trace(order, turns, k + 1, failures).0);
      if t.emissions == 0 {
        QuietPrefix(Tried(order[k], t), Trace(order, turns, k + 1, failures + 1).0);
      }
    }
    assert EmissionIsLast([]) by { NothingEmitted(); }
  }

  lemma NothingEmitted()
    ensures EmissionIsLast([])
  {
  }

  /** The events follow the order: none concerns a route before position k, so
      attempts of a call start with the preferred route and go through the others
      in turn. */
  lemma {:induction false} AttemptsFollowTheOrder(order: seq<nat>, turns: nat -> Turn, k: nat, failures: nat,
                                                  p: nat, i: nat)
    requires k <= p < |order| && Distinct(order) && i < |Trace(order, turns, k, failures).0|
    requires Trace(order, turns, k, failures).0[i] == Acquired(order[p])
    ensures forall q | k <= q < p ::
              !turns(q).canceledBefore
              && (Admit(turns(q).found, turns(q).now).1 ==>
                      !turns(q).ok && !CanceledByThen(turns(q)) && turns(q).emissions == 0)
    ensures !turns(p).canceledBefore && Admit(turns(p).found, turns(p).now).1
    decreases |order| - k
  {
    var t := turns(k);
    TriedEmits(order[k], t);
    if p > k {
      if !Admit(t.found, t.now).1 {
        assert Trace(order, turns, k, failures).0[0] == Refused(order[k]);
        AttemptsFollowTheOrder(order, turns, k + 1, failures, p, i - 1);
      } else {
        assert Tried(order[k], t) <= Trace(order, turns, k, failures).0;
        AttemptsFollowTheOrder(order, turns, k + 1, failures + 1, p, i - |Tried(order[k], t)|);
      }
    } else if !Admit(t.found, t.now).1 {
      RestIsLater(order, turns, k + 1, failures, i - 1);
    }
  }

  /** The outcome is that of the last attempt: a response is the last provider's
      uncancelled success, a lost attempt failed after emitting, an overall
      failure emitted nothing, and "cooling down" means every route was refused. */
  ghost predicate Explains(log: seq<Event>, outcome: Outcome, failures: nat) {
    match outcome
    case Response(r) => log != [] && log[|log| - 1] == Finished(r, true, false)
    case Lost(r) => log != [] && log[|log| - 1] == Finished(r, false, false) && !NoEmission(log)
    case Failed(n) => n > 0 && n >= failures && NoEmission(log)
    case CoolingDown => failures == 0 && forall i | 0 <= i < |log| :: log[i].Refused?
    case Canceled => true
  }

  lemma {:induction false} OutcomeMatchesLog(order: seq<nat>, turns: nat -> Turn, k: nat, failures: nat)
    requires k <= |order|
    ensures Explains(Trace(order, turns, k, failures).0, Trace(order, turns, k, failures).1, failures)
    decreases |order| - k
  {
    if k < |order| {
      var t := turns(k);
      if t.canceledBefore {
      } else if !Admit(t.found, t.now).1 {
        OutcomeMatchesLog(order, turns, k + 1, failures);
        hide Explains;
        ExplainsRefused(order[k], Trace(order, turns, k + 1, failures).0, Trace(order, turns, k + 1, failures).1,
                        failures);
      } else {
        OutcomeMatchesLog(order, turns, k + 1, failures + 1);
        hide Explains, Tried;
        ExplainsTried(order[k], t, Trace(order, turns, k + 1, failures + 1).0,
                      Trace(order, turns, k + 1, failures + 1).1, failures);
      }
    }
  }

  lemma ExplainsRefused(route: nat, log: seq<Event>, outcome: Outcome, failures: nat)
    requires Explains(log, outcome, failures)
    ensures Explains([Refused(route)] + log, outcome, failures)
  {
    QuietJoin([Refused(route)], log);
  }

  lemma ExplainsTried(route: nat, t: Turn, log: seq<Event>, outcome: Outcome, failures: nat)
    requires Explains(log, outcome, failures + 1)
    ensures CanceledByThen(t) ==> Explains(Tried(route, t), Canceled, failures)
    ensures !CanceledByThen(t) && t.ok ==> Explains(Tried(route, t), Response(route), failures)
    ensures !CanceledByThen(t) && !t.ok && t.emissions > 0 ==> Explains(Tried(route, t), Lost(route), failures)
    ensures !CanceledByThen(t) && !t.ok && t.emissions == 0 ==> Explains(Tried(route, t) + log, outcome, failures)
  {
    TriedEmits(route, t);
    if t.emissions > 0 {
      assert Tried(route, t)[1] == Emitted(route);
    }
    QuietJoin(Tried(route, t), log);
  }

  lemma QuietJoin(a: seq<Event>, b: seq<Event>)
    ensures NoEmission(a + b) <==> NoEmission(a) && NoEmission(b)
    ensures b != [] ==> (a + b)[|a + b| - 1] == b[|b| - 1]
  {
    assert forall i | 0 <= i < |a| :: (a + b)[i] == a[i];
    assert forall i | 0 <= i < |b| :: (a + b)[|a| + i] == b[i];
  }

  lemma {:induction false} RestIsLater(order: seq<nat>, turns: nat -> Turn, k: nat, failures: nat, i: int)
    requires k <= |order|
    ensures 0 <= i < |Trace(order, turns, k, failures).0| ==>
              exists q :: k <= q < |order| && order[q] == Trace(order, turns, k, failures).0[i].route
    decreases |order| - k
  {
    if k < |order| {
      var t := turns(k);
      TriedEmits(order[k], t);
      RestIsLater(order, turns, k + 1, failures, i - 1);
      RestIsLater(order, turns, k + 1, failures + 1, i - |Tried(order[k], t)|);
    }
  }

  /** The breaker the turn finds lets the call try the route. */
  predicate Lets(t: Turn) {
    t.found.failures == 0 || (!t.found.probing && t.now >= t.found.retryAt)
  }

  /** The call goes no further than this turn: its context was cancelled, or the route
      was tried and answered, emitted, or met the cancellation. */
  predicate Stops(t: Turn) {
    t.canceledBefore || (Lets(t) && (t.canceled || t.canceledAfter || t.ok || t.emissions > 0))
  }

  /** How many of the routes from k up to p were tried. */
  function TriesIn(turns: nat -> Turn, k: nat, p: nat): nat
    requires k <= p
    decreases p - k
  {
    if k == p then 0 else (if Lets(turns(k)) then 1 else 0) + TriesIn(turns, k + 1, p)
  }

  /** What the log shows of a route the call went past: refused, or tried without
      success or emission. */
  ghost predicate WentPast(log: seq<Event>, route: nat, t: Turn) {
    if Lets(t) then Acquired(route) in log && Finished(route, false, false) in log else Refused(route) in log
  }

  /** The log of a call from position k of its order on that stops at p: it shows every route
      it went past, ends with the attempt that stopped it, and is about no other route. */
  ghost predicate Shows(log: seq<Event>, order: seq<nat>, turns: nat -> Turn, k: nat, p: nat)
    requires p <= |order|
  {
    && (forall q | k <= q < p :: WentPast(log, order[q], turns(q)))
    && (p < |order| && !turns(p).canceledBefore ==>
          Acquired(order[p]) in log && log[|log| - 1] == Finished(order[p], turns(p).ok, turns(p).canceled))
    && (p == |order| || turns(p).canceledBefore ==> !EndsWell(log))
    && (forall e | e in log :: exists q :: k <= q <= p && q < |order| && e.route == order[q])
  }

  predicate EndsWell(log: seq<Event>) {
    log != [] && log[|log| - 1].Finished? && log[|log| - 1].ok
  }

  /** Exactly how a call ends. With p the first turn that stops it: cancelled before
      that turn, during or right after its attempt, it ends cancelled; otherwise a success is
      its response, and a failure after emitting is lost. With no such turn it went past every
      route, and failed, or found them all cooling down. */
  lemma OutcomeExactlyWhen(order: seq<nat>, turns: nat -> Turn, p: nat)
    requires p <= |order| && (forall q | 0 <= q < p :: !Stops(turns(q))) && (p < |order| ==> Stops(turns(p)))
    ensures var outcome := Trace(order, turns, 0, 0).1;
            if p == |order| then
              outcome == if TriesIn(turns, 0, p) == 0 then CoolingDown else Failed(TriesIn(turns, 0, p))
            else if turns(p).canceledBefore || turns(p).canceled || turns(p).canceledAfter then outcome == Canceled
            else if turns(p).ok then outcome == Response(order[p])
            else outcome == Lost(order[p])
    ensures Shows(Trace(order, turns, 0, 0).0, order, turns, 0, p)
  {
    hide Shows, Trace;
    CallEnds(order, turns, 0, 0, p);
    LogShows(order, turns, 0, 0, p);
  }

  lemma {:induction false} CallEnds(order: seq<nat>, turns: nat -> Turn, k: nat, failures: nat, p: nat)
    requires k <= p <= |order| && (forall q | k <= q < p :: !Stops(turns(q))) && (p < |order| ==> Stops(turns(p)))
    ensures var outcome := Trace(order, turns, k, failures).1;
            if p == |order| then
              outcome == (if failures + TriesIn(turns, k, p) == 0 then CoolingDown
                          else Failed(failures + TriesIn(turns, k, p)))
            else if turns(p).canceledBefore || turns(p).canceled || turns(p).canceledAfter then outcome == Canceled
            else if turns(p).ok then outcome == Response(order[p])
            else outcome == Lost(order[p])
    decreases p - k
  {
    hide Tried;
    if k < p {
      CallEnds(order, turns, k + 1, if Lets(turns(k)) then failures + 1 else failures, p);
    }
  }

  lemma {:induction false} LogShows(order: seq<nat>, turns: nat -> Turn, k: nat, failures: nat, p: nat)
    requires k <= p <= |order| && (forall q | k <= q < p :: !Stops(turns(q))) && (p < |order| ==> Stops(turns(p)))
    ensures Shows(Trace(order, turns, k, failures).0, order, turns, k, p)
    decreases p - k
  {
    hide Tried, Shows;
    if k < p {
      var t := turns(k);
      TriedShows(order[k], t);
      var next := if Lets(t) then failures + 1 else failures;
      var first := if Lets(t) then Tried(order[k], t) else [Refused(order[k])];
      LogShows(order, turns, k + 1, next, p);
      assert Trace(order, turns, k, failures).0 == first + Trace(order, turns, k + 1, next).0;
      ShowsMore(order, turns, k, p, first, Trace(order, turns, k + 1, next).0);
    } else if k < |order| && !turns(k).canceledBefore {
      TriedShows(order[k], turns(k));
      StopShows(order, turns, k);
    } else {
      NothingShows(order, turns, k);
    }
  }

  lemma NothingShows(order: seq<nat>, turns: nat -> Turn, k: nat)
    requires k <= |order| && (k < |order| ==> turns(k).canceledBefore)
    ensures Shows([], order, turns, k, k)
  {
  }

  lemma StopShows(order: seq<nat>, turns: nat -> Turn, k: nat)
    requires k < |order| && !turns(k).canceledBefore
    ensures Shows(Tried(order[k], turns(k)), order, turns, k, k)
  {
    TriedShows(order[k], turns(k));
    hide Tried;
  }

  lemma TriedShows(route: nat, t: Turn)
    ensures var log := Tried(route, t);
            && Acquired(route) in log && Finished(route, t.ok, t.canceled) in log
            && log[|log| - 1] == Finished(route, t.ok, t.canceled) && forall e | e in log :: e.route == route
  {
    var log := Tried(route, t);
    assert log[0] == Acquired(route) && log[|log| - 1] == Finished(route, t.ok, t.canceled);
  }

  lemma ShowsMore(order: seq<nat>, turns: nat -> Turn, k: nat, p: nat, first: seq<Event>, rest: seq<Event>)
    requires k < p <= |order| && first != [] && !EndsWell(first) && WentPast(first, order[k], turns(k))
    requires (forall e | e in first :: e.route == order[k]) && Shows(rest, order, turns, k + 1, p)
    ensures Shows(first + rest, order, turns, k, p)
  {
    var log := first + rest;
    assert rest != [] ==> log[|log| - 1] == rest[|rest| - 1];
    assert rest == [] ==> log == first;
    assert forall e | e in log :: e in first || e in rest;
    assert forall e | e in first || e in rest :: e in log;
    forall q | k <= q < p
      ensures WentPast(log, order[q], turns(q))
    {
      if q > k {
        assert WentPast(rest, order[q], turns(q));
      }
    }
    forall e | e in log
      ensures exists q :: k <= q <= p && q < |order| && e.route == order[q]
    {
      if e in first {
        assert k <= k <= p && e.route == order[k];
      }
    }
  }

  /** The first turn from k on that stops the call, if any. */
  lemma {:induction false} FirstStop(turns: nat -> Turn, k: nat, n: nat) returns (p: nat)
    requires k <= n
    ensures k <= p <= n && (forall q | k <= q < p :: !Stops(turns(q))) && (p < n ==> Stops(turns(p)))
    decreases n - k
  {
    if k == n || Stops(turns(k)) {
      p := k;
    } else {
      p := FirstStop(turns, k + 1, n);
    }
  }

  /** Read off the log: the call responds exactly if its last event is an uncancelled
      success and the context stood when it was looked at once more. */
  lemma RespondsExactlyWhen(order: seq<nat>, turns: nat -> Turn, r: nat)
    requires Distinct(order)
    ensures var (log, outcome) := Trace(order, turns, 0, 0);
            outcome == Response(r)
            <==> exists p | 0 <= p < |order| :: order[p] == r && !turns(p).canceledAfter
                                          && log != [] && log[|log| - 1] == Finished(r, true, false)
  {
    hide Trace;
    var p := FirstStop(turns, 0, |order|);
    OutcomeExactlyWhen(order, turns, p);
  }

  /** The call fails over to the next route until none is left: it fails, or reports them
      all cooling down, exactly if no turn stops it, and every route was then refused or
      tried without success or emission. */
  lemma FailsExactlyWhen(order: seq<nat>, turns: nat -> Turn)
    ensures var (log, outcome) := Trace(order, turns, 0, 0);
            && (outcome.Failed? || outcome.CoolingDown? <==> forall q | 0 <= q < |order| :: !Stops(turns(q)))
            && (outcome.Failed? || outcome.CoolingDown? ==>
                  forall q | 0 <= q < |order| :: WentPast(log, order[q], turns(q)))
  {
    hide Trace, WentPast;
    var p := FirstStop(turns, 0, |order|);
    OutcomeExactlyWhen(order, turns, p);
  }

  // ---------- the provider ----------

  /** The breakers a call leaves behind from position k of its order on: each route
      it looked at as it found it, or concluded if it was tried. */
  function Breakers(s: seq<RouteStatus>, cooldowns: seq<Time>, order: seq<nat>, turns: nat -> Turn, k: nat)
    : seq<RouteStatus>
    requires k <= |order| && |s| == |cooldowns| && forall i | 0 <= i < |order| :: order[i] < |s|
    decreases |order| - k
  {
    if k == |order| || turns(k).canceledBefore then s else
      var i, t := order[k], turns(k);
      if !Admit(t.found, t.now).1 then Breakers(s[i := t.found], cooldowns, order, turns, k + 1)
      else
        var after := s[i := Conclude(t.left, t.ok, t.canceled, t.finishedAt, cooldowns[i])];
        if CanceledByThen(t) || t.ok || t.emissions > 0 then after
        else Breakers(after, cooldowns, order, turns, k + 1)
  }

  /** The breaker of every route the call went past: as it was found if it refused, and
      with one more failure and a new cooldown if it was tried. */
  lemma {:induction false} BreakersOfPassed(s: seq<RouteStatus>, cooldowns: seq<Time>, order: seq<nat>,
                                            turns: nat -> Turn, k: nat, p: nat, q: nat)
    requires k <= p <= |order| && |s| == |cooldowns| && (forall i | 0 <= i < |order| :: order[i] < |s|)
    requires Distinct(order) && (forall i | k <= i < p :: !Stops(turns(i))) && (p < |order| ==> Stops(turns(p)))
    requires k <= q < |order|
    ensures var after := Breakers(s, cooldowns, order, turns, k);
            var t := turns(q);
            && |after| == |s|
            && (q < p && !Lets(t) ==> after[order[q]] == t.found)
            && (q < p && Lets(t) ==>
                  after[order[q]] == RouteStatus(t.left.failures + 1, t.finishedAt + cooldowns[order[q]], false))
            && (q == p && t.canceledBefore ==> after[order[q]] == s[order[q]])
            && (q == p && !t.canceledBefore && t.canceled ==> after[order[q]] == t.left.(probing := false))
            && (q == p && !t.canceledBefore && !t.canceled && t.ok ==> after[order[q]] == RouteStatus(0, 0, false))
            && (q == p && !t.canceledBefore && !t.canceled && !t.ok ==>
                  after[order[q]] == RouteStatus(t.left.failures + 1, t.finishedAt + cooldowns[order[q]], false))
            && (q > p ==> after[order[q]] == s[order[q]])
    ensures forall r | 0 <= r < |s| && (forall i | k <= i < |order| :: order[i] != r) ::
              Breakers(s, cooldowns, order, turns, k)[r] == s[r]
    decreases |order| - k
  {
    if k < p {
      var t := turns(k);
      var i := order[k];
      var next := if Lets(t) then s[i := Conclude(t.left, t.ok, t.canceled, t.finishedAt, cooldowns[i])]
                  else s[i := t.found];
      if q > k {
        BreakersOfPassed(next, cooldowns, order, turns, k + 1, p, q);
      } else if k + 1 < |order| {
        BreakersOfPassed(next, cooldowns, order, turns, k + 1, p, k + 1);
      }
    }
  }

  /** events is what the methods did, in order: only Acquire, Finish and the
      provider's callbacks add to it. */
  class CascadeProvider {
    const cooldowns: seq<Time>
    var state: seq<RouteStatus>
    var lastSuccess: Option<nat>
    ghost var events: seq<Event>

    predicate Valid()
      reads this
    {
      |state| == |cooldowns| && forall i | 0 <= i < |state| :: Consistent(state[i])
    }

    constructor (cooldowns: seq<Time>)
      ensures Valid() && this.cooldowns == cooldowns && lastSuccess == None && events == []
              && forall i | 0 <= i < |state| :: state[i] == HEALTHY
    {
      this.cooldowns := cooldowns;
      state := seq(|cooldowns|, _ => HEALTHY);
      lastSuccess := None;
      events := [];
    }

    method Acquire(i: nat, now: Time) returns (admitted: bool)
      requires Valid() && i < |state|
      modifies this`state, this`events
      ensures Valid()
      ensures events == old(events) + [if admitted then Acquired(i) else Refused(i)]
      ensures (state, admitted) == (old(state)[i := Admit(old(state)[i], now).0], Admit(old(state)[i], now).1)
      ensures admitted <==>
                old(state)[i].failures == 0 || (!old(state)[i].probing && now >= old(state)[i].retryAt)
      ensures state[i] == old(state)[i].(probing := old(state)[i].probing || (admitted && old(state)[i].failures > 0))
    {
      var s := state[i];
      assert state[i := s] == state;
      if s.failures == 0 {
        events := events + [Acquired(i)];
        return true;
      }
      if s.probing || now < s.retryAt {
        events := events + [Refused(i)];
        return false;
      }
      state := state[i := s.(probing := true)];
      events := events + [Acquired(i)];
      return true;
    }

    method Finish(i: nat, ok: bool, cancelled: bool, now: Time)
      requires Valid() && i < |state|
      modifies this
      ensures Valid() && state == old(state)[i := Conclude(old(state)[i], ok, cancelled, now, cooldowns[i])]
      ensures state[i] == if cancelled then old(state)[i].(probing := false)
                          else if ok then RouteStatus(0, 0, false)
                          else RouteStatus(old(state)[i].failures + 1, now + cooldowns[i], false)
      ensures lastSuccess == if ok && !cancelled then Some(i) else old(lastSuccess)
      ensures events == old(events) + [Event.Finished(i, ok, cancelled)]
    {
      events := events + [Event.Finished(i, ok, cancelled)];
      var s := state[i].(probing := false);
      state := state[i := s];
      if cancelled {
        return;
      }
      if ok {
        s := s.(failures := 0, retryAt := 0);
        lastSuccess := Some(i);
      } else {
        s := s.(failures := s.failures + 1, retryAt := now + cooldowns[i]);
      }
      state := state[i := s];
    }

    /** The provider's attempt, its callbacks marking it through guardedCallbacks. */
    method Attempt(i: nat, t: Turn) returns (ok: bool, emitted: bool)
      modifies this`events
      ensures events == old(events) + Emissions(i, t.emissions) && ok == t.ok && (emitted <==> t.emissions > 0)
    {
      emitted := false;
      for n := 0 to t.emissions
        invariant events == old(events) + Emissions(i, n) && (emitted <==> n > 0)
      {
        emitted := true;
        events := events + [Emitted(i)];
        assert Emissions(i, n) + [Emitted(i)] == Emissions(i, n + 1);
      }
      ok := t.ok;
    }

    /** What other calls did to a route meanwhile. */
    method Meanwhile(i: nat, s: RouteStatus)
      requires Valid() && i < |state| && Consistent(s)
      modifies this`state
      ensures Valid() && state == old(state)[i := s]
    {
      state := state[i := s];
    }

    /** The preferred route first, then, unless only that one is wanted, the
        others as configured. */
    method Order(preferred: nat, only: bool) returns (order: seq<nat>)
      requires preferred < |cooldowns|
      ensures |order| > 0 && Distinct(order) && order[0] == preferred
              && forall i | 0 <= i < |order| :: order[i] < |cooldowns|
      ensures if only then order == [preferred]
              else |order| == |cooldowns| && forall i | 0 <= i < |cooldowns| :: i in order
      ensures forall i, k | 0 < i < k < |order| :: order[i] < order[k]
    {
      order := [preferred];
      if !only {
        for i := 0 to |cooldowns|
          invariant Distinct(order) && |order| >= 1 && order[0] == preferred
          invariant forall k | 0 < k < |order| :: order[k] < i && order[k] != preferred
          invariant forall k | 0 <= k < i :: k in order
          invariant forall j, k | 0 < j < k < |order| :: order[j] < order[k]
          invariant |order| == if i > preferred then i else i + 1
        {
          if i != preferred {
            assert forall k | 0 <= k < i :: k in order + [i];
            order := order + [i];
          }
        }
      }
    }

    /** complete: what it does to the breakers and the outcome are those of the trace,
        whatever the breakers turn out to be. */
    method Complete(order: seq<nat>, turns: nat -> Turn) returns (outcome: Outcome)
      requires Valid() && Distinct(order) && (forall i | 0 <= i < |order| :: order[i] < |cooldowns|)
      requires forall k :: Consistent(turns(k).found) && Consistent(turns(k).left)
      modifies this
      ensures Valid()
      ensures (events, outcome) == (old(events) + Trace(order, turns, 0, 0).0, Trace(order, turns, 0, 0).1)
      ensures state == Breakers(old(state), cooldowns, order, turns, 0)
    {
      var failures := 0;
      ghost var whole := old(events) + Trace(order, turns, 0, 0).0;
      for k := 0 to |order|
        invariant Valid()
        invariant whole == events + Trace(order, turns, k, failures).0
        invariant Trace(order, turns, 0, 0).1 == Trace(order, turns, k, failures).1
        invariant Breakers(old(state), cooldowns, order, turns, 0) == Breakers(state, cooldowns, order, turns, k)
      {
        hide Admit, Conclude, Consistent;
        ghost var before, was := events, state;
        var i := order[k];
        var t := turns(k);
        if t.canceledBefore {
          assert events + [] == events;
          return Canceled;
        }
        Meanwhile(i, t.found);
        var admitted := Acquire(i, t.now);
        if !admitted {
          RefusalChangesNothing(t.found, t.now);
          assert state == was[i := t.found];
          Associates(before, [Refused(i)], Trace(order, turns, k + 1, failures).0);
          continue;
        }
        var ok, emitted := Attempt(i, t);
        Meanwhile(i, t.left);
        Finish(i, ok, t.canceled, t.finishedAt);
        assert state == was[i := Conclude(t.left, t.ok, t.canceled, t.finishedAt, cooldowns[i])];
        TriedInTurn(before, i, t);
        Associates(before, Tried(i, t), Trace(order, turns, k + 1, failures + 1).0);
        if CanceledByThen(t) {
          return Canceled;
        }
        if ok {
          return Response(i);
        }
        if emitted {
          return Lost(i);
        }
        failures := failures + 1;
      }
      assert events + [] == events;
      outcome := if failures == 0 then CoolingDown else Failed(failures);
    }
  }

  lemma RefusalChangesNothing(s: RouteStatus, now: Time)
    ensures !Admit(s, now).1 ==> Admit(s, now).0 == s
  {
  }

  lemma TriedInTurn(before: seq<Event>, i: nat, t: Turn)
    ensures before + [Acquired(i)] + Emissions(i, t.emissions) + [Event.Finished(i, t.ok, t.canceled)]
            == before + Tried(i, t)
  {
  }
}
