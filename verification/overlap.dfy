/** The review and repair loop with overlapping visitors: a run whose lease lapsed
    is replaced, and its visitor may go on beside the new one. Saves and publication
    are fenced by the run, calls to the repairer, the guard and the reviewer are not. */
module Overlap {
  import opened Wrappers
  import opened Refs
  import opened Validation

  type VisitorId = nat

  /** Where a visitor is in a round; it looks, saves and publishes between its calls. */
  datatype Point =
    | Look
    | PayRepair
    | Repair
    | KeepRepair
    | PayPass
    | Guarding
    | KeepGuarded
    | Judging
    | KeepVerdict
    | Defer
    | Close(completed: bool)

  /** v is what it has worked out so far, body the text on its way. */
  datatype Visitor = Visitor(run: nat, point: Point, v: Validation, body: Text)

  /** run is the coordinator run in the row; visitors that ended are not listed. */
  datatype World = World(saved: Validation, log: seq<Event>, run: nat, visitors: map<VisitorId, Visitor>)

  datatype Step =
    | TakeOver(k: VisitorId)
    | Go(k: VisitorId, env: Env)
    | Crash(k: VisitorId)

  function Now(w: World): State {
    State(w.saved, w.log)
  }

  function At(w: World, k: VisitorId, point: Point, v: Validation, body: Text): World
    requires k in w.visitors
  {
    w.(visitors := w.visitors[k := Visitor(w.visitors[k].run, point, v, body)])
  }

  function Gone(w: World, k: VisitorId): World {
    w.(visitors := w.visitors - {k})
  }

  function Logged(w: World, e: Event): World {
    w.(log := w.log + [e])
  }

  predicate Owns(w: World, k: VisitorId) {
    k in w.visitors && w.visitors[k].run == w.run
  }

  /** Save number n: a replaced visitor's has no effect and fails. */
  predicate Succeeds(w: World, k: VisitorId, env: Env, n: nat) {
    Owns(w, k) && Saves(env, n)
  }

  function Saved(w: World, k: VisitorId, env: Env, n: nat, after: Validation): World {
    if Owns(w, k) then w.(saved := Stored(env, n, w.saved, after)) else w
  }

  /** Where a round begins for the state it found. */
  function Begin(w: World, k: VisitorId, env: Env, v: Validation, body: Text): World
    requires k in w.visitors
  {
    if v.accepted then At(w, k, Close(true), v, v.safeBody)
    else if v.repairPending then
      if !env.canRepair || (v.verdict.Some? && !v.verdict.value.repairable) || v.repairAttempts >= MAX_REPAIRS
      then At(w, k, Close(false), v, CheckedBody(v)) else At(w, k, PayRepair, v, body)
    else ToReview(w, k, v, body)
  }

  function ToReview(w: World, k: VisitorId, v: Validation, body: Text): World
    requires k in w.visitors
  {
    if v.attempts >= MAX_REVIEWS then At(w, k, Close(false), v, CheckedBody(v)) else At(w, k, PayPass, v, body)
  }

  function BodyOf(v: Validation, text: Text): Text {
    if v.repairBody != [] then v.repairBody else text
  }

  /** What the visitor goes on to save, the review being logged. */
  function AfterVerdict(v: Validation, verdict: Verdict): Validation {
    var v1 := v.(verdict := Some(verdict));
    match verdict.judgement
    case Unavailable => v1
    case NotMet => v1.(repairPending := true)
    case Met => v1.(accepted := true)
  }

  /** One segment of a round: a read, a save, a call or the publication. */
  function Advance(w: World, k: VisitorId, text: Text, env: Env): World
    requires k in w.visitors
  {
    var p := w.visitors[k];
    var v := p.v;
    match p.point
    case Look => Begin(w, k, env, For(w.saved, text), BodyOf(For(w.saved, text), text))
    case PayRepair =>
      var v1 := v.(repairAttempts := v.repairAttempts + 1);
      var u := Saved(w, k, env, 1, v1);
      if Succeeds(w, k, env, 1) then At(Logged(u, RepairCall(v.safeBody)), k, Repair, v1, p.body) else Gone(u, k)
    case Repair =>
      if TrimSpace(env.revised) != [] then At(w, k, KeepRepair, v, env.revised)
      else if v.repairAttempts >= MAX_REPAIRS || !env.due then At(w, k, Close(false), v, CheckedBody(v))
      else Gone(w, k)
    case KeepRepair =>
      var v2 := Repairing(v, p.body);
      var u := Saved(w, k, env, 2, v2);
      var u1 := if Owns(w, k) && (Saves(env, 2) || env.committed) then Logged(u, Repaired(p.body)) else u;
      if Succeeds(w, k, env, 2) then ToReview(u1, k, v2, p.body) else Gone(u1, k)
    case PayPass =>
      var v1 := v.(attempts := v.attempts + 1);
      var u := Saved(w, k, env, 3, v1);
      if Succeeds(w, k, env, 3)
      then At(Logged(u, Pass), k, if v.responseChecked then Judging else Guarding, v1, p.body) else Gone(u, k)
    case Guarding =>
      if env.guard.Refused? || (env.guard.Rewritten? && TrimSpace(env.guard.output) == [])
        then At(w, k, Defer, v, p.body)
      else
        var safe := if env.guard.Absent? then p.body else env.guard.output;
        At(Logged(w, ThroughGuard(env, p.body)), k, KeepGuarded, v, safe)
    case KeepGuarded =>
      var v2 := Secure(v, p.body);
      var u := Saved(w, k, env, 4, v2);
      var u1 := if Owns(w, k) && (Saves(env, 4) || env.committed) then Logged(u, Secured(p.body)) else u;
      if Succeeds(w, k, env, 4) then At(u1, k, Judging, v2, p.body) else Gone(u1, k)
    case Judging =>
      var u := Logged(w, Reviewed(v.safeBody, env.verdict.judgement));
      At(u, k, if env.verdict.judgement.Unavailable? then Defer else KeepVerdict, AfterVerdict(v, env.verdict), p.body)
    case KeepVerdict =>
      var u := Saved(w, k, env, 5, v);
      if !Succeeds(w, k, env, 5) then Gone(u, k)
      else if v.accepted then At(u, k, Close(true), v, v.safeBody)
      else At(u, k, Look, v, p.body)
    case Defer =>
      var u := Saved(w, k, env, 5, v);
      if !Succeeds(w, k, env, 5) then Gone(u, k)
      else if v.attempts >= MAX_REVIEWS || !env.due then At(u, k, Close(false), v, CheckedBody(v))
      else Gone(u, k)
    case Close(completed) => Gone(if Owns(w, k) then Logged(w, Published(completed, p.body)) else w, k)
  }

  /** Whoever takes over begins at the beginning, under a new run. */
  function Apply(w: World, text: Text, s: Step): World {
    match s
    case TakeOver(k) =>
      if k in w.visitors then w
      else w.(run := w.run + 1, visitors := w.visitors[k := Visitor(w.run + 1, Look, For(w.saved, text), text)])
    case Go(k, env) => if k in w.visitors then Advance(w, k, text, env) else w
    case Crash(k) => Gone(w, k)
  }

  function After(w: World, text: Text, steps: seq<Step>): World
    decreases |steps|
  {
    if steps == [] then w else After(Apply(w, text, steps[0]), text, steps[1..])
  }

  // ---------- a visitor by itself is a round ----------

  /** One visitor advancing n times, everybody else still. */
  function Alone(w: World, k: VisitorId, text: Text, env: Env, n: nat): World
    decreases n
  {
    if n == 0 || k !in w.visitors then w else Alone(Advance(w, k, text, env), k, text, env, n - 1)
  }

  /** It is through with the round: published, given up, or looking again. */
  predicate Through(w: World, k: VisitorId, s: State, exit: Exit) {
    Now(w) == s && if exit.Again? then k in w.visitors && w.visitors[k].point.Look? else k !in w.visitors
  }

  lemma AloneMore(w: World, k: VisitorId, text: Text, env: Env, n: nat, s: State, exit: Exit)
    requires k in w.visitors && n > 0 && Through(Alone(Advance(w, k, text, env), k, text, env, n - 1), k, s, exit)
    ensures Through(Alone(w, k, text, env, n), k, s, exit)
  {
    hide Advance, Through;
  }

  lemma AloneOnce(w: World, k: VisitorId, text: Text, env: Env)
    requires k in w.visitors
    ensures Alone(w, k, text, env, 1) == Advance(w, k, text, env)
  {
    hide Advance;
    assert Alone(Advance(w, k, text, env), k, text, env, 0) == Advance(w, k, text, env);
  }

  lemma LoneClose(w: World, k: VisitorId, text: Text, env: Env)
    requires Owns(w, k) && w.visitors[k].point.Close?
    ensures var (s, exit) := Finish(Now(w), w.visitors[k].point.completed, w.visitors[k].body);
            Through(Alone(w, k, text, env, 1), k, s, exit)
  {
    AloneOnce(w, k, text, env);
    hide Alone;
  }

  lemma LoneDefer(w: World, k: VisitorId, text: Text, env: Env) returns (n: nat)
    requires Owns(w, k) && w.visitors[k].point.Defer?
    ensures var (s, exit) := Deferred(Now(w), w.visitors[k].v, env); Through(Alone(w, k, text, env, n), k, s, exit)
  {
    hide TrimSpace, CheckedBody, Alone;
    var (s, exit) := Deferred(Now(w), w.visitors[k].v, env);
    var u := Advance(w, k, text, env);
    if k in u.visitors {
      LoneClose(u, k, text, env);
      n := 2;
      AloneMore(w, k, text, env, n, s, exit);
    } else {
      AloneOnce(w, k, text, env);
      n := 1;
    }
  }

  lemma LoneVerdict(w: World, k: VisitorId, text: Text, env: Env) returns (n: nat)
    requires Owns(w, k) && w.visitors[k].point.KeepVerdict?
    ensures var v := w.visitors[k].v;
            var s := State(Stored(env, 5, w.saved, v), w.log);
            if !Saves(env, 5) then Through(Alone(w, k, text, env, n), k, s, Broken)
            else if v.accepted then Through(Alone(w, k, text, env, n), k, Finish(s, true, v.safeBody).0, Finished)
            else Through(Alone(w, k, text, env, n), k, s, Again)
  {
    hide TrimSpace, CheckedBody, Alone;
    var v := w.visitors[k].v;
    var s := State(Stored(env, 5, w.saved, v), w.log);
    var u := Advance(w, k, text, env);
    if Saves(env, 5) && v.accepted {
      LoneClose(u, k, text, env);
      n := 2;
      AloneMore(w, k, text, env, n, Finish(s, true, v.safeBody).0, Finished);
    } else {
      AloneOnce(w, k, text, env);
      n := 1;
    }
  }

  lemma LoneJudging(w: World, k: VisitorId, text: Text, env: Env) returns (n: nat)
    requires Owns(w, k) && w.visitors[k].point.Judging? && !w.visitors[k].v.accepted
    ensures var (s, exit) := Judged(Now(w), w.visitors[k].v, env); Through(Alone(w, k, text, env, n), k, s, exit)
  {
    hide TrimSpace, CheckedBody, Alone;
    var v := w.visitors[k].v;
    var (s, exit) := Judged(Now(w), v, env);
    var u := Advance(w, k, text, env);
    var m;
    if env.verdict.judgement.Unavailable? {
      m := LoneDefer(u, k, text, env);
    } else {
      m := LoneVerdict(u, k, text, env);
    }
    n := m + 1;
    hide Deferred, Finish;
    AloneMore(w, k, text, env, n, s, exit);
  }

  lemma LoneGuarding(w: World, k: VisitorId, text: Text, env: Env) returns (n: nat)
    requires Owns(w, k) && w.visitors[k].point.Guarding? && !w.visitors[k].v.accepted
    ensures var v, body := w.visitors[k].v, w.visitors[k].body;
            var safe := if env.guard.Rewritten? then env.guard.output else body;
            var v2 := Secure(v, safe);
            var after := State(Stored(env, 4, w.saved, v2), SecuredIn(w.log + [ThroughGuard(env, body)], env, safe));
            var (s, exit) := if env.guard.Refused? || (env.guard.Rewritten? && TrimSpace(env.guard.output) == [])
                             then Deferred(Now(w), v, env)
                             else if !Saves(env, 4) then (after, Broken) else Judged(after, v2, env);
            Through(Alone(w, k, text, env, n), k, s, exit)
  {
    hide TrimSpace, CheckedBody, Alone, Deferred, Judged;
    var v, body := w.visitors[k].v, w.visitors[k].body;
    var u := Advance(w, k, text, env);
    if env.guard.Refused? || (env.guard.Rewritten? && TrimSpace(env.guard.output) == []) {
      var m := LoneDefer(u, k, text, env);
      n := m + 1;
      var (s, exit) := Deferred(Now(w), v, env);
      AloneMore(w, k, text, env, n, s, exit);
    } else {
      var safe := u.visitors[k].body;
      var v2 := Secure(v, safe);
      var after := State(Stored(env, 4, w.saved, v2), SecuredIn(u.log, env, safe));
      var u2 := Advance(u, k, text, env);
      if Saves(env, 4) {
        var m := LoneJudging(u2, k, text, env);
        n := m + 2;
        var (s, exit) := Judged(after, v2, env);
        AloneMore(u, k, text, env, m + 1, s, exit);
        AloneMore(w, k, text, env, n, s, exit);
      } else {
        n := 2;
        AloneOnce(u, k, text, env);
        AloneMore(w, k, text, env, n, after, Broken);
      }
    }
  }

  lemma LoneReview(w: World, k: VisitorId, v: Validation, body: Text, text: Text, env: Env) returns (n: nat)
    requires Owns(w, k) && !v.accepted
    ensures var (s, exit) := ReviewRound(Now(w), v, body, env);
            Through(Alone(ToReview(w, k, v, body), k, text, env, n), k, s, exit)
  {
    hide TrimSpace, CheckedBody, Alone, Deferred, Judged;
    var (s, exit) := ReviewRound(Now(w), v, body, env);
    var u := ToReview(w, k, v, body);
    if v.attempts >= MAX_REVIEWS {
      LoneClose(u, k, text, env);
      n := 1;
    } else {
      var u1 := Advance(u, k, text, env);
      if !Saves(env, 3) {
        n := 1;
        AloneOnce(u, k, text, env);
      } else {
        var m;
        if v.responseChecked {
          m := LoneJudging(u1, k, text, env);
        } else {
          m := LoneGuarding(u1, k, text, env);
        }
        n := m + 1;
        AloneMore(u, k, text, env, n, s, exit);
      }
    }
  }

  lemma LoneRepair(w: World, k: VisitorId, text: Text, env: Env) returns (n: nat)
    requires Owns(w, k) && w.visitors[k].point.PayRepair? && !w.visitors[k].v.accepted
             && w.visitors[k].v.repairAttempts < MAX_REPAIRS
    requires env.canRepair && (w.visitors[k].v.verdict.Some? ==> w.visitors[k].v.verdict.value.repairable)
    ensures var (s, exit) := RepairRound(Now(w), w.visitors[k].v, env); Through(Alone(w, k, text, env, n), k, s, exit)
  {
    hide TrimSpace, CheckedBody, Alone, ReviewRound, ToReview;
    var v := w.visitors[k].v;
    var (s, exit) := RepairRound(Now(w), v, env);
    var u := Advance(w, k, text, env);
    if !Saves(env, 1) {
      n := 1;
      AloneOnce(w, k, text, env);
    } else {
      var u1 := Advance(u, k, text, env);
      if TrimSpace(env.revised) == [] {
        if k in u1.visitors {
          LoneClose(u1, k, text, env);
          n := 3;
          AloneMore(u, k, text, env, 2, s, exit);
        } else {
          n := 2;
          AloneOnce(u, k, text, env);
        }
      } else {
        var m := LoneKeep(u1, k, text, env);
        n := m + 2;
        AloneMore(u, k, text, env, m + 1, s, exit);
      }
      AloneMore(w, k, text, env, n, s, exit);
    }
  }

  lemma LoneKeep(w: World, k: VisitorId, text: Text, env: Env) returns (n: nat)
    requires Owns(w, k) && w.visitors[k].point.KeepRepair? && !w.visitors[k].v.accepted
    ensures var v2 := Repairing(w.visitors[k].v, w.visitors[k].body);
            var after := State(Stored(env, 2, w.saved, v2),
                               if Saves(env, 2) || env.committed then w.log + [Repaired(w.visitors[k].body)]
                                 else w.log);
            var (s, exit) := if !Saves(env, 2) then (after, Broken)
                             else ReviewRound(after, v2, w.visitors[k].body, env);
            Through(Alone(w, k, text, env, n), k, s, exit)
  {
    hide TrimSpace, CheckedBody, Alone, ReviewRound, ToReview, Repairing;
    RepairingFacts(w.visitors[k].v, w.visitors[k].body);
    if !Saves(env, 2) {
      n := 1;
      AloneOnce(w, k, text, env);
    } else {
      var v2 := Repairing(w.visitors[k].v, w.visitors[k].body);
      var u := w.(saved := v2, log := w.log + [Repaired(w.visitors[k].body)]);
      var m := LoneReview(u, k, v2, w.visitors[k].body, text, env);
      n := m + 1;
      var (s, exit) := ReviewRound(Now(u), v2, w.visitors[k].body, env);
      assert k in Advance(w, k, text, env).visitors by { hide Through; StillThere(u, k, v2, w.visitors[k].body); }
      AloneMore(w, k, text, env, n, s, exit);
    }
  }

  lemma StillThere(w: World, k: VisitorId, v: Validation, body: Text)
    requires k in w.visitors
    ensures k in ToReview(w, k, v, body).visitors
  {
  }

  /** Nobody interfering, the segments a visitor goes through from one look to the
      next, or to its end, are exactly one round of the loop. */
  lemma LoneVisitIsARound(w: World, k: VisitorId, text: Text, env: Env) returns (n: nat)
    requires Owns(w, k) && w.visitors[k].point.Look?
    ensures var (s, exit) := Round(Now(w), text, env); n > 0 && Through(Alone(w, k, text, env, n), k, s, exit)
  {
    hide TrimSpace, CheckedBody, Alone, ReviewRound, RepairRound, ToReview;
    var v := For(w.saved, text);
    var (s, exit) := Round(Now(w), text, env);
    var u := Advance(w, k, text, env);
    var m;
    if v.accepted {
      LoneClose(u, k, text, env);
      m := 1;
    } else if v.repairPending {
      if u.visitors[k].point.Close? {
        LoneClose(u, k, text, env);
        m := 1;
        RefusedRepair(Now(w), v, env);
      } else {
        m := LoneRepair(u, k, text, env);
      }
    } else {
      m := LoneReview(w, k, v, BodyOf(v, text), text, env);
    }
    n := m + 1;
    AloneMore(w, k, text, env, n, s, exit);
  }

  lemma RefusedRepair(s: State, v: Validation, env: Env)
    requires !env.canRepair || (v.verdict.Some? && !v.verdict.value.repairable) || v.repairAttempts >= MAX_REPAIRS
    ensures RepairRound(s, v, env) == Finish(s, false, CheckedBody(v))
  {
  }

  // ---------- the invariant ----------

  /** The log backs what the visitor works on, and it may still go on. */
  ghost predicate Working(v: Validation, log: seq<Event>, text: Text) {
    Backs(v, log) && v.candidate == text && !v.accepted
  }

  /** What holds of the visitor whose run is current; of the others nothing has to. */
  ghost predicate OwnerInv(s: State, text: Text, p: Visitor) {
    match p.point
    case Look => true
    case PayRepair => Working(p.v, s.log, text) && p.v.repairAttempts < MAX_REPAIRS
    case Repair => Working(p.v, s.log, text) && s.saved == p.v && Repairs(s.log) < RepairCalls(s.log)
    case KeepRepair =>
      && Working(p.v, s.log, text) && s.saved == p.v && Repairs(s.log) < RepairCalls(s.log)
      && TrimSpace(p.body) != []
    case PayPass => Working(p.v, s.log, text) && p.v.attempts < MAX_REVIEWS && BodyFor(p.v, p.body)
    case Guarding => Working(p.v, s.log, text) && !p.v.responseChecked && BodyFor(p.v, p.body)
    case KeepGuarded =>
      Working(p.v, s.log, text) && !p.v.responseChecked && BodyFor(p.v, p.body) && Checked(s.log, p.body)
    case Judging => Working(p.v, s.log, text) && p.v.responseChecked
    case KeepVerdict => Backs(p.v, s.log) && p.v.candidate == text
    case Defer => Backs(p.v, s.log) && p.v.candidate == text
    case Close(completed) =>
      if completed then Approved(s.log, p.body)
      else p.body == LastSecured(s.log) && (p.body == [] || Checked(s.log, p.body))
  }

  /** Every run number is somebody's alone, and none is ahead of the row. */
  ghost predicate Runs(w: World) {
    && (forall k | k in w.visitors :: w.visitors[k].run <= w.run)
    && (forall k, l | Owns(w, k) && Owns(w, l) :: k == l)
  }

  ghost predicate Owners(w: World, text: Text) {
    forall k | Owns(w, k) :: OwnerInv(Now(w), text, w.visitors[k])
  }

  function ReviewCalls(log: seq<Event>): nat {
    if log == [] then 0 else ReviewCalls(log[..|log| - 1]) + if log[|log| - 1].Reviewed? then 1 else 0
  }

  /** Visitors whose pass is paid for and whose review is still to come. */
  function Owed(w: World): set<VisitorId> {
    set k | k in w.visitors
      && (w.visitors[k].point.Guarding? || w.visitors[k].point.KeepGuarded? || w.visitors[k].point.Judging?)
  }

  /** No review without a pass of its own. */
  ghost predicate ReviewsPaid(w: World) {
    ReviewCalls(w.log) + |Owed(w)| <= Passes(w.log)
  }

  ghost predicate WorldInv(w: World, text: Text) {
    Inv(Now(w), text) && Runs(w) && Owners(w, text) && ReviewsPaid(w)
  }

  /** A call to the guard or the reviewer costs nothing that is counted in the state. */
  predicate Costless(e: Event) {
    e.Guarded? || e.Unguarded? || e.Reviewed?
  }

  lemma CostlessBacked(s: State, text: Text, e: Event)
    requires Inv(s, text) && Costless(e)
    ensures Inv(s.(log := s.log + [e]), text)
  {
    hide Backs, AllBacked, Checked, Approved;
    LogStays(For(s.saved, text), s.log, e);
    BackedStays(s.log, e);
  }

  lemma CostlessKeeps(s: State, text: Text, e: Event, p: Visitor)
    requires Inv(s, text) && Costless(e)
    ensures Inv(s.(log := s.log + [e]), text)
    ensures OwnerInv(s, text, p) ==> OwnerInv(s.(log := s.log + [e]), text, p)
  {
    hide Inv, Backs, Checked, Approved, Repairs, RepairCalls;
    CostlessBacked(s, text, e);
    if OwnerInv(s, text, p) {
      Append(s.log, e);
      CheckedStays(s.log, e, p.body);
      if !p.point.Look? && !p.point.Close? {
        LogStays(p.v, s.log, e);
      }
    }
  }

  /** A replaced visitor saves and publishes nothing; it can only finish a call. */
  lemma ReplacedOnlyCalls(w: World, k: VisitorId, text: Text, env: Env)
    requires k in w.visitors && !Owns(w, k)
    ensures var v := Advance(w, k, text, env);
            && v.saved == w.saved && v.run == w.run
            && (v.log == w.log || exists e :: Costless(e) && v.log == w.log + [e])
  {
    hide TrimSpace, CheckedBody, For;
    var v, p := Advance(w, k, text, env), w.visitors[k];
    if p.point.Guarding? && v.log != w.log {
      assert Costless(ThroughGuard(env, p.body));
    }
    if p.point.Judging? {
      assert Costless(Reviewed(p.v.safeBody, env.verdict.judgement));
    }
  }

  /** v is w but for visitor k, the saved state and the log. */
  ghost predicate Others(w: World, k: VisitorId, v: World)
    requires k in w.visitors
  {
    && v.run == w.run && v.visitors.Keys <= w.visitors.Keys
    && (forall l | l in w.visitors && l != k :: l in v.visitors && v.visitors[l] == w.visitors[l])
    && (k in v.visitors ==> v.visitors[k].run == w.visitors[k].run)
  }

  lemma BeginOthers(w: World, k: VisitorId, env: Env, v: Validation, body: Text)
    requires k in w.visitors
    ensures Others(w, k, Begin(w, k, env, v, body)) && Others(w, k, ToReview(w, k, v, body))
  {
    hide TrimSpace, CheckedBody;
  }

  lemma OthersStay(w: World, k: VisitorId, text: Text, env: Env)
    requires k in w.visitors
    ensures Others(w, k, Advance(w, k, text, env))
  {
    hide TrimSpace, CheckedBody, For, ThroughGuard, Repairing, Begin, ToReview, Stored, Saves, BodyOf;
    var p := w.visitors[k];
    match p.point {
      case Look => BeginOthers(w, k, env, For(w.saved, text), BodyOf(For(w.saved, text), text));
      case KeepRepair =>
        var u := Saved(w, k, env, 2, Repairing(p.v, p.body));
        BeginOthers(u, k, env, Repairing(p.v, p.body), p.body);
        BeginOthers(Logged(u, Repaired(p.body)), k, env, Repairing(p.v, p.body), p.body);
      case _ =>
    }
  }

  // ---------- the visitor whose run is current ----------

  /** One segment of the owner keeps what is saved, and itself, backed by the log. */
  ghost predicate Advances(w: World, k: VisitorId, text: Text, v: World) {
    Inv(Now(v), text) && (k in v.visitors ==> OwnerInv(Now(v), text, v.visitors[k]))
  }

  lemma ToReviewKeeps(w: World, k: VisitorId, v: Validation, body: Text, text: Text)
    requires k in w.visitors && Inv(Now(w), text) && Working(v, w.log, text) && BodyFor(v, body)
    ensures Advances(w, k, text, ToReview(w, k, v, body))
  {
    CheckedBodyWasChecked(v, w.log);
    hide Backs, Inv, Checked, Approved, CheckedBody;
  }

  lemma LookKeeps(w: World, k: VisitorId, text: Text, env: Env)
    requires Owns(w, k) && w.visitors[k].point.Look? && Inv(Now(w), text)
    ensures Advances(w, k, text, Advance(w, k, text, env))
  {
    var v := For(w.saved, text);
    CheckedBodyWasChecked(v, w.log);
    BodyOfIsFor(v, w.log, text);
    if !v.accepted {
      ToReviewKeeps(w, k, v, BodyOf(v, text), text);
    }
    hide CountInv, AllBacked, Checked, Approved, CheckedBody, ToReview;
  }

  lemma BodyOfIsFor(v: Validation, log: seq<Event>, text: Text)
    requires BodyInv(v, log)
    ensures BodyFor(v, BodyOf(v, text))
  {
    hide TrimSpace, Checked, Approved, LastSecured, NoneSecured, VisibleOnceSecured, CheckedBody;
  }

  /** What a segment did: the state it leaves, and where the visitor is, if anywhere. */
  ghost predicate Leads(w: World, k: VisitorId, text: Text, env: Env, s: State, at: Option<Visitor>)
    requires k in w.visitors
  {
    var v := Advance(w, k, text, env);
    && Now(v) == s && (k in v.visitors <==> at.Some?)
    && (at.Some? ==> v.visitors[k] == at.value)
  }

  lemma LeadsOn(w: World, k: VisitorId, text: Text, env: Env, s: State, at: Option<Visitor>)
    requires k in w.visitors && Leads(w, k, text, env, s, at) && Inv(s, text)
    requires at.Some? ==> OwnerInv(s, text, at.value)
    ensures Advances(w, k, text, Advance(w, k, text, env))
  {
    hide Inv, OwnerInv, Advance;
  }

  lemma PayRepairLeads(w: World, k: VisitorId, text: Text, env: Env)
    requires Owns(w, k) && w.visitors[k].point.PayRepair?
    ensures var p := w.visitors[k];
            var v1 := p.v.(repairAttempts := p.v.repairAttempts + 1);
            var after := Stored(env, 1, w.saved, v1);
            if Saves(env, 1)
              then Leads(w, k, text, env, State(v1, w.log + [RepairCall(p.v.safeBody)]),
                         Some(p.(point := Repair, v := v1)))
            else Leads(w, k, text, env, State(after, w.log), None)
  {
  }

  lemma PayRepairKeeps(w: World, k: VisitorId, text: Text, env: Env)
    requires Owns(w, k) && w.visitors[k].point.PayRepair? && Inv(Now(w), text) && OwnerInv(Now(w), text, w.visitors[k])
    ensures Advances(w, k, text, Advance(w, k, text, env))
  {
    hide AllBacked, BodyInv, Passes, Repairs, RepairCalls, PassesOfBody, Advance, Leads, Advances;
    var p := w.visitors[k];
    var v1 := p.v.(repairAttempts := p.v.repairAttempts + 1);
    var e := RepairCall(p.v.safeBody);
    PayRepairLeads(w, k, text, env);
    RepairCallKeeps(Now(w), p.v, text);
    StoredKeeps(Now(w), text, env, 1, v1);
    Append(w.log, e);
    if Saves(env, 1) {
      LeadsOn(w, k, text, env, State(v1, w.log + [e]), Some(p.(point := Repair, v := v1)));
    } else {
      LeadsOn(w, k, text, env, State(Stored(env, 1, w.saved, v1), w.log), None);
    }
  }

  lemma RepairKeeps(w: World, k: VisitorId, text: Text, env: Env)
    requires Owns(w, k) && w.visitors[k].point.Repair? && Inv(Now(w), text) && OwnerInv(Now(w), text, w.visitors[k])
    ensures Advances(w, k, text, Advance(w, k, text, env))
  {
    CheckedBodyWasChecked(w.visitors[k].v, w.log);
    hide Inv, CountInv, Checked, Approved, CheckedBody, TrimSpace;
  }

  lemma KeepRepairKeeps(w: World, k: VisitorId, text: Text, env: Env)
    requires Owns(w, k) && w.visitors[k].point.KeepRepair? && Inv(Now(w), text) && OwnerInv(Now(w), text, w.visitors[k])
    ensures Advances(w, k, text, Advance(w, k, text, env))
  {
    var p := w.visitors[k];
    var v2 := Repairing(p.v, p.body);
    RepairedKeeps(Now(w), p.v, text, p.body);
    RepairingFacts(p.v, p.body);
    hide Backs, AllBacked, Repairing, ToReview, CheckedBody, Repairs, RepairCalls;
    if Saves(env, 2) {
      ToReviewKeeps(w.(saved := v2, log := w.log + [Repaired(p.body)]), k, v2, p.body, text);
    }
  }

  lemma PayPassLeads(w: World, k: VisitorId, text: Text, env: Env)
    requires Owns(w, k) && w.visitors[k].point.PayPass?
    ensures var p := w.visitors[k];
            var v1 := p.v.(attempts := p.v.attempts + 1);
            if Saves(env, 3)
            then Leads(w, k, text, env, State(v1, w.log + [Pass]),
                       Some(p.(point := if p.v.responseChecked then Judging else Guarding, v := v1)))
            else Leads(w, k, text, env, State(Stored(env, 3, w.saved, v1), w.log), None)
  {
  }

  lemma PayPassKeeps(w: World, k: VisitorId, text: Text, env: Env)
    requires Owns(w, k) && w.visitors[k].point.PayPass? && Inv(Now(w), text) && OwnerInv(Now(w), text, w.visitors[k])
    ensures Advances(w, k, text, Advance(w, k, text, env))
  {
    hide AllBacked, BodyInv, Passes, Repairs, RepairCalls, PassesOfBody, Advance, Leads, Advances;
    var p := w.visitors[k];
    var v1 := p.v.(attempts := p.v.attempts + 1);
    PayPassLeads(w, k, text, env);
    PassKeeps(Now(w), p.v, text);
    SameBodies(p.v, v1, w.log);
    StoredKeeps(Now(w), text, env, 3, v1);
    if Saves(env, 3) {
      LeadsOn(w, k, text, env, State(v1, w.log + [Pass]),
              Some(p.(point := if p.v.responseChecked then Judging else Guarding, v := v1)));
    } else {
      LeadsOn(w, k, text, env, State(Stored(env, 3, w.saved, v1), w.log), None);
    }
  }

  lemma GuardingLeads(w: World, k: VisitorId, text: Text, env: Env)
    requires Owns(w, k) && w.visitors[k].point.Guarding?
    ensures var p := w.visitors[k];
            var safe := if env.guard.Rewritten? then env.guard.output else p.body;
            if env.guard.Refused? || (env.guard.Rewritten? && TrimSpace(env.guard.output) == [])
            then Leads(w, k, text, env, Now(w), Some(p.(point := Defer)))
            else Leads(w, k, text, env, State(w.saved, w.log + [ThroughGuard(env, p.body)]),
                       Some(p.(point := KeepGuarded, body := safe)))
  {
    hide TrimSpace;
  }

  lemma GuardingKeeps(w: World, k: VisitorId, text: Text, env: Env)
    requires Owns(w, k) && w.visitors[k].point.Guarding? && Inv(Now(w), text) && OwnerInv(Now(w), text, w.visitors[k])
    ensures Advances(w, k, text, Advance(w, k, text, env))
  {
    hide Backs, AllBacked, TrimSpace, Advance, Leads, Advances;
    var p := w.visitors[k];
    var e := ThroughGuard(env, p.body);
    GuardingLeads(w, k, text, env);
    if env.guard.Refused? || (env.guard.Rewritten? && TrimSpace(env.guard.output) == []) {
      LeadsOn(w, k, text, env, Now(w), Some(p.(point := Defer)));
    } else {
      var safe := if env.guard.Rewritten? then env.guard.output else p.body;
      GuardedKeeps(State(p.v, w.log), p.v, text, e, safe);
      CostlessKeeps(Now(w), text, e, p);
      LeadsOn(w, k, text, env, State(w.saved, w.log + [e]), Some(p.(point := KeepGuarded, body := safe)));
    }
  }

  lemma JudgingLeads(w: World, k: VisitorId, text: Text, env: Env)
    requires Owns(w, k) && w.visitors[k].point.Judging?
    ensures var p := w.visitors[k];
            Leads(w, k, text, env, State(w.saved, w.log + [Reviewed(p.v.safeBody, env.verdict.judgement)]),
                  Some(p.(point := if env.verdict.judgement.Unavailable? then Defer else KeepVerdict,
                          v := AfterVerdict(p.v, env.verdict))))
  {
  }

  lemma VerdictBacked(v: Validation, log: seq<Event>, text: Text, verdict: Verdict)
    requires Working(v, log, text) && v.responseChecked
    ensures var after := AfterVerdict(v, verdict);
            Backs(after, log + [Reviewed(v.safeBody, verdict.judgement)]) && after.candidate == text
  {
    hide BodyInv, Passes, Repairs, RepairCalls, PassesOfBody;
    var e := Reviewed(v.safeBody, verdict.judgement);
    LogStays(v, log, e);
    if verdict.judgement.Met? {
      AcceptedIsApproved(v, log);
    }
    VerdictBody(v, log + [e], verdict);
  }

  lemma AcceptedIsApproved(v: Validation, log: seq<Event>)
    requires BodyInv(v, log) && v.responseChecked
    ensures Approved(log + [Reviewed(v.safeBody, Met)], v.safeBody)
  {
    hide Checked, TextInv;
    var e := Reviewed(v.safeBody, Met);
    assert (log + [e])[|log|] == e && (log + [e])[..|log|] == log;
  }

  lemma VerdictBody(v: Validation, log: seq<Event>, verdict: Verdict)
    requires BodyInv(v, log) && (verdict.judgement.Met? ==> Approved(log, v.safeBody))
    ensures BodyInv(AfterVerdict(v, verdict), log)
  {
    hide Checked, Approved, LastSecured, NoneSecured, VisibleOnceSecured, TrimSpace;
  }

  lemma JudgingKeeps(w: World, k: VisitorId, text: Text, env: Env)
    requires Owns(w, k) && w.visitors[k].point.Judging? && Inv(Now(w), text) && OwnerInv(Now(w), text, w.visitors[k])
    ensures Advances(w, k, text, Advance(w, k, text, env))
  {
    hide AllBacked, Backs, Advance, Leads, Advances, AfterVerdict;
    var p := w.visitors[k];
    var e := Reviewed(p.v.safeBody, env.verdict.judgement);
    JudgingLeads(w, k, text, env);
    CostlessKeeps(Now(w), text, e, p);
    VerdictBacked(p.v, w.log, text, env.verdict);
    LeadsOn(w, k, text, env, State(w.saved, w.log + [e]),
            Some(p.(point := if env.verdict.judgement.Unavailable? then Defer else KeepVerdict,
                    v := AfterVerdict(p.v, env.verdict))));
  }

  lemma KeepGuardedLeads(w: World, k: VisitorId, text: Text, env: Env)
    requires Owns(w, k) && w.visitors[k].point.KeepGuarded?
    ensures var p := w.visitors[k];
            var v2 := Secure(p.v, p.body);
            Leads(w, k, text, env, State(Stored(env, 4, w.saved, v2), SecuredIn(w.log, env, p.body)),
                  if Saves(env, 4) then Some(p.(point := Judging, v := v2)) else None)
  {
  }

  lemma KeepGuardedKeeps(w: World, k: VisitorId, text: Text, env: Env)
    requires Owns(w, k) && w.visitors[k].point.KeepGuarded? && Inv(Now(w), text)
    requires OwnerInv(Now(w), text, w.visitors[k])
    ensures Advances(w, k, text, Advance(w, k, text, env))
  {
    hide Inv, Backs, Checked, Advance, Leads, Advances;
    var p := w.visitors[k];
    var v2 := Secure(p.v, p.body);
    KeepGuardedLeads(w, k, text, env);
    SecuredKeeps(Now(w), p.v, text, p.body);
    LeadsOn(w, k, text, env, State(Stored(env, 4, w.saved, v2), SecuredIn(w.log, env, p.body)),
            if Saves(env, 4) then Some(p.(point := Judging, v := v2)) else None);
  }

  /** Where the last save of a round, once it succeeded, leads. */
  function Onward(p: Visitor, env: Env): Option<Visitor> {
    if !Saves(env, 5) then None
    else if p.point.KeepVerdict?
      then Some(if p.v.accepted then p.(point := Close(true), body := p.v.safeBody) else p.(point := Look))
    else if p.v.attempts >= MAX_REVIEWS || !env.due then Some(p.(point := Close(false), body := CheckedBody(p.v)))
    else None
  }

  lemma SavingLeads(w: World, k: VisitorId, text: Text, env: Env)
    requires Owns(w, k) && (w.visitors[k].point.KeepVerdict? || w.visitors[k].point.Defer?)
    ensures var p := w.visitors[k];
            Leads(w, k, text, env, State(Stored(env, 5, w.saved, p.v), w.log), Onward(p, env))
  {
    hide CheckedBody;
  }

  lemma SavingKeeps(w: World, k: VisitorId, text: Text, env: Env)
    requires Owns(w, k) && Inv(Now(w), text) && OwnerInv(Now(w), text, w.visitors[k])
    requires w.visitors[k].point.KeepVerdict? || w.visitors[k].point.Defer?
    ensures Advances(w, k, text, Advance(w, k, text, env))
  {
    hide Inv, CountInv, Checked, Approved, CheckedBody, Advance, Leads, Advances, TextInv;
    var p := w.visitors[k];
    var s := State(Stored(env, 5, w.saved, p.v), w.log);
    SavingLeads(w, k, text, env);
    CheckedBodyWasChecked(p.v, w.log);
    StoredKeeps(Now(w), text, env, 5, p.v);
    LeadsOn(w, k, text, env, s, Onward(p, env));
  }

  lemma CloseKeeps(w: World, k: VisitorId, text: Text, env: Env)
    requires Owns(w, k) && w.visitors[k].point.Close? && Inv(Now(w), text) && OwnerInv(Now(w), text, w.visitors[k])
    ensures Advances(w, k, text, Advance(w, k, text, env))
  {
    FinishKeeps(Now(w), w.visitors[k].point.completed, w.visitors[k].body, text);
    hide Inv, Checked, Approved;
  }

  lemma OwnerKeeps(w: World, k: VisitorId, text: Text, env: Env)
    requires Owns(w, k) && Inv(Now(w), text) && OwnerInv(Now(w), text, w.visitors[k])
    ensures Advances(w, k, text, Advance(w, k, text, env))
  {
    hide Inv, OwnerInv, Advance, Advances;
    match w.visitors[k].point {
      case Look => LookKeeps(w, k, text, env);
      case PayRepair => PayRepairKeeps(w, k, text, env);
      case Repair => RepairKeeps(w, k, text, env);
      case KeepRepair => KeepRepairKeeps(w, k, text, env);
      case PayPass => PayPassKeeps(w, k, text, env);
      case Guarding => GuardingKeeps(w, k, text, env);
      case KeepGuarded => KeepGuardedKeeps(w, k, text, env);
      case Judging => JudgingKeeps(w, k, text, env);
      case Close(_) => CloseKeeps(w, k, text, env);
      case _ => SavingKeeps(w, k, text, env);
    }
  }

  // ---------- everybody ----------

  lemma ReviewsMore(log: seq<Event>, e: Event)
    ensures ReviewCalls(log + [e]) == ReviewCalls(log) + if e.Reviewed? then 1 else 0
    ensures Passes(log + [e]) == Passes(log) + if e.Pass? then 1 else 0
    ensures log + [e] == log + [Pass] <==> e.Pass?
  {
    assert (log + [e])[..|log|] == log && (log + [e])[|log|] == e;
  }

  lemma Fewer(a: set<VisitorId>, b: set<VisitorId>)
    requires a <= b
    ensures |a| <= |b|
    decreases |b|
  {
    if a != b {
      var x :| x in b && x !in a;
      Fewer(a, b - {x});
    }
  }

  lemma ReviewsStayPaid(w: World, k: VisitorId, text: Text, env: Env)
    requires k in w.visitors && ReviewsPaid(w)
    ensures ReviewsPaid(Advance(w, k, text, env))
  {
    var v := Advance(w, k, text, env);
    OthersStay(w, k, text, env);
    LogGrows(w, k, text, env);
    hide ReviewCalls, Passes;
    if w.visitors[k].point.Judging? {
      assert k in Owed(w);
      PointAfter(w, k, text, env);
      Fewer(Owed(v), Owed(w) - {k});
    } else if k in Owed(v) && k !in Owed(w) {
      PointAfter(w, k, text, env);
      Fewer(Owed(v), Owed(w) + {k});
    } else {
      assert Owed(v) <= Owed(w) by { hide Advance; }
      Fewer(Owed(v), Owed(w));
    }
  }

  /** Only judging logs a review and leads out of the debt; only a paid pass leads in. */
  lemma PointAfter(w: World, k: VisitorId, text: Text, env: Env)
    requires k in w.visitors
    ensures var v := Advance(w, k, text, env);
            && (w.visitors[k].point.Judging? ==> k !in Owed(v))
            && (k in Owed(v) && k !in Owed(w) ==> w.visitors[k].point.PayPass? && v.log == w.log + [Pass])
  {
    hide TrimSpace, CheckedBody, For, ThroughGuard, Repairing;
  }

  lemma LogGrows(w: World, k: VisitorId, text: Text, env: Env)
    requires k in w.visitors
    ensures var v := Advance(w, k, text, env);
            && Passes(v.log) == Passes(w.log) + (if v.log == w.log + [Pass] then 1 else 0)
            && ReviewCalls(v.log) == ReviewCalls(w.log) + if w.visitors[k].point.Judging? then 1 else 0
  {
    hide TrimSpace, CheckedBody, For, Repairing, ReviewCalls, Passes, Stored, Saves, BodyOf;
    var p := w.visitors[k];
    match p.point {
      case PayRepair => ReviewsMore(w.log, RepairCall(p.v.safeBody));
      case KeepRepair => ReviewsMore(w.log, Repaired(p.body));
      case PayPass => ReviewsMore(w.log, Pass);
      case Guarding => ReviewsMore(w.log, ThroughGuard(env, p.body));
      case KeepGuarded => ReviewsMore(w.log, Secured(p.body));
      case Judging => ReviewsMore(w.log, Reviewed(p.v.safeBody, env.verdict.judgement));
      case Close(completed) => ReviewsMore(w.log, Published(completed, p.body));
      case _ =>
    }
  }

  lemma GoKeeps(w: World, k: VisitorId, text: Text, env: Env)
    requires WorldInv(w, text) && k in w.visitors
    ensures WorldInv(Advance(w, k, text, env), text)
  {
    var v := Advance(w, k, text, env);
    OthersStay(w, k, text, env);
    ReviewsStayPaid(w, k, text, env);
    if Owns(w, k) {
      OwnerKeeps(w, k, text, env);
      hide Inv, OwnerInv, Advance, ReviewsPaid;
      assert forall l | Owns(v, l) :: l == k by {
        forall l | Owns(v, l) ensures l == k {
          assert Owns(w, l);
        }
      }
    } else {
      ReplacedOnlyCalls(w, k, text, env);
      hide Inv, OwnerInv, Advance, ReviewsPaid;
      forall l | Owns(v, l)
        ensures Owns(w, l) && l != k && OwnerInv(Now(v), text, v.visitors[l])
      {
        assert Owns(w, l) && OwnerInv(Now(w), text, w.visitors[l]);
        if v.log != w.log {
          var e :| Costless(e) && v.log == w.log + [e];
          CostlessKeeps(Now(w), text, e, w.visitors[l]);
          assert Now(v) == Now(w).(log := w.log + [e]);
        } else {
          assert Now(v) == Now(w);
        }
      }
      if v.log != w.log {
        var e :| Costless(e) && v.log == w.log + [e];
        CostlessKeeps(Now(w), text, e, w.visitors[k]);
        assert Now(v) == Now(w).(log := w.log + [e]);
      } else {
        assert Now(v) == Now(w);
      }
    }
  }

  lemma StepKeeps(w: World, text: Text, s: Step)
    requires WorldInv(w, text)
    ensures WorldInv(Apply(w, text, s), text)
  {
    hide Inv, Advance;
    match s {
      case TakeOver(k) =>
        var v := Apply(w, text, s);
        assert Owed(v) == Owed(w) && Now(v) == Now(w);
        hide ReviewCalls, Passes;
      case Go(k, env) => if k in w.visitors { GoKeeps(w, k, text, env); }
      case Crash(k) =>
        var v := Apply(w, text, s);
        Fewer(Owed(v), Owed(w));
        assert Now(v) == Now(w);
        hide ReviewCalls, Passes, OwnerInv;
        assert forall l | Owns(v, l) :: Owns(w, l) && v.visitors[l] == w.visitors[l];
    }
  }

  lemma {:induction false} VisitsKeep(w: World, text: Text, steps: seq<Step>)
    requires WorldInv(w, text)
    ensures WorldInv(After(w, text, steps), text)
    decreases |steps|
  {
    hide WorldInv, Apply;
    if steps != [] {
      StepKeeps(w, text, steps[0]);
      VisitsKeep(Apply(w, text, steps[0]), text, steps[1..]);
    }
  }

  /** Before anybody looked at this candidate. */
  function Start(saved: Validation, run: nat): World {
    World(saved, [], run, map[])
  }

  lemma StartInv(saved: Validation, run: nat, text: Text)
    requires saved.candidate != text
    ensures WorldInv(Start(saved, run), text)
  {
    FirstSight(saved, text);
    assert Owed(Start(saved, run)) == {};
    hide Inv;
  }

  /** However visitors overlap, replace each other and crash: per candidate at most two
      repair calls, three review passes per body and nine in all, and no more reviews
      than passes. */
  lemma OverlappingEffortIsBounded(saved: Validation, run: nat, text: Text, steps: seq<Step>)
    requires saved.candidate != text
    ensures var log := After(Start(saved, run), text, steps).log;
            && RepairCalls(log) <= 2 && Repairs(log) <= RepairCalls(log)
            && PassesOfBody(log) <= 3 && ReviewCalls(log) <= Passes(log) <= 9
  {
    StartInv(saved, run, text);
    VisitsKeep(Start(saved, run), text, steps);
    hide BodyInv, AllBacked, Owners, Runs, After;
  }

  /** And what is published is safe all the same: a completed report was checked and
      then accepted, that exact text; any other body is empty or was checked, and is
      the text of the last check that was saved. */
  lemma OverlappingVisitsPublishSafely(saved: Validation, run: nat, text: Text, steps: seq<Step>, i: nat)
    requires saved.candidate != text && i < |After(Start(saved, run), text, steps).log|
    ensures var log := After(Start(saved, run), text, steps).log;
            match log[i]
            case Published(true, body) => exists j, k ::
                0 <= j < k < i && Yields(log[j], body) && log[k] == Reviewed(body, Met)
            case Published(false, body) => body == [] || exists j :: 0 <= j < i && Yields(log[j], body)
            case _ => true
    ensures var log := After(Start(saved, run), text, steps).log;
            log[i].Published? && !log[i].completed ==> CarriesLast(log, i, log[i].body)
  {
    StartInv(saved, run, text);
    VisitsKeep(Start(saved, run), text, steps);
    var v := After(Start(saved, run), text, steps);
    InvIsVisible(Now(v), text);
    BackedMeans(v.log, i);
    PartialCarries(v.log, i);
    hide Backs, AllBacked, Owners, Runs, After, Yields, CarriesLast;
  }

  lemma InvIsVisible(s: State, text: Text)
    requires Inv(s, text)
    ensures VisibleOnceSecured(s.log)
  {
    hide CountInv, Checked, Approved, AllBacked, VisibleOnceSecured;
  }
}
