/** The persisted review and repair loop that turns the finalize step's text into
    a published report. Every counter is saved before the effect it pays for. */
module Validation {
  import opened Wrappers
  import opened Refs

  type Text = Bytes

  datatype Judgement = Unavailable | NotMet | Met

  /** repairable: the grounding findings leave something a rewrite could fix. */
  datatype Verdict = Verdict(judgement: Judgement, repairable: bool)

  /** graphFinalValidation; the candidate hash is the candidate itself. */
  datatype Validation = Validation(
    candidate: Text, repairPending: bool, repairAttempts: nat, repairBody: Text, verdict: Option<Verdict>,
    attempts: nat, responseChecked: bool, accepted: bool, safeBody: Text, lastCheckedBody: Text)

  /** What happened outside the saved state. */
  datatype Event =
    | RepairCall(draft: Text)
    | Repaired(text: Text)
    | Pass
    | Guarded(input: Text, output: Text)
    | Unguarded(text: Text)   // no guard is configured
    | Secured(text: Text)     // the checked text was saved
    | Reviewed(text: Text, judgement: Judgement)
    | Published(completed: bool, body: Text)

  datatype Exit = Again | Yielded | Finished | Broken

  datatype Guard = Absent | Refused | Rewritten(output: Text)

  /** The answers one round meets. broken names the save that fails (1 to 5, 0
      for none) and committed says whether it took effect all the same; due
      says whether a deferral would still end before the task's deadline. */
  datatype Env = Env(canRepair: bool, revised: Text, due: bool, guard: Guard, verdict: Verdict, broken: nat,
                     committed: bool)

  datatype State = State(saved: Validation, log: seq<Event>)

  const MAX_REPAIRS: nat := 2
  const MAX_REVIEWS: nat := 3

  function Unseen(text: Text): Validation {
    Validation(text, false, 0, [], None, 0, false, false, [], [])
  }

  function CheckedBody(v: Validation): Text {
    if v.responseChecked && TrimSpace(v.safeBody) != [] then v.safeBody else v.lastCheckedBody
  }

  /** The state a visit for this text works on. */
  function For(v: Validation, text: Text): Validation {
    if v.candidate != text then Unseen(text) else v
  }

  /** Save number k: whether it returned nil, and what is then stored. */
  predicate Saves(env: Env, k: nat) {
    env.broken != k
  }

  function Stored(env: Env, k: nat, before: Validation, after: Validation): Validation {
    if Saves(env, k) || env.committed then after else before
  }

  function Finish(s: State, completed: bool, body: Text): (State, Exit) {
    (s.(log := s.log + [Published(completed, body)]), Finished)
  }

  function Repairing(v: Validation, revised: Text): Validation {
    v.(repairBody := revised, attempts := 0, repairPending := false, lastCheckedBody := CheckedBody(v),
       responseChecked := false, safeBody := [], verdict := None)
  }

  function Round(s: State, text: Text, env: Env): (State, Exit) {
    var v := For(s.saved, text);
    if v.accepted then Finish(s, true, v.safeBody)
    else if v.repairPending then RepairRound(s, v, env)
    else ReviewRound(s, v, if v.repairBody != [] then v.repairBody else text, env)
  }

  function RepairRound(s: State, v: Validation, env: Env): (State, Exit) {
    if !env.canRepair || (v.verdict.Some? && !v.verdict.value.repairable) || v.repairAttempts >= MAX_REPAIRS
      then Finish(s, false, CheckedBody(v))
    else
      var v1 := v.(repairAttempts := v.repairAttempts + 1);
      var s1 := s.(saved := Stored(env, 1, s.saved, v1));
      if !Saves(env, 1) then (s1, Broken) else
        var s2 := s1.(log := s1.log + [RepairCall(v.safeBody)]);
        if TrimSpace(env.revised) == [] then
          if v1.repairAttempts >= MAX_REPAIRS || !env.due then Finish(s2, false, CheckedBody(v1)) else (s2, Yielded)
        else
          var v2 := Repairing(v1, env.revised);
          var s3 := State(Stored(env, 2, v1, v2),
                          if Saves(env, 2) || env.committed then s2.log + [Repaired(env.revised)] else s2.log);
          if !Saves(env, 2) then (s3, Broken) else ReviewRound(s3, v2, env.revised, env)
  }

  /** A body on its way to the reviewer: through the guard, if there is one. */
  function ThroughGuard(env: Env, body: Text): Event {
    match env.guard
    case Absent => Unguarded(body)
    case _ => Guarded(body, if env.guard.Rewritten? then env.guard.output else body)
  }

  function SecuredIn(log: seq<Event>, env: Env, safe: Text): seq<Event> {
    if Saves(env, 4) || env.committed then log + [Secured(safe)] else log
  }

  function ReviewRound(s: State, v: Validation, body: Text, env: Env): (State, Exit) {
    if v.attempts >= MAX_REVIEWS then Finish(s, false, CheckedBody(v)) else
      var v1 := v.(attempts := v.attempts + 1);
      var s1 := s.(saved := Stored(env, 3, s.saved, v1));
      if !Saves(env, 3) then (s1, Broken) else
        var s2 := s1.(log := s1.log + [Pass]);
        if v1.responseChecked then Judged(s2, v1, env)
        else if env.guard.Refused? || (env.guard.Rewritten? && TrimSpace(env.guard.output) == [])
          then Deferred(s2, v1, env)
        else
          var safe := if env.guard.Absent? then body else env.guard.output;
          var v2 := v1.(safeBody := safe, lastCheckedBody := safe, responseChecked := true);
          var s3 := State(Stored(env, 4, v1, v2), SecuredIn(s2.log + [ThroughGuard(env, body)], env, safe));
          if !Saves(env, 4) then (s3, Broken) else Judged(s3, v2, env)
  }

  function Judged(s: State, v: Validation, env: Env): (State, Exit) {
    var s1 := s.(log := s.log + [Reviewed(v.safeBody, env.verdict.judgement)]);
    var v1 := v.(verdict := Some(env.verdict));
    match env.verdict.judgement
    case Unavailable => Deferred(s1, v1, env)
    case NotMet =>
      (s1.(saved := Stored(env, 5, s.saved, v1.(repairPending := true))), if Saves(env, 5) then Again else Broken)
    case Met =>
      var s2 := s1.(saved := Stored(env, 5, s.saved, v1.(accepted := true)));
      if Saves(env, 5) then Finish(s2, true, v1.safeBody) else (s2, Broken)
  }

  /** deferCheck. */
  function Deferred(s: State, v: Validation, env: Env): (State, Exit) {
    var s1 := s.(saved := Stored(env, 5, s.saved, v));
    if !Saves(env, 5) then (s1, Broken)
    else if v.attempts >= MAX_REVIEWS || !env.due then Finish(s1, false, CheckedBody(v))
    else (s1, Yielded)
  }

  // ---------- termination ----------

  /** Repairs left, then whether a repair is not yet pending, then reviews left:
      (2 - repairs, not pending, 3 - reviews) in lexicographic order. */
  function Rank(v: Validation): nat {
    (if v.repairAttempts >= MAX_REPAIRS then 0 else (MAX_REPAIRS - v.repairAttempts) * 8)
    + (if v.repairPending then 0 else 4)
    + (if v.attempts >= MAX_REVIEWS then 0 else MAX_REVIEWS - v.attempts)
  }

  predicate Counted(v: Validation) {
    v.repairAttempts <= MAX_REPAIRS && v.attempts <= MAX_REVIEWS
  }

  predicate Ends(log: seq<Event>) {
    log != [] && log[|log| - 1].Published?
  }

  ghost predicate Below(a: Validation, b: Validation) {
    a.candidate == b.candidate && Counted(a) && Rank(a) <= Rank(b)
  }

  /** How a round concludes: by publishing, or in a state at most r. */
  ghost predicate Concludes(s: State, t: State, exit: Exit) {
    && s.log <= t.log
    && (exit.Finished? ==> t.log != s.log && Ends(t.log))
    && (!exit.Finished? ==> t.log == s.log || !Ends(t.log))
  }

  lemma DeferredDescends(s: State, v: Validation, env: Env)
    requires Counted(v) && Below(s.saved, v) && s.log != [] && !Ends(s.log)
    ensures var (t, exit) := Deferred(s, v, env);
            Below(t.saved, v) && Concludes(s, t, exit) && !exit.Again?
  {
    hide TrimSpace, CheckedBody;
  }

  lemma JudgedDescends(s: State, v: Validation, env: Env)
    requires Counted(v) && Below(s.saved, v) && s.log != [] && !Ends(s.log) && !v.repairPending
    ensures var (t, exit) := Judged(s, v, env);
            Below(t.saved, v) && Concludes(s, t, exit)
  {
    hide TrimSpace, CheckedBody, Deferred;
    var s1 := s.(log := s.log + [Reviewed(v.safeBody, env.verdict.judgement)]);
    DeferredDescends(s1, v.(verdict := Some(env.verdict)), env);
  }

  lemma ReviewDescends(s: State, v: Validation, body: Text, env: Env)
    requires Counted(v) && !v.repairPending
    ensures var (t, exit) := ReviewRound(s, v, body, env);
            && Concludes(s, t, exit)
            && (t == s || exit.Finished?
                || (Counted(t.saved) && t.saved.candidate == v.candidate && Rank(t.saved) < Rank(v)))
            && (t == s ==> exit.Broken?)
            && (exit.Finished? ==> t.saved == s.saved || Counted(t.saved))
  {
    hide TrimSpace, CheckedBody, Deferred, Judged;
    if v.attempts < MAX_REVIEWS && Saves(env, 3) {
      var v1 := v.(attempts := v.attempts + 1);
      var s2 := State(Stored(env, 3, s.saved, v1), s.log + [Pass]);
      if v1.responseChecked {
        JudgedDescends(s2, v1, env);
      } else if env.guard.Refused? || (env.guard.Rewritten? && TrimSpace(env.guard.output) == []) {
        DeferredDescends(s2, v1, env);
      } else {
        var safe := if env.guard.Absent? then body else env.guard.output;
        var v2 := v1.(safeBody := safe, lastCheckedBody := safe, responseChecked := true);
        var s3 := State(Stored(env, 4, v1, v2), SecuredIn(s2.log + [ThroughGuard(env, body)], env, safe));
        JudgedDescends(s3, v2, env);
      }
    }
  }

  /** Every round publishes, or fails its first save having done nothing
      outside, or moves strictly down the measure; Again always moves down. */
  lemma RoundDescends(s: State, text: Text, env: Env)
    requires Counted(s.saved)
    ensures var (t, exit) := Round(s, text, env);
            && Counted(t.saved) && Concludes(s, t, exit)
            && (exit.Finished? || (exit.Broken? && t == s) || Rank(For(t.saved, text)) < Rank(For(s.saved, text)))
  {
    hide TrimSpace, CheckedBody, ReviewRound;
    var v := For(s.saved, text);
    if !v.accepted && v.repairPending {
      if Round(s, text, env) != Finish(s, false, CheckedBody(v)) {
        var v1 := v.(repairAttempts := v.repairAttempts + 1);
        var v2 := Repairing(v1, env.revised);
        var log := s.log + [RepairCall(v.safeBody), Repaired(env.revised)];
        assert s.log + [RepairCall(v.safeBody)] + [Repaired(env.revised)] == log;
        ReviewDescends(State(Stored(env, 2, v1, v2), log), v2, env.revised, env);
      }
    } else if !v.accepted {
      ReviewDescends(s, v, if v.repairBody != [] then v.repairBody else text, env);
    }
  }

  /** validateGraphResult with its recursion; envs answers each round in turn. */
  function Visit(s: State, text: Text, envs: nat -> Env, n: nat): (State, Exit)
    requires Counted(s.saved)
    decreases Rank(For(s.saved, text))
  {
    RoundDescends(s, text, envs(n));
    var (t, exit) := Round(s, text, envs(n));
    if exit.Again? then Visit(t, text, envs, n + 1) else (t, exit)
  }

  // ---------- what the log records ----------

  /** This event made x a checked draft: the guard returned it, or there is none. */
  predicate Yields(e: Event, x: Text) {
    (e.Guarded? && e.output == x) || e == Unguarded(x)
  }

  ghost predicate Checked(log: seq<Event>, x: Text) {
    exists i :: 0 <= i < |log| && Yields(log[i], x)
  }

  /** x was checked and then accepted by the reviewer. */
  ghost predicate Approved(log: seq<Event>, x: Text) {
    exists i :: 0 <= i < |log| && log[i] == Reviewed(x, Met) && Checked(log[..i], x)
  }

  /** The checked text saved last; empty if there is none. */
  function LastSecured(log: seq<Event>): Text {
    if log == [] then []
    else if log[|log| - 1].Secured? then log[|log| - 1].text else LastSecured(log[..|log| - 1])
  }

  ghost predicate NoneSecured(log: seq<Event>) {
    forall i | 0 <= i < |log| :: !log[i].Secured?
  }

  /** Only the first saved text can be blank, so a visible one is never lost. */
  ghost predicate VisibleOnceSecured(log: seq<Event>) {
    forall i, k | 0 <= i < k < |log| && log[i].Secured? && log[k].Secured? :: TrimSpace(log[k].text) != []
  }

  /** A blank body can only be the finalize step's own text. */
  predicate BodyFor(v: Validation, body: Text) {
    TrimSpace(body) == [] ==> v.repairBody == []
  }

  /** The draft the state would publish is the one saved last. */
  ghost predicate TextInv(v: Validation, log: seq<Event>) {
    && CheckedBody(v) == LastSecured(log) && VisibleOnceSecured(log)
    && (!v.responseChecked && v.repairBody == [] ==> NoneSecured(log))
    && (v.repairBody != [] ==> TrimSpace(v.repairBody) != [])
  }

  /** A publication is backed by what came before it. */
  ghost predicate Follows(log: seq<Event>, e: Event) {
    e.Published? ==>
      if e.completed then Approved(log, e.body)
      else e.body == LastSecured(log) && (e.body == [] || Checked(log, e.body))
  }

  ghost predicate Backed(log: seq<Event>, i: nat)
    requires i < |log|
  {
    Follows(log[..i], log[i])
  }

  ghost predicate AllBacked(log: seq<Event>) {
    forall i | 0 <= i < |log| :: Backed(log, i)
  }

  function RepairCalls(log: seq<Event>): nat {
    if log == [] then 0 else RepairCalls(log[..|log| - 1]) + if log[|log| - 1].RepairCall? then 1 else 0
  }

  function Repairs(log: seq<Event>): nat {
    if log == [] then 0 else Repairs(log[..|log| - 1]) + if log[|log| - 1].Repaired? then 1 else 0
  }

  function Passes(log: seq<Event>): nat {
    if log == [] then 0 else Passes(log[..|log| - 1]) + if log[|log| - 1].Pass? then 1 else 0
  }

  /** Review passes of the current body: those since the last saved repair. */
  function PassesOfBody(log: seq<Event>): nat {
    if log == [] || log[|log| - 1].Repaired? then 0
    else PassesOfBody(log[..|log| - 1]) + if log[|log| - 1].Pass? then 1 else 0
  }

  ghost predicate CountInv(v: Validation, log: seq<Event>) {
    && Counted(v)
    && PassesOfBody(log) <= v.attempts
    && Passes(log) <= MAX_REVIEWS * Repairs(log) + v.attempts
    && Repairs(log) <= RepairCalls(log) <= v.repairAttempts
  }

  ghost predicate BodyInv(v: Validation, log: seq<Event>) {
    && (v.responseChecked ==> Checked(log, v.safeBody))
    && (v.lastCheckedBody == [] || Checked(log, v.lastCheckedBody))
    && (v.accepted ==> Approved(log, v.safeBody))
    && TextInv(v, log)
  }

  ghost predicate Backs(v: Validation, log: seq<Event>) {
    CountInv(v, log) && BodyInv(v, log)
  }

  ghost predicate Inv(s: State, text: Text) {
    Backs(For(s.saved, text), s.log) && AllBacked(s.log)
  }

  lemma Append(log: seq<Event>, e: Event)
    ensures RepairCalls(log + [e]) == RepairCalls(log) + if e.RepairCall? then 1 else 0
    ensures Repairs(log + [e]) == Repairs(log) + if e.Repaired? then 1 else 0
    ensures Passes(log + [e]) == Passes(log) + if e.Pass? then 1 else 0
    ensures PassesOfBody(log + [e]) == if e.Repaired? then 0 else PassesOfBody(log) + if e.Pass? then 1 else 0
  {
    assert (log + [e])[..|log|] == log;
  }

  lemma CheckedStays(log: seq<Event>, e: Event, x: Text)
    ensures Checked(log, x) ==> Checked(log + [e], x)
    ensures Approved(log, x) ==> Approved(log + [e], x)
  {
    if i :| 0 <= i < |log| && Yields(log[i], x) {
      assert (log + [e])[i] == log[i];
    }
    if i :| 0 <= i < |log| && log[i] == Reviewed(x, Met) && Checked(log[..i], x) {
      assert (log + [e])[i] == log[i] && (log + [e])[..i] == log[..i];
    }
  }

  lemma BackedStays(log: seq<Event>, e: Event)
    requires AllBacked(log)
    requires Follows(log, e)
    ensures AllBacked(log + [e])
  {
    var more := log + [e];
    hide Checked, Approved;
    forall i | 0 <= i < |more| ensures Backed(more, i) {
      assert more[..i] == log[..i];
      if i < |log| {
        assert Backed(log, i) && more[i] == log[i];
      } else {
        assert log[..i] == log;
      }
    }
  }

  lemma AppendText(log: seq<Event>, e: Event)
    ensures LastSecured(log + [e]) == if e.Secured? then e.text else LastSecured(log)
    ensures NoneSecured(log + [e]) <==> NoneSecured(log) && !e.Secured?
    ensures VisibleOnceSecured(log) && (!e.Secured? || TrimSpace(e.text) != [] || NoneSecured(log)) ==>
              VisibleOnceSecured(log + [e])
  {
    hide TrimSpace;
    var more := log + [e];
    assert more[..|log|] == log && more[|log|] == e;
    assert forall i | 0 <= i < |log| :: more[i] == log[i];
  }

  /** An event other than a save keeps whatever state backed the log. */
  lemma BodyStays(v: Validation, log: seq<Event>, e: Event)
    requires BodyInv(v, log) && !e.Secured?
    ensures BodyInv(v, log + [e])
  {
    hide Checked, Approved, CheckedBody, LastSecured, NoneSecured, VisibleOnceSecured, TrimSpace;
    CheckedStays(log, e, v.safeBody);
    CheckedStays(log, e, v.lastCheckedBody);
    AppendText(log, e);
  }

  lemma LogStays(v: Validation, log: seq<Event>, e: Event)
    requires Backs(v, log) && !e.Pass? && !e.RepairCall? && !e.Repaired? && !e.Secured?
    ensures Backs(v, log + [e])
  {
    hide BodyInv;
    BodyStays(v, log, e);
    Append(log, e);
  }

  lemma FinishKeeps(s: State, completed: bool, body: Text, text: Text)
    requires Inv(s, text)
    requires if completed then Approved(s.log, body)
             else body == LastSecured(s.log) && (body == [] || Checked(s.log, body))
    ensures Inv(Finish(s, completed, body).0, text)
  {
    hide Backs, Checked, Approved, AllBacked;
    LogStays(For(s.saved, text), s.log, Published(completed, body));
    BackedStays(s.log, Published(completed, body));
  }

  lemma CheckedBodyWasChecked(v: Validation, log: seq<Event>)
    requires BodyInv(v, log)
    ensures CheckedBody(v) == LastSecured(log) && (CheckedBody(v) == [] || Checked(log, CheckedBody(v)))
  {
    hide TrimSpace, Checked, Approved;
  }

  /** What is stored next is one of two states that both back the log. */
  lemma StoredKeeps(s: State, text: Text, env: Env, k: nat, after: Validation)
    requires Inv(s, text) && Backs(after, s.log) && after.candidate == text
    ensures Inv(s.(saved := Stored(env, k, s.saved, after)), text)
  {
    hide Backs;
  }

  lemma DeferredKeeps(s: State, v: Validation, text: Text, env: Env)
    requires Inv(s, text) && Backs(v, s.log) && v.candidate == text
    ensures Inv(Deferred(s, v, env).0, text)
  {
    hide CountInv, BodyInv, TrimSpace, Checked;
    StoredKeeps(s, text, env, 5, v);
    CheckedBodyWasChecked(v, s.log);
    if Saves(env, 5) {
      FinishKeeps(s.(saved := v), false, CheckedBody(v), text);
    }
  }

  lemma JudgedKeeps(s: State, v: Validation, text: Text, env: Env)
    requires Inv(s, text) && Backs(v, s.log) && v.candidate == text && v.responseChecked
    ensures Inv(Judged(s, v, env).0, text)
  {
    hide TrimSpace, Checked, AllBacked, Deferred, Finish;
    var e := Reviewed(v.safeBody, env.verdict.judgement);
    var s1 := s.(log := s.log + [e]);
    var v1 := v.(verdict := Some(env.verdict));
    LogStays(v, s.log, e);
    LogStays(For(s.saved, text), s.log, e);
    BackedStays(s.log, e);
    match env.verdict.judgement {
      case Unavailable => DeferredKeeps(s1, v1, text, env);
      case NotMet => StoredKeeps(s1, text, env, 5, v1.(repairPending := true));
      case Met =>
        assert s1.log[|s.log|] == Reviewed(v.safeBody, Met) && s1.log[..|s.log|] == s.log;
        var v2 := v1.(accepted := true);
        StoredKeeps(s1, text, env, 5, v2);
        if Saves(env, 5) {
          FinishKeeps(s1.(saved := v2), true, v.safeBody, text);
        }
    }
  }

  lemma GuardedKeeps(s: State, v: Validation, text: Text, e: Event, safe: Text)
    requires Inv(s, text) && Backs(v, s.log) && s.saved == v && v.candidate == text && Yields(e, safe)
    ensures var log := s.log + [e]; Inv(State(v, log), text) && Backs(v, log) && Checked(log, safe)
  {
    hide AllBacked, Approved, BodyInv;
    LogStays(v, s.log, e);
    BackedStays(s.log, e);
    assert (s.log + [e])[|s.log|] == e;
  }

  function Secure(v: Validation, safe: Text): Validation {
    v.(safeBody := safe, lastCheckedBody := safe, responseChecked := true)
  }

  /** Saving a checked text makes it the draft to publish. */
  lemma SecuredKeeps(s: State, v: Validation, text: Text, safe: Text)
    requires Inv(s, text) && Backs(v, s.log) && v.candidate == text && !v.accepted && !v.responseChecked
    requires Checked(s.log, safe) && BodyFor(v, safe)
    ensures Backs(Secure(v, safe), s.log + [Secured(safe)])
    ensures Inv(State(Secure(v, safe), s.log + [Secured(safe)]), text)
  {
    hide AllBacked, Approved, Checked, LastSecured, NoneSecured, VisibleOnceSecured, TrimSpace, Passes, Repairs,
         RepairCalls, PassesOfBody;
    CheckedStays(s.log, Secured(safe), safe);
    AppendText(s.log, Secured(safe));
    Append(s.log, Secured(safe));
    BackedStays(s.log, Secured(safe));
  }

  lemma PassKeeps(s: State, v: Validation, text: Text)
    requires Inv(s, text) && Backs(v, s.log) && v.candidate == text && v.attempts < MAX_REVIEWS
    ensures Inv(State(v.(attempts := v.attempts + 1), s.log + [Pass]), text)
  {
    hide AllBacked, BodyInv, Passes, Repairs, RepairCalls, PassesOfBody;
    var v1 := v.(attempts := v.attempts + 1);
    BodyStays(v, s.log, Pass);
    assert BodyInv(v1, s.log + [Pass]) by { SameBodies(v, v1, s.log + [Pass]); }
    Append(s.log, Pass);
    BackedStays(s.log, Pass);
  }

  lemma SameBodies(a: Validation, b: Validation, log: seq<Event>)
    requires BodyInv(a, log)
    requires b.safeBody == a.safeBody && b.lastCheckedBody == a.lastCheckedBody
             && b.responseChecked == a.responseChecked && b.accepted == a.accepted && b.repairBody == a.repairBody
    ensures BodyInv(b, log)
  {
  }

  lemma ReviewKeeps(s: State, v: Validation, body: Text, text: Text, env: Env)
    requires Inv(s, text) && Backs(v, s.log) && v.candidate == text && !v.accepted && BodyFor(v, body)
    ensures Inv(ReviewRound(s, v, body, env).0, text)
  {
    hide TrimSpace, AllBacked, BodyInv, Passes, Repairs, RepairCalls, PassesOfBody, Judged, Deferred, Finish;
    CheckedBodyWasChecked(v, s.log);
    if v.attempts >= MAX_REVIEWS {
      FinishKeeps(s, false, CheckedBody(v), text);
    } else {
      var v1 := v.(attempts := v.attempts + 1);
      assert Backs(v1, s.log) by { SameBodies(v, v1, s.log); }
      StoredKeeps(s, text, env, 3, v1);
      if Saves(env, 3) {
        PassKeeps(s, v, text);
        var s2 := State(v1, s.log + [Pass]);
        if v1.responseChecked {
          JudgedKeeps(s2, v1, text, env);
        } else if env.guard.Refused? || (env.guard.Rewritten? && TrimSpace(env.guard.output) == []) {
          DeferredKeeps(s2, v1, text, env);
        } else {
          var safe := if env.guard.Absent? then body else env.guard.output;
          var v2 := Secure(v1, safe);
          GuardedKeeps(s2, v1, text, ThroughGuard(env, body), safe);
          var s3 := State(v1, s2.log + [ThroughGuard(env, body)]);
          SecuredKeeps(s3, v1, text, safe);
          if Saves(env, 4) {
            JudgedKeeps(State(v2, s3.log + [Secured(safe)]), v2, text, env);
          }
        }
      }
    }
  }

  lemma RepairCallKeeps(s: State, v: Validation, text: Text)
    requires Inv(s, text) && Backs(v, s.log) && v.candidate == text && v.repairAttempts < MAX_REPAIRS
    ensures Inv(State(v.(repairAttempts := v.repairAttempts + 1), s.log + [RepairCall(v.safeBody)]), text)
    ensures Backs(v.(repairAttempts := v.repairAttempts + 1), s.log)
  {
    hide AllBacked, BodyInv, Passes, Repairs, RepairCalls, PassesOfBody;
    var v1 := v.(repairAttempts := v.repairAttempts + 1);
    var e := RepairCall(v.safeBody);
    BodyStays(v, s.log, e);
    SameBodies(v, v1, s.log + [e]);
    SameBodies(v, v1, s.log);
    Append(s.log, e);
    BackedStays(s.log, e);
  }

  /** Saving a repaired text: its reviews start anew, and the last checked
      draft stays behind as the one to publish meanwhile. */
  lemma RepairedKeeps(s: State, v: Validation, text: Text, revised: Text)
    requires Inv(s, text) && s.saved == v && v.candidate == text && !v.accepted
    requires Repairs(s.log) < RepairCalls(s.log) && TrimSpace(revised) != []
    ensures Inv(State(Repairing(v, revised), s.log + [Repaired(revised)]), text)
  {
    hide AllBacked, Passes, Repairs, RepairCalls, PassesOfBody, Checked, Approved, TrimSpace;
    var e := Repaired(revised);
    NothingIsBlank();
    CheckedBodyWasChecked(v, s.log);
    CheckedStays(s.log, e, CheckedBody(v));
    Append(s.log, e);
    AppendText(s.log, e);
    BackedStays(s.log, e);
  }

  lemma NothingIsBlank()
    ensures TrimSpace([]) == []
  {
  }

  lemma RepairRoundKeeps(s: State, v: Validation, text: Text, env: Env)
    requires Inv(s, text) && Backs(v, s.log) && v.candidate == text && !v.accepted
    ensures Inv(RepairRound(s, v, env).0, text)
  {
    hide TrimSpace, AllBacked, BodyInv, Passes, Repairs, RepairCalls, PassesOfBody, ReviewRound, Finish, Repairing;
    CheckedBodyWasChecked(v, s.log);
    if !env.canRepair || (v.verdict.Some? && !v.verdict.value.repairable) || v.repairAttempts >= MAX_REPAIRS {
      FinishKeeps(s, false, CheckedBody(v), text);
    } else {
      var v1 := v.(repairAttempts := v.repairAttempts + 1);
      RepairCallKeeps(s, v, text);
      StoredKeeps(s, text, env, 1, v1);
      if Saves(env, 1) {
        var s2 := State(v1, s.log + [RepairCall(v.safeBody)]);
        if TrimSpace(env.revised) == [] {
          CheckedBodyWasChecked(v1, s2.log);
          FinishKeeps(s2, false, CheckedBody(v1), text);
        } else {
          Append(s.log, RepairCall(v.safeBody));
          RepairedKeeps(s2, v1, text, env.revised);
          var v2 := Repairing(v1, env.revised);
          RepairingFacts(v1, env.revised);
          var s3 := State(v2, s2.log + [Repaired(env.revised)]);
          ReviewKeeps(s3, v2, env.revised, text, env);
        }
      }
    }
  }

  lemma RepairingFacts(v: Validation, revised: Text)
    ensures Repairing(v, revised).candidate == v.candidate && Repairing(v, revised).accepted == v.accepted
  {
  }

  lemma RoundKeeps(s: State, text: Text, env: Env)
    requires Inv(s, text)
    ensures Inv(Round(s, text, env).0, text)
  {
    hide AllBacked, CountInv, Checked, Approved, ReviewRound, RepairRound, Finish;
    var v := For(s.saved, text);
    if v.accepted {
      FinishKeeps(s, true, v.safeBody, text);
    } else if v.repairPending {
      RepairRoundKeeps(s, v, text, env);
    } else {
      ReviewKeeps(s, v, if v.repairBody != [] then v.repairBody else text, text, env);
    }
  }

  // ---------- over every run ----------

  /** Any number of rounds on one candidate, each ending in a yield, a crash, a
      failed save, a publication or straight in the next. */
  function Run(s: State, text: Text, envs: seq<Env>): State
    decreases |envs|
  {
    if envs == [] then s else Run(Round(s, text, envs[0]).0, text, envs[1..])
  }

  lemma {:induction false} RunKeeps(s: State, text: Text, envs: seq<Env>)
    requires Inv(s, text)
    ensures Inv(Run(s, text, envs), text)
    decreases |envs|
  {
    hide Inv, Round;
    if envs != [] {
      RoundKeeps(s, text, envs[0]);
      RunKeeps(Round(s, text, envs[0]).0, text, envs[1..]);
    }
  }

  lemma FirstSight(saved: Validation, text: Text)
    requires saved.candidate != text
    ensures Inv(State(saved, []), text)
  {
  }

  /** For one candidate, over any run: at most two repair calls, at most three
      review passes per body and nine in all. */
  lemma EffortIsBounded(saved: Validation, text: Text, envs: seq<Env>)
    requires saved.candidate != text
    ensures var log := Run(State(saved, []), text, envs).log;
            && RepairCalls(log) <= 2 && Repairs(log) <= RepairCalls(log)
            && PassesOfBody(log) <= 3 && Passes(log) <= 9
  {
    FirstSight(saved, text);
    RunKeeps(State(saved, []), text, envs);
  }

  /** A completed report was checked and then accepted, that exact text; any other
      published body is empty or an earlier checked text. Checked means returned by
      the output guard, or submitted while no guard was configured. */
  lemma PublishedSafely(saved: Validation, text: Text, envs: seq<Env>, i: nat)
    requires saved.candidate != text && i < |Run(State(saved, []), text, envs).log|
    ensures var log := Run(State(saved, []), text, envs).log;
            match log[i]
            case Published(true, body) => exists j, k ::
                0 <= j < k < i && Yields(log[j], body) && log[k] == Reviewed(body, Met)
            case Published(false, body) => body == [] || exists j :: 0 <= j < i && Yields(log[j], body)
            case _ => true
  {
    FirstSight(saved, text);
    RunKeeps(State(saved, []), text, envs);
    BackedMeans(Run(State(saved, []), text, envs).log, i);
  }

  lemma BackedMeans(log: seq<Event>, i: nat)
    requires i < |log| && AllBacked(log)
    ensures match log[i]
            case Published(true, body) => exists j, k ::
                0 <= j < k < i && Yields(log[j], body) && log[k] == Reviewed(body, Met)
            case Published(false, body) => body == [] || exists j :: 0 <= j < i && Yields(log[j], body)
            case _ => true
  {
    hide Yields;
    assert Backed(log, i);
    match log[i] {
      case Published(true, body) =>
        var k :| 0 <= k < i && log[..i][k] == Reviewed(body, Met) && Checked(log[..i][..k], body);
        assert log[..i][..k] == log[..k];
        var j :| 0 <= j < k && Yields(log[..k][j], body);
        assert Yields(log[j], body) && log[k] == Reviewed(body, Met);
      case Published(false, body) =>
        if body != [] {
          var j :| 0 <= j < i && Yields(log[..i][j], body);
          assert Yields(log[j], body);
        }
      case _ =>
    }
  }

  // ---------- what the calls are about ----------

  /** The text under repair: the last revision saved, or the one submitted. */
  function LastRevision(log: seq<Event>, text: Text): Text {
    if log == [] then text
    else if log[|log| - 1].Repaired? then log[|log| - 1].text else LastRevision(log[..|log| - 1], text)
  }

  function LastReview(log: seq<Event>): Option<(Text, Judgement)> {
    if log == [] then None
    else if log[|log| - 1].Reviewed? then Some((log[|log| - 1].text, log[|log| - 1].judgement))
    else LastReview(log[..|log| - 1])
  }

  /** A call coming next is about the text it should be about. */
  ghost predicate Concerns(log: seq<Event>, e: Event, text: Text) {
    match e
    case Guarded(input, _) => input == LastRevision(log, text)
    case Unguarded(input) => input == LastRevision(log, text)
    case Reviewed(draft, _) => draft == LastSecured(log) && !NoneSecured(log)
    case RepairCall(draft) => draft == LastSecured(log) && !NoneSecured(log) && LastReview(log) == Some((draft, NotMet))
    case _ => true
  }

  ghost predicate AllConcern(log: seq<Event>, text: Text) {
    forall i | 0 <= i < |log| :: Concerns(log[..i], log[i], text)
  }

  /** The state knows which texts those are. */
  ghost predicate Knows(v: Validation, log: seq<Event>, text: Text) {
    && (if v.repairBody != [] then v.repairBody else text) == LastRevision(log, text)
    && (v.responseChecked ==> v.safeBody == LastSecured(log) && !NoneSecured(log))
    && (v.repairPending ==> v.responseChecked && LastReview(log) == Some((v.safeBody, NotMet)))
  }

  ghost predicate KnowsAll(s: State, text: Text) {
    Knows(For(s.saved, text), s.log, text) && AllConcern(s.log, text)
  }

  lemma NextConcerns(log: seq<Event>, e: Event, text: Text)
    requires AllConcern(log, text) && Concerns(log, e, text)
    ensures AllConcern(log + [e], text)
    ensures LastRevision(log + [e], text) == if e.Repaired? then e.text else LastRevision(log, text)
    ensures LastReview(log + [e]) == if e.Reviewed? then Some((e.text, e.judgement)) else LastReview(log)
    ensures LastSecured(log + [e]) == if e.Secured? then e.text else LastSecured(log)
    ensures NoneSecured(log + [e]) <==> NoneSecured(log) && !e.Secured?
  {
    hide Concerns;
    var more := log + [e];
    assert more[..|log|] == log && more[|log|] == e;
    assert forall i | 0 <= i < |log| :: more[i] == log[i] && more[..i] == log[..i];
  }

  lemma DeferredKnows(s: State, v: Validation, env: Env, text: Text)
    requires KnowsAll(s, text) && Knows(v, s.log, text) && v.candidate == text
    ensures KnowsAll(Deferred(s, v, env).0, text)
  {
    hide LastRevision, LastReview, LastSecured, NoneSecured, AllConcern, TrimSpace, CheckedBody;
    NextKnows(s.log, Published(false, CheckedBody(v)), v, text);
    NextKnows(s.log, Published(false, CheckedBody(v)), For(s.saved, text), text);
  }

  /** An event that is no save, revision or review leaves what is known. */
  lemma NextKnows(log: seq<Event>, e: Event, v: Validation, text: Text)
    requires AllConcern(log, text) && Concerns(log, e, text) && Knows(v, log, text)
    requires !e.Secured? && !e.Repaired? && (e.Reviewed? ==> !v.repairPending)
    ensures AllConcern(log + [e], text) && Knows(v, log + [e], text)
  {
    NextConcerns(log, e, text);
    hide LastRevision, LastReview, LastSecured, NoneSecured, AllConcern;
  }

  lemma JudgedKnows(s: State, v: Validation, env: Env, text: Text)
    requires KnowsAll(s, text) && Knows(v, s.log, text) && v.candidate == text && v.responseChecked && !v.repairPending
    requires !For(s.saved, text).repairPending
    ensures KnowsAll(Judged(s, v, env).0, text)
  {
    hide LastRevision, LastReview, LastSecured, NoneSecured, AllConcern, TrimSpace, CheckedBody, Deferred;
    var e := Reviewed(v.safeBody, env.verdict.judgement);
    NextConcerns(s.log, e, text);
    NextKnows(s.log, e, v, text);
    NextKnows(s.log, e, For(s.saved, text), text);
    var s1 := s.(log := s.log + [e]);
    var v1 := v.(verdict := Some(env.verdict));
    match env.verdict.judgement {
      case Unavailable => DeferredKnows(s1, v1, env, text);
      case NotMet =>
      case Met => NextKnows(s1.log, Published(true, v1.safeBody), v1.(accepted := true), text);
    }
  }

  lemma ReviewKnows(s: State, v: Validation, env: Env, text: Text)
    requires KnowsAll(s, text) && Knows(v, s.log, text) && v.candidate == text && !v.repairPending
    requires !For(s.saved, text).repairPending
    ensures KnowsAll(ReviewRound(s, v, if v.repairBody != [] then v.repairBody else text, env).0, text)
  {
    hide LastRevision, LastReview, LastSecured, NoneSecured, AllConcern, TrimSpace, CheckedBody, Deferred, Judged,
         Concerns;
    var body := if v.repairBody != [] then v.repairBody else text;
    if v.attempts >= MAX_REVIEWS {
      assert Concerns(s.log, Published(false, CheckedBody(v)), text) by { NoCall(s.log, CheckedBody(v), text); }
      NextKnows(s.log, Published(false, CheckedBody(v)), For(s.saved, text), text);
    } else if Saves(env, 3) {
      var v1 := v.(attempts := v.attempts + 1);
      assert Concerns(s.log, Pass, text) by { NoCall(s.log, body, text); }
      NextKnows(s.log, Pass, v1, text);
      var s2 := State(v1, s.log + [Pass]);
      if v1.responseChecked {
        JudgedKnows(s2, v1, env, text);
      } else if env.guard.Refused? || (env.guard.Rewritten? && TrimSpace(env.guard.output) == []) {
        DeferredKnows(s2, v1, env, text);
      } else {
        GuardKnows(s2, v1, env, text);
      }
    }
  }

  lemma NoCall(log: seq<Event>, body: Text, text: Text)
    ensures Concerns(log, Pass, text) && Concerns(log, Secured(body), text) && Concerns(log, Repaired(body), text)
            && forall completed :: Concerns(log, Published(completed, body), text)
  {
  }

  lemma GuardKnows(s: State, v: Validation, env: Env, text: Text)
    requires KnowsAll(s, text) && s.saved == v && v.candidate == text && !v.repairPending && !v.responseChecked
    requires !env.guard.Refused?
    ensures var body := if v.repairBody != [] then v.repairBody else text;
            var safe := if env.guard.Absent? then body else env.guard.output;
            var v2 := v.(safeBody := safe, lastCheckedBody := safe, responseChecked := true);
            var t := State(Stored(env, 4, v, v2), SecuredIn(s.log + [ThroughGuard(env, body)], env, safe));
            KnowsAll(if Saves(env, 4) then Judged(t, v2, env).0 else t, text)
  {
    hide LastRevision, LastReview, LastSecured, NoneSecured, AllConcern, TrimSpace, CheckedBody, Judged;
    var body := if v.repairBody != [] then v.repairBody else text;
    var safe := if env.guard.Absent? then body else env.guard.output;
    var v2 := v.(safeBody := safe, lastCheckedBody := safe, responseChecked := true);
    var log1 := s.log + [ThroughGuard(env, body)];
    NextKnows(s.log, ThroughGuard(env, body), v, text);
    NextConcerns(log1, Secured(safe), text);
    if Saves(env, 4) {
      JudgedKnows(State(v2, log1 + [Secured(safe)]), v2, env, text);
    }
  }

  lemma RoundKnows(s: State, text: Text, env: Env)
    requires KnowsAll(s, text)
    ensures KnowsAll(Round(s, text, env).0, text)
  {
    hide LastRevision, LastReview, LastSecured, NoneSecured, AllConcern, TrimSpace, CheckedBody, ReviewRound,
         RepairRound;
    var v := For(s.saved, text);
    if v.accepted {
      NextKnows(s.log, Published(true, v.safeBody), v, text);
    } else if v.repairPending {
      RepairKnows(s, v, env, text);
    } else {
      ReviewKnows(s, v, env, text);
    }
  }

  lemma RepairKnows(s: State, v: Validation, env: Env, text: Text)
    requires KnowsAll(s, text) && v == For(s.saved, text) && v.repairPending
    ensures KnowsAll(RepairRound(s, v, env).0, text)
  {
    hide LastRevision, LastReview, LastSecured, NoneSecured, AllConcern, TrimSpace, CheckedBody, ReviewRound;
    NextKnows(s.log, Published(false, CheckedBody(v)), v, text);
    var v1 := v.(repairAttempts := v.repairAttempts + 1);
    NextKnows(s.log, RepairCall(v.safeBody), v1, text);
    var s2 := State(v1, s.log + [RepairCall(v.safeBody)]);
    NextKnows(s2.log, Published(false, CheckedBody(v1)), v1, text);
    NextConcerns(s2.log, Repaired(env.revised), text);
    if TrimSpace(env.revised) != [] {
      assert env.revised != [] by { NothingToTrim(); }
      var v2 := Repairing(v1, env.revised);
      ReviewKnows(State(v2, s2.log + [Repaired(env.revised)]), v2, env, text);
    }
  }

  lemma NothingToTrim()
    ensures TrimSpace([]) == []
  {
  }

  lemma {:induction false} RunKnows(s: State, text: Text, envs: seq<Env>)
    requires KnowsAll(s, text)
    ensures KnowsAll(Run(s, text, envs), text)
    decreases |envs|
  {
    hide KnowsAll, Round;
    if envs != [] {
      RoundKnows(s, text, envs[0]);
      RunKnows(Round(s, text, envs[0]).0, text, envs[1..]);
    }
  }

  /** Over any run, whichever saves fail: the guard is given the last revision that was
      saved, or the submitted text before any; the reviewer the checked text saved last; and the
      repairer that text, just found wanting by the last review. */
  lemma CallsConcernTheLatestText(saved: Validation, text: Text, envs: seq<Env>, i: nat)
    requires saved.candidate != text && i < |Run(State(saved, []), text, envs).log|
    ensures var log := Run(State(saved, []), text, envs).log;
            match log[i]
            case Guarded(input, _) => IsLatest(log, i, input, text)
            case Unguarded(input) => IsLatest(log, i, input, text)
            case Reviewed(draft, _) => IsSaved(log, i, draft)
            case RepairCall(draft) =>
              IsSaved(log, i, draft)
              && exists j :: 0 <= j < i && log[j] == Reviewed(draft, NotMet)
                             && forall k | j < k < i :: !log[k].Reviewed?
            case _ => true
  {
    hide Run;
    RunKnows(State(saved, []), text, envs);
    var log := Run(State(saved, []), text, envs).log;
    assert Concerns(log[..i], log[i], text);
    RevisionIs(log, i, text);
    ReviewIs(log, i);
    LastIs(log, i);
  }

  /** x is the last revision before event i, or, before any, the text submitted. */
  ghost predicate IsLatest(log: seq<Event>, i: nat, x: Text, text: Text)
    requires i <= |log|
  {
    if forall j | 0 <= j < i :: !log[j].Repaired? then x == text
    else exists j :: 0 <= j < i && log[j] == Repaired(x) && forall k | j < k < i :: !log[k].Repaired?
  }

  /** x was checked and saved before event i, and nothing since. */
  ghost predicate IsSaved(log: seq<Event>, i: nat, x: Text)
    requires i <= |log|
  {
    exists j :: 0 <= j < i && log[j] == Secured(x) && forall k | j < k < i :: !log[k].Secured?
  }

  lemma {:induction false} RevisionIs(log: seq<Event>, i: nat, text: Text)
    requires i <= |log|
    ensures IsLatest(log, i, LastRevision(log[..i], text), text)
    decreases i
  {
    if i > 0 {
      assert log[..i][..i - 1] == log[..i - 1];
      RevisionIs(log, i - 1, text);
      if log[i - 1].Repaired? {
        assert log[i - 1] == Repaired(LastRevision(log[..i], text));
      }
    }
  }

  lemma {:induction false} ReviewIs(log: seq<Event>, i: nat)
    requires i <= |log|
    ensures LastReview(log[..i]).Some? ==>
              var (x, judgement) := LastReview(log[..i]).value;
              exists j :: 0 <= j < i && log[j] == Reviewed(x, judgement) && forall k | j < k < i :: !log[k].Reviewed?
    decreases i
  {
    if i > 0 {
      assert log[..i][..i - 1] == log[..i - 1];
      if !log[i - 1].Reviewed? {
        ReviewIs(log, i - 1);
      } else {
        var (x, judgement) := LastReview(log[..i]).value;
        assert log[i - 1] == Reviewed(x, judgement);
      }
    }
  }

  lemma {:induction false} LastIs(log: seq<Event>, i: nat)
    requires i <= |log|
    ensures NoneSecured(log[..i]) || IsSaved(log, i, LastSecured(log[..i]))
    decreases i
  {
    if i > 0 {
      assert log[..i][..i - 1] == log[..i - 1];
      LastIs(log, i - 1);
      if log[i - 1].Secured? {
        assert log[i - 1] == Secured(LastSecured(log[..i]));
      } else {
        assert forall j | 0 <= j < i :: log[..i][j] == log[j] && (j < i - 1 ==> log[..i - 1][j] == log[j]);
      }
    }
  }

  /** What a partial report carries, whichever saves fail: the text of the last check
      that was saved, and nothing only if none was; once a visible text was saved it
      is never without one. */
  ghost predicate CarriesLast(log: seq<Event>, i: nat, body: Text)
    requires i < |log|
  {
    && (body == [] || exists j :: 0 <= j < i && log[j] == Secured(body))
    && (forall j | 0 <= j < i && log[j].Secured? && (forall k | j < k < i :: !log[k].Secured?) :: log[j].text == body)
    && ((exists j :: 0 <= j < i && log[j].Secured? && TrimSpace(log[j].text) != []) ==> TrimSpace(body) != [])
  }

  lemma {:induction false} LastSecuredIs(log: seq<Event>)
    ensures if NoneSecured(log) then LastSecured(log) == []
            else exists j :: 0 <= j < |log| && log[j] == Secured(LastSecured(log))
                             && forall k | j < k < |log| :: !log[k].Secured?
  {
    if log != [] {
      var n := |log| - 1;
      LastSecuredIs(log[..n]);
      if log[n].Secured? {
        assert log[n] == Secured(LastSecured(log));
      } else if !NoneSecured(log[..n]) {
        var j :| 0 <= j < n && log[..n][j] == Secured(LastSecured(log[..n]))
                 && forall k | j < k < n :: !log[..n][k].Secured?;
        assert log[j] == Secured(LastSecured(log)) && forall k | j < k < |log| :: !log[k].Secured?;
      } else {
        assert forall k | 0 <= k < n :: log[k] == log[..n][k];
      }
    }
  }

  lemma LastIsCarried(log: seq<Event>, i: nat)
    requires i < |log| && VisibleOnceSecured(log)
    ensures CarriesLast(log, i, LastSecured(log[..i]))
  {
    hide TrimSpace, LastSecured;
    var front := log[..i];
    LastSecuredIs(front);
    assert forall j | 0 <= j < i :: front[j] == log[j];
    if !NoneSecured(front) {
      var j :| 0 <= j < i && front[j] == Secured(LastSecured(front)) && forall k | j < k < i :: !front[k].Secured?;
      assert log[j] == Secured(LastSecured(front)) && forall k | j < k < i :: !log[k].Secured?;
    }
  }

  /** Over any run, whichever saves fail. */
  lemma PartialCarriesTheLastDraft(saved: Validation, text: Text, envs: seq<Env>, i: nat)
    requires saved.candidate != text && i < |Run(State(saved, []), text, envs).log|
    ensures var log := Run(State(saved, []), text, envs).log;
            log[i].Published? && !log[i].completed ==> CarriesLast(log, i, log[i].body)
  {
    FirstSight(saved, text);
    RunKeeps(State(saved, []), text, envs);
    hide Backs, Run;
    RunIsVisible(State(saved, []), text, envs);
    PartialCarries(Run(State(saved, []), text, envs).log, i);
  }

  lemma RunIsVisible(s: State, text: Text, envs: seq<Env>)
    requires Inv(Run(s, text, envs), text)
    ensures VisibleOnceSecured(Run(s, text, envs).log)
  {
    hide Run, CountInv, Checked, Approved, AllBacked, VisibleOnceSecured;
  }

  lemma PartialCarries(log: seq<Event>, i: nat)
    requires i < |log| && AllBacked(log) && VisibleOnceSecured(log)
    ensures log[i].Published? && !log[i].completed ==> CarriesLast(log, i, log[i].body)
  {
    hide CarriesLast, Checked, Approved, VisibleOnceSecured;
    assert Backed(log, i);
    LastIsCarried(log, i);
  }

  /** With no failed save every check is followed by its save, and nothing else is. */
  ghost predicate Paired(log: seq<Event>) {
    && (forall j, x | 0 <= j < |log| && Yields(log[j], x) :: j + 1 < |log| && log[j + 1] == Secured(x))
    && (forall j | 0 <= j < |log| && log[j].Secured? :: j > 0 && Yields(log[j - 1], log[j].text))
  }

  lemma NoSaveBetween(log: seq<Event>, j: nat, i: nat)
    requires Paired(log) && i <= |log| && forall k, y | j < k < i :: !Yields(log[k], y)
    ensures forall k | j + 1 < k < i :: !log[k].Secured?
  {
    if k :| j + 1 < k < i && log[k].Secured? {
      assert false by { CheckBefore(log, k); }
    }
  }

  lemma CheckBefore(log: seq<Event>, k: nat)
    requires Paired(log) && k < |log| && log[k].Secured?
    ensures k > 0 && Yields(log[k - 1], log[k].text)
  {
  }

  lemma PairedMore(log: seq<Event>, e: Event)
    requires Paired(log) && !e.Guarded? && !e.Unguarded? && !e.Secured?
    ensures Paired(log + [e])
  {
    var more := log + [e];
    forall j, x | 0 <= j < |more| && Yields(more[j], x)
      ensures j + 1 < |more| && more[j + 1] == Secured(x)
    {
      assert j < |log| && Yields(log[j], x);
    }
  }

  lemma PairedPair(log: seq<Event>, e: Event, x: Text)
    requires Paired(log) && Yields(e, x)
    ensures Paired(log + [e] + [Secured(x)])
  {
    var more := log + [e] + [Secured(x)];
    forall j, y | 0 <= j < |more| && Yields(more[j], y)
      ensures j + 1 < |more| && more[j + 1] == Secured(y)
    {
      if j < |log| {
        assert Yields(log[j], y);
      }
    }
  }

  lemma DeferredPairs(s: State, v: Validation, env: Env)
    requires Paired(s.log)
    ensures Paired(Deferred(s, v, env).0.log)
  {
    hide Paired, CheckedBody;
    PairedMore(s.log, Published(false, CheckedBody(v)));
  }

  lemma JudgedPairs(s: State, v: Validation, env: Env)
    requires Paired(s.log)
    ensures Paired(Judged(s, v, env).0.log)
  {
    hide Paired, CheckedBody, Deferred;
    var e := Reviewed(v.safeBody, env.verdict.judgement);
    PairedMore(s.log, e);
    DeferredPairs(s.(log := s.log + [e]), v.(verdict := Some(env.verdict)), env);
    PairedMore(s.log + [e], Published(true, v.safeBody));
  }

  lemma ReviewPairs(s: State, v: Validation, body: Text, env: Env)
    requires Paired(s.log) && env.broken == 0
    ensures Paired(ReviewRound(s, v, body, env).0.log)
  {
    hide TrimSpace, Paired, CheckedBody, Deferred, Judged;
    PairedMore(s.log, Published(false, CheckedBody(v)));
    if v.attempts < MAX_REVIEWS {
      PairedMore(s.log, Pass);
      var v1 := v.(attempts := v.attempts + 1);
      var s2 := State(v1, s.log + [Pass]);
      JudgedPairs(s2, v1, env);
      DeferredPairs(s2, v1, env);
      var safe := if env.guard.Rewritten? then env.guard.output else body;
      PairedPair(s2.log, ThroughGuard(env, body), safe);
      JudgedPairs(State(Secure(v1, safe), s2.log + [ThroughGuard(env, body)] + [Secured(safe)]), Secure(v1, safe), env);
    }
  }

  lemma RoundPairs(s: State, text: Text, env: Env)
    requires Paired(s.log) && env.broken == 0
    ensures Paired(Round(s, text, env).0.log)
  {
    hide TrimSpace, Paired, CheckedBody, ReviewRound, Repairing;
    var v := For(s.saved, text);
    PairedMore(s.log, Published(true, v.safeBody));
    PairedMore(s.log, Published(false, CheckedBody(v)));
    ReviewPairs(s, v, if v.repairBody != [] then v.repairBody else text, env);
    var v1 := v.(repairAttempts := v.repairAttempts + 1);
    var log1 := s.log + [RepairCall(v.safeBody)];
    PairedMore(s.log, RepairCall(v.safeBody));
    PairedMore(log1, Published(false, CheckedBody(v1)));
    PairedMore(log1, Repaired(env.revised));
    ReviewPairs(State(Repairing(v1, env.revised), log1 + [Repaired(env.revised)]), Repairing(v1, env.revised),
                env.revised, env);
  }

  lemma {:induction false} RunPairs(s: State, text: Text, envs: seq<Env>)
    requires Paired(s.log) && forall i | 0 <= i < |envs| :: envs[i].broken == 0
    ensures Paired(Run(s, text, envs).log)
    decreases |envs|
  {
    hide Round, Paired;
    if envs != [] {
      RoundPairs(s, text, envs[0]);
      RunPairs(Round(s, text, envs[0]).0, text, envs[1..]);
    }
  }

  /** So in a run without a failed save a partial report carries the very text of the
      last check before it, and nothing exactly if there was no check. */
  lemma PartialIsTheLastCheckedText(saved: Validation, text: Text, envs: seq<Env>, i: nat)
    requires saved.candidate != text && i < |Run(State(saved, []), text, envs).log|
    requires forall k | 0 <= k < |envs| :: envs[k].broken == 0
    ensures var log := Run(State(saved, []), text, envs).log;
            log[i].Published? && !log[i].completed ==>
              && ((forall j, x | 0 <= j < i :: !Yields(log[j], x)) ==> log[i].body == [])
              && (forall j, x | 0 <= j < i && Yields(log[j], x) && (forall k, y | j < k < i :: !Yields(log[k], y)) ::
                    log[i].body == x)
  {
    hide Run;
    var log := Run(State(saved, []), text, envs).log;
    PartialCarriesTheLastDraft(saved, text, envs, i);
    RunPairs(State(saved, []), text, envs);
    if log[i].Published? && !log[i].completed {
      if log[i].body != [] {
        var j :| 0 <= j < i && log[j] == Secured(log[i].body);
        assert Yields(log[j - 1], log[j].text);
      }
      forall j, x | 0 <= j < i && Yields(log[j], x) && (forall k, y | j < k < i :: !Yields(log[k], y))
        ensures log[i].body == x
      {
        assert log[j + 1] == Secured(x) && j + 1 < i;
        NoSaveBetween(log, j, i);
      }
    }
  }

  /** What a review pass decides when no save fails: checked says whether the text on
      its way was checked before, used how many passes it had. */
  ghost predicate ReviewTable(s: State, t: State, exit: Exit, env: Env, checked: bool, used: nat) {
    var refused := !checked && (env.guard.Refused? || (env.guard.Rewritten? && TrimSpace(env.guard.output) == []));
    var judged := !refused;
    && t.saved.attempts == used + 1
    && (exit.Again? <==> judged && env.verdict.judgement.NotMet?)
    && (exit.Yielded? <==> (refused || env.verdict.judgement.Unavailable?) && used + 1 < 3 && env.due)
    && (exit.Finished? <==>
          (judged && env.verdict.judgement.Met?)
          || ((refused || env.verdict.judgement.Unavailable?) && (used + 1 >= 3 || !env.due)))
    && (exit.Finished? ==> Ends(t.log) && (t.log[|t.log| - 1].completed <==> judged && env.verdict.judgement.Met?))
    && (judged ==> t.saved.verdict == Some(env.verdict))
    && (judged && env.verdict.judgement.NotMet? ==> t.saved.repairPending)
    && (judged && env.verdict.judgement.Met? ==> t.saved.accepted)
  }

  lemma ReviewDecides(s: State, v: Validation, body: Text, env: Env)
    requires env.broken == 0 && v.attempts < 3
    ensures var (t, exit) := ReviewRound(s, v, body, env); ReviewTable(s, t, exit, env, v.responseChecked, v.attempts)
  {
    hide TrimSpace, CheckedBody;
  }

  /** Where a round goes when no save fails: accepted work is published; a pending
      repair is tried unless it cannot help or two were, and given up when it brings
      nothing twice or too late; then comes a review, unless three were made, and its
      table decides. */
  lemma RoundDecides(s: State, text: Text, env: Env)
    requires Counted(s.saved) && env.broken == 0
    ensures var (t, exit) := Round(s, text, env);
            var v := For(s.saved, text);
            var mayRepair := env.canRepair && v.repairAttempts < 2 && (v.verdict.Some? ==> v.verdict.value.repairable);
            var blank := TrimSpace(env.revised) == [];
            && (exit.Finished? ==> Ends(t.log))
            && (v.accepted ==> exit.Finished? && t.log == s.log + [Published(true, v.safeBody)])
            && (!v.accepted && v.repairPending && !mayRepair ==> exit.Finished? && !t.log[|t.log| - 1].completed)
            && (!v.accepted && v.repairPending && mayRepair ==> t.saved.repairAttempts == v.repairAttempts + 1)
            && (!v.accepted && v.repairPending && mayRepair && blank ==>
                  if v.repairAttempts + 1 < 2 && env.due then exit.Yielded?
                  else exit.Finished? && !t.log[|t.log| - 1].completed)
            && (!v.accepted && v.repairPending && mayRepair && !blank ==> ReviewTable(s, t, exit, env, false, 0))
            && (!v.accepted && !v.repairPending && v.attempts >= 3 ==> exit.Finished? && !t.log[|t.log| - 1].completed)
            && (!v.accepted && !v.repairPending && v.attempts < 3 ==>
                  ReviewTable(s, t, exit, env, v.responseChecked, v.attempts))
  {
    hide TrimSpace, CheckedBody, ReviewRound, ReviewTable;
    var v := For(s.saved, text);
    if !v.accepted && v.repairPending {
      var v2 := Repairing(v.(repairAttempts := v.repairAttempts + 1), env.revised);
      var s3 := State(v2, s.log + [RepairCall(v.safeBody)] + [Repaired(env.revised)]);
      ReviewDecides(s3, v2, env.revised, env);
      TableFrom(s, s3, ReviewRound(s3, v2, env.revised, env).0, ReviewRound(s3, v2, env.revised, env).1, env);
      RepairStays(s3, v2, env.revised, env);
    } else if !v.accepted && v.attempts < 3 {
      ReviewDecides(s, v, if v.repairBody != [] then v.repairBody else text, env);
      ReviewEnds(s, v, if v.repairBody != [] then v.repairBody else text, env);
    } else if !v.accepted {
      GivesUp(s, v, if v.repairBody != [] then v.repairBody else text, env);
    }
  }

  lemma TableFrom(s: State, s3: State, t: State, exit: Exit, env: Env)
    ensures ReviewTable(s3, t, exit, env, false, 0) ==> ReviewTable(s, t, exit, env, false, 0)
    ensures ReviewTable(s3, t, exit, env, false, 0) && exit.Finished? ==> Ends(t.log)
  {
    hide TrimSpace;
  }

  lemma RepairStays(s: State, v: Validation, body: Text, env: Env)
    requires env.broken == 0 && v.attempts < 3
    ensures ReviewRound(s, v, body, env).0.saved.repairAttempts == v.repairAttempts
  {
    hide TrimSpace, CheckedBody;
  }

  lemma ReviewEnds(s: State, v: Validation, body: Text, env: Env)
    requires env.broken == 0 && v.attempts < 3
    ensures ReviewRound(s, v, body, env).1.Finished? ==> Ends(ReviewRound(s, v, body, env).0.log)
  {
    hide TrimSpace, CheckedBody;
  }

  lemma GivesUp(s: State, v: Validation, body: Text, env: Env)
    requires v.attempts >= 3
    ensures ReviewRound(s, v, body, env) == Finish(s, false, CheckedBody(v))
  {
    hide CheckedBody;
  }

  ghost predicate AllGuarded(log: seq<Event>) {
    forall i | 0 <= i < |log| :: !log[i].Unguarded?
  }

  lemma JudgedGuards(s: State, v: Validation, env: Env)
    requires AllGuarded(s.log)
    ensures AllGuarded(Judged(s, v, env).0.log) && AllGuarded(Deferred(s, v, env).0.log)
  {
    hide TrimSpace, CheckedBody;
  }

  lemma ReviewGuards(s: State, v: Validation, body: Text, env: Env)
    requires AllGuarded(s.log) && !env.guard.Absent?
    ensures AllGuarded(ReviewRound(s, v, body, env).0.log)
  {
    hide TrimSpace, CheckedBody, Judged, Deferred;
    if v.attempts < MAX_REVIEWS && Saves(env, 3) {
      var v1 := v.(attempts := v.attempts + 1);
      var s2 := State(Stored(env, 3, s.saved, v1), s.log + [Pass]);
      JudgedGuards(s2, v1, env);
      if env.guard.Rewritten? {
        var v2 := v1.(safeBody := env.guard.output, lastCheckedBody := env.guard.output, responseChecked := true);
        JudgedGuards(State(Stored(env, 4, v1, v2),
                           SecuredIn(s2.log + [ThroughGuard(env, body)], env, env.guard.output)),
                     v2, env);
      }
    }
  }

  lemma RoundGuards(s: State, text: Text, env: Env)
    requires AllGuarded(s.log) && !env.guard.Absent?
    ensures AllGuarded(Round(s, text, env).0.log)
  {
    hide TrimSpace, CheckedBody, ReviewRound;
    var v := For(s.saved, text);
    ReviewGuards(s, v, if v.repairBody != [] then v.repairBody else text, env);
    var v1 := v.(repairAttempts := v.repairAttempts + 1);
    var v2 := Repairing(v1, env.revised);
    var s2 := s.log + [RepairCall(v.safeBody)];
    ReviewGuards(State(Stored(env, 2, v1, v2), s2 + [Repaired(env.revised)]), v2, env.revised, env);
  }

  /** While a guard is configured, every checked text is one the guard returned:
      then PublishedSafely is about guard outputs alone. */
  lemma {:induction false} ConfiguredGuardChecksAll(s: State, text: Text, envs: seq<Env>)
    requires AllGuarded(s.log) && forall i | 0 <= i < |envs| :: !envs[i].guard.Absent?
    ensures AllGuarded(Run(s, text, envs).log)
    decreases |envs|
  {
    hide Round, AllGuarded;
    if envs != [] {
      RoundGuards(s, text, envs[0]);
      ConfiguredGuardChecksAll(Round(s, text, envs[0]).0, text, envs[1..]);
    }
  }

  /** Rounds that did something outside and did not publish. */
  function BusyRounds(s: State, text: Text, envs: seq<Env>): nat
    decreases |envs|
  {
    if envs == [] then 0
    else
      var (t, exit) := Round(s, text, envs[0]);
      (if exit.Finished? || t == s then 0 else 1) + BusyRounds(t, text, envs[1..])
  }

  predicate NeverFinishes(s: State, text: Text, envs: seq<Env>)
    decreases |envs|
  {
    envs == [] || (!Round(s, text, envs[0]).1.Finished? && NeverFinishes(Round(s, text, envs[0]).0, text, envs[1..]))
  }

  /** The loop terminates across yields and crashes: however the run goes, before
      it publishes only as many rounds can do anything as the measure allows. */
  lemma {:induction false} RunsOut(s: State, text: Text, envs: seq<Env>)
    requires Counted(s.saved) && NeverFinishes(s, text, envs)
    ensures BusyRounds(s, text, envs) <= Rank(For(s.saved, text)) <= 23
    decreases |envs|
  {
    if envs != [] {
      hide Round;
      RoundDescends(s, text, envs[0]);
      RunsOut(Round(s, text, envs[0]).0, text, envs[1..]);
    }
  }

  // ---------- the loop itself ----------

  class ResultValidator {
    var saved: Validation
    var log: seq<Event>

    function View(): State
      reads this
    {
      State(saved, log)
    }

    method Save(state: Validation, env: Env, k: nat) returns (ok: bool)
      modifies this`saved
      ensures saved == Stored(env, k, old(saved), state) && ok == Saves(env, k)
    {
      ok := env.broken != k;
      if ok || env.committed {
        saved := state;
      }
    }

    method FinishGraph(completed: bool, body: Text) returns (exit: Exit)
      modifies this`log
      ensures log == old(log) + [Published(completed, body)] && exit == Finished
    {
      log := log + [Published(completed, body)];
      exit := Finished;
    }

    method DeferCheck(state: Validation, env: Env) returns (exit: Exit)
      modifies this
      ensures (View(), exit) == Deferred(old(View()), state, env)
    {
      var ok := Save(state, env, 5);
      if !ok {
        return Broken;
      }
      if state.attempts >= MAX_REVIEWS || !env.due {
        exit := FinishGraph(false, CheckedBody(state));
        return;
      }
      return Yielded;
    }

    method Review(checked: Validation, env: Env) returns (exit: Exit)
      modifies this
      ensures (View(), exit) == Judged(old(View()), checked, env)
    {
      hide Deferred;
      var state := checked;
      log := log + [Reviewed(state.safeBody, env.verdict.judgement)];
      state := state.(verdict := Some(env.verdict));
      if env.verdict.judgement == Unavailable {
        exit := DeferCheck(state, env);
        return;
      }
      if env.verdict.judgement == NotMet {
        state := state.(repairPending := true);
        var ok := Save(state, env, 5);
        return if ok then Again else Broken;
      }
      state := state.(accepted := true);
      var ok := Save(state, env, 5);
      if !ok {
        return Broken;
      }
      exit := FinishGraph(true, state.safeBody);
    }

    method GuardAndReview(current: Validation, body: Text, env: Env) returns (exit: Exit)
      modifies this
      ensures (View(), exit) == ReviewRound(old(View()), current, body, env)
    {
      hide Deferred, Judged, TrimSpace;
      var state := current;
      if state.attempts >= MAX_REVIEWS {
        exit := FinishGraph(false, CheckedBody(state));
        return;
      }
      state := state.(attempts := state.attempts + 1);
      var ok := Save(state, env, 3);
      if !ok {
        return Broken;
      }
      log := log + [Pass];
      if !state.responseChecked {
        var safe := body;
        if !env.guard.Absent? {
          if env.guard.Refused? || TrimSpace(env.guard.output) == [] {
            exit := DeferCheck(state, env);
            return;
          }
          safe := env.guard.output;
        }
        log := log + [ThroughGuard(env, body)];
        state := state.(safeBody := safe, lastCheckedBody := safe, responseChecked := true);
        ok := Save(state, env, 4);
        if ok || env.committed {
          log := log + [Secured(safe)];
        }
        if !ok {
          return Broken;
        }
      }
      exit := Review(state, env);
    }

    /** One round: repair if one is pending, then guard and review. */
    method Attempt(text: Text, env: Env) returns (exit: Exit)
      modifies this
      ensures (View(), exit) == Round(old(View()), text, env)
    {
      hide ReviewRound, TrimSpace, CheckedBody;
      var state := For(saved, text);
      if state.accepted {
        exit := FinishGraph(true, state.safeBody);
        return;
      }
      var body := if state.repairBody != [] then state.repairBody else text;
      if state.repairPending {
        var grounded := state.verdict.None? || state.verdict.value.repairable;
        if !env.canRepair || !grounded || state.repairAttempts >= MAX_REPAIRS {
          exit := FinishGraph(false, CheckedBody(state));
          return;
        }
        state := state.(repairAttempts := state.repairAttempts + 1);
        var ok := Save(state, env, 1);
        if !ok {
          return Broken;
        }
        log := log + [RepairCall(state.safeBody)];
        var revised := env.revised;
        if TrimSpace(revised) == [] {
          if state.repairAttempts >= MAX_REPAIRS || !env.due {
            exit := FinishGraph(false, CheckedBody(state));
            return;
          }
          return Yielded;
        }
        state := state.(repairBody := revised, attempts := 0, repairPending := false,
                        lastCheckedBody := CheckedBody(state));
        state := state.(responseChecked := false, safeBody := [], verdict := None);
        ok := Save(state, env, 2);
        if ok || env.committed {
          log := log + [Repaired(revised)];
        }
        if !ok {
          return Broken;
        }
        body := revised;
      }
      exit := GuardAndReview(state, body, env);
    }

    method ValidateGraphResult(text: Text, envs: nat -> Env) returns (exit: Exit)
      requires Counted(saved)
      modifies this
      ensures (View(), exit) == Visit(old(View()), text, envs, 0)
      ensures exit != Again
    {
      hide Round;
      var n := 0;
      exit := Again;
      while exit == Again
        invariant Counted(saved)
        invariant exit == Again ==> Visit(View(), text, envs, n) == Visit(old(View()), text, envs, 0)
        invariant exit != Again ==> (View(), exit) == Visit(old(View()), text, envs, 0)
        decreases exit == Again, Rank(For(saved, text))
      {
        RoundDescends(View(), text, envs(n));
        exit := Attempt(text, envs(n));
        n := n + 1;
      }
    }
  }
}
