/** Producing and reviewing one durable one-shot task: executeTaskOnce over the
    task rows, with any number of workers, stale or current, crashing anywhere.
    A saved candidate is reviewed, never produced again. */
module Reviews {
  import opened Wrappers
  import opened Refs
  import J = Journal
  import T = Tasks

  type WorkerId = nat
  type Time = J.Time
  type Text = Bytes

  /** claim is the stamp the worker wrote while Stamped, and from then on the one
      it read back in a second statement, which need not be its own. */
  datatype Phase =
    | Idle
    | Stamped(claim: Time)
    | Claimed(claim: Time)
    | Ready(claim: Time)        // loaded no submission, handler not yet started
    | Producing(claim: Time)
    | Reviewing(claim: Time, output: Text, notify: Text, refs: seq<Ref>, attempts: nat)

  datatype World = World(task: T.Task, workers: map<WorkerId, Phase>, clock: Time)

  datatype Verdict = Unavailable | NotMet | Met

  datatype Returned = Broken | Pause | Continue | Done(output: Text, notify: Text, refs: seq<Ref>)

  /** What a worker reads besides the rows: drafts in other tables, the draft
      cleaner, the clock, a new uuid, the next review time and localized texts. */
  datatype Env = Env(d: T.Drafts, strip: Text -> Text, now: Time, newId: J.AttemptId, nextReview: Time,
                     partial: Text, empty: Text)

  datatype Step =
    | Stamp(k: WorkerId, now: Time)
    | ReadClaim(k: WorkerId)
    | Load(k: WorkerId, now: Time)
    | Start(k: WorkerId)
    | Finish(k: WorkerId, result: Returned, env: Env)
    | Review(k: WorkerId, verdict: Verdict, env: Env)
    | Crash(k: WorkerId)
    | Maintain(op: T.Op)   // recovery, expiry, cancellation, unfenced writes

  const MAX_DEFERRALS: nat := 2

  function PhaseOf(w: World, k: WorkerId): Phase {
    if k in w.workers then w.workers[k] else Idle
  }

  function Moved(w: World, op: T.Op, k: WorkerId, p: Phase): World {
    w.(task := T.Apply(w.task, op), workers := w.workers[k := p])
  }

  function Finalizing(fin: T.Finalization, env: Env): T.Op {
    T.FinalizeTask(fin, env.d, env.strip, env.now, true, env.newId)
  }

  /** What the scheduler writes once the handler has returned. */
  function AfterHandler(claim: Time, result: Returned, env: Env): T.Op {
    match result
    case Broken => T.SetPending
    case Pause => T.PauseTask
    case Continue => T.UpdateProgress
    case Done(output, notify, refs) =>
      if TrimSpace(output) == [] then
        Finalizing(T.Finalization(T.Partial, [], Ascii("empty_submission"), env.empty, env.partial, env.empty, [],
                                  Some(claim), None), env)
      else T.SaveSubmission(claim, output, notify, refs, env.now)
  }

  /** What a worker finalizes with when the reviewer stays away, and when it accepts. */
  function GivenUp(p: Phase, env: Env): T.Finalization
    requires p.Reviewing?
  {
    T.Finalization(T.Partial, p.output, Ascii("verification_unavailable"), [], env.partial, [], [], Some(p.claim), None)
  }

  function Accepted(p: Phase): T.Finalization
    requires p.Reviewing?
  {
    T.Finalization(T.Completed, p.output, [], [], p.notify, [], p.refs, Some(p.claim), None)
  }

  /** What it writes once the reviewer has answered. */
  function AfterReview(p: Phase, verdict: Verdict, env: Env): T.Op
    requires p.Reviewing?
  {
    match verdict
    case Unavailable =>
      if p.attempts >= MAX_DEFERRALS then Finalizing(GivenUp(p, env), env)
      else T.DeferVerification(p.claim, env.nextReview)
    case NotMet => T.RejectSubmission(p.claim)
    case Met => Finalizing(Accepted(p), env)
  }

  function Loaded(w: World, k: WorkerId, claim: Time, now: Time): World {
    match w.task.submission
    case None => w.(workers := w.workers[k := Ready(claim)])
    case Some(s) =>
      if s.nextReviewAt > now then Moved(w, T.SetPending, k, Idle)
      else w.(workers := w.workers[k := Reviewing(claim, s.output, s.notify, s.refs, s.reviewAttempts)])
  }

  function Finished(w: World, k: WorkerId, claim: Time, result: Returned, env: Env): World {
    var op := AfterHandler(claim, result, env);
    Moved(w, op, k,
          if op.SaveSubmission? && T.HoldsClaim(w.task.row, claim)
          then Reviewing(claim, op.output, op.notify, op.refs, 0) else Idle)
  }

  /** All the second statement checks: somebody is running the task. */
  predicate Readable(w: World) {
    w.task.row.status.Running? && w.task.row.lastRunAt.Some?
  }

  /** Writes outside the fence: they carry no claim and take none. */
  predicate Unclaimed(op: T.Op) {
    T.ClaimOf(op).None? && !op.TrySetRunning? && !op.ClaimGraph?
  }

  /** One step; a step that is not possible changes nothing. */
  function Apply(w: World, s: Step): World {
    match s
    case Stamp(k, now) =>
      if PhaseOf(w, k).Idle? && now > w.clock && T.Apply(w.task, T.TrySetRunning(now)).row != w.task.row
      then Moved(w, T.TrySetRunning(now), k, Stamped(now)).(clock := now) else w
    case ReadClaim(k) =>
      if PhaseOf(w, k).Stamped?
        then w.(workers := w.workers[k := if Readable(w) then Claimed(w.task.row.lastRunAt.value) else Idle]) else w
    case Load(k, now) => if PhaseOf(w, k).Claimed? then Loaded(w, k, PhaseOf(w, k).claim, now) else w
    case Start(k) => if PhaseOf(w, k).Ready? then w.(workers := w.workers[k := Producing(PhaseOf(w, k).claim)]) else w
    case Finish(k, result, env) =>
      if PhaseOf(w, k).Producing? then Finished(w, k, PhaseOf(w, k).claim, result, env) else w
    case Review(k, verdict, env) =>
      if PhaseOf(w, k).Reviewing? then Moved(w, AfterReview(PhaseOf(w, k), verdict, env), k, Idle) else w
    case Crash(k) => w.(workers := w.workers[k := Idle])
    case Maintain(op) => if Unclaimed(op) then w.(task := T.Apply(w.task, op)) else w
  }

  function Run(w: World, steps: seq<Step>): World
    decreases |steps|
  {
    if steps == [] then w else Run(Apply(w, steps[0]), steps[1..])
  }

  /** What a worker makes of what its handler returned, its claim standing: a failure frees
      the task, a pause or another turn also counts the iteration, and a result with text is
      saved as the candidate it goes on to review. */
  lemma HandlerReturns(w: World, k: WorkerId, claim: Time, result: Returned, env: Env)
    requires PhaseOf(w, k) == Producing(claim) && T.HoldsClaim(w.task.row, claim)
    requires result.Done? ==> TrimSpace(result.output) != []
    ensures var v := Apply(w, Finish(k, result, env));
            var row := w.task.row;
            match result
            case Broken => v.task == w.task.(row := row.(status := T.Pending)) && PhaseOf(v, k) == Idle
            case Pause =>
              v.task == w.task.(row := row.(status := T.Paused, iteration := row.iteration + 1))
              && PhaseOf(v, k) == Idle
            case Continue =>
              v.task == w.task.(row := row.(status := T.Pending, iteration := row.iteration + 1))
              && PhaseOf(v, k) == Idle
            case Done(output, notify, refs) =>
              v.task == w.task.(submission := Some(T.Submission(output, notify, refs, 0, env.now)))
              && PhaseOf(v, k) == Reviewing(claim, output, notify, refs, 0)
  {
    hide T.Finalize, TrimSpace, T.SaveCheckpoint, AfterReview, Loaded;
  }

  /** A blank result is no candidate: the task ends as partial, or as blocked if no draft
      is found, or nothing changes. */
  lemma BlankResultEndsTheTask(w: World, k: WorkerId, claim: Time, result: Returned, env: Env)
    requires PhaseOf(w, k) == Producing(claim) && result.Done? && TrimSpace(result.output) == []
    ensures var v := Apply(w, Finish(k, result, env));
            && PhaseOf(v, k) == Idle
            && (v.task == w.task
                || (|v.task.artifacts| == |w.task.artifacts| + 1 && v.task.submission == w.task.submission
                    && var a := v.task.artifacts[|w.task.artifacts|];
                       a.outcome in {T.Partial, T.Blocked} && a.reason == Ascii("empty_submission")))
  {
    hide T.Finalize, TrimSpace, T.SaveCheckpoint, AfterReview, Loaded, T.QueuedFor, T.Clean, T.Candidates;
    var fin := AfterHandler(claim, result, env).fin;
    T.FinalizationIsAtomic(w.task, fin, env.d, env.strip, env.now, true, env.newId);
    if T.Finalize(w.task, fin, env.d, env.strip, env.now, true, env.newId).1.Finalized? {
      hide T.Owes;
      T.WhatIsRecorded(w.task, fin, env.d, env.strip, env.now, true, env.newId);
      T.OutcomeIsAskedOrBlocked(w.task, fin, env.d, env.strip, env.now, true, env.newId);
    }
  }

  /** What a worker does with the claim it read back: it starts only if nothing is saved,
      frees the task if the candidate's next review is not due yet, and otherwise goes on
      to review what is saved. */
  lemma LoadDecides(w: World, k: WorkerId, claim: Time, now: Time)
    requires PhaseOf(w, k) == Claimed(claim)
    ensures var v := Apply(w, Load(k, now));
            match w.task.submission
            case None => v.task == w.task && PhaseOf(v, k) == Ready(claim)
            case Some(s) =>
              if s.nextReviewAt > now then
                PhaseOf(v, k) == Idle
                && v.task == if w.task.row.status == T.Running
                             then w.task.(row := w.task.row.(status := T.Pending)) else w.task
              else v.task == w.task
                   && PhaseOf(v, k) == Reviewing(claim, s.output, s.notify, s.refs, s.reviewAttempts)
  {
    hide T.Finalize;
  }

  // ---------- the invariant ----------

  /** What a worker believes about the saved candidate, when it holds the claim. */
  predicate Agrees(t: T.Task, p: Phase) {
    match p
    case Idle => true
    case Stamped(_) => true
    case Claimed(_) => true
    case Ready(_) => t.submission.None?
    case Producing(_) => t.submission.None?
    case Reviewing(_, output, notify, refs, attempts) =>
      t.submission.Some? && t.submission.value.output == output && t.submission.value.notify == notify
      && t.submission.value.refs == refs && t.submission.value.reviewAttempts == attempts
  }

  ghost predicate WorkerInv(w: World, k: WorkerId) {
    var p := PhaseOf(w, k);
    p.Idle? || (p.claim <= w.clock && (T.HoldsClaim(w.task.row, p.claim) ==> Agrees(w.task, p)))
  }

  predicate Live(w: World, k: WorkerId) {
    !PhaseOf(w, k).Idle?
  }

  /** Two live workers go by the same claim. */
  predicate Share(w: World, k: WorkerId, l: WorkerId) {
    k != l && Live(w, k) && Live(w, l) && PhaseOf(w, k).claim == PhaseOf(w, l).claim
  }

  /** Workers may share the current claim only over a candidate already saved. */
  ghost predicate Apart(w: World, k: WorkerId, l: WorkerId) {
    Share(w, k, l) && T.HoldsClaim(w.task.row, PhaseOf(w, k).claim) ==> w.task.submission.Some?
  }

  /** Reading the claim back is harmless: nobody runs the task any more, or the stamp
      read is the worker's own, or no other live worker goes by it, or a candidate
      is already saved. */
  ghost predicate ReadsAlone(w: World, k: WorkerId) {
    PhaseOf(w, k).Stamped? && Readable(w) ==>
      var c := w.task.row.lastRunAt.value;
      c == PhaseOf(w, k).claim || w.task.submission.Some? || forall l | l != k && Live(w, l) :: PhaseOf(w, l).claim != c
  }

  ghost predicate OrderlyStep(w: World, s: Step) {
    s.ReadClaim? ==> ReadsAlone(w, s.k)
  }

  /** Every claim read back in the run was read back harmlessly. */
  ghost predicate Orderly(w: World, steps: seq<Step>)
    decreases |steps|
  {
    steps == [] || (OrderlyStep(w, steps[0]) && Orderly(Apply(w, steps[0]), steps[1..]))
  }

  ghost predicate Inv(w: World) {
    && (w.task.row.lastRunAt.Some? ==> w.task.row.lastRunAt.value <= w.clock)
    && (w.task.submission.Some? ==> w.task.submission.value.reviewAttempts <= MAX_DEFERRALS)
    && (forall k :: WorkerInv(w, k))
    && (forall k, l :: Apart(w, k, l))
  }

  ghost predicate Init(w: World) {
    w.workers == map[] && w.task.submission.None? && w.task.row.lastRunAt.None? && !w.task.row.status.Running?
  }

  lemma RowStep(t: T.Task, op: T.Op)
    ensures T.Apply(t, op).row.lastRunAt == t.row.lastRunAt || op.TrySetRunning? || op.ClaimGraph?
    ensures T.Apply(t, op).row.status.Running? && !t.row.status.Running? ==> op.TrySetRunning? || op.ClaimGraph?
  {
    if op.FinalizeTask? {
      hide T.Finalize;
      FinalizeRow(t, op);
    } else {
      hide T.Finalize;
    }
  }

  lemma FinalizeRow(t: T.Task, op: T.Op)
    requires op.FinalizeTask?
    ensures T.Apply(t, op).row.lastRunAt == t.row.lastRunAt
    ensures T.Apply(t, op).row.status.Running? ==> t.row.status.Running?
  {
    hide T.Finalize;
    T.FinalizationIsAtomic(t, op.fin, op.d, op.strip, op.now, op.runLive, op.newId);
  }

  /** A write that neither carries nor takes claim c leaves the candidate of
      c's holder alone. */
  lemma OthersLeaveItAlone(t: T.Task, op: T.Op, c: Time)
    requires T.HoldsClaim(T.Apply(t, op).row, c) && T.ClaimOf(op) != Some(c)
    requires (op.TrySetRunning? || op.ClaimGraph?) ==> op.now != c
    ensures T.HoldsClaim(t.row, c) && T.Apply(t, op).submission == t.submission
  {
    hide T.Apply;
    RowStep(t, op);
    T.OnlyHoldersWrite(t, op);
    if op.TrySetRunning? || op.ClaimGraph? {
      ClaimStamps(t, op);
    }
  }

  lemma ClaimStamps(t: T.Task, op: T.Op)
    requires op.TrySetRunning? || op.ClaimGraph?
    ensures T.Apply(t, op).row.lastRunAt == Some(op.now) || T.Apply(t, op) == t
    ensures T.Apply(t, op).submission == t.submission
  {
    hide T.Finalize;
  }

  /** Except saving a candidate, what a claim's holder writes releases the claim or
      leaves the candidate alone. */
  lemma HolderReleases(t: T.Task, op: T.Op, c: Time)
    requires T.HoldsClaim(T.Apply(t, op).row, c) && T.HoldsClaim(t.row, c)
    requires T.ClaimOf(op) == Some(c) && !op.SaveSubmission?
    ensures T.Apply(t, op).submission == t.submission
  {
    T.OnlyHoldersWrite(t, op);
    hide T.Finalize;
  }

  lemma CandidateGoesWithClaim(t: T.Task, op: T.Op)
    ensures t.submission.Some? && T.Apply(t, op).submission.None? ==> !T.Apply(t, op).row.status.Running?
  {
    T.OnlyHoldersWrite(t, op);
    hide T.Finalize;
  }

  /** One worker acts on the rows with the claim it goes by and moves to phase p. */
  lemma MoveKeeps(w: World, op: T.Op, k: WorkerId, p: Phase)
    requires Inv(w) && Live(w, k)
    requires Unclaimed(op) || T.ClaimOf(op) == Some(PhaseOf(w, k).claim)
    requires p.Idle?
             || (p.claim == PhaseOf(w, k).claim
                 && (T.HoldsClaim(T.Apply(w.task, op).row, p.claim) ==> Agrees(T.Apply(w.task, op), p)))
    requires T.Apply(w.task, op).submission.Some? ==>
               T.Apply(w.task, op).submission.value.reviewAttempts <= MAX_DEFERRALS
    requires op.SaveSubmission? && T.HoldsClaim(w.task.row, PhaseOf(w, k).claim) ==> w.task.submission.None?
    requires !op.TrySetRunning? && !op.ClaimGraph?
    ensures Inv(Moved(w, op, k, p))
  {
    hide T.Apply, Agrees;
    var v := Moved(w, op, k, p);
    RowStep(w.task, op);
    CandidateGoesWithClaim(w.task, op);
    forall l ensures WorkerInv(v, l) {
      assert WorkerInv(w, l) && WorkerInv(w, k) && Apart(w, k, l);
      if l != k && Live(v, l) && T.HoldsClaim(v.task.row, PhaseOf(v, l).claim) {
        MoveLeavesOthers(w, op, k, l);
        AgreesOnSubmission(w.task, v.task, PhaseOf(v, l));
      }
    }
    forall l, m ensures Apart(v, l, m) {
      assert Apart(w, l, m);
    }
  }

  lemma MoveLeavesOthers(w: World, op: T.Op, k: WorkerId, l: WorkerId)
    requires Apart(w, k, l) && k != l && Live(w, k) && Live(w, l)
    requires Unclaimed(op) || T.ClaimOf(op) == Some(PhaseOf(w, k).claim)
    requires op.SaveSubmission? && T.HoldsClaim(w.task.row, PhaseOf(w, k).claim) ==> w.task.submission.None?
    requires !op.TrySetRunning? && !op.ClaimGraph? && T.HoldsClaim(T.Apply(w.task, op).row, PhaseOf(w, l).claim)
    ensures T.HoldsClaim(w.task.row, PhaseOf(w, l).claim) && T.Apply(w.task, op).submission == w.task.submission
  {
    hide T.Apply;
    RowStep(w.task, op);
    var c := PhaseOf(w, l).claim;
    if T.ClaimOf(op) == Some(c) {
      if !op.SaveSubmission? {
        HolderReleases(w.task, op, c);
      }
    } else {
      OthersLeaveItAlone(w.task, op, c);
    }
  }

  lemma AgreesOnSubmission(t: T.Task, u: T.Task, p: Phase)
    requires t.submission == u.submission
    ensures Agrees(t, p) == Agrees(u, p)
  {
  }

  lemma StampKeeps(w: World, k: WorkerId, now: Time)
    requires Inv(w) && PhaseOf(w, k).Idle? && now > w.clock
    requires T.Apply(w.task, T.TrySetRunning(now)).row != w.task.row
    ensures Inv(Moved(w, T.TrySetRunning(now), k, Stamped(now)).(clock := now))
  {
    hide T.Apply, Agrees;
    var op := T.TrySetRunning(now);
    var v := Moved(w, op, k, Stamped(now)).(clock := now);
    RowStep(w.task, op);
    ClaimStamps(w.task, op);
    forall l ensures WorkerInv(v, l) {
      assert WorkerInv(w, l);
      if l == k {
        assert Agrees(v.task, Stamped(now)) by { FreshAgrees(v.task, now); }
      }
    }
    forall l, m ensures Apart(v, l, m) {
      assert Apart(w, l, m) && WorkerInv(w, l) && WorkerInv(w, m);
    }
  }

  lemma FreshAgrees(t: T.Task, c: Time)
    ensures Agrees(t, Stamped(c)) && Agrees(t, Claimed(c)) && Agrees(t, Idle)
  {
  }

  lemma ReadKeeps(w: World, k: WorkerId)
    requires Inv(w) && PhaseOf(w, k).Stamped? && ReadsAlone(w, k)
    ensures Inv(Apply(w, ReadClaim(k)))
  {
    hide T.Apply, Agrees;
    var v := Apply(w, ReadClaim(k));
    forall l ensures WorkerInv(v, l) {
      assert WorkerInv(w, l);
      if l == k && Readable(w) {
        FreshAgrees(v.task, w.task.row.lastRunAt.value);
      }
    }
    forall l, m ensures Apart(v, l, m) {
      assert Apart(w, l, m);
    }
  }

  lemma MaintainKeeps(w: World, op: T.Op)
    requires Inv(w) && Unclaimed(op)
    ensures Inv(w.(task := T.Apply(w.task, op)))
  {
    hide T.Apply, Agrees;
    var v := w.(task := T.Apply(w.task, op));
    RowStep(w.task, op);
    T.OnlyHoldersWrite(w.task, op);
    CandidateGoesWithClaim(w.task, op);
    forall l ensures WorkerInv(v, l) {
      assert WorkerInv(w, l);
      if Live(v, l) && T.HoldsClaim(v.task.row, PhaseOf(v, l).claim) {
        OthersLeaveItAlone(w.task, op, PhaseOf(v, l).claim);
        AgreesOnSubmission(w.task, v.task, PhaseOf(v, l));
      }
    }
    forall l, m ensures Apart(v, l, m) {
      assert Apart(w, l, m);
    }
  }

  /** Only the worker's phase changes. */
  lemma TurnKeeps(w: World, k: WorkerId, p: Phase)
    requires Inv(w)
             && (p.Idle? || (Live(w, k) && p.claim == PhaseOf(w, k).claim
                             && (T.HoldsClaim(w.task.row, p.claim) ==> Agrees(w.task, p))))
    ensures Inv(w.(workers := w.workers[k := p]))
  {
    hide T.Apply, Agrees;
    var v := w.(workers := w.workers[k := p]);
    forall l ensures WorkerInv(v, l) {
      assert WorkerInv(w, l);
    }
    forall l, m ensures Apart(v, l, m) {
      assert Apart(w, l, m);
    }
  }

  lemma LoadKeeps(w: World, k: WorkerId, now: Time)
    requires Inv(w) && PhaseOf(w, k).Claimed?
    ensures Inv(Loaded(w, k, PhaseOf(w, k).claim, now))
  {
    hide T.Finalize;
    var claim := PhaseOf(w, k).claim;
    match w.task.submission {
      case None => TurnKeeps(w, k, Ready(claim));
      case Some(s) =>
        if s.nextReviewAt > now {
          MoveKeeps(w, T.SetPending, k, Idle);
        } else {
          TurnKeeps(w, k, Reviewing(claim, s.output, s.notify, s.refs, s.reviewAttempts));
        }
    }
  }

  lemma FinishKeeps(w: World, k: WorkerId, result: Returned, env: Env)
    requires Inv(w) && PhaseOf(w, k).Producing?
    ensures Inv(Finished(w, k, PhaseOf(w, k).claim, result, env))
  {
    hide T.Finalize, TrimSpace;
    var claim := PhaseOf(w, k).claim;
    var op := AfterHandler(claim, result, env);
    assert WorkerInv(w, k);
    T.OnlyHoldersWrite(w.task, op);
    MoveKeeps(w, op, k, if op.SaveSubmission? && T.HoldsClaim(w.task.row, claim)
                        then Reviewing(claim, op.output, op.notify, op.refs, 0) else Idle);
  }

  lemma ReviewKeeps(w: World, k: WorkerId, verdict: Verdict, env: Env)
    requires Inv(w) && PhaseOf(w, k).Reviewing?
    ensures Inv(Moved(w, AfterReview(PhaseOf(w, k), verdict, env), k, Idle))
  {
    hide T.Finalize;
    var op := AfterReview(PhaseOf(w, k), verdict, env);
    assert WorkerInv(w, k);
    T.OnlyHoldersWrite(w.task, op);
    MoveKeeps(w, op, k, Idle);
  }

  lemma StepKeeps(w: World, s: Step)
    requires Inv(w) && OrderlyStep(w, s)
    ensures Inv(Apply(w, s))
  {
    hide T.Apply, AfterReview, AfterHandler, Inv;
    match s {
      case Stamp(k, now) =>
        if PhaseOf(w, k).Idle? && now > w.clock && T.Apply(w.task, T.TrySetRunning(now)).row != w.task.row {
          StampKeeps(w, k, now);
        }
      case ReadClaim(k) => if PhaseOf(w, k).Stamped? { ReadKeeps(w, k); }
      case Load(k, now) => if PhaseOf(w, k).Claimed? { LoadKeeps(w, k, now); }
      case Start(k) =>
        if PhaseOf(w, k).Ready? {
          StartFacts(w, k);
          TurnKeeps(w, k, Producing(PhaseOf(w, k).claim));
        }
      case Finish(k, result, env) => if PhaseOf(w, k).Producing? { FinishKeeps(w, k, result, env); }
      case Review(k, verdict, env) => if PhaseOf(w, k).Reviewing? { ReviewKeeps(w, k, verdict, env); }
      case Crash(k) => TurnKeeps(w, k, Idle);
      case Maintain(op) => if Unclaimed(op) { MaintainKeeps(w, op); }
    }
  }

  lemma StartFacts(w: World, k: WorkerId)
    requires Inv(w) && PhaseOf(w, k).Ready?
    ensures T.HoldsClaim(w.task.row, PhaseOf(w, k).claim) ==> Agrees(w.task, Producing(PhaseOf(w, k).claim))
  {
    assert WorkerInv(w, k);
  }

  lemma {:induction false} RunKeeps(w: World, steps: seq<Step>)
    requires Inv(w) && Orderly(w, steps)
    ensures Inv(Run(w, steps))
    decreases |steps|
  {
    if steps != [] {
      StepKeeps(w, steps[0]);
      RunKeeps(Apply(w, steps[0]), steps[1..]);
    }
  }

  lemma InitInv(w: World)
    requires Init(w)
    ensures Inv(w)
  {
  }

  // ---------- what a reviewer outage cannot do ----------

  /** In every state an orderly run reaches, a worker under the current claim has no
      handler running or about to run while a candidate is saved, and reviews, if it
      does, exactly the saved candidate, with its true attempt count. */
  lemma SavedWorkIsNotRedone(w0: World, steps: seq<Step>, k: WorkerId)
    requires Init(w0) && Orderly(w0, steps)
    ensures var w := Run(w0, steps);
            var p := PhaseOf(w, k);
            !p.Idle? && T.HoldsClaim(w.task.row, p.claim) ==>
              && (w.task.submission.Some? ==> p.Stamped? || p.Claimed? || p.Reviewing?)
              && (p.Reviewing? ==> w.task.submission.Some? && w.task.submission.value.output == p.output
                                   && w.task.submission.value.reviewAttempts == p.attempts <= MAX_DEFERRALS)
  {
    InitInv(w0);
    RunKeeps(w0, steps);
    assert WorkerInv(Run(w0, steps), k);
  }

  /** The deferral a step performed on the saved candidate, as 0 or 1. */
  function Deferral(w: World, s: Step): nat {
    if s.Review? && PhaseOf(w, s.k).Reviewing? && s.verdict.Unavailable? && PhaseOf(w, s.k).attempts < MAX_DEFERRALS
       && T.HoldsClaim(w.task.row, PhaseOf(w, s.k).claim) then 1 else 0
  }

  /** The worker under the current claim turned down the saved candidate. */
  predicate Rejection(w: World, s: Step) {
    s.Review? && PhaseOf(w, s.k).Reviewing? && s.verdict.NotMet? && T.HoldsClaim(w.task.row, PhaseOf(w, s.k).claim)
  }

  /** A saved candidate is never overwritten; it goes away exactly by a fenced
      rejection of that very text, and only deferrals count its reviews. */
  lemma CandidateStep(w: World, s: Step)
    requires Inv(w) && w.task.submission.Some?
    ensures var a, b := w.task.submission, Apply(w, s).task.submission;
            && (b.None? <==> Rejection(w, s))
            && (b.None? ==> PhaseOf(w, s.k).output == a.value.output)
            && (b.Some? ==>
                  b.value.output == a.value.output && b.value.notify == a.value.notify
                  && b.value.refs == a.value.refs
                  && b.value.reviewAttempts == a.value.reviewAttempts + Deferral(w, s))
  {
    hide T.Finalize, TrimSpace;
    match s {
      case Review(k, verdict, env) =>
        assert WorkerInv(w, k);
        if PhaseOf(w, k).Reviewing? {
          T.OnlyHoldersWrite(w.task, AfterReview(PhaseOf(w, k), verdict, env));
        }
      case Finish(k, result, env) =>
        assert WorkerInv(w, k);
        if PhaseOf(w, k).Producing? {
          T.OnlyHoldersWrite(w.task, AfterHandler(PhaseOf(w, k).claim, result, env));
        }
      case Maintain(op) => T.OnlyHoldersWrite(w.task, op);
      case _ =>
    }
  }

  function Deferrals(w: World, steps: seq<Step>): nat
    decreases |steps|
  {
    if steps == [] then 0 else Deferral(w, steps[0]) + Deferrals(Apply(w, steps[0]), steps[1..])
  }

  predicate NeverRejected(w: World, steps: seq<Step>)
    decreases |steps|
  {
    steps == [] || (!Rejection(w, steps[0]) && NeverRejected(Apply(w, steps[0]), steps[1..]))
  }

  /** Until a fenced rejection the candidate stays what was saved, and over the
      whole of that run at most two unavailable verdicts were deferred, less the
      ones it had already used. */
  lemma {:induction false} OutageIsBounded(w: World, steps: seq<Step>)
    requires Inv(w) && Orderly(w, steps) && w.task.submission.Some? && NeverRejected(w, steps)
    ensures var v := Run(w, steps);
            && v.task.submission.Some? && v.task.submission.value.output == w.task.submission.value.output
            && v.task.submission.value.reviewAttempts == w.task.submission.value.reviewAttempts + Deferrals(w, steps)
    ensures Deferrals(w, steps) <= 2 - w.task.submission.value.reviewAttempts
    decreases |steps|
  {
    hide Apply, Rejection, Deferral, OrderlyStep;
    if steps != [] {
      StepKeeps(w, steps[0]);
      CandidateStep(w, steps[0]);
      OutageIsBounded(Apply(w, steps[0]), steps[1..]);
    }
  }

  /** Task v is t with text published under the given outcome. */
  ghost predicate Published(t: T.Task, v: T.Task, text: Text, outcome: T.Outcome) {
    && |v.artifacts| == |t.artifacts| + 1 && v.artifacts[..|t.artifacts|] == t.artifacts
    && v.artifacts[|t.artifacts|].body == text && v.artifacts[|t.artifacts|].outcome == outcome
    && v.row.result == Some(text) && T.Terminal(v.row.status) && v.submission == t.submission
  }

  lemma ReviewWrites(w: World, k: WorkerId, verdict: Verdict, env: Env)
    requires PhaseOf(w, k).Reviewing?
    ensures Apply(w, Review(k, verdict, env)).task == T.Apply(w.task, AfterReview(PhaseOf(w, k), verdict, env))
  {
    hide T.Apply, AfterReview;
  }

  /** The outbox has room for the notice: its refs, among them task_result for the
      next version, and its occurrence key are free (Tasks.CanQueue). */
  predicate Room(t: T.Task, fin: T.Finalization, env: Env) {
    T.CanQueue(t, T.ResultRefs(fin, T.NextVersion(t.artifacts)), env.newId)
  }

  lemma AdmittedExactlyWhen(t: T.Task, fin: T.Finalization, env: Env)
    requires fin.claim.Some? && fin.expiredAt.None? && (fin.outcome.Partial? || fin.outcome.Completed?)
    ensures T.Admit(t.row, fin, env.now, true).Proceed?
            <==> T.HoldsClaim(t.row, fin.claim.value) && !(fin.outcome.Completed? && T.DeadlinePassed(t.row, env.now))
  {
  }

  /** The text a finalization would publish: its own or, when that cleans to nothing,
      the first draft that does not. */
  function Found(t: T.Task, fin: T.Finalization, env: Env): Text {
    T.FirstNonEmpty(T.Candidates(t, fin, env.d, env.strip))
  }

  /** An outcome that settles for any draft; a completed one insists on its own text. */
  predicate HasText(t: T.Task, fin: T.Finalization, env: Env) {
    if fin.outcome.Completed? then T.Clean(env.strip, fin.body) != [] else Found(t, fin, env) != []
  }

  lemma FinalizingPublishesExactlyWhen(t: T.Task, fin: T.Finalization, env: Env)
    requires fin.claim.Some? && fin.expiredAt.None? && (fin.outcome.Partial? || fin.outcome.Completed?)
             && fin.emptyBody == []
    ensures var v := T.Apply(t, Finalizing(fin, env));
            && (v == t || Published(t, v, Found(t, fin, env), fin.outcome))
            && (v != t
                <==> T.HoldsClaim(t.row, fin.claim.value) && HasText(t, fin, env)
                     && !(fin.outcome.Completed? && T.DeadlinePassed(t.row, env.now))
                     && ((fin.outcome.Partial? && TrimSpace(fin.notify) == []) || Room(t, fin, env)))
  {
    hide T.Finalize, T.Clean, T.Admit, T.CanQueue, T.ResultRefs, T.FirstNonEmpty, T.Candidates, TrimSpace;
    T.FinalizationIsAtomic(t, fin, env.d, env.strip, env.now, true, env.newId);
    T.FinalizationCommitsExactlyWhen(t, fin, env.d, env.strip, env.now, true, env.newId);
    FoundIsPublished(t, fin, env);
    AdmittedExactlyWhen(t, fin, env);
    NothingTrims();
    if T.Clean(env.strip, fin.body) != [] {
      T.AcceptedBodyComesFirst(t, fin, env.d, env.strip);
    }
  }

  lemma NothingTrims()
    ensures TrimSpace([]) == []
  {
  }

  lemma FoundIsPublished(t: T.Task, fin: T.Finalization, env: Env)
    requires fin.emptyBody == []
    ensures var (v, r) := T.Finalize(t, fin, env.d, env.strip, env.now, true, env.newId);
            r.Finalized? ==>
              Found(t, fin, env) != [] && r.artifact.body == Found(t, fin, env) && r.artifact.outcome == fin.outcome
  {
    hide T.Clean, T.Admit, T.CanQueue, T.ResultRefs, T.FirstNonEmpty, T.Candidates, TrimSpace, J.Enqueue;
    NothingTrims();
  }

  /** The drafts a task without a graph has beside its candidate: the checkpoint's,
      then the last iteration's. */
  function OtherDraft(t: T.Task, env: Env): Text {
    var noted := if t.checkpoint.Some? then t.checkpoint.value.output else [];
    T.Or(T.Clean(env.strip, noted), T.Clean(env.strip, env.d.iterationOutput))
  }

  lemma OtherDrafts(t: T.Task, fin: T.Finalization, env: Env)
    requires !t.row.graph && t.submission.Some? && t.submission.value.output == fin.body
    ensures Found(t, fin, env) == T.Or(T.Clean(env.strip, fin.body), OtherDraft(t, env))
  {
    hide T.Clean;
    var own, last := T.Clean(env.strip, fin.body), T.Clean(env.strip, env.d.iterationOutput);
    var noted := T.Clean(env.strip, if t.checkpoint.Some? then t.checkpoint.value.output else []);
    assert T.Candidates(t, fin, env.d, env.strip) == [own, own, noted, last];
    assert [own, own, noted, last][1..] == [own, noted, last] && [own, noted, last][1..] == [noted, last];
    assert [noted, last][1..] == [last] && T.FirstNonEmpty([last]) == last;
    assert T.FirstNonEmpty([noted, last]) == T.Or(noted, last);
    assert T.FirstNonEmpty([own, noted, last]) == T.Or(own, T.FirstNonEmpty([noted, last]));
  }

  /** The next unavailable verdict after two deferrals defers nothing. It publishes as
      partial the saved text or, when that is nothing but hidden blocks and markers,
      another draft of the task, exactly if there is any such text and the notice is
      empty or can be queued, and is refused without effect, every time, otherwise.
      No deadline stands in its way. */
  lemma ThirdOutagePublishes(w: World, k: WorkerId, env: Env)
    requires Inv(w) && PhaseOf(w, k).Reviewing? && T.HoldsClaim(w.task.row, PhaseOf(w, k).claim)
    requires w.task.submission.Some? ==> w.task.submission.value.reviewAttempts == 2
    ensures w.task.submission.Some?
    ensures var v := Apply(w, Review(k, Unavailable, env)).task;
            var fin := GivenUp(PhaseOf(w, k), env);
            var own := T.Clean(env.strip, w.task.submission.value.output);
            && (own != [] ==> Found(w.task, fin, env) == own)
            && (own == [] && !w.task.row.graph ==> Found(w.task, fin, env) == OtherDraft(w.task, env))
            && (v == w.task || Published(w.task, v, Found(w.task, fin, env), T.Partial))
            && (v != w.task
                <==> Found(w.task, fin, env) != [] && (TrimSpace(env.partial) == [] || Room(w.task, fin, env)))
  {
    hide T.Apply, T.Clean, Apply, TrimSpace, Room, Found, OtherDraft;
    assert WorkerInv(w, k);
    ReviewWrites(w, k, Unavailable, env);
    var fin := GivenUp(PhaseOf(w, k), env);
    FinalizingPublishesExactlyWhen(w.task, fin, env);
    OwnTextIsFound(w.task, fin, env);
    if !w.task.row.graph {
      OtherDrafts(w.task, fin, env);
    }
  }

  lemma OwnTextIsFound(t: T.Task, fin: T.Finalization, env: Env)
    ensures T.Clean(env.strip, fin.body) != [] ==> Found(t, fin, env) == T.Clean(env.strip, fin.body)
  {
    hide T.Clean;
    if T.Clean(env.strip, fin.body) != [] {
      T.AcceptedBodyComesFirst(t, fin, env.d, env.strip);
    }
  }

  /** What is published as completed is the saved candidate that was accepted, and
      it is published exactly if the claim still stands, the deadline has not passed,
      the text has anything visible in it and its intent can be queued. */
  lemma CompletedIsTheReviewedText(w: World, k: WorkerId, env: Env)
    requires Inv(w) && PhaseOf(w, k).Reviewing?
    ensures var v := Apply(w, Review(k, Met, env)).task;
            var fin := Accepted(PhaseOf(w, k));
            && (v == w.task || (w.task.submission.Some? && v.row.status.Done?
                                && Published(w.task, v, T.Clean(env.strip, w.task.submission.value.output),
                                             T.Completed)))
            && (v != w.task <==> T.HoldsClaim(w.task.row, PhaseOf(w, k).claim) && !T.DeadlinePassed(w.task.row, env.now)
                                 && T.Clean(env.strip, PhaseOf(w, k).output) != [] && Room(w.task, fin, env))
  {
    hide T.Apply, T.Clean, Apply, TrimSpace, Room, Found;
    assert WorkerInv(w, k);
    ReviewWrites(w, k, Met, env);
    var fin := Accepted(PhaseOf(w, k));
    FinalizingPublishesExactlyWhen(w.task, fin, env);
    OwnTextIsFound(w.task, fin, env);
    CompletedIsDone(w.task, fin, env);
  }

  lemma CompletedIsDone(t: T.Task, fin: T.Finalization, env: Env)
    requires fin.outcome.Completed?
    ensures T.Apply(t, Finalizing(fin, env)) != t ==> T.Apply(t, Finalizing(fin, env)).row.status.Done?
  {
    hide T.Finalize, T.Clean;
    T.FinalizationIsAtomic(t, fin, env.d, env.strip, env.now, true, env.newId);
    T.FinalizationCommitsExactlyWhen(t, fin, env.d, env.strip, env.now, true, env.newId);
  }

  // ---------- claims read back by the wrong worker ----------

  /** Everybody under the current claim agrees with the saved candidate. */
  ghost predicate SafeAt(w: World) {
    forall k :: Live(w, k) && T.HoldsClaim(w.task.row, PhaseOf(w, k).claim) ==> Agrees(w.task, PhaseOf(w, k))
  }

  /** No orderly continuation ever does saved work again. */
  ghost predicate AlwaysSafe(w: World) {
    forall more :: Orderly(w, more) ==> SafeAt(Run(w, more))
  }

  lemma InvIsSafe(w: World)
    requires Inv(w)
    ensures AlwaysSafe(w)
  {
    hide Agrees;
    forall more | Orderly(w, more) ensures SafeAt(Run(w, more)) {
      RunKeeps(w, more);
      var v := Run(w, more);
      forall k | Live(v, k) && T.HoldsClaim(v.task.row, PhaseOf(v, k).claim) ensures Agrees(v.task, PhaseOf(v, k)) {
        assert WorkerInv(v, k);
      }
    }
  }

  /** Steps that take a worker under the current claim to its running handler. */
  function Towards(l: WorkerId, p: Phase): seq<Step> {
    match p
    case Stamped(_) => [ReadClaim(l), Load(l, 0), Start(l)]
    case Claimed(_) => [Load(l, 0), Start(l)]
    case Ready(_) => [Start(l)]
    case _ => []
  }

  /** The task is run under claim c, no candidate saved; l goes by c. */
  predicate Racing(w: World, c: Time, k: WorkerId, l: WorkerId) {
    && k != l && T.HoldsClaim(w.task.row, c) && w.task.submission.None?
    && Live(w, l) && PhaseOf(w, l).claim == c && !PhaseOf(w, l).Reviewing?
  }

  lemma TowardsProduces(w: World, c: Time, k: WorkerId, l: WorkerId)
    requires Racing(w, c, k, l)
    ensures var v := Run(w, Towards(l, PhaseOf(w, l)));
            v.task == w.task && PhaseOf(v, l) == Producing(c) && PhaseOf(v, k) == PhaseOf(w, k)
              && Orderly(w, Towards(l, PhaseOf(w, l)))
  {
    hide T.Apply, AfterHandler, AfterReview;
    match PhaseOf(w, l) {
      case Stamped(_) =>
        var w1 := Apply(w, ReadClaim(l));
        var w2 := Apply(w1, Load(l, 0));
        assert Towards(l, PhaseOf(w, l))[1..] == [Load(l, 0), Start(l)] && [Load(l, 0), Start(l)][1..] == [Start(l)]
               && [Start(l)][1..] == [];
        assert Run(w2, [Start(l)]) == Run(Apply(w2, Start(l)), []);
        assert Run(w1, [Load(l, 0), Start(l)]) == Run(w2, [Start(l)]);
        assert Orderly(Apply(w2, Start(l)), []) && Orderly(w2, [Start(l)]) && Orderly(w1, [Load(l, 0), Start(l)]);
      case Claimed(_) =>
        var w1 := Apply(w, Load(l, 0));
        assert Towards(l, PhaseOf(w, l))[1..] == [Start(l)] && [Start(l)][1..] == [];
        assert Run(w1, [Start(l)]) == Run(Apply(w1, Start(l)), []);
        assert Orderly(Apply(w1, Start(l)), []) && Orderly(w1, [Start(l)]);
      case Ready(_) =>
        assert Towards(l, PhaseOf(w, l))[1..] == [];
      case _ =>
    }
  }

  /** From there: k, which read l's claim back, loads nothing, l saves a candidate,
      k starts its handler all the same, under the current claim, and what it then
      produces overwrites the candidate and its review count. */
  function Clash(k: WorkerId, l: WorkerId, saved: Text, again: Text, env: Env): seq<Step> {
    [Load(k, 0), Finish(l, Done(saved, [], []), env), Start(k), Finish(k, Done(again, [], []), env)]
  }

  lemma ClashOverwrites(w: World, c: Time, k: WorkerId, l: WorkerId, saved: Text, again: Text, env: Env)
    requires Racing(w, c, k, l) && PhaseOf(w, l) == Producing(c) && PhaseOf(w, k) == Claimed(c)
    requires TrimSpace(saved) != [] && TrimSpace(again) != []
    ensures var clash := Clash(k, l, saved, again, env);
            && Orderly(w, clash[..2]) && Orderly(w, clash)
            && !SafeAt(Run(w, clash[..2]))
               && Run(w, clash[..2]).task.submission == Some(T.Submission(saved, [], [], 0, env.now))
            && PhaseOf(Run(w, clash[..3]), k).Producing? && T.HoldsClaim(Run(w, clash[..3]).task.row, c)
            && Run(w, clash).task.submission == Some(T.Submission(again, [], [], 0, env.now))
  {
    hide T.Finalize, TrimSpace, Inv;
    var s := Clash(k, l, saved, again, env);
    var w1 := Apply(w, s[0]);
    var w2 := Apply(w1, s[1]);
    var w3 := Apply(w2, s[2]);
    var w4 := Apply(w3, s[3]);
    SaveUnder(w.task, c, saved, env.now);
    SaveUnder(w2.task, c, again, env.now);
    hide T.Apply;
    assert PhaseOf(w2, k) == Ready(c) && w2.task.submission.Some? && !Agrees(w2.task, PhaseOf(w2, k)) && Live(w2, k);
    assert s[..2] == [s[0], s[1]] && s[..3] == [s[0], s[1], s[2]] && s == [s[0], s[1], s[2], s[3]];
    Chain([s[0], s[1]], [w, w1, w2]);
    Chain([s[0], s[1], s[2]], [w, w1, w2, w3]);
    Chain(s, [w, w1, w2, w3, w4]);
    NoReadsIsOrderly(w, s);
    NoReadsIsOrderly(w, s[..2]);
  }

  lemma SaveUnder(t: T.Task, c: Time, output: Text, now: Time)
    requires T.HoldsClaim(t.row, c)
    ensures T.Apply(t, T.SaveSubmission(c, output, [], [], now))
            == t.(submission := Some(T.Submission(output, [], [], 0, now)))
  {
    hide T.Finalize;
  }

  lemma {:induction false} NoReadsIsOrderly(w: World, steps: seq<Step>)
    requires forall i | 0 <= i < |steps| :: !steps[i].ReadClaim?
    ensures Orderly(w, steps)
    decreases |steps|
  {
    hide Apply;
    if steps != [] {
      NoReadsIsOrderly(Apply(w, steps[0]), steps[1..]);
    }
  }

  lemma {:induction false} OrderlyJoins(w: World, a: seq<Step>, b: seq<Step>)
    ensures Run(w, a + b) == Run(Run(w, a), b)
    ensures Orderly(w, a + b) <==> Orderly(w, a) && Orderly(Run(w, a), b)
    decreases |a|
  {
    hide Apply, OrderlyStep;
    if a == [] {
      assert a + b == b;
    } else {
      assert (a + b)[0] == a[0] && (a + b)[1..] == a[1..] + b;
      OrderlyJoins(Apply(w, a[0]), a[1..], b);
    }
  }

  /** A harmful read is punished: some continuation, itself orderly, does saved work
      again under the current claim. */
  lemma HarmfulReadBreaks(w: World, k: WorkerId, saved: Text, env: Env) returns (more: seq<Step>)
    requires Inv(w) && !ReadsAlone(w, k) && TrimSpace(saved) != []
    ensures Orderly(Apply(w, ReadClaim(k)), more) && !SafeAt(Run(Apply(w, ReadClaim(k)), more))
  {
    hide T.Apply, TrimSpace, SafeAt;
    var c := w.task.row.lastRunAt.value;
    var l :| l != k && Live(w, l) && PhaseOf(w, l).claim == c;
    assert WorkerInv(w, l);
    var v := Apply(w, ReadClaim(k));
    var first := Towards(l, PhaseOf(v, l));
    TowardsProduces(v, c, k, l);
    ClashOverwrites(Run(v, first), c, k, l, saved, saved, env);
    var rest := Clash(k, l, saved, saved, env)[..2];
    OrderlyJoins(v, first, rest);
    more := first + rest;
  }

  /** Exactly when reading the claim back is safe: whatever follows, as long as later
      reads are harmless too, saved work is not done again. */
  lemma ReadIsSafeExactlyWhen(w: World, k: WorkerId, saved: Text, env: Env)
    requires Inv(w) && PhaseOf(w, k).Stamped? && TrimSpace(saved) != []
    ensures ReadsAlone(w, k) <==> AlwaysSafe(Apply(w, ReadClaim(k)))
  {
    hide Inv, ReadsAlone, AlwaysSafe, Apply;
    if ReadsAlone(w, k) {
      ReadKeeps(w, k);
      InvIsSafe(Apply(w, ReadClaim(k)));
    } else {
      var more := HarmfulReadBreaks(w, k, saved, env);
      Unsafe(Apply(w, ReadClaim(k)), more);
    }
  }

  lemma Unsafe(w: World, more: seq<Step>)
    requires Orderly(w, more) && !SafeAt(Run(w, more))
    ensures !AlwaysSafe(w)
  {
    hide SafeAt, Orderly, Run;
  }

  /** And over whole runs: every claim was read back harmlessly if and only if no
      state on the way had an orderly future in which saved work is done again. */
  lemma {:induction false} OrderlyExactlyWhen(w: World, steps: seq<Step>, saved: Text, env: Env)
    requires Inv(w) && TrimSpace(saved) != []
    ensures Orderly(w, steps) <==> forall i | 0 <= i <= |steps| :: AlwaysSafe(Run(w, steps[..i]))
    decreases |steps|
  {
    hide Inv, Apply, AlwaysSafe, OrderlyStep, TrimSpace;
    InvIsSafe(w);
    assert Run(w, steps[..0]) == w;
    if steps != [] {
      var v := Apply(w, steps[0]);
      StepSafeExactlyWhen(w, steps[0], saved, env);
      assert steps[..1] == [steps[0]] && Run(w, [steps[0]]) == v by { assert [steps[0]][1..] == []; }
      if OrderlyStep(w, steps[0]) {
        StepKeeps(w, steps[0]);
        OrderlyExactlyWhen(v, steps[1..], saved, env);
        forall i | 1 <= i <= |steps| ensures Run(w, steps[..i]) == Run(v, steps[1..][..i - 1]) {
          assert steps[..i][0] == steps[0] && steps[..i][1..] == steps[1..][..i - 1];
        }
        assert forall i | 0 <= i <= |steps[1..]| :: Run(v, steps[1..][..i]) == Run(w, steps[..i + 1]);
      }
    }
  }

  lemma StepSafeExactlyWhen(w: World, s: Step, saved: Text, env: Env)
    requires Inv(w) && TrimSpace(saved) != []
    ensures OrderlyStep(w, s) <==> AlwaysSafe(Apply(w, s))
  {
    hide Inv, Apply, AlwaysSafe, TrimSpace;
    if OrderlyStep(w, s) {
      StepKeeps(w, s);
      InvIsSafe(Apply(w, s));
    } else {
      ReadIsSafeExactlyWhen(w, s.k, saved, env);
    }
  }

  /** In particular a worker that reads back the stamp it wrote, nobody having reset
      and claimed the row again in between, reads it back harmlessly. */
  lemma OwnStampIsHarmless(w: World, k: WorkerId)
    requires PhaseOf(w, k).Stamped?
             && (w.task.row.lastRunAt == Some(PhaseOf(w, k).claim) || !w.task.row.status.Running?)
    ensures ReadsAlone(w, k)
  {
  }

  /** A task never claimed so far. */
  predicate Fresh(t: T.Task) {
    !t.row.graph && t.row.status.Pending? && t.row.lastRunAt.None? && t.row.deadline.None? && t.submission.None?
  }

  function Holding(t: T.Task, now: Time): T.Task {
    t.(row := t.row.(status := T.Running, lastRunAt := Some(now)))
  }

  function Reset(t: T.Task): T.Task {
    Holding(t, 5).(row := Holding(t, 5).row.(status := T.Pending))
  }

  lemma Granted(t: T.Task, now: Time)
    requires !t.row.graph && t.row.status.Pending? && t.row.deadline.None?
    ensures T.Apply(t, T.TrySetRunning(now)) == Holding(t, now)
  {
    hide T.Finalize;
  }

  lemma ResetTo(t: T.Task)
    requires !t.row.graph
    ensures T.Apply(Holding(t, 5), T.ResetStale(6)) == Reset(t)
  {
    hide T.Finalize;
  }

  /** 1 stamps 5, the row is reset, and 2 stamps 7. */
  const RESTAMPED: seq<Step> := [Stamp(1, 5), Maintain(T.ResetStale(6)), Stamp(2, 7)]

  /** Both read 7; with no candidate saved yet, 2 starts its handler. */
  const BOTH_READ: seq<Step> := [ReadClaim(1), ReadClaim(2), Load(2, 0), Start(2)]

  lemma Restamped(t: T.Task)
    requires Fresh(t)
    ensures Run(World(t, map[], 0), RESTAMPED) == World(Holding(Reset(t), 7), map[1 := Stamped(5), 2 := Stamped(7)], 7)
  {
    hide T.Apply;
    Granted(t, 5);
    Granted(Reset(t), 7);
    ResetTo(t);
    Chain(RESTAMPED,
          [World(t, map[], 0), World(Holding(t, 5), map[1 := Stamped(5)], 5), World(Reset(t), map[1 := Stamped(5)], 5),
           World(Holding(Reset(t), 7), map[1 := Stamped(5), 2 := Stamped(7)], 7)]);
  }

  lemma BothRead(v: T.Task)
    requires T.HoldsClaim(v.row, 7) && v.submission.None?
    ensures var w := World(v, map[1 := Stamped(5), 2 := Stamped(7)], 7);
            !ReadsAlone(w, 1) && Run(w, BOTH_READ) == World(v, map[1 := Claimed(7), 2 := Producing(7)], 7)
  {
    hide T.Apply;
    var w := World(v, map[1 := Stamped(5), 2 := Stamped(7)], 7);
    assert Live(w, 2) && PhaseOf(w, 2).claim == 7;
    Chain(BOTH_READ,
          [w, World(v, map[1 := Claimed(7), 2 := Stamped(7)], 7), World(v, map[1 := Claimed(7), 2 := Claimed(7)], 7),
           World(v, map[1 := Claimed(7), 2 := Ready(7)], 7), World(v, map[1 := Claimed(7), 2 := Producing(7)], 7)]);
  }

  lemma HarmfulFirst(w: World, steps: seq<Step>)
    requires steps != [] && steps[0].ReadClaim? && !ReadsAlone(w, steps[0].k)
    ensures !Orderly(w, steps)
  {
    hide ReadsAlone, Apply;
  }

  /** The failing run: with both workers under claim 7 and nothing saved, both load
      nothing; 2 saves a candidate, 1 starts its handler under the current claim all
      the same, and its result replaces the candidate. */
  lemma SharedClaimRedoesSavedWork(t: T.Task, saved: Text, again: Text, env: Env)
    requires Fresh(t) && TrimSpace(saved) != [] && TrimSpace(again) != []
    ensures var w0 := World(t, map[], 0);
            var steps := RESTAMPED + BOTH_READ;
            var clash := Clash(1, 2, saved, again, env);
            && Init(w0) && !Orderly(w0, steps)
            && Run(w0, steps + clash[..2]).task.submission == Some(T.Submission(saved, [], [], 0, env.now))
            && PhaseOf(Run(w0, steps + clash[..3]), 1).Producing?
               && T.HoldsClaim(Run(w0, steps + clash[..3]).task.row, 7)
            && Run(w0, steps + clash).task.submission == Some(T.Submission(again, [], [], 0, env.now))
  {
    hide TrimSpace, Apply, Orderly, Run, ReadsAlone, SafeAt;
    var w0 := World(t, map[], 0);
    var v := Holding(Reset(t), 7);
    var steps := RESTAMPED + BOTH_READ;
    var clash := Clash(1, 2, saved, again, env);
    Restamped(t);
    BothRead(v);
    HarmfulFirst(World(v, map[1 := Stamped(5), 2 := Stamped(7)], 7), BOTH_READ);
    OrderlyJoins(w0, RESTAMPED, BOTH_READ);
    ClashOverwrites(World(v, map[1 := Claimed(7), 2 := Producing(7)], 7), 7, 1, 2, saved, again, env);
    OrderlyJoins(w0, steps, clash);
    OrderlyJoins(w0, steps, clash[..2]);
    OrderlyJoins(w0, steps, clash[..3]);
  }

  // ---------- stale handlers ----------

  /** A candidate landed in this step: a worker under the current claim saved one. */
  predicate Lands(w: World, s: Step) {
    s.Finish? && PhaseOf(w, s.k).Producing? && T.HoldsClaim(w.task.row, PhaseOf(w, s.k).claim)
    && s.result.Done? && TrimSpace(s.result.output) != []
  }

  lemma LandsOrGoes(w: World, s: Step)
    ensures var v := Apply(w, s).task.submission;
            v.Some? <==> Lands(w, s) || (w.task.submission.Some? && !Rejection(w, s))
  {
    hide T.Finalize, TrimSpace;
    match s {
      case Review(k, verdict, env) =>
        if PhaseOf(w, k).Reviewing? {
          T.OnlyHoldersWrite(w.task, AfterReview(PhaseOf(w, k), verdict, env));
        }
      case Finish(k, result, env) =>
        if PhaseOf(w, k).Producing? {
          T.OnlyHoldersWrite(w.task, AfterHandler(PhaseOf(w, k).claim, result, env));
        }
      case Maintain(op) => T.OnlyHoldersWrite(w.task, op);
      case _ =>
    }
  }

  /** Some step of the run landed a candidate, and none since rejected it. */
  ghost predicate LandedAndKept(w: World, steps: seq<Step>) {
    exists i :: 0 <= i < |steps| && Lands(Run(w, steps[..i]), steps[i])
                && forall j | i < j < |steps| :: !Rejection(Run(w, steps[..j]), steps[j])
  }

  lemma LandedMore(w: World, front: seq<Step>, s: Step)
    requires Lands(Run(w, front), s) || (LandedAndKept(w, front) && !Rejection(Run(w, front), s))
    ensures LandedAndKept(w, front + [s])
  {
    hide Apply, Run, Lands, Rejection;
    var n, steps := |front|, front + [s];
    Prefixes(front, s);
    if Lands(Run(w, front), s) {
      assert Lands(Run(w, steps[..n]), steps[n]);
    } else {
      var i :| 0 <= i < n && Lands(Run(w, front[..i]), front[i])
               && forall j | i < j < n :: !Rejection(Run(w, front[..j]), front[j]);
      assert Lands(Run(w, steps[..i]), steps[i]);
      assert forall j | i < j <= n :: !Rejection(Run(w, steps[..j]), steps[j]);
    }
  }

  lemma LandedBefore(w: World, front: seq<Step>, s: Step)
    requires LandedAndKept(w, front + [s])
    ensures Lands(Run(w, front), s) || (LandedAndKept(w, front) && !Rejection(Run(w, front), s))
  {
    hide Apply, Run, Lands, Rejection;
    var n, steps := |front|, front + [s];
    Prefixes(front, s);
    var i :| 0 <= i <= n && Lands(Run(w, steps[..i]), steps[i])
             && forall j | i < j <= n :: !Rejection(Run(w, steps[..j]), steps[j]);
    if i < n {
      assert Lands(Run(w, front[..i]), front[i]);
      assert !Rejection(Run(w, steps[..n]), steps[n]);
      assert forall j | i < j < n :: !Rejection(Run(w, front[..j]), front[j]);
    }
  }

  lemma Prefixes(front: seq<Step>, s: Step)
    ensures var steps := front + [s];
            steps[|front|] == s && front[..|front|] == front == steps[..|front|]
            && forall i | 0 <= i < |front| :: steps[..i] == front[..i] && steps[i] == front[i]
  {
  }

  lemma {:induction false} CandidateOfRun(w: World, steps: seq<Step>)
    requires w.task.submission.None?
    ensures Run(w, steps).task.submission.Some? <==> LandedAndKept(w, steps)
    decreases |steps|
  {
    hide Apply, Lands, Rejection;
    if steps != [] {
      var n := |steps| - 1;
      var front := steps[..n];
      assert steps == front + [steps[n]] && [steps[n]][1..] == [];
      CandidateOfRun(w, front);
      OrderlyJoins(w, front, [steps[n]]);
      LandsOrGoes(Run(w, front), steps[n]);
      if Lands(Run(w, front), steps[n]) || (LandedAndKept(w, front) && !Rejection(Run(w, front), steps[n])) {
        LandedMore(w, front, steps[n]);
      }
      if LandedAndKept(w, steps) {
        LandedBefore(w, front, steps[n]);
      }
      hide LandedAndKept;
    }
  }

  /** k has not moved since it loaded nothing. */
  ghost predicate Waits(w: World, steps: seq<Step>, k: WorkerId) {
    forall i | 0 <= i <= |steps| :: PhaseOf(Run(w, steps[..i]), k).Ready?
  }

  /** Exactly when a handler is started over a saved candidate. w is the state in
      which k has just loaded nothing, and k waits through the steps that follow:
      then a candidate is there at its start if and only if the fenced save of some
      other worker landed meanwhile and nobody rejected it since. In an orderly run
      k's claim is then lost, so that nothing it produces can be saved. */
  lemma StartsOverCandidateExactlyWhen(w: World, steps: seq<Step>, k: WorkerId)
    requires PhaseOf(w, k).Ready? && w.task.submission.None? && Waits(w, steps, k)
    ensures PhaseOf(Apply(Run(w, steps), Start(k)), k).Producing?
    ensures Run(w, steps).task.submission.Some? <==> LandedAndKept(w, steps)
    ensures forall i | 0 <= i < |steps| && Lands(Run(w, steps[..i]), steps[i]) :: steps[i].k != k
    ensures Inv(w) && Orderly(w, steps) && LandedAndKept(w, steps) ==>
              !T.HoldsClaim(Run(w, steps).task.row, PhaseOf(Run(w, steps), k).claim)
  {
    CandidateOfRun(w, steps);
    assert steps[..|steps|] == steps;
    hide Apply, LandedAndKept;
    var v := Run(w, steps);
    assert PhaseOf(v, k).Ready?;
    StartRuns(v, k);
    if Inv(w) && Orderly(w, steps) && LandedAndKept(w, steps) {
      RunKeeps(w, steps);
      assert WorkerInv(v, k);
    }
    forall i | 0 <= i < |steps| && Lands(Run(w, steps[..i]), steps[i]) ensures steps[i].k != k {
      assert PhaseOf(Run(w, steps[..i]), k).Ready?;
    }
  }

  lemma StartRuns(w: World, k: WorkerId)
    requires PhaseOf(w, k).Ready?
    ensures PhaseOf(Apply(w, Start(k)), k).Producing?
  {
  }

  /** Such a run exists: 1 loads nothing and loses its claim, 2 saves a candidate, and
      1 starts its handler. */
  lemma StaleHandlerCanStart(t: T.Task, output: Text, env: Env)
    requires Fresh(t) && TrimSpace(output) != []
    ensures var w0 := World(t, map[], 0);
            var steps := [Stamp(1, 5), ReadClaim(1), Load(1, 5), Maintain(T.ResetStale(6)), Stamp(2, 7), ReadClaim(2),
                          Load(2, 7), Start(2),
                          Finish(2, Done(output, [], []), env), Start(1)];
            Init(w0) && Run(w0, steps).task.submission.Some? && PhaseOf(Run(w0, steps), 1).Producing?
  {
    hide TrimSpace, T.Apply, T.Finalize;
    var w0 := World(t, map[], 0);
    var u := Holding(t, 5);
    var p := Reset(t);
    var v := Holding(p, 7);
    var saved := v.(submission := Some(T.Submission(output, [], [], 0, env.now)));
    Granted(t, 5);
    Granted(p, 7);
    ResetTo(t);
    SaveUnder(v, 7, output, env.now);
    Chain([Stamp(1, 5), ReadClaim(1), Load(1, 5), Maintain(T.ResetStale(6)), Stamp(2, 7), ReadClaim(2),
           Load(2, 7), Start(2),
           Finish(2, Done(output, [], []), env), Start(1)],
          [w0, World(u, map[1 := Stamped(5)], 5), World(u, map[1 := Claimed(5)], 5), World(u, map[1 := Ready(5)], 5),
           World(p, map[1 := Ready(5)], 5),
           World(v, map[1 := Ready(5), 2 := Stamped(7)], 7), World(v, map[1 := Ready(5), 2 := Claimed(7)], 7),
             World(v, map[1 := Ready(5), 2 := Ready(7)], 7),
           World(v, map[1 := Ready(5), 2 := Producing(7)], 7),
           World(saved, map[1 := Ready(5), 2 := Reviewing(7, output, [], [], 0)], 7),
           World(saved, map[1 := Producing(5), 2 := Reviewing(7, output, [], [], 0)], 7)]);
  }

  lemma {:induction false} Chain(steps: seq<Step>, worlds: seq<World>)
    requires |worlds| == |steps| + 1 && forall i | 0 <= i < |steps| :: worlds[i + 1] == Apply(worlds[i], steps[i])
    ensures Run(worlds[0], steps) == worlds[|steps|]
    decreases |steps|
  {
    hide Apply;
    if steps != [] {
      Chain(steps[1..], worlds[1..]);
    }
  }
}
