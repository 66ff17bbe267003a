/** One task's rows: status, claim, artifact, submission and checkpoint. Each
    transaction is a function on Task; class TaskStore performs the
    multi-statement ones in place. */
module Tasks {
  import opened Common
  import opened Wrappers
  import opened Refs
  import J = Journal

  type Time = J.Time
  type Text = Bytes

  datatype Status = Pending | Running | Paused | Done | Failed | Canceled

  datatype Outcome = Completed | Partial | Blocked | Cancelled

  datatype Row = Row(
    graph: bool,          // executor_version = 2
    scheduled: bool, cadenced: bool, recurringStrategy: bool,
    status: Status, lastRunAt: Option<Time>, deadline: Option<Time>,
    iteration: nat, maxIterations: nat,
    result: Option<Text>, error: Option<Text>)

  datatype Artifact = Artifact(version: nat, outcome: Outcome, body: Text, reason: Text)

  datatype Submission = Submission(output: Text, notify: Text, refs: seq<Ref>, reviewAttempts: nat, nextReviewAt: Time)

  datatype Checkpoint = Checkpoint(claim: Time, iteration: nat, session: Text, phase: Text, output: Text)

  datatype Task = Task(id: J.TaskId, row: Row, artifacts: seq<Artifact>, submission: Option<Submission>,
                       checkpoint: Option<Checkpoint>, journal: J.Journal)

  predicate Active(s: Status) {
    s.Pending? || s.Running? || s.Paused?
  }

  predicate Terminal(s: Status) {
    s.Done? || s.Failed? || s.Canceled?
  }

  predicate OneShot(row: Row) {
    !row.scheduled && !row.cadenced && !row.recurringStrategy
  }

  predicate TaskRunsToCompletion(row: Row) {
    row.graph && OneShot(row)
  }

  function TaskTerminalStatus(row: Row, outcome: Outcome): Status {
    if outcome.Completed? || (outcome.Partial? && TaskRunsToCompletion(row)) then Done
    else if outcome.Cancelled? then Canceled
    else Failed
  }

  /** The row is still held under this claim. */
  predicate HoldsClaim(row: Row, claim: Time) {
    row.status.Running? && row.lastRunAt == Some(claim)
  }

  predicate DeadlinePassed(row: Row, now: Time) {
    row.deadline.Some? && row.deadline.value <= now
  }

  // ---------- finalization ----------

  datatype Finalization = Finalization(
    outcome: Outcome, body: Text, reason: Text, emptyBody: Text, notify: Text, emptyNotify: Text,
    pending: seq<Ref>, claim: Option<Time>, expiredAt: Option<Time>)

  /** Drafts other tables hold, in the order the fallback chain consults them:
      the checked candidates in task progress, the finalize step's candidate, the
      finished steps' text, the formatted unfinished read drafts, and the last
      iteration's output. */
  datatype Drafts = Drafts(responseChecked: bool, safeBody: Text, lastCheckedBody: Text, candidate: Text,
                           finished: Text, unfinished: seq<Text>, iterationOutput: Text)

  datatype Verdict = Lost | Skip | Proceed

  datatype FinalizeResult = Refused | Unchanged | Finalized(artifact: Artifact)

  /** The fences at the head of finalizeTaskTx. */
  function Admit(row: Row, fin: Finalization, now: Time, runLive: bool): Verdict {
    if !Active(row.status) then Skip
    else if row.graph && fin.expiredAt.None? && !fin.outcome.Cancelled? && !runLive then Lost
    else if fin.claim.Some? && !HoldsClaim(row, fin.claim.value) then Lost
    else if fin.expiredAt.Some? && !DeadlinePassed(row, fin.expiredAt.value) then Skip
    else if fin.outcome.Completed? && DeadlinePassed(row, now) then Lost
    else Proceed
  }

  const SEPARATOR: Text := [10, 10]

  function Joined(parts: seq<Text>): Text {
    if parts == [] then []
    else if |parts| == 1 then parts[0]
    else parts[0] + SEPARATOR + Joined(parts[1..])
  }

  /** cleanTaskDraft: strip is the removal of hidden blocks and markers. */
  function Clean(strip: Text -> Text, raw: Text): Text {
    if raw == [] then [] else TrimSpace(strip(raw))
  }

  /** The candidates for the published body, best first. */
  function Candidates(t: Task, fin: Finalization, d: Drafts, strip: Text -> Text): seq<Text> {
    [Clean(strip, fin.body)]
    + (if t.row.graph then
         [if d.responseChecked then Clean(strip, d.safeBody) else [], Clean(strip, d.lastCheckedBody),
          Clean(strip, d.candidate), Joined(Sections(d, strip))]
       else [])
    + [Clean(strip, if t.submission.Some? then t.submission.value.output else []),
       Clean(strip, if t.checkpoint.Some? then t.checkpoint.value.output else []),
       Clean(strip, d.iterationOutput)]
  }

  function Sections(d: Drafts, strip: Text -> Text): seq<Text> {
    (if Clean(strip, d.finished) != [] then [Clean(strip, d.finished)] else []) + d.unfinished
  }

  function FirstNonEmpty(texts: seq<Text>): Text {
    if texts == [] then [] else if texts[0] != [] then texts[0] else FirstNonEmpty(texts[1..])
  }

  function Or(a: Text, b: Text): Text {
    if a != [] then a else b
  }

  lemma {:induction false} FirstOfParts(a: seq<Text>, b: seq<Text>)
    ensures FirstNonEmpty(a + b) == Or(FirstNonEmpty(a), FirstNonEmpty(b))
  {
    if a == [] {
      assert a + b == b;
    } else {
      assert (a + b)[0] == a[0] && (a + b)[1..] == a[1..] + b;
      FirstOfParts(a[1..], b);
    }
  }

  lemma FirstOfFour(a: Text, b: Text, c: Text, d: Text)
    ensures FirstNonEmpty([a, b, c, d]) == Or(a, Or(b, Or(c, d)))
    ensures FirstNonEmpty([b, c, d]) == Or(b, Or(c, d))
    ensures FirstNonEmpty([d]) == d
  {
    FirstOfParts([a], [b, c, d]);
    FirstOfParts([b], [c, d]);
    FirstOfParts([c], [d]);
    assert [a] + [b, c, d] == [a, b, c, d] && [b] + [c, d] == [b, c, d] && [c] + [d] == [c, d];
  }

  function NextVersion(artifacts: seq<Artifact>): nat {
    if artifacts == [] then 1 else artifacts[|artifacts| - 1].version + 1
  }

  function Decimal(n: nat): (d: Bytes)
    ensures d != [] && forall b | b in d :: 48 <= b < 58
  {
    if n < 10 then [48 + n] else Decimal(n / 10) + [48 + n % 10]
  }

  const TASK_RESULT: Bytes := [116, 97, 115, 107, 95, 114, 101, 115, 117, 108, 116]
  const VERSION_PREFIX: Bytes := [118, 101, 114, 115, 105, 111, 110, 58]

  /** task_result / version:N */
  function ResultRef(version: nat): Ref {
    Ref(TASK_RESULT, VERSION_PREFIX + Decimal(version))
  }

  function ResultRefs(fin: Finalization, version: nat): seq<Ref> {
    CleanAll(fin.pending + [ResultRef(version)])
  }

  /** The intent's refs are acceptable and all free. */
  predicate CanQueue(t: Task, refs: seq<Ref>, newId: J.AttemptId) {
    && (forall c | c in refs :: !Oversized(c))
    && (KeptFacts(refs, |refs|); J.CanEnqueue(t.journal, newId, t.id, Kept(refs)))
  }

  function WithResult(t: Task, a: Artifact, reason: Text): Task {
    var status := TaskTerminalStatus(t.row, a.outcome);
    t.(artifacts := t.artifacts + [a],
       row := t.row.(status := status, result := Some(a.body),
                     error := if status.Done? || reason == [] then None else Some(reason)))
  }

  function Finalize(t: Task, fin: Finalization, d: Drafts, strip: Text -> Text, now: Time, runLive: bool,
                    newId: J.AttemptId)
    : (Task, FinalizeResult)
  {
    match Admit(t.row, fin, now, runLive)
    case Lost => (t, Refused)
    case Skip => (t, Unchanged)
    case Proceed =>
      if fin.outcome.Completed? && Clean(strip, fin.body) == [] then (t, Refused)
      else Settled(t, fin, FirstNonEmpty(Candidates(t, fin, d, strip)), now, newId)
  }

  /** Publish the chosen body, or the host's explanation when there is none. */
  function Settled(t: Task, fin: Finalization, found: Text, now: Time, newId: J.AttemptId): (Task, FinalizeResult) {
    var body := if found != [] then found else TrimSpace(fin.emptyBody);
    if body == [] then (t, Refused) else
      var outcome := if found == [] && fin.outcome.Partial? then Blocked else fin.outcome;
      var a := Artifact(NextVersion(t.artifacts), outcome, body, fin.reason);
      var asked := if found == [] then fin.emptyNotify else fin.notify;
      var notify := if outcome.Completed? && TrimSpace(asked) == [] then body else asked;
      var done := WithResult(t, a, fin.reason);
      if TrimSpace(notify) == [] then (done, Finalized(a)) else
        var refs := ResultRefs(fin, a.version);
        if CanQueue(t, refs, newId) then
          KeptFacts(refs, |refs|);
          (done.(journal := J.Enqueue(t.journal, newId, t.id, notify, Kept(refs), now)), Finalized(a))
        else (t, Refused)
  }

  // ---------- the other transitions ----------

  datatype Op =
    | TrySetRunning(now: Time)
    | SetPending
    | UpdateProgress
    | PauseTask
    | Wake
    | ResetStale(before: Time)
    | Complete(result: Text, now: Time)
    | Fail(reason: Text)
    | CompleteExhausted(draft: Text)
    | Expire(now: Time)
    | SetDeadline(at: Time)
    | ClaimGraph(now: Time)
    | YieldGraph
    | CheckpointTask(claim: Time, cp: Checkpoint)
    | SaveSubmission(claim: Time, output: Text, notify: Text, refs: seq<Ref>, now: Time)
    | DeferVerification(claim: Time, next: Time)
    | RejectSubmission(claim: Time)
    | FinalizeTask(fin: Finalization, d: Drafts, strip: Text -> Text, now: Time, runLive: bool, newId: J.AttemptId)

  const EXHAUSTED: Text := Ascii("max_iterations reached without satisfying acceptance criteria")
  const CANCELLED_TEXT: Text := Ascii("Cancelled by user")
  const DEADLINE_EXCEEDED: Text := Ascii("wall_clock_deadline_exceeded")

  /** btrim(x) <> '': SQL trims spaces only. */
  predicate Visible(x: Text) {
    exists b | b in x :: b != 32
  }

  function SetStatus(t: Task, status: Status): Task {
    t.(row := t.row.(status := status))
  }

  function Bumped(t: Task, status: Status): Task {
    t.(row := t.row.(status := status, iteration := t.row.iteration + 1))
  }

  function SaveCheckpoint(t: Task, claim: Time, cp: Checkpoint): Task {
    if cp.session == [] || cp.phase == [] || cp.iteration == 0 || claim == 0 || !HoldsClaim(t.row, claim) then t
    else
      var output := if cp.output == [] && t.checkpoint.Some? then t.checkpoint.value.output else cp.output;
      t.(checkpoint := Some(cp.(claim := claim, output := output)))
  }

  function Apply(t: Task, op: Op): Task {
    var row := t.row;
    match op
    case TrySetRunning(now) =>
      if !row.graph && row.status.Pending? && !DeadlinePassed(row, now)
      then t.(row := row.(status := Running, lastRunAt := Some(now))) else t
    case SetPending => if row.status.Running? then SetStatus(t, Pending) else t
    case UpdateProgress => if row.status.Running? then Bumped(t, Pending) else t
    case PauseTask => if row.status.Running? then Bumped(t, Paused) else t
    case Wake => if row.status.Paused? then SetStatus(t, Pending) else t
    case ResetStale(before) =>
      if !row.graph && row.status.Running? && row.lastRunAt.Some? && row.lastRunAt.value < before
      then SetStatus(t, Pending) else t
    case Complete(result, now) =>
      if row.status.Running? && !DeadlinePassed(row, now)
      then t.(row := row.(status := Done, result := Some(result), iteration := row.iteration + 1)) else t
    case Fail(reason) => t.(row := row.(status := Failed, error := Some(reason)))
    case CompleteExhausted(draft) =>
      if !row.graph && row.status.Pending? && !row.scheduled && row.maxIterations > 0
        && row.iteration >= row.maxIterations
      then
        var kept := row.result.Some? && Visible(row.result.value) && row.result.value != CANCELLED_TEXT;
        t.(row := row.(status := Failed, error := if row.error.Some? then row.error else Some(EXHAUSTED),
                       result := if kept then row.result else Some(if draft != [] then draft else EXHAUSTED)))
      else t
    case Expire(now) =>
      if !row.graph && Active(row.status) && DeadlinePassed(row, now)
      then t.(row := row.(status := Failed, error := Some(DEADLINE_EXCEEDED))) else t
    case SetDeadline(at) =>
      if !row.graph && Active(row.status) && (row.deadline.None? || row.deadline.value > at)
      then t.(row := row.(deadline := Some(at))) else t
    case ClaimGraph(now) =>
      if row.graph && (row.status.Pending? || row.status.Running?) && !DeadlinePassed(row, now)
      then t.(row := row.(status := Running, lastRunAt := Some(now))) else t
    case YieldGraph => if row.graph && row.status.Running? then SetStatus(t, Pending) else t
    case CheckpointTask(claim, cp) => SaveCheckpoint(t, claim, cp)
    case SaveSubmission(claim, output, notify, refs, now) =>
      if HoldsClaim(row, claim) then t.(submission := Some(Submission(output, notify, refs, 0, now))) else t
    case DeferVerification(claim, next) =>
      if HoldsClaim(row, claim) && t.submission.Some?
      then SetStatus(t, Pending).(submission := Some(t.submission.value.(
             reviewAttempts := t.submission.value.reviewAttempts + 1, nextReviewAt := next)))
      else t
    case RejectSubmission(claim) => if HoldsClaim(row, claim) then Bumped(t, Pending).(submission := None) else t
    case FinalizeTask(fin, d, strip, now, runLive, newId) => Finalize(t, fin, d, strip, now, runLive, newId).0
  }

  function Run(t: Task, ops: seq<Op>): Task
    decreases |ops|
  {
    if ops == [] then t else Run(Apply(t, ops[0]), ops[1..])
  }

  // ---------- finalization is atomic ----------

  /** task_result and version:N start and end in visible ASCII. */
  lemma ResultRefIsClean(version: nat)
    ensures Cleaned(ResultRef(version)) == ResultRef(version)
  {
    var d := Decimal(version);
    var key := VERSION_PREFIX + d;
    assert key[0] == 118 && key[|key| - 1] == d[|d| - 1] && d[|d| - 1] in d;
    assert key[|key| - 2] == if |d| == 1 then 58 else d[|d| - 2];
    assert |d| > 1 ==> d[|d| - 2] in d;
    VisibleEdges(key);
    VisibleEdges(TASK_RESULT);
  }

  lemma VisibleEdges(s: Bytes)
    requires |s| >= 2 && 48 <= s[0] < 128 && 48 <= s[|s| - 1] < 128
    ensures TrimSpace(s) == s
  {
  }

  lemma ResultRefIsKept(fin: Finalization, version: nat)
    ensures ResultRef(version) in Kept(ResultRefs(fin, version)) && Distinct(Kept(ResultRefs(fin, version)))
  {
    hide KeptOf, TrimSpace, Decimal;
    var refs := ResultRefs(fin, version);
    KeptFacts(refs, |refs|);
    assert refs[..|refs|] == refs;
    ResultRefIsClean(version);
    assert refs[|refs| - 1] == ResultRef(version);
  }

  lemma AcceptedBodyComesFirst(t: Task, fin: Finalization, d: Drafts, strip: Text -> Text)
    requires Clean(strip, fin.body) != []
    ensures FirstNonEmpty(Candidates(t, fin, d, strip)) == Clean(strip, fin.body)
    ensures TrimSpace(Clean(strip, fin.body)) == Clean(strip, fin.body)
  {
    hide TrimSpace;
    TrimIdempotent(strip(fin.body));
    assert Candidates(t, fin, d, strip)[0] == Clean(strip, fin.body);
  }

  lemma SettledRows(t: Task, fin: Finalization, found: Text, now: Time, newId: J.AttemptId)
    ensures var (v, r) := Settled(t, fin, found, now, newId);
            && (!r.Finalized? ==> v == t)
            && (r.Finalized? ==>
                  && v.artifacts == t.artifacts + [r.artifact] && r.artifact.body != []
                     && r.artifact.version == NextVersion(t.artifacts)
                  && v.row == t.row.(status := TaskTerminalStatus(t.row, r.artifact.outcome),
                                     result := Some(r.artifact.body), error := v.row.error)
                  && v.submission == t.submission && v.checkpoint == t.checkpoint
                  && (found != [] ==> r.artifact.body == found && r.artifact.outcome == fin.outcome))
  {
    hide TrimSpace, CanQueue, J.Enqueue, KeptOf, ResultRefs;
  }

  lemma SettledIntent(t: Task, fin: Finalization, found: Text, now: Time, newId: J.AttemptId)
    ensures var (v, r) := Settled(t, fin, found, now, newId);
            r.Finalized? ==>
              && (v.journal == t.journal || QueuedFor(t, v, newId, NextVersion(t.artifacts)))
              && (fin.outcome.Completed? && found != [] && TrimSpace(found) == found ==>
                    QueuedFor(t, v, newId, NextVersion(t.artifacts)))
  {
    hide TrimSpace, KeptOf, ResultRef;
    var (v, r) := Settled(t, fin, found, now, newId);
    if r.Finalized? && v.journal != t.journal {
      var version := NextVersion(t.artifacts);
      ResultRefIsKept(fin, version);
      var kept := Kept(ResultRefs(fin, version));
      J.ReserveFacts(t.journal.items, t.id, kept, |kept|, newId);
      assert kept[..|kept|] == kept;
    }
  }

  /** Everything or nothing: a finalization that is refused or skipped changes
      nothing; one that succeeds was due, adds one artifact with a new version and
      a non-empty body, makes that body the result, ends the task, and, for a
      completed outcome always, queues a retryable intent that has never been
      sent and holds task_result for that version. */
  lemma FinalizationIsAtomic(t: Task, fin: Finalization, d: Drafts, strip: Text -> Text, now: Time, runLive: bool,
                             newId: J.AttemptId)
    ensures var (v, r) := Finalize(t, fin, d, strip, now, runLive, newId);
            && (!r.Finalized? ==> v == t)
            && (r.Finalized? ==>
                  && Active(t.row.status) && Terminal(v.row.status)
                  && (fin.claim.Some? ==> HoldsClaim(t.row, fin.claim.value))
                  && v.artifacts == t.artifacts + [r.artifact] && r.artifact.body != []
                  && (t.artifacts != [] ==> r.artifact.version > t.artifacts[|t.artifacts| - 1].version)
                  && v.row.result == Some(r.artifact.body)
                  && v.row == t.row.(status := v.row.status, result := v.row.result, error := v.row.error)
                  && (r.artifact.outcome.Completed? ==> Clean(strip, fin.body) != [])
                  && (Clean(strip, fin.body) != [] ==>
                        r.artifact.body == Clean(strip, fin.body) && r.artifact.outcome == fin.outcome)
                  && v.row.status == TaskTerminalStatus(t.row, r.artifact.outcome)
                  && (v.row.status.Done?
                      <==> (r.artifact.outcome.Completed?
                            || (r.artifact.outcome.Partial? && TaskRunsToCompletion(t.row))))
                  && v.submission == t.submission && v.checkpoint == t.checkpoint
                  && (v.journal == t.journal || QueuedFor(t, v, newId, r.artifact.version))
                  && (r.artifact.outcome.Completed? ==> QueuedFor(t, v, newId, r.artifact.version)))
  {
    hide TrimSpace, FirstNonEmpty, Candidates, Clean, Settled, QueuedFor;
    if Clean(strip, fin.body) != [] {
      AcceptedBodyComesFirst(t, fin, d, strip);
    }
    var found := FirstNonEmpty(Candidates(t, fin, d, strip));
    SettledRows(t, fin, found, now, newId);
    SettledIntent(t, fin, found, now, newId);
    SettledCompleted(t, fin, found, now, newId);
  }

  lemma SettledCompleted(t: Task, fin: Finalization, found: Text, now: Time, newId: J.AttemptId)
    ensures var r := Settled(t, fin, found, now, newId).1;
            r.Finalized? ==> (r.artifact.outcome.Completed? ==> fin.outcome.Completed?)
  {
    hide TrimSpace, CanQueue, J.Enqueue, KeptOf, ResultRefs;
  }

  ghost predicate QueuedFor(t: Task, v: Task, newId: J.AttemptId, version: nat) {
    && newId !in t.journal.attempts && newId in v.journal.attempts
    && v.journal.attempts[newId].state == J.Retryable && v.journal.attempts[newId].sends == 0
    && TrimSpace(v.journal.attempts[newId].text) != []
    && J.Owns(v.journal, newId, t.id, ResultRef(version))
    && (forall id | id in t.journal.attempts ::
          id in v.journal.attempts && v.journal.attempts[id] == t.journal.attempts[id])
  }

  lemma {:induction false} FirstIsFound(texts: seq<Text>)
    ensures FirstNonEmpty(texts) == [] <==> forall c | c in texts :: c == []
    ensures FirstNonEmpty(texts) != [] ==> FirstNonEmpty(texts) in texts
  {
    if texts != [] {
      FirstIsFound(texts[1..]);
      assert texts == [texts[0]] + texts[1..] && texts[0] in texts;
      assert forall c :: c in texts <==> c == texts[0] || c in texts[1..];
    }
  }

  lemma CandidatesInTurn(t: Task, fin: Finalization, d: Drafts, strip: Text -> Text)
    ensures var found := FirstNonEmpty(Candidates(t, fin, d, strip));
            found == Or(Clean(strip, fin.body),
                        Or(if t.row.graph then FromGraph(d, strip) else [], FromTask(t, d, strip)))
  {
    hide Clean, Joined, FirstNonEmpty;
    var all := Candidates(t, fin, d, strip);
    var n := |all| - 3;
    FirstOfFour(all[0], all[n], all[n + 1], all[n + 2]);
    if t.row.graph {
      FirstOfFour(all[1], all[2], all[3], all[4]);
      FirstOfFour([], [], [], all[0]);
      assert all == [all[0]] + ([all[1], all[2], all[3], all[4]] + [all[5], all[6], all[7]]);
      FirstOfParts([all[0]], [all[1], all[2], all[3], all[4]] + [all[5], all[6], all[7]]);
      FirstOfParts([all[1], all[2], all[3], all[4]], [all[5], all[6], all[7]]);
    } else {
      assert all == [all[0], all[1], all[2], all[3]];
    }
  }

  /** The best draft in a graph task's tables, and in those of any task. */
  function FromGraph(d: Drafts, strip: Text -> Text): Text {
    Or(if d.responseChecked then Clean(strip, d.safeBody) else [],
       Or(Clean(strip, d.lastCheckedBody), Or(Clean(strip, d.candidate), Joined(Sections(d, strip)))))
  }

  function FromTask(t: Task, d: Drafts, strip: Text -> Text): Text {
    Or(Clean(strip, if t.submission.Some? then t.submission.value.output else []),
       Or(Clean(strip, if t.checkpoint.Some? then t.checkpoint.value.output else []), Clean(strip, d.iterationOutput)))
  }

  /** What a graph task ending without a text of its own publishes. A body the guard has
      checked, the current one before the last one, is never passed over for a draft it has
      not seen; then the finalize step's candidate; then the finished steps' text,
      followed by every formatted unfinished draft. */
  lemma CheckedBodyIsPublished(t: Task, fin: Finalization, d: Drafts, strip: Text -> Text, now: Time, runLive: bool,
                               newId: J.AttemptId)
    requires t.row.graph && Clean(strip, fin.body) == []
    requires Finalize(t, fin, d, strip, now, runLive, newId).1.Finalized?
    ensures var a := Finalize(t, fin, d, strip, now, runLive, newId).1.artifact;
            var (safe, last, draft) := (Clean(strip, d.safeBody), Clean(strip, d.lastCheckedBody),
                                        Clean(strip, d.candidate));
            && (d.responseChecked && safe != [] ==> a.body == safe && a.outcome == fin.outcome)
            && ((!d.responseChecked || safe == []) && last != [] ==> a.body == last && a.outcome == fin.outcome)
            && ((!d.responseChecked || safe == []) && last == [] && draft != [] ==>
                  a.body == draft && a.outcome == fin.outcome)
            && ((!d.responseChecked || safe == []) && last == [] && draft == [] ==>
                  (Clean(strip, d.finished) != [] ==> Clean(strip, d.finished) <= a.body)
                  && forall k | 0 <= k < |d.unfinished| :: Appears(d.unfinished[k], a.body))
  {
    hide Clean, Candidates, FirstNonEmpty, Settled, Joined, Sections;
    var found := FirstNonEmpty(Candidates(t, fin, d, strip));
    CandidatesInTurn(t, fin, d, strip);
    SettledRows(t, fin, found, now, newId);
    SectionsAppear(d, strip);
    hide Appears;
    var body := Finalize(t, fin, d, strip, now, runLive, newId).1.artifact.body;
    forall k | 0 <= k < |d.unfinished| && Joined(Sections(d, strip)) == []
      ensures Appears(d.unfinished[k], body)
    {
      EmptyAppears(d.unfinished[k], body);
    }
  }

  lemma EmptyAppears(part: Text, whole: Text)
    requires Appears(part, [])
    ensures Appears(part, whole)
  {
    assert part <= whole[0..];
  }

  ghost predicate Appears(part: Text, whole: Text) {
    exists i | 0 <= i <= |whole| :: part <= whole[i..]
  }

  lemma SectionsAppear(d: Drafts, strip: Text -> Text)
    ensures Clean(strip, d.finished) != [] ==> Clean(strip, d.finished) <= Joined(Sections(d, strip))
    ensures forall k | 0 <= k < |d.unfinished| :: Appears(d.unfinished[k], Joined(Sections(d, strip)))
  {
    hide Clean, Appears;
    var parts := Sections(d, strip);
    if Clean(strip, d.finished) != [] {
      JoinedStarts(parts);
      assert parts[0] == Clean(strip, d.finished);
    }
    forall k | 0 <= k < |d.unfinished|
      ensures Appears(d.unfinished[k], Joined(Sections(d, strip)))
    {
      var n := |parts| - |d.unfinished| + k;
      assert parts[n] == d.unfinished[k];
      JoinedHolds(parts, n);
    }
  }

  lemma JoinedStarts(parts: seq<Text>)
    requires parts != []
    ensures parts[0] <= Joined(parts)
  {
  }

  lemma {:induction false} JoinedHolds(parts: seq<Text>, k: nat)
    requires k < |parts|
    ensures Appears(parts[k], Joined(parts))
    decreases k
  {
    if k == 0 {
      JoinedStarts(parts);
      assert Joined(parts)[0..] == Joined(parts);
    } else {
      JoinedHolds(parts[1..], k - 1);
      var rest := Joined(parts[1..]);
      var j :| 0 <= j <= |rest| && parts[k] <= rest[j..];
      assert Joined(parts) == parts[0] + SEPARATOR + rest;
      var i := |parts[0]| + |SEPARATOR| + j;
      assert Joined(parts)[i..] == rest[j..];
    }
  }

  /** And any task, when none of that was found: its submission, else its checkpoint, else
      the last iteration's output, else the explanation it was given, as blocked if it
      was to be partial. */
  lemma RestOfTheChain(t: Task, fin: Finalization, d: Drafts, strip: Text -> Text, now: Time, runLive: bool,
                       newId: J.AttemptId)
    requires Clean(strip, fin.body) == []
    requires t.row.graph ==> (!d.responseChecked || Clean(strip, d.safeBody) == []) && d.unfinished == []
                             && Clean(strip, d.lastCheckedBody) == [] && Clean(strip, d.candidate) == []
                             && Clean(strip, d.finished) == []
    requires Finalize(t, fin, d, strip, now, runLive, newId).1.Finalized?
    ensures var a := Finalize(t, fin, d, strip, now, runLive, newId).1.artifact;
            var submitted := Clean(strip, if t.submission.Some? then t.submission.value.output else []);
            var saved := Clean(strip, if t.checkpoint.Some? then t.checkpoint.value.output else []);
            var last := Clean(strip, d.iterationOutput);
            && (submitted != [] ==> a.body == submitted)
            && (submitted == [] && saved != [] ==> a.body == saved)
            && (submitted == [] && saved == [] && last != [] ==> a.body == last)
            && (submitted != [] || saved != [] || last != [] ==> a.outcome == fin.outcome)
            && (submitted == [] && saved == [] && last == [] ==>
                  a.body == TrimSpace(fin.emptyBody)
                  && a.outcome == if fin.outcome.Partial? then Blocked else fin.outcome)
  {
    hide Clean, Candidates, FirstNonEmpty, TrimSpace, CanQueue, J.Enqueue, ResultRefs, KeptOf;
    CandidatesInTurn(t, fin, d, strip);
    assert Joined([]) == [];
  }

  /** What a finalization leaves of the task besides the report: its status and error, and
      the message it owes the user, with exactly the refs that message covers. */
  lemma WhatIsRecorded(t: Task, fin: Finalization, d: Drafts, strip: Text -> Text, now: Time, runLive: bool,
                       newId: J.AttemptId)
    requires Finalize(t, fin, d, strip, now, runLive, newId).1.Finalized?
    ensures var (v, r) := Finalize(t, fin, d, strip, now, runLive, newId);
            var (a, row) := (r.artifact, v.row);
            && a.reason == fin.reason && (t.artifacts == [] ==> a.version == 1)
            && (row.status == Done
                <==> a.outcome == Completed || (a.outcome == Partial && t.row.graph && !t.row.scheduled
                                                && !t.row.cadenced && !t.row.recurringStrategy))
            && (row.status == Canceled <==> a.outcome == Cancelled)
            && row.error == (if row.status == Done || fin.reason == [] then None else Some(fin.reason))
    ensures var (v, r) := Finalize(t, fin, d, strip, now, runLive, newId);
            var nothing := forall c | c in Candidates(t, fin, d, strip) :: c == [];
            var asked := if nothing then fin.emptyNotify else fin.notify;
            if TrimSpace(asked) != [] then Owes(t, v, newId, asked, fin.pending, r.artifact.version, now)
            else if r.artifact.outcome == Completed
              then Owes(t, v, newId, r.artifact.body, fin.pending, r.artifact.version, now)
            else v.journal == t.journal
  {
    hide Clean, Candidates, FirstNonEmpty, TrimSpace, Settled, Owes, Admit, TaskTerminalStatus, NextVersion;
    var found := FirstNonEmpty(Candidates(t, fin, d, strip));
    FirstIsFound(Candidates(t, fin, d, strip));
    SettledStatus(t, fin, found, now, newId);
    SettledNotice(t, fin, found, now, newId);
    if Clean(strip, fin.body) != [] {
      AcceptedBodyComesFirst(t, fin, d, strip);
      SettledRows(t, fin, found, now, newId);
    }
    SettledCompleted(t, fin, found, now, newId);
  }

  lemma OutcomeIsAskedOrBlocked(t: Task, fin: Finalization, d: Drafts, strip: Text -> Text, now: Time, runLive: bool,
                                newId: J.AttemptId)
    requires Finalize(t, fin, d, strip, now, runLive, newId).1.Finalized?
    ensures var a := Finalize(t, fin, d, strip, now, runLive, newId).1.artifact;
            a.outcome == if fin.outcome == Partial && forall c | c in Candidates(t, fin, d, strip) :: c == []
                         then Blocked else fin.outcome
  {
    hide Clean, Candidates, FirstNonEmpty, TrimSpace, CanQueue, J.Enqueue, KeptOf, ResultRefs;
    FirstIsFound(Candidates(t, fin, d, strip));
  }

  /** The message newId was queued, for these refs and task_result at this version. */
  ghost predicate Owes(t: Task, v: Task, newId: J.AttemptId, text: Text, pending: seq<Ref>, version: nat, now: Time) {
    && newId !in t.journal.attempts && t.id in t.journal.tasks
    && v.journal.attempts.Keys == t.journal.attempts.Keys + {newId}
    && v.journal.attempts[newId].task == t.id && v.journal.attempts[newId].user == t.journal.tasks[t.id]
    && v.journal.attempts[newId].text == text && v.journal.attempts[newId].sends == 0 && J.Due(v.journal, newId, now)
    && (forall x :: J.Owns(v.journal, newId, t.id, x)
                    <==> J.Owns(t.journal, newId, t.id, x) || x == ResultRef(version)
                         || exists i :: 0 <= i < |pending| && x == Cleaned(pending[i]) && !Blank(x))
    && (forall x | exists i :: 0 <= i < |pending| && x == Cleaned(pending[i]) && !Blank(x) ::
          (t.id, x) !in t.journal.items)
    && (forall id, task, x | id != newId && J.Owns(t.journal, id, task, x) :: J.Owns(v.journal, id, task, x))
    && forall id | id in t.journal.attempts :: v.journal.attempts[id] == t.journal.attempts[id]
  }

  lemma SettledStatus(t: Task, fin: Finalization, found: Text, now: Time, newId: J.AttemptId)
    requires Settled(t, fin, found, now, newId).1.Finalized?
    ensures var (v, r) := Settled(t, fin, found, now, newId);
            var (a, row) := (r.artifact, v.row);
            && a.reason == fin.reason && (t.artifacts == [] ==> a.version == 1)
            && (row.status == Done
                <==> a.outcome == Completed || (a.outcome == Partial && t.row.graph && !t.row.scheduled
                                                && !t.row.cadenced && !t.row.recurringStrategy))
            && (row.status == Canceled <==> a.outcome == Cancelled)
            && row.error == (if row.status == Done || fin.reason == [] then None else Some(fin.reason))
  {
    hide TrimSpace, CanQueue, J.Enqueue, KeptOf, ResultRefs;
  }

  lemma SettledNotice(t: Task, fin: Finalization, found: Text, now: Time, newId: J.AttemptId)
    requires Settled(t, fin, found, now, newId).1.Finalized?
    ensures var (v, r) := Settled(t, fin, found, now, newId);
            var asked := if found == [] then fin.emptyNotify else fin.notify;
            if TrimSpace(asked) != [] then Owes(t, v, newId, asked, fin.pending, r.artifact.version, now)
            else if r.artifact.outcome == Completed && TrimSpace(r.artifact.body) != []
              then Owes(t, v, newId, r.artifact.body, fin.pending, r.artifact.version, now)
            else v.journal == t.journal
  {
    hide TrimSpace, Owes, J.Enqueue, KeptOf, ResultRefs;
    var (v, r) := Settled(t, fin, found, now, newId);
    var asked := if found == [] then fin.emptyNotify else fin.notify;
    var notice := if r.artifact.outcome.Completed? && TrimSpace(asked) == [] then r.artifact.body else asked;
    if TrimSpace(notice) != [] {
      QueuedIsOwed(t, fin, v, notice, now, newId);
    }
  }

  lemma QueuedIsOwed(t: Task, fin: Finalization, v: Task, text: Text, now: Time, newId: J.AttemptId)
    requires var refs := ResultRefs(fin, NextVersion(t.artifacts));
             CanQueue(t, refs, newId)
             && (KeptFacts(refs, |refs|); v.journal == J.Enqueue(t.journal, newId, t.id, text, Kept(refs), now))
    ensures Owes(t, v, newId, text, fin.pending, NextVersion(t.artifacts), now)
  {
    hide TrimSpace, KeptOf, ResultRef, Cleaned, NextVersion, J.Enqueue, J.Due;
    var version := NextVersion(t.artifacts);
    var refs := ResultRefs(fin, version);
    KeptFacts(refs, |refs|);
    J.QueuedRow(t.journal, newId, t.id, text, Kept(refs), now);
    ResultRefsAre(fin, version);
    EnqueueKeys(t.journal, newId, t.id, text, Kept(refs), now);
  }

  lemma EnqueueKeys(j: J.Journal, newId: J.AttemptId, task: J.TaskId, text: Text, refs: seq<Ref>, now: Time)
    requires Distinct(refs) && task in j.tasks
    ensures J.Enqueue(j, newId, task, text, refs, now).attempts.Keys == j.attempts.Keys + {newId}
  {
  }

  lemma ResultRefsAre(fin: Finalization, version: nat)
    ensures forall x :: x in Kept(ResultRefs(fin, version))
                        <==> x == ResultRef(version)
                             || exists i :: 0 <= i < |fin.pending| && x == Cleaned(fin.pending[i]) && !Blank(x)
  {
    hide TrimSpace, KeptOf, Cleaned, ResultRef;
    var refs := ResultRefs(fin, version);
    var n := |fin.pending|;
    KeptFacts(refs, |refs|);
    ResultRefIsKept(fin, version);
    ResultRefIsClean(version);
    assert refs[..|refs|] == refs && refs[n] == ResultRef(version);
    assert forall i | 0 <= i < n :: refs[i] == Cleaned(fin.pending[i]);
  }

  /** The body a finalization publishes, and the text it queues with it. */
  function ChosenBody(t: Task, fin: Finalization, d: Drafts, strip: Text -> Text): Text {
    var found := FirstNonEmpty(Candidates(t, fin, d, strip));
    if found != [] then found else TrimSpace(fin.emptyBody)
  }

  function Notice(t: Task, fin: Finalization, d: Drafts, strip: Text -> Text): Text {
    var found := FirstNonEmpty(Candidates(t, fin, d, strip));
    var asked := if found == [] then fin.emptyNotify else fin.notify;
    if fin.outcome.Completed? && TrimSpace(asked) == [] then ChosenBody(t, fin, d, strip) else asked
  }

  /** What a caller can check beforehand: the task has not ended; a graph task's run is live,
      unless it expires or is cancelled; a worker's claim stands; an expiry is due; a
      completed result is in time and has a text; there is a body; and, if anything is to be
      queued, the refs, the key and the id are free. */
  predicate Commits(t: Task, fin: Finalization, d: Drafts, strip: Text -> Text, now: Time, runLive: bool,
                    newId: J.AttemptId) {
    && t.row.status in {Pending, Running, Paused}
    && (t.row.graph ==> runLive || fin.expiredAt.Some? || fin.outcome == Cancelled)
    && (fin.claim.Some? ==> t.row.status == Running && t.row.lastRunAt == fin.claim)
    && (fin.expiredAt.Some? ==> t.row.deadline.Some? && t.row.deadline.value <= fin.expiredAt.value)
    && (fin.outcome == Completed ==>
          Clean(strip, fin.body) != [] && (t.row.deadline.None? || t.row.deadline.value > now))
    && ChosenBody(t, fin, d, strip) != []
    && (TrimSpace(Notice(t, fin, d, strip)) == [] || CanQueue(t, ResultRefs(fin, NextVersion(t.artifacts)), newId))
  }

  lemma FinalizationCommitsExactlyWhen(t: Task, fin: Finalization, d: Drafts, strip: Text -> Text, now: Time,
                                       runLive: bool, newId: J.AttemptId)
    ensures Finalize(t, fin, d, strip, now, runLive, newId).1.Finalized?
            <==> Commits(t, fin, d, strip, now, runLive, newId)
    ensures Finalize(t, fin, d, strip, now, runLive, newId).1.Unchanged?
            <==> t.row.status in {Done, Failed, Canceled}
                 || ((t.row.graph ==> runLive || fin.expiredAt.Some? || fin.outcome == Cancelled)
                     && (fin.claim.Some? ==> t.row.status == Running && t.row.lastRunAt == fin.claim)
                     && fin.expiredAt.Some? && (t.row.deadline.None? || t.row.deadline.value > fin.expiredAt.value))
  {
    hide TrimSpace, KeptOf, FirstNonEmpty, Candidates, Clean, CanQueue, ResultRefs, J.Enqueue;
  }

  /** With text of its own to publish, a finalization commits exactly if it is
      admitted and either asks for no notice or can queue one. */
  lemma OwnTextCommitsExactlyWhen(t: Task, fin: Finalization, d: Drafts, strip: Text -> Text, now: Time, runLive: bool,
                                  newId: J.AttemptId)
    requires Clean(strip, fin.body) != []
    ensures Finalize(t, fin, d, strip, now, runLive, newId).1.Finalized?
            <==> Admit(t.row, fin, now, runLive).Proceed?
                 && ((!fin.outcome.Completed? && TrimSpace(fin.notify) == [])
                     || CanQueue(t, ResultRefs(fin, NextVersion(t.artifacts)), newId))
  {
    hide TrimSpace, KeptOf, FirstNonEmpty, Candidates, Clean, CanQueue, ResultRefs, J.Enqueue, Finalize;
    AcceptedBodyComesFirst(t, fin, d, strip);
    FinalizationCommitsExactlyWhen(t, fin, d, strip, now, runLive, newId);
  }

  /** Exactly when a completed finalization of an admitted task commits. A body
      of nothing but hidden blocks and markers never does, and neither does one
      whose pending refs another attempt already reserved: this insert has no
      ON CONFLICT clause, so the whole transaction rolls back, every time. */
  lemma CompletedCommitsExactlyWhen(t: Task, fin: Finalization, d: Drafts, strip: Text -> Text, now: Time,
                                    runLive: bool, newId: J.AttemptId)
    requires fin.outcome.Completed? && Admit(t.row, fin, now, runLive).Proceed?
    ensures Finalize(t, fin, d, strip, now, runLive, newId).1.Finalized?
            <==> Clean(strip, fin.body) != [] && CanQueue(t, ResultRefs(fin, NextVersion(t.artifacts)), newId)
    ensures (exists r :: r in Kept(CleanAll(fin.pending)) && (t.id, r) in t.journal.items)
            ==> Finalize(t, fin, d, strip, now, runLive, newId) == (t, Refused)
  {
    hide TrimSpace, KeptOf, FirstNonEmpty, Candidates, Clean, Cleaned, ResultRef;
    if Clean(strip, fin.body) != [] {
      AcceptedBodyComesFirst(t, fin, d, strip);
    }
    var refs := ResultRefs(fin, NextVersion(t.artifacts));
    if r :| r in Kept(CleanAll(fin.pending)) && (t.id, r) in t.journal.items {
      var pending := CleanAll(fin.pending);
      KeptFacts(pending, |pending|);
      KeptFacts(refs, |refs|);
      assert pending[..|pending|] == pending && refs[..|refs|] == refs;
      var i :| 0 <= i < |pending| && pending[i] == r;
      assert refs[i] == r;
    }
  }

  // ---------- one-shot results are final ----------

  /** The reason of the last unconditional Fail, if there is one. */
  function LastFailure(ops: seq<Op>): Option<Text> {
    if ops == [] then None
    else if ops[|ops| - 1].Fail? then Some(ops[|ops| - 1].reason)
    else LastFailure(ops[..|ops| - 1])
  }

  lemma TerminalStep(t: Task, op: Op)
    requires Terminal(t.row.status)
    ensures Apply(t, op) == if op.Fail? then t.(row := t.row.(status := Failed, error := Some(op.reason))) else t
  {
    hide Settled, Candidates, Clean, FirstNonEmpty;
  }

  lemma {:induction false} RunSplit(t: Task, a: seq<Op>, b: seq<Op>)
    ensures Run(t, a + b) == Run(Run(t, a), b)
    decreases |a|
  {
    if a == [] {
      assert a + b == b;
    } else {
      assert (a + b)[0] == a[0] && (a + b)[1..] == a[1..] + b;
      RunSplit(Apply(t, a[0]), a[1..], b);
    }
  }

  lemma RunLast(t: Task, ops: seq<Op>)
    requires ops != []
    ensures Run(t, ops) == Apply(Run(t, ops[..|ops| - 1]), ops[|ops| - 1])
  {
    var n := |ops| - 1;
    RunSplit(t, ops[..n], ops[n..]);
    assert ops == ops[..n] + ops[n..];
    assert ops[n..] == [ops[n]] && ops[n..][1..] == [];
  }

  /** A one-shot task that ended stays ended: whatever runs afterwards, its
      result, artifacts, submission, checkpoint and queued intents are untouched.
      Only Fail, which has no guard, can still relabel it. */
  lemma {:induction false} TerminalIsFinal(t: Task, ops: seq<Op>)
    requires Terminal(t.row.status)
    ensures Terminal(Run(t, ops).row.status)
    ensures Run(t, ops) == match LastFailure(ops)
                           case None => t
                           case Some(reason) => t.(row := t.row.(status := Failed, error := Some(reason)))
    decreases |ops|
  {
    if ops != [] {
      var n := |ops| - 1;
      TerminalIsFinal(t, ops[..n]);
      RunLast(t, ops);
      TerminalStep(Run(t, ops[..n]), ops[n]);
    }
  }

  /** The guard Fail lacks, by example: a delivered result becomes a failure. */
  lemma FailRelabelsDone(t: Task, reason: Text)
    requires t.row.status.Done? && t.artifacts != []
    ensures Run(t, [Fail(reason)]).row.status.Failed? && Run(t, [Fail(reason)]).artifacts == t.artifacts
  {
    TerminalIsFinal(t, [Fail(reason)]);
  }

  /** A task never accumulates a second artifact, and the one it has is its result. */
  ghost predicate SingleArtifact(t: Task) {
    && |t.artifacts| <= 1
    && (t.artifacts != [] ==>
          Terminal(t.row.status) && t.row.result == Some(t.artifacts[0].body) && t.artifacts[0].body != [])
  }

  lemma ArtifactStep(t: Task, op: Op)
    requires SingleArtifact(t)
    ensures SingleArtifact(Apply(t, op))
  {
    hide Finalize, TrimSpace;
    if Terminal(t.row.status) {
      TerminalStep(t, op);
    } else if op.FinalizeTask? {
      FinalizationIsAtomic(t, op.fin, op.d, op.strip, op.now, op.runLive, op.newId);
    }
  }

  lemma {:induction false} AtMostOneArtifact(t: Task, ops: seq<Op>)
    requires SingleArtifact(t)
    ensures SingleArtifact(Run(t, ops))
    decreases |ops|
  {
    if ops != [] {
      ArtifactStep(t, ops[0]);
      AtMostOneArtifact(Apply(t, ops[0]), ops[1..]);
    }
  }

  ghost predicate NoLaterDeadline(t: Task, v: Task) {
    t.row.deadline.Some? ==> v.row.deadline.Some? && v.row.deadline.value <= t.row.deadline.value
  }

  /** A deadline once stored is never lifted or moved back. */
  lemma {:induction false} DeadlineOnlyTightens(t: Task, ops: seq<Op>)
    ensures NoLaterDeadline(t, Run(t, ops))
    decreases |ops|
  {
    hide Apply;
    if ops != [] {
      DeadlineStep(t, ops[0]);
      DeadlineOnlyTightens(Apply(t, ops[0]), ops[1..]);
    }
  }

  predicate Completes(op: Op) {
    op.Complete? || (op.FinalizeTask? && op.fin.outcome.Completed?)
  }

  /** Nor is a task past its deadline claimed or completed, by either transition. */
  lemma DeadlineStep(t: Task, op: Op)
    ensures NoLaterDeadline(t, Apply(t, op))
    ensures Completes(op) && DeadlinePassed(t.row, op.now) ==> Apply(t, op) == t
    ensures (op.TrySetRunning? || op.ClaimGraph?) && DeadlinePassed(t.row, op.now) ==> Apply(t, op) == t
    ensures op.SetDeadline? && !t.row.graph && t.row.status in {Pending, Running, Paused} ==>
              Apply(t, op) == t.(row := t.row.(deadline :=
                  if t.row.deadline.Some? && t.row.deadline.value <= op.at then t.row.deadline else Some(op.at)))
    ensures op.Expire? && !t.row.graph && t.row.status in {Pending, Running, Paused}
            && t.row.deadline.Some? && t.row.deadline.value <= op.now ==>
              Apply(t, op).row.status == Failed && Apply(t, op).artifacts == t.artifacts
  {
    hide Finalize;
    if op.FinalizeTask? {
      FinalizationIsAtomic(t, op.fin, op.d, op.strip, op.now, op.runLive, op.newId);
      LateCompletionIsRefused(t, op.fin, op.d, op.strip, op.now, op.runLive, op.newId);
    }
  }

  lemma LateCompletionIsRefused(t: Task, fin: Finalization, d: Drafts, strip: Text -> Text, now: Time, runLive: bool,
                                newId: J.AttemptId)
    ensures fin.outcome.Completed? && DeadlinePassed(t.row, now) ==>
              Finalize(t, fin, d, strip, now, runLive, newId).0 == t
  {
    hide Settled, Candidates, Clean;
  }

  // ---------- claim fencing ----------

  /** The claim an operation carries, if it is one of the fenced ones. */
  function ClaimOf(op: Op): Option<Time> {
    match op
    case CheckpointTask(claim, _) => Some(claim)
    case SaveSubmission(claim, _, _, _, _) => Some(claim)
    case DeferVerification(claim, _) => Some(claim)
    case RejectSubmission(claim) => Some(claim)
    case FinalizeTask(fin, _, _, _, _, _) => fin.claim
    case _ => None
  }

  /** No claim in ops reuses this timestamp. */
  predicate ClaimedAfresh(ops: seq<Op>, claim: Time) {
    forall i | 0 <= i < |ops| && (ops[i].TrySetRunning? || ops[i].ClaimGraph?) :: ops[i].now > claim
  }

  lemma StaleIsRefused(t: Task, op: Op)
    requires ClaimOf(op).Some? && !HoldsClaim(t.row, ClaimOf(op).value)
    ensures Apply(t, op) == t
  {
  }

  lemma LostStaysLost(t: Task, op: Op, claim: Time)
    requires !HoldsClaim(t.row, claim)
    requires (op.TrySetRunning? || op.ClaimGraph?) ==> op.now > claim
    ensures !HoldsClaim(Apply(t, op).row, claim)
  {
    if op.FinalizeTask? {
      hide Finalize;
      FinalizationIsAtomic(t, op.fin, op.d, op.strip, op.now, op.runLive, op.newId);
    } else {
      hide Finalize;
    }
  }

  /** Once a claim is lost it is never regained, whatever runs in between, and
      every write carrying it fails and changes nothing. */
  lemma {:induction false} LostClaimIsFenced(t: Task, ops: seq<Op>, claim: Time, late: Op)
    requires !HoldsClaim(t.row, claim) && ClaimedAfresh(ops, claim)
    requires ClaimOf(late) == Some(claim)
    ensures !HoldsClaim(Run(t, ops).row, claim)
    ensures Run(t, ops + [late]) == Run(t, ops)
    decreases |ops|
  {
    if ops == [] {
      StaleIsRefused(t, late);
      assert [late][1..] == [];
    } else {
      LostStaysLost(t, ops[0], claim);
      LostClaimIsFenced(Apply(t, ops[0]), ops[1..], claim, late);
      assert (ops + [late])[0] == ops[0] && (ops + [late])[1..] == ops[1..] + [late];
    }
  }

  /** Who can change the fenced rows: a checkpoint only by a checkpoint write, a
      submission only by the three submission writes, an artifact only by a
      finalization; each under the claim current at that moment (finalization may
      carry none), and the checkpoint records that claim. */
  lemma OnlyHoldersWrite(t: Task, op: Op)
    ensures var v := Apply(t, op);
            && (v.checkpoint != t.checkpoint ==>
                  op.CheckpointTask? && HoldsClaim(t.row, op.claim) && v.checkpoint.Some?
                    && v.checkpoint.value.claim == op.claim)
            && (v.submission != t.submission ==>
                  (op.SaveSubmission? || op.DeferVerification? || op.RejectSubmission?) && HoldsClaim(t.row, op.claim))
            && (v.artifacts != t.artifacts ==>
                  op.FinalizeTask? && (op.fin.claim.Some? ==> HoldsClaim(t.row, op.fin.claim.value)))
            && (t.submission.Some? && v.submission.None? ==> op.RejectSubmission?)
  {
    if op.FinalizeTask? {
      hide Finalize;
      FinalizationIsAtomic(t, op.fin, op.d, op.strip, op.now, op.runLive, op.newId);
    } else {
      hide Finalize;
    }
  }

  /** The stored checkpoint was written by the holder of the claim it records. */
  lemma {:induction false} CheckpointProvenance(t: Task, ops: seq<Op>) returns (k: nat)
    requires Run(t, ops).checkpoint != t.checkpoint
    ensures k < |ops| && ops[k].CheckpointTask? && HoldsClaim(Run(t, ops[..k]).row, ops[k].claim)
    ensures Run(t, ops).checkpoint == Run(t, ops[..k + 1]).checkpoint == Apply(Run(t, ops[..k]), ops[k]).checkpoint
    ensures Run(t, ops).checkpoint.Some? && Run(t, ops).checkpoint.value.claim == ops[k].claim
    decreases |ops|
  {
    hide Apply;
    var n := |ops| - 1;
    RunLast(t, ops);
    var before := Run(t, ops[..n]);
    OnlyHoldersWrite(before, ops[n]);
    if Run(t, ops).checkpoint != before.checkpoint {
      k := n;
      assert ops[..n + 1] == ops;
    } else {
      k := CheckpointProvenance(t, ops[..n]);
      assert ops[..n][..k] == ops[..k] && ops[..n][..k + 1] == ops[..k + 1];
    }
  }

  ghost predicate HasDraft(t: Task) {
    t.checkpoint.Some? && t.checkpoint.value.output != []
  }

  /** A non-empty checkpoint draft is never replaced by an empty one. */
  lemma {:induction false} DraftIsNeverEmptied(t: Task, ops: seq<Op>)
    requires HasDraft(t)
    ensures HasDraft(Run(t, ops))
    decreases |ops|
  {
    if ops != [] {
      OnlyHoldersWrite(t, ops[0]);
      DraftIsNeverEmptied(Apply(t, ops[0]), ops[1..]);
    }
  }

  /** The guards of the writes that carry no claim. */
  predicate EndsClaim(t: Task, op: Op, claim: Time) {
    match op
    case SetPending => true
    case UpdateProgress => true
    case PauseTask => true
    case Fail(_) => true
    case Complete(_, now) => !DeadlinePassed(t.row, now)
    case ResetStale(before) => !t.row.graph && claim < before
    case Expire(now) => !t.row.graph && DeadlinePassed(t.row, now)
    case ClaimGraph(now) => t.row.graph && !DeadlinePassed(t.row, now) && now != claim
    case YieldGraph => t.row.graph
    case FinalizeTask(fin, d, strip, now, runLive, newId) => Commits(t, fin, d, strip, now, runLive, newId)
    case _ => false
  }

  /** What the fence does not cover, exactly: a write that carries no claim takes a
      running row from the worker holding it if and only if its own guard lets it,
      whoever issues it. A worker issues five of them, SetPending, UpdateProgress,
      PauseTask, Fail and Complete, without proof of its claim. The holder's
      checkpoint and submission survive. */
  lemma UnfencedWrites(t: Task, successor: Time, op: Op)
    requires HoldsClaim(t.row, successor) && ClaimOf(op).None?
    ensures !HoldsClaim(Apply(t, op).row, successor) <==> EndsClaim(t, op, successor)
    ensures Apply(t, op).checkpoint == t.checkpoint && Apply(t, op).submission == t.submission
  {
    hide Finalize, Commits;
    if op.FinalizeTask? {
      FinalizationIsAtomic(t, op.fin, op.d, op.strip, op.now, op.runLive, op.newId);
      FinalizationCommitsExactlyWhen(t, op.fin, op.d, op.strip, op.now, op.runLive, op.newId);
    }
  }

  // ---------- the store ----------

  /** The rows of one task; failed transactions restore what they wrote. */
  class TaskStore {
    const id: J.TaskId
    var row: Row
    var artifacts: seq<Artifact>
    var submission: Option<Submission>
    var checkpoint: Option<Checkpoint>
    var journal: J.Journal

    constructor (id: J.TaskId, row: Row, journal: J.Journal)
      ensures View() == Task(id, row, [], None, None, journal)
    {
      this.id, this.row, artifacts, submission, checkpoint, this.journal := id, row, [], None, None, journal;
    }

    function View(): Task
      reads this
    {
      Task(id, row, artifacts, submission, checkpoint, journal)
    }

    method TrySetRunning(now: Time) returns (claimed: bool)
      modifies this`row
      ensures View() == Apply(old(View()), Op.TrySetRunning(now))
      ensures claimed <==> !old(row).graph && old(row).status == Pending
                           && (old(row).deadline.None? || old(row).deadline.value > now)
      ensures claimed ==> row == old(row).(status := Running, lastRunAt := Some(now))
      ensures !claimed ==> View() == old(View())
    {
      if row.graph || row.status != Pending || DeadlinePassed(row, now) {
        return false;
      }
      row := row.(status := Running, lastRunAt := Some(now));
      return true;
    }

    method CheckpointTask(claim: Time, cp: Checkpoint) returns (ok: bool)
      modifies this`checkpoint
      ensures View() == Apply(old(View()), Op.CheckpointTask(claim, cp))
      ensures ok <==> cp.session != [] && cp.phase != [] && cp.iteration > 0 && claim != 0
                      && row.status == Running && row.lastRunAt == Some(claim)
      ensures ok ==> checkpoint == Some(cp.(claim := claim, output :=
                                              if cp.output == [] && old(checkpoint).Some?
                                              then old(checkpoint).value.output else cp.output))
      ensures !ok ==> View() == old(View())
    {
      if cp.session == [] || cp.phase == [] || cp.iteration == 0 || claim == 0 || !HoldsClaim(row, claim) {
        return false;
      }
      var excluded := cp.(claim := claim);
      if excluded.output == [] && checkpoint.Some? {
        excluded := excluded.(output := checkpoint.value.output);
      }
      checkpoint := Some(excluded);
      return true;
    }

    method SaveTaskSubmission(claim: Time, output: Text, notify: Text, refs: seq<Ref>, now: Time) returns (ok: bool)
      modifies this`submission
      ensures View() == Apply(old(View()), Op.SaveSubmission(claim, output, notify, refs, now))
      ensures ok <==> row.status == Running && row.lastRunAt == Some(claim)
      ensures submission == if ok then Some(Submission(output, notify, refs, 0, now)) else old(submission)
    {
      ok := HoldsClaim(row, claim);
      if ok {
        submission := Some(Submission(output, notify, refs, 0, now));
      }
    }

    /** Releases the row first; without a saved candidate that is undone. */
    method DeferTaskVerification(claim: Time, next: Time) returns (ok: bool)
      modifies this`row, this`submission
      ensures View() == Apply(old(View()), Op.DeferVerification(claim, next))
      ensures ok <==> old(row).status == Running && old(row).lastRunAt == Some(claim) && old(submission).Some?
      ensures ok ==> row == old(row).(status := Pending) && submission.Some?
                     && submission.value.reviewAttempts == old(submission).value.reviewAttempts + 1
                     && submission == Some(old(submission).value.(
                          reviewAttempts := submission.value.reviewAttempts, nextReviewAt := next))
      ensures !ok ==> row == old(row) && submission == old(submission)
    {
      if !HoldsClaim(row, claim) {
        return false;
      }
      var row0 := row;
      row := row.(status := Pending);
      if submission.None? {
        row := row0;
        return false;
      }
      var s := submission.value;
      submission := Some(s.(reviewAttempts := s.reviewAttempts + 1, nextReviewAt := next));
      return true;
    }

    method RejectTaskSubmission(claim: Time) returns (ok: bool)
      modifies this`row, this`submission
      ensures View() == Apply(old(View()), Op.RejectSubmission(claim))
      ensures ok <==> old(row).status == Running && old(row).lastRunAt == Some(claim)
      ensures if ok then row == old(row).(status := Pending, iteration := old(row).iteration + 1) && submission == None
              else row == old(row) && submission == old(submission)
    {
      ok := HoldsClaim(row, claim);
      if ok {
        row := row.(status := Pending, iteration := row.iteration + 1);
        submission := None;
      }
    }

    /** finalizeTaskTx: the fences, the fallback chain for the body, then the
        artifact, the row and the intent; a failed insert rolls all of it back. */
    method FinalizeTask(fin: Finalization, d: Drafts, strip: Text -> Text, now: Time, runLive: bool, newId: J.AttemptId)
      returns (r: FinalizeResult)
      modifies this`row, this`artifacts, this`journal
      ensures (View(), r) == Finalize(old(View()), fin, d, strip, now, runLive, newId)
    {
      hide Settled, Clean, Candidates;
      if !Active(row.status) {
        return Unchanged;
      }
      if row.graph && fin.expiredAt.None? && !fin.outcome.Cancelled? && !runLive {
        return Refused;
      }
      if fin.claim.Some? && !HoldsClaim(row, fin.claim.value) {
        return Refused;
      }
      if fin.expiredAt.Some? && !DeadlinePassed(row, fin.expiredAt.value) {
        return Unchanged;
      }
      if fin.outcome.Completed? && DeadlinePassed(row, now) {
        return Refused;
      }
      var body := Clean(strip, fin.body);
      if body == [] && fin.outcome.Completed? {
        return Refused;
      }
      body := FallBack(fin, d, strip);
      r := Settle(fin, body, now, newId);
    }

    method Settle(fin: Finalization, found: Text, now: Time, newId: J.AttemptId) returns (r: FinalizeResult)
      modifies this`row, this`artifacts, this`journal
      ensures (View(), r) == Settled(old(View()), fin, found, now, newId)
    {
      hide TrimSpace, KeptOf, J.InsertAttempt;
      var body := found;
      var outcome, notify := fin.outcome, fin.notify;
      if body == [] {
        body := TrimSpace(fin.emptyBody);
        notify := fin.emptyNotify;
        if outcome.Partial? {
          outcome := Blocked;
        }
      }
      if body == [] {
        return Refused;
      }
      var row0, artifacts0 := row, artifacts;
      var a := Artifact(NextVersion(artifacts), outcome, body, fin.reason);
      artifacts := artifacts + [a];
      var status := TaskTerminalStatus(row, outcome);
      var message := if status.Done? then [] else fin.reason;
      row := row.(status := status, result := Some(body), error := if message == [] then None else Some(message));
      if outcome.Completed? && TrimSpace(notify) == [] {
        notify := body;
      }
      if TrimSpace(notify) != [] {
        var refs := ResultRefs(fin, a.version);
        var ok := Queue(newId, notify, refs, now);
        if !ok {
          row, artifacts := row0, artifacts0;
          return Refused;
        }
      }
      return Finalized(a);
    }

    /** The rest of the fallback chain, each step only while the body is empty. */
    method FallBack(fin: Finalization, d: Drafts, strip: Text -> Text) returns (body: Text)
      ensures body == FirstNonEmpty(Candidates(View(), fin, d, strip))
    {
      hide Clean, Joined, FirstNonEmpty;
      CandidatesInTurn(View(), fin, d, strip);
      body := Clean(strip, fin.body);
      if row.graph {
        if body == [] && d.responseChecked {
          body := Clean(strip, d.safeBody);
        }
        if body == [] {
          body := Clean(strip, d.lastCheckedBody);
        }
        if body == [] {
          body := Clean(strip, d.candidate);
        }
        if body == [] {
          body := Joined(Sections(d, strip));
        }
      }
      if body == [] {
        body := Clean(strip, if submission.Some? then submission.value.output else []);
      }
      if body == [] {
        body := Clean(strip, if checkpoint.Some? then checkpoint.value.output else []);
      }
      if body == [] {
        body := Clean(strip, d.iterationOutput);
      }
    }

    method Queue(newId: J.AttemptId, text: Text, refs: seq<Ref>, now: Time) returns (ok: bool)
      modifies this`journal
      ensures ok <==> CanQueue(old(View()), refs, newId)
      ensures ok ==> (KeptFacts(refs, |refs|); journal == J.Enqueue(old(journal), newId, id, text, Kept(refs), now))
      ensures !ok ==> journal == old(journal)
    {
      ok := CanQueue(View(), refs, newId);
      if ok {
        KeptFacts(refs, |refs|);
        journal := J.Enqueue(journal, newId, id, text, Kept(refs), now);
      }
    }

    /** TaskController.Cancel for the owner of a task: a schedule is switched
        off, one-shot work is finalized with whatever draft it has. */
    method Cancel(d: Drafts, strip: Text -> Text, emptyBody: Text, now: Time) returns (changed: bool)
      modifies this`row, this`artifacts, this`journal
      ensures submission == old(submission) && checkpoint == old(checkpoint) && journal == old(journal)
      ensures OneShot(old(row)) && Terminal(old(row.status)) ==> !changed && View() == old(View())
      ensures OneShot(old(row)) && Active(old(row.status)) ==>
                (changed <==> |artifacts| == |old(artifacts)| + 1) && (TrimSpace(emptyBody) != [] ==> changed)
                && (changed ==>
                      row.status == Canceled && row.result == Some(artifacts[|old(artifacts)|].body)
                      && artifacts[..|old(artifacts)|] == old(artifacts))
                && (!changed ==> View() == old(View()))
      ensures !OneShot(old(row)) ==> row == old(row).(status := Canceled) && artifacts == old(artifacts)
    {
      if !OneShot(row) {
        changed := row.status != Canceled;
        row := row.(status := Canceled);
        return;
      }
      var fin := Finalization(Cancelled, [], Ascii("cancelled_by_user"), emptyBody, [], [], [], None, None);
      var r := FinalizeTask(fin, d, strip, now, true, 0);
      hide Candidates, FirstNonEmpty;
      return r.Finalized?;
    }
  }
}
