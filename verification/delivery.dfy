/** The delivery protocol as a step system: any number of workers begin, claim,
    send and resolve notification attempts, may crash between any two steps,
    and every transaction may commit, abort, or commit with its answer lost. */
module Delivery {
  import opened Common
  import opened Wrappers
  import opened Refs
  import opened Journal

  type WorkerId = nat

  /** How one provider call was answered, as resolveTaskNotificationAttempt
      classifies it. */
  datatype Answer = Delivered | NotSent | Permanent | Ambiguous

  /** One provider call: its answer, whether the message reached the user, and
      whether the attempt was deferred on the strength of that answer. */
  datatype Call = Call(answer: Answer, reached: bool, deferred: bool)

  /** since is the moment the answer was taken; recording it comes later. */
  datatype Worker =
    | Idle
    | Holding(id: AttemptId)
    | Resolving(id: AttemptId, answer: Answer, called: bool, tries: nat, since: Time)

  datatype Tx = Commit | CommitLost | Abort

  /** begun and calls are history: the refs each attempt was created with and
      the provider calls made for it. legacy holds MarkDelivered's rows. */
  datatype World = World(
    j: Journal, now: Time, workers: map<WorkerId, Worker>,
    begun: map<AttemptId, seq<Ref>>, calls: map<AttemptId, seq<Call>>, legacy: set<Item>)

  datatype Step =
    | CreateTask(task: TaskId, user: UserId)
    | LegacyDelivered(item: Item)
    | Tick(to: Time)
    | BeginAttempt(k: WorkerId, newId: AttemptId, task: TaskId, user: UserId, text: Bytes, refs: seq<Ref>, tx: Tx)
    | QueueResult(newId: AttemptId, task: TaskId, text: Bytes, refs: seq<Ref>, at: Time)
    | ClaimDue(k: WorkerId, id: AttemptId, cutoff: Time, locked: set<AttemptId>, tx: Tx)
    | Preflight(k: WorkerId, answer: Answer)
    | Send(k: WorkerId, answer: Answer, reached: bool)
    | Resolve(k: WorkerId, transport: Bytes, marker: Marker, reason: Bytes, retryAt: Time, tx: Tx, expired: bool)
    | ConfirmLater(id: AttemptId, transport: Bytes, marker: Marker, tx: Tx)
    | Crash(k: WorkerId)

  const MAX_CONFIRM_ATTEMPTS := 3
  const MIN_RETRY_DELAY := 1_000_000_000

  function WorkerOf(w: World, k: WorkerId): Worker {
    if k in w.workers then w.workers[k] else Idle
  }

  predicate Conclusive(a: Answer) {
    a.NotSent? || a.Permanent?
  }

  /** The journal transaction that records an answer. */
  function Record(j: Journal, id: AttemptId, answer: Answer, transport: Bytes, marker: Marker, reason: Bytes,
                  retryAt: Time): (Journal, bool) {
    match answer
    case Delivered => Confirm(j, id, transport, marker)
    case Permanent => Reject(j, id, reason)
    case NotSent => Defer(j, id, reason, retryAt)
    case Ambiguous => MarkUncertain(j, id)
  }

  function MarkDeferred(calls: seq<Call>): seq<Call> {
    if calls == [] then calls else calls[|calls| - 1 := calls[|calls| - 1].(deferred := true)]
  }

  function CallsOf(w: World, id: AttemptId): seq<Call> {
    if id in w.calls then w.calls[id] else []
  }

  function Created(w: World, j: Journal, id: AttemptId, refs: seq<Ref>): World {
    w.(j := j, begun := w.begun[id := refs], calls := w.calls[id := []])
  }

  function Begun(w: World, k: WorkerId, newId: AttemptId, task: TaskId, user: UserId, text: Bytes, refs: seq<Ref>,
                 tx: Tx): World {
    var (j, r) := Begin(w.j, newId, task, user, text, refs, w.now);
    if tx.Abort? || r != Ok((newId, true)) then w
    else
      var w' := Created(w, j, newId, Kept(CleanAll(refs)));
      if tx.Commit? then w'.(workers := w.workers[k := Holding(newId)]) else w'
  }

  function Claimed(w: World, k: WorkerId, id: AttemptId, tx: Tx): World
    requires id in w.j.attempts
  {
    if tx.Abort? then w
    else w.(j := Claim(w.j, id), workers := if tx.Commit? then w.workers[k := Holding(id)] else w.workers)
  }

  function Refused(w: World, k: WorkerId, id: AttemptId, answer: Answer): World {
    w.(workers := w.workers[k := Resolving(id, answer, false, 0, w.now)])
  }

  function Called(w: World, k: WorkerId, id: AttemptId, answer: Answer, reached: bool): World {
    w.(workers := w.workers[k := Resolving(id, answer, true, 0, w.now)],
       calls := w.calls[id := CallsOf(w, id) + [Call(answer, reached, false)]])
  }

  /** One try of resolveTaskNotificationAttempt: (j, ok) is the transaction's
      outcome; only an unanswered confirmation is tried again. */
  function Resolved(w: World, k: WorkerId, p: Worker, j: Journal, ok: bool, tx: Tx, expired: bool): World
    requires p.Resolving?
  {
    var again := p.answer.Delivered? && !(ok && tx.Commit?) && p.tries + 1 < MAX_CONFIRM_ATTEMPTS && !expired;
    var next := if again then p.(tries := p.tries + 1) else Idle;
    if tx.Abort? || !ok then w.(workers := w.workers[k := next])
    else w.(workers := w.workers[k := next], j := j,
            calls := if p.answer.NotSent? && p.called then w.calls[p.id := MarkDeferred(CallsOf(w, p.id))] else w.calls)
  }

  /** The last call for the attempt was answered "delivered". The gateway remembers
      that of an autonomous message, and confirms it during the call or at any later
      turn, whatever became of the worker. */
  predicate Acknowledged(w: World, id: AttemptId) {
    var calls := CallsOf(w, id);
    calls != [] && calls[|calls| - 1].answer.Delivered?
  }

  /** at is when the finalizing transaction began. The time of a retry is fixed
      when the answer is taken, by the sender's delay, before the deferral commits. */
  predicate Enabled(w: World, s: Step) {
    match s
    case CreateTask(task, _) => task !in w.j.tasks
    case LegacyDelivered(_) => true
    case Tick(to) => w.now <= to
    case BeginAttempt(k, newId, _, _, _, _, _) => WorkerOf(w, k).Idle? && newId !in w.j.attempts
    case QueueResult(newId, task, _, refs, at) =>
      at <= w.now && Distinct(refs) && (forall r | r in refs :: Proper(r)) && CanEnqueue(w.j, newId, task, refs)
    case ClaimDue(k, id, cutoff, locked, _) =>
      WorkerOf(w, k).Idle? && cutoff <= w.now && Candidate(w.j, cutoff, locked, id)
    case Preflight(k, answer) => WorkerOf(w, k).Holding? && Conclusive(answer)
    case Send(k, answer, reached) => WorkerOf(w, k).Holding? && (Conclusive(answer) ==> !reached)
    case Resolve(k, _, _, _, retryAt, _, _) =>
      WorkerOf(w, k).Resolving? && retryAt >= WorkerOf(w, k).since + MIN_RETRY_DELAY
    case ConfirmLater(id, _, _, _) => Acknowledged(w, id)
    case Crash(k) => !WorkerOf(w, k).Idle?
  }

  function Apply(w: World, s: Step): World
    requires Enabled(w, s)
  {
    match s
    case CreateTask(task, user) => w.(j := w.j.(tasks := w.j.tasks[task := user]))
    case LegacyDelivered(item) => w.(j := w.j.(delivered := w.j.delivered + {item}), legacy := w.legacy + {item})
    case Tick(to) => w.(now := to)
    case BeginAttempt(k, newId, task, user, text, refs, tx) => Begun(w, k, newId, task, user, text, refs, tx)
    case QueueResult(newId, task, text, refs, at) =>
      Created(w, Enqueue(w.j, newId, task, text, refs, at), newId, refs)
    case ClaimDue(k, id, _, _, tx) => Claimed(w, k, id, tx)
    case Preflight(k, answer) => Refused(w, k, WorkerOf(w, k).id, answer)
    case Send(k, answer, reached) => Called(w, k, WorkerOf(w, k).id, answer, reached)
    case Resolve(k, transport, marker, reason, retryAt, tx, expired) =>
      var p := WorkerOf(w, k);
      var (j, ok) := Record(w.j, p.id, p.answer, transport, marker, reason, retryAt);
      Resolved(w, k, p, j, ok, tx, expired)
    case ConfirmLater(id, transport, marker, tx) =>
      if tx.Abort? then w else w.(j := Confirm(w.j, id, transport, marker).0)
    case Crash(k) => w.(workers := w.workers[k := Idle])
  }

  // ---------- invariants ----------

  /** The row, its index entry and the refs it was created with agree. */
  ghost predicate RowInv(j: Journal, id: AttemptId, refs: seq<Ref>)
    requires id in j.attempts
  {
    var a := j.attempts[id];
    && Distinct(refs) && (forall r | r in refs :: Proper(r)) && a.key == OccurrenceKey(refs)
    && (a.task, a.key) in j.byKey && j.byKey[(a.task, a.key)] == id
    && a.task in j.tasks && j.tasks[a.task] == a.user
  }

  ghost predicate Keyed(w: World) {
    && w.j.attempts.Keys == w.begun.Keys
    && (forall id | id in w.begun :: RowInv(w.j, id, w.begun[id]))
    && (forall k | k in w.j.byKey :: w.j.byKey[k] in w.j.attempts
                                     && w.j.attempts[w.j.byKey[k]].task == k.0 && w.j.attempts[w.j.byKey[k]].key == k.1)
  }

  /** Each attempt owns exactly the refs it was begun with. */
  ghost predicate Reserved(w: World) {
    && w.j.attempts.Keys == w.begun.Keys
    && (forall k | k in w.j.items :: w.j.items[k] in w.begun && w.j.attempts[w.j.items[k]].task == k.0
                                     && k.1 in w.begun[w.j.items[k]])
    && (forall id, r | id in w.begun && r in w.begun[id] :: Owns(w.j, id, w.j.attempts[id].task, r))
  }

  ghost predicate SentItem(j: Journal, k: Item) {
    k in j.items && j.items[k] in j.attempts && j.attempts[j.items[k]].state == Sent
  }

  /** The ledger holds the refs of sent attempts and the legacy rows. */
  ghost predicate Ledger(w: World) {
    forall k :: k in w.j.delivered <==> k in w.legacy || SentItem(w.j, k)
  }

  /** A call that provably did not reach the user and was followed by a deferral. */
  ghost predicate Settled(c: Call) {
    c.answer.NotSent? && !c.reached && c.deferred
  }

  ghost predicate AllSettled(s: seq<Call>) {
    forall i | 0 <= i < |s| :: Settled(s[i])
  }

  ghost predicate AllButLastSettled(s: seq<Call>) {
    forall i | 0 <= i < |s| - 1 :: Settled(s[i])
  }

  ghost predicate AttemptInv(w: World, id: AttemptId) {
    && id in w.j.attempts && id in w.calls
    && AllButLastSettled(w.calls[id])
    && (w.j.attempts[id].state == Retryable ==> AllSettled(w.calls[id]))
  }

  ghost predicate WorkerInv(w: World, p: Worker) {
    match p
    case Idle => true
    case Holding(id) =>
      id in w.j.attempts && id in w.calls && w.j.attempts[id].state == Dispatching && AllSettled(w.calls[id])
    case Resolving(id, answer, called, _, _) =>
      && id in w.j.attempts && id in w.calls
      && (w.j.attempts[id].state == Dispatching || (answer.Delivered? && w.j.attempts[id].state == Sent))
      && if called then
           w.calls[id] != []
           && var c := w.calls[id][|w.calls[id]| - 1];
              c.answer == answer && (Conclusive(answer) ==> !c.reached)
         else Conclusive(answer) && AllSettled(w.calls[id])
  }

  ghost predicate Works(p: Worker, id: AttemptId) {
    !p.Idle? && p.id == id
  }

  ghost predicate Apart(p: Worker, q: Worker) {
    p.Idle? || q.Idle? || p.id != q.id
  }

  /** Every attempt has at most one live sender. */
  ghost predicate Senders(w: World) {
    && w.j.attempts.Keys == w.calls.Keys
    && (forall id | id in w.j.attempts :: AttemptInv(w, id))
    && (forall k | k in w.workers :: WorkerInv(w, w.workers[k]))
    && (forall k, l | k in w.workers && l in w.workers && k != l :: Apart(w.workers[k], w.workers[l]))
  }

  ghost predicate Inv(w: World) {
    Keyed(w) && Reserved(w) && Ledger(w) && Senders(w)
  }

  ghost predicate Init(w: World) {
    && w.j.attempts == map[] && w.j.byKey == map[] && w.j.items == map[] && w.j.delivered == w.legacy
    && w.workers == map[] && w.begun == map[] && w.calls == map[]
  }

  // ---------- what every later world keeps ----------

  ghost predicate Concluded(w: World, id: AttemptId) {
    id in w.j.attempts && w.j.attempts[id].state in {Sent, Uncertain, Rejected}
  }

  /** Claimed or begun by a worker that is gone. */
  ghost predicate Abandoned(w: World, id: AttemptId) {
    && id in w.j.attempts && w.j.attempts[id].state == Dispatching
    && forall k | k in w.workers :: !Works(w.workers[k], id)
  }

  /** Worker p is about to defer the attempt, on an answer old enough for a retry
      within a pass whose cutoff is c. */
  predicate Overdue(p: Worker, id: AttemptId, c: Time) {
    p.Resolving? && p.id == id && p.answer.NotSent? && p.since + MIN_RETRY_DELAY <= c
  }

  /** The attempt is not due for a pass whose cutoff is c, nor is anybody about to
      make it so. */
  ghost predicate OutOfReach(w: World, id: AttemptId, c: Time) {
    && id in w.j.attempts && !Due(w.j, id, c)
    && forall k | k in w.workers :: !Overdue(w.workers[k], id, c)
  }

  ghost predicate ConfirmedSent(w: World, id: AttemptId) {
    id in w.j.attempts && w.j.attempts[id].state == Sent
  }

  ghost predicate SameIdentity(a: Attempt, b: Attempt) {
    a.task == b.task && a.user == b.user && a.key == b.key && a.text == b.text
  }

  ghost predicate LaterRows(w: World, v: World) {
    && w.now <= v.now
    && (forall k | k in w.j.items :: k in v.j.items && v.j.items[k] == w.j.items[k])
    && (forall id | id in w.begun :: id in v.begun && v.begun[id] == w.begun[id])
    && (forall id | id in w.j.attempts :: id in v.j.attempts && SameIdentity(w.j.attempts[id], v.j.attempts[id]))
  }

  ghost predicate LaterStates(w: World, v: World) {
    && (forall id | Concluded(w, id) :: Concluded(v, id) && v.j.attempts[id].state == w.j.attempts[id].state)
    && (forall id | Abandoned(w, id) :: Abandoned(v, id) || (ConfirmedSent(v, id) && Acknowledged(w, id)))
    && (forall id | Concluded(w, id) || Abandoned(w, id) ::
          CallsOf(v, id) == CallsOf(w, id) && (id in w.calls ==> id in v.calls))
  }

  ghost predicate LaterReach(w: World, v: World) {
    forall id, c | c <= w.now && OutOfReach(w, id, c) :: OutOfReach(v, id, c)
  }

  ghost predicate Later(w: World, v: World) {
    LaterRows(w, v) && LaterStates(w, v) && LaterReach(w, v)
  }

  // ---------- a new attempt ----------

  lemma InsertKeepsRows(w: World, id: AttemptId, a: Attempt, refs: seq<Ref>, v: World)
    requires Inv(w) && id !in w.j.attempts && a.state in {Dispatching, Retryable}
    requires Distinct(refs) && (forall r | r in refs :: Proper(r)) && a.key == OccurrenceKey(refs)
    requires (a.task, a.key) !in w.j.byKey && AllFree(w.j.items, a.task, refs)
    requires a.task in w.j.tasks && w.j.tasks[a.task] == a.user
    requires v.j == InsertAttempt(w.j, id, a, refs) && v.begun == w.begun[id := refs]
    requires v.now == w.now && v.legacy == w.legacy
    ensures Keyed(v) && Reserved(v) && Ledger(v) && LaterRows(w, v)
  {
    hide OccurrenceKey, Proper, Senders, RowInv, Owns, SentItem, Distinct, LaterRows;
    ReserveFacts(w.j.items, a.task, refs, |refs|, id);
    assert refs[..|refs|] == refs;
    forall k: Item
      ensures k in v.j.items <==> k in w.j.items || (k.0 == a.task && k.1 in refs)
      ensures k in v.j.items ==> v.j.items[k] == if k.0 == a.task && k.1 in refs then id else w.j.items[k]
    {
      assert k == (k.0, k.1);
    }
    InsertKeepsReservations(w, v, id, a, refs);
    InsertKeepsKeys(w, v, id, a, refs);
    InsertKeepsLedger(w, v, id, a, refs);
    InsertLaterRows(w, v, id, a, refs);
  }

  lemma InsertLaterRows(w: World, v: World, id: AttemptId, a: Attempt, refs: seq<Ref>)
    requires id !in w.j.attempts && w.j.attempts.Keys == w.begun.Keys && v.now == w.now
    requires v.j.attempts == w.j.attempts[id := a] && v.begun == w.begun[id := refs]
    requires forall k | k in w.j.items :: k in v.j.items && v.j.items[k] == w.j.items[k]
    ensures LaterRows(w, v)
  {
  }

  lemma InsertKeepsKeys(w: World, v: World, id: AttemptId, a: Attempt, refs: seq<Ref>)
    requires Keyed(w) && id !in w.j.attempts
    requires Distinct(refs) && (forall r | r in refs :: Proper(r)) && a.key == OccurrenceKey(refs)
    requires (a.task, a.key) !in w.j.byKey && a.task in w.j.tasks && w.j.tasks[a.task] == a.user
    requires v.j.attempts == w.j.attempts[id := a] && v.begun == w.begun[id := refs]
    requires v.j.byKey == w.j.byKey[(a.task, a.key) := id] && v.j.tasks == w.j.tasks
    ensures Keyed(v)
  {
    hide OccurrenceKey, Proper, Distinct;
    forall i | i in v.begun
      ensures RowInv(v.j, i, v.begun[i])
    {
      assert i != id ==> RowInv(w.j, i, w.begun[i]);
    }
  }

  lemma InsertKeepsLedger(w: World, v: World, id: AttemptId, a: Attempt, refs: seq<Ref>)
    requires Ledger(w) && Reserved(w) && id !in w.j.attempts && a.state != Sent
    requires v.j.attempts == w.j.attempts[id := a] && v.j.delivered == w.j.delivered && v.legacy == w.legacy
    requires forall k: Item :: k in v.j.items <==> k in w.j.items || (k.0 == a.task && k.1 in refs)
    requires forall k | k in v.j.items :: v.j.items[k] == if k.0 == a.task && k.1 in refs then id else w.j.items[k]
    requires forall k | k in w.j.items :: v.j.items[k] == w.j.items[k]
    ensures Ledger(v)
  {
    forall k: Item
      ensures SentItem(v.j, k) <==> SentItem(w.j, k)
    {
    }
  }

  lemma InsertKeepsReservations(w: World, v: World, id: AttemptId, a: Attempt, refs: seq<Ref>)
    requires Reserved(w) && id !in w.j.attempts && AllFree(w.j.items, a.task, refs)
    requires v.j.attempts == w.j.attempts[id := a] && v.begun == w.begun[id := refs]
    requires forall k: Item :: k in v.j.items <==> k in w.j.items || (k.0 == a.task && k.1 in refs)
    requires forall k | k in v.j.items :: v.j.items[k] == if k.0 == a.task && k.1 in refs then id else w.j.items[k]
    ensures Reserved(v) && forall k | k in w.j.items :: k in v.j.items && v.j.items[k] == w.j.items[k]
  {
    hide RowInv;
    forall k | k in w.j.items
      ensures !(k.0 == a.task && k.1 in refs)
    {
      assert k == (k.0, k.1);
    }
    forall i, r | i in v.begun && r in v.begun[i]
      ensures Owns(v.j, i, v.j.attempts[i].task, r)
    {
      if i != id {
        assert Owns(w.j, i, w.j.attempts[i].task, r);
      }
    }
  }

  /** The created attempt is either nobody's or held by the idle worker k. */
  ghost predicate Inserts(w: World, v: World, k: WorkerId, id: AttemptId, a: Attempt) {
    && id !in w.j.attempts && a.state in {Dispatching, Retryable} && v.now == w.now
    && v.j.attempts == w.j.attempts[id := a] && v.calls == w.calls[id := []]
    && (v.workers == w.workers
        || (WorkerOf(w, k).Idle? && a.state == Dispatching && v.workers == w.workers[k := Holding(id)]))
  }

  lemma InsertKeeps(w: World, v: World, k: WorkerId, id: AttemptId, a: Attempt)
    requires Senders(w) && Inserts(w, v, k, id, a)
    ensures Senders(v) && LaterStates(w, v) && LaterReach(w, v)
  {
    InsertKeepsAttempts(w, v, k, id, a);
    InsertKeepsWorkers(w, v, k, id, a);
    InsertKeepsApart(w, v, k, id, a);
    InsertLaterStates(w, v, k, id, a);
    InsertLaterReach(w, v, k, id, a);
    hide AttemptInv, WorkerInv, Apart, LaterStates, LaterReach;
  }

  lemma InsertKeepsAttempts(w: World, v: World, k: WorkerId, id: AttemptId, a: Attempt)
    requires Senders(w) && Inserts(w, v, k, id, a)
    ensures forall i | i in v.j.attempts :: AttemptInv(v, i)
  {
    hide WorkerInv, Apart;
    forall i | i in v.j.attempts
      ensures AttemptInv(v, i)
    {
      assert i != id ==> AttemptInv(w, i);
    }
  }

  lemma InsertKeepsWorkers(w: World, v: World, k: WorkerId, id: AttemptId, a: Attempt)
    requires Senders(w) && Inserts(w, v, k, id, a)
    ensures forall l | l in v.workers :: WorkerInv(v, v.workers[l])
  {
    hide AttemptInv, Apart;
    forall l | l in v.workers
      ensures WorkerInv(v, v.workers[l])
    {
      assert l in w.workers ==> WorkerInv(w, w.workers[l]);
    }
  }

  lemma InsertKeepsApart(w: World, v: World, k: WorkerId, id: AttemptId, a: Attempt)
    requires Senders(w) && Inserts(w, v, k, id, a)
    ensures forall l, m | l in v.workers && m in v.workers && l != m :: Apart(v.workers[l], v.workers[m])
  {
    hide AttemptInv;
    forall l | l in w.workers
      ensures !Works(w.workers[l], id)
    {
      assert WorkerInv(w, w.workers[l]);
    }
    hide WorkerInv;
    forall l, m | l in v.workers && m in v.workers && l != m
      ensures Apart(v.workers[l], v.workers[m])
    {
      assert l in w.workers && m in w.workers ==> Apart(w.workers[l], w.workers[m]);
    }
  }

  lemma InsertLaterStates(w: World, v: World, k: WorkerId, id: AttemptId, a: Attempt)
    requires Inserts(w, v, k, id, a) && w.j.attempts.Keys == w.calls.Keys
    ensures LaterStates(w, v)
  {
  }

  lemma InsertLaterReach(w: World, v: World, k: WorkerId, id: AttemptId, a: Attempt)
    requires Inserts(w, v, k, id, a)
    ensures LaterReach(w, v)
  {
  }

  // ---------- a change to one attempt and one worker ----------

  /** v differs from w at most in the state and calls of attempt id and in worker k. */
  ghost predicate Touches(w: World, v: World, k: WorkerId, id: AttemptId) {
    && v.now == w.now && v.legacy == w.legacy
    && v.j.tasks == w.j.tasks && v.j.byKey == w.j.byKey && v.j.items == w.j.items && v.begun == w.begun
    && v.j.attempts.Keys == w.j.attempts.Keys && v.calls.Keys == w.calls.Keys
    && id in w.j.attempts && SameIdentity(w.j.attempts[id], v.j.attempts[id])
    && (forall i | i in w.j.attempts && i != id :: v.j.attempts[i] == w.j.attempts[i])
    && (forall i | i in w.calls && i != id :: v.calls[i] == w.calls[i])
    && (forall l | l != k :: WorkerOf(v, l) == WorkerOf(w, l))
    && (forall l | l in v.workers :: l == k || l in w.workers)
    && (forall l | l in w.workers :: l in v.workers)
  }

  lemma TouchKeepsRows(w: World, v: World, k: WorkerId, id: AttemptId)
    requires Keyed(w) && Reserved(w) && Touches(w, v, k, id)
    ensures Keyed(v) && Reserved(v) && LaterRows(w, v)
  {
    hide OccurrenceKey, Proper, Distinct, WorkerOf;
    assert forall i | i in w.j.attempts :: SameIdentity(w.j.attempts[i], v.j.attempts[i]);
    forall i | i in v.begun
      ensures RowInv(v.j, i, v.begun[i])
    {
      assert RowInv(w.j, i, w.begun[i]);
    }
    forall i, r | i in v.begun && r in v.begun[i]
      ensures Owns(v.j, i, v.j.attempts[i].task, r)
    {
      assert Owns(w.j, i, w.j.attempts[i].task, r);
    }
  }

  lemma TouchKeepsLedger(w: World, v: World, k: WorkerId, id: AttemptId)
    requires Ledger(w) && Touches(w, v, k, id)
    requires if v.j.attempts[id].state == Sent && w.j.attempts[id].state != Sent
             then v.j.delivered == w.j.delivered + set x | x in w.j.items && w.j.items[x] == id
             else v.j.delivered == w.j.delivered && (w.j.attempts[id].state == Sent ==> v.j.attempts[id].state == Sent)
    ensures Ledger(v)
  {
    forall x
      ensures SentItem(v.j, x)
              <==> SentItem(w.j, x) || (v.j.attempts[id].state == Sent && x in w.j.items && w.j.items[x] == id)
    {
    }
  }

  lemma TouchKeepsSenders(w: World, v: World, k: WorkerId, id: AttemptId)
    requires Senders(w) && Touches(w, v, k, id)
    requires forall l | l in w.workers && l != k :: !Works(w.workers[l], id)
    requires WorkerOf(v, k).Idle? || WorkerOf(v, k).id == id
    requires AttemptInv(v, id) && WorkerInv(v, WorkerOf(v, k))
    ensures Senders(v)
  {
    forall i | i in v.j.attempts
      ensures AttemptInv(v, i)
    {
      assert AttemptInv(w, i);
    }
    forall l | l in v.workers
      ensures WorkerInv(v, v.workers[l])
    {
      assert WorkerOf(v, l) == v.workers[l];
      if l != k {
        assert WorkerOf(w, l) == w.workers[l] && WorkerInv(w, w.workers[l]);
      }
    }
    forall l, m | l in v.workers && m in v.workers && l != m
      ensures Apart(v.workers[l], v.workers[m])
    {
      assert WorkerOf(v, l) == v.workers[l] && WorkerOf(v, m) == v.workers[m];
      if l != k { assert WorkerOf(w, l) == w.workers[l]; }
      if m != k { assert WorkerOf(w, m) == w.workers[m]; }
    }
  }

  lemma TouchLaterStates(w: World, v: World, k: WorkerId, id: AttemptId)
    requires Touches(w, v, k, id) && w.j.attempts.Keys == w.calls.Keys
    requires Concluded(w, id) ==> v.j.attempts[id] == w.j.attempts[id] && v.calls[id] == w.calls[id]
    requires !Abandoned(w, id) && (WorkerOf(v, k).Idle? || WorkerOf(v, k).id == id)
    ensures LaterStates(w, v)
  {
    forall i | Abandoned(w, i)
      ensures Abandoned(v, i)
    {
      forall l | l in v.workers
        ensures !Works(v.workers[l], i)
      {
        assert WorkerOf(v, l) == v.workers[l];
        if l != k { assert WorkerOf(w, l) == w.workers[l]; }
      }
    }
  }

  /** An answer is taken now or was taken before; a retry is set by worker k's answer. */
  ghost predicate Punctual(w: World, v: World, k: WorkerId, id: AttemptId)
    requires id in w.j.attempts && id in v.j.attempts
  {
    var p, q := WorkerOf(w, k), WorkerOf(v, k);
    && (v.j.attempts[id] == w.j.attempts[id] || v.j.attempts[id].state != Retryable
        || (p.Resolving? && p.id == id && p.answer.NotSent? && v.j.attempts[id].nextAt >= p.since + MIN_RETRY_DELAY))
    && (q.Resolving? ==> q.since >= w.now || (p.Resolving? && q == p.(tries := q.tries)))
  }

  lemma TouchLaterReach(w: World, v: World, k: WorkerId, id: AttemptId)
    requires Touches(w, v, k, id) && Punctual(w, v, k, id)
    ensures LaterReach(w, v)
  {
    forall i, c | c <= w.now && OutOfReach(w, i, c)
      ensures OutOfReach(v, i, c)
    {
      if k in w.workers { assert !Overdue(w.workers[k], i, c); }
      forall l | l in v.workers
        ensures !Overdue(v.workers[l], i, c)
      {
        assert WorkerOf(v, l) == v.workers[l];
        if l != k { assert WorkerOf(w, l) == w.workers[l] && !Overdue(w.workers[l], i, c); }
      }
    }
  }

  /** The four steps of one worker on its attempt share this argument. */
  lemma TouchKeeps(w: World, v: World, k: WorkerId, id: AttemptId)
    requires Inv(w) && Touches(w, v, k, id)
    requires forall l | l in w.workers && l != k :: !Works(w.workers[l], id)
    requires WorkerOf(v, k).Idle? || WorkerOf(v, k).id == id
    requires AttemptInv(v, id) && WorkerInv(v, WorkerOf(v, k))
    requires if v.j.attempts[id].state == Sent && w.j.attempts[id].state != Sent
             then v.j.delivered == w.j.delivered + set x | x in w.j.items && w.j.items[x] == id
             else v.j.delivered == w.j.delivered && (w.j.attempts[id].state == Sent ==> v.j.attempts[id].state == Sent)
    requires Concluded(w, id) ==> v.j.attempts[id] == w.j.attempts[id] && v.calls[id] == w.calls[id]
    requires !Abandoned(w, id)
    requires Punctual(w, v, k, id)
    ensures Inv(v) && Later(w, v)
  {
    hide RowInv, Touches, WorkerInv, AttemptInv, Concluded, LaterRows, Reserved, Punctual, LaterReach;
    TouchKeepsRows(w, v, k, id);
    TouchKeepsLedger(w, v, k, id);
    TouchKeepsSenders(w, v, k, id);
    TouchLaterStates(w, v, k, id);
    TouchLaterReach(w, v, k, id);
  }

  lemma ClaimKeeps(w: World, k: WorkerId, id: AttemptId, cutoff: Time, locked: set<AttemptId>, tx: Tx)
    requires Inv(w) && WorkerOf(w, k).Idle? && Candidate(w.j, cutoff, locked, id)
    ensures Inv(Claimed(w, k, id, tx)) && Later(w, Claimed(w, k, id, tx))
  {
    hide Keyed, Reserved, Ledger, Later;
    var v := Claimed(w, k, id, tx);
    if tx.Abort? {
      LaterRefl(w);
    } else {
      assert AttemptInv(w, id);
      forall l | l in w.workers
        ensures !Works(w.workers[l], id)
      {
        assert WorkerInv(w, w.workers[l]);
      }
      TouchKeeps(w, v, k, id);
    }
  }

  lemma LaterRefl(w: World)
    ensures Later(w, w)
  {
  }

  /** A working worker is its attempt's only one. */
  lemma WorkerFacts(w: World, k: WorkerId)
    requires Senders(w) && k in w.workers && !w.workers[k].Idle?
    ensures var id := w.workers[k].id;
            && WorkerInv(w, w.workers[k]) && AttemptInv(w, id) && !Abandoned(w, id)
            && forall l | l in w.workers && l != k :: !Works(w.workers[l], id)
  {
    var id := w.workers[k].id;
    assert WorkerInv(w, w.workers[k]) && AttemptInv(w, id) && Works(w.workers[k], id);
    forall l | l in w.workers && l != k
      ensures !Works(w.workers[l], id)
    {
      assert Apart(w.workers[l], w.workers[k]);
    }
  }

  lemma SendKeeps(w: World, k: WorkerId, answer: Answer, reached: bool)
    requires Inv(w) && WorkerOf(w, k).Holding? && (Conclusive(answer) ==> !reached)
    ensures var v := Called(w, k, WorkerOf(w, k).id, answer, reached); Inv(v) && Later(w, v)
  {
    hide Keyed, Reserved, Ledger, Later;
    WorkerFacts(w, k);
    TouchKeeps(w, Called(w, k, WorkerOf(w, k).id, answer, reached), k, w.workers[k].id);
  }

  lemma RefusalKeeps(w: World, k: WorkerId, answer: Answer)
    requires Inv(w) && WorkerOf(w, k).Holding? && Conclusive(answer)
    ensures var v := Refused(w, k, WorkerOf(w, k).id, answer); Inv(v) && Later(w, v)
  {
    hide Keyed, Reserved, Ledger, Later;
    WorkerFacts(w, k);
    TouchKeeps(w, Refused(w, k, WorkerOf(w, k).id, answer), k, w.workers[k].id);
  }

  lemma CrashKeeps(w: World, k: WorkerId)
    requires Inv(w) && !WorkerOf(w, k).Idle?
    ensures var v := w.(workers := w.workers[k := Idle]); Inv(v) && Later(w, v)
  {
    hide Keyed, Reserved, Ledger, Later;
    WorkerFacts(w, k);
    TouchKeeps(w, w.(workers := w.workers[k := Idle]), k, w.workers[k].id);
  }

  /** How a recording transaction (j, ok) may change the journal. */
  ghost predicate Recorded(w: Journal, j: Journal, ok: bool, id: AttemptId, answer: Answer, earliest: Time)
    requires id in w.attempts
  {
    && j.tasks == w.tasks && j.byKey == w.byKey && j.items == w.items
    && j.attempts.Keys == w.attempts.Keys && SameIdentity(w.attempts[id], j.attempts[id])
    && (forall i | i in w.attempts && i != id :: j.attempts[i] == w.attempts[i])
    && (if answer.Delivered? && ok && w.attempts[id].state != Sent
        then j.attempts[id].state == Sent && j.delivered == w.delivered + set x | x in w.items && w.items[x] == id
        else j.delivered == w.delivered && (w.attempts[id].state == Sent ==> j == w)
             && (j.attempts[id].state == Sent ==> w.attempts[id].state == Sent))
    && (!ok ==> j == w)
    && (ok && j.attempts[id].state == Retryable ==> answer.NotSent? && j.attempts[id].nextAt >= earliest)
  }

  lemma RecordEffect(j: Journal, id: AttemptId, answer: Answer, transport: Bytes, marker: Marker, reason: Bytes,
                     retryAt: Time, earliest: Time)
    requires id in j.attempts && retryAt >= earliest
    requires j.attempts[id].state == Dispatching || (answer.Delivered? && j.attempts[id].state == Sent)
    ensures var (v, ok) := Record(j, id, answer, transport, marker, reason, retryAt);
            Recorded(j, v, ok, id, answer, earliest)
  {
    hide TrimSpace;
  }

  lemma DeferredCallsAreSettled(s: seq<Call>)
    requires AllButLastSettled(s)
    requires s == [] || (s[|s| - 1].answer.NotSent? && !s[|s| - 1].reached)
    ensures AllSettled(MarkDeferred(s))
  {
  }

  lemma ResolveTouches(w: World, k: WorkerId, j: Journal, ok: bool, tx: Tx, expired: bool)
    requires WorkerOf(w, k).Resolving? && WorkerOf(w, k).id in w.j.attempts && WorkerOf(w, k).id in w.calls
    requires Recorded(w.j, j, ok, WorkerOf(w, k).id, WorkerOf(w, k).answer, WorkerOf(w, k).since + MIN_RETRY_DELAY)
    ensures Touches(w, Resolved(w, k, WorkerOf(w, k), j, ok, tx, expired), k, WorkerOf(w, k).id)
  {
  }

  lemma ResolveKeepsAttempt(w: World, k: WorkerId, j: Journal, ok: bool, tx: Tx, expired: bool)
    requires WorkerOf(w, k).Resolving? && WorkerInv(w, WorkerOf(w, k)) && AttemptInv(w, WorkerOf(w, k).id)
    requires Recorded(w.j, j, ok, WorkerOf(w, k).id, WorkerOf(w, k).answer, WorkerOf(w, k).since + MIN_RETRY_DELAY)
    ensures var v := Resolved(w, k, WorkerOf(w, k), j, ok, tx, expired);
            AttemptInv(v, WorkerOf(w, k).id) && WorkerInv(v, WorkerOf(v, k))
  {
    var p := WorkerOf(w, k);
    if p.answer.NotSent? && p.called {
      DeferredCallsAreSettled(w.calls[p.id]);
    }
  }

  lemma ResolveKeeps(w: World, k: WorkerId, j: Journal, ok: bool, tx: Tx, expired: bool)
    requires Inv(w) && WorkerOf(w, k).Resolving?
    requires WorkerOf(w, k).id in w.j.attempts
             && Recorded(w.j, j, ok, WorkerOf(w, k).id, WorkerOf(w, k).answer, WorkerOf(w, k).since + MIN_RETRY_DELAY)
    ensures var v := Resolved(w, k, WorkerOf(w, k), j, ok, tx, expired); Inv(v) && Later(w, v)
  {
    hide Keyed, Reserved, Ledger, Later, Touches, AllSettled, AllButLastSettled, MarkDeferred, Abandoned, Works;
    WorkerFacts(w, k);
    ResolveTouches(w, k, j, ok, tx, expired);
    ResolveKeepsAttempt(w, k, j, ok, tx, expired);
    TouchKeeps(w, Resolved(w, k, WorkerOf(w, k), j, ok, tx, expired), k, WorkerOf(w, k).id);
  }

  lemma BeginKeeps(w: World, k: WorkerId, newId: AttemptId, task: TaskId, user: UserId, text: Bytes,
                   refs: seq<Ref>, tx: Tx)
    requires Inv(w) && WorkerOf(w, k).Idle? && newId !in w.j.attempts
    ensures var v := Begun(w, k, newId, task, user, text, refs, tx); Inv(v) && Later(w, v)
  {
    hide OccurrenceKey, Proper, TrimSpace, KeptOf, Senders, LaterStates, Reserved, Keyed, Ledger;
    var v := Begun(w, k, newId, task, user, text, refs, tx);
    if v == w {
      LaterRefl(w);
    } else {
      NormalizedRefsAreProper(refs);
      var kept := Kept(CleanAll(refs));
      var a := Attempt(task, user, OccurrenceKey(kept), text, Dispatching, 0, w.now, 1);
      InsertKeepsRows(w, newId, a, kept, v);
      InsertKeeps(w, v, k, newId, a);
    }
  }

  lemma QueueKeeps(w: World, newId: AttemptId, task: TaskId, text: Bytes, refs: seq<Ref>, at: Time)
    requires Inv(w) && Distinct(refs) && (forall r | r in refs :: Proper(r)) && CanEnqueue(w.j, newId, task, refs)
    ensures var v := Created(w, Enqueue(w.j, newId, task, text, refs, at), newId, refs); Inv(v) && Later(w, v)
  {
    hide OccurrenceKey, Proper, Senders, LaterStates, Reserved, Keyed, Ledger;
    var a := Attempt(task, w.j.tasks[task], OccurrenceKey(refs), text, Retryable, at, at, 0);
    var v := Created(w, Enqueue(w.j, newId, task, text, refs, at), newId, refs);
    InsertKeepsRows(w, newId, a, refs, v);
    InsertKeeps(w, v, 0, newId, a);
  }

  // ---------- a confirmation without a worker ----------

  /** Nothing, or the attempt goes from dispatching to sent with its refs. */
  ghost predicate Confirms(w: Journal, j: Journal, id: AttemptId) {
    j == w || (id in w.attempts && w.attempts[id].state == Dispatching
               && j == SetState(w, id, Sent, 0).(delivered := w.delivered + set x | x in w.items && w.items[x] == id))
  }

  lemma ConfirmConfirms(j: Journal, id: AttemptId, transport: Bytes, marker: Marker)
    ensures Confirms(j, Confirm(j, id, transport, marker).0, id)
  {
    hide TrimSpace;
  }

  lemma ConfirmLaterSenders(w: World, v: World, id: AttemptId)
    requires Senders(w) && Acknowledged(w, id) && Confirms(w.j, v.j, id) && v == w.(j := v.j)
    ensures Senders(v)
  {
    forall i | i in v.j.attempts
      ensures AttemptInv(v, i)
    {
      assert AttemptInv(w, i);
    }
    forall l | l in v.workers
      ensures WorkerInv(v, v.workers[l])
    {
      assert WorkerInv(w, w.workers[l]);
    }
    hide WorkerInv, AttemptInv;
    forall l, m | l in v.workers && m in v.workers && l != m
      ensures Apart(v.workers[l], v.workers[m])
    {
      assert Apart(w.workers[l], w.workers[m]);
    }
  }

  lemma ConfirmLaterStates(w: World, v: World, id: AttemptId)
    requires Acknowledged(w, id) && Confirms(w.j, v.j, id) && v == w.(j := v.j)
    ensures LaterStates(w, v)
  {
  }

  lemma ConfirmLaterKeeps(w: World, id: AttemptId, transport: Bytes, marker: Marker)
    requires Inv(w) && Acknowledged(w, id)
    ensures var v := w.(j := Confirm(w.j, id, transport, marker).0); Inv(v) && Later(w, v)
  {
    hide RowInv, WorkerInv, AttemptInv, Concluded, Abandoned, Acknowledged, Reserved, Keyed, Ledger, Senders,
         LaterRows, LaterStates, LaterReach, Confirm, Punctual, Touches;
    var v := w.(j := Confirm(w.j, id, transport, marker).0);
    ConfirmConfirms(w.j, id, transport, marker);
    if v.j == w.j {
      LaterRefl(w);
    } else {
      ConfirmTouches(w, v, id);
      TouchKeepsRows(w, v, 0, id);
      TouchKeepsLedger(w, v, 0, id);
      TouchLaterReach(w, v, 0, id);
      ConfirmLaterSenders(w, v, id);
      ConfirmLaterStates(w, v, id);
    }
  }

  lemma ConfirmTouches(w: World, v: World, id: AttemptId)
    requires Confirms(w.j, v.j, id) && v.j != w.j && v == w.(j := v.j)
    ensures Touches(w, v, 0, id) && Punctual(w, v, 0, id)
  {
  }

  /** A new task, a legacy ledger row or a later clock. */
  ghost predicate Outside(w: World, v: World) {
    && w.now <= v.now && v.begun == w.begun && v.calls == w.calls && v.workers == w.workers
    && v.j.attempts == w.j.attempts && v.j.byKey == w.j.byKey && v.j.items == w.j.items
    && (forall t | t in w.j.tasks :: t in v.j.tasks && v.j.tasks[t] == w.j.tasks[t])
    && (exists legacy :: v.legacy == w.legacy + legacy && v.j.delivered == w.j.delivered + legacy)
  }

  lemma OutsideKeeps(w: World, v: World)
    requires Inv(w) && Outside(w, v)
    ensures Inv(v) && Later(w, v)
  {
    hide RowInv, Owns, SentItem, LaterStates, Senders;
    OutsideKeepsSenders(w, v);
    OutsideKeepsRows(w, v);
  }

  lemma OutsideKeepsRows(w: World, v: World)
    requires Keyed(w) && Reserved(w) && Ledger(w) && Outside(w, v)
    ensures Keyed(v) && Reserved(v) && Ledger(v)
  {
    hide OccurrenceKey, Proper, Distinct;
    forall id | id in v.begun
      ensures RowInv(v.j, id, v.begun[id])
    {
      assert RowInv(w.j, id, w.begun[id]);
    }
    forall id, r | id in w.begun && r in w.begun[id]
      ensures Owns(v.j, id, v.j.attempts[id].task, r)
    {
      assert Owns(w.j, id, w.j.attempts[id].task, r);
    }
    assert forall k :: SentItem(v.j, k) <==> SentItem(w.j, k);
  }

  lemma OutsideKeepsSenders(w: World, v: World)
    requires Senders(w) && w.now <= v.now
    requires v.j.attempts == w.j.attempts && v.calls == w.calls && v.workers == w.workers
    ensures Senders(v) && LaterStates(w, v) && LaterReach(w, v)
  {
    forall id | id in v.j.attempts
      ensures AttemptInv(v, id)
    {
      assert AttemptInv(w, id);
    }
    forall k | k in v.workers
      ensures WorkerInv(v, v.workers[k])
    {
      assert WorkerInv(w, w.workers[k]);
    }
    forall k, l | k in v.workers && l in v.workers && k != l
      ensures Apart(v.workers[k], v.workers[l])
    {
      assert Apart(w.workers[k], w.workers[l]);
    }
  }

  lemma StepKeeps(w: World, s: Step)
    requires Inv(w) && Enabled(w, s)
    ensures Inv(Apply(w, s)) && Later(w, Apply(w, s))
  {
    hide Inv, Later, Begun, Claimed, Refused, Called, Resolved, Record, Created, Enqueue, Candidate, CanEnqueue,
         Recorded, Proper, Distinct;
    match s {
      case BeginAttempt(k, newId, task, user, text, refs, tx) => BeginKeeps(w, k, newId, task, user, text, refs, tx);
      case QueueResult(newId, task, text, refs, at) => QueueKeeps(w, newId, task, text, refs, at);
      case ClaimDue(k, id, cutoff, locked, tx) => ClaimKeeps(w, k, id, cutoff, locked, tx);
      case Preflight(k, answer) => RefusalKeeps(w, k, answer);
      case Send(k, answer, reached) => SendKeeps(w, k, answer, reached);
      case Resolve(k, transport, marker, reason, retryAt, tx, expired) =>
        var p := WorkerOf(w, k);
        ResolverFacts(w, k);
        RecordEffect(w.j, p.id, p.answer, transport, marker, reason, retryAt, p.since + MIN_RETRY_DELAY);
        var (j, ok) := Record(w.j, p.id, p.answer, transport, marker, reason, retryAt);
        ResolveKeeps(w, k, j, ok, tx, expired);
      case ConfirmLater(id, transport, marker, tx) =>
        if tx.Abort? {
          LaterRefl(w);
        } else {
          ConfirmLaterKeeps(w, id, transport, marker);
        }
      case Crash(k) => CrashKeeps(w, k);
      case CreateTask(_, _) =>
        assert w.legacy + {} == w.legacy && w.j.delivered + {} == w.j.delivered;
        OutsideKeeps(w, Apply(w, s));
      case LegacyDelivered(item) => OutsideKeeps(w, Apply(w, s));
      case Tick(_) =>
        assert w.legacy + {} == w.legacy && w.j.delivered + {} == w.j.delivered;
        OutsideKeeps(w, Apply(w, s));
    }
  }

  lemma ResolverFacts(w: World, k: WorkerId)
    requires Inv(w) && WorkerOf(w, k).Resolving?
    ensures var p := WorkerOf(w, k);
            p.id in w.j.attempts
              && (w.j.attempts[p.id].state == Dispatching || (p.answer.Delivered? && w.j.attempts[p.id].state == Sent))
  {
    assert WorkerInv(w, w.workers[k]);
  }

  // ---------- whole runs ----------

  ghost predicate Run(w: World, steps: seq<Step>, v: World)
    decreases |steps|
  {
    if steps == [] then v == w
    else Enabled(w, steps[0]) && Run(Apply(w, steps[0]), steps[1..], v)
  }

  lemma LaterTransitive(u: World, w: World, v: World)
    requires Later(u, w) && Later(w, v)
    ensures Later(u, v)
  {
    forall id, c | c <= u.now && OutOfReach(u, id, c)
      ensures OutOfReach(v, id, c)
    {
      assert OutOfReach(w, id, c);
    }
  }

  lemma {:induction false} RunKeeps(w: World, steps: seq<Step>, v: World)
    requires Inv(w) && Run(w, steps, v)
    ensures Inv(v) && Later(w, v)
    decreases |steps|
  {
    hide Inv, Later, Apply, Enabled;
    if steps == [] {
      LaterRefl(w);
    } else {
      var next := Apply(w, steps[0]);
      StepKeeps(w, steps[0]);
      RunKeeps(next, steps[1..], v);
      LaterTransitive(w, next, v);
    }
  }

  lemma InitInv(w: World)
    requires Init(w)
    ensures Inv(w)
  {
  }

  /** Call number i for attempt id reached the user and carried ref r of the task. */
  ghost predicate Arrived(w: World, id: AttemptId, i: nat, task: TaskId, r: Ref) {
    && id in w.j.attempts && w.j.attempts[id].task == task
    && id in w.begun && r in w.begun[id]
    && id in w.calls && i < |w.calls[id]| && w.calls[id][i].reached
  }

  /** At-most-once delivery: over any run, with any interleaving of workers and
      crashes, a ref of a task reaches the user through at most one call. */
  lemma AtMostOnce(w0: World, steps: seq<Step>, w: World, task: TaskId, r: Ref, a: AttemptId, i: nat,
                   b: AttemptId, k: nat)
    requires Init(w0) && Run(w0, steps, w)
    requires Arrived(w, a, i, task, r) && Arrived(w, b, k, task, r)
    ensures a == b && i == k
  {
    InitInv(w0);
    RunKeeps(w0, steps, w);
    hide Run, Init, RowInv, Keyed, Ledger, WorkerInv, Later;
    assert Owns(w.j, a, task, r) && Owns(w.j, b, task, r);
    assert AttemptInv(w, a);
    OnlyLastCallArrives(w.calls[a], i, k);
  }

  lemma OnlyLastCallArrives(s: seq<Call>, i: nat, k: nat)
    requires AllButLastSettled(s) && i < |s| && k < |s| && s[i].reached && s[k].reached
    ensures i == k
  {
    assert forall n | 0 <= n < |s| - 1 :: Settled(s[n]);
  }

  /** A second call for an attempt is made only after the previous one was
      answered "definitely not sent", did not reach the user and was deferred. */
  lemma ResendOnlyAfterDeferral(w0: World, steps: seq<Step>, w: World, id: AttemptId, i: nat)
    requires Init(w0) && Run(w0, steps, w) && id in w.calls && i + 1 < |w.calls[id]|
    ensures Settled(w.calls[id][i])
  {
    InitInv(w0);
    RunKeeps(w0, steps, w);
    assert AttemptInv(w, id);
  }

  lemma OneLiveSender(w0: World, steps: seq<Step>, w: World, k: WorkerId, l: WorkerId)
    requires Init(w0) && Run(w0, steps, w) && k != l
    ensures Apart(WorkerOf(w, k), WorkerOf(w, l))
  {
    InitInv(w0);
    RunKeeps(w0, steps, w);
  }

  /** Sent, uncertain and rejected attempts, and attempts whose worker died while
      dispatching, are never sent again. The former never change state; the latter
      stay dispatching, or are confirmed as sent if their last call was acknowledged. */
  lemma NeverSentAgain(w0: World, before: seq<Step>, w: World, after: seq<Step>, v: World, id: AttemptId)
    requires Init(w0) && Run(w0, before, w) && Run(w, after, v)
    requires Concluded(w, id) || Abandoned(w, id)
    ensures id in w.calls && id in v.calls && v.calls[id] == w.calls[id]
    ensures id in v.j.attempts
    ensures v.j.attempts[id].state == w.j.attempts[id].state
            || (Abandoned(w, id) && Acknowledged(w, id) && v.j.attempts[id].state == Sent)
  {
    hide Init, Inv, Run, LaterRows, LaterReach, Acknowledged;
    InitInv(w0);
    RunKeeps(w0, before, w);
    RunKeeps(w, after, v);
    CallsAreKept(w, id);
    if Abandoned(w, id) {
      assert Abandoned(v, id) || (ConfirmedSent(v, id) && Acknowledged(w, id));
    }
  }

  lemma CallsAreKept(w: World, id: AttemptId)
    requires Inv(w) && id in w.j.attempts
    ensures id in w.calls
  {
    hide Keyed, Reserved, Ledger, AttemptInv, WorkerInv, Apart;
  }

  ghost predicate CanBecomeSent(w: World, id: AttemptId) {
    exists steps, v :: Run(w, steps, v) && ConfirmedSent(v, id)
  }

  /** Exactly which of the latter can still be confirmed. */
  lemma AbandonedIsConfirmedExactlyWhen(w: World, id: AttemptId)
    requires Inv(w) && Abandoned(w, id) && id != 0
    ensures CanBecomeSent(w, id) <==> Acknowledged(w, id)
  {
    hide Inv, Run, Acknowledged;
    if Acknowledged(w, id) {
      var s := ConfirmLater(id, BUSY, Plain, Commit);
      BusyIsNotBlank();
      LateConfirmation(w, id);
      OneStep(w, s);
    } else {
      forall steps, v | Run(w, steps, v)
        ensures !ConfirmedSent(v, id)
      {
        RunKeeps(w, steps, v);
        assert Abandoned(v, id);
      }
    }
  }

  lemma LateConfirmation(w: World, id: AttemptId)
    requires Acknowledged(w, id) && Abandoned(w, id) && id != 0 && TrimSpace(BUSY) != []
    ensures var s := ConfirmLater(id, BUSY, Plain, Commit); Enabled(w, s) && ConfirmedSent(Apply(w, s), id)
  {
    hide TrimSpace;
  }

  /** What a call comes to when its worker lives on and its transaction commits: exactly that
      call is on record, the row is in the state its answer calls for, due again at the time
      asked for if it was deferred, its refs are in the ledger if and only if it was delivered,
      and the worker is free. */
  lemma SendAndRecord(w: World, k: WorkerId, answer: Answer, reached: bool, transport: Bytes, reason: Bytes,
                      retryAt: Time)
    requires Inv(w) && WorkerOf(w, k).Holding? && WorkerOf(w, k).id != 0 && (Conclusive(answer) ==> !reached)
    requires retryAt >= w.now + MIN_RETRY_DELAY && retryAt != 0 && TrimSpace(transport) != [] && TrimSpace(reason) != []
    ensures var id, send := WorkerOf(w, k).id, Send(k, answer, reached);
            var resolve := Resolve(k, transport, Plain, reason, retryAt, Commit, false);
            && id in w.j.attempts && Enabled(w, send) && Enabled(Apply(w, send), resolve)
            && var v := Apply(Apply(w, send), resolve);
               && WorkerOf(v, k).Idle?
               && CallsOf(v, id) == CallsOf(w, id) + [Call(answer, reached, answer.NotSent?)]
               && v.j.attempts == w.j.attempts[id := w.j.attempts[id].(
                                    state := match answer
                                             case Delivered => State.Sent
                                             case NotSent => State.Retryable
                                             case Permanent => State.Rejected
                                             case Ambiguous => State.Uncertain,
                                    nextAt := if answer.NotSent? then retryAt else 0)]
               && forall x :: x in v.j.delivered
                              <==> x in w.j.delivered
                                   || (answer.Delivered? && x in w.j.items && w.j.items[x] == id)
  {
    hide Keyed, Reserved, Ledger, TrimSpace, Confirm, Defer, Reject, MarkUncertain, AllSettled;
    var id := WorkerOf(w, k).id;
    assert id in w.j.attempts && w.j.attempts[id].state == Dispatching by { assert WorkerInv(w, w.workers[k]); }
    hide Senders;
    RecordingExactlyWhen(w.j, id, transport, Plain, reason, retryAt);
    var calls := CallsOf(w, id);
    assert MarkDeferred(calls + [Call(answer, reached, false)]) == calls + [Call(answer, reached, true)];
    var sent := Apply(w, Send(k, answer, reached));
    assert WorkerOf(sent, k) == Resolving(id, answer, true, 0, w.now)
           && CallsOf(sent, id) == calls + [Call(answer, reached, false)];
  }

  /** An attempt comes into being by one of two steps, with the message it was given,
      for the user it was given or the task's owner. */
  lemma CreatedWithItsMessage(w: World, s: Step, id: AttemptId)
    requires Inv(w) && Enabled(w, s) && id !in w.j.attempts && id in Apply(w, s).j.attempts
    ensures var row := Apply(w, s).j.attempts[id];
            || (s.BeginAttempt? && s.newId == id && row.task == s.task && row.user == s.user && row.text == s.text
                && row.state == Dispatching && row.sends == 1)
            || (s.QueueResult? && s.newId == id && row.task == s.task && row.text == s.text
                && s.task in w.j.tasks && row.user == w.j.tasks[s.task] && Due(Apply(w, s).j, id, s.at)
                   && row.sends == 0)
  {
    hide Inv, Begin, Enqueue, Claim, Record, Confirm, Proper, Distinct;
    match s {
      case BeginAttempt(k, newId, task, user, text, refs, tx) =>
        FailedBeginKeeps(w.j, newId, task, user, text, refs, w.now);
        if Begin(w.j, newId, task, user, text, refs, w.now).1 == Ok((newId, true)) {
          BegunRow(w.j, newId, task, user, text, refs, w.now);
          BeginAddsOne(w.j, newId, task, user, text, refs, w.now);
        }
      case QueueResult(newId, task, text, refs, at) =>
        QueuedRow(w.j, newId, task, text, refs, at);
        EnqueueAddsOne(w.j, newId, task, text, refs, at);
      case Resolve(k, transport, marker, reason, retryAt, _, _) =>
        var p := WorkerOf(w, k);
        RecordAddsNone(w.j, p.id, p.answer, transport, marker, reason, retryAt);
      case ConfirmLater(i, transport, marker, _) =>
        RecordAddsNone(w.j, i, Delivered, transport, marker, [], 0);
        ConfirmIsRecord(w.j, i, transport, marker);
      case ClaimDue(_, i, _, _, _) => ClaimAddsNone(w.j, i);
      case _ =>
    }
  }

  lemma ConfirmIsRecord(j: Journal, id: AttemptId, transport: Bytes, marker: Marker)
    ensures Record(j, id, Delivered, transport, marker, [], 0) == Confirm(j, id, transport, marker)
  {
  }

  lemma FailedBeginKeeps(j: Journal, newId: AttemptId, task: TaskId, user: UserId, text: Bytes,
                         refs: seq<Ref>, now: Time)
    requires newId !in j.attempts
    ensures Begin(j, newId, task, user, text, refs, now).1 != Ok((newId, true)) ==>
              Begin(j, newId, task, user, text, refs, now).0 == j
  {
    BeginExactlyWhen(j, newId, task, user, text, refs, now);
    hide Begin, TrimSpace, KeptOf, OccurrenceKey, CleanAll;
  }

  lemma BeginAddsOne(j: Journal, newId: AttemptId, task: TaskId, user: UserId, text: Bytes, refs: seq<Ref>, now: Time)
    ensures Begin(j, newId, task, user, text, refs, now).0.attempts.Keys <= j.attempts.Keys + {newId}
  {
    hide TrimSpace, KeptOf, OccurrenceKey, CleanAll, Oversized, Reserve;
  }

  lemma EnqueueAddsOne(j: Journal, newId: AttemptId, task: TaskId, text: Bytes, refs: seq<Ref>, now: Time)
    requires Distinct(refs) && task in j.tasks
    ensures Enqueue(j, newId, task, text, refs, now).attempts.Keys == j.attempts.Keys + {newId}
  {
    hide OccurrenceKey, Reserve;
  }

  lemma ClaimAddsNone(j: Journal, id: AttemptId)
    requires id in j.attempts
    ensures Claim(j, id).attempts.Keys == j.attempts.Keys
  {
  }

  lemma RecordAddsNone(j: Journal, id: AttemptId, answer: Answer, transport: Bytes, marker: Marker, reason: Bytes,
                       retryAt: Time)
    ensures Record(j, id, answer, transport, marker, reason, retryAt).0.attempts.Keys == j.attempts.Keys
  {
    hide TrimSpace;
  }

  /** And that message never changes, whatever happens to the attempt. */
  lemma MessageIsImmutable(w: World, steps: seq<Step>, v: World, id: AttemptId)
    requires Inv(w) && Run(w, steps, v) && id in w.j.attempts
    ensures id in v.j.attempts && v.j.attempts[id].task == w.j.attempts[id].task
            && v.j.attempts[id].user == w.j.attempts[id].user && v.j.attempts[id].text == w.j.attempts[id].text
  {
    hide Inv, Run, LaterStates, LaterReach;
    RunKeeps(w, steps, v);
  }

  /** Two attempts of a task never share a ref, each holds exactly the refs it
      was created with, and a reservation once made is kept. */
  lemma ReservationsAreExclusiveAndKept(w0: World, before: seq<Step>, w: World, after: seq<Step>, v: World,
                                        id: AttemptId, task: TaskId, r: Ref)
    requires Init(w0) && Run(w0, before, w) && Run(w, after, v) && id in w.begun
    ensures Owns(w.j, id, task, r) <==> id in w.j.attempts && task == w.j.attempts[id].task && r in w.begun[id]
    ensures Owns(w.j, id, task, r) ==> Owns(v.j, id, task, r)
    ensures id in v.begun && v.begun[id] == w.begun[id]
    ensures forall other | other in w.begun && other != id && Owns(w.j, id, task, r) ::
              !(r in w.begun[other] && other in w.j.attempts && w.j.attempts[other].task == task)
  {
    InitInv(w0);
    RunKeeps(w0, before, w);
    RunKeeps(w, after, v);
    if id in w.j.attempts && task == w.j.attempts[id].task && r in w.begun[id] {
      assert Owns(w.j, id, w.j.attempts[id].task, r);
    }
    assert forall other | other in w.begun && r in w.begun[other] :: Owns(w.j, other, w.j.attempts[other].task, r);
  }

  /** Apart from legacy rows the ledger is exactly the refs of sent attempts. */
  lemma LedgerIsSentRefs(w0: World, steps: seq<Step>, w: World, task: TaskId, r: Ref)
    requires Init(w0) && Run(w0, steps, w) && (task, r) !in w.legacy
    ensures (task, r) in w.j.delivered <==>
              exists id :: id in w.begun && r in w.begun[id] && id in w.j.attempts && w.j.attempts[id].task == task
                && w.j.attempts[id].state == Sent
  {
    InitInv(w0);
    RunKeeps(w0, steps, w);
    if SentItem(w.j, (task, r)) {
      var id := w.j.items[(task, r)];
      assert id in w.begun && r in w.begun[id];
    }
    forall id | id in w.begun && r in w.begun[id] && id in w.j.attempts && w.j.attempts[id].task == task
      && w.j.attempts[id].state == Sent
      ensures SentItem(w.j, (task, r))
    {
      assert Owns(w.j, id, task, r);
    }
  }

  /** Beginning again for a task that already journaled exactly these refs, in
      whatever order, is an idempotent hit; it is one only then. */
  lemma RepeatedBegin(w0: World, steps: seq<Step>, w: World, newId: AttemptId, user: UserId, text: Bytes,
                      refs: seq<Ref>, id: AttemptId, task: TaskId)
    requires Init(w0) && Run(w0, steps, w) && id in w.begun && newId !in w.begun
    requires id in w.j.attempts && w.j.attempts[id].task == task && w.j.attempts[id].user == user
    requires Admissible(task, user, text, refs)
    ensures Begin(w.j, newId, task, user, text, refs, w.now) == (w.j, Ok((id, false)))
            <==> Elements(Kept(CleanAll(refs))) == Elements(w.begun[id])
  {
    InitInv(w0);
    RunKeeps(w0, steps, w);
    hide TrimSpace, KeptOf, OccurrenceKey, Proper, Distinct, Run, Init, Reserved, Ledger, Senders, Later, Begin,
         Admissible;
    AdmissibleRefsAreProper(task, user, text, refs);
    assert RowInv(w.j, id, w.begun[id]);
    BeginHits(w.j, newId, task, user, text, refs, w.now, id);
    SameKeySameRefs(w, id, Kept(CleanAll(refs)));
  }

  lemma AdmissibleRefsAreProper(task: TaskId, user: UserId, text: Bytes, refs: seq<Ref>)
    requires Admissible(task, user, text, refs)
    ensures Distinct(Kept(CleanAll(refs))) && forall r | r in Kept(CleanAll(refs)) :: Proper(r)
  {
    hide TrimSpace, KeptOf, Proper;
    NormalizedRefsAreProper(refs);
  }

  lemma SameKeySameRefs(w: World, id: AttemptId, refs: seq<Ref>)
    requires Keyed(w) && id in w.begun && Distinct(refs) && forall r | r in refs :: Proper(r)
    ensures OccurrenceKey(refs) == w.j.attempts[id].key <==> Elements(refs) == Elements(w.begun[id])
  {
    hide TrimSpace, OccurrenceKey;
    assert RowInv(w.j, id, w.begun[id]);
    KeyIdentifiesRefSet(refs, w.begun[id]);
  }

  // ---------- one pass and its cutoff ----------

  /** Nobody works on an intent that waits for a claim. */
  lemma NobodyWorks(w: World, id: AttemptId)
    requires Senders(w) && id in w.j.attempts && w.j.attempts[id].state == Retryable
    ensures forall k | k in w.workers :: !Works(w.workers[k], id)
  {
    hide AttemptInv, Apart;
    forall k | k in w.workers
      ensures !Works(w.workers[k], id)
    {
      assert WorkerInv(w, w.workers[k]);
    }
  }

  /** A claimed intent is out of reach of the pass that claimed it: whoever holds
      it takes its answer after the cutoff. */
  lemma ClaimedIsOutOfReach(w: World, s: Step)
    requires Inv(w) && s.ClaimDue? && Enabled(w, s) && !s.tx.Abort?
    ensures s.cutoff <= w.now && Inv(Apply(w, s)) && OutOfReach(Apply(w, s), s.id, s.cutoff)
  {
    StepKeeps(w, s);
    NobodyWorks(w, s.id);
    ClaimedReach(w, s.k, s.id, s.cutoff, s.tx);
    hide Inv, Later, NoLater, OutOfReach, Claimed;
  }

  lemma ClaimedReach(w: World, k: WorkerId, id: AttemptId, c: Time, tx: Tx)
    requires id in w.j.attempts && !tx.Abort? && forall l | l in w.workers :: !Works(w.workers[l], id)
    ensures OutOfReach(Claimed(w, k, id, tx), id, c)
  {
  }

  /** A pass fixes its claim cutoff when it starts, and no intent is claimed twice
      under one cutoff, however long deferrals take to commit. */
  lemma OncePerPass(w: World, first: Step, between: seq<Step>, v: World, second: Step)
    requires Inv(w) && first.ClaimDue? && Enabled(w, first) && !first.tx.Abort?
    requires Run(Apply(w, first), between, v)
    requires second.ClaimDue? && second.cutoff == first.cutoff && Enabled(v, second)
    ensures second.id != first.id
  {
    hide Inv, Run, LaterRows, LaterStates;
    var u := Apply(w, first);
    ClaimedIsOutOfReach(w, first);
    RunKeeps(u, between, v);
    assert OutOfReach(u, first.id, first.cutoff);
    assert OutOfReach(v, first.id, first.cutoff);
  }

  /** This step commits a deferral of id whose retry time is at most c. */
  predicate DefersWithin(w: World, s: Step, id: AttemptId, c: Time) {
    && s.Resolve? && !s.tx.Abort? && WorkerOf(w, s.k).Resolving?
    && WorkerOf(w, s.k).id == id && WorkerOf(w, s.k).answer.NotSent? && s.retryAt <= c
    && id != 0 && TrimSpace(s.reason) != [] && s.retryAt != 0
  }

  predicate Claims(w: World, s: Step, id: AttemptId) {
    s.ClaimDue? && s.id == id && !s.tx.Abort?
  }

  lemma RecordDue(j: Journal, p: AttemptId, answer: Answer, s: Step, id: AttemptId, c: Time)
    requires s.Resolve? && id in j.attempts && p in j.attempts
    requires j.attempts[p].state == Dispatching || (answer.Delivered? && j.attempts[p].state == Sent)
    ensures Due(Record(j, p, answer, s.transport, s.marker, s.reason, s.retryAt).0, id, c)
            <==> Due(j, id, c)
                 || (p == id && answer.NotSent? && s.retryAt <= c
                     && id != 0 && TrimSpace(s.reason) != [] && s.retryAt != 0)
  {
    hide TrimSpace;
  }

  lemma ResolveDue(w: World, s: Step, id: AttemptId, c: Time)
    requires s.Resolve? && Enabled(w, s) && id in w.j.attempts && WorkerOf(w, s.k).id in w.j.attempts
    requires var p := WorkerOf(w, s.k);
             w.j.attempts[p.id].state == Dispatching || (p.answer.Delivered? && w.j.attempts[p.id].state == Sent)
    ensures Due(Apply(w, s).j, id, c) <==> DefersWithin(w, s, id, c) || Due(w.j, id, c)
  {
    var p := WorkerOf(w, s.k);
    RecordDue(w.j, p.id, p.answer, s, id, c);
    RecordOk(w.j, p.id, p.answer, s);
    hide TrimSpace, Record, Due;
  }

  lemma RecordOk(j: Journal, p: AttemptId, answer: Answer, s: Step)
    requires s.Resolve?
    ensures var (v, ok) := Record(j, p, answer, s.transport, s.marker, s.reason, s.retryAt); !ok ==> v == j
  {
    hide TrimSpace;
  }

  lemma NewcomerDue(w: World, s: Step, id: AttemptId, c: Time)
    requires (s.BeginAttempt? || s.QueueResult?) && Enabled(w, s) && id in w.j.attempts
    ensures Due(Apply(w, s).j, id, c) <==> Due(w.j, id, c)
  {
    hide Admissible, OccurrenceKey, Kept, Reserve, TrimSpace, Distinct, Proper;
  }

  /** Exactly when one step leaves an intent due for the pass: it commits a deferral
      within the cutoff, or the intent was due and the step does not claim it. */
  lemma DueAfterStepExactlyWhen(w: World, s: Step, id: AttemptId, c: Time)
    requires Inv(w) && Enabled(w, s) && id in w.j.attempts
    ensures Due(Apply(w, s).j, id, c) <==> DefersWithin(w, s, id, c) || (Due(w.j, id, c) && !Claims(w, s, id))
  {
    hide Keyed, Reserved, Ledger, Senders, TrimSpace;
    match s {
      case Resolve(k, _, _, _, _, _, _) =>
        ResolverFacts(w, k);
        ResolveDue(w, s, id, c);
        hide Due, Apply;
      case BeginAttempt(_, _, _, _, _, _, _) => NewcomerDue(w, s, id, c); hide Due, Apply;
      case QueueResult(_, _, _, _, _) => NewcomerDue(w, s, id, c); hide Due, Apply;
      case _ => hide Begin, Enqueue, Record, NoLater;
    }
  }

  ghost predicate Unclaimed(w: World, steps: seq<Step>, id: AttemptId)
    decreases |steps|
  {
    steps == [] || (Enabled(w, steps[0]) && !Claims(w, steps[0], id) && Unclaimed(Apply(w, steps[0]), steps[1..], id))
  }

  /** A deferral within c committed somewhere in the run, and nobody claimed the
      intent after it. */
  ghost predicate DeferredWithin(w: World, steps: seq<Step>, id: AttemptId, c: Time)
    decreases |steps|
  {
    steps != [] && Enabled(w, steps[0])
    && var next := Apply(w, steps[0]);
       DeferredWithin(next, steps[1..], id, c) || (DefersWithin(w, steps[0], id, c) && Unclaimed(next, steps[1..], id))
  }

  /** Over whole runs, whatever else happens: an intent is due for the pass exactly
      if a deferral of it committed with a retry time within the cutoff, or it was
      due before, and nobody claimed it since. */
  lemma {:induction false} DueAfterRunExactlyWhen(w: World, steps: seq<Step>, v: World, id: AttemptId, c: Time)
    requires Inv(w) && Run(w, steps, v) && id in w.j.attempts
    ensures Due(v.j, id, c) <==> DeferredWithin(w, steps, id, c) || (Due(w.j, id, c) && Unclaimed(w, steps, id))
    decreases |steps|
  {
    hide Inv, Enabled, Apply, DefersWithin, Claims, Due, LaterStates, LaterReach;
    if steps != [] {
      var u := Apply(w, steps[0]);
      StepKeeps(w, steps[0]);
      DueAfterStepExactlyWhen(w, steps[0], id, c);
      DueAfterRunExactlyWhen(u, steps[1..], v, id, c);
    }
  }

  /** Some run of the protocol makes the intent due for a pass with cutoff c. */
  ghost predicate CanComeWithinReach(w: World, id: AttemptId, c: Time) {
    exists steps, v :: Run(w, steps, v) && Due(v.j, id, c)
  }

  /** Exactly which intents can still become due for a pass that has begun: those
      due already, and those whose holder took its answer before the pass, long
      enough for a retry within the cutoff, and has yet to record it. */
  lemma WithinReachExactlyWhen(w: World, id: AttemptId, c: Time)
    requires Inv(w) && id in w.j.attempts && id != 0 && c != 0 && c <= w.now
    ensures CanComeWithinReach(w, id, c) <==> !OutOfReach(w, id, c)
  {
    hide Inv, Run;
    if OutOfReach(w, id, c) {
      forall steps, v | Run(w, steps, v)
        ensures !Due(v.j, id, c)
      {
        RunKeeps(w, steps, v);
        assert OutOfReach(v, id, c);
      }
    } else if Due(w.j, id, c) {
      NoSteps(w);
    } else {
      var k :| k in w.workers && Overdue(w.workers[k], id, c);
      BusyIsNotBlank();
      LateDeferral(w, k, id, c, BUSY);
    }
  }

  lemma NoSteps(w: World)
    ensures Run(w, [], w)
  {
  }

  lemma OneStep(w: World, s: Step)
    requires Enabled(w, s)
    ensures Run(w, [s], Apply(w, s))
  {
    hide Enabled, Apply;
    assert [s][1..] == [];
  }

  /** Such a holder's deferral can commit with a retry time equal to the cutoff. */
  lemma LateDeferral(w: World, k: WorkerId, id: AttemptId, c: Time, reason: Bytes)
    requires Inv(w) && id in w.j.attempts && id != 0 && c != 0 && TrimSpace(reason) != []
    requires k in w.workers && Overdue(w.workers[k], id, c)
    ensures var s := Resolve(k, [], Plain, reason, c, Commit, false);
            Enabled(w, s) && Run(w, [s], Apply(w, s)) && Due(Apply(w, s).j, id, c)
  {
    hide TrimSpace, Inv, Apply, Due, Run, DefersWithin;
    var s := Resolve(k, [], Plain, reason, c, Commit, false);
    OneStep(w, s);
    OverdueDefers(w, s, id, c);
    DueAfterStepExactlyWhen(w, s, id, c);
  }

  lemma OverdueDefers(w: World, s: Step, id: AttemptId, c: Time)
    requires s.Resolve? && s.tx.Commit? && s.k in w.workers && Overdue(w.workers[s.k], id, c)
    requires id != 0 && TrimSpace(s.reason) != [] && s.retryAt != 0 && s.retryAt <= c
    ensures DefersWithin(w, s, id, c)
  {
    hide TrimSpace;
  }

  const BUSY: Bytes := [98]

  lemma BusyIsNotBlank()
    ensures TrimSpace(BUSY) != []
  {
    assert LeadingSpace(BUSY) == 0 && TrailingSpace(BUSY) == 0;
    hide LeadingSpace, TrailingSpace;
  }

  /** Sending on the shortest delay and letting time pass leads to this world. */
  function Late(w: World, k: WorkerId, at: Time): World
    requires WorkerOf(w, k).Holding?
  {
    Called(w, k, WorkerOf(w, k).id, NotSent, false).(now := at)
  }

  lemma RunsLate(w: World, k: WorkerId, at: Time)
    requires WorkerOf(w, k).Holding? && at >= w.now
    ensures Run(w, [Send(k, NotSent, false), Tick(at)], Late(w, k, at))
  {
    TwoSteps(w, Send(k, NotSent, false), Tick(at));
  }

  lemma LateFacts(w: World, k: WorkerId, at: Time)
    requires Inv(w) && WorkerOf(w, k).Holding? && at >= w.now
    ensures var id, u := WorkerOf(w, k).id, Late(w, k, at);
            && Inv(u) && u.now == at && id in u.j.attempts && !Due(u.j, id, at)
            && k in u.workers && u.workers[k] == Resolving(id, NotSent, true, 0, w.now)
  {
    RunsLate(w, k, at);
    RunKeeps(w, [Send(k, NotSent, false), Tick(at)], Late(w, k, at));
    HolderDispatches(w, k);
    hide Inv, Later, Run;
  }

  lemma HolderDispatches(w: World, k: WorkerId)
    requires Inv(w) && WorkerOf(w, k).Holding?
    ensures WorkerOf(w, k).id in w.j.attempts && w.j.attempts[WorkerOf(w, k).id].state == Dispatching
  {
    hide AttemptInv, Apart;
    assert WorkerInv(w, w.workers[k]);
  }

  /** The failing run: worker k takes an answer, asking for the shortest delay; a
      pass begins two seconds later, when the intent is not due; and when the
      deferral commits one second after that, it is. */
  lemma SlowDeferralComesWithinReach(w: World, k: WorkerId)
    requires Inv(w) && WorkerOf(w, k).Holding? && WorkerOf(w, k).id != 0 && w.now > 0
    ensures var id := WorkerOf(w, k).id;
            var cutoff := w.now + 2 * MIN_RETRY_DELAY;
            var u := Late(w, k, cutoff);
            var late := [Tick(cutoff + MIN_RETRY_DELAY),
                         Resolve(k, [], Plain, BUSY, w.now + MIN_RETRY_DELAY, Commit, false)];
            && Run(w, [Send(k, NotSent, false), Tick(cutoff)], u) && u.now == cutoff && !Due(u.j, id, cutoff)
            && exists v :: Run(u, late, v) && Due(v.j, id, cutoff)
  {
    hide Inv, TrimSpace, Run, Called, Due;
    var id, cutoff := WorkerOf(w, k).id, w.now + 2 * MIN_RETRY_DELAY;
    RunsLate(w, k, cutoff);
    LateFacts(w, k, cutoff);
    DefersLate(Late(w, k, cutoff), k, id, w.now + MIN_RETRY_DELAY, cutoff, cutoff + MIN_RETRY_DELAY);
  }

  lemma DefersLate(u: World, k: WorkerId, id: AttemptId, at: Time, c: Time, later: Time)
    requires Inv(u) && id in u.j.attempts && id != 0 && u.now <= later && 0 != at <= c
    requires k in u.workers && u.workers[k] == Resolving(id, NotSent, true, 0, at - MIN_RETRY_DELAY)
    ensures exists v :: Run(u, [Tick(later), Resolve(k, [], Plain, BUSY, at, Commit, false)], v) && Due(v.j, id, c)
  {
    var w := u.(now := later);
    var s := Resolve(k, [], Plain, BUSY, at, Commit, false);
    hide Inv, TrimSpace, Apply, Enabled, Due, Run, DefersWithin, Later, Overdue;
    TickSteps(u, later);
    StepKeeps(u, Tick(later));
    BusyIsNotBlank();
    LateIsEnabled(w, k, id, at, c);
    TwoSteps(u, Tick(later), s);
    OverdueDefers(w, s, id, c);
    DueAfterStepExactlyWhen(w, s, id, c);
    assert Due(Apply(w, s).j, id, c);
  }

  lemma LateIsEnabled(w: World, k: WorkerId, id: AttemptId, at: Time, c: Time)
    requires k in w.workers && w.workers[k] == Resolving(id, NotSent, true, 0, at - MIN_RETRY_DELAY) && at <= c
    ensures Enabled(w, Resolve(k, [], Plain, BUSY, at, Commit, false)) && Overdue(w.workers[k], id, c)
  {
  }

  lemma TickSteps(u: World, later: Time)
    requires u.now <= later
    ensures Enabled(u, Tick(later)) && Apply(u, Tick(later)) == u.(now := later)
  {
  }

  lemma TwoSteps(w: World, s: Step, t: Step)
    requires Enabled(w, s) && Enabled(Apply(w, s), t)
    ensures Run(w, [s, t], Apply(Apply(w, s), t))
  {
    hide Enabled, Apply;
    OneStep(Apply(w, s), t);
    assert [s, t][1..] == [t];
  }
}
