/** The durable notification journal: rows, reservations and the delivery
    ledger of agent_store.go. Every transaction is one pure function on Journal;
    class AgentTaskStore performs it in place on its tables. */
module Journal {
  import opened Common
  import opened Wrappers
  import opened Refs

  type TaskId = nat     // 0 stands for uuid.Nil
  type UserId = nat
  type AttemptId = nat
  type Time = int       // nanoseconds; 0 stands for the zero time

  datatype State = Dispatching | Retryable | Sent | Uncertain | Rejected

  datatype Attempt = Attempt(task: TaskId, user: UserId, key: Bytes, text: Bytes,
                             state: State, nextAt: Time, createdAt: Time, sends: nat)

  type Item = (TaskId, Ref)

  /** byKey is the unique index on (task_id, occurrence_key); items is keyed by
      the unique constraint on (task_id, input_id, item_key). */
  datatype Journal = Journal(
    tasks: map<TaskId, UserId>,
    attempts: map<AttemptId, Attempt>,
    byKey: map<(TaskId, Bytes), AttemptId>,
    items: map<Item, AttemptId>,
    delivered: set<Item>)

  /** What parsing the journaled text as an autonomous turn yields. */
  datatype Marker = Plain | Malformed | Autonomous(user: UserId)

  datatype Intent = Intent(id: AttemptId, task: TaskId, user: UserId, text: Bytes, refs: set<Ref>)

  predicate AllFree(items: map<Item, AttemptId>, task: TaskId, refs: seq<Ref>) {
    forall r | r in refs :: (task, r) !in items
  }

  /** The items after the first n refs are reserved by an attempt. */
  function Reserve(items: map<Item, AttemptId>, task: TaskId, refs: seq<Ref>, n: nat, id: AttemptId)
    : map<Item, AttemptId>
    requires n <= |refs|
  {
    if n == 0 then items else Reserve(items, task, refs, n - 1, id)[(task, refs[n - 1]) := id]
  }

  predicate Owns(j: Journal, id: AttemptId, task: TaskId, r: Ref) {
    (task, r) in j.items && j.items[(task, r)] == id
  }

  lemma {:induction false} ReserveFacts(items: map<Item, AttemptId>, task: TaskId, refs: seq<Ref>, n: nat,
                                        id: AttemptId)
    requires n <= |refs|
    ensures var after := Reserve(items, task, refs, n, id);
            && (forall t, r :: (t, r) in after <==> (t, r) in items || (t == task && r in refs[..n]))
            && (forall k | k in after :: after[k] == if k.0 == task && k.1 in refs[..n] then id else items[k])
  {
    if n > 0 {
      ReserveFacts(items, task, refs, n - 1, id);
      assert refs[..n] == refs[..n - 1] + [refs[n - 1]];
    }
  }

  function SetState(j: Journal, id: AttemptId, state: State, nextAt: Time): Journal
    requires id in j.attempts
  {
    j.(attempts := j.attempts[id := j.attempts[id].(state := state, nextAt := nextAt)])
  }

  /** Insert the attempt row, its index entry and its reservations. */
  function InsertAttempt(j: Journal, id: AttemptId, a: Attempt, refs: seq<Ref>): Journal {
    j.(attempts := j.attempts[id := a],
       byKey := j.byKey[(a.task, a.key) := id],
       items := Reserve(j.items, a.task, refs, |refs|, id))
  }

  predicate Admissible(task: TaskId, user: UserId, text: Bytes, refs: seq<Ref>) {
    && task != 0 && user != 0 && TrimSpace(text) != []
    && (forall c | c in CleanAll(refs) :: !Oversized(c))
    && Kept(CleanAll(refs)) != []
  }

  /** BeginNotificationAttempt as one transaction; newId is the new uuid. */
  function Begin(j: Journal, newId: AttemptId, task: TaskId, user: UserId, text: Bytes, refs: seq<Ref>, now: Time)
    : (Journal, Result<(AttemptId, bool)>)
  {
    if !Admissible(task, user, text, refs) then (j, Err) else
      NormalizedRefsAreProper(refs);
      var kept := Kept(CleanAll(refs));
      var key := OccurrenceKey(kept);
      if (task, key) in j.byKey then
        var id := j.byKey[(task, key)];
        (j, if id in j.attempts && j.attempts[id].user == user then Ok((id, false)) else Err)
      else if task !in j.tasks || j.tasks[task] != user then (j, Err)
      else if AllFree(j.items, task, kept) then
        (InsertAttempt(j, newId, Attempt(task, user, key, text, Dispatching, 0, now, 1), kept), Ok((newId, true)))
      else (j, Err)
  }

  /** ConfirmNotificationAttempt; the result says whether it returned nil. */
  function Confirm(j: Journal, id: AttemptId, transport: Bytes, marker: Marker): (Journal, bool) {
    if id == 0 || TrimSpace(transport) == [] || id !in j.attempts || marker.Malformed? then (j, false)
    else if marker.Autonomous? && marker.user != j.attempts[id].user then (j, false)
    else match j.attempts[id].state
      case Sent => (j, true)
      case Dispatching =>
        (SetState(j, id, Sent, 0).(delivered := j.delivered + set k | k in j.items && j.items[k] == id), true)
      case _ => (j, false)
  }

  function MarkUncertain(j: Journal, id: AttemptId): (Journal, bool) {
    if id == 0 || id !in j.attempts then (j, false)
    else match j.attempts[id].state
      case Uncertain => (j, true)
      case Dispatching => (SetState(j, id, Uncertain, 0), true)
      case _ => (j, false)
  }

  function Defer(j: Journal, id: AttemptId, reason: Bytes, retryAt: Time): (Journal, bool) {
    if id == 0 || TrimSpace(reason) == [] || retryAt == 0 || id !in j.attempts then (j, false)
    else match j.attempts[id].state
      case Retryable => (j, true)
      case Dispatching => (SetState(j, id, Retryable, retryAt), true)
      case _ => (j, false)
  }

  function Reject(j: Journal, id: AttemptId, reason: Bytes): (Journal, bool) {
    if id == 0 || TrimSpace(reason) == [] || id !in j.attempts then (j, false)
    else match j.attempts[id].state
      case Rejected => (j, true)
      case Dispatching => (SetState(j, id, Rejected, 0), true)
      case _ => (j, false)
  }

  predicate Due(j: Journal, id: AttemptId, now: Time) {
    id in j.attempts && j.attempts[id].state == Retryable && j.attempts[id].nextAt <= now
  }

  /** ORDER BY next_attempt_at, created_at, id. */
  predicate NoLater(j: Journal, a: AttemptId, b: AttemptId)
    requires a in j.attempts && b in j.attempts
  {
    var x, y := j.attempts[a], j.attempts[b];
    x.nextAt < y.nextAt
      || (x.nextAt == y.nextAt && (x.createdAt < y.createdAt || (x.createdAt == y.createdAt && a <= b)))
  }

  /** The row the claim query picks while other drainers hold locks. */
  predicate Candidate(j: Journal, now: Time, locked: set<AttemptId>, id: AttemptId) {
    && Due(j, id, now) && id !in locked
    && forall b | b in j.attempts && Due(j, b, now) && b !in locked :: NoLater(j, id, b)
  }

  function Claim(j: Journal, id: AttemptId): Journal
    requires id in j.attempts
  {
    var a := j.attempts[id];
    j.(attempts := j.attempts[id := a.(state := Dispatching, nextAt := 0, sends := a.sends + 1)])
  }

  /** FinalizeTask's insert: a retryable intent for a task that exists. There is
      no ON CONFLICT clause, so any taken key or ref aborts the transaction. */
  predicate CanEnqueue(j: Journal, newId: AttemptId, task: TaskId, refs: seq<Ref>)
    requires Distinct(refs)
  {
    && newId !in j.attempts && task in j.tasks
    && (task, OccurrenceKey(refs)) !in j.byKey
    && AllFree(j.items, task, refs)
  }

  function Enqueue(j: Journal, newId: AttemptId, task: TaskId, text: Bytes, refs: seq<Ref>, now: Time): Journal
    requires Distinct(refs) && task in j.tasks
  {
    InsertAttempt(j, newId, Attempt(task, j.tasks[task], OccurrenceKey(refs), text, Retryable, now, now, 0), refs)
  }

  lemma {:induction false} EarliestExists(j: Journal, due: set<AttemptId>) returns (id: AttemptId)
    requires due != {} && forall a | a in due :: a in j.attempts
    ensures id in due && forall b | b in due :: NoLater(j, id, b)
  {
    var first :| first in due;
    var rest := due - {first};
    id := first;
    if rest != {} {
      var r := EarliestExists(j, rest);
      if NoLater(j, r, first) {
        id := r;
      }
    }
    assert due == rest + {first};
  }

  /** A partial overlap leaves no trace; a new attempt owns exactly the refs it
      was begun with, all of them free before, and nothing else changes hands. */
  lemma BeginIsAllOrNothing(j: Journal, newId: AttemptId, task: TaskId, user: UserId, text: Bytes,
                            refs: seq<Ref>, now: Time)
    requires newId !in j.attempts && forall k | k in j.items :: j.items[k] in j.attempts
    requires Admissible(task, user, text, refs)
    ensures var (j', r) := Begin(j, newId, task, user, text, refs, now);
            var wanted := Kept(CleanAll(refs));
            if r == Ok((newId, true))
            then AllFree(j.items, task, wanted)
                 && (forall t, x :: Owns(j', newId, t, x) <==> t == task && x in wanted)
                 && (forall id, t, x | id != newId :: Owns(j', id, t, x) <==> Owns(j, id, t, x))
                 && (forall id | id in j.attempts :: j'.attempts[id] == j.attempts[id])
            else j' == j
    ensures !AllFree(j.items, task, Kept(CleanAll(refs))) ==> Begin(j, newId, task, user, text, refs, now).0 == j
  {
    hide TrimSpace, KeptOf, SortRefs;
    var wanted := Kept(CleanAll(refs));
    ReserveFacts(j.items, task, wanted, |wanted|, newId);
    assert wanted[..|wanted|] == wanted;
  }

  /** Exactly when a batch begins an attempt, hits one, or fails. It begins one if and
      only if task and user are known, the text has something visible, every ref fits
      and one is left, its key is new and all its refs are free; it hits one if and
      only if the key is taken under that user. */
  lemma BeginExactlyWhen(j: Journal, newId: AttemptId, task: TaskId, user: UserId, text: Bytes,
                         refs: seq<Ref>, now: Time)
    requires newId !in j.attempts
    ensures var (v, r) := Begin(j, newId, task, user, text, refs, now);
            var batch := Kept(CleanAll(refs));
            var proper := task != 0 && user != 0 && TrimSpace(text) != [] && batch != []
                          && forall c | c in CleanAll(refs) :: !Oversized(c);
            && (proper ==> Distinct(batch))
            && (r == Ok((newId, true)) <==>
                  proper && (task, OccurrenceKey(batch)) !in j.byKey && task in j.tasks && j.tasks[task] == user
                  && forall x | x in batch :: (task, x) !in j.items)
            && (r.Ok? && !r.value.1 <==>
                  proper && (task, OccurrenceKey(batch)) in j.byKey
                  && j.byKey[(task, OccurrenceKey(batch))] in j.attempts
                  && j.attempts[j.byKey[(task, OccurrenceKey(batch))]].user == user)
            && (r.Ok? && !r.value.1 ==> r.value.0 == j.byKey[(task, OccurrenceKey(batch))])
            && (r.Ok? && r.value.1 ==> r.value.0 == newId)
            && (r != Ok((newId, true)) ==> v == j)
  {
    hide TrimSpace, KeptOf, OccurrenceKey, CleanAll, Oversized, InsertAttempt;
    if forall c | c in CleanAll(refs) :: !Oversized(c) {
      NormalizedRefsAreProper(refs);
    }
  }

  /** The row an attempt starts with: the message as given, dispatching with one send
      behind it, and the refs reserved. */
  lemma BegunRow(j: Journal, newId: AttemptId, task: TaskId, user: UserId, text: Bytes, refs: seq<Ref>, now: Time)
    requires newId !in j.attempts && Begin(j, newId, task, user, text, refs, now).1 == Ok((newId, true))
    ensures var v := Begin(j, newId, task, user, text, refs, now).0;
            && newId in v.attempts
            && v.attempts[newId].task == task && v.attempts[newId].user == user && v.attempts[newId].text == text
            && v.attempts[newId].state == Dispatching && v.attempts[newId].sends == 1
            && v.attempts[newId].createdAt == now
            && (task, v.attempts[newId].key) in v.byKey && v.byKey[(task, v.attempts[newId].key)] == newId
            && v.tasks == j.tasks && v.delivered == j.delivered
  {
    hide TrimSpace, KeptOf, OccurrenceKey, CleanAll, Oversized, Reserve;
  }

  /** The row a finalization queues: the message as given, never sent, due at once. */
  lemma QueuedRow(j: Journal, newId: AttemptId, task: TaskId, text: Bytes, refs: seq<Ref>, now: Time)
    requires Distinct(refs) && CanEnqueue(j, newId, task, refs)
    ensures var v := Enqueue(j, newId, task, text, refs, now);
            && newId in v.attempts && v.attempts[newId].key == OccurrenceKey(refs)
            && v.attempts[newId].task == task && v.attempts[newId].user == j.tasks[task]
            && v.attempts[newId].text == text && v.attempts[newId].sends == 0 && Due(v, newId, now)
            && v.byKey == j.byKey[(task, OccurrenceKey(refs)) := newId]
            && (forall t, x :: Owns(v, newId, t, x) <==> Owns(j, newId, t, x) || (t == task && x in refs))
            && (forall id, t, x | id != newId && Owns(j, id, t, x) :: Owns(v, id, t, x))
            && (forall id | id in j.attempts :: v.attempts[id] == j.attempts[id])
            && v.tasks == j.tasks && v.delivered == j.delivered
  {
    hide OccurrenceKey, Distinct;
    ReserveFacts(j.items, task, refs, |refs|, newId);
    assert refs[..|refs|] == refs;
  }

  /** What each recording call makes of the row, and exactly when it returns nil: it
      takes a dispatching attempt to its own state, or finds it there. */
  lemma RecordingExactlyWhen(j: Journal, id: AttemptId, transport: Bytes, marker: Marker, reason: Bytes, at: Time)
    requires id in j.attempts && id != 0
    ensures var row := j.attempts[id];
            var parsed := marker.Plain? || (marker.Autonomous? && marker.user == row.user);
            var (c, u, d, r) := (Confirm(j, id, transport, marker), MarkUncertain(j, id), Defer(j, id, reason, at),
                                 Reject(j, id, reason));
            && (c.1 <==> TrimSpace(transport) != [] && parsed && row.state in {Dispatching, Sent})
            && (u.1 <==> row.state in {Dispatching, Uncertain})
            && (d.1 <==> TrimSpace(reason) != [] && at != 0 && row.state in {Dispatching, Retryable})
            && (r.1 <==> TrimSpace(reason) != [] && row.state in {Dispatching, Rejected})
            && (c.1 && row.state == Dispatching ==>
                  c.0.attempts == j.attempts[id := row.(state := Sent, nextAt := 0)]
                  && forall k :: k in c.0.delivered <==> k in j.delivered || (k in j.items && j.items[k] == id))
            && (u.1 && row.state == Dispatching ==>
                  u.0.attempts == j.attempts[id := row.(state := Uncertain, nextAt := 0)])
            && (d.1 && row.state == Dispatching ==>
                  d.0.attempts == j.attempts[id := row.(state := Retryable, nextAt := at)])
            && (r.1 && row.state == Dispatching ==>
                  r.0.attempts == j.attempts[id := row.(state := Rejected, nextAt := 0)])
            && (!c.1 || row.state != Dispatching ==> c.0 == j) && (!u.1 || row.state != Dispatching ==> u.0 == j)
            && (!d.1 || row.state != Dispatching ==> d.0 == j) && (!r.1 || row.state != Dispatching ==> r.0 == j)
            && u.0.delivered == d.0.delivered == r.0.delivered == j.delivered
  {
    hide TrimSpace;
  }

  lemma AllFreeIgnoresOrder(items: map<Item, AttemptId>, task: TaskId, a: seq<Ref>, b: seq<Ref>, id: AttemptId)
    requires Elements(a) == Elements(b)
    ensures AllFree(items, task, a) <==> AllFree(items, task, b)
    ensures Reserve(items, task, a, |a|, id) == Reserve(items, task, b, |b|, id)
  {
    ReserveFacts(items, task, a, |a|, id);
    ReserveFacts(items, task, b, |b|, id);
    assert a[..|a|] == a && b[..|b|] == b;
    assert forall r :: r in a <==> r in Elements(a);
    assert forall r :: r in b <==> r in Elements(b);
    var x, y := Reserve(items, task, a, |a|, id), Reserve(items, task, b, |b|, id);
    forall k: Item
      ensures k in x <==> k in y
      ensures k in x ==> x[k] == y[k]
    {
      assert k == (k.0, k.1);
    }
  }

  /** An idempotent hit is exactly a repeated key of the same user. */
  lemma BeginHits(j: Journal, newId: AttemptId, task: TaskId, user: UserId, text: Bytes, refs: seq<Ref>, now: Time,
                  id: AttemptId)
    requires Admissible(task, user, text, refs) && id in j.attempts && newId !in j.attempts
    requires j.attempts[id].task == task && j.attempts[id].user == user
    requires (task, j.attempts[id].key) in j.byKey && j.byKey[(task, j.attempts[id].key)] == id
    requires forall k | k in j.byKey :: j.byKey[k] in j.attempts && j.attempts[j.byKey[k]].key == k.1
    ensures Distinct(Kept(CleanAll(refs)))
    ensures Begin(j, newId, task, user, text, refs, now) == (j, Ok((id, false)))
            <==> OccurrenceKey(Kept(CleanAll(refs))) == j.attempts[id].key
  {
    hide TrimSpace, KeptOf, OccurrenceKey, InsertAttempt, Proper, CleanAll;
    NormalizedRefsAreProper(refs);
  }

  /** A confirmed commit whose response was lost can be repeated safely, and
      no later call of any kind takes the attempt out of a concluded state. */
  lemma ConcludedStatesAbsorb(j: Journal, id: AttemptId, transport: Bytes, marker: Marker, reason: Bytes,
                              at: Time, now: Time)
    requires id in j.attempts && j.attempts[id].state in {Sent, Uncertain, Rejected}
    ensures Confirm(j, id, transport, marker).0 == j && MarkUncertain(j, id).0 == j
    ensures Defer(j, id, reason, at).0 == j && Reject(j, id, reason).0 == j
    ensures !Due(j, id, now)
    ensures Confirm(j, id, transport, marker).1 ==> j.attempts[id].state == Sent
  {
  }

  // ---------- replaying a deferral ----------

  /** One committed journal transaction of any process. */
  datatype JournalCall =
    | BeginCall(newId: AttemptId, task: TaskId, user: UserId, text: Bytes, refs: seq<Ref>, now: Time)
    | EnqueueCall(newId: AttemptId, task: TaskId, text: Bytes, refs: seq<Ref>, now: Time)
    | ClaimCall(id: AttemptId, now: Time, locked: set<AttemptId>)
    | ConfirmCall(id: AttemptId, transport: Bytes, marker: Marker)
    | UncertainCall(id: AttemptId)
    | DeferCall(id: AttemptId, reason: Bytes, retryAt: Time)
    | RejectCall(id: AttemptId, reason: Bytes)

  /** The call's effect and whether it returned nil; new uuids are fresh. */
  function Effect(j: Journal, e: JournalCall): (Journal, bool) {
    match e
    case BeginCall(newId, task, user, text, refs, now) =>
      if newId in j.attempts then (j, false) else
        var (v, r) := Begin(j, newId, task, user, text, refs, now);
        (v, r.Ok?)
    case EnqueueCall(newId, task, text, refs, now) =>
      if Distinct(refs) && CanEnqueue(j, newId, task, refs) then (Enqueue(j, newId, task, text, refs, now), true)
        else (j, false)
    case ClaimCall(id, now, locked) => if Candidate(j, now, locked, id) then (Claim(j, id), true) else (j, false)
    case ConfirmCall(id, transport, marker) => Confirm(j, id, transport, marker)
    case UncertainCall(id) => MarkUncertain(j, id)
    case DeferCall(id, reason, retryAt) => Defer(j, id, reason, retryAt)
    case RejectCall(id, reason) => Reject(j, id, reason)
  }

  function Replay(j: Journal, calls: seq<JournalCall>): Journal {
    if calls == [] then j else Effect(Replay(j, calls[..|calls| - 1]), calls[|calls| - 1]).0
  }

  /** This call claims the attempt. */
  predicate Takes(j: Journal, e: JournalCall, id: AttemptId) {
    e.ClaimCall? && e.id == id && Effect(j, e).1
  }

  /** This call puts an answer for the attempt on record. */
  predicate Answers(j: Journal, e: JournalCall, id: AttemptId) {
    (e.ConfirmCall? || e.UncertainCall? || e.DeferCall? || e.RejectCall?) && e.id == id && Effect(j, e).1
  }

  /** Some call claimed the attempt, and no answer went on record since. */
  ghost predicate InFlight(j: Journal, calls: seq<JournalCall>, id: AttemptId) {
    exists i :: 0 <= i < |calls| && Takes(Replay(j, calls[..i]), calls[i], id)
                && forall k | i < k < |calls| :: !Answers(Replay(j, calls[..k]), calls[k], id)
  }

  lemma EffectOnState(j: Journal, e: JournalCall, id: AttemptId)
    requires id in j.attempts
    ensures var v := Effect(j, e).0;
            && id in v.attempts
            && (v.attempts[id].state == Dispatching
                <==> Takes(j, e, id) || (j.attempts[id].state == Dispatching && !Answers(j, e, id)))
  {
    hide TrimSpace, Kept, Reserve, OccurrenceKey, CleanAll, NoLater, Distinct, AllFree, Admissible;
  }

  lemma InFlightMore(j: Journal, front: seq<JournalCall>, e: JournalCall, id: AttemptId)
    ensures var w := Replay(j, front);
            InFlight(j, front + [e], id) <==> Takes(w, e, id) || (InFlight(j, front, id) && !Answers(w, e, id))
  {
    hide Replay, Takes, Answers, InFlight;
    var calls := front + [e];
    assert calls[|front|] == e && calls[..|front|] == front;
    LandsInFlight(j, front, e, id);
    if InFlight(j, calls, id) && !Takes(Replay(j, front), e, id) {
      WasInFlight(j, front, e, id);
    }
  }

  lemma LandsInFlight(j: Journal, front: seq<JournalCall>, e: JournalCall, id: AttemptId)
    ensures Takes(Replay(j, front), e, id) ==> InFlight(j, front + [e], id)
    ensures InFlight(j, front, id) && !Answers(Replay(j, front), e, id) ==> InFlight(j, front + [e], id)
  {
    hide Replay, Takes, Answers;
    var n, calls := |front|, front + [e];
    assert calls[n] == e && calls[..n] == front;
    if Takes(Replay(j, front), e, id) {
      assert Takes(Replay(j, calls[..n]), calls[n], id);
    } else if InFlight(j, front, id) && !Answers(Replay(j, front), e, id) {
      var i :| 0 <= i < n && Takes(Replay(j, front[..i]), front[i], id)
               && forall k | i < k < n :: !Answers(Replay(j, front[..k]), front[k], id);
      assert calls[..i] == front[..i] && Takes(Replay(j, calls[..i]), calls[i], id);
      forall k | i < k < |calls| ensures !Answers(Replay(j, calls[..k]), calls[k], id) {
        assert k < n ==> calls[..k] == front[..k] && calls[k] == front[k];
      }
    }
  }

  lemma WasInFlight(j: Journal, front: seq<JournalCall>, e: JournalCall, id: AttemptId)
    requires InFlight(j, front + [e], id) && !Takes(Replay(j, front), e, id)
    ensures InFlight(j, front, id) && !Answers(Replay(j, front), e, id)
  {
    hide Replay, Takes, Answers;
    var n, calls := |front|, front + [e];
    assert calls[n] == e && calls[..n] == front;
    var i :| 0 <= i <= n && Takes(Replay(j, calls[..i]), calls[i], id)
             && forall k | i < k <= n :: !Answers(Replay(j, calls[..k]), calls[k], id);
    assert calls[..i] == front[..i] && Takes(Replay(j, front[..i]), front[i], id);
    assert !Answers(Replay(j, calls[..n]), calls[n], id);
    forall k | i < k < n ensures !Answers(Replay(j, front[..k]), front[k], id) {
      assert calls[..k] == front[..k] && !Answers(Replay(j, calls[..k]), calls[k], id);
    }
  }

  /** Over any calls, an attempt that was not dispatching is so exactly while a claim
      since then is in flight. */
  lemma {:induction false} DispatchingExactlyWhen(j: Journal, calls: seq<JournalCall>, id: AttemptId)
    requires id in j.attempts && j.attempts[id].state != Dispatching
    ensures id in Replay(j, calls).attempts
    ensures Replay(j, calls).attempts[id].state == Dispatching <==> InFlight(j, calls, id)
  {
    hide Effect, Takes, Answers;
    if calls != [] {
      var n := |calls| - 1;
      DispatchingExactlyWhen(j, calls[..n], id);
      EffectOnState(Replay(j, calls[..n]), calls[n], id);
      assert calls == calls[..n] + [calls[n]];
      InFlightMore(j, calls[..n], calls[n], id);
    }
  }

  /** A deferral is recorded, any journal calls follow, and then it is replayed: the
      replay changes the journal if and only if the intent was claimed since and the
      answer to that claim is not on record yet. Then it takes the row from its new
      sender. */
  lemma DeferReplay(j: Journal, id: AttemptId, reason: Bytes, at: Time, calls: seq<JournalCall>)
    requires id != 0 && id in j.attempts && j.attempts[id].state == Dispatching
    requires TrimSpace(reason) != [] && at != 0
    ensures var deferred := Defer(j, id, reason, at).0;
            var w := Replay(deferred, calls);
            var v := Defer(w, id, reason, at).0;
            && (v != w <==> InFlight(deferred, calls, id))
            && (v != w ==> Due(v, id, at) && w.attempts[id].state == Dispatching)
  {
    hide TrimSpace;
    var deferred := Defer(j, id, reason, at).0;
    DispatchingExactlyWhen(deferred, calls, id);
    hide InFlight, Replay;
  }

  // ---------- the store ----------

  class AgentTaskStore {
    var tasks: map<TaskId, UserId>
    var attempts: map<AttemptId, Attempt>
    var byKey: map<(TaskId, Bytes), AttemptId>
    var items: map<Item, AttemptId>
    var delivered: set<Item>

    function View(): Journal
      reads this
    {
      Journal(tasks, attempts, byKey, items, delivered)
    }

    method BeginNotificationAttempt(task: TaskId, user: UserId, text: Bytes, refs: seq<Ref>,
                                    newId: AttemptId, now: Time)
      returns (r: Result<(AttemptId, bool)>)
      modifies this
      ensures (View(), r) == Begin(old(View()), newId, task, user, text, refs, now)
    {
      hide TrimSpace, KeptOf, OccurrenceKey, Oversized, CleanAll, Reserve;
      if task == 0 || user == 0 || TrimSpace(text) == [] {
        return Err;
      }
      var normalized := NormalizeTaskDeliveryRefs(refs);
      if normalized.Err? || normalized.value == [] {
        return Err;
      }
      NormalizedRefsAreProper(refs);
      var sorted := SortRefs(normalized.value);
      SortedIsDistinct(sorted);
      KeyIgnoresOrder(sorted, normalized.value);
      var key := TaskNotificationOccurrenceKey(sorted);
      if (task, key) in byKey || task !in tasks || tasks[task] != user {
        // nothing inserted: an idempotent hit, or no such task/user pair
        if (task, key) in byKey && byKey[(task, key)] in attempts && attempts[byKey[(task, key)]].user == user {
          return Ok((byKey[(task, key)], false));
        }
        return Err;
      }
      AllFreeIgnoresOrder(items, task, sorted, normalized.value, newId);
      var attempts0, byKey0, items0 := attempts, byKey, items;
      attempts := attempts[newId := Attempt(task, user, key, text, Dispatching, 0, now, 1)];
      byKey := byKey[(task, key) := newId];
      var reserved := ReserveEach(task, sorted, newId);
      if reserved != |sorted| {
        attempts, byKey, items := attempts0, byKey0, items0;
        return Err;
      }
      return Ok((newId, true));
    }

    /** INSERT ... ON CONFLICT DO NOTHING for each ref; counts the rows added. */
    method ReserveEach(task: TaskId, refs: seq<Ref>, id: AttemptId) returns (reserved: nat)
      requires Distinct(refs)
      modifies this`items
      ensures reserved == |refs| <==> AllFree(old(items), task, refs)
      ensures reserved == |refs| ==> items == Reserve(old(items), task, refs, |refs|, id)
    {
      reserved := 0;
      for i := 0 to |refs|
        invariant reserved <= i
        invariant reserved == i <==> AllFree(old(items), task, refs[..i])
        invariant reserved == i ==> items == Reserve(old(items), task, refs, i, id)
      {
        ReserveFacts(old(items), task, refs, i, id);
        assert refs[..i + 1] == refs[..i] + [refs[i]];
        assert refs[i] !in refs[..i];
        var item := (task, refs[i]);
        if item !in items {
          items := items[item := id];
          reserved := reserved + 1;
        }
      }
      assert refs[..|refs|] == refs;
    }

    method ConfirmNotificationAttempt(id: AttemptId, transport: Bytes, marker: Marker) returns (ok: bool)
      modifies this
      ensures (View(), ok) == Confirm(old(View()), id, transport, marker)
    {
      if id == 0 || TrimSpace(transport) == [] || id !in attempts || marker.Malformed? {
        return false;
      }
      if marker.Autonomous? && marker.user != attempts[id].user {
        return false;
      }
      match attempts[id].state {
        case Sent => return true;
        case Dispatching =>
          delivered := delivered + set k | k in items && items[k] == id;
          attempts := attempts[id := attempts[id].(state := Sent, nextAt := 0)];
          return true;
        case _ => return false;
      }
    }

    method MarkNotificationUncertain(id: AttemptId) returns (ok: bool)
      modifies this
      ensures (View(), ok) == MarkUncertain(old(View()), id)
    {
      if id == 0 || id !in attempts {
        return false;
      }
      if attempts[id].state == Dispatching {
        attempts := attempts[id := attempts[id].(state := Uncertain, nextAt := 0)];
      }
      return attempts[id].state == Uncertain;
    }

    method DeferNotificationAttempt(id: AttemptId, reason: Bytes, retryAt: Time) returns (ok: bool)
      modifies this
      ensures (View(), ok) == Defer(old(View()), id, reason, retryAt)
    {
      if id == 0 || TrimSpace(reason) == [] || retryAt == 0 || id !in attempts {
        return false;
      }
      if attempts[id].state == Dispatching {
        attempts := attempts[id := attempts[id].(state := Retryable, nextAt := retryAt)];
      }
      return attempts[id].state == Retryable;
    }

    method RejectNotificationAttempt(id: AttemptId, reason: Bytes) returns (ok: bool)
      modifies this
      ensures (View(), ok) == Reject(old(View()), id, reason)
    {
      if id == 0 || TrimSpace(reason) == [] || id !in attempts {
        return false;
      }
      if attempts[id].state == Dispatching {
        attempts := attempts[id := attempts[id].(state := Rejected, nextAt := 0)];
      }
      return attempts[id].state == Rejected;
    }

    /** Claims the earliest due intent nobody else has locked. An attempt
        without reservations rolls the claim back. */
    method ClaimRetryableNotification(now: Time, locked: set<AttemptId>) returns (r: Result<Option<Intent>>)
      modifies this
      ensures r.Ok? && r.value.Some? ==>
                && now != 0 && Candidate(old(View()), now, locked, r.value.value.id)
                && View() == Claim(old(View()), r.value.value.id)
                && r.value.value.task == old(attempts)[r.value.value.id].task
                && r.value.value.user == old(attempts)[r.value.value.id].user
                && r.value.value.text == old(attempts)[r.value.value.id].text
                && r.value.value.refs != {}
                && r.value.value.refs == (set k | k in old(items) && old(items)[k] == r.value.value.id :: k.1)
      ensures !(r.Ok? && r.value.Some?) ==> View() == old(View())
      ensures r == Ok(None) <==> now != 0 && forall a | a in old(attempts) && Due(old(View()), a, now) :: a in locked
    {
      if now == 0 {
        return Err;
      }
      var due := set a | a in attempts && attempts[a].state == Retryable && attempts[a].nextAt <= now && a !in locked;
      if due == {} {
        assert forall a | a in attempts && Due(View(), a, now) :: a in locked || a in due;
        return Ok(None);
      }
      ghost var first := EarliestExists(View(), due);
      var id :| id in due && forall b | b in due :: NoLater(View(), id, b);
      var a := attempts[id];
      var refs := set k | k in items && items[k] == id :: k.1;
      if refs == {} {
        return Err;
      }
      attempts := attempts[id := a.(state := Dispatching, nextAt := 0, sends := a.sends + 1)];
      return Ok(Some(Intent(id, a.task, a.user, a.text, refs)));
    }

    /** Rows of either table suppress regeneration of a ref. */
    method LookupDelivered(task: TaskId, refs: seq<Ref>) returns (r: Result<set<Ref>>)
      ensures r.Ok? ==> forall x :: x in r.value <==>
                x in Kept(CleanAll(refs)) && ((task, x) in delivered || (task, x) in items)
      ensures r.Err? <==> exists c :: c in CleanAll(refs) && Oversized(c)
    {
      var normalized := NormalizeTaskDeliveryRefs(refs);
      if normalized.Err? {
        return Err;
      }
      var found := set x | x in normalized.value && ((task, x) in delivered || (task, x) in items);
      return Ok(found);
    }
  }
}
