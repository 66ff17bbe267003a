/** Error markers of outbound sends and the routine that records the outcome of
    one provider call in the journal. */
module Resolution {
  import opened Wrappers
  import opened Refs
  import opened Journal
  import opened Delivery

  /** An error chain: markers and ordinary wrappers around a cause. */
  datatype SendError =
    | Cause(message: Bytes)
    | Wrapped(err: SendError)
    | DefinitelyMark(err: SendError)
    | DelayMark(err: SendError, delay: int)
    | PermanentMark(err: SendError)
  {
    /** Error(): every wrapper here forwards to its cause. */
    function Text(): Bytes {
      match this
      case Cause(m) => m
      case Wrapped(e) => e.Text()
      case DefinitelyMark(e) => e.Text()
      case DelayMark(e, _) => e.Text()
      case PermanentMark(e) => e.Text()
    }

    predicate IsDefinitelyNotSent() {
      match this
      case Cause(_) => false
      case DefinitelyMark(_) => true
      case Wrapped(e) => e.IsDefinitelyNotSent()
      case DelayMark(e, _) => e.IsDefinitelyNotSent()
      case PermanentMark(e) => e.IsDefinitelyNotSent()
    }

    predicate IsPermanentlyNotSent() {
      match this
      case Cause(_) => false
      case PermanentMark(_) => true
      case Wrapped(e) => e.IsPermanentlyNotSent()
      case DelayMark(e, _) => e.IsPermanentlyNotSent()
      case DefinitelyMark(e) => e.IsPermanentlyNotSent()
    }

    /** The outermost delay in the chain (errors.As). */
    function AttachedDelay(): Option<int> {
      match this
      case Cause(_) => None
      case DelayMark(_, d) => Some(d)
      case Wrapped(e) => e.AttachedDelay()
      case DefinitelyMark(e) => e.AttachedDelay()
      case PermanentMark(e) => e.AttachedDelay()
    }

    function NotificationRetryDelay(): Option<int> {
      if IsPermanentlyNotSent() then None else AttachedDelay()
    }
  }

  const DEFAULT_RETRY_DELAY := 60_000_000_000

  function DefinitelyNotSent(e: SendError): SendError {
    if e.IsDefinitelyNotSent() then e else DefinitelyMark(e)
  }

  function DefinitelyNotSentAfter(e: SendError, delay: int): SendError {
    if e.IsPermanentlyNotSent() then e else DefinitelyNotSent(DelayMark(e, delay))
  }

  function PermanentlyNotSent(e: SendError): SendError {
    if e.IsPermanentlyNotSent() then e else PermanentMark(DefinitelyNotSent(e))
  }

  /** The branch resolveTaskNotificationAttempt takes. */
  function Classify(err: Option<SendError>): Answer {
    match err
    case None => Delivered
    case Some(e) =>
      if e.IsPermanentlyNotSent() then Permanent
      else if e.IsDefinitelyNotSent() then NotSent
      else Ambiguous
  }

  function RetryDelay(e: SendError): int {
    match e.NotificationRetryDelay()
    case None => DEFAULT_RETRY_DELAY
    case Some(d) => if d < MIN_RETRY_DELAY then MIN_RETRY_DELAY else d
  }

  /** Wrapping never hides a marker, the last requested delay wins, a permanent
      rejection is never deferred however it is wrapped, and an unmarked error
      stays ambiguous. */
  lemma MarkersDecideTheBranch(e: SendError, delay: int)
    ensures Classify(Some(Wrapped(e))) == Classify(Some(e))
    ensures Classify(Some(DefinitelyNotSent(e))) == if e.IsPermanentlyNotSent() then Permanent else NotSent
    ensures Classify(Some(PermanentlyNotSent(e))) == Permanent
    ensures PermanentlyNotSent(e).NotificationRetryDelay() == None
    ensures DefinitelyNotSentAfter(e, delay).NotificationRetryDelay()
            == if e.IsPermanentlyNotSent() then None else Some(delay)
    ensures DefinitelyNotSentAfter(PermanentlyNotSent(e), delay) == PermanentlyNotSent(e)
    ensures !e.IsDefinitelyNotSent() && !e.IsPermanentlyNotSent() ==> Classify(Some(e)) == Ambiguous
  {
    if !e.IsPermanentlyNotSent() {
      assert DelayMark(e, delay).AttachedDelay() == Some(delay);
      assert !DelayMark(e, delay).IsPermanentlyNotSent();
    }
  }

  // ---------- the journal as its callers see it ----------

  /** One call of a recording method: which answer it was to record. */
  datatype Request = Request(id: AttemptId, answer: Answer)

  /** Exactly what the classification decides, and the wait before a retry: the delay
      the sender asked for, at least a second, or a minute when it asked for none. */
  lemma AnswersAndDelays(e: SendError)
    ensures Classify(None) == Delivered
    ensures Classify(Some(e)) == Permanent <==> e.IsPermanentlyNotSent()
    ensures Classify(Some(e)) == NotSent <==> e.IsDefinitelyNotSent() && !e.IsPermanentlyNotSent()
    ensures Classify(Some(e)) != Delivered
    ensures !e.IsPermanentlyNotSent() ==>
              match e.AttachedDelay()
              case None => RetryDelay(e) == 60_000_000_000
              case Some(d) => RetryDelay(e) == if d >= 1_000_000_000 then d else 1_000_000_000
  {
  }

  /** The connection to the store. requests is what was asked of it, in order; the
      i-th transaction may abort, commit, or commit with its response lost, and the
      deadline may have expired after it, as fates(i) and expired(i) say. */
  class TaskNotificationJournal {
    const store: AgentTaskStore
    const fates: nat -> Tx
    const expired: nat -> bool
    var requests: seq<Request>

    constructor (store: AgentTaskStore, fates: nat -> Tx, expired: nat -> bool)
      ensures this.store == store && this.fates == fates && this.expired == expired && requests == []
    {
      this.store := store;
      this.fates := fates;
      this.expired := expired;
      requests := [];
    }

    method ConfirmAttempt(id: AttemptId, transport: Bytes, marker: Marker) returns (ok: bool)
      modifies this`requests, store
      ensures requests == old(requests) + [Request(id, Delivered)]
      ensures var (j, done) := Confirm(old(store.View()), id, transport, marker);
              && store.View() == (if fates(|old(requests)|).Abort? then old(store.View()) else j)
              && (ok <==> done && fates(|old(requests)|).Commit?)
    {
      var tx := fates(|requests|);
      requests := requests + [Request(id, Delivered)];
      if tx.Abort? {
        return false;
      }
      ok := store.ConfirmNotificationAttempt(id, transport, marker);
      ok := ok && tx.Commit?;
    }

    method RejectAttempt(id: AttemptId, reason: Bytes) returns (ok: bool)
      modifies this`requests, store
      ensures requests == old(requests) + [Request(id, Permanent)]
      ensures var (j, done) := Reject(old(store.View()), id, reason);
              && store.View() == (if fates(|old(requests)|).Abort? then old(store.View()) else j)
              && (ok <==> done && fates(|old(requests)|).Commit?)
    {
      var tx := fates(|requests|);
      requests := requests + [Request(id, Permanent)];
      if tx.Abort? {
        return false;
      }
      ok := store.RejectNotificationAttempt(id, reason);
      ok := ok && tx.Commit?;
    }

    method DeferAttempt(id: AttemptId, reason: Bytes, retryAt: Time) returns (ok: bool)
      modifies this`requests, store
      ensures requests == old(requests) + [Request(id, NotSent)]
      ensures var (j, done) := Defer(old(store.View()), id, reason, retryAt);
              && store.View() == (if fates(|old(requests)|).Abort? then old(store.View()) else j)
              && (ok <==> done && fates(|old(requests)|).Commit?)
    {
      var tx := fates(|requests|);
      requests := requests + [Request(id, NotSent)];
      if tx.Abort? {
        return false;
      }
      ok := store.DeferNotificationAttempt(id, reason, retryAt);
      ok := ok && tx.Commit?;
    }

    method MarkAttemptUncertain(id: AttemptId) returns (ok: bool)
      modifies this`requests, store
      ensures requests == old(requests) + [Request(id, Ambiguous)]
      ensures var (j, done) := MarkUncertain(old(store.View()), id);
              && store.View() == (if fates(|old(requests)|).Abort? then old(store.View()) else j)
              && (ok <==> done && fates(|old(requests)|).Commit?)
    {
      var tx := fates(|requests|);
      requests := requests + [Request(id, Ambiguous)];
      if tx.Abort? {
        return false;
      }
      ok := store.MarkNotificationUncertain(id);
      ok := ok && tx.Commit?;
    }
  }

  /** What tries number n0 up to n1 of recording one answer did, if result is what a
      committed one makes of the journal: it is as before exactly if all aborted. The
      call returned nil exactly if the last was done and answered. */
  ghost predicate Answered(fates: nat -> Tx, n0: nat, n1: nat, before: Journal, after: Journal, recorded: bool,
                           result: (Journal, bool)) {
    && n0 < n1 && (recorded <==> result.1 && fates(n1 - 1).Commit?)
    && after == if forall i | n0 <= i < n1 :: fates(i).Abort? then before else result.0
  }

  /** A confirmation is tried again exactly while it was not answered, up to three times
      and until the deadline expires. */
  ghost predicate TriedEnough(fates: nat -> Tx, expired: nat -> bool, n0: nat, n1: nat, done: bool) {
    && 1 <= n1 - n0 <= 3
    && (forall i | n0 <= i < n1 - 1 :: !(done && fates(i).Commit?) && !expired(i))
    && (n1 - n0 < 3 ==> (done && fates(n1 - 1).Commit?) || expired(n1 - 1))
  }

  function Repeated(r: Request, n: nat): seq<Request> {
    seq(n, _ => r)
  }

  /** The requests that record one answer: a confirmation one to three times, any
      other exactly once. */
  ghost predicate Asked(before: seq<Request>, after: seq<Request>, id: AttemptId, answer: Answer) {
    exists n :: 1 <= n <= (if answer.Delivered? then 3 else 1)
                && after == before + Repeated(Request(id, answer), n)
  }

  lemma AskedOnce(before: seq<Request>, id: AttemptId, answer: Answer)
    ensures Asked(before, before + [Request(id, answer)], id, answer)
  {
    assert Repeated(Request(id, answer), 1) == [Request(id, answer)];
  }

  /** Records the outcome of exactly one provider call. A confirmation is tried until
      it is answered, at most three times; no other outcome is tried twice. The journal
      ends up untouched or with this answer recorded, and is never in any third state;
      nil is returned only when the answer is on record. */
  method ResolveTaskNotificationAttempt(journal: TaskNotificationJournal, id: AttemptId, transport: Bytes,
                                        marker: Marker, err: Option<SendError>, now: Time)
    returns (delivered: bool, recorded: bool)
    modifies journal`requests, journal.store
    ensures delivered <==> err.None?
    ensures Asked(old(journal.requests), journal.requests, id, Classify(err))
    ensures var result := Record(old(journal.store.View()), id, Classify(err), transport, marker,
                                 if err.Some? then err.value.Text() else [],
                                 now + if err.Some? then RetryDelay(err.value) else 0);
            var n0, n1 := |old(journal.requests)|, |journal.requests|;
            && Answered(journal.fates, n0, n1, old(journal.store.View()), journal.store.View(), recorded, result)
            && if err.None? then TriedEnough(journal.fates, journal.expired, n0, n1, result.1) else n1 == n0 + 1
  {
    if err.None? {
      recorded := ConfirmWithRetries(journal, id, transport, marker);
      return true, recorded;
    }
    delivered := false;
    var e := err.value;
    if e.IsPermanentlyNotSent() {
      recorded := journal.RejectAttempt(id, e.Text());
    } else if e.IsDefinitelyNotSent() {
      recorded := journal.DeferAttempt(id, e.Text(), now + RetryDelay(e));
    } else {
      recorded := journal.MarkAttemptUncertain(id);
    }
    AskedOnce(old(journal.requests), id, Classify(err));
  }

  method ConfirmWithRetries(journal: TaskNotificationJournal, id: AttemptId, transport: Bytes, marker: Marker)
    returns (recorded: bool)
    modifies journal`requests, journal.store
    ensures Asked(old(journal.requests), journal.requests, id, Delivered)
    ensures var result := Confirm(old(journal.store.View()), id, transport, marker);
            var n0, n1 := |old(journal.requests)|, |journal.requests|;
            && Answered(journal.fates, n0, n1, old(journal.store.View()), journal.store.View(), recorded, result)
            && TriedEnough(journal.fates, journal.expired, n0, n1, result.1)
  {
    hide Confirm;
    ghost var j := journal.store.View();
    ghost var before, result := journal.requests, Confirm(j, id, transport, marker);
    ConfirmIsIdempotent(j, id, transport, marker);
    recorded := false;
    var attempt := 0;
    while attempt < MAX_CONFIRM_ATTEMPTS
      invariant attempt <= MAX_CONFIRM_ATTEMPTS
      invariant journal.requests == before + Repeated(Request(id, Delivered), attempt)
      invariant forall i | |before| <= i < |before| + attempt ::
                  !(result.1 && journal.fates(i).Commit?) && !journal.expired(i)
      invariant journal.store.View()
                == if forall i | |before| <= i < |before| + attempt :: journal.fates(i).Abort? then j else result.0
      invariant !recorded && |journal.requests| == |before| + attempt
    {
      recorded := journal.ConfirmAttempt(id, transport, marker);
      attempt := attempt + 1;
      assert Repeated(Request(id, Delivered), attempt)
             == Repeated(Request(id, Delivered), attempt - 1) + [Request(id, Delivered)];
      assert journal.requests == before + Repeated(Request(id, Delivered), attempt);
      if recorded || journal.expired(|journal.requests| - 1) {
        return;
      }
    }
  }

  lemma ConfirmIsIdempotent(j: Journal, id: AttemptId, transport: Bytes, marker: Marker)
    ensures Confirm(Confirm(j, id, transport, marker).0, id, transport, marker) == Confirm(j, id, transport, marker)
  {
  }
}
