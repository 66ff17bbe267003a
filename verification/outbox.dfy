/** The outbox worker: coalesced kicks (drainNotificationsAsync) and the bounded
    pass they trigger (drainRetryableNotifications). */
module Outbox {
  import opened Common
  import opened Wrappers
  import opened Refs
  import opened Journal
  import opened Delivery
  import opened Resolution

  const MAX_RETRIES_PER_TICK := 20

  // ---------- kicks ----------

  /** The mutex-guarded flags. starting, drainers, passes and waiting are
      observations: whether the goroutine is about to begin a pass, how many
      goroutines live, how many passes began, and how many kicks no pass has
      begun after. */
  datatype Flags = Flags(running: bool, requested: bool, starting: bool, drainers: nat, passes: nat, waiting: nat)

  const IDLE: Flags := Flags(false, false, false, 0, 0, 0)

  /** What callers and the goroutine do, in the order the mutex lets them. */
  datatype Turn = Kick | StartPass | FinishPass

  /** One turn; a turn that is not possible changes nothing. */
  function Next(f: Flags, t: Turn): Flags {
    match t
    case Kick =>
      if f.running then f.(requested := true, waiting := f.waiting + 1)
      else f.(running := true, starting := true, drainers := f.drainers + 1, waiting := f.waiting + 1)
    case StartPass => if f.running && f.starting then f.(starting := false, waiting := 0, passes := f.passes + 1) else f
    case FinishPass =>
      if !f.running || f.starting then f
      else if f.requested then f.(requested := false, starting := true)
      else f.(running := false, drainers := if f.drainers > 0 then f.drainers - 1 else 0)
  }

  function After(f: Flags, turns: seq<Turn>): Flags {
    if turns == [] then f else Next(After(f, turns[..|turns| - 1]), turns[|turns| - 1])
  }

  /** At most one drainer lives, and no kick is forgotten: while one waits, a
      drainer is about to start a pass or will find the request flag. */
  predicate Sound(f: Flags) {
    && f.drainers == (if f.running then 1 else 0)
    && (!f.running ==> !f.requested && !f.starting && f.waiting == 0)
    && (f.waiting > 0 ==> f.starting || f.requested)
  }

  lemma {:induction false} FlagsStaySound(f: Flags, turns: seq<Turn>)
    requires Sound(f)
    ensures Sound(After(f, turns))
  {
    if turns != [] {
      FlagsStaySound(f, turns[..|turns| - 1]);
    }
  }

  predicate OnlyKicks(turns: seq<Turn>) {
    forall i | 0 <= i < |turns| :: turns[i].Kick?
  }

  lemma {:induction false} KicksAccumulate(f: Flags, kicks: seq<Turn>)
    requires OnlyKicks(kicks) && f.running
    ensures After(f, kicks) == f.(requested := f.requested || kicks != [], waiting := f.waiting + |kicks|)
  {
    if kicks != [] {
      KicksAccumulate(f, kicks[..|kicks| - 1]);
    }
  }

  /** No kick is lost. After any interleaving of kicks and passes at most one drainer
      lives; if a kick still waits, the drainer lives and, whatever further kicks
      come in between, its own next turns begin exactly one pass, and that pass
      leaves no kick unanswered. */
  lemma NoKickIsLost(turns: seq<Turn>, more: seq<Turn>, still: seq<Turn>)
    requires OnlyKicks(more) && OnlyKicks(still)
    ensures var f := After(IDLE, turns);
            && f.drainers <= 1
            && (f.waiting > 0 ==>
                  && f.running && f.drainers == 1
                  && var g := After(f, more);
                     var begun := if g.starting then Next(g, StartPass)
                                  else Next(After(Next(g, FinishPass), still), StartPass);
                     begun.waiting == 0 && begun.passes == f.passes + 1)
  {
    FlagsStaySound(IDLE, turns);
    var f := After(IDLE, turns);
    if f.waiting > 0 {
      KicksAccumulate(f, more);
      KicksAccumulate(Next(After(f, more), FinishPass), still);
    }
  }

  class NotificationDrain {
    var running: bool
    var requested: bool
    var starting: bool
    var drainers: nat
    var passes: nat
    var waiting: nat

    function View(): Flags
      reads this
    {
      Flags(running, requested, starting, drainers, passes, waiting)
    }

    predicate Valid()
      reads this
    {
      Sound(View())
    }

    constructor ()
      ensures View() == IDLE
    {
      running, requested, starting, drainers, passes, waiting := false, false, false, 0, 0, 0;
    }

    /** drainNotificationsAsync. */
    method Kick()
      requires Valid()
      modifies this
      ensures View() == Next(old(View()), Turn.Kick) && Valid()
      ensures running && drainers == 1
    {
      waiting := waiting + 1;
      if running {
        requested := true;
        return;
      }
      running, starting, drainers := true, true, drainers + 1;
    }

    method StartPass()
      requires Valid() && running && starting
      modifies this
      ensures View() == Next(old(View()), Turn.StartPass) && Valid()
      ensures running && !starting && waiting == 0
    {
      starting, waiting, passes := false, 0, passes + 1;
    }

    /** The locked section after a pass. */
    method FinishPass()
      requires Valid() && running && !starting
      modifies this
      ensures View() == Next(old(View()), Turn.FinishPass) && Valid()
      ensures running <==> old(requested)
    {
      if requested {
        requested, starting := false, true;
      } else {
        running, drainers := false, drainers - 1;
      }
    }

    /** The goroutine: arrivals[i] kicks come in during its i-th pass, then no
        more. It ends, and by then a pass has started after every kick. */
    method Drain(arrivals: seq<nat>)
      requires Valid() && running && starting
      modifies this
      ensures Valid() && !running && drainers == 0 && waiting == 0
      ensures old(passes) < passes <= old(passes) + |arrivals| + 2
    {
      StartPass();
      var i := 0;
      while true
        invariant Valid() && running && !starting && i <= |arrivals| + 1
        invariant passes == old(passes) + i + 1
        invariant i >= 1 && i >= |arrivals| ==> !requested
        decreases |arrivals| + 1 - i
      {
        if i < |arrivals| {
          for k := 0 to arrivals[i]
            invariant Valid() && running && !starting && passes == old(passes) + i + 1
          {
            Kick();
          }
        }
        FinishPass();
        if !running {
          return;
        }
        StartPass();
        i := i + 1;
      }
    }
  }

  function ErrorText(err: Option<SendError>): Bytes {
    if err.Some? then err.value.Text() else []
  }

  function RetryAt(err: Option<SendError>, now: Time): Time {
    now + if err.Some? then RetryDelay(err.value) else 0
  }

  const PROGRESS: Ref := Ref(Ascii("task_lifecycle"), Ascii("progress"))

  function NotSentBecause(reason: string): SendError {
    DefinitelyNotSent(Cause(Ascii(reason)))
  }

  function RejectedBecause(reason: string): SendError {
    PermanentlyNotSent(Cause(Ascii(reason)))
  }

  lemma ReasonsDecide(reason: string)
    ensures Classify(Some(NotSentBecause(reason))) == NotSent && Classify(Some(RejectedBecause(reason))) == Permanent
  {
    hide Ascii;
    var e := Cause(Ascii(reason));
    assert !e.IsPermanentlyNotSent() && !e.IsDefinitelyNotSent();
    MarkersDecideTheBranch(e, 0);
  }

  // ---------- sending ----------

  /** One call of the sender; an unkeyed message has no attempt, shown as 0. */
  datatype Notification = Notification(attempt: AttemptId, user: UserId, text: Bytes)

  /** The host's sender; calls is every message handed to it, in order. */
  class TaskNotifier {
    ghost var calls: seq<Notification>

    constructor ()
      ensures calls == []
    {
      calls := [];
    }

    /** What it answers is up to the transport. */
    method Notify(attempt: AttemptId, user: UserId, text: Bytes) returns (err: Option<SendError>, transport: Bytes)
      modifies this
      ensures calls == old(calls) + [Notification(attempt, user, text)]
    {
      calls := calls + [Notification(attempt, user, text)];
      err, transport := *, *;
    }
  }

  /** What a journal connection made of one answer taken at time now: it was asked to
      record it, and the journal is as the fate of those transactions says. */
  ghost predicate Recorded(journal: TaskNotificationJournal, requests: seq<Request>, before: Journal, recorded: bool,
                           id: AttemptId, err: Option<SendError>, transport: Bytes, marker: Marker, now: Time)
    reads journal, journal.store
  {
    var result := Record(before, id, Classify(err), transport, marker, ErrorText(err), RetryAt(err, now));
    var n0, n1 := |requests|, |journal.requests|;
    && Asked(requests, journal.requests, id, Classify(err))
    && Answered(journal.fates, n0, n1, before, journal.store.View(), recorded, result)
    && if err.None? then TriedEnough(journal.fates, journal.expired, n0, n1, result.1) else n1 == n0 + 1
  }

  lemma ResolvedIsRecorded(journal: TaskNotificationJournal, requests: seq<Request>, before: Journal, recorded: bool,
                           id: AttemptId, err: Option<SendError>, transport: Bytes, marker: Marker, now: Time)
    requires var result := Record(before, id, Classify(err), transport, marker,
                                  if err.Some? then err.value.Text() else [],
                                  now + if err.Some? then RetryDelay(err.value) else 0);
             var n0, n1 := |requests|, |journal.requests|;
             && Asked(requests, journal.requests, id, Classify(err))
             && Answered(journal.fates, n0, n1, before, journal.store.View(), recorded, result)
             && if err.None? then TriedEnough(journal.fates, journal.expired, n0, n1, result.1) else n1 == n0 + 1
    ensures Recorded(journal, requests, before, recorded, id, err, transport, marker, now)
  {
    hide Record, Classify, RetryDelay, Asked, Answered, TriedEnough;
  }

  /** What the lookup finds of the task behind an intent: its user, if it finds the
      task at all, and whether the task is still active. */
  datatype Found = Found(owner: Option<UserId>, active: bool)

  /** One retry of a claimed intent. A message for another user and progress of an
      ended task are rejected for good without a call; an unavailable lookup or sender
      defers; otherwise the sender is called once. Whatever the answer, the journal is
      asked to record it, a confirmation up to three times, and that answer is recorded
      or nothing is. */
  method RetryTaskNotification(journal: TaskNotificationJournal, notifier: TaskNotifier, intent: Intent,
                               found: Found, sender: bool, marker: Marker, now: Time)
    returns (err: Option<SendError>, transport: Bytes, recorded: bool)
    modifies journal`requests, journal.store, notifier
    ensures notifier.calls
            == old(notifier.calls)
               + if found.owner == Some(intent.user) && (found.active || PROGRESS !in intent.refs) && sender
                 then [Notification(intent.id, intent.user, intent.text)] else []
    ensures found.owner.None? ==> Classify(err) == NotSent
    ensures found.owner.Some? && found.owner.value != intent.user ==> Classify(err) == Permanent
    ensures found.owner == Some(intent.user) && PROGRESS in intent.refs && !found.active ==> Classify(err) == Permanent
    ensures found.owner == Some(intent.user) && (found.active || PROGRESS !in intent.refs) && !sender ==>
              Classify(err) == NotSent
    ensures Recorded(journal, old(journal.requests), old(journal.store.View()), recorded, intent.id, err, transport,
                     marker, now)
  {
    ReasonsDecide("task lookup unavailable");
    ReasonsDecide("notification user does not match task user");
    ReasonsDecide("task is already terminal");
    ReasonsDecide("sender unavailable");
    hide Classify, Record, NotSentBecause, RejectedBecause, Asked, Answered, TriedEnough;
    transport := [];
    if found.owner.None? {
      err := Some(NotSentBecause("task lookup unavailable"));
    } else if found.owner.value != intent.user {
      err := Some(RejectedBecause("notification user does not match task user"));
    } else if PROGRESS in intent.refs && !found.active {
      err := Some(RejectedBecause("task is already terminal"));
    } else if !sender {
      err := Some(NotSentBecause("sender unavailable"));
    } else {
      err, transport := notifier.Notify(intent.id, intent.user, intent.text);
    }
    ghost var requests, before := journal.requests, journal.store.View();
    var delivered;
    delivered, recorded := ResolveTaskNotificationAttempt(journal, intent.id, transport, marker, err, now);
    ResolvedIsRecorded(journal, requests, before, recorded, intent.id, err, transport, marker, now);
  }

  datatype Dispatch =
    | NothingToSend | NoJournalText | Unkeyed(delivered: bool) | NotBegun | AlreadyBegun
    | Attempted(delivered: bool)

  const NO_OP: Bytes := [91, 110, 111, 45, 111, 112, 93]

  const UNAVAILABLE: Option<SendError> := Some(NotSentBecause("sender unavailable"))

  /** deliverTaskNotification. A keyed message goes to the sender exactly if this call
      created its attempt, and it creates one exactly if the task is the user's, the
      refs are proper and leave something, their key is new and all of them are free.
      In every other case the journal is as it was. An unkeyed message bypasses it. */
  method DeliverTaskNotification(journal: TaskNotificationJournal, notifier: TaskNotifier, task: TaskId, user: UserId,
                                 text: Bytes, refs: seq<Ref>, newId: AttemptId, sender: bool, marker: Marker, now: Time)
    returns (outcome: Dispatch, err: Option<SendError>, transport: Bytes, recorded: bool)
    requires newId !in journal.store.attempts
    modifies journal`requests, journal.store, notifier
    ensures var silent := TrimSpace(text) == [] || TrimSpace(text) == [91, 110, 111, 45, 111, 112, 93];
            && (outcome.NothingToSend? <==> silent && refs == [])
            && (outcome.NoJournalText? <==> silent && refs != [])
            && (outcome.Unkeyed? <==> !silent && refs == [])
            && (!silent && refs != [] ==> outcome.Attempted? || outcome.AlreadyBegun? || outcome.NotBegun?)
    ensures refs != [] && TrimSpace(text) != [] && TrimSpace(text) != [91, 110, 111, 45, 111, 112, 93] ==>
              var j, batch := old(journal.store.View()), Kept(CleanAll(refs));
              var proper := task != 0 && user != 0 && batch != [] && forall c | c in CleanAll(refs) :: !Oversized(c);
              && (proper ==> Distinct(batch))
              && (outcome.Attempted? <==>
                    proper && (task, OccurrenceKey(batch)) !in j.byKey && task in j.tasks && j.tasks[task] == user
                    && forall x | x in batch :: (task, x) !in j.items)
              && (outcome.AlreadyBegun? <==>
                    proper && (task, OccurrenceKey(batch)) in j.byKey
                    && j.byKey[(task, OccurrenceKey(batch))] in j.attempts
                    && j.attempts[j.byKey[(task, OccurrenceKey(batch))]].user == user)
    ensures notifier.calls
            == old(notifier.calls)
               + if sender && outcome.Attempted? then [Notification(newId, user, text)]
                 else if sender && outcome.Unkeyed? then [Notification(0, user, text)] else []
    ensures outcome.Unkeyed? || outcome.Attempted? ==>
              (outcome.delivered <==> sender && err.None?) && (!sender ==> err == UNAVAILABLE)
    ensures !outcome.Attempted? ==>
              journal.store.View() == old(journal.store.View()) && journal.requests == old(journal.requests)
    ensures outcome.Attempted? ==>
              var begun := Begin(old(journal.store.View()), newId, task, user, text, refs, now).0;
              && newId in begun.attempts && begun.attempts[newId].text == text && begun.attempts[newId].user == user
              && Recorded(journal, old(journal.requests), begun, recorded, newId, err, transport, marker, now)
  {
    hide TrimSpace, Begin, Record, RetryAt, ErrorText, Classify, Asked, Answered, TriedEnough, KeptOf, CleanAll,
         Oversized, OccurrenceKey;
    err, transport, recorded := UNAVAILABLE, [], false;
    var trimmed := TrimSpace(text);
    if trimmed == [] || trimmed == NO_OP {
      outcome := if |refs| > 0 then NoJournalText else NothingToSend;
      return;
    }
    if |refs| == 0 {
      if sender {
        err, transport := notifier.Notify(0, user, text);
      }
      outcome := Unkeyed(sender && err.None?);
      return;
    }
    BeginExactlyWhen(journal.store.View(), newId, task, user, text, refs, now);
    var r := journal.store.BeginNotificationAttempt(task, user, text, refs, newId, now);
    if r.Err? {
      outcome := NotBegun;
      return;
    }
    if !r.value.1 {
      outcome := AlreadyBegun;
      return;
    }
    BegunRow(old(journal.store.View()), newId, task, user, text, refs, now);
    ghost var requests, begun := journal.requests, journal.store.View();
    if sender {
      err, transport := notifier.Notify(newId, user, text);
    } else {
      ReasonsDecide("sender unavailable");
    }
    var delivered;
    delivered, recorded := ResolveTaskNotificationAttempt(journal, newId, transport, marker, err, now);
    ResolvedIsRecorded(journal, requests, begun, recorded, newId, err, transport, marker, now);
    outcome := Attempted(delivered);
  }

  /** Exactly when recording an answer taken at time now makes an attempt due for a
      pass: it is the answered attempt itself, conclusively not sent and still
      dispatching, and now and the sender's delay come to no more than the cutoff. */
  lemma RecordReachesExactlyWhen(j: Journal, id: AttemptId, err: Option<SendError>, transport: Bytes, marker: Marker,
                                 now: Time, cutoff: Time, other: AttemptId)
    requires other in j.attempts && !Due(j, other, cutoff)
    ensures var v := Record(j, id, Classify(err), transport, marker, ErrorText(err), RetryAt(err, now)).0;
            && v.attempts.Keys == j.attempts.Keys
            && (Due(v, other, cutoff)
                <==> other == id != 0 && Classify(err).NotSent? && j.attempts[id].state == Dispatching
                     && RetryAt(err, now) <= cutoff && RetryAt(err, now) != 0 && TrimSpace(ErrorText(err)) != [])
  {
    hide TrimSpace, Classify, ErrorText, RetryAt;
  }

  /** So never for a pass begun before the answer was taken. */
  lemma RecordKeepsOutOfReach(j: Journal, id: AttemptId, err: Option<SendError>, transport: Bytes, marker: Marker,
                              now: Time, cutoff: Time, other: AttemptId)
    requires cutoff <= now && other in j.attempts && !Due(j, other, cutoff)
    ensures var v := Record(j, id, Classify(err), transport, marker, ErrorText(err), RetryAt(err, now)).0;
            v.attempts.Keys == j.attempts.Keys && !Due(v, other, cutoff)
  {
    RecordReachesExactlyWhen(j, id, err, transport, marker, now, cutoff, other);
    if Classify(err).NotSent? {
      NotSentIsLater(err, now);
    }
    hide Record, Classify, ErrorText, RetryAt, TrimSpace, Due;
  }

  lemma NotSentIsLater(err: Option<SendError>, now: Time)
    requires Classify(err).NotSent?
    ensures RetryAt(err, now) >= now + MIN_RETRY_DELAY
  {
  }

  /** What a pass asks of other drainers and senders between its claims: no attempt
      disappears or changes its message, and none it claimed comes due for it again. */
  predicate Undisturbed(a: Journal, b: Journal, cutoff: Time, claimed: seq<Intent>) {
    && KeepsMessages(a, b)
    && (forall i | i in claimed :: !Due(a, i.id, cutoff) ==> !Due(b, i.id, cutoff))
  }

  predicate KeepsMessages(a: Journal, b: Journal) {
    forall id | id in a.attempts ::
      && id in b.attempts && a.attempts[id].task == b.attempts[id].task
      && a.attempts[id].user == b.attempts[id].user && a.attempts[id].text == b.attempts[id].text
  }

  lemma KeepsTransitive(a: Journal, b: Journal, c: Journal)
    requires KeepsMessages(a, b) && KeepsMessages(b, c)
    ensures KeepsMessages(a, c)
  {
  }

  /** Every run of the delivery protocol leaves a pass undisturbed, and its intents
      out of reach for good; claiming puts them there (Delivery.ClaimedIsOutOfReach). */
  lemma ProtocolLeavesUndisturbed(w: World, steps: seq<Step>, v: World, cutoff: Time, claimed: seq<Intent>)
    requires Inv(w) && Run(w, steps, v) && cutoff <= w.now && forall i | i in claimed :: OutOfReach(w, i.id, cutoff)
    ensures Undisturbed(w.j, v.j, cutoff, claimed) && forall i | i in claimed :: OutOfReach(v, i.id, cutoff)
  {
    hide Inv, Run, LaterStates;
    RunKeeps(w, steps, v);
    assert forall i | i in claimed :: OutOfReach(v, i.id, cutoff);
    assert KeepsMessages(w.j, v.j) by {
      forall id | id in w.j.attempts
        ensures id in v.j.attempts && w.j.attempts[id].task == v.j.attempts[id].task
                && w.j.attempts[id].user == v.j.attempts[id].user && w.j.attempts[id].text == v.j.attempts[id].text
      {
        MessageIsImmutable(w, steps, v, id);
      }
    }
  }

  method Meanwhile(store: AgentTaskStore, j: Journal)
    modifies store
    ensures store.View() == j
  {
    store.tasks, store.attempts, store.byKey := j.tasks, j.attempts, j.byKey;
    store.items, store.delivered := j.items, j.delivered;
  }

  /** The requests of a pass: for each intent claimed, in order, those that record
      the answer it got. */
  ghost predicate AskedInTurn(before: seq<Request>, after: seq<Request>, claimed: seq<Intent>, answers: seq<Answer>)
    requires |answers| == |claimed|
    decreases |claimed|
  {
    if claimed == [] then after == before else
      var n := |claimed| - 1;
      exists mid :: AskedInTurn(before, mid, claimed[..n], answers[..n]) && Asked(mid, after, claimed[n].id, answers[n])
  }

  lemma AskedNext(before: seq<Request>, mid: seq<Request>, after: seq<Request>, claimed: seq<Intent>,
                  answers: seq<Answer>, intent: Intent, answer: Answer)
    requires |answers| == |claimed| && AskedInTurn(before, mid, claimed, answers)
    requires Asked(mid, after, intent.id, answer)
    ensures AskedInTurn(before, after, claimed + [intent], answers + [answer])
  {
    hide Asked;
    var n, more, all := |claimed|, claimed + [intent], answers + [answer];
    assert more[..n] == claimed && all[..n] == answers && more[n] == intent && all[n] == answer;
    assert AskedInTurn(before, mid, more[..n], all[..n]) && Asked(mid, after, more[n].id, all[n]);
  }

  predicate SentFor(calls: seq<Notification>, from: nat, intent: Intent) {
    exists k :: from <= k < |calls| && calls[k] == Notification(intent.id, intent.user, intent.text)
  }

  /** The calls of a pass, all of those after the first n: each claimed intent's own
      message, unchanged, exactly if the task found is its user's, is active or the
      message is not progress, and there is a sender; and no two for one intent. */
  ghost predicate CalledOnce(n: nat, calls: seq<Notification>, claimed: seq<Intent>, found: nat -> Found,
                             sender: bool) {
    n <= |calls| && OwnMessages(n, calls, claimed) && OneEach(n, calls) && SentExactly(n, calls, claimed, found, sender)
  }

  ghost predicate OwnMessages(n: nat, calls: seq<Notification>, claimed: seq<Intent>) {
    forall k | n <= k < |calls| :: MessageOf(calls[k], claimed)
  }

  /** The call carries the message of one of these. */
  ghost predicate MessageOf(c: Notification, claimed: seq<Intent>) {
    exists i :: 0 <= i < |claimed| && c == Notification(claimed[i].id, claimed[i].user, claimed[i].text)
  }

  predicate OneEach(n: nat, calls: seq<Notification>) {
    forall k, l | n <= k < l < |calls| :: calls[k].attempt != calls[l].attempt
  }

  ghost predicate SentExactly(n: nat, calls: seq<Notification>, claimed: seq<Intent>, found: nat -> Found,
                              sender: bool) {
    forall i | 0 <= i < |claimed| ::
      SentFor(calls, n, claimed[i])
      <==> sender && found(i).owner == Some(claimed[i].user) && (found(i).active || PROGRESS !in claimed[i].refs)
  }

  lemma CalledNext(n: nat, calls: seq<Notification>, after: seq<Notification>, claimed: seq<Intent>,
                   found: nat -> Found, sender: bool, intent: Intent)
    requires CalledOnce(n, calls, claimed, found, sender) && forall i | i in claimed :: i.id != intent.id
    requires var f := found(|claimed|);
             after == calls + if f.owner == Some(intent.user) && (f.active || PROGRESS !in intent.refs) && sender
                              then [Notification(intent.id, intent.user, intent.text)] else []
    ensures CalledOnce(n, after, claimed + [intent], found, sender)
  {
    hide OwnMessages, OneEach, SentExactly;
    OwnMessagesMore(n, calls, after, claimed, intent);
    OneEachMore(n, calls, after, claimed, intent);
    SentExactlyMore(n, calls, after, claimed, found, sender, intent);
  }

  lemma OwnMessagesMore(n: nat, calls: seq<Notification>, after: seq<Notification>, claimed: seq<Intent>,
                        intent: Intent)
    requires OwnMessages(n, calls, claimed)
    requires after == calls || after == calls + [Notification(intent.id, intent.user, intent.text)]
    ensures OwnMessages(n, after, claimed + [intent])
  {
    var more := claimed + [intent];
    forall k | n <= k < |after| ensures MessageOf(after[k], more) {
      if k < |calls| {
        assert after[k] == calls[k] && MessageOf(calls[k], claimed);
        var i :| 0 <= i < |claimed| && calls[k] == Notification(claimed[i].id, claimed[i].user, claimed[i].text);
        assert more[i] == claimed[i];
      } else {
        assert more[|claimed|] == intent;
      }
    }
  }

  lemma OneEachMore(n: nat, calls: seq<Notification>, after: seq<Notification>, claimed: seq<Intent>, intent: Intent)
    requires OwnMessages(n, calls, claimed) && OneEach(n, calls) && forall i | i in claimed :: i.id != intent.id
    requires after == calls || after == calls + [Notification(intent.id, intent.user, intent.text)]
    ensures OneEach(n, after)
  {
    hide OwnMessages;
    forall k, l | n <= k < l < |after| ensures after[k].attempt != after[l].attempt {
      if l == |calls| {
        AnotherAttempt(n, calls, claimed, intent, k);
      }
    }
  }

  lemma AnotherAttempt(n: nat, calls: seq<Notification>, claimed: seq<Intent>, intent: Intent, k: nat)
    requires OwnMessages(n, calls, claimed) && n <= k < |calls| && forall i | i in claimed :: i.id != intent.id
    ensures calls[k].attempt != intent.id
  {
    assert MessageOf(calls[k], claimed);
    var i :| 0 <= i < |claimed| && calls[k] == Notification(claimed[i].id, claimed[i].user, claimed[i].text);
    assert claimed[i] in claimed;
  }

  lemma SentExactlyMore(n: nat, calls: seq<Notification>, after: seq<Notification>, claimed: seq<Intent>,
                        found: nat -> Found, sender: bool, intent: Intent)
    requires n <= |calls| && OwnMessages(n, calls, claimed) && SentExactly(n, calls, claimed, found, sender)
    requires forall i | i in claimed :: i.id != intent.id
    requires var f := found(|claimed|);
             after == calls + if f.owner == Some(intent.user) && (f.active || PROGRESS !in intent.refs) && sender
                              then [Notification(intent.id, intent.user, intent.text)] else []
    ensures SentExactly(n, after, claimed + [intent], found, sender)
  {
    hide SentFor, OwnMessages;
    var more := claimed + [intent];
    forall i | 0 <= i < |more|
      ensures SentFor(after, n, more[i])
              <==> sender && found(i).owner == Some(more[i].user) && (found(i).active || PROGRESS !in more[i].refs)
    {
      if i < |claimed| {
        assert more[i] == claimed[i] && claimed[i] in claimed;
        SentForStays(n, calls, after, claimed[i], intent);
      } else {
        SentForLast(n, calls, after, claimed, intent);
      }
    }
  }

  lemma SentForStays(n: nat, calls: seq<Notification>, after: seq<Notification>, it: Intent, intent: Intent)
    requires after == calls || after == calls + [Notification(intent.id, intent.user, intent.text)]
    requires it.id != intent.id
    ensures SentFor(after, n, it) <==> SentFor(calls, n, it)
  {
    if SentFor(calls, n, it) {
      var k :| n <= k < |calls| && calls[k] == Notification(it.id, it.user, it.text);
      assert after[k] == calls[k];
    }
    if SentFor(after, n, it) {
      var k :| n <= k < |after| && after[k] == Notification(it.id, it.user, it.text);
      assert k < |calls| && calls[k] == after[k];
    }
  }

  lemma SentForLast(n: nat, calls: seq<Notification>, after: seq<Notification>, claimed: seq<Intent>, intent: Intent)
    requires n <= |calls| && OwnMessages(n, calls, claimed) && forall i | i in claimed :: i.id != intent.id
    requires after == calls || after == calls + [Notification(intent.id, intent.user, intent.text)]
    ensures SentFor(after, n, intent) <==> after != calls
  {
    if after != calls {
      assert after[|calls|] == Notification(intent.id, intent.user, intent.text);
    }
    if SentFor(calls, n, intent) {
      var k :| n <= k < |calls| && calls[k] == Notification(intent.id, intent.user, intent.text);
      AnotherAttempt(n, calls, claimed, intent, k);
    }
  }

  predicate DistinctIds(claimed: seq<Intent>) {
    forall i, k | 0 <= i < k < |claimed| :: claimed[i].id != claimed[k].id
  }

  /** What the pass knows of the journal: every claimed intent is out of its reach and
      is the row's own message. */
  predicate Held(j: Journal, claimed: seq<Intent>, cutoff: Time) {
    forall i | i in claimed ::
      i.id in j.attempts && !Due(j, i.id, cutoff)
      && i.task == j.attempts[i.id].task && i.user == j.attempts[i.id].user && i.text == j.attempts[i.id].text
  }

  /** A pass amid other drainers: others(j, claimed) is what they make of journal j
      before the next claim and while a message is on its way, locked(i) the rows they
      hold locked at the i-th claim, found(i) what the i-th lookup finds. At most twenty
      claims under one cutoff, no intent twice; each claimed intent is retried, its
      answer put to the journal, and its own message sent, once, exactly when it may be;
      the pass stops early only when a claim failed or when everything still due was
      locked by another drainer. */
  method DrainRetryableNotifications(journal: TaskNotificationJournal, notifier: TaskNotifier, cutoff: Time,
                                     others: (Journal, seq<Intent>) -> Journal, locked: nat -> set<AttemptId>,
                                     found: nat -> Found, sender: bool)
    returns (claimed: seq<Intent>, failed: bool, answers: seq<Answer>)
    requires cutoff != 0
    requires forall j: Journal, claimed: seq<Intent> :: Undisturbed(j, others(j, claimed), cutoff, claimed)
    modifies journal`requests, journal.store, notifier
    ensures DistinctIds(claimed) && |claimed| == |answers| <= 20
    ensures AskedInTurn(old(journal.requests), journal.requests, claimed, answers)
    ensures old(notifier.calls) <= notifier.calls
    ensures CalledOnce(|old(notifier.calls)|, notifier.calls, claimed, found, sender)
    ensures Held(journal.store.View(), claimed, cutoff)
    ensures KeepsMessages(old(journal.store.View()), journal.store.View())
    ensures !failed && |claimed| < 20 ==>
              forall id | id in journal.store.attempts && Due(journal.store.View(), id, cutoff) ::
                id in locked(|claimed|)
  {
    hide Record, Classify, ErrorText, RetryAt, Asked, AskedInTurn, CalledOnce, Recorded, SentFor, Held, DistinctIds,
         KeepsMessages, Undisturbed, Claim;
    var store := journal.store;
    ghost var j0, r0, c0 := store.View(), journal.requests, notifier.calls;
    claimed, failed, answers := [], false, [];
    NothingYet(j0, r0, c0, found, sender, cutoff);
    var now := cutoff;
    while |claimed| < MAX_RETRIES_PER_TICK
      invariant cutoff <= now && |claimed| == |answers| <= MAX_RETRIES_PER_TICK && DistinctIds(claimed)
      invariant AskedInTurn(r0, journal.requests, claimed, answers)
      invariant c0 <= notifier.calls && CalledOnce(|c0|, notifier.calls, claimed, found, sender)
      invariant KeepsMessages(j0, store.View()) && Held(store.View(), claimed, cutoff)
      decreases MAX_RETRIES_PER_TICK - |claimed|
    {
      Disturb(store, j0, cutoff, claimed, others);
      ghost var due, k := store.View(), |claimed|;
      var r := store.ClaimRetryableNotification(cutoff, locked(|claimed|));
      if r.Err? {
        failed := true;
        return;
      }
      if r.value.None? {
        return;
      }
      var intent, f := r.value.value, found(|claimed|);
      var clock: Time :| now <= clock;
      now := clock;
      ClaimHolds(j0, due, claimed, cutoff, intent);
      Disturb(store, j0, cutoff, claimed + [intent], others);
      ghost var before, requests, calls := store.View(), journal.requests, notifier.calls;
      var marker := *;
      var err, transport, recorded := RetryTaskNotification(journal, notifier, intent, f, sender, marker, now);
      RecordedAsks(journal, requests, before, recorded, intent.id, err, transport, marker, now);
      AskedNext(r0, requests, journal.requests, claimed, answers, intent, Classify(err));
      CalledNext(|c0|, calls, notifier.calls, claimed, found, sender, intent);
      claimed, answers := claimed + [intent], answers + [Classify(err)];
      RecordedHolds(journal, requests, before, recorded, intent.id, err, transport, marker, now, cutoff, claimed);
      KeepsTransitive(j0, before, store.View());
    }
  }

  /** What others do meanwhile. */
  method Disturb(store: AgentTaskStore, ghost j0: Journal, cutoff: Time, claimed: seq<Intent>,
                 others: (Journal, seq<Intent>) -> Journal)
    requires forall j: Journal, claimed: seq<Intent> :: Undisturbed(j, others(j, claimed), cutoff, claimed)
    requires KeepsMessages(j0, store.View()) && Held(store.View(), claimed, cutoff)
    modifies store
    ensures store.View() == others(old(store.View()), claimed)
    ensures KeepsMessages(j0, store.View()) && Held(store.View(), claimed, cutoff)
  {
    hide KeepsMessages, Held, Undisturbed;
    ghost var j := store.View();
    assert Undisturbed(j, others(j, claimed), cutoff, claimed);
    HeldStays(j0, j, others(j, claimed), claimed, cutoff);
    Meanwhile(store, others(store.View(), claimed));
  }

  lemma HeldStays(j0: Journal, a: Journal, b: Journal, claimed: seq<Intent>, cutoff: Time)
    requires KeepsMessages(j0, a) && Held(a, claimed, cutoff) && Undisturbed(a, b, cutoff, claimed)
    ensures KeepsMessages(j0, b) && Held(b, claimed, cutoff)
  {
  }

  lemma ClaimHolds(j0: Journal, j: Journal, claimed: seq<Intent>, cutoff: Time, intent: Intent)
    requires KeepsMessages(j0, j) && Held(j, claimed, cutoff) && DistinctIds(claimed) && Due(j, intent.id, cutoff)
    requires intent.task == j.attempts[intent.id].task && intent.user == j.attempts[intent.id].user
             && intent.text == j.attempts[intent.id].text
    ensures forall i | i in claimed :: i.id != intent.id
    ensures DistinctIds(claimed + [intent]) && Held(Claim(j, intent.id), claimed + [intent], cutoff)
    ensures KeepsMessages(j0, Claim(j, intent.id))
  {
  }

  lemma NothingYet(j: Journal, requests: seq<Request>, calls: seq<Notification>, found: nat -> Found, sender: bool,
                   cutoff: Time)
    ensures AskedInTurn(requests, requests, [], []) && CalledOnce(|calls|, calls, [], found, sender)
    ensures DistinctIds([]) && Held(j, [], cutoff) && KeepsMessages(j, j)
  {
  }

  lemma RecordedAsks(journal: TaskNotificationJournal, requests: seq<Request>, before: Journal, recorded: bool,
                     id: AttemptId, err: Option<SendError>, transport: Bytes, marker: Marker, now: Time)
    requires Recorded(journal, requests, before, recorded, id, err, transport, marker, now)
    ensures Asked(requests, journal.requests, id, Classify(err))
  {
    hide Record, Classify, Asked, Answered, TriedEnough;
  }

  lemma RecordedHolds(journal: TaskNotificationJournal, requests: seq<Request>, before: Journal, recorded: bool,
                      id: AttemptId, err: Option<SendError>, transport: Bytes, marker: Marker, now: Time,
                      cutoff: Time, claimed: seq<Intent>)
    requires Recorded(journal, requests, before, recorded, id, err, transport, marker, now)
    requires cutoff <= now && Held(before, claimed, cutoff)
    ensures Held(journal.store.View(), claimed, cutoff)
    ensures KeepsMessages(before, journal.store.View())
  {
    var after := Record(before, id, Classify(err), transport, marker, ErrorText(err), RetryAt(err, now)).0;
    RecordKeepsMessages(before, id, Classify(err), transport, marker, ErrorText(err), RetryAt(err, now));
    hide Record, Classify, ErrorText, RetryAt, Asked, TriedEnough;
    assert journal.store.View() == before || journal.store.View() == after;
    forall i | i in claimed
      ensures !Due(after, i.id, cutoff)
    {
      RecordKeepsOutOfReach(before, id, err, transport, marker, now, cutoff, i.id);
    }
  }

  lemma RecordKeepsMessages(j: Journal, id: AttemptId, answer: Answer, transport: Bytes, marker: Marker, reason: Bytes,
                            retryAt: Time)
    ensures var v := Record(j, id, answer, transport, marker, reason, retryAt).0;
            KeepsMessages(j, v)
  {
    hide TrimSpace;
  }
}
