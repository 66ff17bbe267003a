/** The graph executor over the persisted step store: one dispatching loop, its
    worker goroutines and completion channel, and everything else that touches
    the store meanwhile (other processes, lease recovery, stuck-step resolution). */
module Graph {
  import opened Common
  import opened Wrappers
  import opened Refs
  import J = Journal

  type StepId = nat
  type RunId = nat
  type Time = J.Time
  type Text = Bytes

  datatype Kind = Read | Action | Finalize

  datatype Status = Pending | Running | Done | Blocked | Reconciliation

  datatype Row = Row(kind: Kind, deps: seq<StepId>, tools: bool, maxAttempts: nat,
                     status: Status, result: Text, attempts: nat, nextAt: Time, run: RunId)

  // ---------- the step store ----------

  /** Persisted steps of one task; order lists them as they became done. */
  datatype Store = Store(plan: seq<StepId>, rows: map<StepId, Row>, order: seq<StepId>)

  /** candidate: the saved checkpoint is a complete candidate whose verification can resume. */
  datatype Write =
    | ClaimTaskStep(id: StepId, run: RunId, now: Time)
    | CompleteTaskStep(id: StepId, run: RunId, output: Text)
    | FailTaskStepAfter(id: StepId, run: RunId, retryable: bool, candidate: bool, nextAt: Time)
    | RecoverTaskStep(id: StepId, candidate: bool)
    | ResolveStuckTaskStep(id: StepId, report: Text)

  predicate DepsDone(rows: map<StepId, Row>, deps: seq<StepId>) {
    forall d | d in deps :: d in rows && rows[d].status == Done
  }

  /** Running, or with an effect nobody has confirmed yet. */
  predicate Unsettled(r: Row) {
    r.status in {Running, Reconciliation}
  }

  /** No step in flight excludes this one: only reads share the store. */
  predicate Unopposed(rows: map<StepId, Row>, kind: Kind) {
    forall p | p in rows && Unsettled(rows[p]) :: kind == Read && rows[p].kind == Read
  }

  predicate NeedsReconciliation(row: Row, candidate: bool) {
    row.kind != Read && !(row.kind == Finalize && !row.tools) && !candidate
  }

  predicate Held(s: Store, id: StepId, run: RunId) {
    id in s.rows && s.rows[id].status == Running && s.rows[id].run == run
  }

  predicate Allowed(s: Store, op: Write) {
    op.id in s.rows &&
    var row := s.rows[op.id];
    match op
    case ClaimTaskStep(_, _, now) =>
      row.status == Pending && row.nextAt <= now && row.attempts < row.maxAttempts && Unopposed(s.rows, row.kind)
        && DepsDone(s.rows, row.deps)
    case CompleteTaskStep(id, run, output) => Held(s, id, run) && TrimSpace(output) != []
    case FailTaskStepAfter(id, run, _, _, _) => Held(s, id, run)
    case RecoverTaskStep(_, _) => row.status == Running
    case ResolveStuckTaskStep(_, report) =>
      row.status in {Blocked, Reconciliation} && row.kind != Finalize && report != []
  }

  function Update(s: Store, op: Write): Store
    requires op.id in s.rows
  {
    var row := s.rows[op.id];
    match op
    case ClaimTaskStep(id, run, _) =>
      s.(rows := s.rows[id := row.(status := Running, run := run, attempts := row.attempts + 1)])
    case CompleteTaskStep(id, _, output) =>
      s.(rows := s.rows[id := row.(status := Done, result := output)], order := s.order + [id])
    case FailTaskStepAfter(id, _, retryable, candidate, nextAt) =>
      s.(rows := s.rows[id := row.(nextAt := nextAt, status :=
           if NeedsReconciliation(row, candidate) then Reconciliation
           else if retryable && row.attempts < row.maxAttempts then Pending else Blocked)])
    case RecoverTaskStep(id, candidate) =>
      s.(rows := s.rows[id := row.(status :=
           if NeedsReconciliation(row, candidate) then Reconciliation
           else if row.attempts >= row.maxAttempts then Blocked else Pending)])
    case ResolveStuckTaskStep(id, report) =>
      s.(rows := s.rows[id := row.(status := Done, result := report)], order := s.order + [id])
  }

  /** When the writes after a claim take place: a worker's only under its run while the step is
      running, and a completion only with a result; a recovery of a running step; a report only
      on a work step that is stuck. */
  lemma WritesExactlyWhen(s: Store, op: Write)
    requires op.id in s.rows
    ensures var row := s.rows[op.id];
            match op
            case ClaimTaskStep(_, _, _) => true
            case CompleteTaskStep(_, run, output) =>
              Allowed(s, op) <==> row.status == Running && row.run == run && TrimSpace(output) != []
            case FailTaskStepAfter(_, run, _, _, _) => Allowed(s, op) <==> row.status == Running && row.run == run
            case RecoverTaskStep(_, _) => Allowed(s, op) <==> row.status == Running
            case ResolveStuckTaskStep(_, report) =>
              Allowed(s, op) <==> row.status in {Blocked, Reconciliation} && row.kind in {Read, Action} && report != []
  {
    hide TrimSpace;
  }

  /** What each write makes of its step, and of nothing else. A step that failed or lost its
      worker with its effect unknown waits for reconciliation; otherwise it is tried again
      exactly if attempts are left and, after a failure, it was retryable. */
  lemma WriteLeaves(s: Store, op: Write)
    requires op.id in s.rows
    ensures var (row, t) := (s.rows[op.id], Update(s, op));
            var after := t.rows[op.id];
            var unknown := (row.kind == Action || (row.kind == Finalize && row.tools))
                           && (op.FailTaskStepAfter? || op.RecoverTaskStep? ==> !op.candidate);
            && t.plan == s.plan && t.rows == s.rows[op.id := after]
            && after.kind == row.kind && after.deps == row.deps && after.maxAttempts == row.maxAttempts
            && t.order == (if after.status == Done then s.order + [op.id] else s.order)
            && match op
               case ClaimTaskStep(_, run, _) =>
                 after == row.(status := Running, run := run, attempts := row.attempts + 1)
               case CompleteTaskStep(_, _, output) => after == row.(status := Done, result := output)
               case ResolveStuckTaskStep(_, report) => after == row.(status := Done, result := report)
               case FailTaskStepAfter(_, _, retryable, _, nextAt) =>
                 && after == row.(status := after.status, nextAt := nextAt)
                 && (after.status == Reconciliation <==> unknown)
                 && (after.status == Pending <==> !unknown && retryable && row.attempts < row.maxAttempts)
                 && after.status in {Pending, Blocked, Reconciliation}
               case RecoverTaskStep(_, _) =>
                 && after == row.(status := after.status)
                 && (after.status == Reconciliation <==> unknown)
                 && (after.status == Pending <==> !unknown && row.attempts < row.maxAttempts)
                 && after.status in {Pending, Blocked, Reconciliation}
  {
    hide Allowed, Held;
  }

  ghost predicate RowInv(s: Store, id: StepId)
    requires id in s.rows
  {
    var row := s.rows[id];
    && row.attempts <= row.maxAttempts
    && (row.status != Pending ==> DepsDone(s.rows, row.deps))
    && (row.status == Done <==> id in s.order)
  }

  /** order has no repetition and lists dependencies before their dependents. */
  ghost predicate Topological(rows: map<StepId, Row>, order: seq<StepId>) {
    && Distinct(order)
    && forall i, d | 0 <= i < |order| && order[i] in rows && d in rows[order[i]].deps :: d in order[..i]
  }

  ghost predicate Exclusive(rows: map<StepId, Row>) {
    forall a, b | a in rows && b in rows && a != b && Unsettled(rows[a]) && Unsettled(rows[b]) ::
      rows[a].kind == Read && rows[b].kind == Read
  }

  ghost predicate StoreInv(s: Store) {
    && (forall id | id in s.rows :: RowInv(s, id))
    && (forall id | id in s.order :: id in s.rows)
    && Topological(s.rows, s.order)
    && Exclusive(s.rows)
    && s.plan != [] && (forall id :: id in s.plan <==> id in s.rows)
  }

  /** A plan as saved: nothing tried yet. */
  ghost predicate Fresh(s: Store) {
    && s.order == [] && s.plan != [] && (forall id :: id in s.plan <==> id in s.rows)
    && forall id | id in s.rows :: s.rows[id].status == Pending && s.rows[id].attempts == 0
  }

  ghost predicate RowGrows(a: Row, b: Row) {
    && a.kind == b.kind && a.deps == b.deps && a.maxAttempts == b.maxAttempts && a.attempts <= b.attempts
    && (a.status == Done ==> b == a)
    && (a.status == Reconciliation ==> b.status in {Reconciliation, Done} && b.attempts == a.attempts)
  }

  ghost predicate Grows(s: Store, t: Store) {
    && t.plan == s.plan && t.rows.Keys == s.rows.Keys
    && forall id | id in s.rows :: RowGrows(s.rows[id], t.rows[id])
  }

  lemma UpdateGrows(s: Store, op: Write)
    requires Allowed(s, op)
    ensures Grows(s, Update(s, op))
  {
    hide TrimSpace;
  }

  lemma GrowsTransitive(r: Store, s: Store, t: Store)
    requires Grows(r, s) && Grows(s, t)
    ensures Grows(r, t)
  {
    forall id | id in r.rows ensures RowGrows(r.rows[id], t.rows[id]) {
      assert RowGrows(r.rows[id], s.rows[id]) && RowGrows(s.rows[id], t.rows[id]);
    }
  }

  lemma DoneDepsStay(s: Store, t: Store, deps: seq<StepId>)
    requires Grows(s, t) && DepsDone(s.rows, deps)
    ensures DepsDone(t.rows, deps)
  {
    forall d | d in deps ensures d in t.rows && t.rows[d].status == Done {
      assert RowGrows(s.rows[d], t.rows[d]);
    }
  }

  lemma UpdateKeepsRows(s: Store, op: Write)
    requires StoreInv(s) && Allowed(s, op)
    ensures forall id | id in s.rows :: RowInv(Update(s, op), id)
  {
    hide TrimSpace, Topological, Exclusive, Unopposed;
    UpdateGrows(s, op);
    var t := Update(s, op);
    forall id | id in s.rows ensures RowInv(t, id) {
      assert RowInv(s, id) && RowInv(s, op.id);
      if DepsDone(s.rows, s.rows[id].deps) {
        DoneDepsStay(s, t, s.rows[id].deps);
      }
    }
  }

  lemma UpdateKeepsOrder(s: Store, op: Write)
    requires StoreInv(s) && Allowed(s, op)
    ensures Topological(Update(s, op).rows, Update(s, op).order)
  {
    hide TrimSpace, Exclusive, Unopposed;
    var t := Update(s, op);
    assert RowInv(s, op.id);
    if t.order != s.order {
      var n := |s.order|;
      assert t.order == s.order + [op.id];
      forall i, d | 0 <= i < |t.order| && t.order[i] in t.rows && d in t.rows[t.order[i]].deps
        ensures d in t.order[..i]
      {
        assert t.order[..i] == s.order[..i];
        if i == n {
          assert d in s.rows && s.rows[d].status == Done && RowInv(s, d);
          assert s.order[..n] == s.order;
        } else {
          assert t.order[i] == s.order[i];
        }
      }
    }
  }

  /** A write changes one row, and lets it run only if nothing in flight opposes it. */
  lemma UpdateUnsettles(s: Store, op: Write)
    requires Allowed(s, op)
    ensures var t, row := Update(s, op), s.rows[op.id];
            && t.rows == s.rows[op.id := t.rows[op.id]] && t.rows[op.id].kind == row.kind
            && (Unsettled(t.rows[op.id]) ==> Unsettled(row) || Unopposed(s.rows, row.kind))
            && t.plan == s.plan && (t.order == s.order || t.order == s.order + [op.id])
  {
    hide TrimSpace, Unopposed, DepsDone, NeedsReconciliation;
  }

  lemma OneRowStaysExclusive(rows: map<StepId, Row>, id: StepId, row: Row)
    requires Exclusive(rows) && id in rows && row.kind == rows[id].kind
    requires Unsettled(row) ==> Unsettled(rows[id]) || Unopposed(rows, row.kind)
    ensures Exclusive(rows[id := row])
  {
  }

  lemma UpdateKeeps(s: Store, op: Write)
    requires StoreInv(s) && Allowed(s, op)
    ensures StoreInv(Update(s, op)) && Grows(s, Update(s, op))
  {
    UpdateGrows(s, op);
    UpdateKeepsRows(s, op);
    UpdateKeepsOrder(s, op);
    UpdateUnsettles(s, op);
    OneRowStaysExclusive(s.rows, op.id, Update(s, op).rows[op.id]);
    hide Topological, RowInv, RowGrows, Exclusive, Update, Allowed;
  }

  // ---------- readiness and inputs ----------

  predicate Ready(seen: map<StepId, Row>, row: Row) {
    DepsDone(seen, row.deps)
  }

  /** Confirmed dependency results; reads and the report also see confirmed reads. */
  function Inputs(seen: map<StepId, Row>, row: Row): map<StepId, Text> {
    map id | id in seen && (id in row.deps || (row.kind != Action && seen[id].kind == Read && seen[id].status == Done))
      :: seen[id].result
  }

  lemma InputsOf(seen: map<StepId, Row>, row: Row)
    ensures var inputs := Inputs(seen, row);
            && (forall id | id in seen ::
                  id in inputs
                  <==> id in row.deps || (row.kind != Action && seen[id].kind == Read && seen[id].status == Done))
            && (forall id | id in inputs :: id in seen && inputs[id] == seen[id].result)
  {
  }

  /** The readiness and input loops of GraphExecutor.Run. */
  method CollectInputs(plan: seq<StepId>, seen: map<StepId, Row>, row: Row)
    returns (ready: bool, inputs: map<StepId, Text>)
    requires forall id :: id in plan <==> id in seen
    ensures ready <==> forall d | d in row.deps :: d in seen && seen[d].status == Done
    ensures ready ==> inputs == Inputs(seen, row)
    ensures ready && row.kind == Action ==> forall id :: id in inputs <==> id in row.deps
    ensures ready && row.kind != Action ==>
              forall id :: id in inputs
                           <==> id in row.deps || (id in seen && seen[id].kind == Read && seen[id].status == Done)
    ensures ready ==> forall id | id in inputs :: id in seen && inputs[id] == seen[id].result
  {
    inputs := map[];
    for i := 0 to |row.deps|
      invariant DepsDone(seen, row.deps[..i])
      invariant inputs == map id | id in seen && id in row.deps[..i] :: seen[id].result
    {
      var dep := row.deps[i];
      if dep !in seen || seen[dep].status != Done {
        return false, inputs;
      }
      assert row.deps[..i + 1] == row.deps[..i] + [dep];
      inputs := inputs[dep := seen[dep].result];
    }
    assert row.deps[..|row.deps|] == row.deps;
    ready := true;
    if row.kind != Action {
      for i := 0 to |plan|
        invariant inputs == map id | id in seen
                  && (id in row.deps || (id in plan[..i] && seen[id].kind == Read && seen[id].status == Done)) ::
                       seen[id].result
      {
        var id := plan[i];
        assert plan[..i + 1] == plan[..i] + [id];
        if seen[id].kind == Read && seen[id].status == Done {
          inputs := inputs[id := seen[id].result];
        }
      }
      assert plan[..|plan|] == plan;
    }
    InputsOf(seen, row);
  }

  // ---------- the executor ----------

  datatype Answer = Passed | Waiting | Broken

  datatype Event = Event(id: StepId, answer: Answer)

  datatype Worker = Worker(step: StepId, inputs: map<StepId, Text>, answer: Option<Answer>)

  datatype Pc = Top | Scan(i: nat, seen: map<StepId, Row>) | Wait | Returned(completed: bool)

  /** starts counts the workers ever launched per step. */
  datatype World = World(store: Store, parallelReads: nat, pc: Pc, running: set<StepId>, exclusive: bool, stopped: bool,
                         channel: seq<Event>, workers: map<RunId, Worker>, nextRun: RunId, starts: map<StepId, nat>)

  datatype Step =
    | Begin(canceled: bool)                                   // top of the loop: load the steps
    | Examine(now: Time, expired: bool, claimFails: bool)     // one iteration of the scan
    | Receive(fatal: bool)
    | Wake
    | Leave
    | Work(run: RunId, op: Write, answer: Answer)             // a worker's own last write
    | Quit(run: RunId)                                        // a worker returns without one
    | Send(run: RunId)
    | Elsewhere(op: Write)                                    // recovery, resolution, other processes

  predicate Started(w: World, op: Write) {
    op.ClaimTaskStep? && op.run == w.nextRun && Allowed(w.store, op)
  }

  /** Scan position i, past the cheap refusals, tries to claim. */
  predicate Eligible(w: World, id: StepId, seen: map<StepId, Row>, now: Time) {
    && id in seen && seen[id].status == Pending && id !in w.running
    && (seen[id].kind != Read ==> w.running == {})
    && Ready(seen, seen[id]) && seen[id].nextAt <= now
  }

  function Launched(w: World, id: StepId, seen: map<StepId, Row>, i: nat, now: Time): World
    requires id in w.store.rows && id in seen
  {
    w.(store := Update(w.store, ClaimTaskStep(id, w.nextRun, now)), pc := Scan(i + 1, seen),
       running := w.running + {id}, exclusive := seen[id].kind != Read,
       workers := w.workers[w.nextRun := Worker(id, Inputs(seen, seen[id]), None)], nextRun := w.nextRun + 1,
       starts := w.starts[id := StartsOf(w, id) + 1])
  }

  function StartsOf(w: World, id: StepId): nat {
    if id in w.starts then w.starts[id] else 0
  }

  function Examined(w: World, i: nat, seen: map<StepId, Row>, now: Time, expired: bool, claimFails: bool): World {
    if i >= |w.store.plan| || w.exclusive || |w.running| >= w.parallelReads then w.(pc := Wait) else
      var id := w.store.plan[i];
      if !Eligible(w, id, seen, now) then w.(pc := Scan(i + 1, seen))
      else if (expired && seen[id].kind != Finalize) || claimFails then w.(stopped := true, pc := Wait)
      else if Started(w, ClaimTaskStep(id, w.nextRun, now)) then Launched(w, id, seen, i, now)
      else w.(pc := Scan(i + 1, seen))
  }

  function Loaded(w: World): World {
    if (forall id | id in w.store.rows :: w.store.rows[id].status == Done) && w.running == {}
      then w.(pc := Returned(true))
    else w.(pc := Scan(0, w.store.rows))
  }

  function Received(w: World, fatal: bool): World
    requires w.channel != []
  {
    var e := w.channel[0];
    w.(channel := w.channel[1..], running := w.running - {e.id}, exclusive := false, pc := Top,
       stopped := w.stopped || e.answer.Broken? || (e.answer.Waiting? && fatal))
  }

  function Answered(w: World, run: RunId, answer: Answer): World
    requires run in w.workers
  {
    w.(workers := w.workers[run := w.workers[run].(answer := Some(answer))])
  }

  predicate Busy(w: World, run: RunId) {
    run in w.workers && w.workers[run].answer.None?
  }

  /** A worker finishes or fails the step it was launched for, under its run. */
  predicate OwnWrite(w: World, run: RunId, op: Write, answer: Answer) {
    && Busy(w, run) && op.id == w.workers[run].step && Allowed(w.store, op)
    && match op
       case CompleteTaskStep(_, r, _) => r == run && !answer.Waiting?
       case FailTaskStepAfter(_, r, retryable, _, _) => r == run && (answer.Waiting? ==> retryable) && !answer.Passed?
       case _ => false
  }

  /** What others can do: claim under their own runs, recover, resolve, and
      conclude steps they hold. */
  predicate Foreign(w: World, op: Write) {
    && Allowed(w.store, op)
    && match op
       case ClaimTaskStep(_, run, _) => run == w.nextRun
       case CompleteTaskStep(_, run, _) => run !in w.workers
       case FailTaskStepAfter(_, run, _, _, _) => run !in w.workers
       case _ => true
  }

  /** One step; a step that is not possible changes nothing. */
  function Apply(w: World, s: Step): World {
    match s
    case Begin(canceled) =>
      if !w.pc.Top? then w
      else if w.stopped || canceled then w.(stopped := true, pc := Wait)
      else Loaded(w)
    case Examine(now, expired, claimFails) =>
      if w.pc.Scan? then Examined(w, w.pc.i, w.pc.seen, now, expired, claimFails) else w
    case Receive(fatal) => if w.pc.Wait? && w.channel != [] then Received(w, fatal) else w
    case Wake => if w.pc.Wait? && !w.stopped && w.running != {} then w.(pc := Top) else w
    case Leave => if w.pc.Wait? && w.running == {} then w.(pc := Returned(false)) else w
    case Work(run, op, answer) =>
      if OwnWrite(w, run, op, answer) then Answered(w, run, answer).(store := Update(w.store, op)) else w
    case Quit(run) => if Busy(w, run) then Answered(w, run, Broken) else w
    case Send(run) =>
      if run in w.workers && w.workers[run].answer.Some?
      then w.(channel := w.channel + [Event(w.workers[run].step, w.workers[run].answer.value)],
              workers := w.workers - {run}) else w
    case Elsewhere(op) =>
      if Foreign(w, op)
      then w.(store := Update(w.store, op), nextRun := if op.ClaimTaskStep? then w.nextRun + 1 else w.nextRun)
      else w
  }

  function Run(w: World, steps: seq<Step>): World
    decreases |steps|
  {
    if steps == [] then w else Run(Apply(w, steps[0]), steps[1..])
  }

  // ---------- the invariant ----------

  ghost predicate Init(w: World) {
    && Fresh(w.store) && 1 <= w.parallelReads <= 8 && w.pc == Top && w.running == {} && !w.exclusive && !w.stopped
    && w.channel == [] && w.workers == map[] && w.starts == map[]
  }

  predicate Reported(channel: seq<Event>, id: StepId) {
    exists i :: 0 <= i < |channel| && channel[i].id == id
  }

  lemma ReportedTail(channel: seq<Event>, id: StepId)
    requires channel != []
    ensures Reported(channel[1..], id) ==> Reported(channel, id)
  {
    if i :| 0 <= i < |channel| - 1 && channel[1..][i].id == id {
      assert channel[i + 1].id == id;
    }
  }

  lemma ReportedMore(channel: seq<Event>, e: Event, id: StepId)
    ensures Reported(channel + [e], id) ==> Reported(channel, id) || e.id == id
  {
    if i :| 0 <= i < |channel| && (channel + [e])[i].id == id {
      assert channel[i].id == id;
    }
  }

  predicate Worked(workers: map<RunId, Worker>, id: StepId) {
    exists g :: g in workers && workers[g].step == id
  }

  /** running is exactly the steps with a worker or an unread report, each once. */
  ghost predicate Accounted(w: World) {
    && (forall g | g in w.workers ::
          g < w.nextRun && w.workers[g].step in w.running && !Reported(w.channel, w.workers[g].step))
    && (forall g, h | g in w.workers && h in w.workers && w.workers[g].step == w.workers[h].step :: g == h)
    && (forall i | 0 <= i < |w.channel| :: w.channel[i].id in w.running)
    && (forall i, k | 0 <= i < k < |w.channel| :: w.channel[i].id != w.channel[k].id)
    && (forall id | id in w.running :: Reported(w.channel, id) || Worked(w.workers, id))
  }

  ghost predicate Alone(w: World) {
    && |w.running| <= w.parallelReads
    && w.running <= w.store.rows.Keys
    && (forall id | id in w.running && w.store.rows[id].kind != Read :: w.exclusive && w.running == {id})
    && (w.exclusive ==> exists id :: id in w.running && w.store.rows[id].kind != Read)
  }

  /** A worker's inputs are confirmed results, of its dependencies at least. */
  ghost predicate Fed(s: Store, p: Worker) {
    && p.step in s.rows
    && DepsDone(s.rows, s.rows[p.step].deps)
    && (forall d | d in s.rows[p.step].deps :: d in p.inputs)
    && (forall d | d in p.inputs :: d in s.rows && s.rows[d].status == Done && p.inputs[d] == s.rows[d].result)
    && (forall d | d in p.inputs ::
          d in s.rows[p.step].deps || (s.rows[p.step].kind != Action && s.rows[d].kind == Read))
  }

  ghost predicate Current(s: Store, seen: map<StepId, Row>) {
    && seen.Keys == s.rows.Keys
    && forall id | id in seen :: RowGrows(seen[id], s.rows[id])
  }

  ghost predicate PcInv(w: World) {
    match w.pc
    case Scan(_, seen) => !w.stopped && Current(w.store, seen)
    case Returned(completed) =>
      w.running == {} && (completed ==> forall id | id in w.store.rows :: w.store.rows[id].status == Done)
    case _ => true
  }

  ghost predicate AllFed(w: World) {
    forall g | g in w.workers :: Fed(w.store, w.workers[g])
  }

  ghost predicate Inv(w: World) {
    StoreInv(w.store) && Accounted(w) && Alone(w) && AllFed(w) && PcInv(w)
  }

  lemma FedGrows(s: Store, t: Store, p: Worker)
    requires Grows(s, t) && Fed(s, p)
    ensures Fed(t, p)
  {
    hide RowGrows;
    assert RowGrows(s.rows[p.step], t.rows[p.step]);
    DoneDepsStay(s, t, s.rows[p.step].deps);
    SameShape(s, t, p.step);
    forall d | d in p.inputs
      ensures d in t.rows && t.rows[d].status == Done && p.inputs[d] == t.rows[d].result
              && t.rows[d].kind == s.rows[d].kind
    {
      SameShape(s, t, d);
    }
  }

  lemma SameShape(s: Store, t: Store, id: StepId)
    requires Grows(s, t) && id in s.rows
    ensures id in t.rows && t.rows[id].kind == s.rows[id].kind && t.rows[id].deps == s.rows[id].deps
    ensures s.rows[id].status == Done ==> t.rows[id] == s.rows[id]
  {
    assert RowGrows(s.rows[id], t.rows[id]);
  }

  /** The store grows; the executor's own state stays as it is. */
  lemma StoreStepKeeps(w: World, t: Store, nextRun: RunId)
    requires Inv(w) && Grows(w.store, t) && StoreInv(t) && nextRun >= w.nextRun
    ensures Inv(w.(store := t, nextRun := nextRun))
  {
    hide StoreInv, Fed, RowGrows, DepsDone;
    var v := w.(store := t, nextRun := nextRun);
    assert Accounted(v) by { hide Alone, AllFed, PcInv; }
    assert Alone(v) by {
      hide Accounted, AllFed, PcInv;
      forall id | id in v.running ensures t.rows[id].kind == w.store.rows[id].kind {
        SameShape(w.store, t, id);
      }
    }
    assert AllFed(v) by {
      forall g | g in v.workers ensures Fed(t, v.workers[g]) {
        FedGrows(w.store, t, v.workers[g]);
      }
    }
    PcGrows(w, v);
  }

  lemma CurrentGrows(s: Store, t: Store, seen: map<StepId, Row>)
    requires Current(s, seen) && Grows(s, t)
    ensures Current(t, seen)
  {
    forall id | id in seen ensures RowGrows(seen[id], t.rows[id]) {
      assert RowGrows(seen[id], s.rows[id]) && RowGrows(s.rows[id], t.rows[id]);
    }
  }

  lemma PcGrows(w: World, v: World)
    requires PcInv(w) && Grows(w.store, v.store) && v.pc == w.pc && v.running == w.running && v.stopped == w.stopped
    ensures PcInv(v)
  {
    hide RowGrows;
    match w.pc {
      case Scan(_, seen) => CurrentGrows(w.store, v.store, seen);
      case Returned(completed) =>
        forall id | id in w.store.rows ensures w.store.rows[id].status == Done ==> v.store.rows[id].status == Done {
          SameShape(w.store, v.store, id);
        }
      case _ =>
    }
  }

  lemma InputsAreConfirmed(s: Store, seen: map<StepId, Row>, id: StepId)
    requires Current(s, seen) && id in seen && Ready(seen, seen[id])
    ensures Fed(s, Worker(id, Inputs(seen, seen[id]), None))
  {
    assert RowGrows(seen[id], s.rows[id]);
    var p := Worker(id, Inputs(seen, seen[id]), None);
    forall d | d in p.inputs
      ensures d in s.rows && s.rows[d].status == Done && p.inputs[d] == s.rows[d].result
              && s.rows[d].kind == seen[d].kind
    {
      assert RowGrows(seen[d], s.rows[d]);
    }
    forall d | d in s.rows[id].deps ensures d in p.inputs && d in s.rows && s.rows[d].status == Done {
      assert RowGrows(seen[d], s.rows[d]);
    }
  }

  lemma LaunchKeeps(w: World, id: StepId, seen: map<StepId, Row>, i: nat, now: Time)
    requires Inv(w) && w.pc == Scan(i, seen) && Eligible(w, id, seen, now) && !w.exclusive
             && |w.running| < w.parallelReads
    requires Started(w, ClaimTaskStep(id, w.nextRun, now))
    ensures Inv(Launched(w, id, seen, i, now))
  {
    hide StoreInv, Fed, RowGrows, DepsDone, TrimSpace, Unopposed;
    var op := ClaimTaskStep(id, w.nextRun, now);
    UpdateKeeps(w.store, op);
    var v := Launched(w, id, seen, i, now);
    assert seen[id].kind == w.store.rows[id].kind by {
      assert RowGrows(seen[id], w.store.rows[id]);
      RowShape(seen[id], w.store.rows[id]);
    }
    assert Accounted(v) by { hide Alone, AllFed, PcInv, Update, Allowed; LaunchAccounted(w, id, seen, i, now); }
    assert Alone(v) by {
      forall k | k in v.running
        ensures k in v.store.rows && (k in w.store.rows ==> v.store.rows[k].kind == w.store.rows[k].kind)
      {
        assert k in w.store.rows;
        SameShape(w.store, v.store, k);
      }
    }
    InputsAreConfirmed(w.store, seen, id);
    assert AllFed(v) by {
      forall g | g in v.workers ensures Fed(v.store, v.workers[g]) {
        FedGrows(w.store, v.store, v.workers[g]);
      }
    }
    CurrentGrows(w.store, v.store, seen);
  }

  lemma RowShape(a: Row, b: Row)
    requires RowGrows(a, b)
    ensures a.kind == b.kind && a.deps == b.deps
  {
  }

  lemma LaunchAccounted(w: World, id: StepId, seen: map<StepId, Row>, i: nat, now: Time)
    requires Accounted(w) && id !in w.running && id in seen && id in w.store.rows
    ensures Accounted(Launched(w, id, seen, i, now))
  {
    hide Update;
    var v := Launched(w, id, seen, i, now);
    assert v.workers[w.nextRun].step == id;
    forall k | k in v.running ensures Reported(v.channel, k) || Worked(v.workers, k) {
      if k != id && !Reported(w.channel, k) {
        var g :| g in w.workers && w.workers[g].step == k;
        assert g in v.workers && v.workers[g].step == k;
      }
    }
  }

  lemma ExamineKeeps(w: World, now: Time, expired: bool, claimFails: bool)
    requires Inv(w) && w.pc.Scan?
    ensures Inv(Examined(w, w.pc.i, w.pc.seen, now, expired, claimFails))
  {
    hide Ready, Started, StoreInv, Accounted, Alone, AllFed, Current;
    var i, seen := w.pc.i, w.pc.seen;
    if i < |w.store.plan| && !w.exclusive && |w.running| < w.parallelReads {
      var id := w.store.plan[i];
      if id in seen && Eligible(w, id, seen, now) && !((expired && seen[id].kind != Finalize) || claimFails)
        && Started(w, ClaimTaskStep(id, w.nextRun, now)) {
        LaunchKeeps(w, id, seen, i, now);
      } else {
        MoveKeeps(w, Examined(w, i, seen, now, expired, claimFails));
      }
    } else {
      MoveKeeps(w, Examined(w, i, seen, now, expired, claimFails));
    }
  }

  /** Only the control state changes. */
  lemma MoveKeeps(w: World, v: World)
    requires Inv(w) && v == w.(pc := v.pc, stopped := v.stopped) && PcInv(v)
    ensures Inv(v)
  {
    hide StoreInv, PcInv;
  }

  lemma ReceiveKeeps(w: World, fatal: bool)
    requires Inv(w) && w.channel != []
    ensures Inv(Received(w, fatal))
  {
    hide StoreInv, Fed, Alone;
    ReceiveAccounted(w, fatal);
    ReceiveAlone(w, fatal);
  }

  lemma ReceiveAlone(w: World, fatal: bool)
    requires Alone(w) && w.channel != [] && w.channel[0].id in w.running
    ensures Alone(Received(w, fatal))
  {
    var e := w.channel[0];
    var rest := w.running - {e.id};
    assert w.running == rest + {e.id} || w.running == rest;
    forall id | id in rest ensures w.store.rows[id].kind == Read {
      assert id in w.running && id != e.id;
    }
  }

  lemma ReceiveAccounted(w: World, fatal: bool)
    requires Accounted(w) && w.channel != []
    ensures Accounted(Received(w, fatal))
  {
    var v := Received(w, fatal);
    var e := w.channel[0];
    assert Reported(w.channel, e.id);
    forall g | g in v.workers ensures v.workers[g].step in v.running && !Reported(v.channel, v.workers[g].step) {
      ReportedTail(w.channel, v.workers[g].step);
    }
    forall i | 0 <= i < |v.channel| ensures v.channel[i].id in v.running {
      assert v.channel[i] == w.channel[i + 1] && w.channel[0].id != w.channel[i + 1].id;
    }
    forall k | k in v.running ensures Reported(v.channel, k) || Worked(v.workers, k) {
      if Reported(w.channel, k) {
        var i :| 0 <= i < |w.channel| && w.channel[i].id == k;
        assert i > 0 && v.channel[i - 1].id == k;
      }
    }
  }

  lemma AnswerKeeps(w: World, run: RunId, answer: Answer)
    requires Inv(w) && run in w.workers
    ensures Inv(Answered(w, run, answer))
  {
    hide StoreInv, Fed, Accounted;
    var v := Answered(w, run, answer);
    AnswerAccounted(w, run, answer);
    assert AllFed(v) by {
      forall g | g in v.workers ensures Fed(v.store, v.workers[g]) {
        AnswerFed(w.store, w.workers[g], v.workers[g].answer);
      }
    }
  }

  lemma AnswerFed(s: Store, p: Worker, answer: Option<Answer>)
    requires Fed(s, p)
    ensures Fed(s, p.(answer := answer))
  {
  }

  lemma AnswerAccounted(w: World, run: RunId, answer: Answer)
    requires Accounted(w) && run in w.workers
    ensures Accounted(Answered(w, run, answer))
  {
    var v := Answered(w, run, answer);
    forall k | k in v.running ensures Reported(v.channel, k) || Worked(v.workers, k) {
      if !Reported(w.channel, k) {
        var g :| g in w.workers && w.workers[g].step == k;
        assert g in v.workers && v.workers[g].step == k;
      }
    }
  }

  lemma SendKeeps(w: World, run: RunId)
    requires Inv(w) && run in w.workers && w.workers[run].answer.Some?
    ensures Inv(Apply(w, Send(run)))
  {
    SendAccounted(w, run);
    hide StoreInv, Accounted, Fed, Update, Allowed, Examined, Loaded, Received, OwnWrite, Foreign;
  }

  lemma SendAccounted(w: World, run: RunId)
    requires Accounted(w) && run in w.workers && w.workers[run].answer.Some?
    ensures Accounted(Apply(w, Send(run)))
  {
    hide StoreInv, Fed, Update, Allowed, Examined, Loaded, Received, OwnWrite, Foreign, Alone, AllFed, PcInv;
    var v := Apply(w, Send(run));
    assert v.channel[|w.channel|].id == w.workers[run].step;
    SendDistinct(w, run);
    SendCovers(w, run);
    forall g | g in v.workers ensures !Reported(v.channel, v.workers[g].step) {
      ReportedMore(w.channel, v.channel[|w.channel|], v.workers[g].step);
    }
    hide Reported, Worked;
  }

  lemma SendDistinct(w: World, run: RunId)
    requires Accounted(w) && run in w.workers && w.workers[run].answer.Some?
    ensures var c := Apply(w, Send(run)).channel;
            (forall i, k | 0 <= i < k < |c| :: c[i].id != c[k].id) && forall i | 0 <= i < |c| :: c[i].id in w.running
  {
    hide StoreInv, Fed, Update, Allowed, Examined, Loaded, Received, OwnWrite, Foreign, Alone, AllFed, PcInv, Worked;
    var c := Apply(w, Send(run)).channel;
    forall i, k | 0 <= i < k < |c| ensures c[i].id != c[k].id {
      assert c[i] == w.channel[i];
    }
  }

  lemma SendCovers(w: World, run: RunId)
    requires Accounted(w) && run in w.workers && w.workers[run].answer.Some?
    ensures var v := Apply(w, Send(run)); forall k | k in v.running :: Reported(v.channel, k) || Worked(v.workers, k)
  {
    hide StoreInv, Fed, Update, Allowed, Examined, Loaded, Received, OwnWrite, Foreign, Alone, AllFed, PcInv;
    var v := Apply(w, Send(run));
    assert v.channel[|w.channel|].id == w.workers[run].step;
    forall k | k in v.running ensures Reported(v.channel, k) || Worked(v.workers, k) {
      if Reported(w.channel, k) {
        var i :| 0 <= i < |w.channel| && w.channel[i].id == k;
        assert v.channel[i].id == k;
      } else {
        var g :| g in w.workers && w.workers[g].step == k;
        assert g == run || g in v.workers;
      }
    }
  }

  lemma StepKeeps(w: World, s: Step)
    requires Inv(w)
    ensures Inv(Apply(w, s)) && Grows(w.store, Apply(w, s).store)
  {
    hide StoreInv, Accounted, Alone, AllFed, Examined, Received, Answered, OwnWrite, Foreign, Update, RowGrows,
         Allowed;
    GrowsReflexive(w.store);
    match s {
      case Begin(canceled) =>
        if w.pc.Top? {
          CurrentReflexive(w.store);
          MoveKeeps(w, Apply(w, s));
        }
      case Examine(now, expired, claimFails) =>
        if w.pc.Scan? {
          ExamineKeeps(w, now, expired, claimFails);
          ExamineGrows(w, w.pc.i, w.pc.seen, now, expired, claimFails);
        }
      case Receive(fatal) => if w.pc.Wait? && w.channel != [] { ReceiveKeeps(w, fatal); ReceiveStore(w, fatal); }
      case Wake => if Apply(w, s) != w { MoveKeeps(w, Apply(w, s)); }
      case Leave => if Apply(w, s) != w { MoveKeeps(w, Apply(w, s)); }
      case Work(run, op, answer) =>
        if OwnWrite(w, run, op, answer) {
          assert run in w.workers && op.id in w.store.rows && Allowed(w.store, op) by {
            OwnWriteFacts(w, run, op, answer);
          }
          AnswerKeeps(w, run, answer);
          AnswerStore(w, run, answer);
          var v := Answered(w, run, answer);
          UpdateKeeps(w.store, op);
          StoreStepKeeps(v, Update(w.store, op), v.nextRun);
        }
      case Quit(run) => if Busy(w, run) { AnswerKeeps(w, run, Broken); AnswerStore(w, run, Broken); }
      case Send(run) => if run in w.workers && w.workers[run].answer.Some? { SendKeeps(w, run); }
      case Elsewhere(op) =>
        if Foreign(w, op) {
          assert op.id in w.store.rows && Allowed(w.store, op) by { ForeignFacts(w, op); }
          UpdateKeeps(w.store, op);
          StoreStepKeeps(w, Update(w.store, op), if op.ClaimTaskStep? then w.nextRun + 1 else w.nextRun);
        }
    }
  }

  lemma OwnWriteFacts(w: World, run: RunId, op: Write, answer: Answer)
    requires OwnWrite(w, run, op, answer)
    ensures run in w.workers && op.id in w.store.rows && Allowed(w.store, op)
  {
  }

  lemma ForeignFacts(w: World, op: Write)
    requires Foreign(w, op)
    ensures op.id in w.store.rows && Allowed(w.store, op)
  {
  }

  lemma AnswerStore(w: World, run: RunId, answer: Answer)
    requires run in w.workers
    ensures Answered(w, run, answer).store == w.store && Answered(w, run, answer).nextRun == w.nextRun
  {
  }

  lemma ReceiveStore(w: World, fatal: bool)
    requires w.channel != []
    ensures Received(w, fatal).store == w.store
  {
  }

  lemma ExamineGrows(w: World, i: nat, seen: map<StepId, Row>, now: Time, expired: bool, claimFails: bool)
    ensures Grows(w.store, Examined(w, i, seen, now, expired, claimFails).store)
  {
    hide RowGrows, Update, Allowed;
    GrowsReflexive(w.store);
    if i < |w.store.plan| && Started(w, ClaimTaskStep(w.store.plan[i], w.nextRun, now)) {
      UpdateGrows(w.store, ClaimTaskStep(w.store.plan[i], w.nextRun, now));
    }
  }

  lemma GrowsReflexive(s: Store)
    ensures Grows(s, s)
  {
  }

  lemma CurrentReflexive(s: Store)
    ensures Current(s, s.rows)
  {
  }

  lemma InitInv(w: World)
    requires Init(w)
    ensures Inv(w)
  {
  }

  lemma {:induction false} RunKeeps(w: World, steps: seq<Step>)
    requires Inv(w)
    ensures Inv(Run(w, steps)) && Grows(w.store, Run(w, steps).store)
    decreases |steps|
  {
    hide Apply, Inv, Grows;
    if steps == [] {
      GrowsReflexive(w.store);
    } else {
      var v := Apply(w, steps[0]);
      StepKeeps(w, steps[0]);
      RunKeeps(v, steps[1..]);
      GrowsTransitive(w.store, v.store, Run(v, steps[1..]).store);
    }
  }

  // ---------- safety in every reachable state ----------

  function StepsOf(workers: map<RunId, Worker>, runs: set<RunId>): set<StepId>
    requires runs <= workers.Keys
  {
    set g | g in runs :: workers[g].step
  }

  lemma StepsOfOneMore(workers: map<RunId, Worker>, runs: set<RunId>, g: RunId)
    requires g in runs && runs <= workers.Keys
    requires forall h, i | h in workers && i in workers && workers[h].step == workers[i].step :: h == i
    ensures var fewer := StepsOf(workers, runs - {g});
            StepsOf(workers, runs) == fewer + {workers[g].step} && workers[g].step !in fewer
  {
    assert runs == (runs - {g}) + {g};
  }

  lemma {:induction false} StepsOfWorkers(workers: map<RunId, Worker>, runs: set<RunId>)
    requires runs <= workers.Keys
    requires forall g, h | g in workers && h in workers && workers[g].step == workers[h].step :: g == h
    ensures |StepsOf(workers, runs)| == |runs|
  {
    if runs != {} {
      var g :| g in runs;
      StepsOfWorkers(workers, runs - {g});
      StepsOfOneMore(workers, runs, g);
      hide StepsOf;
    } else {
      assert StepsOf(workers, runs) == {};
    }
  }

  function ReportedIds(channel: seq<Event>): set<StepId> {
    set i | 0 <= i < |channel| :: channel[i].id
  }

  lemma {:induction false} IdsOfReports(channel: seq<Event>)
    requires forall i, k | 0 <= i < k < |channel| :: channel[i].id != channel[k].id
    ensures |ReportedIds(channel)| == |channel|
  {
    if channel != [] {
      var n := |channel| - 1;
      var front := channel[..n];
      IdsOfReports(front);
      assert forall i | 0 <= i < n :: channel[i] == front[i];
      assert ReportedIds(channel) == ReportedIds(front) + {channel[n].id};
    }
  }

  lemma SetSize<T>(a: set<T>, b: set<T>)
    requires a <= b
    ensures |a| <= |b|
  {
    assert b == a + (b - a);
  }

  lemma EveryReportHasRoom(w: World)
    requires Inv(w)
    ensures |w.workers| + |w.channel| <= |w.running| <= w.parallelReads
  {
    hide StoreInv, AllFed, PcInv, StepsOf, ReportedIds;
    StepsOfWorkers(w.workers, w.workers.Keys);
    IdsOfReports(w.channel);
    var a := StepsOf(w.workers, w.workers.Keys);
    var b := ReportedIds(w.channel);
    HolderSets(w);
    assert |a + b| == |a| + |b|;
    SetSize(a + b, w.running);
  }

  lemma HolderSets(w: World)
    requires Accounted(w)
    ensures StepsOf(w.workers, w.workers.Keys) * ReportedIds(w.channel) == {}
    ensures StepsOf(w.workers, w.workers.Keys) + ReportedIds(w.channel) <= w.running
  {
    forall x | x in ReportedIds(w.channel) ensures x !in StepsOf(w.workers, w.workers.Keys) && x in w.running {
      var i :| 0 <= i < |w.channel| && w.channel[i].id == x;
      assert Reported(w.channel, x);
    }
  }

  /** At most ParallelReads workers; a step that is not a read works alone; no
      step has two workers; and the channel, of capacity ParallelReads, has room
      for the report of every live worker, so no worker ever blocks on it. */
  lemma ExecutionIsSafe(w0: World, steps: seq<Step>)
    requires Init(w0)
    ensures var w := Run(w0, steps);
            && |w.workers| + |w.channel| <= w.parallelReads
            && (forall g, h | g in w.workers && h in w.workers && w.workers[g].step == w.workers[h].step :: g == h)
            && (forall g | g in w.workers :: w.workers[g].step in w.store.rows)
            && (forall g | g in w.workers && w.store.rows[w.workers[g].step].kind != Read ::
                  w.workers.Keys == {g} && w.channel == [])
  {
    InitInv(w0);
    RunKeeps(w0, steps);
    var w := Run(w0, steps);
    EveryReportHasRoom(w);
    hide StoreInv, AllFed, PcInv;
    forall g | g in w.workers && w.store.rows[w.workers[g].step].kind != Read
      ensures w.workers.Keys == {g} && w.channel == []
    {
      AloneMeansAlone(w, g);
    }
  }

  lemma AloneMeansAlone(w: World, g: RunId)
    requires Accounted(w) && Alone(w) && g in w.workers && w.store.rows[w.workers[g].step].kind != Read
    requires |w.workers| + |w.channel| <= |w.running|
    ensures w.workers.Keys == {g} && w.channel == []
  {
    assert w.running == {w.workers[g].step};
    forall h | h in w.workers ensures h == g {
      assert w.workers[h].step in w.running;
    }
    assert w.workers.Keys == {g};
  }

  /** Every worker was launched with all dependencies done, and holds the stored
      results: of exactly its dependencies for an action, of its dependencies and
      otherwise only confirmed reads for the other kinds. */
  lemma StartedStepsAreReady(w0: World, steps: seq<Step>, g: RunId)
    requires Init(w0) && g in Run(w0, steps).workers
    ensures var w := Run(w0, steps);
            var p := w.workers[g];
            && p.step in w.store.rows && DepsDone(w.store.rows, w.store.rows[p.step].deps)
            && (forall d | d in w.store.rows[p.step].deps :: d in p.inputs && p.inputs[d] == w.store.rows[d].result)
            && (forall d | d in p.inputs && d !in w.store.rows[p.step].deps ::
                  w.store.rows[p.step].kind != Action && d in w.store.rows && w.store.rows[d].kind == Read
                  && w.store.rows[d].status == Done && p.inputs[d] == w.store.rows[d].result)
  {
    InitInv(w0);
    RunKeeps(w0, steps);
    var w := Run(w0, steps);
    assert Fed(w.store, w.workers[g]);
  }

  lemma {:induction false} RunOneMore(w: World, steps: seq<Step>, n: nat)
    requires n < |steps|
    ensures Run(w, steps[..n + 1]) == Apply(Run(w, steps[..n]), steps[n])
    decreases n
  {
    hide Apply;
    var v := Apply(w, steps[0]);
    assert steps[..n + 1][1..] == steps[1..][..n];
    if n > 0 {
      assert steps[..n][1..] == steps[1..][..n - 1];
      RunOneMore(v, steps[1..], n - 1);
    }
  }

  /** After n steps the dispatcher loaded the store, and up to the m-th it has been
      scanning what it loaded. */
  ghost predicate ScansSince(w0: World, steps: seq<Step>, n: nat, m: nat) {
    && n < m <= |steps| && Run(w0, steps[..n]).pc.Top? && steps[n].Begin?
    && forall k | n < k <= m :: Run(w0, steps[..k]).pc.Scan?
  }

  lemma ExaminedGoesOn(w: World, i: nat, seen: map<StepId, Row>, now: Time, expired: bool, claimFails: bool)
    ensures var v := Examined(w, i, seen, now, expired, claimFails); v.pc == Wait || v.pc == Scan(i + 1, seen)
  {
    hide Update, Allowed, Ready, Inputs, StartsOf;
  }

  lemma ScanStep(w: World, s: Step)
    requires Apply(w, s).pc.Scan?
    ensures var seen := Apply(w, s).pc.seen;
            (w.pc.Scan? && seen == w.pc.seen) || (w.pc.Top? && s.Begin? && seen == w.store.rows)
  {
    hide Update, Allowed, Foreign, OwnWrite, Examined, Busy;
    if s.Examine? && w.pc.Scan? {
      ExaminedGoesOn(w, w.pc.i, w.pc.seen, s.now, s.expired, s.claimFails);
    }
  }

  lemma {:induction false} ScanStart(w0: World, steps: seq<Step>, m: nat) returns (n: nat)
    requires m <= |steps| && w0.pc.Top? && Run(w0, steps[..m]).pc.Scan?
    ensures ScansSince(w0, steps, n, m) && Run(w0, steps[..m]).pc.seen == Run(w0, steps[..n]).store.rows
    decreases m
  {
    hide Apply;
    if m > 0 {
      RunOneMore(w0, steps, m - 1);
      ScanStep(Run(w0, steps[..m - 1]), steps[m - 1]);
      if Run(w0, steps[..m - 1]).pc.Scan? {
        n := ScanStart(w0, steps, m - 1);
      } else {
        n := m - 1;
      }
    }
  }

  /** One iteration of the scan launches a worker exactly if there is room, the step is
      pending, is not running already, waits for no dependency or time, would, unless a
      read, run alone, the research budget is not spent on it, and the store admits the claim. */
  lemma LaunchesExactlyWhen(w: World, now: Time, expired: bool, claimFails: bool)
    requires w.pc.Scan? && StoreInv(w.store) && w.nextRun !in w.workers
    ensures var v := Apply(w, Examine(now, expired, claimFails));
            v.workers != w.workers
            <==> w.pc.i < |w.store.plan| && !w.exclusive && |w.running| < w.parallelReads && !claimFails
                 && var id := w.store.plan[w.pc.i];
                    && id in w.pc.seen && id !in w.running && w.pc.seen[id].status == Pending
                    && (w.pc.seen[id].kind == Read || w.running == {}) && w.pc.seen[id].nextAt <= now
                    && (forall d | d in w.pc.seen[id].deps :: d in w.pc.seen && w.pc.seen[d].status == Done)
                    && (expired ==> w.pc.seen[id].kind == Finalize)
                    && w.store.rows[id].status == Pending && w.store.rows[id].nextAt <= now
                    && w.store.rows[id].attempts < w.store.rows[id].maxAttempts
                    && (forall d | d in w.store.rows[id].deps ::
                          d in w.store.rows && w.store.rows[d].status == Done)
                    && (forall p | p in w.store.rows && w.store.rows[p].status in {Running, Reconciliation} ::
                          w.store.rows[id].kind == Read && w.store.rows[p].kind == Read)
  {
    hide Topological, RowInv, Exclusive, Update;
  }

  lemma ExaminedLaunches(w: World, i: nat, seen: map<StepId, Row>, now: Time, expired: bool, claimFails: bool)
    ensures var v := Examined(w, i, seen, now, expired, claimFails);
            v.workers != w.workers ==>
              i < |w.store.plan| && w.store.plan[i] in seen && w.store.plan[i] in w.store.rows
              && v == Launched(w, w.store.plan[i], seen, i, now)
  {
    hide Launched, Ready, Unopposed, DepsDone;
  }

  /** Launched, it is recorded as running, alone if it is not a read, and claimed in the store. */
  lemma LaunchIsRecorded(w: World, now: Time, expired: bool, claimFails: bool)
    requires w.pc.Scan? && w.nextRun !in w.workers
    ensures var v := Apply(w, Examine(now, expired, claimFails));
            v.workers != w.workers ==>
              w.pc.i < |w.store.plan| &&
              var id := w.store.plan[w.pc.i];
              && id in w.pc.seen && id in v.store.rows
              && v.workers.Keys == w.workers.Keys + {w.nextRun} && v.workers[w.nextRun].step == id
              && v.running == w.running + {id} && v.exclusive == (w.pc.seen[id].kind != Read)
              && v.store.rows[id].status == Running && v.store.rows[id].run == w.nextRun
  {
    hide Examined, Inputs, StartsOf;
    ExaminedLaunches(w, w.pc.i, w.pc.seen, now, expired, claimFails);
  }

  lemma ExaminedPassesOn(w: World, i: nat, seen: map<StepId, Row>, now: Time, expired: bool, claimFails: bool, g: RunId)
    requires g in Examined(w, i, seen, now, expired, claimFails).workers && forall h | h in w.workers :: h < w.nextRun
    ensures var p := Examined(w, i, seen, now, expired, claimFails).workers[g];
            if g in w.workers then p == w.workers[g]
            else p.step in seen && p.inputs == Inputs(seen, seen[p.step])
  {
    hide Update, Allowed, Inputs, Ready, StartsOf;
  }

  lemma LaunchIsSeen(w: World, s: Step, g: RunId)
    requires g in Apply(w, s).workers && forall h | h in w.workers :: h < w.nextRun
    ensures var p := Apply(w, s).workers[g];
            if g in w.workers then p.step == w.workers[g].step && p.inputs == w.workers[g].inputs
            else w.pc.Scan? && p.step in w.pc.seen && p.inputs == Inputs(w.pc.seen, w.pc.seen[p.step])
  {
    hide Update, Allowed, Foreign, Inputs, Examined;
    if s.Examine? && w.pc.Scan? {
      ExaminedPassesOn(w, w.pc.i, w.pc.seen, s.now, s.expired, s.claimFails, g);
    }
  }

  /** What a worker knows is what its scan had loaded: with n the steps up to that load and
      m those up to the launch, a worker of a step that is not an action holds the result of
      every read done at that load, besides those of its dependencies, and nothing else; an
      action holds exactly its dependencies' results. */
  lemma {:induction false} EveryConfirmedReadIsPassedOn(w0: World, steps: seq<Step>, g: RunId, k: nat)
    returns (n: nat, m: nat)
    requires Init(w0) && k <= |steps| && g in Run(w0, steps[..k]).workers
    ensures m < k && ScansSince(w0, steps, n, m)
    ensures g !in Run(w0, steps[..m]).workers && g in Run(w0, steps[..m + 1]).workers
    ensures var p := Run(w0, steps[..k]).workers[g];
            var loaded := Run(w0, steps[..n]).store.rows;
            && p.step in loaded
            && (forall id | id in loaded ::
                  id in p.inputs
                  <==> id in loaded[p.step].deps
                       || (loaded[p.step].kind != Action && loaded[id].kind == Read && loaded[id].status == Done))
            && (forall id | id in p.inputs :: id in loaded && p.inputs[id] == loaded[id].result)
    decreases k
  {
    hide Apply, Inputs, Init;
    assert k > 0 by { NobodyAtFirst(w0, steps); }
    var w := Run(w0, steps[..k - 1]);
    RunOneMore(w0, steps, k - 1);
    RunsBelowNext(w0, steps[..k - 1]);
    LaunchIsSeen(w, steps[k - 1], g);
    if g in w.workers {
      n, m := EveryConfirmedReadIsPassedOn(w0, steps, g, k - 1);
    } else {
      assert w0.pc.Top? by { NobodyAtFirst(w0, steps); }
      m := k - 1;
      n := ScanStart(w0, steps, m);
      InputsOf(w.pc.seen, w.pc.seen[Run(w0, steps[..k]).workers[g].step]);
    }
  }

  lemma NobodyAtFirst(w0: World, steps: seq<Step>)
    requires Init(w0)
    ensures Run(w0, steps[..0]).workers == map[] && w0.pc.Top?
  {
  }

  lemma RunsBelowNext(w0: World, steps: seq<Step>)
    requires Init(w0)
    ensures forall h | h in Run(w0, steps).workers :: h < Run(w0, steps).nextRun
  {
    hide StoreInv, Alone, AllFed, PcInv, Apply;
    InitInv(w0);
    RunKeeps(w0, steps);
  }

  /** When the executor stops launching: exactly on a cancellation seen at the top, a spent
      research budget or a failed claim for a step it would launch, or a report that a step
      failed, or was deferred only because of one of these. */
  lemma StopsExactlyWhen(w: World, s: Step)
    ensures w.stopped ==> Apply(w, s).stopped
    ensures !w.stopped ==>
              (Apply(w, s).stopped
               <==> match s
                    case Begin(canceled) => w.pc.Top? && canceled
                    case Examine(now, expired, claimFails) =>
                      w.pc.Scan? && w.pc.i < |w.store.plan| && !w.exclusive && |w.running| < w.parallelReads
                      && var id := w.store.plan[w.pc.i];
                         && Eligible(w, id, w.pc.seen, now)
                         && (claimFails || (expired && w.pc.seen[id].kind != Finalize))
                    case Receive(fatal) =>
                      w.pc.Wait? && w.channel != []
                      && (w.channel[0].answer == Broken || (w.channel[0].answer == Waiting && fatal))
                    case _ => false)
  {
    hide Update, Allowed, Eligible, Foreign, OwnWrite, Inputs, StartsOf;
  }

  /** When it returns: nil at the top, exactly with every step done and nothing running;
      an error exactly once it waits with nothing running. */
  lemma ReturnsExactlyWhen(w: World, s: Step)
    requires !w.pc.Returned?
    ensures Apply(w, s).pc == Returned(true)
            <==> s.Begin? && w.pc.Top? && !w.stopped && !s.canceled && w.running == {}
                 && forall id | id in w.store.rows :: w.store.rows[id].status == Done
    ensures Apply(w, s).pc == Returned(false) <==> s.Leave? && w.pc.Wait? && w.running == {}
  {
    hide Update, Allowed, Foreign, OwnWrite, Examined;
    if s.Examine? && w.pc.Scan? {
      ExaminedGoesOn(w, w.pc.i, w.pc.seen, s.now, s.expired, s.claimFails);
    }
  }

  /** Across all processes sharing the store: two steps running or awaiting
      reconciliation are both reads. So while an effect runs or is unconfirmed nothing
      else runs. */
  lemma EffectsAreExclusive(w0: World, steps: seq<Step>, a: StepId, b: StepId)
    requires Init(w0)
    ensures var rows := Run(w0, steps).store.rows;
            && (a in rows && b in rows && a != b && Unsettled(rows[a]) && Unsettled(rows[b]) ==>
                  rows[a].kind == Read && rows[b].kind == Read)
            && (a in rows && Unsettled(rows[a]) && rows[a].kind != Read ==>
                  forall other | other in rows && other != a :: rows[other].status != Running)
  {
    InitInv(w0);
    RunKeeps(w0, steps);
    hide Topological, RowInv;
  }

  /** Run returns only with every worker gone and every report read; it returns
      success only with every step done. */
  lemma ReturnsDrained(w0: World, steps: seq<Step>)
    requires Init(w0) && Run(w0, steps).pc.Returned?
    ensures var w := Run(w0, steps);
            && w.workers == map[] && w.channel == []
            && (w.pc.completed ==>
                  forall id | id in w.store.rows :: w.store.rows[id].status == Done && id in w.store.order)
  {
    InitInv(w0);
    RunKeeps(w0, steps);
    var w := Run(w0, steps);
    EveryReportHasRoom(w);
    assert w.workers.Keys == {};
    forall id | id in w.store.rows && w.pc.completed ensures w.store.rows[id].status == Done && id in w.store.order {
      assert RowInv(w.store, id);
    }
  }

  /** The order of completions is a topological order of the dependency graph
      restricted to the steps done so far; with all steps done it is one of the
      whole plan. */
  lemma CompletionsAreTopological(w0: World, steps: seq<Step>, i: nat, d: StepId)
    requires Init(w0) && i < |Run(w0, steps).store.order|
    ensures var s := Run(w0, steps).store;
            && s.order[i] in s.rows && s.rows[s.order[i]].status == Done && Distinct(s.order)
            && (d in s.rows[s.order[i]].deps ==> exists k :: 0 <= k < i && s.order[k] == d)
            && (d in s.rows && s.rows[d].status == Done ==> d in s.order)
  {
    InitInv(w0);
    RunKeeps(w0, steps);
    var s := Run(w0, steps).store;
    assert s.order[i] in s.order && RowInv(s, s.order[i]);
    if d in s.rows[s.order[i]].deps {
      assert d in s.order[..i];
    }
    assert d in s.rows ==> RowInv(s, d);
  }

  /** While reports are awaited there is always one to read or a live worker. */
  lemma DrainingNeverHangs(w0: World, steps: seq<Step>)
    requires Init(w0) && Run(w0, steps).running != {}
    ensures Run(w0, steps).channel != [] || exists g :: g in Run(w0, steps).workers
  {
    InitInv(w0);
    RunKeeps(w0, steps);
    var w := Run(w0, steps);
    var id :| id in w.running;
    assert Reported(w.channel, id) || Worked(w.workers, id);
  }

  // ---------- bounded work ----------

  function AttemptsOf(s: Store, id: StepId): nat {
    if id in s.rows then s.rows[id].attempts else 0
  }

  lemma StepIsPaid(w: World, s: Step, id: StepId)
    requires Inv(w)
    ensures var v := Apply(w, s);
            && StartsOf(w, id) <= StartsOf(v, id)
            && StartsOf(v, id) + AttemptsOf(w.store, id) <= StartsOf(w, id) + AttemptsOf(v.store, id)
    ensures w.stopped ==> Apply(w, s).stopped && StartsOf(Apply(w, s), id) == StartsOf(w, id)
  {
    StepKeeps(w, s);
    var v := Apply(w, s);
    assert AttemptsOf(w.store, id) <= AttemptsOf(v.store, id) by {
      hide Apply;
      assert id in w.store.rows ==> RowGrows(w.store.rows[id], v.store.rows[id]);
    }
    hide Inv, Grows, StartsOf, AttemptsOf;
    if s.Examine? && w.pc.Scan? {
      ExamineIsPaid(w, w.pc.i, w.pc.seen, s.now, s.expired, s.claimFails, id);
      StopsScan(w);
    } else {
      OthersLaunchNothing(w, s);
      assert StartsOf(v, id) == StartsOf(w, id) by { SameStarts(w, v, id); }
    }
  }

  lemma SameStarts(w: World, v: World, id: StepId)
    requires v.starts == w.starts
    ensures StartsOf(v, id) == StartsOf(w, id)
  {
  }

  lemma OthersLaunchNothing(w: World, s: Step)
    requires !(s.Examine? && w.pc.Scan?)
    ensures Apply(w, s).starts == w.starts && (w.stopped ==> Apply(w, s).stopped)
  {
    hide Foreign, OwnWrite, Allowed, Update, Examined;
  }

  lemma StopsScan(w: World)
    requires Inv(w) && w.pc.Scan?
    ensures !w.stopped
  {
  }

  lemma ExamineIsPaid(w: World, i: nat, seen: map<StepId, Row>, now: Time, expired: bool, claimFails: bool, id: StepId)
    ensures var v := Examined(w, i, seen, now, expired, claimFails);
            && StartsOf(w, id) <= StartsOf(v, id)
            && (StartsOf(v, id) == StartsOf(w, id)
                || (StartsOf(v, id) == StartsOf(w, id) + 1 && AttemptsOf(v.store, id) == AttemptsOf(w.store, id) + 1))
  {
    hide Ready, DepsDone, Unopposed;
  }

  /** Each launch is paid for by an attempt: over any run, no step is launched
      more often than the attempts it consumed meanwhile. */
  lemma {:induction false} LaunchesArePaid(w: World, steps: seq<Step>, id: StepId)
    requires Inv(w)
    ensures var v := Run(w, steps);
            && StartsOf(w, id) <= StartsOf(v, id)
            && StartsOf(v, id) + AttemptsOf(w.store, id) <= StartsOf(w, id) + AttemptsOf(v.store, id)
    ensures w.stopped ==> Run(w, steps).stopped && StartsOf(Run(w, steps), id) == StartsOf(w, id)
    decreases |steps|
  {
    hide Apply, Inv;
    if steps != [] {
      StepIsPaid(w, steps[0], id);
      StepKeeps(w, steps[0]);
      LaunchesArePaid(Apply(w, steps[0]), steps[1..], id);
    }
  }

  function Remaining(rows: map<StepId, Row>, plan: seq<StepId>): int {
    if plan == [] then 0 else
      var left := if plan[0] in rows then rows[plan[0]].maxAttempts - rows[plan[0]].attempts else 0;
      left + Remaining(rows, plan[1..])
  }

  function Launches(w: World, v: World, plan: seq<StepId>): int {
    if plan == [] then 0 else StartsOf(v, plan[0]) - StartsOf(w, plan[0]) + Launches(w, v, plan[1..])
  }

  lemma {:induction false} LaunchesFit(w: World, v: World, plan: seq<StepId>)
    requires forall id | id in plan :: id in w.store.rows && id in v.store.rows
               && StartsOf(v, id) + AttemptsOf(w.store, id) <= StartsOf(w, id) + v.store.rows[id].attempts
               && v.store.rows[id].attempts <= v.store.rows[id].maxAttempts == w.store.rows[id].maxAttempts
    ensures Launches(w, v, plan) <= Remaining(w.store.rows, plan)
  {
    if plan != [] {
      assert plan[0] in plan;
      LaunchesFit(w, v, plan[1..]);
    }
  }

  /** From any reachable state, however the run continues, the executions still
      to come are at most the attempts remaining over all steps. */
  lemma ExecutionsAreBounded(w0: World, before: seq<Step>, after: seq<Step>)
    requires Init(w0)
    ensures var w := Run(w0, before);
            Launches(w, Run(w, after), w.store.plan) <= Remaining(w.store.rows, w.store.plan)
  {
    InitInv(w0);
    RunKeeps(w0, before);
    var w := Run(w0, before);
    RunKeeps(w, after);
    var v := Run(w, after);
    hide Accounted, Alone, AllFed, PcInv;
    forall id | id in w.store.plan
      ensures id in w.store.rows && id in v.store.rows
              && StartsOf(v, id) + AttemptsOf(w.store, id) <= StartsOf(w, id) + v.store.rows[id].attempts
              && v.store.rows[id].attempts <= v.store.rows[id].maxAttempts == w.store.rows[id].maxAttempts
    {
      LaunchesArePaid(w, after, id);
      assert id in w.store.rows && RowGrows(w.store.rows[id], v.store.rows[id]);
      assert RowInv(v.store, id);
    }
    LaunchesFit(w, v, w.store.plan);
  }

  /** After the first failure or cancellation no further step is launched. */
  lemma StoppedLaunchesNothing(w0: World, before: seq<Step>, after: seq<Step>, id: StepId)
    requires Init(w0) && Run(w0, before).stopped
    ensures StartsOf(Run(Run(w0, before), after), id) == StartsOf(Run(w0, before), id)
  {
    InitInv(w0);
    RunKeeps(w0, before);
    LaunchesArePaid(Run(w0, before), after, id);
  }

  /** An action whose effect could not be confirmed is never executed again; it
      can only be closed with a report. */
  lemma UnconfirmedIsNotReplayed(w0: World, before: seq<Step>, after: seq<Step>, id: StepId)
    requires Init(w0)
    requires id in Run(w0, before).store.rows && Run(w0, before).store.rows[id].status == Reconciliation
    ensures var v := Run(Run(w0, before), after);
            id in v.store.rows && v.store.rows[id].status in {Reconciliation, Done}
              && StartsOf(v, id) == StartsOf(Run(w0, before), id)
  {
    InitInv(w0);
    RunKeeps(w0, before);
    var w := Run(w0, before);
    RunKeeps(w, after);
    LaunchesArePaid(w, after, id);
    assert RowGrows(w.store.rows[id], Run(w, after).store.rows[id]);
  }

  /** An action, or a finalize step with tools, that failed or was lost with its
      external effect unknown, no complete candidate saved, is never launched again. */
  lemma UnknownEffectIsNotRepeated(w0: World, before: seq<Step>, s: Step, after: seq<Step>, op: Write)
    requires Init(w0)
    requires (s.Work? && s.op == op && OwnWrite(Run(w0, before), s.run, op, s.answer))
             || (s == Elsewhere(op) && Foreign(Run(w0, before), op))
    requires (op.FailTaskStepAfter? || op.RecoverTaskStep?) && op.id in Run(w0, before).store.rows
    requires NeedsReconciliation(Run(w0, before).store.rows[op.id], op.candidate)
    ensures StartsOf(Run(Apply(Run(w0, before), s), after), op.id) == StartsOf(Run(w0, before), op.id)
  {
    var w := Run(w0, before);
    InitInv(w0);
    RunKeeps(w0, before);
    StepKeeps(w, s);
    StepIsPaid(w, s, op.id);
    var v := Apply(w, s);
    assert v.store == Update(w.store, op) && v.store.rows[op.id].status == Reconciliation && v.starts == w.starts by {
      EffectUnknown(w, s, op);
    }
    LaunchesArePaid(v, after, op.id);
    RunKeeps(v, after);
    assert RowGrows(v.store.rows[op.id], Run(v, after).store.rows[op.id]);
  }

  lemma EffectUnknown(w: World, s: Step, op: Write)
    requires (s.Work? && s.op == op && OwnWrite(w, s.run, op, s.answer)) || (s == Elsewhere(op) && Foreign(w, op))
    requires (op.FailTaskStepAfter? || op.RecoverTaskStep?) && op.id in w.store.rows
             && NeedsReconciliation(w.store.rows[op.id], op.candidate)
    ensures Apply(w, s).store == Update(w.store, op) && Update(w.store, op).rows[op.id].status == Reconciliation
            && Apply(w, s).starts == w.starts
  {
  }
}
