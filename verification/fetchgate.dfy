/** The per-URL fetch gate: a shared map of reference-counted entries, each with
    a one-place token channel. Callers run concurrently; a step is one critical
    section, one channel operation or one cancellation. */
module FetchGate {
  type Key = nat
  type EntryId = nat
  type CallerId = nat

  /** token: the token lies in the channel. */
  datatype Entry = Entry(key: Key, token: bool, refs: nat)

  /** Dropping: past its channel operation, about to decrement the count. */
  datatype Phase = Waiting | Holding | Dropping

  datatype Caller = Caller(key: Key, entry: EntryId, phase: Phase)

  /** entries is the shared map; heap holds every entry ever made, reachable or
      not; callers are those between their increment and their decrement. */
  datatype Gate = Gate(entries: map<Key, EntryId>, heap: map<EntryId, Entry>, next: EntryId,
                       callers: map<CallerId, Caller>)

  datatype Step =
    | Enter(c: CallerId, key: Key)   // the first critical section of acquire
    | Take(c: CallerId)              // receive the token
    | GiveUp(c: CallerId)            // context done while waiting
    | Release(c: CallerId)           // put the token back, the first time
    | Drop(c: CallerId)              // the second critical section

  function InPhase(g: Gate, c: CallerId, p: Phase): bool {
    c in g.callers && g.callers[c].phase == p
  }

  function Entered(g: Gate, c: CallerId, key: Key): Gate {
    var id := if key in g.entries then g.entries[key] else g.next;
    var e := if key in g.entries && id in g.heap then g.heap[id] else Entry(key, true, 0);
    Gate(g.entries[key := id], g.heap[id := e.(refs := e.refs + 1)], if key in g.entries then g.next else g.next + 1,
         g.callers[c := Caller(key, id, Waiting)])
  }

  function Moved(g: Gate, c: CallerId, token: bool, p: Phase): Gate
    requires c in g.callers && g.callers[c].entry in g.heap
  {
    var id := g.callers[c].entry;
    g.(heap := g.heap[id := g.heap[id].(token := token)], callers := g.callers[c := g.callers[c].(phase := p)])
  }

  function Dropped(g: Gate, c: CallerId): Gate
    requires c in g.callers && g.callers[c].entry in g.heap && g.heap[g.callers[c].entry].refs > 0
  {
    var id := g.callers[c].entry;
    var e := g.heap[id].(refs := g.heap[id].refs - 1);
    g.(heap := g.heap[id := e], callers := g.callers - {c},
       entries := if e.refs == 0 then g.entries - {g.callers[c].key} else g.entries)
  }

  /** One step; a step that is not possible changes nothing. */
  function Apply(g: Gate, s: Step): Gate {
    if s.Enter? then (if s.c in g.callers then g else Entered(g, s.c, s.key))
    else if s.c !in g.callers || g.callers[s.c].entry !in g.heap then g
    else
      var e := g.heap[g.callers[s.c].entry];
      match s
      case Enter(_, _) => g
      case Take(c) => if InPhase(g, c, Waiting) && e.token then Moved(g, c, false, Holding) else g
      case GiveUp(c) => if InPhase(g, c, Waiting) then Moved(g, c, e.token, Dropping) else g
      case Release(c) => if InPhase(g, c, Holding) && !e.token then Moved(g, c, true, Dropping) else g
      case Drop(c) => if InPhase(g, c, Dropping) && e.refs > 0 then Dropped(g, c) else g
  }

  function Run(g: Gate, steps: seq<Step>): Gate
    decreases |steps|
  {
    if steps == [] then g else Run(Apply(g, steps[0]), steps[1..])
  }

  const EMPTY: Gate := Gate(map[], map[], 0, map[])

  // ---------- the invariant ----------

  function UsersOf(g: Gate, id: EntryId): set<CallerId> {
    set c | c in g.callers && g.callers[c].entry == id
  }

  function HoldersOf(g: Gate, id: EntryId): set<CallerId> {
    set c | c in g.callers && g.callers[c].entry == id && g.callers[c].phase == Holding
  }

  /** Counts what it should, and has one token: in the channel or with one holder. */
  ghost predicate EntryInv(g: Gate, id: EntryId)
    requires id in g.heap
  {
    && id < g.next
    && g.heap[id].refs == |UsersOf(g, id)|
    && |HoldersOf(g, id)| + (if g.heap[id].token then 1 else 0) == 1
    && (g.heap[id].refs > 0 ==> g.heap[id].key in g.entries && g.entries[g.heap[id].key] == id)
  }

  ghost predicate CallerInv(g: Gate, c: CallerId)
    requires c in g.callers
  {
    g.callers[c].entry in g.heap && g.heap[g.callers[c].entry].key == g.callers[c].key
  }

  ghost predicate MapInv(g: Gate) {
    forall k | k in g.entries :: g.entries[k] in g.heap && g.heap[g.entries[k]].key == k
      && g.heap[g.entries[k]].refs > 0
  }

  ghost predicate Inv(g: Gate) {
    && (forall id | id in g.heap :: EntryInv(g, id))
    && (forall c | c in g.callers :: CallerInv(g, c))
    && MapInv(g)
  }

  lemma Joined(a: set<CallerId>, c: CallerId)
    requires c !in a
    ensures |a + {c}| == |a| + 1
  {
  }

  lemma EnterSets(g: Gate, c: CallerId, key: Key, id: EntryId)
    requires c !in g.callers
    ensures var v := Entered(g, c, key);
            && HoldersOf(v, id) == HoldersOf(g, id)
            && UsersOf(v, id) == if id == v.callers[c].entry then UsersOf(g, id) + {c} else UsersOf(g, id)
  {
  }

  lemma EnterKeepsEntry(g: Gate, c: CallerId, key: Key, id: EntryId)
    requires Inv(g) && c !in g.callers && id in Entered(g, c, key).heap
    ensures EntryInv(Entered(g, c, key), id)
  {
    EnterSets(g, c, key, id);
    Joined(UsersOf(g, id), c);
    if id == g.next {
      NoUsers(g, id);
    } else {
      assert EntryInv(g, id);
    }
  }

  lemma EnterKeeps(g: Gate, c: CallerId, key: Key)
    requires Inv(g) && c !in g.callers
    ensures Inv(Entered(g, c, key))
  {
    var v := Entered(g, c, key);
    hide EntryInv, UsersOf, HoldersOf;
    forall id | id in v.heap ensures EntryInv(v, id) {
      EnterKeepsEntry(g, c, key, id);
    }
    NoUsers(g, g.next);
    forall d | d in v.callers ensures CallerInv(v, d) {
      assert d != c ==> CallerInv(g, d);
    }
  }

  lemma NoUsers(g: Gate, id: EntryId)
    requires Inv(g) && id == g.next
    ensures id !in g.heap && UsersOf(g, id) == {} == HoldersOf(g, id)
  {
    assert id in g.heap ==> EntryInv(g, id);
    forall c | c in g.callers ensures g.callers[c].entry != id {
      assert CallerInv(g, c);
    }
  }

  /** A channel operation of caller c; n says how many more holders there are. */
  lemma MoveKeeps(g: Gate, c: CallerId, token: bool, p: Phase)
    requires Inv(g) && c in g.callers
    requires CallerInv(g, c)
    requires var e := g.heap[g.callers[c].entry];
             (g.callers[c].phase == Waiting && p == Holding && e.token && !token)
             || (g.callers[c].phase == Waiting && p == Dropping && e.token == token)
             || (g.callers[c].phase == Holding && p == Dropping && !e.token && token)
    ensures Inv(Moved(g, c, token, p))
  {
    var v := Moved(g, c, token, p);
    MoveKeepsMap(g, c, token, p);
    hide EntryInv, MapInv;
    forall id | id in v.heap ensures EntryInv(v, id) {
      MoveKeepsEntry(g, c, token, p, id);
    }
    forall d | d in v.callers ensures CallerInv(v, d) {
      assert CallerInv(g, d);
    }
  }

  lemma MoveKeepsMap(g: Gate, c: CallerId, token: bool, p: Phase)
    requires MapInv(g) && c in g.callers && g.callers[c].entry in g.heap
    ensures MapInv(Moved(g, c, token, p))
  {
  }

  lemma MoveSets(g: Gate, c: CallerId, token: bool, p: Phase, id: EntryId)
    requires c in g.callers && g.callers[c].entry in g.heap
    ensures var v := Moved(g, c, token, p);
            UsersOf(v, id) == UsersOf(g, id)
            && HoldersOf(v, id) == if g.callers[c].entry != id then HoldersOf(g, id)
                                   else if p == Holding then HoldersOf(g, id) + {c} else HoldersOf(g, id) - {c}
  {
  }

  lemma MoveKeepsEntry(g: Gate, c: CallerId, token: bool, p: Phase, id: EntryId)
    requires Inv(g) && c in g.callers && g.callers[c].entry in g.heap && id in g.heap
    requires var e := g.heap[g.callers[c].entry];
             (g.callers[c].phase == Waiting && p == Holding && e.token && !token)
             || (g.callers[c].phase == Waiting && p == Dropping && e.token == token)
             || (g.callers[c].phase == Holding && p == Dropping && !e.token && token)
    ensures EntryInv(Moved(g, c, token, p), id)
  {
    MoveSets(g, c, token, p, id);
    assert EntryInv(g, id);
    if id == g.callers[c].entry {
      assert c in HoldersOf(g, id) <==> g.callers[c].phase == Holding;
      if g.callers[c].phase == Holding {
        Joined(HoldersOf(g, id) - {c}, c);
        assert HoldersOf(g, id) - {c} + {c} == HoldersOf(g, id);
      } else {
        Joined(HoldersOf(g, id), c);
        assert HoldersOf(g, id) - {c} == HoldersOf(g, id);
      }
    }
  }

  lemma DropKeeps(g: Gate, c: CallerId)
    requires Inv(g) && c in g.callers && CallerInv(g, c) && g.callers[c].phase == Dropping
             && g.heap[g.callers[c].entry].refs > 0
    ensures Inv(Dropped(g, c))
  {
    var v := Dropped(g, c);
    DropKeepsMap(g, c);
    hide EntryInv, MapInv;
    forall id | id in v.heap ensures EntryInv(v, id) {
      DropKeepsEntry(g, c, id);
    }
    forall d | d in v.callers ensures CallerInv(v, d) {
      assert CallerInv(g, d);
    }
  }

  lemma DropKeepsMap(g: Gate, c: CallerId)
    requires MapInv(g) && c in g.callers && CallerInv(g, c) && g.heap[g.callers[c].entry].refs > 0
             && EntryInv(g, g.callers[c].entry)
    ensures MapInv(Dropped(g, c))
  {
    hide UsersOf, HoldersOf;
    var v := Dropped(g, c);
    forall k | k in v.entries ensures v.entries[k] in v.heap && v.heap[v.entries[k]].key == k
      && v.heap[v.entries[k]].refs > 0 {
      assert k in g.entries && g.entries[k] in g.heap;
    }
  }

  lemma DropSets(g: Gate, c: CallerId, id: EntryId)
    requires c in g.callers && g.callers[c].entry in g.heap && g.heap[g.callers[c].entry].refs > 0
             && g.callers[c].phase == Dropping
    ensures HoldersOf(Dropped(g, c), id) == HoldersOf(g, id)
    ensures var after := UsersOf(Dropped(g, c), id);
            UsersOf(g, id) == if id == g.callers[c].entry then after + {c} else after
    ensures c !in UsersOf(Dropped(g, c), id)
  {
  }

  lemma DropKeepsEntry(g: Gate, c: CallerId, id: EntryId)
    requires Inv(g) && c in g.callers && CallerInv(g, c) && g.callers[c].phase == Dropping
             && g.heap[g.callers[c].entry].refs > 0
    requires id in g.heap
    ensures EntryInv(Dropped(g, c), id)
  {
    DropSets(g, c, id);
    assert EntryInv(g, id) && EntryInv(g, g.callers[c].entry);
    Joined(UsersOf(Dropped(g, c), id), c);
  }

  lemma StepKeeps(g: Gate, s: Step)
    requires Inv(g)
    ensures Inv(Apply(g, s))
  {
    hide EntryInv, MapInv;
    if s.Enter? {
      if s.c !in g.callers {
        EnterKeeps(g, s.c, s.key);
      }
    } else if s.c in g.callers {
      assert CallerInv(g, s.c);
      var e := g.heap[g.callers[s.c].entry];
      match s {
        case Enter(_, _) =>
        case Take(c) => if InPhase(g, c, Waiting) && e.token { MoveKeeps(g, c, false, Holding); }
        case GiveUp(c) => if InPhase(g, c, Waiting) { MoveKeeps(g, c, e.token, Dropping); }
        case Release(c) => if InPhase(g, c, Holding) && !e.token { MoveKeeps(g, c, true, Dropping); }
        case Drop(c) => if InPhase(g, c, Dropping) && e.refs > 0 { DropKeeps(g, c); }
      }
    }
  }

  lemma {:induction false} RunKeeps(g: Gate, steps: seq<Step>)
    requires Inv(g)
    ensures Inv(Run(g, steps))
    decreases |steps|
  {
    hide Inv, Apply;
    if steps != [] {
      StepKeeps(g, steps[0]);
      RunKeeps(Apply(g, steps[0]), steps[1..]);
    }
  }

  // ---------- what the gate guarantees ----------

  lemma OneOf(a: set<CallerId>, c: CallerId, d: CallerId)
    requires c in a && d in a && |a| <= 1
    ensures c == d
  {
    var rest := a - {c};
    assert a == rest + {c};
    Joined(rest, c);
    assert rest == {};
  }

  /** At any moment of any run, two callers never hold the same key, also when
      its entry was removed and made anew in between. */
  lemma MutualExclusion(steps: seq<Step>, c: CallerId, d: CallerId)
    requires var g := Run(EMPTY, steps);
             c in g.callers && d in g.callers && g.callers[c].phase == Holding && g.callers[d].phase == Holding
             && g.callers[c].key == g.callers[d].key
    ensures c == d
  {
    RunKeeps(EMPTY, steps);
    var g := Run(EMPTY, steps);
    SameKeySameEntry(g, c, d);
    var id := g.callers[c].entry;
    assert EntryInv(g, id);
    OneOf(HoldersOf(g, id), c, d);
  }

  lemma SameKeySameEntry(g: Gate, c: CallerId, d: CallerId)
    requires Inv(g) && c in g.callers && d in g.callers && g.callers[c].key == g.callers[d].key
    ensures g.callers[c].entry == g.callers[d].entry && g.callers[c].key in g.entries
            && g.entries[g.callers[c].key] == g.callers[c].entry
    ensures g.callers[c].entry in g.heap && g.heap[g.callers[c].entry].refs > 0
  {
    UsedEntryIsMapped(g, c);
    UsedEntryIsMapped(g, d);
  }

  lemma UsedEntryIsMapped(g: Gate, c: CallerId)
    requires Inv(g) && c in g.callers
    ensures g.callers[c].entry in g.heap && g.heap[g.callers[c].entry].refs > 0
    ensures g.callers[c].key in g.entries && g.entries[g.callers[c].key] == g.callers[c].entry
  {
    assert CallerInv(g, c);
    var id := g.callers[c].entry;
    assert EntryInv(g, id) && c in UsersOf(g, id);
  }

  /** An entry stands in the map exactly while a caller uses its key; its count is
      the number of those callers, and its token is in exactly one place. */
  lemma EntriesAreCounted(steps: seq<Step>, key: Key)
    ensures var g := Run(EMPTY, steps);
            && (key in g.entries <==> exists c :: c in g.callers && g.callers[c].key == key)
            && (key in g.entries ==> g.entries[key] in g.heap
                                     && g.heap[g.entries[key]].refs == |set c | c in g.callers
                                        && g.callers[c].key == key|
                                     && (g.heap[g.entries[key]].token <==> HoldersOf(g, g.entries[key]) == {}))
  {
    RunKeeps(EMPTY, steps);
    var g := Run(EMPTY, steps);
    var users := set c | c in g.callers && g.callers[c].key == key;
    forall c | c in users ensures key in g.entries && g.callers[c].entry == g.entries[key] {
      UsedEntryIsMapped(g, c);
    }
    if key in g.entries {
      var id := g.entries[key];
      assert EntryInv(g, id);
      forall c | c in UsersOf(g, id) ensures c in users {
        assert CallerInv(g, c);
      }
      assert users == UsersOf(g, id);
      assert |users| > 0;
      var c :| c in users;
    }
  }

  /** Releasing never blocks: whoever holds finds the channel empty, so the put
      goes through; and a second release changes nothing. */
  lemma ReleaseGoesThrough(steps: seq<Step>, c: CallerId)
    requires InPhase(Run(EMPTY, steps), c, Holding)
    ensures var g := Run(EMPTY, steps);
            var v := Apply(g, Release(c));
            && InPhase(v, c, Dropping) && v.heap[g.callers[c].entry].token
               && v.callers == g.callers[c := g.callers[c].(phase := Dropping)]
            && Apply(v, Release(c)) == v && c !in Apply(v, Drop(c)).callers
            && Apply(Apply(v, Drop(c)), Release(c)) == Apply(v, Drop(c))
  {
    RunKeeps(EMPTY, steps);
    var g := Run(EMPTY, steps);
    UsedEntryIsMapped(g, c);
    var id := g.callers[c].entry;
    assert EntryInv(g, id) && c in HoldersOf(g, id);
  }

  /** A waiter that gives up neither takes nor loses the token and leaves every
      other caller as it was. */
  lemma GivingUpIsHarmless(steps: seq<Step>, c: CallerId)
    requires InPhase(Run(EMPTY, steps), c, Waiting)
    ensures var g := Run(EMPTY, steps);
            var v := Apply(Apply(g, GiveUp(c)), Drop(c));
            v.callers == g.callers - {c} && SameTokens(g, v)
              && (forall k | k in g.entries :: k in v.entries || k == g.callers[c].key)
  {
    RunKeeps(EMPTY, steps);
    var g := Run(EMPTY, steps);
    UsedEntryIsMapped(g, c);
    hide Inv, Run;
    GiveUpThenDrop(g, c);
  }

  ghost predicate SameTokens(g: Gate, v: Gate) {
    forall id | id in g.heap :: id in v.heap && v.heap[id].token == g.heap[id].token
  }

  lemma GiveUpThenDrop(g: Gate, c: CallerId)
    requires InPhase(g, c, Waiting) && g.callers[c].entry in g.heap && g.heap[g.callers[c].entry].refs > 0
    ensures var v := Apply(Apply(g, GiveUp(c)), Drop(c));
            v.callers == g.callers - {c} && SameTokens(g, v)
              && (forall k | k in g.entries :: k in v.entries || k == g.callers[c].key)
  {
    var u := Moved(g, c, g.heap[g.callers[c].entry].token, Dropping);
    assert Apply(g, GiveUp(c)) == u;
    assert Apply(u, Drop(c)) == Dropped(u, c) by { hide Dropped, Moved; DropApplies(u, c); }
    assert u.callers - {c} == g.callers - {c};
  }

  lemma DropApplies(g: Gate, c: CallerId)
    requires InPhase(g, c, Dropping) && g.callers[c].entry in g.heap && g.heap[g.callers[c].entry].refs > 0
    ensures Apply(g, Drop(c)) == Dropped(g, c)
  {
    hide Dropped;
  }

  // ---------- the gate itself ----------

  /** No caller uses the key. */
  predicate Unused(callers: map<CallerId, Caller>, key: Key) {
    forall d | d in callers :: callers[d].key != key
  }

  /** Each method is one critical section or channel operation of a caller. */
  class TaskFetchGate {
    var entries: map<Key, EntryId>
    var heap: map<EntryId, Entry>
    var next: EntryId
    var callers: map<CallerId, Caller>

    constructor ()
      ensures View() == EMPTY
    {
      entries, heap, next, callers := map[], map[], 0, map[];
    }

    function View(): Gate
      reads this
    {
      Gate(entries, heap, next, callers)
    }

    method Enter(c: CallerId, key: Key)
      requires Inv(View()) && c !in callers
      modifies this
      ensures View() == Apply(old(View()), Step.Enter(c, key)) && Inv(View())
      ensures key in entries && callers == old(callers)[c := Caller(key, entries[key], Waiting)]
      ensures if key in old(entries) then entries == old(entries)
              else entries == old(entries)[key := entries[key]] && entries[key] !in old(heap)
      ensures entries[key] in heap && heap[entries[key]].key == key
              && heap[entries[key]].refs == if key in old(entries) && entries[key] in old(heap)
                                            then old(heap)[entries[key]].refs + 1 else 1
      ensures forall id | id in old(heap) && id != entries[key] :: id in heap && heap[id] == old(heap)[id]
    {
      hide Inv, Apply;
      EnterFacts(View(), c, key);
      var id, e := next, Entry(key, true, 0);
      if key in entries {
        id := entries[key];
        e := heap[id];
      } else {
        next := next + 1;
      }
      entries := entries[key := id];
      heap := heap[id := e.(refs := e.refs + 1)];
      callers := callers[c := Caller(key, id, Waiting)];
    }

    /** The select in acquire: the token if it is there, or nothing yet. */
    method TryTake(c: CallerId) returns (held: bool)
      requires Inv(View()) && c in callers && callers[c].phase == Waiting
      modifies this
      ensures View() == Apply(old(View()), Take(c)) && Inv(View())
      ensures held <==> InPhase(View(), c, Holding)
      ensures held <==> HoldersOf(old(View()), old(callers)[c].entry) == {}
      ensures callers == old(callers)[c := Caller(old(callers)[c].key, old(callers)[c].entry,
                                                  if held then Holding else Waiting)]
      ensures entries == old(entries)
    {
      StepKeeps(View(), Take(c));
      WaiterFacts(View(), c);
      hide Inv, HoldersOf;
      var id := callers[c].entry;
      held := heap[id].token;
      if held {
        heap := heap[id := heap[id].(token := false)];
        callers := callers[c := callers[c].(phase := Holding)];
      }
    }

    method PutBack(c: CallerId)
      requires Inv(View()) && c in callers
      modifies this
      ensures View() == Apply(old(View()), Release(c)) && Inv(View())
      ensures old(callers)[c].phase == Holding <==> View() != old(View())
      ensures old(callers)[c].phase == Holding ==>
                HoldersOf(View(), old(callers)[c].entry) == {}
                && callers == old(callers)[c := Caller(old(callers)[c].key, old(callers)[c].entry, Dropping)]
      ensures entries == old(entries)
    {
      StepKeeps(View(), Release(c));
      UsedEntryIsMapped(View(), c);
      if callers[c].phase == Holding {
        var id := callers[c].entry;
        assert EntryInv(View(), id) && c in HoldersOf(View(), id);
        heap := heap[id := heap[id].(token := true)];
        callers := callers[c := callers[c].(phase := Dropping)];
      }
    }

    method Leave(c: CallerId)
      requires Inv(View()) && c in callers && callers[c].phase == Dropping
      modifies this
      ensures View() == Apply(old(View()), Drop(c)) && Inv(View())
      ensures callers == old(callers) - {c}
      ensures old(callers)[c].key !in entries <==> Unused(callers, old(callers)[c].key)
      ensures forall k | k != old(callers)[c].key ::
                (k in entries <==> k in old(entries)) && (k in entries ==> entries[k] == old(entries)[k])
    {
      hide Inv, Apply, Unused;
      LeaveFacts(View(), c);
      var key := callers[c].key;
      var e := heap[callers[c].entry].(refs := heap[callers[c].entry].refs - 1);
      heap := heap[callers[c].entry := e];
      if e.refs == 0 {
        entries := entries - {key};
      }
      callers := callers - {c};
    }
  }

  lemma LeaveFacts(g: Gate, c: CallerId)
    requires Inv(g) && InPhase(g, c, Dropping)
    ensures g.callers[c].entry in g.heap && g.heap[g.callers[c].entry].refs > 0
    ensures Apply(g, Drop(c)) == Dropped(g, c) && Inv(Dropped(g, c))
    ensures Dropped(g, c).callers == g.callers - {c}
    ensures g.callers[c].key !in Dropped(g, c).entries <==> Unused(Dropped(g, c).callers, g.callers[c].key)
  {
    hide Inv, Apply, Dropped, Unused;
    UsedEntryIsMapped(g, c);
    DropApplies(g, c);
    StepKeeps(g, Drop(c));
    KeyInUse(Dropped(g, c), g.callers[c].key);
    DroppedCallers(g, c);
  }

  lemma DroppedCallers(g: Gate, c: CallerId)
    requires c in g.callers && g.callers[c].entry in g.heap && g.heap[g.callers[c].entry].refs > 0
    ensures Dropped(g, c).callers == g.callers - {c}
  {
  }

  lemma WaiterFacts(g: Gate, c: CallerId)
    requires Inv(g) && c in g.callers
    ensures var id := g.callers[c].entry; id in g.heap && (g.heap[id].token <==> HoldersOf(g, id) == {})
  {
    UsedEntryIsMapped(g, c);
    assert EntryInv(g, g.callers[c].entry);
  }

  lemma EnterFacts(g: Gate, c: CallerId, key: Key)
    requires Inv(g) && c !in g.callers
    ensures Apply(g, Step.Enter(c, key)) == Entered(g, c, key) && Inv(Entered(g, c, key)) && g.next !in g.heap
    ensures key in g.entries ==> g.entries[key] in g.heap && g.heap[g.entries[key]].key == key
  {
    StepKeeps(g, Step.Enter(c, key));
    assert g.next in g.heap ==> EntryInv(g, g.next);
  }

  lemma KeyInUse(g: Gate, key: Key)
    requires Inv(g)
    ensures key !in g.entries <==> Unused(g.callers, key)
  {
    forall d | d in g.callers && g.callers[d].key == key ensures key in g.entries {
      UsedEntryIsMapped(g, d);
    }
    if key in g.entries {
      var id := g.entries[key];
      assert EntryInv(g, id) && |UsersOf(g, id)| > 0;
      var d :| d in UsersOf(g, id);
      assert CallerInv(g, d);
    }
  }
}
