/** Requests, Futures and Tasks of one scheduler core: their status, the waits
    registered on them, and when their values are let go. Lua allocations are
    taken to succeed here. */
module ManagedStates {
  import opened Common

  datatype Kind = Raw | Future | Task | LegacyRequest | LegacyAwait | Callback

  datatype Status = Pending | Running | Resolved | Done | Failed

  /** `value` tells whether the reference that a waiter would read is kept. */
  datatype State = State(kind: Kind, status: Status, handles: nat, waits: nat, value: bool)

  datatype Wait = Wait(id: nat, on: nat, deadline: Option<int>)

  predicate Terminal(s: State) { s.status == Resolved || s.status == Done || s.status == Failed }

  predicate IsTask(k: Kind) { k == Task || k == LegacyRequest || k == Callback }

  function Rank(s: Status): nat { if s == Pending then 0 else if s == Running then 1 else 2 }

  type States = map<nat, State>
  type Waits = map<nat, Wait>

  function On(m: Waits, s: nat): set<nat> { set t | t in m && m[t].on == s }

  function Managed(states: States, pending: set<nat>): set<nat> {
    set s | s in pending && s in states && states[s].kind != Raw
  }

  /** A state that nobody holds or awaits any more is let go once it is over. */
  predicate Idle(s: State) { Terminal(s) && s.handles == 0 && s.waits == 0 }

  function Kept(s: State): State { if Idle(s) then s.(value := false) else s }

  // What every step keeps.

  /** `waiter_count` is the number of waits, registered or detached. */
  ghost predicate Counted(states: States, waiters: Waits, notes: Waits) {
    && (forall t :: t in waiters ==> waiters[t].on in states) && (forall t :: t in notes ==> notes[t].on in states)
    && (forall s :: s in states ==> states[s].waits == |On(waiters, s)| + |On(notes, s)|)
  }

  /** A thread waits once, and a wait that was resumed is gone for good. */
  ghost predicate Once(waiters: Waits, notes: Waits, resumed: set<nat>, nextWait: nat) {
    && (forall t :: t in waiters ==> t !in notes)
    && (forall t :: t in waiters ==> waiters[t].id < nextWait && waiters[t].id !in resumed)
    && (forall t :: t in notes ==> notes[t].id < nextWait && notes[t].id !in resumed)
    && (forall t, u :: t in waiters && u in waiters && waiters[t].id == waiters[u].id ==> t == u)
    && (forall t, u :: t in notes && u in notes && notes[t].id == notes[u].id ==> t == u)
    && (forall t, u :: t in waiters && u in notes ==> waiters[t].id != notes[u].id)
    && (forall w :: w in resumed ==> w < nextWait)
  }

  /** Pending requests are unanswered and alive; the counter is the number of
      managed ones. */
  ghost predicate Requested(states: States, pending: set<nat>, live: set<nat>, count: int, answered: set<nat>, next: nat) {
    && (forall s :: s in states ==> s < next) && (forall s :: s in answered ==> s < next && s !in pending)
    && (forall s :: s in pending ==> s in states && s in live && states[s].status == Pending)
    && count == |Managed(states, pending)|
  }

  /** What is queued or running has been answered or needs no answer. */
  ghost predicate Scheduled(states: States, pending: set<nat>, live: set<nat>, ready: seq<nat>, running: map<nat, nat>) {
    && (forall s :: s in ready ==> s in states && s !in pending && (Terminal(states[s]) || s in live))
    && (forall t :: t in running ==> Runs(states, pending, live, running[t]))
  }

  ghost predicate Runs(states: States, pending: set<nat>, live: set<nat>, s: nat) {
    s in states && s !in pending && IsTask(states[s].kind) && (Terminal(states[s]) || s in live)
  }

  /** While somebody holds or awaits it, a successful value can be read. */
  ghost predicate Readable(states: States, live: set<nat>) {
    && live <= states.Keys
    && forall s :: s in states ==> Reachable(states[s], s in live)
  }

  ghost predicate Reachable(s: State, live: bool) {
    && (Terminal(s) && (s.handles > 0 || s.waits > 0) ==> live)
    && ((s.status == Resolved || s.status == Done) && s.kind != Raw && live ==> s.value)
  }

  /** Statuses only advance, and a terminal one never changes. */
  ghost predicate Later(before: States, after: States) {
    forall s :: s in before ==> s in after && after[s].kind == before[s].kind && Advances(before[s], after[s])
  }

  ghost predicate Advances(s: State, t: State) {
    Rank(s.status) <= Rank(t.status) && (Terminal(s) ==> t.status == s.status)
  }

  lemma LaterSame(a: States)
    ensures Later(a, a)
  {
  }

  lemma LaterTwice(a: States, b: States, c: States)
    requires Later(a, b) && Later(b, c)
    ensures Later(a, c)
  {
  }

  /** The whole bookkeeping as one record, to state what one change keeps. */
  datatype Table = Table(states: States, pending: set<nat>, live: set<nat>, count: int, ready: seq<nat>,
                         waiters: Waits, notes: Waits, running: map<nat, nat>, answered: set<nat>, resumed: set<nat>,
                         next: nat, nextWait: nat)

  ghost predicate Sound(b: Table) {
    && Counted(b.states, b.waiters, b.notes) && Once(b.waiters, b.notes, b.resumed, b.nextWait)
    && Requested(b.states, b.pending, b.live, b.count, b.answered, b.next) && Readable(b.states, b.live)
    && Scheduled(b.states, b.pending, b.live, b.ready, b.running)
  }

  /** The parts that do not speak of waits. */
  ghost predicate Core(b: Table) {
    && Requested(b.states, b.pending, b.live, b.count, b.answered, b.next) && Readable(b.states, b.live)
    && Scheduled(b.states, b.pending, b.live, b.ready, b.running)
  }

  lemma CoreReplace(b: Table, s: nat, t: State)
    requires Core(b) && s in b.states && t.kind == b.states[s].kind && Advances(b.states[s], t)
    requires Reachable(t, s in b.live) && (s in b.pending ==> t.status == Pending)
    ensures Core(b.(states := b.states[s := t])) && Later(b.states, b.states[s := t])
  {
    assert Managed(b.states[s := t], b.pending) == Managed(b.states, b.pending);
  }

  /** One state changes, keeping its kind and its waits. */
  lemma Replace(b: Table, s: nat, t: State)
    requires Sound(b) && s in b.states && t.kind == b.states[s].kind && t.waits == b.states[s].waits
    requires Reachable(t, s in b.live) && Advances(b.states[s], t)
    requires (s in b.pending ==> t.status == Pending)
    ensures Sound(b.(states := b.states[s := t])) && Later(b.states, b.states[s := t])
  {
    CoreReplace(b, s, t);
    hide Once, Requested, Readable, Scheduled;
  }

  /** A state that nobody holds or awaits is let go. */
  lemma LetGo(b: Table, s: nat)
    requires Sound(b) && s in b.states && Terminal(b.states[s]) && b.states[s].handles == 0 && b.states[s].waits == 0
    ensures Sound(b.(states := b.states[s := b.states[s].(value := false)], live := b.live - {s}))
    ensures Later(b.states, b.states[s := b.states[s].(value := false)])
  {
    var t := b.states[s].(value := false);
    assert s !in b.pending;
    NotLive(b, s);
    var c := b.(live := b.live - {s});
    CoreReplace(c, s, t);
    hide Once, Requested, Readable, Scheduled;
  }

  lemma NotLive(b: Table, s: nat)
    requires Core(b) && s in b.states && Terminal(b.states[s]) && b.states[s].handles == 0 && b.states[s].waits == 0
    ensures Core(b.(live := b.live - {s}))
  {
  }

  /** A new state; callback tasks are ready at once and expect no response. */
  lemma Created(b: Table, k: Kind)
    requires Sound(b)
    ensures var n := State(k, Pending, 0, 0, false);
      var c := b.(states := b.states[b.next := n], live := b.live + {b.next}, next := b.next + 1);
      && Sound(if k == Callback then c.(ready := b.ready + [b.next])
               else c.(pending := b.pending + {b.next}, count := b.count + if k == Raw then 0 else 1))
      && Later(b.states, c.states)
  {
    assert On(b.waiters, b.next) == {} && On(b.notes, b.next) == {};
    CoreCreated(b, k);
    hide Once, Requested, Readable, Scheduled;
  }

  lemma ManagedMore(states: States, pending: set<nat>, s: nat, n: State)
    requires s !in states && s !in pending
    ensures Managed(states[s := n], pending) == Managed(states, pending)
    ensures |Managed(states[s := n], pending + {s})| == |Managed(states, pending)| + if n.kind == Raw then 0 else 1
  {
    assert Managed(states[s := n], pending + {s}) == Managed(states, pending) + if n.kind == Raw then {} else {s};
  }

  lemma ManagedLess(states: States, pending: set<nat>, s: nat)
    requires s in states && s in pending
    ensures |Managed(states, pending - {s})| == |Managed(states, pending)| - if states[s].kind == Raw then 0 else 1
  {
    assert Managed(states, pending) == Managed(states, pending - {s}) + if states[s].kind == Raw then {} else {s};
  }

  lemma CoreCreated(b: Table, k: Kind)
    requires Core(b)
    ensures var n := State(k, Pending, 0, 0, false);
      var c := b.(states := b.states[b.next := n], live := b.live + {b.next}, next := b.next + 1);
      && Core(if k == Callback then c.(ready := b.ready + [b.next])
              else c.(pending := b.pending + {b.next}, count := b.count + if k == Raw then 0 else 1))
      && Later(b.states, c.states)
  {
    assert b.next !in b.states && b.next !in b.pending;
    ManagedMore(b.states, b.pending, b.next, State(k, Pending, 0, 0, false));
    CreatedReady(b, k);
    hide Managed, Readable, Scheduled;
  }

  lemma CreatedReady(b: Table, k: Kind)
    requires Readable(b.states, b.live) && Scheduled(b.states, b.pending, b.live, b.ready, b.running)
    requires b.next !in b.states && b.next !in b.pending
    ensures var states, live := b.states[b.next := State(k, Pending, 0, 0, false)], b.live + {b.next};
      && Readable(states, live)
      && Scheduled(states, if k == Callback then b.pending else b.pending + {b.next}, live,
                   if k == Callback then b.ready + [b.next] else b.ready, b.running)
  {
    forall t | t in b.running ensures b.running[t] != b.next { assert Runs(b.states, b.pending, b.live, b.running[t]); }
  }

  /** A request leaves the pending table: answered, cancelled or failed. */
  lemma Unpend(b: Table, s: nat)
    requires Sound(b) && s in b.pending
    ensures Sound(b.(pending := b.pending - {s}, count := b.count - if b.states[s].kind == Raw then 0 else 1))
  {
    ManagedLess(b.states, b.pending, s);
    hide Managed, Once, Counted, Readable;
  }

  lemma Fresh(b: Table)
    requires Sound(b)
    ensures b.next !in b.states && b.next !in b.pending && b.next !in b.live
  {
    hide Once, Counted, Scheduled;
  }

  lemma PendingFacts(b: Table, s: nat)
    requires Sound(b) && s in b.pending
    ensures s in b.states && b.states[s].status == Pending && s in b.live && s !in b.answered && s < b.next
  {
    hide Once, Counted, Scheduled, Readable;
  }

  lemma ReadyFacts(b: Table)
    requires Sound(b) && b.ready != []
    ensures var s := b.ready[0]; s in b.states && s !in b.pending && (Terminal(b.states[s]) || s in b.live)
    ensures Sound(b.(ready := b.ready[1..]))
  {
    hide Once, Counted, Requested, Readable;
  }

  lemma RunningFacts(b: Table, t: nat)
    requires Sound(b) && t in b.running
    ensures Runs(b.states, b.pending, b.live, b.running[t]) && Sound(b.(running := b.running - {t}))
  {
    hide Once, Counted, Requested, Readable;
  }

  lemma RunningMore(b: Table, t: nat, s: nat)
    requires Sound(b) && Runs(b.states, b.pending, b.live, s)
    ensures Sound(b.(running := b.running[t := s]))
  {
    hide Once, Counted, Requested, Readable;
  }

  /** What a registered waiter will find: a terminal success can still be read. */
  lemma WaitFacts(b: Table, t: nat)
    requires Sound(b) && (t in b.waiters || t in b.notes)
    ensures var w := if t in b.waiters then b.waiters[t] else b.notes[t];
      && w.on in b.states && b.states[w.on].waits > 0 && w.id !in b.resumed
      && ((b.states[w.on].status == Resolved || b.states[w.on].status == Done) && b.states[w.on].kind != Raw ==> b.states[w.on].value)
  {
    hide Requested, Scheduled;
    var w := if t in b.waiters then b.waiters[t] else b.notes[t];
    assert w.on in b.states;
    CountedLess(b, t);
    assert Reachable(b.states[w.on], w.on in b.live);
  }

  /** Every coroutine outside `left` that waited on `s` at the start has lost that
      very wait. */
  ghost predicate Woken(start: Table, b: Table, left: set<nat>, s: nat) {
    forall t, w :: Has(start, t, w) && w.on == s && t !in left ==> !Has(b, t, w)
  }

  /** The wait a coroutine has, registered or detached. */
  function WaitOf(b: Table, t: nat): Option<Wait> {
    if t in b.waiters then Some(b.waiters[t]) else if t in b.notes then Some(b.notes[t]) else None
  }

  predicate WaitsOn(b: Table, t: nat, s: nat) { WaitOf(b, t).Some? && WaitOf(b, t).value.on == s }

  /** The coroutines outside `left` that waited on `s` were resumed, each by its wait;
      all others wait as they did. */
  ghost predicate ResumedOnly(start: Table, b: Table, left: set<nat>, s: nat) {
    && (forall t :: WaitsOn(start, t, s) && t !in left ==> WaitOf(start, t).value.id in b.resumed)
    && (forall t :: WaitOf(b, t) == if WaitsOn(start, t, s) && t !in left then None else WaitOf(start, t))
  }

  lemma ResumedNone(b: Table, s: nat)
    ensures ResumedOnly(b, b, WaitingOn(b.waiters, b.notes, s), s)
  {
  }

  lemma ResumedOne(start: Table, b: Table, c: Table, left: set<nat>, t: nat, s: nat)
    requires ResumedOnly(start, b, left, s) && t in left && WaitsOn(start, t, s) && b.resumed <= c.resumed
    requires c.waiters == b.waiters - {t} && c.notes == b.notes - {t} && WaitOf(b, t).Some? && WaitOf(b, t).value.id in c.resumed
    ensures ResumedOnly(start, c, left - {t}, s)
  {
  }

  lemma ResumedNext(start: Table, b: Table, c: Table, left: set<nat>, t: nat, s: nat, hit: bool)
    requires Sound(start) && Sound(b) && ResumedOnly(start, b, left, s) && t in left && t in WaitingOn(start.waiters, start.notes, s)
    requires hit == ((t in b.waiters && b.waiters[t].on == s) || (t in b.notes && b.notes[t].on == s))
    requires hit ==> c.waiters == b.waiters - {t} && c.notes == b.notes - {t} && c.resumed == b.resumed + {TheWait(b, t).id}
    ensures ResumedOnly(start, c, left - {t}, s)
  {
    OneTable(start, t);
    OneTable(b, t);
    hide Sound, ResumedOnly;
    StillWaits(start, b, left, t, s);
    ResumedOne(start, b, c, left, t, s);
  }

  lemma StillWaits(start: Table, b: Table, left: set<nat>, t: nat, s: nat)
    requires ResumedOnly(start, b, left, s) && t in left
    ensures WaitOf(b, t) == WaitOf(start, t)
  {
  }

  lemma ResumedGone(start: Table, b: Table, c: Table, t: nat, s: nat, left: set<nat>)
    requires Sound(start) && Woken(start, b, left, s) && Passed(b, c) && Passed(start, b) && t in left
    requires forall w :: Has(b, t, w) && w.on == s ==> !Has(c, t, w)
    ensures Woken(start, c, left - {t}, s)
  {
    hide Later, Sound;
    forall u, w | Has(start, u, w) && w.on == s && u !in left - {t} ensures !Has(c, u, w) {
      Older(start, u, w);
      assert Has(c, u, w) ==> Has(b, u, w) || b.nextWait <= w.id;
    }
  }

  lemma StaysGone(start: Table, b: Table, c: Table, left: set<nat>, s: nat)
    requires Sound(start) && Woken(start, b, left, s) && Passed(b, c) && Passed(start, b)
    ensures Woken(start, c, left, s)
  {
    hide Later;
    forall u, w | Has(start, u, w) && w.on == s && u !in left ensures !Has(c, u, w) {
      Older(start, u, w);
      assert Has(c, u, w) ==> Has(b, u, w) || b.nextWait <= w.id;
    }
  }

  /** None of these coroutines still has with the timers the wait it had. */
  ghost predicate Off(start: Table, b: Table, gone: set<nat>) {
    forall t :: t in gone && t in start.waiters && t in b.waiters ==> b.waiters[t] != start.waiters[t]
  }

  lemma StaysOff(start: Table, b: Table, c: Table, gone: set<nat>)
    requires Sound(start) && Off(start, b, gone) && Passed(start, b) && Passed(b, c)
    ensures Off(start, c, gone)
  {
    hide Later;
    forall t | t in gone && t in start.waiters && t in c.waiters ensures c.waiters[t] != start.waiters[t] {
      Older(start, t, start.waiters[t]);
    }
  }

  lemma OffLess(start: Table, b: Table, some: set<nat>, gone: set<nat>)
    requires Off(start, b, gone) && some <= gone
    ensures Off(start, b, some)
  {
  }

  /** Waits that are not over, and detached ones, are as they were. */
  ghost predicate Untimed(start: Table, b: Table, now: int) {
    && b.notes == start.notes
    && forall t :: t in start.waiters && t !in Expired(start.waiters, now) ==> t in b.waiters && b.waiters[t] == start.waiters[t]
  }

  lemma UntimedStep(start: Table, b: Table, c: Table, thread: nat, now: int)
    requires Untimed(start, b, now) && thread in Expired(start.waiters, now)
    requires c.notes == b.notes && b.waiters - {thread} == c.waiters - {thread}
    ensures Untimed(start, c, now)
  {
    assert forall t :: t in b.waiters - {thread} ==> t in c.waiters - {thread} && c.waiters[t] == b.waiters[t];
  }

  lemma ExpireStart(b: Table, now: int)
    ensures Passed(b, b) && Off(b, b, {}) && Untimed(b, b, now)
  {
  }

  /** Of the coroutines in `over` those in `left` wait as they did, the others were
      resumed by their waits. */
  ghost predicate ResumedOverdue(start: Table, b: Table, over: set<nat>, left: set<nat>) {
    forall t :: t in over ==>
      && t in start.waiters
      && if t in left then t in b.waiters && b.waiters[t] == start.waiters[t] else start.waiters[t].id in b.resumed
  }

  lemma OverdueStart(b: Table, over: set<nat>)
    requires over <= b.waiters.Keys
    ensures ResumedOverdue(b, b, over, over)
  {
  }

  lemma OverdueStep(start: Table, b: Table, c: Table, over: set<nat>, left: set<nat>, thread: nat)
    requires ResumedOverdue(start, b, over, left) && thread in left && thread in start.waiters && b.resumed <= c.resumed
    requires b.waiters - {thread} == c.waiters - {thread}
    requires thread in b.waiters && b.waiters[thread] == start.waiters[thread] ==> start.waiters[thread].id in c.resumed
    ensures ResumedOverdue(start, c, over, left - {thread})
  {
    assert forall t :: t in b.waiters - {thread} ==> t in c.waiters - {thread} && c.waiters[t] == b.waiters[t];
  }

  lemma OverdueEnd(start: Table, b: Table, over: set<nat>)
    requires ResumedOverdue(start, b, over, {})
    ensures forall t :: t in over ==> t in start.waiters && start.waiters[t].id in b.resumed
  {
  }

  /** Detached waits are there as they were, or were resumed; the timers stay. */
  ghost predicate ResumedNotes(start: Table, b: Table) {
    && b.waiters == start.waiters
    && forall t :: t in start.notes ==> (t in b.notes && b.notes[t] == start.notes[t]) || start.notes[t].id in b.resumed
  }

  lemma NotesStart(b: Table)
    ensures ResumedNotes(b, b)
  {
  }

  lemma NotesStep(start: Table, b: Table, c: Table, t: nat)
    requires ResumedNotes(start, b) && t in b.notes && t !in b.waiters && c.notes == b.notes - {t} && c.waiters == b.waiters - {t}
    requires b.resumed <= c.resumed && b.notes[t].id in c.resumed
    ensures ResumedNotes(start, c)
  {
    assert b.waiters - {t} == b.waiters;
  }

  lemma NotesEnd(start: Table, b: Table)
    requires ResumedNotes(start, b) && b.notes == map[]
    ensures b.waiters == start.waiters && forall t :: t in start.notes ==> start.notes[t].id in b.resumed
  {
  }

  lemma Older(b: Table, t: nat, w: Wait)
    requires Sound(b) && Has(b, t, w)
    ensures w.id < b.nextWait
  {
    hide Counted, Requested, Readable, Scheduled;
  }

  lemma NoPending(b: Table)
    requires Sound(b) && b.pending == {}
    ensures b.count == 0
  {
    hide Once, Counted, Scheduled, Readable;
    assert Managed(b.states, b.pending) == {};
  }

  lemma Fewer(m: Waits, t: nat)
    requires t in m
    ensures |m - {t}| < |m|
  {
    assert m == (m - {t})[t := m[t]];
  }

  lemma OneTable(b: Table, t: nat)
    requires Sound(b)
    ensures t in b.waiters ==> t !in b.notes
  {
    hide Counted, Requested, Readable, Scheduled;
  }

  lemma HoldFacts(b: Table, s: nat, more: nat)
    requires Sound(b) && s in b.states && (s in b.live || more <= b.states[s].handles)
    ensures Reachable(b.states[s].(handles := more), s in b.live)
    ensures s in b.pending ==> b.states[s].status == Pending
  {
    hide Once, Counted, Scheduled;
    assert Reachable(b.states[s], s in b.live);
  }

  /** A request is cancelled: it is neither pending nor live any more. */
  lemma Cancelled(b: Table, s: nat)
    requires Sound(b) && s in b.pending
    ensures s in b.states
    ensures Sound(b.(pending := b.pending - {s}, live := b.live - {s},
                     count := b.count - if b.states[s].kind == Raw then 0 else 1))
  {
    PendingFacts(b, s);
    ManagedLess(b.states, b.pending, s);
    CancelledRest(b, s);
    hide Managed, Once, Counted, Readable, Scheduled;
  }

  lemma CancelledRest(b: Table, s: nat)
    requires Readable(b.states, b.live) && Scheduled(b.states, b.pending, b.live, b.ready, b.running)
    requires s in b.pending && s in b.states && b.states[s].status == Pending
    ensures Readable(b.states, b.live - {s}) && Scheduled(b.states, b.pending - {s}, b.live - {s}, b.ready, b.running)
  {
    forall t | t in b.running ensures b.running[t] != s { assert Runs(b.states, b.pending, b.live, b.running[t]); }
    assert Reachable(b.states[s], s in b.live);
  }

  lemma Answered(b: Table, s: nat)
    requires Sound(b) && s < b.next && s !in b.pending
    ensures Sound(b.(answered := b.answered + {s}))
  {
    hide Once, Counted, Scheduled, Readable;
  }

  lemma Enqueued(b: Table, s: nat)
    requires Sound(b) && s in b.states && s !in b.pending && (Terminal(b.states[s]) || s in b.live)
    ensures Sound(b.(ready := b.ready + [s]))
  {
  }

  /** A coroutine registers a wait on a state that is not terminal. */
  lemma Registered(b: Table, t: nat, s: nat, deadline: Option<int>)
    requires Sound(b) && s in b.states && !Terminal(b.states[s]) && t !in b.waiters && t !in b.notes
    ensures var n := b.states[s].(waits := b.states[s].waits + 1);
      && Sound(b.(states := b.states[s := n], waiters := b.waiters[t := Wait(b.nextWait, s, deadline)], nextWait := b.nextWait + 1))
      && Later(b.states, b.states[s := n])
  {
    hide Once, Counted, Scheduled;
    CountedMore(b, t, Wait(b.nextWait, s, deadline));
    OnceMore(b, t, s, deadline);
    assert Reachable(b.states[s], s in b.live);
    hide Requested, Readable;
    CoreReplace(b, s, b.states[s].(waits := b.states[s].waits + 1));
  }

  lemma CountedMore(b: Table, t: nat, w: Wait)
    requires Counted(b.states, b.waiters, b.notes) && t !in b.waiters && w.on in b.states
    ensures Counted(b.states[w.on := b.states[w.on].(waits := b.states[w.on].waits + 1)], b.waiters[t := w], b.notes)
  {
    WaitAdded(b.waiters, t, w);
  }

  lemma OnceMore(b: Table, t: nat, s: nat, deadline: Option<int>)
    requires Once(b.waiters, b.notes, b.resumed, b.nextWait) && t !in b.waiters && t !in b.notes
    ensures Once(b.waiters[t := Wait(b.nextWait, s, deadline)], b.notes, b.resumed, b.nextWait + 1)
  {
  }

  function TheWait(b: Table, t: nat): Wait
    requires t in b.waiters || t in b.notes
  {
    if t in b.waiters then b.waiters[t] else b.notes[t]
  }

  function Unheld(s: State): State { s.(handles := if s.handles > 0 then s.handles - 1 else 0) }

  function OneLess(s: State): State { s.(waits := if s.waits > 0 then s.waits - 1 else 0) }

  /** A registered or detached wait is removed, resumed or not. */
  lemma Removed(b: Table, t: nat, hit: bool)
    requires Sound(b) && (t in b.waiters || t in b.notes)
    ensures var w := TheWait(b, t);
      && w.on in b.states && b.states[w.on].waits > 0 && w.id !in b.resumed
      && Sound(b.(states := b.states[w.on := OneLess(b.states[w.on])], waiters := b.waiters - {t}, notes := b.notes - {t},
                  resumed := if hit then b.resumed + {w.id} else b.resumed))
      && Later(b.states, b.states[w.on := OneLess(b.states[w.on])])
  {
    hide Once, Counted, Requested, Readable, Scheduled, Later, Reachable, Advances, OneLess, TheWait;
    NotBoth(b, t);
    CountedLess(b, t);
    OnceLess(b, t, hit);
    var w := TheWait(b, t);
    LessReachable(b, w.on);
    CoreReplace(b, w.on, OneLess(b.states[w.on]));
  }

  lemma LessReachable(b: Table, s: nat)
    requires Core(b) && s in b.states && b.states[s].waits > 0
    ensures Reachable(OneLess(b.states[s]), s in b.live) && Advances(b.states[s], OneLess(b.states[s]))
    ensures OneLess(b.states[s]).kind == b.states[s].kind && (s in b.pending ==> OneLess(b.states[s]).status == Pending)
  {
    hide Scheduled;
  }

  lemma NotBoth(b: Table, t: nat)
    requires Once(b.waiters, b.notes, b.resumed, b.nextWait)
    ensures t in b.waiters ==> t !in b.notes
  {
  }

  lemma CountedLess(b: Table, t: nat)
    requires Counted(b.states, b.waiters, b.notes) && (t in b.waiters || t in b.notes) && (t in b.waiters ==> t !in b.notes)
    ensures var w := TheWait(b, t);
      && w.on in b.states && b.states[w.on].waits > 0
      && Counted(b.states[w.on := OneLess(b.states[w.on])], b.waiters - {t}, b.notes - {t})
  {
    if t in b.waiters {
      WaitDropped(b.waiters, t);
      assert b.notes - {t} == b.notes;
    } else {
      WaitDropped(b.notes, t);
      assert b.waiters - {t} == b.waiters;
    }
  }

  lemma OnceLess(b: Table, t: nat, hit: bool)
    requires Once(b.waiters, b.notes, b.resumed, b.nextWait) && (t in b.waiters || t in b.notes)
    ensures var w := TheWait(b, t);
      && Once(b.waiters - {t}, b.notes - {t}, if hit then b.resumed + {w.id} else b.resumed, b.nextWait)
      && w.id !in b.resumed
  {
  }

  /** A wait on a terminal state is detached from timers and lookups. */
  lemma Detached(b: Table, t: nat)
    requires Sound(b) && t in b.waiters
    ensures Sound(b.(waiters := b.waiters - {t}, notes := b.notes[t := b.waiters[t]]))
  {
    hide Requested, Readable, Scheduled;
    OnceMoved(b, t);
    WaitDropped(b.waiters, t);
    WaitAdded(b.notes, t, b.waiters[t]);
    hide Once;
  }

  lemma OnceMoved(b: Table, t: nat)
    requires Once(b.waiters, b.notes, b.resumed, b.nextWait) && t in b.waiters
    ensures Once(b.waiters - {t}, b.notes[t := b.waiters[t]], b.resumed, b.nextWait)
  {
  }

  /** The coroutine has this very wait, registered or detached. */
  predicate Has(b: Table, t: nat, w: Wait) {
    (t in b.waiters && b.waiters[t] == w) || (t in b.notes && b.notes[t] == w)
  }

  /** What happens between two moments, whoever runs: waits are new or were there. */
  ghost predicate Passed(b: Table, c: Table) {
    && Later(b.states, c.states) && b.answered <= c.answered && b.resumed <= c.resumed && b.next <= c.next
    && b.nextWait <= c.nextWait && (forall t, w :: Has(c, t, w) ==> Has(b, t, w) || b.nextWait <= w.id)
    && (forall t :: t in c.waiters ==> (t in b.waiters && b.waiters[t] == c.waiters[t]) || b.nextWait <= c.waiters[t].id)
  }

  lemma PassedTwice(b: Table, c: Table, d: Table)
    requires Passed(b, c) && Passed(c, d)
    ensures Passed(b, d)
  {
    hide Has;
    LaterTwice(b.states, c.states, d.states);
    hide Later;
  }

  lemma PassedSame(b: Table, c: Table)
    requires c.waiters == b.waiters && c.notes == b.notes && c.nextWait == b.nextWait && Later(b.states, c.states)
    requires b.answered <= c.answered && b.resumed <= c.resumed && b.next <= c.next
    ensures Passed(b, c)
  {
    hide Later;
  }

  lemma PassedFewer(b: Table, c: Table, t: nat)
    requires c.waiters == b.waiters - {t} && c.notes == b.notes - {t} && c.nextWait == b.nextWait && Later(b.states, c.states)
    requires b.answered <= c.answered && b.resumed <= c.resumed && b.next <= c.next
    ensures Passed(b, c)
  {
    hide Later;
  }

  lemma PassedMore(b: Table, c: Table, t: nat, w: Wait)
    requires c.waiters == b.waiters[t := w] && c.notes == b.notes && w.id == b.nextWait && c.nextWait == b.nextWait + 1
    requires Later(b.states, c.states) && b.answered <= c.answered && b.resumed <= c.resumed && b.next <= c.next
    ensures Passed(b, c)
  {
    hide Later;
  }

  lemma PassedMoved(b: Table, c: Table, t: nat)
    requires t in b.waiters && c.waiters == b.waiters - {t} && c.notes == b.notes[t := b.waiters[t]] && c.nextWait == b.nextWait
    requires c.states == b.states && c.answered == b.answered && c.resumed == b.resumed && c.next == b.next
    ensures Passed(b, c)
  {
  }

  // One wait comes or goes.

  lemma WaitAdded(m: Waits, t: nat, w: Wait)
    requires t !in m
    ensures |On(m[t := w], w.on)| == |On(m, w.on)| + 1
    ensures forall s :: s != w.on ==> On(m[t := w], s) == On(m, s)
  {
    assert On(m[t := w], w.on) == On(m, w.on) + {t};
  }

  lemma WaitDropped(m: Waits, t: nat)
    requires t in m
    ensures |On(m, m[t].on)| == |On(m - {t}, m[t].on)| + 1
    ensures forall s :: s != m[t].on ==> On(m - {t}, s) == On(m, s)
  {
    assert On(m, m[t].on) == On(m - {t}, m[t].on) + {t};
  }

  /** Threads whose wait is on the state, and threads whose deadline is over. */
  function WaitingOn(waiters: Waits, notes: Waits, s: nat): set<nat> { On(waiters, s) + On(notes, s) }

  function Expired(waiters: Waits, now: int): set<nat> {
    set t | t in waiters && waiters[t].deadline.Some? && waiters[t].deadline.value <= now
  }

  /** What resumed Lua code may do before control returns to the scheduler. */
  datatype Call =
    | New(kind: Kind) | Route(id: nat) | Begin(thread: nat) | End(thread: nat, ok: bool)
    | Await(thread: nat, on: nat, deadline: Option<int>) | Resume(thread: nat, on: nat) | Unregister(thread: nat)
    | Lose(thread: nat) | Hold(state: nat) | Release(state: nat) | Cancel(id: nat) | Detach

  class StateTable {
    var next: nat                       // next request identity
    var states: States
    var pending: set<nat>
    var live: set<nat>
    var pendingRequests: int
    var ready: seq<nat>
    var waiters: Waits                  // by coroutine
    var notifications: Waits
    var running: map<nat, nat>
    var nextWait: nat
    ghost var answered: set<nat>        // requests a response was routed to
    ghost var resumed: set<nat>         // waits that were resumed

    ghost function Tab(): Table
      reads this
    {
      Table(states, pending, live, pendingRequests, ready, waiters, notifications, running, answered, resumed, next, nextWait)
    }

    ghost predicate Valid()
      reads this
    {
      Sound(Tab())
    }

    /** Nothing that was settled is taken back, and no wait returns. */
    twostate predicate Onward()
      reads this
    {
      Passed(old(Tab()), Tab())
    }

    constructor ()
      ensures Valid() && answered == {} && resumed == {}
    {
      next, states, pending, live, pendingRequests, ready := 1, map[], {}, {}, 0, [];
      waiters, notifications, running, nextWait, answered, resumed := map[], map[], map[], 0, {}, {};
      new;
      assert Managed(states, pending) == {};
    }

    /** `createState`. */
    method Create(kind: Kind) returns (s: nat)
      requires Valid()
      modifies this`states, this`live, this`next, this`ready, this`pending, this`pendingRequests
      ensures Valid() && Onward() && s == old(next) && s !in old(states) && states == old(states)[s := State(kind, Pending, 0, 0, false)]
      ensures live == old(live) + {s} && pending == old(pending) + (if kind == Callback then {} else {s})
      ensures ready == old(ready) + if kind == Callback then [s] else []
    {
      hide Sound, Later;
      Fresh(Tab());
      Created(Tab(), kind);
      s := next;
      states, live, next := states[s := State(kind, Pending, 0, 0, false)], live + {s}, next + 1;
      if kind == Callback {
        ready := ready + [s];
      } else {
        pending := pending + {s};
        if kind != Raw { pendingRequests := pendingRequests + 1; }
      }
    }

    /** `retireState`. */
    method Retire(s: nat)
      requires Valid() && s in states
      modifies this`states, this`live
      ensures Valid() && Onward()
      ensures states == old(states)[s := Kept(old(states)[s])]
      ensures live == if Idle(old(states)[s]) then old(live) - {s} else old(live)
    {
      hide Sound;
      if Terminal(states[s]) && states[s].handles == 0 && states[s].waits == 0 {
        LetGo(Tab(), s);
        live, states := live - {s}, states[s := states[s].(value := false)];
      }
    }

    /** An answered raw request is over. */
    method EndRaw(id: nat)
      requires Valid() && id in states && id in live && id !in pending && states[id].kind == Raw && states[id].status == Pending
      modifies this`states, this`live
      ensures Valid() && Onward()
      ensures states == old(states)[id := old(states)[id].(status := Done, value := false)]
      ensures live == old(live) - if old(states)[id].handles == 0 && old(states)[id].waits == 0 then {id} else {}
    {
      hide Sound, Later;
      Settle(id, Done, false);
      ghost var settled := states;
      Retire(id);
      LaterTwice(old(states), settled, states);
    }

    /** A pending identity is answered: it is pending no more. */
    method Answer(id: nat)
      requires Valid() && id in pending
      modifies this`pending, this`pendingRequests, this`answered
      ensures Valid() && pending == old(pending) - {id} && answered == old(answered) + {id} && id !in old(answered)
      ensures id in states && id in live && states[id].status == Pending
    {
      hide Sound, Later;
      PendingFacts(Tab(), id);
      Unpend(Tab(), id);
      pendingRequests := pendingRequests - if states[id].kind == Raw then 0 else 1;
      pending := pending - {id};
      Answered(Tab(), id);
      answered := answered + {id};
    }

    /** The part of `dispatchRoute` that settles a request; true when the identity
        was pending. */
    method Dispatch(id: nat) returns (routed: bool)
      requires Valid()
      modifies this`states, this`live, this`pending, this`pendingRequests, this`ready, this`answered
      ensures Valid() && Onward() && routed == (id in old(pending))
      ensures if routed then id !in old(answered) && answered == old(answered) + {id} && pending == old(pending) - {id}
                             && id in old(states) && old(states)[id].status == Pending
              else states == old(states) && pending == old(pending) && answered == old(answered) && live == old(live)
      ensures ready == old(ready) + if routed && old(states)[id].kind != Raw then [id] else []
      ensures routed ==> var r := old(states)[id]; states == old(states)[id :=
        if r.kind == Raw then r.(status := Done, value := false)
        else if IsTask(r.kind) then r else r.(status := Resolved, value := true)]
    {
      hide Sound, Later;
      LaterSame(states);
      if id !in pending { return false; }
      Answer(id);
      if states[id].kind == Raw {
        EndRaw(id);
      } else {
        if !IsTask(states[id].kind) { Settle(id, Resolved, true); }
        Enqueue(id);
      }
      return true;
    }

    /** A status and the value that comes with it. */
    method Settle(s: nat, status: Status, value: bool)
      requires Valid() && s in states && s !in pending && !Terminal(states[s]) && Rank(states[s].status) <= Rank(status)
      requires s in live && (status in {Resolved, Done} && states[s].kind != Raw ==> value)
      modifies this`states
      ensures Valid() && Onward() && states == old(states)[s := old(states)[s].(status := status, value := value)]
    {
      hide Sound;
      Replace(Tab(), s, states[s].(status := status, value := value));
      states := states[s := states[s].(status := status, value := value)];
    }

    method Enqueue(s: nat)
      requires Valid() && s in states && s !in pending && (Terminal(states[s]) || s in live)
      modifies this`ready
      ensures Valid() && ready == old(ready) + [s]
    {
      hide Sound;
      Enqueued(Tab(), s);
      ready := ready + [s];
    }

    /** The front of `drainReadyStates`: a terminal state is to be woken; a
        pending task starts on its coroutine. */
    method ServeReady(thread: nat) returns (s: nat, over: bool)
      requires Valid() && ready != [] && thread !in running
      modifies this`ready, this`running, this`states
      ensures Valid() && Onward() && ready == old(ready)[1..] && s == old(ready)[0] && s in states
      ensures over == Terminal(old(states)[s])
      ensures if old(states)[s].status == Pending && IsTask(old(states)[s].kind)
              then states == old(states)[s := old(states)[s].(status := Running)] && running == old(running)[thread := s]
              else states == old(states) && running == old(running)
    {
      hide Sound, Later;
      LaterSame(states);
      ReadyFacts(Tab());
      s := ready[0];
      ready := ready[1..];
      over := Terminal(states[s]);
      if !over && states[s].status == Pending && IsTask(states[s].kind) {
        Settle(s, Running, states[s].value);
        RunningMore(Tab(), thread, s);
        running := running[thread := s];
      }
    }

    /** `finishTask` up to the wake-up, and the failure paths of a running task. */
    method EndTask(thread: nat, ok: bool) returns (s: nat)
      requires Valid() && thread in running
      modifies this`running, this`states
      ensures Valid() && Onward() && running == old(running) - {thread} && s == old(running)[thread] && s in states && Terminal(states[s])
      ensures s in old(states) && states == if Terminal(old(states)[s]) then old(states)
        else old(states)[s := old(states)[s].(status := if ok then Done else Failed, value := ok || old(states)[s].value)]
    {
      hide Sound, Later;
      LaterSame(states);
      RunningFacts(Tab(), thread);
      s := running[thread];
      running := running - {thread};
      if !Terminal(states[s]) {
        if ok { Settle(s, Done, true); } else { Settle(s, Failed, states[s].value); }
      }
    }

    /** `beginYield`: a coroutine registers a wait, unless the state is over or it
        already waits. */
    method Register(thread: nat, s: nat, deadline: Option<int>) returns (ok: bool)
      requires Valid() && s in states
      modifies this`states, this`waiters, this`nextWait
      ensures Valid() && Onward()
      ensures ok == (!Terminal(old(states)[s]) && thread !in old(waiters) && thread !in notifications)
      ensures if ok then waiters == old(waiters)[thread := Wait(old(nextWait), s, deadline)]
                         && states == old(states)[s := old(states)[s].(waits := old(states)[s].waits + 1)]
              else waiters == old(waiters) && states == old(states)
    {
      hide Sound, Later;
      LaterSame(states);
      if Terminal(states[s]) || thread in waiters || thread in notifications { return false; }
      Registered(Tab(), thread, s, deadline);
      waiters := waiters[thread := Wait(nextWait, s, deadline)];
      nextWait := nextWait + 1;
      states := states[s := states[s].(waits := states[s].waits + 1)];
      PassedMore(old(Tab()), Tab(), thread, waiters[thread]);
      return true;
    }

    /** `removeRegistration`, for a resume when `hit`. */
    method Remove(thread: nat, hit: bool) returns (s: nat)
      requires Valid() && (thread in waiters || thread in notifications)
      modifies this`states, this`live, this`waiters, this`notifications, this`resumed
      ensures Valid() && Onward() && thread !in waiters && thread !in notifications
      ensures var w := if thread in old(waiters) then old(waiters)[thread] else old(notifications)[thread];
        s == w.on && w.id !in old(resumed) && resumed == old(resumed) + (if hit then {w.id} else {})
      ensures waiters == old(waiters) - {thread} && notifications == old(notifications) - {thread}
      ensures s in old(states) && states == old(states)[s := Kept(OneLess(old(states)[s]))]
      ensures live == if Idle(OneLess(old(states)[s])) then old(live) - {s} else old(live)
    {
      hide Sound, Later, Kept, Idle, OneLess;
      s := Unwait(thread, hit);
      ghost var before := states;
      Retire(s);
      LaterTwice(old(states), before, states);
      PassedFewer(old(Tab()), Tab(), thread);
    }

    /** The wait leaves both tables and is counted no more. */
    method Unwait(thread: nat, hit: bool) returns (s: nat)
      requires Valid() && (thread in waiters || thread in notifications)
      modifies this`states, this`waiters, this`notifications, this`resumed
      ensures Valid() && Later(old(states), states) && s in old(states)
      ensures var w := if thread in old(waiters) then old(waiters)[thread] else old(notifications)[thread];
        s == w.on && w.id !in old(resumed) && resumed == old(resumed) + (if hit then {w.id} else {})
      ensures waiters == old(waiters) - {thread} && notifications == old(notifications) - {thread}
      ensures states == old(states)[s := OneLess(old(states)[s])]
    {
      hide Sound, Later;
      Removed(Tab(), thread, hit);
      var w := if thread in waiters then waiters[thread] else notifications[thread];
      waiters, notifications := waiters - {thread}, notifications - {thread};
      if hit { resumed := resumed + {w.id}; }
      states := states[w.on := states[w.on].(waits := states[w.on].waits - 1)];
      return w.on;
    }

    /** `resume`: nothing happens unless the coroutine still waits on the state.
        The value is read before the wait is removed. */
    method Resume(thread: nat, s: nat) returns (hit: bool, readable: bool)
      requires Valid()
      modifies this`states, this`live, this`waiters, this`notifications, this`resumed
      ensures Valid() && Onward()
      ensures hit == ((thread in old(waiters) && old(waiters)[thread].on == s)
                      || (thread in old(notifications) && old(notifications)[thread].on == s))
      ensures !hit ==> states == old(states) && waiters == old(waiters) && notifications == old(notifications) && resumed == old(resumed)
      ensures hit ==> waiters == old(waiters) - {thread} && notifications == old(notifications) - {thread}
      ensures hit ==> var w := TheWait(old(Tab()), thread); w.id !in old(resumed) && resumed == old(resumed) + {w.id}
      ensures hit ==> s in old(states) && states == old(states)[s := Kept(OneLess(old(states)[s]))]
      ensures hit && s in old(states) && old(states)[s].status in {Resolved, Done} && old(states)[s].kind != Raw ==> readable
    {
      hide Sound, Later;
      LaterSame(states);
      OneTable(Tab(), thread);
      if thread in waiters && waiters[thread].on == s {
        WaitFacts(Tab(), thread);
        readable := states[s].value;
        var on := Remove(thread, true);
        return true, readable;
      }
      if thread in notifications && notifications[thread].on == s {
        WaitFacts(Tab(), thread);
        readable := states[s].value;
        var on := Remove(thread, true);
        return true, readable;
      }
      return false, false;
    }

    method AddHandle(s: nat)
      requires Valid() && s in states && s in live
      modifies this`states
      ensures Valid() && Onward() && states == old(states)[s := old(states)[s].(handles := old(states)[s].handles + 1)]
    {
      hide Sound, Later;
      HoldFacts(Tab(), s, states[s].handles + 1);
      Replace(Tab(), s, states[s].(handles := states[s].handles + 1));
      states := states[s := states[s].(handles := states[s].handles + 1)];
    }

    /** `releaseHandle`. */
    method ReleaseHandle(s: nat)
      requires Valid() && s in states
      modifies this`states, this`live
      ensures Valid() && Onward()
      ensures states == old(states)[s := Kept(Unheld(old(states)[s]))]
      ensures live == if Idle(Unheld(old(states)[s])) then old(live) - {s} else old(live)
    {
      hide Sound, Later;
      LaterSame(states);
      if states[s].handles > 0 {
        HoldFacts(Tab(), s, states[s].handles - 1);
        Replace(Tab(), s, states[s].(handles := states[s].handles - 1));
        states := states[s := states[s].(handles := states[s].handles - 1)];
      }
      ghost var before := states;
      Retire(s);
      LaterTwice(old(states), before, states);
    }

    /** `cancel`: a pending request is withdrawn for good. */
    method Cancel(id: nat)
      requires Valid()
      modifies this`pending, this`live, this`pendingRequests
      ensures Valid() && pending == old(pending) - {id}
      ensures live == if id in old(pending) then old(live) - {id} else old(live)
    {
      hide Sound, Later;
      if id in pending {
        Cancelled(Tab(), id);
        pendingRequests := pendingRequests - if states[id].kind == Raw then 0 else 1;
        pending, live := pending - {id}, live - {id};
      }
    }

    /** `detachTransport`: every pending request fails, and the waits on what is
        over are kept for later delivery only. */
    method Detach()
      requires Valid()
      modifies this
      ensures Valid() && Onward() && pending == {} && pendingRequests == 0
      ensures forall s :: s in old(pending) ==> s in states && states[s].status == Failed && s in ready
      ensures forall t :: t in waiters ==> waiters[t].on in states && !Terminal(states[waiters[t].on])
      ensures forall t :: WaitOf(Tab(), t) == WaitOf(old(Tab()), t)
      ensures answered == old(answered) && resumed == old(resumed) && old(ready) <= ready
    {
      hide Sound, Later, Passed;
      FailPending();
      ghost var before := Tab();
      DetachWaits();
      PassedTwice(old(Tab()), before, Tab());
      NoPending(Tab());
    }

    method FailPending()
      requires Valid()
      modifies this`pending, this`pendingRequests, this`states, this`ready
      ensures Valid() && Onward() && pending == {} && waiters == old(waiters) && old(ready) <= ready
      ensures forall s :: s in old(pending) ==> s in states && states[s].status == Failed && s in ready
    {
      hide Sound, Later, Passed;
      LaterSame(states);
      PassedSame(Tab(), Tab());
      while pending != {}
        invariant Valid() && Onward() && waiters == old(waiters) && pending <= old(pending) && old(ready) <= ready
        invariant forall s :: s in old(pending) && s !in pending ==> s in states && states[s].status == Failed && s in ready
        decreases |pending|
      {
        ghost var before := Tab();
        var s :| s in pending;
        FailOne(s);
        PassedTwice(old(Tab()), before, Tab());
      }
    }

    method FailOne(s: nat)
      requires Valid() && s in pending
      modifies this`pending, this`pendingRequests, this`states, this`ready
      ensures Valid() && Onward() && pending == old(pending) - {s} && ready == old(ready) + [s]
      ensures s in old(states) && states == old(states)[s := old(states)[s].(status := Failed)]
    {
      hide Sound, Later;
      PendingFacts(Tab(), s);
      Unpend(Tab(), s);
      pendingRequests := pendingRequests - if states[s].kind == Raw then 0 else 1;
      pending := pending - {s};
      Settle(s, Failed, states[s].value);
      Enqueue(s);
      PassedSame(old(Tab()), Tab());
    }

    method DetachWaits()
      requires Valid()
      modifies this`waiters, this`notifications
      ensures Valid() && Onward()
      ensures forall t :: t in waiters ==> waiters[t].on in states && !Terminal(states[waiters[t].on])
      ensures forall t :: WaitOf(Tab(), t) == WaitOf(old(Tab()), t)
    {
      hide Sound, Later, Passed;
      LaterSame(states);
      PassedSame(Tab(), Tab());
      var todo := waiters.Keys;
      while todo != {}
        invariant Valid() && Onward() && todo <= waiters.Keys && forall t :: WaitOf(Tab(), t) == WaitOf(old(Tab()), t)
        invariant forall t :: t in waiters && t !in todo ==> waiters[t].on in states && !Terminal(states[waiters[t].on])
        decreases |todo|
      {
        var t :| t in todo;
        WaitFacts(Tab(), t);
        if Terminal(states[waiters[t].on]) {
          ghost var before := Tab();
          Detached(before, t);
          waiters, notifications := waiters - {t}, notifications[t := waiters[t]];
          PassedMoved(before, Tab(), t);
          PassedTwice(old(Tab()), before, Tab());
        }
        todo := todo - {t};
      }
    }

    /** Anything resumed Lua code may call, in any order. */
    method Perform(c: Call)
      requires Valid()
      modifies this
      ensures Valid() && Onward()
    {
      hide Sound, Later, Passed;
      LaterSame(states);
      PassedSame(Tab(), Tab());
      match c {
        case New(kind) => { var s := Create(kind); }
        case Route(id) => { var routed := Dispatch(id); }
        case Begin(thread) => { if ready != [] && thread !in running { var s, over := ServeReady(thread); } }
        case End(thread, ok) => { if thread in running { var s := EndTask(thread, ok); } }
        case Await(thread, on, deadline) => { if on in states { var ok := Register(thread, on, deadline); } }
        case Resume(thread, on) => { var hit, readable := Resume(thread, on); }
        case Unregister(thread) => { if thread in waiters || thread in notifications { var s := Remove(thread, false); } }
        case Lose(thread) => { if thread in running { var s := EndTask(thread, false); } }
        case Hold(s) => { if s in states && s in live { AddHandle(s); } }
        case Release(s) => { if s in states { ReleaseHandle(s); } }
        case Cancel(id) => { Cancel(id); PassedSame(old(Tab()), Tab()); }
        case Detach => { Detach(); }
      }
    }

    method Run(calls: seq<Call>)
      requires Valid()
      modifies this
      ensures Valid() && Onward() && (calls == [] ==> Tab() == old(Tab()))
    {
      hide Sound, Later, Passed;
      LaterSame(states);
      PassedSame(Tab(), Tab());
      for i := 0 to |calls|
        invariant Valid() && Onward() && (calls == [] ==> Tab() == old(Tab()))
      {
        ghost var before := Tab();
        Perform(calls[i]);
        PassedTwice(old(Tab()), before, Tab());
      }
    }

    /** `wake`, with any calls made by each resumed coroutine. No wait that was on
        the state at the start is left, however the calls interfere; without calls
        exactly those waits are resumed. */
    method Wake(s: nat, during: seq<seq<Call>>)
      requires Valid()
      modifies this
      ensures Valid() && Onward()
      ensures Woken(old(Tab()), Tab(), {}, s)
      ensures during == [] ==> ResumedOnly(old(Tab()), Tab(), {}, s)
    {
      hide Sound, Later, Passed, ResumedOnly;
      LaterSame(states);
      PassedSame(Tab(), Tab());
      ghost var start := Tab();
      var threads := WaitingOn(waiters, notifications, s);
      var step := 0;
      ResumedNone(start, s);
      while threads != {}
        invariant Valid() && Passed(start, Tab()) && threads <= WaitingOn(start.waiters, start.notes, s)
        invariant Woken(start, Tab(), threads, s) && (during == [] ==> ResumedOnly(start, Tab(), threads, s))
        decreases |threads|
      {
        var thread :| thread in threads;
        ghost var before := Tab();
        var hit, readable := Resume(thread, s);
        PassedTwice(start, before, Tab());
        ghost var middle := Tab();
        ResumedGone(start, before, middle, thread, s, threads);
        if during == [] { ResumedNext(start, before, middle, threads, thread, s, hit); }
        Run(if step < |during| then during[step] else []);
        PassedTwice(start, middle, Tab());
        StaysGone(start, middle, Tab(), threads - {thread}, s);
        step := step + 1;
        threads := threads - {thread};
      }
    }

    /** `drainDetachedNotifications`, with any calls made by each resumed
        coroutine; what they detach is drained too. */
    method DrainNotifications(during: seq<seq<Call>>)
      requires Valid()
      modifies this
      ensures Valid() && Onward() && notifications == map[]
      ensures during == [] ==> waiters == old(waiters)
      ensures during == [] ==> forall t :: t in old(notifications) ==> old(notifications)[t].id in resumed
    {
      hide Sound, Later, Passed, ResumedNotes;
      NotesStart(Tab());
      LaterSame(states);
      PassedSame(Tab(), Tab());
      var step := 0;
      while notifications != map[]
        invariant Valid() && Onward() && step <= |during|
        invariant during == [] ==> ResumedNotes(old(Tab()), Tab())
        decreases |during| - step, |notifications|
      {
        ghost var before := Tab();
        var thread :| thread in notifications;
        OneTable(before, thread);
        Fewer(notifications, thread);
        var hit, readable := Resume(thread, notifications[thread].on);
        PassedTwice(old(Tab()), before, Tab());
        if during == [] { NotesStep(old(Tab()), before, Tab(), thread); }
        if step < |during| {
          before := Tab();
          Run(during[step]);
          PassedTwice(old(Tab()), before, Tab());
          step := step + 1;
        }
      }
      if during == [] { NotesEnd(old(Tab()), Tab()); }
    }

    /** The coroutines that are overdue, each by its own reading of the clock. */
    method CollectExpired(now: int) returns (expired: set<nat>, last: int)
      ensures now <= last && Expired(waiters, now) <= expired <= Expired(waiters, last)
    {
      expired, last := {}, now;
      var todo := waiters.Keys;
      while todo != {}
        invariant now <= last && todo <= waiters.Keys && expired <= Expired(waiters, last)
        invariant forall t :: t in Expired(waiters, now) && t !in todo ==> t in expired
        decreases |todo|
      {
        var t :| t in todo;
        if waiters[t].deadline.Some? {
          var later: int := *;
          if later > last { last := later; }
          if waiters[t].deadline.value <= last { expired := expired + {t}; }
        }
        todo := todo - {t};
      }
    }

    /** `drainExpiredWaiters`, with any calls made by each resumed coroutine. No
        wait that was over at the start is left with the timers; without calls,
        none that was not over at the last reading of the clock is touched. */
    method Expire(now: int, during: seq<seq<Call>>) returns (last: int)
      requires Valid()
      modifies this
      ensures Valid() && Onward() && now <= last && Off(old(Tab()), Tab(), Expired(old(waiters), now))
      ensures during == [] ==> Untimed(old(Tab()), Tab(), last)
      ensures during == [] ==> forall t :: t in Expired(old(waiters), now) ==> old(waiters)[t].id in resumed
    {
      hide Sound, Later, Passed, Untimed, Off, ResumedOverdue;
      ghost var start := Tab();
      var expired, clock := CollectExpired(now);
      ExpireStart(start, clock);
      OverdueStart(start, expired);
      last := clock;
      ghost var over, gone := expired, {};
      var step := 0;
      while expired != {}
        invariant Valid() && Passed(start, Tab()) && gone + expired == over && now <= clock <= last
        invariant over <= Expired(start.waiters, clock)
        invariant Off(start, Tab(), gone) && Expired(start.waiters, now) <= over
        invariant during == [] ==> last == clock && Untimed(start, Tab(), clock)
        invariant during == [] ==> ResumedOverdue(start, Tab(), over, expired)
        decreases |expired|
      {
        var thread :| thread in expired;
        var later: int := *;
        if during != [] && later > last { last := later; }
        ghost var before := Tab();
        ExpireOne(thread, last, if step < |during| then during[step] else [], start, gone);
        if during == [] {
          UntimedStep(start, before, Tab(), thread, clock);
          OverdueStep(start, before, Tab(), over, expired, thread);
        }
        step := step + 1;
        expired, gone := expired - {thread}, gone + {thread};
      }
      assert gone == over;
      OffLess(start, Tab(), Expired(start.waiters, now), gone);
      if during == [] { OverdueEnd(start, Tab(), over); }
    }

    /** One coroutine of the loop, looked up again before it is resumed. */
    method ExpireOne(thread: nat, clock: int, calls: seq<Call>, ghost start: Table, ghost gone: set<nat>)
      requires Valid() && Sound(start) && Passed(start, Tab()) && Off(start, Tab(), gone)
      requires thread in start.waiters && thread in Expired(start.waiters, clock)
      modifies this
      ensures Valid() && Passed(start, Tab()) && Off(start, Tab(), gone + {thread})
      ensures calls == [] ==> notifications == old(notifications) && old(waiters) - {thread} == waiters - {thread}
      ensures calls == [] ==> old(resumed) <= resumed
      ensures calls == [] && thread in old(waiters) && old(waiters)[thread] == start.waiters[thread] ==> start.waiters[thread].id in resumed
    {
      hide Sound, Later, Passed;
      if thread in waiters && thread in Expired(waiters, clock) {
        ghost var before := Tab();
        OneTable(before, thread);
        var hit, readable := Resume(thread, waiters[thread].on);
        StaysOff(start, before, Tab(), gone);
        PassedTwice(start, before, Tab());
      }
      ghost var middle := Tab();
      if calls == [] { return; }
      Run(calls);
      StaysOff(start, middle, Tab(), gone + {thread});
      PassedTwice(start, middle, Tab());
    }
  }
}
