/** The cleanup ledger under every interleaving. The worker's drain is cut at
    each point where it gives up the mutex; between any two of its critical
    sections the owner threads may run any number of theirs. */
module LedgerRuns {
  import opened Common
  import opened MapSum
  import opened LedgerSpec

  /** Where the receive worker stands with respect to a drain. */
  datatype Worker =
    | Outside
    | Waiting                        // in the active-send barrier
    | Choosing                       // about to pick work
    | Working(id: int, work: Work)   // performing an effect, mutex released
    | Receiving                      // in transport.receive, mutex released
    | Counting                       // item observed, not yet counted
    | Failing                        // an exception is on its way to the handler
    | Leaving                        // the drain lease is still held

  datatype Sys = Sys(l: Ledger, w: Worker)

  datatype Step =
    // owner threads, enabled in every state
    | Register(id: int, room: bool)
    | Begin(id: int, close: bool)
    | End(id: int, close: bool, success: bool)
    | DropUnsent(id: int)
    | Reject(id: int)
    | EnterAgain
    // the worker outside a drain
    | See(id: int, terminal: bool)
    | Acked(id: int)
    | Enter
    // the worker inside a drain
    | Wake(order: seq<int>)
    | GiveUpWaiting
    | Choose(late: bool)
    | Finish(thrown: bool)
    | ReceiveNothing
    | ReceiveItem(id: int, terminal: bool)
    | ReceiveThrows
    | Count
    | Handle
    | Leave

  const START := Sys(EMPTY, Outside)

  ghost predicate Enabled(s: Sys, e: Step) {
    match e
    case Register(_, _) => true
    case Begin(_, _) => true
    case End(_, _, _) => true
    case DropUnsent(_) => true
    case Reject(_) => true
    case EnterAgain => s.w != Outside
    case See(_, _) => s.w == Outside
    case Acked(_) => s.w == Outside
    case Enter => s.w == Outside
    case Wake(order) => s.w == Waiting && (s.l.broken || (NoSends(s.l) && Enumerates(s.l, order)))
    case GiveUpWaiting => s.w == Waiting && !s.l.broken && !NoSends(s.l)
    case Choose(_) => s.w == Choosing && Heads(s.l)
    case Finish(_) => s.w.Working? && s.w.id in s.l.records
    case ReceiveNothing => s.w == Receiving
    case ReceiveItem(_, _) => s.w == Receiving
    case ReceiveThrows => s.w == Receiving
    case Count => s.w == Counting
    case Handle => s.w == Failing
    case Leave => s.w == Leaving
  }

  /** Queue heads name live records; `QueuesSound` shows that they always do. */
  predicate Heads(l: Ledger) {
    l.notify != [] || l.close != [] ==> NextWork(l).0 in l.records
  }

  /** One pass through the head of the drain loop. */
  function Chosen(l: Ledger, late: bool): Sys
    requires Heads(l)
  {
    if l.broken then Sys(l.(phase := Error), Leaving)
    else if Drained(l) then Sys(l.(phase := Quiescent), Leaving)
    else if late then Sys(l.(phase := Deadline), Leaving)
    else if l.notify != [] || l.close != [] then Sys(Take(l), Working(NextWork(l).0, NextWork(l).1))
    else Sys(l, Receiving)
  }

  ghost function Apply(s: Sys, e: Step): Sys
    requires Enabled(s, e)
  {
    var l := s.l;
    match e
    case Register(id, room) => s.(l := LedgerSpec.Register(l, id, room))
    case Begin(id, close) => s.(l := BeginSend(l, id, close))
    case End(id, close, success) => s.(l := EndSend(l, id, close, success))
    case DropUnsent(id) => s.(l := RetireUnsent(l, id))
    case Reject(id) => s.(l := RejectShutdown(l, id))
    case EnterAgain => s.(l := DrainEnter(l))
    case See(id, terminal) => s.(l := Observe(l, id, terminal))
    case Acked(id) => s.(l := Acknowledge(l, id))
    case Enter => Sys(DrainEnter(l), if l.broken || l.draining then Outside else Waiting)
    case Wake(order) =>
      if l.broken then Sys(l.(phase := Error), Leaving) else Sys(Barrier(l, order), Choosing)
    case GiveUpWaiting => Sys(l.(phase := Deadline), Leaving)
    case Choose(late) => Chosen(l, late)
    case Finish(thrown) =>
      Sys(FinishWork(l, s.w.id, s.w.work, thrown), if thrown then Failing else Choosing)
    case ReceiveNothing => s.(w := Choosing)
    case ReceiveItem(id, terminal) =>
      if Lookup(l, id) == Foreign then s.(w := Failing) else Sys(Observe(l, id, terminal), Counting)
    case ReceiveThrows => s.(w := Failing)
    case Count => Sys(CountAbandoned(l), Choosing)
    case Handle => Sys(Caught(l), Leaving)
    case Leave => Sys(LedgerSpec.Leave(l), Outside)
  }

  /** `steps` is a run from `s` to `t`. */
  ghost predicate Run(s: Sys, steps: seq<Step>, t: Sys)
    decreases |steps|
  {
    if steps == [] then s == t
    else Enabled(s, steps[0]) && Run(Apply(s, steps[0]), steps[1..], t)
  }

  /** Steps that an owner thread may take whenever the mutex is free. */
  predicate Owned(e: Step) {
    e.Register? || e.Begin? || e.End? || e.DropUnsent? || e.Reject? || e.EnterAgain?
  }

  lemma {:induction false} RunThen(s: Sys, steps: seq<Step>, t: Sys, more: seq<Step>, u: Sys)
    requires Run(s, steps, t) && Run(t, more, u)
    ensures Run(s, steps + more, u)
    decreases |steps|
  {
    if steps == [] {
      assert steps + more == more;
    } else {
      RunThen(Apply(s, steps[0]), steps[1..], t, more, u);
      assert (steps + more)[1..] == steps[1..] + more;
    }
  }

  lemma RunStep(s: Sys, steps: seq<Step>, t: Sys, e: Step)
    requires Run(s, steps, t) && Enabled(t, e)
    ensures Run(s, steps + [e], Apply(t, e))
  {
    assert Run(Apply(t, e), [e][1..], Apply(t, e));
    RunThen(s, steps, t, [e], Apply(t, e));
  }

  // Invariants.

  /** The worker is between the barrier of a drain and its exit. */
  predicate Past(w: Worker) {
    w.Choosing? || w.Working? || w.Receiving? || w.Counting? || w.Failing?
  }

  ghost predicate Linkable(l: Ledger) {
    && Distinct(l.notify) && Distinct(l.close)
    && (forall id :: id in l.notify ==> id in l.records && id !in l.close)
    && (forall id :: id in l.close ==> id in l.records)
  }

  /** Each record is in the queue its flags call for. The one exception is an
      identity never sent to, which waits for the next barrier. */
  ghost predicate Queued(l: Ledger, id: int)
    requires id in l.records
  {
    var r := l.records[id];
    WorkOf(l, id) == Desired(l.failed, r) || (WorkOf(l, id) == NoWork && !r.materialized)
  }

  ghost predicate QueuesSound(l: Ledger) {
    Linkable(l) && forall id :: id in l.records ==> Queued(l, id)
  }

  /** What holds of the flags `r` of identity `id`, given what has happened. */
  ghost predicate RecordSound(g: Log, w: Worker, id: int, r: Flags) {
    && !Ready(r) && id !in g.aborted
    && (r.terminal ==> r.materialized && !r.uncertain)
    && (r.busy <==> w.Working? && w.id == id)
    && (r.notified && !r.terminal ==> r.busy && !r.materialized && !r.uncertain && r.active == 0)
    && (Past(w) ==> r.active == 0)
    && (r.terminal <==> id in g.observed)
    && (r.notified && r.terminal ==> id in g.delivered)
    && (r.notified && !r.terminal <==> id in g.unused)
    && (id in g.closed ==> r.materialized && (r.closeSent || r.closeUncertain || w == Working(id, CloseWork)))
    && (w == Working(id, CloseWork) ==> r.materialized && !r.terminal && id in g.closed)
    && (w == Working(id, NotifyWork) ==> r.terminal || (!r.materialized && !r.uncertain))
  }

  ghost predicate RecordsSound(l: Ledger, w: Worker) {
    forall id :: id in l.records ==> id in l.history && RecordSound(l.log, w, id, l.records[id])
  }

  /** An identity without a record was dropped unused, or its terminal was
      observed and then delivered, or its registration failed. */
  ghost predicate Accounted(l: Ledger) {
    forall id :: id in l.history && id !in l.records ==>
      Over(l.log, id)
  }

  predicate Over(g: Log, id: int) {
    id in g.unused || (id in g.observed && id in g.delivered) || id in g.aborted
  }

  ghost predicate LogSound(g: Log, history: set<int>, t: Totals) {
    && Distinct(g.closed) && (forall id :: id in g.closed ==> id in history)
    && g.observed <= history && g.unused <= history && g.delivered <= g.observed
    && g.aborted <= history && g.observed !! g.unused && g.aborted !! g.observed && g.aborted !! g.unused
    && t.terminals == |g.observed| && t.unused == |g.unused|
  }

  ghost predicate GlobalSound(l: Ledger, w: Worker) {
    && LogSound(l.log, l.history, l.totals)
    && (l.draining <==> w != Outside)
    && (w != Outside || l.log.closed != [] ==> l.failed)
    && (w.Working? ==> w.id in l.records && w.work != NoWork)
    && (l.phase == Quiescent ==> l.records == map[] && l.failed)
  }

  ghost predicate TotalsSound(l: Ledger) {
    l.totals.materialized == l.totals.terminals + Sum(l.records, RemainingW)
  }

  /** How many more times a record may still be picked by the drain in progress. */
  function BudgetW(r: Flags): nat {
    if r.notified then 0
    else if r.busy then (if r.materialized && !r.terminal then 1 else 0)
    else if r.terminal || r.closeSent || r.closeUncertain then 1
    else 2
  }

  ghost function Budget(l: Ledger, w: Worker): nat {
    if Past(w) && !w.Failing? then Sum(l.records, BudgetW) else 0
  }

  ghost predicate VisitsSound(l: Ledger, w: Worker) {
    l.totals.visits + Budget(l, w) <= l.log.base + 3 * l.log.live
  }

  ghost predicate Inv(s: Sys) {
    && QueuesSound(s.l)
    && RecordsSound(s.l, s.w)
    && Accounted(s.l)
    && GlobalSound(s.l, s.w)
    && TotalsSound(s.l)
    && VisitsSound(s.l, s.w)
  }

  // Queue maintenance.

  lemma UnlinkLinks(l: Ledger, id: int)
    requires Linkable(l)
    ensures Linkable(Unlink(l, id)) && WorkOf(Unlink(l, id), id) == NoWork
    ensures forall j :: j != id ==> WorkOf(Unlink(l, id), j) == WorkOf(l, j)
  {
    WithoutMembers(l.notify, id);
    WithoutMembers(l.close, id);
  }

  /** Queueing an unlisted record moves no other. */
  lemma AppendLinks(u: Ledger, id: int)
    requires Linkable(u) && id in u.records && WorkOf(u, id) == NoWork
    ensures var t := u.(notify := u.notify + [id]);
      Linkable(t) && WorkOf(t, id) == NotifyWork && forall j :: j != id ==> WorkOf(t, j) == WorkOf(u, j)
    ensures var t := u.(close := u.close + [id]);
      Linkable(t) && WorkOf(t, id) == CloseWork && forall j :: j != id ==> WorkOf(t, j) == WorkOf(u, j)
  {
  }

  /** Requeueing one record settles it and moves no other. */
  lemma RefreshLinks(l: Ledger, id: int)
    requires Linkable(l) && id in l.records
    ensures Linkable(Refresh(l, id)) && WorkOf(Refresh(l, id), id) == Desired(l.failed, l.records[id])
    ensures forall j :: j != id ==> WorkOf(Refresh(l, id), j) == WorkOf(l, j)
    ensures Refresh(l, id) == l.(notify := Refresh(l, id).notify, close := Refresh(l, id).close)
  {
    hide Linkable, WorkOf, Desired, Without;
    UnlinkLinks(l, id);
    AppendLinks(Unlink(l, id), id);
  }

  /** `Settle` touches the record named and the two queues, nothing else. */
  lemma SettleFrame(l: Ledger, id: int, r: Flags)
    ensures Settle(l, id, r).records == if Ready(r) then l.records - {id} else l.records[id := r]
    ensures var t := Settle(l, id, r);
      t == l.(records := t.records, notify := t.notify, close := t.close)
    ensures var t := Refresh(Put(l, id, r), id);
      t == l.(records := l.records[id := r], notify := t.notify, close := t.close)
  {
    assert l.records[id := r] - {id} == l.records - {id};
  }

  /** The queue part of every transition that ends in `Settle`. */
  lemma SettleLinks(l: Ledger, id: int, r: Flags)
    requires Linkable(l) && (forall j :: j in l.records && j != id ==> Queued(l, j))
    ensures QueuesSound(Settle(l, id, r)) && QueuesSound(Refresh(Put(l, id, r), id))
  {
    SettleFrame(l, id, r);
    var p := Put(l, id, r);
    RefreshLinks(p, id);
    var q := Refresh(p, id);
    assert forall j :: j in q.records && j != id ==> Queued(l, j) && Queued(q, j);
    if Ready(r) {
      UnlinkLinks(q, id);
      var t := Settle(l, id, r);
      assert t.records == l.records - {id};
      assert forall j :: j in t.records ==> Queued(q, j) && Queued(t, j);
    }
  }

  lemma SettleSum(l: Ledger, id: int, r: Flags, w: Flags -> nat)
    requires id in l.records && (Ready(r) ==> w(r) == 0)
    ensures Sum(Refresh(Put(l, id, r), id).records, w) == Sum(l.records, w) - w(l.records[id]) + w(r)
    ensures Sum(Settle(l, id, r).records, w) == Sum(l.records, w) - w(l.records[id]) + w(r)
  {
    SumReplace(l.records, id, r, w);
    if Ready(r) {
      SumSplit(l.records[id := r], id, w);
    }
  }

  lemma TouchSums(l: Ledger, id: int, r: Flags)
    requires id in l.records
    ensures forall t :: t == Settle(l, id, r).records || t == Refresh(Put(l, id, r), id).records ==>
      && Sum(t, RemainingW) == Sum(l.records, RemainingW) - RemainingW(l.records[id]) + RemainingW(r)
      && Sum(t, BudgetW) == Sum(l.records, BudgetW) - BudgetW(l.records[id]) + BudgetW(r)
  {
    SettleSum(l, id, r, RemainingW);
    SettleSum(l, id, r, BudgetW);
  }

  /** `u` is `l` except for totals and for what the log says of `id`. */
  ghost predicate SameElsewhere(l: Ledger, u: Ledger, id: int) {
    && u == l.(totals := u.totals, log := u.log)
    && u.log.closed == l.log.closed && u.log.aborted == l.log.aborted
    && forall j :: j != id ==>
         && (j in u.log.observed <==> j in l.log.observed)
         && (j in u.log.delivered <==> j in l.log.delivered)
         && (j in u.log.unused <==> j in l.log.unused)
  }

  ghost predicate SameDuty(w: Worker, v: Worker, id: int) {
    && (Past(v) ==> Past(w))
    && forall j, k :: j != id ==> (w == Working(j, k) <==> v == Working(j, k))
  }

  /** The record part of every transition that concerns one identity. */
  lemma TouchRecords(s: Sys, u: Ledger, id: int, r: Flags, v: Worker)
    requires Inv(s) && id in s.l.records && SameElsewhere(s.l, u, id) && SameDuty(s.w, v, id)
    requires !Ready(r) ==> RecordSound(u.log, v, id, r)
    requires Ready(r) ==> id in u.log.unused || (id in u.log.observed && id in u.log.delivered)
    ensures var t := Settle(u, id, r); QueuesSound(t) && RecordsSound(t, v) && Accounted(t)
    ensures var t := Refresh(Put(u, id, r), id);
      !Ready(r) ==> QueuesSound(t) && RecordsSound(t, v) && Accounted(t)
  {
    forall j | j in u.records && j != id ensures Queued(u, j) && RecordSound(u.log, v, j, u.records[j]) {
      assert Queued(s.l, j) && RecordSound(s.l.log, s.w, j, s.l.records[j]);
      assert forall k :: s.w == Working(j, k) <==> v == Working(j, k);
      if s.w.Working? && s.w.id == j { assert s.w == Working(j, s.w.work); }
      if v.Working? && v.id == j { assert v == Working(j, v.work); }
    }
    SettleLinks(u, id, r);
    SettleFrame(u, id, r);
  }

  /** What a transition of one identity must show of its own flags, totals and
      log; everything else is kept by `TouchKeeps`. */
  ghost predicate Touchable(s: Sys, u: Ledger, id: int, r: Flags, v: Worker) {
    && id in s.l.records && SameElsewhere(s.l, u, id) && SameDuty(s.w, v, id)
    && (!Ready(r) ==> RecordSound(u.log, v, id, r))
    && (Ready(r) ==> id in u.log.unused || (id in u.log.observed && id in u.log.delivered))
    && LogSound(u.log, u.history, u.totals)
    && (u.draining <==> v != Outside)
    && (v.Working? ==> v == s.w && (v.id == id ==> !Ready(r)))
    && u.totals.materialized + RemainingW(s.l.records[id]) + s.l.totals.terminals ==
       s.l.totals.materialized + u.totals.terminals + RemainingW(r)
    && u.totals.visits == s.l.totals.visits && u.log.base == s.l.log.base && u.log.live == s.l.log.live
    && (Past(v) && !v.Failing? ==> !s.w.Failing? && BudgetW(r) <= BudgetW(s.l.records[id]))
  }

  lemma TouchKeeps(s: Sys, u: Ledger, id: int, r: Flags, v: Worker)
    requires Inv(s) && Touchable(s, u, id, r, v)
    ensures Inv(Sys(Settle(u, id, r), v))
    ensures !Ready(r) ==> Inv(Sys(Refresh(Put(u, id, r), id), v))
  {
    TouchRecords(s, u, id, r, v);
    TouchSums(u, id, r);
    SettleFrame(u, id, r);
  }

  // Every step keeps the invariant.

  lemma RegisterKeeps(s: Sys, id: int, room: bool)
    requires Inv(s)
    ensures Inv(Apply(s, Step.Register(id, room)))
  {
    if CanRegister(s.l, id) {
      SumInsert(s.l.records, id, FRESH, RemainingW);
    }
  }

  lemma BeginKeeps(s: Sys, id: int, close: bool)
    requires Inv(s)
    ensures Inv(Apply(s, Begin(id, close)))
  {
    if Admit(s.l, id, close) == Admitted {
      var r := s.l.records[id].(active := s.l.records[id].active + 1);
      SumReplace(s.l.records, id, r, RemainingW);
    }
  }

  lemma EndKeeps(s: Sys, id: int, close: bool, success: bool)
    requires Inv(s)
    ensures Inv(Apply(s, End(id, close, success)))
  {
    if SendOpen(s.l, id) {
      var r := s.l.records[id].(active := s.l.records[id].active - 1);
      var u := s.l.(totals := SentTotals(s.l.totals, r, close, success));
      TouchKeeps(s, u, id, SentFlags(r, close, success), s.w);
    }
  }

  lemma DropUnsentKeeps(s: Sys, id: int)
    requires Inv(s)
    ensures Inv(Apply(s, DropUnsent(id)))
  {
    if id in s.l.records && Unsent(s.l, id) {
      var r := s.l.records[id];
      var u := if r.notified then s.l else Dropped(s.l, id);
      assert RecordSound(s.l.log, s.w, id, r);
      assert r.notified || |u.log.unused| == |s.l.log.unused| + 1;
      TouchKeeps(s, u, id, r.(notified := true), s.w);
    }
  }

  lemma RejectKeeps(s: Sys, id: int)
    requires Inv(s)
    ensures Inv(Apply(s, Reject(id)))
  {
    var l := s.l;
    if !l.failed && id in l.records && !l.records[id].terminal {
      var r := l.records[id].(closeSent := false, closeUncertain := false);
      TouchKeeps(s, l, id, r, s.w);
    }
  }

  lemma ObserveTouches(s: Sys, u: Ledger, id: int, terminal: bool, w: Worker)
    requires Inv(s) && ((s.w == Outside && w == Outside) || (s.w == Receiving && w == Counting)) && Lookup(s.l, id) == Known
    requires u == s.l.(totals := ObservedTotals(s.l.totals, s.l.records[id], terminal),
                       log := if terminal then s.l.log.(observed := s.l.log.observed + {id}) else s.l.log)
    ensures Touchable(s, u, id, ObservedFlags(s.l.records[id], terminal), w)
  {
    assert RecordSound(s.l.log, s.w, id, s.l.records[id]);
    ObservedRecord(s.l.log, u.log, s.w, w, id, s.l.records[id], terminal);
    hide RecordSound;
  }

  lemma ObservedRecord(g: Log, h: Log, v: Worker, w: Worker, id: int, r: Flags, terminal: bool)
    requires RecordSound(g, v, id, r) && ((v == Outside && w == Outside) || (v == Receiving && w == Counting))
    requires h == if terminal then g.(observed := g.observed + {id}) else g
    ensures var f := ObservedFlags(r, terminal);
      && (!Ready(f) ==> RecordSound(h, w, id, f))
      && (Ready(f) ==> id in h.unused || (id in h.observed && id in h.delivered))
  {
  }

  lemma ObserveKeeps(s: Sys, id: int, terminal: bool, w: Worker)
    requires Inv(s) && ((s.w == Outside && w == Outside) || (s.w == Receiving && w == Counting))
    ensures Inv(Sys(Observe(s.l, id, terminal), w))
  {
    var l := s.l;
    if Lookup(l, id) == Known {
      var r := l.records[id];
      var u := l.(totals := ObservedTotals(l.totals, r, terminal),
                  log := if terminal then l.log.(observed := l.log.observed + {id}) else l.log);
      ObserveTouches(s, u, id, terminal, w);
      hide Touchable, Inv;
      TouchKeeps(s, u, id, ObservedFlags(r, terminal), w);
      if terminal && r.terminal { assert l.log.observed + {id} == l.log.observed; }
    }
  }

  lemma AckedKeeps(s: Sys, id: int)
    requires Inv(s) && s.w == Outside
    ensures Inv(Apply(s, Acked(id)))
  {
    var l := s.l;
    if id in l.records && l.records[id].terminal {
      var u := l.(log := l.log.(delivered := l.log.delivered + {id}));
      var r := l.records[id].(notified := true);
      TouchKeeps(s, u, id, r, s.w);
    }
  }

  lemma {:induction false} RefreshAllLinks(l: Ledger, order: seq<int>)
    requires QueuesSound(l) && forall id :: id in order ==> id in l.records
    ensures QueuesSound(RefreshAll(l, order))
  {
    if order != [] {
      var t := RefreshAll(l, order[..|order| - 1]);
      RefreshAllLinks(l, order[..|order| - 1]);
      var id := order[|order| - 1];
      RefreshLinks(t, id);
      assert forall j :: j in t.records && j != id ==> Queued(t, j) && Queued(Refresh(t, id), j);
    }
  }

  lemma BarrierLinks(l: Ledger, order: seq<int>)
    requires QueuesSound(l) && Enumerates(l, order)
    ensures QueuesSound(Barrier(l, order))
  {
    var u := l.(totals := l.totals.(visits := l.totals.visits + |l.records|),
                log := l.log.(base := l.totals.visits, live := |l.records|));
    assert forall id :: id in u.records ==> Queued(l, id) && Queued(u, id);
    RefreshAllLinks(u, order);
  }

  lemma WakeKeeps(s: Sys, order: seq<int>)
    requires Inv(s) && Enabled(s, Wake(order))
    ensures Inv(Apply(s, Wake(order)))
  {
    var l := s.l;
    if !l.broken {
      BarrierLinks(l, order);
      SumAtMostTwice(l.records, BudgetW);
      var t := Apply(s, Wake(order));
      assert t.l == l.(notify := t.l.notify, close := t.l.close, totals := t.l.totals, log := t.l.log);
      assert VisitsSound(t.l, t.w);
      forall id | id in t.l.records ensures RecordSound(t.l.log, t.w, id, t.l.records[id]) {
        assert RecordSound(l.log, s.w, id, l.records[id]);
      }
    } else {
      PhaseKeeps(s, Error, Leaving);
    }
  }

  /** Changing the phase, or leaving the protected part of a drain. */
  lemma PhaseKeeps(s: Sys, p: Phase, v: Worker)
    requires Inv(s) && s.w != Outside && !s.w.Working?
    requires v == Leaving && (p == Quiescent ==> s.l.records == map[])
    ensures Inv(Sys(s.l.(phase := p), v))
  {
    var t := Sys(s.l.(phase := p), v);
    assert forall id :: id in t.l.records ==> Queued(s.l, id) && Queued(t.l, id);
    forall id | id in t.l.records ensures RecordSound(t.l.log, t.w, id, t.l.records[id]) {
      assert RecordSound(s.l.log, s.w, id, s.l.records[id]);
    }
  }

  /** The record to be picked is live and its flags call for the work. */
  lemma PickDue(l: Ledger)
    requires QueuesSound(l) && (l.notify != [] || l.close != [])
    ensures var (id, work) := NextWork(l);
      id in l.records && WorkOf(l, id) == work && work == Desired(l.failed, l.records[id]) && work != NoWork
  {
    assert Queued(l, NextWork(l).0);
  }

  lemma QueueHeads(s: Sys)
    requires Inv(s)
    ensures Heads(s.l)
  {
    hide RecordsSound, Accounted, GlobalSound, TotalsSound, VisitsSound;
    if s.l.notify != [] || s.l.close != [] { PickDue(s.l); }
  }

  lemma TakeQueues(l: Ledger)
    requires QueuesSound(l) && Heads(l) && (l.notify != [] || l.close != [])
    ensures QueuesSound(Take(l))
  {
    var id, t := NextWork(l).0, Take(l);
    UnlinkLinks(l, id);
    assert forall j :: j in t.records && j != id ==> Queued(l, j) && Queued(t, j);
  }

  lemma TakeRecords(s: Sys)
    requires RecordsSound(s.l, s.w) && QueuesSound(s.l) && s.w == Choosing && (s.l.notify != [] || s.l.close != []) && Heads(s.l)
    ensures RecordsSound(Take(s.l), Working(NextWork(s.l).0, NextWork(s.l).1))
  {
    hide Without;
    var l := s.l;
    var (id, work) := NextWork(l);
    PickDue(l);
    hide QueuesSound, WorkOf;
    var t, w := Take(l), Working(id, work);
    assert t.records == l.records[id := l.records[id].(busy := true)];
    forall j | j in t.records ensures j in t.history && RecordSound(t.log, w, j, t.records[j]) {
      assert RecordSound(l.log, s.w, j, l.records[j]);
    }
  }

  lemma TakeCounts(s: Sys)
    requires RecordsSound(s.l, s.w) && QueuesSound(s.l) && TotalsSound(s.l) && VisitsSound(s.l, s.w)
    requires s.w == Choosing && (s.l.notify != [] || s.l.close != []) && Heads(s.l)
    ensures TotalsSound(Take(s.l)) && VisitsSound(Take(s.l), Working(NextWork(s.l).0, NextWork(s.l).1))
  {
    var l, id := s.l, NextWork(s.l).0;
    PickDue(l);
    assert RecordSound(l.log, s.w, id, l.records[id]);
    hide QueuesSound, RecordsSound, WorkOf;
    var r := l.records[id];
    SumReplace(l.records, id, r.(busy := true), RemainingW);
    SumReplace(l.records, id, r.(busy := true), BudgetW);
  }

  lemma TakeRest(s: Sys)
    requires Inv(s) && s.w == Choosing && (s.l.notify != [] || s.l.close != []) && Heads(s.l)
    ensures Accounted(Take(s.l)) && GlobalSound(Take(s.l), Working(NextWork(s.l).0, NextWork(s.l).1))
  {
    var l, id := s.l, NextWork(s.l).0;
    PickDue(l);
    assert RecordSound(l.log, s.w, id, l.records[id]);
    hide QueuesSound, RecordsSound, WorkOf, TotalsSound, VisitsSound;
  }

  lemma TakeKeeps(s: Sys)
    requires Inv(s) && s.w == Choosing && (s.l.notify != [] || s.l.close != [])
    ensures Heads(s.l) && NextWork(s.l).0 in s.l.records
    ensures Inv(Sys(Take(s.l), Working(NextWork(s.l).0, NextWork(s.l).1)))
  {
    hide QueuesSound, RecordsSound, Accounted, GlobalSound, TotalsSound, VisitsSound, Take;
    QueueHeads(s);
    TakeQueues(s.l);
    TakeRecords(s);
    TakeCounts(s);
    TakeRest(s);
  }

  /** What an effect leaves for its locked tail, short of the record itself. */
  function Finishing(l: Ledger, id: int, work: Work, thrown: bool): Ledger
    requires id in l.records
  {
    l.(totals := FinishTotals(l.totals, l.records[id], work, thrown), log := FinishLog(l.log, id, l.records[id], work, thrown))
  }

  /** The record of an effect in progress is still there. */
  lemma WorkingFacts(s: Sys)
    requires Inv(s) && s.w.Working?
    ensures s.w.id in s.l.records && s.w.id in s.l.history && s.w.work != NoWork
    ensures RecordSound(s.l.log, s.w, s.w.id, s.l.records[s.w.id]) && LogSound(s.l.log, s.l.history, s.l.totals)
    ensures s.l.draining
  {
    hide QueuesSound, Accounted, TotalsSound, VisitsSound;
  }

  lemma FinishRecord(g: Log, id: int, r: Flags, work: Work, thrown: bool)
    requires RecordSound(g, Working(id, work), id, r) && work != NoWork
    ensures var h, t, v := FinishLog(g, id, r, work, thrown), FinishFlags(r, work, thrown), if thrown then Failing else Choosing;
      && (!Ready(t) ==> RecordSound(h, v, id, t))
      && (Ready(t) ==> id in h.unused || (id in h.observed && id in h.delivered))
  {
  }

  lemma FinishLogs(l: Ledger, id: int, work: Work, thrown: bool)
    requires id in l.records && id in l.history && LogSound(l.log, l.history, l.totals)
    requires RecordSound(l.log, Working(id, work), id, l.records[id]) && work != NoWork
    ensures var u := Finishing(l, id, work, thrown); LogSound(u.log, u.history, u.totals) && SameElsewhere(l, u, id)
  {
    var u := Finishing(l, id, work, thrown);
    assert u.log.unused == l.log.unused || (id !in l.log.unused && u.log.unused == l.log.unused + {id});
  }

  lemma FinishCounts(g: Log, id: int, r: Flags, t: Totals, work: Work, thrown: bool)
    requires RecordSound(g, Working(id, work), id, r) && work != NoWork
    ensures var u, q := FinishTotals(t, r, work, thrown), FinishFlags(r, work, thrown);
      && u.materialized + RemainingW(r) + t.terminals == t.materialized + u.terminals + RemainingW(q)
      && u.visits == t.visits && (!thrown ==> BudgetW(q) <= BudgetW(r))
  {
  }

  lemma FinishTouches(s: Sys, thrown: bool)
    requires Inv(s) && s.w.Working? && s.w.id in s.l.records
    ensures Touchable(s, Finishing(s.l, s.w.id, s.w.work, thrown), s.w.id, FinishFlags(s.l.records[s.w.id], s.w.work, thrown),
                      if thrown then Failing else Choosing)
  {
    var l, id, work := s.l, s.w.id, s.w.work;
    WorkingFacts(s);
    assert s.w == Working(id, work);
    FinishRecord(l.log, id, l.records[id], work, thrown);
    FinishLogs(l, id, work, thrown);
    FinishCounts(l.log, id, l.records[id], l.totals, work, thrown);
    FinishKeepsBase(l.log, id, l.records[id], work, thrown);
    hide Inv, RecordSound, LogSound, SameElsewhere, FinishFlags, FinishTotals, FinishLog, BudgetW, RemainingW, Ready;
  }

  lemma FinishKeepsBase(g: Log, id: int, r: Flags, work: Work, thrown: bool)
    ensures var h := FinishLog(g, id, r, work, thrown); h.base == g.base && h.live == g.live
  {
  }

  lemma FinishKeeps(s: Sys, thrown: bool)
    requires Inv(s) && s.w.Working?
    ensures Enabled(s, Finish(thrown)) && Inv(Apply(s, Finish(thrown)))
  {
    hide Touchable, Inv, FinishFlags, FinishTotals, FinishLog, Settle;
    WorkingFacts(s);
    FinishTouches(s, thrown);
    TouchKeeps(s, Finishing(s.l, s.w.id, s.w.work, thrown), s.w.id, FinishFlags(s.l.records[s.w.id], s.w.work, thrown),
               if thrown then Failing else Choosing);
  }

  /** Between effects, a terminal record always waits in the notification queue. */
  lemma TerminalWaits(s: Sys, id: int)
    requires Inv(s) && s.w == Choosing && id in s.l.records && s.l.records[id].terminal
    ensures id in s.l.notify
  {
    assert Queued(s.l, id);
    assert RecordSound(s.l.log, s.w, id, s.l.records[id]);
  }

  /** With empty queues and every record terminal, no record is left. */
  lemma DrainedEmpty(s: Sys)
    requires Inv(s) && s.w == Choosing && Drained(s.l)
    ensures s.l.records == map[]
  {
    forall id | id in s.l.records ensures id in s.l.notify {
      TerminalWaits(s, id);
    }
  }

  /** With nothing to do the worker listens. */
  lemma ListenKeeps(s: Sys)
    requires Inv(s) && s.w == Choosing
    ensures Inv(Sys(s.l, Receiving))
  {
    hide QueuesSound, Accounted, TotalsSound;
    forall id | id in s.l.records ensures RecordSound(s.l.log, Receiving, id, s.l.records[id]) {
      assert RecordSound(s.l.log, s.w, id, s.l.records[id]);
    }
  }

  lemma ChooseKeeps(s: Sys, late: bool)
    requires Inv(s) && s.w == Choosing
    ensures Enabled(s, Choose(late)) && Inv(Apply(s, Choose(late)))
  {
    hide Inv, Take, Drained;
    QueueHeads(s);
    var l := s.l;
    if l.broken {
      PhaseKeeps(s, Error, Leaving);
    } else if Drained(l) {
      DrainedEmpty(s);
      PhaseKeeps(s, Quiescent, Leaving);
    } else if late {
      PhaseKeeps(s, Deadline, Leaving);
    } else if l.notify != [] || l.close != [] {
      TakeKeeps(s);
    } else {
      ListenKeeps(s);
    }
  }

  lemma StepKeeps(s: Sys, e: Step)
    requires Inv(s) && Enabled(s, e)
    ensures Inv(Apply(s, e))
  {
    match e
    case Register(id, room) => RegisterKeeps(s, id, room);
    case Begin(id, close) => BeginKeeps(s, id, close);
    case End(id, close, success) => EndKeeps(s, id, close, success);
    case DropUnsent(id) => DropUnsentKeeps(s, id);
    case Reject(id) => RejectKeeps(s, id);
    case See(id, terminal) => ObserveKeeps(s, id, terminal, Outside);
    case Acked(id) => AckedKeeps(s, id);
    case Wake(order) => WakeKeeps(s, order);
    case Choose(late) => ChooseKeeps(s, late);
    case Finish(thrown) => FinishKeeps(s, thrown);
    case ReceiveItem(id, terminal) =>
      if Lookup(s.l, id) != Foreign { ObserveKeeps(s, id, terminal, Counting); }
    case _ => PlainKeeps(s, e);
  }

  /** Steps that move only the phase, a total or the worker. */
  lemma PlainKeeps(s: Sys, e: Step)
    requires Inv(s) && Enabled(s, e)
    requires e.EnterAgain? || e.Enter? || e.GiveUpWaiting? || e.ReceiveNothing? || e.ReceiveThrows? ||
             e.Count? || e.Handle? || e.Leave?
    ensures Inv(Apply(s, e))
  {
    hide QueuesSound, RecordsSound, LogSound;
    var t := Apply(s, e);
    assert t.l == s.l.(failed := t.l.failed, draining := t.l.draining, phase := t.l.phase, totals := t.l.totals);
    PlainQueues(s.l, t.l);
    PlainRecords(s, t);
    PlainLogs(s.l, t.l);
  }

  lemma PlainQueues(l: Ledger, t: Ledger)
    requires QueuesSound(l) && t.records == l.records && t.notify == l.notify && t.close == l.close && (l.failed ==> t.failed)
    ensures QueuesSound(t)
  {
    assert forall id :: id in t.records ==> Queued(l, id) && Queued(t, id);
  }

  lemma PlainRecords(s: Sys, t: Sys)
    requires RecordsSound(s.l, s.w) && t.l.records == s.l.records && t.l.history == s.l.history && t.l.log == s.l.log
    requires t.w == s.w || (!s.w.Working? && !t.w.Working? && (Past(t.w) ==> Past(s.w)))
    ensures RecordsSound(t.l, t.w)
  {
    forall id | id in t.l.records ensures RecordSound(t.l.log, t.w, id, t.l.records[id]) {
      assert RecordSound(s.l.log, s.w, id, s.l.records[id]);
    }
  }

  lemma PlainLogs(l: Ledger, t: Ledger)
    requires LogSound(l.log, l.history, l.totals) && t.log == l.log && t.history == l.history
    requires t.totals.terminals == l.totals.terminals && t.totals.unused == l.totals.unused
    ensures LogSound(t.log, t.history, t.totals)
  {
  }

  lemma {:induction false} RunKeeps(s: Sys, steps: seq<Step>, t: Sys)
    requires Inv(s) && Run(s, steps, t)
    ensures Inv(t)
    decreases |steps|
  {
    if steps != [] {
      StepKeeps(s, steps[0]);
      RunKeeps(Apply(s, steps[0]), steps[1..], t);
    }
  }

  lemma StartSound()
    ensures Inv(START)
  {
  }

  // Main results.

  /** A drain that ends quiescent leaves nothing behind, whatever the owner
      threads did while the mutex was free: every identity ever registered was
      either dropped unused or had its terminal observed and delivered, or failed
      to register for want of memory, and the running totals say so. */
  lemma QuiescenceSound(steps: seq<Step>, t: Sys)
    requires Run(START, steps, t) && t.l.phase == Quiescent
    ensures t.l.records == map[] && NoSends(t.l)
    ensures t.l.history == t.l.log.unused + t.l.log.observed + t.l.log.aborted
    ensures t.l.log.unused !! t.l.log.observed !! t.l.log.aborted && t.l.log.observed == t.l.log.delivered
    ensures |t.l.history| == t.l.totals.unused + t.l.totals.terminals + |t.l.log.aborted|
    ensures t.l.totals.materialized == t.l.totals.terminals
  {
    StartSound();
    RunKeeps(START, steps, t);
    SumZero(t.l.records, RemainingW);
    forall id | id in t.l.history
      ensures id in t.l.log.unused || (id in t.l.log.observed && id in t.l.log.delivered) || id in t.l.log.aborted
    {
      assert Over(t.l.log, id);
    }
    assert t.l.log.unused + t.l.log.observed + t.l.log.aborted == t.l.history;
    assert t.l.log.observed <= t.l.log.delivered;
  }

  /** The drain's own test for completion is exact in both directions. */
  lemma DrainedExactly(s: Sys)
    requires Inv(s) && s.w == Choosing
    ensures Drained(s.l) <==> s.l.records == map[]
  {
    if Drained(s.l) { DrainedEmpty(s); }
    if s.l.notify != [] || s.l.close != [] { TakeKeeps(s); }
  }

  /** Over all drains of a run, no identity is closed twice by the cleanup. */
  lemma CloseAtMostOnce(steps: seq<Step>, t: Sys)
    requires Run(START, steps, t)
    ensures forall i, j :: 0 <= i < j < |t.l.log.closed| ==> t.l.log.closed[i] != t.l.log.closed[j]
  {
    StartSound();
    RunKeeps(START, steps, t);
  }

  /** Only a picking step issues a close, and only for a live identity that was
      sent to, is not terminal, and has no close sent or in doubt. */
  lemma CloseOnlyWhenDue(s: Sys, e: Step, id: int)
    requires Inv(s) && Enabled(s, e)
    requires id in Apply(s, e).l.log.closed && id !in s.l.log.closed
    ensures e.Choose? && s.l.failed && id in s.l.records
    ensures var r := s.l.records[id];
      r.materialized && !r.terminal && !r.closeSent && !r.closeUncertain && r.active == 0
  {
    StepRemembers(s, e);
    assert id == s.l.close[0] && id in s.l.close;
    assert Queued(s.l, id);
    assert RecordSound(s.l.log, s.w, id, s.l.records[id]);
  }

  lemma {:induction false} DrainKeepsBase(s: Sys, steps: seq<Step>, t: Sys)
    requires Inv(s) && Run(s, steps, t) && forall e :: e in steps ==> !e.Wake?
    ensures t.l.log.base == s.l.log.base && t.l.log.live == s.l.log.live
    decreases |steps|
  {
    if steps != [] {
      StepKeeps(s, steps[0]);
      var u := Apply(s, steps[0]);
      assert u.l.log.base == s.l.log.base && u.l.log.live == s.l.log.live by { StepRemembers(s, steps[0]); }
      DrainKeepsBase(u, steps[1..], t);
    }
  }

  /** How one step may change what is remembered: only a barrier moves the
      drain's base, only a pick issues a close, and no identity comes back. */
  ghost predicate Remembers(l: Ledger, t: Ledger, e: Step) {
    && (!e.Wake? ==> t.log.base == l.log.base && t.log.live == l.log.live)
    && (!e.Choose? ==> t.log.closed == l.log.closed)
    && l.history <= t.history
    && forall id :: id in t.records && id !in l.records ==> id !in l.history
  }

  lemma StepRemembers(s: Sys, e: Step)
    requires Enabled(s, e)
    ensures Remembers(s.l, Apply(s, e).l, e)
  {
    var l := s.l;
    match e
    case End(id, close, success) => EndRemembers(l, id, close, success);
    case DropUnsent(id) => DropRemembers(l, id);
    case Acked(id) => AckedRemembers(l, id);
    case Finish(thrown) => FinishRemembers(l, s.w.id, s.w.work, thrown);
    case See(id, terminal) => ObserveRemembers(l, id, terminal, e);
    case ReceiveItem(id, terminal) => ObserveRemembers(l, id, terminal, e);
    case Reject(id) => RejectRemembers(l, id);
    case _ => PlainRemembers(s, e);
  }

  lemma PlainRemembers(s: Sys, e: Step)
    requires Enabled(s, e)
    requires !e.End? && !e.DropUnsent? && !e.Acked? && !e.Finish? && !e.See? && !e.ReceiveItem? && !e.Reject?
    ensures Remembers(s.l, Apply(s, e).l, e)
  {
  }

  lemma ObserveRemembers(l: Ledger, id: int, terminal: bool, e: Step)
    requires e.See? || e.ReceiveItem?
    ensures Remembers(l, Observe(l, id, terminal), e) && Remembers(l, l, e)
  {
  }

  lemma RejectRemembers(l: Ledger, id: int)
    ensures Remembers(l, RejectShutdown(l, id), Reject(id))
  {
  }

  lemma EndRemembers(l: Ledger, id: int, close: bool, success: bool)
    ensures Remembers(l, EndSend(l, id, close, success), End(id, close, success))
  {
    if SendOpen(l, id) {
      var r := l.records[id].(active := l.records[id].active - 1);
      SettleFrame(l.(totals := SentTotals(l.totals, r, close, success)), id, SentFlags(r, close, success));
    }
  }

  lemma DropRemembers(l: Ledger, id: int)
    ensures Remembers(l, RetireUnsent(l, id), DropUnsent(id))
  {
    if id in l.records && Unsent(l, id) {
      var r := l.records[id];
      var u := if r.notified then l else Dropped(l, id);
      SettleFrame(u, id, r.(notified := true));
    }
  }

  lemma AckedRemembers(l: Ledger, id: int)
    ensures Remembers(l, Acknowledge(l, id), Acked(id))
  {
    if id in l.records && l.records[id].terminal {
      SettleFrame(l.(log := l.log.(delivered := l.log.delivered + {id})), id, l.records[id].(notified := true));
    }
  }

  lemma FinishRemembers(l: Ledger, id: int, work: Work, thrown: bool)
    requires id in l.records
    ensures Remembers(l, FinishWork(l, id, work, thrown), Finish(thrown))
  {
    var r := l.records[id];
    SettleFrame(l.(totals := FinishTotals(l.totals, r, work, thrown),
                   log := FinishLog(l.log, id, r, work, thrown)), id, FinishFlags(r, work, thrown));
  }

  /** From the barrier of one drain to the barrier of the next, at most three
      record visits are added per record live at the first. */
  lemma VisitsBounded(s: Sys, order: seq<int>, steps: seq<Step>, t: Sys)
    requires Inv(s) && Enabled(s, Wake(order)) && !s.l.broken
    requires Run(Apply(s, Wake(order)), steps, t) && forall e :: e in steps ==> !e.Wake?
    ensures t.l.totals.visits <= s.l.totals.visits + 3 * |s.l.records|
  {
    var u := Apply(s, Wake(order));
    StepKeeps(s, Wake(order));
    DrainKeepsBase(u, steps, t);
    RunKeeps(u, steps, t);
  }

  /** Picking work always spends budget: the termination measure of the drain's
      work items, whatever happens in the windows between them. */
  lemma PickSpendsBudget(s: Sys, late: bool)
    requires Inv(s) && s.w == Choosing && Enabled(s, Choose(late)) && Apply(s, Choose(late)).w.Working?
    ensures Budget(Apply(s, Choose(late)).l, Apply(s, Choose(late)).w) < Budget(s.l, s.w)
  {
    var (id, work) := NextWork(s.l);
    var r := s.l.records[id];
    assert Queued(s.l, id) && WorkOf(s.l, id) == work;
    assert RecordSound(s.l.log, s.w, id, r);
    SumReplace(s.l.records, id, r.(busy := true), BudgetW);
  }

  /** A retired identity is never handed out again. */
  lemma {:induction false} RetiredForever(s: Sys, steps: seq<Step>, t: Sys, id: int)
    requires Inv(s) && Run(s, steps, t) && id in s.l.history && id !in s.l.records
    ensures id in t.l.history && id !in t.l.records
    decreases |steps|
  {
    if steps != [] {
      var u := Apply(s, steps[0]);
      StepKeeps(s, steps[0]);
      StepRemembers(s, steps[0]);
      RetiredForever(u, steps[1..], t, id);
    }
  }
}
