/** The failure-cleanup ledger as it is kept in memory: a map of records threaded
    by two intrusive lists, with every gauge counted redundantly. Each method is
    one critical section, proved against `LedgerSpec`. */
module FailureCleanup {
  import opened Common
  import opened CleanupGauges
  import opened CleanupLists
  import opened IdentityHistory
  import opened LedgerSpec
  import Runs = LedgerRuns

  datatype Stats = Stats(phase: Phase, totals: Totals, gauges: Gauges, records: nat, closeWork: nat, notificationWork: nat)

  const START := Stats(Idle, EMPTY.totals, Gauges(0, 0, 0, 0, 0), 0, 0, 0)

  ghost predicate Agrees(st: Stats, failed: bool, draining: bool, broken: bool, l: Ledger) {
    && st.phase == l.phase && st.totals == l.totals
    && st.closeWork == |l.close| && st.notificationWork == |l.notify|
    && failed == l.failed && draining == l.draining && broken == l.broken
  }

  /** Every record is a registered identity and no terminal record is uncertain:
      what retirement relies on. */
  ghost predicate Sane(l: Ledger) {
    forall id :: id in l.records ==> id in l.history && Plausible(l.records[id])
  }

  lemma SaneAt(l: Ledger, id: int)
    requires Sane(l)
    ensures id in l.records ==> id in l.history && Plausible(l.records[id])
  {
  }

  lemma SaneSame(l: Ledger, m: Ledger)
    requires Sane(l) && m.records == l.records && m.history == l.history
    ensures Sane(m)
  {
  }

  lemma SanePut(l: Ledger, m: Ledger, id: int, r: Flags)
    requires Sane(l) && Plausible(r) && m.history == l.history && id in l.records
    requires m.records == l.records[id := r] || m.records == l.records - {id}
    ensures Sane(m)
  {
  }

  lemma SaneMore(l: Ledger, id: int)
    requires Sane(l)
    ensures Sane(l.(records := l.records[id := FRESH], history := l.history + {id}))
    ensures forall log :: Sane(l.(history := l.history + {id}, log := log))
  {
  }

  lemma AgreesLog(st: Stats, failed: bool, draining: bool, broken: bool, l: Ledger, log: Log)
    requires Agrees(st, failed, draining, broken, l)
    ensures Agrees(st, failed, draining, broken, l.(log := log))
  {
  }

  lemma AgreesPut(st: Stats, failed: bool, draining: bool, broken: bool, l: Ledger, g: Gauges, totals: Totals, log: Log, id: int, r: Flags)
    requires Agrees(st, failed, draining, broken, l)
    ensures Agrees(st.(gauges := g, totals := totals), failed, draining, broken, Put(l.(totals := totals, log := log), id, r))
  {
  }

  datatype Item = Nothing | Item(client: int, terminal: bool)

  /** What surrounds one pass of the drain loop: owner-thread activity while the
      mutex is free, the clock, and what the transport does. */
  datatype Turn = Turn(window: seq<Runs.Step>, later: seq<Runs.Step>, late: bool, thrown: bool, item: Item)

  /** The owner steps among some acts: what a window lets through. */
  function Acts(acts: seq<Runs.Step>): seq<Runs.Step> {
    if acts == [] then []
    else Acts(acts[..|acts| - 1]) + if Runs.Owned(acts[|acts| - 1]) then [acts[|acts| - 1]] else []
  }

  function AllActs(script: seq<Turn>): seq<Runs.Step> {
    if script == [] then [] else AllActs(script[..|script| - 1]) + Acts(script[|script| - 1].window)
  }

  /** What the worker itself did in a run. */
  function Doings(steps: seq<Runs.Step>): seq<Runs.Step> {
    if steps == [] then []
    else Doings(steps[..|steps| - 1]) + if Runs.Owned(steps[|steps| - 1]) then [] else [steps[|steps| - 1]]
  }

  lemma DoingsOne(steps: seq<Runs.Step>, e: Runs.Step)
    ensures Doings(steps + [e]) == Doings(steps) + if Runs.Owned(e) then [] else [e]
  {
    assert (steps + [e])[..|steps|] == steps;
  }

  lemma {:induction false} DoingsActs(steps: seq<Runs.Step>, acts: seq<Runs.Step>)
    ensures Doings(steps + Acts(acts)) == Doings(steps)
  {
    if acts == [] {
      assert steps + Acts(acts) == steps;
    } else {
      var rest, e := acts[..|acts| - 1], acts[|acts| - 1];
      DoingsActs(steps, rest);
      if Runs.Owned(e) {
        assert steps + Acts(acts) == steps + Acts(rest) + [e];
        DoingsOne(steps + Acts(rest), e);
      } else {
        assert Acts(acts) == Acts(rest);
      }
    }
  }

  /** One pass of the drain loop: it looks at the clock, then does or hears what the
      turn says. It `goes` on unless it has stopped or something threw. */
  predicate OnePass(p: seq<Runs.Step>, script: seq<Turn>, i: nat, goes: bool) {
    && |p| > 0 && p[0] == Runs.Choose(i >= |script| || script[i].late)
    && if |p| == 1 then !goes
       else i < |script| && Deed(p[1], script[i], goes)
            && p[2..] == if !goes then [Runs.Handle] else if p[1].ReceiveItem? then [Runs.Count] else []
  }

  predicate Deed(e: Runs.Step, turn: Turn, goes: bool) {
    match e
    case Finish(thrown) => thrown == turn.thrown && goes == !thrown
    case ReceiveThrows => turn.thrown && !goes
    case ReceiveNothing => !turn.thrown && turn.item == Nothing && goes
    case ReceiveItem(id, terminal) => !turn.thrown && turn.item == Item(id, terminal)
    case _ => false
  }

  /** The worker's part in one receive. */
  function Heard(turn: Turn, goes: bool): seq<Runs.Step> {
    if turn.thrown then [Runs.ReceiveThrows]
    else match turn.item
      case Nothing => [Runs.ReceiveNothing]
      case Item(id, terminal) => [Runs.ReceiveItem(id, terminal)] + if goes then [Runs.Count] else []
  }

  function Flat(passes: seq<seq<Runs.Step>>): seq<Runs.Step> {
    if passes == [] then [] else Flat(passes[..|passes| - 1]) + passes[|passes| - 1]
  }

  lemma FlatOne(passes: seq<seq<Runs.Step>>, p: seq<Runs.Step>)
    ensures Flat(passes + [p]) == Flat(passes) + p
  {
    assert (passes + [p])[..|passes|] == passes;
  }

  datatype Next = Stop | Listen | Do(id: int, work: Work)

  function Standing(next: Next): Runs.Worker {
    match next
    case Stop => Runs.Leaving
    case Listen => Runs.Receiving
    case Do(id, work) => Runs.Working(id, work)
  }

  function Visited(t: Totals, n: nat): Totals { t.(visits := t.visits + n) }

  lemma {:induction false} RefreshAllTotals(l: Ledger, order: seq<int>, t: Totals)
    requires forall id :: id in order ==> id in l.records
    ensures RefreshAll(l.(totals := t), order) == RefreshAll(l, order).(totals := t)
  {
    if order != [] { RefreshAllTotals(l, order[..|order| - 1], t); }
  }

  method AnyOf(s: set<int>) returns (id: int)
    requires s != {}
    ensures id in s
  {
    assert (forall x :: x !in s) ==> s <= {};
    id :| id in s;
  }

  lemma RefreshTotals(l: Ledger, id: int, t: Totals)
    requires id in l.records
    ensures Refresh(l.(totals := t), id) == Refresh(l, id).(totals := t)
  {
  }

  lemma RefreshAllThen(l: Ledger, order: seq<int>, id: int)
    requires id in l.records && forall j :: j in order ==> j in l.records
    ensures RefreshAll(l, order + [id]) == Refresh(RefreshAll(l, order), id)
  {
    assert (order + [id])[..|order|] == order;
  }

  lemma PassOne(l: Ledger, order: seq<int>, id: int, t: Totals, m: Ledger)
    requires id in l.records && forall j :: j in order ==> j in l.records
    requires m == RefreshAll(l, order).(totals := Visited(t, |order|))
    ensures Refresh(m.(totals := Visited(m.totals, 1)), id) ==
            RefreshAll(l, order + [id]).(totals := Visited(t, |order + [id]|))
  {
    var v := Visited(t, |order| + 1);
    assert m.(totals := Visited(m.totals, 1)) == RefreshAll(l, order).(totals := v);
    RefreshTotals(RefreshAll(l, order), id, v);
    RefreshAllThen(l, order, id);
  }

  lemma TakeIsPut(l: Ledger)
    requires (l.notify != [] || l.close != []) && NextWork(l).0 in l.records
    ensures var (id, work) := NextWork(l);
      Take(l) == Put(LedgerSpec.Unlink(l, id).(totals := Visited(l.totals, 1),
        log := if work == CloseWork then l.log.(closed := l.log.closed + [id]) else l.log),
        id, l.records[id].(busy := true))
  {
  }

  lemma BarrierIs(l: Ledger, order: seq<int>)
    requires Enumerates(l, order)
    ensures Barrier(l, order) ==
      RefreshAll(l.(log := l.log.(base := l.totals.visits, live := |l.records|)), order)
        .(totals := Visited(l.totals, |l.records|))
  {
    RefreshAllTotals(l.(log := l.log.(base := l.totals.visits, live := |l.records|)), order,
                     Visited(l.totals, |l.records|));
  }

  /** The barrier loop part of the way: `order` is done, `left` is to come. */
  ghost predicate Swept(was: Ledger, order: seq<int>, left: set<int>, now: Ledger) {
    && left <= was.records.Keys && |left| + |order| == |was.records| && Distinct(order)
    && (forall id :: id in was.records ==> (id in order <==> id !in left))
    && (forall id :: id in order ==> id in was.records)
    && now == RefreshAll(was, order).(totals := Visited(was.totals, |order|))
  }

  lemma SweptNone(was: Ledger)
    ensures Swept(was, [], was.records.Keys, was)
  {
    assert was.(totals := Visited(was.totals, 0)) == was;
  }

  lemma SweptOne(was: Ledger, order: seq<int>, left: set<int>, now: Ledger, id: int)
    requires Swept(was, order, left, now) && id in left
    ensures id in now.records
    ensures Swept(was, order + [id], left - {id}, Refresh(now.(totals := Visited(now.totals, 1)), id))
  {
    PassOne(was, order, id, was.totals, now);
  }

  lemma SweptAll(was: Ledger, order: seq<int>, now: Ledger)
    requires Swept(was, order, {}, now)
    ensures Enumerates(was, order) && now == RefreshAll(was, order).(totals := Visited(was.totals, |was.records|))
  {
  }

  lemma PinMoves(g: Gauges, r: Flags)
    ensures Moved(g, g.(active := g.active + 1), r, r.(active := r.active + 1))
    ensures Plausible(r) ==> Plausible(r.(active := r.active + 1))
  {
  }

  lemma BusyPlausible(r: Flags)
    ensures Plausible(r) ==> Plausible(r.(busy := true))
  {
  }

  lemma SeenPlausible(r: Flags, terminal: bool)
    requires Plausible(r)
    ensures Plausible(ObservedFlags(r, terminal))
  {
  }

  lemma AdmittedLive(l: Ledger, id: int, close: bool)
    ensures Admit(l, id, close) == Admitted ==> id in l.records
  {
  }

  lemma RefreshOnly(l: Ledger, id: int)
    requires id in l.records
    ensures var m := Refresh(l, id); m == l.(notify := m.notify, close := m.close)
  {
  }

  lemma EnumeratesSame(l: Ledger, m: Ledger, order: seq<int>)
    requires Enumerates(l, order) && m.records == l.records
    ensures Enumerates(m, order) && forall id :: id in order ==> id in l.records
  {
  }

  class FailureCleanup {
    var records: Records
    var closeQueue: Queue
    var notifyQueue: Queue
    var failed: bool
    var draining: bool
    var broken: bool
    var stats: Stats
    const history: History
    /** What the fields above stand for. */
    ghost var model: Ledger

    /** Every field agrees with the model: both lists are well formed, every
        gauge is the count it stands for, and the history is exact. */
    ghost predicate Tied()
      reads this, history
    {
      && Shape(records, closeQueue, notifyQueue, model)
      && Counted(stats.gauges, stats.records, model.records)
      && Agrees(stats, failed, draining, broken, model)
      && history.Valid() && history.members == model.history
    }

    ghost predicate Valid()
      reads this, history
    {
      Tied() && Sane(model)
    }

    constructor ()
      ensures Valid() && fresh(history) && model == EMPTY
    {
      records, closeQueue, notifyQueue := map[], Queue(0, 0), Queue(0, 0);
      failed, draining, broken := false, false, false;
      stats := START;
      history := new History();
      model := EMPTY;
    }

    /** Memory and model name the same records, with the same flags. */
    lemma Same(id: int)
      requires Tied()
      ensures id in records <==> id in model.records
      ensures id in records ==> records[id].flags == model.records[id] && id > 0
      ensures records.Keys == model.records.Keys
    {
      hide Shape, Counted, Agrees;
      SameAt(records, closeQueue, notifyQueue, model, id);
    }

    // Links, gauges and records.

    method Unlink(id: int)
      requires Tied() && id in records
      modifies this`records, this`closeQueue, this`notifyQueue, this`stats, this`model
      ensures Tied() && model == LedgerSpec.Unlink(old(model), id)
      ensures records.Keys == old(records.Keys) && records[id].work == NoWork
      ensures stats.gauges == old(stats.gauges) && stats.totals == old(stats.totals)
    {
      hide Shape, Counted, Without;
      var work := records[id].work;
      records, closeQueue, notifyQueue := TakeOut(records, closeQueue, notifyQueue, model, id);
      if work == NotifyWork {
        stats := stats.(notificationWork := stats.notificationWork - 1);
      } else if work == CloseWork {
        stats := stats.(closeWork := stats.closeWork - 1);
      }
      model := LedgerSpec.Unlink(model, id);
    }

    method PushBack(id: int, work: Work)
      requires Tied() && id in records && records[id].work == NoWork && work != NoWork
      modifies this`records, this`closeQueue, this`notifyQueue, this`stats, this`model
      ensures Tied() && records.Keys == old(records.Keys)
      ensures model == if work == NotifyWork then old(model).(notify := old(model).notify + [id])
                       else old(model).(close := old(model).close + [id])
    {
      hide Shape, Counted;
      records, closeQueue, notifyQueue := PutLast(records, closeQueue, notifyQueue, model, id, work);
      if work == NotifyWork {
        stats := stats.(notificationWork := stats.notificationWork + 1);
        model := model.(notify := model.notify + [id]);
      } else {
        stats := stats.(closeWork := stats.closeWork + 1);
        model := model.(close := model.close + [id]);
      }
    }

    /** The queue a record belongs to, computed in memory. */
    method Wanted(id: int) returns (desired: Work)
      requires Tied() && id in records
      ensures id in model.records && desired == Desired(model.failed, model.records[id])
      ensures records[id].work == WorkOf(model, id)
    {
      hide Shape, Counted, WorkOf;
      Same(id);
      WorkIsQueue(records, closeQueue, notifyQueue, model, id);
      var r := records[id].flags;
      if !r.busy && !r.notified && (r.terminal || (failed && !r.materialized && !r.uncertain && r.active == 0)) {
        return NotifyWork;
      }
      if !r.busy && r.materialized && !r.terminal && !r.closeSent && !r.closeUncertain { return CloseWork; }
      return NoWork;
    }

    method RefreshWork(id: int)
      requires Tied() && id in records
      modifies this`records, this`closeQueue, this`notifyQueue, this`stats, this`model
      ensures Tied() && id in old(model.records) && model == Refresh(old(model), id)
      ensures records.Keys == old(records.Keys)
    {
      hide Tied, Desired, WorkOf, Without;
      var desired := Wanted(id);
      if records[id].work == desired { return; }
      Unlink(id);
      if desired == NoWork { return; }
      PushBack(id, desired);
    }

    method RetireIfReady(id: int)
      requires Tied() && id in records && Plausible(records[id].flags)
      modifies this`records, this`closeQueue, this`notifyQueue, this`stats, this`model
      ensures Tied() && id in old(model.records) && model == Retire(old(model), id)
    {
      hide Tied, Plausible, Without;
      Same(id);
      var r := records[id].flags;
      if !r.notified || r.active != 0 || r.busy || (!r.terminal && (r.materialized || r.uncertain)) { return; }
      Unlink(id);
      Same(id);
      Erase(id);
    }

    method Erase(id: int)
      requires Tied() && id in records && records[id].work == NoWork
      requires Ready(records[id].flags) && Plausible(records[id].flags)
      modifies this`records, this`stats, this`model
      ensures Tied() && model == old(model).(records := old(model).records - {id})
    {
      hide Shape, Counted, Ready, Plausible;
      Same(id);
      var r, g := records[id].flags, stats.gauges;
      ghost var h := Gauges(g.remaining, g.uncertain, if g.reserved >= ReservedW(r) then g.reserved - ReservedW(r) else 0,
                            if g.terminal >= TerminalW(r) then g.terminal - TerminalW(r) else 0, g.active);
      CountErase(g, stats.records, model.records, id, h);
      EraseShape(records, closeQueue, notifyQueue, model, id);
      if !r.materialized { g := g.(reserved := g.reserved - 1); }
      if r.terminal { g := g.(terminal := g.terminal - 1); }
      stats := stats.(gauges := g, records := stats.records - 1);
      records := records - {id};
      model := model.(records := model.records - {id});
    }

    /** Write back the flags of one record together with what they moved. */
    method Store(id: int, r: Flags, g: Gauges, totals: Totals, ghost log: Log)
      requires Tied() && id in records && Moved(stats.gauges, g, records[id].flags, r)
      modifies this`records, this`stats, this`model
      ensures Tied() && records.Keys == old(records.Keys) && records[id].flags == r
      ensures model == Put(old(model).(totals := totals, log := log), id, r)
    {
      hide Shape, Counted, Agrees, Moved;
      Same(id);
      Recount(stats.gauges, g, stats.records, model.records, id, r);
      FlagShape(records, closeQueue, notifyQueue, model, id, r);
      AgreesPut(stats, failed, draining, broken, model, g, totals, log, id, r);
      ghost var after := Put(model.(totals := totals, log := log), id, r);
      records := records[id := records[id].(flags := r)];
      ShapeSame(records, closeQueue, notifyQueue, Put(model, id, r), after);
      stats := stats.(gauges := g, totals := totals);
      model := after;
    }

    /** Write back and requeue. */
    method RequeueRecord(id: int, r: Flags, g: Gauges, totals: Totals, ghost log: Log)
      requires Valid() && id in records && Plausible(r) && Moved(stats.gauges, g, records[id].flags, r)
      modifies this`records, this`closeQueue, this`notifyQueue, this`stats, this`model
      ensures Valid() && id in old(model.records)
      ensures model == Refresh(Put(old(model).(totals := totals, log := log), id, r), id)
    {
      hide Tied, Sane, Plausible, Moved, Refresh;
      Same(id);
      Store(id, r, g, totals, log);
      RefreshWork(id);
      Runs.SettleFrame(old(model).(totals := totals, log := log), id, r);
      SanePut(old(model), model, id, r);
    }

    /** The common tail: write back, requeue, retire if nothing more is due. */
    method SettleRecord(id: int, r: Flags, g: Gauges, totals: Totals, ghost log: Log)
      requires Valid() && id in records && Plausible(r) && Moved(stats.gauges, g, records[id].flags, r)
      modifies this`records, this`closeQueue, this`notifyQueue, this`stats, this`model
      ensures Valid() && id in old(model.records)
      ensures model == Settle(old(model).(totals := totals, log := log), id, r)
    {
      hide Tied, Sane, Plausible, Moved, Refresh, Retire;
      Same(id);
      Store(id, r, g, totals, log);
      RefreshWork(id);
      Runs.SettleFrame(old(model).(totals := totals, log := log), id, r);
      Same(id);
      RetireIfReady(id);
      SanePut(old(model), model, id, r);
    }

    // Client-side critical sections.

    /** False for a failed ledger, for an invalid or reused identity, and when
        there is no memory for the record of a fresh one. */
    method RegisterClient(id: int, room: bool) returns (ok: bool)
      requires Valid()
      modifies this, history
      ensures Valid() && ok == (CanRegister(old(model), id) && room) && model == Register(old(model), id, room)
    {
      hide Shape, Counted, Sane;
      if failed { return false; }
      SaneAt(model, id);
      ok := history.Insert(id);
      if !ok { return; }
      SaneMore(model, id);
      if room {
        Enter(id);
      } else {
        ShapeSame(records, closeQueue, notifyQueue, model, Register(model, id, false));
      }
      model := Register(old(model), id, room);
      ok := room;
    }

    /** A new record, reserved and in no list. */
    method Enter(id: int)
      requires Shape(records, closeQueue, notifyQueue, model) && Counted(stats.gauges, stats.records, model.records)
      requires id !in model.records && id > 0
      modifies this`records, this`stats
      ensures Counted(stats.gauges, stats.records, model.records[id := FRESH])
      ensures Shape(records, closeQueue, notifyQueue,
                    model.(records := model.records[id := FRESH], history := model.history + {id}))
      ensures stats == old(stats).(gauges := stats.gauges, records := stats.records)
    {
      hide Shape, Counted;
      SameAt(records, closeQueue, notifyQueue, model, id);
      NewShape(records, closeQueue, notifyQueue, model, id);
      CountInsert(stats.gauges, stats.records, model.records, id);
      records := records[id := Record(FRESH, NoWork, 0, 0)];
      stats := stats.(records := stats.records + 1, gauges := stats.gauges.(reserved := stats.gauges.reserved + 1));
      ghost var m := model.(records := model.records[id := FRESH]);
      ShapeSame(records, closeQueue, notifyQueue, m, m.(history := m.history + {id}));
    }

    method Ask(id: int, close: bool) returns (answer: Admission)
      requires Valid()
      ensures answer == Admit(model, id, close)
    {
      hide Shape, Counted, Sane;
      Same(id);
      if failed { return if close then Refused else RejectedFailed; }
      if id !in records || records[id].flags.terminal || records[id].flags.notified {
        var known := history.Contains(id);
        return if close && known then Refused else RejectedClosed;
      }
      return Admitted;
    }

    /** One more active send pins the record. */
    method Pin(id: int)
      requires Valid() && id in records
      modifies this`records, this`stats, this`model
      ensures Valid() && id in old(model.records)
      ensures model == Put(old(model), id, old(model.records)[id].(active := old(model.records)[id].active + 1))
    {
      hide Shape, Counted, Sane, Plausible, Moved;
      Same(id);
      SaneAt(model, id);
      var r := records[id].flags;
      PinMoves(stats.gauges, r);
      Store(id, r.(active := r.active + 1), stats.gauges.(active := stats.gauges.active + 1), stats.totals, model.log);
      SanePut(old(model), model, id, r.(active := r.active + 1));
    }

    method BeginSend(id: int, close: bool) returns (answer: Admission)
      requires Valid()
      modifies this`records, this`stats, this`model
      ensures Valid() && answer == Admit(old(model), id, close)
      ensures model == LedgerSpec.BeginSend(old(model), id, close)
    {
      hide Tied, Sane, Admit;
      answer := Ask(id, close);
      if answer != Admitted { return; }
      AdmittedLive(model, id, close);
      Same(id);
      Pin(id);
    }

    /** A send ended that never began: no drain is trusted from here on. */
    method ReportImbalance()
      requires Valid()
      modifies this`stats, this`broken, this`model
      ensures Valid()
      ensures model == old(model).(broken := true, phase := Error,
        totals := old(model).totals.(accountingErrors := old(model).totals.accountingErrors + 1))
    {
      hide Shape, Counted, Sane;
      stats := stats.(phase := Error,
                      totals := stats.totals.(accountingErrors := stats.totals.accountingErrors + 1));
      broken := true;
      model := model.(broken := true, phase := Error, totals := stats.totals);
      ShapeSame(records, closeQueue, notifyQueue, old(model), model);
      SaneSame(old(model), model);
    }

    method EndSend(id: int, close: bool, success: bool)
      requires Valid()
      modifies this`records, this`closeQueue, this`notifyQueue, this`stats, this`broken, this`model
      ensures Valid() && model == LedgerSpec.EndSend(old(model), id, close, success)
    {
      hide Shape, Counted, Sane, Plausible, Moved, Covers, Settle, SentFlags, SentTotals;
      Same(id);
      if id !in records || records[id].flags.active == 0 {
        ReportImbalance();
        return;
      }
      SaneAt(model, id);
      SentPlausible(records[id].flags, close, success);
      Room(stats.gauges, stats.records, model.records, id);
      var r, g, totals := Sent(records[id].flags, stats.gauges, stats.totals, close, success);
      SettleRecord(id, r, g, totals, model.log);
    }

    /** False when a request may have reached the source. */
    method RetireReserved(id: int) returns (done: bool)
      requires Valid()
      modifies this`records, this`closeQueue, this`notifyQueue, this`stats, this`model
      ensures Valid() && model == RetireUnsent(old(model), id)
      ensures done == (if id in old(model).records then Unsent(old(model), id) else id in old(model).history)
    {
      hide Shape, Counted, Sane, Moved, Settle;
      Same(id);
      if id !in records {
        done := history.Contains(id);
        return;
      }
      var r := records[id].flags;
      if r.materialized || r.uncertain || r.active != 0 { return false; }
      SaneAt(model, id);
      MovedNot(stats.gauges, r, r.(notified := true));
      var totals := if r.notified then stats.totals else stats.totals.(unused := stats.totals.unused + 1);
      ghost var log := if r.notified then model.log else model.log.(unused := model.log.unused + {id});
      SettleRecord(id, r.(notified := true), stats.gauges, totals, log);
      return true;
    }

    /** The other retirement: an identity that may have reached the source is an
        error, one already retired is not. */
    method RetireUnused(id: int) returns (ok: bool)
      requires Valid()
      modifies this`records, this`closeQueue, this`notifyQueue, this`stats, this`model
      ensures Valid() && model == RetireUnsent(old(model), id)
      ensures ok <==> id in old(model).records ==> Unsent(old(model), id)
    {
      hide Tied, Sane, Settle;
      Same(id);
      ok := true;
      if id in records { ok := RetireReserved(id); }
    }

    method RejectShutdown(id: int)
      requires Valid()
      modifies this`records, this`closeQueue, this`notifyQueue, this`stats, this`model
      ensures Valid() && model == LedgerSpec.RejectShutdown(old(model), id)
    {
      hide Shape, Counted, Sane, Moved, Refresh;
      Same(id);
      if failed || id !in records || records[id].flags.terminal { return; }
      var r := records[id].flags.(closeSent := false, closeUncertain := false);
      MovedNot(stats.gauges, records[id].flags, r);
      RequeueRecord(id, r, stats.gauges, stats.totals, model.log);
    }

    // The worker's critical sections.

    method Observe(id: int, terminal: bool) returns (answer: Observed)
      requires Valid()
      modifies this`records, this`closeQueue, this`notifyQueue, this`stats, this`model
      ensures Valid() && answer == Lookup(old(model), id)
      ensures model == LedgerSpec.Observe(old(model), id, terminal)
    {
      hide Shape, Counted, Sane, Moved, Covers, Refresh, Plausible, ObservedFlags, ObservedTotals;
      Same(id);
      if id !in records {
        var known := history.Contains(id);
        if !known { return Foreign; }
        CountLate();
        return Late;
      }
      SaneAt(model, id);
      SeenPlausible(records[id].flags, terminal);
      Room(stats.gauges, stats.records, model.records, id);
      var r, g, totals := Seen(records[id].flags, stats.gauges, stats.totals, terminal);
      ghost var log := if terminal then model.log.(observed := model.log.observed + {id}) else model.log;
      RequeueRecord(id, r, g, totals, log);
      return Known;
    }

    method CountLate()
      requires Valid()
      modifies this`stats, this`model
      ensures Valid() && model == old(model).(totals := old(model).totals.(late := old(model).totals.late + 1))
    {
      hide Shape, Counted, Sane;
      SetTotals(stats.totals.(late := stats.totals.late + 1));
    }

    method SetTotals(totals: Totals)
      requires Valid()
      modifies this`stats, this`model
      ensures Valid() && model == old(model).(totals := totals)
      ensures stats == old(stats).(totals := totals)
    {
      hide Shape, Counted, Sane;
      stats := stats.(totals := totals);
      model := model.(totals := totals);
      ShapeSame(records, closeQueue, notifyQueue, old(model), model);
      SaneSame(old(model), model);
    }

    /** False when the acknowledgement precedes the terminal. */
    method AcknowledgeTerminal(id: int) returns (ok: bool)
      requires Valid()
      modifies this`records, this`closeQueue, this`notifyQueue, this`stats, this`model
      ensures Valid() && model == Acknowledge(old(model), id)
      ensures ok <==> id in old(model).records ==> old(model).records[id].terminal
    {
      hide Shape, Counted, Sane, Moved, Settle;
      Same(id);
      if id !in records { return true; }
      if !records[id].flags.terminal { return false; }
      SaneAt(model, id);
      MovedNot(stats.gauges, records[id].flags, records[id].flags.(notified := true));
      SettleRecord(id, records[id].flags.(notified := true), stats.gauges, stats.totals,
                   model.log.(delivered := model.log.delivered + {id}));
      return true;
    }

    // The critical sections of a drain.

    /** Whether this caller now owns the drain. */
    method DrainEnter() returns (owned: bool)
      requires Valid()
      modifies this`stats, this`draining, this`failed, this`model
      ensures Valid() && model == LedgerSpec.DrainEnter(old(model))
      ensures owned <==> !old(model).broken && !old(model).draining
    {
      hide Shape, Counted, Sane;
      owned := false;
      if broken {
        stats := stats.(phase := Error);
      } else if draining {
        stats := stats.(totals := stats.totals.(errors := stats.totals.errors + 1));
      } else {
        draining, owned, failed := true, true, true;
        stats := stats.(phase := Running);
      }
      model := LedgerSpec.DrainEnter(model);
      ShapeSame(records, closeQueue, notifyQueue, old(model), model);
      SaneSame(old(model), model);
    }

    method BarrierOpen() returns (open: bool)
      requires Valid()
      ensures open <==> model.broken || NoSends(model)
    {
      hide Shape, Counted, Sane, NoSends;
      SendsMatch(stats.gauges, stats.records, model);
      open := broken || stats.gauges.active == 0;
    }

    method SetPhase(p: Phase)
      requires Valid()
      modifies this`stats, this`model
      ensures Valid() && model == old(model).(phase := p)
    {
      hide Shape, Counted, Sane;
      stats := stats.(phase := p);
      model := model.(phase := p);
      ShapeSame(records, closeQueue, notifyQueue, old(model), model);
      SaneSame(old(model), model);
    }

    /** One visit and one requeueing per live record, in any order. */
    method PassBarrier() returns (ghost order: seq<int>)
      requires Valid()
      modifies this`records, this`closeQueue, this`notifyQueue, this`stats, this`model
      ensures Valid() && Enumerates(old(model), order) && model == Barrier(old(model), order)
    {
      hide Shape, Counted, Sane, Agrees, Barrier, RefreshAll, Enumerates;
      ghost var m := model.(log := model.log.(base := model.totals.visits, live := |model.records|));
      AgreesLog(stats, failed, draining, broken, model, m.log);
      model := m;
      ShapeSame(records, closeQueue, notifyQueue, old(model), model);
      SaneSame(old(model), model);
      order := VisitAll();
      EnumeratesSame(m, old(model), order);
      BarrierIs(old(model), order);
    }

    method VisitAll() returns (ghost order: seq<int>)
      requires Valid()
      modifies this`records, this`closeQueue, this`notifyQueue, this`stats, this`model
      ensures Valid() && Enumerates(old(model), order)
      ensures model == RefreshAll(old(model), order).(totals := Visited(old(model).totals, |old(model).records|))
    {
      hide Tied, Sane, Swept, Refresh, RefreshAll, Enumerates;
      Same(0);
      order := [];
      ghost var was := model;
      SweptNone(was);
      var left := records.Keys;
      while left != {}
        invariant Valid() && Swept(was, order, left, model)
        decreases |left|
      {
        var id := AnyOf(left);
        SweptOne(was, order, left, model, id);
        Same(id);
        Visit(id);
        left := left - {id};
        order := order + [id];
      }
      SweptAll(was, order, model);
    }

    method Visit(id: int)
      requires Valid() && id in records
      modifies this`records, this`closeQueue, this`notifyQueue, this`stats, this`model
      ensures Valid() && id in old(model.records)
      ensures model == Refresh(old(model).(totals := Visited(old(model).totals, 1)), id)
    {
      hide Tied, Sane, Refresh;
      Same(id);
      SetTotals(Visited(CurrentTotals(), 1));
      ghost var m := model;
      RefreshWork(id);
      RefreshOnly(m, id);
      SaneSame(m, model);
    }

    function CurrentTotals(): (t: Totals)
      requires Tied()
      reads this, history
      ensures t == model.totals
    {
      stats.totals
    }

    /** What the drain does next. The effect of `Do` follows outside the lock. */
    method Pick(late: bool) returns (next: Next)
      requires Valid() && Runs.Heads(model)
      modifies this`records, this`closeQueue, this`notifyQueue, this`stats, this`model
      ensures Valid()
      ensures Runs.Sys(model, Standing(next)) == Runs.Chosen(old(model), late)
    {
      hide Shape, Counted, Sane, Take, Drained;
      if broken { SetPhase(Error); return Stop; }
      var done := Complete();
      if done { SetPhase(Quiescent); return Stop; }
      if late { SetPhase(Deadline); return Stop; }
      HeadsMatch(records, closeQueue, notifyQueue, model);
      var id := if notifyQueue.head != 0 then notifyQueue.head else closeQueue.head;
      if id == 0 { return Listen; }
      var work := records[id].work;
      MarkBusy(id);
      return Do(id, work);
    }

    /** The test on queue heads and gauges. */
    method Complete() returns (done: bool)
      requires Valid()
      ensures done == Drained(model)
    {
      hide Shape, Counted, Sane;
      HeadsMatch(records, closeQueue, notifyQueue, model);
      GaugesMatch(stats.gauges, stats.records, model.records);
      var g := stats.gauges;
      done := notifyQueue.head == 0 && closeQueue.head == 0 && g.remaining == 0 && g.uncertain == 0 && g.reserved == 0;
    }

    method MarkBusy(id: int)
      requires Valid() && (model.notify != [] || model.close != []) && id == NextWork(model).0 && id in records
      modifies this`records, this`closeQueue, this`notifyQueue, this`stats, this`model
      ensures Valid() && Runs.Heads(old(model)) && model == Take(old(model))
    {
      hide Tied, Sane, Moved, Plausible, Take, Without;
      ghost var was, work := model, NextWork(model).1;
      Same(id);
      SaneAt(model, id);
      TakeIsPut(was);
      ghost var log := if work == CloseWork then was.log.(closed := was.log.closed + [id]) else was.log;
      Unlink(id);
      Same(id);
      var r := records[id].flags;
      MovedNot(stats.gauges, r, r.(busy := true));
      BusyPlausible(r);
      Store(id, r.(busy := true), stats.gauges, Visited(CurrentTotals(), 1), log);
      SanePut(was, model, id, r.(busy := true));
    }

    /** The locked tail of an effect; a throw is then reported by `Catch`. */
    method FinishEffect(id: int, work: Work, thrown: bool)
      requires Valid() && id in records
      requires Plausible(FinishFlags(records[id].flags, work, thrown))
      modifies this`records, this`closeQueue, this`notifyQueue, this`stats, this`model
      ensures Valid() && id in old(model.records) && model == FinishWork(old(model), id, work, thrown)
    {
      hide Shape, Counted, Sane, Moved, Covers, Plausible, Settle, FinishFlags, FinishTotals, FinishLog;
      Same(id);
      Room(stats.gauges, stats.records, model.records, id);
      var was := records[id].flags;
      var r, g, totals := Finished(was, stats.gauges, stats.totals, work, thrown);
      SettleRecord(id, r, g, totals, FinishLog(model.log, id, was, work, thrown));
    }

    method Catch()
      requires Valid()
      modifies this`stats, this`model
      ensures Valid() && model == Caught(old(model))
    {
      hide Tied, Sane;
      SetPhase(Error);
      SetTotals(CurrentTotals().(errors := CurrentTotals().errors + 1));
    }

    method CountItem()
      requires Valid()
      modifies this`stats, this`model
      ensures Valid() && model == CountAbandoned(old(model))
    {
      hide Tied, Sane;
      SetTotals(CurrentTotals().(abandoned := CurrentTotals().abandoned + 1));
    }

    method Release()
      requires Valid()
      modifies this`draining, this`model
      ensures Valid() && model == LedgerSpec.Leave(old(model))
    {
      hide Shape, Counted, Sane;
      draining := false;
      model := LedgerSpec.Leave(model);
      ShapeSame(records, closeQueue, notifyQueue, old(model), model);
      SaneSame(old(model), model);
    }

    // A whole drain, with the other threads' moves as part of its input.

    /** One owner-thread critical section. */
    method Act(e: Runs.Step, ghost w: Runs.Worker)
      requires Valid() && Runs.Owned(e) && w != Runs.Outside
      modifies this, history
      ensures Valid() && Runs.Apply(Runs.Sys(old(model), w), e) == Runs.Sys(model, w)
    {
      match e
      case Register(id, room) => var _ := RegisterClient(id, room);
      case Begin(id, close) => var _ := BeginSend(id, close);
      case End(id, close, success) => EndSend(id, close, success);
      case DropUnsent(id) => var _ := RetireReserved(id);
      case Reject(id) => RejectShutdown(id);
      case EnterAgain => var _ := DrainEnter();
    }

    /** Any owner-thread activity while the mutex is free. */
    method Window(acts: seq<Runs.Step>, ghost start: Runs.Sys, ghost steps: seq<Runs.Step>, ghost w: Runs.Worker)
      returns (ghost after: seq<Runs.Step>)
      requires AtRun(start, steps, w) && w != Runs.Outside
      modifies this, history
      ensures AtRun(start, after, w) && after == steps + Acts(acts) && Doings(after) == Doings(steps)
    {
      hide Doings, Runs.Apply, Runs.Enabled, Runs.Run, Runs.Inv;
      after := steps;
      for i := 0 to |acts|
        invariant AtRun(start, after, w) && after == steps + Acts(acts[..i])
      {
        assert acts[..i + 1][..i] == acts[..i];
        if Runs.Owned(acts[i]) {
          Runs.StepKeeps(Runs.Sys(model, w), acts[i]);
          Runs.RunStep(start, after, Runs.Sys(model, w), acts[i]);
          Act(acts[i], w);
          after := after + [acts[i]];
        }
      }
      assert acts[..|acts|] == acts;
      DoingsActs(steps, acts);
    }

    /** The fields are where the run `steps` from `start` leads. */
    ghost predicate AtRun(start: Runs.Sys, steps: seq<Runs.Step>, w: Runs.Worker)
      reads this, history
    {
      Valid() && Runs.Inv(Runs.Sys(model, w)) && Runs.Run(start, steps, Runs.Sys(model, w))
    }

    /** A quiescent ledger is empty and no send is in flight. */
    lemma QuietIsEmpty(w: Runs.Worker)
      requires Valid() && Runs.Inv(Runs.Sys(model, w))
      ensures stats.phase == Quiescent ==> records == map[] && stats.gauges.active == 0
    {
      if model.phase == Quiescent {
        assert Runs.GlobalSound(model, w);
        assert SameFlags(records, model.records);
        SendsMatch(stats.gauges, stats.records, model);
      }
    }

    /** Record that the worker took step `e` from `l`. */
    lemma Took(start: Runs.Sys, steps: seq<Runs.Step>, s: Runs.Sys, e: Runs.Step, w: Runs.Worker)
      requires Valid() && Runs.Inv(s) && Runs.Run(start, steps, s)
      requires Runs.Enabled(s, e) && Runs.Apply(s, e) == Runs.Sys(model, w)
      ensures AtRun(start, steps + [e], w) && Doings(steps + [e]) == Doings(steps) + if Runs.Owned(e) then [] else [e]
    {
      DoingsOne(steps, e);
      Runs.StepKeeps(s, e);
      Runs.RunStep(start, steps, s, e);
    }

    /** Wait for active sends to end, for an imbalance, or for the deadline. */
    method AwaitSends(script: seq<Turn>, ghost start: Runs.Sys, ghost steps: seq<Runs.Step>)
      returns (open: bool, ghost after: seq<Runs.Step>)
      requires AtRun(start, steps, Runs.Waiting)
      modifies this, history
      ensures AtRun(start, after, Runs.Waiting) && open == (model.broken || NoSends(model))
      ensures Doings(after) == Doings(steps) && (open || after == steps + AllActs(script))
    {
      hide Doings, Acts, Runs.Run, Runs.Inv, NoSends;
      after := steps;
      open := BarrierOpen();
      var i := 0;
      while !open && i < |script|
        invariant AtRun(start, after, Runs.Waiting) && open == (model.broken || NoSends(model))
        invariant i <= |script| && Doings(after) == Doings(steps) && after == steps + AllActs(script[..i])
      {
        assert script[..i + 1][..i] == script[..i];
        after := Window(script[i].window, start, after, Runs.Waiting);
        open := BarrierOpen();
        i := i + 1;
      }
      assert i == |script| ==> script[..i] == script;
    }

    /** The barrier. True when past it. */
    method Await(script: seq<Turn>, ghost start: Runs.Sys, ghost steps: seq<Runs.Step>)
      returns (past: bool, ghost after: seq<Runs.Step>)
      requires AtRun(start, steps, Runs.Waiting)
      modifies this, history
      ensures AtRun(start, after, if past then Runs.Choosing else Runs.Leaving)
      ensures after != [] && var e := after[|after| - 1];
        && (e.Wake? || (e.GiveUpWaiting? && !past && after == steps + AllActs(script) + [e])) && Doings(after) == Doings(steps) + [e]
    {
      var open;
      open, after := AwaitSends(script, start, steps);
      ghost var was := Runs.Sys(model, Runs.Waiting);
      ghost var step := Runs.GiveUpWaiting;
      past := open && !broken;
      if !open {
        SetPhase(Deadline);
      } else if broken {
        SetPhase(Error);
        step := Runs.Wake([]);
      } else {
        ghost var order := PassBarrier();
        step := Runs.Wake(order);
      }
      Took(start, after, was, step, if past then Runs.Choosing else Runs.Leaving);
      after := after + [step];
    }

    /** One effect, with whatever happens while it runs. True to go on. */
    method PerformWork(id: int, work: Work, turn: Turn, ghost start: Runs.Sys, ghost steps: seq<Runs.Step>)
      returns (go: bool, ghost after: seq<Runs.Step>)
      requires AtRun(start, steps, Runs.Working(id, work))
      modifies this, history
      ensures AtRun(start, after, if go then Runs.Choosing else Runs.Failing)
      ensures go == !turn.thrown && Doings(after) == Doings(steps) + [Runs.Finish(turn.thrown)]
    {
      hide Runs.QueuesSound, Runs.TotalsSound, Runs.Accounted, Runs.GlobalSound, Counted;
      after := Window(turn.window, start, steps, Runs.Working(id, work));
      ghost var was := Runs.Sys(model, Runs.Working(id, work));
      Runs.FinishKeeps(was, turn.thrown);
      assert Runs.RecordSound(was.l.log, was.w, id, was.l.records[id]);
      FinishEffect(id, work, turn.thrown);
      go := !turn.thrown;
      Took(start, after, was, Runs.Finish(turn.thrown), if go then Runs.Choosing else Runs.Failing);
      after := after + [Runs.Finish(turn.thrown)];
    }

    /** One receive call, with whatever happens while it blocks. True to go on. */
    method ReceiveOnce(turn: Turn, ghost start: Runs.Sys, ghost steps: seq<Runs.Step>)
      returns (go: bool, ghost after: seq<Runs.Step>)
      requires AtRun(start, steps, Runs.Receiving)
      modifies this, history
      ensures AtRun(start, after, if go then Runs.Choosing else Runs.Failing)
      ensures Doings(after) == Doings(steps) + Heard(turn, go) && (turn.thrown ==> !go) && (turn.item == Nothing && !turn.thrown ==> go)
    {
      hide Doings, Acts, Runs.Run;
      after := Window(turn.window, start, steps, Runs.Receiving);
      if !turn.thrown && turn.item.Item? {
        go, after := Account(turn, start, after);
        return;
      }
      go := !turn.thrown;
      ghost var step := if turn.thrown then Runs.ReceiveThrows else Runs.ReceiveNothing;
      Took(start, after, Runs.Sys(model, Runs.Receiving), step, if go then Runs.Choosing else Runs.Failing);
      after := after + [step];
    }

    /** Observe a received item, then count it. */
    method Account(turn: Turn, ghost start: Runs.Sys, ghost steps: seq<Runs.Step>)
      returns (go: bool, ghost after: seq<Runs.Step>)
      requires AtRun(start, steps, Runs.Receiving) && turn.item.Item?
      modifies this, history
      ensures AtRun(start, after, if go then Runs.Choosing else Runs.Failing)
      ensures Doings(after) == Doings(steps) + [Runs.ReceiveItem(turn.item.client, turn.item.terminal)] + if go then [Runs.Count] else []
    {
      ghost var was := Runs.Sys(model, Runs.Receiving);
      ghost var step := Runs.ReceiveItem(turn.item.client, turn.item.terminal);
      var answer := Observe(turn.item.client, turn.item.terminal);
      go := answer != Foreign;
      Took(start, steps, was, step, if go then Runs.Counting else Runs.Failing);
      after := steps + [step];
      if go {
        after := Window(turn.later, start, after, Runs.Counting);
        was := Runs.Sys(model, Runs.Counting);
        CountItem();
        Took(start, after, was, Runs.Count, Runs.Choosing);
        after := after + [Runs.Count];
      }
    }

    /** The handler of an exception that escaped an effect or a receive. */
    method Recover(turn: Turn, ghost start: Runs.Sys, ghost steps: seq<Runs.Step>)
      returns (ghost after: seq<Runs.Step>)
      requires AtRun(start, steps, Runs.Failing)
      modifies this, history
      ensures AtRun(start, after, Runs.Leaving) && Doings(after) == Doings(steps) + [Runs.Handle]
    {
      after := Window(turn.later, start, steps, Runs.Failing);
      ghost var was := Runs.Sys(model, Runs.Failing);
      Catch();
      Took(start, after, was, Runs.Handle, Runs.Leaving);
      after := after + [Runs.Handle];
    }

    /** A bounded drain. The script says, pass by pass, what the other threads
        and the source do; the deadline is reached when it runs out. Whatever it
        says, the drain is a run of the step system, so its results apply. */
    method Drain(script: seq<Turn>) returns (ghost steps: seq<Runs.Step>, ghost wake: Runs.Step, ghost passes: seq<seq<Runs.Step>>)
      requires Valid() && Runs.Inv(Runs.Sys(model, Runs.Outside))
      modifies this, history
      ensures AtRun(old(Runs.Sys(model, Runs.Outside)), steps, Runs.Outside)
      ensures stats.phase == Quiescent ==> records == map[] && stats.gauges.active == 0
      ensures if old(model).broken || old(model).draining then steps == [Runs.Enter]
              else && (wake.Wake? || (wake.GiveUpWaiting? && [Runs.Enter] + AllActs(script) + [wake] <= steps))
                   && Doings(steps) == [Runs.Enter] + [wake] + Flat(passes) + [Runs.Leave]
      ensures forall i :: 0 <= i < |passes| ==> OnePass(passes[i], script, i, i < |passes| - 1)
    {
      QuietIsEmpty(Runs.Outside);
      ghost var start := Runs.Sys(model, Runs.Outside);
      passes, wake := [], Runs.Enter;
      var owned := DrainEnter();
      Took(start, [], start, Runs.Enter, if owned then Runs.Waiting else Runs.Outside);
      steps := [] + [Runs.Enter];
      if !owned { return; }
      steps, wake, passes := DrainOwned(script, start, steps);
      QuietIsEmpty(Runs.Outside);
    }

    /** The drain of the caller that owns it. */
    method DrainOwned(script: seq<Turn>, ghost start: Runs.Sys, ghost steps: seq<Runs.Step>)
      returns (ghost after: seq<Runs.Step>, ghost wake: Runs.Step, ghost passes: seq<seq<Runs.Step>>)
      requires AtRun(start, steps, Runs.Waiting)
      modifies this, history
      ensures AtRun(start, after, Runs.Outside)
      ensures wake.Wake? || (wake.GiveUpWaiting? && steps + AllActs(script) + [wake] <= after)
      ensures Doings(after) == Doings(steps) + [wake] + Flat(passes) + [Runs.Leave]
      ensures forall i :: 0 <= i < |passes| ==> OnePass(passes[i], script, i, i < |passes| - 1)
    {
      hide AtRun, Doings, OnePass, Runs.Run, Runs.Inv;
      passes := [];
      var go;
      go, after := Await(script, start, steps);
      wake := after[|after| - 1];
      var i := 0;
      while go
        invariant AtRun(start, after, if go then Runs.Choosing else Runs.Leaving) && i == |passes| <= |script| + 1
        invariant Doings(after) == Doings(steps) + [wake] + Flat(passes)
        invariant wake.GiveUpWaiting? ==> !go && after == steps + AllActs(script) + [wake]
        invariant forall k :: 0 <= k < i ==> OnePass(passes[k], script, k, k < i - 1 || go)
        invariant i == |script| + 1 ==> !go
        decreases |script| + 1 - i, go
      {
        ghost var pass;
        go, after, pass := Pass(script, i, start, after);
        FlatOne(passes, pass);
        PassEnds(pass, script, i, go);
        passes := passes + [pass];
        i := i + 1;
      }
      after := LeaveDrain(if i < |script| then script[i].window else [], start, after);
    }

    lemma PassEnds(p: seq<Runs.Step>, script: seq<Turn>, i: nat, goes: bool)
      requires OnePass(p, script, i, goes)
      ensures i >= |script| ==> !goes
    {
    }

    /** The lease is given back, after what owners still do. */
    method LeaveDrain(window: seq<Runs.Step>, ghost start: Runs.Sys, ghost steps: seq<Runs.Step>)
      returns (ghost after: seq<Runs.Step>)
      requires AtRun(start, steps, Runs.Leaving)
      modifies this, history
      ensures AtRun(start, after, Runs.Outside) && steps <= after && Doings(after) == Doings(steps) + [Runs.Leave]
    {
      hide Doings, Acts;
      after := Window(window, start, steps, Runs.Leaving);
      ghost var was := Runs.Sys(model, Runs.Leaving);
      Release();
      Took(start, after, was, Runs.Leave, Runs.Outside);
      after := after + [Runs.Leave];
    }

    method Decide(late: bool, ghost start: Runs.Sys, ghost steps: seq<Runs.Step>)
      returns (next: Next, ghost after: seq<Runs.Step>)
      requires AtRun(start, steps, Runs.Choosing)
      modifies this, history
      ensures AtRun(start, after, Standing(next)) && (late ==> next == Stop)
      ensures Doings(after) == Doings(steps) + [Runs.Choose(late)]
    {
      ghost var was := Runs.Sys(model, Runs.Choosing);
      Runs.ChooseKeeps(was, late);
      next := Pick(late);
      Took(start, steps, was, Runs.Choose(late), Standing(next));
      after := steps + [Runs.Choose(late)];
    }

    /** One pass of the drain loop; at the end of the script it always stops. */
    method Pass(script: seq<Turn>, i: nat, ghost start: Runs.Sys, ghost steps: seq<Runs.Step>)
      returns (go: bool, ghost after: seq<Runs.Step>, ghost pass: seq<Runs.Step>)
      requires AtRun(start, steps, Runs.Choosing) && i <= |script|
      modifies this, history
      ensures AtRun(start, after, if go then Runs.Choosing else Runs.Leaving)
      ensures OnePass(pass, script, i, go) && Doings(after) == Doings(steps) + pass
    {
      hide AtRun, Doings, Runs.Run, Runs.Inv, Runs.Owned;
      var next;
      var late := i == |script| || script[i].late;
      next, after := Decide(late, start, steps);
      pass := [Runs.Choose(late)];
      if next == Stop { return false, after, pass; }
      if next.Do? {
        go, after := PerformWork(next.id, next.work, script[i], start, after);
        pass := pass + [Runs.Finish(script[i].thrown)];
      } else {
        go, after := ReceiveOnce(script[i], start, after);
        pass := pass + Heard(script[i], go);
      }
      if !go {
        after := Recover(script[i], start, after);
        pass := pass + [Runs.Handle];
      }
    }
  }
}
