/** The cleanup ledger as a mathematical value: records without links, work
    queues as sequences, and no redundant counter. Every critical section of the
    failure-cleanup ledger is one total function on this value. */
module LedgerSpec {
  import opened Common
  import opened MapSum

  datatype Phase = Idle | Running | Quiescent | Deadline | Error
  datatype Work = NoWork | CloseWork | NotifyWork

  datatype Flags = Flags(
    materialized: bool, closeSent: bool, terminal: bool, uncertain: bool,
    notified: bool, closeUncertain: bool, busy: bool, active: nat)

  const FRESH := Flags(false, false, false, false, false, false, false, 0)

  /** Counters that only grow. */
  datatype Totals = Totals(
    materialized: nat, closes: nat, terminals: nat, abandoned: nat, errors: nat,
    unused: nat, late: nat, visits: nat, accountingErrors: nat)

  /** What has happened so far; never consulted by a transition.
      `base` and `live` describe the latest barrier that a drain passed. */
  datatype Log = Log(
    closed: seq<int>, observed: set<int>, delivered: set<int>, unused: set<int>, aborted: set<int>,
    base: nat, live: nat)

  datatype Ledger = Ledger(
    records: map<int, Flags>, notify: seq<int>, close: seq<int>, history: set<int>,
    failed: bool, draining: bool, broken: bool, phase: Phase, totals: Totals, log: Log)

  const EMPTY := Ledger(map[], [], [], {}, false, false, false, Idle,
                        Totals(0, 0, 0, 0, 0, 0, 0, 0, 0), Log([], {}, {}, {}, {}, 0, 0))

  // What each gauge of the original counts.

  function ReservedW(r: Flags): nat { if r.materialized then 0 else 1 }

  function RemainingW(r: Flags): nat { if r.materialized && !r.terminal then 1 else 0 }

  function UncertainW(r: Flags): nat { if r.uncertain then 1 else 0 }

  function TerminalW(r: Flags): nat { if r.terminal then 1 else 0 }

  function ActiveW(r: Flags): nat { r.active }

  // Work queues.

  function Without(q: seq<int>, id: int): seq<int> {
    if q == [] then [] else if q[0] == id then q[1..] else [q[0]] + Without(q[1..], id)
  }

  function WorkOf(s: Ledger, id: int): Work {
    if id in s.notify then NotifyWork else if id in s.close then CloseWork else NoWork
  }

  function Desired(failed: bool, r: Flags): Work {
    if !r.busy && !r.notified &&
       (r.terminal || (failed && !r.materialized && !r.uncertain && r.active == 0)) then NotifyWork
    else if !r.busy && r.materialized && !r.terminal && !r.closeSent && !r.closeUncertain then CloseWork
    else NoWork
  }

  function Unlink(s: Ledger, id: int): Ledger {
    s.(notify := Without(s.notify, id), close := Without(s.close, id))
  }

  function Refresh(s: Ledger, id: int): Ledger
    requires id in s.records
  {
    var desired := Desired(s.failed, s.records[id]);
    if WorkOf(s, id) == desired then s
    else
      var u := Unlink(s, id);
      match desired
      case NoWork => u
      case NotifyWork => u.(notify := u.notify + [id])
      case CloseWork => u.(close := u.close + [id])
  }

  predicate Ready(r: Flags) {
    r.notified && r.active == 0 && !r.busy && (r.terminal || (!r.materialized && !r.uncertain))
  }

  function Retire(s: Ledger, id: int): Ledger
    requires id in s.records
  {
    if !Ready(s.records[id]) then s
    else var u := Unlink(s, id); u.(records := u.records - {id})
  }

  function Put(s: Ledger, id: int, r: Flags): Ledger {
    s.(records := s.records[id := r])
  }

  /** The common tail of most transitions: requeue, then retire. */
  function Settle(s: Ledger, id: int, r: Flags): Ledger {
    Retire(Refresh(Put(s, id, r), id), id)
  }

  // Flag updates that also move a running total.

  function MaterializedFlags(r: Flags): Flags { r.(materialized := true) }

  function Materialized(t: Totals, r: Flags): Totals {
    if r.materialized then t else t.(materialized := t.materialized + 1)
  }

  function CloseSentFlags(r: Flags): Flags { r.(closeSent := true, closeUncertain := false) }

  function CloseSent(t: Totals, r: Flags): Totals {
    if r.closeSent then t else t.(closes := t.closes + 1)
  }

  // Client-side transitions.

  datatype Admission = Admitted | Refused | RejectedFailed | RejectedClosed

  predicate CanRegister(s: Ledger, id: int) { !s.failed && id > 0 && id !in s.history }

  /** Without room for a record the identity is spent all the same. */
  function Register(s: Ledger, id: int, room: bool): Ledger {
    if !CanRegister(s, id) then s
    else if !room then s.(history := s.history + {id}, log := s.log.(aborted := s.log.aborted + {id}))
    else s.(records := s.records[id := FRESH], history := s.history + {id})
  }

  function Admit(s: Ledger, id: int, close: bool): Admission {
    if s.failed then (if close then Refused else RejectedFailed)
    else if id !in s.records || s.records[id].terminal || s.records[id].notified then
      (if close && id in s.history then Refused else RejectedClosed)
    else Admitted
  }

  function BeginSend(s: Ledger, id: int, close: bool): Ledger {
    if Admit(s, id, close) != Admitted then s
    else Put(s, id, s.records[id].(active := s.records[id].active + 1))
  }

  function SentFlags(r: Flags, close: bool, success: bool): Flags {
    if success then (if close then CloseSentFlags(MaterializedFlags(r)) else MaterializedFlags(r))
    else if r.terminal then r
    else r.(uncertain := true, closeUncertain := r.closeUncertain || close)
  }

  function SentTotals(t: Totals, r: Flags, close: bool, success: bool): Totals {
    if !success then t
    else if close then CloseSent(Materialized(t, r), r)
    else Materialized(t, r)
  }

  predicate SendOpen(s: Ledger, id: int) { id in s.records && s.records[id].active > 0 }

  function EndSend(s: Ledger, id: int, close: bool, success: bool): Ledger {
    if !SendOpen(s, id) then
      s.(broken := true, phase := Error,
         totals := s.totals.(accountingErrors := s.totals.accountingErrors + 1))
    else
      var r := s.records[id].(active := s.records[id].active - 1);
      Settle(s.(totals := SentTotals(s.totals, r, close, success)), id, SentFlags(r, close, success))
  }

  predicate Unsent(s: Ledger, id: int)
    requires id in s.records
  {
    !s.records[id].materialized && !s.records[id].uncertain && s.records[id].active == 0
  }

  function Dropped(s: Ledger, id: int): Ledger {
    s.(totals := s.totals.(unused := s.totals.unused + 1), log := s.log.(unused := s.log.unused + {id}))
  }

  /** Shared by both retirements of an identity that was never sent to. */
  function RetireUnsent(s: Ledger, id: int): Ledger {
    if id !in s.records || !Unsent(s, id) then s
    else
      var r := s.records[id];
      var u := if r.notified then s else Dropped(s, id);
      Settle(u, id, r.(notified := true))
  }

  function RejectShutdown(s: Ledger, id: int): Ledger {
    if s.failed || id !in s.records || s.records[id].terminal then s
    else Refresh(Put(s, id, s.records[id].(closeSent := false, closeUncertain := false)), id)
  }

  // Worker-side transitions.

  datatype Observed = Known | Late | Foreign

  function Lookup(s: Ledger, id: int): Observed {
    if id in s.records then Known else if id in s.history then Late else Foreign
  }

  function ObservedFlags(r: Flags, terminal: bool): Flags {
    r.(materialized := true, terminal := r.terminal || terminal,
       uncertain := r.uncertain && !terminal && r.closeUncertain)
  }

  function ObservedTotals(t: Totals, r: Flags, terminal: bool): Totals {
    var u := Materialized(t, r);
    if terminal && !r.terminal then u.(terminals := u.terminals + 1) else u
  }

  function Observe(s: Ledger, id: int, terminal: bool): Ledger {
    match Lookup(s, id)
    case Foreign => s
    case Late => s.(totals := s.totals.(late := s.totals.late + 1))
    case Known =>
      var r := s.records[id];
      var u := s.(totals := ObservedTotals(s.totals, r, terminal),
                  log := if terminal then s.log.(observed := s.log.observed + {id}) else s.log);
      Refresh(Put(u, id, ObservedFlags(r, terminal)), id)
  }

  /** None of the record changes when the acknowledgement is out of order. */
  function Acknowledge(s: Ledger, id: int): Ledger {
    if id !in s.records || !s.records[id].terminal then s
    else Settle(s.(log := s.log.(delivered := s.log.delivered + {id})), id,
                s.records[id].(notified := true))
  }

  // The critical sections of one drain.

  function DrainEnter(s: Ledger): Ledger {
    if s.broken then s.(phase := Error)
    else if s.draining then s.(totals := s.totals.(errors := s.totals.errors + 1))
    else s.(draining := true, failed := true, phase := Running)
  }

  ghost predicate NoSends(s: Ledger) { forall id :: id in s.records ==> s.records[id].active == 0 }

  ghost predicate Enumerates(s: Ledger, order: seq<int>) {
    && (forall i, j :: 0 <= i < j < |order| ==> order[i] != order[j])
    && (forall id :: id in order <==> id in s.records)
  }

  function RefreshAll(s: Ledger, order: seq<int>): (r: Ledger)
    requires forall id :: id in order ==> id in s.records
    ensures r.records == s.records && r == s.(notify := r.notify, close := r.close)
  {
    if order == [] then s
    else
      var t := RefreshAll(s, order[..|order| - 1]);
      Refresh(t, order[|order| - 1])
  }

  function Barrier(s: Ledger, order: seq<int>): Ledger
    requires Enumerates(s, order)
  {
    var u := s.(totals := s.totals.(visits := s.totals.visits + |s.records|),
                log := s.log.(base := s.totals.visits, live := |s.records|));
    RefreshAll(u, order)
  }

  predicate Drained(s: Ledger) {
    && s.notify == [] && s.close == []
    && forall id :: id in s.records ==>
         s.records[id].materialized && s.records[id].terminal && !s.records[id].uncertain
  }

  function NextWork(s: Ledger): (int, Work)
    requires s.notify != [] || s.close != []
  {
    if s.notify != [] then (s.notify[0], NotifyWork) else (s.close[0], CloseWork)
  }

  /** Take the head of a queue; the effect itself follows outside the lock. */
  function Take(s: Ledger): Ledger
    requires s.notify != [] || s.close != []
    requires NextWork(s).0 in s.records
  {
    var (id, work) := NextWork(s);
    var u := Unlink(s, id);
    u.(records := u.records[id := u.records[id].(busy := true)],
       totals := u.totals.(visits := u.totals.visits + 1),
       log := if work == CloseWork then u.log.(closed := u.log.closed + [id]) else u.log)
  }

  function FinishFlags(r: Flags, work: Work, thrown: bool): Flags {
    var b := r.(busy := false);
    if thrown then
      (if work == CloseWork && !r.terminal then b.(closeUncertain := true, uncertain := true) else b)
    else if work == CloseWork then CloseSentFlags(b)
    else b.(notified := true)
  }

  function FinishTotals(t: Totals, r: Flags, work: Work, thrown: bool): Totals {
    if thrown then t
    else if work == CloseWork then CloseSent(t, r)
    else if !r.notified && !r.materialized then t.(unused := t.unused + 1)
    else t
  }

  function FinishLog(l: Log, id: int, r: Flags, work: Work, thrown: bool): Log {
    if thrown || work != NotifyWork then l
    else if r.terminal then l.(delivered := l.delivered + {id})
    else if !r.notified && !r.materialized then l.(unused := l.unused + {id})
    else l
  }

  function FinishWork(s: Ledger, id: int, work: Work, thrown: bool): Ledger
    requires id in s.records
  {
    var r := s.records[id];
    Settle(s.(totals := FinishTotals(s.totals, r, work, thrown),
              log := FinishLog(s.log, id, r, work, thrown)),
           id, FinishFlags(r, work, thrown))
  }

  function Caught(s: Ledger): Ledger {
    s.(phase := Error, totals := s.totals.(errors := s.totals.errors + 1))
  }

  function CountAbandoned(s: Ledger): Ledger {
    s.(totals := s.totals.(abandoned := s.totals.abandoned + 1))
  }

  function Leave(s: Ledger): Ledger { s.(draining := false) }

  // Sequence facts about removing one identity from a queue.

  lemma {:induction false} WithoutAbsent(q: seq<int>, id: int)
    requires id !in q
    ensures Without(q, id) == q
  {
    if q != [] { WithoutAbsent(q[1..], id); }
  }

  lemma {:induction false} WithoutAt(q: seq<int>, i: nat)
    requires i < |q| && Distinct(q)
    ensures Without(q, q[i]) == q[..i] + q[i + 1..]
  {
    if i > 0 {
      WithoutAt(q[1..], i - 1);
      assert q[1..][..i - 1] == q[1..i];
      assert q[1..][i..] == q[i + 1..];
    }
  }

  /** Removal keeps the order and the other members. */
  lemma WithoutMembers(q: seq<int>, id: int)
    requires Distinct(q)
    ensures Distinct(Without(q, id)) && id !in Without(q, id)
    ensures forall x :: x in Without(q, id) <==> x in q && x != id
  {
    if id in q {
      var i :| 0 <= i < |q| && q[i] == id;
      WithoutAt(q, i);
      var w := q[..i] + q[i + 1..];
      assert forall x :: x in w <==> x in q[..i] || x in q[i + 1..];
      forall x | x in q && x != id ensures x in w {
        var j :| 0 <= j < |q| && q[j] == x;
        if j < i { assert q[..i][j] == x; } else { assert q[i + 1..][j - i - 1] == x; }
      }
    } else {
      WithoutAbsent(q, id);
    }
  }
}
