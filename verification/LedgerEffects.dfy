/** What the cleanup ledger gets done. The invariants of module LedgerRuns say what
    a drain never does; here is what it does: before it listens, every client that
    a request may have reached is closed, and nobody else is waited for. */
module LedgerEffects {
  import opened Common
  import opened LedgerSpec
  import opened LedgerRuns

  // Queues past the barrier.

  /** Past the barrier each record is in the queue its flags call for. */
  ghost predicate Prompt(s: Sys) {
    Past(s.w) ==> Settled(s.l)
  }

  ghost predicate Settled(l: Ledger) {
    forall id :: id in l.records ==> WorkOf(l, id) == Desired(l.failed, l.records[id])
  }

  lemma RefreshSettles(l: Ledger, id: int, r: Flags)
    requires Linkable(l) && Settled(l) && id in l.records
    ensures Settled(Refresh(Put(l, id, r), id)) && Settled(Settle(l, id, r))
  {
    var p := Put(l, id, r);
    RefreshLinks(p, id);
    var q := Refresh(p, id);
    forall j | j in q.records ensures WorkOf(q, j) == Desired(q.failed, q.records[j]) {
      if j != id { assert WorkOf(l, j) == Desired(l.failed, l.records[j]) && WorkOf(p, j) == WorkOf(l, j); }
    }
    hide Linkable, Desired, Refresh, WorkOf;
    if Ready(r) { UnlinkSettles(q, id); }
  }

  lemma UnlinkSettles(q: Ledger, id: int)
    requires Linkable(q) && Settled(q)
    ensures var u := Unlink(q, id); Settled(u.(records := u.records - {id}))
  {
    UnlinkLinks(q, id);
  }

  lemma {:induction false} BarrierSettles(l: Ledger, order: seq<int>)
    requires Linkable(l) && forall id :: id in order ==> id in l.records
    ensures var t := RefreshAll(l, order);
      Linkable(t) && forall id :: id in order ==> WorkOf(t, id) == Desired(l.failed, l.records[id])
    decreases |order|
  {
    hide Linkable, Desired, WorkOf, Refresh;
    if order != [] {
      var k := |order| - 1;
      BarrierSettles(l, order[..k]);
      RefreshLinks(RefreshAll(l, order[..k]), order[k]);
      assert forall id :: id in order ==> id == order[k] || id in order[..k];
    }
  }

  lemma TakeSettles(l: Ledger)
    requires QueuesSound(l) && Settled(l) && Heads(l) && (l.notify != [] || l.close != [])
    ensures Settled(Take(l))
  {
    var id, t := NextWork(l).0, Take(l);
    UnlinkLinks(l, id);
    forall j | j in t.records ensures WorkOf(t, j) == Desired(t.failed, t.records[j]) {
      if j != id { assert WorkOf(l, j) == Desired(l.failed, l.records[j]); }
    }
  }

  lemma WakeSettles(s: Sys, order: seq<int>)
    requires Inv(s) && Enabled(s, Wake(order)) && !s.l.broken
    ensures Settled(Apply(s, Wake(order)).l)
  {
    var l := s.l;
    var u := l.(totals := l.totals.(visits := l.totals.visits + |l.records|),
                log := l.log.(base := l.totals.visits, live := |l.records|));
    BarrierSettles(u, order);
  }

  /** What owner threads may still do during a drain leaves the records alone. */
  lemma OwnersIdle(s: Sys, e: Step)
    requires Inv(s) && Past(s.w) && Owned(e) && !e.DropUnsent?
    ensures var t := Apply(s, e).l; t.records == s.l.records && t.notify == s.l.notify && t.close == s.l.close && t.failed == s.l.failed
  {
    if e.End? && e.id in s.l.records { assert RecordSound(s.l.log, s.w, e.id, s.l.records[e.id]); }
    hide RecordsSound, QueuesSound, Accounted, TotalsSound, VisitsSound;
  }

  lemma SettledSame(l: Ledger, t: Ledger)
    requires Settled(l) && t.records == l.records && t.notify == l.notify && t.close == l.close && t.failed == l.failed
    ensures Settled(t)
  {
    forall id | id in t.records ensures WorkOf(t, id) == Desired(t.failed, t.records[id]) {
      assert WorkOf(l, id) == Desired(l.failed, l.records[id]);
    }
  }

  lemma StepPrompt(s: Sys, e: Step)
    requires Inv(s) && Prompt(s) && Enabled(s, e)
    ensures Prompt(Apply(s, e))
  {
    if !Past(s.w) {
      if e.Wake? && !s.l.broken { WakeSettles(s, e.order); }
    } else if Owned(e) && !e.DropUnsent? {
      OwnersIdle(s, e);
      hide Inv, Settled, Apply;
      SettledSame(s.l, Apply(s, e).l);
    } else {
      WorkPrompt(s, e);
    }
  }

  lemma WorkPrompt(s: Sys, e: Step)
    requires Inv(s) && Settled(s.l) && Past(s.w) && Enabled(s, e) && (e.DropUnsent? || !Owned(e))
    ensures Prompt(Apply(s, e))
  {
    hide Settled, RecordsSound, Accounted, GlobalSound, TotalsSound, VisitsSound, Settle, Refresh, Take;
    var l := s.l;
    if !e.DropUnsent? && !e.Finish? && !e.ReceiveItem? && !(e.Choose? && Apply(s, e).w.Working?) {
      SettledSame(l, Apply(s, e).l);
      return;
    }
    match e
    case DropUnsent(id) =>
      if id in l.records && Unsent(l, id) {
        var u := if l.records[id].notified then l else Dropped(l, id);
        SettledSame(l, u);
        RefreshSettles(u, id, l.records[id].(notified := true));
      }
    case Finish(thrown) =>
      var id, work := s.w.id, s.w.work;
      var u := Finishing(l, id, work, thrown);
      SettledSame(l, u);
      RefreshSettles(u, id, FinishFlags(l.records[id], work, thrown));
    case ReceiveItem(id, terminal) =>
      if id in l.records {
        var u := l.(totals := ObservedTotals(l.totals, l.records[id], terminal),
                    log := if terminal then l.log.(observed := l.log.observed + {id}) else l.log);
        SettledSame(l, u);
        RefreshSettles(u, id, ObservedFlags(l.records[id], terminal));
      } else {
        SettledSame(l, Apply(s, e).l);
      }
    case Choose(late) => TakeSettles(l);
  }

  lemma {:induction false} RunPrompt(s: Sys, steps: seq<Step>, t: Sys)
    requires Inv(s) && Prompt(s) && Run(s, steps, t)
    ensures Prompt(t)
    decreases |steps|
  {
    hide Inv, Prompt;
    if steps != [] {
      StepPrompt(s, steps[0]);
      StepKeeps(s, steps[0]);
      RunPrompt(Apply(s, steps[0]), steps[1..], t);
    }
  }

  // The records after a step.

  /** A record gets new flags, or goes when these leave nothing to wait for. */
  function Kept(m: map<int, Flags>, id: int, r: Flags): map<int, Flags> {
    if Ready(r) then m - {id} else m[id := r]
  }

  ghost function RecordsAfter(s: Sys, e: Step): map<int, Flags>
    requires Enabled(s, e)
  {
    var l, m := s.l, s.l.records;
    match e
    case Register(id, room) => if CanRegister(l, id) && room then m[id := FRESH] else m
    case Begin(id, close) => if Admit(l, id, close) == Admitted then m[id := m[id].(active := m[id].active + 1)] else m
    case End(id, close, success) =>
      if SendOpen(l, id) then Kept(m, id, SentFlags(m[id].(active := m[id].active - 1), close, success)) else m
    case DropUnsent(id) => if id in m && Unsent(l, id) then Kept(m, id, m[id].(notified := true)) else m
    case Reject(id) =>
      if !l.failed && id in m && !m[id].terminal then m[id := m[id].(closeSent := false, closeUncertain := false)] else m
    case See(id, terminal) => if id in m then m[id := ObservedFlags(m[id], terminal)] else m
    case ReceiveItem(id, terminal) => if id in m then m[id := ObservedFlags(m[id], terminal)] else m
    case Acked(id) => if id in m && m[id].terminal then Kept(m, id, m[id].(notified := true)) else m
    case Finish(thrown) => Kept(m, s.w.id, FinishFlags(m[s.w.id], s.w.work, thrown))
    case Choose(late) =>
      if Apply(s, e).w.Working? then m[NextWork(l).0 := m[NextWork(l).0].(busy := true)] else m
    case _ => m
  }

  lemma StepRecords(s: Sys, e: Step)
    requires Enabled(s, e)
    ensures Apply(s, e).l.records == RecordsAfter(s, e) && (e.Finish? ==> s.w.Working? && s.w.id in s.l.records)
  {
    if e.End? || e.DropUnsent? || e.Acked? || e.Finish? {
      SettleRecords(s, e);
    } else if e.Choose? {
      ChooseRecords(s, e.late);
    } else {
      PlainRecords(s, e);
    }
  }

  lemma ChooseRecords(s: Sys, late: bool)
    requires Enabled(s, Choose(late))
    ensures Apply(s, Choose(late)).l.records == RecordsAfter(s, Choose(late))
  {
    hide Without, Drained;
  }

  lemma PlainRecords(s: Sys, e: Step)
    requires Enabled(s, e) && !e.End? && !e.DropUnsent? && !e.Acked? && !e.Finish? && !e.Choose?
    ensures Apply(s, e).l.records == RecordsAfter(s, e)
  {
    if e.See? { SeenRecords(s.l, e.id, e.terminal); }
    if e.ReceiveItem? { SeenRecords(s.l, e.id, e.terminal); }
    hide Without, Desired, ObservedFlags, ObservedTotals, Observe, Refresh;
    if e.Reject? { RejectRecords(s.l, e.id); }
  }

  lemma SeenRecords(l: Ledger, id: int, terminal: bool)
    ensures Observe(l, id, terminal).records == if id in l.records then l.records[id := ObservedFlags(l.records[id], terminal)] else l.records
  {
    hide Without, Desired, ObservedFlags, ObservedTotals;
  }

  lemma RejectRecords(l: Ledger, id: int)
    ensures RejectShutdown(l, id).records
         == if !l.failed && id in l.records && !l.records[id].terminal
            then l.records[id := l.records[id].(closeSent := false, closeUncertain := false)] else l.records
  {
    hide Without, Desired;
  }

  /** The steps that are about one identity. */
  predicate Concerns(s: Sys, e: Step, id: int) {
    || ((e.Register? || e.Begin? || e.End? || e.DropUnsent? || e.Reject? || e.See? || e.ReceiveItem? || e.Acked?) && e.id == id)
    || (e.Finish? && s.w.Working? && s.w.id == id)
  }

  lemma OthersStay(s: Sys, e: Step, id: int)
    requires Enabled(s, e) && !Concerns(s, e, id)
    ensures var m, n := s.l.records, Apply(s, e).l.records;
      (id in n <==> id in m) && (id in m ==> n[id] == m[id].(busy := n[id].busy))
  {
    hide Apply, Enabled, SentFlags, ObservedFlags, FinishFlags, Admit, CanRegister, Ready;
    StepRecords(s, e);
    if e.Choose? && Apply(s, e).w.Working? { PickedLive(s, e.late); }
  }

  lemma PickedLive(s: Sys, late: bool)
    requires Enabled(s, Choose(late)) && Apply(s, Choose(late)).w.Working?
    ensures NextWork(s.l).0 in s.l.records
  {
  }

  lemma SettleRecords(s: Sys, e: Step)
    requires Enabled(s, e) && (e.End? || e.DropUnsent? || e.Acked? || e.Finish?)
    ensures Apply(s, e).l.records == RecordsAfter(s, e)
  {
    hide Settle, SentFlags, FinishFlags, Ready, SentTotals, FinishTotals, FinishLog;
    var l := s.l;
    match e
    case End(id, close, success) =>
      if SendOpen(l, id) {
        var r := l.records[id].(active := l.records[id].active - 1);
        SettleFrame(l.(totals := SentTotals(l.totals, r, close, success)), id, SentFlags(r, close, success));
      }
    case DropUnsent(id) =>
      if id in l.records && Unsent(l, id) {
        SettleFrame(if l.records[id].notified then l else Dropped(l, id), id, l.records[id].(notified := true));
      }
    case Acked(id) =>
      if id in l.records && l.records[id].terminal {
        SettleFrame(l.(log := l.log.(delivered := l.log.delivered + {id})), id, l.records[id].(notified := true));
      }
    case Finish(thrown) =>
      SettleFrame(Finishing(l, s.w.id, s.w.work, thrown), s.w.id, FinishFlags(l.records[s.w.id], s.w.work, thrown));
  }

  lemma RecordKnown(s: Sys, id: int)
    requires Inv(s) && id in s.l.records
    ensures id in s.l.history && RecordSound(s.l.log, s.w, id, s.l.records[id])
  {
  }

  // Main results.

  /** A drain listens only once nothing else is left to do: every client that is
      known to the source has its close sent or in doubt, and any other record is
      one whose only request may or may not have arrived. */
  lemma ListensOnlyWhenClosed(steps: seq<Step>, s: Sys, late: bool)
    requires Run(START, steps, s) && s.w == Choosing && Enabled(s, Choose(late)) && Apply(s, Choose(late)).w == Receiving
    ensures forall id :: id in s.l.records ==> var r := s.l.records[id];
              !r.terminal && if r.materialized then r.closeSent || r.closeUncertain else r.uncertain
  {
    StartSound();
    RunKeeps(START, steps, s);
    RunPrompt(START, steps, s);
    forall id | id in s.l.records ensures var r := s.l.records[id];
        !r.terminal && if r.materialized then r.closeSent || r.closeUncertain else r.uncertain {
      assert RecordSound(s.l.log, s.w, id, s.l.records[id]);
      assert WorkOf(s.l, id) == Desired(s.l.failed, s.l.records[id]);
    }
  }

  /** An identity nothing was ever sent for is noticed from the barrier on. */
  lemma ReservedNoticed(s: Sys, order: seq<int>, id: int)
    requires Inv(s) && Enabled(s, Wake(order)) && !s.l.broken && id in s.l.records
    ensures var t, r := Apply(s, Wake(order)), s.l.records[id];
      id in t.l.records && t.l.records[id] == r && (!r.materialized && !r.uncertain ==> id in t.l.notify)
  {
    WakeSettles(s, order);
    StepKeeps(s, Wake(order));
    assert RecordSound(s.l.log, s.w, id, s.l.records[id]);
    assert WorkOf(Apply(s, Wake(order)).l, id) == Desired(s.l.failed, s.l.records[id]);
  }

  /** A client's close that is sent or in doubt. */
  predicate Closing(r: Flags) { r.closeSent || r.closeUncertain }

  /** The client itself tried to close. */
  predicate OwnClose(steps: seq<Step>, id: int) {
    exists i :: 0 <= i < |steps| && steps[i].End? && steps[i].id == id && steps[i].close
  }

  /** Where a close sent or in doubt comes from. */
  lemma {:induction false} ClosingIsReal(s: Sys, steps: seq<Step>, t: Sys, id: int)
    requires Inv(s) && Run(s, steps, t) && id in t.l.records && Closing(t.l.records[id])
    requires id in s.l.records && Closing(s.l.records[id]) ==> id in s.l.log.closed
    ensures id in t.l.log.closed || OwnClose(steps, id)
    decreases |steps|
  {
    if steps != [] {
      var e, u := steps[0], Apply(s, steps[0]);
      StepKeeps(s, e);
      if e.End? && e.id == id && e.close { return; }
      StepClosing(s, e, id);
      hide Inv, Apply, Enabled;
      ClosingIsReal(u, steps[1..], t, id);
      if OwnClose(steps[1..], id) {
        var i :| 0 <= i < |steps[1..]| && steps[1..][i].End? && steps[1..][i].id == id && steps[1..][i].close;
        assert steps[i + 1] == steps[1..][i];
      }
    }
  }

  lemma StepClosing(s: Sys, e: Step, id: int)
    requires Inv(s) && Enabled(s, e) && !(e.End? && e.id == id && e.close)
    requires id in s.l.records && Closing(s.l.records[id]) ==> id in s.l.log.closed
    ensures var u := Apply(s, e); id in u.l.records && Closing(u.l.records[id]) ==> id in u.l.log.closed
  {
    hide Inv, Apply, Enabled;
    ClosedGrows(s, e);
    if !Concerns(s, e, id) {
      OthersStay(s, e, id);
      return;
    }
    StepRecords(s, e);
    if id in s.l.records { RecordKnown(s, id); }
  }

  lemma ClosedGrows(s: Sys, e: Step)
    requires Enabled(s, e)
    ensures forall id :: id in s.l.log.closed ==> id in Apply(s, e).l.log.closed
  {
    if !e.Choose? { StepRemembers(s, e); }
  }

  /** Whenever the drain listens, each client known to the source was closed by the
      cleanup or had itself tried to close. */
  lemma EveryoneIsClosed(steps: seq<Step>, s: Sys, late: bool, id: int)
    requires Run(START, steps, s) && s.w == Choosing && Enabled(s, Choose(late)) && Apply(s, Choose(late)).w == Receiving
    requires id in s.l.records && s.l.records[id].materialized
    ensures id in s.l.log.closed || OwnClose(steps, id)
  {
    ListensOnlyWhenClosed(steps, s, late);
    StartSound();
    ClosingIsReal(START, steps, s, id);
  }

  /** How a pass through the drain loop ends the drain, and that nothing else does. */
  lemma PhaseTells(s: Sys, late: bool)
    requires Inv(s) && s.w == Choosing && Enabled(s, Choose(late))
    ensures var t := Apply(s, Choose(late));
      && (t.w == Leaving <==> s.l.broken || s.l.records == map[] || late)
      && (t.w == Leaving ==> t.l.phase == if s.l.broken then Error else if s.l.records == map[] then Quiescent else Deadline)
      && (t.w != Leaving ==> (t.w.Working? <==> s.l.notify != [] || s.l.close != []))
  {
    DrainedExactly(s);
    hide Inv, Drained;
  }

  /** Work is taken from the front, ends before closes, and by one hand only. */
  lemma NoticesFirst(s: Sys, late: bool)
    requires Inv(s) && s.w == Choosing && Enabled(s, Choose(late)) && Apply(s, Choose(late)).w.Working?
    ensures var t := Apply(s, Choose(late));
      && (if s.l.notify != [] then t.w == Working(s.l.notify[0], NotifyWork)
          else s.l.close != [] && t.w == Working(s.l.close[0], CloseWork))
      && t.w.id in t.l.records && t.l.records[t.w.id].busy && t.w.id !in t.l.notify && t.w.id !in t.l.close
  {
    hide Drained, Without;
    WithoutMembers(s.l.notify, NextWork(s.l).0);
    WithoutMembers(s.l.close, NextWork(s.l).0);
  }

  /** A drain that may begin shuts out new clients and new sends at once. */
  lemma DrainShutsOut(s: Sys, id: int, close: bool, room: bool)
    requires Inv(s) && s.w == Outside && !s.l.broken
    ensures var t := Apply(s, Enter);
      && t.w == Waiting && t.l.phase == Running && Apply(t, Register(id, room)) == t
      && Apply(t, Begin(id, close)) == t && (Admit(t.l, id, close) == if close then Refused else RejectedFailed)
  {
  }

  /** The ledger is open to sends of the client. */
  predicate Accepts(l: Ledger, id: int) {
    !l.failed && id in l.records && !l.records[id].terminal && !l.records[id].notified
  }

  /** Steps that may shut a client out: a drain begins, its end is seen, or it is
      dropped as never sent to. */
  predicate Shuts(e: Step, id: int) {
    e.Enter? || e.EnterAgain? || (e.See? && e.id == id && e.terminal) || (e.DropUnsent? && e.id == id)
  }

  lemma StepAccepts(s: Sys, e: Step, id: int)
    requires Inv(s) && Enabled(s, e) && Accepts(s.l, id) && !Shuts(e, id)
    ensures Accepts(Apply(s, e).l, id)
  {
    StepRecords(s, e);
    StaysUnfailed(s, e);
    RecordKnown(s, id);
    hide Inv, Apply, Admit;
    if !Concerns(s, e, id) { OthersStay(s, e, id); }
  }

  lemma StaysUnfailed(s: Sys, e: Step)
    requires Inv(s) && Enabled(s, e) && !s.l.failed && !e.Enter? && !e.EnterAgain?
    ensures s.w == Outside && !Apply(s, e).l.failed
  {
    hide Observe, Settle, RejectShutdown;
    SettleUnfailed();
    if e.See? { SeenFrame(s.l, e.id, e.terminal); }
    if e.Reject? { RejectFrame(s.l, e.id); }
  }

  lemma SettleUnfailed()
    ensures forall l: Ledger, id, r: Flags :: Settle(l, id, r).failed == l.failed
  {
    hide Without, Desired;
  }

  lemma RejectFrame(l: Ledger, id: int)
    ensures RejectShutdown(l, id).failed == l.failed
  {
    hide Without, Desired;
  }

  lemma SeenFrame(l: Ledger, id: int, terminal: bool)
    ensures Observe(l, id, terminal).failed == l.failed
  {
    hide Without, Desired;
  }

  lemma {:induction false} RunAccepts(s: Sys, steps: seq<Step>, t: Sys, id: int)
    requires Inv(s) && Run(s, steps, t) && Accepts(s.l, id) && forall e :: e in steps ==> !Shuts(e, id)
    ensures Accepts(t.l, id)
    decreases |steps|
  {
    if steps != [] {
      StepAccepts(s, steps[0], id);
      StepKeeps(s, steps[0]);
      assert forall f :: f in steps[1..] ==> f in steps;
      hide Inv, Apply, Enabled, Accepts, Shuts;
      RunAccepts(Apply(s, steps[0]), steps[1..], t, id);
    }
  }

  /** A new client takes sends in every later state, until a drain begins, its end is
      seen or it is dropped; every one of them is then counted. */
  lemma TakesSends(before: seq<Step>, s: Sys, id: int, steps: seq<Step>, t: Sys, close: bool)
    requires Run(START, before, s) && !s.l.failed && id > 0 && id !in s.l.history
    requires Run(Apply(s, Register(id, true)), steps, t) && forall e :: e in steps ==> !Shuts(e, id)
    ensures Admit(t.l, id, close) == Admitted && Active(Apply(t, Begin(id, close)).l, id) == Active(t.l, id) + 1
  {
    StartSound();
    RunKeeps(START, before, s);
    StepKeeps(s, Register(id, true));
    StepRecords(s, Register(id, true));
    StaysUnfailed(s, Register(id, true));
    RunAccepts(Apply(s, Register(id, true)), steps, t, id);
    hide Inv, Run;
  }

  /** After its end was seen a client takes no send, nor does one that was dropped. */
  lemma EndedTakesNone(s: Sys, id: int, close: bool)
    requires Inv(s) && id in s.l.records
    ensures s.w == Outside ==> Admit(Apply(s, See(id, true)).l, id, close) != Admitted
    ensures Unsent(s.l, id) ==> Admit(Apply(s, DropUnsent(id)).l, id, close) != Admitted
  {
    if s.w == Outside { StepRecords(s, See(id, true)); }
    StepRecords(s, DropUnsent(id));
    hide Inv, Apply;
  }

  // Sends.

  /** Sends admitted for an identity and not ended yet. */
  function Open(s: Sys, e: Step, id: int): int {
    match e
    case Begin(j, close) => if j == id && Admit(s.l, id, close) == Admitted then 1 else 0
    case End(j, _, _) => if j == id && SendOpen(s.l, id) then -1 else 0
    case _ => 0
  }

  ghost function Opened(s: Sys, steps: seq<Step>, id: int): int
    decreases |steps|
  {
    if steps == [] || !Enabled(s, steps[0]) then 0
    else Open(s, steps[0], id) + Opened(Apply(s, steps[0]), steps[1..], id)
  }

  function Active(l: Ledger, id: int): nat { if id in l.records then l.records[id].active else 0 }

  /** No change of flags touches the sends under way, and a record with any stays. */
  lemma FlagsPinned(r: Flags, close: bool, success: bool, terminal: bool, work: Work, thrown: bool)
    ensures SentFlags(r, close, success).active == r.active && ObservedFlags(r, terminal).active == r.active
    ensures FinishFlags(r, work, thrown).active == r.active && (Ready(r) ==> r.active == 0)
  {
  }

  lemma StepActive(s: Sys, e: Step, id: int)
    requires Inv(s) && Enabled(s, e)
    ensures Active(Apply(s, e).l, id) == Active(s.l, id) + Open(s, e, id)
  {
    hide Inv, Apply, Enabled;
    if !Concerns(s, e, id) {
      OthersStay(s, e, id);
      return;
    }
    StepRecords(s, e);
    forall r, close, success, terminal, work, thrown
      ensures SentFlags(r, close, success).active == r.active && ObservedFlags(r, terminal).active == r.active
      ensures FinishFlags(r, work, thrown).active == r.active && (Ready(r) ==> r.active == 0)
    {
      FlagsPinned(r, close, success, terminal, work, thrown);
    }
    if id in s.l.records { RecordKnown(s, id); }
    hide SentFlags, ObservedFlags, FinishFlags, Ready, RecordSound;
  }

  lemma {:induction false} RunActive(s: Sys, steps: seq<Step>, t: Sys, id: int)
    requires Inv(s) && Run(s, steps, t)
    ensures Active(t.l, id) == Active(s.l, id) + Opened(s, steps, id)
    decreases |steps|
  {
    if steps != [] {
      StepActive(s, steps[0], id);
      StepKeeps(s, steps[0]);
      hide Inv, Active, Open, Apply, Enabled;
      RunActive(Apply(s, steps[0]), steps[1..], t, id);
    }
  }

  /** An admitted send pins its record until it ends, whatever else happens: the
      end of a send breaks the ledger exactly when it has no beginning. */
  lemma SendsPinned(steps: seq<Step>, s: Sys, id: int, close: bool, success: bool)
    requires Run(START, steps, s)
    ensures Opened(START, steps, id) >= 0 && (Opened(START, steps, id) > 0 ==> id in s.l.records)
    ensures var t := Apply(s, End(id, close, success)).l; t.broken <==> s.l.broken || Opened(START, steps, id) == 0
  {
    hide Opened, Inv, Run, Settle;
    StartSound();
    RunActive(START, steps, s, id);
    if SendOpen(s.l, id) { EndBreaksNothing(s.l, id, close, success); }
  }

  lemma EndBreaksNothing(l: Ledger, id: int, close: bool, success: bool)
    requires SendOpen(l, id)
    ensures EndSend(l, id, close, success).broken == l.broken
  {
    hide Settle, SentTotals, SentFlags;
    var r := l.records[id].(active := l.records[id].active - 1);
    SettleFrame(l.(totals := SentTotals(l.totals, r, close, success)), id, SentFlags(r, close, success));
  }

  /** A step after which the source may know the identity. */
  predicate Reaches(s: Sys, e: Step, id: int) {
    id in s.l.records
    && ((e.End? && e.id == id && s.l.records[id].active > 0) || ((e.See? || e.ReceiveItem?) && e.id == id))
  }

  /** The identity waits for its terminal, or has had it. */
  ghost predicate Reached(l: Ledger, id: int) {
    && id in l.history && id !in l.log.unused && id !in l.log.aborted
    && (id in l.records ==> l.records[id].materialized || l.records[id].uncertain)
  }

  /** A request that may have arrived stays on record. */
  predicate Marked(r: Flags) { r.materialized || r.uncertain }

  lemma FlagsMarked(g: Log, w: Worker, id: int, r: Flags, close: bool, success: bool, terminal: bool, thrown: bool)
    requires RecordSound(g, w, id, r)
    ensures Marked(ObservedFlags(r, terminal)) && (r.active > 0 ==> Marked(SentFlags(r.(active := r.active - 1), close, success)))
    ensures Marked(r) && w.Working? && w.id == id ==> Marked(FinishFlags(r, w.work, thrown))
  {
  }

  lemma ReachedRecord(s: Sys, e: Step, id: int)
    requires Inv(s) && Enabled(s, e) && id in s.l.records && (Marked(s.l.records[id]) || Reaches(s, e, id))
    ensures id in Apply(s, e).l.records ==> Marked(Apply(s, e).l.records[id])
  {
    hide Inv, Apply, Enabled;
    if !Concerns(s, e, id) {
      OthersStay(s, e, id);
      return;
    }
    StepRecords(s, e);
    RecordKnown(s, id);
    hide Inv, Apply, Enabled, Ready;
    var g, r := s.l.log, s.l.records[id];
    if e.End? { FlagsMarked(g, s.w, id, r, e.close, e.success, false, false); }
    if e.See? || e.ReceiveItem? { FlagsMarked(g, s.w, id, r, false, false, e.terminal, false); }
    if e.Finish? { FlagsMarked(g, s.w, id, r, false, false, false, e.thrown); }
    hide SentFlags, ObservedFlags, FinishFlags, RecordSound;
  }

  lemma ReachingNow(s: Sys, e: Step, id: int)
    requires Inv(s) && Enabled(s, e) && Reaches(s, e, id)
    ensures id in s.l.history && id in s.l.records && id !in s.l.log.unused && id !in s.l.log.aborted
    ensures !e.DropUnsent? && !e.Finish?
  {
    RecordKnown(s, id);
    hide Inv;
  }

  lemma StepReached(s: Sys, e: Step, id: int)
    requires Inv(s) && Enabled(s, e) && (Reached(s.l, id) || Reaches(s, e, id))
    ensures Reached(Apply(s, e).l, id)
  {
    hide Inv, Apply, Enabled, RecordSound, Reaches;
    if Reaches(s, e, id) { ReachingNow(s, e, id); }
    StepKeeps(s, e);
    StepUnused(s, e, id);
    StepRemembers(s, e);
    if id in s.l.records { ReachedRecord(s, e, id); }
  }

  lemma StepUnused(s: Sys, e: Step, id: int)
    requires Inv(s) && Enabled(s, e)
    ensures var g, h := s.l.log, Apply(s, e).l.log;
      && (id in h.unused && id !in g.unused ==>
            (e.DropUnsent? || e.Finish?) && id in s.l.records && !s.l.records[id].materialized && !s.l.records[id].uncertain)
      && (id in h.aborted && id !in g.aborted ==> id !in s.l.history)
  {
    if s.w.Working? { RecordKnown(s, s.w.id); }
    if e.End? || e.DropUnsent? || e.Acked? || e.Finish? {
      SettleLog(s, e);
      hide Inv, Apply;
    } else {
      PlainUnused(s, e);
      hide Inv, Apply;
    }
  }

  lemma PlainUnused(s: Sys, e: Step)
    requires Enabled(s, e) && !(e.End? || e.DropUnsent? || e.Acked? || e.Finish?)
    ensures var g, h := s.l.log, Apply(s, e).l.log;
      h.unused == g.unused && (h.aborted == g.aborted || (e.Register? && e.id !in s.l.history && h.aborted == g.aborted + {e.id}))
  {
    if e.Choose? { ChooseUnused(s, e.late); } else { OtherUnused(s, e); }
    hide Apply, Enabled;
  }

  lemma ChooseUnused(s: Sys, late: bool)
    requires Enabled(s, Choose(late))
    ensures var g, h := s.l.log, Apply(s, Choose(late)).l.log; h.unused == g.unused && h.aborted == g.aborted
  {
    hide Without, Drained;
  }

  lemma OtherUnused(s: Sys, e: Step)
    requires Enabled(s, e) && !(e.End? || e.DropUnsent? || e.Acked? || e.Finish? || e.Choose?)
    ensures var g, h := s.l.log, Apply(s, e).l.log;
      h.unused == g.unused && (h.aborted == g.aborted || (e.Register? && e.id !in s.l.history && h.aborted == g.aborted + {e.id}))
  {
    if e.See? { SeenUnused(s.l, e.id, e.terminal); }
    else if e.ReceiveItem? { SeenUnused(s.l, e.id, e.terminal); }
    else if e.Reject? { RejectUnused(s.l, e.id); }
    hide Without, Desired, ObservedFlags, ObservedTotals, Observe, RejectShutdown;
  }

  lemma SeenUnused(l: Ledger, id: int, terminal: bool)
    ensures var h := Observe(l, id, terminal).log; h.unused == l.log.unused && h.aborted == l.log.aborted
  {
    hide Without, Desired, ObservedFlags, ObservedTotals;
  }

  lemma RejectUnused(l: Ledger, id: int)
    ensures RejectShutdown(l, id).log == l.log
  {
    hide Without, Desired;
  }

  lemma SettleLog(s: Sys, e: Step)
    requires Enabled(s, e) && (e.End? || e.DropUnsent? || e.Acked? || e.Finish?)
    ensures Apply(s, e).l.log.aborted == s.l.log.aborted
    ensures var g, h := s.l.log, Apply(s, e).l.log;
      match e
         case DropUnsent(id) => h.unused <= g.unused + {id} && (h.unused != g.unused ==> id in s.l.records && Unsent(s.l, id))
         case Finish(thrown) => var r := s.l.records[s.w.id];
           h.unused <= g.unused + {s.w.id} && (h.unused != g.unused ==> s.w.work == NotifyWork && !r.terminal && !r.materialized)
         case _ => h.unused == g.unused
  {
    hide Settle, SentFlags, FinishFlags, SentTotals, FinishTotals;
    var l := s.l;
    match e
    case End(id, close, success) =>
      if SendOpen(l, id) {
        var r := l.records[id].(active := l.records[id].active - 1);
        SettleFrame(l.(totals := SentTotals(l.totals, r, close, success)), id, SentFlags(r, close, success));
      }
    case DropUnsent(id) =>
      if id in l.records && Unsent(l, id) {
        SettleFrame(if l.records[id].notified then l else Dropped(l, id), id, l.records[id].(notified := true));
      }
    case Acked(id) =>
      if id in l.records && l.records[id].terminal {
        SettleFrame(l.(log := l.log.(delivered := l.log.delivered + {id})), id, l.records[id].(notified := true));
      }
    case Finish(thrown) =>
      SettleFrame(Finishing(l, s.w.id, s.w.work, thrown), s.w.id, FinishFlags(l.records[s.w.id], s.w.work, thrown));
  }

  lemma {:induction false} RunReached(s: Sys, steps: seq<Step>, t: Sys, id: int)
    requires Inv(s) && Run(s, steps, t) && Reached(s.l, id)
    ensures Reached(t.l, id)
    decreases |steps|
  {
    hide Inv, Reached, Reaches, Apply, Enabled;
    if steps != [] {
      StepReached(s, steps[0], id);
      StepKeeps(s, steps[0]);
      RunReached(Apply(s, steps[0]), steps[1..], t, id);
    }
  }

  /** An identity that a request may have reached, or an item came from, is never
      dropped as unused: its record stays until a terminal is observed and
      delivered. */
  lemma ReachedAwaitsTerminal(before: seq<Step>, s: Sys, e: Step, steps: seq<Step>, t: Sys, id: int)
    requires Run(START, before, s) && Enabled(s, e) && Reaches(s, e, id) && Run(Apply(s, e), steps, t)
    ensures id !in t.l.log.unused
    ensures id in t.l.records || (id in t.l.log.observed && id in t.l.log.delivered)
  {
    StartSound();
    RunKeeps(START, before, s);
    StepReached(s, e, id);
    StepKeeps(s, e);
    RunReached(Apply(s, e), steps, t, id);
    RunKeeps(Apply(s, e), steps, t);
    assert id in t.l.records || Over(t.l.log, id);
  }

  // Closes of the client's own.

  lemma {:induction false} RunClosing(s: Sys, steps: seq<Step>, t: Sys, id: int)
    requires Inv(s) && Run(s, steps, t) && id in s.l.history && forall e :: e in steps ==> !(e.Reject? && e.id == id)
    requires id in s.l.records && !s.l.records[id].terminal ==> Closing(s.l.records[id])
    ensures id in t.l.records && !t.l.records[id].terminal ==> Closing(t.l.records[id])
    ensures id in t.l.log.closed ==> id in s.l.log.closed
    decreases |steps|
  {
    if steps != [] {
      var e, u := steps[0], Apply(s, steps[0]);
      StepKeeps(s, e);
      StepStaysClosing(s, e, id);
      assert forall f :: f in steps[1..] ==> f in steps;
      hide Inv, Apply, Enabled, Closing;
      RunClosing(u, steps[1..], t, id);
    }
  }

  lemma StepStaysClosing(s: Sys, e: Step, id: int)
    requires Inv(s) && Enabled(s, e) && id in s.l.history && !(e.Reject? && e.id == id)
    requires id in s.l.records && !s.l.records[id].terminal ==> Closing(s.l.records[id])
    ensures var u := Apply(s, e).l;
      && id in u.history && (id in u.records && !u.records[id].terminal ==> Closing(u.records[id]))
      && (id in u.log.closed ==> id in s.l.log.closed)
  {
    hide Inv, Apply, Enabled;
    StepRemembers(s, e);
    if id in Apply(s, e).l.log.closed && id !in s.l.log.closed { CloseOnlyWhenDue(s, e, id); }
    if !Concerns(s, e, id) {
      OthersStay(s, e, id);
      return;
    }
    StepRecords(s, e);
    if id in s.l.records { RecordKnown(s, id); }
  }

  /** A client that tried to close, well or not, is not closed again by the
      cleanup unless its shutdown is reported as rejected. */
  lemma OwnCloseStands(s: Sys, id: int, success: bool, steps: seq<Step>, t: Sys)
    requires Inv(s) && SendOpen(s.l, id) && Run(Apply(s, End(id, true, success)), steps, t)
    requires forall e :: e in steps ==> !(e.Reject? && e.id == id)
    ensures id in t.l.log.closed <==> id in s.l.log.closed
  {
    var e := End(id, true, success);
    StepKeeps(s, e);
    StepRecords(s, e);
    StepRemembers(s, e);
    RecordKnown(s, id);
    var u := Apply(s, e);
    hide Inv, Apply, Enabled;
    RunClosing(u, steps, t, id);
    RunClosedGrows(u, steps, t);
  }

  lemma {:induction false} RunClosedGrows(s: Sys, steps: seq<Step>, t: Sys)
    requires Run(s, steps, t)
    ensures forall id :: id in s.l.log.closed ==> id in t.l.log.closed
    decreases |steps|
  {
    hide Apply, Enabled;
    if steps != [] {
      ClosedGrows(s, steps[0]);
      RunClosedGrows(Apply(s, steps[0]), steps[1..], t);
    }
  }

  /** A rejected shutdown puts a client known to the source back in line. */
  lemma RejectReopens(s: Sys, id: int)
    requires Inv(s) && !s.l.failed && id in s.l.records && !s.l.records[id].terminal
    ensures var t := Apply(s, Reject(id)).l; !Closing(t.records[id]) && (s.l.records[id].materialized ==> id in t.close)
  {
    var p := Put(s.l, id, s.l.records[id].(closeSent := false, closeUncertain := false));
    RefreshLinks(p, id);
    assert RecordSound(s.l.log, s.w, id, s.l.records[id]);
  }

  /** An identity nothing was sent for is given up at once, unless the worker is
      just reporting it; a delivered terminal ends its record once no send is
      left. */
  lemma GivenUpAtOnce(s: Sys, id: int)
    requires Inv(s) && id in s.l.records
    ensures Unsent(s.l, id) ==> var t := Apply(s, DropUnsent(id)).l;
              id in t.log.unused && ((s.w.Working? && s.w.id == id) || id !in t.records)
    ensures s.w == Outside && s.l.records[id].terminal ==> var t := Apply(s, Acked(id)).l;
              id in t.log.delivered && (id !in t.records <==> s.l.records[id].active == 0)
  {
    assert RecordSound(s.l.log, s.w, id, s.l.records[id]);
    var l := s.l;
    if Unsent(l, id) {
      SettleFrame(if l.records[id].notified then l else Dropped(l, id), id, l.records[id].(notified := true));
    }
    if l.records[id].terminal {
      SettleFrame(l.(log := l.log.(delivered := l.log.delivered + {id})), id, l.records[id].(notified := true));
    }
  }

  /** An item settles whether a request arrived, except that a close in doubt
      stays in doubt until the terminal. */
  lemma SeenIsCertain(s: Sys, id: int, terminal: bool)
    requires Inv(s) && s.w == Outside && id in s.l.records
    ensures var r, t := s.l.records[id], Apply(s, See(id, terminal)).l.records[id];
      && t.materialized && (t.terminal <==> r.terminal || terminal)
      && (t.uncertain <==> r.uncertain && r.closeUncertain && !terminal) && t.closeUncertain == r.closeUncertain
  {
    StepRecords(s, See(id, terminal));
    RecordKnown(s, id);
    hide Inv;
  }
}
