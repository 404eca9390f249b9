/** The redundant counts of the cleanup ledger: what each gauge counts, and how
    flags, gauges and running totals move together. */
module CleanupGauges {
  import opened Common
  import opened MapSum
  import opened LedgerSpec

  /** Counts over the live records. */
  datatype Gauges = Gauges(remaining: nat, uncertain: nat, reserved: nat, terminal: nat, active: nat)

  ghost predicate Counted(g: Gauges, records: nat, m: map<int, Flags>) {
    && g.remaining == Sum(m, RemainingW)
    && g.uncertain == Sum(m, UncertainW)
    && g.reserved == Sum(m, ReservedW)
    && g.terminal == Sum(m, TerminalW)
    && g.active == Sum(m, ActiveW)
    && records == |m|
  }

  lemma GaugesMatch(g: Gauges, records: nat, m: map<int, Flags>)
    requires Counted(g, records, m)
    ensures g.remaining == 0 && g.uncertain == 0 && g.reserved == 0 <==>
      forall id :: id in m ==> m[id].materialized && m[id].terminal && !m[id].uncertain
  {
    SumZero(m, RemainingW);
    SumZero(m, UncertainW);
    SumZero(m, ReservedW);
    if forall id :: id in m ==> m[id].materialized && m[id].terminal && !m[id].uncertain {
    } else {
      var id :| id in m && !(m[id].materialized && m[id].terminal && !m[id].uncertain);
      assert RemainingW(m[id]) != 0 || UncertainW(m[id]) != 0 || ReservedW(m[id]) != 0;
    }
  }

  lemma SendsMatch(g: Gauges, records: nat, l: Ledger)
    requires Counted(g, records, l.records)
    ensures g.active == 0 <==> NoSends(l)
  {
    SumZero(l.records, ActiveW);
    if NoSends(l) {
      forall id | id in l.records ensures ActiveW(l.records[id]) == 0 {}
    } else {
      var id :| id in l.records && l.records[id].active != 0;
      assert ActiveW(l.records[id]) != 0;
    }
  }

  /** The gauges have room for what `r` contributes to them. */
  predicate Covers(g: Gauges, r: Flags) {
    && g.remaining >= RemainingW(r) && g.uncertain >= UncertainW(r) && g.reserved >= ReservedW(r)
    && g.terminal >= TerminalW(r) && g.active >= ActiveW(r)
  }

  /** The gauges followed one record from flags `r` to flags `t`. */
  predicate Moved(g: Gauges, h: Gauges, r: Flags, t: Flags) {
    && h.remaining + RemainingW(r) == g.remaining + RemainingW(t)
    && h.uncertain + UncertainW(r) == g.uncertain + UncertainW(t)
    && h.reserved + ReservedW(r) == g.reserved + ReservedW(t)
    && h.terminal + TerminalW(r) == g.terminal + TerminalW(t)
    && h.active + ActiveW(r) == g.active + ActiveW(t)
  }

  /** Flags that no gauge looks at. */
  lemma MovedNot(g: Gauges, r: Flags, t: Flags)
    requires t.materialized == r.materialized && t.terminal == r.terminal && t.uncertain == r.uncertain && t.active == r.active
    ensures Moved(g, g, r, t)
    ensures Covers(g, r) ==> Covers(g, t)
  {
  }

  lemma MovedTwice(g: Gauges, mid: Gauges, h: Gauges, r: Flags, s: Flags, t: Flags)
    requires Moved(g, mid, r, s) && Moved(mid, h, s, t)
    ensures Moved(g, h, r, t)
  {
    hide RemainingW, UncertainW, ReservedW, TerminalW, ActiveW;
  }

  lemma Room(g: Gauges, records: nat, m: map<int, Flags>, id: int)
    requires id in m && Counted(g, records, m)
    ensures Covers(g, m[id])
  {
    hide RemainingW, UncertainW, ReservedW, TerminalW, ActiveW;
    SumReplace(m, id, m[id], RemainingW);
    SumReplace(m, id, m[id], UncertainW);
    SumReplace(m, id, m[id], ReservedW);
    SumReplace(m, id, m[id], TerminalW);
    SumReplace(m, id, m[id], ActiveW);
  }

  lemma Recount(g: Gauges, h: Gauges, records: nat, m: map<int, Flags>, id: int, t: Flags)
    requires id in m && Counted(g, records, m) && Moved(g, h, m[id], t)
    ensures Counted(h, records, m[id := t])
  {
    hide RemainingW, UncertainW, ReservedW, TerminalW, ActiveW;
    SumReplace(m, id, t, RemainingW);
    SumReplace(m, id, t, UncertainW);
    SumReplace(m, id, t, ReservedW);
    SumReplace(m, id, t, TerminalW);
    SumReplace(m, id, t, ActiveW);
    assert m[id := t].Keys == m.Keys;
  }

  lemma CountInsert(g: Gauges, records: nat, m: map<int, Flags>, id: int)
    requires id !in m && Counted(g, records, m)
    ensures Counted(g.(reserved := g.reserved + 1), records + 1, m[id := FRESH])
  {
    SumInsert(m, id, FRESH, RemainingW);
    SumInsert(m, id, FRESH, UncertainW);
    SumInsert(m, id, FRESH, ReservedW);
    SumInsert(m, id, FRESH, TerminalW);
    SumInsert(m, id, FRESH, ActiveW);
    assert m[id := FRESH].Keys == m.Keys + {id};
  }

  predicate Plausible(r: Flags) { r.terminal ==> r.materialized && !r.uncertain }

  lemma CountErase(g: Gauges, records: nat, m: map<int, Flags>, id: int, h: Gauges)
    requires id in m && Counted(g, records, m) && Ready(m[id]) && Plausible(m[id])
    ensures records > 0 && g.reserved >= ReservedW(m[id]) && g.terminal >= TerminalW(m[id])
    ensures h == g.(reserved := g.reserved - ReservedW(m[id]), terminal := g.terminal - TerminalW(m[id])) ==>
      Counted(h, records - 1, m - {id})
  {
    assert RemainingW(m[id]) == 0 && UncertainW(m[id]) == 0 && ActiveW(m[id]) == 0;
    hide RemainingW, UncertainW, ReservedW, TerminalW, ActiveW;
    SumSplit(m, id, RemainingW);
    SumSplit(m, id, UncertainW);
    SumSplit(m, id, ReservedW);
    SumSplit(m, id, TerminalW);
    SumSplit(m, id, ActiveW);
    assert (m - {id}).Keys == m.Keys - {id};
  }

  // One record changes, with the gauges and the running totals.

  method Materialize(r: Flags, g: Gauges, u: Totals) returns (t: Flags, h: Gauges, v: Totals)
    requires Covers(g, r)
    ensures t == MaterializedFlags(r) && v == Materialized(u, r)
    ensures Moved(g, h, r, t) && Covers(h, t)
  {
    t, h, v := r, g, u;
    if !r.materialized {
      t := t.(materialized := true);
      h := h.(reserved := h.reserved - 1);
      v := v.(materialized := v.materialized + 1);
      if !r.terminal { h := h.(remaining := h.remaining + 1); }
    }
  }

  method MarkCloseSent(r: Flags, u: Totals) returns (t: Flags, v: Totals)
    ensures t == CloseSentFlags(r) && v == CloseSent(u, r)
  {
    t, v := r, u;
    if !r.closeSent {
      t := t.(closeSent := true);
      v := v.(closes := v.closes + 1);
    }
    t := t.(closeUncertain := false);
  }

  method SetUncertain(r: Flags, g: Gauges, value: bool) returns (t: Flags, h: Gauges)
    requires Covers(g, r)
    ensures t == r.(uncertain := value)
    ensures Moved(g, h, r, t) && Covers(h, t)
  {
    t, h := r, g;
    if r.uncertain == value { return; }
    t := t.(uncertain := value);
    h := h.(uncertain := if value then h.uncertain + 1 else h.uncertain - 1);
  }

  method Unpin(r: Flags, g: Gauges) returns (t: Flags, h: Gauges)
    requires Covers(g, r) && r.active > 0
    ensures t == r.(active := r.active - 1)
    ensures Moved(g, h, r, t) && Covers(h, t)
  {
    t, h := r.(active := r.active - 1), g.(active := g.active - 1);
  }

  /** What a request that reached the source does to its record. */
  method Delivered(r: Flags, g: Gauges, u: Totals, close: bool) returns (t: Flags, h: Gauges, v: Totals)
    requires Covers(g, r)
    ensures t == SentFlags(r, close, true) && v == SentTotals(u, r, close, true)
    ensures Moved(g, h, r, t)
  {
    t, h, v := Materialize(r, g, u);
    if close {
      hide Moved, Covers;
      ghost var s := t;
      t, v := MarkCloseSent(t, v);
      MovedNot(h, s, t);
      MovedTwice(g, h, h, r, s, t);
    }
  }

  /** A request that may or may not have reached it. */
  method Doubted(r: Flags, g: Gauges, close: bool) returns (t: Flags, h: Gauges)
    requires Covers(g, r)
    ensures t == SentFlags(r, close, false) && Moved(g, h, r, t)
  {
    t, h := r, g;
    if r.terminal { return; }
    t, h := SetUncertain(t, h, true);
    if close {
      hide Moved, Covers;
      ghost var s := t;
      t := t.(closeUncertain := true);
      MovedNot(h, s, t);
      MovedTwice(g, h, h, r, s, t);
    }
  }

  method Sent(r: Flags, g: Gauges, u: Totals, close: bool, success: bool) returns (t: Flags, h: Gauges, v: Totals)
    requires Covers(g, r) && r.active > 0
    ensures var s := r.(active := r.active - 1); t == SentFlags(s, close, success) && v == SentTotals(u, s, close, success)
    ensures Moved(g, h, r, t)
  {
    hide Covers, Moved, SentFlags;
    var s, mid := Unpin(r, g);
    v := u;
    if success {
      t, h, v := Delivered(s, mid, u, close);
    } else {
      t, h := Doubted(s, mid, close);
    }
    MovedTwice(g, mid, h, r, s, t);
  }

  lemma SentPlausible(r: Flags, close: bool, success: bool)
    requires Plausible(r)
    ensures r.active > 0 ==> Plausible(SentFlags(r.(active := r.active - 1), close, success))
  {
  }

  method MarkTerminal(r: Flags, g: Gauges, u: Totals) returns (t: Flags, h: Gauges, v: Totals)
    requires Covers(g, r) && r.materialized && !r.terminal
    ensures t == r.(terminal := true) && v == u.(terminals := u.terminals + 1)
    ensures Moved(g, h, r, t) && Covers(h, t)
  {
    t := r.(terminal := true);
    h := g.(remaining := g.remaining - 1, terminal := g.terminal + 1);
    v := u.(terminals := u.terminals + 1);
  }

  method Noticed(r: Flags, g: Gauges, u: Totals, terminal: bool) returns (t: Flags, h: Gauges, v: Totals)
    requires Covers(g, r)
    ensures t == MaterializedFlags(r).(terminal := r.terminal || terminal) && v == ObservedTotals(u, r, terminal)
    ensures Moved(g, h, r, t) && Covers(h, t)
  {
    hide Covers, Moved;
    t, h, v := Materialize(r, g, u);
    if terminal && !r.terminal {
      ghost var s, mid := t, h;
      t, h, v := MarkTerminal(t, h, v);
      MovedTwice(g, mid, h, r, s, t);
    }
  }

  method Seen(r: Flags, g: Gauges, u: Totals, terminal: bool) returns (t: Flags, h: Gauges, v: Totals)
    requires Covers(g, r)
    ensures t == ObservedFlags(r, terminal) && v == ObservedTotals(u, r, terminal)
    ensures Moved(g, h, r, t)
  {
    hide Covers, Moved, ObservedTotals;
    t, h, v := Noticed(r, g, u, terminal);
    if terminal || !r.closeUncertain {
      ghost var s, mid := t, h;
      t, h := SetUncertain(t, h, false);
      MovedTwice(g, mid, h, r, s, t);
    }
  }

  /** An effect threw: a close of a live client is in doubt from here on. */
  method Thrown(r: Flags, g: Gauges, work: Work) returns (t: Flags, h: Gauges)
    requires Covers(g, r)
    ensures t == FinishFlags(r, work, true) && Moved(g, h, r, t)
  {
    t, h := r.(busy := false), g;
    if work == CloseWork && !r.terminal { t := t.(closeUncertain := true); }
    MovedNot(g, r, t);
    if work == CloseWork && !r.terminal {
      hide Covers, Moved;
      ghost var s := t;
      t, h := SetUncertain(t, h, true);
      MovedTwice(g, g, h, r, s, t);
    }
  }

  /** An effect returned. */
  method Returned(r: Flags, u: Totals, work: Work) returns (t: Flags, v: Totals)
    ensures t == FinishFlags(r, work, false) && v == FinishTotals(u, r, work, false)
  {
    t, v := r, u;
    if work == CloseWork {
      t, v := MarkCloseSent(t, v);
    } else if !r.notified {
      t := t.(notified := true);
      if !r.materialized { v := v.(unused := v.unused + 1); }
    }
    t := t.(busy := false);
  }

  lemma ReturnedSame(g: Gauges, r: Flags, work: Work)
    ensures Moved(g, g, r, FinishFlags(r, work, false))
  {
    MovedNot(g, r, FinishFlags(r, work, false));
  }

  /** The locked tail of an effect, after it returned or threw. */
  method Finished(r: Flags, g: Gauges, u: Totals, work: Work, thrown: bool) returns (t: Flags, h: Gauges, v: Totals)
    requires Covers(g, r)
    ensures t == FinishFlags(r, work, thrown) && v == FinishTotals(u, r, work, thrown)
    ensures Moved(g, h, r, t)
  {
    hide Covers, Moved, FinishFlags;
    if thrown {
      t, h := Thrown(r, g, work);
      return t, h, u;
    }
    ReturnedSame(g, r, work);
    t, v := Returned(r, u, work);
    h := g;
  }
}
