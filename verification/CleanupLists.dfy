/** Two doubly linked lists threaded through one map of records, and the two
    sequences they stand for. */
module CleanupLists {
  import opened Common
  import opened LedgerSpec

  /** Links name records by identity; identities are positive and 0 is null. */
  datatype Record = Record(flags: Flags, work: Work, previous: int, next: int)
  datatype Queue = Queue(head: int, tail: int)

  type Records = map<int, Record>

  ghost predicate NodeAt(recs: Records, order: seq<int>, i: nat, work: Work)
    requires i < |order|
  {
    && order[i] in recs && recs[order[i]].work == work
    && recs[order[i]].previous == (if i == 0 then 0 else order[i - 1])
    && recs[order[i]].next == (if i == |order| - 1 then 0 else order[i + 1])
  }

  /** `q` is a doubly linked list through `recs` that holds exactly `order`, and
      `order` has every record whose work is `work`. */
  ghost predicate Linked(recs: Records, q: Queue, order: seq<int>, work: Work) {
    && Distinct(order)
    && (order == [] ==> q == Queue(0, 0))
    && (order != [] ==> q == Queue(order[0], order[|order| - 1]))
    && (forall i :: 0 <= i < |order| ==> NodeAt(recs, order, i, work))
    && (forall id :: id in recs && recs[id].work == work ==> id in order)
  }

  ghost predicate SameFlags(recs: Records, m: map<int, Flags>) {
    recs.Keys == m.Keys && forall id :: id in recs ==> id > 0 && recs[id].flags == m[id]
  }

  // Splicing, as facts about the record maps before and after.

  /** `t` is `recs` with `id` taken out of its list. */
  ghost predicate Cut(recs: Records, t: Records, id: int) {
    && id in recs && t.Keys == recs.Keys
    && forall j :: j in recs ==> t[j] == Record(recs[j].flags,
         if j == id then NoWork else recs[j].work,
         if j == id then 0 else if j == recs[id].next then recs[id].previous else recs[j].previous,
         if j == id then 0 else if j == recs[id].previous then recs[id].next else recs[j].next)
  }

  function Shortened(q: Queue, r: Record): Queue {
    Queue(if r.previous != 0 then q.head else r.next, if r.next != 0 then q.tail else r.previous)
  }

  ghost predicate Loose(recs: Records) {
    forall id :: id in recs && recs[id].work == NoWork ==> recs[id].previous == 0 && recs[id].next == 0
  }

  /** A listed record knows its neighbours, and they are live and listed. */
  lemma Neighbours(recs: Records, q: Queue, order: seq<int>, work: Work, i: nat)
    requires Linked(recs, q, order, work) && i < |order| && 0 !in recs
    ensures order[i] in recs && recs[order[i]].work == work
    ensures recs[order[i]].previous == (if i == 0 then 0 else order[i - 1])
    ensures recs[order[i]].next == (if i == |order| - 1 then 0 else order[i + 1])
    ensures i > 0 ==> order[i - 1] in recs && order[i - 1] != 0 && recs[order[i - 1]].work == work
    ensures i < |order| - 1 ==> order[i + 1] in recs && order[i + 1] != 0 && recs[order[i + 1]].work == work
  {
    assert NodeAt(recs, order, i, work);
    if i > 0 { assert NodeAt(recs, order, i - 1, work); }
    if i + 1 < |order| { assert NodeAt(recs, order, i + 1, work); }
  }

  lemma CutSeq(order: seq<int>, i: nat)
    requires i < |order| && Distinct(order)
    ensures |Without(order, order[i])| == |order| - 1
    ensures forall k {:trigger Without(order, order[i])[k]} :: 0 <= k < |order| - 1 ==>
      Without(order, order[i])[k] == if k < i then order[k] else order[k + 1]
  {
    WithoutAt(order, i);
  }

  lemma CutNode(recs: Records, t: Records, q: Queue, order: seq<int>, work: Work, i: nat, k: nat)
    requires Linked(recs, q, order, work) && i < |order| && 0 !in recs && work != NoWork
    requires Cut(recs, t, order[i])
    requires k < |Without(order, order[i])|
    ensures NodeAt(t, Without(order, order[i]), k, work)
  {
    CutSeq(order, i);
    Neighbours(recs, q, order, work, i);
    var m, rest := if k < i then k else k + 1, Without(order, order[i]);
    Neighbours(recs, q, order, work, m);
    assert order[m] != order[i];
    assert i > 0 && m != i - 1 ==> order[m] != order[i - 1];
    assert i < |order| - 1 && m != i + 1 ==> order[m] != order[i + 1];
    assert t[order[m]].next == if m == i - 1 then recs[order[i]].next else recs[order[m]].next;
    assert t[order[m]].previous == if m == i + 1 then recs[order[i]].previous else recs[order[m]].previous;
    if k > 0 { assert rest[k - 1] == if k - 1 < i then order[k - 1] else order[k]; }
    if k + 1 < |rest| { assert rest[k + 1] == if k + 1 < i then order[k + 1] else order[k + 2]; }
  }

  lemma CutLinked(recs: Records, t: Records, q: Queue, order: seq<int>, work: Work, i: nat)
    requires Linked(recs, q, order, work) && i < |order| && work != NoWork && 0 !in recs
    requires Cut(recs, t, order[i]) && order[i] in recs
    ensures Linked(t, Shortened(q, recs[order[i]]), Without(order, order[i]), work)
    ensures |Without(order, order[i])| == |order| - 1
  {
    WithoutMembers(order, order[i]);
    var rest := Without(order, order[i]);
    forall k | 0 <= k < |rest| ensures NodeAt(t, rest, k, work) {
      CutNode(recs, t, q, order, work, i, k);
    }
    CutSeq(order, i);
    Neighbours(recs, q, order, work, i);
    assert forall id :: id in t && t[id].work == work ==> id in order && id != order[i];
  }

  /** A list that does not pass through `id` is untouched. */
  lemma CutElsewhere(recs: Records, t: Records, q: Queue, order: seq<int>, work: Work, id: int)
    requires Linked(recs, q, order, work) && Cut(recs, t, id) && work != NoWork && 0 !in recs
    requires forall k :: k == id || k == recs[id].previous || k == recs[id].next ==> k in recs ==> recs[k].work != work
    ensures Linked(t, q, order, work)
  {
    forall k | 0 <= k < |order| ensures NodeAt(t, order, k, work) {
      assert NodeAt(recs, order, k, work);
    }
  }

  /** Relink the neighbours of a record past it. */
  method SpliceOut(recs: Records, id: int) returns (t: Records)
    requires id in recs && forall k :: k == recs[id].previous || k == recs[id].next ==> k != id && (k != 0 <==> k in recs)
    requires recs[id].previous != 0 ==> recs[id].previous != recs[id].next
    ensures Cut(recs, t, id)
  {
    var r := recs[id];
    t := recs;
    if r.previous != 0 { t := t[r.previous := t[r.previous].(next := r.next)]; }
    if r.next != 0 { t := t[r.next := t[r.next].(previous := r.previous)]; }
    t := t[id := Record(r.flags, NoWork, 0, 0)];
  }

  /** `t` is `recs` with the unlisted `id` linked in behind `last`. */
  ghost predicate Appended(recs: Records, t: Records, last: int, id: int, work: Work) {
    && id in recs && recs[id].work == NoWork && id != last && t.Keys == recs.Keys
    && forall j :: j in recs ==>
         t[j] == (if j == id then Record(recs[id].flags, work, last, 0)
                  else if j == last then recs[j].(next := id) else recs[j])
  }

  lemma AppendLinked(recs: Records, t: Records, q: Queue, order: seq<int>, work: Work, id: int)
    requires Linked(recs, q, order, work) && work != NoWork && 0 !in recs
    requires Appended(recs, t, q.tail, id, work)
    ensures Linked(t, Queue(if q.tail != 0 then q.head else id, id), order + [id], work)
  {
    var n := |order|;
    forall k | 0 <= k < n ensures order[k] != id && NodeAt(t, order + [id], k, work) {
      Neighbours(recs, q, order, work, k);
      if k < n - 1 { assert order[k] != order[n - 1]; }
    }
    if n > 0 { Neighbours(recs, q, order, work, n - 1); }
    assert NodeAt(t, order + [id], n, work);
    forall j | j in t && t[j].work == work ensures j in order + [id] {
      if j != id { assert j in order; }
    }
  }

  lemma AppendElsewhere(recs: Records, t: Records, q: Queue, order: seq<int>, work: Work, last: int, id: int, w: Work)
    requires Linked(recs, q, order, work) && Appended(recs, t, last, id, w) && work != NoWork && w != work
    requires last in recs ==> recs[last].work == w
    ensures Linked(t, q, order, work)
  {
    forall k | 0 <= k < |order| ensures NodeAt(t, order, k, work) {
      assert NodeAt(recs, order, k, work);
    }
  }

  // The lists as a whole, against the queues of the specification.

  ghost predicate Shape(recs: Records, close: Queue, notify: Queue, l: Ledger) {
    && SameFlags(recs, l.records) && Loose(recs)
    && Linked(recs, close, l.close, CloseWork)
    && Linked(recs, notify, l.notify, NotifyWork)
  }

  /** The work field of a record names the queue that holds it. */
  lemma WorkIsQueue(recs: Records, close: Queue, notify: Queue, l: Ledger, id: int)
    requires Shape(recs, close, notify, l) && id in recs
    ensures recs[id].work == WorkOf(l, id)
    ensures recs[id].work != NotifyWork ==> id !in l.notify
    ensures recs[id].work != CloseWork ==> id !in l.close
  {
    if id in l.notify {
      var i :| 0 <= i < |l.notify| && l.notify[i] == id;
      assert NodeAt(recs, l.notify, i, NotifyWork);
    }
    if id in l.close {
      var i :| 0 <= i < |l.close| && l.close[i] == id;
      assert NodeAt(recs, l.close, i, CloseWork);
    }
  }

  /** The neighbours of a listed record are live and in the same list. */
  lemma Beside(recs: Records, close: Queue, notify: Queue, l: Ledger, id: int)
    requires Shape(recs, close, notify, l) && id in recs
    ensures 0 !in recs
    ensures forall k :: k == recs[id].previous || k == recs[id].next ==>
      k != id && (k != 0 <==> k in recs) && (k != 0 ==> recs[k].work == recs[id].work)
    ensures recs[id].previous != 0 ==> recs[id].previous != recs[id].next
  {
    var w := recs[id].work;
    if w != NoWork {
      var q, order := if w == NotifyWork then notify else close, if w == NotifyWork then l.notify else l.close;
      assert id in order;
      var i :| 0 <= i < |order| && order[i] == id;
      Neighbours(recs, q, order, w, i);
    }
  }

  /** Unlinking in memory is removal from the one sequence that has `id`. */
  lemma CutShape(recs: Records, t: Records, close: Queue, notify: Queue, l: Ledger, id: int)
    requires Shape(recs, close, notify, l) && Cut(recs, t, id) && recs[id].work != NoWork
    ensures var r := recs[id];
      Shape(t, if r.work == CloseWork then Shortened(close, r) else close,
            if r.work == NotifyWork then Shortened(notify, r) else notify, LedgerSpec.Unlink(l, id))
    ensures var r, u := recs[id], LedgerSpec.Unlink(l, id);
      && |u.close| == |l.close| - (if r.work == CloseWork then 1 else 0)
      && |u.notify| == |l.notify| - (if r.work == NotifyWork then 1 else 0)
      && u == l.(notify := u.notify, close := u.close)
  {
    WorkIsQueue(recs, close, notify, l, id);
    Beside(recs, close, notify, l, id);
    if recs[id].work == NotifyWork {
      var i :| 0 <= i < |l.notify| && l.notify[i] == id;
      CutLinked(recs, t, notify, l.notify, NotifyWork, i);
      CutElsewhere(recs, t, close, l.close, CloseWork, id);
      WithoutAbsent(l.close, id);
    } else {
      var i :| 0 <= i < |l.close| && l.close[i] == id;
      CutLinked(recs, t, close, l.close, CloseWork, i);
      CutElsewhere(recs, t, notify, l.notify, NotifyWork, id);
      WithoutAbsent(l.notify, id);
    }
  }

  /** Take `id` out of the list its work field names, if any. */
  method TakeOut(recs: Records, close: Queue, notify: Queue, ghost l: Ledger, id: int)
    returns (t: Records, closeAfter: Queue, notifyAfter: Queue)
    requires Shape(recs, close, notify, l) && id in recs
    ensures Shape(t, closeAfter, notifyAfter, LedgerSpec.Unlink(l, id))
    ensures t.Keys == recs.Keys && t[id].work == NoWork
    ensures var u := LedgerSpec.Unlink(l, id);
      && |u.close| == |l.close| - (if recs[id].work == CloseWork then 1 else 0)
      && |u.notify| == |l.notify| - (if recs[id].work == NotifyWork then 1 else 0)
  {
    var r := recs[id];
    WorkIsQueue(recs, close, notify, l, id);
    t, closeAfter, notifyAfter := recs, close, notify;
    if r.work == NoWork {
      WithoutAbsent(l.notify, id);
      WithoutAbsent(l.close, id);
      return;
    }
    Beside(recs, close, notify, l, id);
    t := SpliceOut(recs, id);
    CutShape(recs, t, close, notify, l, id);
    if r.work == NotifyWork {
      notifyAfter := Shortened(notify, r);
    } else {
      closeAfter := Shortened(close, r);
    }
  }

  method PutLast(recs: Records, close: Queue, notify: Queue, ghost l: Ledger, id: int, work: Work)
    returns (t: Records, closeAfter: Queue, notifyAfter: Queue)
    requires Shape(recs, close, notify, l) && id in recs && recs[id].work == NoWork && work != NoWork
    ensures Shape(t, closeAfter, notifyAfter,
                  if work == NotifyWork then l.(notify := l.notify + [id]) else l.(close := l.close + [id]))
    ensures t.Keys == recs.Keys
  {
    var q := if work == NotifyWork then notify else close;
    t, closeAfter, notifyAfter := recs, close, notify;
    TailLive(recs, close, notify, l);
    t := t[id := t[id].(work := work, previous := q.tail)];
    if q.tail != 0 { t := t[q.tail := t[q.tail].(next := id)]; }
    AppendShape(recs, t, close, notify, l, id, work);
    if work == NotifyWork {
      notifyAfter := Lengthened(notify, id);
    } else {
      closeAfter := Lengthened(close, id);
    }
  }

  lemma TailLive(recs: Records, close: Queue, notify: Queue, l: Ledger)
    requires Shape(recs, close, notify, l)
    ensures 0 !in recs
    ensures close.tail != 0 ==> close.tail in recs && recs[close.tail].work == CloseWork
    ensures notify.tail != 0 ==> notify.tail in recs && recs[notify.tail].work == NotifyWork
  {
    if l.close != [] { Neighbours(recs, close, l.close, CloseWork, |l.close| - 1); }
    if l.notify != [] { Neighbours(recs, notify, l.notify, NotifyWork, |l.notify| - 1); }
  }

  /** A queue head in memory is the head of the sequence it stands for. */
  lemma HeadsMatch(recs: Records, close: Queue, notify: Queue, l: Ledger)
    requires Shape(recs, close, notify, l)
    ensures notify.head == if l.notify == [] then 0 else l.notify[0]
    ensures close.head == if l.close == [] then 0 else l.close[0]
    ensures l.notify != [] ==> l.notify[0] != 0 && l.notify[0] in recs && recs[l.notify[0]].work == NotifyWork
    ensures l.close != [] ==> l.close[0] != 0 && l.close[0] in recs && recs[l.close[0]].work == CloseWork
  {
    if l.close != [] { assert NodeAt(recs, l.close, 0, CloseWork); }
    if l.notify != [] { assert NodeAt(recs, l.notify, 0, NotifyWork); }
  }

  function Lengthened(q: Queue, id: int): Queue { Queue(if q.tail != 0 then q.head else id, id) }

  lemma AppendShape(recs: Records, t: Records, close: Queue, notify: Queue, l: Ledger, id: int, work: Work)
    requires Shape(recs, close, notify, l) && work != NoWork
    requires Appended(recs, t, if work == NotifyWork then notify.tail else close.tail, id, work)
    ensures Shape(t, if work == CloseWork then Lengthened(close, id) else close,
                  if work == NotifyWork then Lengthened(notify, id) else notify,
                  if work == NotifyWork then l.(notify := l.notify + [id]) else l.(close := l.close + [id]))
  {
    TailLive(recs, close, notify, l);
    assert work == NotifyWork || work == CloseWork;
    hide NodeAt, Distinct;
    if work == NotifyWork {
      AppendLinked(recs, t, notify, l.notify, NotifyWork, id);
      AppendElsewhere(recs, t, close, l.close, CloseWork, notify.tail, id, NotifyWork);
    } else {
      AppendLinked(recs, t, close, l.close, CloseWork, id);
      AppendElsewhere(recs, t, notify, l.notify, NotifyWork, close.tail, id, CloseWork);
    }
  }

  /** New flags for one record leave the lists alone. */
  lemma FlagShape(recs: Records, close: Queue, notify: Queue, l: Ledger, id: int, r: Flags)
    requires Shape(recs, close, notify, l) && id in recs
    ensures Shape(recs[id := recs[id].(flags := r)], close, notify, Put(l, id, r))
  {
    var t := recs[id := recs[id].(flags := r)];
    forall i | 0 <= i < |l.close| ensures NodeAt(t, l.close, i, CloseWork) {
      assert NodeAt(recs, l.close, i, CloseWork);
    }
    forall i | 0 <= i < |l.notify| ensures NodeAt(t, l.notify, i, NotifyWork) {
      assert NodeAt(recs, l.notify, i, NotifyWork);
    }
  }

  /** Unlisted records come and go without touching the lists. */
  lemma NewShape(recs: Records, close: Queue, notify: Queue, l: Ledger, id: int)
    requires Shape(recs, close, notify, l) && id !in recs && id > 0
    ensures Shape(recs[id := Record(FRESH, NoWork, 0, 0)], close, notify, l.(records := l.records[id := FRESH]))
  {
    var t := recs[id := Record(FRESH, NoWork, 0, 0)];
    forall i | 0 <= i < |l.close| ensures NodeAt(t, l.close, i, CloseWork) {
      assert NodeAt(recs, l.close, i, CloseWork);
    }
    forall i | 0 <= i < |l.notify| ensures NodeAt(t, l.notify, i, NotifyWork) {
      assert NodeAt(recs, l.notify, i, NotifyWork);
    }
  }

  lemma EraseShape(recs: Records, close: Queue, notify: Queue, l: Ledger, id: int)
    requires Shape(recs, close, notify, l) && id in recs && recs[id].work == NoWork
    ensures Shape(recs - {id}, close, notify, l.(records := l.records - {id}))
  {
    forall i | 0 <= i < |l.close| ensures NodeAt(recs - {id}, l.close, i, CloseWork) {
      assert NodeAt(recs, l.close, i, CloseWork);
    }
    forall i | 0 <= i < |l.notify| ensures NodeAt(recs - {id}, l.notify, i, NotifyWork) {
      assert NodeAt(recs, l.notify, i, NotifyWork);
    }
  }

  /** The lists do not depend on totals and log. */
  lemma ShapeSame(recs: Records, close: Queue, notify: Queue, l: Ledger, m: Ledger)
    requires Shape(recs, close, notify, l)
    requires m.records == l.records && m.close == l.close && m.notify == l.notify
    ensures Shape(recs, close, notify, m)
  {
  }

  /** A record in memory carries the flags of its identity. */
  lemma SameAt(recs: Records, close: Queue, notify: Queue, l: Ledger, id: int)
    requires Shape(recs, close, notify, l)
    ensures id in recs <==> id in l.records
    ensures id in recs ==> recs[id].flags == l.records[id] && id > 0
    ensures recs.Keys == l.records.Keys
  {
  }
}
