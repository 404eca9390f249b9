/** The bounded buffer of generic envelopes of one client: a mailbox, a FIFO of
    weak ticket references and a shared count of tickets. The receiver prunes,
    compacts and evicts while owner threads may pop, drop or expire tickets
    between any two of its accesses. Retiring a ticket is two accesses, an
    exchange and later a decrement of the count, and anything may fall between
    them. */
module GenericBuffer {
  import opened Common
  import opened MapSum

  const SIZE_MAX := 0xFFFF_FFFF_FFFF_FFFF

  datatype Drop = Kept | Overflow | Expired
  datatype Ticket = Ticket(expires: int, active: bool, reason: Drop)

  /** `sequence` is the receive number of the envelope; payloads are left out. */
  datatype Envelope = Envelope(sequence: nat, ticket: Option<nat>)

  type Tickets = map<nat, Ticket>

  function ActiveW(t: Ticket): nat { if t.active then 1 else 0 }

  function Settled(t: Ticket, reason: Drop): Ticket {
    if t.active then t.(active := false, reason := reason) else t
  }

  /** The ticket after its deadline was compared with the clock. */
  function Ripe(t: Ticket, now: int): Ticket {
    if now >= t.expires then Settled(t, Expired) else t
  }

  /** Later tickets: none is revived, none changes its deadline, and one that
      was settled keeps its reason. */
  ghost predicate Aged(before: Tickets, after: Tickets) {
    forall t :: t in before ==>
      && t in after && after[t].expires == before[t].expires
      && (!before[t].active ==> after[t] == before[t])
  }

  /** No ticket active in `before` was lost to overflow since. */
  ghost predicate NoneEvicted(before: Tickets, after: Tickets) {
    forall t :: t in before && before[t].active && t in after && !after[t].active ==> after[t].reason != Overflow
  }

  /** The tickets of one client: the records, the shared count, the retirements
      under way, which are past their exchange and before their decrement, the
      tickets of delivered envelopes the owner still has, and the one the receiver
      refers to for now. */
  datatype Book = Book(tickets: Tickets, made: nat, pending: nat, under: set<nat>, hand: set<nat>, pin: Option<nat>,
                       overflowed: nat, expired: nat)

  datatype Mailbox = Mailbox(queue: seq<Envelope>, orphan: bool, dequeued: nat, dropped: nat, abandoned: nat)

  const NO_TICKETS := Book(map[], 0, 0, {}, {}, None, 0, 0)
  const NO_MAIL := Mailbox([], false, 0, 0, 0)

  predicate Queued(queue: seq<Envelope>, t: nat) {
    exists i :: 0 <= i < |queue| && queue[i].ticket == Some(t)
  }

  /** Who refers to which ticket: an envelope in the queue, the owner or the
      receiver. An active ticket is referred to; a queued one is active unless
      the receiver is about to erase it. */
  ghost predicate Sound(b: Book, queue: seq<Envelope>) {
    && (forall i :: 0 <= i < |queue| && queue[i].ticket.Some? ==> Placed(b, queue[i].ticket.value))
    && (forall i, j :: 0 <= i < j < |queue| && queue[i].ticket.Some? ==> queue[i].ticket != queue[j].ticket)
    && (forall t :: t in b.hand ==> t in b.tickets) && (b.pin.Some? ==> b.pin.value in b.tickets)
    && (forall t :: t in b.tickets && b.tickets[t].active ==> Held(b, queue, t))
    && (forall t :: t in b.tickets ==> t < b.made)
    && (forall t :: t in b.under ==> t in b.tickets && !b.tickets[t].active)
    && b.pending == Active(b) + |b.under|
  }

  /** How many tickets are active. */
  ghost function Active(b: Book): nat { Sum(b.tickets, ActiveW) }

  ghost predicate Placed(b: Book, t: nat) {
    t in b.tickets && t !in b.hand && (b.tickets[t].active || b.pin == Some(t))
  }

  predicate Held(b: Book, queue: seq<Envelope>, t: nat) {
    t in b.hand || b.pin == Some(t) || Queued(queue, t)
  }

  /** The receiver's ticket is no longer in the queue unless it is active. */
  ghost predicate Cleared(b: Book, queue: seq<Envelope>) {
    b.pin.Some? && Queued(queue, b.pin.value) ==> b.pin.value in b.tickets && b.tickets[b.pin.value].active
  }

  /** The metadata FIFO has every active ticket, oldest deadline first. */
  ghost predicate Listed(fifo: seq<nat>, tickets: Tickets) {
    && Distinct(fifo)
    && (forall i :: 0 <= i < |fifo| ==> fifo[i] in tickets)
    && (forall i, j :: 0 <= i < j < |fifo| ==> tickets[fifo[i]].expires <= tickets[fifo[j]].expires)
    && (forall t :: t in tickets && tickets[t].active ==> t in fifo)
  }

  /** The active tickets of a FIFO, oldest first. */
  function ActiveIn(fifo: seq<nat>, tickets: Tickets): seq<nat> {
    if fifo == [] then []
    else
      var t := fifo[|fifo| - 1];
      ActiveIn(fifo[..|fifo| - 1], tickets) + (if t in tickets && tickets[t].active then [t] else [])
  }

  function Plain(q: seq<Envelope>): seq<Envelope> {
    if q == [] then []
    else Plain(q[..|q| - 1]) + (if q[|q| - 1].ticket == None then [q[|q| - 1]] else [])
  }

  ghost predicate Rising(q: seq<Envelope>) {
    forall i, j :: 0 <= i < j < |q| ==> q[i].sequence < q[j].sequence
  }

  /** The ticket an envelope brings into the owner's hands. */
  function Carried(e: Envelope): set<nat> {
    if e.ticket.Some? then {e.ticket.value} else {}
  }

  function Latest(sent: seq<Envelope>): nat {
    if sent == [] then 0 else sent[|sent| - 1].sequence
  }

  /** Where the envelopes given to the mailbox are: delivered in order, still
      queued, or counted as dropped or abandoned. Those without a ticket are
      never dropped. */
  ghost predicate Flow(m: Mailbox, sent: seq<Envelope>, done: seq<Envelope>) {
    && Rising(done + m.queue) && (forall e :: e in done + m.queue ==> e.sequence <= Latest(sent))
    && (if m.orphan then m.queue == [] else Plain(done) + Plain(m.queue) == Plain(sent))
    && |sent| == m.dequeued + m.dropped + m.abandoned + |m.queue| && m.dequeued == |done|
  }

  /** What ticket accesses and owner steps leave alone. */
  ghost predicate Framed(b: Book, c: Book) {
    && c.made == b.made && c.tickets.Keys == b.tickets.Keys && Aged(b.tickets, c.tickets)
    && c.pending <= b.pending && c.pin == b.pin
  }

  /** What the receiver may rely on across steps of the owner. */
  ghost predicate Relied(b: Book, m: Mailbox, c: Book, n: Mailbox) {
    && Framed(b, c) && NoneEvicted(b.tickets, c.tickets) && c.overflowed == b.overflowed
    && n.orphan == m.orphan && n.abandoned == m.abandoned
    && (Cleared(b, m.queue) ==> Cleared(c, n.queue))
  }

  /** What the receiver's own steps leave alone while nothing overflows. */
  ghost predicate Worked(b: Book, m: Mailbox, c: Book, n: Mailbox) {
    && Framed(b, c.(pin := b.pin)) && NoneEvicted(b.tickets, c.tickets) && c.overflowed == b.overflowed
    && n.orphan == m.orphan && n.abandoned == m.abandoned
  }

  // Facts about active tickets.

  lemma {:induction false} ActiveConcat(a: seq<nat>, b: seq<nat>, tickets: Tickets)
    ensures ActiveIn(a + b, tickets) == ActiveIn(a, tickets) + ActiveIn(b, tickets)
  {
    if b == [] {
      assert a + b == a;
    } else {
      assert (a + b)[..|a + b| - 1] == a + b[..|b| - 1];
      ActiveConcat(a, b[..|b| - 1], tickets);
    }
  }

  lemma {:induction false} ActiveMembers(q: seq<nat>, tickets: Tickets)
    ensures forall t :: t in ActiveIn(q, tickets) <==> t in q && t in tickets && tickets[t].active
  {
    if q != [] {
      ActiveMembers(q[..|q| - 1], tickets);
      assert q == q[..|q| - 1] + [q[|q| - 1]];
    }
  }

  lemma {:induction false} ActiveSame(q: seq<nat>, before: Tickets, after: Tickets)
    requires forall t :: t in q ==> ((t in before && before[t].active) <==> (t in after && after[t].active))
    ensures ActiveIn(q, before) == ActiveIn(q, after)
  {
    if q != [] { ActiveSame(q[..|q| - 1], before, after); }
  }

  /** Filtering twice is filtering by the later map. */
  lemma {:induction false} ActiveAgain(q: seq<nat>, before: Tickets, after: Tickets)
    requires forall t :: t in q && t in after && after[t].active ==> t in before && before[t].active
    ensures ActiveIn(ActiveIn(q, before), after) == ActiveIn(q, after)
  {
    if q != [] {
      var t := q[|q| - 1];
      ActiveAgain(q[..|q| - 1], before, after);
      ActiveConcat(ActiveIn(q[..|q| - 1], before), if t in before && before[t].active then [t] else [], after);
    }
  }

  /** A distinct list of active tickets is no longer than their count; a list
      with every active ticket has exactly that many of them. */
  lemma {:induction false} ActiveCount(q: seq<nat>, tickets: Tickets)
    requires Distinct(q) && forall t :: t in q ==> t in tickets && tickets[t].active
    ensures |q| <= Sum(tickets, ActiveW)
    ensures (forall t :: t in tickets && tickets[t].active ==> t in q) ==> |q| == Sum(tickets, ActiveW)
    decreases |q|
  {
    if q == [] {
      if forall t :: t in tickets && tickets[t].active ==> t in q {
        forall t | t in tickets ensures ActiveW(tickets[t]) == 0 {}
        SumZero(tickets, ActiveW);
      }
    } else {
      var t, rest := q[|q| - 1], q[..|q| - 1];
      var less := tickets[t := tickets[t].(active := false)];
      SumReplace(tickets, t, tickets[t].(active := false), ActiveW);
      ActiveCount(rest, less);
      if forall u :: u in tickets && tickets[u].active ==> u in q {
        forall u | u in less && less[u].active ensures u in rest {
          assert u in q && u != t;
        }
      }
    }
  }

  lemma {:induction false} ActiveDistinct(q: seq<nat>, tickets: Tickets)
    requires Distinct(q)
    ensures Distinct(ActiveIn(q, tickets))
  {
    if q != [] {
      ActiveDistinct(q[..|q| - 1], tickets);
      ActiveMembers(q[..|q| - 1], tickets);
    }
  }

  /** The list has as many active tickets as there are. */
  lemma ListedIsActive(fifo: seq<nat>, tickets: Tickets)
    requires Listed(fifo, tickets)
    ensures |ActiveIn(fifo, tickets)| == Sum(tickets, ActiveW)
  {
    ActiveDistinct(fifo, tickets);
    ActiveMembers(fifo, tickets);
    ActiveCount(ActiveIn(fifo, tickets), tickets);
  }

  /** The shared count is the active tickets and the retirements under way; it is
      the active tickets alone exactly when nothing is under way. */
  lemma PendingIsActive(b: Book, queue: seq<Envelope>, fifo: seq<nat>)
    requires Sound(b, queue) && Listed(fifo, b.tickets)
    ensures b.pending == |ActiveIn(fifo, b.tickets)| + |b.under|
    ensures b.pending == |ActiveIn(fifo, b.tickets)| <==> b.under == {}
  {
    ListedIsActive(fifo, b.tickets);
  }

  /** Settling tickets never raises the count, and lowers it if one was active. */
  lemma {:induction false} AgedCount(before: Tickets, after: Tickets)
    requires Aged(before, after) && after.Keys == before.Keys
    ensures Sum(after, ActiveW) <= Sum(before, ActiveW)
    ensures (exists t :: t in before && before[t].active && !after[t].active) ==> Sum(after, ActiveW) < Sum(before, ActiveW)
    decreases |before|
  {
    if before != map[] {
      if t :| t in before && before[t].active && !after[t].active {
        SumSplit(before, t, ActiveW);
        SumSplit(after, t, ActiveW);
        AgedCount(before - {t}, after - {t});
      } else if t :| t in before {
        SumSplit(before, t, ActiveW);
        SumSplit(after, t, ActiveW);
        AgedCount(before - {t}, after - {t});
      }
    }
  }

  lemma DropAt(q: seq<nat>, k: nat, tickets: Tickets)
    requires k < |q| && q[k] in tickets && !tickets[q[k]].active
    ensures ActiveIn(q[..k] + q[k + 1..], tickets) == ActiveIn(q, tickets)
  {
    assert q == q[..k] + ([q[k]] + q[k + 1..]);
    ActiveConcat(q[..k], [q[k]] + q[k + 1..], tickets);
    ActiveConcat([q[k]], q[k + 1..], tickets);
    ActiveConcat(q[..k], q[k + 1..], tickets);
    assert [q[k]][..0] == [];
  }

  /** Dropping an inactive entry keeps the list sound. */
  lemma ListedDrop(q: seq<nat>, k: nat, tickets: Tickets)
    requires Listed(q, tickets) && k < |q| && !tickets[q[k]].active
    ensures Listed(q[..k] + q[k + 1..], tickets)
  {
    var r := q[..k] + q[k + 1..];
    forall i, j | 0 <= i < j < |r| ensures r[i] != r[j] && tickets[r[i]].expires <= tickets[r[j]].expires {
      var x, y := if i < k then i else i + 1, if j < k then j else j + 1;
      assert r[i] == q[x] && r[j] == q[y];
    }
    forall t | t in tickets && tickets[t].active ensures t in r {
      var i :| 0 <= i < |q| && q[i] == t;
      assert r[if i < k then i else i - 1] == t;
    }
  }

  lemma ListedAged(q: seq<nat>, before: Tickets, after: Tickets)
    requires Listed(q, before) && Aged(before, after) && after.Keys == before.Keys
    ensures Listed(q, after)
  {
  }

  /** What the receiver relies on is enough for its own invariant. */
  lemma StaysValid(b: Book, m: Mailbox, c: Book, n: Mailbox, fifo: seq<nat>)
    requires Relied(b, m, c, n)
    ensures c.pending <= b.pending && c.pin == b.pin && c.tickets.Keys == b.tickets.Keys
    ensures forall t :: t in c.tickets ==> c.tickets[t].expires == b.tickets[t].expires
    ensures Listed(fifo, b.tickets) ==> Listed(fifo, c.tickets)
    ensures Active(c) <= Active(b) && n.orphan == m.orphan
  {
    AgedCount(b.tickets, c.tickets);
    if Listed(fifo, b.tickets) { ListedAged(fifo, b.tickets, c.tickets); }
    hide Listed, NoneEvicted, Cleared;
  }

  lemma AgedTwice(a: Tickets, b: Tickets, c: Tickets)
    requires Aged(a, b) && Aged(b, c)
    ensures Aged(a, c)
    ensures NoneEvicted(a, b) && NoneEvicted(b, c) ==> NoneEvicted(a, c)
  {
  }

  /** Two lists with the same active part keep having it as tickets settle. */
  lemma SameActive(q: seq<nat>, r: seq<nat>, before: Tickets, after: Tickets)
    requires ActiveIn(q, before) == ActiveIn(r, before) && Aged(before, after) && after.Keys == before.Keys
    ensures ActiveIn(q, after) == ActiveIn(r, after)
  {
    ActiveAgain(q, before, after);
    ActiveAgain(r, before, after);
  }

  /** A list that still has the active tickets of `origin`, in its order. */
  ghost predicate Tracks(fifo: seq<nat>, origin: seq<nat>, tickets: Tickets) {
    Listed(fifo, tickets) && ActiveIn(fifo, tickets) == ActiveIn(origin, tickets)
  }

  lemma TracksAged(fifo: seq<nat>, origin: seq<nat>, before: Tickets, after: Tickets)
    requires Tracks(fifo, origin, before) && Aged(before, after) && after.Keys == before.Keys
    ensures Tracks(fifo, origin, after)
  {
    ListedAged(fifo, before, after);
    SameActive(fifo, origin, before, after);
  }

  lemma TracksDrop(fifo: seq<nat>, k: nat, origin: seq<nat>, tickets: Tickets)
    requires Tracks(fifo, origin, tickets) && k < |fifo| && !tickets[fifo[k]].active
    ensures Tracks(fifo[..k] + fifo[k + 1..], origin, tickets)
  {
    DropAt(fifo, k, tickets);
    ListedDrop(fifo, k, tickets);
  }

  ghost predicate NoneOverdue(tickets: Tickets, now: int) {
    forall t :: t in tickets && tickets[t].active ==> now < tickets[t].expires
  }

  /** Each ticket is as it was or ripened at `now`. */
  ghost predicate RipenedSome(before: Tickets, after: Tickets, now: int) {
    after.Keys == before.Keys && forall t :: t in before ==> after[t] == before[t] || after[t] == Ripe(before[t], now)
  }

  lemma RipenedOne(before: Tickets, t: nat, now: int)
    requires t in before
    ensures RipenedSome(before, before[t := Ripe(before[t], now)], now)
  {
  }

  lemma ListedNone(tickets: Tickets, now: int)
    requires Listed([], tickets)
    ensures NoneOverdue(tickets, now)
  {
  }

  /** One deadline ahead puts all of the list ahead. */
  lemma FrontBound(fifo: seq<nat>, tickets: Tickets, now: int)
    requires Listed(fifo, tickets) && fifo != [] && now < tickets[fifo[0]].expires
    ensures NoneOverdue(tickets, now)
  {
    forall t | t in tickets && tickets[t].active ensures now < tickets[t].expires {
      var i :| 0 <= i < |fifo| && fifo[i] == t;
    }
  }

  // Facts about the mailbox queue.

  lemma {:induction false} PlainConcat(a: seq<Envelope>, b: seq<Envelope>)
    ensures Plain(a + b) == Plain(a) + Plain(b)
  {
    if b == [] {
      assert a + b == a;
    } else {
      assert (a + b)[..|a + b| - 1] == a + b[..|b| - 1];
      PlainConcat(a, b[..|b| - 1]);
    }
  }

  /** Removing the envelope at `k`: order and the other tickets' places stay. */
  lemma QueueDrop(queue: seq<Envelope>, k: nat, done: seq<Envelope>)
    requires k < |queue| && Rising(done + queue)
    ensures Rising(done + (queue[..k] + queue[k + 1..]))
    ensures queue[k].ticket.Some? ==> Plain(queue[..k] + queue[k + 1..]) == Plain(queue)
  {
    var r := queue[..k] + queue[k + 1..];
    forall i, j | 0 <= i < j < |done + r| ensures (done + r)[i].sequence < (done + r)[j].sequence {
      var n := |done|;
      var x, y := if i < n + k then i else i + 1, if j < n + k then j else j + 1;
      assert (done + queue)[x].sequence < (done + queue)[y].sequence;
      assert (done + r)[i] == (done + queue)[x] && (done + r)[j] == (done + queue)[y];
    }
    assert queue == queue[..k] + ([queue[k]] + queue[k + 1..]);
    PlainConcat(queue[..k], [queue[k]] + queue[k + 1..]);
    PlainConcat([queue[k]], queue[k + 1..]);
    PlainConcat(queue[..k], queue[k + 1..]);
    assert [queue[k]][..0] == [];
  }

  lemma QueuedDrop(queue: seq<Envelope>, k: nat, t: nat)
    requires k < |queue|
    ensures Queued(queue[..k] + queue[k + 1..], t) ==> Queued(queue, t)
    ensures Queued(queue, t) && queue[k].ticket != Some(t) ==> Queued(queue[..k] + queue[k + 1..], t)
  {
    var r := queue[..k] + queue[k + 1..];
    if Queued(r, t) {
      var i :| 0 <= i < |r| && r[i].ticket == Some(t);
      assert queue[if i < k then i else i + 1].ticket == Some(t);
    }
    if Queued(queue, t) && queue[k].ticket != Some(t) {
      var i :| 0 <= i < |queue| && queue[i].ticket == Some(t);
      assert r[if i < k then i else i - 1].ticket == Some(t);
    }
  }

  // Steps on tickets and mailboxes.

  /** The compare-exchange of `retire`: only an active ticket changes. In the
      destructor it falls together with the loss of the last reference, after
      which nobody else can reach the ticket. */
  function Deactivated(b: Book, t: nat, reason: Drop): Book
    requires t in b.tickets
  {
    if !b.tickets[t].active then b
    else b.(tickets := b.tickets[t := Settled(b.tickets[t], reason)], under := b.under + {t},
            overflowed := if reason == Overflow then b.overflowed + 1 else b.overflowed,
            expired := if reason == Expired then b.expired + 1 else b.expired)
  }

  /** The decrement of `retire`. */
  function Discounted(b: Book, t: nat): Book
    requires t in b.under && b.pending > 0
  {
    b.(pending := b.pending - 1, under := b.under - {t})
  }

  /** A ticket is retired once, with the first reason; the count stays. */
  lemma SettleSound(b: Book, queue: seq<Envelope>, t: nat, reason: Drop)
    requires Sound(b, queue) && t in b.tickets && (Queued(queue, t) ==> b.pin == Some(t))
    ensures var c := Deactivated(b, t, reason);
      && Sound(c, queue) && Framed(b, c) && c.pending == b.pending
      && c.tickets == b.tickets[t := Settled(b.tickets[t], reason)]
      && Active(c) + |c.under| == Active(b) + |b.under|
      && (b.tickets[t].active <==> Active(c) < Active(b)) && Active(c) <= Active(b) && (b.tickets[t].active ==> t !in b.under)
      && (reason != Overflow ==> NoneEvicted(b.tickets, c.tickets))
  {
    SumReplace(b.tickets, t, Settled(b.tickets[t], reason), ActiveW);
    if b.tickets[t].active { assert |b.under + {t}| == |b.under| + 1; }
  }

  /** A retirement that is under way is in the count, and leaves it once. */
  lemma DiscountSound(b: Book, queue: seq<Envelope>, t: nat)
    requires Sound(b, queue) && t in b.under
    ensures b.pending > 0 && Sound(Discounted(b, t), queue) && Framed(b, Discounted(b, t))
    ensures Active(Discounted(b, t)) == Active(b) && t !in Discounted(b, t).under
  {
    assert b.under == (b.under - {t}) + {t};
  }

  lemma NoTicketsYet()
    ensures Sound(NO_TICKETS, []) && Listed([], NO_TICKETS.tickets)
  {
    assert Sum(NO_TICKETS.tickets, ActiveW) == 0;
  }

  lemma NoMailYet()
    ensures Flow(NO_MAIL, [], [])
  {
  }

  lemma PendingCounted(b: Book, queue: seq<Envelope>)
    requires Sound(b, queue)
    ensures b.pending == Active(b) + |b.under|
  {
  }

  lemma TakeFront(b: Book, queue: seq<Envelope>)
    requires Sound(b, queue) && queue != []
    ensures Sound(b.(hand := b.hand + Carried(queue[0])), queue[1..])
    ensures Cleared(b, queue) ==> Cleared(b.(hand := b.hand + Carried(queue[0])), queue[1..])
    ensures forall t :: t in Carried(queue[0]) ==> t in b.tickets && t !in b.hand && !Queued(queue[1..], t)
  {
    assert queue[1..] == queue[..0] + queue[1..];
    forall t: nat ensures Queued(queue[1..], t) ==> Queued(queue, t)
                  ensures Queued(queue, t) && queue[0].ticket != Some(t) ==> Queued(queue[1..], t) {
      QueuedDrop(queue, 0, t);
    }
  }

  lemma FlowDropFront(m: Mailbox, sent: seq<Envelope>, done: seq<Envelope>)
    requires Flow(m, sent, done) && m.queue != [] && m.queue[0].ticket.Some?
    ensures Flow(m.(queue := m.queue[1..], dropped := m.dropped + 1), sent, done)
  {
    FlowDrop(m, sent, done, 0);
    assert m.queue[..0] + m.queue[1..] == m.queue[1..];
    hide Flow;
  }

  lemma FrontRelied(b: Book, m: Mailbox, hand: set<nat>)
    requires m.queue != [] && (Cleared(b, m.queue) ==> Cleared(b.(hand := hand), m.queue[1..]))
    ensures Relied(b, m, b.(hand := hand), m.(queue := m.queue[1..], dropped := m.dropped + 1))
  {
    hide Cleared;
  }

  lemma DropFront(b: Book, m: Mailbox, sent: seq<Envelope>, done: seq<Envelope>)
    requires Sound(b, m.queue) && Flow(m, sent, done) && m.queue != [] && m.queue[0].ticket.Some?
    ensures var t := m.queue[0].ticket.value;
      var c, n := b.(hand := b.hand + {t}), m.(queue := m.queue[1..], dropped := m.dropped + 1);
      && Sound(c, n.queue) && Flow(n, sent, done) && Relied(b, m, c, n) && t !in b.hand && !Queued(n.queue, t)
  {
    hide Sound, Flow, Cleared, Relied, Queued;
    var t := m.queue[0].ticket.value;
    assert Carried(m.queue[0]) == {t};
    TakeFront(b, m.queue);
    FlowDropFront(m, sent, done);
    FrontRelied(b, m, b.hand + {t});
  }

  /** Erasing the envelope of the receiver's own ticket. */
  lemma DropQueued(b: Book, queue: seq<Envelope>, k: nat)
    requires Sound(b, queue) && k < |queue| && queue[k].ticket.Some? && b.pin == queue[k].ticket
    ensures Sound(b, queue[..k] + queue[k + 1..]) && !Queued(queue[..k] + queue[k + 1..], b.pin.value)
  {
    var r := queue[..k] + queue[k + 1..];
    assert forall i :: 0 <= i < |r| ==> r[i] == queue[if i < k then i else i + 1];
    forall t | t in b.tickets && b.tickets[t].active ensures Held(b, r, t) { QueuedDrop(queue, k, t); }
  }

  lemma LetGo(b: Book, queue: seq<Envelope>, t: nat)
    requires Sound(b, queue) && t in b.tickets && (b.tickets[t].active ==> b.pin == Some(t))
    ensures Sound(b.(hand := b.hand - {t}), queue)
  {
  }

  lemma FlowDeliver(m: Mailbox, sent: seq<Envelope>, done: seq<Envelope>)
    requires Flow(m, sent, done) && m.queue != []
    ensures Flow(m.(queue := m.queue[1..], dequeued := m.dequeued + 1), sent, done + [m.queue[0]])
  {
    assert m.queue == [m.queue[0]] + m.queue[1..];
    assert done + m.queue == done + [m.queue[0]] + m.queue[1..];
    PlainConcat([m.queue[0]], m.queue[1..]);
    PlainConcat(done, [m.queue[0]]);
  }

  lemma PushSound(b: Book, queue: seq<Envelope>, e: Envelope)
    requires Sound(b, queue) && e.ticket == b.pin
    requires e.ticket.Some? ==> !Queued(queue, e.ticket.value) && e.ticket.value !in b.hand && b.tickets[e.ticket.value].active
    ensures Sound(b.(pin := None), queue + [e])
  {
    var q := queue + [e];
    forall t: nat | Queued(queue, t) || e.ticket == Some(t) ensures Queued(q, t) {
      if Queued(queue, t) {
        var i :| 0 <= i < |queue| && queue[i].ticket == Some(t);
        assert q[i].ticket == Some(t);
      } else {
        assert q[|queue|].ticket == Some(t);
      }
    }
    forall i | 0 <= i < |q| && q[i].ticket.Some? ensures Placed(b.(pin := None), q[i].ticket.value) {
      if i < |queue| { assert q[i] == queue[i] && Queued(queue, q[i].ticket.value); }
    }
  }

  lemma PushFlow(m: Mailbox, sent: seq<Envelope>, done: seq<Envelope>, e: Envelope)
    requires Flow(m, sent, done) && !m.orphan && Latest(sent) < e.sequence
    ensures Flow(m.(queue := m.queue + [e]), sent + [e], done)
  {
    assert done + (m.queue + [e]) == done + m.queue + [e];
    PlainConcat(m.queue, [e]);
    PlainConcat(sent, [e]);
  }

  lemma RefuseFlow(m: Mailbox, sent: seq<Envelope>, done: seq<Envelope>, e: Envelope)
    requires Flow(m, sent, done) && m.orphan && Latest(sent) < e.sequence
    ensures Flow(m.(abandoned := m.abandoned + 1), sent + [e], done)
  {
  }

  function CarriedAll(q: seq<Envelope>): set<nat> {
    set i | 0 <= i < |q| && q[i].ticket.Some? :: q[i].ticket.value
  }

  lemma CarriedStep(b: Book, q: seq<Envelope>, k: nat)
    requires Sound(b, q) && k < |q|
    ensures CarriedAll(q[k..]) == Carried(q[k]) + CarriedAll(q[k + 1..])
    ensures Carried(q[k]) !! CarriedAll(q[k + 1..]) && Carried(q[k]) !! b.hand
  {
    var r := q[k + 1..];
    assert forall i :: 0 <= i < |r| ==> r[i] == q[k + 1 + i] == q[k..][i + 1];
    forall t | t in CarriedAll(q[k..]) ensures t in Carried(q[k]) + CarriedAll(r) {
      var i :| 0 <= i < |q[k..]| && q[k..][i].ticket == Some(t);
      if i > 0 { assert r[i - 1].ticket == Some(t); }
    }
    assert q[k] == q[k..][0];
  }

  /** All queued tickets pass to the thread that clears the queue. */
  lemma AbandonSound(b: Book, q: seq<Envelope>)
    requires Sound(b, q)
    ensures Sound(b.(hand := b.hand + CarriedAll(q)), [])
  {
    forall t | t in b.tickets && b.tickets[t].active && Queued(q, t) ensures t in CarriedAll(q) {
      var i :| 0 <= i < |q| && q[i].ticket == Some(t);
    }
  }

  lemma AbandonFlow(m: Mailbox, sent: seq<Envelope>, done: seq<Envelope>)
    requires Flow(m, sent, done)
    ensures Flow(m.(orphan := true, queue := [], abandoned := m.abandoned + |m.queue|), sent, done)
  {
    assert done + [] == done;
    forall i, j | 0 <= i < j < |done| ensures done[i].sequence < done[j].sequence {
      assert (done + m.queue)[i].sequence < (done + m.queue)[j].sequence;
    }
  }

  lemma FlowDrop(m: Mailbox, sent: seq<Envelope>, done: seq<Envelope>, k: nat)
    requires Flow(m, sent, done) && k < |m.queue| && m.queue[k].ticket.Some?
    ensures Flow(m.(queue := m.queue[..k] + m.queue[k + 1..], dropped := m.dropped + 1), sent, done)
  {
    QueueDrop(m.queue, k, done);
    var r := m.queue[..k] + m.queue[k + 1..];
    forall e | e in done + r ensures e.sequence <= Latest(sent) {
      assert e in done + m.queue;
    }
  }

  lemma ReliedTwice(a: Book, l: Mailbox, b: Book, m: Mailbox, c: Book, n: Mailbox)
    requires Relied(a, l, b, m) && Relied(b, m, c, n)
    ensures Relied(a, l, c, n)
  {
  }

  lemma Start(b: Book, m: Mailbox)
    requires Sound(b, m.queue)
    ensures Relied(b, m, b, m) && SameAhead(b.tickets, b.tickets, m.queue)
  {
  }

  lemma ReliedWorked(b: Book, m: Mailbox, c: Book, n: Mailbox)
    requires Relied(b, m, c, n)
    ensures Worked(b, m, c, n) && c.pin == b.pin
  {
  }

  lemma WorkedTwice(a: Book, l: Mailbox, b: Book, m: Mailbox, c: Book, n: Mailbox)
    requires Worked(a, l, b, m) && Worked(b, m, c, n)
    ensures Worked(a, l, c, n)
  {
  }

  /** A state of the buffer as the receiver sees it. */
  datatype Moment = Moment(book: Book, mail: Mailbox, done: seq<Envelope>, fifo: seq<nat>)

  /** How far tidying the list has come since a given state. */
  ghost predicate Tidied(s: Moment, h: Moment, now: int, quiet: bool) {
    && Worked(s.book, s.mail, h.book, h.mail) && s.done <= h.done
    && Tracks(h.fifo, s.fifo, h.book.tickets) && |h.fifo| <= |s.fifo|
    && (quiet ==> RipenedSome(s.book.tickets, h.book.tickets, now) && h.book.under == s.book.under)
  }

  lemma TidyStep(s: Moment, h: Moment, i: Moment, now: int, quiet: bool)
    requires Tidied(s, h, now, quiet) && Worked(h.book, h.mail, i.book, i.mail) && h.done <= i.done && i.fifo == h.fifo
    requires quiet ==> RipenedSome(h.book.tickets, i.book.tickets, now) && i.book.under == h.book.under
    ensures Tidied(s, i, now, quiet)
  {
    WorkedTwice(s.book, s.mail, h.book, h.mail, i.book, i.mail);
    TracksAged(h.fifo, s.fifo, h.book.tickets, i.book.tickets);
  }

  lemma TidyDrop(s: Moment, h: Moment, k: nat, now: int, quiet: bool)
    requires Tidied(s, h, now, quiet) && k < |h.fifo| && !h.book.tickets[h.fifo[k]].active
    ensures Tidied(s, h.(fifo := h.fifo[..k] + h.fifo[k + 1..]), now, quiet)
  {
    TracksDrop(h.fifo, k, s.fifo, h.book.tickets);
  }

  lemma TidyInside(s: Moment, h: Moment, k: nat, now: int, quiet: bool)
    requires Tidied(s, h, now, quiet) && k < |h.fifo|
    ensures h.fifo[k] in h.book.tickets
  {
  }

  lemma TidyStart(h: Moment, now: int, quiet: bool)
    requires Listed(h.fifo, h.book.tickets)
    ensures Tidied(h, h, now, quiet)
  {
  }

  /** The list as it stands while the gap between two positions is dead. */
  ghost function Squeezed(h: Moment, output: nat, input: nat): Moment
    requires output <= input <= |h.fifo|
  {
    h.(fifo := h.fifo[..output] + h.fifo[input..])
  }

  lemma SqueezedAt(s: Moment, h: Moment, output: nat, input: nat, now: int, quiet: bool)
    requires output <= input < |h.fifo| && Tidied(s, Squeezed(h, output, input), now, quiet)
    ensures Squeezed(h, output, input).fifo[output] == h.fifo[input] && h.fifo[input] in h.book.tickets
  {
  }

  lemma SqueezedDrop(q: seq<nat>, output: nat, input: nat)
    requires output <= input < |q|
    ensures var r := q[..output] + q[input..]; r[..output] + r[output + 1..] == q[..output] + q[input + 1..]
  {
  }

  lemma SqueezedKeep(q: seq<nat>, output: nat, input: nat)
    requires output <= input < |q|
    ensures var p := q[output := q[input]]; p[..output + 1] + p[input + 1..] == q[..output] + q[input..]
  {
  }

  /** What was active at the start is no more than the tickets active then. */
  lemma KeptFew(s: Moment, h: Moment, output: nat, now: int, quiet: bool)
    requires output <= |h.fifo| && Tidied(s, Squeezed(h, output, |h.fifo|), now, quiet)
    requires forall k :: 0 <= k < output ==> h.fifo[k] in s.book.tickets && s.book.tickets[h.fifo[k]].active
    ensures Tidied(s, h.(fifo := h.fifo[..output]), now, quiet) && output <= Sum(s.book.tickets, ActiveW)
  {
    assert h.fifo[..output] + h.fifo[|h.fifo|..] == h.fifo[..output];
    ActiveCount(h.fifo[..output], s.book.tickets);
  }

  /** One round of making room: at most one ticket, the oldest active one at the
      moment `seen`, went for overflow. */
  ghost predicate Evicted(s: Moment, h: Moment, victim: Option<nat>, seen: Tickets) {
    && Settling(s, h) && Tracks(h.fifo, s.fifo, h.book.tickets) && |h.fifo| <= |s.fifo|
    && h.book.overflowed == s.book.overflowed + (if victim.Some? then 1 else 0)
    && (if victim.Some? then OldestAt(s, h, victim.value, seen) else NoneEvicted(s.book.tickets, h.book.tickets))
  }

  /** Tickets only settle, deliveries only grow, nothing is abandoned. */
  ghost predicate Settling(s: Moment, h: Moment) {
    && h.book.made == s.book.made && h.book.tickets.Keys == s.book.tickets.Keys
    && Aged(s.book.tickets, h.book.tickets) && h.book.pending <= s.book.pending && s.done <= h.done
    && h.mail.orphan == s.mail.orphan && h.mail.abandoned == s.mail.abandoned
  }

  /** `t` headed the active tickets at `seen`, was retired for overflow then,
      and no other ticket was lost to overflow before or after. */
  ghost predicate OldestAt(s: Moment, h: Moment, t: nat, seen: Tickets) {
    && seen.Keys == s.book.tickets.Keys && Aged(s.book.tickets, seen) && NoneEvicted(s.book.tickets, seen)
    && ActiveIn(s.fifo, seen) != [] && ActiveIn(s.fifo, seen)[0] == t && t in seen && seen[t].active
    && var cut := seen[t := Settled(seen[t], Overflow)];
       Aged(cut, h.book.tickets) && NoneEvicted(cut, h.book.tickets)
  }

  /** The first entry of a list, when active, heads its active part. */
  lemma {:induction false} ActiveFirst(q: seq<nat>, tickets: Tickets)
    requires q != [] && q[0] in tickets && tickets[q[0]].active
    ensures ActiveIn(q, tickets) == [q[0]] + ActiveIn(q[1..], tickets)
  {
    assert q == [q[0]] + q[1..];
    ActiveConcat([q[0]], q[1..], tickets);
    assert [q[0]][..0] == [];
  }

  lemma TidyLow(s: Moment, h: Moment, now: int, quiet: bool)
    requires Tidied(s, h, now, quiet)
    ensures h.book.pending <= s.book.pending
    ensures quiet ==> RipenedSome(s.book.tickets, h.book.tickets, now) && h.book.under == s.book.under
  {
  }

  lemma StrictlyFewer(b: Book, c: Book, t: nat)
    requires Aged(b.tickets, c.tickets) && c.tickets.Keys == b.tickets.Keys
    requires t in b.tickets && b.tickets[t].active && !c.tickets[t].active
    ensures Active(c) < Active(b)
  {
    AgedCount(b.tickets, c.tickets);
  }

  /** The front ticket is retired for overflow and leaves the list. */
  lemma EvictStep(s: Moment, h: Moment, c: Book, now: int, quiet: bool)
    requires Tidied(s, h, now, quiet) && h.fifo != [] && h.fifo[0] in h.book.tickets
    requires c == Deactivated(h.book, h.fifo[0], Overflow)
    ensures Evicted(s, h.(book := c, fifo := h.fifo[1..]),
                    if h.book.tickets[h.fifo[0]].active then Some(h.fifo[0]) else None, h.book.tickets)
  {
    hide Listed, ActiveIn;
    CutFront(h.fifo, s.fifo, h.book.tickets, c.tickets);
    AgedTwice(s.book.tickets, h.book.tickets, c.tickets);
  }

  lemma CutFront(fifo: seq<nat>, origin: seq<nat>, before: Tickets, after: Tickets)
    requires Tracks(fifo, origin, before) && fifo != [] && fifo[0] in before
    requires after == before[fifo[0] := Settled(before[fifo[0]], Overflow)]
    ensures Tracks(fifo[1..], origin, after)
    ensures before[fifo[0]].active ==> ActiveIn(origin, before) != [] && ActiveIn(origin, before)[0] == fifo[0]
  {
    assert fifo[..0] + fifo[1..] == fifo[1..];
    TracksAged(fifo, origin, before, after);
    TracksDrop(fifo, 0, origin, after);
    if before[fifo[0]].active { ActiveFirst(fifo, before); }
  }

  /** The tickets once the oldest active one made room, if the count left none. */
  function Trimmed(fifo: seq<nat>, tickets: Tickets, capacity: nat, under: nat): Tickets {
    var live := ActiveIn(fifo, tickets);
    if |live| + under < capacity || live == [] || live[0] !in tickets then tickets
    else tickets[live[0] := Settled(tickets[live[0]], Overflow)]
  }

  /** With nobody else at work, tickets within their deadline stay as they are. */
  lemma RipenedNone(before: Tickets, after: Tickets, now: int)
    requires NoneOverdue(before, now) && RipenedSome(before, after, now)
    ensures after == before
  {
  }

  lemma EvictedTrimmed(s: Moment, h: Moment, victim: Option<nat>, seen: Tickets, now: int, quiet: bool)
    requires Evicted(s, h, victim, seen) && NoneOverdue(s.book.tickets, now)
    requires quiet ==> victim.Some? && RipenedSome(s.book.tickets, seen, now)
                       && h.book.tickets == seen[victim.value := Settled(seen[victim.value], Overflow)]
    ensures quiet ==> forall capacity: nat, under: nat :: capacity <= |ActiveIn(s.fifo, s.book.tickets)| + under ==>
              h.book.tickets == Trimmed(s.fifo, s.book.tickets, capacity, under)
  {
    if quiet { RipenedNone(s.book.tickets, seen, now); }
  }

  lemma NothingListed(s: Moment, h: Moment, now: int, quiet: bool)
    requires Tidied(s, h, now, quiet) && h.fifo == [] && NoneOverdue(s.book.tickets, now)
    ensures Sum(h.book.tickets, ActiveW) == 0
    ensures quiet ==> |ActiveIn(s.fifo, s.book.tickets)| == 0
  {
    ListedIsActive(h.fifo, h.book.tickets);
    if quiet { RipenedNone(s.book.tickets, h.book.tickets, now); }
  }

  lemma TidyEvicted(s: Moment, h: Moment, now: int, quiet: bool, seen: Tickets)
    requires Tidied(s, h, now, quiet) && NoneOverdue(s.book.tickets, now)
    ensures Evicted(s, h, None, seen)
    ensures quiet ==> h.book.tickets == s.book.tickets && h.book.under == s.book.under
  {
    if quiet { RipenedNone(s.book.tickets, h.book.tickets, now); }
  }

  function Ripened(tickets: Tickets, now: int): Tickets {
    map t | t in tickets :: Ripe(tickets[t], now)
  }

  lemma TidyListed(s: Moment, h: Moment, now: int, quiet: bool)
    requires Tidied(s, h, now, quiet)
    ensures Listed(h.fifo, h.book.tickets)
    ensures NoneOverdue(s.book.tickets, now) ==> NoneOverdue(h.book.tickets, now)
  {
  }

  lemma TidyTwice(s: Moment, h: Moment, i: Moment, now: int, quiet: bool)
    requires Tidied(s, h, now, quiet) && Tidied(h, i, now, quiet) && NoneOverdue(h.book.tickets, now)
    ensures Tidied(s, i, now, quiet)
  {
    hide Listed;
    WorkedTwice(s.book, s.mail, h.book, h.mail, i.book, i.mail);
    SameActive(h.fifo, s.fifo, h.book.tickets, i.book.tickets);
    if quiet { RipenedNone(h.book.tickets, i.book.tickets, now); }
  }

  lemma TidyEvict(s: Moment, h: Moment, i: Moment, victim: Option<nat>, seen: Tickets, now: int, quiet: bool)
    requires Tidied(s, h, now, quiet) && Evicted(h, i, victim, seen)
    ensures Evicted(s, i, victim, seen)
  {
    hide Listed, ActiveIn;
    SameActive(h.fifo, s.fifo, h.book.tickets, i.book.tickets);
    if victim.Some? { SameActive(h.fifo, s.fifo, h.book.tickets, seen); }
  }

  lemma TrimmedSame(s: Moment, h: Moment, i: Moment, now: int, quiet: bool, capacity: nat, under: nat)
    requires Tidied(s, h, now, quiet) && Tidied(h, i, now, quiet) && NoneOverdue(h.book.tickets, now)
    ensures quiet ==> Trimmed(i.fifo, i.book.tickets, capacity, under) == Trimmed(s.fifo, Ripened(s.book.tickets, now), capacity, under)
  {
    if quiet {
      RipenedNone(h.book.tickets, i.book.tickets, now);
      assert h.book.tickets == Ripened(s.book.tickets, now);
    }
  }

  lemma EvictedWithin(s: Moment, h: Moment, victim: Option<nat>, seen: Tickets)
    requires Evicted(s, h, victim, seen)
    ensures |h.fifo| <= |s.fifo| && Listed(h.fifo, h.book.tickets)
    ensures forall t :: t in h.book.tickets ==> t in s.book.tickets && h.book.tickets[t].expires == s.book.tickets[t].expires
  {
  }

  /** A new active ticket, referred to by the receiver. */
  function Minted(b: Book, deadline: int): Book {
    b.(tickets := b.tickets[b.made := Ticket(deadline, true, Kept)], made := b.made + 1,
       pending := b.pending + 1, pin := Some(b.made))
  }

  lemma MintSound(b: Book, queue: seq<Envelope>, fifo: seq<nat>, deadline: int)
    requires Sound(b, queue) && b.pin == None && Listed(fifo, b.tickets)
    requires forall t :: t in b.tickets ==> b.tickets[t].expires <= deadline
    ensures Sound(Minted(b, deadline), queue) && Listed(fifo + [b.made], Minted(b, deadline).tickets)
    ensures !Queued(queue, b.made) && b.made !in b.hand && Active(Minted(b, deadline)) == Active(b) + 1
  {
    SumInsert(b.tickets, b.made, Ticket(deadline, true, Kept), ActiveW);
    var c := Minted(b, deadline);
    forall t | t in c.tickets && c.tickets[t].active ensures t in fifo + [b.made] {
      if t != b.made { assert t in fifo; }
    }
  }

  /** The bounded queue of active tickets, dropping its oldest to stay bounded.
      Retirements under way take room too. */
  function Offer(live: seq<nat>, t: nat, capacity: nat, under: nat): (r: seq<nat>)
    requires capacity > 0
    ensures |live| <= capacity ==> |r| <= capacity
  {
    (if |live| + under < capacity || live == [] then live else live[1..]) + [t]
  }

  /** Undisturbed, making room loses a ticket exactly when one is active and the
      active ones and the retirements under way together fill the buffer; with
      none under way, exactly when the active ones fill it. */
  lemma EvictsExactly(fifo: seq<nat>, tickets: Tickets, capacity: nat, under: nat)
    requires Listed(fifo, tickets) && capacity > 0
    ensures Trimmed(fifo, tickets, capacity, under) != tickets
            <==> ActiveIn(fifo, tickets) != [] && capacity <= |ActiveIn(fifo, tickets)| + under
    ensures Trimmed(fifo, tickets, capacity, 0) != tickets <==> capacity <= |ActiveIn(fifo, tickets)|
  {
    ActiveMembers(fifo, tickets);
    var live := ActiveIn(fifo, tickets);
    if live != [] {
      var t := live[0];
      assert t in live;
      assert tickets[t := Settled(tickets[t], Overflow)][t] != tickets[t];
    }
  }

  lemma {:induction false} ActiveAll(q: seq<nat>, tickets: Tickets)
    requires forall t :: t in q ==> t in tickets && tickets[t].active
    ensures ActiveIn(q, tickets) == q
  {
    if q != [] {
      ActiveAll(q[..|q| - 1], tickets);
      assert q == q[..|q| - 1] + [q[|q| - 1]];
    }
  }

  /** Making room leaves the active list, less its head if it was full. */
  lemma TrimmedActive(fifo: seq<nat>, tickets: Tickets, capacity: nat, under: nat)
    requires Listed(fifo, tickets) && capacity > 0
    ensures var live := ActiveIn(fifo, tickets);
      ActiveIn(fifo, Trimmed(fifo, tickets, capacity, under)) == if |live| + under < capacity || live == [] then live else live[1..]
  {
    var live, after := ActiveIn(fifo, tickets), Trimmed(fifo, tickets, capacity, under);
    if |live| + under >= capacity && live != [] {
      ActiveMembers(fifo, tickets);
      ActiveDistinct(fifo, tickets);
      ActiveAgain(fifo, tickets, after);
      CutHead(live, tickets);
    }
  }

  lemma CutHead(live: seq<nat>, tickets: Tickets)
    requires Distinct(live) && live != [] && forall t :: t in live ==> t in tickets && tickets[t].active
    ensures ActiveIn(live, tickets[live[0] := Settled(tickets[live[0]], Overflow)]) == live[1..]
  {
    var after := tickets[live[0] := Settled(tickets[live[0]], Overflow)];
    assert live == [live[0]] + live[1..];
    ActiveConcat([live[0]], live[1..], after);
    assert [live[0]][..0] == [];
    ActiveAll(live[1..], after);
  }

  /** Alone, the receiver offers the new ticket to a bounded queue that drops
      its oldest entry. */
  lemma OfferAccepted(fifo: seq<nat>, before: Tickets, now: int, room: Moment, deadline: int, capacity: nat, under: nat)
    requires Listed(fifo, before) && Tracks(room.fifo, fifo, room.book.tickets) && capacity > 0
    requires room.book.tickets == Trimmed(fifo, Ripened(before, now), capacity, under) && room.book.made !in room.book.tickets
    ensures ActiveIn(room.fifo + [room.book.made], Minted(room.book, deadline).tickets)
         == Offer(ActiveIn(fifo, Ripened(before, now)), room.book.made, capacity, under)
  {
    var n, after := room.book.made, Minted(room.book, deadline).tickets;
    ListedAged(fifo, before, Ripened(before, now));
    TrimmedActive(fifo, Ripened(before, now), capacity, under);
    ActiveConcat(room.fifo, [n], after);
    assert [n][..0] == [];
    ActiveSame(room.fifo, room.book.tickets, after);
  }

  lemma EvictedKeeps(s: Moment, h: Moment, victim: Option<nat>, seen: Tickets)
    requires Evicted(s, h, victim, seen)
    ensures h.book.made == s.book.made && h.mail.orphan == s.mail.orphan && s.done <= h.done
    ensures Tracks(h.fifo, s.fifo, h.book.tickets)
  {
  }

  lemma MadeFresh(b: Book, queue: seq<Envelope>)
    requires Sound(b, queue)
    ensures b.made !in b.tickets
  {
  }

  /** A ticket that was active at the start is not active any more. */
  lemma EvictedFewer(a: Moment, b: Moment, c: Moment, d: Moment)
    requires Worked(a.book, a.mail, b.book, b.mail) && b.fifo == a.fifo != [] && a.fifo[0] in a.book.tickets && a.book.tickets[a.fifo[0]].active
    requires c.book == Deactivated(b.book, a.fifo[0], Overflow) && Worked(c.book, c.mail, d.book, d.mail)
    ensures Active(d.book) < Active(a.book)
  {
    StrictlyFewer(a.book, d.book, a.fifo[0]);
  }

  lemma EvictEnd(s: Moment, h: Moment, i: Moment, victim: Option<nat>, seen: Tickets)
    requires Evicted(s, h, victim, seen) && Worked(h.book, h.mail, i.book, i.mail) && h.done <= i.done && i.fifo == h.fifo
    ensures Evicted(s, i, victim, seen)
  {
    TracksAged(h.fifo, s.fifo, h.book.tickets, i.book.tickets);
  }

  predicate Dead(tickets: Tickets, e: Envelope, now: int) {
    e.ticket.Some? && e.ticket.value in tickets && !Ripe(tickets[e.ticket.value], now).active
  }

  /** The tickets of these envelopes did not change. */
  ghost predicate SameAhead(before: Tickets, after: Tickets, queue: seq<Envelope>) {
    forall i :: 0 <= i < |queue| && queue[i].ticket.Some? ==>
      var t := queue[i].ticket.value; t in before && t in after && after[t] == before[t]
  }

  /** What happens to a buffer, one operation after another. */
  datatype Call = Publishing(gap: nat, generic: bool, delay: nat, now: int) | Owning | Abandoning

  /** A step an owner thread may take between two accesses of the receiver: a
      whole pop, an iteration of one, the exchange of a retirement, or the
      decrement of one that is under way. */
  datatype OwnerAct = TryPop(now: int) | Skip(now: int) | Take | Look(held: nat, now: int) | Release(held: nat) | Count(ticket: nat)

  class GenericBuffer {
    const capacity: nat
    const ttl: nat
    var book: Book
    var mail: Mailbox
    var fifo: seq<nat>
    var acquired: int                // acquisition time of the latest ticket
    ghost var sent: seq<Envelope>    // given to the mailbox, in order
    ghost var done: seq<Envelope>    // delivered to the owner, in order

    /** What holds at every access of either thread. */
    ghost predicate Steady()
      reads this
    {
      Sound(book, mail.queue) && Flow(mail, sent, done) && Active(book) <= capacity
    }

    /** What holds whenever the receiver is outside an operation. */
    ghost predicate Valid()
      reads this
    {
      && Steady() && book.pin == None && Listed(fifo, book.tickets)
      && 0 < capacity <= SIZE_MAX && ttl > 0 && |fifo| <= 2 * capacity + 1
      && (forall t :: t in book.tickets ==> book.tickets[t].expires <= acquired + ttl)
    }

    constructor (capacity: nat, ttl: nat, now: int)
      requires 0 < capacity <= SIZE_MAX && ttl > 0
      ensures Valid() && this.capacity == capacity && this.ttl == ttl && sent == [] && done == []
      ensures book == NO_TICKETS && mail == NO_MAIL && fifo == [] && acquired == now
    {
      this.capacity, this.ttl, acquired := capacity, ttl, now;
      book, mail, fifo := NO_TICKETS, NO_MAIL, [];
      sent, done := [], [];
      NoTicketsYet();
      NoMailYet();
      hide Sound, Flow, Listed;
    }

    // Ticket accesses, by either thread.

    /** The exchange of `retire`, by any thread. */
    method Deactivate(t: nat, reason: Drop) returns (won: bool)
      requires Steady() && t in book.tickets
      requires Queued(mail.queue, t) ==> book.pin == Some(t)
      modifies this`book
      ensures Steady() && Framed(old(book), book) && book == Deactivated(old(book), t, reason)
      ensures book.tickets == old(book).tickets[t := Settled(old(book).tickets[t], reason)]
      ensures won == old(book).tickets[t].active && book.under == old(book).under + if won then {t} else {}
      ensures won ==> t !in old(book).under && Active(book) < Active(old(book))
    {
      hide Sound, Flow, Framed, Active, Queued, Aged, NoneEvicted;
      SettleSound(book, mail.queue, t, reason);
      won := book.tickets[t].active;
      if won {
        var settled := book.tickets[t := book.tickets[t].(active := false, reason := reason)];
        book := Book(settled, book.made, book.pending, book.under + {t}, book.hand, book.pin,
                     if reason == Overflow then book.overflowed + 1 else book.overflowed,
                     if reason == Expired then book.expired + 1 else book.expired);
      }
    }

    /** The decrement of `retire`, whenever the retiring thread comes to it. */
    method Discount(t: nat)
      requires Steady() && t in book.under
      modifies this`book
      ensures Steady() && Relied(old(book), mail, book, mail)
      ensures book == old(book).(pending := book.pending, under := old(book).under - {t}) && book.pending + 1 == old(book).pending
    {
      DiscountSound(book, mail.queue, t);
      book := book.(pending := book.pending - 1, under := book.under - {t});
    }

    // Steps of the owner thread.

    /** `active` on an envelope in hand. */
    method Look(t: nat, now: int)
      requires Steady() && t in book.hand
      modifies this`book
      ensures Steady() && Relied(old(book), mail, book, mail) && book.hand == old(book).hand
      ensures book.tickets == old(book).tickets[t := Ripe(old(book).tickets[t], now)]
    {
      if book.tickets[t].active && now >= book.tickets[t].expires { var won := Deactivate(t, Expired); }
    }

    lemma NotQueued(t: nat)
      requires Steady() && t in book.hand
      ensures t in book.tickets && !Queued(mail.queue, t)
    {
    }

    /** The owner lets go of an envelope; its ticket dies unless the receiver
        has it locked. */
    method Release(t: nat)
      requires Steady() && t in book.hand
      modifies this`book
      ensures Steady() && Relied(old(book), mail, book, mail) && book.hand == old(book).hand - {t} && book.made == old(book).made
      ensures var last := old(book).pin != Some(t) && old(book).tickets[t].active;
        && book.tickets == (if last then old(book).tickets[t := Settled(old(book).tickets[t], Kept)] else old(book).tickets)
        && book.under == old(book).under + (if last then {t} else {})
      ensures old(Valid()) ==> Valid()
    {
      hide Sound, Flow, Listed;
      NotQueued(t);
      if book.pin != Some(t) { var won := Deactivate(t, Kept); }
      LetGo(book, mail.queue, t);
      book := book.(hand := book.hand - {t});
      StaysValid(old(book), mail, book, mail, fifo);
    }

    /** The front envelope is handed to the owner. */
    method Deliver()
      requires Steady() && mail.queue != []
      modifies this`book, this`mail, this`done
      ensures Steady() && Relied(old(book), old(mail), book, mail)
      ensures mail.queue == old(mail).queue[1..] && done == old(done) + [old(mail).queue[0]]
      ensures book == old(book).(hand := old(book).hand + Carried(old(mail).queue[0]))
    {
      var e := mail.queue[0];
      TakeFront(book, mail.queue);
      FlowDeliver(mail, sent, done);
      book, done := book.(hand := book.hand + Carried(e)), done + [e];
      mail := mail.(queue := mail.queue[1..], dequeued := mail.dequeued + 1);
    }

    /** The front envelope leaves the queue undelivered. */
    method PopFront()
      requires Steady() && mail.queue != [] && mail.queue[0].ticket.Some?
      modifies this`book, this`mail
      ensures Steady() && Relied(old(book), old(mail), book, mail)
      ensures mail.queue == old(mail).queue[1..]
      ensures book == old(book).(hand := old(book).hand + {old(mail).queue[0].ticket.value})
      ensures old(mail).queue[0].ticket.value !in old(book).hand
      ensures !Queued(mail.queue, old(mail).queue[0].ticket.value)
    {
      DropFront(book, mail, sent, done);
      book := book.(hand := book.hand + {mail.queue[0].ticket.value});
      mail := mail.(queue := mail.queue[1..], dropped := mail.dropped + 1);
    }

    /** The front envelope is dropped with its inactive or overdue ticket. */
    method Discard(now: int)
      requires Steady() && mail.queue != [] && mail.queue[0].ticket.Some?
      modifies this`book, this`mail
      ensures Steady() && Relied(old(book), old(mail), book, mail)
      ensures mail.queue == old(mail).queue[1..] && SameAhead(old(book).tickets, book.tickets, mail.queue)
    {
      var t := mail.queue[0].ticket.value;
      PopFront();
      ghost var b := book;
      Look(t, now);
      ReliedTwice(old(book), old(mail), b, mail, book, mail);
      b := book;
      Release(t);
      ReliedTwice(old(book), old(mail), b, mail, book, mail);
    }

    /** Drop inactive envelopes from the front, and only those. */
    method SkipDead(now: int) returns (ghost skipped: nat)
      requires Steady()
      modifies this`book, this`mail
      ensures Steady() && Relied(old(book), old(mail), book, mail)
      ensures skipped <= |old(mail).queue| && mail.queue == old(mail).queue[skipped..]
      ensures forall k :: 0 <= k < skipped ==> Dead(old(book).tickets, old(mail).queue[k], now)
      ensures mail.queue != [] ==> !Dead(old(book).tickets, mail.queue[0], now)
      ensures skipped == 0 ==> book == old(book) && mail == old(mail)
    {
      hide Sound, Flow, Relied;
      Start(book, mail);
      skipped := 0;
      while mail.queue != [] && Dead(book.tickets, mail.queue[0], now)
        invariant Steady() && Relied(old(book), old(mail), book, mail)
        invariant skipped <= |old(mail).queue| && mail.queue == old(mail).queue[skipped..]
        invariant forall k :: 0 <= k < skipped ==> Dead(old(book).tickets, old(mail).queue[k], now)
        invariant SameAhead(old(book).tickets, book.tickets, mail.queue)
        invariant skipped == 0 ==> book == old(book) && mail == old(mail)
        decreases |mail.queue|
      {
        ghost var b, m := book, mail;
        Discard(now);
        skipped := skipped + 1;
        ReliedTwice(old(book), old(mail), b, m, book, mail);
      }
    }

    /** Deliver the first envelope that is not dead. */
    method TryPop(now: int) returns (item: Option<Envelope>, ghost skipped: nat)
      requires Steady()
      modifies this`book, this`mail, this`done
      ensures Steady() && Relied(old(book), old(mail), book, mail)
      ensures done == old(done) + (if item.Some? then [item.value] else [])
      ensures mail.orphan == old(mail).orphan
      ensures item.Some? && skipped == 0 ==> book == old(book).(hand := old(book).hand + Carried(item.value))
      ensures skipped <= |old(mail).queue|
      ensures forall k :: 0 <= k < skipped ==> Dead(old(book).tickets, old(mail).queue[k], now)
      ensures if item.Some? then skipped < |old(mail).queue| && item.value == old(mail).queue[skipped]
                                 && mail.queue == old(mail).queue[skipped + 1..] && !Dead(old(book).tickets, item.value, now)
              else skipped == |old(mail).queue| && mail.queue == []
      ensures old(Valid()) ==> Valid()
    {
      hide Sound, Flow, Listed, Relied;
      skipped := SkipDead(now);
      StaysValid(old(book), old(mail), book, mail, fifo);
      if mail.queue == [] { return None, skipped; }
      ghost var b, m := book, mail;
      item := Some(mail.queue[0]);
      Deliver();
      ReliedTwice(old(book), old(mail), b, m, book, mail);
      StaysValid(old(book), old(mail), book, mail, fifo);
    }

    /** Anything the owner may do between two accesses of the receiver. */
    method Owner(quiet: bool)
      requires Steady()
      modifies this`book, this`mail, this`done
      ensures Steady() && Relied(old(book), old(mail), book, mail) && old(done) <= done
      ensures quiet ==> book == old(book) && mail == old(mail) && done == old(done)
      ensures old(Valid()) ==> Valid()
    {
      hide Sound, Flow, Relied, Listed;
      Start(book, mail);
      var acts: seq<OwnerAct> := *;
      if quiet { return; }
      for i := 0 to |acts|
        invariant Steady() && Relied(old(book), old(mail), book, mail) && old(done) <= done
      {
        ghost var b, m := book, mail;
        match acts[i] {
          case TryPop(now) => { var item, _ := TryPop(now); }
          case Skip(now) => { if mail.queue != [] && Dead(book.tickets, mail.queue[0], now) { Discard(now); } }
          case Take => { if mail.queue != [] { Deliver(); } }
          case Count(t) => { if t in book.under { Discount(t); } }
          case Look(t, now) => { if t in book.hand { Look(t, now); } }
          case Release(t) => { if t in book.hand { Release(t); } }
        }
        ReliedTwice(old(book), old(mail), b, m, book, mail);
      }
      StaysValid(old(book), old(mail), book, mail, fifo);
    }

    // Steps of the receiver.

    /** Promote a weak reference: it fails when nobody refers to the ticket. */
    method Lock(t: nat) returns (locked: bool)
      requires Steady() && book.pin == None && t in book.tickets
      modifies this`book
      ensures Steady() && locked == Held(old(book), mail.queue, t)
      ensures book == old(book).(pin := if locked then Some(t) else None)
      ensures !locked ==> !book.tickets[t].active
    {
      locked := Held(book, mail.queue, t);
      if locked { book := book.(pin := Some(t)); }
    }

    /** What owners do until the receiver's own decrement, and the decrement. */
    method Finish(t: nat, quiet: bool)
      requires Steady()
      modifies this`book, this`mail, this`done
      ensures Steady() && Relied(old(book), old(mail), book, mail) && old(done) <= done && t !in book.under
      ensures quiet ==> mail == old(mail) && done == old(done) && book.tickets == old(book).tickets && book.hand == old(book).hand
      ensures quiet ==> book.under == old(book).under - {t}
    {
      hide Sound, Flow, Relied;
      Owner(quiet);
      if t in book.under {
        ghost var b, m := book, mail;
        Discount(t);
        ReliedTwice(old(book), old(mail), b, m, book, mail);
      }
    }

    /** `active`: whether the ticket is active, retired first when its time is
        up. */
    method Check(t: nat, now: int, quiet: bool) returns (active: bool)
      requires Steady() && t in book.tickets
      requires Queued(mail.queue, t) ==> book.pin == Some(t)
      modifies this`book, this`mail, this`done
      ensures Steady() && Worked(old(book), old(mail), book, mail) && old(done) <= done && book.pin == old(book).pin
      ensures t in book.tickets && active == book.tickets[t].active && (active ==> now < book.tickets[t].expires)
      ensures quiet ==> book.tickets == old(book).tickets[t := Ripe(old(book).tickets[t], now)]
      ensures quiet ==> book.under == old(book).under && book.hand == old(book).hand && mail == old(mail)
    {
      hide Sound, Flow, Relied;
      if !book.tickets[t].active { return false; }
      if now >= book.tickets[t].expires {
        var won := Deactivate(t, Expired);
        ghost var b := book;
        Finish(t, quiet);
        ReliedWorked(b, old(mail), book, mail);
        WorkedTwice(old(book), old(mail), b, old(mail), book, mail);
      } else {
        Owner(quiet);
        ReliedWorked(old(book), old(mail), book, mail);
      }
      return book.tickets[t].active;
    }

    /** Drop the receiver's reference; the last one takes the ticket along. */
    method Unpin(quiet: bool)
      requires Steady() && book.pin.Some? && Cleared(book, mail.queue)
      modifies this`book, this`mail, this`done
      ensures Steady() && book.pin == None && Worked(old(book), old(mail), book, mail) && old(done) <= done
      ensures quiet ==> var t := old(book).pin.value; book.tickets == old(book).tickets[t :=
          if Held(old(book).(pin := None), old(mail).queue, t) then old(book).tickets[t] else Settled(old(book).tickets[t], Kept)]
      ensures quiet ==> book.under == old(book).under
    {
      hide Sound, Flow, Relied, Cleared, Framed, Aged, NoneEvicted;
      PinKnown();
      var t := book.pin.value;
      if t in book.hand || Queued(mail.queue, t) {
        Unlock();
        UnlockWorked(old(book), mail);
      } else {
        var won := LastUnpin();
        if won {
          ghost var b := book;
          Finish(t, quiet);
          ReliedWorked(b, old(mail), book, mail);
          WorkedTwice(old(book), old(mail), b, old(mail), book, mail);
        }
      }
    }

    lemma UnlockWorked(b: Book, m: Mailbox)
      ensures Worked(b, m, b.(pin := None), m)
    {
    }

    /** The last reference goes: the exchange of the destructor. */
    method LastUnpin() returns (won: bool)
      requires Steady() && book.pin.Some? && Cleared(book, mail.queue) && !Held(book.(pin := None), mail.queue, book.pin.value)
      modifies this`book
      ensures Steady() && book.pin == None && Worked(old(book), mail, book, mail)
      ensures var t := old(book).pin.value; book.tickets == old(book).tickets[t := Settled(old(book).tickets[t], Kept)]
      ensures var t := old(book).pin.value; book.under == old(book).under + (if won then {t} else {}) && (won ==> t !in old(book).under)
    {
      hide Sound, Flow, Relied, Cleared, Queued;
      PinKnown();
      won := Deactivate(book.pin.value, Kept);
      ghost var b := book;
      Unlock();
    }

    lemma PinKnown()
      requires Steady() && book.pin.Some?
      ensures book.pin.value in book.tickets
    {
    }

    method Unlock()
      requires Steady() && book.pin.Some? && Cleared(book, mail.queue)
      requires var t := book.pin.value; Held(book.(pin := None), mail.queue, t) || !book.tickets[t].active
      modifies this`book
      ensures Steady() && book == old(book).(pin := None)
    {
      book := book.(pin := None);
    }

    /** Find the ticket's envelope in the mailbox and take it out. */
    method EraseGeneric(t: nat) returns (erased: bool)
      requires Steady() && book.pin == Some(t)
      modifies this`mail
      ensures Steady() && !Queued(mail.queue, t) && erased == Queued(old(mail).queue, t)
      ensures mail == if erased then old(mail).(queue := mail.queue, dropped := old(mail).dropped + 1) else old(mail)
    {
      var k := 0;
      while k < |mail.queue|
        invariant k <= |mail.queue| && mail == old(mail)
        invariant forall i :: 0 <= i < k ==> mail.queue[i].ticket != Some(t)
      {
        if mail.queue[k].ticket == Some(t) {
          FlowDrop(mail, sent, done, k);
          DropQueued(book, mail.queue, k);
          mail := mail.(queue := mail.queue[..k] + mail.queue[k + 1..], dropped := mail.dropped + 1);
          return true;
        }
        k := k + 1;
      }
      return false;
    }

    /** An inactive ticket's envelope is erased and the reference dropped. */
    method Reject(quiet: bool)
      requires Steady() && book.pin.Some? && !book.tickets[book.pin.value].active
      modifies this`book, this`mail, this`done
      ensures Steady() && Worked(old(book), old(mail), book, mail) && book.pin == None && old(done) <= done
      ensures quiet ==> book.tickets == old(book).tickets && book.under == old(book).under
    {
      Owner(quiet);
      ghost var b, m := book, mail;
      var erased := EraseGeneric(book.pin.value);
      Unpin(quiet);
      WorkedTwice(old(book), old(mail), b, m, book, mail);
    }

    /** A locked ticket stays locked if it is active; otherwise its envelope is
        erased and it is let go. */
    method Examine(now: int, quiet: bool) returns (alive: bool)
      requires Steady() && book.pin.Some?
      modifies this`book, this`mail, this`done
      ensures Steady() && Worked(old(book), old(mail), book, mail) && old(done) <= done
      ensures book.pin == if alive then old(book).pin else None
      ensures var t := old(book).pin.value;
        && book.tickets[t].active == alive && (alive ==> now < book.tickets[t].expires)
        && (quiet ==> book.tickets == old(book).tickets[t := Ripe(old(book).tickets[t], now)] && book.under == old(book).under)
      ensures quiet && alive ==> book.hand == old(book).hand && mail == old(mail)
    {
      Owner(quiet);
      ghost var b, m := book, mail;
      alive := Check(book.pin.value, now, quiet);
      WorkedTwice(old(book), old(mail), b, m, book, mail);
      if !alive {
        b, m := book, mail;
        Reject(quiet);
        WorkedTwice(old(book), old(mail), b, m, book, mail);
      }
    }

    /** Lock a listed ticket and see whether it is active. */
    method Probe(t: nat, now: int, quiet: bool) returns (alive: bool)
      requires Steady() && book.pin == None && t in book.tickets
      modifies this`book, this`mail, this`done
      ensures Steady() && Worked(old(book), old(mail), book, mail) && old(done) <= done
      ensures book.pin == if alive then Some(t) else None
      ensures t in book.tickets && book.tickets[t].active == alive && (alive ==> now < book.tickets[t].expires)
      ensures quiet ==> book.tickets == old(book).tickets[t := Ripe(old(book).tickets[t], now)] && book.under == old(book).under
      ensures quiet && alive ==> Held(book.(pin := None), mail.queue, t)
    {
      Owner(quiet);
      alive := Lock(t);
      if alive {
        ghost var b, m := book, mail;
        alive := Examine(now, quiet);
        WorkedTwice(old(book), old(mail), b, m, book, mail);
      }
    }

    /** The reference to an active ticket goes out of scope. */
    method LetFront(quiet: bool)
      requires Steady() && book.pin.Some? && Cleared(book, mail.queue)
      modifies this`book, this`mail, this`done
      ensures Steady() && Worked(old(book), old(mail), book, mail) && book.pin == None && old(done) <= done
      ensures quiet && Held(old(book).(pin := None), old(mail).queue, old(book).pin.value) ==> book.tickets == old(book).tickets
      ensures quiet ==> book.under == old(book).under
    {
      Owner(quiet);
      ghost var b, m := book, mail;
      Unpin(quiet);
      WorkedTwice(old(book), old(mail), b, m, book, mail);
    }

    ghost function Here(): Moment
      reads this
    {
      Moment(book, mail, done, fifo)
    }

    /** Probe the front of the list; an inactive front is popped. */
    method ProbeFront(now: int, quiet: bool, ghost start: Moment) returns (alive: bool)
      requires Steady() && book.pin == None && fifo != [] && Tidied(start, Here(), now, quiet)
      modifies this`book, this`mail, this`done, this`fifo
      ensures Steady() && Tidied(start, Here(), now, quiet)
      ensures book.pin == if alive then Some(old(fifo)[0]) else None
      ensures fifo == if alive then old(fifo) else old(fifo)[1..]
      ensures alive ==> fifo[0] in book.tickets && book.tickets[fifo[0]].active && now < book.tickets[fifo[0]].expires
      ensures alive && quiet ==> Held(book.(pin := None), mail.queue, fifo[0])
    {
      hide Sound, Flow, Framed, Tidied, RipenedSome;
      TidyInside(start, Here(), 0, now, quiet);
      alive := Probe(fifo[0], now, quiet);
      RipenedOne(old(book).tickets, fifo[0], now);
      TidyStep(start, old(Here()), Here(), now, quiet);
      if !alive {
        TidyDrop(start, Here(), 0, now, quiet);
        assert fifo[..0] + fifo[1..] == fifo[1..];
        fifo := fifo[1..];
      }
    }

    /** Keep probing the front of the list until an active ticket is there. */
    method DropStale(now: int, quiet: bool)
      requires Steady() && book.pin == None && Listed(fifo, book.tickets)
      modifies this`book, this`mail, this`done, this`fifo
      ensures Steady() && Tidied(old(Here()), Here(), now, quiet) && book.pin == None
      ensures NoneOverdue(book.tickets, now)
    {
      hide Sound, Flow, Listed;
      while fifo != []
        invariant Steady() && Tidied(old(Here()), Here(), now, quiet) && book.pin == None
        decreases |fifo|
      {
        var alive := ProbeFront(now, quiet, old(Here()));
        if alive {
          ghost var before := Here();
          FrontBound(fifo, book.tickets, now);
          LetFront(quiet);
          TidyStep(old(Here()), before, Here(), now, quiet);
          return;
        }
      }
      ListedNone(book.tickets, now);
    }

    /** Probe the entry at `input` while the list is being squeezed. */
    method Carry(now: int, quiet: bool, ghost start: Moment, ghost output: nat, input: nat) returns (alive: bool)
      requires output <= input < |fifo|
      requires Steady() && book.pin == None && Tidied(start, Squeezed(Here(), output, input), now, quiet)
      modifies this`book, this`mail, this`done
      ensures Steady() && book.pin == None
      ensures Tidied(start, Squeezed(Here(), output, if alive then input else input + 1), now, quiet)
      ensures alive ==> fifo[input] in start.book.tickets && start.book.tickets[fifo[input]].active
    {
      hide Sound, Flow, Tracks;
      SqueezedAt(start, Here(), output, input, now, quiet);
      alive := Probe(fifo[input], now, quiet);
      TidyStep(start, Squeezed(old(Here()), output, input), Squeezed(Here(), output, input), now, quiet);
      if alive {
        ghost var before := Here();
        LetFront(quiet);
        TidyStep(start, Squeezed(before, output, input), Squeezed(Here(), output, input), now, quiet);
      } else {
        TidyDrop(start, Squeezed(Here(), output, input), output, now, quiet);
        SqueezedDrop(fifo, output, input);
      }
    }

    /** Past the threshold, squeeze the inactive entries out in place. */
    method Compact(now: int, quiet: bool)
      requires Steady() && book.pin == None && Listed(fifo, book.tickets) && capacity <= SIZE_MAX
      modifies this`book, this`mail, this`done, this`fifo
      ensures Steady() && Tidied(old(Here()), Here(), now, quiet) && book.pin == None
      ensures |fifo| <= 2 * capacity
    {
      hide Sound, Flow, Tidied, Listed, Active;
      TidyStart(Here(), now, quiet);
      AtEveryAccess();
      var threshold := if capacity > (SIZE_MAX - 1) / 2 then SIZE_MAX else capacity * 2;
      if |fifo| > threshold { Squeeze(now, quiet); }
    }

    /** The compaction loop: what stays was active when it began. */
    method Squeeze(now: int, quiet: bool)
      requires Steady() && book.pin == None && Tidied(Here(), Here(), now, quiet)
      modifies this`book, this`mail, this`done, this`fifo
      ensures Steady() && Tidied(old(Here()), Here(), now, quiet) && book.pin == None
      ensures |fifo| <= Active(old(book))
    {
      hide Sound, Flow, Tidied, Listed, NoneOverdue, ActiveIn;
      var output, input := 0, 0;
      ghost var start := Here();
      assert Squeezed(Here(), 0, 0) == Here() by { assert fifo[..0] + fifo[0..] == fifo; }
      hide Squeezed;
      while input < |fifo|
        invariant output <= input <= |fifo| == |start.fifo|
        invariant Steady() && book.pin == None && Tidied(start, Squeezed(Here(), output, input), now, quiet)
        invariant forall k :: 0 <= k < output ==> fifo[k] in start.book.tickets && start.book.tickets[fifo[k]].active
      {
        var alive := Carry(now, quiet, start, output, input);
        if alive {
          Keep(output, input);
          output := output + 1;
        }
        input := input + 1;
      }
      KeptFew(start, Here(), output, now, quiet);
      fifo := fifo[..output];
    }

    /** An active entry moves up in place. */
    method Keep(output: nat, input: nat)
      requires Steady() && output <= input < |fifo|
      modifies this`fifo
      ensures Steady() && fifo == old(fifo)[output := old(fifo)[input]]
      ensures Squeezed(Here(), output + 1, input + 1) == Squeezed(old(Here()), output, input)
    {
      hide Sound, Flow, Active;
      SqueezedKeep(fifo, output, input);
      fifo := fifo[output := fifo[input]];
    }

    /** The active tickets are never more than the capacity; the count passes it by
        no more than the retirements under way. */
    lemma AtEveryAccess()
      requires Steady()
      ensures Active(book) <= capacity && book.pending == Active(book) + |book.under| <= capacity + |book.under|
    {
    }

    /** Retire the locked front ticket for overflow and erase its envelope. */
    method EvictFront(now: int, quiet: bool, ghost start: Moment) returns (ghost victim: Option<nat>, ghost seen: Tickets)
      requires Steady() && Tidied(start, Here(), now, quiet) && fifo != [] && book.pin == Some(fifo[0])
      requires fifo[0] in book.tickets && book.tickets[fifo[0]].active
      modifies this`book, this`mail, this`done, this`fifo
      ensures Steady() && Evicted(start, Here(), victim, seen) && book.pin == None && Active(book) < Active(old(book))
      ensures quiet ==> victim.Some? && RipenedSome(start.book.tickets, seen, now) && book.under == start.book.under
                        && book.tickets == seen[victim.value := Settled(seen[victim.value], Overflow)]
    {
      hide Sound, Flow, Tidied, Evicted, Tracks, Relied;
      TidyLow(start, Here(), now, quiet);
      var t := fifo[0];
      Owner(quiet);
      ReliedWorked(old(book), old(mail), book, mail);
      TidyStep(start, old(Here()), Here(), now, quiet);
      seen := book.tickets;
      victim := if seen[t].active then Some(t) else None;
      ghost var before := Here();
      var won := Deactivate(t, Overflow);
      EvictStep(start, before, book, now, quiet);
      fifo := fifo[1..];
      ghost var cut := Here();
      if won { Finish(t, quiet); }
      if won { ReliedWorked(cut.book, cut.mail, book, mail); }
      ghost var middle := Here();
      Reject(quiet);
      if won { WorkedTwice(cut.book, cut.mail, middle.book, middle.mail, book, mail); }
      EvictEnd(start, cut, Here(), victim, seen);
      EvictedFewer(old(Here()), before, cut, Here());
    }

    /** At capacity, make room by evicting from the front of the list. */
    method Evict(now: int, quiet: bool) returns (ghost victim: Option<nat>, ghost seen: Tickets)
      requires Steady() && book.pin == None && Listed(fifo, book.tickets) && NoneOverdue(book.tickets, now) && capacity > 0
      modifies this`book, this`mail, this`done, this`fifo
      ensures Steady() && Evicted(old(Here()), Here(), victim, seen) && book.pin == None && Active(book) < capacity
      ensures victim.Some? ==> old(book).pending >= capacity
      ensures quiet ==> book.tickets == Trimmed(old(fifo), old(book).tickets, capacity, |old(book).under|)
      ensures quiet ==> book.under == old(book).under
    {
      hide Sound, Flow, Tidied, Evicted, Listed, NoneOverdue, ActiveIn;
      TidyStart(Here(), now, quiet);
      AtEveryAccess();
      ListedIsActive(fifo, book.tickets);
      victim, seen := None, book.tickets;
      if book.pending >= capacity {
        while fifo != []
          invariant Steady() && Tidied(old(Here()), Here(), now, quiet) && book.pin == None
          decreases |fifo|
        {
          var alive := ProbeFront(now, quiet, old(Here()));
          if alive {
            AtEveryAccess();
            victim, seen := EvictFront(now, quiet, old(Here()));
            EvictedTrimmed(old(Here()), Here(), victim, seen, now, quiet);
            return;
          }
        }
        NothingListed(old(Here()), Here(), now, quiet);
      }
      TidyEvicted(old(Here()), Here(), now, quiet, seen);
    }

    /** Prune, compact and make room, in this order. */
    method MakeRoom(now: int, quiet: bool) returns (ghost victim: Option<nat>, ghost seen: Tickets)
      requires Valid()
      modifies this`book, this`mail, this`done, this`fifo
      ensures Steady() && Evicted(old(Here()), Here(), victim, seen) && book.pin == None && Active(book) < capacity
      ensures victim.Some? ==> old(book).pending >= capacity
      ensures |fifo| <= 2 * capacity
      ensures quiet ==> book.tickets == Trimmed(old(fifo), Ripened(old(book).tickets, now), capacity, |old(book).under|)
      ensures quiet ==> book.under == old(book).under
    {
      hide Sound, Flow, Listed, Evicted, NoneOverdue, RipenedSome, Trimmed;
      DropStale(now, quiet);
      ghost var pruned := Here();
      TidyLow(old(Here()), pruned, now, quiet);
      TidyListed(old(Here()), pruned, now, quiet);
      Compact(now, quiet);
      ghost var squeezed := Here();
      TidyLow(pruned, squeezed, now, quiet);
      TidyListed(pruned, squeezed, now, quiet);
      TidyTwice(old(Here()), pruned, squeezed, now, quiet);
      victim, seen := Evict(now, quiet);
      TidyEvict(old(Here()), squeezed, Here(), victim, seen, now, quiet);
      EvictedWithin(squeezed, Here(), victim, seen);
      TrimmedSame(old(Here()), pruned, squeezed, now, quiet, capacity, |squeezed.book.under|);
    }

    /** A new ticket, listed last and referred to by the receiver. */
    method Enlist(at: int)
      requires Steady() && book.pin == None && Listed(fifo, book.tickets) && Active(book) < capacity
      requires forall t :: t in book.tickets ==> book.tickets[t].expires <= at + ttl
      modifies this`book, this`fifo, this`acquired
      ensures Steady() && Listed(fifo, book.tickets) && acquired == at && !Queued(mail.queue, old(book).made) && old(book).made !in book.hand
      ensures book == Minted(old(book), at + ttl) && fifo == old(fifo) + [old(book).made]
    {
      hide Sound, Flow, Listed;
      MintSound(book, mail.queue, fifo, at + ttl);
      fifo, acquired := fifo + [book.made], at;
      book := Minted(book, at + ttl);
    }

    /** Make room and give the envelope its ticket. */
    method AddGeneric(at: int, now: int, quiet: bool) returns (ghost room: Moment, ghost victim: Option<nat>, ghost seen: Tickets)
      requires Valid() && acquired <= at
      modifies this`book, this`mail, this`done, this`fifo, this`acquired
      ensures Steady() && Listed(fifo, book.tickets) && acquired == at
      ensures !Queued(mail.queue, room.book.made) && room.book.made !in book.hand
      ensures Evicted(old(Here()), room, victim, seen) && (victim.Some? ==> old(book).pending >= capacity)
      ensures room.book.pin == None && Active(room.book) < capacity && |room.fifo| <= 2 * capacity
      ensures Here() == room.(book := Minted(room.book, at + ttl), fifo := room.fifo + [room.book.made])
      ensures quiet ==> room.book.tickets == Trimmed(old(fifo), Ripened(old(book).tickets, now), capacity, |old(book).under|)
      ensures quiet ==> room.book.under == old(book).under
    {
      hide Sound, Flow, Trimmed, Evicted, Listed;
      victim, seen := MakeRoom(now, quiet);
      ghost var made := Here();
      // Owner steps up to the push; none can reach the new ticket.
      Owner(quiet);
      StaysValid(made.book, made.mail, book, mail, fifo);
      EvictEnd(old(Here()), made, Here(), victim, seen);
      room := Here();
      EvictedWithin(old(Here()), room, victim, seen);
      Enlist(at);
    }

    /** The envelope is queued, its ticket with it. */
    method Push(e: Envelope)
      requires Steady() && !mail.orphan && Latest(sent) < e.sequence && e.ticket == book.pin
      requires e.ticket.Some? ==> !Queued(mail.queue, e.ticket.value)
      requires e.ticket.Some? ==> e.ticket.value !in book.hand && e.ticket.value in book.tickets && book.tickets[e.ticket.value].active
      modifies this`book, this`mail, this`sent
      ensures Steady() && sent == old(sent) + [e]
      ensures mail == old(mail).(queue := old(mail).queue + [e]) && book == old(book).(pin := None)
    {
      hide Sound, Flow;
      PushSound(book, mail.queue, e);
      PushFlow(mail, sent, done, e);
      mail := mail.(queue := mail.queue + [e]);
      sent, book := sent + [e], book.(pin := None);
    }

    /** The mailbox has no owner any more: the envelope is counted and destroyed. */
    method Refuse(e: Envelope, quiet: bool)
      requires Steady() && mail.orphan && e.ticket == book.pin && Latest(sent) < e.sequence
      requires e.ticket.Some? ==> e.ticket.value !in book.hand && !Queued(mail.queue, e.ticket.value)
      modifies this`book, this`mail, this`sent, this`done
      ensures Steady() && sent == old(sent) + [e] && book.pin == None && old(done) <= done
      ensures Worked(old(book), old(mail).(abandoned := old(mail).abandoned + 1), book, mail)
      ensures e.ticket == None ==> book == old(book) && mail == old(mail).(abandoned := old(mail).abandoned + 1) && done == old(done)
    {
      hide Sound, Flow;
      RefuseFlow(mail, sent, done, e);
      mail, sent := mail.(abandoned := mail.abandoned + 1), sent + [e];
      if book.pin.Some? { Unpin(quiet); }
    }

    /** The mailbox takes the envelope or, without an owner, destroys it. */
    method Commit(e: Envelope, quiet: bool)
      requires Steady() && e.ticket == book.pin && Latest(sent) < e.sequence && Listed(fifo, book.tickets)
      requires book.pin.Some? ==> var t := book.pin.value;
        t !in book.hand && !Queued(mail.queue, t) && t in book.tickets && book.tickets[t].active
      modifies this`book, this`mail, this`sent, this`done
      ensures Steady() && sent == old(sent) + [e] && book.pin == None && Listed(fifo, book.tickets) && old(done) <= done
      ensures mail.orphan == old(mail).orphan
      ensures if mail.orphan && e.ticket.Some? then Aged(old(book).tickets, book.tickets) && book.tickets.Keys == old(book).tickets.Keys
              else book == old(book).(pin := None) && done == old(done)
      ensures !mail.orphan ==> mail == old(mail).(queue := old(mail).queue + [e])
    {
      hide Sound, Flow, Listed;
      ghost var before := book;
      if mail.orphan {
        Refuse(e, quiet);
        ListedAged(fifo, before.tickets, book.tickets);
      } else {
        Push(e);
      }
    }

    /** The receiver hands one envelope to the mailbox. */
    method Publish(sequence: nat, generic: bool, at: int, now: int, quiet: bool)
      returns (ghost room: Moment, ghost victim: Option<nat>, ghost seen: Tickets)
      requires Valid() && Latest(sent) < sequence && (generic ==> acquired <= at)
      modifies this
      ensures Valid() && mail.orphan == old(mail).orphan && old(done) <= done
      ensures sent == old(sent) + [Envelope(sequence, if generic then Some(old(book).made) else None)]
      ensures !generic ==> book == old(book) && fifo == old(fifo) && room == old(Here())
      ensures acquired == (if generic then at else old(acquired)) && room.book.made == old(book).made
      ensures generic ==> Evicted(old(Here()), room, victim, seen) && (victim.Some? ==> old(book).pending >= capacity)
      ensures generic ==> fifo == room.fifo + [old(book).made] && Active(room.book) < capacity
      ensures !mail.orphan ==> mail == room.mail.(queue := room.mail.queue + [sent[|old(sent)|]])
      ensures generic && !mail.orphan ==> book == Minted(room.book, at + ttl).(pin := None)
      ensures generic && quiet ==> room.book.tickets == Trimmed(old(fifo), Ripened(old(book).tickets, now), capacity, |old(book).under|)
                                   && room.book.under == old(book).under
      ensures generic && !mail.orphan && quiet ==>
                ActiveIn(fifo, book.tickets)
                == Offer(ActiveIn(old(fifo), Ripened(old(book).tickets, now)), old(book).made, capacity, |old(book).under|)
    {
      hide Sound, Flow, Evicted, Listed, Trimmed, Tracks, ActiveIn, Offer;
      room, victim, seen := Here(), None, book.tickets;
      if generic {
        MadeFresh(book, mail.queue);
        room, victim, seen := AddGeneric(at, now, quiet);
        EvictedWithin(old(Here()), room, victim, seen);
        EvictedKeeps(old(Here()), room, victim, seen);
        if quiet { OfferAccepted(old(fifo), old(book).tickets, now, room, at + ttl, capacity, |old(book).under|); }
      }
      Commit(Envelope(sequence, book.pin), quiet);
    }

    /** Close or teardown: what is queued is abandoned and its tickets die. */
    method Abandon()
      requires Valid()
      modifies this`book, this`mail
      ensures Valid() && mail.orphan && mail.queue == [] && mail.abandoned == old(mail).abandoned + |old(mail).queue|
      ensures book.overflowed == old(book).overflowed && NoneEvicted(old(book).tickets, book.tickets)
      ensures book.hand == old(book).hand
    {
      hide Sound, Flow, Listed;
      var doomed := mail.queue;
      AbandonSound(book, doomed);
      AbandonFlow(mail, sent, done);
      mail := mail.(orphan := true, queue := [], abandoned := mail.abandoned + |doomed|);
      book := book.(hand := book.hand + CarriedAll(doomed));
      ghost var b := book;
      ReliedTwice(b, mail, b, mail, b, mail);
      assert doomed[0..] == doomed;
      for k := 0 to |doomed|
        invariant Steady() && book.pin == None && Relied(b, mail, book, mail)
        invariant mail == old(mail).(orphan := true, queue := [], abandoned := old(mail).abandoned + |doomed|)
        invariant book.hand == old(book).hand + CarriedAll(doomed[k..])
      {
        CarriedStep(old(book), doomed, k);
        if doomed[k].ticket.Some? {
          ghost var c := book;
          Release(doomed[k].ticket.value);
          ReliedTwice(b, mail, c, mail, book, mail);
        }
      }
      ListedAged(fifo, b.tickets, book.tickets);
    }

    /** Any run of a new buffer, with owner steps inside and between the receiver's
        operations, each of which may leave retirements under way. Receive numbers rise, acquisition times do not fall. */
    method Run(calls: seq<Call>, first: nat)
      requires Valid() && Latest(sent) <= first
      modifies this
      ensures Valid() && old(done) <= done
    {
      hide Sound, Flow, Listed, Evicted, Relied, Latest;
      var last := first;
      for i := 0 to |calls|
        invariant Valid() && Latest(sent) <= last && old(done) <= done
      {
        match calls[i] {
          case Publishing(gap, generic, delay, now) => {
            last := last + 1 + gap;
            ghost var room, victim, seen := Publish(last, generic, acquired + delay, now, false);
            LatestIs(sent);
          }
          case Owning => { Owner(false); }
          case Abandoning => { Abandon(); }
        }
      }
    }

    /** What holds between any two operations of such a run. */
    lemma Bounds()
      requires Valid()
      ensures |ActiveIn(fifo, book.tickets)| <= capacity && |fifo| <= 2 * capacity + 1
      ensures book.pending == |ActiveIn(fifo, book.tickets)| + |book.under| <= capacity + |book.under|
      ensures book.pending == |ActiveIn(fifo, book.tickets)| <==> book.under == {}
      ensures forall t :: t in book.tickets && book.tickets[t].active ==> t in fifo
      ensures Rising(done) && |sent| == |done| + mail.dropped + mail.abandoned + |mail.queue|
      ensures !mail.orphan ==> Plain(done) + Plain(mail.queue) == Plain(sent)
    {
      PendingIsActive(book, mail.queue, fifo);
      ListedIsActive(fifo, book.tickets);
      hide Sound;
      forall i, j | 0 <= i < j < |done| ensures done[i].sequence < done[j].sequence {
        assert (done + mail.queue)[i] == done[i] && (done + mail.queue)[j] == done[j];
      }
    }
  }

  // What a retirement under way can do to a publication.

  lemma FlowCount(m: Mailbox, sent: seq<Envelope>, done: seq<Envelope>)
    requires Flow(m, sent, done)
    ensures |m.queue| + |done| <= |sent|
  {
  }

  lemma Holder(b: Book, queue: seq<Envelope>, t: nat)
    requires Sound(b, queue) && b.pin == None && t in b.tickets
    ensures b.tickets[t].active && !Queued(queue, t) ==> t in b.hand
    ensures !b.tickets[t].active ==> !Queued(queue, t)
  {
  }

  /** One envelope was published and delivered; the owner has it. */
  method OneInHand(capacity: nat) returns (b: GenericBuffer)
    requires 0 < capacity <= SIZE_MAX
    ensures fresh(b) && b.Valid() && b.capacity == capacity && b.ttl == 10 && b.acquired == 0 && !b.mail.orphan
    ensures b.book.tickets == map[0 := Ticket(10, true, Kept)] && b.book.made == 1 && b.book.under == {} && b.book.hand >= {0}
    ensures ActiveIn(b.fifo, b.book.tickets) == [0] && |b.sent| == 1 && Latest(b.sent) == 1 && |b.done| == 1
  {
    hide Sound, Flow, Listed, Evicted, Relied, Tracks;
    b := new GenericBuffer(capacity, 10, 0);
    assert ActiveIn([], map[]) == [];
    var room, victim, seen := b.Publish(1, true, 0, 0, true);
    assert Ripened(map[], 0) == map[];
    assert b.book.tickets == map[0 := Ticket(10, true, Kept)];
    FlowCount(b.mail, b.sent, b.done);
    assert b.mail.queue == [Envelope(1, Some(0))];
    var item, skipped := b.TryPop(0);
  }

  /** Capacity one: the owner lets go of a delivered envelope, and a publication
      comes before its decrement. The count is past the capacity afterwards. */
  method CountPastCapacity() returns (b: GenericBuffer)
    ensures fresh(b) && b.Valid() && b.capacity == 1 && b.book.under == {0}
    ensures b.book.pending == 2 && |ActiveIn(b.fifo, b.book.tickets)| == 1
  {
    hide Sound, Flow, Listed, Evicted, Relied, Tracks;
    b := OneInHand(1);
    ghost var before := b.book.tickets;
    b.Release(0);
    ActiveAgain(b.fifo, before, b.book.tickets);
    assert [0][..0] == [];
    assert Ripened(b.book.tickets, 0) == b.book.tickets;
    var room, victim, seen := b.Publish(2, true, 0, 0, true);
    b.Bounds();
  }

  /** A second one is queued while the owner still has the first. */
  method OneInHandOneQueued() returns (b: GenericBuffer)
    ensures fresh(b) && b.Valid() && b.capacity == 2 && b.ttl == 10 && b.acquired == 0 && !b.mail.orphan
    ensures b.book.tickets == map[0 := Ticket(10, true, Kept), 1 := Ticket(10, true, Kept)]
    ensures b.book.made == 2 && b.book.under == {} && 0 in b.book.hand
    ensures ActiveIn(b.fifo, b.book.tickets) == [0, 1] && Latest(b.sent) == 2
  {
    hide Sound, Flow, Listed, Evicted, Relied, Tracks;
    b := OneInHand(2);
    assert Ripened(b.book.tickets, 0) == b.book.tickets;
    var room, victim, seen := b.Publish(2, true, 0, 0, true);
    FlowCount(b.mail, b.sent, b.done);
    assert b.mail.queue == [Envelope(2, Some(1))];
    Holder(b.book, b.mail.queue, 0);
  }

  lemma OneLeft(fifo: seq<nat>, before: Tickets, after: Tickets)
    requires before == map[0 := Ticket(10, true, Kept), 1 := Ticket(10, true, Kept)] && ActiveIn(fifo, before) == [0, 1]
    requires after == before[0 := Ticket(10, false, Kept)]
    ensures ActiveIn(fifo, after) == [1] && Ripened(after, 0) == after
    ensures Trimmed(fifo, after, 2, 1) == after[1 := Ticket(10, false, Overflow)]
  {
    ActiveAgain(fifo, before, after);
    assert [0, 1] == [0] + [1] && [0][..0] == [] && [1][..0] == [];
    ActiveConcat([0], [1], after);
  }

  /** Capacity two: the only active ticket is lost to overflow, because the
      retirement of the other one is still in the count. */
  method LivingEvicted() returns (b: GenericBuffer, ghost before: Moment)
    ensures before.book.under == {0} && ActiveIn(before.fifo, before.book.tickets) == [1]
    ensures fresh(b) && b.Valid() && b.capacity == 2
    ensures 1 in b.book.tickets && b.book.tickets[1].reason == Overflow && !Queued(b.mail.queue, 1)
  {
    hide Sound, Flow, Listed, Evicted, Relied, Tracks, ActiveIn, Trimmed, Ripened;
    b := OneInHandOneQueued();
    ghost var both := b.book.tickets;
    b.Release(0);
    before := b.Here();
    OneLeft(b.fifo, both, b.book.tickets);
    assert b.book.under == {0} && |b.book.under| == 1;
    var room, victim, seen := b.Publish(3, true, 0, 0, true);
    Holder(b.book, b.mail.queue, 1);
  }

  lemma LatestIs(sent: seq<Envelope>)
    ensures sent != [] ==> Latest(sent) == sent[|sent| - 1].sequence
  {
  }
}
