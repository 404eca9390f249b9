/** The receiver's registry as values: what each critical section under the
    registry mutex does to clients, demand tokens, mailbox counts and statistics.
    Mailbox contents are counts here; module GenericBuffer has them in full. */
module Registry {
  import opened Common
  import opened MapSum
  import opened WorkerLife

  /** A count that is erased when it would become zero. */
  type Count = n: nat | n > 0 witness 1

  datatype Class = GenericRaw | ManagedProtected | Lifecycle

  datatype Box = Box(enqueued: nat, dequeued: nat, dropped: nat, abandoned: nat, depth: nat, orphan: bool)

  const EMPTY_BOX := Box(0, 0, 0, 0, 0, false)

  datatype Entry = Entry(owner: nat, box: Box, orphan: bool, terminal: bool,
                         drivers: nat, watches: nat, lifecycle: nat, consumers: nat, handlerOnly: nat,
                         subGeneric: nat, subHandlers: nat, types: map<string, Count>,
                         oneShot: bool, inFlight: bool, pending: map<nat, Count>, guarded: map<nat, Class>)

  function NewEntry(owner: nat): Entry {
    Entry(owner, EMPTY_BOX, false, false, 0, 0, 0, 0, 0, 0, 0, map[], false, false, map[], map[])
  }

  /** `retired` is history: the boxes of erased entries, still held by views. */
  datatype Registry = Registry(
    entries: map<int, Entry>, driverTokens: map<nat, int>, watchTokens: map<nat, int>,
    nextDriver: nat, nextWatch: nat, owners: set<nat>, nextOwner: nat, known: set<int>, life: Life,
    received: nat, published: nat, unsolicited: nat, abandoned: nat, enqueued: nat, dequeued: nat,
    retired: map<int, Box>)

  const EMPTY := Registry(map[], map[], map[], 0, 0, {}, 0, {}, INITIAL, 0, 0, 0, 0, 0, 0, map[])

  // Demand tokens.

  function Without(tokens: map<nat, int>, id: int): map<nat, int> {
    map t | t in tokens && tokens[t] != id :: tokens[t]
  }

  function Naming(tokens: map<nat, int>, id: int): set<nat> {
    set t | t in tokens && tokens[t] == id
  }

  /** `clearDriverDemandLocked`. */
  function ClearDriver(r: Registry, id: int): Registry
    requires id in r.entries
  {
    r.(entries := r.entries[id := r.entries[id].(drivers := 0, oneShot := false, inFlight := false, watches := 0)],
       driverTokens := Without(r.driverTokens, id), watchTokens := Without(r.watchTokens, id))
  }

  function NoInterest(e: Entry): Entry {
    e.(consumers := 0, handlerOnly := 0, types := map[], subGeneric := 0, subHandlers := 0)
  }

  function Put(r: Registry, id: int, e: Entry): Registry {
    r.(entries := r.entries[id := e])
  }

  /** `clearDemandLocked`. */
  function ClearDemand(r: Registry, id: int): Registry
    requires id in r.entries
  {
    var s := ClearDriver(r, id);
    Put(s, id, NoInterest(s.entries[id]).(lifecycle := 0, pending := map[], guarded := map[]))
  }

  // Starting and stopping.

  function Launch(r: Registry, spawned: bool): Started {
    Start(r.life, r.entries == map[], spawned)
  }

  /** The worker stops serving an entry; when it failed, subscriptions end too. */
  function Muted(e: Entry, failing: bool): Entry {
    if failing then e.(watches := 0, subGeneric := 0, subHandlers := 0) else e.(watches := 0)
  }

  function Mute(m: map<int, Entry>, failing: bool): map<int, Entry> {
    map id | id in m :: Muted(m[id], failing)
  }

  /** `requestStopLocked`. */
  function Halt(r: Registry): Registry {
    r.(life := RequestStop(r.life), watchTokens := map[], entries := Mute(r.entries, false))
  }

  /** `fail`. */
  function Break(r: Registry): Registry {
    r.(life := Fail(r.life), watchTokens := map[], entries := Mute(r.entries, true))
  }

  // Clients and owners.

  function Attach(r: Registry): Registry {
    if r.life.state == Failed then r else r.(owners := r.owners + {r.nextOwner + 1}, nextOwner := r.nextOwner + 1)
  }

  /** An identity the history refuses, invalid or used before, creates nothing. */
  function Create(r: Registry, owner: nat, id: int): Registry {
    if r.life.state == Failed || owner !in r.owners || id <= 0 || id in r.known then r
    else r.(known := r.known + {id}, entries := r.entries[id := NewEntry(owner)])
  }

  /** `Mailbox::abandon`. */
  function Abandoned(b: Box): Box {
    b.(orphan := true, abandoned := b.abandoned + b.depth, depth := 0)
  }

  /** Fold the statistics of a box into the totals and erase its entry. */
  function Retire(r: Registry, id: int): Registry
    requires id in r.entries
  {
    var b := r.entries[id].box;
    r.(entries := r.entries - {id}, retired := r.retired[id := b],
       abandoned := r.abandoned + b.abandoned, enqueued := r.enqueued + b.enqueued, dequeued := r.dequeued + b.dequeued)
  }

  function RetireIf(r: Registry, id: int, over: bool): Registry
    requires id in r.entries
  {
    if over then Retire(r, id) else r
  }

  /** `cleanupTerminal`, and the end of `publish` for a terminal. */
  function Terminate(r: Registry, id: int): Registry {
    if id !in r.entries then r
    else
      var s := ClearDemand(Put(r, id, r.entries[id].(terminal := true)), id);
      RetireIf(s, id, s.entries[id].orphan)
  }

  /** The entry loses its owner and its box is abandoned. */
  function Orphaned(r: Registry, id: int): Registry
    requires id in r.entries
  {
    Put(r, id, r.entries[id].(orphan := true, box := Abandoned(r.entries[id].box)))
  }

  function Forget(r: Registry, id: int): Registry {
    if id !in r.entries || r.entries[id].orphan then r
    else
      var e := r.entries[id];
      var s := Orphaned(r, id);
      var t := if e.terminal then ClearDemand(s, id) else var c := ClearDriver(s, id); Put(c, id, NoInterest(c.entries[id]));
      RetireIf(t, id, e.terminal)
  }

  /** One entry in the loop of `detachOwner`. With other owners attached only
      accepted lifecycle work stays. */
  function DetachOne(r: Registry, owner: nat, others: bool, id: int): Registry
    requires id in r.entries
  {
    var e := r.entries[id];
    var s :=
      if e.owner != owner || e.orphan then r
      else if !others then ClearDemand(Orphaned(r, id), id)
      else
        var c := ClearDriver(Orphaned(r, id), id);
        var f := c.entries[id];
        Put(c, id, NoInterest(f).(pending := map[], guarded := map q | q in f.guarded && f.guarded[q] == Lifecycle :: Lifecycle));
    RetireIf(s, id, e.owner == owner && e.terminal)
  }

  function DetachAll(r: Registry, owner: nat, others: bool, ids: seq<int>): Registry
    decreases |ids|
  {
    if ids == [] then r
    else
      var n := |ids| - 1;
      var s := DetachAll(r, owner, others, ids[..n]);
      if ids[n] in s.entries then DetachOne(s, owner, others, ids[n]) else s
  }

  predicate OthersFinish(r: Registry, owner: nat) {
    r.owners - {owner} != {} && r.life.state != Failed
  }

  /** `detachOwner` up to the reap; `ids` is the order of the entries. */
  function Detach(r: Registry, owner: nat, ids: seq<int>): Registry {
    var s := DetachAll(r.(owners := r.owners - {owner}), owner, OthersFinish(r, owner), ids);
    if s.owners == {} then Halt(s) else s
  }

  // Demand and interest.

  function AcquireDriver(r: Registry, id: int, spawned: bool): Registry {
    if id !in r.entries || r.entries[id].terminal then r
    else
      var l := Launch(r, spawned);
      if l.threw then r.(life := l.life)
      else
        r.(life := l.life, nextDriver := r.nextDriver + 1, driverTokens := r.driverTokens[r.nextDriver + 1 := id],
           entries := r.entries[id := r.entries[id].(drivers := r.entries[id].drivers + 1)])
  }

  predicate Watchable(r: Registry, id: int) {
    && r.life.state != Stopping && r.life.state != Failed
    && id in r.entries && !r.entries[id].terminal && !r.entries[id].orphan
    && (r.life.state == Running || !(r.life.joinable || r.life.joining))
  }

  function AcquireWatch(r: Registry, id: int, spawned: bool): Registry {
    if !Watchable(r, id) then r
    else
      var l := Launch(r, spawned);
      if l.threw then r.(life := l.life)
      else
        r.(life := l.life, nextWatch := r.nextWatch + 1, watchTokens := r.watchTokens[r.nextWatch + 1 := id],
           entries := r.entries[id := r.entries[id].(watches := r.entries[id].watches + 1)])
  }

  function Less(n: nat): nat { if n > 0 then n - 1 else 0 }

  function ReleaseDriver(r: Registry, t: nat): Registry {
    if t !in r.driverTokens then r
    else
      var id := r.driverTokens[t];
      var s := r.(driverTokens := r.driverTokens - {t});
      if id in r.entries then Put(s, id, r.entries[id].(drivers := Less(r.entries[id].drivers))) else s
  }

  function ReleaseWatch(r: Registry, t: nat): Registry {
    if t !in r.watchTokens then r
    else
      var id := r.watchTokens[t];
      var s := r.(watchTokens := r.watchTokens - {t});
      if id in r.entries then Put(s, id, r.entries[id].(watches := Less(r.entries[id].watches))) else s
  }

  function Shift(n: nat, active: bool): nat { if active then n + 1 else Less(n) }

  function SetConsumer(r: Registry, id: int, active: bool, generic: bool): Registry {
    if id !in r.entries || r.entries[id].terminal then r
    else
      var e := r.entries[id];
      Put(r, id, if generic then e.(consumers := Shift(e.consumers, active)) else e.(handlerOnly := Shift(e.handlerOnly, active)))
  }

  predicate Subscribable(r: Registry, id: int) {
    id in r.entries && !r.entries[id].terminal && !r.entries[id].orphan
  }

  function SetSubscription(r: Registry, id: int, active: bool, generic: bool): Registry {
    if !Subscribable(r, id) then r
    else
      var e := r.entries[id];
      Put(r, id, if generic then e.(subGeneric := Shift(e.subGeneric, active)) else e.(subHandlers := Shift(e.subHandlers, active)))
  }

  function SetHandler(r: Registry, id: int, name: string, active: bool): Registry {
    if id !in r.entries || r.entries[id].terminal then r
    else
      var e := r.entries[id];
      var n: nat := if name in e.types then e.types[name] else 0;
      Put(r, id, e.(types := if active then e.types[name := n + 1] else if n > 1 then e.types[name := n - 1] else e.types - {name}))
  }

  function RequestOneShot(r: Registry, id: int, spawned: bool): Registry {
    if id !in r.entries || r.entries[id].terminal then r
    else
      var l := Launch(r, spawned);
      var s := r.(life := l.life);
      if l.threw then s else Put(s, id, s.entries[id].(oneShot := true))
  }

  function ErasePending(e: Entry, request: nat): Entry {
    if request !in e.pending then e
    else if e.pending[request] <= 1 then e.(pending := e.pending - {request})
    else e.(pending := e.pending[request := e.pending[request] - 1])
  }

  /** `admitSend` once the ledger has admitted the send; request 0 is none. */
  function Admit(r: Registry, id: int, close: bool, request: nat, class_: Class, spawned: bool): Registry {
    if r.life.state == Failed || id !in r.entries then r
    else
      var demands := close || class_ != GenericRaw;
      var l := if demands then Launch(r, spawned) else Started(r.life, false);
      var s := r.(life := l.life);
      var e := s.entries[id];
      if l.threw then Put(s, id, if request == 0 then e else e.(guarded := e.guarded - {request}))
      else
        var f := if request != 0 && demands
                 then e.(pending := e.pending[request := (if request in e.pending then e.pending[request] else 0) + 1],
                         guarded := e.guarded[request := if close then Lifecycle else class_])
                 else e;
        Put(s, id, if close then f.(lifecycle := f.lifecycle + 1) else f)
  }

  function EndSend(r: Registry, id: int, close: bool, request: nat, sent: bool): Registry {
    if id !in r.entries || sent then r
    else
      var e := if request != 0 then ErasePending(r.entries[id], request) else r.entries[id];
      var f := e.(guarded := e.guarded - {request});
      Put(r, id, if close then f.(lifecycle := Less(f.lifecycle)) else f)
  }

  // Routing.

  datatype Item = Item(client: int, terminal: bool, request: nat, event: string)

  datatype Verdict = Verdict(preserved: bool, ticketed: bool, class_: Class)

  /** What `publish` decides about an envelope; `wanted` tells whether the client
      had a generic consumer when the receive began. */
  function Retention(e: Entry, i: Item, wanted: bool): Verdict {
    var driver := e.drivers != 0 || e.oneShot || e.inFlight;
    var class_ := if i.terminal || (i.request in e.guarded && e.guarded[i.request] == Lifecycle) then Lifecycle
                  else if i.request in e.guarded then ManagedProtected else GenericRaw;
    var generic := e.consumers != 0 || (!e.orphan && wanted);
    var handler := e.handlerOnly != 0;
    var subGeneric, subHandler := e.subGeneric != 0, e.subHandlers != 0;
    var registered := i.event in e.types;
    var selected := (handler || subHandler) && registered;
    var traditional := driver || generic || handler || e.lifecycle != 0;
    var subOnly := !traditional && (subGeneric || subHandler);
    var unsolicited := i.request == 0 && !i.terminal;
    var filtered := (handler || (subOnly && subHandler && !subGeneric)) && !generic && !subGeneric && i.event != ""
                    && !selected && i.request == 0 && !i.terminal && e.lifecycle == 0;
    var preserve := i.request != 0 || i.terminal || e.lifecycle != 0 || driver || generic || selected
                    || (subOnly && subGeneric && unsolicited);
    var update := i.request == 0 && !i.terminal && e.lifecycle == 0 && (generic || (driver && !handler)) && !selected;
    var subUpdate := subOnly && unsolicited && (subGeneric || (subHandler && registered));
    var raw := i.request != 0 && class_ == GenericRaw;
    Verdict(preserve && !filtered, update || subUpdate || raw, class_)
  }

  /** The mailbox takes one envelope after losing `evicted` ticketed ones. */
  function Arrive(b: Box, evicted: nat): Box
    requires evicted <= b.depth
  {
    if b.orphan then b.(dropped := b.dropped + evicted, depth := b.depth - evicted, abandoned := b.abandoned + 1)
    else b.(dropped := b.dropped + evicted, depth := b.depth - evicted + 1, enqueued := b.enqueued + 1)
  }

  /** Neither phase of `publish` knows the client: the worker throws. */
  predicate Unknown(r: Registry, id: int) { id !in r.entries && id !in r.known }

  predicate Gone(r: Registry, id: int) { if id in r.entries then r.entries[id].terminal else id in r.known }

  /** First locked phase: count the envelope, give up on a gone client. */
  function RouteFirst(r: Registry, i: Item): Registry {
    var s := r.(received := r.received + 1);
    if Gone(r, i.client) then s.(abandoned := s.abandoned + 1) else s
  }

  /** Second locked phase; `evicted` envelopes leave the box for a ticketed one. */
  function RouteSecond(r: Registry, i: Item, wanted: bool, evicted: nat): Registry {
    if Unknown(r, i.client) then r
    else if Gone(r, i.client) || i.client !in r.entries then r.(abandoned := r.abandoned + 1)
    else
      var e := r.entries[i.client];
      var v := Retention(e, i, wanted);
      if !v.preserved then r.(unsolicited := r.unsolicited + 1)
      else
        var k := if v.ticketed && evicted <= e.box.depth then evicted else 0;
        var f := e.(box := Arrive(e.box, k));
        var g := if i.request == 0 then f else var h := ErasePending(f, i.request); h.(guarded := h.guarded - {i.request});
        var s := Put(r.(published := r.published + 1), i.client, g);
        if i.terminal then Terminate(s, i.client) else s
  }

  // The owner's mailbox handle outlives the entry.

  /** Deliver one envelope, or drop a dead one, from a box that has any. */
  function Popped(b: Box, deliver: bool): Box {
    if b.depth == 0 then b
    else if deliver then b.(depth := b.depth - 1, dequeued := b.dequeued + 1)
    else b.(depth := b.depth - 1, dropped := b.dropped + 1)
  }

  function Pop(r: Registry, id: int, deliver: bool): Registry {
    if id in r.entries then Put(r, id, r.entries[id].(box := Popped(r.entries[id].box, deliver)))
    else if id in r.retired then r.(retired := r.retired[id := Popped(r.retired[id], deliver)])
    else r
  }

  // The worker's reading of demand.

  predicate Demanding(e: Entry) {
    e.drivers != 0 || e.lifecycle != 0 || e.watches != 0 || e.oneShot || e.inFlight || e.pending != map[]
  }

  /** The worker claims the first pending one-shot request, if any. */
  function Claim(r: Registry, id: int): Registry {
    if id in r.entries && r.entries[id].oneShot then Put(r, id, r.entries[id].(oneShot := false, inFlight := true)) else r
  }

  function CompleteOneShot(r: Registry, id: int): Registry {
    if id in r.entries then Put(r, id, r.entries[id].(inFlight := false)) else r
  }
}
