/** Every run of the receiver: coordinators, owners, subscription views and the
    worker take critical sections in any order. */
module RegistryRuns {
  import opened Common
  import opened MapSum
  import opened WorkerLife
  import opened Registry

  /** Where the worker thread is. `Between` has counted an envelope it has not
      routed yet; `Broken` has thrown and not yet called `fail`. */
  datatype Pc = Off | Loop | Waiting(claim: Option<int>, wanted: set<int>)
              | Have(item: Item, claim: Option<int>, wanted: set<int>)
              | Between(item: Item, claim: Option<int>, wanted: set<int>)
              | Routed(claim: Option<int>) | Broken | Cleaning

  datatype Phase = Idle | Interested | Watching(token: nat) | Leaving

  /** A readiness view of one client, in one interest mode. */
  datatype View = View(client: int, generic: bool, phase: Phase)

  datatype World = World(r: Registry, threads: Threads, pc: Pc, lost: nat, views: map<nat, View>)

  const NEW := World(EMPTY, NO_THREADS, Off, 0, map[])

  datatype Step =
    | Reap(life: LifeStep)
    | Attaching | Creating(owner: nat, id: int) | Detaching(owner: nat, ids: seq<int>) | Halting
    | Terminating(id: int) | Forgetting(id: int)
    | Driving(id: int, spawned: bool) | DropDriver(token: nat) | DropWatch(token: nat)
    | Consuming(id: int, active: bool, generic: bool) | Handling(id: int, name: string, active: bool)
    | OneShot(id: int, spawned: bool)
    | Admitting(id: int, close: bool, request: nat, class_: Class, spawned: bool)
    | Ending(id: int, close: bool, request: nat, sent: bool)
    | Popping(id: int, deliver: bool)
    | ViewInterest(view: nat, client: int, generic: bool) | ViewWatch(view: nat, spawned: bool)
    | ViewRelease(view: nat) | ViewClear(view: nat)
    | Receive(claim: Option<int>) | Source(item: Option<Item>) | RouteOne | RouteTwo(evicted: nat) | Finish
    | Raise | Failing | Exit

  predicate CanStep(w: World, s: Step) {
    match s
    case Reap(l) => (l.TakeTicket? || l.JoinStep? || l.JoinThrew? || l.ReturnStep?) && Enabled(w.r.life, w.threads, l)
    case ViewInterest(v, _, _) => v !in w.views || w.views[v].phase == Idle
    case ViewWatch(v, _) => v in w.views && w.views[v].phase == Interested
    case ViewRelease(v) => v in w.views && w.views[v].phase.Watching?
    case ViewClear(v) => v in w.views && (w.views[v].phase == Interested || w.views[v].phase == Leaving)
    case Detaching(_, ids) => forall id :: id in w.r.entries ==> id in ids
    case Receive(c) => w.pc == Loop && !w.r.life.stop && (exists id :: id in w.r.entries && Demanding(w.r.entries[id]))
                       && (c.Some? ==> c.value in w.r.entries && w.r.entries[c.value].oneShot)
    case Source(_) => w.pc.Waiting?
    case RouteOne => w.pc.Have?
    case RouteTwo(_) => w.pc.Between?
    case Finish => w.pc.Routed?
    case Raise => w.pc.Loop? || w.pc.Waiting? || w.pc.Have? || w.pc.Between? || w.pc.Routed?
    case Failing => w.pc == Broken
    case Exit => w.pc == Cleaning || (w.pc == Loop && w.r.life.stop)
    case _ => true
  }

  /** A critical section that may have started a generation. */
  function With(w: World, r: Registry): World {
    if r.life.generation == w.r.life.generation then w.(r := r)
    else w.(r := r, threads := w.threads.(alive := w.threads.alive + {r.life.generation}), pc := Loop)
  }

  function SetView(w: World, v: nat, phase: Phase): World
    requires v in w.views
  {
    w.(views := w.views[v := w.views[v].(phase := phase)])
  }

  function After(w: World, s: Step): World
    requires CanStep(w, s)
  {
    match s
    case Reap(l) => w.(r := w.r.(life := LifeAfter(w.r.life, l)), threads := ThreadsAfter(w.r.life, w.threads, l))
    case Attaching => w.(r := Attach(w.r))
    case Creating(owner, id) => w.(r := Create(w.r, owner, id))
    case Detaching(owner, ids) => w.(r := Detach(w.r, owner, ids))
    case Halting => w.(r := Halt(w.r))
    case Terminating(id) => w.(r := Terminate(w.r, id))
    case Forgetting(id) => w.(r := Forget(w.r, id))
    case Driving(id, spawned) => With(w, AcquireDriver(w.r, id, spawned))
    case DropDriver(t) => w.(r := ReleaseDriver(w.r, t))
    case DropWatch(t) => w.(r := ReleaseWatch(w.r, t))
    case Consuming(id, active, generic) => w.(r := SetConsumer(w.r, id, active, generic))
    case Handling(id, name, active) => w.(r := SetHandler(w.r, id, name, active))
    case OneShot(id, spawned) => With(w, RequestOneShot(w.r, id, spawned))
    case Admitting(id, close, q, c, spawned) => With(w, Admit(w.r, id, close, q, c, spawned))
    case Ending(id, close, q, sent) => w.(r := EndSend(w.r, id, close, q, sent))
    case Popping(id, deliver) => w.(r := Pop(w.r, id, deliver))
    case ViewInterest(v, id, generic) =>
      if Subscribable(w.r, id)
      then w.(r := SetSubscription(w.r, id, true, generic), views := w.views[v := View(id, generic, Interested)])
      else w
    case ViewWatch(v, spawned) =>
      var s := AcquireWatch(w.r, w.views[v].client, spawned);
      if s.nextWatch != w.r.nextWatch then SetView(With(w, s), v, Watching(s.nextWatch)) else w.(r := s)
    case ViewRelease(v) => SetView(w.(r := ReleaseWatch(w.r, w.views[v].phase.token)), v, Leaving)
    case ViewClear(v) => SetView(w.(r := SetSubscription(w.r, w.views[v].client, false, w.views[v].generic)), v, Idle)
    case Receive(c) =>
      w.(r := if c.Some? then Claim(w.r, c.value) else w.r,
         pc := Waiting(c, set id | id in w.r.entries && w.r.entries[id].consumers != 0))
    case Source(i) =>
      if i.Some? then w.(pc := Have(i.value, w.pc.claim, w.pc.wanted)) else w.(pc := Routed(w.pc.claim))
    case RouteOne =>
      var i := w.pc.item;
      if Unknown(w.r, i.client) then w.(r := RouteFirst(w.r, i), pc := Broken, lost := w.lost + 1)
      else w.(r := RouteFirst(w.r, i),
              pc := if Gone(w.r, i.client) then Routed(w.pc.claim) else Between(i, w.pc.claim, w.pc.wanted))
    case RouteTwo(evicted) =>
      var i := w.pc.item;
      if Unknown(w.r, i.client) then w.(pc := Broken, lost := w.lost + 1)
      else w.(r := RouteSecond(w.r, i, i.client in w.pc.wanted, evicted), pc := Routed(w.pc.claim))
    case Finish => w.(r := if w.pc.claim.Some? then CompleteOneShot(w.r, w.pc.claim.value) else w.r, pc := Loop)
    case Raise => w.(pc := Broken, lost := w.lost + if w.pc.Between? then 1 else 0)
    case Failing => w.(r := Break(w.r), pc := Cleaning)
    case Exit => w.(threads := ThreadsAfter(w.r.life, w.threads, ExitStep), pc := Off)
  }

  // What every run keeps.

  /** Demand counts are the numbers of live tokens, and tokens name live clients. */
  ghost predicate Exact(r: Registry) {
    && (forall id :: id in r.entries ==> Balanced(r, id))
    && (forall t :: t in r.driverTokens ==> t <= r.nextDriver && Driveable(r, r.driverTokens[t]))
    && (forall t :: t in r.watchTokens ==> t <= r.nextWatch && Subscribable(r, r.watchTokens[t]))
    && (r.watchTokens != map[] ==> r.life.state == Running)
  }

  ghost predicate Driveable(r: Registry, id: int) { id in r.entries && !r.entries[id].terminal }

  ghost predicate Balanced(r: Registry, id: int)
    requires id in r.entries
  {
    && r.entries[id].drivers == |Naming(r.driverTokens, id)|
    && r.entries[id].watches == |Naming(r.watchTokens, id)|
  }

  /** Orphaned and retired boxes are empty for good; a terminal client without
      an owner is retired at once; identities are never used again. */
  ghost predicate Housed(r: Registry) {
    && (forall id :: id in r.entries ==> id in r.known && id !in r.retired && EntryHoused(r.entries[id], r.owners))
    && (forall id :: id in r.retired ==> id in r.known && r.retired[id].orphan && r.retired[id].depth == 0)
  }

  ghost predicate EntryHoused(e: Entry, owners: set<nat>) {
    && e.box.orphan == e.orphan && (e.orphan ==> e.box.depth == 0 && !e.terminal)
    && (!e.orphan ==> e.owner in owners)
  }

  function BoxOf(e: Entry): nat { e.box.dequeued + e.box.dropped + e.box.depth + e.box.abandoned }
  function DoneOf(b: Box): nat { b.dequeued + b.dropped }
  function DequeuedOf(b: Box): nat { b.dequeued }
  function EnqueuedOf(b: Box): nat { b.enqueued }

  /** Every envelope received is accounted for once; the totals of retired boxes
      are exact. */
  ghost predicate Conserved(r: Registry, inFlight: nat) {
    && r.received == r.unsolicited + r.abandoned + Sum(r.entries, BoxOf) + Sum(r.retired, DoneOf) + inFlight
    && r.dequeued == Sum(r.retired, DequeuedOf) && r.enqueued == Sum(r.retired, EnqueuedOf)
  }

  function InFlight(w: World): nat { w.lost + if w.pc.Between? then 1 else 0 }

  ghost predicate Working(w: World) {
    && (w.pc == Off <==> w.threads.alive == {}) && w.lost <= 1
    && (w.lost > 0 ==> w.pc == Broken || w.r.life.state == Failed)
    && (w.pc == Cleaning ==> w.r.life.state == Failed)
    && (w.pc != Off && w.pc != Cleaning ==> w.r.life.state != Failed)
  }

  ghost predicate Holds(v: View, id: int, generic: bool) { v.client == id && v.generic == generic && v.phase != Idle }

  ghost function Holding(views: map<nat, View>, id: int, generic: bool): set<nat> {
    set v | v in views && Holds(views[v], id, generic)
  }

  /** The interest counts of a client that can still be subscribed are its views. */
  ghost predicate Subscribed(r: Registry, views: map<nat, View>) {
    && (forall v :: v in views && views[v].phase != Idle ==> views[v].client in r.known)
    && (r.life.state != Failed ==> forall id :: Subscribable(r, id) ==> Matched(r, views, id))
  }

  ghost predicate Matched(r: Registry, views: map<nat, View>, id: int)
    requires id in r.entries
  {
    && r.entries[id].subGeneric == |Holding(views, id, true)|
    && r.entries[id].subHandlers == |Holding(views, id, false)|
  }

  ghost predicate Kept(r: Registry, views: map<nat, View>, n: nat) {
    Exact(r) && Housed(r) && Conserved(r, n) && Subscribed(r, views)
  }

  // Token sets.

  lemma TokenAdded(tokens: map<nat, int>, t: nat, id: int)
    requires t !in tokens
    ensures |Naming(tokens[t := id], id)| == |Naming(tokens, id)| + 1
    ensures forall j :: j != id ==> Naming(tokens[t := id], j) == Naming(tokens, j)
  {
    assert Naming(tokens[t := id], id) == Naming(tokens, id) + {t};
  }

  lemma TokenDropped(tokens: map<nat, int>, t: nat)
    requires t in tokens
    ensures |Naming(tokens, tokens[t])| == |Naming(tokens - {t}, tokens[t])| + 1
    ensures forall j :: j != tokens[t] ==> Naming(tokens - {t}, j) == Naming(tokens, j)
  {
    assert Naming(tokens, tokens[t]) == Naming(tokens - {t}, tokens[t]) + {t};
  }

  lemma TokensCleared(tokens: map<nat, int>, id: int)
    ensures Naming(Without(tokens, id), id) == {}
    ensures forall j :: j != id ==> Naming(Without(tokens, id), j) == Naming(tokens, j)
  {
  }

  // What one part of the invariant depends on.

  ghost predicate SameTokens(r: Registry, s: Registry) {
    && s.entries.Keys == r.entries.Keys
    && (forall id :: id in r.entries ==> var e, f := r.entries[id], s.entries[id];
          f.drivers == e.drivers && f.watches == e.watches && f.terminal == e.terminal && f.orphan == e.orphan)
    && s.driverTokens == r.driverTokens && s.watchTokens == r.watchTokens
    && s.nextDriver == r.nextDriver && s.nextWatch == r.nextWatch
    && (r.life.state == Running ==> s.life.state == Running)
  }

  lemma TokensKept(r: Registry, s: Registry)
    requires Exact(r) && SameTokens(r, s)
    ensures Exact(s)
  {
    forall id | id in s.entries ensures Balanced(s, id) { assert Balanced(r, id); }
  }

  ghost predicate SameBoxes(r: Registry, s: Registry) {
    && s.entries.Keys == r.entries.Keys
    && (forall id :: id in r.entries ==> SameBox(r.entries[id], s.entries[id]))
    && s.known == r.known && r.owners <= s.owners && SameTotals(r, s)
  }

  ghost predicate SameTotals(r: Registry, s: Registry) {
    && s.retired == r.retired && s.received == r.received && s.unsolicited == r.unsolicited
    && s.abandoned == r.abandoned && s.enqueued == r.enqueued && s.dequeued == r.dequeued
  }

  ghost predicate SameBox(e: Entry, f: Entry) {
    f.owner == e.owner && f.box == e.box && f.orphan == e.orphan && f.terminal == e.terminal
  }

  lemma BoxesKept(r: Registry, s: Registry, n: nat)
    requires Housed(r) && Conserved(r, n) && SameBoxes(r, s)
    ensures Housed(s) && Conserved(s, n)
  {
    forall id | id in r.entries ensures BoxOf(r.entries[id]) == BoxOf(s.entries[id]) {
      assert SameBox(r.entries[id], s.entries[id]);
    }
    SumSame(r.entries, s.entries, BoxOf);
  }

  ghost predicate SameInterest(r: Registry, s: Registry) {
    && r.known <= s.known && (r.life.state == Failed ==> s.life.state == Failed)
    && (forall id :: Subscribable(s, id) ==> SameSubs(r, s, id))
  }

  ghost predicate SameSubs(r: Registry, s: Registry, id: int)
    requires id in s.entries
  {
    && Subscribable(r, id)
    && s.entries[id].subGeneric == r.entries[id].subGeneric && s.entries[id].subHandlers == r.entries[id].subHandlers
  }

  lemma InterestKept(r: Registry, s: Registry, views: map<nat, View>)
    requires Subscribed(r, views) && SameInterest(r, s)
    ensures Subscribed(s, views)
  {
    if s.life.state != Failed {
      forall id | Subscribable(s, id) ensures Matched(s, views, id) { assert SameSubs(r, s, id) && Matched(r, views, id); }
    }
  }

  ghost predicate Calm(r: Registry, s: Registry) {
    SameTokens(r, s) && SameBoxes(r, s) && SameInterest(r, s)
  }

  lemma CalmKeeps(r: Registry, s: Registry, views: map<nat, View>, n: nat)
    requires Kept(r, views, n) && Calm(r, s)
    ensures Kept(s, views, n)
  {
    hide Exact, Housed, Conserved, Subscribed, SameTokens, SameBoxes, SameInterest;
    TokensKept(r, s);
    BoxesKept(r, s, n);
    InterestKept(r, s, views);
  }

  /** Another entry for the same client, as far as the invariant can tell. */
  ghost predicate Like(e: Entry, f: Entry) {
    SameBox(e, f) && f.drivers == e.drivers && f.watches == e.watches
    && f.subGeneric == e.subGeneric && f.subHandlers == e.subHandlers
  }

  lemma PutCalm(r: Registry, l: Life, id: int, f: Entry)
    requires id in r.entries && Like(r.entries[id], f)
    requires (r.life.state == Running ==> l.state == Running) && (r.life.state == Failed ==> l.state == Failed)
    ensures Calm(r, Put(r.(life := l), id, f)) && Calm(r, r.(life := l))
  {
  }

  lemma PendingLike(e: Entry, request: nat)
    ensures Like(e, ErasePending(e, request))
  {
  }

  lemma ConsumerKeeps(r: Registry, id: int, active: bool, generic: bool, views: map<nat, View>, n: nat)
    requires Kept(r, views, n)
    ensures Kept(SetConsumer(r, id, active, generic), views, n)
  {
    hide Kept, Calm;
    if id in r.entries {
      var s := SetConsumer(r, id, active, generic);
      PutCalm(r, r.life, id, s.entries[id]);
      CalmKeeps(r, s, views, n);
    }
  }

  lemma HandlerKeeps(r: Registry, id: int, name: string, active: bool, views: map<nat, View>, n: nat)
    requires Kept(r, views, n)
    ensures Kept(SetHandler(r, id, name, active), views, n)
  {
    hide Kept, Calm;
    if id in r.entries {
      var s := SetHandler(r, id, name, active);
      PutCalm(r, r.life, id, s.entries[id]);
      CalmKeeps(r, s, views, n);
    }
  }

  lemma EndSendKeeps(r: Registry, id: int, close: bool, request: nat, sent: bool, views: map<nat, View>, n: nat)
    requires Kept(r, views, n)
    ensures Kept(EndSend(r, id, close, request, sent), views, n)
  {
    hide Kept, Calm, ErasePending;
    if id in r.entries && !sent {
      var s := EndSend(r, id, close, request, sent);
      PendingLike(r.entries[id], request);
      PutCalm(r, r.life, id, s.entries[id]);
      CalmKeeps(r, s, views, n);
    }
  }

  lemma ClaimKeeps(r: Registry, id: int, views: map<nat, View>, n: nat)
    requires Kept(r, views, n)
    ensures Kept(Claim(r, id), views, n) && Kept(CompleteOneShot(r, id), views, n)
  {
    hide Kept, Calm;
    if id in r.entries {
      var s, t := Claim(r, id), CompleteOneShot(r, id);
      PutCalm(r, r.life, id, s.entries[id]);
      if r.entries[id].oneShot { CalmKeeps(r, s, views, n); }
      PutCalm(r, r.life, id, t.entries[id]);
      CalmKeeps(r, t, views, n);
    }
  }

  lemma OneShotKeeps(r: Registry, id: int, spawned: bool, views: map<nat, View>, n: nat)
    requires Kept(r, views, n)
    ensures Kept(RequestOneShot(r, id, spawned), views, n)
  {
    hide Kept, Calm;
    if id in r.entries && !r.entries[id].terminal {
      var s := RequestOneShot(r, id, spawned);
      PutCalm(r, s.life, id, s.entries[id]);
      CalmKeeps(r, s, views, n);
    }
  }

  /** An admission touches one entry, and the life when it starts a worker. */
  lemma AdmitShape(r: Registry, id: int, close: bool, request: nat, c: Class, spawned: bool)
    requires id in r.entries && r.life.state != Failed
    ensures var s := Admit(r, id, close, request, c, spawned);
      && id in s.entries && s == Put(r.(life := s.life), id, s.entries[id])
      && Like(r.entries[id], s.entries[id]) && s.life.state != Failed
      && (s.life == r.life || (Launch(r, spawned).life == s.life && (close || c != GenericRaw)))
  {
    LaunchLife(r, spawned);
    hide Launch;
  }

  lemma LaunchLife(r: Registry, spawned: bool)
    ensures r.life.state != Failed ==> Launch(r, spawned).life.state != Failed
    ensures r.life.state == Running ==> Launch(r, spawned).life.state == Running
  {
  }

  lemma AdmitKeeps(r: Registry, id: int, close: bool, request: nat, c: Class, spawned: bool, views: map<nat, View>, n: nat)
    requires Kept(r, views, n)
    ensures Kept(Admit(r, id, close, request, c, spawned), views, n)
  {
    if id in r.entries && r.life.state != Failed {
      hide Kept, Calm, Launch;
      var s := Admit(r, id, close, request, c, spawned);
      AdmitShape(r, id, close, request, c, spawned);
      LaunchLife(r, spawned);
      hide Admit, Like;
      PutCalm(r, s.life, id, s.entries[id]);
      CalmKeeps(r, s, views, n);
    }
  }

  lemma AttachKeeps(r: Registry, views: map<nat, View>, n: nat)
    requires Kept(r, views, n)
    ensures Kept(Attach(r), views, n)
  {
    hide Kept;
    assert Calm(r, Attach(r));
    CalmKeeps(r, Attach(r), views, n);
  }

  // Tokens come and go.

  /** A step that changes tokens and demand counts of one client only. */
  lemma TokenStepKeeps(r: Registry, s: Registry, id: int, views: map<nat, View>, n: nat)
    requires Kept(r, views, n) && Exact(s) && id in r.entries && id in s.entries
    requires s == r.(life := s.life, driverTokens := s.driverTokens, watchTokens := s.watchTokens,
                     nextDriver := s.nextDriver, nextWatch := s.nextWatch, entries := r.entries[id := s.entries[id]])
    requires SameBox(r.entries[id], s.entries[id]) && (r.life.state == Failed ==> s.life.state == Failed)
    requires s.entries[id].subGeneric == r.entries[id].subGeneric && s.entries[id].subHandlers == r.entries[id].subHandlers
    ensures Kept(s, views, n)
  {
    hide Exact;
    BoxesKept(r, s, n);
    InterestKept(r, s, views);
  }

  lemma DriverKeeps(r: Registry, id: int, spawned: bool, views: map<nat, View>, n: nat)
    requires Kept(r, views, n)
    ensures Kept(AcquireDriver(r, id, spawned), views, n)
  {
    hide Exact, Housed, Conserved, Subscribed, Calm;
    var s := AcquireDriver(r, id, spawned);
    if id in r.entries && !r.entries[id].terminal {
      if Launch(r, spawned).threw {
        PutCalm(r, s.life, id, r.entries[id]);
        CalmKeeps(r, s, views, n);
      } else {
        DriverExact(r, id, spawned);
        TokenStepKeeps(r, s, id, views, n);
      }
    }
  }

  lemma DriverExact(r: Registry, id: int, spawned: bool)
    requires Exact(r) && id in r.entries && !r.entries[id].terminal && !Launch(r, spawned).threw
    ensures Exact(AcquireDriver(r, id, spawned))
  {
    var s := AcquireDriver(r, id, spawned);
    TokenAdded(r.driverTokens, r.nextDriver + 1, id);
    forall j | j in s.entries ensures Balanced(s, j) { assert Balanced(r, j); }
  }

  lemma WatchKeeps(r: Registry, id: int, spawned: bool, views: map<nat, View>, n: nat)
    requires Kept(r, views, n)
    ensures Kept(AcquireWatch(r, id, spawned), views, n)
  {
    hide Exact, Housed, Conserved, Subscribed, Calm;
    var s := AcquireWatch(r, id, spawned);
    if Watchable(r, id) {
      if Launch(r, spawned).threw {
        PutCalm(r, s.life, id, r.entries[id]);
        CalmKeeps(r, s, views, n);
      } else {
        WatchExact(r, id, spawned);
        TokenStepKeeps(r, s, id, views, n);
      }
    }
  }

  lemma WatchExact(r: Registry, id: int, spawned: bool)
    requires Exact(r) && Watchable(r, id) && !Launch(r, spawned).threw
    ensures Exact(AcquireWatch(r, id, spawned))
  {
    var s := AcquireWatch(r, id, spawned);
    TokenAdded(r.watchTokens, r.nextWatch + 1, id);
    forall j | j in s.entries ensures Balanced(s, j) { assert Balanced(r, j); }
  }

  lemma ReleaseDriverKeeps(r: Registry, t: nat, views: map<nat, View>, n: nat)
    requires Kept(r, views, n)
    ensures Kept(ReleaseDriver(r, t), views, n)
  {
    hide Housed, Conserved, Subscribed;
    if t in r.driverTokens {
      var s, id := ReleaseDriver(r, t), r.driverTokens[t];
      TokenDropped(r.driverTokens, t);
      forall j | j in s.entries ensures Balanced(s, j) { assert Balanced(r, j); }
      TokenStepKeeps(r, s, id, views, n);
    }
  }

  lemma ReleaseWatchKeeps(r: Registry, t: nat, views: map<nat, View>, n: nat)
    requires Kept(r, views, n)
    ensures Kept(ReleaseWatch(r, t), views, n)
  {
    hide Housed, Conserved, Subscribed;
    if t in r.watchTokens {
      var s, id := ReleaseWatch(r, t), r.watchTokens[t];
      TokenDropped(r.watchTokens, t);
      forall j | j in s.entries ensures Balanced(s, j) { assert Balanced(r, j); }
      TokenStepKeeps(r, s, id, views, n);
    }
  }

  lemma HaltKeeps(r: Registry, views: map<nat, View>, n: nat)
    requires Kept(r, views, n)
    ensures Kept(Halt(r), views, n)
  {
    var s := Halt(r);
    forall j | j in s.entries ensures Balanced(s, j) { assert Balanced(r, j); assert Naming(map[], j) == {}; }
    BoxesKept(r, s, n);
    InterestKept(r, s, views);
  }

  lemma BreakKeeps(r: Registry, views: map<nat, View>, n: nat)
    requires Kept(r, views, n)
    ensures Kept(Break(r), views, n)
  {
    var s := Break(r);
    forall j | j in s.entries ensures Balanced(s, j) { assert Balanced(r, j); assert Naming(map[], j) == {}; }
    BoxesKept(r, s, n);
  }

  lemma CreateExact(r: Registry, owner: nat, id: int)
    requires Exact(r) && Housed(r)
    ensures Exact(Create(r, owner, id))
  {
    var s := Create(r, owner, id);
    if s != r {
      assert Naming(r.driverTokens, id) == {} && Naming(r.watchTokens, id) == {};
      forall j | j in s.entries ensures Balanced(s, j) { if j != id { assert Balanced(r, j); } }
    }
  }

  lemma CreateHoused(r: Registry, owner: nat, id: int, n: nat)
    requires Housed(r) && Conserved(r, n)
    ensures Housed(Create(r, owner, id)) && Conserved(Create(r, owner, id), n)
  {
    if Create(r, owner, id) != r { SumInsert(r.entries, id, NewEntry(owner), BoxOf); }
  }

  lemma CreateKeeps(r: Registry, owner: nat, id: int, views: map<nat, View>, n: nat)
    requires Kept(r, views, n)
    ensures Kept(Create(r, owner, id), views, n)
  {
    CreateExact(r, owner, id);
    CreateHoused(r, owner, id, n);
    hide Exact, Housed, Conserved;
    var s := Create(r, owner, id);
    if s != r {
      assert Holding(views, id, true) == {} && Holding(views, id, false) == {};
      forall j | Subscribable(s, j) ensures Matched(s, views, j) { if j != id { assert Matched(r, views, j); } }
    }
  }

  // Clients lose their demand, their owner, and their entry.

  /** All demand of one client is cleared, and its entry may be erased. */
  ghost predicate Cleared(r: Registry, s: Registry, id: int) {
    && id in r.entries && s.life == r.life && s.nextDriver == r.nextDriver && s.nextWatch == r.nextWatch
    && s.driverTokens == Without(r.driverTokens, id) && s.watchTokens == Without(r.watchTokens, id)
    && s.known == r.known && s.owners == r.owners
    && if id in s.entries
       then s.entries == r.entries[id := s.entries[id]] && s.entries[id].drivers == 0 && s.entries[id].watches == 0
            && (s.entries[id].terminal || s.entries[id].orphan)
       else s.entries == r.entries - {id}
  }

  lemma ClearedExact(r: Registry, s: Registry, id: int)
    requires Exact(r) && Cleared(r, s, id)
    ensures Exact(s)
  {
    hide Balanced, Naming;
    forall j | j in s.entries ensures Balanced(s, j) { ClearedBalanced(r, s, id, j); }
  }

  lemma ClearedBalanced(r: Registry, s: Registry, id: int, j: int)
    requires Exact(r) && Cleared(r, s, id) && j in s.entries
    ensures Balanced(s, j)
  {
    TokensCleared(r.driverTokens, id);
    TokensCleared(r.watchTokens, id);
    if j != id { assert Balanced(r, j); }
  }

  lemma ClearedInterest(r: Registry, s: Registry, id: int, views: map<nat, View>)
    requires Subscribed(r, views) && Cleared(r, s, id)
    ensures Subscribed(s, views)
  {
    InterestKept(r, s, views);
  }

  /** The entry stays; the counts of its box may move between columns. */
  ghost predicate Stays(r: Registry, s: Registry, id: int) {
    && Cleared(r, s, id) && id in s.entries && SameTotals(r, s)
    && BoxOf(s.entries[id]) == BoxOf(r.entries[id]) && EntryHoused(s.entries[id], s.owners)
  }

  /** The entry is erased and its empty box folded into the totals. */
  ghost predicate Leaves(r: Registry, s: Registry, id: int) {
    && Cleared(r, s, id) && id !in s.entries && id in s.retired && s.retired == r.retired[id := s.retired[id]]
    && var b := s.retired[id];
       && b.orphan && b.depth == 0 && DoneOf(b) + b.abandoned == BoxOf(r.entries[id])
       && s.received == r.received && s.unsolicited == r.unsolicited && s.abandoned == r.abandoned + b.abandoned
       && s.enqueued == r.enqueued + b.enqueued && s.dequeued == r.dequeued + b.dequeued
  }

  lemma StaysConserved(r: Registry, s: Registry, id: int, n: nat)
    requires Housed(r) && Conserved(r, n) && Stays(r, s, id)
    ensures Housed(s) && Conserved(s, n)
  {
    SumReplace(r.entries, id, s.entries[id], BoxOf);
  }

  lemma LeavesConserved(r: Registry, s: Registry, id: int, n: nat)
    requires Housed(r) && Conserved(r, n) && Leaves(r, s, id)
    ensures Housed(s) && Conserved(s, n)
  {
    SumSplit(r.entries, id, BoxOf);
    SumInsert(r.retired, id, s.retired[id], DoneOf);
    SumInsert(r.retired, id, s.retired[id], DequeuedOf);
    SumInsert(r.retired, id, s.retired[id], EnqueuedOf);
  }

  lemma ClearedKeeps(r: Registry, s: Registry, id: int, views: map<nat, View>, n: nat)
    requires Kept(r, views, n) && (Stays(r, s, id) || Leaves(r, s, id))
    ensures Kept(s, views, n)
  {
    hide Exact, Housed, Conserved, Subscribed;
    assert Cleared(r, s, id);
    ClearedExact(r, s, id);
    ClearedInterest(r, s, id, views);
    if Stays(r, s, id) { StaysConserved(r, s, id, n); } else { LeavesConserved(r, s, id, n); }
  }

  lemma TerminateShape(r: Registry, id: int)
    requires id in r.entries && (r.entries[id].orphan ==> r.entries[id].box.orphan && r.entries[id].box.depth == 0)
    requires !r.entries[id].orphan ==> EntryHoused(r.entries[id], r.owners)
    ensures if r.entries[id].orphan then Leaves(r, Terminate(r, id), id) else Stays(r, Terminate(r, id), id)
  {
  }

  lemma TerminateKeeps(r: Registry, id: int, views: map<nat, View>, n: nat)
    requires Kept(r, views, n)
    ensures Kept(Terminate(r, id), views, n)
  {
    hide Exact, Conserved, Subscribed, Terminate, Leaves, Stays;
    if id in r.entries {
      assert EntryHoused(r.entries[id], r.owners);
      TerminateShape(r, id);
      ClearedKeeps(r, Terminate(r, id), id, views, n);
    } else {
      TerminateNothing(r, id);
    }
  }

  lemma TerminateNothing(r: Registry, id: int)
    ensures id !in r.entries ==> Terminate(r, id) == r
    ensures id !in r.entries || r.entries[id].orphan ==> Forget(r, id) == r
  {
  }

  lemma ForgetShape(r: Registry, id: int)
    requires id in r.entries && !r.entries[id].orphan
    ensures if r.entries[id].terminal then Leaves(r, Forget(r, id), id) else Stays(r, Forget(r, id), id)
  {
  }

  lemma ForgetKeeps(r: Registry, id: int, views: map<nat, View>, n: nat)
    requires Kept(r, views, n)
    ensures Kept(Forget(r, id), views, n)
  {
    hide Kept, Forget, Leaves, Stays;
    if id in r.entries && !r.entries[id].orphan {
      ForgetShape(r, id);
      ClearedKeeps(r, Forget(r, id), id, views, n);
    } else {
      TerminateNothing(r, id);
    }
  }

  lemma DetachShape(r: Registry, owner: nat, others: bool, id: int)
    requires id in r.entries && (r.entries[id].orphan ==> !r.entries[id].terminal)
    ensures var s := DetachOne(r, owner, others, id);
      if r.entries[id].owner != owner || r.entries[id].orphan then s == r
      else if r.entries[id].terminal then Leaves(r, s, id) else Stays(r, s, id) && s.entries[id].orphan
  {
  }

  lemma DetachOneKeeps(r: Registry, owner: nat, others: bool, id: int, views: map<nat, View>, n: nat)
    requires Kept(r, views, n) && id in r.entries
    ensures var s := DetachOne(r, owner, others, id);
      && Kept(s, views, n) && s.entries.Keys <= r.entries.Keys && s.owners == r.owners
      && (forall j :: j in s.entries && j != id ==> s.entries[j] == r.entries[j])
      && (id in s.entries ==> s.entries[id].owner != owner || s.entries[id].orphan)
  {
    hide Exact, Conserved, Subscribed, DetachOne;
    assert EntryHoused(r.entries[id], r.owners);
    DetachShape(r, owner, others, id);
    if r.entries[id].owner == owner && !r.entries[id].orphan {
      ClearedKeeps(r, DetachOne(r, owner, others, id), id, views, n);
    }
  }

  lemma {:induction false} DetachAllKeeps(r: Registry, owner: nat, others: bool, ids: seq<int>, views: map<nat, View>, n: nat)
    requires Kept(r, views, n)
    ensures var s := DetachAll(r, owner, others, ids);
      && Kept(s, views, n) && s.entries.Keys <= r.entries.Keys && s.owners == r.owners
      && (forall j :: j in s.entries && j in ids ==> s.entries[j].owner != owner || s.entries[j].orphan)
    decreases |ids|
  {
    hide Kept, DetachOne;
    if ids != [] {
      var k := |ids| - 1;
      DetachAllKeeps(r, owner, others, ids[..k], views, n);
      var s := DetachAll(r, owner, others, ids[..k]);
      if ids[k] in s.entries { DetachOneKeeps(s, owner, others, ids[k], views, n); }
    }
  }

  lemma ClearsOwners(r: Registry, owners: set<nat>, id: int)
    requires id in r.entries
    ensures var q := r.(owners := owners);
      && ClearDriver(q, id) == ClearDriver(r, id).(owners := owners) && ClearDemand(q, id) == ClearDemand(r, id).(owners := owners)
      && Orphaned(q, id) == Orphaned(r, id).(owners := owners) && Retire(q, id) == Retire(r, id).(owners := owners)
  {
  }

  lemma DetachOneOwners(r: Registry, owners: set<nat>, owner: nat, others: bool, id: int)
    requires id in r.entries
    ensures DetachOne(r.(owners := owners), owner, others, id) == DetachOne(r, owner, others, id).(owners := owners)
  {
    ClearsOwners(r, owners, id);
    ClearsOwners(Orphaned(r, id), owners, id);
    hide ClearDriver, Retire;
  }

  /** The loop over the entries does not look at the owners. */
  lemma {:induction false} DetachAllOwners(r: Registry, owners: set<nat>, owner: nat, others: bool, ids: seq<int>)
    ensures DetachAll(r.(owners := owners), owner, others, ids) == DetachAll(r, owner, others, ids).(owners := owners)
    decreases |ids|
  {
    hide DetachOne;
    if ids != [] {
      var k := |ids| - 1;
      DetachAllOwners(r, owners, owner, others, ids[..k]);
      var s := DetachAll(r, owner, others, ids[..k]);
      if ids[k] in s.entries { DetachOneOwners(s, owners, owner, others, ids[k]); }
    }
  }

  lemma OwnerGone(r: Registry, owner: nat, views: map<nat, View>, n: nat)
    requires Kept(r, views, n)
    requires forall j :: j in r.entries ==> r.entries[j].owner != owner || r.entries[j].orphan
    ensures Kept(r.(owners := r.owners - {owner}), views, n)
  {
    var s := r.(owners := r.owners - {owner});
    TokensKept(r, s);
    InterestKept(r, s, views);
  }

  lemma DetachKeeps(r: Registry, owner: nat, ids: seq<int>, views: map<nat, View>, n: nat)
    requires Kept(r, views, n) && forall id :: id in r.entries ==> id in ids
    ensures Kept(Detach(r, owner, ids), views, n)
    ensures forall j :: j in Detach(r, owner, ids).entries ==>
              Detach(r, owner, ids).entries[j].owner != owner || Detach(r, owner, ids).entries[j].orphan
  {
    hide Kept, DetachAll;
    var others := OthersFinish(r, owner);
    DetachAllKeeps(r, owner, others, ids, views, n);
    DetachAllOwners(r, r.owners - {owner}, owner, others, ids);
    var s := DetachAll(r, owner, others, ids);
    OwnerGone(s, owner, views, n);
    HaltKeeps(s.(owners := s.owners - {owner}), views, n);
  }

  // Envelopes.

  /** One client's box and request tables change, nothing else about it. */
  ghost predicate SameDemand(e: Entry, f: Entry) {
    && f.owner == e.owner && f.orphan == e.orphan && f.terminal == e.terminal && f.drivers == e.drivers
    && f.watches == e.watches && f.subGeneric == e.subGeneric && f.subHandlers == e.subHandlers
  }

  lemma DemandUntouched(r: Registry, s: Registry, id: int, views: map<nat, View>)
    requires Exact(r) && Subscribed(r, views) && id in r.entries && id in s.entries
    requires s.entries == r.entries[id := s.entries[id]] && SameDemand(r.entries[id], s.entries[id])
    requires s.driverTokens == r.driverTokens && s.watchTokens == r.watchTokens && s.nextDriver == r.nextDriver
    requires s.nextWatch == r.nextWatch && s.life == r.life && s.known == r.known
    ensures Exact(s) && Subscribed(s, views)
  {
    TokensKept(r, s);
    InterestKept(r, s, views);
  }

  lemma PopKeeps(r: Registry, id: int, deliver: bool, views: map<nat, View>, n: nat)
    requires Kept(r, views, n)
    ensures Kept(Pop(r, id, deliver), views, n)
    ensures Pop(r, id, deliver).retired == r.retired
  {
    var s := Pop(r, id, deliver);
    if id in r.entries {
      assert EntryHoused(r.entries[id], r.owners);
      DemandUntouched(r, s, id, views);
      SumReplace(r.entries, id, s.entries[id], BoxOf);
    } else if id in r.retired {
      assert s.retired == r.retired;
    }
  }

  lemma RouteFirstKeeps(r: Registry, i: Item, views: map<nat, View>, n: nat)
    requires Kept(r, views, n)
    ensures Kept(RouteFirst(r, i), views, if Gone(r, i.client) then n else n + 1)
  {
    var s := RouteFirst(r, i);
    TokensKept(r, s);
    InterestKept(r, s, views);
  }

  /** The commit of a preserved envelope, before a terminal is handled. */
  function Committed(r: Registry, i: Item, wanted: bool, evicted: nat): Registry
    requires i.client in r.entries
  {
    var e := r.entries[i.client];
    var k := if Retention(e, i, wanted).ticketed && evicted <= e.box.depth then evicted else 0;
    var f := e.(box := Arrive(e.box, k));
    var g := if i.request == 0 then f else var h := ErasePending(f, i.request); h.(guarded := h.guarded - {i.request});
    Put(r.(published := r.published + 1), i.client, g)
  }

  lemma ArriveCounts(b: Box, evicted: nat)
    requires evicted <= b.depth
    ensures var c := Arrive(b, evicted);
      && c.dequeued + c.dropped + c.depth + c.abandoned == b.dequeued + b.dropped + b.depth + b.abandoned + 1
      && c.orphan == b.orphan && (b.orphan && b.depth == 0 ==> c.depth == 0)
  {
  }

  lemma CommitShape(r: Registry, i: Item, wanted: bool, evicted: nat)
    requires i.client in r.entries
    ensures var e, f := r.entries[i.client], Committed(r, i, wanted, evicted).entries[i.client];
      && SameDemand(e, f) && BoxOf(f) == BoxOf(e) + 1 && f.box.orphan == e.box.orphan
      && (e.box.orphan && e.box.depth == 0 ==> f.box.depth == 0)
  {
    hide Arrive, Retention, ErasePending;
    var e := r.entries[i.client];
    var k := if Retention(e, i, wanted).ticketed && evicted <= e.box.depth then evicted else 0;
    ArriveCounts(e.box, k);
    PendingLike(e.(box := Arrive(e.box, k)), i.request);
  }

  lemma CommitKeeps(r: Registry, i: Item, wanted: bool, evicted: nat, views: map<nat, View>, n: nat)
    requires Kept(r, views, n + 1) && i.client in r.entries
    ensures Kept(Committed(r, i, wanted, evicted), views, n)
  {
    hide Arrive, Retention, ErasePending;
    var s := Committed(r, i, wanted, evicted);
    CommitShape(r, i, wanted, evicted);
    DemandUntouched(r, s, i.client, views);
    assert EntryHoused(r.entries[i.client], r.owners);
    SumReplace(r.entries, i.client, s.entries[i.client], BoxOf);
  }

  lemma RouteSecondKeeps(r: Registry, i: Item, wanted: bool, evicted: nat, views: map<nat, View>, n: nat)
    requires Kept(r, views, n + 1) && !Unknown(r, i.client)
    ensures Kept(RouteSecond(r, i, wanted, evicted), views, n)
  {
    hide Kept, Terminate, Arrive, Retention, ErasePending;
    var s := RouteSecond(r, i, wanted, evicted);
    if Gone(r, i.client) || !Retention(r.entries[i.client], i, wanted).preserved {
      SettledKeeps(r, s, views, n);
    } else {
      CommitKeeps(r, i, wanted, evicted, views, n);
      TerminateKeeps(Committed(r, i, wanted, evicted), i.client, views, n);
    }
  }

  /** An envelope in flight is counted as abandoned or dropped. */
  lemma SettledKeeps(r: Registry, s: Registry, views: map<nat, View>, n: nat)
    requires Kept(r, views, n + 1)
    requires s == r.(abandoned := r.abandoned + 1) || s == r.(unsolicited := r.unsolicited + 1)
    ensures Kept(s, views, n)
  {
    TokensKept(r, s);
    InterestKept(r, s, views);
  }

  // Subscription views.

  /** A view that takes up interest enters one count, for its client and mode. */
  lemma ViewJoins(views: map<nat, View>, v: nat, w: View, id: int, generic: bool)
    requires (v in views ==> views[v].phase == Idle) && w.phase != Idle
    ensures |Holding(views[v := w], id, generic)|
         == |Holding(views, id, generic)| + (if w.client == id && w.generic == generic then 1 else 0)
  {
    if w.client == id && w.generic == generic {
      assert Holding(views[v := w], id, generic) == Holding(views, id, generic) + {v};
    } else {
      assert Holding(views[v := w], id, generic) == Holding(views, id, generic);
    }
  }

  lemma ViewStays(views: map<nat, View>, v: nat, phase: Phase, id: int, generic: bool)
    requires v in views && views[v].phase != Idle && phase != Idle
    ensures Holding(views[v := views[v].(phase := phase)], id, generic) == Holding(views, id, generic)
  {
  }

  lemma SubscribeOne(r: Registry, id: int, active: bool, generic: bool, n: nat)
    requires Exact(r) && Housed(r) && Conserved(r, n) && Subscribable(r, id)
    ensures var s := SetSubscription(r, id, active, generic); Exact(s) && Housed(s) && Conserved(s, n)
  {
    var s := SetSubscription(r, id, active, generic);
    TokensKept(r, s);
    BoxesKept(r, s, n);
  }

  lemma InterestMatched(r: Registry, v: nat, id: int, generic: bool, views: map<nat, View>, j: int)
    requires Subscribable(r, id) && (v in views ==> views[v].phase == Idle) && j in r.entries && Matched(r, views, j)
    ensures Matched(SetSubscription(r, id, true, generic), views[v := View(id, generic, Interested)], j)
  {
    hide Holding;
    ViewJoins(views, v, View(id, generic, Interested), j, true);
    ViewJoins(views, v, View(id, generic, Interested), j, false);
  }

  lemma InterestKeeps(r: Registry, v: nat, id: int, generic: bool, views: map<nat, View>, n: nat)
    requires Kept(r, views, n) && Subscribable(r, id) && (v in views ==> views[v].phase == Idle)
    ensures Kept(SetSubscription(r, id, true, generic), views[v := View(id, generic, Interested)], n)
  {
    SubscribeOne(r, id, true, generic, n);
    assert id in r.known;
    hide Exact, Conserved, Housed, Matched;
    var s, after := SetSubscription(r, id, true, generic), views[v := View(id, generic, Interested)];
    if s.life.state != Failed {
      forall j | Subscribable(s, j) ensures Matched(s, after, j) { InterestMatched(r, v, id, generic, views, j); }
    }
  }

  lemma PhaseKeeps(r: Registry, v: nat, phase: Phase, views: map<nat, View>, n: nat)
    requires Kept(r, views, n) && v in views && views[v].phase != Idle && phase != Idle
    ensures Kept(r, views[v := views[v].(phase := phase)], n)
  {
    hide Exact, Housed, Conserved, Holding;
    if r.life.state != Failed {
      forall j | Subscribable(r, j) ensures Matched(r, views[v := views[v].(phase := phase)], j) {
        assert Matched(r, views, j);
        ViewStays(views, v, phase, j, true);
        ViewStays(views, v, phase, j, false);
      }
    }
  }

  lemma ClearViewKeeps(r: Registry, v: nat, views: map<nat, View>, n: nat)
    requires Kept(r, views, n) && v in views && views[v].phase != Idle
    ensures Kept(SetSubscription(r, views[v].client, false, views[v].generic), views[v := views[v].(phase := Idle)], n)
  {
    var id, generic, w := views[v].client, views[v].generic, views[v].(phase := Idle);
    if Subscribable(r, id) { SubscribeOne(r, id, false, generic, n); }
    hide Exact, Conserved, Housed, Holding;
    var s := SetSubscription(r, id, false, generic);
    if s.life.state != Failed {
      forall j | Subscribable(s, j) ensures Matched(s, views[v := w], j) {
        assert Matched(r, views, j);
        ViewLeaves(views, v, j, true);
        ViewLeaves(views, v, j, false);
      }
    }
  }

  lemma ViewLeaves(views: map<nat, View>, v: nat, id: int, generic: bool)
    requires v in views && views[v].phase != Idle
    ensures var after := views[v := views[v].(phase := Idle)];
      |Holding(views, id, generic)| == |Holding(after, id, generic)|
                                       + (if views[v].client == id && views[v].generic == generic then 1 else 0)
  {
    var after := views[v := views[v].(phase := Idle)];
    if views[v].client == id && views[v].generic == generic {
      assert Holding(views, id, generic) == Holding(after, id, generic) + {v};
    } else {
      assert Holding(views, id, generic) == Holding(after, id, generic);
    }
  }

  // Every step keeps the invariant.

  ghost predicate Inv(w: World) {
    Sound(w.r.life, w.threads) && Kept(w.r, w.views, InFlight(w)) && Working(w)
  }

  lemma WithKeeps(w: World, r: Registry, idle: bool, spawned: bool)
    requires Inv(w) && Kept(r, w.views, InFlight(w))
    requires r.life == w.r.life || r.life == LifeAfter(w.r.life, StartStep(idle, spawned))
    ensures Inv(With(w, r))
  {
    hide Kept;
    LifeStepSound(w.r.life, w.threads, StartStep(idle, spawned));
  }

  lemma StopKeeps(w: World, r: Registry)
    requires Inv(w) && Kept(r, w.views, InFlight(w))
    requires r.life == w.r.life || r.life == RequestStop(w.r.life)
    ensures Inv(w.(r := r))
  {
    hide Kept;
    LifeStepSound(w.r.life, w.threads, StopStep);
  }

  lemma OwnerStepKeeps(w: World, s: Step)
    requires Inv(w) && CanStep(w, s)
    requires s.Attaching? || s.Creating? || s.Detaching? || s.Halting? || s.Terminating? || s.Forgetting?
    ensures Inv(After(w, s))
  {
    hide Kept, Working, Sound, Terminate, Forget, DetachAll;
    var r, n := w.r, InFlight(w);
    match s {
      case Attaching => AttachKeeps(r, w.views, n);
      case Creating(owner, id) => CreateKeeps(r, owner, id, w.views, n);
      case Detaching(owner, ids) => DetachKeeps(r, owner, ids, w.views, n); DetachLife(r, owner, ids);
      case Halting => HaltKeeps(r, w.views, n);
      case Terminating(id) => TerminateKeeps(r, id, w.views, n); ClearsLife(r, id);
      case Forgetting(id) => ForgetKeeps(r, id, w.views, n); ClearsLife(r, id);
    }
    StopKeeps(w, After(w, s).r);
  }

  lemma ClearsLife(r: Registry, id: int)
    ensures Terminate(r, id).life == r.life && Forget(r, id).life == r.life
  {
  }

  lemma {:induction false} DetachAllLife(r: Registry, owner: nat, others: bool, ids: seq<int>)
    ensures DetachAll(r, owner, others, ids).life == r.life
    decreases |ids|
  {
    if ids != [] { DetachAllLife(r, owner, others, ids[..|ids| - 1]); }
  }

  lemma DetachLife(r: Registry, owner: nat, ids: seq<int>)
    ensures Detach(r, owner, ids).life == r.life || Detach(r, owner, ids).life == RequestStop(r.life)
  {
    DetachAllLife(r.(owners := r.owners - {owner}), owner, OthersFinish(r, owner), ids);
  }

  lemma DemandStepKeeps(w: World, s: Step)
    requires Inv(w) && CanStep(w, s)
    requires s.DropDriver? || s.DropWatch? || s.Consuming? || s.Handling? || s.Ending? || s.Popping?
    ensures Inv(After(w, s))
  {
    hide Kept, Working, Sound, ErasePending;
    var r, n := w.r, InFlight(w);
    match s {
      case DropDriver(t) => ReleaseDriverKeeps(r, t, w.views, n);
      case DropWatch(t) => ReleaseWatchKeeps(r, t, w.views, n);
      case Consuming(id, active, generic) => ConsumerKeeps(r, id, active, generic, w.views, n);
      case Handling(id, name, active) => HandlerKeeps(r, id, name, active, w.views, n);
      case Ending(id, close, q, sent) => EndSendKeeps(r, id, close, q, sent, w.views, n);
      case Popping(id, deliver) => PopKeeps(r, id, deliver, w.views, n);
    }
    StopKeeps(w, After(w, s).r);
  }

  lemma StartStepKeeps(w: World, s: Step)
    requires Inv(w) && CanStep(w, s) && (s.Driving? || s.OneShot? || s.Admitting?)
    ensures Inv(After(w, s))
  {
    hide Kept, Working, Sound, ErasePending;
    var r, n := w.r, InFlight(w);
    match s {
      case Driving(id, spawned) => DriverKeeps(r, id, spawned, w.views, n); WithKeeps(w, AcquireDriver(r, id, spawned), false, spawned);
      case OneShot(id, spawned) => OneShotKeeps(r, id, spawned, w.views, n); WithKeeps(w, RequestOneShot(r, id, spawned), false, spawned);
      case Admitting(id, close, q, c, spawned) =>
        AdmitKeeps(r, id, close, q, c, spawned, w.views, n);
        WithKeeps(w, Admit(r, id, close, q, c, spawned), false, spawned);
    }
  }

  lemma WatchStepKeeps(w: World, v: nat, spawned: bool)
    requires Inv(w) && CanStep(w, ViewWatch(v, spawned))
    ensures Inv(After(w, ViewWatch(v, spawned)))
  {
    hide Kept, Sound;
    var id, n := w.views[v].client, InFlight(w);
    var r := AcquireWatch(w.r, id, spawned);
    WatchKeeps(w.r, id, spawned, w.views, n);
    WithKeeps(w, r, false, spawned);
    WatchLife(w.r, id, spawned);
    if r.nextWatch != w.r.nextWatch { PhaseKeeps(r, v, Watching(r.nextWatch), w.views, InFlight(With(w, r))); }
  }

  lemma WatchLife(r: Registry, id: int, spawned: bool)
    ensures var s := AcquireWatch(r, id, spawned);
      && (s.life == r.life || s.life == LifeAfter(r.life, StartStep(false, spawned)))
      && (s.nextWatch == r.nextWatch ==> s.life.generation == r.life.generation)
  {
  }

  lemma ViewStepKeeps(w: World, s: Step)
    requires Inv(w) && CanStep(w, s) && (s.ViewInterest? || s.ViewRelease? || s.ViewClear?)
    ensures Inv(After(w, s))
  {
    hide Kept, Working, Sound;
    var r, n := w.r, InFlight(w);
    match s {
      case ViewInterest(v, id, generic) => if Subscribable(r, id) { InterestKeeps(r, v, id, generic, w.views, n); }
      case ViewRelease(v) =>
        ReleaseWatchKeeps(r, w.views[v].phase.token, w.views, n);
        PhaseKeeps(ReleaseWatch(r, w.views[v].phase.token), v, Leaving, w.views, n);
      case ViewClear(v) => ClearViewKeeps(r, v, w.views, n);
    }
    assert After(w, s).r.life == r.life;
    assert InFlight(After(w, s)) == n;
    SameWorker(w, After(w, s));
  }

  lemma SameWorker(w: World, x: World)
    requires Working(w) && x.threads == w.threads && x.pc == w.pc && x.lost == w.lost && x.r.life == w.r.life
    ensures Working(x)
  {
  }

  lemma WorkerStepKeeps(w: World, s: Step)
    requires Inv(w) && CanStep(w, s)
    requires s.Receive? || s.Source? || s.RouteOne? || s.RouteTwo? || s.Finish? || s.Raise?
    ensures Inv(After(w, s))
  {
    hide Kept, Sound, RouteSecond;
    var r, n := w.r, InFlight(w);
    match s {
      case Receive(c) => if c.Some? { ClaimKeeps(r, c.value, w.views, n); }
      case Source(_) =>
      case RouteOne => RouteFirstKeeps(r, w.pc.item, w.views, n);
      case RouteTwo(k) =>
        if !Unknown(r, w.pc.item.client) {
          RouteSecondKeeps(r, w.pc.item, w.pc.item.client in w.pc.wanted, k, w.views, w.lost);
          RouteLife(r, w.pc.item, w.pc.item.client in w.pc.wanted, k);
        }
      case Finish => if w.pc.claim.Some? { ClaimKeeps(r, w.pc.claim.value, w.views, n); }
      case Raise =>
    }
  }

  lemma RouteLife(r: Registry, i: Item, wanted: bool, evicted: nat)
    ensures RouteSecond(r, i, wanted, evicted).life == r.life
  {
    hide Retention, Arrive, ErasePending;
  }

  lemma EndStepKeeps(w: World, s: Step)
    requires Inv(w) && CanStep(w, s) && (s.Reap? || s.Failing? || s.Exit?)
    ensures Inv(After(w, s))
  {
    hide Kept;
    match s {
      case Reap(l) => LifeStepSound(w.r.life, w.threads, l); LifeCalm(w.r, LifeAfter(w.r.life, l), w.views, InFlight(w));
      case Failing => LifeStepSound(w.r.life, w.threads, FailStep); BreakKeeps(w.r, w.views, InFlight(w));
      case Exit => LifeStepSound(w.r.life, w.threads, ExitStep);
    }
  }

  lemma LifeCalm(r: Registry, l: Life, views: map<nat, View>, n: nat)
    requires Kept(r, views, n) && (r.life.state == Running ==> l.state == Running) && (r.life.state == Failed ==> l.state == Failed)
    ensures Kept(r.(life := l), views, n)
  {
    var s := r.(life := l);
    hide Kept;
    assert Calm(r, s);
    CalmKeeps(r, s, views, n);
  }

  lemma StepKeeps(w: World, s: Step)
    requires Inv(w) && CanStep(w, s)
    ensures Inv(After(w, s))
  {
    hide Inv, CanStep, After;
    match s {
      case Attaching => OwnerStepKeeps(w, s);
      case Creating(_, _) => OwnerStepKeeps(w, s);
      case Detaching(_, _) => OwnerStepKeeps(w, s);
      case Halting => OwnerStepKeeps(w, s);
      case Terminating(_) => OwnerStepKeeps(w, s);
      case Forgetting(_) => OwnerStepKeeps(w, s);
      case Driving(_, _) => StartStepKeeps(w, s);
      case OneShot(_, _) => StartStepKeeps(w, s);
      case Admitting(_, _, _, _, _) => StartStepKeeps(w, s);
      case ViewWatch(v, spawned) => WatchStepKeeps(w, v, spawned);
      case ViewInterest(_, _, _) => ViewStepKeeps(w, s);
      case ViewRelease(_) => ViewStepKeeps(w, s);
      case ViewClear(_) => ViewStepKeeps(w, s);
      case Receive(_) => WorkerStepKeeps(w, s);
      case Source(_) => WorkerStepKeeps(w, s);
      case RouteOne => WorkerStepKeeps(w, s);
      case RouteTwo(_) => WorkerStepKeeps(w, s);
      case Finish => WorkerStepKeeps(w, s);
      case Raise => WorkerStepKeeps(w, s);
      case Reap(_) => EndStepKeeps(w, s);
      case Failing => EndStepKeeps(w, s);
      case Exit => EndStepKeeps(w, s);
      case _ => DemandStepKeeps(w, s);
    }
  }

  ghost predicate Run(w: World, steps: seq<Step>, x: World)
    decreases |steps|
  {
    if steps == [] then x == w else CanStep(w, steps[0]) && Run(After(w, steps[0]), steps[1..], x)
  }

  lemma {:induction false} RunKeeps(w: World, steps: seq<Step>, x: World)
    requires Inv(w) && Run(w, steps, x)
    ensures Inv(x)
    decreases |steps|
  {
    hide Inv, CanStep, After;
    if steps != [] {
      StepKeeps(w, steps[0]);
      RunKeeps(After(w, steps[0]), steps[1..], x);
    }
  }

  lemma NewKeeps()
    ensures Inv(NEW)
  {
    SumZero(NEW.r.entries, BoxOf);
    SumZero(NEW.r.retired, DoneOf);
    SumZero(NEW.r.retired, DequeuedOf);
    SumZero(NEW.r.retired, EnqueuedOf);
  }

  // What the runs of a new runtime promise.

  /** Demand tokens are exact in every reachable state. */
  lemma TokensExact(steps: seq<Step>, w: World)
    requires Run(NEW, steps, w)
    ensures forall id :: id in w.r.entries ==>
              && w.r.entries[id].drivers == |Naming(w.r.driverTokens, id)|
              && w.r.entries[id].watches == |Naming(w.r.watchTokens, id)|
    ensures forall t :: t in w.r.driverTokens ==> Driveable(w.r, w.r.driverTokens[t])
    ensures forall t :: t in w.r.watchTokens ==> Subscribable(w.r, w.r.watchTokens[t]) && w.r.life.state == Running
  {
    NewKeeps();
    RunKeeps(NEW, steps, w);
    assert forall id :: id in w.r.entries ==> Balanced(w.r, id);
  }

  /** The interests of a client that is neither terminal nor forgotten are its
      active views, until the runtime fails. Stopping does not touch them. */
  lemma InterestsAreViews(steps: seq<Step>, w: World, id: int)
    requires Run(NEW, steps, w) && w.r.life.state != Failed && Subscribable(w.r, id)
    ensures w.r.entries[id].subGeneric == |Holding(w.views, id, true)|
    ensures w.r.entries[id].subHandlers == |Holding(w.views, id, false)|
  {
    NewKeeps();
    RunKeeps(NEW, steps, w);
    assert Matched(w.r, w.views, id);
  }

  /** Every envelope received is counted once: routed away, abandoned, or taken
      by one box, live or retired; at most one is in flight or lost, and one is
      lost only to a failure. */
  lemma EnvelopesConserved(steps: seq<Step>, w: World)
    requires Run(NEW, steps, w)
    ensures w.r.received == w.r.unsolicited + w.r.abandoned + Sum(w.r.entries, BoxOf) + Sum(w.r.retired, DoneOf) + InFlight(w)
    ensures InFlight(w) <= 1
    ensures w.lost > 0 ==> w.pc == Broken || w.r.life.state == Failed
    ensures w.pc == Loop || w.pc == Off ==> InFlight(w) == 0 || w.r.life.state == Failed
  {
    NewKeeps();
    RunKeeps(NEW, steps, w);
  }

  /** One worker reads the source: the thread at work is the only live one. */
  lemma SingleConsumer(steps: seq<Step>, w: World)
    requires Run(NEW, steps, w)
    ensures forall g, h :: g in w.threads.alive && h in w.threads.alive ==> g == h == w.r.life.generation
    ensures w.pc != Off ==> w.threads.alive == {w.r.life.generation} && w.r.life.generation !in w.threads.joined
  {
    NewKeeps();
    RunKeeps(NEW, steps, w);
  }

  /** The folded totals and the counts of a retired box never change again. */
  lemma {:induction false} RetiredFrozen(w: World, steps: seq<Step>, x: World, id: int)
    requires Inv(w) && Run(w, steps, x) && id in w.r.retired
    ensures id in x.r.retired && x.r.retired[id] == w.r.retired[id]
    ensures x.r.dequeued == Sum(x.r.retired, DequeuedOf) && x.r.enqueued == Sum(x.r.retired, EnqueuedOf)
    decreases |steps|
  {
    hide CanStep, After, Exact, Housed, Subscribed, Working, Sound;
    if steps != [] {
      StepKeeps(w, steps[0]);
      StepFrozen(w, steps[0], id);
      RetiredFrozen(After(w, steps[0]), steps[1..], x, id);
    }
  }

  ghost predicate Grows(r: Registry, s: Registry) {
    forall id :: id in r.retired ==> id in s.retired && s.retired[id] == r.retired[id]
  }

  lemma ClearedGrows(r: Registry, id: int)
    requires Housed(r)
    ensures Grows(r, Terminate(r, id)) && Grows(r, Forget(r, id))
  {
    hide Terminate, Forget;
    TerminateNothing(r, id);
    if id in r.entries {
      assert EntryHoused(r.entries[id], r.owners);
      TerminateShape(r, id);
      if !r.entries[id].orphan { ForgetShape(r, id); }
    }
  }

  lemma {:induction false} DetachGrows(r: Registry, owner: nat, others: bool, ids: seq<int>, views: map<nat, View>, n: nat)
    requires Kept(r, views, n)
    ensures Grows(r, DetachAll(r, owner, others, ids))
    decreases |ids|
  {
    hide DetachOne, Kept;
    if ids != [] {
      var k := |ids| - 1;
      DetachGrows(r, owner, others, ids[..k], views, n);
      DetachAllKeeps(r, owner, others, ids[..k], views, n);
      var s := DetachAll(r, owner, others, ids[..k]);
      if ids[k] in s.entries {
        HousedAt(s, views, n, ids[k]);
        DetachShape(s, owner, others, ids[k]);
      }
    }
  }

  lemma HousedAt(r: Registry, views: map<nat, View>, n: nat, id: int)
    requires Kept(r, views, n) && id in r.entries
    ensures Housed(r) && EntryHoused(r.entries[id], r.owners)
  {
    hide Exact, Conserved, Subscribed;
  }

  lemma RouteGrows(r: Registry, i: Item, wanted: bool, evicted: nat)
    requires Housed(r)
    ensures Grows(r, RouteSecond(r, i, wanted, evicted))
  {
    hide Retention, Terminate, Arrive, ErasePending;
    if i.client in r.entries {
      CommitShape(r, i, wanted, evicted);
      assert EntryHoused(r.entries[i.client], r.owners);
      ClearedGrows(Committed(r, i, wanted, evicted), i.client);
    }
  }

  lemma StepFrozen(w: World, s: Step, id: int)
    requires Inv(w) && CanStep(w, s) && id in w.r.retired
    ensures id in After(w, s).r.retired && After(w, s).r.retired[id] == w.r.retired[id]
  {
    hide RouteSecond, Terminate, Forget, DetachAll, Working, Sound, Pop, Exact, Housed, Conserved, Subscribed, Start;
    var r := w.r;
    match s {
      case Terminating(j) => ClearedGrows(r, j);
      case Forgetting(j) => ClearedGrows(r, j);
      case Detaching(owner, ids) =>
        DetachAllOwners(r, r.owners - {owner}, owner, OthersFinish(r, owner), ids);
        DetachGrows(r, owner, OthersFinish(r, owner), ids, w.views, InFlight(w));
      case RouteTwo(k) => RouteGrows(r, w.pc.item, w.pc.item.client in w.pc.wanted, k);
      case Popping(j, deliver) => PopKeeps(r, j, deliver, w.views, InFlight(w));
      case _ => OtherFrozen(w, s);
    }
  }

  lemma OtherFrozen(w: World, s: Step)
    requires CanStep(w, s) && !s.Terminating? && !s.Forgetting? && !s.Detaching? && !s.RouteTwo? && !s.Popping?
    ensures After(w, s).r.retired == w.r.retired
  {
    hide ErasePending, Start, Gone;
    if s.Consuming? || s.Handling? || s.OneShot? || s.Admitting? || s.Ending? { EntryOnly(w, s); }
  }

  // Leases.

  /** Tokens are only ever added past the last number given out. */
  ghost predicate Onward(r: Registry, s: Registry) {
    && r.nextDriver <= s.nextDriver && r.nextWatch <= s.nextWatch
    && (forall t :: t in s.driverTokens ==> t in r.driverTokens || t > r.nextDriver)
    && (forall t :: t in s.watchTokens ==> t in r.watchTokens || t > r.nextWatch)
  }

  lemma ClearsOnward(r: Registry, id: int)
    ensures Onward(r, Terminate(r, id)) && Onward(r, Forget(r, id))
  {
  }

  lemma {:induction false} DetachOnward(r: Registry, owner: nat, others: bool, ids: seq<int>)
    ensures Onward(r, DetachAll(r, owner, others, ids))
    decreases |ids|
  {
    if ids != [] {
      var k := |ids| - 1;
      DetachOnward(r, owner, others, ids[..k]);
      var s := DetachAll(r, owner, others, ids[..k]);
      if ids[k] in s.entries { DetachOneOnward(s, owner, others, ids[k]); }
    }
  }

  lemma DetachOneOnward(r: Registry, owner: nat, others: bool, id: int)
    requires id in r.entries
    ensures Onward(r, DetachOne(r, owner, others, id))
  {
  }

  lemma RouteOnward(r: Registry, i: Item, wanted: bool, evicted: nat)
    ensures Onward(r, RouteSecond(r, i, wanted, evicted))
  {
    hide Terminate, Retention, ErasePending, Arrive;
    if i.client in r.entries { ClearsOnward(Committed(r, i, wanted, evicted), i.client); }
  }

  lemma AcquireOnward(r: Registry, id: int, spawned: bool)
    ensures Onward(r, AcquireDriver(r, id, spawned)) && Onward(r, AcquireWatch(r, id, spawned))
  {
    hide Start;
  }

  lemma ReleaseOnward(r: Registry, t: nat)
    ensures Onward(r, ReleaseDriver(r, t)) && Onward(r, ReleaseWatch(r, t))
  {
  }

  lemma StepOnward(w: World, s: Step)
    requires CanStep(w, s)
    ensures Onward(w.r, After(w, s).r)
  {
    hide Terminate, Forget, DetachAll, RouteSecond, AcquireDriver, AcquireWatch, ReleaseDriver, ReleaseWatch, Start, Gone;
    var r := w.r;
    match s {
      case Terminating(j) => ClearsOnward(r, j);
      case Forgetting(j) => ClearsOnward(r, j);
      case Detaching(owner, ids) => DetachOnward(r.(owners := r.owners - {owner}), owner, OthersFinish(r, owner), ids);
      case RouteTwo(k) => RouteOnward(r, w.pc.item, w.pc.item.client in w.pc.wanted, k);
      case Driving(id, spawned) => AcquireOnward(r, id, spawned);
      case DropDriver(t) => ReleaseOnward(r, t);
      case DropWatch(t) => ReleaseOnward(r, t);
      case ViewWatch(v, spawned) => AcquireOnward(r, w.views[v].client, spawned);
      case ViewRelease(v) => ReleaseOnward(r, w.views[v].phase.token);
      case _ => OtherOnward(w, s);
    }
  }

  lemma OtherOnward(w: World, s: Step)
    requires CanStep(w, s) && !s.Terminating? && !s.Forgetting? && !s.Detaching? && !s.RouteTwo? && !s.Driving?
    requires !s.DropDriver? && !s.DropWatch? && !s.ViewWatch? && !s.ViewRelease?
    ensures Onward(w.r, After(w, s).r)
  {
    hide ErasePending, Start, Gone;
    if s.Consuming? || s.Handling? || s.OneShot? || s.Admitting? || s.Ending? { EntryOnly(w, s); }
  }

  /** These steps replace one entry, and the life when they start a worker. */
  lemma EntryOnly(w: World, s: Step)
    requires CanStep(w, s) && (s.Consuming? || s.Handling? || s.OneShot? || s.Admitting? || s.Ending?)
    ensures After(w, s).r == w.r.(life := After(w, s).r.life, entries := After(w, s).r.entries)
  {
    hide Admit, EndSend, SetConsumer, SetHandler, RequestOneShot;
    match s {
      case Consuming(id, active, generic) => SetOnly(w.r, id, active, generic, "", false);
      case Handling(id, name, active) => SetOnly(w.r, id, active, false, name, false);
      case OneShot(id, spawned) => SetOnly(w.r, id, false, false, "", spawned);
      case Admitting(id, close, q, c, spawned) => AdmitOnly(w.r, id, close, q, c, spawned);
      case Ending(id, close, q, sent) => EndOnly(w.r, id, close, q, sent);
    }
  }

  lemma SetOnly(r: Registry, id: int, active: bool, generic: bool, name: string, spawned: bool)
    ensures var s := SetConsumer(r, id, active, generic); s == r.(entries := s.entries)
    ensures var s := SetHandler(r, id, name, active); s == r.(entries := s.entries)
    ensures var s := RequestOneShot(r, id, spawned); s == r.(life := s.life, entries := s.entries)
  {
    hide Start;
  }

  lemma AdmitOnly(r: Registry, id: int, close: bool, request: nat, c: Class, spawned: bool)
    ensures var s := Admit(r, id, close, request, c, spawned); s == r.(life := s.life, entries := s.entries)
  {
    hide Start;
  }

  lemma EndOnly(r: Registry, id: int, close: bool, request: nat, sent: bool)
    ensures var s := EndSend(r, id, close, request, sent); s == r.(entries := s.entries)
  {
    hide ErasePending;
  }

  /** A lease that was released or invalidated stays so: releasing it late or
      twice changes nothing, in every later state. */
  lemma {:induction false} LateReleaseIsNothing(w: World, steps: seq<Step>, x: World, t: nat)
    requires Run(w, steps, x)
    ensures t <= w.r.nextDriver && t !in w.r.driverTokens ==> ReleaseDriver(x.r, t) == x.r
    ensures t <= w.r.nextWatch && t !in w.r.watchTokens ==> ReleaseWatch(x.r, t) == x.r
    decreases |steps|
  {
    hide CanStep, After;
    if steps != [] {
      StepOnward(w, steps[0]);
      LateReleaseIsNothing(After(w, steps[0]), steps[1..], x, t);
    }
  }

  /** Steps that end the driver leases of a client, and those that end its watch
      leases too. */
  predicate EndsDrivers(r: Registry, s: Step, id: int) {
    id in r.entries && ((s.Terminating? && s.id == id) || (s.Forgetting? && s.id == id && !r.entries[id].orphan))
  }

  predicate EndsWatches(r: Registry, s: Step, id: int) {
    EndsDrivers(r, s, id) || s.Halting? || s.Failing?
  }

  /** A lease of a client that is terminated or forgotten, and a watch lease when
      the runtime stops or fails, is over for good: its token is gone in every
      later state of every run, and releasing it then changes nothing. */
  lemma LeasesEnd(before: seq<Step>, w: World, s: Step, steps: seq<Step>, x: World, t: nat)
    requires Run(NEW, before, w) && CanStep(w, s) && Run(After(w, s), steps, x)
    ensures t in w.r.driverTokens && EndsDrivers(w.r, s, w.r.driverTokens[t]) ==>
              t !in x.r.driverTokens && ReleaseDriver(x.r, t) == x.r
    ensures t in w.r.watchTokens && EndsWatches(w.r, s, w.r.watchTokens[t]) ==>
              t !in x.r.watchTokens && ReleaseWatch(x.r, t) == x.r
  {
    hide After, CanStep, Inv, EndsDrivers, EndsWatches, Onward, ReleaseDriver, ReleaseWatch;
    NewKeeps();
    RunKeeps(NEW, before, w);
    StepOnward(w, s);
    RunOnward(After(w, s), steps, x);
    if t in w.r.driverTokens && EndsDrivers(w.r, s, w.r.driverTokens[t]) { DriverEnds(w, s, x.r, t); }
    if t in w.r.watchTokens && EndsWatches(w.r, s, w.r.watchTokens[t]) { WatchEnds(w, s, x.r, t); }
  }

  lemma DriverEnds(w: World, s: Step, r: Registry, t: nat)
    requires Inv(w) && CanStep(w, s) && Onward(w.r, After(w, s).r) && Onward(After(w, s).r, r)
    requires t in w.r.driverTokens && EndsDrivers(w.r, s, w.r.driverTokens[t])
    ensures t !in r.driverTokens && ReleaseDriver(r, t) == r
  {
    TokensBehind(w);
    ClientLeasesEnd(w, s, w.r.driverTokens[t]);
    hide Inv, CanStep, After;
  }

  lemma WatchEnds(w: World, s: Step, r: Registry, t: nat)
    requires Inv(w) && CanStep(w, s) && Onward(w.r, After(w, s).r) && Onward(After(w, s).r, r)
    requires t in w.r.watchTokens && EndsWatches(w.r, s, w.r.watchTokens[t])
    ensures t !in r.watchTokens && ReleaseWatch(r, t) == r
  {
    TokensBehind(w);
    ClientLeasesEnd(w, s, w.r.watchTokens[t]);
    hide Inv, CanStep, After;
  }

  lemma TokensBehind(w: World)
    requires Inv(w)
    ensures forall t :: t in w.r.driverTokens ==> t <= w.r.nextDriver
    ensures forall t :: t in w.r.watchTokens ==> t <= w.r.nextWatch
  {
  }

  lemma ClientLeasesEnd(w: World, s: Step, id: int)
    requires CanStep(w, s)
    ensures var r, n := w.r, After(w, s).r; EndsDrivers(r, s, id) ==>
      && (forall t :: t in n.driverTokens ==> t in r.driverTokens && n.driverTokens[t] == r.driverTokens[t] != id)
      && (forall t :: t in n.watchTokens ==> t in r.watchTokens && n.watchTokens[t] == r.watchTokens[t] != id)
    ensures s.Halting? || s.Failing? ==> After(w, s).r.watchTokens == map[]
  {
    EndsHow(w, s, id);
    hide After, CanStep, EndsDrivers, Terminate, Forget, Without;
    if EndsDrivers(w.r, s, id) {
      TerminateCleared(w.r, id);
      ClearedTokens(w.r, After(w, s).r, id);
    }
  }

  lemma EndsHow(w: World, s: Step, id: int)
    requires CanStep(w, s)
    ensures EndsDrivers(w.r, s, id) ==> id in w.r.entries
    ensures EndsDrivers(w.r, s, id) ==>
              After(w, s).r == Terminate(w.r, id) || (After(w, s).r == Forget(w.r, id) && !w.r.entries[id].orphan)
    ensures s.Halting? || s.Failing? ==> After(w, s).r.watchTokens == map[]
  {
    hide Terminate, Forget, Mute, Detach, Create, AcquireDriver, AcquireWatch, Admit, EndSend, RouteFirst, RouteSecond;
  }

  lemma ClearedTokens(r: Registry, s: Registry, id: int)
    requires Cleared(r, s, id)
    ensures forall t :: t in s.driverTokens ==> t in r.driverTokens && s.driverTokens[t] == r.driverTokens[t] != id
    ensures forall t :: t in s.watchTokens ==> t in r.watchTokens && s.watchTokens[t] == r.watchTokens[t] != id
  {
  }

  lemma {:induction false} RunOnward(w: World, steps: seq<Step>, x: World)
    requires Run(w, steps, x)
    ensures Onward(w.r, x.r)
    decreases |steps|
  {
    hide CanStep, After;
    if steps != [] {
      StepOnward(w, steps[0]);
      RunOnward(After(w, steps[0]), steps[1..], x);
    }
  }

  lemma TerminateCleared(r: Registry, id: int)
    requires id in r.entries
    ensures Cleared(r, Terminate(r, id), id) && (!r.entries[id].orphan ==> Cleared(r, Forget(r, id), id))
  {
    hide Without;
    if !r.entries[id].orphan { ForgetCleared(r, id); }
    hide Forget;
  }

  lemma ForgetCleared(r: Registry, id: int)
    requires id in r.entries && !r.entries[id].orphan
    ensures Cleared(r, Forget(r, id), id)
  {
    hide Without;
  }

  // Answers that are owed.

  /** The envelope ends its client or answers a request that is protected. */
  predicate OwedTo(r: Registry, i: Item) {
    i.client in r.entries && !r.entries[i.client].terminal &&
    (i.terminal || (i.request != 0 && i.request in r.entries[i.client].guarded && r.entries[i.client].guarded[i.request] != GenericRaw))
  }

  /** The box of a client, live or retired. */
  function BoxIn(r: Registry, id: int): Box {
    if id in r.entries then r.entries[id].box else if id in r.retired then r.retired[id] else EMPTY_BOX
  }

  /** In every run, an envelope owed to a live client reaches the client's box
      whatever is dropped meanwhile: it is queued there, or abandoned there when
      nobody owns the box any more, and nothing is dropped for it. */
  lemma OwedIsDelivered(steps: seq<Step>, w: World, evicted: nat)
    requires Run(NEW, steps, w) && w.pc.Between? && OwedTo(w.r, w.pc.item)
    ensures CanStep(w, RouteTwo(evicted))
    ensures var r, s, id := w.r, After(w, RouteTwo(evicted)).r, w.pc.item.client;
      && s.unsolicited == r.unsolicited && BoxIn(s, id).dropped == BoxIn(r, id).dropped && BoxIn(s, id).dequeued == BoxIn(r, id).dequeued
      && if r.entries[id].orphan then BoxIn(s, id).abandoned == BoxIn(r, id).abandoned + 1 && BoxIn(s, id).depth == BoxIn(r, id).depth
         else BoxIn(s, id).depth == BoxIn(r, id).depth + 1 && BoxIn(s, id).abandoned == BoxIn(r, id).abandoned
  {
    NewKeeps();
    RunKeeps(NEW, steps, w);
    BoxesAgree(w, w.pc.item.client);
    RoutedTwo(w, evicted);
    hide Inv, RouteSecond, After, CanStep;
    OwedRouted(w.r, w.pc.item, w.pc.item.client in w.pc.wanted, evicted);
  }

  lemma RoutedTwo(w: World, evicted: nat)
    requires w.pc.Between? && w.pc.item.client in w.r.entries
    ensures CanStep(w, RouteTwo(evicted))
    ensures After(w, RouteTwo(evicted)).r == RouteSecond(w.r, w.pc.item, w.pc.item.client in w.pc.wanted, evicted)
  {
    hide RouteSecond;
  }

  lemma BoxesAgree(w: World, id: int)
    requires Inv(w)
    ensures id in w.r.entries ==> id !in w.r.retired && w.r.entries[id].box.orphan == w.r.entries[id].orphan
  {
    hide Exact, Conserved, Subscribed, Working;
    if id in w.r.entries { assert EntryHoused(w.r.entries[id], w.r.owners); }
  }

  lemma OwedRetained(e: Entry, i: Item, wanted: bool)
    requires i.terminal || (i.request != 0 && i.request in e.guarded && e.guarded[i.request] != GenericRaw)
    ensures Retention(e, i, wanted).preserved && !Retention(e, i, wanted).ticketed
  {
  }

  lemma TerminatedBox(r: Registry, id: int)
    requires id in r.entries
    ensures BoxIn(Terminate(r, id), id) == r.entries[id].box && Terminate(r, id).unsolicited == r.unsolicited
  {
  }

  lemma OwedRouted(r: Registry, i: Item, wanted: bool, evicted: nat)
    requires OwedTo(r, i)
    ensures var s, id := RouteSecond(r, i, wanted, evicted), i.client;
      && s.unsolicited == r.unsolicited && BoxIn(s, id) == Arrive(r.entries[id].box, 0)
  {
    hide Retention, Arrive, ErasePending, Terminate;
    var e := r.entries[i.client];
    OwedRetained(e, i, wanted);
    var f := e.(box := Arrive(e.box, 0));
    var h := ErasePending(f, i.request);
    PendingBox(f, i.request);
    var g := if i.request == 0 then f else h.(guarded := h.guarded - {i.request});
    var s := Put(r.(published := r.published + 1), i.client, g);
    TerminatedBox(s, i.client);
    assert RouteSecond(r, i, wanted, evicted) == if i.terminal then Terminate(s, i.client) else s;
  }

  lemma PendingBox(e: Entry, request: nat)
    ensures ErasePending(e, request).box == e.box
  {
  }
}
