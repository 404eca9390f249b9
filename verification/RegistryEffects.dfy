/** What the critical sections of the receiver bring about: a stop request ends
    the receiving, accepted demand has a worker, an envelope that is wanted arrives,
    and a client that goes leaves nothing behind but what it should. */
module RegistryEffects {
  import opened Common
  import opened WorkerLife
  import opened Registry
  import opened RegistryRuns

  // The receiver's worker is the worker of module WorkerLife.

  /** Life and threads change as they do in one step of that machine, or not at all. */
  ghost predicate StepsAs(w: World, x: World, l: Option<LifeStep>) {
    if l.None? then x.r.life == w.r.life && x.threads == w.threads
    else Enabled(w.r.life, w.threads, l.value)
         && x.r.life == LifeAfter(w.r.life, l.value) && x.threads == ThreadsAfter(w.r.life, w.threads, l.value)
  }

  lemma StartsAs(w: World, r: Registry, spawned: bool) returns (l: Option<LifeStep>)
    requires r.life == w.r.life || r.life == LifeAfter(w.r.life, StartStep(false, spawned))
    ensures StepsAs(w, With(w, r), l)
  {
    l := if r.life == w.r.life then None else Some(StartStep(false, spawned));
  }

  lemma StartLife(w: World, s: Step) returns (l: Option<LifeStep>)
    requires CanStep(w, s) && (s.Driving? || s.OneShot? || s.Admitting? || s.ViewWatch?)
    ensures StepsAs(w, After(w, s), l)
  {
    hide StepsAs, Start, Watchable;
    match s {
      case Driving(id, spawned) => l := StartsAs(w, AcquireDriver(w.r, id, spawned), spawned);
      case OneShot(id, spawned) => l := StartsAs(w, RequestOneShot(w.r, id, spawned), spawned);
      case Admitting(id, close, q, c, spawned) => l := StartsAs(w, Admit(w.r, id, close, q, c, spawned), spawned);
      case ViewWatch(v, spawned) => l := WatchStarts(w, v, spawned);
    }
  }

  lemma WatchStarts(w: World, v: nat, spawned: bool) returns (l: Option<LifeStep>)
    requires CanStep(w, ViewWatch(v, spawned))
    ensures StepsAs(w, After(w, ViewWatch(v, spawned)), l)
  {
    var id := w.views[v].client;
    var r := AcquireWatch(w.r, id, spawned);
    WatchLife(w.r, id, spawned);
    hide AcquireWatch;
    l := StartsAs(w, r, spawned);
  }

  lemma FirstLife(r: Registry, i: Item)
    ensures RouteFirst(r, i).life == r.life
  {
  }

  lemma RoutingLife(w: World, s: Step)
    requires CanStep(w, s) && (s.Receive? || s.Source? || s.RouteOne? || s.RouteTwo? || s.Finish? || s.Raise?)
    ensures StepsAs(w, After(w, s), None)
  {
    hide RouteFirst, RouteSecond, Gone, Unknown, Demanding;
    if s.RouteOne? { FirstLife(w.r, w.pc.item); }
    if s.RouteTwo? { RouteLife(w.r, w.pc.item, w.pc.item.client in w.pc.wanted, s.evicted); }
  }

  lemma WorkerLifeStep(w: World, s: Step) returns (l: Option<LifeStep>)
    requires Inv(w) && CanStep(w, s) && (s.Failing? || s.Exit? || s.Reap?)
    ensures StepsAs(w, After(w, s), l)
  {
    hide Kept, Mute;
    match s {
      case Reap(t) => l := Some(t);
      case Failing => l := Some(FailStep);
      case Exit => l := Some(ExitStep);
    }
  }

  lemma SoundWorker(w: World)
    requires Inv(w)
    ensures w.threads.alive <= {w.r.life.generation} && (w.pc == Off <==> w.threads.alive == {})
    ensures w.r.life.state == Running ==> !w.r.life.stop && w.pc != Off
  {
    hide Kept;
  }

  lemma OwnerLifeStep(w: World, s: Step) returns (l: Option<LifeStep>)
    requires CanStep(w, s) && (s.Detaching? || s.Halting? || s.Terminating? || s.Forgetting?)
    ensures StepsAs(w, After(w, s), l)
  {
    hide Terminate, Forget, Detach;
    match s {
      case Detaching(owner, ids) =>
        DetachLife(w.r, owner, ids);
        l := if Detach(w.r, owner, ids).life == w.r.life then None else Some(StopStep);
      case Halting => l := Some(StopStep);
      case Terminating(id) => ClearsLife(w.r, id); l := None;
      case Forgetting(id) => ClearsLife(w.r, id); l := None;
    }
  }

  lemma OtherLifeStep(w: World, s: Step)
    requires CanStep(w, s)
    requires s.Attaching? || s.Creating? || s.DropDriver? || s.DropWatch? || s.Consuming? || s.Handling? || s.Ending? || s.Popping?
             || s.ViewInterest? || s.ViewRelease? || s.ViewClear?
    ensures StepsAs(w, After(w, s), None)
  {
    hide ErasePending;
  }

  lemma StepLife(w: World, s: Step) returns (l: Option<LifeStep>)
    requires Inv(w) && CanStep(w, s)
    ensures StepsAs(w, After(w, s), l)
  {
    hide Inv, CanStep, After, StepsAs;
    if s.Driving? || s.OneShot? || s.Admitting? || s.ViewWatch? { l := StartLife(w, s); }
    else if s.Detaching? || s.Halting? || s.Terminating? || s.Forgetting? { l := OwnerLifeStep(w, s); }
    else if s.Failing? || s.Exit? || s.Reap? { l := WorkerLifeStep(w, s); }
    else {
      l := None;
      if s.Receive? || s.Source? || s.RouteOne? || s.RouteTwo? || s.Finish? || s.Raise? { RoutingLife(w, s); } else { OtherLifeStep(w, s); }
    }
  }

  /** Every run of the receiver is a run of the worker machine: what holds there,
      holds here. */
  lemma {:induction false} RunLife(w: World, steps: seq<Step>, x: World) returns (life: seq<LifeStep>)
    requires Inv(w) && Run(w, steps, x)
    ensures LifeRun(w.r.life, w.threads, life, x.r.life, x.threads)
    decreases |steps|
  {
    hide Inv, CanStep, After;
    if steps == [] { return []; }
    StepKeeps(w, steps[0]);
    var l := StepLife(w, steps[0]);
    var rest := RunLife(After(w, steps[0]), steps[1..], x);
    life := if l.Some? then [l.value] + rest else rest;
    assert l.Some? ==> life[1..] == rest;
  }

  // Stopping.

  /** The runtime is told to stop, loses its last owner, or fails. */
  predicate Halts(w: World, s: Step) {
    s.Halting? || s.Failing? || (s.Detaching? && w.r.owners <= {s.owner})
  }

  lemma HaltsNow(w: World, s: Step)
    requires CanStep(w, s) && Halts(w, s)
    ensures var m, n := w.r.life, After(w, s).r.life;
      && n.stop && n.generation == m.generation && After(w, s).threads == w.threads
      && n.state == if s.Failing? then Failed else if m.state == Running then Stopping else m.state
  {
    if s.Detaching? {
      var r := w.r.(owners := w.r.owners - {s.owner});
      DetachAllLife(r, s.owner, OthersFinish(w.r, s.owner), s.ids);
      DetachAllOwners(w.r, r.owners, s.owner, OthersFinish(w.r, s.owner), s.ids);
      hide DetachAll, Mute;
    }
  }

  /** A stop request stops: from then on the generation at hand never begins
      another receive, in any run, and no earlier thread comes back. */
  lemma HaltStopsReceiving(before: seq<Step>, w: World, s: Step, steps: seq<Step>, x: World, c: Option<int>)
    requires Run(NEW, before, w) && CanStep(w, s) && Halts(w, s) && Run(After(w, s), steps, x)
    ensures w.r.life.state == Running ==> After(w, s).r.life.state == if s.Failing? then Failed else Stopping
    ensures x.r.life.generation == w.r.life.generation ==> !CanStep(x, Receive(c)) && x.threads.alive <= w.threads.alive
    ensures w.r.life.generation <= x.r.life.generation
  {
    hide After, CanStep, Halts, Kept;
    NewKeeps();
    RunKeeps(NEW, before, w);
    StepKeeps(w, s);
    HaltsNow(w, s);
    var y := After(w, s);
    RunKeeps(y, steps, x);
    var life := RunLife(y, steps, x);
    StopHolds(y.r.life, y.threads, life, x.r.life, x.threads);
    SoundWorker(x);
    NoReceive(x, c);
  }

  lemma NoReceive(w: World, c: Option<int>)
    ensures w.r.life.stop || w.pc == Off ==> !CanStep(w, Receive(c))
  {
  }

  /** The next step of a worker that has been told to stop, and of whoever joins it. */
  function Ahead(w: World): Step {
    match w.pc
    case Have(_, _, _) => RouteOne
    case Between(_, _, _) => RouteTwo(0)
    case Waiting(_, _) => Source(None)
    case Routed(_) => Finish
    case Broken => Failing
    case Loop => Exit
    case Cleaning => Exit
    case Off => Reap(Onwards(w.r.life, w.threads))
  }

  function Distance(w: World): nat {
    StepsLeft(w.r.life, w.threads) +
    match w.pc
    case Have(_, _, _) => 4
    case Between(_, _, _) => 3
    case Waiting(_, _) => 3
    case Routed(_) => 2
    case Broken => 2
    case Loop => 1
    case Cleaning => 1
    case Off => 0
  }

  ghost predicate WoundDown(w: World) {
    w.threads.alive == {} && !w.r.life.joinable && !w.r.life.joining
  }

  /** The step can be taken, and leads closer to the end. */
  ghost predicate Closer(w: World, s: Step) {
    CanStep(w, s) && var x := After(w, s);
      x.r.life.stop && x.r.life.state != Running && x.r.life.generation == w.r.life.generation && Distance(x) < Distance(w)
  }

  lemma AheadRoutes(w: World)
    requires w.r.life.stop && w.r.life.state != Running && (w.pc.Have? || w.pc.Between?)
    ensures Closer(w, Ahead(w))
  {
    hide RouteSecond, Gone, Unknown, StepsLeft;
    if w.pc.Between? { RouteLife(w.r, w.pc.item, w.pc.item.client in w.pc.wanted, 0); }
  }

  lemma AheadWorks(w: World)
    requires w.r.life.stop && w.r.life.state != Running && !w.pc.Have? && !w.pc.Between? && w.pc != Off
    ensures Closer(w, Ahead(w))
  {
    hide RouteFirst, RouteSecond, Mute;
  }

  lemma AheadReaps(w: World)
    requires Sound(w.r.life, w.threads) && w.r.life.stop && w.r.life.state != Running && w.pc == Off
    requires w.threads.alive == {} && !WoundDown(w)
    ensures Closer(w, Ahead(w))
  {
  }

  lemma AheadGoes(w: World)
    requires Inv(w) && w.r.life.stop && w.r.life.state != Running && !WoundDown(w)
    ensures Closer(w, Ahead(w))
  {
    SoundWorker(w);
    hide Kept, Closer, Ahead;
    if w.pc.Have? || w.pc.Between? { AheadRoutes(w); }
    else if w.pc != Off { AheadWorks(w); }
    else { AheadReaps(w); }
  }

  /** Every stop can be carried through: whatever the worker is at, some run lets it
      finish its envelope, leave, and be joined. */
  lemma {:induction false} StopCarriedThrough(w: World) returns (steps: seq<Step>, x: World)
    requires Inv(w) && w.r.life.stop && w.r.life.state != Running
    ensures Run(w, steps, x) && WoundDown(x) && x.r.life.generation == w.r.life.generation
    ensures x.r.life.state == Stopped || x.r.life.state == Failed
    decreases Distance(w)
  {
    if WoundDown(w) { return [], w; }
    AheadGoes(w);
    StepKeeps(w, Ahead(w));
    hide Inv, CanStep, After, Ahead, Distance, WoundDown;
    var rest;
    rest, x := StopCarriedThrough(After(w, Ahead(w)));
    steps := [Ahead(w)] + rest;
    assert steps[1..] == rest;
  }

  // Demand is served.

  /** A worker runs, or can be started here. */
  predicate Servable(r: Registry, spawned: bool) {
    r.life.state == Running || (r.life.state == Stopped && spawned)
  }

  /** The worker is alive, was not told to stop and has somebody to serve; between
      two receives it may begin the next. */
  ghost predicate AtWork(w: World) {
    && w.r.life.state == Running && w.threads.alive == {w.r.life.generation}
    && (exists id :: id in w.r.entries && Demanding(w.r.entries[id])) && (w.pc == Loop ==> CanStep(w, Receive(None)))
  }

  /** Where somebody is to be served, starting succeeds exactly when it can. */
  lemma Launching(w: World, spawned: bool)
    requires Inv(w) && w.r.entries != map[]
    ensures Launch(w.r, spawned).threw <==> !Servable(w.r, spawned)
    ensures var l := Launch(w.r, spawned).life;
      l.generation == w.r.life.generation + if w.r.life.state == Stopped && spawned then 1 else 0
  {
    hide Kept;
  }

  lemma Launched(w: World, r: Registry, id: int, spawned: bool)
    requires Inv(w) && Servable(w.r, spawned) && w.r.entries != map[]
    requires r.life == Launch(w.r, spawned).life && id in r.entries && Demanding(r.entries[id])
    ensures AtWork(With(w, r))
    ensures w.r.life.state == Stopped ==> With(w, r).pc == Loop
  {
    hide Kept, Demanding;
  }

  lemma StartingSteps(w: World, id: int, close: bool, q: nat, c: Class, spawned: bool)
    ensures CanStep(w, Driving(id, spawned)) && CanStep(w, OneShot(id, spawned)) && CanStep(w, Admitting(id, close, q, c, spawned))
    ensures After(w, Driving(id, spawned)) == With(w, AcquireDriver(w.r, id, spawned))
    ensures After(w, OneShot(id, spawned)) == With(w, RequestOneShot(w.r, id, spawned))
    ensures After(w, Admitting(id, close, q, c, spawned)) == With(w, Admit(w.r, id, close, q, c, spawned))
  {
    hide AcquireDriver, RequestOneShot, Admit;
  }

  /** The request is refused: clients, leases and worker stay as they are. */
  ghost predicate Refused(w: World, x: World) {
    x.r == w.r.(life := x.r.life) && x.r.life.generation == w.r.life.generation && x.threads == w.threads && x.pc == w.pc
  }

  /** One step gave a client demand, and the worker it needs. */
  ghost predicate Granted(w: World, x: World) {
    AtWork(x) && (w.r.life.state == Stopped ==> x.pc == Loop && x.r.life.generation == w.r.life.generation + 1)
  }

  lemma GrantedOrRefused(w: World, r: Registry, id: int, asked: bool, spawned: bool)
    requires Inv(w) && id in w.r.entries
    requires if asked && !Launch(w.r, spawned).threw
             then r.life == Launch(w.r, spawned).life && id in r.entries && Demanding(r.entries[id])
             else r == w.r.(life := r.life) && (r.life == w.r.life || r.life == Launch(w.r, spawned).life)
    ensures if asked && Servable(w.r, spawned) then Granted(w, With(w, r)) else asked ==> Refused(w, With(w, r))
    ensures !asked && r.life == w.r.life ==> With(w, r) == w
  {
    Launching(w, spawned);
    if asked && Servable(w.r, spawned) { Launched(w, r, id, spawned); }
    hide Inv, AtWork, Launch, Demanding;
  }

  lemma DriverGiven(r: Registry, id: int, spawned: bool)
    requires id in r.entries
    ensures var s, l := AcquireDriver(r, id, spawned), Launch(r, spawned);
      if r.entries[id].terminal then s == r
      else if l.threw then s == r.(life := l.life)
      else s == r.(life := l.life, nextDriver := r.nextDriver + 1, driverTokens := r.driverTokens[r.nextDriver + 1 := id],
                   entries := r.entries[id := r.entries[id].(drivers := r.entries[id].drivers + 1)])
           && Demanding(s.entries[id])
  {
    hide Start;
  }

  /** A driver lease is given exactly to a client that is live while a worker runs or
      can be started; it then has a worker. A refusal leaves clients and leases alone. */
  lemma DriverIsServed(steps: seq<Step>, w: World, id: int, spawned: bool)
    requires Run(NEW, steps, w)
    ensures var r, x := w.r, After(w, Driving(id, spawned));
      if id in r.entries && !r.entries[id].terminal && Servable(r, spawned)
      then Granted(w, x) && x.r.driverTokens == r.driverTokens[r.nextDriver + 1 := id] && x.r.nextDriver == r.nextDriver + 1
           && x.r.entries == r.entries[id := r.entries[id].(drivers := r.entries[id].drivers + 1)]
      else Refused(w, x)
  {
    hide Inv, AtWork, Launch, Servable, Demanding, After, Granted, Refused;
    NewKeeps();
    RunKeeps(NEW, steps, w);
    StartingSteps(w, id, false, 0, GenericRaw, spawned);
    if id in w.r.entries {
      Launching(w, spawned);
      DriverGiven(w.r, id, spawned);
      GrantedOrRefused(w, AcquireDriver(w.r, id, spawned), id, !w.r.entries[id].terminal, spawned);
      hide AcquireDriver;
    }
    RefusedSelf(w);
  }

  lemma RefusedSelf(w: World)
    ensures Refused(w, w) && With(w, w.r) == w
  {
  }

  lemma WatchGiven(r: Registry, id: int, spawned: bool)
    requires Watchable(r, id)
    ensures var s, l := AcquireWatch(r, id, spawned), Launch(r, spawned);
      if l.threw then s == r.(life := l.life)
      else s == r.(life := l.life, nextWatch := r.nextWatch + 1, watchTokens := r.watchTokens[r.nextWatch + 1 := id],
                   entries := r.entries[id := r.entries[id].(watches := r.entries[id].watches + 1)])
           && Demanding(s.entries[id])
  {
    hide Start;
  }

  lemma WatchableNow(w: World, id: int)
    requires Inv(w)
    ensures Watchable(w.r, id) <==> Subscribable(w.r, id) && (w.r.life.state == Running || w.r.life.state == Stopped)
    ensures !Watchable(w.r, id) ==> forall spawned :: AcquireWatch(w.r, id, spawned) == w.r
  {
    hide Kept, Launch;
  }

  lemma ViewWatchStep(w: World, v: nat, spawned: bool)
    requires CanStep(w, ViewWatch(v, spawned))
    ensures v in w.views
    ensures var s, x := AcquireWatch(w.r, w.views[v].client, spawned), After(w, ViewWatch(v, spawned));
      if s.nextWatch != w.r.nextWatch then x == With(w, s).(views := w.views[v := w.views[v].(phase := Watching(s.nextWatch))])
      else x == w.(r := s)
  {
    hide AcquireWatch;
  }

  /** A view gets its watch lease exactly for a client that can be subscribed while
      a worker runs or can be started; the client then has a worker. */
  lemma WatchIsServed(steps: seq<Step>, w: World, v: nat, spawned: bool)
    requires Run(NEW, steps, w) && CanStep(w, ViewWatch(v, spawned))
    ensures var r, x, id := w.r, After(w, ViewWatch(v, spawned)), w.views[v].client;
      if Subscribable(r, id) && Servable(r, spawned)
      then Granted(w, x) && x.r.watchTokens == r.watchTokens[r.nextWatch + 1 := id]
           && x.r.entries == r.entries[id := r.entries[id].(watches := r.entries[id].watches + 1)]
           && x.views == w.views[v := w.views[v].(phase := Watching(r.nextWatch + 1))]
      else Refused(w, x) && x.views == w.views
  {
    hide Inv, AtWork, Launch, Demanding, After, Refused, CanStep, AcquireWatch, Watchable;
    NewKeeps();
    RunKeeps(NEW, steps, w);
    ViewWatchStep(w, v, spawned);
    var id := w.views[v].client;
    WatchableNow(w, id);
    RefusedSelf(w);
    if Watchable(w.r, id) {
      Launching(w, spawned);
      WatchGiven(w.r, id, spawned);
      GrantedOrRefused(w, AcquireWatch(w.r, id, spawned), id, true, spawned);
      SameAtWork(With(w, AcquireWatch(w.r, id, spawned)), After(w, ViewWatch(v, spawned)));
    }
  }

  lemma SameAtWork(w: World, x: World)
    requires x == w.(views := x.views)
    ensures AtWork(w) ==> AtWork(x)
  {
  }

  lemma OneShotGiven(r: Registry, id: int, spawned: bool)
    requires id in r.entries
    ensures var s, l := RequestOneShot(r, id, spawned), Launch(r, spawned);
      if r.entries[id].terminal then s == r
      else if l.threw then s == r.(life := l.life)
      else s == r.(life := l.life, entries := r.entries[id := r.entries[id].(oneShot := true)]) && Demanding(s.entries[id])
  {
    hide Start;
  }

  /** A one-shot request is accepted exactly under the same terms. */
  lemma OneShotIsServed(steps: seq<Step>, w: World, id: int, spawned: bool)
    requires Run(NEW, steps, w)
    ensures var r, x := w.r, After(w, OneShot(id, spawned));
      if id in r.entries && !r.entries[id].terminal && Servable(r, spawned)
      then Granted(w, x) && x.r == r.(life := x.r.life, entries := r.entries[id := r.entries[id].(oneShot := true)])
      else Refused(w, x)
  {
    hide Inv, AtWork, Launch, Servable, Demanding, After, Granted, Refused;
    NewKeeps();
    RunKeeps(NEW, steps, w);
    StartingSteps(w, id, false, 0, GenericRaw, spawned);
    if id in w.r.entries {
      Launching(w, spawned);
      OneShotGiven(w.r, id, spawned);
      GrantedOrRefused(w, RequestOneShot(w.r, id, spawned), id, !w.r.entries[id].terminal, spawned);
    }
    RefusedSelf(w);
  }

  lemma ClaimStep(w: World, id: int)
    requires CanStep(w, Receive(Some(id)))
    ensures var x := After(w, Receive(Some(id)));
      && x.pc.Waiting? && x.pc.claim == Some(id) && id in w.r.entries
      && x.r.entries == w.r.entries[id := w.r.entries[id].(oneShot := false, inFlight := true)]
  {
    hide Demanding;
  }

  lemma EmptyReceive(w: World)
    requires w.pc.Waiting?
    ensures CanStep(w, Source(None)) && After(w, Source(None)) == w.(pc := Routed(w.pc.claim))
  {
  }

  lemma FinishStep(w: World)
    requires w.pc.Routed?
    ensures CanStep(w, Finish)
    ensures After(w, Finish) == w.(pc := Loop, r := if w.pc.claim.Some? then CompleteOneShot(w.r, w.pc.claim.value) else w.r)
  {
    hide CompleteOneShot;
  }

  /** A claimed one-shot request keeps its demand for one receive and is over then,
      also when the source has nothing; nobody else's requests are touched. */
  lemma OneShotSpent(w: World, id: int)
    requires CanStep(w, Receive(Some(id)))
    ensures var x := After(w, Receive(Some(id)));
      CanStep(x, Source(None)) && id in x.r.entries && Demanding(x.r.entries[id])
    ensures var y := After(After(w, Receive(Some(id))), Source(None));
      && CanStep(y, Finish) && After(y, Finish).pc == Loop && id in w.r.entries
      && After(y, Finish).r.entries == w.r.entries[id := w.r.entries[id].(oneShot := false, inFlight := false)]
  {
    hide CanStep, After;
    ClaimStep(w, id);
    var x := After(w, Receive(Some(id)));
    EmptyReceive(x);
    FinishStep(After(x, Source(None)));
  }

  // Sends.

  /** What an accepted protected send adds to its client: an answer that is owed. */
  function Owing(e: Entry, close: bool, request: nat, c: Class): Entry {
    var f := if close then e.(lifecycle := e.lifecycle + 1) else e;
    if request == 0 then f
    else f.(pending := f.pending[request := 1 + if request in f.pending then f.pending[request] else 0],
            guarded := f.guarded[request := if close then Lifecycle else c])
  }

  lemma AdmitGiven(r: Registry, id: int, close: bool, request: nat, c: Class, spawned: bool)
    requires id in r.entries && r.life.state != Failed && (close || c != GenericRaw)
    ensures var s, l, e := Admit(r, id, close, request, c, spawned), Launch(r, spawned), r.entries[id];
      s == r.(life := l.life, entries := r.entries[id :=
             if !l.threw then Owing(e, close, request, c) else if request == 0 then e else e.(guarded := e.guarded - {request})])
  {
    hide Launch;
  }

  lemma AdmitNothing(r: Registry, id: int, close: bool, request: nat, c: Class, spawned: bool)
    requires id !in r.entries || r.life.state == Failed || (!close && c == GenericRaw)
    ensures Admit(r, id, close, request, c, spawned) == r
  {
    hide Launch;
  }

  /** An accepted protected send has a worker, and the answer to its request is owed
      from then on; every other send leaves the registry as it is. A send that finds
      no worker only ends the protection of its own request. */
  lemma AdmissionIsServed(steps: seq<Step>, w: World, id: int, close: bool, q: nat, c: Class, spawned: bool, i: Item)
    requires Run(NEW, steps, w)
    ensures var r, x := w.r, After(w, Admitting(id, close, q, c, spawned));
      if id !in r.entries || r.life.state == Failed || (!close && c == GenericRaw) then x == w
      else if Servable(r, spawned)
      then x.r == r.(life := x.r.life, entries := r.entries[id := Owing(r.entries[id], close, q, c)])
           && (close || q != 0 ==> Granted(w, x))
           && (q != 0 && !r.entries[id].terminal && i.client == id && i.request == q ==> OwedTo(x.r, i))
      else Refused(w.(r := r.(entries := x.r.entries)), x)
           && x.r.entries == r.entries[id := if q == 0 then r.entries[id] else r.entries[id].(guarded := r.entries[id].guarded - {q})]
  {
    hide Inv, AtWork, Launch, Servable, Demanding, After, Granted, Refused, Admit, Owing;
    NewKeeps();
    RunKeeps(NEW, steps, w);
    StartingSteps(w, id, close, q, c, spawned);
    if id !in w.r.entries || w.r.life.state == Failed || (!close && c == GenericRaw) {
      AdmitNothing(w.r, id, close, q, c, spawned);
    } else {
      if Servable(w.r, spawned) { AdmissionGranted(w, id, close, q, c, spawned, i); } else { AdmissionRefused(w, id, close, q, c, spawned); }
    }
  }

  lemma AdmissionGranted(w: World, id: int, close: bool, q: nat, c: Class, spawned: bool, i: Item)
    requires Inv(w) && id in w.r.entries && Servable(w.r, spawned) && (close || c != GenericRaw)
    ensures var r, x := w.r, With(w, Admit(w.r, id, close, q, c, spawned));
      && x.r == r.(life := x.r.life, entries := r.entries[id := Owing(r.entries[id], close, q, c)])
      && (close || q != 0 ==> Granted(w, x))
      && (q != 0 && !r.entries[id].terminal && i.client == id && i.request == q ==> OwedTo(x.r, i))
  {
    hide Inv, Admit, AtWork, Launch, Granted, Demanding, Owing;
    AdmitGiven(w.r, id, close, q, c, spawned);
    Launching(w, spawned);
    OwingDemands(w.r.entries[id], close, q, c);
    if close || q != 0 { GrantedOrRefused(w, Admit(w.r, id, close, q, c, spawned), id, true, spawned); }
  }

  lemma AdmissionRefused(w: World, id: int, close: bool, q: nat, c: Class, spawned: bool)
    requires Inv(w) && id in w.r.entries && w.r.life.state != Failed && !Servable(w.r, spawned) && (close || c != GenericRaw)
    ensures var r, x := w.r, With(w, Admit(w.r, id, close, q, c, spawned));
      && Refused(w.(r := r.(entries := x.r.entries)), x)
      && x.r.entries == r.entries[id := if q == 0 then r.entries[id] else r.entries[id].(guarded := r.entries[id].guarded - {q})]
  {
    hide Inv, Admit, Launch, Owing;
    AdmitGiven(w.r, id, close, q, c, spawned);
    Launching(w, spawned);
  }

  lemma OwingDemands(e: Entry, close: bool, q: nat, c: Class)
    ensures var f := Owing(e, close, q, c);
      && (close || q != 0 ==> Demanding(f)) && f.terminal == e.terminal
      && (q != 0 ==> q in f.guarded && f.guarded[q] == if close then Lifecycle else c)
  {
    assert q != 0 ==> q in Owing(e, close, q, c).pending;
  }

  /** A send that was admitted and then failed leaves the client as it was, up to
      the protection of its own request. */
  lemma UnsentIsUndone(e: Entry, r: Registry, id: int, close: bool, q: nat, c: Class)
    requires id in r.entries && r.entries[id] == Owing(e, close, q, c)
    ensures EndSend(r, id, close, q, false) == r.(entries := r.entries[id := e.(guarded := e.guarded - {q})])
    ensures EndSend(r, id, close, q, true) == r
  {
    hide ErasePending;
    var f := Owing(e, close, q, c);
    if q != 0 { UnpendNew(e.pending, f, q); assert f.guarded - {q} == e.guarded - {q}; }
  }

  lemma UnpendNew(pending: map<nat, Count>, f: Entry, q: nat)
    requires f.pending == pending[q := 1 + if q in pending then pending[q] else 0]
    ensures ErasePending(f, q) == f.(pending := pending)
  {
    assert q !in pending ==> f.pending - {q} == pending;
    assert q in pending ==> f.pending[q := pending[q]] == pending;
  }

  // Interests and retention.

  /** The updates a client is kept for: everything for a consumer, also one that was
      there when the receive began; a handler its own types; a driver everything, but
      typed updates that only handlers could want; a subscription to everything, as
      long as no driver or handler decides. */
  predicate Wants(e: Entry, i: Item, wanted: bool) {
    var driver := e.drivers > 0 || e.oneShot || e.inFlight;
    || i.terminal || i.request != 0 || e.lifecycle > 0
    || e.consumers > 0 || (wanted && !e.orphan)
    || (i.event in e.types && e.handlerOnly + e.subHandlers > 0)
    || (driver && (e.handlerOnly == 0 || e.subGeneric > 0 || i.event == ""))
    || (e.subGeneric > 0 && e.handlerOnly == 0)
  }

  /** An envelope that nobody is owed may be evicted again: raw answers, and updates
      that no handler selected unless a subscription alone did. */
  predicate Expendable(e: Entry, i: Item, wanted: bool) {
    var driver := e.drivers > 0 || e.oneShot || e.inFlight;
    var generic := e.consumers > 0 || (wanted && !e.orphan);
    if i.request != 0 then !i.terminal && i.request !in e.guarded
    else !i.terminal && e.lifecycle == 0
         && (if i.event in e.types && e.handlerOnly + e.subHandlers > 0 then !driver && !generic && e.handlerOnly == 0
             else generic || e.handlerOnly == 0)
  }

  /** Retention keeps exactly the envelopes that are wanted, and exactly the
      expendable ones get a ticket. */
  lemma KeptExactly(e: Entry, i: Item, wanted: bool)
    ensures Retention(e, i, wanted).preserved <==> Wants(e, i, wanted)
    ensures Wants(e, i, wanted) ==> (Retention(e, i, wanted).ticketed <==> Expendable(e, i, wanted))
  {
  }

  /** Interest that is taken up selects what it is for; a watch selects nothing. */
  lemma InterestSelects(r: Registry, id: int, name: string, i: Item, wanted: bool, n: nat)
    requires id in r.entries && !r.entries[id].terminal
    ensures Wants(SetConsumer(r, id, true, true).entries[id], i, wanted)
    ensures i.event in r.entries[id].types ==> Wants(SetConsumer(r, id, true, false).entries[id], i, wanted)
    ensures i.event == name && r.entries[id].handlerOnly + r.entries[id].subHandlers > 0 ==>
              Wants(SetHandler(r, id, name, true).entries[id], i, wanted)
    ensures !r.entries[id].orphan && r.entries[id].handlerOnly == 0 ==> Wants(SetSubscription(r, id, true, true).entries[id], i, wanted)
    ensures !r.entries[id].orphan && i.event in r.entries[id].types ==>
              Wants(SetSubscription(r, id, true, false).entries[id], i, wanted)
    ensures Wants(r.entries[id].(watches := n), i, wanted) <==> Wants(r.entries[id], i, wanted)
  {
  }

  /** Giving an interest up again undoes taking it up, in every registry; a client that
      is unknown or terminal takes none. */
  lemma InterestUndone(r: Registry, id: int, name: string, generic: bool)
    ensures SetConsumer(SetConsumer(r, id, true, generic), id, false, generic) == r
    ensures SetSubscription(SetSubscription(r, id, true, generic), id, false, generic) == r
    ensures SetHandler(SetHandler(r, id, name, true), id, name, false) == r
    ensures id !in r.entries || r.entries[id].terminal ==>
              SetConsumer(r, id, true, generic) == SetSubscription(r, id, true, generic) == SetHandler(r, id, name, true) == r
  {
    hide SetConsumer, SetSubscription, SetHandler;
    ConsumerUndone(r, id, generic);
    SubscriptionUndone(r, id, generic);
    HandlerUndone(r, id, name);
  }

  lemma ConsumerUndone(r: Registry, id: int, generic: bool)
    ensures var s := SetConsumer(r, id, true, generic);
      SetConsumer(s, id, false, generic) == r && (id !in r.entries || r.entries[id].terminal ==> s == r)
  {
    if id in r.entries { assert r.entries[id := r.entries[id]] == r.entries; }
  }

  lemma SubscriptionUndone(r: Registry, id: int, generic: bool)
    ensures var s := SetSubscription(r, id, true, generic);
      SetSubscription(s, id, false, generic) == r && (id !in r.entries || r.entries[id].terminal ==> s == r)
  {
    if id in r.entries { assert r.entries[id := r.entries[id]] == r.entries; }
  }

  lemma HandlerUndone(r: Registry, id: int, name: string)
    ensures var s := SetHandler(r, id, name, true);
      SetHandler(s, id, name, false) == r && (id !in r.entries || r.entries[id].terminal ==> s == r)
  {
    var s := SetHandler(r, id, name, true);
    if id in r.entries && !r.entries[id].terminal {
      assert SetHandler(s, id, name, false).entries[id].types == r.entries[id].types;
      assert SetHandler(s, id, name, false).entries == r.entries;
    }
  }

  /** Where an envelope for a live client ends up: in the client's box exactly when
      it is wanted, at the cost of others only if it is expendable itself; its request
      is settled, and nobody else is touched. */
  lemma RoutedExactly(r: Registry, i: Item, wanted: bool, evicted: nat)
    requires i.client in r.entries && !r.entries[i.client].terminal && r.entries[i.client].box.orphan == r.entries[i.client].orphan
    ensures var s, id, e := RouteSecond(r, i, wanted, evicted), i.client, r.entries[i.client];
      if !Wants(e, i, wanted) then s == r.(unsolicited := r.unsolicited + 1)
      else var k := if Expendable(e, i, wanted) && evicted <= e.box.depth then evicted else 0;
        && s.published == r.published + 1 && s.unsolicited == r.unsolicited && s.received == r.received
        && BoxIn(s, id) == (if e.orphan then e.box.(dropped := e.box.dropped + k, depth := e.box.depth - k, abandoned := e.box.abandoned + 1)
                            else e.box.(dropped := e.box.dropped + k, depth := e.box.depth - k + 1, enqueued := e.box.enqueued + 1))
        && s.entries - {id} == r.entries - {id}
        && (!i.terminal ==> id in s.entries && s.entries[id] == Answered(e, i.request).(box := s.entries[id].box))
        && (i.terminal ==> if id in s.entries then !e.orphan && Over(s.entries[id]) else e.orphan && id in s.retired)
  {
    hide Retention, Arrive, Wants, Expendable, Terminate, Answered, Committed, RouteSecond, Over;
    var e := r.entries[i.client];
    RoutedHow(r, i, wanted, evicted);
    if Wants(e, i, wanted) {
      var k := if Expendable(e, i, wanted) && evicted <= e.box.depth then evicted else 0;
      CommittedExactly(r, i, wanted, evicted);
      AnsweredOnly(e, i.request);
      Arrival(e.box, k);
      var s := Committed(r, i, wanted, evicted);
      TerminatedBox(s, i.client);
      Terminated(s, i.client);
    }
  }

  lemma RoutedHow(r: Registry, i: Item, wanted: bool, evicted: nat)
    requires i.client in r.entries && !r.entries[i.client].terminal
    ensures RouteSecond(r, i, wanted, evicted)
         == if !Wants(r.entries[i.client], i, wanted) then r.(unsolicited := r.unsolicited + 1)
            else if i.terminal then Terminate(Committed(r, i, wanted, evicted), i.client) else Committed(r, i, wanted, evicted)
  {
    hide Retention, Arrive, Wants, ErasePending, Terminate;
    KeptExactly(r.entries[i.client], i, wanted);
  }

  lemma CommittedExactly(r: Registry, i: Item, wanted: bool, evicted: nat)
    requires i.client in r.entries && Wants(r.entries[i.client], i, wanted)
    ensures var e := r.entries[i.client];
            var k := if Expendable(e, i, wanted) && evicted <= e.box.depth then evicted else 0;
      Committed(r, i, wanted, evicted)
      == Put(r.(published := r.published + 1), i.client, Answered(e, i.request).(box := Arrive(e.box, k)))
  {
    hide Retention, Arrive, Wants, Expendable, ErasePending, Answered;
    var e := r.entries[i.client];
    KeptExactly(e, i, wanted);
    AnsweredBy(e, i.request, Arrive(e.box, if Expendable(e, i, wanted) && evicted <= e.box.depth then evicted else 0));
  }

  /** One answer for the request has come: it is no longer protected. */
  function Answered(e: Entry, request: nat): Entry {
    if request == 0 then e
    else e.(guarded := e.guarded - {request},
            pending := if request !in e.pending then e.pending
                       else if e.pending[request] <= 1 then e.pending - {request} else e.pending[request := e.pending[request] - 1])
  }

  lemma AnsweredBy(e: Entry, request: nat, b: Box)
    ensures var f := ErasePending(e.(box := b), request);
      Answered(e, request).(box := b) == if request == 0 then e.(box := b) else f.(guarded := f.guarded - {request})
  {
  }

  lemma AnsweredOnly(e: Entry, request: nat)
    ensures Answered(e, request).orphan == e.orphan
  {
  }

  lemma Arrival(b: Box, k: nat)
    requires k <= b.depth
    ensures Arrive(b, k) == if b.orphan then b.(dropped := b.dropped + k, depth := b.depth - k, abandoned := b.abandoned + 1)
                            else b.(dropped := b.dropped + k, depth := b.depth - k + 1, enqueued := b.enqueued + 1)
  {
  }

  // Clients go.

  /** The client is terminal and asks for nothing any more. */
  predicate Over(e: Entry) {
    e.terminal && !Demanding(e) && e.guarded == map[] && e.consumers == e.handlerOnly == e.subGeneric == e.subHandlers == 0 && e.types == map[]
  }

  lemma Terminated(r: Registry, id: int)
    requires id in r.entries
    ensures var s := Terminate(r, id);
      && s.entries - {id} == r.entries - {id}
      && s.published == r.published && s.received == r.received && s.unsolicited == r.unsolicited
      && if r.entries[id].orphan then id !in s.entries && id in s.retired else id in s.entries && Over(s.entries[id])
  {
    hide Without;
  }

  /** Nothing asks for envelopes of the client, and no token names it. */
  ghost predicate Unasked(r: Registry, id: int)
    requires id in r.entries
  {
    var e := r.entries[id];
    && e.drivers == e.watches == 0 && !e.oneShot && !e.inFlight
    && e.consumers == e.handlerOnly == e.subGeneric == e.subHandlers == 0 && e.types == map[]
    && Naming(r.driverTokens, id) == {} && Naming(r.watchTokens, id) == {}
  }

  /** Nothing about the other clients changes. */
  ghost predicate Spares(r: Registry, s: Registry, id: int) {
    && s.entries - {id} == r.entries - {id} && s.retired - {id} == r.retired - {id}
    && (forall j :: j != id ==> Naming(s.driverTokens, j) == Naming(r.driverTokens, j) && Naming(s.watchTokens, j) == Naming(r.watchTokens, j))
  }

  /** The box after its owner has gone: what was queued counts as abandoned. */
  ghost predicate Abandons(b: Box, c: Box) {
    c.orphan && c.depth == 0 && c.abandoned == b.abandoned + b.depth
    && c.enqueued == b.enqueued && c.dequeued == b.dequeued && c.dropped == b.dropped
  }

  /** The end of a client: it keeps its box but asks for nothing any more, or is
      retired with its box when nobody owns it. */
  lemma TerminalEnds(r: Registry, id: int)
    requires id in r.entries
    ensures var s := Terminate(r, id);
      && Spares(r, s, id) && s.life == r.life
      && if r.entries[id].orphan then id !in s.entries && id in s.retired && s.retired[id] == r.entries[id].box
         else id in s.entries && Over(s.entries[id]) && Unasked(s, id) && s.entries[id].box == r.entries[id].box
              && s.entries[id].owner == r.entries[id].owner && !s.entries[id].orphan && s.retired == r.retired
  {
    TokensCleared(r.driverTokens, id);
    TokensCleared(r.watchTokens, id);
    hide Naming;
  }

  /** Forgetting a client ends all but the lifecycle work that was accepted for it,
      which waits for its terminal; a terminal client is retired at once. */
  lemma ForgetLeaves(r: Registry, id: int)
    requires id in r.entries && !r.entries[id].orphan
    ensures var s, e := Forget(r, id), r.entries[id];
      && Spares(r, s, id) && s.life == r.life
      && if e.terminal then id !in s.entries && id in s.retired && Abandons(e.box, s.retired[id])
         else id in s.entries && Unasked(s, id) && Abandons(e.box, s.entries[id].box) && s.retired == r.retired
              && s.entries[id].orphan && !s.entries[id].terminal && s.entries[id].owner == e.owner
              && s.entries[id].lifecycle == e.lifecycle && s.entries[id].pending == e.pending && s.entries[id].guarded == e.guarded
  {
    TokensCleared(r.driverTokens, id);
    TokensCleared(r.watchTokens, id);
    hide Naming;
  }

  /** What a leaving owner leaves of a client: with other owners attached the
      lifecycle work that was accepted for it, otherwise nothing to do. */
  ghost predicate LeftBehind(e: Entry, s: Registry, id: int, others: bool) {
    if e.terminal then id !in s.entries && id in s.retired && Abandons(e.box, s.retired[id])
    else && id in s.entries && Unasked(s, id) && Abandons(e.box, s.entries[id].box)
         && s.entries[id].orphan && !s.entries[id].terminal && s.entries[id].owner == e.owner && s.entries[id].pending == map[]
         && s.entries[id].lifecycle == (if others then e.lifecycle else 0)
         && (forall q :: q in s.entries[id].guarded <==> others && q in e.guarded && e.guarded[q] == Lifecycle)
         && (forall q :: q in s.entries[id].guarded ==> s.entries[id].guarded[q] == Lifecycle)
  }

  /** The two registries agree about one client. */
  ghost predicate Agree(r: Registry, s: Registry, id: int) {
    && (id in r.entries <==> id in s.entries) && (id in r.entries ==> r.entries[id] == s.entries[id])
    && (id in r.retired <==> id in s.retired) && (id in r.retired ==> r.retired[id] == s.retired[id])
    && Naming(r.driverTokens, id) == Naming(s.driverTokens, id) && Naming(r.watchTokens, id) == Naming(s.watchTokens, id)
  }

  lemma DetachLeaves(r: Registry, owner: nat, others: bool, id: int)
    requires id in r.entries && (r.entries[id].orphan ==> !r.entries[id].terminal)
    ensures var s := DetachOne(r, owner, others, id);
      if r.entries[id].owner != owner || r.entries[id].orphan then s == r
      else LeftBehind(r.entries[id], s, id, others) && forall j :: j != id ==> Agree(r, s, j)
  {
    TokensCleared(r.driverTokens, id);
    TokensCleared(r.watchTokens, id);
    hide Naming;
  }

  lemma StaysBehind(e: Entry, r: Registry, s: Registry, id: int, others: bool)
    requires LeftBehind(e, r, id, others) && Agree(r, s, id)
    ensures LeftBehind(e, s, id, others)
  {
    hide Abandons, Naming;
  }

  /** Every client of the owner is left behind so, whatever the order of the loop. */
  lemma {:induction false} DetachAllLeaves(r: Registry, owner: nat, others: bool, ids: seq<int>, id: int, views: map<nat, View>, n: nat)
    requires Kept(r, views, n) && id in r.entries
    ensures var s, e := DetachAll(r, owner, others, ids), r.entries[id];
      if id in ids && e.owner == owner && !e.orphan then LeftBehind(e, s, id, others) else Agree(r, s, id)
    decreases |ids|
  {
    hide Kept, DetachOne, Naming, LeftBehind;
    if ids == [] { AgreeSelf(r, id); return; }
    var k := |ids| - 1;
    DetachAllLeaves(r, owner, others, ids[..k], id, views, n);
    DetachAllKeeps(r, owner, others, ids[..k], views, n);
    var s := DetachAll(r, owner, others, ids[..k]);
    assert id in ids <==> id in ids[..k] || id == ids[k];
    if ids[k] in s.entries {
      HousedAt(s, views, n, ids[k]);
      DetachLeaves(s, owner, others, ids[k]);
      DetachAgain(r, s, owner, others, ids[k], id, id in ids[..k]);
    }
  }

  lemma AgreeSelf(r: Registry, id: int)
    ensures Agree(r, r, id)
  {
  }

  lemma DetachAgain(r: Registry, s: Registry, owner: nat, others: bool, j: int, id: int, seen: bool)
    requires id in r.entries && j in s.entries && EntryHoused(s.entries[j], s.owners)
    requires if seen && r.entries[id].owner == owner && !r.entries[id].orphan then LeftBehind(r.entries[id], s, id, others) else Agree(r, s, id)
    requires var t := DetachOne(s, owner, others, j);
      if s.entries[j].owner != owner || s.entries[j].orphan then t == s
      else LeftBehind(s.entries[j], t, j, others) && forall k :: k != j ==> Agree(s, t, k)
    ensures var t, e := DetachOne(s, owner, others, j), r.entries[id];
      if (seen || j == id) && e.owner == owner && !e.orphan then LeftBehind(e, t, id, others) else Agree(r, t, id)
  {
    hide DetachOne, Naming, Abandons;
    var t, e := DetachOne(s, owner, others, j), r.entries[id];
    if j != id && t != s {
      assert Agree(s, t, id);
      if seen && e.owner == owner && !e.orphan { StaysBehind(e, s, t, id, others); }
    }
  }

  lemma HaltLeaves(e: Entry, r: Registry, s: Registry, id: int, others: bool)
    requires s == Halt(r).(life := s.life, owners := s.owners)
    ensures LeftBehind(e, r, id, others) ==> LeftBehind(e, s, id, others)
    ensures id in r.entries ==> id in s.entries && s.entries[id] == r.entries[id].(watches := 0)
  {
    hide Abandons;
  }

  /** An owner goes: its clients are left behind as they should, those of others are
      untouched, and without owners nobody is watched any more. */
  lemma OwnerLeaves(steps: seq<Step>, w: World, owner: nat, ids: seq<int>, id: int)
    requires Run(NEW, steps, w) && CanStep(w, Detaching(owner, ids)) && id in w.r.entries
    ensures var e, r := w.r.entries[id], After(w, Detaching(owner, ids)).r;
      && r.owners == w.r.owners - {owner}
      && if e.owner == owner && !e.orphan then LeftBehind(e, r, id, r.owners != {} && w.r.life.state != Failed)
         else if r.owners != {} then Agree(w.r, r, id)
         else id in r.entries && r.entries[id] == e.(watches := 0)
  {
    hide Inv, Kept, DetachAll, LeftBehind, Agree, Halt;
    NewKeeps();
    RunKeeps(NEW, steps, w);
    KeptNow(w);
    var others, owners := OthersFinish(w.r, owner), w.r.owners - {owner};
    DetachAllLeaves(w.r, owner, others, ids, id, w.views, InFlight(w));
    DetachAllOwners(w.r, owners, owner, others, ids);
    var s := DetachAll(w.r, owner, others, ids);
    DetachEnds(w.r, s, owner, ids, id);
  }

  lemma KeptNow(w: World)
    requires Inv(w)
    ensures Kept(w.r, w.views, InFlight(w))
  {
  }

  lemma DetachEnds(r: Registry, s: Registry, owner: nat, ids: seq<int>, id: int)
    requires id in r.entries && s == DetachAll(r, owner, OthersFinish(r, owner), ids)
    requires DetachAll(r.(owners := r.owners - {owner}), owner, OthersFinish(r, owner), ids) == s.(owners := r.owners - {owner})
    ensures var e, t, others := r.entries[id], Detach(r, owner, ids), OthersFinish(r, owner);
      && t.owners == r.owners - {owner}
      && (LeftBehind(e, s, id, others) ==> LeftBehind(e, t, id, others))
      && (Agree(r, s, id) ==> if t.owners != {} then Agree(r, t, id) else id in t.entries && t.entries[id] == e.(watches := 0))
  {
    hide DetachAll, Abandons, Naming;
    var u := s.(owners := r.owners - {owner});
    if u.owners == {} {
      HaltLeaves(r.entries[id], s, Halt(u), id, OthersFinish(r, owner));
    } else {
      hide Halt;
      if LeftBehind(r.entries[id], s, id, OthersFinish(r, owner)) { StaysBehind(r.entries[id], s, u, id, OthersFinish(r, owner)); }
    }
  }

  /** The owner takes an envelope out of its box, live or retired, and it is counted
      as delivered or as dropped. */
  lemma PopTakes(r: Registry, id: int, deliver: bool)
    ensures var b, c := BoxIn(r, id), BoxIn(Pop(r, id, deliver), id);
      && (b.depth == 0 ==> c == b) && (b.depth > 0 ==> c.depth == b.depth - 1)
      && c.dequeued == b.dequeued + (if deliver && b.depth > 0 then 1 else 0)
      && c.dropped == b.dropped + (if !deliver && b.depth > 0 then 1 else 0)
  {
  }

  // Leases, creation and failure.

  /** A released lease takes its one count with it, and nothing else. */
  lemma ReleasedOnce(steps: seq<Step>, w: World, t: nat)
    requires Run(NEW, steps, w)
    ensures t in w.r.driverTokens ==> var r, id := w.r, w.r.driverTokens[t];
      && id in r.entries && r.entries[id].drivers > 0
      && ReleaseDriver(r, t) == r.(driverTokens := r.driverTokens - {t},
                                   entries := r.entries[id := r.entries[id].(drivers := r.entries[id].drivers - 1)])
    ensures t in w.r.watchTokens ==> var r, id := w.r, w.r.watchTokens[t];
      && id in r.entries && r.entries[id].watches > 0
      && ReleaseWatch(r, t) == r.(watchTokens := r.watchTokens - {t},
                                  entries := r.entries[id := r.entries[id].(watches := r.entries[id].watches - 1)])
  {
    NewKeeps();
    RunKeeps(NEW, steps, w);
    KeptNow(w);
    TokenCounts(w.r, t);
    hide Inv;
  }

  lemma TokenCounts(r: Registry, t: nat)
    requires Exact(r)
    ensures t in r.driverTokens ==> r.driverTokens[t] in r.entries && r.entries[r.driverTokens[t]].drivers > 0
    ensures t in r.watchTokens ==> r.watchTokens[t] in r.entries && r.entries[r.watchTokens[t]].watches > 0
  {
    if t in r.driverTokens { assert Balanced(r, r.driverTokens[t]) && t in Naming(r.driverTokens, r.driverTokens[t]); }
    if t in r.watchTokens { assert Balanced(r, r.watchTokens[t]) && t in Naming(r.watchTokens, r.watchTokens[t]); }
  }

  /** Only attaching and detaching change who the owners are. */
  lemma StepOwners(w: World, s: Step)
    requires CanStep(w, s)
    ensures var r, n := w.r, After(w, s).r;
      if s.Attaching? && r.life.state != Failed then n.nextOwner > r.nextOwner && n.owners == r.owners + {n.nextOwner}
      else n.nextOwner == r.nextOwner && n.owners == if s.Detaching? then r.owners - {s.owner} else r.owners
  {
    hide Terminate, Forget, Detach, RouteFirst, RouteSecond, AcquireDriver, AcquireWatch;
    match s {
      case Terminating(id) => ClearsSameOwners(w.r, id);
      case Forgetting(id) => ClearsSameOwners(w.r, id);
      case Detaching(owner, ids) => DetachOwnersOnly(w.r, owner, ids);
      case RouteOne => RouteSameOwners(w.r, w.pc.item, false, 0);
      case RouteTwo(k) => RouteSameOwners(w.r, w.pc.item, w.pc.item.client in w.pc.wanted, k);
      case Driving(id, spawned) => DemandSameOwners(w.r, id, spawned);
      case ViewWatch(v, spawned) => DemandSameOwners(w.r, w.views[v].client, spawned);
      case _ => OtherOwners(w, s);
    }
  }

  lemma OtherOwners(w: World, s: Step)
    requires CanStep(w, s) && !s.Terminating? && !s.Forgetting? && !s.Detaching? && !s.RouteOne? && !s.RouteTwo?
    requires !s.Driving? && !s.ViewWatch?
    ensures var r, n := w.r, After(w, s).r;
      if s.Attaching? && r.life.state != Failed then n.nextOwner > r.nextOwner && n.owners == r.owners + {n.nextOwner}
      else n.nextOwner == r.nextOwner && n.owners == r.owners
  {
    hide ErasePending, Start, Mute;
    if s.Consuming? || s.Handling? || s.OneShot? || s.Admitting? || s.Ending? { EntryOnly(w, s); }
  }

  lemma ClearsSameOwners(r: Registry, id: int)
    ensures Terminate(r, id).nextOwner == r.nextOwner && Terminate(r, id).owners == r.owners
    ensures Forget(r, id).nextOwner == r.nextOwner && Forget(r, id).owners == r.owners
  {
  }

  lemma RouteSameOwners(r: Registry, i: Item, wanted: bool, evicted: nat)
    ensures var s := RouteFirst(r, i); s.nextOwner == r.nextOwner && s.owners == r.owners
    ensures var s := RouteSecond(r, i, wanted, evicted); s.nextOwner == r.nextOwner && s.owners == r.owners
  {
    hide Retention, Arrive, ErasePending;
  }

  lemma DemandSameOwners(r: Registry, id: int, spawned: bool)
    ensures var s := AcquireDriver(r, id, spawned); s.nextOwner == r.nextOwner && s.owners == r.owners
    ensures var s := AcquireWatch(r, id, spawned); s.nextOwner == r.nextOwner && s.owners == r.owners
  {
    hide Launch, Watchable;
  }

  lemma {:induction false} DetachSameOwners(r: Registry, owner: nat, others: bool, ids: seq<int>)
    ensures var s := DetachAll(r, owner, others, ids); s.nextOwner == r.nextOwner && s.owners == r.owners
    decreases |ids|
  {
    if ids != [] { DetachSameOwners(r, owner, others, ids[..|ids| - 1]); }
  }

  lemma DetachOwnersOnly(r: Registry, owner: nat, ids: seq<int>)
    ensures var s := Detach(r, owner, ids); s.nextOwner == r.nextOwner && s.owners == r.owners - {owner}
  {
    DetachSameOwners(r.(owners := r.owners - {owner}), owner, OthersFinish(r, owner), ids);
    hide DetachAll;
  }

  lemma {:induction false} RunOwners(w: World, steps: seq<Step>, x: World)
    requires Run(w, steps, x) && forall o :: o in w.r.owners ==> o <= w.r.nextOwner
    ensures w.r.nextOwner <= x.r.nextOwner && forall o :: o in x.r.owners ==> o <= x.r.nextOwner
    ensures forall o :: o in x.r.owners ==> o in w.r.owners || w.r.nextOwner < o
    decreases |steps|
  {
    hide CanStep, After;
    if steps != [] {
      StepOwners(w, steps[0]);
      RunOwners(After(w, steps[0]), steps[1..], x);
    }
  }

  /** An owner that attaches gets a number nobody had before and is one of the owners
      until it detaches; once it has, no later owner is mistaken for it. */
  lemma OwnersFresh(before: seq<Step>, w: World, steps: seq<Step>, x: World, owner: nat)
    requires Run(NEW, before, w) && CanStep(w, Attaching)
    ensures w.r.life.state != Failed ==>
              var o := After(w, Attaching).r.nextOwner; o > w.r.nextOwner && After(w, Attaching).r.owners == w.r.owners + {o}
    ensures forall o :: o in w.r.owners ==> o <= w.r.nextOwner
    ensures owner !in w.r.owners && owner <= w.r.nextOwner && Run(w, steps, x) ==> owner !in x.r.owners
  {
    hide After, CanStep;
    RunOwners(NEW, before, w);
    StepOwners(w, Attaching);
    if Run(w, steps, x) { RunOwners(w, steps, x); }
  }

  /** A client is created exactly for a live owner and a positive identity that was
      never used; it can be subscribed, asks for nothing and its box is empty. */
  lemma CreatedFresh(r: Registry, owner: nat, id: int)
    ensures var s := Create(r, owner, id);
      if r.life.state != Failed && owner in r.owners && id > 0 && id !in r.known
      then && s == r.(known := r.known + {id}, entries := s.entries) && id in s.entries && s.entries - {id} == r.entries - {id}
           && s.entries[id].owner == owner && Subscribable(s, id) && !Demanding(s.entries[id])
           && s.entries[id].box.depth == 0 && !s.entries[id].box.orphan
           && (forall i: Item, wanted: bool :: i.request == 0 && !i.terminal && !wanted ==> !Wants(s.entries[id], i, wanted))
      else s == r
  {
  }

  lemma FailedNow(w: World)
    requires CanStep(w, Failing)
    ensures var r := After(w, Failing).r;
      && r.life.state == Failed && r.life.generation == w.r.life.generation
      && r.watchTokens == map[] && r.entries.Keys == w.r.entries.Keys
      && forall id :: id in r.entries ==> r.entries[id] == w.r.entries[id].(watches := 0, subGeneric := 0, subHandlers := 0)
  {
  }

  /** A failure is final: watches and subscriptions end with it, and in every later
      state there are no new owners, no new clients and no new worker. */
  lemma FailureIsFinal(before: seq<Step>, w: World, steps: seq<Step>, x: World, owner: nat, id: int)
    requires Run(NEW, before, w) && CanStep(w, Failing) && Run(After(w, Failing), steps, x)
    ensures var r := After(w, Failing).r;
      r.entries.Keys == w.r.entries.Keys && forall j :: j in r.entries ==>
        r.entries[j] == w.r.entries[j].(watches := 0, subGeneric := 0, subHandlers := 0)
    ensures x.r.life.state == Failed && x.r.life.generation == w.r.life.generation && x.r.watchTokens == map[]
    ensures After(x, Attaching) == x && After(x, Creating(owner, id)) == x
  {
    hide After, CanStep, Kept;
    NewKeeps();
    RunKeeps(NEW, before, w);
    StepKeeps(w, Failing);
    FailedNow(w);
    var y := After(w, Failing);
    RunKeeps(y, steps, x);
    var life := RunLife(y, steps, x);
    LifeRunSound(y.r.life, y.threads, life, x.r.life, x.threads);
    FailedStays(x, owner, id);
  }

  lemma FailedStays(x: World, owner: nat, id: int)
    requires Inv(x) && x.r.life.state == Failed
    ensures After(x, Attaching) == x && After(x, Creating(owner, id)) == x && x.r.watchTokens == map[]
  {
    hide Housed, Conserved, Subscribed;
  }
}
