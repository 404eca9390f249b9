/** Updates on their way to Lua callbacks: each update is a reference in the Lua
    reference table, handed from the deferred queue to the queue of a handler or
    a loop observer, to the poll selection and to a task, until it is released.
    Callbacks are references too. Any allocation on the way may fail. */
module EventScheduler {
  import opened Common
  import opened References

  // Serial delivery.

  /** History of a lane: the updates bound to it and those that became tasks, in
      order; `faulted` when an allocation failure lost one. */
  datatype Order = Order(bound: seq<nat>, started: seq<nat>, faulted: bool)

  /** An inactive, concurrent or closed lane has nothing queued. An open lane has
      its callback, a removed registration has not. An observer that is open or
      has its callback is the current one. */
  ghost predicate LaneOk(l: nat, v: Lane, loop: Option<nat>) {
    && (v.concurrent || !v.active || v.closed ==> v.queue == [])
    && (!v.closed ==> v.handler.Some?) && (!v.loop && v.closed ==> v.handler == None)
    && (v.loop && (!v.closed || v.handler.Some?) ==> loop == Some(l))
  }

  /** Updates become tasks in the order they were bound, none skipped. */
  ghost predicate InOrder(v: Lane, k: Order, enabled: bool) {
    !k.faulted ==> if !v.closed && enabled then k.bound == k.started + v.queue else k.started <= k.bound
  }

  ghost predicate Occupies(t: Task, l: nat) { t.lane == Some(l) && Unfinished(t) }

  /** A serial lane has at most one unfinished task, and is active then. */
  ghost predicate Serial(tasks: map<nat, Task>, lanes: map<nat, Lane>) {
    && (forall t :: t in tasks && tasks[t].lane.Some? ==> tasks[t].lane.value in lanes)
    && (forall t, l :: t in tasks && l in lanes && Occupies(tasks[t], l) && !lanes[l].concurrent ==> lanes[l].active)
    && (forall t, u, l :: (t in tasks && u in tasks && l in lanes && !lanes[l].concurrent
                           && Occupies(tasks[t], l) && Occupies(tasks[u], l)) ==> t == u)
  }

  ghost predicate Free(tasks: map<nat, Task>, l: nat) { forall t :: t in tasks ==> !Occupies(tasks[t], l) }

  /** The lane may take another task. */
  ghost predicate Vacant(tasks: map<nat, Task>, lanes: map<nat, Lane>, l: nat)
    requires l in lanes
  {
    lanes[l].concurrent || Free(tasks, l)
  }

  ghost predicate Extends(before: map<nat, Task>, after: map<nat, Task>) {
    forall t :: t in before ==> t in after && after[t] == before[t]
  }

  ghost predicate LanesOk(lanes: map<nat, Lane>, loop: Option<nat>, orders: map<nat, Order>, enabled: bool) {
    && lanes.Keys == orders.Keys
    && (forall l :: l in lanes ==> LaneOk(l, lanes[l], loop) && InOrder(lanes[l], orders[l], enabled))
    && (loop.Some? ==> loop.value in lanes && lanes[loop.value].loop)
  }

  /** A task holds its callback and its update exactly while it is pending. */
  predicate Whole(t: Task) {
    (t.status == Pending <==> t.update.Some?) && (t.update.Some? <==> t.callback.Some?)
  }

  /** Pending tasks wait in the ready queue, once each, with callback and update;
      one that a step is building or taking apart does not. */
  ghost predicate Lined(ready: seq<nat>, tasks: map<nat, Task>, building: Option<nat>) {
    && (forall t :: t in tasks && building != Some(t) ==> Whole(tasks[t]))
    && (forall i :: 0 <= i < |ready| ==> ready[i] in tasks && tasks[ready[i]].status == Pending && building != Some(ready[i]))
    && Distinct(ready)
    && (forall t :: t in tasks && tasks[t].status == Pending && building != Some(t) ==> t in ready)
    && (building.Some? ==> building.value in tasks && tasks[building.value].status == Pending)
  }

  lemma LinedBuilding(ready: seq<nat>, tasks: map<nat, Task>, t: nat, v: Task)
    requires Lined(ready, tasks, None) && t !in tasks && v.status == Pending
    ensures Lined(ready, tasks[t := v], Some(t))
  {
  }

  lemma LinedSame(ready: seq<nat>, tasks: map<nat, Task>, t: nat, v: Task)
    requires Lined(ready, tasks, Some(t)) && v.status == Pending
    ensures Lined(ready, tasks[t := v], Some(t))
  {
  }

  lemma LinedDone(ready: seq<nat>, tasks: map<nat, Task>, t: nat)
    requires Lined(ready, tasks, Some(t)) && Whole(tasks[t])
    ensures Lined(ready + [t], tasks, None)
  {
  }

  lemma LinedGone(ready: seq<nat>, tasks: map<nat, Task>, t: nat)
    requires Lined(ready, tasks, Some(t))
    ensures Lined(ready, tasks - {t}, None)
  {
  }

  lemma NumberedMore(tasks: map<nat, Task>, lanes: map<nat, Lane>, events: map<string, nat>, nextTask: nat, nextLane: nat, v: Task)
    requires Numbered(tasks, lanes, events, nextTask, nextLane)
    ensures Numbered(tasks[nextTask := v], lanes, events, nextTask + 1, nextLane) && nextTask !in tasks
  {
  }

  /** The front of the ready queue is taken out to be taken apart. */
  lemma LinedFront(ready: seq<nat>, tasks: map<nat, Task>)
    requires Lined(ready, tasks, None) && ready != []
    ensures Lined(ready[1..], tasks, Some(ready[0]))
  {
    forall t | t in tasks && tasks[t].status == Pending && t != ready[0] ensures t in ready[1..] {
      assert t in ready;
    }
  }

  lemma LinedSettled(ready: seq<nat>, tasks: map<nat, Task>, t: nat, v: Task)
    requires Lined(ready, tasks, Some(t)) && v.status != Pending && v.update == None && v.callback == None
    ensures Lined(ready, tasks[t := v], None)
  {
  }

  ghost predicate Numbered(tasks: map<nat, Task>, lanes: map<nat, Lane>, events: map<string, nat>, nextTask: nat, nextLane: nat) {
    && (forall t :: t in tasks ==> t < nextTask) && (forall l :: l in lanes ==> l < nextLane)
    && (forall n :: n in events ==> events[n] in lanes && !lanes[events[n]].loop)
  }

  /** Every reference ever made is live or was released, never both. */
  ghost predicate Counted(o: Owners, alive: set<nat>, released: set<nat>, created: nat) {
    && alive == o.Keys && alive !! released
    && (forall x :: x in alive || x in released ==> x < created)
    && (forall x: nat :: x < created ==> x in alive || x in released)
  }

  ghost predicate Grown(before: map<nat, Order>, after: map<nat, Order>) {
    forall l :: l in before ==> l in after && before[l].bound <= after[l].bound && before[l].started <= after[l].started
  }

  ghost predicate NewPending(tasks: map<nat, Task>, after: map<nat, Task>, l: nat) {
    exists t: nat, v: Task :: t !in tasks && v.lane == Some(l) && v.status == Pending && after == tasks[t := v]
  }

  /** One lane changes, its order with it, and it may get one new task. */
  lemma LaneStep(lanes: map<nat, Lane>, tasks: map<nat, Task>, loop: Option<nat>, orders: map<nat, Order>, enabled: bool,
        l: nat, v: Lane, k: Order, after: map<nat, Task>)
    requires LanesOk(lanes, loop, orders, enabled) && Serial(tasks, lanes) && l in lanes
    requires v.loop == lanes[l].loop && v.concurrent == lanes[l].concurrent
    requires LaneOk(l, v, loop) && InOrder(v, k, enabled) && (v.concurrent || v.active || Free(tasks, l))
    requires after == tasks || ((v.concurrent || (v.active && Free(tasks, l))) && NewPending(tasks, after, l))
    ensures LanesOk(lanes[l := v], loop, orders[l := k], enabled) && Serial(after, lanes[l := v])
  {
    LaneFlags(lanes, tasks, l, v);
    if after != tasks { TaskStarts(lanes[l := v], tasks, l, after); }
    hide Serial, LaneOk, InOrder, NewPending, Free;
  }

  lemma LaneFlags(lanes: map<nat, Lane>, tasks: map<nat, Task>, l: nat, v: Lane)
    requires Serial(tasks, lanes) && l in lanes && v.concurrent == lanes[l].concurrent
    requires v.concurrent || v.active || Free(tasks, l)
    ensures Serial(tasks, lanes[l := v])
  {
  }

  lemma TaskStarts(lanes: map<nat, Lane>, tasks: map<nat, Task>, l: nat, after: map<nat, Task>)
    requires Serial(tasks, lanes) && l in lanes && (lanes[l].concurrent || (lanes[l].active && Free(tasks, l)))
    requires NewPending(tasks, after, l)
    ensures Serial(after, lanes)
  {
  }

  /** A task that stops being unfinished, or starts running, occupies no more. */
  lemma StatusSerial(tasks: map<nat, Task>, lanes: map<nat, Lane>, t: nat, v: Task)
    requires Serial(tasks, lanes) && t in tasks && v.lane == tasks[t].lane && Unfinished(tasks[t])
    ensures Serial(tasks[t := v], lanes)
    ensures !Unfinished(v) && v.lane.Some? ==> v.lane.value in lanes && Vacant(tasks[t := v], lanes, v.lane.value)
  {
  }

  lemma LinedOther(ready: seq<nat>, tasks: map<nat, Task>, t: nat, v: Task)
    requires Lined(ready, tasks, None) && t in tasks && tasks[t].status != Pending
    requires v.status != Pending && v.update == None && v.callback == None
    ensures Lined(ready, tasks[t := v], None)
  {
  }

  lemma LinedErase(ready: seq<nat>, tasks: map<nat, Task>, t: nat)
    requires Lined(ready, tasks, None) && t in tasks && tasks[t].status != Pending
    ensures Lined(ready, tasks - {t}, None)
  {
  }

  lemma CountedSame(o: Owners, p: Owners, alive: set<nat>, released: set<nat>, created: nat)
    requires Counted(o, alive, released, created) && p.Keys == o.Keys
    ensures Counted(p, alive, released, created)
  {
  }

  lemma GrownTwice(a: map<nat, Order>, b: map<nat, Order>, c: map<nat, Order>)
    requires Grown(a, b) && Grown(b, c)
    ensures Grown(a, c)
  {
  }

  lemma SerialActive(tasks: map<nat, Task>, lanes: map<nat, Lane>, l: nat)
    requires Serial(tasks, lanes) && l in lanes
    ensures !lanes[l].concurrent && !lanes[l].active ==> Free(tasks, l)
  {
  }

  lemma AddLane(lanes: map<nat, Lane>, tasks: map<nat, Task>, loop: Option<nat>, orders: map<nat, Order>, enabled: bool,
        l: nat, v: Lane)
    requires LanesOk(lanes, loop, orders, enabled) && Serial(tasks, lanes) && l !in lanes
    requires !v.active && !v.closed && v.queue == [] && v.handler.Some?
    requires v.loop && loop.Some? ==> lanes[loop.value].closed && lanes[loop.value].handler == None
    ensures var more, news := lanes[l := v], orders[l := Order([], [], false)];
      && Serial(tasks, more) && Grown(orders, news) && LanesOk(more, if v.loop then Some(l) else loop, news, enabled)
  {
    AddLaneSerial(lanes, tasks, l, v);
    hide Serial, InOrder;
    var more, news, now := lanes[l := v], orders[l := Order([], [], false)], if v.loop then Some(l) else loop;
    forall m | m in more ensures LaneOk(m, more[m], now) && InOrder(more[m], news[m], enabled) {
      if m != l { assert LaneOk(m, lanes[m], loop) && InOrder(lanes[m], orders[m], enabled); } else { NewInOrder(v, enabled); }
    }
  }

  lemma NewInOrder(v: Lane, enabled: bool)
    requires v.queue == []
    ensures InOrder(v, Order([], [], false), enabled)
  {
  }

  lemma AddLaneSerial(lanes: map<nat, Lane>, tasks: map<nat, Task>, l: nat, v: Lane)
    requires Serial(tasks, lanes) && l !in lanes
    ensures Serial(tasks, lanes[l := v])
  {
  }

  /** Once events are off, nothing more has to start. */
  lemma Disabled(lanes: map<nat, Lane>, loop: Option<nat>, orders: map<nat, Order>, enabled: bool)
    requires LanesOk(lanes, loop, orders, enabled)
    ensures LanesOk(lanes, loop, orders, false)
  {
    forall l | l in lanes ensures InOrder(lanes[l], orders[l], false) { assert InOrder(lanes[l], orders[l], enabled); }
  }

  /** Without a current observer no loop lane is open. */
  lemma NoLoop(lanes: map<nat, Lane>, loop: Option<nat>, orders: map<nat, Order>, enabled: bool)
    requires LanesOk(lanes, loop, orders, enabled)
    requires loop.Some? ==> lanes[loop.value].closed && lanes[loop.value].handler == None
    ensures LanesOk(lanes, None, orders, enabled)
  {
  }

  lemma LaneOf(lanes: map<nat, Lane>, loop: Option<nat>, orders: map<nat, Order>, enabled: bool, l: nat)
    requires LanesOk(lanes, loop, orders, enabled) && l in lanes
    ensures l in orders && LaneOk(l, lanes[l], loop) && InOrder(lanes[l], orders[l], enabled)
  {
  }

  /** What becomes of a lane whose task is over and that starts nothing more. */
  lemma LaneRests(l: nat, v: Lane, k: Order, loop: Option<nat>, enabled: bool, faulted: bool)
    requires LaneOk(l, v, loop) && InOrder(v, k, enabled)
    requires faulted || v.closed || !enabled || v.queue == []
    ensures LaneOk(l, v.(active := false, queue := []), loop)
    ensures InOrder(v.(active := false, queue := []), k.(faulted := k.faulted || faulted), enabled)
  {
  }

  /** The oldest queued update becomes a task of an open lane. */
  lemma LaneAdvances(l: nat, v: Lane, k: Order, loop: Option<nat>, enabled: bool)
    requires LaneOk(l, v, loop) && InOrder(v, k, enabled) && v.queue != [] && !v.closed && enabled
    ensures LaneOk(l, v.(active := true, queue := v.queue[1..]), loop)
    ensures InOrder(v.(active := true, queue := v.queue[1..]), k.(started := k.started + [v.queue[0]]), enabled)
  {
  }

  /** A lane stops, perhaps without its callback, or withdraws what is queued. */
  lemma LaneCloses(l: nat, v: Lane, k: Order, loop: Option<nat>, enabled: bool)
    requires LaneOk(l, v, loop) && InOrder(v, k, enabled)
    ensures v.loop ==> LaneOk(l, v.(closed := true, queue := []), loop)
    ensures LaneOk(l, v.(closed := true, handler := None, queue := []), loop)
    ensures forall h :: InOrder(v.(closed := true, handler := h, queue := []), k, enabled)
    ensures !enabled || v.closed ==> LaneOk(l, v.(queue := []), loop) && InOrder(v.(queue := []), k, enabled)
  {
  }

  /** An update is bound: it waits in an active serial lane, becomes a task
      otherwise, or is lost to a failure. */
  lemma LaneReceives(l: nat, v: Lane, k: Order, loop: Option<nat>, enabled: bool, x: nat)
    requires LaneOk(l, v, loop) && !v.closed && (k.faulted || k.bound == k.started + v.queue)
    ensures v.active && !v.concurrent ==> LaneOk(l, v.(queue := v.queue + [x]), loop)
    ensures InOrder(v.(queue := v.queue + [x]), k.(bound := k.bound + [x]), enabled)
    ensures v.concurrent || !v.active ==> LaneOk(l, v.(active := true), loop) && LaneOk(l, v.(active := false), loop)
    ensures v.concurrent || !v.active ==> v.queue == []
    ensures forall active :: InOrder(v.(active := active), k.(bound := k.bound + [x], faulted := true), enabled)
    ensures v.queue == [] ==> forall active ::
              InOrder(v.(active := active), k.(bound := k.bound + [x], started := k.started + [x]), enabled)
  {
  }

  lemma LaneLoses(l: nat, v: Lane, k: Order, loop: Option<nat>, enabled: bool)
    requires LaneOk(l, v, loop) && InOrder(v, k, enabled) && v.queue != [] && !v.closed
    ensures LaneOk(l, v.(active := true, queue := v.queue[1..]), loop)
    ensures InOrder(v.(active := true, queue := v.queue[1..]), k.(faulted := true), enabled)
  {
  }

  /** The lane stays closed and empty, once it is. */
  predicate Quieter(v: Lane, w: Lane) {
    (v.closed ==> w.closed) && (v.queue == [] ==> w.queue == [])
  }

  /** The end of a task lets its lane start the next queued update; a loop callback
      may tell its observer to stop. */
  predicate Resumes(v: Lane, enabled: bool, stop: bool) {
    !v.concurrent && !v.closed && enabled && v.queue != [] && !(v.loop && stop)
  }

  /** The lane after a task when it starts nothing, for lack of updates or of memory. */
  function Rested(v: Lane, enabled: bool, stop: bool): Lane {
    if v.loop && (stop || v.closed || !enabled) then v.(closed := v.closed || stop, queue := [])
    else if v.concurrent then v
    else v.(active := false, queue := [], closed := v.closed || (v.loop && v.queue != []))
  }

  /** Which allocation of a task's creation throws: the state, the copy of the
      callback reference, or the place in the ready queue. */
  datatype Fault = NoFault | StateFault | CopyFault | ReadyFault

  /** The references made between two moments. */
  function Made(from: nat, to: nat): set<nat>
    decreases to - from
  {
    if from < to then {from} + Made(from + 1, to) else {}
  }

  lemma MadeMore(from: nat, to: nat)
    requires from < to
    ensures Made(from, to) == {from} + Made(from + 1, to)
  {
  }

  function Elements(q: seq<nat>): set<nat> { set x | x in q }

  lemma ElementsNone()
    ensures Elements([]) == {}
  {
  }

  lemma ElementsMore(q: seq<nat>, x: nat)
    ensures Elements(q + [x]) == Elements(q) + {x}
  {
  }

  /** What a slot has. */
  function Slot(o: Option<nat>): set<nat> { if o.Some? then {o.value} else {} }

  /** The deferred updates that are for one lane, in order. */
  function BoundTo(q: seq<Event>, events: map<string, nat>, l: nat): seq<nat> {
    if q == [] then []
    else
      var n := |q| - 1;
      BoundTo(q[..n], events, l) + if q[n].name in events && events[q[n].name] == l then [q[n].update] else []
  }

  lemma BoundToOne(e: Event, events: map<string, nat>)
    ensures forall l :: BoundTo([e], events, l) == if e.name in events && events[e.name] == l then [e.update] else []
  {
    assert [e][..0] == [];
  }

  /** Between two moments each open lane was bound its share of `q`, in order, and
      other lanes nothing; `clean` when no allocation failed. */
  ghost predicate HandedOut(lanes: map<nat, Lane>, orders: map<nat, Order>, after: map<nat, Lane>, later: map<nat, Order>,
        q: seq<Event>, events: map<string, nat>, clean: bool) {
    forall l :: l in lanes ==>
      && l in orders && l in after && l in later && after[l].closed == lanes[l].closed
      && later[l].bound == orders[l].bound + (if lanes[l].closed then [] else BoundTo(q, events, l))
      && (clean ==> later[l].faulted == orders[l].faulted)
  }

  lemma HandedNothing(lanes: map<nat, Lane>, loop: Option<nat>, orders: map<nat, Order>, enabled: bool, events: map<string, nat>, clean: bool)
    requires LanesOk(lanes, loop, orders, enabled)
    ensures HandedOut(lanes, orders, lanes, orders, [], events, clean)
  {
    hide LaneOk, InOrder;
  }

  lemma HandedMore(lanes: map<nat, Lane>, orders: map<nat, Order>, mid: map<nat, Lane>, meanwhile: map<nat, Order>,
        after: map<nat, Lane>, later: map<nat, Order>, q: seq<Event>, events: map<string, nat>, clean: bool)
    requires q != [] && HandedOut(lanes, orders, mid, meanwhile, q[..|q| - 1], events, clean)
    requires HandedOut(mid, meanwhile, after, later, [q[|q| - 1]], events, clean)
    ensures HandedOut(lanes, orders, after, later, q, events, clean)
  {
    hide BoundTo;
    BoundToLast(q, events);
  }

  lemma BoundToLast(q: seq<Event>, events: map<string, nat>)
    requires q != []
    ensures forall l :: BoundTo(q, events, l) == BoundTo(q[..|q| - 1], events, l) + BoundTo([q[|q| - 1]], events, l)
  {
    BoundToOne(q[|q| - 1], events);
  }

  lemma HandedAgain(lanes: map<nat, Lane>, orders: map<nat, Order>, mid: map<nat, Lane>, meanwhile: map<nat, Order>,
        after: map<nat, Lane>, later: map<nat, Order>, events: map<string, nat>, clean: bool)
    requires HandedOut(lanes, orders, mid, meanwhile, [], events, clean) && HandedOut(mid, meanwhile, after, later, [], events, clean)
    ensures HandedOut(lanes, orders, after, later, [], events, clean)
  {
  }

  function Chosen(o: Option<nat>): seq<nat> { if o.Some? then [o.value] else [] }

  /** How `selectPollUpdate` ends. */
  datatype Poll = Nothing | Value(update: nat) | Started(task: nat) | Threw

  /** What Lua code, the pump and the transport may call, in any order and
      nesting, with any allocation failing. */
  datatype Call =
    | Defer(name: string, rooted: bool, pushed: bool) | Drain(clean: bool) | RunNext(setup: bool, fault: Fault)
    | Finishing(task: nat, failed: bool, stop: bool, fault: Fault) | Losing(task: nat) | Retiring(task: nat)
    | On(name: string, concurrent: bool, rooted: bool, published: bool) | Off(name: string)
    | Loop(concurrent: bool, rooted: bool, pushed: bool, fault: Fault) | End
    | Observing(polling: bool, rooted: bool, pushed: bool, fault: Fault) | Polled(callback: bool, rooted: bool, fault: Fault)
    | Detaching(preserve: bool) | Clearing

  class EventScheduler {
    var alive: set<nat>                // the Lua reference table
    var created: nat
    var deferred: seq<Event>
    var events: map<string, nat>
    var lanes: map<nat, Lane>
    var loop: Option<nat>
    var selected: Option<nat>
    var tasks: map<nat, Task>
    var ready: seq<nat>
    var enabled: bool
    var nextLane: nat
    var nextTask: nat
    ghost var building: Option<nat>    // the task a step is building or taking apart
    ghost var owner: Owners
    ghost var released: set<nat>
    ghost var orders: map<nat, Order>

    ghost function Places(): Stores
      reads this`deferred, this`lanes, this`selected, this`tasks
    {
      Stores(deferred, lanes, selected, tasks)
    }

    /** Holds even while a step builds a task. */
    ghost predicate Kept()
      reads this`deferred, this`lanes, this`selected, this`tasks, this`owner, this`alive, this`released
      reads this`created, this`ready, this`events, this`nextTask, this`nextLane, this`building
    {
      && Owned(owner, Places()) && Counted(owner, alive, released, created)
      && Lined(ready, tasks, building) && Numbered(tasks, lanes, events, nextTask, nextLane)
    }

    /** Holds even while a step carries references in local variables. */
    ghost predicate Sane()
      reads this
    {
      Kept() && building == None && LanesOk(lanes, loop, orders, enabled) && Serial(tasks, lanes)
    }

    ghost predicate Valid()
      reads this
    {
      Sane() && HeldSet(owner) == {}
    }

    constructor ()
      ensures Valid()
    {
      alive, created, deferred, events, lanes, loop, selected := {}, 0, [], map[], map[], None, None;
      tasks, ready, enabled, nextLane, nextTask := map[], [], true, 0, 0;
      building, owner, released, orders := None, map[], {}, map[];
    }

    // The reference table.

    /** `createLuaReference`. */
    method Root(ok: bool) returns (x: Option<nat>)
      requires Kept()
      modifies this`alive, this`created, this`owner
      ensures Kept() && x.Some? == ok && created == old(created) + if ok then 1 else 0
      ensures ok ==> x.value == old(created) && x.value !in old(HeldSet(owner)) && x.value !in released
      ensures HeldSet(owner) == old(HeldSet(owner)) + Slot(x) && alive == old(alive) + Slot(x)
    {
      hide Owned, Lined, Numbered;
      if !ok { return None; }
      MoveIn(owner, Places(), created);
      alive, owner := alive + {created}, owner[created := Held];
      created := created + 1;
      return Some(created - 1);
    }

    /** `releaseLuaReference`: only what is live and held may be released. */
    method Release(x: nat)
      requires Kept() && x in HeldSet(owner)
      modifies this`alive, this`owner, this`released
      ensures Kept() && HeldSet(owner) == old(HeldSet(owner)) - {x}
      ensures x in old(alive) && alive == old(alive) - {x}
      ensures x !in old(released) && released == old(released) + {x}
    {
      hide Owned, Lined, Numbered;
      MoveOut(owner, Places(), x);
      alive, owner, released := alive - {x}, owner - {x}, released + {x};
    }

    /** What a handler or a local variable has is live. */
    lemma Live(x: nat)
      requires Kept()
      ensures x in HeldSet(owner) ==> x in alive
      ensures forall l :: l in lanes && lanes[l].handler.Some? ==> lanes[l].handler.value in alive
    {
      hide Lined, Numbered;
    }

    lemma Holding(x: nat)
      requires x in HeldSet(owner)
      ensures At(owner, x, Held)
    {
    }

    // Lanes.

    method PushLane(l: nat, x: nat)
      requires Kept() && x in HeldSet(owner) && l in lanes
      modifies this`lanes, this`owner
      ensures Kept() && lanes == old(lanes)[l := old(lanes)[l].(queue := old(lanes)[l].queue + [x])]
      ensures HeldSet(owner) == old(HeldSet(owner)) - {x}
    {
      hide Owned, Lined;
      PutQueued(owner, Places(), l, x, lanes[l].(queue := lanes[l].queue + [x]));
      CountedSame(owner, owner[x := Queued(l)], alive, released, created);
      lanes, owner := lanes[l := lanes[l].(queue := lanes[l].queue + [x])], owner[x := Queued(l)];
    }

    method PopLane(l: nat) returns (x: nat)
      requires Kept() && l in lanes && lanes[l].queue != []
      modifies this`lanes, this`owner
      ensures Kept() && lanes == old(lanes)[l := old(lanes)[l].(queue := old(lanes)[l].queue[1..])]
      ensures x == old(lanes)[l].queue[0] && HeldSet(owner) == old(HeldSet(owner)) + {x} && x !in old(HeldSet(owner))
    {
      hide Owned, Lined;
      TakeQueued(owner, Places(), l, lanes[l].(queue := lanes[l].queue[1..]));
      x := lanes[l].queue[0];
      CountedSame(owner, owner[x := Held], alive, released, created);
      lanes, owner := lanes[l := lanes[l].(queue := lanes[l].queue[1..])], owner[x := Held];
    }

    /** `discardQueuedEvents` and `discardQueuedLoopUpdates`. */
    method Discard(l: nat)
      requires Kept() && l in lanes
      modifies this`lanes, this`owner, this`alive, this`released
      ensures Kept() && lanes == old(lanes)[l := old(lanes)[l].(queue := [])] && HeldSet(owner) == old(HeldSet(owner))
      ensures released == old(released) + Elements(old(lanes)[l].queue)
    {
      hide Kept, HeldSet, Elements, Slot;
      ghost var given: seq<nat> := [];
      ElementsNone();
      while lanes[l].queue != []
        invariant Kept() && l in lanes && HeldSet(owner) == old(HeldSet(owner))
        invariant lanes == old(lanes)[l := old(lanes)[l].(queue := lanes[l].queue)]
        invariant old(lanes)[l].queue == given + lanes[l].queue
        invariant released == old(released) + Elements(given)
        decreases |lanes[l].queue|
      {
        var x := PopLane(l);
        ElementsMore(given, x);
        given := given + [x];
        Release(x);
      }
      assert given == old(lanes)[l].queue;
    }

    method SetFlags(l: nat, active: bool, closed: bool)
      requires Kept() && l in lanes
      modifies this`lanes
      ensures Kept() && lanes == old(lanes)[l := old(lanes)[l].(active := active, closed := closed)]
    {
      hide Owned, Lined, Counted;
      SetLane(owner, Places(), l, lanes[l].(active := active, closed := closed));
      lanes := lanes[l := lanes[l].(active := active, closed := closed)];
    }

    /** The callback of a lane is released, if it still has one. */
    method DropHandler(l: nat)
      requires Kept() && l in lanes
      modifies this`lanes, this`owner, this`alive, this`released
      ensures Kept() && lanes == old(lanes)[l := old(lanes)[l].(handler := None)] && HeldSet(owner) == old(HeldSet(owner))
      ensures released == old(released) + Slot(old(lanes)[l].handler) && alive == old(alive) - Slot(old(lanes)[l].handler)
    {
      hide Owned, Lined;
      if lanes[l].handler == None { return; }
      var v := lanes[l].(handler := None);
      TakeHandler(owner, Places(), l, v);
      var x := lanes[l].handler.value;
      CountedSame(owner, owner[x := Held], alive, released, created);
      lanes, owner := lanes[l := v], owner[x := Held];
      Release(x);
    }

    // The steps of building a task. Each may throw.

    /** `createState`: nothing is published when it throws. */
    method CreateState(lane: Option<nat>, fails: bool) returns (state: Option<nat>)
      requires Kept() && building == None
      modifies this`tasks, this`nextTask, this`building
      ensures Kept() && state.Some? == !fails && building == state && old(nextTask) !in old(tasks)
      ensures tasks == if fails then old(tasks) else old(tasks)[old(nextTask) := Task(lane, None, None, Pending)]
      ensures !fails ==> state.value == old(nextTask)
    {
      hide Owned, Lined, Counted;
      NumberedMore(tasks, lanes, events, nextTask, nextLane, Task(lane, None, None, Pending));
      if fails { return None; }
      SetTask(owner, Places(), nextTask, Task(lane, None, None, Pending));
      LinedBuilding(ready, tasks, nextTask, Task(lane, None, None, Pending));
      tasks := tasks[nextTask := Task(lane, None, None, Pending)];
      building, nextTask := Some(nextTask), nextTask + 1;
      return Some(nextTask - 1);
    }

    /** `copyLuaReference` into the callback slot of the new state. */
    method CopyCallback(t: nat, source: nat, fails: bool) returns (threw: bool)
      requires Kept() && building == Some(t) && t in tasks && tasks[t].callback == None && tasks[t].status == Pending
      requires source in alive
      modifies this`tasks, this`alive, this`created, this`owner
      ensures Kept() && threw == fails && HeldSet(owner) == old(HeldSet(owner)) && old(created) !in released && old(created) !in old(alive)
      ensures if threw then tasks == old(tasks) && alive == old(alive) && created == old(created)
              else tasks == old(tasks)[t := old(tasks)[t].(callback := Some(old(created)))]
                   && alive == old(alive) + {old(created)} && created == old(created) + 1
    {
      hide Owned, Lined, Numbered;
      if fails { return true; }
      var x := Root(true);
      PutCopied(owner, Places(), t, x.value);
      LinedSame(ready, tasks, t, tasks[t].(callback := x));
      tasks, owner := tasks[t := tasks[t].(callback := x)], owner[x.value := Copied(t)];
      assert Numbered(tasks, lanes, events, nextTask, nextLane) by { NumberedSame(t, old(tasks)); }
      return false;
    }

    lemma NumberedSame(t: nat, before: map<nat, Task>)
      requires Numbered(before, lanes, events, nextTask, nextLane) && tasks.Keys <= before.Keys
      ensures Numbered(tasks, lanes, events, nextTask, nextLane)
    {
    }

    /** The response slot of the new state takes over the update. */
    method SetResponse(t: nat, x: nat)
      requires Kept() && building == Some(t) && t in tasks && tasks[t].update == None && tasks[t].status == Pending
      requires x in HeldSet(owner)
      modifies this`tasks, this`owner
      ensures Kept() && HeldSet(owner) == old(HeldSet(owner)) - {x}
      ensures tasks == old(tasks)[t := old(tasks)[t].(update := Some(x))]
    {
      hide Owned, Lined, Numbered;
      PutGiven(owner, Places(), t, x);
      LinedSame(ready, tasks, t, tasks[t].(update := Some(x)));
      CountedSame(owner, owner[x := Given(t)], alive, released, created);
      tasks, owner := tasks[t := tasks[t].(update := Some(x))], owner[x := Given(t)];
      NumberedSame(t, old(tasks));
    }

    method DropCallback(t: nat)
      requires Kept() && building == Some(t) && t in tasks && tasks[t].status == Pending
      modifies this`tasks, this`owner, this`alive, this`released
      ensures Kept() && HeldSet(owner) == old(HeldSet(owner)) && tasks == old(tasks)[t := old(tasks)[t].(callback := None)]
      ensures released == old(released) + Slot(old(tasks)[t].callback) && alive == old(alive) - Slot(old(tasks)[t].callback)
    {
      hide Owned, Lined, Numbered;
      if tasks[t].callback == None { return; }
      var x := tasks[t].callback.value;
      TakeCopied(owner, Places(), t);
      LinedSame(ready, tasks, t, tasks[t].(callback := None));
      CountedSame(owner, owner[x := Held], alive, released, created);
      tasks, owner := tasks[t := tasks[t].(callback := None)], owner[x := Held];
      NumberedSame(t, old(tasks));
      Release(x);
    }

    method DropResponse(t: nat)
      requires Kept() && building == Some(t) && t in tasks && tasks[t].status == Pending
      modifies this`tasks, this`owner, this`alive, this`released
      ensures Kept() && HeldSet(owner) == old(HeldSet(owner)) && tasks == old(tasks)[t := old(tasks)[t].(update := None)]
      ensures released == old(released) + Slot(old(tasks)[t].update) && alive == old(alive) - Slot(old(tasks)[t].update)
    {
      hide Owned, Lined, Numbered;
      if tasks[t].update == None { return; }
      var x := tasks[t].update.value;
      TakeGiven(owner, Places(), t);
      LinedSame(ready, tasks, t, tasks[t].(update := None));
      CountedSame(owner, owner[x := Held], alive, released, created);
      tasks, owner := tasks[t := tasks[t].(update := None)], owner[x := Held];
      NumberedSame(t, old(tasks));
      Release(x);
    }

    /** `releaseLuaReferences` of a state. */
    method ReleaseSlots(t: nat)
      requires Kept() && building == Some(t) && t in tasks && tasks[t].status == Pending
      modifies this`tasks, this`owner, this`alive, this`released
      ensures Kept() && HeldSet(owner) == old(HeldSet(owner))
      ensures tasks == old(tasks)[t := Task(old(tasks)[t].lane, None, None, Pending)]
      ensures var refs := Slot(old(tasks)[t].callback) + Slot(old(tasks)[t].update);
        released == old(released) + refs && alive == old(alive) - refs
    {
      hide Kept, HeldSet, Slot;
      DropCallback(t);
      DropResponse(t);
    }

    /** `rollbackTaskCreation`: the state goes, with whatever it already owns. */
    method Rollback(t: nat)
      requires Kept() && building == Some(t) && t in tasks && tasks[t].status == Pending
      modifies this`tasks, this`owner, this`alive, this`released, this`building
      ensures Kept() && building == None && HeldSet(owner) == old(HeldSet(owner)) && tasks == old(tasks) - {t}
      ensures var refs := Slot(old(tasks)[t].callback) + Slot(old(tasks)[t].update);
        released == old(released) + refs && alive == old(alive) - refs
    {
      hide Owned, Lined, Counted, Numbered, HeldSet, Slot;
      ReleaseSlots(t);
      EraseTask(owner, Places(), t);
      LinedGone(ready, tasks, t);
      ghost var before := tasks;
      tasks, building := tasks - {t}, None;
      NumberedSame(t, before);
    }

    /** `withdrawTaskState`: the update is still in the local variable or already
        in the response slot. */
    method Withdraw(state: Option<nat>, x: nat)
      requires Kept() && building == state && (state.Some? ==> state.value in tasks && tasks[state.value].status == Pending)
      requires if state.Some? && tasks[state.value].update.Some? then tasks[state.value].update == Some(x) else x in HeldSet(owner)
      modifies this`tasks, this`owner, this`alive, this`released, this`building
      ensures Kept() && building == None && tasks == old(tasks) - Slot(state)
      ensures HeldSet(owner) == if state.Some? && old(tasks)[state.value].update.Some? then old(HeldSet(owner)) else old(HeldSet(owner)) - {x}
      ensures var refs := {x} + if state.Some? then Slot(old(tasks)[state.value].callback) else {};
        released == old(released) + refs && alive == old(alive) - refs
    {
      hide Kept, HeldSet;
      if state.Some? {
        if tasks[state.value].update == None { SetResponse(state.value, x); }
        Rollback(state.value);
      } else {
        Release(x);
      }
    }

    method PushReady(t: nat)
      requires Kept() && building == Some(t) && t in tasks && Whole(tasks[t])
      modifies this`ready, this`building
      ensures Kept() && building == None && ready == old(ready) + [t]
    {
      hide Owned, Counted, Numbered;
      LinedDone(ready, tasks, t);
      ready, building := ready + [t], None;
    }

    // Creating tasks.

    /** `createEventTask`: a complete state that is not yet ready, or nothing of it
        is left. */
    method CreateEventTask(l: nat, x: nat, fault: Fault) returns (state: Option<nat>)
      requires Kept() && building == None && x in HeldSet(owner)
      requires l in lanes && lanes[l].handler.Some? && lanes[l].handler.value in alive
      modifies this`tasks, this`nextTask, this`owner, this`alive, this`released, this`created, this`building
      ensures Kept() && building == state && HeldSet(owner) == old(HeldSet(owner)) - {x}
      ensures state.Some? == (fault == NoFault || fault == ReadyFault) && old(nextTask) !in old(tasks) && old(created) !in old(alive)
      ensures state.Some? ==> state.value == old(nextTask) && created == old(created) + 1 && released == old(released)
                              && tasks == old(tasks)[old(nextTask) := Task(Some(l), Some(old(created)), Some(x), Pending)]
                              && alive == old(alive) + {old(created)}
      ensures state == None ==> tasks == old(tasks) && created == old(created)
                                && alive == old(alive) - {x} && released == old(released) + {x}
    {
      hide Kept, HeldSet;
      state := CreateState(Some(l), fault == StateFault);
      Fresh();
      if state == None {
        Withdraw(state, x);
        return None;
      }
      var threw := CopyCallback(state.value, lanes[l].handler.value, fault == CopyFault);
      if threw {
        Withdraw(state, x);
        assert tasks == old(tasks);
        return None;
      }
      SetResponse(state.value, x);
    }

    /** The next reference is none that is live. */
    lemma Fresh()
      requires Kept()
      ensures created !in alive && created !in released
    {
    }

    /** How its callers use it: a state that finds no place in the ready queue is
        rolled back there. */
    method ScheduleEvent(l: nat, x: nat, fault: Fault) returns (made: bool)
      requires Kept() && building == None && x in HeldSet(owner)
      requires l in lanes && lanes[l].handler.Some? && lanes[l].handler.value in alive
      modifies this`tasks, this`ready, this`nextTask, this`owner, this`alive, this`released, this`created, this`building
      ensures Kept() && building == None && HeldSet(owner) == old(HeldSet(owner)) - {x}
      ensures made == (fault == NoFault) && old(nextTask) !in old(tasks)
      ensures made ==> created == old(created) + 1 && released == old(released) && alive == old(alive) + {old(created)}
                       && tasks == old(tasks)[old(nextTask) := Task(Some(l), Some(old(created)), Some(x), Pending)]
                       && ready == old(ready) + [old(nextTask)]
      ensures !made ==> tasks == old(tasks) && ready == old(ready) && alive == old(alive) - {x} && created >= old(created)
                        && released == old(released) + {x} + Made(old(created), created)
    {
      hide Kept, HeldSet;
      var next := CreateEventTask(l, x, fault);
      if next.Some? && fault != ReadyFault {
        PushReady(next.value);
        return true;
      }
      if next.Some? {
        Rollback(next.value);
        assert tasks == old(tasks);
        assert Made(old(created), created) == {old(created)};
      }
      return false;
    }

    /** `createUpdateTask`, for the current observer or for a poll: here a place
        in the ready queue is part of the creation. */
    method CreateUpdateTask(lane: Option<nat>, source: nat, x: nat, fault: Fault) returns (made: bool)
      requires Kept() && building == None && x in HeldSet(owner) && source in alive && (lane.Some? ==> lane == loop)
      modifies this`tasks, this`ready, this`nextTask, this`owner, this`alive, this`released, this`created, this`building
      ensures Kept() && building == None && HeldSet(owner) == old(HeldSet(owner)) - {x}
      ensures made == (fault == NoFault) && old(nextTask) !in old(tasks)
      ensures made ==> created == old(created) + 1 && released == old(released) && alive == old(alive) + {old(created)}
                       && tasks == old(tasks)[old(nextTask) := Task(lane, Some(old(created)), Some(x), Pending)]
                       && ready == old(ready) + [old(nextTask)]
      ensures !made ==> tasks == old(tasks) && ready == old(ready) && alive == old(alive) - {x} && created >= old(created)
                        && released == old(released) + {x} + Made(old(created), created)
    {
      hide Kept, HeldSet;
      Fresh();
      var state := CreateState(lane, fault == StateFault);
      if state == None {
        Withdraw(state, x);
        return false;
      }
      var threw := CopyCallback(state.value, source, fault == CopyFault);
      if threw {
        Withdraw(state, x);
        assert tasks == old(tasks);
        return false;
      }
      SetResponse(state.value, x);
      if fault == ReadyFault {
        Withdraw(state, x);
        assert tasks == old(tasks);
        assert Made(old(created), created) == {old(created)};
        return false;
      }
      PushReady(state.value);
      return true;
    }

    /** A task for an update of an open lane. */
    method Schedule(l: nat, x: nat, fault: Fault) returns (made: bool)
      requires Kept() && building == None && x in HeldSet(owner) && l in lanes && lanes[l].handler.Some?
      requires lanes[l].loop ==> loop == Some(l)
      modifies this`tasks, this`ready, this`nextTask, this`owner, this`alive, this`released, this`created, this`building
      ensures Kept() && building == None && HeldSet(owner) == old(HeldSet(owner)) - {x}
      ensures made == (fault == NoFault) && old(nextTask) !in old(tasks)
      ensures made ==> tasks == old(tasks)[old(nextTask) := Task(Some(l), Some(old(created)), Some(x), Pending)]
                       && ready == old(ready) + [old(nextTask)] && alive == old(alive) + {old(created)} && released == old(released)
      ensures !made ==> tasks == old(tasks) && ready == old(ready) && alive == old(alive) - {x} && created >= old(created)
                        && released == old(released) + {x} + Made(old(created), created)
    {
      hide Kept, HeldSet, Made;
      Live(x);
      if lanes[l].loop {
        made := CreateUpdateTask(Some(l), lanes[l].handler.value, x, fault);
      } else {
        made := ScheduleEvent(l, x, fault);
      }
    }

    // Handlers.

    lemma OpenLane(l: nat)
      requires LanesOk(lanes, loop, orders, enabled) && l in lanes && !lanes[l].closed
      ensures lanes[l].handler.Some? && (lanes[l].loop ==> loop == Some(l)) && l in orders
    {
      LaneOf(lanes, loop, orders, enabled, l);
    }

    /** The flag is set, and nothing stays queued. */
    method Unstart(l: nat, active: bool)
      requires Kept() && l in lanes
      modifies this`lanes, this`owner, this`alive, this`released
      ensures Kept() && lanes == old(lanes)[l := old(lanes)[l].(active := active, queue := [])]
      ensures HeldSet(owner) == old(HeldSet(owner)) && old(released) <= released
    {
      hide Kept, HeldSet, Elements;
      SetFlags(l, active, lanes[l].closed);
      Discard(l);
    }

    /** One lane has changed, with its order and perhaps one new task. */
    lemma LaneChanged(before: map<nat, Lane>, earlier: map<nat, Task>, past: map<nat, Order>, l: nat)
      requires l in before && l in lanes && lanes == before[l := lanes[l]]
      requires l in past && l in orders && orders == past[l := orders[l]]
      requires LanesOk(before, loop, past, enabled) && Serial(earlier, before)
      requires lanes[l].loop == before[l].loop && lanes[l].concurrent == before[l].concurrent
      requires LaneOk(l, lanes[l], loop) && InOrder(lanes[l], orders[l], enabled)
      requires lanes[l].concurrent || lanes[l].active || Free(earlier, l)
      requires tasks == earlier || ((lanes[l].concurrent || (lanes[l].active && Free(earlier, l))) && NewPending(earlier, tasks, l))
      requires past[l].bound <= orders[l].bound && past[l].started <= orders[l].started
      ensures LanesOk(lanes, loop, orders, enabled) && Serial(tasks, lanes) && Grown(past, orders)
    {
      hide LanesOk, Serial, LaneOk, InOrder, Free, NewPending;
      LaneStep(before, earlier, loop, past, enabled, l, lanes[l], orders[l], tasks);
    }

    lemma IsNewPending(before: map<nat, Task>, l: nat, t: nat)
      requires t !in before && t in tasks && tasks == before[t := tasks[t]] && tasks[t].lane == Some(l) && tasks[t].status == Pending
      ensures NewPending(before, tasks, l)
    {
    }

    /** The lane rests with nothing queued; `faulted` when that loses updates. */
    method Rest(l: nat, faulted: bool)
      requires Sane() && l in lanes && (lanes[l].concurrent || Free(tasks, l))
      requires faulted || lanes[l].closed || !enabled || lanes[l].queue == []
      modifies this`lanes, this`owner, this`alive, this`released, this`orders
      ensures Sane() && HeldSet(owner) == old(HeldSet(owner)) && Grown(old(orders), orders)
      ensures lanes == old(lanes)[l := old(lanes)[l].(active := false, queue := [])]
    {
      hide Kept, HeldSet, LanesOk, Serial, LaneOk, InOrder, Free, Grown, NewPending, Elements;
      LaneOf(lanes, loop, orders, enabled, l);
      LaneRests(l, lanes[l], orders[l], loop, enabled, faulted);
      Unstart(l, false);
      orders := orders[l := orders[l].(faulted := orders[l].faulted || faulted)];
      LaneChanged(old(lanes), tasks, old(orders), l);
    }

    /** The oldest queued update becomes a task of an idle open lane; when that
        fails, the update is gone. */
    method Advance(l: nat, fault: Fault) returns (made: bool)
      requires Sane() && l in lanes && !lanes[l].concurrent && Free(tasks, l)
      requires !lanes[l].closed && enabled && lanes[l].queue != []
      modifies this`lanes, this`tasks, this`ready, this`nextTask, this`owner, this`alive, this`released, this`created
      modifies this`building, this`orders
      ensures Sane() && HeldSet(owner) == old(HeldSet(owner)) && Grown(old(orders), orders)
      ensures made == (fault == NoFault) && Extends(old(tasks), tasks) && (!made ==> tasks == old(tasks) && ready == old(ready))
      ensures made ==> old(nextTask) !in old(tasks) && ready == old(ready) + [old(nextTask)]
      ensures made ==> tasks == old(tasks)[old(nextTask) := Task(Some(l), Some(old(created)), Some(old(lanes)[l].queue[0]), Pending)]
      ensures lanes == old(lanes)[l := old(lanes)[l].(active := true, queue := old(lanes)[l].queue[1..])]
      ensures l in orders && orders == old(orders)[l := orders[l]] && orders[l].faulted == (old(orders)[l].faulted || !made)
      ensures made ==> orders[l].started == old(orders)[l].started + [old(lanes)[l].queue[0]]
    {
      hide Kept, HeldSet, LanesOk, Serial, LaneOk, InOrder, Free, Grown, NewPending, Elements;
      OpenLane(l);
      LaneOf(lanes, loop, orders, enabled, l);
      LaneAdvances(l, lanes[l], orders[l], loop, enabled);
      var x := PopLane(l);
      SetFlags(l, true, lanes[l].closed);
      made := Schedule(l, x, fault);
      if made {
        orders := orders[l := orders[l].(started := orders[l].started + [x])];
        IsNewPending(old(tasks), l, old(nextTask));
      } else {
        LaneLoses(l, old(lanes)[l], orders[l], loop, enabled);
        orders := orders[l := orders[l].(faulted := true)];
      }
      LaneChanged(old(lanes), old(tasks), old(orders), l);
    }

    /** What the end of a task did for its lane: the oldest queued update is the next
        task, or the lane rests. `base` and `queue` are tasks and ready queue before. */
    twostate predicate WentOn(lane: Option<nat>, base: map<nat, Task>, queue: seq<nat>, stop: bool, fault: Fault)
      reads this
    {
      if lane == None then lanes == old(lanes) && tasks == base && ready == queue
      else lane.value in old(lanes) && lane.value in old(orders) && LaneWentOn(lane.value, base, queue, stop, fault)
    }

    twostate predicate LaneWentOn(l: nat, base: map<nat, Task>, queue: seq<nat>, stop: bool, fault: Fault)
      requires l in old(lanes) && l in old(orders)
      reads this
    {
      var v := old(lanes)[l];
      if Resumes(v, old(enabled), stop) && fault == NoFault
      then && lanes == old(lanes)[l := v.(active := true, queue := v.queue[1..])]
           && old(nextTask) !in base && ready == queue + [old(nextTask)]
           && tasks == base[old(nextTask) := Task(Some(l), Some(old(created)), Some(v.queue[0]), Pending)]
           && l in orders && orders == old(orders)[l := orders[l]] && orders[l].started == old(orders)[l].started + [v.queue[0]]
      else lanes == old(lanes)[l := Rested(v, old(enabled), stop)] && tasks == base && ready == queue
    }

    /** `finishSerializedEvent`: the next queued update becomes a task. */
    method FinishEvent(l: nat, fault: Fault)
      requires Sane() && l in lanes && !lanes[l].loop && (!lanes[l].concurrent ==> Free(tasks, l))
      modifies this`lanes, this`tasks, this`ready, this`nextTask, this`owner, this`alive, this`released, this`created
      modifies this`building, this`orders
      ensures Sane() && HeldSet(owner) == old(HeldSet(owner)) && Grown(old(orders), orders) && Extends(old(tasks), tasks)
      ensures forall stop :: WentOn(Some(l), old(tasks), old(ready), stop, fault)
    {
      hide Kept, HeldSet, LanesOk, Serial, InOrder, LaneOk;
      LaneOf(lanes, loop, orders, enabled, l);
      if lanes[l].concurrent { return; }
      if lanes[l].closed || !enabled || lanes[l].queue == [] {
        Rest(l, false);
        return;
      }
      var made := Advance(l, fault);
      if !made {
        ghost var before := orders;
        Rest(l, true);
        GrownTwice(old(orders), before, orders);
      }
    }

    /** `requestLoopStop`. */
    method Close(l: nat)
      requires Sane() && l in lanes && lanes[l].loop
      modifies this`lanes, this`owner, this`alive, this`released
      ensures Sane() && HeldSet(owner) == old(HeldSet(owner))
      ensures lanes == old(lanes)[l := old(lanes)[l].(closed := true, queue := [])]
    {
      hide Kept, HeldSet, LanesOk, Serial, LaneOk, InOrder, Grown, NewPending, Free, Elements;
      LaneOf(lanes, loop, orders, enabled, l);
      LaneCloses(l, lanes[l], orders[l], loop, enabled);
      SerialActive(tasks, lanes, l);
      SetFlags(l, lanes[l].active, true);
      Discard(l);
      LaneChanged(old(lanes), tasks, orders, l);
    }

    /** `releaseEventRegistration`, and for an observer `requestLoopStop` with the
        release of its callback. */
    method Retract(l: nat)
      requires Sane() && l in lanes
      modifies this`lanes, this`owner, this`alive, this`released
      ensures Sane() && HeldSet(owner) == old(HeldSet(owner))
      ensures lanes == old(lanes)[l := old(lanes)[l].(closed := true, handler := None, queue := [])]
      ensures released == old(released) + Slot(old(lanes)[l].handler) + Elements(old(lanes)[l].queue)
    {
      hide Kept, HeldSet, LanesOk, Serial, LaneOk, InOrder, Grown, NewPending, Free, Elements;
      LaneOf(lanes, loop, orders, enabled, l);
      LaneCloses(l, lanes[l], orders[l], loop, enabled);
      SerialActive(tasks, lanes, l);
      DropHandler(l);
      Discard(l);
      SetFlags(l, lanes[l].active, true);
      LaneChanged(old(lanes), tasks, orders, l);
    }

    /** A closed lane, or any when events are off, withdraws what is queued. */
    method DrainLane(l: nat)
      requires Sane() && l in lanes && (lanes[l].closed || !enabled)
      modifies this`lanes, this`owner, this`alive, this`released
      ensures Sane() && HeldSet(owner) == old(HeldSet(owner)) && lanes == old(lanes)[l := old(lanes)[l].(queue := [])]
    {
      hide Kept, HeldSet, LanesOk, Serial, LaneOk, InOrder, Grown, NewPending, Free, Elements;
      LaneOf(lanes, loop, orders, enabled, l);
      LaneCloses(l, lanes[l], orders[l], loop, enabled);
      SerialActive(tasks, lanes, l);
      Discard(l);
      LaneChanged(old(lanes), tasks, orders, l);
    }

    /** `finishLoopTask`: a result of false and a failure stop the observer. */
    method FinishLoop(l: nat, stop: bool, fault: Fault)
      requires Sane() && l in lanes && lanes[l].loop && (!lanes[l].concurrent ==> Free(tasks, l))
      modifies this`lanes, this`tasks, this`ready, this`nextTask, this`owner, this`alive, this`released, this`created
      modifies this`building, this`orders
      ensures Sane() && HeldSet(owner) == old(HeldSet(owner)) && Grown(old(orders), orders) && Extends(old(tasks), tasks)
      ensures WentOn(Some(l), old(tasks), old(ready), stop, fault)
    {
      hide Kept, HeldSet, LanesOk, Serial, LaneOk, InOrder, Grown, Extends;
      LaneOf(lanes, loop, orders, enabled, l);
      Unchanged();
      if stop { Close(l); }
      if lanes[l].closed || !enabled {
        DrainLane(l);
      } else if lanes[l].concurrent {
        return;
      } else if lanes[l].queue == [] {
        Rest(l, false);
      } else {
        var made := Advance(l, fault);
        if !made { StopAfterFault(l, old(orders)); }
      }
    }

    lemma Unchanged()
      ensures Grown(orders, orders) && Extends(tasks, tasks)
    {
    }

    /** `scheduleNextLoopTask` without a task: nothing would drain the queue. */
    method StopAfterFault(l: nat, ghost first: map<nat, Order>)
      requires Sane() && l in lanes && lanes[l].loop && Free(tasks, l) && Grown(first, orders)
      modifies this`lanes, this`owner, this`alive, this`released, this`orders
      ensures Sane() && HeldSet(owner) == old(HeldSet(owner)) && Grown(first, orders)
      ensures lanes == old(lanes)[l := old(lanes)[l].(active := false, closed := true, queue := [])]
    {
      hide Kept, HeldSet, LanesOk, Serial, LaneOk, InOrder, Grown;
      Rest(l, true);
      GrownTwice(first, old(orders), orders);
      Close(l);
    }

    /** The lane goes active and a task is made, or everything is undone. */
    method Launch(l: nat, x: nat, fault: Fault) returns (made: bool)
      requires Kept() && building == None && x in HeldSet(owner) && l in lanes && lanes[l].queue == []
      requires lanes[l].handler.Some? && (lanes[l].loop ==> loop == Some(l))
      modifies this`lanes, this`tasks, this`ready, this`nextTask, this`owner, this`alive, this`released, this`created, this`building
      ensures Kept() && building == None && HeldSet(owner) == old(HeldSet(owner)) - {x} && made == (fault == NoFault)
      ensures made ==> old(nextTask) !in old(tasks) && ready == old(ready) + [old(nextTask)]
                       && tasks == old(tasks)[old(nextTask) := Task(Some(l), Some(old(created)), Some(x), Pending)]
      ensures !made ==> tasks == old(tasks) && ready == old(ready) && x in released
      ensures var v := old(lanes)[l];
        lanes == old(lanes)[l := v.(active := if made then v.active || v.loop || !v.concurrent
                                              else v.active && (v.loop || v.concurrent))]
    {
      hide Kept, HeldSet, Made;
      var active := lanes[l].active;
      SetFlags(l, active || lanes[l].loop || !lanes[l].concurrent, lanes[l].closed);
      made := Schedule(l, x, fault);
      if !made { Unstart(l, active && (lanes[l].loop || lanes[l].concurrent)); }
    }

    /** Where an update that reached an open lane is: in the queue of a busy serial
        lane, else a task at once, with reference `copy` to its callback. */
    twostate predicate Delivered(l: nat, x: nat, copy: nat, pushed: bool, fault: Fault)
      reads this
    {
      && l in old(lanes) && l in old(orders) && l in orders
      && orders == old(orders)[l := orders[l]] && orders[l].bound == old(orders)[l].bound + [x]
      && var v := old(lanes)[l];
      if v.active && !v.concurrent
      then && lanes == old(lanes)[l := v.(queue := if pushed then v.queue + [x] else v.queue)]
           && tasks == old(tasks) && ready == old(ready)
           && orders[l].started == old(orders)[l].started && orders[l].faulted == (old(orders)[l].faulted || !pushed)
      else StartedAtOnce(l, x, copy, fault)
    }

    twostate predicate StartedAtOnce(l: nat, x: nat, copy: nat, fault: Fault)
      requires l in old(lanes) && l in old(orders) && l in orders
      reads this
    {
      var v := old(lanes)[l];
      && orders[l].faulted == (old(orders)[l].faulted || fault != NoFault)
      && if fault == NoFault
         then && lanes == old(lanes)[l := v.(active := v.active || v.loop || !v.concurrent)]
              && old(nextTask) !in old(tasks) && ready == old(ready) + [old(nextTask)]
              && tasks == old(tasks)[old(nextTask) := Task(Some(l), Some(copy), Some(x), Pending)]
              && orders[l].started == old(orders)[l].started + [x]
         else && lanes == old(lanes) && tasks == old(tasks) && ready == old(ready) && x in released
              && orders[l].started == old(orders)[l].started
    }

    /** An update that does not have to wait becomes a task at once. */
    method StartAtOnce(l: nat, x: nat, fault: Fault)
      requires Sane() && x in HeldSet(owner) && l in lanes && !lanes[l].closed && l in orders
      requires orders[l].faulted || orders[l].bound == orders[l].started + lanes[l].queue
      requires lanes[l].concurrent || !lanes[l].active
      modifies this`lanes, this`tasks, this`ready, this`nextTask, this`owner, this`alive, this`released, this`created
      modifies this`building, this`orders
      ensures Sane() && HeldSet(owner) == old(HeldSet(owner)) - {x} && Grown(old(orders), orders)
      ensures l in orders && orders == old(orders)[l := orders[l]] && orders[l].bound == old(orders)[l].bound + [x]
      ensures StartedAtOnce(l, x, old(created), fault)
    {
      hide Kept, HeldSet, LanesOk, Serial, LaneOk, InOrder, Grown, NewPending, Free, Elements;
      OpenLane(l);
      LaneOf(lanes, loop, orders, enabled, l);
      LaneReceives(l, lanes[l], orders[l], loop, enabled, x);
      SerialActive(tasks, lanes, l);
      var made := Launch(l, x, fault);
      orders := orders[l := if made then orders[l].(bound := orders[l].bound + [x], started := orders[l].started + [x])
                            else orders[l].(bound := orders[l].bound + [x], faulted := true)];
      if made { IsNewPending(old(tasks), l, old(nextTask)); }
      LaneChanged(old(lanes), old(tasks), old(orders), l);
    }

    /** An update reaches an open lane: the end of `bindDeferredEvent` and of
        `queueOrScheduleLoopUpdate`. */
    method Deliver(l: nat, x: nat, pushed: bool, fault: Fault)
      requires Sane() && x in HeldSet(owner) && l in lanes && !lanes[l].closed && l in orders
      requires orders[l].faulted || orders[l].bound == orders[l].started + lanes[l].queue
      modifies this`lanes, this`tasks, this`ready, this`nextTask, this`owner, this`alive, this`released, this`created
      modifies this`building, this`orders
      ensures Sane() && HeldSet(owner) == old(HeldSet(owner)) - {x} && Grown(old(orders), orders)
      ensures Delivered(l, x, old(created), pushed, fault)
    {
      hide Kept, HeldSet, LanesOk, Serial, LaneOk, InOrder, Grown, NewPending, Free, Elements;
      if lanes[l].concurrent || !lanes[l].active {
        StartAtOnce(l, x, fault);
        return;
      }
      LaneOf(lanes, loop, orders, enabled, l);
      LaneReceives(l, lanes[l], orders[l], loop, enabled, x);
      if pushed {
        PushLane(l, x);
        orders := orders[l := orders[l].(bound := orders[l].bound + [x])];
      } else {
        Release(x);
        orders := orders[l := orders[l].(bound := orders[l].bound + [x], faulted := true)];
      }
      LaneChanged(old(lanes), old(tasks), old(orders), l);
    }

    // Deferred events.

    method DeferEvent(name: string, rooted: bool, pushed: bool) returns (ok: bool)
      requires Valid()
      modifies this`deferred, this`owner, this`alive, this`released, this`created
      ensures Valid() && ok == (enabled && rooted && pushed)
      ensures if ok then deferred == old(deferred) + [Event(name, old(created))] && alive == old(alive) + {old(created)}
              else deferred == old(deferred) && alive == old(alive)
    {
      hide Kept, HeldSet, LanesOk, Serial;
      if !enabled { return false; }
      Fresh();
      var x := Root(rooted);
      if x == None { return false; }
      if pushed { PushDeferred(Event(name, x.value)); } else { Release(x.value); }
      return pushed;
    }

    method PushDeferred(e: Event)
      requires Kept() && e.update in HeldSet(owner)
      modifies this`deferred, this`owner
      ensures Kept() && deferred == old(deferred) + [e] && HeldSet(owner) == old(HeldSet(owner)) - {e.update}
    {
      hide Owned, Lined, Numbered;
      PutDeferred(owner, Places(), e);
      CountedSame(owner, owner[e.update := Deferred], alive, released, created);
      deferred, owner := deferred + [e], owner[e.update := Deferred];
    }

    method PopDeferred() returns (e: Event)
      requires Kept() && deferred != []
      modifies this`deferred, this`owner
      ensures Kept() && deferred == old(deferred)[1..] && e == old(deferred)[0]
      ensures HeldSet(owner) == old(HeldSet(owner)) + {e.update} && e.update !in old(HeldSet(owner))
    {
      hide Owned, Lined, Numbered;
      TakeDeferred(owner, Places());
      e := deferred[0];
      CountedSame(owner, owner[e.update := Held], alive, released, created);
      deferred, owner := deferred[1..], owner[e.update := Held];
    }

    /** `bindDeferredEvent`: to the handler registered now, if there is one. */
    method Bind(e: Event, pushed: bool, fault: Fault)
      requires Sane() && e.update in HeldSet(owner)
      modifies this`lanes, this`tasks, this`ready, this`nextTask, this`owner, this`alive, this`released, this`created
      modifies this`building, this`orders
      ensures Sane() && HeldSet(owner) == old(HeldSet(owner)) - {e.update} && Grown(old(orders), orders)
      ensures e.name in events ==> events[e.name] in old(lanes)
      ensures if enabled && e.name in events && !old(lanes)[events[e.name]].closed
              then Delivered(events[e.name], e.update, old(created), pushed, fault)
              else lanes == old(lanes) && orders == old(orders) && tasks == old(tasks) && e.update in released
    {
      hide Kept, HeldSet, LanesOk, Serial, LaneOk;
      EventLane(e.name);
      if !enabled || e.name !in events || lanes[events[e.name]].closed {
        Release(e.update);
      } else {
        LaneOf(lanes, loop, orders, enabled, events[e.name]);
        Deliver(events[e.name], e.update, pushed, fault);
      }
    }

    lemma EventLane(name: string)
      requires Kept()
      ensures name in events ==> events[name] in lanes && !lanes[events[name]].loop
    {
      hide Owned, Counted, Lined;
    }

    /** `drainDeferredEvents`, with any allocation failing unless `clean`: every
        deferred update is bound, in order, to the open handler registered for it. */
    method DrainDeferred(clean: bool)
      requires Valid()
      modifies this`deferred, this`lanes, this`tasks, this`ready, this`nextTask, this`owner, this`alive, this`released, this`created
      modifies this`building, this`orders
      ensures Valid() && deferred == [] && Grown(old(orders), orders)
      ensures HandedOut(old(lanes), old(orders), lanes, orders, if enabled then old(deferred) else [], events, clean)
    {
      hide Kept, HeldSet, LanesOk, Serial, HandedOut;
      ghost var given: seq<Event> := [];
      HandedNothing(lanes, loop, orders, enabled, events, clean);
      while deferred != []
        invariant Valid() && Grown(old(orders), orders) && old(deferred) == given + deferred
        invariant HandedOut(old(lanes), old(orders), lanes, orders, if enabled then given else [], events, clean)
        decreases |deferred|
      {
        ghost var earlier, before := lanes, orders;
        var e := PopDeferred();
        BindNext(e, clean);
        given := given + [e];
        GrownTwice(old(orders), before, orders);
        if enabled { HandedMore(old(lanes), old(orders), earlier, before, lanes, orders, given, events, clean); }
        else { HandedAgain(old(lanes), old(orders), earlier, before, lanes, orders, events, clean); }
      }
      assert given == old(deferred);
    }

    method BindNext(e: Event, clean: bool)
      requires Sane() && e.update in HeldSet(owner)
      modifies this`lanes, this`tasks, this`ready, this`nextTask, this`owner, this`alive, this`released, this`created
      modifies this`building, this`orders
      ensures Sane() && HeldSet(owner) == old(HeldSet(owner)) - {e.update} && Grown(old(orders), orders)
      ensures HandedOut(old(lanes), old(orders), lanes, orders, if enabled then [e] else [], events, clean)
    {
      hide Kept, HeldSet, LanesOk, Serial;
      var pushed: bool, fault: Fault := *, *;
      if clean { pushed, fault := true, NoFault; }
      HandedNothing(lanes, loop, orders, enabled, events, clean);
      Bind(e, pushed, fault);
      BoundToOne(e, events);
    }

    // Running tasks. Lua code of a running task may call anything in between.

    /** `runTask` on the front of the ready queue: its references leave the table
        and it runs, or fails when its setup does. */
    method RunFront(setup: bool, fault: Fault)
      requires Valid() && ready != []
      modifies this`lanes, this`tasks, this`ready, this`nextTask, this`owner, this`alive, this`released, this`created
      modifies this`building, this`orders
      ensures Valid() && Grown(old(orders), orders) && old(ready)[0] in old(tasks) && old(ready)[0] in tasks
      ensures setup ==> ready == old(ready)[1..] && tasks[old(ready)[0]].status == Running && lanes == old(lanes)
                        && released == old(released) + Slot(old(tasks)[old(ready)[0]].callback) + Slot(old(tasks)[old(ready)[0]].update)
      ensures !setup ==> tasks[old(ready)[0]].status == Failed
      ensures !setup ==> var t := old(ready)[0]; var base := old(tasks)[t := Task(old(tasks)[t].lane, None, None, Failed)];
        WentOn(old(tasks)[t].lane, base, old(ready)[1..], true, fault)
    {
      hide Kept, HeldSet, LanesOk, Slot, Resumes, Rested, Grown;
      Unchanged();
      var t := ready[0];
      TakeFront(if setup then Running else Failed);
      StatusSerial(old(tasks), lanes, t, tasks[t]);
      if !setup { FinishLane(t, true, fault); }
    }

    method PopReady()
      requires Kept() && building == None && ready != []
      modifies this`ready, this`building
      ensures Kept() && ready == old(ready)[1..] && building == Some(old(ready)[0])
      ensures old(ready)[0] in tasks && tasks[old(ready)[0]].status == Pending
    {
      hide Owned, Counted, Numbered;
      LinedFront(ready, tasks);
      ready, building := ready[1..], Some(ready[0]);
    }

    method TakeFront(status: Status)
      requires Kept() && building == None && ready != [] && status != Pending
      modifies this`tasks, this`ready, this`owner, this`alive, this`released, this`building
      ensures Kept() && building == None && ready == old(ready)[1..] && HeldSet(owner) == old(HeldSet(owner))
      ensures var t := old(ready)[0];
        && t in old(tasks) && Unfinished(old(tasks)[t]) && tasks == old(tasks)[t := Task(old(tasks)[t].lane, None, None, status)]
        && released == old(released) + Slot(old(tasks)[t].callback) + Slot(old(tasks)[t].update)
    {
      hide Kept, HeldSet, Slot;
      var t := ready[0];
      PopReady();
      ReleaseSlots(t);
      Settle(t, status);
    }

    /** A task taken apart gets its status. */
    method Settle(t: nat, status: Status)
      requires Kept() && building == Some(t) && t in tasks && tasks[t].update == None && tasks[t].callback == None
      requires status != Pending
      modifies this`tasks, this`building
      ensures Kept() && building == None && tasks == old(tasks)[t := Task(old(tasks)[t].lane, None, None, status)]
    {
      hide Owned, Counted, Numbered;
      var v := Task(tasks[t].lane, None, None, status);
      SetTask(owner, Places(), t, v);
      LinedSettled(ready, tasks, t, v);
      tasks, building := tasks[t := v], None;
      NumberedSame(t, old(tasks));
    }

    /** A task that is over lets its lane go on. */
    method FinishLane(t: nat, stop: bool, fault: Fault)
      requires Sane() && t in tasks && !Unfinished(tasks[t])
      requires tasks[t].lane.Some? ==> tasks[t].lane.value in lanes && Vacant(tasks, lanes, tasks[t].lane.value)
      modifies this`lanes, this`tasks, this`ready, this`nextTask, this`owner, this`alive, this`released, this`created
      modifies this`building, this`orders
      ensures Sane() && HeldSet(owner) == old(HeldSet(owner)) && Grown(old(orders), orders) && Extends(old(tasks), tasks)
      ensures WentOn(old(tasks)[t].lane, old(tasks), old(ready), stop, fault)
    {
      hide Kept, HeldSet, LanesOk, Serial, LaneWentOn, Grown, Extends;
      Unchanged();
      if tasks[t].lane.Some? {
        var l := tasks[t].lane.value;
        if lanes[l].loop { FinishLoop(l, stop, fault); } else { FinishEvent(l, fault); }
      }
    }

    method SetStatus(t: nat, status: Status)
      requires Kept() && building == None && t in tasks && tasks[t].status == Running && (status == Done || status == Failed)
      modifies this`tasks
      ensures Kept() && tasks == old(tasks)[t := old(tasks)[t].(status := status)]
    {
      hide Owned, Counted;
      SetTask(owner, Places(), t, tasks[t].(status := status));
      LinedOther(ready, tasks, t, tasks[t].(status := status));
      tasks := tasks[t := tasks[t].(status := status)];
    }

    /** `finishTask`: the callback returned or raised; its lane goes on. `stop`
        is a loop callback's result of false. */
    method Finish(t: nat, failed: bool, stop: bool, fault: Fault)
      requires Valid() && t in tasks && tasks[t].status == Running
      modifies this`lanes, this`tasks, this`ready, this`nextTask, this`owner, this`alive, this`released, this`created
      modifies this`building, this`orders
      ensures Valid() && Grown(old(orders), orders) && t in tasks && tasks[t].status == if failed then Failed else Done
      ensures var base := old(tasks)[t := old(tasks)[t].(status := if failed then Failed else Done)];
        WentOn(old(tasks)[t].lane, base, old(ready), failed || stop, fault)
    {
      hide Kept, HeldSet, LanesOk, Resumes, Rested, Grown;
      SetStatus(t, if failed then Failed else Done);
      StatusSerial(old(tasks), lanes, t, tasks[t]);
      FinishLane(t, failed || stop, fault);
    }

    /** An external resume or an abandoned coroutine fails its task and does not
        let its lane go on. */
    method Lose(t: nat)
      requires Valid() && t in tasks && tasks[t].status == Running
      modifies this`tasks
      ensures Valid() && tasks == old(tasks)[t := old(tasks)[t].(status := Failed)]
    {
      hide Kept, HeldSet, LanesOk;
      SetStatus(t, Failed);
      StatusSerial(old(tasks), lanes, t, tasks[t]);
    }

    /** `retireState` of a finished callback task nobody refers to. */
    method Retire(t: nat)
      requires Valid() && t in tasks && !Unfinished(tasks[t])
      modifies this`tasks
      ensures Valid() && tasks == old(tasks) - {t}
    {
      hide Owned, Counted, HeldSet, LanesOk;
      EraseTask(owner, Places(), t);
      LinedErase(ready, tasks, t);
      tasks := tasks - {t};
    }

    // Handlers and observers come and go.

    /** A new lane with its callback, empty and idle; a loop lane becomes the
        current one. */
    method NewLane(isLoop: bool, concurrent: bool, x: nat) returns (l: nat)
      requires Sane() && x in HeldSet(owner)
      requires isLoop && loop.Some? ==> loop.value in lanes && lanes[loop.value].closed && lanes[loop.value].handler == None
      modifies this`lanes, this`orders, this`nextLane, this`loop, this`owner
      ensures Sane() && HeldSet(owner) == old(HeldSet(owner)) - {x} && Grown(old(orders), orders)
      ensures l !in old(lanes) && loop == if isLoop then Some(l) else old(loop)
      ensures lanes == old(lanes)[l := Lane(isLoop, concurrent, false, false, Some(x), [])]
      ensures orders == old(orders)[l := Order([], [], false)]
    {
      hide Kept, LanesOk, Serial, HeldSet;
      l := OpenLaneFor(isLoop, concurrent, x);
      AddLane(old(lanes), tasks, loop, orders, enabled, l, lanes[l]);
      orders := orders[l := Order([], [], false)];
      if isLoop { loop := Some(l); }
    }

    method OpenLaneFor(isLoop: bool, concurrent: bool, x: nat) returns (l: nat)
      requires Kept() && x in HeldSet(owner)
      modifies this`lanes, this`nextLane, this`owner
      ensures Kept() && HeldSet(owner) == old(HeldSet(owner)) - {x} && l !in old(lanes)
      ensures lanes == old(lanes)[l := Lane(isLoop, concurrent, false, false, Some(x), [])]
    {
      hide Owned, Lined, Counted, HeldSet;
      Holding(x);
      l := nextLane;
      ghost var v := Lane(isLoop, concurrent, false, false, None, []);
      SetLane(owner, Places(), l, v);
      PutHandler(owner, Places().(lanes := lanes[l := v]), l, x, v.(handler := Some(x)));
      CountedSame(owner, owner[x := Handler(l)], alive, released, created);
      assert lanes[l := v][l := v.(handler := Some(x))] == lanes[l := v.(handler := Some(x))];
      lanes, nextLane, owner := lanes[l := Lane(isLoop, concurrent, false, false, Some(x), [])], l + 1, owner[x := Handler(l)];
    }

    method Register(name: string, l: nat)
      requires Sane() && l in lanes && !lanes[l].loop
      modifies this`events
      ensures Sane() && events == old(events)[name := l]
    {
      hide Owned, Counted, Lined, LanesOk, Serial, HeldSet;
      events := events[name := l];
    }

    /** `onEvent`: publish the new registration, then retire the old one. When the
        callback or the publication fails, everything is as before. */
    method OnEvent(name: string, concurrent: bool, rooted: bool, published: bool)
      requires Valid()
      modifies this`events, this`lanes, this`orders, this`nextLane, this`owner, this`alive, this`released, this`created, this`loop
      ensures Valid() && Grown(old(orders), orders) && loop == old(loop)
      ensures !rooted || !published ==> events == old(events) && lanes == old(lanes) && alive == old(alive)
      ensures rooted && published ==> name in events && events[name] in lanes && events == old(events)[name := events[name]]
                                      && lanes[events[name]] == Lane(false, concurrent, false, false, Some(old(created)), [])
      ensures rooted && published && name in old(events) ==> var l := old(events)[name];
        l in old(lanes) && l in lanes && lanes[l].closed && lanes[l].handler == None
        && released == old(released) + Slot(old(lanes)[l].handler) + Elements(old(lanes)[l].queue)
    {
      hide Kept, LanesOk, Serial, HeldSet;
      Fresh();
      var x := Root(rooted);
      if x == None { return; }
      if !published {
        Release(x.value);
        return;
      }
      EventLane(name);
      var previous := if name in events then Some(events[name]) else None;
      var l := NewLane(false, concurrent, x.value);
      Register(name, l);
      if previous.Some? { Retract(previous.value); }
    }

    lemma LoopLane()
      requires Sane()
      ensures loop.Some? ==> loop.value in lanes && lanes[loop.value].loop && loop.value in orders
      ensures loop.Some? && !lanes[loop.value].closed && enabled && !orders[loop.value].faulted ==>
                orders[loop.value].bound == orders[loop.value].started + lanes[loop.value].queue
    {
      hide Kept, Serial, HeldSet;
      if loop.Some? { LaneOf(lanes, loop, orders, enabled, loop.value); }
    }

    /** `offEvent`. */
    method OffEvent(name: string)
      requires Valid()
      modifies this`events, this`lanes, this`owner, this`alive, this`released
      ensures Valid() && tasks == old(tasks) && events == old(events) - {name}
      ensures name in old(events) ==> var l := old(events)[name];
        l in old(lanes) && lanes == old(lanes)[l := old(lanes)[l].(closed := true, handler := None, queue := [])]
        && released == old(released) + Slot(old(lanes)[l].handler) + Elements(old(lanes)[l].queue)
    {
      hide Owned, Counted, Lined, Serial, HeldSet, LanesOk;
      EventLane(name);
      if name in events {
        Retract(events[name]);
        events := events - {name};
      }
    }

    // The poll selection.

    method Select(x: nat)
      requires Kept() && x in HeldSet(owner) && selected == None
      modifies this`selected, this`owner
      ensures Kept() && selected == Some(x) && HeldSet(owner) == old(HeldSet(owner)) - {x}
    {
      hide Owned, Lined, Numbered;
      PutSelected(owner, Places(), x);
      CountedSame(owner, owner[x := Selected], alive, released, created);
      selected, owner := Some(x), owner[x := Selected];
    }

    method TakeSelection() returns (x: nat)
      requires Kept() && selected.Some?
      modifies this`selected, this`owner
      ensures Kept() && selected == None && Some(x) == old(selected)
      ensures HeldSet(owner) == old(HeldSet(owner)) + {x} && x !in old(HeldSet(owner))
    {
      hide Owned, Lined, Numbered;
      TakeSelected(owner, Places());
      x := selected.value;
      CountedSame(owner, owner[x := Held], alive, released, created);
      selected, owner := None, owner[x := Held];
    }

    /** `discardSelectedUpdate`. */
    method DiscardSelected()
      requires Valid()
      modifies this`selected, this`owner, this`alive, this`released
      ensures Valid() && selected == None && released == old(released) + Slot(old(selected))
    {
      hide Kept, HeldSet, LanesOk, Serial;
      if selected.Some? {
        var x := TakeSelection();
        Release(x);
      }
    }

    /** The end of `selectPollUpdate`: return the update, or make it a task. A
        callback that cannot be referenced leaves the selection; a task that
        cannot be made costs the update. */
    method FinishPoll(callback: bool, rooted: bool, fault: Fault) returns (r: Poll)
      requires Valid()
      modifies this`selected, this`owner, this`alive, this`released, this`created, this`tasks, this`ready, this`nextTask, this`building
      ensures Valid() && (old(selected) == None ==> r == Nothing && alive == old(alive) && tasks == old(tasks))
      ensures old(selected).Some? && !callback ==>
                r == Value(old(selected).value) && selected == None && tasks == old(tasks) && released == old(released) + Slot(old(selected))
      ensures old(selected).Some? && callback && !rooted ==>
                r == Threw && selected == old(selected) && tasks == old(tasks) && alive == old(alive)
      ensures old(selected).Some? && callback && rooted && fault == NoFault ==>
                && r == Started(old(nextTask)) && selected == None && alive == old(alive) + {old(created) + 1}
                && tasks == old(tasks)[old(nextTask) := Task(None, Some(old(created) + 1), old(selected), Pending)]
                && released == old(released) + {old(created)}
      ensures old(selected).Some? && callback && rooted && fault != NoFault ==>
                && r == Threw && selected == None && tasks == old(tasks) && ready == old(ready)
                && alive == old(alive) - Slot(old(selected))
                && released == old(released) + Slot(old(selected)) + Made(old(created), created)
    {
      hide Kept, HeldSet, LanesOk, Serial;
      if selected == None { return Nothing; }
      if !callback {
        var x := TakeSelection();
        Release(x);
        return Value(x);
      }
      r := MakePollTask(rooted, fault);
    }

    /** The callback is referenced before the selection gives the update away. */
    method MakePollTask(rooted: bool, fault: Fault) returns (r: Poll)
      requires Valid() && selected.Some?
      modifies this`selected, this`owner, this`alive, this`released, this`created, this`tasks, this`ready, this`nextTask, this`building
      ensures Valid()
      ensures !rooted ==> r == Threw && selected == old(selected) && tasks == old(tasks) && alive == old(alive)
      ensures rooted && fault == NoFault ==>
                && r == Started(old(nextTask)) && selected == None && alive == old(alive) + {old(created) + 1}
                && tasks == old(tasks)[old(nextTask) := Task(None, Some(old(created) + 1), old(selected), Pending)]
                && released == old(released) + {old(created)}
      ensures rooted && fault != NoFault ==>
                && r == Threw && selected == None && tasks == old(tasks) && ready == old(ready)
                && alive == old(alive) - Slot(old(selected))
                && released == old(released) + Slot(old(selected)) + Made(old(created), created)
    {
      hide Kept, HeldSet, LanesOk, Serial, Made;
      Fresh();
      var local := Root(rooted);
      if local == None { return Threw; }
      var x := TakeSelection();
      var t := nextTask;
      var made := TaskWith(local.value, x, fault);
      if made { return Started(t); }
      MadeMore(old(created), created);
      return Threw;
    }

    /** The task gets a copy of the callback in a local reference, which goes then. */
    method TaskWith(callback: nat, x: nat, fault: Fault) returns (made: bool)
      requires Sane() && callback in HeldSet(owner) && x in HeldSet(owner) && callback != x
      modifies this`owner, this`alive, this`released, this`created, this`tasks, this`ready, this`nextTask, this`building
      ensures Sane() && HeldSet(owner) == old(HeldSet(owner)) - {x, callback} && made == (fault == NoFault)
      ensures made ==> alive == old(alive) + {old(created)} - {callback} && released == old(released) + {callback}
                       && tasks == old(tasks)[old(nextTask) := Task(None, Some(old(created)), Some(x), Pending)]
      ensures !made ==> tasks == old(tasks) && ready == old(ready) && alive == old(alive) - {x, callback} && created >= old(created)
                        && released == old(released) + {x, callback} + Made(old(created), created)
    {
      hide Kept, HeldSet, LanesOk, Serial, Made;
      Live(callback);
      made := CreateUpdateTask(None, callback, x, fault);
      Release(callback);
      PollTaskSerial(old(tasks), old(nextTask));
    }

    /** A poll task is in no lane. */
    lemma PollTaskSerial(before: map<nat, Task>, t: nat)
      requires Serial(before, lanes) && t !in before
      requires tasks == before || (t in tasks && tasks == before[t := tasks[t]] && tasks[t].lane == None)
      ensures Serial(tasks, lanes)
    {
    }

    /** `observeManagedUpdate`, during a managed pump. */
    method Observe(polling: bool, rooted: bool, pushed: bool, fault: Fault)
      requires Valid()
      modifies this`selected, this`owner, this`alive, this`released, this`created, this`lanes, this`tasks, this`ready, this`nextTask
      modifies this`building, this`orders
      ensures Valid() && Grown(old(orders), orders)
      ensures enabled && polling && old(selected) == None ==>
                selected == (if rooted then Some(old(created)) else None) && lanes == old(lanes) && tasks == old(tasks)
      ensures !(enabled && polling && old(selected) == None) ==> selected == old(selected)
      ensures !(enabled && polling && old(selected) == None) ==>
        if enabled && rooted && loop.Some? && loop.value in old(lanes) && !old(lanes)[loop.value].closed
        then Delivered(loop.value, old(created), old(created) + 1, pushed, fault)
        else lanes == old(lanes) && tasks == old(tasks) && ready == old(ready) && orders == old(orders)
    {
      hide Kept, HeldSet, LanesOk, Serial;
      if !enabled { return; }
      LoopLane();
      if polling && selected == None {
        var x := Root(rooted);
        if x.Some? { Select(x.value); }
      } else if loop.Some? && !lanes[loop.value].closed {
        var x := Root(rooted);
        if x.Some? { Deliver(loop.value, x.value, pushed, fault); }
      }
    }

    /** The start of `runLoop` with a callback: the new observer replaces the old
        one and takes over a selected update. A callback that cannot be
        referenced leaves the old one in place. */
    method StartLoop(concurrent: bool, rooted: bool, pushed: bool, fault: Fault)
      requires Valid()
      modifies this
      ensures Valid() && Grown(old(orders), orders)
      ensures !rooted ==> loop == old(loop) && lanes == old(lanes) && selected == old(selected) && alive == old(alive)
      ensures rooted ==> loop.Some? && loop.value in lanes && loop.value !in old(lanes) && selected == None
                         && !lanes[loop.value].closed && lanes[loop.value].concurrent == concurrent
      ensures rooted ==> loop.value in orders && orders[loop.value].bound == Chosen(old(selected))
      ensures rooted ==> orders[loop.value].started == if fault == NoFault then Chosen(old(selected)) else []
      ensures rooted && old(loop).Some? ==>
                old(loop).value in lanes && lanes[old(loop).value].closed && lanes[old(loop).value].handler == None
    {
      hide Kept, HeldSet, LanesOk, Serial;
      var x := Root(rooted);
      if x == None { return; }
      ReplaceLoop(concurrent, x.value);
      if selected.Some? {
        ghost var before := orders;
        var u := TakeSelection();
        Deliver(loop.value, u, pushed, fault);
        GrownTwice(old(orders), before, orders);
      }
    }

    method ReplaceLoop(concurrent: bool, x: nat)
      requires Sane() && x in HeldSet(owner)
      modifies this`loop, this`lanes, this`orders, this`nextLane, this`owner, this`alive, this`released
      ensures Sane() && HeldSet(owner) == old(HeldSet(owner)) - {x} && Grown(old(orders), orders)
      ensures loop.Some? && loop.value in lanes && loop.value !in old(lanes)
      ensures lanes[loop.value] == Lane(true, concurrent, false, false, Some(x), [])
      ensures loop.value in orders && orders[loop.value] == Order([], [], false)
      ensures old(loop).Some? ==>
                old(loop).value in lanes && lanes[old(loop).value].closed && lanes[old(loop).value].handler == None
    {
      hide Kept, LanesOk, Serial, HeldSet;
      LoopLane();
      // The old observer is stopped first; both happen before anything else runs.
      if loop.Some? { Retract(loop.value); }
      var l := NewLane(true, concurrent, x);
    }

    /** `endUpdateConsumer`: the selected update stays. */
    method EndConsumer()
      requires Valid()
      modifies this`loop, this`lanes, this`owner, this`alive, this`released
      ensures Valid() && loop == None && selected == old(selected)
      ensures old(loop).Some? ==> var l := old(loop).value;
        l in old(lanes) && lanes == old(lanes)[l := old(lanes)[l].(closed := true, handler := None, queue := [])]
    {
      hide Kept, LanesOk, Serial, HeldSet;
      LoopLane();
      if loop.Some? {
        Retract(loop.value);
        NoLoop(lanes, loop, orders, enabled);
        loop := None;
      }
    }

    method Disable()
      requires Valid()
      modifies this`enabled
      ensures Valid() && !enabled
    {
      hide Kept, LanesOk, Serial, HeldSet;
      Disabled(lanes, loop, orders, enabled);
      enabled := false;
    }

    /** `clearDeferredEvents`. */
    method ClearDeferred()
      requires Valid()
      modifies this`deferred, this`owner, this`alive, this`released
      ensures Valid() && deferred == [] && old(released) <= released
      ensures forall i :: 0 <= i < |old(deferred)| ==> old(deferred)[i].update in released
    {
      hide Kept, HeldSet, LanesOk, Serial;
      ghost var given: seq<Event> := [];
      while deferred != []
        invariant Valid() && old(deferred) == given + deferred && old(released) <= released
        invariant forall i :: 0 <= i < |given| ==> given[i].update in released
        decreases |deferred|
      {
        var e := PopDeferred();
        given := given + [e];
        Release(e.update);
      }
    }

    /** `clearEvents`: what is deferred and every registration go. */
    method ClearEvents()
      requires Valid()
      modifies this`deferred, this`events, this`lanes, this`owner, this`alive, this`released
      ensures Valid() && deferred == [] && events == map[] && tasks == old(tasks)
      ensures forall n :: n in old(events) ==> Retracted(old(events)[n])
      ensures forall l :: l in old(lanes) ==> l in lanes && Quieter(old(lanes)[l], lanes[l])
    {
      hide Kept, LanesOk, Serial, HeldSet;
      ClearDeferred();
      var todo := events.Keys;
      while todo != {}
        invariant Valid() && deferred == [] && events == old(events) && todo <= events.Keys
        invariant forall n :: n in events && n !in todo ==> Retracted(events[n])
        invariant forall l :: l in old(lanes) ==> l in lanes && Quieter(old(lanes)[l], lanes[l])
        decreases |todo|
      {
        var n :| n in todo;
        EventLane(n);
        Retract(events[n]);
        todo := todo - {n};
      }
      Forget();
    }

    /** Closed, with neither callback nor queue. */
    predicate Retracted(l: nat)
      reads this`lanes
    {
      l in lanes && lanes[l].closed && lanes[l].handler == None && lanes[l].queue == []
    }

    method Forget()
      requires Valid()
      modifies this`events
      ensures Valid() && events == map[]
    {
      hide Owned, Counted, Lined, LanesOk, Serial, HeldSet;
      events := map[];
    }

    /** The update part of `detachTransport`. Only running tasks, pending tasks
        and, when kept, the selection still have something; the stopped observer
        keeps its callback. */
    method Detach(preserve: bool)
      requires Valid()
      modifies this`enabled, this`deferred, this`events, this`lanes, this`owner, this`alive, this`released, this`selected
      ensures Valid() && !enabled && deferred == [] && events == map[] && tasks == old(tasks)
      ensures selected == if preserve then old(selected) else None
      ensures forall n :: n in old(events) ==> Retracted(old(events)[n])
      ensures loop.Some? ==> loop.value in lanes && lanes[loop.value].closed && lanes[loop.value].queue == []
    {
      hide Kept, LanesOk, Serial, HeldSet;
      Disable();
      if !preserve { DiscardSelected(); }
      LoopLane();
      if loop.Some? { Close(loop.value); }
      ghost var named := events;
      ClearEvents();
      assert named == old(events);
    }

    // What the bookkeeping promises.

    /** Each reference ever made is live or released. A live one is in exactly one
        place, once there; a released one is in none. */
    lemma OnePlace(x: nat)
      requires Valid() && x < created
      ensures x in alive <==> x !in released
      ensures x in alive <==> exists p :: p != Held && Found(Places(), x, p)
      ensures forall p, q :: p != Held && q != Held && Found(Places(), x, p) && Found(Places(), x, q) ==> p == q
      ensures forall i, j :: 0 <= i < j < |deferred| ==> !(deferred[i].update == x && deferred[j].update == x)
      ensures forall l, i, j :: l in lanes && 0 <= i < j < |lanes[l].queue| ==> !(lanes[l].queue[i] == x && lanes[l].queue[j] == x)
      ensures forall t :: t in tasks ==> !(tasks[t].callback == Some(x) && tasks[t].update == Some(x))
    {
      hide Serial, LanesOk, Lined, Numbered, Found;
      if x in owner {
        assert Found(Places(), x, owner[x]);
        assert x !in HeldSet(owner);
      }
      forall p, q | p != Held && q != Held && Found(Places(), x, p) && Found(Places(), x, q) ensures p == q && x in owner {
        OnlyPlace(owner, Places(), x, p, q);
      }
      forall l | l in lanes ensures Distinct(lanes[l].queue) { assert QueueOwned(owner, l, lanes[l].queue); }
      forall t | t in tasks ensures !(tasks[t].callback == Some(x) && tasks[t].update == Some(x)) {
        assert TaskOwned(owner, t, tasks[t]);
      }
    }

    /** Serial lanes: at most one unfinished task; an idle lane has nothing
        waiting; while no allocation fails, the tasks are those first bound. */
    lemma SerialDelivery(l: nat)
      requires Valid() && l in lanes
      ensures l in orders
      ensures !lanes[l].concurrent ==>
                forall t, u :: t in tasks && u in tasks && Occupies(tasks[t], l) && Occupies(tasks[u], l) ==> t == u
      ensures !lanes[l].active ==> lanes[l].queue == []
      ensures !orders[l].faulted ==> orders[l].started <= orders[l].bound
      ensures !orders[l].faulted && !lanes[l].closed && enabled ==> orders[l].bound == orders[l].started + lanes[l].queue
    {
      hide Kept, HeldSet;
      LaneOf(lanes, loop, orders, enabled, l);
      forall t, u | t in tasks && u in tasks && Occupies(tasks[t], l) && Occupies(tasks[u], l) && !lanes[l].concurrent
        ensures t == u {}
    }

    method Perform(c: Call)
      requires Valid()
      modifies this
      ensures Valid() && Grown(old(orders), orders)
    {
      hide Kept, LanesOk, Serial, HeldSet;
      match c {
        case Defer(name, rooted, pushed) => { var ok := DeferEvent(name, rooted, pushed); }
        case Drain(clean) => { DrainDeferred(clean); }
        case RunNext(setup, fault) => { if ready != [] { RunFront(setup, fault); } }
        case Finishing(t, failed, stop, fault) => {
          if t in tasks && tasks[t].status == Running { Finish(t, failed, stop, fault); }
        }
        case Losing(t) => { if t in tasks && tasks[t].status == Running { Lose(t); } }
        case Retiring(t) => { if t in tasks && !Unfinished(tasks[t]) { Retire(t); } }
        case On(name, concurrent, rooted, published) => { OnEvent(name, concurrent, rooted, published); }
        case Off(name) => { OffEvent(name); }
        case Loop(concurrent, rooted, pushed, fault) => { StartLoop(concurrent, rooted, pushed, fault); }
        case End => { EndConsumer(); }
        case Observing(polling, rooted, pushed, fault) => { Observe(polling, rooted, pushed, fault); }
        case Polled(callback, rooted, fault) => { var r := FinishPoll(callback, rooted, fault); }
        case Detaching(preserve) => { Detach(preserve); }
        case Clearing => { ClearDeferred(); }
      }
    }

    /** Any run keeps every reference in one place and every serial lane in order. */
    method Run(calls: seq<Call>)
      requires Valid()
      modifies this
      ensures Valid() && Grown(old(orders), orders)
    {
      hide Kept, LanesOk, Serial, HeldSet;
      for i := 0 to |calls|
        invariant Valid() && Grown(old(orders), orders)
      {
        ghost var before := orders;
        Perform(calls[i]);
        GrownTwice(old(orders), before, orders);
      }
    }
  }
}
