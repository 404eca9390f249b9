/** Who owns which reference of the Lua reference table. An update is owned by the
    deferred queue, the queue of a handler or loop observer, the poll selection or
    a task; a callback by the handler it was registered for or by the task that got
    a copy. Steps in between own what they hold in local variables. */
module References {
  import opened Common

  datatype Event = Event(name: string, update: nat)

  /** A serial line of deliveries: an event registration or a loop observer.
      `closed` is `removed` for the one and `stopped` for the other. */
  datatype Lane = Lane(loop: bool, concurrent: bool, active: bool, closed: bool, handler: Option<nat>, queue: seq<nat>)

  datatype Status = Pending | Running | Done | Failed

  /** A callback task with its callback and response slots; a poll task has no lane. */
  datatype Task = Task(lane: Option<nat>, callback: Option<nat>, update: Option<nat>, status: Status)

  predicate Unfinished(t: Task) { t.status == Pending || t.status == Running }

  /** Where references can be. */
  datatype Stores = Stores(deferred: seq<Event>, lanes: map<nat, Lane>, selected: Option<nat>, tasks: map<nat, Task>)

  /** Which place has a reference; `Held` is a local variable of a running step. */
  datatype Place = Held | Deferred | Queued(lane: nat) | Handler(lane: nat) | Selected | Given(task: nat) | Copied(task: nat)

  type Owners = map<nat, Place>

  /** Every place has only what it owns, and everything owned is at its place:
      each live reference is in exactly one place, once. */
  ghost predicate Owned(o: Owners, s: Stores) {
    && DeferredOwned(o, s.deferred)
    && (forall l :: l in s.lanes ==> QueueOwned(o, l, s.lanes[l].queue))
    && (forall l :: l in s.lanes && s.lanes[l].handler.Some? ==> At(o, s.lanes[l].handler.value, Handler(l)))
    && (s.selected.Some? ==> At(o, s.selected.value, Selected))
    && (forall t :: t in s.tasks ==> TaskOwned(o, t, s.tasks[t]))
    && (forall x :: x in o ==> Found(s, x, o[x]))
  }

  ghost predicate At(o: Owners, x: nat, p: Place) { x in o && o[x] == p }

  ghost predicate DeferredOwned(o: Owners, q: seq<Event>) {
    && (forall i :: 0 <= i < |q| ==> At(o, q[i].update, Deferred))
    && (forall i, j :: 0 <= i < j < |q| ==> q[i].update != q[j].update)
  }

  ghost predicate QueueOwned(o: Owners, l: nat, q: seq<nat>) {
    && (forall i :: 0 <= i < |q| ==> At(o, q[i], Queued(l)))
    && Distinct(q)
  }

  ghost predicate TaskOwned(o: Owners, t: nat, v: Task) {
    && (v.update.Some? ==> At(o, v.update.value, Given(t)))
    && (v.callback.Some? ==> At(o, v.callback.value, Copied(t)))
  }

  ghost predicate Found(s: Stores, x: nat, p: Place) {
    match p
    case Held => true
    case Deferred => exists i :: 0 <= i < |s.deferred| && s.deferred[i].update == x
    case Queued(l) => l in s.lanes && x in s.lanes[l].queue
    case Handler(l) => l in s.lanes && s.lanes[l].handler == Some(x)
    case Selected => s.selected == Some(x)
    case Given(t) => t in s.tasks && s.tasks[t].update == Some(x)
    case Copied(t) => t in s.tasks && s.tasks[t].callback == Some(x)
  }

  function HeldSet(o: Owners): set<nat> { set x | x in o && o[x] == Held }

  lemma HeldMoves(o: Owners, x: nat, p: Place)
    ensures HeldSet(o[x := p]) == if p == Held then HeldSet(o) + {x} else HeldSet(o) - {x}
    ensures HeldSet(o - {x}) == HeldSet(o) - {x}
  {
  }

  /** A reference that is at no place but a local variable is in no store. */
  lemma HeldNowhere(o: Owners, s: Stores, x: nat)
    requires Owned(o, s) && (x !in o || o[x] == Held)
    ensures forall i :: 0 <= i < |s.deferred| ==> s.deferred[i].update != x
    ensures forall l :: l in s.lanes ==> x !in s.lanes[l].queue && s.lanes[l].handler != Some(x)
    ensures s.selected != Some(x)
    ensures forall t :: t in s.tasks ==> s.tasks[t].update != Some(x) && s.tasks[t].callback != Some(x)
  {
    forall l | l in s.lanes ensures x !in s.lanes[l].queue { assert QueueOwned(o, l, s.lanes[l].queue); }
    forall t | t in s.tasks ensures s.tasks[t].update != Some(x) && s.tasks[t].callback != Some(x) {
      assert TaskOwned(o, t, s.tasks[t]);
    }
  }

  // One reference moves.

  lemma MoveIn(o: Owners, s: Stores, x: nat)
    requires Owned(o, s) && x !in o
    ensures Owned(o[x := Held], s) && HeldSet(o[x := Held]) == HeldSet(o) + {x}
  {
    HeldNowhere(o, s, x);
    HeldMoves(o, x, Held);
    forall l | l in s.lanes ensures QueueOwned(o[x := Held], l, s.lanes[l].queue) { assert QueueOwned(o, l, s.lanes[l].queue); }
    forall t | t in s.tasks ensures TaskOwned(o[x := Held], t, s.tasks[t]) { assert TaskOwned(o, t, s.tasks[t]); }
  }

  lemma MoveOut(o: Owners, s: Stores, x: nat)
    requires Owned(o, s) && At(o, x, Held)
    ensures Owned(o - {x}, s) && HeldSet(o - {x}) == HeldSet(o) - {x}
  {
    HeldNowhere(o, s, x);
    HeldMoves(o, x, Held);
    forall l | l in s.lanes ensures QueueOwned(o - {x}, l, s.lanes[l].queue) { assert QueueOwned(o, l, s.lanes[l].queue); }
    forall t | t in s.tasks ensures TaskOwned(o - {x}, t, s.tasks[t]) { assert TaskOwned(o, t, s.tasks[t]); }
  }

  /** Nothing but `x` moves, from or to a local variable. */
  lemma OthersStay(o: Owners, s: Stores, x: nat, p: Place)
    requires Owned(o, s) && (At(o, x, Held) || (x in o && p == Held))
    ensures forall l :: l in s.lanes && o[x] != Queued(l) ==> QueueOwned(o[x := p], l, s.lanes[l].queue)
    ensures forall l :: l in s.lanes && s.lanes[l].handler.Some? && o[x] != Handler(l) ==> At(o[x := p], s.lanes[l].handler.value, Handler(l))
    ensures o[x] != Deferred ==> DeferredOwned(o[x := p], s.deferred)
    ensures s.selected.Some? && o[x] != Selected ==> At(o[x := p], s.selected.value, Selected)
    ensures forall t :: t in s.tasks && o[x] != Given(t) && o[x] != Copied(t) ==> TaskOwned(o[x := p], t, s.tasks[t])
    ensures HeldSet(o[x := p]) == if p == Held then HeldSet(o) + {x} else HeldSet(o) - {x}
  {
    HeldMoves(o, x, p);
    forall l | l in s.lanes && o[x] != Queued(l) ensures QueueOwned(o[x := p], l, s.lanes[l].queue) {
      assert QueueOwned(o, l, s.lanes[l].queue);
    }
    forall t | t in s.tasks && o[x] != Given(t) && o[x] != Copied(t) ensures TaskOwned(o[x := p], t, s.tasks[t]) {
      assert TaskOwned(o, t, s.tasks[t]);
    }
  }

  lemma PutDeferred(o: Owners, s: Stores, e: Event)
    requires Owned(o, s) && At(o, e.update, Held)
    ensures Owned(o[e.update := Deferred], s.(deferred := s.deferred + [e]))
    ensures HeldSet(o[e.update := Deferred]) == HeldSet(o) - {e.update}
  {
    var p, t := o[e.update := Deferred], s.(deferred := s.deferred + [e]);
    OthersStay(o, s, e.update, Deferred);
    HeldNowhere(o, s, e.update);
    forall x | x in p ensures Found(t, x, p[x]) {
      if x == e.update { assert t.deferred[|s.deferred|].update == x; }
      else if p[x] == Deferred {
        assert Found(s, x, Deferred);
        var i :| 0 <= i < |s.deferred| && s.deferred[i].update == x;
        assert t.deferred[i].update == x;
      } else { assert Found(s, x, o[x]); }
    }
  }

  lemma TakeDeferred(o: Owners, s: Stores)
    requires Owned(o, s) && s.deferred != []
    ensures var x := s.deferred[0].update;
      && Owned(o[x := Held], s.(deferred := s.deferred[1..])) && HeldSet(o[x := Held]) == HeldSet(o) + {x} && At(o, x, Deferred)
  {
    var x := s.deferred[0].update;
    var p, t := o[x := Held], s.(deferred := s.deferred[1..]);
    OthersStay(o, s, x, Held);
    forall y | y in p ensures Found(t, y, p[y]) {
      if y != x {
        assert Found(s, y, o[y]);
        if p[y] == Deferred {
          var i :| 0 <= i < |s.deferred| && s.deferred[i].update == y;
          assert t.deferred[i - 1].update == y;
        }
      }
    }
  }

  lemma PutQueued(o: Owners, s: Stores, l: nat, x: nat, v: Lane)
    requires Owned(o, s) && l in s.lanes && At(o, x, Held)
    requires v.queue == s.lanes[l].queue + [x] && v.handler == s.lanes[l].handler
    ensures Owned(o[x := Queued(l)], s.(lanes := s.lanes[l := v])) && HeldSet(o[x := Queued(l)]) == HeldSet(o) - {x}
  {
    var p, t := o[x := Queued(l)], s.(lanes := s.lanes[l := v]);
    OthersStay(o, s, x, Queued(l));
    HeldNowhere(o, s, x);
    assert QueueOwned(p, l, v.queue) by { assert QueueOwned(o, l, s.lanes[l].queue); }
    forall y | y in p ensures Found(t, y, p[y]) {
      if y == x { assert v.queue[|s.lanes[l].queue|] == x; } else { FoundQueue(s, l, v, y, o[y]); }
    }
  }

  /** Growing a queue or changing flags loses no place. */
  lemma FoundQueue(s: Stores, l: nat, v: Lane, y: nat, p: Place)
    requires Found(s, y, p) && l in s.lanes && v.handler == s.lanes[l].handler && s.lanes[l].queue <= v.queue
    ensures Found(s.(lanes := s.lanes[l := v]), y, p)
  {
    if p == Queued(l) {
      var i :| 0 <= i < |s.lanes[l].queue| && s.lanes[l].queue[i] == y;
      assert v.queue[i] == y;
    }
  }

  lemma TakeQueued(o: Owners, s: Stores, l: nat, v: Lane)
    requires Owned(o, s) && l in s.lanes && s.lanes[l].queue != []
    requires v.queue == s.lanes[l].queue[1..] && v.handler == s.lanes[l].handler
    ensures var x := s.lanes[l].queue[0];
      && Owned(o[x := Held], s.(lanes := s.lanes[l := v])) && HeldSet(o[x := Held]) == HeldSet(o) + {x} && At(o, x, Queued(l))
  {
    var q := s.lanes[l].queue;
    assert QueueOwned(o, l, q);
    var x := q[0];
    var p, t := o[x := Held], s.(lanes := s.lanes[l := v]);
    OthersStay(o, s, x, Held);
    assert QueueOwned(p, l, v.queue);
    forall y | y in p ensures Found(t, y, p[y]) {
      if y != x { FoundRest(s, l, v, y, o[y]); }
    }
  }

  /** Taking the front of a queue loses the place of nothing else. */
  lemma FoundRest(s: Stores, l: nat, v: Lane, y: nat, p: Place)
    requires Found(s, y, p) && l in s.lanes && v.handler == s.lanes[l].handler
    requires s.lanes[l].queue != [] && v.queue == s.lanes[l].queue[1..] && y != s.lanes[l].queue[0]
    ensures Found(s.(lanes := s.lanes[l := v]), y, p)
  {
    if p == Queued(l) {
      var i :| 0 <= i < |s.lanes[l].queue| && s.lanes[l].queue[i] == y;
      assert v.queue[i - 1] == y;
    }
  }

  /** A lane changes its flags or is new and empty. */
  lemma SetLane(o: Owners, s: Stores, l: nat, v: Lane)
    requires Owned(o, s)
    requires v.queue == (if l in s.lanes then s.lanes[l].queue else []) && v.handler == (if l in s.lanes then s.lanes[l].handler else None)
    ensures Owned(o, s.(lanes := s.lanes[l := v]))
  {
    var t := s.(lanes := s.lanes[l := v]);
    forall y | y in o ensures Found(t, y, o[y]) { assert Found(s, y, o[y]); }
    forall m | m in t.lanes ensures QueueOwned(o, m, t.lanes[m].queue) {
      if m in s.lanes { assert QueueOwned(o, m, s.lanes[m].queue); }
    }
  }

  lemma PutHandler(o: Owners, s: Stores, l: nat, x: nat, v: Lane)
    requires Owned(o, s) && l in s.lanes && At(o, x, Held) && s.lanes[l].handler == None
    requires v.queue == s.lanes[l].queue && v.handler == Some(x)
    ensures Owned(o[x := Handler(l)], s.(lanes := s.lanes[l := v])) && HeldSet(o[x := Handler(l)]) == HeldSet(o) - {x}
  {
    var p, t := o[x := Handler(l)], s.(lanes := s.lanes[l := v]);
    OthersStay(o, s, x, Handler(l));
    assert QueueOwned(p, l, v.queue);
    forall y | y in p ensures Found(t, y, p[y]) {
      if y != x { assert Found(s, y, o[y]); }
    }
  }

  lemma TakeHandler(o: Owners, s: Stores, l: nat, v: Lane)
    requires Owned(o, s) && l in s.lanes && s.lanes[l].handler.Some?
    requires v.queue == s.lanes[l].queue && v.handler == None
    ensures var x := s.lanes[l].handler.value;
      && Owned(o[x := Held], s.(lanes := s.lanes[l := v])) && HeldSet(o[x := Held]) == HeldSet(o) + {x} && At(o, x, Handler(l))
  {
    var x := s.lanes[l].handler.value;
    var p, t := o[x := Held], s.(lanes := s.lanes[l := v]);
    OthersStay(o, s, x, Held);
    assert QueueOwned(p, l, v.queue);
    forall y | y in p ensures Found(t, y, p[y]) {
      if y != x { assert Found(s, y, o[y]); }
    }
  }

  lemma PutSelected(o: Owners, s: Stores, x: nat)
    requires Owned(o, s) && At(o, x, Held) && s.selected == None
    ensures Owned(o[x := Selected], s.(selected := Some(x))) && HeldSet(o[x := Selected]) == HeldSet(o) - {x}
  {
    var p, t := o[x := Selected], s.(selected := Some(x));
    OthersStay(o, s, x, Selected);
    forall y | y in p ensures Found(t, y, p[y]) {
      if y != x { assert Found(s, y, o[y]); }
    }
  }

  lemma TakeSelected(o: Owners, s: Stores)
    requires Owned(o, s) && s.selected.Some?
    ensures var x := s.selected.value;
      && Owned(o[x := Held], s.(selected := None)) && HeldSet(o[x := Held]) == HeldSet(o) + {x} && At(o, x, Selected)
  {
    var x := s.selected.value;
    var p, t := o[x := Held], s.(selected := None);
    OthersStay(o, s, x, Held);
    forall y | y in p ensures Found(t, y, p[y]) {
      if y != x { assert Found(s, y, o[y]); }
    }
  }

  /** A task appears empty, or changes its status. */
  lemma SetTask(o: Owners, s: Stores, t: nat, v: Task)
    requires Owned(o, s)
    requires v.update == (if t in s.tasks then s.tasks[t].update else None)
    requires v.callback == (if t in s.tasks then s.tasks[t].callback else None)
    ensures Owned(o, s.(tasks := s.tasks[t := v]))
  {
    var u := s.(tasks := s.tasks[t := v]);
    if t in s.tasks { assert TaskOwned(o, t, s.tasks[t]); }
    forall y | y in o ensures Found(u, y, o[y]) { assert Found(s, y, o[y]); }
  }

  lemma PutGiven(o: Owners, s: Stores, t: nat, x: nat)
    requires Owned(o, s) && At(o, x, Held) && t in s.tasks && s.tasks[t].update == None
    ensures Owned(o[x := Given(t)], s.(tasks := s.tasks[t := s.tasks[t].(update := Some(x))]))
    ensures HeldSet(o[x := Given(t)]) == HeldSet(o) - {x}
  {
    var p, u := o[x := Given(t)], s.(tasks := s.tasks[t := s.tasks[t].(update := Some(x))]);
    OthersStay(o, s, x, Given(t));
    assert TaskOwned(p, t, u.tasks[t]) by { assert TaskOwned(o, t, s.tasks[t]); }
    forall y | y in p ensures Found(u, y, p[y]) {
      if y != x { assert Found(s, y, o[y]); }
    }
  }

  lemma PutCopied(o: Owners, s: Stores, t: nat, x: nat)
    requires Owned(o, s) && At(o, x, Held) && t in s.tasks && s.tasks[t].callback == None
    ensures Owned(o[x := Copied(t)], s.(tasks := s.tasks[t := s.tasks[t].(callback := Some(x))]))
    ensures HeldSet(o[x := Copied(t)]) == HeldSet(o) - {x}
  {
    var p, u := o[x := Copied(t)], s.(tasks := s.tasks[t := s.tasks[t].(callback := Some(x))]);
    OthersStay(o, s, x, Copied(t));
    assert TaskOwned(p, t, u.tasks[t]) by { assert TaskOwned(o, t, s.tasks[t]); }
    forall y | y in p ensures Found(u, y, p[y]) {
      if y != x { assert Found(s, y, o[y]); }
    }
  }

  lemma TakeGiven(o: Owners, s: Stores, t: nat)
    requires Owned(o, s) && t in s.tasks && s.tasks[t].update.Some?
    ensures var x := s.tasks[t].update.value;
      && Owned(o[x := Held], s.(tasks := s.tasks[t := s.tasks[t].(update := None)]))
      && HeldSet(o[x := Held]) == HeldSet(o) + {x} && At(o, x, Given(t))
  {
    assert TaskOwned(o, t, s.tasks[t]);
    var x := s.tasks[t].update.value;
    var p, u := o[x := Held], s.(tasks := s.tasks[t := s.tasks[t].(update := None)]);
    OthersStay(o, s, x, Held);
    forall y | y in p ensures Found(u, y, p[y]) {
      if y != x { assert Found(s, y, o[y]); }
    }
  }

  lemma TakeCopied(o: Owners, s: Stores, t: nat)
    requires Owned(o, s) && t in s.tasks && s.tasks[t].callback.Some?
    ensures var x := s.tasks[t].callback.value;
      && Owned(o[x := Held], s.(tasks := s.tasks[t := s.tasks[t].(callback := None)]))
      && HeldSet(o[x := Held]) == HeldSet(o) + {x} && At(o, x, Copied(t))
  {
    assert TaskOwned(o, t, s.tasks[t]);
    var x := s.tasks[t].callback.value;
    var p, u := o[x := Held], s.(tasks := s.tasks[t := s.tasks[t].(callback := None)]);
    OthersStay(o, s, x, Held);
    forall y | y in p ensures Found(u, y, p[y]) {
      if y != x { assert Found(s, y, o[y]); }
    }
  }

  lemma EraseTask(o: Owners, s: Stores, t: nat)
    requires Owned(o, s) && t in s.tasks && s.tasks[t].update == None && s.tasks[t].callback == None
    ensures Owned(o, s.(tasks := s.tasks - {t}))
  {
    forall y | y in o ensures Found(s.(tasks := s.tasks - {t}), y, o[y]) { assert Found(s, y, o[y]); }
  }

  // What ownership means.

  /** What a place has is owned by it. */
  lemma FoundOwned(o: Owners, s: Stores, x: nat, p: Place)
    requires Owned(o, s) && Found(s, x, p) && p != Held
    ensures At(o, x, p)
  {
    match p {
      case Queued(l) => assert QueueOwned(o, l, s.lanes[l].queue);
      case Given(t) => assert TaskOwned(o, t, s.tasks[t]);
      case Copied(t) => assert TaskOwned(o, t, s.tasks[t]);
      case Held | Deferred | Handler(_) | Selected =>
    }
  }

  /** A reference is never in two places, nor twice in one queue. */
  lemma OnlyPlace(o: Owners, s: Stores, x: nat, p: Place, q: Place)
    requires Owned(o, s) && Found(s, x, p) && Found(s, x, q) && p != Held && q != Held
    ensures p == q && x in o
  {
    FoundOwned(o, s, x, p);
    FoundOwned(o, s, x, q);
  }
}
