/** Exactly when the owner can sleep through work: one re-check and the park that
    follows it, against whether a doorbell object existed as the re-check began. */
module LostWakeUps {
  import opened Doorbell

  /** The owner is parked on a bell that looks usable and reliable, one of its
      mailboxes has work, nothing is readable and nobody is going to ring. */
  ghost predicate Lost(t: Bell, b: nat) {
    && t.consumer == Parked && t.wake && t.valid && t.reliable
    && b in t.bound && b in t.boxes && HasWork(t.boxes[b])
    && t.kernel == 0 && forall p :: 0 <= p < |t.producers| ==> !WillRing(t, p)
  }

  /** No second re-check in these steps. */
  predicate OneCheck(steps: seq<Step>) { forall e :: e in steps ==> !e.BeginCheck? }

  /** A re-check begun now can end in a lost wake-up. */
  ghost predicate CanLose(s: Bell, todo: seq<nat>, b: nat)
    requires Enabled(s, BeginCheck(todo))
  {
    exists steps, t :: OneCheck(steps) && Run(Apply(s, BeginCheck(todo)), steps, t) && Lost(t, b)
  }

  // With a doorbell.

  /** A doorbell object stays, as usable as it was made; what was noted when the
      re-check began stays until the next one. */
  ghost predicate Stays(s: Bell, t: Bell) {
    s.wake ==> t.wake && t.valid == s.valid && t.armed == s.armed
  }

  lemma StepStays(s: Bell, e: Step)
    requires Enabled(s, e) && !e.BeginCheck?
    ensures Stays(s, Apply(s, e))
  {
  }

  lemma {:induction false} RunStays(s: Bell, steps: seq<Step>, t: Bell)
    requires Run(s, steps, t) && OneCheck(steps)
    ensures Stays(s, t)
    decreases |steps|
  {
    if steps != [] {
      StepStays(s, steps[0]);
      assert forall e :: e in steps[1..] ==> e in steps;
      RunStays(Apply(s, steps[0]), steps[1..], t);
    }
  }

  /** Begun with a doorbell object, usable or not, the re-check loses nothing. */
  lemma BellLosesNothing(start: Bell, before: seq<Step>, s: Bell, todo: seq<nat>, steps: seq<Step>, t: Bell, b: nat)
    requires Initial(start) && Run(start, before, s) && Enabled(s, BeginCheck(todo)) && s.wake
    requires OneCheck(steps) && Run(Apply(s, BeginCheck(todo)), steps, t)
    ensures !Lost(t, b)
  {
    if Lost(t, b) {
      var u := Apply(s, BeginCheck(todo));
      RunStays(u, steps, t);
      RunSnoc(start, before, s, BeginCheck(todo), u);
      RunThen(start, before + [BeginCheck(todo)], u, steps, t);
      NoLostWakeUp(start, before + [BeginCheck(todo)] + steps, t, b);
    }
  }

  lemma {:induction false} RunThen(s: Bell, steps: seq<Step>, t: Bell, more: seq<Step>, u: Bell)
    requires Run(s, steps, t) && Run(t, more, u)
    ensures Run(s, steps + more, u)
    decreases |steps|
  {
    if steps == [] {
      assert steps + more == more;
    } else {
      RunThen(Apply(s, steps[0]), steps[1..], t, more, u);
      assert (steps + more)[1..] == steps[1..] + more;
    }
  }

  // Without one.

  /** Nobody has touched a bell that does not exist. */
  ghost predicate Mute(s: Bell) {
    !s.wake ==> s.kernel == 0
  }

  lemma {:induction false} RunMute(s: Bell, steps: seq<Step>, t: Bell)
    requires Sound(s) && Mute(s) && Run(s, steps, t)
    ensures Mute(t)
    decreases |steps|
  {
    if steps != [] {
      StepMute(s, steps[0]);
      StepSound(s, steps[0]);
      RunMute(Apply(s, steps[0]), steps[1..], t);
    }
  }

  lemma StepMute(s: Bell, e: Step)
    requires Sound(s) && Mute(s) && Enabled(s, e)
    ensures Mute(Apply(s, e))
  {
    hide FlagSound, ReadsSound;
  }

  /** A sequence of steps of this one re-check, added to those so far. */
  lemma Then(s: Bell, steps: seq<Step>, t: Bell, e: Step, u: Bell)
    requires Run(s, steps, t) && OneCheck(steps) && Enabled(t, e) && !e.BeginCheck? && u == Apply(t, e)
    ensures Run(s, steps + [e], u) && OneCheck(steps + [e])
  {
    RunSnoc(s, steps, t, e, u);
  }

  function Hushed(s: Bell, n: nat): Bell
    requires n <= |s.producers|
  {
    s.(producers := seq(|s.producers|, i requires 0 <= i < |s.producers| => if i < n then Idle else s.producers[i]))
  }

  lemma HushedStep(s: Bell, n: nat)
    requires n < |s.producers|
    ensures Hushed(s, n + 1) == Move(Hushed(s, n), n, Idle) && Hushed(s, n).producers[n] == s.producers[n]
  {
    assert Hushed(s, n + 1).producers == Hushed(s, n).producers[n := Idle];
  }

  /** While no bell exists, every producer underway ends without ringing. */
  lemma {:induction false} Hush(s: Bell, n: nat) returns (steps: seq<Step>)
    requires !s.wake && n <= |s.producers| && forall p :: 0 <= p < |s.producers| ==> !Touching(s.producers[p])
    ensures Run(s, steps, Hushed(s, n)) && OneCheck(steps)
  {
    if n == 0 {
      assert Hushed(s, 0).producers == s.producers;
      return [];
    }
    steps := Hush(s, n - 1);
    HushedStep(s, n - 1);
    steps := HushOne(s, steps, Hushed(s, n - 1), n - 1);
  }

  lemma HushOne(s: Bell, before: seq<Step>, t: Bell, p: nat) returns (steps: seq<Step>)
    requires Run(s, before, t) && OneCheck(before) && !t.wake && Live(t, p) && !Touching(t.producers[p])
    ensures Run(s, steps, Move(t, p, Idle)) && OneCheck(steps)
  {
    var q := t.producers[p];
    if q == Idle {
      assert t.producers[p := Idle] == t.producers;
      return before;
    }
    if q.Called? {
      steps := HushCalled(s, before, t, p);
      return;
    }
    var u := Move(t, p, if t.anyWake then Called(q.boxes, q.broadcast) else Idle);
    Then(s, before, t, LoadAny(p), u);
    steps := before + [LoadAny(p)];
    assert u.producers[p := Idle] == t.producers[p := Idle];
    if t.anyWake { steps := HushCalled(s, steps, u, p); }
  }

  lemma HushCalled(s: Bell, before: seq<Step>, t: Bell, p: nat) returns (steps: seq<Step>)
    requires Run(s, before, t) && OneCheck(before) && !t.wake && Live(t, p) && t.producers[p].Called?
    ensures Run(s, steps, Move(t, p, Idle)) && OneCheck(steps)
  {
    Then(s, before, t, Lookup(p), Move(t, p, Idle));
    return before + [Lookup(p)];
  }

  /** With nothing in the boxes, the re-check finds nothing. */
  lemma {:induction false} FindNothing(s: Bell, todo: seq<nat>) returns (steps: seq<Step>)
    requires s.consumer == Checking(todo, 0)
    requires forall b :: b in todo ==> b in s.boxes && !HasWork(s.boxes[b])
    ensures Run(s, steps, s.(consumer := Checked)) && OneCheck(steps)
    decreases |todo|
  {
    if todo == [] {
      Then(s, [], s, Check, s.(consumer := Checked));
      return [] + [Check];
    }
    steps := ReadBox(s, todo);
    var t := s.(consumer := Checking(todo[1..], 0));
    var more := FindNothing(t, todo[1..]);
    RunThen(s, steps, t, more, s.(consumer := Checked));
    steps := steps + more;
  }

  /** The three reads of one empty box. */
  lemma ReadBox(s: Bell, todo: seq<nat>) returns (steps: seq<Step>)
    requires s.consumer == Checking(todo, 0) && todo != []
    requires forall b :: b in todo ==> b in s.boxes && !HasWork(s.boxes[b])
    ensures Run(s, steps, s.(consumer := Checking(todo[1..], 0))) && OneCheck(steps)
  {
    var t, u := s.(consumer := Checking(todo, 1)), s.(consumer := Checking(todo, 2));
    Then(s, [], s, Check, t);
    steps := [] + [Check];
    Then(s, steps, t, Check, u);
    steps := steps + [Check];
    Then(s, steps, u, Check, s.(consumer := Checking(todo[1..], 0)));
    steps := steps + [Check];
  }

  /** A publication that finds no bell, the bell, and the park. */
  lemma SleepThrough(start: Bell, before: seq<Step>, s: Bell, p: nat, b: nat) returns (steps: seq<Step>, t: Bell)
    requires Run(start, before, s) && OneCheck(before)
    requires s.consumer == Checked && !s.wake && s.kernel == 0 && b in s.bound && b in s.boxes && Live(s, p)
    requires forall q :: 0 <= q < |s.producers| ==> s.producers[q] == Idle
    ensures Run(start, steps, t) && OneCheck(steps) && Lost(t, b)
  {
    var news := Publish(p, b, Item(false), false);
    var u := Apply(s, news);
    Then(start, before, s, news, u);
    steps := HushOne(start, before + [news], u, p);
    var v := Move(u, p, Idle);
    var w := Apply(v, Enable(true));
    Then(start, steps, v, Enable(true), w);
    steps := steps + [Enable(true)];
    t := w.(consumer := Parked);
    Then(start, steps, w, Park, t);
    steps := steps + [Park];
    forall q | 0 <= q < |t.producers| ensures !WillRing(t, q) { assert t.producers[q] == Idle; }
  }

  /** Nothing but items that the receiver may drop. */
  predicate Passing(b: Box) { b.lasting == 0 && !b.failed && !b.terminal }

  /** The receiver drops every item with a ticket from one mailbox. */
  lemma {:induction false} EvictOne(s: Bell, c: nat) returns (steps: seq<Step>)
    requires c in s.boxes
    ensures Run(s, steps, s.(boxes := s.boxes[c := s.boxes[c].(loose := 0)])) && OneCheck(steps)
    decreases s.boxes[c].loose
  {
    if s.boxes[c].loose == 0 {
      assert s.boxes[c := s.boxes[c].(loose := 0)] == s.boxes;
      return [];
    }
    var t := s.(boxes := s.boxes[c := Dropped(s.boxes[c])]);
    var rest := EvictOne(t, c);
    assert t.boxes[c := t.boxes[c].(loose := 0)] == s.boxes[c := s.boxes[c].(loose := 0)];
    var u := s.(boxes := s.boxes[c := s.boxes[c].(loose := 0)]);
    EvictFirst(s, c, rest, u);
    steps := [Evict(c)] + rest;
  }

  lemma EvictFirst(s: Bell, c: nat, rest: seq<Step>, u: Bell)
    requires c in s.boxes && s.boxes[c].loose > 0
    requires Run(s.(boxes := s.boxes[c := Dropped(s.boxes[c])]), rest, u)
    ensures Run(s, [Evict(c)] + rest, u)
  {
    assert ([Evict(c)] + rest)[1..] == rest;
  }

  /** And from all that are about to be read. */
  lemma {:induction false} EvictAll(s: Bell, todo: seq<nat>) returns (steps: seq<Step>, t: Bell)
    requires forall c :: c in todo ==> c in s.boxes && Passing(s.boxes[c])
    ensures Run(s, steps, t) && OneCheck(steps) && t == s.(boxes := t.boxes) && t.boxes.Keys == s.boxes.Keys
    ensures forall c :: c in s.boxes ==> t.boxes[c] == s.boxes[c] || t.boxes[c] == s.boxes[c].(loose := 0)
    ensures forall c :: c in todo ==> !HasWork(t.boxes[c])
    decreases |todo|
  {
    if todo == [] { return [], s; }
    var first := EvictOne(s, todo[0]);
    var u := s.(boxes := s.boxes[todo[0] := s.boxes[todo[0]].(loose := 0)]);
    var rest;
    rest, t := EvictAll(u, todo[1..]);
    RunThen(s, first, u, rest, t);
    steps := first + rest;
  }

  /** Begun without a doorbell object, a re-check of mailboxes that have at most
      items the receiver may drop can be slept through, whatever producers are
      underway. */
  lemma NoBellCanLose(start: Bell, before: seq<Step>, s: Bell, todo: seq<nat>, b: nat)
    requires Initial(start) && Run(start, before, s) && Enabled(s, BeginCheck(todo)) && !s.wake
    requires s.producers != [] && b in s.bound && forall c :: c in s.bound && c in s.boxes ==> Passing(s.boxes[c])
    ensures CanLose(s, todo, b)
  {
    InitialSound(start);
    RunSound(start, before, s);
    RunMute(start, before, s);
    hide FlagSound, ReadsSound;
    var u := Apply(s, BeginCheck(todo));
    var dropped, v := EvictAll(u, todo);
    var steps := QuietCheck(u, dropped, v, todo);
    var w := Hushed(v.(consumer := Checked), |v.producers|);
    var t;
    steps, t := SleepThrough(u, steps, w, 0, b);
  }

  /** The re-check finds nothing and all producers come to rest. */
  lemma QuietCheck(u: Bell, before: seq<Step>, v: Bell, todo: seq<nat>) returns (steps: seq<Step>)
    requires Run(u, before, v) && OneCheck(before) && v.consumer == Checking(todo, 0) && !v.wake
    requires forall c :: c in todo ==> c in v.boxes && !HasWork(v.boxes[c])
    requires forall p :: 0 <= p < |v.producers| ==> !Touching(v.producers[p])
    ensures Run(u, steps, Hushed(v.(consumer := Checked), |v.producers|)) && OneCheck(steps)
  {
    hide HasWork, Touching;
    var found := FindNothing(v, todo);
    var w := v.(consumer := Checked);
    RunThen(u, before, v, found, w);
    var more := Hush(w, |w.producers|);
    RunThen(u, before + found, w, more, Hushed(w, |w.producers|));
    steps := before + found + more;
  }

  // With something that stays.

  /** Part `k` of a mailbox shows work that only the owner can take away. */
  predicate FirmAt(b: Box, k: nat) {
    (k == 0 && b.lasting != 0) || (k == 1 && b.failed) || (k == 2 && b.terminal)
  }

  /** The re-check has that part still before it, or has found something. */
  ghost predicate Ahead(s: Bell, c: nat, k: nat) {
    && s.consumer != Checked && s.consumer != Parked
    && (s.consumer.Checking? ==>
          var todo := s.consumer.todo;
          && c in s.boxes && FirmAt(s.boxes[c], k) && c in todo && (todo[0] == c && c !in todo[1..] ==> s.consumer.part <= k))
  }

  lemma AheadStep(s: Bell, e: Step, c: nat, k: nat)
    requires Ahead(s, c, k) && Enabled(s, e) && !e.BeginCheck?
    ensures Ahead(Apply(s, e), c, k)
  {
    if e.Check? {
      AheadRead(s, c, k);
    } else {
      FirmStays(s, e, c, k);
      OwnerStays(s, e);
      hide Apply, FirmAt;
    }
  }

  lemma AheadRead(s: Bell, c: nat, k: nat)
    requires Ahead(s, c, k) && Enabled(s, Check)
    ensures Ahead(Apply(s, Check), c, k)
  {
    var todo := s.consumer.todo;
    assert todo == [todo[0]] + todo[1..];
  }

  /** Only an owner that is awake takes anything away for good. */
  lemma FirmStays(s: Bell, e: Step, c: nat, k: nat)
    requires Enabled(s, e)
    ensures s.consumer != Awake && c in s.boxes && FirmAt(s.boxes[c], k) ==> c in Apply(s, e).boxes && FirmAt(Apply(s, e).boxes[c], k)
  {
    if !e.Publish? && !e.Evict? && !e.Consume? { BoxesStay(s, e); }
  }

  predicate OfProducer(e: Step) {
    e.Publish? || e.LoadAny? || e.Lookup? || e.Exchange? || e.WriteOne? || e.LoseTransport? || e.Reset?
  }

  lemma BoxesStay(s: Bell, e: Step)
    requires Enabled(s, e) && !e.Publish? && !e.Evict? && !e.Consume?
    ensures Apply(s, e).boxes == s.boxes
  {
    if OfProducer(e) { BellOnly(s, e); }
  }

  lemma BellOnly(s: Bell, e: Step)
    requires Enabled(s, e) && OfProducer(e)
    ensures Apply(s, e).consumer == s.consumer && (!e.Publish? ==> Apply(s, e).boxes == s.boxes)
  {
    if e.Publish? || e.LoadAny? || e.Lookup? { CallOnly(s, e); } else { RingOnly(s, e); }
    hide Apply, Enabled;
  }

  lemma CallOnly(s: Bell, e: Step)
    requires Enabled(s, e) && (e.Publish? || e.LoadAny? || e.Lookup?)
    ensures Apply(s, e).consumer == s.consumer && (!e.Publish? ==> Apply(s, e).boxes == s.boxes)
  {
  }

  lemma RingOnly(s: Bell, e: Step)
    requires Enabled(s, e) && (e.Exchange? || e.WriteOne? || e.LoseTransport? || e.Reset?)
    ensures Apply(s, e).consumer == s.consumer && Apply(s, e).boxes == s.boxes
  {
    if e.WriteOne? { WriteOnly(s, e.p, e.outcome); } else if e.Exchange? { ExchangeOnly(s, e.p); }
  }

  lemma ExchangeOnly(s: Bell, p: nat)
    requires Enabled(s, Exchange(p))
    ensures var t := Apply(s, Exchange(p)); t.consumer == s.consumer && t.boxes == s.boxes
  {
  }

  lemma WriteOnly(s: Bell, p: nat, outcome: Write)
    requires Enabled(s, WriteOne(p, outcome))
    ensures var t := Apply(s, WriteOne(p, outcome)); t.consumer == s.consumer && t.boxes == s.boxes
  {
  }

  /** A re-check goes on only by its own reads, and only it leads to a park. */
  lemma OwnerStays(s: Bell, e: Step)
    requires Enabled(s, e) && !e.Check? && !e.BeginCheck?
    ensures var c := Apply(s, e).consumer; c == s.consumer || (!c.Checking? && c != Checked && (c == Parked ==> s.consumer == Checked))
  {
    if OfProducer(e) { BellOnly(s, e); }
  }

  lemma {:induction false} RunAhead(s: Bell, steps: seq<Step>, t: Bell, c: nat, k: nat)
    requires Ahead(s, c, k) && Run(s, steps, t) && OneCheck(steps)
    ensures Ahead(t, c, k)
    decreases |steps|
  {
    hide Ahead;
    if steps != [] {
      AheadStep(s, steps[0], c, k);
      assert forall e :: e in steps[1..] ==> e in steps;
      RunAhead(Apply(s, steps[0]), steps[1..], t, c, k);
    }
  }

  /** A re-check does not miss what stays: it does not end in the park. */
  lemma FirmIsFound(s: Bell, todo: seq<nat>, c: nat, steps: seq<Step>, t: Bell, b: nat)
    requires Enabled(s, BeginCheck(todo)) && c in s.bound && c in s.boxes && !Passing(s.boxes[c])
    requires OneCheck(steps) && Run(Apply(s, BeginCheck(todo)), steps, t)
    ensures !Lost(t, b)
  {
    var k := if s.boxes[c].lasting != 0 then 0 else if s.boxes[c].failed then 1 else 2;
    RunAhead(Apply(s, BeginCheck(todo)), steps, t, c, k);
  }

  /** For an owner about to re-check, with any producer around: work published
      later can be slept through if and only if no doorbell object exists as the
      re-check begins and no mailbox shows anything that the receiver cannot drop
      again. */
  lemma LostExactlyWithoutBell(start: Bell, before: seq<Step>, s: Bell, todo: seq<nat>, b: nat)
    requires Initial(start) && Run(start, before, s) && Enabled(s, BeginCheck(todo))
    requires s.producers != [] && b in s.bound
    ensures CanLose(s, todo, b) <==> !s.wake && forall c :: c in s.bound && c in s.boxes ==> Passing(s.boxes[c])
  {
    hide Lost, Initial, Enabled, Apply;
    if !s.wake && forall c :: c in s.bound && c in s.boxes ==> Passing(s.boxes[c]) {
      NoBellCanLose(start, before, s, todo, b);
    }
    if steps, t :| OneCheck(steps) && Run(Apply(s, BeginCheck(todo)), steps, t) && Lost(t, b) {
      if s.wake { BellLosesNothing(start, before, s, todo, steps, t, b); }
      if c :| c in s.bound && c in s.boxes && !Passing(s.boxes[c]) { FirmIsFound(s, todo, c, steps, t, b); }
    }
  }
}
