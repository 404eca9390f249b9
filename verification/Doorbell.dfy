/** The coalescing doorbell between receiver threads and one parked owner.
    Every atomic access, kernel call and mailbox read is a step of its own; any
    number of producers and mailboxes take part. */
module Doorbell {

  /** What one mailbox shows to an observer: its items, those with a ticket, which
      the receiver may drop, apart from the others; a failure; a terminal. */
  datatype Box = Box(loose: nat, lasting: nat, failed: bool, terminal: bool) {
    function Depth(): nat { loose + lasting }
  }

  datatype News = Item(lasting: bool) | Failure | Terminal

  /** Where a producer stands between publishing and the end of its ring.
      A broadcast may publish to many boxes before it rings every owner. */
  datatype Producer =
    | Idle
    | Published(boxes: set<nat>, broadcast: bool)
    | Called(boxes: set<nat>, broadcast: bool)   // saw that some owner has a doorbell
    | Ringing                                    // found this owner's doorbell
    | Writing(attempt: nat)                      // moved the flag from false to true
    | Breaking                                   // failing: about to clear `reliable`
    | Broken                                     // failing: about to clear `asserted`

  datatype Consumer =
    | Awake
    | Draining                                   // clear: emptying the kernel object
    | Storing                                    // clear: about to reset the flag
    | ClearBreaking | ClearBroken
    | Checking(todo: seq<nat>, part: nat)        // re-check, one read at a time
    | Checked
    | Parked

  datatype Bell = Bell(
    wake: bool, valid: bool, anyWake: bool,      // doorbell object, usable, global fast-path flag
    asserted: bool, reliable: bool, kernel: nat, // coalescing flag, transport health, readable bytes
    boxes: map<nat, Box>, bound: set<nat>,
    producers: seq<Producer>, consumer: Consumer,
    armed: bool)                                 // the doorbell was usable when the re-check began

  datatype Write = Written | WouldBlock | Interrupted | WriteError
  datatype Read = Drained(left: nat) | ReadInterrupted | Empty | PeerClosed

  datatype Step =
    | Publish(p: nat, b: nat, news: News, broadcast: bool)
    | LoadAny(p: nat)
    | Lookup(p: nat)
    | Exchange(p: nat)
    | WriteOne(p: nat, outcome: Write)
    | LoseTransport(p: nat)
    | Reset(p: nat)
    | Evict(b: nat)                              // the receiver drops an item with a ticket
    | OtherOwners(any: bool)                     // doorbells of other owners come and go
    | Enable(valid: bool)
    | Bind(b: nat) | Unbind(b: nat) | Consume(b: nat, lasting: bool)
    | BeginClear
    | ReadOne(got: Read)
    | StoreFalse
    | ClearLose | ClearReset
    | BeginCheck(todo: seq<nat>)
    | Check
    | Park
    | Rise

  ghost predicate Initial(s: Bell) {
    && !s.wake && !s.asserted && s.reliable && s.kernel == 0 && s.bound == {} && !s.armed
    && s.consumer == Awake && forall p :: 0 <= p < |s.producers| ==> s.producers[p] == Idle
  }

  predicate HasPart(b: Box, part: nat) {
    (part == 0 && b.Depth() != 0) || (part == 1 && b.failed) || (part == 2 && b.terminal)
  }

  predicate HasWork(b: Box) { b.Depth() != 0 || b.failed || b.terminal }

  function Posted(b: Box, news: News): Box {
    match news
    case Item(lasting) => if lasting then b.(lasting := b.lasting + 1) else b.(loose := b.loose + 1)
    case Failure => b.(failed := true)
    case Terminal => b.(terminal := true)
  }

  function Dropped(b: Box): Box
    requires b.loose > 0
  {
    b.(loose := b.loose - 1)
  }

  predicate Live(s: Bell, p: nat) { p < |s.producers| }

  ghost predicate Enabled(s: Bell, e: Step) {
    match e
    case Publish(p, b, _, broadcast) => Live(s, p) && b in s.boxes &&
      (s.producers[p] == Idle || (broadcast && s.producers[p].Published? && s.producers[p].broadcast))
    case LoadAny(p) => Live(s, p) && s.producers[p].Published?
    case Lookup(p) => Live(s, p) && s.producers[p].Called?
    case Exchange(p) => Live(s, p) && s.producers[p].Ringing?
    case WriteOne(p, outcome) => Live(s, p) && s.producers[p].Writing? && (outcome == WouldBlock ==> s.kernel > 0)
    case LoseTransport(p) => Live(s, p) && s.producers[p].Breaking?
    case Reset(p) => Live(s, p) && s.producers[p].Broken?
    case Evict(b) => b in s.boxes && s.boxes[b].loose > 0
    case OtherOwners(_) => true
    case Enable(_) => true
    case Bind(b) => s.consumer == Awake && b in s.boxes
    case Unbind(b) => s.consumer == Awake
    case Consume(b, lasting) => s.consumer == Awake && b in s.boxes && (if lasting then s.boxes[b].lasting else s.boxes[b].loose) > 0
    case BeginClear => s.consumer == Awake
    case ReadOne(got) => s.consumer == Draining &&
      (got.Drained? ==> got.left < s.kernel) && (got == Empty ==> s.kernel == 0)
    case StoreFalse => s.consumer == Storing
    case ClearLose => s.consumer == ClearBreaking
    case ClearReset => s.consumer == ClearBroken
    case BeginCheck(todo) => s.consumer == Awake && forall b :: b in s.bound <==> b in todo
    case Check => s.consumer.Checking? && forall b :: b in s.consumer.todo ==> b in s.boxes
    case Park => s.consumer == Checked
    case Rise => s.consumer == Parked
  }

  function Move(s: Bell, p: nat, q: Producer): Bell
    requires Live(s, p)
  {
    s.(producers := s.producers[p := q])
  }

  /** The owner after the next read of its re-check, or at its end. */
  function AfterRead(s: Bell): Consumer
    requires s.consumer.Checking? && forall b :: b in s.consumer.todo ==> b in s.boxes
  {
    var todo, part := s.consumer.todo, s.consumer.part;
    if todo == [] then Checked
    else if HasPart(s.boxes[todo[0]], part) then Awake
    else if part < 2 then Checking(todo, part + 1)
    else Checking(todo[1..], 0)
  }

  /** The producer after one of its at most eight attempts to write. */
  function NextWrite(n: nat, outcome: Write): Producer {
    match outcome
    case Written => Idle
    case WouldBlock => Idle
    case Interrupted => if n + 1 < 8 then Writing(n + 1) else Breaking
    case WriteError => Breaking
  }

  ghost function Apply(s: Bell, e: Step): Bell
    requires Enabled(s, e)
  {
    match e
    case Publish(p, b, news, broadcast) =>
      var q := s.producers[p];
      Move(s.(boxes := s.boxes[b := Posted(s.boxes[b], news)]), p,
           Published(if q.Published? then q.boxes + {b} else {b}, broadcast))
    case LoadAny(p) =>
      var q := s.producers[p];
      Move(s, p, if s.anyWake then Called(q.boxes, q.broadcast) else Idle)
    case Lookup(p) =>
      var q := s.producers[p];
      Move(s, p, if s.wake && (q.broadcast || q.boxes * s.bound != {}) then Ringing else Idle)
    case Exchange(p) =>
      if !s.valid || s.asserted then Move(s, p, Idle) else Move(s.(asserted := true), p, Writing(0))
    case WriteOne(p, outcome) =>
      Move(s.(kernel := if outcome == Written then s.kernel + 1 else s.kernel), p, NextWrite(s.producers[p].attempt, outcome))
    case LoseTransport(p) => Move(s.(reliable := false), p, Broken)
    case Reset(p) => Move(s.(asserted := false), p, Idle)
    case Evict(b) => s.(boxes := s.boxes[b := Dropped(s.boxes[b])])
    case OtherOwners(any) => if s.wake then s else s.(anyWake := any)
    case Enable(valid) =>
      if s.wake then s
      else s.(wake := true, valid := valid, anyWake := s.anyWake || valid,
              asserted := false, reliable := valid, kernel := 0)
    case Bind(b) => s.(bound := s.bound + {b})
    case Unbind(b) => s.(bound := s.bound - {b})
    case Consume(b, lasting) =>
      s.(boxes := s.boxes[b := if lasting then s.boxes[b].(lasting := s.boxes[b].lasting - 1) else Dropped(s.boxes[b])])
    case BeginClear =>
      if !s.wake then s else if !s.valid then s.(asserted := false) else s.(consumer := Draining)
    case ReadOne(got) =>
      (match got
       case Drained(left) => s.(kernel := left)
       case ReadInterrupted => s
       case Empty => s.(consumer := Storing)
       case PeerClosed => s.(consumer := ClearBreaking))
    case StoreFalse => s.(asserted := false, consumer := Awake)
    case ClearLose => s.(reliable := false, consumer := ClearBroken)
    case ClearReset => s.(asserted := false, consumer := Awake)
    case BeginCheck(todo) => s.(consumer := Checking(todo, 0), armed := s.wake && s.valid)
    case Check => s.(consumer := AfterRead(s))
    case Park => s.(consumer := if s.wake && s.valid && s.reliable then Parked else Awake)
    case Rise => s.(consumer := Awake)
  }

  ghost predicate Run(s: Bell, steps: seq<Step>, t: Bell)
    decreases |steps|
  {
    if steps == [] then s == t
    else Enabled(s, steps[0]) && Run(Apply(s, steps[0]), steps[1..], t)
  }

  // Invariants.

  /** This producer holds the raised flag: it will write, or give up on the bell. */
  predicate Committed(q: Producer) { q.Writing? || q.Breaking? }

  /** This producer will touch the bell before it is idle again. */
  predicate WillRing(s: Bell, p: nat)
    requires Live(s, p)
  {
    var q := s.producers[p];
    q.Ringing? || Committed(q) ||
    ((q.Published? || q.Called?) && (q.broadcast || q.boxes * s.bound != {}))
  }

  ghost predicate SomeCommitted(s: Bell) {
    exists p :: 0 <= p < |s.producers| && Committed(s.producers[p])
  }

  /** The bell is audible, or is about to be. */
  ghost predicate Pending(s: Bell) {
    s.kernel > 0 || exists p :: 0 <= p < |s.producers| && WillRing(s, p)
  }

  predicate Clearing(c: Consumer) { c == Draining || c == Storing || c == ClearBreaking }

  predicate Touching(q: Producer) { q.Ringing? || q.Writing? || q.Breaking? || q.Broken? }

  /** A set flag stands for a readable object or a write still to come. */
  ghost predicate FlagSound(s: Bell) {
    s.wake && s.valid && s.reliable && s.asserted && !Clearing(s.consumer) ==> (s.kernel > 0 || SomeCommitted(s))
  }

  /** Part `part` of box `b` has been read since the re-check began. */
  predicate Seen(c: Consumer, b: nat, part: nat) {
    c == Checked || c == Parked ||
    (c.Checking? && (b !in c.todo || (c.todo != [] && b == c.todo[0] && part < c.part && b !in c.todo[1..])))
  }

  predicate Noticed(s: Bell, b: nat, part: nat) {
    b in s.bound && b in s.boxes && part < 3 && Seen(s.consumer, b, part) && HasPart(s.boxes[b], part)
  }

  /** Work in a part already read arrived since, so its bell is pending. */
  ghost predicate ReadsSound(s: Bell) {
    s.armed && s.reliable ==> forall b, part :: Noticed(s, b, part) ==> Pending(s)
  }

  ghost predicate Sound(s: Bell) {
    && (s.wake && s.valid ==> s.anyWake)
    && (s.armed ==> s.wake && s.valid)
    && s.bound <= s.boxes.Keys
    && (s.consumer.Checking? ==> forall b :: b in s.consumer.todo ==> b in s.boxes)
    && (forall p :: 0 <= p < |s.producers| && s.producers[p].Broken? ==> !s.reliable)
    && (forall p :: 0 <= p < |s.producers| && Touching(s.producers[p]) ==> s.wake)
    && (s.consumer == ClearBroken ==> !s.reliable)
    && (Clearing(s.consumer) || s.consumer == ClearBroken ==> s.wake && s.valid)
    && FlagSound(s) && ReadsSound(s)
  }

  lemma InitialSound(s: Bell)
    requires Initial(s)
    ensures Sound(s)
  {
  }

  /** A producer other than `p` that would ring still would. */
  lemma OthersRing(s: Bell, t: Bell, p: nat)
    requires Live(s, p) && Live(t, p) && t.producers == s.producers[p := t.producers[p]]
    requires t.bound == s.bound && t.kernel >= s.kernel
    requires Pending(s) && (WillRing(s, p) ==> WillRing(t, p) || Pending(t))
    ensures Pending(t)
  {
    if s.kernel == 0 {
      var q :| 0 <= q < |s.producers| && WillRing(s, q);
      assert q != p ==> WillRing(t, q);
    }
  }

  lemma OthersCommitted(s: Bell, t: Bell, p: nat)
    requires Live(s, p) && Live(t, p) && t.producers == s.producers[p := t.producers[p]] && SomeCommitted(s)
    requires Committed(s.producers[p]) ==> Committed(t.producers[p])
    ensures SomeCommitted(t)
  {
    var q :| 0 <= q < |s.producers| && Committed(s.producers[q]);
    assert Committed(t.producers[q]);
  }

  lemma PublishSound(s: Bell, e: Step)
    requires Sound(s) && Enabled(s, e) && e.Publish?
    ensures Sound(Apply(s, e))
  {
    var t := Apply(s, e);
    if SomeCommitted(s) { OthersCommitted(s, t, e.p); }
    forall b, part | Noticed(t, b, part) && t.armed && t.reliable ensures Pending(t) {
      if b == e.b {
        assert WillRing(t, e.p) by { assert b in t.producers[e.p].boxes * t.bound; }
      } else {
        assert Noticed(s, b, part);
        OthersRing(s, t, e.p);
      }
    }
  }

  /** Steps of a producer on its way to the bell, short of any kernel call. */
  lemma ApproachSound(s: Bell, e: Step)
    requires Sound(s) && Enabled(s, e) && (e.LoadAny? || e.Lookup? || e.Exchange?)
    ensures Sound(Apply(s, e))
  {
    var t := Apply(s, e);
    if SomeCommitted(s) { OthersCommitted(s, t, e.p); }
    if t.producers[e.p].Writing? { assert SomeCommitted(t); }
    forall b, part | Noticed(t, b, part) && t.armed && t.reliable ensures Pending(t) {
      assert Noticed(s, b, part);
      if e.Exchange? && s.asserted && s.kernel == 0 {
        var q :| 0 <= q < |t.producers| && Committed(t.producers[q]);
        assert WillRing(t, q);
      }
      OthersRing(s, t, e.p);
    }
  }

  lemma WriteSound(s: Bell, e: Step)
    requires Sound(s) && Enabled(s, e) && e.WriteOne?
    ensures Sound(Apply(s, e))
  {
    var t := Apply(s, e);
    if t.producers[e.p] != Idle { assert Committed(t.producers[e.p]); }
    forall b, part | Noticed(t, b, part) && t.armed && t.reliable ensures Pending(t) {
      assert Noticed(s, b, part);
      if t.producers[e.p] != Idle { assert WillRing(t, e.p); }
    }
  }

  /** The object or the transport is lost: the bell is unreliable from here on. */
  lemma OutsideSound(s: Bell, e: Step)
    requires Sound(s) && Enabled(s, e) && (e.LoseTransport? || e.Reset?)
    ensures Sound(Apply(s, e))
  {
  }

  /** Steps that change mailboxes or the outside world, not the bell. */
  lemma WorldSound(s: Bell, e: Step)
    requires Sound(s) && Enabled(s, e)
    requires e.Evict? || e.OtherOwners? || e.Enable? || e.Bind? || e.Unbind? || e.Consume?
    ensures Sound(Apply(s, e))
  {
    var t := Apply(s, e);
    if SomeCommitted(s) {
      var q :| 0 <= q < |s.producers| && Committed(s.producers[q]);
      assert Committed(t.producers[q]);
    }
    forall b, part | Noticed(t, b, part) && t.armed && t.reliable ensures Pending(t) {
      assert Noticed(s, b, part);
      if s.kernel == 0 {
        var q :| 0 <= q < |s.producers| && WillRing(s, q);
        assert WillRing(t, q);
      }
    }
  }

  /** The bell itself as the owner reads mailboxes, parks and wakes. */
  lemma SameBell(s: Bell, t: Bell)
    requires t == s.(consumer := t.consumer, armed := t.armed)
    ensures Pending(s) <==> Pending(t)
    ensures SomeCommitted(s) <==> SomeCommitted(t)
  {
    if Pending(s) && s.kernel == 0 {
      var q :| 0 <= q < |s.producers| && WillRing(s, q);
      assert WillRing(t, q);
    }
    if Pending(t) && t.kernel == 0 {
      var q :| 0 <= q < |t.producers| && WillRing(t, q);
      assert WillRing(s, q);
    }
    if SomeCommitted(s) {
      var q :| 0 <= q < |s.producers| && Committed(s.producers[q]);
      assert Committed(t.producers[q]);
    }
  }

  lemma ClearSound(s: Bell, e: Step)
    requires Sound(s) && Enabled(s, e)
    requires e.BeginClear? || e.ReadOne? || e.StoreFalse? || e.ClearLose? || e.ClearReset?
    ensures Sound(Apply(s, e))
  {
    var t := Apply(s, e);
    assert forall b, part :: !Noticed(t, b, part);
    if SomeCommitted(s) {
      var q :| 0 <= q < |s.producers| && Committed(s.producers[q]);
      assert Committed(t.producers[q]);
    }
  }

  /** What one read of the re-check adds to the parts seen has no work. */
  lemma ReadNotices(s: Bell, b: nat, part: nat)
    requires s.consumer.Checking? && forall c :: c in s.consumer.todo ==> c in s.boxes
    requires b in s.bound && b in s.boxes && part < 3 && Seen(AfterRead(s), b, part) && HasPart(s.boxes[b], part)
    ensures Seen(s.consumer, b, part)
  {
  }

  /** Of the bound boxes a fresh re-check has read nothing. */
  lemma BeginNotices(s: Bell, todo: seq<nat>, b: nat, part: nat)
    requires forall c :: c in s.bound <==> c in todo
    ensures b in s.bound ==> !Seen(Checking(todo, 0), b, part)
  {
  }

  lemma CheckNotices(s: Bell, e: Step, b: nat, part: nat)
    requires Enabled(s, e) && (e.BeginCheck? || e.Check? || e.Park? || e.Rise?) && Noticed(Apply(s, e), b, part)
    ensures Noticed(s, b, part)
  {
    if e.Check? {
      hide AfterRead, HasPart;
      ReadNotices(s, b, part);
    } else if e.BeginCheck? {
      BeginNotices(s, e.todo, b, part);
      hide HasPart, Seen;
    } else {
      hide HasPart;
    }
  }

  lemma CheckSound(s: Bell, e: Step)
    requires Sound(s) && Enabled(s, e) && (e.BeginCheck? || e.Check? || e.Park? || e.Rise?)
    ensures Sound(Apply(s, e))
  {
    var t := Apply(s, e);
    SameBell(s, t);
    forall b, part | Noticed(t, b, part) && t.armed && t.reliable ensures Pending(t) {
      hide Pending, SomeCommitted, FlagSound;
      CheckNotices(s, e, b, part);
    }
    hide Pending, SomeCommitted, Noticed;
  }

  lemma StepSound(s: Bell, e: Step)
    requires Sound(s) && Enabled(s, e)
    ensures Sound(Apply(s, e))
  {
    if e.Publish? { PublishSound(s, e); }
    else if e.LoadAny? || e.Lookup? || e.Exchange? { ApproachSound(s, e); }
    else if e.WriteOne? { WriteSound(s, e); }
    else if e.LoseTransport? || e.Reset? { OutsideSound(s, e); }
    else if e.Evict? || e.OtherOwners? || e.Enable? || e.Bind? || e.Unbind? || e.Consume? { WorldSound(s, e); }
    else if e.BeginCheck? || e.Check? || e.Park? || e.Rise? { CheckSound(s, e); }
    else { ClearSound(s, e); }
  }

  lemma {:induction false} RunSound(s: Bell, steps: seq<Step>, t: Bell)
    requires Sound(s) && Run(s, steps, t)
    ensures Sound(t)
    decreases |steps|
  {
    if steps != [] {
      StepSound(s, steps[0]);
      RunSound(Apply(s, steps[0]), steps[1..], t);
    }
  }

  // Main results.

  /** No lost wake-up: an owner that parked after a re-check begun with a usable
      doorbell has a readable object, or a producer about to make one, whenever
      a bound mailbox has work. */
  lemma NoLostWakeUp(s: Bell, steps: seq<Step>, t: Bell, b: nat)
    requires Initial(s) && Run(s, steps, t)
    requires t.consumer == Parked && t.armed && t.reliable
    requires b in t.bound && b in t.boxes && HasWork(t.boxes[b])
    ensures t.kernel > 0 || exists p :: 0 <= p < |t.producers| && WillRing(t, p)
  {
    InitialSound(s);
    RunSound(s, steps, t);
    var part := if t.boxes[b].Depth() != 0 then 0 else if t.boxes[b].failed then 1 else 2;
    assert Noticed(t, b, part);
  }

  /** Once every producer is idle, the parked owner can only have work if its
      wait returns at once. */
  lemma QuietMeansReadable(s: Bell, steps: seq<Step>, t: Bell, b: nat)
    requires Initial(s) && Run(s, steps, t)
    requires t.consumer == Parked && t.armed && t.reliable
    requires b in t.bound && b in t.boxes && HasWork(t.boxes[b])
    requires forall p :: 0 <= p < |t.producers| ==> t.producers[p] == Idle
    ensures t.kernel > 0
  {
    NoLostWakeUp(s, steps, t, b);
  }

  lemma {:induction false} RunSnoc(s: Bell, steps: seq<Step>, t: Bell, e: Step, u: Bell)
    requires Run(s, steps, t) && Enabled(t, e) && u == Apply(t, e)
    ensures Run(s, steps + [e], u)
    decreases |steps|
  {
    var more := steps + [e];
    if steps == [] {
      assert more[1..] == [];
    } else {
      RunSnoc(Apply(s, steps[0]), steps[1..], t, e, u);
      assert more[1..] == steps[1..] + [e];
    }
  }

  /** One idle producer and one empty bound box, as seen by an owner at `c`. */
  function Scene(wake: bool, depth: nat, q: Producer, c: Consumer): Bell {
    Bell(wake, wake, wake, false, true, 0, map[0 := Box(depth, 0, false, false)], {0}, [q], c, false)
  }

  lemma ReadPart(s: Bell, steps: seq<Step>, c: Consumer, d: Consumer)
    requires Run(s, steps, Scene(false, 0, Idle, c))
    requires c == Checking([], 0) || (c.Checking? && c.todo == [0] && c.part < 3)
    requires d == if c.todo == [] then Checked else if c.part < 2 then Checking([0], c.part + 1) else Checking([], 0)
    ensures Run(s, steps + [Check], Scene(false, 0, Idle, d))
  {
    RunSnoc(s, steps, Scene(false, 0, Idle, c), Check, Scene(false, 0, Idle, d));
  }

  lemma StartWatching() returns (s: Bell, steps: seq<Step>)
    ensures Initial(s) && Run(s, steps, Scene(false, 0, Idle, Awake))
  {
    s := Scene(false, 0, Idle, Awake).(bound := {});
    RunSnoc(s, [], s, Bind(0), Scene(false, 0, Idle, Awake));
    return s, [] + [Bind(0)];
  }

  lemma StartChecking() returns (s: Bell, steps: seq<Step>)
    ensures Initial(s) && Run(s, steps, Scene(false, 0, Idle, Checking([0], 0)))
  {
    hide Run, Initial;
    s, steps := StartWatching();
    var t := Scene(false, 0, Idle, Awake);
    RunSnoc(s, steps, t, BeginClear, t);
    steps := steps + [BeginClear];
    RunSnoc(s, steps, t, BeginCheck([0]), Scene(false, 0, Idle, Checking([0], 0)));
    steps := steps + [BeginCheck([0])];
  }

  lemma FoundNothing() returns (s: Bell, steps: seq<Step>)
    ensures Initial(s) && Run(s, steps, Scene(false, 0, Idle, Checked))
  {
    s, steps := StartChecking();
    ReadPart(s, steps, Checking([0], 0), Checking([0], 1));
    steps := steps + [Check];
    ReadPart(s, steps, Checking([0], 1), Checking([0], 2));
    steps := steps + [Check];
    ReadPart(s, steps, Checking([0], 2), Checking([], 0));
    steps := steps + [Check];
    ReadPart(s, steps, Checking([], 0), Checked);
    steps := steps + [Check];
  }

  /** The guarantee needs the doorbell to exist before the re-check. Created
      between the re-check and the park, it can be slept through: the producer
      published while no owner had a doorbell and skipped its ring. */
  lemma EnabledTooLate() returns (s: Bell, steps: seq<Step>, t: Bell)
    ensures Initial(s) && Run(s, steps, t) && t.consumer == Parked && t.wake && t.valid && t.reliable
    ensures 0 in t.bound && 0 in t.boxes && HasWork(t.boxes[0]) && t.kernel == 0
    ensures forall p :: 0 <= p < |t.producers| ==> t.producers[p] == Idle
    ensures !t.armed
  {
    s, steps := FoundNothing();
    RunSnoc(s, steps, Scene(false, 0, Idle, Checked), Publish(0, 0, Item(false), false),
            Scene(false, 1, Published({0}, false), Checked));
    steps := steps + [Publish(0, 0, Item(false), false)];
    RunSnoc(s, steps, Scene(false, 1, Published({0}, false), Checked), LoadAny(0), Scene(false, 1, Idle, Checked));
    steps := steps + [LoadAny(0)];
    RunSnoc(s, steps, Scene(false, 1, Idle, Checked), Enable(true), Scene(true, 1, Idle, Checked));
    steps := steps + [Enable(true)];
    RunSnoc(s, steps, Scene(true, 1, Idle, Checked), Park, Scene(true, 1, Idle, Parked));
    steps := steps + [Park];
    t := Scene(true, 1, Idle, Parked);
  }

  // The two calls of the wake target, run without interruption.

  /** What one write attempt does to the bell, told without the step system. */
  function AfterWrite(t: Bell, p: nat, n: nat, answer: Write): Bell
    requires Live(t, p)
  {
    match answer
    case Written => Move(t.(kernel := t.kernel + 1), p, Idle)
    case WouldBlock => Move(t, p, Idle)
    case Interrupted => Move(t, p, if n + 1 < 8 then Writing(n + 1) else Breaking)
    case WriteError => Move(t, p, Breaking)
  }

  lemma WriteStep(s: Bell, steps: seq<Step>, t: Bell, p: nat, answer: Write)
    requires Run(s, steps, t) && Live(t, p) && t.producers[p].Writing? && (answer == WouldBlock ==> t.kernel > 0)
    ensures Run(s, steps + [WriteOne(p, answer)], AfterWrite(t, p, t.producers[p].attempt, answer))
  {
    RunSnoc(s, steps, t, WriteOne(p, answer), AfterWrite(t, p, t.producers[p].attempt, answer));
  }

  lemma ExchangeStep(s: Bell, p: nat)
    requires Live(s, p) && s.producers[p] == Ringing
    ensures Run(s, [Exchange(p)],
      if !s.valid || s.asserted then Move(s, p, Idle) else Move(s.(asserted := true), p, Writing(0)))
  {
    RunSnoc(s, [], s, Exchange(p), Apply(s, Exchange(p)));
    assert [] + [Exchange(p)] == [Exchange(p)];
  }

  lemma BreakSteps(s: Bell, steps: seq<Step>, t: Bell, p: nat)
    requires Run(s, steps, t) && Live(t, p) && t.producers[p] == Breaking
    ensures Run(s, steps + [LoseTransport(p)] + [Reset(p)], Move(t.(reliable := false, asserted := false), p, Idle))
  {
    var u := Move(t.(reliable := false), p, Broken);
    RunSnoc(s, steps, t, LoseTransport(p), u);
    assert u.producers[p := Idle] == t.producers[p := Idle];
    RunSnoc(s, steps + [LoseTransport(p)], u, Reset(p), Move(t.(reliable := false, asserted := false), p, Idle));
  }

  lemma ReadStep(s: Bell, steps: seq<Step>, t: Bell, got: Read)
    requires Run(s, steps, t) && t.consumer == Draining
    requires (got.Drained? ==> got.left < t.kernel) && (got == Empty ==> t.kernel == 0)
    ensures got.Drained? ==> Run(s, steps + [ReadOne(got)], t.(kernel := got.left))
    ensures got == ReadInterrupted ==> Run(s, steps + [ReadOne(got)], t)
    ensures got == Empty ==> Run(s, steps + [ReadOne(got)] + [StoreFalse], t.(asserted := false, consumer := Awake))
    ensures got == PeerClosed ==> Run(s, steps + [ReadOne(got)] + [ClearLose] + [ClearReset],
                                      t.(asserted := false, reliable := false, consumer := Awake))
  {
    var u := Apply(t, ReadOne(got));
    RunSnoc(s, steps, t, ReadOne(got), u);
    if got == Empty {
      RunSnoc(s, steps + [ReadOne(got)], u, StoreFalse, t.(asserted := false, consumer := Awake));
    } else if got == PeerClosed {
      var v := u.(reliable := false, consumer := ClearBroken);
      RunSnoc(s, steps + [ReadOne(got)], u, ClearLose, v);
      RunSnoc(s, steps + [ReadOne(got)] + [ClearLose], v, ClearReset,
              t.(asserted := false, reliable := false, consumer := Awake));
    }
  }

  lemma RunNone(s: Bell)
    ensures Run(s, [], s)
  {
  }

  /** The first answer of the kernel that is no interruption, from attempt `n` on;
      an interruption when all eight attempts were interrupted. */
  function Settles(outcomes: seq<Write>, n: nat): Write
    decreases 8 - n
  {
    if n >= 8 || n >= |outcomes| then Interrupted
    else if outcomes[n] == Interrupted then Settles(outcomes, n + 1)
    else outcomes[n]
  }

  predicate Unsent(answer: Write) { answer == Interrupted || answer == WriteError }

  lemma SettlesNext(outcomes: seq<Write>, n: nat)
    requires n < 8
    ensures var answer := if n < |outcomes| then outcomes[n] else Interrupted;
      if answer != Interrupted then Settles(outcomes, n) == answer
      else if n == 7 then Settles(outcomes, n) == Interrupted else Settles(outcomes, n) == Settles(outcomes, n + 1)
  {
  }

  /** The other end turns out to be closed before the object is found empty. */
  predicate Closes(answers: seq<Read>, kernel: nat) {
    if answers == [] then false
    else
      match answers[0]
      case PeerClosed => true
      case Empty => kernel > 0 && Closes(answers[1..], kernel)
      case ReadInterrupted => Closes(answers[1..], kernel)
      case Drained(left) => Closes(answers[1..], if left < kernel then left else kernel)
  }

  class WakeTarget {
    const valid: bool
    var asserted: bool
    var reliable: bool
    var kernel: nat

    predicate Shows(s: Bell)
      reads this
    {
      s.valid == valid && s.asserted == asserted && s.reliable == reliable && s.kernel == kernel
    }

    constructor (usable: bool)
      ensures valid == usable && !asserted && reliable == usable && kernel == 0
    {
      valid, asserted, reliable, kernel := usable, false, usable, 0;
    }

    /** `outcomes` is what the kernel answers to each write attempt; a missing
        answer is an interruption. The call is a run of one producer's steps. */
    method Ring(outcomes: seq<Write>, ghost s: Bell, ghost p: nat) returns (ghost steps: seq<Step>, ghost t: Bell)
      requires Shows(s) && Live(s, p) && s.producers[p] == Ringing
      requires WouldBlock in outcomes ==> kernel > 0
      modifies this
      ensures Shows(t) && Run(s, steps, t) && Live(t, p) && t.producers[p] == Idle
      ensures !valid || old(asserted) ==> kernel == old(kernel) && reliable == old(reliable) && asserted == old(asserted)
      ensures valid && !old(asserted) ==> var answer := Settles(outcomes, 0);
        && asserted == (answer == Written || answer == WouldBlock)
        && kernel == old(kernel) + (if answer == Written then 1 else 0)
        && reliable == (old(reliable) && asserted)
    {
      hide Run, Enabled, Apply, Settles, AfterWrite;
      ExchangeStep(s, p);
      steps, t := [Exchange(p)], Move(s, p, Idle);
      if !valid { return; }
      var was := asserted;
      asserted := true;
      if was { return; }
      var sent;
      sent, steps, t := Attempts(outcomes, s, p, steps, Move(s.(asserted := true), p, Writing(0)));
      if sent { return; }
      BreakSteps(s, steps, t, p);
      steps, t := steps + [LoseTransport(p)] + [Reset(p)], Move(t.(reliable := false, asserted := false), p, Idle);
      reliable := false;
      asserted := false;
    }

    /** The attempts to write. */
    method Attempts(outcomes: seq<Write>, ghost s: Bell, ghost p: nat, ghost before: seq<Step>, ghost r: Bell)
      returns (sent: bool, ghost steps: seq<Step>, ghost t: Bell)
      requires Shows(r) && Run(s, before, r) && Live(r, p) && r.producers[p] == Writing(0)
      requires WouldBlock in outcomes ==> kernel > 0
      modifies this`kernel
      ensures Shows(t) && Run(s, steps, t) && Live(t, p) && t.producers[p] == if sent then Idle else Breaking
      ensures var answer := Settles(outcomes, 0);
        sent == (answer == Written || answer == WouldBlock) && kernel == old(kernel) + if answer == Written then 1 else 0
    {
      hide Run, Enabled, Apply, Settles;
      steps, t := before, r;
      var attempt, lost := 0, false;
      while !lost
        invariant Shows(t) && Run(s, steps, t) && Live(t, p)
        invariant t.producers[p] == if lost then Breaking else Writing(attempt)
        invariant attempt < 8 && kernel == old(kernel)
        invariant if lost then Unsent(Settles(outcomes, 0)) else Settles(outcomes, 0) == Settles(outcomes, attempt)
        decreases 8 - attempt, !lost
      {
        var answer := if attempt < |outcomes| then outcomes[attempt] else Interrupted;
        if attempt < |outcomes| { assert outcomes[attempt] in outcomes; }
        SettlesNext(outcomes, attempt);
        WriteStep(s, steps, t, p, answer);
        steps, t := steps + [WriteOne(p, answer)], AfterWrite(t, p, attempt, answer);
        if answer == Written { kernel := kernel + 1; }
        if answer == Written || answer == WouldBlock { return true, steps, t; }
        lost := answer == WriteError || attempt == 7;
        if !lost { attempt := attempt + 1; }
      }
      return false, steps, t;
    }

    /** `answers` is what the kernel answers to each read; past its end the
        object is emptied. Afterwards a reliable bell is silent and its flag is
        down. */
    method Clear(answers: seq<Read>, ghost s: Bell) returns (ghost steps: seq<Step>, ghost t: Bell)
      requires Shows(s) && s.wake && s.consumer == Awake
      modifies this
      ensures Shows(t) && Run(s, steps, t) && t.consumer == Awake && t.producers == s.producers
      ensures !asserted && (valid && !Closes(answers, old(kernel)) ==> kernel == 0)
      ensures reliable == (old(reliable) && !(valid && Closes(answers, old(kernel))))
    {
      hide Run;
      RunNone(s);
      t := if !s.valid then s.(asserted := false) else s.(consumer := Draining);
      RunSnoc(s, [], s, BeginClear, t);
      steps := [] + [BeginClear];
      if !valid {
        asserted := false;
        return;
      }
      var i := 0;
      while true
        invariant Shows(t) && Run(s, steps, t) && t.consumer == Draining && t.producers == s.producers
        invariant i <= |answers| && reliable == old(reliable) && Closes(answers, old(kernel)) == Closes(answers[i..], kernel)
        decreases |answers| - i, kernel
      {
        var got := if i < |answers| then answers[i] else if kernel > 0 then Drained(0) else Empty;
        if (got.Drained? && got.left >= kernel) || (got == Empty && kernel > 0) { got := ReadInterrupted; }
        ReadStep(s, steps, t, got);
        if got == PeerClosed {
          steps := steps + [ReadOne(got)] + [ClearLose] + [ClearReset];
          t := t.(asserted := false, reliable := false, consumer := Awake);
          reliable := false;
          asserted := false;
          return;
        }
        if got == Empty {
          steps, t := steps + [ReadOne(got)] + [StoreFalse], t.(asserted := false, consumer := Awake);
          break;
        }
        steps := steps + [ReadOne(got)];
        if got.Drained? { kernel, t := got.left, t.(kernel := got.left); }
        if i < |answers| {
          assert answers[i..][1..] == answers[i + 1..];
          i := i + 1;
        }
      }
      asserted := false;
    }
  }
}
