/** The receiver worker: start, stop request, join ticket and failure. Any number
    of coordinators call in under the registry mutex; only the join itself runs
    without it. Generations are numbered from one. */
module WorkerLife {
  import opened Common

  datatype State = Stopped | Running | Stopping | Failed

  /** The fields of the runtime that decide about its worker thread. */
  datatype Life = Life(state: State, stop: bool, joinable: bool, joining: bool, generation: nat)

  const INITIAL := Life(Stopped, false, false, false, 0)

  /** What really happens: threads that have not left `run`, the coordinator with
      the join ticket, and the generations joined, in order. */
  datatype Threads = Threads(alive: set<nat>, holder: Option<nat>, joined: seq<nat>)

  const NO_THREADS := Threads({}, None, [])

  datatype Started = Started(life: Life, threw: bool)

  /** `startLocked`: `spawned` tells whether the thread constructor succeeds. */
  function Start(l: Life, idle: bool, spawned: bool): Started {
    if l.state == Failed then Started(l, true)
    else if l.state == Running || idle then Started(l, false)
    else if l.joinable || l.joining then Started(l, true)
    else if !spawned then Started(l.(stop := false), true)
    else Started(Life(Running, false, true, l.joining, l.generation + 1), false)
  }

  function RequestStop(l: Life): Life {
    l.(stop := true, state := if l.state == Running then Stopping else l.state)
  }

  /** The worker reports an exception. */
  function Fail(l: Life): Life {
    l.(state := Failed, stop := true)
  }

  /** A coordinator leaves `reapLocked` at once. */
  predicate NothingToReap(l: Life) {
    !l.joining && ((l.state != Stopping && l.state != Failed) || !l.joinable)
  }

  predicate CanTakeTicket(l: Life) {
    !l.joining && (l.state == Stopping || l.state == Failed) && l.joinable
  }

  datatype LifeStep =
    | StartStep(idle: bool, spawned: bool)
    | StopStep
    | FailStep                     // worker
    | ExitStep                     // worker leaves `run`
    | TakeTicket(who: nat)         // coordinator, under the mutex
    | JoinStep                     // ticket holder, without the mutex
    | JoinThrew                    // the join itself failed
    | ReturnStep                   // ticket holder, under the mutex again

  predicate Enabled(l: Life, t: Threads, s: LifeStep) {
    match s
    case StartStep(_, _) => true
    case StopStep => true
    case FailStep => t.alive != {} && l.state != Failed
    case ExitStep => t.alive != {} && l.stop
    case TakeTicket(_) => CanTakeTicket(l)
    case JoinStep => t.holder.Some? && l.joinable && l.generation !in t.alive
    case JoinThrew => t.holder.Some? && l.joinable
    case ReturnStep => t.holder.Some? && !l.joinable
  }

  function LifeAfter(l: Life, s: LifeStep): Life {
    match s
    case StartStep(idle, spawned) => Start(l, idle, spawned).life
    case StopStep => RequestStop(l)
    case FailStep => Fail(l)
    case ExitStep => l
    case TakeTicket(_) => l.(joining := true)
    case JoinStep => l.(joinable := false)
    case JoinThrew => l.(joining := false)
    case ReturnStep => l.(joining := false, state := if l.state == Failed then Failed else Stopped)
  }

  function ThreadsAfter(l: Life, t: Threads, s: LifeStep): Threads {
    match s
    case StartStep(_, _) => if LifeAfter(l, s).generation == l.generation then t else t.(alive := t.alive + {l.generation + 1})
    case StopStep => t
    case FailStep => t
    case ExitStep => t.(alive := t.alive - {l.generation})
    case TakeTicket(who) => t.(holder := Some(who))
    case JoinStep => t.(joined := t.joined + [l.generation])
    case JoinThrew => t.(holder := None)
    case ReturnStep => t.(holder := None)
  }

  ghost predicate Sound(l: Life, t: Threads) {
    && t.alive <= {l.generation} && (t.alive != {} ==> l.joinable)
    && (l.joinable || l.joining ==> l.generation > 0)
    && t.joined == seq(if l.joinable then l.generation - 1 else l.generation, (i: nat) => i + 1)
    && (l.joining <==> t.holder.Some?) && (l.joining ==> l.state == Stopping || l.state == Failed)
    && match l.state
       case Stopped => !l.joinable
       case Running => l.joinable && !l.stop && t.alive == {l.generation}
       case Stopping => l.stop && (l.joinable || l.joining)
       case Failed => l.stop
  }

  lemma LifeStepSound(l: Life, t: Threads, s: LifeStep)
    requires Sound(l, t) && Enabled(l, t, s)
    ensures Sound(LifeAfter(l, s), ThreadsAfter(l, t, s))
  {
    var m, u := LifeAfter(l, s), ThreadsAfter(l, t, s);
    var g := if l.joinable then l.generation - 1 else l.generation;
    assert seq(g, (i: nat) => i + 1) + [g + 1] == seq(g + 1, (i: nat) => i + 1);
  }

  ghost predicate LifeRun(l: Life, t: Threads, steps: seq<LifeStep>, m: Life, u: Threads)
    decreases |steps|
  {
    if steps == [] then m == l && u == t
    else Enabled(l, t, steps[0]) && LifeRun(LifeAfter(l, steps[0]), ThreadsAfter(l, t, steps[0]), steps[1..], m, u)
  }

  lemma {:induction false} LifeRunSound(l: Life, t: Threads, steps: seq<LifeStep>, m: Life, u: Threads)
    requires Sound(l, t) && LifeRun(l, t, steps, m, u)
    ensures Sound(m, u) && t.joined <= u.joined && (l.state == Failed ==> m.state == Failed && m.generation == l.generation)
    decreases |steps|
  {
    if steps != [] {
      LifeStepSound(l, t, steps[0]);
      LifeRunSound(LifeAfter(l, steps[0]), ThreadsAfter(l, t, steps[0]), steps[1..], m, u);
    }
  }

  /** In every run of a new runtime at most one generation is alive, it is the
      latest, and no thread runs once the state reads stopped. */
  lemma OneWorker(steps: seq<LifeStep>, m: Life, u: Threads)
    requires LifeRun(INITIAL, NO_THREADS, steps, m, u)
    ensures forall g, h :: g in u.alive && h in u.alive ==> g == h == m.generation
    ensures m.state == Stopped ==> u.alive == {}
    ensures m.state == Running ==> u.alive == {m.generation}
  {
    LifeRunSound(INITIAL, NO_THREADS, steps, m, u);
  }

  /** Generations are joined in order, each at most once, only after leaving
      `run`, and a new one starts only when all before it are joined. */
  lemma JoinedInOrder(steps: seq<LifeStep>, m: Life, u: Threads, s: LifeStep)
    requires LifeRun(INITIAL, NO_THREADS, steps, m, u) && Enabled(m, u, s)
    ensures forall i, j :: 0 <= i < j < |u.joined| ==> u.joined[i] < u.joined[j] <= m.generation
    ensures forall g :: g in u.joined ==> g !in u.alive
    ensures LifeAfter(m, s).generation != m.generation ==>
              u.alive == {} && u.holder == None && forall g :: 1 <= g <= m.generation ==> g in u.joined
  {
    LifeRunSound(INITIAL, NO_THREADS, steps, m, u);
    forall g | 1 <= g <= |u.joined| ensures g in u.joined { assert u.joined[g - 1] == g; }
  }

  /** The join ticket: nobody else takes one, starts or finishes a join before
      its holder is back; the holder leaves nothing to reap unless its join threw. */
  lemma TicketExclusive(steps: seq<LifeStep>, m: Life, u: Threads, s: LifeStep)
    requires LifeRun(INITIAL, NO_THREADS, steps, m, u) && Enabled(m, u, s) && u.holder.Some?
    ensures !s.TakeTicket? && LifeAfter(m, s).generation == m.generation
    ensures if s.ReturnStep? || s.JoinThrew? then ThreadsAfter(m, u, s).holder == None
            else ThreadsAfter(m, u, s).holder == u.holder
    ensures s.ReturnStep? ==> NothingToReap(LifeAfter(m, s)) && m.generation in u.joined
  {
    LifeRunSound(INITIAL, NO_THREADS, steps, m, u);
    if s.ReturnStep? { assert u.joined[m.generation - 1] == m.generation; }
  }

  /** When a coordinator may neither leave nor take the ticket, another one has
      it, and that one can go on as soon as the worker has left `run`. */
  lemma ReapWaitsOnlyForHolder(steps: seq<LifeStep>, m: Life, u: Threads)
    requires LifeRun(INITIAL, NO_THREADS, steps, m, u) && !NothingToReap(m) && !CanTakeTicket(m)
    ensures u.holder.Some? && m.stop
    ensures u.alive == {} ==> Enabled(m, u, JoinStep) || Enabled(m, u, ReturnStep)
    ensures u.alive != {} ==> Enabled(m, u, ExitStep)
  {
    LifeRunSound(INITIAL, NO_THREADS, steps, m, u);
  }

  // What a start and a stop request bring about.

  /** A worker is started exactly when there is something to serve, none is left
      to be joined and the thread constructor succeeds; it is the next generation. */
  lemma StartStarts(steps: seq<LifeStep>, m: Life, u: Threads, idle: bool, spawned: bool)
    requires LifeRun(INITIAL, NO_THREADS, steps, m, u)
    ensures var n, v := LifeAfter(m, StartStep(idle, spawned)), ThreadsAfter(m, u, StartStep(idle, spawned));
      && (v.alive != u.alive <==> m.state == Stopped && !idle && spawned)
      && (v.alive != u.alive ==> n.state == Running && !n.stop && n.generation == m.generation + 1 && v.alive == {n.generation})
    ensures Start(m, idle, spawned).threw <==> m.state == Failed || (!idle && (m.state == Stopping || (m.state == Stopped && !spawned)))
  {
    LifeRunSound(INITIAL, NO_THREADS, steps, m, u);
  }

  /** After a stop request no worker counts as running, and one that is alive may
      leave at once. */
  lemma StopStops(steps: seq<LifeStep>, m: Life, u: Threads)
    requires LifeRun(INITIAL, NO_THREADS, steps, m, u)
    ensures var n := LifeAfter(m, StopStep);
      && n.stop && n.generation == m.generation && ThreadsAfter(m, u, StopStep) == u
      && (m.state == Running ==> n.state == Stopping) && (m.state != Running ==> n.state == m.state)
      && (u.alive != {} ==> Enabled(n, u, ExitStep))
  {
    LifeRunSound(INITIAL, NO_THREADS, steps, m, u);
  }

  /** The stop flag is taken back only when there is no thread any more. */
  lemma StopSticks(l: Life, t: Threads, s: LifeStep)
    requires Sound(l, t) && Enabled(l, t, s) && l.stop
    ensures LifeAfter(l, s).stop || (t.alive == {} && !l.joinable)
    ensures LifeAfter(l, s).generation == l.generation ==> ThreadsAfter(l, t, s).alive <= t.alive
    ensures l.generation <= LifeAfter(l, s).generation
  {
  }

  /** Neither threads nor the stop flag come back within one generation, in any run. */
  lemma {:induction false} StopHolds(l: Life, t: Threads, steps: seq<LifeStep>, m: Life, u: Threads)
    requires Sound(l, t) && LifeRun(l, t, steps, m, u)
    ensures l.generation <= m.generation
    ensures m.generation == l.generation ==> u.alive <= t.alive && (l.stop || t.alive == {} ==> m.stop || u.alive == {})
    decreases |steps|
  {
    if steps != [] {
      LifeStepSound(l, t, steps[0]);
      if l.stop { StopSticks(l, t, steps[0]); }
      StopHolds(LifeAfter(l, steps[0]), ThreadsAfter(l, t, steps[0]), steps[1..], m, u);
    }
  }

  /** A coordinator takes the ticket exactly when the latest generation has been
      told to stop, was not joined and nobody else is joining it; it leaves at once
      exactly when the worker runs on or every generation is joined. */
  lemma TicketWhenNeeded(steps: seq<LifeStep>, m: Life, u: Threads)
    requires LifeRun(INITIAL, NO_THREADS, steps, m, u)
    ensures CanTakeTicket(m) <==> m.state != Running && u.holder == None && m.generation > 0 && m.generation !in u.joined
    ensures NothingToReap(m) <==> m.state == Running || (u.holder == None && forall g :: 1 <= g <= m.generation ==> g in u.joined)
  {
    LifeRunSound(INITIAL, NO_THREADS, steps, m, u);
    forall g | 1 <= g <= |u.joined| ensures g in u.joined { assert u.joined[g - 1] == g; }
    assert m.joinable ==> m.generation !in u.joined;
  }

  /** What is left to do for the generation at hand: leave, take the ticket, join
      and return it. */
  function StepsLeft(l: Life, t: Threads): nat {
    (if t.alive != {} then 1 else 0) + (if !l.joining && l.joinable then 1 else 0)
    + (if l.joinable then 1 else 0) + (if l.joinable || l.joining then 1 else 0)
  }

  /** The next step of a stop request that is being carried out. */
  function Onwards(l: Life, t: Threads): LifeStep {
    if t.alive != {} then ExitStep
    else if l.joining then (if l.joinable then JoinStep else ReturnStep)
    else TakeTicket(0)
  }

  /** Every stop request can be carried out to the end: there is always a next
      step until no thread is left alive or unjoined. */
  lemma {:induction false} StopCompletes(l: Life, t: Threads) returns (steps: seq<LifeStep>, m: Life, u: Threads)
    requires Sound(l, t) && l.stop && l.state != Running
    ensures LifeRun(l, t, steps, m, u) && |steps| <= StepsLeft(l, t) <= 4
    ensures u.alive == {} && !m.joinable && !m.joining && m.generation == l.generation
    ensures m.state == if l.state == Failed then Failed else Stopped
    decreases StepsLeft(l, t)
  {
    if t.alive == {} && !l.joinable && !l.joining { return [], l, t; }
    var s := Onwards(l, t);
    LifeStepSound(l, t, s);
    var rest;
    rest, m, u := StopCompletes(LifeAfter(l, s), ThreadsAfter(l, t, s));
    steps := [s] + rest;
    assert steps[1..] == rest;
  }
}
