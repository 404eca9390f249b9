/** Driving a scheduler core and, recursively, the cores its running tasks wait
    on. Lua callbacks and pumps run in between: they may change dependencies and
    deadlines, create cores, drive any core again, or throw. */
module Driving {
  import opened Common

  /** `waiting` has, per running task, the core on which its coroutine waits. */
  datatype Core = Core(active: bool, pumping: bool, hasPump: bool, waiting: seq<Option<nat>>,
                       deadlines: seq<real>, selected: bool)

  /** One call of a transport pump: the wait it got and what had to bound it. */
  datatype Pump = Pump(core: nat, wait: real, requested: real, linked: bool, deadlines: seq<real>, caller: Option<real>,
                       since: real, at: real)

  /** What Lua or transport code does to the scheduler while it runs. */
  datatype Act = Create(core: nat, hasPump: bool, deadlines: seq<real>)
               | Change(core: nat, hasPump: bool, waiting: seq<Option<nat>>, deadlines: seq<real>, selected: bool)
               | Sleep(time: real) | Drive(core: nat, wait: real, deadline: Option<real>) | Throw

  /** What one step did itself, in order, with what it saw: how its core stood after
      a tick or a pump, and the clock it read. */
  datatype Did = Ticked(core: Core, known: set<nat>) | Pumped(call: Pump, progressed: bool, core: Core)
               | Chose(now: real) | Stepped(on: nat) | Paused(core: Core, now: real, slept: bool)

  const CROSS_CLIENT_SLICE := 0.01
  const BACKOFF := 0.001

  function Left(deadline: real, now: real): real { if deadline > now then deadline - now else 0.0 }

  function Min(a: real, b: real): real { if b < a then b else a }

  /** A wait is never negative and never outlasts the request, the slice shared
      with other clients, a waiter's deadline or the caller's, as they stood when
      the step looked; and no wait they allow at the call would be longer. */
  ghost predicate Fair(p: Pump) {
    0.0 <= p.wait && Allowed(p, p.wait, p.since) && forall b :: Allowed(p, b, p.at) ==> b <= p.wait
  }

  ghost predicate Allowed(p: Pump, b: real, now: real) {
    Meets(b, Asked(p.requested, p.linked), p.deadlines, now) && (p.caller.Some? ==> b <= Left(p.caller.value, now))
  }

  function Asked(requested: real, linked: bool): real { if linked then Min(requested, CROSS_CLIENT_SLICE) else requested }

  ghost predicate AllFair(pumps: seq<Pump>) { forall i :: 0 <= i < |pumps| ==> Fair(pumps[i]) }

  function Idle(cores: map<nat, Core>): set<nat> { set c | c in cores && !cores[c].active }

  /** Every flag as it was; cores that came since are at rest. */
  ghost predicate Restored(before: map<nat, Core>, after: map<nat, Core>) {
    && before.Keys <= after.Keys
    && (forall c :: c in before ==> after[c].active == before[c].active && after[c].pumping == before[c].pumping)
    && (forall c :: c in after && c !in before ==> !after[c].active && !after[c].pumping)
  }

  lemma RestoredIdle(before: map<nat, Core>, after: map<nat, Core>)
    requires Restored(before, after)
    ensures before.Keys <= after.Keys
    ensures after.Keys == before.Keys ==> Idle(after) == Idle(before)
  {
  }

  lemma RestoredSame(a: map<nat, Core>)
    ensures Restored(a, a)
  {
  }

  lemma RestoredTwice(a: map<nat, Core>, b: map<nat, Core>, c: map<nat, Core>)
    requires Restored(a, b) && Restored(b, c)
    ensures Restored(a, c) && a.Keys <= b.Keys <= c.Keys
    ensures c.Keys == a.Keys ==> Idle(c) == Idle(a)
  {
  }

  /** The pump flag has no part in who may be driven. */
  lemma PumpingOnly(before: map<nat, Core>, after: map<nat, Core>, c: nat)
    requires c in before && after == before[c := before[c].(pumping := true)]
    ensures Idle(after) == Idle(before)
  {
  }

  /** The flag set for a pump goes back to what it was. */
  lemma PumpingBack(start: map<nat, Core>, during: map<nat, Core>, after: map<nat, Core>, c: nat)
    requires c in start && during == start[c := start[c].(pumping := true)] && Restored(during, after)
    ensures c in after && Restored(start, after[c := after[c].(pumping := start[c].pumping)])
  {
  }

  lemma FairMore(pumps: seq<Pump>, call: Pump)
    requires AllFair(pumps) && Fair(call)
    ensures AllFair(pumps + [call])
  {
  }

  // What a step does.

  /** The other known cores that the tasks of a core wait on, each once. */
  ghost predicate Awaited(found: seq<nat>, c: nat, core: Core, known: set<nat>) {
    && (forall x :: x in found <==> x != c && x in known && Some(x) in core.waiting)
    && forall i, j :: 0 <= i < j < |found| ==> found[i] != found[j]
  }

  /** The dependencies get their turn after a receive, unless a timed poll has its
      update or the caller's time is over; a call that does not block lets them. */
  predicate GivesTurn(deadline: Option<real>, wait: real, selected: bool, now: real) {
    wait <= 0.0 || deadline == None || (!selected && now < deadline.value)
  }

  function Steps(found: seq<nat>): seq<Did> { seq(|found|, i requires 0 <= i < |found| => Stepped(found[i])) }

  lemma StepsMore(found: seq<nat>)
    requires found != []
    ensures Steps(found) == [Stepped(found[0])] + Steps(found[1..])
  {
  }

  /** A whole step: it ticks; with a pump, it pumps once within what it was asked,
      gives every dependency its turn or none, pauses when nothing came, and ticks. */
  ghost predicate Drove(did: seq<Did>, c: nat, requested: real, deadline: Option<real>, progressed: bool) {
    && |did| > 0 && did[0].Ticked?
    && if !did[0].core.hasPump then |did| == 1 && !progressed
       else |did| >= 5 && did[1].Pumped? && Asks(did[1].call, c, requested, deadline, did[0].core) && did[1].progressed == progressed
            && Followed(did[2..], c, deadline, did[0], did[1])
  }

  ghost predicate Asks(call: Pump, c: nat, requested: real, deadline: Option<real>, core: Core) {
    call.core == c && call.requested == requested && call.caller == deadline && core.deadlines <= call.deadlines
  }

  ghost predicate Followed(rest: seq<Did>, c: nat, deadline: Option<real>, ticked: Did, pumped: Did)
    requires ticked.Ticked? && pumped.Pumped?
  {
    exists found :: Awaited(found, c, ticked.core, ticked.known) && pumped.call.linked == (found != [])
                    && Follows(rest, found, deadline, pumped.call.wait, pumped.core.selected, pumped.progressed)
  }

  ghost predicate Follows(rest: seq<Did>, found: seq<nat>, deadline: Option<real>, wait: real, selected: bool, progressed: bool) {
    && |rest| >= 3 && rest[0].Chose? && rest[|rest| - 2].Paused? && rest[|rest| - 1].Ticked?
    && rest[1..|rest| - 2] == (if GivesTurn(deadline, wait, selected, rest[0].now) then Steps(found) else [])
    && Pauses(rest[|rest| - 2], deadline, progressed)
  }

  /** The pumps that a step reports were called. */
  ghost predicate Called(did: seq<Did>, pumps: seq<Pump>) {
    forall i :: 0 <= i < |did| && did[i].Pumped? ==> did[i].call in pumps
  }

  /** A pause follows a pump that brought nothing, while the caller has time. */
  ghost predicate Pauses(d: Did, deadline: Option<real>, progressed: bool) {
    d.Paused? && (d.slept <==> !progressed && d.core.hasPump && (deadline == None || d.now < deadline.value))
  }

  lemma IsAwaited(found: seq<nat>, c: nat, core: Core, known: set<nat>)
    requires forall x :: x in found <==> x != c && x in known && Some(x) in core.waiting
    requires forall i, j :: 0 <= i < j < |found| ==> found[i] != found[j]
    ensures Awaited(found, c, core, known)
  {
  }

  lemma TickedOnly(ticked: Did, c: nat, requested: real, deadline: Option<real>, pumps: seq<Pump>)
    requires ticked.Ticked? && !ticked.core.hasPump
    ensures Drove([ticked], c, requested, deadline, false) && Called([ticked], pumps)
  {
  }

  lemma WholeStep(ticked: Did, pumped: Did, rest: seq<Did>, found: seq<nat>, c: nat, requested: real, deadline: Option<real>, pumps: seq<Pump>)
    requires ticked.Ticked? && ticked.core.hasPump && pumped.Pumped? && pumped.call in pumps
    requires Asks(pumped.call, c, requested, deadline, ticked.core) && pumped.call.linked == (found != [])
    requires Awaited(found, c, ticked.core, ticked.known)
    requires Follows(rest, found, deadline, pumped.call.wait, pumped.core.selected, pumped.progressed)
    ensures var did := [ticked] + [pumped] + rest; Drove(did, c, requested, deadline, pumped.progressed) && Called(did, pumps)
  {
    hide Awaited, Asks;
    var did := [ticked] + [pumped] + rest;
    assert did[2..] == rest;
    forall i | 0 <= i < |did| && did[i].Pumped? ensures did[i].call in pumps {
      if i >= 2 { NoMorePumps(rest, found, deadline, pumped.call.wait, pumped.core.selected, pumped.progressed, i - 2); }
    }
  }

  lemma NoMorePumps(rest: seq<Did>, found: seq<nat>, deadline: Option<real>, wait: real, selected: bool, progressed: bool, i: nat)
    requires Follows(rest, found, deadline, wait, selected, progressed) && i < |rest|
    ensures !rest[i].Pumped?
  {
    if 1 <= i < |rest| - 2 { assert rest[i] == rest[1..|rest| - 2][i - 1]; }
  }

  class Schedulers {
    var cores: map<nat, Core>
    var clock: real
    var spare: nat                     // cores that callbacks are still going to create
    ghost var pumps: seq<Pump>
    ghost var trail: seq<Did>          // what the innermost step or script has done

    /** What every call keeps, whatever runs inside. */
    twostate predicate Kept()
      reads this
    {
      && Restored(old(cores), cores) && old(clock) <= clock && old(pumps) <= pumps
      && spare <= old(spare) && (spare == old(spare) ==> cores.Keys == old(cores).Keys)
    }

    method Now() returns (now: real)
      modifies this`clock
      ensures old(clock) <= clock == now
    {
      var passed: real := *;
      if passed > 0.0 { clock := clock + passed; }
      return clock;
    }

    /** `crossClientDependencies`: the other cores waited on, each once. */
    method Dependencies(c: nat) returns (found: seq<nat>)
      requires c in cores
      ensures forall x :: x in found <==> x != c && x in cores && Some(x) in cores[c].waiting
      ensures forall i, j :: 0 <= i < j < |found| ==> found[i] != found[j]
    {
      var waiting := cores[c].waiting;
      found := [];
      for k := 0 to |waiting|
        invariant forall x :: x in found <==> x != c && x in cores && Some(x) in waiting[..k]
        invariant forall i, j :: 0 <= i < j < |found| ==> found[i] != found[j]
      {
        if waiting[k].Some? && waiting[k].value != c && waiting[k].value in cores && waiting[k].value !in found {
          found := found + [waiting[k].value];
        }
        assert waiting[..k + 1] == waiting[..k] + [waiting[k]];
      }
      assert waiting[..|waiting|] == waiting;
    }

    /** `deadlineBound`: the wait cut to the nearest deadline. */
    method DeadlineBound(deadlines: seq<real>, wait: real) returns (bound: real)
      requires 0.0 <= wait
      modifies this`clock
      ensures old(clock) <= clock && 0.0 <= bound <= wait
      ensures Meets(bound, wait, deadlines, old(clock)) && Tight(bound, wait, deadlines, clock)
    {
      bound := wait;
      for k := 0 to |deadlines|
        invariant old(clock) <= clock && 0.0 <= bound <= wait
        invariant Meets(bound, wait, deadlines[..k], old(clock))
        invariant Tight(bound, wait, deadlines[..k], clock)
      {
        ghost var before := clock;
        var now := Now();
        ghost var more := deadlines[..k + 1];
        assert more == deadlines[..k] + [deadlines[k]];
        forall b | Meets(b, wait, more, now) ensures b <= Min(bound, Left(deadlines[k], now)) {
          Longer(b, wait, deadlines[..k], deadlines[k], before, now);
        }
        bound := Min(bound, Left(deadlines[k], now));
      }
      assert deadlines[..|deadlines|] == deadlines;
    }

    /** `receiveBudget` over the core's own waiters and those of its dependencies. */
    method Budget(c: nat, found: seq<nat>, requested: real) returns (bound: real, ghost deadlines: seq<real>)
      requires c in cores && (forall x :: x in found ==> x in cores) && 0.0 <= requested
      modifies this`clock
      ensures old(clock) <= clock && 0.0 <= bound
      ensures deadlines == cores[c].deadlines + All(cores, found)
      ensures Meets(bound, Asked(requested, found != []), deadlines, old(clock))
      ensures Tight(bound, Asked(requested, found != []), deadlines, clock)
    {
      ghost var since := clock;
      ghost var asked := Asked(requested, found != []);
      bound := if found != [] then Min(requested, CROSS_CLIENT_SLICE) else requested;
      bound := DeadlineBound(cores[c].deadlines, bound);
      deadlines := cores[c].deadlines;
      for k := 0 to |found|
        invariant since <= clock && 0.0 <= bound && deadlines == cores[c].deadlines + All(cores, found[..k])
        invariant Meets(bound, asked, deadlines, since)
        invariant Tight(bound, asked, deadlines, clock)
      {
        ghost var before, earlier, more := clock, bound, cores[found[k]].deadlines;
        bound := DeadlineBound(cores[found[k]].deadlines, bound);
        ghost var now := clock;
        MeetsBoth(bound, asked, deadlines, more, since, before);
        forall b | Meets(b, asked, deadlines + more, now) ensures b <= bound {
          MeetsEach(b, asked, deadlines, more, before, now, earlier);
        }
        deadlines := deadlines + more;
        assert found[..k + 1] == found[..k] + [found[k]];
      }
      assert found[..|found|] == found;
    }

    /** Lua code, a pump or a transport at work. Scripts are arbitrary. */
    method Outside(script: seq<Act>) returns (threw: bool)
      requires AllFair(pumps)
      modifies this
      ensures Kept() && AllFair(pumps)
      ensures script == [] ==> !threw && cores == old(cores) && pumps == old(pumps) && clock == old(clock)
      decreases spare, |Idle(cores)|, 1, |script|
    {
      if script == [] { return false; }
      match script[0] {
        case Create(c, hasPump, deadlines) => {
          if c !in cores && spare > 0 {
            cores, spare := cores[c := Core(false, false, hasPump, [], deadlines, false)], spare - 1;
          }
        }
        case Change(c, hasPump, waiting, deadlines, selected) => {
          if c in cores {
            cores := cores[c := cores[c].(hasPump := hasPump, waiting := waiting, deadlines := deadlines, selected := selected)];
          }
        }
        case Sleep(time) => { if time > 0.0 { clock := clock + time; } }
        case Drive(c, wait, deadline) => {
          if c in cores && 0.0 <= wait {
            var first: seq<Act> := *;
            var progressed, failed, did := DriveStep(c, wait, deadline, first);
            if failed { return true; }
          }
        }
        case Throw => { return true; }
      }
      RestoredIdle(old(cores), cores);
      threw := Outside(script[1..]);
    }

    /** Other code runs; what it does is no doing of the step. */
    method Aside(script: seq<Act>) returns (threw: bool)
      requires AllFair(pumps)
      modifies this
      ensures Kept() && AllFair(pumps) && trail == old(trail)
      ensures script == [] ==> !threw && cores == old(cores) && pumps == old(pumps) && clock == old(clock)
      decreases spare, |Idle(cores)|, 2
    {
      ghost var before := trail;
      trail := [];
      threw := Outside(script);
      trail := before;
    }

    /** `tick` and everything it calls. */
    method Tick(c: nat, script: seq<Act>) returns (threw: bool)
      requires AllFair(pumps) && c in cores
      modifies this
      ensures Kept() && AllFair(pumps) && c in cores
      ensures trail == old(trail) + if threw then [] else [Ticked(cores[c], cores.Keys)]
      ensures script == [] ==> !threw && cores == old(cores) && pumps == old(pumps) && clock == old(clock)
      decreases spare, |Idle(cores)|, 3
    {
      threw := Aside(script);
      if !threw { trail := trail + [Ticked(cores[c], cores.Keys)]; }
    }

    /** `pumpCurrentTransport`: the pump flag is put back on every way out. */
    method PumpTransport(c: nat, wait: real, ghost call: Pump) returns (progressed: bool, threw: bool)
      requires AllFair(pumps) && Fair(call) && c in cores && call.wait == wait && call.core == c
      modifies this
      ensures Kept() && AllFair(pumps) && c in cores && old(pumps) + [call] <= pumps
      ensures trail == old(trail) + if threw then [] else [Pumped(call, progressed, cores[c])]
      decreases spare, |Idle(cores)|, 3
    {
      hide Fair, AllFair, Idle, Restored;
      var previous := cores[c].pumping;
      FairMore(pumps, call);
      PumpingOnly(cores, cores[c := cores[c].(pumping := true)], c);
      cores := cores[c := cores[c].(pumping := true)];
      pumps := pumps + [call];
      ghost var during := cores;
      var script: seq<Act> := *;
      threw := Aside(script);
      PumpingBack(old(cores), during, cores, c);
      cores := cores[c := cores[c].(pumping := previous)];
      progressed := *;
      if !threw { trail := trail + [Pumped(call, progressed, cores[c])]; }
    }

    /** `pumpCrossClientDependencies`: every dependent core takes its turn, each with
        the shared slice. */
    method DriveAll(found: seq<nat>, deadline: Option<real>) returns (threw: bool)
      requires AllFair(pumps) && forall x :: x in found ==> x in cores
      modifies this
      ensures Kept() && AllFair(pumps) && (!threw ==> trail == old(trail) + Steps(found))
      decreases spare, |Idle(cores)|, 1, |found|
    {
      if found == [] { return false; }
      var first: seq<Act> := *;
      var progressed, failed, did := DriveStep(found[0], CROSS_CLIENT_SLICE, deadline, first);
      if failed { return true; }
      RestoredIdle(old(cores), cores);
      threw := DriveAll(found[1..], deadline);
      StepsMore(found);
    }

    /** `driveStep`: it returns on every dependency graph, cycles included, and
        leaves every flag as it was, whether or not something threw, however many
        cores callbacks create on the way. A core that is at rest does a whole step;
        `first` is the script of its first tick. */
    method DriveStep(c: nat, wait: real, deadline: Option<real>, first: seq<Act>)
      returns (progressed: bool, threw: bool, ghost did: seq<Did>)
      requires AllFair(pumps) && c in cores && 0.0 <= wait
      modifies this
      ensures Kept() && AllFair(pumps) && trail == old(trail) + [Stepped(c)]
      ensures old(cores)[c].active ==> !progressed && !threw && did == [] && cores == old(cores) && pumps == old(pumps)
      ensures !old(cores)[c].active && !threw ==> Drove(did, c, wait, deadline, progressed) && Called(did, pumps[|old(pumps)|..])
      ensures !old(cores)[c].active && first == [] ==>
                if old(cores)[c].hasPump
                then |pumps| > |old(pumps)| && var p := pumps[|old(pumps)|]; p.core == c && p.requested == wait && p.caller == deadline
                else !progressed && !threw && pumps == old(pumps) && clock == old(clock)
      decreases spare, |Idle(cores)|, 0
    {
      ghost var outer := trail;
      if cores[c].active {
        trail := outer + [Stepped(c)];
        return false, false, [];
      }
      cores := cores[c := cores[c].(active := true)];
      assert Idle(cores) == Idle(old(cores)) - {c};
      trail := [];
      progressed, threw := Driven(c, wait, deadline, first);
      did, trail := trail, outer + [Stepped(c)];
      cores := cores[c := cores[c].(active := false)];
    }

    /** The body of `driveStep` inside its scope. */
    method Driven(c: nat, requested: real, deadline: Option<real>, first: seq<Act>) returns (progressed: bool, threw: bool)
      requires AllFair(pumps) && c in cores && 0.0 <= requested && trail == []
      modifies this
      ensures Kept() && AllFair(pumps)
      ensures !threw ==> Drove(trail, c, requested, deadline, progressed) && Called(trail, pumps[|old(pumps)|..])
      ensures first == [] ==>
                if old(cores)[c].hasPump
                then |pumps| > |old(pumps)| && var p := pumps[|old(pumps)|]; p.core == c && p.requested == requested && p.caller == deadline
                else !progressed && !threw && pumps == old(pumps) && clock == old(clock)
      decreases spare, |Idle(cores)|, 5
    {
      hide AllFair, Fair, Restored, Idle, Drove, Called, Follows, Awaited;
      progressed := false;
      threw := Tick(c, first);
      RestoredIdle(old(cores), cores);
      if threw { return; }
      ghost var ticked := trail[0];
      if !cores[c].hasPump {
        TickedOnly(ticked, c, requested, deadline, pumps[|old(pumps)|..]);
        assert trail == [ticked];
        return;
      }
      var found := Dependencies(c);
      IsAwaited(found, c, cores[c], cores.Keys);
      var wait, call := Wait(c, found, requested, deadline);
      ghost var before, k := cores, |pumps|;
      progressed, threw := PumpTransport(c, wait, call);
      RestoredTwice(old(cores), before, cores);
      assert pumps[k] == call;
      if threw { return; }
      ghost var pumped := Pumped(call, progressed, cores[c]);
      assert trail == [ticked] + [pumped];
      before := cores;
      ghost var rest;
      threw, rest := Follow(c, found, deadline, wait, progressed);
      RestoredTwice(old(cores), before, cores);
      if threw { return; }
      assert pumps[|old(pumps)|..][k - |old(pumps)|] == call;
      WholeStep(ticked, pumped, rest, found, c, requested, deadline, pumps[|old(pumps)|..]);
    }

    /** After the receive: the dependencies' round, the back-off, the last tick. */
    method Follow(c: nat, found: seq<nat>, deadline: Option<real>, wait: real, progressed: bool)
      returns (threw: bool, ghost rest: seq<Did>)
      requires AllFair(pumps) && c in cores && forall x :: x in found ==> x in cores
      modifies this
      ensures Kept() && AllFair(pumps)
      ensures !threw ==> trail == old(trail) + rest && Follows(rest, found, deadline, wait, old(cores)[c].selected, progressed)
      decreases spare, |Idle(cores)|, 4
    {
      hide AllFair, Fair, Restored, Idle;
      RestoredSame(cores);
      ghost var before := cores;
      var selected := deadline.Some? && wait > 0.0 && cores[c].selected;
      var now := Now();
      trail := trail + [Chose(now)];
      rest := [Chose(now)];
      if !selected {
        if deadline == None || wait <= 0.0 || now < deadline.value {
          threw := DriveAll(found, deadline);
          RestoredTwice(old(cores), before, cores);
          if threw { return; }
          rest := rest + Steps(found);
        }
      }
      var pause := Backoff(c, progressed, deadline);
      rest := rest + [pause];
      before := cores;
      RestoredIdle(old(cores), before);
      var script: seq<Act> := *;
      threw := Tick(c, script);
      rest := rest + [Ticked(cores[c], cores.Keys)];
      RestoredTwice(old(cores), before, cores);
    }

    /** The wait for the pump, with the record of what bounds it. */
    method Wait(c: nat, found: seq<nat>, requested: real, deadline: Option<real>) returns (wait: real, ghost call: Pump)
      requires c in cores && (forall x :: x in found ==> x in cores) && 0.0 <= requested
      modifies this`clock
      ensures old(clock) <= clock && Fair(call) && call.core == c && call.wait == wait
      ensures call == Pump(c, wait, requested, found != [], cores[c].deadlines + All(cores, found), deadline, old(clock), clock)
    {
      ghost var deadlines;
      wait, deadlines := Budget(c, found, requested);
      ghost var before := clock;
      if deadline.Some? {
        var now := Now();
        ghost var earlier := wait;
        wait := Min(wait, Left(deadline.value, now));
      }
      call := Pump(c, wait, requested, found != [], deadlines, deadline, old(clock), clock);
      forall b | Allowed(call, b, clock) ensures b <= wait {
        MeetsEach(b, Asked(requested, found != []), deadlines, [], before, clock, 0.0);
      }
    }

    /** A sleep after a pump that brought nothing. */
    method Backoff(c: nat, progressed: bool, deadline: Option<real>) returns (ghost pause: Did)
      requires c in cores
      modifies this`clock, this`trail
      ensures trail == old(trail) + [pause] && Pauses(pause, deadline, progressed) && pause.core == cores[c]
      ensures if pause.slept then old(clock) + BACKOFF <= clock else old(clock) <= clock
    {
      ghost var start := clock;
      var now := Now();
      var sleeps := !progressed && cores[c].hasPump && (deadline == None || now < deadline.value);
      if sleeps { clock := clock + BACKOFF; }
      pause := Paused(cores[c], now, sleeps);
      trail := trail + [pause];
    }
  }

  /** A wait within the request and every deadline. */
  ghost predicate Meets(b: real, wait: real, deadlines: seq<real>, now: real) {
    b <= wait && forall i :: 0 <= i < |deadlines| ==> b <= Left(deadlines[i], now)
  }

  /** No wait that meets them is longer. */
  ghost predicate Tight(bound: real, wait: real, deadlines: seq<real>, now: real) {
    forall b :: Meets(b, wait, deadlines, now) ==> b <= bound
  }

  lemma Longer(b: real, wait: real, deadlines: seq<real>, last: real, before: real, now: real)
    requires before <= now && Meets(b, wait, deadlines + [last], now)
    ensures Meets(b, wait, deadlines, before) && b <= Left(last, now)
  {
    var all := deadlines + [last];
    assert all[|deadlines|] == last;
    forall i | 0 <= i < |deadlines| ensures b <= Left(deadlines[i], before) { assert all[i] == deadlines[i]; }
  }

  /** The deadlines of several cores, one after the other. */
  ghost function All(cores: map<nat, Core>, found: seq<nat>): seq<real>
    requires forall x :: x in found ==> x in cores
  {
    if found == [] then []
    else All(cores, found[..|found| - 1]) + cores[found[|found| - 1]].deadlines
  }

  lemma MeetsBoth(b: real, wait: real, first: seq<real>, more: seq<real>, since: real, before: real)
    requires since <= before && Meets(b, b, more, before)
    requires exists e: real :: b <= e && Meets(e, wait, first, since)
    ensures Meets(b, wait, first + more, since)
  {
    forall i | 0 <= i < |first + more| ensures b <= Left((first + more)[i], since) {
      if i >= |first| { assert b <= Left(more[i - |first|], before); }
    }
  }

  lemma MeetsEach(b: real, wait: real, first: seq<real>, more: seq<real>, before: real, now: real, bound: real)
    requires before <= now && Meets(b, wait, first + more, now)
    ensures Meets(b, wait, first, before)
    ensures b <= bound ==> Meets(b, bound, more, now)
  {
    forall i | 0 <= i < |first| ensures b <= Left(first[i], before) { assert (first + more)[i] == first[i]; }
    forall i | 0 <= i < |more| ensures b <= Left(more[i], now) { assert (first + more)[|first| + i] == more[i]; }
  }
}
