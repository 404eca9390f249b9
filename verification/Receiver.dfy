/** The receiver runtime in place: fields under the registry mutex and the
    methods that run there, each proved to do what module Registry says. */
module Receiver {
  import opened Common
  import opened IdentityHistory
  import opened WorkerLife
  import opened Registry
  import RegistrySpec = Registry

  /** Erase every token that names the client, whatever the order. */
  method EraseTokens(tokens: map<nat, int>, id: int) returns (left: map<nat, int>)
    ensures left == Without(tokens, id)
  {
    left := tokens;
    var todo := tokens.Keys;
    while todo != {}
      invariant todo <= tokens.Keys && left.Keys <= tokens.Keys
      invariant forall t :: t in tokens ==> (t in left <==> t in todo || tokens[t] != id)
      invariant forall t :: t in left ==> left[t] == tokens[t]
      decreases |todo|
    {
      assert (forall t :: t !in todo) ==> todo <= {};
      var t :| t in todo;
      if tokens[t] == id { left := left - {t}; }
      todo := todo - {t};
    }
  }

  /** The loops of `requestStopLocked` and of `fail`. */
  method MuteAll(entries: map<int, Entry>, failing: bool) returns (left: map<int, Entry>)
    ensures left == Mute(entries, failing)
  {
    hide Muted;
    left := entries;
    var todo := entries.Keys;
    while todo != {}
      invariant todo <= entries.Keys == left.Keys
      invariant forall id :: id in todo ==> left[id] == entries[id]
      invariant forall id :: id in entries && id !in todo ==> left[id] == Muted(entries[id], failing)
      decreases |todo|
    {
      assert (forall id :: id !in todo) ==> todo <= {};
      var id :| id in todo;
      left := left[id := Muted(left[id], failing)];
      todo := todo - {id};
    }
    assert left.Keys == Mute(entries, failing).Keys;
    forall id | id in left ensures left[id] == Mute(entries, failing)[id] { assert id !in todo; }
  }

  class Runtime {
    var entries: map<int, Entry>
    var driverTokens: map<nat, int>
    var watchTokens: map<nat, int>
    var nextDriver: nat
    var nextWatch: nat
    var owners: set<nat>
    var nextOwner: nat
    const known: History
    var state: State
    var stop: bool
    var joinable: bool
    var joining: bool
    var generation: nat
    var received: nat
    var published: nat
    var unsolicited: nat
    var abandoned: nat
    var enqueued: nat
    var dequeued: nat
    ghost var retired: map<int, Box>

    ghost function Reg(): Registry
      reads this, known
    {
      Registry(entries, driverTokens, watchTokens, nextDriver, nextWatch, owners, nextOwner, known.members,
               Life(state, stop, joinable, joining, generation),
               received, published, unsolicited, abandoned, enqueued, dequeued, retired)
    }

    constructor ()
      ensures Reg() == EMPTY && known.Valid() && fresh(known)
    {
      entries, driverTokens, watchTokens, nextDriver, nextWatch := map[], map[], map[], 0, 0;
      owners, nextOwner := {}, 0;
      known := new History();
      state, stop, joinable, joining, generation := Stopped, false, false, false, 0;
      received, published, unsolicited, abandoned, enqueued, dequeued := 0, 0, 0, 0, 0, 0;
      retired := map[];
    }

    // Worker life cycle.

    /** `spawned` tells whether the thread constructor succeeds. */
    method StartLocked(spawned: bool) returns (threw: bool)
      modifies this`stop, this`joinable, this`state, this`generation
      ensures var l := Launch(old(Reg()), spawned); Reg() == old(Reg()).(life := l.life) && threw == l.threw
      ensures !threw && entries != map[] ==> state == Running && (old(state) != Running ==> !stop && joinable && generation == old(generation) + 1)
      ensures state != old(state) ==> state == Running && spawned && !old(joinable) && !old(joining) && entries != map[]
    {
      if state == Failed { return true; }
      if state == Running || entries == map[] { return false; }
      if joinable || joining { return true; }
      stop := false;
      if !spawned { return true; }
      joinable, state, generation := true, Running, generation + 1;
      return false;
    }

    method RequestStopLocked()
      modifies this`stop, this`state, this`watchTokens, this`entries
      ensures Reg() == Halt(old(Reg()))
      ensures stop && watchTokens == map[] && state == if old(state) == Running then Stopping else old(state)
    {
      stop := true;
      if state == Running { state := Stopping; }
      watchTokens := map[];
      entries := MuteAll(entries, false);
    }

    method FailLocked()
      modifies this`stop, this`state, this`watchTokens, this`entries
      ensures Reg() == Break(old(Reg()))
      ensures state == Failed && stop && watchTokens == map[]
    {
      state, stop, watchTokens := Failed, true, map[];
      entries := MuteAll(entries, true);
    }

    /** The first part of `reapLocked`: refuse the worker itself, wait, leave or
        take the ticket. */
    method ReapBegin(byWorker: bool) returns (ticket: bool, wait: bool, threw: bool)
      modifies this`joining
      ensures threw == byWorker && (threw ==> !ticket && !wait)
      ensures !threw ==> ticket == CanTakeTicket(old(Reg()).life) && wait == old(joining)
      ensures !threw && !ticket && !wait ==> NothingToReap(old(Reg()).life)
      ensures Reg() == if ticket then old(Reg()).(life := LifeAfter(old(Reg()).life, TakeTicket(0))) else old(Reg())
    {
      if byWorker { return false, false, true; }
      if joining { return false, true, false; }
      if state != Stopping && state != Failed { return false, false, false; }
      if !joinable { return false, false, false; }
      joining := true;
      return true, false, false;
    }

    /** The ticket holder is back under the mutex; `joined` unless the join threw. */
    method ReapEnd(joined: bool)
      requires joining && (joined ==> !joinable)
      modifies this`joining, this`state
      ensures Reg() == old(Reg()).(life := LifeAfter(old(Reg()).life, if joined then ReturnStep else JoinThrew))
    {
      joining := false;
      if joined && state != Failed { state := Stopped; }
    }

    // Owners and clients.

    method AttachOwner() returns (owner: nat)
      modifies this`owners, this`nextOwner
      ensures Reg() == Attach(old(Reg()))
      ensures owner == if old(state) == Failed then 0 else old(nextOwner) + 1
      ensures owner != 0 ==> owner in owners && nextOwner == owner
    {
      if state == Failed { return 0; }
      nextOwner := nextOwner + 1;
      owners := owners + {nextOwner};
      return nextOwner;
    }

    method CreateClient(owner: nat, id: int) returns (ok: bool)
      requires known.Valid()
      modifies this`entries, known
      ensures Reg() == Create(old(Reg()), owner, id) && known.Valid()
      ensures ok == (state != Failed && owner in owners && id > 0 && id !in old(known.members))
      ensures ok ==> id in entries && entries[id].owner == owner && !entries[id].orphan && !entries[id].terminal
    {
      if state == Failed || owner !in owners { return false; }
      ok := known.Insert(id);
      if !ok { return; }
      entries := entries[id := NewEntry(owner)];
      return true;
    }

    method ClearDriverDemandLocked(id: int)
      requires id in entries
      modifies this`entries, this`driverTokens, this`watchTokens
      ensures Reg() == ClearDriver(old(Reg()), id)
    {
      entries := entries[id := entries[id].(drivers := 0, oneShot := false, inFlight := false, watches := 0)];
      driverTokens := EraseTokens(driverTokens, id);
      watchTokens := EraseTokens(watchTokens, id);
    }

    method ClearDemandLocked(id: int)
      requires id in entries
      modifies this`entries, this`driverTokens, this`watchTokens
      ensures Reg() == ClearDemand(old(Reg()), id)
    {
      ClearDriverDemandLocked(id);
      entries := entries[id := NoInterest(entries[id]).(lifecycle := 0, pending := map[], guarded := map[])];
    }

    /** Fold the box into the totals and erase the entry. */
    method RetireLocked(id: int)
      requires id in entries
      modifies this`entries, this`retired, this`abandoned, this`enqueued, this`dequeued
      ensures Reg() == Retire(old(Reg()), id)
    {
      var b := entries[id].box;
      abandoned, enqueued, dequeued := abandoned + b.abandoned, enqueued + b.enqueued, dequeued + b.dequeued;
      retired := retired[id := b];
      entries := entries - {id};
    }

    method CleanupTerminal(id: int)
      modifies this`entries, this`driverTokens, this`watchTokens, this`retired, this`abandoned, this`enqueued, this`dequeued
      ensures Reg() == Terminate(old(Reg()), id)
    {
      hide ClearDemand, Retire;
      ClearKeepsKey(Put(Reg(), id, if id in entries then entries[id].(terminal := true) else NewEntry(0)), id);
      if id !in entries { return; }
      entries := entries[id := entries[id].(terminal := true)];
      ClearDemandLocked(id);
      if entries[id].orphan { RetireLocked(id); }
    }

    method OrphanLocked(id: int)
      requires id in entries
      modifies this`entries
      ensures Reg() == Orphaned(old(Reg()), id)
    {
      var b := entries[id].box;
      entries := entries[id := entries[id].(orphan := true, box := b.(orphan := true, abandoned := b.abandoned + b.depth, depth := 0))];
    }

    method ForgetClient(id: int)
      modifies this`entries, this`driverTokens, this`watchTokens, this`retired, this`abandoned, this`enqueued, this`dequeued
      ensures Reg() == Forget(old(Reg()), id)
    {
      if id !in entries || entries[id].orphan { return; }
      var terminal := entries[id].terminal;
      OrphanLocked(id);
      if terminal {
        ClearDemandLocked(id);
      } else {
        ClearDriverDemandLocked(id);
        entries := entries[id := NoInterest(entries[id])];
      }
      if terminal { RetireLocked(id); }
    }

    /** One entry of the loop in `detachOwner`. */
    method DetachEntry(owner: nat, others: bool, id: int)
      requires id in entries
      modifies this`entries, this`driverTokens, this`watchTokens, this`retired, this`abandoned, this`enqueued, this`dequeued
      ensures Reg() == DetachOne(old(Reg()), owner, others, id)
    {
      var e := entries[id];
      if e.owner == owner && !e.orphan {
        OrphanLocked(id);
        if others {
          ClearDriverDemandLocked(id);
          var f := NoInterest(entries[id]);
          entries := entries[id := f.(pending := map[],
            guarded := map q | q in f.guarded && f.guarded[q] == Lifecycle :: Lifecycle)];
        } else {
          ClearDemandLocked(id);
        }
      }
      if e.owner == owner && e.terminal { RetireLocked(id); }
    }

    /** `detachOwner` up to the reap; `order` is the order of the entries. */
    method DetachOwner(owner: nat) returns (ghost order: seq<int>)
      modifies this
      ensures forall id :: id in old(entries) ==> id in order
      ensures Reg() == Detach(old(Reg()), owner, order)
    {
      hide DetachOne, Halt;
      owners := owners - {owner};
      var others := owners != {} && state != Failed;
      ghost var start := Reg();
      var todo := entries.Keys;
      order := [];
      while todo != {}
        invariant todo <= start.entries.Keys && forall id :: id in start.entries ==> id in todo || id in order
        invariant Reg() == DetachAll(start, owner, others, order)
        decreases |todo|
      {
        assert (forall id :: id !in todo) ==> todo <= {};
        var id :| id in todo;
        assert (order + [id])[..|order|] == order;
        if id in entries { DetachEntry(owner, others, id); }
        todo := todo - {id};
        order := order + [id];
      }
      DetachAllFrame(start, owner, others, order);
      if owners == {} { RequestStopLocked(); }
    }

    // Demand.

    method AcquireDriver(id: int, spawned: bool) returns (token: nat, threw: bool)
      modifies this
      ensures Reg() == RegistrySpec.AcquireDriver(old(Reg()), id, spawned)
      ensures token != 0 <==> !threw && id in old(entries) && !old(entries)[id].terminal
      ensures token != 0 ==> token == old(nextDriver) + 1 && driverTokens == old(driverTokens)[token := id] && state == Running
    {
      if id !in entries || entries[id].terminal { return 0, false; }
      threw := StartLocked(spawned);
      if threw { return 0, true; }
      nextDriver := nextDriver + 1;
      token := nextDriver;
      driverTokens := driverTokens[token := id];
      entries := entries[id := entries[id].(drivers := entries[id].drivers + 1)];
    }

    method AcquireWatch(id: int, spawned: bool) returns (token: nat, threw: bool)
      modifies this
      ensures Reg() == RegistrySpec.AcquireWatch(old(Reg()), id, spawned)
      ensures token != 0 <==> !threw && Watchable(old(Reg()), id)
      ensures token != 0 ==> token == old(nextWatch) + 1 && watchTokens == old(watchTokens)[token := id] && state == Running
    {
      if state == Stopping || state == Failed { return 0, false; }
      if id !in entries || entries[id].terminal || entries[id].orphan { return 0, false; }
      if state != Running && (joinable || joining) { return 0, false; }
      threw := StartLocked(spawned);
      if threw { return 0, true; }
      token := IssueWatch(id);
    }

    /** A fresh token and the count that goes with it. */
    method IssueWatch(id: int) returns (token: nat)
      requires id in entries
      modifies this`nextWatch, this`watchTokens, this`entries
      ensures token == nextWatch == old(nextWatch) + 1
      ensures watchTokens == old(watchTokens)[token := id]
      ensures entries == old(entries)[id := old(entries)[id].(watches := old(entries)[id].watches + 1)]
    {
      nextWatch := nextWatch + 1;
      token := nextWatch;
      watchTokens := watchTokens[token := id];
      entries := entries[id := entries[id].(watches := entries[id].watches + 1)];
    }

    method ReleaseDriver(token: nat)
      modifies this`driverTokens, this`entries
      ensures Reg() == RegistrySpec.ReleaseDriver(old(Reg()), token) && token !in driverTokens
    {
      if token !in driverTokens { return; }
      var id := driverTokens[token];
      if id in entries && entries[id].drivers != 0 {
        entries := entries[id := entries[id].(drivers := entries[id].drivers - 1)];
      }
      driverTokens := driverTokens - {token};
    }

    method ReleaseWatch(token: nat)
      modifies this`watchTokens, this`entries
      ensures Reg() == RegistrySpec.ReleaseWatch(old(Reg()), token) && token !in watchTokens
    {
      if token !in watchTokens { return; }
      var id := watchTokens[token];
      if id in entries && entries[id].watches != 0 {
        entries := entries[id := entries[id].(watches := entries[id].watches - 1)];
      }
      watchTokens := watchTokens - {token};
    }

    // Routing, by the worker.

    /** First locked phase of `publish`. */
    method RouteFirst(i: Item) returns (go: bool, threw: bool)
      requires known.Valid()
      modifies this`received, this`abandoned
      ensures Reg() == RegistrySpec.RouteFirst(old(Reg()), i)
      ensures threw == Unknown(old(Reg()), i.client) && go == (i.client in entries && !entries[i.client].terminal)
    {
      received := received + 1;
      if i.client !in entries {
        var used := known.Contains(i.client);
        if used { abandoned := abandoned + 1; }
        return false, !used;
      }
      if entries[i.client].terminal { abandoned := abandoned + 1; return false, false; }
      return true, false;
    }

    /** The envelope goes to the mailbox and its request is settled. */
    method CommitLocked(i: Item, evicted: nat)
      requires i.client in entries && evicted <= entries[i.client].box.depth
      modifies this`entries, this`published
      ensures var e := old(entries)[i.client].(box := Arrive(old(entries)[i.client].box, evicted));
        Reg() == Put(old(Reg()).(published := old(published) + 1), i.client,
                     if i.request == 0 then e else var h := ErasePending(e, i.request); h.(guarded := h.guarded - {i.request}))
    {
      hide Arrive, ErasePending;
      var e := entries[i.client];
      e := e.(box := Arrive(e.box, evicted));
      published := published + 1;
      if i.request != 0 {
        e := ErasePending(e, i.request);
        e := e.(guarded := e.guarded - {i.request});
      }
      entries := entries[i.client := e];
    }

    /** Second locked phase: demand and ownership are looked at again. */
    method RouteSecond(i: Item, wanted: bool, evicted: nat) returns (threw: bool)
      requires known.Valid()
      modifies this
      ensures Reg() == RegistrySpec.RouteSecond(old(Reg()), i, wanted, evicted)
      ensures threw == Unknown(old(Reg()), i.client)
    {
      hide Retention, Arrive, ErasePending, Terminate;
      if i.client !in entries {
        var used := known.Contains(i.client);
        if used { abandoned := abandoned + 1; }
        return !used;
      }
      var e := entries[i.client];
      if e.terminal { abandoned := abandoned + 1; return false; }
      var verdict := Retention(e, i, wanted);
      if !verdict.preserved { unsolicited := unsolicited + 1; return false; }
      CommitLocked(i, if verdict.ticketed && evicted <= e.box.depth then evicted else 0);
      if i.terminal { CleanupTerminal(i.client); }
      return false;
    }
  }

  lemma {:induction false} DetachAllFrame(r: Registry, owner: nat, others: bool, ids: seq<int>)
    ensures var s := DetachAll(r, owner, others, ids); s.owners == r.owners && s.life == r.life
    decreases |ids|
  {
    if ids != [] { DetachAllFrame(r, owner, others, ids[..|ids| - 1]); }
  }

  lemma ClearKeepsKey(r: Registry, id: int)
    ensures id in r.entries ==> id in ClearDemand(r, id).entries && id in ClearDriver(r, id).entries
  {
  }
}
