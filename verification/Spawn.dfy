/** Starting and reaping simulator processes: the supervisor's critical sections and its object. */
module Spawn {
  import opened Messages
  import opened Clocks

  datatype Status = Running | Exited | Killed

  /** The supervisor's two tables and the processes behind the child handles. */
  datatype Table = Table(children: map<string, nat>, starting: set<string>, procs: map<nat, Status>)

  function Kill(procs: map<nat, Status>, p: nat): map<nat, Status> {
    if p in procs && procs[p].Running? then procs[p := Killed] else procs
  }

  predicate IsRunning(t: Table, p: nat) {
    p in t.procs && t.procs[p].Running?
  }

  /** `try_wait` reports a running child unless it fails; `fails` is its verdict on the handle. */
  predicate ChildAlive(t: Table, id: string, fails: bool) {
    id in t.children && IsRunning(t, t.children[id]) && !fails
  }

  /** A child that is not reported alive is forgotten, and dropping its handle kills what still runs. */
  function AliveSection(t: Table, id: string, fails: bool): Table {
    if id in t.children && !ChildAlive(t, id, fails)
    then t.(children := t.children - {id}, procs := Kill(t.procs, t.children[id]))
    else t
  }

  predicate Reserves(t: Table, id: string, fails: bool) {
    id !in t.starting && !ChildAlive(t, id, fails)
  }

  /** A reservation in progress answers before the child is looked at. */
  function ReserveSection(t: Table, id: string, fails: bool): Table {
    if id in t.starting then t
    else
      var looked := AliveSection(t, id, fails);
      if ChildAlive(t, id, fails) then looked else looked.(starting := looked.starting + {id})
  }

  function ClearSection(t: Table, id: string): Table {
    t.(starting := t.starting - {id})
  }

  /** Storing a child drops the handle it replaces. */
  function StoreSection(t: Table, id: string, p: nat): Table {
    Table(t.children[id := p], t.starting - {id}, if id in t.children then Kill(t.procs, t.children[id]) else t.procs)
  }

  function ReapSection(t: Table, id: string): Table {
    t.(starting := t.starting - {id}, children := t.children - {id})
  }

  function Reaped(t: Table, id: string): Table {
    ReapSection(t, id).(procs := if id in t.children then Kill(t.procs, t.children[id]) else t.procs)
  }

  datatype SpawnError = InvalidId | NotConfigured | AlreadyConnected | AlreadySpawned | SpawnFailed

  /** How the parts of a start outside the tables turn out. */
  datatype Weather = Weather(waitFails: bool, seeds: bool, spawns: bool)

  class SpawnSupervisor {
    const configured: bool
    var children: map<string, nat>
    var starting: set<string>
    var procs: map<nat, Status>
    var nextProc: nat

    ghost predicate Valid()
      reads this
    {
      && (forall id :: id in children ==> children[id] in procs)
      && (forall id, id' :: id in children && id' in children && children[id] == children[id'] ==> id == id')
      && (forall p :: p in procs ==> p < nextProc)
    }

    ghost predicate HasLiveChild(id: string)
      reads this
      requires Valid()
    {
      id in children && procs[children[id]] == Running
    }

    ghost function State(): Table
      reads this
    {
      Table(children, starting, procs)
    }

    constructor (configured: bool)
      ensures Valid() && State() == Table(map[], {}, map[]) && this.configured == configured
    {
      this.configured := configured;
      children, starting, procs, nextProc := map[], {}, map[], 0;
    }

    method IsAlive(id: string, waitFails: bool) returns (alive: bool)
      requires Valid()
      modifies this`children, this`procs
      ensures Valid() && alive == ChildAlive(old(State()), id, waitFails)
      ensures alive <==> old(HasLiveChild(id)) && !waitFails
      ensures alive ==> State() == old(State())
      ensures !alive ==> id !in children && forall k :: k != id && k in old(children) ==>
                k in children && children[k] == old(children)[k]
      ensures State() == AliveSection(old(State()), id, waitFails)
    {
      if id !in children {
        return false;
      }
      var p := children[id];
      if procs[p].Running? && !waitFails {
        return true;
      }
      children := children - {id};
      procs := Kill(procs, p);
      return false;
    }

    method ClearStarting(id: string)
      requires Valid()
      modifies this`starting
      ensures Valid() && State() == ClearSection(old(State()), id)
    {
      starting := starting - {id};
    }

    /**
     A start that succeeds leaves a running child under the id; one that fails leaves the children as the
     liveness check left them. Either way the reservations are what they were.
     */
    method Start(id: string, connected: bool, weather: Weather) returns (result: Result)
      requires Valid()
      modifies this
      ensures Valid() && starting == old(starting)
      ensures result.Err? <==> !(IsValidInstanceId(id) && configured && !connected
                                 && Reserves(old(State()), id, weather.waitFails) && weather.seeds && weather.spawns)
      ensures result == Err(InvalidId) <==> |id| == 0 || |id| > 64
      ensures result == Err(NotConfigured) <==> 1 <= |id| <= 64 && !configured
      ensures result == Err(AlreadyConnected) <==> 1 <= |id| <= 64 && configured && connected
      ensures result == Err(AlreadySpawned) <==>
                1 <= |id| <= 64 && configured && !connected
                && (id in old(starting) || (old(HasLiveChild(id)) && !weather.waitFails))
      ensures result == Err(SpawnFailed) <==>
                1 <= |id| <= 64 && configured && !connected && id !in old(starting)
                && !(old(HasLiveChild(id)) && !weather.waitFails) && !(weather.seeds && weather.spawns)
      ensures result.Ok? ==> result.child == old(nextProc)
      ensures result.Ok? ==> id in children && children[id] == result.child && IsRunning(State(), result.child)
      ensures result.Ok? ==> forall k :: k != id && k in old(children) ==>
           k in children && children[k] == old(children)[k]
      ensures result.Err? ==> State() == old(State()) || State() == AliveSection(old(State()), id, weather.waitFails)
      ensures result == Err(AlreadySpawned) ==> id in starting || (id in children && IsRunning(State(), children[id]))
    {
      if !IsValidInstanceId(id) {
        return Err(InvalidId);
      }
      if !configured {
        return Err(NotConfigured);
      }
      if connected {
        return Err(AlreadyConnected);
      }
      if id in starting {
        return Err(AlreadySpawned);
      }
      var alive := IsAlive(id, weather.waitFails);
      if alive {
        return Err(AlreadySpawned);
      }
      starting := starting + {id};
      if !weather.seeds {
        ClearStarting(id);
        return Err(SpawnFailed);
      }
      if !weather.spawns {
        ClearStarting(id);
        return Err(SpawnFailed);
      }
      var p := nextProc;
      nextProc := nextProc + 1;
      procs := procs[p := Running];
      Store(id, p);
      return Ok(p);
    }

    method Store(id: string, p: nat)
      requires p in procs && forall k :: k in children ==> children[k] != p
      requires Valid()
      modifies this`children, this`starting, this`procs
      ensures Valid() && State() == StoreSection(old(State()), id, p)
    {
      starting := starting - {id};
      if id in children {
        procs := Kill(procs, children[id]);
      }
      children := children[id := p];
    }

    method Reap(id: string)
      requires Valid()
      modifies this`children, this`starting, this`procs
      ensures Valid() && State() == Reaped(old(State()), id)
      ensures id !in children && id !in starting
      ensures id in old(children) ==> !IsRunning(State(), old(children)[id])
    {
      starting := starting - {id};
      if id in children {
        var p := children[id];
        children := children - {id};
        procs := Kill(procs, p);
      }
    }

    /** Not the supervisor's doing: a process ends by itself. */
    method ProcessExits(p: nat)
      requires Valid() && p in procs
      modifies this`procs
      ensures Valid() && procs == old(procs)[p := if old(procs)[p].Running? then Exited else old(procs)[p]]
    {
      if procs[p].Running? {
        procs := procs[p := Exited];
      }
    }

    /** Every child known at the call is gone afterwards and no longer runs; other processes are not touched. */
    method ReapAll()
      requires Valid()
      modifies this`children, this`starting, this`procs
      ensures Valid() && children == map[] && starting == old(starting) - old(children).Keys
      ensures forall id :: id in old(children) ==> !IsRunning(State(), old(children)[id])
      ensures forall p :: p in old(procs) && p !in old(children).Values ==> p in procs && procs[p] == old(procs)[p]
      ensures procs.Keys == old(procs).Keys
    {
      var ids := children.Keys;
      ghost var before := State();
      while ids != {}
        invariant Valid() && Swept(before, State(), ids)
        decreases ids
      {
        var id :| id in ids;
        SweptFurther(before, State(), ids, id);
        Reap(id);
        ids := ids - {id};
      }
    }
  }

  /** Of the children in `t0`, all but `ids` have been reaped. */
  ghost predicate Swept(t0: Table, t: Table, ids: set<string>) {
    && ids <= t0.children.Keys
    && t.children.Keys == ids && (forall id :: id in ids ==> t.children[id] == t0.children[id])
    && t.starting == t0.starting - (t0.children.Keys - ids)
    && t.procs.Keys == t0.procs.Keys
    && (forall id :: id in t0.children && id !in ids ==> !IsRunning(t, t0.children[id]))
    && (forall p :: p in t0.procs && p !in t0.children.Values ==> t.procs[p] == t0.procs[p])
  }

  lemma SweptFurther(t0: Table, t: Table, ids: set<string>, id: string)
    requires Swept(t0, t, ids) && id in ids
    ensures Swept(t0, Reaped(t, id), ids - {id})
  {
    assert t.children[id] in t0.children.Values;
  }

  datatype Result = Ok(child: nat) | Err(error: SpawnError)

  // Starting an instance and waiting for it to register

  const POLL_MS: nat := 100

  /** What one look at the world finds: is the instance connected, has its process exited, what time is it. */
  datatype Look = Look(connected: bool, exited: bool, waitFails: bool, now: nat)

  datatype StartOutcome =
    | Registered(child: nat)
    | NotStarted(error: SpawnError)
    | ExitedBeforeRegister
    | RegisterTimeout

  function Times(looks: nat -> Look): nat -> nat {
    i => looks(i).now
  }

  /** Looks `0` to `n - 1` found the child alive, unregistered and in time. */
  ghost predicate KeepsWaiting(looks: nat -> Look, deadline: nat, n: nat) {
    forall i :: 0 <= i < n ==> !looks(i).connected && !looks(i).exited && !looks(i).waitFails && looks(i).now < deadline
  }

  /**
   `n` is the number of sleeps. A start that does not end in a registration leaves no child under the id and no
   running process of its own behind.
   */
  method StartInstance(
      supervisor: SpawnSupervisor, id: string, connected: bool, weather: Weather, start: nat, waitMs: nat,
        looks: nat -> Look)
    returns (outcome: StartOutcome, n: nat)
    requires supervisor.Valid() && Clocked(Times(looks), start, POLL_MS)
    modifies supervisor
    ensures supervisor.Valid()
    ensures outcome.NotStarted? ==> n == 0
    ensures !outcome.NotStarted? ==> KeepsWaiting(looks, start + waitMs, n) && 100 * n < waitMs + 100
    ensures outcome.Registered? ==> looks(n).connected && outcome.child == old(supervisor.nextProc)
    ensures outcome.ExitedBeforeRegister? ==> !looks(n).connected && (looks(n).exited || looks(n).waitFails)
    ensures outcome.RegisterTimeout? ==>
              !looks(n).connected && !looks(n).exited && !looks(n).waitFails && looks(n).now >= start + waitMs
    ensures outcome.ExitedBeforeRegister? || outcome.RegisterTimeout? ==>
              id !in supervisor.children && id !in supervisor.starting
                && !IsRunning(supervisor.State(), old(supervisor.nextProc))
  {
    n := 0;
    ghost var mine := supervisor.nextProc;
    var started := supervisor.Start(id, connected, weather);
    if started.Err? {
      return NotStarted(started.error), 0;
    }
    var deadline := start + waitMs;
    while true
      invariant supervisor.Valid() && id in supervisor.children && supervisor.children[id] == mine == started.child
      invariant IsRunning(supervisor.State(), mine)
      invariant KeepsWaiting(looks, deadline, n) && POLL_MS * n < waitMs + POLL_MS
      decreases waitMs + POLL_MS - POLL_MS * n
    {
      var look := looks(n);
      if look.exited {
        supervisor.ProcessExits(started.child);
      }
      if look.connected {
        return Registered(started.child), n;
      }
      var alive := supervisor.IsAlive(id, look.waitFails);
      if !alive {
        supervisor.Reap(id);
        return ExitedBeforeRegister, n;
      }
      if look.now >= deadline {
        supervisor.Reap(id);
        return RegisterTimeout, n;
      }
      ClockAdvances(Times(looks), start, POLL_MS, n);
      n := n + 1;
    }
  }
}
