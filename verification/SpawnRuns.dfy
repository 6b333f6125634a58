/**
 Concurrent starts and reaps, one critical section at a time.

 A start reserves its id in one section and stores its child in another; a reap can come between them. Processes
 are never lost whatever happens; reservations exclude each other exactly as long as no such reap happens.
 */
module SpawnRuns {
  import opened Messages
  import opened Spawn

  datatype StartPc = Reserving | Seeding | Spawning | Clearing | Storing(p: nat) | Started(ok: bool)

  datatype Start = Start(id: string, pc: StartPc)

  datatype ReapPc = Removing | Killing(p: nat) | Done

  datatype Reap = Reap(id: string, pc: ReapPc)

  /** Where the only handle of a process is. */
  datatype Home = Tabled(id: string) | WithStart(k: nat) | WithReap(k: nat) | Gone

  /** `homes` records who holds each process; no branch reads it. */
  datatype State = State(
    t: Table, starts: map<nat, Start>, reaps: map<nat, Reap>, homes: map<nat, Home>, nextTask: nat, nextProc: nat)

  const INITIAL := State(Table(map[], {}, map[]), map[], map[], map[], 0, 0)

  datatype Action =
    | BeginStart(id: string)
    | StartStep(k: nat, succeeds: bool)
    | BeginReap(id: string)
    | ReapStep(k: nat)
    | LookAt(id: string, fails: bool)
    | Exit(p: nat)

  function Forgotten(s: State, id: string): map<nat, Home> {
    if id in s.t.children then s.homes[s.t.children[id] := Gone] else s.homes
  }

  function StartAt(s: State, k: nat, pc: StartPc): State
    requires k in s.starts
  {
    s.(starts := s.starts[k := s.starts[k].(pc := pc)])
  }

  /** Look at a child: the liveness section. */
  function Looked(s: State, id: string, fails: bool): State {
    s.(t := AliveSection(s.t, id, fails), homes := if ChildAlive(s.t, id, fails) then s.homes else Forgotten(s, id))
  }

  function Reserved(s: State, k: nat, fails: bool): State
    requires k in s.starts && s.starts[k].pc.Reserving?
  {
    var id := s.starts[k].id;
    s.(t := ReserveSection(s.t, id, fails),
       starts := s.starts[k := Start(id, if Reserves(s.t, id, fails) then Seeding else Started(false))],
       homes := if Reserves(s.t, id, fails) then Forgotten(s, id) else s.homes)
  }

  function Spawned(s: State, k: nat): State
    requires k in s.starts && s.starts[k].pc.Spawning?
  {
    var p := s.nextProc;
    s.(t := s.t.(procs := s.t.procs[p := Running]),
       starts := s.starts[k := s.starts[k].(pc := Storing(p))],
       homes := s.homes[p := WithStart(k)],
       nextProc := p + 1)
  }

  function Cleared(s: State, k: nat): State
    requires k in s.starts && s.starts[k].pc.Clearing?
  {
    StartAt(s, k, Started(false)).(t := ClearSection(s.t, s.starts[k].id))
  }

  function Stored(s: State, k: nat): State
    requires k in s.starts && s.starts[k].pc.Storing?
  {
    var id, p := s.starts[k].id, s.starts[k].pc.p;
    s.(t := StoreSection(s.t, id, p),
       starts := s.starts[k := Start(id, Started(true))],
       homes := Forgotten(s, id)[p := Tabled(id)])
  }

  function StartStepped(s: State, k: nat, succeeds: bool): State
    requires k in s.starts
  {
    match s.starts[k].pc
    case Reserving => Reserved(s, k, !succeeds)
    case Seeding => StartAt(s, k, if succeeds then Spawning else Clearing)
    case Spawning => if succeeds then Spawned(s, k) else StartAt(s, k, Clearing)
    case Clearing => Cleared(s, k)
    case Storing(_) => Stored(s, k)
    case Started(_) => s
  }

  function Removed(s: State, k: nat): State
    requires k in s.reaps && s.reaps[k].pc.Removing?
  {
    var id := s.reaps[k].id;
    s.(t := ReapSection(s.t, id),
       reaps := s.reaps[k := Reap(id, if id in s.t.children then Killing(s.t.children[id]) else Done)],
       homes := if id in s.t.children then s.homes[s.t.children[id] := WithReap(k)] else s.homes)
  }

  function KilledBy(s: State, k: nat): State
    requires k in s.reaps && s.reaps[k].pc.Killing?
  {
    var p := s.reaps[k].pc.p;
    s.(t := s.t.(procs := Kill(s.t.procs, p)),
       reaps := s.reaps[k := s.reaps[k].(pc := Done)],
       homes := s.homes[p := Gone])
  }

  function ReapStepped(s: State, k: nat): State
    requires k in s.reaps
  {
    match s.reaps[k].pc
    case Removing => Removed(s, k)
    case Killing(_) => KilledBy(s, k)
    case Done => s
  }

  function Step(s: State, a: Action): State {
    match a
    case BeginStart(id) => s.(starts := s.starts[s.nextTask := Start(id, Reserving)], nextTask := s.nextTask + 1)
    case StartStep(k, succeeds) => if k in s.starts then StartStepped(s, k, succeeds) else s
    case BeginReap(id) => s.(reaps := s.reaps[s.nextTask := Reap(id, Removing)], nextTask := s.nextTask + 1)
    case ReapStep(k) => if k in s.reaps then ReapStepped(s, k) else s
    case LookAt(id, fails) => Looked(s, id, fails)
    case Exit(p) => if IsRunning(s.t, p) then s.(t := s.t.(procs := s.t.procs[p := Exited])) else s
  }

  function Run(s: State, run: seq<Action>): State
    decreases |run|
  {
    if run == [] then s else Run(Step(s, run[0]), run[1..])
  }

  lemma {:induction false} RunThen(s: State, run: seq<Action>, a: Action)
    ensures Run(s, run + [a]) == Step(Run(s, run), a)
    decreases |run|
  {
    if run == [] {
      assert (run + [a])[1..] == [];
    } else {
      assert (run + [a])[1..] == run[1..] + [a];
      RunThen(Step(s, run[0]), run[1..], a);
    }
  }

  lemma Extend(run: seq<Action>, a: Action, s: State) returns (run': seq<Action>, s': State)
    requires s == Run(INITIAL, run)
    ensures run' == run + [a] && s' == Run(INITIAL, run') && s' == Step(s, a)
  {
    run', s' := run + [a], Step(s, a);
    RunThen(INITIAL, run, a);
  }

  // Conservation

  /** The recorded home of a process is its real one, and a process without a home does not run. */
  ghost predicate HomeOk(s: State, p: nat)
    requires p in s.homes
  {
    && p in s.t.procs
    && match s.homes[p]
       case Tabled(id) => id in s.t.children && s.t.children[id] == p
       case WithStart(k) => k in s.starts && s.starts[k].pc == Storing(p)
       case WithReap(k) => k in s.reaps && s.reaps[k].pc == Killing(p)
       case Gone => !s.t.procs[p].Running?
  }

  /** Whoever holds a handle is the recorded home of its process. */
  ghost predicate Conserved(s: State) {
    && s.t.procs.Keys == s.homes.Keys
    && (forall p :: p in s.homes ==> p < s.nextProc && HomeOk(s, p))
    && (forall id :: id in s.t.children ==> s.t.children[id] in s.homes && s.homes[s.t.children[id]] == Tabled(id))
    && (forall k :: k in s.starts ==> k < s.nextTask)
    && (forall k :: k in s.starts && s.starts[k].pc.Storing? ==>
      s.starts[k].pc.p in s.homes && s.homes[s.starts[k].pc.p] == WithStart(k))
    && (forall k :: k in s.reaps ==> k < s.nextTask)
    && (forall k :: k in s.reaps && s.reaps[k].pc.Killing? ==>
      s.reaps[k].pc.p in s.homes && s.homes[s.reaps[k].pc.p] == WithReap(k))
  }

  lemma LookedConserves(s: State, id: string, fails: bool)
    requires Conserved(s)
    ensures Conserved(Looked(s, id, fails))
  {
    assert forall p :: p in s.homes ==> HomeOk(s, p) && HomeOk(Looked(s, id, fails), p);
  }

  lemma ReservedConserves(s: State, k: nat, fails: bool)
    requires Conserved(s) && k in s.starts && s.starts[k].pc.Reserving?
    ensures Conserved(Reserved(s, k, fails))
  {
    var s', id := Reserved(s, k, fails), s.starts[k].id;
    forall p | p in s'.homes
      ensures p < s'.nextProc && HomeOk(s', p)
    {
      assert HomeOk(s, p);
    }
    assert s'.t.children == if Reserves(s.t, id, fails) then s.t.children - {id} else s.t.children;
  }

  lemma StoredConserves(s: State, k: nat)
    requires Conserved(s) && k in s.starts && s.starts[k].pc.Storing?
    ensures Conserved(Stored(s, k))
  {
    assert forall p :: p in s.homes ==> HomeOk(s, p) && HomeOk(Stored(s, k), p);
  }

  lemma SpawnedConserves(s: State, k: nat)
    requires Conserved(s) && k in s.starts && s.starts[k].pc.Spawning?
    ensures Conserved(Spawned(s, k))
  {
    forall p | p in Spawned(s, k).homes
      ensures HomeOk(Spawned(s, k), p)
    {
      assert p in s.homes ==> HomeOk(s, p);
    }
  }

  /** Sections that hold no handle and take none. */
  lemma PlainConserves(s: State, k: nat, succeeds: bool)
    requires Conserved(s) && k in s.starts
    requires var pc := s.starts[k].pc; pc.Seeding? || pc.Clearing? || pc.Started? || (pc.Spawning? && !succeeds)
    ensures Conserved(StartStepped(s, k, succeeds))
  {
    forall p | p in s.homes
      ensures HomeOk(StartStepped(s, k, succeeds), p)
    {
      assert HomeOk(s, p);
    }
  }

  lemma StartConserves(s: State, k: nat, succeeds: bool)
    requires Conserved(s) && k in s.starts
    ensures Conserved(StartStepped(s, k, succeeds))
  {
    match s.starts[k].pc
    case Reserving => ReservedConserves(s, k, !succeeds);
    case Storing(_) => StoredConserves(s, k);
    case Spawning =>
      if succeeds {
        SpawnedConserves(s, k);
      } else {
        PlainConserves(s, k, succeeds);
      }
    case _ => PlainConserves(s, k, succeeds);
  }

  lemma RemovedConserves(s: State, k: nat)
    requires Conserved(s) && k in s.reaps && s.reaps[k].pc.Removing?
    ensures Conserved(Removed(s, k))
  {
    forall p | p in s.homes
      ensures HomeOk(Removed(s, k), p)
    {
      assert HomeOk(s, p);
    }
  }

  lemma KilledConserves(s: State, k: nat)
    requires Conserved(s) && k in s.reaps && s.reaps[k].pc.Killing?
    ensures Conserved(KilledBy(s, k))
  {
    forall p | p in s.homes
      ensures HomeOk(KilledBy(s, k), p)
    {
      assert HomeOk(s, p);
    }
  }

  lemma ReapConserves(s: State, k: nat)
    requires Conserved(s) && k in s.reaps
    ensures Conserved(ReapStepped(s, k))
  {
    match s.reaps[k].pc
    case Removing => RemovedConserves(s, k);
    case Killing(_) => KilledConserves(s, k);
    case Done =>
  }

  lemma ConservedStep(s: State, a: Action)
    requires Conserved(s)
    ensures Conserved(Step(s, a))
  {
    match a
    case StartStep(k, succeeds) =>
      if k in s.starts {
        StartConserves(s, k, succeeds);
      }
    case ReapStep(k) =>
      if k in s.reaps {
        ReapConserves(s, k);
      }
    case LookAt(id, fails) => LookedConserves(s, id, fails);
    case _ =>
      assert forall p :: p in s.homes ==> HomeOk(s, p) && HomeOk(Step(s, a), p);
  }

  lemma {:induction false} ConservedRun(s: State, run: seq<Action>)
    requires Conserved(s)
    ensures Conserved(Run(s, run))
    decreases |run|
  {
    if run == [] {
    } else {
      ConservedStep(s, run[0]);
      ConservedRun(Step(s, run[0]), run[1..]);
    }
  }

  predicate InTable(s: State, p: nat, id: string) {
    id in s.t.children && s.t.children[id] == p
  }

  predicate InStart(s: State, p: nat, k: nat) {
    k in s.starts && s.starts[k].pc == Storing(p)
  }

  predicate InReap(s: State, p: nat, k: nat) {
    k in s.reaps && s.reaps[k].pc == Killing(p)
  }

  /**
   With any concurrency of starts, reaps, looks and overwrites: every process still running is a child, or in the
   hands of a start or of a reap.
   */
  lemma NoProcessIsLost(run: seq<Action>, p: nat)
    requires IsRunning(Run(INITIAL, run).t, p)
    ensures var s := Run(INITIAL, run);
            p in s.t.children.Values || (exists k :: InStart(s, p, k)) || (exists k :: InReap(s, p, k))
  {
    ConservedRun(INITIAL, run);
    var s := Run(INITIAL, run);
    assert HomeOk(s, p);
    var home := s.homes[p];
    if home.Tabled? {
      assert s.t.children[home.id] == p;
    } else if home.WithStart? {
      assert InStart(s, p, home.k);
    } else {
      assert InReap(s, p, home.k);
    }
  }

  /** And it is in one place only: under one id, or with one task. */
  lemma NoProcessIsShared(run: seq<Action>, p: nat)
    ensures var s := Run(INITIAL, run);
            && (forall id, id' :: InTable(s, p, id) && InTable(s, p, id') ==> id == id')
            && (forall k, k' :: InStart(s, p, k) && InStart(s, p, k') ==> k == k')
            && (forall k, k' :: InReap(s, p, k) && InReap(s, p, k') ==> k == k')
            && (forall id, k :: !(InTable(s, p, id) && InStart(s, p, k)))
            && (forall id, k :: !(InTable(s, p, id) && InReap(s, p, k)))
            && (forall k, k' :: !(InStart(s, p, k) && InReap(s, p, k')))
  {
    ConservedRun(INITIAL, run);
  }

  // Reservations

  /** A start between its two sections. */
  predicate InFlight(s: State, k: nat, id: string) {
    && k in s.starts && s.starts[k].id == id
    && (s.starts[k].pc.Seeding? || s.starts[k].pc.Spawning? || s.starts[k].pc.Clearing? || s.starts[k].pc.Storing?)
  }

  /** Reservations are exactly the starts in flight, one per id, and no child sits under a reserved id. */
  ghost predicate Exclusive(s: State) {
    && (forall k, id :: InFlight(s, k, id) ==> id in s.t.starting && id !in s.t.children)
    && (forall id :: id in s.t.starting ==> exists k :: InFlight(s, k, id))
    && (forall k, k', id :: InFlight(s, k, id) && InFlight(s, k', id) ==> k == k')
  }

  /** The one interleaving reservations cannot bear: a reap taking effect while a start of its id is in flight. */
  ghost predicate Interrupts(s: State, a: Action) {
    a.ReapStep? && a.k in s.reaps && s.reaps[a.k].pc.Removing? && exists k :: InFlight(s, k, s.reaps[a.k].id)
  }

  /** One start changes its own standing and the reservation of its own id only. */
  lemma ExclusiveMove(s: State, s': State, k: nat, id: string)
    requires Exclusive(s) && k in s.starts && s.starts[k].id == id
    requires k in s'.starts && s'.starts == s.starts[k := s'.starts[k]] && s'.starts[k].id == id
    requires forall i :: i != id ==> (i in s'.t.starting <==> i in s.t.starting)
    requires forall i :: i in s'.t.children && i !in s.t.children ==>
         i == id && InFlight(s, k, id) && !InFlight(s', k, id)
    requires InFlight(s', k, id) ==>
               id in s'.t.starting && id !in s'.t.children && (InFlight(s, k, id) || id !in s.t.starting)
    requires !InFlight(s', k, id) && InFlight(s, k, id) ==> id !in s'.t.starting
    requires !InFlight(s', k, id) && !InFlight(s, k, id) ==> s'.t.starting == s.t.starting
    ensures Exclusive(s')
  {
    forall j, i | InFlight(s', j, i) && j != k
      ensures InFlight(s, j, i)
    {
    }
    forall i | i in s'.t.starting
      ensures exists j :: InFlight(s', j, i)
    {
      if InFlight(s', k, i) {
      } else {
        var j :| InFlight(s, j, i);
        assert InFlight(s', j, i);
      }
    }
  }

  lemma ExclusiveStart(s: State, k: nat, succeeds: bool)
    requires Exclusive(s) && k in s.starts
    ensures Exclusive(StartStepped(s, k, succeeds))
  {
    var s', id := StartStepped(s, k, succeeds), s.starts[k].id;
    if s.starts[k].pc.Started? {
      assert s' == s;
    } else {
      assert InFlight(s, k, id) ==> id in s.t.starting && id !in s.t.children;
      ExclusiveMove(s, s', k, id);
    }
  }

  lemma ExclusiveStep(s: State, a: Action)
    requires Conserved(s) && Exclusive(s) && !Interrupts(s, a)
    ensures Exclusive(Step(s, a))
  {
    var s' := Step(s, a);
    match a
    case StartStep(k, succeeds) =>
      if k in s.starts {
        ExclusiveStart(s, k, succeeds);
      }
    case _ =>
      assert forall j, i :: InFlight(s', j, i) <==> InFlight(s, j, i);
  }

  ghost predicate Uninterrupted(s: State, run: seq<Action>)
    decreases |run|
  {
    run == [] || (!Interrupts(s, run[0]) && Uninterrupted(Step(s, run[0]), run[1..]))
  }

  lemma {:induction false} ExclusiveRun(s: State, run: seq<Action>)
    requires Conserved(s) && Exclusive(s) && Uninterrupted(s, run)
    ensures Conserved(Run(s, run)) && Exclusive(Run(s, run))
    decreases |run|
  {
    if run == [] {
    } else {
      ConservedStep(s, run[0]);
      ExclusiveStep(s, run[0]);
      ExclusiveRun(Step(s, run[0]), run[1..]);
    }
  }

  /**
   Without a reap inside a start of the same id: at most one start per id is in flight, the reservations are those
   of the starts in flight, and storing a child replaces none, so no live child is overwritten.
   */
  lemma StartsExclude(run: seq<Action>, k: nat, k': nat, id: string)
    requires Uninterrupted(INITIAL, run) && InFlight(Run(INITIAL, run), k, id)
    ensures var s := Run(INITIAL, run);
            && (InFlight(s, k', id) ==> k == k')
            && id in s.t.starting && id !in s.t.children
            && (s.starts[k].pc.Storing? ==> Stored(s, k).t.procs == s.t.procs)
  {
    ExclusiveRun(INITIAL, run);
  }

  /** And once no start of an id is in flight, its reservation has been released, whichever way the starts returned. */
  lemma ReservationReleased(run: seq<Action>, id: string)
    requires Uninterrupted(INITIAL, run) && forall k :: !InFlight(Run(INITIAL, run), k, id)
    ensures id !in Run(INITIAL, run).t.starting
  {
    ExclusiveRun(INITIAL, run);
  }

  /** Exactly the interrupting reaps break the exclusion, and they always do. */
  lemma OnlyInterruptionsBreak(s: State, a: Action)
    requires Conserved(s) && Exclusive(s)
    ensures Exclusive(Step(s, a)) <==> !Interrupts(s, a)
  {
    if Interrupts(s, a) {
      var id := s.reaps[a.k].id;
      var k :| InFlight(s, k, id);
      assert InFlight(Step(s, a), k, id);
    } else {
      ExclusiveStep(s, a);
    }
  }

  /** One start of "a" has spawned process 0 and not stored it; a reap has released its reservation. */
  lemma FirstStartInterrupted() returns (run: seq<Action>, s: State)
    ensures s == Run(INITIAL, run)
    ensures s.t == Table(map[], {}, map[0 := Running]) && s.nextTask == 2 && s.nextProc == 1
    ensures s.starts == map[0 := Start("a", Storing(0))]
  {
    run, s := Extend([], BeginStart("a"), INITIAL);
    run, s := Extend(run, StartStep(0, true), s);
    run, s := Extend(run, StartStep(0, true), s);
    run, s := Extend(run, StartStep(0, true), s);
    run, s := Extend(run, BeginReap("a"), s);
    run, s := Extend(run, ReapStep(1), s);
  }

  lemma SecondStartSpawns() returns (run: seq<Action>, s: State)
    ensures s == Run(INITIAL, run)
    ensures s.t == Table(map[], {"a"}, map[0 := Running, 1 := Running])
    ensures s.starts == map[0 := Start("a", Storing(0)), 2 := Start("a", Storing(1))]
  {
    run, s := FirstStartInterrupted();
    run, s := Extend(run, BeginStart("a"), s);
    run, s := Extend(run, StartStep(2, true), s);
    run, s := Extend(run, StartStep(2, true), s);
    run, s := Extend(run, StartStep(2, true), s);
  }

  /** Two starts of one id with a reap in between: the second child is live when the first start overwrites it. */
  lemma InterruptedStartKillsSuccessor() returns (run: seq<Action>)
    ensures var s := Run(INITIAL, run);
            && InStart(s, 0, 0) && InTable(s, 1, "a") && IsRunning(s.t, 1)
            && s.starts[0].id == "a" && !IsRunning(Stored(s, 0).t, 1)
  {
    var s;
    run, s := SecondStartSpawns();
    run, s := Extend(run, StartStep(2, true), s);
  }

  // Whose child a later reap takes

  /** The step takes the child of `id` out of the table, or puts another in its place. */
  predicate Displaces(s: State, a: Action, id: string) {
    match a
    case LookAt(looked, fails) => looked == id && !ChildAlive(s.t, id, fails)
    case StartStep(k, succeeds) =>
      && k in s.starts && s.starts[k].id == id
      && (s.starts[k].pc.Storing? || (s.starts[k].pc.Reserving? && Reserves(s.t, id, !succeeds)))
    case ReapStep(k) => k in s.reaps && s.reaps[k].id == id && s.reaps[k].pc.Removing?
    case _ => false
  }

  /** The process has left the table for good. */
  predicate Displaced(s: State, p: nat) {
    p in s.homes && (s.homes[p].WithReap? || s.homes[p].Gone?)
  }

  lemma ReservingDisplaces(s: State, k: nat, fails: bool, id: string, p: nat)
    requires Conserved(s) && InTable(s, p, id) && k in s.starts && s.starts[k].pc.Reserving?
    ensures if Displaces(s, StartStep(k, !fails), id) then Displaced(Reserved(s, k, fails), p)
         else InTable(Reserved(s, k, fails), p, id)
  {
    assert s.homes[p] == Tabled(id);
  }

  lemma StoringDisplaces(s: State, k: nat, id: string, p: nat)
    requires Conserved(s) && InTable(s, p, id) && k in s.starts && s.starts[k].pc.Storing?
    ensures if s.starts[k].id == id then Displaced(Stored(s, k), p) else InTable(Stored(s, k), p, id)
  {
    assert s.homes[p] == Tabled(id);
  }

  lemma DisplacingStep(s: State, a: Action, id: string, p: nat)
    requires Conserved(s) && InTable(s, p, id)
    ensures if Displaces(s, a, id) then Displaced(Step(s, a), p) else InTable(Step(s, a), p, id)
  {
    assert s.homes[p] == Tabled(id);
    match a
    case StartStep(k, succeeds) =>
      if k in s.starts {
        match s.starts[k].pc
        case Reserving => ReservingDisplaces(s, k, !succeeds, id, p);
        case Storing(_) => StoringDisplaces(s, k, id, p);
        case _ =>
      }
    case _ =>
  }

  lemma DisplacedStays(s: State, a: Action, p: nat)
    requires Conserved(s) && Displaced(s, p)
    ensures Displaced(Step(s, a), p)
  {
    assert HomeOk(s, p);
    match a
    case StartStep(k, succeeds) =>
      if k in s.starts {
        assert StartStepped(s, k, succeeds).homes.Keys >= s.homes.Keys;
      }
    case _ =>
  }

  ghost predicate Undisplaced(s: State, run: seq<Action>, id: string)
    decreases |run|
  {
    run == [] || (!Displaces(s, run[0], id) && Undisplaced(Step(s, run[0]), run[1..], id))
  }

  lemma {:induction false} DisplacedForGood(s: State, run: seq<Action>, p: nat)
    requires Conserved(s) && Displaced(s, p)
    ensures Conserved(Run(s, run)) && Displaced(Run(s, run), p)
    decreases |run|
  {
    if run == [] {
    } else {
      ConservedStep(s, run[0]);
      DisplacedStays(s, run[0], p);
      DisplacedForGood(Step(s, run[0]), run[1..], p);
    }
  }

  /**
   A child is still under its id, so that a reap by id takes this very child, if and only if no step has displaced it
   since: no other reap of the id, no look that found it dead, no other start of the id. This is what the wait for a
   registration relies on when it gives up and reaps.
   */
  lemma {:induction false} OwnChildIffUndisplaced(s: State, run: seq<Action>, id: string, p: nat)
    requires Conserved(s) && InTable(s, p, id)
    ensures InTable(Run(s, run), p, id) <==> Undisplaced(s, run, id)
    ensures Displaced(Run(s, run), p) <==> !Undisplaced(s, run, id)
    decreases |run|
  {
    if run == [] {
    } else {
      ConservedStep(s, run[0]);
      DisplacingStep(s, run[0], id, p);
      if Displaces(s, run[0], id) {
        DisplacedForGood(Step(s, run[0]), run[1..], p);
        assert HomeOk(Run(s, run), p);
      } else {
        OwnChildIffUndisplaced(Step(s, run[0]), run[1..], id, p);
      }
    }
  }
}
