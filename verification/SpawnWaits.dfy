/**
 What follows a start: waiting for the registration, giving up, and sweeping up all children at shutdown.

 Both reap by id, section by section, among all other starts, reaps and looks. Every start that stores its child goes
 on to wait. `child` and `found` record whom the program is after; no branch reads them.
 */
module SpawnWaits {
  import opened Messages
  import opened Spawn
  import opened SpawnRuns

  datatype WaitPc = Polling | Checking | Timing | GivingUp | Reaping(r: nat) | Registered | Unregistered(r: nat)

  /** The wait of one start for the process it stored. */
  datatype Wait = Wait(id: string, child: nat, pc: WaitPc)

  /** A sweep over the children found at its beginning; `current` is the reap in progress. */
  datatype Sweep = Sweep(found: map<string, nat>, left: set<string>, current: Option<Errand>)

  datatype Errand = Errand(id: string, r: nat)

  datatype World = World(s: State, waits: map<nat, Wait>, sweeps: map<nat, Sweep>, nextSweep: nat)

  const FRESH := World(INITIAL, map[], map[], 0)

  /** `yes` answers what the wait asks: is the instance connected, can the child be waited on, has time run out. */
  datatype Move =
    | Other(action: Action)
    | WaitStep(k: nat, yes: bool)
    | OpenSweep
    | SweepStep(n: nat, id: string)

  predicate Stores(s: State, a: Action) {
    a.StartStep? && a.k in s.starts && s.starts[a.k].pc.Storing?
  }

  function Opened(s: State, a: Action, waits: map<nat, Wait>): map<nat, Wait> {
    if Stores(s, a) then waits[a.k := Wait(s.starts[a.k].id, s.starts[a.k].pc.p, Polling)] else waits
  }

  function At(w: World, k: nat, pc: WaitPc): World
    requires k in w.waits
  {
    w.(waits := w.waits[k := w.waits[k].(pc := pc)])
  }

  predicate IsDone(s: State, r: nat) {
    r in s.reaps && s.reaps[r].pc.Done?
  }

  function Waited(w: World, k: nat, yes: bool): World
    requires k in w.waits
  {
    var id := w.waits[k].id;
    match w.waits[k].pc
    case Polling => At(w, k, if yes then WaitPc.Registered else Checking)
    case Checking =>
      At(w, k, if ChildAlive(w.s.t, id, !yes) then Timing else GivingUp).(s := Step(w.s, LookAt(id, !yes)))
    case Timing => At(w, k, if yes then GivingUp else Polling)
    case GivingUp => At(w, k, Reaping(w.s.nextTask)).(s := Step(w.s, BeginReap(id)))
    case Reaping(r) => if IsDone(w.s, r) then At(w, k, Unregistered(r)) else w.(s := Step(w.s, ReapStep(r)))
    case Registered => w
    case Unregistered(_) => w
  }

  function Swept(w: World, n: nat, id: string): World
    requires n in w.sweeps
  {
    var sweep := w.sweeps[n];
    match sweep.current
    case None =>
      if id in sweep.left
      then w.(s := Step(w.s, BeginReap(id)),
              sweeps := w.sweeps[n := sweep.(left := sweep.left - {id}, current := Some(Errand(id, w.s.nextTask)))])
      else w
    case Some(errand) =>
      if IsDone(w.s, errand.r) then w.(sweeps := w.sweeps[n := sweep.(current := None)])
      else w.(s := Step(w.s, ReapStep(errand.r)))
  }

  function Next(w: World, m: Move): World {
    match m
    case Other(a) => w.(s := Step(w.s, a), waits := Opened(w.s, a, w.waits))
    case WaitStep(k, yes) => if k in w.waits then Waited(w, k, yes) else w
    case OpenSweep =>
      var children := w.s.t.children;
      w.(sweeps := w.sweeps[w.nextSweep := Sweep(children, children.Keys, None)], nextSweep := w.nextSweep + 1)
    case SweepStep(n, id) => if n in w.sweeps then Swept(w, n, id) else w
  }

  function History(w: World, moves: seq<Move>): World
    decreases |moves|
  {
    if moves == [] then w else History(Next(w, moves[0]), moves[1..])
  }

  // The invariant

  /** A stored child is under its id, or has left the table for good. */
  predicate OwnOk(s: State, id: string, p: nat) {
    InTable(s, p, id) || Displaced(s, p)
  }

  /** A reap of the id that has taken its first section has displaced the child if nothing had before. */
  predicate ErrandOk(s: State, id: string, r: nat, p: nat) {
    r in s.reaps && s.reaps[r].id == id && (s.reaps[r].pc.Removing? || Displaced(s, p))
  }

  predicate WaitOk(s: State, wait: Wait) {
    && OwnOk(s, wait.id, wait.child)
    && match wait.pc
       case Reaping(r) => ErrandOk(s, wait.id, r, wait.child)
       case Unregistered(r) => ErrandOk(s, wait.id, r, wait.child) && Displaced(s, wait.child)
       case _ => true
  }

  predicate FoundOk(s: State, sweep: Sweep, id: string)
    requires id in sweep.found
  {
    && OwnOk(s, id, sweep.found[id])
    && (id in sweep.left || Displaced(s, sweep.found[id]) || (sweep.current.Some? && sweep.current.value.id == id))
    && (sweep.current.Some? && sweep.current.value.id == id ==>
          ErrandOk(s, id, sweep.current.value.r, sweep.found[id]))
  }

  ghost predicate SweepOk(s: State, sweep: Sweep) {
    forall id :: id in sweep.found ==> FoundOk(s, sweep, id)
  }

  ghost predicate Orderly(w: World) {
    && Conserved(w.s)
    && (forall k :: k in w.waits ==> WaitOk(w.s, w.waits[k]))
    && (forall n :: n in w.sweeps ==> n < w.nextSweep && SweepOk(w.s, w.sweeps[n]))
  }

  lemma OwnStays(s: State, a: Action, id: string, p: nat)
    requires Conserved(s) && OwnOk(s, id, p)
    ensures OwnOk(Step(s, a), id, p)
    ensures Displaced(s, p) || Displaces(s, a, id) ==> Displaced(Step(s, a), p)
  {
    if Displaced(s, p) {
      DisplacedStays(s, a, p);
    } else {
      DisplacingStep(s, a, id, p);
    }
  }

  /** A reap keeps its id, and leaves its first section by displacing the child of the id. */
  lemma ReapGoesOn(s: State, a: Action, r: nat)
    requires Conserved(s) && r in s.reaps
    ensures r in Step(s, a).reaps && Step(s, a).reaps[r].id == s.reaps[r].id
    ensures s.reaps[r].pc.Removing? && !Step(s, a).reaps[r].pc.Removing? ==> Displaces(s, a, s.reaps[r].id)
    ensures !s.reaps[r].pc.Removing? ==> !Step(s, a).reaps[r].pc.Removing?
  {
    if a.StartStep? && a.k in s.starts {
      assert StartStepped(s, a.k, a.succeeds).reaps == s.reaps;
    }
  }

  lemma ErrandStays(s: State, a: Action, id: string, r: nat, p: nat)
    requires Conserved(s) && OwnOk(s, id, p) && ErrandOk(s, id, r, p)
    ensures ErrandOk(Step(s, a), id, r, p)
  {
    OwnStays(s, a, id, p);
    ReapGoesOn(s, a, r);
  }

  lemma WaitStays(s: State, a: Action, wait: Wait)
    requires Conserved(s) && WaitOk(s, wait)
    ensures WaitOk(Step(s, a), wait)
  {
    OwnStays(s, a, wait.id, wait.child);
    match wait.pc
    case Reaping(r) => ErrandStays(s, a, wait.id, r, wait.child);
    case Unregistered(r) => ErrandStays(s, a, wait.id, r, wait.child);
    case _ =>
  }

  lemma SweepStays(s: State, a: Action, sweep: Sweep)
    requires Conserved(s) && SweepOk(s, sweep)
    ensures SweepOk(Step(s, a), sweep)
  {
    forall id | id in sweep.found
      ensures FoundOk(Step(s, a), sweep, id)
    {
      assert FoundOk(s, sweep, id);
      OwnStays(s, a, id, sweep.found[id]);
      if sweep.current.Some? && sweep.current.value.id == id {
        ErrandStays(s, a, id, sweep.current.value.r, sweep.found[id]);
      }
    }
  }

  /** A step of the tables keeps what all waits and sweeps rely on. */
  lemma StateStep(w: World, a: Action)
    requires Orderly(w)
    ensures Orderly(w.(s := Step(w.s, a)))
  {
    ConservedStep(w.s, a);
    forall k | k in w.waits
      ensures WaitOk(Step(w.s, a), w.waits[k])
    {
      WaitStays(w.s, a, w.waits[k]);
    }
    forall n | n in w.sweeps
      ensures SweepOk(Step(w.s, a), w.sweeps[n])
    {
      SweepStays(w.s, a, w.sweeps[n]);
    }
  }

  lemma OtherKeeps(w: World, a: Action)
    requires Orderly(w)
    ensures Orderly(Next(w, Other(a)))
  {
    StateStep(w, a);
    if Stores(w.s, a) {
      assert Step(w.s, a) == Stored(w.s, a.k);
    }
  }

  lemma AtKeeps(w: World, k: nat, pc: WaitPc)
    requires Orderly(w) && k in w.waits && WaitOk(w.s, w.waits[k].(pc := pc))
    ensures Orderly(At(w, k, pc))
  {
  }

  lemma WaitKeeps(w: World, k: nat, yes: bool)
    requires Orderly(w) && k in w.waits
    ensures Orderly(Waited(w, k, yes))
  {
    var id := w.waits[k].id;
    assert WaitOk(w.s, w.waits[k]);
    match w.waits[k].pc
    case Polling => AtKeeps(w, k, if yes then WaitPc.Registered else Checking);
    case Checking =>
      StateStep(w, LookAt(id, !yes));
      AtKeeps(w.(s := Step(w.s, LookAt(id, !yes))), k, if ChildAlive(w.s.t, id, !yes) then Timing else GivingUp);
    case Timing => AtKeeps(w, k, if yes then GivingUp else Polling);
    case GivingUp =>
      StateStep(w, BeginReap(id));
      AtKeeps(w.(s := Step(w.s, BeginReap(id))), k, Reaping(w.s.nextTask));
    case Reaping(r) =>
      if IsDone(w.s, r) {
        AtKeeps(w, k, Unregistered(r));
      } else {
        StateStep(w, ReapStep(r));
      }
    case Registered =>
    case Unregistered(_) =>
  }

  lemma ErrandKeeps(w: World, n: nat, id: string)
    requires Orderly(w) && n in w.sweeps && w.sweeps[n].current.None? && id in w.sweeps[n].left
    ensures Orderly(Swept(w, n, id))
  {
    StateStep(w, BeginReap(id));
    var w' := Swept(w, n, id);
    forall i | i in w'.sweeps[n].found
      ensures FoundOk(w'.s, w'.sweeps[n], i)
    {
      assert FoundOk(w'.s, w.sweeps[n], i);
    }
  }

  lemma SweepKeeps(w: World, n: nat, id: string)
    requires Orderly(w) && n in w.sweeps
    ensures Orderly(Swept(w, n, id))
  {
    var sweep := w.sweeps[n];
    match sweep.current
    case None =>
      if id in sweep.left {
        ErrandKeeps(w, n, id);
      }
    case Some(errand) =>
      StateStep(w, ReapStep(errand.r));
      if IsDone(w.s, errand.r) {
        forall i | i in sweep.found
          ensures FoundOk(w.s, sweep.(current := None), i)
        {
          assert FoundOk(w.s, sweep, i);
        }
      }
  }

  lemma OpenKeeps(w: World)
    requires Orderly(w)
    ensures Orderly(Next(w, OpenSweep))
  {
    var children := w.s.t.children;
    forall id | id in children
      ensures FoundOk(w.s, Sweep(children, children.Keys, None), id)
    {
      assert InTable(w.s, children[id], id);
    }
  }

  lemma OrderlyNext(w: World, m: Move)
    requires Orderly(w)
    ensures Orderly(Next(w, m))
  {
    match m
    case Other(a) => OtherKeeps(w, a);
    case WaitStep(k, yes) =>
      if k in w.waits {
        WaitKeeps(w, k, yes);
      }
    case OpenSweep => OpenKeeps(w);
    case SweepStep(n, id) =>
      if n in w.sweeps {
        SweepKeeps(w, n, id);
      }
  }

  lemma {:induction false} OrderlyHistory(w: World, moves: seq<Move>)
    requires Orderly(w)
    ensures Orderly(History(w, moves))
    decreases |moves|
  {
    if moves == [] {
    } else {
      OrderlyNext(w, moves[0]);
      OrderlyHistory(Next(w, moves[0]), moves[1..]);
    }
  }

  /**
   Over every history: a start that ends without a registration leaves its own process under no id, for good; a reap
   has it in hand, or it does not run.
   */
  lemma UnregisteredIsDisplaced(moves: seq<Move>, k: nat)
    requires var w := History(FRESH, moves); k in w.waits && w.waits[k].pc.Unregistered?
    ensures var w := History(FRESH, moves);
            var p := w.waits[k].child;
            && Displaced(w.s, p) && (forall id :: !InTable(w.s, p, id))
            && ((exists r :: InReap(w.s, p, r)) || !IsRunning(w.s.t, p))
  {
    OrderlyHistory(FRESH, moves);
    var w := History(FRESH, moves);
    var p := w.waits[k].child;
    assert WaitOk(w.s, w.waits[k]) && HomeOk(w.s, p);
    if w.s.homes[p].WithReap? {
      assert InReap(w.s, p, w.s.homes[p].k);
    }
  }

  /** The child that a wait which gives up is about to take. */
  predicate Takes(w: World, k: nat, q: nat) {
    && k in w.waits && w.waits[k].pc.Reaping? && w.waits[k].pc.r in w.s.reaps
    && w.s.reaps[w.waits[k].pc.r].pc.Removing? && InTable(w.s, q, w.waits[k].id)
  }

  /**
   Over every history: what a start that gives up takes out of the table, and kills, is another start's child if and
   only if its own has been displaced before; and it takes nothing else.
   */
  lemma GivesUpOnItsOwnUnlessDisplaced(moves: seq<Move>, k: nat, q: nat)
    requires Takes(History(FRESH, moves), k, q)
    ensures var w := History(FRESH, moves);
            var r := w.waits[k].pc.r;
            && (q != w.waits[k].child <==> Displaced(w.s, w.waits[k].child))
            && var s' := Step(w.s, ReapStep(r)); r in s'.reaps && s'.reaps[r].pc == Killing(q)
  {
    OrderlyHistory(FRESH, moves);
    var w := History(FRESH, moves);
    assert WaitOk(w.s, w.waits[k]);
  }

  /** Over every history: when a sweep has ended, every child it found has left the table for good. */
  lemma SweptIsDisplaced(moves: seq<Move>, n: nat, id: string)
    requires var w := History(FRESH, moves);
             n in w.sweeps && w.sweeps[n].left == {} && w.sweeps[n].current.None? && id in w.sweeps[n].found
    ensures var w := History(FRESH, moves); Displaced(w.s, w.sweeps[n].found[id])
  {
    OrderlyHistory(FRESH, moves);
    var w := History(FRESH, moves);
    assert FoundOk(w.s, w.sweeps[n], id);
  }

  // Another start's child

  lemma {:induction false} HistoryThen(w: World, moves: seq<Move>, m: Move)
    ensures History(w, moves + [m]) == Next(History(w, moves), m)
    decreases |moves|
  {
    if moves == [] {
      assert ([m])[1..] == [];
    } else {
      assert (moves + [m])[1..] == moves[1..] + [m];
      HistoryThen(Next(w, moves[0]), moves[1..], m);
    }
  }

  lemma Extend(moves: seq<Move>, m: Move, w: World) returns (moves': seq<Move>, w': World)
    requires w == History(FRESH, moves)
    ensures moves' == moves + [m] && w' == History(FRESH, moves') && w' == Next(w, m)
  {
    moves', w' := moves + [m], Next(w, m);
    HistoryThen(FRESH, moves, m);
  }

  lemma FirstChildIsStored() returns (moves: seq<Move>, w: World)
    ensures w == History(FRESH, moves)
    ensures w.s.t == Table(map["a" := 0], {}, map[0 := Running]) && w.s.nextTask == 1 && w.s.nextProc == 1
    ensures 0 in w.waits && w.waits[0] == Wait("a", 0, Polling)
  {
    moves, w := Extend([], Other(BeginStart("a")), FRESH);
    moves, w := Extend(moves, Other(StartStep(0, true)), w);
    moves, w := Extend(moves, Other(StartStep(0, true)), w);
    moves, w := Extend(moves, Other(StartStep(0, true)), w);
    moves, w := Extend(moves, Other(StartStep(0, true)), w);
  }

  lemma FirstChildIsReaped() returns (moves: seq<Move>, w: World)
    ensures w == History(FRESH, moves)
    ensures w.s.t == Table(map[], {}, map[0 := Killed]) && w.s.nextTask == 2 && w.s.nextProc == 1
    ensures 0 in w.waits && w.waits[0] == Wait("a", 0, Polling)
  {
    moves, w := FirstChildIsStored();
    moves, w := Extend(moves, Other(BeginReap("a")), w);
    moves, w := Extend(moves, Other(ReapStep(1)), w);
    moves, w := Extend(moves, Other(ReapStep(1)), w);
  }

  lemma SecondChildIsStored() returns (moves: seq<Move>, w: World)
    ensures w == History(FRESH, moves)
    ensures w.s.t == Table(map["a" := 1], {}, map[0 := Killed, 1 := Running]) && w.s.nextTask == 3
    ensures 0 in w.waits && w.waits[0] == Wait("a", 0, Polling) && 2 in w.waits && w.waits[2] == Wait("a", 1, Polling)
  {
    moves, w := FirstChildIsReaped();
    moves, w := Extend(moves, Other(BeginStart("a")), w);
    moves, w := Extend(moves, Other(StartStep(2, true)), w);
    moves, w := Extend(moves, Other(StartStep(2, true)), w);
    moves, w := Extend(moves, Other(StartStep(2, true)), w);
    moves, w := Extend(moves, Other(StartStep(2, true)), w);
  }

  lemma FirstWaitGivesUp() returns (moves: seq<Move>, w: World)
    ensures w == History(FRESH, moves)
    ensures w.s.t == Table(map["a" := 1], {}, map[0 := Killed, 1 := Running])
    ensures 3 in w.s.reaps && w.s.reaps[3] == Reap("a", Removing)
    ensures 0 in w.waits && w.waits[0] == Wait("a", 0, Reaping(3)) && 2 in w.waits
         && w.waits[2] == Wait("a", 1, Polling)
  {
    moves, w := SecondChildIsStored();
    moves, w := Extend(moves, WaitStep(0, false), w);
    moves, w := Extend(moves, WaitStep(0, true), w);
    moves, w := Extend(moves, WaitStep(0, true), w);
    moves, w := Extend(moves, WaitStep(0, true), w);
  }

  /**
   A start whose child was reaped and replaced takes the replacement for its own, waits on, gives up and kills it,
   while the second start still waits for it.
   */
  lemma GivingUpKillsSuccessor() returns (moves: seq<Move>)
    ensures var w := History(FRESH, moves);
            && 0 in w.waits && w.waits[0].pc == Unregistered(3)
            && 2 in w.waits && w.waits[2] == Wait("a", 1, Polling)
            && w.s.t.children == map[] && 1 in w.s.t.procs && w.s.t.procs[1] == Killed
  {
    var w;
    moves, w := FirstWaitGivesUp();
    moves, w := Extend(moves, WaitStep(0, true), w);
    moves, w := Extend(moves, WaitStep(0, true), w);
    moves, w := Extend(moves, WaitStep(0, true), w);
  }
}
