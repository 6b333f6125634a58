/**
 Observers interleaved with each other and with everything the broker does.

 An observer works section by section: look the instance up, read its mask, pop one message after the other, look at
 the heartbeat, read the clock. Between any two of these, messages arrive, masks change, other observers pop, and
 sessions replace one another. `log` records every pop and `traces` what happened to each session's queue; no branch
 reads them.
 */
module ObserveRuns {
  import opened Messages
  import opened InboundQueues
  import opened Broker
  import opened Protocol
  import opened Ownership
  import opened Footprints
  import QueueIsolation
  import QueueLedger
  import Observe

  datatype Stage =
    | Resolving
    | Masking
    | Popping(mask: seq<string>, shown: seq<SimToServer>, popped: seq<SimToServer>)
    | Flooring(drain: Observe.Drain)
    | Looking(drain: Observe.Drain)
    | Judging(drain: Observe.Drain, heartbeat: Option<Heartbeat>)
    | Sleeping(wake: nat)
    | Reported(result: Observe.Observation)

  /** `first` and `start` are read after the first drain; `turns` are the turns taken. */
  datatype Observer = Observer(
    id: string, until: Observe.Until, waitMs: Option<nat>, defaultMs: nat,
    stage: Stage, first: Option<Heartbeat>, start: nat, turns: seq<Observe.Turn>, events: seq<SimToServer>)

  /** Observer `o` popped `msg` from the queue of session `token` during its drain number `turn`. */
  datatype Pop = Pop(o: nat, turn: nat, token: nat, msg: SimToServer)

  datatype Trace = Trace(cap: nat, ops: seq<QueueIsolation.Op>)

  datatype World = World(
    s: State, now: nat, observers: map<nat, Observer>, next: nat, log: seq<Pop>, traces: map<nat, Trace>)

  const FRESH := World(START, 0, map[], 0, [], map[])

  datatype Move =
    | Other(action: Action)
    | Tick(elapsed: nat)
    | Open(id: string, until: Observe.Until, waitMs: Option<nat>, defaultMs: nat)
    | Go(o: nat)

  function Conditions(o: Observer): Observe.Until {
    Observe.Effective(o.until, o.first)
  }

  function Timeout(o: Observer): nat {
    Observe.Patience(Conditions(o), o.waitMs, o.defaultMs)
  }

  function HeartbeatOf(s: State, id: string): Option<Heartbeat> {
    if id in s.sh.inner then s.sh.inner[id].lastHeartbeat else None
  }

  function MaskOf(s: State, id: string): seq<string> {
    if id in s.sh.inner then s.sh.inner[id].readMask else []
  }

  // One section of an observer that pops nothing

  function Finished(o: Observer, drain: Observe.Drain, shown: seq<SimToServer>): Observer {
    o.(stage := if o.turns == [] then Flooring(drain) else Looking(drain), events := o.events + shown)
  }

  function TurnOf(o: Observer, now: nat): Observe.Turn
    requires o.stage.Judging?
  {
    Observe.Turn(Some(o.stage.drain), o.stage.heartbeat, now)
  }

  function Judged(o: Observer, now: nat): Observer
    requires o.stage.Judging?
  {
    var report := Observe.Verdicted(Conditions(o), o.events, TurnOf(o, now), o.start + Timeout(o));
    o.(turns := o.turns + [TurnOf(o, now)],
       stage := if report.Some? then Reported(report.value) else Sleeping(now + Observe.POLL_MS))
  }

  function Looked(s: State, now: nat, o: Observer): Observer {
    match o.stage
    case Resolving =>
      if o.id in s.sh.inner then o.(stage := Masking)
      else o.(stage := Reported(Observe.Gone), turns := o.turns + [Observe.Turn(None, None, now)])
    case Masking => o.(stage := Popping(MaskOf(s, o.id), [], []))
    case Popping(mask, shown, popped) => Finished(o, Observe.Drain(mask, popped), shown)
    case Flooring(drain) => o.(stage := Looking(drain), first := HeartbeatOf(s, o.id), start := now)
    case Looking(drain) => o.(stage := Judging(drain, HeartbeatOf(s, o.id)))
    case Judging(_, _) => Judged(o, now)
    case Sleeping(wake) => if now >= wake then o.(stage := Resolving) else o
    case Reported(_) => o
  }

  // Pops

  predicate CanPop(s: State, o: Observer) {
    o.stage.Popping? && o.id in s.sh.inner && s.sh.inner[o.id].inbound != []
  }

  function Took(o: Observer, msg: SimToServer): Observer
    requires o.stage.Popping?
  {
    var mask := o.stage.mask;
    o.(stage := Popping(mask,
                        o.stage.shown + if Visible(mask, msg) then [msg] else [],
                        o.stage.popped + [msg]))
  }

  function Extended(traces: map<nat, Trace>, t: nat, op: QueueIsolation.Op): map<nat, Trace> {
    if t in traces then traces[t := traces[t].(ops := traces[t].ops + [op])] else traces
  }

  function Popped(w: World, k: nat): World
    requires k in w.observers && CanPop(w.s, w.observers[k])
  {
    var o := w.observers[k];
    var inst := w.s.sh.inner[o.id];
    w.(s := Step(w.s, Drain(o.id)),
       observers := w.observers[k := Took(o, inst.inbound[0])],
       log := w.log + [Pop(k, |o.turns|, inst.token, inst.inbound[0])],
       traces := Extended(w.traces, inst.token, QueueIsolation.Pop))
  }

  /** What another step does to the queues: a session enters with an empty one, or a reader pushes. */
  function Traced(s: State, traces: map<nat, Trace>, a: Action): map<nat, Trace> {
    if a.Advance? && a.token in s.readers then
      var r := s.readers[a.token];
      if r.pc.Inserting? then traces[a.token := Trace(r.pc.inboundCap, [])]
      else if Delivers(s, a, r.id) && r.id in s.sh.inner && Queues(s.sh.inner[r.id], r.pc.msg)
      then Extended(traces, s.sh.inner[r.id].token, QueueIsolation.Push(r.pc.msg))
      else traces
    else traces
  }

  predicate Queues(inst: Instance, msg: SimToServer) {
    Visible(inst.readMask, msg) && !Excluded(inst.excluded, msg)
  }

  function Next(w: World, m: Move): World {
    match m
    case Other(a) => if a.Drain? then w else w.(s := Step(w.s, a), traces := Traced(w.s, w.traces, a))
    case Tick(elapsed) => w.(now := w.now + elapsed)
    case Open(id, until, waitMs, defaultMs) =>
      w.(observers := w.observers[w.next := Observer(id, until, waitMs, defaultMs, Resolving, None, 0, [], [])],
        next := w.next + 1)
    case Go(k) =>
      if k !in w.observers then w
      else if CanPop(w.s, w.observers[k]) then Popped(w, k)
      else w.(observers := w.observers[k := Looked(w.s, w.now, w.observers[k])])
  }

  function History(w: World, moves: seq<Move>): World
    decreases |moves|
  {
    if moves == [] then w else History(Next(w, moves[0]), moves[1..])
  }

  // What the log says

  /** The messages popped from one session's queue, in order. */
  function FromSession(log: seq<Pop>, t: nat): seq<SimToServer> {
    if log == [] then []
    else
      var last := log[|log| - 1];
      FromSession(log[..|log| - 1], t) + if last.token == t then [last.msg] else []
  }

  /** The messages one observer popped in one of its drains, in order. */
  function OwnPops(log: seq<Pop>, k: nat, turn: nat): seq<SimToServer> {
    if log == [] then []
    else
      var last := log[|log| - 1];
      OwnPops(log[..|log| - 1], k, turn) + if last.o == k && last.turn == turn then [last.msg] else []
  }

  lemma LogGrows(log: seq<Pop>, pop: Pop)
    ensures forall t :: FromSession(log + [pop], t) == FromSession(log, t) + if pop.token == t then [pop.msg] else []
    ensures forall k, turn ::
              OwnPops(log + [pop], k, turn) == OwnPops(log, k, turn) + if pop.o == k
                && pop.turn == turn then [pop.msg] else []
  {
    assert (log + [pop])[..|log + [pop]| - 1] == log;
  }

  // Queues: what was popped is what left

  lemma {:induction false} ContentNext(items: seq<SimToServer>, cap: nat, ops: seq<QueueIsolation.Op>,
      op: QueueIsolation.Op)
    ensures QueueIsolation.Content(items, cap, ops + [op])
         == QueueIsolation.After(QueueIsolation.Content(items, cap, ops), cap, op)
    ensures QueueIsolation.Drained(items, cap, ops + [op])
         == QueueIsolation.Drained(items, cap, ops) + QueueIsolation.Output(QueueIsolation.Content(items, cap, ops), op)
    decreases |ops|
  {
    if ops == [] {
      assert ([op])[1..] == [];
    } else {
      assert (ops + [op])[0] == ops[0] && (ops + [op])[1..] == ops[1..] + [op];
      ContentNext(QueueIsolation.After(items, cap, ops[0]), cap, ops[1..], op);
    }
  }

  /** A connected session's queue holds what its trace leaves. */
  ghost predicate QueueOk(w: World, id: string)
    requires id in w.s.sh.inner
  {
    var inst := w.s.sh.inner[id];
    inst.token in w.traces &&
    var trace := w.traces[inst.token];
    inst.inboundCap == trace.cap && inst.inbound == QueueIsolation.Content([], trace.cap, trace.ops)
  }

  /** What was popped from a session, by all observers together, is what its trace drains. */
  ghost predicate TraceOk(w: World, t: nat)
    requires t in w.traces
  {
    Born(w.s, t) && FromSession(w.log, t) == QueueIsolation.Drained([], w.traces[t].cap, w.traces[t].ops)
  }

  ghost predicate QueuesTraced(w: World) {
    && Registry(w.s)
    && (forall id :: id in w.s.sh.inner ==> QueueOk(w, id))
    && (forall t :: t in w.traces ==> TraceOk(w, t))
    && (forall i :: 0 <= i < |w.log| ==> w.log[i].token in w.traces)
  }

  lemma TokensDiffer(s: State, id: string, id': string)
    requires Registry(s) && id in s.sh.inner && id' in s.sh.inner && id != id'
    ensures s.sh.inner[id].token != s.sh.inner[id'].token
  {
    assert IdOk(s, id) && IdOk(s, id');
  }

  /** What another step does to the entry of `id`, as far as its queue is concerned. */
  ghost predicate QueueGoesOn(s: State, a: Action, id: string) {
    var s' := Step(s, a);
    id in s'.sh.inner ==>
      || (exists t :: Enters(s, a, t, id) &&
            s'.sh.inner[id] == NewInstance(t, s.readers[t].pc.inboundCap, s.readers[t].pc.outboundCap))
      || (id in s.sh.inner && s'.sh.inner[id].token == s.sh.inner[id].token &&
          if Delivers(s, a, id) then s'.sh.inner[id] == Received(s.sh.inner[id], s.readers[a.token].pc.msg)
          else SameQueue(s.sh.inner[id], s'.sh.inner[id]))
  }

  lemma QueueStep(s: State, a: Action, id: string)
    requires !a.Drain?
    ensures QueueGoesOn(s, a, id)
  {
    if (a.SetMask? || a.SetExcluded?) && a.id == id {
      assert Step(s, a).sh.inner.Keys == s.sh.inner.Keys;
    } else {
      EntryStep(s, a, id);
    }
  }

  /** A trace changes only for the session that enters, or for the one that is pushed to. */
  lemma TraceStep(s: State, traces: map<nat, Trace>, a: Action, t: nat)
    requires t in traces && Born(s, t)
    ensures t in Traced(s, traces, a)
    ensures Traced(s, traces, a)[t] == traces[t]
            || (a.Advance? && a.token in s.readers && s.readers[a.token].pc.Pushing? &&
                var r := s.readers[a.token];
                && r.id in s.sh.inner && s.sh.inner[r.id].token == t && Queues(s.sh.inner[r.id], r.pc.msg)
                && Traced(s, traces, a)[t] == traces[t].(ops := traces[t].ops + [QueueIsolation.Push(r.pc.msg)]))
  {
  }

  lemma EntrantQueueOk(w: World, a: Action, t: nat, id: string)
    requires QueuesTraced(w) && !a.Drain? && Enters(w.s, a, t, id) && id in Step(w.s, a).sh.inner
    ensures QueueOk(Next(w, Other(a)), id)
  {
    assert Step(w.s, a) == Inserted(w.s, t);
  }

  lemma PushedQueueOk(w: World, a: Action, id: string)
    requires QueuesTraced(w) && id in w.s.sh.inner && Delivers(w.s, a, id) && id in Step(w.s, a).sh.inner
    requires Step(w.s, a).sh.inner[id] == Received(w.s.sh.inner[id], w.s.readers[a.token].pc.msg)
    ensures QueueOk(Next(w, Other(a)), id)
  {
    var inst, msg := w.s.sh.inner[id], w.s.readers[a.token].pc.msg;
    assert QueueOk(w, id);
    var trace := w.traces[inst.token];
    if Queues(inst, msg) {
      ContentNext([], trace.cap, trace.ops, QueueIsolation.Push(msg));
      assert Next(w, Other(a)).traces[inst.token] == Trace(trace.cap, trace.ops + [QueueIsolation.Push(msg)]);
    } else {
      assert Next(w, Other(a)).traces == w.traces;
    }
  }

  lemma UntouchedQueueOk(w: World, a: Action, id: string)
    requires QueuesTraced(w) && !a.Drain? && id in w.s.sh.inner && id in Step(w.s, a).sh.inner && !Delivers(w.s, a, id)
    requires Step(w.s, a).sh.inner[id].token == w.s.sh.inner[id].token
    requires SameQueue(w.s.sh.inner[id], Step(w.s, a).sh.inner[id])
    ensures QueueOk(Next(w, Other(a)), id)
  {
    var t := w.s.sh.inner[id].token;
    assert QueueOk(w, id) && TraceOk(w, t);
    TraceStep(w.s, w.traces, a, t);
    if Next(w, Other(a)).traces[t] != w.traces[t] {
      TokensDiffer(w.s, id, w.s.readers[a.token].id);
    }
  }

  lemma OtherQueueOk(w: World, a: Action, id: string)
    requires QueuesTraced(w) && !a.Drain? && id in Step(w.s, a).sh.inner
    ensures QueueOk(Next(w, Other(a)), id)
  {
    QueueStep(w.s, a, id);
    if a.Advance? && Enters(w.s, a, a.token, id) {
      EntrantQueueOk(w, a, a.token, id);
    } else if Delivers(w.s, a, id) {
      PushedQueueOk(w, a, id);
    } else {
      UntouchedQueueOk(w, a, id);
    }
  }

  lemma {:induction false} NothingFromStranger(log: seq<Pop>, t: nat)
    requires forall i :: 0 <= i < |log| ==> log[i].token != t
    ensures FromSession(log, t) == []
  {
    if log == [] {
    } else {
      NothingFromStranger(log[..|log| - 1], t);
    }
  }

  lemma OldTraceOk(w: World, a: Action, t: nat)
    requires QueuesTraced(w) && !a.Drain? && t in w.traces
    ensures t in Next(w, Other(a)).traces && TraceOk(Next(w, Other(a)), t)
  {
    assert TraceOk(w, t);
    BornStays(w.s, a, t);
    TraceStep(w.s, w.traces, a, t);
    var trace := w.traces[t];
    if Next(w, Other(a)).traces[t] != trace {
      ContentNext([], trace.cap, trace.ops, QueueIsolation.Push(w.s.readers[a.token].pc.msg));
    }
  }

  lemma NewTraceOk(w: World, a: Action, t: nat)
    requires QueuesTraced(w) && !a.Drain? && t in Next(w, Other(a)).traces && t !in w.traces
    ensures TraceOk(Next(w, Other(a)), t)
  {
    NothingFromStranger(w.log, t);
    AdvanceSends(w.s, t);
    assert Step(w.s, a) == Advanced(w.s, t);
  }

  lemma OtherTraced(w: World, a: Action)
    requires QueuesTraced(w)
    ensures QueuesTraced(Next(w, Other(a)))
  {
    if !a.Drain? {
      var w' := Next(w, Other(a));
      RegistryStep(w.s, a);
      forall id | id in w'.s.sh.inner
        ensures QueueOk(w', id)
      {
        OtherQueueOk(w, a, id);
      }
      forall t | t in w'.traces
        ensures TraceOk(w', t)
      {
        if t in w.traces {
          OldTraceOk(w, a, t);
        } else {
          NewTraceOk(w, a, t);
        }
      }
      forall i | 0 <= i < |w'.log|
        ensures w'.log[i].token in w'.traces
      {
        OldTraceOk(w, a, w.log[i].token);
      }
    }
  }

  lemma PoppedQueueOk(w: World, k: nat, id: string)
    requires QueuesTraced(w) && k in w.observers && CanPop(w.s, w.observers[k]) && id in Popped(w, k).s.sh.inner
    ensures QueueOk(Popped(w, k), id)
  {
    var w', popped := Popped(w, k), w.observers[k].id;
    var t := w.s.sh.inner[popped].token;
    assert QueueOk(w, id) && QueueOk(w, popped);
    if id == popped {
      ContentNext([], w.traces[t].cap, w.traces[t].ops, QueueIsolation.Pop);
    } else {
      TokensDiffer(w.s, id, popped);
    }
  }

  lemma PoppedTraceOk(w: World, k: nat, t: nat)
    requires QueuesTraced(w) && k in w.observers && CanPop(w.s, w.observers[k]) && t in w.traces
    ensures t in Popped(w, k).traces && TraceOk(Popped(w, k), t)
  {
    var o := w.observers[k];
    var inst := w.s.sh.inner[o.id];
    assert TraceOk(w, t) && QueueOk(w, o.id);
    BornStays(w.s, Drain(o.id), t);
    LogGrows(w.log, Pop(k, |o.turns|, inst.token, inst.inbound[0]));
    ContentNext([], w.traces[t].cap, w.traces[t].ops, QueueIsolation.Pop);
  }

  lemma PoppedTraced(w: World, k: nat)
    requires QueuesTraced(w) && k in w.observers && CanPop(w.s, w.observers[k])
    ensures QueuesTraced(Popped(w, k))
  {
    var w', o := Popped(w, k), w.observers[k];
    RegistryStep(w.s, Drain(o.id));
    assert QueueOk(w, o.id);
    forall id | id in w'.s.sh.inner
      ensures QueueOk(w', id)
    {
      PoppedQueueOk(w, k, id);
    }
    forall t | t in w'.traces
      ensures TraceOk(w', t)
    {
      PoppedTraceOk(w, k, t);
    }
    assert w'.traces.Keys == w.traces.Keys;
  }

  lemma TracedNext(w: World, m: Move)
    requires QueuesTraced(w)
    ensures QueuesTraced(Next(w, m))
  {
    var w' := Next(w, m);
    if m.Other? {
      OtherTraced(w, m.action);
    } else if m.Go? && m.o in w.observers && CanPop(w.s, w.observers[m.o]) {
      PoppedTraced(w, m.o);
    } else {
      assert forall id :: id in w'.s.sh.inner ==> QueueOk(w, id) && QueueOk(w', id);
      assert forall t :: t in w'.traces ==> TraceOk(w, t) && TraceOk(w', t);
    }
  }

  lemma {:induction false} TracedHistory(w: World, moves: seq<Move>)
    requires QueuesTraced(w)
    ensures QueuesTraced(History(w, moves))
    decreases |moves|
  {
    if moves == [] {
    } else {
      TracedNext(w, moves[0]);
      TracedHistory(Next(w, moves[0]), moves[1..]);
    }
  }

  /**
   Over every history, for every session: whatever all observers together popped from its queue is what left the
   queue, in order. Each pushed message was popped, is queued, was evicted or was refused, and exactly one of these;
   so no message is popped twice, whoever pops.
   */
  lemma PopsAreConserved(moves: seq<Move>, t: nat) returns (books: QueueLedger.Ledger)
    requires t in History(FRESH, moves).traces
    ensures var w := History(FRESH, moves);
            && books == QueueLedger.Books(QueueLedger.EMPTY, w.traces[t].cap, w.traces[t].ops)
            && books.drained == FromSession(w.log, t)
            && multiset(books.pushed) == multiset(books.drained) + multiset(books.items) + books.evicted + books.refused
            && QueueLedger.Subsequence(books.drained + books.items, books.pushed)
            && |books.items| <= w.traces[t].cap
            && forall id :: id in w.s.sh.inner && w.s.sh.inner[id].token == t ==>
              w.s.sh.inner[id].inbound == books.items
  {
    TracedHistory(FRESH, moves);
    var w := History(FRESH, moves);
    books := QueueLedger.QueueConservation(w.traces[t].cap, w.traces[t].ops);
    assert TraceOk(w, t);
    assert forall id :: id in w.s.sh.inner ==> QueueOk(w, id);
  }

  /** Every connected session has a trace, and so has every session anything was popped from. */
  lemma SessionsAreTraced(moves: seq<Move>)
    ensures var w := History(FRESH, moves);
            && (forall id :: id in w.s.sh.inner ==> w.s.sh.inner[id].token in w.traces)
            && (forall i :: 0 <= i < |w.log| ==> w.log[i].token in w.traces)
  {
    TracedHistory(FRESH, moves);
    assert forall id :: id in History(FRESH, moves).s.sh.inner ==> QueueOk(History(FRESH, moves), id);
  }

  // Events: what was reported is what was popped and visible

  /** The messages popped in the drain that is going on or has just ended. */
  function Current(stage: Stage): seq<SimToServer> {
    match stage
    case Popping(_, _, popped) => popped
    case Flooring(drain) => drain.popped
    case Looking(drain) => drain.popped
    case Judging(drain, _) => drain.popped
    case _ => []
  }

  /** The drain that has ended and is not yet part of a turn. */
  function Pending(stage: Stage): seq<SimToServer> {
    match stage
    case Flooring(drain) => Observe.Shown(drain.mask, drain.popped)
    case Looking(drain) => Observe.Shown(drain.mask, drain.popped)
    case Judging(drain, _) => Observe.Shown(drain.mask, drain.popped)
    case _ => []
  }

  function PoppedIn(turn: Observe.Turn): seq<SimToServer> {
    if turn.drain.Some? then turn.drain.value.popped else []
  }

  /** The log attributes to the observer its turns' drains, then the current one, then nothing. */
  ghost predicate LogOk(log: seq<Pop>, k: nat, turns: seq<Observe.Turn>, current: seq<SimToServer>) {
    && (forall i :: 0 <= i < |turns| ==> PoppedIn(turns[i]) == OwnPops(log, k, i))
    && (forall i :: i >= |turns| ==> OwnPops(log, k, i) == if i == |turns| then current else [])
  }

  ghost predicate EventsOk(log: seq<Pop>, k: nat, o: Observer) {
    && LogOk(log, k, o.turns, Current(o.stage))
    && (o.stage.Popping? ==> o.stage.shown == Observe.Shown(o.stage.mask, o.stage.popped))
    && o.events == Observe.Accumulated(o.turns) + Pending(o.stage)
    && (o.stage.Reported? && o.stage.result.Observed? ==> o.stage.result.events == o.events)
  }

  ghost predicate ObserversOk(w: World) {
    && (forall k :: k in w.observers ==> k < w.next && EventsOk(w.log, k, w.observers[k]))
    && (forall i :: 0 <= i < |w.log| ==> w.log[i].o in w.observers)
  }

  lemma ShownNext(mask: seq<string>, popped: seq<SimToServer>, msg: SimToServer)
    ensures Observe.Shown(mask, popped + [msg]) == Observe.Shown(mask, popped) + if Visible(mask, msg) then [msg]
         else []
  {
    assert (popped + [msg])[..|popped + [msg]| - 1] == popped;
  }

  lemma TurnLogged(log: seq<Pop>, k: nat, turns: seq<Observe.Turn>, turn: Observe.Turn)
    requires LogOk(log, k, turns, PoppedIn(turn))
    ensures LogOk(log, k, turns + [turn], [])
  {
  }

  lemma JudgedEvents(log: seq<Pop>, k: nat, o: Observer, now: nat)
    requires EventsOk(log, k, o) && o.stage.Judging?
    ensures EventsOk(log, k, Judged(o, now))
  {
    var o' := Judged(o, now);
    TurnLogged(log, k, o.turns, TurnOf(o, now));
    Observe.AccumulatedNext(o.turns, TurnOf(o, now));
    assert LogOk(log, k, o'.turns, []) && Current(o'.stage) == [] && Pending(o'.stage) == [];
    assert o'.events == Observe.Accumulated(o'.turns);
  }

  lemma GoneEvents(log: seq<Pop>, k: nat, o: Observer, now: nat)
    requires EventsOk(log, k, o) && o.stage.Resolving?
    ensures EventsOk(log, k, o.(stage := Reported(Observe.Gone), turns := o.turns + [Observe.Turn(None, None, now)]))
  {
    var turn := Observe.Turn(None, None, now);
    var o' := o.(stage := Reported(Observe.Gone), turns := o.turns + [turn]);
    TurnLogged(log, k, o.turns, turn);
    Observe.AccumulatedNext(o.turns, turn);
    assert LogOk(log, k, o'.turns, []) && Current(o'.stage) == [] && Pending(o'.stage) == [];
    assert o'.events == Observe.Accumulated(o'.turns);
  }

  lemma FinishedEvents(log: seq<Pop>, k: nat, o: Observer)
    requires EventsOk(log, k, o) && o.stage.Popping?
    ensures EventsOk(log, k, Finished(o, Observe.Drain(o.stage.mask, o.stage.popped), o.stage.shown))
  {
  }

  lemma QuietEvents(log: seq<Pop>, k: nat, o: Observer, s: State, now: nat)
    requires EventsOk(log, k, o) && !o.stage.Resolving? && !o.stage.Popping? && !o.stage.Judging?
    ensures EventsOk(log, k, Looked(s, now, o))
  {
    var o' := Looked(s, now, o);
    assert o'.turns == o.turns && o'.events == o.events;
    assert Current(o'.stage) == Current(o.stage) && Pending(o'.stage) == Pending(o.stage);
  }

  lemma LookedEvents(log: seq<Pop>, k: nat, o: Observer, s: State, now: nat)
    requires EventsOk(log, k, o)
    ensures EventsOk(log, k, Looked(s, now, o))
  {
    match o.stage
    case Resolving =>
      if o.id !in s.sh.inner {
        GoneEvents(log, k, o, now);
      }
    case Popping(_, _, _) => FinishedEvents(log, k, o);
    case Judging(_, _) => JudgedEvents(log, k, o, now);
    case _ => QuietEvents(log, k, o, s, now);
  }

  lemma TookEvents(log: seq<Pop>, k: nat, o: Observer, pop: Pop)
    requires EventsOk(log, k, o) && o.stage.Popping? && pop.o == k && pop.turn == |o.turns|
    ensures EventsOk(log + [pop], k, Took(o, pop.msg))
  {
    LogGrows(log, pop);
    ShownNext(o.stage.mask, o.stage.popped, pop.msg);
  }

  lemma OthersPop(log: seq<Pop>, k: nat, o: Observer, pop: Pop)
    requires EventsOk(log, k, o) && pop.o != k
    ensures EventsOk(log + [pop], k, o)
  {
    LogGrows(log, pop);
  }

  lemma PoppedEvent(w: World, k: nat, j: nat)
    requires ObserversOk(w) && k in w.observers && CanPop(w.s, w.observers[k]) && j in w.observers
    ensures EventsOk(Popped(w, k).log, j, Popped(w, k).observers[j])
  {
    var o := w.observers[k];
    var inst := w.s.sh.inner[o.id];
    var pop := Pop(k, |o.turns|, inst.token, inst.inbound[0]);
    if j == k {
      TookEvents(w.log, k, o, pop);
    } else {
      OthersPop(w.log, j, w.observers[j], pop);
    }
  }

  lemma PoppedEvents(w: World, k: nat)
    requires ObserversOk(w) && k in w.observers && CanPop(w.s, w.observers[k])
    ensures ObserversOk(Popped(w, k))
  {
    var w' := Popped(w, k);
    forall j | j in w'.observers
      ensures j < w'.next && EventsOk(w'.log, j, w'.observers[j])
    {
      PoppedEvent(w, k, j);
    }
  }

  lemma {:induction false} NoPopsOf(log: seq<Pop>, k: nat, turn: nat)
    requires forall i :: 0 <= i < |log| ==> log[i].o != k
    ensures OwnPops(log, k, turn) == []
  {
    if log == [] {
    } else {
      NoPopsOf(log[..|log| - 1], k, turn);
    }
  }

  lemma OpenedEvents(w: World, id: string, until: Observe.Until, waitMs: Option<nat>, defaultMs: nat)
    requires ObserversOk(w)
    ensures ObserversOk(Next(w, Open(id, until, waitMs, defaultMs)))
  {
    forall turn
      ensures OwnPops(w.log, w.next, turn) == []
    {
      NoPopsOf(w.log, w.next, turn);
    }
  }

  lemma GoEvents(w: World, k: nat)
    requires ObserversOk(w) && k in w.observers && !CanPop(w.s, w.observers[k])
    ensures ObserversOk(w.(observers := w.observers[k := Looked(w.s, w.now, w.observers[k])]))
  {
    LookedEvents(w.log, k, w.observers[k], w.s, w.now);
  }

  lemma EventsNext(w: World, m: Move)
    requires ObserversOk(w)
    ensures ObserversOk(Next(w, m))
  {
    match m
    case Open(id, until, waitMs, defaultMs) => OpenedEvents(w, id, until, waitMs, defaultMs);
    case Go(k) =>
      if k in w.observers {
        if CanPop(w.s, w.observers[k]) {
          PoppedEvents(w, k);
        } else {
          GoEvents(w, k);
        }
      }
    case _ =>
  }

  lemma {:induction false} EventsHistory(w: World, moves: seq<Move>)
    requires ObserversOk(w)
    ensures ObserversOk(History(w, moves))
    decreases |moves|
  {
    if moves == [] {
    } else {
      EventsNext(w, moves[0]);
      EventsHistory(Next(w, moves[0]), moves[1..]);
    }
  }

  /** What an observer's own pops amount to: per drain, those visible under the mask of that drain. */
  function Visibly(log: seq<Pop>, k: nat, turns: seq<Observe.Turn>): seq<SimToServer> {
    if turns == [] then []
    else
      var last := |turns| - 1;
      Visibly(log, k, turns[..last])
      + if turns[last].drain.Some? then Observe.Shown(turns[last].drain.value.mask, OwnPops(log, k, last)) else []
  }

  lemma {:induction false} AccumulatedIsVisible(log: seq<Pop>, k: nat, turns: seq<Observe.Turn>)
    requires forall i :: 0 <= i < |turns| ==> PoppedIn(turns[i]) == OwnPops(log, k, i)
    ensures Observe.Accumulated(turns) == Visibly(log, k, turns)
  {
    if turns == [] {
    } else {
      AccumulatedIsVisible(log, k, turns[..|turns| - 1]);
    }
  }

  lemma ReportOf(log: seq<Pop>, k: nat, o: Observer)
    requires EventsOk(log, k, o) && o.stage.Reported? && o.stage.result.Observed?
    ensures o.stage.result.events == Visibly(log, k, o.turns)
    ensures forall i :: i >= |o.turns| ==> OwnPops(log, k, i) == []
  {
    AccumulatedIsVisible(log, k, o.turns);
  }

  /**
   Over every history, with any number of observers: a successful report carries, in order, exactly the observer's
   own pops that were visible under the mask of their drain.
   */
  lemma ReportIsOwnPops(moves: seq<Move>, k: nat)
    requires var w := History(FRESH, moves);
             k in w.observers && w.observers[k].stage.Reported? && w.observers[k].stage.result.Observed?
    ensures var w := History(FRESH, moves);
            var o := w.observers[k];
            && o.stage.result.events == Visibly(w.log, k, o.turns)
            && forall i :: i >= |o.turns| ==> OwnPops(w.log, k, i) == []
  {
    EventsHistory(FRESH, moves);
    var w := History(FRESH, moves);
    ReportOf(w.log, k, w.observers[k]);
  }

  /** The mask of the drain that is going on or has just ended. */
  function CurrentMask(stage: Stage): Option<seq<string>> {
    match stage
    case Popping(mask, _, _) => Some(mask)
    case Flooring(drain) => Some(drain.mask)
    case Looking(drain) => Some(drain.mask)
    case Judging(drain, _) => Some(drain.mask)
    case _ => None
  }

  /** All of an observer's pops so far that were visible under the mask of their drain, in order. */
  function AllVisible(log: seq<Pop>, k: nat, o: Observer): seq<SimToServer> {
    var mask := CurrentMask(o.stage);
    Visibly(log, k, o.turns) + if mask.Some? then Observe.Shown(mask.value, OwnPops(log, k, |o.turns|)) else []
  }

  /** What an observer has in hand. */
  function Gathered(o: Observer): seq<SimToServer> {
    o.events + if o.stage.Popping? then o.stage.shown else []
  }

  lemma LogIsVisible(log: seq<Pop>, k: nat, turns: seq<Observe.Turn>, current: seq<SimToServer>)
    requires LogOk(log, k, turns, current)
    ensures Visibly(log, k, turns) == Observe.Accumulated(turns) && OwnPops(log, k, |turns|) == current
  {
    AccumulatedIsVisible(log, k, turns);
  }

  lemma CurrentIsShown(stage: Stage)
    requires stage.Popping? ==> stage.shown == Observe.Shown(stage.mask, stage.popped)
    ensures Pending(stage) + (if stage.Popping? then stage.shown else [])
         == if CurrentMask(stage).Some? then Observe.Shown(CurrentMask(stage).value, Current(stage)) else []
  {
  }

  lemma Joined(before: seq<SimToServer>, pending: seq<SimToServer>, rest: seq<SimToServer>)
    ensures before + pending + rest == before + (pending + rest)
  {
  }

  lemma GatheredIsVisible(log: seq<Pop>, k: nat, o: Observer)
    requires EventsOk(log, k, o)
    ensures Gathered(o) == AllVisible(log, k, o)
  {
    LogIsVisible(log, k, o.turns, Current(o.stage));
    CurrentIsShown(o.stage);
    Joined(Observe.Accumulated(o.turns), Pending(o.stage), if o.stage.Popping? then o.stage.shown else []);
  }

  lemma {:induction false} PopIsOwn(log: seq<Pop>, i: nat)
    requires i < |log|
    ensures log[i].msg in OwnPops(log, log[i].o, log[i].turn)
  {
    if i == |log| - 1 {
    } else {
      PopIsOwn(log[..|log| - 1], i);
    }
  }

  /**
   The fate of every popped message. Each belongs to a drain of its observer; hidden by the mask of that drain it is
   dropped, and the visible ones are, all of them and in order: reported, if the observer has reported; in its hands,
   if it is still at work; lost, if its instance was gone when it looked again.
   */
  lemma FateOfPops(moves: seq<Move>, i: nat)
    requires i < |History(FRESH, moves).log|
    ensures var w := History(FRESH, moves);
            var k, turn := w.log[i].o, w.log[i].turn;
            && k in w.observers && turn <= |w.observers[k].turns|
            && w.log[i].msg in OwnPops(w.log, k, turn)
            && var o := w.observers[k];
               match o.stage
               case Reported(Observed(events, _)) => turn < |o.turns| && events == AllVisible(w.log, k, o)
               case Reported(Gone) => turn < |o.turns| && o.events == AllVisible(w.log, k, o)
               case _ => Gathered(o) == AllVisible(w.log, k, o)
  {
    EventsHistory(FRESH, moves);
    var w := History(FRESH, moves);
    var k := w.log[i].o;
    PopIsOwn(w.log, i);
    GatheredIsVisible(w.log, k, w.observers[k]);
    assert OwnPops(w.log, k, |w.observers[k].turns|) == Current(w.observers[k].stage);
  }

  // Verdicts and time

  /** When the observer can next read the clock for a turn, and that it has not given up before. */
  ghost predicate LoopOk(now: nat, o: Observer) {
    var deadline := o.start + Timeout(o);
    match o.stage
    case Reported(result) =>
      o.turns != [] && Observe.Reports(result, Conditions(o), o.turns, deadline)
      && Observe.POLL_MS * (|o.turns| - 1) < Timeout(o) + Observe.POLL_MS
    case _ =>
      && Observe.GoesOn(Conditions(o), o.turns, deadline)
      && (o.stage.Flooring? ==> o.turns == [])
      && Observe.POLL_MS * |o.turns| < Timeout(o) + Observe.POLL_MS
      && (o.turns != [] || o.stage.Looking? || o.stage.Judging? ==>
            (if o.stage.Sleeping? then o.stage.wake else now) >= o.start + Observe.POLL_MS * |o.turns|)
      && (o.stage.Sleeping? ==> o.turns != [])
  }

  /** The observer ends its turn exactly if the loop ends there. */
  lemma JudgedEnds(now: nat, o: Observer)
    requires o.stage.Judging? && o.events == Observe.Accumulated(o.turns) + Pending(o.stage)
    requires Observe.GoesOn(Conditions(o), o.turns, o.start + Timeout(o))
    ensures var turns, deadline := Judged(o, now).turns, o.start + Timeout(o);
            && turns == o.turns + [TurnOf(o, now)]
            && (Judged(o, now).stage.Reported? || Judged(o, now).stage == Sleeping(now + Observe.POLL_MS))
            && (Judged(o, now).stage.Reported? ==> Observe.Reports(Judged(o, now).stage.result, Conditions(o), turns,
              deadline))
            && (Judged(o, now).stage.Sleeping? ==> Observe.GoesOn(Conditions(o), turns, deadline) && now < deadline)
  {
    var turn := TurnOf(o, now);
    Observe.AccumulatedNext(o.turns, turn);
    assert o.events == Observe.Accumulated(o.turns + [turn]);
    Observe.VerdictIsRight(Conditions(o), o.turns, turn, o.start + Timeout(o));
  }

  lemma JudgedLoop(now: nat, o: Observer)
    requires LoopOk(now, o) && o.stage.Judging? && o.events == Observe.Accumulated(o.turns) + Pending(o.stage)
    ensures LoopOk(now, Judged(o, now))
  {
    JudgedEnds(now, o);
    var o' := Judged(o, now);
    assert o'.start == o.start && Conditions(o') == Conditions(o) && Timeout(o') == Timeout(o);
  }

  lemma FlooredLoop(s: State, now: nat, o: Observer)
    requires LoopOk(now, o) && o.stage.Flooring?
    ensures LoopOk(now, Looked(s, now, o))
  {
  }

  /** Sections that take no turn and read no clock. */
  lemma StageLoop(now: nat, o: Observer, o': Observer)
    requires LoopOk(now, o) && !o.stage.Reported? && (o.stage.Sleeping? ==> now >= o.stage.wake)
    requires o' == o.(stage := o'.stage, events := o'.events) && !o'.stage.Reported? && !o'.stage.Sleeping?
    requires o'.stage.Flooring? ==> o.turns == []
    requires o'.stage.Looking? || o'.stage.Judging? ==> o.turns != [] || o.stage.Looking?
    ensures LoopOk(now, o')
  {
    assert Conditions(o') == Conditions(o) && Timeout(o') == Timeout(o);
  }

  lemma ResolvedLoop(s: State, now: nat, o: Observer)
    requires LoopOk(now, o) && o.stage.Resolving?
    ensures LoopOk(now, Looked(s, now, o))
  {
    if o.id in s.sh.inner {
      StageLoop(now, o, Looked(s, now, o));
    } else {
      Observe.GoneHere(Conditions(o), o.turns, Observe.Turn(None, None, now), o.start + Timeout(o));
    }
  }

  lemma LookedLoop(s: State, now: nat, o: Observer)
    requires LoopOk(now, o) && o.events == Observe.Accumulated(o.turns) + Pending(o.stage)
    ensures LoopOk(now, Looked(s, now, o))
  {
    match o.stage
    case Judging(_, _) => JudgedLoop(now, o);
    case Flooring(_) => FlooredLoop(s, now, o);
    case Resolving => ResolvedLoop(s, now, o);
    case Sleeping(wake) =>
      if now >= wake {
        StageLoop(now, o, Looked(s, now, o));
      }
    case Reported(_) =>
    case _ => StageLoop(now, o, Looked(s, now, o));
  }

  ghost predicate LoopsOk(w: World) {
    forall k :: k in w.observers ==> LoopOk(w.now, w.observers[k])
  }

  lemma LaterLoop(now: nat, later: nat, o: Observer)
    requires LoopOk(now, o) && now <= later
    ensures LoopOk(later, o)
  {
  }

  lemma OpenedLoop(now: nat, id: string, until: Observe.Until, waitMs: Option<nat>, defaultMs: nat)
    ensures LoopOk(now, Observer(id, until, waitMs, defaultMs, Resolving, None, 0, [], []))
  {
  }

  lemma TookLoop(now: nat, o: Observer, msg: SimToServer)
    requires LoopOk(now, o) && o.stage.Popping?
    ensures LoopOk(now, Took(o, msg))
  {
  }

  lemma GoLoop(w: World, k: nat)
    requires ObserversOk(w) && LoopsOk(w) && k in w.observers && !CanPop(w.s, w.observers[k])
    ensures LoopOk(w.now, Looked(w.s, w.now, w.observers[k]))
  {
    assert EventsOk(w.log, k, w.observers[k]);
    LookedLoop(w.s, w.now, w.observers[k]);
  }

  lemma OthersLeaveObservers(w: World, m: Move)
    requires m.Other?
    ensures Next(w, m).observers == w.observers && Next(w, m).now == w.now && Next(w, m).log == w.log
  {
  }

  lemma LoopNext(w: World, m: Move, k: nat)
    requires ObserversOk(w) && LoopsOk(w) && k in Next(w, m).observers
    ensures LoopOk(Next(w, m).now, Next(w, m).observers[k])
  {
    match m
    case Tick(elapsed) => LaterLoop(w.now, w.now + elapsed, w.observers[k]);
    case Open(id, until, waitMs, defaultMs) =>
      if k == w.next {
        OpenedLoop(w.now, id, until, waitMs, defaultMs);
      }
    case Go(j) =>
      if k == j && CanPop(w.s, w.observers[k]) {
        TookLoop(w.now, w.observers[k], w.s.sh.inner[w.observers[k].id].inbound[0]);
      } else if k == j {
        GoLoop(w, k);
      }
    case Other(_) => OthersLeaveObservers(w, m);
  }

  lemma LoopsNext(w: World, m: Move)
    requires ObserversOk(w) && LoopsOk(w)
    ensures LoopsOk(Next(w, m))
  {
    forall k | k in Next(w, m).observers
      ensures LoopOk(Next(w, m).now, Next(w, m).observers[k])
    {
      LoopNext(w, m, k);
    }
  }

  lemma {:induction false} LoopsHistory(w: World, moves: seq<Move>)
    requires ObserversOk(w) && LoopsOk(w)
    ensures LoopsOk(History(w, moves))
    decreases |moves|
  {
    if moves == [] {
    } else {
      LoopsNext(w, moves[0]);
      EventsNext(w, moves[0]);
      LoopsHistory(Next(w, moves[0]), moves[1..]);
    }
  }

  /**
   Over every history an observer reports what the loop run alone must report on the same turns: it stops at the
   first turn that can end it, and gives a verdict, match or timeout, exactly if a condition was set.
   */
  lemma ReportIsRight(moves: seq<Move>, k: nat)
    requires var w := History(FRESH, moves); k in w.observers && w.observers[k].stage.Reported?
    ensures var o := History(FRESH, moves).observers[k];
            && o.turns != []
            && Observe.Reports(o.stage.result, Conditions(o), o.turns, o.start + Timeout(o))
            && Observe.POLL_MS * (|o.turns| - 1) < Timeout(o) + Observe.POLL_MS
  {
    LoopsHistory(FRESH, moves);
    assert LoopOk(History(FRESH, moves).now, History(FRESH, moves).observers[k]);
  }

  /** How long an observer waits, in the terms of what it was asked. */
  function Asked(o: Observer): nat {
    Observe.Asked(o.until, o.waitMs, o.defaultMs)
  }

  lemma RightAnswers(now: nat, o: Observer)
    requires LoopOk(now, o) && o.stage.Reported?
    ensures o.turns != []
    ensures Observe.AnswersRightly(o.stage.result, o.until, o.first, o.turns, o.start + Asked(o))
    ensures 25 * (|o.turns| - 1) < Asked(o) + 25
  {
    Observe.PatienceIsAsked(o.until, o.first, o.waitMs, o.defaultMs);
    Observe.ReportsAnswer(o.stage.result, o.until, o.first, o.turns, o.start + Asked(o));
  }

  /**
   Over every history: an observer's answer is the right one for the conditions it was asked, the events it drained, the
   heartbeat it read last and the one it read first.
   */
  lemma ReportAnswers(moves: seq<Move>, k: nat)
    requires var w := History(FRESH, moves); k in w.observers && w.observers[k].stage.Reported?
    ensures var o := History(FRESH, moves).observers[k];
            && o.turns != []
            && Observe.AnswersRightly(o.stage.result, o.until, o.first, o.turns, o.start + Asked(o))
            && 25 * (|o.turns| - 1) < Asked(o) + 25
  {
    LoopsHistory(FRESH, moves);
    RightAnswers(History(FRESH, moves).now, History(FRESH, moves).observers[k]);
  }

  /** A wait that timed out could not have matched earlier: no initial part of its events matches either. */
  lemma TimeoutMissedNothing(moves: seq<Move>, k: nat, n: nat)
    requires var w := History(FRESH, moves); k in w.observers && w.observers[k].stage.Reported?
    requires var o := History(FRESH, moves).observers[k];
             o.stage.result.Observed? && o.stage.result.verdict == Some(Observe.Verdict(false, true))
               && n <= |o.stage.result.events|
    ensures var o := History(FRESH, moves).observers[k];
            o.turns != [] &&
            !Observe.UntilMatched(Conditions(o), o.stage.result.events[..n],
              Observe.UiOf(o.turns[|o.turns| - 1].heartbeat))
  {
    ReportIsRight(moves, k);
    var o := History(FRESH, moves).observers[k];
    var events, ui := o.stage.result.events, Observe.UiOf(o.turns[|o.turns| - 1].heartbeat);
    assert events == events[..n] + events[n..];
    if Observe.UntilMatched(Conditions(o), events[..n], ui) {
      Observe.MatchesPersist(Conditions(o), events[..n], events[n..], ui);
    }
  }

  /** An observer that does not report sleeps 25 milliseconds, and not less. */
  lemma SleepsTwentyFive(s: State, now: nat, later: nat, o: Observer)
    requires o.stage.Judging? && !Looked(s, now, o).stage.Reported?
    ensures var asleep := Looked(s, now, o); Looked(s, later, asleep).stage.Resolving? <==> later >= now + 25
  {
  }

  // What was read was there

  lemma {:induction false} HistoryThen(w: World, moves: seq<Move>, m: Move)
    ensures History(w, moves + [m]) == Next(History(w, moves), m)
    decreases |moves|
  {
    if moves == [] {
      assert ([m])[1..] == [];
    } else {
      assert (moves + [m])[1..] == moves[1..] + [m];
      HistoryThen(Next(w, moves[0]), moves[1..], m);
    }
  }

  /** The masks and heartbeats an observer has read. */
  function MasksOf(o: Observer): set<seq<string>> {
    (set i | 0 <= i < |o.turns| && o.turns[i].drain.Some? :: o.turns[i].drain.value.mask)
    + match o.stage
      case Popping(mask, _, _) => {mask}
      case Flooring(drain) => {drain.mask}
      case Looking(drain) => {drain.mask}
      case Judging(drain, _) => {drain.mask}
      case _ => {}
  }

  function HeartbeatsOf(o: Observer): set<Option<Heartbeat>> {
    (set i | 0 <= i < |o.turns| && o.turns[i].drain.Some? :: o.turns[i].heartbeat)
    + (if o.stage.Judging? then {o.stage.heartbeat} else {})
    + if (o.turns != [] && o.turns[0].drain.Some?) || o.stage.Looking? || o.stage.Judging? then {o.first} else {}
  }

  /** An observer at work has drained in its first turn. */
  predicate HasDrained(o: Observer) {
    o.turns != [] && !o.stage.Reported? ==> o.turns[0].drain.Some?
  }

  lemma LookedReads(s: State, now: nat, o: Observer)
    requires HasDrained(o)
    ensures MasksOf(Looked(s, now, o)) <= MasksOf(o) + {MaskOf(s, o.id)}
    ensures HeartbeatsOf(Looked(s, now, o)) <= HeartbeatsOf(o) + {HeartbeatOf(s, o.id)}
  {
    if o.stage.Judging? {
      assert Judged(o, now).turns == o.turns + [TurnOf(o, now)];
    }
  }

  lemma ReadsNext(w: World, m: Move, k: nat)
    requires k in w.observers && k in Next(w, m).observers && k < w.next && HasDrained(w.observers[k])
    ensures Next(w, m).observers[k].id == w.observers[k].id
    ensures MasksOf(Next(w, m).observers[k]) <= MasksOf(w.observers[k]) + {MaskOf(w.s, w.observers[k].id)}
    ensures HeartbeatsOf(Next(w, m).observers[k]) <= HeartbeatsOf(w.observers[k])
         + {HeartbeatOf(w.s, w.observers[k].id)}
  {
    if m == Go(k) && !CanPop(w.s, w.observers[k]) {
      LookedReads(w.s, w.now, w.observers[k]);
    } else if m == Go(k) {
      assert MasksOf(Took(w.observers[k], w.s.sh.inner[w.observers[k].id].inbound[0])) == MasksOf(w.observers[k]);
    } else {
      assert Next(w, m).observers[k] == w.observers[k];
    }
  }

  /** At some point of the history the instance had this mask. */
  ghost predicate MaskWas(moves: seq<Move>, id: string, mask: seq<string>) {
    exists i :: 0 <= i <= |moves| && mask == MaskOf(History(FRESH, moves[..i]).s, id)
  }

  /** At some point of the history the instance showed this heartbeat. */
  ghost predicate HeartbeatWas(moves: seq<Move>, id: string, heartbeat: Option<Heartbeat>) {
    exists i :: 0 <= i <= |moves| && heartbeat == HeartbeatOf(History(FRESH, moves[..i]).s, id)
  }

  lemma WasBefore(moves: seq<Move>, m: Move, id: string, mask: seq<string>, heartbeat: Option<Heartbeat>)
    ensures MaskWas(moves, id, mask) || mask == MaskOf(History(FRESH, moves).s, id) ==> MaskWas(moves + [m], id, mask)
    ensures HeartbeatWas(moves, id, heartbeat) || heartbeat == HeartbeatOf(History(FRESH, moves).s, id) ==>
              HeartbeatWas(moves + [m], id, heartbeat)
  {
    var all := moves + [m];
    assert all[..|moves|] == moves;
    if MaskWas(moves, id, mask) {
      var i :| 0 <= i <= |moves| && mask == MaskOf(History(FRESH, moves[..i]).s, id);
      assert all[..i] == moves[..i];
    }
    if HeartbeatWas(moves, id, heartbeat) {
      var i :| 0 <= i <= |moves| && heartbeat == HeartbeatOf(History(FRESH, moves[..i]).s, id);
      assert all[..i] == moves[..i];
    }
  }

  ghost predicate ReadsWere(moves: seq<Move>, o: Observer) {
    && (forall mask :: mask in MasksOf(o) ==> MaskWas(moves, o.id, mask))
    && (forall heartbeat :: heartbeat in HeartbeatsOf(o) ==> HeartbeatWas(moves, o.id, heartbeat))
  }

  lemma ReadsThen(moves: seq<Move>, m: Move, o: Observer, o': Observer)
    requires ReadsWere(moves, o) && o'.id == o.id
    requires MasksOf(o') <= MasksOf(o) + {MaskOf(History(FRESH, moves).s, o.id)}
    requires HeartbeatsOf(o') <= HeartbeatsOf(o) + {HeartbeatOf(History(FRESH, moves).s, o.id)}
    ensures ReadsWere(moves + [m], o')
  {
    forall mask | mask in MasksOf(o')
      ensures MaskWas(moves + [m], o.id, mask)
    {
      WasBefore(moves, m, o.id, mask, None);
    }
    forall heartbeat | heartbeat in HeartbeatsOf(o')
      ensures HeartbeatWas(moves + [m], o.id, heartbeat)
    {
      WasBefore(moves, m, o.id, [], heartbeat);
    }
  }

  lemma OpensUnread(w: World, m: Move, k: nat)
    requires k !in w.observers && k in Next(w, m).observers
    ensures MasksOf(Next(w, m).observers[k]) == {} && HeartbeatsOf(Next(w, m).observers[k]) == {}
  {
  }

  lemma ReadsSnoc(moves: seq<Move>, m: Move, k: nat)
    requires k in History(FRESH, moves + [m]).observers
    requires k in History(FRESH, moves).observers ==> ReadsWere(moves, History(FRESH, moves).observers[k])
    ensures ReadsWere(moves + [m], History(FRESH, moves + [m]).observers[k])
  {
    var w := History(FRESH, moves);
    HistoryThen(FRESH, moves, m);
    EventsHistory(FRESH, moves);
    LoopsHistory(FRESH, moves);
    if k in w.observers {
      assert LoopOk(w.now, w.observers[k]);
      ReadsNext(w, m, k);
      ReadsThen(moves, m, w.observers[k], Next(w, m).observers[k]);
    } else {
      OpensUnread(w, m, k);
    }
  }

  /** Every mask and every heartbeat an observer has read was the instance's at some point of the history. */
  lemma {:induction false} ReadsWereThere(moves: seq<Move>, k: nat)
    requires k in History(FRESH, moves).observers
    ensures ReadsWere(moves, History(FRESH, moves).observers[k])
    decreases |moves|
  {
    if moves == [] {
    } else {
      var before, m := moves[..|moves| - 1], moves[|moves| - 1];
      assert before + [m] == moves;
      if k in History(FRESH, before).observers {
        ReadsWereThere(before, k);
      }
      ReadsSnoc(before, m, k);
    }
  }

  /** The broker under observers is the broker: its state is one the transition system reaches. */
  lemma {:induction false} StateIsReachable(moves: seq<Move>) returns (run: seq<Action>)
    ensures History(FRESH, moves).s == Run(START, run)
    decreases |moves|
  {
    if moves == [] {
      run := [];
    } else {
      var before, m := moves[..|moves| - 1], moves[|moves| - 1];
      assert before + [m] == moves;
      HistoryThen(FRESH, before, m);
      var w := History(FRESH, before);
      run := StateIsReachable(before);
      if m.Other? && !m.action.Drain? {
        RunThen(START, run, m.action);
        run := run + [m.action];
      } else if m.Go? && m.o in w.observers && CanPop(w.s, w.observers[m.o]) {
        RunThen(START, run, Drain(w.observers[m.o].id));
        run := run + [Drain(w.observers[m.o].id)];
      }
    }
  }

  // A wait can lose what it popped

  const CHATTER := SimToServer(1, 0, Log("", ""))

  const PATIENT := Observe.Until(None, Some(5), None, None)

  lemma Extend(moves: seq<Move>, m: Move, w: World) returns (moves': seq<Move>, w': World)
    requires w == History(FRESH, moves)
    ensures moves' == moves + [m] && w' == History(FRESH, moves') && w' == Next(w, m)
  {
    moves', w' := moves + [m], Next(w, m);
    HistoryThen(FRESH, moves, m);
  }

  lemma SessionIsThere() returns (moves: seq<Move>, w: World)
    ensures w == History(FRESH, moves)
    ensures w.s.sh.inner == map["a" := NewInstance(1, 1, 1)] && w.s.sh.waiters == map[]
    ensures w.s.readers == map[1 := Reader("a", Waiting, [], {}, 0, false)]
    ensures w.now == 0 && w.next == 0 && w.observers == map[] && w.log == []
  {
    moves, w := Extend([], Other(Connect("a", 1, 1)), FRESH);
    moves, w := Extend(moves, Other(Advance(1)), w);
  }

  lemma SessionSpeaks() returns (moves: seq<Move>, w: World)
    ensures w == History(FRESH, moves)
    ensures w.s.sh.inner.Keys == {"a"} && w.s.sh.inner["a"].token == 1 && w.s.sh.inner["a"].readMask == []
    ensures w.s.sh.inner["a"].excluded == [] && w.s.sh.inner["a"].lastHeartbeat == None
    ensures w.s.sh.inner["a"].inbound == [] && w.s.sh.inner["a"].inboundCap == 1
    ensures w.s.sh.waiters == map[] && 1 in w.s.readers && w.s.readers[1].id == "a"
    ensures w.s.readers[1].pc == Pushing(CHATTER)
    ensures w.now == 0 && w.next == 0 && w.observers == map[] && w.log == []
  {
    moves, w := SessionIsThere();
    moves, w := Extend(moves, Other(Arrive(1, Envelope(CHATTER))), w);
    moves, w := Extend(moves, Other(Advance(1)), w);
    moves, w := Extend(moves, Other(Advance(1)), w);
  }

  lemma MessageIsQueued() returns (moves: seq<Move>, w: World)
    ensures w == History(FRESH, moves)
    ensures w.s.sh.inner.Keys == {"a"} && w.s.sh.inner["a"].token == 1 && w.s.sh.inner["a"].readMask == []
    ensures w.s.sh.inner["a"].lastHeartbeat == None && w.s.sh.inner["a"].inbound == [CHATTER]
    ensures 1 in w.s.readers && w.s.readers[1].id == "a" && w.s.readers[1].pc == Waiting
    ensures w.now == 0 && w.log == []
    ensures w.observers == map[0 := Observer("a", PATIENT, None, 25, Resolving, None, 0, [], [])]
  {
    moves, w := SessionSpeaks();
    moves, w := Extend(moves, Other(Advance(1)), w);
    moves, w := Extend(moves, Open("a", PATIENT, None, 25), w);
  }

  lemma DrainBegins() returns (moves: seq<Move>, w: World)
    ensures w == History(FRESH, moves)
    ensures w.s.sh.inner.Keys == {"a"} && w.s.sh.inner["a"].token == 1
    ensures w.s.sh.inner["a"].lastHeartbeat == None && w.s.sh.inner["a"].inbound == [CHATTER]
    ensures 1 in w.s.readers && w.s.readers[1].id == "a" && w.s.readers[1].pc == Waiting
    ensures w.now == 0 && w.log == []
    ensures w.observers == map[0 := Observer("a", PATIENT, None, 25, Popping([], [], []), None, 0, [], [])]
  {
    moves, w := MessageIsQueued();
    moves, w := Extend(moves, Go(0), w);
    moves, w := Extend(moves, Go(0), w);
  }

  lemma MessageIsPopped() returns (moves: seq<Move>, w: World)
    ensures w == History(FRESH, moves)
    ensures Owns(w.s.sh, "a", 1) && w.s.sh.inner["a"].lastHeartbeat == None && w.s.sh.inner.Keys == {"a"}
    ensures 1 in w.s.readers && w.s.readers[1].id == "a" && w.s.readers[1].pc == Waiting
    ensures w.now == 0 && w.log == [Pop(0, 0, 1, CHATTER)]
    ensures 0 in w.observers && w.observers[0].id == "a" && w.observers[0].until == PATIENT
    ensures w.observers[0].waitMs == None && w.observers[0].defaultMs == 25 && w.observers[0].turns == []
    ensures w.observers[0].stage == Flooring(Observe.Drain([], [CHATTER])) && w.observers[0].events == [CHATTER]
  {
    moves, w := DrainBegins();
    moves, w := Extend(moves, Go(0), w);
    moves, w := Extend(moves, Go(0), w);
  }

  lemma WaitSleeps() returns (moves: seq<Move>, w: World)
    ensures w == History(FRESH, moves)
    ensures Owns(w.s.sh, "a", 1) && w.s.sh.inner.Keys == {"a"}
    ensures 1 in w.s.readers && w.s.readers[1].id == "a" && w.s.readers[1].pc == Waiting
    ensures w.now == 0 && w.log == [Pop(0, 0, 1, CHATTER)]
    ensures 0 in w.observers && w.observers[0].id == "a" && w.observers[0].stage == Sleeping(25)
    ensures w.observers[0].events == [CHATTER]
  {
    moves, w := MessageIsPopped();
    moves, w := Extend(moves, Go(0), w);
    moves, w := Extend(moves, Go(0), w);
    assert !Observe.UntilMatched(PATIENT, [CHATTER], Observe.UiOf(None));
    assert Conditions(w.observers[0]) == PATIENT && Timeout(w.observers[0]) == 25;
    moves, w := Extend(moves, Go(0), w);
  }

  /**
   A wait whose instance disconnects while it sleeps returns an error, and what it had popped is reported to
   nobody.
   */
  lemma GoneWaitLosesMessage() returns (moves: seq<Move>)
    ensures var w := History(FRESH, moves);
            && w.log == [Pop(0, 0, 1, CHATTER)]
            && 0 in w.observers && w.observers[0].stage == Reported(Observe.Gone) && w.observers[0].events == [CHATTER]
            && "a" !in w.s.sh.inner
  {
    var w;
    moves, w := WaitSleeps();
    moves, w := Extend(moves, Other(End(1)), w);
    moves, w := Extend(moves, Other(Advance(1)), w);
    moves, w := Extend(moves, Tick(25), w);
    moves, w := Extend(moves, Go(0), w);
    moves, w := Extend(moves, Go(0), w);
  }
}
