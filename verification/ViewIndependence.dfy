/**
 Waiting calls cannot tell which session view is set, how large the inbound queues are, or when they are drained.

 Two states are alike when they differ only in masks, excludes, inbound contents and bounds, and in the view a
 session-view command carries. Alike states stay alike in lock step, and view steps preserve likeness.
 */
module ViewIndependence {
  import opened Messages
  import opened Broker
  import opened Protocol

  predicate AlikeCommand(x: Command, y: Command) {
    x == y || (x.SetSessionView? && y.SetSessionView?)
  }

  predicate AlikeEnvelope(x: ServerToSim, y: ServerToSim) {
    x.corr == y.corr && x.ackRequested == y.ackRequested && AlikeCommand(x.command, y.command)
  }

  predicate AlikeOutbound(x: seq<ServerToSim>, y: seq<ServerToSim>) {
    |x| == |y| && forall i :: 0 <= i < |x| ==> AlikeEnvelope(x[i], y[i])
  }

  predicate AlikeInstance(x: Instance, y: Instance) {
    && x.token == y.token && x.lastHeartbeat == y.lastHeartbeat
    && AlikeOutbound(x.outbound, y.outbound)
    && x.outboundCap == y.outboundCap && x.outboundOpen == y.outboundOpen
  }

  predicate AlikePc(x: Pc, y: Pc) {
    x == y || (x.Inserting? && y.Inserting? && x.outboundCap == y.outboundCap)
  }

  predicate AlikeReader(x: Reader, y: Reader) {
    AlikePc(x.pc, y.pc) && x.(pc := y.pc) == y
  }

  predicate AlikeCall(x: Call, y: Call) {
    AlikeCommand(x.command, y.command) && x.(command := y.command) == y
  }

  ghost predicate AlikeShared(x: Shared, y: Shared) {
    && x.(inner := y.inner) == y
    && x.inner.Keys == y.inner.Keys
    && forall id :: id in x.inner ==> AlikeInstance(x.inner[id], y.inner[id])
  }

  ghost predicate Alike(x: State, y: State) {
    && AlikeShared(x.sh, y.sh)
    && x.cells == y.cells && x.matched == y.matched && x.latest == y.latest
    && x.calls.Keys == y.calls.Keys && (forall c :: c in x.calls ==> AlikeCall(x.calls[c], y.calls[c]))
    && x.readers.Keys == y.readers.Keys && (forall t :: t in x.readers ==> AlikeReader(x.readers[t], y.readers[t]))
  }

  predicate AlikeAction(a: Action, b: Action) {
    || a == b
    || (a.Connect? && b.Connect? && a.id == b.id && a.outboundCap == b.outboundCap)
    || (a.Begin? && b.Begin? && AlikeCommand(a.command, b.command) && a.(command := b.command) == b)
  }

  /** The steps of `set_session_view` that stay inside the host, and the drains of `observe`. */
  predicate ConcernsView(a: Action) {
    a.SetMask? || a.SetExcluded? || a.Drain?
  }

  /** Only one entry changes, and only in what a view governs. */
  ghost predicate ViewOnly(sh: Shared, sh': Shared) {
    && sh' == sh.(inner := sh'.inner) && sh'.inner.Keys == sh.inner.Keys
    && forall id :: id in sh.inner ==>
         sh'.inner[id] == sh.inner[id].(inbound := sh'.inner[id].inbound, readMask := sh'.inner[id].readMask,
           excluded := sh'.inner[id].excluded)
  }

  lemma MaskIsView(sh: Shared, id: string, names: seq<string>)
    ensures ViewOnly(sh, MaskSection(sh, id, names))
  {
  }

  lemma ExcludeIsView(sh: Shared, id: string, names: seq<string>)
    ensures ViewOnly(sh, ExcludeSection(sh, id, names))
  {
  }

  lemma PopIsView(sh: Shared, id: string)
    ensures ViewOnly(sh, PopSection(sh, id))
  {
  }

  lemma ViewStepIsView(s: State, a: Action)
    requires ConcernsView(a)
    ensures ViewOnly(s.sh, Step(s, a).sh) && Step(s, a) == s.(sh := Step(s, a).sh)
  {
    match a
    case SetMask(id, paths) => MaskIsView(s.sh, id, paths);
    case SetExcluded(id, components) => ExcludeIsView(s.sh, id, components);
    case Drain(id) => PopIsView(s.sh, id);
  }

  lemma ViewOnlyAlike(x: State, y: State, sh: Shared)
    requires Alike(x, y)
    ensures ViewOnly(x.sh, sh) ==> Alike(x.(sh := sh), y)
    ensures ViewOnly(y.sh, sh) ==> Alike(x, y.(sh := sh))
  {
  }

  lemma ViewStepAlike(x: State, y: State, a: Action)
    requires Alike(x, y) && ConcernsView(a)
    ensures Alike(Step(x, a), y) && Alike(x, Step(y, a))
  {
    ViewStepIsView(x, a);
    ViewStepIsView(y, a);
    ViewOnlyAlike(x, y, Step(x, a).sh);
    ViewOnlyAlike(x, y, Step(y, a).sh);
  }

  // One section of a session's task

  lemma InsertedAlike(x: State, y: State, t: nat)
    requires Alike(x, y) && t in x.readers && x.readers[t].pc.Inserting?
    ensures Alike(Inserted(x, t), Inserted(y, t))
  {
    assert AlikeReader(x.readers[t], y.readers[t]);
  }

  lemma CheckedAlike(x: State, y: State, t: nat)
    requires Alike(x, y) && t in x.readers && x.readers[t].pc.Checking?
    ensures Alike(Checked(x, t), Checked(y, t))
  {
    assert AlikeReader(x.readers[t], y.readers[t]);
  }

  lemma RecordedAlike(x: State, y: State, t: nat)
    requires Alike(x, y) && t in x.readers && x.readers[t].pc.Beating?
    ensures Alike(Recorded(x, t), Recorded(y, t))
  {
    assert AlikeReader(x.readers[t], y.readers[t]);
  }

  lemma MatchedAlike(x: State, y: State, t: nat)
    requires Alike(x, y) && t in x.readers && x.readers[t].pc.Matching?
    ensures Alike(Matched(x, t), Matched(y, t))
  {
    assert AlikeReader(x.readers[t], y.readers[t]);
  }

  lemma UnindexedAlike(x: State, y: State, t: nat)
    requires Alike(x, y) && t in x.readers && x.readers[t].pc.Unindexing?
    ensures Alike(Unindexed(x, t), Unindexed(y, t))
  {
    assert AlikeReader(x.readers[t], y.readers[t]);
  }

  lemma RepliedAlike(x: State, y: State, t: nat)
    requires Alike(x, y) && t in x.readers && x.readers[t].pc.Replying?
    ensures Alike(Replied(x, t), Replied(y, t))
  {
    assert AlikeReader(x.readers[t], y.readers[t]);
  }

  lemma DeliveringAlike(x: State, y: State, t: nat)
    requires Alike(x, y) && t in x.readers && x.readers[t].pc.Pushing?
    ensures Alike(Delivering(x, t), Delivering(y, t))
  {
    assert AlikeReader(x.readers[t], y.readers[t]);
  }

  lemma RemovedAlike(x: State, y: State, t: nat)
    requires Alike(x, y) && t in x.readers && x.readers[t].pc.Leaving?
    ensures Alike(Removed(x, t), Removed(y, t))
  {
    assert AlikeReader(x.readers[t], y.readers[t]);
  }

  lemma CollectedAlike(x: State, y: State, t: nat)
    requires Alike(x, y) && t in x.readers && x.readers[t].pc.Collecting?
    ensures Alike(Collected(x, t), Collected(y, t))
  {
    assert AlikeReader(x.readers[t], y.readers[t]);
    assert CorrsOf(x.sh, x.readers[t].id) == CorrsOf(y.sh, x.readers[t].id);
  }

  lemma EndedAlike(x: State, y: State, t: nat)
    requires Alike(x, y) && t in x.readers && x.readers[t].pc.Failing?
    ensures Alike(Ended(x, t), Ended(y, t))
  {
    assert AlikeReader(x.readers[t], y.readers[t]);
  }

  lemma PickedAlike(x: State, y: State, t: nat, c: nat)
    requires Alike(x, y) && t in x.readers && x.readers[t].pc.Failing? && c in x.readers[t].pc.corrs
    ensures Alike(Picked(x, t, c), Picked(y, t, c))
  {
    assert AlikeReader(x.readers[t], y.readers[t]);
  }

  lemma TakenAlike(x: State, y: State, t: nat)
    requires Alike(x, y) && t in x.readers && x.readers[t].pc.Taking?
    ensures Alike(Taken(x, t), Taken(y, t))
  {
    assert AlikeReader(x.readers[t], y.readers[t]);
  }

  lemma AdvancedAlike(x: State, y: State, t: nat)
    requires Alike(x, y) && t in x.readers
    ensures Alike(Advanced(x, t), Advanced(y, t))
  {
    assert AlikeReader(x.readers[t], y.readers[t]);
    match x.readers[t].pc
    case Inserting(_, _) => InsertedAlike(x, y, t);
    case Waiting =>
    case Checking(_) => CheckedAlike(x, y, t);
    case Beating(_, _) => RecordedAlike(x, y, t);
    case Matching(_) => MatchedAlike(x, y, t);
    case Unindexing(_) => UnindexedAlike(x, y, t);
    case Replying(_) => RepliedAlike(x, y, t);
    case Pushing(_) => DeliveringAlike(x, y, t);
    case Leaving(_) => RemovedAlike(x, y, t);
    case Collecting(_) => CollectedAlike(x, y, t);
    case Failing(_, _) => EndedAlike(x, y, t);
    case Taking(_, _, _) => TakenAlike(x, y, t);
    case Finished =>
  }

  // One section of a call

  lemma SendAlike(x: Shared, y: Shared, id: string, m: ServerToSim, n: ServerToSim)
    requires AlikeShared(x, y) && AlikeEnvelope(m, n)
    ensures SendResult(x, id) == SendResult(y, id)
    ensures AlikeShared(SendSection(x, id, m), SendSection(y, id, n))
  {
    assert id in x.inner ==> AlikeInstance(x.inner[id], y.inner[id]);
  }

  lemma HandedAlike(x: State, y: State, t: nat, c: nat)
    requires Alike(x, y)
    ensures var r, r' := Handed(x, t, c), Handed(y, t, c);
            r.Keys == r'.Keys && forall u :: u in r ==> AlikeReader(r[u], r'[u])
  {
    assert t in x.readers ==> AlikeReader(x.readers[t], y.readers[t]);
  }

  lemma DispatchedAlike(x: State, y: State, c: nat)
    requires Alike(x, y) && c in x.calls && x.calls[c].phase.Sending?
    ensures Alike(Dispatched(x, c), Dispatched(y, c))
  {
    assert AlikeCall(x.calls[c], y.calls[c]);
    var id := x.calls[c].id;
    SendAlike(x.sh, y.sh, id, EnvelopeOf(c, x.calls[c]), EnvelopeOf(c, y.calls[c]));
    if id in x.sh.inner {
      assert AlikeInstance(x.sh.inner[id], y.sh.inner[id]);
      HandedAlike(x, y, x.sh.inner[id].token, c);
    }
  }

  lemma RegisteredAlike(x: State, y: State, c: nat)
    requires Alike(x, y) && c in x.calls && x.calls[c].phase.Registering?
    ensures Alike(Registered(x, c), Registered(y, c))
  {
    assert AlikeCall(x.calls[c], y.calls[c]);
  }

  lemma DroppingAlike(x: State, y: State, c: nat)
    requires Alike(x, y) && c in x.calls && x.calls[c].phase.TakingWaiter?
    ensures Alike(Dropping(x, c), Dropping(y, c))
  {
    assert AlikeCall(x.calls[c], y.calls[c]);
  }

  lemma InAlike(x: State, y: State, c: nat, phase: Phase)
    requires Alike(x, y) && c in x.calls
    ensures Alike(In(x, c, phase), In(y, c, phase))
  {
    assert AlikeCall(x.calls[c], y.calls[c]);
  }

  lemma ProceededAlike(x: State, y: State, c: nat)
    requires Alike(x, y) && c in x.calls
    ensures Alike(Proceeded(x, c), Proceeded(y, c))
  {
    assert AlikeCall(x.calls[c], y.calls[c]);
    match x.calls[c].phase
    case Getting => InAlike(x, y, c, if x.calls[c].id in x.sh.inner then Registering else Done(Failed(NotConnected)));
    case Registering => RegisteredAlike(x, y, c);
    case Indexing => InAlike(x, y, c, Sending);
    case Sending => DispatchedAlike(x, y, c);
    case Awaiting =>
    case TakingIndex(e) => InAlike(x, y, c, TakingWaiter(e));
    case TakingWaiter(_) => DroppingAlike(x, y, c);
    case Done(_) =>
  }

  lemma TakeOutboundAlike(x: Shared, y: Shared, id: string)
    requires AlikeShared(x, y)
    ensures AlikeShared(TakeOutboundSection(x, id), TakeOutboundSection(y, id))
  {
    assert id in x.inner ==> AlikeInstance(x.inner[id], y.inner[id]);
  }

  lemma CloseOutboundAlike(x: Shared, y: Shared, id: string)
    requires AlikeShared(x, y)
    ensures AlikeShared(CloseOutboundSection(x, id), CloseOutboundSection(y, id))
  {
    assert id in x.inner ==> AlikeInstance(x.inner[id], y.inner[id]);
  }

  lemma ConnectedAlike(x: State, y: State, id: string, cap: nat, cap': nat, outboundCap: nat)
    requires Alike(x, y) && IsValidInstanceId(id)
    ensures Alike(Connected(x, id, cap, outboundCap), Connected(y, id, cap', outboundCap))
  {
  }

  lemma BegunAlike(x: State, y: State, id: string, waits: bool, kind: WaitKind, command: Command, command': Command)
    requires Alike(x, y) && AlikeCommand(command, command')
    ensures Alike(Begun(x, id, waits, kind, command), Begun(y, id, waits, kind, command'))
  {
  }

  lemma AtAlike(x: State, y: State, t: nat, pc: Pc)
    requires Alike(x, y) && t in x.readers
    ensures Alike(At(x, t, pc), At(y, t, pc))
  {
    assert AlikeReader(x.readers[t], y.readers[t]);
  }

  lemma StreamStepAlike(x: State, y: State, a: Action)
    requires Alike(x, y) && (a.Arrive? || a.End?) && a.token in x.readers
    ensures Alike(Step(x, a), Step(y, a))
  {
    assert AlikeReader(x.readers[a.token], y.readers[a.token]);
    AtAlike(x, y, a.token, if a.Arrive? then Checking(a.item) else Leaving(true));
  }

  lemma FailStepAlike(x: State, y: State, t: nat, c: nat)
    requires Alike(x, y) && t in x.readers
    ensures Alike(Step(x, Fail(t, c)), Step(y, Fail(t, c)))
  {
    assert AlikeReader(x.readers[t], y.readers[t]);
    if x.readers[t].pc.Failing? && c in x.readers[t].pc.corrs {
      PickedAlike(x, y, t, c);
    }
  }

  lemma SessionStepAlike(x: State, y: State, a: Action)
    requires Alike(x, y) && (a.Arrive? || a.End? || a.Advance? || a.Fail?)
    ensures Alike(Step(x, a), Step(y, a))
  {
    if a.token in x.readers {
      match a
      case Advance(t) => AdvancedAlike(x, y, t);
      case Fail(t, c) => FailStepAlike(x, y, t, c);
      case _ => StreamStepAlike(x, y, a);
    }
  }

  lemma PollAlike(x: State, y: State, c: nat)
    requires Alike(x, y) && c in x.calls
    ensures Alike(Step(x, Poll(c)), Step(y, Poll(c)))
  {
    assert AlikeCall(x.calls[c], y.calls[c]);
    assert PollResult(x, c) == PollResult(y, c);
    InAlike(x, y, c, PollResult(x, c));
  }

  lemma ExpireAlike(x: State, y: State, c: nat)
    requires Alike(x, y) && c in x.calls
    ensures Alike(Step(x, Expire(c)), Step(y, Expire(c)))
  {
    assert AlikeCall(x.calls[c], y.calls[c]);
    assert PollResult(x, c) == PollResult(y, c);
    InAlike(x, y, c, TakingIndex(TimedOut));
  }

  lemma CallStepAlike(x: State, y: State, a: Action)
    requires Alike(x, y) && (a.Proceed? || a.Poll? || a.Expire?)
    ensures Alike(Step(x, a), Step(y, a))
  {
    if a.corr in x.calls {
      match a
      case Proceed(c) => ProceededAlike(x, y, c);
      case Poll(c) => PollAlike(x, y, c);
      case Expire(c) => ExpireAlike(x, y, c);
    }
  }

  lemma StepAlike(x: State, y: State, a: Action, b: Action)
    requires Alike(x, y) && AlikeAction(a, b) && !ConcernsView(a)
    ensures Alike(Step(x, a), Step(y, b))
  {
    if a.Connect? {
      if IsValidInstanceId(a.id) {
        ConnectedAlike(x, y, a.id, a.inboundCap, b.inboundCap, a.outboundCap);
      }
    } else if a.Begin? {
      BegunAlike(x, y, a.id, a.waits, a.kind, a.command, b.command);
    } else if a.Proceed? || a.Poll? || a.Expire? {
      CallStepAlike(x, y, a);
    } else if a.Arrive? || a.End? || a.Advance? || a.Fail? {
      SessionStepAlike(x, y, a);
    } else {
      TakeOutboundAlike(x.sh, y.sh, a.id);
      CloseOutboundAlike(x.sh, y.sh, a.id);
    }
  }

  /** A run without its view steps. */
  function Essential(run: seq<Action>): seq<Action> {
    if run == [] then []
    else (if ConcernsView(run[0]) then [] else [run[0]]) + Essential(run[1..])
  }

  predicate AlikeRuns(p: seq<Action>, q: seq<Action>) {
    |p| == |q| && forall i :: 0 <= i < |p| ==> AlikeAction(p[i], q[i])
  }

  lemma {:induction false} RunsAlike(x: State, y: State, p: seq<Action>, q: seq<Action>)
    requires Alike(x, y) && AlikeRuns(Essential(p), Essential(q))
    ensures Alike(Run(x, p), Run(y, q))
    decreases |p| + |q|
  {
    if p == [] && q == [] {
    } else if p != [] && ConcernsView(p[0]) {
      ViewStepAlike(x, y, p[0]);
      assert Essential(p) == Essential(p[1..]);
      RunsAlike(Step(x, p[0]), y, p[1..], q);
    } else if q != [] && ConcernsView(q[0]) {
      ViewStepAlike(x, y, q[0]);
      assert Essential(q) == Essential(q[1..]);
      RunsAlike(x, Step(y, q[0]), p, q[1..]);
    } else if p != [] && q != [] {
      assert Essential(p)[0] == p[0] && Essential(q)[0] == q[0];
      assert Essential(p)[1..] == Essential(p[1..]) && Essential(q)[1..] == Essential(q[1..]);
      StepAlike(x, y, p[0], q[0]);
      RunsAlike(Step(x, p[0]), Step(y, q[0]), p[1..], q[1..]);
    }
  }

  /**
   Two runs that differ only in view steps, drains, inbound bounds and the contents of session-view commands
   have the same waiter tables, and every call in them is at the same point with the same outcome.
   */
  lemma OutcomesIgnoreView(p: seq<Action>, q: seq<Action>)
    requires AlikeRuns(Essential(p), Essential(q))
    ensures var x, y := Run(START, p), Run(START, q);
            && x.sh.waiters == y.sh.waiters && x.sh.waiterInstance == y.sh.waiterInstance && x.cells == y.cells
            && x.calls.Keys == y.calls.Keys
            && forall c :: c in x.calls ==> x.calls[c].phase == y.calls[c].phase && x.calls[c].id == y.calls[c].id
  {
    RunsAlike(START, START, p, q);
    var x, y := Run(START, p), Run(START, q);
    assert forall c :: c in x.calls ==> AlikeCall(x.calls[c], y.calls[c]);
  }
}
