/** What a single step can and cannot change: one call, one session's stream, one entry of the instance map. */
module Footprints {
  import opened Messages
  import opened InboundQueues
  import opened Broker
  import opened Protocol
  import opened WaiterTable
  import opened ExactlyOnce
  import opened Ownership

  // Calls

  predicate SameRequest(call: Call, call': Call) {
    call' == call.(phase := call'.phase)
  }

  predicate SendError(e: WaitError) {
    e.NotConnected? || e.OutboundFull?
  }

  /** The call has handed its request over. */
  predicate Asked(phase: Phase) {
    match phase
    case Awaiting => true
    case TakingIndex(e) => !SendError(e)
    case TakingWaiter(e) => !SendError(e)
    case Done(outcome) => outcome.Failed? ==> !SendError(outcome.error)
    case _ => false
  }

  /** Calls never change what they ask, a request handed over stays so, and finished calls do not change at all. */
  predicate CallGoesOn(call: Call, call': Call) {
    && SameRequest(call, call')
    && (call.phase.Done? ==> call' == call)
    && (Asked(call.phase) ==> Asked(call'.phase) && (call'.phase.Awaiting? ==> call.phase.Awaiting?))
  }

  lemma ProceedGoesOn(s: State, c: nat)
    requires c in s.calls
    ensures c in Proceeded(s, c).calls && CallGoesOn(s.calls[c], Proceeded(s, c).calls[c])
    ensures forall d :: d in s.calls && d != c ==> d in Proceeded(s, c).calls && Proceeded(s, c).calls[d] == s.calls[d]
  {
    match s.calls[c].phase
    case Sending => assert Proceeded(s, c) == Dispatched(s, c);
    case Registering => assert Proceeded(s, c) == Registered(s, c);
    case TakingWaiter(_) => assert Proceeded(s, c) == Dropping(s, c);
    case _ =>
  }

  lemma CallStep(s: State, a: Action, c: nat)
    requires Consistent(s) && c in s.calls
    ensures c in Step(s, a).calls && CallGoesOn(s.calls[c], Step(s, a).calls[c])
  {
    if !MovesCall(s, a) {
      OthersLeaveCalls(s, a);
    } else if a.Begin? {
      NumberIsFresh(s);
    } else if a.Proceed? {
      ProceedGoesOn(s, a.corr);
    }
  }

  // Streams

  /** Step `a` hands the request of call `c` to session `t`. */
  predicate Hands(s: State, a: Action, t: nat, c: nat) {
    && a == Proceed(c) && c in s.calls && s.calls[c].phase.Sending?
    && SendResult(s.sh, s.calls[c].id).Sent? && s.sh.inner[s.calls[c].id].token == t
  }

  /** The numbers a session was sent grow by the request handed to it and by nothing else. */
  ghost predicate SentGrows(s: State, a: Action, t: nat) {
    && t in Step(s, a).readers
    && (t in s.readers ==>
          && Step(s, a).readers[t].id == s.readers[t].id
          && forall c :: c in Step(s, a).readers[t].sent <==> c in s.readers[t].sent || Hands(s, a, t, c))
    && (t !in s.readers ==> a.Connect? && Step(s, a).readers[t].sent == {} && Step(s, a).readers[t].pc.Inserting?)
  }

  lemma ReaderSteps(s: State, a: Action, t: nat)
    requires a.Advance? || a.Fail? || a.Arrive? || a.End?
    requires t in Step(s, a).readers
    ensures SentGrows(s, a, t) && t in s.readers
  {
    if a.Advance? && a.token in s.readers {
      AdvanceSends(s, a.token);
    }
  }

  lemma AdvanceSends(s: State, u: nat)
    requires u in s.readers
    ensures u in Advanced(s, u).readers
    ensures Advanced(s, u).readers == s.readers[u := Advanced(s, u).readers[u]]
    ensures Advanced(s, u).readers[u].id == s.readers[u].id && Advanced(s, u).readers[u].sent == s.readers[u].sent
    ensures !Advanced(s, u).readers[u].pc.Inserting?
  {
    match s.readers[u].pc
    case Inserting(_, _) => assert Advanced(s, u) == Inserted(s, u);
    case Waiting =>
    case Checking(_) => assert Advanced(s, u) == Checked(s, u);
    case Beating(_, _) => assert Advanced(s, u) == Recorded(s, u);
    case Matching(_) => assert Advanced(s, u) == Matched(s, u);
    case Unindexing(_) => assert Advanced(s, u) == Unindexed(s, u);
    case Replying(_) => assert Advanced(s, u) == Replied(s, u);
    case Pushing(_) => assert Advanced(s, u) == Delivering(s, u);
    case Leaving(_) => assert Advanced(s, u) == Removed(s, u);
    case Collecting(_) => assert Advanced(s, u) == Collected(s, u);
    case Failing(_, _) => assert Advanced(s, u) == Ended(s, u);
    case Taking(_, _, _) => assert Advanced(s, u) == Taken(s, u);
    case Finished =>
  }

  lemma SentStep(s: State, a: Action, t: nat)
    requires t in Step(s, a).readers && (t in s.readers ==> t < s.sh.nextToken)
    ensures SentGrows(s, a, t)
  {
    if a.Advance? || a.Fail? || a.Arrive? || a.End? {
      ReaderSteps(s, a, t);
    } else if a.Proceed? && a.corr in s.calls {
      if s.calls[a.corr].phase.Sending? {
        assert Step(s, a) == Dispatched(s, a.corr);
      }
    }
  }

  lemma StreamsRemain(s: State, a: Action, t: nat)
    requires t in s.readers
    ensures t in Step(s, a).readers
  {
    if a.Advance? && a.token in s.readers {
      AdvanceSends(s, a.token);
    }
  }

  // Entries of the instance map

  /** Reader `t` is about to enter the map under `id`. */
  predicate Enters(s: State, a: Action, t: nat, id: string) {
    a == Advance(t) && t in s.readers && s.readers[t].pc.Inserting? && s.readers[t].id == id
  }

  /** Reader `t` is about to push `msg` to whoever holds `id`. */
  predicate Delivers(s: State, a: Action, id: string) {
    a.Advance? && a.token in s.readers && s.readers[a.token].pc.Pushing? && s.readers[a.token].id == id
  }

  predicate SameView(x: Instance, y: Instance) {
    y.token == x.token && y.readMask == x.readMask && y.excluded == x.excluded
  }

  predicate SameQueue(x: Instance, y: Instance) {
    y.inbound == x.inbound && y.inboundCap == x.inboundCap
  }

  /** What a step that neither sets the view of `id` nor drains it does to the entry of `id`. */
  ghost predicate EntryGoesOn(s: State, a: Action, id: string) {
    var s' := Step(s, a);
    id in s'.sh.inner ==>
      || (exists t :: Enters(s, a, t, id) &&
            s'.sh.inner[id] == NewInstance(t, s.readers[t].pc.inboundCap, s.readers[t].pc.outboundCap))
      || (id in s.sh.inner && SameView(s.sh.inner[id], s'.sh.inner[id]) &&
          (if Delivers(s, a, id) then s'.sh.inner[id] == Received(s.sh.inner[id], s.readers[a.token].pc.msg)
           else SameQueue(s.sh.inner[id], s'.sh.inner[id])))
  }

  /** The reader sections that take the lock of the instance map for writing. */
  predicate EntersMap(pc: Pc) {
    pc.Inserting? || pc.Beating? || pc.Pushing? || pc.Leaving?
  }

  lemma AdvanceKeepsMap(s: State, u: nat)
    requires u in s.readers && !EntersMap(s.readers[u].pc)
    ensures Advanced(s, u).sh.inner == s.sh.inner
  {
    match s.readers[u].pc
    case Waiting =>
    case Checking(_) => assert Advanced(s, u) == Checked(s, u);
    case Matching(_) => assert Advanced(s, u) == Matched(s, u);
    case Unindexing(_) => assert Advanced(s, u) == Unindexed(s, u);
    case Replying(_) => assert Advanced(s, u) == Replied(s, u);
    case Collecting(_) => assert Advanced(s, u) == Collected(s, u);
    case Failing(_, _) => assert Advanced(s, u) == Ended(s, u);
    case Taking(_, _, _) => assert Advanced(s, u) == Taken(s, u);
    case Finished =>
  }

  lemma AdvanceEntry(s: State, u: nat, id: string)
    requires u in s.readers
    ensures EntryGoesOn(s, Advance(u), id)
  {
    assert Step(s, Advance(u)) == Advanced(s, u);
    match s.readers[u].pc
    case Inserting(_, _) =>
      assert Advanced(s, u) == Inserted(s, u);
      assert s.readers[u].id == id ==> Enters(s, Advance(u), u, id);
    case Beating(_, _) => assert Advanced(s, u) == Recorded(s, u);
    case Pushing(_) => assert Advanced(s, u) == Delivering(s, u);
    case Leaving(_) => assert Advanced(s, u) == Removed(s, u);
    case _ => AdvanceKeepsMap(s, u);
  }

  lemma ProceedEntry(s: State, c: nat, id: string)
    requires c in s.calls
    ensures EntryGoesOn(s, Proceed(c), id)
  {
    assert Step(s, Proceed(c)) == Proceeded(s, c);
    match s.calls[c].phase
    case Sending => assert Proceeded(s, c) == Dispatched(s, c);
    case Registering => assert Proceeded(s, c) == Registered(s, c);
    case TakingWaiter(_) => assert Proceeded(s, c) == Dropping(s, c);
    case _ =>
  }

  lemma EntryStep(s: State, a: Action, id: string)
    requires (a.SetMask? || a.SetExcluded? || a.Drain?) ==> a.id != id
    ensures EntryGoesOn(s, a, id)
  {
    match a
    case Advance(u) =>
      if u in s.readers {
        AdvanceEntry(s, u, id);
      }
    case Proceed(c) =>
      if c in s.calls {
        ProceedEntry(s, c, id);
      }
    case _ =>
  }

  // Sessions that have been in the map

  predicate Born(s: State, t: nat) {
    t in s.readers && !s.readers[t].pc.Inserting?
  }

  lemma NeverInsertsAgain(s: State, a: Action, t: nat)
    requires t in s.readers && t < s.sh.nextToken && t in Step(s, a).readers
    ensures Step(s, a).readers[t].pc.Inserting? ==> s.readers[t].pc.Inserting?
  {
    if a.Advance? && a.token in s.readers {
      AdvanceSends(s, a.token);
    } else if !Notable(s, a) {
      PlainStep(s, a);
    }
  }

  lemma BornStays(s: State, a: Action, t: nat)
    requires Registry(s) && Born(s, t)
    ensures Born(Step(s, a), t)
  {
    assert TokenOk(s, t);
    StreamsRemain(s, a, t);
    NeverInsertsAgain(s, a, t);
  }
}
