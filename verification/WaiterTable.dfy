/** What every step keeps of the waiter tables, the one-shot channels and the tasks that touch them. */
module WaiterTable {
  import opened Messages
  import opened Broker
  import opened Protocol

  predicate BeforeRegistration(phase: Phase) {
    phase.Getting? || phase.Registering?
  }

  predicate MidWait(phase: Phase) {
    phase.Indexing? || phase.Sending? || phase.Awaiting? || phase.TakingIndex? || phase.TakingWaiter?
  }

  predicate Holding(pc: Pc) {
    pc.Unindexing? || pc.Replying?
  }

  ghost predicate CallOk(s: State, c: nat)
    requires c in s.calls
  {
    var call := s.calls[c];
    && 1 <= c < s.sh.nextCorr
    && (call.waits && MidWait(call.phase) ==> c in s.cells)
    && (!call.waits ==> call.phase.Sending? || call.phase.Done?)
  }

  /**
   A channel belongs to a waiting call that has registered. The waiter table holds exactly the channels that
   nobody has taken out yet; a channel taken out for a reply is in the hands of the reader that took it.
   */
  ghost predicate CellOk(s: State, c: nat)
    requires c in s.cells
  {
    var cell := s.cells[c];
    && c in s.calls && s.calls[c].waits && s.calls[c].kind == cell.kind && !BeforeRegistration(s.calls[c].phase)
    && (cell.place.InTable? <==> c in s.sh.waiters)
    && (c in s.sh.waiters ==> s.sh.waiters[c] == cell.kind)
    && (c in s.sh.waiterInstance ==> s.sh.waiterInstance[c] == s.calls[c].id && !s.calls[c].phase.Indexing?)
    && (cell.place.Held? || cell.place.Delivered? ==> cell.place.at < |s.matched| && s.matched[cell.place.at].corr == c)
    && (cell.place.Held? ==>
          var t := cell.place.holder;
          t in s.readers && Holding(s.readers[t].pc) && s.readers[t].pc.msg == s.matched[cell.place.at])
  }

  ghost predicate TaskOk(s: State, t: nat)
    requires t in s.readers
  {
    && t < s.sh.nextToken
    && (Holding(s.readers[t].pc) ==>
          var c := s.readers[t].pc.msg.corr;
          c in s.cells && s.cells[c].place.Held? && s.cells[c].place.holder == t)
  }

  ghost predicate Consistent(s: State) {
    && 1 <= s.sh.nextCorr
    && s.sh.waiters.Keys <= s.cells.Keys && s.sh.waiterInstance.Keys <= s.cells.Keys
    && (forall c :: c in s.calls ==> CallOk(s, c))
    && (forall c :: c in s.cells ==> CellOk(s, c))
    && (forall t :: t in s.readers ==> TaskOk(s, t))
  }

  lemma NumberIsFresh(s: State)
    requires Consistent(s)
    ensures s.sh.nextCorr !in s.calls && s.sh.nextCorr !in s.cells
  {
    forall c | c in s.calls
      ensures c < s.sh.nextCorr
    {
      assert CallOk(s, c);
    }
    forall c | c in s.cells
      ensures c in s.calls
    {
      assert CellOk(s, c);
    }
  }

  /** Steps that leave waiters alone: no table, channel or call changes, and no reader gains or loses a channel. */
  ghost predicate Quiet(s: State, s': State) {
    && s'.calls == s.calls && s'.cells == s.cells && s'.matched == s.matched
    && s'.sh.waiters == s.sh.waiters && s'.sh.waiterInstance == s.sh.waiterInstance
    && s'.sh.nextCorr == s.sh.nextCorr && s'.sh.nextToken >= s.sh.nextToken
    && (forall t :: t in s.readers ==> t in s'.readers && SamePossession(s.readers[t].pc, s'.readers[t].pc))
    && (forall t :: t in s'.readers && t !in s.readers ==> t < s'.sh.nextToken && !Holding(s'.readers[t].pc))
  }

  predicate SamePossession(pc: Pc, pc': Pc) {
    pc == pc' || (!Holding(pc) && !Holding(pc'))
  }

  lemma QuietKeeps(s: State, s': State)
    requires Consistent(s) && Quiet(s, s')
    ensures Consistent(s')
  {
    forall c | c in s'.cells
      ensures CellOk(s', c)
    {
      assert CellOk(s, c);
    }
    forall t | t in s'.readers
      ensures TaskOk(s', t)
    {
      assert t in s.readers ==> TaskOk(s, t);
    }
    assert forall c :: c in s'.calls ==> CallOk(s, c) && CallOk(s', c);
  }

  lemma ReceivingIsQuiet(s: State, t: nat)
    requires t in s.readers && t < s.sh.nextToken
    requires var pc := s.readers[t].pc; pc.Inserting? || pc.Checking? || pc.Beating?
    ensures Quiet(s, Advanced(s, t))
  {
  }

  lemma PushingIsQuiet(s: State, t: nat)
    requires t in s.readers && t < s.sh.nextToken && s.readers[t].pc.Pushing?
    ensures Quiet(s, Advanced(s, t))
  {
  }

  lemma DepartingIsQuiet(s: State, t: nat)
    requires t in s.readers && t < s.sh.nextToken
    requires var pc := s.readers[t].pc; pc.Leaving? || pc.Collecting? || pc.Failing?
    ensures Quiet(s, Advanced(s, t))
  {
  }

  lemma MatchedKeeps(s: State, t: nat)
    requires Consistent(s) && t in s.readers && s.readers[t].pc.Matching?
    ensures Consistent(Matched(s, t))
  {
    var s' := Matched(s, t);
    assert forall c :: c in s.calls ==> CallOk(s, c) && CallOk(s', c);
    forall c | c in s'.cells
      ensures CellOk(s', c)
    {
      assert CellOk(s, c);
    }
    forall u | u in s'.readers
      ensures TaskOk(s', u)
    {
      assert TaskOk(s, u);
    }
  }

  lemma UnindexedKeeps(s: State, t: nat)
    requires Consistent(s) && t in s.readers && s.readers[t].pc.Unindexing?
    ensures Consistent(Unindexed(s, t))
  {
  }

  lemma RepliedKeeps(s: State, t: nat)
    requires Consistent(s) && t in s.readers && s.readers[t].pc.Replying?
    ensures Consistent(Replied(s, t))
  {
  }

  lemma PickedKeeps(s: State, t: nat, c: nat)
    requires Consistent(s) && t in s.readers && s.readers[t].pc.Failing? && c in s.readers[t].pc.corrs
    ensures Consistent(Picked(s, t, c))
  {
  }

  lemma TakenKeeps(s: State, t: nat)
    requires Consistent(s) && t in s.readers && s.readers[t].pc.Taking?
    ensures Consistent(Taken(s, t))
  {
  }

  lemma BegunKeeps(s: State, id: string, waits: bool, kind: WaitKind, command: Command)
    requires Consistent(s)
    ensures Consistent(Begun(s, id, waits, kind, command))
  {
  }

  lemma RegisteredKeeps(s: State, c: nat)
    requires Consistent(s) && c in s.calls && s.calls[c].phase.Registering?
    ensures Consistent(Registered(s, c))
  {
    assert CallOk(s, c) && c !in s.sh.waiterInstance;
    forall d | d in Registered(s, c).cells
      ensures CellOk(Registered(s, c), d)
    {
    }
  }

  lemma DispatchedKeeps(s: State, c: nat)
    requires Consistent(s) && c in s.calls && s.calls[c].phase.Sending?
    ensures Consistent(Dispatched(s, c))
  {
  }

  lemma DroppingKeeps(s: State, c: nat)
    requires Consistent(s) && c in s.calls && s.calls[c].phase.TakingWaiter?
    ensures Consistent(Dropping(s, c))
  {
  }

  /** A call that only moves on. */
  lemma InKeeps(s: State, c: nat, phase: Phase)
    requires Consistent(s) && c in s.calls
    requires s.calls[c].phase.Getting? || s.calls[c].phase.Awaiting?
    requires phase.Done? || (s.calls[c].waits && phase == if s.calls[c].phase.Getting? then Registering else phase)
    requires s.calls[c].phase.Awaiting? ==> phase.Awaiting? || phase.TakingIndex? || phase.Done?
    ensures Consistent(In(s, c, phase))
  {
  }

  lemma IndexingKeeps(s: State, c: nat)
    requires Consistent(s) && c in s.calls && s.calls[c].phase.Indexing?
    ensures Consistent(Proceeded(s, c))
  {
  }

  lemma TakingIndexKeeps(s: State, c: nat)
    requires Consistent(s) && c in s.calls && s.calls[c].phase.TakingIndex?
    ensures Consistent(Proceeded(s, c))
  {
  }

  lemma AdvanceKeeps(s: State, t: nat)
    requires Consistent(s) && t in s.readers
    ensures Consistent(Advanced(s, t))
  {
    assert TaskOk(s, t);
    var pc := s.readers[t].pc;
    if pc.Matching? {
      MatchedKeeps(s, t);
    } else if pc.Unindexing? {
      UnindexedKeeps(s, t);
    } else if pc.Replying? {
      RepliedKeeps(s, t);
    } else if pc.Taking? {
      TakenKeeps(s, t);
    } else if pc.Inserting? || pc.Checking? || pc.Beating? {
      ReceivingIsQuiet(s, t);
      QuietKeeps(s, Advanced(s, t));
    } else if pc.Pushing? {
      PushingIsQuiet(s, t);
      QuietKeeps(s, Advanced(s, t));
    } else if pc.Leaving? || pc.Collecting? || pc.Failing? {
      DepartingIsQuiet(s, t);
      QuietKeeps(s, Advanced(s, t));
    }
  }

  lemma ProceedKeeps(s: State, c: nat)
    requires Consistent(s) && c in s.calls
    ensures Consistent(Proceeded(s, c))
  {
    assert CallOk(s, c);
    match s.calls[c].phase
    case Registering => RegisteredKeeps(s, c);
    case Sending => DispatchedKeeps(s, c);
    case TakingWaiter(_) => DroppingKeeps(s, c);
    case Indexing => IndexingKeeps(s, c);
    case TakingIndex(_) => TakingIndexKeeps(s, c);
    case Getting => InKeeps(s, c, if s.calls[c].id in s.sh.inner then Registering else Done(Failed(NotConnected)));
    case _ =>
  }

  predicate TouchesMapOnly(a: Action) {
    a.SetMask? || a.SetExcluded? || a.Drain? || a.TakeOutbound? || a.CloseOutbound?
  }

  lemma MapStepsAreQuiet(s: State, a: Action)
    requires TouchesMapOnly(a)
    ensures Step(s, a) == s.(sh := s.sh.(inner := Step(s, a).sh.inner))
  {
  }

  lemma StreamIsQuiet(s: State, a: Action)
    requires a.Arrive? || a.End?
    ensures Quiet(s, Step(s, a))
  {
  }

  lemma ConnectedKeeps(s: State, id: string, inboundCap: nat, outboundCap: nat)
    requires Consistent(s) && IsValidInstanceId(id)
    ensures Consistent(Connected(s, id, inboundCap, outboundCap))
  {
    assert s.sh.nextToken in s.readers ==> TaskOk(s, s.sh.nextToken);
  }

  lemma ConsistentStep(s: State, a: Action)
    requires Consistent(s)
    ensures Consistent(Step(s, a))
  {
    match a
    case Connect(id, inboundCap, outboundCap) =>
      if IsValidInstanceId(id) {
        ConnectedKeeps(s, id, inboundCap, outboundCap);
      }
    case Advance(t) =>
      if t in s.readers {
        AdvanceKeeps(s, t);
      }
    case Fail(t, c) =>
      if t in s.readers && s.readers[t].pc.Failing? && c in s.readers[t].pc.corrs {
        PickedKeeps(s, t, c);
      }
    case Begin(id, waits, kind, command) => BegunKeeps(s, id, waits, kind, command);
    case Proceed(c) =>
      if c in s.calls {
        ProceedKeeps(s, c);
      }
    case Poll(c) =>
      if c in s.calls && s.calls[c].phase.Awaiting? {
        assert CallOk(s, c);
        InKeeps(s, c, PollResult(s, c));
      }
    case Expire(c) =>
      if Pending(s, c) {
        assert CallOk(s, c);
        InKeeps(s, c, TakingIndex(TimedOut));
      }
    case _ =>
      if TouchesMapOnly(a) {
        MapStepsAreQuiet(s, a);
      } else {
        StreamIsQuiet(s, a);
      }
      QuietKeeps(s, Step(s, a));
  }

  lemma {:induction false} ConsistentRun(s: State, run: seq<Action>)
    requires Consistent(s)
    ensures Consistent(Run(s, run))
    decreases |run|
  {
    if run == [] {
    } else {
      ConsistentStep(s, run[0]);
      ConsistentRun(Step(s, run[0]), run[1..]);
    }
  }
}
