/**
 No waiter is stranded by a disconnect.

 A session leaves the map before its waiters are failed, and a waiter registers before its request is sent.
 So a request that found its instance connected is either still looking at a connected instance or is on the
 list of a fail pass that has not finished.
 */
module NoStranded {
  import opened Messages
  import opened Broker
  import opened Protocol
  import opened WaiterTable

  predicate InPass(pc: Pc) {
    pc.Collecting? || pc.Failing? || pc.Taking?
  }

  predicate TakesNext(s: State, t: nat, c: nat) {
    t in s.readers && s.readers[t].pc.Taking? && s.readers[t].pc.corr == c
  }

  /** Reader `t` is in a pass that has yet to break the channel of `c`. */
  predicate Owes(s: State, t: nat, c: nat) {
    && t in s.readers && c in s.calls
    && match s.readers[t].pc
       case Collecting(_) => s.readers[t].id == s.calls[c].id && c in s.sh.waiterInstance
       case Failing(corrs, _) => c in corrs
       case Taking(corr, corrs, _) => c == corr || c in corrs
       case _ => false
  }

  ghost predicate Owed(s: State, c: nat) {
    exists t :: Owes(s, t, c)
  }

  ghost predicate Findable(s: State, c: nat) {
    c in s.sh.waiterInstance || exists t :: TakesNext(s, t, c)
  }

  ghost predicate SafeCall(s: State, c: nat)
    requires c in s.calls
  {
    c in s.sh.waiters ==>
      && (s.calls[c].phase.Sending? || s.calls[c].phase.Awaiting? ==> Findable(s, c))
      && (s.calls[c].phase.Awaiting? ==> s.calls[c].id in s.sh.inner || Owed(s, c))
  }

  ghost predicate NoneStranded(s: State) {
    forall c :: c in s.calls ==> SafeCall(s, c)
  }

  /** Steps outside every fail pass that disconnect nobody. */
  ghost predicate Sheltered(s: State, s': State) {
    && s'.calls == s.calls && s'.sh.waiters.Keys <= s.sh.waiters.Keys
    && (forall c :: c in s.sh.waiterInstance && c in s'.sh.waiters ==> c in s'.sh.waiterInstance)
    && s.sh.inner.Keys <= s'.sh.inner.Keys
    && (forall t :: t in s.readers ==> t in s'.readers && s'.readers[t].id == s.readers[t].id)
    && (forall t :: t in s.readers && InPass(s.readers[t].pc) ==> s'.readers[t].pc == s.readers[t].pc)
  }

  lemma ShelteredKeeps(s: State, s': State)
    requires NoneStranded(s) && Sheltered(s, s')
    ensures NoneStranded(s')
  {
    forall c | c in s'.calls && c in s'.sh.waiters
      ensures SafeCall(s', c)
    {
      assert SafeCall(s, c);
      assert forall t :: TakesNext(s, t, c) ==> TakesNext(s', t, c);
      assert forall t :: Owes(s, t, c) ==> Owes(s', t, c);
    }
  }

  lemma RemovedKeeps(s: State, t: nat)
    requires NoneStranded(s) && t in s.readers && s.readers[t].pc.Leaving?
    ensures NoneStranded(Removed(s, t))
  {
    var s' := Removed(s, t);
    forall c | c in s'.calls && c in s'.sh.waiters
      ensures SafeCall(s', c)
    {
      assert SafeCall(s, c);
      assert forall u :: TakesNext(s, u, c) ==> TakesNext(s', u, c) && Owes(s', u, c);
      assert forall u :: Owes(s, u, c) ==> Owes(s', u, c);
      if s.calls[c].phase.Awaiting? && s.calls[c].id in s.sh.inner && s.calls[c].id !in s'.sh.inner {
        assert c in s.sh.waiterInstance ==> Owes(s', t, c);
      }
    }
  }

  lemma CollectedKeeps(s: State, t: nat)
    requires Consistent(s) && NoneStranded(s) && t in s.readers && s.readers[t].pc.Collecting?
    ensures NoneStranded(Collected(s, t))
  {
    var s' := Collected(s, t);
    forall c | c in s'.calls && c in s'.sh.waiters
      ensures SafeCall(s', c)
    {
      assert SafeCall(s, c) && CellOk(s, c);
      assert forall u :: TakesNext(s, u, c) ==> TakesNext(s', u, c);
      assert forall u :: Owes(s, u, c) ==> Owes(s', u, c);
    }
  }

  lemma EndedKeeps(s: State, t: nat)
    requires NoneStranded(s) && t in s.readers && s.readers[t].pc.Failing?
    ensures NoneStranded(Ended(s, t))
  {
    var s' := Ended(s, t);
    forall c | c in s'.calls && c in s'.sh.waiters
      ensures SafeCall(s', c)
    {
      assert SafeCall(s, c);
      assert forall u :: TakesNext(s, u, c) ==> TakesNext(s', u, c);
      assert forall u :: Owes(s, u, c) ==> Owes(s', u, c);
    }
  }

  lemma PickedKeepsCalls(s: State, t: nat, d: nat)
    requires NoneStranded(s) && t in s.readers && s.readers[t].pc.Failing? && d in s.readers[t].pc.corrs
    ensures NoneStranded(Picked(s, t, d))
  {
    var s' := Picked(s, t, d);
    assert TakesNext(s', t, d);
    forall c | c in s'.calls && c in s'.sh.waiters
      ensures SafeCall(s', c)
    {
      assert SafeCall(s, c);
      assert forall u :: TakesNext(s, u, c) ==> TakesNext(s', u, c);
      if c == d {
        assert Owes(s', t, c);
      } else {
        assert forall u :: Owes(s, u, c) ==> Owes(s', u, c);
      }
    }
  }

  lemma TakenKeepsCalls(s: State, t: nat)
    requires NoneStranded(s) && t in s.readers && s.readers[t].pc.Taking?
    ensures NoneStranded(Taken(s, t))
  {
    var s' := Taken(s, t);
    forall c | c in s'.calls && c in s'.sh.waiters
      ensures SafeCall(s', c)
    {
      assert SafeCall(s, c);
      assert forall u :: TakesNext(s, u, c) ==> TakesNext(s', u, c);
      assert forall u :: Owes(s, u, c) ==> Owes(s', u, c);
    }
  }

  /** A call moves on: every other call keeps what shelters it. */
  lemma OtherCallsKeep(s: State, s': State, c: nat)
    requires NoneStranded(s) && s'.calls.Keys == s.calls.Keys + {c}
    requires forall d :: d in s.calls && d != c ==> s'.calls[d] == s.calls[d]
    requires s'.sh.inner.Keys == s.sh.inner.Keys
    requires s'.sh.waiters.Keys <= s.sh.waiters.Keys + {c}
         && s.sh.waiterInstance.Keys <= s'.sh.waiterInstance.Keys + {c}
    requires s'.readers.Keys == s.readers.Keys
    requires forall t :: t in s.readers ==> s'.readers[t].pc == s.readers[t].pc && s'.readers[t].id == s.readers[t].id
    requires SafeCall(s', c)
    ensures NoneStranded(s')
  {
    forall d | d in s'.calls && d in s'.sh.waiters
      ensures SafeCall(s', d)
    {
      if d != c {
        assert SafeCall(s, d);
        assert forall t :: TakesNext(s, t, d) ==> TakesNext(s', t, d);
        assert forall t :: Owes(s, t, d) ==> Owes(s', t, d);
      }
    }
  }

  lemma DispatchedKeepsCalls(s: State, c: nat)
    requires Consistent(s) && NoneStranded(s) && c in s.calls && s.calls[c].phase.Sending?
    ensures NoneStranded(Dispatched(s, c))
  {
    var s' := Dispatched(s, c);
    assert SafeCall(s, c);
    assert forall t :: TakesNext(s, t, c) ==> TakesNext(s', t, c);
    OtherCallsKeep(s, s', c);
  }

  lemma ProceedKeepsCalls(s: State, c: nat)
    requires Consistent(s) && NoneStranded(s) && c in s.calls
    ensures NoneStranded(Proceeded(s, c))
  {
    match s.calls[c].phase
    case Sending => DispatchedKeepsCalls(s, c);
    case Awaiting =>
    case Done(_) =>
    case _ => OtherCallsKeep(s, Proceeded(s, c), c);
  }

  lemma PushingSheltered(s: State, t: nat)
    requires t in s.readers && s.readers[t].pc.Pushing?
    ensures Sheltered(s, Advanced(s, t))
  {
  }

  lemma ReceivingSheltered(s: State, t: nat)
    requires t in s.readers
    requires var pc := s.readers[t].pc; pc.Inserting? || pc.Checking? || pc.Beating?
    ensures Sheltered(s, Advanced(s, t))
  {
    match s.readers[t].pc
    case Inserting(_, _) => InsertedSheltered(s, t);
    case Checking(_) => CheckedSheltered(s, t);
    case Beating(_, _) => RecordedSheltered(s, t);
  }

  lemma InsertedSheltered(s: State, t: nat)
    requires t in s.readers && s.readers[t].pc.Inserting?
    ensures Sheltered(s, Inserted(s, t))
  {
  }

  lemma CheckedSheltered(s: State, t: nat)
    requires t in s.readers && s.readers[t].pc.Checking?
    ensures Sheltered(s, Checked(s, t))
  {
  }

  lemma RecordedSheltered(s: State, t: nat)
    requires t in s.readers && s.readers[t].pc.Beating?
    ensures Sheltered(s, Recorded(s, t))
  {
  }

  lemma MatchedSheltered(s: State, t: nat)
    requires t in s.readers && s.readers[t].pc.Matching?
    ensures Sheltered(s, Matched(s, t))
  {
  }

  lemma UnindexedSheltered(s: State, t: nat)
    requires Consistent(s) && t in s.readers && s.readers[t].pc.Unindexing?
    ensures Sheltered(s, Unindexed(s, t))
  {
    assert TaskOk(s, t) && CellOk(s, s.readers[t].pc.msg.corr);
  }

  lemma RepliedSheltered(s: State, t: nat)
    requires t in s.readers && s.readers[t].pc.Replying?
    ensures Sheltered(s, Replied(s, t))
  {
  }

  lemma LookupSheltered(s: State, t: nat)
    requires Consistent(s) && t in s.readers
    requires var pc := s.readers[t].pc; pc.Matching? || pc.Unindexing? || pc.Replying?
    ensures Sheltered(s, Advanced(s, t))
  {
    match s.readers[t].pc
    case Matching(_) => MatchedSheltered(s, t);
    case Unindexing(_) => UnindexedSheltered(s, t);
    case Replying(_) => RepliedSheltered(s, t);
  }

  lemma AdvanceKeepsCalls(s: State, t: nat)
    requires Consistent(s) && NoneStranded(s) && t in s.readers
    ensures NoneStranded(Advanced(s, t))
  {
    var pc := s.readers[t].pc;
    if pc.Leaving? {
      RemovedKeeps(s, t);
    } else if pc.Collecting? {
      CollectedKeeps(s, t);
    } else if pc.Failing? {
      EndedKeeps(s, t);
    } else if pc.Taking? {
      TakenKeepsCalls(s, t);
    } else if pc.Matching? || pc.Unindexing? || pc.Replying? {
      LookupSheltered(s, t);
      ShelteredKeeps(s, Advanced(s, t));
    } else if pc.Pushing? {
      PushingSheltered(s, t);
      ShelteredKeeps(s, Advanced(s, t));
    } else if !pc.Waiting? && !pc.Finished? {
      ReceivingSheltered(s, t);
      ShelteredKeeps(s, Advanced(s, t));
    }
  }

  lemma ConnectedSheltered(s: State, id: string, inboundCap: nat, outboundCap: nat)
    requires Consistent(s) && IsValidInstanceId(id)
    ensures Sheltered(s, Connected(s, id, inboundCap, outboundCap))
  {
    assert s.sh.nextToken in s.readers ==> TaskOk(s, s.sh.nextToken);
  }

  lemma WaitingSheltered(s: State, t: nat, pc: Pc)
    requires t in s.readers && s.readers[t].pc.Waiting?
    ensures Sheltered(s, At(s, t, pc))
  {
  }

  lemma MapSheltered(s: State, a: Action)
    requires TouchesMapOnly(a)
    ensures Sheltered(s, Step(s, a))
  {
    MapStepsAreQuiet(s, a);
  }

  lemma PhaseKeepsCalls(s: State, c: nat, phase: Phase)
    requires NoneStranded(s) && c in s.calls && s.calls[c].phase.Awaiting? && !phase.Sending?
    ensures NoneStranded(In(s, c, phase))
  {
    var s' := In(s, c, phase);
    assert SafeCall(s, c);
    assert forall t :: TakesNext(s, t, c) ==> TakesNext(s', t, c);
    assert forall t :: Owes(s, t, c) ==> Owes(s', t, c);
    OtherCallsKeep(s, s', c);
  }

  lemma NoneStrandedStep(s: State, a: Action)
    requires Consistent(s) && NoneStranded(s)
    ensures NoneStranded(Step(s, a))
  {
    match a
    case Advance(t) =>
      if t in s.readers {
        AdvanceKeepsCalls(s, t);
      }
    case Fail(t, c) =>
      if t in s.readers && s.readers[t].pc.Failing? && c in s.readers[t].pc.corrs {
        PickedKeepsCalls(s, t, c);
      }
    case Begin(id, waits, kind, command) =>
      NumberIsFresh(s);
      OtherCallsKeep(s, Step(s, a), s.sh.nextCorr);
    case Proceed(c) =>
      if c in s.calls {
        ProceedKeepsCalls(s, c);
      }
    case Poll(c) =>
      if c in s.calls && s.calls[c].phase.Awaiting? {
        PhaseKeepsCalls(s, c, PollResult(s, c));
      }
    case Expire(c) =>
      if Pending(s, c) {
        PhaseKeepsCalls(s, c, TakingIndex(TimedOut));
      }
    case Connect(id, inboundCap, outboundCap) =>
      if IsValidInstanceId(id) {
        ConnectedSheltered(s, id, inboundCap, outboundCap);
        ShelteredKeeps(s, Step(s, a));
      }
    case Arrive(t, item) =>
      if t in s.readers && s.readers[t].pc.Waiting? {
        WaitingSheltered(s, t, Checking(item));
        ShelteredKeeps(s, Step(s, a));
      }
    case End(t) =>
      if t in s.readers && s.readers[t].pc.Waiting? {
        WaitingSheltered(s, t, Leaving(true));
        ShelteredKeeps(s, Step(s, a));
      }
    case _ =>
      MapSheltered(s, a);
      ShelteredKeeps(s, Step(s, a));
  }

  lemma {:induction false} NoneStrandedRun(s: State, run: seq<Action>)
    requires Consistent(s) && NoneStranded(s)
    ensures Consistent(Run(s, run)) && NoneStranded(Run(s, run))
    decreases |run|
  {
    if run == [] {
    } else {
      NoneStrandedStep(s, run[0]);
      ConsistentStep(s, run[0]);
      NoneStrandedRun(Step(s, run[0]), run[1..]);
    }
  }

  /** Reader `t` has matched the waiter of `c` and has yet to hand over the reply. */
  predicate Replies(s: State, t: nat, c: nat) {
    t in s.readers && Holding(s.readers[t].pc) && s.readers[t].pc.msg.corr == c
  }

  /**
   In every interleaving, a call that still awaits its result has its instance connected, or some reader's fail
   pass has still to break its channel, or some reader is about to hand it its reply.
   */
  lemma AwaitedIsConnectedOrOwed(run: seq<Action>, c: nat)
    requires Pending(Run(START, run), c)
    ensures var s := Run(START, run);
            s.calls[c].id in s.sh.inner || (exists t :: Owes(s, t, c)) || (exists t :: Replies(s, t, c))
  {
    NoneStrandedRun(START, run);
    var s := Run(START, run);
    assert SafeCall(s, c) && CallOk(s, c) && CellOk(s, c);
    if c !in s.sh.waiters {
      assert Replies(s, s.cells[c].place.holder, c);
    }
  }

  /**
   Whoever awaits a disconnected instance has its result ready, without a timeout, unless a reader has this very
   call on its list or its reply in hand.
   */
  lemma DisconnectedIsResolved(run: seq<Action>, c: nat)
    requires var s := Run(START, run);
             && c in s.calls && s.calls[c].phase.Awaiting? && s.calls[c].id !in s.sh.inner
             && forall t :: !Owes(s, t, c) && !Replies(s, t, c)
    ensures var s := Run(START, run); PollResult(s, c).Done?
  {
    if Pending(Run(START, run), c) {
      AwaitedIsConnectedOrOwed(run, c);
    }
  }

  // A whole departure without interference is the sequential one

  predicate ByReader(run: seq<Action>, t: nat) {
    forall i :: 0 <= i < |run| ==> run[i] == Advance(t) || (run[i].Fail? && run[i].token == t)
  }

  function Broken(s: State, corrs: set<nat>): map<nat, Cell> {
    map c | c in s.cells ::
      if c in corrs && c in s.sh.waiters then s.cells[c].(place := Dropped(Disconnected)) else s.cells[c]
  }

  /** What a pass over `corrs` leaves behind: they are gone from both tables and their channels are broken. */
  function AfterFailing(s: State, t: nat, corrs: set<nat>, pc: Pc): State
    requires t in s.readers
  {
    s.(sh := TakeAll(s.sh, corrs), cells := Broken(s, corrs), readers := s.readers[t := s.readers[t].(pc := pc)])
  }

  lemma OneTurn(s: State, t: nat, c: nat)
    requires Consistent(s) && t in s.readers && s.readers[t].pc.Failing? && c in s.readers[t].pc.corrs
    ensures Taken(Picked(s, t, c), t)
         == AfterFailing(s, t, {c}, Failing(s.readers[t].pc.corrs - {c}, s.readers[t].pc.last))
  {
    var s2 := Taken(Picked(s, t, c), t);
    assert c in s.sh.waiters ==> c in s.cells;
    assert s2.cells == Broken(s, {c});
    assert s2.sh == TakeAll(s.sh, {c});
  }

  lemma TurnRun(s: State, t: nat, c: nat, rest: seq<Action>)
    requires Consistent(s) && t in s.readers && s.readers[t].pc.Failing? && c in s.readers[t].pc.corrs
    ensures var s2 := Taken(Picked(s, t, c), t);
            Consistent(s2) && Run(s, [Fail(t, c)] + ([Advance(t)] + rest)) == Run(s2, rest)
  {
    var s1 := Picked(s, t, c);
    PickedKeeps(s, t, c);
    TakenKeeps(s1, t);
    RunTwo(s, Fail(t, c), Advance(t), rest);
    assert Step(s, Fail(t, c)) == s1 && Step(s1, Advance(t)) == Taken(s1, t);
  }

  lemma TurnsCompose(s: State, t: nat, c: nat, corrs: set<nat>, pc: Pc, pc': Pc)
    requires t in s.readers && c in corrs
    ensures AfterFailing(AfterFailing(s, t, {c}, pc), t, corrs - {c}, pc') == AfterFailing(s, t, corrs, pc')
  {
    var s2 := AfterFailing(s, t, {c}, pc);
    assert Broken(s2, corrs - {c}) == Broken(s, corrs);
    assert s.sh.waiters - {c} - (corrs - {c}) == s.sh.waiters - corrs;
    assert s.sh.waiterInstance - {c} - (corrs - {c}) == s.sh.waiterInstance - corrs;
  }

  /** One turn of the pass, and then the rest of it. */
  lemma TurnThenRest(s: State, t: nat, c: nat, rest: seq<Action>)
    requires Consistent(s) && t in s.readers && s.readers[t].pc.Failing? && c in s.readers[t].pc.corrs
    requires var s2, corrs, last := Taken(Picked(s, t, c), t), s.readers[t].pc.corrs, s.readers[t].pc.last;
             Run(s2, rest) == AfterFailing(s2, t, corrs - {c}, Failing({}, last))
    ensures Run(s, [Fail(t, c)] + ([Advance(t)] + rest))
         == AfterFailing(s, t, s.readers[t].pc.corrs, Failing({}, s.readers[t].pc.last))
  {
    var corrs, last := s.readers[t].pc.corrs, s.readers[t].pc.last;
    TurnRun(s, t, c, rest);
    OneTurn(s, t, c);
    TurnsCompose(s, t, c, corrs, Failing(corrs - {c}, last), Failing({}, last));
  }

  lemma EmptyPass(s: State, t: nat)
    requires t in s.readers && s.readers[t].pc.Failing? && s.readers[t].pc.corrs == {}
    ensures s == AfterFailing(s, t, {}, Failing({}, s.readers[t].pc.last))
  {
    assert Broken(s, {}) == s.cells && TakeAll(s.sh, {}) == s.sh;
  }

  lemma {:induction false} PassToTheEnd(s: State, t: nat) returns (run: seq<Action>)
    requires Consistent(s) && t in s.readers && s.readers[t].pc.Failing?
    ensures ByReader(run, t)
    ensures Run(s, run) == AfterFailing(s, t, s.readers[t].pc.corrs, Failing({}, s.readers[t].pc.last))
    decreases |s.readers[t].pc.corrs|
  {
    if s.readers[t].pc.corrs == {} {
      run := [];
      EmptyPass(s, t);
    } else {
      var c :| c in s.readers[t].pc.corrs;
      TurnRun(s, t, c, []);
      var rest := PassToTheEnd(Taken(Picked(s, t, c), t), t);
      TurnThenRest(s, t, c, rest);
      run := [Fail(t, c)] + ([Advance(t)] + rest);
    }
  }

  /** The first two sections of a departure: out of the map, then the list of waiters to fail. */
  lemma DepartureBegins(s: State, t: nat, rest: seq<Action>)
    requires Consistent(s) && t in s.readers && s.readers[t].pc.Leaving? && Owns(s.sh, s.readers[t].id, t)
    ensures var s2, id := Collected(Removed(s, t), t), s.readers[t].id;
            && Consistent(s2) && Run(s, [Advance(t)] + ([Advance(t)] + rest)) == Run(s2, rest)
            && s2.sh == RemoveSection(s.sh, id, t) && s2.cells == s.cells && s2.calls == s.calls
            && s2.readers[t].pc == Failing(CorrsOf(s.sh, id), s.readers[t].pc.last)
  {
    var s1 := Removed(s, t);
    AdvanceKeeps(s, t);
    AdvanceKeeps(s1, t);
    RunTwo(s, Advance(t), Advance(t), rest);
    assert Step(s, Advance(t)) == s1 && Step(s1, Advance(t)) == Collected(s1, t);
  }

  /**
   Run alone, the sections of a departing owner add up to the sequential removal: the id leaves the map, and
   every waiter registered for it leaves both tables with a broken channel.
   */
  lemma DepartureIsRemoveIf(s: State, t: nat) returns (run: seq<Action>)
    requires Consistent(s) && t in s.readers && s.readers[t].pc.Leaving? && Owns(s.sh, s.readers[t].id, t)
    ensures ByReader(run, t)
    ensures var s', id := Run(s, run), s.readers[t].id;
            && s'.sh == RemoveIf(s.sh, id, t)
            && t in s'.readers && s'.readers[t].pc == AfterPass(s.readers[t].pc.last)
            && s'.cells == Broken(s, CorrsOf(s.sh, id)) && s'.calls == s.calls
  {
    DepartureBegins(s, t, []);
    var s2 := Collected(Removed(s, t), t);
    var pass := PassToTheEnd(s2, t);
    run := [Advance(t)] + ([Advance(t)] + (pass + [Advance(t)]));
    DepartureBegins(s, t, pass + [Advance(t)]);
    RunConcat(s2, pass, [Advance(t)]);
    RunCons(Run(s2, pass), Advance(t), []);
    assert [Advance(t)] + [] == [Advance(t)];
  }
}
