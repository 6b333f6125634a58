/**
 Sessions that replace one another under the same id.

 Waiters are failed by id, not by session. So the departure of one session can disconnect a call that was sent to
 the next one, and the arrival of the next one can shelter, in vain, a call that was sent to the last.
 */
module Successors {
  import opened Messages
  import opened Broker
  import opened Protocol
  import opened WaiterTable
  import opened Ownership
  import opened ExactlyOnce
  import opened Footprints
  import opened Addressing
  import opened NoStranded

  // Which passes have a call on their list

  /** A pass of `u` begins: its session leaves the map. */
  predicate Departs(s: State, a: Action, u: nat) {
    a == Advance(u) && u in s.readers && s.readers[u].pc.Leaving? && OwnsId(s, u)
  }

  lemma DepartureLosesId(s: State, a: Action, u: nat)
    requires Departs(s, a, u)
    ensures u in Step(s, a).readers && !OwnsId(Step(s, a), u)
  {
    assert Step(s, a) == Removed(s, u);
  }

  lemma ListAppears(s: State, v: nat, u: nat, c: nat)
    requires Consistent(s) && v in s.readers && s.readers[v].pc.Collecting? && c in s.calls
         && Owes(Collected(s, v), u, c)
    ensures Owes(s, u, c)
  {
    assert c in s.cells ==> CellOk(s, c);
  }

  lemma TurnKeepsIndex(s: State, v: nat)
    requires v in s.readers && !InPass(s.readers[v].pc) && !s.readers[v].pc.Unindexing?
    ensures Advanced(s, v).sh.waiterInstance == s.sh.waiterInstance
    ensures v in Advanced(s, v).readers && (InPass(Advanced(s, v).readers[v].pc) ==> Departs(s, Advance(v), v))
    ensures !Advanced(s, v).readers[v].pc.Failing? && !Advanced(s, v).readers[v].pc.Taking?
  {
    match s.readers[v].pc
    case Inserting(_, _) => assert Advanced(s, v) == Inserted(s, v);
    case Waiting =>
    case Checking(_) => assert Advanced(s, v) == Checked(s, v);
    case Beating(_, _) => assert Advanced(s, v) == Recorded(s, v);
    case Matching(_) => assert Advanced(s, v) == Matched(s, v);
    case Replying(_) => assert Advanced(s, v) == Replied(s, v);
    case Pushing(_) => assert Advanced(s, v) == Delivering(s, v);
    case Leaving(_) => assert Advanced(s, v) == Removed(s, v);
    case Finished =>
  }

  lemma PassAppears(s: State, v: nat, u: nat, c: nat)
    requires Consistent(s) && v in s.readers && c in s.calls && Owes(Advanced(s, v), u, c)
    ensures Owes(s, u, c) || (Departs(s, Advance(v), u) && s.readers[u].id == s.calls[c].id)
  {
    CallStep(s, Advance(v), c);
    assert Step(s, Advance(v)) == Advanced(s, v);
    match s.readers[v].pc
    case Unindexing(_) => assert Advanced(s, v) == Unindexed(s, v);
    case Collecting(_) => ListAppears(s, v, u, c);
    case Failing(_, _) => assert Advanced(s, v) == Ended(s, v);
    case Taking(_, _, _) => assert Advanced(s, v) == Taken(s, v);
    case _ =>
      AdvanceSends(s, v);
      TurnKeepsIndex(s, v);
      PassAppearsInTurn(s, Advanced(s, v), v, u, c);
  }

  lemma PassAppearsInTurn(s: State, s': State, v: nat, u: nat, c: nat)
    requires v in s.readers && v in s'.readers && s'.readers == s.readers[v := s'.readers[v]]
         && s'.readers[v].id == s.readers[v].id
    requires s'.sh.waiterInstance == s.sh.waiterInstance
    requires InPass(s'.readers[v].pc) ==> Departs(s, Advance(v), v)
    requires !s'.readers[v].pc.Failing? && !s'.readers[v].pc.Taking?
    requires c in s.calls && c in s'.calls && s'.calls[c].id == s.calls[c].id && Owes(s', u, c)
    ensures Owes(s, u, c) || (Departs(s, Advance(v), u) && s.readers[u].id == s.calls[c].id)
  {
  }

  lemma ListAppearsByCall(s: State, d: nat, u: nat, c: nat)
    requires d in s.calls && c in s.calls && Owes(Proceeded(s, d), u, c)
    ensures Owes(s, u, c) || (d == c && s.calls[c].phase.Indexing?)
  {
    match s.calls[d].phase
    case Sending =>
      assert Proceeded(s, d) == Dispatched(s, d);
    case Registering => assert Proceeded(s, d) == Registered(s, d);
    case TakingWaiter(_) => assert Proceeded(s, d) == Dropping(s, d);
    case _ =>
  }

  /** Steps that start no pass and leave the index of waiters alone. */
  lemma ListAppearsApart(s: State, s': State, u: nat, c: nat)
    requires c in s.calls && c in s'.calls && s'.calls[c].id == s.calls[c].id && Owes(s', u, c)
    requires s'.sh.waiterInstance.Keys <= s.sh.waiterInstance.Keys
    requires forall v :: v in s'.readers && InPass(s'.readers[v].pc) ==>
               v in s.readers && s'.readers[v].id == s.readers[v].id && s'.readers[v].pc == s.readers[v].pc
    ensures Owes(s, u, c)
  {
  }

  lemma ListAppearsByStream(s: State, a: Action, u: nat, c: nat)
    requires c in s.calls && Owes(Step(s, a), u, c) && (a.Arrive? || a.End?)
    ensures Owes(s, u, c)
  {
    if a.token in s.readers && s.readers[a.token].pc.Waiting? {
      ListAppearsApart(s, At(s, a.token, if a.Arrive? then Checking(a.item) else Leaving(true)), u, c);
    }
  }

  lemma ListAppearsByWait(s: State, a: Action, u: nat, c: nat)
    requires c in s.calls && Owes(Step(s, a), u, c) && (a.Poll? || a.Expire?)
    ensures Owes(s, u, c)
  {
    if a.corr in s.calls {
      ListAppearsApart(s, In(s, a.corr, if a.Poll? then PollResult(s, a.corr) else TakingIndex(TimedOut)), u, c);
    }
  }

  lemma ListAppearsByPick(s: State, t: nat, d: nat, u: nat, c: nat)
    requires t in s.readers && s.readers[t].pc.Failing? && d in s.readers[t].pc.corrs
    requires c in s.calls && Owes(Picked(s, t, d), u, c)
    ensures Owes(s, u, c)
  {
  }

  /** A call gets on a list when the owner of its id departs, or when it indexes itself under an id being left. */
  lemma OwesAppears(s: State, a: Action, u: nat, c: nat)
    requires Consistent(s) && c in s.calls && Owes(Step(s, a), u, c)
    ensures || Owes(s, u, c)
            || (Departs(s, a, u) && s.readers[u].id == s.calls[c].id)
            || (a == Proceed(c) && s.calls[c].phase.Indexing?)
  {
    match a
    case Advance(v) =>
      if v in s.readers {
        PassAppears(s, v, u, c);
      }
    case Proceed(d) =>
      if d in s.calls {
        ListAppearsByCall(s, d, u, c);
      }
    case Connect(id, inboundCap, outboundCap) =>
      if IsValidInstanceId(id) {
        assert s.sh.nextToken in s.readers ==> TaskOk(s, s.sh.nextToken);
        ListAppearsApart(s, Connected(s, id, inboundCap, outboundCap), u, c);
      }
    case Begin(id, waits, kind, command) =>
      NumberIsFresh(s);
      ListAppearsApart(s, Begun(s, id, waits, kind, command), u, c);
    case Fail(t, d) =>
      if t in s.readers && s.readers[t].pc.Failing? && d in s.readers[t].pc.corrs {
        ListAppearsByPick(s, t, d, u, c);
      }
    case _ =>
      if TouchesMapOnly(a) {
        MapStepsAreQuiet(s, a);
      } else if a.Poll? || a.Expire? {
        ListAppearsByWait(s, a, u, c);
      } else {
        ListAppearsByStream(s, a, u, c);
      }
  }

  ghost predicate Broke(s: State, c: nat) {
    c in s.cells && s.cells[c].place == Dropped(Disconnected)
  }

  lemma BreakAppears(s: State, a: Action, c: nat)
    requires Consistent(s) && Truthful(s) && c in s.calls && Broke(Step(s, a), c)
    ensures Broke(s, c) || Owed(s, c)
  {
    if !MovesCell(s, a) {
      OthersLeaveCells(s, a);
    } else if a.Advance? {
      BreakAppearsInPass(s, a.token, c);
    } else {
      assert TellsTruth(s, a.corr);
      match s.calls[a.corr].phase
      case Registering => assert Step(s, a) == Registered(s, a.corr);
      case TakingWaiter(_) => assert Step(s, a) == Dropping(s, a.corr);
    }
  }

  lemma BreakAppearsInPass(s: State, u: nat, c: nat)
    requires Consistent(s) && MovesCell(s, Advance(u)) && c in s.calls && Broke(Advanced(s, u), c)
    ensures Broke(s, c) || Owed(s, c)
  {
    match s.readers[u].pc
    case Matching(_) => assert Advanced(s, u) == Matched(s, u);
    case Replying(_) => assert Advanced(s, u) == Replied(s, u);
    case Taking(corr, _, _) =>
      assert Advanced(s, u) == Taken(s, u);
      assert corr == c ==> Owes(s, u, c);
  }

  // Disconnected although the session stays

  /** A departed session's pass has broken the channel of `c`, or has `c` on its list. */
  ghost predicate Exposed(s: State, c: nat) {
    Broke(s, c) || Owed(s, c)
  }

  /** The breaking step: a request is handed over when it is exposed already. */
  ghost predicate ExposedSend(s: State, a: Action) {
    a.Proceed? && (exists t :: Hands(s, a, t, a.corr)) && Exposed(s, a.corr)
  }

  /** No call is exposed while the session its request went to owns its id. */
  ghost predicate Spared(s: State) {
    forall t, c :: SentTo(s, t, c) && OwnsId(s, t) ==> !Exposed(s, c)
  }

  lemma DispatchKeepsExposure(s: State, c: nat)
    requires c in s.calls && s.calls[c].phase.Sending?
    ensures Exposed(Dispatched(s, c), c) <==> Exposed(s, c)
    ensures Dispatched(s, c).sh.waiters == s.sh.waiters && (Broke(Dispatched(s, c), c) <==> Broke(s, c))
  {
    assert forall u :: Owes(s, u, c) <==> Owes(Dispatched(s, c), u, c);
  }

  lemma DispatchKeepsOwner(s: State, c: nat, t: nat)
    requires c in s.calls && s.calls[c].phase.Sending? && t in s.readers && OwnsId(s, t)
    ensures t in Dispatched(s, c).readers && OwnsId(Dispatched(s, c), t)
  {
  }

  lemma HandingKeepsExposure(s: State, a: Action, t: nat, c: nat)
    requires Sound(s) && Hands(s, a, t, c)
    ensures Exposed(Step(s, a), c) <==> Exposed(s, c)
    ensures SentTo(Step(s, a), t, c) && OwnsId(Step(s, a), t)
    ensures Step(s, a).sh.waiters == s.sh.waiters && (Broke(Step(s, a), c) <==> Broke(s, c))
  {
    HandedIsAsked(s, a, t, c);
    SentToStep(s, a, t, c);
    assert Step(s, a) == Dispatched(s, c);
    DispatchKeepsExposure(s, c);
    DispatchKeepsOwner(s, c, t);
  }

  /** A call sent to a session that still owns its id afterwards was as safe before. */
  lemma ExposureNeedsDeparture(s: State, a: Action, t: nat, c: nat)
    requires Sound(s) && Truthful(s) && SentTo(s, t, c) && SentTo(Step(s, a), t, c) && OwnsId(Step(s, a), t)
    ensures OwnsId(s, t)
    ensures Exposed(Step(s, a), c) ==> Exposed(s, c)
  {
    assert StreamOk(s, t) && TokenOk(s, t);
    if !OwnsId(s, t) {
      LostStep(s, a, t);
    }
    if Broke(Step(s, a), c) {
      BreakAppears(s, a, c);
    } else if Owed(Step(s, a), c) {
      var u :| Owes(Step(s, a), u, c);
      OwesAppears(s, a, u, c);
      if Departs(s, a, u) {
        DepartureLosesId(s, a, u);
      }
    }
  }

  /** Exactly the exposed sends put a call at the mercy of a pass that is not its own session's. */
  lemma OnlyExposedSendsEndanger(s: State, a: Action)
    requires Sound(s) && Truthful(s) && Spared(s)
    ensures Spared(Step(s, a)) <==> !ExposedSend(s, a)
  {
    var s' := Step(s, a);
    if ExposedSend(s, a) {
      var t :| Hands(s, a, t, a.corr);
      HandingKeepsExposure(s, a, t, a.corr);
    } else {
      forall t, c | SentTo(s', t, c) && OwnsId(s', t)
        ensures !Exposed(s', c)
      {
        SentToStep(s, a, t, c);
        if Hands(s, a, t, c) {
          HandingKeepsExposure(s, a, t, c);
        } else {
          ExposureNeedsDeparture(s, a, t, c);
        }
      }
    }
  }

  ghost predicate Unexposed(s: State, run: seq<Action>)
    decreases |run|
  {
    run == [] || (!ExposedSend(s, run[0]) && Unexposed(Step(s, run[0]), run[1..]))
  }

  lemma {:induction false} SparedRun(s: State, run: seq<Action>)
    requires Sound(s) && Truthful(s) && Spared(s) && Unexposed(s, run)
    ensures Sound(Run(s, run)) && Truthful(Run(s, run)) && Spared(Run(s, run))
    decreases |run|
  {
    if run == [] {
    } else {
      OnlyExposedSendsEndanger(s, run[0]);
      SoundStep(s, run[0]);
      TruthfulStep(s, run[0]);
      SparedRun(Step(s, run[0]), run[1..]);
    }
  }

  /** Without exposed sends, "disconnected" means what it says: the session the request went to has lost its id. */
  lemma DisconnectedMeansLost(run: seq<Action>, t: nat, c: nat)
    requires Unexposed(START, run)
    requires SentTo(Run(START, run), t, c) && Broke(Run(START, run), c)
    ensures Lost(Run(START, run), t)
  {
    SparedRun(START, run);
    assert StreamOk(Run(START, run), t);
  }

  /** And what a caller is told as "disconnected" is such a broken channel. */
  lemma ToldDisconnectedMeansLost(run: seq<Action>, t: nat, c: nat)
    requires Unexposed(START, run) && SentTo(Run(START, run), t, c)
    requires c in Run(START, run).calls && Run(START, run).calls[c].phase == Done(Failed(Disconnected))
    ensures Lost(Run(START, run), t)
  {
    TruthfulRun(START, run);
    assert TellsTruth(Run(START, run), c);
    DisconnectedMeansLost(run, t, c);
  }

  /** `run` is work of passes only, from `s`, at the end of which the channel of `c` is broken. */
  ghost predicate PassesBreak(s: State, run: seq<Action>, u: nat, c: nat) {
    ByReader(run, u) && Broke(Run(s, run), c)
    && Run(s, run).sh.inner == s.sh.inner && forall t :: SentTo(s, t, c) ==> SentTo(Run(s, run), t, c)
  }

  /** The rest of a pass that has listed `c`. */
  lemma ListedBreaks(s: State, u: nat, c: nat) returns (run: seq<Action>)
    requires Consistent(s) && u in s.readers && s.readers[u].pc.Failing? && c in s.readers[u].pc.corrs
         && c in s.sh.waiters
    ensures PassesBreak(s, run, u, c)
  {
    run := PassToTheEnd(s, u);
  }

  lemma FirstThen(s: State, u: nat, rest: seq<Action>)
    requires ByReader(rest, u)
    ensures ByReader([Advance(u)] + rest, u) && Run(s, [Advance(u)] + rest) == Run(Step(s, Advance(u)), rest)
  {
    RunCons(s, Advance(u), rest);
  }

  lemma CollectingBreaks(s: State, u: nat, c: nat) returns (run: seq<Action>)
    requires Consistent(s) && Owes(s, u, c) && c in s.sh.waiters && s.readers[u].pc.Collecting?
    ensures PassesBreak(s, run, u, c)
  {
    var s1 := Collected(s, u);
    assert Step(s, Advance(u)) == s1 && CellOk(s, c);
    AdvanceKeeps(s, u);
    var rest := ListedBreaks(s1, u, c);
    FirstThen(s, u, rest);
    run := [Advance(u)] + rest;
  }

  lemma TakingBreaks(s: State, u: nat, c: nat) returns (run: seq<Action>)
    requires Consistent(s) && Owes(s, u, c) && c in s.sh.waiters && s.readers[u].pc.Taking?
    ensures PassesBreak(s, run, u, c)
  {
    var s1 := Taken(s, u);
    assert Step(s, Advance(u)) == s1 && CellOk(s, c);
    AdvanceKeeps(s, u);
    var rest := [];
    if s.readers[u].pc.corr != c {
      rest := ListedBreaks(s1, u, c);
    }
    FirstThen(s, u, rest);
    run := [Advance(u)] + rest;
  }

  /** Any pass that has `c` on its list, run to its end with nothing in between, breaks the channel of `c`. */
  lemma OwedBreaks(s: State, u: nat, c: nat) returns (run: seq<Action>)
    requires Consistent(s) && Owes(s, u, c) && c in s.sh.waiters
    ensures PassesBreak(s, run, u, c)
  {
    match s.readers[u].pc
    case Failing(_, _) => run := ListedBreaks(s, u, c);
    case Collecting(_) => run := CollectingBreaks(s, u, c);
    case Taking(_, _, _) => run := TakingBreaks(s, u, c);
  }

  /** After every exposed send of an unanswered call, the pass can break the call with its session still the owner. */
  lemma ExposedSendCanBreak(s: State, a: Action) returns (t: nat, run: seq<Action>)
    requires Sound(s) && ExposedSend(s, a) && (a.corr in s.sh.waiters || Broke(s, a.corr))
    ensures var s' := Run(Step(s, a), run); Broke(s', a.corr) && SentTo(s', t, a.corr) && OwnsId(s', t)
  {
    t :| Hands(s, a, t, a.corr);
    HandingKeepsExposure(s, a, t, a.corr);
    SoundStep(s, a);
    run := ExposedOwnerCanBreak(Step(s, a), t, a.corr);
  }

  lemma ExposedOwnerCanBreak(s: State, t: nat, c: nat) returns (run: seq<Action>)
    requires Sound(s) && Exposed(s, c) && (c in s.sh.waiters || Broke(s, c)) && SentTo(s, t, c) && OwnsId(s, t)
    ensures var s' := Run(s, run); Broke(s', c) && SentTo(s', t, c) && OwnsId(s', t)
  {
    run := [];
    if !Broke(s, c) {
      var u :| Owes(s, u, c);
      run := OwedBreaks(s, u, c);
      SameIdAfterPass(s, run, t, c);
    }
  }

  lemma SameIdAfterPass(s: State, run: seq<Action>, t: nat, c: nat)
    requires Sound(s) && SentTo(s, t, c) && SentTo(Run(s, run), t, c) && Run(s, run).sh.inner == s.sh.inner
         && OwnsId(s, t)
    ensures OwnsId(Run(s, run), t)
  {
    AddressedRun(s, run);
    CallKeepsId(s, run, c);
    assert StreamOk(s, t) && StreamOk(Run(s, run), t);
  }

  lemma {:induction false} CallKeepsId(s: State, run: seq<Action>, c: nat)
    requires Consistent(s) && c in s.calls
    ensures c in Run(s, run).calls && Run(s, run).calls[c].id == s.calls[c].id
    decreases |run|
  {
    if run == [] {
    } else {
      CallStep(s, run[0], c);
      ConsistentStep(s, run[0]);
      CallKeepsId(Step(s, run[0]), run[1..], c);
    }
  }

  // Fail passes go by id, not by session

  /** The first session of "a" has left the map but not yet listed its waiters; a second one has taken the id. */
  lemma SuccessorConnects() returns (run: seq<Action>, s: State)
    ensures s == Run(START, run)
    ensures s.sh == Shared(map["a" := NewInstance(2, 1, 1)], 3, 1, map[], map[])
    ensures s.calls == map[] && s.cells == map[] && s.matched == []
    ensures s.readers == map[1 := Reader("a", Collecting(true), [], {}, 0, true),
         2 := Reader("a", Waiting, [], {}, 0, false)]
  {
    run, s := Extend([], Connect("a", 1, 1), START);
    run, s := Extend(run, Advance(1), s);
    run, s := Extend(run, End(1), s);
    run, s := Extend(run, Advance(1), s);
    run, s := Extend(run, Connect("a", 1, 1), s);
    run, s := Extend(run, Advance(2), s);
  }

  lemma SuccessorsCallRegisters() returns (run: seq<Action>, s: State)
    ensures s == Run(START, run)
    ensures s.sh.inner == map["a" := NewInstance(2, 1, 1)]
    ensures s.sh.waiters == map[1 := WaitUiResult] && s.sh.waiterInstance == map[1 := "a"]
    ensures s.calls == map[1 := Call("a", true, WaitUiResult, Inject("home"), Sending)]
    ensures s.cells == map[1 := Cell(WaitUiResult, 0, InTable)]
    ensures s.readers == map[1 := Reader("a", Collecting(true), [], {}, 0, true),
         2 := Reader("a", Waiting, [], {}, 0, false)]
  {
    run, s := SuccessorConnects();
    run, s := Extend(run, Begin("a", true, WaitUiResult, Inject("home")), s);
    run, s := Extend(run, Proceed(1), s);
    run, s := Extend(run, Proceed(1), s);
    run, s := Extend(run, Proceed(1), s);
  }

  lemma SuccessorIsAsked() returns (run: seq<Action>, s: State)
    ensures s == Run(START, run)
    ensures Owns(s.sh, "a", 2) && s.sh.waiters == map[1 := WaitUiResult] && s.sh.waiterInstance == map[1 := "a"]
    ensures 1 in s.calls && s.calls[1] == Call("a", true, WaitUiResult, Inject("home"), Awaiting)
    ensures 1 in s.cells && s.cells[1].place == InTable
    ensures 1 in s.readers && s.readers[1] == Reader("a", Collecting(true), [], {}, 0, true)
    ensures 2 in s.readers && s.readers[2] == Reader("a", Waiting, [], {1}, 0, false)
  {
    run, s := SuccessorsCallRegisters();
    run, s := Extend(run, Proceed(1), s);
  }

  lemma LatePassListsSuccessor() returns (run: seq<Action>, s: State)
    ensures s == Run(START, run)
    ensures Owns(s.sh, "a", 2) && s.sh.waiters == map[1 := WaitUiResult]
    ensures 1 in s.calls && s.calls[1] == Call("a", true, WaitUiResult, Inject("home"), Awaiting)
    ensures 1 in s.cells && s.cells[1].place == InTable
    ensures 1 in s.readers && s.readers[1] == Reader("a", Failing({1}, true), [], {}, 0, true)
    ensures 2 in s.readers && s.readers[2].sent == {1}
  {
    run, s := SuccessorIsAsked();
    run, s := Extend(run, Advance(1), s);
    assert s.readers[1].pc == Failing({1}, true);
  }

  /**
   A call can be told that its instance disconnected although the session it was sent to is still the owner: the
   pass of the departed session finds the call under the same id.
   */
  lemma LatePassFailsSuccessor() returns (run: seq<Action>)
    ensures var s := Run(START, run);
            && 1 in s.calls && s.calls[1].phase == Done(Failed(Disconnected))
            && Owns(s.sh, s.calls[1].id, 2) && 2 in s.readers && s.readers[2].sent == {1}
  {
    var s;
    run, s := LatePassListsSuccessor();
    run, s := Extend(run, Fail(1, 1), s);
    run, s := Extend(run, Advance(1), s);
    run, s := Extend(run, Poll(1), s);
  }

  lemma CallRegistersEarly() returns (run: seq<Action>, s: State)
    ensures s == Run(START, run)
    ensures s.sh.inner == map["a" := NewInstance(1, 1, 1)] && s.sh.nextToken == 2
    ensures s.sh.waiters == map[1 := WaitUiResult] && s.sh.waiterInstance == map[1 := "a"]
    ensures 1 in s.calls && s.calls[1] == Call("a", true, WaitUiResult, Inject("home"), Sending)
    ensures 1 in s.cells && s.cells[1].place == InTable
    ensures s.readers == map[1 := Reader("a", Waiting, [], {}, 0, false)]
  {
    run, s := Extend([], Connect("a", 1, 1), START);
    run, s := Extend(run, Advance(1), s);
    run, s := Extend(run, Begin("a", true, WaitUiResult, Inject("home")), s);
    run, s := Extend(run, Proceed(1), s);
    run, s := Extend(run, Proceed(1), s);
    run, s := Extend(run, Proceed(1), s);
  }

  lemma FirstSessionListsCall() returns (run: seq<Action>, s: State)
    ensures s == Run(START, run)
    ensures s.sh.inner == map[] && s.sh.nextToken == 2 && s.sh.waiters == map[1 := WaitUiResult]
    ensures 1 in s.calls && s.calls[1] == Call("a", true, WaitUiResult, Inject("home"), Sending)
    ensures 1 in s.cells && s.cells[1].place == InTable
    ensures s.readers == map[1 := Reader("a", Failing({1}, true), [], {}, 0, true)]
  {
    run, s := CallRegistersEarly();
    run, s := Extend(run, End(1), s);
    run, s := Extend(run, Advance(1), s);
    run, s := Extend(run, Advance(1), s);
    assert s.readers[1].pc == Failing({1}, true);
  }

  /** The pass of the first session has found the call, which has registered but not sent, and has finished. */
  lemma FirstSessionDeparts() returns (run: seq<Action>, s: State)
    ensures s == Run(START, run)
    ensures s.sh.inner == map[] && s.sh.nextToken == 2
    ensures 1 in s.calls && s.calls[1] == Call("a", true, WaitUiResult, Inject("home"), Sending)
    ensures Broke(s, 1)
    ensures s.readers == map[1 := Reader("a", Finished, [], {}, 0, true)]
  {
    run, s := FirstSessionListsCall();
    run, s := Extend(run, Fail(1, 1), s);
    run, s := Extend(run, Advance(1), s);
    assert s.readers[1].pc == Failing({}, true);
    run, s := Extend(run, Advance(1), s);
  }

  lemma SecondSessionTakesOver() returns (run: seq<Action>, s: State)
    ensures s == Run(START, run)
    ensures s.sh.inner == map["a" := NewInstance(2, 1, 1)]
    ensures 1 in s.calls && s.calls[1] == Call("a", true, WaitUiResult, Inject("home"), Sending)
    ensures Broke(s, 1)
    ensures 1 in s.readers && s.readers[1].pc.Finished? && 2 in s.readers && s.readers[2].sent == {}
  {
    run, s := FirstSessionDeparts();
    run, s := Extend(run, Connect("a", 1, 1), s);
    run, s := Extend(run, Advance(2), s);
  }

  /** No pass need overlap the second session: here the first one's has finished before the second connects. */
  lemma FinishedPassFailsSuccessor() returns (run: seq<Action>)
    ensures var s := Run(START, run);
            && 1 in s.calls && s.calls[1].phase == Done(Failed(Disconnected))
            && Owns(s.sh, s.calls[1].id, 2) && 2 in s.readers && s.readers[2].sent == {1}
            && 1 in s.readers && s.readers[1].pc.Finished?
  {
    var s;
    run, s := SecondSessionTakesOver();
    run, s := Extend(run, Proceed(1), s);
    run, s := Extend(run, Poll(1), s);
  }

  // Sheltered in vain

  /** An owner that left by itself, as opposed to one that another session replaced. */
  predicate LeftItself(s: State, t: nat) {
    t in s.readers && s.readers[t].left
  }

  /** A call sent to a session that left is still on some pass's list, or out of the table. */
  ghost predicate Kept(s: State) {
    forall t, c :: SentTo(s, t, c) && LeftItself(s, t) && Waits(s, c) ==> Owed(s, c)
  }

  predicate Waits(s: State, c: nat) {
    c in s.calls && s.calls[c].phase.Awaiting? && c in s.sh.waiters
  }

  /** Outside passes a reader strikes nobody off a list, and off the index only whom it has taken out already. */
  lemma OwedStaysInTurn(s: State, v: nat, c: nat)
    requires Consistent(s) && v in s.readers && Owed(s, c) && c in s.sh.waiters && !InPass(s.readers[v].pc)
    ensures Owed(Advanced(s, v), c)
  {
    CallStep(s, Advance(v), c);
    assert Step(s, Advance(v)) == Advanced(s, v);
    AdvanceSends(s, v);
    if s.readers[v].pc.Unindexing? {
      var u :| Owes(s, u, c);
      UnindexedIsTaken(s, v);
      assert Owes(Unindexed(s, v), u, c);
    } else {
      TurnKeepsIndex(s, v);
      OwedStaysApart(s, Advanced(s, v), c);
    }
  }

  lemma OwedStaysCollecting(s: State, v: nat, u: nat, c: nat)
    requires Consistent(s) && v in s.readers && s.readers[v].pc.Collecting? && Owes(s, u, c) && c in s.sh.waiters
    ensures Owes(Collected(s, v), u, c)
  {
    assert CellOk(s, c);
  }

  lemma OwedStaysFailing(s: State, v: nat, u: nat, c: nat)
    requires v in s.readers && s.readers[v].pc.Failing? && Owes(s, u, c)
    ensures Owes(Ended(s, v), u, c)
  {
  }

  lemma OwedStaysTaking(s: State, v: nat, u: nat, c: nat)
    requires v in s.readers && s.readers[v].pc.Taking? && Owes(s, u, c) && c in Taken(s, v).sh.waiters
    ensures Owes(Taken(s, v), u, c)
  {
  }

  lemma OwedStaysInPass(s: State, v: nat, c: nat)
    requires Consistent(s) && v in s.readers && Owed(s, c) && Waits(s, c) && Waits(Advanced(s, v), c)
    ensures Owed(Advanced(s, v), c)
  {
    var s' := Advanced(s, v);
    var u :| Owes(s, u, c);
    match s.readers[v].pc
    case Collecting(_) => OwedStaysCollecting(s, v, u, c);
    case Failing(_, _) => OwedStaysFailing(s, v, u, c);
    case Taking(_, _, _) => OwedStaysTaking(s, v, u, c);
    case _ => OwedStaysInTurn(s, v, c);
  }

  lemma UnindexedIsTaken(s: State, v: nat)
    requires Consistent(s) && v in s.readers && s.readers[v].pc.Unindexing?
    ensures s.readers[v].pc.msg.corr !in s.sh.waiters
  {
    assert TaskOk(s, v);
    assert CellOk(s, s.readers[v].pc.msg.corr);
  }

  lemma OwedStaysByFail(s: State, v: nat, d: nat, c: nat)
    requires v in s.readers && s.readers[v].pc.Failing? && d in s.readers[v].pc.corrs && c in s.calls && Owed(s, c)
    ensures Owed(Picked(s, v, d), c)
  {
    var u :| Owes(s, u, c);
    assert Owes(Picked(s, v, d), if d == c then v else u, c);
  }

  lemma OwedStaysByCall(s: State, d: nat, c: nat)
    requires d in s.calls && Owed(s, c) && Waits(s, c) && c in Proceeded(s, d).calls
    ensures Owed(Proceeded(s, d), c)
  {
    var u :| Owes(s, u, c);
    var s' := Proceeded(s, d);
    match s.calls[d].phase
    case Sending => assert s' == Dispatched(s, d) && Owes(s', u, c);
    case Registering => assert s' == Registered(s, d) && Owes(s', u, c);
    case TakingWaiter(_) => assert s' == Dropping(s, d) && Owes(s', u, c);
    case _ => assert Owes(s', u, c);
  }

  /** Steps that leave readers' passes and the index of waiters alone. */
  lemma OwedStaysApart(s: State, s': State, c: nat)
    requires Owed(s, c) && c in s'.calls && s'.calls[c].id == s.calls[c].id
    requires s'.sh.waiterInstance == s.sh.waiterInstance
    requires forall u :: u in s.readers ==> u in s'.readers && s'.readers[u].id == s.readers[u].id
    requires forall u :: u in s.readers && InPass(s.readers[u].pc) ==> s'.readers[u].pc == s.readers[u].pc
    ensures Owed(s', c)
  {
    var u :| Owes(s, u, c);
    assert Owes(s', u, c);
  }

  lemma ConnectKeepsPasses(s: State, id: string, inboundCap: nat, outboundCap: nat, c: nat)
    requires Consistent(s) && Owed(s, c) && IsValidInstanceId(id)
    ensures Owed(Connected(s, id, inboundCap, outboundCap), c)
  {
    assert s.sh.nextToken in s.readers ==> TaskOk(s, s.sh.nextToken);
    OwedStaysApart(s, Connected(s, id, inboundCap, outboundCap), c);
  }

  lemma OwedStaysOutside(s: State, a: Action, c: nat)
    requires Consistent(s) && Owed(s, c) && (a.Connect? || a.Begin? || TouchesMapOnly(a))
    ensures Owed(Step(s, a), c)
  {
    match a
    case Connect(id, inboundCap, outboundCap) =>
      if IsValidInstanceId(id) {
        ConnectKeepsPasses(s, id, inboundCap, outboundCap, c);
      }
    case Begin(id, waits, kind, command) =>
      NumberIsFresh(s);
      OwedStaysApart(s, Begun(s, id, waits, kind, command), c);
    case _ =>
      MapStepsAreQuiet(s, a);
      OwedStaysApart(s, Step(s, a), c);
  }

  lemma OwedStaysWaiting(s: State, a: Action, c: nat)
    requires Owed(s, c) && (a.Arrive? || a.End? || a.Poll? || a.Expire?)
    ensures Owed(Step(s, a), c)
  {
    match a
    case Arrive(t, item) =>
      if t in s.readers && s.readers[t].pc.Waiting? {
        OwedStaysApart(s, At(s, t, Checking(item)), c);
      }
    case End(t) =>
      if t in s.readers && s.readers[t].pc.Waiting? {
        OwedStaysApart(s, At(s, t, Leaving(true)), c);
      }
    case Poll(d) =>
      if d in s.calls {
        OwedStaysApart(s, In(s, d, PollResult(s, d)), c);
      }
    case Expire(d) =>
      if d in s.calls {
        OwedStaysApart(s, In(s, d, TakingIndex(TimedOut)), c);
      }
  }

  lemma OwedStays(s: State, a: Action, c: nat)
    requires Consistent(s) && Owed(s, c) && Waits(s, c) && Waits(Step(s, a), c)
    ensures Owed(Step(s, a), c)
  {
    match a
    case Advance(v) =>
      if v in s.readers {
        OwedStaysInPass(s, v, c);
      }
    case Fail(v, d) =>
      if v in s.readers && s.readers[v].pc.Failing? && d in s.readers[v].pc.corrs {
        OwedStaysByFail(s, v, d, c);
      }
    case Proceed(d) =>
      if d in s.calls {
        OwedStaysByCall(s, d, c);
      }
    case _ =>
      if a.Connect? || a.Begin? || TouchesMapOnly(a) {
        OwedStaysOutside(s, a, c);
      } else {
        OwedStaysWaiting(s, a, c);
      }
  }

  lemma LeftAppears(s: State, a: Action, t: nat)
    requires t in s.readers && t < s.sh.nextToken && LeftItself(Step(s, a), t)
    ensures LeftItself(s, t) || Departs(s, a, t)
  {
    if a.Advance? && a.token in s.readers {
      AdvanceSends(s, a.token);
      if t == a.token {
        AdvanceLeaves(s, t);
      }
    } else if !Notable(s, a) {
      PlainStep(s, a);
    }
  }

  lemma AdvanceLeaves(s: State, u: nat)
    requires u in s.readers && LeftItself(Advanced(s, u), u)
    ensures LeftItself(s, u) || Departs(s, Advance(u), u)
  {
    if !Notable(s, Advance(u)) {
      PlainReaderStep(s, u);
    } else {
      match s.readers[u].pc
      case Inserting(_, _) => assert Advanced(s, u) == Inserted(s, u);
      case Checking(_) => assert Advanced(s, u) == Checked(s, u);
      case Beating(_, _) => assert Advanced(s, u) == Recorded(s, u);
      case Pushing(_) => assert Advanced(s, u) == Delivering(s, u);
      case Leaving(_) => assert Advanced(s, u) == Removed(s, u);
    }
  }

  lemma DepartureOwes(s: State, a: Action, t: nat, c: nat)
    requires Departs(s, a, t) && c in s.calls && s.calls[c].id == s.readers[t].id && Findable(s, c)
    ensures Owed(Step(s, a), c)
  {
    var s' := Step(s, a);
    assert s' == Removed(s, t);
    if c in s.sh.waiterInstance {
      assert Owes(s', t, c);
    } else {
      var u :| TakesNext(s, u, c);
      assert Owes(s', u, c);
    }
  }

  lemma AwaitingWaits(s: State, a: Action, c: nat)
    requires Consistent(s) && c in s.calls && Waits(Step(s, a), c)
    ensures s.calls[c].waits
  {
    CallStep(s, a, c);
    ConsistentStep(s, a);
    assert CallOk(Step(s, a), c);
  }

  lemma TableWasJoined(s: State, s': State, c: nat)
    requires Consistent(s) && Consistent(s') && CellsEvolve(s, s') && c in s.cells && c in s'.sh.waiters
    ensures c in s.sh.waiters
  {
    assert CellOk(s, c) && CellOk(s', c);
  }

  lemma WaitsAppears(s: State, a: Action, c: nat)
    requires Consistent(s) && c in s.calls && s.calls[c].waits && Asked(s.calls[c].phase) && Waits(Step(s, a), c)
    ensures Waits(s, c)
  {
    CallStep(s, a, c);
    assert CallOk(s, c);
    CellsEvolveStep(s, a);
    ConsistentStep(s, a);
    TableWasJoined(s, Step(s, a), c);
  }

  lemma KeptStep(s: State, a: Action)
    requires Sound(s) && NoneStranded(s) && Kept(s)
    ensures Kept(Step(s, a))
  {
    var s' := Step(s, a);
    forall t, c | SentTo(s', t, c) && LeftItself(s', t) && Waits(s', c)
      ensures Owed(s', c)
    {
      SentToStep(s, a, t, c);
      if Hands(s, a, t, c) {
        HandedNotLeft(s, a, t, c);
      } else {
        assert StreamOk(s, t) && TokenOk(s, t);
        assert s.calls[c].waits by {
          AwaitingWaits(s, a, c);
        }
        WaitsAppears(s, a, c);
        LeftAppears(s, a, t);
        if Departs(s, a, t) {
          assert SafeCall(s, c);
          DepartureOwes(s, a, t, c);
        } else {
          OwedStays(s, a, c);
        }
      }
    }
  }

  lemma HandedNotLeft(s: State, a: Action, t: nat, c: nat)
    requires Sound(s) && Hands(s, a, t, c)
    ensures !LeftItself(Step(s, a), t)
  {
    HandedIsAsked(s, a, t, c);
    assert TokenOk(s, t) && Step(s, a) == Dispatched(s, c);
  }

  lemma {:induction false} KeptRun(s: State, run: seq<Action>)
    requires Sound(s) && NoneStranded(s) && Kept(s)
    ensures Sound(Run(s, run)) && NoneStranded(Run(s, run)) && Kept(Run(s, run))
    decreases |run|
  {
    if run == [] {
    } else {
      KeptStep(s, run[0]);
      SoundStep(s, run[0]);
      NoneStrandedStep(s, run[0]);
      KeptRun(Step(s, run[0]), run[1..]);
    }
  }

  /**
   The fate of a pending call by the session it was sent to: that session still owns its id, or the call is on a
   pass's list, or its reply is on the way, or the session was replaced.
   */
  lemma PendingBySession(run: seq<Action>, t: nat, c: nat)
    requires Pending(Run(START, run), c) && SentTo(Run(START, run), t, c)
    ensures var s := Run(START, run);
            || OwnsId(s, t) || Owed(s, c) || (exists u :: Replies(s, u, c))
            || (Lost(s, t) && !LeftItself(s, t))
  {
    KeptRun(START, run);
    var s := Run(START, run);
    assert CallOk(s, c) && CellOk(s, c) && StreamOk(s, t);
    if c !in s.sh.waiters {
      assert Replies(s, s.cells[c].place.holder, c);
    }
  }

  // The step that takes a call's protection away

  /** A call still in the table was sent to a session that owns its id, or is on a pass's list. */
  ghost predicate Guarded(s: State) {
    forall t, c :: SentTo(s, t, c) && Waits(s, c) ==> OwnsId(s, t) || Owed(s, c)
  }

  /** Session `t` is the one that stands by call `c`: the owner, and no pass has the call on its list. */
  ghost predicate StandsBy(s: State, t: nat, c: nat) {
    SentTo(s, t, c) && Waits(s, c) && OwnsId(s, t) && !Owed(s, c)
  }

  /** The insertion of a reader over a session that a call in the table relies on. */
  ghost predicate Usurps(s: State, a: Action) {
    && a.Advance? && a.token in s.readers && s.readers[a.token].pc.Inserting?
    && exists t, c :: StandsBy(s, t, c) && s.readers[t].id == s.readers[a.token].id
  }

  lemma OwnerAdvances(s: State, u: nat, t: nat)
    requires u in s.readers && t in s.readers && OwnsId(s, t) && Notable(s, Advance(u)) && t in Advanced(s, u).readers
    ensures || OwnsId(Advanced(s, u), t)
            || Departs(s, Advance(u), t)
            || Enters(s, Advance(u), u, s.readers[t].id)
  {
    match s.readers[u].pc
    case Inserting(_, _) => assert Advanced(s, u) == Inserted(s, u);
    case Leaving(_) => assert Advanced(s, u) == Removed(s, u);
    case _ => NotableReaderStep(s, u);
  }

  lemma PlainKeepsOwner(s: State, a: Action, t: nat)
    requires t in s.readers && OwnsId(s, t) && !Notable(s, a)
    ensures t in Step(s, a).readers && OwnsId(Step(s, a), t)
  {
    PlainStep(s, a);
  }

  /** An owner loses its id only by its own departure or by an insertion over it. */
  lemma IdIsLost(s: State, a: Action, t: nat)
    requires Registry(s) && t in s.readers && OwnsId(s, t) && t in Step(s, a).readers
    ensures || OwnsId(Step(s, a), t)
            || Departs(s, a, t)
            || (a.Advance? && Enters(s, a, a.token, s.readers[t].id))
  {
    assert TokenOk(s, t);
    if !Notable(s, a) {
      PlainKeepsOwner(s, a, t);
    } else if a.Advance? {
      OwnerAdvances(s, a.token, t);
    } else {
      assert Step(s, a).sh.inner == s.sh.inner;
    }
  }

  lemma UsurpingStrips(s: State, a: Action)
    requires Sound(s) && Usurps(s, a)
    ensures !Guarded(Step(s, a))
  {
    var t, c :| StandsBy(s, t, c) && s.readers[t].id == s.readers[a.token].id;
    var s' := Step(s, a);
    assert StreamOk(s, t) && s' == Inserted(s, a.token);
    SentToStep(s, a, t, c);
    assert Waits(s', c) && !OwnsId(s', t);
    forall u | Owes(s', u, c)
      ensures Owes(s, u, c)
    {
      OwesAppears(s, a, u, c);
    }
  }

  lemma StaysGuarded(s: State, a: Action, t: nat, c: nat)
    requires Sound(s) && NoneStranded(s) && Guarded(s) && !Usurps(s, a)
    requires SentTo(s, t, c) && Waits(Step(s, a), c) && t in Step(s, a).readers
    ensures OwnsId(Step(s, a), t) || Owed(Step(s, a), c)
  {
    assert StreamOk(s, t);
    AwaitingWaits(s, a, c);
    WaitsAppears(s, a, c);
    if Owed(s, c) {
      OwedStays(s, a, c);
    } else if !OwnsId(Step(s, a), t) {
      IdIsLost(s, a, t);
      if Departs(s, a, t) {
        assert SafeCall(s, c);
        DepartureOwes(s, a, t, c);
      } else {
        assert StandsBy(s, t, c);
      }
    }
  }

  /** Exactly the usurping insertions leave a call without a session or a pass that stands by it. */
  lemma OnlyUsurpingAbandons(s: State, a: Action)
    requires Sound(s) && NoneStranded(s) && Guarded(s)
    ensures Guarded(Step(s, a)) <==> !Usurps(s, a)
  {
    var s' := Step(s, a);
    if Usurps(s, a) {
      UsurpingStrips(s, a);
    } else {
      forall t, c | SentTo(s', t, c) && Waits(s', c)
        ensures OwnsId(s', t) || Owed(s', c)
      {
        SentToStep(s, a, t, c);
        if Hands(s, a, t, c) {
          HandingKeepsExposure(s, a, t, c);
        } else {
          StaysGuarded(s, a, t, c);
        }
      }
    }
  }

  ghost predicate Unusurped(s: State, run: seq<Action>)
    decreases |run|
  {
    run == [] || (!Usurps(s, run[0]) && Unusurped(Step(s, run[0]), run[1..]))
  }

  lemma {:induction false} GuardedRun(s: State, run: seq<Action>)
    requires Sound(s) && NoneStranded(s) && Guarded(s) && Unusurped(s, run)
    ensures Sound(Run(s, run)) && NoneStranded(Run(s, run)) && Guarded(Run(s, run))
    decreases |run|
  {
    if run == [] {
    } else {
      OnlyUsurpingAbandons(s, run[0]);
      SoundStep(s, run[0]);
      NoneStrandedStep(s, run[0]);
      GuardedRun(Step(s, run[0]), run[1..]);
    }
  }

  /**
   Over every run without usurping insertions, by session: a pending call's own session still owns its id, or a pass
   has the call on its list, or its reply is on the way.
   */
  lemma PendingIsGuarded(run: seq<Action>, t: nat, c: nat)
    requires Unusurped(START, run) && Pending(Run(START, run), c) && SentTo(Run(START, run), t, c)
    ensures var s := Run(START, run); OwnsId(s, t) || Owed(s, c) || exists u :: Replies(s, u, c)
  {
    GuardedRun(START, run);
    var s := Run(START, run);
    assert CallOk(s, c) && CellOk(s, c);
    if c !in s.sh.waiters {
      assert Replies(s, s.cells[c].place.holder, c);
    }
  }

  lemma CallIsSent() returns (run: seq<Action>, s: State)
    ensures s == Run(START, run)
    ensures Owns(s.sh, "a", 1) && s.sh.nextToken == 2 && s.sh.waiters == map[1 := WaitUiResult]
    ensures 1 in s.calls && s.calls[1] == Call("a", true, WaitUiResult, Inject("home"), Awaiting)
    ensures 1 in s.cells && s.cells[1].place == InTable
    ensures s.readers.Keys == {1} && s.readers[1] == Reader("a", Waiting, [], {1}, 0, false)
  {
    run, s := CallRegistersEarly();
    run, s := Extend(run, Proceed(1), s);
  }

  /**
   The last case happens: the session a call was sent to has been replaced and is finished, nobody else was sent
   the request, no pass will fail it, and only its timeout remains.
   */
  lemma ReplacedSessionLeavesCallPending() returns (run: seq<Action>)
    ensures var s := Run(START, run);
            && Pending(s, 1) && 1 in s.readers && s.readers[1].pc.Finished? && s.readers[1].sent == {1}
            && Owns(s.sh, s.calls[1].id, 2) && 2 in s.readers && s.readers[2].sent == {}
            && !Owed(s, 1) && forall u :: !Replies(s, u, 1)
  {
    var s;
    run, s := CallIsSent();
    run, s := Extend(run, Connect("a", 1, 1), s);
    run, s := Extend(run, Advance(2), s);
    run, s := Extend(run, End(1), s);
    run, s := Extend(run, Advance(1), s);
    assert s.readers.Keys == {1, 2};
  }
}
