/**
 The index of waiters by instance, the second of the two tables.

 The two tables change in separate sections, so their keys differ at times. Unless a session answers for another, the
 index never outlives its call.
 */
module IndexTable {
  import opened Messages
  import opened Broker
  import opened Protocol
  import opened WaiterTable
  import opened Ownership
  import opened ExactlyOnce
  import opened Footprints
  import opened Addressing
  import opened Isolation

  predicate PastIndexing(phase: Phase) {
    !phase.Getting? && !phase.Registering? && !phase.Indexing?
  }

  /** The phases of a call whose waiter is indexed. */
  predicate Indexable(phase: Phase) {
    phase.Sending? || phase.Awaiting? || phase.TakingIndex?
  }

  /** An indexed waiter is in the table, or its reader is about to strike it off the index. */
  ghost predicate IndexOk(s: State, c: nat) {
    && c in s.calls && c in s.cells
    && Indexable(s.calls[c].phase)
    && var place := s.cells[c].place;
       || place.InTable?
       || (place.Held? && place.holder in s.readers && s.readers[place.holder].pc.Unindexing?)
  }

  predicate Listed(pc: Pc, c: nat) {
    match pc
    case Failing(corrs, _) => c in corrs
    case Taking(corr, corrs, _) => c == corr || c in corrs
    case _ => false
  }

  /** A pass lists indexed waiters only, and has struck off the index the one it takes next. */
  ghost predicate ListOk(s: State, u: nat)
    requires u in s.readers
  {
    && (forall c :: Listed(s.readers[u].pc, c) ==> c in s.calls && PastIndexing(s.calls[c].phase))
    && (s.readers[u].pc.Taking? ==> s.readers[u].pc.corr !in s.sh.waiterInstance)
  }

  ghost predicate TableOk(s: State, c: nat)
    requires c in s.calls
  {
    s.calls[c].phase.Indexing? ==> c in s.cells && s.cells[c].place.InTable?
  }

  ghost predicate Fitted(s: State) {
    && (forall c :: c in s.sh.waiterInstance ==> IndexOk(s, c))
    && (forall u :: u in s.readers ==> ListOk(s, u))
    && (forall c :: c in s.calls ==> TableOk(s, c))
  }

  ghost predicate Whole(s: State) {
    Sound(s) && Truthful(s) && Answered(s) && Fitted(s)
  }

  // How a channel leaves the table

  /** Reader `t` breaks the channel of `c` in its next section. */
  predicate Breaks(s: State, t: nat, c: nat) {
    t in s.readers && s.readers[t].pc.Taking? && s.readers[t].pc.corr == c
  }

  lemma ReaderMovesChannel(s: State, u: nat, c: nat)
    requires u in s.readers && c in s.cells && s.cells[c].place.InTable? && c in Advanced(s, u).cells
    requires MovesCell(s, Advance(u)) && Consistent(s)
    ensures || Advanced(s, u).cells[c].place.InTable?
            || (Answers(s, u, c) && Advanced(s, u).cells[c].place == Held(u, |s.matched|))
            || Breaks(s, u, c)
  {
    match s.readers[u].pc
    case Matching(_) => assert Advanced(s, u) == Matched(s, u);
    case Replying(_) => assert Advanced(s, u) == Replied(s, u);
    case Taking(_, _, _) => assert Advanced(s, u) == Taken(s, u);
  }

  lemma CallMovesChannel(s: State, d: nat, c: nat)
    requires d in s.calls && c in s.cells && s.cells[c].place.InTable? && c in Proceeded(s, d).cells
    requires MovesCell(s, Proceed(d))
    ensures Proceeded(s, d).cells[c].place.InTable? || (d == c && s.calls[c].phase.TakingWaiter?)
  {
    match s.calls[d].phase
    case Registering => assert Proceeded(s, d) == Registered(s, d);
    case TakingWaiter(_) => assert Proceeded(s, d) == Dropping(s, d);
  }

  /** A channel leaves the table by a completing look-up, by a pass, or by its own call giving up. */
  lemma ChannelMoves(s: State, a: Action, c: nat)
    requires Consistent(s) && c in s.cells && s.cells[c].place.InTable?
    ensures c in Step(s, a).cells
    ensures || Step(s, a).cells[c].place.InTable?
            || (a.Advance? && Answers(s, a.token, c) && Step(s, a).cells[c].place == Held(a.token, |s.matched|))
            || (a.Advance? && Breaks(s, a.token, c))
            || (a == Proceed(c) && c in s.calls && s.calls[c].phase.TakingWaiter?)
  {
    CellsEvolveStep(s, a);
    if !MovesCell(s, a) {
      OthersLeaveCells(s, a);
    } else if a.Advance? {
      ReaderMovesChannel(s, a.token, c);
    } else {
      CallMovesChannel(s, a.corr, c);
    }
  }

  /**
   Without meddling, an indexed or indexing waiter is still in the table, or on its way to a caller that has asked.
   */
  lemma ChannelStays(s: State, a: Action, c: nat)
    requires Whole(s) && !Meddles(s, a) && c in s.calls && c in s.cells && s.cells[c].place.InTable?
    requires s.calls[c].phase.Indexing? || c in s.sh.waiterInstance
    ensures c in Step(s, a).cells
    ensures || Step(s, a).cells[c].place.InTable?
            || (a.Advance? && Answers(s, a.token, c) && Asked(s.calls[c].phase) &&
                Step(s, a).cells[c].place == Held(a.token, |s.matched|))
  {
    ChannelMoves(s, a, c);
    if a.Advance? && a.token in s.readers {
      var pc := s.readers[a.token].pc;
      assert pc.Taking? ==> Listed(pc, pc.corr);
      assert ListOk(s, a.token) && StreamOk(s, a.token);
    }
    assert TableOk(s, c) && (c in s.sh.waiterInstance ==> IndexOk(s, c));
  }

  // Phases and readers

  lemma PhaseBefore(s: State, a: Action, c: nat)
    requires Consistent(s) && c in Step(s, a).calls
    ensures c in s.calls ==>
              && (PastIndexing(s.calls[c].phase) ==> PastIndexing(Step(s, a).calls[c].phase))
              && (Step(s, a).calls[c].phase.Indexing? ==>
                    s.calls[c].phase.Indexing? || (a == Proceed(c) && s.calls[c].phase.Registering?))
    ensures c !in s.calls ==> a.Begin? && !Step(s, a).calls[c].phase.Indexing?
  {
    if !MovesCall(s, a) {
      OthersLeaveCalls(s, a);
    } else if a.Begin? {
      NumberIsFresh(s);
    } else if a.Proceed? {
      ProceedPhase(s, a.corr, c);
    }
  }

  lemma ProceedPhase(s: State, d: nat, c: nat)
    requires d in s.calls && c in Proceeded(s, d).calls
    ensures c in s.calls
    ensures PastIndexing(s.calls[c].phase) ==> PastIndexing(Proceeded(s, d).calls[c].phase)
    ensures Proceeded(s, d).calls[c].phase.Indexing? ==>
              (c != d && s.calls[c].phase.Indexing?) || (c == d && s.calls[c].phase.Registering?)
  {
    match s.calls[d].phase
    case Sending => assert Proceeded(s, d) == Dispatched(s, d);
    case Registering => assert Proceeded(s, d) == Registered(s, d);
    case TakingWaiter(_) => assert Proceeded(s, d) == Dropping(s, d);
    case _ =>
  }

  lemma TableOkStep(s: State, a: Action, c: nat)
    requires Whole(s) && !Meddles(s, a) && c in Step(s, a).calls
    ensures TableOk(Step(s, a), c)
  {
    PhaseBefore(s, a, c);
    if Step(s, a).calls[c].phase.Indexing? {
      if s.calls[c].phase.Indexing? {
        assert TableOk(s, c);
        ChannelStays(s, a, c);
      } else {
        assert Step(s, a) == Registered(s, c);
      }
    }
  }

  // The index

  lemma AdvanceIndex(s: State, u: nat)
    requires u in s.readers
    ensures Advanced(s, u).sh.waiterInstance.Keys <= s.sh.waiterInstance.Keys
    ensures s.readers[u].pc.Unindexing? ==> s.readers[u].pc.msg.corr !in Advanced(s, u).sh.waiterInstance
  {
    match s.readers[u].pc
    case Inserting(_, _) => assert Advanced(s, u) == Inserted(s, u);
    case Waiting =>
    case Checking(_) => assert Advanced(s, u) == Checked(s, u);
    case Beating(_, _) => assert Advanced(s, u) == Recorded(s, u);
    case Matching(_) => assert Advanced(s, u) == Matched(s, u);
    case Unindexing(_) => assert Advanced(s, u) == Unindexed(s, u);
    case Replying(_) => assert Advanced(s, u) == Replied(s, u);
    case Pushing(_) => assert Advanced(s, u) == Delivering(s, u);
    case Leaving(_) => assert Advanced(s, u) == Removed(s, u);
    case Collecting(_) => assert Advanced(s, u) == Collected(s, u);
    case Failing(_, _) => assert Advanced(s, u) == Ended(s, u);
    case Taking(_, _, _) => assert Advanced(s, u) == Taken(s, u);
    case Finished =>
  }

  lemma ProceedIndex(s: State, d: nat, c: nat)
    requires d in s.calls && c in Proceeded(s, d).sh.waiterInstance
    ensures c in s.sh.waiterInstance || (c == d && s.calls[d].phase.Indexing?)
    ensures c == d ==> !s.calls[d].phase.TakingIndex?
  {
    match s.calls[d].phase
    case Sending => assert Proceeded(s, d) == Dispatched(s, d);
    case Registering => assert Proceeded(s, d) == Registered(s, d);
    case TakingWaiter(_) => assert Proceeded(s, d) == Dropping(s, d);
    case _ =>
  }

  lemma IndexBefore(s: State, a: Action, c: nat)
    requires c in Step(s, a).sh.waiterInstance
    ensures c in s.sh.waiterInstance || (a == Proceed(c) && c in s.calls && s.calls[c].phase.Indexing?)
    ensures a == Proceed(c) && c in s.calls ==> !s.calls[c].phase.TakingIndex?
    ensures a.Advance? && a.token in s.readers && s.readers[a.token].pc.Unindexing? ==>
         s.readers[a.token].pc.msg.corr != c
  {
    if a.Advance? && a.token in s.readers {
      AdvanceIndex(s, a.token);
    } else if a.Proceed? && a.corr in s.calls {
      ProceedIndex(s, a.corr, c);
    }
  }

  /** An indexed call goes on waiting: nothing to poll, and its own steps keep to the phases of an indexed call. */
  lemma IndexedPhase(s: State, a: Action, c: nat)
    requires Consistent(s) && c in s.calls && s.calls[c].waits && Indexable(s.calls[c].phase)
    requires c in s.cells && (s.cells[c].place.InTable? || s.cells[c].place.Held?)
    requires c in Step(s, a).sh.waiterInstance && c in Step(s, a).calls
    ensures Indexable(Step(s, a).calls[c].phase)
  {
    if !MovesCall(s, a) {
      OthersLeaveCalls(s, a);
    } else if a.Begin? {
      BegunElsewhere(s, a, c);
    } else if a.Proceed? {
      assert Step(s, a) == Proceeded(s, a.corr);
      StaysIndexed(s, a.corr, c);
    } else {
      IndexedWaits(s, a, c);
    }
  }

  lemma StaysIndexed(s: State, d: nat, c: nat)
    requires c in s.calls && s.calls[c].waits && Indexable(s.calls[c].phase) && d in s.calls
    requires c in Proceeded(s, d).sh.waiterInstance && c in Proceeded(s, d).calls
    ensures Indexable(Proceeded(s, d).calls[c].phase)
  {
    ProceedIndex(s, d, c);
    IndexedProceeds(s, d, c);
  }

  lemma BegunElsewhere(s: State, a: Action, c: nat)
    requires Consistent(s) && a.Begin? && c in s.calls
    ensures c in Step(s, a).calls && Step(s, a).calls[c] == s.calls[c]
  {
    NumberIsFresh(s);
  }

  lemma IndexedWaits(s: State, a: Action, c: nat)
    requires (a.Poll? || a.Expire?) && c in s.calls && c in s.cells && c in Step(s, a).calls
    requires s.cells[c].place.InTable? || s.cells[c].place.Held?
    requires Indexable(s.calls[c].phase)
    ensures Indexable(Step(s, a).calls[c].phase)
  {
    assert PollResult(s, c).Awaiting?;
    if a.corr != c {
      assert Step(s, a).calls[c] == s.calls[c];
    }
  }

  lemma IndexedProceeds(s: State, d: nat, c: nat)
    requires d in s.calls && c in s.calls && s.calls[c].waits && c in Proceeded(s, d).calls
    requires s.calls[c].phase.Sending? || s.calls[c].phase.Awaiting? || (s.calls[c].phase.TakingIndex? && c != d)
    ensures Indexable(Proceeded(s, d).calls[c].phase)
  {
    match s.calls[d].phase
    case Sending => assert Proceeded(s, d) == Dispatched(s, d);
    case Registering => assert Proceeded(s, d) == Registered(s, d);
    case TakingWaiter(_) => assert Proceeded(s, d) == Dropping(s, d);
    case _ =>
  }

  lemma ReaderKeepsHeld(s: State, u: nat, c: nat)
    requires Consistent(s) && MovesCell(s, Advance(u)) && c in s.cells && c in Advanced(s, u).cells
    requires s.cells[c].place.Held? && s.cells[c].place.holder in s.readers
    requires s.readers[s.cells[c].place.holder].pc.Unindexing?
    ensures Advanced(s, u).cells[c].place == s.cells[c].place
  {
    assert CellOk(s, c) && TaskOk(s, u);
    match s.readers[u].pc
    case Matching(_) => assert Advanced(s, u) == Matched(s, u);
    case Replying(_) => assert Advanced(s, u) == Replied(s, u);
    case Taking(_, _, _) => assert Advanced(s, u) == Taken(s, u);
  }

  lemma CallKeepsHeld(s: State, d: nat, c: nat)
    requires Consistent(s) && MovesCell(s, Proceed(d)) && c in s.cells && c in Proceeded(s, d).cells
    requires s.cells[c].place.Held?
    ensures Proceeded(s, d).cells[c].place == s.cells[c].place
  {
    assert CellOk(s, c);
    match s.calls[d].phase
    case Registering => assert Proceeded(s, d) == Registered(s, d);
    case TakingWaiter(_) => assert Proceeded(s, d) == Dropping(s, d);
  }

  /** A reader that is about to strike its waiter off the index does nothing else first, and keeps the channel. */
  lemma HeldStays(s: State, a: Action, c: nat)
    requires Consistent(s) && c in s.cells && s.cells[c].place.Held?
    requires s.cells[c].place.holder in s.readers && s.readers[s.cells[c].place.holder].pc.Unindexing?
    requires a != Advance(s.cells[c].place.holder)
    ensures c in Step(s, a).cells && Step(s, a).cells[c].place == s.cells[c].place
    ensures var t := s.cells[c].place.holder; t in Step(s, a).readers && Step(s, a).readers[t].pc.Unindexing?
  {
    var t := s.cells[c].place.holder;
    CellsEvolveStep(s, a);
    PcStays(s, a, t);
    if !MovesCell(s, a) {
      OthersLeaveCells(s, a);
    } else if a.Advance? {
      ReaderKeepsHeld(s, a.token, c);
    } else {
      CallKeepsHeld(s, a.corr, c);
    }
  }

  lemma PcStays(s: State, a: Action, t: nat)
    requires Consistent(s) && t in s.readers && s.readers[t].pc.Unindexing? && a != Advance(t)
    ensures t in Step(s, a).readers && Step(s, a).readers[t].pc == s.readers[t].pc
  {
    assert TaskOk(s, t);
    match a
    case Advance(u) =>
      if u in s.readers {
        AdvanceSends(s, u);
      }
    case Proceed(c) =>
      if c in s.calls {
        ProceedKeepsPcs(s, c, t);
      }
    case _ => PcStaysElsewhere(s, a, t);
  }

  lemma PcStaysElsewhere(s: State, a: Action, t: nat)
    requires t in s.readers && t < s.sh.nextToken && s.readers[t].pc.Unindexing? && !a.Advance? && !a.Proceed?
    ensures t in Step(s, a).readers && Step(s, a).readers[t].pc == s.readers[t].pc
  {
    if a.Connect? {
    } else if a.Fail? {
    } else {
      assert t in Step(s, a).readers;
    }
  }

  lemma ProceedKeepsPcs(s: State, c: nat, t: nat)
    requires c in s.calls && t in s.readers
    ensures t in Proceeded(s, c).readers && Proceeded(s, c).readers[t].pc == s.readers[t].pc
  {
    match s.calls[c].phase
    case Sending => assert Proceeded(s, c) == Dispatched(s, c);
    case Registering => assert Proceeded(s, c) == Registered(s, c);
    case TakingWaiter(_) => assert Proceeded(s, c) == Dropping(s, c);
    case _ =>
  }

  /** The look-up that takes the channel out leaves its reader about to strike the waiter off the index. */
  lemma LookupThenUnindexes(s: State, a: Action, c: nat)
    requires a.Advance? && Answers(s, a.token, c)
    ensures a.token in Step(s, a).readers && Step(s, a).readers[a.token].pc.Unindexing?
  {
    assert Step(s, a) == Matched(s, a.token);
  }

  lemma OldIndexOk(s: State, a: Action, c: nat)
    requires Whole(s) && !Meddles(s, a) && c in s.sh.waiterInstance && c in Step(s, a).sh.waiterInstance
    ensures IndexOk(Step(s, a), c)
  {
    assert IndexOk(s, c) && CellOk(s, c);
    CallStep(s, a, c);
    IndexedPhase(s, a, c);
    if s.cells[c].place.InTable? {
      ChannelStays(s, a, c);
      if a.Advance? && Answers(s, a.token, c) {
        LookupThenUnindexes(s, a, c);
      }
    } else {
      IndexBefore(s, a, c);
      assert TaskOk(s, s.cells[c].place.holder);
      HeldStays(s, a, c);
    }
  }

  lemma NewIndexOk(s: State, c: nat)
    requires Whole(s) && c in s.calls && s.calls[c].phase.Indexing?
    ensures IndexOk(Step(s, Proceed(c)), c)
  {
    assert TableOk(s, c);
    assert Step(s, Proceed(c)) == In(s, c, Sending).(sh := IndexWaiter(s.sh, c, s.calls[c].id));
  }

  // The lists

  lemma PassLists(s: State, v: nat, c: nat)
    requires v in s.readers && v in Advanced(s, v).readers
    requires var pc := s.readers[v].pc; pc.Collecting? || pc.Failing? || pc.Taking?
    ensures Listed(Advanced(s, v).readers[v].pc, c) ==> Listed(s.readers[v].pc, c) || c in s.sh.waiterInstance
    ensures !Advanced(s, v).readers[v].pc.Taking?
  {
    match s.readers[v].pc
    case Collecting(_) => assert Advanced(s, v) == Collected(s, v);
    case Failing(_, _) => assert Advanced(s, v) == Ended(s, v);
    case Taking(_, _, _) => assert Advanced(s, v) == Taken(s, v);
  }

  lemma AdvanceLists(s: State, v: nat, c: nat)
    requires v in s.readers && v in Advanced(s, v).readers
    ensures Listed(Advanced(s, v).readers[v].pc, c) ==> Listed(s.readers[v].pc, c) || c in s.sh.waiterInstance
    ensures !Advanced(s, v).readers[v].pc.Taking?
  {
    match s.readers[v].pc
    case Inserting(_, _) => assert Advanced(s, v) == Inserted(s, v);
    case Waiting =>
    case Checking(_) => assert Advanced(s, v) == Checked(s, v);
    case Beating(_, _) => assert Advanced(s, v) == Recorded(s, v);
    case Matching(_) => assert Advanced(s, v) == Matched(s, v);
    case Unindexing(_) => assert Advanced(s, v) == Unindexed(s, v);
    case Replying(_) => assert Advanced(s, v) == Replied(s, v);
    case Pushing(_) => assert Advanced(s, v) == Delivering(s, v);
    case Leaving(_) => assert Advanced(s, v) == Removed(s, v);
    case Finished =>
    case _ => PassLists(s, v, c);
  }

  lemma ListBefore(s: State, a: Action, u: nat, c: nat)
    requires u in Step(s, a).readers && Listed(Step(s, a).readers[u].pc, c) && (u in s.readers ==> u < s.sh.nextToken)
    ensures u in s.readers && (Listed(s.readers[u].pc, c) || c in s.sh.waiterInstance)
  {
    if a.Advance? && a.token in s.readers {
      AdvanceSends(s, a.token);
      if u == a.token {
        AdvanceLists(s, u, c);
      }
    }
  }

  lemma ListOkStep(s: State, a: Action, u: nat)
    requires Whole(s) && u in Step(s, a).readers
    ensures ListOk(Step(s, a), u)
  {
    var s' := Step(s, a);
    assert u in s.readers ==> TokenOk(s, u) && ListOk(s, u);
    forall c | Listed(s'.readers[u].pc, c)
      ensures c in s'.calls && PastIndexing(s'.calls[c].phase)
    {
      ListBefore(s, a, u, c);
      assert c in s.sh.waiterInstance ==> IndexOk(s, c);
      CallStep(s, a, c);
      PhaseBefore(s, a, c);
    }
    if s'.readers[u].pc.Taking? {
      TakingIsUnindexed(s, a, u);
    }
  }

  lemma TakingIsUnindexed(s: State, a: Action, u: nat)
    requires Whole(s) && u in Step(s, a).readers && Step(s, a).readers[u].pc.Taking?
    ensures Step(s, a).readers[u].pc.corr !in Step(s, a).sh.waiterInstance
  {
    var s' := Step(s, a);
    var c := s'.readers[u].pc.corr;
    assert Listed(s'.readers[u].pc, c);
    assert u in s.readers ==> TokenOk(s, u) && ListOk(s, u);
    ListBefore(s, a, u, c);
    TakingBefore(s, a, u);
    if c in s'.sh.waiterInstance {
      IndexBefore(s, a, c);
    }
  }

  /** A reader takes what it has just picked, or goes on taking what it took. */
  lemma TakingBefore(s: State, a: Action, u: nat)
    requires u in s.readers && u < s.sh.nextToken && u in Step(s, a).readers && Step(s, a).readers[u].pc.Taking?
    ensures || (s.readers[u].pc.Taking? && s.readers[u].pc.corr == Step(s, a).readers[u].pc.corr)
            || (a.Fail? && Step(s, a).readers[u].pc.corr !in Step(s, a).sh.waiterInstance)
  {
    if a.Advance? && a.token in s.readers {
      AdvanceSends(s, a.token);
      if u == a.token {
        AdvanceLists(s, u, Advanced(s, u).readers[u].pc.corr);
      }
    }
  }

  lemma FittedStep(s: State, a: Action)
    requires Whole(s) && !Meddles(s, a)
    ensures Fitted(Step(s, a))
  {
    var s' := Step(s, a);
    forall c | c in s'.sh.waiterInstance
      ensures IndexOk(s', c)
    {
      IndexBefore(s, a, c);
      if c in s.sh.waiterInstance {
        OldIndexOk(s, a, c);
      } else {
        NewIndexOk(s, c);
      }
    }
    forall u | u in s'.readers
      ensures ListOk(s', u)
    {
      ListOkStep(s, a, u);
    }
    forall c | c in s'.calls
      ensures TableOk(s', c)
    {
      TableOkStep(s, a, c);
    }
  }

  lemma {:induction false} WholeRun(s: State, run: seq<Action>)
    requires Whole(s) && Unmeddled(s, run)
    ensures Whole(Run(s, run))
    decreases |run|
  {
    if run == [] {
    } else {
      FittedStep(s, run[0]);
      SoundStep(s, run[0]);
      TruthfulStep(s, run[0]);
      OnlyMeddlingBreaks(s, run[0]);
      WholeRun(Step(s, run[0]), run[1..]);
    }
  }

  /** Over every run in which no session answers for another, a finished call is in neither table. */
  lemma FinishedCallsLeaveBothTables(run: seq<Action>, c: nat)
    requires Unmeddled(START, run)
    requires var s := Run(START, run); c in s.calls && s.calls[c].phase.Done?
    ensures var s := Run(START, run); c !in s.sh.waiters && c !in s.sh.waiterInstance
  {
    WholeRun(START, run);
    var s := Run(START, run);
    assert TellsTruth(s, c) && (c in s.cells ==> CellOk(s, c));
    assert c in s.sh.waiterInstance ==> IndexOk(s, c);
  }

  /** With peers that echo, in particular. */
  lemma EchoingPeersLeakNothing(run: seq<Action>, c: nat)
    requires HonestRun(START, run)
    requires var s := Run(START, run); c in s.calls && s.calls[c].phase.Done?
    ensures var s := Run(START, run); c !in s.sh.waiters && c !in s.sh.waiterInstance
  {
    HonestRunsAreUnmeddled(START, run);
    FinishedCallsLeaveBothTables(run, c);
  }

  // Why the assumption is needed

  lemma CallIsHalfRegistered() returns (run: seq<Action>, s: State)
    ensures s == Run(START, run)
    ensures Owns(s.sh, "a", 1) && s.sh.inner["a"] == NewInstance(1, 1, 1)
    ensures s.sh.waiters == map[1 := WaitUiResult] && s.sh.waiterInstance == map[] && s.matched == []
    ensures 1 in s.calls && s.calls[1] == Call("a", true, WaitUiResult, Inject("home"), Indexing)
    ensures s.cells == map[1 := Cell(WaitUiResult, 0, InTable)]
    ensures 1 in s.readers && s.readers[1] == Reader("a", Waiting, [], {}, 0, false)
  {
    run, s := Extend([], Connect("a", 1, 1), START);
    run, s := Extend(run, Advance(1), s);
    run, s := Extend(run, Begin("a", true, WaitUiResult, Inject("home")), s);
    run, s := Extend(run, Proceed(1), s);
    run, s := Extend(run, Proceed(1), s);
  }

  lemma GuessIsMatched() returns (run: seq<Action>, s: State)
    ensures s == Run(START, run)
    ensures Owns(s.sh, "a", 1) && s.sh.inner["a"] == NewInstance(1, 1, 1)
    ensures s.sh.waiters == map[] && s.sh.waiterInstance == map[] && s.matched == [GUESSED]
    ensures 1 in s.calls && s.calls[1] == Call("a", true, WaitUiResult, Inject("home"), Indexing)
    ensures s.cells == map[1 := Cell(WaitUiResult, 0, Held(1, 0))]
    ensures 1 in s.readers && s.readers[1].pc == Unindexing(GUESSED)
  {
    run, s := CallIsHalfRegistered();
    run, s := Extend(run, Arrive(1, Envelope(GUESSED)), s);
    run, s := Extend(run, Advance(1), s);
    run, s := Extend(run, Advance(1), s);
  }

  lemma GuessIsHandedOver() returns (run: seq<Action>, s: State)
    ensures s == Run(START, run)
    ensures Owns(s.sh, "a", 1) && s.sh.inner["a"] == NewInstance(1, 1, 1)
    ensures s.sh.waiters == map[] && s.sh.waiterInstance == map[] && s.matched == [GUESSED]
    ensures 1 in s.calls && s.calls[1] == Call("a", true, WaitUiResult, Inject("home"), Indexing)
    ensures s.cells == map[1 := Cell(WaitUiResult, 0, Delivered(1, 0))]
  {
    run, s := GuessIsMatched();
    run, s := Extend(run, Advance(1), s);
    run, s := Extend(run, Advance(1), s);
  }

  /** A guessed reply between the two sections of a registration: the call finishes and its index entry remains. */
  lemma GuessLeaksIndexEntry() returns (run: seq<Action>)
    ensures var s := Run(START, run);
            && 1 in s.calls && s.calls[1].phase == Done(Reply(GUESSED))
            && 1 in s.sh.waiterInstance && 1 !in s.sh.waiters
  {
    var s;
    run, s := GuessIsHandedOver();
    run, s := Extend(run, Proceed(1), s);
    run, s := Extend(run, Proceed(1), s);
    run, s := Extend(run, Poll(1), s);
  }
}
