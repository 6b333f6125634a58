/**
 Instances are isolated although replies are matched by correlation number alone.

 What isolation needs is that no session's envelope completes a waiter whose request went elsewhere. It is enough
 that peers echo only numbers they were sent on that stream, or zero.
 */
module Isolation {
  import opened Messages
  import opened Broker
  import opened Protocol
  import opened WaiterTable
  import opened Ownership
  import opened ExactlyOnce
  import opened Footprints
  import opened Addressing

  predicate TakenBy(place: Place, t: nat) {
    (place.Held? || place.Delivered?) && place.holder == t
  }

  /** A channel is taken out for a reply only by the session the request was sent to. */
  ghost predicate Answered(s: State) {
    forall c, t :: c in s.cells && TakenBy(s.cells[c].place, t) ==> SentTo(s, t, c)
  }

  /** A lookup completes a waiter whose number that session was not sent. */
  predicate Meddles(s: State, a: Action) {
    && a.Advance? && a.token in s.readers && s.readers[a.token].pc.Matching?
    && Completes(s.sh, s.readers[a.token].pc.msg)
    && s.readers[a.token].pc.msg.corr !in s.readers[a.token].sent
  }

  lemma RepliedTakes(s: State, u: nat, c: nat, t: nat)
    requires u in s.readers && s.readers[u].pc.Replying? && Consistent(s)
    requires c in Replied(s, u).cells && TakenBy(Replied(s, u).cells[c].place, t)
    ensures c in s.cells && TakenBy(s.cells[c].place, t)
  {
    assert TaskOk(s, u);
  }

  lemma ReaderTakes(s: State, u: nat, c: nat, t: nat)
    requires Consistent(s) && MovesCell(s, Advance(u))
    requires c in Advanced(s, u).cells && TakenBy(Advanced(s, u).cells[c].place, t)
    ensures (c in s.cells && TakenBy(s.cells[c].place, t)) || (u == t && Answers(s, t, c))
  {
    match s.readers[u].pc
    case Matching(_) => assert Advanced(s, u) == Matched(s, u);
    case Replying(_) => RepliedTakes(s, u, c, t);
    case Taking(_, _, _) => assert Advanced(s, u) == Taken(s, u);
  }

  lemma CallTakes(s: State, d: nat, c: nat, t: nat)
    requires MovesCell(s, Proceed(d)) && c in Proceeded(s, d).cells && TakenBy(Proceeded(s, d).cells[c].place, t)
    ensures c in s.cells && TakenBy(s.cells[c].place, t)
  {
    match s.calls[d].phase
    case Registering => assert Proceeded(s, d) == Registered(s, d);
    case TakingWaiter(_) => assert Proceeded(s, d) == Dropping(s, d);
  }

  /** The lookup that session `t` is about to make completes the waiter of `c`. */
  predicate Answers(s: State, t: nat, c: nat) {
    && t in s.readers && s.readers[t].pc.Matching?
    && Completes(s.sh, s.readers[t].pc.msg) && s.readers[t].pc.msg.corr == c
  }

  /** Only a completing lookup takes a channel out for a reply. */
  lemma TakenStep(s: State, a: Action, c: nat, t: nat)
    requires Consistent(s) && c in Step(s, a).cells && TakenBy(Step(s, a).cells[c].place, t)
    ensures (c in s.cells && TakenBy(s.cells[c].place, t)) || (a == Advance(t) && Answers(s, t, c))
  {
    if !MovesCell(s, a) {
      OthersLeaveCells(s, a);
    } else if a.Advance? {
      ReaderTakes(s, a.token, c, t);
    } else {
      CallTakes(s, a.corr, c, t);
    }
  }

  lemma MeddlingTakes(s: State, a: Action)
    requires Sound(s) && Meddles(s, a)
    ensures !Answered(Step(s, a))
  {
    var t, s' := a.token, Step(s, a);
    var c := s.readers[t].pc.msg.corr;
    assert s' == Matched(s, t) && c in s.cells;
    SentToStep(s, a, t, c);
    assert TakenBy(s'.cells[c].place, t);
  }

  /** Exactly the meddling lookups break isolation. */
  lemma OnlyMeddlingBreaks(s: State, a: Action)
    requires Sound(s) && Answered(s)
    ensures Answered(Step(s, a)) <==> !Meddles(s, a)
  {
    var s' := Step(s, a);
    if Meddles(s, a) {
      MeddlingTakes(s, a);
    } else {
      forall c, t | c in s'.cells && TakenBy(s'.cells[c].place, t)
        ensures SentTo(s', t, c)
      {
        TakenStep(s, a, c, t);
        SentToStep(s, a, t, c);
      }
    }
  }

  ghost predicate Unmeddled(s: State, run: seq<Action>)
    decreases |run|
  {
    run == [] || (!Meddles(s, run[0]) && Unmeddled(Step(s, run[0]), run[1..]))
  }

  lemma {:induction false} UnmeddledRun(s: State, run: seq<Action>)
    requires Sound(s) && Answered(s) && Unmeddled(s, run)
    ensures Sound(Run(s, run)) && Answered(Run(s, run))
    decreases |run|
  {
    if run == [] {
    } else {
      OnlyMeddlingBreaks(s, run[0]);
      SoundStep(s, run[0]);
      UnmeddledRun(Step(s, run[0]), run[1..]);
    }
  }

  // Peers that echo

  /** The correlation number of the envelope a reader is working on. */
  function Carried(pc: Pc): set<nat> {
    match pc
    case Checking(item) => if item.Envelope? then {item.msg.corr} else {}
    case Beating(msg, _) => {msg.corr}
    case Matching(msg) => {msg.corr}
    case Unindexing(msg) => {msg.corr}
    case Replying(msg) => {msg.corr}
    case Pushing(msg) => {msg.corr}
    case _ => {}
  }

  ghost predicate Echoing(s: State) {
    forall t :: t in s.readers ==> Carried(s.readers[t].pc) <= s.readers[t].sent + {0}
  }

  predicate Honest(s: State, a: Action) {
    a.Arrive? && a.token in s.readers && a.item.Envelope? ==>
      a.item.msg.corr == 0 || a.item.msg.corr in s.readers[a.token].sent
  }

  ghost predicate HonestRun(s: State, run: seq<Action>)
    decreases |run|
  {
    run == [] || (Honest(s, run[0]) && HonestRun(Step(s, run[0]), run[1..]))
  }

  /** A reader carries what it carried, nothing, or what has just arrived. */
  lemma CarriedStep(s: State, a: Action, t: nat)
    requires t in s.readers && t in Step(s, a).readers && t < s.sh.nextToken
    ensures || Carried(Step(s, a).readers[t].pc) <= Carried(s.readers[t].pc)
            || (a.Arrive? && a.token == t && Carried(Step(s, a).readers[t].pc) <= Carried(Checking(a.item)))
  {
    if a.Advance? && a.token in s.readers {
      AdvanceSends(s, a.token);
      AdvanceCarries(s, a.token);
    }
  }

  lemma AdvanceCarries(s: State, u: nat)
    requires u in s.readers
    ensures u in Advanced(s, u).readers && Carried(Advanced(s, u).readers[u].pc) <= Carried(s.readers[u].pc)
  {
    match s.readers[u].pc
    case Inserting(_, _) => assert Advanced(s, u) == Inserted(s, u);
    case Waiting =>
    case Checking(_) => assert Advanced(s, u) == Checked(s, u);
    case Beating(_, _) => assert Advanced(s, u) == Recorded(s, u);
    case Matching(_) => assert Advanced(s, u) == Matched(s, u);
    case Unindexing(_) => assert Advanced(s, u) == Unindexed(s, u);
    case Replying(_) => assert Advanced(s, u) == Replied(s, u);
    case Pushing(_) => assert Advanced(s, u) == Delivering(s, u);
    case Leaving(_) => assert Advanced(s, u) == Removed(s, u);
    case Collecting(_) => assert Advanced(s, u) == Collected(s, u);
    case Failing(_, _) => assert Advanced(s, u) == Ended(s, u);
    case Taking(_, _, _) => assert Advanced(s, u) == Taken(s, u);
    case Finished =>
  }

  lemma EchoingStep(s: State, a: Action)
    requires Sound(s) && Echoing(s) && Honest(s, a)
    ensures Echoing(Step(s, a)) && !Meddles(s, a)
  {
    var s' := Step(s, a);
    forall t | t in s'.readers
      ensures Carried(s'.readers[t].pc) <= s'.readers[t].sent + {0}
    {
      assert t in s.readers ==> TokenOk(s, t);
      SentStep(s, a, t);
      if t in s.readers {
        CarriedStep(s, a, t);
      }
    }
    if a.Advance? && a.token in s.readers && s.readers[a.token].pc.Matching? {
      assert Carried(s.readers[a.token].pc) == {s.readers[a.token].pc.msg.corr};
    }
  }

  /** Echoing peers never meddle. */
  lemma {:induction false} HonestRunsAreUnmeddled(s: State, run: seq<Action>)
    requires Sound(s) && Echoing(s) && HonestRun(s, run)
    ensures Unmeddled(s, run)
    decreases |run|
  {
    if run == [] {
    } else {
      EchoingStep(s, run[0]);
      SoundStep(s, run[0]);
      HonestRunsAreUnmeddled(Step(s, run[0]), run[1..]);
    }
  }

  /**
   When every peer echoes only numbers it was sent, a reply reaches a call only from a session of the id the
   call is for: the very session, and the only one, that was sent the request.
   */
  lemma ReplyComesFromAddressee(run: seq<Action>, c: nat, t: nat)
    requires HonestRun(START, run)
    requires var s := Run(START, run); c in s.cells && TakenBy(s.cells[c].place, t)
    ensures var s := Run(START, run);
            && t in s.readers && c in s.calls && s.readers[t].id == s.calls[c].id
            && c in s.readers[t].sent
            && forall u :: u in s.readers && c in s.readers[u].sent ==> u == t
  {
    HonestRunsAreUnmeddled(START, run);
    UnmeddledRun(START, run);
    var s := Run(START, run);
    assert SentTo(s, t, c) && StreamOk(s, t);
    forall u | u in s.readers && c in s.readers[u].sent
      ensures u == t
    {
      assert SentTo(s, u, c);
    }
  }

  /** What a caller receives was sent by the session its request went to. */
  lemma CallerHearsAddressee(run: seq<Action>, c: nat)
    requires HonestRun(START, run)
    requires var s := Run(START, run); c in s.calls && s.calls[c].phase.Done? && s.calls[c].phase.outcome.Reply?
    ensures var s := Run(START, run);
            && c in s.cells && s.cells[c].place.Delivered?
            && var t := s.cells[c].place.holder;
               t in s.readers && s.readers[t].id == s.calls[c].id && c in s.readers[t].sent
  {
    TruthfulRun(START, run);
    var s := Run(START, run);
    assert TellsTruth(s, c);
    ReplyComesFromAddressee(run, c, s.cells[c].place.holder);
  }

  // Why the assumption is needed

  const GUESSED := SimToServer(1, 1, UiResult(true, 1, ""))

  lemma PeersConnect() returns (run: seq<Action>, s: State)
    ensures s == Run(START, run)
    ensures s.sh.inner == map["a" := NewInstance(1, 1, 1), "b" := NewInstance(2, 1, 1)]
    ensures s.sh.nextCorr == 1 && s.sh.waiters == map[] && s.calls == map[] && s.cells == map[] && s.matched == []
    ensures s.readers == map[1 := Reader("a", Waiting, [], {}, 0, false), 2 := Reader("b", Waiting, [], {}, 0, false)]
  {
    run, s := Extend([], Connect("a", 1, 1), START);
    run, s := Extend(run, Advance(1), s);
    run, s := Extend(run, Connect("b", 1, 1), s);
    run, s := Extend(run, Advance(2), s);
  }

  lemma CallRegisters() returns (run: seq<Action>, s: State)
    ensures s == Run(START, run)
    ensures s.sh.inner == map["a" := NewInstance(1, 1, 1), "b" := NewInstance(2, 1, 1)]
    ensures s.sh.waiters == map[1 := WaitUiResult] && s.cells == map[1 := Cell(WaitUiResult, 0, InTable)]
         && s.matched == []
    ensures 1 in s.calls && s.calls[1] == Call("a", true, WaitUiResult, Inject("home"), Sending)
    ensures 2 in s.readers && s.readers[2] == Reader("b", Waiting, [], {}, 0, false)
  {
    run, s := PeersConnect();
    run, s := Extend(run, Begin("a", true, WaitUiResult, Inject("home")), s);
    run, s := Extend(run, Proceed(1), s);
    run, s := Extend(run, Proceed(1), s);
    run, s := Extend(run, Proceed(1), s);
  }

  lemma CallAwaits() returns (run: seq<Action>, s: State)
    ensures s == Run(START, run)
    ensures Owns(s.sh, "b", 2)
    ensures s.sh.waiters == map[1 := WaitUiResult] && s.cells == map[1 := Cell(WaitUiResult, 0, InTable)]
         && s.matched == []
    ensures 1 in s.calls && s.calls[1] == Call("a", true, WaitUiResult, Inject("home"), Awaiting)
    ensures 2 in s.readers && s.readers[2] == Reader("b", Waiting, [], {}, 0, false)
  {
    run, s := CallRegisters();
    run, s := Extend(run, Proceed(1), s);
  }

  lemma StrangerMatches() returns (run: seq<Action>, s: State)
    ensures s == Run(START, run)
    ensures s.cells == map[1 := Cell(WaitUiResult, 0, Held(2, 0))] && s.matched == [GUESSED]
    ensures 1 in s.calls && s.calls[1] == Call("a", true, WaitUiResult, Inject("home"), Awaiting)
    ensures 2 in s.readers && s.readers[2] == Reader("b", Unindexing(GUESSED), [GUESSED], {}, 0, false)
  {
    run, s := CallAwaits();
    run, s := Extend(run, Arrive(2, Envelope(GUESSED)), s);
    run, s := Extend(run, Advance(2), s);
    run, s := Extend(run, Advance(2), s);
  }

  /** Without the assumption, a call for "a" can take an envelope from "b", which was sent nothing, for its reply. */
  lemma GuessedNumberCrossesInstances() returns (run: seq<Action>)
    ensures !HonestRun(START, run)
    ensures var s := Run(START, run);
            && 1 in s.calls && s.calls[1].id == "a" && s.calls[1].phase == Done(Reply(GUESSED))
            && 1 in s.cells && s.cells[1].place == Delivered(2, 0)
            && 2 in s.readers && s.readers[2].id == "b" && s.readers[2].sent == {}
  {
    var s;
    run, s := StrangerMatches();
    run, s := Extend(run, Advance(2), s);
    run, s := Extend(run, Advance(2), s);
    run, s := Extend(run, Poll(1), s);
    if HonestRun(START, run) {
      ReplyComesFromAddressee(run, 1, 2);
    }
  }
}
