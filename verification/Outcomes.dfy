/** Why a call failed, and what a reported failure says about the waiter. */
module Outcomes {
  import opened Messages
  import opened Broker
  import opened Protocol
  import opened WaiterTable
  import opened Ownership
  import opened ExactlyOnce
  import opened Footprints
  import opened Addressing
  import opened Isolation

  /** Call `c` reports the error `e`, or is on the way to. */
  predicate Reports(s: State, c: nat, e: WaitError) {
    && c in s.calls
    && match s.calls[c].phase
       case TakingIndex(error) => error == e
       case TakingWaiter(error) => error == e
       case Done(outcome) => outcome == Failed(e)
       case _ => false
  }

  predicate HasRoom(inst: Instance) {
    inst.outboundOpen && |inst.outbound| < inst.outboundCap
  }

  /** The one step that can make call `c` fail with the error `e`. */
  predicate Causes(s: State, a: Action, c: nat, e: WaitError) {
    && c in s.calls
    && match e
       case TimedOut => a == Expire(c) && Pending(s, c)
       case Disconnected => a == Poll(c) && s.calls[c].phase.Awaiting? && PollResult(s, c) == Done(Failed(Disconnected))
       case _ =>
         && a == Proceed(c)
         && match s.calls[c].phase
            case Getting => e.NotConnected? && s.calls[c].id !in s.sh.inner
            case Sending =>
              if e.NotConnected? then s.calls[c].id !in s.sh.inner
              else s.calls[c].id in s.sh.inner && !HasRoom(s.sh.inner[s.calls[c].id])
            case _ => false
  }

  ghost predicate Happened(s: State, run: seq<Action>, c: nat, e: WaitError)
    decreases |run|
  {
    run != [] && (Causes(s, run[0], c, e) || Happened(Step(s, run[0]), run[1..], c, e))
  }

  lemma ProceedCauses(s: State, c: nat, e: WaitError)
    requires c in s.calls
    ensures Reports(Proceeded(s, c), c, e) <==> Reports(s, c, e) || Causes(s, Proceed(c), c, e)
  {
    match s.calls[c].phase
    case Sending => assert Proceeded(s, c) == Dispatched(s, c);
    case Registering => assert Proceeded(s, c) == Registered(s, c);
    case TakingWaiter(_) => assert Proceeded(s, c) == Dropping(s, c);
    case _ =>
  }

  lemma ProceedAddsNone(s: State, d: nat)
    requires d in s.calls
    ensures Proceeded(s, d).calls.Keys == s.calls.Keys
  {
    match s.calls[d].phase
    case Sending => assert Proceeded(s, d) == Dispatched(s, d);
    case Registering => assert Proceeded(s, d) == Registered(s, d);
    case TakingWaiter(_) => assert Proceeded(s, d) == Dropping(s, d);
    case _ =>
  }

  lemma ProceedOfOther(s: State, d: nat, c: nat, e: WaitError)
    requires d in s.calls && d != c
    ensures Reports(Proceeded(s, d), c, e) <==> Reports(s, c, e)
  {
    ProceedGoesOn(s, d);
    ProceedAddsNone(s, d);
  }

  lemma WaitCauses(s: State, a: Action, c: nat, e: WaitError)
    requires a.Poll? || a.Expire?
    ensures Reports(Step(s, a), c, e) <==> Reports(s, c, e) || Causes(s, a, c, e)
  {
    if a.corr in s.calls && s.calls[a.corr].phase.Awaiting? {
      match a
      case Poll(d) => assert Step(s, a) == In(s, d, PollResult(s, d));
      case Expire(d) => assert Step(s, a) == if Pending(s, d) then In(s, d, TakingIndex(TimedOut)) else s;
    } else {
      assert Step(s, a) == s;
    }
  }

  lemma BegunCauses(s: State, a: Action, c: nat, e: WaitError)
    requires Consistent(s) && a.Begin?
    ensures Reports(Step(s, a), c, e) <==> Reports(s, c, e)
  {
    NumberIsFresh(s);
    assert Step(s, a) == Begun(s, a.id, a.waits, a.kind, a.command);
  }

  lemma CausesStep(s: State, a: Action, c: nat, e: WaitError)
    requires Consistent(s)
    ensures Reports(Step(s, a), c, e) <==> Reports(s, c, e) || Causes(s, a, c, e)
  {
    match a
    case Begin(_, _, _, _) => BegunCauses(s, a, c, e);
    case Proceed(d) =>
      if d in s.calls {
        assert Step(s, a) == Proceeded(s, d);
        if d == c {
          ProceedCauses(s, c, e);
        } else {
          ProceedOfOther(s, d, c, e);
        }
      }
    case Poll(_) => WaitCauses(s, a, c, e);
    case Expire(_) => WaitCauses(s, a, c, e);
    case _ => OthersLeaveCalls(s, a);
  }

  lemma {:induction false} CausesRun(s: State, run: seq<Action>, c: nat, e: WaitError)
    requires Consistent(s)
    ensures Reports(Run(s, run), c, e) <==> Reports(s, c, e) || Happened(s, run, c, e)
    decreases |run|
  {
    if run == [] {
    } else {
      CausesStep(s, run[0], c, e);
      ConsistentStep(s, run[0]);
      CausesRun(Step(s, run[0]), run[1..], c, e);
    }
  }

  /** A finished call failed with an error if and only if the step that causes this error happened to it. */
  lemma FailureHasItsCause(run: seq<Action>, c: nat, e: WaitError)
    requires var s := Run(START, run); c in s.calls && s.calls[c].phase.Done?
    ensures Run(START, run).calls[c].phase.outcome == Failed(e) <==> Happened(START, run, c, e)
  {
    CausesRun(START, run, c, e);
  }

  /**
   A finished call whose reply was handed over reports that reply if and only if its timer did not expire and its
   send did not fail.
   */
  lemma ReplyUnlessTooLate(run: seq<Action>, c: nat)
    requires var s := Run(START, run);
             c in s.calls && s.calls[c].phase.Done? && c in s.cells && s.cells[c].place.Delivered?
    ensures var s := Run(START, run);
            && s.cells[c].place.at < |s.matched|
            && (s.calls[c].phase == Done(Reply(s.matched[s.cells[c].place.at])) <==>
                forall e: WaitError :: !e.Disconnected? ==> !Happened(START, run, c, e))
  {
    var s := Run(START, run);
    ConsistentRun(START, run);
    TruthfulRun(START, run);
    assert TellsTruth(s, c) && CellOk(s, c);
    forall e: WaitError
      ensures s.calls[c].phase.outcome == Failed(e) <==> Happened(START, run, c, e)
    {
      FailureHasItsCause(run, c, e);
    }
  }

  /** With peers that echo, only the timer can cost a caller a reply that was handed over. */
  lemma ReplyUnlessExpired(run: seq<Action>, c: nat)
    requires HonestRun(START, run)
    requires var s := Run(START, run);
             c in s.calls && s.calls[c].phase.Done? && c in s.cells && s.cells[c].place.Delivered?
    ensures var s := Run(START, run);
            && s.cells[c].place.at < |s.matched|
            && (s.calls[c].phase == Done(Reply(s.matched[s.cells[c].place.at])) <==> !Happened(START, run, c, TimedOut))
  {
    var s := Run(START, run);
    ReplyUnlessTooLate(run, c);
    HonestRunsAreUnmeddled(START, run);
    UnmeddledRun(START, run);
    var t := s.cells[c].place.holder;
    assert TakenBy(s.cells[c].place, t) && SentTo(s, t, c) && StreamOk(s, t);
    forall e: WaitError
      ensures s.calls[c].phase.outcome == Failed(e) <==> Happened(START, run, c, e)
    {
      FailureHasItsCause(run, c, e);
    }
  }

  /** A timer counts only while the channel is undecided: nothing handed over, nothing broken. */
  lemma ExpiresOnlyUndecided(run: seq<Action>, c: nat)
    requires var s := Run(START, run); Step(s, Expire(c)) != s
    ensures var s := Run(START, run);
            && c in s.calls && s.calls[c].phase.Awaiting? && c in s.cells
            && (s.cells[c].place.InTable? || s.cells[c].place.Held?)
            && Step(s, Expire(c)) == s.(calls := s.calls[c := s.calls[c].(phase := TakingIndex(TimedOut))])
  {
    ConsistentRun(START, run);
    var s := Run(START, run);
    assert CallOk(s, c) && CellOk(s, c);
  }

  // A reply can be lost

  const PAINTED := SimToServer(1, 1, UiResult(true, 1, ""))

  lemma CallIsSent() returns (run: seq<Action>, s: State)
    ensures s == Run(START, run)
    ensures Owns(s.sh, "a", 1) && s.sh.waiters == map[1 := WaitUiResult] && s.matched == []
    ensures 1 in s.calls && s.calls[1] == Call("a", true, WaitUiResult, Inject("home"), Awaiting)
    ensures s.cells == map[1 := Cell(WaitUiResult, 0, InTable)]
    ensures 1 in s.readers && s.readers[1] == Reader("a", Waiting, [], {1}, 0, false)
  {
    run, s := Extend([], Connect("a", 1, 1), START);
    run, s := Extend(run, Advance(1), s);
    run, s := Extend(run, Begin("a", true, WaitUiResult, Inject("home")), s);
    run, s := Extend(run, Proceed(1), s);
    run, s := Extend(run, Proceed(1), s);
    run, s := Extend(run, Proceed(1), s);
    run, s := Extend(run, Proceed(1), s);
  }

  lemma TimerBeatsLookup() returns (run: seq<Action>, s: State)
    ensures s == Run(START, run)
    ensures s.sh.waiters == map[1 := WaitUiResult] && s.matched == []
    ensures 1 in s.calls && s.calls[1] == Call("a", true, WaitUiResult, Inject("home"), TakingIndex(TimedOut))
    ensures s.cells == map[1 := Cell(WaitUiResult, 0, InTable)]
    ensures 1 in s.readers && s.readers[1].pc == Matching(PAINTED)
  {
    run, s := CallIsSent();
    run, s := Extend(run, Arrive(1, Envelope(PAINTED)), s);
    run, s := Extend(run, Advance(1), s);
    run, s := Extend(run, Expire(1), s);
  }

  lemma LookupHits() returns (run: seq<Action>, s: State)
    ensures s == Run(START, run)
    ensures s.sh.waiters == map[] && s.matched == [PAINTED]
    ensures 1 in s.calls && s.calls[1].phase == TakingIndex(TimedOut)
    ensures s.cells == map[1 := Cell(WaitUiResult, 0, Held(1, 0))]
    ensures 1 in s.readers && s.readers[1].pc == Unindexing(PAINTED)
  {
    run, s := TimerBeatsLookup();
    run, s := Extend(run, Advance(1), s);
  }

  lemma LookupTakesChannel() returns (run: seq<Action>, s: State)
    ensures s == Run(START, run)
    ensures s.sh.waiters == map[] && s.matched == [PAINTED]
    ensures 1 in s.calls && s.calls[1].phase == TakingIndex(TimedOut)
    ensures s.cells == map[1 := Cell(WaitUiResult, 0, Delivered(1, 0))]
  {
    run, s := LookupHits();
    run, s := Extend(run, Advance(1), s);
    run, s := Extend(run, Advance(1), s);
  }

  /** The timer expires before the lookup, the lookup precedes the removal: the reply is handed to nobody. */
  lemma ReplyLostToTimer() returns (run: seq<Action>)
    ensures var s := Run(START, run);
            && 1 in s.calls && s.calls[1].phase == Done(Failed(TimedOut))
            && 1 in s.cells && s.cells[1].place == Delivered(1, 0) && s.matched == [PAINTED]
  {
    var s;
    run, s := LookupTakesChannel();
    run, s := Extend(run, Proceed(1), s);
    run, s := Extend(run, Proceed(1), s);
  }
}
