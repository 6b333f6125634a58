/** Every registered waiter is resolved at most once, for good, and with the first decisive reply. */
module ExactlyOnce {
  import opened Messages
  import opened Broker
  import opened Protocol
  import opened WaiterTable

  /** What one or more steps may do to a channel: leave the table once, and be delivered once. */
  predicate Reaches(p: Place, q: Place) {
    || p == q
    || p.InTable?
    || (p.Held? && q == Delivered(p.holder, p.at))
  }

  ghost predicate CellsEvolve(s: State, s': State) {
    forall c :: c in s.cells ==>
      c in s'.cells && s'.cells[c].kind == s.cells[c].kind && s'.cells[c].since == s.cells[c].since
      && Reaches(s.cells[c].place, s'.cells[c].place)
  }

  /** The sections that move a channel. */
  predicate MovesCell(s: State, a: Action) {
    || (a.Advance? && a.token in s.readers &&
        var pc := s.readers[a.token].pc; pc.Matching? || pc.Replying? || pc.Taking?)
    || (a.Proceed? && a.corr in s.calls &&
        var phase := s.calls[a.corr].phase; phase.Registering? || phase.TakingWaiter?)
  }

  lemma OthersLeaveCells(s: State, a: Action)
    requires !MovesCell(s, a)
    ensures Step(s, a).cells == s.cells && Step(s, a).matched == s.matched
  {
  }

  lemma CellsEvolveStep(s: State, a: Action)
    requires Consistent(s)
    ensures CellsEvolve(s, Step(s, a))
  {
    if !MovesCell(s, a) {
      OthersLeaveCells(s, a);
    } else if a.Advance? {
      MovedByReader(s, a.token);
    } else {
      MovedByCall(s, a.corr);
    }
  }

  lemma MatchedEvolves(s: State, t: nat)
    requires Consistent(s) && t in s.readers && s.readers[t].pc.Matching?
    ensures CellsEvolve(s, Matched(s, t))
  {
    var c := s.readers[t].pc.msg.corr;
    assert c in s.cells ==> CellOk(s, c);
  }

  lemma RepliedEvolves(s: State, t: nat)
    requires Consistent(s) && t in s.readers && s.readers[t].pc.Replying?
    ensures CellsEvolve(s, Replied(s, t))
  {
    assert TaskOk(s, t);
  }

  lemma TakenEvolves(s: State, t: nat)
    requires Consistent(s) && t in s.readers && s.readers[t].pc.Taking?
    ensures CellsEvolve(s, Taken(s, t))
  {
    var c := s.readers[t].pc.corr;
    assert c in s.cells ==> CellOk(s, c);
  }

  lemma MovedByReader(s: State, t: nat)
    requires Consistent(s) && MovesCell(s, Advance(t))
    ensures CellsEvolve(s, Advanced(s, t))
  {
    match s.readers[t].pc
    case Matching(_) => MatchedEvolves(s, t);
    case Replying(_) => RepliedEvolves(s, t);
    case Taking(_, _, _) => TakenEvolves(s, t);
  }

  lemma RegisteredEvolves(s: State, c: nat)
    requires Consistent(s) && c in s.calls && s.calls[c].phase.Registering?
    ensures CellsEvolve(s, Registered(s, c))
  {
    assert c in s.cells ==> CellOk(s, c);
  }

  lemma DroppingEvolves(s: State, c: nat)
    requires Consistent(s) && c in s.calls && s.calls[c].phase.TakingWaiter?
    ensures CellsEvolve(s, Dropping(s, c))
  {
    assert c in s.cells ==> CellOk(s, c);
  }

  lemma MovedByCall(s: State, c: nat)
    requires Consistent(s) && MovesCell(s, Proceed(c))
    ensures CellsEvolve(s, Proceeded(s, c))
  {
    match s.calls[c].phase
    case Registering => RegisteredEvolves(s, c);
    case TakingWaiter(_) => DroppingEvolves(s, c);
  }

  lemma {:induction false} CellsEvolveRun(s: State, run: seq<Action>)
    requires Consistent(s)
    ensures CellsEvolve(s, Run(s, run))
    decreases |run|
  {
    if run == [] {
    } else {
      var next := Step(s, run[0]);
      CellsEvolveStep(s, run[0]);
      ConsistentStep(s, run[0]);
      CellsEvolveRun(next, run[1..]);
    }
  }

  /** Correlation numbers are fresh, so registering never overwrites a waiter, live or past. */
  lemma RegistrationIsFresh(run: seq<Action>, c: nat)
    requires var s := Run(START, run); c in s.calls && BeforeRegistration(s.calls[c].phase)
    ensures var s := Run(START, run); c !in s.cells && c !in s.sh.waiters && c !in s.sh.waiterInstance
  {
    ConsistentRun(START, run);
    var s := Run(START, run);
    assert c in s.cells ==> CellOk(s, c);
  }

  /**
   Once out of the table, a waiter never returns to it, and how it left never changes: a reply stays that
   reply from that session, a broken channel stays broken for the same reason.
   */
  lemma ResolvedForGood(before: seq<Action>, after: seq<Action>, c: nat)
    requires var s := Run(START, before); c in s.cells && c !in s.sh.waiters
    ensures var s, s' := Run(START, before), Run(START, before + after);
            && c !in s'.sh.waiters && c in s'.cells
            && (s.cells[c].place.Held? ==>
                  s'.cells[c].place == s.cells[c].place
                  || s'.cells[c].place == Delivered(s.cells[c].place.holder, s.cells[c].place.at))
            && (!s.cells[c].place.Held? ==> s'.cells[c].place == s.cells[c].place)
  {
    var s := Run(START, before);
    ConsistentRun(START, before);
    ConsistentRun(s, after);
    RunConcat(START, before, after);
    CellsEvolveRun(s, after);
    assert CellOk(s, c) && CellOk(Run(s, after), c);
  }

  // What the caller is told

  /**
   A reply is the delivered envelope; "disconnected" means a fail pass broke the channel; a channel broken for
   any other reason belongs to a call that reports exactly that reason; no finished call is in the table; and no
   waiting call ends with its request merely queued.
   */
  ghost predicate TellsTruth(s: State, c: nat)
    requires c in s.calls
  {
    var phase := s.calls[c].phase;
    && (phase.TakingIndex? || phase.TakingWaiter? ==> !phase.error.Disconnected?)
    && (phase.Done? && c in s.cells ==> !s.cells[c].place.InTable?)
    && (phase == Done(Queued) ==> !s.calls[c].waits)
    && (phase.Done? && phase.outcome.Reply? ==>
          c in s.cells && s.cells[c].place.Delivered? && s.cells[c].place.at < |s.matched|
          && phase.outcome.msg == s.matched[s.cells[c].place.at])
    && (phase == Done(Failed(Disconnected)) ==> c in s.cells && s.cells[c].place == Dropped(Disconnected))
    && (c in s.cells && s.cells[c].place.Dropped? && !s.cells[c].place.why.Disconnected? ==>
          phase == Done(Failed(s.cells[c].place.why)))
  }

  ghost predicate Truthful(s: State) {
    forall c :: c in s.calls ==> TellsTruth(s, c)
  }

  /** Calls, channels and the match history do not change, or the history only grows. */
  lemma TruthPreserved(s: State, s': State)
    requires Consistent(s) && Truthful(s) && s'.calls == s.calls && CellsEvolve(s, s')
    requires s.matched <= s'.matched
    requires s'.cells.Keys == s.cells.Keys
    requires forall c :: c in s.cells && s'.cells[c].place.Dropped? ==>
               s'.cells[c].place == s.cells[c].place || s'.cells[c].place.why.Disconnected?
    ensures Truthful(s')
  {
    forall c | c in s'.calls
      ensures TellsTruth(s', c)
    {
      assert TellsTruth(s, c);
    }
  }

  predicate MovesCall(s: State, a: Action) {
    || a.Begin?
    || ((a.Proceed? || a.Poll? || a.Expire?) && a.corr in s.calls)
  }

  lemma OthersLeaveCalls(s: State, a: Action)
    requires !MovesCall(s, a)
    ensures Step(s, a).calls == s.calls
  {
  }

  lemma MatchedKeepsTruth(s: State, t: nat)
    requires Consistent(s) && Truthful(s) && t in s.readers && s.readers[t].pc.Matching?
    ensures Truthful(Matched(s, t))
  {
    MatchedEvolves(s, t);
    TruthPreserved(s, Matched(s, t));
  }

  lemma RepliedKeepsTruth(s: State, t: nat)
    requires Consistent(s) && Truthful(s) && t in s.readers && s.readers[t].pc.Replying?
    ensures Truthful(Replied(s, t))
  {
    RepliedEvolves(s, t);
    TruthPreserved(s, Replied(s, t));
  }

  lemma TakenKeepsTruth(s: State, t: nat)
    requires Consistent(s) && Truthful(s) && t in s.readers && s.readers[t].pc.Taking?
    ensures Truthful(Taken(s, t))
  {
    TakenEvolves(s, t);
    TruthPreserved(s, Taken(s, t));
  }

  lemma ReaderKeepsTruth(s: State, t: nat)
    requires Consistent(s) && Truthful(s) && MovesCell(s, Advance(t))
    ensures Truthful(Advanced(s, t))
  {
    match s.readers[t].pc
    case Matching(_) => MatchedKeepsTruth(s, t);
    case Replying(_) => RepliedKeepsTruth(s, t);
    case Taking(_, _, _) => TakenKeepsTruth(s, t);
  }

  /** One call moves to `phase` and, if `c` sat in the table, its channel may break for the reason reported. */
  lemma MoveKeepsTruth(s: State, s': State, c: nat, phase: Phase)
    requires Consistent(s) && Truthful(s) && c in s.calls
    requires s'.calls == s.calls[c := s.calls[c].(phase := phase)] && s'.matched == s.matched
    requires s'.cells == s.cells || (phase.Done? && phase.outcome.Failed?
         && s'.cells == Abandoned(s, c, phase.outcome.error))
    requires !s.calls[c].phase.Done?
    requires phase.TakingIndex? || phase.TakingWaiter? ==> !phase.error.Disconnected?
    requires phase.Done? && phase.outcome.Reply? ==> phase == PollResult(s, c)
    requires phase == Done(Failed(Disconnected)) ==> phase == PollResult(s, c) && s'.cells == s.cells
    requires phase.Done? && c in s'.cells ==> !s'.cells[c].place.InTable?
    requires phase == Done(Queued) ==> !s.calls[c].waits
    ensures Truthful(s')
  {
    forall d | d in s'.calls
      ensures TellsTruth(s', d)
    {
      assert TellsTruth(s, d);
    }
  }

  lemma ProceedKeepsTruth(s: State, c: nat)
    requires Consistent(s) && Truthful(s) && c in s.calls
    ensures Truthful(Proceeded(s, c))
  {
    var s' := Proceeded(s, c);
    assert TellsTruth(s, c) && CallOk(s, c);
    assert c in s.cells ==> CellOk(s, c);
    if s.calls[c].phase.Registering? {
      forall d | d in s'.calls
        ensures TellsTruth(s', d)
      {
        assert TellsTruth(s, d);
      }
    } else if !s.calls[c].phase.Done? && !s.calls[c].phase.Awaiting? {
      MoveKeepsTruth(s, s', c, s'.calls[c].phase);
    }
  }

  lemma BegunKeepsTruth(s: State, id: string, waits: bool, kind: WaitKind, command: Command)
    requires Consistent(s) && Truthful(s)
    ensures Truthful(Begun(s, id, waits, kind, command))
  {
    var s' := Begun(s, id, waits, kind, command);
    NumberIsFresh(s);
    forall d | d in s'.calls
      ensures TellsTruth(s', d)
    {
      assert d in s.calls ==> TellsTruth(s, d) && CallOk(s, d);
    }
  }

  lemma TruthfulStep(s: State, a: Action)
    requires Consistent(s) && Truthful(s)
    ensures Truthful(Step(s, a))
  {
    if MovesCall(s, a) {
      match a
      case Begin(id, waits, kind, command) => BegunKeepsTruth(s, id, waits, kind, command);
      case Proceed(c) => ProceedKeepsTruth(s, c);
      case Poll(c) =>
        assert c in s.cells ==> CellOk(s, c);
        if s.calls[c].phase.Awaiting? {
          MoveKeepsTruth(s, Step(s, a), c, PollResult(s, c));
        }
      case Expire(c) =>
        if Pending(s, c) {
          MoveKeepsTruth(s, Step(s, a), c, TakingIndex(TimedOut));
        }
    } else if MovesCell(s, a) {
      ReaderKeepsTruth(s, a.token);
    } else {
      OthersLeaveCalls(s, a);
      OthersLeaveCells(s, a);
      assert forall c :: c in s.calls ==> TellsTruth(s, c) && TellsTruth(Step(s, a), c);
    }
  }

  /** In every reachable state, what a call reports is what became of its waiter. */
  lemma {:induction false} TruthfulRun(s: State, run: seq<Action>)
    requires Consistent(s) && Truthful(s)
    ensures Truthful(Run(s, run))
    decreases |run|
  {
    if run == [] {
    } else {
      TruthfulStep(s, run[0]);
      ConsistentStep(s, run[0]);
      TruthfulRun(Step(s, run[0]), run[1..]);
    }
  }

  // The first decisive reply

  predicate Decides(c: nat, kind: WaitKind, msg: SimToServer) {
    msg.corr == c && WaiterMatches(kind, msg)
  }

  /** `matched` is searched from the registration on; a live waiter has met nothing decisive yet. */
  ghost predicate FirstOk(s: State, c: nat)
    requires c in s.cells
  {
    var cell := s.cells[c];
    && cell.since <= |s.matched|
    && (cell.place.InTable? ==> forall j :: cell.since <= j < |s.matched| ==> !Decides(c, cell.kind, s.matched[j]))
    && (cell.place.Held? || cell.place.Delivered? ==>
          && cell.since <= cell.place.at < |s.matched|
          && Decides(c, cell.kind, s.matched[cell.place.at])
          && forall j :: cell.since <= j < cell.place.at ==> !Decides(c, cell.kind, s.matched[j]))
  }

  ghost predicate FirstDecisive(s: State) {
    forall c :: c in s.cells ==> FirstOk(s, c)
  }

  lemma MatchedKeepsFirst(s: State, t: nat)
    requires Consistent(s) && FirstDecisive(s) && t in s.readers && s.readers[t].pc.Matching?
    ensures FirstDecisive(Matched(s, t))
  {
    var s', msg := Matched(s, t), s.readers[t].pc.msg;
    forall c | c in s'.cells
      ensures FirstOk(s', c)
    {
      assert FirstOk(s, c) && CellOk(s, c);
      if c == msg.corr && s.cells[c].place.InTable? {
        assert CallOk(s, c);
      }
    }
  }

  /** Channels that are delivered or broken, with nothing new looked up. */
  lemma MovedKeepsFirst(s: State, s': State)
    requires FirstDecisive(s) && s'.matched == s.matched && s'.cells.Keys == s.cells.Keys && CellsEvolve(s, s')
    requires forall c :: c in s.cells && s.cells[c].place.InTable? ==>
               !s'.cells[c].place.Held? && !s'.cells[c].place.Delivered?
    ensures FirstDecisive(s')
  {
    forall c | c in s'.cells
      ensures FirstOk(s', c)
    {
      assert FirstOk(s, c);
    }
  }

  lemma ReaderKeepsFirst(s: State, t: nat)
    requires Consistent(s) && FirstDecisive(s) && MovesCell(s, Advance(t))
    ensures FirstDecisive(Advanced(s, t))
  {
    match s.readers[t].pc
    case Matching(_) => MatchedKeepsFirst(s, t);
    case Replying(_) =>
      RepliedEvolves(s, t);
      MovedKeepsFirst(s, Replied(s, t));
    case Taking(_, _, _) =>
      TakenEvolves(s, t);
      MovedKeepsFirst(s, Taken(s, t));
  }

  lemma CallKeepsFirst(s: State, c: nat)
    requires Consistent(s) && FirstDecisive(s) && MovesCell(s, Proceed(c))
    ensures FirstDecisive(Proceeded(s, c))
  {
    var s' := Proceeded(s, c);
    if s.calls[c].phase.TakingWaiter? {
      MovedByCall(s, c);
      MovedKeepsFirst(s, s');
    } else {
      forall d | d in s'.cells
        ensures FirstOk(s', d)
      {
        assert d in s.cells ==> FirstOk(s, d);
      }
    }
  }

  lemma FirstDecisiveStep(s: State, a: Action)
    requires Consistent(s) && FirstDecisive(s)
    ensures FirstDecisive(Step(s, a))
  {
    if !MovesCell(s, a) {
      OthersLeaveCells(s, a);
      assert forall c :: c in s.cells ==> FirstOk(s, c) && FirstOk(Step(s, a), c);
    } else if a.Advance? {
      ReaderKeepsFirst(s, a.token);
    } else {
      CallKeepsFirst(s, a.corr);
    }
  }

  lemma {:induction false} FirstDecisiveRun(s: State, run: seq<Action>)
    requires Consistent(s) && FirstDecisive(s)
    ensures FirstDecisive(Run(s, run))
    decreases |run|
  {
    if run == [] {
    } else {
      FirstDecisiveStep(s, run[0]);
      ConsistentStep(s, run[0]);
      FirstDecisiveRun(Step(s, run[0]), run[1..]);
    }
  }

  /**
   In every reachable state a finished wait that has a reply holds the first envelope, in the order in which
   readers looked waiters up after the registration, that carries its corr and that its kind accepts.
   */
  lemma ReplyIsFirstDecisive(run: seq<Action>, c: nat)
    requires var s := Run(START, run); c in s.calls && s.calls[c].phase.Done? && s.calls[c].phase.outcome.Reply?
    ensures var s := Run(START, run);
            && c in s.cells && s.cells[c].place.Delivered?
            && var cell := s.cells[c];
               && cell.since <= cell.place.at < |s.matched|
               && s.calls[c].phase.outcome.msg == s.matched[cell.place.at]
               && Decides(c, s.calls[c].kind, s.matched[cell.place.at])
               && forall j :: cell.since <= j < cell.place.at ==> !Decides(c, s.calls[c].kind, s.matched[j])
  {
    var s := Run(START, run);
    ConsistentRun(START, run);
    TruthfulRun(START, run);
    FirstDecisiveRun(START, run);
    assert TellsTruth(s, c) && FirstOk(s, c) && CellOk(s, c);
  }

  /** The envelopes that settle a wait, said in payloads. */
  predicate Settles(kind: WaitKind, msg: SimToServer) {
    match kind
    case WaitAny => true
    case WaitInputAck => msg.payload.InputAck?
    case WaitUiResult => msg.payload.UiResult? || (msg.payload.InputAck? && !msg.payload.accepted)
    case WaitSnapshot => msg.payload.Snapshot? || msg.payload.SnapshotError?
  }

  /** Envelope `at` is the first since the registration of `c` that has its number and settles it. */
  ghost predicate SettledBy(s: State, c: nat, at: nat)
    requires c in s.calls && c in s.cells
  {
    && s.cells[c].since <= at < |s.matched|
    && s.matched[at].corr == c && Settles(s.calls[c].kind, s.matched[at])
    && forall j :: s.cells[c].since <= j < at ==> !(s.matched[j].corr == c && Settles(s.calls[c].kind, s.matched[j]))
  }

  /** What a finished wait holds is the first envelope with its number that settles it. */
  lemma ReplySettles(run: seq<Action>, c: nat)
    requires var s := Run(START, run); c in s.calls && s.calls[c].phase.Done? && s.calls[c].phase.outcome.Reply?
    ensures var s := Run(START, run);
            && c in s.cells && s.cells[c].place.Delivered?
            && SettledBy(s, c, s.cells[c].place.at)
            && s.calls[c].phase.outcome.msg == s.matched[s.cells[c].place.at]
  {
    ReplyIsFirstDecisive(run, c);
    var s := Run(START, run);
    DecidesIffSettles(s, c);
  }

  lemma DecidesIffSettles(s: State, c: nat)
    requires c in s.calls
    ensures forall j :: 0 <= j < |s.matched| ==>
              (Decides(c, s.calls[c].kind, s.matched[j]) <==>
               s.matched[j].corr == c && Settles(s.calls[c].kind, s.matched[j]))
  {
  }
}
