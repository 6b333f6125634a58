/** Inject calls: how a step is planned, what its reply means, and the loop that runs a batch. */
module Injects {
  import opened Messages
  import opened Broker
  import opened Protocol
  import opened ExactlyOnce

  datatype InjectResult = Painted | Acked | Rejected(reason: string) | Unexpected

  /** What `inject` makes of the envelope its wait returned. */
  function InjectResultOf(reply: SimToServer): InjectResult {
    match reply.payload
    case UiResult(_, _, _) => Painted
    case InputAck(accepted, reason) =>
      if accepted then Acked else Rejected(if reason == "" then "inject rejected" else reason)
    case _ => Unexpected
  }

  datatype SnapshotResult = Frame | NoFrame(message: string) | NotASnapshot

  function SnapshotResultOf(reply: SimToServer): SnapshotResult {
    match reply.payload
    case Snapshot => Frame
    case SnapshotError(message) => NoFrame(if message == "" then "snapshot failed" else message)
    case _ => NotASnapshot
  }

  predicate Paints(c: nat, msg: SimToServer) {
    msg.corr == c && msg.payload.UiResult?
  }

  predicate Rejects(c: nat, msg: SimToServer) {
    msg.corr == c && msg.payload.InputAck? && !msg.payload.accepted
  }

  /** Among the envelopes looked up since the registration, a paint comes before any rejection. */
  ghost predicate PaintComesFirst(s: State, c: nat)
    requires c in s.cells
  {
    exists i :: s.cells[c].since <= i < |s.matched| && Paints(c, s.matched[i])
      && forall j :: s.cells[c].since <= j < i ==> !Rejects(c, s.matched[j])
  }

  /**
   A paint wait that got a reply succeeded exactly when the session painted before it rejected; the
   "unexpected reply" and the plain-acknowledgement arms are never taken.
   */
  lemma PaintSucceedsIffPaintFirst(run: seq<Action>, c: nat)
    requires var s := Run(START, run);
             c in s.calls && s.calls[c].kind.WaitUiResult? && s.calls[c].phase.Done? && s.calls[c].phase.outcome.Reply?
    ensures var s := Run(START, run);
            && c in s.cells
            && var result := InjectResultOf(s.calls[c].phase.outcome.msg);
               && (result.Painted? || result.Rejected?)
               && (result.Painted? <==> PaintComesFirst(s, c))
  {
    ReplyIsFirstDecisive(run, c);
    var s := Run(START, run);
    var cell := s.cells[c];
    var at := cell.place.at;
    assert Decides(c, WaitUiResult, s.matched[at]);
    if Paints(c, s.matched[at]) {
      forall j | cell.since <= j < at
        ensures !Rejects(c, s.matched[j])
      {
        assert !Decides(c, WaitUiResult, s.matched[j]);
      }
    } else if PaintComesFirst(s, c) {
      var i :| cell.since <= i < |s.matched| && Paints(c, s.matched[i])
        && forall j :: cell.since <= j < i ==> !Rejects(c, s.matched[j]);
      assert Decides(c, WaitUiResult, s.matched[i]) && Rejects(c, s.matched[at]);
    }
  }

  /** A snapshot wait that got a reply got a frame or the session's error, never anything else. */
  lemma SnapshotReplyIsSnapshot(run: seq<Action>, c: nat)
    requires var s := Run(START, run);
             c in s.calls && s.calls[c].kind.WaitSnapshot? && s.calls[c].phase.Done? && s.calls[c].phase.outcome.Reply?
    ensures var reply := Run(START, run).calls[c].phase.outcome.msg;
            var result := SnapshotResultOf(reply);
            && !result.NotASnapshot?
            && (result.Frame? <==> reply.payload.Snapshot?)
            && (result.NoFrame? <==> reply.payload.SnapshotError?)
            && (result.NoFrame? ==>
                  result.message == if |reply.payload.message| > 0 then reply.payload.message else "snapshot failed")
  {
    ReplyIsFirstDecisive(run, c);
  }

  /**
   An inject succeeds on a UiResult or an accepted InputAck; its error is the session's own reason, if it gave one.
   */
  lemma InjectMeans(reply: SimToServer)
    ensures InjectResultOf(reply).Painted? <==> reply.payload.UiResult?
    ensures InjectResultOf(reply).Acked? <==> reply.payload.InputAck? && reply.payload.accepted
    ensures InjectResultOf(reply).Rejected? <==> reply.payload.InputAck? && !reply.payload.accepted
    ensures InjectResultOf(reply).Rejected? ==>
              InjectResultOf(reply).reason ==
              if |reply.payload.reason| > 0 then reply.payload.reason else "inject rejected"
  {
  }

  predicate Answers(c: nat, msg: SimToServer) {
    msg.corr == c
  }

  /** Among the envelopes looked up since the registration, the first with the call's number is an InputAck. */
  ghost predicate AckComesFirst(s: State, c: nat)
    requires c in s.cells
  {
    exists i :: s.cells[c].since <= i < |s.matched| && Answers(c, s.matched[i]) && s.matched[i].payload.InputAck?
      && forall j :: s.cells[c].since <= j < i ==> !Answers(c, s.matched[j])
  }

  /**
   What the wait mode "ack" promises, an InputAck, is what a finished wait holds if and only if the session's first
   envelope with the call's number is one.
   */
  lemma AckWaitGetsAckIffAckFirst(run: seq<Action>, c: nat)
    requires var s := Run(START, run);
             c in s.calls && s.calls[c].kind.WaitAny? && s.calls[c].phase.Done? && s.calls[c].phase.outcome.Reply?
    ensures var s := Run(START, run);
            c in s.cells && (s.calls[c].phase.outcome.msg.payload.InputAck? <==> AckComesFirst(s, c))
  {
    ReplyIsFirstDecisive(run, c);
    var s := Run(START, run);
    var cell := s.cells[c];
    forall j | 0 <= j < |s.matched|
      ensures Decides(c, WaitAny, s.matched[j]) <==> Answers(c, s.matched[j])
    {
    }
    assert Answers(c, s.matched[cell.place.at]);
    if AckComesFirst(s, c) {
      var i :| cell.since <= i < |s.matched| && Answers(c, s.matched[i]) && s.matched[i].payload.InputAck?
        && forall j :: cell.since <= j < i ==> !Answers(c, s.matched[j]);
      assert i == cell.place.at;
    }
  }

  const CHATTER := SimToServer(1, 1, Log("", ""))

  lemma AckWaitIsAsked() returns (run: seq<Action>, s: State)
    ensures s == Run(START, run)
    ensures Owns(s.sh, "a", 1) && s.sh.waiters == map[1 := WaitAny] && s.matched == []
    ensures 1 in s.calls && s.calls[1] == Call("a", true, WaitAny, Inject("home"), Awaiting)
    ensures s.cells == map[1 := Cell(WaitAny, 0, InTable)]
    ensures 1 in s.readers && s.readers[1] == Reader("a", Waiting, [], {1}, 0, false)
  {
    run, s := Extend([], Connect("a", 1, 1), START);
    run, s := Extend(run, Advance(1), s);
    run, s := Extend(run, Begin("a", true, WaitAny, Inject("home")), s);
    run, s := Extend(run, Proceed(1), s);
    run, s := Extend(run, Proceed(1), s);
    run, s := Extend(run, Proceed(1), s);
    run, s := Extend(run, Proceed(1), s);
  }

  lemma AckWaitMeetsLog() returns (run: seq<Action>, s: State)
    ensures s == Run(START, run)
    ensures 1 in s.calls && s.calls[1] == Call("a", true, WaitAny, Inject("home"), Awaiting) && s.matched == [CHATTER]
    ensures s.cells == map[1 := Cell(WaitAny, 0, Held(1, 0))]
    ensures 1 in s.readers && s.readers[1].pc == Unindexing(CHATTER)
  {
    run, s := AckWaitIsAsked();
    run, s := Extend(run, Arrive(1, Envelope(CHATTER)), s);
    run, s := Extend(run, Advance(1), s);
    run, s := Extend(run, Advance(1), s);
  }

  /** An ack wait can end in a log line, which the call then reports as an unexpected reply. */
  lemma AckWaitTakesLog() returns (run: seq<Action>)
    ensures var s := Run(START, run);
            && 1 in s.calls && s.calls[1].kind == WaitAny && s.calls[1].phase == Done(Reply(CHATTER))
            && InjectResultOf(CHATTER).Unexpected?
  {
    var s;
    run, s := AckWaitMeetsLog();
    run, s := Extend(run, Advance(1), s);
    run, s := Extend(run, Advance(1), s);
    run, s := Extend(run, Poll(1), s);
  }

  /** The wait mode "ack" takes any envelope with the call's number, so there the unexpected arm is live. */
  lemma AckModeTakesAnything(msg: SimToServer)
    ensures InjectWaitKind(Some("ack")) == Planned(WaitAny) && WaiterMatches(WaitAny, msg)
    ensures InjectResultOf(msg).Unexpected? <==> !msg.payload.UiResult? && !msg.payload.InputAck?
  {
  }

  // Planning a step

  datatype Plan<T> = Planned(value: T) | Refused(error: string)

  function InjectWaitKind(mode: Option<string>): Plan<WaitKind> {
    var name := if mode.Some? then mode.value else "paint";
    if name == "paint" then Planned(WaitUiResult)
    else if name == "ack" then Planned(WaitAny)
    else Refused("unknown wait_mode: " + name)
  }

  datatype Space = Logical | Panel

  function CoordinateSpace(space: Option<string>): Plan<Space> {
    var name := if space.Some? then space.value else "logical";
    if name == "logical" then Planned(Logical)
    else if name == "panel" then Planned(Panel)
    else Refused("unknown coordinate_space: " + name)
  }

  datatype BatchStep = BatchStep(kind: string, wait: Option<bool>, waitMode: Option<string>, space: Option<string>)

  datatype Defaults = Defaults(wait: bool, waitMode: Option<string>, space: Option<string>)

  datatype Request = Request(waits: bool, kind: WaitKind, command: Command)

  function Or<T>(x: Option<T>, y: Option<T>): Option<T> {
    if x.Some? then x else y
  }

  predicate TakesCoordinates(kind: string) {
    kind == "touch" || kind == "swipe"
  }

  /** Steps with coordinates check their space first; the wait mode is looked at only by steps that wait. */
  function PlanStep(step: BatchStep, defaults: Defaults): Plan<Request> {
    var waits := if step.wait.Some? then step.wait.value else defaults.wait;
    var space := CoordinateSpace(Or(step.space, defaults.space));
    var mode := InjectWaitKind(Or(step.waitMode, defaults.waitMode));
    if !TakesCoordinates(step.kind) && step.kind != "key" && step.kind != "home"
    then Refused("unknown inject_batch step kind: " + step.kind)
    else if TakesCoordinates(step.kind) && space.Refused? then Refused(space.error)
    else if waits && mode.Refused? then Refused(mode.error)
    else Planned(Request(waits, if mode.Planned? then mode.value else WaitUiResult, Inject(step.kind)))
  }

  function Chosen(own: Option<string>, default: Option<string>, fallback: string): string {
    if own.Some? then own.value else if default.Some? then default.value else fallback
  }

  predicate IsStepKind(kind: string) {
    kind == "touch" || kind == "key" || kind == "home" || kind == "swipe"
  }

  /**
   A step's own settings go before the batch's, and these before "paint", "logical" and the batch's wait. An unknown
   kind is refused first, then an unknown space of a touch or a swipe, then an unknown mode of a step that waits.
   */
  lemma PlanMeans(step: BatchStep, defaults: Defaults)
    ensures var plan := PlanStep(step, defaults);
            var waits := if step.wait.Some? then step.wait.value else defaults.wait;
            var mode, space := Chosen(step.waitMode, defaults.waitMode, "paint"),
              Chosen(step.space, defaults.space, "logical");
            var points := step.kind == "touch" || step.kind == "swipe";
            if !IsStepKind(step.kind) then plan == Refused("unknown inject_batch step kind: " + step.kind)
            else if points && space != "logical" && space != "panel"
              then plan == Refused("unknown coordinate_space: " + space)
            else if waits && mode != "paint" && mode != "ack" then plan == Refused("unknown wait_mode: " + mode)
            else
              && plan.Planned? && plan.value.waits == waits && plan.value.command == Inject(step.kind)
              && (waits ==> plan.value.kind == if mode == "ack" then WaitAny else WaitUiResult)
  {
  }

  // The batch loop

  datatype StepResult = Accepted | Error(text: string)

  datatype BatchReport = BatchReport(results: seq<StepResult>, failedIndex: Option<nat>)

  /** Runs the steps in order and stops at the first error; `attempt(i)` is what step `i` comes to. */
  method InjectBatch(count: nat, attempt: nat -> StepResult) returns (report: BatchReport)
    ensures |report.results| <= count
    ensures forall i :: 0 <= i < |report.results| ==> report.results[i] == attempt(i)
    ensures report.failedIndex.None? ==> |report.results| == count && forall i :: 0 <= i < count ==>
         attempt(i).Accepted?
    ensures report.failedIndex.Some? ==>
              var f := report.failedIndex.value;
              f < count && |report.results| == f + 1 && attempt(f).Error? && forall i :: 0 <= i < f ==>
                attempt(i).Accepted?
  {
    var results := [];
    for index := 0 to count
      invariant |results| == index
      invariant forall i :: 0 <= i < index ==> results[i] == attempt(i) && attempt(i).Accepted?
    {
      var result := attempt(index);
      results := results + [result];
      if result.Error? {
        return BatchReport(results, Some(index));
      }
    }
    report := BatchReport(results, None);
  }
}
