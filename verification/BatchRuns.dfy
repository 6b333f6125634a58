/** A batch interleaved with everything else the broker does. */
module BatchRuns {
  import opened Messages
  import opened Broker
  import opened Protocol
  import opened WaiterTable
  import opened ExactlyOnce
  import opened Footprints
  import opened Injects

  datatype Stage = Idle | Found(request: Request) | InFlight(corr: nat)

  /** `corrs[i]` is the number drawn for step `i`; a step that is refused draws none. */
  datatype Batch = Batch(
    id: string, steps: seq<BatchStep>, defaults: Defaults, stage: Stage, corrs: seq<nat>, results: seq<StepResult>)

  datatype World = World(s: State, b: Batch)

  datatype Move = Other(action: Action) | Resolve | Draw | Collect

  function ErrorText(error: WaitError): string {
    match error
    case NotConnected => "unknown instance"
    case OutboundFull => "outbound queue is full"
    case TimedOut => "timed out waiting for session reply"
    case Disconnected => "instance disconnected"
  }

  function ResultOf(outcome: Outcome): StepResult {
    match outcome
    case Queued => Accepted
    case Failed(error) => Error(ErrorText(error))
    case Reply(msg) =>
      match InjectResultOf(msg)
      case Painted => Accepted
      case Acked => Accepted
      case Rejected(reason) => Error(reason)
      case Unexpected => Error("unexpected session reply")
  }

  predicate Succeeding(b: Batch) {
    forall i :: 0 <= i < |b.results| ==> b.results[i].Accepted?
  }

  predicate Open(b: Batch) {
    Succeeding(b) && |b.results| < |b.steps|
  }

  /** The next step is planned and its instance looked up. */
  function Resolved(w: World): Batch
    requires w.b.stage.Idle? && Open(w.b)
  {
    match PlanStep(w.b.steps[|w.b.results|], w.b.defaults)
    case Refused(error) => w.b.(results := w.b.results + [Error(error)])
    case Planned(request) =>
      if w.b.id in w.s.sh.inner then w.b.(stage := Found(request))
      else w.b.(results := w.b.results + [Error("unknown instance")])
  }

  function BeginOf(b: Batch): Action
    requires b.stage.Found?
  {
    var r := b.stage.request;
    Begin(b.id, r.waits, r.kind, r.command)
  }

  function Drawn(w: World): World
    requires w.b.stage.Found?
  {
    World(Step(w.s, BeginOf(w.b)), w.b.(stage := InFlight(w.s.sh.nextCorr), corrs := w.b.corrs + [w.s.sh.nextCorr]))
  }

  function Collected(w: World): Batch
    requires w.b.stage.InFlight? && w.b.stage.corr in w.s.calls && w.s.calls[w.b.stage.corr].phase.Done?
  {
    w.b.(stage := Idle, results := w.b.results + [ResultOf(w.s.calls[w.b.stage.corr].phase.outcome)])
  }

  function Next(w: World, m: Move): World {
    match m
    case Other(a) => w.(s := Step(w.s, a))
    case Resolve => if w.b.stage.Idle? && Open(w.b) then w.(b := Resolved(w)) else w
    case Draw => if w.b.stage.Found? then Drawn(w) else w
    case Collect =>
      if w.b.stage.InFlight? && w.b.stage.corr in w.s.calls && w.s.calls[w.b.stage.corr].phase.Done?
      then w.(b := Collected(w)) else w
  }

  function History(w: World, moves: seq<Move>): World
    decreases |moves|
  {
    if moves == [] then w else History(Next(w, moves[0]), moves[1..])
  }

  ghost predicate CallsGoOn(s: State, s': State) {
    forall c :: c in s.calls ==> c in s'.calls && CallGoesOn(s.calls[c], s'.calls[c])
  }

  lemma CallsGoOnStep(s: State, a: Action)
    requires Consistent(s)
    ensures CallsGoOn(s, Step(s, a))
  {
    forall c | c in s.calls
      ensures c in Step(s, a).calls && CallGoesOn(s.calls[c], Step(s, a).calls[c])
    {
      CallStep(s, a, c);
    }
  }

  // The batch's invariant

  /** The call carries out the plan. */
  predicate Asks(call: Call, id: string, plan: Plan<Request>) {
    plan.Planned? && SameRequest(call, Call(id, plan.value.waits, plan.value.kind, plan.value.command, call.phase))
  }

  ghost predicate StepDone(w: World, i: nat)
    requires i < |w.b.corrs|
  {
    && w.b.corrs[i] in w.s.calls && i < |w.b.steps|
    && Asks(w.s.calls[w.b.corrs[i]], w.b.id, PlanStep(w.b.steps[i], w.b.defaults))
    && (i < |w.b.results| ==>
          w.s.calls[w.b.corrs[i]].phase.Done? && w.b.results[i] == ResultOf(w.s.calls[w.b.corrs[i]].phase.outcome))
  }

  /** What is reported for a step that draws no number. */
  function Refusal(plan: Plan<Request>): StepResult {
    Error(if plan.Refused? then plan.error else "unknown instance")
  }

  ghost predicate Orderly(w: World) {
    var b := w.b;
    && |b.results| <= |b.steps|
    && (forall i :: 0 <= i < |b.results| - 1 ==> b.results[i].Accepted?)
    && (!b.stage.Idle? ==> Open(b))
    && (b.stage.Found? ==> PlanStep(b.steps[|b.results|], b.defaults) == Planned(b.stage.request))
    && (b.stage.InFlight? ==> |b.corrs| == |b.results| + 1 && b.corrs[|b.results|] == b.stage.corr)
    && (!b.stage.InFlight? ==>
          |b.corrs| <= |b.results| <= |b.corrs| + 1 && (Succeeding(b) ==> |b.corrs| == |b.results|))
    && (forall i :: 0 <= i < |b.corrs| ==> StepDone(w, i))
    && (|b.results| > |b.corrs| ==> b.results[|b.corrs|] == Refusal(PlanStep(b.steps[|b.corrs|], b.defaults)))
    && (forall i, j :: 0 <= i < j < |b.corrs| ==> b.corrs[i] < b.corrs[j])
  }

  lemma OtherKeeps(w: World, a: Action)
    requires Consistent(w.s) && Orderly(w)
    ensures Orderly(w.(s := Step(w.s, a)))
  {
    CallsGoOnStep(w.s, a);
    var w' := w.(s := Step(w.s, a));
    forall i | 0 <= i < |w'.b.corrs|
      ensures StepDone(w', i)
    {
      assert StepDone(w, i);
    }
  }

  lemma ResolveKeeps(w: World)
    requires Orderly(w) && w.b.stage.Idle? && Open(w.b)
    ensures Orderly(w.(b := Resolved(w)))
  {
    var w' := w.(b := Resolved(w));
    forall i | 0 <= i < |w'.b.corrs|
      ensures StepDone(w', i)
    {
      assert StepDone(w, i);
    }
    assert w'.b.results != w.b.results ==> w'.b.results[|w.b.results|].Error?;
  }

  lemma DrawKeeps(w: World)
    requires Consistent(w.s) && Orderly(w) && w.b.stage.Found?
    ensures Orderly(Drawn(w))
  {
    var w' := Drawn(w);
    CallsGoOnStep(w.s, BeginOf(w.b));
    forall i | 0 <= i < |w'.b.corrs|
      ensures StepDone(w', i)
    {
      if i < |w.b.corrs| {
        assert StepDone(w, i);
      }
    }
    forall i, j | 0 <= i < j < |w'.b.corrs|
      ensures w'.b.corrs[i] < w'.b.corrs[j]
    {
      assert StepDone(w, i);
      assert CallOk(w.s, w.b.corrs[i]);
    }
  }

  lemma CollectKeeps(w: World)
    requires Orderly(w) && w.b.stage.InFlight? && w.b.stage.corr in w.s.calls && w.s.calls[w.b.stage.corr].phase.Done?
    ensures Orderly(w.(b := Collected(w)))
  {
    var w' := w.(b := Collected(w));
    forall i | 0 <= i < |w'.b.corrs|
      ensures StepDone(w', i)
    {
      assert StepDone(w, i);
    }
  }

  ghost predicate Sound(w: World) {
    Consistent(w.s) && Truthful(w.s) && FirstDecisive(w.s) && Orderly(w)
  }

  lemma SoundNext(w: World, m: Move)
    requires Sound(w)
    ensures Sound(Next(w, m))
  {
    match m
    case Other(a) =>
      ConsistentStep(w.s, a);
      TruthfulStep(w.s, a);
      FirstDecisiveStep(w.s, a);
      OtherKeeps(w, a);
    case Resolve =>
      if w.b.stage.Idle? && Open(w.b) {
        ResolveKeeps(w);
      }
    case Draw =>
      if w.b.stage.Found? {
        ConsistentStep(w.s, BeginOf(w.b));
        TruthfulStep(w.s, BeginOf(w.b));
        FirstDecisiveStep(w.s, BeginOf(w.b));
        DrawKeeps(w);
      }
    case Collect =>
      if w.b.stage.InFlight? && w.b.stage.corr in w.s.calls && w.s.calls[w.b.stage.corr].phase.Done? {
        CollectKeeps(w);
      }
  }

  lemma {:induction false} SoundHistory(w: World, moves: seq<Move>)
    requires Sound(w)
    ensures Sound(History(w, moves))
    decreases |moves|
  {
    if moves == [] {
    } else {
      SoundNext(w, moves[0]);
      SoundHistory(Next(w, moves[0]), moves[1..]);
    }
  }

  function Fresh(id: string, steps: seq<BatchStep>, defaults: Defaults): Batch {
    Batch(id, steps, defaults, Idle, [], [])
  }

  /**
   However the batch is interleaved with other work: numbers increase along it, and a step has drawn its number
   only after every earlier step was accepted; so a waiting step's request exists only after its predecessor's reply.
   */
  lemma StepsFollowAcceptance(s: State, id: string, steps: seq<BatchStep>, defaults: Defaults, moves: seq<Move>,
      i: nat, j: nat)
    requires Consistent(s) && Truthful(s) && FirstDecisive(s)
    requires i < j < |History(World(s, Fresh(id, steps, defaults)), moves).b.corrs|
    ensures var w := History(World(s, Fresh(id, steps, defaults)), moves);
            && w.b.corrs[i] < w.b.corrs[j]
            && i < |w.b.results| && w.b.results[i].Accepted?
            && w.b.corrs[i] in w.s.calls && w.s.calls[w.b.corrs[i]].phase.Done?
            && ResultOf(w.s.calls[w.b.corrs[i]].phase.outcome).Accepted?
  {
    SoundHistory(World(s, Fresh(id, steps, defaults)), moves);
    var w := History(World(s, Fresh(id, steps, defaults)), moves);
    assert StepDone(w, i) && StepDone(w, j);
  }

  /** The waiter of a step is gone once a later step has drawn its number, so at most one waiter of a batch is live. */
  lemma EarlierWaiterIsGone(s: State, id: string, steps: seq<BatchStep>, defaults: Defaults, moves: seq<Move>,
      i: nat, j: nat)
    requires Consistent(s) && Truthful(s) && FirstDecisive(s)
    requires i < j < |History(World(s, Fresh(id, steps, defaults)), moves).b.corrs|
    ensures var w := History(World(s, Fresh(id, steps, defaults)), moves);
            w.b.corrs[i] !in w.s.sh.waiters
  {
    SoundHistory(World(s, Fresh(id, steps, defaults)), moves);
    var w := History(World(s, Fresh(id, steps, defaults)), moves);
    StepsFollowAcceptance(s, id, steps, defaults, moves, i, j);
    var c := w.b.corrs[i];
    assert TellsTruth(w.s, c);
    assert c in w.s.cells ==> CellOk(w.s, c);
  }

  lemma {:induction false} BatchKeepsPlan(w: World, moves: seq<Move>)
    ensures var b := History(w, moves).b; b.id == w.b.id && b.steps == w.b.steps && b.defaults == w.b.defaults
    decreases |moves|
  {
    if moves == [] {
    } else {
      BatchKeepsPlan(Next(w, moves[0]), moves[1..]);
    }
  }

  /** What an accepted step means: a step that does not wait was queued, a waiting one got a reply to its own number. */
  ghost predicate Justified(call: Call, corr: nat) {
    call.phase.Done?
    && match call.phase.outcome
       case Queued => !call.waits
       case Reply(msg) => call.waits && msg.corr == corr && (call.kind.WaitUiResult? ==> msg.payload.UiResult?)
       case Failed(_) => false
  }

  /**
   However the batch is interleaved: the number at position `i` names a call that asks what step `i` plans, of the
   batch's instance; if step `i` was accepted and waits for a paint, the session painted in reply to that number.
   */
  lemma AcceptedStepsAreJustified(s: State, id: string, steps: seq<BatchStep>, defaults: Defaults, moves: seq<Move>,
      i: nat)
    requires Consistent(s) && Truthful(s) && FirstDecisive(s)
    requires i < |History(World(s, Fresh(id, steps, defaults)), moves).b.corrs|
    ensures var w := History(World(s, Fresh(id, steps, defaults)), moves);
            && i < |steps| && w.b.corrs[i] in w.s.calls
            && Asks(w.s.calls[w.b.corrs[i]], id, PlanStep(steps[i], defaults))
            && (i < |w.b.results| && w.b.results[i].Accepted? ==> Justified(w.s.calls[w.b.corrs[i]], w.b.corrs[i]))
  {
    var w0 := World(s, Fresh(id, steps, defaults));
    SoundHistory(w0, moves);
    BatchKeepsPlan(w0, moves);
    var w := History(w0, moves);
    assert StepDone(w, i);
    var c := w.b.corrs[i];
    if i < |w.b.results| && w.b.results[i].Accepted? {
      assert TellsTruth(w.s, c) && CallOk(w.s, c);
      assert c in w.s.cells ==> CellOk(w.s, c) && FirstOk(w.s, c);
    }
  }

  // What a result means

  predicate Accepts(msg: SimToServer) {
    msg.payload.UiResult? || (msg.payload.InputAck? && msg.payload.accepted)
  }

  function ReasonOf(msg: SimToServer): string {
    if !msg.payload.InputAck? then "unexpected session reply"
    else if |msg.payload.reason| > 0 then msg.payload.reason
    else "inject rejected"
  }

  function WordsFor(e: WaitError): string {
    if e.NotConnected? then "unknown instance"
    else if e.OutboundFull? then "outbound queue is full"
    else if e.TimedOut? then "timed out waiting for session reply"
    else "instance disconnected"
  }

  /** The result of a step, in terms of what became of its call. */
  ghost predicate Means(s: State, c: nat, result: StepResult)
    requires c in s.calls && s.calls[c].phase.Done?
  {
    var call, outcome := s.calls[c], s.calls[c].phase.outcome;
    && (!call.waits ==> (result.Accepted? <==> outcome.Queued?))
    && (call.waits ==>
          (result.Accepted? <==> c in s.cells && s.cells[c].place.Delivered? && SettledBy(s, c, s.cells[c].place.at)
                                 && outcome == Reply(s.matched[s.cells[c].place.at])
                                 && Accepts(s.matched[s.cells[c].place.at])))
    && (outcome.Reply? && !Accepts(outcome.msg) ==> result == Error(ReasonOf(outcome.msg)))
    && (outcome.Failed? ==> result == Error(WordsFor(outcome.error)))
  }

  lemma OutcomeMeans(s: State, c: nat)
    requires Consistent(s) && Truthful(s) && FirstDecisive(s) && c in s.calls && s.calls[c].phase.Done?
    ensures Means(s, c, ResultOf(s.calls[c].phase.outcome))
  {
    assert TellsTruth(s, c) && CallOk(s, c);
    var outcome := s.calls[c].phase.outcome;
    if outcome.Reply? {
      InjectMeans(outcome.msg);
      assert CellOk(s, c) && FirstOk(s, c);
      DecidesIffSettles(s, c);
    }
  }

  /**
   Over every history, for every result of a batch. A step with a number: if it waits, it is accepted exactly when its
   wait returned the first envelope that settles it and this is a UiResult or an accepted InputAck; if it does not, when
   it was queued. A step without a number was refused by its plan, or its instance was unknown. The errors are those of
   the session, the plan or the wait.
   */
  lemma ResultsMean(s: State, id: string, steps: seq<BatchStep>, defaults: Defaults, moves: seq<Move>, i: nat)
    requires Consistent(s) && Truthful(s) && FirstDecisive(s)
    requires i < |History(World(s, Fresh(id, steps, defaults)), moves).b.results|
    ensures var w := History(World(s, Fresh(id, steps, defaults)), moves);
            && i < |steps|
            && if i < |w.b.corrs| then
                 w.b.corrs[i] in w.s.calls && w.s.calls[w.b.corrs[i]].phase.Done?
                 && Asks(w.s.calls[w.b.corrs[i]], id, PlanStep(steps[i], defaults))
                 && Means(w.s, w.b.corrs[i], w.b.results[i])
               else
                 i == |w.b.corrs| && w.b.results[i].Error?
                 && var plan := PlanStep(steps[i], defaults);
                    w.b.results[i].text == if plan.Refused? then plan.error else "unknown instance"
  {
    var w0 := World(s, Fresh(id, steps, defaults));
    SoundHistory(w0, moves);
    BatchKeepsPlan(w0, moves);
    var w := History(w0, moves);
    if i < |w.b.corrs| {
      assert StepDone(w, i);
      OutcomeMeans(w.s, w.b.corrs[i]);
    }
  }

  // Stopping

  predicate Stopped(b: Batch) {
    b.results != [] && b.results[|b.results| - 1].Error?
  }

  /** After the first error nothing more is drawn or reported; the results end with that error. */
  lemma {:induction false} StoppedForGood(w: World, moves: seq<Move>)
    requires Sound(w) && Stopped(w.b)
    ensures History(w, moves).b == w.b
    decreases |moves|
  {
    if moves == [] {
    } else {
      assert !Open(w.b);
      assert Next(w, moves[0]).b == w.b;
      SoundNext(w, moves[0]);
      StoppedForGood(Next(w, moves[0]), moves[1..]);
    }
  }
}
