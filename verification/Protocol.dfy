/**
 The broker as a transition system whose atomic steps are single critical sections.

 Session readers are named by their token and waiting calls by the correlation number they drew. An action
 that is not enabled leaves the state alone, so a run is any sequence of actions. Fields that the program
 does not have (`cells`, `matched`, `latest`, and a reader's `consumed`, `sent`, `stalePushes`, `left`)
 only record what happened; no branch reads them, except that `cells` stands for the one-shot channels.
 */
module Protocol {
  import opened Messages
  import opened Broker

  datatype Item = Envelope(msg: SimToServer) | Broken

  /** Where a session's task stands: each value names the section it will execute next. */
  datatype Pc =
    | Inserting(inboundCap: nat, outboundCap: nat)
    | Waiting
    | Checking(item: Item)
    | Beating(msg: SimToServer, heartbeat: Heartbeat)
    | Matching(msg: SimToServer)
    | Unindexing(msg: SimToServer)
    | Replying(msg: SimToServer)
    | Pushing(msg: SimToServer)
    | Leaving(last: bool)
    | Collecting(last: bool)
    | Failing(corrs: set<nat>, last: bool)
    | Taking(corr: nat, corrs: set<nat>, last: bool)
    | Finished

  datatype Reader = Reader(
    id: string,
    pc: Pc,
    consumed: seq<SimToServer>,
    sent: set<nat>,
    stalePushes: nat,
    left: bool)

  datatype WaitError = NotConnected | OutboundFull | TimedOut | Disconnected

  datatype Outcome = Queued | Reply(msg: SimToServer) | Failed(error: WaitError)

  datatype Phase =
    | Getting
    | Registering
    | Indexing
    | Sending
    | Awaiting
    | TakingIndex(error: WaitError)
    | TakingWaiter(error: WaitError)
    | Done(outcome: Outcome)

  datatype Call = Call(id: string, waits: bool, kind: WaitKind, command: Command, phase: Phase)

  /** Where the sending half of a call's one-shot channel is. `at` is a position in `matched`. */
  datatype Place =
    | InTable
    | Held(holder: nat, at: nat)
    | Delivered(holder: nat, at: nat)
    | Dropped(why: WaitError)

  datatype Cell = Cell(kind: WaitKind, since: nat, place: Place)

  datatype State = State(
    sh: Shared,
    calls: map<nat, Call>,
    readers: map<nat, Reader>,
    cells: map<nat, Cell>,
    matched: seq<SimToServer>,
    latest: map<string, nat>)

  const START := State(INITIAL, map[], map[], map[], [], map[])

  datatype Action =
    | Connect(id: string, inboundCap: nat, outboundCap: nat)
    | Arrive(token: nat, item: Item)
    | End(token: nat)
    | Advance(token: nat)
    | Fail(token: nat, corr: nat)
    | Begin(id: string, waits: bool, kind: WaitKind, command: Command)
    | Proceed(corr: nat)
    | Poll(corr: nat)
    | Expire(corr: nat)
    | SetMask(id: string, paths: seq<string>)
    | SetExcluded(id: string, components: seq<string>)
    | Drain(id: string)
    | TakeOutbound(id: string)
    | CloseOutbound(id: string)

  function At(s: State, t: nat, pc: Pc): State
    requires t in s.readers
  {
    s.(readers := s.readers[t := s.readers[t].(pc := pc)])
  }

  function In(s: State, c: nat, phase: Phase): State
    requires c in s.calls
  {
    s.(calls := s.calls[c := s.calls[c].(phase := phase)])
  }

  function Placed(s: State, c: nat, place: Place): map<nat, Cell> {
    if c in s.cells then s.cells[c := s.cells[c].(place := place)] else s.cells
  }

  /** The channels after `c` is removed from the table: `c`'s breaks unless it had left already. */
  function Abandoned(s: State, c: nat, why: WaitError): map<nat, Cell> {
    if c in s.sh.waiters then Placed(s, c, Dropped(why)) else s.cells
  }

  // Session tasks

  /** The handshake accepts a valid id and draws a token. */
  function Connected(s: State, id: string, inboundCap: nat, outboundCap: nat): State
    requires IsValidInstanceId(id)
  {
    var t := s.sh.nextToken;
    s.(sh := s.sh.(nextToken := t + 1),
       readers := s.readers[t := Reader(id, Inserting(inboundCap, outboundCap), [], {}, 0, false)])
  }

  function Inserted(s: State, t: nat): State
    requires t in s.readers && s.readers[t].pc.Inserting?
  {
    var r := s.readers[t];
    s.(sh := InsertSection(s.sh, r.id, t, r.pc.inboundCap, r.pc.outboundCap),
       readers := s.readers[t := r.(pc := Waiting)],
       latest := s.latest[r.id := t])
  }

  function Examined(r: Reader, owns: bool): Reader
    requires r.pc.Checking?
  {
    if !owns || r.pc.item.Broken? then r.(pc := Leaving(true))
    else
      var msg := r.pc.item.msg;
      r.(pc := if msg.payload.Beat? then Beating(msg, msg.payload.heartbeat) else Matching(msg),
         consumed := r.consumed + [msg])
  }

  function Checked(s: State, t: nat): State
    requires t in s.readers && s.readers[t].pc.Checking?
  {
    s.(readers := s.readers[t := Examined(s.readers[t], Owns(s.sh, s.readers[t].id, t))])
  }

  function Recorded(s: State, t: nat): State
    requires t in s.readers && s.readers[t].pc.Beating?
  {
    var r := s.readers[t];
    s.(sh := HeartbeatSection(s.sh, r.id, t, r.pc.heartbeat),
       readers := s.readers[t := r.(pc := Matching(r.pc.msg))])
  }

  function Matched(s: State, t: nat): State
    requires t in s.readers && s.readers[t].pc.Matching?
  {
    var msg := s.readers[t].pc.msg;
    var hit := Completes(s.sh, msg);
    s.(sh := if hit then DropWaiter(s.sh, msg.corr) else s.sh,
       cells := if hit then Placed(s, msg.corr, Held(t, |s.matched|)) else s.cells,
       readers := s.readers[t := s.readers[t].(pc := if hit then Unindexing(msg) else Pushing(msg))],
       matched := s.matched + [msg])
  }

  function Unindexed(s: State, t: nat): State
    requires t in s.readers && s.readers[t].pc.Unindexing?
  {
    var msg := s.readers[t].pc.msg;
    s.(sh := UnindexWaiter(s.sh, msg.corr),
       readers := s.readers[t := s.readers[t].(pc := Replying(msg))])
  }

  function Replied(s: State, t: nat): State
    requires t in s.readers && s.readers[t].pc.Replying?
  {
    var msg := s.readers[t].pc.msg;
    var c := msg.corr;
    s.(cells := if c in s.cells && s.cells[c].place.Held? then Placed(s, c, Delivered(t, s.cells[c].place.at))
      else s.cells,
       readers := s.readers[t := s.readers[t].(pc := Pushing(msg))])
  }

  function Delivering(s: State, t: nat): State
    requires t in s.readers && s.readers[t].pc.Pushing?
  {
    var r := s.readers[t];
    var stale := r.id in s.sh.inner && s.sh.inner[r.id].token != t;
    s.(sh := PushSection(s.sh, r.id, r.pc.msg),
       readers := s.readers[t := r.(pc := if r.pc.msg.payload.Goodbye? then Leaving(false) else Waiting,
                                    stalePushes := r.stalePushes + if stale then 1 else 0)])
  }

  function AfterPass(last: bool): Pc {
    if last then Finished else Leaving(true)
  }

  function Removed(s: State, t: nat): State
    requires t in s.readers && s.readers[t].pc.Leaving?
  {
    var r := s.readers[t];
    var owns := Owns(s.sh, r.id, t);
    s.(sh := RemoveSection(s.sh, r.id, t),
       readers := s.readers[t := r.(pc := if owns then Collecting(r.pc.last) else AfterPass(r.pc.last),
                                    left := r.left || owns)])
  }

  function Collected(s: State, t: nat): State
    requires t in s.readers && s.readers[t].pc.Collecting?
  {
    var r := s.readers[t];
    s.(readers := s.readers[t := r.(pc := Failing(CorrsOf(s.sh, r.id), r.pc.last))])
  }

  function Ended(s: State, t: nat): State
    requires t in s.readers && s.readers[t].pc.Failing?
  {
    var pc := s.readers[t].pc;
    At(s, t, if pc.corrs == {} then AfterPass(pc.last) else pc)
  }

  /** One turn of the fail pass begins: `c` is any corr not visited yet. */
  function Picked(s: State, t: nat, c: nat): State
    requires t in s.readers && s.readers[t].pc.Failing? && c in s.readers[t].pc.corrs
  {
    var pc := s.readers[t].pc;
    s.(sh := UnindexWaiter(s.sh, c),
       readers := s.readers[t := s.readers[t].(pc := Taking(c, pc.corrs - {c}, pc.last))])
  }

  function Taken(s: State, t: nat): State
    requires t in s.readers && s.readers[t].pc.Taking?
  {
    var pc := s.readers[t].pc;
    s.(sh := DropWaiter(s.sh, pc.corr),
       cells := Abandoned(s, pc.corr, Disconnected),
       readers := s.readers[t := s.readers[t].(pc := Failing(pc.corrs, pc.last))])
  }

  function Advanced(s: State, t: nat): State
    requires t in s.readers
  {
    match s.readers[t].pc
    case Inserting(_, _) => Inserted(s, t)
    case Waiting => s
    case Checking(_) => Checked(s, t)
    case Beating(_, _) => Recorded(s, t)
    case Matching(_) => Matched(s, t)
    case Unindexing(_) => Unindexed(s, t)
    case Replying(_) => Replied(s, t)
    case Pushing(_) => Delivering(s, t)
    case Leaving(_) => Removed(s, t)
    case Collecting(_) => Collected(s, t)
    case Failing(_, _) => Ended(s, t)
    case Taking(_, _, _) => Taken(s, t)
    case Finished => s
  }

  // Calls

  function Begun(s: State, id: string, waits: bool, kind: WaitKind, command: Command): State {
    var c := s.sh.nextCorr;
    s.(sh := s.sh.(nextCorr := c + 1),
       calls := s.calls[c := Call(id, waits, kind, command, if waits then Getting else Sending)])
  }

  function ErrorOf(outcome: SendOutcome): WaitError {
    if outcome.UnknownInstance? then NotConnected else OutboundFull
  }

  function EnvelopeOf(c: nat, call: Call): ServerToSim {
    ServerToSim(c, call.waits && call.command.Inject?, call.command)
  }

  function AfterSend(waits: bool, outcome: SendOutcome): Phase {
    if outcome.Sent? then (if waits then Awaiting else Done(Queued))
    else if waits then TakingIndex(ErrorOf(outcome))
    else Done(Failed(ErrorOf(outcome)))
  }

  function Handed(s: State, t: nat, c: nat): map<nat, Reader> {
    if t in s.readers then s.readers[t := s.readers[t].(sent := s.readers[t].sent + {c})] else s.readers
  }

  function Dispatched(s: State, c: nat): State
    requires c in s.calls && s.calls[c].phase.Sending?
  {
    var call := s.calls[c];
    var outcome := SendResult(s.sh, call.id);
    s.(sh := SendSection(s.sh, call.id, EnvelopeOf(c, call)),
       calls := s.calls[c := call.(phase := AfterSend(call.waits, outcome))],
       readers := if outcome.Sent? then Handed(s, s.sh.inner[call.id].token, c) else s.readers)
  }

  function Registered(s: State, c: nat): State
    requires c in s.calls && s.calls[c].phase.Registering?
  {
    var call := s.calls[c];
    s.(sh := AddWaiter(s.sh, c, call.kind),
       calls := s.calls[c := call.(phase := Indexing)],
       cells := s.cells[c := Cell(call.kind, |s.matched|, InTable)])
  }

  function Dropping(s: State, c: nat): State
    requires c in s.calls && s.calls[c].phase.TakingWaiter?
  {
    var e := s.calls[c].phase.error;
    s.(sh := DropWaiter(s.sh, c),
       calls := s.calls[c := s.calls[c].(phase := Done(Failed(e)))],
       cells := Abandoned(s, c, e))
  }

  function Proceeded(s: State, c: nat): State
    requires c in s.calls
  {
    var call := s.calls[c];
    match call.phase
    case Getting => In(s, c, if call.id in s.sh.inner then Registering else Done(Failed(NotConnected)))
    case Registering => Registered(s, c)
    case Indexing => In(s, c, Sending).(sh := IndexWaiter(s.sh, c, call.id))
    case Sending => Dispatched(s, c)
    case Awaiting => s
    case TakingIndex(e) => In(s, c, TakingWaiter(e)).(sh := UnindexWaiter(s.sh, c))
    case TakingWaiter(_) => Dropping(s, c)
    case Done(_) => s
  }

  function PollResult(s: State, c: nat): Phase {
    if c !in s.cells then Awaiting
    else
      match s.cells[c].place
      case Delivered(_, at) => if at < |s.matched| then Done(Reply(s.matched[at])) else Awaiting
      case Dropped(_) => Done(Failed(Disconnected))
      case _ => Awaiting
  }

  /** The receiving half is looked at before the timer, so only a pending channel can time out. */
  predicate Pending(s: State, c: nat) {
    c in s.calls && s.calls[c].phase.Awaiting? && PollResult(s, c).Awaiting?
  }

  function Step(s: State, a: Action): State {
    match a
    case Connect(id, inboundCap, outboundCap) =>
      if IsValidInstanceId(id) then Connected(s, id, inboundCap, outboundCap) else s
    case Arrive(t, item) => if t in s.readers && s.readers[t].pc.Waiting? then At(s, t, Checking(item)) else s
    case End(t) => if t in s.readers && s.readers[t].pc.Waiting? then At(s, t, Leaving(true)) else s
    case Advance(t) => if t in s.readers then Advanced(s, t) else s
    case Fail(t, c) =>
      if t in s.readers && s.readers[t].pc.Failing? && c in s.readers[t].pc.corrs then Picked(s, t, c) else s
    case Begin(id, waits, kind, command) => Begun(s, id, waits, kind, command)
    case Proceed(c) => if c in s.calls then Proceeded(s, c) else s
    case Poll(c) => if c in s.calls && s.calls[c].phase.Awaiting? then In(s, c, PollResult(s, c)) else s
    case Expire(c) => if Pending(s, c) then In(s, c, TakingIndex(TimedOut)) else s
    case SetMask(id, paths) => s.(sh := MaskSection(s.sh, id, paths))
    case SetExcluded(id, components) => s.(sh := ExcludeSection(s.sh, id, components))
    case Drain(id) => s.(sh := PopSection(s.sh, id))
    case TakeOutbound(id) => s.(sh := TakeOutboundSection(s.sh, id))
    case CloseOutbound(id) => s.(sh := CloseOutboundSection(s.sh, id))
  }

  function Run(s: State, run: seq<Action>): State
    decreases |run|
  {
    if run == [] then s else Run(Step(s, run[0]), run[1..])
  }

  lemma RunCons(s: State, a: Action, rest: seq<Action>)
    ensures Run(s, [a] + rest) == Run(Step(s, a), rest)
  {
    assert ([a] + rest)[1..] == rest;
  }

  lemma RunTwo(s: State, a: Action, b: Action, rest: seq<Action>)
    ensures Run(s, [a] + ([b] + rest)) == Run(Step(Step(s, a), b), rest)
  {
    RunCons(s, a, [b] + rest);
    RunCons(Step(s, a), b, rest);
  }

  lemma {:induction false} RunConcat(s: State, a: seq<Action>, b: seq<Action>)
    ensures Run(s, a + b) == Run(Run(s, a), b)
    decreases |a|
  {
    if a == [] {
      assert a + b == b;
    } else {
      assert (a + b)[1..] == a[1..] + b;
      RunConcat(Step(s, a[0]), a[1..], b);
    }
  }

  lemma RunThen(s: State, run: seq<Action>, a: Action)
    ensures Run(s, run + [a]) == Step(Run(s, run), a)
  {
    RunConcat(s, run, [a]);
    RunCons(Run(s, run), a, []);
    assert [a] + [] == [a];
  }

  lemma Extend(run: seq<Action>, a: Action, s: State) returns (run': seq<Action>, s': State)
    requires s == Run(START, run)
    ensures run' == run + [a] && s' == Run(START, run') && s' == Step(s, a)
  {
    run', s' := run + [a], Step(s, a);
    RunThen(START, run, a);
  }
}
