/**
 Setting a session's view, interleaved with everything else.

 A view call enqueues the wire view and afterwards, in two more sections, stores the caller's mask and excludes for
 whoever holds the id by then. The view calls for one id are taken to be serialized; nothing else is. `told` and
 `last` record what happened and no branch reads them.
 */
module ViewRuns {
  import opened Messages
  import opened InboundQueues
  import opened Broker
  import opened Protocol
  import opened WaiterTable
  import opened Ownership
  import opened ExactlyOnce
  import opened Footprints
  import opened SessionView

  datatype View = View(paths: seq<string>, excluded: seq<string>)

  const NO_VIEW := View([], [])

  /** Where the view call stands. `to` is the session its request was handed to, `masked` the one it set the mask of. */
  datatype Stage =
    | Resting
    | Found(view: View)
    | Drawn(view: View, corr: nat)
    | Masking(view: View, to: nat)
    | Excluding(view: View, to: nat, masked: Option<nat>)

  /** A finished call: whom it told, and who held the id when its mask and its excludes were stored. */
  datatype Landing = Landing(view: View, to: nat, masked: Option<nat>, excluded: Option<nat>)

  /** `told` holds the view each session was last sent. */
  datatype World = World(s: State, id: string, stage: Stage, told: map<nat, View>, last: Option<Landing>)

  datatype Move = Other(action: Action) | Look(view: View) | Draw | Send | Mask | Exclude

  /** The view calls are the only ones that set the view of this id, and make their own steps. */
  predicate Regular(w: World, a: Action) {
    && (a.SetMask? || a.SetExcluded? ==> a.id != w.id)
    && (a.Begin? && a.command.SetSessionView? ==> a.id != w.id)
    && (a.Proceed? && w.stage.Drawn? ==> a.corr != w.stage.corr)
  }

  function HolderOf(s: State, id: string): Option<nat> {
    if id in s.sh.inner then Some(s.sh.inner[id].token) else None
  }

  function BeginOf(id: string, view: View): Action {
    Begin(id, false, WaitAny, SetSessionView(WirePaths(view.paths), view.excluded))
  }

  function CallOf(id: string, view: View, phase: Phase): Call {
    Call(id, false, WaitAny, SetSessionView(WirePaths(view.paths), view.excluded), phase)
  }

  function Dispatch(w: World): World
    requires w.stage.Drawn?
  {
    var s', to := Step(w.s, Proceed(w.stage.corr)), HolderOf(w.s, w.id);
    if SendResult(w.s.sh, w.id).Sent? && to.Some?
    then w.(s := s', stage := Masking(w.stage.view, to.value), told := w.told[to.value := w.stage.view])
    else w.(s := s', stage := Resting)
  }

  function Next(w: World, m: Move): World {
    match m
    case Other(a) => if Regular(w, a) then w.(s := Step(w.s, a)) else w
    case Look(view) => if w.stage.Resting? && w.id in w.s.sh.inner then w.(stage := Found(view)) else w
    case Draw =>
      if w.stage.Found? then w.(s := Step(w.s, BeginOf(w.id, w.stage.view)),
        stage := Drawn(w.stage.view, w.s.sh.nextCorr))
      else w
    case Send => if w.stage.Drawn? then Dispatch(w) else w
    case Mask =>
      if w.stage.Masking?
      then w.(s := Step(w.s, SetMask(w.id, w.stage.view.paths)),
              stage := Excluding(w.stage.view, w.stage.to, HolderOf(w.s, w.id)))
      else w
    case Exclude =>
      if w.stage.Excluding?
      then w.(s := Step(w.s, SetExcluded(w.id, w.stage.view.excluded)),
              stage := Resting,
              last := Some(Landing(w.stage.view, w.stage.to, w.stage.masked, HolderOf(w.s, w.id))))
      else w
  }

  function History(w: World, moves: seq<Move>): World
    decreases |moves|
  {
    if moves == [] then w else History(Next(w, moves[0]), moves[1..])
  }

  function Fresh(id: string): World {
    World(START, id, Resting, map[], None)
  }

  // Host view and last sent view

  function HostView(inst: Instance): View {
    View(inst.readMask, inst.excluded)
  }

  function ToldTo(w: World, t: nat): View {
    if t in w.told then w.told[t] else NO_VIEW
  }

  /** The host filters by the view its session was last sent. */
  predicate InStep(w: World) {
    w.id in w.s.sh.inner ==> HostView(w.s.sh.inner[w.id]) == ToldTo(w, w.s.sh.inner[w.id].token)
  }

  /** The last call told another session, and stored something that shows for session `t`. */
  predicate Misled(last: Option<Landing>, t: nat) {
    last.Some? && last.value.to != t &&
    ((last.value.masked == Some(t) && last.value.view.paths != []) ||
     (last.value.excluded == Some(t) && last.value.view.excluded != []))
  }

  /** No call is between its request and its last section. */
  predicate AtRest(w: World) {
    !w.stage.Masking? && !w.stage.Excluding?
  }

  // The invariant

  /** What the last call left with a session that was never told a view. */
  function LeftWith(last: Option<Landing>, t: nat): View {
    View(if last.Some? && last.value.masked == Some(t) then last.value.view.paths else [],
         if last.Some? && last.value.excluded == Some(t) then last.value.view.excluded else [])
  }

  predicate HolderOk(w: World, inst: Instance) {
    var t, told := inst.token, inst.token in w.told;
    match w.stage
    case Masking(view, to) =>
      if t == to then told && w.told[t] == view else !told && HostView(inst) == NO_VIEW
    case Excluding(view, to, masked) =>
      if t == to then told && w.told[t] == view && inst.readMask == view.paths && masked == Some(to)
      else !told && inst.excluded == [] && inst.readMask == if masked == Some(t) then view.paths else []
    case _ =>
      if told then HostView(inst) == w.told[t] && w.last.Some? && w.last.value.to == t
      else HostView(inst) == LeftWith(w.last, t)
  }

  ghost predicate AllBorn(s: State, ts: set<nat>) {
    forall t :: t in ts ==> Born(s, t)
  }

  function Those(t: Option<nat>): set<nat> {
    if t.Some? then {t.value} else {}
  }

  /** The sessions the bookkeeping mentions. */
  function Mentioned(w: World): set<nat> {
    w.told.Keys
    + (if w.last.Some? then Those(w.last.value.masked) + Those(w.last.value.excluded) else {})
    + (if w.stage.Excluding? then Those(w.stage.masked) else {})
  }

  ghost predicate Orderly(w: World) {
    && Consistent(w.s) && Registry(w.s)
    && AllBorn(w.s, Mentioned(w))
    && (w.last.Some? ==> w.last.value.to in w.told)
    && (w.stage.Masking? || w.stage.Excluding? ==> w.stage.to in w.told)
    && (w.stage.Drawn? ==> w.stage.corr in w.s.calls && w.s.calls[w.stage.corr] == CallOf(w.id, w.stage.view, Sending))
    && (w.id in w.s.sh.inner ==> HolderOk(w, w.s.sh.inner[w.id]))
  }

  lemma AllBornStays(s: State, a: Action, ts: set<nat>)
    requires Registry(s) && AllBorn(s, ts)
    ensures AllBorn(Step(s, a), ts)
  {
    forall t | t in ts
      ensures Born(Step(s, a), t)
    {
      BornStays(s, a, t);
    }
  }

  lemma HolderBorn(s: State, id: string)
    requires Registry(s) && id in s.sh.inner
    ensures Born(s, s.sh.inner[id].token)
  {
    assert IdOk(s, id) && TokenOk(s, s.sh.inner[id].token);
  }

  /** A session that has just entered is mentioned nowhere, so it starts in step whatever the call is doing. */
  lemma EntrantOk(w: World, a: Action, t: nat)
    requires Orderly(w) && Enters(w.s, a, t, w.id)
    ensures forall inboundCap, outboundCap :: HolderOk(w, NewInstance(t, inboundCap, outboundCap))
  {
    assert t !in Mentioned(w);
  }

  /** Another step keeps the view of the id's entry, or removes or replaces the entry. */
  lemma SameViewOk(w: World, s': State)
    requires Orderly(w) && w.id in w.s.sh.inner && w.id in s'.sh.inner
    requires SameView(w.s.sh.inner[w.id], s'.sh.inner[w.id])
    ensures HolderOk(w, s'.sh.inner[w.id])
  {
  }

  lemma OtherEntry(w: World, a: Action)
    requires Orderly(w) && Regular(w, a)
    ensures w.id in Step(w.s, a).sh.inner ==> HolderOk(w, Step(w.s, a).sh.inner[w.id])
  {
    var s' := Step(w.s, a);
    if w.id in s'.sh.inner {
      if a == Drain(w.id) {
        SameViewOk(w, s');
      } else {
        EntryStep(w.s, a, w.id);
        if w.id in w.s.sh.inner && SameView(w.s.sh.inner[w.id], s'.sh.inner[w.id]) {
          SameViewOk(w, s');
        } else {
          EntrantOk(w, a, a.token);
        }
      }
    }
  }

  /** Nobody but the view call moves a request that waits to be sent. */
  lemma DrawnStays(s: State, a: Action, c: nat)
    requires Consistent(s) && c in s.calls && s.calls[c].phase.Sending? && a != Proceed(c)
    ensures c in Step(s, a).calls && Step(s, a).calls[c] == s.calls[c]
  {
    if !MovesCall(s, a) {
      OthersLeaveCalls(s, a);
    } else if a.Begin? {
      NumberIsFresh(s);
    } else if a.Proceed? {
      ProceedGoesOn(s, a.corr);
    }
  }

  lemma OtherKeeps(w: World, a: Action)
    requires Orderly(w) && Regular(w, a)
    ensures Orderly(w.(s := Step(w.s, a)))
  {
    ConsistentStep(w.s, a);
    RegistryStep(w.s, a);
    AllBornStays(w.s, a, Mentioned(w));
    OtherEntry(w, a);
    if w.stage.Drawn? {
      DrawnStays(w.s, a, w.stage.corr);
    }
  }

  lemma DrawKeeps(w: World)
    requires Orderly(w) && w.stage.Found?
    ensures Orderly(Next(w, Draw))
  {
    var a := BeginOf(w.id, w.stage.view);
    assert Step(w.s, a) == Begun(w.s, w.id, false, WaitAny, a.command);
    ConsistentStep(w.s, a);
    RegistryStep(w.s, a);
    AllBornStays(w.s, a, Mentioned(w));
  }

  lemma SendKeeps(w: World)
    requires Orderly(w) && w.stage.Drawn?
    ensures Orderly(Next(w, Send))
  {
    var a := Proceed(w.stage.corr);
    EntryStep(w.s, a, w.id);
    StateKeeps(w, a);
  }

  /** The invariant survives a step of the state as far as it does not concern the holder's entry. */
  lemma StateKeeps(w: World, a: Action)
    requires Orderly(w)
    ensures Consistent(Step(w.s, a)) && Registry(Step(w.s, a)) && AllBorn(Step(w.s, a), Mentioned(w))
    ensures w.id in w.s.sh.inner ==> Born(Step(w.s, a), w.s.sh.inner[w.id].token)
  {
    ConsistentStep(w.s, a);
    RegistryStep(w.s, a);
    AllBornStays(w.s, a, Mentioned(w));
    if w.id in w.s.sh.inner {
      HolderBorn(w.s, w.id);
      BornStays(w.s, a, w.s.sh.inner[w.id].token);
    }
  }

  lemma MaskKeeps(w: World)
    requires Orderly(w) && w.stage.Masking?
    ensures Orderly(Next(w, Mask))
  {
    var a := SetMask(w.id, w.stage.view.paths);
    StateKeeps(w, a);
  }

  lemma ExcludeKeeps(w: World)
    requires Orderly(w) && w.stage.Excluding?
    ensures Orderly(Next(w, Exclude))
  {
    var a := SetExcluded(w.id, w.stage.view.excluded);
    StateKeeps(w, a);
  }

  lemma OrderlyNext(w: World, m: Move)
    requires Orderly(w)
    ensures Orderly(Next(w, m))
  {
    match m
    case Other(a) =>
      if Regular(w, a) {
        OtherKeeps(w, a);
      }
    case Look(_) =>
    case Draw =>
      if w.stage.Found? {
        DrawKeeps(w);
      }
    case Send =>
      if w.stage.Drawn? {
        SendKeeps(w);
      }
    case Mask =>
      if w.stage.Masking? {
        MaskKeeps(w);
      }
    case Exclude =>
      if w.stage.Excluding? {
        ExcludeKeeps(w);
      }
  }

  lemma {:induction false} OrderlyHistory(w: World, moves: seq<Move>)
    requires Orderly(w)
    ensures Orderly(History(w, moves)) && History(w, moves).id == w.id
    decreases |moves|
  {
    if moves == [] {
    } else {
      OrderlyNext(w, moves[0]);
      OrderlyHistory(Next(w, moves[0]), moves[1..]);
    }
  }

  /**
   Over every history of view calls, other calls, traffic, drains, departures and replacements: between calls the
   host view of a connected session is the view it was last sent, except exactly when the last call told another
   session and stored a part that shows for this one.
   */
  lemma HostViewIsLastSentIff(id: string, moves: seq<Move>)
    requires var w := History(Fresh(id), moves); AtRest(w) && id in w.s.sh.inner
    ensures var w := History(Fresh(id), moves); InStep(w) <==> !Misled(w.last, w.s.sh.inner[id].token)
  {
    OrderlyHistory(Fresh(id), moves);
  }

  // Without replacements inside calls

  /** A session enters the map under the id between a view call's request and its last section. */
  predicate Disturbs(w: World, m: Move) {
    && !AtRest(w) && m.Other?
    && m.action.Advance? && Enters(w.s, m.action, m.action.token, w.id)
  }

  ghost predicate Undisturbed(w: World, moves: seq<Move>)
    decreases |moves|
  {
    moves == [] || (!Disturbs(w, moves[0]) && Undisturbed(Next(w, moves[0]), moves[1..]))
  }

  predicate OnlyOr(t: nat, u: Option<nat>) {
    u == None || u == Some(t)
  }

  /** Whatever a call stored, it stored for the session it told, or for nobody. */
  ghost predicate Straight(w: World) {
    && (w.last.Some? ==> OnlyOr(w.last.value.to, w.last.value.masked) && OnlyOr(w.last.value.to, w.last.value.excluded))
    && (!AtRest(w) ==> OnlyOr(w.stage.to, HolderOf(w.s, w.id)))
    && (w.stage.Excluding? ==> OnlyOr(w.stage.to, w.stage.masked))
  }

  lemma HolderStays(w: World, a: Action)
    requires Orderly(w) && Straight(w) && Regular(w, a) && !Disturbs(w, Other(a)) && !AtRest(w)
    ensures OnlyOr(w.stage.to, HolderOf(Step(w.s, a), w.id))
  {
    if a != Drain(w.id) {
      EntryStep(w.s, a, w.id);
    }
  }

  lemma StraightNext(w: World, m: Move)
    requires Orderly(w) && Straight(w) && !Disturbs(w, m)
    ensures Straight(Next(w, m))
  {
    match m
    case Other(a) =>
      if Regular(w, a) && !AtRest(w) {
        HolderStays(w, a);
      }
    case Send =>
      if w.stage.Drawn? {
        assert Step(w.s, Proceed(w.stage.corr)) == Dispatched(w.s, w.stage.corr);
      }
    case _ =>
  }

  lemma {:induction false} StraightHistory(w: World, moves: seq<Move>)
    requires Orderly(w) && Straight(w) && Undisturbed(w, moves)
    ensures Straight(History(w, moves))
    decreases |moves|
  {
    if moves == [] {
    } else {
      StraightNext(w, moves[0]);
      OrderlyNext(w, moves[0]);
      StraightHistory(Next(w, moves[0]), moves[1..]);
    }
  }

  /** As long as no session enters under the id inside a view call, the host view between calls is the one last sent. */
  lemma HostViewIsLastSent(id: string, moves: seq<Move>)
    requires Undisturbed(Fresh(id), moves) && AtRest(History(Fresh(id), moves))
    ensures InStep(History(Fresh(id), moves))
  {
    StraightHistory(Fresh(id), moves);
    OrderlyHistory(Fresh(id), moves);
    if id in History(Fresh(id), moves).s.sh.inner {
      HostViewIsLastSentIff(id, moves);
    }
  }

  lemma SendEnqueues(s: State, c: nat, id: string, view: View)
    requires c in s.calls && s.calls[c] == CallOf(id, view, Sending) && SendResult(s.sh, id).Sent?
    ensures var s' := Step(s, Proceed(c));
            s'.sh.inner == s.sh.inner[id := s.sh.inner[id].(outbound := s.sh.inner[id].outbound
              + [ViewEnvelope(c, view.paths, view.excluded)])]
  {
    assert Step(s, Proceed(c)) == Dispatched(s, c);
  }

  /** `told` is what went out: the request a call hands over is the wire form of the view it is recorded with. */
  lemma ToldIsEnqueued(w: World)
    requires Orderly(w) && w.stage.Drawn? && SendResult(w.s.sh, w.id).Sent?
    ensures var w', t := Next(w, Send), w.s.sh.inner[w.id].token;
            && w'.told == w.told[t := w.stage.view] && w.id in w'.s.sh.inner && w'.s.sh.inner[w.id].token == t
            && w'.s.sh.inner[w.id].outbound
            == w.s.sh.inner[w.id].outbound + [ViewEnvelope(w.stage.corr, w.stage.view.paths, w.stage.view.excluded)]
  {
    SendEnqueues(w.s, w.stage.corr, w.id, w.stage.view);
  }

  // The sequential call

  function WholeCall(w: World, view: View): World {
    Next(Next(Next(Next(Next(w, Look(view)), Draw), Send), Mask), Exclude)
  }

  lemma DrawnAlone(w: World, view: View)
    requires Orderly(w) && w.stage.Resting? && w.id in w.s.sh.inner
    ensures var w2, c := Next(Next(w, Look(view)), Draw), w.s.sh.nextCorr;
            && w2.id == w.id && w2.stage == Drawn(view, c) && w2.s.sh == w.s.sh.(nextCorr := c + 1)
            && c in w2.s.calls && w2.s.calls[c] == CallOf(w.id, view, Sending)
  {
  }

  lemma RequestAlone(w: World, view: View)
    requires Orderly(w) && w.stage.Resting? && w.id in w.s.sh.inner
    ensures var w3, numbered := Next(Next(Next(w, Look(view)), Draw), Send), w.s.sh.(nextCorr := w.s.sh.nextCorr + 1);
            && w3.id == w.id
            && w3.s.sh == SendSection(numbered, w.id, ViewEnvelope(w.s.sh.nextCorr, view.paths, view.excluded))
            && if SendResult(numbered, w.id).Sent? then w3.stage == Masking(view, w.s.sh.inner[w.id].token)
              else w3.stage.Resting?
  {
    var w2, c := Next(Next(w, Look(view)), Draw), w.s.sh.nextCorr;
    DrawnAlone(w, view);
    assert Step(w2.s, Proceed(c)) == Dispatched(w2.s, c);
  }

  lemma StoresAlone(w: World)
    requires w.stage.Masking?
    ensures var view := w.stage.view;
            Next(Next(w, Mask), Exclude).s.sh == ExcludeSection(MaskSection(w.s.sh, w.id, view.paths), w.id,
              view.excluded)
  {
    var view := w.stage.view;
    var w1 := Next(w, Mask);
    assert w1.s.sh == MaskSection(w.s.sh, w.id, view.paths) && w1.stage.Excluding? && w1.stage.view == view;
    assert Next(w1, Exclude).s.sh == ExcludeSection(w1.s.sh, w.id, view.excluded);
  }

  /** With nothing in between, a view call does what the sequential call does. */
  lemma CallAloneIsViewSet(w: World, view: View)
    requires Orderly(w) && w.stage.Resting? && w.id in w.s.sh.inner
    ensures WholeCall(w, view).s.sh == ViewSet(w.s.sh, w.id, view.paths, view.excluded)
  {
    RequestAlone(w, view);
    var w3 := Next(Next(Next(w, Look(view)), Draw), Send);
    if w3.stage.Masking? {
      StoresAlone(w3);
    } else {
      assert Next(Next(w3, Mask), Exclude) == w3;
    }
  }

  // Why the exception is needed

  lemma {:induction false} HistoryThen(w: World, moves: seq<Move>, m: Move)
    ensures History(w, moves + [m]) == Next(History(w, moves), m)
    decreases |moves|
  {
    if moves == [] {
      assert ([m])[1..] == [];
    } else {
      assert (moves + [m])[1..] == moves[1..] + [m];
      HistoryThen(Next(w, moves[0]), moves[1..], m);
    }
  }

  lemma Extend(moves: seq<Move>, m: Move, w: World) returns (moves': seq<Move>, w': World)
    requires w == History(Fresh("a"), moves)
    ensures moves' == moves + [m] && w' == History(Fresh("a"), moves') && w' == Next(w, m)
  {
    moves', w' := moves + [m], Next(w, m);
    HistoryThen(Fresh("a"), moves, m);
  }

  const LOGS := View(["log"], [])

  lemma FirstSessionIsAsked() returns (moves: seq<Move>, w: World)
    ensures w == History(Fresh("a"), moves)
    ensures w.id == "a" && w.stage == Drawn(LOGS, 1) && w.told == map[]
    ensures w.s.sh.inner == map["a" := NewInstance(1, 1, 1)] && w.s.sh.nextToken == 2
    ensures w.s.calls == map[1 := CallOf("a", LOGS, Sending)]
    ensures w.s.readers == map[1 := Reader("a", Waiting, [], {}, 0, false)]
  {
    moves, w := Extend([], Other(Connect("a", 1, 1)), Fresh("a"));
    moves, w := Extend(moves, Other(Advance(1)), w);
    moves, w := Extend(moves, Look(LOGS), w);
    moves, w := Extend(moves, Draw, w);
  }

  lemma FirstSessionIsTold() returns (moves: seq<Move>, w: World)
    ensures w == History(Fresh("a"), moves)
    ensures w.id == "a" && w.stage == Masking(LOGS, 1) && w.told == map[1 := LOGS] && w.s.sh.nextToken == 2
    ensures 1 in w.s.calls && w.s.calls[1] == CallOf("a", LOGS, Done(Queued))
    ensures w.s.readers.Keys == {1}
  {
    moves, w := FirstSessionIsAsked();
    moves, w := Extend(moves, Send, w);
  }

  lemma SecondSessionEnters() returns (moves: seq<Move>, w: World)
    ensures w == History(Fresh("a"), moves)
    ensures w.id == "a" && w.stage == Masking(LOGS, 1) && w.told == map[1 := LOGS]
    ensures 1 in w.s.calls && w.s.calls[1] == CallOf("a", LOGS, Done(Queued))
    ensures "a" in w.s.sh.inner && w.s.sh.inner["a"] == NewInstance(2, 1, 1)
    ensures 2 in w.s.readers && w.s.readers[2].sent == {}
  {
    moves, w := FirstSessionIsTold();
    moves, w := Extend(moves, Other(Connect("a", 1, 1)), w);
    moves, w := Extend(moves, Other(Advance(2)), w);
  }

  /**
   One view call and one re-registration: the call succeeds, and its mask lands on a session that was told nothing.
   */
  lemma ViewLandsOnSuccessor() returns (moves: seq<Move>)
    ensures var w := History(Fresh("a"), moves);
            && AtRest(w) && !InStep(w) && "a" in w.s.sh.inner
            && w.s.sh.inner["a"].token == 2 && w.s.sh.inner["a"].readMask == ["log"]
            && w.s.sh.inner["a"].outbound == [] && 2 in w.s.readers && w.s.readers[2].sent == {}
            && 1 in w.s.calls && w.s.calls[1].phase == Done(Queued)
  {
    var w;
    moves, w := SecondSessionEnters();
    moves, w := Extend(moves, Mask, w);
    moves, w := Extend(moves, Exclude, w);
  }

  // Why the calls are serialized

  const FRAMES := View(["snapshot"], [])

  lemma TwoViewsAreSent() returns (run: seq<Action>, s: State)
    ensures s == Run(START, run)
    ensures "a" in s.sh.inner
    ensures s.sh.inner["a"] == NewInstance(1, 1,
         2).(outbound := [ViewEnvelope(1, LOGS.paths, []), ViewEnvelope(2, FRAMES.paths, [])])
  {
    run, s := Protocol.Extend([], Connect("a", 1, 2), START);
    run, s := Protocol.Extend(run, Advance(1), s);
    run, s := Protocol.Extend(run, BeginOf("a", LOGS), s);
    run, s := Protocol.Extend(run, BeginOf("a", FRAMES), s);
    run, s := Protocol.Extend(run, Proceed(1), s);
    run, s := Protocol.Extend(run, Proceed(2), s);
  }

  /**
   Two view calls whose last sections come in the other order than their requests: the wire has one, the host the
   other.
   */
  lemma ConcurrentViewsDisagree() returns (run: seq<Action>)
    ensures var s := Run(START, run);
            && "a" in s.sh.inner && s.sh.inner["a"].token == 1
            && s.sh.inner["a"].outbound == [ViewEnvelope(1, LOGS.paths, []), ViewEnvelope(2, FRAMES.paths, [])]
            && HostView(s.sh.inner["a"]) == LOGS
  {
    var s;
    run, s := TwoViewsAreSent();
    run, s := Protocol.Extend(run, SetMask("a", FRAMES.paths), s);
    run, s := Protocol.Extend(run, SetExcluded("a", FRAMES.excluded), s);
    run, s := Protocol.Extend(run, SetMask("a", LOGS.paths), s);
    run, s := Protocol.Extend(run, SetExcluded("a", LOGS.excluded), s);
  }
}
