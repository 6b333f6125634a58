/**
 What goes out to the sessions.

 The channel of a session is watched from outside: what is appended to it, and what its peer takes from it.
 */
module Wire {
  import opened Messages
  import opened Broker
  import opened Protocol
  import opened WaiterTable
  import opened Ownership
  import opened ExactlyOnce
  import opened Footprints
  import opened Addressing
  import opened Isolation

  /** Session `t` is connected, before and after. */
  predicate Stays(s: State, s': State, t: nat) {
    t in s.readers && t in s'.readers && Owns(s.sh, s.readers[t].id, t) && Owns(s'.sh, s.readers[t].id, t)
  }

  function Channel(s: State, t: nat): seq<ServerToSim>
    requires t in s.readers && Owns(s.sh, s.readers[t].id, t)
  {
    s.sh.inner[s.readers[t].id].outbound
  }

  /** By what the channel of session `t` grew in a step. */
  function Grown(s: State, s': State, t: nat): seq<ServerToSim> {
    if Stays(s, s', t) && s'.readers[t].id == s.readers[t].id && |Channel(s', t)| > |Channel(s, t)|
    then Channel(s', t)[|Channel(s, t)|..]
    else []
  }

  /** What its peer took in a step. */
  function Shrunk(s: State, s': State, t: nat): seq<ServerToSim> {
    if Stays(s, s', t) && s'.readers[t].id == s.readers[t].id && |Channel(s', t)| < |Channel(s, t)|
    then Channel(s, t)[..|Channel(s, t)| - |Channel(s', t)|]
    else []
  }

  /** All that was ever put on the channel of session `t`, in order. */
  function Put(s: State, run: seq<Action>, t: nat): seq<ServerToSim>
    decreases |run|
  {
    if run == [] then [] else Grown(s, Step(s, run[0]), t) + Put(Step(s, run[0]), run[1..], t)
  }

  /** All that its peer ever took, in order. */
  function Got(s: State, run: seq<Action>, t: nat): seq<ServerToSim>
    decreases |run|
  {
    if run == [] then [] else Shrunk(s, Step(s, run[0]), t) + Got(Step(s, run[0]), run[1..], t)
  }

  /** The request of call `c`, as it must appear on the wire. */
  predicate IsRequest(e: ServerToSim, c: nat, call: Call) {
    && e.corr == c && e.command == call.command
    && (e.ackRequested <==> call.waits && call.command.Inject?)
  }

  // One step

  /** What a step may do to the channel of a connected session. */
  ghost predicate ChannelGoesOn(s: State, a: Action, id: string)
    requires id in s.sh.inner && id in Step(s, a).sh.inner
  {
    var before, after := s.sh.inner[id], Step(s, a).sh.inner[id];
    before.token == after.token ==>
      || (exists c :: Hands(s, a, before.token, c) && s.calls[c].id == id &&
            exists e :: IsRequest(e, c, s.calls[c]) && after.outbound == before.outbound + [e])
      || (after.outbound == before.outbound && forall c :: Hands(s, a, before.token, c) ==> s.calls[c].id != id)
      || (a == TakeOutbound(id) && before.outbound != [] && after.outbound == before.outbound[1..])
  }

  lemma DispatchedChannel(s: State, c: nat, id: string)
    requires c in s.calls && s.calls[c].phase.Sending? && id in s.sh.inner && id in Dispatched(s, c).sh.inner
    ensures ChannelGoesOn(s, Proceed(c), id)
  {
    var call := s.calls[c];
    assert Step(s, Proceed(c)) == Dispatched(s, c);
    if call.id == id && SendResult(s.sh, id).Sent? {
      var e := ServerToSim(c, call.waits && call.command.Inject?, call.command);
      assert Dispatched(s, c).sh.inner[id].outbound == s.sh.inner[id].outbound + [e];
      assert Hands(s, Proceed(c), s.sh.inner[id].token, c) && IsRequest(e, c, call);
    }
  }

  lemma InsertedChannel(s: State, u: nat, id: string)
    requires u in s.readers && s.readers[u].pc.Inserting? && id in s.sh.inner && id in Inserted(s, u).sh.inner
    requires s.sh.inner[id].token != u
    ensures Inserted(s, u).sh.inner[id].token == s.sh.inner[id].token ==> Inserted(s, u).sh.inner[id] == s.sh.inner[id]
  {
  }

  lemma AdvancedChannel(s: State, u: nat, id: string)
    requires u in s.readers && id in s.sh.inner && id in Advanced(s, u).sh.inner
    requires s.readers[u].pc.Inserting? ==> s.sh.inner[id].token != u
    ensures Advanced(s, u).sh.inner[id].token == s.sh.inner[id].token ==>
              Advanced(s, u).sh.inner[id].outbound == s.sh.inner[id].outbound
  {
    match s.readers[u].pc
    case Inserting(_, _) => InsertedChannel(s, u, id);
    case Beating(_, _) => RecordedChannel(s, u, id);
    case Pushing(_) => DeliveringChannel(s, u, id);
    case Leaving(_) => RemovedChannel(s, u, id);
    case _ => AdvanceKeepsMap(s, u);
  }

  lemma RecordedChannel(s: State, u: nat, id: string)
    requires u in s.readers && s.readers[u].pc.Beating? && id in s.sh.inner
    ensures id in Recorded(s, u).sh.inner && Recorded(s, u).sh.inner[id].outbound == s.sh.inner[id].outbound
  {
  }

  lemma DeliveringChannel(s: State, u: nat, id: string)
    requires u in s.readers && s.readers[u].pc.Pushing? && id in s.sh.inner
    ensures id in Delivering(s, u).sh.inner && Delivering(s, u).sh.inner[id].outbound == s.sh.inner[id].outbound
  {
  }

  lemma RemovedChannel(s: State, u: nat, id: string)
    requires u in s.readers && s.readers[u].pc.Leaving? && id in s.sh.inner && id in Removed(s, u).sh.inner
    ensures Removed(s, u).sh.inner[id] == s.sh.inner[id]
  {
  }

  lemma ProceededChannel(s: State, c: nat, id: string)
    requires c in s.calls && !s.calls[c].phase.Sending? && id in s.sh.inner
    ensures Proceeded(s, c).sh.inner == s.sh.inner
  {
    match s.calls[c].phase
    case Registering => assert Proceeded(s, c) == Registered(s, c);
    case TakingWaiter(_) => assert Proceeded(s, c) == Dropping(s, c);
    case _ =>
  }

  lemma ChannelStep(s: State, a: Action, id: string)
    requires Registry(s) && id in s.sh.inner && id in Step(s, a).sh.inner
    ensures ChannelGoesOn(s, a, id)
  {
    assert IdOk(s, id) && TokenOk(s, s.sh.inner[id].token);
    match a
    case Advance(u) =>
      if u in s.readers {
        assert Step(s, a) == Advanced(s, u);
        AdvancedChannel(s, u, id);
      }
    case Proceed(c) =>
      if c in s.calls {
        if s.calls[c].phase.Sending? {
          assert Step(s, a) == Dispatched(s, c);
          DispatchedChannel(s, c, id);
        } else {
          assert Step(s, a) == Proceeded(s, c);
          ProceededChannel(s, c, id);
        }
      }
    case _ => OtherChannel(s, a, id);
  }

  lemma MapChannel(s: State, a: Action, id: string)
    requires TouchesMapOnly(a) && id in s.sh.inner && id in Step(s, a).sh.inner
    ensures ChannelGoesOn(s, a, id)
  {
    match a
    case TakeOutbound(other) => assert Step(s, a).sh == TakeOutboundSection(s.sh, other);
    case CloseOutbound(other) => assert Step(s, a).sh == CloseOutboundSection(s.sh, other);
    case SetMask(other, paths) => assert Step(s, a).sh == MaskSection(s.sh, other, paths);
    case SetExcluded(other, components) => assert Step(s, a).sh == ExcludeSection(s.sh, other, components);
    case Drain(other) => assert Step(s, a).sh == PopSection(s.sh, other);
  }

  lemma OtherChannel(s: State, a: Action, id: string)
    requires !a.Advance? && !a.Proceed? && id in s.sh.inner && id in Step(s, a).sh.inner
    ensures ChannelGoesOn(s, a, id)
  {
    if TouchesMapOnly(a) {
      MapChannel(s, a, id);
    }
  }

  /** A session enters with an open, empty channel of the bound it came with, and with nothing else. */
  lemma EntersEmpty(s: State, t: nat)
    requires t in s.readers && s.readers[t].pc.Inserting?
    ensures var s', r := Step(s, Advance(t)), s.readers[t];
            && s'.sh.inner.Keys == s.sh.inner.Keys + {r.id}
            && s'.sh.inner[r.id] == Instance(t, None, [], r.pc.inboundCap, [], r.pc.outboundCap, true, [], [])
  {
    assert Step(s, Advance(t)) == Inserted(s, t);
  }

  /** A connection is accepted exactly with an id of 1 to 64 characters, and gets the next token. */
  lemma ConnectsIffShort(s: State, id: string, inboundCap: nat, outboundCap: nat)
    requires Registry(s)
    ensures var s' := Step(s, Connect(id, inboundCap, outboundCap));
            if 1 <= |id| <= 64 then
              s'.readers.Keys == s.readers.Keys + {s.sh.nextToken} && s'.sh.nextToken == s.sh.nextToken + 1
              && s'.readers[s.sh.nextToken] == Reader(id, Inserting(inboundCap, outboundCap), [], {}, 0, false)
            else s' == s
  {
  }

  /** A call draws the next number, and the one after it is next; a call that waits first looks its instance up. */
  lemma BeginsWithNextNumber(s: State, id: string, waits: bool, kind: WaitKind, command: Command)
    requires Consistent(s)
    ensures var s', c := Step(s, Begin(id, waits, kind, command)), s.sh.nextCorr;
            && c !in s.calls && s'.calls.Keys == s.calls.Keys + {c} && s'.sh == s.sh.(nextCorr := c + 1)
            && s'.calls[c] == Call(id, waits, kind, command, if waits then Getting else Sending)
  {
    NumberIsFresh(s);
  }

  /** A send succeeds exactly on an open channel of a connected session that has room. */
  lemma SendsIffRoom(sh: Shared, id: string)
    ensures SendResult(sh, id).UnknownInstance? <==> id !in sh.inner
    ensures SendResult(sh, id).Sent? <==>
              id in sh.inner && sh.inner[id].outboundOpen && |sh.inner[id].outbound| < sh.inner[id].outboundCap
    ensures SendResult(sh, id).QueueFull? <==>
              id in sh.inner && (!sh.inner[id].outboundOpen || |sh.inner[id].outbound| >= sh.inner[id].outboundCap)
  {
  }

  /** Once its peer is gone, a session is sent nothing more, and senders are told that the queue is full. */
  lemma ClosedRefuses(s: State, id: string)
    requires id in s.sh.inner
    ensures var s' := Step(s, CloseOutbound(id));
            s'.sh.inner == s.sh.inner[id := s.sh.inner[id].(outboundOpen := false)] && SendResult(s'.sh, id).QueueFull?
  {
  }

  // Whole runs

  predicate Mentions(log: seq<ServerToSim>, c: nat) {
    exists i :: 0 <= i < |log| && log[i].corr == c
  }

  lemma MentionsAppend(log: seq<ServerToSim>, more: seq<ServerToSim>, c: nat)
    ensures Mentions(log + more, c) <==> Mentions(log, c) || Mentions(more, c)
  {
    if Mentions(log, c) {
      var i :| 0 <= i < |log| && log[i].corr == c;
      assert (log + more)[i].corr == c;
    }
    if Mentions(more, c) {
      var i :| 0 <= i < |more| && more[i].corr == c;
      assert (log + more)[|log| + i].corr == c;
    }
    if Mentions(log + more, c) {
      var i :| 0 <= i < |log + more| && (log + more)[i].corr == c;
      assert if i < |log| then log[i].corr == c else more[i - |log|].corr == c;
    }
  }

  /** The envelopes name the numbers a session was sent, each once, and each is its call's request. */
  ghost predicate Faithful(s: State, log: seq<ServerToSim>, t: nat) {
    (forall c :: SentTo(s, t, c) <==> Mentions(log, c)) && Requests(s.calls, log)
  }

  lemma GrownIsRequest(s: State, a: Action, t: nat)
    requires Addressing.Sound(s)
    ensures forall c :: Hands(s, a, t, c) ==>
         |Grown(s, Step(s, a), t)| == 1 && IsRequest(Grown(s, Step(s, a), t)[0], c, s.calls[c])
    ensures (forall c :: !Hands(s, a, t, c)) ==> Grown(s, Step(s, a), t) == []
  {
    var s' := Step(s, a);
    forall c | Hands(s, a, t, c)
      ensures |Grown(s, s', t)| == 1 && IsRequest(Grown(s, s', t)[0], c, s.calls[c])
    {
      HandedIsAsked(s, a, t, c);
      StreamsRemain(s, a, t);
      SentStep(s, a, t);
      assert s' == Dispatched(s, c) && TokenOk(s, t);
      DispatchedChannel(s, c, s.readers[t].id);
    }
    if Stays(s, s', t) {
      ChannelStep(s, a, s.readers[t].id);
    }
  }

  lemma RequestsStay(s: State, a: Action)
    requires Consistent(s)
    ensures forall c :: c in s.calls ==> c in Step(s, a).calls && SameRequest(s.calls[c], Step(s, a).calls[c])
  {
    forall c | c in s.calls
      ensures c in Step(s, a).calls && SameRequest(s.calls[c], Step(s, a).calls[c])
    {
      CallStep(s, a, c);
    }
  }

  lemma SentIsMentioned(s: State, log: seq<ServerToSim>, a: Action, t: nat)
    requires Addressing.Sound(s) && Faithful(s, log, t)
    ensures forall c :: SentTo(Step(s, a), t, c) <==> Mentions(log + Grown(s, Step(s, a), t), c)
  {
    var more := Grown(s, Step(s, a), t);
    GrownIsRequest(s, a, t);
    forall c
      ensures SentTo(Step(s, a), t, c) <==> Mentions(log + more, c)
    {
      SentToStep(s, a, t, c);
      MentionsAppend(log, more, c);
      MoreIsHanded(s, a, t, more, c);
    }
  }

  /** Each envelope is the request of its own call, and no two have one number. */
  ghost predicate Requests(calls: map<nat, Call>, log: seq<ServerToSim>) {
    && (forall i, j :: 0 <= i < j < |log| ==> log[i].corr != log[j].corr)
    && (forall i :: 0 <= i < |log| ==> log[i].corr in calls && IsRequest(log[i], log[i].corr, calls[log[i].corr]))
  }

  lemma HandedRequest(s: State, log: seq<ServerToSim>, a: Action, t: nat, c: nat)
    requires Addressing.Sound(s) && Requests(s.calls, log) && !Mentions(log, c) && Hands(s, a, t, c)
    ensures Requests(Step(s, a).calls, log + Grown(s, Step(s, a), t))
  {
    var more := Grown(s, Step(s, a), t);
    RequestsStay(s, a);
    GrownIsRequest(s, a, t);
    assert more == [more[0]];
    AppendKeepsRequests(s, Step(s, a), log, more[0]);
  }

  lemma RequestsStep(s: State, log: seq<ServerToSim>, a: Action, t: nat)
    requires Addressing.Sound(s) && Requests(s.calls, log) && forall c :: SentTo(s, t, c) <==> Mentions(log, c)
    ensures Requests(Step(s, a).calls, log + Grown(s, Step(s, a), t))
  {
    if c :| Hands(s, a, t, c) {
      UnsentBeforeSending(s, t, c);
      HandedRequest(s, log, a, t, c);
    } else {
      RequestsStay(s, a);
      GrownIsRequest(s, a, t);
      assert log + Grown(s, Step(s, a), t) == log;
    }
  }

  lemma FaithfulStep(s: State, log: seq<ServerToSim>, a: Action, t: nat)
    requires Addressing.Sound(s) && Faithful(s, log, t)
    ensures Faithful(Step(s, a), log + Grown(s, Step(s, a), t), t)
  {
    SentIsMentioned(s, log, a, t);
    RequestsStep(s, log, a, t);
  }

  lemma MoreIsHanded(s: State, a: Action, t: nat, more: seq<ServerToSim>, c: nat)
    requires forall d :: Hands(s, a, t, d) ==> |more| == 1 && more[0].corr == d
    requires (forall d :: !Hands(s, a, t, d)) ==> more == []
    ensures Mentions(more, c) <==> Hands(s, a, t, c)
  {
    if d :| Hands(s, a, t, d) {
      assert more == [more[0]] && more[0].corr == d;
      assert Mentions(more, c) <==> c == d;
    } else {
      assert more == [];
    }
  }

  lemma AppendKeepsRequests(s: State, s': State, log: seq<ServerToSim>, e: ServerToSim)
    requires forall c :: c in s.calls ==> c in s'.calls && SameRequest(s.calls[c], s'.calls[c])
    requires Requests(s.calls, log)
    requires !Mentions(log, e.corr) && e.corr in s.calls && IsRequest(e, e.corr, s.calls[e.corr])
    ensures Requests(s'.calls, log + [e])
  {
    assert forall i :: 0 <= i < |log| ==> log[i].corr != e.corr;
  }

  lemma {:induction false} FaithfulRun(s: State, log: seq<ServerToSim>, run: seq<Action>, t: nat)
    requires Addressing.Sound(s) && Faithful(s, log, t)
    ensures Faithful(Run(s, run), log + Put(s, run, t), t)
    decreases |run|
  {
    if run == [] {
      assert log + [] == log;
    } else {
      var s' := Step(s, run[0]);
      FaithfulStep(s, log, run[0], t);
      SoundStep(s, run[0]);
      PutShift(s, run, t, log);
      FaithfulRun(s', log + Grown(s, s', t), run[1..], t);
    }
  }

  /**
   Over every run: a number is among those a session was sent if and only if an envelope with that number was put on its
   channel, and it was put there once; that envelope carries the command of the call with this number, and asks for an
   acknowledgement exactly if the call is an inject that waits.
   */
  lemma SentIsOnTheWire(run: seq<Action>, t: nat, c: nat)
    ensures var s, log := Run(START, run), Put(START, run, t);
            && (SentTo(s, t, c) <==> Mentions(log, c))
            && (forall i, j :: 0 <= i < j < |log| ==> log[i].corr != log[j].corr)
            && (forall i :: 0 <= i < |log| && log[i].corr == c ==> c in s.calls && IsRequest(log[i], c, s.calls[c]))
  {
    FaithfulRun(START, [], run, t);
    assert [] + Put(START, run, t) == Put(START, run, t);
  }

  /** The echo rule, said of envelopes: a peer sends zero, or the number of an envelope that was put on its channel. */
  lemma HonestIsEchoing(run: seq<Action>, t: nat, msg: SimToServer)
    requires t in Run(START, run).readers
    ensures Honest(Run(START, run), Arrive(t, Envelope(msg))) <==>
              msg.corr == 0 || Mentions(Put(START, run, t), msg.corr)
  {
    SentIsOnTheWire(run, t, msg.corr);
  }

  // First in, first out

  /** What was taken, and then what is on the channel, is what was put there. */
  ghost predicate Flows(s: State, got: seq<ServerToSim>, put: seq<ServerToSim>, t: nat) {
    && got <= put
    && (!Born(s, t) ==> put == [])
    && (t in s.readers && OwnsId(s, t) ==> got + Channel(s, t) == put)
  }

  lemma FlowsStep(s: State, a: Action, got: seq<ServerToSim>, put: seq<ServerToSim>, t: nat)
    requires Addressing.Sound(s) && Flows(s, got, put, t)
    ensures Flows(Step(s, a), got + Shrunk(s, Step(s, a), t), put + Grown(s, Step(s, a), t), t)
  {
    var s' := Step(s, a);
    assert got + [] == got && put + [] == put;
    if t in s.readers {
      assert TokenOk(s, t);
      StreamsRemain(s, a, t);
      SentStep(s, a, t);
      if Born(s, t) {
        BornStays(s, a, t);
      }
      if Stays(s, s', t) {
        StayingFlows(s, a, got, put, t);
      } else if OwnsId(s', t) {
        EntryFlows(s, a, t);
      }
    } else if t in s'.readers {
      SentStep(s, a, t);
      assert t in s'.readers ==> !OwnsId(s', t) by {
        StrangerOwnsNothing(s, a, t);
      }
    }
  }

  /** A session that is connected afterwards and was not before has just entered, with an empty channel. */
  lemma EntryFlows(s: State, a: Action, t: nat)
    requires Addressing.Sound(s) && t in s.readers && t in Step(s, a).readers && !OwnsId(s, t) && OwnsId(Step(s, a), t)
    ensures !Born(s, t) && Channel(Step(s, a), t) == []
  {
    assert TokenOk(s, t);
    if !s.readers[t].pc.Inserting? {
      LostStep(s, a, t);
    } else if !Notable(s, a) {
      PlainStep(s, a);
    } else if a.Advance? {
      EntersBy(s, a.token, t);
    }
  }

  lemma EntersBy(s: State, u: nat, t: nat)
    requires Registry(s) && u in s.readers && t in s.readers && t in Advanced(s, u).readers && Notable(s, Advance(u))
    ensures OwnsId(Advanced(s, u), t) ==> OwnsId(s, t) || Channel(Advanced(s, u), t) == []
  {
    match s.readers[u].pc
    case Inserting(_, _) => assert Advanced(s, u) == Inserted(s, u);
    case Leaving(_) => assert Advanced(s, u) == Removed(s, u);
    case _ => NotableReaderStep(s, u);
  }

  lemma StrangerOwnsNothing(s: State, a: Action, t: nat)
    requires Addressing.Sound(s) && t !in s.readers && t in Step(s, a).readers
    ensures !OwnsId(Step(s, a), t) && !Born(Step(s, a), t)
  {
    SentStep(s, a, t);
    RegistryStep(s, a);
    assert TokenOk(Step(s, a), t);
  }

  lemma StayingFlows(s: State, a: Action, got: seq<ServerToSim>, put: seq<ServerToSim>, t: nat)
    requires Addressing.Sound(s) && Flows(s, got, put, t) && Stays(s, Step(s, a), t)
    requires Step(s, a).readers[t].id == s.readers[t].id
    ensures var s' := Step(s, a);
            got + Shrunk(s, s', t) + Channel(s', t) == put + Grown(s, s', t)
  {
    ChannelStep(s, a, s.readers[t].id);
  }

  lemma Regroup(a: seq<ServerToSim>, b: seq<ServerToSim>, c: seq<ServerToSim>)
    ensures a + (b + c) == a + b + c
  {
  }

  lemma GotShift(s: State, run: seq<Action>, t: nat, got: seq<ServerToSim>)
    requires run != []
    ensures var s' := Step(s, run[0]); got + Got(s, run, t) == got + Shrunk(s, s', t) + Got(s', run[1..], t)
  {
    var s' := Step(s, run[0]);
    Regroup(got, Shrunk(s, s', t), Got(s', run[1..], t));
  }

  lemma PutShift(s: State, run: seq<Action>, t: nat, put: seq<ServerToSim>)
    requires run != []
    ensures var s' := Step(s, run[0]); put + Put(s, run, t) == put + Grown(s, s', t) + Put(s', run[1..], t)
  {
    var s' := Step(s, run[0]);
    Regroup(put, Grown(s, s', t), Put(s', run[1..], t));
  }

  lemma NothingBefore(log: seq<ServerToSim>)
    ensures [] + log == log
  {
  }

  lemma FlowsMean(s: State, got: seq<ServerToSim>, put: seq<ServerToSim>, t: nat)
    requires Flows(s, got, put, t)
    ensures got <= put && (t in s.readers && OwnsId(s, t) ==> got + Channel(s, t) == put)
  {
  }

  lemma NothingShift(s: State, t: nat, log: seq<ServerToSim>)
    ensures log + Got(s, [], t) == log && log + Put(s, [], t) == log
  {
  }

  lemma {:induction false} FlowsRun(s: State, got: seq<ServerToSim>, put: seq<ServerToSim>, run: seq<Action>, t: nat)
    requires Addressing.Sound(s) && Flows(s, got, put, t)
    ensures Flows(Run(s, run), got + Got(s, run, t), put + Put(s, run, t), t)
    decreases |run|
  {
    if run == [] {
      NothingShift(s, t, got);
      NothingShift(s, t, put);
    } else {
      var s' := Step(s, run[0]);
      FlowsStep(s, run[0], got, put, t);
      SoundStep(s, run[0]);
      GotShift(s, run, t, got);
      PutShift(s, run, t, put);
      FlowsRun(s', got + Shrunk(s, s', t), put + Grown(s, s', t), run[1..], t);
    }
  }

  /**
   Over every run: a peer takes what was put on its channel, in that order; the rest is still there while it is
   connected.
   */
  lemma ChannelIsFifo(run: seq<Action>, t: nat)
    ensures Got(START, run, t) <= Put(START, run, t)
    ensures var s := Run(START, run);
            t in s.readers && OwnsId(s, t) ==> Got(START, run, t) + Channel(s, t) == Put(START, run, t)
  {
    FlowsRun(START, [], [], run, t);
    NothingBefore(Got(START, run, t));
    NothingBefore(Put(START, run, t));
    FlowsMean(Run(START, run), Got(START, run, t), Put(START, run, t), t);
  }
}
