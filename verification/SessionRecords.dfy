/** Heartbeats are recorded faithfully, and a replaced session delivers at most one stale envelope. */
module SessionRecords {
  import opened Messages
  import opened Broker
  import opened Protocol
  import opened Ownership

  function LastBeat(consumed: seq<SimToServer>): Option<Heartbeat> {
    if consumed == [] then None
    else
      var last := consumed[|consumed| - 1].payload;
      if last.Beat? then Some(last.heartbeat) else LastBeat(consumed[..|consumed| - 1])
  }

  /** The envelopes whose heartbeat, if any, has been recorded: all but the one being recorded now. */
  function Settled(r: Reader): seq<SimToServer> {
    if r.pc.Beating? && r.consumed != [] then r.consumed[..|r.consumed| - 1] else r.consumed
  }

  ghost predicate BeatOk(s: State, t: nat)
    requires t in s.readers
  {
    var r := s.readers[t];
    && (r.pc.Inserting? ==> r.consumed == [])
    && (r.pc.Beating? ==>
          && r.consumed != [] && r.consumed[|r.consumed| - 1] == r.pc.msg
          && r.pc.msg.payload == Beat(r.pc.heartbeat))
    && (OwnsId(s, t) ==> s.sh.inner[r.id].lastHeartbeat == LastBeat(Settled(r)))
  }

  ghost predicate Faithful(s: State) {
    forall t :: t in s.readers ==> BeatOk(s, t)
  }

  ghost predicate StaleOk(s: State, t: nat)
    requires t in s.readers
  {
    var r := s.readers[t];
    && (r.pc.Inserting? || OwnsId(s, t) ==> r.stalePushes == 0)
    && r.stalePushes + (if StageOf(r.pc).Flying? then 1 else 0) <= 1
  }

  ghost predicate Bounded(s: State) {
    forall t :: t in s.readers ==> StaleOk(s, t)
  }

  ghost predicate Sound(s: State) {
    Registry(s) && Faithful(s) && Bounded(s)
  }

  lemma PlainKeeps(s: State, s': State)
    requires Sound(s) && SameSessions(s, s')
    ensures Faithful(s') && Bounded(s')
  {
    forall t | t in s'.readers
      ensures BeatOk(s', t) && StaleOk(s', t)
    {
      assert BeatOk(s, t) && StaleOk(s, t);
      assert OwnsId(s, t) <==> OwnsId(s', t);
    }
  }

  lemma ConnectedKeepsRecords(s: State, id: string, inboundCap: nat, outboundCap: nat)
    requires Sound(s) && IsValidInstanceId(id)
    ensures Faithful(Connected(s, id, inboundCap, outboundCap)) && Bounded(Connected(s, id, inboundCap, outboundCap))
  {
    var s', n := Connected(s, id, inboundCap, outboundCap), s.sh.nextToken;
    assert n in s.readers ==> TokenOk(s, n);
    assert id in s.sh.inner ==> IdOk(s, id);
    forall t | t in s'.readers
      ensures BeatOk(s', t) && StaleOk(s', t)
    {
      assert t in s.readers ==> BeatOk(s, t) && StaleOk(s, t);
    }
  }

  lemma InsertedKeepsRecords(s: State, t: nat)
    requires Sound(s) && t in s.readers && s.readers[t].pc.Inserting?
    ensures Faithful(Inserted(s, t)) && Bounded(Inserted(s, t))
  {
    var s', id := Inserted(s, t), s.readers[t].id;
    forall u | u in s'.readers
      ensures BeatOk(s', u) && StaleOk(s', u)
    {
      assert BeatOk(s, u) && StaleOk(s, u);
      assert u != t ==> (OwnsId(s', u) <==> OwnsId(s, u) && s.readers[u].id != id);
    }
  }

  lemma RemovedKeepsRecords(s: State, t: nat)
    requires Sound(s) && t in s.readers && s.readers[t].pc.Leaving?
    ensures Faithful(Removed(s, t)) && Bounded(Removed(s, t))
  {
    var s' := Removed(s, t);
    forall u | u in s'.readers
      ensures BeatOk(s', u) && StaleOk(s', u)
    {
      assert BeatOk(s, u) && StaleOk(s, u);
      assert OwnsId(s', u) ==> OwnsId(s, u);
    }
  }

  /** A reader's own step: the others keep their records because no other owner's entry changes. */
  lemma OthersKeepRecords(s: State, s': State, t: nat)
    requires Sound(s) && SameOwners(s, s') && t in s.readers
    requires s'.readers == s.readers[t := s'.readers[t]]
    requires forall id :: id in s.sh.inner && s.sh.inner[id].token != t ==>
               s'.sh.inner[id].lastHeartbeat == s.sh.inner[id].lastHeartbeat
    requires BeatOk(s', t) && StaleOk(s', t)
    ensures Faithful(s') && Bounded(s')
  {
    forall u | u in s'.readers
      ensures BeatOk(s', u) && StaleOk(s', u)
    {
      assert BeatOk(s, u) && StaleOk(s, u);
      assert OwnsId(s, u) <==> OwnsId(s', u);
    }
  }

  lemma CheckedKeepsRecords(s: State, t: nat)
    requires Sound(s) && t in s.readers && s.readers[t].pc.Checking?
    ensures Faithful(Checked(s, t)) && Bounded(Checked(s, t))
  {
    var s' := Checked(s, t);
    assert BeatOk(s, t) && StaleOk(s, t);
    NotableReaderStep(s, t);
    var r, r' := s.readers[t], s'.readers[t];
    assert r'.consumed != r.consumed ==> r'.consumed[..|r'.consumed| - 1] == r.consumed;
    OthersKeepRecords(s, s', t);
  }

  lemma RecordedKeepsRecords(s: State, t: nat)
    requires Sound(s) && t in s.readers && s.readers[t].pc.Beating?
    ensures Faithful(Recorded(s, t)) && Bounded(Recorded(s, t))
  {
    assert BeatOk(s, t) && StaleOk(s, t);
    NotableReaderStep(s, t);
    OthersKeepRecords(s, Recorded(s, t), t);
  }

  lemma PushKeepsRecords(s: State, s': State, t: nat)
    requires Sound(s) && t in s.readers && s.readers[t].pc.Pushing?
    requires SameOwners(s, s') && OnlyQueues(s, s', s.readers[t].id) && s'.readers == s.readers[t := s'.readers[t]]
    requires s'.readers[t].consumed == s.readers[t].consumed && !s'.readers[t].pc.Beating?
         && !StageOf(s'.readers[t].pc).Flying?
    requires OwnsId(s, t) ==> s'.readers[t].stalePushes == s.readers[t].stalePushes
    requires s'.readers[t].stalePushes <= s.readers[t].stalePushes + 1
    ensures Faithful(s') && Bounded(s')
  {
    assert BeatOk(s, t) && StaleOk(s, t);
    assert OwnsId(s, t) <==> OwnsId(s', t);
    OthersKeepRecords(s, s', t);
  }

  lemma DeliveringKeepsRecords(s: State, t: nat)
    requires Sound(s) && t in s.readers && s.readers[t].pc.Pushing?
    ensures Faithful(Delivering(s, t)) && Bounded(Delivering(s, t))
  {
    NotableReaderStep(s, t);
    DeliveringOnlyQueues(s, t);
    PushKeepsRecords(s, Delivering(s, t), t);
  }

  lemma RecordsStep(s: State, a: Action)
    requires Sound(s)
    ensures Sound(Step(s, a))
  {
    RegistryStep(s, a);
    if !Notable(s, a) {
      PlainStep(s, a);
      PlainKeeps(s, Step(s, a));
    } else if a.Connect? {
      if IsValidInstanceId(a.id) {
        ConnectedKeepsRecords(s, a.id, a.inboundCap, a.outboundCap);
      }
    } else {
      match s.readers[a.token].pc
      case Inserting(_, _) => InsertedKeepsRecords(s, a.token);
      case Checking(_) => CheckedKeepsRecords(s, a.token);
      case Beating(_, _) => RecordedKeepsRecords(s, a.token);
      case Pushing(_) => DeliveringKeepsRecords(s, a.token);
      case Leaving(_) => RemovedKeepsRecords(s, a.token);
    }
  }

  lemma {:induction false} RecordsRun(s: State, run: seq<Action>)
    requires Sound(s)
    ensures Sound(Run(s, run))
    decreases |run|
  {
    if run == [] {
    } else {
      RecordsStep(s, run[0]);
      RecordsRun(Step(s, run[0]), run[1..]);
    }
  }

  /**
   In every reachable state a connected id shows the last heartbeat its owner consumed, unless that owner is
   just recording it: masks, refusals and evictions do not matter.
   */
  lemma HeartbeatFaithful(run: seq<Action>, id: string)
    requires id in Run(START, run).sh.inner
    ensures var s := Run(START, run);
            var t := s.sh.inner[id].token;
            t in s.readers && s.readers[t].id == id
            && s.sh.inner[id].lastHeartbeat == LastBeat(Settled(s.readers[t]))
            && (!s.readers[t].pc.Beating? ==> s.sh.inner[id].lastHeartbeat == LastBeat(s.readers[t].consumed))
  {
    RecordsRun(START, run);
    var s := Run(START, run);
    assert IdOk(s, id) && BeatOk(s, s.sh.inner[id].token);
  }

  /** Over any run, a session puts at most one envelope into the queue of a session that replaced it. */
  lemma AtMostOneStaleEnvelope(run: seq<Action>, t: nat)
    requires t in Run(START, run).readers
    ensures var r := Run(START, run).readers[t];
            && r.stalePushes <= 1
            && (OwnsId(Run(START, run), t) ==> r.stalePushes == 0)
            && (r.stalePushes == 1 ==> !StageOf(r.pc).Flying?)
  {
    RecordsRun(START, run);
    assert StaleOk(Run(START, run), t);
  }
}
