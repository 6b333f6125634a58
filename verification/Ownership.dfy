/** Who owns an instance id, over whole runs, and how little a replaced session can still do. */
module Ownership {
  import opened Messages
  import opened InboundQueues
  import opened Broker
  import opened Protocol

  /** The part of a reader's position that matters for ownership. */
  datatype Stage = Unborn | Idle | Flying | Departing

  function StageOf(pc: Pc): Stage {
    match pc
    case Inserting(_, _) => Unborn
    case Waiting => Idle
    case Checking(_) => Idle
    case Beating(_, _) => Flying
    case Matching(_) => Flying
    case Unindexing(_) => Flying
    case Replying(_) => Flying
    case Pushing(_) => Flying
    case _ => Departing
  }

  predicate OwnsId(s: State, t: nat)
    requires t in s.readers
  {
    Owns(s.sh, s.readers[t].id, t)
  }

  // Registrations

  ghost predicate TokenOk(s: State, t: nat)
    requires t in s.readers
  {
    var r := s.readers[t];
    && t < s.sh.nextToken
    && (r.pc.Inserting? ==> !OwnsId(s, t) && !r.left)
    && (r.left ==> !OwnsId(s, t) && StageOf(r.pc).Departing?)
  }

  ghost predicate IdOk(s: State, id: string)
    requires id in s.sh.inner
  {
    var t := s.sh.inner[id].token;
    t in s.readers && s.readers[t].id == id && id in s.latest && s.latest[id] == t
  }

  ghost predicate LatestOk(s: State, id: string)
    requires id in s.latest
  {
    var t := s.latest[id];
    && t in s.readers && s.readers[t].id == id && !s.readers[t].pc.Inserting?
    && (!s.readers[t].left ==> OwnsId(s, t))
  }

  ghost predicate Registry(s: State) {
    && (forall t :: t in s.readers ==> TokenOk(s, t))
    && (forall id :: id in s.sh.inner ==> IdOk(s, id))
    && (forall id :: id in s.latest ==> LatestOk(s, id))
  }

  /** Steps after which every id has the owner it had, and every reader the standing it had. */
  ghost predicate SameOwners(s: State, s': State) {
    && s'.latest == s.latest && s'.sh.nextToken == s.sh.nextToken
    && s'.sh.inner.Keys == s.sh.inner.Keys
    && (forall id :: id in s.sh.inner ==> s'.sh.inner[id].token == s.sh.inner[id].token)
    && s'.readers.Keys == s.readers.Keys
    && (forall t :: t in s.readers ==> SameStanding(s.readers[t], s'.readers[t]))
  }

  predicate SameStanding(r: Reader, r': Reader) {
    && r'.id == r.id && r'.left == r.left
    && (r'.pc.Inserting? <==> r.pc.Inserting?)
    && (StageOf(r.pc).Departing? ==> StageOf(r'.pc).Departing?)
  }

  /** Steps that, besides, record nothing: no heartbeat, no consumed envelope, no stale push. */
  ghost predicate SameSessions(s: State, s': State) {
    && SameOwners(s, s')
    && (forall id :: id in s.sh.inner ==> s'.sh.inner[id].lastHeartbeat == s.sh.inner[id].lastHeartbeat)
    && (forall t :: t in s.readers ==> SameRecord(s.readers[t], s'.readers[t]))
  }

  predicate SameRecord(r: Reader, r': Reader) {
    && r'.consumed == r.consumed && r'.stalePushes == r.stalePushes
    && (r'.pc == r.pc || (!r.pc.Beating? && !r'.pc.Beating?))
    && (StageOf(r'.pc).Flying? ==> StageOf(r.pc).Flying?)
  }

  /** The steps that concern registrations or records. */
  predicate Notable(s: State, a: Action) {
    || a.Connect?
    || (a.Advance? && a.token in s.readers &&
        var pc := s.readers[a.token].pc;
        pc.Inserting? || pc.Checking? || pc.Beating? || pc.Pushing? || pc.Leaving?)
  }

  /** A reader moves on within the same stage and nothing registered changes. */
  ghost predicate OnlyMoves(s: State, s': State, t: nat)
    requires t in s.readers
  {
    && s'.sh.inner == s.sh.inner && s'.sh.nextToken == s.sh.nextToken && s'.latest == s.latest
    && t in s'.readers && s'.readers == s.readers[t := s.readers[t].(pc := s'.readers[t].pc)]
    && StageOf(s'.readers[t].pc) == StageOf(s.readers[t].pc) && !s'.readers[t].pc.Beating?
      && !s'.readers[t].pc.Inserting?
  }

  lemma LookupMoves(s: State, t: nat)
    requires t in s.readers
    requires var pc := s.readers[t].pc; pc.Matching? || pc.Unindexing? || pc.Replying?
    ensures OnlyMoves(s, Advanced(s, t), t)
  {
  }

  lemma PassMoves(s: State, t: nat)
    requires t in s.readers
    requires var pc := s.readers[t].pc; pc.Collecting? || pc.Failing? || pc.Taking?
    ensures OnlyMoves(s, Advanced(s, t), t)
  {
  }

  lemma PlainReaderStep(s: State, t: nat)
    requires t in s.readers && !Notable(s, Advance(t))
    ensures SameSessions(s, Advanced(s, t))
    ensures Advanced(s, t).sh.inner == s.sh.inner
  {
    var pc := s.readers[t].pc;
    if pc.Matching? || pc.Unindexing? || pc.Replying? {
      LookupMoves(s, t);
    } else if pc.Collecting? || pc.Failing? || pc.Taking? {
      PassMoves(s, t);
    }
  }

  lemma DispatchedSessions(s: State, c: nat)
    requires c in s.calls && s.calls[c].phase.Sending?
    ensures SameSessions(s, Dispatched(s, c))
  {
  }

  lemma CallTouchesNoSession(s: State, c: nat)
    requires c in s.calls && !s.calls[c].phase.Sending?
    ensures Proceeded(s, c).readers == s.readers && Proceeded(s, c).latest == s.latest
    ensures Proceeded(s, c).sh.inner == s.sh.inner && Proceeded(s, c).sh.nextToken == s.sh.nextToken
  {
  }

  lemma ViewStepSessions(s: State, a: Action)
    requires a.SetMask? || a.SetExcluded? || a.Drain?
    ensures SameSessions(s, Step(s, a))
  {
    match a
    case SetMask(_, _) =>
    case SetExcluded(_, _) =>
    case Drain(_) =>
  }

  lemma OutboundStepSessions(s: State, a: Action)
    requires a.TakeOutbound? || a.CloseOutbound?
    ensures SameSessions(s, Step(s, a))
  {
    match a
    case TakeOutbound(_) =>
    case CloseOutbound(_) =>
  }

  lemma WaitingMoves(s: State, t: nat, pc: Pc)
    requires t in s.readers && s.readers[t].pc.Waiting? && (pc.Checking? || pc.Leaving?)
    ensures SameSessions(s, At(s, t, pc))
  {
  }

  lemma PickedSessions(s: State, t: nat, c: nat)
    requires t in s.readers && s.readers[t].pc.Failing? && c in s.readers[t].pc.corrs
    ensures SameSessions(s, Picked(s, t, c))
  {
  }

  lemma PlainStep(s: State, a: Action)
    requires !Notable(s, a)
    ensures SameSessions(s, Step(s, a))
  {
    if a.Advance? {
      if a.token in s.readers {
        PlainReaderStep(s, a.token);
      }
    } else if a.Proceed? {
      if a.corr in s.calls && s.calls[a.corr].phase.Sending? {
        DispatchedSessions(s, a.corr);
      } else if a.corr in s.calls {
        CallTouchesNoSession(s, a.corr);
      }
    } else if a.Fail? {
      if a.token in s.readers && s.readers[a.token].pc.Failing? && a.corr in s.readers[a.token].pc.corrs {
        PickedSessions(s, a.token, a.corr);
      }
    } else if a.Arrive? || a.End? {
      if a.token in s.readers && s.readers[a.token].pc.Waiting? {
        WaitingMoves(s, a.token, if a.Arrive? then Checking(a.item) else Leaving(true));
      }
    } else if a.SetMask? || a.SetExcluded? || a.Drain? {
      ViewStepSessions(s, a);
    } else if a.TakeOutbound? || a.CloseOutbound? {
      OutboundStepSessions(s, a);
    }
  }

  lemma SameOwnersKeep(s: State, s': State)
    requires Registry(s) && SameOwners(s, s')
    ensures Registry(s')
  {
    assert forall t :: t in s'.readers ==> TokenOk(s, t) && (OwnsId(s, t) <==> OwnsId(s', t)) && TokenOk(s', t);
    assert forall id :: id in s'.sh.inner ==> IdOk(s, id) && IdOk(s', id);
    assert forall id :: id in s'.latest ==> LatestOk(s, id) && LatestOk(s', id);
  }

  lemma ConnectedKeeps(s: State, id: string, inboundCap: nat, outboundCap: nat)
    requires Registry(s) && IsValidInstanceId(id)
    ensures Registry(Connected(s, id, inboundCap, outboundCap))
  {
    var s', n := Connected(s, id, inboundCap, outboundCap), s.sh.nextToken;
    assert n in s.readers ==> TokenOk(s, n);
    assert id in s.sh.inner ==> IdOk(s, id);
    assert forall t :: t in s'.readers ==> (t in s.readers ==> TokenOk(s, t)) && TokenOk(s', t);
    assert forall i :: i in s'.sh.inner ==> IdOk(s, i) && IdOk(s', i);
    assert forall i :: i in s'.latest ==> LatestOk(s, i) && LatestOk(s', i);
  }

  lemma InsertedKeeps(s: State, t: nat)
    requires Registry(s) && t in s.readers && s.readers[t].pc.Inserting?
    ensures Registry(Inserted(s, t))
  {
    var s', id := Inserted(s, t), s.readers[t].id;
    assert TokenOk(s, t);
    forall u | u in s'.readers
      ensures TokenOk(s', u)
    {
      assert TokenOk(s, u);
      assert OwnsId(s', u) <==> u == t || (OwnsId(s, u) && s.readers[u].id != id);
    }
    assert forall i :: i in s'.sh.inner && i != id ==> IdOk(s, i) && IdOk(s', i);
    forall i | i in s'.latest && i != id
      ensures LatestOk(s', i)
    {
      assert LatestOk(s, i);
    }
  }

  lemma RemovedKeeps(s: State, t: nat)
    requires Registry(s) && t in s.readers && s.readers[t].pc.Leaving?
    ensures Registry(Removed(s, t))
  {
    var s' := Removed(s, t);
    assert TokenOk(s, t);
    assert forall u :: u in s'.readers ==> TokenOk(s, u) && TokenOk(s', u);
    assert forall i :: i in s'.sh.inner ==> IdOk(s, i) && IdOk(s', i);
    assert forall i :: i in s'.latest ==> LatestOk(s, i) && LatestOk(s', i);
  }

  lemma NotableReaderStep(s: State, t: nat)
    requires t in s.readers && (s.readers[t].pc.Checking? || s.readers[t].pc.Beating? || s.readers[t].pc.Pushing?)
    ensures SameOwners(s, Advanced(s, t))
  {
  }

  lemma RegistryStep(s: State, a: Action)
    requires Registry(s)
    ensures Registry(Step(s, a))
  {
    if !Notable(s, a) {
      PlainStep(s, a);
      SameOwnersKeep(s, Step(s, a));
    } else if a.Connect? {
      if IsValidInstanceId(a.id) {
        ConnectedKeeps(s, a.id, a.inboundCap, a.outboundCap);
      }
    } else if s.readers[a.token].pc.Inserting? {
      InsertedKeeps(s, a.token);
    } else if s.readers[a.token].pc.Leaving? {
      RemovedKeeps(s, a.token);
    } else {
      NotableReaderStep(s, a.token);
      SameOwnersKeep(s, Step(s, a));
    }
  }

  lemma {:induction false} RegistryRun(s: State, run: seq<Action>)
    requires Registry(s)
    ensures Registry(Run(s, run))
    decreases |run|
  {
    if run == [] {
    } else {
      RegistryStep(s, run[0]);
      RegistryRun(Step(s, run[0]), run[1..]);
    }
  }

  /**
   An id is connected exactly when its most recently inserted session has not removed itself; that session owns it.
   */
  lemma ConnectedIffLatestRemains(run: seq<Action>, id: string)
    ensures var s := Run(START, run);
            && (id in s.sh.inner <==> id in s.latest && s.latest[id] in s.readers && !s.readers[s.latest[id]].left)
            && (id in s.sh.inner ==> s.sh.inner[id].token == s.latest[id])
  {
    RegistryRun(START, run);
    var s := Run(START, run);
    assert id in s.sh.inner ==> IdOk(s, id);
    assert id in s.latest ==> LatestOk(s, id);
    assert id in s.latest && s.latest[id] in s.readers ==> TokenOk(s, s.latest[id]);
  }

  // Ownership is lost for good

  /** Registered once, but not (any more) the owner. */
  predicate Lost(s: State, t: nat) {
    t in s.readers && !s.readers[t].pc.Inserting? && !OwnsId(s, t)
  }

  lemma LostStep(s: State, a: Action, t: nat)
    requires Registry(s) && Lost(s, t)
    ensures Lost(Step(s, a), t) && Step(s, a).readers[t].id == s.readers[t].id
  {
    assert TokenOk(s, t);
    if !Notable(s, a) {
      PlainStep(s, a);
    } else if a.Advance? {
      NotableKeepsLost(s, a.token, t);
    }
  }

  lemma NotableKeepsLost(s: State, u: nat, t: nat)
    requires Lost(s, t) && Notable(s, Advance(u))
    ensures Lost(Advanced(s, u), t) && Advanced(s, u).readers[t].id == s.readers[t].id
  {
    var pc := s.readers[u].pc;
    if pc.Checking? || pc.Beating? || pc.Pushing? {
      NotableReaderStep(s, u);
    }
  }

  lemma {:induction false} LostForGood(s: State, run: seq<Action>, t: nat)
    requires Registry(s) && Lost(s, t)
    ensures Lost(Run(s, run), t)
    decreases |run|
  {
    if run == [] {
    } else {
      LostStep(s, run[0], t);
      RegistryStep(s, run[0]);
      LostForGood(Step(s, run[0]), run[1..], t);
    }
  }

  /** Over whole runs: a session that lost its id, or never had it since inserting, never owns it again. */
  lemma OwnershipNeverRegained(before: seq<Action>, after: seq<Action>, t: nat)
    requires Lost(Run(START, before), t)
    ensures Lost(Run(START, before + after), t)
  {
    RegistryRun(START, before);
    RunConcat(START, before, after);
    LostForGood(Run(START, before), after, t);
  }

  ghost predicate OnlyQueues(s: State, s': State, id: string) {
    && s'.sh.inner.Keys == s.sh.inner.Keys
    && (forall i :: i in s.sh.inner ==>
          && s'.sh.inner[i] == s.sh.inner[i].(inbound := s'.sh.inner[i].inbound)
          && (i != id ==> s'.sh.inner[i] == s.sh.inner[i]))
  }

  lemma DeliveringOnlyQueues(s: State, t: nat)
    requires t in s.readers && s.readers[t].pc.Pushing?
    ensures OnlyQueues(s, Delivering(s, t), s.readers[t].id)
  {
  }

  /** A reader that lost its id can only queue an envelope: no registration and no heartbeat is its to change. */
  lemma LostReaderOnlyQueues(s: State, a: Action, t: nat)
    requires Lost(s, t) && (a == Advance(t) || (a.Fail? && a.token == t))
    ensures OnlyQueues(s, Step(s, a), s.readers[t].id)
    ensures !s.readers[t].pc.Pushing? ==> Step(s, a).sh.inner == s.sh.inner
  {
    if a.Advance? {
      if s.readers[t].pc.Pushing? {
        DeliveringOnlyQueues(s, t);
      } else if !Notable(s, a) {
        PlainReaderStep(s, t);
      }
    }
  }
}
