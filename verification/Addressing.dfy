/** Every request is handed to one session at most, and that session has the id the request is for. */
module Addressing {
  import opened Messages
  import opened Broker
  import opened Protocol
  import opened WaiterTable
  import opened Ownership
  import opened ExactlyOnce
  import opened Footprints

  ghost predicate StreamOk(s: State, t: nat)
    requires t in s.readers
  {
    var r := s.readers[t];
    && (r.pc.Inserting? ==> r.sent == {})
    && (forall c :: c in r.sent ==> c in s.calls && s.calls[c].id == r.id && Asked(s.calls[c].phase))
  }

  predicate SentTo(s: State, t: nat, c: nat) {
    t in s.readers && c in s.readers[t].sent
  }

  ghost predicate Addressed(s: State) {
    && (forall t :: t in s.readers ==> StreamOk(s, t))
    && (forall t, u, c :: SentTo(s, t, c) && SentTo(s, u, c) ==> t == u)
  }

  ghost predicate Sound(s: State) {
    Consistent(s) && Registry(s) && Addressed(s)
  }

  /** Nobody was sent the request of a call that has yet to send it. */
  lemma UnsentBeforeSending(s: State, t: nat, c: nat)
    requires Addressed(s) && c in s.calls && !Asked(s.calls[c].phase)
    ensures !SentTo(s, t, c)
  {
    assert t in s.readers ==> StreamOk(s, t);
  }

  lemma SentToStep(s: State, a: Action, t: nat, c: nat)
    requires Sound(s)
    ensures SentTo(Step(s, a), t, c) <==> SentTo(s, t, c) || Hands(s, a, t, c)
  {
    assert t in s.readers ==> TokenOk(s, t);
    if t in Step(s, a).readers {
      SentStep(s, a, t);
    } else if t in s.readers {
      StreamsRemain(s, a, t);
    }
    if Hands(s, a, t, c) {
      assert IdOk(s, s.calls[c].id);
      StreamsRemain(s, a, t);
    }
  }

  lemma HandedIsAsked(s: State, a: Action, t: nat, c: nat)
    requires Sound(s) && Hands(s, a, t, c)
    ensures c in Step(s, a).calls && Asked(Step(s, a).calls[c].phase)
    ensures t in s.readers && s.calls[c].id == s.readers[t].id && OwnsId(s, t) && !s.readers[t].pc.Inserting?
  {
    assert Step(s, a) == Dispatched(s, c);
    assert IdOk(s, s.calls[c].id) && TokenOk(s, t) && CallOk(s, c);
  }

  lemma StreamOkStep(s: State, a: Action, t: nat)
    requires Sound(s) && t in Step(s, a).readers
    ensures StreamOk(Step(s, a), t)
  {
    var s' := Step(s, a);
    assert t in s.readers ==> TokenOk(s, t) && StreamOk(s, t);
    SentStep(s, a, t);
    forall c | c in s'.readers[t].sent
      ensures c in s'.calls && s'.calls[c].id == s'.readers[t].id && Asked(s'.calls[c].phase)
    {
      if Hands(s, a, t, c) {
        HandedIsAsked(s, a, t, c);
      }
      CallStep(s, a, c);
    }
    if t in s.readers {
      NeverInsertsAgain(s, a, t);
    }
    assert s'.readers[t].pc.Inserting? ==> forall c :: !Hands(s, a, t, c) by {
      forall c | Hands(s, a, t, c)
        ensures !s.readers[t].pc.Inserting? && t in s.readers
      {
        HandedIsAsked(s, a, t, c);
      }
    }
  }

  lemma AddressedStep(s: State, a: Action)
    requires Sound(s)
    ensures Addressed(Step(s, a))
  {
    var s' := Step(s, a);
    forall t | t in s'.readers
      ensures StreamOk(s', t)
    {
      StreamOkStep(s, a, t);
    }
    forall t, u, c | SentTo(s', t, c) && SentTo(s', u, c)
      ensures t == u
    {
      SentToStep(s, a, t, c);
      SentToStep(s, a, u, c);
      if Hands(s, a, t, c) || Hands(s, a, u, c) {
        UnsentBeforeSending(s, t, c);
        UnsentBeforeSending(s, u, c);
      }
    }
  }

  lemma SoundStep(s: State, a: Action)
    requires Sound(s)
    ensures Sound(Step(s, a))
  {
    ConsistentStep(s, a);
    RegistryStep(s, a);
    AddressedStep(s, a);
  }

  lemma {:induction false} AddressedRun(s: State, run: seq<Action>)
    requires Sound(s)
    ensures Sound(Run(s, run))
    decreases |run|
  {
    if run == [] {
    } else {
      SoundStep(s, run[0]);
      AddressedRun(Step(s, run[0]), run[1..]);
    }
  }

  /** Over every run, whatever the peers do: a request is in the stream of one session at most, one of its own id. */
  lemma RequestsReachTheirId(run: seq<Action>, t: nat, c: nat)
    requires SentTo(Run(START, run), t, c)
    ensures var s := Run(START, run);
            && c in s.calls && s.calls[c].id == s.readers[t].id
            && forall u :: SentTo(s, u, c) ==> u == t
  {
    AddressedRun(START, run);
    assert StreamOk(Run(START, run), t);
  }
}
