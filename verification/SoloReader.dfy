/**
 The two layers agree: a session task that nothing interrupts takes the transition system through exactly the
 states of the sequential read loop.
 */
module SoloReader {
  import opened Messages
  import opened Broker
  import opened Protocol
  import opened WaiterTable
  import opened Footprints
  import opened NoStranded
  import opened SessionReaders

  /** `run`, from `s0` to `s`, is the work of task `t` alone. */
  ghost predicate Solo(s0: State, run: seq<Action>, s: State, t: nat) {
    && s == Run(s0, run) && Consistent(s) && t in s.readers
    && ByReader(run, t)
  }

  lemma Onward(s0: State, run: seq<Action>, s: State, t: nat) returns (run': seq<Action>, s': State)
    requires Solo(s0, run, s, t)
    ensures Solo(s0, run', s', t) && s' == Advanced(s, t)
  {
    run', s' := run + [Advance(t)], Advanced(s, t);
    RunThen(s0, run, Advance(t));
    AdvanceKeeps(s, t);
    AdvanceSends(s, t);
  }

  /** A matched waiter leaves the second table before its reply is handed over. */
  lemma HandOverAlone(s0: State, run: seq<Action>, s: State, t: nat, msg: SimToServer)
    returns (run': seq<Action>, s': State)
    requires Solo(s0, run, s, t) && s.readers[t].pc == Unindexing(msg)
    ensures Solo(s0, run', s', t) && s'.sh == UnindexWaiter(s.sh, msg.corr)
    ensures s'.readers[t].id == s.readers[t].id && s'.readers[t].pc == Pushing(msg)
  {
    run', s' := Onward(s0, run, s, t);
    assert s' == Unindexed(s, t);
    run', s' := Onward(s0, run', s', t);
  }

  lemma MatchAlone(s0: State, run: seq<Action>, s: State, t: nat, msg: SimToServer)
    returns (run': seq<Action>, s': State)
    requires Solo(s0, run, s, t) && s.readers[t].pc == Matching(msg)
    ensures Solo(s0, run', s', t) && s'.sh == Complete(s.sh, msg)
    ensures s'.readers[t].id == s.readers[t].id && s'.readers[t].pc == Pushing(msg)
  {
    run', s' := Onward(s0, run, s, t);
    assert s' == Matched(s, t);
    if Completes(s.sh, msg) {
      run', s' := HandOverAlone(s0, run', s', t, msg);
    }
  }

  /** The sections of one inbound push. */
  lemma PushAlone(s0: State, run: seq<Action>, s: State, t: nat, msg: SimToServer)
    returns (run': seq<Action>, s': State)
    requires Solo(s0, run, s, t) && s.readers[t].pc == Matching(msg)
    ensures Solo(s0, run', s', t) && s'.sh == PushInbound(s.sh, s.readers[t].id, msg)
    ensures s'.readers[t].id == s.readers[t].id
    ensures s'.readers[t].pc == if msg.payload.Goodbye? then Leaving(false) else Waiting
  {
    run', s' := MatchAlone(s0, run, s, t, msg);
    var s1 := s';
    run', s' := Onward(s0, run', s', t);
    assert s' == Delivering(s1, t);
  }

  /** The sections between an envelope's arrival and its push. */
  lemma CheckAlone(s: State, t: nat, msg: SimToServer) returns (run: seq<Action>, s': State)
    requires Consistent(s) && t in s.readers && s.readers[t].pc == Checking(Envelope(msg))
         && Owns(s.sh, s.readers[t].id, t)
    ensures Solo(s, run, s', t) && s'.readers[t].pc == Matching(msg) && s'.readers[t].id == s.readers[t].id
    ensures s'.sh == if msg.payload.Beat? then HeartbeatSection(s.sh, s.readers[t].id, t, msg.payload.heartbeat)
         else s.sh
  {
    run, s' := Onward(s, [], s, t);
    if msg.payload.Beat? {
      run, s' := Onward(s, run, s', t);
    }
  }

  lemma SoloConcat(s0: State, run: seq<Action>, s: State, run': seq<Action>, t: nat)
    requires Solo(s0, run, s, t) && ByReader(run', t)
    ensures ByReader(run + run', t) && Run(s0, run + run') == Run(s, run')
  {
    RunConcat(s0, run, run');
  }

  /**
   An owner's turn on one envelope, run alone, is the sequential turn; the task then waits for the next
   envelope, or after a goodbye is about to leave a second time.
   */
  lemma TurnIsHandled(s: State, t: nat, msg: SimToServer) returns (run: seq<Action>)
    requires Consistent(s) && t in s.readers && s.readers[t].pc == Checking(Envelope(msg))
         && Owns(s.sh, s.readers[t].id, t)
    ensures ByReader(run, t)
    ensures var s' := Run(s, run);
            && s'.sh == Handled(s.sh, s.readers[t].id, t, msg)
            && t in s'.readers && s'.readers[t].pc == if msg.payload.Goodbye? then Leaving(true) else Waiting
  {
    var s1;
    run, s1 := CheckAlone(s, t, msg);
    run, s1 := PushAlone(s, run, s1, t, msg);
    if msg.payload.Goodbye? {
      var leave := DepartureIsRemoveIf(s1, t);
      SoloConcat(s, run, s1, leave, t);
      run := run + leave;
    }
  }

  // The whole stream

  /** `run` is the work of task `t` and the arrival of its stream. */
  predicate ByTask(run: seq<Action>, t: nat) {
    forall i :: 0 <= i < |run| ==>
      run[i] == Advance(t) || run[i] == End(t) || ((run[i].Fail? || run[i].Arrive?) && run[i].token == t)
  }

  lemma Joined(s: State, a: Action, run: seq<Action>, t: nat)
    requires ByTask([a], t) && ByTask(run, t)
    ensures ByTask([a] + run, t) && Run(s, [a] + run) == Run(Step(s, a), run)
  {
    assert [a][0] == a;
    RunCons(s, a, run);
  }

  lemma Chained(s: State, run: seq<Action>, more: seq<Action>, t: nat)
    requires ByTask(run, t) && ByTask(more, t)
    ensures ByTask(run + more, t) && Run(s, run + more) == Run(Run(s, run), more)
  {
    RunConcat(s, run, more);
  }

  /** The last removal: by an owner or by one that is none any more. */
  lemma LastRemoval(s: State, t: nat) returns (run: seq<Action>)
    requires Consistent(s) && t in s.readers && s.readers[t].pc == Leaving(true)
    ensures ByTask(run, t)
    ensures var s' := Run(s, run);
            s'.sh == RemoveIf(s.sh, s.readers[t].id, t) && t in s'.readers && s'.readers[t].pc.Finished?
  {
    if Owns(s.sh, s.readers[t].id, t) {
      run := DepartureIsRemoveIf(s, t);
    } else {
      run := [Advance(t)];
      RunCons(s, Advance(t), []);
      assert [Advance(t)] + [] == [Advance(t)];
      assert Step(s, Advance(t)) == Removed(s, t);
    }
  }

  lemma StreamEnds(s: State, t: nat) returns (run: seq<Action>)
    requires Consistent(s) && t in s.readers && s.readers[t].pc.Waiting?
    ensures ByTask(run, t)
    ensures var s' := Run(s, run);
            s'.sh == RemoveIf(s.sh, s.readers[t].id, t) && t in s'.readers && s'.readers[t].pc.Finished?
  {
    var s1 := At(s, t, Leaving(true));
    assert Step(s, End(t)) == s1;
    ConsistentStep(s, End(t));
    run := LastRemoval(s1, t);
    assert ByTask([End(t)], t);
    Joined(s, End(t), run, t);
    run := [End(t)] + run;
  }

  /** An item that stops the loop: a broken one, or any for a task that lost its id. */
  lemma StopsAt(s: State, t: nat, item: Item) returns (run: seq<Action>)
    requires Consistent(s) && t in s.readers && s.readers[t].pc == Checking(item)
         && Stops(s.sh, s.readers[t].id, t, item)
    ensures ByTask(run, t)
    ensures var s' := Run(s, run);
            s'.sh == RemoveIf(s.sh, s.readers[t].id, t) && t in s'.readers && s'.readers[t].pc.Finished?
  {
    var s1 := Checked(s, t);
    assert Step(s, Advance(t)) == s1;
    AdvanceKeeps(s, t);
    run := LastRemoval(s1, t);
    assert ByTask([Advance(t)], t);
    Joined(s, Advance(t), run, t);
    run := [Advance(t)] + run;
  }

  lemma {:induction false} TaskIsConsistent(s: State, run: seq<Action>, t: nat)
    requires Consistent(s) && t in s.readers
    ensures Consistent(Run(s, run)) && t in Run(s, run).readers && Run(s, run).readers[t].id == s.readers[t].id
    decreases |run|
  {
    if run == [] {
    } else {
      assert TaskOk(s, t);
      ConsistentStep(s, run[0]);
      StreamsRemain(s, run[0], t);
      SentStep(s, run[0], t);
      TaskIsConsistent(Step(s, run[0]), run[1..], t);
    }
  }

  /** An item that does not stop the loop, and then whatever the rest of the stream comes to. */
  lemma TurnThenRest(s: State, t: nat, item: Item) returns (run: seq<Action>, s': State)
    requires Consistent(s) && t in s.readers && s.readers[t].pc.Waiting? && !Stops(s.sh, s.readers[t].id, t, item)
    ensures ByTask(run, t) && s' == Run(s, run) && Consistent(s') && t in s'.readers
         && s'.readers[t].id == s.readers[t].id
    ensures s'.sh == Handled(s.sh, s.readers[t].id, t, item.msg)
    ensures s'.readers[t].pc == if item.msg.payload.Goodbye? then Leaving(true) else Waiting
  {
    var s1 := At(s, t, Checking(item));
    assert Step(s, Arrive(t, item)) == s1;
    ConsistentStep(s, Arrive(t, item));
    run := TurnIsHandled(s1, t, item.msg);
    assert ByTask([Arrive(t, item)], t);
    Joined(s, Arrive(t, item), run, t);
    run := [Arrive(t, item)] + run;
    s' := Run(s, run);
    TaskIsConsistent(s, run, t);
  }

  /**
   A task that nothing interrupts, fed any stream to its end, takes the transition system to exactly the state that the
   sequential read loop reaches, and finishes.
   */
  lemma {:induction false} TaskIsReadStream(s: State, t: nat, stream: seq<Item>) returns (run: seq<Action>)
    requires Consistent(s) && t in s.readers && s.readers[t].pc.Waiting?
    ensures ByTask(run, t)
    ensures var s' := Run(s, run);
            && s'.sh == ReadStream(s.sh, s.readers[t].id, t, stream)
            && t in s'.readers && s'.readers[t].pc.Finished?
    decreases |stream|
  {
    if stream == [] {
      run := StreamEnds(s, t);
    } else if Stops(s.sh, s.readers[t].id, t, stream[0]) {
      var s1 := At(s, t, Checking(stream[0]));
      assert Step(s, Arrive(t, stream[0])) == s1;
      ConsistentStep(s, Arrive(t, stream[0]));
      run := StopsAt(s1, t, stream[0]);
      assert ByTask([Arrive(t, stream[0])], t);
      Joined(s, Arrive(t, stream[0]), run, t);
      run := [Arrive(t, stream[0])] + run;
    } else {
      var s1, more;
      run, s1 := TurnThenRest(s, t, stream[0]);
      if stream[0].msg.payload.Goodbye? {
        more := LastRemoval(s1, t);
      } else {
        more := TaskIsReadStream(s1, t, stream[1..]);
      }
      Chained(s, run, more, t);
      run := run + more;
    }
  }
}
