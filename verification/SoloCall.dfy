/** The two layers agree on the calling side too: a waiting send that nothing interrupts is the sequential one. */
module SoloCall {
  import opened Messages
  import opened Broker
  import opened Protocol
  import opened WaiterTable

  /** `run`, from `s0` to `s`, is the work of call `c` alone. */
  ghost predicate Solo(s0: State, run: seq<Action>, s: State, c: nat) {
    && s == Run(s0, run) && c in s.calls
    && forall i :: 0 <= i < |run| ==> run[i] == Proceed(c)
  }

  lemma Onward(s0: State, run: seq<Action>, s: State, c: nat) returns (run': seq<Action>, s': State)
    requires Solo(s0, run, s, c) && c in Proceeded(s, c).calls
    ensures Solo(s0, run', s', c) && s' == Proceeded(s, c)
  {
    run', s' := run + [Proceed(c)], Proceeded(s, c);
    RunThen(s0, run, Proceed(c));
  }

  lemma Unregistered(s: State, c: nat)
    requires Consistent(s) && c in s.calls && s.calls[c].phase.Getting?
    ensures c !in s.sh.waiters && c !in s.sh.waiterInstance
  {
    assert c in s.cells ==> CellOk(s, c);
  }

  /** The call finds its instance and registers. */
  lemma RegistersAlone(s: State, c: nat) returns (run: seq<Action>, s': State)
    requires c in s.calls && s.calls[c].phase.Getting? && s.calls[c].id in s.sh.inner
    ensures Solo(s, run, s', c) && s'.sh == Broker.Register(s.sh, c, s.calls[c].id, s.calls[c].kind)
    ensures s'.calls[c] == s.calls[c].(phase := Sending)
  {
    run, s' := Onward(s, [], s, c);
    run, s' := Onward(s, run, s', c);
    run, s' := Onward(s, run, s', c);
  }

  lemma SendsAlone(s0: State, run: seq<Action>, s: State, c: nat) returns (run': seq<Action>, s': State)
    requires Solo(s0, run, s, c) && s.calls[c].phase.Sending? && s.calls[c].waits
    ensures Solo(s0, run', s', c)
    ensures var id, m := s.calls[c].id, EnvelopeOf(c, s.calls[c]);
            if SendResult(s.sh, id).Sent? then s'.sh == SendSection(s.sh, id, m) && s'.calls[c].phase == Awaiting
            else s'.sh == Take(s.sh, c) && s'.calls[c].phase == Done(Failed(ErrorOf(SendResult(s.sh, id))))
  {
    var sent := SendResult(s.sh, s.calls[c].id).Sent?;
    assert Proceeded(s, c) == Dispatched(s, c);
    run', s' := Onward(s0, run, s, c);
    if !sent {
      run', s' := Onward(s0, run', s', c);
      assert Proceeded(s', c) == Dropping(s', c);
      run', s' := Onward(s0, run', s', c);
    }
  }

  /**
   Run alone, a waiting call does what the sequential send does: it registers and enqueues, or it fails and leaves the
   shared state as it was.
   */
  lemma CallAloneIsSendAndRegister(s: State, c: nat) returns (run: seq<Action>)
    requires Consistent(s) && c in s.calls && s.calls[c].phase.Getting?
    ensures forall i :: 0 <= i < |run| ==> run[i] == Proceed(c)
    ensures var s', call := Run(s, run), s.calls[c];
            var result := SendResult(s.sh, call.id);
            && c in s'.calls
            && if result.Sent? then
                 var request := ServerToSim(c, call.command.Inject?, call.command);
                 s'.sh == Broker.Register(SendSection(s.sh, call.id, request), c, call.id, call.kind)
                 && s'.calls[c].phase == Awaiting
               else
                 s'.sh == s.sh
                 && s'.calls[c].phase == Done(Failed(if call.id in s.sh.inner then OutboundFull else NotConnected))
  {
    var call, s1 := s.calls[c], s;
    assert CallOk(s, c);
    Unregistered(s, c);
    if call.id in s.sh.inner {
      run, s1 := RegistersAlone(s, c);
      RegisterUndone(s.sh, c, call.id, call.kind, EnvelopeOf(c, call));
      run, s1 := SendsAlone(s, run, s1, c);
    } else {
      run, s1 := Onward(s, [], s, c);
    }
  }
}
