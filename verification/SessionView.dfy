/**
 The session view: the host filters by the caller's mask, the wire additionally keeps heartbeats.

 A peer that honours the wire mask saves traffic without changing what the host observes. It may, however,
 withhold replies that a waiting call needs; `RepliesSurviveIff` says exactly when it does not.
 */
module SessionView {
  import opened Messages
  import opened InboundQueues
  import opened Protocol
  import opened SessionReaders
  import opened InstanceMaps
  import Broker

  function WirePaths(paths: seq<string>): seq<string> {
    if paths == [] || "heartbeat" in paths then paths else paths + ["heartbeat"]
  }

  /** What a peer that honours the view still emits. */
  predicate Emits(paths: seq<string>, excluded: seq<string>, msg: SimToServer) {
    Visible(WirePaths(paths), msg) && !Excluded(excluded, msg)
  }

  /** The wire mask never hides a heartbeat, nor anything the host mask shows. */
  lemma WireKeepsHostView(paths: seq<string>, msg: SimToServer)
    ensures Visible(paths, msg) ==> Visible(WirePaths(paths), msg)
    ensures msg.payload.Beat? ==> Visible(WirePaths(paths), msg)
    ensures Visible(WirePaths(paths), msg) && !Visible(paths, msg) ==> msg.payload.Beat?
  {
    if paths != [] && "heartbeat" !in paths {
      assert WirePaths(paths)[|paths|] == "heartbeat";
      assert PayloadName(msg) == Some("heartbeat") ==> msg.payload.Beat? by {
        NamesTellPayloads(msg);
      }
    }
  }

  lemma NamesTellPayloads(msg: SimToServer)
    ensures PayloadName(msg) == Some("heartbeat") ==> msg.payload.Beat?
  {
    var name := "heartbeat";
    if msg.payload.Absent? || msg.payload.Beat? {
    } else {
      var other := PayloadName(msg).value;
      assert |other| != |name| || other[0] != 'h';
    }
  }

  /** One session's traffic as the host sees it: an envelope handled by the read loop, or a pop by an observer. */
  datatype Traffic = Arrives(msg: SimToServer) | Popped

  /** The traffic of a peer that honours the view. */
  function Emitted(paths: seq<string>, excluded: seq<string>, traffic: seq<Traffic>): (r: seq<Traffic>)
    ensures |r| <= |traffic|
  {
    if traffic == [] then []
    else
      (if traffic[0].Arrives? && !Emits(paths, excluded, traffic[0].msg) then [] else [traffic[0]])
      + Emitted(paths, excluded, traffic[1..])
  }

  function Took(sh: Broker.Shared, id: string, token: nat, x: Traffic): Broker.Shared {
    match x
    case Arrives(msg) => Handled(sh, id, token, msg)
    case Popped => Broker.PopSection(sh, id)
  }

  predicate IsGoodbye(x: Traffic) {
    x.Arrives? && x.msg.payload.Goodbye?
  }

  function Pops(traffic: seq<Traffic>): (r: seq<Traffic>)
    ensures |r| <= |traffic| && forall x :: x in r ==> x.Popped?
  {
    if traffic == [] then [] else (if traffic[0].Popped? then [Popped] else []) + Pops(traffic[1..])
  }

  /** What is left to take after the first step: the read loop ends at a goodbye, observers go on. */
  function Rest(traffic: seq<Traffic>): (r: seq<Traffic>)
    requires traffic != []
    ensures |r| < |traffic|
  {
    if IsGoodbye(traffic[0]) then Pops(traffic[1..]) else traffic[1..]
  }

  /** The effect of a stretch of traffic. */
  function TookAll(sh: Broker.Shared, id: string, token: nat, traffic: seq<Traffic>): Broker.Shared
    decreases |traffic|
  {
    if traffic == [] then sh else TookAll(Took(sh, id, token, traffic[0]), id, token, Rest(traffic))
  }

  function Head(instances: map<string, Broker.Instance>, id: string): seq<SimToServer> {
    if id in instances && instances[id].inbound != [] then [instances[id].inbound[0]] else []
  }

  /** What the pops yield, in order. */
  function Seen(sh: Broker.Shared, id: string, token: nat, traffic: seq<Traffic>): seq<SimToServer>
    decreases |traffic|
  {
    if traffic == [] then []
    else
      var seen := if traffic[0].Popped? then Head(sh.inner, id) else [];
      seen + Seen(Took(sh, id, token, traffic[0]), id, token, Rest(traffic))
  }

  predicate NoGoodbye(traffic: seq<Traffic>) {
    forall x :: x in traffic ==> !IsGoodbye(x)
  }

  /** The views under which a peer still says goodbye. */
  predicate KeepsGoodbye(paths: seq<string>) {
    paths == [] || "goodbye" in paths
  }

  lemma GoodbyeIsEmitted(paths: seq<string>, excluded: seq<string>, x: Traffic)
    requires IsGoodbye(x)
    ensures Emits(paths, excluded, x.msg) <==> KeepsGoodbye(paths)
  {
    WireKeepsHostView(paths, x.msg);
  }

  function Envelopes(msgs: seq<SimToServer>): seq<Item> {
    if msgs == [] then [] else [Envelope(msgs[0])] + Envelopes(msgs[1..])
  }

  function Arrivals(msgs: seq<SimToServer>): seq<Traffic> {
    if msgs == [] then [] else [Arrives(msgs[0])] + Arrivals(msgs[1..])
  }

  lemma {:induction false} NoPopsAmongArrivals(msgs: seq<SimToServer>)
    ensures Pops(Arrivals(msgs)) == []
  {
    if msgs == [] {
    } else {
      assert Arrivals(msgs)[1..] == Arrivals(msgs[1..]);
      NoPopsAmongArrivals(msgs[1..]);
    }
  }

  /** Traffic without pops is what the read loop makes of the stream, up to the removal that ends every session. */
  lemma {:induction false} TrafficIsStream(sh: Broker.Shared, id: string, token: nat, msgs: seq<SimToServer>)
    requires Broker.Owns(sh, id, token)
    ensures ReadStream(sh, id, token, Envelopes(msgs))
         == Broker.RemoveIf(TookAll(sh, id, token, Arrivals(msgs)), id, token)
    decreases |msgs|
  {
    if msgs == [] {
    } else {
      assert Envelopes(msgs)[1..] == Envelopes(msgs[1..]) && Arrivals(msgs)[1..] == Arrivals(msgs[1..]);
      if msgs[0].payload.Goodbye? {
        NoPopsAmongArrivals(msgs[1..]);
      } else {
        TrafficIsStream(Handled(sh, id, token, msgs[0]), id, token, msgs[1..]);
      }
    }
  }

  predicate HasView(sh: Broker.Shared, id: string, token: nat, paths: seq<string>, excluded: seq<string>) {
    Broker.Owns(sh, id, token) && sh.inner[id].readMask == paths && sh.inner[id].excluded == excluded
  }

  lemma HandledKeepsView(sh: Broker.Shared, id: string, token: nat, paths: seq<string>, excluded: seq<string>,
      msg: SimToServer)
    requires HasView(sh, id, token, paths, excluded) && !msg.payload.Goodbye?
    ensures HasView(Handled(sh, id, token, msg), id, token, paths, excluded)
    ensures !Emits(paths, excluded, msg) ==> Handled(sh, id, token, msg).inner == sh.inner
  {
    WireKeepsHostView(paths, msg);
    var inst := sh.inner[id];
    assert sh.inner[id := inst] == sh.inner;
  }

  lemma PushInner(x: Broker.Shared, y: Broker.Shared, id: string, msg: SimToServer)
    requires x.inner == y.inner
    ensures Broker.PushInbound(x, id, msg).inner == Broker.PushInbound(y, id, msg).inner
  {
    assert Broker.Complete(x, msg).inner == Broker.Complete(y, msg).inner;
  }

  /** The effect on the map does not depend on the waiters. */
  lemma TookInner(x: Broker.Shared, y: Broker.Shared, id: string, token: nat, step: Traffic)
    requires x.inner == y.inner
    ensures Took(x, id, token, step).inner == Took(y, id, token, step).inner
  {
    if step.Arrives? {
      var msg := step.msg;
      if msg.payload.Beat? {
        var beat := msg.payload.heartbeat;
        PushInner(Broker.HeartbeatSection(x, id, token, beat), Broker.HeartbeatSection(y, id, token, beat), id, msg);
      } else {
        PushInner(x, y, id, msg);
      }
    }
  }

  lemma TookKeepsView(sh: Broker.Shared, id: string, token: nat, paths: seq<string>, excluded: seq<string>,
      step: Traffic)
    requires HasView(sh, id, token, paths, excluded) && (step.Arrives? ==> !step.msg.payload.Goodbye?)
    ensures HasView(Took(sh, id, token, step), id, token, paths, excluded)
  {
    if step.Arrives? {
      HandledKeepsView(sh, id, token, paths, excluded, step.msg);
    }
  }

  lemma {:induction false} PopsAreEmitted(paths: seq<string>, excluded: seq<string>, traffic: seq<Traffic>)
    ensures Pops(Emitted(paths, excluded, traffic)) == Pops(traffic)
  {
    if traffic == [] {
    } else {
      var step, rest := traffic[0], Emitted(paths, excluded, traffic[1..]);
      PopsAreEmitted(paths, excluded, traffic[1..]);
      if step.Arrives? && !Emits(paths, excluded, step.msg) {
        assert [] + rest == rest;
      } else {
        assert ([step] + rest)[1..] == rest;
      }
    }
  }

  /** Pops do the same to equal maps. */
  lemma {:induction false} PopsInner(x: Broker.Shared, y: Broker.Shared, id: string, token: nat, pops: seq<Traffic>)
    requires x.inner == y.inner && forall p :: p in pops ==> p.Popped?
    ensures TookAll(x, id, token, pops).inner == TookAll(y, id, token, pops).inner
    ensures Seen(x, id, token, pops) == Seen(y, id, token, pops)
    decreases |pops|
  {
    if pops == [] {
    } else {
      assert pops[0] in pops;
      TookInner(x, y, id, token, pops[0]);
      PopsInner(Took(x, id, token, pops[0]), Took(y, id, token, pops[0]), id, token, pops[1..]);
    }
  }

  lemma {:induction false} ViewHidesNothing(
      x: Broker.Shared, y: Broker.Shared, id: string, token: nat,
      paths: seq<string>, excluded: seq<string>, traffic: seq<Traffic>)
    requires x.inner == y.inner && HasView(x, id, token, paths, excluded)
    requires KeepsGoodbye(paths) || NoGoodbye(traffic)
    ensures TookAll(x, id, token, traffic).inner == TookAll(y, id, token, Emitted(paths, excluded, traffic)).inner
    ensures Seen(x, id, token, traffic) == Seen(y, id, token, Emitted(paths, excluded, traffic))
    decreases |traffic|
  {
    if traffic == [] {
    } else {
      var step, rest := traffic[0], Emitted(paths, excluded, traffic[1..]);
      var x' := Took(x, id, token, step);
      TookInner(x, y, id, token, step);
      if IsGoodbye(step) {
        GoodbyeIsEmitted(paths, excluded, step);
        assert ([step] + rest)[1..] == rest;
        PopsAreEmitted(paths, excluded, traffic[1..]);
        PopsInner(x', Took(y, id, token, step), id, token, Pops(traffic[1..]));
      } else if step.Arrives? && !Emits(paths, excluded, step.msg) {
        HandledKeepsView(x, id, token, paths, excluded, step.msg);
        assert [] + rest == rest;
        ViewHidesNothing(x', y, id, token, paths, excluded, traffic[1..]);
      } else {
        TookKeepsView(x, id, token, paths, excluded, step);
        assert ([step] + rest)[1..] == rest;
        ViewHidesNothing(x', Took(y, id, token, step), id, token, paths, excluded, traffic[1..]);
      }
    }
  }

  /** A stretch without a goodbye leaves its session connected. */
  lemma {:induction false} StaysConnected(sh: Broker.Shared, id: string, token: nat, traffic: seq<Traffic>)
    requires Broker.Owns(sh, id, token) && NoGoodbye(traffic)
    ensures Broker.Owns(TookAll(sh, id, token, traffic), id, token)
    decreases |traffic|
  {
    if traffic == [] {
    } else {
      assert traffic[0] in traffic;
      TookKeepsView(sh, id, token, sh.inner[id].readMask, sh.inner[id].excluded, traffic[0]);
      StaysConnected(Took(sh, id, token, traffic[0]), id, token, traffic[1..]);
    }
  }

  lemma {:induction false} StaysGone(sh: Broker.Shared, id: string, token: nat, pops: seq<Traffic>)
    requires id !in sh.inner && forall p :: p in pops ==> p.Popped?
    ensures id !in TookAll(sh, id, token, pops).inner
    decreases |pops|
  {
    if pops == [] {
    } else {
      assert pops[0] in pops;
      StaysGone(Took(sh, id, token, pops[0]), id, token, pops[1..]);
    }
  }

  /** A stretch with a goodbye disconnects its session. */
  lemma {:induction false} GoodbyeDisconnects(sh: Broker.Shared, id: string, token: nat, traffic: seq<Traffic>)
    requires Broker.Owns(sh, id, token) && !NoGoodbye(traffic)
    ensures id !in TookAll(sh, id, token, traffic).inner
    decreases |traffic|
  {
    if traffic == [] {
    } else if IsGoodbye(traffic[0]) {
      StaysGone(Took(sh, id, token, traffic[0]), id, token, Pops(traffic[1..]));
    } else {
      GoodbyeDisconnects(Took(sh, id, token, traffic[0]), id, token, traffic[1..]);
    }
  }

  lemma {:induction false} GoodbyesAreWithheld(paths: seq<string>, excluded: seq<string>, traffic: seq<Traffic>)
    requires !KeepsGoodbye(paths)
    ensures NoGoodbye(Emitted(paths, excluded, traffic))
  {
    if traffic == [] {
    } else {
      GoodbyesAreWithheld(paths, excluded, traffic[1..]);
      if IsGoodbye(traffic[0]) {
        GoodbyeIsEmitted(paths, excluded, traffic[0]);
      }
    }
  }

  /**
   For every stretch of traffic: whether the peer applies the wire view or emits everything makes no difference to the
   sessions, their queues and heartbeats if and only if the view lists goodbyes, or is empty, or there is no goodbye;
   and then it makes none to the messages popped.
   */
  lemma ViewTransparent(
      x: Broker.Shared, y: Broker.Shared, id: string, token: nat,
      paths: seq<string>, excluded: seq<string>, traffic: seq<Traffic>)
    requires x.inner == y.inner && HasView(x, id, token, paths, excluded)
    ensures TookAll(x, id, token, traffic).inner == TookAll(y, id, token, Emitted(paths, excluded, traffic)).inner
       <==> KeepsGoodbye(paths) || NoGoodbye(traffic)
    ensures KeepsGoodbye(paths) || NoGoodbye(traffic) ==>
              Seen(x, id, token, traffic) == Seen(y, id, token, Emitted(paths, excluded, traffic))
  {
    if KeepsGoodbye(paths) || NoGoodbye(traffic) {
      ViewHidesNothing(x, y, id, token, paths, excluded, traffic);
    } else {
      GoodbyeDisconnects(x, id, token, traffic);
      GoodbyesAreWithheld(paths, excluded, traffic);
      StaysConnected(y, id, token, Emitted(paths, excluded, traffic));
    }
  }

  /**
   Under every other view, a goodbye and a pop: emitted, the session is gone and nothing is popped; withheld, the
   session stays and its queue is drained on.
   */
  lemma WithheldGoodbyeIsSeen(sh: Broker.Shared, id: string, token: nat, paths: seq<string>, excluded: seq<string>,
      goodbye: SimToServer)
    requires HasView(sh, id, token, paths, excluded) && !KeepsGoodbye(paths)
    requires goodbye.payload.Goodbye? && sh.inner[id].inbound != []
    ensures var traffic := [Arrives(goodbye), Popped];
            var withheld := Emitted(paths, excluded, traffic);
            && id !in TookAll(sh, id, token, traffic).inner && Seen(sh, id, token, traffic) == []
            && Broker.Owns(TookAll(sh, id, token, withheld), id, token)
            && Seen(sh, id, token, withheld) == [sh.inner[id].inbound[0]]
  {
    var traffic := [Arrives(goodbye), Popped];
    GoodbyeIsEmitted(paths, excluded, traffic[0]);
    assert traffic[1..] == [Popped] && [Popped][1..] == [];
    assert Emitted(paths, excluded, [Popped]) == [Popped];
    assert Emitted(paths, excluded, traffic) == [Popped];
    assert Pops([Popped]) == [Popped];
    var gone := Took(sh, id, token, traffic[0]);
    assert id !in gone.inner && Seen(gone, id, token, [Popped]) == [];
  }

  // Replies

  /** The views under which no reply a call of this kind waits for is withheld. */
  predicate KeepsReplies(paths: seq<string>, excluded: seq<string>, kind: WaitKind) {
    match kind
    case WaitAny => paths == [] && excluded == []
    case WaitInputAck => paths == [] || "input_ack" in paths
    case WaitUiResult => paths == [] || ("ui_result" in paths && "input_ack" in paths)
    case WaitSnapshot => paths == [] || ("snapshot" in paths && "snapshot_error" in paths)
  }

  /** An envelope the kind waits for and the view withholds. */
  function Withheld(paths: seq<string>, excluded: seq<string>, kind: WaitKind): Payload {
    match kind
    case WaitAny => if paths != [] || excluded == [] then Absent else Log(excluded[0], "")
    case WaitInputAck => InputAck(false, "")
    case WaitUiResult => if "ui_result" in paths then InputAck(false, "") else UiResult(true, 0, "")
    case WaitSnapshot => if "snapshot" in paths then SnapshotError("") else Snapshot
  }

  lemma RepliesSurviveIff(paths: seq<string>, excluded: seq<string>, kind: WaitKind)
    ensures KeepsReplies(paths, excluded, kind)
       <==> (forall msg :: WaiterMatches(kind, msg) ==> Emits(paths, excluded, msg))
  {
    if KeepsReplies(paths, excluded, kind) {
      forall msg | WaiterMatches(kind, msg)
        ensures Emits(paths, excluded, msg)
      {
        WireKeepsHostView(paths, msg);
      }
    } else {
      var msg := SimToServer(0, 1, Withheld(paths, excluded, kind));
      WireKeepsHostView(paths, msg);
      assert WaiterMatches(kind, msg) && !Emits(paths, excluded, msg);
    }
  }

  lemma {:induction false} ReplyViewHidesNothing(
      sh: Broker.Shared, id: string, token: nat, paths: seq<string>, excluded: seq<string>, traffic: seq<Traffic>)
    requires HasView(sh, id, token, paths, excluded) && (KeepsGoodbye(paths) || NoGoodbye(traffic))
    requires forall c :: c in sh.waiters ==> KeepsReplies(paths, excluded, sh.waiters[c])
    ensures TookAll(sh, id, token, traffic) == TookAll(sh, id, token, Emitted(paths, excluded, traffic))
    decreases |traffic|
  {
    if traffic == [] {
    } else {
      var step, rest := traffic[0], Emitted(paths, excluded, traffic[1..]);
      var next := Took(sh, id, token, step);
      if IsGoodbye(step) {
        GoodbyeIsEmitted(paths, excluded, step);
        assert ([step] + rest)[1..] == rest;
        PopsAreEmitted(paths, excluded, traffic[1..]);
      } else {
        TookKeepsView(sh, id, token, paths, excluded, step);
        ReplyViewHidesNothing(next, id, token, paths, excluded, traffic[1..]);
        if step.Arrives? && !Emits(paths, excluded, step.msg) {
          assert [] + rest == rest;
          HiddenIsIdle(sh, id, token, paths, excluded, step.msg);
        } else {
          assert ([step] + rest)[1..] == rest;
        }
      }
    }
  }

  /**
   With views that keep the replies of every registered kind, the whole shared state is the same, waiter tables
   included, if and only if no goodbye is withheld.
   */
  lemma WaitersTransparent(
      sh: Broker.Shared, id: string, token: nat, paths: seq<string>, excluded: seq<string>, traffic: seq<Traffic>)
    requires HasView(sh, id, token, paths, excluded)
    requires forall c :: c in sh.waiters ==> KeepsReplies(paths, excluded, sh.waiters[c])
    ensures TookAll(sh, id, token, traffic) == TookAll(sh, id, token, Emitted(paths, excluded, traffic))
       <==> KeepsGoodbye(paths) || NoGoodbye(traffic)
  {
    ViewTransparent(sh, sh, id, token, paths, excluded, traffic);
    if KeepsGoodbye(paths) || NoGoodbye(traffic) {
      ReplyViewHidesNothing(sh, id, token, paths, excluded, traffic);
    }
  }

  /** A withheld goodbye leaves unfailed exactly the waiters that the goodbye would have failed. */
  lemma WithheldGoodbyeFailsNobody(sh: Broker.Shared, id: string, token: nat, paths: seq<string>, excluded: seq<string>,
      goodbye: SimToServer)
    requires HasView(sh, id, token, paths, excluded) && !KeepsGoodbye(paths) && goodbye.payload.Goodbye?
    requires forall c :: c in sh.waiters ==> KeepsReplies(paths, excluded, sh.waiters[c])
    ensures var traffic := [Arrives(goodbye)];
            && TookAll(sh, id, token, Emitted(paths, excluded, traffic)) == sh
            && TookAll(sh, id, token, traffic).waiters == sh.waiters - Broker.CorrsOf(sh, id)
            && TookAll(sh, id, token, traffic).waiterInstance == sh.waiterInstance - Broker.CorrsOf(sh, id)
  {
    var traffic := [Arrives(goodbye)];
    GoodbyeIsEmitted(paths, excluded, traffic[0]);
    assert Emitted(paths, excluded, traffic) == [];
    if Broker.Completes(sh, goodbye) {
      RepliesSurviveIff(paths, excluded, sh.waiters[goodbye.corr]);
    }
    assert Pops(traffic[1..]) == [];
  }

  /** An envelope the peer would withhold changes nothing. */
  lemma HiddenIsIdle(sh: Broker.Shared, id: string, token: nat, paths: seq<string>, excluded: seq<string>,
      msg: SimToServer)
    requires HasView(sh, id, token, paths, excluded) && !msg.payload.Goodbye? && !Emits(paths, excluded, msg)
    requires forall c :: c in sh.waiters ==> KeepsReplies(paths, excluded, sh.waiters[c])
    ensures Handled(sh, id, token, msg) == sh
  {
    HandledKeepsView(sh, id, token, paths, excluded, msg);
    if Broker.Completes(sh, msg) {
      RepliesSurviveIff(paths, excluded, sh.waiters[msg.corr]);
    }
  }

  // Setting the view

  function ViewEnvelope(corr: nat, paths: seq<string>, excluded: seq<string>): ServerToSim {
    ServerToSim(corr, false, SetSessionView(WirePaths(paths), excluded))
  }

  /** The wire view is enqueued first; only if that succeeds does the host remember the caller's view. */
  function ViewSet(sh: Broker.Shared, id: string, paths: seq<string>, excluded: seq<string>): Broker.Shared {
    if id !in sh.inner then sh
    else
      var numbered := sh.(nextCorr := sh.nextCorr + 1);
      if !Broker.SendResult(numbered, id).Sent? then numbered
      else
        var sent := Broker.SendSection(numbered, id, ViewEnvelope(sh.nextCorr, paths, excluded));
        Broker.ExcludeSection(Broker.MaskSection(sent, id, paths), id, excluded)
  }

  method StoreView(instances: InstanceMap, id: string, paths: seq<string>, excluded: seq<string>)
    requires instances.Valid()
    modifies instances`inner
    ensures instances.Valid()
    ensures instances.State() == Broker.ExcludeSection(Broker.MaskSection(old(instances.State()), id, paths), id,
         excluded)
  {
    instances.SetReadMask(id, paths);
    instances.SetExcludeLogComponents(id, excluded);
  }

  method SetView(instances: InstanceMap, id: string, paths: seq<string>, excluded: seq<string>)
    returns (failure: Option<SendError>, corr: nat)
    requires instances.Valid()
    modifies instances`inner, instances`nextCorr
    ensures instances.Valid()
    ensures instances.State() == ViewSet(old(instances.State()), id, paths, excluded)
    ensures failure.None? <==> Broker.SendResult(old(instances.State()), id).Sent?
    ensures failure == Some(SendError.UnknownInstance) <==> id !in old(instances.State()).inner
    ensures failure != Some(SendError.UnknownInstance) ==> corr == old(instances.nextCorr)
  {
    if id !in instances.inner {
      return Some(SendError.UnknownInstance), 0;
    }
    corr := instances.NextCorr();
    var outcome := instances.TrySend(id, ViewEnvelope(corr, paths, excluded));
    if !outcome.Sent? {
      return Some(SendError.QueueFull), corr;
    }
    StoreView(instances, id, paths, excluded);
    failure := None;
  }

  /** A rejected view changes no session; an accepted one is on the wire and in force on the host. */
  lemma ViewSetAllOrNothing(sh: Broker.Shared, id: string, paths: seq<string>, excluded: seq<string>)
    ensures !Broker.SendResult(sh, id).Sent? ==> ViewSet(sh, id, paths, excluded).inner == sh.inner
    ensures Broker.SendResult(sh, id).Sent? ==>
              ViewSet(sh, id, paths, excluded).inner ==
              sh.inner[id := sh.inner[id].(outbound := sh.inner[id].outbound
                + [ViewEnvelope(sh.nextCorr, paths, excluded)],
                                           readMask := paths, excluded := excluded)]
  {
  }
}
