/**
 Which message classes cannot disturb each other in the inbound queue.

 A class is a rank threshold: `Keep(items, t)` is what remains of a queue when everything of rank
 above `t` is ignored. Threshold 3 leaves out heartbeats, threshold 0 leaves only never-drop messages.
 */
module QueueIsolation {
  import opened Messages
  import opened InboundQueues

  function Keep(items: seq<SimToServer>, t: nat): (r: seq<SimToServer>)
    ensures |r| <= |items|
  {
    if items == [] then []
    else
      var last := |items| - 1;
      Keep(items[..last], t) + if EvictionRank(items[last]) <= t then [items[last]] else []
  }

  lemma {:induction false} KeepConcat(a: seq<SimToServer>, b: seq<SimToServer>, t: nat)
    ensures Keep(a + b, t) == Keep(a, t) + Keep(b, t)
  {
    if b == [] {
      assert a + b == a;
    } else {
      var last := |b| - 1;
      KeepConcat(a, b[..last], t);
      assert (a + b)[..|a + b| - 1] == a + b[..last] && (a + b)[|a + b| - 1] == b[last];
    }
  }

  lemma KeepOne(m: SimToServer, t: nat)
    ensures Keep([m], t) == if EvictionRank(m) <= t then [m] else []
  {
    assert [m][..0] == [];
  }

  /** Nothing is ignored exactly when every item is in the class. */
  lemma {:induction false} KeepAll(items: seq<SimToServer>, t: nat)
    ensures |Keep(items, t)| == |items| <==> forall j :: 0 <= j < |items| ==> EvictionRank(items[j]) <= t
    ensures |Keep(items, t)| == |items| ==> Keep(items, t) == items
  {
    if items == [] {
    } else {
      var last := |items| - 1;
      KeepAll(items[..last], t);
      assert items[..last] + [items[last]] == items;
    }
  }

  lemma {:induction false} KeepRanks(items: seq<SimToServer>, t: nat)
    ensures forall j :: 0 <= j < |Keep(items, t)| ==> EvictionRank(Keep(items, t)[j]) <= t
  {
    if items == [] {
    } else {
      KeepRanks(items[..|items| - 1], t);
    }
  }

  lemma KeepWithout(items: seq<SimToServer>, i: nat, t: nat)
    requires i < |items| && EvictionRank(items[i]) > t
    ensures Keep(Without(items, i), t) == Keep(items, t)
  {
    assert items == items[..i] + ([items[i]] + items[i + 1..]);
    KeepConcat(items[..i], [items[i]] + items[i + 1..], t);
    KeepConcat([items[i]], items[i + 1..], t);
    KeepOne(items[i], t);
    KeepConcat(items[..i], items[i + 1..], t);
  }

  lemma NeverDropIsRankZero(msg: SimToServer)
    ensures IsNeverDrop(msg) <==> EvictionRank(msg) == 0
    ensures IsNeverDrop(msg) <==> Precious(msg)
    ensures IsHeartbeat(msg) <==> EvictionRank(msg) > 3
  {
    KindsOfRanks(msg);
  }

  /** A push seen through threshold `t` is a push of the same message, or nothing at all. */
  ghost predicate PushRespects(items: seq<SimToServer>, cap: nat, msg: SimToServer, t: nat) {
    Keep(Pushed(items, cap, msg), t) ==
    if EvictionRank(msg) <= t then Pushed(Keep(items, t), cap, msg) else Keep(items, t)
  }

  /** The full queue evicts outside the class whenever it holds anything outside the class. */
  lemma EvictionRespects(items: seq<SimToServer>, cap: nat, msg: SimToServer, t: nat)
    requires |items| == cap && !IsHeartbeat(msg) && |Keep(items, t)| < |items|
    ensures EvictionIndex(items).Some?
    ensures Keep(Pushed(items, cap, msg), t) == Keep(items, t) + if EvictionRank(msg) <= t then [msg] else []
  {
    KeepAll(items, t);
    var i := EvictionIndex(items).value;
    KeepConcat(Without(items, i), [msg], t);
    KeepOne(msg, t);
    KeepWithout(items, i, t);
  }

  lemma PushWithRoom(items: seq<SimToServer>, cap: nat, msg: SimToServer, t: nat)
    requires |items| < cap
    ensures PushRespects(items, cap, msg, t)
  {
    KeepConcat(items, [msg], t);
    KeepOne(msg, t);
    assert Pushed(items, cap, msg) == items + [msg] && |Keep(items, t)| < cap;
  }

  /** A full queue refuses a heartbeat; where the class holds heartbeats, it is the queue itself. */
  lemma HeartbeatRefused(items: seq<SimToServer>, cap: nat, msg: SimToServer, t: nat)
    requires |items| == cap && IsHeartbeat(msg) && (t == 0 || t >= 3 || cap == 0)
    ensures PushRespects(items, cap, msg, t)
  {
    KeepAll(items, t);
    NeverDropIsRankZero(msg);
    assert Pushed(items, cap, msg) == items;
    if t >= 4 {
      assert forall j :: 0 <= j < |items| ==> EvictionRank(items[j]) <= t;
      assert Keep(items, t) == items;
    }
  }

  lemma PushedRanks(items: seq<SimToServer>, cap: nat, msg: SimToServer, t: nat)
    requires EvictionRank(msg) <= t && forall j :: 0 <= j < |items| ==> EvictionRank(items[j]) <= t
    ensures forall j :: 0 <= j < |Pushed(items, cap, msg)| ==> EvictionRank(Pushed(items, cap, msg)[j]) <= t
  {
    if |items| == cap && !IsHeartbeat(msg) && EvictionIndex(items).Some? {
      var kept := Without(items, EvictionIndex(items).value);
      assert forall j :: 0 <= j < |kept| ==> EvictionRank(kept[j]) <= t;
      assert Pushed(items, cap, msg) == kept + [msg];
    }
  }

  /** A full queue that is all of the class, and a newcomer of the class. */
  lemma PushAmongPeers(items: seq<SimToServer>, cap: nat, msg: SimToServer, t: nat)
    requires |Keep(items, t)| == |items| && EvictionRank(msg) <= t
    ensures PushRespects(items, cap, msg, t)
  {
    KeepAll(items, t);
    PushedRanks(items, cap, msg, t);
    KeepAll(Pushed(items, cap, msg), t);
  }

  /** A full queue that is all of the class admits no stranger. */
  lemma StrangerRefused(items: seq<SimToServer>, cap: nat, msg: SimToServer, t: nat)
    requires |items| == cap == |Keep(items, t)| && !IsHeartbeat(msg) && EvictionRank(msg) > t
         && (t == 0 || t >= 3 || cap == 0)
    ensures PushRespects(items, cap, msg, t)
  {
    KeepAll(items, t);
    NeverDropIsRankZero(msg);
    assert EvictionIndex(items).None?;
  }

  lemma PushIsolated(items: seq<SimToServer>, cap: nat, msg: SimToServer, t: nat)
    requires |items| <= cap && (t == 0 || t >= 3 || cap == 0)
    ensures PushRespects(items, cap, msg, t)
  {
    if |items| < cap {
      PushWithRoom(items, cap, msg, t);
    } else if IsHeartbeat(msg) {
      HeartbeatRefused(items, cap, msg, t);
    } else if |Keep(items, t)| < |items| {
      EvictionRespects(items, cap, msg, t);
    } else if EvictionRank(msg) <= t {
      PushAmongPeers(items, cap, msg, t);
    } else {
      StrangerRefused(items, cap, msg, t);
    }
  }

  function Copies(m: SimToServer, n: nat): (r: seq<SimToServer>)
    ensures |r| == n && forall j :: 0 <= j < n ==> r[j] == m
  {
    seq(n, _ => m)
  }

  const NOISE := SimToServer(0, 0, Log("MEM", ""))

  /** Thresholds 1 and 2 leak: a full queue gives up an ordinary log (or a goodbye) for a MEM log. */
  lemma NoiseEvictsOrdinary(cap: nat, t: nat) returns (items: seq<SimToServer>)
    requires cap > 0 && (t == 1 || t == 2)
    ensures |items| <= cap && !PushRespects(items, cap, NOISE, t)
  {
    var victim := SimToServer(0, 0, if t == 1 then Goodbye else Log("", ""));
    items := Copies(victim, cap);
    assert EvictionRank(victim) == t && EvictionRank(NOISE) == 3;
    var i := EvictionIndex(items).value;
    var after := Without(items, i);
    KeepConcat(after, [NOISE], t);
    KeepOne(NOISE, t);
    KeepAll(items, t);
    assert |Keep(after, t)| <= cap - 1;
  }

  /** The isolated classes are exactly never-drop, everything but heartbeats, and everything. */
  lemma IsolatedThresholds(cap: nat, t: nat)
    ensures (forall items, msg | |items| <= cap :: PushRespects(items, cap, msg, t))
       <==> (t == 0 || t >= 3 || cap == 0)
  {
    if t == 0 || t >= 3 || cap == 0 {
      forall items: seq<SimToServer>, msg | |items| <= cap
        ensures PushRespects(items, cap, msg, t)
      {
        PushIsolated(items, cap, msg, t);
      }
    } else {
      var items := NoiseEvictsOrdinary(cap, t);
    }
  }

  // Traces of pushes and pops

  datatype Op = Push(msg: SimToServer) | Pop

  function After(items: seq<SimToServer>, cap: nat, op: Op): seq<SimToServer> {
    match op
    case Push(msg) => Pushed(items, cap, msg)
    case Pop => if items == [] then [] else items[1..]
  }

  function Output(items: seq<SimToServer>, op: Op): seq<SimToServer> {
    if op.Pop? && items != [] then [items[0]] else []
  }

  function Content(items: seq<SimToServer>, cap: nat, ops: seq<Op>): seq<SimToServer>
    decreases |ops|
  {
    if ops == [] then items else Content(After(items, cap, ops[0]), cap, ops[1..])
  }

  function Drained(items: seq<SimToServer>, cap: nat, ops: seq<Op>): seq<SimToServer>
    decreases |ops|
  {
    if ops == [] then [] else Output(items, ops[0]) + Drained(After(items, cap, ops[0]), cap, ops[1..])
  }

  /** The operations that concern the class: other pushes vanish, pops that yield others are stutters. */
  function Concerning(items: seq<SimToServer>, cap: nat, ops: seq<Op>, t: nat): seq<Op>
    decreases |ops|
  {
    if ops == [] then []
    else
      var op := ops[0];
      var erased := if op.Push? then EvictionRank(op.msg) > t else items != [] && EvictionRank(items[0]) > t;
      (if erased then [] else [op]) + Concerning(After(items, cap, op), cap, ops[1..], t)
  }

  lemma KeepPop(items: seq<SimToServer>, t: nat)
    requires items != []
    ensures Keep(items, t) == (if EvictionRank(items[0]) <= t then [items[0]] else []) + Keep(items[1..], t)
  {
    assert items == [items[0]] + items[1..];
    KeepConcat([items[0]], items[1..], t);
    KeepOne(items[0], t);
  }

  /** One step of the trace argument: the class sees the operation itself or nothing. */
  lemma OpIsolated(items: seq<SimToServer>, cap: nat, op: Op, t: nat)
    requires |items| <= cap && (t == 0 || t >= 3)
    ensures |After(items, cap, op)| <= cap
    ensures var erased := if op.Push? then EvictionRank(op.msg) > t else items != [] && EvictionRank(items[0]) > t;
            && Keep(After(items, cap, op), t) == (if erased then Keep(items, t) else After(Keep(items, t), cap, op))
            && Keep(Output(items, op), t) == (if erased then [] else Output(Keep(items, t), op))
  {
    match op
    case Push(msg) => PushIsolated(items, cap, msg, t);
    case Pop =>
      if items != [] {
        KeepPop(items, t);
        KeepOne(items[0], t);
      }
  }

  /**
   Over every trace, the class's content and its drained messages are those of the run in which the other
   messages never existed. With t == 3: heartbeats never cost another message its place.
   */
  lemma {:induction false} TraceIsolation(items: seq<SimToServer>, cap: nat, ops: seq<Op>, t: nat)
    requires |items| <= cap && (t == 0 || t >= 3)
    ensures Keep(Content(items, cap, ops), t) == Content(Keep(items, t), cap, Concerning(items, cap, ops, t))
    ensures Keep(Drained(items, cap, ops), t) == Drained(Keep(items, t), cap, Concerning(items, cap, ops, t))
    decreases |ops|
  {
    if ops == [] {
    } else {
      var op := ops[0];
      var next := After(items, cap, op);
      OpIsolated(items, cap, op, t);
      TraceIsolation(next, cap, ops[1..], t);
      KeepConcat(Output(items, op), Drained(next, cap, ops[1..]), t);
      var rest := Concerning(next, cap, ops[1..], t);
      if Concerning(items, cap, ops, t) != rest {
        assert ([op] + rest)[1..] == rest;
      }
    }
  }

  // Never-drop messages

  function Pushes(msgs: seq<SimToServer>): (r: seq<Op>)
    ensures |r| == |msgs|
  {
    seq(|msgs|, i requires 0 <= i < |msgs| => Push(msgs[i]))
  }

  function First(n: nat, s: seq<SimToServer>): (r: seq<SimToServer>) {
    if n < |s| then s[..n] else s
  }

  /** A never-drop newcomer is refused exactly when the queue already holds `cap` never-drop messages. */
  lemma NeverDropPush(items: seq<SimToServer>, cap: nat, msg: SimToServer)
    requires |items| <= cap && IsNeverDrop(msg)
    ensures Keep(Pushed(items, cap, msg), 0) == if |Keep(items, 0)| == cap then Keep(items, 0)
         else Keep(items, 0) + [msg]
    ensures |Keep(items, 0)| == cap ==> Pushed(items, cap, msg) == items
  {
    NeverDropIsRankZero(msg);
    PushIsolated(items, cap, msg, 0);
    KeepRanks(items, 0);
    KeepAll(items, 0);
    KeepAll(Keep(items, 0), 0);
  }

  lemma FirstAbsorbs(n: nat, kept: seq<SimToServer>, m: SimToServer, rest: seq<SimToServer>)
    requires |kept| <= n
    ensures First(n, (if |kept| == n then kept else kept + [m]) + rest) == First(n, kept + ([m] + rest))
  {
    assert kept + [m] + rest == kept + ([m] + rest);
  }

  /** What one push leaves of the never-drop messages. */
  lemma KeptAfterPush(items: seq<SimToServer>, cap: nat, m: SimToServer)
    requires |items| <= cap
    ensures Keep(Pushed(items, cap, m), 0)
         == if IsNeverDrop(m) && |Keep(items, 0)| < cap then Keep(items, 0) + [m] else Keep(items, 0)
  {
    NeverDropIsRankZero(m);
    if IsNeverDrop(m) {
      NeverDropPush(items, cap, m);
    } else {
      PushIsolated(items, cap, m, 0);
    }
  }

  /** One push of a burst, seen by the bound `First`. */
  lemma BurstStep(items: seq<SimToServer>, cap: nat, msgs: seq<SimToServer>)
    requires |items| <= cap && msgs != []
    ensures First(cap, Keep(Pushed(items, cap, msgs[0]), 0) + Keep(msgs[1..], 0))
         == First(cap, Keep(items, 0) + Keep(msgs, 0))
  {
    var m, kept, rest := msgs[0], Keep(items, 0), Keep(msgs[1..], 0);
    KeptAfterPush(items, cap, m);
    KeepPop(msgs, 0);
    NeverDropIsRankZero(m);
    if IsNeverDrop(m) {
      FirstAbsorbs(cap, kept, m, rest);
      assert Keep(msgs, 0) == [m] + rest;
    } else {
      assert Keep(msgs, 0) == rest;
    }
  }

  lemma {:induction false} BurstFrom(items: seq<SimToServer>, cap: nat, msgs: seq<SimToServer>)
    requires |items| <= cap
    ensures Keep(Content(items, cap, Pushes(msgs)), 0) == First(cap, Keep(items, 0) + Keep(msgs, 0))
    decreases |msgs|
  {
    if msgs == [] {
      assert Keep(items, 0) + Keep(msgs, 0) == Keep(items, 0);
    } else {
      var next := Pushed(items, cap, msgs[0]);
      BurstStep(items, cap, msgs);
      assert Pushes(msgs)[1..] == Pushes(msgs[1..]);
      assert Content(items, cap, Pushes(msgs)) == Content(next, cap, Pushes(msgs[1..]));
      BurstFrom(next, cap, msgs[1..]);
    }
  }

  /** Of a burst into an empty queue, exactly the first `cap` never-drop messages survive, in order. */
  lemma NeverDropBurst(cap: nat, msgs: seq<SimToServer>)
    ensures Keep(Content([], cap, Pushes(msgs)), 0) == First(cap, Keep(msgs, 0))
  {
    BurstFrom([], cap, msgs);
    assert Keep([], 0) + Keep(msgs, 0) == Keep(msgs, 0);
  }

  /** The precious messages of a queue, in order. */
  function Treasure(items: seq<SimToServer>): (r: seq<SimToServer>)
    ensures forall m :: m in r ==> Precious(m)
  {
    if items == [] then []
    else
      var last := |items| - 1;
      Treasure(items[..last]) + if Precious(items[last]) then [items[last]] else []
  }

  lemma {:induction false} TreasureIsKept(items: seq<SimToServer>)
    ensures Treasure(items) == Keep(items, 0)
  {
    if items == [] {
    } else {
      TreasureIsKept(items[..|items| - 1]);
      NeverDropIsRankZero(items[|items| - 1]);
    }
  }

  /**
   Replies and the logs of ACT and ERS: of any burst into an empty queue exactly the first `cap` survive, in order.
   */
  lemma FirstTreasureSurvives(cap: nat, msgs: seq<SimToServer>)
    ensures Treasure(Content([], cap, Pushes(msgs))) == First(cap, Treasure(msgs))
  {
    NeverDropBurst(cap, msgs);
    TreasureIsKept(Content([], cap, Pushes(msgs)));
    TreasureIsKept(msgs);
  }
}
