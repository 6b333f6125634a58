/** Where every pushed message ends up, and in which order the survivors leave. */
module QueueLedger {
  import opened Messages
  import opened InboundQueues
  import opened QueueIsolation

  datatype Ledger = Ledger(
    items: seq<SimToServer>,
    pushed: seq<SimToServer>,
    drained: seq<SimToServer>,
    evicted: multiset<SimToServer>,
    refused: multiset<SimToServer>)

  const EMPTY := Ledger([], [], [], multiset{}, multiset{})

  /** The queue's step together with the books: what it evicts or refuses is what the contents lose. */
  function Record(l: Ledger, cap: nat, op: Op): Ledger {
    var items := After(l.items, cap, op);
    match op
    case Pop => l.(items := items, drained := l.drained + Output(l.items, op))
    case Push(msg) =>
      var full := |l.items| == cap;
      var victim := if full && !IsHeartbeat(msg) then EvictionIndex(l.items) else None;
      Ledger(items, l.pushed + [msg], l.drained,
             l.evicted + (if victim.Some? then multiset{l.items[victim.value]} else multiset{}),
             l.refused + (if full && victim.None? then multiset{msg} else multiset{}))
  }

  function Books(l: Ledger, cap: nat, ops: seq<Op>): Ledger
    decreases |ops|
  {
    if ops == [] then l else Books(Record(l, cap, ops[0]), cap, ops[1..])
  }

  /** `a` arises from `b` by deleting items. */
  ghost predicate Subsequence(a: seq<SimToServer>, b: seq<SimToServer>)
    decreases |b|
  {
    a == [] ||
    (b != [] &&
     var b' := b[..|b| - 1];
     Subsequence(a, b') || (a[|a| - 1] == b[|b| - 1] && Subsequence(a[..|a| - 1], b')))
  }

  lemma SubsequenceAppend(a: seq<SimToServer>, b: seq<SimToServer>, m: SimToServer)
    requires Subsequence(a, b)
    ensures Subsequence(a + [m], b + [m]) && Subsequence(a, b + [m])
  {
    assert (b + [m])[..|b + [m]| - 1] == b;
    assert (a + [m])[..|a + [m]| - 1] == a;
  }

  lemma {:induction false} SubsequenceDelete(a: seq<SimToServer>, b: seq<SimToServer>, i: nat)
    requires Subsequence(a, b) && i < |a|
    ensures Subsequence(Without(a, i), b)
    decreases |b|
  {
    var b', last := b[..|b| - 1], |a| - 1;
    if Subsequence(a, b') {
      SubsequenceDelete(a, b', i);
    } else if i == last {
      assert Without(a, i) == a[..last];
    } else {
      SubsequenceDelete(a[..last], b', i);
      SubsequenceAppend(Without(a[..last], i), b', a[last]);
      assert Without(a, i) == Without(a[..last], i) + [a[last]];
      assert b == b' + [b[|b| - 1]];
    }
  }

  ghost predicate Balanced(l: Ledger, cap: nat) {
    && |l.items| <= cap
    && multiset(l.pushed) == multiset(l.drained) + multiset(l.items) + l.evicted + l.refused
    && Subsequence(l.drained + l.items, l.pushed)
  }

  lemma EvictAndAppend(pushed: seq<SimToServer>, drained: seq<SimToServer>, items: seq<SimToServer>, i: nat,
      msg: SimToServer)
    requires i < |items| && Subsequence(drained + items, pushed)
    ensures Subsequence(drained + (Without(items, i) + [msg]), pushed + [msg])
    ensures multiset(items) == multiset(Without(items, i)) + multiset{items[i]}
  {
    var out := drained + items;
    assert items == items[..i] + [items[i]] + items[i + 1..];
    SubsequenceDelete(out, pushed, |drained| + i);
    assert Without(out, |drained| + i) == drained + Without(items, i);
    SubsequenceAppend(drained + Without(items, i), pushed, msg);
    assert drained + Without(items, i) + [msg] == drained + (Without(items, i) + [msg]);
  }

  lemma RecordEviction(l: Ledger, cap: nat, msg: SimToServer)
    requires Balanced(l, cap)
    requires |l.items| == cap && !IsHeartbeat(msg) && EvictionIndex(l.items).Some?
    ensures Balanced(Record(l, cap, Push(msg)), cap)
  {
    var i := EvictionIndex(l.items).value;
    var l' := Record(l, cap, Push(msg));
    EvictAndAppend(l.pushed, l.drained, l.items, i, msg);
    assert l'.items == Without(l.items, i) + [msg];
    assert l'.pushed == l.pushed + [msg] && l'.drained == l.drained && l'.refused == l.refused;
    assert l'.evicted == l.evicted + multiset{l.items[i]};
  }

  /** Without an eviction the newcomer is appended or refused. */
  lemma RecordPlain(l: Ledger, cap: nat, msg: SimToServer)
    requires Balanced(l, cap)
    requires |l.items| < cap || IsHeartbeat(msg) || EvictionIndex(l.items).None?
    ensures Balanced(Record(l, cap, Push(msg)), cap)
  {
    var l' := Record(l, cap, Push(msg));
    SubsequenceAppend(l.drained + l.items, l.pushed, msg);
    assert l.drained + l.items + [msg] == l.drained + (l.items + [msg]);
    assert l'.pushed == l.pushed + [msg] && l'.drained == l.drained && l'.evicted == l.evicted + multiset{};
    if |l.items| < cap {
      assert l'.items == l.items + [msg] && l'.refused == l.refused + multiset{};
    } else {
      assert l'.items == l.items && l'.refused == l.refused + multiset{msg};
    }
  }

  lemma RecordPush(l: Ledger, cap: nat, msg: SimToServer)
    requires Balanced(l, cap)
    ensures Balanced(Record(l, cap, Push(msg)), cap)
  {
    if |l.items| == cap && !IsHeartbeat(msg) && EvictionIndex(l.items).Some? {
      RecordEviction(l, cap, msg);
    } else {
      RecordPlain(l, cap, msg);
    }
  }

  lemma RecordPop(l: Ledger, cap: nat)
    requires Balanced(l, cap)
    ensures Balanced(Record(l, cap, Pop), cap)
  {
    if l.items == [] {
      assert l.drained + [] == l.drained;
    } else {
      assert l.items == [l.items[0]] + l.items[1..];
      assert l.drained + [l.items[0]] + l.items[1..] == l.drained + l.items;
    }
  }

  lemma {:induction false} BooksBalance(l: Ledger, cap: nat, ops: seq<Op>)
    requires Balanced(l, cap)
    ensures Balanced(Books(l, cap, ops), cap)
    decreases |ops|
  {
    if ops == [] {
    } else {
      var op, l' := ops[0], Record(l, cap, ops[0]);
      assert Balanced(l', cap) by {
        match op
        case Push(msg) => RecordPush(l, cap, msg);
        case Pop => RecordPop(l, cap);
      }
      BooksBalance(l', cap, ops[1..]);
      assert Books(l, cap, ops) == Books(l', cap, ops[1..]);
    }
  }

  lemma RecordFollows(l: Ledger, cap: nat, op: Op)
    ensures Record(l, cap, op).items == After(l.items, cap, op)
    ensures Record(l, cap, op).drained == l.drained + Output(l.items, op)
  {
  }

  lemma {:induction false} BooksFollowQueue(l: Ledger, cap: nat, ops: seq<Op>)
    ensures Books(l, cap, ops).items == Content(l.items, cap, ops)
    ensures Books(l, cap, ops).drained == l.drained + Drained(l.items, cap, ops)
    decreases |ops|
  {
    if ops == [] {
    } else {
      var l', rest := Record(l, cap, ops[0]), ops[1..];
      RecordFollows(l, cap, ops[0]);
      BooksFollowQueue(l', cap, rest);
      assert Books(l, cap, ops) == Books(l', cap, rest);
      assert Drained(l.items, cap, ops) == Output(l.items, ops[0]) + Drained(l'.items, cap, rest);
    }
  }

  /**
   Over every trace from an empty queue: each pushed message is drained, queued, evicted or refused, exactly
   once; drained messages followed by queued ones keep the order of the pushes; the bound holds throughout.
   */
  lemma QueueConservation(cap: nat, ops: seq<Op>) returns (books: Ledger)
    ensures books.items == Content([], cap, ops) && books.drained == Drained([], cap, ops)
    ensures |books.items| <= cap
    ensures multiset(books.pushed) == multiset(books.drained) + multiset(books.items) + books.evicted + books.refused
    ensures Subsequence(books.drained + books.items, books.pushed)
    ensures books == Books(EMPTY, cap, ops)
  {
    books := Books(EMPTY, cap, ops);
    BooksBalance(EMPTY, cap, ops);
    BooksFollowQueue(EMPTY, cap, ops);
  }

  /** Never-drop messages are never evicted, over any trace. */
  lemma {:induction false} NeverEvicted(l: Ledger, cap: nat, ops: seq<Op>)
    requires forall m :: m in l.evicted ==> !IsNeverDrop(m)
    ensures forall m :: m in Books(l, cap, ops).evicted ==> !IsNeverDrop(m)
    decreases |ops|
  {
    if ops == [] {
    } else {
      var l' := Record(l, cap, ops[0]);
      forall m | m in l'.evicted
        ensures !IsNeverDrop(m)
      {
        NeverDropIsRankZero(m);
      }
      NeverEvicted(l', cap, ops[1..]);
    }
  }

  lemma ReplacingChanges(items: seq<SimToServer>, i: nat, msg: SimToServer)
    requires i < |items| && items[i] != msg
    ensures items[..i] + items[i + 1..] + [msg] != items
  {
    var before, after := items[..i], items[i + 1..];
    assert items == before + [items[i]] + after;
    assert multiset(items) == multiset(before) + multiset{items[i]} + multiset(after);
    assert multiset(before + after + [msg]) == multiset(before) + multiset(after) + multiset{msg};
    assert multiset(before + after + [msg])[msg] == multiset(items)[msg] + 1;
  }

  /** A refused reply, or log of ACT or ERS, met a queue full of such messages. */
  lemma RefusedByPeers(items: seq<SimToServer>, cap: nat, msg: SimToServer)
    requires Precious(msg) && Pushed(items, cap, msg) == items
    ensures |items| == cap && forall j :: 0 <= j < |items| ==> Precious(items[j])
  {
    PushObeysLaw(items, cap, msg);
    assert |items + [msg]| != |items|;
    if |items| == cap && exists j :: 0 <= j < |items| && !Precious(items[j]) {
      var i: nat :| GivenUp(items, i) && Pushed(items, cap, msg) == items[..i] + items[i + 1..] + [msg];
      GivenUpIsNotPrecious(items, i);
      ReplacingChanges(items, i, msg);
    }
  }

  /**
   Over every trace from an empty queue: replies and the logs of ACT and ERS, once queued, are drained or still queued;
   the only ones missing were refused.
   */
  lemma PreciousSurvive(cap: nat, ops: seq<Op>, msg: SimToServer) returns (books: Ledger)
    requires Precious(msg)
    ensures books == Books(EMPTY, cap, ops)
    ensures books.items == Content([], cap, ops) && books.drained == Drained([], cap, ops)
    ensures multiset(books.pushed)[msg] == multiset(books.drained)[msg] + multiset(books.items)[msg]
         + books.refused[msg]
  {
    books := QueueConservation(cap, ops);
    NeverEvicted(EMPTY, cap, ops);
    NeverDropIsRankZero(msg);
    assert books.evicted[msg] == 0;
  }
}
