/** The bounded per-session inbound queue and its ranked eviction. */
module InboundQueues {
  import opened Messages

  predicate IsProtectedLog(component: string) {
    component == "ACT" || component == "ERS"
  }

  predicate IsNoisyLog(component: string) {
    component == "MEM" || component == "SCT"
  }

  predicate IsNeverDrop(msg: SimToServer) {
    match msg.payload
    case InputAck(_, _) => true
    case UiResult(_, _, _) => true
    case Snapshot => true
    case SnapshotError(_) => true
    case Log(component, _) => IsProtectedLog(component)
    case _ => false
  }

  function EvictionRank(msg: SimToServer): nat {
    match msg.payload
    case Beat(_) => 4
    case Log(component, _) =>
      if IsNoisyLog(component) then 3 else if IsProtectedLog(component) then 0 else 2
    case _ => if !IsNeverDrop(msg) then 1 else 0
  }

  /** The scan's ordering: higher rank first, then the smaller index. */
  predicate KeyExceeds(rank: nat, index: nat, rank': nat, index': nat) {
    rank > rank' || (rank == rank' && index < index')
  }

  ghost predicate IsOldestOfHighestRank(items: seq<SimToServer>, i: nat) {
    && i < |items|
    && EvictionRank(items[i]) > 0
    && (forall j :: 0 <= j < |items| ==> EvictionRank(items[j]) <= EvictionRank(items[i]))
    && (forall j :: 0 <= j < i ==> EvictionRank(items[j]) < EvictionRank(items[i]))
  }

  /** The filtered maximum over `(rank, MAX - index)`. */
  function EvictionIndex(items: seq<SimToServer>): (r: Option<nat>)
    ensures r.None? <==> forall j :: 0 <= j < |items| ==> EvictionRank(items[j]) == 0
    ensures r.Some? ==> IsOldestOfHighestRank(items, r.value)
  {
    if items == [] then None
    else
      var last := |items| - 1;
      var best := EvictionIndex(items[..last]);
      if EvictionRank(items[last]) == 0 then best
      else if best.Some? && KeyExceeds(EvictionRank(items[best.value]), best.value, EvictionRank(items[last]), last)
      then best
      else Some(last)
  }

  function Without(items: seq<SimToServer>, i: nat): (r: seq<SimToServer>)
    requires i < |items|
  {
    items[..i] + items[i + 1..]
  }

  /** What a full or non-full queue holds after a push. */
  function Pushed(items: seq<SimToServer>, cap: nat, msg: SimToServer): (r: seq<SimToServer>)
    ensures |items| <= cap ==> |r| <= cap
  {
    if |items| != cap then items + [msg]
    else if IsHeartbeat(msg) then items
    else
      match EvictionIndex(items)
      case Some(i) => Without(items, i) + [msg]
      case None => items
  }

  // What a push does, said in payloads and component names

  /** Replies, and the logs of two components. */
  predicate Precious(msg: SimToServer) {
    match msg.payload
    case InputAck(_, _) => true
    case UiResult(_, _, _) => true
    case Snapshot => true
    case SnapshotError(_) => true
    case Log(component, _) => component == "ACT" || component == "ERS"
    case Register(_) => false
    case Beat(_) => false
    case InputObserved => false
    case Goodbye => false
    case Absent => false
  }

  predicate IsBeat(msg: SimToServer) {
    msg.payload.Beat?
  }

  predicate IsChatter(msg: SimToServer) {
    msg.payload.Log? && (msg.payload.component == "MEM" || msg.payload.component == "SCT")
  }

  predicate IsPlainLog(msg: SimToServer) {
    msg.payload.Log? && !IsChatter(msg) && !Precious(msg)
  }

  predicate IsMinor(msg: SimToServer) {
    msg.payload.Register? || msg.payload.Goodbye? || msg.payload.InputObserved? || msg.payload.Absent?
  }

  ghost predicate IsOldest(items: seq<SimToServer>, i: nat, P: SimToServer -> bool) {
    i < |items| && P(items[i]) && forall j :: 0 <= j < i ==> !P(items[j])
  }

  ghost predicate HasNone(items: seq<SimToServer>, P: SimToServer -> bool) {
    forall j :: 0 <= j < |items| ==> !P(items[j])
  }

  /** The oldest heartbeat; else the oldest chatter; else the oldest other log; else the oldest of the minor kinds. */
  ghost predicate GivenUp(items: seq<SimToServer>, i: nat) {
    || IsOldest(items, i, IsBeat)
    || (HasNone(items, IsBeat) && IsOldest(items, i, IsChatter))
    || (HasNone(items, IsBeat) && HasNone(items, IsChatter) && IsOldest(items, i, IsPlainLog))
    || (HasNone(items, IsBeat) && HasNone(items, IsChatter) && HasNone(items, IsPlainLog)
      && IsOldest(items, i, IsMinor))
  }

  /**
   A queue with room takes the newcomer; a full one refuses a heartbeat, and gives something up unless all is
   precious.
   */
  ghost predicate PushLaw(items: seq<SimToServer>, cap: nat, msg: SimToServer, after: seq<SimToServer>) {
    if |items| != cap then after == items + [msg]
    else if IsBeat(msg) || (forall j :: 0 <= j < |items| ==> Precious(items[j])) then after == items
    else exists i: nat :: GivenUp(items, i) && after == items[..i] + items[i + 1..] + [msg]
  }

  lemma KindsOfRanks(msg: SimToServer)
    ensures EvictionRank(msg) == 4 <==> IsBeat(msg)
    ensures EvictionRank(msg) == 3 <==> IsChatter(msg)
    ensures EvictionRank(msg) == 2 <==> IsPlainLog(msg)
    ensures EvictionRank(msg) == 1 <==> IsMinor(msg)
    ensures EvictionRank(msg) == 0 <==> Precious(msg)
  {
    if msg.payload.Log? {
      NoisyIsNotProtected(msg.payload.component);
    }
  }

  lemma NoisyIsNotProtected(component: string)
    ensures !(IsNoisyLog(component) && IsProtectedLog(component))
  {
    if IsNoisyLog(component) {
      assert component[0] == 'M' || component[0] == 'S';
    }
  }

  lemma GivenUpIsNotPrecious(items: seq<SimToServer>, i: nat)
    requires GivenUp(items, i)
    ensures i < |items| && !Precious(items[i])
  {
    if IsChatter(items[i]) {
      assert items[i].payload.component[0] == 'M' || items[i].payload.component[0] == 'S';
    }
  }

  lemma OldestIsGivenUp(items: seq<SimToServer>, i: nat)
    requires IsOldestOfHighestRank(items, i)
    ensures GivenUp(items, i)
  {
    forall j | 0 <= j < |items|
      ensures EvictionRank(items[j]) == 4 <==> IsBeat(items[j])
      ensures EvictionRank(items[j]) == 3 <==> IsChatter(items[j])
      ensures EvictionRank(items[j]) == 2 <==> IsPlainLog(items[j])
      ensures EvictionRank(items[j]) == 1 <==> IsMinor(items[j])
    {
      KindsOfRanks(items[j]);
    }
    KindsOfRanks(items[i]);
  }

  /** For every queue, capacity and message, a push does what the law says. */
  lemma PushObeysLaw(items: seq<SimToServer>, cap: nat, msg: SimToServer)
    ensures PushLaw(items, cap, msg, Pushed(items, cap, msg))
  {
    forall j | 0 <= j < |items|
      ensures EvictionRank(items[j]) == 0 <==> Precious(items[j])
    {
      KindsOfRanks(items[j]);
    }
    if |items| == cap && !IsHeartbeat(msg) && EvictionIndex(items).Some? {
      OldestIsGivenUp(items, EvictionIndex(items).value);
    }
  }

  class InboundQueue {
    var items: seq<SimToServer>
    const cap: nat

    ghost predicate Valid()
      reads this
    {
      |items| <= cap
    }

    constructor (cap: nat)
      ensures Valid() && items == [] && this.cap == cap
    {
      this.cap := cap;
      items := [];
    }

    method Push(msg: SimToServer)
      requires Valid()
      modifies this`items
      ensures Valid()
      ensures items == Pushed(old(items), cap, msg)
      ensures PushLaw(old(items), cap, msg, items)
    {
      PushObeysLaw(items, cap, msg);
      if |items| == cap {
        if IsHeartbeat(msg) {
          return;
        }
        var index := EvictionIndex(items);
        if index.Some? {
          items := items[..index.value] + items[index.value + 1..];
        } else {
          return;
        }
      }
      items := items + [msg];
    }

    method TryRecv() returns (msg: Option<SimToServer>)
      requires Valid()
      modifies this`items
      ensures Valid()
      ensures old(items) == [] ==> msg.None? && items == []
      ensures old(items) != [] ==> msg.Some? && [msg.value] + items == old(items)
    {
      if items == [] {
        msg := None;
      } else {
        msg := Some(items[0]);
        items := items[1..];
      }
    }
  }
}
