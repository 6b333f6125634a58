/** One session's handshake and read loop, run to the end of its stream. */
module SessionReaders {
  import opened Messages
  import opened InboundQueues
  import opened InstanceMaps
  import opened Protocol
  import Broker

  const QUEUE_CAPACITY: nat := 128

  /** One turn of the loop for an envelope that passed the ownership check. */
  function Handled(sh: Broker.Shared, id: string, token: nat, msg: SimToServer): Broker.Shared {
    match msg.payload
    case Beat(heartbeat) => Broker.PushInbound(Broker.HeartbeatSection(sh, id, token, heartbeat), id, msg)
    case Goodbye => Broker.RemoveIf(Broker.PushInbound(sh, id, msg), id, token)
    case _ => Broker.PushInbound(sh, id, msg)
  }

  predicate Stops(sh: Broker.Shared, id: string, token: nat, item: Item) {
    !Broker.Owns(sh, id, token) || item.Broken?
  }

  function ReadStream(sh: Broker.Shared, id: string, token: nat, stream: seq<Item>): Broker.Shared
    decreases |stream|
  {
    if stream == [] || Stops(sh, id, token, stream[0]) then Broker.RemoveIf(sh, id, token)
    else
      var msg := stream[0].msg;
      var next := Handled(sh, id, token, msg);
      if msg.payload.Goodbye? then Broker.RemoveIf(next, id, token) else ReadStream(next, id, token, stream[1..])
  }

  method Handle(instances: InstanceMap, id: string, token: nat, msg: SimToServer)
    requires instances.Valid()
    modifies instances, instances.Queues()
    ensures instances.Valid() && instances.Queues() <= old(instances.Queues())
    ensures instances.State() == Handled(old(instances.State()), id, token, msg)
  {
    if msg.payload.Beat? {
      instances.SetHeartbeat(id, token, msg.payload.heartbeat);
    }
    var _ := instances.PushInbound(id, msg);
    if msg.payload.Goodbye? {
      instances.RemoveIf(id, token);
    }
  }

  method Read(instances: InstanceMap, id: string, token: nat, stream: seq<Item>)
    requires instances.Valid()
    modifies instances, instances.Queues()
    ensures instances.Valid() && instances.Queues() <= old(instances.Queues())
    ensures instances.State() == ReadStream(old(instances.State()), id, token, stream)
  {
    ghost var goal := ReadStream(instances.State(), id, token, stream);
    assert stream[0..] == stream;
    var i := 0;
    while i < |stream|
      invariant 0 <= i <= |stream|
      invariant instances.Valid() && instances.Queues() <= old(instances.Queues())
      invariant ReadStream(instances.State(), id, token, stream[i..]) == goal
    {
      assert stream[i..][1..] == stream[i + 1..];
      var owns := instances.Owns(id, token);
      if !owns {
        break;
      }
      if stream[i].Broken? {
        break;
      }
      Handle(instances, id, token, stream[i].msg);
      if stream[i].msg.payload.Goodbye? {
        break;
      }
      i := i + 1;
    }
    instances.RemoveIf(id, token);
  }

  /** Inserts the session and reads its stream to the end. */
  method Admit(instances: InstanceMap, id: string, stream: seq<Item>)
    requires instances.Valid() && IsValidInstanceId(id)
    modifies instances, instances.Queues()
    ensures instances.Valid()
    ensures var token := old(instances.nextToken);
            var sh := old(instances.State()).(nextToken := token + 1);
            instances.State() ==
            ReadStream(Broker.InsertSection(sh, id, token, 128, 128), id, token, stream)
  {
    var token, _ := instances.Insert(id, QUEUE_CAPACITY, QUEUE_CAPACITY);
    Read(instances, id, token, stream);
  }

  datatype Rejection = NoMessages | StreamFailed | NotRegister | InvalidId

  function Handshake(stream: seq<Item>): Option<Rejection> {
    if stream == [] then Some(NoMessages)
    else if stream[0].Broken? then Some(StreamFailed)
    else if !stream[0].msg.payload.Register? then Some(NotRegister)
    else if !IsValidInstanceId(stream[0].msg.payload.instanceId) then Some(InvalidId)
    else None
  }

  /** The stream opens with a registration. */
  predicate Opens(stream: seq<Item>) {
    |stream| > 0 && stream[0].Envelope? && stream[0].msg.payload.Register?
  }

  /** Accepts or rejects a stream by its first message and, if accepted, serves it to its end. */
  method Serve(instances: InstanceMap, stream: seq<Item>) returns (rejection: Option<Rejection>)
    requires instances.Valid()
    modifies instances, instances.Queues()
    ensures instances.Valid()
    ensures rejection == Handshake(stream)
    ensures rejection.None? <==> Opens(stream) && 1 <= |stream[0].msg.payload.instanceId| <= 64
    ensures rejection == Some(NoMessages) <==> |stream| == 0
    ensures rejection == Some(StreamFailed) <==> |stream| > 0 && stream[0].Broken?
    ensures rejection == Some(NotRegister) <==> |stream| > 0 && stream[0].Envelope? && !stream[0].msg.payload.Register?
    ensures rejection == Some(InvalidId) <==>
              Opens(stream) && (|stream[0].msg.payload.instanceId| == 0 || |stream[0].msg.payload.instanceId| > 64)
    ensures rejection.Some? ==> instances.State() == old(instances.State())
    ensures rejection.None? ==>
              var id, token := stream[0].msg.payload.instanceId, old(instances.nextToken);
              var sh := old(instances.State()).(nextToken := token + 1);
              instances.State() == ReadStream(Broker.InsertSection(sh, id, token, 128, 128), id, token, stream[1..])
  {
    if stream == [] {
      return Some(NoMessages);
    }
    var first := stream[0];
    if first.Broken? {
      return Some(StreamFailed);
    }
    if !first.msg.payload.Register? {
      return Some(NotRegister);
    }
    var id := first.msg.payload.instanceId;
    if !IsValidInstanceId(id) {
      return Some(InvalidId);
    }
    Admit(instances, id, stream[1..]);
    rejection := None;
  }

  /** However its stream ends, a served session no longer owns its id, and nobody is left waiting on that id. */
  lemma {:induction false} ServedSessionLeaves(sh: Broker.Shared, id: string, token: nat, stream: seq<Item>)
    requires Broker.Owns(sh, id, token)
    ensures var sh' := ReadStream(sh, id, token, stream);
            id !in sh'.inner && sh'.inner == sh.inner - {id} && Broker.CorrsOf(sh', id) == {}
    decreases |stream|
  {
    if stream == [] || stream[0].Broken? {
    } else {
      var msg := stream[0].msg;
      var pushed := Handled(sh, id, token, msg);
      if !msg.payload.Goodbye? {
        assert pushed.inner - {id} == sh.inner - {id};
        ServedSessionLeaves(pushed, id, token, stream[1..]);
      }
    }
  }
}
