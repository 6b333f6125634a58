/**
 The shared state behind the instance map's locks, and each critical section as a function on it.

 The class in InstanceMap.dfy executes these sections; the transition system in Protocol.dfy interleaves them.
 */
module Broker {
  import opened Messages
  import opened InboundQueues

  datatype Instance = Instance(
    token: nat,
    lastHeartbeat: Option<Heartbeat>,
    inbound: seq<SimToServer>,
    inboundCap: nat,
    outbound: seq<ServerToSim>,
    outboundCap: nat,
    outboundOpen: bool,
    readMask: seq<string>,
    excluded: seq<string>)

  datatype Shared = Shared(
    inner: map<string, Instance>,
    nextToken: nat,
    nextCorr: nat,
    waiters: map<nat, WaitKind>,
    waiterInstance: map<nat, string>)

  const INITIAL := Shared(map[], 1, 1, map[], map[])

  function NewInstance(token: nat, inboundCap: nat, outboundCap: nat): Instance {
    Instance(token, None, [], inboundCap, [], outboundCap, true, [], [])
  }

  // Sections of the instance-map lock

  predicate Owns(sh: Shared, id: string, token: nat) {
    id in sh.inner && sh.inner[id].token == token
  }

  function InsertSection(sh: Shared, id: string, token: nat, inboundCap: nat, outboundCap: nat): Shared {
    sh.(inner := sh.inner[id := NewInstance(token, inboundCap, outboundCap)])
  }

  function HeartbeatSection(sh: Shared, id: string, token: nat, heartbeat: Heartbeat): Shared {
    if Owns(sh, id, token)
    then sh.(inner := sh.inner[id := sh.inner[id].(lastHeartbeat := Some(heartbeat))])
    else sh
  }

  function RemoveSection(sh: Shared, id: string, token: nat): Shared {
    if Owns(sh, id, token) then sh.(inner := sh.inner - {id}) else sh
  }

  datatype SendOutcome = Sent | UnknownInstance | QueueFull

  /** A closed channel is reported as a full one. */
  function SendResult(sh: Shared, id: string): SendOutcome {
    if id !in sh.inner then UnknownInstance
    else if sh.inner[id].outboundOpen && |sh.inner[id].outbound| < sh.inner[id].outboundCap then Sent
    else QueueFull
  }

  function SendSection(sh: Shared, id: string, msg: ServerToSim): Shared {
    if SendResult(sh, id).Sent?
    then sh.(inner := sh.inner[id := sh.inner[id].(outbound := sh.inner[id].outbound + [msg])])
    else sh
  }

  /** The masking and queueing half of an inbound push. */
  function Received(inst: Instance, msg: SimToServer): Instance {
    if !Visible(inst.readMask, msg) || Excluded(inst.excluded, msg) then inst
    else inst.(inbound := Pushed(inst.inbound, inst.inboundCap, msg))
  }

  function PushSection(sh: Shared, id: string, msg: SimToServer): Shared {
    if id in sh.inner then sh.(inner := sh.inner[id := Received(sh.inner[id], msg)]) else sh
  }

  function MaskSection(sh: Shared, id: string, paths: seq<string>): Shared {
    if id in sh.inner then sh.(inner := sh.inner[id := sh.inner[id].(readMask := paths)]) else sh
  }

  function ExcludeSection(sh: Shared, id: string, components: seq<string>): Shared {
    if id in sh.inner then sh.(inner := sh.inner[id := sh.inner[id].(excluded := components)]) else sh
  }

  function PopSection(sh: Shared, id: string): Shared {
    if id in sh.inner && sh.inner[id].inbound != []
    then sh.(inner := sh.inner[id := sh.inner[id].(inbound := sh.inner[id].inbound[1..])])
    else sh
  }

  // The peer's end of the outbound channel

  function TakeOutboundSection(sh: Shared, id: string): Shared {
    if id in sh.inner && sh.inner[id].outbound != []
    then sh.(inner := sh.inner[id := sh.inner[id].(outbound := sh.inner[id].outbound[1..])])
    else sh
  }

  function CloseOutboundSection(sh: Shared, id: string): Shared {
    if id in sh.inner then sh.(inner := sh.inner[id := sh.inner[id].(outboundOpen := false)]) else sh
  }

  // Sections of the two waiter locks

  function AddWaiter(sh: Shared, corr: nat, kind: WaitKind): Shared {
    sh.(waiters := sh.waiters[corr := kind])
  }

  function IndexWaiter(sh: Shared, corr: nat, id: string): Shared {
    sh.(waiterInstance := sh.waiterInstance[corr := id])
  }

  function DropWaiter(sh: Shared, corr: nat): Shared {
    sh.(waiters := sh.waiters - {corr})
  }

  function UnindexWaiter(sh: Shared, corr: nat): Shared {
    sh.(waiterInstance := sh.waiterInstance - {corr})
  }

  predicate Completes(sh: Shared, msg: SimToServer) {
    msg.corr != 0 && msg.corr in sh.waiters && WaiterMatches(sh.waiters[msg.corr], msg)
  }

  function CorrsOf(sh: Shared, id: string): set<nat> {
    set corr | corr in sh.waiterInstance && sh.waiterInstance[corr] == id
  }

  // Whole calls, when nothing else runs between their sections

  function Register(sh: Shared, corr: nat, id: string, kind: WaitKind): Shared {
    IndexWaiter(AddWaiter(sh, corr, kind), corr, id)
  }

  function Take(sh: Shared, corr: nat): Shared {
    DropWaiter(UnindexWaiter(sh, corr), corr)
  }

  function Complete(sh: Shared, msg: SimToServer): Shared {
    if Completes(sh, msg) then UnindexWaiter(DropWaiter(sh, msg.corr), msg.corr) else sh
  }

  function TakeAll(sh: Shared, corrs: set<nat>): Shared {
    sh.(waiters := sh.waiters - corrs, waiterInstance := sh.waiterInstance - corrs)
  }

  function FailWaiters(sh: Shared, id: string): Shared {
    TakeAll(sh, CorrsOf(sh, id))
  }

  function RemoveIf(sh: Shared, id: string, token: nat): Shared {
    if Owns(sh, id, token) then FailWaiters(RemoveSection(sh, id, token), id) else sh
  }

  function PushInbound(sh: Shared, id: string, msg: SimToServer): Shared {
    PushSection(Complete(sh, msg), id, msg)
  }

  /** Taking back a fresh registration restores both tables; a registration does not influence a send. */
  lemma RegisterUndone(sh: Shared, corr: nat, id: string, kind: WaitKind, msg: ServerToSim)
    requires corr !in sh.waiters && corr !in sh.waiterInstance
    ensures Take(Register(sh, corr, id, kind), corr) == sh
    ensures SendResult(Register(sh, corr, id, kind), id) == SendResult(sh, id)
    ensures SendSection(Register(sh, corr, id, kind), id, msg) == Register(SendSection(sh, id, msg), corr, id, kind)
  {
    assert (sh.waiters[corr := kind]) - {corr} == sh.waiters;
    assert (sh.waiterInstance[corr := id]) - {corr} == sh.waiterInstance;
  }
}
