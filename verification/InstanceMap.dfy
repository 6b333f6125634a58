/** The instance map as an object: every method is proved against the sections of Broker.dfy. */
module InstanceMaps {
  import opened Messages
  import opened InboundQueues
  import Broker

  /** A registered session; its inbound queue is shared with the session's sink. */
  datatype Session = Session(
    token: nat,
    lastHeartbeat: Option<Heartbeat>,
    inbound: InboundQueue,
    outbound: seq<ServerToSim>,
    outboundCap: nat,
    outboundOpen: bool,
    readMask: seq<string>,
    excluded: seq<string>)

  datatype SendError = UnknownInstance | QueueFull

  class InstanceMap {
    var inner: map<string, Session>
    var nextToken: nat
    var nextCorr: nat
    var waiters: map<nat, WaitKind>
    var waiterInstance: map<nat, string>

    ghost function Queues(): set<InboundQueue>
      reads this`inner
    {
      set id | id in inner :: inner[id].inbound
    }

    ghost predicate Valid()
      reads this, Queues()
    {
      && (forall id :: id in inner ==> inner[id].inbound.Valid())
      && (forall id, id' :: id in inner && id' in inner && id != id' ==> inner[id].inbound != inner[id'].inbound)
    }

    ghost function InstanceOf(s: Session): Broker.Instance
      reads s.inbound
    {
      Broker.Instance(s.token, s.lastHeartbeat, s.inbound.items, s.inbound.cap,
                      s.outbound, s.outboundCap, s.outboundOpen, s.readMask, s.excluded)
    }

    ghost function Instances(): map<string, Broker.Instance>
      reads this`inner, Queues()
    {
      map id | id in inner :: InstanceOf(inner[id])
    }

    ghost function State(): Broker.Shared
      reads this, Queues()
    {
      Broker.Shared(Instances(), nextToken, nextCorr, waiters, waiterInstance)
    }

    constructor ()
      ensures Valid() && Queues() == {} && State() == Broker.INITIAL
    {
      inner := map[];
      nextToken, nextCorr := 1, 1;
      waiters, waiterInstance := map[], map[];
    }

    method Insert(id: string, inboundCap: nat, outboundCap: nat) returns (token: nat, sink: InboundQueue)
      requires Valid() && IsValidInstanceId(id)
      modifies this
      ensures Valid() && fresh(sink) && id in inner && inner[id].inbound == sink
      ensures fresh(Queues() - old(Queues()))
      ensures token == old(nextToken)
      ensures State() == Broker.InsertSection(old(State()).(nextToken := token + 1), id, token, inboundCap, outboundCap)
    {
      token := nextToken;
      nextToken := nextToken + 1;
      sink := new InboundQueue(inboundCap);
      Place(id, Session(token, None, sink, [], outboundCap, true, [], []));
    }

    /** Puts a session with a queue of its own under `id`. */
    method Place(id: string, s: Session)
      requires Valid() && s.inbound.Valid() && s.inbound !in Queues()
      modifies this`inner
      ensures Valid() && Queues() <= old(Queues()) + {s.inbound} && inner == old(inner)[id := s]
      ensures Instances() == old(Instances())[id := InstanceOf(s)]
    {
      ghost var before := inner;
      inner := inner[id := s];
      assert forall k :: k in before && k != id ==> inner[k] == before[k] && before[k].inbound in old(Queues());
    }

    method Owns(id: string, token: nat) returns (owns: bool)
      requires Valid()
      ensures owns <==> Broker.Owns(State(), id, token)
    {
      owns := id in inner && inner[id].token == token;
    }

    method SetHeartbeat(id: string, token: nat, heartbeat: Heartbeat)
      requires Valid()
      modifies this`inner
      ensures Valid() && Queues() == old(Queues())
      ensures State() == Broker.HeartbeatSection(old(State()), id, token, heartbeat)
    {
      if id in inner && inner[id].token == token {
        Replace(id, inner[id].(lastHeartbeat := Some(heartbeat)));
      }
    }

    /** Rewrites one session's fields other than its queue. */
    method Replace(id: string, s: Session)
      requires Valid() && id in inner && s.inbound == inner[id].inbound
      modifies this`inner
      ensures Valid() && Queues() == old(Queues()) && inner == old(inner)[id := s]
      ensures Instances() == old(Instances())[id := InstanceOf(s)]
    {
      ghost var before := inner;
      inner := inner[id := s];
      assert forall k :: k in before ==> k in inner && inner[k].inbound == before[k].inbound;
      assert Queues() == old(Queues()) by {
        forall q | q in old(Queues())
          ensures q in Queues()
        {
          var k :| k in before && before[k].inbound == q;
          assert inner[k].inbound == q;
        }
      }
    }

    method TrySend(id: string, msg: ServerToSim) returns (outcome: Broker.SendOutcome)
      requires Valid()
      modifies this`inner
      ensures Valid() && Queues() == old(Queues())
      ensures outcome == Broker.SendResult(old(State()), id)
      ensures State() == Broker.SendSection(old(State()), id, msg)
    {
      if id !in inner {
        return Broker.UnknownInstance;
      }
      var s := inner[id];
      if s.outboundOpen && |s.outbound| < s.outboundCap {
        Replace(id, s.(outbound := s.outbound + [msg]));
        return Broker.Sent;
      }
      return Broker.QueueFull;
    }

    method SetReadMask(id: string, paths: seq<string>)
      requires Valid()
      modifies this`inner
      ensures Valid() && Queues() == old(Queues())
      ensures State() == Broker.MaskSection(old(State()), id, paths)
    {
      if id in inner {
        Replace(id, inner[id].(readMask := paths));
      }
    }

    method SetExcludeLogComponents(id: string, components: seq<string>)
      requires Valid()
      modifies this`inner
      ensures Valid() && Queues() == old(Queues())
      ensures State() == Broker.ExcludeSection(old(State()), id, components)
    {
      if id in inner {
        Replace(id, inner[id].(excluded := components));
      }
    }

    method TryRecvInbound(id: string) returns (msg: Option<SimToServer>)
      requires Valid()
      modifies Queues()
      ensures Valid() && inner == old(inner)
      ensures msg == if id in old(State()).inner && old(State()).inner[id].inbound != []
                     then Some(old(State()).inner[id].inbound[0]) else None
      ensures State() == Broker.PopSection(old(State()), id)
    {
      if id !in inner {
        return None;
      }
      ghost var before := Instances();
      var queue := inner[id].inbound;
      msg := queue.TryRecv();
      assert forall k :: k in inner && k != id ==> inner[k].inbound != queue;
      assert Instances() == if before[id].inbound == [] then before
                            else before[id := before[id].(inbound := before[id].inbound[1..])];
    }

    method PushInbound(id: string, msg: SimToServer) returns (completed: bool)
      requires Valid()
      modifies this`waiters, this`waiterInstance, Queues()
      ensures Valid() && inner == old(inner)
      ensures completed <==> Broker.Completes(old(State()), msg)
      ensures State() == Broker.PushInbound(old(State()), id, msg)
    {
      completed := CompleteWaiter(msg);
      if id in inner {
        if !Visible(inner[id].readMask, msg) {
          return;
        }
        if Excluded(inner[id].excluded, msg) {
          return;
        }
        Enqueue(id, msg);
      }
    }

    /** Pushes into the queue of one connected session. */
    method Enqueue(id: string, msg: SimToServer)
      requires Valid() && id in inner
      modifies inner[id].inbound
      ensures Valid()
      ensures var before := old(Instances())[id];
              Instances() == old(Instances())[id := before.(inbound := Pushed(before.inbound, before.inboundCap, msg))]
    {
      ghost var before := Instances();
      var queue := inner[id].inbound;
      queue.Push(msg);
      assert forall k :: k in inner && k != id ==> inner[k].inbound != queue && InstanceOf(inner[k]) == before[k];
      ghost var pushed := before[id].(inbound := Pushed(before[id].inbound, before[id].inboundCap, msg));
      assert InstanceOf(inner[id]) == pushed;
      assert Instances() == before[id := pushed];
    }

    method RegisterWaiter(id: string, corr: nat, kind: WaitKind)
      modifies this`waiters, this`waiterInstance
      ensures State() == Broker.Register(old(State()), corr, id, kind)
    {
      waiters := waiters[corr := kind];
      waiterInstance := waiterInstance[corr := id];
    }

    method TakeWaiter(corr: nat)
      modifies this`waiters, this`waiterInstance
      ensures State() == Broker.Take(old(State()), corr)
    {
      waiterInstance := waiterInstance - {corr};
      waiters := waiters - {corr};
    }

    /** True when a reply was handed to a waiting caller. */
    method CompleteWaiter(msg: SimToServer) returns (completed: bool)
      modifies this`waiters, this`waiterInstance
      ensures completed <==> Broker.Completes(old(State()), msg)
      ensures State() == Broker.Complete(old(State()), msg)
    {
      if msg.corr == 0 {
        return false;
      }
      completed := msg.corr in waiters && WaiterMatches(waiters[msg.corr], msg);
      if completed {
        waiters := waiters - {msg.corr};
        waiterInstance := waiterInstance - {msg.corr};
      }
    }

    /** Drops every waiter registered for `id`; the corrs are visited in no particular order. */
    method FailWaiters(id: string)
      modifies this`waiters, this`waiterInstance
      ensures State() == Broker.FailWaiters(old(State()), id)
    {
      var corrs := set corr | corr in waiterInstance && waiterInstance[corr] == id;
      ghost var all := corrs;
      while corrs != {}
        invariant corrs <= all
        invariant inner == old(inner) && nextToken == old(nextToken) && nextCorr == old(nextCorr)
        invariant waiters == old(waiters) - (all - corrs)
        invariant waiterInstance == old(waiterInstance) - (all - corrs)
        decreases corrs
      {
        var corr :| corr in corrs;
        assert all - (corrs - {corr}) == (all - corrs) + {corr};
        TakeWaiter(corr);
        corrs := corrs - {corr};
      }
      assert all - corrs == all;
    }

    method RemoveIf(id: string, token: nat)
      requires Valid()
      modifies this`inner, this`waiters, this`waiterInstance
      ensures Valid() && Queues() <= old(Queues())
      ensures State() == Broker.RemoveIf(old(State()), id, token)
    {
      if id in inner && inner[id].token == token {
        inner := inner - {id};
        assert State() == Broker.RemoveSection(old(State()), id, token);
        FailWaiters(id);
      }
    }

    /** The part of a waiting send that precedes the wait. A failed send leaves no trace. */
    method SendAndRegister(id: string, msg: ServerToSim, kind: WaitKind) returns (failure: Option<SendError>)
      requires Valid()
      requires msg.corr !in waiters && msg.corr !in waiterInstance
      modifies this`inner, this`waiters, this`waiterInstance
      ensures Valid() && Queues() == old(Queues())
      ensures failure.None? <==> Broker.SendResult(old(State()), id).Sent?
      ensures failure == Some(UnknownInstance) <==> id !in old(inner)
      ensures failure.Some? ==> State() == old(State())
      ensures failure.None? ==> State() == Broker.Register(Broker.SendSection(old(State()), id, msg), msg.corr, id,
           kind)
    {
      if id !in inner {
        return Some(UnknownInstance);
      }
      Broker.RegisterUndone(State(), msg.corr, id, kind, msg);
      RegisterWaiter(id, msg.corr, kind);
      var outcome := TrySend(id, msg);
      if outcome.Sent? {
        failure := None;
      } else {
        TakeWaiter(msg.corr);
        failure := Some(if outcome.UnknownInstance? then UnknownInstance else QueueFull);
      }
    }

    method NextCorr() returns (corr: nat)
      modifies this`nextCorr
      ensures corr == old(nextCorr) && nextCorr == corr + 1
    {
      corr := nextCorr;
      nextCorr := nextCorr + 1;
    }
  }
}
