/** What masks and excludes select, said in payloads and their field names. */
module Masks {
  import opened Messages
  import opened InboundQueues
  import opened Broker

  /** The payload is the one that field masks call `name`. */
  predicate Named(payload: Payload, name: string) {
    match payload
    case Register(_) => name == "register"
    case Beat(_) => name == "heartbeat"
    case Snapshot => name == "snapshot"
    case SnapshotError(_) => name == "snapshot_error"
    case Log(_, _) => name == "log"
    case InputAck(_, _) => name == "input_ack"
    case InputObserved => name == "input_observed"
    case Goodbye => name == "goodbye"
    case UiResult(_, _, _) => name == "ui_result"
    case Absent => false
  }

  predicate Lists(mask: seq<string>, msg: SimToServer) {
    exists i :: 0 <= i < |mask| && Named(msg.payload, mask[i])
  }

  predicate Drops(components: seq<string>, msg: SimToServer) {
    msg.payload.Log? && exists i :: 0 <= i < |components| && components[i] == msg.payload.component
  }

  lemma VisibleIffListed(mask: seq<string>, msg: SimToServer)
    ensures Visible(mask, msg) <==> |mask| == 0 || Lists(mask, msg)
  {
    if Visible(mask, msg) && |mask| > 0 {
      var i :| 0 <= i < |mask| && mask[i] == PayloadName(msg).value;
      assert Named(msg.payload, mask[i]);
    }
  }

  /** An inbound push queues a message exactly if the mask is empty or lists it and its component is not excluded. */
  lemma ReceivedIffSelected(inst: Instance, msg: SimToServer)
    ensures Received(inst, msg)
         == if (|inst.readMask| == 0 || Lists(inst.readMask, msg)) && !Drops(inst.excluded, msg)
            then inst.(inbound := Pushed(inst.inbound, inst.inboundCap, msg))
            else inst
  {
    VisibleIffListed(inst.readMask, msg);
  }

  /** No two payloads share a name. */
  lemma NamesAreDistinct(x: Payload, y: Payload, name: string)
    requires Named(x, name) && Named(y, name)
    ensures && (x.Register? <==> y.Register?) && (x.Beat? <==> y.Beat?) && (x.Snapshot? <==> y.Snapshot?)
            && (x.SnapshotError? <==> y.SnapshotError?) && (x.Log? <==> y.Log?) && (x.InputAck? <==> y.InputAck?)
            && (x.InputObserved? <==> y.InputObserved?) && (x.Goodbye? <==> y.Goodbye?)
            && (x.UiResult? <==> y.UiResult?)
  {
    assert |name| > 0;
    if name[0] == 'i' {
      assert |"input_ack"| != |"input_observed"|;
    } else if name[0] == 's' {
      assert |"snapshot"| != |"snapshot_error"|;
    }
  }
}
