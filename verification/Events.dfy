/** Topology identifiers and the event vocabulary shared by every runtime. */
module Events {
  import opened Prelude

  datatype NodeId = Gpu(id: nat) | Nic(id: nat) | Switch(id: nat)
  datatype OperationalState = Up | Down
  datatype LinkDirection = AToB | BToA
  datatype DirectedLinkId = DirectedLinkId(link: nat, direction: LinkDirection)

  datatype Phase = ReduceScatter | AllGather | Succeeded | Failed | Cancelled
  datatype WorkloadKind = Arrival | ComputeReady | CancelJob | WorkerFailure | GpuDown | GpuUp

  datatype Payload =
    | NoOp(token: nat)
    | ChunkArrival(chunk: nat, hop: nat)
    | TransmissionComplete(arc: DirectedLinkId, chunk: nat, hop: nat)
    | LinkStateChange(link: nat, state: OperationalState)
    | PortStateChange(port: nat, state: OperationalState)
    | SwitchStateChange(switch: nat, state: OperationalState)
    | Workload(job: nat, kind: WorkloadKind, worker: nat, step: nat, bucket: nat)
    | LocalCompletion(collective: nat, round: nat, rank: nat, phase: Phase)

  /** State changes of the topology, which no runtime schedules by itself. */
  predicate IsStateChange(p: Payload) {
    p.LinkStateChange? || p.PortStateChange? || p.SwitchStateChange?
  }

  datatype Priority = Critical | Control | Normal | Background {
    function Rank(): nat {
      match this
      case Critical => 0
      case Control => 64
      case Normal => 128
      case Background => 192
    }
  }

  datatype Event = Event(timestamp: nat, priority: Priority, id: nat, cause: Option<nat>, payload: Payload)

  /** The queue's order: earlier time, then more urgent priority, then smaller ID. */
  predicate Before(left: Event, right: Event) {
    if left.timestamp != right.timestamp then left.timestamp < right.timestamp
    else if left.priority != right.priority then left.priority.Rank() < right.priority.Rank()
    else left.id < right.id
  }

  /** `id` is the first of `events`; the queue holds every event under its own ID. */
  predicate IsFirst(id: nat, events: map<nat, Event>) {
    && id in events
    && forall other :: other in events && other != id ==> Before(events[id], events[other])
  }

  /** Every nonempty queue has a first event, so `pop` always has one to return. */
  lemma {:induction false} FirstExists(events: map<nat, Event>) returns (id: nat)
    requires events != map[]
    requires forall i :: i in events ==> events[i].id == i
    ensures IsFirst(id, events)
    decreases |events|
  {
    assert events.Keys != {};
    id :| id in events;
    var rest := events - {id};
    if rest == map[] {
      assert forall other :: other in events && other != id ==> other in rest;
    } else {
      assert rest.Keys == events.Keys - {id};
      var best := FirstExists(rest);
      assert forall other :: other in events && other != id ==> other in rest;
      if Before(events[best], events[id]) {
        id := best;
      } else {
        assert Before(events[id], events[best]);
      }
    }
  }
}
