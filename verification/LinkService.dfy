/**
 The serializer around a link's queue: `simulator/src/transport/link_service.cpp`.

 `DirectedLinkService` works in place on a `DirectedLinkQueue`; each method is proved to do to the
 link what the function of module Links that specifies it does.
 */
module LinkServices {
  import opened Prelude
  import opened Events
  import opened Links
  import opened Simulations

  /** The dispatched completion is the one this link waits for, of its active chunk. */
  predicate Awaits(l: Link, event: nat, p: Payload) {
    && l.completion == Some(event) && l.queue.active.Some?
    && p == TransmissionComplete(l.config.arc, l.queue.active.value.id, l.queue.active.value.hop)
  }

  class DirectedLinkService {
    const queue: DirectedLinkQueue
    var completion: Option<nat>
    var busySince: Option<nat>
    var statistics: LinkStatistics

    function View(): Link
      reads this, queue
    {
      Link(queue.config, queue.View(), completion, busySince, statistics)
    }

    ghost predicate Valid()
      reads this, queue
    {
      LinkOk(View())
    }

    constructor (l: Link)
      requires LinkOk(l)
      ensures Valid() && View() == l && fresh(queue)
    {
      queue := new DirectedLinkQueue.Holding(l.config, l.queue);
      completion, busySince, statistics := l.completion, l.busySince, l.statistics;
    }

    /** `statistics`: the counters, with the service that is under way accounted up to `now`. */
    method Statistics(now: nat) returns (r: Result<LinkStatistics>)
      ensures r.Throw? <==> busySince.Some? && now < busySince.value
      ensures r.Throw? ==> r.error == InvalidArgument
      ensures r.Ok? ==> r.value == statistics.(busyTime := BusyTime(View(), now))
    {
      if busySince == None {
        return Ok(statistics);
      }
      if now < busySince.value {
        return Throw(InvalidArgument);
      }
      return Ok(statistics.(busyTime := statistics.busyTime + (now - busySince.value)));
    }

    /**
     `admit`: the counters are settled from the service's own reading of the queue before the queue
     decides, and both come to the same decision.
     */
    method Admit(ctx: Simulation, chunk: TransferChunk, ghost dispatched: nat)
      returns (r: Result<Admission>, ghost event: Event)
      requires Valid() && ctx.Valid() && ctx.lifecycle == Running && dispatched < ctx.View().issued
      modifies this, queue, ctx`nextEventId, ctx`idsExhausted, ctx`queue
      ensures Valid() && ctx.Valid()
      ensures r.Throw? ==> View() == old(View()) && ctx.Live() == old(ctx.Live())
      ensures r.Throw? ==> r.error == if chunk.bytes == 0 then InvalidArgument else OverflowError
      ensures r.Ok? ==>
                && chunk.bytes > 0 && CompletionTime(queue.config, chunk.bytes, ctx.now).Some?
                && r.value == Decide(queue.config, old(queue.View()), chunk.bytes)
                && View() == Admitted(old(View()), chunk, ctx.now, event.id)
                && event.payload == TransmissionComplete(queue.config.arc, chunk.id, chunk.hop)
                && event.id !in old(ctx.Live()) && event.id != dispatched
                && ctx.Live() == (if old(queue.active) == None then old(ctx.Live())[event.id := event]
                                  else old(ctx.Live()))
    {
      hide EngineOk, QueueOk;
      var config := queue.config;
      ghost var before := View();
      var payload := TransmissionComplete(config.arc, chunk.id, chunk.hop);
      event := Event(0, Control, ctx.View().issued + dispatched + 1, None, payload);
      LiveIssued(ctx.View());
      if chunk.bytes == 0 {
        r := Throw(InvalidArgument);
        return;
      }
      var time := CompletionTime(config, chunk.bytes, ctx.now);
      if time == None {
        r := Throw(OverflowError);
        return;
      }
      CapacityHolds(config, queue.View());
      var next := statistics;
      var idle := queue.active == None;
      if !idle && chunk.bytes > config.capacity - queue.waitingBytes {
        next := next.(droppedBufferFull := next.droppedBufferFull.Plus(One(chunk)));
      } else {
        next := next.(enqueued := next.enqueued.Plus(One(chunk)));
        if idle {
          next := next.(started := next.started.Plus(One(chunk)));
        } else if config.threshold.Some? && queue.waitingBytes + chunk.bytes >= config.threshold.value {
          next := next.(marked := next.marked.Plus(One(chunk)));
        }
      }
      assert next == AdmitStatistics(before, chunk);
      var scheduled := None;
      if idle {
        var issued := ctx.ContextSchedule(time.value, Control, payload);
        if issued.Throw? {
          r := Throw(OverflowError);
          return;
        }
        event := issued.value;
        scheduled := Some(issued.value.id);
      }
      r := queue.Admit(chunk);
      statistics := next;
      if idle {
        completion, busySince := scheduled, Some(ctx.now);
      }
      AdmittedOk(before, chunk, ctx.now, event.id);
    }

    /** `handle_completion`: the head leaves and the next waiting chunk, if any, starts service. */
    method HandleCompletion(ctx: Simulation, dispatched: nat, p: Payload)
      returns (r: Result<()>, ghost next: Event)
      requires Valid() && ctx.Valid() && ctx.lifecycle == Running && dispatched < ctx.View().issued
      requires busySince.Some? ==> busySince.value <= ctx.now
      modifies this, queue, ctx`nextEventId, ctx`idsExhausted, ctx`queue
      ensures Valid() && ctx.Valid()
      ensures r.Throw? && r.error == LogicError <==> !Awaits(old(View()), dispatched, p)
      ensures r.Throw? ==> r.error in {LogicError, OverflowError} && View() == old(View())
      ensures r.Ok? ==>
                && (old(queue.waiting) != [] ==> old(queue.waiting)[0].bytes <= old(queue.waitingBytes))
                && View() == Served(old(View()), ctx.now, Following(old(View()), next.id))
                && next.id !in old(ctx.Live()) && next.id != dispatched && next.id < ctx.View().issued + 1
                && dispatched < old(ctx.View()).issued <= ctx.View().issued
                && (if old(queue.waiting) == [] then ctx.Live() == old(ctx.Live()) && next.id == ctx.View().issued
                    else
                      var waiting := old(queue.waiting)[0];
                      && next.payload == TransmissionComplete(queue.config.arc, waiting.id, waiting.hop)
                      && ctx.Live() == old(ctx.Live())[next.id := next] && next.id < ctx.View().issued)
    {
      hide EngineOk, QueueOk, CompletionTime;
      ghost var before := View();
      next := Event(0, Control, ctx.View().issued, None, NoOp(0));
      LiveIssued(ctx.View());
      if !Awaits(View(), dispatched, p) {
        r := Throw(LogicError);
        return;
      }
      var current := Statistics(ctx.now);
      var settled := current.value.(completed := current.value.completed.Plus(One(queue.active.value)));
      var scheduled: Option<nat> := None;
      if queue.waiting != [] {
        var waiting := queue.waiting[0];
        settled := settled.(started := settled.started.Plus(One(waiting)));
        var time := CompletionTime(queue.config, waiting.bytes, ctx.now);
        if time == None {
          r := Throw(OverflowError);
          return;
        }
        var issued := ctx.ContextSchedule(
          time.value, Control, TransmissionComplete(queue.config.arc, waiting.id, waiting.hop));
        if issued.Throw? {
          r := Throw(OverflowError);
          return;
        }
        next := issued.value;
        scheduled := Some(issued.value.id);
      }
      ServedOk(before, ctx.now, scheduled);
      var completed, started := queue.CompleteService();
      assert completed.Some?;
      statistics, completion := settled, scheduled;
      busySince := if scheduled.Some? then Some(ctx.now) else None;
      assert View() == Served(before, ctx.now, scheduled);
      r := Ok(());
    }

    /** `record_link_down`. */
    method RecordLinkDown(chunk: TransferChunk)
      requires Valid()
      modifies this
      ensures Valid() && View() == Refused(old(View()), chunk)
    {
      statistics := statistics.(droppedLinkDown := statistics.droppedLinkDown.Plus(One(chunk)));
    }

    /** `reconcile_down`: the pending completion is cancelled and everything on the link drained. */
    method ReconcileDown(ctx: Simulation) returns (r: Result<seq<TransferChunk>>)
      requires Valid() && ctx.Valid() && ctx.lifecycle == Running
      requires busySince.Some? ==> busySince.value <= ctx.now
      modifies this, queue, ctx`cancelledIds, ctx`cancelledEvents, ctx`everCancelled
      ensures Valid() && ctx.Valid() && ctx.View().issued == old(ctx.View()).issued
      ensures r.Throw? <==> old(completion).Some? && old(completion).value !in old(ctx.Live())
      ensures r.Throw? ==> r.error == LogicError && View() == old(View())
      ensures r.Ok? ==> View() == Downed(old(View()), ctx.now) && r.value == old(View()).Contents()
      ensures r.Ok? ==> ctx.Live() == if old(completion).Some? then old(ctx.Live()) - {old(completion).value}
                                      else old(ctx.Live())
    {
      hide EngineOk, QueueOk;
      ghost var before := View();
      DownedOk(before, ctx.now);
      var current := Statistics(ctx.now);
      var dropped := Traffic(queue.waitingBytes, |queue.waiting|);
      if queue.active.Some? {
        dropped := dropped.Plus(One(queue.active.value));
      }
      var next := current.value.(droppedLinkDown := current.value.droppedLinkDown.Plus(dropped));
      if completion.Some? {
        var cancelled := ctx.ContextCancel(completion.value);
        if !cancelled {
          return Throw(LogicError);
        }
      }
      var active, waiting := queue.Drain();
      completion, busySince, statistics := None, None, next;
      assert View() == Downed(before, ctx.now);
      return Ok(if active.Some? then [active.value] + waiting else waiting);
    }
  }
}
