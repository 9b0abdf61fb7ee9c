/**
 The discrete-event engine of `simulator/src/sim/simulation.cpp` and the `run` loop of
 `simulator/include/nexuslab/sim/simulation.hpp`.

 The priority queue is a map from event ID to event whose `pop` removes the first event of
 the queue order. Cancelled events stay in the queue until they surface, as in the source.
 */
module Simulations {
  import opened Prelude
  import opened Events

  datatype Lifecycle = Created | Running | Finished
  datatype StopReason = Requested | LimitReached
  datatype Status = Completed | Stopped | Failed

  datatype SimulationResult = SimulationResult(
    status: Status,
    stopReason: Option<StopReason>,
    finalTime: nat,
    dispatchedEvents: nat,
    cancelledEvents: nat,
    pendingEvents: nat)

  /** What a handler may ask of the context while an event is dispatched. */
  datatype Command =
    | Schedule(timestamp: nat, priority: Priority, payload: Payload)
    | Cancel(id: nat)
    | Stop(reason: StopReason)
    | Fail

  /** One dispatch: the event and the events that were live when it was chosen. */
  datatype Dispatch = Dispatch(event: Event, live: map<nat, Event>)

  /** The engine's state together with the history of its run. */
  datatype Engine = Engine(
    now: nat,
    issued: nat,
    queue: map<nat, Event>,
    cancelled: set<nat>,
    everCancelled: set<nat>,
    dispatchedIds: set<nat>,
    log: seq<Dispatch>)
  {
    /** The events that can still be dispatched. */
    ghost function Live(): map<nat, Event> {
      queue - cancelled
    }
  }

  /** Clock order, each event first among those live when it was chosen, none twice. */
  ghost predicate ProperLog(log: seq<Dispatch>) {
    && (forall k :: 0 <= k < |log| ==> IsFirst(log[k].event.id, log[k].live))
    && (forall j, k :: 0 <= j < k < |log| ==> log[j].event.timestamp <= log[k].event.timestamp)
    && (forall j, k :: 0 <= j < k < |log| ==> log[j].event.id != log[k].event.id)
  }

  /** Every issued ID is dispatched, was cancelled, or is queued; only the last two overlap. */
  ghost predicate Accounted(e: Engine) {
    && (forall id :: id in e.queue ==> id < e.issued && id !in e.dispatchedIds)
    && (forall id :: id in e.everCancelled ==> id < e.issued && id !in e.dispatchedIds)
    && (forall id :: id in e.dispatchedIds ==> id < e.issued)
    && (forall id :: 0 <= id < e.issued ==> id in e.dispatchedIds || id in e.everCancelled || id in e.queue)
    && (forall id :: id in e.cancelled <==> (id in e.queue && id in e.everCancelled))
  }

  ghost predicate EngineOk(e: Engine) {
    && ProperLog(e.log)
    && |e.dispatchedIds| == |e.log|
    && (forall k :: 0 <= k < |e.log| ==>
          e.log[k].event.id in e.dispatchedIds && e.log[k].event.timestamp <= e.now)
    && (forall id :: id in e.queue ==> e.queue[id].id == id && e.now <= e.queue[id].timestamp)
    && Accounted(e)
  }

  ghost function Scheduled(e: Engine, event: Event): Engine {
    e.(queue := e.queue[event.id := event], issued := e.issued + 1)
  }

  lemma ScheduleKeeps(e: Engine, event: Event)
    requires EngineOk(e) && event.id == e.issued && e.now <= event.timestamp
    ensures EngineOk(Scheduled(e, event))
  {
    hide ProperLog;
  }

  /** Scheduling adds exactly one fresh live event. */
  lemma ScheduledLive(e: Engine, event: Event)
    requires EngineOk(e) && event.id == e.issued
    ensures event.id !in e.Live() && Scheduled(e, event).Live() == e.Live()[event.id := event]
  {
  }

  ghost function WithCancelled(e: Engine, id: nat): Engine {
    e.(cancelled := e.cancelled + {id}, everCancelled := e.everCancelled + {id})
  }

  /** A successful cancellation removes exactly that event from the live ones. */
  lemma CancelKeeps(e: Engine, id: nat)
    requires EngineOk(e) && id in e.queue && id !in e.cancelled
    ensures EngineOk(WithCancelled(e, id)) && id !in e.everCancelled
  {
    hide ProperLog;
  }

  lemma LiveIssued(e: Engine)
    requires EngineOk(e)
    ensures forall id :: id in e.Live() ==> id < e.issued && e.Live()[id].id == id && e.now <= e.Live()[id].timestamp
  {
    hide ProperLog;
  }

  lemma CancelledLive(e: Engine, id: nat)
    ensures WithCancelled(e, id).Live() == e.Live() - {id}
  {
  }

  /** `e` is `origin` after discarding cancelled entries that surfaced. */
  ghost predicate Skipped(origin: Engine, e: Engine) {
    && EngineOk(e)
    && e.Live() == origin.Live()
    && e == origin.(queue := e.queue, cancelled := e.cancelled)
  }

  lemma SkipNone(e: Engine)
    requires EngineOk(e)
    ensures Skipped(e, e)
  {
  }

  ghost function WithoutEntry(e: Engine, id: nat): Engine {
    e.(queue := e.queue - {id}, cancelled := e.cancelled - {id})
  }

  lemma WithoutEntryOk(e: Engine, id: nat)
    requires EngineOk(e) && id in e.cancelled
    ensures EngineOk(WithoutEntry(e, id))
  {
    hide ProperLog;
  }

  /** Discarding a cancelled entry when it surfaces changes nothing that can be observed. */
  lemma SkipKeeps(origin: Engine, e: Engine, id: nat)
    requires Skipped(origin, e) && id in e.cancelled
    ensures Skipped(origin, WithoutEntry(e, id))
  {
    WithoutEntryOk(e, id);
    hide EngineOk;
    assert WithoutEntry(e, id).Live() == e.Live();
  }

  lemma Shrinks(queue: map<nat, Event>, id: nat)
    requires id in queue
    ensures |queue - {id}| < |queue|
  {
    assert (queue - {id}).Keys == queue.Keys - {id};
  }

  /** `after` is `before` with its first live event dispatched. */
  ghost predicate DispatchedFirst(before: Engine, after: Engine, event: Event) {
    && EngineOk(after)
    && IsFirst(event.id, before.Live())
    && event == before.Live()[event.id]
    && after.Live() == before.Live() - {event.id}
    && before.now <= event.timestamp == after.now
    && after.issued == before.issued
    && after.everCancelled == before.everCancelled
    && after.log == before.log + [Dispatch(event, before.Live())]
  }

  ghost function Dispatched(e: Engine, id: nat): Engine
    requires id in e.queue
  {
    e.(now := e.queue[id].timestamp, queue := e.queue - {id}, dispatchedIds := e.dispatchedIds + {id},
       log := e.log + [Dispatch(e.queue[id], e.Live())])
  }

  lemma LogGrows(log: seq<Dispatch>, d: Dispatch)
    requires ProperLog(log) && IsFirst(d.event.id, d.live)
    requires forall k :: 0 <= k < |log| ==>
               log[k].event.id != d.event.id && log[k].event.timestamp <= d.event.timestamp
    ensures ProperLog(log + [d])
  {
  }

  lemma DispatchedOk(e: Engine, id: nat)
    requires EngineOk(e) && IsFirst(id, e.queue) && id !in e.cancelled
    ensures EngineOk(Dispatched(e, id))
  {
    LiveFirst(e, id);
    LogGrows(e.log, Dispatch(e.queue[id], e.Live()));
    hide ProperLog, IsFirst;
    assert id !in e.everCancelled && id !in e.dispatchedIds;
  }

  /** Dropping cancelled entries cannot change which live event comes first. */
  lemma LiveFirst(e: Engine, id: nat)
    requires EngineOk(e) && IsFirst(id, e.queue) && id !in e.cancelled
    ensures id in e.Live() && e.Live()[id] == e.queue[id] && IsFirst(id, e.Live())
    ensures e.queue[id].id == id && e.now <= e.queue[id].timestamp
    ensures forall k :: 0 <= k < |e.log| ==>
              e.log[k].event.id != id && e.log[k].event.timestamp <= e.queue[id].timestamp
  {
    hide ProperLog;
  }

  lemma DispatchKeeps(origin: Engine, e: Engine, id: nat)
    requires Skipped(origin, e) && IsFirst(id, e.queue) && id !in e.cancelled
    ensures DispatchedFirst(origin, Dispatched(e, id), e.queue[id])
  {
    DispatchedOk(e, id);
    LiveFirst(e, id);
    hide EngineOk, IsFirst;
    assert Dispatched(e, id).Live() == e.Live() - {id};
  }

  /** What popping until a live event surfaces comes to. */
  ghost predicate PoppedTo(before: Engine, after: Engine, next: Option<Event>) {
    if next.Some? then DispatchedFirst(before, after, next.value)
    else Skipped(before, after) && before.Live() == map[] == after.Live()
  }

  lemma Drained(origin: Engine, e: Engine)
    requires Skipped(origin, e) && e.queue == map[]
    ensures PoppedTo(origin, e, None) && EngineOk(e)
  {
  }

  ghost function Below(n: nat): (ids: set<nat>)
    ensures forall id :: id in ids <==> 0 <= id < n
    ensures |ids| == n
  {
    if n == 0 then {} else Below(n - 1) + {n - 1}
  }

  lemma SplitSize(whole: set<nat>, a: set<nat>, b: set<nat>)
    requires forall id :: id in whole <==> id in a || id in b
    requires forall id :: id in a ==> id !in b
    ensures |whole| == |a| + |b|
  {
    assert whole == a + b;
  }

  /** The three fates of an ID are counted by the three numbers of a result. */
  lemma LiveSize(e: Engine)
    requires EngineOk(e)
    ensures |e.Live()| == |e.queue| - |e.cancelled|
    ensures e.issued == |e.log| + |e.everCancelled| + |e.Live()|
  {
    hide ProperLog;
    SplitSize(e.queue.Keys, e.Live().Keys, e.cancelled);
    var undispatched := set id | id in Below(e.issued) && id !in e.dispatchedIds;
    SplitSize(Below(e.issued), e.dispatchedIds, undispatched);
    SplitSize(undispatched, e.everCancelled, e.Live().Keys);
  }

  class Simulation {
    var now: nat
    var nextEventId: nat
    var idsExhausted: bool
    var queue: map<nat, Event>
    var cancelledIds: set<nat>
    var currentEvent: Option<Event>
    var stopReason: Option<StopReason>
    var lifecycle: Lifecycle
    var dispatchedEvents: nat
    var cancelledEvents: nat
    ghost var everCancelled: set<nat>
    ghost var dispatchedIds: set<nat>
    ghost var log: seq<Dispatch>

    ghost function View(): Engine
      reads this
    {
      Engine(now, if idsExhausted then U64_MAX + 1 else nextEventId,
             queue, cancelledIds, everCancelled, dispatchedIds, log)
    }

    /** The events that can still be dispatched. */
    ghost function Live(): map<nat, Event>
      reads this
    {
      View().Live()
    }

    ghost predicate Valid()
      reads this
    {
      EngineOk(View()) && Counted()
    }

    /** The counters the result reports are those of the history. */
    ghost predicate Counted()
      reads this
    {
      nextEventId <= U64_MAX && dispatchedEvents == |log| && cancelledEvents == |everCancelled|
    }

    constructor ()
      ensures Valid() && Live() == map[] && now == 0 && lifecycle == Created
      ensures currentEvent == None && stopReason == None && log == []
    {
      now, nextEventId, idsExhausted := 0, 0, false;
      queue, cancelledIds := map[], {};
      currentEvent, stopReason, lifecycle := None, None, Created;
      dispatchedEvents, cancelledEvents := 0, 0;
      everCancelled, dispatchedIds, log := {}, {}, [];
    }

    /** The event being dispatched causes whatever is scheduled meanwhile. */
    function Cause(): Option<nat>
      reads this
    {
      if currentEvent.Some? then Some(currentEvent.value.id) else None
    }

    method Schedule(timestamp: nat, priority: Priority, payload: Payload) returns (r: Result<nat>)
      requires Valid()
      modifies this`nextEventId, this`idsExhausted, this`queue
      ensures Valid()
      ensures r.Throw? <==> (lifecycle == Finished || timestamp < now || old(idsExhausted))
      ensures r.Throw? && lifecycle != Finished ==> r.error == if timestamp < now then InvalidArgument
              else OverflowError
      ensures r.Throw? ==> View() == old(View())
      ensures r.Ok? ==> r.value == old(View()).issued
      ensures r.Ok? ==> View() == Scheduled(old(View()), Event(timestamp, priority, r.value, Cause(), payload))
    {
      hide EngineOk;
      if lifecycle == Finished {
        r := Throw(LogicError);
      } else if timestamp < now {
        r := Throw(InvalidArgument);
      } else if idsExhausted {
        r := Throw(OverflowError);
      } else {
        r := Ok(nextEventId);
        var event := Event(timestamp, priority, nextEventId, Cause(), payload);
        ScheduleKeeps(View(), event);
        queue := queue[nextEventId := event];
        if nextEventId == U64_MAX {
          idsExhausted := true;
        } else {
          nextEventId := nextEventId + 1;
        }
      }
    }

    method Cancel(id: nat) returns (done: bool)
      requires Valid()
      modifies this`cancelledIds, this`cancelledEvents, this`everCancelled
      ensures Valid()
      ensures done <==> lifecycle != Finished && id in old(queue) && id !in old(cancelledIds)
      ensures View() == if done then WithCancelled(old(View()), id) else old(View())
    {
      hide EngineOk;
      if lifecycle == Finished {
        return false;
      }
      if id !in queue {
        return false;
      }
      if id in cancelledIds {
        return false;
      }
      CancelKeeps(View(), id);
      cancelledIds := cancelledIds + {id};
      everCancelled := everCancelled + {id};
      cancelledEvents := cancelledEvents + 1;
      return true;
    }

    /** `SimulationContext::schedule` during a run: one fresh live event, unless IDs ran out. */
    method ContextSchedule(timestamp: nat, priority: Priority, payload: Payload) returns (r: Result<Event>)
      requires Valid() && lifecycle == Running && now <= timestamp
      modifies this`nextEventId, this`idsExhausted, this`queue
      ensures Valid()
      ensures r.Throw? ==> r.error == OverflowError && old(idsExhausted) && View() == old(View())
      ensures r.Ok? ==> r.value.timestamp == timestamp && r.value.payload == payload
      ensures r.Ok? ==> r.value.id == old(View()).issued && View().issued == r.value.id + 1
      ensures r.Ok? ==> r.value.id !in old(Live()) && Live() == old(Live())[r.value.id := r.value]
    {
      hide EngineOk;
      ghost var before := View();
      var scheduled := Schedule(timestamp, priority, payload);
      if scheduled.Throw? {
        return Throw(scheduled.error);
      }
      var event := Event(timestamp, priority, scheduled.value, Cause(), payload);
      ScheduledLive(before, event);
      return Ok(event);
    }

    /** `SimulationContext::cancel` of an event that is live. */
    method ContextCancel(id: nat) returns (done: bool)
      requires Valid() && lifecycle == Running
      modifies this`cancelledIds, this`cancelledEvents, this`everCancelled
      ensures Valid()
      ensures done <==> id in old(Live())
      ensures Live() == if done then old(Live()) - {id} else old(Live())
      ensures View().issued == old(View()).issued
    {
      hide EngineOk;
      ghost var before := View();
      done := Cancel(id);
      CancelledLive(before, id);
    }

    method RequestStop(reason: StopReason) returns (r: Result<()>)
      requires Valid()
      modifies this`stopReason
      ensures Valid()
      ensures r.Throw? <==> (lifecycle != Running || currentEvent == None)
      ensures stopReason == if r.Ok? && old(stopReason) == None then Some(reason) else old(stopReason)
    {
      if lifecycle != Running || currentEvent == None {
        return Throw(LogicError);
      }
      if stopReason == None {
        stopReason := Some(reason);
      }
      return Ok(());
    }

    /** Pops until an event that was not cancelled surfaces, and makes it the current one. */
    method DispatchNext() returns (next: Option<Event>)
      requires Valid()
      modifies this`now, this`queue, this`cancelledIds, this`currentEvent, this`dispatchedEvents, this`dispatchedIds,
               this`log
      ensures Valid()
      ensures PoppedTo(old(View()), View(), next)
      ensures currentEvent == if next.Some? then next else old(currentEvent)
    {
      hide EngineOk, Skipped, DispatchedFirst, PoppedTo, IsFirst;
      ghost var origin := View();
      SkipNone(origin);
      next := None;
      while queue != map[]
        invariant Skipped(origin, View()) && Counted() && currentEvent == old(currentEvent)
        decreases |queue|
      {
        SkippedValid(origin, View());
        ghost var first := FirstExists(queue);
        var id :| id in queue && IsFirst(id, queue);
        if id in cancelledIds {
          SkipKeeps(origin, View(), id);
          Shrinks(queue, id);
          queue := queue - {id};
          cancelledIds := cancelledIds - {id};
        } else {
          next := Begin(origin, id);
          return;
        }
      }
      Drained(origin, View());
    }

    /** Takes a live first event off the queue, advances the clock to it and counts it. */
    method Begin(ghost origin: Engine, id: nat) returns (next: Option<Event>)
      requires Skipped(origin, View()) && Counted()
      requires id in queue && IsFirst(id, queue) && id !in cancelledIds
      modifies this`now, this`queue, this`currentEvent, this`dispatchedEvents, this`dispatchedIds, this`log
      ensures Valid() && next.Some? && currentEvent == next && PoppedTo(origin, View(), next)
    {
      hide EngineOk, Skipped, DispatchedFirst, IsFirst;
      next := Some(queue[id]);
      DispatchKeeps(origin, View(), id);
      log := log + [Dispatch(queue[id], Live())];
      dispatchedIds := dispatchedIds + {id};
      now := queue[id].timestamp;
      queue := queue - {id};
      currentEvent := next;
      dispatchedEvents := dispatchedEvents + 1;
      DispatchedValid(origin, View(), next.value);
    }

    /** The commands one handler issues; the first throw ends the handler. */
    method Handle(commands: seq<Command>) returns (r: Result<()>)
      requires Valid()
      modifies this`nextEventId, this`idsExhausted, this`queue, this`cancelledIds, this`cancelledEvents,
               this`everCancelled, this`stopReason
      ensures Valid()
    {
      hide EngineOk;
      r := Ok(());
      for i := 0 to |commands|
        invariant Valid()
      {
        match commands[i] {
          case Schedule(timestamp, priority, payload) =>
            var scheduled := Schedule(timestamp, priority, payload);
            if scheduled.Throw? {
              return Throw(scheduled.error);
            }
          case Cancel(id) =>
            var _ := Cancel(id);
          case Stop(reason) =>
            r := RequestStop(reason);
            if r.Throw? {
              return;
            }
          case Fail =>
            return Throw(HandlerFailure);
        }
      }
    }

    /**
     Runs at most `fuel` dispatches with a handler whose k-th activation issues `script(k)`.
     Every adaptive handler's behaviour is some script, and every finite run has some fuel.
     */
    method Run(script: nat -> seq<Command>, fuel: nat) returns (r: Option<SimulationResult>)
      requires Valid() && lifecycle == Created && stopReason == None
      modifies this
      ensures Valid() && ProperHistory(View())
      ensures r == None ==> |log| == |old(log)| + fuel && lifecycle == Running
      ensures r.Some? ==> lifecycle == Finished && Reports(View(), stopReason, r.value)
    {
      hide EngineOk, PoppedTo, ProperHistory, Reports;
      lifecycle := Running;
      var steps := 0;
      while stopReason == None && steps < fuel
        invariant Valid() && lifecycle == Running
        invariant |log| == |old(log)| + steps && steps <= fuel
      {
        ghost var before := View();
        var next := DispatchNext();
        PoppedOnce(before, View(), next);
        if next == None {
          r := Finish(Completed);
          return;
        }
        var handled := Handle(script(dispatchedEvents));
        if handled.Throw? {
          r := Finish(Status.Failed);
          return;
        }
        currentEvent := None;
        steps := steps + 1;
      }
      if stopReason == None {
        HistoryOf(View());
        return None;
      }
      r := Finish(Stopped);
    }

    method Finish(status: Status) returns (r: Option<SimulationResult>)
      requires Valid()
      requires status == Completed ==> Live() == map[]
      requires status == Stopped ==> stopReason.Some?
      modifies this`lifecycle, this`currentEvent
      ensures Valid() && lifecycle == Finished && ProperHistory(View())
      ensures r.Some? && Reports(View(), stopReason, r.value) && r.value.status == status
    {
      hide EngineOk, ProperHistory;
      lifecycle, currentEvent := Finished, None;
      LiveSize(View());
      HistoryOf(View());
      return Some(SimulationResult(status, stopReason, now, dispatchedEvents, cancelledEvents,
                                   |queue| - |cancelledIds|));
    }
  }

  /** Live events carry IDs that have been issued. */
  lemma LiveKnown(sim: Simulation)
    requires sim.Valid()
    ensures forall id :: id in sim.Live() ==> id < sim.View().issued
  {
    hide EngineOk;
    LiveIssued(sim.View());
  }

  /** The order a log shows, and that nothing cancelled was ever dispatched. */
  ghost predicate ProperHistory(e: Engine) {
    ProperLog(e.log) && forall k :: 0 <= k < |e.log| ==> e.log[k].event.id !in e.everCancelled
  }

  /** What a result says about the run it ends. */
  ghost predicate Reports(e: Engine, stopReason: Option<StopReason>, r: SimulationResult) {
    && r.finalTime == e.now
    && r.stopReason == stopReason
    && r.dispatchedEvents == |e.log|
    && r.cancelledEvents == |e.everCancelled|
    && r.pendingEvents == |e.Live()|
    && e.issued == r.dispatchedEvents + r.cancelledEvents + r.pendingEvents
    && (r.status == Completed ==> e.Live() == map[])
    && (r.status == Stopped ==> stopReason.Some?)
  }

  lemma ReportsNow(e: Engine, stopReason: Option<StopReason>, r: SimulationResult)
    requires Reports(e, stopReason, r)
    ensures r.finalTime == e.now
  {
  }

  lemma PoppedOnce(before: Engine, after: Engine, next: Option<Event>)
    requires PoppedTo(before, after, next)
    ensures |after.log| == |before.log| + (if next.Some? then 1 else 0)
    ensures next == None ==> after.Live() == map[]
  {
  }

  lemma SkippedValid(origin: Engine, e: Engine)
    requires Skipped(origin, e)
    ensures EngineOk(e) && forall i :: i in e.queue ==> e.queue[i].id == i
  {
  }

  lemma DispatchedValid(before: Engine, after: Engine, event: Event)
    requires DispatchedFirst(before, after, event)
    ensures EngineOk(after) && PoppedTo(before, after, Some(event))
  {
  }

  /** In every state of every run the history is proper. */
  lemma HistoryOf(e: Engine)
    requires EngineOk(e)
    ensures ProperHistory(e)
  {
  }
}
