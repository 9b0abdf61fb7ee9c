/**
 One direction of a fabric link: the finite FIFO of `simulator/src/transport/link_queue.cpp`
 and the serializer around it of `simulator/src/transport/link_service.cpp`.

 The value functions specify the operations; the classes perform them in place. Link counters
 are unbounded naturals here.
 */
module Links {
  import opened Prelude
  import opened Events
  import Timing

  datatype TransferChunk = TransferChunk(transfer: nat, id: nat, bytes: nat, hop: nat, marked: bool)

  datatype LinkConfiguration = LinkConfiguration(
    arc: DirectedLinkId, bandwidth: nat, propagation: nat, capacity: nat, threshold: Option<nat>)

  datatype Traffic = Traffic(bytes: nat, chunks: nat) {
    function Plus(other: Traffic): Traffic {
      Traffic(bytes + other.bytes, chunks + other.chunks)
    }
  }

  function One(chunk: TransferChunk): Traffic {
    Traffic(chunk.bytes, 1)
  }

  ghost function Bytes(chunks: seq<TransferChunk>): nat {
    if |chunks| == 0 then 0 else Bytes(chunks[..|chunks| - 1]) + chunks[|chunks| - 1].bytes
  }

  ghost function Tally(chunks: seq<TransferChunk>): Traffic {
    Traffic(Bytes(chunks), |chunks|)
  }

  datatype LinkStatistics = LinkStatistics(
    enqueued: Traffic, started: Traffic, completed: Traffic, marked: Traffic,
    droppedBufferFull: Traffic, droppedLinkDown: Traffic, busyTime: nat)

  datatype Disposition = ServiceStarted | Queued | DroppedBufferFull
  datatype Admission = Admission(disposition: Disposition, markedHere: bool)

  datatype Queue = Queue(
    active: Option<TransferChunk>, waiting: seq<TransferChunk>,
    waitingBytes: nat, maximumBytes: nat, maximumChunks: nat)
  {
    /** The chunks in service order: the active one, then the waiting ones. */
    function Contents(): seq<TransferChunk> {
      if active.Some? then [active.value] + waiting else waiting
    }
  }

  datatype Link = Link(
    config: LinkConfiguration, queue: Queue, completion: Option<nat>, busySince: Option<nat>,
    statistics: LinkStatistics)
  {
    function Contents(): seq<TransferChunk> {
      queue.Contents()
    }
  }

  function Max(a: nat, b: nat): nat {
    if a < b then b else a
  }

  // The queue

  ghost predicate QueueOk(config: LinkConfiguration, q: Queue) {
    && q.waitingBytes == Tally(q.waiting).bytes
    && q.waitingBytes <= config.capacity
    && q.waitingBytes <= q.maximumBytes <= config.capacity
    && |q.waiting| <= q.maximumChunks
    && (q.active == None ==> q.waiting == [])
    && (forall i :: 0 <= i < |q.waiting| ==> q.waiting[i].bytes > 0)
    && (q.active.Some? ==> q.active.value.bytes > 0)
  }

  /** What is admitted, and how: served at once, queued while it fits, or dropped. */
  function Decide(config: LinkConfiguration, q: Queue, bytes: nat): Admission {
    if q.active == None then Admission(ServiceStarted, false)
    else if q.waitingBytes + bytes > config.capacity then Admission(DroppedBufferFull, false)
    else Admission(Queued, config.threshold.Some? && q.waitingBytes + bytes >= config.threshold.value)
  }

  /** The chunk as the queue stores it. */
  function Stored(chunk: TransferChunk, admission: Admission): TransferChunk {
    chunk.(marked := chunk.marked || admission.markedHere)
  }

  function Enqueue(config: LinkConfiguration, q: Queue, chunk: TransferChunk): Queue {
    var admission := Decide(config, q, chunk.bytes);
    match admission.disposition
    case ServiceStarted => q.(active := Some(chunk))
    case DroppedBufferFull => q
    case Queued =>
      var bytes := q.waitingBytes + chunk.bytes;
      q.(waiting := q.waiting + [Stored(chunk, admission)], waitingBytes := bytes,
         maximumBytes := Max(q.maximumBytes, bytes), maximumChunks := Max(q.maximumChunks, |q.waiting| + 1))
  }

  function Advance(q: Queue): Queue
    requires q.active.Some?
    requires q.waiting != [] ==> q.waiting[0].bytes <= q.waitingBytes
  {
    if q.waiting == [] then q.(active := None)
    else q.(active := Some(q.waiting[0]), waiting := q.waiting[1..],
            waitingBytes := q.waitingBytes - q.waiting[0].bytes)
  }

  function Emptied(q: Queue): Queue {
    q.(active := None, waiting := [], waitingBytes := 0)
  }

  lemma TallyLast(chunks: seq<TransferChunk>, chunk: TransferChunk)
    ensures Tally(chunks + [chunk]) == Tally(chunks).Plus(One(chunk))
  {
    assert (chunks + [chunk])[..|chunks|] == chunks;
  }

  lemma {:induction false} BytesAppend(a: seq<TransferChunk>, b: seq<TransferChunk>)
    ensures Bytes(a + b) == Bytes(a) + Bytes(b)
  {
    if |b| == 0 {
      assert a + b == a;
    } else {
      BytesAppend(a, b[..|b| - 1]);
      assert (a + b)[..|a + b| - 1] == a + b[..|b| - 1];
    }
  }

  lemma TallyFirst(chunks: seq<TransferChunk>)
    requires chunks != []
    ensures Tally(chunks) == One(chunks[0]).Plus(Tally(chunks[1..]))
  {
    BytesAppend(chunks[..1], chunks[1..]);
    assert chunks == chunks[..1] + chunks[1..];
    assert chunks[..1][..0] == [];
  }

  /** Admission appends to the service order, or changes nothing. */
  lemma EnqueueOk(config: LinkConfiguration, q: Queue, chunk: TransferChunk)
    requires QueueOk(config, q) && chunk.bytes > 0
    ensures QueueOk(config, Enqueue(config, q, chunk))
    ensures var admission := Decide(config, q, chunk.bytes);
            Enqueue(config, q, chunk).Contents() ==
            if admission.disposition == DroppedBufferFull then q.Contents()
            else q.Contents() + [Stored(chunk, admission)]
  {
    TallyLast(q.waiting, Stored(chunk, Decide(config, q, chunk.bytes)));
  }

  /** Completion removes exactly the head of the service order. */
  lemma AdvanceOk(config: LinkConfiguration, q: Queue)
    requires QueueOk(config, q) && q.active.Some?
    ensures q.waiting != [] ==> q.waiting[0].bytes <= q.waitingBytes
    ensures QueueOk(config, Advance(q))
    ensures [q.active.value] + Advance(q).Contents() == q.Contents()
  {
    if q.waiting != [] {
      TallyFirst(q.waiting);
    }
  }

  lemma EmptiedOk(config: LinkConfiguration, q: Queue)
    requires QueueOk(config, q)
    ensures QueueOk(config, Emptied(q)) && Emptied(q).Contents() == []
  {
  }

  class DirectedLinkQueue {
    const config: LinkConfiguration
    var active: Option<TransferChunk>
    var waiting: seq<TransferChunk>
    var waitingBytes: nat
    var maximumBytes: nat
    var maximumChunks: nat

    function View(): Queue
      reads this
    {
      Queue(active, waiting, waitingBytes, maximumBytes, maximumChunks)
    }

    ghost predicate Valid()
      reads this
    {
      QueueOk(config, View())
    }

    constructor (configuration: LinkConfiguration)
      ensures Valid() && config == configuration && View() == Queue(None, [], 0, 0, 0)
    {
      config := configuration;
      active, waiting := None, [];
      waitingBytes, maximumBytes, maximumChunks := 0, 0, 0;
    }

    /** A queue that is in the middle of its run. */
    constructor Holding(configuration: LinkConfiguration, q: Queue)
      requires QueueOk(configuration, q)
      ensures Valid() && config == configuration && View() == q
    {
      config := configuration;
      active, waiting := q.active, q.waiting;
      waitingBytes, maximumBytes, maximumChunks := q.waitingBytes, q.maximumBytes, q.maximumChunks;
    }

    method Admit(chunk: TransferChunk) returns (r: Result<Admission>)
      requires Valid()
      modifies this
      ensures Valid()
      ensures chunk.bytes == 0 ==> r.Throw? && View() == old(View())
      ensures chunk.bytes > 0 ==> r == Ok(Decide(config, old(View()), chunk.bytes))
                                  && View() == Enqueue(config, old(View()), chunk)
    {
      hide QueueOk;
      if chunk.bytes == 0 {
        return Throw(InvalidArgument);
      }
      EnqueueOk(config, View(), chunk);
      if active == None {
        active := Some(chunk);
        return Ok(Admission(ServiceStarted, false));
      }
      CapacityHolds(config, View());
      if chunk.bytes > config.capacity - waitingBytes {
        return Ok(Admission(DroppedBufferFull, false));
      }
      var admittedBytes := waitingBytes + chunk.bytes;
      var markedHere := config.threshold.Some? && admittedBytes >= config.threshold.value;
      waiting := waiting + [chunk.(marked := chunk.marked || markedHere)];
      waitingBytes := admittedBytes;
      maximumBytes := Max(maximumBytes, waitingBytes);
      maximumChunks := Max(maximumChunks, |waiting|);
      return Ok(Admission(Queued, markedHere));
    }

    method CompleteService() returns (completed: Option<TransferChunk>, started: Option<TransferChunk>)
      requires Valid()
      modifies this
      ensures Valid()
      ensures completed == old(active)
      ensures old(active) == None ==> View() == old(View()) && started == None
      ensures old(active).Some? ==>
                && (old(waiting) != [] ==> old(waiting)[0].bytes <= old(waitingBytes))
                && View() == Advance(old(View())) && started == active
    {
      hide QueueOk;
      completed, started := active, None;
      if active.Some? {
        AdvanceOk(config, View());
        active := None;
        if waiting != [] {
          started := Some(waiting[0]);
          waitingBytes := waitingBytes - waiting[0].bytes;
          waiting := waiting[1..];
          active := started;
        }
      }
    }

    method Drain() returns (drainedActive: Option<TransferChunk>, drainedWaiting: seq<TransferChunk>)
      requires Valid()
      modifies this
      ensures Valid() && View() == Emptied(old(View()))
      ensures Queue(drainedActive, drainedWaiting, 0, 0, 0).Contents() == old(View()).Contents()
    {
      hide QueueOk;
      EmptiedOk(config, View());
      drainedActive, drainedWaiting := active, [];
      ghost var all := waiting;
      while waiting != []
        invariant drainedWaiting + waiting == all
        invariant View() == old(View()).(waiting := waiting)
        decreases |waiting|
      {
        drainedWaiting := drainedWaiting + [waiting[0]];
        waiting := waiting[1..];
      }
      active, waitingBytes := None, 0;
    }
  }

  lemma CapacityHolds(config: LinkConfiguration, q: Queue)
    requires QueueOk(config, q)
    ensures q.waitingBytes <= config.capacity
  {
  }

  // The service

  /** A link is busy exactly while a completion is scheduled for its active chunk. */
  ghost predicate LinkOk(l: Link) {
    && QueueOk(l.config, l.queue)
    && (l.queue.active.Some? <==> l.completion.Some?)
    && (l.queue.active.Some? <==> l.busySince.Some?)
  }

  /** When a chunk handed to the serializer now will be serialized, if that is representable. */
  function CompletionTime(config: LinkConfiguration, bytes: nat, now: nat): (r: Option<nat>)
    ensures r.Some? ==> now < r.value && r.value + config.propagation <= U64_MAX
  {
    var delay := Timing.Delay(bytes, config.bandwidth);
    if delay == None || now + delay.value + config.propagation > U64_MAX then None
    else Some(now + delay.value)
  }

  function AdmitStatistics(l: Link, chunk: TransferChunk): LinkStatistics {
    var s, count := l.statistics, One(chunk);
    var admission := Decide(l.config, l.queue, chunk.bytes);
    match admission.disposition
    case DroppedBufferFull => s.(droppedBufferFull := s.droppedBufferFull.Plus(count))
    case ServiceStarted => s.(enqueued := s.enqueued.Plus(count), started := s.started.Plus(count))
    case Queued =>
      var queued := s.(enqueued := s.enqueued.Plus(count));
      if admission.markedHere then queued.(marked := s.marked.Plus(count)) else queued
  }

  /** Admission at `now`; `event` is the completion scheduled if service starts at once. */
  function Admitted(l: Link, chunk: TransferChunk, now: nat, event: nat): Link {
    var busy := l.(queue := Enqueue(l.config, l.queue, chunk), statistics := AdmitStatistics(l, chunk));
    if l.queue.active == None then busy.(completion := Some(event), busySince := Some(now)) else busy
  }

  /** Serializer busy time up to `now`. */
  function BusyTime(l: Link, now: nat): nat
    requires l.busySince.Some? ==> l.busySince.value <= now
  {
    l.statistics.busyTime + (if l.busySince.Some? then now - l.busySince.value else 0)
  }

  /** Service of the active chunk ends at `now`; `next` is the completion of the one that follows. */
  function Served(l: Link, now: nat, next: Option<nat>): Link
    requires l.queue.active.Some? && (l.queue.waiting != [] ==> l.queue.waiting[0].bytes <= l.queue.waitingBytes)
    requires l.busySince.Some? ==> l.busySince.value <= now
  {
    var s := l.statistics;
    var done := s.(busyTime := BusyTime(l, now), completed := s.completed.Plus(One(l.queue.active.value)),
                   started := if l.queue.waiting == [] then s.started else s.started.Plus(One(l.queue.waiting[0])));
    l.(queue := Advance(l.queue), statistics := done, completion := next,
       busySince := if next.Some? then Some(now) else None)
  }

  /** The link goes down at `now`: everything on it is lost and the serializer stops. */
  function Downed(l: Link, now: nat): Link
    requires l.busySince.Some? ==> l.busySince.value <= now
  {
    var s, q := l.statistics, l.queue;
    var waiting := Traffic(q.waitingBytes, |q.waiting|);
    var lost := if q.active.Some? then waiting.Plus(One(q.active.value)) else waiting;
    l.(queue := Emptied(q), completion := None, busySince := None,
       statistics := s.(busyTime := BusyTime(l, now), droppedLinkDown := s.droppedLinkDown.Plus(lost)))
  }

  /** A chunk that arrived at a link that is not operational. */
  function Refused(l: Link, chunk: TransferChunk): Link {
    l.(statistics := l.statistics.(droppedLinkDown := l.statistics.droppedLinkDown.Plus(One(chunk))))
  }

  function Idle(config: LinkConfiguration): Link {
    Link(config, Queue(None, [], 0, 0, 0), None, None,
         LinkStatistics(Traffic(0, 0), Traffic(0, 0), Traffic(0, 0), Traffic(0, 0), Traffic(0, 0), Traffic(0, 0), 0))
  }

  lemma AdmittedOk(l: Link, chunk: TransferChunk, now: nat, event: nat)
    requires LinkOk(l) && chunk.bytes > 0
    ensures LinkOk(Admitted(l, chunk, now, event))
    ensures var admission := Decide(l.config, l.queue, chunk.bytes);
            Admitted(l, chunk, now, event).Contents() ==
            if admission.disposition == DroppedBufferFull then l.Contents()
            else l.Contents() + [Stored(chunk, admission)]
  {
    EnqueueOk(l.config, l.queue, chunk);
    hide QueueOk;
  }

  /** A dropped chunk leaves nothing but a count. */
  lemma AdmittedDropped(l: Link, chunk: TransferChunk, now: nat, event: nat)
    requires Decide(l.config, l.queue, chunk.bytes).disposition == DroppedBufferFull
    ensures Admitted(l, chunk, now, event) == l.(statistics := AdmitStatistics(l, chunk))
  {
  }

  lemma ServedOk(l: Link, now: nat, next: Option<nat>)
    requires LinkOk(l) && l.queue.active.Some? && l.busySince.value <= now
    requires next.Some? <==> l.queue.waiting != []
    ensures l.queue.waiting != [] ==> l.queue.waiting[0].bytes <= l.queue.waitingBytes
    ensures LinkOk(Served(l, now, next))
    ensures [l.queue.active.value] + Served(l, now, next).Contents() == l.Contents()
  {
    AdvanceOk(l.config, l.queue);
    hide QueueOk;
  }

  lemma DownedOk(l: Link, now: nat)
    requires LinkOk(l) && (l.busySince.Some? ==> l.busySince.value <= now)
    ensures LinkOk(Downed(l, now)) && Downed(l, now).Contents() == []
    ensures Traffic(l.queue.waitingBytes, |l.queue.waiting|).Plus(
              if l.queue.active.Some? then One(l.queue.active.value) else Traffic(0, 0)) == Tally(l.Contents())
  {
    hide Bytes;
    EmptiedOk(l.config, l.queue);
    if l.queue.active.Some? {
      TallyFirst(l.Contents());
      assert l.Contents()[1..] == l.queue.waiting;
    }
  }

  // Whole runs of one link

  datatype LinkEvent =
    | AdmitChunk(chunk: TransferChunk, event: nat)
    | CompleteChunk(next: nat)
    | GoDown
    | Refuse(chunk: TransferChunk)

  /**
   A link, the clock, and what has entered and left it; `served[i]` tells whether the i-th chunk
   to leave was serialized or lost when the link went down. `rejected` found the buffer full and
   `refused` found the link down.
   */
  datatype History = History(
    link: Link, now: nat, busy: nat, entered: seq<TransferChunk>, left: seq<TransferChunk>, served: seq<bool>,
    rejected: seq<TransferChunk>, refused: seq<TransferChunk>)

  ghost function BytesBy(left: seq<TransferChunk>, served: seq<bool>, how: bool): nat
    requires |left| == |served|
  {
    if |left| == 0 then 0
    else
      var k := |left| - 1;
      BytesBy(left[..k], served[..k], how) + (if served[k] == how then left[k].bytes else 0)
  }

  ghost function CountBy(served: seq<bool>, how: bool): nat {
    if |served| == 0 then 0
    else CountBy(served[..|served| - 1], how) + (if served[|served| - 1] == how then 1 else 0)
  }

  /** Total over the chunks that left one way. */
  ghost function TallyBy(left: seq<TransferChunk>, served: seq<bool>, how: bool): Traffic
    requires |left| == |served|
  {
    Traffic(BytesBy(left, served, how), CountBy(served, how))
  }

  ghost function Never(n: nat): (flags: seq<bool>)
    ensures |flags| == n && forall i :: 0 <= i < n ==> !flags[i]
  {
    if n == 0 then [] else Never(n - 1) + [false]
  }

  /** Chunks leave in the order they entered, and what is left is still on the link. */
  ghost predicate FifoOk(h: History) {
    h.entered == h.left + h.link.Contents()
  }

  ghost predicate CountsOk(h: History) {
    && |h.left| == |h.served|
    && h.link.statistics.enqueued == Tally(h.entered)
    && h.link.statistics.completed == TallyBy(h.left, h.served, true)
    && h.link.statistics.droppedBufferFull == Tally(h.rejected)
    && h.link.statistics.droppedLinkDown == TallyBy(h.left, h.served, false).Plus(Tally(h.refused))
  }

  /** Busy time is the time a chunk has been active. */
  ghost predicate TimeOk(h: History) {
    && (h.link.busySince.Some? ==> h.link.busySince.value <= h.now)
    && BusyTimeAt(h.link, h.now) == h.busy <= h.now
  }

  ghost function BusyTimeAt(l: Link, now: nat): int {
    l.statistics.busyTime + (if l.busySince.Some? then now - l.busySince.value else 0)
  }

  ghost predicate HistoryOk(h: History) {
    LinkOk(h.link) && FifoOk(h) && CountsOk(h) && TimeOk(h)
  }

  /** The clock advances; the serializer is busy throughout if a chunk is active. */
  ghost function Elapse(h: History, elapsed: nat): History {
    h.(now := h.now + elapsed, busy := h.busy + (if h.link.queue.active.Some? then elapsed else 0))
  }

  ghost function AfterAdmit(h: History, chunk: TransferChunk, event: nat): History {
    var l := h.link;
    var admission := Decide(l.config, l.queue, chunk.bytes);
    h.(link := Admitted(l, chunk, h.now, event),
       entered := if admission.disposition == DroppedBufferFull then h.entered
                  else h.entered + [Stored(chunk, admission)],
       rejected := if admission.disposition == DroppedBufferFull then h.rejected + [chunk] else h.rejected)
  }

  function Following(l: Link, next: nat): Option<nat> {
    if l.queue.waiting == [] then None else Some(next)
  }

  ghost function AfterService(h: History, next: nat): History
    requires LinkOk(h.link) && h.link.queue.active.Some? && TimeOk(h)
  {
    ServedOk(h.link, h.now, Following(h.link, next));
    h.(link := Served(h.link, h.now, Following(h.link, next)),
       left := h.left + [h.link.queue.active.value], served := h.served + [true])
  }

  ghost function AfterDown(h: History): History
    requires TimeOk(h)
  {
    h.(link := Downed(h.link, h.now), left := h.left + h.link.Contents(),
       served := h.served + Never(|h.link.Contents()|))
  }

  ghost function AfterRefusal(h: History, chunk: TransferChunk): History {
    h.(link := Refused(h.link, chunk), refused := h.refused + [chunk])
  }

  lemma TallyByLast(left: seq<TransferChunk>, served: seq<bool>, chunk: TransferChunk, flag: bool, how: bool)
    requires |left| == |served|
    ensures TallyBy(left + [chunk], served + [flag], how) ==
            if flag == how then TallyBy(left, served, how).Plus(One(chunk)) else TallyBy(left, served, how)
  {
    assert (left + [chunk])[..|left|] == left && (served + [flag])[..|left|] == served;
  }

  lemma {:induction false} TallyByLost(left: seq<TransferChunk>, served: seq<bool>, lost: seq<TransferChunk>)
    requires |left| == |served|
    ensures BytesBy(left + lost, served + Never(|lost|), true) == BytesBy(left, served, true)
    ensures BytesBy(left + lost, served + Never(|lost|), false) == BytesBy(left, served, false) + Bytes(lost)
    ensures CountBy(served + Never(|lost|), true) == CountBy(served, true)
    ensures CountBy(served + Never(|lost|), false) == CountBy(served, false) + |lost|
  {
    if |lost| == 0 {
      assert left + lost == left && served + Never(0) == served;
    } else {
      var k := |lost| - 1;
      TallyByLost(left, served, lost[..k]);
      assert (left + lost)[..|left| + k] == left + lost[..k];
      assert (served + Never(|lost|))[..|left| + k] == served + Never(k);
    }
  }

  lemma ElapseOk(h: History, elapsed: nat)
    requires HistoryOk(h)
    ensures HistoryOk(Elapse(h, elapsed))
  {
    hide QueueOk, Bytes, BytesBy, CountBy;
  }

  lemma AdmitHistory(h: History, chunk: TransferChunk, event: nat)
    requires HistoryOk(h) && chunk.bytes > 0
    ensures HistoryOk(AfterAdmit(h, chunk, event))
  {
    hide LinkOk, Bytes, BytesBy, CountBy, Enqueue;
    var l := h.link;
    var stored := Stored(chunk, Decide(l.config, l.queue, chunk.bytes));
    AdmittedOk(l, chunk, h.now, event);
    TallyLast(h.entered, stored);
    TallyLast(h.rejected, chunk);
    IdleOk(l);
    assert h.left + (l.Contents() + [stored]) == (h.left + l.Contents()) + [stored];
  }

  lemma IdleOk(l: Link)
    requires LinkOk(l)
    ensures l.queue.active.Some? <==> l.busySince.Some?
  {
  }

  lemma ServiceHistory(h: History, next: nat)
    requires HistoryOk(h) && h.link.queue.active.Some?
    ensures HistoryOk(AfterService(h, next))
  {
    hide Bytes, BytesBy, CountBy, QueueOk;
    var l := h.link;
    ServedOk(l, h.now, Following(l, next));
    hide LinkOk, Advance;
    var chunk := l.queue.active.value;
    TallyByLast(h.left, h.served, chunk, true, true);
    TallyByLast(h.left, h.served, chunk, true, false);
    var after := Served(l, h.now, Following(l, next)).Contents();
    assert h.left + ([chunk] + after) == (h.left + [chunk]) + after;
  }

  lemma DownHistory(h: History)
    requires HistoryOk(h)
    ensures HistoryOk(AfterDown(h))
  {
    hide LinkOk, Bytes, BytesBy, CountBy, Never;
    var l := h.link;
    DownedOk(l, h.now);
    TallyByLost(h.left, h.served, l.Contents());
    assert (h.left + l.Contents()) + [] == h.left + l.Contents();
  }

  lemma RefusalHistory(h: History, chunk: TransferChunk)
    requires HistoryOk(h)
    ensures HistoryOk(AfterRefusal(h, chunk))
  {
    TallyLast(h.refused, chunk);
    hide QueueOk, Bytes, BytesBy, CountBy;
  }

  /** One event after some time; completions of an idle link and empty chunks do not occur. */
  ghost function After(h: History, elapsed: nat, e: LinkEvent): (r: History)
    requires HistoryOk(h)
    ensures HistoryOk(r) && h.now <= r.now
  {
    ElapseOk(h, elapsed);
    hide HistoryOk, LinkOk, TimeOk;
    var at := Elapse(h, elapsed);
    match e
    case AdmitChunk(chunk, event) =>
      if chunk.bytes == 0 then at else AdmitHistory(at, chunk, event); AfterAdmit(at, chunk, event)
    case CompleteChunk(next) =>
      if at.link.queue.active == None then at
      else HistoryParts(at); ServiceHistory(at, next); AfterService(at, next)
    case GoDown => HistoryParts(at); DownHistory(at); AfterDown(at)
    case Refuse(chunk) => RefusalHistory(at, chunk); AfterRefusal(at, chunk)
  }

  lemma HistoryParts(h: History)
    requires HistoryOk(h)
    ensures LinkOk(h.link) && TimeOk(h)
  {
  }

  ghost function Replay(h: History, run: seq<(nat, LinkEvent)>): (r: History)
    requires HistoryOk(h)
    ensures HistoryOk(r)
    decreases |run|
  {
    hide HistoryOk;
    if run == [] then h
    else
      var last := |run| - 1;
      After(Replay(h, run[..last]), run[last].0, run[last].1)
  }

  ghost function Fresh(config: LinkConfiguration): History {
    History(Idle(config), 0, 0, [], [], [], [], [])
  }

  lemma FreshOk(config: LinkConfiguration)
    ensures HistoryOk(Fresh(config))
  {
  }

  /**
   What the past of a link comes to: chunks leave in the order they were admitted; enqueued traffic
   is exactly completed, drained and present traffic, and the drop counters are exactly what was
   rejected, drained or refused; the waiting bytes fit the buffer; and busy time is the time with an
   active chunk and never exceeds the clock.
   */
  ghost predicate Conserved(h: History) {
    && h.entered == h.left + h.link.Contents()
    && |h.left| == |h.served|
    && h.link.statistics.enqueued ==
       h.link.statistics.completed.Plus(TallyBy(h.left, h.served, false)).Plus(Tally(h.link.Contents()))
    && h.link.statistics.droppedBufferFull == Tally(h.rejected)
    && h.link.statistics.droppedLinkDown == TallyBy(h.left, h.served, false).Plus(Tally(h.refused))
    && h.link.queue.waitingBytes == Tally(h.link.queue.waiting).bytes <= h.link.config.capacity
    && BusyTimeAt(h.link, h.now) == h.busy <= h.now
  }

  lemma ConservesNow(h: History)
    requires HistoryOk(h)
    ensures Conserved(h)
  {
    hide Bytes, BytesBy, CountBy, Link.Contents;
    BytesAppend(h.left, h.link.Contents());
    TallySplit(h.left, h.served);
  }

  /** Over every run of a link from idle. */
  lemma LinkConserves(config: LinkConfiguration, run: seq<(nat, LinkEvent)>)
    ensures HistoryOk(Fresh(config)) && Conserved(Replay(Fresh(config), run))
  {
    FreshOk(config);
    hide *;
    ConservesNow(Replay(Fresh(config), run));
  }

  lemma {:induction false} TallySplit(left: seq<TransferChunk>, served: seq<bool>)
    requires |left| == |served|
    ensures Bytes(left) == BytesBy(left, served, true) + BytesBy(left, served, false)
    ensures |left| == CountBy(served, true) + CountBy(served, false)
  {
    if |left| > 0 {
      TallySplit(left[..|left| - 1], served[..|left| - 1]);
    }
  }

  // Links of a running fabric

  /** The link has a past, on the fabric's clock, that explains all it holds and counts. */
  ghost predicate Recorded(l: Link, now: nat) {
    exists h: History :: h.link == l && h.now <= now && HistoryOk(h)
  }

  /** A past of the link brought up to `now`. */
  ghost function PastOf(l: Link, now: nat): (h: History)
    requires Recorded(l, now)
    ensures h.link == l && h.now == now && HistoryOk(h)
  {
    var h: History :| h.link == l && h.now <= now && HistoryOk(h);
    ElapseOk(h, now - h.now);
    Elapse(h, now - h.now)
  }

  lemma RecordedIdle(config: LinkConfiguration, now: nat)
    ensures Recorded(Idle(config), now)
  {
    FreshOk(config);
    assert Fresh(config).link == Idle(config);
  }

  lemma RecordedAdmission(l: Link, chunk: TransferChunk, now: nat, event: nat)
    requires Recorded(l, now) && chunk.bytes > 0
    ensures Recorded(Admitted(l, chunk, now, event), now)
  {
    hide HistoryOk, Admitted;
    var h := PastOf(l, now);
    AdmitHistory(h, chunk, event);
    assert AfterAdmit(h, chunk, event).link == Admitted(l, chunk, now, event);
  }

  lemma RecordedService(l: Link, now: nat, next: nat)
    requires Recorded(l, now) && l.queue.active.Some?
    ensures l.queue.waiting != [] ==> l.queue.waiting[0].bytes <= l.queue.waitingBytes
    ensures l.busySince.Some? ==> l.busySince.value <= now
    ensures Recorded(Served(l, now, Following(l, next)), now)
  {
    var h := PastOf(l, now);
    HistoryParts(h);
    ServedOk(l, now, Following(l, next));
    hide HistoryOk, Served, LinkOk;
    ServiceHistory(h, next);
    assert AfterService(h, next).link == Served(l, now, Following(l, next));
  }

  lemma RecordedDown(l: Link, now: nat)
    requires Recorded(l, now)
    ensures l.busySince.Some? ==> l.busySince.value <= now
    ensures Recorded(Downed(l, now), now)
  {
    var h := PastOf(l, now);
    HistoryParts(h);
    hide HistoryOk, Downed, LinkOk;
    DownHistory(h);
    assert AfterDown(h).link == Downed(l, now);
  }

  lemma RecordedRefusal(l: Link, chunk: TransferChunk, now: nat)
    requires Recorded(l, now)
    ensures Recorded(Refused(l, chunk), now)
  {
    hide HistoryOk, Refused;
    var h := PastOf(l, now);
    RefusalHistory(h, chunk);
    assert AfterRefusal(h, chunk).link == Refused(l, chunk);
  }
}
