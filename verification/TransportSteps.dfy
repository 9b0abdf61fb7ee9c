/** How each step of the transport runtime keeps motion and ledger. */
module TransportSteps {
  import opened Prelude
  import opened Events
  import opened Links
  import opened TransportState

  // Motion

  /** A record with its arrival consumed and a terminal state; a dropped chunk had reached its link. */
  function Ended(r: ChunkRecord, state: Transit): ChunkRecord {
    r.(chunk := if state == LostBufferFull then r.chunk.(hop := r.hop) else r.chunk, state := state, arrival := None)
  }

  lemma RecordsUpdate(chunks: ChunkTable, links: LinkTable, c: nat, r: ChunkRecord)
    requires RecordsOk(chunks, links) && RecordOk(c, r, links)
    ensures RecordsOk(chunks[c := r], links)
  {
  }

  lemma RecordsRelink(chunks: ChunkTable, links: LinkTable, a: DirectedLinkId, l: Link)
    requires RecordsOk(chunks, links) && a in links
    ensures RecordsOk(chunks, links[a := l])
  {
  }

  lemma LinksUpdate(links: LinkTable, now: nat, a: DirectedLinkId, l: Link)
    requires LinksOk(links, now) && LinkOk(l) && l.config.arc == a && Recorded(l, now)
    requires l.busySince.Some? ==> l.busySince.value <= now
    ensures LinksOk(links[a := l], now)
  {
    hide LinkOk, Recorded;
  }

  /** A chunk that arrives and ends there: delivered, refused or dropped. */
  lemma EndOnArrival(chunks: ChunkTable, links: LinkTable, live: EventTable, now: nat, c: nat, e: nat, state: Transit)
    requires MotionOk(chunks, links, live, now)
    requires c in chunks && chunks[c].arrival == Some(e) && state.Terminal()
    requires state == Delivered ==> chunks[c].hop == |chunks[c].route|
    ensures MotionOk(chunks[c := Ended(chunks[c], state)], links, live - {e}, now)
  {
    var r := Ended(chunks[c], state);
    assert RecordOk(c, chunks[c], links);
    RecordsUpdate(chunks, links, c, r);
    OffLinkUpdate(chunks, links, DirectedLinkId(0, AToB), [], c, r);
    ArrivalConsumed(chunks, live, c, e, r);
    assert live[e].payload == ChunkArrival(c, chunks[c].hop);
    CompletionsWithout(links, live, e);
    hide RecordsOk, LinksOk, PlacesOk, ArrivalsOk, CompletionsOk;
  }

  /** Only a link's counters change. */
  lemma CountersChange(chunks: ChunkTable, links: LinkTable, live: EventTable, now: nat, a: DirectedLinkId, l: Link)
    requires MotionOk(chunks, links, live, now) && a in links
    requires l == links[a].(statistics := l.statistics) && Recorded(l, now)
    ensures MotionOk(chunks, links[a := l], live, now)
  {
    hide Recorded;
    RecordsRelink(chunks, links, a, l);
    LinksUpdate(links, now, a, l);
    CompletionsKept(links, live, a, l);
    assert PlacesOk(chunks, links[a := l], DirectedLinkId(0, AToB), []) by {
      hide Seated, Among;
    }
    hide RecordsOk, LinksOk, PlacesOk, ArrivalsOk, CompletionsOk;
  }

  /** The record of a chunk the moment a link admits it. */
  function Seat(r: ChunkRecord, admission: Admission): ChunkRecord {
    r.(chunk := Stored(r.chunk.(hop := r.hop), admission), state := InLink, arrival := None)
  }

  /** A chunk that arrives joins the queue of its next hop. */
  lemma AdmitOnArrival(chunks: ChunkTable, links: LinkTable, live: EventTable, now: nat,
                       c: nat, e: nat, a: DirectedLinkId, event: Event)
    requires MotionOk(chunks, links, live, now)
    requires c in chunks && chunks[c].arrival == Some(e)
    requires chunks[c].hop < |chunks[c].route| && chunks[c].route[chunks[c].hop] == a && a in links
    requires var chunk := chunks[c].chunk.(hop := chunks[c].hop);
             Decide(links[a].config, links[a].queue, chunk.bytes).disposition != DroppedBufferFull
    requires event.id !in live && event.payload == TransmissionComplete(a, c, chunks[c].hop)
    ensures var chunk := chunks[c].chunk.(hop := chunks[c].hop);
            var admission := Decide(links[a].config, links[a].queue, chunk.bytes);
            MotionOk(chunks[c := Seat(chunks[c], admission)], links[a := Admitted(links[a], chunk, now, event.id)],
                     if links[a].queue.active == None then (live - {e})[event.id := event] else live - {e}, now)
  {
    var chunk := chunks[c].chunk.(hop := chunks[c].hop);
    var admission := Decide(links[a].config, links[a].queue, chunk.bytes);
    var r, l := Seat(chunks[c], admission), Admitted(links[a], chunk, now, event.id);
    assert RecordOk(c, chunks[c], links);
    AdmittedOk(links[a], chunk, now, event.id);
    RecordedAdmission(links[a], chunk, now, event.id);
    hide Recorded;
    RecordsUpdate(chunks, links, c, r);
    RecordsRelink(chunks[c := r], links, a, l);
    LinksUpdate(links, now, a, l);
    JoinLink(chunks, links, c, r, a, l);
    ArrivalConsumed(chunks, live, c, e, r);
    assert live[e].payload == ChunkArrival(c, chunks[c].hop);
    CompletionsWithout(links, live, e);
    if links[a].queue.active == None {
      ArrivalsWith(chunks[c := r], live - {e}, event);
      CompletionStarted(links, live - {e}, a, l, event);
    } else {
      CompletionsKept(links, live - {e}, a, l);
    }
    hide RecordsOk, LinksOk, PlacesOk, ArrivalsOk, CompletionsOk;
  }

  /** The record of a chunk that has been serialized and is propagating to its next hop. */
  function Propagating(r: ChunkRecord, arrival: nat): ChunkRecord {
    r.(state := AwaitingArrival, hop := r.hop + 1, arrival := Some(arrival))
  }

  /** What a dispatched completion event finds: its link busy with its chunk at the right hop. */
  lemma CompletionFinds(chunks: ChunkTable, links: LinkTable, live: EventTable, now: nat, e: nat)
    requires MotionOk(chunks, links, live, now) && e in live && live[e].payload.TransmissionComplete?
    ensures var p := live[e].payload;
            && p.arc in links && links[p.arc].completion == Some(e) && links[p.arc].queue.active.Some?
            && links[p.arc].queue.active.value.id == p.chunk && links[p.arc].queue.active.value.hop == p.hop
            && Sits(chunks, p.arc, links[p.arc].queue.active.value)
            && LinkOk(links[p.arc]) && links[p.arc].config.arc == p.arc
            && links[p.arc].busySince.Some? && links[p.arc].busySince.value <= now
  {
    var a := live[e].payload.arc;
    assert Seated(chunks, a, links[a].Contents());
    assert links[a].Contents()[0] == links[a].queue.active.value;
  }

  /** What a dispatched arrival event finds: its chunk awaiting exactly this event. */
  lemma ArrivalFinds(chunks: ChunkTable, links: LinkTable, live: EventTable, now: nat, e: nat)
    requires MotionOk(chunks, links, live, now) && e in live && live[e].payload.ChunkArrival?
    ensures var p := live[e].payload;
            && p.chunk in chunks && chunks[p.chunk].arrival == Some(e) && chunks[p.chunk].hop == p.hop
            && chunks[p.chunk].state == AwaitingArrival && RecordOk(p.chunk, chunks[p.chunk], links)
  {
  }

  predicate CanServe(l: Link, now: nat) {
    && l.queue.active.Some?
    && (l.queue.waiting != [] ==> l.queue.waiting[0].bytes <= l.queue.waitingBytes)
    && (l.busySince.Some? ==> l.busySince.value <= now)
  }

  /** The events pending after a service: the next completion, if any, and the arrival downstream. */
  ghost function AfterServing(l: Link, live: EventTable, e: nat, next: Event, arrival: Event): EventTable {
    var started := if l.queue.waiting == [] then live - {e} else (live - {e})[next.id := next];
    started[arrival.id := arrival]
  }

  /** The events a service schedules fit the link and the chunk they are for. */
  ghost predicate ServiceEvents(l: Link, live: EventTable, p: Payload, next: Event, arrival: Event) {
    && p.TransmissionComplete?
    && next.id !in live && arrival.id !in live && next.id != arrival.id
    && (l.queue.waiting != [] ==>
          next.payload == TransmissionComplete(p.arc, l.queue.waiting[0].id, l.queue.waiting[0].hop))
    && arrival.payload == ChunkArrival(p.chunk, p.hop + 1)
  }

  lemma ServesOn(l: Link, now: nat, next: nat)
    requires LinkOk(l) && Recorded(l, now) && l.queue.active.Some?
    ensures CanServe(l, now)
    ensures var served := Served(l, now, Following(l, next));
            && LinkOk(served) && Recorded(served, now) && [l.queue.active.value] + served.Contents() == l.Contents()
            && (served.busySince.Some? ==> served.busySince.value <= now)
  {
    RecordedService(l, now, next);
    hide Recorded;
    ServedOk(l, now, Following(l, next));
  }

  /** Serialization ends: the head of the queue leaves for its next hop, and the next one starts. */
  lemma ServeStep(chunks: ChunkTable, links: LinkTable, live: EventTable, now: nat, e: nat, p: Payload,
                  next: Event, arrival: Event)
    requires p.TransmissionComplete? && p.arc in links && p.chunk in chunks
    requires e in live && live[e].payload == p && ServiceEvents(links[p.arc], live, p, next, arrival)
    requires MotionOk(chunks, links, live, now)
    ensures CanServe(links[p.arc], now)
    ensures MotionOk(chunks[p.chunk := Propagating(chunks[p.chunk], arrival.id)],
                     links[p.arc := Served(links[p.arc], now, Following(links[p.arc], next.id))],
                     AfterServing(links[p.arc], live, e, next, arrival), now)
  {
    hide Recorded, HistoryOk, LinkOk;
    CompletionFinds(chunks, links, live, now, e);
    var a, c, l := p.arc, p.chunk, links[p.arc];
    var following := Following(l, next.id);
    ServesOn(l, now, next.id);
    var l', r := Served(l, now, following), Propagating(chunks[c], arrival.id);
    assert RecordOk(c, chunks[c], links);
    RecordsUpdate(chunks, links, c, r);
    RecordsRelink(chunks[c := r], links, a, l');
    LinksUpdate(links, now, a, l');
    LeaveLink(chunks, links, c, r, a, l');
    ServeEvents(chunks, links, live, e, a, c, r, l', next, arrival);
    hide RecordsOk, LinksOk, PlacesOk, ArrivalsOk, CompletionsOk;
  }

  lemma ServeEvents(chunks: ChunkTable, links: LinkTable, live: EventTable, e: nat, a: DirectedLinkId, c: nat,
                    r: ChunkRecord, l: Link, next: Event, arrival: Event)
    requires ArrivalsOk(chunks, live) && CompletionsOk(links, live)
    requires a in links && links[a].completion == Some(e) && links[a].queue.active.Some?
    requires c in chunks && chunks[c].arrival == None
    requires next.id !in live && arrival.id !in live && next.id != arrival.id
    requires l.completion == if links[a].queue.waiting == [] then None else Some(next.id)
    requires links[a].queue.waiting != [] ==>
               l.queue.active.Some? && l.queue.active.value == links[a].queue.waiting[0] &&
               next.payload == TransmissionComplete(a, links[a].queue.waiting[0].id, links[a].queue.waiting[0].hop)
    requires r.arrival == Some(arrival.id) && arrival.payload == ChunkArrival(c, r.hop)
    ensures ArrivalsOk(chunks[c := r], AfterServing(links[a], live, e, next, arrival))
    ensures CompletionsOk(links[a := l], AfterServing(links[a], live, e, next, arrival))
  {
    ArrivalsWithout(chunks, live, e);
    var idle := l.(completion := None);
    CompletionEnded(links, live, a, idle, e);
    var started := if links[a].queue.waiting == [] then live - {e} else (live - {e})[next.id := next];
    if links[a].queue.waiting != [] {
      ArrivalsWith(chunks, live - {e}, next);
      CompletionStarted(links[a := idle], live - {e}, a, l, next);
      assert links[a := idle][a := l] == links[a := l];
    } else {
      assert idle == l;
    }
    ArrivalScheduled(chunks, started, c, r, arrival);
    CompletionsWith(links[a := l], started, arrival);
  }

  /** A link goes down: its completion is cancelled and its queue drained. */
  lemma DownStep(chunks: ChunkTable, links: LinkTable, live: EventTable, now: nat, a: DirectedLinkId)
    requires MotionOk(chunks, links, live, now) && a in links
    ensures links[a].busySince.Some? ==> links[a].busySince.value <= now
    ensures links[a].completion.Some? ==> links[a].completion.value in live
    ensures DrainingOk(chunks, links[a := Downed(links[a], now)],
                       if links[a].completion.Some? then live - {links[a].completion.value} else live,
                       now, a, links[a].Contents())
  {
    var l := Downed(links[a], now);
    DownedOk(links[a], now);
    RecordedDown(links[a], now);
    hide Recorded;
    RecordsRelink(chunks, links, a, l);
    LinksUpdate(links, now, a, l);
    DrainToLimbo(chunks, links, a, l);
    if links[a].completion.Some? {
      var e := links[a].completion.value;
      ArrivalsWithout(chunks, live, e);
      CompletionEnded(links, live, a, l, e);
    } else {
      CompletionsKept(links, live, a, l);
    }
    hide RecordsOk, LinksOk, PlacesOk, ArrivalsOk, CompletionsOk;
  }

  /** Marking one drained chunk. */
  lemma MarkStep(chunks: ChunkTable, links: LinkTable, live: EventTable, now: nat, a: DirectedLinkId,
                 limbo: seq<TransferChunk>)
    requires DrainingOk(chunks, links, live, now, a, limbo) && |limbo| > 0
    ensures Sits(chunks, a, limbo[0])
    ensures var r := chunks[limbo[0].id].(state := LostLinkDown);
            DrainingOk(chunks[limbo[0].id := r], links, live, now, a, limbo[1..])
  {
    var c := limbo[0].id;
    DropFromLimbo(chunks, links, a, limbo, Ended(ChunkRecord(limbo[0], [], Registered, 0, None), LostLinkDown));
    var r := chunks[c].(state := LostLinkDown);
    assert RecordOk(c, chunks[c], links);
    DropFromLimbo(chunks, links, a, limbo, r);
    RecordsUpdate(chunks, links, c, r);
    ArrivalsKept(chunks, live, c, r);
    hide RecordsOk, LinksOk, PlacesOk, ArrivalsOk, CompletionsOk;
  }

  lemma DrainDone(chunks: ChunkTable, links: LinkTable, live: EventTable, now: nat, a: DirectedLinkId)
    requires DrainingOk(chunks, links, live, now, a, [])
    ensures MotionOk(chunks, links, live, now)
  {
    LimboDone(chunks, links, a);
    hide RecordsOk, LinksOk, PlacesOk, ArrivalsOk, CompletionsOk;
  }

  /** A chunk is registered, or its first arrival is scheduled. */
  lemma RegisterStep(chunks: ChunkTable, links: LinkTable, live: EventTable, now: nat, c: nat, r: ChunkRecord)
    requires MotionOk(chunks, links, live, now) && c !in chunks
    requires RecordOk(c, r, links) && r.state == Registered
    ensures MotionOk(chunks[c := r], links, live, now)
  {
    RecordsUpdate(chunks, links, c, r);
    OffLinkUpdate(chunks, links, DirectedLinkId(0, AToB), [], c, r);
    ArrivalsKept(chunks, live, c, r);
    hide RecordsOk, LinksOk, PlacesOk, ArrivalsOk, CompletionsOk;
  }

  lemma LaunchStep(chunks: ChunkTable, links: LinkTable, live: EventTable, now: nat, c: nat, event: Event)
    requires MotionOk(chunks, links, live, now) && c in chunks && chunks[c].state == Registered
    requires event.id !in live && event.payload == ChunkArrival(c, 0)
    ensures var r := chunks[c].(state := AwaitingArrival, arrival := Some(event.id));
            MotionOk(chunks[c := r], links, live[event.id := event], now)
  {
    var r := chunks[c].(state := AwaitingArrival, arrival := Some(event.id));
    assert RecordOk(c, chunks[c], links);
    RecordsUpdate(chunks, links, c, r);
    OffLinkUpdate(chunks, links, DirectedLinkId(0, AToB), [], c, r);
    ArrivalScheduled(chunks, live, c, r, event);
    CompletionsWith(links, live, event);
    hide RecordsOk, LinksOk, PlacesOk, ArrivalsOk, CompletionsOk;
  }

  /** With no transport event pending, no chunk is in flight. */
  lemma QuietMotion(chunks: ChunkTable, links: LinkTable, live: EventTable, now: nat)
    requires MotionOk(chunks, links, live, now)
    requires forall e :: e in live ==> !IsTransport(live[e].payload)
    ensures forall c :: c in chunks ==> chunks[c].state == Registered || chunks[c].state.Terminal()
    ensures forall a :: a in links ==> links[a].Contents() == []
  {
    forall a | a in links ensures links[a].Contents() == [] {
      assert links[a].completion == None;
    }
    forall c | c in chunks ensures chunks[c].state == Registered || chunks[c].state.Terminal() {
      assert RecordOk(c, chunks[c], links);
      assert chunks[c].arrival == None;
      assert !Among(c, []);
    }
  }
}
