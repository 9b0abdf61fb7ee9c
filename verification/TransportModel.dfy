/** The whole transport state as one value, and what each of its steps keeps. */
module TransportModel {
  import opened Prelude
  import opened Events
  import opened Links
  import opened Topology
  import opened TransportState
  import opened TransportSteps
  import opened TransportLedger

  /** `SequentialTransportIdGenerator`. */
  datatype IdGenerator = IdGenerator(next: nat, exhausted: bool) {
    ghost predicate Ok() {
      next <= U64_MAX
    }

    /** Whether the generator can no longer hand out this ID. */
    ghost predicate Past(id: nat) {
      exhausted || id < next
    }

    predicate CanGenerate(count: nat) {
      count == 0 || (!exhausted && next <= U64_MAX && count - 1 <= U64_MAX - next)
    }

    function Taken(): IdGenerator {
      if next == U64_MAX then IdGenerator(next, true) else IdGenerator(next + 1, exhausted)
    }

    function AdvancedPast(id: nat): IdGenerator {
      if exhausted || id < next then this
      else if id == U64_MAX then IdGenerator(next, true)
      else IdGenerator(id + 1, exhausted)
    }
  }

  datatype Fabric = Fabric(
    chunks: ChunkTable, transfers: TransferTable, links: LinkTable, graph: Graph,
    emitted: seq<Completion>, submitted: set<nat>, chunkIds: IdGenerator, transferIds: IdGenerator)

  /**
   Configured arcs are fabric arcs, and one that is not operational is idle and empty. Arcs in
   `stale` still have to be drained after a state change.
   */
  ghost predicate ArcsOk(links: LinkTable, graph: Graph, stale: set<DirectedLinkId>) {
    forall a :: a in links ==> FabricArc(graph, a) && (!ArcUp(graph, a) && a !in stale ==> links[a].Contents() == [])
  }

  /** Generated IDs are never handed out again. */
  ghost predicate IdsOk(f: Fabric) {
    && f.chunkIds.Ok() && f.transferIds.Ok()
    && (forall c :: c in f.chunks ==> f.chunkIds.Past(c))
    && (forall t :: t in f.transfers ==> f.transferIds.Past(t))
  }

  /** Every chunk of a submitted transfer has been launched. */
  ghost predicate SubmittedOk(chunks: ChunkTable, transfers: TransferTable, submitted: set<nat>) {
    forall t :: t in submitted ==> t in transfers && transfers[t].startedAt.Some?
                                   && Launched(transfers[t].chunks, chunks)
  }

  ghost predicate Launched(list: seq<nat>, chunks: ChunkTable) {
    forall i :: 0 <= i < |list| ==> list[i] in chunks && chunks[list[i]].state != Registered
  }

  ghost predicate RestOk(f: Fabric, stale: set<DirectedLinkId>) {
    && LedgerOk(f.chunks, f.transfers, f.emitted)
    && ArcsOk(f.links, f.graph, stale)
    && IdsOk(f)
    && SubmittedOk(f.chunks, f.transfers, f.submitted)
  }

  ghost predicate FabricOk(f: Fabric, live: EventTable, now: nat) {
    MotionOk(f.chunks, f.links, live, now) && RestOk(f, {})
  }

  // Steps

  /** A chunk leaves motion for good and its transfer settles it. */
  function EndChunk(f: Fabric, c: nat, r: ChunkRecord, now: nat): Fabric
    requires c in f.chunks && r.chunk.transfer in f.transfers
  {
    var t := r.chunk.transfer;
    var b := Settled(t, f.transfers[t], One(r.chunk), r.state, now);
    f.(chunks := f.chunks[c := r], transfers := f.transfers[t := b],
       emitted := if b.completion.Some? then f.emitted + [b.completion.value] else f.emitted)
  }

  lemma LaunchedKept(chunks: ChunkTable, transfers: TransferTable, submitted: set<nat>, c: nat, r: ChunkRecord,
                     t: nat, b: TransferRecord)
    requires SubmittedOk(chunks, transfers, submitted) && r.state != Registered
    requires t in transfers ==> b.chunks == transfers[t].chunks && b.startedAt.Some?
    ensures SubmittedOk(chunks[c := r], transfers[t := b], submitted)
  {
  }

  lemma EndKeepsRest(f: Fabric, stale: set<DirectedLinkId>, c: nat, r: ChunkRecord, now: nat)
    requires RestOk(f, stale) && c in f.chunks
    requires r.chunk.transfer == f.chunks[c].chunk.transfer && r.chunk.bytes == f.chunks[c].chunk.bytes
    requires !f.chunks[c].state.Terminal() && f.chunks[c].state != Registered && r.state.Terminal()
    ensures r.chunk.transfer in f.transfers && f.transfers[r.chunk.transfer].completion == None
    ensures RestOk(EndChunk(f, c, r, now), stale)
    ensures var t := r.chunk.transfer; var b := EndChunk(f, c, r, now).transfers[t];
            b.completion.Some? ==> b.delivered.bytes + b.bufferFull.bytes + b.linkDown.bytes == b.total.bytes
  {
    hide LedgerOk, SubmittedOk, ArcsOk;
    LedgerSettles(f.chunks, f.transfers, f.emitted, c, r, now);
    var t := r.chunk.transfer;
    StartedOnceLaunched(f, c);
    LaunchedKept(f.chunks, f.transfers, f.submitted, c, r, t, Settled(t, f.transfers[t], One(r.chunk), r.state, now));
  }

  lemma StartedOnceLaunched(f: Fabric, c: nat)
    requires LedgerOk(f.chunks, f.transfers, f.emitted) && c in f.chunks && f.chunks[c].state != Registered
    ensures f.chunks[c].chunk.transfer in f.transfers && f.transfers[f.chunks[c].chunk.transfer].startedAt.Some?
  {
    var t := f.chunks[c].chunk.transfer;
    assert AccountOk(t, f.transfers[t], f.chunks);
    var k := IndexOf(f.transfers[t].chunks, c);
  }

  lemma LinkKeepsRest(f: Fabric, a: DirectedLinkId, l: Link)
    requires RestOk(f, {}) && a in f.links
             && (l.Contents() == [] || l.Contents() == f.links[a].Contents() || ArcUp(f.graph, a))
    ensures RestOk(f.(links := f.links[a := l]), {})
  {
    hide LedgerOk, SubmittedOk, ArcUp, FabricArc;
  }

  /** A busy link is operational. */
  lemma BusyIsUp(f: Fabric, a: DirectedLinkId)
    requires RestOk(f, {}) && a in f.links && f.links[a].queue.active.Some?
    ensures ArcUp(f.graph, a)
  {
    hide LedgerOk, SubmittedOk, ArcUp, FabricArc, IdsOk;
    assert f.links[a].Contents()[0] == f.links[a].queue.active.value;
  }

  /** A chunk arrives and ends: delivered, or refused, or dropped; only counters of a link may change. */
  lemma ArriveAndEnd(f: Fabric, live: EventTable, now: nat, e: nat, state: Transit, links: LinkTable)
    requires FabricOk(f, live, now) && e in live && live[e].payload.ChunkArrival?
    requires live[e].payload.chunk in f.chunks && state.Terminal()
    requires state == Delivered ==> live[e].payload.hop == |f.chunks[live[e].payload.chunk].route|
    requires links == f.links ||
             exists a, s :: a in f.links && links == f.links[a := f.links[a].(statistics := s)]
                            && Recorded(f.links[a].(statistics := s), now)
    ensures var c := live[e].payload.chunk; var r := Ended(f.chunks[c], state);
            && r.chunk.transfer in f.transfers && f.transfers[r.chunk.transfer].completion == None
            && FabricOk(EndChunk(f.(links := links), c, r, now), live - {e}, now)
            && (var b := EndChunk(f.(links := links), c, r, now).transfers[r.chunk.transfer];
                b.completion.Some? ==> b.delivered.bytes + b.bufferFull.bytes + b.linkDown.bytes == b.total.bytes)
  {
    hide MotionOk, RestOk, Recorded;
    ArrivalFinds(f.chunks, f.links, live, now, e);
    var c := live[e].payload.chunk;
    var r := Ended(f.chunks[c], state);
    if links != f.links {
      var a, s :| a in f.links && links == f.links[a := f.links[a].(statistics := s)]
                  && Recorded(f.links[a].(statistics := s), now);
      CountersChange(f.chunks, f.links, live, now, a, links[a]);
      LinkKeepsRest(f, a, links[a]);
    }
    EndOnArrival(f.chunks, links, live, now, c, e, state);
    EndKeepsRest(f.(links := links), {}, c, r, now);
    hide Settled;
  }

  /** A chunk arrives at an operational link that has room. */
  function Join(f: Fabric, c: nat, a: DirectedLinkId, now: nat, event: nat): Fabric
    requires c in f.chunks && a in f.links
  {
    var chunk := f.chunks[c].chunk.(hop := f.chunks[c].hop);
    var admission := Decide(f.links[a].config, f.links[a].queue, chunk.bytes);
    f.(chunks := f.chunks[c := Seat(f.chunks[c], admission)],
       links := f.links[a := Admitted(f.links[a], chunk, now, event)])
  }

  ghost function JoinedEvents(l: Link, live: EventTable, e: nat, event: Event): EventTable {
    if l.queue.active == None then (live - {e})[event.id := event] else live - {e}
  }

  lemma ArriveAndJoin(f: Fabric, live: EventTable, now: nat, e: nat, c: nat, a: DirectedLinkId, event: Event)
    requires c in f.chunks && f.chunks[c].hop < |f.chunks[c].route|
    requires a == f.chunks[c].route[f.chunks[c].hop] && a in f.links && ArcUp(f.graph, a)
    requires Decide(f.links[a].config, f.links[a].queue, f.chunks[c].chunk.bytes).disposition != DroppedBufferFull
    requires event.id !in live && event.payload == TransmissionComplete(a, c, f.chunks[c].hop)
    requires e in live && live[e].payload == ChunkArrival(c, f.chunks[c].hop)
    requires FabricOk(f, live, now)
    ensures f.chunks[c].chunk.transfer in f.transfers
    ensures FabricOk(Join(f, c, a, now, event.id), JoinedEvents(f.links[a], live, e, event), now)
  {
    hide MotionOk, RestOk, ArcUp;
    OwnerKnown(f, c);
    ArrivalFinds(f.chunks, f.links, live, now, e);
    AdmitOnArrival(f.chunks, f.links, live, now, c, e, a, event);
    hide RecordOk, Admitted, Decide;
    var g := Join(f, c, a, now, event.id);
    InMotionKeepsRest(f, c, g.chunks[c]);
    LinkKeepsRest(f.(chunks := g.chunks), a, g.links[a]);
  }

  /** A launched chunk moves on without ending. */
  lemma InMotionKeepsRest(f: Fabric, c: nat, r: ChunkRecord)
    requires RestOk(f, {}) && c in f.chunks && f.chunks[c].state != Registered && !f.chunks[c].state.Terminal()
    requires r.chunk.transfer == f.chunks[c].chunk.transfer && r.chunk.bytes == f.chunks[c].chunk.bytes
    requires !r.state.Terminal() && r.state != Registered
    ensures RestOk(f.(chunks := f.chunks[c := r]), {})
  {
    hide LedgerOk, ArcsOk, SubmittedOk;
    StartedOnceLaunched(f, c);
    var t := r.chunk.transfer;
    var a := f.transfers[t];
    LedgerInMotion(f.chunks, f.transfers, f.emitted, c, r, a.startedAt);
    LaunchedKept(f.chunks, f.transfers, f.submitted, c, r, t, a);
    assert f.transfers[t := a.(startedAt := a.startedAt)] == f.transfers;
    assert f.transfers[t := a] == f.transfers;
  }

  /** Serialization ends on a link. */
  function Serve(f: Fabric, a: DirectedLinkId, c: nat, now: nat, next: nat, arrival: nat): Fabric
    requires a in f.links && c in f.chunks && CanServe(f.links[a], now)
  {
    f.(chunks := f.chunks[c := Propagating(f.chunks[c], arrival)],
       links := f.links[a := Served(f.links[a], now, Following(f.links[a], next))])
  }

  lemma ServeKeeps(f: Fabric, live: EventTable, now: nat, e: nat, p: Payload, next: Event, arrival: Event)
    requires p.TransmissionComplete? && p.arc in f.links && p.chunk in f.chunks && CanServe(f.links[p.arc], now)
    requires e in live && live[e].payload == p && ServiceEvents(f.links[p.arc], live, p, next, arrival)
    requires FabricOk(f, live, now)
    ensures FabricOk(Serve(f, p.arc, p.chunk, now, next.id, arrival.id),
                     AfterServing(f.links[p.arc], live, e, next, arrival), now)
  {
    hide MotionOk, RestOk, ArcUp;
    CompletionFinds(f.chunks, f.links, live, now, e);
    ServeStep(f.chunks, f.links, live, now, e, p, next, arrival);
    hide LinkOk, Served;
    BusyIsUp(f, p.arc);
    var g := Serve(f, p.arc, p.chunk, now, next.id, arrival.id);
    InMotionKeepsRest(f, p.chunk, g.chunks[p.chunk]);
    LinkKeepsRest(f.(chunks := g.chunks), p.arc, g.links[p.arc]);
  }

  // Submission

  /** A chunk is registered with its transfer. */
  function Register(f: Fabric, chunk: TransferChunk, route: seq<DirectedLinkId>): Fabric {
    f.(chunks := f.chunks[chunk.id := ChunkRecord(chunk, route, Registered, 0, None)],
       transfers := f.transfers[chunk.transfer := Enrolled(f.transfers, chunk)],
       chunkIds := f.chunkIds.AdvancedPast(chunk.id), transferIds := f.transferIds.AdvancedPast(chunk.transfer))
  }

  lemma AdvancedPastIs(g: IdGenerator, id: nat)
    requires g.Ok() && id <= U64_MAX
    ensures g.AdvancedPast(id).Ok() && g.AdvancedPast(id).Past(id)
    ensures forall other: nat :: g.Past(other) ==> g.AdvancedPast(id).Past(other)
  {
  }

  /** An unsealed transfer takes one more chunk. */
  lemma RegisterKeeps(f: Fabric, live: EventTable, now: nat, chunk: TransferChunk, route: seq<DirectedLinkId>)
    requires FabricOk(f, live, now)
    requires chunk.id !in f.chunks && chunk.id <= U64_MAX && chunk.transfer <= U64_MAX
    requires chunk.bytes > 0 && route != [] && forall i :: 0 <= i < |route| ==> route[i] in f.links
    requires chunk.transfer in f.transfers ==> f.transfers[chunk.transfer].startedAt == None
    ensures FabricOk(Register(f, chunk, route), live, now)
  {
    hide MotionOk, LedgerOk, IdsOk, SubmittedOk, ArcsOk, Enrolled;
    var r := ChunkRecord(chunk, route, Registered, 0, None);
    RegisterStep(f.chunks, f.links, live, now, chunk.id, r);
    LedgerGrows(f.chunks, f.transfers, f.emitted, r);
    RegisterKeepsIds(f, chunk, route);
    RegisterKeepsSubmitted(f, r);
  }

  lemma RegisterKeepsIds(f: Fabric, chunk: TransferChunk, route: seq<DirectedLinkId>)
    requires IdsOk(f) && chunk.id <= U64_MAX && chunk.transfer <= U64_MAX
    ensures IdsOk(Register(f, chunk, route))
  {
    hide Enrolled;
    AdvancedPastIs(f.chunkIds, chunk.id);
    AdvancedPastIs(f.transferIds, chunk.transfer);
    hide IdGenerator.AdvancedPast;
  }

  lemma RegisterKeepsSubmitted(f: Fabric, r: ChunkRecord)
    requires SubmittedOk(f.chunks, f.transfers, f.submitted) && r.chunk.id !in f.chunks
    requires r.chunk.transfer in f.transfers ==> f.transfers[r.chunk.transfer].startedAt == None
    ensures SubmittedOk(f.chunks[r.chunk.id := r],
                        f.transfers[r.chunk.transfer := Enrolled(f.transfers, r.chunk)], f.submitted)
  {
  }

  /** The first arrival of a registered chunk is scheduled, which seals its transfer. */
  function Launch(f: Fabric, c: nat, now: nat, event: nat): Fabric
    requires c in f.chunks && f.chunks[c].chunk.transfer in f.transfers
  {
    var r := f.chunks[c].(state := AwaitingArrival, arrival := Some(event));
    var a := f.transfers[r.chunk.transfer];
    f.(chunks := f.chunks[c := r],
       transfers := f.transfers[r.chunk.transfer := a.(startedAt := if a.startedAt.Some? then a.startedAt
                                                       else Some(now))])
  }

  lemma LaunchKeeps(f: Fabric, live: EventTable, now: nat, c: nat, event: Event)
    requires FabricOk(f, live, now) && c in f.chunks && f.chunks[c].state == Registered
    requires event.id !in live && event.payload == ChunkArrival(c, 0)
    ensures f.chunks[c].chunk.transfer in f.transfers
    ensures FabricOk(Launch(f, c, now, event.id), live[event.id := event], now)
  {
    hide MotionOk, LedgerOk, SubmittedOk, ArcsOk;
    LaunchStep(f.chunks, f.links, live, now, c, event);
    OwnerKnown(f, c);
    var t := f.chunks[c].chunk.transfer;
    var r := f.chunks[c].(state := AwaitingArrival, arrival := Some(event.id));
    var started := if f.transfers[t].startedAt.Some? then f.transfers[t].startedAt else Some(now);
    LedgerInMotion(f.chunks, f.transfers, f.emitted, c, r, started);
    LaunchedKept(f.chunks, f.transfers, f.submitted, c, r, t, f.transfers[t].(startedAt := started));
  }

  lemma OwnerKnown(f: Fabric, c: nat)
    requires RestOk(f, {}) && c in f.chunks
    ensures f.chunks[c].chunk.transfer in f.transfers
  {
  }

  // Failures

  /** A state change of the topology leaves arcs to drain. */
  lemma StateChangeKeepsRest(f: Fabric, g: Graph, stale: set<DirectedLinkId>)
    requires RestOk(f, {}) && SameStructure(f.graph, g)
    requires forall a :: a in f.links && ArcUp(f.graph, a) && a !in stale ==> ArcUp(g, a)
    ensures RestOk(f.(graph := g), stale)
  {
    hide LedgerOk, SubmittedOk, ArcUp;
  }

  /** A link is taken down: its queue is in limbo and it is no longer stale. */
  lemma DownKeeps(f: Fabric, live: EventTable, now: nat, stale: set<DirectedLinkId>, a: DirectedLinkId)
    requires RestOk(f, stale) && MotionOk(f.chunks, f.links, live, now) && a in f.links
    ensures f.links[a].busySince.Some? ==> f.links[a].busySince.value <= now
    ensures f.links[a].completion.Some? ==> f.links[a].completion.value in live
    ensures var g := f.(links := f.links[a := Downed(f.links[a], now)]);
            RestOk(g, stale - {a}) &&
            DrainingOk(g.chunks, g.links,
                       if f.links[a].completion.Some? then live - {f.links[a].completion.value} else live,
                       now, a, f.links[a].Contents())
  {
    hide MotionOk, DrainingOk, RestOk;
    DownStep(f.chunks, f.links, live, now, a);
    DownedEmpty(f.links[a], now);
    EmptyKeepsRest(f, stale, a, Downed(f.links[a], now));
    hide Downed;
  }

  lemma DownedEmpty(l: Link, now: nat)
    requires l.busySince.Some? ==> l.busySince.value <= now
    ensures Downed(l, now).Contents() == []
  {
  }

  lemma EmptyKeepsRest(f: Fabric, stale: set<DirectedLinkId>, a: DirectedLinkId, l: Link)
    requires RestOk(f, stale) && a in f.links && l.Contents() == []
    ensures RestOk(f.(links := f.links[a := l]), stale - {a})
  {
    hide LedgerOk, SubmittedOk, ArcUp, FabricArc;
  }

  /** One chunk in limbo is marked as dropped and settled. */
  lemma MarkKeeps(f: Fabric, live: EventTable, now: nat, stale: set<DirectedLinkId>, a: DirectedLinkId,
                  limbo: seq<TransferChunk>)
    requires |limbo| > 0 && RestOk(f, stale) && DrainingOk(f.chunks, f.links, live, now, a, limbo)
    ensures Sits(f.chunks, a, limbo[0])
    ensures var c := limbo[0].id; var r := f.chunks[c].(chunk := limbo[0], state := LostLinkDown);
            && r.chunk.transfer in f.transfers && f.transfers[r.chunk.transfer].completion == None
            && (var g := EndChunk(f, c, r, now);
                && RestOk(g, stale) && DrainingOk(g.chunks, g.links, live, now, a, limbo[1..])
                && (var b := g.transfers[r.chunk.transfer];
                    b.completion.Some? ==> b.delivered.bytes + b.bufferFull.bytes + b.linkDown.bytes == b.total.bytes))
  {
    hide RestOk, DrainingOk;
    MarkStep(f.chunks, f.links, live, now, a, limbo);
    var c := limbo[0].id;
    EndKeepsRest(f, stale, c, f.chunks[c].(chunk := limbo[0], state := LostLinkDown), now);
    hide Settled;
  }

  /** An operational arc, or an empty one, is not stale. */
  lemma NotStale(f: Fabric, stale: set<DirectedLinkId>, a: DirectedLinkId)
    requires RestOk(f, stale) && (a in f.links ==> ArcUp(f.graph, a))
    ensures RestOk(f, stale - {a})
  {
    hide LedgerOk, SubmittedOk, ArcUp, FabricArc;
  }

  lemma NoneStale(f: Fabric, stale: set<DirectedLinkId>)
    requires RestOk(f, stale) && forall a :: a in stale ==> a !in f.links
    ensures RestOk(f, {})
  {
    hide LedgerOk, SubmittedOk, ArcUp, FabricArc;
  }

  /** With no transport event pending, every submitted transfer has completed and every link is empty. */
  lemma QuietFabric(f: Fabric, live: EventTable, now: nat)
    requires FabricOk(f, live, now)
    requires forall e :: e in live ==> !IsTransport(live[e].payload)
    ensures forall t :: t in f.submitted ==> t in f.transfers && f.transfers[t].completion.Some?
    ensures forall a :: a in f.links ==> f.links[a].Contents() == []
  {
    QuietMotion(f.chunks, f.links, live, now);
    forall t | t in f.submitted ensures t in f.transfers && f.transfers[t].completion.Some? {
      assert AccountOk(t, f.transfers[t], f.chunks);
      assert AllTerminal(f.transfers[t].chunks, f.chunks);
    }
  }

  /** Foreign events and the passing of time do not disturb the transport. */
  lemma FabricFrame(f: Fabric, live: EventTable, now: nat, live': EventTable, now': nat)
    requires FabricOk(f, live, now) && SameTransport(live, live') && now <= now'
    ensures FabricOk(f, live', now')
  {
    MotionFrame(f.chunks, f.links, live, now, live', now');
  }

  /**
   Every link of a reachable transport state conserves: it has a past up to now in which chunks left in
   the order they were admitted and whose totals its counters and busy time are.
   */
  lemma FabricLinksConserve(f: Fabric, live: EventTable, now: nat, a: DirectedLinkId)
    requires FabricOk(f, live, now) && a in f.links
    ensures exists h: History :: h.link == f.links[a] && h.now == now && Conserved(h)
    ensures 0 <= BusyTimeAt(f.links[a], now) <= now
  {
    hide HistoryOk, Conserved, LinkOk;
    assert Recorded(f.links[a], now);
    var h := PastOf(f.links[a], now);
    ConservesNow(h);
    BusyWithin(h);
  }

  lemma BusyWithin(h: History)
    requires Conserved(h)
    ensures 0 <= BusyTimeAt(h.link, h.now) <= h.now
  {
  }
}
