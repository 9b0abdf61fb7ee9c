/**
 The transport runtime of `simulator/src/transport/runtime.cpp`, `progress.cpp` and `failure.cpp`,
 over the event engine. The services of the links are held as values and worked on in place by
 `DirectedLinkService`. Guards that throw `std::logic_error` are `assert` statements here: they are
 proved never to fire.
 */
module Transport {
  import opened Prelude
  import opened Events
  import opened Simulations
  import opened Links
  import opened LinkServices
  import opened Topology
  import opened TransportState
  import opened TransportSteps
  import opened TransportLedger
  import opened TransportModel
  import Timing

  datatype Limits = Limits(maximumChunks: nat, maximumRouteEntries: nat, maximumRouteHops: nat)

  /** Transport handlers leave every other runtime's events alone. */
  ghost predicate SameForeign(live: EventTable, live': EventTable) {
    && (forall e :: e in live && !IsTransport(live[e].payload) ==> e in live' && live'[e] == live[e])
    && (forall e :: e in live' && !IsTransport(live'[e].payload) ==> e in live && live[e] == live'[e])
  }

  /** The same transfers, with the same totals. */
  ghost predicate SameTotals(a: TransferTable, b: TransferTable) {
    && (forall t :: t in a <==> t in b)
    && (forall t :: t in a && t in b ==> b[t].total == a[t].total)
  }

  function PortOwner(g: Graph, port: nat): Option<NodeId> {
    if HasPort(g, port) then Some(g.ports[port].owner) else None
  }

  /** The second arc starts where the first one ends. */
  predicate Contiguous(g: Graph, a: DirectedLinkId, b: DirectedLinkId) {
    && HasLink(g, a.link) && HasLink(g, b.link)
    && PortOwner(g, ArcOf(g, a).destination).Some?
    && PortOwner(g, ArcOf(g, a).destination) == PortOwner(g, ArcOf(g, b).source)
  }

  /** What `validate_route` accepts. */
  ghost predicate RouteOk(g: Graph, links: LinkTable, limits: Limits, route: seq<DirectedLinkId>,
                          source: Option<NodeId>, destination: Option<NodeId>)
  {
    && 0 < |route| <= limits.maximumRouteHops && |route| <= 0xFFFF_FFFF
    && (forall k :: 0 <= k < |route| ==> FabricArc(g, route[k]) && route[k] in links)
    && (forall k :: 0 < k < |route| ==> Contiguous(g, route[k - 1], route[k]))
    && (source.Some? ==> PortOwner(g, ArcOf(g, route[0]).source) == source)
    && (destination.Some? ==> PortOwner(g, ArcOf(g, route[|route| - 1]).destination) == destination)
  }

  /** `validate_capacity`. */
  predicate Fits(limits: Limits, retained: nat, entries: nat, count: nat, hops: nat) {
    && hops <= limits.maximumRouteHops
    && retained + count <= limits.maximumChunks
    && entries <= limits.maximumRouteEntries
    && (hops != 0 ==> count <= (limits.maximumRouteEntries - entries) / hops)
  }

  /** When a chunk alone on its route reaches the end of hop k, if that is representable. */
  ghost function RouteTime(links: LinkTable, bytes: nat, route: seq<DirectedLinkId>, k: nat, now: nat): Option<nat>
    requires k <= |route| && forall i :: 0 <= i < |route| ==> route[i] in links
  {
    if k == 0 then Some(now)
    else
      var before := RouteTime(links, bytes, route, k - 1, now);
      if before == None then None
      else
        var serialized := CompletionTime(links[route[k - 1]].config, bytes, before.value);
        if serialized == None then None else Some(serialized.value + links[route[k - 1]].config.propagation)
  }

  lemma {:induction false} RouteTimeStuck(links: LinkTable, bytes: nat, route: seq<DirectedLinkId>, k: nat, m: nat,
                                          now: nat)
    requires k <= m <= |route| && forall i :: 0 <= i < |route| ==> route[i] in links
    requires RouteTime(links, bytes, route, k, now) == None
    ensures RouteTime(links, bytes, route, m, now) == None
  {
    if k < m {
      RouteTimeStuck(links, bytes, route, k, m - 1, now);
    }
  }

  /** Starting earlier never makes a route unrepresentable. */
  lemma {:induction false} RouteTimeMonotone(links: LinkTable, bytes: nat, route: seq<DirectedLinkId>, k: nat,
                                             early: nat, late: nat)
    requires k <= |route| && early <= late && forall i :: 0 <= i < |route| ==> route[i] in links
    requires RouteTime(links, bytes, route, k, late).Some?
    ensures RouteTime(links, bytes, route, k, early).Some?
    ensures RouteTime(links, bytes, route, k, early).value <= RouteTime(links, bytes, route, k, late).value
  {
    if k > 0 {
      RouteTimeMonotone(links, bytes, route, k - 1, early, late);
    }
  }

  ghost predicate Routed(links: LinkTable, r: ChunkRecord) {
    forall i :: 0 <= i < |r.route| ==> r.route[i] in links
  }

  /** What `register_chunk` accepts. */
  ghost predicate Registrable(f: Fabric, limits: Limits, entries: nat, chunk: TransferChunk,
                              route: seq<DirectedLinkId>) {
    && chunk.bytes > 0 && chunk.hop == 0
    && RouteOk(f.graph, f.links, limits, route, None, None)
    && Fits(limits, |f.chunks|, entries, 1, |route|)
    && RouteTime(f.links, chunk.bytes, route, |route|, 0).Some?
    && chunk.id !in f.chunks
    && (chunk.transfer in f.transfers ==> f.transfers[chunk.transfer].startedAt == None)
  }

  datatype TransferRequest = TransferRequest(
    source: NodeId, destination: NodeId, bytes: nat, maximumChunkBytes: nat, route: seq<DirectedLinkId>)

  /** How many chunks a transfer is cut into. */
  function ChunkCount(request: TransferRequest): nat
    requires request.maximumChunkBytes > 0
  {
    request.bytes / request.maximumChunkBytes + (if request.bytes % request.maximumChunkBytes != 0 then 1 else 0)
  }

  /** All chunks are of full size but a last one that holds the remainder. */
  function ChunkSize(request: TransferRequest, ordinal: nat): nat
    requires request.maximumChunkBytes > 0
  {
    if ordinal < request.bytes / request.maximumChunkBytes then request.maximumChunkBytes
    else request.bytes % request.maximumChunkBytes
  }

  ghost function BytesUpTo(request: TransferRequest, k: nat): nat
    requires request.maximumChunkBytes > 0
  {
    if k == 0 then 0 else BytesUpTo(request, k - 1) + ChunkSize(request, k - 1)
  }

  lemma {:induction false} FullChunks(request: TransferRequest, k: nat)
    requires request.maximumChunkBytes > 0 && k <= request.bytes / request.maximumChunkBytes
    ensures BytesUpTo(request, k) == k * request.maximumChunkBytes
  {
    if k > 0 {
      FullChunks(request, k - 1);
      assert k * request.maximumChunkBytes == (k - 1) * request.maximumChunkBytes + request.maximumChunkBytes;
    }
  }

  /** The chunks of a transfer add up to the transfer. */
  lemma AllBytes(request: TransferRequest)
    requires request.maximumChunkBytes > 0
    ensures BytesUpTo(request, ChunkCount(request)) == request.bytes
  {
    var full := request.bytes / request.maximumChunkBytes;
    FullChunks(request, full);
    assert request.bytes == full * request.maximumChunkBytes + request.bytes % request.maximumChunkBytes;
  }

  lemma SizePositive(request: TransferRequest, ordinal: nat)
    requires request.maximumChunkBytes > 0 && ordinal < ChunkCount(request)
    ensures ChunkSize(request, ordinal) > 0
  {
  }

  lemma FitsNext(limits: Limits, retained: nat, entries: nat, left: nat, hops: nat)
    requires Fits(limits, retained, entries, left, hops) && hops > 0 && left > 0
    ensures Fits(limits, retained, entries, 1, hops)
    ensures Fits(limits, retained + 1, entries + hops, left - 1, hops)
  {
    var free := limits.maximumRouteEntries - entries;
    var q := free / hops;
    Scale(1, q, hops);
    assert q * hops <= free;
    assert (q - 1) * hops == q * hops - hops;
    Timing.QuotientIs(free - hops, hops, q - 1, free % hops);
  }

  /** What `submit_transfer` has checked before it registers the `left` chunks still to come. */
  ghost predicate Checked(f: Fabric, limits: Limits, entries: nat, request: TransferRequest, left: nat, now: nat) {
    && request.bytes > 0 && request.maximumChunkBytes > 0 && left <= ChunkCount(request)
    && RouteOk(f.graph, f.links, limits, request.route, None, None)
    && Fits(limits, |f.chunks|, entries, left, |request.route|)
    && f.chunkIds.CanGenerate(left)
    && (forall k :: 0 <= k < ChunkCount(request) ==>
          RouteTime(f.links, ChunkSize(request, k), request.route, |request.route|, now).Some?)
  }

  /** The chunks registered so far for a fresh transfer, and nothing else. */
  ghost predicate Prepared(f: Fabric, before: TransferTable, t: nat, request: TransferRequest, ids: seq<nat>) {
    && request.maximumChunkBytes > 0
    && t !in before
    && f.transfers == (if ids == [] then before
                       else before[t := TransferRecord(ids, Traffic(BytesUpTo(request, |ids|), |ids|),
                                                       Traffic(0, 0), Traffic(0, 0), Traffic(0, 0), None, None)])
    && (forall k :: 0 <= k < |ids| ==> Enlisted(f, t, request, ids[k], k))
  }

  ghost predicate Enlisted(f: Fabric, t: nat, request: TransferRequest, c: nat, k: nat)
    requires request.maximumChunkBytes > 0
  {
    c in f.chunks && f.chunks[c] ==
      ChunkRecord(TransferChunk(t, c, ChunkSize(request, k), 0, false), request.route, Registered, 0, None)
  }

  lemma PreparedNone(f: Fabric, t: nat, request: TransferRequest)
    requires t !in f.transfers && request.maximumChunkBytes > 0
    ensures Prepared(f, f.transfers, t, request, [])
  {
  }

  lemma PreparedMore(f: Fabric, before: TransferTable, t: nat, request: TransferRequest, ids: seq<nat>, id: nat)
    requires Prepared(f, before, t, request, ids) && id !in f.chunks
    ensures Prepared(Register(f, TransferChunk(t, id, ChunkSize(request, |ids|), 0, false), request.route),
                     before, t, request, ids + [id])
  {
    var g := Register(f, TransferChunk(t, id, ChunkSize(request, |ids|), 0, false), request.route);
    var b := TransferRecord(ids + [id], Traffic(BytesUpTo(request, |ids| + 1), |ids| + 1),
                            Traffic(0, 0), Traffic(0, 0), Traffic(0, 0), None, None);
    assert BytesUpTo(request, |ids| + 1) == BytesUpTo(request, |ids|) + ChunkSize(request, |ids|);
    assert Enrolled(f.transfers, TransferChunk(t, id, ChunkSize(request, |ids|), 0, false)) == b by {
      hide ChunkSize;
      if ids == [] {
        assert BytesUpTo(request, 0) == 0;
      }
    }
    assert g.transfers == before[t := b];
    forall k | 0 <= k < |ids| ensures Enlisted(g, t, request, ids[k], k) {
      assert Enlisted(f, t, request, ids[k], k);
    }
  }

  lemma NextIsFresh(f: Fabric, live: EventTable, now: nat, count: nat, limits: Limits, entries: nat,
                    request: TransferRequest)
    requires FabricOk(f, live, now) && Checked(f, limits, entries, request, count, now) && count > 0
    ensures f.chunkIds.next !in f.chunks && f.chunkIds.next <= U64_MAX
    ensures FabricOk(f.(chunkIds := f.chunkIds.Taken()), live, now)
  {
    hide MotionOk, LedgerOk, SubmittedOk, ArcsOk, RouteOk;
  }

  /** The next chunk of a checked transfer can be registered, and the rest stays checked. */
  lemma CheckedNext(f: Fabric, limits: Limits, entries: nat, request: TransferRequest, now: nat,
                    before: TransferTable, t: nat, ids: seq<nat>, chunk: TransferChunk)
    requires request.maximumChunkBytes > 0 && |ids| < ChunkCount(request)
    requires Checked(f, limits, entries, request, ChunkCount(request) - |ids|, now)
    requires Prepared(f, before, t, request, ids) && chunk.id !in f.chunks
    requires chunk == TransferChunk(t, f.chunkIds.next, ChunkSize(request, |ids|), 0, false)
    ensures var h := f.(chunkIds := f.chunkIds.Taken()); var g := Register(h, chunk, request.route);
            && Registrable(h, limits, entries, chunk, request.route)
            && Checked(g, limits, entries + |request.route|, request, ChunkCount(request) - |ids| - 1, now)
            && Prepared(g, before, t, request, ids + [chunk.id])
  {
    var h := f.(chunkIds := f.chunkIds.Taken());
    PreparedMore(h, before, t, request, ids, chunk.id);
    RouteTimeMonotone(f.links, chunk.bytes, request.route, |request.route|, 0, now);
    hide RouteTime, Contiguous, FabricArc;
    FitsNext(limits, |f.chunks|, entries, ChunkCount(request) - |ids|, |request.route|);
    hide Fits;
    SizePositive(request, |ids|);
    hide ChunkSize, ChunkCount;
  }

  /** One fresh transfer of `bytes` bytes has been added, and nothing else. */
  ghost predicate Entered(before: TransferTable, after: TransferTable, t: nat, bytes: nat) {
    && t !in before && t in after && after == before[t := after[t]]
    && after[t].total.bytes == bytes && after[t].completion == None
  }

  /** A prepared transfer whose first i chunks have been launched. */
  ghost predicate Launching(f: Fabric, t: nat, request: TransferRequest, ids: seq<nat>, i: nat, now: nat) {
    && request.maximumChunkBytes > 0 && |ids| == ChunkCount(request) && i <= |ids|
    && t in f.transfers && f.transfers[t].chunks == ids
    && f.transfers[t].startedAt == (if i == 0 then None else Some(now))
    && (forall j, k :: 0 <= j < k < |ids| ==> ids[j] != ids[k])
    && (forall k :: 0 <= k < |request.route| ==> request.route[k] in f.links)
    && (forall k :: 0 <= k < |ids| ==>
          RouteTime(f.links, ChunkSize(request, k), request.route, |request.route|, now).Some?)
    && (forall k :: 0 <= k < |ids| ==> Lined(f, t, request, ids[k], k, k < i))
  }

  ghost predicate Lined(f: Fabric, t: nat, request: TransferRequest, c: nat, k: nat, launched: bool)
    requires request.maximumChunkBytes > 0
  {
    && c in f.chunks
    && f.chunks[c].chunk == TransferChunk(t, c, ChunkSize(request, k), 0, false)
    && f.chunks[c].route == request.route
    && f.chunks[c].state == (if launched then AwaitingArrival else Registered)
  }

  lemma LaunchingFacts(f: Fabric, t: nat, request: TransferRequest, ids: seq<nat>, i: nat, now: nat)
    requires Launching(f, t, request, ids, i, now)
    ensures t in f.transfers
    ensures i < |ids| ==>
              && ids[i] in f.chunks && f.chunks[ids[i]].state == Registered && Routed(f.links, f.chunks[ids[i]])
              && RouteTime(f.links, f.chunks[ids[i]].chunk.bytes, f.chunks[ids[i]].route,
                           |f.chunks[ids[i]].route|, now).Some?
  {
    hide RouteTime;
    if i < |ids| {
      assert Lined(f, t, request, ids[i], i, i < i);
    }
  }

  lemma LaunchingNext(f: Fabric, t: nat, request: TransferRequest, ids: seq<nat>, i: nat, now: nat, event: nat)
    requires Launching(f, t, request, ids, i, now) && i < |ids|
    requires ids[i] in f.chunks && f.chunks[ids[i]].chunk.transfer in f.transfers
    ensures f.chunks[ids[i]].chunk.transfer == t
    ensures Launching(Launch(f, ids[i], now, event), t, request, ids, i + 1, now)
    ensures Launch(f, ids[i], now, event).transfers ==
            f.transfers[t := f.transfers[t].(startedAt := Some(now))]
  {
    hide RouteTime;
    assert Lined(f, t, request, ids[i], i, i < i);
    var g := Launch(f, ids[i], now, event);
    forall k | 0 <= k < |ids| ensures Lined(g, t, request, ids[k], k, k < i + 1) {
      assert Lined(f, t, request, ids[k], k, k < i);
      assert k != i ==> ids[k] != ids[i];
    }
  }

  lemma RouteConfigured(g: Graph, links: LinkTable, limits: Limits, route: seq<DirectedLinkId>,
                        source: Option<NodeId>, destination: Option<NodeId>)
    requires RouteOk(g, links, limits, route, source, destination)
    ensures forall i :: 0 <= i < |route| ==> route[i] in links
    ensures RouteOk(g, links, limits, route, None, None)
  {
  }

  /** The checks on full chunks and on the remainder cover every chunk. */
  lemma AllChecked(f: Fabric, limits: Limits, entries: nat, request: TransferRequest, now: nat)
    requires request.bytes > 0 && request.maximumChunkBytes > 0
    requires RouteOk(f.graph, f.links, limits, request.route, None, None)
    requires forall i :: 0 <= i < |request.route| ==> request.route[i] in f.links
    requires Fits(limits, |f.chunks|, entries, ChunkCount(request), |request.route|)
    requires f.chunkIds.CanGenerate(ChunkCount(request))
    requires request.bytes / request.maximumChunkBytes != 0 ==>
               RouteTime(f.links, request.maximumChunkBytes, request.route, |request.route|, now).Some?
    requires request.bytes % request.maximumChunkBytes != 0 ==>
               RouteTime(f.links, request.bytes % request.maximumChunkBytes, request.route, |request.route|, now).Some?
    ensures Checked(f, limits, entries, request, ChunkCount(request), now) && ChunkCount(request) > 0
  {
    hide RouteTime, RouteOk, Fits;
    if request.bytes / request.maximumChunkBytes == 0 {
      Timing.QuotientIs(request.bytes, request.maximumChunkBytes, 0, request.bytes % request.maximumChunkBytes);
      assert request.bytes == request.bytes % request.maximumChunkBytes;
    }
  }

  lemma TransferIsFresh(f: Fabric, live: EventTable, now: nat, limits: Limits, entries: nat, request: TransferRequest)
    requires FabricOk(f, live, now) && f.transferIds.CanGenerate(1)
    requires Checked(f, limits, entries, request, ChunkCountOf(request), now)
    ensures f.transferIds.next !in f.transfers && f.transferIds.next <= U64_MAX
    ensures FabricOk(f.(transferIds := f.transferIds.Taken()), live, now)
    ensures Checked(f.(transferIds := f.transferIds.Taken()), limits, entries, request, ChunkCountOf(request), now)
  {
    hide MotionOk, LedgerOk, SubmittedOk, ArcsOk, RouteOk, RouteTime, Fits;
  }

  ghost function ChunkCountOf(request: TransferRequest): nat {
    if request.maximumChunkBytes > 0 then ChunkCount(request) else 0
  }

  lemma PreparedLaunches(f: Fabric, live: EventTable, before: TransferTable, t: nat, request: TransferRequest,
                         ids: seq<nat>, limits: Limits, entries: nat, now: nat)
    requires Prepared(f, before, t, request, ids) && |ids| == ChunkCountOf(request) > 0
    requires FabricOk(f, live, now) && Checked(f, limits, entries, request, 0, now)
    ensures Launching(f, t, request, ids, 0, now)
    ensures Entered(before, f.transfers, t, request.bytes)
  {
    hide *;
    PreparedRecord(f, before, t, request, ids);
    ChunksDiffer(f, live, now, t);
    PreparedLined(f, before, t, request, ids);
    LaunchingFirst(f, t, request, ids, limits, entries, now);
  }

  lemma PreparedLined(f: Fabric, before: TransferTable, t: nat, request: TransferRequest, ids: seq<nat>)
    requires Prepared(f, before, t, request, ids)
    ensures forall k :: 0 <= k < |ids| ==> Lined(f, t, request, ids[k], k, false)
  {
    hide ChunkSize;
    forall k | 0 <= k < |ids| ensures Lined(f, t, request, ids[k], k, false) {
      assert Enlisted(f, t, request, ids[k], k);
    }
  }

  lemma LaunchingFirst(f: Fabric, t: nat, request: TransferRequest, ids: seq<nat>, limits: Limits, entries: nat,
                       now: nat)
    requires Checked(f, limits, entries, request, 0, now) && |ids| == ChunkCountOf(request)
    requires t in f.transfers && f.transfers[t].chunks == ids && f.transfers[t].startedAt == None
    requires forall j, k :: 0 <= j < k < |ids| ==> ids[j] != ids[k]
    requires forall k :: 0 <= k < |ids| ==> Lined(f, t, request, ids[k], k, false)
    ensures Launching(f, t, request, ids, 0, now)
  {
    hide RouteTime, RouteOk, Lined, Fits, ChunkSize, ChunkCount;
    RouteConfigured(f.graph, f.links, limits, request.route, None, None);
  }

  lemma PreparedRecord(f: Fabric, before: TransferTable, t: nat, request: TransferRequest, ids: seq<nat>)
    requires Prepared(f, before, t, request, ids) && |ids| == ChunkCountOf(request) > 0
    ensures request.maximumChunkBytes > 0 && t in f.transfers
    ensures Entered(before, f.transfers, t, request.bytes)
    ensures f.transfers[t].chunks == ids && f.transfers[t].startedAt == None
  {
    AllBytes(request);
    hide Enlisted, BytesUpTo, ChunkCount;
  }

  lemma ChunksDiffer(f: Fabric, live: EventTable, now: nat, t: nat)
    requires FabricOk(f, live, now) && t in f.transfers
    ensures forall i, j :: 0 <= i < j < |f.transfers[t].chunks| ==> f.transfers[t].chunks[i] != f.transfers[t].chunks[j]
  {
    hide MotionOk, IdsOk, SubmittedOk, ArcsOk;
    assert AccountOk(t, f.transfers[t], f.chunks);
  }

  /** A launched transfer may be recorded as submitted. */
  lemma SubmittedNow(f: Fabric, live: EventTable, now: nat, t: nat, request: TransferRequest, ids: seq<nat>)
    requires FabricOk(f, live, now) && |ids| > 0 && Launching(f, t, request, ids, |ids|, now)
    ensures FabricOk(f.(submitted := f.submitted + {t}), live, now)
  {
    hide MotionOk, LedgerOk, ArcsOk, RouteTime;
    forall k | 0 <= k < |ids| ensures ids[k] in f.chunks && f.chunks[ids[k]].state != Registered {
      assert Lined(f, t, request, ids[k], k, k < |ids|);
    }
  }

  lemma ForeignWith(live: EventTable, event: Event)
    requires event.id !in live && IsTransport(event.payload)
    ensures SameForeign(live, live[event.id := event])
  {
  }

  lemma ForeignTransitive(a: EventTable, b: EventTable, c: EventTable)
    requires SameForeign(a, b) && SameForeign(b, c)
    ensures SameForeign(a, c)
  {
  }

  /** Taking the dispatched event back out of the queue it came from. */
  lemma Redispatched(live: EventTable, event: Event)
    requires event.id !in live
    ensures live[event.id := event] - {event.id} == live
  {
  }

  predicate LimitsOk(limits: Limits) {
    limits.maximumChunks > 0 && limits.maximumRouteEntries > 0 && limits.maximumRouteHops > 0
  }

  /** `validate_configuration`. */
  predicate ConfigurationOk(c: LinkConfiguration) {
    c.bandwidth != 0 && (c.threshold.Some? ==> 0 < c.threshold.value <= c.capacity)
  }

  ghost predicate ConfigurationsOk(g: Graph, configurations: seq<LinkConfiguration>) {
    && (forall i :: 0 <= i < |configurations| ==>
          FabricArc(g, configurations[i].arc) && ConfigurationOk(configurations[i]))
    && (forall i, j :: 0 <= i < j < |configurations| ==> configurations[i].arc != configurations[j].arc)
  }

  /** Links that have carried nothing. */
  ghost predicate AllIdle(g: Graph, links: LinkTable) {
    forall a :: a in links ==> FabricArc(g, a) && links[a] == Idle(links[a].config) && links[a].config.arc == a
  }

  lemma IdleLinks(g: Graph, links: LinkTable, now: nat)
    requires AllIdle(g, links)
    ensures LinksOk(links, now) && forall a :: a in links ==> links[a].Contents() == [] && links[a].completion == None
  {
    forall a | a in links
      ensures LinkOk(links[a]) && Recorded(links[a], now) && links[a].Contents() == [] && links[a].completion == None
    {
      RecordedIdle(links[a].config, now);
    }
    hide LinkOk, FabricArc, Recorded;
  }

  /** A runtime that nothing has been submitted to. */
  lemma EmptyFabric(f: Fabric, now: nat)
    requires f.chunks == map[] && f.transfers == map[] && f.emitted == [] && f.submitted == {}
    requires f.chunkIds == IdGenerator(0, false) && f.transferIds == IdGenerator(0, false)
    requires AllIdle(f.graph, f.links)
    ensures FabricOk(f, map[], now)
  {
    hide MotionOk, LedgerOk;
    EmptyMotion(f.graph, f.links, now);
    EmptyLedger();
    hide FabricArc, ArcUp;
  }

  lemma EmptyMotion(g: Graph, links: LinkTable, now: nat)
    requires AllIdle(g, links)
    ensures MotionOk(map[], links, map[], now) && forall a :: a in links ==> links[a].Contents() == []
  {
    IdleLinks(g, links, now);
    hide LinksOk, FabricArc, Recorded, LinkOk;
  }

  lemma EmptyLedger()
    ensures LedgerOk(map[], map[], [])
  {
  }

  datatype Snapshot = Snapshot(
    record: TransferRecord, registered: Traffic, awaiting: Traffic, waiting: Traffic, active: Traffic,
    propagating: Traffic)

  /** The snapshot accounts for the first k chunks of its transfer. */
  ghost predicate Shares(s: Snapshot, k: nat, chunks: ChunkTable, links: LinkTable) {
    && k <= |s.record.chunks| && (forall i :: 0 <= i < |s.record.chunks| ==> s.record.chunks[i] in chunks)
    && s.registered == Share(s.record.chunks[..k], chunks, links, Unlaunched)
    && s.awaiting == Share(s.record.chunks[..k], chunks, links, Initial)
    && s.waiting == Share(s.record.chunks[..k], chunks, links, Delayed)
    && s.active == Share(s.record.chunks[..k], chunks, links, Active)
    && s.propagating == Share(s.record.chunks[..k], chunks, links, InFlight)
  }

  function Counted(s: Snapshot, category: Category, count: Traffic): Snapshot {
    match category
    case Unlaunched => s.(registered := s.registered.Plus(count))
    case Initial => s.(awaiting := s.awaiting.Plus(count))
    case Active => s.(active := s.active.Plus(count))
    case Delayed => s.(waiting := s.waiting.Plus(count))
    case InFlight => s.(propagating := s.propagating.Plus(count))
    case Past => s
  }

  lemma SharesNext(s: Snapshot, s': Snapshot, k: nat, chunks: ChunkTable, links: LinkTable)
    requires Shares(s, k, chunks, links) && k < |s.record.chunks|
    requires var c := s.record.chunks[k]; s' == Counted(s, CategoryOf(c, chunks[c], links), One(chunks[c].chunk))
    ensures Shares(s', k + 1, chunks, links)
  {
    hide Share, CategoryOf;
    ShareNext(s.record.chunks, k, chunks, links, Unlaunched);
    ShareNext(s.record.chunks, k, chunks, links, Initial);
    ShareNext(s.record.chunks, k, chunks, links, Delayed);
    ShareNext(s.record.chunks, k, chunks, links, Active);
    ShareNext(s.record.chunks, k, chunks, links, InFlight);
  }

  /** Where the arrival of a chunk leads: delivery, a drop, or the queue of its next link. */
  ghost predicate LedTo(f: Fabric, f': Fabric, c: nat, now: nat) {
    && c in f.chunks && f.chunks[c].chunk.transfer in f.transfers
    && var r := f.chunks[c];
    if r.hop >= |r.route| then f' == EndChunk(f, c, Ended(r, Delivered), now)
    else
      var a := r.route[r.hop];
      && a in f.links
      && if !ArcUp(f.graph, a) then
           f' == EndChunk(f.(links := f.links[a := Refused(f.links[a], r.chunk)]), c, Ended(r, LostLinkDown), now)
         else if Decide(f.links[a].config, f.links[a].queue, r.chunk.bytes).disposition == DroppedBufferFull then
           f' == EndChunk(f.(links := f.links[a := Admitted(f.links[a], r.chunk.(hop := r.hop), now, 0)]), c,
                          Ended(r, LostBufferFull), now)
         else exists event: nat :: f' == Join(f, c, a, now, event)
  }

  lemma ArrivedJoin(f: Fabric, c: nat, a: DirectedLinkId, now: nat, event: nat)
    requires c in f.chunks && f.chunks[c].chunk.transfer in f.transfers && f.chunks[c].hop < |f.chunks[c].route|
    requires a == f.chunks[c].route[f.chunks[c].hop] && a in f.links && ArcUp(f.graph, a)
    requires Decide(f.links[a].config, f.links[a].queue, f.chunks[c].chunk.bytes).disposition != DroppedBufferFull
    ensures LedTo(f, Join(f, c, a, now, event), c, now)
  {
    hide ArcUp, Decide, Join;
  }

  lemma ArrivedDropped(f: Fabric, c: nat, a: DirectedLinkId, now: nat, event: nat)
    requires c in f.chunks && f.chunks[c].chunk.transfer in f.transfers && f.chunks[c].hop < |f.chunks[c].route|
    requires a == f.chunks[c].route[f.chunks[c].hop] && a in f.links && ArcUp(f.graph, a)
    requires Decide(f.links[a].config, f.links[a].queue, f.chunks[c].chunk.bytes).disposition == DroppedBufferFull
    ensures var r := f.chunks[c];
            var links := f.links[a := Admitted(f.links[a], r.chunk.(hop := r.hop), now, event)];
            LedTo(f, EndChunk(f.(links := links), c, Ended(r, LostBufferFull), now), c, now)
  {
    var chunk := f.chunks[c].chunk.(hop := f.chunks[c].hop);
    AdmittedDropped(f.links[a], chunk, now, event);
    AdmittedDropped(f.links[a], chunk, now, 0);
    hide ArcUp, Decide, Admitted, EndChunk;
  }

  lemma JoinIs(f: Fabric, c: nat, a: DirectedLinkId, now: nat, event: nat)
    requires c in f.chunks && a in f.links
    ensures var chunk := f.chunks[c].chunk.(hop := f.chunks[c].hop);
            var admission := Decide(f.links[a].config, f.links[a].queue, chunk.bytes);
            Join(f, c, a, now, event) == f.(chunks := f.chunks[c := Seat(f.chunks[c], admission)],
                                            links := f.links[a := Admitted(f.links[a], chunk, now, event)])
  {
  }

  /** The head of a link's queue moves on, and the next chunk of the queue starts service. */
  ghost predicate Propagated(f: Fabric, f': Fabric, p: Payload, now: nat) {
    && p.TransmissionComplete? && p.arc in f.links && p.chunk in f.chunks && CanServe(f.links[p.arc], now)
    && exists next: nat, arrival: nat :: f' == Serve(f, p.arc, p.chunk, now, next, arrival)
  }

  /** The chunk is on a link that is not operational. */
  predicate Stranded(g: Graph, r: ChunkRecord) {
    r.state == InLink && r.hop < |r.route| && !ArcUp(g, r.route[r.hop])
  }

  /** Only links that are not operational were drained, and only chunks stranded on them dropped. */
  ghost predicate Spared(g: Graph, chunks: ChunkTable, links: LinkTable, chunks': ChunkTable, links': LinkTable) {
    && (forall a :: a in links <==> a in links')
    && (forall a :: a in links && a in links' && ArcUp(g, a) ==> links'[a] == links[a])
    && (forall c :: c in chunks <==> c in chunks')
    && (forall c :: c in chunks && c in chunks' ==>
          chunks'[c] == chunks[c] || (Stranded(g, chunks[c]) && chunks'[c] == chunks[c].(state := LostLinkDown)))
  }

  lemma SparedSame(g: Graph, chunks: ChunkTable, links: LinkTable)
    ensures Spared(g, chunks, links, chunks, links)
  {
  }

  lemma SparedTransitive(
    g: Graph, chunks: ChunkTable, links: LinkTable, chunks': ChunkTable, links': LinkTable, chunks'': ChunkTable,
    links'': LinkTable)
    requires Spared(g, chunks, links, chunks', links') && Spared(g, chunks', links', chunks'', links'')
    ensures Spared(g, chunks, links, chunks'', links'')
  {
    hide ArcUp;
  }

  /** Marking a chunk that sits on a link that is not operational. */
  lemma SparedMark(g: Graph, chunks: ChunkTable, links: LinkTable, a: DirectedLinkId, chunk: TransferChunk)
    requires Sits(chunks, a, chunk) && !ArcUp(g, a)
    ensures Spared(g, chunks, links,
                   chunks[chunk.id := chunks[chunk.id].(chunk := chunk, state := LostLinkDown)], links)
  {
    hide ArcUp;
  }

  lemma SparedDrain(g: Graph, chunks: ChunkTable, links: LinkTable, a: DirectedLinkId, l: Link)
    requires a in links && !ArcUp(g, a)
    ensures Spared(g, chunks, links, chunks, links[a := l])
  {
    hide ArcUp;
  }

  class TransportRuntime {
    const limits: Limits
    var graph: Graph
    var routeEntries: nat
    var chunks: ChunkTable
    var transfers: TransferTable
    var services: LinkTable
    var completions: seq<Completion>
    var chunkIds: IdGenerator
    var transferIds: IdGenerator
    ghost var taken: seq<Completion>
    ghost var submitted: set<nat>

    constructor (topology: Graph, links: LinkTable, limits: Limits)
      requires AllIdle(topology, links)
      ensures forall now: nat :: Valid(map[], now)
      ensures graph == topology && services == links && chunks == map[] && transfers == map[] && completions == []
      ensures taken == [] && submitted == {}
    {
      this.limits, graph, services, routeEntries := limits, topology, links, 0;
      chunks, transfers, completions := map[], map[], [];
      chunkIds, transferIds := IdGenerator(0, false), IdGenerator(0, false);
      taken, submitted := [], {};
      new;
      hide FabricOk;
      forall now: nat ensures Valid(map[], now) {
        EmptyFabric(View(), now);
      }
    }

    /** The constructor: limits are positive and each configuration names a distinct fabric arc. */
    static method Create(topology: Graph, configurations: seq<LinkConfiguration>, limits: Limits)
      returns (r: Result<TransportRuntime>)
      ensures r.Ok? <==> LimitsOk(limits) && ConfigurationsOk(topology, configurations)
      ensures r.Throw? ==> r.error == InvalidArgument
      ensures r.Ok? ==> fresh(r.value) && r.value.graph == topology && forall now: nat :: r.value.Valid(map[], now)
      ensures r.Ok? ==> r.value.transfers == map[] && r.value.submitted == {} && r.value.completions == []
                        && r.value.taken == []
      ensures r.Ok? ==> forall i :: 0 <= i < |configurations| ==>
                          configurations[i].arc in r.value.services
                          && r.value.services[configurations[i].arc] == Idle(configurations[i])
    {
      if !LimitsOk(limits) {
        return Throw(InvalidArgument);
      }
      var links: LinkTable := map[];
      for i := 0 to |configurations|
        invariant ConfigurationsOk(topology, configurations[..i])
        invariant forall a :: a in links <==> exists j :: 0 <= j < i && configurations[j].arc == a
        invariant forall j :: 0 <= j < i ==> links[configurations[j].arc] == Idle(configurations[j])
      {
        var configuration := configurations[i];
        if !FabricArc(topology, configuration.arc) || !ConfigurationOk(configuration) || configuration.arc in links {
          return Throw(InvalidArgument);
        }
        links := links[configuration.arc := Idle(configuration)];
        assert configurations[..i + 1] == configurations[..i] + [configuration];
      }
      assert configurations[..|configurations|] == configurations;
      var runtime := new TransportRuntime(topology, links, limits);
      return Ok(runtime);
    }

    ghost function View(): Fabric
      reads this
    {
      Fabric(chunks, transfers, services, graph, taken + completions, submitted, chunkIds, transferIds)
    }

    ghost predicate Valid(live: EventTable, now: nat)
      reads this
    {
      FabricOk(View(), live, now) && Retained()
    }

    /** The retained-state limits are respected. */
    ghost predicate Retained()
      reads this
    {
      |chunks| <= limits.maximumChunks && routeEntries <= limits.maximumRouteEntries
    }

    /** `record_terminal` for a chunk whose record has just become terminal. */
    method RecordTerminal(c: nat, now: nat)
      requires c in chunks && chunks[c].state.Terminal()
      requires chunks[c].chunk.transfer in transfers && transfers[chunks[c].chunk.transfer].completion == None
      requires var t := chunks[c].chunk.transfer;
               var b := Settled(t, transfers[t], One(chunks[c].chunk), chunks[c].state, now);
               b.completion.Some? ==> b.delivered.bytes + b.bufferFull.bytes + b.linkDown.bytes == b.total.bytes
      modifies this`transfers, this`completions
      ensures View() == EndChunk(old(View()), c, chunks[c], now)
      ensures old(completions) <= completions && SameTotals(old(transfers), transfers)
    {
      var record := chunks[c];
      var t := record.chunk.transfer;
      var transfer := transfers[t];
      assert transfer.completion == None;
      var count := Traffic(record.chunk.bytes, 1);
      match record.state {
        case Delivered => transfer := transfer.(delivered := transfer.delivered.Plus(count));
        case LostBufferFull => transfer := transfer.(bufferFull := transfer.bufferFull.Plus(count));
        case LostLinkDown => transfer := transfer.(linkDown := transfer.linkDown.Plus(count));
      }
      var drops := transfer.bufferFull.Plus(transfer.linkDown);
      var terminal := transfer.delivered.Plus(drops);
      if terminal.chunks == transfer.total.chunks {
        assert terminal.bytes == transfer.total.bytes;
        var completion := Completion(t, drops.chunks == 0, now, transfer.delivered, transfer.bufferFull,
                                     transfer.linkDown);
        assert taken + (completions + [completion]) == (taken + completions) + [completion];
        completions := completions + [completion];
        transfer := transfer.(completion := Some(completion));
      }
      transfers := transfers[t := transfer];
      assert View().chunks == old(View()).chunks[c := record];
    }

    /** A chunk's record becomes terminal and its transfer settles it. */
    method EndRecord(c: nat, record: ChunkRecord, now: nat)
      requires c in chunks && Settleable(View(), record, now) && Retained()
      modifies this`chunks, this`transfers, this`completions
      ensures View() == EndChunk(old(View()), c, record, now) && Retained()
      ensures old(completions) <= completions && SameTotals(old(transfers), transfers)
    {
      hide Settled, SameTotals;
      SameSize(chunks, c, record);
      chunks := chunks[c := record];
      RecordTerminal(c, now);
    }

    /** `DirectedLinkService::admit` on a configured link. */
    method AdmitTo(ctx: Simulation, arc: DirectedLinkId, chunk: TransferChunk, ghost dispatched: nat)
      returns (r: Result<Admission>, ghost event: Event)
      requires ctx.Valid() && ctx.lifecycle == Running && dispatched < ctx.View().issued
      requires arc in services && services[arc].config.arc == arc && LinkOk(services[arc]) && chunk.bytes > 0
      modifies this`services, ctx`nextEventId, ctx`idsExhausted, ctx`queue
      ensures ctx.Valid()
      ensures r.Throw? ==> r.error == OverflowError
      ensures r.Ok? ==>
                && ctx.Valid()
                && r.value == Decide(old(services)[arc].config, old(services)[arc].queue, chunk.bytes)
                && services == old(services)[arc := Admitted(old(services)[arc], chunk, ctx.now, event.id)]
                && event.payload == TransmissionComplete(arc, chunk.id, chunk.hop)
                && event.id !in old(ctx.Live()) && event.id != dispatched
                && ctx.Live() == (if old(services)[arc].queue.active == None then old(ctx.Live())[event.id := event]
                                  else old(ctx.Live()))
    {
      hide EngineOk, LinkOk, Admitted, Decide, Simulation.Valid;
      var service := new DirectedLinkService(services[arc]);
      r, event := service.Admit(ctx, chunk, dispatched);
      if r.Ok? {
        services := services[arc := service.View()];
      }
    }

    /** `handle_arrival`; `event` has just been taken off the queue. */
    method HandleArrival(ctx: Simulation, event: Event) returns (r: Result<()>)
      requires ctx.Valid() && ctx.lifecycle == Running && event.id < ctx.View().issued
      requires event.payload.ChunkArrival? && event.id !in ctx.Live()
      requires Valid(ctx.Live()[event.id := event], ctx.now)
      modifies this`chunks, this`transfers, this`services, this`completions
      modifies ctx`nextEventId, ctx`idsExhausted, ctx`queue
      ensures ctx.Valid()
      ensures r.Throw? ==> r.error == OverflowError
      ensures r.Ok? ==> ctx.Valid() && Valid(ctx.Live(), ctx.now) && SameForeign(old(ctx.Live()), ctx.Live())
      ensures r.Ok? ==> old(completions) <= completions && SameTotals(old(transfers), transfers)
      ensures r.Ok? ==> LedTo(old(View()), View(), event.payload.chunk, ctx.now)
    {
      hide FabricOk, ArcUp, SameForeign, SameTotals, Settled, Decide, Admitted, LinkOk, Recorded, Simulation.Valid,
           Simulation.Live, Simulation.View;
      ghost var live := ctx.Live()[event.id := event];
      Redispatched(ctx.Live(), event);
      ForeignSame(ctx.Live());
      TotalsSame(transfers);
      ghost var f := View();
      var c := event.payload.chunk;
      ArrivalGuard(f, live, ctx.now, event.id);
      assert c in chunks;
      var record := chunks[c];
      assert record.state == AwaitingArrival && record.arrival == Some(event.id) && record.hop == event.payload.hop;
      if event.payload.hop == |record.route| {
        ArriveAndEnd(f, live, ctx.now, event.id, Delivered, services);
        EndRecord(c, Ended(record, Delivered), ctx.now);
        return Ok(());
      }
      var arc := record.route[event.payload.hop];
      assert FabricArc(graph, arc) && arc in services;
      if !ArcUp(graph, arc) {
        LinkFacts(f, live, ctx.now, arc);
        RecordedRefusal(services[arc], record.chunk, ctx.now);
        var service := new DirectedLinkService(services[arc]);
        service.RecordLinkDown(record.chunk);
        services := services[arc := service.View()];
        ArriveAndEnd(f, live, ctx.now, event.id, LostLinkDown, services);
        EndRecord(c, Ended(record, LostLinkDown), ctx.now);
        return Ok(());
      }
      r := Admit(ctx, event, arc);
    }

    /** The rest of `handle_arrival`: the chunk's next link is operational. */
    method Admit(ctx: Simulation, event: Event, arc: DirectedLinkId) returns (r: Result<()>)
      requires ctx.Valid() && ctx.lifecycle == Running && event.id < ctx.View().issued
      requires event.payload.ChunkArrival? && event.id !in ctx.Live()
      requires Valid(ctx.Live()[event.id := event], ctx.now)
      requires event.payload.chunk in chunks && event.payload.hop < |chunks[event.payload.chunk].route|
      requires chunks[event.payload.chunk].hop == event.payload.hop
      requires arc == chunks[event.payload.chunk].route[event.payload.hop] && arc in services && ArcUp(graph, arc)
      modifies this`chunks, this`transfers, this`services, this`completions
      modifies ctx`nextEventId, ctx`idsExhausted, ctx`queue
      ensures ctx.Valid()
      ensures r.Throw? ==> r.error == OverflowError
      ensures r.Ok? ==> ctx.Valid() && Valid(ctx.Live(), ctx.now) && SameForeign(old(ctx.Live()), ctx.Live())
      ensures r.Ok? ==> old(completions) <= completions && SameTotals(old(transfers), transfers)
      ensures r.Ok? ==> LedTo(old(View()), View(), event.payload.chunk, ctx.now)
    {
      hide FabricOk, ArcUp, SameForeign, SameTotals, Settled, Decide, Admitted, RecordOk, LinkOk, Recorded,
           Simulation.Valid, Simulation.Live, Simulation.View;
      ghost var before := ctx.Live();
      ghost var live := before[event.id := event];
      Redispatched(before, event);
      ForeignSame(before);
      TotalsSame(transfers);
      ghost var f := View();
      var c := event.payload.chunk;
      ArrivalGuard(f, live, ctx.now, event.id);
      var record := chunks[c];
      LinkFacts(f, live, ctx.now, arc);
      var chunk := record.chunk.(hop := event.payload.hop);
      var admission, started := AdmitTo(ctx, arc, chunk, event.id);
      if admission.Throw? {
        return Throw(OverflowError);
      }
      if admission.value.disposition == DroppedBufferFull {
        AdmittedDropped(f.links[arc], chunk, ctx.now, started.id);
        RecordedAdmission(f.links[arc], chunk, ctx.now, started.id);
        ArriveAndEnd(f, live, ctx.now, event.id, LostBufferFull, services);
        EndRecord(c, Ended(record, LostBufferFull), ctx.now);
        DroppedIsBusy(f.links[arc], chunk);
        ArrivedDropped(f, c, arc, ctx.now, started.id);
        return Ok(());
      }
      ArriveAndJoin(f, live, ctx.now, event.id, c, arc, started);
      chunks := chunks[c := Seat(record, admission.value)];
      JoinIs(f, c, arc, ctx.now, started.id);
      assert View() == Join(f, c, arc, ctx.now, started.id);
      ArrivedJoin(f, c, arc, ctx.now, started.id);
      ForeignWith(before, started);
      return Ok(());
    }

    /** `DirectedLinkService::handle_completion` on a link whose completion has just been dispatched. */
    method CompleteOn(ctx: Simulation, dispatched: nat, p: Payload)
      returns (r: Result<()>, ghost next: Event)
      requires ctx.Valid() && ctx.lifecycle == Running && dispatched < ctx.View().issued
      requires p.TransmissionComplete? && p.arc in services && LinkOk(services[p.arc])
      requires CanServe(services[p.arc], ctx.now) && Awaits(services[p.arc], dispatched, p)
      modifies this`services, ctx`nextEventId, ctx`idsExhausted, ctx`queue
      ensures ctx.Valid()
      ensures r.Throw? ==> r.error == OverflowError
      ensures r.Ok? ==>
                var link := old(services)[p.arc];
                && services == old(services)[p.arc := Served(link, ctx.now, Following(link, next.id))]
                && next.id !in old(ctx.Live()) && next.id != dispatched && next.id < ctx.View().issued + 1
                && dispatched < old(ctx.View()).issued <= ctx.View().issued
                && (if link.queue.waiting == [] then ctx.Live() == old(ctx.Live()) && next.id == ctx.View().issued
                    else
                      var waiting := link.queue.waiting[0];
                      && next.payload == TransmissionComplete(p.arc, waiting.id, waiting.hop)
                      && ctx.Live() == old(ctx.Live())[next.id := next] && next.id < ctx.View().issued)
    {
      hide EngineOk, LinkOk, Served, Simulation.Valid;
      var service := new DirectedLinkService(services[p.arc]);
      r, next := service.HandleCompletion(ctx, dispatched, p);
      if r.Ok? {
        services := services[p.arc := service.View()];
      }
    }

    /** `handle_completion`; `event` has just been taken off the queue. */
    method HandleCompletion(ctx: Simulation, event: Event) returns (r: Result<()>)
      requires ctx.Valid() && ctx.lifecycle == Running && event.id < ctx.View().issued
      requires event.payload.TransmissionComplete? && event.id !in ctx.Live()
      requires Valid(ctx.Live()[event.id := event], ctx.now)
      modifies this`chunks, this`services
      modifies ctx`nextEventId, ctx`idsExhausted, ctx`queue
      ensures ctx.Valid()
      ensures r.Throw? ==> r.error == OverflowError
      ensures r.Ok? ==> ctx.Valid() && Valid(ctx.Live(), ctx.now) && SameForeign(old(ctx.Live()), ctx.Live())
      ensures r.Ok? ==> Propagated(old(View()), View(), event.payload, ctx.now)
    {
      hide FabricOk, SameForeign, LinkOk, Served, AfterServing, ServiceEvents, Following, Simulation.Valid,
           Simulation.Live, Simulation.View;
      ghost var before := ctx.Live();
      ghost var live := before[event.id := event];
      ghost var f := View();
      LiveKnown(ctx);
      var p := event.payload;
      CompletionGuard(f, live, ctx.now, event.id);
      assert p.chunk in chunks;
      var record := chunks[p.chunk];
      assert record.state == InLink && record.hop == p.hop < |record.route| && record.route[p.hop] == p.arc;
      var link := services[p.arc];
      if ctx.now + link.config.propagation > U64_MAX {
        return Throw(OverflowError);
      }
      assert link.completion == Some(event.id) && link.queue.active.Some? && link.config.arc == p.arc;
      assert link.queue.active.value.id == p.chunk && link.queue.active.value.hop == p.hop;
      ghost var next: Event;
      r, next := CompleteOn(ctx, event.id, p);
      if r.Throw? {
        return;
      }
      var arrival := ctx.ContextSchedule(ctx.now + link.config.propagation, Normal,
                                         ChunkArrival(p.chunk, record.hop + 1));
      if arrival.Throw? {
        return Throw(OverflowError);
      }
      if link.queue.waiting == [] {
        next := next.(id := arrival.value.id + event.id + 1);
        FollowingNone(link, arrival.value.id, next.id);
      }
      ServingEvents(link, before, event, next, arrival.value);
      ServeKeeps(f, live, ctx.now, event.id, p, next, arrival.value);
      chunks := chunks[p.chunk := Propagating(record, arrival.value.id)];
      assert View() == Serve(f, p.arc, p.chunk, ctx.now, next.id, arrival.value.id);
      assert Propagated(f, View(), p, ctx.now);
      return Ok(());
    }

    /** `mark_dropped_link_down`: every chunk drained from an arc is settled as dropped. */
    method MarkDropped(drained: seq<TransferChunk>, arc: DirectedLinkId, now: nat, ghost live: EventTable,
                       ghost stale: set<DirectedLinkId>)
      requires RestOk(View(), stale) && DrainingOk(chunks, services, live, now, arc, drained) && Retained()
      requires !ArcUp(graph, arc)
      modifies this`chunks, this`transfers, this`completions
      ensures RestOk(View(), stale) && MotionOk(chunks, services, live, now) && Retained()
      ensures old(completions) <= completions && SameTotals(old(transfers), transfers)
      ensures Spared(graph, old(chunks), services, chunks, services)
    {
      hide RestOk, MotionOk, DrainingOk, SameTotals, Settled, Spared, ArcUp;
      SparedSame(graph, chunks, services);
      TotalsSame(transfers);
      assert drained[0..] == drained;
      for i := 0 to |drained|
        invariant RestOk(View(), stale) && DrainingOk(chunks, services, live, now, arc, drained[i..]) && Retained()
        invariant old(completions) <= completions && SameTotals(old(transfers), transfers)
        invariant Spared(graph, old(chunks), services, chunks, services)
      {
        MarkKeeps(View(), live, now, stale, arc, drained[i..]);
        var chunk := drained[i];
        assert chunk == drained[i..][0] && drained[i..][1..] == drained[i + 1..];
        assert Sits(chunks, arc, chunk);
        ghost var kept := chunks;
        SparedMark(graph, chunks, services, arc, chunk);
        chunks := chunks[chunk.id := chunks[chunk.id].(chunk := chunk, state := LostLinkDown)];
        ghost var earlier := transfers;
        RecordTerminal(chunk.id, now);
        TotalsTransitive(old(transfers), earlier, transfers);
        SparedTransitive(graph, old(chunks), services, kept, services, chunks, services);
      }
      DrainDone(chunks, services, live, now, arc);
    }

    /** `DirectedLinkService::reconcile_down` on one arc. */
    method DrainOn(ctx: Simulation, arc: DirectedLinkId) returns (drained: seq<TransferChunk>)
      requires ctx.Valid() && ctx.lifecycle == Running && arc in services && LinkOk(services[arc])
      requires services[arc].busySince.Some? ==> services[arc].busySince.value <= ctx.now
      requires services[arc].completion.Some? ==> services[arc].completion.value in ctx.Live()
      modifies this`services, ctx`cancelledIds, ctx`cancelledEvents, ctx`everCancelled
      ensures ctx.Valid()
      ensures services == old(services)[arc := Downed(old(services)[arc], ctx.now)]
      ensures drained == old(services)[arc].Contents()
      ensures ctx.Live() == if old(services)[arc].completion.Some? then
                              old(ctx.Live()) - {old(services)[arc].completion.value}
                            else old(ctx.Live())
    {
      hide LinkOk, Downed, Simulation.Valid, Simulation.Live, Simulation.View;
      var service := new DirectedLinkService(services[arc]);
      var result := service.ReconcileDown(ctx);
      assert result.Ok?;
      drained := result.value;
      services := services[arc := service.View()];
    }

    /** An arc goes down: every chunk on it is settled as dropped. */
    method TakeDown(ctx: Simulation, arc: DirectedLinkId, ghost stale: set<DirectedLinkId>)
      requires ctx.Valid() && ctx.lifecycle == Running && arc in services && !ArcUp(graph, arc)
      requires RestOk(View(), stale) && MotionOk(chunks, services, ctx.Live(), ctx.now) && Retained()
      modifies this`chunks, this`transfers, this`services, this`completions
      modifies ctx`cancelledIds, ctx`cancelledEvents, ctx`everCancelled
      ensures ctx.Valid() && RestOk(View(), stale - {arc}) && MotionOk(chunks, services, ctx.Live(), ctx.now)
      ensures Retained() && services.Keys == old(services.Keys)
      ensures SameForeign(old(ctx.Live()), ctx.Live())
      ensures old(completions) <= completions && SameTotals(old(transfers), transfers)
      ensures Spared(graph, old(chunks), old(services), chunks, services)
    {
      hide RestOk, MotionOk, DrainingOk, EngineOk, SameForeign, SameTotals, Settled, Downed, LinkOk, Spared, ArcUp,
           Simulation.Valid, Simulation.Live, Simulation.View;
      DownKeeps(View(), ctx.Live(), ctx.now, stale, arc);
      DownCancels(View(), ctx.Live(), ctx.now, stale, arc);
      var drained := DrainOn(ctx, arc);
      SparedDrain(graph, chunks, old(services), arc, services[arc]);
      MarkDropped(drained, arc, ctx.now, ctx.Live(), stale - {arc});
      SparedTransitive(graph, old(chunks), old(services), old(chunks), services, chunks, services);
    }

    /** A state change goes to its handler. */
    method HandleStateChange(ctx: Simulation, payload: Payload) returns (r: Result<()>)
      requires ctx.Valid() && ctx.lifecycle == Running && Valid(ctx.Live(), ctx.now) && IsStateChange(payload)
      modifies this`graph, this`chunks, this`transfers, this`services, this`completions
      modifies ctx`cancelledIds, ctx`cancelledEvents, ctx`everCancelled
      ensures ctx.Valid()
      ensures r.Ok? ==> Valid(ctx.Live(), ctx.now) && SameForeign(old(ctx.Live()), ctx.Live())
      ensures r.Ok? ==> old(completions) <= completions && SameTotals(old(transfers), transfers)
    {
      hide FabricOk, SameForeign, SameTotals, SetLinkState, SetPortState, SetSwitchState, Simulation.Valid,
           Simulation.Live, Simulation.View;
      match payload {
        case LinkStateChange(link, state) =>
          r := HandleLinkState(ctx, link, state);
        case PortStateChange(port, state) =>
          r := HandlePortState(ctx, port, state);
        case SwitchStateChange(switch, state) =>
          r := HandleSwitchState(ctx, switch, state);
      }
    }

    /** `handle_link_state_change`. */
    method HandleLinkState(ctx: Simulation, id: nat, state: OperationalState) returns (r: Result<()>)
      requires ctx.Valid() && ctx.lifecycle == Running && Valid(ctx.Live(), ctx.now)
      modifies this`graph, this`chunks, this`transfers, this`services, this`completions
      modifies ctx`cancelledIds, ctx`cancelledEvents, ctx`everCancelled
      ensures ctx.Valid()
      ensures r.Ok? <==> (HasLink(old(graph), id) && old(graph).links[id].kind == FabricLink &&
                          SetLinkState(old(graph), id, state).1)
      ensures r.Ok? ==> ctx.Valid() && Valid(ctx.Live(), ctx.now) && SameForeign(old(ctx.Live()), ctx.Live())
      ensures r.Ok? ==> old(completions) <= completions && SameTotals(old(transfers), transfers)
      ensures r.Ok? ==> graph == SetLinkState(old(graph), id, state).0
      ensures r.Ok? ==> Spared(graph, old(chunks), old(services), chunks, services)
    {
      hide RestOk, MotionOk, EngineOk, SameForeign, SameTotals, SetLinkState, Spared, ArcUp;
      if !HasLink(graph, id) || graph.links[id].kind != FabricLink {
        return Throw(InvalidArgument);
      }
      var (changed, done) := SetLinkState(graph, id, state);
      if !done {
        return Throw(LogicError);
      }
      ForeignSame(ctx.Live());
      TotalsSame(transfers);
      var ab, ba := DirectedLinkId(id, AToB), DirectedLinkId(id, BToA);
      if state == Up {
        LinkRaised(View(), id);
        graph := changed;
        SparedSame(graph, chunks, services);
        return Ok(());
      }
      LinkLowered(View(), id);
      graph := changed;
      SparedSame(graph, chunks, services);
      if ab in services {
        TakeDown(ctx, ab, {ab, ba});
      } else {
        NotStale(View(), {ab, ba}, ab);
      }
      ghost var middle, middleLive := transfers, ctx.Live();
      ghost var kept, links := chunks, services;
      SparedSame(graph, chunks, services);
      if ba in services {
        TakeDown(ctx, ba, {ab, ba} - {ab});
      } else {
        NotStale(View(), {ab, ba} - {ab}, ba);
      }
      NoneStale(View(), {ab, ba} - {ab} - {ba});
      TotalsTransitive(old(transfers), middle, transfers);
      ForeignTransitive(old(ctx.Live()), middleLive, ctx.Live());
      SparedTransitive(graph, old(chunks), old(services), kept, links, chunks, services);
      return Ok(());
    }

    /** `reconcile_unavailable`: every configured arc that is not operational is taken down. */
    method ReconcileUnavailable(ctx: Simulation)
      requires ctx.Valid() && ctx.lifecycle == Running
      requires RestOk(View(), services.Keys) && MotionOk(chunks, services, ctx.Live(), ctx.now) && Retained()
      modifies this`chunks, this`transfers, this`services, this`completions
      modifies ctx`cancelledIds, ctx`cancelledEvents, ctx`everCancelled
      ensures ctx.Valid() && Valid(ctx.Live(), ctx.now) && SameForeign(old(ctx.Live()), ctx.Live())
      ensures old(completions) <= completions && SameTotals(old(transfers), transfers)
      ensures Spared(graph, old(chunks), old(services), chunks, services)
    {
      hide RestOk, MotionOk, EngineOk, SameForeign, SameTotals, ArcUp, Spared;
      SparedSame(graph, chunks, services);
      ForeignSame(ctx.Live());
      TotalsSame(transfers);
      var todo := services.Keys;
      while todo != {}
        invariant todo <= services.Keys
        invariant ctx.Valid() && RestOk(View(), todo) && MotionOk(chunks, services, ctx.Live(), ctx.now) && Retained()
        invariant SameForeign(old(ctx.Live()), ctx.Live())
        invariant old(completions) <= completions && SameTotals(old(transfers), transfers)
        invariant Spared(graph, old(chunks), old(services), chunks, services)
        decreases |todo|
      {
        var arc :| arc in todo;
        if ArcUp(graph, arc) {
          NotStale(View(), todo, arc);
        } else {
          ghost var earlier, earlierLive := transfers, ctx.Live();
          ghost var kept, links := chunks, services;
          TakeDown(ctx, arc, todo);
          SparedTransitive(graph, old(chunks), old(services), kept, links, chunks, services);
          TotalsTransitive(old(transfers), earlier, transfers);
          ForeignTransitive(old(ctx.Live()), earlierLive, ctx.Live());
        }
        todo := todo - {arc};
      }
    }

    /** `handle_port_state_change`. */
    method HandlePortState(ctx: Simulation, id: nat, state: OperationalState) returns (r: Result<()>)
      requires ctx.Valid() && ctx.lifecycle == Running && Valid(ctx.Live(), ctx.now)
      modifies this`graph, this`chunks, this`transfers, this`services, this`completions
      modifies ctx`cancelledIds, ctx`cancelledEvents, ctx`everCancelled
      ensures ctx.Valid()
      ensures r.Ok? <==> SetPortState(old(graph), id, state).1
      ensures r.Ok? ==> ctx.Valid() && Valid(ctx.Live(), ctx.now) && SameForeign(old(ctx.Live()), ctx.Live())
      ensures r.Ok? ==> old(completions) <= completions && SameTotals(old(transfers), transfers)
      ensures r.Ok? ==> graph == SetPortState(old(graph), id, state).0
      ensures r.Ok? ==> Spared(graph, old(chunks), old(services), chunks, services)
    {
      hide RestOk, MotionOk, EngineOk, SameForeign, SameTotals, SetPortState, Spared;
      var (changed, done) := SetPortState(graph, id, state);
      if !done {
        return Throw(InvalidArgument);
      }
      PortMoved(View(), id, state);
      graph := changed;
      ReconcileUnavailable(ctx);
      return Ok(());
    }

    /** `handle_switch_state_change`. */
    method HandleSwitchState(ctx: Simulation, id: nat, state: OperationalState) returns (r: Result<()>)
      requires ctx.Valid() && ctx.lifecycle == Running && Valid(ctx.Live(), ctx.now)
      modifies this`graph, this`chunks, this`transfers, this`services, this`completions
      modifies ctx`cancelledIds, ctx`cancelledEvents, ctx`everCancelled
      ensures ctx.Valid()
      ensures r.Ok? <==> SetSwitchState(old(graph), id, state).1
      ensures r.Ok? ==> ctx.Valid() && Valid(ctx.Live(), ctx.now) && SameForeign(old(ctx.Live()), ctx.Live())
      ensures r.Ok? ==> old(completions) <= completions && SameTotals(old(transfers), transfers)
      ensures r.Ok? ==> graph == SetSwitchState(old(graph), id, state).0
      ensures r.Ok? ==> Spared(graph, old(chunks), old(services), chunks, services)
    {
      hide RestOk, MotionOk, EngineOk, SameForeign, SameTotals, SetSwitchState, Spared;
      var (changed, done) := SetSwitchState(graph, id, state);
      if !done {
        return Throw(InvalidArgument);
      }
      SwitchMoved(View(), id, state);
      graph := changed;
      ReconcileUnavailable(ctx);
      return Ok(());
    }

    /**
     `transfer_snapshot`: where a transfer's bytes and chunks are, none missing and none counted twice.
     */
    method TransferSnapshot(t: nat, ghost live: EventTable, ghost now: nat) returns (r: Option<Snapshot>)
      requires Valid(live, now)
      ensures r.Some? <==> t in transfers
      ensures r.Some? ==> r.value.record == transfers[t]
      ensures r.Some? ==> Balanced(r.value.record, r.value.registered, r.value.awaiting, r.value.waiting,
                                   r.value.active, r.value.propagating)
      ensures r.Some? ==> Shares(r.value, |transfers[t].chunks|, chunks, services)
    {
      hide FabricOk;
      if t !in transfers {
        return None;
      }
      var transfer := transfers[t];
      TransferFacts(View(), live, now, t);
      hide AccountOk;
      var none := Traffic(0, 0);
      var s := Snapshot(transfer, none, none, none, none, none);
      for i := 0 to |transfer.chunks|
        invariant s.record == transfer && Shares(s, i, chunks, services)
      {
        var c := transfer.chunks[i];
        var record := chunks[c];
        ghost var before := s;
        assert RecordOk(c, record, services);
        var count := One(record.chunk);
        match record.state {
          case Registered => s := s.(registered := s.registered.Plus(count));
          case AwaitingArrival =>
            if record.hop == 0 {
              s := s.(awaiting := s.awaiting.Plus(count));
            } else {
              s := s.(propagating := s.propagating.Plus(count));
            }
          case InLink =>
            var active := services[record.route[record.hop]].queue.active;
            if active.Some? && active.value.id == c {
              s := s.(active := s.active.Plus(count));
            } else {
              s := s.(waiting := s.waiting.Plus(count));
            }
          case _ =>
        }
        SharesNext(before, s, i, chunks, services);
      }
      assert transfer.chunks[..|transfer.chunks|] == transfer.chunks;
      SnapshotBalances(t, transfer, chunks, services);
      return Some(s);
    }

    /** `take_completed_transfers`. */
    method TakeCompleted() returns (batch: seq<Completion>)
      modifies this`completions, this`taken
      ensures batch == old(completions) && completions == [] && taken == old(taken) + batch
      ensures View() == old(View())
    {
      batch := completions;
      assert taken + completions == (taken + completions) + [];
      taken := taken + completions;
      completions := [];
    }

    /** `validate_route`. */
    method ValidateRoute(route: seq<DirectedLinkId>, source: Option<NodeId>, destination: Option<NodeId>)
      returns (r: Result<()>)
      ensures r.Ok? <==> RouteOk(graph, services, limits, route, source, destination)
      ensures r.Throw? ==> r.error != LogicError
    {
      if |route| > limits.maximumRouteHops {
        return Throw(LengthError);
      }
      if route == [] {
        return Throw(InvalidArgument);
      }
      if |route| > 0xFFFF_FFFF {
        return Throw(OverflowError);
      }
      if !FabricArc(graph, route[0]) || route[0] !in services {
        return Throw(InvalidArgument);
      }
      for i := 1 to |route|
        invariant forall k :: 0 <= k < i ==> FabricArc(graph, route[k]) && route[k] in services
        invariant forall k :: 0 < k < i ==> Contiguous(graph, route[k - 1], route[k])
      {
        if !FabricArc(graph, route[i]) || route[i] !in services || !Contiguous(graph, route[i - 1], route[i]) {
          return Throw(InvalidArgument);
        }
      }
      if source.Some? && PortOwner(graph, ArcOf(graph, route[0]).source) != source {
        return Throw(InvalidArgument);
      }
      if destination.Some? && PortOwner(graph, ArcOf(graph, route[|route| - 1]).destination) != destination {
        return Throw(InvalidArgument);
      }
      return Ok(());
    }

    /** `validate_timing`: hop by hop, without queueing. */
    method ValidateTiming(bytes: nat, route: seq<DirectedLinkId>, now: nat) returns (r: Result<()>)
      requires forall i :: 0 <= i < |route| ==> route[i] in services
      ensures r.Ok? <==> RouteTime(services, bytes, route, |route|, now).Some?
      ensures r.Throw? ==> r.error != LogicError
    {
      var time := now;
      for i := 0 to |route|
        invariant RouteTime(services, bytes, route, i, now) == Some(time)
      {
        var config := services[route[i]].config;
        var serialized := CompletionTime(config, bytes, time);
        if serialized == None {
          RouteTimeStuck(services, bytes, route, i + 1, |route|, now);
          return Throw(OverflowError);
        }
        time := serialized.value + config.propagation;
      }
      return Ok(());
    }

    /** `register_chunk`: exactly the registrable chunks are registered, and nothing changes otherwise. */
    method RegisterChunk(chunk: TransferChunk, route: seq<DirectedLinkId>, ghost live: EventTable, ghost now: nat)
      returns (r: Result<()>)
      requires Valid(live, now) && chunk.id <= U64_MAX && chunk.transfer <= U64_MAX
      modifies this`chunks, this`transfers, this`routeEntries, this`chunkIds, this`transferIds
      ensures Valid(live, now)
      ensures r.Ok? <==> Registrable(old(View()), limits, old(routeEntries), chunk, route)
      ensures r.Ok? ==> View() == Register(old(View()), chunk, route) && routeEntries == old(routeEntries) + |route|
                        && |chunks| == |old(chunks)| + 1
      ensures r.Throw? ==> View() == old(View()) && routeEntries == old(routeEntries)
    {
      hide FabricOk, Registrable, Enrolled, IdGenerator.AdvancedPast, RouteOk;
      r := CheckRegistration(chunk, route);
      if r.Throw? {
        return;
      }
      RegistrableFits(View(), limits, routeEntries, chunk, route);
      RegisterKeeps(View(), live, now, chunk, route);
      transfers := transfers[chunk.transfer := Enrolled(transfers, chunk)];
      chunks := chunks[chunk.id := ChunkRecord(chunk, route, Registered, 0, None)];
      routeEntries := routeEntries + |route|;
      transferIds := transferIds.AdvancedPast(chunk.transfer);
      chunkIds := chunkIds.AdvancedPast(chunk.id);
      assert View() == Register(old(View()), chunk, route);
    }

    /** What `register_chunk` checks before it changes anything. */
    method CheckRegistration(chunk: TransferChunk, route: seq<DirectedLinkId>) returns (r: Result<()>)
      ensures r.Ok? <==> Registrable(View(), limits, routeEntries, chunk, route)
    {
      hide FabricArc, RouteTime, Contiguous;
      if chunk.bytes == 0 || chunk.hop != 0 {
        return Throw(InvalidArgument);
      }
      var valid := ValidateRoute(route, None, None);
      if valid.Throw? {
        return valid;
      }
      if !Fits(limits, |chunks|, routeEntries, 1, |route|) {
        return Throw(LengthError);
      }
      var timely := ValidateTiming(chunk.bytes, route, 0);
      if timely.Throw? {
        return timely;
      }
      if chunk.id in chunks {
        return Throw(InvalidArgument);
      }
      if chunk.transfer in transfers && transfers[chunk.transfer].startedAt.Some? {
        return Throw(InvalidArgument);
      }
      return Ok(());
    }

    /** `schedule_initial_arrival`. */
    method ScheduleInitialArrival(ctx: Simulation, c: nat) returns (r: Result<nat>)
      requires ctx.Valid() && ctx.lifecycle == Running && Valid(ctx.Live(), ctx.now)
      modifies this`chunks, this`transfers, ctx`nextEventId, ctx`idsExhausted, ctx`queue
      ensures ctx.Valid() && Valid(ctx.Live(), ctx.now) && SameForeign(old(ctx.Live()), ctx.Live())
      ensures r.Ok? ==> c in old(chunks) && old(chunks)[c].state == Registered
                        && old(chunks)[c].chunk.transfer in old(transfers)
                        && View() == Launch(old(View()), c, ctx.now, r.value)
      ensures r.Throw? ==> View() == old(View())
      ensures r.Throw? && c in chunks && chunks[c].state == Registered && Routed(services, chunks[c])
              && RouteTime(services, chunks[c].chunk.bytes, chunks[c].route, |chunks[c].route|, ctx.now).Some? ==>
                r.error == OverflowError && old(ctx.idsExhausted)
    {
      hide FabricOk, EngineOk, SameForeign, RouteTime;
      ForeignSame(ctx.Live());
      if c !in chunks {
        return Throw(InvalidArgument);
      }
      var record := chunks[c];
      if record.state != Registered {
        return Throw(LogicError);
      }
      ChunkFacts(View(), ctx.Live(), ctx.now, c);
      var timely := ValidateTiming(record.chunk.bytes, record.route, ctx.now);
      if timely.Throw? {
        return Throw(timely.error);
      }
      var scheduled := ctx.ContextSchedule(ctx.now, Normal, ChunkArrival(c, 0));
      if scheduled.Throw? {
        return Throw(OverflowError);
      }
      LaunchKeeps(View(), old(ctx.Live()), ctx.now, c, scheduled.value);
      ForeignWith(old(ctx.Live()), scheduled.value);
      var transfer := transfers[record.chunk.transfer];
      chunks := chunks[c := record.(state := AwaitingArrival, arrival := Some(scheduled.value.id))];
      transfers := transfers[record.chunk.transfer :=
        transfer.(startedAt := if transfer.startedAt.Some? then transfer.startedAt else Some(ctx.now))];
      return Ok(scheduled.value.id);
    }

    /**
     The registration loop of `submit_transfer`: `count` chunks of a fresh transfer, all but the last
     of full size. After the checks `submit_transfer` has made, no registration can be refused.
     */
    method RegisterAll(t: nat, request: TransferRequest, count: nat, ghost live: EventTable, ghost now: nat)
      returns (ids: seq<nat>)
      requires Valid(live, now) && t !in transfers && t <= U64_MAX
      requires request.maximumChunkBytes > 0 && count == ChunkCount(request)
      requires Checked(View(), limits, routeEntries, request, count, now)
      modifies this`chunks, this`transfers, this`routeEntries, this`chunkIds, this`transferIds
      ensures Valid(live, now) && |ids| == count
      ensures Prepared(View(), old(transfers), t, request, ids)
      ensures Checked(View(), limits, routeEntries, request, 0, now)
    {
      hide FabricOk, Checked, Registrable, Prepared, Register, IdGenerator.Taken;
      ids := [];
      PreparedNone(View(), t, request);
      for ordinal := 0 to count
        invariant Valid(live, now) && |ids| == ordinal
        invariant Checked(View(), limits, routeEntries, request, count - ordinal, now)
        invariant Prepared(View(), old(transfers), t, request, ids)
      {
        ghost var f := View();
        NextIsFresh(f, live, now, count - ordinal, limits, routeEntries, request);
        var id := chunkIds.next;
        chunkIds := chunkIds.Taken();
        var chunk := TransferChunk(t, id, ChunkSize(request, ordinal), 0, false);
        CheckedNext(f, limits, routeEntries, request, now, old(transfers), t, ids, chunk);
        var registered := RegisterChunk(chunk, request.route, live, now);
        assert registered.Ok?;
        ids := ids + [id];
      }
    }

    /** The scheduling loop of `submit_transfer`; only running out of event IDs can stop it. */
    method LaunchAll(ctx: Simulation, t: nat, request: TransferRequest, ids: seq<nat>) returns (r: Result<()>)
      requires ctx.Valid() && ctx.lifecycle == Running && Valid(ctx.Live(), ctx.now)
      requires request.maximumChunkBytes > 0 && 0 < |ids| == ChunkCount(request)
      requires Launching(View(), t, request, ids, 0, ctx.now)
      modifies this`chunks, this`transfers, ctx`nextEventId, ctx`idsExhausted, ctx`queue
      ensures ctx.Valid() && Valid(ctx.Live(), ctx.now) && SameForeign(old(ctx.Live()), ctx.Live())
      ensures r.Throw? ==> r.error == OverflowError
      ensures r.Ok? ==> Launching(View(), t, request, ids, |ids|, ctx.now)
      ensures t in old(transfers)
      ensures r.Ok? ==> transfers == old(transfers)[t := old(transfers)[t].(startedAt := Some(ctx.now))]
    {
      hide FabricOk, SameForeign, Launching, Launch, Simulation.Valid, Simulation.Live, Simulation.View,
           TransportRuntime.Retained;
      ForeignSame(ctx.Live());
      ghost var before := transfers;
      LaunchingFacts(View(), t, request, ids, 0, ctx.now);
      for i := 0 to |ids|
        invariant ctx.Valid() && Valid(ctx.Live(), ctx.now) && SameForeign(old(ctx.Live()), ctx.Live())
        invariant Launching(View(), t, request, ids, i, ctx.now)
        invariant transfers == if i == 0 then before else before[t := before[t].(startedAt := Some(ctx.now))]
      {
        LaunchingFacts(View(), t, request, ids, i, ctx.now);
        ghost var f, earlier := View(), ctx.Live();
        var launched := ScheduleInitialArrival(ctx, ids[i]);
        ForeignTransitive(old(ctx.Live()), earlier, ctx.Live());
        if launched.Throw? {
          return Throw(OverflowError);
        }
        LaunchingNext(f, t, request, ids, i, ctx.now, launched.value);
      }
      return Ok(());
    }

    /** The checks of `submit_transfer`, which change nothing. */
    method CheckRequest(request: TransferRequest, now: nat) returns (r: Result<nat>)
      ensures r.Throw? ==> r.error != LogicError
      ensures r.Ok? ==> request.maximumChunkBytes > 0 && 0 < r.value == ChunkCount(request)
                        && transferIds.CanGenerate(1) && Checked(View(), limits, routeEntries, request, r.value, now)
    {
      hide RouteOk, RouteTime, Checked;
      if request.bytes == 0 || request.maximumChunkBytes == 0 {
        return Throw(InvalidArgument);
      }
      var routed := ValidateRoute(request.route, Some(request.source), Some(request.destination));
      if routed.Throw? {
        return Throw(routed.error);
      }
      var fullChunks, remainder := request.bytes / request.maximumChunkBytes, request.bytes % request.maximumChunkBytes;
      var count := fullChunks + (if remainder != 0 then 1 else 0);
      if !transferIds.CanGenerate(1) || !chunkIds.CanGenerate(count) {
        return Throw(OverflowError);
      }
      if !Fits(limits, |chunks|, routeEntries, count, |request.route|) {
        return Throw(LengthError);
      }
      RouteConfigured(graph, services, limits, request.route, Some(request.source), Some(request.destination));
      if fullChunks != 0 {
        var timely := ValidateTiming(request.maximumChunkBytes, request.route, now);
        if timely.Throw? {
          return Throw(timely.error);
        }
      }
      if remainder != 0 {
        var timely := ValidateTiming(remainder, request.route, now);
        if timely.Throw? {
          return Throw(timely.error);
        }
      }
      AllChecked(View(), limits, routeEntries, request, now);
      return Ok(count);
    }

    /**
     `submit_transfer`: a fresh transfer with every chunk launched, or no transfer at all unless event IDs
     run out.
     */
    method SubmitTransfer(ctx: Simulation, request: TransferRequest) returns (r: Result<nat>)
      requires ctx.Valid() && ctx.lifecycle == Running && Valid(ctx.Live(), ctx.now)
      modifies this`chunks, this`transfers, this`routeEntries, this`chunkIds, this`transferIds, this`submitted
      modifies ctx`nextEventId, ctx`idsExhausted, ctx`queue
      ensures ctx.Valid() && Valid(ctx.Live(), ctx.now) && SameForeign(old(ctx.Live()), ctx.Live())
      ensures r.Ok? ==> Entered(old(transfers), transfers, r.value, request.bytes)
                        && submitted == old(submitted) + {r.value}
      ensures r.Throw? ==> r.error != LogicError && (View() == old(View()) || r.error == OverflowError)
    {
      hide FabricOk, EngineOk, SameForeign, Checked;
      ForeignSame(ctx.Live());
      var checked := CheckRequest(request, ctx.now);
      if checked.Throw? {
        return Throw(checked.error);
      }
      TransferIsFresh(View(), ctx.Live(), ctx.now, limits, routeEntries, request);
      var t := transferIds.next;
      transferIds := transferIds.Taken();
      var entered := Enter(ctx, request, t, checked.value);
      return if entered.Throw? then Throw(OverflowError) else Ok(t);
    }

    /** The part of `submit_transfer` that changes state. */
    method Enter(ctx: Simulation, request: TransferRequest, t: nat, count: nat) returns (r: Result<()>)
      requires ctx.Valid() && ctx.lifecycle == Running && Valid(ctx.Live(), ctx.now)
      requires t !in transfers && t <= U64_MAX && request.maximumChunkBytes > 0 && 0 < count == ChunkCount(request)
      requires Checked(View(), limits, routeEntries, request, count, ctx.now)
      modifies this`chunks, this`transfers, this`routeEntries, this`chunkIds, this`transferIds, this`submitted
      modifies ctx`nextEventId, ctx`idsExhausted, ctx`queue
      ensures ctx.Valid() && Valid(ctx.Live(), ctx.now) && SameForeign(old(ctx.Live()), ctx.Live())
      ensures r.Ok? ==> Entered(old(transfers), transfers, t, request.bytes) && submitted == old(submitted) + {t}
    {
      hide FabricOk, EngineOk, SameForeign, Launching, Prepared, Checked, Entered, ChunkCount;
      var ids := RegisterAll(t, request, count, ctx.Live(), ctx.now);
      PreparedLaunches(View(), ctx.Live(), old(transfers), t, request, ids, limits, routeEntries, ctx.now);
      ghost var prepared := transfers;
      var launched := LaunchAll(ctx, t, request, ids);
      if launched.Throw? {
        return launched;
      }
      EnteredStarts(old(transfers), prepared, t, request.bytes, ctx.now);
      SubmittedNow(View(), ctx.Live(), ctx.now, t, request, ids);
      submitted := submitted + {t};
      return Ok(());
    }
  }

  lemma TransferFacts(f: Fabric, live: EventTable, now: nat, t: nat)
    requires FabricOk(f, live, now) && t in f.transfers
    ensures AccountOk(t, f.transfers[t], f.chunks)
    ensures forall c :: c in f.transfers[t].chunks ==> c in f.chunks && RecordOk(c, f.chunks[c], f.links)
  {
    assert AccountOk(t, f.transfers[t], f.chunks);
  }

  lemma EnteredStarts(before: TransferTable, after: TransferTable, t: nat, bytes: nat, now: nat)
    requires Entered(before, after, t, bytes)
    ensures t in after && Entered(before, after[t := after[t].(startedAt := Some(now))], t, bytes)
  {
  }

  lemma ChunkFacts(f: Fabric, live: EventTable, now: nat, c: nat)
    requires FabricOk(f, live, now) && c in f.chunks
    ensures Routed(f.links, f.chunks[c]) && f.chunks[c].chunk.transfer in f.transfers
  {
    assert RecordOk(c, f.chunks[c], f.links);
  }

  /** A record that may be settled: its transfer is open, and the last chunk balances the account. */
  ghost predicate Settleable(f: Fabric, record: ChunkRecord, now: nat) {
    var t := record.chunk.transfer;
    && record.state.Terminal() && t in f.transfers && f.transfers[t].completion == None
    && (var b := Settled(t, f.transfers[t], One(record.chunk), record.state, now);
        b.completion.Some? ==> b.delivered.bytes + b.bufferFull.bytes + b.linkDown.bytes == b.total.bytes)
  }

  lemma RegistrableFits(f: Fabric, limits: Limits, entries: nat, chunk: TransferChunk, route: seq<DirectedLinkId>)
    requires Registrable(f, limits, entries, chunk, route)
    ensures chunk.id !in f.chunks && chunk.bytes > 0 && route != []
    ensures forall i :: 0 <= i < |route| ==> route[i] in f.links
    ensures chunk.transfer in f.transfers ==> f.transfers[chunk.transfer].startedAt == None
    ensures |f.chunks| + 1 <= limits.maximumChunks && entries + |route| <= limits.maximumRouteEntries
    ensures |f.chunks[chunk.id := ChunkRecord(chunk, route, Registered, 0, None)]| == |f.chunks| + 1
  {
    hide FabricArc, RouteTime, Contiguous;
  }

  lemma SameSize(chunks: ChunkTable, c: nat, record: ChunkRecord)
    requires c in chunks
    ensures |chunks[c := record]| == |chunks|
  {
    assert chunks[c := record].Keys == chunks.Keys;
  }

  lemma FollowingNone(l: Link, a: nat, b: nat)
    requires l.queue.waiting == []
    ensures Following(l, a) == Following(l, b)
  {
  }

  lemma TotalsSame(a: TransferTable)
    ensures SameTotals(a, a)
  {
  }

  lemma TotalsTransitive(a: TransferTable, b: TransferTable, c: TransferTable)
    requires SameTotals(a, b) && SameTotals(b, c)
    ensures SameTotals(a, c)
  {
  }

  lemma CompletionGuard(f: Fabric, live: EventTable, now: nat, e: nat)
    requires FabricOk(f, live, now) && e in live && live[e].payload.TransmissionComplete?
    ensures var p := live[e].payload;
            && p.arc in f.links && f.links[p.arc].completion == Some(e) && f.links[p.arc].config.arc == p.arc
            && CanServe(f.links[p.arc], now) && LinkOk(f.links[p.arc]) && Awaits(f.links[p.arc], e, p)
            && f.links[p.arc].queue.active.value.id == p.chunk && f.links[p.arc].queue.active.value.hop == p.hop
            && Sits(f.chunks, p.arc, f.links[p.arc].queue.active.value)
  {
    hide Recorded;
    CompletionFinds(f.chunks, f.links, live, now, e);
    var l := f.links[live[e].payload.arc];
    ServedOk(l, now, Following(l, 0));
  }

  /** The events scheduled by a service are the ones its chunk and link need. */
  lemma ServingEvents(l: Link, before: EventTable, event: Event, next: Event, arrival: Event)
    requires event.payload.TransmissionComplete? && event.id !in before
    requires next.id !in before && arrival.id !in before
    requires next.id != event.id && arrival.id != event.id && next.id != arrival.id
    requires l.queue.waiting != [] ==>
               next.payload == TransmissionComplete(event.payload.arc, l.queue.waiting[0].id, l.queue.waiting[0].hop)
    requires arrival.payload == ChunkArrival(event.payload.chunk, event.payload.hop + 1)
    ensures ServiceEvents(l, before[event.id := event], event.payload, next, arrival)
    ensures AfterServing(l, before[event.id := event], event.id, next, arrival)
         == (if l.queue.waiting == [] then before else before[next.id := next])[arrival.id := arrival]
    ensures SameForeign(before,
                        (if l.queue.waiting == [] then before else before[next.id := next])[arrival.id := arrival])
  {
    Redispatched(before, event);
  }

  /** The pending completion of a link that goes down is a transport event, so cancelling it is ours to do. */
  lemma DownCancels(f: Fabric, live: EventTable, now: nat, stale: set<DirectedLinkId>, a: DirectedLinkId)
    requires RestOk(f, stale) && MotionOk(f.chunks, f.links, live, now) && a in f.links
    ensures LinkOk(f.links[a]) && (f.links[a].busySince.Some? ==> f.links[a].busySince.value <= now)
    ensures f.links[a].completion.Some? ==> f.links[a].completion.value in live
    ensures SameForeign(live, if f.links[a].completion.Some? then live - {f.links[a].completion.value} else live)
  {
    hide RestOk, Recorded;
    assert LinkOk(f.links[a]);
  }

  lemma LinkLowered(f: Fabric, id: nat)
    requires RestOk(f, {}) && SetLinkState(f.graph, id, Down).1
    ensures !ArcUp(SetLinkState(f.graph, id, Down).0, DirectedLinkId(id, AToB))
    ensures !ArcUp(SetLinkState(f.graph, id, Down).0, DirectedLinkId(id, BToA))
    ensures RestOk(f.(graph := SetLinkState(f.graph, id, Down).0), {DirectedLinkId(id, AToB), DirectedLinkId(id, BToA)})
  {
    hide RestOk;
    var stale := {DirectedLinkId(id, AToB), DirectedLinkId(id, BToA)};
    LinkSetterIsChange(f.graph, id, Down);
    forall a | a in f.links && ArcUp(f.graph, a) && a !in stale ensures ArcUp(SetLinkState(f.graph, id, Down).0, a) {
      assert a.direction == AToB || a.direction == BToA;
      LinkDownIsLocal(f.graph, id, a);
    }
    StateChangeKeepsRest(f, SetLinkState(f.graph, id, Down).0, stale);
  }

  lemma LinkRaised(f: Fabric, id: nat)
    requires RestOk(f, {}) && SetLinkState(f.graph, id, Up).1
    ensures RestOk(f.(graph := SetLinkState(f.graph, id, Up).0), {})
  {
    hide RestOk;
    LinkSetterIsChange(f.graph, id, Up);
    forall a | a in f.links && ArcUp(f.graph, a) ensures ArcUp(SetLinkState(f.graph, id, Up).0, a) {
      LinkUpRaises(f.graph, id, a);
    }
    StateChangeKeepsRest(f, SetLinkState(f.graph, id, Up).0, {});
  }

  lemma PortMoved(f: Fabric, id: nat, state: OperationalState)
    requires RestOk(f, {})
    ensures RestOk(f.(graph := SetPortState(f.graph, id, state).0), f.links.Keys)
  {
    hide RestOk;
    PortSetterIsChange(f.graph, id, state);
    StateChangeKeepsRest(f, SetPortState(f.graph, id, state).0, f.links.Keys);
  }

  lemma SwitchMoved(f: Fabric, id: nat, state: OperationalState)
    requires RestOk(f, {})
    ensures RestOk(f.(graph := SetSwitchState(f.graph, id, state).0), f.links.Keys)
  {
    hide RestOk;
    SwitchSetterIsChange(f.graph, id, state);
    StateChangeKeepsRest(f, SetSwitchState(f.graph, id, state).0, f.links.Keys);
  }

  lemma ForeignSame(live: EventTable)
    ensures SameForeign(live, live)
  {
  }

  lemma DroppedIsBusy(l: Link, chunk: TransferChunk)
    requires Decide(l.config, l.queue, chunk.bytes).disposition == DroppedBufferFull
    ensures l.queue.active.Some?
  {
  }

  lemma LinkFacts(f: Fabric, live: EventTable, now: nat, a: DirectedLinkId)
    requires FabricOk(f, live, now) && a in f.links
    ensures LinkOk(f.links[a]) && f.links[a].config.arc == a && FabricArc(f.graph, a) && Recorded(f.links[a], now)
    ensures f.links[a].queue.waitingBytes <= f.links[a].config.capacity
  {
    CapacityHolds(f.links[a].config, f.links[a].queue);
  }

  lemma ArrivalGuard(f: Fabric, live: EventTable, now: nat, e: nat)
    requires FabricOk(f, live, now) && e in live && live[e].payload.ChunkArrival?
    ensures var p := live[e].payload;
            && p.chunk in f.chunks && f.chunks[p.chunk].arrival == Some(e) && f.chunks[p.chunk].hop == p.hop
            && f.chunks[p.chunk].state == AwaitingArrival && RecordOk(p.chunk, f.chunks[p.chunk], f.links)
            && (forall i :: 0 <= i < |f.chunks[p.chunk].route| ==> FabricArc(f.graph, f.chunks[p.chunk].route[i]))
  {
    ArrivalFinds(f.chunks, f.links, live, now, e);
  }
}
