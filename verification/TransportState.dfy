/**
 The state of the transport runtime and the invariants that tie its parts together: chunk
 records, link queues, pending events, and per-transfer accounts.
 */
module TransportState {
  import opened Prelude
  import opened Events
  import opened Links

  datatype Transit = Registered | AwaitingArrival | InLink | Delivered | LostBufferFull | LostLinkDown {
    predicate Terminal() {
      Delivered? || LostBufferFull? || LostLinkDown?
    }
  }

  datatype ChunkRecord = ChunkRecord(
    chunk: TransferChunk, route: seq<DirectedLinkId>, state: Transit, hop: nat, arrival: Option<nat>)

  datatype Completion = Completion(
    transfer: nat, succeeded: bool, timestamp: nat,
    delivered: Traffic, bufferFull: Traffic, linkDown: Traffic)

  datatype TransferRecord = TransferRecord(
    chunks: seq<nat>, total: Traffic, delivered: Traffic, bufferFull: Traffic, linkDown: Traffic,
    startedAt: Option<nat>, completion: Option<Completion>)

  type ChunkTable = map<nat, ChunkRecord>
  type LinkTable = map<DirectedLinkId, Link>
  type TransferTable = map<nat, TransferRecord>
  type EventTable = map<nat, Event>

  // Motion: chunks, links and pending events

  ghost predicate RecordOk(c: nat, r: ChunkRecord, links: LinkTable) {
    && r.chunk.id == c
    && r.chunk.bytes > 0
    && r.route != []
    && (forall i :: 0 <= i < |r.route| ==> r.route[i] in links)
    && r.hop <= |r.route|
    && (r.state == Registered ==> r.hop == 0)
    && (r.state == InLink ==> r.hop < |r.route|)
    && (r.state == Delivered ==> r.hop == |r.route|)
    && (r.state == AwaitingArrival <==> r.arrival.Some?)
  }

  ghost predicate RecordsOk(chunks: ChunkTable, links: LinkTable) {
    forall c :: c in chunks ==> RecordOk(c, chunks[c], links)
  }

  ghost predicate LinksOk(links: LinkTable, now: nat) {
    forall a :: a in links ==> LinkOk(links[a]) && links[a].config.arc == a
                               && (links[a].busySince.Some? ==> links[a].busySince.value <= now)
                               && Recorded(links[a], now)
  }

  /** The record of a chunk that sits on link `a`. */
  ghost predicate Sits(chunks: ChunkTable, a: DirectedLinkId, chunk: TransferChunk) {
    && chunk.id in chunks
    && chunks[chunk.id].state == InLink
    && chunks[chunk.id].chunk == chunk
    && chunks[chunk.id].hop == chunk.hop < |chunks[chunk.id].route|
    && chunks[chunk.id].route[chunk.hop] == a
  }

  /** Everything in `contents` sits on link `a`, each chunk once. */
  ghost predicate Seated(chunks: ChunkTable, a: DirectedLinkId, contents: seq<TransferChunk>) {
    && (forall i :: 0 <= i < |contents| ==> Sits(chunks, a, contents[i]))
    && (forall i, j :: 0 <= i < j < |contents| ==> contents[i].id != contents[j].id)
  }

  ghost predicate Among(c: nat, contents: seq<TransferChunk>) {
    exists i :: 0 <= i < |contents| && contents[i].id == c
  }

  /**
   Each chunk on a link sits exactly once in the queue of its current hop, and vice versa.
   `limbo` holds chunks drained from a link that have not been marked as dropped yet.
   */
  ghost predicate PlacesOk(chunks: ChunkTable, links: LinkTable, arc: DirectedLinkId, limbo: seq<TransferChunk>) {
    && (forall a :: a in links ==> Seated(chunks, a, links[a].Contents()))
    && Seated(chunks, arc, limbo)
    && (limbo != [] ==> arc in links && links[arc].Contents() == [])
    && (forall c :: c in chunks && chunks[c].state == InLink && chunks[c].hop < |chunks[c].route|
                    && chunks[c].route[chunks[c].hop] in links ==>
          Among(c, links[chunks[c].route[chunks[c].hop]].Contents()) || Among(c, limbo))
  }

  /** Each awaiting chunk has exactly one live arrival event, and each arrival event its chunk. */
  ghost predicate ArrivalsOk(chunks: ChunkTable, live: EventTable) {
    && (forall c :: c in chunks && chunks[c].arrival.Some? ==>
          chunks[c].arrival.value in live && live[chunks[c].arrival.value].payload == ChunkArrival(c, chunks[c].hop))
    && (forall e :: e in live && live[e].payload.ChunkArrival? ==>
          live[e].payload.chunk in chunks && chunks[live[e].payload.chunk].arrival == Some(e))
  }

  /** Each busy link has exactly one live completion event, and each such event its link. */
  ghost predicate CompletionsOk(links: LinkTable, live: EventTable) {
    && (forall a :: a in links && links[a].completion.Some? && links[a].queue.active.Some? ==>
          && links[a].completion.value in live
          && live[links[a].completion.value].payload
             == TransmissionComplete(a, links[a].queue.active.value.id, links[a].queue.active.value.hop))
    && (forall e :: e in live && live[e].payload.TransmissionComplete? ==>
          live[e].payload.arc in links && links[live[e].payload.arc].completion == Some(e))
  }

  ghost predicate DrainingOk(chunks: ChunkTable, links: LinkTable, live: EventTable, now: nat,
                             arc: DirectedLinkId, limbo: seq<TransferChunk>)
  {
    && RecordsOk(chunks, links)
    && LinksOk(links, now)
    && PlacesOk(chunks, links, arc, limbo)
    && ArrivalsOk(chunks, live)
    && CompletionsOk(links, live)
  }

  ghost predicate MotionOk(chunks: ChunkTable, links: LinkTable, live: EventTable, now: nat) {
    DrainingOk(chunks, links, live, now, DirectedLinkId(0, AToB), [])
  }

  // Ledger: chunks and transfer accounts

  ghost predicate ListOk(t: nat, list: seq<nat>, chunks: ChunkTable) {
    && (forall i :: 0 <= i < |list| ==> list[i] in chunks && chunks[list[i]].chunk.transfer == t)
    && (forall i, j :: 0 <= i < j < |list| ==> list[i] != list[j])
  }

  ghost function BytesIn(list: seq<nat>, chunks: ChunkTable, state: Transit): nat
    requires forall i :: 0 <= i < |list| ==> list[i] in chunks
  {
    if |list| == 0 then 0
    else
      var c := list[|list| - 1];
      BytesIn(list[..|list| - 1], chunks, state) + (if chunks[c].state == state then chunks[c].chunk.bytes else 0)
  }

  ghost function CountIn(list: seq<nat>, chunks: ChunkTable, state: Transit): nat
    requires forall i :: 0 <= i < |list| ==> list[i] in chunks
  {
    if |list| == 0 then 0
    else CountIn(list[..|list| - 1], chunks, state) + (if chunks[list[|list| - 1]].state == state then 1 else 0)
  }

  /** The traffic of a transfer's chunks in one state. */
  ghost function In(list: seq<nat>, chunks: ChunkTable, state: Transit): Traffic
    requires forall i :: 0 <= i < |list| ==> list[i] in chunks
  {
    Traffic(BytesIn(list, chunks, state), CountIn(list, chunks, state))
  }

  ghost function TotalBytes(list: seq<nat>, chunks: ChunkTable): nat
    requires forall i :: 0 <= i < |list| ==> list[i] in chunks
  {
    if |list| == 0 then 0
    else TotalBytes(list[..|list| - 1], chunks) + chunks[list[|list| - 1]].chunk.bytes
  }

  ghost predicate AllTerminal(list: seq<nat>, chunks: ChunkTable)
    requires forall i :: 0 <= i < |list| ==> list[i] in chunks
  {
    forall i :: 0 <= i < |list| ==> chunks[list[i]].state.Terminal()
  }

  ghost predicate SumsOk(r: TransferRecord, chunks: ChunkTable)
    requires forall i :: 0 <= i < |r.chunks| ==> r.chunks[i] in chunks
  {
    && r.total == Traffic(TotalBytes(r.chunks, chunks), |r.chunks|)
    && r.delivered == In(r.chunks, chunks, Delivered)
    && r.bufferFull == In(r.chunks, chunks, LostBufferFull)
    && r.linkDown == In(r.chunks, chunks, LostLinkDown)
  }

  /** One transfer's account: totals by outcome, and completion exactly when the last chunk ended. */
  ghost predicate AccountOk(t: nat, r: TransferRecord, chunks: ChunkTable) {
    && ListOk(t, r.chunks, chunks)
    && |r.chunks| > 0
    && SumsOk(r, chunks)
    && (r.startedAt == None ==> forall i :: 0 <= i < |r.chunks| ==> chunks[r.chunks[i]].state == Registered)
    && (r.completion.Some? <==> AllTerminal(r.chunks, chunks))
    && (r.completion.Some? ==> CompletionOk(t, r))
  }

  ghost predicate CompletionOk(t: nat, r: TransferRecord)
    requires r.completion.Some?
  {
    var c := r.completion.value;
    && c.transfer == t
    && c.delivered == r.delivered && c.bufferFull == r.bufferFull && c.linkDown == r.linkDown
    && (c.succeeded <==> r.bufferFull.chunks + r.linkDown.chunks == 0)
  }

  /** Every completed transfer was emitted exactly once, with its completion. */
  ghost predicate EmittedOk(transfers: TransferTable, emitted: seq<Completion>) {
    && (forall i :: 0 <= i < |emitted| ==>
          emitted[i].transfer in transfers && transfers[emitted[i].transfer].completion == Some(emitted[i]))
    && (forall i, j :: 0 <= i < j < |emitted| ==> emitted[i].transfer != emitted[j].transfer)
    && (forall t :: t in transfers && transfers[t].completion.Some? ==> WasEmitted(t, emitted))
  }

  ghost predicate WasEmitted(t: nat, emitted: seq<Completion>) {
    exists i :: 0 <= i < |emitted| && emitted[i].transfer == t
  }

  ghost predicate OwnersOk(chunks: ChunkTable, transfers: TransferTable) {
    forall c :: c in chunks ==>
      chunks[c].chunk.transfer in transfers && c in transfers[chunks[c].chunk.transfer].chunks
  }

  ghost predicate AccountsOk(chunks: ChunkTable, transfers: TransferTable) {
    forall t :: t in transfers ==> AccountOk(t, transfers[t], chunks)
  }

  ghost predicate LedgerOk(chunks: ChunkTable, transfers: TransferTable, emitted: seq<Completion>) {
    OwnersOk(chunks, transfers) && AccountsOk(chunks, transfers) && EmittedOk(transfers, emitted)
  }

  // Motion lemmas

  /** A chunk record may change in ways that leave its place alone only if it is on no link. */
  lemma OffLinkUpdate(chunks: ChunkTable, links: LinkTable, arc: DirectedLinkId, limbo: seq<TransferChunk>,
                      c: nat, r: ChunkRecord)
    requires PlacesOk(chunks, links, arc, limbo)
    requires c in chunks ==> chunks[c].state != InLink
    requires r.state != InLink
    ensures PlacesOk(chunks[c := r], links, arc, limbo)
  {
    var chunks' := chunks[c := r];
    forall a | a in links ensures Seated(chunks', a, links[a].Contents()) {
      SeatedUnchanged(chunks, a, links[a].Contents(), c, r);
    }
    SeatedUnchanged(chunks, arc, limbo, c, r);
  }

  lemma SeatedUnchanged(chunks: ChunkTable, a: DirectedLinkId, contents: seq<TransferChunk>, c: nat, r: ChunkRecord)
    requires Seated(chunks, a, contents)
    requires c in chunks ==> chunks[c].state != InLink
    ensures Seated(chunks[c := r], a, contents)
  {
    forall i | 0 <= i < |contents| ensures Sits(chunks[c := r], a, contents[i]) {
      assert Sits(chunks, a, contents[i]);
    }
  }

  /** Joining the queue of its next hop. */
  lemma JoinLink(chunks: ChunkTable, links: LinkTable, c: nat, r: ChunkRecord, a: DirectedLinkId, l: Link)
    requires PlacesOk(chunks, links, DirectedLinkId(0, AToB), [])
    requires c in chunks && chunks[c].state != InLink && a in links
    requires r.state == InLink && r.chunk.id == c && r.chunk.hop == r.hop < |r.route| && r.route[r.hop] == a
    requires l.Contents() == links[a].Contents() + [r.chunk]
    ensures PlacesOk(chunks[c := r], links[a := l], DirectedLinkId(0, AToB), [])
  {
    var chunks', links' := chunks[c := r], links[a := l];
    forall b | b in links' ensures Seated(chunks', b, links'[b].Contents()) {
      SeatedUnchanged(chunks, b, links[b].Contents(), c, r);
      if b == a {
        SeatLast(chunks', a, links[a].Contents(), r.chunk);
      }
    }
    forall d | d in chunks' && chunks'[d].state == InLink && chunks'[d].hop < |chunks'[d].route|
               && chunks'[d].route[chunks'[d].hop] in links'
      ensures Among(d, links'[chunks'[d].route[chunks'[d].hop]].Contents())
    {
      if d == c {
        assert l.Contents()[|l.Contents()| - 1].id == c;
      } else if chunks'[d].route[chunks'[d].hop] == a {
        AmongMore(d, links[a].Contents(), r.chunk);
      }
    }
  }

  lemma SeatLast(chunks: ChunkTable, a: DirectedLinkId, contents: seq<TransferChunk>, chunk: TransferChunk)
    requires Seated(chunks, a, contents) && Sits(chunks, a, chunk)
    requires forall i :: 0 <= i < |contents| ==> contents[i].id != chunk.id
    ensures Seated(chunks, a, contents + [chunk])
  {
  }

  lemma AmongMore(c: nat, contents: seq<TransferChunk>, chunk: TransferChunk)
    requires Among(c, contents)
    ensures Among(c, contents + [chunk])
  {
    var i :| 0 <= i < |contents| && contents[i].id == c;
    assert (contents + [chunk])[i].id == c;
  }

  /** Leaving a queue from its head. */
  lemma LeaveLink(chunks: ChunkTable, links: LinkTable, c: nat, r: ChunkRecord, a: DirectedLinkId, l: Link)
    requires PlacesOk(chunks, links, DirectedLinkId(0, AToB), [])
    requires c in chunks && a in links && links[a].Contents() == [chunks[c].chunk] + l.Contents()
    requires Sits(chunks, a, chunks[c].chunk) && chunks[c].chunk.id == c && r.state != InLink
    ensures PlacesOk(chunks[c := r], links[a := l], DirectedLinkId(0, AToB), [])
  {
    var chunks', links' := chunks[c := r], links[a := l];
    forall b | b in links' ensures Seated(chunks', b, links'[b].Contents()) {
      SeatedOthers(chunks, a, b, links[b].Contents(), c, r);
    }
    forall d | d in chunks' && chunks'[d].state == InLink && chunks'[d].hop < |chunks'[d].route|
               && chunks'[d].route[chunks'[d].hop] in links'
      ensures Among(d, links'[chunks'[d].route[chunks'[d].hop]].Contents())
    {
      if chunks'[d].route[chunks'[d].hop] == a {
        AmongRest(d, links[a].Contents());
        assert links[a].Contents()[1..] == l.Contents();
      }
    }
  }

  /** A queue without its head stays seated when the head's record moves on; others never held it. */
  lemma SeatedOthers(chunks: ChunkTable, a: DirectedLinkId, b: DirectedLinkId, contents: seq<TransferChunk>,
                     c: nat, r: ChunkRecord)
    requires Seated(chunks, b, contents) && c in chunks && Sits(chunks, a, chunks[c].chunk) && chunks[c].chunk.id == c
    requires b == a ==> |contents| > 0 && contents[0].id == c
    ensures Seated(chunks[c := r], b, if b == a then contents[1..] else contents)
  {
    forall i | 0 <= i < |contents| && (b == a ==> i > 0) ensures Sits(chunks[c := r], b, contents[i]) {
      assert Sits(chunks, b, contents[i]);
    }
  }

  lemma AmongRest(c: nat, contents: seq<TransferChunk>)
    requires Among(c, contents)
    ensures contents[0].id != c ==> Among(c, contents[1..])
  {
    var i :| 0 <= i < |contents| && contents[i].id == c;
    if i > 0 {
      assert contents[1..][i - 1].id == c;
    }
  }

  /** Draining a link moves its queue into limbo. */
  lemma DrainToLimbo(chunks: ChunkTable, links: LinkTable, a: DirectedLinkId, l: Link)
    requires PlacesOk(chunks, links, DirectedLinkId(0, AToB), [])
    requires a in links && l.Contents() == []
    ensures PlacesOk(chunks, links[a := l], a, links[a].Contents())
  {
  }

  /** Marking the first chunk in limbo as dropped. */
  lemma DropFromLimbo(chunks: ChunkTable, links: LinkTable, a: DirectedLinkId, limbo: seq<TransferChunk>,
                      r: ChunkRecord)
    requires PlacesOk(chunks, links, a, limbo) && |limbo| > 0
    requires r.state != InLink
    ensures Sits(chunks, a, limbo[0])
    ensures PlacesOk(chunks[limbo[0].id := r], links, a, limbo[1..])
  {
    var c := limbo[0].id;
    assert Sits(chunks, a, limbo[0]);
    var chunks' := chunks[c := r];
    forall b | b in links ensures Seated(chunks', b, links[b].Contents()) {
      if b == a {
      } else {
        SeatedOthers(chunks, a, b, links[b].Contents(), c, r);
      }
    }
    SeatedOthers(chunks, a, a, limbo, c, r);
    forall d | d in chunks' && chunks'[d].state == InLink && chunks'[d].hop < |chunks'[d].route|
               && chunks'[d].route[chunks'[d].hop] in links
      ensures Among(d, links[chunks'[d].route[chunks'[d].hop]].Contents()) || Among(d, limbo[1..])
    {
      if Among(d, limbo) {
        AmongRest(d, limbo);
      }
    }
  }

  /** Once limbo is empty it does not matter which link it was of. */
  lemma LimboDone(chunks: ChunkTable, links: LinkTable, a: DirectedLinkId)
    requires PlacesOk(chunks, links, a, [])
    ensures PlacesOk(chunks, links, DirectedLinkId(0, AToB), [])
  {
  }

  // Pending events

  /** The events the transport runtime owns. */
  predicate IsTransport(p: Payload) {
    p.ChunkArrival? || p.TransmissionComplete?
  }

  /** Two queues hold the same transport events. */
  ghost predicate SameTransport(live: EventTable, live': EventTable) {
    && (forall e :: e in live && IsTransport(live[e].payload) ==> e in live' && live'[e] == live[e])
    && (forall e :: e in live' && IsTransport(live'[e].payload) ==> e in live && live[e] == live'[e])
  }

  /** Time passing and foreign events do not disturb motion. */
  lemma MotionFrame(chunks: ChunkTable, links: LinkTable, live: EventTable, now: nat, live': EventTable, now': nat)
    requires MotionOk(chunks, links, live, now) && SameTransport(live, live') && now <= now'
    ensures MotionOk(chunks, links, live', now')
  {
    hide RecordsOk, PlacesOk, LinkOk;
    assert CompletionsOk(links, live');
    assert ArrivalsOk(chunks, live');
  }

  lemma ArrivalConsumed(chunks: ChunkTable, live: EventTable, c: nat, e: nat, r: ChunkRecord)
    requires ArrivalsOk(chunks, live) && c in chunks && chunks[c].arrival == Some(e) && r.arrival == None
    ensures ArrivalsOk(chunks[c := r], live - {e})
  {
  }

  lemma ArrivalScheduled(chunks: ChunkTable, live: EventTable, c: nat, r: ChunkRecord, event: Event)
    requires ArrivalsOk(chunks, live) && (c in chunks ==> chunks[c].arrival == None)
    requires event.id !in live && r.arrival == Some(event.id) && event.payload == ChunkArrival(c, r.hop)
    ensures ArrivalsOk(chunks[c := r], live[event.id := event])
  {
  }

  lemma ArrivalsKept(chunks: ChunkTable, live: EventTable, c: nat, r: ChunkRecord)
    requires ArrivalsOk(chunks, live) && (c in chunks ==> chunks[c].arrival == None) && r.arrival == None
    ensures ArrivalsOk(chunks[c := r], live)
  {
  }

  lemma ArrivalsWith(chunks: ChunkTable, live: EventTable, event: Event)
    requires ArrivalsOk(chunks, live) && event.id !in live && !event.payload.ChunkArrival?
    ensures ArrivalsOk(chunks, live[event.id := event])
  {
  }

  lemma ArrivalsWithout(chunks: ChunkTable, live: EventTable, e: nat)
    requires ArrivalsOk(chunks, live) && (e in live ==> !live[e].payload.ChunkArrival?)
    ensures ArrivalsOk(chunks, live - {e})
  {
  }

  lemma CompletionsWith(links: LinkTable, live: EventTable, event: Event)
    requires CompletionsOk(links, live) && event.id !in live && !event.payload.TransmissionComplete?
    ensures CompletionsOk(links, live[event.id := event])
  {
  }

  lemma CompletionsWithout(links: LinkTable, live: EventTable, e: nat)
    requires CompletionsOk(links, live) && (e in live ==> !live[e].payload.TransmissionComplete?)
    ensures CompletionsOk(links, live - {e})
  {
  }

  /** A link changes without touching its completion event. */
  lemma CompletionsKept(links: LinkTable, live: EventTable, a: DirectedLinkId, l: Link)
    requires CompletionsOk(links, live) && a in links
    requires l.completion == links[a].completion && l.queue.active == links[a].queue.active
    ensures CompletionsOk(links[a := l], live)
  {
  }

  lemma CompletionStarted(links: LinkTable, live: EventTable, a: DirectedLinkId, l: Link, event: Event)
    requires CompletionsOk(links, live) && a in links && links[a].completion == None
    requires event.id !in live && l.completion == Some(event.id) && l.queue.active.Some?
    requires event.payload == TransmissionComplete(a, l.queue.active.value.id, l.queue.active.value.hop)
    ensures CompletionsOk(links[a := l], live[event.id := event])
  {
  }

  lemma CompletionEnded(links: LinkTable, live: EventTable, a: DirectedLinkId, l: Link, e: nat)
    requires CompletionsOk(links, live) && a in links && links[a].completion == Some(e) && l.completion == None
    requires links[a].queue.active.Some?
    ensures CompletionsOk(links[a := l], live - {e})
  {
  }
}
