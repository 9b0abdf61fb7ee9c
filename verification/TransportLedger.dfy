/** How each step of the transport runtime keeps the transfer accounts. */
module TransportLedger {
  import opened Prelude
  import opened Events
  import opened Links
  import opened TransportState

  function Amount(r: ChunkRecord, state: Transit): Traffic {
    if r.state == state then One(r.chunk) else Traffic(0, 0)
  }

  /** Sums over a list ignore chunks outside it. */
  lemma {:induction false} SumsElsewhere(list: seq<nat>, chunks: ChunkTable, c: nat, r: ChunkRecord, state: Transit)
    requires forall i :: 0 <= i < |list| ==> list[i] in chunks && list[i] != c
    ensures BytesIn(list, chunks[c := r], state) == BytesIn(list, chunks, state)
    ensures CountIn(list, chunks[c := r], state) == CountIn(list, chunks, state)
    ensures TotalBytes(list, chunks[c := r]) == TotalBytes(list, chunks)
  {
    if |list| > 0 {
      SumsElsewhere(list[..|list| - 1], chunks, c, r, state);
    }
  }

  /** A chunk that changes state takes its traffic from one sum to another. */
  lemma {:induction false} SumsMove(list: seq<nat>, chunks: ChunkTable, k: nat, r: ChunkRecord, state: Transit)
    requires forall i :: 0 <= i < |list| ==> list[i] in chunks
    requires forall i, j :: 0 <= i < j < |list| ==> list[i] != list[j]
    requires k < |list| && r.chunk.bytes == chunks[list[k]].chunk.bytes
    ensures BytesIn(list, chunks[list[k] := r], state) + Amount(chunks[list[k]], state).bytes
         == BytesIn(list, chunks, state) + Amount(r, state).bytes
    ensures CountIn(list, chunks[list[k] := r], state) + Amount(chunks[list[k]], state).chunks
         == CountIn(list, chunks, state) + Amount(r, state).chunks
    ensures TotalBytes(list, chunks[list[k] := r]) == TotalBytes(list, chunks)
  {
    var last := |list| - 1;
    if k == last {
      SumsElsewhere(list[..last], chunks, list[k], r, state);
    } else {
      SumsMove(list[..last], chunks, k, r, state);
    }
  }

  /** The three outcomes together cover a list exactly when every chunk has ended. */
  lemma {:induction false} OutcomesCover(list: seq<nat>, chunks: ChunkTable)
    requires forall i :: 0 <= i < |list| ==> list[i] in chunks
    ensures CountIn(list, chunks, Delivered) + CountIn(list, chunks, LostBufferFull)
            + CountIn(list, chunks, LostLinkDown) <= |list|
    ensures AllTerminal(list, chunks) <==>
            |list| == CountIn(list, chunks, Delivered) + CountIn(list, chunks, LostBufferFull)
                      + CountIn(list, chunks, LostLinkDown)
    ensures AllTerminal(list, chunks) ==>
              BytesIn(list, chunks, Delivered) + BytesIn(list, chunks, LostBufferFull)
              + BytesIn(list, chunks, LostLinkDown) == TotalBytes(list, chunks)
  {
    if |list| > 0 {
      OutcomesCover(list[..|list| - 1], chunks);
    }
  }

  lemma ListElsewhere(t: nat, list: seq<nat>, chunks: ChunkTable, c: nat, r: ChunkRecord)
    requires ListOk(t, list, chunks) && r.chunk.transfer != t
    requires c in chunks ==> chunks[c].chunk.transfer != t
    ensures ListOk(t, list, chunks[c := r]) && forall i :: 0 <= i < |list| ==> list[i] != c
  {
  }

  /** Another transfer's account does not notice. */
  lemma AccountElsewhere(t: nat, a: TransferRecord, chunks: ChunkTable, c: nat, r: ChunkRecord)
    requires AccountOk(t, a, chunks) && r.chunk.transfer != t
    requires c in chunks ==> chunks[c].chunk.transfer != t
    ensures AccountOk(t, a, chunks[c := r])
  {
    ListElsewhere(t, a.chunks, chunks, c, r);
    SumsElsewhere(a.chunks, chunks, c, r, Delivered);
    SumsElsewhere(a.chunks, chunks, c, r, LostBufferFull);
    SumsElsewhere(a.chunks, chunks, c, r, LostLinkDown);
    hide BytesIn, CountIn, TotalBytes;
  }

  /** A chunk in motion moves on; `started` may seal its transfer. */
  lemma AccountInMotion(t: nat, a: TransferRecord, chunks: ChunkTable, k: nat, r: ChunkRecord, started: Option<nat>)
    requires AccountOk(t, a, chunks) && k < |a.chunks|
    requires r.chunk.transfer == t && r.chunk.bytes == chunks[a.chunks[k]].chunk.bytes
    requires !chunks[a.chunks[k]].state.Terminal() && !r.state.Terminal() && started.Some?
    ensures AccountOk(t, a.(startedAt := started), chunks[a.chunks[k] := r])
  {
    SumsMove(a.chunks, chunks, k, r, Delivered);
    SumsMove(a.chunks, chunks, k, r, LostBufferFull);
    SumsMove(a.chunks, chunks, k, r, LostLinkDown);
    hide BytesIn, CountIn, TotalBytes;
    assert !AllTerminal(a.chunks, chunks);
    assert !AllTerminal(a.chunks, chunks[a.chunks[k] := r]) by {
      assert chunks[a.chunks[k] := r][a.chunks[k]] == r;
    }
  }

  /** `record_terminal`: add the chunk's outcome and, if it was the last chunk, the completion. */
  function Settled(t: nat, a: TransferRecord, count: Traffic, state: Transit, now: nat): TransferRecord {
    var b := match state
             case Delivered => a.(delivered := a.delivered.Plus(count))
             case LostBufferFull => a.(bufferFull := a.bufferFull.Plus(count))
             case _ => a.(linkDown := a.linkDown.Plus(count));
    var drops := b.bufferFull.Plus(b.linkDown);
    if b.delivered.Plus(drops).chunks == b.total.chunks then
      b.(completion := Some(Completion(t, drops.chunks == 0, now, b.delivered, b.bufferFull, b.linkDown)))
    else b
  }

  lemma SettledSums(t: nat, a: TransferRecord, chunks: ChunkTable, k: nat, r: ChunkRecord, now: nat)
    requires ListOk(t, a.chunks, chunks) && SumsOk(a, chunks) && k < |a.chunks|
    requires r.chunk.bytes == chunks[a.chunks[k]].chunk.bytes
    requires !chunks[a.chunks[k]].state.Terminal() && r.state.Terminal()
    ensures SumsOk(Settled(t, a, One(r.chunk), r.state, now), chunks[a.chunks[k] := r])
  {
    hide BytesIn, CountIn, TotalBytes;
    SumsMove(a.chunks, chunks, k, r, Delivered);
    SumsMove(a.chunks, chunks, k, r, LostBufferFull);
    SumsMove(a.chunks, chunks, k, r, LostLinkDown);
  }

  lemma AccountSettles(t: nat, a: TransferRecord, chunks: ChunkTable, k: nat, r: ChunkRecord, now: nat)
    requires AccountOk(t, a, chunks) && k < |a.chunks|
    requires r.chunk.transfer == t && r.chunk.bytes == chunks[a.chunks[k]].chunk.bytes
    requires !chunks[a.chunks[k]].state.Terminal() && r.state.Terminal() && a.startedAt.Some?
    ensures a.completion == None
    ensures AccountOk(t, Settled(t, a, One(r.chunk), r.state, now), chunks[a.chunks[k] := r])
    ensures var b := Settled(t, a, One(r.chunk), r.state, now);
            b.completion.Some? ==> b.delivered.bytes + b.bufferFull.bytes + b.linkDown.bytes == b.total.bytes
  {
    hide BytesIn, CountIn, TotalBytes;
    var chunks' := chunks[a.chunks[k] := r];
    SettledSums(t, a, chunks, k, r, now);
    OutcomesCover(a.chunks, chunks');
    assert !AllTerminal(a.chunks, chunks);
  }

  /** A new chunk joins an unsealed transfer. */
  lemma AccountGrows(t: nat, a: TransferRecord, chunks: ChunkTable, c: nat, r: ChunkRecord)
    requires AccountOk(t, a, chunks) && a.startedAt == None && c !in chunks
    requires r.chunk.transfer == t && r.state == Registered
    ensures AccountOk(t, a.(chunks := a.chunks + [c], total := a.total.Plus(One(r.chunk))), chunks[c := r])
    ensures a.completion == None
  {
    var chunks', list := chunks[c := r], a.chunks + [c];
    assert list[..|a.chunks|] == a.chunks;
    SumsElsewhere(a.chunks, chunks, c, r, Delivered);
    SumsElsewhere(a.chunks, chunks, c, r, LostBufferFull);
    SumsElsewhere(a.chunks, chunks, c, r, LostLinkDown);
    assert chunks[a.chunks[0]].state == Registered;
    assert chunks'[list[|a.chunks|]].state == Registered;
    assert !AllTerminal(list, chunks') && !AllTerminal(a.chunks, chunks);
  }

  lemma SingleSums(chunks: ChunkTable, c: nat, state: Transit)
    requires c in chunks
    ensures BytesIn([c], chunks, state) == Amount(chunks[c], state).bytes
    ensures CountIn([c], chunks, state) == Amount(chunks[c], state).chunks
    ensures TotalBytes([c], chunks) == chunks[c].chunk.bytes
  {
    assert [c][..0] == [];
  }

  /** The first chunk of a transfer. */
  lemma AccountOpens(t: nat, chunks: ChunkTable, c: nat, r: ChunkRecord)
    requires c !in chunks && r.chunk.transfer == t && r.state == Registered
    ensures AccountOk(t, TransferRecord([c], One(r.chunk), Traffic(0, 0), Traffic(0, 0), Traffic(0, 0), None, None),
                      chunks[c := r])
  {
    var chunks', list := chunks[c := r], [c];
    SingleSums(chunks', c, Delivered);
    SingleSums(chunks', c, LostBufferFull);
    SingleSums(chunks', c, LostLinkDown);
    assert chunks'[list[0]].state == Registered;
    assert !AllTerminal(list, chunks');
  }

  ghost function IndexOf(list: seq<nat>, c: nat): (k: nat)
    requires c in list
    ensures k < |list| && list[k] == c
  {
    var k :| 0 <= k < |list| && list[k] == c;
    k
  }

  lemma OwnersKept(chunks: ChunkTable, transfers: TransferTable, c: nat, r: ChunkRecord, a: TransferRecord)
    requires OwnersOk(chunks, transfers) && r.chunk.transfer in transfers
    requires c in a.chunks && forall d :: d in transfers[r.chunk.transfer].chunks ==> d in a.chunks
    ensures OwnersOk(chunks[c := r], transfers[r.chunk.transfer := a])
  {
  }

  lemma AccountsElsewhere(chunks: ChunkTable, transfers: TransferTable, c: nat, r: ChunkRecord, t: nat,
                          a: TransferRecord)
    requires AccountsOk(chunks, transfers) && r.chunk.transfer == t
    requires c in chunks ==> chunks[c].chunk.transfer == t
    requires AccountOk(t, a, chunks[c := r])
    ensures AccountsOk(chunks[c := r], transfers[t := a])
  {
    forall u | u in transfers && u != t ensures AccountOk(u, transfers[u], chunks[c := r]) {
      AccountElsewhere(u, transfers[u], chunks, c, r);
    }
  }

  /** A chunk in motion moves on: nothing is settled. */
  lemma LedgerInMotion(chunks: ChunkTable, transfers: TransferTable, emitted: seq<Completion>, c: nat, r: ChunkRecord,
                       started: Option<nat>)
    requires LedgerOk(chunks, transfers, emitted) && c in chunks
    requires r.chunk.transfer == chunks[c].chunk.transfer && r.chunk.bytes == chunks[c].chunk.bytes
    requires !chunks[c].state.Terminal() && !r.state.Terminal() && started.Some?
    ensures r.chunk.transfer in transfers
    ensures LedgerOk(chunks[c := r],
                     transfers[r.chunk.transfer := transfers[r.chunk.transfer].(startedAt := started)], emitted)
  {
    var t := r.chunk.transfer;
    var a := transfers[t];
    var k := IndexOf(a.chunks, c);
    AccountInMotion(t, a, chunks, k, r, started);
    AccountsElsewhere(chunks, transfers, c, r, t, a.(startedAt := started));
    OwnersKept(chunks, transfers, c, r, a.(startedAt := started));
    hide AccountsOk, OwnersOk, AccountOk;
  }

  /** A chunk ends: its transfer settles it, and a completion is emitted exactly when it is the last. */
  lemma LedgerSettles(chunks: ChunkTable, transfers: TransferTable, emitted: seq<Completion>, c: nat, r: ChunkRecord,
                      now: nat)
    requires LedgerOk(chunks, transfers, emitted) && c in chunks
    requires r.chunk.transfer == chunks[c].chunk.transfer && r.chunk.bytes == chunks[c].chunk.bytes
    requires !chunks[c].state.Terminal() && chunks[c].state != Registered && r.state.Terminal()
    ensures r.chunk.transfer in transfers && transfers[r.chunk.transfer].completion == None
    ensures var t := r.chunk.transfer; var b := Settled(t, transfers[t], One(r.chunk), r.state, now);
            && LedgerOk(chunks[c := r], transfers[t := b],
                        if b.completion.Some? then emitted + [b.completion.value] else emitted)
            && (b.completion.Some? ==> b.delivered.bytes + b.bufferFull.bytes + b.linkDown.bytes == b.total.bytes)
  {
    var t := r.chunk.transfer;
    var a := transfers[t];
    var k := IndexOf(a.chunks, c);
    assert AccountOk(t, a, chunks);
    AccountSettles(t, a, chunks, k, r, now);
    var b := Settled(t, a, One(r.chunk), r.state, now);
    AccountsElsewhere(chunks, transfers, c, r, t, b);
    OwnersKept(chunks, transfers, c, r, b);
    hide AccountsOk, OwnersOk, AccountOk;
    EmitSettled(transfers, emitted, t, b);
  }

  lemma EmitSettled(transfers: TransferTable, emitted: seq<Completion>, t: nat, b: TransferRecord)
    requires EmittedOk(transfers, emitted) && t in transfers && transfers[t].completion == None
    requires b.completion.Some? ==> b.completion.value.transfer == t
    ensures EmittedOk(transfers[t := b], if b.completion.Some? then emitted + [b.completion.value] else emitted)
  {
    if b.completion.Some? {
      var emitted' := emitted + [b.completion.value];
      forall u | u in transfers[t := b] && transfers[t := b][u].completion.Some? ensures WasEmitted(u, emitted') {
        if u == t {
          assert emitted'[|emitted|].transfer == t;
        } else {
          assert WasEmitted(u, emitted);
          var i :| 0 <= i < |emitted| && emitted[i].transfer == u;
          assert emitted'[i].transfer == u;
        }
      }
    }
  }

  /** The account a registration leaves behind. */
  function Enrolled(transfers: TransferTable, chunk: TransferChunk): TransferRecord {
    if chunk.transfer in transfers then
      var a := transfers[chunk.transfer];
      a.(chunks := a.chunks + [chunk.id], total := a.total.Plus(One(chunk)))
    else
      TransferRecord([chunk.id], One(chunk), Traffic(0, 0), Traffic(0, 0), Traffic(0, 0), None, None)
  }

  lemma LedgerGrows(chunks: ChunkTable, transfers: TransferTable, emitted: seq<Completion>, r: ChunkRecord)
    requires LedgerOk(chunks, transfers, emitted) && r.chunk.id !in chunks && r.state == Registered
    requires r.chunk.transfer in transfers ==> transfers[r.chunk.transfer].startedAt == None
    ensures LedgerOk(chunks[r.chunk.id := r], transfers[r.chunk.transfer := Enrolled(transfers, r.chunk)], emitted)
  {
    hide AccountOk, EmittedOk;
    var t, c := r.chunk.transfer, r.chunk.id;
    var b := Enrolled(transfers, r.chunk);
    if t in transfers {
      AccountGrows(t, transfers[t], chunks, c, r);
    } else {
      AccountOpens(t, chunks, c, r);
    }
    AccountsElsewhere(chunks, transfers, c, r, t, b);
    KeepEmitted(transfers, emitted, t, b);
  }

  lemma KeepEmitted(transfers: TransferTable, emitted: seq<Completion>, t: nat, b: TransferRecord)
    requires EmittedOk(transfers, emitted) && (t in transfers ==> transfers[t].completion == None)
    requires b.completion == None
    ensures EmittedOk(transfers[t := b], emitted)
  {
  }

  /** Bytes and chunks of a transfer are conserved over the states its chunks can be in. */
  lemma {:induction false} StatesPartition(list: seq<nat>, chunks: ChunkTable)
    requires forall i :: 0 <= i < |list| ==> list[i] in chunks
    ensures TotalBytes(list, chunks) ==
            BytesIn(list, chunks, Registered) + BytesIn(list, chunks, AwaitingArrival) + BytesIn(list, chunks, InLink)
            + BytesIn(list, chunks, Delivered) + BytesIn(list, chunks, LostBufferFull)
              + BytesIn(list, chunks, LostLinkDown)
    ensures |list| ==
            CountIn(list, chunks, Registered) + CountIn(list, chunks, AwaitingArrival) + CountIn(list, chunks, InLink)
            + CountIn(list, chunks, Delivered) + CountIn(list, chunks, LostBufferFull)
              + CountIn(list, chunks, LostLinkDown)
  {
    if |list| > 0 {
      StatesPartition(list[..|list| - 1], chunks);
    }
  }

  // Snapshots

  datatype Category = Unlaunched | Initial | Active | Delayed | InFlight | Past

  /** Where a snapshot counts a chunk; every chunk that ended is counted by its transfer already. */
  function CategoryOf(c: nat, r: ChunkRecord, links: LinkTable): Category {
    match r.state
    case Registered => Unlaunched
    case AwaitingArrival => if r.hop == 0 then Initial else InFlight
    case InLink =>
      if r.hop < |r.route| && r.route[r.hop] in links && links[r.route[r.hop]].queue.active.Some?
         && links[r.route[r.hop]].queue.active.value.id == c then Active else Delayed
    case _ => Past
  }

  ghost function Share(list: seq<nat>, chunks: ChunkTable, links: LinkTable, category: Category): Traffic
    requires forall i :: 0 <= i < |list| ==> list[i] in chunks
  {
    if |list| == 0 then Traffic(0, 0)
    else
      var c := list[|list| - 1];
      var rest := Share(list[..|list| - 1], chunks, links, category);
      if CategoryOf(c, chunks[c], links) == category then rest.Plus(One(chunks[c].chunk)) else rest
  }

  /** The shares of the open categories and the three outcomes make up a transfer, in bytes and chunks. */
  lemma {:induction false} SharesPartition(list: seq<nat>, chunks: ChunkTable, links: LinkTable)
    requires forall i :: 0 <= i < |list| ==> list[i] in chunks
    ensures In(list, chunks, Registered) == Share(list, chunks, links, Unlaunched)
    ensures In(list, chunks, AwaitingArrival)
            == Share(list, chunks, links, Initial).Plus(Share(list, chunks, links, InFlight))
    ensures In(list, chunks, InLink) == Share(list, chunks, links, Active).Plus(Share(list, chunks, links, Delayed))
  {
    if |list| > 0 {
      SharesPartition(list[..|list| - 1], chunks, links);
    }
  }

  ghost predicate Balanced(r: TransferRecord, registered: Traffic, awaiting: Traffic, waiting: Traffic, active: Traffic,
                           propagating: Traffic)
  {
    r.total == registered.Plus(awaiting).Plus(waiting).Plus(active).Plus(propagating)
               .Plus(r.delivered).Plus(r.bufferFull).Plus(r.linkDown)
  }

  lemma SnapshotBalances(t: nat, r: TransferRecord, chunks: ChunkTable, links: LinkTable)
    requires AccountOk(t, r, chunks)
    ensures Balanced(r, Share(r.chunks, chunks, links, Unlaunched), Share(r.chunks, chunks, links, Initial),
                     Share(r.chunks, chunks, links, Delayed), Share(r.chunks, chunks, links, Active),
                     Share(r.chunks, chunks, links, InFlight))
  {
    SharesPartition(r.chunks, chunks, links);
    StatesPartition(r.chunks, chunks);
    hide Share, BytesIn, CountIn, TotalBytes;
  }

  lemma ShareNext(list: seq<nat>, k: nat, chunks: ChunkTable, links: LinkTable, category: Category)
    requires forall i :: 0 <= i < |list| ==> list[i] in chunks
    requires k < |list|
    ensures Share(list[..k + 1], chunks, links, category) ==
            if CategoryOf(list[k], chunks[list[k]], links) == category
            then Share(list[..k], chunks, links, category).Plus(One(chunks[list[k]].chunk))
            else Share(list[..k], chunks, links, category)
  {
    assert list[..k + 1][..k] == list[..k];
  }
}
