/**
 * When registrations, reports and confirmations are accepted, said without reference to what the map
 * search found, and what an accepted one does to the lists and to the peers.
 */
module Verdicts {
  import opened Text
  import opened Keys
  import opened Model
  import opened Payloads
  import opened Store
  import opened ChunkHistory
  import opened ChunkLaws
  import opened Index
  import opened Acceptance

  predicate Signed(v: Verifier, p: Peer, signature: string, message: string) {
    p.signatureKey != "" && v(p.signatureKey, signature, message)
  }

  /** Some live peer with the key has signed the message. */
  ghost predicate SignedByHolder(v: Verifier, peers: map<string, Peer>, key: string, now: int,
                                 signature: string, message: string)
  {
    exists id :: HoldsKey(peers, id, key, now) && Signed(v, peers[id], signature, message)
  }

  lemma PickSigns(v: Verifier, peers: map<string, Peer>, key: string, now: int, pick: string,
                  signature: string, message: string)
    requires NoColonInSignatureKeys(peers) && LegalPick(peers, key, now, pick)
    ensures var p := PeerByKey(peers, key, now, pick);
            (p.Some? && CheckSignature(v, p.value, signature, message) == None)
            <==> SignedByHolder(v, peers, key, now, signature, message)
  {
    forall id | HoldsKey(peers, id, key, now)
      ensures HoldsKey(peers, pick, key, now) && peers[pick].signatureKey == peers[id].signatureKey
    {
      PeerKeyDetermines(peers[id].login, peers[id].signatureKey, peers[pick].login, peers[pick].signatureKey);
    }
  }

  // ---------------------------------------------------------------- registering

  predicate ChunkWellFormed(file: string, index: int, req: ChunkRequest) {
    && Trim(file) != "" && Trim(req.sender) != "" && Trim(req.recipient) != "" && Trim(req.peerId) != ""
    && ValidHash(NormalizeHash(req.hash)) && index >= 0 && Trim(req.signature) != ""
  }

  lemma SetChunkAcceptedIff(v: Verifier, s: State, now: int, file: string, index: int, req: ChunkRequest, pick: string)
    requires NoColonInSignatureKeys(s.peers) && LegalPick(s.peers, Trim(req.sender), now, pick)
    ensures SetChunk(v, s, now, file, index, req, pick).1.Ok? <==>
            && ChunkWellFormed(file, index, req)
            && SignedByHolder(v, s.peers, Trim(req.sender), now, req.signature,
                              ExpectedPayload(Trim(file), index, NormalizeHash(req.hash)))
  {
    PickSigns(v, s.peers, Trim(req.sender), now, pick, req.signature,
              ExpectedPayload(Trim(file), index, NormalizeHash(req.hash)));
  }

  lemma CollectAppended<A, B>(xs: seq<A>, x: A, p: A -> bool, f: A -> B)
    ensures Collect(xs + [x], p, f) == Collect(xs, p, f) + (if p(x) then [f(x)] else [])
  {
    assert (xs + [x])[..|xs|] == xs;
  }

  /**
   * An accepted chunk is listed for its recipient from that second on, behind all older entries, unconfirmed
   * and unread; nobody else's list changes. It comes back with its file id and index iff the id has no '#',
   * and with the part before the '#' otherwise.
   */
  lemma RegisteredChunkIsListed(v: Verifier, s: State, now: int, file: string, index: int, req: ChunkRequest,
                                pick: string)
    returns (r: Record)
    requires SetChunk(v, s, now, file, index, req, pick).1.Ok?
    ensures var s' := SetChunk(v, s, now, file, index, req, pick).0;
            forall recipient, from ::
              RecordsFor(s'.chunks, recipient, from)
              == RecordsFor(s.chunks, recipient, from)
                 + (if recipient == Trim(req.recipient) && from <= Sec(now) then [r] else [])
    ensures r.sender == Trim(req.sender) && r.recipient == Trim(req.recipient) && r.peerId == Trim(req.peerId)
    ensures r.hash == NormalizeHash(req.hash) && r.persist == req.persist && !r.confirmed && !r.readed
    ensures r.createdAt == r.updatedAt == Sec(now) && r.ttl == (if req.ttl <= 0 then 86_400 else req.ttl)
    ensures r.fileId == BeforeHash(Trim(file))
    ensures index <= MAX_INT64 ==> (r.fileId == Trim(file) && r.index == index <==> '#' !in Trim(file))
  {
    var c := SetChunk(v, s, now, file, index, req, pick).0.chunks;
    var entry := c[|s.chunks|];
    assert c == s.chunks + [entry];
    r := RecordOf(entry);
    ParsedFileId(Trim(file), index);
    if index <= MAX_INT64 {
      ParseUndoesChunkKey(Trim(file), index);
    }
    forall recipient, from
      ensures RecordsFor(c, recipient, from)
           == RecordsFor(s.chunks, recipient, from)
              + (if recipient == Trim(req.recipient) && from <= Sec(now) then [r] else [])
    {
      CollectAppended(s.chunks, entry, (e: Entry) => e.recipient == recipient && e.updatedAt >= from, RecordOf);
    }
  }

  // ---------------------------------------------------------------- reporting

  predicate ReportWellFormed(source: string, req: ReportRequest) {
    && Trim(source) != "" && Trim(req.reporter) != "" && Trim(req.fileId) != ""
    && ValidHash(NormalizeHash(req.hash)) && req.index >= 0 && Trim(req.signature) != ""
  }

  lemma FirstWithKeyExists(chunks: seq<Entry>, key: string, i: int) returns (k: int)
    requires 0 <= i < |chunks| && chunks[i].key == key
    ensures FirstWithKey(chunks, key, k)
  {
    if j :| 0 <= j < i && chunks[j].key == key {
      k := FirstWithKeyExists(chunks, key, j);
    } else {
      k := i;
    }
  }

  lemma ReportAcceptedIff(v: Verifier, s: State, t: int, source: string, req: ReportRequest)
    requires Sound(s, t)
    ensures Report(v, s, source, req).1.Ok? <==>
            && ReportWellFormed(source, req)
            && Trim(req.reporter) in s.peers && Trim(source) in s.peers
            && Signed(v, s.peers[Trim(req.reporter)], req.signature,
                      ReportedPayload(Trim(req.fileId), req.index, NormalizeHash(req.hash), Trim(source)))
            && exists i :: 0 <= i < |s.chunks| && s.chunks[i].key == ChunkKey(Trim(req.fileId), req.index)
  {
    EmptyHashMeansUnknown(s.chunks, ChunkKey(Trim(req.fileId), req.index));
  }

  /** The counters of a peer after one verdict on it. */
  predicate Counted(before: Peer, after: Peer, valid: bool) {
    && after.quality.valid == before.quality.valid + (if valid then 1 else 0)
    && after.quality.invalid == before.quality.invalid + (if valid then 0 else 1)
    && after.score - before.score == (if valid then 1 else -1)
    && after == before.(score := after.score, quality := after.quality)
  }

  /** Only the record of `id` differs. */
  ghost predicate OnlyDiffersAt(a: map<string, Peer>, b: map<string, Peer>, id: string) {
    a.Keys == b.Keys && id in a && forall x :: x in a && x != id ==> a[x] == b[x]
  }

  /** A report is judged by the first registration of the chunk, and moves its source by one point. */
  lemma ReportVerdict(v: Verifier, s: State, t: int, source: string, req: ReportRequest)
    requires Sound(s, t) && Report(v, s, source, req).1.Ok?
    ensures var (s', r) := Report(v, s, source, req);
            && (exists i :: FirstWithKey(s.chunks, ChunkKey(Trim(req.fileId), req.index), i)
                            && r.value.expected == s.chunks[i].hash)
            && (r.value.valid <==> NormalizeHash(req.hash) == r.value.expected)
            && r.value.given == NormalizeHash(req.hash) && r.value.delta == (if r.value.valid then 1 else -1)
            && Trim(source) in s'.peers && r.value.peer == s'.peers[Trim(source)]
            && OnlyDiffersAt(s.peers, s'.peers, Trim(source))
            && Counted(s.peers[Trim(source)], s'.peers[Trim(source)], r.value.valid)
            && s'.chunks == s.chunks
  {
    var key := ChunkKey(Trim(req.fileId), req.index);
    EmptyHashMeansUnknown(s.chunks, key);
    var i :| 0 <= i < |s.chunks| && s.chunks[i].key == key;
    var k := FirstWithKeyExists(s.chunks, key, i);
  }

  // ---------------------------------------------------------------- confirming

  predicate ConfirmWellFormed(req: ConfirmRequest) {
    && Trim(req.recipient) != "" && Trim(req.fileId) != "" && ValidHash(NormalizeHash(req.hash)) && req.index >= 0
    && Trim(req.signature) != ""
  }

  /** Entry `i` is the first one of the chunk for the recipient. */
  predicate IsFirstFor(chunks: seq<Entry>, key: string, recipient: string, i: int) {
    && 0 <= i < |chunks| && Addressed(chunks[i], key, recipient)
    && forall j :: 0 <= j < i ==> !Addressed(chunks[j], key, recipient)
  }

  lemma ConfirmAcceptedIff(v: Verifier, s: State, now: int, req: ConfirmRequest, pick: string, senderPick: string)
    requires NoColonInSignatureKeys(s.peers) && LegalOp(s, Event(now, OpConfirm(req, pick, senderPick)))
    ensures Confirm(v, s, now, req, pick, senderPick).1.Ok? <==>
            && ConfirmWellFormed(req)
            && SignedByHolder(v, s.peers, Trim(req.recipient), now, req.signature,
                              ConfirmedPayload(Trim(req.fileId), req.index, NormalizeHash(req.hash)))
            && exists i :: IsFirstFor(s.chunks, ChunkKey(Trim(req.fileId), req.index), Trim(req.recipient), i)
                           && SomeoneHolds(s.peers, s.chunks[i].sender, now)
  {
    PickSigns(v, s.peers, Trim(req.recipient), now, pick, req.signature,
              ConfirmedPayload(Trim(req.fileId), req.index, NormalizeHash(req.hash)));
    var key, recipient := ChunkKey(Trim(req.fileId), req.index), Trim(req.recipient);
    var k := FirstFor(s.chunks, key, recipient);
    forall i | IsFirstFor(s.chunks, key, recipient, i)
      ensures i == k
    {
    }
    assert k >= 0 ==> IsFirstFor(s.chunks, key, recipient, k);
    assert k >= 0 ==> (HoldsKey(s.peers, senderPick, s.chunks[k].sender, now)
                       <==> SomeoneHolds(s.peers, s.chunks[k].sender, now));
  }

  /**
   * A confirmation is judged by the recipient's first entry of the chunk. If it is valid, that entry and
   * no other becomes confirmed and restamped; a live holder of the sender's key moves by one point.
   */
  lemma ConfirmVerdict(v: Verifier, s: State, now: int, req: ConfirmRequest, pick: string, senderPick: string)
    requires FiledById(s.peers) && Confirm(v, s, now, req, pick, senderPick).1.Ok?
    ensures var (s', r) := Confirm(v, s, now, req, pick, senderPick);
            && OnlyDiffersAt(s.peers, s'.peers, senderPick)
            && Counted(s.peers[senderPick], s'.peers[senderPick], r.value.valid)
            && r.value.given == NormalizeHash(req.hash) && r.value.delta == (if r.value.valid then 1 else -1)
            && r.value.peer == s'.peers[senderPick]
            && (r.value.valid <==> NormalizeHash(req.hash) == r.value.expected)
            && exists i :: IsFirstFor(s.chunks, ChunkKey(Trim(req.fileId), req.index), Trim(req.recipient), i)
                 && r.value.expected == s.chunks[i].hash
                 && HoldsKey(s.peers, senderPick, s.chunks[i].sender, now)
                 && s'.chunks == (if r.value.valid
                                  then s.chunks[i := s.chunks[i].(confirmed := true, updatedAt := Sec(now))]
                                  else s.chunks)
  {
    var key, recipient := ChunkKey(Trim(req.fileId), req.index), Trim(req.recipient);
    var i := FirstFor(s.chunks, key, recipient);
    assert IsFirstFor(s.chunks, key, recipient, i);
  }

  // ---------------------------------------------------------------- marking as read

  /** A read is accepted iff a live holder of the recipient's key signed it and an entry of his answers to it. */
  lemma ReadAcceptedIff(v: Verifier, s: State, now: int, req: ReadRequest, pick: string)
    requires NoColonInSignatureKeys(s.peers) && LegalPick(s.peers, Trim(req.recipient), now, pick)
    ensures Read(v, s, now, req, pick).1.Ok? <==>
            && Trim(req.fileId) != "" && Trim(req.signature) != ""
            && SignedByHolder(v, s.peers, Trim(req.recipient), now, req.signature,
                              "muninn/read/v1\n" + Trim(req.fileId))
            && exists i :: 0 <= i < |s.chunks| && s.chunks[i].recipient == Trim(req.recipient)
                           && KeyFileId(s.chunks[i].key) == Trim(req.fileId)
  {
    PickSigns(v, s.peers, Trim(req.recipient), now, pick, req.signature, ReadPayload(Trim(req.fileId)));
    if i :| 0 <= i < |s.chunks| && s.chunks[i].recipient == Trim(req.recipient)
            && KeyFileId(s.chunks[i].key) == Trim(req.fileId) {
      assert ReadTarget(s.chunks[i], Trim(req.recipient), Trim(req.fileId));
    }
  }
}
