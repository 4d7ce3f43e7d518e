/** Which error each operation reports, and when; together with the acceptance conditions this covers every input. */
module Rejections {
  import opened Text
  import opened Keys
  import opened Model
  import opened Payloads
  import opened Store
  import opened ChunkHistory
  import opened ChunkLaws
  import opened Index
  import opened Acceptance
  import opened Verdicts

  // ---------------------------------------------------------------- signatures

  /** A live peer with the key has no signature key. */
  ghost predicate KeylessHolder(peers: map<string, Peer>, key: string, now: int) {
    exists id :: HoldsKey(peers, id, key, now) && peers[id].signatureKey == ""
  }

  /** The key has live holders, all with a signature key, and none of them signed the message. */
  ghost predicate Unsigned(v: Verifier, peers: map<string, Peer>, key: string, now: int, signature: string,
                           message: string)
  {
    && SomeoneHolds(peers, key, now) && !KeylessHolder(peers, key, now)
    && !SignedByHolder(v, peers, key, now, signature, message)
  }

  lemma PickedHolder(peers: map<string, Peer>, key: string, now: int, pick: string)
    requires NoColonInSignatureKeys(peers) && LegalPick(peers, key, now, pick)
    ensures PeerByKey(peers, key, now, pick) == None <==> !SomeoneHolds(peers, key, now)
    ensures forall id :: HoldsKey(peers, id, key, now) ==>
              HoldsKey(peers, pick, key, now) && peers[id].signatureKey == peers[pick].signatureKey
  {
    forall id | HoldsKey(peers, id, key, now)
      ensures HoldsKey(peers, pick, key, now) && peers[id].signatureKey == peers[pick].signatureKey
    {
      PeerKeyDetermines(peers[id].login, peers[id].signatureKey, peers[pick].login, peers[pick].signatureKey);
    }
  }

  /** What the search for the signer and the check of its signature may end in. */
  lemma SignerErrors(v: Verifier, peers: map<string, Peer>, key: string, now: int, pick: string, signature: string,
                     message: string)
    requires NoColonInSignatureKeys(peers) && LegalPick(peers, key, now, pick)
    requires SomeoneHolds(peers, key, now)
    ensures var failure := CheckSignature(v, peers[pick], signature, message);
            && PeerByKey(peers, key, now, pick) == Some(peers[pick])
            && (failure == Some(NoSigningKey) <==> KeylessHolder(peers, key, now))
            && (failure == Some(InvalidSignature) <==> Unsigned(v, peers, key, now, signature, message))
            && (failure == None <==> SignedByHolder(v, peers, key, now, signature, message))
  {
    PickedHolder(peers, key, now, pick);
    PickSigns(v, peers, key, now, pick, signature, message);
  }

  // ---------------------------------------------------------------- chunks

  lemma SetChunkErrors(v: Verifier, s: State, now: int, file: string, index: int, req: ChunkRequest, pick: string)
    requires NoColonInSignatureKeys(s.peers) && LegalPick(s.peers, Trim(req.sender), now, pick)
    ensures var r, key := SetChunk(v, s, now, file, index, req, pick).1, Trim(req.sender);
            var text := "muninn/expected/v1\n" + Trim(file) + "\n" + Itoa(index) + "\n" + NormalizeHash(req.hash);
            && (r == Err(InvalidChunk) <==> !ChunkWellFormed(file, index, req))
            && (r == Err(NotFound) <==> ChunkWellFormed(file, index, req) && !SomeoneHolds(s.peers, key, now))
            && (r == Err(NoSigningKey) <==> ChunkWellFormed(file, index, req) && KeylessHolder(s.peers, key, now))
            && (r == Err(InvalidSignature) <==>
                  ChunkWellFormed(file, index, req) && Unsigned(v, s.peers, key, now, req.signature, text))
            && r != Err(ChunkNotFound)
  {
    var fileId, hash := Trim(file), NormalizeHash(req.hash);
    SignedTexts(fileId, index, hash, "");
    PickedHolder(s.peers, Trim(req.sender), now, pick);
    if SomeoneHolds(s.peers, Trim(req.sender), now) {
      SignerErrors(v, s.peers, Trim(req.sender), now, pick, req.signature, ExpectedPayload(fileId, index, hash));
    }
  }

  ghost predicate Registered(chunks: seq<Entry>, key: string) {
    exists i :: 0 <= i < |chunks| && chunks[i].key == key
  }

  lemma ReportErrors(v: Verifier, s: State, t: int, source: string, req: ReportRequest)
    requires Sound(s, t)
    ensures var r, reporter := Report(v, s, source, req).1, Trim(req.reporter);
            var known := Registered(s.chunks, ChunkKey(Trim(req.fileId), req.index));
            var stored := ReportWellFormed(source, req) && reporter in s.peers;
            var text := "muninn/reported/v1\n" + Trim(req.fileId) + "\n" + Itoa(req.index) + "\n"
                        + NormalizeHash(req.hash) + "\n" + Trim(source);
            var signed := stored && Signed(v, s.peers[reporter], req.signature, text);
            && (r == Err(InvalidChunk) <==> !ReportWellFormed(source, req))
            && (r == Err(NoSigningKey) <==> stored && s.peers[reporter].signatureKey == "")
            && (r == Err(InvalidSignature) <==> stored && s.peers[reporter].signatureKey != "" && !signed)
            && (r == Err(ChunkNotFound) <==> signed && !known)
            && (r == Err(NotFound) <==>
                  ReportWellFormed(source, req) && (!stored || (signed && known && Trim(source) !in s.peers)))
  {
    SignedTexts(Trim(req.fileId), req.index, NormalizeHash(req.hash), Trim(source));
    EmptyHashMeansUnknown(s.chunks, ChunkKey(Trim(req.fileId), req.index));
  }

  lemma ConfirmErrors(v: Verifier, s: State, now: int, req: ConfirmRequest, pick: string, senderPick: string)
    requires NoColonInSignatureKeys(s.peers) && LegalOp(s, Event(now, OpConfirm(req, pick, senderPick)))
    ensures var r, recipient := Confirm(v, s, now, req, pick, senderPick).1, Trim(req.recipient);
            var key := ChunkKey(Trim(req.fileId), req.index);
            var text := "muninn/confirmed/v1\n" + Trim(req.fileId) + "\n" + Itoa(req.index) + "\n"
                        + NormalizeHash(req.hash);
            var signed := ConfirmWellFormed(req)
                          && SignedByHolder(v, s.peers, recipient, now, req.signature, text);
            && (r == Err(InvalidChunk) <==> !ConfirmWellFormed(req))
            && (r == Err(NoSigningKey) <==> ConfirmWellFormed(req) && KeylessHolder(s.peers, recipient, now))
            && (r == Err(InvalidSignature) <==>
                  ConfirmWellFormed(req) && Unsigned(v, s.peers, recipient, now, req.signature, text))
            && (r == Err(ChunkNotFound) <==> signed && !(exists i :: IsFirstFor(s.chunks, key, recipient, i)))
            && (r == Err(NotFound) <==>
                  || (ConfirmWellFormed(req) && !SomeoneHolds(s.peers, recipient, now))
                  || (signed && exists i :: IsFirstFor(s.chunks, key, recipient, i)
                                            && !SomeoneHolds(s.peers, s.chunks[i].sender, now)))
  {
    var recipient := Trim(req.recipient);
    var text := ConfirmedPayload(Trim(req.fileId), req.index, NormalizeHash(req.hash));
    SignedTexts(Trim(req.fileId), req.index, NormalizeHash(req.hash), "");
    PickedHolder(s.peers, recipient, now, pick);
    if SomeoneHolds(s.peers, recipient, now) {
      SignerErrors(v, s.peers, recipient, now, pick, req.signature, text);
    }
    TheFirstEntry(s, now, ChunkKey(Trim(req.fileId), req.index), recipient, senderPick);
  }

  /** The index the search yields is that of the first entry, whose sender the second search looks for. */
  lemma TheFirstEntry(s: State, now: int, key: string, recipient: string, senderPick: string)
    requires var i := FirstFor(s.chunks, key, recipient);
             i >= 0 ==> LegalPick(s.peers, s.chunks[i].sender, now, senderPick)
    ensures var k := FirstFor(s.chunks, key, recipient);
            && (k >= 0 <==> exists i :: IsFirstFor(s.chunks, key, recipient, i))
            && (forall i :: IsFirstFor(s.chunks, key, recipient, i) <==> i == k >= 0)
            && (k >= 0 ==> (PeerByKey(s.peers, s.chunks[k].sender, now, senderPick) == None
                            <==> !SomeoneHolds(s.peers, s.chunks[k].sender, now)))
  {
    var k := FirstFor(s.chunks, key, recipient);
    forall i | IsFirstFor(s.chunks, key, recipient, i)
      ensures i == k
    {
    }
    assert k >= 0 ==> IsFirstFor(s.chunks, key, recipient, k);
  }

  lemma ReadErrors(v: Verifier, s: State, now: int, req: ReadRequest, pick: string)
    requires NoColonInSignatureKeys(s.peers) && LegalPick(s.peers, Trim(req.recipient), now, pick)
    ensures var r, recipient, fileId := Read(v, s, now, req, pick).1, Trim(req.recipient), Trim(req.fileId);
            var named := fileId != "" && Trim(req.signature) != "";
            && (r == Err(InvalidChunk) <==> !named)
            && (r == Err(NotFound) <==> named && !SomeoneHolds(s.peers, recipient, now))
            && (r == Err(NoSigningKey) <==> named && KeylessHolder(s.peers, recipient, now))
            && (r == Err(InvalidSignature) <==>
                  named && Unsigned(v, s.peers, recipient, now, req.signature, "muninn/read/v1\n" + fileId))
            && (r == Err(ChunkNotFound) <==>
                  && named && SignedByHolder(v, s.peers, recipient, now, req.signature, "muninn/read/v1\n" + fileId)
                  && !AnyReadTarget(s.chunks, recipient, fileId))
  {
    PickedHolder(s.peers, Trim(req.recipient), now, pick);
    if SomeoneHolds(s.peers, Trim(req.recipient), now) {
      SignerErrors(v, s.peers, Trim(req.recipient), now, pick, req.signature, ReadPayload(Trim(req.fileId)));
    }
  }

  // ---------------------------------------------------------------- peers and signals

  /** Registering and refreshing fail for blank ids only; the other calls fail for ids that are not stored. */
  lemma PeerErrors(s: State, now: int, reg: RegisterRequest, ref: RefreshRequest, id: string, ttl: int)
    ensures Upsert(s, now, reg).1 == (if Trim(reg.id) == "" then Err(InvalidPeer) else Ok(()))
    ensures Refresh(s, now, ref).1 == (if Trim(ref.id) == "" then Err(InvalidPeer) else Ok(()))
    ensures Delete(s, id).1 == (if id in s.peers then Ok(()) else Err(NotFound))
    ensures Heartbeat(s, now, id, ttl).1.Err? ==> Heartbeat(s, now, id, ttl).1 == Err(NotFound)
    ensures Heartbeat(s, now, id, ttl).1.Err? <==> id !in s.peers
  {
  }

  /** A lookup by key fails as invalid iff a part of the key is blank, and otherwise iff it finds no live peer. */
  lemma LookupErrors(s: State, now: int, login: string, signature: string)
    requires FiledById(s.peers)
    ensures var r := GetByKey(s, now, login, signature);
            && (r == Err(InvalidKey) <==> Trim(login) == "" || Trim(signature) == "")
            && (r == Err(NotFound) <==>
                  && Trim(login) != "" && Trim(signature) != ""
                  && forall id :: id in Ids(s.logins, PeerKey(Trim(login), Trim(signature))) ==>
                       !Live(s.peers, id, now))
            && (r.Ok? || r == Err(InvalidKey) || r == Err(NotFound))
  {
    SomeoneLive(s.peers, Ids(s.logins, PeerKey(Trim(login), Trim(signature))), now);
  }

  lemma {:induction false} SomeoneLive(peers: map<string, Peer>, ids: seq<string>, now: int)
    ensures LiveAmong(peers, ids, now) == [] <==> forall id :: id in ids ==> !Live(peers, id, now)
  {
    if ids != [] {
      var n := |ids| - 1;
      SomeoneLive(peers, ids[..n], now);
      assert ids == ids[..n] + [ids[n]];
    }
  }

  /** A signal is invalid when its target, sender or kind is missing; otherwise it is refused iff nobody has that id. */
  lemma SignalErrors(s: State, to: string, sig: Signal, peer: string)
    ensures var r := SetSignal(s, to, sig).1;
            && (r == Err(InvalidChunk) <==> Trim(to) == "" || sig.from == "" || sig.kind == "")
            && (r == Ok(()) <==> Trim(to) in s.peers && Trim(to) != "" && sig.from != "" && sig.kind != "")
            && (r.Err? ==> r.error in {InvalidChunk, NotFound})
    ensures PollSignals(s, peer).1.Err? <==> Trim(peer) == ""
    ensures Trim(peer) == "" ==> PollSignals(s, peer).1 == Err(InvalidChunk)
  {
  }
}
