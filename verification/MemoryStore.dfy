/**
 * internal/store/memory.go: the store object. Its methods update the maps and the chunk slice in
 * place; each is proved to do what the step function of module Store says. The ghost history makes
 * every statement about runs a statement about every store object.
 */
module MemoryStores {
  import opened Text
  import opened Keys
  import opened Model
  import opened Payloads
  import opened Scores
  import opened Ranking
  import opened ChunkHistory
  import S = Store

  lemma ExecAppend(v: Verifier, history: seq<S.Event>, ev: S.Event)
    ensures S.Exec(v, S.EMPTY, history + [ev]) == S.Next(v, S.Exec(v, S.EMPTY, history), ev)
  {
    assert (history + [ev])[..|history|] == history;
  }

  /** `removeID`: finds the first occurrence and closes the gap. */
  method RemoveID(ids: seq<string>, id: string) returns (out: seq<string>)
    ensures out == S.RemoveFirst(ids, id)
  {
    for i := 0 to |ids|
      invariant S.RemoveFirst(ids, id) == ids[..i] + S.RemoveFirst(ids[i..], id)
    {
      if ids[i] == id {
        return ids[..i] + ids[i + 1..];
      }
      assert ids[..i + 1] == ids[..i] + [ids[i]];
      assert ids[i..] == [ids[i]] + ids[i + 1..];
    }
    return ids;
  }

  /** Whoever a scan would find. */
  lemma SomePick(peers: map<string, Peer>, key: string, now: int) returns (pick: string)
    ensures S.LegalPick(peers, key, now, pick)
  {
    if S.SomeoneHolds(peers, key, now) {
      pick :| S.HoldsKey(peers, pick, key, now);
    } else {
      pick := "";
    }
  }

  lemma SomePicks(s: S.State, now: int, req: ConfirmRequest) returns (pick: string, senderPick: string)
    ensures S.LegalOp(s, S.Event(now, S.OpConfirm(req, pick, senderPick)))
  {
    pick := SomePick(s.peers, Trim(req.recipient), now);
    var i := S.FirstFor(s.chunks, ChunkKey(Trim(req.fileId), req.index), Trim(req.recipient));
    senderPick := SomePick(s.peers, if i < 0 then "" else s.chunks[i].sender, now);
  }

  /** The counting lines shared by `ReportChunk` and `ConfirmChunk`. */
  method Credit(peer: Peer, valid: bool) returns (credited: Peer, delta: int)
    ensures credited == S.Credited(peer, valid) && delta == S.Delta(valid)
  {
    delta := POINTS_INVALID;
    if valid {
      delta := POINTS_VALID;
      credited := peer.(quality := peer.quality.(valid := peer.quality.valid + 1));
    } else {
      credited := peer.(quality := peer.quality.(invalid := peer.quality.invalid + 1));
    }
    credited := credited.(score := credited.score + delta);
  }

  lemma RecordsForStep(all: seq<Entry>, i: nat, recipient: string, dateFrom: int)
    requires i < |all|
    ensures S.RecordsFor(all[..i + 1], recipient, dateFrom)
         == S.RecordsFor(all[..i], recipient, dateFrom)
            + (if all[i].recipient == recipient && all[i].updatedAt >= dateFrom then [S.RecordOf(all[i])] else [])
  {
    assert all[..i + 1][..i] == all[..i];
  }

  lemma RecordsOfStep(all: seq<Entry>, i: nat, fileId: string)
    requires i < |all|
    ensures S.RecordsOf(all[..i + 1], fileId)
         == S.RecordsOf(all[..i], fileId) + (if KeyFileId(all[i].key) == fileId then [S.RecordOf(all[i])] else [])
  {
    assert all[..i + 1][..i] == all[..i];
  }

  lemma KeepStep(all: seq<Entry>, i: nat, sec: int)
    requires i < |all|
    ensures S.Keep(all[..i + 1], sec) == S.Keep(all[..i], sec) + (if S.Kept(all[i], sec) then [all[i]] else [])
  {
    assert all[..i + 1][..i] == all[..i];
  }

  /** The loop of `DeleteExpiredChunks`: writes the kept entries over the slice that it is reading. */
  method CompactInPlace(chunks: array<Entry>, used: nat, sec: int) returns (kept: nat)
    requires used <= chunks.Length
    modifies chunks
    ensures kept <= used && chunks[..kept] == S.Keep(old(chunks[..used]), sec)
  {
    kept := 0;
    ghost var all := chunks[..used];
    for i := 0 to used
      invariant kept <= i
      invariant chunks[..kept] == S.Keep(all[..i], sec)
      invariant forall j :: i <= j < used ==> chunks[j] == all[j]
    {
      KeepStep(all, i, sec);
      var entry := chunks[i];
      if !entry.persist && Wrap64(entry.createdAt + entry.ttl) < sec {
        continue;
      }
      ghost var prefix := chunks[..kept];
      chunks[kept] := entry;
      assert chunks[..kept + 1] == prefix + [entry];
      kept := kept + 1;
    }
    assert all[..used] == all;
  }

  /** The outcome of the marking loop, from what it did at each position. */
  lemma MarkedList(before: seq<Entry>, after: seq<Entry>, marked: bool, recipient: string, fileId: string, sec: int)
    requires |after| == |before|
    requires marked <==> exists j :: 0 <= j < |before| && S.ReadTarget(before[j], recipient, fileId)
    requires forall j :: 0 <= j < |before| ==> after[j] == S.MarkRead(before[j], recipient, fileId, sec)
    ensures marked <==> S.AnyReadTarget(before, recipient, fileId)
    ensures after == if marked then S.MarkAllRead(before, recipient, fileId, sec) else before
  {
  }

  class MemoryStore {
    const verify: Verifier
    var peers: map<string, Peer>
    var logins: map<string, seq<string>>
    var signals: map<string, seq<Signal>>
    /** The slice of chunks: its backing array and its length. */
    var chunks: array<Entry>
    var used: nat
    ghost var history: seq<S.Event>

    ghost function View(): S.State
      reads this, chunks
      requires used <= chunks.Length
    {
      S.State(peers, logins, chunks[..used], signals)
    }

    ghost predicate Valid()
      reads this, chunks
    {
      && used <= chunks.Length
      && View() == S.Exec(verify, S.EMPTY, history)
      && forall id :: id in peers ==> peers[id].id == id
    }

    constructor (verify: Verifier)
      ensures Valid() && fresh(chunks)
      ensures this.verify == verify && history == [] && View() == S.EMPTY
    {
      this.verify := verify;
      peers, logins, signals := map[], map[], map[];
      chunks := new Entry[0];
      used := 0;
      history := [];
    }

    /** Everything that holds over runs holds of the store, as long as its clock never went back. */
    lemma InvariantHolds(t: int)
      requires Valid() && S.Timely(t, history)
      ensures Sound(View(), S.Clock(t, history))
    {
      RunSound(verify, S.EMPTY, t, history);
    }

    ghost method Record(ev: S.Event)
      requires used <= chunks.Length
      requires View() == S.Next(verify, S.Exec(verify, S.EMPTY, history), ev)
      requires forall id :: id in peers ==> peers[id].id == id
      modifies this`history
      ensures history == old(history) + [ev] && Valid()
    {
      ExecAppend(verify, history, ev);
      history := history + [ev];
    }

    // -------------------------------------------------------------- peers

    method Upsert(now: int, req: RegisterRequest) returns (r: Result<()>)
      requires Valid()
      modifies this
      ensures Valid() && chunks == old(chunks)
      ensures history == old(history) + [S.Event(now, S.OpUpsert(req))]
      ensures (View(), r) == S.Upsert(old(View()), now, req)
    {
      var id := Trim(req.id);
      if id == "" {
        r := Err(InvalidPeer);
      } else {
        var ttl := if req.ttl <= 0 then S.DEFAULT_TTL else req.ttl;
        var peer := Peer(id, Trim(req.login), Trim(req.encryptionKey), Trim(req.signatureKey), now, ttl,
                         0, Quality(0, 0), "", false);
        if id in peers {
          var existing := peers[id];
          peer := peer.(score := existing.score, quality := existing.quality, flag := existing.flag);
          if req.flag != "" {
            peer := peer.(flag := req.flag);
          }
          peer := peer.(fake := existing.fake, encryptionKey := existing.encryptionKey,
                        signatureKey := existing.signatureKey);
          var rest := RemoveID(S.Ids(logins, existing.Key()), id);
          logins := logins[existing.Key() := rest];
        } else {
          peer := peer.(score := INITIAL_SCORE, flag := req.flag);
          if req.fake.Some? {
            peer := peer.(fake := req.fake.value);
          }
        }
        logins := logins[peer.Key() := S.Ids(logins, peer.Key()) + [id]];
        peers := peers[id := peer];
        r := Ok(());
      }
      Record(S.Event(now, S.OpUpsert(req)));
    }

    method Refresh(now: int, req: RefreshRequest) returns (r: Result<()>)
      requires Valid()
      modifies this
      ensures Valid() && chunks == old(chunks)
      ensures history == old(history) + [S.Event(now, S.OpRefresh(req))]
      ensures (View(), r) == S.Refresh(old(View()), now, req)
    {
      var id := Trim(req.id);
      if id == "" {
        r := Err(InvalidPeer);
      } else {
        var key := req.login + [':'] + req.signatureKey;
        if id in peers {
          var existing := peers[id].(lastSeen := now);
          logins := logins[key := S.Ids(logins, key) + [id]];
          peers := peers[id := existing];
        }
        r := Ok(());
      }
      Record(S.Event(now, S.OpRefresh(req)));
    }

    method Get(now: int, id: string) returns (r: Result<Peer>)
      requires Valid()
      ensures r == S.Get(View(), now, id)
    {
      if id !in peers || S.IsExpired(peers[id], now) {
        return Err(NotFound);
      }
      return Ok(peers[id]);
    }

    method GetByKey(now: int, login: string, signature: string) returns (r: Result<seq<Peer>>)
      requires Valid()
      ensures r == S.GetByKey(View(), now, login, signature)
    {
      var l, g := Trim(login), Trim(signature);
      if l == "" || g == "" {
        return Err(InvalidKey);
      }
      var key := l + [':'] + g;
      if key !in logins {
        return Err(NotFound);
      }
      var ids := logins[key];
      var out := [];
      for i := 0 to |ids|
        invariant out == S.LiveAmong(peers, ids[..i], now)
      {
        assert ids[..i + 1][..i] == ids[..i];
        if ids[i] in peers && !S.IsExpired(peers[ids[i]], now) {
          out := out + [peers[ids[i]]];
        }
      }
      assert ids[..|ids|] == ids;
      if out == [] {
        return Err(NotFound);
      }
      return Ok(out);
    }

    method Delete(now: int, id: string) returns (r: Result<()>)
      requires Valid()
      modifies this
      ensures Valid() && chunks == old(chunks)
      ensures history == old(history) + [S.Event(now, S.OpDelete(id))]
      ensures (View(), r) == S.Delete(old(View()), id)
    {
      if id !in peers {
        r := Err(NotFound);
      } else {
        var key := peers[id].Key();
        var rest := RemoveID(S.Ids(logins, key), id);
        logins := logins[key := rest];
        peers := peers - {id};
        r := Ok(());
      }
      Record(S.Event(now, S.OpDelete(id)));
    }

    method Heartbeat(now: int, id: string, ttl: int) returns (r: Result<Peer>)
      requires Valid()
      modifies this
      ensures Valid() && chunks == old(chunks)
      ensures history == old(history) + [S.Event(now, S.OpHeartbeat(id, ttl))]
      ensures (View(), r) == S.Heartbeat(old(View()), now, id, ttl)
    {
      if id !in peers {
        r := Err(NotFound);
      } else {
        var peer := peers[id];
        if ttl > 0 {
          peer := peer.(ttl := ttl);
        }
        peer := peer.(lastSeen := now);
        peers := peers[id := peer];
        r := Ok(peer);
      }
      Record(S.Event(now, S.OpHeartbeat(id, ttl)));
    }

    /** The unexpired peers that are not fake, in the order the map yields them. */
    method List(now: int) returns (out: seq<Peer>)
      requires Valid()
      ensures Picked(out, peers, EligibleIds(peers, now, false)) && |out| == |EligibleIds(peers, now, false)|
    {
      out := Enumerate(peers, (p: Peer) => Eligible(p, now, false), EligibleIds(peers, now, false));
    }

    method GetBestPeers(now: int, n: int) returns (out: seq<Peer>)
      requires Valid()
      ensures IsTop(out, peers, EligibleIds(peers, now, false), n)
    {
      out := BestPeers(peers, now, false, n);
    }

    method GetBestThickPeers(now: int, n: int) returns (out: seq<Peer>)
      requires Valid()
      ensures IsTop(out, peers, EligibleIds(peers, now, true), n)
    {
      out := BestPeers(peers, now, true, n);
    }

    /** `peerByKey`: scans the map in whatever order it yields, up to the first live holder. */
    method FindByKey(now: int, key: string) returns (found: Option<Peer>, ghost pick: string)
      requires Valid()
      ensures found == S.PeerByKey(peers, key, now, pick)
      ensures S.LegalPick(peers, key, now, pick)
    {
      var rest := peers.Keys;
      pick := "";
      while rest != {}
        invariant rest <= peers.Keys
        invariant forall id :: id in peers && id !in rest ==> !S.HoldsKey(peers, id, key, now)
        decreases |rest|
      {
        var id :| id in rest;
        if peers[id].Key() == key && !S.IsExpired(peers[id], now) {
          return Some(peers[id]), id;
        }
        rest := rest - {id};
      }
      return None, "";
    }

    // -------------------------------------------------------------- chunks

    /** `append(s.chunks, e)`: in place while the backing array has room, else into a larger copy. */
    method AppendChunk(e: Entry)
      requires used <= chunks.Length
      modifies this`chunks, this`used, chunks
      ensures used == old(used) + 1 <= chunks.Length
      ensures chunks == old(chunks) || fresh(chunks)
      ensures chunks[..used] == old(chunks[..used]) + [e]
    {
      if used == chunks.Length {
        var larger := new Entry[2 * used + 1];
        forall i | 0 <= i < used {
          larger[i] := chunks[i];
        }
        chunks := larger;
      }
      chunks[used] := e;
      used := used + 1;
    }

    method SetChunkHash(now: int, file: string, index: int, req: ChunkRequest)
      returns (r: Result<()>, ghost pick: string)
      requires Valid()
      modifies this, chunks
      ensures Valid() && (chunks == old(chunks) || fresh(chunks))
      ensures history == old(history) + [S.Event(now, S.OpSetChunk(file, index, req, pick))]
      ensures S.LegalPick(old(peers), Trim(req.sender), now, pick)
      ensures (View(), r) == S.SetChunk(verify, old(View()), now, file, index, req, pick)
    {
      var fileId, sender, recipient, peerId := Trim(file), Trim(req.sender), Trim(req.recipient), Trim(req.peerId);
      var hash := NormalizeHash(req.hash);
      var validHash := ValidHashFormat(hash);
      pick := SomePick(peers, sender, now);
      if fileId == "" || sender == "" || recipient == "" || peerId == "" || hash == "" || !validHash || index < 0
         || Trim(req.signature) == "" {
        r := Err(InvalidChunk);
      } else {
        var found;
        found, pick := FindByKey(now, sender);
        if found == None {
          r := Err(NotFound);
        } else {
          var failure := S.CheckSignature(verify, found.value, req.signature, ExpectedPayload(fileId, index, hash));
          if failure.Some? {
            r := Err(failure.value);
          } else {
            var ttl := if req.ttl <= 0 then S.DEFAULT_CHUNK_TTL else req.ttl;
            AppendChunk(Entry(ChunkKey(fileId, index), hash, sender, recipient, peerId, req.persist, false, false,
                              S.Sec(now), S.Sec(now), ttl));
            r := Ok(());
          }
        }
      }
      Record(S.Event(now, S.OpSetChunk(file, index, req, pick)));
    }

    method ExpectedHash(key: string) returns (expected: string)
      requires used <= chunks.Length
      ensures expected == S.FirstHash(chunks[..used], key)
    {
      expected := "";
      for i := 0 to used
        invariant S.FirstHash(chunks[..used], key) == S.FirstHash(chunks[i..used], key)
      {
        assert chunks[i..used][1..] == chunks[i + 1..used];
        if chunks[i].key == key {
          return chunks[i].hash;
        }
      }
    }

    method ReportChunk(now: int, sourcePeer: string, req: ReportRequest) returns (r: Result<Verdict>)
      requires Valid()
      modifies this
      ensures Valid() && chunks == old(chunks)
      ensures history == old(history) + [S.Event(now, S.OpReport(sourcePeer, req))]
      ensures (View(), r) == S.Report(verify, old(View()), sourcePeer, req)
    {
      var source, reporter, fileId := Trim(sourcePeer), Trim(req.reporter), Trim(req.fileId);
      var reported := NormalizeHash(req.hash);
      var validHash := ValidHashFormat(reported);
      if source == "" || reporter == "" || fileId == "" || reported == "" || !validHash || req.index < 0
         || Trim(req.signature) == "" {
        r := Err(InvalidChunk);
      } else if reporter !in peers {
        r := Err(NotFound);
      } else {
        var failure := S.CheckSignature(verify, peers[reporter], req.signature,
                                        ReportedPayload(fileId, req.index, reported, source));
        if failure.Some? {
          r := Err(failure.value);
        } else {
          var expected := ExpectedHash(ChunkKey(fileId, req.index));
          if expected == "" {
            r := Err(ChunkNotFound);
          } else if source !in peers {
            r := Err(NotFound);
          } else {
            var valid := reported == expected;
            var peer, delta := Credit(peers[source], valid);
            peers := peers[source := peer];
            r := Ok(Verdict(valid, expected, reported, delta, peer));
          }
        }
      }
      Record(S.Event(now, S.OpReport(sourcePeer, req)));
    }

    method FindEntry(key: string, recipient: string) returns (index: int)
      requires used <= chunks.Length
      ensures index == S.FirstFor(chunks[..used], key, recipient)
    {
      ghost var all := chunks[..used];
      for i := 0 to used
        invariant S.FirstFor(all, key, recipient)
               == (var k := S.FirstFor(all[i..], key, recipient); if k < 0 then -1 else k + i)
      {
        assert all[i..][1..] == all[i + 1..];
        if chunks[i].key == key && chunks[i].recipient == recipient {
          return i;
        }
      }
      return -1;
    }

    /** `ConfirmChunk` after the signature check. */
    method ConfirmVerified(now: int, key: string, recipient: string, confirmed: string)
      returns (r: Result<Verdict>, ghost senderPick: string)
      requires Valid()
      modifies this`peers, chunks
      ensures used <= chunks.Length && forall id :: id in peers ==> peers[id].id == id
      ensures var i := S.FirstFor(old(chunks[..used]), key, recipient);
              if i < 0 then r == Err(ChunkNotFound) && View() == old(View())
              else
                && S.LegalPick(old(peers), old(chunks[..used])[i].sender, now, senderPick)
                && (View(), r) == S.ConfirmEntry(old(View()), now, i, confirmed, senderPick)
    {
      var i := FindEntry(key, recipient);
      senderPick := "";
      if i < 0 {
        return Err(ChunkNotFound), "";
      }
      var sender;
      sender, senderPick := FindByKey(now, chunks[i].sender);
      if sender == None {
        return Err(NotFound), senderPick;
      }
      var valid := confirmed == chunks[i].hash;
      var peer, delta := Credit(sender.value, valid);
      if valid {
        chunks[i] := chunks[i].(confirmed := true, updatedAt := S.Sec(now));
      }
      peers := peers[peer.id := peer];
      r := Ok(Verdict(valid, chunks[i].hash, confirmed, delta, peer));
    }

    method ConfirmChunk(now: int, req: ConfirmRequest)
      returns (r: Result<Verdict>, ghost pick: string, ghost senderPick: string)
      requires Valid()
      modifies this, chunks
      ensures Valid() && chunks == old(chunks)
      ensures history == old(history) + [S.Event(now, S.OpConfirm(req, pick, senderPick))]
      ensures S.LegalOp(old(View()), S.Event(now, S.OpConfirm(req, pick, senderPick)))
      ensures (View(), r) == S.Confirm(verify, old(View()), now, req, pick, senderPick)
    {
      var recipient, fileId := Trim(req.recipient), Trim(req.fileId);
      var confirmed := NormalizeHash(req.hash);
      var validHash := ValidHashFormat(confirmed);
      ghost var before := View();
      pick, senderPick := SomePicks(before, now, req);
      if recipient == "" || fileId == "" || confirmed == "" || !validHash || req.index < 0
         || Trim(req.signature) == "" {
        r := Err(InvalidChunk);
      } else {
        var found;
        found, pick := FindByKey(now, recipient);
        if found == None {
          r := Err(NotFound);
        } else {
          var failure := S.CheckSignature(verify, found.value, req.signature,
                                          ConfirmedPayload(fileId, req.index, confirmed));
          if failure.Some? {
            r := Err(failure.value);
          } else {
            r, senderPick := ConfirmVerified(now, ChunkKey(fileId, req.index), recipient, confirmed);
          }
        }
      }
      Record(S.Event(now, S.OpConfirm(req, pick, senderPick)));
    }

    /** The marking loop of `ReadChunk`. */
    method MarkAll(recipient: string, fileId: string, sec: int) returns (marked: bool)
      requires used <= chunks.Length
      modifies chunks
      ensures marked <==> S.AnyReadTarget(old(chunks[..used]), recipient, fileId)
      ensures chunks[..used] == if marked then S.MarkAllRead(old(chunks[..used]), recipient, fileId, sec)
                                else old(chunks[..used])
    {
      marked := false;
      ghost var before := chunks[..used];
      for i := 0 to used
        modifies chunks
        invariant marked <==> exists j :: 0 <= j < i && S.ReadTarget(before[j], recipient, fileId)
        invariant forall j :: 0 <= j < i ==> chunks[j] == S.MarkRead(before[j], recipient, fileId, sec)
        invariant forall j :: i <= j < used ==> chunks[j] == before[j]
      {
        if chunks[i].recipient == recipient && KeyFileId(chunks[i].key) == fileId {
          chunks[i] := chunks[i].(readed := true, updatedAt := sec);
          marked := true;
        }
      }
      MarkedList(before, chunks[..used], marked, recipient, fileId, sec);
    }

    method ReadChunk(now: int, req: ReadRequest) returns (r: Result<()>, ghost pick: string)
      requires Valid()
      modifies this, chunks
      ensures Valid() && chunks == old(chunks)
      ensures history == old(history) + [S.Event(now, S.OpRead(req, pick))]
      ensures S.LegalPick(old(peers), Trim(req.recipient), now, pick)
      ensures (View(), r) == S.Read(verify, old(View()), now, req, pick)
    {
      var recipient, fileId := Trim(req.recipient), Trim(req.fileId);
      pick := SomePick(peers, recipient, now);
      if fileId == "" || Trim(req.signature) == "" {
        r := Err(InvalidChunk);
      } else {
        var found;
        found, pick := FindByKey(now, recipient);
        if found == None {
          r := Err(NotFound);
        } else {
          var failure := S.CheckSignature(verify, found.value, req.signature, ReadPayload(fileId));
          if failure.Some? {
            r := Err(failure.value);
          } else {
            var marked := MarkAll(recipient, fileId, S.Sec(now));
            r := if marked then Ok(()) else Err(ChunkNotFound);
          }
        }
      }
      Record(S.Event(now, S.OpRead(req, pick)));
    }

    method GetChunksByRecipient(recipientId: string, dateFrom: int) returns (r: Result<seq<Record>>)
      requires Valid()
      ensures r == S.GetChunksByRecipient(View(), recipientId, dateFrom)
    {
      var recipient := Trim(recipientId);
      if recipient == "" {
        return Err(InvalidChunk);
      }
      var records := CollectFor(recipient, dateFrom);
      return Ok(records);
    }

    method CollectFor(recipient: string, dateFrom: int) returns (records: seq<Record>)
      requires used <= chunks.Length
      ensures records == S.RecordsFor(chunks[..used], recipient, dateFrom)
    {
      ghost var all := chunks[..used];
      records := [];
      for i := 0 to used
        invariant records == S.RecordsFor(all[..i], recipient, dateFrom)
      {
        RecordsForStep(all, i, recipient, dateFrom);
        if chunks[i].recipient == recipient && chunks[i].updatedAt >= dateFrom {
          records := records + [S.RecordOf(chunks[i])];
        }
      }
      assert all[..used] == all;
    }

    method GetChunksByFileID(file: string) returns (r: Result<seq<Record>>)
      requires Valid()
      ensures r == S.GetChunksByFileId(View(), file)
    {
      var fileId := Trim(file);
      if fileId == "" {
        return Err(InvalidChunk);
      }
      var records := CollectOf(fileId);
      return Ok(records);
    }

    method CollectOf(fileId: string) returns (records: seq<Record>)
      requires used <= chunks.Length
      ensures records == S.RecordsOf(chunks[..used], fileId)
    {
      ghost var all := chunks[..used];
      records := [];
      for i := 0 to used
        invariant records == S.RecordsOf(all[..i], fileId)
      {
        RecordsOfStep(all, i, fileId);
        var entry := chunks[i];
        assert entry == all[i];
        if KeyFileId(entry.key) == fileId {
          records := records + [S.RecordOf(entry)];
        }
      }
      assert all[..used] == all;
    }

    method DeleteExpiredChunks(now: int) returns (deleted: int)
      requires Valid()
      modifies this, chunks
      ensures Valid() && chunks == old(chunks)
      ensures history == old(history) + [S.Event(now, S.OpClean)]
      ensures (View(), deleted) == S.Clean(old(View()), now)
    {
      ghost var before := View();
      var kept := CompactInPlace(chunks, used, S.Sec(now));
      deleted := used - kept;
      used := kept;
      assert View() == S.Clean(before, now).0;
      Record(S.Event(now, S.OpClean));
    }

    // -------------------------------------------------------------- mailboxes

    method SetSignal(now: int, to: string, sig: Signal) returns (r: Result<()>)
      requires Valid()
      modifies this
      ensures Valid() && chunks == old(chunks)
      ensures history == old(history) + [S.Event(now, S.OpSetSignal(to, sig))]
      ensures (View(), r) == S.SetSignal(old(View()), to, sig)
    {
      var id := Trim(to);
      if id == "" || sig.from == "" || sig.kind == "" {
        r := Err(InvalidChunk);
      } else if id !in peers {
        r := Err(NotFound);
      } else {
        signals := signals[id := S.Pending(signals, id) + [sig]];
        r := Ok(());
      }
      Record(S.Event(now, S.OpSetSignal(to, sig)));
    }

    method PollSignals(now: int, peerId: string) returns (r: Result<seq<Signal>>)
      requires Valid()
      modifies this
      ensures Valid() && chunks == old(chunks)
      ensures history == old(history) + [S.Event(now, S.OpPoll(peerId))]
      ensures (View(), r) == S.PollSignals(old(View()), peerId)
    {
      var id := Trim(peerId);
      if id == "" {
        r := Err(InvalidChunk);
      } else {
        r := Ok(S.Pending(signals, id));
        signals := signals - {id};
      }
      Record(S.Event(now, S.OpPoll(peerId)));
    }
  }
}
