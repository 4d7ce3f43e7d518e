/**
 * `peerByKey` may find any live holder of a key. Its choice matters neither to the acceptance of an
 * operation nor to the total score of the holders, as long as signature keys hold no ':'.
 */
module Acceptance {
  import opened Text
  import opened Keys
  import opened Model
  import opened Scores
  import opened Store
  import opened ChunkHistory
  import opened Index
  import opened Peers

  predicate NoColonInSignatureKeys(peers: map<string, Peer>) {
    forall id :: id in peers ==> ':' !in peers[id].signatureKey
  }

  /** Two picks for the same key check against the same signature key, or both find nobody. */
  predicate SameSigner(a: Option<Peer>, b: Option<Peer>) {
    match (a, b)
    case (None, None) => true
    case (Some(p), Some(q)) => p.signatureKey == q.signatureKey
    case _ => false
  }

  lemma PicksAgree(peers: map<string, Peer>, key: string, now: int, a: string, b: string)
    requires NoColonInSignatureKeys(peers)
    requires LegalPick(peers, key, now, a) && LegalPick(peers, key, now, b)
    ensures SameSigner(PeerByKey(peers, key, now, a), PeerByKey(peers, key, now, b))
  {
    if HoldsKey(peers, a, key, now) {
      PeerKeyDetermines(peers[a].login, peers[a].signatureKey, peers[b].login, peers[b].signatureKey);
    }
  }

  /** A peer with given login and signature key, seen at time 0. */
  function Bearer(id: string, login: string, sig: string): (p: Peer)
    ensures !IsExpired(p, 0)
  {
    Peer(id, login, "", sig, 0, DEFAULT_TTL, INITIAL_SCORE, Quality(0, 0), "", false)
  }

  ghost predicate AlwaysSameSigner(key: string) {
    forall peers: map<string, Peer>, now: int, a: string, b: string ::
      LegalPick(peers, key, now, a) && LegalPick(peers, key, now, b) ==>
        SameSigner(PeerByKey(peers, key, now, a), PeerByKey(peers, key, now, b))
  }

  /**
   * Over all peer maps, those that no run reaches included: a key leads to one signer whatever the store exactly
   * when it holds a single ':'.
   */
  lemma SameSignerIffOneColon(key: string)
    requires ':' in key
    ensures AlwaysSameSigner(key) <==> Count(key, ':') == 1
  {
    KeyPinsSignatureIff(key);
    if Count(key, ':') != 1 {
      var l1, s1, l2, s2 :| PeerKey(l1, s1) == key && PeerKey(l2, s2) == key && s1 != s2;
      var peers := map["p" := Bearer("p", l1, s1), "q" := Bearer("q", l2, s2)];
      assert HoldsKey(peers, "p", key, 0) && HoldsKey(peers, "q", key, 0);
      assert LegalPick(peers, key, 0, "p") && LegalPick(peers, key, 0, "q");
      assert !SameSigner(PeerByKey(peers, key, 0, "p"), PeerByKey(peers, key, 0, "q"));
    } else {
      forall peers: map<string, Peer>, now: int, a: string, b: string
        | LegalPick(peers, key, now, a) && LegalPick(peers, key, now, b)
        ensures SameSigner(PeerByKey(peers, key, now, a), PeerByKey(peers, key, now, b))
      {
        if HoldsKey(peers, a, key, now) {
          assert PeerKey(peers[a].login, peers[a].signatureKey) == key;
          assert PeerKey(peers[b].login, peers[b].signatureKey) == key;
        }
      }
    }
  }

  /** Registering a chunk has one outcome: the same state and the same reply for every pick. */
  lemma SetChunkIgnoresPick(v: Verifier, s: State, now: int, file: string, index: int, req: ChunkRequest, a: string,
                            b: string)
    requires NoColonInSignatureKeys(s.peers)
    requires LegalPick(s.peers, Trim(req.sender), now, a) && LegalPick(s.peers, Trim(req.sender), now, b)
    ensures SetChunk(v, s, now, file, index, req, a) == SetChunk(v, s, now, file, index, req, b)
  {
    PicksAgree(s.peers, Trim(req.sender), now, a, b);
  }

  lemma ReadIgnoresPick(v: Verifier, s: State, now: int, req: ReadRequest, a: string, b: string)
    requires NoColonInSignatureKeys(s.peers)
    requires LegalPick(s.peers, Trim(req.recipient), now, a) && LegalPick(s.peers, Trim(req.recipient), now, b)
    ensures Read(v, s, now, req, a) == Read(v, s, now, req, b)
  {
    PicksAgree(s.peers, Trim(req.recipient), now, a, b);
  }

  /** Equal verdicts about the chunk; the credited peer may differ. */
  predicate SameVerdict(a: Result<Verdict>, b: Result<Verdict>) {
    match (a, b)
    case (Ok(x), Ok(y)) => x.valid == y.valid && x.expected == y.expected && x.given == y.given && x.delta == y.delta
    case (Err(x), Err(y)) => x == y
    case _ => false
  }

  lemma ConfirmEntryIgnoresPick(s: State, now: int, i: int, hash: string, a: string, b: string)
    requires 0 <= i < |s.chunks|
    requires LegalPick(s.peers, s.chunks[i].sender, now, a) && LegalPick(s.peers, s.chunks[i].sender, now, b)
    ensures var (s1, r1) := ConfirmEntry(s, now, i, hash, a);
            var (s2, r2) := ConfirmEntry(s, now, i, hash, b);
            && SameVerdict(r1, r2)
            && s1.chunks == s2.chunks && s1.logins == s2.logins && s1.signals == s2.signals
  {
  }

  lemma ConfirmIgnoresPicks(v: Verifier, s: State, now: int, req: ConfirmRequest, a: string, sa: string, b: string,
                            sb: string)
    requires NoColonInSignatureKeys(s.peers)
    requires LegalOp(s, Event(now, OpConfirm(req, a, sa))) && LegalOp(s, Event(now, OpConfirm(req, b, sb)))
    ensures var (s1, r1) := Confirm(v, s, now, req, a, sa);
            var (s2, r2) := Confirm(v, s, now, req, b, sb);
            && SameVerdict(r1, r2)
            && s1.chunks == s2.chunks && s1.logins == s2.logins && s1.signals == s2.signals
  {
    PicksAgree(s.peers, Trim(req.recipient), now, a, b);
    var i := FirstFor(s.chunks, ChunkKey(Trim(req.fileId), req.index), Trim(req.recipient));
    if i >= 0 {
      ConfirmEntryIgnoresPick(s, now, i, NormalizeHash(req.hash), sa, sb);
    }
  }

  /** The hypothesis cannot be dropped: two peers with one key, of which only one has signed. */
  lemma ColonsMakePicksMatter(signature: string, message: string)
    ensures var p, q := Bearer("p", "a", "b:c"), Bearer("q", "a:b", "c");
            var peers, v := map["p" := p, "q" := q], (k: string, sig: string, msg: string) => k == "c";
            && LegalPick(peers, "a:b:c", 0, "p") && LegalPick(peers, "a:b:c", 0, "q")
            && PeerByKey(peers, "a:b:c", 0, "p") == Some(p)
            && CheckSignature(v, p, signature, message) == Some(InvalidSignature)
            && PeerByKey(peers, "a:b:c", 0, "q") == Some(q)
            && CheckSignature(v, q, signature, message) == None
  {
    var p, q := Bearer("p", "a", "b:c"), Bearer("q", "a:b", "c");
    assert p.Key() == "a:b:c" && q.Key() == "a:b:c";
    assert p.signatureKey != "c";
  }

  // ---------------------------------------------------------------- registrations without ':'

  predicate RegistersWithoutColon(ev: Event) {
    ev.op.OpUpsert? ==> ':' !in Trim(ev.op.reg.signatureKey)
  }

  /** The hypothesis holds in every run whose registrations bring signature keys without ':', such as Base64 ones. */
  lemma {:induction false} NoColonOverRuns(v: Verifier, t: int, es: seq<Event>)
    requires Timely(t, es) && forall k :: 0 <= k < |es| ==> RegistersWithoutColon(es[k])
    ensures NoColonInSignatureKeys(Exec(v, EMPTY, es).peers)
  {
    if es != [] {
      var n := |es| - 1;
      var before := es[..n];
      NoColonOverRuns(v, t, before);
      RunSound(v, EMPTY, t, before);
      var s := Exec(v, EMPTY, before);
      forall id | id in Exec(v, EMPTY, es).peers
        ensures ':' !in Exec(v, EMPTY, es).peers[id].signatureKey
      {
        assert RegistersWithoutColon(es[n]);
        NextSigner(v, s, es[n], id);
      }
    }
  }

  lemma NextSigner(v: Verifier, s: State, ev: Event, id: string)
    requires WellFiled(s.peers) && id in Next(v, s, ev).peers
    ensures var p := Next(v, s, ev).peers[id];
            if id in s.peers then p.signatureKey == s.peers[id].signatureKey
            else ev.op.OpUpsert? && p.signatureKey == Trim(ev.op.reg.signatureKey)
  {
    NextPeerStep(v, s, ev, id);
  }

  // ---------------------------------------------------------------- the sum of the scores

  ghost function TotalScore(peers: map<string, Peer>, ids: set<string>): int
    requires ids <= peers.Keys
  {
    if ids == {} then 0
    else
      var id :| id in ids;
      peers[id].score + TotalScore(peers, ids - {id})
  }

  lemma {:induction false} TotalWithout(peers: map<string, Peer>, ids: set<string>, x: string)
    requires ids <= peers.Keys && x in ids
    ensures TotalScore(peers, ids) == peers[x].score + TotalScore(peers, ids - {x})
  {
    var id :| id in ids && TotalScore(peers, ids) == peers[id].score + TotalScore(peers, ids - {id});
    if id != x {
      TotalWithout(peers, ids - {id}, x);
      TotalWithout(peers, ids - {x}, id);
      assert ids - {id} - {x} == ids - {x} - {id};
    }
  }

  lemma {:induction false} TotalUnchanged(a: map<string, Peer>, b: map<string, Peer>, ids: set<string>)
    requires ids <= a.Keys && ids <= b.Keys && forall id :: id in ids ==> a[id].score == b[id].score
    ensures TotalScore(a, ids) == TotalScore(b, ids)
  {
    if ids != {} {
      var id :| id in ids;
      TotalWithout(a, ids, id);
      TotalWithout(b, ids, id);
      TotalUnchanged(a, b, ids - {id});
    }
  }

  lemma TotalAfterCredit(peers: map<string, Peer>, ids: set<string>, x: string, valid: bool)
    requires ids <= peers.Keys && x in ids
    ensures TotalScore(peers[x := Credited(peers[x], valid)], ids) == TotalScore(peers, ids) + Delta(valid)
  {
    var peers' := peers[x := Credited(peers[x], valid)];
    TotalWithout(peers, ids, x);
    TotalWithout(peers', ids, x);
    TotalUnchanged(peers, peers', ids - {x});
  }

  /** All stored peers with a key, expired or not. */
  function Holders(peers: map<string, Peer>, key: string): set<string> {
    set id | id in peers && peers[id].Key() == key
  }

  /** The key of the sender that a confirmation is about. */
  function SenderKey(s: State, req: ConfirmRequest): string {
    var i := FirstFor(s.chunks, ChunkKey(Trim(req.fileId), req.index), Trim(req.recipient));
    if i < 0 then "" else s.chunks[i].sender
  }

  /**
   * Whichever holder of the sender's key is credited, the total over all holders of that key changes
   * by exactly Delta, and the total over the holders of any other key does not change.
   */
  lemma ConfirmMovesTotalByDelta(v: Verifier, s: State, now: int, req: ConfirmRequest, pick: string,
                                 senderPick: string, key: string)
    requires FiledById(s.peers) && Confirm(v, s, now, req, pick, senderPick).1.Ok?
    ensures var (s', r) := Confirm(v, s, now, req, pick, senderPick);
            && Holders(s'.peers, key) == Holders(s.peers, key)
            && TotalScore(s'.peers, Holders(s'.peers, key))
            == TotalScore(s.peers, Holders(s.peers, key)) + (if key == SenderKey(s, req) then r.value.delta else 0)
  {
    var (s', r) := Confirm(v, s, now, req, pick, senderPick);
    ConfirmKeepsKeys(v, s, now, req, pick, senderPick);
    var holders := Holders(s.peers, key);
    assert Holders(s'.peers, key) == holders;
    assert s'.peers == s.peers[senderPick := Credited(s.peers[senderPick], r.value.valid)];
    if key == SenderKey(s, req) {
      TotalAfterCredit(s.peers, holders, senderPick, r.value.valid);
    } else {
      TotalUnchanged(s.peers, s'.peers, holders);
    }
  }
}
