/**
 * The hand-kept `logins` index. One law governs it over every run: a peer id occurs under a key once
 * if it is stored with that key, plus once for every refresh that named it with that key.
 */
module Index {
  import opened Text
  import opened Keys
  import opened Model
  import opened Store
  import opened ChunkHistory

  function Occurrences(s: State, key: string, id: string): nat {
    ListCount(s.logins, key, id)
  }

  function StoredUnder(s: State, key: string, id: string): nat {
    if id in s.peers && s.peers[id].Key() == key then 1 else 0
  }

  /** A refresh of a stored peer, which appends its id to the list of the key it names. */
  predicate RefreshesUnder(s: State, ev: Event, key: string, id: string) {
    ev.op.OpRefresh? && id == Trim(ev.op.ref.id) != "" && id in s.peers
    && key == PeerKey(ev.op.ref.login, ev.op.ref.signatureKey)
  }

  function Refreshes(v: Verifier, s: State, es: seq<Event>, key: string, id: string): nat {
    if es == [] then 0
    else
      var before := es[..|es| - 1];
      Refreshes(v, s, before, key, id)
      + (if RefreshesUnder(Exec(v, s, before), es[|es| - 1], key, id) then 1 else 0)
  }

  lemma {:induction false} RemoveFirstCounts(ids: seq<string>, id: string)
    ensures multiset(RemoveFirst(ids, id)) == multiset(ids) - multiset{id}
  {
    if ids != [] {
      assert ids == [ids[0]] + ids[1..];
      if ids[0] != id {
        RemoveFirstCounts(ids[1..], id);
      }
    }
  }

  /** The first occurrence goes, and everything else stays in place. */
  lemma {:induction false} FirstIsRemoved(front: seq<string>, id: string, rest: seq<string>)
    requires id !in front
    ensures RemoveFirst(front + [id] + rest, id) == front + rest
    ensures RemoveFirst(front, id) == front
  {
    if front == [] {
      assert ([] + [id] + rest)[1..] == rest;
    } else {
      var ids := front + [id] + rest;
      FirstIsRemoved(front[1..], id, rest);
      assert ids[0] == front[0] && ids[1..] == front[1..] + [id] + rest;
    }
  }

  function ListCount(logins: map<string, seq<string>>, key: string, id: string): nat {
    multiset(Ids(logins, key))[id]
  }

  lemma AppendingCounts(logins: map<string, seq<string>>, k: string, x: string, key: string, id: string)
    ensures ListCount(logins[k := Ids(logins, k) + [x]], key, id)
         == ListCount(logins, key, id) + (if key == k && id == x then 1 else 0)
  {
  }

  lemma RemovingCounts(logins: map<string, seq<string>>, k: string, x: string, key: string, id: string)
    requires ListCount(logins, k, x) > 0
    ensures ListCount(logins[k := RemoveFirst(Ids(logins, k), x)], key, id)
         == ListCount(logins, key, id) - (if key == k && id == x then 1 else 0)
  {
    RemoveFirstCounts(Ids(logins, k), x);
  }

  /** How far the list of a key is ahead of the stored peers, for one id. */
  function Excess(s: State, key: string, id: string): int {
    Occurrences(s, key, id) - StoredUnder(s, key, id)
  }

  ghost predicate Complete(s: State) {
    forall x :: x in s.peers ==> s.peers[x].id == x && Occurrences(s, s.peers[x].Key(), x) >= 1
  }

  lemma MovingKeepsExcess(s: State, x: string, p: Peer, key: string, id: string)
    requires x in s.peers && ListCount(s.logins, s.peers[x].Key(), x) >= 1
    ensures var mid := s.logins[s.peers[x].Key() := RemoveFirst(Ids(s.logins, s.peers[x].Key()), x)];
            Excess(s.(logins := mid[p.Key() := Ids(mid, p.Key()) + [x]], peers := s.peers[x := p]), key, id)
            == Excess(s, key, id)
  {
    var oldKey := s.peers[x].Key();
    var mid := s.logins[oldKey := RemoveFirst(Ids(s.logins, oldKey), x)];
    RemovingCounts(s.logins, oldKey, x, key, id);
    AppendingCounts(mid, p.Key(), x, key, id);
  }

  lemma AddingKeepsExcess(s: State, x: string, p: Peer, key: string, id: string)
    requires x !in s.peers
    ensures Excess(s.(logins := s.logins[p.Key() := Ids(s.logins, p.Key()) + [x]], peers := s.peers[x := p]), key, id)
            == Excess(s, key, id)
  {
    AppendingCounts(s.logins, p.Key(), x, key, id);
  }

  lemma UpsertKeepsExcess(s: State, now: int, req: RegisterRequest, key: string, id: string)
    requires Complete(s)
    ensures Excess(Upsert(s, now, req).0, key, id) == Excess(s, key, id)
  {
    var x := Trim(req.id);
    if x in s.peers {
      assert Occurrences(s, s.peers[x].Key(), x) >= 1;
      MovingKeepsExcess(s, x, ReRegistered(now, req, s.peers[x]), key, id);
    } else {
      AddingKeepsExcess(s, x, NewPeer(now, req), key, id);
    }
  }

  lemma DeleteKeepsExcess(s: State, x: string, key: string, id: string)
    requires Complete(s)
    ensures Excess(Delete(s, x).0, key, id) == Excess(s, key, id)
  {
    if x in s.peers {
      RemovingCounts(s.logins, s.peers[x].Key(), x, key, id);
    }
  }

  lemma RefreshAddsExcess(s: State, now: int, req: RefreshRequest, key: string, id: string)
    ensures Excess(Refresh(s, now, req).0, key, id)
         == Excess(s, key, id) + (if RefreshesUnder(s, Event(now, OpRefresh(req)), key, id) then 1 else 0)
  {
    if Trim(req.id) in s.peers {
      AppendingCounts(s.logins, PeerKey(req.login, req.signatureKey), Trim(req.id), key, id);
    }
  }

  /** Ids are listed in the order in which they were registered or refreshed: the latest comes last. */
  lemma LatestComesLast(s: State, now: int, reg: RegisterRequest, ref: RefreshRequest)
    ensures Trim(reg.id) != "" ==>
              var id, s' := Trim(reg.id), Upsert(s, now, reg).0;
              var key := s'.peers[id].Key();
              Ids(s'.logins, key)
              == (if id in s.peers && s.peers[id].Key() == key then RemoveFirst(Ids(s.logins, key), id)
                  else Ids(s.logins, key)) + [id]
    ensures Trim(ref.id) != "" && Trim(ref.id) in s.peers ==>
              var key := PeerKey(ref.login, ref.signatureKey);
              Ids(Refresh(s, now, ref).0.logins, key) == Ids(s.logins, key) + [Trim(ref.id)]
  {
  }

  predicate SameIdentity(p: Peer, q: Peer) {
    p.id == q.id && p.signatureKey == q.signatureKey && p.encryptionKey == q.encryptionKey && p.fake == q.fake
  }

  /** Same peers, with the same logins and identities. */
  ghost predicate SameKeys(a: map<string, Peer>, b: map<string, Peer>) {
    a.Keys == b.Keys && forall x :: x in a ==> SameIdentity(a[x], b[x]) && a[x].login == b[x].login
  }

  predicate FiledById(peers: map<string, Peer>) {
    forall x :: x in peers ==> peers[x].id == x
  }

  lemma CreditKeepsKeys(peers: map<string, Peer>, id: string, valid: bool)
    requires id in peers && FiledById(peers)
    ensures SameKeys(peers, peers[peers[id].id := Credited(peers[id], valid)])
  {
  }

  lemma ConfirmKeepsKeys(v: Verifier, s: State, now: int, req: ConfirmRequest, pick: string, senderPick: string)
    requires FiledById(s.peers)
    ensures Confirm(v, s, now, req, pick, senderPick).0.logins == s.logins
    ensures SameKeys(s.peers, Confirm(v, s, now, req, pick, senderPick).0.peers)
  {
    if Confirm(v, s, now, req, pick, senderPick).1.Ok? {
      CreditKeepsKeys(s.peers, senderPick, Confirm(v, s, now, req, pick, senderPick).1.value.valid);
    }
  }

  lemma ReportKeepsKeys(v: Verifier, s: State, source: string, req: ReportRequest)
    requires FiledById(s.peers)
    ensures Report(v, s, source, req).0.logins == s.logins
    ensures SameKeys(s.peers, Report(v, s, source, req).0.peers)
  {
    if Report(v, s, source, req).1.Ok? {
      CreditKeepsKeys(s.peers, Trim(source), Report(v, s, source, req).1.value.valid);
    }
  }

  /** Operations outside registration change neither the index nor anyone's key. */
  lemma OthersKeepKeys(v: Verifier, s: State, ev: Event)
    requires FiledById(s.peers)
    requires !ev.op.OpUpsert? && !ev.op.OpDelete? && !ev.op.OpRefresh?
    ensures Next(v, s, ev).logins == s.logins && SameKeys(s.peers, Next(v, s, ev).peers)
  {
    if ev.op.OpConfirm? {
      ConfirmKeepsKeys(v, s, ev.now, ev.op.confirm, ev.op.pick, ev.op.senderPick);
    } else if ev.op.OpReport? {
      ReportKeepsKeys(v, s, ev.op.source, ev.op.report);
    }
  }

  lemma NextExcess(v: Verifier, s: State, ev: Event, key: string, id: string)
    requires Complete(s)
    ensures Excess(Next(v, s, ev), key, id) == Excess(s, key, id) + (if RefreshesUnder(s, ev, key, id) then 1 else 0)
  {
    if ev.op.OpUpsert? {
      UpsertKeepsExcess(s, ev.now, ev.op.reg, key, id);
    } else if ev.op.OpDelete? {
      DeleteKeepsExcess(s, ev.op.id, key, id);
    } else if ev.op.OpRefresh? {
      RefreshAddsExcess(s, ev.now, ev.op.ref, key, id);
    } else {
      OthersKeepKeys(v, s, ev);
    }
  }

  /** The law of the index, from an empty store. */
  lemma {:induction false} IndexLaw(v: Verifier, t: int, es: seq<Event>, key: string, id: string)
    requires Timely(t, es)
    ensures Occurrences(Exec(v, EMPTY, es), key, id)
         == StoredUnder(Exec(v, EMPTY, es), key, id) + Refreshes(v, EMPTY, es, key, id)
  {
    if es != [] {
      var before := es[..|es| - 1];
      var s := Exec(v, EMPTY, before);
      RunSound(v, EMPTY, t, before);
      forall x | x in s.peers
        ensures Occurrences(s, s.peers[x].Key(), x) >= 1
      {
        IndexLaw(v, t, before, s.peers[x].Key(), x);
      }
      IndexLaw(v, t, before, key, id);
      NextExcess(v, s, es[|es| - 1], key, id);
    }
  }

  // ---------------------------------------------------------------- consequences

  /** The index mirrors the stored peers: each id once under its own key and nowhere else. */
  ghost predicate Exact(s: State) {
    forall key, id :: Occurrences(s, key, id) == StoredUnder(s, key, id)
  }

  ghost predicate SomeRefresh(v: Verifier, s: State, es: seq<Event>) {
    exists key, id :: Refreshes(v, s, es, key, id) > 0
  }

  /** The index is exact at the end of a run exactly when the run refreshed no stored peer. */
  lemma ExactIffNoRefresh(v: Verifier, t: int, es: seq<Event>)
    requires Timely(t, es)
    ensures Exact(Exec(v, EMPTY, es)) <==> !SomeRefresh(v, EMPTY, es)
  {
    var s := Exec(v, EMPTY, es);
    forall key, id
      ensures Occurrences(s, key, id) == StoredUnder(s, key, id) + Refreshes(v, EMPTY, es, key, id)
    {
      IndexLaw(v, t, es, key, id);
    }
  }

  predicate LivePeer(peers: map<string, Peer>, p: Peer, now: int) {
    Live(peers, p.id, now) && peers[p.id] == p
  }

  lemma {:induction false} LiveAmongCounts(peers: map<string, Peer>, ids: seq<string>, now: int, p: Peer)
    requires FiledById(peers)
    ensures multiset(LiveAmong(peers, ids, now))[p] == if LivePeer(peers, p, now) then multiset(ids)[p.id] else 0
  {
    if ids != [] {
      var n := |ids| - 1;
      LiveAmongCounts(peers, ids[..n], now, p);
      assert ids == ids[..n] + [ids[n]];
    }
  }

  /** The answer keeps the order of the index list, leaving out the ids of peers that are not live. */
  lemma {:induction false} LiveAmongSplits(peers: map<string, Peer>, a: seq<string>, id: string, b: seq<string>,
                                           now: int)
    ensures LiveAmong(peers, a + [id] + b, now)
         == LiveAmong(peers, a, now) + (if Live(peers, id, now) then [peers[id]] else []) + LiveAmong(peers, b, now)
  {
    if b == [] {
      assert a + [id] + b == a + [id] && (a + [id])[..|a|] == a;
    } else {
      var n := |b| - 1;
      LiveAmongSplits(peers, a, id, b[..n], now);
      assert (a + [id] + b)[..|a| + 1 + n] == a + [id] + b[..n];
      assert (a + [id] + b)[|a| + 1 + n] == b[n];
    }
  }

  /**
   * What `GetByKey` returns after any run: every live peer stored with the key, once plus once per
   * refresh naming it with that key; beyond those, only live peers that a refresh named with the key.
   */
  lemma GetByKeyReturns(v: Verifier, t: int, es: seq<Event>, now: int, login: string, signature: string, p: Peer)
    requires Timely(t, es) && Trim(login) != "" && Trim(signature) != ""
    ensures var s, key := Exec(v, EMPTY, es), PeerKey(Trim(login), Trim(signature));
            var r := GetByKey(s, now, login, signature);
            multiset(if r.Ok? then r.value else [])[p]
            == if LivePeer(s.peers, p, now) then StoredUnder(s, key, p.id) + Refreshes(v, EMPTY, es, key, p.id) else 0
  {
    var s, key := Exec(v, EMPTY, es), PeerKey(Trim(login), Trim(signature));
    RunSound(v, EMPTY, t, es);
    LiveAmongCounts(s.peers, Ids(s.logins, key), now, p);
    IndexLaw(v, t, es, key, p.id);
  }

  /** Without refreshes the indexed lookup and the scan of `peerByKey` agree. */
  lemma GetByKeyAgreesWithScan(v: Verifier, t: int, es: seq<Event>, now: int, login: string, signature: string)
    requires Timely(t, es) && Trim(login) != "" && Trim(signature) != ""
    requires !SomeRefresh(v, EMPTY, es)
    ensures var s, key := Exec(v, EMPTY, es), PeerKey(Trim(login), Trim(signature));
            var r := GetByKey(s, now, login, signature);
            && (r.Ok? <==> SomeoneHolds(s.peers, key, now))
            && (forall id :: HoldsKey(s.peers, id, key, now) ==> r.Ok? && multiset(r.value)[s.peers[id]] == 1)
            && (r.Ok? ==> forall p :: p in r.value ==> HoldsKey(s.peers, p.id, key, now) && s.peers[p.id] == p)
  {
    var s, key := Exec(v, EMPTY, es), PeerKey(Trim(login), Trim(signature));
    var r := GetByKey(s, now, login, signature);
    RunSound(v, EMPTY, t, es);
    forall id | HoldsKey(s.peers, id, key, now)
      ensures r.Ok? && multiset(r.value)[s.peers[id]] == 1
    {
      GetByKeyReturns(v, t, es, now, login, signature, s.peers[id]);
    }
    if r.Ok? {
      forall p | p in r.value
        ensures HoldsKey(s.peers, p.id, key, now) && s.peers[p.id] == p
      {
        assert multiset(r.value)[p] > 0;
        GetByKeyReturns(v, t, es, now, login, signature, p);
      }
      assert r.value[0] in r.value;
    }
  }

  /** What a key lookup answers with; nothing when it fails. */
  function Answer(s: State, now: int, login: string, signature: string): seq<Peer> {
    var r := GetByKey(s, now, login, signature);
    if r.Ok? then r.value else []
  }

  /**
   * Registering a stored peer again under another login moves it in the index: it is found under the new
   * login with its first signature key, and no longer under the old login. When the request brings another
   * signature key, a lookup with that key does not find it.
   */
  lemma ReRegistrationMovesThePeer(v: Verifier, t: int, es: seq<Event>, now: int, req: RegisterRequest, id: string)
    requires Timely(t, es) && Clock(t, es) <= now && !SomeRefresh(v, EMPTY, es)
    requires id == Trim(req.id) && id in Exec(v, EMPTY, es).peers && EffectiveTtl(req.ttl) * SECOND <= MAX_INT64
    ensures var s := Exec(v, EMPTY, es);
            var s' := Upsert(s, now, req).0;
            var newKey := PeerKey(Trim(req.login), s.peers[id].signatureKey);
            && id in Ids(s'.logins, newKey) && HoldsKey(s'.peers, id, newKey, now)
            && (Trim(req.login) != s.peers[id].login ==> id !in Ids(s'.logins, s.peers[id].Key()))
            && (Trim(req.signatureKey) != s.peers[id].signatureKey ==>
                  forall p :: p in Answer(s', now, req.login, req.signatureKey) ==>
                    p.id != id && p.id in s.peers && s.peers[p.id] == p
                    && p.Key() == PeerKey(Trim(req.login), Trim(req.signatureKey)))
  {
    var s := Exec(v, EMPTY, es);
    RunSound(v, EMPTY, t, es);
    ExactIffNoRefresh(v, t, es);
    MovedInExactIndex(s, now, req, id);
    FreshlyRegisteredIsLive(s, now, req, id);
    if Trim(req.signatureKey) != s.peers[id].signatureKey {
      forall p | p in Answer(Upsert(s, now, req).0, now, req.login, req.signatureKey)
        ensures p.id != id && p.id in s.peers && s.peers[p.id] == p
        ensures p.Key() == PeerKey(Trim(req.login), Trim(req.signatureKey))
      {
        NotFoundUnderOtherSignature(s, now, req, id, p);
      }
    }
  }

  /** The answers under the request's own signature key are other peers, stored with that key. */
  lemma NotFoundUnderOtherSignature(s: State, now: int, req: RegisterRequest, id: string, p: Peer)
    requires FiledById(s.peers) && Exact(s) && id == Trim(req.id) != "" && id in s.peers
    requires Trim(req.signatureKey) != s.peers[id].signatureKey
    requires p in Answer(Upsert(s, now, req).0, now, req.login, req.signatureKey)
    ensures p.id != id && p.id in s.peers && s.peers[p.id] == p
    ensures p.Key() == PeerKey(Trim(req.login), Trim(req.signatureKey))
  {
    var s', q := Upsert(s, now, req).0, ReRegistered(now, req, s.peers[id]);
    var key := PeerKey(Trim(req.login), Trim(req.signatureKey));
    assert Occurrences(s, s.peers[id].Key(), id) == StoredUnder(s, s.peers[id].Key(), id);
    MovingKeepsExcess(s, id, q, key, p.id);
    LiveAmongCounts(s'.peers, Ids(s'.logins, key), now, p);
    assert multiset(Answer(s', now, req.login, req.signatureKey))[p] > 0;
    assert Occurrences(s, key, p.id) == StoredUnder(s, key, p.id);
    SameKeySameSignature(Trim(req.login), Trim(req.signatureKey), s.peers[id].signatureKey);
  }

  lemma SameKeySameSignature(login: string, sig: string, sig': string)
    ensures PeerKey(login, sig) == PeerKey(login, sig') ==> sig == sig'
  {
    if PeerKey(login, sig) == PeerKey(login, sig') {
      var key := PeerKey(login, sig);
      assert sig == key[|login| + 1..] && sig' == key[|login| + 1..];
    }
  }

  lemma SameKeySameLogin(login: string, login': string, sig: string)
    requires PeerKey(login, sig) == PeerKey(login', sig)
    ensures login == login'
  {
    var key := PeerKey(login, sig);
    assert login == key[..|key| - |sig| - 1] && login' == key[..|key| - |sig| - 1];
  }

  lemma MovedInExactIndex(s: State, now: int, req: RegisterRequest, id: string)
    requires FiledById(s.peers) && Exact(s) && id == Trim(req.id) != "" && id in s.peers
    ensures var s' := Upsert(s, now, req).0;
            && Occurrences(s', PeerKey(Trim(req.login), s.peers[id].signatureKey), id) == 1
            && (Trim(req.login) != s.peers[id].login ==> Occurrences(s', s.peers[id].Key(), id) == 0)
  {
    var p := ReRegistered(now, req, s.peers[id]);
    assert Occurrences(s, s.peers[id].Key(), id) == StoredUnder(s, s.peers[id].Key(), id);
    MovingKeepsExcess(s, id, p, p.Key(), id);
    MovingKeepsExcess(s, id, p, s.peers[id].Key(), id);
    assert Occurrences(s, p.Key(), id) == StoredUnder(s, p.Key(), id);
    if s.peers[id].Key() == p.Key() {
      SameKeySameLogin(s.peers[id].login, p.login, p.signatureKey);
    }
  }

  lemma FreshlyRegisteredIsLive(s: State, now: int, req: RegisterRequest, id: string)
    requires id == Trim(req.id) != "" && id in s.peers && EffectiveTtl(req.ttl) * SECOND <= MAX_INT64
    ensures HoldsKey(Upsert(s, now, req).0.peers, id, PeerKey(Trim(req.login), s.peers[id].signatureKey), now)
  {
  }
}
