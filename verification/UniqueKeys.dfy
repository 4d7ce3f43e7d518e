/**
 * Whether a key belongs to one peer. The documentation says that a (login, signature) pair identifies a
 * peer; the store checks nothing of the kind, so it is the registrations that decide.
 */
module UniqueKeys {
  import opened Text
  import opened Keys
  import opened Model
  import opened Store
  import opened ChunkHistory
  import opened Index

  predicate Unique(peers: map<string, Peer>) {
    forall x, y :: x in peers && y in peers && peers[x].Key() == peers[y].Key() ==> x == y
  }

  /** The key that a registration gives its peer: a stored peer keeps its signature key. */
  function RegisteredKey(s: State, req: RegisterRequest): string {
    var id := Trim(req.id);
    PeerKey(Trim(req.login), if id in s.peers then s.peers[id].signatureKey else Trim(req.signatureKey))
  }

  /** Another stored peer, expired or not, has the key. */
  ghost predicate Taken(peers: map<string, Peer>, key: string, id: string) {
    exists x :: x in peers && x != id && peers[x].Key() == key
  }

  /** A registration keeps all keys unique exactly when no other peer holds the key it brings. */
  lemma UpsertKeepsUniqueIff(s: State, now: int, req: RegisterRequest)
    requires Unique(s.peers) && Trim(req.id) != ""
    ensures Unique(Upsert(s, now, req).0.peers) <==> !Taken(s.peers, RegisteredKey(s, req), Trim(req.id))
  {
    var id, peers' := Trim(req.id), Upsert(s, now, req).0.peers;
    assert peers'[id].Key() == RegisteredKey(s, req);
    assert forall x :: x in s.peers && x != id ==> x in peers' && peers'[x] == s.peers[x];
  }

  ghost predicate TakesAKey(s: State, ev: Event) {
    ev.op.OpUpsert? && Trim(ev.op.reg.id) != "" && Taken(s.peers, RegisteredKey(s, ev.op.reg), Trim(ev.op.reg.id))
  }

  lemma NextKeepsUniqueIff(v: Verifier, s: State, ev: Event)
    requires FiledById(s.peers) && Unique(s.peers)
    ensures Unique(Next(v, s, ev).peers) <==> !TakesAKey(s, ev)
  {
    if ev.op.OpUpsert? {
      if Trim(ev.op.reg.id) != "" {
        UpsertKeepsUniqueIff(s, ev.now, ev.op.reg);
      }
    } else if !ev.op.OpDelete? && !ev.op.OpRefresh? {
      OthersKeepKeys(v, s, ev);
    }
  }

  /** At the end of the run and at every moment before. */
  ghost predicate UniqueThroughout(v: Verifier, es: seq<Event>) {
    Unique(Exec(v, EMPTY, es).peers) && (es == [] || UniqueThroughout(v, es[..|es| - 1]))
  }

  ghost predicate SomeKeyTaken(v: Verifier, es: seq<Event>) {
    es != []
    && var before := es[..|es| - 1];
       SomeKeyTaken(v, before) || TakesAKey(Exec(v, EMPTY, before), es[|es| - 1])
  }

  /** Keys are unique throughout a run exactly when no registration of the run brings a taken key. */
  lemma {:induction false} UniqueThroughoutIff(v: Verifier, t: int, es: seq<Event>)
    requires Timely(t, es)
    ensures UniqueThroughout(v, es) <==> !SomeKeyTaken(v, es)
  {
    if es != [] {
      var before := es[..|es| - 1];
      UniqueThroughoutIff(v, t, before);
      RunSound(v, EMPTY, t, before);
      if UniqueThroughout(v, before) {
        NextKeepsUniqueIff(v, Exec(v, EMPTY, before), es[|es| - 1]);
      }
    }
  }
}
