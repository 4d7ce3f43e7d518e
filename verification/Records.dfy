/**
 * What a peer record says after any run, read off the requests alone: the keys of its first registration, the login
 * of its last one, the last flag that was given, and the time and ttl of its last touch.
 */
module Records {
  import opened Text
  import opened Model
  import opened Store
  import opened ChunkHistory
  import opened Peers

  predicate RegistersPeer(ev: Event, id: string) {
    ev.op.OpUpsert? && Trim(ev.op.reg.id) == id
  }

  /** Registered, and not deleted since. */
  predicate Present(es: seq<Event>, id: string) {
    es != []
    && var before, last := es[..|es| - 1], es[|es| - 1];
       RegistersPeer(last, id) || (last.op != OpDelete(id) && Present(before, id))
  }

  /** The registration that created the present record, and the latest one. */
  function FirstRegistration(es: seq<Event>, id: string): RegisterRequest
    requires Present(es, id)
  {
    var before, last := es[..|es| - 1], es[|es| - 1];
    if Present(before, id) then FirstRegistration(before, id) else last.op.reg
  }

  function LastRegistration(es: seq<Event>, id: string): RegisterRequest
    requires Present(es, id)
  {
    var before, last := es[..|es| - 1], es[|es| - 1];
    if RegistersPeer(last, id) then last.op.reg else LastRegistration(before, id)
  }

  /** The flag of the last registration that gave one, or else of the first. */
  function LastFlag(es: seq<Event>, id: string): string
    requires Present(es, id)
  {
    var before, last := es[..|es| - 1], es[|es| - 1];
    if RegistersPeer(last, id) && (last.op.reg.flag != "" || !Present(before, id)) then last.op.reg.flag
    else LastFlag(before, id)
  }

  /** Heartbeats name the id as it is, refreshes and registrations with white space around it. */
  predicate Revives(ev: Event, id: string) {
    || RegistersPeer(ev, id)
    || (ev.op.OpRefresh? && Trim(ev.op.ref.id) == id)
    || (ev.op.OpHeartbeat? && ev.op.id == id)
  }

  function LastSeen(es: seq<Event>, id: string): int
    requires Present(es, id)
  {
    var before, last := es[..|es| - 1], es[|es| - 1];
    if Revives(last, id) then last.now else LastSeen(before, id)
  }

  /** The last ttl that was asked for; 300 seconds when a registration asks for none. */
  function LastTtl(es: seq<Event>, id: string): int
    requires Present(es, id)
  {
    var before, last := es[..|es| - 1], es[|es| - 1];
    if RegistersPeer(last, id) then (if last.op.reg.ttl > 0 then last.op.reg.ttl else 300)
    else if last.op.OpHeartbeat? && last.op.id == id && last.op.ttl > 0 then last.op.ttl
    else LastTtl(before, id)
  }

  /** The record as the requests describe it, apart from its score and counters. */
  ghost predicate Describes(p: Peer, es: seq<Event>, id: string)
    requires Present(es, id)
  {
    var first, last := FirstRegistration(es, id), LastRegistration(es, id);
    && p.id == id && p.login == Trim(last.login)
    && p.encryptionKey == Trim(first.encryptionKey) && p.signatureKey == Trim(first.signatureKey)
    && (p.fake <==> first.fake == Some(true))
    && p.flag == LastFlag(es, id) && p.lastSeen == LastSeen(es, id) && p.ttl == LastTtl(es, id)
  }

  // ---------------------------------------------------------------- single registrations

  /** A new record, field by field. */
  lemma FirstRecord(s: State, now: int, req: RegisterRequest)
    requires Trim(req.id) != "" && Trim(req.id) !in s.peers
    ensures Upsert(s, now, req).1 == Ok(())
    ensures var p := Upsert(s, now, req).0.peers[Trim(req.id)];
            && p.id == Trim(req.id) && p.login == Trim(req.login)
            && p.encryptionKey == Trim(req.encryptionKey) && p.signatureKey == Trim(req.signatureKey)
            && p.lastSeen == now && p.ttl == (if req.ttl > 0 then req.ttl else 300)
            && p.score == 1000 && p.quality == Quality(0, 0)
            && p.flag == req.flag && (p.fake <==> req.fake == Some(true))
  {
  }

  /** A registration of a stored peer, field by field. */
  lemma RenewedRecord(s: State, now: int, req: RegisterRequest)
    requires Trim(req.id) != "" && Trim(req.id) in s.peers
    ensures Upsert(s, now, req).1 == Ok(())
    ensures var p, q := s.peers[Trim(req.id)], Upsert(s, now, req).0.peers[Trim(req.id)];
            && q.id == Trim(req.id) && q.login == Trim(req.login)
            && q.encryptionKey == p.encryptionKey && q.signatureKey == p.signatureKey
            && q.lastSeen == now && q.ttl == (if req.ttl > 0 then req.ttl else 300)
            && q.score == p.score && q.quality == p.quality
            && q.flag == (if req.flag != "" then req.flag else p.flag) && q.fake == p.fake
  {
  }

  /** A refresh renews the time only; a heartbeat also the ttl, if positive, and returns the stored record. */
  lemma RevivedRecord(s: State, now: int, ref: RefreshRequest, id: string, ttl: int)
    ensures Trim(ref.id) != "" && Trim(ref.id) in s.peers ==>
              Refresh(s, now, ref).0.peers[Trim(ref.id)] == s.peers[Trim(ref.id)].(lastSeen := now)
    ensures id in s.peers ==>
              var (s', r) := Heartbeat(s, now, id, ttl);
              && s'.peers[id] == s.peers[id].(lastSeen := now, ttl := if ttl > 0 then ttl else s.peers[id].ttl)
              && r == Ok(s'.peers[id])
  {
  }

  // ---------------------------------------------------------------- over whole runs

  lemma RegistrationDescribes(v: Verifier, s: State, before: seq<Event>, ev: Event, id: string)
    requires RegistersPeer(ev, id) && id != ""
    requires id in s.peers <==> Present(before, id)
    requires id in s.peers ==> Describes(s.peers[id], before, id)
    ensures Present(before + [ev], id) && id in Next(v, s, ev).peers
    ensures Describes(Next(v, s, ev).peers[id], before + [ev], id)
  {
    var es := before + [ev];
    assert es[..|es| - 1] == before && es[|es| - 1] == ev;
    if id in s.peers {
      RenewedRecord(s, ev.now, ev.op.reg);
    } else {
      FirstRecord(s, ev.now, ev.op.reg);
    }
  }

  /** Events other than registrations and deletions of the peer. */
  lemma RevivalDescribes(v: Verifier, s: State, before: seq<Event>, ev: Event, id: string)
    requires WellFiled(s.peers) && id in s.peers && Present(before, id) && Describes(s.peers[id], before, id)
    requires !RegistersPeer(ev, id) && ev.op != OpDelete(id)
    ensures Present(before + [ev], id) && id in Next(v, s, ev).peers
    ensures Describes(Next(v, s, ev).peers[id], before + [ev], id)
  {
    var es := before + [ev];
    assert es[..|es| - 1] == before && es[|es| - 1] == ev;
    NextPeerStep(v, s, ev, id);
    if ev.op.OpRefresh? {
      RevivedRecord(s, ev.now, ev.op.ref, "", 0);
    } else if ev.op.OpHeartbeat? {
      RevivedRecord(s, ev.now, RefreshRequest("", "", ""), ev.op.id, ev.op.ttl);
    }
  }

  /** After any run a peer is stored iff the requests say so, and its record is the one they describe. */
  lemma {:induction false} RecordsFollowTheRequests(v: Verifier, t: int, es: seq<Event>, id: string)
    requires Timely(t, es) && id != ""
    ensures id in Exec(v, EMPTY, es).peers <==> Present(es, id)
    ensures Present(es, id) ==> Describes(Exec(v, EMPTY, es).peers[id], es, id)
  {
    if es != [] {
      var before, last := es[..|es| - 1], es[|es| - 1];
      var s := Exec(v, EMPTY, before);
      RecordsFollowTheRequests(v, t, before, id);
      RunSound(v, EMPTY, t, before);
      assert before + [last] == es;
      NextPeerStep(v, s, last, id);
      if RegistersPeer(last, id) {
        RegistrationDescribes(v, s, before, last, id);
      } else if last.op != OpDelete(id) && id in s.peers {
        RevivalDescribes(v, s, before, last, id);
      }
    }
  }
}
