/**
 * Peer records over whole runs: what one event can do to a record, the score ledger, pinned
 * identities, and how long a peer stays visible.
 */
module Peers {
  import opened Text
  import opened Keys
  import opened Model
  import opened Scores
  import opened Store
  import opened ChunkHistory
  import opened Index
  import R = Ranking

  // ---------------------------------------------------------------- one event, one record

  /** The peer an event credits or debits. */
  function CreditedBy(v: Verifier, s: State, ev: Event): Option<string> {
    match ev.op
    case OpReport(source, req) => if Report(v, s, source, req).1.Ok? then Some(Trim(source)) else None
    case OpConfirm(req, pick, senderPick) =>
      var r := Confirm(v, s, ev.now, req, pick, senderPick).1;
      if r.Ok? then Some(r.value.peer.id) else None
    case _ => None
  }

  /** The peer an event shows to be alive. */
  function TouchedBy(ev: Event): Option<string> {
    match ev.op
    case OpUpsert(req) => Some(Trim(req.id))
    case OpRefresh(req) => Some(Trim(req.id))
    case OpHeartbeat(id, _) => Some(id)
    case _ => None
  }

  /** The ttl a touched peer has afterwards. */
  function TtlAfter(ev: Event, current: int): int {
    match ev.op
    case OpUpsert(req) => EffectiveTtl(req.ttl)
    case OpHeartbeat(_, ttl) => if ttl > 0 then ttl else current
    case _ => current
  }

  function ReportsOn(p: Peer): int {
    p.quality.valid + p.quality.invalid
  }

  /** How the record of a peer that stays stored may change. */
  predicate RecordStep(p: Peer, p': Peer, ev: Event, credited: bool, touched: bool) {
    && SameIdentity(p, p')
    && ReportsOn(p') == ReportsOn(p) + (if credited then 1 else 0)
    && p'.quality.valid >= p.quality.valid && p'.quality.invalid >= p.quality.invalid
    && (if touched then p'.lastSeen == ev.now && p'.ttl == TtlAfter(ev, p.ttl)
        else p'.lastSeen == p.lastSeen && p'.ttl == p.ttl && p'.login == p.login && p'.flag == p.flag)
  }

  predicate PeerStep(s: State, s': State, ev: Event, credited: Option<string>, id: string) {
    && (id in s.peers && id !in s'.peers ==> ev.op == OpDelete(id))
    && (id !in s.peers && id in s'.peers ==>
          ev.op.OpUpsert? && Trim(ev.op.reg.id) == id && s'.peers[id] == NewPeer(ev.now, ev.op.reg))
    && (id in s.peers && id in s'.peers ==>
          RecordStep(s.peers[id], s'.peers[id], ev, credited == Some(id), TouchedBy(ev) == Some(id)))
  }

  predicate WellFiled(peers: map<string, Peer>) {
    FiledById(peers) && "" !in peers
  }

  lemma CreditStep(s: State, s': State, ev: Event, x: string, valid: bool, id: string)
    requires WellFiled(s.peers) && x in s.peers && TouchedBy(ev) == None
    requires s'.peers == s.peers[x := Credited(s.peers[x], valid)]
    ensures PeerStep(s, s', ev, Some(x), id)
  {
  }

  lemma ConfirmStep(v: Verifier, s: State, ev: Event, id: string)
    requires WellFiled(s.peers) && ev.op.OpConfirm?
    ensures PeerStep(s, Next(v, s, ev), ev, CreditedBy(v, s, ev), id)
  {
    var (s', r) := Confirm(v, s, ev.now, ev.op.confirm, ev.op.pick, ev.op.senderPick);
    if r.Ok? {
      assert s'.peers == s.peers[ev.op.senderPick := Credited(s.peers[ev.op.senderPick], r.value.valid)];
      CreditStep(s, s', ev, ev.op.senderPick, r.value.valid, id);
    }
  }

  lemma ReportStep(v: Verifier, s: State, ev: Event, id: string)
    requires WellFiled(s.peers) && ev.op.OpReport?
    ensures PeerStep(s, Next(v, s, ev), ev, CreditedBy(v, s, ev), id)
  {
    var (s', r) := Report(v, s, ev.op.source, ev.op.report);
    if r.Ok? {
      CreditStep(s, s', ev, Trim(ev.op.source), r.value.valid, id);
    }
  }

  lemma UpsertStep(v: Verifier, s: State, ev: Event, id: string)
    requires WellFiled(s.peers) && ev.op.OpUpsert?
    ensures PeerStep(s, Next(v, s, ev), ev, None, id)
  {
  }

  lemma HeartbeatStep(v: Verifier, s: State, ev: Event, id: string)
    requires WellFiled(s.peers) && (ev.op.OpHeartbeat? || ev.op.OpRefresh? || ev.op.OpDelete?)
    ensures PeerStep(s, Next(v, s, ev), ev, None, id)
  {
  }

  lemma ChunkOrSignalStep(v: Verifier, s: State, ev: Event, id: string)
    requires ev.op.OpSetChunk? || ev.op.OpRead? || ev.op.OpClean? || ev.op.OpSetSignal? || ev.op.OpPoll?
    ensures Next(v, s, ev).peers == s.peers && PeerStep(s, Next(v, s, ev), ev, None, id)
  {
  }

  lemma NextPeerStep(v: Verifier, s: State, ev: Event, id: string)
    requires WellFiled(s.peers)
    ensures PeerStep(s, Next(v, s, ev), ev, CreditedBy(v, s, ev), id)
  {
    match ev.op
    case OpConfirm(_, _, _) => ConfirmStep(v, s, ev, id);
    case OpReport(_, _) => ReportStep(v, s, ev, id);
    case OpUpsert(_) => UpsertStep(v, s, ev, id);
    case OpHeartbeat(_, _) => HeartbeatStep(v, s, ev, id);
    case OpRefresh(_) => HeartbeatStep(v, s, ev, id);
    case OpDelete(_) => HeartbeatStep(v, s, ev, id);
    case _ => ChunkOrSignalStep(v, s, ev, id);
  }

  /** The same without the credits. */
  lemma NextRecord(v: Verifier, s: State, ev: Event, id: string)
    requires WellFiled(s.peers) && id in s.peers && ev.op != OpDelete(id)
    ensures var s' := Next(v, s, ev);
            && id in s'.peers && SameIdentity(s.peers[id], s'.peers[id])
            && s'.peers[id].quality.valid >= s.peers[id].quality.valid
            && s'.peers[id].quality.invalid >= s.peers[id].quality.invalid
  {
    NextPeerStep(v, s, ev, id);
  }

  // ---------------------------------------------------------------- the score ledger

  /** The accepted reports and confirmations credited to a peer since it was created. */
  function Credits(v: Verifier, s: State, es: seq<Event>, id: string): nat {
    if es == [] then 0
    else
      var before := es[..|es| - 1];
      var mid := Exec(v, s, before);
      if id !in Exec(v, s, es).peers || id !in mid.peers then 0
      else Credits(v, s, before, id) + (if CreditedBy(v, mid, es[|es| - 1]) == Some(id) then 1 else 0)
  }

  lemma {:induction false} ScoreLedger(v: Verifier, t: int, es: seq<Event>, id: string)
    requires Timely(t, es) && id in Exec(v, EMPTY, es).peers
    ensures var p := Exec(v, EMPTY, es).peers[id];
            && p.score == 1000 + p.quality.valid - p.quality.invalid
            && p.quality.valid >= 0 && p.quality.invalid >= 0
            && p.quality.valid + p.quality.invalid == Credits(v, EMPTY, es, id)
  {
    RunSound(v, EMPTY, t, es);
    if es != [] {
      var before := es[..|es| - 1];
      RunSound(v, EMPTY, t, before);
      var mid := Exec(v, EMPTY, before);
      NextPeerStep(v, mid, es[|es| - 1], id);
      if id in mid.peers {
        ScoreLedger(v, t, before, id);
      }
    }
  }

  /** With this few credited events no multiplication in `EffectiveScore` leaves the int64 range. */
  const SAFE_CREDITS := 2_096_151

  lemma ScoreStaysExact(v: Verifier, t: int, es: seq<Event>, id: string)
    requires Timely(t, es) && id in Exec(v, EMPTY, es).peers
    requires Credits(v, EMPTY, es, id) <= SAFE_CREDITS
    ensures var p := Exec(v, EMPTY, es).peers[id];
            && (forall k :: 0 <= k <= FlagExponent(p.flag) ==> WrappedPower(p.score, k) == Power(p.score, k))
            && EffectiveScore(p.score, p.flag) == SignedPower(p.score, FlagExponent(p.flag))
  {
    ScoreLedger(v, t, es, id);
    var p := Exec(v, EMPTY, es).peers[id];
    assert -0x20_0000 < p.score < 0x20_0000;
    ExactIffFits(p.score, p.flag);
    SmallPowersDoNotWrap(p.score);
  }

  lemma SmallPowersDoNotWrap(s: int)
    requires -0x20_0000 < s < 0x20_0000
    ensures forall k :: 0 <= k <= 3 ==> WrappedPower(s, k) == Power(s, k)
  {
    PowerUpTo3(s);
    CubeBound(s);
    SquareBound(s);
    forall k | 0 <= k <= 3
      ensures WrappedPower(s, k) == Power(s, k)
    {
      WrappedPowerIsWrap(s, k);
      assert k == 0 || k == 1 || k == 2 || k == 3;
    }
  }

  // ---------------------------------------------------------------- pinned identities

  predicate Deletes(es: seq<Event>, id: string) {
    exists k :: 0 <= k < |es| && es[k].op == OpDelete(id)
  }

  lemma NoDeletesBefore(es: seq<Event>, id: string)
    requires es != [] && !Deletes(es, id)
    ensures !Deletes(es[..|es| - 1], id) && es[|es| - 1].op != OpDelete(id)
  {
    var before := es[..|es| - 1];
    forall k | 0 <= k < |before|
      ensures before[k].op != OpDelete(id)
    {
      assert before[k] == es[k];
    }
  }

  /** Until it is deleted, a peer keeps its keys, its fake mark and what its counters have reached. */
  lemma {:induction false} IdentityPinned(v: Verifier, s: State, t: int, es: seq<Event>, id: string)
    requires Sound(s, t) && Timely(t, es) && id in s.peers && !Deletes(es, id)
    ensures var s' := Exec(v, s, es);
            && id in s'.peers && SameIdentity(s.peers[id], s'.peers[id])
            && s'.peers[id].quality.valid >= s.peers[id].quality.valid
            && s'.peers[id].quality.invalid >= s.peers[id].quality.invalid
  {
    if es != [] {
      var n := |es| - 1;
      var before := es[..n];
      NoDeletesBefore(es, id);
      IdentityPinned(v, s, t, before, id);
      RunSound(v, s, t, before);
      NextRecord(v, Exec(v, s, before), es[n], id);
    }
  }

  // ---------------------------------------------------------------- visibility

  /** The largest ttl whose nanosecond product fits an int64. */
  const MAX_TTL := 9_223_372_036

  /** Events that would cut the window short: deletions, and ttls that are smaller or overflow. */
  predicate KeepsWindow(ev: Event, id: string, ttl: int) {
    && ev.op != OpDelete(id)
    && (ev.op.OpUpsert? && Trim(ev.op.reg.id) == id ==> ttl <= EffectiveTtl(ev.op.reg.ttl) <= MAX_TTL)
    && (ev.op.OpHeartbeat? && ev.op.id == id && ev.op.ttl > 0 ==> ttl <= ev.op.ttl <= MAX_TTL)
  }

  predicate AllKeepWindow(es: seq<Event>, id: string, ttl: int) {
    forall k :: 0 <= k < |es| ==> KeepsWindow(es[k], id, ttl)
  }

  /** A record that is seen no earlier than `t`, with a ttl of at least `ttl`. */
  predicate FreshSince(peers: map<string, Peer>, id: string, t: int, ttl: int) {
    id in peers && peers[id].lastSeen >= t && 0 < ttl <= peers[id].ttl <= MAX_TTL
  }

  lemma FreshIsLive(peers: map<string, Peer>, id: string, t: int, ttl: int, u: int)
    requires FreshSince(peers, id, t, ttl) && u <= t + ttl * SECOND
    ensures Live(peers, id, u)
  {
    var p := peers[id];
    assert ttl * SECOND <= p.ttl * SECOND <= MAX_INT64;
  }

  lemma {:induction false} WindowHolds(v: Verifier, s: State, t: int, es: seq<Event>, id: string, ttl: int)
    requires Sound(s, t) && Timely(t, es)
    requires FreshSince(s.peers, id, t, ttl) && AllKeepWindow(es, id, ttl)
    ensures FreshSince(Exec(v, s, es).peers, id, t, ttl)
  {
    if es != [] {
      var n := |es| - 1;
      var before := es[..n];
      assert KeepsWindow(es[n], id, ttl);
      assert forall k :: 0 <= k < n ==> before[k] == es[k];
      WindowHolds(v, s, t, before, id, ttl);
      RunSound(v, s, t, before);
      NextPeerStep(v, Exec(v, s, before), es[n], id);
      ClockFromStart(t, before);
    }
  }

  /**
   * After a heartbeat or registration at time `t` that leaves the ttl `ttl`, the peer is found at
   * every time up to t + ttl seconds, whatever happens in between, short of a deletion or a ttl that is
   * smaller or overflows.
   */
  lemma VisibleForItsTtl(v: Verifier, s: State, t0: int, touch: Event, es: seq<Event>, id: string, u: int)
    requires Sound(s, t0) && t0 <= touch.now && Timely(touch.now, es)
    requires touch.op.OpHeartbeat? || touch.op.OpUpsert?
    requires TouchedBy(touch) == Some(id) && Succeeds(v, s, touch)
    requires var ttl := Next(v, s, touch).peers[id].ttl;
             ttl <= MAX_TTL && AllKeepWindow(es, id, ttl) && u <= touch.now + ttl * SECOND
    ensures Get(Exec(v, Next(v, s, touch), es), u, id).Ok?
  {
    var s1 := Next(v, s, touch);
    NextSound(v, s, t0, touch);
    NextPeerStep(v, s, touch, id);
    WindowHolds(v, s1, touch.now, es, id, s1.peers[id].ttl);
    FreshIsLive(Exec(v, s1, es).peers, id, touch.now, s1.peers[id].ttl, u);
  }

  /** The peer is found during its whole ttl after time `t`, in every run that neither deletes it nor spoils its ttl. */
  ghost predicate AlwaysVisible(v: Verifier, s: State, t: int, id: string, ttl: int) {
    forall es, u :: Timely(t, es) && AllKeepWindow(es, id, ttl) && t <= u <= t + ttl * SECOND ==>
      Get(Exec(v, s, es), u, id).Ok?
  }

  /** A peer keeps the promise of its ttl, in every continuation, exactly when the ttl does not overflow. */
  lemma VisibleForItsTtlIff(v: Verifier, s: State, t0: int, touch: Event, id: string)
    requires Sound(s, t0) && t0 <= touch.now
    requires touch.op.OpHeartbeat? || touch.op.OpUpsert?
    requires TouchedBy(touch) == Some(id) && Succeeds(v, s, touch)
    ensures var s1 := Next(v, s, touch);
            AlwaysVisible(v, s1, touch.now, id, s1.peers[id].ttl) <==> s1.peers[id].ttl <= MAX_TTL
  {
    var s1 := Next(v, s, touch);
    NextSound(v, s, t0, touch);
    NextPeerStep(v, s, touch, id);
    var p := s1.peers[id];
    if p.ttl <= MAX_TTL {
      forall es, u
        | Timely(touch.now, es) && AllKeepWindow(es, id, p.ttl) && touch.now <= u <= touch.now + p.ttl * SECOND
        ensures Get(Exec(v, s1, es), u, id).Ok?
      {
        VisibleForItsTtl(v, s, t0, touch, es, id, u);
      }
    } else {
      var u := touch.now + p.ttl * SECOND;
      ExpiredWhenTtlEnds(p);
      assert Timely(touch.now, []) && AllKeepWindow([], id, p.ttl) && !Get(Exec(v, s1, []), u, id).Ok?;
    }
  }

  /** An overflowing ttl leaves an even product, below the largest duration that the elapsed time saturates to. */
  lemma ExpiredWhenTtlEnds(p: Peer)
    requires p.ttl > MAX_TTL
    ensures IsExpired(p, p.lastSeen + p.ttl * SECOND)
  {
    assert Saturate64(p.ttl * SECOND) == MAX_INT64;
    assert p.ttl * SECOND == 2 * (p.ttl * 500_000_000);
    EvenStaysEven(p.ttl * 500_000_000);
  }

  lemma EvenStaysEven(half: int)
    ensures Wrap64(2 * half) != MAX_INT64
  {
  }

  /** By itself: a record is unexpired for the whole of its ttl exactly when the ttl does not overflow. */
  lemma UnexpiredForItsTtlIff(p: Peer)
    requires p.ttl > 0
    ensures (forall u :: p.lastSeen <= u <= p.lastSeen + p.ttl * SECOND ==> !IsExpired(p, u)) <==> p.ttl <= MAX_TTL
  {
    if p.ttl > MAX_TTL {
      ExpiredWhenTtlEnds(p);
      assert p.lastSeen <= p.lastSeen + p.ttl * SECOND;
    }
  }

  /** Two overflowing ttls: one hides the peer at once, the other after less than a second of its 584 years. */
  lemma OverflowingTtls(p: Peer)
    ensures p.ttl == 9_223_372_037 ==> IsExpired(p, p.lastSeen)
    ensures p.ttl == 18_446_744_074 ==> !IsExpired(p, p.lastSeen) && IsExpired(p, p.lastSeen + SECOND)
  {
    assert Wrap64(9_223_372_037 * SECOND) < 0;
    assert 0 <= Wrap64(18_446_744_074 * SECOND) < SECOND;
  }

  /** The seconds a peer is visible for: 300 when its ttl is not positive. */
  function Lifetime(p: Peer): int {
    if p.ttl <= 0 then 300 else p.ttl
  }

  /** A peer whose ttl does not overflow is expired exactly when more than its lifetime has passed. */
  lemma ExpiresExactly(p: Peer, now: int)
    requires p.ttl <= MAX_TTL
    ensures IsExpired(p, now) <==> now > p.lastSeen + Lifetime(p) * 1_000_000_000
  {
  }

  predicate Touches(es: seq<Event>, id: string) {
    exists k :: 0 <= k < |es| && TouchedBy(es[k]) == Some(id)
  }

  lemma NoTouchesBefore(es: seq<Event>, id: string)
    requires es != [] && !Touches(es, id)
    ensures !Touches(es[..|es| - 1], id) && TouchedBy(es[|es| - 1]) != Some(id)
  {
    var before := es[..|es| - 1];
    forall k | 0 <= k < |before|
      ensures TouchedBy(before[k]) != Some(id)
    {
      assert before[k] == es[k];
    }
  }

  lemma ExpiryIsForGood(p: Peer, t: int, u: int)
    requires IsExpired(p, t) && t <= u
    ensures IsExpired(p, u)
  {
  }

  lemma {:induction false} NotLiveLater(v: Verifier, s: State, t: int, es: seq<Event>, id: string, u: int)
    requires Sound(s, t) && Timely(t, es) && !Live(s.peers, id, t) && !Touches(es, id)
    requires Clock(t, es) <= u
    ensures !Live(Exec(v, s, es).peers, id, u)
  {
    if es == [] {
      if id in s.peers {
        ExpiryIsForGood(s.peers[id], t, u);
      }
    } else {
      var n := |es| - 1;
      var before := es[..n];
      NoTouchesBefore(es, id);
      NotLiveLater(v, s, t, before, id, u);
      RunSound(v, s, t, before);
      NextPeerStep(v, Exec(v, s, before), es[n], id);
    }
  }

  /** Without touches a record keeps its time and ttl, and no record appears. */
  lemma {:induction false} UntouchedKeepsWindow(v: Verifier, s: State, t: int, es: seq<Event>, id: string)
    requires Sound(s, t) && Timely(t, es) && !Touches(es, id)
    ensures var s' := Exec(v, s, es);
            id in s'.peers ==> id in s.peers && s'.peers[id].lastSeen == s.peers[id].lastSeen
                               && s'.peers[id].ttl == s.peers[id].ttl
    ensures id in s.peers && !Deletes(es, id) ==> id in Exec(v, s, es).peers
  {
    if es != [] {
      var n := |es| - 1;
      var before := es[..n];
      NoTouchesBefore(es, id);
      UntouchedKeepsWindow(v, s, t, before, id);
      RunSound(v, s, t, before);
      NextPeerStep(v, Exec(v, s, before), es[n], id);
      if !Deletes(es, id) {
        NoDeletesBefore(es, id);
      }
    }
  }

  /**
   * After a heartbeat or registration that leaves a ttl of `d` seconds, until the peer is touched again: it is
   * found at no time after its `d` seconds, and, unless it is deleted, at every time before.
   */
  lemma FoundExactlyForItsTtl(v: Verifier, s: State, t0: int, touch: Event, es: seq<Event>, id: string, u: int)
    requires Sound(s, t0) && t0 <= touch.now && Timely(touch.now, es) && !Touches(es, id)
    requires touch.op.OpHeartbeat? || touch.op.OpUpsert?
    requires TouchedBy(touch) == Some(id) && Succeeds(v, s, touch)
    requires Next(v, s, touch).peers[id].ttl <= MAX_TTL
    ensures var d := Next(v, s, touch).peers[id].ttl;
            var r := Get(Exec(v, Next(v, s, touch), es), u, id);
            && (u > touch.now + d * 1_000_000_000 ==> r == Err(NotFound))
            && (u <= touch.now + d * 1_000_000_000 && !Deletes(es, id) ==> r.Ok?)
  {
    var s1 := Next(v, s, touch);
    NextSound(v, s, t0, touch);
    NextPeerStep(v, s, touch, id);
    UntouchedKeepsWindow(v, s1, touch.now, es, id);
    var s' := Exec(v, s1, es);
    if id in s'.peers {
      ExpiresExactly(s'.peers[id], u);
    }
  }

  predicate AnswersWith(r: Result<seq<Peer>>, id: string) {
    r.Ok? && exists i :: 0 <= i < |r.value| && r.value[i].id == id
  }

  /** A peer that is not live is in no answer, whatever stale entries the index holds. */
  lemma NotLiveNotAnswered(s: State, u: int, id: string, login: string, signature: string)
    requires FiledById(s.peers) && !Live(s.peers, id, u)
    ensures !AnswersWith(GetByKey(s, u, login, signature), id)
  {
    var ids := Ids(s.logins, PeerKey(Trim(login), Trim(signature)));
    var out := LiveAmong(s.peers, ids, u);
    forall i | 0 <= i < |out|
      ensures out[i].id != id
    {
      assert out[i] in multiset(out);
      LiveAmongCounts(s.peers, ids, u, out[i]);
    }
  }

  /**
   * A peer that has expired, or is not stored, stays hidden from every lookup at every later time, until
   * an event touches it: from Get, from the lookups by key, and from List and the rankings, which draw on
   * the eligible ids.
   */
  lemma HiddenUntilTouched(v: Verifier, s: State, t: int, es: seq<Event>, id: string, u: int)
    requires Sound(s, t) && Timely(t, es) && !Live(s.peers, id, t) && !Touches(es, id)
    requires Clock(t, es) <= u
    ensures var s' := Exec(v, s, es);
            && !Live(s'.peers, id, u) && Get(s', u, id) == Err(NotFound)
            && (forall key :: !HoldsKey(s'.peers, id, key, u))
            && (forall thickOnly :: id !in R.EligibleIds(s'.peers, u, thickOnly))
            && (forall login, signature :: !AnswersWith(GetByKey(s', u, login, signature), id))
  {
    NotLiveLater(v, s, t, es, id, u);
    RunSound(v, s, t, es);
    forall login, signature
      ensures !AnswersWith(GetByKey(Exec(v, s, es), u, login, signature), id)
    {
      NotLiveNotAnswered(Exec(v, s, es), u, id, login, signature);
    }
  }
}
