/**
 * What every run keeps about peers and chunk entries, where each entry of a later list comes from,
 * and why an incremental poll misses nothing.
 */
module ChunkHistory {
  import opened Text
  import opened Keys
  import opened Model
  import opened Scores
  import opened Store

  // ---------------------------------------------------------------- the invariant

  predicate PeerOk(id: string, p: Peer) {
    && p.id == id != ""
    && p.ttl > 0
    && p.quality.valid >= 0 && p.quality.invalid >= 0
    && p.score == INITIAL_SCORE + p.quality.valid - p.quality.invalid
  }

  ghost predicate IsChunkKey(key: string) {
    exists f, i :: key == ChunkKey(f, i) && f != "" && i >= 0
  }

  ghost predicate EntryOk(e: Entry, sec: int) {
    ValidHash(e.hash) && e.ttl > 0 && IsChunkKey(e.key) && e.createdAt <= e.updatedAt <= sec
  }

  /** A confirmed entry has no earlier entry for the same chunk and recipient. */
  predicate OnlyFirstConfirmed(chunks: seq<Entry>) {
    forall i, j :: 0 <= i < j < |chunks| && chunks[j].confirmed ==>
      !Addressed(chunks[i], chunks[j].key, chunks[j].recipient)
  }

  ghost predicate Sound(s: State, now: int) {
    && (forall id :: id in s.peers ==> PeerOk(id, s.peers[id]))
    && (forall i :: 0 <= i < |s.chunks| ==> EntryOk(s.chunks[i], Sec(now)))
    && OnlyFirstConfirmed(s.chunks)
  }

  // ---------------------------------------------------------------- where entries come from

  /** The positions that survive a cleanup. */
  function KeptIndices(chunks: seq<Entry>, sec: int): (r: seq<int>)
    ensures |r| == |Keep(chunks, sec)|
    ensures forall j :: 0 <= j < |r| ==>
      0 <= r[j] < |chunks| && Kept(chunks[r[j]], sec) && Keep(chunks, sec)[j] == chunks[r[j]]
    ensures forall j, k :: 0 <= j < k < |r| ==> r[j] < r[k]
    ensures forall i :: 0 <= i < |chunks| && Kept(chunks[i], sec) ==> i in r
  {
    if chunks == [] then []
    else
      var n := |chunks| - 1;
      var r := KeptIndices(chunks[..n], sec);
      assert forall i :: 0 <= i < n ==> chunks[i] == chunks[..n][i];
      assert Keep(chunks, sec) == Keep(chunks[..n], sec) + (if Kept(chunks[n], sec) then [chunks[n]] else []);
      if Kept(chunks[n], sec) then r + [n] else r
  }

  /** For each entry after an event, its position before the event, or -1 when it is new. */
  function Origins(v: Verifier, s: State, ev: Event): seq<int> {
    if ev.op == OpClean then KeptIndices(s.chunks, Sec(ev.now))
    else seq(|Next(v, s, ev).chunks|, j => if j < |s.chunks| then j else -1)
  }

  /** `e'` is a later version of `e`: either the same, or restamped at `from` or later. */
  predicate Evolves(e: Entry, e': Entry, from: int) {
    && e'.key == e.key && e'.hash == e.hash && e'.sender == e.sender && e'.recipient == e.recipient
    && e'.peerId == e.peerId && e'.persist == e.persist && e'.createdAt == e.createdAt && e'.ttl == e.ttl
    && (e.confirmed ==> e'.confirmed) && (e.readed ==> e'.readed)
    && e.updatedAt <= e'.updatedAt
    && (e' == e || e'.updatedAt >= from)
  }

  /**
   * `origin` explains the list `c'` in terms of the older list `c`: surviving entries keep their
   * order and evolve, new ones come behind them with fresh stamps, and only expired entries are gone.
   */
  predicate Tracks(c: seq<Entry>, c': seq<Entry>, origin: seq<int>, from: int, upTo: int) {
    && |origin| == |c'|
    && (forall j :: 0 <= j < |origin| ==> -1 <= origin[j] < |c|)
    && (forall j :: 0 <= j < |origin| && origin[j] >= 0 ==> Evolves(c[origin[j]], c'[j], from))
    && (forall j :: 0 <= j < |origin| && origin[j] < 0 ==> c'[j].createdAt >= from && c'[j].updatedAt >= from)
    && (forall j, k :: 0 <= j < k < |origin| && origin[k] >= 0 ==> 0 <= origin[j] < origin[k])
    && (forall i :: 0 <= i < |c| && Kept(c[i], upTo) ==> i in origin)
  }

  lemma SecMonotone(a: int, b: int)
    requires a <= b
    ensures Sec(a) <= Sec(b)
  {
  }

  lemma SetChunkSound(v: Verifier, s: State, now: int, file: string, index: int, req: ChunkRequest, pick: string)
    requires Sound(s, now)
    ensures Sound(SetChunk(v, s, now, file, index, req, pick).0, now)
  {
    var c := SetChunk(v, s, now, file, index, req, pick).0.chunks;
    if c != s.chunks {
      var n := |s.chunks|;
      assert c[n].key == ChunkKey(Trim(file), index);
      assert IsChunkKey(c[n].key);
      assert forall i :: 0 <= i < n ==> c[i] == s.chunks[i];
    }
  }

  lemma CleanSound(s: State, now: int)
    requires Sound(s, now)
    ensures Sound(Clean(s, now).0, now)
  {
    var r := KeptIndices(s.chunks, Sec(now));
  }

  lemma SoundLater(s: State, t: int, now: int)
    requires Sound(s, t) && t <= now
    ensures Sound(s, now)
  {
    SecMonotone(t, now);
  }

  lemma ConfirmSound(v: Verifier, s: State, now: int, req: ConfirmRequest, pick: string, senderPick: string)
    requires Sound(s, now)
    ensures Sound(Confirm(v, s, now, req, pick, senderPick).0, now)
  {
    var i := FirstFor(s.chunks, ChunkKey(Trim(req.fileId), req.index), Trim(req.recipient));
    var s' := Confirm(v, s, now, req, pick, senderPick).0;
    if s' != s {
      assert forall j :: 0 <= j < |s.chunks| && j != i ==> s'.chunks[j] == s.chunks[j];
    }
  }

  lemma ReadSound(v: Verifier, s: State, now: int, req: ReadRequest, pick: string)
    requires Sound(s, now)
    ensures Sound(Read(v, s, now, req, pick).0, now)
  {
    var s' := Read(v, s, now, req, pick).0;
    if s' != s {
      assert forall j :: 0 <= j < |s.chunks| ==>
        s'.chunks[j] == MarkRead(s.chunks[j], Trim(req.recipient), Trim(req.fileId), Sec(now));
    }
  }

  lemma ReportSound(v: Verifier, s: State, now: int, source: string, req: ReportRequest)
    requires Sound(s, now)
    ensures Sound(Report(v, s, source, req).0, now)
  {
  }

  lemma UpsertSound(s: State, now: int, req: RegisterRequest)
    requires Sound(s, now)
    ensures Sound(Upsert(s, now, req).0, now)
  {
  }

  lemma HeartbeatSound(s: State, now: int, id: string, ttl: int)
    requires Sound(s, now)
    ensures Sound(Heartbeat(s, now, id, ttl).0, now)
  {
  }

  lemma RefreshDeleteSound(s: State, now: int, req: RefreshRequest, id: string)
    requires Sound(s, now)
    ensures Sound(Refresh(s, now, req).0, now) && Sound(Delete(s, id).0, now)
  {
  }

  lemma SignalsSound(s: State, now: int, id: string, sig: Signal)
    requires Sound(s, now)
    ensures Sound(SetSignal(s, id, sig).0, now) && Sound(PollSignals(s, id).0, now)
  {
  }

  lemma PeerOpSound(v: Verifier, s: State, ev: Event)
    requires Sound(s, ev.now)
    requires ev.op.OpUpsert? || ev.op.OpRefresh? || ev.op.OpDelete? || ev.op.OpHeartbeat? || ev.op.OpReport?
    ensures Sound(Next(v, s, ev), ev.now)
  {
    match ev.op
    case OpUpsert(req) => UpsertSound(s, ev.now, req);
    case OpRefresh(req) => RefreshDeleteSound(s, ev.now, req, "");
    case OpDelete(id) => RefreshDeleteSound(s, ev.now, RefreshRequest("", "", ""), id);
    case OpHeartbeat(id, ttl) => HeartbeatSound(s, ev.now, id, ttl);
    case OpReport(source, req) => ReportSound(v, s, ev.now, source, req);
  }

  /** Every operation keeps the invariant, whatever its map enumerations find. */
  lemma NextSound(v: Verifier, s: State, t: int, ev: Event)
    requires Sound(s, t) && t <= ev.now
    ensures Sound(Next(v, s, ev), ev.now)
  {
    SoundLater(s, t, ev.now);
    match ev.op
    case OpSetChunk(file, index, req, pick) => SetChunkSound(v, s, ev.now, file, index, req, pick);
    case OpConfirm(req, pick, senderPick) => ConfirmSound(v, s, ev.now, req, pick, senderPick);
    case OpRead(req, pick) => ReadSound(v, s, ev.now, req, pick);
    case OpSetSignal(to, sig) => SignalsSound(s, ev.now, to, sig);
    case OpPoll(id) => SignalsSound(s, ev.now, id, Signal("", "", ""));
    case OpClean => CleanSound(s, ev.now);
    case _ => PeerOpSound(v, s, ev);
  }

  lemma {:induction false} RunSound(v: Verifier, s: State, t: int, es: seq<Event>)
    requires Sound(s, t) && Timely(t, es)
    ensures Sound(Exec(v, s, es), Clock(t, es))
  {
    if es != [] {
      var before := es[..|es| - 1];
      RunSound(v, s, t, before);
      NextSound(v, Exec(v, s, before), Clock(t, before), es[|es| - 1]);
    }
  }

  predicate TracksNext(v: Verifier, s: State, ev: Event) {
    Tracks(s.chunks, Next(v, s, ev).chunks, Origins(v, s, ev), Sec(ev.now), Sec(ev.now))
  }

  /** The tracking of an operation that keeps every entry in place, and may append. */
  lemma InPlaceTracks(v: Verifier, s: State, ev: Event)
    requires ev.op != OpClean
    requires var c, c' := s.chunks, Next(v, s, ev).chunks;
             && |c| <= |c'|
             && (forall j :: 0 <= j < |c| ==> Evolves(c[j], c'[j], Sec(ev.now)))
             && (forall j :: |c| <= j < |c'| ==> c'[j].createdAt == c'[j].updatedAt == Sec(ev.now))
    ensures TracksNext(v, s, ev)
  {
    var o := Origins(v, s, ev);
    assert forall j :: 0 <= j < |s.chunks| ==> o[j] == j;
  }

  predicate EvolvesInPlace(c: seq<Entry>, c': seq<Entry>, from: int) {
    |c'| == |c| && forall j :: 0 <= j < |c| ==> Evolves(c[j], c'[j], from)
  }

  lemma ConfirmEvolves(v: Verifier, s: State, now: int, req: ConfirmRequest, pick: string, senderPick: string)
    requires forall j :: 0 <= j < |s.chunks| ==> s.chunks[j].updatedAt <= Sec(now)
    ensures EvolvesInPlace(s.chunks, Confirm(v, s, now, req, pick, senderPick).0.chunks, Sec(now))
  {
  }

  lemma ReadEvolves(v: Verifier, s: State, now: int, req: ReadRequest, pick: string)
    requires forall j :: 0 <= j < |s.chunks| ==> s.chunks[j].updatedAt <= Sec(now)
    ensures EvolvesInPlace(s.chunks, Read(v, s, now, req, pick).0.chunks, Sec(now))
  {
  }

  lemma SetChunkTracks(v: Verifier, s: State, ev: Event)
    requires Sound(s, ev.now) && ev.op.OpSetChunk?
    ensures TracksNext(v, s, ev)
  {
    InPlaceTracks(v, s, ev);
  }

  lemma FilterTracks(c: seq<Entry>, c': seq<Entry>, origin: seq<int>, sec: int)
    requires |origin| == |c'| && forall j :: 0 <= j < |origin| ==> 0 <= origin[j] < |c| && c'[j] == c[origin[j]]
    requires forall j, k :: 0 <= j < k < |origin| ==> origin[j] < origin[k]
    requires forall i :: 0 <= i < |c| && Kept(c[i], sec) ==> i in origin
    ensures Tracks(c, c', origin, sec, sec)
  {
  }

  lemma CleanTracks(v: Verifier, s: State, ev: Event)
    requires ev.op.OpClean?
    ensures TracksNext(v, s, ev)
  {
    FilterTracks(s.chunks, Keep(s.chunks, Sec(ev.now)), KeptIndices(s.chunks, Sec(ev.now)), Sec(ev.now));
  }

  /** The operations outside the chunk store. */
  lemma ChunksUntouched(v: Verifier, s: State, ev: Event)
    requires !ev.op.OpSetChunk? && !ev.op.OpConfirm? && !ev.op.OpRead? && !ev.op.OpClean?
    ensures Next(v, s, ev).chunks == s.chunks
  {
  }

  lemma NextTracks(v: Verifier, s: State, t: int, ev: Event)
    requires Sound(s, t) && t <= ev.now
    ensures TracksNext(v, s, ev)
  {
    SoundLater(s, t, ev.now);
    if ev.op.OpSetChunk? {
      SetChunkTracks(v, s, ev);
    } else if ev.op.OpConfirm? {
      ConfirmEvolves(v, s, ev.now, ev.op.confirm, ev.op.pick, ev.op.senderPick);
      InPlaceTracks(v, s, ev);
    } else if ev.op.OpRead? {
      ReadEvolves(v, s, ev.now, ev.op.read, ev.op.pick);
      InPlaceTracks(v, s, ev);
    } else if ev.op.OpClean? {
      CleanTracks(v, s, ev);
    } else {
      ChunksUntouched(v, s, ev);
      InPlaceTracks(v, s, ev);
    }
  }

  // ---------------------------------------------------------------- over whole runs

  function ComposeOrigins(first: seq<int>, second: seq<int>): seq<int> {
    seq(|second|, j requires 0 <= j < |second| => if 0 <= second[j] < |first| then first[second[j]] else -1)
  }

  lemma EvolvesCompose(a: Entry, b: Entry, c: Entry, f1: int, f2: int)
    requires Evolves(a, b, f1) && Evolves(b, c, f2) && f1 <= f2
    ensures Evolves(a, c, f1)
  {
  }

  /** A surviving entry of the first list is found in the last. */
  lemma StillTracked(a: seq<Entry>, b: seq<Entry>, c: seq<Entry>, o1: seq<int>, o2: seq<int>, f1: int, u1: int,
                     f2: int, u2: int, i: int)
    requires Tracks(a, b, o1, f1, u1) && Tracks(b, c, o2, f2, u2) && u1 <= u2
    requires 0 <= i < |a| && Kept(a[i], u2)
    ensures i in ComposeOrigins(o1, o2)
  {
    assert Kept(a[i], u1);
    var k :| 0 <= k < |o1| && o1[k] == i;
    assert Evolves(a[i], b[k], f1);
    assert Kept(b[k], u2);
    var j :| 0 <= j < |o2| && o2[j] == k;
    assert ComposeOrigins(o1, o2)[j] == i;
  }

  lemma TracksCompose(a: seq<Entry>, b: seq<Entry>, c: seq<Entry>, o1: seq<int>, o2: seq<int>, f1: int, u1: int,
                      f2: int, u2: int)
    requires Tracks(a, b, o1, f1, u1) && Tracks(b, c, o2, f2, u2)
    requires f1 <= f2 && u1 <= u2
    ensures Tracks(a, c, ComposeOrigins(o1, o2), f1, u2)
  {
    var o := ComposeOrigins(o1, o2);
    forall j | 0 <= j < |o| && o[j] >= 0
      ensures Evolves(a[o[j]], c[j], f1)
    {
      EvolvesCompose(a[o1[o2[j]]], b[o2[j]], c[j], f1, f2);
    }
    forall i | 0 <= i < |a| && Kept(a[i], u2)
      ensures i in o
    {
      StillTracked(a, b, c, o1, o2, f1, u1, f2, u2, i);
    }
    forall j, k | 0 <= j < k < |o| && o[k] >= 0
      ensures 0 <= o[j] < o[k]
    {
      assert 0 <= o2[j] < o2[k];
    }
    forall j | 0 <= j < |o| && o[j] < 0
      ensures c[j].createdAt >= f1 && c[j].updatedAt >= f1
    {
      if o2[j] >= 0 {
        assert Evolves(b[o2[j]], c[j], f2);
      }
    }
  }

  function RunOrigins(v: Verifier, s: State, es: seq<Event>): seq<int> {
    if es == [] then seq(|s.chunks|, j => j)
    else
      var before := es[..|es| - 1];
      ComposeOrigins(RunOrigins(v, s, before), Origins(v, Exec(v, s, before), es[|es| - 1]))
  }

  lemma ClockFromStart(t: int, es: seq<Event>)
    requires Timely(t, es)
    ensures t <= Clock(t, es)
  {
  }

  /**
   * Over any run: an entry is created once and keeps its key, hash, sender, recipient, holder,
   * persistence, creation time and ttl; its marks are never taken back; it is restamped whenever it
   * changes; it keeps its place in the order; and it disappears only after it has expired.
   */
  lemma {:induction false} EntriesEvolve(v: Verifier, s: State, t: int, es: seq<Event>)
    requires Sound(s, t) && Timely(t, es)
    ensures Tracks(s.chunks, Exec(v, s, es).chunks, RunOrigins(v, s, es), Sec(t), Sec(Clock(t, es)))
  {
    if es == [] {
      var o := RunOrigins(v, s, es);
      assert forall j :: 0 <= j < |s.chunks| ==> o[j] == j;
    } else {
      var n := |es| - 1;
      var before, last := es[..n], es[n];
      var mid := Exec(v, s, before);
      EntriesEvolve(v, s, t, before);
      RunSound(v, s, t, before);
      NextTracks(v, mid, Clock(t, before), last);
      ClockFromStart(t, before);
      SecMonotone(t, last.now);
      SecMonotone(Clock(t, before), last.now);
      TracksCompose(s.chunks, mid.chunks, Next(v, mid, last).chunks, RunOrigins(v, s, before), Origins(v, mid, last),
                    Sec(t), Sec(Clock(t, before)), Sec(last.now), Sec(last.now));
    }
  }

  // ---------------------------------------------------------------- polling

  predicate CollectedAt<A, B(==)>(xs: seq<A>, p: A -> bool, f: A -> B, i: int, y: B) {
    0 <= i < |xs| && p(xs[i]) && f(xs[i]) == y
  }

  lemma {:induction false} CollectIs<A, B>(xs: seq<A>, p: A -> bool, f: A -> B, y: B)
    ensures y in Collect(xs, p, f) <==> exists i :: CollectedAt(xs, p, f, i, y)
  {
    if xs != [] {
      var n := |xs| - 1;
      CollectIs(xs[..n], p, f, y);
      assert CollectedAt(xs, p, f, n, y) <==> p(xs[n]) && f(xs[n]) == y;
      assert forall i :: 0 <= i < n ==> CollectedAt(xs[..n], p, f, i, y) == CollectedAt(xs, p, f, i, y);
    }
  }

  predicate ListedFor(chunks: seq<Entry>, recipient: string, from: int, i: int, r: Record) {
    0 <= i < |chunks| && chunks[i].recipient == recipient && chunks[i].updatedAt >= from && RecordOf(chunks[i]) == r
  }

  lemma RecordsForAre(chunks: seq<Entry>, recipient: string, from: int, r: Record)
    ensures r in RecordsFor(chunks, recipient, from) <==> exists i :: ListedFor(chunks, recipient, from, i, r)
  {
    var p := (e: Entry) => e.recipient == recipient && e.updatedAt >= from;
    CollectIs(chunks, p, RecordOf, r);
    assert forall i :: CollectedAt(chunks, p, RecordOf, i, r) == ListedFor(chunks, recipient, from, i, r);
  }

  /**
   * A client that knows the list of a recipient at time `t` and polls later with dateFrom = t: each
   * record of the later list is one it knew, unchanged, or one the poll returns. (`everything` is any
   * dateFrom that cuts nothing off, such as the handler's default 0.)
   */
  lemma PollMissesNothing(v: Verifier, s: State, t: int, es: seq<Event>, recipient: string, everything: int)
    requires Sound(s, t) && Timely(t, es)
    requires everything <= Sec(t) && forall i :: 0 <= i < |s.chunks| ==> everything <= s.chunks[i].updatedAt
    ensures var s' := Exec(v, s, es);
            forall r :: r in RecordsFor(s'.chunks, recipient, everything) ==>
              r in RecordsFor(s.chunks, recipient, everything) || r in RecordsFor(s'.chunks, recipient, Sec(t))
  {
    var s' := Exec(v, s, es);
    EntriesEvolve(v, s, t, es);
    var o := RunOrigins(v, s, es);
    forall r | r in RecordsFor(s'.chunks, recipient, everything)
      ensures r in RecordsFor(s.chunks, recipient, everything) || r in RecordsFor(s'.chunks, recipient, Sec(t))
    {
      RecordsForAre(s'.chunks, recipient, everything, r);
      RecordsForAre(s'.chunks, recipient, Sec(t), r);
      RecordsForAre(s.chunks, recipient, everything, r);
      var j :| ListedFor(s'.chunks, recipient, everything, j, r);
      if s'.chunks[j].updatedAt < Sec(t) {
        assert o[j] >= 0 && s'.chunks[j] == s.chunks[o[j]];
        assert ListedFor(s.chunks, recipient, everything, o[j], r);
      } else {
        assert ListedFor(s'.chunks, recipient, Sec(t), j, r);
      }
    }
  }

  /** One stretch of a run, ended by a poll at time `at`. */
  datatype Round = Round(es: seq<Event>, at: int)

  function StateAfter(v: Verifier, s: State, rounds: seq<Round>): State {
    if rounds == [] then s
    else Exec(v, StateAfter(v, s, rounds[..|rounds| - 1]), rounds[|rounds| - 1].es)
  }

  function PolledAt(t: int, rounds: seq<Round>): int {
    if rounds == [] then t else rounds[|rounds| - 1].at
  }

  predicate TimelyRounds(t: int, rounds: seq<Round>) {
    rounds == [] ||
    var before, last := rounds[..|rounds| - 1], rounds[|rounds| - 1];
    TimelyRounds(t, before) && Timely(PolledAt(t, before), last.es) && Clock(PolledAt(t, before), last.es) <= last.at
  }

  /** What a client has collected that reads the list once and then polls from its previous poll time. */
  function Collected(v: Verifier, s: State, t: int, rounds: seq<Round>, recipient: string, everything: int)
    : seq<Record>
  {
    if rounds == [] then RecordsFor(s.chunks, recipient, everything)
    else
      var before := rounds[..|rounds| - 1];
      Collected(v, s, t, before, recipient, everything)
      + RecordsFor(StateAfter(v, s, rounds).chunks, recipient, Sec(PolledAt(t, before)))
  }

  predicate NotBefore(chunks: seq<Entry>, everything: int) {
    forall i :: 0 <= i < |chunks| ==> everything <= chunks[i].updatedAt
  }

  /** However often it polls, the client has the whole current list. */
  lemma {:induction false} PollingKeepsUp(v: Verifier, s: State, t: int, rounds: seq<Round>, recipient: string,
                                          everything: int)
    requires Sound(s, t) && TimelyRounds(t, rounds)
    requires everything <= Sec(t) && NotBefore(s.chunks, everything)
    ensures var s' := StateAfter(v, s, rounds);
            && Sound(s', PolledAt(t, rounds))
            && NotBefore(s'.chunks, everything) && everything <= Sec(PolledAt(t, rounds))
            && forall r :: r in RecordsFor(s'.chunks, recipient, everything) ==>
                 r in Collected(v, s, t, rounds, recipient, everything)
  {
    if rounds != [] {
      var before, last := rounds[..|rounds| - 1], rounds[|rounds| - 1];
      PollingKeepsUp(v, s, t, before, recipient, everything);
      var mid, at := StateAfter(v, s, before), PolledAt(t, before);
      PollMissesNothing(v, mid, at, last.es, recipient, everything);
      RunSound(v, mid, at, last.es);
      SoundLater(Exec(v, mid, last.es), Clock(at, last.es), last.at);
      ClockFromStart(at, last.es);
      SecMonotone(at, last.at);
      NotBeforeLater(v, mid, at, last.es, everything);
    }
  }

  lemma NotBeforeLater(v: Verifier, s: State, t: int, es: seq<Event>, everything: int)
    requires Sound(s, t) && Timely(t, es) && everything <= Sec(t) && NotBefore(s.chunks, everything)
    ensures NotBefore(Exec(v, s, es).chunks, everything)
  {
    EntriesEvolve(v, s, t, es);
    var o, c' := RunOrigins(v, s, es), Exec(v, s, es).chunks;
    forall j | 0 <= j < |c'|
      ensures everything <= c'[j].updatedAt
    {
      assert o[j] >= 0 ==> Evolves(s.chunks[o[j]], c'[j], Sec(t));
    }
  }
}
