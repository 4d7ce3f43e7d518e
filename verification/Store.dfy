/**
 * The in-memory store as a state machine: its state, one function per operation, and runs.
 *
 * Go enumerates a map in an arbitrary order, so `peerByKey` may find any of the live peers that
 * share a key. An operation that calls it carries the id that the enumeration found (`pick`).
 */
module Store {
  import opened Text
  import opened Keys
  import opened Model
  import opened Payloads
  import opened Scores

  const DEFAULT_TTL := 300
  const DEFAULT_CHUNK_TTL := 86400
  const SECOND := 1_000_000_000

  datatype State = State(
    peers: map<string, Peer>,
    logins: map<string, seq<string>>,
    chunks: seq<Entry>,
    signals: map<string, seq<Signal>>)

  const EMPTY := State(map[], map[], [], map[])

  /** Unix seconds of a time in nanoseconds. */
  function Sec(now: int): int {
    now / SECOND
  }

  // ---------------------------------------------------------------- looking peers up

  /** A Go map yields the nil slice for a missing key. */
  function Ids(logins: map<string, seq<string>>, key: string): seq<string> {
    if key in logins then logins[key] else []
  }

  function Pending(signals: map<string, seq<Signal>>, id: string): seq<Signal> {
    if id in signals then signals[id] else []
  }

  function RemoveFirst(ids: seq<string>, id: string): seq<string> {
    if ids == [] then []
    else if ids[0] == id then ids[1..]
    else [ids[0]] + RemoveFirst(ids[1..], id)
  }

  predicate IsExpired(p: Peer, now: int) {
    var ttl := if p.ttl <= 0 then DEFAULT_TTL else p.ttl;
    Saturate64(now - p.lastSeen) > Wrap64(ttl * SECOND)
  }

  predicate Live(peers: map<string, Peer>, id: string, now: int) {
    id in peers && !IsExpired(peers[id], now)
  }

  predicate HoldsKey(peers: map<string, Peer>, id: string, key: string, now: int) {
    Live(peers, id, now) && peers[id].Key() == key
  }

  ghost predicate SomeoneHolds(peers: map<string, Peer>, key: string, now: int) {
    exists id :: HoldsKey(peers, id, key, now)
  }

  /** What `peerByKey` may have found: a live holder of the key, whenever there is one. */
  ghost predicate LegalPick(peers: map<string, Peer>, key: string, now: int, pick: string) {
    SomeoneHolds(peers, key, now) ==> HoldsKey(peers, pick, key, now)
  }

  function PeerByKey(peers: map<string, Peer>, key: string, now: int, pick: string): Option<Peer> {
    if HoldsKey(peers, pick, key, now) then Some(peers[pick]) else None
  }

  /** The unexpired peers behind a list of ids, in the order of the list. */
  function LiveAmong(peers: map<string, Peer>, ids: seq<string>, now: int): seq<Peer> {
    if ids == [] then []
    else
      var rest := LiveAmong(peers, ids[..|ids| - 1], now);
      var id := ids[|ids| - 1];
      if Live(peers, id, now) then rest + [peers[id]] else rest
  }

  function Get(s: State, now: int, id: string): Result<Peer> {
    if Live(s.peers, id, now) then Ok(s.peers[id]) else Err(NotFound)
  }

  function GetByKey(s: State, now: int, login: string, signature: string): Result<seq<Peer>> {
    var l, g := Trim(login), Trim(signature);
    if l == "" || g == "" then Err(InvalidKey)
    else
      var out := LiveAmong(s.peers, Ids(s.logins, PeerKey(l, g)), now);
      if out == [] then Err(NotFound) else Ok(out)
  }

  // ---------------------------------------------------------------- peers

  function EffectiveTtl(ttl: int): int {
    if ttl <= 0 then DEFAULT_TTL else ttl
  }

  function NewPeer(now: int, req: RegisterRequest): Peer {
    Peer(Trim(req.id), Trim(req.login), Trim(req.encryptionKey), Trim(req.signatureKey), now, EffectiveTtl(req.ttl),
         INITIAL_SCORE, Quality(0, 0), req.flag, req.fake.Some? && req.fake.value)
  }

  /** A repeated registration keeps the keys, the score and the fake mark of the stored peer. */
  function ReRegistered(now: int, req: RegisterRequest, existing: Peer): Peer {
    existing.(
      id := Trim(req.id),
      login := Trim(req.login),
      lastSeen := now,
      ttl := EffectiveTtl(req.ttl),
      flag := if req.flag != "" then req.flag else existing.flag)
  }

  function Upsert(s: State, now: int, req: RegisterRequest): (State, Result<()>) {
    var id := Trim(req.id);
    if id == "" then (s, Err(InvalidPeer))
    else if id in s.peers then
      var existing := s.peers[id];
      var peer := ReRegistered(now, req, existing);
      var logins := s.logins[existing.Key() := RemoveFirst(Ids(s.logins, existing.Key()), id)];
      (s.(logins := logins[peer.Key() := Ids(logins, peer.Key()) + [id]], peers := s.peers[id := peer]), Ok(()))
    else
      var peer := NewPeer(now, req);
      (s.(logins := s.logins[peer.Key() := Ids(s.logins, peer.Key()) + [id]], peers := s.peers[id := peer]), Ok(()))
  }

  /** The key is taken from the request as it is: neither trimmed nor compared with the stored peer. */
  function Refresh(s: State, now: int, req: RefreshRequest): (State, Result<()>) {
    var id := Trim(req.id);
    if id == "" then (s, Err(InvalidPeer))
    else if id in s.peers then
      var key := PeerKey(req.login, req.signatureKey);
      (s.(logins := s.logins[key := Ids(s.logins, key) + [id]], peers := s.peers[id := s.peers[id].(lastSeen := now)]),
       Ok(()))
    else (s, Ok(()))
  }

  function Delete(s: State, id: string): (State, Result<()>) {
    if id !in s.peers then (s, Err(NotFound))
    else
      var key := s.peers[id].Key();
      (s.(logins := s.logins[key := RemoveFirst(Ids(s.logins, key), id)], peers := s.peers - {id}), Ok(()))
  }

  function Heartbeat(s: State, now: int, id: string, ttl: int): (State, Result<Peer>) {
    if id !in s.peers then (s, Err(NotFound))
    else
      var p := s.peers[id].(ttl := if ttl > 0 then ttl else s.peers[id].ttl, lastSeen := now);
      (s.(peers := s.peers[id := p]), Ok(p))
  }

  // ---------------------------------------------------------------- chunks

  function CheckSignature(v: Verifier, p: Peer, signature: string, message: string): Option<StoreError> {
    if p.signatureKey == "" then Some(NoSigningKey)
    else if !v(p.signatureKey, signature, message) then Some(InvalidSignature)
    else None
  }

  /** The hash of the first entry with the key; the empty string stands for "none". */
  function FirstHash(chunks: seq<Entry>, key: string): string {
    if chunks == [] then ""
    else if chunks[0].key == key then chunks[0].hash
    else FirstHash(chunks[1..], key)
  }

  predicate Addressed(e: Entry, key: string, recipient: string) {
    e.key == key && e.recipient == recipient
  }

  /** The index of the first entry of a chunk for a recipient, or -1. */
  function FirstFor(chunks: seq<Entry>, key: string, recipient: string): (i: int)
    ensures -1 <= i < |chunks|
    ensures i >= 0 ==> Addressed(chunks[i], key, recipient)
    ensures forall j :: 0 <= j < (if i < 0 then |chunks| else i) ==> !Addressed(chunks[j], key, recipient)
  {
    if chunks == [] then -1
    else if Addressed(chunks[0], key, recipient) then 0
    else
      var i := FirstFor(chunks[1..], key, recipient);
      if i < 0 then -1 else i + 1
  }

  /** A report or confirmation credits or debits one point. */
  function Credited(p: Peer, valid: bool): Peer {
    if valid then p.(score := p.score + POINTS_VALID, quality := p.quality.(valid := p.quality.valid + 1))
    else p.(score := p.score + POINTS_INVALID, quality := p.quality.(invalid := p.quality.invalid + 1))
  }

  function Delta(valid: bool): int {
    if valid then POINTS_VALID else POINTS_INVALID
  }

  function SetChunk(v: Verifier, s: State, now: int, file: string, index: int, req: ChunkRequest, pick: string)
    : (State, Result<()>)
  {
    var fileId, sender, recipient, peerId := Trim(file), Trim(req.sender), Trim(req.recipient), Trim(req.peerId);
    var hash := NormalizeHash(req.hash);
    if fileId == "" || sender == "" || recipient == "" || peerId == "" || !ValidHash(hash) || index < 0
       || Trim(req.signature) == "" then (s, Err(InvalidChunk))
    else
      match PeerByKey(s.peers, sender, now, pick)
      case None => (s, Err(NotFound))
      case Some(p) =>
        match CheckSignature(v, p, req.signature, ExpectedPayload(fileId, index, hash))
        case Some(e) => (s, Err(e))
        case None =>
          var ttl := if req.ttl <= 0 then DEFAULT_CHUNK_TTL else req.ttl;
          var entry := Entry(ChunkKey(fileId, index), hash, sender, recipient, peerId, req.persist, false, false,
                             Sec(now), Sec(now), ttl);
          (s.(chunks := s.chunks + [entry]), Ok(()))
  }

  function Report(v: Verifier, s: State, sourcePeer: string, req: ReportRequest): (State, Result<Verdict>) {
    var source, reporter, fileId := Trim(sourcePeer), Trim(req.reporter), Trim(req.fileId);
    var hash := NormalizeHash(req.hash);
    if source == "" || reporter == "" || fileId == "" || !ValidHash(hash) || req.index < 0
       || Trim(req.signature) == "" then (s, Err(InvalidChunk))
    else if reporter !in s.peers then (s, Err(NotFound))
    else
      match CheckSignature(v, s.peers[reporter], req.signature, ReportedPayload(fileId, req.index, hash, source))
      case Some(e) => (s, Err(e))
      case None =>
        var expected := FirstHash(s.chunks, ChunkKey(fileId, req.index));
        if expected == "" then (s, Err(ChunkNotFound))
        else if source !in s.peers then (s, Err(NotFound))
        else
          var p := Credited(s.peers[source], hash == expected);
          (s.(peers := s.peers[source := p]), Ok(Verdict(hash == expected, expected, hash, Delta(hash == expected), p)))
  }

  /** The part of a confirmation that follows the signature check, for the entry at `i`. */
  function ConfirmEntry(s: State, now: int, i: int, hash: string, senderPick: string): (State, Result<Verdict>)
    requires 0 <= i < |s.chunks|
  {
    match PeerByKey(s.peers, s.chunks[i].sender, now, senderPick)
    case None => (s, Err(NotFound))
    case Some(q) =>
      var valid := hash == s.chunks[i].hash;
      var p := Credited(q, valid);
      var chunks := if valid then s.chunks[i := s.chunks[i].(confirmed := true, updatedAt := Sec(now))] else s.chunks;
      (s.(chunks := chunks, peers := s.peers[p.id := p]),
       Ok(Verdict(valid, s.chunks[i].hash, hash, Delta(valid), p)))
  }

  function Confirm(v: Verifier, s: State, now: int, req: ConfirmRequest, pick: string, senderPick: string)
    : (State, Result<Verdict>)
  {
    var recipient, fileId := Trim(req.recipient), Trim(req.fileId);
    var hash := NormalizeHash(req.hash);
    if recipient == "" || fileId == "" || !ValidHash(hash) || req.index < 0 || Trim(req.signature) == ""
    then (s, Err(InvalidChunk))
    else
      match PeerByKey(s.peers, recipient, now, pick)
      case None => (s, Err(NotFound))
      case Some(r) =>
        match CheckSignature(v, r, req.signature, ConfirmedPayload(fileId, req.index, hash))
        case Some(e) => (s, Err(e))
        case None =>
          var i := FirstFor(s.chunks, ChunkKey(fileId, req.index), recipient);
          if i < 0 then (s, Err(ChunkNotFound))
          else ConfirmEntry(s, now, i, hash, senderPick)
  }

  predicate ReadTarget(e: Entry, recipient: string, fileId: string) {
    e.recipient == recipient && KeyFileId(e.key) == fileId
  }

  function MarkRead(e: Entry, recipient: string, fileId: string, sec: int): Entry {
    if ReadTarget(e, recipient, fileId) then e.(readed := true, updatedAt := sec) else e
  }

  predicate AnyReadTarget(chunks: seq<Entry>, recipient: string, fileId: string) {
    exists i :: 0 <= i < |chunks| && ReadTarget(chunks[i], recipient, fileId)
  }

  function MarkAllRead(chunks: seq<Entry>, recipient: string, fileId: string, sec: int): (r: seq<Entry>)
    ensures |r| == |chunks|
  {
    seq(|chunks|, i requires 0 <= i < |chunks| => MarkRead(chunks[i], recipient, fileId, sec))
  }

  function Read(v: Verifier, s: State, now: int, req: ReadRequest, pick: string): (State, Result<()>) {
    var recipient, fileId := Trim(req.recipient), Trim(req.fileId);
    if fileId == "" || Trim(req.signature) == "" then (s, Err(InvalidChunk))
    else
      match PeerByKey(s.peers, recipient, now, pick)
      case None => (s, Err(NotFound))
      case Some(r) =>
        match CheckSignature(v, r, req.signature, ReadPayload(fileId))
        case Some(e) => (s, Err(e))
        case None =>
          if AnyReadTarget(s.chunks, recipient, fileId)
          then (s.(chunks := MarkAllRead(s.chunks, recipient, fileId, Sec(now))), Ok(()))
          else (s, Err(ChunkNotFound))
  }

  /** `CreatedAt+int64(TTL)` is an int64 addition. */
  predicate Kept(e: Entry, sec: int) {
    e.persist || Wrap64(e.createdAt + e.ttl) >= sec
  }

  function Keep(chunks: seq<Entry>, sec: int): (r: seq<Entry>)
    ensures |r| <= |chunks|
  {
    if chunks == [] then []
    else
      var last := chunks[|chunks| - 1];
      Keep(chunks[..|chunks| - 1], sec) + (if Kept(last, sec) then [last] else [])
  }

  function Clean(s: State, now: int): (State, int) {
    var kept := Keep(s.chunks, Sec(now));
    (s.(chunks := kept), |s.chunks| - |kept|)
  }

  function RecordOf(e: Entry): Record {
    var (fileId, index) := ParseChunkKey(e.key);
    Record(fileId, index, e.sender, e.recipient, e.hash, e.peerId, e.persist, e.confirmed, e.readed, e.createdAt,
           e.updatedAt, e.ttl)
  }

  /** The results of `f` on the elements that satisfy `p`, in order. */
  function Collect<A, B>(xs: seq<A>, p: A -> bool, f: A -> B): seq<B> {
    if xs == [] then []
    else
      var last := xs[|xs| - 1];
      Collect(xs[..|xs| - 1], p, f) + (if p(last) then [f(last)] else [])
  }

  function RecordsFor(chunks: seq<Entry>, recipient: string, dateFrom: int): seq<Record> {
    Collect(chunks, (e: Entry) => e.recipient == recipient && e.updatedAt >= dateFrom, RecordOf)
  }

  function RecordsOf(chunks: seq<Entry>, fileId: string): seq<Record> {
    Collect(chunks, (e: Entry) => KeyFileId(e.key) == fileId, RecordOf)
  }

  function GetChunksByRecipient(s: State, recipient: string, dateFrom: int): Result<seq<Record>> {
    if Trim(recipient) == "" then Err(InvalidChunk) else Ok(RecordsFor(s.chunks, Trim(recipient), dateFrom))
  }

  function GetChunksByFileId(s: State, fileId: string): Result<seq<Record>> {
    if Trim(fileId) == "" then Err(InvalidChunk) else Ok(RecordsOf(s.chunks, Trim(fileId)))
  }

  // ---------------------------------------------------------------- mailboxes

  function SetSignal(s: State, to: string, sig: Signal): (State, Result<()>) {
    var id := Trim(to);
    if id == "" || sig.from == "" || sig.kind == "" then (s, Err(InvalidChunk))
    else if id !in s.peers then (s, Err(NotFound))
    else (s.(signals := s.signals[id := Pending(s.signals, id) + [sig]]), Ok(()))
  }

  function PollSignals(s: State, peerId: string): (State, Result<seq<Signal>>) {
    var id := Trim(peerId);
    if id == "" then (s, Err(InvalidChunk))
    else (s.(signals := s.signals - {id}), Ok(Pending(s.signals, id)))
  }

  // ---------------------------------------------------------------- runs

  datatype Op =
    | OpUpsert(reg: RegisterRequest)
    | OpRefresh(ref: RefreshRequest)
    | OpDelete(id: string)
    | OpHeartbeat(id: string, ttl: int)
    | OpSetChunk(file: string, index: int, chunk: ChunkRequest, pick: string)
    | OpReport(source: string, report: ReportRequest)
    | OpConfirm(confirm: ConfirmRequest, pick: string, senderPick: string)
    | OpRead(read: ReadRequest, pick: string)
    | OpSetSignal(to: string, sig: Signal)
    | OpPoll(id: string)
    | OpClean

  datatype Event = Event(now: int, op: Op)

  function Next(v: Verifier, s: State, ev: Event): State {
    match ev.op
    case OpUpsert(req) => Upsert(s, ev.now, req).0
    case OpRefresh(req) => Refresh(s, ev.now, req).0
    case OpDelete(id) => Delete(s, id).0
    case OpHeartbeat(id, ttl) => Heartbeat(s, ev.now, id, ttl).0
    case OpSetChunk(file, index, req, pick) => SetChunk(v, s, ev.now, file, index, req, pick).0
    case OpReport(source, req) => Report(v, s, source, req).0
    case OpConfirm(req, pick, senderPick) => Confirm(v, s, ev.now, req, pick, senderPick).0
    case OpRead(req, pick) => Read(v, s, ev.now, req, pick).0
    case OpSetSignal(to, sig) => SetSignal(s, to, sig).0
    case OpPoll(id) => PollSignals(s, id).0
    case OpClean => Clean(s, ev.now).0
  }

  /** Whether the operation reports success. */
  predicate Succeeds(v: Verifier, s: State, ev: Event) {
    match ev.op
    case OpUpsert(req) => Upsert(s, ev.now, req).1.Ok?
    case OpRefresh(req) => Refresh(s, ev.now, req).1.Ok?
    case OpDelete(id) => Delete(s, id).1.Ok?
    case OpHeartbeat(id, ttl) => Heartbeat(s, ev.now, id, ttl).1.Ok?
    case OpSetChunk(file, index, req, pick) => SetChunk(v, s, ev.now, file, index, req, pick).1.Ok?
    case OpReport(source, req) => Report(v, s, source, req).1.Ok?
    case OpConfirm(req, pick, senderPick) => Confirm(v, s, ev.now, req, pick, senderPick).1.Ok?
    case OpRead(req, pick) => Read(v, s, ev.now, req, pick).1.Ok?
    case OpSetSignal(to, sig) => SetSignal(s, to, sig).1.Ok?
    case OpPoll(id) => PollSignals(s, id).1.Ok?
    case OpClean => true
  }

  /** The events of a run, applied in order. */
  function Exec(v: Verifier, s: State, es: seq<Event>): State {
    if es == [] then s else Next(v, Exec(v, s, es[..|es| - 1]), es[|es| - 1])
  }

  function Clock(t: int, es: seq<Event>): int {
    if es == [] then t else es[|es| - 1].now
  }

  /** A run from time `t` on with a clock that never goes back. */
  predicate Timely(t: int, es: seq<Event>) {
    es == [] || (Timely(t, es[..|es| - 1]) && Clock(t, es[..|es| - 1]) <= es[|es| - 1].now)
  }

  /** What one operation's map enumerations may have found. */
  ghost predicate LegalOp(s: State, ev: Event) {
    match ev.op
    case OpSetChunk(_, _, req, pick) => LegalPick(s.peers, Trim(req.sender), ev.now, pick)
    case OpConfirm(req, pick, senderPick) =>
      && LegalPick(s.peers, Trim(req.recipient), ev.now, pick)
      && var i := FirstFor(s.chunks, ChunkKey(Trim(req.fileId), req.index), Trim(req.recipient));
         i >= 0 ==> LegalPick(s.peers, s.chunks[i].sender, ev.now, senderPick)
    case OpRead(req, pick) => LegalPick(s.peers, Trim(req.recipient), ev.now, pick)
    case _ => true
  }
}
