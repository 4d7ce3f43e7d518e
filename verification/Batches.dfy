/** internal/handler/phonebook.go: the loops of the batch requests over a store. */
module Batches {
  import opened Text
  import opened Keys
  import opened Model
  import opened MemoryStores
  import S = Store

  datatype RegisterEntry = RegisterEntry(
    index: int,
    sender: string,
    recipient: string,
    hash: string,
    signature: string,
    peerId: string,
    persist: bool,
    ttl: int)

  datatype ConfirmEntry = ConfirmEntry(fileId: string, index: int, hash: string, signature: string)

  /** The request made for an entry of a batch. The ttl of the entry is not copied. */
  function RegisterRequestOf(e: RegisterEntry): ChunkRequest {
    ChunkRequest(e.sender, e.recipient, e.hash, e.signature, e.peerId, e.persist, 0)
  }

  function ConfirmRequestOf(recipient: string, e: ConfirmEntry): ConfirmRequest {
    ConfirmRequest(recipient, e.fileId, e.index, e.hash, e.signature)
  }

  /** Each of the events is legal and succeeds when they are applied in order. */
  ghost predicate AllApply(v: Verifier, s: S.State, es: seq<S.Event>) {
    forall k :: 0 <= k < |es| ==>
      S.LegalOp(S.Exec(v, s, es[..k]), es[k]) && S.Succeeds(v, S.Exec(v, s, es[..k]), es[k])
  }

  lemma AllApplyAppend(v: Verifier, s: S.State, es: seq<S.Event>, ev: S.Event)
    requires AllApply(v, s, es) && S.LegalOp(S.Exec(v, s, es), ev) && S.Succeeds(v, S.Exec(v, s, es), ev)
    ensures AllApply(v, s, es + [ev]) && S.Exec(v, s, es + [ev]) == S.Next(v, S.Exec(v, s, es), ev)
  {
    assert (es + [ev])[..|es|] == es;
    assert forall k :: 0 <= k < |es| ==> (es + [ev])[..k] == es[..k];
  }

  /** One call of the registration loop. */
  method RegisterOne(store: MemoryStore, file: string, e: RegisterEntry, now: int)
    returns (r: Result<()>, ghost ev: S.Event)
    requires store.Valid()
    modifies store, store.chunks
    ensures store.Valid() && (store.chunks == old(store.chunks) || fresh(store.chunks))
    ensures ev.op.OpSetChunk? && ev == S.Event(now, S.OpSetChunk(file, e.index, RegisterRequestOf(e), ev.op.pick))
    ensures S.LegalOp(old(store.View()), ev) && (r.Ok? <==> S.Succeeds(store.verify, old(store.View()), ev))
    ensures store.View() == S.Next(store.verify, old(store.View()), ev)
    ensures r.Err? ==> store.View() == old(store.View()) && ErrorOf(store.verify, store.View(), ev) == Some(r.error)
  {
    ghost var pick;
    r, pick := store.SetChunkHash(now, file, e.index, RegisterRequestOf(e));
    ev := S.Event(now, S.OpSetChunk(file, e.index, RegisterRequestOf(e), pick));
  }

  method ConfirmOne(store: MemoryStore, recipient: string, e: ConfirmEntry, now: int)
    returns (r: Result<()>, ghost ev: S.Event)
    requires store.Valid()
    modifies store, store.chunks
    ensures store.Valid() && store.chunks == old(store.chunks)
    ensures ev.op.OpConfirm?
    ensures ev == S.Event(now, S.OpConfirm(ConfirmRequestOf(recipient, e), ev.op.pick, ev.op.senderPick))
    ensures S.LegalOp(old(store.View()), ev) && (r.Ok? <==> S.Succeeds(store.verify, old(store.View()), ev))
    ensures store.View() == S.Next(store.verify, old(store.View()), ev)
    ensures r.Err? ==> store.View() == old(store.View()) && ErrorOf(store.verify, store.View(), ev) == Some(r.error)
  {
    var verdict;
    ghost var pick, senderPick;
    verdict, pick, senderPick := store.ConfirmChunk(now, ConfirmRequestOf(recipient, e));
    r := if verdict.Ok? then Ok(()) else Err(verdict.error);
    ev := S.Event(now, S.OpConfirm(ConfirmRequestOf(recipient, e), pick, senderPick));
  }

  /** The error with which an event of a batch fails. */
  function ErrorOf(v: Verifier, s: S.State, ev: S.Event): Option<StoreError> {
    match ev.op
    case OpSetChunk(file, index, req, pick) =>
      (match S.SetChunk(v, s, ev.now, file, index, req, pick).1
       case Ok(_) => None
       case Err(e) => Some(e))
    case OpConfirm(req, pick, senderPick) =>
      (match S.Confirm(v, s, ev.now, req, pick, senderPick).1
       case Ok(_) => None
       case Err(e) => Some(e))
    case _ => None
  }

  predicate Registers(ev: S.Event, file: string, e: RegisterEntry, now: int) {
    && ev.now == now && ev.op.OpSetChunk? && ev.op.file == file && ev.op.index == e.index
    && var req := ev.op.chunk;
       && req.sender == e.sender && req.recipient == e.recipient && req.hash == e.hash && req.signature == e.signature
       && req.peerId == e.peerId && req.persist == e.persist && req.ttl == 0
  }

  predicate Confirms(ev: S.Event, recipient: string, e: ConfirmEntry, now: int) {
    && ev.now == now && ev.op.OpConfirm?
    && var req := ev.op.confirm;
       && req.recipient == recipient && req.fileId == e.fileId && req.index == e.index && req.hash == e.hash
       && req.signature == e.signature
  }

  /**
   * The registration batch applies, in order, exactly the entries before the first one that fails, and
   * reports success exactly when there is none; what it reports otherwise is that entry's error. The
   * k-th call happens at time `now(k)`.
   */
  method RegisterChunkBatch(store: MemoryStore, file: string, batch: seq<RegisterEntry>, now: nat -> int)
    returns (r: Result<()>, ghost applied: seq<S.Event>, ghost failing: S.Event)
    requires store.Valid()
    modifies store, store.chunks
    ensures store.Valid() && (store.chunks == old(store.chunks) || fresh(store.chunks))
    ensures |applied| <= |batch| && (r.Ok? <==> |applied| == |batch|)
    ensures forall k :: 0 <= k < |applied| ==> Registers(applied[k], file, batch[k], now(k))
    ensures AllApply(store.verify, old(store.View()), applied)
    ensures store.View() == S.Exec(store.verify, old(store.View()), applied)
    ensures r.Err? ==> Registers(failing, file, batch[|applied|], now(|applied|))
    ensures r.Err? ==> S.LegalOp(store.View(), failing) && ErrorOf(store.verify, store.View(), failing) == Some(r.error)
  {
    applied, failing := [], S.Event(0, S.OpClean);
    ghost var start := store.View();
    for i := 0 to |batch|
      invariant store.Valid() && (store.chunks == old(store.chunks) || fresh(store.chunks))
      invariant |applied| == i
      invariant forall k :: 0 <= k < i ==> Registers(applied[k], file, batch[k], now(k))
      invariant AllApply(store.verify, start, applied)
      invariant store.View() == S.Exec(store.verify, start, applied)
    {
      ghost var ev;
      r, ev := RegisterOne(store, file, batch[i], now(i));
      if r.Err? {
        failing := ev;
        return;
      }
      AllApplyAppend(store.verify, start, applied, ev);
      applied := applied + [ev];
    }
    r := Ok(());
  }

  /** The same for the confirmation batch. */
  method ConfirmChunkBatch(store: MemoryStore, recipient: string, batch: seq<ConfirmEntry>, now: nat -> int)
    returns (r: Result<()>, ghost applied: seq<S.Event>, ghost failing: S.Event)
    requires store.Valid()
    modifies store, store.chunks
    ensures store.Valid() && store.chunks == old(store.chunks)
    ensures |applied| <= |batch| && (r.Ok? <==> |applied| == |batch|)
    ensures forall k :: 0 <= k < |applied| ==> Confirms(applied[k], recipient, batch[k], now(k))
    ensures AllApply(store.verify, old(store.View()), applied)
    ensures store.View() == S.Exec(store.verify, old(store.View()), applied)
    ensures r.Err? ==> Confirms(failing, recipient, batch[|applied|], now(|applied|))
    ensures r.Err? ==> S.LegalOp(store.View(), failing) && ErrorOf(store.verify, store.View(), failing) == Some(r.error)
  {
    applied, failing := [], S.Event(0, S.OpClean);
    ghost var start := store.View();
    for i := 0 to |batch|
      invariant store.Valid() && store.chunks == old(store.chunks)
      invariant |applied| == i
      invariant forall k :: 0 <= k < i ==> Confirms(applied[k], recipient, batch[k], now(k))
      invariant AllApply(store.verify, start, applied)
      invariant store.View() == S.Exec(store.verify, start, applied)
    {
      ghost var ev;
      r, ev := ConfirmOne(store, recipient, batch[i], now(i));
      if r.Err? {
        failing := ev;
        return;
      }
      AllApplyAppend(store.verify, start, applied, ev);
      applied := applied + [ev];
    }
    r := Ok(());
  }

  /** The stored entry is the one of the batch, with the default ttl, unmarked. */
  predicate RegisteredAs(c: Entry, file: string, e: RegisterEntry, now: int) {
    && c.key == ChunkKey(Trim(file), e.index) && c.hash == NormalizeHash(e.hash)
    && c.sender == Trim(e.sender) && c.recipient == Trim(e.recipient) && c.peerId == Trim(e.peerId)
    && c.persist == e.persist && !c.confirmed && !c.readed
    && c.createdAt == c.updatedAt == S.Sec(now) && c.ttl == 86_400
  }

  lemma OneAppended(v: Verifier, s: S.State, ev: S.Event, file: string, e: RegisterEntry, now: int)
    requires Registers(ev, file, e, now) && S.Succeeds(v, s, ev)
    ensures var c := S.Next(v, s, ev).chunks;
            |c| == |s.chunks| + 1 && c[..|s.chunks|] == s.chunks && RegisteredAs(c[|s.chunks|], file, e, now)
  {
  }

  lemma AllApplyBefore(v: Verifier, s: S.State, es: seq<S.Event>)
    requires AllApply(v, s, es) && es != []
    ensures AllApply(v, s, es[..|es| - 1]) && S.Succeeds(v, S.Exec(v, s, es[..|es| - 1]), es[|es| - 1])
  {
    var n := |es| - 1;
    var before := es[..n];
    forall k | 0 <= k < n
      ensures S.LegalOp(S.Exec(v, s, before[..k]), before[k]) && S.Succeeds(v, S.Exec(v, s, before[..k]), before[k])
    {
      assert before[..k] == es[..k] && before[k] == es[k];
    }
  }

  /** Whether an entry is the one registered for the k-th entry of the batch. */
  function AsGiven(file: string, batch: seq<RegisterEntry>, now: nat -> int): (Entry, int) -> bool {
    (c, k) => 0 <= k < |batch| && RegisteredAs(c, file, batch[k], now(k))
  }

  /** `c` extends the older list by `m` elements, of which the k-th satisfies `holds`. */
  predicate Extends<T(==)>(older: seq<T>, c: seq<T>, m: nat, holds: (T, int) -> bool) {
    && |c| == |older| + m && c[..|older|] == older
    && forall j :: |older| <= j < |c| ==> holds(c[j], j - |older|)
  }

  lemma ExtendsByOne<T>(older: seq<T>, mid: seq<T>, c: seq<T>, m: nat, holds: (T, int) -> bool)
    requires Extends(older, mid, m, holds)
    requires |c| == |mid| + 1 && c[..|mid|] == mid && holds(c[|mid|], m)
    ensures Extends(older, c, m + 1, holds)
  {
    assert forall j :: 0 <= j < |mid| ==> c[j] == c[..|mid|][j];
    assert c[..|older|] == mid[..|older|];
  }

  /** The applied entries of a batch are appended in order, field by field as the batch gives them. */
  lemma {:induction false} BatchAppends(v: Verifier, s: S.State, file: string, batch: seq<RegisterEntry>,
                                        now: nat -> int, es: seq<S.Event>)
    requires |es| <= |batch| && forall k :: 0 <= k < |es| ==> Registers(es[k], file, batch[k], now(k))
    requires AllApply(v, s, es)
    ensures Extends(s.chunks, S.Exec(v, s, es).chunks, |es|, AsGiven(file, batch, now))
  {
    if es != [] {
      var m := |es| - 1;
      var before := es[..m];
      AllApplyBefore(v, s, es);
      assert forall k :: 0 <= k < m ==> before[k] == es[k];
      BatchAppends(v, s, file, batch, now, before);
      OneAppended(v, S.Exec(v, s, before), es[m], file, batch[m], now(m));
      ExtendsByOne(s.chunks, S.Exec(v, s, before).chunks, S.Exec(v, s, es).chunks, m, AsGiven(file, batch, now));
    }
  }

  /** Whatever ttl the entries ask for, chunks registered in a batch get the default one. */
  lemma {:induction false} BatchTtlIsDefault(v: Verifier, s: S.State, file: string, batch: seq<RegisterEntry>,
                                             now: nat -> int, es: seq<S.Event>)
    requires |es| <= |batch| && forall k :: 0 <= k < |es| ==> Registers(es[k], file, batch[k], now(k))
    ensures var c := S.Exec(v, s, es).chunks;
            && |s.chunks| <= |c| && c[..|s.chunks|] == s.chunks
            && forall j :: |s.chunks| <= j < |c| ==> c[j].ttl == 86_400
  {
    if es != [] {
      var n := |es| - 1;
      BatchTtlIsDefault(v, s, file, batch, now, es[..n]);
      assert Registers(es[n], file, batch[n], now(n));
    }
  }
}
