/** What single chunk operations mean: confirmation, cleanup, the report sentinel, and file id lookups. */
module ChunkLaws {
  import opened Text
  import opened Keys
  import opened Model
  import opened Store
  import opened ChunkHistory

  // ---------------------------------------------------------------- confirmation

  /**
   * After any run from an empty store, at most one entry per chunk and recipient is confirmed, and it is
   * the first one in the list, the only one that `ConfirmChunk` looks at.
   */
  lemma OnlyTheFirstIsEverConfirmed(v: Verifier, t: int, es: seq<Event>, i: int, j: int)
    requires Timely(t, es)
    requires var c := Exec(v, EMPTY, es).chunks;
             && 0 <= i < |c| && 0 <= j < |c| && c[i].confirmed && c[j].confirmed
             && Addressed(c[i], c[j].key, c[j].recipient)
    ensures var c := Exec(v, EMPTY, es).chunks;
            i == j == FirstFor(c, c[i].key, c[i].recipient)
  {
    RunSound(v, EMPTY, t, es);
    var c := Exec(v, EMPTY, es).chunks;
    var k := FirstFor(c, c[i].key, c[i].recipient);
    assert Addressed(c[i], c[i].key, c[i].recipient);
    NoneBeforeConfirmed(c, i, j);
    NoneBeforeConfirmed(c, j, i);
    NoneBeforeConfirmed(c, k, i);
  }

  lemma NoneBeforeConfirmed(c: seq<Entry>, i: int, j: int)
    requires OnlyFirstConfirmed(c) && 0 <= i < |c| && 0 <= j < |c|
    requires c[j].confirmed && Addressed(c[i], c[j].key, c[j].recipient)
    ensures i >= j
  {
  }

  // ---------------------------------------------------------------- the report sentinel

  predicate FirstWithKey(chunks: seq<Entry>, key: string, i: int) {
    0 <= i < |chunks| && chunks[i].key == key && forall j :: 0 <= j < i ==> chunks[j].key != key
  }

  /** The empty string that `ReportChunk` tests for means exactly "no such chunk". */
  lemma {:induction false} EmptyHashMeansUnknown(chunks: seq<Entry>, key: string)
    requires forall i :: 0 <= i < |chunks| ==> ValidHash(chunks[i].hash)
    ensures FirstHash(chunks, key) == "" <==> forall i :: 0 <= i < |chunks| ==> chunks[i].key != key
    ensures forall i :: FirstWithKey(chunks, key, i) ==> FirstHash(chunks, key) == chunks[i].hash
  {
    if chunks != [] {
      var rest := chunks[1..];
      assert forall i :: 0 <= i < |rest| ==> rest[i] == chunks[i + 1];
      EmptyHashMeansUnknown(rest, key);
      assert ValidHash(chunks[0].hash);
      if chunks[0].key != key {
        forall i | FirstWithKey(chunks, key, i)
          ensures FirstHash(chunks, key) == chunks[i].hash
        {
          assert FirstWithKey(rest, key, i - 1);
        }
        if forall i :: 0 <= i < |rest| ==> rest[i].key != key {
          forall i | 0 <= i < |chunks|
            ensures chunks[i].key != key
          {
            if i > 0 { assert rest[i - 1] == chunks[i]; }
          }
        }
      }
    }
  }

  // ---------------------------------------------------------------- cleanup

  lemma {:induction false} KeepConcat(a: seq<Entry>, e: Entry, sec: int)
    ensures Keep(a + [e], sec) == Keep(a, sec) + (if Kept(e, sec) then [e] else [])
  {
    assert (a + [e])[..|a|] == a;
  }

  /** Cleaning and cleaning again later is cleaning once, at the later time. */
  lemma {:induction false} CleaningTwice(chunks: seq<Entry>, t1: int, t2: int)
    requires t1 <= t2
    ensures Keep(Keep(chunks, t1), t2) == Keep(chunks, t2)
  {
    if chunks != [] {
      var n := |chunks| - 1;
      CleaningTwice(chunks[..n], t1, t2);
      if !Kept(chunks[n], t1) {
        assert Keep(chunks, t1) == Keep(chunks[..n], t1);
      } else {
        KeepConcat(Keep(chunks[..n], t1), chunks[n], t2);
      }
    }
  }

  /** `r` embeds `kept` into `chunks` without changing the order. */
  predicate InOrder(chunks: seq<Entry>, kept: seq<Entry>, r: seq<int>) {
    && |r| == |kept|
    && (forall j, k :: 0 <= j < k < |r| ==> r[j] < r[k])
    && (forall j :: 0 <= j < |r| ==> 0 <= r[j] < |chunks| && kept[j] == chunks[r[j]])
  }

  /** A cleanup leaves exactly the kept entries, in their order, and reports how many it dropped. */
  lemma CleanupIsAFilter(s: State, now: int)
    ensures var (s', deleted) := Clean(s, now);
            && deleted == |s.chunks| - |s'.chunks| >= 0
            && (forall e :: multiset(s'.chunks)[e] == if Kept(e, Sec(now)) then multiset(s.chunks)[e] else 0)
            && exists r: seq<int> :: InOrder(s.chunks, s'.chunks, r)
  {
    assert InOrder(s.chunks, Clean(s, now).0.chunks, KeptIndices(s.chunks, Sec(now)));
    KeepCounts(s.chunks, Sec(now));
  }

  lemma {:induction false} KeepCounts(chunks: seq<Entry>, sec: int)
    ensures forall e :: multiset(Keep(chunks, sec))[e] == if Kept(e, sec) then multiset(chunks)[e] else 0
  {
    if chunks != [] {
      var n := |chunks| - 1;
      KeepCounts(chunks[..n], sec);
      assert chunks == chunks[..n] + [chunks[n]];
    }
  }

  /** The lifetime an entry was given. */
  predicate Unexpired(e: Entry, sec: int) {
    e.persist || e.createdAt + e.ttl >= sec
  }

  /**
   * Entries are kept for their whole lifetime exactly when the int64 deadline does not wrap around; if it
   * does, every cleanup drops them.
   */
  lemma KeptForItsLifetimeIff(e: Entry)
    requires 0 <= e.createdAt <= MAX_INT64 && 0 < e.ttl <= MAX_INT64
    ensures (forall sec :: 0 <= sec <= MAX_INT64 ==> (Kept(e, sec) <==> Unexpired(e, sec)))
            <==> e.persist || e.createdAt + e.ttl <= MAX_INT64
    ensures !e.persist && e.createdAt + e.ttl > MAX_INT64 ==> forall sec :: sec >= 0 ==> !Kept(e, sec)
  {
    if !e.persist && e.createdAt + e.ttl > MAX_INT64 {
      assert Wrap64(e.createdAt + e.ttl) == e.createdAt + e.ttl - TWO_64;
      assert !Kept(e, MAX_INT64) && Unexpired(e, MAX_INT64);
    }
  }

  // ---------------------------------------------------------------- file ids

  /** An entry registered for file `f` answers to the file id `g` exactly when `g` is `f` up to its first '#'. */
  lemma AnswersTo(f: string, i: int, g: string)
    ensures KeyFileId(ChunkKey(f, i)) == g <==> BeforeHash(f) == g
    ensures KeyFileId(ChunkKey(f, i)) == f <==> '#' !in f
  {
    ParsedFileId(f, i);
  }

  /** `ReadChunk` never succeeds, and changes nothing, for a file id that contains '#'. */
  lemma ReadWithHashFails(v: Verifier, s: State, now: int, req: ReadRequest, pick: string)
    requires '#' in Trim(req.fileId)
    ensures Read(v, s, now, req, pick).1.Err? && Read(v, s, now, req, pick).0 == s
  {
    forall e: Entry
      ensures !ReadTarget(e, Trim(req.recipient), Trim(req.fileId))
    {
      var k := IndexOf(e.key, '#');
      assert k >= 0 ==> '#' !in e.key[..k];
    }
  }

  /** A successful read marks exactly the recipient's entries whose file id is, up to its first '#', the one read. */
  lemma ReadMarksExactlyTheFile(v: Verifier, s: State, now: int, req: ReadRequest, pick: string, i: int, f: string,
                                index: int)
    requires Read(v, s, now, req, pick).1.Ok?
    requires 0 <= i < |s.chunks| && s.chunks[i].key == ChunkKey(f, index)
    ensures var s' := Read(v, s, now, req, pick).0;
            && |s'.chunks| == |s.chunks|
            && s'.chunks[i] == (if s.chunks[i].recipient == Trim(req.recipient) && BeforeHash(f) == Trim(req.fileId)
                               then s.chunks[i].(readed := true, updatedAt := Sec(now)) else s.chunks[i])
  {
    AnswersTo(f, index, Trim(req.fileId));
  }

  predicate RegisteredFor(e: Entry, g: string) {
    RegisteredFile(e.key) == g
  }

  /** An entry of another file that answers to `g` all the same: its file id is `g`, a '#', and more. */
  predicate Stray(e: Entry, g: string) {
    '#' in RegisteredFile(e.key) && BeforeHash(RegisteredFile(e.key)) == g
  }

  /** For a file id without '#', the entries that answer to it are those registered for it and the strays. */
  lemma AnswersAreRegisteredOrStray(e: Entry, g: string)
    requires IsChunkKey(e.key) && '#' !in g
    ensures KeyFileId(e.key) == g <==> RegisteredFor(e, g) || Stray(e, g)
    ensures !(RegisteredFor(e, g) && Stray(e, g))
  {
    var f, i :| e.key == ChunkKey(f, i) && f != "" && i >= 0;
    RegisteredFileOf(f, i);
    ParsedFileId(f, i);
  }

  /**
   * A successful read leaves the entries of all other files alone exactly when each stray of the
   * recipient, if there is any, was already marked in this very second.
   */
  lemma ReadTouchesOnlyItsFileIff(v: Verifier, s: State, t: int, now: int, req: ReadRequest, pick: string)
    requires Sound(s, t) && Read(v, s, now, req, pick).1.Ok?
    ensures var (s', g) := (Read(v, s, now, req, pick).0, Trim(req.fileId));
            (forall i :: 0 <= i < |s.chunks| && !RegisteredFor(s.chunks[i], g) ==> s'.chunks[i] == s.chunks[i])
            <==> (forall i :: 0 <= i < |s.chunks| ==>
                    s.chunks[i].recipient == Trim(req.recipient) && Stray(s.chunks[i], g) ==>
                      s.chunks[i].readed && s.chunks[i].updatedAt == Sec(now))
  {
    var c, c', g := s.chunks, Read(v, s, now, req, pick).0.chunks, Trim(req.fileId);
    if '#' in g {
      ReadWithHashFails(v, s, now, req, pick);
    }
    forall i | 0 <= i < |c|
      ensures KeyFileId(c[i].key) == g <==> RegisteredFor(c[i], g) || Stray(c[i], g)
      ensures !(RegisteredFor(c[i], g) && Stray(c[i], g))
    {
      assert EntryOk(c[i], Sec(t));
      AnswersAreRegisteredOrStray(c[i], g);
    }
  }

  /** A read marks exactly the recipient's entries registered for the file iff the recipient has no stray of it. */
  lemma ReadMarksOnlyRegisteredIff(s: State, t: int, recipient: string, g: string)
    requires Sound(s, t) && '#' !in g
    ensures (forall i :: 0 <= i < |s.chunks| && s.chunks[i].recipient == recipient ==>
               (ReadTarget(s.chunks[i], recipient, g) <==> RegisteredFor(s.chunks[i], g)))
            <==> !(exists i :: 0 <= i < |s.chunks| && s.chunks[i].recipient == recipient && Stray(s.chunks[i], g))
  {
    forall i | 0 <= i < |s.chunks|
      ensures KeyFileId(s.chunks[i].key) == g <==> RegisteredFor(s.chunks[i], g) || Stray(s.chunks[i], g)
      ensures !(RegisteredFor(s.chunks[i], g) && Stray(s.chunks[i], g))
    {
      assert EntryOk(s.chunks[i], Sec(t));
      AnswersAreRegisteredOrStray(s.chunks[i], g);
    }
  }

  predicate ListedAs(chunks: seq<Entry>, i: int, fileId: string, r: Record) {
    0 <= i < |chunks| && KeyFileId(chunks[i].key) == fileId && RecordOf(chunks[i]) == r
  }

  /** The listing by file id holds exactly the entries whose parsed file id is the one asked for. */
  lemma RecordsOfAre(chunks: seq<Entry>, fileId: string, r: Record)
    ensures r in RecordsOf(chunks, fileId) <==> exists i :: ListedAs(chunks, i, fileId, r)
  {
    var p := (e: Entry) => KeyFileId(e.key) == fileId;
    CollectIs(chunks, p, RecordOf, r);
    assert forall i :: CollectedAt(chunks, p, RecordOf, i, r) == ListedAs(chunks, i, fileId, r);
  }

  /** A chunk that was registered for a file is listed under that file, fields intact, iff the file id has no '#'. */
  lemma ListedUnderItsFileIff(chunks: seq<Entry>, i: int, f: string, index: int)
    requires 0 <= i < |chunks| && chunks[i].key == ChunkKey(f, index) && 0 <= index <= MAX_INT64
    ensures var r := RecordOf(chunks[i]);
            r in RecordsOf(chunks, f) && r.fileId == f && r.index == index <==> '#' !in f
  {
    RecordsOfAre(chunks, f, RecordOf(chunks[i]));
    assert ListedAs(chunks, i, f, RecordOf(chunks[i])) <==> KeyFileId(chunks[i].key) == f;
    ParseUndoesChunkKey(f, index);
  }

  lemma {:induction false} CollectFewer<A, B>(xs: seq<A>, p: A -> bool, q: A -> bool, f: A -> B)
    requires forall i :: 0 <= i < |xs| && q(xs[i]) ==> p(xs[i])
    ensures |Collect(xs, q, f)| <= |Collect(xs, p, f)|
    ensures Collect(xs, p, f) == Collect(xs, q, f) <==> forall i :: 0 <= i < |xs| && p(xs[i]) ==> q(xs[i])
  {
    if xs != [] {
      var n := |xs| - 1;
      var ys := xs[..n];
      assert forall i :: 0 <= i < n ==> ys[i] == xs[i];
      CollectFewer(ys, p, q, f);
      if p(xs[n]) && q(xs[n]) {
        SameFront(Collect(ys, p, f), Collect(ys, q, f), f(xs[n]));
      } else if p(xs[n]) {
        assert |Collect(xs, p, f)| > |Collect(xs, q, f)|;
      } else {
        assert Collect(xs, p, f) == Collect(ys, p, f) && Collect(xs, q, f) == Collect(ys, q, f);
      }
    }
  }

  lemma SameFront<B>(a: seq<B>, b: seq<B>, y: B)
    ensures a + [y] == b + [y] <==> a == b
  {
    if a + [y] == b + [y] {
      assert |a + [y]| == |b + [y]|;
      assert a == (a + [y])[..|a|] && b == (b + [y])[..|b|];
    }
  }

  /** The entries registered for a file, as the listing would show them. */
  function RegisteredRecords(chunks: seq<Entry>, g: string): seq<Record> {
    Collect(chunks, (e: Entry) => RegisteredFor(e, g), RecordOf)
  }

  /** The listing by file id is exactly the entries registered for the file iff no entry is a stray of it. */
  lemma ListingIsExactIff(s: State, t: int, g: string)
    requires Sound(s, t) && '#' !in g
    ensures RecordsOf(s.chunks, g) == RegisteredRecords(s.chunks, g)
            <==> !(exists i :: 0 <= i < |s.chunks| && Stray(s.chunks[i], g))
  {
    var p, q := (e: Entry) => KeyFileId(e.key) == g, (e: Entry) => RegisteredFor(e, g);
    forall i | 0 <= i < |s.chunks|
      ensures p(s.chunks[i]) <==> q(s.chunks[i]) || Stray(s.chunks[i], g)
      ensures !(q(s.chunks[i]) && Stray(s.chunks[i], g))
    {
      assert EntryOk(s.chunks[i], Sec(t));
      AnswersAreRegisteredOrStray(s.chunks[i], g);
    }
    CollectFewer(s.chunks, p, q, RecordOf);
  }

  lemma {:induction false} CollectNone<A, B>(xs: seq<A>, p: A -> bool, f: A -> B)
    requires forall i :: 0 <= i < |xs| ==> !p(xs[i])
    ensures Collect(xs, p, f) == []
  {
    if xs != [] {
      CollectNone(xs[..|xs| - 1], p, f);
    }
  }

  /** For a file id with '#' the listing is empty. */
  lemma ListingWithHashIsEmpty(chunks: seq<Entry>, g: string)
    requires '#' in g
    ensures RecordsOf(chunks, g) == []
  {
    forall e: Entry
      ensures KeyFileId(e.key) != g
    {
      var k := IndexOf(e.key, '#');
      assert k >= 0 ==> '#' !in e.key[..k];
    }
    CollectNone(chunks, (e: Entry) => KeyFileId(e.key) == g, RecordOf);
  }

  /** A chunk registered for "a#b" is marked by a read of "a", and is listed under "a". */
  lemma StrayWitness(e: Entry)
    requires e.key == ChunkKey("a#b", 0)
    ensures Stray(e, "a") && !RegisteredFor(e, "a")
    ensures ReadTarget(e, e.recipient, "a") && RecordOf(e) in RecordsOf([e], "a") && RecordOf(e).fileId == "a"
    ensures RecordOf(e).index == 0
  {
    RegisteredFileOf("a#b", 0);
    AnswersTo("a#b", 0, "a");
    assert "a#b"[..1] == "a";
    FirstAt("a#b", '#', 1);
    RecordsOfAre([e], "a", RecordOf(e));
    assert ListedAs([e], 0, "a", RecordOf(e));
  }
}
