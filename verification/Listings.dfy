/**
 * What the two listing calls answer, entry by entry, and the polling laws for a client that uses them.
 */
module Listings {
  import opened Text
  import opened Keys
  import opened Model
  import opened Store
  import opened ChunkHistory
  import opened Polling

  // ---------------------------------------------------------------- records

  /** The record shows the entry, field by field, with the file id up to its first '#'; without one, with the index. */
  ghost predicate Shows(r: Record, e: Entry) {
    && r.sender == e.sender && r.recipient == e.recipient && r.hash == e.hash && r.peerId == e.peerId
    && r.persist == e.persist && r.confirmed == e.confirmed && r.readed == e.readed
    && r.createdAt == e.createdAt && r.updatedAt == e.updatedAt && r.ttl == e.ttl
    && forall f, i :: e.key == ChunkKey(f, i) ==>
         r.fileId == BeforeHash(f) && ('#' !in f && InInt64(i) ==> r.fileId == f && r.index == i)
  }

  lemma RecordShows(e: Entry)
    ensures Shows(RecordOf(e), e)
  {
    forall f, i | e.key == ChunkKey(f, i)
      ensures RecordOf(e).fileId == BeforeHash(f)
      ensures '#' !in f && InInt64(i) ==> RecordOf(e).fileId == f && RecordOf(e).index == i
    {
      ParsedFileId(f, i);
      if InInt64(i) {
        ParseUndoesChunkKey(f, i);
      }
    }
  }

  /** The records show the entries at the positions `at`, which ascend. */
  ghost predicate ShowsAt(records: seq<Record>, chunks: seq<Entry>, at: seq<int>) {
    && |at| == |records|
    && (forall i, j :: 0 <= i < j < |at| ==> at[i] < at[j])
    && forall j :: 0 <= j < |at| ==> 0 <= at[j] < |chunks| && Shows(records[j], chunks[at[j]])
  }

  /** `ys` are the images of the elements that satisfy `p`, which are at the ascending positions `at`. */
  predicate Positions<A, B(==)>(xs: seq<A>, p: A -> bool, f: A -> B, ys: seq<B>, at: seq<int>) {
    && |at| == |ys|
    && (forall i, j :: 0 <= i < j < |at| ==> at[i] < at[j])
    && (forall j :: 0 <= j < |at| ==> 0 <= at[j] < |xs| && p(xs[at[j]]) && ys[j] == f(xs[at[j]]))
    && (forall i :: 0 <= i < |xs| && p(xs[i]) ==> i in at)
  }

  lemma OnePositionMore<A, B>(xs: seq<A>, x: A, p: A -> bool, f: A -> B, ys: seq<B>, at: seq<int>)
    requires Positions(xs, p, f, ys, at)
    ensures p(x) ==> Positions(xs + [x], p, f, ys + [f(x)], at + [|xs|])
    ensures !p(x) ==> Positions(xs + [x], p, f, ys, at)
  {
    var longer := xs + [x];
    assert forall i :: 0 <= i < |xs| ==> longer[i] == xs[i];
    forall i | 0 <= i < |xs| && p(longer[i])
      ensures i in at && i in at + [|xs|]
    {
      assert p(xs[i]);
    }
  }

  lemma {:induction false} CollectedPositions<A, B>(xs: seq<A>, p: A -> bool, f: A -> B) returns (at: seq<int>)
    ensures Positions(xs, p, f, Collect(xs, p, f), at)
  {
    if xs == [] {
      at := [];
    } else {
      var n := |xs| - 1;
      at := CollectedPositions(xs[..n], p, f);
      OnePositionMore(xs[..n], xs[n], p, f, Collect(xs[..n], p, f), at);
      assert xs == xs[..n] + [xs[n]];
      if p(xs[n]) {
        at := at + [n];
      }
    }
  }

  // ---------------------------------------------------------------- by recipient

  /** Which entries a listing by recipient shows. */
  predicate Asked(e: Entry, recipient: string, dateFrom: int) {
    e.recipient == recipient && e.updatedAt >= dateFrom
  }

  /**
   * The listing by recipient fails iff the recipient is blank; otherwise it shows, in order, exactly the entries of
   * the recipient that were stamped at dateFrom or later.
   */
  lemma RecipientListing(s: State, recipient: string, dateFrom: int) returns (at: seq<int>)
    ensures var r := GetChunksByRecipient(s, recipient, dateFrom);
            && (Trim(recipient) == "" <==> r == Err(InvalidChunk))
            && (Trim(recipient) != "" ==> r.Ok? && ShowsAt(r.value, s.chunks, at))
    ensures Trim(recipient) != "" ==>
              forall i :: 0 <= i < |s.chunks| ==> (i in at <==> Asked(s.chunks[i], Trim(recipient), dateFrom))
  {
    at := CollectedPositions(s.chunks, (e: Entry) => e.recipient == Trim(recipient) && e.updatedAt >= dateFrom,
                             RecordOf);
    forall j | 0 <= j < |at|
      ensures Shows(RecordOf(s.chunks[at[j]]), s.chunks[at[j]])
    {
      RecordShows(s.chunks[at[j]]);
    }
  }

  /** The listing by file id: it shows exactly the entries that answer to the file id, whoever they are for. */
  lemma FileListing(s: State, t: int, fileId: string) returns (at: seq<int>)
    requires Sound(s, t)
    ensures var r := GetChunksByFileId(s, fileId);
            && (Trim(fileId) == "" <==> r == Err(InvalidChunk))
            && (Trim(fileId) != "" ==> r.Ok? && ShowsAt(r.value, s.chunks, at))
    ensures Trim(fileId) != "" ==>
              forall i :: 0 <= i < |s.chunks| ==>
                (i in at <==> BeforeHash(RegisteredFile(s.chunks[i].key)) == Trim(fileId))
  {
    at := CollectedPositions(s.chunks, (e: Entry) => KeyFileId(e.key) == Trim(fileId), RecordOf);
    forall j | 0 <= j < |at|
      ensures Shows(RecordOf(s.chunks[at[j]]), s.chunks[at[j]])
    {
      RecordShows(s.chunks[at[j]]);
    }
    forall i | 0 <= i < |s.chunks|
      ensures KeyFileId(s.chunks[i].key) == BeforeHash(RegisteredFile(s.chunks[i].key))
    {
      assert EntryOk(s.chunks[i], Sec(t));
      var f, n :| s.chunks[i].key == ChunkKey(f, n) && f != "" && n >= 0;
      ParsedFileId(f, n);
      RegisteredFileOf(f, n);
    }
  }

  // ---------------------------------------------------------------- polling

  /** The records a client gets; none when the call fails. */
  function Answer(s: State, recipient: string, dateFrom: int): seq<Record> {
    var r := GetChunksByRecipient(s, recipient, dateFrom);
    if r.Ok? then r.value else []
  }

  lemma AnswerIs(s: State, recipient: string, dateFrom: int)
    requires Trim(recipient) != ""
    ensures Answer(s, recipient, dateFrom) == RecordsFor(s.chunks, Trim(recipient), dateFrom)
  {
  }

  /** A stamp at dateFrom itself is in the answer. */
  lemma AnswerIsInclusive(s: State, recipient: string, i: int)
    requires Trim(recipient) != "" && 0 <= i < |s.chunks| && s.chunks[i].recipient == Trim(recipient)
    ensures exists r :: r in Answer(s, recipient, s.chunks[i].updatedAt) && Shows(r, s.chunks[i])
  {
    var at := RecipientListing(s, recipient, s.chunks[i].updatedAt);
    assert Asked(s.chunks[i], Trim(recipient), s.chunks[i].updatedAt);
    var j :| 0 <= j < |at| && at[j] == i;
    assert Answer(s, recipient, s.chunks[i].updatedAt)[j] in Answer(s, recipient, s.chunks[i].updatedAt);
  }

  /** Each record of a later answer was in the earlier one, or is in the answer from the earlier time. */
  lemma AnswersMissNothing(v: Verifier, s: State, t: int, es: seq<Event>, recipient: string, everything: int)
    requires Sound(s, t) && Timely(t, es)
    requires everything <= Sec(t) && NotBefore(s.chunks, everything)
    ensures var s' := Exec(v, s, es);
            forall r :: r in Answer(s', recipient, everything) ==>
              r in Answer(s, recipient, everything) || r in Answer(s', recipient, Sec(t))
  {
    if Trim(recipient) != "" {
      PollMissesNothing(v, s, t, es, Trim(recipient), everything);
      AnswerIs(s, recipient, everything);
      AnswerIs(Exec(v, s, es), recipient, everything);
      AnswerIs(Exec(v, s, es), recipient, Sec(t));
    }
  }

  /** What a client has collected that reads the list once and then polls from its previous poll time. */
  function CollectedAnswers(v: Verifier, s: State, t: int, rounds: seq<Round>, recipient: string, everything: int)
    : seq<Record>
  {
    if rounds == [] then Answer(s, recipient, everything)
    else
      var before := rounds[..|rounds| - 1];
      CollectedAnswers(v, s, t, before, recipient, everything)
      + Answer(StateAfter(v, s, rounds), recipient, Sec(PolledAt(t, before)))
  }

  lemma {:induction false} CollectedIs(v: Verifier, s: State, t: int, rounds: seq<Round>, recipient: string,
                                       everything: int)
    requires Trim(recipient) != ""
    ensures CollectedAnswers(v, s, t, rounds, recipient, everything)
         == Collected(v, s, t, rounds, Trim(recipient), everything)
  {
    if rounds == [] {
      AnswerIs(s, recipient, everything);
    } else {
      var before := rounds[..|rounds| - 1];
      CollectedIs(v, s, t, before, recipient, everything);
      AnswerIs(StateAfter(v, s, rounds), recipient, Sec(PolledAt(t, before)));
    }
  }

  /** However often it polls, the client has every record of the current answer. */
  lemma AnswersKeepUp(v: Verifier, s: State, t: int, rounds: seq<Round>, recipient: string, everything: int)
    requires Sound(s, t) && TimelyRounds(t, rounds) && Trim(recipient) != ""
    requires everything <= Sec(t) && NotBefore(s.chunks, everything)
    ensures forall r :: r in Answer(StateAfter(v, s, rounds), recipient, everything) ==>
              r in CollectedAnswers(v, s, t, rounds, recipient, everything)
  {
    PollingKeepsUp(v, s, t, rounds, Trim(recipient), everything);
    CollectedIs(v, s, t, rounds, recipient, everything);
    AnswerIs(StateAfter(v, s, rounds), recipient, everything);
  }

  /** What a client holds that reads the list once, then polls from its previous poll time and merges. */
  ghost function Merged(v: Verifier, s: State, t: int, rounds: seq<Round>, recipient: string, everything: int)
    : seq<Record>
  {
    if rounds == [] then Answer(s, recipient, everything)
    else
      var before := rounds[..|rounds| - 1];
      Merge(Merged(v, s, t, before, recipient, everything),
            Answer(StateAfter(v, s, rounds), recipient, Sec(PolledAt(t, before))))
  }

  lemma {:induction false} MergedIsHeld(v: Verifier, s: State, t: int, rounds: seq<Round>, recipient: string,
                                        everything: int)
    requires Trim(recipient) != ""
    ensures Merged(v, s, t, rounds, recipient, everything) == Held(v, s, t, rounds, Trim(recipient), everything)
  {
    if rounds == [] {
      AnswerIs(s, recipient, everything);
    } else {
      var before := rounds[..|rounds| - 1];
      MergedIsHeld(v, s, t, before, recipient, everything);
      AnswerIs(StateAfter(v, s, rounds), recipient, Sec(PolledAt(t, before)));
    }
  }

  /**
   * Over any rounds of polling and merging: what the client holds is in the current answer, or no record of the
   * answer is of its chunk; and if no two current entries of the recipient look alike, it holds the whole answer.
   */
  lemma MergedAnswersRebuildTheList(v: Verifier, s: State, t: int, rounds: seq<Round>, recipient: string,
                                    everything: int)
    requires Sound(s, t) && TimelyRounds(t, rounds) && Trim(recipient) != ""
    requires everything <= Sec(t) && NotBefore(s.chunks, everything)
    ensures var s', held := StateAfter(v, s, rounds), Merged(v, s, t, rounds, recipient, everything);
            var current := Answer(s', recipient, everything);
            && (forall r :: r in held ==> r in current || !Superseded(r, current))
            && (NoTwins(s'.chunks, Trim(recipient)) ==> forall r :: r in current ==> r in held)
  {
    MergingRebuildsTheList(v, s, t, rounds, Trim(recipient), everything);
    MergedIsHeld(v, s, t, rounds, recipient, everything);
    AnswerIs(StateAfter(v, s, rounds), recipient, everything);
  }

  ghost predicate AnswersKnown(v: Verifier, s: State, t: int, rounds: seq<Round>, recipient: string, everything: int) {
    var current := Answer(StateAfter(v, s, rounds), recipient, everything);
    && (forall r :: r in current ==> r in Merged(v, s, t, rounds, recipient, everything))
    && (rounds == [] || AnswersKnown(v, s, t, rounds[..|rounds| - 1], recipient, everything))
  }

  /** The client holds the whole answer after every round, exactly when no entry ever loses to a twin. */
  lemma AnswersKnownIff(v: Verifier, s: State, t: int, rounds: seq<Round>, recipient: string, everything: int)
    requires Sound(s, t) && TimelyRounds(t, rounds) && Trim(recipient) != ""
    requires everything <= Sec(t) && NotBefore(s.chunks, everything)
    ensures AnswersKnown(v, s, t, rounds, recipient, everything) <==> !SomeLost(v, s, t, rounds, Trim(recipient))
  {
    KnowsThroughoutIff(v, s, t, rounds, Trim(recipient), everything);
    SameKnowledge(v, s, t, rounds, recipient, everything);
  }

  lemma {:induction false} SameKnowledge(v: Verifier, s: State, t: int, rounds: seq<Round>, recipient: string,
                                         everything: int)
    requires Trim(recipient) != ""
    ensures AnswersKnown(v, s, t, rounds, recipient, everything)
            <==> KnowsThroughout(v, s, t, rounds, Trim(recipient), everything)
  {
    MergedIsHeld(v, s, t, rounds, recipient, everything);
    AnswerIs(StateAfter(v, s, rounds), recipient, everything);
    if rounds != [] {
      SameKnowledge(v, s, t, rounds[..|rounds| - 1], recipient, everything);
    }
  }
}
