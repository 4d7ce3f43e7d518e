/**
 * A client that reads a recipient's list once, then polls and merges: what it holds is the current list,
 * up to deletions, as long as no two entries look like the same chunk.
 */
module Polling {
  import opened Model
  import opened Store
  import opened ChunkHistory

  // ---------------------------------------------------------------- who survives

  /** No cleanup of the run finds the entry expired. */
  ghost predicate KeptThrough(e: Entry, es: seq<Event>) {
    forall k :: 0 <= k < |es| && es[k].op == OpClean ==> Kept(e, Sec(es[k].now))
  }

  ghost predicate Same(e: Entry, f: Entry) {
    SameChunk(RecordOf(e), RecordOf(f))
  }

  lemma KeptAlike(e: Entry, f: Entry, es: seq<Event>)
    requires e.persist == f.persist && e.createdAt == f.createdAt && e.ttl == f.ttl
    ensures KeptThrough(e, es) <==> KeptThrough(f, es)
  {
    assert forall sec :: Kept(e, sec) == Kept(f, sec);
  }

  lemma KeptThroughSplit(e: Entry, es: seq<Event>)
    requires es != []
    ensures var n := |es| - 1;
            KeptThrough(e, es) <==> KeptThrough(e, es[..n]) && (es[n].op == OpClean ==> Kept(e, Sec(es[n].now)))
  {
    var n := |es| - 1;
    assert forall k :: 0 <= k < n ==> es[..n][k] == es[k];
  }

  lemma StepSurvival(v: Verifier, s: State, t: int, ev: Event, k: int)
    requires Sound(s, t) && t <= ev.now && 0 <= k < |s.chunks|
    ensures k in Origins(v, s, ev) <==> (ev.op == OpClean ==> Kept(s.chunks[k], Sec(ev.now)))
  {
    NextTracks(v, s, t, ev);
    if ev.op != OpClean {
      InPlaceLength(v, s, ev);
      assert Origins(v, s, ev)[k] == k;
    }
  }

  lemma InPlaceLength(v: Verifier, s: State, ev: Event)
    requires ev.op != OpClean
    ensures |Next(v, s, ev).chunks| >= |s.chunks|
  {
    if !ev.op.OpSetChunk? && !ev.op.OpConfirm? && !ev.op.OpRead? {
      ChunksUntouched(v, s, ev);
    }
  }

  lemma ComposedAt(o1: seq<int>, o2: seq<int>, i: int, k: int)
    requires 0 <= k < |o1| && o1[k] == i >= 0
    requires forall a, b :: 0 <= a < b < |o1| && o1[b] >= 0 ==> 0 <= o1[a] < o1[b]
    ensures i in ComposeOrigins(o1, o2) <==> k in o2
  {
    var o := ComposeOrigins(o1, o2);
    if k in o2 {
      var j :| 0 <= j < |o2| && o2[j] == k;
      assert o[j] == i;
    }
    if i in o {
      var j :| 0 <= j < |o| && o[j] == i;
      var m := o2[j];
      assert o1[m] == i;
      assert !(m < k) && !(k < m);
    }
  }

  lemma NotComposed(o1: seq<int>, o2: seq<int>, i: int)
    requires i !in o1 && i >= 0
    ensures i !in ComposeOrigins(o1, o2)
  {
  }

  lemma SurvivesBoth(a: seq<Entry>, b: seq<Entry>, o1: seq<int>, o2: seq<int>, from: int, upTo: int, i: int,
                     cleans: bool, sec: int)
    requires Tracks(a, b, o1, from, upTo) && 0 <= i < |a|
    requires forall k :: 0 <= k < |b| ==> (k in o2 <==> (cleans ==> Kept(b[k], sec)))
    ensures i in ComposeOrigins(o1, o2) <==> i in o1 && (cleans ==> Kept(a[i], sec))
  {
    if i in o1 {
      var k :| 0 <= k < |o1| && o1[k] == i;
      ComposedAt(o1, o2, i, k);
      assert Evolves(a[i], b[k], from);
    } else {
      NotComposed(o1, o2, i);
    }
  }

  /** One more event: an entry that survived so far survives it unless it is a cleanup that drops it. */
  lemma LastStepSurvival(v: Verifier, s: State, t: int, es: seq<Event>, i: int)
    requires Sound(s, t) && Timely(t, es) && 0 <= i < |s.chunks| && es != []
    ensures var n := |es| - 1;
            i in RunOrigins(v, s, es) <==>
              i in RunOrigins(v, s, es[..n]) && (es[n].op == OpClean ==> Kept(s.chunks[i], Sec(es[n].now)))
  {
    var n := |es| - 1;
    var before, last := es[..n], es[n];
    var mid, clock := Exec(v, s, before), Clock(t, before);
    EntriesEvolve(v, s, t, before);
    RunSound(v, s, t, before);
    forall k | 0 <= k < |mid.chunks|
      ensures k in Origins(v, mid, last) <==> (last.op == OpClean ==> Kept(mid.chunks[k], Sec(last.now)))
    {
      StepSurvival(v, mid, clock, last, k);
    }
    SurvivesBoth(s.chunks, mid.chunks, RunOrigins(v, s, before), Origins(v, mid, last), Sec(t), Sec(clock), i,
                 last.op == OpClean, Sec(last.now));
  }

  /** Over any run an entry survives exactly when every cleanup keeps it. */
  lemma {:induction false} SurvivesIff(v: Verifier, s: State, t: int, es: seq<Event>, i: int)
    requires Sound(s, t) && Timely(t, es) && 0 <= i < |s.chunks|
    ensures i in RunOrigins(v, s, es) <==> KeptThrough(s.chunks[i], es)
  {
    if es == [] {
      assert RunOrigins(v, s, es)[i] == i;
    } else {
      SurvivesIff(v, s, t, es[..|es| - 1], i);
      KeptThroughSplit(s.chunks[i], es);
      LastStepSurvival(v, s, t, es, i);
    }
  }

  // ---------------------------------------------------------------- merging

  /** Records of one chunk as far as a client can tell: all fields that never change are equal. */
  ghost predicate SameChunk(r: Record, q: Record) {
    && r.fileId == q.fileId && r.index == q.index && r.sender == q.sender && r.recipient == q.recipient
    && r.hash == q.hash && r.peerId == q.peerId && r.persist == q.persist && r.createdAt == q.createdAt
    && r.ttl == q.ttl
  }

  ghost predicate Superseded(r: Record, polled: seq<Record>) {
    exists i :: 0 <= i < |polled| && SameChunk(r, polled[i])
  }

  /** A polled record replaces the held records of the same chunk. */
  ghost function Merge(held: seq<Record>, polled: seq<Record>): seq<Record> {
    Collect(held, (r: Record) => !Superseded(r, polled), (r: Record) => r) + polled
  }

  lemma MergeHolds(held: seq<Record>, polled: seq<Record>, r: Record)
    ensures r in Merge(held, polled) <==> (r in held && !Superseded(r, polled)) || r in polled
  {
    var p, f := (x: Record) => !Superseded(x, polled), (x: Record) => x;
    CollectIs(held, p, f, r);
    if r in held && !Superseded(r, polled) {
      var i :| 0 <= i < |held| && held[i] == r;
      assert CollectedAt(held, p, f, i, r);
    }
  }

  /** No other entry looks like the same chunk. */
  ghost predicate Alone(c: seq<Entry>, i: int) {
    0 <= i < |c| && forall j :: 0 <= j < |c| && j != i ==> !Same(c[i], c[j])
  }

  /** The held records know every lone entry of the recipient in its current version, and in no other. */
  ghost predicate UpToDate(c: seq<Entry>, recipient: string, held: seq<Record>) {
    && (forall i :: Alone(c, i) && c[i].recipient == recipient ==> RecordOf(c[i]) in held)
    && (forall i, r :: Alone(c, i) && c[i].recipient == recipient && r in held && SameChunk(RecordOf(c[i]), r) ==>
          r == RecordOf(c[i]))
  }

  lemma PolledIff(c: seq<Entry>, recipient: string, from: int, i: int)
    requires 0 <= i < |c| && c[i].recipient == recipient
    ensures c[i].updatedAt >= from ==> RecordOf(c[i]) in RecordsFor(c, recipient, from)
    ensures c[i].updatedAt < from ==> RecordOf(c[i]) !in RecordsFor(c, recipient, from)
  {
    RecordsForAre(c, recipient, from, RecordOf(c[i]));
    assert c[i].updatedAt >= from ==> ListedFor(c, recipient, from, i, RecordOf(c[i]));
  }

  /** For a lone entry, the only polled record of its chunk is its own. */
  lemma LonePolled(c: seq<Entry>, recipient: string, from: int, i: int, r: Record)
    requires Alone(c, i) && r in RecordsFor(c, recipient, from) && SameChunk(RecordOf(c[i]), r)
    ensures r == RecordOf(c[i]) && c[i].updatedAt >= from
  {
    RecordsForAre(c, recipient, from, r);
    var m :| ListedFor(c, recipient, from, m, r);
    assert Same(c[i], c[m]);
  }

  lemma TwinsStayTwins(e: Entry, f: Entry, e': Entry, f': Entry, from: int)
    requires Evolves(e, e', from) && Evolves(f, f', from)
    ensures Same(e', f') == Same(e, f)
  {
  }

  lemma SameTransitive(r: Record, q: Record, p: Record)
    ensures SameChunk(r, q) ==> SameChunk(q, r)
    ensures SameChunk(r, q) && SameChunk(q, p) ==> SameChunk(r, p)
  {
  }

  /** An entry that is alone at the end was alone before, for entries that look alike expire alike. */
  lemma AloneBefore(v: Verifier, s: State, t: int, es: seq<Event>, j: int)
    requires Sound(s, t) && Timely(t, es)
    requires Alone(Exec(v, s, es).chunks, j) && RunOrigins(v, s, es)[j] >= 0
    requires |RunOrigins(v, s, es)| == |Exec(v, s, es).chunks|
    ensures Alone(s.chunks, RunOrigins(v, s, es)[j])
  {
    EntriesEvolve(v, s, t, es);
    var c, c', o := s.chunks, Exec(v, s, es).chunks, RunOrigins(v, s, es);
    var i := o[j];
    forall m | 0 <= m < |c| && m != i
      ensures !Same(c[i], c[m])
    {
      if Same(c[i], c[m]) {
        SurvivesIff(v, s, t, es, i);
        SurvivesIff(v, s, t, es, m);
        KeptAlike(c[i], c[m], es);
        var k :| 0 <= k < |o| && o[k] == m;
        TwinsStayTwins(c[i], c[m], c'[j], c'[k], Sec(t));
      }
    }
  }

  lemma MergeKnowsLone(v: Verifier, s: State, t: int, es: seq<Event>, recipient: string, held: seq<Record>, j: int)
    requires Sound(s, t) && Timely(t, es) && UpToDate(s.chunks, recipient, held)
    requires Alone(Exec(v, s, es).chunks, j) && Exec(v, s, es).chunks[j].recipient == recipient
    ensures var c' := Exec(v, s, es).chunks;
            var merged := Merge(held, RecordsFor(c', recipient, Sec(t)));
            && RecordOf(c'[j]) in merged
            && forall r :: r in merged && SameChunk(RecordOf(c'[j]), r) ==> r == RecordOf(c'[j])
  {
    EntriesEvolve(v, s, t, es);
    var c, c', o := s.chunks, Exec(v, s, es).chunks, RunOrigins(v, s, es);
    var polled := RecordsFor(c', recipient, Sec(t));
    var mine := RecordOf(c'[j]);
    PolledIff(c', recipient, Sec(t), j);
    MergeHolds(held, polled, mine);
    if c'[j].updatedAt >= Sec(t) {
      var at :| 0 <= at < |polled| && polled[at] == mine;
      forall r | r in Merge(held, polled) && SameChunk(mine, r)
        ensures r == mine
      {
        MergeHolds(held, polled, r);
        SameTransitive(mine, r, mine);
        assert Superseded(r, polled);
        LonePolled(c', recipient, Sec(t), j, r);
      }
    } else {
      assert o[j] >= 0 && c'[j] == c[o[j]];
      AloneBefore(v, s, t, es, j);
      if Superseded(mine, polled) {
        var at :| 0 <= at < |polled| && SameChunk(mine, polled[at]);
        LonePolled(c', recipient, Sec(t), j, polled[at]);
      }
      forall r | r in Merge(held, polled) && SameChunk(mine, r)
        ensures r == mine
      {
        MergeHolds(held, polled, r);
        if r in polled {
          LonePolled(c', recipient, Sec(t), j, r);
        }
      }
    }
  }

  /** Merging one poll keeps the held records up to date, over whatever happened since the previous one. */
  lemma MergeKeepsUpToDate(v: Verifier, s: State, t: int, es: seq<Event>, recipient: string, held: seq<Record>)
    requires Sound(s, t) && Timely(t, es) && UpToDate(s.chunks, recipient, held)
    ensures var c' := Exec(v, s, es).chunks;
            UpToDate(c', recipient, Merge(held, RecordsFor(c', recipient, Sec(t))))
  {
    var c' := Exec(v, s, es).chunks;
    forall j | Alone(c', j) && c'[j].recipient == recipient
      ensures RecordOf(c'[j]) in Merge(held, RecordsFor(c', recipient, Sec(t)))
      ensures forall r :: r in Merge(held, RecordsFor(c', recipient, Sec(t))) && SameChunk(RecordOf(c'[j]), r) ==>
                r == RecordOf(c'[j])
    {
      MergeKnowsLone(v, s, t, es, recipient, held, j);
    }
  }

  // ---------------------------------------------------------------- any number of rounds

  /** What the merging client holds after its rounds. */
  ghost function Held(v: Verifier, s: State, t: int, rounds: seq<Round>, recipient: string, everything: int)
    : seq<Record>
  {
    if rounds == [] then RecordsFor(s.chunks, recipient, everything)
    else
      var before := rounds[..|rounds| - 1];
      Merge(Held(v, s, t, before, recipient, everything),
            RecordsFor(StateAfter(v, s, rounds).chunks, recipient, Sec(PolledAt(t, before))))
  }

  lemma {:induction false} HeldUpToDate(v: Verifier, s: State, t: int, rounds: seq<Round>, recipient: string,
                                        everything: int)
    requires Sound(s, t) && TimelyRounds(t, rounds)
    requires everything <= Sec(t) && NotBefore(s.chunks, everything)
    ensures UpToDate(StateAfter(v, s, rounds).chunks, recipient, Held(v, s, t, rounds, recipient, everything))
  {
    if rounds == [] {
      forall i | Alone(s.chunks, i) && s.chunks[i].recipient == recipient
        ensures RecordOf(s.chunks[i]) in RecordsFor(s.chunks, recipient, everything)
      {
        PolledIff(s.chunks, recipient, everything, i);
      }
      forall i, r
        | Alone(s.chunks, i) && r in RecordsFor(s.chunks, recipient, everything) && SameChunk(RecordOf(s.chunks[i]), r)
        ensures r == RecordOf(s.chunks[i])
      {
        LonePolled(s.chunks, recipient, everything, i, r);
      }
    } else {
      var before, last := rounds[..|rounds| - 1], rounds[|rounds| - 1];
      HeldUpToDate(v, s, t, before, recipient, everything);
      PollingKeepsUp(v, s, t, before, recipient, everything);
      MergeKeepsUpToDate(v, StateAfter(v, s, before), PolledAt(t, before), last.es, recipient,
                         Held(v, s, t, before, recipient, everything));
    }
  }

  // ---------------------------------------------------------------- twins

  ghost predicate PolledTwin(c: seq<Entry>, recipient: string, from: int, j: int, i: int) {
    0 <= j < |c| && 0 <= i < |c| && c[i].recipient == recipient && c[i].updatedAt >= from && Same(c[j], c[i])
  }

  /**
   * Exactly when one merge loses a current record that was held or is polled: when the record itself is not
   * polled, but another entry that looks like the same chunk is.
   */
  lemma MergeKeepsCurrentIff(c: seq<Entry>, recipient: string, from: int, held: seq<Record>, j: int)
    requires 0 <= j < |c| && c[j].recipient == recipient
    requires c[j].updatedAt >= from || RecordOf(c[j]) in held
    ensures RecordOf(c[j]) in Merge(held, RecordsFor(c, recipient, from))
            <==> c[j].updatedAt >= from || !(exists i :: PolledTwin(c, recipient, from, j, i))
  {
    var polled, mine := RecordsFor(c, recipient, from), RecordOf(c[j]);
    MergeHolds(held, polled, mine);
    PolledIff(c, recipient, from, j);
    if i :| PolledTwin(c, recipient, from, j, i) {
      PolledIff(c, recipient, from, i);
      var k :| 0 <= k < |polled| && polled[k] == RecordOf(c[i]);
      assert Superseded(mine, polled);
    } else if Superseded(mine, polled) {
      var k :| 0 <= k < |polled| && SameChunk(mine, polled[k]);
      RecordsForAre(c, recipient, from, polled[k]);
      var i :| ListedFor(c, recipient, from, i, polled[k]);
      assert PolledTwin(c, recipient, from, j, i);
    }
  }

  ghost predicate Knows(c: seq<Entry>, recipient: string, everything: int, held: seq<Record>) {
    forall r :: r in RecordsFor(c, recipient, everything) ==> r in held
  }

  /** A current entry that the poll leaves out while it returns a twin of it. */
  ghost predicate LosesTwin(c: seq<Entry>, recipient: string, from: int, j: int) {
    && 0 <= j < |c| && c[j].recipient == recipient && c[j].updatedAt < from
    && exists i :: PolledTwin(c, recipient, from, j, i)
  }

  /** A client that knew the whole list still knows it after the next merge iff no entry loses to a twin. */
  lemma StillKnowsIff(v: Verifier, s: State, t: int, es: seq<Event>, recipient: string, held: seq<Record>,
                      everything: int)
    requires Sound(s, t) && Timely(t, es)
    requires everything <= Sec(t) && NotBefore(s.chunks, everything) && Knows(s.chunks, recipient, everything, held)
    ensures var c' := Exec(v, s, es).chunks;
            Knows(c', recipient, everything, Merge(held, RecordsFor(c', recipient, Sec(t))))
            <==> !(exists j :: LosesTwin(c', recipient, Sec(t), j))
  {
    var c', from := Exec(v, s, es).chunks, Sec(t);
    PollMissesNothing(v, s, t, es, recipient, everything);
    NotBeforeLater(v, s, t, es, everything);
    forall j | 0 <= j < |c'| && c'[j].recipient == recipient
      ensures RecordOf(c'[j]) in RecordsFor(c', recipient, everything)
      ensures RecordOf(c'[j]) in Merge(held, RecordsFor(c', recipient, from)) <==> !LosesTwin(c', recipient, from, j)
    {
      PolledIff(c', recipient, everything, j);
      PolledIff(c', recipient, from, j);
      MergeKeepsCurrentIff(c', recipient, from, held, j);
    }
    forall r | r in RecordsFor(c', recipient, everything)
      ensures exists j :: ListedFor(c', recipient, everything, j, r)
    {
      RecordsForAre(c', recipient, everything, r);
    }
  }

  // ---------------------------------------------------------------- the rebuilt list

  /** A held record is current, or no current record is of its chunk. */
  ghost predicate CurrentOrGone(c: seq<Entry>, recipient: string, everything: int, r: Record) {
    var current := RecordsFor(c, recipient, everything);
    r in current || !Superseded(r, current)
  }

  lemma ListedEntry(c: seq<Entry>, recipient: string, from: int, r: Record) returns (i: int)
    requires r in RecordsFor(c, recipient, from)
    ensures ListedFor(c, recipient, from, i, r)
  {
    RecordsForAre(c, recipient, from, r);
    i :| ListedFor(c, recipient, from, i, r);
  }

  /** Of two entries that look alike, one survives a run iff the other does. */
  lemma TwinsSurviveAlike(v: Verifier, s: State, t: int, es: seq<Event>, i: int, m: int)
    requires Sound(s, t) && Timely(t, es) && 0 <= i < |s.chunks| && 0 <= m < |s.chunks|
    requires Same(s.chunks[i], s.chunks[m])
    ensures i in RunOrigins(v, s, es) <==> m in RunOrigins(v, s, es)
  {
    SurvivesIff(v, s, t, es, i);
    SurvivesIff(v, s, t, es, m);
    KeptAlike(s.chunks[i], s.chunks[m], es);
  }

  lemma PolledSupersedes(c: seq<Entry>, recipient: string, from: int, k: int, r: Record)
    requires 0 <= k < |c| && c[k].recipient == recipient && SameChunk(r, RecordOf(c[k])) && c[k].updatedAt >= from
    ensures Superseded(r, RecordsFor(c, recipient, from))
  {
    PolledIff(c, recipient, from, k);
    var polled := RecordsFor(c, recipient, from);
    var at :| 0 <= at < |polled| && polled[at] == RecordOf(c[k]);
  }

  /** A record of a surviving entry is still current, or the poll returns its newer version. */
  lemma CurrentOrPolledAnew(v: Verifier, s: State, t: int, es: seq<Event>, recipient: string, everything: int, m: int)
    requires Sound(s, t) && Timely(t, es) && everything <= Sec(t) && NotBefore(s.chunks, everything)
    requires 0 <= m < |s.chunks| && s.chunks[m].recipient == recipient && m in RunOrigins(v, s, es)
    ensures var c', r := Exec(v, s, es).chunks, RecordOf(s.chunks[m]);
            r in RecordsFor(c', recipient, everything) || Superseded(r, RecordsFor(c', recipient, Sec(t)))
  {
    EntriesEvolve(v, s, t, es);
    var c', o := Exec(v, s, es).chunks, RunOrigins(v, s, es);
    var n :| 0 <= n < |o| && o[n] == m;
    assert Evolves(s.chunks[m], c'[n], Sec(t));
    PolledIff(c', recipient, everything, n);
    if c'[n] != s.chunks[m] {
      PolledSupersedes(c', recipient, Sec(t), n, RecordOf(s.chunks[m]));
    }
  }

  /** An entry that the poll leaves out was there before, unchanged. */
  lemma UnpolledWasCurrent(v: Verifier, s: State, t: int, es: seq<Event>, recipient: string, everything: int, k: int)
    returns (i: int)
    requires Sound(s, t) && Timely(t, es) && NotBefore(s.chunks, everything)
    requires var c' := Exec(v, s, es).chunks;
             0 <= k < |c'| && c'[k].recipient == recipient && c'[k].updatedAt < Sec(t)
    ensures 0 <= i < |s.chunks| && s.chunks[i] == Exec(v, s, es).chunks[k] && i in RunOrigins(v, s, es)
    ensures RecordOf(s.chunks[i]) in RecordsFor(s.chunks, recipient, everything)
  {
    EntriesEvolve(v, s, t, es);
    i := RunOrigins(v, s, es)[k];
    PolledIff(s.chunks, recipient, everything, i);
  }

  /** A current record whose chunk survives unpolled stays current, unless the poll replaces it. */
  lemma SurvivesWithTwin(v: Verifier, s: State, t: int, es: seq<Event>, recipient: string, everything: int,
                         r: Record, i: int)
    requires Sound(s, t) && Timely(t, es) && everything <= Sec(t) && NotBefore(s.chunks, everything)
    requires 0 <= i < |s.chunks| && i in RunOrigins(v, s, es) && SameChunk(r, RecordOf(s.chunks[i]))
    requires r in RecordsFor(s.chunks, recipient, everything)
    ensures var c' := Exec(v, s, es).chunks;
            r in RecordsFor(c', recipient, everything) || Superseded(r, RecordsFor(c', recipient, Sec(t)))
  {
    var m := ListedEntry(s.chunks, recipient, everything, r);
    SameTransitive(r, RecordOf(s.chunks[i]), r);
    TwinsSurviveAlike(v, s, t, es, i, m);
    CurrentOrPolledAnew(v, s, t, es, recipient, everything, m);
  }

  lemma InSupersedes(r: Record, q: Record, list: seq<Record>)
    requires SameChunk(r, q) && q in list
    ensures Superseded(r, list)
  {
    var at :| 0 <= at < |list| && list[at] == q;
  }

  /** A record that the poll does not replace stays current or gone. */
  lemma StaysCurrentOrGone(v: Verifier, s: State, t: int, es: seq<Event>, recipient: string, everything: int, r: Record)
    requires Sound(s, t) && Timely(t, es) && everything <= Sec(t) && NotBefore(s.chunks, everything)
    requires CurrentOrGone(s.chunks, recipient, everything, r)
    requires !Superseded(r, RecordsFor(Exec(v, s, es).chunks, recipient, Sec(t)))
    ensures CurrentOrGone(Exec(v, s, es).chunks, recipient, everything, r)
  {
    var c' := Exec(v, s, es).chunks;
    var current' := RecordsFor(c', recipient, everything);
    if Superseded(r, current') {
      var at :| 0 <= at < |current'| && SameChunk(r, current'[at]);
      var k := ListedEntry(c', recipient, everything, current'[at]);
      if c'[k].updatedAt >= Sec(t) {
        PolledSupersedes(c', recipient, Sec(t), k, r);
      } else {
        var i := UnpolledWasCurrent(v, s, t, es, recipient, everything, k);
        InSupersedes(r, RecordOf(s.chunks[i]), RecordsFor(s.chunks, recipient, everything));
        SurvivesWithTwin(v, s, t, es, recipient, everything, r, i);
      }
    }
  }

  lemma PolledIsCurrent(c: seq<Entry>, recipient: string, everything: int, from: int, r: Record)
    requires everything <= from && r in RecordsFor(c, recipient, from)
    ensures r in RecordsFor(c, recipient, everything)
  {
    var i := ListedEntry(c, recipient, from, r);
    PolledIff(c, recipient, everything, i);
  }

  /** Over any rounds, every held record is current or belongs to a chunk that is gone. */
  lemma {:induction false} HeldIsCurrentOrGone(v: Verifier, s: State, t: int, rounds: seq<Round>, recipient: string,
                                               everything: int, r: Record)
    requires Sound(s, t) && TimelyRounds(t, rounds)
    requires everything <= Sec(t) && NotBefore(s.chunks, everything)
    requires r in Held(v, s, t, rounds, recipient, everything)
    ensures CurrentOrGone(StateAfter(v, s, rounds).chunks, recipient, everything, r)
  {
    if rounds != [] {
      var before, last := rounds[..|rounds| - 1], rounds[|rounds| - 1];
      var mid, at := StateAfter(v, s, before), PolledAt(t, before);
      var c' := StateAfter(v, s, rounds).chunks;
      var held := Held(v, s, t, before, recipient, everything);
      PollingKeepsUp(v, s, t, before, recipient, everything);
      MergeHolds(held, RecordsFor(c', recipient, Sec(at)), r);
      if r in RecordsFor(c', recipient, Sec(at)) {
        PolledIsCurrent(c', recipient, everything, Sec(at), r);
      } else {
        HeldIsCurrentOrGone(v, s, t, before, recipient, everything, r);
        StaysCurrentOrGone(v, mid, at, last.es, recipient, everything, r);
      }
    }
  }

  /** After every round, and at the start, the client holds the whole current list. */
  ghost predicate KnowsThroughout(v: Verifier, s: State, t: int, rounds: seq<Round>, recipient: string,
                                  everything: int)
  {
    && Knows(StateAfter(v, s, rounds).chunks, recipient, everything, Held(v, s, t, rounds, recipient, everything))
    && (rounds == [] || KnowsThroughout(v, s, t, rounds[..|rounds| - 1], recipient, everything))
  }

  /** At the end of some round an entry loses to a twin. */
  ghost predicate SomeLost(v: Verifier, s: State, t: int, rounds: seq<Round>, recipient: string) {
    rounds != []
    && var before := rounds[..|rounds| - 1];
       SomeLost(v, s, t, before, recipient)
       || exists j :: LosesTwin(StateAfter(v, s, rounds).chunks, recipient, Sec(PolledAt(t, before)), j)
  }

  /** A merging client holds the whole current list throughout, exactly when no entry ever loses to a twin. */
  lemma {:induction false} KnowsThroughoutIff(v: Verifier, s: State, t: int, rounds: seq<Round>, recipient: string,
                                              everything: int)
    requires Sound(s, t) && TimelyRounds(t, rounds)
    requires everything <= Sec(t) && NotBefore(s.chunks, everything)
    ensures KnowsThroughout(v, s, t, rounds, recipient, everything) <==> !SomeLost(v, s, t, rounds, recipient)
  {
    if rounds != [] {
      var before, last := rounds[..|rounds| - 1], rounds[|rounds| - 1];
      KnowsThroughoutIff(v, s, t, before, recipient, everything);
      if KnowsThroughout(v, s, t, before, recipient, everything) {
        PollingKeepsUp(v, s, t, before, recipient, everything);
        StillKnowsIff(v, StateAfter(v, s, before), PolledAt(t, before), last.es, recipient,
                      Held(v, s, t, before, recipient, everything), everything);
      }
    }
  }

  /** No two entries of the recipient look like the same chunk. */
  ghost predicate NoTwins(c: seq<Entry>, recipient: string) {
    forall i, j :: 0 <= i < j < |c| && c[i].recipient == recipient ==> !Same(c[i], c[j])
  }

  lemma NoTwinsAlone(c: seq<Entry>, recipient: string, i: int)
    requires NoTwins(c, recipient) && 0 <= i < |c| && c[i].recipient == recipient
    ensures Alone(c, i)
  {
    forall j | 0 <= j < |c| && j != i
      ensures !Same(c[i], c[j])
    {
      SameTransitive(RecordOf(c[i]), RecordOf(c[j]), RecordOf(c[i]));
    }
  }

  /**
   * Over any rounds of polling and merging: every held record is current or belongs to a chunk that is gone; and
   * if no two current entries of the recipient look alike, every current record is held.
   */
  lemma MergingRebuildsTheList(v: Verifier, s: State, t: int, rounds: seq<Round>, recipient: string, everything: int)
    requires Sound(s, t) && TimelyRounds(t, rounds)
    requires everything <= Sec(t) && NotBefore(s.chunks, everything)
    ensures var c, held := StateAfter(v, s, rounds).chunks, Held(v, s, t, rounds, recipient, everything);
            && (forall r :: r in held ==> CurrentOrGone(c, recipient, everything, r))
            && (NoTwins(c, recipient) ==> Knows(c, recipient, everything, held))
  {
    var c, held := StateAfter(v, s, rounds).chunks, Held(v, s, t, rounds, recipient, everything);
    forall r | r in held
      ensures CurrentOrGone(c, recipient, everything, r)
    {
      HeldIsCurrentOrGone(v, s, t, rounds, recipient, everything, r);
    }
    HeldUpToDate(v, s, t, rounds, recipient, everything);
    if NoTwins(c, recipient) {
      forall r | r in RecordsFor(c, recipient, everything)
        ensures r in held
      {
        var i := ListedEntry(c, recipient, everything, r);
        NoTwinsAlone(c, recipient, i);
      }
    }
  }
}
