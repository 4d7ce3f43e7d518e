/** Concrete runs, from an empty store, in which a promise is broken. */
module Witnesses {
  import opened Text
  import opened Keys
  import opened Model
  import opened Payloads
  import opened Store
  import opened ChunkHistory
  import opened ChunkLaws
  import opened Polling
  import opened UniqueKeys
  import opened Acceptance

  // ---------------------------------------------------------------- events

  const HASH := "0123456789abcdef"

  function Joins(id: string, login: string, sig: string): Event {
    Event(0, OpUpsert(RegisterRequest(id, login, "", sig, 0, "", None)))
  }

  function Offer(key: string): ChunkRequest {
    ChunkRequest(key, key, HASH, "s", "p", true, 0)
  }

  // A peer that registers chunks for itself, confirms one and reads another.
  const REGISTER := Joins("b", "b", "k")
  const OWNER := Bearer("b", "b", "k")
  const CONFIRM := Event(2 * SECOND, OpConfirm(ConfirmRequest("b:k", "f", 0, HASH, "s"), "b", "b"))
  const MARK := Event(2 * SECOND, OpRead(ReadRequest("b:k", "a", "s"), "b"))

  function Offers(file: string): Event {
    Event(0, OpSetChunk(file, 0, Offer("b:k"), "b"))
  }

  function Offered(file: string): Entry {
    Entry(ChunkKey(file, 0), HASH, "b:k", "b:k", "p", true, false, false, 0, 0, DEFAULT_CHUNK_TTL)
  }

  function AcceptAll(): Verifier {
    (key, signature, message) => true
  }

  // ---------------------------------------------------------------- single steps

  predicate Plain(s: string) {
    s != "" && !IsSpace(s[0]) && !IsSpace(s[|s| - 1])
  }

  lemma TrimPlain(s: string)
    requires Plain(s)
    ensures Trim(s) == s
  {
  }

  lemma RequestTexts()
    ensures Trim("b:k") == "b:k" && Trim("s") == "s" && Trim("p") == "p" && Trim("") == ""
    ensures NormalizeHash(HASH) == HASH && ValidHash(HASH) && PeerKey("b", "k") == "b:k"
  {
    TrimPlain("b:k");
    TrimPlain("s");
    TrimPlain("p");
    TrimPlain(HASH);
    assert Lower(HASH) == HASH;
  }

  lemma JoiningAdds(v: Verifier, s: State, id: string, login: string, sig: string)
    requires Plain(id) && Plain(login) && Plain(sig) && id !in s.peers
    ensures Next(v, s, Joins(id, login, sig)).peers == s.peers[id := Bearer(id, login, sig)]
    ensures Next(v, s, Joins(id, login, sig)).chunks == s.chunks
  {
    RequestTexts();
    TrimPlain(id);
    TrimPlain(login);
    TrimPlain(sig);
  }

  lemma OfferAppends(s: State, file: string)
    requires s.peers == map["b" := OWNER] && Plain(file)
    ensures Next(AcceptAll(), s, Offers(file)) == s.(chunks := s.chunks + [Offered(file)])
  {
    RequestTexts();
    TrimPlain(file);
    assert HoldsKey(s.peers, "b", "b:k", 0);
  }

  lemma RunOfThree(v: Verifier, a: Event, b: Event, c: Event)
    requires a.now <= b.now <= c.now
    ensures Exec(v, EMPTY, [a, b]) == Next(v, Next(v, EMPTY, a), b) && Timely(a.now, [a, b])
    ensures Exec(v, EMPTY, [a, b, c]) == Next(v, Next(v, Next(v, EMPTY, a), b), c)
    ensures Timely(a.now, [a, b, c]) && Clock(a.now, [a, b, c]) == c.now
  {
    assert [a, b, c][..2] == [a, b] && [a, b][..1] == [a] && [a][..0] == [];
    assert Exec(v, EMPTY, [a]) == Next(v, EMPTY, a);
    assert Exec(v, EMPTY, [a, b]) == Next(v, Next(v, EMPTY, a), b);
    assert Timely(a.now, [a]) && Timely(a.now, [a, b]);
  }

  lemma RunOfOne(v: Verifier, s: State, t: int, ev: Event)
    requires t <= ev.now
    ensures Exec(v, s, [ev]) == Next(v, s, ev) && Timely(t, [ev]) && Clock(t, [ev]) == ev.now
  {
    var es := [ev];
    assert |es| == 1 && es[0] == ev && es[..0] == [];
    assert Timely(t, []) && Clock(t, []) == t;
  }

  // ---------------------------------------------------------------- two peers with one key

  /** Two registrations with one login and one signature key, both accepted. */
  lemma TwoPeersWithOneKey(v: Verifier)
    ensures var run := [Joins("p", "a", "k"), Joins("q", "a", "k")];
            var s := Exec(v, EMPTY, run);
            && Timely(0, run) && s.peers == map["p" := Bearer("p", "a", "k"), "q" := Bearer("q", "a", "k")]
            && !Unique(s.peers)
  {
    var s := Next(v, EMPTY, Joins("p", "a", "k"));
    RunOfThree(v, Joins("p", "a", "k"), Joins("q", "a", "k"), REGISTER);
    JoiningAdds(v, EMPTY, "p", "a", "k");
    JoiningAdds(v, s, "q", "a", "k");
    var s' := Next(v, s, Joins("q", "a", "k"));
    assert s'.peers["p"].Key() == s'.peers["q"].Key();
  }

  // ---------------------------------------------------------------- a key with two colons

  /** Accepts the signatures of one key only. */
  function AcceptOnly(key: string): Verifier {
    (k, signature, message) => k == key
  }

  lemma OfferIsDecidedBySignature(v: Verifier, s: State, key: string, pick: string)
    requires Plain(key) && HoldsKey(s.peers, pick, key, 0)
    ensures SetChunk(v, s, 0, "f", 0, Offer(key), pick).1
         == match CheckSignature(v, s.peers[pick], "s", ExpectedPayload("f", 0, HASH))
            case Some(e) => Err(e)
            case None => Ok(())
  {
    RequestTexts();
    TrimPlain("f");
    TrimPlain(key);
  }

  lemma BothHoldTheKey(peers: map<string, Peer>)
    requires peers == map["p" := Bearer("p", "a", "b:c"), "q" := Bearer("q", "a:b", "c")]
    ensures HoldsKey(peers, "p", "a:b:c", 0) && HoldsKey(peers, "q", "a:b:c", 0)
  {
    assert PeerKey("a", "b:c") == "a:b:c" && PeerKey("a:b", "c") == "a:b:c";
  }

  /** Two peers register, and whether a chunk from their key is accepted depends on which of them the search finds. */
  lemma ColonsMakePicksMatterInARun()
    ensures var v, run := AcceptOnly("c"), [Joins("p", "a", "b:c"), Joins("q", "a:b", "c")];
            var s := Exec(v, EMPTY, run);
            && Timely(0, run)
            && LegalPick(s.peers, "a:b:c", 0, "p") && LegalPick(s.peers, "a:b:c", 0, "q")
            && SetChunk(v, s, 0, "f", 0, Offer("a:b:c"), "p").1 == Err(InvalidSignature)
            && SetChunk(v, s, 0, "f", 0, Offer("a:b:c"), "q").1 == Ok(())
  {
    var v := AcceptOnly("c");
    var s1 := Next(v, EMPTY, Joins("p", "a", "b:c"));
    var s := Next(v, s1, Joins("q", "a:b", "c"));
    RunOfThree(v, Joins("p", "a", "b:c"), Joins("q", "a:b", "c"), REGISTER);
    JoiningAdds(v, EMPTY, "p", "a", "b:c");
    JoiningAdds(v, s1, "q", "a:b", "c");
    BothHoldTheKey(s.peers);
    OfferIsDecidedBySignature(v, s, "a:b:c", "p");
    OfferIsDecidedBySignature(v, s, "a:b:c", "q");
    ColonsMakePicksMatter("s", ExpectedPayload("f", 0, HASH));
    assert s.peers["p"].signatureKey == "b:c" != "c" && s.peers["q"].signatureKey == "c";
  }

  // ---------------------------------------------------------------- a stray file id

  lemma MarkMarks(s: State, e: Entry)
    requires s.peers == map["b" := OWNER] && s.chunks == [e] && ReadTarget(e, "b:k", "a")
    ensures Next(AcceptAll(), s, MARK).chunks == [e.(readed := true, updatedAt := 2)]
  {
    RequestTexts();
    TrimPlain("a");
    assert HoldsKey(s.peers, "b", "b:k", MARK.now);
    assert ReadTarget(s.chunks[0], "b:k", "a");
  }

  lemma CollectOne<A, B>(x: A, p: A -> bool, f: A -> B)
    requires p(x)
    ensures Collect([x], p, f) == [f(x)]
  {
    assert [x][..0] == [];
  }

  lemma StrayListing(e: Entry)
    requires e.key == ChunkKey("a#b", 0)
    ensures RecordsOf([e], "a") == [RecordOf(e)] && RecordsOf([e], "a#b") == []
  {
    assert KeyFileId(e.key) == "a" by { StrayWitness(e); }
    CollectOne(e, (x: Entry) => KeyFileId(x.key) == "a", RecordOf);
    ListingWithHashIsEmpty([e], "a#b");
  }

  lemma ReadingTheStray()
    ensures var run := [REGISTER, Offers("a#b"), MARK];
            && Timely(0, run)
            && Exec(AcceptAll(), EMPTY, run).chunks == [Offered("a#b").(readed := true, updatedAt := 2)]
  {
    var s1 := Next(AcceptAll(), EMPTY, REGISTER);
    JoiningAdds(AcceptAll(), EMPTY, "b", "b", "k");
    OfferAppends(s1, "a#b");
    assert ReadTarget(Offered("a#b"), "b:k", "a") by { StrayWitness(Offered("a#b")); }
    MarkMarks(Next(AcceptAll(), s1, Offers("a#b")), Offered("a#b"));
    RunOfThree(AcceptAll(), REGISTER, Offers("a#b"), MARK);
  }

  /** A chunk of "a#b", the only one in the store, is marked by a read of "a", and listed under "a" alone. */
  lemma StrayIsReadAndListed()
    ensures var run := [REGISTER, Offers("a#b"), MARK];
            var c := Exec(AcceptAll(), EMPTY, run).chunks;
            && Timely(0, run) && |c| == 1 && RegisteredFor(c[0], "a#b") && c[0].readed
            && RecordsOf(c, "a") == [RecordOf(c[0])] && RecordsOf(c, "a#b") == []
  {
    ReadingTheStray();
    RegisteredFileOf("a#b", 0);
    StrayListing(Offered("a#b").(readed := true, updatedAt := 2));
  }

  // ---------------------------------------------------------------- a chunk registered twice

  lemma ConfirmMarksTheFirst(s: State)
    requires s.peers == map["b" := OWNER] && s.chunks == [Offered("f"), Offered("f")]
    ensures Next(AcceptAll(), s, CONFIRM).chunks == [Offered("f").(confirmed := true, updatedAt := 2), Offered("f")]
  {
    RequestTexts();
    TrimPlain("f");
    assert HoldsKey(s.peers, "b", "b:k", CONFIRM.now);
    assert FirstFor(s.chunks, Offered("f").key, "b:k") == 0;
  }

  lemma OneRound(v: Verifier, s: State, t: int, ev: Event, recipient: string, everything: int)
    requires t <= ev.now
    ensures var rounds := [Round([ev], ev.now)];
            && TimelyRounds(t, rounds) && StateAfter(v, s, rounds) == Next(v, s, ev)
            && Held(v, s, t, rounds, recipient, everything)
            == Merge(RecordsFor(s.chunks, recipient, everything), RecordsFor(Next(v, s, ev).chunks, recipient, Sec(t)))
  {
    var rounds := [Round([ev], ev.now)];
    RunOfOne(v, s, t, ev);
    assert |rounds| == 1 && rounds[0].es == [ev] && rounds[..0] == [];
    assert StateAfter(v, s, []) == s && PolledAt(t, []) == t && TimelyRounds(t, []);
    assert StateAfter(v, s, rounds) == Next(v, s, ev);
    assert Held(v, s, t, [], recipient, everything) == RecordsFor(s.chunks, recipient, everything);
  }

  /**
   * The client reads the list of a chunk registered twice, the first registration is confirmed, and the next poll
   * replaces both held records by that one, so a current record is lost.
   */
  lemma TwinIsLost()
    ensures var v, twice := AcceptAll(), [REGISTER, Offers("f"), Offers("f")];
            var s, rounds := Exec(v, EMPTY, twice), [Round([CONFIRM], 2 * SECOND)];
            && Timely(0, twice) && Sound(s, SECOND) && TimelyRounds(SECOND, rounds)
            && RecordOf(Offered("f")) in RecordsFor(StateAfter(v, s, rounds).chunks, "b:k", 0)
            && RecordOf(Offered("f")) !in Held(v, s, SECOND, rounds, "b:k", 0)
  {
    var v := AcceptAll();
    var s1 := Next(v, EMPTY, REGISTER);
    var s2 := Next(v, s1, Offers("f"));
    var s := Next(v, s2, Offers("f"));
    JoiningAdds(v, EMPTY, "b", "b", "k");
    OfferAppends(s1, "f");
    OfferAppends(s2, "f");
    RunOfThree(v, REGISTER, Offers("f"), Offers("f"));
    RunSound(v, EMPTY, 0, [REGISTER, Offers("f"), Offers("f")]);
    SoundLater(s, 0, SECOND);
    ConfirmMarksTheFirst(s);
    OneRound(v, s, SECOND, CONFIRM, "b:k", 0);
    assert Sec(SECOND) == 1;
    var c' := Next(v, s, CONFIRM).chunks;
    PolledIff(s.chunks, "b:k", 0, 1);
    PolledIff(c', "b:k", 0, 1);
    assert PolledTwin(c', "b:k", 1, 1, 0);
    MergeKeepsCurrentIff(c', "b:k", 1, RecordsFor(s.chunks, "b:k", 0), 1);
  }
}
