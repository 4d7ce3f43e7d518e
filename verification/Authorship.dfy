/**
 * Where chunks and their marks come from, over whole runs: each was signed, when it was made, by a live holder of
 * the key it is attributed to.
 */
module Authorship {
  import opened Text
  import opened Keys
  import opened Model
  import opened Payloads
  import opened Store
  import opened ChunkHistory
  import opened Verdicts

  /** An entry as it was appended. */
  function AsRegistered(e: Entry): Entry {
    e.(confirmed := false, readed := false, updatedAt := e.createdAt)
  }

  // ---------------------------------------------------------------- single events

  /** The event registers the entry, signed by a live holder of its sender key. */
  predicate Registers(v: Verifier, s: State, ev: Event, e: Entry) {
    && ev.op.OpSetChunk?
    && e.key == ChunkKey(Trim(ev.op.file), ev.op.index) && e.recipient == Trim(ev.op.chunk.recipient)
    && e.createdAt == Sec(ev.now)
    && HoldsKey(s.peers, ev.op.pick, e.sender, ev.now)
    && Signed(v, s.peers[ev.op.pick], ev.op.chunk.signature, ExpectedPayload(Trim(ev.op.file), ev.op.index, e.hash))
  }

  /** The event confirms the entry with the entry's own hash, signed by a live holder of its recipient key. */
  predicate Confirms(v: Verifier, s: State, ev: Event, e: Entry) {
    && ev.op.OpConfirm?
    && e.key == ChunkKey(Trim(ev.op.confirm.fileId), ev.op.confirm.index)
    && HoldsKey(s.peers, ev.op.pick, e.recipient, ev.now)
    && Signed(v, s.peers[ev.op.pick], ev.op.confirm.signature,
              ConfirmedPayload(Trim(ev.op.confirm.fileId), ev.op.confirm.index, e.hash))
  }

  /** The event marks the entry's file as read, signed by a live holder of its recipient key. */
  predicate Marks(v: Verifier, s: State, ev: Event, e: Entry) {
    && ev.op.OpRead?
    && HoldsKey(s.peers, ev.op.pick, e.recipient, ev.now)
    && Signed(v, s.peers[ev.op.pick], ev.op.read.signature, ReadPayload(KeyFileId(e.key)))
  }

  lemma NewIsRegistered(v: Verifier, s: State, ev: Event, j: int)
    requires 0 <= j < |Next(v, s, ev).chunks| == |Origins(v, s, ev)| && Origins(v, s, ev)[j] < 0
    ensures var e := Next(v, s, ev).chunks[j];
            e == AsRegistered(e) && Registers(v, s, ev, e)
  {
    if !ev.op.OpSetChunk? {
      NothingAppended(v, s, ev);
    }
  }

  lemma NothingAppended(v: Verifier, s: State, ev: Event)
    requires !ev.op.OpSetChunk?
    ensures ev.op == OpClean || |Next(v, s, ev).chunks| == |s.chunks|
  {
    if !ev.op.OpConfirm? && !ev.op.OpRead? && ev.op != OpClean {
      ChunksUntouched(v, s, ev);
    }
  }

  lemma NewlyConfirmed(v: Verifier, s: State, ev: Event, j: int)
    requires 0 <= j < |s.chunks| && ev.op.OpConfirm?
    ensures var c' := Next(v, s, ev).chunks;
            |c'| == |s.chunks| && (c'[j].confirmed ==> s.chunks[j].confirmed || Confirms(v, s, ev, s.chunks[j]))
    ensures Next(v, s, ev).chunks[j].readed == s.chunks[j].readed
  {
  }

  lemma NewlyRead(v: Verifier, s: State, ev: Event, j: int)
    requires 0 <= j < |s.chunks| && ev.op.OpRead?
    ensures var c' := Next(v, s, ev).chunks;
            |c'| == |s.chunks| && (c'[j].readed ==> s.chunks[j].readed || Marks(v, s, ev, s.chunks[j]))
    ensures Next(v, s, ev).chunks[j].confirmed == s.chunks[j].confirmed
  {
  }

  /** An old entry gets a mark only from an event that was signed for it. */
  lemma NewMarksAreSigned(v: Verifier, s: State, t: int, ev: Event, j: int)
    requires Sound(s, t) && t <= ev.now
    requires 0 <= j < |Origins(v, s, ev)| == |Next(v, s, ev).chunks| && 0 <= Origins(v, s, ev)[j] < |s.chunks|
    ensures var e, e' := s.chunks[Origins(v, s, ev)[j]], Next(v, s, ev).chunks[j];
            && AsRegistered(e') == AsRegistered(e)
            && (e'.confirmed ==> e.confirmed || Confirms(v, s, ev, AsRegistered(e)))
            && (e'.readed ==> e.readed || Marks(v, s, ev, AsRegistered(e)))
  {
    NextTracks(v, s, t, ev);
    var i := Origins(v, s, ev)[j];
    assert Evolves(s.chunks[i], Next(v, s, ev).chunks[j], Sec(ev.now));
    if ev.op.OpConfirm? {
      NewlyConfirmed(v, s, ev, i);
    } else if ev.op.OpRead? {
      NewlyRead(v, s, ev, i);
    } else if ev.op != OpClean && !ev.op.OpSetChunk? {
      ChunksUntouched(v, s, ev);
    }
  }

  // ---------------------------------------------------------------- over whole runs

  predicate Registered(v: Verifier, es: seq<Event>, e: Entry) {
    es != []
    && var before := es[..|es| - 1];
       Registered(v, before, e) || Registers(v, Exec(v, EMPTY, before), es[|es| - 1], e)
  }

  predicate Confirmed(v: Verifier, es: seq<Event>, e: Entry) {
    es != []
    && var before := es[..|es| - 1];
       Confirmed(v, before, e) || Confirms(v, Exec(v, EMPTY, before), es[|es| - 1], e)
  }

  predicate MarkedRead(v: Verifier, es: seq<Event>, e: Entry) {
    es != []
    && var before := es[..|es| - 1];
       MarkedRead(v, before, e) || Marks(v, Exec(v, EMPTY, before), es[|es| - 1], e)
  }

  predicate Attested(v: Verifier, es: seq<Event>, e: Entry) {
    && Registered(v, es, AsRegistered(e))
    && (e.confirmed ==> Confirmed(v, es, AsRegistered(e)))
    && (e.readed ==> MarkedRead(v, es, AsRegistered(e)))
  }

  /**
   * After any run, every entry was registered under the signature of a peer that held its sender key then, every
   * confirmed one was confirmed with its own hash under the signature of a peer that held its recipient key then,
   * and every read one was marked under such a signature too.
   */
  lemma {:induction false} EntriesAreAttested(v: Verifier, t: int, es: seq<Event>, j: int)
    requires Timely(t, es) && 0 <= j < |Exec(v, EMPTY, es).chunks|
    ensures Attested(v, es, Exec(v, EMPTY, es).chunks[j])
  {
    if es != [] {
      var before, last := es[..|es| - 1], es[|es| - 1];
      var s := Exec(v, EMPTY, before);
      RunSound(v, EMPTY, t, before);
      NextTracks(v, s, Clock(t, before), last);
      var i := Origins(v, s, last)[j];
      if i < 0 {
        NewIsRegistered(v, s, last, j);
      } else {
        EntriesAreAttested(v, t, before, i);
        NewMarksAreSigned(v, s, Clock(t, before), last, j);
      }
    }
  }
}
