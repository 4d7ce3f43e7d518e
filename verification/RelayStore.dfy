/**
 * The relay's mailboxes are the store's: without their tokens they hold what `Store.SetSignal` and
 * `Store.PollSignals` keep when they are called in the same order.
 */
module RelayStore {
  import opened Text
  import opened Model
  import opened Relay
  import S = Store

  function Signals(letters: seq<Letter>): seq<Signal> {
    seq(|letters|, i requires 0 <= i < |letters| => letters[i].signal)
  }

  ghost predicate SameSignals(boxes: map<string, seq<Letter>>, signals: map<string, seq<Signal>>) {
    forall id :: Signals(Box(boxes, id)) == S.Pending(signals, id)
  }

  ghost predicate Mirrors(h: Hub, s: S.State) {
    h.known == s.peers.Keys && SameSignals(h.boxes, s.signals)
  }

  lemma AppendingKeepsSame(boxes: map<string, seq<Letter>>, signals: map<string, seq<Signal>>, id: string, l: Letter)
    requires SameSignals(boxes, signals)
    ensures SameSignals(boxes[id := Box(boxes, id) + [l]], signals[id := S.Pending(signals, id) + [l.signal]])
  {
    var boxes', signals' := boxes[id := Box(boxes, id) + [l]], signals[id := S.Pending(signals, id) + [l.signal]];
    forall x
      ensures Signals(Box(boxes', x)) == S.Pending(signals', x)
    {
      assert Signals(Box(boxes, x)) == S.Pending(signals, x);
    }
  }

  lemma TakingKeepsSame(boxes: map<string, seq<Letter>>, signals: map<string, seq<Signal>>, id: string)
    requires SameSignals(boxes, signals)
    ensures SameSignals(boxes - {id}, signals - {id})
  {
    forall x
      ensures Signals(Box(boxes - {id}, x)) == S.Pending(signals - {id}, x)
    {
      assert Signals(Box(boxes, x)) == S.Pending(signals, x);
    }
  }

  function Registration(peer: string): RegisterRequest {
    RegisterRequest(peer, "", "", "", 0, "", None)
  }

  /** The call of the store that an action makes, if it makes one. */
  function StoreCall(h: Hub, a: Action): Option<S.Op>
    requires Enabled(h, a)
  {
    match a
    case Store(token) => Some(S.OpSetSignal(h.tasks[token].letter.target, h.tasks[token].letter.signal))
    case Drain(conn) => Some(S.OpPoll(h.sockets[conn].peer))
    case Poll(peer) => Some(S.OpPoll(peer))
    case Know(peer) => Some(S.OpUpsert(Registration(peer)))
    case Forget(peer) => Some(S.OpDelete(peer))
    case _ => None
  }

  function AfterCall(v: Verifier, h: Hub, s: S.State, a: Action): S.State
    requires Enabled(h, a)
  {
    match StoreCall(h, a)
    case None => s
    case Some(op) => S.Next(v, s, S.Event(0, op))
  }

  /** A letter is boxed exactly when the store accepts its signal, which then waits last. */
  lemma StoreMirrors(h: Hub, s: S.State, x: nat)
    requires Mirrors(h, s) && Enabled(h, Store(x))
    ensures var l := h.tasks[x].letter;
            && Mirrors(Step(h, Store(x)), S.SetSignal(s, l.target, l.signal).0)
            && (EndedAs(Step(h, Store(x)), x, Boxed) <==> S.SetSignal(s, l.target, l.signal).1.Ok?)
  {
    var l, h' := h.tasks[x].letter, Step(h, Store(x));
    var id := Trim(l.target);
    AppendingKeepsSame(h.boxes, s.signals, id, l);
    assert h'.known == h.known;
    assert h'.boxes == if Storable(h, l) then h.boxes[id := Box(h.boxes, id) + [l]] else h.boxes;
  }

  lemma PollMirrors(h: Hub, s: S.State, h': Hub, peer: string)
    requires Mirrors(h, s) && h'.known == h.known
    requires h'.boxes == if Trim(peer) == "" then h.boxes else h.boxes - {Trim(peer)}
    ensures Mirrors(h', S.PollSignals(s, peer).0)
  {
    TakingKeepsSame(h.boxes, s.signals, Trim(peer));
  }

  function Polled(s: S.State, peer: string): seq<Signal> {
    var r := S.PollSignals(s, peer).1;
    if r.Ok? then r.value else []
  }

  /** What a connecting socket drains, and what a poll takes, is what the store's poll returns. */
  lemma TakenIsPolled(h: Hub, s: S.State, a: Action)
    requires Mirrors(h, s) && Enabled(h, a)
    ensures a.Drain? ==> Signals(Step(h, a).drains[a.conn]) == Polled(s, h.sockets[a.conn].peer)
    ensures a.Poll? ==> Signals(Step(h, a).polled) == Signals(h.polled) + Polled(s, a.peer)
  {
    if a.Drain? {
      assert Signals(Box(h.boxes, Trim(h.sockets[a.conn].peer))) == S.Pending(s.signals, Trim(h.sockets[a.conn].peer));
    } else if a.Poll? {
      assert Signals(Box(h.boxes, Trim(a.peer))) == S.Pending(s.signals, Trim(a.peer));
    }
  }

  lemma KnowMirrors(h: Hub, s: S.State, peer: string)
    requires Mirrors(h, s)
    ensures Mirrors(Step(h, Know(peer)), S.Upsert(s, 0, Registration(peer)).0)
  {
    var s' := S.Upsert(s, 0, Registration(peer)).0;
    assert s'.signals == s.signals;
    assert Trim(peer) != "" ==> s'.peers.Keys == s.peers.Keys + {Trim(peer)};
  }

  lemma ForgetMirrors(h: Hub, s: S.State, peer: string)
    requires Mirrors(h, s)
    ensures Mirrors(Step(h, Forget(peer)), S.Delete(s, peer).0)
  {
    var s' := S.Delete(s, peer).0;
    assert s'.signals == s.signals;
    assert s'.peers.Keys == s.peers.Keys - {peer};
  }

  lemma StoringMirrors(v: Verifier, h: Hub, s: S.State, a: Action)
    requires Mirrors(h, s) && Enabled(h, a) && a.Store?
    ensures Mirrors(Step(h, a), AfterCall(v, h, s, a))
  {
    StoreMirrors(h, s, a.token);
  }

  lemma TakingMirrors(v: Verifier, h: Hub, s: S.State, a: Action)
    requires Mirrors(h, s) && Enabled(h, a) && (a.Drain? || a.Poll?)
    ensures Mirrors(Step(h, a), AfterCall(v, h, s, a))
  {
    PollMirrors(h, s, Step(h, a), if a.Drain? then h.sockets[a.conn].peer else a.peer);
  }

  lemma PeersMirror(v: Verifier, h: Hub, s: S.State, a: Action)
    requires Mirrors(h, s) && (a.Know? || a.Forget?)
    ensures Mirrors(Step(h, a), AfterCall(v, h, s, a))
  {
    match a
    case Know(peer) => KnowMirrors(h, s, peer);
    case Forget(peer) => ForgetMirrors(h, s, peer);
  }

  lemma OthersMirror(h: Hub, a: Action)
    requires Enabled(h, a) && !a.Store? && !a.Drain? && !a.Poll? && !a.Know? && !a.Forget?
    ensures StoreCall(h, a) == None && Step(h, a).boxes == h.boxes && Step(h, a).known == h.known
  {
  }

  /** Every action keeps the relay's mailboxes equal to those of the store it calls. */
  lemma StepMirrors(v: Verifier, h: Hub, s: S.State, a: Action)
    requires Mirrors(h, s) && Enabled(h, a)
    ensures Mirrors(Step(h, a), AfterCall(v, h, s, a))
  {
    if a.Store? {
      StoringMirrors(v, h, s, a);
    } else if a.Drain? || a.Poll? {
      TakingMirrors(v, h, s, a);
    } else if a.Know? || a.Forget? {
      PeersMirror(v, h, s, a);
    } else {
      OthersMirror(h, a);
    }
  }

  /** The store after the calls of a schedule. */
  function StorePlayed(v: Verifier, actions: seq<Action>): S.State {
    if actions == [] then S.EMPTY
    else
      var before, a := actions[..|actions| - 1], actions[|actions| - 1];
      var s := StorePlayed(v, before);
      if Enabled(Play(before), a) then AfterCall(v, Play(before), s, a) else s
  }

  /** Under every schedule the relay and the store that it calls hold the same signals, in the same order. */
  lemma {:induction false} MailboxesAreTheStores(v: Verifier, actions: seq<Action>)
    ensures Mirrors(Play(actions), StorePlayed(v, actions))
  {
    if actions != [] {
      var before, a := actions[..|actions| - 1], actions[|actions| - 1];
      MailboxesAreTheStores(v, before);
      if Enabled(Play(before), a) {
        StepMirrors(v, Play(before), StorePlayed(v, before), a);
      }
    }
  }
}
