/**
 * internal/webrtc/handler.go: relayed signals under every interleaving of connecting, draining,
 * disconnecting, reconnecting, relaying and polling. Each critical section, map access or socket write
 * is one atomic action; writes may fail at any time.
 */
module Relay {
  import opened Text
  import opened Model

  /** A signal on its way; the token identifies the request that sent it. */
  datatype Letter = Letter(token: nat, target: string, signal: Signal)

  datatype Outcome = Direct | Boxed | Refused

  /** A running relay request. Only the done ones have something to answer. */
  datatype Task =
    | Ready(letter: Letter)
    | Found(letter: Letter, conn: nat)
    | Storing(letter: Letter)
    | Done(letter: Letter, outcome: Outcome, answered: bool)

  datatype Phase = Opened | Draining | Serving | Closed

  datatype Socket = Socket(peer: string, phase: Phase)

  datatype Delivery = Delivery(conn: nat, letter: Letter)

  datatype Hub = Hub(
    registry: map<string, nat>,
    sockets: map<nat, Socket>,
    known: set<string>,
    boxes: map<string, seq<Letter>>,
    drains: map<nat, seq<Letter>>,
    tasks: map<nat, Task>,
    direct: seq<Delivery>,
    flushed: seq<Delivery>,
    lost: seq<Delivery>,
    polled: seq<Letter>)

  const START := Hub(map[], map[], {}, map[], map[], map[], [], [], [], [])

  datatype Action =
    | Begin(token: nat, target: string, signal: Signal)  // handleSignalRelay, handleConnectToPeer
    | Post(token: nat, target: string, signal: Signal)   // the HTTP request that stores a signal
    | Lookup(token: nat)
    | Write(token: nat, ok: bool)
    | Store(token: nat)
    | Answer(token: nat)
    | Open(conn: nat, peer: string)
    | Drain(conn: nat)
    | Flush(conn: nat, ok: bool)
    | Close(conn: nat)
    | Poll(peer: string)
    | Know(peer: string)                                // a registration
    | Forget(peer: string)                              // a deletion

  function Box(boxes: map<string, seq<Letter>>, id: string): seq<Letter> {
    if id in boxes then boxes[id] else []
  }

  /** Whether `SetSignal` accepts the letter. */
  predicate Storable(h: Hub, l: Letter) {
    Trim(l.target) != "" && l.signal.from != "" && l.signal.kind != "" && Trim(l.target) in h.known
  }

  /** Whether an action can happen now. */
  predicate Enabled(h: Hub, a: Action) {
    match a
    case Begin(token, _, _) => token !in h.tasks
    case Post(token, _, _) => token !in h.tasks
    case Lookup(token) => token in h.tasks && h.tasks[token].Ready?
    case Write(token, _) => token in h.tasks && h.tasks[token].Found?
    case Store(token) => token in h.tasks && h.tasks[token].Storing?
    case Answer(token) => token in h.tasks && h.tasks[token].Done? && !h.tasks[token].answered
    case Open(conn, _) => conn !in h.sockets
    case Drain(conn) => conn in h.sockets && h.sockets[conn].phase == Opened
    case Flush(conn, _) =>
      conn in h.sockets && h.sockets[conn].phase == Draining && conn in h.drains && h.drains[conn] != []
    case Close(conn) => conn in h.sockets && h.sockets[conn].phase == Serving
    case _ => true
  }

  function AfterFlush(rest: seq<Letter>): Phase {
    if rest == [] then Serving else Draining
  }

  function Step(h: Hub, a: Action): Hub
    requires Enabled(h, a)
  {
    match a
    case Begin(token, target, signal) => h.(tasks := h.tasks[token := Ready(Letter(token, target, signal))])
    case Post(token, target, signal) => h.(tasks := h.tasks[token := Storing(Letter(token, target, signal))])
    case Lookup(token) =>
      var l := h.tasks[token].letter;
      h.(tasks := h.tasks[token := if l.target in h.registry then Found(l, h.registry[l.target]) else Storing(l)])
    case Write(token, ok) =>
      var l := h.tasks[token].letter;
      if ok then
        h.(tasks := h.tasks[token := Done(l, Direct, false)], direct := h.direct + [Delivery(h.tasks[token].conn, l)])
      else h.(tasks := h.tasks[token := Storing(l)])
    case Store(token) =>
      var l := h.tasks[token].letter;
      var id := Trim(l.target);
      if Storable(h, l) then
        h.(tasks := h.tasks[token := Done(l, Boxed, false)], boxes := h.boxes[id := Box(h.boxes, id) + [l]])
      else h.(tasks := h.tasks[token := Done(l, Refused, false)])
    case Answer(token) => h.(tasks := h.tasks[token := h.tasks[token].(answered := true)])
    case Open(conn, peer) =>
      h.(registry := h.registry[peer := conn], sockets := h.sockets[conn := Socket(peer, Opened)])
    case Drain(conn) =>
      var id := Trim(h.sockets[conn].peer);
      var letters := if id == "" then [] else Box(h.boxes, id);
      h.(boxes := if id == "" then h.boxes else h.boxes - {id},
         drains := h.drains[conn := letters],
         sockets := h.sockets[conn := h.sockets[conn].(phase := AfterFlush(letters))])
    case Flush(conn, ok) =>
      var d := Delivery(conn, h.drains[conn][0]);
      var rest := h.drains[conn][1..];
      var h' := h.(drains := h.drains[conn := rest],
                   sockets := h.sockets[conn := h.sockets[conn].(phase := AfterFlush(rest))]);
      if ok then h'.(flushed := h.flushed + [d]) else h'.(lost := h.lost + [d])
    case Close(conn) =>
      h.(registry := h.registry - {h.sockets[conn].peer},
         sockets := h.sockets[conn := h.sockets[conn].(phase := Closed)])
    case Poll(peer) =>
      var id := Trim(peer);
      if id == "" then h else h.(boxes := h.boxes - {id}, polled := h.polled + Box(h.boxes, id))
    case Know(peer) => if Trim(peer) == "" then h else h.(known := h.known + {Trim(peer)})
    case Forget(peer) => h.(known := h.known - {peer})
  }

  /** The hub after a schedule of actions; an action that cannot happen yet is skipped. */
  function Play(actions: seq<Action>): Hub {
    if actions == [] then START
    else
      var h, a := Play(actions[..|actions| - 1]), actions[|actions| - 1];
      if Enabled(h, a) then Step(h, a) else h
  }

  // ---------------------------------------------------------------- counting letters

  function Copies(letters: seq<Letter>, token: nat): nat {
    if letters == [] then 0
    else Copies(letters[..|letters| - 1], token) + (if letters[|letters| - 1].token == token then 1 else 0)
  }

  function Delivered(ds: seq<Delivery>, token: nat): nat {
    if ds == [] then 0
    else Delivered(ds[..|ds| - 1], token) + (if ds[|ds| - 1].letter.token == token then 1 else 0)
  }

  /** The copies held by all lists of a map together. */
  ghost function Held<K>(m: map<K, seq<Letter>>, token: nat): nat
    decreases m.Keys
  {
    if m.Keys == {} then 0
    else
      var k :| k in m;
      Copies(m[k], token) + Held(m - {k}, token)
  }

  lemma CopiesAppend(a: seq<Letter>, l: Letter, token: nat)
    ensures Copies(a + [l], token) == Copies(a, token) + (if l.token == token then 1 else 0)
  {
    assert (a + [l])[..|a|] == a;
  }

  lemma DeliveredAppend(ds: seq<Delivery>, d: Delivery, token: nat)
    ensures Delivered(ds + [d], token) == Delivered(ds, token) + (if d.letter.token == token then 1 else 0)
  {
    assert (ds + [d])[..|ds|] == ds;
  }

  lemma LastMoves<T>(a: seq<T>, b: seq<T>)
    requires b != []
    ensures a + b == (a + b[..|b| - 1]) + [b[|b| - 1]]
  {
    var n := |b| - 1;
    assert b == b[..n] + [b[n]];
    assert a + (b[..n] + [b[n]]) == (a + b[..n]) + [b[n]];
  }

  lemma {:induction false} CopiesConcat(a: seq<Letter>, b: seq<Letter>, token: nat)
    ensures Copies(a + b, token) == Copies(a, token) + Copies(b, token)
  {
    if b == [] {
      assert a + b == a;
    } else {
      var n := |b| - 1;
      CopiesConcat(a, b[..n], token);
      LastMoves(a, b);
      CopiesAppend(a + b[..n], b[n], token);
    }
  }

  lemma {:induction false} HeldWithout<K>(m: map<K, seq<Letter>>, x: K, token: nat)
    requires x in m
    ensures Held(m, token) == Copies(m[x], token) + Held(m - {x}, token)
    decreases m.Keys
  {
    var k :| k in m && Held(m, token) == Copies(m[k], token) + Held(m - {k}, token);
    if k != x {
      HeldWithout(m - {k}, x, token);
      HeldWithout(m - {x}, k, token);
      assert (m - {k}) - {x} == m - {k, x};
      assert (m - {x}) - {k} == m - {k, x};
    }
  }

  lemma HeldAfter<K>(m: map<K, seq<Letter>>, x: K, letters: seq<Letter>, token: nat)
    ensures Held(m[x := letters], token) == Copies(letters, token) + Held(m - {x}, token)
    ensures Held(m, token) == (if x in m then Copies(m[x], token) else 0) + Held(m - {x}, token)
  {
    HeldWithout(m[x := letters], x, token);
    assert m[x := letters] - {x} == m - {x};
    if x in m {
      HeldWithout(m, x, token);
    } else {
      assert m - {x} == m;
    }
  }

  // ---------------------------------------------------------------- conservation

  predicate EndedAs(h: Hub, token: nat, outcome: Outcome) {
    token in h.tasks && h.tasks[token].Done? && h.tasks[token].outcome == outcome
  }

  /** Where a stored letter may be by now: a mailbox, a connecting socket, written, lost, or polled. */
  ghost function StoredCopies(h: Hub, token: nat): nat {
    Held(h.boxes, token) + Held(h.drains, token) + Delivered(h.flushed, token) + Delivered(h.lost, token)
    + Copies(h.polled, token)
  }

  predicate Tagged(h: Hub) {
    forall t :: t in h.tasks ==> h.tasks[t].letter.token == t
  }

  /**
   * The letter of a request that ended with a direct write was written once; that of a request that
   * ended in the mailbox is in one of the places of a stored letter, once; no other letter is anywhere.
   */
  ghost predicate Conserved(h: Hub, token: nat) {
    && Delivered(h.direct, token) == (if EndedAs(h, token, Direct) then 1 else 0)
    && StoredCopies(h, token) == (if EndedAs(h, token, Boxed) then 1 else 0)
  }

  lemma WriteConserves(h: Hub, x: nat, ok: bool, token: nat)
    requires Conserved(h, token) && Tagged(h) && Enabled(h, Write(x, ok))
    ensures Conserved(Step(h, Write(x, ok)), token)
  {
    assert h.tasks[x].letter.token == x;
    DeliveredAppend(h.direct, Delivery(h.tasks[x].conn, h.tasks[x].letter), token);
  }

  /** Requests that start, look a connection up or send their answer move no letter. */
  lemma RequestConserves(h: Hub, a: Action, token: nat)
    requires Conserved(h, token) && Enabled(h, a)
    requires a.Begin? || a.Post? || a.Lookup? || a.Answer?
    ensures Conserved(Step(h, a), token)
  {
    var h' := Step(h, a);
    assert forall o :: EndedAs(h', token, o) == EndedAs(h, token, o);
  }

  lemma BoxGains(boxes: map<string, seq<Letter>>, id: string, l: Letter, token: nat)
    ensures Held(boxes[id := Box(boxes, id) + [l]], token) == Held(boxes, token) + (if l.token == token then 1 else 0)
  {
    HeldAfter(boxes, id, Box(boxes, id) + [l], token);
    CopiesAppend(Box(boxes, id), l, token);
  }

  lemma BoxedConserves(h: Hub, h': Hub, x: nat, l: Letter, id: string, token: nat)
    requires Conserved(h, token) && x in h.tasks && !h.tasks[x].Done? && l.token == x
    requires h' == h.(tasks := h.tasks[x := Done(l, Boxed, false)], boxes := h.boxes[id := Box(h.boxes, id) + [l]])
    ensures Conserved(h', token)
  {
    BoxGains(h.boxes, id, l, token);
  }

  lemma RefusedConserves(h: Hub, x: nat, l: Letter, token: nat)
    requires Conserved(h, token) && x in h.tasks && !h.tasks[x].Done?
    ensures Conserved(h.(tasks := h.tasks[x := Done(l, Refused, false)]), token)
  {
    var h' := h.(tasks := h.tasks[x := Done(l, Refused, false)]);
    assert EndedAs(h', token, Direct) == EndedAs(h, token, Direct);
    assert EndedAs(h', token, Boxed) == EndedAs(h, token, Boxed);
  }

  lemma StoreConserves(h: Hub, x: nat, token: nat)
    requires Conserved(h, token) && Tagged(h) && Enabled(h, Store(x))
    ensures Conserved(Step(h, Store(x)), token)
  {
    var l := h.tasks[x].letter;
    assert l.token == x;
    if Storable(h, l) {
      BoxedConserves(h, Step(h, Store(x)), x, l, Trim(l.target), token);
    } else {
      RefusedConserves(h, x, l, token);
    }
  }

  /** Taking a mailbox away takes exactly its letters away. */
  lemma BoxTaken(boxes: map<string, seq<Letter>>, id: string, token: nat)
    ensures Held(boxes, token) == Copies(Box(boxes, id), token) + Held(boxes - {id}, token)
  {
    HeldAfter(boxes, id, [], token);
  }

  lemma DrainConserves(h: Hub, conn: nat, token: nat)
    requires Conserved(h, token) && Enabled(h, Drain(conn)) && conn !in h.drains
    ensures Conserved(Step(h, Drain(conn)), token)
  {
    var id := Trim(h.sockets[conn].peer);
    BoxTaken(h.boxes, id, token);
    HeldAfter(h.drains, conn, if id == "" then [] else Box(h.boxes, id), token);
  }

  lemma CopiesOfTail(list: seq<Letter>, token: nat)
    requires list != []
    ensures Copies(list, token) == (if list[0].token == token then 1 else 0) + Copies(list[1..], token)
  {
    assert list == [list[0]] + list[1..];
    CopiesConcat([list[0]], list[1..], token);
    assert [] + [list[0]] == [list[0]];
    CopiesAppend([], list[0], token);
  }

  /** The written letter leaves the list of its socket. */
  lemma DrainShortens(drains: map<nat, seq<Letter>>, conn: nat, token: nat)
    requires conn in drains && drains[conn] != []
    ensures Held(drains, token)
         == (if drains[conn][0].token == token then 1 else 0) + Held(drains[conn := drains[conn][1..]], token)
  {
    HeldAfter(drains, conn, drains[conn][1..], token);
    CopiesOfTail(drains[conn], token);
  }

  lemma FlushShortens(h: Hub, conn: nat, ok: bool, token: nat)
    requires Enabled(h, Flush(conn, ok))
    ensures Held(h.drains, token)
         == (if h.drains[conn][0].token == token then 1 else 0) + Held(Step(h, Flush(conn, ok)).drains, token)
  {
    DrainShortens(h.drains, conn, token);
  }

  lemma FlushDelivers(h: Hub, conn: nat, ok: bool, token: nat)
    requires Enabled(h, Flush(conn, ok))
    ensures var h' := Step(h, Flush(conn, ok));
            Delivered(h'.flushed, token) + Delivered(h'.lost, token)
            == Delivered(h.flushed, token) + Delivered(h.lost, token)
               + (if h.drains[conn][0].token == token then 1 else 0)
  {
    DeliveredAppend(if ok then h.flushed else h.lost, Delivery(conn, h.drains[conn][0]), token);
  }

  lemma FlushLeavesRest(h: Hub, conn: nat, ok: bool)
    requires Enabled(h, Flush(conn, ok))
    ensures var h' := Step(h, Flush(conn, ok));
            h'.tasks == h.tasks && h'.boxes == h.boxes && h'.direct == h.direct && h'.polled == h.polled
  {
  }

  lemma FlushConserves(h: Hub, conn: nat, ok: bool, token: nat)
    requires Conserved(h, token) && Enabled(h, Flush(conn, ok))
    ensures Conserved(Step(h, Flush(conn, ok)), token)
  {
    FlushShortens(h, conn, ok, token);
    FlushDelivers(h, conn, ok, token);
    FlushLeavesRest(h, conn, ok);
  }

  lemma PollConserves(h: Hub, peer: string, token: nat)
    requires Conserved(h, token)
    ensures Conserved(Step(h, Poll(peer)), token)
  {
    var id := Trim(peer);
    BoxTaken(h.boxes, id, token);
    CopiesConcat(h.polled, Box(h.boxes, id), token);
  }

  // ---------------------------------------------------------------- addressing

  predicate AllFor(letters: seq<Letter>, id: string) {
    forall i :: 0 <= i < |letters| ==> Trim(letters[i].target) == id
  }

  /** Letters are only ever kept for, and written to, the peer they are addressed to. */
  ghost predicate Addressed(h: Hub) {
    && (forall p :: p in h.registry ==> h.registry[p] in h.sockets && h.sockets[h.registry[p]].peer == p)
    && (forall p :: p in h.boxes ==> AllFor(h.boxes[p], p))
    && (forall c :: c in h.drains ==>
          c in h.sockets && h.sockets[c].phase != Opened && AllFor(h.drains[c], Trim(h.sockets[c].peer)))
    && (forall t :: t in h.tasks && h.tasks[t].Found? ==>
          h.tasks[t].conn in h.sockets && h.sockets[h.tasks[t].conn].peer == h.tasks[t].letter.target)
    && (forall i :: 0 <= i < |h.direct| ==>
          h.direct[i].conn in h.sockets && h.sockets[h.direct[i].conn].peer == h.direct[i].letter.target)
    && DeliveredFor(h.sockets, h.flushed) && DeliveredFor(h.sockets, h.lost)
  }

  predicate DeliveredFor(sockets: map<nat, Socket>, ds: seq<Delivery>) {
    forall i :: 0 <= i < |ds| ==> ds[i].conn in sockets && Trim(sockets[ds[i].conn].peer) == Trim(ds[i].letter.target)
  }

  lemma RequestsAddressed(h: Hub, a: Action)
    requires Addressed(h) && Enabled(h, a)
    requires a.Begin? || a.Post? || a.Lookup? || a.Write? || a.Answer?
    ensures Addressed(Step(h, a))
  {
  }

  lemma StoreAddressed(h: Hub, x: nat)
    requires Addressed(h) && Enabled(h, Store(x))
    ensures Addressed(Step(h, Store(x)))
  {
    var l := h.tasks[x].letter;
    var id := Trim(l.target);
    assert AllFor(Box(h.boxes, id) + [l], id);
  }

  lemma DrainAddressed(h: Hub, conn: nat)
    requires Addressed(h) && Enabled(h, Drain(conn))
    ensures Addressed(Step(h, Drain(conn)))
  {
  }

  lemma FlushAddressed(h: Hub, conn: nat, ok: bool)
    requires Addressed(h) && Enabled(h, Flush(conn, ok))
    ensures Addressed(Step(h, Flush(conn, ok)))
  {
    var list := h.drains[conn];
    assert AllFor(list[1..], Trim(h.sockets[conn].peer)) && Trim(list[0].target) == Trim(h.sockets[conn].peer);
  }

  lemma OpenCloseAddressed(h: Hub, a: Action)
    requires Addressed(h) && Enabled(h, a)
    requires a.Open? || a.Close? || a.Poll? || a.Know? || a.Forget?
    ensures Addressed(Step(h, a))
  {
  }

  lemma StepAddressed(h: Hub, a: Action)
    requires Addressed(h) && Enabled(h, a)
    ensures Addressed(Step(h, a))
  {
    match a
    case Store(x) => StoreAddressed(h, x);
    case Drain(conn) => DrainAddressed(h, conn);
    case Flush(conn, ok) => FlushAddressed(h, conn, ok);
    case Begin(_, _, _) => RequestsAddressed(h, a);
    case Post(_, _, _) => RequestsAddressed(h, a);
    case Lookup(_) => RequestsAddressed(h, a);
    case Write(_, _) => RequestsAddressed(h, a);
    case Answer(_) => RequestsAddressed(h, a);
    case _ => OpenCloseAddressed(h, a);
  }

  lemma StepTagged(h: Hub, a: Action)
    requires Tagged(h) && Enabled(h, a)
    ensures Tagged(Step(h, a))
  {
  }

  lemma StepConserves(h: Hub, a: Action, token: nat)
    requires Conserved(h, token) && Tagged(h) && Addressed(h) && Enabled(h, a)
    ensures Conserved(Step(h, a), token)
  {
    match a
    case Store(x) => StoreConserves(h, x, token);
    case Drain(conn) => DrainConserves(h, conn, token);
    case Flush(conn, ok) => FlushConserves(h, conn, ok, token);
    case Poll(peer) => PollConserves(h, peer, token);
    case Write(x, ok) => WriteConserves(h, x, ok, token);
    case Open(_, _) =>
    case Close(_) =>
    case Know(_) =>
    case Forget(_) =>
    case _ => RequestConserves(h, a, token);
  }

  lemma {:induction false} EveryScheduleConserves(actions: seq<Action>, token: nat)
    ensures Conserved(Play(actions), token) && Tagged(Play(actions)) && Addressed(Play(actions))
  {
    if actions != [] {
      var h, a := Play(actions[..|actions| - 1]), actions[|actions| - 1];
      EveryScheduleConserves(actions[..|actions| - 1], token);
      if Enabled(h, a) {
        StepTagged(h, a);
        StepAddressed(h, a);
        StepConserves(h, a, token);
      }
    }
  }

  /**
   * Under every interleaving: a request that is answered with a result has its letter in exactly one
   * place, either written directly or stored but not both; the letter of any other request is nowhere.
   */
  lemma RelayedExactlyOnce(actions: seq<Action>, token: nat)
    ensures var h := Play(actions);
            var ended := EndedAs(h, token, Direct) || EndedAs(h, token, Boxed);
            && Delivered(h.direct, token) + StoredCopies(h, token) == (if ended then 1 else 0)
            && (Delivered(h.direct, token) == 1 <==> EndedAs(h, token, Direct))
            && (StoredCopies(h, token) == 1 <==> EndedAs(h, token, Boxed))
  {
    EveryScheduleConserves(actions, token);
  }

  /** Whatever is written to a socket was addressed to the peer that opened it. */
  lemma WrittenToTheAddressee(actions: seq<Action>, d: Delivery)
    requires d in Play(actions).direct || d in Play(actions).flushed
    ensures var h := Play(actions);
            && d.conn in h.sockets
            && Trim(h.sockets[d.conn].peer) == Trim(d.letter.target)
            && (d in h.direct ==> h.sockets[d.conn].peer == d.letter.target)
  {
    EveryScheduleConserves(actions, 0);
  }

  // ---------------------------------------------------------------- reachability of connections

  /** Every socket that is not closed is the one that relays to its peer find. */
  predicate AllReachable(h: Hub) {
    forall c :: c in h.sockets && h.sockets[c].phase != Closed ==>
      h.sockets[c].peer in h.registry && h.registry[h.sockets[c].peer] == c
  }

  predicate HasOpenSocket(h: Hub, peer: string) {
    exists c :: c in h.sockets && h.sockets[c].phase != Closed && h.sockets[c].peer == peer
  }

  /** Opening a socket keeps all sockets reachable exactly when its peer has no other open one. */
  lemma OpeningKeepsReachableIff(h: Hub, conn: nat, peer: string)
    requires AllReachable(h) && Enabled(h, Open(conn, peer))
    ensures AllReachable(Step(h, Open(conn, peer))) <==> !HasOpenSocket(h, peer)
  {
    var h' := Step(h, Open(conn, peer));
    if HasOpenSocket(h, peer) {
      var c :| c in h.sockets && h.sockets[c].phase != Closed && h.sockets[c].peer == peer;
      assert c in h'.sockets && h'.sockets[c].phase != Closed && h'.registry[peer] == conn;
    }
  }

  /** A peer opens a socket while an older one of it is still open. */
  predicate Reconnects(actions: seq<Action>) {
    actions != []
    && var before, a := actions[..|actions| - 1], actions[|actions| - 1];
       Reconnects(before) || (a.Open? && Enabled(Play(before), a) && HasOpenSocket(Play(before), a.peer))
  }

  /** At the end of the schedule and at every moment before. */
  predicate ReachableThroughout(actions: seq<Action>) {
    AllReachable(Play(actions)) && (actions == [] || ReachableThroughout(actions[..|actions| - 1]))
  }

  lemma OthersKeepReachable(h: Hub, a: Action)
    requires AllReachable(h) && Enabled(h, a) && !a.Open?
    ensures AllReachable(Step(h, a))
  {
  }

  /** Relays find every open socket throughout a schedule iff no peer reconnects before its old socket is closed. */
  lemma {:induction false} ReachableIffNoReconnects(actions: seq<Action>)
    ensures ReachableThroughout(actions) <==> !Reconnects(actions)
  {
    if actions != [] {
      var before, a := actions[..|actions| - 1], actions[|actions| - 1];
      ReachableIffNoReconnects(before);
      var h := Play(before);
      if Enabled(h, a) && AllReachable(h) {
        if a.Open? {
          OpeningKeepsReachableIff(h, a.conn, a.peer);
        } else {
          OthersKeepReachable(h, a);
        }
      }
    }
  }

  /** When an old socket of a peer closes, the newer one, although open, is no longer found. */
  lemma OldSocketUnregistersNew(h: Hub, older: nat, newer: nat)
    requires Enabled(h, Close(older)) && newer in h.sockets && newer != older
    requires h.sockets[newer].phase != Closed && h.sockets[newer].peer == h.sockets[older].peer
    ensures var h' := Step(h, Close(older));
            h'.sockets[newer].phase != Closed && h'.sockets[newer].peer !in h'.registry
  {
  }

  /** One peer connects twice, and its first socket closes. */
  function Reconnection(p: string): seq<Action> {
    [Open(1, p), Drain(1), Open(2, p), Drain(2), Close(1)]
  }

  lemma PlayedOneMore(actions: seq<Action>, a: Action)
    requires Enabled(Play(actions), a)
    ensures Play(actions + [a]) == Step(Play(actions), a)
  {
    assert (actions + [a])[..|actions|] == actions;
  }

  lemma OpensAndDrains(h: Hub, conn: nat, p: string)
    requires conn !in h.sockets && h.boxes == map[]
    ensures var h1 := Step(h, Open(conn, p));
            && Enabled(h1, Drain(conn))
            && var h2 := Step(h1, Drain(conn));
               h2.sockets == h.sockets[conn := Socket(p, Serving)] && h2.registry == h.registry[p := conn]
               && h2.boxes == map[]
  {
    var h1 := Step(h, Open(conn, p));
    assert h1.sockets[conn] == Socket(p, Opened) && Box(h1.boxes, Trim(p)) == [];
  }

  lemma ConnectsWithoutMail(actions: seq<Action>, conn: nat, p: string)
    requires conn !in Play(actions).sockets && Play(actions).boxes == map[]
    ensures var h, h' := Play(actions), Play(actions + [Open(conn, p)] + [Drain(conn)]);
            && h'.sockets == h.sockets[conn := Socket(p, Serving)] && h'.registry == h.registry[p := conn]
            && h'.boxes == map[]
  {
    OpensAndDrains(Play(actions), conn, p);
    PlayedOneMore(actions, Open(conn, p));
    PlayedOneMore(actions + [Open(conn, p)], Drain(conn));
  }

  /** A schedule that ends with a socket that serves its peer and that no relay finds. */
  lemma ReconnectionLosesThePeer(p: string)
    ensures var h := Play(Reconnection(p));
            2 in h.sockets && h.sockets[2] == Socket(p, Serving) && p !in h.registry
  {
    var once := [Open(1, p), Drain(1)];
    var twice := once + [Open(2, p)] + [Drain(2)];
    assert [] + [Open(1, p)] + [Drain(1)] == once;
    ConnectsWithoutMail([], 1, p);
    ConnectsWithoutMail(once, 2, p);
    PlayedOneMore(twice, Close(1));
    assert twice + [Close(1)] == Reconnection(p);
  }
}
