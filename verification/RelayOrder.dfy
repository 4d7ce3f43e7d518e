/**
 * The order of relayed letters under every schedule: a mailbox is a queue, and what a socket takes out of it is
 * written in that order.
 */
module RelayOrder {
  import opened Text
  import opened Model
  import opened Relay
  import opened Mailboxes

  // ---------------------------------------------------------------- mailboxes

  /** The letter that an action puts into the mailbox of `id`. */
  function StoredBy(h: Hub, a: Action, id: string): seq<Letter> {
    if a.Store? && Enabled(h, a) && Storable(h, h.tasks[a.token].letter) && Trim(h.tasks[a.token].letter.target) == id
    then [h.tasks[a.token].letter]
    else []
  }

  /** Whether an action empties the mailbox of `id`: a connecting socket of the peer, or a poll. */
  predicate Takes(h: Hub, a: Action, id: string) {
    Enabled(h, a) && id != "" && ((a.Drain? && Trim(h.sockets[a.conn].peer) == id) || (a.Poll? && Trim(a.peer) == id))
  }

  /** The letters it hands over. */
  function TakenBy(h: Hub, a: Action, id: string): seq<Letter> {
    if !Takes(h, a, id) then []
    else if a.Drain? then (var h' := Step(h, a); if a.conn in h'.drains then h'.drains[a.conn] else [])
    else Step(h, a).polled[|h.polled|..]
  }

  /** All letters stored for a peer, in order of storing. */
  function StoredFor(actions: seq<Action>, id: string): seq<Letter> {
    if actions == [] then []
    else
      var before := actions[..|actions| - 1];
      StoredFor(before, id) + StoredBy(Play(before), actions[|actions| - 1], id)
  }

  /** What its sockets drained and its polls took, in order. */
  function TakenFor(actions: seq<Action>, id: string): seq<Letter> {
    if actions == [] then []
    else
      var before := actions[..|actions| - 1];
      TakenFor(before, id) + TakenBy(Play(before), actions[|actions| - 1], id)
  }

  lemma OthersLeaveMailboxes(h: Hub, a: Action)
    requires Enabled(h, a) && !a.Store? && !a.Drain? && !a.Poll?
    ensures Step(h, a).boxes == h.boxes
  {
  }

  lemma DrainTakesBox(h: Hub, a: Action, id: string)
    requires Enabled(h, a) && a.Drain?
    ensures TakenBy(h, a, id) + Box(Step(h, a).boxes, id) == Box(h.boxes, id)
  {
  }

  lemma PollTakesBox(h: Hub, a: Action, id: string)
    requires Enabled(h, a) && a.Poll?
    ensures TakenBy(h, a, id) + Box(Step(h, a).boxes, id) == Box(h.boxes, id)
  {
  }

  lemma MailboxAfter(h: Hub, a: Action, id: string)
    requires Enabled(h, a)
    ensures TakenBy(h, a, id) + Box(Step(h, a).boxes, id) == Box(h.boxes, id) + StoredBy(h, a, id)
  {
    if a.Drain? {
      DrainTakesBox(h, a, id);
    } else if a.Poll? {
      PollTakesBox(h, a, id);
    } else if !a.Store? {
      OthersLeaveMailboxes(h, a);
    }
  }

  /**
   * For every peer and under every schedule: what its sockets drained and its polls took, in order, followed by
   * its mailbox, is the list of the letters stored for it, in order of storing.
   */
  lemma {:induction false} LettersQueue(actions: seq<Action>, id: string)
    ensures TakenFor(actions, id) + Box(Play(actions).boxes, id) == StoredFor(actions, id)
  {
    if actions != [] {
      var before, a := actions[..|actions| - 1], actions[|actions| - 1];
      var h, h' := Play(before), Play(actions);
      LettersQueue(before, id);
      if Enabled(h, a) {
        MailboxAfter(h, a, id);
      }
      QueueStep(TakenFor(before, id), Box(h.boxes, id), [], StoredFor(before, id),
                TakenBy(h, a, id), Box(h'.boxes, id), StoredBy(h, a, id));
    }
  }

  // ---------------------------------------------------------------- sockets

  function Undrained(h: Hub, conn: nat): seq<Letter> {
    if conn in h.drains then h.drains[conn] else []
  }

  /** The letter that an action writes to the socket, whether or not the write succeeds. */
  function WrittenBy(h: Hub, a: Action, conn: nat): seq<Letter> {
    if !Enabled(h, a) || !a.Flush? || a.conn != conn then []
    else
      var ds := if a.ok then Step(h, a).flushed else Step(h, a).lost;
      if ds == [] || ds[|ds| - 1].conn != conn then [] else [ds[|ds| - 1].letter]
  }

  function WrittenTo(actions: seq<Action>, conn: nat): seq<Letter> {
    if actions == [] then []
    else
      var before := actions[..|actions| - 1];
      WrittenTo(before, conn) + WrittenBy(Play(before), actions[|actions| - 1], conn)
  }

  /** What the socket drained when it connected. */
  function DrainedBy(actions: seq<Action>, conn: nat): seq<Letter> {
    if actions == [] then []
    else
      var before, a := actions[..|actions| - 1], actions[|actions| - 1];
      if a == Drain(conn) && Enabled(Play(before), a) then Undrained(Play(actions), conn) else DrainedBy(before, conn)
  }

  lemma WritesInOrder(h: Hub, a: Action, conn: nat)
    requires Enabled(h, a) && a != Drain(conn)
    ensures WrittenBy(h, a, conn) + Undrained(Step(h, a), conn) == Undrained(h, conn)
  {
  }

  lemma DrainsStay(h: Hub, a: Action, conn: nat)
    requires Enabled(h, a) && conn in h.drains
    ensures conn in Step(h, a).drains
  {
  }

  lemma {:induction false} NothingWrittenYet(actions: seq<Action>, conn: nat)
    requires conn !in Play(actions).drains
    ensures WrittenTo(actions, conn) == []
  {
    if actions != [] {
      var before, a := actions[..|actions| - 1], actions[|actions| - 1];
      if Enabled(Play(before), a) && conn in Play(before).drains {
        DrainsStay(Play(before), a, conn);
      } else {
        NothingWrittenYet(before, conn);
      }
    }
  }

  lemma WritesContinue<T>(written: seq<T>, left: seq<T>, drained: seq<T>, written': seq<T>, left': seq<T>)
    requires written + left == drained && written' + left' == left
    ensures (written + written') + left' == drained
  {
    assert (written + written') + left' == written + (written' + left');
  }

  lemma NothingBeforeDrain(before: seq<Action>, conn: nat)
    requires Enabled(Play(before), Drain(conn))
    ensures WrittenTo(before, conn) == []
  {
    EveryScheduleConserves(before, 0);
    NothingWrittenYet(before, conn);
  }

  /** Every letter a socket drained is written to it once, in the order of the mailbox, until the socket is served. */
  lemma {:induction false} DrainedIsWritten(actions: seq<Action>, conn: nat)
    ensures WrittenTo(actions, conn) + Undrained(Play(actions), conn) == DrainedBy(actions, conn)
  {
    if actions != [] {
      var before, a := actions[..|actions| - 1], actions[|actions| - 1];
      var h, h' := Play(before), Play(actions);
      if a == Drain(conn) && Enabled(h, a) {
        NothingBeforeDrain(before, conn);
      } else {
        DrainedIsWritten(before, conn);
        if Enabled(h, a) {
          WritesInOrder(h, a, conn);
        }
        WritesContinue(WrittenTo(before, conn), Undrained(h, conn), DrainedBy(before, conn),
                       WrittenBy(h, a, conn), Undrained(h', conn));
      }
    }
  }

  /** A socket is draining exactly as long as it has something left to write. */
  ghost predicate PhaseFits(h: Hub, conn: nat) {
    conn in h.sockets ==>
      && (h.sockets[conn].phase == Opened ==> conn !in h.drains)
      && (h.sockets[conn].phase == Draining <==> Undrained(h, conn) != [])
  }

  lemma DrainFits(h: Hub, a: Action, conn: nat)
    requires PhaseFits(h, conn) && Enabled(h, a) && a.Drain?
    ensures PhaseFits(Step(h, a), conn)
  {
  }

  lemma FlushFits(h: Hub, a: Action, conn: nat)
    requires PhaseFits(h, conn) && Enabled(h, a) && a.Flush?
    ensures PhaseFits(Step(h, a), conn)
  {
  }

  lemma OpenCloseFits(h: Hub, a: Action, conn: nat)
    requires PhaseFits(h, conn) && Enabled(h, a) && (a.Open? || a.Close?)
    requires a.Open? ==> a.conn !in h.drains
    ensures PhaseFits(Step(h, a), conn)
  {
  }

  lemma OthersFit(h: Hub, a: Action)
    requires Enabled(h, a) && !a.Drain? && !a.Flush? && !a.Open? && !a.Close?
    ensures Step(h, a).sockets == h.sockets && Step(h, a).drains == h.drains
  {
  }

  lemma {:induction false} PhasesFit(actions: seq<Action>, conn: nat)
    ensures PhaseFits(Play(actions), conn)
  {
    if actions != [] {
      var before, a := actions[..|actions| - 1], actions[|actions| - 1];
      var h := Play(before);
      PhasesFit(before, conn);
      if Enabled(h, a) {
        EveryScheduleConserves(before, 0);
        if a.Drain? {
          DrainFits(h, a, conn);
        } else if a.Flush? {
          FlushFits(h, a, conn);
        } else if a.Open? || a.Close? {
          OpenCloseFits(h, a, conn);
        } else {
          OthersFit(h, a);
        }
      }
    }
  }

  lemma SplitOff<T>(front: seq<T>, back: seq<T>, all: seq<T>)
    requires front + back == all
    ensures back == [] ==> front == all
    ensures back != [] ==> front < all
  {
  }

  lemma DrainingCanWrite(h: Hub, conn: nat)
    requires conn in h.sockets && h.sockets[conn].phase == Draining && PhaseFits(h, conn)
    ensures forall ok :: Enabled(h, Flush(conn, ok))
  {
  }

  /** A socket that serves its peer, or has closed, has written every letter it drained, in order. */
  lemma ServedSocketsHaveWritten(actions: seq<Action>, conn: nat)
    requires conn in Play(actions).sockets
    ensures Play(actions).sockets[conn].phase in {Serving, Closed} ==>
              WrittenTo(actions, conn) == DrainedBy(actions, conn)
    ensures Play(actions).sockets[conn].phase == Draining ==>
              WrittenTo(actions, conn) < DrainedBy(actions, conn)
              && forall ok :: Enabled(Play(actions), Flush(conn, ok))
  {
    PhasesFit(actions, conn);
    DrainedIsWritten(actions, conn);
    SplitOff(WrittenTo(actions, conn), Undrained(Play(actions), conn), DrainedBy(actions, conn));
    if Play(actions).sockets[conn].phase == Draining {
      DrainingCanWrite(Play(actions), conn);
    }
  }

  function Flushes(conn: nat, oks: seq<bool>): seq<Action> {
    seq(|oks|, i requires 0 <= i < |oks| => Flush(conn, oks[i]))
  }

  lemma OneFlush(actions: seq<Action>, conn: nat, ok: bool)
    requires Enabled(Play(actions), Flush(conn, ok))
    ensures var h, h' := Play(actions), Play(actions + [Flush(conn, ok)]);
            && Undrained(h', conn) == Undrained(h, conn)[1..]
            && conn in h'.sockets && h'.sockets[conn].peer == h.sockets[conn].peer
            && h'.sockets[conn].phase == (if |Undrained(h, conn)| == 1 then Serving else Draining)
            && DrainedBy(actions + [Flush(conn, ok)], conn) == DrainedBy(actions, conn)
  {
    PlayedOneMore(actions, Flush(conn, ok));
    assert (actions + [Flush(conn, ok)])[..|actions|] == actions;
  }

  /** As many writes as letters are left, failing or not, bring a draining socket to serve with everything written. */
  lemma {:induction false} FlushesLeadToServing(actions: seq<Action>, conn: nat, oks: seq<bool>)
    requires conn in Play(actions).sockets && Play(actions).sockets[conn].phase == Draining
    requires |oks| == |Undrained(Play(actions), conn)|
    ensures var end := actions + Flushes(conn, oks);
            && conn in Play(end).sockets && Play(end).sockets[conn].phase == Serving
            && WrittenTo(end, conn) == DrainedBy(actions, conn)
    decreases |oks|
  {
    PhasesFit(actions, conn);
    var next := actions + [Flush(conn, oks[0])];
    OneFlush(actions, conn, oks[0]);
    assert next + Flushes(conn, oks[1..]) == actions + Flushes(conn, oks);
    if |oks| > 1 {
      FlushesLeadToServing(next, conn, oks[1..]);
    } else {
      assert next == actions + Flushes(conn, oks);
      ServedSocketsHaveWritten(next, conn);
    }
  }

  /** A signal is stored by an HTTP request for a peer that then connects. */
  function StoredThenConnected(p: string, signal: Signal): seq<Action> {
    [Know(p)] + [Post(0, p, signal)] + [Store(0)] + [Open(1, p)] + [Drain(1)] + [Flush(1, true)]
  }

  lemma StoredForThePeer(p: string, signal: Signal)
    requires Trim(p) != "" && signal.from != "" && signal.kind != ""
    ensures var h := Play([Know(p)] + [Post(0, p, signal)] + [Store(0)]);
            && h.boxes == map[Trim(p) := [Letter(0, p, signal)]] && h.sockets == map[] && h.drains == map[]
            && h.flushed == []
  {
    var l := Letter(0, p, signal);
    assert [] + [Know(p)] == [Know(p)];
    PlayedOneMore([], Know(p));
    PlayedOneMore([Know(p)], Post(0, p, signal));
    assert Play([Know(p)] + [Post(0, p, signal)]) == START.(known := {Trim(p)}, tasks := map[0 := Storing(l)]);
    PlayedOneMore([Know(p)] + [Post(0, p, signal)], Store(0));
    assert Box(START.boxes, Trim(p)) + [l] == [l];
  }

  /** The signal is then written to the socket, which serves the peer. */
  lemma StoredSignalReachesTheSocket(p: string, signal: Signal)
    requires Trim(p) != "" && signal.from != "" && signal.kind != ""
    ensures var h := Play(StoredThenConnected(p, signal));
            && h.flushed == [Delivery(1, Letter(0, p, signal))]
            && 1 in h.sockets && h.sockets[1] == Socket(p, Serving) && Box(h.boxes, Trim(p)) == []
  {
    var stored := [Know(p)] + [Post(0, p, signal)] + [Store(0)];
    StoredForThePeer(p, signal);
    PlayedOneMore(stored, Open(1, p));
    PlayedOneMore(stored + [Open(1, p)], Drain(1));
    PlayedOneMore(stored + [Open(1, p)] + [Drain(1)], Flush(1, true));
  }
}
