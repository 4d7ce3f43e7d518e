/**
 * Why a letter can wait in a mailbox although its addressee is connected: a socket is registered before the
 * mailbox is drained, so what is left behind comes from requests that the new socket overtook.
 */
module Waiting {
  import opened Text
  import opened Model
  import opened Relay

  // ---------------------------------------------------------------- what happened to a request

  /** The letter came with an HTTP request, which looks no connection up. */
  predicate Posted(actions: seq<Action>, t: nat) {
    actions != []
    && var before, a := actions[..|actions| - 1], actions[|actions| - 1];
       Posted(before, t) || (a.Post? && a.token == t && Enabled(Play(before), a))
  }

  predicate WriteFailed(actions: seq<Action>, t: nat) {
    actions != []
    && var before, a := actions[..|actions| - 1], actions[|actions| - 1];
       WriteFailed(before, t) || (a == Write(t, false) && Enabled(Play(before), a))
  }

  /** The request looked for a connection before the socket opened. */
  predicate LookedUpBefore(actions: seq<Action>, t: nat, conn: nat) {
    actions != []
    && var before, a := actions[..|actions| - 1], actions[|actions| - 1];
       LookedUpBefore(before, t, conn)
       || (a == Lookup(t) && Enabled(Play(before), a) && conn !in Play(before).sockets)
  }

  predicate Drained(h: Hub, conn: nat) {
    conn in h.sockets && h.sockets[conn].phase != Opened
  }

  /** The letter was put into the mailbox after the socket had taken the older ones. */
  predicate StoredAfterDrain(actions: seq<Action>, t: nat, conn: nat) {
    actions != []
    && var before, a := actions[..|actions| - 1], actions[|actions| - 1];
       StoredAfterDrain(before, t, conn)
       || (a == Store(t) && Enabled(Play(before), a) && Drained(Play(before), conn))
  }

  // ---------------------------------------------------------------- requests

  /** Not written directly: about to be stored, stored, or refused. */
  predicate Undelivered(task: Task) {
    task.Storing? || (task.Done? && task.outcome != Direct)
  }

  /** A request that is past its lookup was posted, or looked up before every socket still to come. */
  ghost predicate LookupKnown(actions: seq<Action>, t: nat) {
    var h := Play(actions);
    t in h.tasks && !h.tasks[t].Ready? && !Posted(actions, t) ==>
      forall c :: c !in h.sockets ==> LookedUpBefore(actions, t, c)
  }

  /** Why an undelivered letter was not written to the socket that is now registered for its target. */
  ghost predicate Explained(actions: seq<Action>, t: nat) {
    var h := Play(actions);
    t in h.tasks && Undelivered(h.tasks[t]) && h.tasks[t].letter.target in h.registry ==>
      Posted(actions, t) || WriteFailed(actions, t)
      || LookedUpBefore(actions, t, h.registry[h.tasks[t].letter.target])
  }

  predicate ChangesTasks(a: Action) {
    a.Begin? || a.Post? || a.Lookup? || a.Write? || a.Store? || a.Answer?
  }

  lemma OthersKeepTasks(h: Hub, a: Action)
    requires Enabled(h, a) && !ChangesTasks(a)
    ensures Step(h, a).tasks == h.tasks
  {
  }

  lemma RequestsKeepSockets(h: Hub, a: Action)
    requires Enabled(h, a) && ChangesTasks(a)
    ensures Step(h, a).sockets == h.sockets && Step(h, a).registry == h.registry
  {
  }

  lemma SocketsGrow(h: Hub, a: Action)
    requires Enabled(h, a)
    ensures forall c :: c in h.sockets ==> c in Step(h, a).sockets
  {
  }

  /** A request gets past its lookup by looking up, or starts there when it is posted. */
  lemma PastLookup(h: Hub, a: Action, t: nat)
    requires Enabled(h, a) && t in Step(h, a).tasks && !Step(h, a).tasks[t].Ready?
    ensures (t in h.tasks && !h.tasks[t].Ready?) || a == Lookup(t) || (a.Post? && a.token == t)
  {
    if !ChangesTasks(a) {
      OthersKeepTasks(h, a);
    }
  }

  lemma {:induction false} LookupsKnown(actions: seq<Action>, t: nat)
    ensures LookupKnown(actions, t)
  {
    var h' := Play(actions);
    if actions != [] && t in h'.tasks && !h'.tasks[t].Ready? {
      var before, a := actions[..|actions| - 1], actions[|actions| - 1];
      LookupsKnown(before, t);
      if Enabled(Play(before), a) {
        PastLookup(Play(before), a, t);
        SocketsGrow(Play(before), a);
      }
    }
  }

  /** A request ends up undelivered when it is posted, when its lookup finds nobody, or when its write fails. */
  lemma BecomesUndelivered(h: Hub, a: Action, t: nat)
    requires Enabled(h, a) && t in Step(h, a).tasks && Undelivered(Step(h, a).tasks[t])
    ensures (t in h.tasks && Undelivered(h.tasks[t]) && h.tasks[t].letter == Step(h, a).tasks[t].letter)
            || (a == Lookup(t) && Step(h, a).tasks[t].letter.target !in h.registry)
            || a == Write(t, false) || (a.Post? && a.token == t)
  {
    if !ChangesTasks(a) {
      OthersKeepTasks(h, a);
    }
  }

  /** A peer's registered socket is the one that was registered before, or opens right now. */
  lemma RegisteredBefore(h: Hub, a: Action, p: string)
    requires Enabled(h, a) && p in Step(h, a).registry
    ensures (p in h.registry && h.registry[p] == Step(h, a).registry[p])
            || (a == Open(Step(h, a).registry[p], p) && Step(h, a).registry[p] !in h.sockets)
  {
    if ChangesTasks(a) {
      RequestsKeepSockets(h, a);
    }
  }

  lemma {:induction false} UndeliveredExplained(actions: seq<Action>, t: nat)
    ensures Explained(actions, t)
  {
    var h' := Play(actions);
    if actions != [] && t in h'.tasks && Undelivered(h'.tasks[t]) && h'.tasks[t].letter.target in h'.registry {
      var before, a := actions[..|actions| - 1], actions[|actions| - 1];
      UndeliveredExplained(before, t);
      LookupsKnown(before, t);
      if Enabled(Play(before), a) {
        BecomesUndelivered(Play(before), a, t);
        RegisteredBefore(Play(before), a, h'.tasks[t].letter.target);
      }
    }
  }

  // ---------------------------------------------------------------- mailboxes

  /** Each letter in a mailbox is that of a request that ended there. */
  ghost predicate BoxedDone(h: Hub) {
    forall id, l :: id in h.boxes && l in h.boxes[id] ==>
      l.token in h.tasks && h.tasks[l.token].Done? && h.tasks[l.token].outcome == Boxed && h.tasks[l.token].letter == l
  }

  lemma DoneStaysDone(h: Hub, a: Action, t: nat)
    requires Enabled(h, a) && t in h.tasks && h.tasks[t].Done?
    ensures var h' := Step(h, a);
            t in h'.tasks && h'.tasks[t].Done?
            && h'.tasks[t].outcome == h.tasks[t].outcome && h'.tasks[t].letter == h.tasks[t].letter
  {
    if !ChangesTasks(a) {
      OthersKeepTasks(h, a);
    }
  }

  /** Only storing puts letters into mailboxes. */
  lemma BoxesShrink(h: Hub, a: Action)
    requires Enabled(h, a) && !a.Store?
    ensures forall id :: id in Step(h, a).boxes ==> id in h.boxes && Step(h, a).boxes[id] == h.boxes[id]
  {
  }

  lemma BoxAfterStore(h: Hub, x: nat, id: string, l: Letter)
    requires Enabled(h, Store(x)) && id in Step(h, Store(x)).boxes && l in Step(h, Store(x)).boxes[id]
    ensures (id in h.boxes && l in h.boxes[id]) || (l == h.tasks[x].letter && EndedAs(Step(h, Store(x)), x, Boxed))
  {
  }

  lemma StepBoxedDone(h: Hub, a: Action)
    requires Enabled(h, a) && BoxedDone(h) && Tagged(h)
    ensures BoxedDone(Step(h, a))
  {
    var h' := Step(h, a);
    forall id, l | id in h'.boxes && l in h'.boxes[id]
      ensures l.token in h'.tasks && h'.tasks[l.token].Done? && h'.tasks[l.token].outcome == Boxed
      ensures l.token in h'.tasks && h'.tasks[l.token].letter == l
    {
      if a.Store? {
        BoxAfterStore(h, a.token, id, l);
      } else {
        BoxesShrink(h, a);
      }
      if id in h.boxes && l in h.boxes[id] {
        DoneStaysDone(h, a, l.token);
      }
    }
  }

  lemma {:induction false} LettersAreBoxed(actions: seq<Action>)
    ensures BoxedDone(Play(actions))
  {
    if actions != [] {
      var before, a := actions[..|actions| - 1], actions[|actions| - 1];
      LettersAreBoxed(before);
      if Enabled(Play(before), a) {
        EveryScheduleConserves(before, 0);
        StepBoxedDone(Play(before), a);
      }
    }
  }

  ghost predicate StoredLate(actions: seq<Action>, conn: nat) {
    var h := Play(actions);
    Drained(h, conn) && Trim(h.sockets[conn].peer) in h.boxes ==>
      forall l :: l in h.boxes[Trim(h.sockets[conn].peer)] ==> StoredAfterDrain(actions, l.token, conn)
  }

  /** A socket becomes drained only by taking the mailbox of its peer. */
  lemma DrainedBefore(h: Hub, a: Action, conn: nat)
    requires Enabled(h, a) && Drained(Step(h, a), conn)
    ensures conn in h.sockets && h.sockets[conn].peer == Step(h, a).sockets[conn].peer
    ensures Drained(h, conn) || a == Drain(conn)
  {
  }

  lemma MailboxTaken(h: Hub, conn: nat)
    requires Addressed(h) && Enabled(h, Drain(conn)) && Trim(h.sockets[conn].peer) != ""
    ensures Trim(h.sockets[conn].peer) !in Step(h, Drain(conn)).boxes
  {
  }

  /** Nothing is stored for the empty id. */
  lemma {:induction false} NoEmptyBox(actions: seq<Action>)
    ensures "" !in Play(actions).boxes
  {
    if actions != [] {
      var h, a := Play(actions[..|actions| - 1]), actions[|actions| - 1];
      NoEmptyBox(actions[..|actions| - 1]);
      if Enabled(h, a) && !a.Store? {
        BoxesShrink(h, a);
      }
    }
  }

  lemma LateLetter(before: seq<Action>, a: Action, conn: nat, l: Letter)
    requires var h := Play(before);
             && Enabled(h, a) && StoredLate(before, conn)
             && "" !in Step(h, a).boxes && Drained(Step(h, a), conn)
             && Trim(Step(h, a).sockets[conn].peer) in Step(h, a).boxes
             && l in Step(h, a).boxes[Trim(Step(h, a).sockets[conn].peer)]
    ensures StoredAfterDrain(before + [a], l.token, conn)
  {
    var h := Play(before);
    assert (before + [a])[..|before|] == before;
    EveryScheduleConserves(before, 0);
    DrainedBefore(h, a, conn);
    var id := Trim(h.sockets[conn].peer);
    if a == Drain(conn) {
      MailboxTaken(h, conn);
    } else if a.Store? {
      BoxAfterStore(h, a.token, id, l);
    } else {
      BoxesShrink(h, a);
    }
  }

  /** What waits for the peer of a socket that has drained was stored since. */
  lemma {:induction false} WaitingIsStoredLate(actions: seq<Action>, conn: nat)
    ensures StoredLate(actions, conn)
  {
    var h' := Play(actions);
    if actions != [] && Drained(h', conn) && Trim(h'.sockets[conn].peer) in h'.boxes {
      var before, a := actions[..|actions| - 1], actions[|actions| - 1];
      var h, id := Play(before), Trim(h'.sockets[conn].peer);
      WaitingIsStoredLate(before, conn);
      NoEmptyBox(actions);
      if Enabled(h, a) {
        DrainedBefore(h, a, conn);
        forall l | l in h'.boxes[id]
          ensures StoredAfterDrain(actions, l.token, conn)
        {
          LateLetter(before, a, conn, l);
          assert before + [a] == actions;
        }
      }
    }
  }

  /**
   * Under every schedule, a letter that waits for a peer with a registered socket was posted, or its write
   * failed, or its lookup came before that socket opened; and if that socket has drained the mailbox, the
   * letter was stored afterwards.
   */
  lemma WhyLettersWait(actions: seq<Action>, id: string, l: Letter)
    requires id in Play(actions).boxes && l in Play(actions).boxes[id] && l.target in Play(actions).registry
    ensures var conn := Play(actions).registry[l.target];
            && (Posted(actions, l.token) || WriteFailed(actions, l.token) || LookedUpBefore(actions, l.token, conn))
            && (Drained(Play(actions), conn) ==> StoredAfterDrain(actions, l.token, conn))
  {
    EveryScheduleConserves(actions, l.token);
    LettersAreBoxed(actions);
    UndeliveredExplained(actions, l.token);
    WaitingIsStoredLate(actions, Play(actions).registry[l.target]);
  }

  // ---------------------------------------------------------------- when no letter waits

  /** A letter in the mailbox of a connected peer whose socket will not drain it any more. */
  predicate Waits(h: Hub, id: string, l: Letter) {
    id in h.boxes && l in h.boxes[id] && l.target in h.registry && Drained(h, h.registry[l.target])
  }

  ghost predicate NoneWaits(h: Hub) {
    forall id, l :: !Waits(h, id, l)
  }

  /** A letter is about to be stored for a peer whose registered socket has drained. */
  predicate StoresLate(h: Hub, a: Action) {
    && a.Store? && Enabled(h, a) && Storable(h, h.tasks[a.token].letter)
    && var target := h.tasks[a.token].letter.target;
       target in h.registry && Drained(h, h.registry[target])
  }

  lemma StoringWaitsIff(h: Hub, x: nat)
    requires NoneWaits(h) && Enabled(h, Store(x))
    ensures NoneWaits(Step(h, Store(x))) <==> !StoresLate(h, Store(x))
  {
    var l, h' := h.tasks[x].letter, Step(h, Store(x));
    RequestsKeepSockets(h, Store(x));
    if StoresLate(h, Store(x)) {
      assert h'.boxes[Trim(l.target)] == Box(h.boxes, Trim(l.target)) + [l];
      assert Waits(h', Trim(l.target), l);
    } else {
      forall id, m
        ensures Waits(h', id, m) ==> Waits(h, id, m)
      {
        if Waits(h', id, m) {
          BoxAfterStore(h, x, id, m);
        }
      }
    }
  }

  /** Other actions leave no new letter waiting: a socket becomes drained only by emptying the mailbox of its peer. */
  lemma OthersLeaveNoneWaiting(h: Hub, a: Action, id: string, l: Letter)
    requires Addressed(h) && "" !in h.boxes && Enabled(h, a) && !a.Store?
    ensures Waits(Step(h, a), id, l) ==> Waits(h, id, l)
  {
    var h' := Step(h, a);
    if Waits(h', id, l) {
      var conn := h'.registry[l.target];
      BoxesShrink(h, a);
      DrainedBefore(h, a, conn);
      RegisteredBefore(h, a, l.target);
      if a == Drain(conn) {
        MailboxTaken(h, conn);
      }
    }
  }

  /** At the end of the schedule and at every moment before. */
  ghost predicate NoneWaitsThroughout(actions: seq<Action>) {
    NoneWaits(Play(actions)) && (actions == [] || NoneWaitsThroughout(actions[..|actions| - 1]))
  }

  predicate SomeStoredLate(actions: seq<Action>) {
    actions != []
    && var before, a := actions[..|actions| - 1], actions[|actions| - 1];
       SomeStoredLate(before) || StoresLate(Play(before), a)
  }

  /**
   * No letter ever waits for a peer with a registered socket that has drained, exactly when the schedule stores
   * none for such a peer.
   */
  lemma {:induction false} NoneWaitsIffNoneStoredLate(actions: seq<Action>)
    ensures NoneWaitsThroughout(actions) <==> !SomeStoredLate(actions)
  {
    if actions != [] {
      var before, a := actions[..|actions| - 1], actions[|actions| - 1];
      var h := Play(before);
      NoneWaitsIffNoneStoredLate(before);
      if Enabled(h, a) && NoneWaits(h) {
        if a.Store? {
          StoringWaitsIff(h, a.token);
        } else {
          EveryScheduleConserves(before, 0);
          NoEmptyBox(before);
          forall id, l
            ensures Waits(Step(h, a), id, l) ==> Waits(h, id, l)
          {
            OthersLeaveNoneWaiting(h, a, id, l);
          }
        }
      }
    }
  }

  /** A request looks for a connection, and its target connects and drains before the request stores its letter. */
  function Overtaken(p: string, signal: Signal): seq<Action> {
    [Know(p), Begin(0, p, signal), Lookup(0)] + [Open(1, p)] + [Drain(1)] + [Store(0)]
  }

  lemma LookupFindsNobody(p: string, signal: Signal)
    requires Trim(p) != ""
    ensures var h := Play([Know(p), Begin(0, p, signal), Lookup(0)]);
            h == START.(known := {Trim(p)}, tasks := map[0 := Storing(Letter(0, p, signal))])
  {
    PlayedOneMore([], Know(p));
    PlayedOneMore([Know(p)], Begin(0, p, signal));
    PlayedOneMore([Know(p), Begin(0, p, signal)], Lookup(0));
    assert [] + [Know(p)] == [Know(p)] && [Know(p)] + [Begin(0, p, signal)] == [Know(p), Begin(0, p, signal)];
    assert [Know(p), Begin(0, p, signal)] + [Lookup(0)] == [Know(p), Begin(0, p, signal), Lookup(0)];
  }

  /** The letter then waits although the socket of its target is registered and serving. */
  lemma OvertakenLetterWaits(p: string, signal: Signal)
    requires Trim(p) != "" && signal.from != "" && signal.kind != ""
    ensures var h := Play(Overtaken(p, signal));
            && p in h.registry && h.registry[p] == 1 && 1 in h.sockets && h.sockets[1] == Socket(p, Serving)
            && Box(h.boxes, Trim(p)) == [Letter(0, p, signal)] && Waits(h, Trim(p), Letter(0, p, signal))
  {
    var asked := [Know(p), Begin(0, p, signal), Lookup(0)];
    LookupFindsNobody(p, signal);
    PlayedOneMore(asked, Open(1, p));
    PlayedOneMore(asked + [Open(1, p)], Drain(1));
    PlayedOneMore(asked + [Open(1, p)] + [Drain(1)], Store(0));
  }
}
