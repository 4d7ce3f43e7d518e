/**
 * The handler object of internal/webrtc/handler.go with the mailboxes of its store. Each method is one
 * critical section; the ghost history records the actions, so the theorems of module Relay hold of it.
 */
module RelayHandler {
  import opened Text
  import opened Model
  import opened Relay

  class Handler {
    var wsConns: map<string, nat>
    var mailboxes: map<string, seq<Letter>>
    var peers: set<string>
    ghost var hub: Hub
    ghost var history: seq<Action>

    ghost predicate Valid()
      reads this
    {
      && hub == Play(history)
      && hub.registry == wsConns && hub.boxes == mailboxes && hub.known == peers
    }

    constructor ()
      ensures Valid() && history == []
    {
      wsConns, mailboxes, peers := map[], map[], {};
      hub, history := START, [];
    }

    ghost method Act(a: Action)
      requires hub == Play(history) && Enabled(hub, a)
      modifies this`hub, this`history
      ensures history == old(history) + [a] && hub == Step(old(hub), a) == Play(history)
    {
      assert (history + [a])[..|history|] == history;
      history := history + [a];
      hub := Step(hub, a);
    }

    // -------------------------------------------------------------- HandleWebSocket

    method Register(conn: nat, peerId: string)
      requires Valid() && Enabled(hub, Open(conn, peerId))
      modifies this
      ensures Valid() && history == old(history) + [Open(conn, peerId)]
    {
      wsConns := wsConns[peerId := conn];
      Act(Open(conn, peerId));
    }

    /** Empties the mailbox of the connecting peer; the signals still have to be written to its socket. */
    method DrainMailbox(conn: nat, peerId: string) returns (signals: seq<Letter>)
      requires Valid() && Enabled(hub, Drain(conn)) && hub.sockets[conn].peer == peerId
      modifies this
      ensures Valid() && history == old(history) + [Drain(conn)]
      ensures conn in hub.drains && signals == hub.drains[conn]
    {
      var id := Trim(peerId);
      signals := [];
      if id != "" {
        signals := Box(mailboxes, id);
        mailboxes := mailboxes - {id};
      }
      Act(Drain(conn));
    }

    /** The result of each write is ignored. */
    method WriteDrained(conn: nat, signals: seq<Letter>, ok: bool) returns (rest: seq<Letter>)
      requires Valid() && Enabled(hub, Flush(conn, ok)) && signals == hub.drains[conn]
      modifies this
      ensures Valid() && history == old(history) + [Flush(conn, ok)]
      ensures conn in hub.drains && rest == hub.drains[conn]
    {
      rest := signals[1..];
      Act(Flush(conn, ok));
    }

    /** Deletes whatever socket is registered for the peer by now. */
    method Unregister(conn: nat, peerId: string)
      requires Valid() && Enabled(hub, Close(conn)) && hub.sockets[conn].peer == peerId
      modifies this
      ensures Valid() && history == old(history) + [Close(conn)]
    {
      wsConns := wsConns - {peerId};
      Act(Close(conn));
    }

    // -------------------------------------------------------------- relaying

    method LookupConn(token: nat, target: string) returns (found: Option<nat>)
      requires Valid() && Enabled(hub, Lookup(token)) && hub.tasks[token].letter.target == target
      modifies this
      ensures Valid() && history == old(history) + [Lookup(token)] && hub == Step(old(hub), Lookup(token))
      ensures found == if target in wsConns then Some(wsConns[target]) else None
    {
      found := if target in wsConns then Some(wsConns[target]) else None;
      Act(Lookup(token));
    }

    method SetSignal(token: nat, target: string, signal: Signal) returns (ok: bool)
      requires Valid() && Enabled(hub, Store(token)) && hub.tasks[token].letter == Letter(token, target, signal)
      modifies this
      ensures Valid() && history == old(history) + [Store(token)] && hub == Step(old(hub), Store(token))
      ensures ok <==> EndedAs(hub, token, Boxed)
    {
      var id := Trim(target);
      ok := id != "" && signal.from != "" && signal.kind != "" && id in peers;
      if ok {
        mailboxes := mailboxes[id := Box(mailboxes, id) + [Letter(token, target, signal)]];
      }
      Act(Store(token));
    }

    /** `handleSignalRelay` undisturbed: write to the target if it is connected, else store, and answer. */
    method HandleSignalRelay(token: nat, target: string, signal: Signal, writeSucceeds: bool) returns (result: bool)
      requires Valid() && Enabled(hub, Begin(token, target, signal))
      modifies this
      ensures Valid() && token in hub.tasks && hub.tasks[token].Done? && hub.tasks[token].answered
      ensures result <==> EndedAs(hub, token, Direct) || EndedAs(hub, token, Boxed)
      ensures EndedAs(hub, token, Direct) <==> target in old(wsConns) && writeSucceeds
      ensures wsConns == old(wsConns) && peers == old(peers)
      ensures hub.direct == (if EndedAs(hub, token, Direct)
                             then old(hub.direct) + [Delivery(old(wsConns)[target], Letter(token, target, signal))]
                             else old(hub.direct))
      ensures var id := Trim(target);
              mailboxes == (if EndedAs(hub, token, Boxed)
                            then old(mailboxes)[id := Box(old(mailboxes), id) + [Letter(token, target, signal)]]
                            else old(mailboxes))
    {
      Act(Begin(token, target, signal));
      var conn := LookupConn(token, target);
      var sent := false;
      if conn.Some? {
        Act(Write(token, writeSucceeds));
        sent := writeSucceeds;
      }
      if sent {
        result := true;
      } else {
        result := SetSignal(token, target, signal);
      }
      Act(Answer(token));
    }

    method PollSignals(peerId: string) returns (signals: seq<Letter>)
      requires Valid()
      modifies this
      ensures Valid() && history == old(history) + [Poll(peerId)]
      ensures signals == (if Trim(peerId) == "" then [] else Box(old(mailboxes), Trim(peerId)))
    {
      var id := Trim(peerId);
      signals := [];
      if id != "" {
        signals := Box(mailboxes, id);
        mailboxes := mailboxes - {id};
      }
      Act(Poll(peerId));
    }
  }
}
