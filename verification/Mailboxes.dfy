/** Mailboxes over whole runs, and the failure atomicity of every operation. */
module Mailboxes {
  import opened Text
  import opened Model
  import opened Store

  // ---------------------------------------------------------------- first in, first out, exactly once

  /** The signal an event adds to the mailbox of `id`. */
  function AcceptedFor(s: State, ev: Event, id: string): seq<Signal> {
    if ev.op.OpSetSignal? && Trim(ev.op.to) == id && SetSignal(s, ev.op.to, ev.op.sig).1.Ok? then [ev.op.sig] else []
  }

  /** The signals an event hands to a poller of `id`. */
  function HandedOutFor(s: State, ev: Event, id: string): seq<Signal> {
    if ev.op.OpPoll? && Trim(ev.op.id) == id then
      match PollSignals(s, ev.op.id).1
      case Ok(list) => list
      case Err(_) => []
    else []
  }

  function Accepted(v: Verifier, s: State, es: seq<Event>, id: string): seq<Signal> {
    if es == [] then []
    else
      var before := es[..|es| - 1];
      Accepted(v, s, before, id) + AcceptedFor(Exec(v, s, before), es[|es| - 1], id)
  }

  function HandedOut(v: Verifier, s: State, es: seq<Event>, id: string): seq<Signal> {
    if es == [] then []
    else
      var before := es[..|es| - 1];
      HandedOut(v, s, before, id) + HandedOutFor(Exec(v, s, before), es[|es| - 1], id)
  }

  lemma ChunkOpsLeaveMailboxes(v: Verifier, s: State, ev: Event)
    requires ev.op.OpSetChunk? || ev.op.OpReport? || ev.op.OpConfirm? || ev.op.OpRead? || ev.op.OpClean?
    ensures Next(v, s, ev).signals == s.signals
  {
  }

  lemma OnlySignalOpsTouchMailboxes(v: Verifier, s: State, ev: Event)
    requires !ev.op.OpSetSignal? && !ev.op.OpPoll?
    ensures Next(v, s, ev).signals == s.signals
  {
    if ev.op.OpSetChunk? || ev.op.OpReport? || ev.op.OpConfirm? || ev.op.OpRead? || ev.op.OpClean? {
      ChunkOpsLeaveMailboxes(v, s, ev);
    }
  }

  lemma MailboxStep(v: Verifier, s: State, ev: Event, id: string)
    ensures HandedOutFor(s, ev, id) + Pending(Next(v, s, ev).signals, id)
         == Pending(s.signals, id) + AcceptedFor(s, ev, id)
  {
    if !ev.op.OpSetSignal? && !ev.op.OpPoll? {
      OnlySignalOpsTouchMailboxes(v, s, ev);
    }
  }

  lemma QueueStep<T>(out: seq<T>, pending: seq<T>, start: seq<T>, accepted: seq<T>, out': seq<T>, pending': seq<T>,
                     accepted': seq<T>)
    requires out + pending == start + accepted && out' + pending' == pending + accepted'
    ensures (out + out') + pending' == start + (accepted + accepted')
  {
    assert (out + out') + pending' == out + (out' + pending');
    assert out + (pending + accepted') == (out + pending) + accepted';
  }

  /**
   * For every peer and over every run: what the polls returned, in order, followed by what is still
   * pending is exactly what was pending at first followed by the accepted signals, in order.
   */
  lemma {:induction false} MailboxIsAQueue(v: Verifier, s: State, es: seq<Event>, id: string)
    ensures HandedOut(v, s, es, id) + Pending(Exec(v, s, es).signals, id)
         == Pending(s.signals, id) + Accepted(v, s, es, id)
  {
    if es != [] {
      var before, last := es[..|es| - 1], es[|es| - 1];
      var mid := Exec(v, s, before);
      MailboxIsAQueue(v, s, before, id);
      MailboxStep(v, mid, last, id);
      QueueStep(HandedOut(v, s, before, id), Pending(mid.signals, id), Pending(s.signals, id),
                Accepted(v, s, before, id), HandedOutFor(mid, last, id), Pending(Next(v, mid, last).signals, id),
                AcceptedFor(mid, last, id));
    }
  }

  // ---------------------------------------------------------------- failure atomicity

  /** An operation that reports an error leaves the whole store as it was. */
  lemma FailureChangesNothing(v: Verifier, s: State, ev: Event)
    requires !Succeeds(v, s, ev)
    ensures Next(v, s, ev) == s
  {
  }
}
