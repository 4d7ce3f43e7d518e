/** Letters are never made up or altered: wherever one is, a request sent it with that target and signal. */
module Letters {
  import opened Relay

  predicate Sends(h: Hub, a: Action, l: Letter) {
    Enabled(h, a) && (a == Begin(l.token, l.target, l.signal) || a == Post(l.token, l.target, l.signal))
  }

  predicate Sent(actions: seq<Action>, l: Letter) {
    actions != []
    && var before, a := actions[..|actions| - 1], actions[|actions| - 1];
       Sent(before, l) || Sends(Play(before), a, l)
  }

  predicate InTasks(h: Hub, l: Letter) {
    exists t :: t in h.tasks && h.tasks[t].letter == l
  }

  predicate InLists<K>(lists: map<K, seq<Letter>>, l: Letter) {
    exists k :: k in lists && l in lists[k]
  }

  predicate InDeliveries(ds: seq<Delivery>, l: Letter) {
    exists i :: 0 <= i < |ds| && ds[i].letter == l
  }

  /** The letter belongs to a request, waits in a mailbox or for a socket, or was written, lost or polled. */
  predicate Somewhere(h: Hub, l: Letter) {
    || InTasks(h, l) || InLists(h.boxes, l) || InLists(h.drains, l)
    || InDeliveries(h.direct, l) || InDeliveries(h.flushed, l) || InDeliveries(h.lost, l) || l in h.polled
  }

  lemma RequestsKeepLetters(h: Hub, a: Action, l: Letter)
    requires Enabled(h, a) && (a.Begin? || a.Post? || a.Lookup? || a.Answer?)
    requires Somewhere(Step(h, a), l)
    ensures Somewhere(h, l) || Sends(h, a, l)
  {
  }

  lemma WriteKeepsLetters(h: Hub, a: Action, l: Letter)
    requires Enabled(h, a) && a.Write? && Somewhere(Step(h, a), l)
    ensures Somewhere(h, l)
  {
  }

  lemma StoreKeepsLetters(h: Hub, a: Action, l: Letter)
    requires Enabled(h, a) && a.Store? && Somewhere(Step(h, a), l)
    ensures Somewhere(h, l)
  {
  }

  lemma DrainKeepsLetters(h: Hub, a: Action, l: Letter)
    requires Enabled(h, a) && a.Drain? && Somewhere(Step(h, a), l)
    ensures Somewhere(h, l)
  {
  }

  lemma FlushKeepsLetters(h: Hub, a: Action, l: Letter)
    requires Enabled(h, a) && a.Flush? && Somewhere(Step(h, a), l)
    ensures Somewhere(h, l)
  {
  }

  lemma OthersKeepLetters(h: Hub, a: Action, l: Letter)
    requires Enabled(h, a) && (a.Open? || a.Close? || a.Poll? || a.Know? || a.Forget?)
    requires Somewhere(Step(h, a), l)
    ensures Somewhere(h, l)
  {
  }

  lemma StepKeepsLetters(h: Hub, a: Action, l: Letter)
    requires Enabled(h, a) && Somewhere(Step(h, a), l)
    ensures Somewhere(h, l) || Sends(h, a, l)
  {
    match a
    case Write(_, _) => WriteKeepsLetters(h, a, l);
    case Store(_) => StoreKeepsLetters(h, a, l);
    case Drain(_) => DrainKeepsLetters(h, a, l);
    case Flush(_, _) => FlushKeepsLetters(h, a, l);
    case Begin(_, _, _) => RequestsKeepLetters(h, a, l);
    case Post(_, _, _) => RequestsKeepLetters(h, a, l);
    case Lookup(_) => RequestsKeepLetters(h, a, l);
    case Answer(_) => RequestsKeepLetters(h, a, l);
    case _ => OthersKeepLetters(h, a, l);
  }

  /** Under every schedule, a letter is only where a request has sent it, with its token, target and signal. */
  lemma {:induction false} LettersWereSent(actions: seq<Action>, l: Letter)
    requires Somewhere(Play(actions), l)
    ensures Sent(actions, l)
  {
    if actions != [] {
      var before, a := actions[..|actions| - 1], actions[|actions| - 1];
      if Enabled(Play(before), a) {
        StepKeepsLetters(Play(before), a, l);
      }
      if Somewhere(Play(before), l) {
        LettersWereSent(before, l);
      }
    }
  }
}
