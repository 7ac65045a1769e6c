/**
 * The other side of the channel: receives are answered in call order, an end of stream
 * carries the reason of the close, closed sends are refused in call order, and one send or
 * receive does exactly one thing.
 */
module ChannelAnswers {
  import opened Wrappers
  import opened Channel
  import opened ChannelRuns

  // ---- Receives are answered in call order -----------------------------------------------------

  /** The receives answered by a value or an end of stream, in the order they were. */
  function Answered<T>(log: seq<Entry<T>>): seq<nat> {
    if log == [] then []
    else
      var e := log[|log| - 1];
      Answered(log[..|log| - 1]) + (if e.Received? || e.EndOfStream? then [e.n] else [])
  }

  function AbortedReceives<T>(log: seq<Entry<T>>): set<nat> {
    if log == [] then {}
    else
      var e := log[|log| - 1];
      AbortedReceives(log[..|log| - 1]) + (if e.ReceiveAborted? then {e.n} else {})
  }

  lemma AnsweredAppended<T>(log: seq<Entry<T>>, e: Entry<T>)
    ensures Answered(log + [e]) == if e.Received? || e.EndOfStream? then Answered(log) + [e.n] else Answered(log)
    ensures AbortedReceives(log + [e]) ==
            if e.ReceiveAborted? then AbortedReceives(log) + {e.n} else AbortedReceives(log)
  {
    assert (log + [e])[..|log|] == log;
  }

  ghost predicate InTurn<T>(c: Chan<T>) {
    && Answered(c.log) + c.receivers == Kept(c.receives, AbortedReceives(c.log))
    && forall n | n in AbortedReceives(c.log) :: n < c.receives
  }

  /** The head of the receiver queue is answered next. */
  lemma HeadAnswered<T>(c: Chan<T>, d: Chan<T>, e: Entry<T>)
    requires InTurn(c) && c.receivers != [] && (e.Received? || e.EndOfStream?) && e.n == c.receivers[0]
    requires d.receives == c.receives && d.receivers == c.receivers[1..] && d.log == c.log + [e]
    ensures InTurn(d)
  {
    AnsweredAppended(c.log, e);
    assert (Answered(c.log) + [c.receivers[0]]) + c.receivers[1..] == Answered(c.log) + c.receivers;
  }

  /** Entries about sends, and everything that is not in the log, change no turn. */
  lemma SendEntryKeepsTurn<T>(c: Chan<T>, d: Chan<T>, e: Entry<T>)
    requires InTurn(c) && (e.SendResolved? || e.SendClosed? || e.SendAborted?)
    requires d.receives == c.receives && d.receivers == c.receivers && d.log == c.log + [e]
    ensures InTurn(d)
  {
    AnsweredAppended(c.log, e);
  }

  lemma {:induction false} PumpBufferInTurn<T>(c: Chan<T>)
    requires InTurn(c)
    ensures InTurn(PumpBuffer(c))
    decreases |c.receivers|
  {
    if c.receivers != [] && c.buffer != [] {
      HeadAnswered(c, DeliverBuffered(c), Received(c.receivers[0], c.buffer[0]));
      PumpBufferInTurn(DeliverBuffered(c));
    }
  }

  lemma HandOverInTurn<T>(c: Chan<T>)
    requires InTurn(c) && c.receivers != [] && c.senders != []
    ensures InTurn(HandOver(c))
  {
    var first: Entry<T> := Received(c.receivers[0], c.senders[0].value);
    var second: Entry<T> := SendResolved(c.senders[0].op);
    var mid := c.(receivers := c.receivers[1..], log := c.log + [first]);
    HeadAnswered(c, mid, first);
    assert c.log + [first, second] == (c.log + [first]) + [second];
    SendEntryKeepsTurn(mid, HandOver(c), second);
  }

  lemma {:induction false} PumpSendersInTurn<T>(c: Chan<T>)
    requires InTurn(c)
    ensures InTurn(PumpSenders(c))
    decreases |c.senders|
  {
    if !c.closed && c.senders != [] {
      if c.receivers != [] {
        HandOverInTurn(c);
        PumpSendersInTurn(HandOver(c));
      } else if |c.buffer| < c.capacity {
        SendEntryKeepsTurn(c, BufferSender(c), SendResolved(c.senders[0].op));
        PumpSendersInTurn(BufferSender(c));
      }
    }
  }

  lemma {:induction false} PumpEndInTurn<T>(c: Chan<T>)
    requires InTurn(c)
    ensures InTurn(PumpEnd(c))
    decreases |c.receivers|
  {
    if c.closed && c.buffer == [] && c.receivers != [] {
      HeadAnswered(c, EndReceiver(c), EndOfStream(c.receivers[0], c.reason));
      PumpEndInTurn(EndReceiver(c));
    }
  }

  lemma PumpInTurn<T>(c: Chan<T>)
    requires InTurn(c)
    ensures InTurn(Pump(c))
  {
    PumpBufferInTurn(c);
    PumpSendersInTurn(PumpBuffer(c));
    PumpEndInTurn(PumpSenders(PumpBuffer(c)));
  }

  lemma SendInTurn<T>(c: Chan<T>, value: T, aborted: bool)
    requires InTurn(c)
    ensures InTurn(Send(c, value, aborted))
  {
    var d := c.(sent := c.sent + [value]);
    if c.closed {
      SendEntryKeepsTurn(c, Send(c, value, aborted), SendClosed(|c.sent|));
    } else if aborted {
      SendEntryKeepsTurn(c, Send(c, value, aborted), SendAborted(|c.sent|));
    } else {
      PumpInTurn(d.(senders := d.senders + [Sender(|c.sent|, value)]));
    }
  }

  lemma RefusedReceiveInTurn<T>(c: Chan<T>)
    requires InTurn(c)
    ensures InTurn(c.(receives := c.receives + 1, log := c.log + [ReceiveAborted(c.receives)]))
  {
    var n, gone := c.receives, AbortedReceives(c.log);
    AnsweredAppended(c.log, ReceiveAborted(n));
    KeptIgnores(n, gone, n);
    assert Kept(n + 1, gone + {n}) == Kept(n, gone);
  }

  lemma QueuedReceiveInTurn<T>(c: Chan<T>)
    requires InTurn(c)
    ensures InTurn(c.(receives := c.receives + 1, receivers := c.receivers + [c.receives]))
  {
    var n, gone := c.receives, AbortedReceives(c.log);
    assert Kept(n + 1, gone) == Kept(n, gone) + [n];
    assert Answered(c.log) + (c.receivers + [n]) == (Answered(c.log) + c.receivers) + [n];
  }

  lemma ReceiveInTurn<T>(c: Chan<T>, aborted: bool)
    requires InTurn(c)
    ensures InTurn(Receive(c, aborted))
  {
    if aborted {
      RefusedReceiveInTurn(c);
    } else {
      QueuedReceiveInTurn(c);
      PumpInTurn(c.(receives := c.receives + 1, receivers := c.receivers + [c.receives]));
    }
  }

  lemma {:induction false} RejectsInTurn<T>(c: Chan<T>)
    requires InTurn(c)
    ensures InTurn(RejectSenders(c))
    decreases |c.senders|
  {
    if c.senders != [] {
      var d := c.(senders := c.senders[1..], log := c.log + [SendClosed(c.senders[0].op)]);
      SendEntryKeepsTurn(c, d, SendClosed(c.senders[0].op));
      RejectsInTurn(d);
    }
  }

  lemma AbortReceiverInTurn<T>(c: Chan<T>, i: nat)
    requires InTurn(c)
    ensures InTurn(AbortReceiver(c, i))
  {
    if i < |c.receivers| {
      var n := c.receivers[i];
      AnsweredAppended(c.log, ReceiveAborted(n));
      KeptBelow(c.receives, AbortedReceives(c.log));
      assert (Answered(c.log) + c.receivers)[|Answered(c.log)| + i] == n;
      assert n in Kept(c.receives, AbortedReceives(c.log));
      KeptWithout(c.receives, AbortedReceives(c.log), Answered(c.log), c.receivers, i);
      assert Answered(c.log + [ReceiveAborted(n)]) == Answered(c.log);
    }
  }

  lemma StepInTurn<T>(c: Chan<T>, e: Event<T>)
    requires InTurn(c)
    ensures InTurn(Step(c, e))
  {
    match e
    case DoSend(value, aborted) => SendInTurn(c, value, aborted);
    case DoReceive(aborted) => ReceiveInTurn(c, aborted);
    case DoClose(reason) =>
      if !c.closed {
        RejectsInTurn(c.(closed := true, reason := reason));
        PumpInTurn(RejectSenders(c.(closed := true, reason := reason)));
      }
    case DoAbortSender(i) =>
      if i < |c.senders| { SendEntryKeepsTurn(c, AbortSender(c, i), SendAborted(c.senders[i].op)); }
    case DoAbortReceiver(i) => AbortReceiverInTurn(c, i);
  }

  /**
   * Receivers are served first in, first out: after any operations, the receives answered
   * by a value or an end of stream, in the order they were, followed by those waiting, are
   * exactly the receive calls in call order minus the aborted ones.
   */
  lemma {:induction false} AnsweredInTurn<T>(capacity: nat, es: seq<Event<T>>)
    ensures var c := Run(capacity, es);
            Answered(c.log) + c.receivers == Kept(c.receives, AbortedReceives(c.log))
    ensures InTurn(Run(capacity, es))
    decreases |es|
  {
    if es != [] {
      AnsweredInTurn(capacity, es[..|es| - 1]);
      StepInTurn(Run(capacity, es[..|es| - 1]), es[|es| - 1]);
    }
  }

  // ---- One operation does one thing -------------------------------------------------------------

  /**
   * One send, on a channel at rest: refused if the channel is closed, else if it is
   * aborted; handed to the first waiting receiver; buffered if there is room; and otherwise
   * it waits last.
   */
  lemma SendExactly<T>(c: Chan<T>, value: T, aborted: bool)
    requires Quiescent(c)
    ensures var n, d := |c.sent|, c.(sent := c.sent + [value]);
            Send(c, value, aborted) ==
            if c.closed then d.(log := c.log + [SendClosed(n)])
            else if aborted then d.(log := c.log + [SendAborted(n)])
            else if c.receivers != [] then
              d.(receivers := c.receivers[1..], log := c.log + [Received(c.receivers[0], value), SendResolved(n)])
            else if |c.buffer| < c.capacity then d.(buffer := c.buffer + [value], log := c.log + [SendResolved(n)])
            else d.(senders := c.senders + [Sender(n, value)])
  {
    if !c.closed && !aborted {
      var n, d := |c.sent|, c.(sent := c.sent + [value]);
      var w := d.(senders := d.senders + [Sender(n, value)]);
      assert PumpBuffer(w) == w;
      if c.receivers != [] {
        assert w.senders == [Sender(n, value)] && w.senders[1..] == [];
        assert PumpSenders(HandOver(w)) == HandOver(w);
      } else if |c.buffer| < c.capacity {
        assert w.senders == [Sender(n, value)] && w.senders[1..] == [];
        assert PumpSenders(BufferSender(w)) == BufferSender(w);
      } else {
        assert PumpSenders(w) == w;
      }
    }
  }

  /** What fills the place of a value taken from the buffer: the first waiting sender. */
  function Refill<T>(c: Chan<T>): Chan<T> {
    if c.senders == [] then c else BufferSender(c)
  }

  /**
   * One receive, on a channel at rest: refused if it is aborted; given the oldest buffered
   * value, whose place the first waiting sender takes; given a waiting sender's value
   * directly when nothing is ever buffered; told the end of a closed channel with its
   * reason; and otherwise it waits last.
   */
  lemma ReceiveExactly<T>(c: Chan<T>, aborted: bool)
    requires Quiescent(c)
    ensures var n, d := c.receives, c.(receives := c.receives + 1);
            Receive(c, aborted) ==
            if aborted then d.(log := c.log + [ReceiveAborted(n)])
            else if c.buffer != [] then Refill(d.(buffer := c.buffer[1..], log := c.log + [Received(n, c.buffer[0])]))
            else if c.senders != [] then
              d.(senders := c.senders[1..],
                 log := c.log + [Received(n, c.senders[0].value), SendResolved(c.senders[0].op)])
            else if c.closed then d.(log := c.log + [EndOfStream(n, c.reason)])
            else d.(receivers := c.receivers + [n])
  {
    if !aborted {
      var n, d := c.receives, c.(receives := c.receives + 1);
      var w := d.(receivers := d.receivers + [n]);
      if c.buffer != [] {
        assert w.receivers == [n] && w.receivers[1..] == [];
        var t := DeliverBuffered(w);
        assert PumpBuffer(w) == t;
        if t.senders != [] { assert PumpSenders(BufferSender(t)) == BufferSender(t); }
      } else if c.senders != [] {
        assert w.receivers == [n] && w.receivers[1..] == [];
        assert PumpSenders(HandOver(w)) == HandOver(w);
      } else if c.closed {
        assert w.receivers == [n] && w.receivers[1..] == [];
        assert PumpEnd(EndReceiver(w)) == EndReceiver(w);
      } else {
        assert PumpSenders(w) == w;
      }
    }
  }

  /** The entries a close writes for waiting senders and receivers, in queue order. */
  function ClosedEntries<T>(senders: seq<Sender<T>>): seq<Entry<T>> {
    seq(|senders|, i requires 0 <= i < |senders| => SendClosed(senders[i].op))
  }

  function EndEntries<T>(receivers: seq<nat>, reason: Option<int>): seq<Entry<T>> {
    seq(|receivers|, i requires 0 <= i < |receivers| => EndOfStream(receivers[i], reason))
  }

  lemma {:induction false} RejectsExactly<T>(c: Chan<T>)
    ensures RejectSenders(c) == c.(senders := [], log := c.log + ClosedEntries(c.senders))
    decreases |c.senders|
  {
    if c.senders == [] {
      assert c.log + ClosedEntries(c.senders) == c.log;
    } else {
      var e: Entry<T> := SendClosed(c.senders[0].op);
      RejectsExactly(c.(senders := c.senders[1..], log := c.log + [e]));
      assert ClosedEntries(c.senders) == [e] + ClosedEntries(c.senders[1..]);
      assert (c.log + [e]) + ClosedEntries(c.senders[1..]) == c.log + ClosedEntries(c.senders);
    }
  }

  lemma {:induction false} EndsExactly<T>(c: Chan<T>)
    requires c.closed && c.buffer == []
    ensures PumpEnd(c) == c.(receivers := [], log := c.log + EndEntries(c.receivers, c.reason))
    decreases |c.receivers|
  {
    if c.receivers == [] {
      assert c.log + EndEntries<T>(c.receivers, c.reason) == c.log;
    } else {
      var e: Entry<T> := EndOfStream(c.receivers[0], c.reason);
      EndsExactly(EndReceiver(c));
      assert EndEntries<T>(c.receivers, c.reason) == [e] + EndEntries(c.receivers[1..], c.reason);
      assert (c.log + [e]) + EndEntries(c.receivers[1..], c.reason) == c.log + EndEntries(c.receivers, c.reason);
    }
  }

  /**
   * One close, on a channel at rest: the first one refuses every waiting sender and ends
   * every waiting receiver, each in its turn and with the reason given, and keeps what is
   * buffered; any later one does nothing.
   */
  lemma CloseExactly<T>(c: Chan<T>, reason: Option<int>)
    requires Quiescent(c)
    ensures Close(c, reason) ==
            if c.closed then c
            else c.(closed := true, reason := reason, senders := [], receivers := [],
                    log := c.log + ClosedEntries(c.senders) + EndEntries(c.receivers, reason))
  {
    if !c.closed {
      var d := c.(closed := true, reason := reason);
      RejectsExactly(d);
      var w := RejectSenders(d);
      assert PumpBuffer(w) == w && PumpSenders(w) == w;
      if w.buffer == [] {
        EndsExactly(w);
      } else {
        assert c.receivers == [] && EndEntries<T>(c.receivers, reason) == [];
      }
    }
  }

  /** An abort takes out the operation it belongs to, and no other. */
  lemma AbortExactly<T>(c: Chan<T>, i: nat)
    ensures AbortSender(c, i) ==
            if i < |c.senders| then c.(senders := Without(c.senders, i), log := c.log + [SendAborted(c.senders[i].op)])
            else c
    ensures AbortReceiver(c, i) ==
            if i < |c.receivers|
            then c.(receivers := Without(c.receivers, i), log := c.log + [ReceiveAborted(c.receivers[i])]) else c
  {
  }
}
