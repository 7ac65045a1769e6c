/**
 * The bounded channel (packages/core/src/channel/index.ts): a buffer, a queue of waiting
 * senders, a queue of waiting receivers, and one `pump` that moves values between them.
 *
 * Operations are numbered in call order. `log` records every resolve and reject call.
 */
module Channel {
  import opened Wrappers

  datatype Op = SendOp(n: nat) | ReceiveOp(n: nat)

  /** How a promise of the channel settles. */
  datatype Entry<T> =
    | SendResolved(n: nat)
    | SendClosed(n: nat)
    | SendAborted(n: nat)
    | Received(n: nat, value: T)
    | EndOfStream(n: nat, reason: Option<int>)
    | ReceiveAborted(n: nat)
  {
    function Operation(): Op {
      if SendResolved? || SendClosed? || SendAborted? then SendOp(n) else ReceiveOp(n)
    }
  }

  datatype Sender<T> = Sender(op: nat, value: T)

  /** `sent` holds the value of every send call, `receives` counts receive calls. */
  datatype Chan<T> = Chan(
    capacity: nat, buffer: seq<T>, senders: seq<Sender<T>>, receivers: seq<nat>,
    closed: bool, reason: Option<int>, sent: seq<T>, receives: nat, log: seq<Entry<T>>)

  // ---- pump ----------------------------------------------------------------------------

  function DeliverBuffered<T>(c: Chan<T>): Chan<T>
    requires c.receivers != [] && c.buffer != []
  {
    c.(receivers := c.receivers[1..], buffer := c.buffer[1..], log := c.log + [Received(c.receivers[0], c.buffer[0])])
  }

  function HandOver<T>(c: Chan<T>): Chan<T>
    requires c.receivers != [] && c.senders != []
  {
    c.(senders := c.senders[1..], receivers := c.receivers[1..],
       log := c.log + [Received(c.receivers[0], c.senders[0].value), SendResolved(c.senders[0].op)])
  }

  function BufferSender<T>(c: Chan<T>): Chan<T>
    requires c.senders != []
  {
    c.(senders := c.senders[1..], buffer := c.buffer + [c.senders[0].value],
       log := c.log + [SendResolved(c.senders[0].op)])
  }

  function EndReceiver<T>(c: Chan<T>): Chan<T>
    requires c.receivers != []
  {
    c.(receivers := c.receivers[1..], log := c.log + [EndOfStream(c.receivers[0], c.reason)])
  }

  function PumpBuffer<T>(c: Chan<T>): Chan<T>
    decreases |c.receivers|
  {
    if c.receivers != [] && c.buffer != [] then PumpBuffer(DeliverBuffered(c)) else c
  }

  function PumpSenders<T>(c: Chan<T>): Chan<T>
    decreases |c.senders|
  {
    if c.closed || c.senders == [] then c
    else if c.receivers != [] then PumpSenders(HandOver(c))
    else if |c.buffer| < c.capacity then PumpSenders(BufferSender(c))
    else c
  }

  function PumpEnd<T>(c: Chan<T>): Chan<T>
    decreases |c.receivers|
  {
    if c.closed && c.buffer == [] && c.receivers != [] then PumpEnd(EndReceiver(c)) else c
  }

  function Pump<T>(c: Chan<T>): Chan<T> {
    PumpEnd(PumpSenders(PumpBuffer(c)))
  }

  // ---- Operations ----------------------------------------------------------------------

  function Send<T>(c: Chan<T>, value: T, aborted: bool): Chan<T> {
    var n := |c.sent|;
    var d := c.(sent := c.sent + [value]);
    if c.closed then d.(log := d.log + [SendClosed(n)])
    else if aborted then d.(log := d.log + [SendAborted(n)])
    else Pump(d.(senders := d.senders + [Sender(n, value)]))
  }

  function Receive<T>(c: Chan<T>, aborted: bool): Chan<T> {
    var d := c.(receives := c.receives + 1);
    if aborted then d.(log := d.log + [ReceiveAborted(c.receives)])
    else Pump(d.(receivers := d.receivers + [c.receives]))
  }

  function RejectSenders<T>(c: Chan<T>): Chan<T>
    decreases |c.senders|
  {
    if c.senders == [] then c
    else RejectSenders(c.(senders := c.senders[1..], log := c.log + [SendClosed(c.senders[0].op)]))
  }

  function Close<T>(c: Chan<T>, reason: Option<int>): Chan<T> {
    if c.closed then c else Pump(RejectSenders(c.(closed := true, reason := reason)))
  }

  function Without<A>(s: seq<A>, i: nat): seq<A>
    requires i < |s|
  {
    s[..i] + s[i + 1..]
  }

  /** The abort listener of the i-th waiting sender. */
  function AbortSender<T>(c: Chan<T>, i: nat): Chan<T> {
    if i < |c.senders| then c.(senders := Without(c.senders, i), log := c.log + [SendAborted(c.senders[i].op)]) else c
  }

  function AbortReceiver<T>(c: Chan<T>, i: nat): Chan<T> {
    if i < |c.receivers| then c.(receivers := Without(c.receivers, i), log := c.log + [ReceiveAborted(c.receivers[i])])
    else c
  }

  datatype Event<T> =
    | DoSend(value: T, aborted: bool)
    | DoReceive(aborted: bool)
    | DoClose(reason: Option<int>)
    | DoAbortSender(i: nat)
    | DoAbortReceiver(i: nat)

  function Step<T>(c: Chan<T>, e: Event<T>): Chan<T> {
    match e
    case DoSend(value, aborted) => Send(c, value, aborted)
    case DoReceive(aborted) => Receive(c, aborted)
    case DoClose(reason) => Close(c, reason)
    case DoAbortSender(i) => AbortSender(c, i)
    case DoAbortReceiver(i) => AbortReceiver(c, i)
  }

  function Init<T>(capacity: nat): Chan<T> {
    Chan(capacity, [], [], [], false, None, [], 0, [])
  }

  function Run<T>(capacity: nat, es: seq<Event<T>>): Chan<T>
    decreases |es|
  {
    if es == [] then Init(capacity) else Step(Run(capacity, es[..|es| - 1]), es[|es| - 1])
  }

  // ---- The channel object ----------------------------------------------------------------

  class BoundedChannel<T> {
    const capacity: nat
    var buffer: seq<T>
    var senders: seq<Sender<T>>
    var receivers: seq<nat>
    var isClosed: bool
    var closeReason: Option<int>
    var sent: seq<T>
    var receives: nat
    var log: seq<Entry<T>>

    constructor (capacity: nat)
      requires capacity > 0
      ensures Now() == Init(capacity)
    {
      this.capacity := capacity;
      buffer, senders, receivers, isClosed, closeReason, sent, receives, log := [], [], [], false, None, [], 0, [];
    }

    function Now(): Chan<T>
      reads this
    {
      Chan(capacity, buffer, senders, receivers, isClosed, closeReason, sent, receives, log)
    }

    method PumpAll()
      modifies this
      ensures Now() == Pump(old(Now()))
    {
      while |receivers| > 0 && |buffer| > 0
        invariant PumpBuffer(Now()) == PumpBuffer(old(Now()))
        decreases |receivers|
      {
        var receiver := receivers[0];
        var value := buffer[0];
        receivers := receivers[1..];
        buffer := buffer[1..];
        log := log + [Received(receiver, value)];
      }
      label buffered:
      while !isClosed && |senders| > 0
        invariant PumpSenders(Now()) == PumpSenders(old@buffered(Now()))
        decreases |senders|
      {
        var sender := senders[0];
        if |receivers| > 0 {
          senders := senders[1..];
          var receiver := receivers[0];
          receivers := receivers[1..];
          log := log + [Received(receiver, sender.value), SendResolved(sender.op)];
        } else if |buffer| < capacity {
          senders := senders[1..];
          buffer := buffer + [sender.value];
          log := log + [SendResolved(sender.op)];
        } else {
          break;
        }
      }
      label moved:
      if isClosed && |buffer| == 0 {
        while |receivers| > 0
          invariant isClosed && |buffer| == 0
          invariant PumpEnd(Now()) == PumpEnd(old@moved(Now()))
          decreases |receivers|
        {
          var receiver := receivers[0];
          receivers := receivers[1..];
          log := log + [EndOfStream(receiver, closeReason)];
        }
      }
    }

    method SendValue(value: T, aborted: bool)
      modifies this
      ensures Now() == Send(old(Now()), value, aborted)
    {
      var n := |sent|;
      sent := sent + [value];
      if isClosed {
        log := log + [SendClosed(n)];
        return;
      }
      if aborted {
        log := log + [SendAborted(n)];
        return;
      }
      senders := senders + [Sender(n, value)];
      PumpAll();
    }

    method ReceiveValue(aborted: bool)
      modifies this
      ensures Now() == Receive(old(Now()), aborted)
    {
      var n := receives;
      receives := receives + 1;
      if aborted {
        log := log + [ReceiveAborted(n)];
        return;
      }
      receivers := receivers + [n];
      PumpAll();
    }

    method CloseWith(reason: Option<int>)
      modifies this
      ensures Now() == Close(old(Now()), reason)
    {
      if isClosed { return; }
      isClosed := true;
      closeReason := reason;
      label marked:
      while |senders| > 0
        invariant RejectSenders(Now()) == RejectSenders(old@marked(Now()))
        decreases |senders|
      {
        var sender := senders[0];
        senders := senders[1..];
        log := log + [SendClosed(sender.op)];
      }
      PumpAll();
    }

    method OnSenderAbort(i: nat)
      requires i < |senders|
      modifies this
      ensures Now() == AbortSender(old(Now()), i)
    {
      var op := senders[i].op;
      senders := senders[..i] + senders[i + 1..];
      log := log + [SendAborted(op)];
    }

    method OnReceiverAbort(i: nat)
      requires i < |receivers|
      modifies this
      ensures Now() == AbortReceiver(old(Now()), i)
    {
      var op := receivers[i];
      receivers := receivers[..i] + receivers[i + 1..];
      log := log + [ReceiveAborted(op)];
    }
  }
}
