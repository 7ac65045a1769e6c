/**
 * What holds of a channel after any sequence of sends, receives, aborts and closes:
 * first-in first-out delivery with every operation settled at most once, and quiescence.
 */
module ChannelRuns {
  import opened Wrappers
  import opened Channel

  // ---- Reading the log -----------------------------------------------------------------

  function Delivered<T>(log: seq<Entry<T>>): seq<T> {
    if log == [] then []
    else
      var e := log[|log| - 1];
      Delivered(log[..|log| - 1]) + (if e.Received? then [e.value] else [])
  }

  /** The sends whose promise resolved, in the order they did. */
  function Resolved<T>(log: seq<Entry<T>>): seq<nat> {
    if log == [] then []
    else
      var e := log[|log| - 1];
      Resolved(log[..|log| - 1]) + (if e.SendResolved? then [e.n] else [])
  }

  function Rejected<T>(log: seq<Entry<T>>): set<nat> {
    if log == [] then {}
    else
      var e := log[|log| - 1];
      Rejected(log[..|log| - 1]) + (if e.SendClosed? || e.SendAborted? then {e.n} else {})
  }

  function Settled<T>(log: seq<Entry<T>>): set<Op> {
    if log == [] then {} else Settled(log[..|log| - 1]) + {log[|log| - 1].Operation()}
  }

  predicate Ended<T>(log: seq<Entry<T>>) {
    log != [] && (log[|log| - 1].EndOfStream? || Ended(log[..|log| - 1]))
  }

  /** No operation settles twice, and no value is delivered after an end-of-stream. */
  predicate Lawful<T>(log: seq<Entry<T>>) {
    log == [] ||
    var e, earlier := log[|log| - 1], log[..|log| - 1];
    Lawful(earlier) && e.Operation() !in Settled(earlier) && (e.Received? ==> !Ended(earlier))
  }

  /** The sends before number n that were not rejected, in call order. */
  function Kept(n: nat, rejected: set<nat>): seq<nat> {
    if n == 0 then [] else Kept(n - 1, rejected) + (if n - 1 in rejected then [] else [n - 1])
  }

  function Ids<T>(senders: seq<Sender<T>>): seq<nat> {
    seq(|senders|, i requires 0 <= i < |senders| => senders[i].op)
  }

  function ValuesOf<T>(senders: seq<Sender<T>>): seq<T> {
    seq(|senders|, i requires 0 <= i < |senders| => senders[i].value)
  }

  function Pick<T>(sent: seq<T>, ids: seq<nat>): seq<T>
    requires forall i | 0 <= i < |ids| :: ids[i] < |sent|
  {
    seq(|ids|, i requires 0 <= i < |ids| => sent[ids[i]])
  }

  // ---- First in, first out ---------------------------------------------------------------

  ghost predicate Fifo<T>(c: Chan<T>) {
    && (forall s | s in c.senders :: s.op < |c.sent| && c.sent[s.op] == s.value)
    && Resolved(c.log) + Ids(c.senders) == Kept(|c.sent|, Rejected(c.log))
    && (forall i | 0 <= i < |Resolved(c.log)| :: Resolved(c.log)[i] < |c.sent|)
    && Pick(c.sent, Resolved(c.log)) == Delivered(c.log) + c.buffer
  }

  predicate NoRepeat(s: seq<nat>) {
    forall i, j | 0 <= i < j < |s| :: s[i] != s[j]
  }

  /** Every operation is waiting or settled, never both, and never settled twice. */
  ghost predicate Accounted<T>(c: Chan<T>) {
    && Lawful(c.log)
    && (forall n: nat :: SendOp(n) in Settled(c.log) <==> n < |c.sent| && n !in Ids(c.senders))
    && (forall n: nat :: ReceiveOp(n) in Settled(c.log) <==> n < c.receives && n !in c.receivers)
    && (forall n: nat | n in Ids(c.senders) :: n < |c.sent|)
    && (forall n: nat | n in c.receivers :: n < c.receives)
    && NoRepeat(c.receivers) && NoRepeat(Ids(c.senders))
    && (Ended(c.log) ==> c.closed && c.buffer == [])
  }

  ghost predicate Sound<T>(c: Chan<T>) {
    Fifo(c) && Accounted(c)
  }

  lemma AppendedValues<T>(log: seq<Entry<T>>, e: Entry<T>)
    ensures Delivered(log + [e]) == if e.Received? then Delivered(log) + [e.value] else Delivered(log)
    ensures Resolved(log + [e]) == if e.SendResolved? then Resolved(log) + [e.n] else Resolved(log)
    ensures Rejected(log + [e]) == if e.SendClosed? || e.SendAborted? then Rejected(log) + {e.n} else Rejected(log)
  {
    var longer := log + [e];
    assert longer[..|longer| - 1] == log && longer[|longer| - 1] == e;
  }

  lemma AppendedOps<T>(log: seq<Entry<T>>, e: Entry<T>)
    ensures Settled(log + [e]) == Settled(log) + {e.Operation()}
    ensures Ended(log + [e]) == (Ended(log) || e.EndOfStream?)
  {
    var longer := log + [e];
    assert longer[..|longer| - 1] == log && longer[|longer| - 1] == e;
  }

  lemma AppendedLawful<T>(log: seq<Entry<T>>, e: Entry<T>)
    ensures Lawful(log + [e]) == (Lawful(log) && e.Operation() !in Settled(log) && (e.Received? ==> !Ended(log)))
  {
    var longer := log + [e];
    assert longer[..|longer| - 1] == log && longer[|longer| - 1] == e;
  }

  /** What appending one entry does to every reading of the log. */
  lemma Appended<T>(log: seq<Entry<T>>, e: Entry<T>)
    ensures Delivered(log + [e]) == if e.Received? then Delivered(log) + [e.value] else Delivered(log)
    ensures Resolved(log + [e]) == if e.SendResolved? then Resolved(log) + [e.n] else Resolved(log)
    ensures Rejected(log + [e]) == if e.SendClosed? || e.SendAborted? then Rejected(log) + {e.n} else Rejected(log)
    ensures Settled(log + [e]) == Settled(log) + {e.Operation()}
    ensures Ended(log + [e]) == (Ended(log) || e.EndOfStream?)
    ensures Lawful(log + [e]) == (Lawful(log) && e.Operation() !in Settled(log) && (e.Received? ==> !Ended(log)))
  {
    AppendedValues(log, e);
    AppendedOps(log, e);
    AppendedLawful(log, e);
  }

  lemma {:induction false} KeptBelow(n: nat, rejected: set<nat>)
    ensures forall k | k in Kept(n, rejected) :: k < n && k !in rejected
  {
    if n > 0 { KeptBelow(n - 1, rejected); }
  }

  lemma {:induction false} KeptIgnores(n: nat, rejected: set<nat>, k: nat)
    requires k >= n
    ensures Kept(n, rejected + {k}) == Kept(n, rejected)
  {
    if n > 0 { KeptIgnores(n - 1, rejected, k); }
  }

  /** Rejecting one more send takes exactly that send out. */
  lemma {:induction false} KeptWithout(n: nat, rejected: set<nat>, front: seq<nat>, ids: seq<nat>, i: nat)
    requires i < |ids| && Kept(n, rejected) == front + ids
    ensures Kept(n, rejected + {ids[i]}) == front + Without(ids, i)
  {
    if n > 0 {
      var x, more := ids[i], rejected + {ids[i]};
      KeptBelow(n, rejected);
      assert (front + ids)[|front| + i] == x;
      assert x in Kept(n, rejected);
      if n - 1 in rejected {
        assert Kept(n, rejected) == Kept(n - 1, rejected) && Kept(n, more) == Kept(n - 1, more);
        KeptWithout(n - 1, rejected, front, ids, i);
      } else if i == |ids| - 1 {
        KeptWithoutLast(n, rejected, front, ids);
      } else {
        KeptLast(n, rejected, front, ids);
        var last := |ids| - 1;
        KeptBelow(n - 1, rejected);
        assert x == (front + ids[..last])[|front| + i];
        assert x in Kept(n - 1, rejected);
        KeptWithout(n - 1, rejected, front, ids[..last], i);
        assert Kept(n, more) == Kept(n - 1, more) + [n - 1];
        assert Without(ids, i) == Without(ids[..last], i) + [n - 1];
      }
    }
  }

  lemma KeptWithoutLast(n: nat, rejected: set<nat>, front: seq<nat>, ids: seq<nat>)
    requires n > 0 && n - 1 !in rejected && ids != [] && Kept(n, rejected) == front + ids
    ensures Kept(n, rejected + {ids[|ids| - 1]}) == front + Without(ids, |ids| - 1)
  {
    KeptLast(n, rejected, front, ids);
    KeptIgnores(n - 1, rejected, n - 1);
    assert Without(ids, |ids| - 1) == ids[..|ids| - 1];
  }

  lemma KeptLast(n: nat, rejected: set<nat>, front: seq<nat>, ids: seq<nat>)
    requires n > 0 && n - 1 !in rejected && ids != [] && Kept(n, rejected) == front + ids
    ensures ids[|ids| - 1] == n - 1 && Kept(n - 1, rejected) == front + ids[..|ids| - 1]
  {
    assert (front + ids)[|front + ids| - 1] == n - 1;
    assert Kept(n - 1, rejected) == (front + ids)[..|front + ids| - 1];
  }

  lemma TakeHead<A>(s: seq<A>)
    requires s != []
    ensures s == [s[0]] + s[1..]
    ensures forall x :: x in s <==> x == s[0] || x in s[1..]
  {
    assert s == [s[0]] + s[1..];
  }

  lemma HeadLeaves(s: seq<nat>)
    requires s != [] && NoRepeat(s)
    ensures NoRepeat(s[1..])
    ensures forall n :: n in s[1..] <==> n in s && n != s[0]
  {
    TakeHead(s);
    assert forall i | 0 <= i < |s[1..]| :: s[1..][i] == s[i + 1];
  }

  lemma SplitIds<T>(senders: seq<Sender<T>>)
    requires senders != []
    ensures Ids(senders) == [senders[0].op] + Ids(senders[1..])
  {
  }

  lemma DeliverKeeps<T>(c: Chan<T>)
    requires Sound(c) && c.receivers != [] && c.buffer != []
    ensures Sound(DeliverBuffered(c))
  {
    Appended(c.log, Received(c.receivers[0], c.buffer[0]));
    TakeHead(c.buffer);
    HeadLeaves(c.receivers);
    assert (Delivered(c.log) + [c.buffer[0]]) + c.buffer[1..] == Delivered(c.log) + c.buffer;
  }

  /** The head of the sender queue is resolved next; its value joins the end of what was accepted. */
  lemma ResolveHead<T>(c: Chan<T>)
    requires Fifo(c) && c.senders != []
    ensures var s := c.senders[0];
            && (Resolved(c.log) + [s.op]) + Ids(c.senders[1..]) == Kept(|c.sent|, Rejected(c.log))
            && Pick(c.sent, Resolved(c.log) + [s.op]) == (Delivered(c.log) + c.buffer) + [s.value]
  {
    SplitIds(c.senders);
    var s, front := c.senders[0], Resolved(c.log);
    assert (front + [s.op]) + Ids(c.senders[1..]) == front + Ids(c.senders);
    assert Pick(c.sent, front + [s.op]) == Pick(c.sent, front) + [s.value];
  }

  lemma HandOverValues<T>(c: Chan<T>)
    requires c.receivers != [] && c.senders != []
    ensures var s, d := c.senders[0], HandOver(c);
            && Delivered(d.log) == Delivered(c.log) + [s.value]
            && Resolved(d.log) == Resolved(c.log) + [s.op]
            && Rejected(d.log) == Rejected(c.log)
  {
    var s, r := c.senders[0], c.receivers[0];
    AppendedValues(c.log, Received(r, s.value));
    AppendedValues(c.log + [Received(r, s.value)], SendResolved(s.op));
    assert HandOver(c).log == (c.log + [Received(r, s.value)]) + [SendResolved(s.op)];
  }

  lemma HandOverOps<T>(c: Chan<T>)
    requires c.receivers != [] && c.senders != []
    ensures var s, r, d := c.senders[0], c.receivers[0], HandOver(c);
            && Settled(d.log) == Settled(c.log) + {ReceiveOp(r), SendOp(s.op)}
            && Ended(d.log) == Ended(c.log)
            && Lawful(d.log) ==
               (Lawful(c.log) && ReceiveOp(r) !in Settled(c.log) && SendOp(s.op) !in Settled(c.log) && !Ended(c.log))
  {
    var s, r := c.senders[0], c.receivers[0];
    var log1 := c.log + [Received(r, s.value)];
    AppendedOps(c.log, Received(r, s.value));
    AppendedLawful(c.log, Received(r, s.value));
    AppendedOps(log1, SendResolved(s.op));
    AppendedLawful(log1, SendResolved(s.op));
    assert HandOver(c).log == log1 + [SendResolved(s.op)];
  }

  lemma HandOverKeeps<T>(c: Chan<T>)
    requires Sound(c) && c.receivers != [] && c.senders != [] && c.buffer == [] && !c.closed
    ensures Sound(HandOver(c))
  {
    HandOverValues(c);
    HandOverOps(c);
    assert Fifo(HandOver(c)) by {
      ResolveHead(c);
      assert Delivered(c.log) + c.buffer == Delivered(c.log);
      assert Delivered(HandOver(c).log) + [] == Delivered(HandOver(c).log);
    }
    SplitIds(c.senders);
    HeadLeaves(Ids(c.senders));
    HeadLeaves(c.receivers);
  }

  lemma BufferFifo<T>(c: Chan<T>)
    requires Fifo(c) && c.senders != []
    ensures Fifo(BufferSender(c))
  {
    var s := c.senders[0];
    AppendedValues(c.log, SendResolved(s.op));
    ResolveHead(c);
    assert (Delivered(c.log) + c.buffer) + [s.value] == Delivered(c.log) + (c.buffer + [s.value]);
  }

  lemma BufferAccounted<T>(c: Chan<T>)
    requires Accounted(c) && c.senders != [] && !c.closed
    ensures Accounted(BufferSender(c))
  {
    var e: Entry<T> := SendResolved(c.senders[0].op);
    AppendedOps(c.log, e);
    AppendedLawful(c.log, e);
    SplitIds(c.senders);
    HeadLeaves(Ids(c.senders));
    assert e.n in Ids(c.senders) && e.Operation() == SendOp(e.n);
  }

  lemma BufferKeeps<T>(c: Chan<T>)
    requires Sound(c) && c.senders != [] && !c.closed
    ensures Sound(BufferSender(c))
  {
    BufferFifo(c);
    BufferAccounted(c);
  }

  lemma EndKeeps<T>(c: Chan<T>)
    requires Sound(c) && c.receivers != [] && c.closed && c.buffer == []
    ensures Sound(EndReceiver(c))
  {
    Appended(c.log, EndOfStream(c.receivers[0], c.reason));
    HeadLeaves(c.receivers);
  }

  // ---- Quiescence ------------------------------------------------------------------------

  /** Nothing that could move is left waiting. */
  ghost predicate Quiescent<T>(c: Chan<T>) {
    && |c.buffer| <= c.capacity
    && (c.receivers != [] ==> c.buffer == [] && c.senders == [])
    && (c.senders != [] ==> !c.closed && |c.buffer| == c.capacity)
    && (c.closed && c.buffer == [] ==> c.receivers == [])
  }

  lemma {:induction false} PumpBufferKeeps<T>(c: Chan<T>)
    requires Sound(c) && |c.buffer| <= c.capacity
    ensures var d := PumpBuffer(c);
            && Sound(d) && |d.buffer| <= d.capacity && (d.receivers == [] || d.buffer == [])
            && d.senders == c.senders && d.closed == c.closed && d.capacity == c.capacity && d.sent == c.sent
    decreases |c.receivers|
  {
    if c.receivers != [] && c.buffer != [] {
      DeliverKeeps(c);
      PumpBufferKeeps(DeliverBuffered(c));
    }
  }

  lemma {:induction false} PumpSendersKeeps<T>(c: Chan<T>)
    requires Sound(c) && |c.buffer| <= c.capacity && (c.receivers == [] || c.buffer == [])
    ensures var d := PumpSenders(c);
            && Sound(d) && |d.buffer| <= d.capacity && (d.receivers == [] || d.buffer == [])
            && (d.closed || d.senders == [] || (d.receivers == [] && |d.buffer| == d.capacity))
            && d.closed == c.closed && d.capacity == c.capacity && d.sent == c.sent
    decreases |c.senders|
  {
    if !c.closed && c.senders != [] {
      if c.receivers != [] {
        HandOverKeeps(c);
        PumpSendersKeeps(HandOver(c));
      } else if |c.buffer| < c.capacity {
        BufferKeeps(c);
        PumpSendersKeeps(BufferSender(c));
      }
    }
  }

  lemma {:induction false} PumpEndKeeps<T>(c: Chan<T>)
    requires Sound(c)
    ensures var d := PumpEnd(c);
            && Sound(d) && (d.closed && d.buffer == [] ==> d.receivers == [])
            && d == c.(receivers := d.receivers, log := d.log) && (d.receivers == c.receivers || d.receivers == [])
    decreases |c.receivers|
  {
    if c.closed && c.buffer == [] && c.receivers != [] {
      EndKeeps(c);
      PumpEndKeeps(EndReceiver(c));
    }
  }

  lemma PumpKeeps<T>(c: Chan<T>)
    requires Sound(c) && |c.buffer| <= c.capacity && (c.closed ==> c.senders == [])
    ensures Sound(Pump(c)) && Quiescent(Pump(c))
    ensures Pump(c).capacity == c.capacity
  {
    PumpBufferKeeps(c);
    PumpSendersKeeps(PumpBuffer(c));
    PumpEndKeeps(PumpSenders(PumpBuffer(c)));
  }

  // ---- Operations ------------------------------------------------------------------------

  /** A new send call, not yet settled or queued. */
  lemma CallKeeps<T>(c: Chan<T>, value: T)
    requires Sound(c)
    ensures var n := |c.sent|;
            && SendOp(n) !in Settled(c.log) && n !in Ids(c.senders) && n !in Rejected(c.log)
            && Resolved(c.log) + Ids(c.senders) + [n] == Kept(n + 1, Rejected(c.log))
            && Resolved(c.log) + Ids(c.senders) == Kept(n + 1, Rejected(c.log) + {n})
            && (forall i | 0 <= i < |Resolved(c.log)| :: Resolved(c.log)[i] < n)
            && Pick(c.sent + [value], Resolved(c.log)) == Pick(c.sent, Resolved(c.log))
  {
    var n := |c.sent|;
    RejectedAreSettled(c.log);
    KeptIgnores(n, Rejected(c.log), n);
    assert Kept(n, Rejected(c.log)) + [] == Kept(n, Rejected(c.log));
  }

  lemma {:induction false} RejectedAreSettled<T>(log: seq<Entry<T>>)
    ensures forall n | n in Rejected(log) :: SendOp(n) in Settled(log)
  {
    if log != [] { RejectedAreSettled(log[..|log| - 1]); }
  }

  lemma RefusedSendKeeps<T>(c: Chan<T>, value: T, e: Entry<T>)
    requires Sound(c) && (e.SendClosed? || e.SendAborted?) && e.n == |c.sent|
    ensures Sound(c.(sent := c.sent + [value], log := c.log + [e]))
  {
    CallKeeps(c, value);
    Appended(c.log, e);
  }

  lemma QueuedSendKeeps<T>(c: Chan<T>, value: T)
    requires Sound(c) && !c.closed
    ensures Sound(c.(sent := c.sent + [value], senders := c.senders + [Sender(|c.sent|, value)]))
  {
    CallKeeps(c, value);
    var more := c.senders + [Sender(|c.sent|, value)];
    assert Ids(more) == Ids(c.senders) + [|c.sent|];
    assert Resolved(c.log) + Ids(more) == Resolved(c.log) + Ids(c.senders) + [|c.sent|];
    AddedLast(Ids(c.senders), |c.sent|);
  }

  lemma SendKeeps<T>(c: Chan<T>, value: T, aborted: bool)
    requires Sound(c) && Quiescent(c)
    ensures Sound(Send(c, value, aborted)) && Quiescent(Send(c, value, aborted))
  {
    if c.closed {
      RefusedSendKeeps(c, value, SendClosed(|c.sent|));
    } else if aborted {
      RefusedSendKeeps(c, value, SendAborted(|c.sent|));
    } else {
      QueuedSendKeeps(c, value);
      PumpKeeps(c.(sent := c.sent + [value], senders := c.senders + [Sender(|c.sent|, value)]));
    }
  }

  lemma AddedLast(s: seq<nat>, n: nat)
    requires NoRepeat(s) && n !in s
    ensures NoRepeat(s + [n])
    ensures forall m :: m in s + [n] <==> m in s || m == n
  {
    assert forall i | 0 <= i < |s| :: s[i] in s;
  }

  lemma QueuedReceiveKeeps<T>(c: Chan<T>)
    requires Sound(c)
    ensures Sound(c.(receives := c.receives + 1, receivers := c.receivers + [c.receives]))
  {
    AddedLast(c.receivers, c.receives);
  }

  lemma RefusedReceiveFifo<T>(c: Chan<T>)
    requires Fifo(c)
    ensures Fifo(c.(receives := c.receives + 1, log := c.log + [ReceiveAborted(c.receives)]))
  {
    AppendedValues(c.log, ReceiveAborted(c.receives));
  }

  lemma RefusedReceiveAccounted<T>(c: Chan<T>)
    requires Accounted(c)
    ensures Accounted(c.(receives := c.receives + 1, log := c.log + [ReceiveAborted(c.receives)]))
  {
    var e: Entry<T> := ReceiveAborted(c.receives);
    assert e.Operation() == ReceiveOp(c.receives) && ReceiveOp(c.receives) !in Settled(c.log);
    AppendedOps(c.log, e);
    AppendedLawful(c.log, e);
  }

  lemma RefusedReceiveKeeps<T>(c: Chan<T>)
    requires Sound(c)
    ensures Sound(c.(receives := c.receives + 1, log := c.log + [ReceiveAborted(c.receives)]))
  {
    RefusedReceiveFifo(c);
    RefusedReceiveAccounted(c);
  }

  lemma ReceiveKeeps<T>(c: Chan<T>, aborted: bool)
    requires Sound(c) && Quiescent(c)
    ensures Sound(Receive(c, aborted)) && Quiescent(Receive(c, aborted))
  {
    if aborted {
      RefusedReceiveKeeps(c);
    } else {
      QueuedReceiveKeeps(c);
      PumpKeeps(c.(receives := c.receives + 1, receivers := c.receivers + [c.receives]));
    }
  }

  lemma WithoutMembers(s: seq<nat>, i: nat)
    requires i < |s| && NoRepeat(s)
    ensures NoRepeat(Without(s, i))
    ensures forall n :: n in Without(s, i) <==> n in s && n != s[i]
  {
    var rest := Without(s, i);
    assert forall j | 0 <= j < |rest| :: rest[j] == s[if j < i then j else j + 1];
    assert forall j | 0 <= j < |s| && j != i :: s[j] == rest[if j < i then j else j - 1];
  }

  lemma RejectSenderFifo<T>(c: Chan<T>, i: nat, e: Entry<T>)
    requires Fifo(c)
    requires i < |c.senders| && (e.SendClosed? || e.SendAborted?) && e.n == c.senders[i].op
    ensures Fifo(c.(senders := Without(c.senders, i), log := c.log + [e]))
  {
    var rest := Without(c.senders, i);
    AppendedValues(c.log, e);
    assert Ids(rest) == Without(Ids(c.senders), i);
    assert Ids(c.senders)[i] == e.n;
    KeptWithout(|c.sent|, Rejected(c.log), Resolved(c.log), Ids(c.senders), i);
    assert forall s | s in rest :: s in c.senders;
  }

  lemma RejectSenderAccounted<T>(c: Chan<T>, i: nat, e: Entry<T>)
    requires Accounted(c)
    requires i < |c.senders| && (e.SendClosed? || e.SendAborted?) && e.n == c.senders[i].op
    ensures Accounted(c.(senders := Without(c.senders, i), log := c.log + [e]))
  {
    AppendedOps(c.log, e);
    AppendedLawful(c.log, e);
    assert Ids(Without(c.senders, i)) == Without(Ids(c.senders), i);
    assert Ids(c.senders)[i] == e.n;
    WithoutMembers(Ids(c.senders), i);
    assert e.n in Ids(c.senders) && e.Operation() == SendOp(e.n);
  }

  lemma RejectSenderKeeps<T>(c: Chan<T>, i: nat, e: Entry<T>)
    requires Sound(c)
    requires i < |c.senders| && (e.SendClosed? || e.SendAborted?) && e.n == c.senders[i].op
    ensures Sound(c.(senders := Without(c.senders, i), log := c.log + [e]))
  {
    RejectSenderFifo(c, i, e);
    RejectSenderAccounted(c, i, e);
  }

  lemma {:induction false} RejectSendersKeeps<T>(c: Chan<T>)
    requires Sound(c)
    ensures var d := RejectSenders(c);
            && Sound(d) && d.senders == []
            && d.buffer == c.buffer && d.receivers == c.receivers && d.capacity == c.capacity && d.closed == c.closed
    decreases |c.senders|
  {
    if c.senders != [] {
      RejectSenderKeeps(c, 0, SendClosed(c.senders[0].op));
      assert Without(c.senders, 0) == c.senders[1..];
      RejectSendersKeeps(c.(senders := c.senders[1..], log := c.log + [SendClosed(c.senders[0].op)]));
    }
  }

  lemma CloseKeeps<T>(c: Chan<T>, reason: Option<int>)
    requires Sound(c) && Quiescent(c)
    ensures Sound(Close(c, reason)) && Quiescent(Close(c, reason))
  {
    if !c.closed {
      var d := c.(closed := true, reason := reason);
      RejectSendersKeeps(d);
      PumpKeeps(RejectSenders(d));
    }
  }

  /** An abort keeps everything without any pumping. */
  lemma AbortKeeps<T>(c: Chan<T>, i: nat)
    requires Sound(c) && Quiescent(c)
    ensures Sound(AbortSender(c, i)) && Quiescent(AbortSender(c, i))
    ensures Sound(AbortReceiver(c, i)) && Quiescent(AbortReceiver(c, i))
  {
    if i < |c.senders| { RejectSenderKeeps(c, i, SendAborted(c.senders[i].op)); }
    if i < |c.receivers| {
      Appended(c.log, ReceiveAborted(c.receivers[i]));
      WithoutMembers(c.receivers, i);
      assert c.receivers[i] in c.receivers;
    }
  }

  lemma StepKeeps<T>(c: Chan<T>, e: Event<T>)
    requires Sound(c) && Quiescent(c)
    ensures Sound(Step(c, e)) && Quiescent(Step(c, e))
  {
    match e
    case DoSend(value, aborted) => SendKeeps(c, value, aborted);
    case DoReceive(aborted) => ReceiveKeeps(c, aborted);
    case DoClose(reason) => CloseKeeps(c, reason);
    case DoAbortSender(i) => AbortKeeps(c, i);
    case DoAbortReceiver(i) => AbortKeeps(c, i);
  }

  lemma {:induction false} RunKeeps<T>(capacity: nat, es: seq<Event<T>>)
    ensures Sound(Run(capacity, es)) && Quiescent(Run(capacity, es))
    decreases |es|
  {
    if es != [] {
      RunKeeps(capacity, es[..|es| - 1]);
      StepKeeps(Run(capacity, es[..|es| - 1]), es[|es| - 1]);
    }
  }

  /**
   * First in, first out: after any operations, what was delivered, then the buffer, then
   * the values still waiting, is what was sent in call order minus the rejected sends; and
   * the resolved sends are exactly those whose value was delivered or buffered.
   */
  lemma {:induction false} FirstInFirstOut<T>(capacity: nat, es: seq<Event<T>>)
    ensures var c := Run(capacity, es);
            var kept := Kept(|c.sent|, Rejected(c.log));
            && (forall i | 0 <= i < |kept| :: kept[i] < |c.sent|)
            && (forall i | 0 <= i < |Resolved(c.log)| :: Resolved(c.log)[i] < |c.sent|)
            && Delivered(c.log) + c.buffer + ValuesOf(c.senders) == Pick(c.sent, kept)
            && kept == Resolved(c.log) + Ids(c.senders)
            && Delivered(c.log) + c.buffer == Pick(c.sent, Resolved(c.log))
  {
    var c := Run(capacity, es);
    RunKeeps(capacity, es);
    KeptBelow(|c.sent|, Rejected(c.log));
    PickWaiting(c.sent, Resolved(c.log), c.senders);
  }

  lemma PickWaiting<T>(sent: seq<T>, front: seq<nat>, senders: seq<Sender<T>>)
    requires forall i | 0 <= i < |front| :: front[i] < |sent|
    requires forall s | s in senders :: s.op < |sent| && sent[s.op] == s.value
    ensures forall i | 0 <= i < |front + Ids(senders)| :: (front + Ids(senders))[i] < |sent|
    ensures Pick(sent, front + Ids(senders)) == Pick(sent, front) + ValuesOf(senders)
  {
    var all := front + Ids(senders);
    assert forall i | |front| <= i < |all| :: all[i] == senders[i - |front|].op;
  }

  /** No operation settles twice, and an operation has settled exactly when it is no longer waiting. */
  lemma {:induction false} SettledOnce<T>(capacity: nat, es: seq<Event<T>>)
    ensures var c := Run(capacity, es);
            && (forall i, j | 0 <= i < j < |c.log| :: c.log[i].Operation() != c.log[j].Operation())
            && (forall n: nat :: SendOp(n) in Settled(c.log) <==> n < |c.sent| && n !in Ids(c.senders))
            && (forall n: nat :: ReceiveOp(n) in Settled(c.log) <==> n < c.receives && n !in c.receivers)
  {
    RunKeeps(capacity, es);
    LawfulIsDistinct(Run(capacity, es).log);
  }

  lemma {:induction false} LawfulIsDistinct<T>(log: seq<Entry<T>>)
    requires Lawful(log)
    ensures forall i | 0 <= i < |log| :: log[i].Operation() in Settled(log)
    ensures forall i, j | 0 <= i < j < |log| :: log[i].Operation() != log[j].Operation()
    ensures forall i, j | 0 <= i < j < |log| :: log[i].EndOfStream? ==> !log[j].Received?
    ensures forall i | 0 <= i < |log| :: log[i].EndOfStream? ==> Ended(log)
  {
    if log != [] {
      var n := |log| - 1;
      var earlier := log[..n];
      LawfulIsDistinct(earlier);
      forall i | 0 <= i < |log|
        ensures log[i].Operation() in Settled(log) && (log[i].EndOfStream? ==> Ended(log))
      {
        if i < n { assert earlier[i] == log[i]; }
      }
      forall i, j | 0 <= i < j < |log|
        ensures log[i].Operation() != log[j].Operation() && (log[i].EndOfStream? ==> !log[j].Received?)
      {
        assert earlier[i] == log[i];
        if j < n { assert earlier[j] == log[j]; }
      }
    }
  }

  /**
   * After every operation nothing that could move is left waiting; and no value is
   * delivered after an end-of-stream, which only a closed and empty channel gives.
   */
  lemma {:induction false} AlwaysQuiescent<T>(capacity: nat, es: seq<Event<T>>)
    ensures var c := Run(capacity, es);
            && Quiescent(c)
            && (c.closed ==> c.senders == [])
            && (forall i, j | 0 <= i < j < |c.log| :: c.log[i].EndOfStream? ==> !c.log[j].Received?)
            && (forall i | 0 <= i < |c.log| :: c.log[i].EndOfStream? ==> c.closed && c.buffer == [])
  {
    RunKeeps(capacity, es);
    LawfulIsDistinct(Run(capacity, es).log);
  }
}
