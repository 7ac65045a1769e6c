/**
 * The ownership tree of `ScopeImpl` (packages/core/src/engine/scope.ts): scopes that spawn
 * tasks, open child scopes, cancel their subtree and drain before they close. Functions on
 * `Fields` and on signals say what each operation makes of the state; the classes update it
 * in place, and `Step` is one synchronous stretch over a whole tree.
 */
module ScopeTree {
  import opened Wrappers
  import opened Contexts

  datatype State = Running | Cancelling | Closed

  /** An error value; `None` is a thrown `undefined`. */
  type Thrown = Option<int>

  datatype Reason = SiblingFailed(task: nat, error: Thrown) | Given(id: int)

  /** Where `close()` stands: not called, awaiting what it saw in the loop, in the defers, or finished. */
  datatype Drain = Idle | Waiting(tasks: set<nat>, children: set<nat>) | Cleaning | Finished

  datatype TaskStatus = BodyRunning | Succeeded | Failed | Cancelled

  datatype Outcome = Resolves | Fails(error: Thrown) | IsCancelled

  // ---- One scope's fields, and one signal ---------------------------------------------------

  /** `rounds` counts the rounds of cancel handlers run. */
  datatype Fields = Fields(
    state: State, tasks: set<nat>, children: set<nat>, failure: Thrown, drain: Drain, rounds: nat)

  const NEW := Fields(Running, {}, {}, None, Idle, 0)

  function WithChild(f: Fields, c: nat): Fields {
    f.(children := f.children + {c})
  }

  function WithoutChild(f: Fields, c: nat): Fields {
    f.(children := f.children - {c})
  }

  function WithTask(f: Fields, t: nat): Fields {
    f.(tasks := f.tasks + {t})
  }

  /** `cancel`, for the scope itself: only while running. */
  function CancelFields(f: Fields): Fields {
    if f.state.Running? then f.(state := Cancelling, rounds := f.rounds + 1) else f
  }

  /** Whether a settled body is the failure that cancels its scope. */
  predicate FirstFailure(f: Fields, background: bool, o: Outcome) {
    o.Fails? && !background && f.failure.None?
  }

  function NoteFailure(f: Fields, background: bool, o: Outcome): Fields {
    if FirstFailure(f, background, o) then CancelFields(f.(failure := o.error)) else f
  }

  /** The head of the drain loop: leave it when nothing is owned, else await everything seen now. */
  function LoopHead(f: Fields): Fields {
    f.(drain := if f.tasks == {} && f.children == {} then Cleaning else Waiting(f.tasks, f.children))
  }

  /** After the await: settled records go, then the loop head again. */
  function Pruned(f: Fields, settled: set<nat>): Fields {
    LoopHead(f.(tasks := f.tasks - settled))
  }

  function ClosedFields(f: Fields): Fields {
    f.(state := Closed, drain := Finished)
  }

  function Aborted(signal: Option<Reason>, r: Reason): Option<Reason> {
    if signal.None? then Some(r) else signal
  }

  function StatusOf(o: Outcome): TaskStatus {
    match o
    case Resolves => Succeeded
    case Fails(_) => Failed
    case IsCancelled => Cancelled
  }

  // ---- The objects --------------------------------------------------------------------------

  /** A combined abort signal. */
  class Signal {
    var reason: Option<Reason>

    constructor (reason: Option<Reason>)
      ensures this.reason == reason
    {
      this.reason := reason;
    }
  }

  /** A scope's own controller, and the signals that follow it. */
  class Controller {
    var dependents: set<Signal>

    constructor ()
      ensures dependents == {}
    {
      dependents := {};
    }

    /** `abort`: every following signal that is not yet aborted takes the reason. */
    method Abort(r: Reason)
      modifies dependents
      ensures forall d | d in dependents :: d.reason == Aborted(old(d.reason), r)
    {
      var todo := dependents;
      while todo != {}
        invariant todo <= dependents
        invariant forall d | d in todo :: d.reason == old(d.reason)
        invariant forall d | d in dependents - todo :: d.reason == Aborted(old(d.reason), r)
        decreases todo
      {
        var d :| d in todo;
        d.reason := Aborted(d.reason, r);
        todo := todo - {d};
      }
    }
  }

  /** The linking half of `AbortSignal.any`, for sources none of which is aborted. */
  method Follow(sources: set<Controller>, signal: Signal)
    modifies sources
    ensures forall c | c in sources :: c.dependents == old(c.dependents) + {signal}
  {
    var todo := sources;
    while todo != {}
      invariant todo <= sources
      invariant forall c | c in todo :: c.dependents == old(c.dependents)
      invariant forall c | c in sources - todo :: c.dependents == old(c.dependents) + {signal}
      decreases todo
    {
      var c :| c in todo;
      c.dependents := c.dependents + {signal};
      todo := todo - {c};
    }
  }

  class TaskRecord {
    const background: bool
    var status: TaskStatus

    constructor (background: bool)
      ensures this.background == background && status == BodyRunning
    {
      this.background, status := background, BodyRunning;
    }
  }

  class ScopeImpl {
    const id: nat
    const parent: ScopeImpl?
    const own: Controller
    const sources: set<Controller>
    const signal: Signal
    const context: Bag<BudgetCell>
    var state: State
    var tasks: map<nat, TaskRecord>
    var children: set<nat>
    var failure: Thrown
    var drain: Drain
    var rounds: nat

    function Now(): Fields
      reads this
    {
      Fields(state, tasks.Keys, children, failure, drain, rounds)
    }

    /**
     * Opens a scope: its signal follows the parent's sources and its own controller, unless the
     * parent is already aborted.
     */
    constructor (id: nat, parent: ScopeImpl?, context: Option<Bag<BudgetCell>>)
      modifies parent, if parent == null then {} else parent.sources
      ensures Now() == NEW && this.id == id && this.parent == parent
      ensures this.context ==
              if context.Some? then context.value else if parent != null then parent.context else EmptyBag()
      ensures fresh(own) && fresh(signal) && sources == (if parent == null then {} else parent.sources) + {own}
      ensures signal.reason == if parent == null then None else old(parent.signal.reason)
      ensures signal.reason.Some? ==> own.dependents == {} && forall c | c in sources - {own} ::
          c.dependents == old(c.dependents)
      ensures signal.reason.None? ==>
                own.dependents == {signal} && forall c | c in sources - {own} ::
                    c.dependents == old(c.dependents) + {signal}
      ensures parent != null ==> parent.Now() == WithChild(old(parent.Now()), id)
    {
      var controller := new Controller();
      var above := if parent == null then {} else parent.sources;
      var combined := new Signal(if parent == null then None else parent.signal.reason);
      this.context := if context.Some? then context.value else if parent != null then parent.context else EmptyBag();
      this.id, this.parent, own, sources, signal := id, parent, controller, above + {controller}, combined;
      state, tasks, children, failure, drain, rounds := Running, map[], {}, None, Idle, 0;
      new;
      if signal.reason == None { Follow(sources, signal); }
      if parent != null { parent.children := parent.children + {id}; }
    }

    /** Starts a task, unless the scope is no longer running. */
    method Spawn(task: nat, background: bool) returns (record: Option<TaskRecord>)
      modifies this
      ensures record.Some? <==> old(state).Running?
      ensures record.Some? ==>
                && Now() == WithTask(old(Now()), task)
                && tasks == old(tasks)[task := record.value] && fresh(record.value)
                && record.value.status.BodyRunning? && record.value.background == background
      ensures record.None? ==> Now() == old(Now()) && tasks == old(tasks)
    {
      if state != Running { return None; }
      var started := new TaskRecord(background);
      tasks := tasks[task := started];
      return Some(started);
    }

    /** Synchronous: marks the scope, aborts every signal that follows it, and runs the handlers once. */
    method CancelWith(r: Reason)
      modifies this, own.dependents
      ensures Now() == CancelFields(old(Now())) && tasks == old(tasks)
      ensures forall d | d in own.dependents ::
          d.reason == if old(state).Running? then Aborted(old(d.reason), r) else old(d.reason)
    {
      if state != Running { return; }
      state := Cancelling;
      own.Abort(r);
      rounds := rounds + 1;
    }

    /** What follows `await task(ctx)`: the status, and for the first failure of a foreground task, cancellation. */
    method OnBodySettled(task: nat, record: TaskRecord, o: Outcome)
      modifies this, own.dependents, record
      ensures record.status == StatusOf(o) && tasks == old(tasks)
      ensures Now() == NoteFailure(old(Now()), record.background, o)
      ensures forall d | d in own.dependents :: d.reason ==
                if FirstFailure(old(Now()), record.background, o) && old(state).Running?
                then Aborted(old(d.reason), SiblingFailed(task, o.error)) else old(d.reason)
    {
      record.status := StatusOf(o);
      if o.Fails? && !record.background && failure == None {
        failure := o.error;
        CancelWith(SiblingFailed(task, o.error));
      }
    }

    method DrainHead()
      modifies this
      ensures Now() == LoopHead(old(Now())) && tasks == old(tasks)
    {
      drain := if tasks.Keys == {} && children == {} then Cleaning else Waiting(tasks.Keys, children);
    }

    /** After one await of the drain loop: every record whose body has settled is removed. */
    method OnAwaited()
      modifies this
      ensures Now() == Pruned(old(Now()), set t | t in old(tasks) && !old(tasks[t].status).BodyRunning?)
      ensures tasks == map t | t in old(tasks) && old(tasks[t].status).BodyRunning? :: old(tasks)[t]
    {
      var todo := tasks.Keys;
      while todo != {}
        invariant todo <= old(tasks).Keys
        invariant Now() == old(Now()).(tasks := tasks.Keys)
        invariant tasks == map t | t in old(tasks) && (t in todo || old(tasks[t].status).BodyRunning?) :: old(tasks)[t]
        decreases todo
      {
        var t :| t in todo;
        if tasks[t].status != BodyRunning { tasks := tasks - {t}; }
        todo := todo - {t};
      }
      assert tasks.Keys == old(tasks).Keys - (set t | t in old(tasks) && !old(tasks[t].status).BodyRunning?);
      DrainHead();
    }

    /** After the defers: leaves the parent and closes. */
    method FinishClose()
      requires parent != this
      modifies this, parent
      ensures Now() == ClosedFields(old(Now())) && tasks == old(tasks)
      ensures parent != null ==> parent.Now() == WithoutChild(old(parent.Now()), id)
    {
      if parent != null { parent.children := parent.children - {id}; }
      state := Closed;
      drain := Finished;
    }
  }

  // ---- The whole tree -------------------------------------------------------------------------

  /** An accepted cancellation. */
  datatype Cancel = Cancel(scope: nat, reason: Reason)

  /** A task of the tree; its promise settles after its own defers, later than its status. */
  datatype Task = Task(scope: nat, background: bool, status: TaskStatus, settled: bool)

  /**
   * Scopes and tasks by number: each scope's parent, fields and combined signal, the scopes
   * whose controllers that signal follows (`sources`), and the scopes whose signals follow
   * its controller (`dependents`). `cancels` logs the accepted cancellations in order.
   */
  datatype System = System(
    parents: seq<Option<nat>>, fields: seq<Fields>, signals: seq<Option<Reason>>,
    sources: seq<set<nat>>, dependents: seq<set<nat>>, tasks: seq<Task>, cancels: seq<Cancel>)

  const INITIAL := System([], [], [], [], [], [], [])

  datatype Event =
    | Open(parent: Option<nat>)
    | Spawn(scope: nat, background: bool)
    | BodySettles(task: nat, outcome: Outcome)
    | TaskDefersDone(task: nat)
    | CancelCall(scope: nat, reason: Reason)
    | Close(scope: nat)
    | Awaited(scope: nat)
    | ScopeDefersDone(scope: nat)

  predicate Shaped(y: System) {
    && |y.parents| == |y.fields| == |y.signals| == |y.sources| == |y.dependents|
    && (forall t | 0 <= t < |y.tasks| :: y.tasks[t].scope < |y.fields|)
    && (forall c | 0 <= c < |y.parents| && y.parents[c].Some? :: y.parents[c].value < c)
  }

  function OpenScope(y: System, parent: Option<nat>): System
    requires Shaped(y) && (parent.Some? ==> parent.value < |y.fields|)
  {
    var n := |y.fields|;
    var above := if parent.Some? then y.sources[parent.value] else {};
    var signal := if parent.Some? then y.signals[parent.value] else None;
    var linked := seq(n, i requires 0 <= i < n =>
      if signal.None? && i in above then y.dependents[i] + {n} else y.dependents[i]);
    var fields := if parent.Some? then y.fields[parent.value := WithChild(y.fields[parent.value], n)] else y.fields;
    System(y.parents + [parent], fields + [NEW], y.signals + [signal], y.sources + [above + {n}],
           linked + [if signal.None? then {n} else {}], y.tasks, y.cancels)
  }

  /** `AbortController.abort` on scope s's own controller. */
  function AbortFrom(y: System, s: nat, r: Reason): System
    requires Shaped(y) && s < |y.fields|
  {
    y.(signals := seq(|y.signals|, i requires 0 <= i < |y.signals| =>
         if i in y.dependents[s] then Aborted(y.signals[i], r) else y.signals[i]),
       cancels := y.cancels + [Cancel(s, r)])
  }

  function CancelScope(y: System, s: nat, r: Reason): System
    requires Shaped(y) && s < |y.fields|
  {
    if y.fields[s].state.Running? then AbortFrom(y.(fields := y.fields[s := CancelFields(y.fields[s])]), s, r) else y
  }

  function SettleBody(y: System, t: nat, o: Outcome): System
    requires Shaped(y) && t < |y.tasks|
  {
    var s, task := y.tasks[t].scope, y.tasks[t];
    var z := y.(tasks := y.tasks[t := task.(status := StatusOf(o))],
                fields := y.fields[s := NoteFailure(y.fields[s], task.background, o)]);
    if FirstFailure(y.fields[s], task.background, o) && y.fields[s].state.Running?
    then AbortFrom(z, s, SiblingFailed(t, o.error))
    else z
  }

  function SettledTasks(y: System): set<nat> {
    set t: nat | t < |y.tasks| && !y.tasks[t].status.BodyRunning?
  }

  predicate AllSettled(y: System, d: Drain)
    requires d.Waiting?
  {
    && (forall t | t in d.tasks :: t < |y.tasks| && y.tasks[t].settled)
    && (forall c | c in d.children :: c < |y.fields| && y.fields[c].state.Closed?)
  }

  function CloseScope(y: System, s: nat): System
    requires Shaped(y) && s < |y.fields|
  {
    var p := y.parents[s];
    var left := if p.Some? then y.fields[p.value := WithoutChild(y.fields[p.value], s)] else y.fields;
    y.(fields := left[s := ClosedFields(left[s])])
  }

  /** One synchronous stretch; an event that cannot happen, or that the source refuses, changes nothing. */
  function Step(y: System, e: Event): (z: System)
    requires Shaped(y)
    ensures Shaped(z)
  {
    match e
    case Open(p) => if p.Some? && p.value >= |y.fields| then y else OpenScope(y, p)
    case Spawn(s, background) =>
      if s >= |y.fields| || !y.fields[s].state.Running? then y
      else y.(tasks := y.tasks + [Task(s, background, BodyRunning, false)],
              fields := y.fields[s := WithTask(y.fields[s], |y.tasks|)])
    case BodySettles(t, o) =>
      if t >= |y.tasks| || !y.tasks[t].status.BodyRunning? then y else SettleBody(y, t, o)
    case TaskDefersDone(t) =>
      if t >= |y.tasks| || y.tasks[t].status.BodyRunning? then y
      else y.(tasks := y.tasks[t := y.tasks[t].(settled := true)])
    case CancelCall(s, r) => if s >= |y.fields| then y else CancelScope(y, s, r)
    case Close(s) =>
      if s >= |y.fields| || !y.fields[s].drain.Idle? then y
      else y.(fields := y.fields[s := LoopHead(y.fields[s])])
    case Awaited(s) =>
      if s >= |y.fields| || !y.fields[s].drain.Waiting? || !AllSettled(y, y.fields[s].drain) then y
      else y.(fields := y.fields[s := Pruned(y.fields[s], SettledTasks(y))])
    case ScopeDefersDone(s) =>
      if s >= |y.fields| || !y.fields[s].drain.Cleaning? then y else CloseScope(y, s)
  }

  function Run(es: seq<Event>): (y: System)
    ensures Shaped(y)
    decreases |es|
  {
    if es == [] then INITIAL else Step(Run(es[..|es| - 1]), es[|es| - 1])
  }

  /** Scope c is scope a or lies below it. */
  predicate Under(parents: seq<Option<nat>>, c: nat, a: nat)
    decreases c
  {
    c == a || (c < |parents| && parents[c].Some? && parents[c].value < c && Under(parents, parents[c].value, a))
  }
}
