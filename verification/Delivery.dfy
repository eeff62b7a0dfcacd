/** Exactly-once delivery: crashes, duplicates and restarts from the persisted cursor leave no trace. */
module Delivery {
  import opened Wrappers
  import opened MoneyMath
  import opened OrderMachine
  import opened Rows
  import opened Orders
  import opened ExecutionService
  import opened Engine

  /** The database already knows this event: its execution is booked, or its envelope recorded. */
  ghost predicate Absorbed(s: State, e: Event) {
    && e.order < |s.orders|
    && (e.IsFill() ==> e.execution.Some?)
    && ((e.IsFill() && Booked(s.fills, e.execution.value.id)) || (e.ext.Some? && Seen(s.audit, e.ext.value)))
  }

  /** Rows that are there stay there. */
  ghost predicate Grown(s: State, next: State) {
    && |s.orders| <= |next.orders| && s.audit <= next.audit && s.fills <= next.fills
  }

  lemma AbsorbedIsNoOp(s: State, e: Event)
    requires Absorbed(s, e)
    ensures EventApplied(s, e) == Commit(s) && Next(s, Deliver(e)) == s
  {
  }

  lemma AppliedIsAbsorbed(s: State, e: Event)
    requires EventApplied(s, e).Commit? && (e.ext.Some? || e.IsFill())
    ensures Absorbed(EventApplied(s, e).state, e)
  {
    var t, next := Transitions(s, Deliver(e)), Next(s, Deliver(e));
    StepsInFull(s, Deliver(e));
    if t.OrderEffect? {
      assert next.audit[|s.audit|].ext == e.ext;
      if e.IsFill() { assert next.fills[|s.fills|].exec == e.execution.value.id; }
    } else if !(e.IsFill() && Booked(s.fills, e.execution.value.id)) {
      NoChangeIsDuplicate(s, e);
    }
  }

  /** An applied event always leaves a row, so one that changed nothing had been seen. */
  lemma NoChangeIsDuplicate(s: State, e: Event)
    requires EventApplied(s, e) == Commit(s) && !(e.IsFill() && Booked(s.fills, e.execution.value.id))
    ensures e.ext.Some? && Seen(s.audit, e.ext.value)
  {
    var fill := if e.IsFill() then e.execution else None;
    match Transitioned(s, e.order, e.kind, FromBroker, e.ext, fill)
    case Applied(mid) =>
      assert |mid.audit| > |s.audit|;
      if e.IsFill() { FillEffectsInFull(mid, e.order, e.execution.value); }
    case _ =>
  }

  lemma StepGrows(s: State, a: Action)
    ensures Grown(s, Next(s, a))
  {
    StepsInFull(s, a);
    if Transitions(s, a).NoOrderEffect? { OtherStepsInFull(s, a); }
  }

  lemma AbsorbedStays(s: State, next: State, e: Event)
    requires Absorbed(s, e) && Grown(s, next)
    ensures Absorbed(next, e)
  {
  }

  lemma {:induction false} AbsorbedForever(s: State, e: Event, actions: seq<Action>)
    requires Absorbed(s, e)
    ensures Absorbed(Run(s, actions), e)
  {
    if actions != [] {
      var before, a := actions[..|actions| - 1], actions[|actions| - 1];
      AbsorbedForever(s, e, before);
      StepGrows(Run(s, before), a);
      AbsorbedStays(Run(s, before), Run(s, actions), e);
    }
  }

  /**
   * Delivery-independence: once an event has committed, delivering it again later, with any other
   * transactions in between and after, changes no run.
   */
  lemma RedeliveryInvisible(s: State, before: seq<Action>, e: Event, between: seq<Action>, after: seq<Action>)
    requires e.ext.Some? || e.IsFill()
    requires Effect(Run(s, before), Deliver(e)).Commit?
    ensures Run(s, before + [Deliver(e)] + between + [Deliver(e)] + after) == Run(s, before + [Deliver(e)] + between + after)
  {
    var once := before + [Deliver(e)];
    RunConcat(s, before, [Deliver(e)]);
    assert [Deliver(e)][..0] == [];
    AppliedIsAbsorbed(Run(s, before), e);
    RunConcat(s, once, between);
    AbsorbedForever(Run(s, once), e, between);
    AbsorbedIsNoOp(Run(s, once + between), e);
    RunConcat(s, once + between, [Deliver(e)]);
    RunConcat(s, once + between + [Deliver(e)], after);
    RunConcat(s, once + between, after);
  }

  /** One venue execution books once, whatever envelope it comes in next. */
  lemma SameExecutionOnce(s: State, first: Event, second: Event)
    requires first.IsFill() && second.IsFill() && first.execution.Some? && second.execution.Some?
    requires first.execution.value.id == second.execution.value.id
    requires EventApplied(s, first).Commit? && second.order < |EventApplied(s, first).state.orders|
    requires first.ext.Some? ==> !Seen(s.audit, first.ext.value)
    ensures EventApplied(EventApplied(s, first).state, second) == Commit(EventApplied(s, first).state)
  {
    hide Transitioned, FillEffects, Seen;
    var next := EventApplied(s, first).state;
    StepsInFull(s, Deliver(first));
    if Transitions(s, Deliver(first)).OrderEffect? {
      assert next.fills[|s.fills|].exec == second.execution.value.id;
    } else if !Booked(s.fills, first.execution.value.id) {
      NoChangeIsDuplicate(s, first);
    }
  }

  // ---- the worker's stream ----

  ghost predicate Distinct(log: seq<Event>) {
    && (forall i | 0 <= i < |log| :: log[i].ext.Some?)
    && (forall i, j | 0 <= i < j < |log| :: log[i].ext != log[j].ext)
  }

  /** Where a subscription resumes: just after the event the cursor names. */
  function Resume(log: seq<Event>, cursor: Option<EnvelopeId>): (at: nat)
    ensures at <= |log|
  {
    if log == [] || cursor.None? then 0
    else if log[|log| - 1].ext == cursor then |log|
    else Resume(log[..|log| - 1], cursor)
  }

  lemma {:induction false} ResumeAfter(log: seq<Event>, i: nat)
    requires Distinct(log) && i < |log|
    ensures Resume(log, log[i].ext) == i + 1
  {
    if i < |log| - 1 { ResumeAfter(log[..|log| - 1], i); }
  }

  /** A step of the history: a log event delivered for the first time, or any other transaction. */
  datatype Item = FromLog(index: nat) | Own(action: Action)

  function ActionsOf(log: seq<Event>, history: seq<Item>): seq<Action>
    requires forall k | 0 <= k < |history| :: history[k].FromLog? ==> history[k].index < |log|
  {
    seq(|history|, k requires 0 <= k < |history| =>
      if history[k].FromLog? then Deliver(log[history[k].index]) else history[k].action)
  }

  /** The log positions in a history, in order. */
  function Firsts(history: seq<Item>): seq<nat> {
    if history == [] then []
    else
      var last := history[|history| - 1];
      Firsts(history[..|history| - 1]) + if last.FromLog? then [last.index] else []
  }

  /** The other transactions in a history, in order. */
  function Owns(history: seq<Item>): seq<Action> {
    if history == [] then []
    else
      var last := history[|history| - 1];
      Owns(history[..|history| - 1]) + if last.Own? then [last.action] else []
  }

  function Upto(n: nat): seq<nat> {
    if n == 0 then [] else Upto(n - 1) + [n - 1]
  }

  lemma {:induction false} UptoAt(n: nat, k: nat)
    requires k < n
    ensures |Upto(n)| == n && Upto(n)[k] == k
  {
    if k < n - 1 { UptoAt(n - 1, k); } else if 0 < n - 1 { UptoAt(n - 1, 0); }
  }

  lemma UptoLength(n: nat)
    ensures |Upto(n)| == n
  {
  }

  /**
   * The worker: database and cursor are durable; `next` (what this connection delivers next) and
   * `handling` (applied, cursor not yet written) are lost in a crash. `history` and `reached` (how
   * much of the log has been applied) are for the proof.
   */
  datatype Worker = Worker(db: State, cursor: Option<EnvelopeId>, next: nat, handling: Option<nat>,
                           history: seq<Item>, reached: nat)

  /** The handler, on the next event or on one redelivered; when it throws the connection is gone. */
  datatype WorkerStep = Handle(index: nat) | PersistCursor | Crash | Other(action: Action)

  ghost predicate Enabled(log: seq<Event>, w: Worker, step: WorkerStep) {
    match step
    case Handle(i) => w.handling.None? && i <= w.next && i < |log|
    case PersistCursor => w.handling.Some?
    case Crash => true
    case Other(_) => true
  }

  function WorkerNext(log: seq<Event>, w: Worker, step: WorkerStep): Worker {
    match step
    case Handle(i) =>
      if |log| <= i || Effect(w.db, Deliver(log[i])).Abort? then w.(next := Resume(log, w.cursor), handling := None)
      else w.(db := Next(w.db, Deliver(log[i])), handling := Some(i),
              history := if i == w.reached then w.history + [FromLog(i)] else w.history,
              reached := if i == w.reached then i + 1 else w.reached)
    case PersistCursor =>
      if w.handling.None? || |log| <= w.handling.value then w
      else w.(cursor := log[w.handling.value].ext, handling := None,
              next := if w.handling.value == w.next then w.next + 1 else w.next)
    case Crash => w.(next := Resume(log, w.cursor), handling := None)
    case Other(a) => w.(db := Next(w.db, a), history := w.history + [Own(a)])
  }

  ghost predicate WorkerOk(log: seq<Event>, s: State, w: Worker) {
    && w.reached <= |log| && w.next <= w.reached && Resume(log, w.cursor) <= w.reached
    && (w.handling.Some? ==> w.handling.value < w.reached)
    && (forall k | 0 <= k < |w.history| :: w.history[k].FromLog? ==> w.history[k].index < |log|)
    && w.db == Run(s, ActionsOf(log, w.history))
    && Firsts(w.history) == Upto(w.reached)
    && (forall i | 0 <= i < w.reached :: Absorbed(w.db, log[i]))
  }

  lemma HistoryExtends(log: seq<Event>, s: State, history: seq<Item>, item: Item)
    requires forall k | 0 <= k < |history| :: history[k].FromLog? ==> history[k].index < |log|
    requires item.FromLog? ==> item.index < |log|
    ensures Run(s, ActionsOf(log, history + [item])) ==
      Next(Run(s, ActionsOf(log, history)), if item.FromLog? then Deliver(log[item.index]) else item.action)
    ensures Firsts(history + [item]) == Firsts(history) + if item.FromLog? then [item.index] else []
  {
    var all := ActionsOf(log, history + [item]);
    assert all[..|history|] == ActionsOf(log, history);
    assert (history + [item])[..|history|] == history;
  }

  lemma AbsorbedAllStay(log: seq<Event>, s: State, a: Action, n: nat)
    requires n <= |log| && forall i | 0 <= i < n :: Absorbed(s, log[i])
    ensures forall i | 0 <= i < n :: Absorbed(Next(s, a), log[i])
  {
    StepGrows(s, a);
    forall i | 0 <= i < n ensures Absorbed(Next(s, a), log[i]) {
      AbsorbedStays(s, Next(s, a), log[i]);
    }
  }

  lemma HandleKeeps(log: seq<Event>, s: State, w: Worker, i: nat)
    requires Distinct(log) && WorkerOk(log, s, w) && Enabled(log, w, Handle(i))
    requires Effect(w.db, Deliver(log[i])).Commit?
    ensures WorkerOk(log, s, WorkerNext(log, w, Handle(i)))
  {
    hide EventApplied, Run, Absorbed, Firsts, ActionsOf, Resume;
    AbsorbedAllStay(log, w.db, Deliver(log[i]), w.reached);
    AppliedIsAbsorbed(w.db, log[i]);
    if i == w.reached {
      HistoryExtends(log, s, w.history, FromLog(i));
      assert Upto(w.reached + 1) == Upto(w.reached) + [i];
    } else {
      AbsorbedIsNoOp(w.db, log[i]);
    }
  }

  lemma WorkerStepKeeps(log: seq<Event>, s: State, w: Worker, step: WorkerStep)
    requires Distinct(log) && WorkerOk(log, s, w) && Enabled(log, w, step)
    ensures WorkerOk(log, s, WorkerNext(log, w, step))
  {
    match step
    case Handle(i) =>
      if Effect(w.db, Deliver(log[i])).Commit? { HandleKeeps(log, s, w, i); }
    case PersistCursor => ResumeAfter(log, w.handling.value);
    case Crash =>
    case Other(a) =>
      AbsorbedAllStay(log, w.db, a, w.reached);
      HistoryExtends(log, s, w.history, Own(a));
  }

  function WorkerRun(log: seq<Event>, w: Worker, steps: seq<WorkerStep>): Worker {
    if steps == [] then w else WorkerNext(log, WorkerRun(log, w, steps[..|steps| - 1]), steps[|steps| - 1])
  }

  ghost predicate Schedule(log: seq<Event>, w: Worker, steps: seq<WorkerStep>) {
    forall k | 0 <= k < |steps| :: Enabled(log, WorkerRun(log, w, steps[..k]), steps[k])
  }

  /** The other transactions of a schedule, in order. */
  function Others(steps: seq<WorkerStep>): seq<Action> {
    if steps == [] then []
    else
      var last := steps[|steps| - 1];
      Others(steps[..|steps| - 1]) + if last.Other? then [last.action] else []
  }

  lemma OwnsExtend(log: seq<Event>, w: Worker, step: WorkerStep)
    ensures Owns(WorkerNext(log, w, step).history) == Owns(w.history) + if step.Other? then [step.action] else []
  {
    hide Effect, Next, Resume;
    match step
    case Handle(i) => assert (w.history + [FromLog(i)])[..|w.history|] == w.history;
    case Other(a) => assert (w.history + [Own(a)])[..|w.history|] == w.history;
    case _ =>
  }

  lemma {:induction false} OwnsAreOthers(log: seq<Event>, w: Worker, steps: seq<WorkerStep>)
    requires w.history == []
    ensures Owns(WorkerRun(log, w, steps).history) == Others(steps)
  {
    if steps != [] {
      OwnsAreOthers(log, w, steps[..|steps| - 1]);
      OwnsExtend(log, WorkerRun(log, w, steps[..|steps| - 1]), steps[|steps| - 1]);
    }
    hide WorkerNext, Owns;
  }

  /** A worker that has just started on an empty cursor. */
  function Started(s: State): Worker { Worker(s, None, 0, None, [], 0) }

  lemma {:induction false} EverySchedule(log: seq<Event>, s: State, steps: seq<WorkerStep>)
    requires Distinct(log) && Schedule(log, Started(s), steps)
    ensures WorkerOk(log, s, WorkerRun(log, Started(s), steps))
  {
    if steps == [] {
      assert Firsts([]) == Upto(0);
    } else {
      var before := steps[..|steps| - 1];
      forall k | 0 <= k < |before| ensures Enabled(log, WorkerRun(log, Started(s), before[..k]), before[k]) {
        assert before[..k] == steps[..k] && before[k] == steps[k];
      }
      EverySchedule(log, s, before);
      assert Enabled(log, WorkerRun(log, Started(s), steps[..|before|]), steps[|before|]);
      WorkerStepKeeps(log, s, WorkerRun(log, Started(s), before), steps[|before|]);
    }
  }

  /**
   * After any schedule of deliveries, redeliveries, crashes and restarts, with any other
   * transactions in between: every event at or before the persisted cursor is already applied, and
   * the database is what one history gives that holds each reached log event exactly once, in log
   * order, and of other transactions exactly the schedule's, in their order.
   */
  lemma {:induction false} ExactlyOnce(log: seq<Event>, s: State, steps: seq<WorkerStep>)
    requires Distinct(log) && Schedule(log, Started(s), steps)
    ensures var w := WorkerRun(log, Started(s), steps);
      && (forall i | 0 <= i < Resume(log, w.cursor) :: EventApplied(w.db, log[i]) == Commit(w.db))
      && (forall k | 0 <= k < |w.history| :: w.history[k].FromLog? ==> w.history[k].index < |log|)
      && w.db == Run(s, ActionsOf(log, w.history))
      && Firsts(w.history) == Upto(w.reached) && Owns(w.history) == Others(steps)
  {
    EverySchedule(log, s, steps);
    OwnsAreOthers(log, Started(s), steps);
    var w := WorkerRun(log, Started(s), steps);
    forall i | 0 <= i < Resume(log, w.cursor) ensures EventApplied(w.db, log[i]) == Commit(w.db) {
      AbsorbedIsNoOp(w.db, log[i]);
    }
  }

  /** The events of `log` from `from` up to `end`, delivered in order. */
  function Deliveries(log: seq<Event>, from: nat, end: nat): seq<Action>
    requires from <= end <= |log|
  {
    if from == end then [] else Deliveries(log, from, end - 1) + [Deliver(log[end - 1])]
  }

  lemma {:induction false} DeliveriesSplit(log: seq<Event>, from: nat, mid: nat, end: nat)
    requires from <= mid <= end <= |log|
    ensures Deliveries(log, from, end) == Deliveries(log, from, mid) + Deliveries(log, mid, end)
  {
    if mid < end { DeliveriesSplit(log, from, mid, end - 1); }
  }

  lemma {:induction false} DeliveriesAt(log: seq<Event>, from: nat, end: nat, k: nat)
    requires from + k < end <= |log|
    ensures |Deliveries(log, from, end)| == end - from && Deliveries(log, from, end)[k] == Deliver(log[from + k])
  {
    if from + k < end - 1 {
      DeliveriesAt(log, from, end - 1, k);
    } else if 0 < k {
      DeliveriesAt(log, from, end - 1, 0);
    }
  }

  lemma DeliverOneMore(log: seq<Event>, s: State, from: nat, end: nat)
    requires from <= end < |log|
    ensures Run(s, Deliveries(log, from, end + 1)) == Next(Run(s, Deliveries(log, from, end)), Deliver(log[end]))
  {
    var so := Deliveries(log, from, end);
    assert (so + [Deliver(log[end])])[..|so|] == so;
    hide Next;
  }

  lemma NoDeliveries(log: seq<Event>, s: State, n: nat)
    requires n <= |log|
    ensures Run(s, Deliveries(log, n, n)) == s
  {
  }

  lemma {:induction false} NoOpTail(log: seq<Event>, db: State, from: nat, end: nat)
    requires from <= end <= |log| && forall i | from <= i < end :: Absorbed(db, log[i])
    ensures Run(db, Deliveries(log, from, end)) == db
    decreases end
  {
    hide *;
    if from == end {
      NoDeliveries(log, db, end);
    } else {
      NoOpTail(log, db, from, end - 1);
      AbsorbedIsNoOp(db, log[end - 1]);
      DeliverOneMore(log, db, from, end - 1);
    }
  }

  lemma HistoryIsLog(log: seq<Event>, history: seq<Item>, n: nat)
    requires n <= |log| && Firsts(history) == Upto(n)
    requires forall k | 0 <= k < |history| :: history[k].FromLog?
    ensures forall k | 0 <= k < |history| :: history[k].index < |log|
    ensures ActionsOf(log, history) == Deliveries(log, 0, n)
  {
    AllFirsts(history);
    UptoLength(n);
    hide Firsts, Upto, Deliveries;
    forall k: nat | k < n
      ensures history[k] == FromLog(k) && |Deliveries(log, 0, n)| == n && Deliveries(log, 0, n)[k] == Deliver(log[k])
    {
      UptoAt(n, k);
      DeliveriesAt(log, 0, n, k);
    }
  }

  /** What the worker's invariant says of the rest of the log. */
  lemma OnlyTheRest(log: seq<Event>, s: State, w: Worker)
    requires WorkerOk(log, s, w)
    ensures Run(w.db, Deliveries(log, Resume(log, w.cursor), |log|)) ==
            Run(s, ActionsOf(log, w.history) + Deliveries(log, w.reached, |log|))
  {
    hide Run, Absorbed, Resume, Firsts, Upto, Deliveries, ActionsOf;
    var from := Resume(log, w.cursor);
    NoOpTail(log, w.db, from, w.reached);
    DeliveriesSplit(log, from, w.reached, |log|);
    RunConcat(w.db, Deliveries(log, from, w.reached), Deliveries(log, w.reached, |log|));
    RunConcat(s, ActionsOf(log, w.history), Deliveries(log, w.reached, |log|));
  }

  /**
   * Whatever happened, other transactions included: delivering the tail from the persisted cursor
   * adds exactly the events not reached yet, each once.
   */
  lemma TailAddsTheRest(log: seq<Event>, s: State, steps: seq<WorkerStep>)
    requires Distinct(log) && Schedule(log, Started(s), steps)
    ensures var w := WorkerRun(log, Started(s), steps);
      && Resume(log, w.cursor) <= w.reached <= |log|
      && (forall k | 0 <= k < |w.history| :: w.history[k].FromLog? ==> w.history[k].index < |log|)
      && Run(w.db, Deliveries(log, Resume(log, w.cursor), |log|)) ==
         Run(s, ActionsOf(log, w.history) + Deliveries(log, w.reached, |log|))
  {
    EverySchedule(log, s, steps);
    OnlyTheRest(log, s, WorkerRun(log, Started(s), steps));
  }

  /** Without other transactions: whatever happened, delivering the tail ends where one clean pass ends. */
  lemma TailFromCursor(log: seq<Event>, s: State, steps: seq<WorkerStep>)
    requires Distinct(log) && Schedule(log, Started(s), steps)
    requires forall k | 0 <= k < |steps| :: !steps[k].Other?
    ensures var w := WorkerRun(log, Started(s), steps);
      Run(w.db, Deliveries(log, Resume(log, w.cursor), |log|)) == Run(s, Deliveries(log, 0, |log|))
  {
    TailAddsTheRest(log, s, steps);
    EverySchedule(log, s, steps);
    OnlyLog(log, Started(s), steps);
    var w := WorkerRun(log, Started(s), steps);
    HistoryIsLog(log, w.history, w.reached);
    DeliveriesSplit(log, 0, w.reached, |log|);
  }

  lemma {:induction false} OnlyLog(log: seq<Event>, w: Worker, steps: seq<WorkerStep>)
    requires forall k | 0 <= k < |steps| :: !steps[k].Other?
    requires forall k | 0 <= k < |w.history| :: w.history[k].FromLog?
    ensures forall k | 0 <= k < |WorkerRun(log, w, steps).history| :: WorkerRun(log, w, steps).history[k].FromLog?
  {
    if steps != [] { OnlyLog(log, w, steps[..|steps| - 1]); }
  }

  lemma {:induction false} AllFirsts(history: seq<Item>)
    requires forall k | 0 <= k < |history| :: history[k].FromLog?
    ensures |Firsts(history)| == |history| && forall k | 0 <= k < |history| :: Firsts(history)[k] == history[k].index
  {
    if history != [] { AllFirsts(history[..|history| - 1]); }
  }

  /** startIngestion's callback: apply first, then overwrite the persisted cursor. */
  class Ingestion {
    const tx: Database
    var cursor: Option<EnvelopeId>

    constructor (tx: Database, cursor: Option<EnvelopeId>)
      ensures this.tx == tx && this.cursor == cursor
    {
      this.tx, this.cursor := tx, cursor;
    }

    method OnEvent(e: Event) returns (ok: bool)
      modifies this, tx
      ensures ok <==> Effect(old(tx.Contents()), Deliver(e)).Commit?
      ensures tx.Contents() == Next(old(tx.Contents()), Deliver(e))
      ensures cursor == if ok && e.ext.Some? then e.ext else old(cursor)
    {
      ok := OnBrokerEvent(tx, e);
      if ok && e.ext.Some? { cursor := e.ext; }
    }

    /** One connection: events in order until one throws. */
    method Consume(events: seq<Event>) returns (handled: nat)
      modifies this, tx
      ensures handled <= |events|
      ensures tx.Contents() == Run(old(tx.Contents()), Deliveries(events, 0, handled))
      ensures handled < |events| ==> Effect(tx.Contents(), Deliver(events[handled])).Abort?
    {
      handled := 0;
      while handled < |events|
        invariant handled <= |events|
        invariant tx.Contents() == Run(old(tx.Contents()), Deliveries(events, 0, handled))
      {
        var ok := OnEvent(events[handled]);
        if !ok { return; }
        DeliverOneMore(events, old(tx.Contents()), 0, handled);
        handled := handled + 1;
      }
    }
  }
}
