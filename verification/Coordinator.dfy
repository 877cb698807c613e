/**
 * The saga coordinator: one method per branch of the step processor, the result handler, the
 * initiation of compensation and the two drivers, all working on the store and the bus in place.
 *
 * Each method takes the saga's ordered picture v and the step's position i as ghost arguments and
 * reports, also as a ghost, the action it performed. "Healthy" below means that no store operation
 * and no publish failed during the call.
 */
module Coordinators {
  import opened Types
  import opened StepOrder
  import opened Stores
  import opened Transitions
  import opened Inputs
  import opened Machine
  import opened Validators
  import opened Invariants
  import opened StoreRuns
  import opened Steering
  import opened Drivers
  import opened Settling
  import Services
  import Submissions
  import StoreEnds

  type Millis = x: int | x > 0 witness 1

  /** The clock of the process, in milliseconds; it does not go back. */
  class Clock {
    var now: Millis

    constructor (now: Millis)
      ensures this.now == now
    {
      this.now := now;
    }

    method Read() returns (t: Millis)
      modifies this
      ensures old(now) <= t == now
    {
      assert now >= now;
      t :| t >= now;
      now := t;
    }
  }

  method RandomString() returns (s: string) {
    s := *;
  }

  function WithSaga(v: View, s: SagaState, reason: string): View {
    v.(saga := v.saga.(state := s, compensationReason := reason))
  }

  function NoSaga(): SagaInstance {
    SagaInstance("", "", SagaRunning, map[], [], "", "", "", 0, "")
  }

  /** What the coordinator is called for, by its pollers, by its queues, or by an operator. */
  datatype Call =
    | ToPick(stepId: string)
    | ToPoll(stepId: string)
    | ToTrigger(stepId: string)
    | ToReceive(stepId: string, status: ResultStatus, data: Data)
    | ToSubmit(p: Submissions.SubmissionRequest, ids: seq<string>, executionIds: seq<string>)
    | ToAsk(sagaId: string)

  /** The event is what the call was made for. */
  ghost predicate IsAnswer(e: Event, call: Call) {
    match call
    case ToPick(stepId) => e == Pick(stepId)
    case ToPoll(stepId) => e.Poll? && e.i < |e.v.steps| && e.v.steps[e.i].id == stepId
    case ToTrigger(stepId) => e.Trigger? && e.i < |e.v.steps| && e.v.steps[e.i].id == stepId
    case ToReceive(stepId, status, data) =>
      && e.Result? && e.i < |e.v.steps| && e.v.steps[e.i].id == stepId
      && (e.acts != [] ==> exists at :: e.acts == [Receive(e.i, status, data, at)])
    case ToSubmit(p, ids, _) => e.Submit? && e.v.saga.id == p.sagaId && e.v.saga.stepIds == ids
    case ToAsk(sagaId) => e == Ask(sagaId)
  }

  /** Nothing happens, or what the call was made for. */
  ghost predicate Answers(x: Service, call: Call, answer: Option<Event>, x': Service) {
    if answer.Some? then Happens(x, answer.value, x') && IsAnswer(answer.value, call) else x' == x
  }

  class Coordinator {
    const store: Store
    const bus: MessageBus
    const clock: Clock
    const executionTimeoutMs: Millis

    constructor (store: Store, bus: MessageBus, clock: Clock, executionTimeoutMs: Millis)
      ensures this.store == store && this.bus == bus && this.clock == clock
      ensures this.executionTimeoutMs == executionTimeoutMs
    {
      this.store := store;
      this.bus := bus;
      this.clock := clock;
      this.executionTimeoutMs := executionTimeoutMs;
    }

    /** The durable state: the committed tables and the requests on the bus. */
    ghost function TheWorld(): World
      reads store, bus
    {
      World(store.committed, bus.published)
    }

    /** No transaction is open, v is the saga as stored, and the caller's structs are fresh. */
    ghost predicate Ready(v: View, saga: SagaInstance, step: StepInstance, i: nat)
      reads store
    {
      store.tx.None? && IsView(store.committed, v) && saga == v.saga && i < |v.steps| && step == v.steps[i]
    }

    // ----- shared helpers -----

    /** Lists the steps, rebuilds their order and looks for the given step. */
    method LoadOrderedSteps(sagaId: string, stepId: string, ghost v: View, ghost i: nat)
      returns (ok: bool, ordered: seq<StepInstance>, index: int)
      requires IsView(store.Current(), v) && sagaId == v.saga.id && i < |v.steps| && stepId == v.steps[i].id
      modifies store`faults
      ensures ok ==> ordered == v.steps && index == i && store.faults == old(store.faults)
      ensures !ok ==> store.faults == old(store.faults) + 1
    {
      hide IsView, IsListing, Linked;
      ordered := [];
      index := -1;
      var rows;
      ok, rows := store.ListSagaStepInstancesBySagaInstanceId(sagaId);
      if !ok {
        return;
      }
      ordered := OrderListing(rows, v);
      index := FindStep(ordered, stepId);
      StepIdsAreDistinct(store.Current(), v);
    }

    /** Whatever order the rows arrive in, they come out in the template's order. */
    method OrderListing(rows: seq<StepInstance>, ghost v: View) returns (ordered: seq<StepInstance>)
      requires IsView(store.Current(), v) && IsListing(rows, store.Current(), v.saga.id)
      ensures ordered == v.steps
    {
      ListingMatchesView(rows, store.Current(), v);
      assert Linked(v);
      hide IsView, IsListing, Linked, IsOrder;
      LinkedRowsHaveTheirOrder(v, rows);
      ordered := OrderSagaStepsInSequence(rows);
      OrderIsUnique(ordered, v.steps, rows);
    }

    /** The position of a step in the ordered list, or -1. */
    method FindStep(ordered: seq<StepInstance>, stepId: string) returns (index: int)
      ensures -1 <= index < |ordered|
      ensures index >= 0 ==> ordered[index].id == stepId
      ensures index == -1 ==> forall j :: 0 <= j < |ordered| ==> ordered[j].id != stepId
    {
      for k := 0 to |ordered|
        invariant forall j :: 0 <= j < k ==> ordered[j].id != stepId
      {
        if ordered[k].id == stepId {
          return k;
        }
      }
      return -1;
    }

    /** Writes a step's state and reads the row back; the caller's struct becomes the stored row. */
    method TransitSagaStepToState(step: StepInstance, target: StepState, ghost v: View, ghost i: nat)
      returns (ok: bool, refreshed: StepInstance)
      requires IsView(store.Current(), v) && i < |v.steps| && step.id == v.steps[i].id
      modifies store
      ensures store.tx.Some? == old(store.tx.Some?) && store.faults >= old(store.faults)
      ensures store.tx.Some? ==> store.committed == old(store.committed)
      ensures ok ==> refreshed == v.steps[i].(state := target)
      ensures ok ==> Landed(old(store.Current()), store.Current(), v.(steps := SetState(v.steps, i, target)))
      ensures !ok ==> store.faults > old(store.faults)
      ensures !ok ==>
        store.Current() == old(store.Current())
            || Landed(old(store.Current()), store.Current(), v.(steps := SetState(v.steps, i, target)))
    {
      hide IsView, SameOutside, Linked;
      refreshed := step;
      ok := store.UpdateSagaStepState(step, target);
      if !ok {
        return;
      }
      WriteStateMovesView(old(store.Current()), v, i, target);
      refreshed := step.(state := target);
      var found := store.GetSagaStepInstance(step.id);
      if !found.Found? {
        return false, refreshed;
      }
      // The source panics when the row read back is in another state.
      assert found.value.state == target;
      return true, found.value;
    }

    /** Writes a saga's state together with the reason in the caller's struct, and reads it back. */
    method TransitSagaToState(saga: SagaInstance, target: SagaState, ghost v: View) returns (ok: bool)
      requires IsView(store.Current(), v) && saga.id == v.saga.id
      modifies store
      ensures store.tx.Some? == old(store.tx.Some?) && store.faults >= old(store.faults)
      ensures store.tx.Some? ==> store.committed == old(store.committed)
      ensures ok ==> Landed(old(store.Current()), store.Current(), WithSaga(v, target, saga.compensationReason))
      ensures !ok ==> store.faults > old(store.faults)
      ensures !ok ==>
        store.Current() == old(store.Current())
            || Landed(old(store.Current()), store.Current(), WithSaga(v, target, saga.compensationReason))
    {
      hide IsView, SameOutside, Linked;
      ok := store.UpdateSagaState(saga, target);
      if !ok {
        return;
      }
      WriteSagaStateMovesView(old(store.Current()), v, saga, target);
      var found := store.GetSagaInstance(saga.id);
      if !found.Found? {
        return false;
      }
      // The source panics when the row read back is in another state.
      assert found.value.state == target;
    }

    /** Marks the saga invalid outside any transaction; an error is only logged. */
    method MarkInvalid(saga: SagaInstance, ghost v: View) returns (ghost a: Action)
      requires store.tx.None? && IsView(store.committed, v) && saga.id == v.saga.id
      modifies store
      ensures store.tx.None? && store.faults >= old(store.faults)
      ensures a.Idle? || a == Invalidate(saga.compensationReason)
      ensures a.Idle? ==> store.committed == old(store.committed)
      ensures Landed(old(store.committed), store.committed, Apply(v, a))
      ensures store.faults == old(store.faults) ==> a.Invalidate?
    {
      hide IsView, SameOutside, Linked;
      LandedReflexive(store.committed, v);
      var ok := TransitSagaToState(saga, SagaInvalidState, v);
      a := if store.committed == old(store.committed) && !ok then Idle else Invalidate(saga.compensationReason);
    }

    /** What the deferred function does when the handler did not commit. */
    method AbandonTransaction(saga: SagaInstance, mustInvalidate: bool, ghost v: View) returns (ghost a: Action)
      requires IsView(store.committed, v) && saga.id == v.saga.id
      modifies store
      ensures store.tx.None? && store.faults >= old(store.faults)
      ensures a.Idle? || (mustInvalidate && a == Invalidate(saga.compensationReason))
      ensures Landed(old(store.committed), store.committed, Apply(v, a))
      ensures mustInvalidate && store.faults == old(store.faults) ==> a.Invalidate?
    {
      hide IsView, SameOutside, Linked;
      LandedReflexive(store.committed, v);
      a := Idle;
      var rolledBack := store.RollbackTransaction();
      if mustInvalidate {
        var began := store.BeginTransaction();
        if !began {
          return;
        }
        var ok := TransitSagaToState(saga, SagaInvalidState, v);
        if !ok {
          rolledBack := store.RollbackTransaction();
          return;
        }
        ok := store.CommitTransaction();
        if ok {
          a := Invalidate(saga.compensationReason);
        }
      }
    }

    // ----- ExecutionSucceeded -----

    /** Runs inside the handler's transaction. */
    method FinishInTransaction(saga: SagaInstance, step: StepInstance, ghost v: View, ghost i: nat)
      returns (committed: bool, mustInvalidate: bool)
      requires store.tx == Some(store.committed) && IsView(store.committed, v)
      requires saga == v.saga && i < |v.steps| && step == v.steps[i]
      modifies store
      ensures store.faults >= old(store.faults)
      ensures committed ==> FinishGuard(v, i) && store.tx.None? && !mustInvalidate
      ensures committed && step.state.ExecutionSucceeded? ==>
        Landed(old(store.committed), store.committed, Apply(v, Finish(i)))
      ensures !committed ==> store.committed == old(store.committed)
      ensures mustInvalidate ==> !FinishGuard(v, i)
      ensures store.faults == old(store.faults) ==> committed || mustInvalidate
    {
      hide IsView, SameOutside, Linked;
      committed, mustInvalidate := false, false;
      var ok, ordered, index := LoadOrderedSteps(saga.id, step.id, v, i);
      if !ok {
        return;
      }
      var current;
      ok, current := TransitSagaStepToState(step, ExecutionDone, v, i);
      if !ok {
        return;
      }
      ghost var w := v.(steps := SetState(v.steps, i, ExecutionDone));
      ghost var db := store.Current();
      if index < |ordered| - 1 {
        var nextStep := ordered[index + 1];
        if !nextStep.state.ExecutionPending? {
          return false, true;
        }
        var promoted;
        ok, promoted := TransitSagaStepToState(nextStep, ExecutionCandidate, w, i + 1);
        if !ok {
          return;
        }
        LandedTransitive(old(store.Current()), db, store.Current(), w,
            w.(steps := SetState(w.steps, i + 1, ExecutionCandidate)));
      } else {
        for k := 0 to |ordered|
          invariant forall j :: 0 <= j < k && j != index ==> ordered[j].state.ExecutionDone?
        {
          if k != index && !ordered[k].state.ExecutionDone? {
            return false, true;
          }
        }
        assert current.state.ExecutionDone?;
        ok := TransitSagaToState(saga, SagaCommitted, w);
        if !ok {
          return;
        }
        LandedTransitive(old(store.Current()), db, store.Current(), w, WithSagaState(w, SagaCommitted));
      }
      committed := store.CommitTransaction();
    }

    /** S becomes D and the next step becomes the candidate, or the saga is committed. */
    method ProcessExecutionSucceeded(saga: SagaInstance, step: StepInstance, ghost v: View, ghost i: nat)
      returns (ghost a: Action)
      requires Ready(v, saga, step, i) && step.state.ExecutionSucceeded?
      modifies store
      ensures store.tx.None? && store.faults >= old(store.faults)
      ensures a.Idle? || a == (if FinishGuard(v, i) then Finish(i) else Invalidate(v.saga.compensationReason))
      ensures Enabled(v, a) && Landed(old(store.committed), store.committed, Apply(v, a))
      ensures store.faults == old(store.faults) ==> !a.Idle?
    {
      hide IsView, SameOutside, Linked;
      LandedReflexive(store.committed, v);
      a := Idle;
      var began := store.BeginTransaction();
      if !began {
        return;
      }
      var committed, mustInvalidate := FinishInTransaction(saga, step, v, i);
      if committed {
        a := Finish(i);
      } else {
        a := AbandonTransaction(saga, mustInvalidate, v);
      }
    }

    // ----- ExecutionCandidate -----

    /** C becomes R with a fresh execution id and a first history entry. */
    method ProcessExecutionCandidate(saga: SagaInstance, step: StepInstance, ghost v: View, ghost i: nat)
      returns (followUp: bool, current: StepInstance, ghost a: Action)
      requires Ready(v, saga, step, i) && step.state.ExecutionCandidate?
      modifies store, clock
      ensures store.tx.None? && store.faults >= old(store.faults) && clock.now >= old(clock.now)
      ensures !a.Idle? ==>
        if step.history != [] then a == BlockExecution(i)
        else if StartGuard(v, i) then a.Start? && a.i == i
        else a == Invalidate(v.saga.compensationReason)
      ensures Enabled(v, a) && Landed(old(store.committed), store.committed, Apply(v, a))
      ensures store.faults == old(store.faults) ==> !a.Idle?
      ensures (followUp <==> a.Start?) && (followUp ==> old(clock.now) <= a.now <= clock.now)
      ensures followUp ==> current == Apply(v, a).steps[i]
      ensures followUp ==> current.state.ExecutionRunning? && |current.history| == 1
      ensures followUp ==>
        IsUnsent(current.history[0], false) && old(clock.now) <= current.history[0].nextExecutionTs <= clock.now
    {
      hide IsView, SameOutside, Linked;
      LandedReflexive(store.committed, v);
      followUp, current, a := false, step, Idle;
      if |step.history| > 0 {
        a := BlockStep(step, v, i);
        return;
      }
      var ok, ordered, index := LoadOrderedSteps(saga.id, step.id, v, i);
      if !ok {
        return;
      }
      if index > 0 && !ordered[index - 1].state.ExecutionDone? {
        a := MarkInvalid(saga, v);
        return;
      }
      if index < |ordered| - 1 && !ordered[index + 1].state.ExecutionPending? {
        a := MarkInvalid(saga, v);
        return;
      }
      var executionId := RandomString();
      var now := clock.Read();
      current := step.(executionId := executionId, history := [NewLog(now, false)]);
      var committed;
      committed, current := StartInTransaction(current, now, v, i);
      if committed {
        followUp, a := true, Start(i, executionId, now);
      }
    }

    /** The id and history are written before the state: the state update reads the row back. */
    method StartInTransaction(step: StepInstance, ghost now: int, ghost v: View, ghost i: nat)
      returns (committed: bool, current: StepInstance)
      requires store.tx.None? && IsView(store.committed, v) && i < |v.steps|
      requires step == v.steps[i].(executionId := step.executionId, history := [NewLog(now, false)])
      modifies store
      ensures store.tx.None? && store.faults >= old(store.faults)
      ensures var w := v.(steps := v.steps[i := Started(v.steps[i], step.executionId, now)]);
        committed ==> Landed(old(store.committed), store.committed, w) && current == w.steps[i]
      ensures !committed ==> store.committed == old(store.committed) && store.faults > old(store.faults)
    {
      hide IsView, SameOutside, Linked;
      committed, current := false, step;
      var ok := store.BeginTransaction();
      if !ok {
        return;
      }
      ghost var db0 := store.Current();
      ok := store.UpdateSagaStepInstanceExecutionHistory(step);
      if !ok {
        ok := store.RollbackTransaction();
        return;
      }
      WriteHistoryMovesView(db0, v, i, step);
      ghost var w1 := v.(steps := v.steps[i := step]);
      ghost var db1 := store.Current();
      ok, current := TransitSagaStepToState(step, ExecutionRunning, w1, i);
      if !ok {
        ok := store.RollbackTransaction();
        return;
      }
      ghost var w2 := w1.(steps := SetState(w1.steps, i, ExecutionRunning));
      ghost var db2 := store.Current();
      LandedTransitive(db0, db1, db2, w1, w2);
      ok := store.UpdateSagaStepInstanceExecutionHistory(current);
      if !ok {
        ok := store.RollbackTransaction();
        return;
      }
      WriteHistoryMovesView(db2, w2, i, current);
      ghost var w := v.(steps := v.steps[i := Started(v.steps[i], step.executionId, now)]);
      assert w2.steps[i := w2.steps[i]] == w.steps;
      LandedTransitive(db0, db2, store.Current(), w2, w);
      committed := store.CommitTransaction();
      if !committed {
        ok := store.RollbackTransaction();
      }
    }

    /** Outside any transaction; an error is ignored. */
    method BlockStep(step: StepInstance, ghost v: View, ghost i: nat) returns (ghost a: Action)
      requires store.tx.None? && IsView(store.committed, v) && i < |v.steps| && step == v.steps[i]
      requires if step.history != [] then step.state.ExecutionCandidate? else step.state.ExecutionRunning?
      modifies store
      ensures store.tx.None? && store.faults >= old(store.faults)
      ensures a.Idle? || a == BlockExecution(i)
      ensures Landed(old(store.committed), store.committed, Apply(v, a))
      ensures store.faults == old(store.faults) ==> a.BlockExecution?
    {
      hide IsView, SameOutside, Linked;
      LandedReflexive(store.committed, v);
      var ok, current := TransitSagaStepToState(step, ExecutionBlocked, v, i);
      a := if !ok && store.committed == old(store.committed) then Idle else BlockExecution(i);
    }

    // ----- ExecutionRunning and CompensationRunning -----

    /** The deadline has passed: the log is concluded and the step fails, in one transaction. */
    method FailOnTimeout(step: StepInstance, now: int, target: StepState, ghost v: View, ghost i: nat)
      returns (committed: bool, current: StepInstance)
      requires store.tx.None? && IsView(store.committed, v) && i < |v.steps| && step == v.steps[i]
      requires step.history != []
      modifies store
      ensures store.tx.None? && store.faults >= old(store.faults)
      ensures var w := v.(steps := v.steps[i := TimedOut(v.steps[i], now, target)]);
        committed ==> Landed(old(store.committed), store.committed, w) && current == w.steps[i]
      ensures !committed ==> store.committed == old(store.committed) && store.faults > old(store.faults)
    {
      hide IsView, SameOutside, Linked;
      committed, current := false, step;
      var ok := store.BeginTransaction();
      if !ok {
        return;
      }
      ghost var db0 := store.Current();
      current := WithLastLog(step, LastLog(step).(conclusionTs := now));
      ok := store.UpdateSagaStepInstanceExecutionHistory(current);
      if !ok {
        ok := store.RollbackTransaction();
        return;
      }
      WriteHistoryMovesView(db0, v, i, current);
      ghost var w1 := v.(steps := v.steps[i := current]);
      ghost var db1 := store.Current();
      ok, current := TransitSagaStepToState(current, target, w1, i);
      if !ok {
        ok := store.RollbackTransaction();
        return;
      }
      ghost var w := v.(steps := v.steps[i := TimedOut(v.steps[i], now, target)]);
      assert SetState(w1.steps, i, target) == w.steps;
      LandedTransitive(db0, db1, store.Current(), w1, w);
      committed := store.CommitTransaction();
      if !committed {
        ok := store.RollbackTransaction();
      }
    }

    /** The bus gained one request: for this step, of this kind, with this input. */
    predicate Publishes(bus0: seq<Request>, bus1: seq<Request>, saga: SagaInstance, step: StepInstance,
        isCompensation: bool, input: Data)
    {
      && |bus1| == |bus0| + 1 && bus1 == bus0 + [bus1[|bus0|]] && Addresses(bus1[|bus0|], saga, step)
      && bus1[|bus0|].isCompensation == isCompensation && bus1[|bus0|].input == input
    }

    /** What is published for a running step with the input built for it is what the step is to see. */
    lemma PublishedIsAdded(bus0: seq<Request>, bus1: seq<Request>, v: View, i: nat, isCompensation: bool, input: Data,
        exact: bool)
      requires i < |v.steps| && Publishes(bus0, bus1, v.saga, v.steps[i], isCompensation, input)
      requires if isCompensation then v.steps[i].state.CompensationRunning? else v.steps[i].state.ExecutionRunning?
      requires !isCompensation ==> input == ForwardInput(v, i)
      requires isCompensation ==> input == CompensationInput(v, i) || (!exact && input == v.saga.input)
      ensures RequestAdded(bus0, bus1, v, i, isCompensation, exact)
    {
      hide SeesResults, SeesCompensations, ForwardInput, CompensationInput;
      InputsSeeThat(v, i);
    }

    /** Publishes the request and records that it was sent. Runs inside the handler's transaction. */
    method PublishAndMarkSent(saga: SagaInstance, step: StepInstance, isCompensation: bool, input: Data, ghost v: View,
        ghost i: nat)
      returns (committed: bool, ghost sentAt: int)
      requires store.tx == Some(store.committed) && IsView(store.committed, v)
      requires i < |v.steps| && step == v.steps[i] && step.history != []
      modifies store, bus, clock
      ensures store.faults >= old(store.faults) && bus.faults >= old(bus.faults) && clock.now >= old(clock.now)
      ensures committed || bus.published != old(bus.published) ==>
        Publishes(old(bus.published), bus.published, saga, step, isCompensation, input)
      ensures committed ==> 0 < old(clock.now) <= sentAt <= clock.now && store.tx.None?
      ensures committed ==>
        Landed(old(store.committed), store.committed,
               v.(steps := v.steps[i := MarkedSent(v.steps[i], sentAt, executionTimeoutMs)]))
      ensures !committed ==> store.committed == old(store.committed)
      ensures !committed ==> store.faults > old(store.faults) || bus.faults > old(bus.faults)
    {
      hide IsView, SameOutside, Linked;
      committed := false;
      var ok := bus.Publish(RequestFor(saga, step, isCompensation, input));
      var now := clock.Read();
      sentAt := now;
      if !ok {
        return;
      }
      var current := MarkedSent(step, now, executionTimeoutMs);
      ok := store.UpdateSagaStepInstanceExecutionHistory(current);
      if !ok {
        return;
      }
      WriteHistoryMovesView(old(store.Current()), v, i, current);
      committed := store.CommitTransaction();
    }

    /** The steps before the given one, in execution order. */
    method GetPreviousStepsInOrder(rows: seq<StepInstance>, stepId: string, ghost v: View, ghost i: nat)
      returns (previous: seq<StepInstance>)
      requires IsView(store.Current(), v) && IsListing(rows, store.Current(), v.saga.id)
      requires i < |v.steps| && stepId == v.steps[i].id
      ensures previous == v.steps[..i]
    {
      hide IsView, IsListing, Linked;
      var ordered := OrderListing(rows, v);
      StepIdsAreDistinct(store.Current(), v);
      previous := [];
      for k := 0 to |ordered|
        invariant k <= i
        invariant previous == v.steps[..k]
      {
        if ordered[k].id == stepId {
          return;
        }
        previous := previous + [ordered[k]];
      }
    }

    /** Runs inside the handler's transaction. */
    method SendExecutionInTransaction(saga: SagaInstance, step: StepInstance, ghost v: View, ghost i: nat)
      returns (committed: bool, mustInvalidate: bool, ghost sentAt: int)
      requires store.tx == Some(store.committed) && IsView(store.committed, v)
      requires saga == v.saga && i < |v.steps| && step == v.steps[i] && step.history != []
      requires step.state.ExecutionRunning?
      modifies store, bus, clock
      ensures store.faults >= old(store.faults) && bus.faults >= old(bus.faults) && clock.now >= old(clock.now)
      ensures committed || bus.published != old(bus.published) ==>
        RequestAdded(old(bus.published), bus.published, v, i, false, true)
      ensures committed ==> FailGuard(v, i) && 0 < old(clock.now) <= sentAt && store.tx.None? && !mustInvalidate
      ensures committed ==>
        Landed(old(store.committed), store.committed,
               v.(steps := v.steps[i := MarkedSent(v.steps[i], sentAt, executionTimeoutMs)]))
      ensures !committed ==> store.committed == old(store.committed)
      ensures mustInvalidate ==> !FailGuard(v, i) && bus.published == old(bus.published)
      ensures store.faults == old(store.faults) && bus.faults == old(bus.faults) ==> committed || mustInvalidate
    {
      hide IsView, SameOutside, Linked, RequestAdded, Publishes;
      committed, mustInvalidate, sentAt := false, false, 0;
      var ok, rows := store.ListSagaStepInstancesBySagaInstanceId(saga.id);
      if !ok {
        return;
      }
      var previous := GetPreviousStepsInOrder(rows, step.id, v, i);
      var input := saga.input;
      for k := 0 to |previous|
        invariant input == OverlayResults(saga.input, previous[..k])
        invariant forall j :: 0 <= j < k ==> previous[j].state.ExecutionDone?
      {
        if !previous[k].state.ExecutionDone? {
          return false, true, 0;
        }
        assert previous[..k+1][..k] == previous[..k];
        input := input + previous[k].result;
      }
      assert previous[..|previous|] == previous;
      committed, sentAt := PublishAndMarkSent(saga, step, false, input, v, i);
      if committed || bus.published != old(bus.published) {
        PublishedIsAdded(old(bus.published), bus.published, v, i, false, input, true);
      }
    }

    /** R waits, times out to F, or sends its execution request. */
    method ProcessExecutionRunning(saga: SagaInstance, step: StepInstance, ghost v: View, ghost i: nat)
      returns (followUp: bool, panics: bool, current: StepInstance, ghost a: Action, ghost now: int)
      requires Ready(v, saga, step, i) && step.state.ExecutionRunning?
      modifies store, bus, clock
      ensures store.tx.None? && store.faults >= old(store.faults) && bus.faults >= old(bus.faults)
      ensures clock.now >= old(clock.now) && (step.history != [] ==> old(clock.now) <= now <= clock.now)
      ensures !a.Idle? ==>
        if step.history == [] then a == BlockExecution(i)
        else if Expired(LastLog(step), now) then a == TimeOutExecution(i, now)
        else && DueToSend(LastLog(step), now)
             && if FailGuard(v, i) then a.Send? && a.i == i && a.timeoutMs == executionTimeoutMs && a.sentAt >= now
                else a == Invalidate(v.saga.compensationReason)
      ensures Enabled(v, a) && Landed(old(store.committed), store.committed, Apply(v, a))
      ensures store.faults == old(store.faults) && bus.faults == old(bus.faults) ==>
        (a.Idle? <==> step.history != [] && !Expired(LastLog(step), now) && !DueToSend(LastLog(step), now))
      ensures followUp <==> a.TimeOutExecution?
      ensures followUp ==> current == Apply(v, a).steps[i]
      ensures panics <==> step.history != [] && PanicsAt(LastLog(step), now)
      ensures a.Send? || bus.published != old(bus.published) ==>
        RequestAdded(old(bus.published), bus.published, v, i, false, true)
      ensures !a.Send? && store.faults == old(store.faults) && bus.faults == old(bus.faults) ==>
        bus.published == old(bus.published)
    {
      hide IsView, SameOutside, Linked, RequestAdded;
      LandedReflexive(store.committed, v);
      followUp, panics, current, a, now := false, false, step, Idle, 0;
      if |step.history| == 0 {
        a := BlockStep(step, v, i);
        return;
      }
      var nowTs := clock.Read();
      now := nowTs;
      var log := LastLog(step);
      if InWindow(log, nowTs) {
        // The source panics when a result has been received; otherwise it waits.
        panics := PanicsAt(log, nowTs);
      } else if Expired(log, nowTs) {
        var committed;
        committed, current := FailOnTimeout(step, nowTs, ExecutionFailed, v, i);
        if committed {
          followUp, a := true, TimeOutExecution(i, nowTs);
        }
      } else if DueToSend(log, nowTs) {
        var ok := store.BeginTransaction();
        if !ok {
          return;
        }
        var committed, mustInvalidate;
        ghost var sentAt;
        committed, mustInvalidate, sentAt := SendExecutionInTransaction(saga, step, v, i);
        if committed {
          a := Send(i, sentAt, executionTimeoutMs);
        } else {
          a := AbandonTransaction(saga, mustInvalidate, v);
        }
      }
    }

    // ----- ExecutionFailed -----

    method ExtractCompensationReason(step: StepInstance) returns (reason: string)
      ensures reason == FailureReason(step)
    {
      for k := 0 to |step.history|
        invariant FailureReason(step) == FirstError(step.templateId, step.history[k..])
      {
        var log := step.history[k];
        assert step.history[k..][1..] == step.history[k+1..];
        if !log.isCompensation {
          if log.error != "" {
            return "step '" + step.templateId + "' failed: " + log.error;
          }
          if "error" in log.result && log.result["error"] != "" {
            return "step '" + step.templateId + "' failed: " + log.result["error"];
          }
        }
      }
      return "step '" + step.templateId + "' failed: unknown error";
    }

    /** Every pending step after position i becomes aborted; steps in other states are skipped. */
    method AbortNextSteps(ordered: seq<StepInstance>, i: nat, ghost v: View) returns (ok: bool)
      requires store.tx.Some? && IsView(store.Current(), v) && ordered == v.steps && i < |v.steps|
      modifies store
      ensures store.tx.Some? && store.committed == old(store.committed) && store.faults >= old(store.faults)
      ensures ok ==> Landed(old(store.Current()), store.Current(), v.(steps := AbortedUpTo(v.steps, i, |v.steps|)))
      ensures !ok ==> store.faults > old(store.faults)
    {
      hide IsView, SameOutside, Linked;
      LandedReflexive(store.Current(), v);
      ghost var db0 := store.Current();
      assert AbortedUpTo(v.steps, i, i + 1) == v.steps;
      for k := i + 1 to |ordered|
        invariant store.tx.Some? && store.committed == old(store.committed) && store.faults >= old(store.faults)
        invariant Landed(db0, store.Current(), v.(steps := AbortedUpTo(v.steps, i, k)))
      {
        ghost var w := v.(steps := AbortedUpTo(v.steps, i, k));
        ghost var w' := v.(steps := AbortedUpTo(v.steps, i, k + 1));
        if ordered[k].state.ExecutionPending? {
          ghost var db1 := store.Current();
          var current;
          ok, current := TransitSagaStepToState(ordered[k], ExecutionAborted, w, k);
          if !ok {
            return;
          }
          assert SetState(w.steps, k, ExecutionAborted) == w'.steps;
          LandedTransitive(db0, db1, store.Current(), w, w');
        } else {
          assert w.steps == w'.steps;
        }
      }
      ok := true;
    }

    /** Every step before position i becomes compensation-pending, provided all of them are done. */
    method PendPreviousSteps(ordered: seq<StepInstance>, i: nat, ghost v: View) returns (ok: bool, mustInvalidate: bool)
      requires store.tx.Some? && IsView(store.Current(), v) && i < |v.steps| && |ordered| == |v.steps|
      requires forall j :: 0 <= j < i ==> ordered[j] == v.steps[j]
      modifies store
      ensures store.tx.Some? && store.committed == old(store.committed) && store.faults >= old(store.faults)
      ensures ok ==> FailGuard(v, i) && !mustInvalidate
      ensures ok ==> Landed(old(store.Current()), store.Current(), v.(steps := PendedUpTo(v.steps, i)))
      ensures mustInvalidate ==> !FailGuard(v, i)
      ensures !ok ==> mustInvalidate || store.faults > old(store.faults)
    {
      hide IsView, SameOutside, Linked;
      LandedReflexive(store.Current(), v);
      ghost var db0 := store.Current();
      ok, mustInvalidate := false, false;
      assert PendedUpTo(v.steps, 0) == v.steps;
      for k := 0 to i
        invariant store.tx.Some? && store.committed == old(store.committed) && store.faults >= old(store.faults)
        invariant Landed(db0, store.Current(), v.(steps := PendedUpTo(v.steps, k)))
        invariant forall j :: 0 <= j < k ==> v.steps[j].state.ExecutionDone?
      {
        if !ordered[k].state.ExecutionDone? {
          return false, true;
        }
        ghost var w := v.(steps := PendedUpTo(v.steps, k));
        ghost var w' := v.(steps := PendedUpTo(v.steps, k + 1));
        ghost var db1 := store.Current();
        var current;
        ok, current := TransitSagaStepToState(ordered[k], CompensationPending, w, k);
        if !ok {
          return;
        }
        assert SetState(w.steps, k, CompensationPending) == w'.steps;
        LandedTransitive(db0, db1, store.Current(), w, w');
      }
      ok := true;
    }

    /** Runs inside the handler's transaction; saga already carries the compensation reason. */
    method FailInTransaction(saga: SagaInstance, step: StepInstance, ghost v: View, ghost i: nat)
      returns (committed: bool, mustInvalidate: bool, current: StepInstance)
      requires store.tx == Some(store.committed) && IsView(store.committed, v)
      requires i < |v.steps| && step == v.steps[i] && step.state.ExecutionFailed?
      requires saga == v.saga.(compensationReason := FailureReason(step))
      modifies store
      ensures store.faults >= old(store.faults)
      ensures committed ==> FailGuard(v, i) && store.tx.None? && !mustInvalidate
      ensures committed ==>
        Landed(old(store.committed), store.committed, Apply(v, Fail(i))) && current == Apply(v, Fail(i)).steps[i]
      ensures !committed ==> store.committed == old(store.committed)
      ensures mustInvalidate ==> !FailGuard(v, i)
      ensures store.faults == old(store.faults) ==> committed || mustInvalidate
    {
      hide IsView, SameOutside, Linked;
      committed, mustInvalidate, current := false, false, step;
      ghost var db0 := store.Current();
      var ok, ordered, index := LoadOrderedSteps(saga.id, step.id, v, i);
      if !ok {
        return;
      }
      ok := store.UpdateSagaState(saga, saga.state);
      if !ok {
        return;
      }
      WriteSagaStateMovesView(db0, v, saga, saga.state);
      ghost var v1 := View(saga, v.steps);
      ghost var db1 := store.Current();
      ok := AbortNextSteps(ordered, index, v1);
      if !ok {
        return;
      }
      ghost var v2 := View(saga, AbortedUpTo(v.steps, i, |v.steps|));
      ghost var db2 := store.Current();
      LandedTransitive(db0, db1, db2, v1, v2);
      ok, mustInvalidate := PendPreviousSteps(ordered, index, v2);
      if !ok {
        return;
      }
      ghost var v3 := View(saga, PendedUpTo(v2.steps, i));
      ghost var db3 := store.Current();
      LandedTransitive(db0, db2, db3, v2, v3);
      ok, current := TransitSagaStepToState(step, CompensationCandidate, v3, i);
      if !ok {
        return;
      }
      LandedTransitive(db0, db3, store.Current(), v3, Apply(v, Fail(i)));
      committed := store.CommitTransaction();
    }

    /** F becomes c, the steps after it are aborted and the steps before it await compensation. */
    method ProcessExecutionFailed(saga: SagaInstance, step: StepInstance, ghost v: View, ghost i: nat)
      returns (followUp: bool, saga': SagaInstance, current: StepInstance, ghost a: Action)
      requires Ready(v, saga, step, i) && step.state.ExecutionFailed?
      modifies store
      ensures store.tx.None? && store.faults >= old(store.faults)
      ensures a.Idle? || a == (if FailGuard(v, i) then Fail(i) else Invalidate(FailureReason(step)))
      ensures Enabled(v, a) && Landed(old(store.committed), store.committed, Apply(v, a))
      ensures store.faults == old(store.faults) ==> !a.Idle?
      ensures followUp <==> a.Fail?
      ensures followUp ==> saga' == Apply(v, a).saga && current == Apply(v, a).steps[i]
    {
      hide IsView, SameOutside, Linked;
      LandedReflexive(store.committed, v);
      followUp, saga', current, a := false, saga, step, Idle;
      var began := store.BeginTransaction();
      if !began {
        return;
      }
      var reason := ExtractCompensationReason(step);
      saga' := saga.(compensationReason := reason);
      var committed, mustInvalidate;
      committed, mustInvalidate, current := FailInTransaction(saga', step, v, i);
      if committed {
        followUp, a := true, Fail(i);
      } else {
        a := AbandonTransaction(saga', mustInvalidate, v);
      }
    }

    // ----- CompensationCandidate -----

    /** Asks the committed children of this step to compensate; reports whether any child is not compensated yet. */
    method CascadeToChildren(children: seq<SagaInstance>, saga: SagaInstance, step: StepInstance)
      returns (hasUncompensatedChildren: bool)
      requires store.tx.None? && Keyed(store.committed)
      requires AreSagasWith(children, store.committed, (s: SagaInstance) => s.parentId == saga.id)
      modifies store
      ensures store.tx.None? && store.faults >= old(store.faults)
      ensures ChildrenRequested(old(store.committed), store.committed, saga.id, step.id)
      ensures hasUncompensatedChildren <==> exists c :: c in children && IsUncompensatedChild(c, step.id)
      ensures !hasUncompensatedChildren ==> store.committed == old(store.committed)
      ensures store.faults == old(store.faults) ==>
        forall c :: c in children && c.parentStepId == step.id && c.state.SagaCommitted? ==>
          c.id in store.committed.sagas && store.committed.sagas[c.id].state.SagaCompensationRequested?
    {
      hide ChildrenRequested, AreSagasWith, Keyed;
      hasUncompensatedChildren := false;
      ghost var db0 := store.committed;
      NothingRequested(db0, saga.id, step.id);
      for k := 0 to |children|
        invariant store.tx.None? && store.faults >= old(store.faults)
        invariant ChildrenRequested(db0, store.committed, saga.id, step.id)
        invariant !hasUncompensatedChildren ==> store.committed == db0
        invariant hasUncompensatedChildren <==> exists j :: 0 <= j < k && IsUncompensatedChild(children[j], step.id)
        invariant store.faults == old(store.faults) ==>
          forall j :: 0 <= j < k && children[j].parentStepId == step.id && children[j].state.SagaCommitted? ==>
            children[j].id in store.committed.sagas
            && store.committed.sagas[children[j].id].state.SagaCompensationRequested?
      {
        var child := children[k];
        ListedIsStored(children, db0, saga.id, k);
        if child.parentStepId == step.id {
          if child.state.SagaCommitted? {
            ghost var db1 := store.committed;
            RequestedOrSame(db0, db1, saga.id, step.id, child.id);
            var ok := store.TriggerSagaCompensation(child.id);
            if ok {
              RequestOneMore(db0, db1, saga.id, step.id, child.id);
            }
            hasUncompensatedChildren := true;
          } else if !child.state.SagaCompensated? {
            hasUncompensatedChildren := true;
          }
        }
      }
    }

    lemma ListedIsStored(children: seq<SagaInstance>, db: Db, sid: string, k: nat)
      requires Keyed(db) && AreSagasWith(children, db, (s: SagaInstance) => s.parentId == sid) && k < |children|
      ensures children[k].id in db.sagas && db.sagas[children[k].id] == children[k] && children[k].parentId == sid
    {
      assert children[k] in children;
    }

    lemma ListedAreAsked(children: seq<SagaInstance>, db: Db, db': Db, sid: string, stepId: string)
      requires forall s :: s in db.sagas && IsChildOf(db.sagas[s], sid, stepId) ==>
        db.sagas[s] in children && db.sagas[s].id == s
      requires forall c :: c in children && c.parentStepId == stepId && c.state.SagaCommitted? ==>
        c.id in db'.sagas && db'.sagas[c.id].state.SagaCompensationRequested?
      ensures ChildrenAsked(db, db', sid, stepId)
    {
    }

    /** The listed children of the saga tell whether all children of the step are compensated. */
    lemma ChildrenAreListed(children: seq<SagaInstance>, db: Db, sid: string, stepId: string)
      requires Keyed(db) && AreSagasWith(children, db, (s: SagaInstance) => s.parentId == sid)
      ensures (exists c :: c in children && IsUncompensatedChild(c, stepId)) <==>
        !AllChildrenCompensated(db, sid, stepId)
      ensures forall s :: s in db.sagas && IsChildOf(db.sagas[s], sid, stepId) ==>
        db.sagas[s] in children && db.sagas[s].id == s
    {
      if !AllChildrenCompensated(db, sid, stepId) {
        var s :| s in db.sagas && IsChildOf(db.sagas[s], sid, stepId) && !db.sagas[s].state.SagaCompensated?;
        assert db.sagas[s] in children && IsUncompensatedChild(db.sagas[s], stepId);
      }
    }

    /** The state update overwrites the struct, so the extended history is put back before it is written. */
    method StartCompensationInTransaction(step: StepInstance, now: int, ghost v: View, ghost i: nat)
      returns (committed: bool, current: StepInstance)
      requires store.tx.None? && IsView(store.committed, v) && i < |v.steps| && step == v.steps[i]
      modifies store
      ensures store.tx.None? && store.faults >= old(store.faults)
      ensures var w := v.(steps := v.steps[i := CompensationStarted(v.steps[i], now)]);
        committed ==> Landed(old(store.committed), store.committed, w) && current == w.steps[i]
      ensures !committed ==> store.committed == old(store.committed) && store.faults > old(store.faults)
    {
      hide IsView, SameOutside, Linked;
      committed, current := false, step;
      var newExecutionHistory := step.history + [NewLog(now, true)];
      var ok := store.BeginTransaction();
      if !ok {
        return;
      }
      ghost var db0 := store.Current();
      ok, current := TransitSagaStepToState(step, CompensationRunning, v, i);
      if !ok {
        ok := store.RollbackTransaction();
        return;
      }
      ghost var w1 := v.(steps := SetState(v.steps, i, CompensationRunning));
      ghost var db1 := store.Current();
      current := current.(history := newExecutionHistory);
      ok := store.UpdateSagaStepInstanceExecutionHistory(current);
      if !ok {
        ok := store.RollbackTransaction();
        return;
      }
      WriteHistoryMovesView(db1, w1, i, current);
      ghost var w := v.(steps := v.steps[i := CompensationStarted(v.steps[i], now)]);
      assert w1.steps[i := current] == w.steps;
      LandedTransitive(db0, db1, store.Current(), w1, w);
      committed := store.CommitTransaction();
    }

    /** c becomes r once its neighbours are where they should be and every child it spawned is compensated. */
    method ProcessCompensationCandidate(saga: SagaInstance, step: StepInstance, ghost v: View, ghost i: nat)
      returns (followUp: bool, current: StepInstance, ghost a: Action)
      requires Ready(v, saga, step, i) && step.state.CompensationCandidate? && Keyed(store.committed)
      modifies store, clock
      ensures store.tx.None? && store.faults >= old(store.faults) && clock.now >= old(clock.now)
      ensures !a.Idle? ==>
        if StartCompensationGuard(v, i) then a.StartCompensation? && a.i == i
        else a == Invalidate(v.saga.compensationReason)
      ensures Enabled(v, a) && Moved(old(store.committed), store.committed, v, a, step.id)
      ensures store.faults == old(store.faults) ==>
        (a.Idle? <==> StartCompensationGuard(v, i) && !AllChildrenCompensated(old(store.committed), saga.id, step.id))
      ensures store.faults == old(store.faults) && a.Idle? ==>
        ChildrenAsked(old(store.committed), store.committed, saga.id, step.id)
      ensures (followUp <==> a.StartCompensation?) && (followUp ==> old(clock.now) <= a.now <= clock.now)
      ensures followUp ==> current == Apply(v, a).steps[i]
      ensures followUp ==> current.state.CompensationRunning? && |current.history| == |step.history| + 1
      ensures followUp ==> current.history[..|step.history|] == step.history && IsUnsent(LastLog(current), true)
      ensures followUp ==> old(clock.now) <= LastLog(current).nextExecutionTs <= clock.now
    {
      hide IsView, SameOutside, Linked, ChildrenRequested, AllChildrenCompensated, Keyed, AreSagasWith, ChildrenAsked;
      NothingRequested(store.committed, saga.id, step.id);
      followUp, current, a := false, step, Idle;
      var ok, ordered, index := LoadOrderedSteps(saga.id, step.id, v, i);
      if !ok {
        return;
      }
      if index > 0 && !ordered[index - 1].state.CompensationPending? {
        a := MarkInvalid(saga, v);
        return;
      }
      for k := index + 1 to |ordered|
        invariant store.tx.None? && store.committed == old(store.committed) && store.faults == old(store.faults)
        invariant forall j :: index < j < k ==> ordered[j].state.ExecutionAborted? || ordered[j].state.CompensationDone?
      {
        if !ordered[k].state.ExecutionAborted? && !ordered[k].state.CompensationDone? {
          a := MarkInvalid(saga, v);
          return;
        }
      }
      var children;
      ok, children := store.GetChildSagaInstances(saga.id);
      if !ok {
        return;
      }
      ChildrenAreListed(children, store.committed, saga.id, step.id);
      var hasUncompensatedChildren := CascadeToChildren(children, saga, step);
      RequestsKeepView(old(store.committed), store.committed, v, step.id);
      if hasUncompensatedChildren {
        if store.faults == old(store.faults) {
          ListedAreAsked(children, old(store.committed), store.committed, saga.id, step.id);
        }
        return;
      }
      var now := clock.Read();
      var committed;
      committed, current := StartCompensationInTransaction(step, now, v, i);
      if committed {
        followUp, a := true, StartCompensation(i, now);
      }
    }

    // ----- CompensationRunning -----

    /**
     * The saga input, the results up to and including this step and the compensation results after
     * it; only the saga input when the steps cannot be listed.
     */
    method BuildCompensationInput(saga: SagaInstance, step: StepInstance, ghost v: View, ghost i: nat)
      returns (input: Data)
      requires IsView(store.Current(), v) && saga == v.saga && i < |v.steps| && step == v.steps[i]
      modifies store`faults
      ensures store.faults >= old(store.faults)
      ensures input == CompensationInput(v, i) || input == v.saga.input
      ensures store.faults == old(store.faults) ==> input == CompensationInput(v, i)
    {
      hide IsView, IsListing, Linked;
      input := saga.input;
      var ok, rows := store.ListSagaStepInstancesBySagaInstanceId(saga.id);
      if !ok {
        return;
      }
      var ordered := OrderListing(rows, v);
      StepIdsAreDistinct(store.Current(), v);
      var k := 0;
      while true
        invariant 0 <= k <= i
        invariant input == OverlayResults(saga.input, ordered[..k])
        decreases i - k
      {
        assert ordered[..k+1][..k] == ordered[..k];
        input := input + ordered[k].result;
        if ordered[k].id == step.id {
          break;
        }
        k := k + 1;
      }
      ghost var base := input;
      ghost var later := ordered[k+1..];
      for l := k + 1 to |ordered|
        invariant input == OverlayCompensationResults(base, later[..l-k-1])
      {
        assert later[..l-k][..l-k-1] == later[..l-k-1] && later[l-k-1] == ordered[l];
        if ordered[l].state.CompensationDone? {
          input := input + ordered[l].compensationResult;
        }
      }
      assert later[..|ordered|-k-1] == later;
    }

    /** r waits, times out to f, or sends its compensation request. */
    method ProcessCompensationRunning(saga: SagaInstance, step: StepInstance, ghost v: View, ghost i: nat)
      returns (followUp: bool, panics: bool, current: StepInstance, ghost a: Action, ghost now: int)
      requires Ready(v, saga, step, i) && step.state.CompensationRunning?
      modifies store, bus, clock
      ensures store.tx.None? && store.faults >= old(store.faults) && bus.faults >= old(bus.faults)
      ensures clock.now >= old(clock.now) && (step.history != [] ==> old(clock.now) <= now <= clock.now)
      ensures !a.Idle? ==>
        if step.history == [] || !LastLog(step).isCompensation then a == Invalidate(v.saga.compensationReason)
        else if Expired(LastLog(step), now) then a == TimeOutCompensation(i, now)
        else && DueToSend(LastLog(step), now)
             && a.Send? && a.i == i && a.timeoutMs == executionTimeoutMs && a.sentAt >= now
      ensures Enabled(v, a) && Landed(old(store.committed), store.committed, Apply(v, a))
      ensures store.faults == old(store.faults) && bus.faults == old(bus.faults) ==>
        (a.Idle? <==> step.history != [] && LastLog(step).isCompensation
                      && !Expired(LastLog(step), now) && !DueToSend(LastLog(step), now))
      ensures followUp <==> a.TimeOutCompensation?
      ensures followUp ==> current == Apply(v, a).steps[i]
      ensures panics ==> step.history != [] && PanicsAt(LastLog(step), now)
      ensures panics <==> step.history != [] && LastLog(step).isCompensation && PanicsAt(LastLog(step), now)
      ensures a.Send? || bus.published != old(bus.published) ==>
        RequestAdded(old(bus.published), bus.published, v, i, true, store.faults == old(store.faults))
      ensures !a.Send? && store.faults == old(store.faults) && bus.faults == old(bus.faults) ==>
        bus.published == old(bus.published)
    {
      hide IsView, SameOutside, Linked, RequestAdded, Publishes, CompensationInput;
      LandedReflexive(store.committed, v);
      followUp, panics, current, a, now := false, false, step, Idle, 0;
      if |step.history| == 0 {
        a := MarkInvalid(saga, v);
        return;
      }
      var nowTs := clock.Read();
      now := nowTs;
      var log := LastLog(step);
      if !log.isCompensation {
        a := MarkInvalid(saga, v);
        return;
      }
      if InWindow(log, nowTs) {
        // The source panics when a result has been received; otherwise it waits.
        panics := PanicsAt(log, nowTs);
      } else if Expired(log, nowTs) {
        var committed;
        committed, current := FailOnTimeout(step, nowTs, CompensationFailed, v, i);
        if committed {
          followUp, a := true, TimeOutCompensation(i, nowTs);
        }
      } else if DueToSend(log, nowTs) {
        var ok := store.BeginTransaction();
        if !ok {
          return;
        }
        var input := BuildCompensationInput(saga, step, v, i);
        var committed;
        ghost var sentAt;
        committed, sentAt := PublishAndMarkSent(saga, step, true, input, v, i);
        if committed {
          a := Send(i, sentAt, executionTimeoutMs);
        } else {
          a := AbandonTransaction(saga, false, v);
        }
        if committed || bus.published != old(bus.published) {
          PublishedIsAdded(old(bus.published), bus.published, v, i, true, input, store.faults == old(store.faults));
        }
      }
    }

    // ----- CompensationSucceeded -----

    /** Runs inside the handler's transaction. */
    method FinishCompensationInTransaction(saga: SagaInstance, step: StepInstance, ghost v: View, ghost i: nat)
      returns (committed: bool, mustInvalidate: bool, saga': SagaInstance, current: StepInstance)
      requires store.tx == Some(store.committed) && IsView(store.committed, v)
      requires saga == v.saga && i < |v.steps| && step == v.steps[i] && step.state.CompensationSucceeded?
      modifies store
      ensures store.faults >= old(store.faults)
      ensures committed ==> FinishCompensationGuard(v, i) && store.tx.None? && !mustInvalidate
      ensures committed ==>
        Landed(old(store.committed), store.committed, Apply(v, FinishCompensation(i)))
        && current == Apply(v, FinishCompensation(i)).steps[i] && saga' == Apply(v, FinishCompensation(i)).saga
      ensures !committed ==> store.committed == old(store.committed)
      ensures mustInvalidate ==> !FinishCompensationGuard(v, i)
      ensures store.faults == old(store.faults) ==> committed || mustInvalidate
    {
      hide IsView, SameOutside, Linked;
      committed, mustInvalidate, saga', current := false, false, saga, step;
      ghost var db0 := store.Current();
      LandedReflexive(db0, v);
      ghost var w := v;
      var ok, ordered, index := LoadOrderedSteps(saga.id, step.id, v, i);
      if !ok {
        return;
      }
      if index > 0 {
        var previousStep := ordered[index - 1];
        if !previousStep.state.CompensationPending? {
          return false, true, saga, step;
        }
        var promoted;
        ok, promoted := TransitSagaStepToState(previousStep, CompensationCandidate, v, i - 1);
        if !ok {
          ok := store.RollbackTransaction();
          return;
        }
        w := v.(steps := SetState(v.steps, i - 1, CompensationCandidate));
      }
      ghost var db1 := store.Current();
      ok, current := TransitSagaStepToState(step, CompensationDone, w, i);
      if !ok {
        return;
      }
      ghost var w1 := w.(steps := SetState(w.steps, i, CompensationDone));
      ghost var db2 := store.Current();
      LandedTransitive(db0, db1, db2, w, w1);
      ordered := ordered[index := current];
      if index == 0 {
        assert current.state.CompensationDone?;
        PatternIgnoresFirst(v, View(NoSaga(), ordered));
        ok := CheckCompensatedPattern(ordered);
        if !ok {
          return false, true, saga, current;
        }
        ok := TransitSagaToState(saga, SagaCompensated, w1);
        if !ok {
          return;
        }
        // The state update also changes the caller's struct.
        saga' := saga.(state := SagaCompensated);
        LandedTransitive(db0, db2, store.Current(), w1, WithSagaState(w1, SagaCompensated));
      }
      committed := store.CommitTransaction();
    }

    lemma PatternIgnoresFirst(v: View, w: View)
      requires |v.steps| == |w.steps| > 0 && v.steps[1..] == w.steps[1..]
      ensures FinishCompensationGuard(v, 0) == FinishCompensationGuard(w, 0)
    {
      assert forall j :: 0 < j < |v.steps| ==> v.steps[j] == v.steps[1..][j-1] && w.steps[j] == w.steps[1..][j-1];
    }

    /** COMPENSATION_DONE* EXECUTION_ABORTED*, and nothing else. */
    method CheckCompensatedPattern(ordered: seq<StepInstance>) returns (ok: bool)
      requires |ordered| > 0 && ordered[0].state.CompensationDone?
      ensures ok <==> FinishCompensationGuard(View(NoSaga(), ordered), 0)
    {
      ghost var v := View(NoSaga(), ordered);
      var seenAborted := false;
      for k := 0 to |ordered|
        invariant forall j :: 0 < j < k ==> v.steps[j].state.ExecutionAborted? || v.steps[j].state.CompensationDone?
        invariant seenAborted <==> exists j :: 0 < j < k && v.steps[j].state.ExecutionAborted?
        invariant forall j, l :: 0 < j < l < k && v.steps[j].state.ExecutionAborted? ==>
          v.steps[l].state.ExecutionAborted?
      {
        if ordered[k].state.ExecutionAborted? {
          seenAborted := true;
        } else if ordered[k].state.CompensationDone? {
          if seenAborted {
            return false;
          }
        } else {
          return false;
        }
      }
      return true;
    }

    /** s becomes d and the step before it the next candidate, or the saga is compensated. */
    method ProcessCompensationSucceeded(saga: SagaInstance, step: StepInstance, ghost v: View, ghost i: nat)
      returns (followUp: bool, saga': SagaInstance, current: StepInstance, ghost a: Action)
      requires Ready(v, saga, step, i) && step.state.CompensationSucceeded?
      modifies store
      ensures store.tx.None? && store.faults >= old(store.faults)
      ensures a.Idle?
        || a == (if FinishCompensationGuard(v, i) then FinishCompensation(i) else Invalidate(v.saga.compensationReason))
      ensures Enabled(v, a) && Landed(old(store.committed), store.committed, Apply(v, a))
      ensures store.faults == old(store.faults) ==> !a.Idle?
      ensures followUp <==> a.FinishCompensation?
      ensures followUp ==> saga' == Apply(v, a).saga && current == Apply(v, a).steps[i]
    {
      hide IsView, SameOutside, Linked;
      LandedReflexive(store.committed, v);
      followUp, saga', current, a := false, saga, step, Idle;
      var began := store.BeginTransaction();
      if !began {
        return;
      }
      var committed, mustInvalidate;
      committed, mustInvalidate, saga', current := FinishCompensationInTransaction(saga, step, v, i);
      if committed {
        followUp, a := true, FinishCompensation(i);
      } else {
        a := AbandonTransaction(saga, mustInvalidate, v);
      }
    }

    // ----- CompensationFailed -----

    /** f becomes b and the saga is blocked. */
    method ProcessCompensationFailed(saga: SagaInstance, step: StepInstance, ghost v: View, ghost i: nat)
      returns (ghost a: Action)
      requires Ready(v, saga, step, i) && step.state.CompensationFailed?
      modifies store
      ensures store.tx.None? && store.faults >= old(store.faults)
      ensures a.Idle? || a == Block(i)
      ensures Landed(old(store.committed), store.committed, Apply(v, a))
      ensures store.faults == old(store.faults) ==> a.Block?
    {
      hide IsView, SameOutside, Linked;
      LandedReflexive(store.committed, v);
      a := Idle;
      var ok := store.BeginTransaction();
      if !ok {
        return;
      }
      ghost var db0 := store.Current();
      var current;
      ok, current := TransitSagaStepToState(step, CompensationBlocked, v, i);
      if !ok {
        ok := store.RollbackTransaction();
        return;
      }
      ghost var w := v.(steps := SetState(v.steps, i, CompensationBlocked));
      ghost var db1 := store.Current();
      ok := TransitSagaToState(saga, SagaBlocked, w);
      if !ok {
        ok := store.RollbackTransaction();
        return;
      }
      LandedTransitive(db0, db1, store.Current(), w, WithSagaState(w, SagaBlocked));
      ok := store.CommitTransaction();
      if ok {
        a := Block(i);
      }
    }

    // ----- the step processor -----

    /** How many calls of the step processor a run of follow-ups starting at this step can take. */
    function CallsLeft(step: StepInstance): (calls: nat)
      ensures 1 <= calls <= 4
    {
      match step.state
      case ExecutionCandidate => 2
      case ExecutionRunning => if step.history != [] && LastLog(step).requestSentTs > 0 then 4 else 1
      case ExecutionFailed => 3
      case CompensationCandidate => 2
      case CompensationRunning => if step.history != [] && LastLog(step).requestSentTs > 0 then 2 else 1
      case CompensationSucceeded => 2
      case _ => 1
    }

    /** What one call of the step processor may have done. */
    twostate predicate Processed(v: View, i: nat, followUp: bool, panics: bool, saga': SagaInstance,
        current: StepInstance, a: Action)
      requires i < |v.steps|
      reads store, bus, clock
    {
      && store.tx.None? && store.faults >= old(store.faults) && bus.faults >= old(bus.faults)
      && clock.now >= old(clock.now)
      && Enabled(v, a) && Moved(old(store.committed), store.committed, v, a, v.steps[i].id)
      && (Target(a).Some? ==> Target(a).value == i)
      && BusGrew(old(bus.published), bus.published, v, i)
      && (a.Send? ==> bus.published != old(bus.published))
      && (a.Invalidate? ==> !ChecksPass(v, i))
      && !a.Request? && !a.Initiate? && !a.Receive?
      && (bus.published != old(bus.published) ==>
            RequestAdded(old(bus.published), bus.published, v, i, v.steps[i].state.CompensationRunning?,
                  store.faults == old(store.faults)))
      && (store.faults == old(store.faults) && bus.faults == old(bus.faults) ==>
            if ChecksPass(v, i)
            then CallGoesWell(old(TheWorld()), TheWorld(), v, i, a, followUp, old(clock.now), clock.now,
                              executionTimeoutMs)
            else Unprocessable(v.steps[i].state) ==> a.Invalidate?)
      && (followUp ==> !a.Idle? && !a.Invalidate?)
      && (followUp ==> Continues(a) || a.FinishCompensation? || a.TimeOutExecution? || a.TimeOutCompensation?)
      && (followUp ==> saga' == Apply(v, a).saga && current == Apply(v, a).steps[i])
      && (followUp ==> CallsLeft(current) < CallsLeft(v.steps[i]) && !Unprocessable(current.state))
      && (panics ==> !HistoryFits(v.steps[i]))
    }

    /** After an action that is followed up the step needs fewer calls than before. */
    lemma FollowUpsGetCloser(v: View, a: Action, i: nat)
      requires Enabled(v, a) && i < |v.steps|
      requires (a.Start? || a.TimeOutExecution? || a.Fail? || a.TimeOutCompensation?) && a.i == i
      ensures var w := Apply(v, a);
        && i < |w.steps| && CallsLeft(w.steps[i]) < CallsLeft(v.steps[i]) && !Unprocessable(w.steps[i].state)
        && (!a.Fail? ==> w.saga == v.saga)
    {
    }

    method ProcessExecutionStep(saga: SagaInstance, step: StepInstance, ghost v: View, ghost i: nat)
      returns (followUp: bool, panics: bool, saga': SagaInstance, current: StepInstance, ghost a: Action)
      requires Ready(v, saga, step, i)
      requires step.state.ExecutionCandidate? || step.state.ExecutionSucceeded? || step.state.ExecutionFailed?
      modifies store, bus, clock
      ensures Processed(v, i, followUp, panics, saga', current, a)
    {
      hide IsView, SameOutside, Linked, ChildrenRequested, Moved, Landed, Enabled, Apply, CallsLeft;
      followUp, panics, saga', current, a := false, false, saga, step, Idle;
      match step.state {
        case ExecutionCandidate =>
          followUp, current, a := ProcessExecutionCandidate(saga, step, v, i);
        case ExecutionSucceeded =>
          a := ProcessExecutionSucceeded(saga, step, v, i);
        case ExecutionFailed =>
          followUp, saga', current, a := ProcessExecutionFailed(saga, step, v, i);
      }
      if followUp {
        FollowUpsGetCloser(v, a, i);
      }
      LandedIsMoved(old(store.committed), store.committed, v, a, step.id);
    }

    method ProcessRunningStep(saga: SagaInstance, step: StepInstance, ghost v: View, ghost i: nat)
      returns (followUp: bool, panics: bool, saga': SagaInstance, current: StepInstance, ghost a: Action)
      requires Ready(v, saga, step, i)
      requires step.state.ExecutionRunning? || step.state.CompensationRunning?
      modifies store, bus, clock
      ensures Processed(v, i, followUp, panics, saga', current, a)
    {
      hide IsView, SameOutside, Linked, ChildrenRequested, Moved, Landed, Enabled, Apply, CallsLeft;
      saga' := saga;
      ghost var now;
      if step.state.ExecutionRunning? {
        followUp, panics, current, a, now := ProcessExecutionRunning(saga, step, v, i);
      } else {
        followUp, panics, current, a, now := ProcessCompensationRunning(saga, step, v, i);
      }
      if followUp {
        FollowUpsGetCloser(v, a, i);
      }
      LandedIsMoved(old(store.committed), store.committed, v, a, step.id);
    }

    method ProcessUndoCandidate(saga: SagaInstance, step: StepInstance, ghost v: View, ghost i: nat)
      returns (followUp: bool, panics: bool, saga': SagaInstance, current: StepInstance, ghost a: Action)
      requires Ready(v, saga, step, i) && Keyed(store.committed) && step.state.CompensationCandidate?
      modifies store, bus, clock
      ensures Processed(v, i, followUp, panics, saga', current, a)
    {
      hide IsView, SameOutside, Linked, ChildrenRequested, Moved, Landed, Keyed, ChildrenAsked;
      panics, saga' := false, saga;
      followUp, current, a := ProcessCompensationCandidate(saga, step, v, i);
    }

    method ProcessCompensationEnd(saga: SagaInstance, step: StepInstance, ghost v: View, ghost i: nat)
      returns (followUp: bool, panics: bool, saga': SagaInstance, current: StepInstance, ghost a: Action)
      requires Ready(v, saga, step, i) && (step.state.CompensationSucceeded? || step.state.CompensationFailed?)
      modifies store, bus, clock
      ensures Processed(v, i, followUp, panics, saga', current, a)
    {
      hide IsView, SameOutside, Linked, ChildrenRequested, Moved, Landed;
      followUp, panics, saga', current, a := false, false, saga, step, Idle;
      if step.state.CompensationSucceeded? {
        followUp, saga', current, a := ProcessCompensationSucceeded(saga, step, v, i);
      } else {
        a := ProcessCompensationFailed(saga, step, v, i);
      }
      LandedIsMoved(old(store.committed), store.committed, v, a, step.id);
    }

    method ProcessSagaStep(saga: SagaInstance, step: StepInstance, ghost v: View, ghost i: nat)
      returns (followUp: bool, panics: bool, saga': SagaInstance, current: StepInstance, ghost a: Action)
      requires Ready(v, saga, step, i) && Keyed(store.committed)
      modifies store, bus, clock
      ensures Processed(v, i, followUp, panics, saga', current, a)
    {
      hide IsView, SameOutside, Linked, ChildrenRequested, Moved, Landed, Keyed;
      match step.state {
        case ExecutionCandidate =>
          followUp, panics, saga', current, a := ProcessExecutionStep(saga, step, v, i);
        case ExecutionRunning =>
          followUp, panics, saga', current, a := ProcessRunningStep(saga, step, v, i);
        case ExecutionSucceeded =>
          followUp, panics, saga', current, a := ProcessExecutionStep(saga, step, v, i);
        case ExecutionFailed =>
          followUp, panics, saga', current, a := ProcessExecutionStep(saga, step, v, i);
        case CompensationCandidate =>
          followUp, panics, saga', current, a := ProcessUndoCandidate(saga, step, v, i);
        case CompensationRunning =>
          followUp, panics, saga', current, a := ProcessRunningStep(saga, step, v, i);
        case CompensationSucceeded =>
          followUp, panics, saga', current, a := ProcessCompensationEnd(saga, step, v, i);
        case CompensationFailed =>
          followUp, panics, saga', current, a := ProcessCompensationEnd(saga, step, v, i);
        case ExecutionDone =>
          followUp, panics, saga', current, a := SkipStep(saga, step, v, i);
        case CompensationDone =>
          followUp, panics, saga', current, a := SkipStep(saga, step, v, i);
        case _ =>
          followUp, panics, saga', current, a := RejectStep(saga, step, v, i);
      }
    }

    /** Terminal states: nothing to do. */
    method SkipStep(saga: SagaInstance, step: StepInstance, ghost v: View, ghost i: nat)
      returns (followUp: bool, panics: bool, saga': SagaInstance, current: StepInstance, ghost a: Action)
      requires Ready(v, saga, step, i) && (step.state.ExecutionDone? || step.state.CompensationDone?)
      ensures Processed(v, i, followUp, panics, saga', current, a)
    {
      hide IsView, Linked, ChildrenRequested;
      followUp, panics, saga', current, a := false, false, saga, step, Idle;
      NothingRequested(store.committed, saga.id, step.id);
    }

    /** A state the processor has no branch for: the saga is marked invalid. */
    method RejectStep(saga: SagaInstance, step: StepInstance, ghost v: View, ghost i: nat)
      returns (followUp: bool, panics: bool, saga': SagaInstance, current: StepInstance, ghost a: Action)
      requires Ready(v, saga, step, i) && Unprocessable(step.state)
      modifies store
      ensures Processed(v, i, followUp, panics, saga', current, a)
    {
      hide IsView, SameOutside, Linked, ChildrenRequested, Moved;
      followUp, panics, saga', current := false, false, saga, step;
      a := MarkInvalid(saga, v);
      LandedIsMoved(old(store.committed), store.committed, v, a, step.id);
    }

    /** A step that is not waiting for an answer: its request, if there is one to send, is not sent yet. */
    predicate IsFresh(step: StepInstance) {
      step.state.ExecutionRunning? || step.state.CompensationRunning? ==>
        step.history != [] && LastLog(step).requestSentTs == 0
    }

    /** What a call does to a fresh step. */
    predicate CallsNext(step: StepInstance, a: Action, i: nat, followUp: bool) {
      && (a.Idle? || a.Invalidate? || IsCallOn(a, i))
      && (step.state.ExecutionDone? || step.state.CompensationDone? ==> a.Idle?)
      && (followUp ==> Continues(a) || a.FinishCompensation?)
    }

    lemma FreshCalls(v: View, m: Position, a: Action, i: nat, followUp: bool)
      requires Inv(v, m) && Enabled(v, a) && i < |v.steps| && (Target(a).Some? ==> Target(a).value == i)
      requires !a.Request? && !a.Initiate? && !a.Receive? && (a.Invalidate? ==> !ChecksPass(v, i))
      requires IsFresh(v.steps[i])
      requires followUp ==>
        Continues(a) || a.FinishCompensation? || a.TimeOutExecution? || a.TimeOutCompensation?
      ensures CallsNext(v.steps[i], a, i, followUp)
      ensures followUp ==> i < |Apply(v, a).steps| && IsFresh(Apply(v, a).steps[i])
      ensures followUp && !Continues(a) ==> Apply(v, a).steps[i].state.CompensationDone?
    {
      EnabledActionsArePermitted(v, m, a);
      ApplyKeepsLength(v, a);
      LetterAt(v, m, i);
      hide Inv;
      if followUp {
        FollowUpsAreFresh(v, a, i);
      }
      hide Apply;
    }

    lemma FollowUpsAreFresh(v: View, a: Action, i: nat)
      requires Enabled(v, a) && i < |v.steps| && Target(a) == Some(i)
      ensures i < |Apply(v, a).steps|
      ensures Continues(a) ==> IsFresh(Apply(v, a).steps[i])
      ensures a.FinishCompensation? ==> Apply(v, a).steps[i].state.CompensationDone?
    {
    }

    /** One call, on a store in shape. */
    method ProcessOnce(saga: SagaInstance, step: StepInstance, ghost v: View, ghost i: nat)
      returns (followUp: bool, panics: bool, saga': SagaInstance, current: StepInstance, ghost a: Action)
      requires Ready(v, saga, step, i) && DbInv(store.committed, bus.published)
      requires saga.state.SagaCompensated? ==> !step.state.ExecutionAborted?
      modifies store, bus, clock
      ensures store.tx.None? && store.faults >= old(store.faults) && bus.faults >= old(bus.faults)
      ensures clock.now >= old(clock.now)
      ensures DbInv(store.committed, bus.published) && RunsTo(old(TheWorld()), TheWorld(), !a.Invalidate?)
      ensures Moves(old(TheWorld()), TheWorld(), v, a, i)
      ensures Enabled(v, a) && IsView(store.committed, Apply(v, a)) && !panics
      ensures IsFresh(step) ==> CallsNext(step, a, i, followUp)
      ensures IsFresh(step) && followUp ==> IsFresh(current) && (Continues(a) || current.state.CompensationDone?)
      ensures a.Invalidate? ==> Unprocessable(step.state)
      ensures store.faults == old(store.faults) && bus.faults == old(bus.faults) ==>
        if Unprocessable(step.state) then a.Invalidate?
        else CallGoesWell(old(TheWorld()), TheWorld(), v, i, a, followUp, old(clock.now), clock.now, executionTimeoutMs)
      ensures followUp ==> !a.Idle? && !a.Invalidate? && Ready(Apply(v, a), saga', current, i)
      ensures followUp ==> CallsLeft(current) < CallsLeft(step) && !Unprocessable(current.state)
    {
      hide IsView, SameOutside, Linked, RunsTo, LegalMove, Moved, Landed, Enabled, Apply, DbInv, BusGrew, ChecksPass,
        HistoryFits, IsFresh, CallsNext, IsCallOn, CallGoesWell, RequestAdded;
      DbInvAt(store.committed, bus.published);
      ghost var m := PositionOf(store.committed, bus.published, v);
      InvalidOnlyWhenUnprocessable(v, m, i);
      followUp, panics, saga', current, a := ProcessSagaStep(saga, step, v, i);
      if IsFresh(step) {
        FreshCalls(v, m, a, i, followUp);
      }
      ProcessedKeepsDbInv(old(store.committed), store.committed, old(bus.published), bus.published, v, a, i);
      ApplyKeepsLength(v, a);
      MoveRuns(old(TheWorld()), TheWorld(), v, a, i);
    }

    /**
     * Calls the step processor until no follow-up is asked for. The source gives up after more than
     * ten calls; that never happens. When nothing fails the step is brought to where it has to wait.
     */
    method ProcessUntilSettled(saga: SagaInstance, step: StepInstance, ghost v: View, ghost i: nat)
      returns (calls: nat, ghost acts: seq<Action>)
      requires Ready(v, saga, step, i) && DbInv(store.committed, bus.published)
      requires saga.state.SagaCompensated? ==> !step.state.ExecutionAborted?
      modifies store, bus, clock
      ensures store.tx.None? && store.faults >= old(store.faults) && bus.faults >= old(bus.faults)
      ensures DbInv(store.committed, bus.published) && RunsTo(old(TheWorld()), TheWorld(), !Invalidates(acts))
      ensures EnabledAll(v, acts) && IsView(store.committed, ApplyAll(v, acts))
      ensures IsFresh(step) ==> Validates(old(TheWorld()), TheWorld(), v, i, acts)
      ensures 1 <= calls <= CallsLeft(step)
      ensures Invalidates(acts) ==> Unprocessable(step.state)
      ensures store.faults == old(store.faults) && bus.faults == old(bus.faults) ==>
        if Unprocessable(step.state) then Invalidates(acts)
        else step.state.ExecutionRunning? || step.state.CompensationRunning?
             || Completes(old(TheWorld()), TheWorld(), v, i, executionTimeoutMs)
    {
      hide IsView, Linked, RunsTo, Enabled, Apply, DbInv, EnabledAll, ApplyAll, Moves, IsFresh, CallsNext, Continues,
        CallGoesWell, Completes, CallsLeft, RunStands, Validates;
      var followUp, panics, currentSaga, current := true, false, saga, step;
      ghost var w := v;
      calls, acts := 0, [];
      RunBegins(TheWorld(), v, i, step, clock.now);
      FailuresArePrecise(store.committed, bus.published, v, i);
      while followUp
        invariant store.tx.None? && store.faults >= old(store.faults) && bus.faults >= old(bus.faults)
        invariant DbInv(store.committed, bus.published)
        invariant RunStands(old(TheWorld()), TheWorld(), v, i, step, acts, w, followUp, current,
                            store.faults == old(store.faults) && bus.faults == old(bus.faults), clock.now)
        invariant followUp ==> Ready(w, currentSaga, current, i) && calls + CallsLeft(current) <= CallsLeft(step)
        invariant followUp ==> (currentSaga.state.SagaCompensated? ==> !current.state.ExecutionAborted?)
        invariant calls <= CallsLeft(step) && (followUp || 1 <= calls)
        decreases CallsLeft(step) - calls, followUp
      {
        ghost var world, step0, started, a := TheWorld(), current, clock.now, Idle;
        ghost var healthy := store.faults == old(store.faults) && bus.faults == old(bus.faults);
        followUp, panics, currentSaga, current, a := ProcessOnce(currentSaga, current, w, i);
        acts, w := CallStands(old(TheWorld()), world, TheWorld(), v, i, step, acts, w, step0, a, followUp, current,
            healthy, store.faults == old(store.faults) && bus.faults == old(bus.faults), started, clock.now);
        calls := calls + 1;
        if calls > 10 {
          assert false;
        }
      }
      RunEnds(old(TheWorld()), TheWorld(), v, i, step, acts, w, current,
          store.faults == old(store.faults) && bus.faults == old(bus.faults), clock.now);
    }

    /** How a run stands between two calls, or after its last one; its next call would be on the given step. */
    ghost predicate RunStands(w0: World, w: World, v: View, i: nat, step: StepInstance, acts: seq<Action>, u: View,
        goesOn: bool, current: StepInstance, healthy: bool, now: int)
    {
      && i < |v.steps| && step == v.steps[i]
      && RunsTo(w0, w, !Invalidates(acts)) && EnabledAll(v, acts) && u == ApplyAll(v, acts) && IsView(w.db, u)
      && (Invalidates(acts) ==> !goesOn && Unprocessable(step.state))
      && (goesOn ==> if acts == [] then current == step else !Unprocessable(current.state))
      && (IsFresh(step) ==> if goesOn then IsFresh(current) && GoesOn(w0, w, v, i, acts, current)
                            else Validates(w0, w, v, i, acts))
      && (healthy && Unprocessable(step.state) ==> if goesOn then acts == [] else Invalidates(acts))
      && (healthy && HasBranch(step.state) ==> if goesOn then GoesWell(w0, w, v, i, acts, now)
                                               else Completes(w0, w, v, i, executionTimeoutMs))
    }

    lemma RunBegins(w: World, v: View, i: nat, step: StepInstance, now: int)
      requires IsView(w.db, v) && i < |v.steps| && step == v.steps[i]
      ensures RunStands(w, w, v, i, step, [], v, true, step, true, now)
    {
      EmptyRun(v);
      BeginsWell(w, v, i, now);
      NothingDone(w, v, i);
      RunsToItself(w, true);
      hide IsView, RunsTo, EnabledAll, ApplyAll, Works, IsFresh, IsOneRun, GoesWell;
    }

    /** One call takes the run on. */
    lemma CallStands(w0: World, w: World, w': World, v: View, i: nat, step: StepInstance, acts: seq<Action>, u: View,
        current: StepInstance, a: Action, followUp: bool, current': StepInstance, healthy: bool, healthy': bool,
        from: int, to: int)
      returns (acts': seq<Action>, u': View)
      requires RunStands(w0, w, v, i, step, acts, u, true, current, healthy, from) && (healthy' ==> healthy)
      requires step.state.ExecutionFailed? ==> forall j :: i < j < |v.steps| ==> v.steps[j].state.ExecutionPending?
      requires Moves(w, w', u, a, i) && Enabled(u, a) && IsView(w'.db, Apply(u, a)) && RunsTo(w, w', !a.Invalidate?)
      requires IsFresh(current) ==> CallsNext(current, a, i, followUp)
      requires IsFresh(current) && followUp ==> IsFresh(current') && (Continues(a) || current'.state.CompensationDone?)
      requires a.Invalidate? ==> Unprocessable(current.state)
      requires i < |u.steps|
      requires healthy' ==>
        if Unprocessable(current.state) then a.Invalidate?
        else CallGoesWell(w, w', u, i, a, followUp, from, to, executionTimeoutMs)
      requires followUp ==> !a.Idle? && !a.Invalidate? && !Unprocessable(current'.state)
      ensures RunStands(w0, w', v, i, step, acts', u', followUp, current', healthy', to)
      ensures u' == Apply(u, a) && acts' == if a.Idle? then acts else acts + [a]
    {
      hide IsView, RunsTo, Enabled, Apply, EnabledAll, ApplyAll, Moves, IsFresh, CallsNext, Continues, CallGoesWell,
        Completes, Validates, Works, IsOneRun, GoesWell;
      if IsFresh(step) {
        CallExtends(w0, w, w', v, i, acts, u, current, a, followUp);
      }
      if healthy' && HasBranch(step.state) {
        CallTakesOn(w0, w, w', v, i, acts, u, a, followUp, from, to, executionTimeoutMs);
      }
      RunsOn(w0, w, w', !Invalidates(acts), !a.Invalidate?);
      acts', u' := RecordAction(v, acts, u, a);
    }

    lemma RunEnds(w0: World, w: World, v: View, i: nat, step: StepInstance, acts: seq<Action>, u: View,
        current: StepInstance, healthy: bool, now: int)
      requires RunStands(w0, w, v, i, step, acts, u, false, current, healthy, now)
      ensures i < |v.steps| && EnabledAll(v, acts) && IsView(w.db, ApplyAll(v, acts))
      ensures RunsTo(w0, w, !Invalidates(acts)) && (IsFresh(step) ==> Validates(w0, w, v, i, acts))
      ensures Invalidates(acts) ==> Unprocessable(step.state)
      ensures healthy ==> if Unprocessable(step.state) then Invalidates(acts)
                          else HasBranch(step.state) ==> Completes(w0, w, v, i, executionTimeoutMs)
    {
      hide IsView, RunsTo, EnabledAll, ApplyAll, Validates, Completes;
    }

    /** A saga in shape has nothing but pending steps after one that failed. */
    lemma FailuresArePrecise(db: Db, sent: seq<Request>, v: View, i: nat)
      requires DbInv(db, sent) && IsView(db, v) && i < |v.steps|
      ensures v.steps[i].state.ExecutionFailed? ==>
        forall j :: i < j < |v.steps| ==> v.steps[j].state.ExecutionPending?
    {
      hide *;
      var m := PositionOf(db, sent, v);
      PendingAfterFailure(v, m, i);
    }

    lemma PendingAfterFailure(v: View, m: Position, i: nat)
      requires Inv(v, m) && i < |v.steps|
      ensures v.steps[i].state.ExecutionFailed? ==>
        forall j :: i < j < |v.steps| ==> v.steps[j].state.ExecutionPending?
    {
      assert v.steps[i].state == Letter(m, i);
      assert forall j :: i < j < |v.steps| ==> v.steps[j].state == Letter(m, j);
    }

    /** The calls so far may be followed by another one, on the given step. */
    ghost predicate GoesOn(w0: World, w: World, v: View, i: nat, acts: seq<Action>, step: StepInstance) {
      && Works(w0, w, v, i, acts) && IsOneRun(acts, i)
      && (acts == [] || Continues(acts[|acts| - 1]) || step.state.CompensationDone?)
    }

    lemma NothingDone(w: World, v: View, i: nat)
      ensures Works(w, w, v, i, []) && IsOneRun([], i)
    {
    }

    /** One call more is recorded. */
    lemma CallExtends(w0: World, w: World, w': World, v: View, i: nat, acts: seq<Action>, u: View, step: StepInstance,
        a: Action, followUp: bool)
      requires EnabledAll(v, acts) && u == ApplyAll(v, acts) && i < |v.steps| && GoesOn(w0, w, v, i, acts, step)
      requires Moves(w, w', u, a, i) && Enabled(u, a) && IsView(w'.db, Apply(u, a)) && CallsNext(step, a, i, followUp)
      requires a.Invalidate? ==> acts == []
      ensures var acts' := if a.Idle? then acts else acts + [a];
        && Validates(w0, w', v, i, acts')
        && (followUp ==> Works(w0, w', v, i, acts') && IsOneRun(acts', i) && acts' == acts + [a])
    {
      hide Moves, IsView, Works, Enabled, Apply, EnabledAll, ApplyAll, IsCallOn;
      if a.Idle? {
        assert Settles(w0, w', v, i, acts);
      } else {
        WorksOneMore(w0, w, w', v, i, acts, a);
        ExtendRun(v, acts, a);
        WorkSettles(w0, w', v, i, acts + [a]);
      }
    }

    /** Appends an action to the run unless nothing was done. */
    lemma RecordAction(v: View, acts: seq<Action>, w: View, a: Action) returns (acts': seq<Action>, w': View)
      requires EnabledAll(v, acts) && w == ApplyAll(v, acts) && Enabled(w, a)
      ensures EnabledAll(v, acts') && w' == ApplyAll(v, acts') && w' == Apply(w, a)
      ensures acts' == if a.Idle? then acts else acts + [a]
      ensures Invalidates(acts') <==> Invalidates(acts) || a.Invalidate?
    {
      if a.Idle? {
        acts', w' := acts, w;
      } else {
        ExtendRun(v, acts, a);
        acts', w' := acts + [a], Apply(w, a);
        assert a in acts';
      }
    }

    // ----- validation -----

    /** False when the steps cannot be listed, else the verdict of the validator for the saga's mode. */
    method IsSagaStateValid(sagaId: string, stepId: string, ghost v: View, ghost i: nat)
      returns (valid: bool, ghost listed: bool)
      requires IsView(store.Current(), v) && sagaId == v.saga.id && i < |v.steps| && stepId == v.steps[i].id
      modifies store`faults
      ensures store.faults == old(store.faults) + (if listed then 0 else 1)
      ensures valid <==> listed && Accepts(v.steps, i)
    {
      hide IsView, IsListing, Linked, ForwardAccepts, UndoAccepts;
      var ok, ordered, index := LoadOrderedSteps(sagaId, stepId, v, i);
      listed := ok;
      if !ok {
        return false, listed;
      }
      var isCompensating := false;
      for k := 0 to |ordered|
        invariant !isCompensating
        invariant forall j :: 0 <= j < k ==> !IsCompensationState(ordered[j].state)
      {
        if IsCompensationState(ordered[k].state) {
          isCompensating := true;
          break;
        }
      }
      if isCompensating {
        valid := ValidateCompensatingMode(ordered, index);
      } else {
        valid := ValidateNonCompensatingMode(ordered, index);
      }
    }

    // ----- initiation of compensation for a committed saga -----

    /** Quotes the parent's reason when there is one. */
    function CascadeReasonOf(db: Db, saga: SagaInstance): string {
      if saga.parentId == "" then "compensation requested for committed saga"
      else if saga.parentId in db.sagas && db.sagas[saga.parentId].compensationReason != "" then
        ReasonWithoutParent(saga) + "\n  \U{2190} " + db.sagas[saga.parentId].compensationReason
      else ReasonWithoutParent(saga)
    }

    function ReasonWithoutParent(saga: SagaInstance): string {
      "cascading from parent saga '" + saga.parentId + "'"
    }

    method CascadeReason(saga: SagaInstance) returns (reason: string)
      modifies store`faults
      ensures store.faults >= old(store.faults)
      ensures reason == CascadeReasonOf(store.Current(), saga)
        || (store.faults > old(store.faults) && reason == ReasonWithoutParent(saga))
    {
      reason := "compensation requested for committed saga";
      if saga.parentId != "" {
        var parent := store.GetSagaInstance(saga.parentId);
        reason := "cascading from parent saga '" + saga.parentId + "'";
        if parent.Found? && parent.value.compensationReason != "" {
          reason := reason + "\n  \U{2190} " + parent.value.compensationReason;
        }
      }
    }

    /** Runs inside the handler's transaction; saga already carries the compensation reason. */
    method InitiateInTransaction(saga: SagaInstance, ordered: seq<StepInstance>, ghost v: View)
      returns (committed: bool)
      requires store.tx == Some(store.committed) && IsView(store.committed, v) && ordered == v.steps && |v.steps| > 0
      requires AllDone(v) && v.saga.state.SagaCompensationRequested?
      requires saga == v.saga.(compensationReason := saga.compensationReason)
      modifies store
      ensures store.faults >= old(store.faults)
      ensures committed ==> store.tx.None?
      ensures committed ==> Landed(old(store.committed), store.committed, Apply(v, Initiate(saga.compensationReason)))
      ensures !committed ==> store.committed == old(store.committed) && store.faults > old(store.faults)
    {
      hide IsView, SameOutside, Linked;
      committed := false;
      ghost var db0 := store.Current();
      var last := |ordered| - 1;
      var ok, current := TransitSagaStepToState(ordered[last], CompensationCandidate, v, last);
      if !ok {
        return;
      }
      ghost var v1 := v.(steps := SetState(v.steps, last, CompensationCandidate));
      ghost var db1 := store.Current();
      assert FailGuard(v1, last);
      var mustInvalidate;
      // Every step was seen to be done before the transaction, so the check in here always passes.
      ok, mustInvalidate := PendPreviousSteps(ordered, last, v1);
      if !ok {
        return;
      }
      ghost var v2 := v.(steps := PendedUpTo(v1.steps, last));
      ghost var db2 := store.Current();
      LandedTransitive(db0, db1, db2, v1, v2);
      ok := store.UpdateSagaState(saga, SagaRunning);
      if !ok {
        return;
      }
      WriteSagaStateMovesView(db2, v2, saga, SagaRunning);
      LandedTransitive(db0, db2, store.Current(), v2, WithSaga(v2, SagaRunning, saga.compensationReason));
      committed := store.CommitTransaction();
    }

    /** A committed saga asked to compensate starts its backward walk from its last step. */
    method InitiateCompensationForCommittedSaga(saga: SagaInstance, ghost v: View) returns (ghost a: Action)
      requires store.tx.None? && IsView(store.committed, v) && saga == v.saga && |v.steps| > 0
      requires saga.state.SagaCompensationRequested?
      modifies store
      ensures store.tx.None? && store.faults >= old(store.faults)
      ensures !a.Idle? ==> if AllDone(v) then a.Initiate? else a == Invalidate(v.saga.compensationReason)
      ensures a.Initiate? && store.faults == old(store.faults) ==>
        a.reason == CascadeReasonOf(old(store.committed), saga)
      ensures Enabled(v, a) && Landed(old(store.committed), store.committed, Apply(v, a))
      ensures store.faults == old(store.faults) ==> !a.Idle?
    {
      hide IsView, SameOutside, Linked, CascadeReasonOf;
      LandedReflexive(store.committed, v);
      a := Idle;
      var ok, rows := store.ListSagaStepInstancesBySagaInstanceId(saga.id);
      if !ok {
        return;
      }
      var ordered := OrderListing(rows, v);
      for k := 0 to |ordered|
        invariant store.tx.None? && store.committed == old(store.committed) && store.faults == old(store.faults)
        invariant forall j :: 0 <= j < k ==> ordered[j].state.ExecutionDone?
      {
        if !ordered[k].state.ExecutionDone? {
          a := MarkInvalid(saga, v);
          return;
        }
      }
      ok := store.BeginTransaction();
      if !ok {
        return;
      }
      var reason := CascadeReason(saga);
      var committed := InitiateInTransaction(saga.(compensationReason := reason), ordered, v);
      if committed {
        a := Initiate(reason);
      } else {
        a := AbandonTransaction(saga, false, v);
      }
    }

    // ----- results -----

    /**
     * Writes the result and the concluded log. Runs inside the handler's transaction; the step's
     * history is not empty.
     */
    method RecordResult(step: StepInstance, data: Data, now: int, ghost v: View, ghost i: nat)
      returns (ok: bool, current: StepInstance)
      requires store.tx == Some(store.committed) && IsView(store.committed, v)
      requires i < |v.steps| && step == v.steps[i] && step.history != []
      modifies store
      ensures store.tx.Some? && store.committed == old(store.committed) && store.faults >= old(store.faults)
      ensures ok ==> current == Recorded(step, data, now)
      ensures ok ==> Landed(old(store.committed), store.Current(), v.(steps := v.steps[i := current]))
      ensures !ok ==> store.faults > old(store.faults)
    {
      hide IsView, SameOutside, Linked;
      ghost var db0 := store.Current();
      current := step;
      if LastLog(step).isCompensation {
        current := current.(compensationResult := data);
        ok := store.UpdateSagaStepCompensationResult(current);
      } else {
        current := current.(result := data);
        ok := store.UpdateSagaStepResult(current);
      }
      if !ok {
        return;
      }
      ghost var w1 := v.(steps := v.steps[i := current]);
      if LastLog(step).isCompensation {
        WriteCompensationResultMovesView(db0, v, i, current);
        assert v.steps[i].(compensationResult := data) == current;
      } else {
        WriteResultMovesView(db0, v, i, current);
        assert v.steps[i].(result := data) == current;
      }
      ghost var db1 := store.Current();
      current := WithLastLog(current, LastLog(current).(resultReceivedTs := now, result := data, conclusionTs := now));
      ok := store.UpdateSagaStepInstanceExecutionHistory(current);
      if !ok {
        return;
      }
      WriteHistoryMovesView(db1, w1, i, current);
      ghost var w2 := v.(steps := v.steps[i := current]);
      assert w1.steps[i := current] == w2.steps;
      LandedTransitive(db0, db1, store.Current(), w1, w2);
    }

    /** Whether a result of this status moves the step at all. */
    predicate Concludes(status: ResultStatus) {
      !status.StatusInExecution?
    }

    /**
     * The part of the result handler that runs once step and saga have been read. A trigger of the
     * immediate driver is fired before the commit.
     */
    method ReceiveInTransaction(step: StepInstance, status: ResultStatus, data: Data, now: int, ghost v: View,
        ghost i: nat)
      returns (committed: bool, triggered: bool)
      requires store.tx == Some(store.committed) && IsView(store.committed, v)
      requires i < |v.steps| && step == v.steps[i] && step.history != []
      modifies store
      ensures store.faults >= old(store.faults)
      ensures var row := if Concludes(status) then Received(step, status, data, now) else Recorded(step, data, now);
        committed ==> Landed(old(store.committed), store.committed, v.(steps := v.steps[i := row]))
      ensures committed ==> store.tx.None? && triggered == Concludes(status)
      ensures !committed ==> store.committed == old(store.committed) && store.faults > old(store.faults)
      ensures triggered ==> Concludes(status)
    {
      hide IsView, SameOutside, Linked;
      committed, triggered := false, false;
      ghost var db0 := store.Current();
      var ok, current := RecordResult(step, data, now, v, i);
      if !ok {
        return;
      }
      ghost var w1 := v.(steps := v.steps[i := current]);
      ghost var db1 := store.Current();
      var expired := store.ContextExpired();
      if expired {
        return;
      }
      if Concludes(status) {
        var target := ResultState(LastLog(current).isCompensation, status);
        ok, current := TransitSagaStepToState(current, target, w1, i);
        if !ok {
          return;
        }
        triggered := true;
        ghost var w2 := v.(steps := v.steps[i := Received(step, status, data, now)]);
        assert SetState(w1.steps, i, target) == w2.steps;
        LandedTransitive(db0, db1, store.Current(), w1, w2);
      }
      expired := store.ContextExpired();
      if expired {
        return;
      }
      committed := store.CommitTransaction();
    }

    /** What the result handler decides about a step before it writes anything. */
    predicate Drops(db: Db, sagaId: string, stepId: string) {
      stepId !in db.steps || IgnoresResults(db.steps[stepId].state) || sagaId !in db.sagas
    }

    /** The outcomes of a result that is not dropped. */
    predicate Settled(v: View, i: nat, status: ResultStatus, data: Data, a: Action, at: int)
      requires i < |v.steps|
    {
      && Enabled(v, a)
      && (a.Idle? || a == Receive(i, status, data, at) || a == Invalidate(v.saga.compensationReason))
      && (a.Receive? ==> Concludes(status))
      && (a.Invalidate? ==> v.steps[i].history == [])
    }

    /** The handler once step and saga have been read in its transaction. */
    method SettleResult(saga: SagaInstance, step: StepInstance, status: ResultStatus, data: Data, ghost v: View,
        ghost i: nat)
      returns (acknowledged: bool, triggered: bool, ghost a: Action, ghost at: int)
      requires store.tx == Some(store.committed) && IsView(store.committed, v)
      requires saga == v.saga && i < |v.steps| && step == v.steps[i] && !IgnoresResults(step.state)
      modifies store, clock
      ensures store.faults >= old(store.faults) && store.tx.None?
      ensures Settled(v, i, status, data, a, at)
      ensures Concludes(status) || step.history == [] ==> Landed(old(store.committed), store.committed, Apply(v, a))
      ensures !Concludes(status) && step.history != [] ==>
        Landed(old(store.committed), store.committed,
               if acknowledged then v.(steps := v.steps[i := Recorded(step, data, at)]) else v)
      ensures store.faults == old(store.faults) ==>
        (if step.history == [] then a.Invalidate? else a.Receive? == triggered == Concludes(status))
      ensures a.Receive? ==> triggered
      ensures store.faults == old(store.faults) ==> (acknowledged <==> step.history != [])
    {
      hide IsView, SameOutside, Linked, Landed, Settled, Apply, Enabled, Received, Recorded;
      acknowledged, triggered, at := false, false, 0;
      LandedReflexive(store.committed, v);
      if |step.history| == 0 {
        // The result is written before the missing history is noticed, and rolled back with the rest.
        var ok := store.UpdateSagaStepResult(step.(result := data));
        OutcomesAreSettled(v, i, status, data, at);
        a := AbandonTransaction(saga, ok, v);
        return;
      }
      var now := clock.Read();
      at := now;
      OutcomesAreSettled(v, i, status, data, at);
      acknowledged, triggered := ReceiveInTransaction(step, status, data, now, v, i);
      if acknowledged {
        a := if Concludes(status) then Receive(i, status, data, now) else Idle;
      } else {
        a := AbandonTransaction(saga, false, v);
      }
    }

    lemma OutcomesAreSettled(v: View, i: nat, status: ResultStatus, data: Data, at: int)
      requires i < |v.steps| && !IgnoresResults(v.steps[i].state)
      ensures Settled(v, i, status, data, Idle, at) && Enabled(v, Idle) && Apply(v, Idle) == v
      ensures v.steps[i].history == [] ==> Settled(v, i, status, data, Invalidate(v.saga.compensationReason), at)
      ensures v.steps[i].history != [] && Concludes(status) && at > 0 ==>
        var a := Receive(i, status, data, at);
        Settled(v, i, status, data, a, at) && Enabled(v, a)
        && Apply(v, a) == v.(steps := v.steps[i := Received(v.steps[i], status, data, at)])
    {
    }

    /**
     * A result for a step: recorded and, unless the execution is still in progress, turned into the
     * step's next state. Results for unknown sagas and steps, and late ones, are dropped.
     *
     * firstCheck is the outcome of the first look at the context after the transaction was opened. The
     * rollback has not been arranged by then: the transaction stays open exactly when the context had
     * already expired. Expiry at any later check is rolled back.
     */
    method ProcessSagaStepExecutionResult(sagaId: string, stepId: string, status: ResultStatus, data: Data,
        ghost v: View, ghost i: nat)
      returns (acknowledged: bool, triggered: bool, ghost a: Action, ghost at: int, ghost firstCheck: Option<bool>)
      requires store.tx.None?
      requires stepId in store.committed.steps ==>
        IsView(store.committed, v) && i < |v.steps| && v.steps[i].id == stepId && v.saga.id == sagaId
      modifies store, clock
      ensures store.faults >= old(store.faults) && (store.tx.Some? <==> firstCheck == Some(true))
      ensures firstCheck == Some(true) ==>
        store.committed == old(store.committed) && !acknowledged && store.faults > old(store.faults)
      ensures Drops(old(store.committed), sagaId, stepId) ==>
        a.Idle? && !triggered && store.committed == old(store.committed)
      ensures !Drops(old(store.committed), sagaId, stepId) ==> Settled(v, i, status, data, a, at)
      ensures !Drops(old(store.committed), sagaId, stepId) && (Concludes(status) || v.steps[i].history == []) ==>
        Landed(old(store.committed), store.committed, Apply(v, a))
      ensures !Drops(old(store.committed), sagaId, stepId) && !Concludes(status) && v.steps[i].history != [] ==>
        Landed(old(store.committed), store.committed,
               if acknowledged then v.(steps := v.steps[i := Recorded(v.steps[i], data, at)]) else v)
      ensures store.faults == old(store.faults) && !Drops(old(store.committed), sagaId, stepId) ==>
        (if v.steps[i].history == [] then a.Invalidate? else a.Receive? == triggered == Concludes(status))
      ensures a.Receive? ==> triggered
      ensures store.faults == old(store.faults) ==>
        (acknowledged <==> Drops(old(store.committed), sagaId, stepId) || v.steps[i].history != [])
    {
      hide IsView, SameOutside, Linked, Landed, Settled, Apply, Enabled;
      acknowledged, triggered, a, at, firstCheck := false, false, Idle, 0, None;
      if stepId in store.committed.steps {
        NothingSettled(store.committed, v, i, status, data);
        StoredSaga(store.committed, v);
        StoredStep(store.committed, v, i);
      }
      var ok := store.BeginTransaction();
      if !ok {
        return;
      }
      var expired := store.ContextExpired();
      firstCheck := Some(expired);
      if expired {
        // Nothing rolls the transaction back: the deferred function comes later.
        return;
      }
      var step := store.GetSagaStepInstance(stepId);
      if !step.Found? {
        ok := store.RollbackTransaction();
        acknowledged := step.NotFound?;
        return;
      }
      expired := store.ContextExpired();
      if expired {
        ok := store.RollbackTransaction();
        return;
      }
      if IgnoresResults(step.value.state) {
        acknowledged := store.CommitTransaction();
        return;
      }
      var saga := store.GetSagaInstance(sagaId);
      if !saga.Found? {
        ok := store.RollbackTransaction();
        acknowledged := saga.NotFound?;
        return;
      }
      expired := store.ContextExpired();
      if expired {
        ok := store.RollbackTransaction();
        return;
      }
      acknowledged, triggered, a, at := SettleResult(saga.value, step.value, status, data, v, i);
    }

    /**
     * The consumer of the results queue: reports of progress are dropped before they reach the handler.
     * Results are sent only for steps with a request on the bus; on a store in shape such a result
     * never makes the saga invalid.
     */
    method OnResultMessage(sagaId: string, stepId: string, status: ResultStatus, data: Data, ghost v: View,
        ghost i: nat)
      returns (acknowledged: bool, triggered: bool, ghost acts: seq<Action>)
      requires store.tx.None? && DbInv(store.committed, bus.published)
      requires stepId in store.committed.steps ==>
        IsView(store.committed, v) && i < |v.steps| && v.steps[i].id == stepId && v.saga.id == sagaId
      requires IsRequested(bus.published, stepId)
      modifies store, clock
      ensures store.faults >= old(store.faults) && DbInv(store.committed, bus.published)
      ensures RunsTo(old(TheWorld()), TheWorld(), !Invalidates(acts))
      ensures stepId !in old(store.committed.steps) ==> store.committed == old(store.committed)
      ensures stepId in old(store.committed.steps) ==>
        EnabledAll(v, acts) && IsView(store.committed, ApplyAll(v, acts)) && !Invalidates(acts)
      ensures stepId in old(store.committed.steps) ==>
        ResultRun(old(TheWorld()), TheWorld(), v, i, acts, triggered)
      ensures stepId in old(store.committed.steps) && acts != [] ==> exists at :: acts == [Receive(i, status, data, at)]
      ensures stepId !in old(store.committed.steps) ==> !triggered
      ensures status.StatusInExecution? ==> store.committed == old(store.committed) && !triggered
      ensures stepId in old(store.committed.steps) && store.faults == old(store.faults) ==>
        || status.StatusInExecution?
        || (&& ResultCounts(old(TheWorld()), TheWorld(), v, i, status, data)
            && (triggered <==> v.steps[i].state.ExecutionRunning? || v.steps[i].state.CompensationRunning?
                               || v.steps[i].state.CompensationBlocked?))
      ensures store.faults == old(store.faults) ==> acknowledged && store.tx.None?
    {
      hide RunsTo, IsView, SameOutside, Linked, Landed, DbInv, EnabledAll, ApplyAll, Apply, Enabled, IgnoresResults,
        Moves, ResultIsStored;
      acts := [];
      EmptyRun(v);
      RunsToItself(TheWorld(), true);
      if !Concludes(status) {
        return true, false, acts;
      }
      ghost var a, at, firstCheck;
      acknowledged, triggered, a, at, firstCheck := ProcessSagaStepExecutionResult(sagaId, stepId, status, data, v, i);
      if stepId in old(store.committed.steps) {
        RequestedStepsRan(old(store.committed), bus.published, v, i);
        WaitingStepsTakeResults(v.steps[i].state);
        StoredSaga(old(store.committed), v);
        StoredStep(old(store.committed), v, i);
        if Drops(old(store.committed), sagaId, stepId) {
          a := Idle;
          NothingSettled(old(store.committed), v, i, status, data);
        }
        ghost var w;
        LandedKeepsDbInv(old(store.committed), store.committed, bus.published, v, a, i);
        acts, w := RecordAction(v, [], v, a);
        if a.Receive? {
          LandedReceipt(old(TheWorld()), TheWorld(), v, i, status, data, at, a);
        }
      }
    }

    lemma LandedReceipt(w: World, w': World, v: View, i: nat, status: ResultStatus, data: Data, at: int, a: Action)
      requires DbInv(w.db, w.bus) && IsView(w.db, v) && i < |v.steps| && !NeverRan(v.steps[i].state) && w'.bus == w.bus
      requires a == Receive(i, status, data, at) && Enabled(v, a) && Landed(w.db, w'.db, Apply(v, a))
      ensures ResultCounts(w, w', v, i, status, data)
    {
      hide *;
      var m := PositionOf(w.db, w.bus, v);
      LetterAt(v, m, i);
      ApplyKeepsLength(v, a);
      LandedView(w.db, w'.db, Apply(v, a));
      ReceiptIsStored(w, w', v, i, status, data, at);
    }

    lemma LandedView(db: Db, db': Db, e: View)
      requires Landed(db, db', e)
      ensures IsView(db', e)
    {
    }

    /**
     * Why progress reports must not reach the handler: recording one on a waiting step leaves a log
     * that no step in shape has, and from then until the deadline every call of the step processor panics.
     */
    lemma ProgressReportsWouldPanic(row: StepInstance, data: Data, at: int, now: int)
      requires row.state.ExecutionRunning? || row.state.CompensationRunning?
      requires HistoryFits(row) && InWindow(LastLog(row), now) && 0 < at <= now
      ensures Recorded(row, data, at).state == row.state
      ensures !HistoryFits(Recorded(row, data, at))
      ensures !PanicsAt(LastLog(row), now) && PanicsAt(LastLog(Recorded(row, data, at)), now)
    {
      var log := LastLog(Recorded(row, data, at));
      assert log.resultReceivedTs == at;
    }

    lemma NothingSettled(db: Db, v: View, i: nat, status: ResultStatus, data: Data)
      requires IsView(db, v) && i < |v.steps|
      ensures Settled(v, i, status, data, Idle, 0) && Apply(v, Idle) == v && Landed(db, db, v)
    {
    }

    lemma StoredStep(db: Db, v: View, i: nat)
      requires IsView(db, v) && i < |v.steps|
      ensures v.steps[i].id in db.steps && db.steps[v.steps[i].id] == v.steps[i]
    {
    }

    // ----- the drivers -----

    /** A handler that only wrote the rows of one saga made a legal move. */
    lemma LandedKeepsDbInv(db: Db, db': Db, sent: seq<Request>, v: View, a: Action, i: nat)
      requires DbInv(db, sent) && IsView(db, v) && i < |v.steps| && Enabled(v, a) && Landed(db, db', Apply(v, a))
      requires Target(a).Some? ==> Target(a).value == i
      requires !a.StartCompensation? && !a.Send?
      requires a.Invalidate? ==> !v.saga.state.SagaCompensated?
      ensures DbInv(db', sent) && IsView(db', Apply(v, a)) && RunsTo(World(db, sent), World(db', sent), !a.Invalidate?)
      ensures Moves(World(db, sent), World(db', sent), v, a, i) && (a.Idle? ==> db' == db)
    {
      hide IsView, Enabled, Apply, DbInv, Moved, RunsTo, Landed;
      if a.Idle? {
        IdleApplies(v);
        LandedDetermines(db, db', v);
      }
      LandedIsMoved(db, db', v, a, v.steps[i].id);
      MovedHasView(db, db', v, a, v.steps[i].id);
      MoveKeepsDbInv(db, db', sent, sent, v, a, i);
      MoveRuns(World(db, sent), World(db', sent), v, a, i);
    }

    lemma MarkingValidates(w: World, w': World, v: View, i: nat, a: Action)
      requires Moves(w, w', v, a, i) && (a.Idle? || a.Invalidate?) && IsView(w'.db, Apply(v, a))
      ensures Validates(w, w', v, i, if a.Idle? then [] else [a])
    {
      MovesAreEnabled(w, w', v, a, i);
      hide Moves, IsView, Enabled, Apply, EnabledAll, ApplyAll, Works;
      EmptyRun(v);
      NothingDone(w, v, i);
      if a.Idle? {
        assert Settles(w, w', v, i, []);
      } else {
        OneMoveWorks(w, w', v, i, a);
        OneAction(v, a);
        WorkSettles(w, w', v, i, [a]);
      }
    }

    /** Marks the saga invalid, on a store in shape. */
    method MarkInvalidInShape(saga: SagaInstance, ghost v: View, ghost i: nat) returns (ghost acts: seq<Action>)
      requires store.tx.None? && IsView(store.committed, v) && saga == v.saga && i < |v.steps|
      requires DbInv(store.committed, bus.published) && !saga.state.SagaCompensated?
      modifies store
      ensures store.tx.None? && store.faults >= old(store.faults)
      ensures DbInv(store.committed, bus.published) && RunsTo(old(TheWorld()), TheWorld(), !Invalidates(acts))
      ensures EnabledAll(v, acts) && IsView(store.committed, ApplyAll(v, acts))
      ensures Validates(old(TheWorld()), TheWorld(), v, i, acts) && (acts == [] || IsInvalidation(acts))
      ensures store.faults == old(store.faults) ==> Invalidates(acts)
    {
      hide RunsTo, IsView, SameOutside, DbInv, EnabledAll, ApplyAll, Works, Moves, IsOneRun, Validates;
      ghost var a := MarkInvalid(saga, v);
      LandedKeepsDbInv(old(store.committed), store.committed, bus.published, v, a, i);
      EmptyRun(v);
      RunsToItself(TheWorld(), true);
      MarkingValidates(old(TheWorld()), TheWorld(), v, i, a);
      assert [] + [a] == [a];
      ghost var w;
      acts, w := RecordAction(v, [], v, a);
    }

    /** Finds the fresh row of a step in a listing; a linked step is always there. */
    method FindFreshStep(rows: seq<StepInstance>, stepId: string, ghost v: View, ghost i: nat)
      returns (step: StepInstance)
      requires IsView(store.committed, v) && IsListing(rows, store.committed, v.saga.id)
      requires i < |v.steps| && stepId == v.steps[i].id
      ensures step == v.steps[i]
    {
      ListingMatchesView(rows, store.committed, v);
      StepIdsAreDistinct(store.committed, v);
      hide IsView, IsListing;
      var index := FindStep(rows, stepId);
      assert v.steps[i] in rows;
      assert index != -1;
      assert rows[index] in v.steps;
      step := rows[index];
    }

    /** The verdict of validation and of the step processor on one step of a saga in shape. */
    lemma VerdictsAgree(db: Db, sent: seq<Request>, v: View, i: nat)
      requires DbInv(db, sent) && IsView(db, v) && i < |v.steps|
      ensures HasBranch(v.steps[i].state) && !v.steps[i].state.ExecutionDone? && !v.steps[i].state.CompensationDone? ==>
        Accepts(v.steps, i)
      ensures v.saga.state.SagaCompensated? ==> v.steps[i].state.CompensationDone? || v.steps[i].state.ExecutionAborted?
      ensures v.saga.state.SagaCompensationRequested? ==> AllDone(v)
      ensures !v.steps[i].state.ExecutionBlocked?
    {
      hide *;
      var m := PositionOf(db, sent, v);
      VerdictsInShape(v, m, i);
    }

    lemma VerdictsInShape(v: View, m: Position, i: nat)
      requires Inv(v, m) && i < |v.steps|
      ensures HasBranch(v.steps[i].state) && !v.steps[i].state.ExecutionDone? && !v.steps[i].state.CompensationDone? ==>
        Accepts(v.steps, i)
      ensures v.saga.state.SagaCompensated? ==> v.steps[i].state.CompensationDone? || v.steps[i].state.ExecutionAborted?
      ensures v.saga.state.SagaCompensationRequested? ==> AllDone(v)
      ensures !v.steps[i].state.ExecutionBlocked?
    {
      hide Accepts;
      ValidatorsOnShapes(v, m, i);
      assert v.steps[i].state == Letter(m, i) && HistoryFits(v.steps[i]);
    }

    /**
     * What the polling driver does under the saga's mutex for one step it picked earlier; by now the
     * saga may be anywhere. It marks the saga invalid only when the steps could not be listed for
     * validation (unlisted), and then it does unless marking fails as well.
     */
    method PollStep(sagaId: string, stepId: string, ghost v: View, ghost i: nat)
      returns (calls: nat, ghost acts: seq<Action>, ghost unlisted: bool)
      requires store.tx.None? && DbInv(store.committed, bus.published)
      requires IsView(store.committed, v) && v.saga.id == sagaId && i < |v.steps| && v.steps[i].id == stepId
      modifies store, bus, clock
      ensures store.tx.None? && store.faults >= old(store.faults)
      ensures DbInv(store.committed, bus.published) && RunsTo(old(TheWorld()), TheWorld(), !Invalidates(acts))
      ensures EnabledAll(v, acts) && IsView(store.committed, ApplyAll(v, acts))
      ensures calls <= 3
      ensures PollRun(old(TheWorld()), TheWorld(), v, i, acts, !unlisted)
      ensures unlisted ==> store.faults > old(store.faults)
      ensures Invalidates(acts) ==> unlisted
      ensures unlisted && store.faults == old(store.faults) + 1 ==> Invalidates(acts)
      ensures store.faults == old(store.faults) && bus.faults == old(bus.faults) ==>
        if v.saga.state.SagaCompensationRequested?
        then WalkBegins(old(TheWorld()), TheWorld(), v, CascadeReasonOf(old(store.committed), v.saga))
        else if HasBranch(v.steps[i].state)
        then Completes(old(TheWorld()), TheWorld(), v, i, executionTimeoutMs)
        else TheWorld() == old(TheWorld())
    {
      hide RunsTo, IsView, SameOutside, Linked, DbInv, EnabledAll, ApplyAll, Accepts, Apply, Enabled, Works, Validates,
        Moves, RequestIsOut, UndoIsBegun, RowBecomes, OthersStay, SagaIs, WalkBegins, CascadeReasonOf;
      calls, acts, unlisted := 0, [], false;
      EmptyRun(v);
      RunsToItself(TheWorld(), true);
      NothingValidates(TheWorld(), v, i);
      VerdictsAgree(store.committed, bus.published, v, i);
      StoredSaga(store.committed, v);
      var saga := store.GetSagaInstance(sagaId);
      if !saga.Found? {
        return;
      }
      var ok, rows := store.ListSagaStepInstancesBySagaInstanceId(sagaId);
      if !ok {
        return;
      }
      var step := FindFreshStep(rows, stepId, v, i);
      if saga.value.state.SagaCompensationRequested? {
        ghost var a := InitiateCompensationForCommittedSaga(saga.value, v);
        LandedKeepsDbInv(old(store.committed), store.committed, bus.published, v, a, i);
        if !a.Idle? {
          OneMoveWorks(old(TheWorld()), TheWorld(), v, i, a);
          assert [] + [a] == [a];
        }
        if a.Initiate? {
          InitiationBegins(old(TheWorld()), TheWorld(), v, a);
        }
        ghost var w;
        acts, w := RecordAction(v, [], v, a);
        return;
      }
      if PollSkips(step.state) {
        return;
      }
      var valid;
      ghost var listed;
      valid, listed := IsSagaStateValid(sagaId, stepId, v, i);
      unlisted := !listed;
      if !valid {
        acts := MarkInvalidInShape(saga.value, v, i);
        return;
      }
      calls, acts := ProcessUntilSettled(saga.value, step, v, i);
    }

    lemma NothingValidates(w: World, v: View, i: nat)
      requires IsView(w.db, v) && i < |v.steps|
      ensures Validates(w, w, v, i, []) && Works(w, w, v, i, []) && EnabledAll(v, [])
    {
      hide IsView, Moves;
      EmptyRun(v);
      NothingDone(w, v, i);
      WorkSettles(w, w, v, i, []);
    }

    lemma StoredSaga(db: Db, v: View)
      requires IsView(db, v)
      ensures v.saga.id in db.sagas && db.sagas[v.saga.id] == v.saga
    {
    }

    /**
     * The immediate driver, started after a result was processed. It skips only D, d, R and r, so a
     * delayed run can meet a step that has moved on. With a working store and bus it marks the saga
     * invalid exactly when the step is by then compensation-pending or compensation-blocked.
     */
    method ProcessStepWithMutex(sagaId: string, stepId: string, ghost v: View, ghost i: nat)
      returns (calls: nat, ghost acts: seq<Action>, ghost unlisted: bool)
      requires store.tx.None? && DbInv(store.committed, bus.published)
      requires IsView(store.committed, v) && v.saga.id == sagaId && i < |v.steps| && v.steps[i].id == stepId
      requires IsRequested(bus.published, stepId)
      modifies store, bus, clock
      ensures store.tx.None? && store.faults >= old(store.faults)
      ensures DbInv(store.committed, bus.published) && RunsTo(old(TheWorld()), TheWorld(), !Invalidates(acts))
      ensures EnabledAll(v, acts) && IsView(store.committed, ApplyAll(v, acts))
      ensures calls <= 3
      ensures TriggerRun(old(TheWorld()), TheWorld(), v, i, acts, !unlisted)
      ensures unlisted ==> store.faults > old(store.faults)
      ensures Invalidates(acts) ==>
        unlisted || v.steps[i].state.CompensationPending? || v.steps[i].state.CompensationBlocked?
      ensures store.faults == old(store.faults) && bus.faults == old(bus.faults) ==>
        (Invalidates(acts) <==> v.steps[i].state.CompensationPending? || v.steps[i].state.CompensationBlocked?)
      ensures store.faults == old(store.faults) && bus.faults == old(bus.faults) ==>
        if v.steps[i].state.ExecutionRunning? || v.steps[i].state.CompensationRunning?
        then TheWorld() == old(TheWorld())
        else Unprocessable(v.steps[i].state) || Completes(old(TheWorld()), TheWorld(), v, i, executionTimeoutMs)
    {
      hide RunsTo, IsView, SameOutside, Linked, DbInv, EnabledAll, ApplyAll, Accepts, Apply, Enabled, Works, Validates,
        Moves, RequestIsOut, UndoIsBegun, RowBecomes, OthersStay, SagaIs;
      calls, acts, unlisted := 0, [], false;
      EmptyRun(v);
      RunsToItself(TheWorld(), true);
      NothingValidates(TheWorld(), v, i);
      VerdictsAgree(store.committed, bus.published, v, i);
      RequestedStepsRan(store.committed, bus.published, v, i);
      StoredSaga(store.committed, v);
      var saga := store.GetSagaInstance(sagaId);
      if !saga.Found? {
        return;
      }
      var ok, rows := store.ListSagaStepInstancesBySagaInstanceId(sagaId);
      if !ok {
        return;
      }
      var step := FindFreshStep(rows, stepId, v, i);
      if TriggerSkips(step.state) {
        return;
      }
      var valid;
      ghost var listed;
      valid, listed := IsSagaStateValid(sagaId, stepId, v, i);
      unlisted := !listed;
      if !valid {
        acts := MarkInvalidInShape(saga.value, v, i);
        return;
      }
      calls, acts := ProcessUntilSettled(saga.value, step, v, i);
    }

    /** A step with a request on the bus has been executed at least once. */
    lemma RequestedStepsRan(db: Db, sent: seq<Request>, v: View, i: nat)
      requires DbInv(db, sent) && IsView(db, v) && i < |v.steps|
      requires exists r :: r in sent && r.stepId == v.steps[i].id
      ensures !NeverRan(v.steps[i].state) && v.steps[i].history != []
    {
      var m := PositionOf(db, sent, v);
      assert RowPublished(v.steps[i], sent) && HistoryFits(v.steps[i]);
    }

    // ----- any sequence of calls -----

    /** The store and bus as they are, with the given runs due. */
    ghost function TheService(polled: multiset<string>, fired: multiset<string>): Service
      reads store, bus
    {
      Service(TheWorld(), polled, fired)
    }

    /** The call has to be answered: its run is due, or its submission or request is one that is accepted. */
    ghost predicate MustAnswer(x: Service, call: Call) {
      match call
      case ToPick(stepId) => CanPick(x.world.db, stepId)
      case ToPoll(stepId) => stepId in x.polled
      case ToTrigger(stepId) => stepId in x.fired
      case ToReceive(stepId, _, _) => stepId in x.world.db.steps && IsRequested(x.world.bus, stepId)
      case ToSubmit(p, ids, executionIds) =>
        && CanSubmit(x.world, p, ids, executionIds) && !Submissions.IsRefused(store, x.world.db, p)
        && !HasSagaKey(x.world.db, Submissions.NewSaga(p, ids))
      case ToAsk(sagaId) => sagaId in x.world.db.sagas && x.world.db.sagas[sagaId].state.SagaCommitted?
    }

    /** A submission of a known template, with newly drawn ids, that leaves the store in shape. */
    predicate CanSubmit(w: World, p: Submissions.SubmissionRequest, ids: seq<string>, executionIds: seq<string>) {
      && p.sagaId != "" && p.templateId in store.sagaTemplates && Submissions.AreFresh(ids, w.db)
      && Submissions.FitsIn(w.db, p, ids) && (forall r :: r in w.bus ==> r.stepId !in ids)
      && |ids| == |executionIds| == |store.sagaTemplates[p.templateId]|
    }

    /**
     * Each call was answered in turn, along the services of the course; what was due and was not answered,
     * and a listing that did not succeed inside a validation, are failures of the store.
     */
    ghost predicate IsServed(calls: seq<Call>, answers: seq<Option<Event>>, course: seq<Service>, failed: bool) {
      && |answers| <= |calls| && |course| == |answers| + 1
      && (forall k :: 0 <= k < |answers| ==> Answers(course[k], calls[k], answers[k], course[k+1]))
      && (forall k :: 0 <= k < |answers| && answers[k].None? && MustAnswer(course[k], calls[k]) ==> failed)
      && (forall k :: 0 <= k < |answers| && answers[k].Some? && CannotList(answers[k].value) ==> failed)
    }

    /** No listing failed inside a validation, and no immediate run came too late. */
    ghost predicate IsQuiet(answers: seq<Option<Event>>) {
      forall k :: 0 <= k < |answers| && answers[k].Some? ==>
        !CannotList(answers[k].value) && !ComesTooLate(answers[k].value)
    }

    /**
     * Any calls of the pollers, of the queues and of operators, for whatever sagas and steps and in whatever
     * order; polled and fired are the runs that are due. Every call is answered by what it was made for,
     * unless nothing was due or the store failed, and what happens is a course of the service. No saga is
     * marked invalid on it unless the listing inside a validation failed, or an immediate run came so late
     * that it met a step awaiting its compensation or blocked in it. It stops early when a transaction was
     * left open.
     *
     * Submissions that would not leave the store in shape are not made here, see OnSubmission.
     */
    method Serve(calls: seq<Call>, polled0: multiset<string>, fired0: multiset<string>)
      returns (polled: multiset<string>, fired: multiset<string>, ghost answers: seq<Option<Event>>,
        ghost course: seq<Service>)
      requires store.tx.None? && ServesTo(EmptyService(), TheService(polled0, fired0), true)
      modifies store, bus, clock
      ensures DbInv(store.committed, bus.published)
      ensures IsServed(calls, answers, course, store.faults > old(store.faults))
      ensures |answers| == |calls| || store.tx.Some?
      ensures course[0] == old(TheService(polled0, fired0)) && course[|answers|] == TheService(polled, fired)
      ensures IsQuiet(answers) ==>
        ServesTo(EmptyService(), TheService(polled, fired), true) && StoreEnds.NobodyIsInvalid(store.committed)
    {
      hide DbInv, IsView, StoreEnds.NobodyIsInvalid, ServesTo, Happens, ComesTooLate, CannotList, MarksInvalid,
        MustAnswer, Answers, IsAnswer, IsServed, IsQuiet, Services.ServiceFits, InShape;
      polled, fired, answers := polled0, fired0, [];
      course := [TheService(polled, fired)];
      ServicesFit(course[0]);
      NothingServed(calls, course);
      for k := 0 to |calls|
        invariant store.tx.None? && Services.ServiceFits(TheService(polled, fired))
        invariant |answers| == k && |course| == k + 1 && store.faults >= old(store.faults)
        invariant course[0] == old(TheService(polled0, fired0)) && course[k] == TheService(polled, fired)
        invariant IsServed(calls, answers, course, store.faults > old(store.faults))
        invariant IsQuiet(answers) ==> ServesTo(EmptyService(), TheService(polled, fired), true)
      {
        ghost var x, failed := TheService(polled, fired), store.faults > old(store.faults);
        ghost var answer;
        polled, fired, answer := ServeOnce(calls[k], polled, fired);
        AnswersServeOn(x, calls[k], answer, TheService(polled, fired));
        OneMoreServed(calls, answers, course, failed, answer, TheService(polled, fired),
            store.faults > old(store.faults));
        answers, course := answers + [answer], course + [TheService(polled, fired)];
        if store.tx.Some? {
          break;
        }
      }
      Services.FitsInShape(TheService(polled, fired));
      ShapeIs(TheWorld());
      if IsQuiet(answers) {
        CleanEnd(TheService(polled, fired));
      }
    }

    lemma NothingServed(calls: seq<Call>, course: seq<Service>)
      requires |course| == 1
      ensures IsServed(calls, [], course, false)
    {
    }

    lemma OneMoreServed(calls: seq<Call>, answers: seq<Option<Event>>, course: seq<Service>, failed: bool,
        answer: Option<Event>, x: Service, failed': bool)
      requires IsServed(calls, answers, course, failed) && |answers| < |calls| && (failed ==> failed')
      requires Answers(course[|answers|], calls[|answers|], answer, x)
      requires answer.None? && MustAnswer(course[|answers|], calls[|answers|]) ==> failed'
      requires answer.Some? && CannotList(answer.value) ==> failed'
      ensures IsServed(calls, answers + [answer], course + [x], failed')
      ensures IsQuiet(answers + [answer]) <==>
        IsQuiet(answers) && (answer.Some? ==> !CannotList(answer.value) && !ComesTooLate(answer.value))
    {
      hide Answers, MustAnswer, CannotList, ComesTooLate;
      var all := answers + [answer];
      assert all[|answers|] == answer && forall k :: 0 <= k < |answers| ==> all[k] == answers[k];
    }

    /** An answer keeps what services have, and takes a course that marks nobody invalid on, unless it does. */
    lemma AnswersServeOn(x: Service, call: Call, answer: Option<Event>, x': Service)
      requires Services.ServiceFits(x) && Answers(x, call, answer, x')
      ensures Services.ServiceFits(x')
      ensures ServesTo(EmptyService(), x, true) && (answer.Some? ==> !MarksInvalid(answer.value)) ==>
        ServesTo(EmptyService(), x', true)
    {
      hide ServesTo, Services.ServiceFits, Happens, MarksInvalid, IsAnswer;
      if answer.Some? {
        Services.EventKeepsFits(x, answer.value, x');
        ServesOnce(x, answer.value, x');
        if ServesTo(EmptyService(), x, true) && !MarksInvalid(answer.value) {
          ServesOn(EmptyService(), x, x', true, true);
        }
      }
    }

    lemma ServicesFit(x: Service)
      requires ServesTo(EmptyService(), x, true)
      ensures Services.ServiceFits(x)
    {
      hide ServesTo, Services.ServiceFits;
      Services.EmptyServiceFits();
      Services.CoursesKeepFits(EmptyService(), x, true);
    }

    lemma CleanEnd(x: Service)
      requires ServesTo(EmptyService(), x, true)
      ensures StoreEnds.NobodyIsInvalid(x.world.db)
    {
      hide ServesTo, StoreEnds.NobodyIsInvalid;
      EmptyStoreIsInShape();
      CoursesAreRuns(EmptyService(), x, true);
      StoreEnds.CleanRunsHaveNoInvalidSaga(x.world);
    }

    /** One call. */
    method ServeOnce(call: Call, polled0: multiset<string>, fired0: multiset<string>)
      returns (polled: multiset<string>, fired: multiset<string>, ghost answer: Option<Event>)
      requires store.tx.None? && Services.ServiceFits(TheService(polled0, fired0))
      modifies store, bus, clock
      ensures Answers(old(TheService(polled0, fired0)), call, answer, TheService(polled, fired))
      ensures store.faults >= old(store.faults)
      ensures answer.None? && MustAnswer(old(TheService(polled0, fired0)), call) ==> store.faults > old(store.faults)
      ensures answer.Some? && CannotList(answer.value) ==> store.faults > old(store.faults)
      ensures answer.Some? && MarksInvalid(answer.value) ==> CannotList(answer.value) || ComesTooLate(answer.value)
    {
      hide DbInv, IsView, Happens, MarksInvalid, ComesTooLate, CannotList, Services.ServiceFits, CanPick, IsRequested,
        IsAnswer, CanSubmit;
      polled, fired, answer := polled0, fired0, None;
      ghost var x := TheService(polled0, fired0);
      ghost var e;
      Services.FitsInShape(x);
      ShapeIs(TheWorld());
      match call {
        case ToPick(stepId) =>
          if CanPick(store.committed, stepId) {
            polled, answer := polled + multiset{stepId}, Some(Pick(stepId));
            Picked(x, stepId);
          }
        case ToPoll(stepId) =>
          if stepId in polled {
            DueIsStored(x, stepId);
            e := ServePoll(stepId, polled, fired);
            polled, answer := polled - multiset{stepId}, Some(e);
          }
        case ToTrigger(stepId) =>
          if stepId in fired {
            DueIsStored(x, stepId);
            e := ServeTrigger(stepId, polled, fired);
            fired, answer := fired - multiset{stepId}, Some(e);
          }
        case ToReceive(stepId, status, data) =>
          if stepId in store.committed.steps && IsRequested(bus.published, stepId) {
            var triggered;
            e, triggered := ServeResult(stepId, status, data, polled, fired);
            fired, answer := if triggered then fired + multiset{stepId} else fired, Some(e);
          }
        case ToSubmit(p, ids, executionIds) =>
          if CanSubmit(World(store.committed, bus.published), p, ids, executionIds) {
            answer := ServeSubmission(p, ids, executionIds, polled, fired);
          }
        case ToAsk(sagaId) =>
          var ok := store.TriggerSagaCompensation(sagaId);
          if ok {
            answer := Some(Ask(sagaId));
            Asked(x, sagaId, TheService(polled, fired));
          }
      }
    }

    lemma Picked(x: Service, stepId: string)
      requires CanPick(x.world.db, stepId)
      ensures Happens(x, Pick(stepId), x.(polled := x.polled + multiset{stepId})) && !MarksInvalid(Pick(stepId))
      ensures IsAnswer(Pick(stepId), ToPick(stepId)) && !CannotList(Pick(stepId))
    {
      hide CanPick;
    }

    lemma Asked(x: Service, id: string, x': Service)
      requires id in x.world.db.sagas && x.world.db.sagas[id].state.SagaCommitted?
      requires x' == x.(world := World(RequestCompensation(x.world.db, id), x.world.bus))
      ensures Happens(x, Ask(id), x') && !MarksInvalid(Ask(id))
      ensures IsAnswer(Ask(id), ToAsk(id)) && !CannotList(Ask(id))
    {
    }

    lemma DueIsStored(x: Service, id: string)
      requires Services.ServiceFits(x) && (id in x.polled || id in x.fired)
      ensures id in x.world.db.steps && (id in x.fired ==> IsRequested(x.world.bus, id))
    {
      Services.FitsInShape(x);
      hide InShape, Services.ServiceFits, IsRequested;
      assert Services.StepServed(x, id);
    }

    /** A poll that is due. */
    method ServePoll(stepId: string, ghost polled: multiset<string>, ghost fired: multiset<string>)
      returns (ghost e: Event)
      requires store.tx.None? && DbInv(store.committed, bus.published) && stepId in store.committed.steps
      requires stepId in polled
      modifies store, bus, clock
      ensures Happens(old(TheService(polled, fired)), e, TheService(polled - multiset{stepId}, fired))
      ensures IsAnswer(e, ToPoll(stepId))
      ensures store.faults >= old(store.faults) && (CannotList(e) ==> store.faults > old(store.faults))
      ensures MarksInvalid(e) ==> CannotList(e)
    {
      hide DbInv, RunsTo, IsView, EnabledAll, ApplyAll, PollRun;
      var sagaId := store.committed.steps[stepId].sagaId;
      ghost var v, i := ViewOfStep(store.committed, bus.published, stepId);
      var calls;
      ghost var acts, unlisted;
      calls, acts, unlisted := PollStep(sagaId, stepId, v, i);
      e := Poll(v, i, acts, !unlisted);
    }

    /** An immediate run that is due. */
    method ServeTrigger(stepId: string, ghost polled: multiset<string>, ghost fired: multiset<string>)
      returns (ghost e: Event)
      requires store.tx.None? && DbInv(store.committed, bus.published) && stepId in store.committed.steps
      requires stepId in fired && IsRequested(bus.published, stepId)
      modifies store, bus, clock
      ensures Happens(old(TheService(polled, fired)), e, TheService(polled, fired - multiset{stepId}))
      ensures IsAnswer(e, ToTrigger(stepId))
      ensures store.faults >= old(store.faults) && (CannotList(e) ==> store.faults > old(store.faults))
      ensures MarksInvalid(e) ==> CannotList(e) || ComesTooLate(e)
    {
      hide DbInv, RunsTo, IsView, EnabledAll, ApplyAll, TriggerRun, IsRequested;
      var sagaId := store.committed.steps[stepId].sagaId;
      ghost var v, i := ViewOfStep(store.committed, bus.published, stepId);
      var calls;
      ghost var acts, unlisted;
      calls, acts, unlisted := ProcessStepWithMutex(sagaId, stepId, v, i);
      e := Trigger(v, i, acts, !unlisted);
    }

    /** A result for a step that was sent its request. */
    method ServeResult(stepId: string, status: ResultStatus, data: Data, ghost polled: multiset<string>,
        ghost fired: multiset<string>)
      returns (ghost e: Event, triggered: bool)
      requires store.tx.None? && DbInv(store.committed, bus.published) && stepId in store.committed.steps
      requires IsRequested(bus.published, stepId)
      modifies store, clock
      ensures store.faults >= old(store.faults) && !MarksInvalid(e) && !CannotList(e)
      ensures Happens(old(TheService(polled, fired)), e,
                      TheService(polled, if triggered then fired + multiset{stepId} else fired))
      ensures IsAnswer(e, ToReceive(stepId, status, data))
    {
      hide DbInv, RunsTo, IsView, EnabledAll, ApplyAll, ResultRun, IsRequested;
      var sagaId := store.committed.steps[stepId].sagaId;
      ghost var v, i := ViewOfStep(store.committed, bus.published, stepId);
      var acknowledged;
      ghost var acts;
      acknowledged, triggered, acts := OnResultMessage(sagaId, stepId, status, data, v, i);
      e := Result(v, i, acts, triggered);
    }

    /** A submission with newly drawn ids. */
    method ServeSubmission(p: Submissions.SubmissionRequest, ids: seq<string>, executionIds: seq<string>,
        ghost polled: multiset<string>, ghost fired: multiset<string>)
      returns (ghost answer: Option<Event>)
      requires store.tx.None? && DbInv(store.committed, bus.published)
      requires CanSubmit(TheWorld(), p, ids, executionIds)
      modifies store
      ensures store.tx.None? && store.faults >= old(store.faults)
      ensures Answers(old(TheService(polled, fired)), ToSubmit(p, ids, executionIds), answer, TheService(polled, fired))
      ensures answer.Some? ==> !MarksInvalid(answer.value) && !CannotList(answer.value)
      ensures store.faults == old(store.faults) ==>
        Submissions.IsRefused(store, old(store.committed), p)
        || HasSagaKey(old(store.committed), Submissions.NewSaga(p, ids)) || answer.Some?
    {
      hide DbInv, RunsTo, Registers, HasSagaKey, Submissions.IsRefused, Submissions.StoredAsSubmitted;
      answer := None;
      var ok, saved := Submissions.OnSubmission(store, bus, p, ids, executionIds);
      if ok && saved {
        answer := Some(Submit(Submissions.NewView(p, store.sagaTemplates[p.templateId], ids, executionIds)));
      }
    }

    lemma ViewOfStep(db: Db, sent: seq<Request>, stepId: string) returns (v: View, i: nat)
      requires DbInv(db, sent) && stepId in db.steps
      ensures IsView(db, v) && i < |v.steps| && v.steps[i].id == stepId && v.saga.id == db.steps[stepId].sagaId
    {
      hide DbInv, Inv;
      var w := World(db, sent);
      ShapeIs(w);
      DbInvAt(db, sent);
      var m;
      v, m := Services.StoredView(w, db.steps[stepId].sagaId);
      i := StepAt(db, v, stepId);
    }
  }
}
