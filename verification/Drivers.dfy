/**
 * The drivers of the store as a transition relation: the poller picks steps of running sagas and works
 * on them later; a result changes the step it is for and fires an immediate run for it; submissions and
 * requests to compensate come from outside. A run that was picked or fired is due until it is made, and
 * by then the saga may be anywhere.
 */
module Drivers {
  import opened Types
  import opened Transitions
  import opened Machine
  import opened Invariants
  import opened Runs
  import opened Steering
  import opened StoreRuns

  /** The store, and the steps for which a run of the poller or an immediate run is due. */
  datatype Service = Service(world: World, polled: multiset<string>, fired: multiset<string>)

  // ----- one run -----

  /** The step processor's calls on step i of v, one after the other. */
  ghost predicate Works(w: World, w': World, v: View, i: nat, acts: seq<Action>)
    decreases |acts|
  {
    if acts == [] then w' == w
    else
      Enabled(v, acts[0])
      && exists w1: World :: Moves(w, w1, v, acts[0], i) && Works(w1, w', Apply(v, acts[0]), i, acts[1..])
  }

  predicate Continues(a: Action) {
    a.Start? || a.Fail? || a.StartCompensation?
  }

  /** The follow-up loop goes on after a start, a failure and a started compensation. */
  predicate IsOneRun(acts: seq<Action>, i: nat) {
    forall k :: 0 <= k < |acts| ==> IsCallOn(acts[k], i) && (k + 1 < |acts| ==> Continues(acts[k]))
  }

  /** The calls that did something, and one more that waits, or fails before its commit. */
  ghost predicate Settles(w: World, w': World, v: View, i: nat, acts: seq<Action>) {
    && EnabledAll(v, acts)
    && exists w1: World :: Works(w, w1, v, i, acts) && Moves(w1, w', ApplyAll(v, acts), Idle, i)
  }

  predicate IsInvalidation(acts: seq<Action>) {
    |acts| == 1 && acts[0].Invalidate?
  }

  /** A run that gets as far as validation: the saga is marked invalid, or worked on. */
  ghost predicate Validates(w: World, w': World, v: View, i: nat, acts: seq<Action>) {
    Settles(w, w', v, i, acts) && (IsInvalidation(acts) || IsOneRun(acts, i))
  }

  /**
   * When the steps could not be listed for validation, the saga is marked invalid, or that fails too.
   * When they could, it is marked invalid only for a step in a state that the processor has no branch for.
   */
  predicate IsVerdict(s: StepState, acts: seq<Action>, listed: bool) {
    if listed then IsInvalidation(acts) ==> Unprocessable(s) else acts == [] || IsInvalidation(acts)
  }

  /** The states in which the polling driver leaves a step alone. */
  predicate PollSkips(s: StepState) {
    s.ExecutionDone? || s.CompensationDone? || s.ExecutionAborted? || s.CompensationBlocked? || s.ExecutionRunning?
    || s.CompensationRunning? || s.ExecutionPending? || s.CompensationPending?
  }

  /** The states in which the immediate driver leaves a step alone. */
  predicate TriggerSkips(s: StepState) {
    s.ExecutionDone? || s.CompensationDone? || s.ExecutionRunning? || s.CompensationRunning?
  }

  /** One run of the polling driver for step i of v; listed says whether validation could list the steps. */
  ghost predicate PollRun(w: World, w': World, v: View, i: nat, acts: seq<Action>, listed: bool) {
    && IsView(w.db, v) && i < |v.steps|
    && if v.saga.state.SagaCompensationRequested? then
         Works(w, w', v, i, acts) && (acts != [] ==> |acts| == 1 && acts[0].Initiate?)
       else if PollSkips(v.steps[i].state) then w' == w && acts == []
       else Validates(w, w', v, i, acts) && IsVerdict(v.steps[i].state, acts, listed)
  }

  /** The same for the immediate driver. */
  ghost predicate TriggerRun(w: World, w': World, v: View, i: nat, acts: seq<Action>, listed: bool) {
    && IsView(w.db, v) && i < |v.steps|
    && if TriggerSkips(v.steps[i].state) then w' == w && acts == []
       else Validates(w, w', v, i, acts) && IsVerdict(v.steps[i].state, acts, listed)
  }

  predicate IsRequested(bus: seq<Request>, stepId: string) {
    exists r :: r in bus && r.stepId == stepId
  }

  /**
   * A result for step i of v, which was sent a request. A result that is taken fires an immediate run;
   * so does one that is rolled back at the last moment. A late one does nothing.
   */
  ghost predicate ResultRun(w: World, w': World, v: View, i: nat, acts: seq<Action>, fires: bool) {
    && IsView(w.db, v) && i < |v.steps| && IsRequested(w.bus, v.steps[i].id)
    && (fires ==> !IgnoresResults(v.steps[i].state))
    && if acts == [] then w' == w
       else fires && |acts| == 1 && acts[0].Receive? && Moves(w, w', v, acts[0], i)
  }

  // ----- what happens in a service -----

  datatype Event =
    | Pick(stepId: string)
    | Poll(v: View, i: nat, acts: seq<Action>, listed: bool)
    | Trigger(v: View, i: nat, acts: seq<Action>, listed: bool)
    | Result(v: View, i: nat, acts: seq<Action>, fires: bool)
    | Submit(v: View)
    | Ask(sagaId: string)

  predicate IsRun(e: Event) {
    e.Poll? || e.Trigger? || e.Result?
  }

  predicate CanPick(db: Db, stepId: string) {
    && stepId in db.steps && db.steps[stepId].sagaId in db.sagas
    && IsPicked(db.sagas[db.steps[stepId].sagaId].state, db.steps[stepId].state)
  }

  ghost predicate Happens(x: Service, e: Event, x': Service) {
    match e
    case Pick(stepId) =>
      CanPick(x.world.db, stepId) && x' == x.(polled := x.polled + multiset{stepId})
    case Poll(v, i, acts, listed) =>
      && PollRun(x.world, x'.world, v, i, acts, listed) && v.steps[i].id in x.polled
      && x' == x.(world := x'.world, polled := x.polled - multiset{v.steps[i].id})
    case Trigger(v, i, acts, listed) =>
      && TriggerRun(x.world, x'.world, v, i, acts, listed) && v.steps[i].id in x.fired
      && x' == x.(world := x'.world, fired := x.fired - multiset{v.steps[i].id})
    case Result(v, i, acts, fires) =>
      && ResultRun(x.world, x'.world, v, i, acts, fires)
      && x' == x.(world := x'.world, fired := if fires then x.fired + multiset{v.steps[i].id} else x.fired)
    case Submit(v) =>
      Registers(x.world, x'.world, v) && x' == x.(world := x'.world)
    case Ask(sagaId) =>
      && sagaId in x.world.db.sagas && x.world.db.sagas[sagaId].state.SagaCommitted?
      && x' == x.(world := World(RequestCompensation(x.world.db, sagaId), x.world.bus))
  }

  predicate MarksInvalid(e: Event) {
    (e.Poll? || e.Trigger?) && Invalidates(e.acts)
  }

  /** Something happens; when clean, no saga is marked invalid by it. */
  ghost predicate Goes(x: Service, x': Service, clean: bool) {
    exists e :: Happens(x, e, x') && (clean ==> !MarksInvalid(e))
  }

  ghost predicate IsCourse(course: seq<Service>, clean: bool) {
    course != [] && forall k :: 0 < k < |course| ==> GoesAt(course, k, clean)
  }

  ghost predicate GoesAt(course: seq<Service>, k: nat, clean: bool)
    requires 0 < k < |course|
  {
    Goes(course[k-1], course[k], clean)
  }

  /** x' comes out of x by whatever the drivers, results, submissions and requests do. */
  ghost predicate ServesTo(x: Service, x': Service, clean: bool) {
    exists course :: IsCourse(course, clean) && course[0] == x && course[|course| - 1] == x'
  }

  function EmptyService(): Service {
    Service(EmptyWorld(), multiset{}, multiset{})
  }

  /** A run whose validation could not list the steps. */
  predicate CannotList(e: Event) {
    (e.Poll? || e.Trigger?) && !e.listed
  }

  /** An immediate run for a step that meanwhile waits to be compensated, or is blocked. */
  predicate ComesTooLate(e: Event) {
    && e.Trigger? && e.i < |e.v.steps|
    && (e.v.steps[e.i].state.CompensationPending? || e.v.steps[e.i].state.CompensationBlocked?)
  }

  // ----- composing courses -----

  lemma ServesToItself(x: Service, clean: bool)
    ensures ServesTo(x, x, clean)
  {
    assert IsCourse([x], clean) && [x][0] == x;
  }

  lemma ServesOnce(x: Service, e: Event, x': Service)
    requires Happens(x, e, x')
    ensures ServesTo(x, x', !MarksInvalid(e))
  {
    hide Happens;
    var course, clean := [x, x'], !MarksInvalid(e);
    assert Goes(x, x', clean);
    assert GoesAt(course, 1, clean);
    assert IsCourse(course, clean) && course[0] == x && course[|course| - 1] == x';
  }

  lemma ServingForgetsClean(x: Service, x': Service, clean: bool, less: bool)
    requires ServesTo(x, x', clean) && (less ==> clean)
    ensures ServesTo(x, x', less)
  {
    hide Happens;
    var course :| IsCourse(course, clean) && course[0] == x && course[|course| - 1] == x';
    forall k | 0 < k < |course| ensures GoesAt(course, k, less) {
      assert GoesAt(course, k, clean);
    }
    assert IsCourse(course, less);
  }

  /** Courses compose; the whole is clean when both parts are. */
  lemma ServesOn(x: Service, x1: Service, x2: Service, clean: bool, clean': bool)
    requires ServesTo(x, x1, clean) && ServesTo(x1, x2, clean')
    ensures ServesTo(x, x2, clean && clean')
  {
    hide Goes;
    var both := clean && clean';
    ServingForgetsClean(x, x1, clean, both);
    ServingForgetsClean(x1, x2, clean', both);
    var p :| IsCourse(p, both) && p[0] == x && p[|p| - 1] == x1;
    var q :| IsCourse(q, both) && q[0] == x1 && q[|q| - 1] == x2;
    var course := p + q[1..];
    forall k | 0 < k < |course| ensures GoesAt(course, k, both) {
      if k < |p| {
        assert GoesAt(p, k, both) && course[k] == p[k] && course[k-1] == p[k-1];
      } else {
        assert GoesAt(q, k - |p| + 1, both);
        assert course[k] == q[k - |p| + 1] && course[k-1] == q[k - |p|];
      }
    }
    assert IsCourse(course, both) && course[0] == x && course[|course| - 1] == x2;
  }

  // ----- facts about one run -----

  lemma {:induction false} WorksOneMore(w: World, w1: World, w2: World, v: View, i: nat, acts: seq<Action>, a: Action)
    requires Works(w, w1, v, i, acts) && EnabledAll(v, acts) && Moves(w1, w2, ApplyAll(v, acts), a, i)
    ensures Works(w, w2, v, i, acts + [a])
    decreases |acts|
  {
    hide Moves, Enabled, Apply;
    if acts == [] {
      assert (acts + [a])[1..] == [] && (acts + [a])[0] == a;
      MovesAreEnabled(w1, w2, v, a, i);
      assert Works(w2, w2, Apply(v, a), i, []);
    } else {
      var v1 := Apply(v, acts[0]);
      var w0: World :| Moves(w, w0, v, acts[0], i) && Works(w0, w1, v1, i, acts[1..]);
      WorksOneMore(w0, w1, w2, v1, i, acts[1..], a);
      assert (acts + [a])[1..] == acts[1..] + [a] && (acts + [a])[0] == acts[0];
    }
  }

  lemma MovesAreEnabled(w: World, w': World, v: View, a: Action, i: nat)
    requires Moves(w, w', v, a, i)
    ensures Enabled(v, a) && IsView(w.db, v) && i < |v.steps|
  {
  }

  /** The bus gained at most requests for one step. */
  predicate OnlyAsks(bus: seq<Request>, bus': seq<Request>, stepId: string) {
    bus <= bus' && forall r :: r in bus' ==> r in bus || r.stepId == stepId
  }

  /** Calls on one saga keep the store in shape and touch nothing but that saga and requests for that step. */
  ghost predicate WorksInside(w: World, w': World, v: View, i: nat, acts: seq<Action>)
    requires i < |v.steps| && EnabledAll(v, acts)
  {
    && IsView(w'.db, ApplyAll(v, acts)) && InShape(w') && SameOutside(w.db, w'.db, v.saga.id)
    && RunsTo(w, w', !Invalidates(acts)) && OnlyAsks(w.bus, w'.bus, v.steps[i].id)
  }

  predicate NoneIsIdle(acts: seq<Action>) {
    forall a :: a in acts ==> !a.Idle?
  }

  lemma MovesInside(w: World, w': World, v: View, a: Action, i: nat)
    requires InShape(w) && Moves(w, w', v, a, i) && !a.Idle?
    ensures Enabled(v, a) && i < |v.steps| && IsView(w'.db, Apply(v, a)) && InShape(w')
    ensures SameOutside(w.db, w'.db, v.saga.id)
    ensures RunsTo(w, w', !a.Invalidate?) && OnlyAsks(w.bus, w'.bus, v.steps[i].id)
    ensures |Apply(v, a).steps| == |v.steps| && Apply(v, a).steps[i].id == v.steps[i].id
    ensures Apply(v, a).saga.id == v.saga.id
  {
    MovesAreEnabled(w, w', v, a, i);
    MoveRuns(w, w', v, a, i);
    MoveKeepsDbInv(w.db, w'.db, w.bus, w'.bus, v, a, i);
    ShapeIs(w);
    ShapeIs(w');
    ApplyKeepsIdentity(v, a);
    hide InShape, DbInv, RunsTo, Enabled, Apply, IsView, Linked;
    MovedHasView(w.db, w'.db, v, a, v.steps[i].id);
    MovesOnlyInside(w.db, w'.db, v, a, v.steps[i].id);
    MovesAskOnly(w, w', v, a, i);
  }

  lemma MovesAskOnly(w: World, w': World, v: View, a: Action, i: nat)
    requires Moves(w, w', v, a, i)
    ensures i < |v.steps| && OnlyAsks(w.bus, w'.bus, v.steps[i].id)
  {
    hide Moved, Enabled, IsView;
  }

  lemma {:induction false} WorkStaysInside(w: World, w': World, v: View, i: nat, acts: seq<Action>)
    requires InShape(w) && IsView(w.db, v) && i < |v.steps| && Works(w, w', v, i, acts) && NoneIsIdle(acts)
    ensures EnabledAll(v, acts) && WorksInside(w, w', v, i, acts)
    decreases |acts|
  {
    hide InShape, RunsTo, Moves, Enabled, Apply, SameOutside, IsView, OnlyAsks;
    if acts == [] {
      RunsToItself(w, true);
      NothingChanges(w, v, i);
    } else {
      var v1 := Apply(v, acts[0]);
      var w1: World :| Moves(w, w1, v, acts[0], i) && Works(w1, w', v1, i, acts[1..]);
      assert acts[0] in acts && forall a :: a in acts[1..] ==> a in acts;
      MovesInside(w, w1, v, acts[0], i);
      WorkStaysInside(w1, w', v1, i, acts[1..]);
      InsideOn(w.db, w1.db, w'.db, v.saga.id);
      AsksOn(w.bus, w1.bus, w'.bus, v.steps[i].id);
      RunsOn(w, w1, w', !acts[0].Invalidate?, !Invalidates(acts[1..]));
      FirstInvalidates(acts);
    }
  }

  lemma NothingChanges(w: World, v: View, i: nat)
    requires IsView(w.db, v) && i < |v.steps|
    ensures SameOutside(w.db, w.db, v.saga.id) && OnlyAsks(w.bus, w.bus, v.steps[i].id)
    ensures !Invalidates([])
  {
  }

  lemma FirstInvalidates(acts: seq<Action>)
    requires acts != []
    ensures Invalidates(acts) <==> acts[0].Invalidate? || Invalidates(acts[1..])
  {
    assert acts == [acts[0]] + acts[1..];
  }

  lemma InsideOn(a: Db, b: Db, c: Db, s: string)
    requires SameOutside(a, b, s) && SameOutside(b, c, s)
    ensures SameOutside(a, c, s)
  {
  }

  lemma AsksOn(a: seq<Request>, b: seq<Request>, c: seq<Request>, stepId: string)
    requires OnlyAsks(a, b, stepId) && OnlyAsks(b, c, stepId)
    ensures OnlyAsks(a, c, stepId)
  {
  }

  // ----- what a run changes -----

  /** Of other sagas, committed ones may have been asked to compensate; their steps are as they were. */
  ghost predicate AskedOutside(db: Db, db': Db, sid: string) {
    && db'.sagas.Keys == db.sagas.Keys && db'.steps.Keys == db.steps.Keys
    && (forall id :: id in db.steps ==> db'.steps[id].sagaId == db.steps[id].sagaId)
    && (forall id :: id in db.steps && db.steps[id].sagaId != sid ==> db'.steps[id] == db.steps[id])
    && (forall s :: s in db.sagas && s != sid ==> SameOrAsked(db.sagas[s], db'.sagas[s]))
  }

  predicate SameOrAsked(saga: SagaInstance, saga': SagaInstance) {
    saga' == saga || (saga.state.SagaCommitted? && saga' == saga.(state := SagaCompensationRequested))
  }

  ghost predicate Serves(w: World, w': World, v: View, i: nat, acts: seq<Action>) {
    && IsView(w.db, v) && i < |v.steps| && EnabledAll(v, acts)
    && IsView(w'.db, ApplyAll(v, acts)) && InShape(w') && AskedOutside(w.db, w'.db, v.saga.id)
    && RunsTo(w, w', !Invalidates(acts)) && OnlyAsks(w.bus, w'.bus, v.steps[i].id)
  }

  lemma InsideIsAsked(db: Db, db': Db, sid: string)
    requires SameOutside(db, db', sid)
    ensures AskedOutside(db, db', sid)
  {
  }

  lemma ChildrenAreAsked(db: Db, db1: Db, db2: Db, sid: string, stepId: string)
    requires SameOutside(db, db1, sid) && ChildrenRequested(db1, db2, sid, stepId)
    requires sid in db.sagas && forall s :: s in db1.sagas && IsChildOf(db1.sagas[s], sid, stepId) ==> s != sid
    ensures AskedOutside(db, db2, sid)
  {
  }

  lemma WorkServes(w: World, w': World, v: View, i: nat, acts: seq<Action>)
    requires InShape(w) && IsView(w.db, v) && i < |v.steps| && Works(w, w', v, i, acts) && NoneIsIdle(acts)
    ensures Serves(w, w', v, i, acts)
  {
    WorkStaysInside(w, w', v, i, acts);
    hide InShape, RunsTo, Works, EnabledAll, ApplyAll;
    InsideIsAsked(w.db, w'.db, v.saga.id);
  }

  lemma LastCallWaits(w: World, w': World, u: View, i: nat)
    requires InShape(w) && Moves(w, w', u, Idle, i)
    ensures i < |u.steps| && IsView(w'.db, u) && InShape(w') && RunsTo(w, w', true)
    ensures ChildrenRequested(w.db, w'.db, u.saga.id, u.steps[i].id)
    ensures forall s :: s in w.db.sagas && IsChildOf(w.db.sagas[s], u.saga.id, u.steps[i].id) ==> s != u.saga.id
    ensures OnlyAsks(w.bus, w'.bus, u.steps[i].id)
  {
    MoveRuns(w, w', u, Idle, i);
    MoveKeepsDbInv(w.db, w'.db, w.bus, w'.bus, u, Idle, i);
    ShapeIs(w);
    ShapeIs(w');
    MovesAskOnly(w, w', u, Idle, i);
    IdleApplies(u);
    hide DbInv, InShape, RunsTo, BusGrew, OnlyAsks;
  }

  lemma IdentityOverRun(v: View, acts: seq<Action>, i: nat)
    requires EnabledAll(v, acts) && i < |v.steps|
    ensures var u := ApplyAll(v, acts);
      u.saga.id == v.saga.id && u.saga.parentId == v.saga.parentId && u.saga.stepIds == v.saga.stepIds
      && |u.steps| == |v.steps| && u.steps[i].id == v.steps[i].id
  {
    RunKeepsIdentity(v, acts);
  }

  lemma SettlingServes(w: World, w': World, v: View, i: nat, acts: seq<Action>)
    requires InShape(w) && IsView(w.db, v) && i < |v.steps| && Settles(w, w', v, i, acts) && NoneIsIdle(acts)
    ensures Serves(w, w', v, i, acts)
  {
    var w1: World :| Works(w, w1, v, i, acts) && Moves(w1, w', ApplyAll(v, acts), Idle, i);
    WorkStaysInside(w, w1, v, i, acts);
    hide InShape, RunsTo, Works, EnabledAll, ApplyAll, Moves, SameOutside, OnlyAsks, AskedOutside;
    IdentityOverRun(v, acts, i);
    LastCallWaits(w1, w', ApplyAll(v, acts), i);
    ViewIsStored(w.db, v);
    ChildrenAreAsked(w.db, w1.db, w'.db, v.saga.id, v.steps[i].id);
    AsksOn(w.bus, w1.bus, w'.bus, v.steps[i].id);
    RunsOn(w, w1, w', !Invalidates(acts), true);
  }

  lemma ViewIsStored(db: Db, v: View)
    requires IsView(db, v)
    ensures v.saga.id in db.sagas && db.sagas[v.saga.id] == v.saga && Linked(v)
  {
  }

  lemma NothingServes(w: World, v: View, i: nat)
    requires InShape(w) && IsView(w.db, v) && i < |v.steps|
    ensures Serves(w, w, v, i, [])
  {
    EmptyRun(v);
    RunsToItself(w, true);
    NothingChanges(w, v, i);
    InsideIsAsked(w.db, w.db, v.saga.id);
    hide InShape, RunsTo, SameOutside;
  }

  lemma IdleIsAMove(w: World, u: View, i: nat)
    requires IsView(w.db, u) && i < |u.steps|
    ensures Moves(w, w, u, Idle, i)
  {
    NothingRequested(w.db, u.saga.id, u.steps[i].id);
    hide IsView, ChildrenRequested;
  }

  lemma WorkSettles(w: World, w': World, v: View, i: nat, acts: seq<Action>)
    requires Works(w, w', v, i, acts) && EnabledAll(v, acts) && i < |v.steps| && IsView(w'.db, ApplyAll(v, acts))
    ensures Settles(w, w', v, i, acts)
  {
    hide Works, EnabledAll, ApplyAll, IsView, Moves;
    IdentityOverRun(v, acts, i);
    IdleIsAMove(w', ApplyAll(v, acts), i);
  }

  lemma OneRunIsBusy(acts: seq<Action>, i: nat)
    requires IsInvalidation(acts) || IsOneRun(acts, i)
    ensures NoneIsIdle(acts)
  {
  }

  lemma RunMeans(x: Service, e: Event, x': Service)
    requires IsRun(e) && Happens(x, e, x')
    ensures e.Poll? ==> PollRun(x.world, x'.world, e.v, e.i, e.acts, e.listed)
    ensures e.Trigger? ==> TriggerRun(x.world, x'.world, e.v, e.i, e.acts, e.listed)
    ensures e.Result? ==> ResultRun(x.world, x'.world, e.v, e.i, e.acts, e.fires)
  {
    hide PollRun, TriggerRun, ResultRun;
  }

  /** A run of a driver, or a result, serves one saga. */
  lemma RunsServe(x: Service, e: Event, x': Service)
    requires InShape(x.world) && IsRun(e) && Happens(x, e, x')
    ensures Serves(x.world, x'.world, e.v, e.i, e.acts) && NoneIsIdle(e.acts)
  {
    hide InShape, IsView, Works, Settles, Moves, Serves, IsOneRun;
    if e.acts == [] && x'.world == x.world {
      NothingServes(x.world, e.v, e.i);
    } else if e.Result? {
      OneMoveWorks(x.world, x'.world, e.v, e.i, e.acts[0]);
      assert e.acts == [e.acts[0]];
      WorkServes(x.world, x'.world, e.v, e.i, e.acts);
    } else if e.Poll? && e.v.saga.state.SagaCompensationRequested? {
      WorkServes(x.world, x'.world, e.v, e.i, e.acts);
    } else {
      OneRunIsBusy(e.acts, e.i);
      SettlingServes(x.world, x'.world, e.v, e.i, e.acts);
    }
  }

  lemma OneMoveWorks(w: World, w': World, v: View, i: nat, a: Action)
    requires Moves(w, w', v, a, i)
    ensures Works(w, w', v, i, [a])
  {
    MovesAreEnabled(w, w', v, a, i);
    hide Moves, Enabled, Apply;
    assert [a][1..] == [];
    assert Works(w', w', Apply(v, a), i, []);
  }

  /** Whatever happens in a service is a run of its store. */
  lemma EventsAreRuns(x: Service, e: Event, x': Service)
    requires InShape(x.world) && Happens(x, e, x')
    ensures RunsTo(x.world, x'.world, !MarksInvalid(e)) && InShape(x'.world)
  {
    hide InShape, Moves, Registers, PollRun, TriggerRun;
    if IsRun(e) {
      RunsServe(x, e, x');
      ResultsMarkNobody(x, e, x');
      hide Happens, IsView, AskedOutside, OnlyAsks;
    } else if e.Submit? {
      RegistrationRuns(x.world, x'.world, e.v);
      RegistrationKeepsShape(x.world, x'.world, e.v);
    } else if e.Ask? {
      AskingIsAStep(x.world, e.sagaId);
    } else {
      RunsToItself(x.world, true);
    }
  }

  lemma AskingIsAStep(w: World, id: string)
    requires InShape(w) && id in w.db.sagas && w.db.sagas[id].state.SagaCommitted?
    ensures var w' := World(RequestCompensation(w.db, id), w.bus); RunsTo(w, w', true) && InShape(w')
  {
    var w' := World(RequestCompensation(w.db, id), w.bus);
    hide InShape, StepsTo, RunsTo;
    TriggerIsAMove(w, id);
    StepRuns(w, w', true);
    StepForgetsClean(w, w', true);
    StepKeepsShape(w, w');
  }

  lemma ResultsMarkNobody(x: Service, e: Event, x': Service)
    requires Happens(x, e, x') && IsRun(e)
    ensures MarksInvalid(e) <==> Invalidates(e.acts)
  {
    hide IsView, Moves, PollRun, TriggerRun;
  }

  lemma EventOf(x: Service, x': Service, clean: bool) returns (e: Event)
    requires Goes(x, x', clean)
    ensures Happens(x, e, x') && (clean ==> !MarksInvalid(e))
  {
    e :| Happens(x, e, x') && (clean ==> !MarksInvalid(e));
  }

  /** Courses of a service are runs of its store. */
  lemma CoursesAreRuns(x: Service, x': Service, clean: bool)
    requires InShape(x.world) && ServesTo(x, x', clean)
    ensures RunsTo(x.world, x'.world, clean) && InShape(x'.world)
  {
    hide InShape, Goes;
    var course :| IsCourse(course, clean) && course[0] == x && course[|course| - 1] == x';
    CourseIsRun(course, |course| - 1, clean);
  }

  lemma {:induction false} CourseIsRun(course: seq<Service>, k: nat, clean: bool)
    requires IsCourse(course, clean) && k < |course| && InShape(course[0].world)
    ensures RunsTo(course[0].world, course[k].world, clean) && InShape(course[k].world)
  {
    hide InShape, Happens, RunsTo;
    if k == 0 {
      RunsToItself(course[0].world, clean);
    } else {
      CourseIsRun(course, k - 1, clean);
      assert GoesAt(course, k, clean);
      var e := EventOf(course[k-1], course[k], clean);
      EventsAreRuns(course[k-1], e, course[k]);
      RunsForgetClean(course[k-1].world, course[k].world, !MarksInvalid(e), clean);
      RunsOn(course[0].world, course[k-1].world, course[k].world, clean, clean);
    }
  }
}
