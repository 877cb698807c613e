/**
 * What holds of every service that can come about, and the reason a saga that the drivers have lost
 * stays lost: nothing that can happen opens it again.
 */
module Services {
  import opened Types
  import opened Transitions
  import opened Machine
  import opened Invariants
  import opened Runs
  import opened Steering
  import opened StoreRuns
  import opened Drivers

  // ----- the invariant of a service -----

  /** The step got a result at some time. */
  predicate IsAnswered(s: StepState) {
    !NeverRan(s) && !s.ExecutionRunning?
  }

  /** A step that got a result was sent a request, and runs are due only for steps that have had their turn. */
  ghost predicate StepServed(x: Service, id: string)
    requires id in x.world.db.steps
  {
    var s := x.world.db.steps[id].state;
    && (IsAnswered(s) ==> IsRequested(x.world.bus, id))
    && (s.ExecutionPending? ==> id !in x.polled && id !in x.fired)
    && (id in x.fired ==> IsRequested(x.world.bus, id))
  }

  ghost predicate StepsServed(x: Service) {
    forall id :: id in x.world.db.steps ==> StepServed(x, id)
  }

  /** Runs are due and requests are out for stored steps only. */
  ghost predicate DueAreStored(x: Service) {
    && (forall id :: id in x.polled || id in x.fired ==> id in x.world.db.steps)
    && (forall r :: r in x.world.bus ==> r.stepId in x.world.db.steps)
  }

  ghost predicate ServiceFits(x: Service) {
    InShape(x.world) && StepsServed(x) && DueAreStored(x)
  }

  // ----- how rows move along a run -----

  predicate IsResult(acts: seq<Action>) {
    |acts| == 1 && acts[0].Receive?
  }

  predicate ConcludesNothing(acts: seq<Action>) {
    forall a :: a in acts ==> !a.Receive? && !a.TimeOutExecution?
  }

  lemma MachineAnswers(m: Position, s: SagaState, a: Action, n: nat, j: nat)
    requires Fits(m, n) && j < n && Permits(m, s, a) && !a.Receive? && !a.TimeOutExecution?
    ensures IsAnswered(Letter(Next(m, a, n), j)) ==> IsAnswered(Letter(m, j))
    ensures Letter(Next(m, a, n), j).ExecutionPending? ==> Letter(m, j).ExecutionPending?
  {
  }

  lemma ActionAnswers(v: View, m: Position, a: Action, j: nat)
    requires Inv(v, m) && Enabled(v, a) && j < |v.steps| && !a.Receive? && !a.TimeOutExecution?
    ensures j < |Apply(v, a).steps|
    ensures var s, s' := v.steps[j].state, Apply(v, a).steps[j].state;
      (IsAnswered(s') ==> IsAnswered(s)) && (s'.ExecutionPending? ==> s.ExecutionPending?)
  {
    hide Apply, Enabled, Inv, Next, Letter;
    ActionRefinesMachine(v, m, a);
    ApplyKeepsLength(v, a);
    LetterAt(v, m, j);
    LetterAt(Apply(v, a), Next(m, a, |v.steps|), j);
    MachineAnswers(m, v.saga.state, a, |v.steps|, j);
  }

  lemma {:induction false} RunAnswers(v: View, m: Position, acts: seq<Action>, j: nat)
    requires Inv(v, m) && EnabledAll(v, acts) && j < |v.steps| && ConcludesNothing(acts)
    ensures j < |ApplyAll(v, acts).steps|
    ensures var s, s' := v.steps[j].state, ApplyAll(v, acts).steps[j].state;
      (IsAnswered(s') ==> IsAnswered(s)) && (s'.ExecutionPending? ==> s.ExecutionPending?)
    decreases |acts|
  {
    hide Apply, Enabled, Inv, Next, IsAnswered;
    if acts != [] {
      assert acts[0] in acts && forall a :: a in acts[1..] ==> a in acts;
      ActionAnswers(v, m, acts[0], j);
      ActionRefinesMachine(v, m, acts[0]);
      RunAnswers(Apply(v, acts[0]), Next(m, acts[0], |v.steps|), acts[1..], j);
    }
  }

  /** Only the step a result is for moves, and it had its turn. */
  lemma ResultAnswers(v: View, a: Action, j: nat)
    requires Enabled(v, a) && a.Receive? && j < |v.steps|
    ensures j < |Apply(v, a).steps| && !Apply(v, a).steps[a.i].state.ExecutionPending?
    ensures j != a.i ==> Apply(v, a).steps[j] == v.steps[j]
  {
  }

  /** What the actions of one event are like. */
  lemma RunsAreOfAKind(x: Service, e: Event, x': Service)
    requires IsRun(e) && Happens(x, e, x')
    ensures ConcludesNothing(e.acts) || (e.Result? && IsResult(e.acts) && e.acts[0].i == e.i)
    ensures e.Result? ==> IsRequested(x.world.bus, e.v.steps[e.i].id)
  {
    hide Happens, IsView, Settles, Works, Moves, IsRequested;
    RunMeans(x, e, x');
    if e.Result? && e.acts != [] {
      ResultIsOfAKind(x, e, x');
    }
  }

  // ----- the invariant is kept -----

  lemma MoreRequested(bus: seq<Request>, bus': seq<Request>, id: string, stepId: string)
    requires OnlyAsks(bus, bus', stepId)
    ensures IsRequested(bus, id) ==> IsRequested(bus', id)
    ensures id != stepId ==> (IsRequested(bus, id) <==> IsRequested(bus', id))
  {
    if IsRequested(bus, id) {
      var r :| r in bus && r.stepId == id;
      assert r in bus';
    }
  }

  /** How an event that works on step i of v changes what is due. */
  lemma DueMoves(x: Service, e: Event, x': Service, id: string)
    requires IsRun(e) && Happens(x, e, x') && e.i < |e.v.steps|
    ensures id != e.v.steps[e.i].id ==>
      x'.polled[id] == x.polled[id] && x'.fired[id] == x.fired[id]
    ensures !e.Result? ==> x'.polled[id] <= x.polled[id] && x'.fired[id] <= x.fired[id]
    ensures e.Result? ==> x'.polled == x.polled
  {
    hide IsView, Settles, Works, Moves, PollRun, TriggerRun, ResultRun;
  }

  lemma NothingNewIsDue(x: Service, e: Event, x': Service, id: string)
    requires IsRun(e) && Happens(x, e, x') && e.i < |e.v.steps| && (id in x'.polled || id in x'.fired)
    ensures id in x.polled || id in x.fired || id == e.v.steps[e.i].id
  {
    hide Happens;
    DueMoves(x, e, x', id);
  }

  lemma WhatIsDue(x: Service, e: Event, x': Service, id: string)
    requires IsRun(e) && Happens(x, e, x') && e.i < |e.v.steps|
    ensures id in x'.polled ==> id in x.polled
    ensures id in x'.fired ==> id in x.fired || (e.Result? && e.fires && id == e.v.steps[e.i].id)
  {
    hide IsView, Settles, Works, Moves, PollRun, TriggerRun, ResultRun;
  }

  /** A row gets a result, or leaves its pending state, by nothing else than its turn. */
  lemma RowsOfRun(x: Service, e: Event, x': Service, j: nat)
    requires ServiceFits(x) && IsRun(e) && Happens(x, e, x') && Serves(x.world, x'.world, e.v, e.i, e.acts)
    requires j < |e.v.steps|
    ensures EnabledAll(e.v, e.acts) && j < |ApplyAll(e.v, e.acts).steps|
    ensures var s, s' := e.v.steps[j].state, ApplyAll(e.v, e.acts).steps[j].state;
      && (s'.ExecutionPending? ==> s.ExecutionPending?)
      && (IsAnswered(s') ==> IsAnswered(s) || (e.Result? && j == e.i))
      && (e.Result? && e.fires && j == e.i ==> !s.ExecutionPending?)
  {
    hide *;
    KindOfRun(e);
    RunsAreOfAKind(x, e, x');
    FitsInShape(x);
    ServesInShape(x.world, x'.world, e.v, e.i, e.acts);
    var m := PositionIn(x.world, e.v);
    RunKeepsIdentity(e.v, e.acts);
    if e.Result? {
      ResultsAreForRunners(x, e, x', m);
    }
    RowsOfActs(e.v, m, e.acts, e.i, j);
  }

  lemma RowsOfActs(v: View, m: Position, acts: seq<Action>, i: nat, j: nat)
    requires Inv(v, m) && EnabledAll(v, acts) && j < |v.steps|
    requires ConcludesNothing(acts) || (IsResult(acts) && acts[0].i == i)
    ensures j < |ApplyAll(v, acts).steps|
    ensures var s, s' := v.steps[j].state, ApplyAll(v, acts).steps[j].state;
      && (s'.ExecutionPending? ==> s.ExecutionPending?)
      && (IsAnswered(s') ==> IsAnswered(s) || (!ConcludesNothing(acts) && j == i))
  {
    hide Inv, Enabled, Apply;
    if ConcludesNothing(acts) {
      RunAnswers(v, m, acts, j);
    } else {
      OneReceipt(v, acts);
      ResultAnswers(v, acts[0], j);
    }
  }

  lemma FitsInShape(x: Service)
    requires ServiceFits(x)
    ensures InShape(x.world) && StepsServed(x) && DueAreStored(x)
  {
  }

  lemma ServesInShape(w: World, w': World, v: View, i: nat, acts: seq<Action>)
    requires Serves(w, w', v, i, acts)
    ensures IsView(w.db, v) && EnabledAll(v, acts) && IsView(w'.db, ApplyAll(v, acts)) && InShape(w')
    ensures i < |v.steps| && OnlyAsks(w.bus, w'.bus, v.steps[i].id) && RunsTo(w, w', !Invalidates(acts))
    ensures AskedOutside(w.db, w'.db, v.saga.id)
  {
  }

  lemma OwnRowStaysServed(x: Service, e: Event, x': Service, j: nat)
    requires ServiceFits(x) && IsRun(e) && Happens(x, e, x') && Serves(x.world, x'.world, e.v, e.i, e.acts)
    requires j < |e.v.steps| && e.v.steps[j].id in x.world.db.steps && e.v.steps[j].id in x'.world.db.steps
    requires EnabledAll(e.v, e.acts) && j < |ApplyAll(e.v, e.acts).steps|
    requires x.world.db.steps[e.v.steps[j].id] == e.v.steps[j]
    requires x'.world.db.steps[e.v.steps[j].id] == ApplyAll(e.v, e.acts).steps[j]
    requires e.i < |e.v.steps| && (j != e.i ==> e.v.steps[j].id != e.v.steps[e.i].id)
    ensures StepServed(x', e.v.steps[j].id)
  {
    hide Happens, Serves, ServiceFits, InShape, DueAreStored, IsView, EnabledAll, ApplyAll, IsRequested,
      AskedOutside, OnlyAsks, RunsTo, IsAnswered, ConcludesNothing, IsResult;
    var id := e.v.steps[j].id;
    FitsInShape(x);
    assert StepServed(x, id);
    ServesInShape(x.world, x'.world, e.v, e.i, e.acts);
    RunsAreOfAKind(x, e, x');
    RowsOfRun(x, e, x', j);
    MoreRequested(x.world.bus, x'.world.bus, id, e.v.steps[e.i].id);
    WhatIsDue(x, e, x', id);
  }
  lemma OneReceipt(v: View, acts: seq<Action>)
    requires |acts| == 1 && EnabledAll(v, acts)
    ensures Enabled(v, acts[0]) && ApplyAll(v, acts) == Apply(v, acts[0])
  {
    hide Enabled, Apply;
    assert acts[1..] == [];
  }

  lemma PositionIn(w: World, v: View) returns (m: Position)
    requires InShape(w) && IsView(w.db, v)
    ensures Inv(v, m) && Published(v, w.bus)
  {
    ShapeIs(w);
    hide InShape, DbInv, IsView, Inv, Published;
    m := PositionOf(w.db, w.bus, v);
  }

  /** A step that was sent a request and takes results is running, or blocked. */
  lemma ResultsAreForRunners(x: Service, e: Event, x': Service, m: Position)
    requires InShape(x.world) && e.Result? && Happens(x, e, x') && Inv(e.v, m)
    ensures e.i < |e.v.steps| && !NeverRan(e.v.steps[e.i].state)
    ensures var s := e.v.steps[e.i].state;
      e.fires ==> s.ExecutionRunning? || s.CompensationRunning? || s.CompensationBlocked?
  {
    ResultsFindTheirRow(x, e, x');
    hide Happens, InShape;
    RequestedRowsRan(x.world, e.v, m, e.i);
  }

  lemma ResultsFindTheirRow(x: Service, e: Event, x': Service)
    requires e.Result? && Happens(x, e, x')
    ensures e.i < |e.v.steps| && IsView(x.world.db, e.v) && IsRequested(x.world.bus, e.v.steps[e.i].id)
    ensures e.fires ==> !IgnoresResults(e.v.steps[e.i].state)
  {
    hide IsView, Moves, IsRequested, IgnoresResults;
  }

  lemma RequestedRowsRan(w: World, v: View, m: Position, i: nat)
    requires InShape(w) && IsView(w.db, v) && Inv(v, m) && i < |v.steps| && IsRequested(w.bus, v.steps[i].id)
    ensures !NeverRan(v.steps[i].state) && !v.steps[i].state.ExecutionBlocked?
  {
    var m' := PositionIn(w, v);
    LetterAt(v, m, i);
    hide InShape, IsView, Inv;
    assert RowPublished(v.steps[i], w.bus);
  }

  lemma OtherRowsStayServed(x: Service, e: Event, x': Service, id: string)
    requires StepsServed(x) && IsRun(e) && Happens(x, e, x') && Serves(x.world, x'.world, e.v, e.i, e.acts)
    requires id in x.world.db.steps && x.world.db.steps[id].sagaId != e.v.saga.id
    requires id != e.v.steps[e.i].id
    ensures id in x'.world.db.steps && StepServed(x', id)
  {
    hide Happens, InShape, IsView, RunsTo, OnlyAsks, IsRequested, EnabledAll, ApplyAll;
    assert id in x'.world.db.steps.Keys;
    assert StepServed(x, id);
    DueMoves(x, e, x', id);
    MoreRequested(x.world.bus, x'.world.bus, id, e.v.steps[e.i].id);
    hide AskedOutside;
  }

  lemma RunKeepsStepsServed(x: Service, e: Event, x': Service)
    requires ServiceFits(x) && IsRun(e) && Happens(x, e, x')
    ensures StepsServed(x') && DueAreStored(x')
  {
    FitsInShape(x);
    KindOfRun(e);
    RunsServe(x, e, x');
    hide *;
    RunKeepsStored(x, e, x');
    EachIsServed(x');
    forall id | id in x'.world.db.steps ensures StepServed(x', id) {
      SomeRowStaysServed(x, e, x', id);
    }
  }

  lemma EachIsServed(x: Service)
    ensures StepsServed(x) <==> forall id :: id in x.world.db.steps ==> StepServed(x, id)
  {
    hide StepServed;
  }

  lemma RunKeepsStored(x: Service, e: Event, x': Service)
    requires DueAreStored(x) && IsRun(e) && Happens(x, e, x') && Serves(x.world, x'.world, e.v, e.i, e.acts)
    ensures DueAreStored(x')
  {
    hide Happens, Serves;
    ServesMeans(x.world, x'.world, e.v, e.i, e.acts);
    forall id | id in x'.polled || id in x'.fired ensures id in x'.world.db.steps {
      NothingNewIsDue(x, e, x', id);
      assert id in x'.world.db.steps.Keys;
    }
    forall r | r in x'.world.bus ensures r.stepId in x'.world.db.steps {
      assert r in x.world.bus || r.stepId == e.v.steps[e.i].id;
      assert r.stepId in x'.world.db.steps.Keys;
    }
  }

  lemma ServesMeans(w: World, w': World, v: View, i: nat, acts: seq<Action>)
    requires Serves(w, w', v, i, acts)
    ensures i < |v.steps| && v.steps[i].id in w.db.steps && w.db.steps[v.steps[i].id].sagaId == v.saga.id
    ensures OnlyAsks(w.bus, w'.bus, v.steps[i].id)
    ensures w'.db.steps.Keys == w.db.steps.Keys && w'.db.sagas.Keys == w.db.sagas.Keys
  {
    hide InShape, RunsTo, EnabledAll, ApplyAll;
    assert LinkedRow(v.steps[i], v.saga.id, v.saga.stepIds, i);
  }

  lemma SomeRowStaysServed(x: Service, e: Event, x': Service, id: string)
    requires ServiceFits(x) && IsRun(e) && Happens(x, e, x') && Serves(x.world, x'.world, e.v, e.i, e.acts)
    requires id in x'.world.db.steps
    ensures StepServed(x', id)
  {
    hide Happens, InShape, EnabledAll, ApplyAll, StepServed, OnlyAsks, RunsTo, Linked;
    ServesMeans(x.world, x'.world, e.v, e.i, e.acts);
    assert id in x.world.db.steps.Keys;
    if x.world.db.steps[id].sagaId == e.v.saga.id {
      var j := StepAt(x.world.db, e.v, id);
      RowAfterRun(x.world, x'.world, e.v, e.i, e.acts, j);
      OwnRowStaysServed(x, e, x', j);
    } else {
      OtherRowsStayServed(x, e, x', id);
    }
  }

  lemma RowAfterRun(w: World, w': World, v: View, i: nat, acts: seq<Action>, j: nat)
    requires Serves(w, w', v, i, acts) && j < |v.steps|
    ensures EnabledAll(v, acts) && |ApplyAll(v, acts).steps| == |v.steps| && v.steps[j].id in w'.db.steps
    ensures w'.db.steps[v.steps[j].id] == ApplyAll(v, acts).steps[j]
    ensures j != i && i < |v.steps| ==> v.steps[j].id != v.steps[i].id
  {
    hide InShape, RunsTo, EnabledAll, ApplyAll, OnlyAsks, AskedOutside;
    RunKeepsIdentity(v, acts);
    StepIdsAreDistinct(w.db, v);
  }

  lemma QuietEventsKeepServed(x: Service, e: Event, x': Service)
    requires ServiceFits(x) && !IsRun(e) && Happens(x, e, x')
    ensures StepsServed(x') && DueAreStored(x')
  {
    hide InShape, IsRequested, Enabled, Apply, Registers;
    FitsInShape(x);
    if e.Submit? {
      SubmissionKeepsServed(x, x', e.v);
    } else {
      forall id | id in x'.world.db.steps ensures StepServed(x', id) {
        assert id in x.world.db.steps && StepServed(x, id);
      }
    }
  }

  lemma SubmissionKeepsServed(x: Service, x': Service, v: View)
    requires StepsServed(x) && DueAreStored(x) && Registers(x.world, x'.world, v)
    requires x'.polled == x.polled && x'.fired == x.fired
    ensures StepsServed(x') && DueAreStored(x')
  {
    hide IsRequested;
    forall id | id in x'.world.db.steps ensures StepServed(x', id) {
      if id in x.world.db.steps {
        assert StepServed(x, id);
      } else {
        NewRowsNeverRan(x.world, x'.world, v, id);
      }
    }
  }

  lemma NewRowsNeverRan(w: World, w': World, v: View, id: string)
    requires Registers(w, w', v) && id in w'.db.steps && id !in w.db.steps
    ensures NeverRan(w'.db.steps[id].state)
  {
    var k :| 0 <= k < |v.saga.stepIds| && v.saga.stepIds[k] == id;
    assert v.steps[k].id == id;
  }

  lemma EventKeepsFits(x: Service, e: Event, x': Service)
    requires ServiceFits(x) && Happens(x, e, x')
    ensures ServiceFits(x')
  {
    EventsAreRuns(x, e, x');
    hide Happens, InShape, StepsServed, DueAreStored, RunsTo;
    if IsRun(e) {
      RunKeepsStepsServed(x, e, x');
    } else {
      QuietEventsKeepServed(x, e, x');
    }
  }

  lemma EmptyServiceFits()
    ensures ServiceFits(EmptyService())
  {
    EmptyStoreIsInShape();
  }

  lemma {:induction false} CourseKeepsFits(course: seq<Service>, k: nat, clean: bool)
    requires IsCourse(course, clean) && k < |course| && ServiceFits(course[0])
    ensures ServiceFits(course[k])
  {
    hide ServiceFits, Happens;
    if k > 0 {
      CourseKeepsFits(course, k - 1, clean);
      assert GoesAt(course, k, clean);
      var e := EventOf(course[k-1], course[k], clean);
      EventKeepsFits(course[k-1], e, course[k]);
    }
  }

  /** The invariant holds of every service that comes about. */
  lemma CoursesKeepFits(x: Service, x': Service, clean: bool)
    requires ServiceFits(x) && ServesTo(x, x', clean)
    ensures ServiceFits(x')
  {
    hide ServiceFits, GoesAt;
    var course :| IsCourse(course, clean) && course[0] == x && course[|course| - 1] == x';
    CourseKeepsFits(course, |course| - 1, clean);
  }

  // ----- open sagas -----

  function Due(x: Service, id: string): nat {
    x.polled[id] + x.fired[id]
  }

  /** How many runs are due for each step of the saga. */
  function DueFor(x: Service, v: View): (due: seq<nat>)
    ensures |due| == |v.steps| && forall j :: 0 <= j < |v.steps| ==> due[j] == Due(x, v.steps[j].id)
  {
    seq(|v.steps|, j requires 0 <= j < |v.steps| => Due(x, v.steps[j].id))
  }

  /** The active step of a saga that goes forward was sent its request. */
  predicate IsAsked(x: Service, v: View, m: Position)
    requires Fits(m, |v.steps|)
  {
    m.Forward? && IsRequested(x.world.bus, v.steps[m.i].id)
  }

  ghost predicate IsOpenView(x: Service, v: View, m: Position) {
    && IsView(x.world.db, v) && Inv(v, m)
    && IsOpen(m, v.saga.state, DueFor(x, v), IsAsked(x, v, m))
  }

  /** The drivers can still bring the saga to its end, as far as its own steps go. */
  ghost predicate IsOpenIn(x: Service, s: string) {
    exists v: View, m: Position :: v.saga.id == s && IsOpenView(x, v, m)
  }

  /** The step vector tells the position. */
  lemma PositionIsUnique(v: View, m: Position, m': Position)
    requires Inv(v, m) && Inv(v, m')
    ensures m == m'
  {
    hide HistoriesFit;
    PositionsAgree(v, m, m');
    PositionsAgree(v, m', m);
  }

  lemma PositionsAgree(v: View, m: Position, m': Position)
    requires Spells(v, m) && Spells(v, m')
    ensures (m.Forward? || m.Undoing?) ==> m'.Forward? == m.Forward? && m'.Undoing? == m.Undoing? && m'.i == m.i
    ensures m.Forward? && m'.Forward? ==> m == m'
    ensures m.Undoing? && m'.Undoing? ==> m'.undo == m.undo && m.last <= m'.last
    ensures m.Undone? ==> m'.Undone? && m.last <= m'.last
    ensures m.Complete? ==> m'.Complete?
  {
    var active := if m'.Forward? || m'.Undoing? then m'.i else 0;
    assert v.steps[active].state == Letter(m', active);
    match m {
      case Forward(i, _) =>
        assert v.steps[i].state == Letter(m, i) && v.steps[i].state == Letter(m', i);
      case Complete =>
        assert v.steps[0].state == Letter(m, 0) && v.steps[0].state == Letter(m', 0);
        assert v.steps[active].state == Letter(m, active);
      case Undoing(i, last, _) =>
        assert v.steps[i].state == Letter(m, i) && v.steps[i].state == Letter(m', i);
        assert v.steps[last].state == Letter(m, last) && v.steps[last].state == Letter(m', last);
      case Undone(last) =>
        assert v.steps[last].state == Letter(m, last) && v.steps[last].state == Letter(m', last);
        assert v.steps[0].state == Letter(m, 0) && v.steps[0].state == Letter(m', 0);
    }
  }

  lemma OpenAt(x: Service, v: View, m: Position)
    requires IsView(x.world.db, v) && Inv(v, m)
    ensures Fits(m, |v.steps|)
    ensures IsOpenIn(x, v.saga.id) <==> IsOpen(m, v.saga.state, DueFor(x, v), IsAsked(x, v, m))
  {
    hide IsView, Inv, IsOpen;
    PositionFits(v, m);
    if IsOpenIn(x, v.saga.id) {
      var v': View, m': Position :| v'.saga.id == v.saga.id && IsOpenView(x, v', m');
      ViewIsUnique(x.world.db, v, v');
      PositionIsUnique(v, m, m');
    }
    if IsOpen(m, v.saga.state, DueFor(x, v), IsAsked(x, v, m)) {
      assert IsOpenView(x, v, m);
    }
  }

  /**
   * While no run is due for any of its steps, a saga is open if and only if: it is committed, asked to
   * compensate or compensated; or its active step awaits a result (going forward, of a request that is
   * out) and the saga is running, or that step is its first, or the last one forward; or the saga is
   * running and its active step is elsewhere, except for a failed compensation of any step but the first.
   */
  lemma OpenWhileNothingIsDue(x: Service, v: View, m: Position)
    requires IsView(x.world.db, v) && Inv(v, m) && forall j :: 0 <= j < |v.steps| ==> Due(x, v.steps[j].id) == 0
    ensures Fits(m, |v.steps|)
    ensures IsOpenIn(x, v.saga.id) <==>
      match m
      case Forward(i, ph) =>
        if ph.Running? then
          IsRequested(x.world.bus, v.steps[i].id) && (v.saga.state.SagaRunning? || i == 0 || i + 1 == |v.steps|)
        else v.saga.state.SagaRunning?
      case Complete => !v.saga.state.SagaInvalidState?
      case Undoing(i, _, ph) =>
        if AwaitsResult(ph) then v.saga.state.SagaRunning? || i == 0
        else v.saga.state.SagaRunning? && (ph.UndoFailed? ==> i == 0)
      case Undone(_) => !v.saga.state.SagaInvalidState?
  {
    OpenAt(x, v, m);
    CoupledIn(v, m);
    OpenWhenNothingIsDue(m, v.saga.state, DueFor(x, v), IsAsked(x, v, m));
    hide IsView, Inv, IsOpen, IsOpenIn, IsRequested;
  }

  // ----- nothing opens a saga -----

  lemma {:induction false} RunOpensNothing(v: View, m: Position, acts: seq<Action>, due: seq<nat>, k: nat)
    requires Inv(v, m) && EnabledAll(v, acts) && |due| == |v.steps| && k < |due| && due[k] > 0
    requires Fits(m, |due|) && NothingAhead(m, due)
    requires forall a :: a in acts ==> IsCallOn(a, k) || a.Invalidate?
    ensures |ApplyAll(v, acts).steps| == |v.steps| && Inv(ApplyAll(v, acts), NextAll(m, acts, |v.steps|))
    ensures Fits(NextAll(m, acts, |v.steps|), |due|)
    ensures IsOpen(NextAll(m, acts, |v.steps|), ApplyAll(v, acts).saga.state, due, true) ==>
      IsOpen(m, v.saga.state, due, true)
    decreases |acts|
  {
    hide Inv, Enabled, Apply, IsOpen, NothingAhead;
    if acts != [] {
      var a := acts[0];
      var w, m' := Apply(v, a), Next(m, a, |v.steps|);
      assert a in acts && forall b :: b in acts[1..] ==> b in acts;
      ActionRefinesMachine(v, m, a);
      ApplyKeepsLength(v, a);
      PositionFits(w, m');
      StatesFollow(v, m, a);
      CoupledIn(v, m);
      ActionOpensNothing(m, v.saga.state, a, due, k);
      RunOpensNothing(w, m', acts[1..], due, k);
    }
  }

  lemma CoupledIn(v: View, m: Position)
    requires Inv(v, m)
    ensures Coupled(v.saga.state, m)
  {
  }

  lemma NothingIsAhead(x: Service, v: View, m: Position)
    requires ServiceFits(x) && IsView(x.world.db, v) && Inv(v, m)
    ensures NothingAhead(m, DueFor(x, v))
  {
    hide ServiceFits, InShape, Inv, StepsServed, DueAreStored, IsView, Due;
    FitsInShape(x);
    if m.Forward? {
      forall j | m.i < j < |v.steps| ensures DueFor(x, v)[j] == 0 {
        LetterAt(v, m, j);
        NothingIsDueAt(x, v, j);
      }
    }
  }

  lemma NothingIsDueAt(x: Service, v: View, j: nat)
    requires StepsServed(x) && IsView(x.world.db, v) && j < |v.steps| && v.steps[j].state.ExecutionPending?
    ensures Due(x, v.steps[j].id) == 0
  {
    hide Linked, IsRequested;
    assert StepServed(x, v.steps[j].id);
  }

  lemma RunWasDue(x: Service, e: Event, x': Service)
    requires (e.Poll? || e.Trigger?) && Happens(x, e, x') && e.i < |e.v.steps|
    ensures Due(x, e.v.steps[e.i].id) > 0
    ensures forall id :: Due(x', id) <= Due(x, id)
  {
    hide IsView, PollRun, TriggerRun;
  }

  /** A run is skipped, or initiates, or works on its step, which is then neither done nor running. */
  lemma RunIsOfAKind(x: Service, e: Event, x': Service)
    requires (e.Poll? || e.Trigger?) && Happens(x, e, x')
    ensures e.i < |e.v.steps|
    ensures || (x'.world == x.world && e.acts == [])
            || e.v.saga.state.SagaCompensationRequested?
            || (&& (forall a :: a in e.acts ==> IsCallOn(a, e.i) || a.Invalidate?)
                && !e.v.steps[e.i].state.ExecutionDone? && !e.v.steps[e.i].state.ExecutionRunning?)
  {
    hide IsView, Settles, Works, IsCallOn;
  }

  lemma DueAlong(x: Service, x': Service, v: View, acts: seq<Action>)
    requires EnabledAll(v, acts) && forall id :: Due(x', id) <= Due(x, id)
    ensures |ApplyAll(v, acts).steps| == |v.steps|
    ensures forall j :: 0 <= j < |v.steps| ==> DueFor(x', ApplyAll(v, acts))[j] <= DueFor(x, v)[j]
  {
    hide EnabledAll, ApplyAll;
    RunKeepsIdentity(v, acts);
    hide Due;
  }

  /** Whether the active step was asked does not matter for a step that is worked on. */
  lemma WorkedOnIsNotWaiting(v: View, m: Position, due: seq<nat>, k: nat, asked: bool)
    requires Inv(v, m) && |due| == |v.steps| && k < |due| && due[k] > 0 && NothingAhead(m, due)
    requires !v.steps[k].state.ExecutionDone? && !v.steps[k].state.ExecutionRunning?
    requires Fits(m, |due|) && IsOpen(m, v.saga.state, due, true)
    ensures IsOpen(m, v.saga.state, due, asked)
  {
    LetterAt(v, m, k);
    hide Inv, HasAll;
  }

  lemma RequestedIsOpen(v: View, m: Position, due: seq<nat>, asked: bool)
    requires Inv(v, m) && |due| == |v.steps| && (v.saga.state.SagaCommitted? || v.saga.state.SagaCompensationRequested?)
    ensures Fits(m, |due|) && IsOpen(m, v.saga.state, due, asked)
  {
  }

  /** A run that was due for a step of the saga. */
  lemma OwnRunOpensNothing(x: Service, e: Event, x': Service, m: Position)
    requires ServiceFits(x) && (e.Poll? || e.Trigger?) && Happens(x, e, x')
    requires IsView(x.world.db, e.v) && Inv(e.v, m) && IsOpenIn(x', e.v.saga.id)
    ensures IsOpenIn(x, e.v.saga.id)
  {
    hide *;
    KindOfRun(e);
    FitsInShape(x);
    RunsServe(x, e, x');
    ServesInShape(x.world, x'.world, e.v, e.i, e.acts);
    RunIsOfAKind(x, e, x');
    RunWasDue(x, e, x');
    OpenAt(x, e.v, m);
    if e.v.saga.state.SagaCompensationRequested? {
      RequestedIsOpen(e.v, m, DueFor(x, e.v), IsAsked(x, e.v, m));
    } else if e.acts == [] && x'.world == x.world {
      SkippedOpensNothing(x, x', e.v, m);
    } else {
      NothingIsAhead(x, e.v, m);
      WorkOpensNothing(x, x', e.v, m, e.acts, e.i);
    }
  }

  lemma SkippedOpensNothing(x: Service, x': Service, v: View, m: Position)
    requires IsView(x.world.db, v) && Inv(v, m) && x'.world == x.world
    requires forall j :: 0 <= j < |v.steps| ==> Due(x', v.steps[j].id) <= Due(x, v.steps[j].id)
    ensures IsOpenIn(x', v.saga.id) ==> IsOpenIn(x, v.saga.id)
  {
    hide *;
    OpenAt(x, v, m);
    OpenAt(x', v, m);
    SameAsked(x, x', v, m);
    if IsOpenIn(x', v.saga.id) {
      MoreIsDue(m, v.saga.state, DueFor(x', v), DueFor(x, v), IsAsked(x', v, m), IsAsked(x, v, m));
    }
  }

  lemma WorkOpensNothing(x: Service, x': Service, v: View, m: Position, acts: seq<Action>, k: nat)
    requires IsView(x.world.db, v) && Inv(v, m) && forall id :: Due(x', id) <= Due(x, id)
    requires EnabledAll(v, acts) && IsView(x'.world.db, ApplyAll(v, acts)) && k < |v.steps|
    requires NothingAhead(m, DueFor(x, v)) && Due(x, v.steps[k].id) > 0
    requires forall a :: a in acts ==> IsCallOn(a, k) || a.Invalidate?
    requires !v.steps[k].state.ExecutionDone? && !v.steps[k].state.ExecutionRunning?
    ensures IsOpenIn(x', v.saga.id) ==> IsOpenIn(x, v.saga.id)
  {
    hide *;
    PositionFits(v, m);
    OpenAt(x, v, m);
    DueAlong(x, x', v, acts);
    RunOpensNothing(v, m, acts, DueFor(x, v), k);
    IdentityOverRun(v, acts, k);
    var w, m' := ApplyAll(v, acts), NextAll(m, acts, |v.steps|);
    OpenAt(x', w, m');
    if IsOpenIn(x', v.saga.id) {
      MoreIsDue(m', w.saga.state, DueFor(x', w), DueFor(x, v), IsAsked(x', w, m'), true);
      WorkedOnIsNotWaiting(v, m, DueFor(x, v), k, IsAsked(x, v, m));
    }
  }

  lemma SameAsked(x: Service, x': Service, v: View, m: Position)
    requires x'.world.bus == x.world.bus && Fits(m, |v.steps|)
    ensures IsAsked(x', v, m) == IsAsked(x, v, m)
  {
  }

  lemma ResultDue(x: Service, e: Event, x': Service, w: View)
    requires e.Result? && Happens(x, e, x') && e.i < |e.v.steps| && |w.steps| == |e.v.steps|
    requires forall j :: 0 <= j < |w.steps| ==> w.steps[j].id == e.v.steps[j].id
    requires forall j :: 0 <= j < |w.steps| && j != e.i ==> w.steps[j].id != w.steps[e.i].id
    ensures var due := DueFor(x, e.v);
      DueFor(x', w) == if e.fires then due[e.i := due[e.i] + 1] else due
  {
    hide IsView, ResultRun;
  }

  lemma ResultIsOfAKind(x: Service, e: Event, x': Service)
    requires e.Result? && Happens(x, e, x')
    ensures if e.acts == [] then x'.world == x.world else e.fires && IsResult(e.acts) && e.acts[0].i == e.i
  {
    hide Happens, IsView, Moved, BusGrew, IsRequested;
    RunMeans(x, e, x');
  }

  /** A result for a step of the saga. */
  lemma OwnResultOpensNothing(x: Service, e: Event, x': Service, m: Position)
    requires ServiceFits(x) && e.Result? && Happens(x, e, x') && IsView(x.world.db, e.v) && Inv(e.v, m)
    requires IsOpenIn(x', e.v.saga.id)
    ensures IsOpenIn(x, e.v.saga.id)
  {
    hide *;
    FitsInShape(x);
    ResultsFindTheirRow(x, e, x');
    ResultIsOfAKind(x, e, x');
    StepIdsAreDistinct(x.world.db, e.v);
    if e.acts == [] {
      ResultsAreForRunners(x, e, x', m);
      ResultDue(x, e, x', e.v);
      LateOpensNothing(x, x', e.v, m, e.i, e.fires);
    } else {
      KindOfRun(e);
      RunsServe(x, e, x');
      ResultIsTaken(x, e, x', m);
    }
  }

  lemma ResultIsTaken(x: Service, e: Event, x': Service, m: Position)
    requires e.Result? && Happens(x, e, x') && Serves(x.world, x'.world, e.v, e.i, e.acts) && Inv(e.v, m)
    requires e.fires && IsResult(e.acts) && e.acts[0].i == e.i && IsOpenIn(x', e.v.saga.id)
    requires e.i < |e.v.steps| && IsRequested(x.world.bus, e.v.steps[e.i].id)
    requires forall j, k ::
      0 <= j < |e.v.steps| && 0 <= k < |e.v.steps| && e.v.steps[j].id == e.v.steps[k].id ==> j == k
    ensures IsOpenIn(x, e.v.saga.id)
  {
    hide *;
    ServesInShape(x.world, x'.world, e.v, e.i, e.acts);
    SameIdsOverRun(e.v, e.acts);
    OneReceiptOf(e.v, e.acts);
    ResultDue(x, e, x', ApplyAll(e.v, e.acts));
    TakenOpensNothing(x, x', e.v, m, e.acts, e.i);
  }

  lemma SameIdsOverRun(v: View, acts: seq<Action>)
    requires EnabledAll(v, acts)
    ensures |ApplyAll(v, acts).steps| == |v.steps|
    ensures forall j :: 0 <= j < |v.steps| ==> ApplyAll(v, acts).steps[j].id == v.steps[j].id
  {
    RunKeepsIdentity(v, acts);
  }

  lemma LateOpensNothing(x: Service, x': Service, v: View, m: Position, k: nat, fires: bool)
    requires IsView(x.world.db, v) && Inv(v, m) && x'.world == x.world && k < |v.steps|
    requires var s := v.steps[k].state;
      fires ==> s.ExecutionRunning? || s.CompensationRunning? || s.CompensationBlocked?
    requires var due := DueFor(x, v); DueFor(x', v) == if fires then due[k := due[k] + 1] else due
    ensures IsOpenIn(x', v.saga.id) ==> IsOpenIn(x, v.saga.id)
  {
    hide *;
    OpenAt(x, v, m);
    OpenAt(x', v, m);
    SameAsked(x, x', v, m);
    if IsOpenIn(x', v.saga.id) {
      FiredIsOpenAnyway(v, m, DueFor(x, v), IsAsked(x, v, m), k, fires);
    }
  }

  lemma FiredIsOpenAnyway(v: View, m: Position, due: seq<nat>, asked: bool, k: nat, fires: bool)
    requires Inv(v, m) && k < |v.steps| == |due| && Fits(m, |due|)
    requires var s := v.steps[k].state;
      fires ==> s.ExecutionRunning? || s.CompensationRunning? || s.CompensationBlocked?
    requires IsOpen(m, v.saga.state, if fires then due[k := due[k] + 1] else due, asked)
    ensures IsOpen(m, v.saga.state, due, asked)
  {
    LetterAt(v, m, k);
    hide Inv, IsOpen;
    if fires {
      WaitingIsOpenAnyway(m, v.saga.state, due, asked, k);
    }
  }

  lemma TakenOpensNothing(x: Service, x': Service, v: View, m: Position, acts: seq<Action>, k: nat)
    requires IsView(x.world.db, v) && Inv(v, m) && EnabledAll(v, acts) && IsView(x'.world.db, ApplyAll(v, acts))
    requires IsResult(acts) && |acts| == 1 && acts[0].Receive? && acts[0].i == k && k < |v.steps|
    requires IsRequested(x.world.bus, v.steps[k].id)
    requires var due := DueFor(x, v); DueFor(x', ApplyAll(v, acts)) == due[k := due[k] + 1]
    ensures IsOpenIn(x', v.saga.id) ==> IsOpenIn(x, v.saga.id)
  {
    hide *;
    OneReceiptOf(v, acts);
    SameIdsOverRun(v, acts);
    IdentityOverRun(v, acts, k);
    ResultOpensNothingIn(x, x', v, m, acts[0], ApplyAll(v, acts));
  }

  lemma ResultOpensNothingIn(x: Service, x': Service, v: View, m: Position, a: Action, w: View)
    requires IsView(x.world.db, v) && Inv(v, m) && Enabled(v, a) && a.Receive? && a.i < |v.steps| && w == Apply(v, a)
    requires IsView(x'.world.db, w) && w.saga.id == v.saga.id && |w.steps| == |v.steps|
    requires IsRequested(x.world.bus, v.steps[a.i].id)
    requires var due := DueFor(x, v); DueFor(x', w) == due[a.i := due[a.i] + 1]
    ensures IsOpenIn(x', v.saga.id) ==> IsOpenIn(x, v.saga.id)
  {
    hide *;
    PositionFits(v, m);
    OpenAt(x, v, m);
    ActionRefinesMachine(v, m, a);
    StatesFollow(v, m, a);
    CoupledIn(v, m);
    var m' := Next(m, a, |v.steps|);
    OpenAt(x', w, m');
    ResultKeepsState(m, v.saga.state, a, |v.steps|);
    if IsOpenIn(x', v.saga.id) {
      ResultOpensNothing(m, v.saga.state, a, DueFor(x, v), IsAsked(x', w, m'));
      AskedByResult(x, v, m, a);
    }
  }

  lemma OneReceiptOf(v: View, acts: seq<Action>)
    requires IsResult(acts) && EnabledAll(v, acts)
    ensures |acts| == 1 && Enabled(v, acts[0]) && ApplyAll(v, acts) == Apply(v, acts[0]) && acts[0].Receive?
  {
    hide Enabled, Apply;
    OneReceipt(v, acts);
  }

  lemma ResultKeepsState(m: Position, s: SagaState, a: Action, n: nat)
    requires a.Receive?
    ensures NextState(m, s, a, n) == s
  {
  }

  lemma AskedByResult(x: Service, v: View, m: Position, a: Action)
    requires Inv(v, m) && a.Receive? && Permits(m, v.saga.state, a) && a.i < |v.steps|
    requires IsRequested(x.world.bus, v.steps[a.i].id)
    requires Fits(m, |v.steps|) && IsOpen(m, v.saga.state, DueFor(x, v), true)
    ensures IsOpen(m, v.saga.state, DueFor(x, v), IsAsked(x, v, m))
  {
    hide Inv, HasAll, IsRequested;
  }

  // ----- what happens elsewhere -----

  /** A saga that others work on is as it was, or was asked to compensate. */
  lemma ElsewhereOpensNothing(x: Service, x': Service, v: View, u: View, m: Position)
    requires IsView(x.world.db, v) && Inv(v, m) && IsView(x'.world.db, u) && SameOrAsked(v.saga, u.saga)
    requires u.steps == v.steps && DueFor(x', u) == DueFor(x, v)
    requires forall j :: 0 <= j < |v.steps| ==>
      (IsRequested(x'.world.bus, v.steps[j].id) <==> IsRequested(x.world.bus, v.steps[j].id))
    ensures IsOpenIn(x', v.saga.id) ==> IsOpenIn(x, v.saga.id)
  {
    hide IsView, IsOpen, IsOpenIn, DueFor;
    OpenAt(x, v, m);
    if v.saga.state.SagaCommitted? {
      RequestedIsOpen(v, m, DueFor(x, v), IsAsked(x, v, m));
    } else {
      assert u == v;
      OpenAt(x', v, m);
      hide Inv;
    }
  }

  lemma SeenFromOutside(w: World, w': World, v: View, i: nat, acts: seq<Action>, u: View) returns (u': View)
    requires Serves(w, w', v, i, acts) && IsView(w.db, u) && u.saga.id != v.saga.id
    ensures IsView(w'.db, u') && SameOrAsked(u.saga, u'.saga) && u'.steps == u.steps && u'.saga.id == u.saga.id
    ensures i < |v.steps| && forall j :: 0 <= j < |u.steps| ==> u.steps[j].id != v.steps[i].id
    ensures OnlyAsks(w.bus, w'.bus, v.steps[i].id)
  {
    hide InShape, RunsTo, EnabledAll, ApplyAll, OnlyAsks;
    ViewIsStored(w.db, u);
    u' := View(w'.db.sagas[u.saga.id], u.steps);
    assert LinkedRow(v.steps[i], v.saga.id, v.saga.stepIds, i);
    forall j | 0 <= j < |u.steps| ensures u.steps[j].sagaId == u.saga.id {
      assert LinkedRow(u.steps[j], u.saga.id, u.saga.stepIds, j);
    }
    LinksIgnoreState(u, u');
  }

  lemma LinksIgnoreState(u: View, u': View)
    requires Linked(u) && u'.steps == u.steps && SameOrAsked(u.saga, u'.saga)
    ensures Linked(u')
  {
  }

  lemma OtherRunOpensNothing(x: Service, e: Event, x': Service, v: View, m: Position)
    requires ServiceFits(x) && IsRun(e) && Happens(x, e, x') && IsView(x.world.db, v) && Inv(v, m)
    requires v.saga.id != e.v.saga.id
    ensures IsOpenIn(x', v.saga.id) ==> IsOpenIn(x, v.saga.id)
  {
    hide *;
    KindOfRun(e);
    FitsInShape(x);
    RunsServe(x, e, x');
    var u := SeenFromOutside(x.world, x'.world, e.v, e.i, e.acts, v);
    StepsElsewhere(x, e, x', v, u);
    ElsewhereOpensNothing(x, x', v, u, m);
  }

  lemma StepsElsewhere(x: Service, e: Event, x': Service, v: View, u: View)
    requires IsRun(e) && Happens(x, e, x') && e.i < |e.v.steps| && u.steps == v.steps
    requires OnlyAsks(x.world.bus, x'.world.bus, e.v.steps[e.i].id)
    requires forall j :: 0 <= j < |v.steps| ==> v.steps[j].id != e.v.steps[e.i].id
    ensures DueFor(x', u) == DueFor(x, v)
    ensures forall j :: 0 <= j < |v.steps| ==>
      (IsRequested(x'.world.bus, v.steps[j].id) <==> IsRequested(x.world.bus, v.steps[j].id))
  {
    hide Happens, OnlyAsks, IsRequested, Due;
    forall j | 0 <= j < |v.steps|
      ensures Due(x', v.steps[j].id) == Due(x, v.steps[j].id)
      ensures IsRequested(x'.world.bus, v.steps[j].id) <==> IsRequested(x.world.bus, v.steps[j].id)
    {
      DueElsewhere(x, e, x', v.steps[j].id);
      MoreRequested(x.world.bus, x'.world.bus, v.steps[j].id, e.v.steps[e.i].id);
    }
  }

  lemma DueElsewhere(x: Service, e: Event, x': Service, id: string)
    requires IsRun(e) && Happens(x, e, x') && e.i < |e.v.steps| && id != e.v.steps[e.i].id
    ensures Due(x', id) == Due(x, id)
  {
    hide Happens;
    DueMoves(x, e, x', id);
  }

  lemma PickOpensNothing(x: Service, e: Event, x': Service, v: View, m: Position)
    requires e.Pick? && Happens(x, e, x') && IsView(x.world.db, v) && Inv(v, m)
    ensures IsOpenIn(x', v.saga.id) ==> IsOpenIn(x, v.saga.id)
  {
    hide *;
    PickMeans(x, e, x');
    if k: nat :| k < |v.steps| && v.steps[k].id == e.stepId {
      OwnPickOpensNothing(x, x', v, m, e.stepId, k);
    } else {
      SkippedOpensNothing(x, x', v, m);
    }
  }

  lemma OwnPickOpensNothing(x: Service, x': Service, v: View, m: Position, stepId: string, k: nat)
    requires IsView(x.world.db, v) && Inv(v, m) && x'.world == x.world && CanPick(x.world.db, stepId)
    requires k < |v.steps| && v.steps[k].id == stepId
    requires forall id :: Due(x', id) == if id == stepId then Due(x, id) + 1 else Due(x, id)
    ensures IsOpenIn(x', v.saga.id) ==> IsOpenIn(x, v.saga.id)
  {
    hide *;
    StepIdsAreDistinct(x.world.db, v);
    var due := DueFor(x, v);
    assert DueFor(x', v) == due[k := due[k] + 1];
    OpenAt(x, v, m);
    OpenAt(x', v, m);
    SameAsked(x, x', v, m);
    PickedState(x.world.db, v, m, k, stepId);
    CoupledIn(v, m);
    if IsOpenIn(x', v.saga.id) {
      PickedIsOpenAnyway(m, v.saga.state, due, IsAsked(x, v, m), k);
    }
  }

  lemma PickMeans(x: Service, e: Event, x': Service)
    requires e.Pick? && Happens(x, e, x')
    ensures CanPick(x.world.db, e.stepId) && x'.world == x.world
    ensures forall id :: Due(x', id) == if id == e.stepId then Due(x, id) + 1 else Due(x, id)
  {
    hide CanPick;
  }

  lemma PickedState(db: Db, v: View, m: Position, k: nat, stepId: string)
    requires IsView(db, v) && Inv(v, m) && CanPick(db, stepId) && k < |v.steps| && v.steps[k].id == stepId
    ensures IsPicked(v.saga.state, Letter(m, k))
  {
    LetterAt(v, m, k);
    assert LinkedRow(v.steps[k], v.saga.id, v.saga.stepIds, k);
  }

  lemma AskOpensNothing(x: Service, e: Event, x': Service, v: View, m: Position)
    requires e.Ask? && Happens(x, e, x') && IsView(x.world.db, v) && Inv(v, m)
    ensures IsOpenIn(x', v.saga.id) ==> IsOpenIn(x, v.saga.id)
  {
    var u := View(x'.world.db.sagas[v.saga.id], v.steps);
    ViewIsStored(x.world.db, v);
    LinksIgnoreState(v, u);
    assert IsView(x'.world.db, u);
    assert DueFor(x', u) == DueFor(x, v);
    hide IsView, Inv, IsOpenIn, Linked;
    ElsewhereOpensNothing(x, x', v, u, m);
  }

  lemma SubmitOpensNothing(x: Service, e: Event, x': Service, v: View, m: Position)
    requires e.Submit? && Happens(x, e, x') && IsView(x.world.db, v) && Inv(v, m)
    ensures IsOpenIn(x', v.saga.id) ==> IsOpenIn(x, v.saga.id)
  {
    RegistrationIsOutside(x.world, x'.world, e.v, v);
    assert DueFor(x', v) == DueFor(x, v);
    hide IsView, Inv, IsOpenIn;
    ElsewhereOpensNothing(x, x', v, v, m);
  }

  /** Nothing that happens opens a saga again. */
  lemma EventOpensNothing(x: Service, e: Event, x': Service, s: string)
    requires ServiceFits(x) && Happens(x, e, x') && s in x.world.db.sagas && IsOpenIn(x', s)
    ensures IsOpenIn(x, s)
  {
    hide *;
    KindOfRun(e);
    FitsInShape(x);
    RunsHaveViews(x, e, x');
    var v, m := StoredView(x.world, s);
    if IsRun(e) && e.v.saga.id == s {
      ViewIsUnique(x.world.db, v, e.v);
      if e.Result? {
        OwnResultOpensNothing(x, e, x', m);
      } else {
        OwnRunOpensNothing(x, e, x', m);
      }
    } else if IsRun(e) {
      OtherRunOpensNothing(x, e, x', v, m);
    } else {
      if e.Pick? {
        PickOpensNothing(x, e, x', v, m);
      } else if e.Ask? {
        AskOpensNothing(x, e, x', v, m);
      } else {
        SubmitOpensNothing(x, e, x', v, m);
      }
    }
  }

  lemma KindOfRun(e: Event)
    ensures IsRun(e) <==> e.Poll? || e.Trigger? || e.Result?
  {
  }

  lemma RunsHaveViews(x: Service, e: Event, x': Service)
    requires Happens(x, e, x')
    ensures IsRun(e) ==> IsView(x.world.db, e.v)
  {
    hide IsView, Settles, Works, Moves;
  }

  lemma StoredView(w: World, s: string) returns (v: View, m: Position)
    requires InShape(w) && s in w.db.sagas
    ensures v.saga.id == s && IsView(w.db, v) && Inv(v, m) && w.db.sagas[s] == v.saga
  {
    ShapeIs(w);
    DbInvAt(w.db, w.bus);
    hide InShape, DbInv;
    assert SagaFits(w.db, s, w.bus);
    v, m :| v.saga.id == s && IsView(w.db, v) && Inv(v, m) && Published(v, w.bus);
  }

  lemma {:induction false} CourseOpensNothing(course: seq<Service>, k: nat, clean: bool, s: string)
    requires IsCourse(course, clean) && k < |course| && ServiceFits(course[0])
    requires s in course[0].world.db.sagas && IsOpenIn(course[k], s)
    ensures IsOpenIn(course[0], s)
  {
    hide ServiceFits, Happens, IsOpenIn, InShape;
    if k > 0 {
      assert GoesAt(course, k, clean);
      var e := EventOf(course[k-1], course[k], clean);
      CourseKeepsFits(course, k - 1, clean);
      CourseKeepsSagas(course, k - 1, clean, s);
      EventOpensNothing(course[k-1], e, course[k], s);
      CourseOpensNothing(course, k - 1, clean, s);
    }
  }

  lemma CourseKeepsSagas(course: seq<Service>, k: nat, clean: bool, s: string)
    requires IsCourse(course, clean) && k < |course| && ServiceFits(course[0]) && s in course[0].world.db.sagas
    ensures s in course[k].world.db.sagas
  {
    FitsInShape(course[0]);
    hide InShape, RunsTo, ServiceFits, GoesAt;
    CourseIsRun(course, k, clean);
    RunsForgetClean(course[0].world, course[k].world, clean, false);
    ReachesMeans(course[0].world, course[k].world);
    RunsKeepSagas(course[0].world, course[k].world);
  }

  lemma ReachesMeans(w: World, w': World)
    ensures Reaches(w, w') <==> RunsTo(w, w', false)
  {
  }

  /** A saga that is open after some course was open before it. */
  lemma CoursesOpenNothing(x: Service, x': Service, clean: bool, s: string)
    requires ServiceFits(x) && ServesTo(x, x', clean) && s in x.world.db.sagas && IsOpenIn(x', s)
    ensures IsOpenIn(x, s)
  {
    hide ServiceFits, GoesAt, IsOpenIn;
    var course :| IsCourse(course, clean) && course[0] == x && course[|course| - 1] == x';
    CourseOpensNothing(course, |course| - 1, clean, s);
  }
}
