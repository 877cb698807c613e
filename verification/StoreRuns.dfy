/**
 * Runs of the whole store: any number of sagas, moved in any order by the drivers, by results and
 * by requests, and new sagas registered on the way.
 */
module StoreRuns {
  import opened Types
  import opened Transitions
  import opened Machine
  import opened Invariants
  import opened Runs

  datatype World = World(db: Db, bus: seq<Request>)

  ghost predicate InShape(w: World) {
    DbInv(w.db, w.bus)
  }

  ghost predicate Moves(w: World, w': World, v: View, a: Action, i: nat) {
    LegalMove(w.db, w'.db, w.bus, w'.bus, v, a, i)
  }

  /** The rows of v and nothing else came in addition. */
  ghost predicate Added(db: Db, db': Db, v: View) {
    && db'.sagas == db.sagas[v.saga.id := v.saga]
    && (forall id :: id in db'.steps <==> id in db.steps || id in v.saga.stepIds)
    && (forall id :: id in db.steps ==> id !in v.saga.stepIds && db'.steps[id] == db.steps[id])
    && (forall j :: 0 <= j < |v.steps| ==> v.steps[j].id in db'.steps && db'.steps[v.steps[j].id] == v.steps[j])
  }

  /** A child is registered while the step that spawned it is running or done, not when it is being undone. */
  predicate SpawnedInTime(db: Db, saga: SagaInstance) {
    saga.parentId != "" ==>
      && saga.parentId in db.sagas
      && saga.parentStepId in db.steps
      && db.steps[saga.parentStepId].sagaId == saga.parentId
      && !NeverRan(db.steps[saga.parentStepId].state)
      && !UndoStarted(db.steps[saga.parentStepId].state)
  }

  /** A new saga with fresh ids is stored. */
  ghost predicate Registers(w: World, w': World, v: View) {
    && IsNew(v) && Linked(v)
    && v.saga.id != "" && v.saga.id !in w.db.sagas
    && SpawnedInTime(w.db, v.saga)
    && (forall r :: r in w.bus ==> r.stepId !in v.saga.stepIds)
    && Added(w.db, w'.db, v)
    && w'.bus == w.bus
  }

  /** One move or one registration; a clean one marks no saga invalid. */
  ghost predicate StepsTo(w: World, w': World, clean: bool) {
    || (exists v: View, a: Action, i: nat :: Moves(w, w', v, a, i) && (clean ==> !a.Invalidate?))
    || (exists v: View :: Registers(w, w', v))
  }

  ghost predicate IsPath(path: seq<World>, clean: bool) {
    path != [] && forall k {:trigger path[k]} :: 0 < k < |path| ==> StepsTo(path[k-1], path[k], clean)
  }

  ghost predicate RunsTo(w: World, w': World, clean: bool) {
    exists path :: IsPath(path, clean) && path[0] == w && path[|path| - 1] == w'
  }

  /** w' comes out of w by some sequence of moves and registrations. */
  ghost predicate Reaches(w: World, w': World) {
    RunsTo(w, w', false)
  }

  function EmptyWorld(): World {
    World(Db(map[], map[]), [])
  }

  // ----- building runs -----

  lemma RunsToItself(w: World, clean: bool)
    ensures RunsTo(w, w, clean)
  {
    assert IsPath([w], clean) && [w][0] == w;
  }

  lemma StepForgetsClean(w: World, w': World, clean: bool)
    requires StepsTo(w, w', clean)
    ensures StepsTo(w, w', false)
  {
    hide LegalMove, Registers;
  }

  lemma RunsForgetClean(w: World, w': World, clean: bool, less: bool)
    requires RunsTo(w, w', clean) && (less ==> clean)
    ensures RunsTo(w, w', less)
  {
    hide StepsTo;
    var path :| IsPath(path, clean) && path[0] == w && path[|path| - 1] == w';
    forall k {:trigger path[k]} | 0 < k < |path| ensures StepsTo(path[k-1], path[k], less) {
      StepForgetsClean(path[k-1], path[k], clean);
    }
    assert IsPath(path, less);
  }

  /** Runs compose; the whole is clean when both parts are. */
  lemma RunsOn(w: World, w1: World, w2: World, clean: bool, clean': bool)
    requires RunsTo(w, w1, clean) && RunsTo(w1, w2, clean')
    ensures RunsTo(w, w2, clean && clean')
  {
    hide StepsTo;
    var both := clean && clean';
    RunsForgetClean(w, w1, clean, both);
    RunsForgetClean(w1, w2, clean', both);
    var p :| IsPath(p, both) && p[0] == w && p[|p| - 1] == w1;
    var q :| IsPath(q, both) && q[0] == w1 && q[|q| - 1] == w2;
    var path := p + q[1..];
    forall k {:trigger path[k]} | 0 < k < |path| ensures StepsTo(path[k-1], path[k], both) {
      if k < |p| {
        assert path[k] == p[k] && path[k-1] == p[k-1];
      } else {
        assert path[k] == q[k - |p| + 1] && path[k-1] == q[k - |p|];
      }
    }
    assert IsPath(path, both) && path[0] == w && path[|path| - 1] == w2;
  }

  lemma StepRuns(w: World, w': World, clean: bool)
    requires StepsTo(w, w', clean)
    ensures RunsTo(w, w', clean)
  {
    var path := [w, w'];
    assert IsPath(path, clean) && path[0] == w && path[|path| - 1] == w';
  }

  lemma MoveRuns(w: World, w': World, v: View, a: Action, i: nat)
    requires Moves(w, w', v, a, i)
    ensures RunsTo(w, w', !a.Invalidate?)
  {
    hide Moves;
    assert StepsTo(w, w', !a.Invalidate?);
    StepRuns(w, w', !a.Invalidate?);
  }

  lemma RegistrationRuns(w: World, w': World, v: View)
    requires Registers(w, w', v)
    ensures RunsTo(w, w', true)
  {
    hide Registers;
    assert StepsTo(w, w', true);
    StepRuns(w, w', true);
  }

  // ----- the invariant over runs -----

  lemma AddedRowsBelong(db: Db, db': Db, v: View)
    requires Added(db, db', v) && Linked(v)
    ensures forall id :: id in db'.steps && id !in db.steps ==> db'.steps[id].sagaId == v.saga.id
  {
    forall id | id in db'.steps && id !in db.steps ensures db'.steps[id].sagaId == v.saga.id {
      var k :| 0 <= k < |v.saga.stepIds| && v.saga.stepIds[k] == id;
      assert v.steps[k].id == id;
    }
  }

  lemma AddedKeepsView(db: Db, db': Db, v: View, x: View)
    requires Added(db, db', v) && Linked(v) && IsView(db, x) && v.saga.id !in db.sagas
    ensures IsView(db', x)
  {
    AddedRowsBelong(db, db', v);
  }

  lemma AddedHasView(db: Db, db': Db, v: View)
    requires Added(db, db', v) && Linked(v) && v.saga.id !in db.sagas
    requires forall id :: id in db.steps ==> db.steps[id].sagaId in db.sagas
    ensures IsView(db', v)
    ensures forall id :: id in db'.steps ==> db'.steps[id].sagaId in db'.sagas
  {
    AddedRowsBelong(db, db', v);
  }

  lemma NewSagaFits(w: World, w': World, v: View)
    requires Registers(w, w', v) && IsView(w'.db, v)
    ensures SagaFits(w'.db, v.saga.id, w'.bus)
  {
    NewSagasFit(v);
    forall j | 0 <= j < |v.steps| ensures RowPublished(v.steps[j], w'.bus) {
      assert v.steps[j].history == [] && v.steps[j].id == v.saga.stepIds[j];
    }
    assert Published(v, w'.bus);
  }

  lemma OldSagaFits(w: World, w': World, v: View, s: string)
    requires Registers(w, w', v) && s in w.db.sagas && SagaFits(w.db, s, w.bus)
    ensures SagaFits(w'.db, s, w'.bus)
  {
    var x: View, m: Position :| x.saga.id == s && IsView(w.db, x) && Inv(x, m) && Published(x, w.bus);
    hide Inv, Published, IsView;
    AddedKeepsView(w.db, w'.db, v, x);
  }

  lemma RegistrationKeepsShape(w: World, w': World, v: View)
    requires InShape(w) && Registers(w, w', v)
    ensures InShape(w') && IsView(w'.db, v)
  {
    DbInvAt(w.db, w.bus);
    hide InShape, DbInv, SagaFits, IsView;
    AddedHasView(w.db, w'.db, v);
    NewSagaFits(w, w', v);
    forall s | s in w'.db.sagas ensures SagaFits(w'.db, s, w'.bus) && ChildKeepsStep(w'.db, w'.db.sagas[s]) {
      if s != v.saga.id {
        OldSagaFits(w, w', v, s);
      }
    }
    DbInvFrom(w'.db, w'.bus);
    ShapeIs(w');
  }

  lemma ShapeIs(w: World)
    ensures InShape(w) <==> DbInv(w.db, w.bus)
  {
  }

  lemma StepKeepsShape(w: World, w': World)
    requires InShape(w) && StepsTo(w, w', false)
    ensures InShape(w')
  {
    hide LegalMove, Registers, DbInv;
    if v: View, a: Action, i: nat :| Moves(w, w', v, a, i) {
      MoveKeepsDbInv(w.db, w'.db, w.bus, w'.bus, v, a, i);
    } else {
      var v: View :| Registers(w, w', v);
      RegistrationKeepsShape(w, w', v);
    }
  }

  /** The invariant of the store survives every run. */
  lemma RunsKeepShape(w: World, w': World)
    requires InShape(w) && Reaches(w, w')
    ensures InShape(w')
  {
    hide InShape, StepsTo;
    var path :| IsPath(path, false) && path[0] == w && path[|path| - 1] == w';
    PathKeepsShape(path, |path| - 1);
  }

  lemma {:induction false} PathKeepsShape(path: seq<World>, k: nat)
    requires IsPath(path, false) && k < |path| && InShape(path[0])
    ensures InShape(path[k])
  {
    hide InShape, StepsTo;
    if k > 0 {
      PathKeepsShape(path, k - 1);
      StepKeepsShape(path[k-1], path[k]);
    }
  }

  lemma EmptyStoreIsInShape()
    ensures InShape(EmptyWorld())
  {
  }

  // ----- one saga's part in a run of the store -----

  /** Whatever happens in the store, one saga sees at most one action of its own. */
  lemma StepProjects(w: World, w': World, x: View, clean: bool) returns (a: Action)
    requires InShape(w) && StepsTo(w, w', clean) && IsView(w.db, x)
    ensures Enabled(x, a) && IsView(w'.db, Apply(x, a)) && (clean ==> !a.Invalidate?)
  {
    hide IsView, Registers, LegalMove, Enabled, Apply;
    if v: View, a': Action, i: nat :| Moves(w, w', v, a', i) && (clean ==> !a'.Invalidate?) {
      a := MoveProjects(w, w', v, a', i, x);
    } else {
      var v: View :| Registers(w, w', v);
      RegistrationIsOutside(w, w', v, x);
      a := Idle;
      IdleApplies(x);
    }
  }

  lemma IdleApplies(x: View)
    ensures Enabled(x, Idle) && Apply(x, Idle) == x
  {
  }

  lemma RegistrationIsOutside(w: World, w': World, v: View, x: View)
    requires Registers(w, w', v) && IsView(w.db, x)
    ensures IsView(w'.db, x)
  {
    AddedKeepsView(w.db, w'.db, v, x);
  }

  lemma MoveProjects(w: World, w': World, v: View, a': Action, i: nat, x: View) returns (a: Action)
    requires Moves(w, w', v, a', i) && IsView(w.db, x)
    ensures Enabled(x, a) && IsView(w'.db, Apply(x, a)) && (a.Invalidate? ==> a'.Invalidate?)
  {
    hide Linked, SameOutside, IsView;
    IdleApplies(x);
    if x.saga.id == v.saga.id {
      LegalMoveHasView(w.db, w'.db, w.bus, w'.bus, v, a', i);
      ViewIsUnique(w.db, x, v);
      MovedHasView(w.db, w'.db, v, a', v.steps[i].id);
      a := a';
    } else if !a'.Idle? {
      ApplyKeepsIdentity(v, a');
      hide Apply, Enabled;
      OutsideKeepsView(w.db, w'.db, v.saga.id, x);
      a := Idle;
    } else {
      a := RequestProjects(w.db, w'.db, v.saga.id, v.steps[i].id, x);
    }
  }

  lemma RequestProjects(db: Db, db': Db, sid: string, stepId: string, x: View) returns (a: Action)
    requires ChildrenRequested(db, db', sid, stepId) && IsView(db, x)
    ensures Enabled(x, a) && IsView(db', Apply(x, a)) && !a.Invalidate?
  {
    if db'.sagas[x.saga.id] == x.saga {
      a := Idle;
    } else {
      a := Transitions.Request;
      assert Apply(x, a) == x.(saga := db'.sagas[x.saga.id]);
    }
  }

  /** Every saga's part in a run of the store is a run of that saga. */
  lemma RunsProject(w: World, w': World, x: View, clean: bool) returns (acts: seq<Action>)
    requires InShape(w) && RunsTo(w, w', clean) && IsView(w.db, x)
    ensures EnabledAll(x, acts) && IsView(w'.db, ApplyAll(x, acts)) && (clean ==> !Invalidates(acts))
  {
    hide InShape, StepsTo, IsView, EnabledAll, ApplyAll;
    var path :| IsPath(path, clean) && path[0] == w && path[|path| - 1] == w';
    acts := PathProjects(path, |path| - 1, x, clean);
  }

  lemma {:induction false} PathProjects(path: seq<World>, k: nat, x: View, clean: bool) returns (acts: seq<Action>)
    requires IsPath(path, clean) && k < |path| && InShape(path[0]) && IsView(path[0].db, x)
    ensures EnabledAll(x, acts) && IsView(path[k].db, ApplyAll(x, acts)) && (clean ==> !Invalidates(acts))
    ensures InShape(path[k])
  {
    hide InShape, StepsTo, IsView, EnabledAll, ApplyAll, Enabled, Apply;
    if k == 0 {
      acts := [];
      EmptyRun(x);
    } else {
      acts := PathProjects(path, k - 1, x, clean);
      var a := StepProjects(path[k-1], path[k], ApplyAll(x, acts), clean);
      StepForgetsClean(path[k-1], path[k], clean);
      StepKeepsShape(path[k-1], path[k]);
      ExtendRun(x, acts, a);
      acts := acts + [a];
    }
  }

  /**
   * From its registration on, whatever else happens in the store, a saga starts its steps in order
   * and compensates them from the last started one back; once it is compensated, exactly the steps
   * that were started have been compensated.
   */
  lemma StoredSagasUndoLastInFirstOut(w0: World, w1: World, w2: World, v: View) returns (acts: seq<Action>)
    requires InShape(w0) && Registers(w0, w1, v) && Reaches(w1, w2)
    ensures EnabledAll(v, acts) && IsView(w2.db, ApplyAll(v, acts))
    ensures StartOrder(acts) == Ascending(|StartOrder(acts)|) && |UndoOrder(acts)| <= |StartOrder(acts)| <= |v.steps|
    ensures UndoOrder(acts) == Reverse(StartOrder(acts))[..|UndoOrder(acts)|]
    ensures ApplyAll(v, acts).saga.state.SagaCompensated? ==> UndoOrder(acts) == Reverse(StartOrder(acts))
    ensures (exists a :: a in acts && a.Initiate?) ==> |StartOrder(acts)| == |v.steps|
    ensures forall k: nat :: Fail(k) in acts ==> |StartOrder(acts)| == k + 1
    ensures CountWork(acts) <= 8 * |v.steps| + 2 + 2 * CountRevivals(v, acts)
  {
    assert RunsTo(w1, w2, false);
    hide *;
    RegistrationKeepsShape(w0, w1, v);
    NewOnes(w0, w1, v);
    acts := RunsProject(w1, w2, v, false);
    LastInFirstOut(v, acts);
    RunsAreBounded(v, acts);
  }

  lemma NewOnes(w: World, w': World, v: View)
    requires Registers(w, w', v)
    ensures IsNew(v) && Linked(v) && v.saga.id !in w.db.sagas && Added(w.db, w'.db, v)
  {
  }

  // ----- what no run changes -----

  /** The columns of a saga row that are written once. */
  predicate SameOrigin(a: SagaInstance, b: SagaInstance) {
    b == a.(state := b.state, compensationReason := b.compensationReason)
  }

  ghost predicate KeepsSagas(w: World, w': World) {
    forall s :: s in w.db.sagas ==> s in w'.db.sagas && SameOrigin(w.db.sagas[s], w'.db.sagas[s])
  }

  lemma StepKeepsSagas(w: World, w': World)
    requires StepsTo(w, w', false)
    ensures KeepsSagas(w, w')
  {
    hide LegalMove, Registers;
    if v: View, a: Action, i: nat :| Moves(w, w', v, a, i) {
      MoveKeepsSagas(w, w', v, a, i);
    } else {
      var v: View :| Registers(w, w', v);
      NewOnes(w, w', v);
    }
  }

  lemma MoveKeepsSagas(w: World, w': World, v: View, a: Action, i: nat)
    requires Moves(w, w', v, a, i)
    ensures KeepsSagas(w, w')
  {
    ApplyKeepsIdentity(v, a);
    hide Apply, Enabled, Linked;
  }

  lemma RunsKeepSagas(w: World, w': World)
    requires Reaches(w, w')
    ensures KeepsSagas(w, w')
  {
    hide StepsTo;
    var path :| IsPath(path, false) && path[0] == w && path[|path| - 1] == w';
    PathKeepsSagas(path, |path| - 1);
  }

  lemma {:induction false} PathKeepsSagas(path: seq<World>, k: nat)
    requires IsPath(path, false) && k < |path|
    ensures KeepsSagas(path[0], path[k])
  {
    hide StepsTo;
    if k > 0 {
      PathKeepsSagas(path, k - 1);
      StepKeepsSagas(path[k-1], path[k]);
    }
  }

  /** A compensated saga stays as it is, whatever else happens in the store. */
  lemma CompensatedIsForever(w: World, w': World, s: string)
    requires InShape(w) && Reaches(w, w')
    requires s in w.db.sagas && w.db.sagas[s].state.SagaCompensated?
    ensures s in w'.db.sagas && w'.db.sagas[s] == w.db.sagas[s]
  {
    hide InShape, StepsTo;
    var path :| IsPath(path, false) && path[0] == w && path[|path| - 1] == w';
    PathKeepsCompensated(path, |path| - 1, s);
  }

  lemma {:induction false} PathKeepsCompensated(path: seq<World>, k: nat, s: string)
    requires IsPath(path, false) && k < |path| && InShape(path[0])
    requires s in path[0].db.sagas && path[0].db.sagas[s].state.SagaCompensated?
    ensures s in path[k].db.sagas && path[k].db.sagas[s] == path[0].db.sagas[s]
  {
    hide InShape, StepsTo;
    if k > 0 {
      PathKeepsCompensated(path, k - 1, s);
      PathKeepsShape(path, k - 1);
      StepKeepsCompensated(path[k-1], path[k], s);
    }
  }

  lemma StepKeepsCompensated(w: World, w': World, s: string)
    requires InShape(w) && StepsTo(w, w', false)
    requires s in w.db.sagas && w.db.sagas[s].state.SagaCompensated?
    ensures s in w'.db.sagas && w'.db.sagas[s] == w.db.sagas[s]
  {
    hide LegalMove, Registers, DbInv, Inv, Published;
    if v: View, a: Action, i: nat :| Moves(w, w', v, a, i) {
      LegalMoveHasView(w.db, w'.db, w.bus, w'.bus, v, a, i);
      var m := PositionOf(w.db, w.bus, v);
      CompensatedStays(w.db, w'.db, w.bus, w'.bus, v, m, a, i, s);
    } else {
      var v: View :| Registers(w, w', v);
      NewOnes(w, w', v);
    }
  }

  /** A request that a step's history records as sent is on the bus. */
  lemma SentRequestsWerePublished(w: World, v: View, j: nat, k: nat)
    requires Reaches(EmptyWorld(), w) && IsView(w.db, v)
    requires j < |v.steps| && k < |v.steps[j].history| && v.steps[j].history[k].requestSentTs > 0
    ensures exists r :: r in w.bus && IsRequestFor(r, v.steps[j], v.steps[j].history[k].isCompensation)
  {
    hide Reaches, DbInv, IsView, Inv;
    EmptyStoreIsInShape();
    RunsKeepShape(EmptyWorld(), w);
    var m := PositionOf(w.db, w.bus, v);
    assert RowPublished(v.steps[j], w.bus);
  }

  // ----- the cascade -----

  /** path leads from a saga down to one of its descendants. */
  ghost predicate LeadsDown(db: Db, path: seq<string>) {
    path != [] && path[0] in db.sagas && forall k :: 0 < k < |path| ==> IsOneDown(db, path, k)
  }

  ghost predicate IsOneDown(db: Db, path: seq<string>, k: nat)
    requires 0 < k < |path|
  {
    path[k] in db.sagas && path[k-1] != "" && db.sagas[path[k]].parentId == path[k-1]
  }

  lemma ChildOfCompensated(w: World, s: string)
    requires InShape(w) && s in w.db.sagas
    requires w.db.sagas[s].parentId != "" && w.db.sagas[s].parentId in w.db.sagas
    requires w.db.sagas[w.db.sagas[s].parentId].state.SagaCompensated?
    ensures w.db.sagas[s].state.SagaCompensated?
  {
    hide SagaFits, Inv;
    DbInvAt(w.db, w.bus);
    var child := w.db.sagas[s];
    assert ChildKeepsStep(w.db, child);
    CompensatedStepsAreUndone(w.db, w.bus, child.parentId, child.parentStepId);
  }

  /** Every step of a compensated saga was either undone or never ran. */
  lemma CompensatedStepsAreUndone(db: Db, bus: seq<Request>, sid: string, q: string)
    requires sid in db.sagas && db.sagas[sid].state.SagaCompensated? && SagaFits(db, sid, bus)
    requires q in db.steps && db.steps[q].sagaId == sid
    ensures UndoStarted(db.steps[q].state) || NeverRan(db.steps[q].state)
  {
    var x: View, m: Position :| x.saga.id == sid && IsView(db, x) && Inv(x, m) && Published(x, bus);
    hide Published, HistoriesFit;
    var j :| 0 <= j < |x.saga.stepIds| && x.saga.stepIds[j] == q;
    assert x.steps[j].id == q && x.steps[j].state == Letter(m, j);
  }

  /** A compensated saga has only compensated descendants, at any depth. */
  lemma {:induction false} CompensatedTrees(w: World, path: seq<string>, k: nat)
    requires InShape(w) && LeadsDown(w.db, path) && k < |path|
    requires w.db.sagas[path[0]].state.SagaCompensated?
    ensures path[k] in w.db.sagas && w.db.sagas[path[k]].state.SagaCompensated?
  {
    hide InShape;
    if k > 0 {
      CompensatedTrees(w, path, k - 1);
      assert IsOneDown(w.db, path, k);
      ChildOfCompensated(w, path[k]);
    }
  }

  /** The same for every store that can come about at all. */
  lemma CascadeReachesEveryDescendant(w: World, path: seq<string>)
    requires Reaches(EmptyWorld(), w)
    requires LeadsDown(w.db, path) && w.db.sagas[path[0]].state.SagaCompensated?
    ensures forall k :: 0 <= k < |path| ==> path[k] in w.db.sagas && w.db.sagas[path[k]].state.SagaCompensated?
  {
    hide InShape, Reaches;
    EmptyStoreIsInShape();
    RunsKeepShape(EmptyWorld(), w);
    forall k | 0 <= k < |path| ensures path[k] in w.db.sagas && w.db.sagas[path[k]].state.SagaCompensated? {
      CompensatedTrees(w, path, k);
    }
  }

  // ----- where the cascade ends -----

  /** Asking a committed saga to compensate, from outside, is one of the moves. */
  lemma TriggerIsAMove(w: World, id: string)
    requires InShape(w) && id in w.db.sagas && w.db.sagas[id].state.SagaCommitted?
    ensures StepsTo(w, World(RequestCompensation(w.db, id), w.bus), true)
  {
    DbInvAt(w.db, w.bus);
    assert SagaFits(w.db, id, w.bus);
    var v: View, m: Position :| v.saga.id == id && IsView(w.db, v) && Inv(v, m) && Published(v, w.bus);
    hide *;
    RequestIsLegal(w, v);
    var w' := World(RequestCompensation(w.db, id), w.bus);
    assert Moves(w, w', v, Transitions.Request, 0);
    MoveIsAStep(w, w', v, Transitions.Request, 0);
  }

  lemma MoveIsAStep(w: World, w': World, v: View, a: Action, i: nat)
    requires Moves(w, w', v, a, i)
    ensures StepsTo(w, w', !a.Invalidate?)
  {
    hide LegalMove;
  }

  lemma RequestIsLegal(w: World, v: View)
    requires IsView(w.db, v) && v.saga.state.SagaCommitted?
    ensures Moves(w, World(RequestCompensation(w.db, v.saga.id), w.bus), v, Transitions.Request, 0)
  {
    hide SameOutside;
    PutSagaMovesView(w.db, v, v.saga.(state := SagaCompensationRequested));
    assert RequestCompensation(w.db, v.saga.id) == PutSaga(w.db, v.saga.(state := SagaCompensationRequested));
  }

  ghost predicate IsChild(db: Db, s: string, parentId: string) {
    s in db.sagas && parentId != "" && db.sagas[s].parentId == parentId
  }

  ghost predicate ChildrenCompensated(db: Db, parentId: string) {
    forall s :: IsChild(db, s, parentId) ==> db.sagas[s].state.SagaCompensated?
  }

  /** A child that is not compensated, of a step whose compensation has not started. */
  ghost predicate IsForgotten(db: Db, s: string, parentId: string) {
    && IsChild(db, s, parentId) && !db.sagas[s].state.SagaCompensated?
    && db.sagas[s].parentStepId in db.steps && !UndoStarted(db.steps[db.sagas[s].parentStepId].state)
  }

  /**
   * An operator who force-marks a blocked saga keeps its tree compensated exactly when no child
   * that is not compensated hangs off a step whose compensation has not started.
   */
  lemma ForceMarkingLeavesChildren(w: World, id: string, reason: string)
    requires InShape(w) && id in w.db.sagas && w.db.sagas[id].state.SagaBlocked?
    ensures var db' := ForceMark(w.db, id, reason);
      db'.sagas[id].state.SagaCompensated?
      && (ChildrenCompensated(db', id) <==> forall s :: !IsForgotten(w.db, s, id))
  {
    DbInvAt(w.db, w.bus);
    hide DbInv;
    NoSagaIsItsOwnParent(w, id);
    var db' := ForceMark(w.db, id, reason);
    hide SagaFits, ChildKeepsStep;
    forall s ensures IsChild(db', s, id) <==> IsChild(w.db, s, id)
             ensures IsChild(w.db, s, id) ==> (db'.sagas[s].state.SagaCompensated? <==> !IsForgotten(w.db, s, id))
             ensures !IsChild(w.db, s, id) ==> !IsForgotten(w.db, s, id) {
      if IsChild(w.db, s, id) {
        UnforgottenChildren(w.db, s, id);
      }
    }
  }

  lemma UnforgottenChildren(db: Db, s: string, parentId: string)
    requires IsChild(db, s, parentId) && ChildKeepsStep(db, db.sagas[s])
    ensures db.sagas[s].state.SagaCompensated? <==> !IsForgotten(db, s, parentId)
  {
  }

  lemma NoSagaIsItsOwnParent(w: World, id: string)
    requires id in w.db.sagas && SagaFits(w.db, id, w.bus)
    ensures w.db.sagas[id].parentId != id
  {
  }

  /**
   * A child keeps step with its parent from its registration on exactly when the step that spawned
   * it has run and its compensation has not started.
   */
  lemma ChildrenMustComeInTime(w: World, w': World, v: View)
    requires Added(w.db, w'.db, v) && IsNew(v) && v.saga.id !in w.db.sagas
    requires v.saga.parentId != "" && v.saga.parentId in w.db.sagas
    requires v.saga.parentStepId in w.db.steps && w.db.steps[v.saga.parentStepId].sagaId == v.saga.parentId
    ensures ChildKeepsStep(w'.db, v.saga) <==> SpawnedInTime(w.db, v.saga)
  {
  }
}
