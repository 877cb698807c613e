/**
 * Services that come about: a saga lost to a failed listing and its parent stuck behind it, a saga
 * whose request was never sent, a compensated family, and immediate runs that are due for steps in
 * states they do not expect.
 */
module StoreWitnesses {
  import opened Types
  import opened Transitions
  import opened Machine
  import opened Invariants
  import opened Runs
  import opened Steering
  import opened StoreRuns
  import opened Drivers
  import opened Services
  import opened Submissions
  import opened Hierarchy
  import opened StoreEnds
  import opened Validators

  // ----- submissions -----

  function Submitted(sagaId: string, parentId: string, parentStepId: string, stepIds: seq<string>): View {
    NewView(SubmissionRequest(sagaId, "t", map[], parentId, parentStepId, "", 0),
            seq(|stepIds|, k requires 0 <= k < |stepIds| => "s"), stepIds, stepIds)
  }

  lemma SubmittedRegisters(w: World, sagaId: string, parentId: string, parentStepId: string, stepIds: seq<string>)
    returns (w': World)
    requires InShape(w) && |stepIds| > 0 && AreFresh(stepIds, w.db) && sagaId != "" && sagaId !in w.db.sagas
    requires SpawnedInTime(w.db, Submitted(sagaId, parentId, parentStepId, stepIds).saga)
    requires forall r :: r in w.bus ==> r.stepId !in stepIds
    ensures var v := Submitted(sagaId, parentId, parentStepId, stepIds);
      && Registers(w, w', v) && IsNew(v) && IsView(w'.db, v) && Added(w.db, w'.db, v)
      && v.saga.id == sagaId && |v.steps| == |stepIds| && v.saga.stepIds == stepIds && w'.bus == w.bus
  {
    var p := SubmissionRequest(sagaId, "t", map[], parentId, parentStepId, "", 0);
    var template := seq(|stepIds|, k requires 0 <= k < |stepIds| => "s");
    var v := NewView(p, template, stepIds, stepIds);
    w' := World(AddRows(PutSaga(w.db, v.saga), v.steps), w.bus);
    hide AddRows, InShape, IsView, Registers, AreFresh, SpawnedInTime;
    SpawnIgnoresIds(w.db, NewSaga(p, stepIds), v.saga);
    SubmissionIsRegistration(w, p, template, stepIds, stepIds);
    RegistrationKeepsShape(w, w', v);
    NewOnes(w, w', v);
  }

  lemma SpawnIgnoresIds(db: Db, a: SagaInstance, b: SagaInstance)
    requires a.parentId == b.parentId && a.parentStepId == b.parentStepId
    ensures SpawnedInTime(db, a) <==> SpawnedInTime(db, b)
  {
  }

  /** A saga is submitted; nothing is due for it yet. */
  lemma SubmissionHappens(x: Service, sagaId: string, parentId: string, parentStepId: string, stepIds: seq<string>)
    returns (x': Service)
    requires ServiceFits(x) && |stepIds| > 0 && AreFresh(stepIds, x.world.db)
    requires sagaId != "" && sagaId !in x.world.db.sagas
    requires SpawnedInTime(x.world.db, Submitted(sagaId, parentId, parentStepId, stepIds).saga)
    ensures var v := Submitted(sagaId, parentId, parentStepId, stepIds);
      && Happens(x, Submit(v), x') && ServesTo(x, x', true) && ServiceFits(x')
      && Registers(x.world, x'.world, v) && IsNew(v) && IsView(x'.world.db, v) && Added(x.world.db, x'.world.db, v)
      && v.saga.id == sagaId && |v.steps| == |stepIds| && v.saga.stepIds == stepIds
      && forall j :: 0 <= j < |v.steps| ==> Due(x', v.steps[j].id) == 0
    ensures x'.world.bus == x.world.bus && forall id :: Due(x', id) == Due(x, id)
  {
    hide *;
    var v := Submitted(sagaId, parentId, parentStepId, stepIds);
    FitsInShape(x);
    FreshIdsAreUnused(x, stepIds);
    var w' := SubmittedRegisters(x.world, sagaId, parentId, parentStepId, stepIds);
    x' := SubmitHappens(x, w', v);
    EventKeepsFits(x, Submit(v), x');
    ServesOnce(x, Submit(v), x');
    NamesOfNew(w'.db, v);
  }

  lemma FreshIdsAreUnused(x: Service, ids: seq<string>)
    requires DueAreStored(x) && AreFresh(ids, x.world.db)
    ensures forall id :: id in ids ==> Due(x, id) == 0
    ensures forall r :: r in x.world.bus ==> r.stepId !in ids
  {
  }

  lemma SubmitHappens(x: Service, w': World, v: View) returns (x': Service)
    requires Registers(x.world, w', v)
    ensures Happens(x, Submit(v), x') && x'.world == w' && !MarksInvalid(Submit(v))
    ensures forall id :: Due(x', id) == Due(x, id)
  {
    hide Registers;
    x' := x.(world := w');
  }

  lemma NamesOfNew(db: Db, v: View)
    requires IsView(db, v)
    ensures forall j :: 0 <= j < |v.steps| ==> v.steps[j].id in v.saga.stepIds
  {
    forall j | 0 <= j < |v.steps| ensures v.steps[j].id in v.saga.stepIds {
      assert LinkedRow(v.steps[j], v.saga.id, v.saga.stepIds, j);
    }
  }

  lemma AddedKeys(db: Db, db': Db, v: View)
    requires Added(db, db', v)
    ensures db'.sagas.Keys == db.sagas.Keys + {v.saga.id}
    ensures db'.steps.Keys == db.steps.Keys + (set id | id in v.saga.stepIds)
  {
  }

  // ----- a family -----

  lemma NothingInTheWay()
    ensures EmptyService().world.db.sagas == map[] && EmptyService().world.db.steps == map[]
    ensures AreFresh(["1"], EmptyService().world.db)
    ensures SpawnedInTime(EmptyService().world.db, Submitted("p", "", "", ["1"]).saga)
  {
  }

  lemma ParentIsStored() returns (x: Service, v: View)
    ensures ServesTo(EmptyService(), x, true) && ServiceFits(x)
    ensures IsView(x.world.db, v) && IsNew(v) && v.saga.id == "p" && |v.steps| == 1 && v.saga.stepIds == ["1"]
    ensures x.world.db.sagas.Keys == {"p"} && x.world.db.steps.Keys == {"1"} && x.world.bus == []
    ensures ChildrenSettled(x.world.db, "p")
  {
    hide *;
    EmptyServiceFits();
    FitsInShape(EmptyService());
    NothingInTheWay();
    x := SubmissionHappens(EmptyService(), "p", "", "", ["1"]);
    v := Submitted("p", "", "", ["1"]);
    AddedKeys(EmptyService().world.db, x.world.db, v);
    assert {"1"} == set id | id in ["1"];
    NewSagasHaveNoChildren(EmptyService().world, x.world, v);
    EmptyBus();
  }

  lemma EmptyBus()
    ensures EmptyService().world.bus == []
  {
  }

  /** A running saga "p" whose only step "1" was sent its request and has spawned the new saga "c". */
  lemma AFamily() returns (x: Service, p: View, c: View)
    ensures ServesTo(EmptyService(), x, true) && ServiceFits(x)
    ensures IsOpenView(x, p, Forward(0, Running)) && p.saga.id == "p" && p.saga.state.SagaRunning?
    ensures |p.steps| == 1
    ensures IsView(x.world.db, c) && c.saga.id == "c" && IsNew(c) && |c.steps| == 1 && Due(x, c.steps[0].id) == 0
    ensures x.world.db.sagas.Keys == {"p", "c"} && c.saga.parentId == "p" && c.saga.parentStepId == p.steps[0].id
  {
    hide *;
    var x1, v := ParentIsStored();
    var x2;
    x2, p := ParentIsRunning(x1, v);
    ServesOn(EmptyService(), x1, x2, true, true);
    x, c := ChildIsSpawned(x2, p);
    ServesOn(EmptyService(), x2, x, true, true);
  }

  lemma ParentIsRunning(x: Service, v: View) returns (x': Service, p: View)
    requires ServiceFits(x) && IsView(x.world.db, v) && IsNew(v) && v.saga.id == "p" && |v.steps| == 1
    requires v.saga.stepIds == ["1"] && ChildrenSettled(x.world.db, "p")
    requires x.world.db.sagas.Keys == {"p"} && x.world.db.steps.Keys == {"1"}
    ensures ServesTo(x, x', true) && ServiceFits(x') && IsOpenView(x', p, Forward(0, Running))
    ensures p.saga.id == "p" && p.saga.state.SagaRunning? && |p.steps| == 1 && p.steps[0].id == "1"
    ensures x'.world.db.sagas.Keys == {"p"} && "c" !in x'.world.db.sagas && AreFresh(["2"], x'.world.db)
    ensures SpawnedInTime(x'.world.db, Submitted("c", "p", "1", ["2"]).saga)
  {
    hide *;
    NewSagasFit(v);
    NewSagasAreOpen(x, v);
    ChildrenOrCommit(x, v, Forward(0, Candidate), 0);
    NewSagasStart(v);
    var m';
    x', p, m' := RoundIsServed(x, v, Forward(0, Candidate), 0);
    BringsAView(x, x', v, p, m');
    TendsMeans(x, x', "p");
    OpenViewMeans(x', p, m');
    ParentIsAtWork(x.world.db, x'.world.db, p);
  }

  lemma NewSagasStart(v: View)
    requires IsNew(v)
    ensures !Arrived(Forward(0, Candidate), |v.steps|, 0)
    ensures AfterRound(Forward(0, Candidate), v.saga.state, |v.steps|, 0) == Forward(0, Running)
    ensures StateAfterRound(Forward(0, Candidate), v.saga.state, |v.steps|).SagaRunning?
  {
  }

  lemma ParentIsAtWork(db: Db, db': Db, p: View)
    requires SameOutside(db, db', "p") && db.sagas.Keys == {"p"} && db.steps.Keys == {"1"}
    requires IsView(db', p) && p.saga.id == "p" && p.saga.stepIds == ["1"] && |p.steps| == 1
    requires Inv(p, Forward(0, Running))
    ensures db'.sagas.Keys == {"p"} && "c" !in db'.sagas && p.steps[0].id == "1" && AreFresh(["2"], db')
    ensures SpawnedInTime(db', Submitted("c", "p", "1", ["2"]).saga)
  {
    LinkedNames(p, 0);
    LetterAt(p, Forward(0, Running), 0);
    assert p.steps[0].id in db'.steps.Keys;
    assert forall id :: id in db'.steps ==> id in db'.steps.Keys && id == "1";
  }

  lemma ChildIsSpawned(x: Service, p: View) returns (x': Service, c: View)
    requires ServiceFits(x) && IsOpenView(x, p, Forward(0, Running)) && p.saga.state.SagaRunning? && |p.steps| == 1
    requires x.world.db.sagas.Keys == {"p"} && "c" !in x.world.db.sagas && AreFresh(["2"], x.world.db)
    requires SpawnedInTime(x.world.db, Submitted("c", "p", "1", ["2"]).saga) && p.steps[0].id == "1"
    ensures ServesTo(x, x', true) && ServiceFits(x') && IsOpenView(x', p, Forward(0, Running))
    ensures x'.world.db.sagas.Keys == {"p", "c"}
    ensures IsView(x'.world.db, c) && c.saga.id == "c" && IsNew(c) && |c.steps| == 1 && Due(x', c.steps[0].id) == 0
    ensures c.saga.parentId == "p" && c.saga.parentStepId == "1"
  {
    hide *;
    x' := SubmissionHappens(x, "c", "p", "1", ["2"]);
    c := Submitted("c", "p", "1", ["2"]);
    ChildOfParent();
    AddedKeys(x.world.db, x'.world.db, c);
    OpenViewMeans(x, p, Forward(0, Running));
    RegistrationIsOutside(x.world, x'.world, c, p);
    SameAsked(x, x', p, Forward(0, Running));
    MoreIsDue(Forward(0, Running), p.saga.state, DueFor(x, p), DueFor(x', p), IsAsked(x, p, Forward(0, Running)),
              IsAsked(x', p, Forward(0, Running)));
    OpenViewBy(x', p, Forward(0, Running));
  }

  lemma ChildOfParent()
    ensures var c := Submitted("c", "p", "1", ["2"]); c.saga.parentId == "p" && c.saga.parentStepId == "1"
  {
  }

  // ----- lost to a failed listing -----

  function Lost(v: View): View {
    Invalidated(v, "")
  }

  /**
   * The poller picks step i of a running saga, cannot list the steps for validation, and marks the
   * saga invalid.
   */
  lemma ListingFails(x: Service, v: View, m: Position, i: nat) returns (x1: Service, x': Service)
    requires ServiceFits(x) && IsView(x.world.db, v) && Inv(v, m) && i < |v.steps|
    requires v.saga.state.SagaRunning? && IsWorkedOn(v.steps[i].state) && IsPicked(v.saga.state, v.steps[i].state)
    ensures Happens(x, Pick(v.steps[i].id), x1) && Happens(x1, Poll(v, i, [Invalidate("")], false), x')
    ensures ServesTo(x, x', false) && ServiceFits(x')
    ensures IsView(x'.world.db, Lost(v)) && Inv(Lost(v), m) && SameOutside(x.world.db, x'.world.db, v.saga.id)
    ensures x.world.bus <= x'.world.bus && forall id :: Due(x', id) == Due(x, id)
  {
    var acts := [Invalidate("")];
    MarkingInvalid(v, m, i);
    hide *;
    FitsInShape(x);
    var w' := After(x.world, v, acts[0]);
    NoChildrenAsked(x.world, v, acts[0]);
    ActionsCanBeTaken(x.world, v, acts[0], i);
    OneMoveWorks(x.world, w', v, i, acts[0]);
    assert acts == [acts[0]];
    InsideBy(x.world, w', v, i, acts);
    WorkSettles(x.world, w', v, i, acts);
    FailedListingIsARun(x.world, w', v, i, acts);
    CanPickIt(x.world.db, v, i);
    var e;
    x1, e, x' := PickedRunIsMade(x, w', v, i, acts, false);
    ListingFailed(x, x1, x', v, i, acts);
  }

  lemma MarkingInvalid(v: View, m: Position, i: nat)
    requires Inv(v, m)
    ensures var a := Invalidate(""); var acts := [a];
      && Enabled(v, a) && !a.Idle? && !a.StartCompensation? && Target(a).None? && a.Invalidate?
      && NoneIsIdle(acts) && Invalidates(acts) && IsInvalidation(acts)
      && EnabledAll(v, acts) && ApplyAll(v, acts) == Lost(v)
    ensures Inv(Lost(v), m)
    ensures v.saga.state.SagaRunning? ==> !v.saga.state.SagaCompensated? && !v.saga.state.SagaCompensationRequested?
  {
    OneAction(v, Invalidate(""));
  }

  lemma FailedListingIsARun(w: World, w': World, v: View, i: nat, acts: seq<Action>)
    requires IsView(w.db, v) && i < |v.steps| && Settles(w, w', v, i, acts) && IsInvalidation(acts)
    requires IsWorkedOn(v.steps[i].state) && !v.saga.state.SagaCompensationRequested?
    ensures PollRun(w, w', v, i, acts, false)
  {
    hide IsView, Settles, IsOneRun;
  }

  lemma ListingFailed(x: Service, x1: Service, x': Service, v: View, i: nat, acts: seq<Action>)
    requires ServiceFits(x) && i < |v.steps| && Happens(x, Pick(v.steps[i].id), x1)
    requires x1.world == x.world && Happens(x1, Poll(v, i, acts, false), x')
    ensures ServesTo(x, x', false) && ServiceFits(x') && x.world.bus <= x'.world.bus
  {
    hide *;
    var pick, poll := Pick(v.steps[i].id), Poll(v, i, acts, false);
    EventKeepsFits(x, pick, x1);
    EventKeepsFits(x1, poll, x');
    ServesOnce(x, pick, x1);
    ServesOnce(x1, poll, x');
    ServesOn(x, x1, x', !MarksInvalid(pick), !MarksInvalid(poll));
    ServingForgetsClean(x, x', !MarksInvalid(pick) && !MarksInvalid(poll), false);
    FitsInShape(x1);
    KindOfRun(poll);
    RunsServe(x1, poll, x');
    ServesInShape(x1.world, x'.world, v, i, acts);
    AsksMore(x1.world.bus, x'.world.bus, v.steps[i].id);
  }

  /**
   * Every new saga passes validation at its first step, and is lost for good when the poller, at that
   * moment, cannot list its steps.
   */
  lemma HealthySagasCanBeLost(x: Service, x0: Service, v: View) returns (x1: Service, x2: Service)
    requires ServiceFits(x) && Happens(x, Submit(v), x0)
    ensures |v.steps| > 0 && Accepts(v.steps, 0)
    ensures Happens(x0, Pick(v.steps[0].id), x1) && Happens(x1, Poll(v, 0, [Invalidate("")], false), x2)
    ensures !CanBeCompensated(x2, v.saga.id) && !CanEndAs(x2, v.saga.id, SagaCommitted)
  {
    SubmitMeans(x, x0, v);
    EventKeepsFits(x, Submit(v), x0);
    FitsInShape(x);
    NewStepsAreAccepted(v, x.world, x0.world);
    NothingIsDueForNew(x, x0, v);
    hide *;
    RegistrationKeepsShape(x.world, x0.world, v);
    x1, x2 := ListingFails(x0, v, Forward(0, Candidate), 0);
    LostIsNotOpen(x2, v);
    ClosedForGood(x2, Lost(v));
  }

  lemma NewStepsAreAccepted(v: View, w: World, w': World)
    requires Registers(w, w', v)
    ensures IsNew(v) && |v.steps| > 0 && Accepts(v.steps, 0) && Inv(v, Forward(0, Candidate))
    ensures v.saga.state.SagaRunning? && IsWorkedOn(v.steps[0].state) && IsPicked(v.saga.state, v.steps[0].state)
    ensures v.saga.id in w'.db.sagas && Lost(v).saga.id == v.saga.id && |Lost(v).steps| == |v.steps|
    ensures Lost(v).steps == v.steps && Lost(v).saga.state.SagaInvalidState?
  {
    NewSagasFit(v);
    ValidatorsOnShapes(v, Forward(0, Candidate), 0);
    hide Accepts, Inv;
  }

  lemma NothingIsDueForNew(x: Service, x': Service, v: View)
    requires ServiceFits(x) && Happens(x, Submit(v), x') && |v.steps| > 0
    ensures Due(x', v.steps[0].id) == 0
  {
    hide *;
    FitsInShape(x);
    SubmitMeans(x, x', v);
    SubmitIsQuiet(x, x', v);
    NewOnes(x.world, x'.world, v);
    NewNameIsUnused(x, x'.world.db, v);
  }

  lemma SubmitIsQuiet(x: Service, x': Service, v: View)
    requires Happens(x, Submit(v), x')
    ensures forall id :: Due(x', id) == Due(x, id)
  {
    hide Registers;
  }

  lemma NewNameIsUnused(x: Service, db': Db, v: View)
    requires DueAreStored(x) && Added(x.world.db, db', v) && Linked(v) && |v.steps| > 0
    ensures Due(x, v.steps[0].id) == 0
  {
    LinkedNames(v, 0);
    hide Linked;
    assert v.steps[0].id !in x.world.db.steps;
  }

  lemma LostIsNotOpen(x: Service, v: View)
    requires IsView(x.world.db, Lost(v)) && Inv(Lost(v), Forward(0, Candidate)) && |v.steps| > 0
    requires Due(x, v.steps[0].id) == 0
    ensures !IsOpenIn(x, v.saga.id)
  {
    OpenAt(x, Lost(v), Forward(0, Candidate));
    hide IsOpenIn, IsView, Inv;
  }

  lemma ClosedForGood(x: Service, v: View)
    requires ServiceFits(x) && IsView(x.world.db, v) && !IsOpenIn(x, v.saga.id)
    ensures !CanBeCompensated(x, v.saga.id) && !CanEndAs(x, v.saga.id, SagaCommitted)
  {
    ViewIsStored(x.world.db, v);
    hide ServiceFits, IsView, IsOpenIn, ServesTo, IsCompensated;
    if CanBeCompensated(x, v.saga.id) {
      var x' :| ServesTo(x, x', false) && IsCompensated(x'.world, v.saga.id);
      LostForGood(x, x', v.saga.id);
      assert false;
    }
    if CanEndAs(x, v.saga.id, SagaCommitted) {
      var x' :| ServesTo(x, x', false) && IsIn(x'.world, v.saga.id, SagaCommitted);
      assert IsCommitted(x'.world, v.saga.id);
      LostForGood(x, x', v.saga.id);
      assert false;
    }
  }

  // ----- stuck behind a lost child -----

  ghost predicate IsHeldUp(w: World, s: string, stepId: string) {
    !IsCompensated(w, s) && stepId in w.db.steps && !UndoStarted(w.db.steps[stepId].state)
  }

  /**
   * A service that comes about in which a running saga never gets beyond its candidate compensation:
   * the child it waits for was lost to a failed listing before its first step was started.
   */
  lemma AStuckSaga() returns (x: Service, p: View)
    ensures ServesTo(EmptyService(), x, false)
    ensures IsView(x.world.db, p) && p.saga.state.SagaRunning? && Inv(p, Undoing(0, 0, UndoCandidate)) && |p.steps| == 1
    ensures forall x' :: ServesTo(x, x', false) ==> IsHeldUp(x'.world, p.saga.id, p.steps[0].id)
  {
    var x0, p0, c := AFamily();
    hide *;
    var x1 := ChildIsLost(x0, p0, c);
    x, p := ParentFails(x1, p0);
    OpenViewMeans(x1, p0, Forward(0, Running));
    ChildStaysLost(x1, x, p0, p, "c");
    forall x' | ServesTo(x, x', false) ensures IsHeldUp(x'.world, p.saga.id, p.steps[0].id) {
      StuckForGood(x, x', p, "c");
    }
    ServingForgetsClean(EmptyService(), x0, true, false);
    ServesOn(EmptyService(), x0, x1, false, false);
    TendsMeans(x1, x, p0.saga.id);
    ServesOn(EmptyService(), x1, x, false, true);
  }

  lemma ChildIsLost(x: Service, p: View, c: View) returns (x': Service)
    requires ServiceFits(x) && IsOpenView(x, p, Forward(0, Running)) && p.saga.id == "p" && p.saga.state.SagaRunning?
    requires IsView(x.world.db, c) && IsNew(c) && c.saga.id == "c" && |c.steps| == 1
    requires Due(x, c.steps[0].id) == 0 && |p.steps| == 1
    requires c.saga.parentId == "p" && c.saga.parentStepId == p.steps[0].id
    ensures ServesTo(x, x', false) && ServiceFits(x') && !IsOpenIn(x', "c")
    ensures IsOpenView(x', p, Forward(0, Running)) && HangsOff(x'.world.db, "c", p)
  {
    hide *;
    NewSagasFit(c);
    NewIsPicked(c);
    var x1;
    x1, x' := ListingFails(x, c, Forward(0, Candidate), 0);
    LostIsNotOpen(x', c);
    LostHangsOn(x'.world.db, c, p);
    ParentStaysOpen(x, x', p);
  }

  /** Saga c was spawned by the first step of p. */
  predicate HangsOff(db: Db, c: string, p: View) {
    c in db.sagas && db.sagas[c].parentId == p.saga.id && |p.steps| > 0 && db.sagas[c].parentStepId == p.steps[0].id
  }

  lemma LostHangsOn(db: Db, c: View, p: View)
    requires IsView(db, Lost(c)) && |p.steps| > 0
    requires c.saga.parentId == p.saga.id && c.saga.parentStepId == p.steps[0].id
    ensures HangsOff(db, c.saga.id, p)
  {
    ViewIsStored(db, Lost(c));
    hide IsView;
  }

  /** What happens to the child leaves the parent open. */
  lemma ParentStaysOpen(x: Service, x': Service, p: View)
    requires IsOpenView(x, p, Forward(0, Running)) && p.saga.id == "p" && SameOutside(x.world.db, x'.world.db, "c")
    requires x.world.bus <= x'.world.bus && forall id :: Due(x', id) == Due(x, id)
    ensures IsOpenView(x', p, Forward(0, Running))
  {
    hide *;
    var m := Forward(0, Running);
    OpenViewMeans(x, p, m);
    OutsideKeepsView(x.world.db, x'.world.db, "c", p);
    StillAsked(x, x', p, m);
    MoreIsDue(m, p.saga.state, DueFor(x, p), DueFor(x', p), IsAsked(x, p, m), IsAsked(x', p, m));
    OpenViewBy(x', p, m);
  }

  lemma NewIsPicked(v: View)
    requires IsNew(v)
    ensures |v.steps| > 0 && v.saga.state.SagaRunning? && IsWorkedOn(v.steps[0].state)
    ensures IsPicked(v.saga.state, v.steps[0].state)
    ensures Lost(v).saga.id == v.saga.id && Lost(v).saga.parentId == v.saga.parentId
    ensures Lost(v).saga.parentStepId == v.saga.parentStepId
  {
  }

  /** The parent's execution fails, and the poller turns it round; the child does not let it go on. */
  lemma ParentFails(x: Service, p: View) returns (x': Service, p': View)
    requires ServiceFits(x) && IsOpenView(x, p, Forward(0, Running)) && p.saga.state.SagaRunning? && |p.steps| == 1
    ensures Tends(x, x', p.saga.id) && IsView(x'.world.db, p') && Inv(p', Undoing(0, 0, UndoCandidate))
    ensures p'.saga.id == p.saga.id && p'.saga.state.SagaRunning? && p'.saga.stepIds == p.saga.stepIds
      && |p'.steps| == 1
  {
    var failure := Receive(0, StatusFailed, map[], 1);
    FailureIsPossible(x, p);
    hide *;
    var x1 := ResultRound(x, p, Forward(0, Running), failure);
    var p1 := ApplyAll(p, [failure]);
    BringsAView(x, x1, p, p1, NextAll(Forward(0, Running), [failure], 1));
    FailureLeads(p, failure);
    TurnIsPossible(p1);
    x' := DrivenRound(x1, p1, Forward(0, Failed), [Fail(0)], 0);
    p' := ApplyAll(p1, [Fail(0)]);
    BringsAView(x1, x', p1, p', NextAll(Forward(0, Failed), [Fail(0)], 1));
    TurnLeads();
    TendsOn(x, x1, x', p.saga.id);
  }

  lemma FailureIsPossible(x: Service, p: View)
    requires IsOpenView(x, p, Forward(0, Running)) && |p.steps| == 1
    ensures var a := Receive(0, StatusFailed, map[], 1); Enabled(p, a) && a.Receive? && a.i == 0
    ensures IsView(x.world.db, p) && Inv(p, Forward(0, Running)) && IsRequested(x.world.bus, p.steps[0].id)
  {
    LetterAt(p, Forward(0, Running), 0);
    hide IsRequested;
  }

  lemma FailureLeads(p: View, a: Action)
    requires a == Receive(0, StatusFailed, map[], 1) && EnabledAll(p, [a])
    ensures NextAll(Forward(0, Running), [a], 1) == Forward(0, Failed)
    ensures ApplyAll(p, [a]).saga.state == p.saga.state
  {
    assert [a][1..] == [];
    OneReceipt(p, [a]);
    StatesFollow(p, Forward(0, Running), a);
    hide Apply, Enabled;
  }

  lemma TurnIsPossible(p: View)
    requires Inv(p, Forward(0, Failed)) && p.saga.state.SagaRunning? && |p.steps| == 1
    ensures var acts := [Fail(0)];
      && EnabledAll(p, acts) && ApplyAll(p, acts).saga.state.SagaRunning?
      && AreActionsOn(acts, 0) && !Invalidates(acts) && NoneIsIdle(acts) && !StartsCompensation(acts)
      && IsOneRun(acts, 0)
    ensures IsWorkedOn(p.steps[0].state) && IsPicked(p.saga.state, p.steps[0].state)
    ensures !p.saga.state.SagaCompensationRequested?
  {
    LetterAt(p, Forward(0, Failed), 0);
    OneAction(p, Fail(0));
  }

  lemma TurnLeads()
    ensures NextAll(Forward(0, Failed), [Fail(0)], 1) == Undoing(0, 0, UndoCandidate)
  {
    assert [Fail(0)][1..] == [];
  }

  lemma ChildStaysLost(x: Service, x': Service, p: View, p': View, c: string)
    requires ServiceFits(x) && Tends(x, x', p.saga.id) && c != p.saga.id && p'.saga.id == p.saga.id
    requires !IsOpenIn(x, c) && HangsOff(x.world.db, c, p)
    requires IsView(x'.world.db, p') && IsView(x.world.db, p) && p'.saga.stepIds == p.saga.stepIds
    ensures ServiceFits(x') && !IsOpenIn(x', c) && HangsOff(x'.world.db, c, p')
  {
    hide *;
    TendsMeans(x, x', p.saga.id);
    StillHangsOff(x.world.db, x'.world.db, p, p', c);
    if IsOpenIn(x', c) {
      ServingForgetsClean(x, x', true, false);
      CoursesOpenNothing(x, x', false, c);
      assert false;
    }
  }

  lemma StillHangsOff(db: Db, db': Db, p: View, p': View, c: string)
    requires SameOutside(db, db', p.saga.id) && HangsOff(db, c, p) && c != p.saga.id
    requires IsView(db, p) && IsView(db', p') && p'.saga.stepIds == p.saga.stepIds && p'.saga.id == p.saga.id
    ensures HangsOff(db', c, p') && c in db.sagas
  {
    SameRowOutside(db, db', p.saga.id, c);
    ViewIsStored(db, p);
    ViewIsStored(db', p');
    LinkedNames(p, 0);
    LinkedNames(p', 0);
    hide IsView, SameOutside, Linked;
  }

  lemma SameRowOutside(db: Db, db': Db, sid: string, s: string)
    requires SameOutside(db, db', sid) && s in db.sagas && s != sid
    ensures s in db'.sagas && db'.sagas[s] == db.sagas[s]
  {
  }

  lemma StuckForGood(x: Service, x': Service, p: View, c: string)
    requires ServiceFits(x) && ServesTo(x, x', false) && IsView(x.world.db, p) && p.saga.id != "" && |p.steps| > 0
    requires !IsOpenIn(x, c) && HangsOff(x.world.db, c, p)
    ensures IsHeldUp(x'.world, p.saga.id, p.steps[0].id)
  {
    hide *;
    HangingMeans(x.world.db, c, p);
    LostChildrenHoldTheirStep(x, x', c);
    CoursesKeepFits(x, x', false);
    FitsInShape(x');
    ParentIsHeldUp(x'.world, p.saga.id, c);
    HeldUpBy(x'.world, p.saga.id, p.steps[0].id);
  }

  lemma HangingMeans(db: Db, c: string, p: View)
    requires HangsOff(db, c, p)
    ensures c in db.sagas && db.sagas[c].parentId == p.saga.id
    ensures |p.steps| > 0 && db.sagas[c].parentStepId == p.steps[0].id
  {
  }

  lemma ParentIsHeldUp(w: World, s: string, c: string)
    requires InShape(w) && c in w.db.sagas && w.db.sagas[c].parentId == s && s != "" && !IsCompensated(w, c)
    ensures !IsCompensated(w, s)
  {
    hide InShape;
    if IsCompensated(w, s) {
      ChildOfCompensated(w, c);
      assert false;
    }
  }

  lemma HeldUpBy(w: World, s: string, stepId: string)
    requires !IsCompensated(w, s) && stepId in w.db.steps && !UndoStarted(w.db.steps[stepId].state)
    ensures IsHeldUp(w, s, stepId)
  {
  }

  // ----- a request that was never sent -----

  /**
   * A service that comes about in which a running saga stays where it is: its first step was started,
   * the request could not be sent, and no driver looks at a running step again.
   */
  lemma AnUnsentRequest() returns (x: Service, v: View)
    ensures ServesTo(EmptyService(), x, true)
    ensures IsView(x.world.db, v) && v.saga.state.SagaRunning? && Inv(v, Forward(0, Running)) && x.world.bus == []
    ensures !CanEndAs(x, v.saga.id, SagaCommitted) && !CanBeCompensated(x, v.saga.id)
  {
    var x0, v0 := ParentIsStored();
    NewSagasFit(v0);
    StartIsPossible(v0);
    hide *;
    x, v := OnlyStarted(x0, v0);
    ServesOn(EmptyService(), x0, x, true, true);
    NotRequestedAnywhere(x, v);
    ClosedForGood(x, v);
  }

  lemma StartIsPossible(v: View)
    requires IsNew(v) && |v.steps| == 1 && Inv(v, Forward(0, Candidate))
    ensures var a := Start(0, "", 1); var acts := [a];
      && Enabled(v, a) && !a.StartCompensation? && !a.Idle? && !a.Send? && !a.Invalidate? && Target(a) == Some(0)
      && EnabledAll(v, acts) && ApplyAll(v, acts) == Apply(v, a) && Apply(v, a).saga == v.saga
      && |Apply(v, a).steps| == 1 && IsOneRun(acts, 0) && NoneIsIdle(acts) && !Invalidates(acts)
      && NextAll(Forward(0, Candidate), acts, 1) == Forward(0, Running)
    ensures v.saga.state.SagaRunning? && !v.saga.state.SagaCompensationRequested?
    ensures IsWorkedOn(v.steps[0].state) && IsPicked(v.saga.state, v.steps[0].state)
  {
    assert [Start(0, "", 1)][1..] == [];
    OneAction(v, Start(0, "", 1));
  }

  lemma OnlyStarted(x: Service, v: View) returns (x': Service, v': View)
    requires ServiceFits(x) && IsView(x.world.db, v) && IsNew(v) && |v.steps| == 1 && Inv(v, Forward(0, Candidate))
    requires x.world.bus == []
    ensures ServesTo(x, x', true) && ServiceFits(x') && x'.world.bus == []
    ensures IsView(x'.world.db, v') && Inv(v', Forward(0, Running)) && v'.saga.state.SagaRunning? && |v'.steps| == 1
  {
    var a := Start(0, "", 1);
    var acts := [a];
    StartIsPossible(v);
    var w' := After(x.world, v, a);
    assert w'.bus == [];
    hide *;
    FitsInShape(x);
    NoChildrenAsked(x.world, v, a);
    ActionsCanBeTaken(x.world, v, a, 0);
    OneMoveWorks(x.world, w', v, 0, a);
    InsideBy(x.world, w', v, 0, acts);
    WorkSettles(x.world, w', v, 0, acts);
    SettlingIsARun(x.world, w', v, 0, acts);
    CanPickIt(x.world.db, v, 0);
    var x1, e;
    x1, e, x' := PickedRunIsMade(x, w', v, 0, acts, true);
    PickedRunBrings(x, x1, e, x', Forward(0, Candidate));
    v' := Apply(v, a);
    BringsAView(x, x', v, v', Forward(0, Running));
    TendsMeans(x, x', v.saga.id);
  }

  lemma NotRequestedAnywhere(x: Service, v: View)
    requires IsView(x.world.db, v) && Inv(v, Forward(0, Running)) && x.world.bus == []
    ensures !IsOpenIn(x, v.saga.id)
  {
    OpenAt(x, v, Forward(0, Running));
    hide IsView, Inv, IsOpenIn;
  }

  // ----- a compensated family -----

  /** A service that comes about in which a saga and the child it spawned are both compensated. */
  lemma ACompensatedFamily() returns (x: Service)
    ensures ServesTo(EmptyService(), x, false) && IsCompensated(x.world, "p") && IsCompensated(x.world, "c")
    ensures x.world.db.sagas["c"].parentId == "p"
  {
    var x0, p, c := AFamily();
    ViewIsStored(x0.world.db, c);
    OpenViewMeans(x0, p, Forward(0, Running));
    ViewIsStored(x0.world.db, p);
    NewSagasFit(c);
    hide *;
    FamilyIsOpen(x0, p, c);
    ServingForgetsClean(EmptyService(), x0, true, false);
    CompensableIffOpenBelow(x0, "p");
    x := CompensatedIn(x0, "p");
    ServesOn(EmptyService(), x0, x, false, false);
    ChildToo(x0, x, "p", "c");
  }

  lemma FamilyIsOpen(x: Service, p: View, c: View)
    requires IsOpenView(x, p, Forward(0, Running)) && p.saga.id == "p" && c.saga.id == "c"
    requires IsView(x.world.db, c) && IsNew(c) && Inv(c, Forward(0, Candidate)) && x.world.db.sagas.Keys == {"p", "c"}
    ensures IsOpenBelow(x, "p")
  {
    hide *;
    OpenViewIsOpen(x, p, Forward(0, Running));
    NewSagasAreOpen(x, c);
    OpenViewIsOpen(x, c, Forward(0, Candidate));
    EveryoneIsOpen(x, "p");
  }

  lemma EveryoneIsOpen(x: Service, s: string)
    requires forall t :: t in x.world.db.sagas.Keys ==> IsOpenIn(x, t)
    ensures IsOpenBelow(x, s)
  {
    hide IsOpenIn;
    forall d | Descends(x.world.db, s, d) ensures IsOpenIn(x, d) {
      var path :| IsPathTo(x.world.db, path, s, d);
      EndOfPathIsStored(x.world.db, path, s, d);
      assert d in x.world.db.sagas.Keys;
    }
  }

  lemma CompensatedIn(x: Service, s: string) returns (x': Service)
    requires CanBeCompensated(x, s)
    ensures ServesTo(x, x', false) && IsCompensated(x'.world, s)
  {
    hide ServesTo;
    x' :| ServesTo(x, x', false) && IsCompensated(x'.world, s);
  }

  lemma ChildToo(x0: Service, x: Service, s: string, c: string)
    requires ServiceFits(x0) && ServesTo(x0, x, false) && IsCompensated(x.world, s) && c in x0.world.db.sagas
    requires s != "" && x0.world.db.sagas[c].parentId == s
    ensures IsCompensated(x.world, c) && x.world.db.sagas[c].parentId == s
  {
    hide *;
    FitsInShape(x0);
    CoursesAreRuns(x0, x, false);
    ReachesMeans(x0.world, x.world);
    RunsKeepSagas(x0.world, x.world);
    OriginStays(x0.world, x.world, c);
    ChildCompensated(x.world, s, c);
  }

  lemma OriginStays(w: World, w': World, s: string)
    requires KeepsSagas(w, w') && s in w.db.sagas
    ensures s in w'.db.sagas && w'.db.sagas[s].parentId == w.db.sagas[s].parentId
  {
    assert SameOrigin(w.db.sagas[s], w'.db.sagas[s]);
  }

  lemma ChildCompensated(w: World, s: string, c: string)
    requires InShape(w) && IsCompensated(w, s) && s != "" && c in w.db.sagas && w.db.sagas[c].parentId == s
    ensures IsCompensated(w, c)
  {
    hide InShape;
    ChildOfCompensated(w, c);
  }

  // ----- immediate runs that come too late -----

  /** An immediate run is due for the step, which is in the given state; when it is made, the saga is marked invalid. */
  ghost predicate TriggerStrikes(x: Service, stepId: string, state: StepState) {
    && stepId in x.world.db.steps && x.world.db.steps[stepId].state == state && stepId in x.fired
    && exists v: View, i: nat, acts: seq<Action>, x': Service ::
         Happens(x, Trigger(v, i, acts, true), x') && i < |v.steps| && v.steps[i].id == stepId && IsInvalidation(acts)
  }

  lemma LateTriggerStrikes(x: Service, v: View, m: Position, i: nat, state: StepState)
    requires ServiceFits(x) && IsView(x.world.db, v) && Inv(v, m) && i < |v.steps| && v.steps[i].id in x.fired
    requires v.steps[i].state == state && (state.CompensationPending? || state.CompensationBlocked?)
    requires !v.saga.state.SagaCompensated?
    ensures TriggerStrikes(x, v.steps[i].id, state)
  {
    var a := Invalidate("");
    var acts := [a];
    MarkingInvalid(v, m, i);
    StepIsStored(x.world.db, v, i);
    hide *;
    FitsInShape(x);
    var w' := After(x.world, v, a);
    NoChildrenAsked(x.world, v, a);
    ActionsCanBeTaken(x.world, v, a, i);
    OneMoveWorks(x.world, w', v, i, a);
    InsideBy(x.world, w', v, i, acts);
    WorkSettles(x.world, w', v, i, acts);
    var x' := TriggerHappens(x, w', v, i, acts);
    StrikesBy(x, v, i, acts, x', state);
  }

  lemma StepIsStored(db: Db, v: View, i: nat)
    requires IsView(db, v) && i < |v.steps|
    ensures v.steps[i].id in db.steps && db.steps[v.steps[i].id] == v.steps[i]
  {
  }

  lemma TriggerHappens(x: Service, w': World, v: View, i: nat, acts: seq<Action>) returns (x': Service)
    requires IsView(x.world.db, v) && i < |v.steps| && v.steps[i].id in x.fired
    requires v.steps[i].state.CompensationPending? || v.steps[i].state.CompensationBlocked?
    requires Settles(x.world, w', v, i, acts) && IsInvalidation(acts)
    ensures Happens(x, Trigger(v, i, acts, true), x')
  {
    hide IsView, Settles, IsOneRun;
    x' := x.(world := w', fired := x.fired - multiset{v.steps[i].id});
  }

  lemma StrikesBy(x: Service, v: View, i: nat, acts: seq<Action>, x': Service, state: StepState)
    requires Happens(x, Trigger(v, i, acts, true), x') && i < |v.steps| && IsInvalidation(acts)
    requires v.steps[i].id in x.world.db.steps && x.world.db.steps[v.steps[i].id].state == state
    requires v.steps[i].id in x.fired
    ensures TriggerStrikes(x, v.steps[i].id, state)
  {
    hide Happens, IsInvalidation;
  }

  /** The saga was committed by the poller alone, and has begun to be undone. */
  lemma UndoBegins(x0: Service, x1: Service, v: View) returns (x: Service, v': View)
    requires ServiceFits(x0) && Happens(x0, Submit(v), x1)
    ensures |v.steps| > 0 && ServesTo(x1, x, true) && ServiceFits(x) && AllFired(x, v')
    ensures IsOpenView(x, v', Undoing(|v.steps| - 1, |v.steps| - 1, UndoCandidate)) && v'.saga.state.SagaRunning?
    ensures v'.saga.id == v.saga.id && v'.saga.stepIds == v.saga.stepIds && |v'.steps| == |v.steps|
    ensures ChildrenSettled(x.world.db, v.saga.id)
  {
    hide *;
    SubmitMeans(x0, x1, v);
    FitsInShape(x0);
    NewSagasHaveNoChildren(x0.world, x1.world, v);
    var x2, v2 := CommittedByPolls(x0, x1, v);
    x, v' := TurnedByRequest(x2, v2);
    TendsOn(x1, x2, x, v.saga.id);
    TendsMeans(x1, x, v.saga.id);
    SettledOutside(x1.world, x.world, v.saga.id);
  }

  lemma CommittedByPolls(x0: Service, x1: Service, v: View) returns (x: Service, v': View)
    requires ServiceFits(x0) && Happens(x0, Submit(v), x1)
    ensures |v.steps| > 0 && Tends(x1, x, v.saga.id) && ServiceFits(x) && IsOpenView(x, v', Complete)
    ensures v'.saga.state.SagaCommitted? && AllFired(x, v')
    ensures v'.saga.id == v.saga.id && v'.saga.stepIds == v.saga.stepIds && |v'.steps| == |v.steps|
    ensures ChildrenSettled(x.world.db, v.saga.id)
  {
    hide *;
    SubmitMeans(x0, x1, v);
    EventKeepsFits(x0, Submit(v), x1);
    FitsInShape(x0);
    RegistrationKeepsShape(x0.world, x1.world, v);
    NewOnes(x0.world, x1.world, v);
    NewSagasFit(v);
    NewSagasHaveNoChildren(x0.world, x1.world, v);
    NewSagasAreOpen(x1, v);
    NothingAnsweredYet(x1, v);
    ChildrenOrCommit(x1, v, Forward(0, Candidate), |v.steps|);
    CommitIsTheDestination(Forward(0, Candidate), v.saga.state, |v.steps|);
    var m';
    x, v', m' := SteeredToTheEnd(x1, v, Forward(0, Candidate), |v.steps|);
    BringsAView(x1, x, v, v', m');
    TendsMeans(x1, x, v.saga.id);
    SettledOutside(x1.world, x.world, v.saga.id);
  }

  lemma NothingAnsweredYet(x: Service, v: View)
    requires IsNew(v)
    ensures AllFired(x, v) && |v.steps| > 0 && v.saga.state.SagaRunning? && Fits(Forward(0, Candidate), |v.steps|)
  {
  }

  lemma TurnedByRequest(x: Service, v: View) returns (x': Service, v': View)
    requires ServiceFits(x) && IsOpenView(x, v, Complete) && v.saga.state.SagaCommitted? && AllFired(x, v)
    requires ChildrenSettled(x.world.db, v.saga.id) && |v.steps| > 0
    ensures Tends(x, x', v.saga.id) && ServiceFits(x') && AllFired(x', v')
    ensures IsOpenView(x', v', Undoing(|v.steps| - 1, |v.steps| - 1, UndoCandidate)) && v'.saga.state.SagaRunning?
    ensures v'.saga.id == v.saga.id && v'.saga.stepIds == v.saga.stepIds && |v'.steps| == |v.steps|
  {
    hide *;
    var n := |v.steps|;
    ChildrenOrCommit(x, v, Complete, 0);
    TurnOfRounds(v.saga.state, n);
    var x1, v1, m1 := RoundIsServed(x, v, Complete, 0);
    BringsAView(x, x1, v, v1, m1);
    TurnOfRounds(v1.saga.state, n);
    var m2;
    x', v', m2 := RoundIsServed(x1, v1, Complete, 0);
    BringsAView(x1, x', v1, v', m2);
    TendsOn(x, x1, x', v.saga.id);
  }

  lemma TurnOfRounds(s: SagaState, n: nat)
    requires n > 0
    ensures !Arrived(Complete, n, 0)
    ensures s.SagaCommitted? ==>
      AfterRound(Complete, s, n, 0) == Complete && StateAfterRound(Complete, s, n).SagaCompensationRequested?
    ensures !s.SagaCommitted? ==>
      && AfterRound(Complete, s, n, 0) == Undoing(n - 1, n - 1, UndoCandidate)
      && StateAfterRound(Complete, s, n).SagaRunning?
  {
  }

  /** Every saga of two or more steps can come to have an immediate run due for a step that waits to be compensated. */
  lemma TriggersCanMeetPending(x0: Service, x1: Service, v: View) returns (x: Service)
    requires ServiceFits(x0) && Happens(x0, Submit(v), x1) && |v.steps| >= 2
    ensures ServesTo(x1, x, true) && |v.saga.stepIds| > 0
    ensures TriggerStrikes(x, v.saga.stepIds[0], CompensationPending)
  {
    hide *;
    SubmitMeans(x0, x1, v);
    NewOnes(x0.world, x1.world, v);
    var v';
    x, v' := UndoBegins(x0, x1, v);
    var m := Undoing(|v.steps| - 1, |v.steps| - 1, UndoCandidate);
    OpenViewMeans(x, v', m);
    ViewIsStored(x.world.db, v');
    LinkedNames(v', 0);
    LinkedLength(v');
    LetterAt(v', m, 0);
    PendingWasAnswered(x, v', m);
    NotCompensated(v');
    LateTriggerStrikes(x, v', m, 0, CompensationPending);
  }

  lemma LinkedLength(v: View)
    requires Linked(v)
    ensures |v.saga.stepIds| == |v.steps|
  {
  }

  lemma PendingWasAnswered(x: Service, v: View, m: Position)
    requires AllFired(x, v) && |v.steps| > 0 && m.Undoing? && m.i > 0 && v.steps[0].state == Letter(m, 0)
    ensures v.steps[0].id in x.fired && v.steps[0].state.CompensationPending?
  {
  }

  lemma NotCompensated(v: View)
    requires v.saga.state.SagaRunning? || v.saga.state.SagaBlocked?
    ensures !v.saga.state.SagaCompensated?
  {
  }

  /** Every saga can come to have an immediate run due for a step whose compensation is blocked. */
  lemma TriggersCanMeetBlocked(x0: Service, x1: Service, v: View) returns (x: Service)
    requires ServiceFits(x0) && Happens(x0, Submit(v), x1)
    ensures ServesTo(x1, x, true) && |v.saga.stepIds| == |v.steps| > 0
    ensures TriggerStrikes(x, v.saga.stepIds[|v.steps| - 1], CompensationBlocked)
  {
    hide *;
    SubmitMeans(x0, x1, v);
    NewOnes(x0.world, x1.world, v);
    LinkedLength(v);
    var x2, v2 := UndoBegins(x0, x1, v);
    var v';
    x, v' := LastStepIsBlocked(x2, v2, |v.steps| - 1);
    ServesOn(x1, x2, x, true, true);
    var m := Undoing(|v.steps| - 1, |v.steps| - 1, UndoBlocked);
    ViewIsStored(x.world.db, v');
    LinkedNames(v', |v.steps| - 1);
    LetterAt(v', m, |v.steps| - 1);
    BlockedLetter(m);
    NotCompensated(v');
    LateTriggerStrikes(x, v', m, |v.steps| - 1, CompensationBlocked);
  }

  lemma BlockedLetter(m: Position)
    requires m.Undoing? && m.undo.UndoBlocked?
    ensures Letter(m, m.i) == CompensationBlocked
  {
  }

  /** The compensation of the last step is requested, fails, and is given up. */
  lemma LastStepIsBlocked(x: Service, v: View, k: nat) returns (x': Service, v': View)
    requires ServiceFits(x) && IsOpenView(x, v, Undoing(k, k, UndoCandidate)) && v.saga.state.SagaRunning?
    requires |v.steps| == k + 1 && ChildrenSettled(x.world.db, v.saga.id)
    ensures ServesTo(x, x', true) && ServiceFits(x') && IsView(x'.world.db, v') && Inv(v', Undoing(k, k, UndoBlocked))
    ensures v'.saga.stepIds == v.saga.stepIds && |v'.steps| == |v.steps| && v'.saga.state.SagaBlocked?
    ensures v'.steps[k].id in x'.fired
  {
    hide *;
    ChildrenOrCommit(x, v, Undoing(k, k, UndoCandidate), 0);
    UndoGoesOn(k, v.saga.state);
    var x1, v1, m1 := RoundIsServed(x, v, Undoing(k, k, UndoCandidate), 0);
    BringsAView(x, x1, v, v1, m1);
    var x2, v2 := CompensationFails(x1, v1, k);
    BlockingIsPossible(v2, Undoing(k, k, UndoFailed));
    x' := DrivenRound(x2, v2, Undoing(k, k, UndoFailed), [Block(k)], k);
    v' := ApplyAll(v2, [Block(k)]);
    BringsAView(x2, x', v2, v', NextAll(Undoing(k, k, UndoFailed), [Block(k)], k + 1));
    BlockingLeads(k);
    SameIdsOverRun(v2, [Block(k)]);
    TendsOn(x, x1, x2, v.saga.id);
    TendsOn(x, x2, x', v.saga.id);
    TendsMeans(x, x', v.saga.id);
  }

  lemma UndoGoesOn(k: nat, s: SagaState)
    ensures !Arrived(Undoing(k, k, UndoCandidate), k + 1, 0)
    ensures AfterRound(Undoing(k, k, UndoCandidate), s, k + 1, 0) == Undoing(k, k, UndoRunning)
    ensures StateAfterRound(Undoing(k, k, UndoCandidate), s, k + 1) == s
  {
  }

  lemma BlockingLeads(k: nat)
    ensures NextAll(Undoing(k, k, UndoFailed), [Block(k)], k + 1) == Undoing(k, k, UndoBlocked)
  {
    assert [Block(k)][1..] == [];
  }

  lemma CompensationFails(x: Service, v: View, k: nat) returns (x': Service, v': View)
    requires ServiceFits(x) && IsOpenView(x, v, Undoing(k, k, UndoRunning)) && v.saga.state.SagaRunning?
    requires |v.steps| == k + 1
    ensures Tends(x, x', v.saga.id) && ServiceFits(x') && IsView(x'.world.db, v') && Inv(v', Undoing(k, k, UndoFailed))
    ensures v'.saga.id == v.saga.id && v'.saga.stepIds == v.saga.stepIds && |v'.steps| == |v.steps|
    ensures v'.saga.state.SagaRunning? && v'.steps[k].id in x'.fired
  {
    hide *;
    var a := Receive(k, StatusFailed, map[], 1);
    OpenViewMeans(x, v, Undoing(k, k, UndoRunning));
    UndoFailureIsPossible(v, k);
    AwaitingPhase();
    WaitingWasRequested(x, v, Undoing(k, k, UndoRunning));
    x' := ResultRound(x, v, Undoing(k, k, UndoRunning), a);
    v' := ApplyAll(v, [a]);
    SameIdsOverRun(v, [a]);
    BringsAView(x, x', v, v', NextAll(Undoing(k, k, UndoRunning), [a], k + 1));
  }

  lemma AwaitingPhase()
    ensures AwaitsResult(UndoRunning)
  {
  }

  lemma UndoFailureIsPossible(v: View, k: nat)
    requires Inv(v, Undoing(k, k, UndoRunning)) && |v.steps| == k + 1 && v.saga.state.SagaRunning?
    ensures var a := Receive(k, StatusFailed, map[], 1);
      && Enabled(v, a) && a.Receive? && a.i == k && EnabledAll(v, [a]) && ApplyAll(v, [a]).saga.state.SagaRunning?
      && NextAll(Undoing(k, k, UndoRunning), [a], k + 1) == Undoing(k, k, UndoFailed)
  {
    var a := Receive(k, StatusFailed, map[], 1);
    LetterAt(v, Undoing(k, k, UndoRunning), k);
    OneAction(v, a);
    StatesFollow(v, Undoing(k, k, UndoRunning), a);
    assert [a][1..] == [];
  }
}
