/**
 * The invariant of the whole store: every saga spells a position of the machine, its requests are
 * on the bus before they are marked sent, and children keep step with the parents that spawned them.
 */
module Invariants {
  import opened Types
  import opened Transitions
  import opened Inputs
  import opened Machine

  // ----- requests -----

  predicate IsRequestFor(r: Request, row: StepInstance, isCompensation: bool) {
    r.stepId == row.id && r.isCompensation == isCompensation
  }

  /** A log marked as sent was published; a step with a published request has the log of that request. */
  ghost predicate RowPublished(row: StepInstance, bus: seq<Request>) {
    && (forall k :: 0 <= k < |row.history| && row.history[k].requestSentTs > 0 ==>
          exists r :: r in bus && IsRequestFor(r, row, row.history[k].isCompensation))
    && (forall r :: r in bus && r.stepId == row.id ==> |row.history| >= (if r.isCompensation then 2 else 1))
  }

  ghost predicate Published(v: View, bus: seq<Request>) {
    forall j :: 0 <= j < |v.steps| ==> RowPublished(v.steps[j], bus)
  }

  /** The bus gained nothing, or one request of the kind step i is waiting to send. */
  predicate BusGrew(bus: seq<Request>, bus': seq<Request>, v: View, i: nat)
    requires i < |v.steps|
  {
    bus' == bus || OneRequestMore(bus, bus', v, i)
  }

  predicate OneRequestMore(bus: seq<Request>, bus': seq<Request>, v: View, i: nat)
    requires i < |v.steps|
  {
    |bus'| == |bus| + 1 && bus' == bus + [bus'[|bus|]] && PendingRequest(bus'[|bus|], v, i)
  }

  /** The request step i is waiting to send. */
  predicate PendingRequest(r: Request, v: View, i: nat)
    requires i < |v.steps|
  {
    && Addresses(r, v.saga, v.steps[i]) && CarriesInput(r, v, i)
    && (if r.isCompensation then v.steps[i].state.CompensationRunning? else v.steps[i].state.ExecutionRunning?)
  }

  /** The request carries what the step is to see; a compensation falls back on the saga input. */
  predicate CarriesInput(r: Request, v: View, i: nat)
    requires i < |v.steps|
  {
    if r.isCompensation then r.input == CompensationInput(v, i) || r.input == v.saga.input
    else r.input == ForwardInput(v, i)
  }

  // ----- parents and children -----

  /** The step has entered compensation-running or gone beyond it. */
  predicate UndoStarted(s: StepState) {
    s.CompensationRunning? || s.CompensationSucceeded? || s.CompensationFailed? || s.CompensationBlocked?
        || s.CompensationDone?
  }

  /** The step was never executed. */
  predicate NeverRan(s: StepState) {
    s.ExecutionPending? || s.ExecutionCandidate? || s.ExecutionAborted?
  }

  /** A child hangs off a step that ran; once that step's compensation has started the child is compensated. */
  ghost predicate ChildKeepsStep(db: Db, child: SagaInstance) {
    child.parentId != "" ==>
      && child.parentId in db.sagas
      && child.parentStepId in db.steps
      && db.steps[child.parentStepId].sagaId == child.parentId
      && !NeverRan(db.steps[child.parentStepId].state)
      && (UndoStarted(db.steps[child.parentStepId].state) ==> child.state.SagaCompensated?)
  }

  // ----- the whole store -----

  ghost predicate SagaFits(db: Db, sid: string, bus: seq<Request>) {
    exists v: View, m: Position :: v.saga.id == sid && IsView(db, v) && Inv(v, m) && Published(v, bus)
  }

  ghost predicate DbInv(db: Db, bus: seq<Request>) {
    && Keyed(db)
    && (forall sid :: sid in db.sagas ==> SagaFits(db, sid, bus))
    && (forall id :: id in db.steps ==> db.steps[id].sagaId in db.sagas)
    && (forall s :: s in db.sagas ==> ChildKeepsStep(db, db.sagas[s]))
  }

  // ----- one saga -----

  /** How far an action can take any one step. */
  lemma StepsOnlyProgress(v: View, m: Position, a: Action, j: nat)
    requires Inv(v, m) && Enabled(v, a) && j < |v.steps|
    ensures j < |Apply(v, a).steps|
    ensures var s, s' := v.steps[j].state, Apply(v, a).steps[j].state;
      && (UndoStarted(s) ==> UndoStarted(s'))
      && (UndoStarted(s') && !UndoStarted(s) ==> a.StartCompensation? && a.i == j)
      && (NeverRan(s') ==> NeverRan(s))
  {
    hide Apply, Enabled, Inv, Next, Letter;
    ActionRefinesMachine(v, m, a);
    ApplyKeepsLength(v, a);
    LetterAt(v, m, j);
    LetterAt(Apply(v, a), Next(m, a, |v.steps|), j);
    MachineOnlyProgresses(m, v.saga.state, a, |v.steps|, j);
  }

  lemma MachineOnlyProgresses(m: Position, s: SagaState, a: Action, n: nat, j: nat)
    requires Fits(m, n) && j < n && Permits(m, s, a)
    ensures var s, s' := Letter(m, j), Letter(Next(m, a, n), j);
      && (UndoStarted(s) ==> UndoStarted(s'))
      && (UndoStarted(s') && !UndoStarted(s) ==> a.StartCompensation? && a.i == j)
      && (NeverRan(s') ==> NeverRan(s))
  {
  }

  /** Nothing but marking it invalid can move a compensated saga. */
  lemma CompensatedIsAbsorbing(v: View, m: Position, a: Action)
    requires Inv(v, m) && Enabled(v, a) && v.saga.state.SagaCompensated? && !a.Invalidate?
    ensures a.Idle?
  {
    EnabledActionsArePermitted(v, m, a);
    assert |v.steps| > 0;
  }

  /** What an action can do to a row's history: extend it by an unsent log, or rework its last log. */
  predicate HistoryGrows(row: StepInstance, row': StepInstance, sends: bool) {
    && row'.id == row.id
    && |row.history| <= |row'.history| <= |row.history| + 1
    && (|row'.history| > |row.history| ==> row'.history[|row.history|].requestSentTs == 0)
    && (forall k :: 0 <= k < |row.history| ==> row'.history[k].isCompensation == row.history[k].isCompensation)
    && (forall k :: 0 <= k < |row.history| && row'.history[k].requestSentTs != row.history[k].requestSentTs ==>
          sends && k == |row.history| - 1)
  }

  predicate WritesHistory(a: Action) {
    a.Start? || a.Send? || a.TimeOutExecution? || a.StartCompensation? || a.TimeOutCompensation? || a.Receive?
  }

  lemma OtherActionsKeepHistory(v: View, a: Action, j: nat)
    requires Enabled(v, a) && j < |v.steps| && !WritesHistory(a)
    ensures j < |Apply(v, a).steps| && HistoryGrows(v.steps[j], Apply(v, a).steps[j], false)
  {
    OtherActionsWriteNoHistory(v, a, j);
    hide Apply, Enabled;
  }

  lemma OtherActionsWriteNoHistory(v: View, a: Action, j: nat)
    requires Enabled(v, a) && j < |v.steps| && !WritesHistory(a)
    ensures j < |Apply(v, a).steps|
    ensures Apply(v, a).steps[j].id == v.steps[j].id && Apply(v, a).steps[j].history == v.steps[j].history
  {
  }

  lemma ActionsGrowHistory(v: View, a: Action, j: nat)
    requires Enabled(v, a) && j < |v.steps| && WritesHistory(a)
    ensures j < |Apply(v, a).steps|
    ensures HistoryGrows(v.steps[j], Apply(v, a).steps[j], a.Send? && a.i == j)
  {
  }

  lemma RowKeepsPublished(row: StepInstance, row': StepInstance, bus: seq<Request>, bus': seq<Request>, sends: bool)
    requires RowPublished(row, bus) && HistoryGrows(row, row', sends)
    requires bus' == bus || (|bus'| == |bus| + 1 && bus' == bus + [bus'[|bus|]])
    requires bus' != bus && bus'[|bus|].stepId == row.id ==>
      |row.history| >= (if bus'[|bus|].isCompensation then 2 else 1)
    requires sends ==> bus' != bus && row.history != []
    requires sends ==> IsRequestFor(bus'[|bus|], row, row.history[|row.history| - 1].isCompensation)
    ensures RowPublished(row', bus')
  {
    assert forall r :: r in bus ==> r in bus';
    forall k | 0 <= k < |row'.history| && row'.history[k].requestSentTs > 0
      ensures exists r :: r in bus' && IsRequestFor(r, row', row'.history[k].isCompensation)
    {
      assert k < |row.history|;
      if row'.history[k].requestSentTs != row.history[k].requestSentTs {
        assert bus'[|bus|] in bus' && IsRequestFor(bus'[|bus|], row', row'.history[k].isCompensation);
      } else {
        var r :| r in bus && IsRequestFor(r, row, row.history[k].isCompensation);
        assert r in bus' && IsRequestFor(r, row', row'.history[k].isCompensation);
      }
    }
  }

  lemma ActionKeepsRowPublished(v: View, m: Position, a: Action, bus: seq<Request>, bus': seq<Request>, i: nat, j: nat)
    requires Inv(v, m) && Enabled(v, a) && Published(v, bus) && i < |v.steps| && j < |v.steps|
    requires Target(a).Some? ==> Target(a).value == i
    requires BusGrew(bus, bus', v, i)
    requires a.Send? ==> bus' != bus
    requires v.steps[j].id == v.steps[i].id ==> j == i
    ensures j < |Apply(v, a).steps| && RowPublished(Apply(v, a).steps[j], bus')
  {
    hide *;
    EveryHistoryGrows(v, a, j);
    RowFits(v, m, bus, j);
    RowFits(v, m, bus, i);
    ApplyKeepsLength(v, a);
    PendingRequestFits(bus, bus', v, i);
    RowKeepsPublished(v.steps[j], Apply(v, a).steps[j], bus, bus', a.Send? && a.i == j);
  }

  lemma EveryHistoryGrows(v: View, a: Action, j: nat)
    requires Enabled(v, a) && j < |v.steps|
    ensures HistoryGrows(v.steps[j], Apply(v, a).steps[j], a.Send? && a.i == j)
    ensures a.Send? ==> Target(a) == Some(a.i)
  {
    hide Apply, Enabled;
    if WritesHistory(a) {
      ActionsGrowHistory(v, a, j);
    } else {
      OtherActionsKeepHistory(v, a, j);
    }
  }

  lemma RowFits(v: View, m: Position, bus: seq<Request>, j: nat)
    requires Inv(v, m) && Published(v, bus) && j < |v.steps|
    ensures HistoryFits(v.steps[j]) && RowPublished(v.steps[j], bus)
  {
  }

  /** A request the active step is waiting to send matches the log it will be recorded in. */
  lemma PendingRequestFits(bus: seq<Request>, bus': seq<Request>, v: View, i: nat)
    requires i < |v.steps| && HistoryFits(v.steps[i]) && BusGrew(bus, bus', v, i)
    ensures bus' == bus || (|bus'| == |bus| + 1 && bus' == bus + [bus'[|bus|]])
    ensures bus' != bus ==>
      var r := bus'[|bus|]; var row := v.steps[i];
      && r.stepId == row.id && |row.history| == (if r.isCompensation then 2 else 1)
      && IsRequestFor(r, row, row.history[|row.history| - 1].isCompensation)
  {
  }

  /** The saga an action is performed on stays in shape. */
  lemma ActionKeepsSaga(v: View, m: Position, a: Action, bus: seq<Request>, bus': seq<Request>, i: nat)
    requires Linked(v) && Inv(v, m) && Enabled(v, a) && Published(v, bus) && i < |v.steps|
    requires Target(a).Some? ==> Target(a).value == i
    requires BusGrew(bus, bus', v, i)
    requires a.Send? ==> bus' != bus
    ensures Inv(Apply(v, a), Next(m, a, |v.steps|)) && Published(Apply(v, a), bus')
  {
    ActionRefinesMachine(v, m, a);
    ApplyKeepsLength(v, a);
    forall j | 0 <= j < |v.steps| ensures RowPublished(Apply(v, a).steps[j], bus') {
      if v.steps[j].id == v.steps[i].id {
        LinkedIdsDistinct(v, j, i);
      }
      ActionKeepsRowPublished(v, m, a, bus, bus', i, j);
    }
  }

  lemma LinkedIdsDistinct(v: View, j: nat, k: nat)
    requires Linked(v) && j < |v.steps| && k < |v.steps| && v.steps[j].id == v.steps[k].id
    ensures j == k
  {
    assert v.saga.stepIds[j] == v.saga.stepIds[k];
  }

  // ----- the whole store -----

  /** One move of saga v in store db: what a handler call did to the tables and to the bus. */
  ghost predicate LegalMove(db: Db, db': Db, bus: seq<Request>, bus': seq<Request>, v: View, a: Action, i: nat) {
    && IsView(db, v) && i < |v.steps| && Enabled(v, a)
    && (Target(a).Some? ==> Target(a).value == i)
    && Moved(db, db', v, a, v.steps[i].id)
    && BusGrew(bus, bus', v, i)
    && (a.Send? ==> bus' != bus)
    && (a.Invalidate? ==> !v.saga.state.SagaCompensated?)
  }

  lemma IdentityUnderMove(db: Db, db': Db, bus: seq<Request>, bus': seq<Request>, v: View, a: Action, i: nat)
    requires LegalMove(db, db', bus, bus', v, a, i)
    ensures db'.sagas.Keys == db.sagas.Keys && db'.steps.Keys == db.steps.Keys
    ensures forall id :: id in db.steps ==> db'.steps[id].sagaId == db.steps[id].sagaId
    ensures forall s :: s in db.sagas ==>
      db'.sagas[s].id == db.sagas[s].id && db'.sagas[s].parentId == db.sagas[s].parentId
      && db'.sagas[s].parentStepId == db.sagas[s].parentStepId
    ensures Keyed(db) ==> Keyed(db')
  {
    ApplyKeepsIdentity(v, a);
    hide Apply, Enabled, Linked;
  }

  /** A committed saga that was asked to compensate still fits. */
  lemma RequestedSagaFits(db: Db, db': Db, w: View, m: Position)
    requires IsView(db, w) && Inv(w, m) && w.saga.state.SagaCommitted?
    requires db'.steps == db.steps && w.saga.id in db'.sagas
    requires db'.sagas[w.saga.id] == w.saga.(state := SagaCompensationRequested)
    ensures IsView(db', w.(saga := db'.sagas[w.saga.id])) && Inv(w.(saga := db'.sagas[w.saga.id]), m)
  {
  }

  lemma OthersKeepFitting(db: Db, db': Db, bus: seq<Request>, bus': seq<Request>, v: View, a: Action, i: nat, s: string)
    requires LegalMove(db, db', bus, bus', v, a, i) && SagaFits(db, s, bus) && s in db.sagas && s != v.saga.id
    ensures SagaFits(db', s, bus')
  {
    hide Enabled, Apply;
    var w: View, m: Position :| w.saga.id == s && IsView(db, w) && Inv(w, m) && Published(w, bus);
    hide Inv, Published, IsView;
    OtherRequestsKeepPublished(db, bus, bus', v, i, w);
    if a.Idle? {
      ChildrenKeepFitting(db, db', bus', v.saga.id, v.steps[i].id, w, m);
    } else {
      MovesOnlyInside(db, db', v, a, v.steps[i].id);
      hide *;
      OutsideKeepsView(db, db', v.saga.id, w);
      FitsBy(db', s, bus', w, m);
    }
  }

  lemma FitsBy(db: Db, s: string, bus: seq<Request>, w: View, m: Position)
    requires w.saga.id == s && IsView(db, w) && Inv(w, m) && Published(w, bus)
    ensures SagaFits(db, s, bus)
  {
  }

  lemma MovesOnlyInside(db: Db, db': Db, v: View, a: Action, stepId: string)
    requires Enabled(v, a) && Moved(db, db', v, a, stepId) && !a.Idle?
    ensures SameOutside(db, db', v.saga.id)
  {
    ApplyKeepsIdentity(v, a);
    hide Apply, Enabled;
  }

  /** A saga that is asked to compensate, or is not, fits as before. */
  lemma ChildrenKeepFitting(db: Db, db': Db, bus: seq<Request>, parent: string, stepId: string, w: View, m: Position)
    requires ChildrenRequested(db, db', parent, stepId) && IsView(db, w) && Inv(w, m) && Published(w, bus)
    ensures SagaFits(db', w.saga.id, bus)
  {
    hide Inv, Published;
    var s := w.saga.id;
    if db'.sagas[s] == db.sagas[s] {
      assert IsView(db', w);
      FitsBy(db', s, bus, w, m);
    } else {
      RequestedSagaFits(db, db', w, m);
      PublishedIgnoresSaga(w, db'.sagas[s], bus);
      hide *;
      FitsBy(db', s, bus, w.(saga := db'.sagas[s]), m);
    }
  }

  lemma PublishedIgnoresSaga(w: View, saga: SagaInstance, bus: seq<Request>)
    requires Published(w, bus)
    ensures Published(w.(saga := saga), bus)
  {
  }

  lemma OtherRequestsKeepPublished(db: Db, bus: seq<Request>, bus': seq<Request>, v: View, i: nat, w: View)
    requires IsView(db, v) && IsView(db, w) && w.saga.id != v.saga.id && i < |v.steps|
    requires BusGrew(bus, bus', v, i) && Published(w, bus)
    ensures Published(w, bus')
  {
    forall j | 0 <= j < |w.steps| ensures RowPublished(w.steps[j], bus') {
      assert RowPublished(w.steps[j], bus);
      assert w.steps[j].sagaId == w.saga.id && v.steps[i].sagaId == v.saga.id;
      assert w.steps[j].id != v.steps[i].id;
      hide IsView;
      if bus' != bus {
        RowKeepsPublished(w.steps[j], w.steps[j], bus, bus', false);
      }
    }
  }

  /** The state of the step a child hangs off, before and after a move. */
  lemma ParentStepProgresses(db: Db, db': Db, bus: seq<Request>, bus': seq<Request>, v: View, m: Position, a: Action,
      i: nat, q: string)
    requires LegalMove(db, db', bus, bus', v, a, i) && Inv(v, m) && q in db.steps
    ensures q in db'.steps
    ensures var s, s' := db.steps[q].state, db'.steps[q].state;
      && (UndoStarted(s) ==> UndoStarted(s'))
      && (NeverRan(s') ==> NeverRan(s))
      && (UndoStarted(s') && !UndoStarted(s) ==>
            a.StartCompensation? && db.steps[q].sagaId == v.saga.id && q == v.steps[i].id)
  {
    assert a.StartCompensation? ==> a.i == i;
    hide Apply, Enabled, Inv, IsView, BusGrew, ChildrenRequested;
    LegalMoveHasView(db, db', bus, bus', v, a, i);
    if !a.Idle? && db.steps[q].sagaId == v.saga.id {
      MovedHasView(db, db', v, a, v.steps[i].id);
      OwnStepProgresses(db, db', v, m, a, q);
    } else {
      OtherStepsStay(db, db', v, a, v.steps[i].id, q);
    }
  }

  lemma OtherStepsStay(db: Db, db': Db, v: View, a: Action, stepId: string, q: string)
    requires Enabled(v, a) && Moved(db, db', v, a, stepId) && q in db.steps
    requires a.Idle? || db.steps[q].sagaId != v.saga.id
    ensures q in db'.steps && db'.steps[q] == db.steps[q]
  {
    ApplyKeepsIdentity(v, a);
    hide Apply, Enabled;
  }

  lemma OwnStepProgresses(db: Db, db': Db, v: View, m: Position, a: Action, q: string)
    requires IsView(db, v) && Inv(v, m) && Enabled(v, a) && IsView(db', Apply(v, a))
    requires q in db.steps && db.steps[q].sagaId == v.saga.id
    ensures q in db'.steps
    ensures var s, s' := db.steps[q].state, db'.steps[q].state;
      && (UndoStarted(s) ==> UndoStarted(s'))
      && (NeverRan(s') ==> NeverRan(s))
      && (UndoStarted(s') && !UndoStarted(s) ==> a.StartCompensation? && a.i < |v.steps| && q == v.steps[a.i].id)
  {
    var j := StepAt(db, v, q);
    StepsOnlyProgress(v, m, a, j);
    ApplyKeepsIdentity(v, a);
    hide Apply, Enabled, Inv, Linked, UndoStarted, NeverRan;
    assert db'.steps[Apply(v, a).steps[j].id] == Apply(v, a).steps[j];
  }

  lemma StepAt(db: Db, v: View, q: string) returns (j: nat)
    requires IsView(db, v) && q in db.steps && db.steps[q].sagaId == v.saga.id
    ensures j < |v.steps| && v.steps[j].id == q && db.steps[q] == v.steps[j]
  {
    j :| 0 <= j < |v.saga.stepIds| && v.saga.stepIds[j] == q;
    assert v.steps[j].id == q;
  }

  lemma ChildrenKeepStep(db: Db, db': Db, bus: seq<Request>, bus': seq<Request>, v: View, m: Position, a: Action,
      i: nat, s: string)
    requires LegalMove(db, db', bus, bus', v, a, i) && Inv(v, m) && Keyed(db)
    requires s in db.sagas && ChildKeepsStep(db, db.sagas[s])
    ensures s in db'.sagas && ChildKeepsStep(db', db'.sagas[s])
  {
    IdentityUnderMove(db, db', bus, bus', v, a, i);
    var child := db.sagas[s];
    if child.parentId != "" {
      ParentStepProgresses(db, db', bus, bus', v, m, a, i, child.parentStepId);
      if child.state.SagaCompensated? {
        CompensatedStays(db, db', bus, bus', v, m, a, i, s);
      }
      hide Apply, Enabled, Inv, IsView, SameOutside;
      assert a.StartCompensation? ==> AllChildrenCompensated(db, v.saga.id, v.steps[i].id);
    }
  }

  /** A compensated saga stays compensated whatever any saga does. */
  lemma CompensatedStays(db: Db, db': Db, bus: seq<Request>, bus': seq<Request>, v: View, m: Position, a: Action,
      i: nat, s: string)
    requires LegalMove(db, db', bus, bus', v, a, i) && Inv(v, m)
    requires s in db.sagas && db.sagas[s].state.SagaCompensated?
    ensures s in db'.sagas && db'.sagas[s] == db.sagas[s]
  {
    if s == v.saga.id {
      CompensatedIsAbsorbing(v, m, a);
    }
    hide Apply, Enabled, Inv, IsView;
    MovesKeepCompensated(db, db', v, a, v.steps[i].id, s);
  }

  lemma MovesKeepCompensated(db: Db, db': Db, v: View, a: Action, stepId: string, s: string)
    requires Enabled(v, a) && Moved(db, db', v, a, stepId) && Apply(v, a).saga.id == v.saga.id
    requires s in db.sagas && db.sagas[s].state.SagaCompensated? && (s == v.saga.id ==> a.Idle?)
    ensures s in db'.sagas && db'.sagas[s] == db.sagas[s]
  {
    hide Apply, Enabled, IsView;
  }

  /** The position the invariant grants a saga. */
  lemma PositionOf(db: Db, bus: seq<Request>, v: View) returns (m: Position)
    requires DbInv(db, bus) && IsView(db, v)
    ensures Inv(v, m) && Published(v, bus)
  {
    hide Inv, Published;
    assert SagaFits(db, v.saga.id, bus);
    var w: View, k: Position :| w.saga.id == v.saga.id && IsView(db, w) && Inv(w, k) && Published(w, bus);
    ViewIsUnique(db, v, w);
    m := k;
  }

  lemma OwnSagaFits(db: Db, db': Db, bus: seq<Request>, bus': seq<Request>, v: View, m: Position, a: Action, i: nat)
    requires LegalMove(db, db', bus, bus', v, a, i) && Inv(v, m) && Published(v, bus)
    ensures SagaFits(db', v.saga.id, bus')
  {
    ActionKeepsSaga(v, m, a, bus, bus', i);
    ApplyKeepsIdentity(v, a);
    hide Enabled, Inv, Published;
    assert IsView(db', Apply(v, a)) && Apply(v, a).saga.id == v.saga.id;
  }

  lemma EverySagaKeepsFitting(db: Db, db': Db, bus: seq<Request>, bus': seq<Request>, v: View, m: Position, a: Action,
      i: nat, s: string)
    requires LegalMove(db, db', bus, bus', v, a, i) && Inv(v, m) && Published(v, bus) && Keyed(db)
    requires s in db.sagas && SagaFits(db, s, bus) && ChildKeepsStep(db, db.sagas[s])
    ensures s in db'.sagas && SagaFits(db', s, bus') && ChildKeepsStep(db', db'.sagas[s])
  {
    hide *;
    ChildrenKeepStep(db, db', bus, bus', v, m, a, i, s);
    if s == v.saga.id {
      OwnSagaFits(db, db', bus, bus', v, m, a, i);
    } else {
      OthersKeepFitting(db, db', bus, bus', v, a, i, s);
    }
  }

  lemma LegalMoveHasView(db: Db, db': Db, bus: seq<Request>, bus': seq<Request>, v: View, a: Action, i: nat)
    requires LegalMove(db, db', bus, bus', v, a, i)
    ensures IsView(db, v)
  {
  }

  lemma DbInvAt(db: Db, bus: seq<Request>)
    requires DbInv(db, bus)
    ensures Keyed(db)
    ensures forall s :: s in db.sagas ==> SagaFits(db, s, bus) && ChildKeepsStep(db, db.sagas[s])
    ensures forall id :: id in db.steps ==> db.steps[id].sagaId in db.sagas
  {
    hide SagaFits, ChildKeepsStep;
  }

  lemma DbInvFrom(db: Db, bus: seq<Request>)
    requires Keyed(db)
    requires forall s :: s in db.sagas ==> SagaFits(db, s, bus) && ChildKeepsStep(db, db.sagas[s])
    requires forall id :: id in db.steps ==> db.steps[id].sagaId in db.sagas
    ensures DbInv(db, bus)
  {
    hide SagaFits, ChildKeepsStep;
  }

  /** Every legal move keeps the invariant of the whole store. */
  lemma MoveKeepsDbInv(db: Db, db': Db, bus: seq<Request>, bus': seq<Request>, v: View, a: Action, i: nat)
    requires DbInv(db, bus) && LegalMove(db, db', bus, bus', v, a, i)
    ensures DbInv(db', bus')
  {
    hide *;
    LegalMoveHasView(db, db', bus, bus', v, a, i);
    var m := PositionOf(db, bus, v);
    DbInvAt(db, bus);
    IdentityUnderMove(db, db', bus, bus', v, a, i);
    forall s | s in db'.sagas ensures SagaFits(db', s, bus') && ChildKeepsStep(db', db'.sagas[s]) {
      EverySagaKeepsFitting(db, db', bus, bus', v, m, a, i, s);
    }
    DbInvFrom(db', bus');
  }

  /** One call of the step processor on a store in shape leaves it in shape. */
  lemma ProcessedKeepsDbInv(db: Db, db': Db, bus: seq<Request>, bus': seq<Request>, v: View, a: Action, i: nat)
    requires DbInv(db, bus) && IsView(db, v) && i < |v.steps| && Enabled(v, a)
    requires Target(a).Some? ==> Target(a).value == i
    requires Moved(db, db', v, a, v.steps[i].id) && BusGrew(bus, bus', v, i)
    requires a.Send? ==> bus' != bus
    requires a.Invalidate? ==> !ChecksPass(v, i)
    requires v.saga.state.SagaCompensated? ==> !v.steps[i].state.ExecutionAborted?
    ensures LegalMove(db, db', bus, bus', v, a, i)
    ensures DbInv(db', bus') && IsView(db', Apply(v, a))
    ensures a.Invalidate? ==> Unprocessable(v.steps[i].state)
    ensures HistoryFits(v.steps[i])
  {
    var m := PositionOf(db, bus, v);
    InvalidOnlyWhenUnprocessable(v, m, i);
    MovedHasView(db, db', v, a, v.steps[i].id);
    hide Enabled, Apply, DbInv, IsView, Inv, Moved, BusGrew;
    MoveKeepsDbInv(db, db', bus, bus', v, a, i);
  }

  lemma InvalidOnlyWhenUnprocessable(v: View, m: Position, i: nat)
    requires Inv(v, m) && i < |v.steps|
    ensures ChecksPass(v, i) <==> !Unprocessable(v.steps[i].state)
    ensures HistoryFits(v.steps[i])
    ensures v.saga.state.SagaCompensated? ==> v.steps[i].state.CompensationDone? || v.steps[i].state.ExecutionAborted?
  {
    hide ChecksPass;
    ChecksPassInShape(v, m, i);
    assert v.steps[i].state == Letter(m, i);
  }

  lemma MovedHasView(db: Db, db': Db, v: View, a: Action, stepId: string)
    requires Enabled(v, a) && Moved(db, db', v, a, stepId)
    ensures IsView(db', Apply(v, a))
  {
  }
}
