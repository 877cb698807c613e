/**
 * The requests on the bus over whole runs: whatever has happened since one was published, it names the
 * execution that its step's row records and carries what the step is to see by the rows as they are.
 */
module Requests {
  import opened Types
  import opened Transitions
  import opened Inputs
  import opened Machine
  import opened Invariants
  import opened Runs
  import opened StoreRuns

  /** The request belongs to step i of v: to its execution, and with its input. */
  predicate IsMessage(r: Request, v: View, i: nat)
    requires i < |v.steps|
  {
    Addresses(r, v.saga, v.steps[i]) && CarriesInput(r, v, i)
  }

  ghost predicate FitsItsStep(w: World, r: Request) {
    forall v: View, i: nat :: IsView(w.db, v) && i < |v.steps| && v.steps[i].id == r.stepId ==> IsMessage(r, v, i)
  }

  ghost predicate MessagesFit(w: World) {
    forall r :: r in w.bus ==> FitsItsStep(w, r)
  }

  // ----- one action -----

  /** What a request for step j was built from is the same in w as in v. */
  predicate SameSources(v: View, w: View, j: nat, isCompensation: bool)
    requires j < |v.steps| == |w.steps|
  {
    && w.steps[j].executionId == v.steps[j].executionId
    && (forall l :: 0 <= l < j ==> w.steps[l].result == v.steps[l].result)
    && (isCompensation ==>
          && w.steps[j].result == v.steps[j].result
          && forall l :: j < l < |v.steps| ==> SameResults(w.steps[l], v.steps[l]))
  }

  /** A step that was sent a request: its results may have come, but those it was sent stay. */
  predicate WasAsked(row: StepInstance, isCompensation: bool) {
    |row.history| >= (if isCompensation then 2 else 1)
  }

  /** The steps before one that was sent a request are not running, and for a compensation those after it are undone. */
  lemma AskedPosition(v: View, m: Position, j: nat, isCompensation: bool)
    requires Inv(v, m) && j < |v.steps| && WasAsked(v.steps[j], isCompensation)
    ensures m.Forward? ==> j <= m.i && !isCompensation
    ensures m.Complete? ==> !isCompensation
    ensures m.Undoing? ==> j <= m.last && (isCompensation ==> m.i <= j)
    ensures m.Undone? ==> j <= m.last
  {
    LetterAt(v, m, j);
  }

  lemma ReceiptsKeepSources(v: View, m: Position, a: Action, j: nat, isCompensation: bool)
    requires Inv(v, m) && Enabled(v, a) && a.Receive? && j < |v.steps| && WasAsked(v.steps[j], isCompensation)
    ensures |Apply(v, a).steps| == |v.steps| && SameSources(v, Apply(v, a), j, isCompensation)
  {
    EnabledActionsArePermitted(v, m, a);
    AskedPosition(v, m, j, isCompensation);
    LetterAt(v, m, a.i);
  }

  lemma StartsKeepSources(v: View, m: Position, a: Action, j: nat, isCompensation: bool)
    requires Inv(v, m) && Enabled(v, a) && a.Start? && j < |v.steps| && WasAsked(v.steps[j], isCompensation)
    ensures |Apply(v, a).steps| == |v.steps| && SameSources(v, Apply(v, a), j, isCompensation)
  {
  }

  lemma TurnsKeepSources(v: View, m: Position, a: Action, j: nat, isCompensation: bool)
    requires Inv(v, m) && Enabled(v, a) && (a.Fail? || a.Initiate?) && j < |v.steps|
    requires WasAsked(v.steps[j], isCompensation)
    ensures |Apply(v, a).steps| == |v.steps| && SameSources(v, Apply(v, a), j, isCompensation)
  {
    EnabledActionsArePermitted(v, m, a);
    AskedPosition(v, m, j, isCompensation);
    hide FailureReason;
  }

  lemma EndsKeepSources(v: View, m: Position, a: Action, j: nat, isCompensation: bool)
    requires Inv(v, m) && Enabled(v, a) && a.FinishCompensation? && j < |v.steps|
    requires WasAsked(v.steps[j], isCompensation)
    ensures |Apply(v, a).steps| == |v.steps| && SameSources(v, Apply(v, a), j, isCompensation)
  {
    hide *;
    EndComesLater(v, m, a, j, isCompensation);
    EndRows(v, a);
    StatesDoNotMatter(v, Apply(v, a), j, isCompensation);
  }

  lemma EndComesLater(v: View, m: Position, a: Action, j: nat, isCompensation: bool)
    requires Inv(v, m) && Enabled(v, a) && a.FinishCompensation? && j < |v.steps|
    requires WasAsked(v.steps[j], isCompensation)
    ensures isCompensation ==> a.i <= j
  {
    EnabledActionsArePermitted(v, m, a);
    AskedPosition(v, m, j, isCompensation);
    hide Inv, Enabled;
  }

  lemma EndRows(v: View, a: Action)
    requires Enabled(v, a) && a.FinishCompensation?
    ensures var w := Apply(v, a);
      && |w.steps| == |v.steps|
      && (forall l :: 0 <= l < |v.steps| ==> w.steps[l] == v.steps[l].(state := w.steps[l].state))
      && (forall l :: a.i < l < |v.steps| ==> w.steps[l] == v.steps[l])
  {
    hide FinishCompensationGuard;
  }

  lemma StatesDoNotMatter(v: View, w: View, j: nat, isCompensation: bool)
    requires j < |v.steps| == |w.steps|
    requires forall l :: 0 <= l < |v.steps| ==> w.steps[l] == v.steps[l].(state := w.steps[l].state)
    requires isCompensation ==> forall l :: j < l < |v.steps| ==> w.steps[l] == v.steps[l]
    ensures SameSources(v, w, j, isCompensation)
  {
  }

  lemma StatesKeepSources(v: View, a: Action, j: nat, isCompensation: bool)
    requires Enabled(v, a) && j < |v.steps| && (a.Finish? || a.Block? || a.BlockExecution?)
    requires forall l :: 0 <= l < |v.steps| && Target(a) == Some(l) ==> !v.steps[l].state.CompensationDone?
    ensures |Apply(v, a).steps| == |v.steps| && SameSources(v, Apply(v, a), j, isCompensation)
  {
    if a.Finish? && a.i + 1 < |v.steps| {
      NextIsPending(v, a);
    }
    hide FinishGuard;
  }

  lemma NextIsPending(v: View, a: Action)
    requires a.Finish? && Enabled(v, a) && a.i + 1 < |v.steps|
    ensures v.steps[a.i + 1].state.ExecutionPending?
  {
  }

  lemma OthersKeepSources(v: View, a: Action, j: nat, isCompensation: bool)
    requires Enabled(v, a) && j < |v.steps|
    requires !a.Start? && !a.Receive? && !a.Fail? && !a.Initiate? && !a.FinishCompensation?
    requires !a.Finish? && !a.Block? && !a.BlockExecution?
    ensures |Apply(v, a).steps| == |v.steps| && SameSources(v, Apply(v, a), j, isCompensation)
  {
  }

  lemma TargetIsNotDone(v: View, m: Position, a: Action)
    requires Inv(v, m) && Enabled(v, a)
    ensures forall l :: 0 <= l < |v.steps| && Target(a) == Some(l) ==> !v.steps[l].state.CompensationDone?
  {
    EnabledActionsArePermitted(v, m, a);
    forall l | 0 <= l < |v.steps| && Target(a) == Some(l) ensures !v.steps[l].state.CompensationDone? {
      LetterAt(v, m, l);
    }
  }

  /** No action changes what a request was built from once it may have been published. */
  lemma ActionsKeepSources(v: View, m: Position, a: Action, j: nat, isCompensation: bool)
    requires Inv(v, m) && Enabled(v, a) && j < |v.steps| && WasAsked(v.steps[j], isCompensation)
    ensures |Apply(v, a).steps| == |v.steps| && SameSources(v, Apply(v, a), j, isCompensation)
  {
    hide *;
    if a.Start? {
      StartsKeepSources(v, m, a, j, isCompensation);
    } else if a.Receive? {
      ReceiptsKeepSources(v, m, a, j, isCompensation);
    } else if a.Fail? || a.Initiate? {
      TurnsKeepSources(v, m, a, j, isCompensation);
    } else if a.FinishCompensation? {
      EndsKeepSources(v, m, a, j, isCompensation);
    } else if a.Finish? || a.Block? || a.BlockExecution? {
      TargetIsNotDone(v, m, a);
      StatesKeepSources(v, a, j, isCompensation);
    } else {
      OthersKeepSources(v, a, j, isCompensation);
    }
  }

  lemma SourcesMakeInput(r: Request, v: View, w: View, j: nat)
    requires j < |v.steps| == |w.steps| && SameSources(v, w, j, r.isCompensation) && w.saga.input == v.saga.input
    ensures CarriesInput(r, w, j) <==> CarriesInput(r, v, j)
  {
    SameOverlay(v.saga.input, v.steps[..j], w.steps[..j]);
    if r.isCompensation {
      SameOverlay(v.saga.input, v.steps[..j+1], w.steps[..j+1]);
      SameCompensationOverlay(OverlayResults(v.saga.input, v.steps[..j+1]), v.steps[j+1..], w.steps[j+1..]);
    }
  }

  lemma ActionKeepsMessage(v: View, m: Position, a: Action, j: nat, r: Request)
    requires Inv(v, m) && Enabled(v, a) && j < |v.steps| && WasAsked(v.steps[j], r.isCompensation)
    requires IsMessage(r, v, j)
    ensures |Apply(v, a).steps| == |v.steps| && IsMessage(r, Apply(v, a), j)
  {
    ActionsKeepSources(v, m, a, j, r.isCompensation);
    ApplyKeepsIdentity(v, a);
    assert Addresses(r, v.saga, v.steps[j]) && SameSources(v, Apply(v, a), j, r.isCompensation);
    hide Inv, Enabled, Apply, CarriesInput;
    SourcesMakeInput(r, v, Apply(v, a), j);
    assert SameIdentity(Apply(v, a).steps[j], v.steps[j]);
  }

  // ----- the store -----

  /** The view that a store in shape has of a saga, with its position. */
  lemma ViewInShape(w: World, s: string) returns (x: View, m: Position)
    requires InShape(w) && s in w.db.sagas
    ensures x.saga.id == s && IsView(w.db, x) && Inv(x, m) && Published(x, w.bus)
  {
    DbInvAt(w.db, w.bus);
    hide InShape, DbInv, IsView, Inv, Published;
    assert SagaFits(w.db, s, w.bus);
    x, m :| x.saga.id == s && IsView(w.db, x) && Inv(x, m) && Published(x, w.bus);
  }

  lemma OldRequestWasAsked(w: World, x: View, m: Position, j: nat, r: Request)
    requires Inv(x, m) && Published(x, w.bus) && j < |x.steps| && r in w.bus && r.stepId == x.steps[j].id
    ensures WasAsked(x.steps[j], r.isCompensation)
  {
    RowFits(x, m, w.bus, j);
  }

  lemma NewRequestWasAsked(w: World, w': World, v: View, m: Position, a: Action, i: nat, r: Request)
    requires Moves(w, w', v, a, i) && Inv(v, m) && r in w'.bus && r !in w.bus
    ensures i < |v.steps| && WasAsked(v.steps[i], r.isCompensation) && IsMessage(r, v, i) && r.stepId == v.steps[i].id
  {
    hide *;
    MovesBasics(w, w', v, a, i);
    LetterAt(v, m, i);
    NewestRequest(w.bus, w'.bus, v, i, r);
  }

  lemma NewestRequest(bus: seq<Request>, bus': seq<Request>, v: View, i: nat, r: Request)
    requires i < |v.steps| && BusGrew(bus, bus', v, i) && HistoryFits(v.steps[i]) && r in bus' && r !in bus
    ensures WasAsked(v.steps[i], r.isCompensation) && IsMessage(r, v, i) && r.stepId == v.steps[i].id
  {
    hide CarriesInput;
    assert r == bus'[|bus|];
  }

  lemma MovesBasics(w: World, w': World, v: View, a: Action, i: nat)
    requires Moves(w, w', v, a, i)
    ensures i < |v.steps| && IsView(w.db, v) && Enabled(v, a) && BusGrew(w.bus, w'.bus, v, i)
    ensures w'.db.sagas.Keys == w.db.sagas.Keys
  {
    IdentityUnderMove(w.db, w'.db, w.bus, w'.bus, v, a, i);
    hide IsView, Enabled, BusGrew, Moved;
  }

  /** One step row belongs to one saga and has one place in it. */
  lemma OnePlace(db: Db, x: View, j: nat, v: View, i: nat)
    requires IsView(db, x) && IsView(db, v) && j < |x.steps| && i < |v.steps| && x.steps[j].id == v.steps[i].id
    ensures x == v && j == i
  {
    assert x.steps[j].sagaId == x.saga.id && v.steps[i].sagaId == v.saga.id;
    ViewIsUnique(db, x, v);
    StepIdsAreDistinct(db, v);
  }

  lemma MoveKeepsMessage(w: World, w': World, v: View, a: Action, i: nat, r: Request, x': View, j: nat)
    requires InShape(w) && Moves(w, w', v, a, i) && MessagesFit(w) && r in w'.bus
    requires IsView(w'.db, x') && j < |x'.steps| && x'.steps[j].id == r.stepId
    ensures IsMessage(r, x', j)
  {
    MovesBasics(w, w', v, a, i);
    assert x'.saga.id in w'.db.sagas;
    var x, m := ViewInShape(w, x'.saga.id);
    var b := MoveProjects(w, w', v, a, i, x);
    ApplyKeepsIdentity(x, b);
    ViewIsUnique(w'.db, x', Apply(x, b));
    assert SameIdentity(x'.steps[j], x.steps[j]);
    if r in w.bus {
      assert FitsItsStep(w, r);
      hide *;
      OldRequestWasAsked(w, x, m, j, r);
      ActionKeepsMessage(x, m, b, j, r);
    } else {
      hide *;
      var n := PositionIs(w, v);
      NewRequestWasAsked(w, w', v, n, a, i, r);
      OnePlace(w.db, x, j, v, i);
      ActionKeepsMessage(x, m, b, j, r);
    }
  }

  lemma PositionIs(w: World, v: View) returns (m: Position)
    requires InShape(w) && IsView(w.db, v)
    ensures Inv(v, m)
  {
    ShapeIs(w);
    hide *;
    m := PositionOf(w.db, w.bus, v);
  }

  lemma NewStepsAreUnasked(w: World, w': World, v: View, j: nat, r: Request)
    requires Registers(w, w', v) && j < |v.steps| && r in w'.bus
    ensures v.steps[j].id != r.stepId
  {
    assert v.steps[j].id == v.saga.stepIds[j];
  }

  lemma RegistrationKeepsMessage(w: World, w': World, v: View, r: Request, x': View, j: nat)
    requires InShape(w) && Registers(w, w', v) && MessagesFit(w) && r in w'.bus
    requires IsView(w'.db, x') && j < |x'.steps| && x'.steps[j].id == r.stepId
    ensures IsMessage(r, x', j)
  {
    RegistrationKeepsShape(w, w', v);
    if x'.saga.id == v.saga.id {
      ViewIsUnique(w'.db, x', v);
      hide InShape, MessagesFit, IsMessage, IsView;
      NewStepsAreUnasked(w, w', v, j, r);
    } else {
      NewOnes(w, w', v);
      assert x'.saga.id in w.db.sagas && r in w.bus;
      var x, m := ViewInShape(w, x'.saga.id);
      RegistrationIsOutside(w, w', v, x);
      ViewIsUnique(w'.db, x', x);
      assert FitsItsStep(w, r);
      hide InShape, IsView, IsMessage, Inv, Published, Registers;
    }
  }

  lemma StepKeepsMessages(w: World, w': World)
    requires InShape(w) && StepsTo(w, w', false) && MessagesFit(w)
    ensures MessagesFit(w')
  {
    hide LegalMove, Registers, InShape, MessagesFit, IsView, IsMessage;
    forall r, x': View, j: nat | r in w'.bus && IsView(w'.db, x') && j < |x'.steps| && x'.steps[j].id == r.stepId
      ensures IsMessage(r, x', j)
    {
      if v: View, a: Action, i: nat :| Moves(w, w', v, a, i) {
        MoveKeepsMessage(w, w', v, a, i, r, x', j);
      } else {
        var v: View :| Registers(w, w', v);
        RegistrationKeepsMessage(w, w', v, r, x', j);
      }
    }
    AllMessagesFit(w');
  }

  lemma AllMessagesFit(w: World)
    requires forall r, v: View, i: nat ::
      r in w.bus && IsView(w.db, v) && i < |v.steps| && v.steps[i].id == r.stepId ==> IsMessage(r, v, i)
    ensures MessagesFit(w)
  {
    hide IsView, IsMessage;
  }

  lemma {:induction false} PathKeepsMessages(path: seq<World>, k: nat)
    requires IsPath(path, false) && k < |path| && InShape(path[0]) && MessagesFit(path[0])
    ensures MessagesFit(path[k])
  {
    hide InShape, StepsTo, MessagesFit;
    if k > 0 {
      PathKeepsMessages(path, k - 1);
      PathKeepsShape(path, k - 1);
      StepKeepsMessages(path[k-1], path[k]);
    }
  }

  /**
   * In every store that comes about, each request on the bus is for a stored step and for the execution
   * on its row. An execution was sent, under every key, the last result of the steps before it as it is
   * stored now, else the saga input; a compensation the last compensation result of the steps after it,
   * else the last result up to its own, else the saga input, or the saga input alone.
   */
  lemma RequestsCarryTheResults(w: World, r: Request, v: View, i: nat)
    requires Reaches(EmptyWorld(), w) && r in w.bus && IsView(w.db, v) && i < |v.steps| && v.steps[i].id == r.stepId
    ensures r.sagaId == v.saga.id && r.executionId == v.steps[i].executionId
    ensures r.rootId == v.saga.rootId && r.depth == v.saga.depth
    ensures if r.isCompensation then SeesCompensations(r.input, v, i) || r.input == v.saga.input
            else SeesResults(r.input, v, i)
  {
    hide InShape, StepsTo, IsView, SeesResults, SeesCompensations;
    EmptyStoreIsInShape();
    var path :| IsPath(path, false) && path[0] == EmptyWorld() && path[|path| - 1] == w;
    PathKeepsMessages(path, |path| - 1);
    assert FitsItsStep(w, r);
    InputsSeeThat(v, i);
  }
}
