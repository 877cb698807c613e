/** The records, enumerations and tables shared by every part of the model. */
module Types {

  datatype Option<+T> = None | Some(value: T)

  /** Outcome of a lookup in the store: the row, its absence, or a failed query. */
  datatype Lookup<+T> = Found(value: T) | NotFound | QueryFailed

  datatype SagaState =
    | SagaRunning
    | SagaCommitted
    | SagaCompensated
    | SagaBlocked
    | SagaInvalidState
    | SagaCompensationRequested
    | SagaPaused
    | SagaCancelled

  datatype StepState =
    | ExecutionPending
    | ExecutionCandidate
    | ExecutionRunning
    | ExecutionSucceeded
    | ExecutionDone
    | ExecutionFailed
    | ExecutionBlocked
    | ExecutionAborted
    | CompensationPending
    | CompensationCandidate
    | CompensationRunning
    | CompensationSucceeded
    | CompensationDone
    | CompensationFailed
    | CompensationBlocked

  datatype ResultStatus =
    | StatusSuccess
    | StatusInExecution
    | StatusFailed
    | StatusRetry
    | StatusError
    | StatusUnknown

  type Data = map<string, string>

  datatype ExecutionLog = ExecutionLog(
    nextExecutionTs: int,
    requestSentTs: int,
    timeoutTs: int,
    resultReceivedTs: int,
    conclusionTs: int,
    result: Data,
    error: string,
    isCompensation: bool)

  datatype StepInstance = StepInstance(
    id: string,
    sagaId: string,
    templateId: string,
    prev: string,
    next: string,
    state: StepState,
    executionId: string,
    result: Data,
    compensationResult: Data,
    history: seq<ExecutionLog>)

  datatype SagaInstance = SagaInstance(
    id: string,
    templateId: string,
    state: SagaState,
    input: Data,
    stepIds: seq<string>,
    parentId: string,
    parentStepId: string,
    rootId: string,
    depth: int,
    compensationReason: string)

  /** An execution or compensation request put on the message bus. */
  datatype Request = Request(
    sagaId: string,
    stepId: string,
    isCompensation: bool,
    executionId: string,
    input: Data,
    rootId: string,
    depth: int)

  /** The two tables of one cluster, keyed by instance id. */
  datatype Db = Db(sagas: map<string, SagaInstance>, steps: map<string, StepInstance>)

  /** One saga together with its steps in execution order. */
  datatype View = View(saga: SagaInstance, steps: seq<StepInstance>)

  /** The request names the saga, the step and the execution on its row, and the saga's place in its hierarchy. */
  predicate Addresses(r: Request, saga: SagaInstance, row: StepInstance) {
    && r.sagaId == saga.id && r.stepId == row.id && r.executionId == row.executionId
    && r.rootId == saga.rootId && r.depth == saga.depth
  }

  /** A request for a step of a saga also carries the saga's place in its hierarchy. */
  function RequestFor(saga: SagaInstance, step: StepInstance, isCompensation: bool, input: Data): Request {
    Request(saga.id, step.id, isCompensation, step.executionId, input, saga.rootId, saga.depth)
  }

  predicate IsCompensationState(s: StepState) {
    s.CompensationPending? || s.CompensationCandidate? || s.CompensationRunning? || s.CompensationSucceeded?
    || s.CompensationDone? || s.CompensationFailed? || s.CompensationBlocked?
  }

  /** The columns no handler ever writes. */
  predicate SameIdentity(a: StepInstance, b: StepInstance) {
    a.id == b.id && a.sagaId == b.sagaId && a.templateId == b.templateId && a.prev == b.prev && a.next == b.next
  }

  predicate Distinct(ids: seq<string>) {
    forall i, j :: 0 <= i < j < |ids| ==> ids[i] != ids[j]
  }

  /** The rows form the doubly linked chain recorded on the saga row. */
  predicate Linked(v: View) {
    && |v.steps| > 0
    && |v.saga.stepIds| == |v.steps|
    && v.saga.parentId != v.saga.id
    && Distinct(v.saga.stepIds)
    && (forall i {:trigger v.steps[i]} :: 0 <= i < |v.steps| ==>
          LinkedRow(v.steps[i], v.saga.id, v.saga.stepIds, i))
  }

  predicate LinkedRow(row: StepInstance, sagaId: string, ids: seq<string>, i: nat)
    requires i < |ids|
  {
    && row.id != ""
    && row.id == ids[i]
    && row.sagaId == sagaId
    && row.prev == (if i == 0 then "" else ids[i-1])
    && row.next == (if i == |ids| - 1 then "" else ids[i+1])
  }

  /** v is the saga v.saga.id of db with all of its steps, in order. */
  ghost predicate IsView(db: Db, v: View) {
    && Linked(v)
    && v.saga.id in db.sagas && db.sagas[v.saga.id] == v.saga
    && (forall i :: 0 <= i < |v.steps| ==> v.steps[i].id in db.steps && db.steps[v.steps[i].id] == v.steps[i])
    && (forall id :: id in db.steps && db.steps[id].sagaId == v.saga.id ==> id in v.saga.stepIds)
  }

  /** db and db' differ in nothing but the saga sid and its own steps; no row appears or goes away. */
  ghost predicate SameOutside(db: Db, db': Db, sid: string) {
    && db'.sagas.Keys == db.sagas.Keys
    && (forall s :: s in db.sagas && s != sid ==> db'.sagas[s] == db.sagas[s])
    && db'.steps.Keys == db.steps.Keys
    && (forall id :: id in db.steps ==> db'.steps[id].sagaId == db.steps[id].sagaId)
    && (forall id :: id in db.steps && db.steps[id].sagaId != sid ==> db'.steps[id] == db.steps[id])
  }

  /** The saga of view e moved to e, and nothing else moved. */
  ghost predicate Landed(db: Db, db': Db, e: View) {
    IsView(db', e) && SameOutside(db, db', e.saga.id)
  }

  /** Every saga row sits under its own id. */
  ghost predicate Keyed(db: Db) {
    forall s :: s in db.sagas ==> db.sagas[s].id == s
  }

  predicate IsChildOf(saga: SagaInstance, parentId: string, parentStepId: string) {
    saga.parentId == parentId && saga.parentStepId == parentStepId
  }

  ghost predicate AllChildrenCompensated(db: Db, sid: string, stepId: string) {
    forall s :: s in db.sagas && IsChildOf(db.sagas[s], sid, stepId) ==> db.sagas[s].state.SagaCompensated?
  }

  predicate IsUncompensatedChild(child: SagaInstance, parentStepId: string) {
    child.parentStepId == parentStepId && !child.state.SagaCompensated?
  }

  /** Some committed children of one step were asked to compensate; nothing else moved. */
  ghost predicate ChildrenRequested(db: Db, db': Db, sid: string, stepId: string) {
    && db'.steps == db.steps
    && db'.sagas.Keys == db.sagas.Keys
    && forall s :: s in db.sagas ==>
         || db'.sagas[s] == db.sagas[s]
         || (&& IsChildOf(db.sagas[s], sid, stepId)
             && db.sagas[s].state.SagaCommitted?
             && db'.sagas[s] == db.sagas[s].(state := SagaCompensationRequested))
  }

  // ----- what each store update writes -----

  function PutStep(db: Db, row: StepInstance): Db {
    db.(steps := db.steps[row.id := row])
  }

  function PutSaga(db: Db, row: SagaInstance): Db {
    db.(sagas := db.sagas[row.id := row])
  }

  /** The in-memory step's state column is written. */
  function WriteState(db: Db, id: string, s: StepState): Db {
    if id in db.steps then PutStep(db, db.steps[id].(state := s)) else db
  }

  function WriteResult(db: Db, step: StepInstance): Db {
    if step.id in db.steps then PutStep(db, db.steps[step.id].(result := step.result)) else db
  }

  function WriteCompensationResult(db: Db, step: StepInstance): Db {
    if step.id in db.steps then PutStep(db, db.steps[step.id].(compensationResult := step.compensationResult)) else db
  }

  function WriteHistory(db: Db, step: StepInstance): Db {
    if step.id in db.steps
    then PutStep(db, db.steps[step.id].(executionId := step.executionId, history := step.history))
    else db
  }

  function WriteSagaState(db: Db, saga: SagaInstance, s: SagaState): Db {
    if saga.id in db.sagas
    then PutSaga(db, db.sagas[saga.id].(state := s, compensationReason := saga.compensationReason))
    else db
  }

  function RequestCompensation(db: Db, id: string): Db
    requires id in db.sagas
  {
    db.(sagas := db.sagas[id := db.sagas[id].(state := SagaCompensationRequested)])
  }

  function ForceMark(db: Db, id: string, reason: string): Db
    requires id in db.sagas
  {
    db.(sagas := db.sagas[id :=
      db.sagas[id].(state := SagaCompensated, compensationReason := "[FORCE-MARKED] " + reason)])
  }

  // ----- views under updates -----

  lemma ViewIsUnique(db: Db, v: View, w: View)
    requires IsView(db, v) && IsView(db, w) && v.saga.id == w.saga.id
    ensures v == w
  {
    assert forall i :: 0 <= i < |v.steps| ==> v.steps[i].id == w.steps[i].id;
    assert v.steps == w.steps;
  }

  /** Replacing a row by one with the same identity keeps the chain. */
  lemma SameIdentityKeepsLinks(v: View, i: nat, row: StepInstance)
    requires Linked(v) && i < |v.steps| && SameIdentity(row, v.steps[i])
    ensures Linked(v.(steps := v.steps[i := row]))
  {
  }

  /** Writing one row of a saga changes that position of its view and nothing else. */
  lemma PutStepMovesView(db: Db, v: View, i: nat, row: StepInstance)
    requires IsView(db, v) && i < |v.steps| && SameIdentity(row, v.steps[i])
    ensures Landed(db, PutStep(db, row), v.(steps := v.steps[i := row]))
  {
    SameIdentityKeepsLinks(v, i, row);
    var w := v.(steps := v.steps[i := row]);
    var db' := PutStep(db, row);
    forall k | 0 <= k < |w.steps| ensures w.steps[k].id in db'.steps && db'.steps[w.steps[k].id] == w.steps[k] {
      assert v.saga.stepIds[k] == v.steps[k].id && v.saga.stepIds[i] == row.id;
    }
  }

  lemma PutSagaMovesView(db: Db, v: View, saga: SagaInstance)
    requires IsView(db, v) && saga.id == v.saga.id && saga.stepIds == v.saga.stepIds && saga.parentId == v.saga.parentId
    ensures Landed(db, PutSaga(db, saga), v.(saga := saga))
  {
    var w := v.(saga := saga);
    assert w.steps == v.steps && w.saga.stepIds == v.saga.stepIds;
  }

  lemma WriteStateMovesView(db: Db, v: View, i: nat, s: StepState)
    requires IsView(db, v) && i < |v.steps|
    ensures var id := v.steps[i].id; var row := v.steps[i].(state := s);
      && Landed(db, WriteState(db, id, s), v.(steps := v.steps[i := row]))
      && id in WriteState(db, id, s).steps && WriteState(db, id, s).steps[id] == row
  {
    PutStepMovesView(db, v, i, v.steps[i].(state := s));
  }

  lemma WriteResultMovesView(db: Db, v: View, i: nat, step: StepInstance)
    requires IsView(db, v) && i < |v.steps| && step.id == v.steps[i].id
    ensures Landed(db, WriteResult(db, step), v.(steps := v.steps[i := v.steps[i].(result := step.result)]))
  {
    PutStepMovesView(db, v, i, v.steps[i].(result := step.result));
  }

  lemma WriteCompensationResultMovesView(db: Db, v: View, i: nat, step: StepInstance)
    requires IsView(db, v) && i < |v.steps| && step.id == v.steps[i].id
    ensures Landed(db, WriteCompensationResult(db, step),
                   v.(steps := v.steps[i := v.steps[i].(compensationResult := step.compensationResult)]))
  {
    PutStepMovesView(db, v, i, v.steps[i].(compensationResult := step.compensationResult));
  }

  lemma WriteHistoryMovesView(db: Db, v: View, i: nat, step: StepInstance)
    requires IsView(db, v) && i < |v.steps| && step.id == v.steps[i].id
    ensures Landed(db, WriteHistory(db, step),
                   v.(steps := v.steps[i := v.steps[i].(executionId := step.executionId, history := step.history)]))
  {
    PutStepMovesView(db, v, i, v.steps[i].(executionId := step.executionId, history := step.history));
  }

  lemma WriteSagaStateMovesView(db: Db, v: View, saga: SagaInstance, s: SagaState)
    requires IsView(db, v) && saga.id == v.saga.id
    ensures var row := v.saga.(state := s, compensationReason := saga.compensationReason);
      && Landed(db, WriteSagaState(db, saga, s), v.(saga := row))
      && saga.id in WriteSagaState(db, saga, s).sagas && WriteSagaState(db, saga, s).sagas[saga.id] == row
  {
    PutSagaMovesView(db, v, v.saga.(state := s, compensationReason := saga.compensationReason));
  }

  lemma StepIdsAreDistinct(db: Db, v: View)
    requires IsView(db, v)
    ensures forall j, k :: 0 <= j < |v.steps| && 0 <= k < |v.steps| && v.steps[j].id == v.steps[k].id ==> j == k
  {
    forall j, k | 0 <= j < |v.steps| && 0 <= k < |v.steps| && v.steps[j].id == v.steps[k].id
      ensures j == k
    {
      assert v.saga.stepIds[j] == v.saga.stepIds[k];
    }
  }

  lemma NothingRequested(db: Db, sid: string, stepId: string)
    ensures ChildrenRequested(db, db, sid, stepId)
  {
  }

  lemma RequestedOrSame(db: Db, db1: Db, sid: string, stepId: string, id: string)
    requires ChildrenRequested(db, db1, sid, stepId) && id in db.sagas
    ensures id in db1.sagas && (db1.sagas[id] == db.sagas[id] || db1.sagas[id].state.SagaCompensationRequested?)
  {
  }

  /** A request for one more child of the step, made on the way. */
  lemma RequestOneMore(db: Db, db1: Db, sid: string, stepId: string, id: string)
    requires ChildrenRequested(db, db1, sid, stepId)
    requires id in db.sagas && IsChildOf(db.sagas[id], sid, stepId)
    requires id in db1.sagas && db1.sagas[id].state.SagaCommitted?
    ensures ChildrenRequested(db, RequestCompensation(db1, id), sid, stepId)
  {
  }

  lemma RequestsKeepView(db: Db, db': Db, v: View, stepId: string)
    requires Keyed(db) && IsView(db, v) && ChildrenRequested(db, db', v.saga.id, stepId)
    ensures Keyed(db') && IsView(db', v)
  {
  }

  lemma LandedReflexive(db: Db, v: View)
    requires IsView(db, v)
    ensures Landed(db, db, v)
  {
  }

  lemma LandedTransitive(a: Db, b: Db, c: Db, v: View, w: View)
    requires Landed(a, b, v) && Landed(b, c, w) && v.saga.id == w.saga.id
    ensures Landed(a, c, w)
  {
  }

  /** A saga's view survives whatever another saga does. */
  lemma OutsideKeepsView(db: Db, db': Db, sid: string, w: View)
    requires SameOutside(db, db', sid) && IsView(db, w) && w.saga.id != sid
    ensures IsView(db', w)
  {
  }

  /** Two tables that agree outside a saga and on its view are the same tables. */
  lemma LandedDetermines(a: Db, b: Db, v: View)
    requires IsView(a, v) && Landed(a, b, v)
    ensures a == b
  {
    forall id | id in a.steps ensures a.steps[id] == b.steps[id] {
      if a.steps[id].sagaId == v.saga.id {
        var k :| 0 <= k < |v.steps| && v.saga.stepIds[k] == id;
        assert v.steps[k].id == id;
      }
    }
    assert a.steps == b.steps;
    assert a.sagas == b.sagas;
  }

  // ----- listings -----

  /** The rows are those stored under the ids, one by one, and no id comes twice. */
  predicate Enumerates<T(==)>(ids: seq<string>, rows: seq<T>, table: map<string, T>) {
    Distinct(ids) && |ids| == |rows| && forall k :: 0 <= k < |ids| ==> ids[k] in table && table[ids[k]] == rows[k]
  }

  /** rows holds exactly the step rows of saga sid, each once, in no particular order. */
  ghost predicate IsListing(rows: seq<StepInstance>, db: Db, sid: string) {
    && (exists ids :: Enumerates(ids, rows, db.steps))
    && (forall r :: r in rows ==> r.sagaId == sid && exists id :: id in db.steps && db.steps[id] == r)
    && (forall id :: id in db.steps && db.steps[id].sagaId == sid ==> db.steps[id] in rows)
  }

  lemma ListingMatchesView(rows: seq<StepInstance>, db: Db, v: View)
    requires IsView(db, v) && IsListing(rows, db, v.saga.id)
    ensures forall r :: r in rows <==> r in v.steps
  {
    forall r | r in rows ensures r in v.steps {
      var id :| id in db.steps && db.steps[id] == r;
      var k :| 0 <= k < |v.saga.stepIds| && v.saga.stepIds[k] == id;
      assert v.steps[k].id == id;
    }
    forall k | 0 <= k < |v.steps| ensures v.steps[k] in rows {
      assert db.steps[v.steps[k].id].sagaId == v.saga.id;
    }
  }
}
