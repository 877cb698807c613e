/**
 * What a run of a driver comes to when nothing fails, on the stored rows and on the bus: the call of
 * the step processor for the step's state and all the follow-up calls it leads to, up to the point
 * where the step has to wait for an answer, for its children or for its next turn.
 */
module Settling {
  import opened Types
  import opened Transitions
  import opened Inputs
  import opened Machine
  import opened Invariants
  import opened StoreRuns

  // ----- logs -----

  /** The request is out and its deadline has not passed. */
  predicate InWindow(log: ExecutionLog, now: int) {
    now >= log.nextExecutionTs && log.requestSentTs > 0 && now >= log.requestSentTs
    && log.timeoutTs > 0 && now <= log.timeoutTs
  }

  /** A result has been received although the step still waits for one. */
  predicate PanicsAt(log: ExecutionLog, now: int) {
    InWindow(log, now) && log.resultReceivedTs != 0 && now >= log.resultReceivedTs
  }

  predicate Expired(log: ExecutionLog, now: int) {
    now >= log.nextExecutionTs && log.requestSentTs > 0 && now >= log.requestSentTs
    && log.timeoutTs > 0 && now > log.timeoutTs
  }

  predicate DueToSend(log: ExecutionLog, now: int) {
    now >= log.nextExecutionTs && log.requestSentTs == 0 && log.timeoutTs == 0
  }

  /** A waiting step sends while it has not sent, then waits to the deadline, and then has timed out. */
  lemma WaitingIsExclusive(log: ExecutionLog, now: int)
    requires StampsAgree(log) && now >= 0
    ensures now >= log.nextExecutionTs && now >= log.requestSentTs ==>
      && (DueToSend(log, now) <==> log.requestSentTs == 0)
      && (InWindow(log, now) <==> log.requestSentTs != 0 && now <= log.timeoutTs)
      && (Expired(log, now) <==> log.requestSentTs != 0 && now > log.timeoutTs)
    ensures now < log.nextExecutionTs || now < log.requestSentTs ==>
      !DueToSend(log, now) && !InWindow(log, now) && !Expired(log, now)
  {
  }

  /** The request of a log just written can be sent unless the clock has gone back. */
  lemma FreshLogsAreDue(written: int, isCompensation: bool, now: int)
    ensures DueToSend(NewLog(written, isCompensation), now) <==> written <= now
  {
  }

  /** A log for a request that is still to be sent. */
  predicate IsUnsent(log: ExecutionLog, isCompensation: bool) {
    && log.isCompensation == isCompensation && log.requestSentTs == 0 && log.timeoutTs == 0
    && log.resultReceivedTs == 0 && log.conclusionTs == 0 && |log.result| == 0 && log.error == ""
  }

  /** A log for a request that has been sent and not been answered. */
  predicate IsSent(log: ExecutionLog, isCompensation: bool, timeoutMs: int) {
    && log.isCompensation == isCompensation && 0 < log.requestSentTs && log.nextExecutionTs <= log.requestSentTs
    && log.timeoutTs == log.requestSentTs + timeoutMs
    && log.resultReceivedTs == 0 && log.conclusionTs == 0 && |log.result| == 0 && log.error == ""
  }

  /** The request of the step's last log is still to be sent, and its time has come. */
  predicate IsDue(step: StepInstance, now: int) {
    step.history != [] && DueToSend(LastLog(step), now)
  }

  // ----- one call -----

  /** Besides growing by one request for step i of the given kind, the bus is as before. */
  ghost predicate RequestAdded(bus: seq<Request>, bus': seq<Request>, v: View, i: nat, isCompensation: bool,
      exact: bool)
    requires i < |v.steps|
  {
    && OneRequestMore(bus, bus', v, i) && bus'[|bus|].isCompensation == isCompensation
    && (exact ==> Sees(bus'[|bus|], v, i))
  }

  /** The request carries under every key what the step is to see there. */
  ghost predicate Sees(r: Request, v: View, i: nat)
    requires i < |v.steps|
  {
    if r.isCompensation then SeesCompensations(r.input, v, i) else SeesResults(r.input, v, i)
  }

  /** What a call does in a step's state when every check succeeds and nothing fails; from and to are the times. */
  ghost predicate DoesItsPart(db: Db, v: View, i: nat, a: Action, followUp: bool, from: int, to: int)
    requires i < |v.steps|
  {
    match v.steps[i].state
    case ExecutionCandidate => a.Start? && a.now <= to && followUp
    case ExecutionRunning => IsDue(v.steps[i], from) ==> a.Send? && !followUp
    case ExecutionSucceeded => a.Finish? && !followUp
    case ExecutionFailed => a.Fail? && followUp
    case CompensationCandidate =>
      if AllChildrenCompensated(db, v.saga.id, v.steps[i].id) then a.StartCompensation? && a.now <= to && followUp
      else a.Idle? && !followUp
    case CompensationRunning => IsDue(v.steps[i], from) ==> a.Send? && !followUp
    case CompensationSucceeded => a.FinishCompensation? && followUp
    case CompensationFailed => a.Block? && !followUp
    case _ => a.Idle? && !followUp
  }

  /** The committed children of the step have been asked to compensate. */
  ghost predicate ChildrenAsked(db: Db, db': Db, sid: string, stepId: string) {
    forall s :: s in db.sagas && IsChildOf(db.sagas[s], sid, stepId) && db.sagas[s].state.SagaCommitted? ==>
      s in db'.sagas && db'.sagas[s].state.SagaCompensationRequested?
  }

  /** One call in which nothing fails, on a step whose checks succeed. */
  ghost predicate CallGoesWell(w: World, w': World, v: View, i: nat, a: Action, followUp: bool, from: int, to: int,
      timeoutMs: int)
    requires i < |v.steps|
  {
    && from <= to && DoesItsPart(w.db, v, i, a, followUp, from, to) && (Target(a).Some? ==> Target(a).value == i)
    && (if a.Send?
        then a.sentAt >= from && a.timeoutMs == timeoutMs
             && RequestAdded(w.bus, w'.bus, v, i, v.steps[i].state.CompensationRunning?, true)
        else w'.bus == w.bus)
    && (a.Idle? && v.steps[i].state.CompensationCandidate? ==>
          ChildrenAsked(w.db, w'.db, v.saga.id, v.steps[i].id))
    && (a.Idle? && (v.steps[i].state.ExecutionDone? || v.steps[i].state.CompensationDone?) ==> w'.db == w.db)
  }

  // ----- a whole run -----

  /** Row j of v is stored, in the given state and otherwise as it was. */
  predicate RowBecomes(db: Db, v: View, j: nat, s: StepState)
    requires j < |v.steps|
  {
    v.steps[j].id in db.steps && db.steps[v.steps[j].id] == v.steps[j].(state := s)
  }

  /** Every row of v but those of steps i and k is stored as it was. */
  predicate OthersStay(db: Db, v: View, i: int, k: int) {
    forall j :: 0 <= j < |v.steps| && j != i && j != k ==> RowBecomes(db, v, j, v.steps[j].state)
  }

  predicate SagaIs(db: Db, saga: SagaInstance) {
    saga.id in db.sagas && db.sagas[saga.id] == saga
  }

  /**
   * The one request that came on the bus is for this step: it names the saga, the step and the execution
   * on the step's row and carries what the step is to see. The row waits for the answer: its last log,
   * which is new, is marked sent.
   */
  ghost predicate RequestIsOut(w: World, w': World, v: View, i: nat, isCompensation: bool, timeoutMs: int)
    requires i < |v.steps|
  {
    var id, past := v.steps[i].id, v.steps[i].history;
    && id in w'.db.steps
    && |w'.bus| == |w.bus| + 1 && w'.bus[..|w.bus|] == w.bus
    && var row, r := w'.db.steps[id], w'.bus[|w.bus|];
    && row.state == (if isCompensation then CompensationRunning else ExecutionRunning)
    && |row.history| == |past| + 1 && row.history[..|past|] == past
    && IsSent(row.history[|past|], isCompensation, timeoutMs)
    && SameIdentity(row, v.steps[i]) && row.result == v.steps[i].result
    && row.compensationResult == v.steps[i].compensationResult
    && (isCompensation ==> row.executionId == v.steps[i].executionId)
    && r.sagaId == v.saga.id && r.stepId == id && r.executionId == row.executionId
    && r.rootId == v.saga.rootId && r.depth == v.saga.depth && r.isCompensation == isCompensation
    && (if isCompensation then SeesCompensations(r.input, v, i) else SeesResults(r.input, v, i))
  }

  /** The step waits for its children, all of which that are committed have been asked to compensate. */
  ghost predicate AwaitsChildren(w: World, w': World, v: View, i: nat)
    requires i < |v.steps|
  {
    && w'.bus == w.bus && RowBecomes(w'.db, v, i, CompensationCandidate)
    && ChildrenAsked(w.db, w'.db, v.saga.id, v.steps[i].id)
  }

  /** The step is being compensated as far as a driver can: it was asked to, or waits for its children. */
  ghost predicate UndoIsBegun(w: World, w': World, v: View, i: nat, timeoutMs: int)
    requires i < |v.steps|
  {
    if AllChildrenCompensated(w.db, v.saga.id, v.steps[i].id) then RequestIsOut(w, w', v, i, true, timeoutMs)
    else AwaitsChildren(w, w', v, i)
  }

  /** What a run for step i of v comes to when nothing fails, by the state the step is in. */
  ghost predicate Completes(w: World, w': World, v: View, i: nat, timeoutMs: int)
    requires i < |v.steps|
  {
    match v.steps[i].state
    case ExecutionCandidate =>
      RequestIsOut(w, w', v, i, false, timeoutMs) && OthersStay(w'.db, v, i, i) && SagaIs(w'.db, v.saga)
    case ExecutionSucceeded =>
      && w'.bus == w.bus && RowBecomes(w'.db, v, i, ExecutionDone) && OthersStay(w'.db, v, i, i + 1)
      && if i + 1 < |v.steps| then RowBecomes(w'.db, v, i + 1, ExecutionCandidate) && SagaIs(w'.db, v.saga)
         else SagaIs(w'.db, v.saga.(state := SagaCommitted))
    case ExecutionFailed =>
      && (forall j :: 0 <= j < i ==> RowBecomes(w'.db, v, j, CompensationPending))
      && (forall j :: i < j < |v.steps| ==> RowBecomes(w'.db, v, j, ExecutionAborted))
      && SagaIs(w'.db, v.saga.(compensationReason := FailureReason(v.steps[i]))) && UndoIsBegun(w, w', v, i, timeoutMs)
    case CompensationCandidate =>
      UndoIsBegun(w, w', v, i, timeoutMs) && OthersStay(w'.db, v, i, i) && SagaIs(w'.db, v.saga)
    case CompensationSucceeded =>
      && w'.bus == w.bus && RowBecomes(w'.db, v, i, CompensationDone) && OthersStay(w'.db, v, i, i - 1)
      && if i > 0 then RowBecomes(w'.db, v, i - 1, CompensationCandidate) && SagaIs(w'.db, v.saga)
         else SagaIs(w'.db, v.saga.(state := SagaCompensated))
    case CompensationFailed =>
      && w'.bus == w.bus && RowBecomes(w'.db, v, i, CompensationBlocked) && OthersStay(w'.db, v, i, i)
      && SagaIs(w'.db, v.saga.(state := SagaBlocked))
    case ExecutionDone => w' == w
    case CompensationDone => w' == w
    case _ => true
  }

  /** A committed saga has been sent back: its last step is to be compensated first, the others await it. */
  ghost predicate WalkBegins(w: World, w': World, v: View, reason: string) {
    && w'.bus == w.bus && SagaIs(w'.db, v.saga.(state := SagaRunning, compensationReason := reason))
    && |v.steps| > 0 && RowBecomes(w'.db, v, |v.steps| - 1, CompensationCandidate)
    && forall j :: 0 <= j < |v.steps| - 1 ==> RowBecomes(w'.db, v, j, CompensationPending)
  }

  lemma InitiationBegins(w: World, w': World, v: View, a: Action)
    requires a.Initiate? && Enabled(v, a) && IsView(w'.db, Apply(v, a)) && w'.bus == w.bus
    ensures WalkBegins(w, w', v, a.reason)
  {
    ApplyKeepsLength(v, a);
    RowsStored(w'.db, Apply(v, a), v);
    hide IsView;
    var u, last := Apply(v, a), |v.steps| - 1;
    assert u.steps[last] == v.steps[last].(state := CompensationCandidate);
    assert forall j :: 0 <= j < last ==> u.steps[j] == v.steps[j].(state := CompensationPending);
  }

  /** The row has taken the result: as the execution's or as the compensation's, and in its last log. */
  predicate TakesResult(row': StepInstance, row: StepInstance, s: StepState, isCompensation: bool, data: Data) {
    && SameIdentity(row', row) && row'.executionId == row.executionId && row'.state == s
    && row'.result == (if isCompensation then row.result else data)
    && row'.compensationResult == (if isCompensation then data else row.compensationResult)
    && |row'.history| == |row.history| > 0
    && (forall k :: 0 <= k < |row.history| - 1 ==> row'.history[k] == row.history[k])
    && var log, log' := LastLog(row), LastLog(row');
    && log'.result == data && 0 < log'.resultReceivedTs == log'.conclusionTs && log'.error == log.error
    && log'.isCompensation == log.isCompensation && log'.nextExecutionTs == log.nextExecutionTs
    && log'.requestSentTs == log.requestSentTs && log'.timeoutTs == log.timeoutTs
  }

  /** Step i of v has taken a result of this status, and nothing else has changed. */
  predicate ResultIsStored(w: World, w': World, v: View, i: nat, success: bool, data: Data, isCompensation: bool)
    requires i < |v.steps|
  {
    var s := if isCompensation then if success then CompensationSucceeded else CompensationFailed
             else if success then ExecutionSucceeded else ExecutionFailed;
    && w'.bus == w.bus && SagaIs(w'.db, v.saga) && OthersStay(w'.db, v, i, i)
    && v.steps[i].id in w'.db.steps && TakesResult(w'.db.steps[v.steps[i].id], v.steps[i], s, isCompensation, data)
  }

  /** What a result for a requested step comes to when nothing fails: a step that still waits for one takes it. */
  predicate ResultCounts(w: World, w': World, v: View, i: nat, status: ResultStatus, data: Data)
    requires i < |v.steps|
  {
    match v.steps[i].state
    case ExecutionRunning => ResultIsStored(w, w', v, i, status.StatusSuccess?, data, false)
    case CompensationRunning => ResultIsStored(w, w', v, i, status.StatusSuccess?, data, true)
    case CompensationBlocked => ResultIsStored(w, w', v, i, status.StatusSuccess?, data, true)
    case _ => w' == w
  }

  /** Of the steps that have run, exactly those that wait for a result or are blocked take one. */
  lemma WaitingStepsTakeResults(s: StepState)
    requires !NeverRan(s)
    ensures IgnoresResults(s) <==> !s.ExecutionRunning? && !s.CompensationRunning? && !s.CompensationBlocked?
  {
  }

  lemma ReceiptIsStored(w: World, w': World, v: View, i: nat, status: ResultStatus, data: Data, at: int)
    requires Enabled(v, Receive(i, status, data, at)) && IsView(w'.db, Apply(v, Receive(i, status, data, at)))
    requires |Apply(v, Receive(i, status, data, at)).steps| == |v.steps|
    requires i < |v.steps| && HistoryFits(v.steps[i]) && !NeverRan(v.steps[i].state) && w'.bus == w.bus
    ensures ResultCounts(w, w', v, i, status, data)
  {
    var u := Apply(v, Receive(i, status, data, at));
    RowsStored(w'.db, u, v);
    RowStored(w'.db, u, i);
    hide IsView;
    ReceiptTakes(v.steps[i], status, data, at);
    hide Received, TakesResult;
    assert u.steps[i] == Received(v.steps[i], status, data, at);
    assert forall j :: 0 <= j < |v.steps| && j != i ==> u.steps[j] == v.steps[j].(state := v.steps[j].state);
  }

  lemma ReceiptTakes(row: StepInstance, status: ResultStatus, data: Data, at: int)
    requires row.history != [] && at > 0
    ensures var isCompensation := LastLog(row).isCompensation;
      TakesResult(Received(row, status, data, at), row, ResultState(isCompensation, status), isCompensation, data)
  {
  }

  // ----- from call to call -----

  predicate IsStart(a: Action, i: nat, now: int) {
    a.Start? && a.i == i && a.now <= now
  }

  predicate IsUndoStart(a: Action, i: nat, now: int) {
    a.StartCompensation? && a.i == i && a.now <= now
  }

  /** What has been done in a run that goes on, by the state the step was in. */
  predicate UnderWay(s: StepState, i: nat, acts: seq<Action>, ready: bool, now: int) {
    acts == [] ||
    match s
    case ExecutionCandidate => |acts| == 1 && IsStart(acts[0], i, now)
    case ExecutionFailed =>
      acts[0] == Fail(i) && (|acts| == 1 || (|acts| == 2 && ready && IsUndoStart(acts[1], i, now)))
    case CompensationCandidate => |acts| == 1 && ready && IsUndoStart(acts[0], i, now)
    case CompensationSucceeded => acts == [FinishCompensation(i)]
    case _ => false
  }

  /** Nothing has failed so far in a run that goes on. */
  ghost predicate GoesWell(w0: World, w: World, v: View, i: nat, acts: seq<Action>, now: int)
    requires i < |v.steps|
  {
    && UnderWay(v.steps[i].state, i, acts, AllChildrenCompensated(w0.db, v.saga.id, v.steps[i].id), now)
    && EnabledAll(v, acts) && IsView(w.db, ApplyAll(v, acts)) && IsView(w0.db, v)
    && w.bus == w0.bus && SameOutside(w0.db, w.db, v.saga.id) && (acts == [] ==> w == w0)
  }

  lemma BeginsWell(w: World, v: View, i: nat, now: int)
    requires IsView(w.db, v) && i < |v.steps|
    ensures GoesWell(w, w, v, i, [], now)
  {
    EmptyRun(v);
  }

  /** The saga's own rows do not count among its step's children, so what else is done to it changes no answer. */
  lemma ChildrenStay(db: Db, db': Db, v: View, i: nat)
    requires IsView(db, v) && i < |v.steps| && SameOutside(db, db', v.saga.id)
    requires v.saga.id in db'.sagas && db'.sagas[v.saga.id].parentId == v.saga.parentId
    ensures AllChildrenCompensated(db', v.saga.id, v.steps[i].id) <==>
      AllChildrenCompensated(db, v.saga.id, v.steps[i].id)
    ensures forall db2: Db :: ChildrenAsked(db', db2, v.saga.id, v.steps[i].id) ==>
      ChildrenAsked(db, db2, v.saga.id, v.steps[i].id)
  {
    assert v.saga.parentId != v.saga.id;
  }

  lemma RowStored(db: Db, v: View, j: nat)
    requires IsView(db, v) && j < |v.steps|
    ensures v.steps[j].id in db.steps && db.steps[v.steps[j].id] == v.steps[j]
  {
  }

  lemma SagaStored(db: Db, v: View)
    requires IsView(db, v)
    ensures SagaIs(db, v.saga) && v.saga.parentId != v.saga.id
  {
  }

  /** u is v with the rows in these states, as stored. */
  lemma RowsStored(db: Db, u: View, v: View)
    requires IsView(db, u) && |u.steps| == |v.steps|
    ensures forall j, s :: 0 <= j < |v.steps| && u.steps[j] == v.steps[j].(state := s) ==> RowBecomes(db, v, j, s)
    ensures SagaIs(db, u.saga)
  {
    forall j, s | 0 <= j < |v.steps| && u.steps[j] == v.steps[j].(state := s) ensures RowBecomes(db, v, j, s) {
      RowStored(db, u, j);
    }
    SagaStored(db, u);
  }

  /** The rows of a run that has sent its request. */
  lemma SendingCompletes(w0: World, w: World, w': World, v: View, u: View, i: nat, a: Action)
    requires i < |v.steps| == |u.steps| && w.bus == w0.bus && a.Send? && a.i == i && Enabled(u, a)
    requires IsView(w'.db, Apply(u, a))
    requires RequestAdded(w.bus, w'.bus, u, i, u.steps[i].state.CompensationRunning?, true)
    requires SameIdentity(u.steps[i], v.steps[i]) && u.steps[i].history == v.steps[i].history + [LastLog(u.steps[i])]
    requires IsUnsent(LastLog(u.steps[i]), u.steps[i].state.CompensationRunning?)
    requires LastLog(u.steps[i]).nextExecutionTs <= a.sentAt
    requires u.steps[i].state.CompensationRunning? ==> u.steps[i].executionId == v.steps[i].executionId
    requires u.saga.id == v.saga.id && u.saga.rootId == v.saga.rootId && u.saga.depth == v.saga.depth
    requires u.saga.input == v.saga.input && forall j :: 0 <= j < |v.steps| ==> SameResults(u.steps[j], v.steps[j])
    ensures RequestIsOut(w0, w', v, i, u.steps[i].state.CompensationRunning?, a.timeoutMs)
  {
    var row := MarkedSent(u.steps[i], a.sentAt, a.timeoutMs);
    assert Apply(u, a).steps[i] == row;
    RowStored(w'.db, Apply(u, a), i);
    hide IsView, Apply, Enabled, SeesResults, SeesCompensations, CarriesInput;
    SameResultsSameInput(w'.bus[|w.bus|].input, v, u, i);
    assert SameResults(u.steps[i], v.steps[i]);
    assert row.history[..|v.steps[i].history|] == v.steps[i].history;
    assert w'.bus[..|w.bus|] == w.bus;
  }

  // ----- first calls -----

  lemma FirstMove(w: World, w': World, v: View, a: Action, i: nat)
    requires Moves(w, w', v, a, i)
    ensures Enabled(v, a) && i < |v.steps| && IsView(w.db, v) && IsView(w'.db, Apply(v, a))
    ensures !a.Idle? ==> SameOutside(w.db, w'.db, v.saga.id)
    ensures |Apply(v, a).steps| == |v.steps|
  {
    MovedHasView(w.db, w'.db, v, a, v.steps[i].id);
    ApplyKeepsLength(v, a);
    if !a.Idle? {
      MovesOnlyInside(w.db, w'.db, v, a, v.steps[i].id);
    }
  }

  lemma FinishCompletes(w: World, w': World, v: View, i: nat, timeoutMs: int)
    requires i < |v.steps| && v.steps[i].state.ExecutionSucceeded? && Enabled(v, Finish(i)) && w'.bus == w.bus
    requires |Apply(v, Finish(i)).steps| == |v.steps| && IsView(w'.db, Apply(v, Finish(i)))
    ensures Completes(w, w', v, i, timeoutMs)
  {
    RowsStored(w'.db, Apply(v, Finish(i)), v);
    hide IsView, FinishGuard;
    var u := Apply(v, Finish(i));
    assert forall j :: 0 <= j < |v.steps| && j != i && j != i + 1 ==>
      u.steps[j] == v.steps[j].(state := v.steps[j].state);
  }

  lemma FinishCompensationCompletes(w: World, w': World, v: View, i: nat, timeoutMs: int)
    requires i < |v.steps| && v.steps[i].state.CompensationSucceeded? && Enabled(v, FinishCompensation(i))
    requires w'.bus == w.bus && |Apply(v, FinishCompensation(i)).steps| == |v.steps|
    requires IsView(w'.db, Apply(v, FinishCompensation(i)))
    ensures Completes(w, w', v, i, timeoutMs)
  {
    FinishCompensationRows(v, i);
    RowsStored(w'.db, Apply(v, FinishCompensation(i)), v);
    hide IsView, Enabled, Apply, FailureReason;
  }

  lemma FinishCompensationRows(v: View, i: nat)
    requires Enabled(v, FinishCompensation(i)) && |Apply(v, FinishCompensation(i)).steps| == |v.steps|
    ensures var u := Apply(v, FinishCompensation(i));
      && u.steps[i] == v.steps[i].(state := CompensationDone)
      && (i > 0 ==> u.steps[i-1] == v.steps[i-1].(state := CompensationCandidate))
      && (forall j :: 0 <= j < |v.steps| && j != i && j != i - 1 ==>
            u.steps[j] == v.steps[j].(state := v.steps[j].state))
      && u.saga == if i > 0 then v.saga else v.saga.(state := SagaCompensated)
  {
    hide FinishCompensationGuard;
  }

  lemma BlockCompletes(w: World, w': World, v: View, i: nat, timeoutMs: int)
    requires i < |v.steps| && v.steps[i].state.CompensationFailed? && Enabled(v, Block(i)) && w'.bus == w.bus
    requires |Apply(v, Block(i)).steps| == |v.steps| && IsView(w'.db, Apply(v, Block(i)))
    ensures Completes(w, w', v, i, timeoutMs)
  {
    RowsStored(w'.db, Apply(v, Block(i)), v);
    hide IsView;
    var u := Apply(v, Block(i));
    assert forall j :: 0 <= j < |v.steps| && j != i ==> u.steps[j] == v.steps[j].(state := v.steps[j].state);
  }

  /** The rows once a failure has been processed. */
  ghost predicate Turned(u: View, v: View, i: nat)
    requires i < |v.steps|
  {
    && |u.steps| == |v.steps| && u.saga == v.saga.(compensationReason := FailureReason(v.steps[i]))
    && (forall j :: 0 <= j < i ==> u.steps[j] == v.steps[j].(state := CompensationPending))
    && u.steps[i] == v.steps[i].(state := CompensationCandidate)
    && (forall j :: i < j < |v.steps| ==> u.steps[j] == v.steps[j].(state := ExecutionAborted))
  }

  lemma FailTurns(v: View, i: nat)
    requires Enabled(v, Fail(i)) && forall j :: i < j < |v.steps| ==> v.steps[j].state.ExecutionPending?
    ensures Turned(Apply(v, Fail(i)), v, i)
  {
    hide FailureReason;
  }

  lemma FailedWaits(w0: World, w': World, v: View, u: View, i: nat, timeoutMs: int)
    requires i < |v.steps| && v.steps[i].state.ExecutionFailed? && Turned(u, v, i) && IsView(w'.db, u)
    requires w'.bus == w0.bus && !AllChildrenCompensated(w0.db, v.saga.id, v.steps[i].id)
    requires ChildrenAsked(w0.db, w'.db, v.saga.id, v.steps[i].id)
    ensures Completes(w0, w', v, i, timeoutMs)
  {
    RowsStored(w'.db, u, v);
    hide IsView, FailureReason, ChildrenAsked, AllChildrenCompensated;
  }

  lemma CandidateWaits(w0: World, w': World, v: View, i: nat, timeoutMs: int)
    requires i < |v.steps| && v.steps[i].state.CompensationCandidate? && IsView(w'.db, v)
    requires w'.bus == w0.bus && !AllChildrenCompensated(w0.db, v.saga.id, v.steps[i].id)
    requires ChildrenAsked(w0.db, w'.db, v.saga.id, v.steps[i].id)
    ensures Completes(w0, w', v, i, timeoutMs)
  {
    RowsStored(w'.db, v, v);
    hide IsView, ChildrenAsked, AllChildrenCompensated;
    assert forall j :: 0 <= j < |v.steps| ==> v.steps[j] == v.steps[j].(state := v.steps[j].state);
  }

  // ----- last calls -----

  lemma StartedCompletes(w0: World, w: World, w': World, v: View, i: nat, s: Action, a: Action)
    requires i < |v.steps| && s.Start? && s.i == i && Enabled(v, s) && w.bus == w0.bus
    requires a.Send? && a.i == i && Enabled(Apply(v, s), a) && s.now <= a.sentAt
    requires |Apply(v, s).steps| == |v.steps| && RequestAdded(w.bus, w'.bus, Apply(v, s), i, false, true)
    requires IsView(w'.db, Apply(Apply(v, s), a)) && |Apply(Apply(v, s), a).steps| == |v.steps|
    ensures v.steps[i].state.ExecutionCandidate? && Completes(w0, w', v, i, a.timeoutMs)
  {
    var u := Apply(v, s);
    assert u == v.(steps := v.steps[i := Started(v.steps[i], s.executionId, s.now)]);
    assert u.steps[i].history == v.steps[i].history + [LastLog(u.steps[i])];
    hide RequestAdded, IsView;
    SendingCompletes(w0, w, w', v, u, i, a);
    RowsStored(w'.db, Apply(u, a), v);
    hide RequestIsOut;
    assert forall j :: 0 <= j < |v.steps| && j != i ==>
      Apply(u, a).steps[j] == v.steps[j].(state := v.steps[j].state);
    assert Apply(u, a).saga == v.saga;
  }

  /** u is v, perhaps turned; the compensation of its step i was started and its request is sent. */
  lemma UndoneIsOut(w0: World, w: World, w': World, v: View, u: View, i: nat, s: Action, a: Action)
    requires i < |v.steps| && s.StartCompensation? && s.i == i && Enabled(u, s) && w.bus == w0.bus
    requires |u.steps| == |v.steps| && |Apply(u, s).steps| == |v.steps|
    requires SameIdentity(u.steps[i], v.steps[i]) && u.steps[i].history == v.steps[i].history
    requires u.steps[i].executionId == v.steps[i].executionId
    requires u.saga.id == v.saga.id && u.saga.rootId == v.saga.rootId && u.saga.depth == v.saga.depth
    requires u.saga.input == v.saga.input && forall j :: 0 <= j < |v.steps| ==> SameResults(u.steps[j], v.steps[j])
    requires a.Send? && a.i == i && Enabled(Apply(u, s), a) && s.now <= a.sentAt
    requires RequestAdded(w.bus, w'.bus, Apply(u, s), i, true, true) && IsView(w'.db, Apply(Apply(u, s), a))
    ensures RequestIsOut(w0, w', v, i, true, a.timeoutMs)
  {
    var u1 := Apply(u, s);
    assert u1 == u.(steps := u.steps[i := CompensationStarted(u.steps[i], s.now)]);
    assert u1.steps[i].history == v.steps[i].history + [LastLog(u1.steps[i])];
    hide RequestAdded, IsView, Enabled, Apply;
    SendingCompletes(w0, w, w', v, u1, i, a);
  }

  /** The rows after a compensation was started and its request sent. */
  lemma UndoRows(u: View, i: nat, s: Action, a: Action)
    requires s.StartCompensation? && s.i == i && Enabled(u, s) && a.Send? && a.i == i && Enabled(Apply(u, s), a)
    ensures var x := Apply(Apply(u, s), a);
      && |x.steps| == |u.steps| && x.saga == u.saga
      && forall j :: 0 <= j < |u.steps| && j != i ==> x.steps[j] == u.steps[j]
  {
  }

  lemma UndoneCompletes(w0: World, w: World, w': World, v: View, i: nat, s: Action, a: Action)
    requires i < |v.steps| && s.StartCompensation? && s.i == i && Enabled(v, s) && w.bus == w0.bus
    requires AllChildrenCompensated(w0.db, v.saga.id, v.steps[i].id)
    requires a.Send? && a.i == i && Enabled(Apply(v, s), a) && s.now <= a.sentAt && |Apply(v, s).steps| == |v.steps|
    requires RequestAdded(w.bus, w'.bus, Apply(v, s), i, true, true) && IsView(w'.db, Apply(Apply(v, s), a))
    ensures v.steps[i].state.CompensationCandidate? && Completes(w0, w', v, i, a.timeoutMs)
  {
    hide *;
    UndoStartsAt(v, i, s);
    UndoneIsOut(w0, w, w', v, v, i, s, a);
    UndoRows(v, i, s, a);
    CandidateIsOut(w0, w', v, Apply(Apply(v, s), a), i, a.timeoutMs);
  }

  lemma UndoStartsAt(v: View, i: nat, s: Action)
    requires i < |v.steps| && s.StartCompensation? && s.i == i && Enabled(v, s)
    ensures v.steps[i].state.CompensationCandidate?
    ensures SameIdentity(v.steps[i], v.steps[i])
    ensures forall j :: 0 <= j < |v.steps| ==> SameResults(v.steps[j], v.steps[j])
  {
  }

  lemma CandidateIsOut(w0: World, w': World, v: View, x: View, i: nat, timeoutMs: int)
    requires i < |v.steps| == |x.steps| && v.steps[i].state.CompensationCandidate?
    requires RequestIsOut(w0, w', v, i, true, timeoutMs) && AllChildrenCompensated(w0.db, v.saga.id, v.steps[i].id)
    requires x.saga == v.saga && forall j :: 0 <= j < |v.steps| && j != i ==> x.steps[j] == v.steps[j]
    requires IsView(w'.db, x)
    ensures Completes(w0, w', v, i, timeoutMs)
  {
    hide RequestIsOut, IsView, AllChildrenCompensated, FailureReason;
    RowsStored(w'.db, x, v);
    forall j | 0 <= j < |v.steps| && j != i ensures RowBecomes(w'.db, v, j, v.steps[j].state) {
      assert x.steps[j] == v.steps[j].(state := v.steps[j].state);
    }
  }

  lemma TurnedCompletes(w0: World, w: World, w': World, v: View, u: View, i: nat, s: Action, a: Action)
    requires i < |v.steps| && v.steps[i].state.ExecutionFailed? && Turned(u, v, i) && Enabled(v, Fail(i))
    requires s.StartCompensation? && s.i == i && Enabled(u, s) && w.bus == w0.bus
    requires AllChildrenCompensated(w0.db, v.saga.id, v.steps[i].id) && |Apply(u, s).steps| == |v.steps|
    requires forall j :: i < j < |v.steps| ==> v.steps[j].state.ExecutionPending?
    requires a.Send? && a.i == i && Enabled(Apply(u, s), a) && s.now <= a.sentAt
    requires RequestAdded(w.bus, w'.bus, Apply(u, s), i, true, true) && IsView(w'.db, Apply(Apply(u, s), a))
    ensures Completes(w0, w', v, i, a.timeoutMs)
  {
    hide *;
    TurningKeeps(v, u, i);
    UndoneIsOut(w0, w, w', v, u, i, s, a);
    UndoRows(u, i, s, a);
    FailedIsOut(w0, w', v, u, Apply(Apply(u, s), a), i, a.timeoutMs);
  }

  /** Turning a saga back changes no data of it. */
  lemma TurningKeeps(v: View, u: View, i: nat)
    requires i < |v.steps| && v.steps[i].state.ExecutionFailed? && Turned(u, v, i) && Enabled(v, Fail(i))
    requires forall j :: i < j < |v.steps| ==> v.steps[j].state.ExecutionPending?
    ensures |u.steps| == |v.steps| && SameIdentity(u.steps[i], v.steps[i]) && u.steps[i].history == v.steps[i].history
    ensures u.steps[i].executionId == v.steps[i].executionId && u.saga.id == v.saga.id
    ensures u.saga.rootId == v.saga.rootId && u.saga.depth == v.saga.depth && u.saga.input == v.saga.input
    ensures forall j :: 0 <= j < |v.steps| ==> SameResults(u.steps[j], v.steps[j])
  {
    hide FailureReason;
  }

  lemma FailedIsOut(w0: World, w': World, v: View, u: View, x: View, i: nat, timeoutMs: int)
    requires i < |v.steps| == |x.steps| && v.steps[i].state.ExecutionFailed? && Turned(u, v, i)
    requires RequestIsOut(w0, w', v, i, true, timeoutMs) && AllChildrenCompensated(w0.db, v.saga.id, v.steps[i].id)
    requires x.saga == u.saga && forall j :: 0 <= j < |v.steps| && j != i ==> x.steps[j] == u.steps[j]
    requires IsView(w'.db, x)
    ensures Completes(w0, w', v, i, timeoutMs)
  {
    hide RequestIsOut, IsView, AllChildrenCompensated, FailureReason;
    RowsStored(w'.db, x, v);
  }

  // ----- every call -----

  /** States in which a driver calls the step processor on a saga in shape, and in which it finds its step done. */
  predicate HasBranch(s: StepState) {
    !Unprocessable(s) && !s.ExecutionRunning? && !s.CompensationRunning?
  }

  lemma FirstCallEnds(w: World, w': World, v: View, a: Action, i: nat, from: int, to: int, timeoutMs: int)
    requires Moves(w, w', v, a, i) && i < |v.steps| && CallGoesWell(w, w', v, i, a, false, from, to, timeoutMs)
    requires HasBranch(v.steps[i].state)
    ensures Completes(w, w', v, i, timeoutMs)
  {
    FirstMove(w, w', v, a, i);
    hide Moves, Enabled, Apply, IsView, Completes;
    match v.steps[i].state {
      case ExecutionSucceeded => FinishCompletes(w, w', v, i, timeoutMs);
      case CompensationFailed => BlockCompletes(w, w', v, i, timeoutMs);
      case CompensationCandidate =>
        IdleKeeps(v);
        CandidateWaits(w, w', v, i, timeoutMs);
      case _ => DoneCompletes(w, v, i, timeoutMs);
    }
  }

  lemma IdleKeeps(v: View)
    ensures Enabled(v, Idle) && Apply(v, Idle) == v
  {
  }

  lemma DoneCompletes(w: World, v: View, i: nat, timeoutMs: int)
    requires i < |v.steps| && (v.steps[i].state.ExecutionDone? || v.steps[i].state.CompensationDone?)
    ensures Completes(w, w, v, i, timeoutMs)
  {
  }

  lemma FirstCallGoesOn(w: World, w': World, v: View, a: Action, i: nat, from: int, to: int, timeoutMs: int)
    requires Moves(w, w', v, a, i) && i < |v.steps| && CallGoesWell(w, w', v, i, a, true, from, to, timeoutMs)
    requires HasBranch(v.steps[i].state)
    ensures GoesWell(w, w', v, i, [a], to)
  {
    FirstMove(w, w', v, a, i);
    hide Moves, Enabled, Apply, IsView, SameOutside, AllChildrenCompensated;
    OneAction(v, a);
    assert Target(a) == Some(i);
  }

  /** What has been done so far in a run that goes on. */
  lemma RunSoFar(w0: World, w: World, v: View, i: nat, acts: seq<Action>, now: int)
    requires i < |v.steps| && GoesWell(w0, w, v, i, acts, now) && acts != []
    ensures |acts| <= 2 && Enabled(v, acts[0]) && IsView(w0.db, v) && IsView(w.db, ApplyAll(v, acts))
    ensures |acts| == 1 ==> ApplyAll(v, acts) == Apply(v, acts[0])
    ensures |acts| == 2 ==>
      Enabled(Apply(v, acts[0]), acts[1]) && ApplyAll(v, acts) == Apply(Apply(v, acts[0]), acts[1])
    ensures w.bus == w0.bus && SameOutside(w0.db, w.db, v.saga.id)
  {
    hide Enabled, Apply, IsView, SameOutside, AllChildrenCompensated, IsStart, IsUndoStart;
    if |acts| == 1 {
      assert acts == [acts[0]];
      OneAction(v, acts[0]);
    } else {
      assert acts == [acts[0], acts[1]];
      var v1 := Apply(v, acts[0]);
      assert acts[1..] == [acts[1]] && EnabledAll(v1, [acts[1]]);
      OneAction(v1, acts[1]);
    }
  }

  /** The four ways in which a run goes on. */
  lemma WaysToGoOn(w0: World, w: World, v: View, i: nat, acts: seq<Action>, now: int)
    requires i < |v.steps| && GoesWell(w0, w, v, i, acts, now) && acts != []
    ensures var s, ready := v.steps[i].state, AllChildrenCompensated(w0.db, v.saga.id, v.steps[i].id);
      || (s.ExecutionCandidate? && acts == [acts[0]] && IsStart(acts[0], i, now))
      || (s.CompensationCandidate? && acts == [acts[0]] && ready && IsUndoStart(acts[0], i, now))
      || (s.CompensationSucceeded? && acts == [FinishCompensation(i)])
      || (s.ExecutionFailed? && acts == [Fail(i)])
      || (s.ExecutionFailed? && |acts| == 2 && acts[0] == Fail(i) && ready && IsUndoStart(acts[1], i, now))
  {
    hide Enabled, Apply, IsView, SameOutside, AllChildrenCompensated, IsStart, IsUndoStart, EnabledAll, ApplyAll;
  }

  /** The call after an action that is followed up: of a step that was started, turned, or compensated. */
  lemma NextCall(w0: World, w: World, w': World, v: View, i: nat, acts: seq<Action>, u: View, a: Action,
      followUp: bool, from: int, to: int, timeoutMs: int)
    requires i < |v.steps| && GoesWell(w0, w, v, i, acts, from) && acts != [] && u == ApplyAll(v, acts)
    requires Moves(w, w', u, a, i) && i < |u.steps| && CallGoesWell(w, w', u, i, a, followUp, from, to, timeoutMs)
    requires v.steps[i].state.ExecutionFailed? ==> forall j :: i < j < |v.steps| ==> v.steps[j].state.ExecutionPending?
    ensures followUp ==> GoesWell(w0, w', v, i, acts + [a], to)
    ensures !followUp ==> Completes(w0, w', v, i, timeoutMs)
  {
    hide *;
    RunSoFar(w0, w, v, i, acts, from);
    WaysToGoOn(w0, w, v, i, acts, from);
    FirstMove(w, w', u, a, i);
    ApplyKeepsLength(v, acts[0]);
    if v.steps[i].state.ExecutionCandidate? {
      AfterStart(w0, w, w', v, i, acts[0], a, followUp, from, to, timeoutMs);
    } else if v.steps[i].state.CompensationCandidate? {
      AfterUndoStart(w0, w, w', v, i, acts[0], a, followUp, from, to, timeoutMs);
      UndoneCompletes(w0, w, w', v, i, acts[0], a);
    } else if v.steps[i].state.CompensationSucceeded? {
      AfterCompensation(w0, w, w', v, i, a, followUp, from, to, timeoutMs);
    } else {
      FailTurns(v, i);
      if |acts| == 1 {
        assert acts == [Fail(i)];
        AfterFailure(w0, w, w', v, i, u, a, followUp, from, to, timeoutMs);
      } else {
        var t := Apply(v, Fail(i));
        AfterUndoStart(w0, w, w', t, i, acts[1], a, followUp, from, to, timeoutMs);
        TurnedCompletes(w0, w, w', v, t, i, acts[1], a);
      }
    }
  }

  lemma AfterStart(w0: World, w: World, w': World, v: View, i: nat, s: Action, a: Action, followUp: bool, from: int,
      to: int, timeoutMs: int)
    requires i < |v.steps| && IsStart(s, i, from) && Enabled(v, s) && w.bus == w0.bus
    requires |Apply(v, s).steps| == |v.steps| && Enabled(Apply(v, s), a)
    requires IsView(w'.db, Apply(Apply(v, s), a)) && |Apply(Apply(v, s), a).steps| == |v.steps|
    requires CallGoesWell(w, w', Apply(v, s), i, a, followUp, from, to, timeoutMs)
    ensures !followUp && Completes(w0, w', v, i, timeoutMs)
  {
    StartedIsDue(v, i, s, from);
    hide IsView, Enabled, Apply, Completes, AllChildrenCompensated, ChildrenAsked, RequestAdded, IsDue;
    StartedCompletes(w0, w, w', v, i, s, a);
  }

  lemma StartedIsDue(v: View, i: nat, s: Action, now: int)
    requires i < |v.steps| && Enabled(v, s) && (IsStart(s, i, now) || IsUndoStart(s, i, now))
    ensures i < |Apply(v, s).steps| && IsDue(Apply(v, s).steps[i], now)
    ensures Apply(v, s).steps[i].state == if s.Start? then ExecutionRunning else CompensationRunning
  {
  }

  /** A compensation that has just been started is sent. */
  lemma AfterUndoStart(w0: World, w: World, w': World, u: View, i: nat, s: Action, a: Action, followUp: bool,
      from: int, to: int, timeoutMs: int)
    requires i < |u.steps| && IsUndoStart(s, i, from) && Enabled(u, s)
    requires i < |Apply(u, s).steps| && CallGoesWell(w, w', Apply(u, s), i, a, followUp, from, to, timeoutMs)
    ensures !followUp && a.Send? && a.i == i && s.now <= a.sentAt && a.timeoutMs == timeoutMs
    ensures RequestAdded(w.bus, w'.bus, Apply(u, s), i, true, true)
    ensures s.StartCompensation? && s.i == i && |Apply(u, s).steps| == |u.steps|
  {
    StartedIsDue(u, i, s, from);
    ApplyKeepsLength(u, s);
    hide Enabled, Apply, AllChildrenCompensated, ChildrenAsked, RequestAdded, IsDue;
  }

  /** A step that has just been compensated is left alone. */
  lemma AfterCompensation(w0: World, w: World, w': World, v: View, i: nat, a: Action, followUp: bool, from: int,
      to: int, timeoutMs: int)
    requires i < |v.steps| && v.steps[i].state.CompensationSucceeded? && Enabled(v, FinishCompensation(i))
    requires w.bus == w0.bus && |Apply(v, FinishCompensation(i)).steps| == |v.steps|
    requires IsView(w.db, Apply(v, FinishCompensation(i)))
    requires CallGoesWell(w, w', Apply(v, FinishCompensation(i)), i, a, followUp, from, to, timeoutMs)
    ensures !followUp && Completes(w0, w', v, i, timeoutMs)
  {
    assert Apply(v, FinishCompensation(i)).steps[i].state.CompensationDone?;
    hide IsView, Enabled, Apply, Completes, AllChildrenCompensated, ChildrenAsked, RequestAdded, IsDue;
    FinishCompensationCompletes(w0, w', v, i, timeoutMs);
  }

  /** A step that has just been turned waits for its children, or its compensation starts. */
  lemma AfterFailure(w0: World, w: World, w': World, v: View, i: nat, u: View, a: Action, followUp: bool, from: int,
      to: int, timeoutMs: int)
    requires i < |v.steps| && v.steps[i].state.ExecutionFailed? && Enabled(v, Fail(i))
    requires u == Apply(v, Fail(i)) && Turned(u, v, i) && IsView(w0.db, v) && IsView(w.db, u)
    requires w.bus == w0.bus && SameOutside(w0.db, w.db, v.saga.id)
    requires Enabled(u, a) && IsView(w'.db, Apply(u, a)) && (!a.Idle? ==> SameOutside(w.db, w'.db, u.saga.id))
    requires i < |u.steps| && CallGoesWell(w, w', u, i, a, followUp, from, to, timeoutMs)
    ensures followUp ==> GoesWell(w0, w', v, i, [Fail(i)] + [a], to)
    ensures !followUp ==> Completes(w0, w', v, i, timeoutMs)
  {
    hide *;
    TurnedRow(v, u, i);
    SagaStored(w.db, u);
    ChildrenStay(w0.db, w.db, v, i);
    CandidateCall(w, w', u, i, a, followUp, from, to, timeoutMs);
    if followUp {
      TwoActions(v, Fail(i), a);
      OutsideOn(w0.db, w.db, w'.db, v.saga.id);
      assert [Fail(i)] + [a] == [Fail(i), a];
      TurnedGoesOn(w0, w', v, i, [Fail(i), a], to);
    } else {
      IdleKeeps(u);
      FailedWaits(w0, w', v, u, i, timeoutMs);
    }
  }

  lemma TurnedRow(v: View, u: View, i: nat)
    requires i < |v.steps| && Turned(u, v, i)
    ensures |u.steps| == |v.steps| && u.steps[i].state.CompensationCandidate? && u.steps[i].id == v.steps[i].id
    ensures u.saga.id == v.saga.id && u.saga.parentId == v.saga.parentId
  {
    hide FailureReason;
  }

  /** A call on a candidate for compensation starts it, or asks its children and waits. */
  lemma CandidateCall(w: World, w': World, u: View, i: nat, a: Action, followUp: bool, from: int, to: int,
      timeoutMs: int)
    requires i < |u.steps| && u.steps[i].state.CompensationCandidate?
    requires CallGoesWell(w, w', u, i, a, followUp, from, to, timeoutMs)
    ensures w'.bus == w.bus
    ensures followUp <==> AllChildrenCompensated(w.db, u.saga.id, u.steps[i].id)
    ensures followUp ==> IsUndoStart(a, i, to) && !a.Idle?
    ensures !followUp ==> a.Idle? && ChildrenAsked(w.db, w'.db, u.saga.id, u.steps[i].id)
  {
    hide AllChildrenCompensated, ChildrenAsked, RequestAdded, IsDue;
  }

  lemma TurnedGoesOn(w0: World, w': World, v: View, i: nat, acts: seq<Action>, now: int)
    requires i < |v.steps| && v.steps[i].state.ExecutionFailed?
    requires |acts| == 2 && acts[0] == Fail(i) && IsUndoStart(acts[1], i, now)
    requires AllChildrenCompensated(w0.db, v.saga.id, v.steps[i].id)
    requires EnabledAll(v, acts) && IsView(w'.db, ApplyAll(v, acts)) && IsView(w0.db, v)
    requires w'.bus == w0.bus && SameOutside(w0.db, w'.db, v.saga.id)
    ensures GoesWell(w0, w', v, i, acts, now)
  {
    hide EnabledAll, ApplyAll, IsView, SameOutside, AllChildrenCompensated, IsUndoStart;
  }

  lemma OutsideOn(a: Db, b: Db, c: Db, sid: string)
    requires SameOutside(a, b, sid) && SameOutside(b, c, sid)
    ensures SameOutside(a, c, sid)
  {
  }

  /**
   * A call in which nothing fails takes the run on. A run that is not followed up has come to what its
   * step's state calls for.
   */
  lemma CallTakesOn(w0: World, w: World, w': World, v: View, i: nat, acts: seq<Action>, u: View, a: Action,
      followUp: bool, from: int, to: int, timeoutMs: int)
    requires i < |v.steps| && GoesWell(w0, w, v, i, acts, from) && u == ApplyAll(v, acts) && HasBranch(v.steps[i].state)
    requires Moves(w, w', u, a, i) && i < |u.steps| && CallGoesWell(w, w', u, i, a, followUp, from, to, timeoutMs)
    requires v.steps[i].state.ExecutionFailed? ==> forall j :: i < j < |v.steps| ==> v.steps[j].state.ExecutionPending?
    ensures followUp ==> GoesWell(w0, w', v, i, acts + [a], to)
    ensures !followUp ==> Completes(w0, w', v, i, timeoutMs)
  {
    if acts == [] {
      EmptyRun(v);
      assert w == w0;
      hide *;
      assert [] + [a] == [a] && acts == [];
      if followUp {
        FirstCallGoesOn(w0, w', v, a, i, from, to, timeoutMs);
      } else {
        FirstCallEnds(w0, w', v, a, i, from, to, timeoutMs);
      }
    } else {
      hide *;
      NextCall(w0, w, w', v, i, acts, u, a, followUp, from, to, timeoutMs);
    }
  }
}
