/**
 * What each step of the coordinator does to one saga: the guard it checks (Enabled) and the rows
 * it writes (Apply). The handlers in Coordinator.dfy are proved against these two.
 */
module Transitions {
  import opened Types

  datatype Action =
    | Idle
    | Start(i: nat, executionId: string, now: int)
    | Send(i: nat, sentAt: int, timeoutMs: int)
    | TimeOutExecution(i: nat, now: int)
    | Finish(i: nat)
    | Fail(i: nat)
    | StartCompensation(i: nat, now: int)
    | TimeOutCompensation(i: nat, now: int)
    | FinishCompensation(i: nat)
    | Block(i: nat)
    | Receive(i: nat, status: ResultStatus, data: Data, now: int)
    | Request
    | Initiate(reason: string)
    | BlockExecution(i: nat)
    | Invalidate(reason: string)

  // ----- row updates -----

  function SetState(steps: seq<StepInstance>, i: nat, s: StepState): seq<StepInstance>
    requires i < |steps|
  {
    steps[i := steps[i].(state := s)]
  }

  function NewLog(now: int, isCompensation: bool): ExecutionLog {
    ExecutionLog(now, 0, 0, 0, 0, map[], "", isCompensation)
  }

  function LastLog(row: StepInstance): ExecutionLog
    requires row.history != []
  {
    row.history[|row.history| - 1]
  }

  function WithLastLog(row: StepInstance, log: ExecutionLog): StepInstance
    requires row.history != []
  {
    row.(history := row.history[|row.history| - 1 := log])
  }

  function Started(row: StepInstance, executionId: string, now: int): StepInstance {
    row.(state := ExecutionRunning, executionId := executionId, history := [NewLog(now, false)])
  }

  function MarkedSent(row: StepInstance, sentAt: int, timeoutMs: int): StepInstance
    requires row.history != []
  {
    WithLastLog(row, LastLog(row).(requestSentTs := sentAt, timeoutTs := sentAt + timeoutMs))
  }

  function TimedOut(row: StepInstance, now: int, s: StepState): StepInstance
    requires row.history != []
  {
    WithLastLog(row, LastLog(row).(conclusionTs := now)).(state := s)
  }

  function CompensationStarted(row: StepInstance, now: int): StepInstance {
    row.(state := CompensationRunning, history := row.history + [NewLog(now, true)])
  }

  /** Where a result of this status takes a step whose latest request was of the given kind. */
  function ResultState(isCompensation: bool, status: ResultStatus): StepState {
    match (isCompensation, status.StatusSuccess?)
    case (true, true) => CompensationSucceeded
    case (true, false) => CompensationFailed
    case (false, true) => ExecutionSucceeded
    case (false, false) => ExecutionFailed
  }

  /** The result is recorded on the row and in the latest log; the state is untouched. */
  function Recorded(row: StepInstance, data: Data, now: int): StepInstance
    requires row.history != []
  {
    var log := LastLog(row).(resultReceivedTs := now, result := data, conclusionTs := now);
    if LastLog(row).isCompensation
    then WithLastLog(row, log).(compensationResult := data)
    else WithLastLog(row, log).(result := data)
  }

  function Received(row: StepInstance, status: ResultStatus, data: Data, now: int): StepInstance
    requires row.history != []
  {
    Recorded(row, data, now).(state := ResultState(LastLog(row).isCompensation, status))
  }

  /** Late results are dropped in these states. CompensationBlocked is not among them. */
  predicate IgnoresResults(s: StepState) {
    s.ExecutionSucceeded? || s.ExecutionDone? || s.ExecutionFailed? || s.ExecutionAborted? || s.ExecutionBlocked?
    || s.CompensationPending? || s.CompensationCandidate? || s.CompensationSucceeded? || s.CompensationDone?
    || s.CompensationFailed?
  }

  /** Steps strictly between positions i and k that were still pending are aborted. */
  function AbortedUpTo(steps: seq<StepInstance>, i: nat, k: nat): seq<StepInstance> {
    seq(|steps|, j requires 0 <= j < |steps| =>
      if i < j < k && steps[j].state.ExecutionPending? then steps[j].(state := ExecutionAborted) else steps[j])
  }

  /** Steps before position k await their compensation. */
  function PendedUpTo(steps: seq<StepInstance>, k: nat): seq<StepInstance> {
    seq(|steps|, j requires 0 <= j < |steps| =>
      if j < k then steps[j].(state := CompensationPending) else steps[j])
  }

  /** The reason recorded for a failed step: the error of its first execution log that has one. */
  function FailureReason(row: StepInstance): string {
    FirstError(row.templateId, row.history)
  }

  function FirstError(templateId: string, history: seq<ExecutionLog>): string {
    if history == [] then "step '" + templateId + "' failed: unknown error"
    else
      var log := history[0];
      if log.isCompensation then FirstError(templateId, history[1..])
      else if log.error != "" then "step '" + templateId + "' failed: " + log.error
      else if "error" in log.result && log.result["error"] != "" then
        "step '" + templateId + "' failed: " + log.result["error"]
      else FirstError(templateId, history[1..])
  }

  /** The error an execution log reports, if any: its own, else the one in its result. */
  function ReportedError(log: ExecutionLog): string {
    if log.isCompensation then ""
    else if log.error == "" && "error" in log.result then log.result["error"]
    else log.error
  }

  /** The stored reason quotes the first error that the history reports, or says that none is known. */
  lemma {:induction false} ReasonQuotesTheFirstError(row: StepInstance, k: nat)
    requires k <= |row.history| && forall j :: 0 <= j < k ==> ReportedError(row.history[j]) == ""
    requires k < |row.history| ==> ReportedError(row.history[k]) != ""
    ensures FailureReason(row) == "step '" + row.templateId + "' failed: "
      + (if k < |row.history| then ReportedError(row.history[k]) else "unknown error")
    decreases k
  {
    if k > 0 {
      assert ReportedError(row.history[0]) == "";
      ReasonQuotesTheFirstError(row.(history := row.history[1..]), k - 1);
    }
  }

  lemma FailingQuotes(v: View, i: nat)
    requires Enabled(v, Fail(i))
    ensures Apply(v, Fail(i)).saga.compensationReason == FailureReason(v.steps[i])
  {
    hide FailureReason;
  }

  lemma OneAction(v: View, a: Action)
    requires Enabled(v, a)
    ensures EnabledAll(v, [a]) && ApplyAll(v, [a]) == Apply(v, a)
  {
    assert [a][1..] == [];
    EmptyRun(Apply(v, a));
    hide Enabled, Apply;
  }

  lemma TwoActions(v: View, a: Action, b: Action)
    requires Enabled(v, a) && Enabled(Apply(v, a), b)
    ensures EnabledAll(v, [a, b]) && ApplyAll(v, [a, b]) == Apply(Apply(v, a), b)
  {
    assert [a, b][1..] == [b];
    OneAction(Apply(v, a), b);
    hide Enabled, Apply;
  }

  /** The step waits for its first result, and its history has no error yet. */
  predicate AwaitsFirstResult(v: View, i: nat)
    requires i < |v.steps|
  {
    && v.steps[i].state.ExecutionRunning? && FailGuard(v, i)
    && |v.steps[i].history| == 1 && ReportedError(v.steps[i].history[0]) == "" && !v.steps[i].history[0].isCompensation
  }

  /** What a failed result says becomes the reason of the walk back, once the failure has been processed. */
  lemma FailuresAreQuoted(v: View, i: nat, status: ResultStatus, data: Data, now: int)
    requires i < |v.steps| && AwaitsFirstResult(v, i)
    requires !status.StatusSuccess? && !status.StatusInExecution? && now > 0
    ensures var acts := [Receive(i, status, data, now), Fail(i)];
      && EnabledAll(v, acts)
      && ApplyAll(v, acts).saga.compensationReason == "step '" + v.steps[i].templateId + "' failed: "
           + (if "error" in data && data["error"] != "" then data["error"] else "unknown error")
  {
    var w := Apply(v, Receive(i, status, data, now));
    assert Enabled(w, Fail(i));
    FailingQuotes(w, i);
    TwoActions(v, Receive(i, status, data, now), Fail(i));
    hide Enabled, Apply, EnabledAll, ApplyAll, FailGuard, FailureReason, FirstError;
    var row := Received(v.steps[i], status, data, now);
    assert w.steps[i] == row by { ReceiveWrites(v, i, status, data, now); }
    ReasonQuotesTheFirstError(row, if ReportedError(row.history[0]) != "" then 0 else 1);
  }

  lemma ReceiveWrites(v: View, i: nat, status: ResultStatus, data: Data, now: int)
    requires Enabled(v, Receive(i, status, data, now))
    ensures Apply(v, Receive(i, status, data, now)).steps[i] == Received(v.steps[i], status, data, now)
  {
  }

  /** A time-out leaves the reason unknown. */
  lemma TimeOutsAreUnknown(v: View, i: nat, now: int)
    requires i < |v.steps| && AwaitsFirstResult(v, i) && v.steps[i].history[0].requestSentTs > 0
    ensures var acts := [TimeOutExecution(i, now), Fail(i)];
      && EnabledAll(v, acts)
      && ApplyAll(v, acts).saga.compensationReason == "step '" + v.steps[i].templateId + "' failed: unknown error"
  {
    var w := Apply(v, TimeOutExecution(i, now));
    assert Enabled(w, Fail(i));
    FailingQuotes(w, i);
    TwoActions(v, TimeOutExecution(i, now), Fail(i));
    ReasonQuotesTheFirstError(w.steps[i], 1);
  }

  function Invalidated(v: View, reason: string): View {
    v.(saga := v.saga.(state := SagaInvalidState, compensationReason := reason))
  }

  function WithSagaState(v: View, s: SagaState): View {
    v.(saga := v.saga.(state := s))
  }

  // ----- guards the handlers check -----

  predicate StartGuard(v: View, i: nat)
    requires i < |v.steps|
  {
    && (i > 0 ==> v.steps[i-1].state.ExecutionDone?)
    && (i + 1 < |v.steps| ==> v.steps[i+1].state.ExecutionPending?)
  }

  predicate FinishGuard(v: View, i: nat)
    requires i < |v.steps|
  {
    if i + 1 < |v.steps| then v.steps[i+1].state.ExecutionPending?
    else forall j :: 0 <= j < |v.steps| && j != i ==> v.steps[j].state.ExecutionDone?
  }

  predicate FailGuard(v: View, i: nat)
    requires i < |v.steps|
  {
    forall j :: 0 <= j < i ==> v.steps[j].state.ExecutionDone?
  }

  predicate StartCompensationGuard(v: View, i: nat)
    requires i < |v.steps|
  {
    && (i > 0 ==> v.steps[i-1].state.CompensationPending?)
    && (forall j :: i < j < |v.steps| ==> v.steps[j].state.ExecutionAborted? || v.steps[j].state.CompensationDone?)
  }

  /** From the first aborted step on, every step is aborted; before it, every step is compensated. */
  predicate FinishCompensationGuard(v: View, i: nat)
    requires i < |v.steps|
  {
    if i > 0 then v.steps[i-1].state.CompensationPending?
    else
      && (forall j :: 0 < j < |v.steps| ==> v.steps[j].state.ExecutionAborted? || v.steps[j].state.CompensationDone?)
      && (forall j, k :: 0 < j < k < |v.steps| && v.steps[j].state.ExecutionAborted? ==>
           v.steps[k].state.ExecutionAborted?)
  }

  predicate AllDone(v: View) {
    forall j :: 0 <= j < |v.steps| ==> v.steps[j].state.ExecutionDone?
  }

  /** States for which the step processor has no branch. */
  predicate Unprocessable(s: StepState) {
    s.ExecutionPending? || s.ExecutionBlocked? || s.ExecutionAborted? || s.CompensationPending?
        || s.CompensationBlocked?
  }

  /** Every check the step processor makes on step i succeeds. */
  predicate ChecksPass(v: View, i: nat)
    requires i < |v.steps|
  {
    var row := v.steps[i];
    match row.state
    case ExecutionCandidate => row.history == [] && StartGuard(v, i)
    case ExecutionRunning => row.history != [] && FailGuard(v, i)
    case ExecutionSucceeded => FinishGuard(v, i)
    case ExecutionFailed => FailGuard(v, i)
    case CompensationCandidate => StartCompensationGuard(v, i)
    case CompensationRunning => row.history != [] && LastLog(row).isCompensation
    case CompensationSucceeded => FinishCompensationGuard(v, i)
    case CompensationFailed => true
    case ExecutionDone => true
    case CompensationDone => true
    case ExecutionPending => false
    case ExecutionBlocked => false
    case ExecutionAborted => false
    case CompensationPending => false
    case CompensationBlocked => false
  }

  /** The handler that performs a found every one of its checks satisfied. */
  predicate Enabled(v: View, a: Action) {
    match a
    case Idle => true
    case Start(i, _, _) =>
      i < |v.steps| && v.steps[i].state.ExecutionCandidate? && v.steps[i].history == [] && StartGuard(v, i)
    case Send(i, sentAt, timeoutMs) =>
      && i < |v.steps| && sentAt > 0 && timeoutMs > 0
      && v.steps[i].history != [] && LastLog(v.steps[i]).requestSentTs == 0 && LastLog(v.steps[i]).timeoutTs == 0
      && (v.steps[i].state.ExecutionRunning? || v.steps[i].state.CompensationRunning?)
      && (v.steps[i].state.ExecutionRunning? ==> FailGuard(v, i))
      && (v.steps[i].state.CompensationRunning? ==> LastLog(v.steps[i]).isCompensation)
    case TimeOutExecution(i, _) =>
      i < |v.steps| && v.steps[i].state.ExecutionRunning? && v.steps[i].history != []
      && LastLog(v.steps[i]).requestSentTs > 0
    case Finish(i) =>
      i < |v.steps| && v.steps[i].state.ExecutionSucceeded? && FinishGuard(v, i)
    case Fail(i) =>
      i < |v.steps| && v.steps[i].state.ExecutionFailed? && FailGuard(v, i)
    case StartCompensation(i, _) =>
      i < |v.steps| && v.steps[i].state.CompensationCandidate? && StartCompensationGuard(v, i)
    case TimeOutCompensation(i, _) =>
      i < |v.steps| && v.steps[i].state.CompensationRunning? && v.steps[i].history != []
      && LastLog(v.steps[i]).isCompensation && LastLog(v.steps[i]).requestSentTs > 0
    case FinishCompensation(i) =>
      i < |v.steps| && v.steps[i].state.CompensationSucceeded? && FinishCompensationGuard(v, i)
    case Block(i) =>
      i < |v.steps| && v.steps[i].state.CompensationFailed?
    case Receive(i, status, _, now) =>
      i < |v.steps| && !IgnoresResults(v.steps[i].state) && v.steps[i].history != [] && !status.StatusInExecution?
          && now > 0
    case Request =>
      v.saga.state.SagaCommitted?
    case Initiate(_) =>
      v.saga.state.SagaCompensationRequested? && |v.steps| > 0 && AllDone(v)
    case BlockExecution(i) =>
      && i < |v.steps|
      && (if v.steps[i].history != [] then v.steps[i].state.ExecutionCandidate? else v.steps[i].state.ExecutionRunning?)
    case Invalidate(_) => true
  }

  /** The saga after a. */
  function Apply(v: View, a: Action): View
    requires Enabled(v, a)
  {
    match a
    case Idle => v
    case Start(i, executionId, now) =>
      v.(steps := v.steps[i := Started(v.steps[i], executionId, now)])
    case Send(i, sentAt, timeoutMs) =>
      v.(steps := v.steps[i := MarkedSent(v.steps[i], sentAt, timeoutMs)])
    case TimeOutExecution(i, now) =>
      v.(steps := v.steps[i := TimedOut(v.steps[i], now, ExecutionFailed)])
    case Finish(i) =>
      if i + 1 < |v.steps|
      then v.(steps := SetState(SetState(v.steps, i, ExecutionDone), i + 1, ExecutionCandidate))
      else WithSagaState(v.(steps := SetState(v.steps, i, ExecutionDone)), SagaCommitted)
    case Fail(i) =>
      View(v.saga.(compensationReason := FailureReason(v.steps[i])),
           SetState(PendedUpTo(AbortedUpTo(v.steps, i, |v.steps|), i), i, CompensationCandidate))
    case StartCompensation(i, now) =>
      v.(steps := v.steps[i := CompensationStarted(v.steps[i], now)])
    case TimeOutCompensation(i, now) =>
      v.(steps := v.steps[i := TimedOut(v.steps[i], now, CompensationFailed)])
    case FinishCompensation(i) =>
      if i > 0
      then v.(steps := SetState(SetState(v.steps, i - 1, CompensationCandidate), i, CompensationDone))
      else WithSagaState(v.(steps := SetState(v.steps, i, CompensationDone)), SagaCompensated)
    case Block(i) =>
      WithSagaState(v.(steps := SetState(v.steps, i, CompensationBlocked)), SagaBlocked)
    case Receive(i, status, data, now) =>
      v.(steps := v.steps[i := Received(v.steps[i], status, data, now)])
    case Request =>
      WithSagaState(v, SagaCompensationRequested)
    case Initiate(reason) =>
      var last := |v.steps| - 1;
      View(v.saga.(state := SagaRunning, compensationReason := reason),
           PendedUpTo(SetState(v.steps, last, CompensationCandidate), last))
    case BlockExecution(i) =>
      v.(steps := SetState(v.steps, i, ExecutionBlocked))
    case Invalidate(reason) =>
      Invalidated(v, reason)
  }

  /**
   * What one call of the step processor does to the tables: the action's rows, or, when the step
   * has to wait, only requests to its committed children. Compensation starts on a step only when
   * every child it spawned was compensated.
   */
  ghost predicate Moved(db: Db, db': Db, v: View, a: Action, stepId: string)
    requires Enabled(v, a)
  {
    if a.Idle? then IsView(db', v) && ChildrenRequested(db, db', v.saga.id, stepId)
    else Landed(db, db', Apply(v, a)) && (a.StartCompensation? ==> AllChildrenCompensated(db, v.saga.id, stepId))
  }

  lemma LandedIsMoved(db: Db, db': Db, v: View, a: Action, stepId: string)
    requires IsView(db, v) && Enabled(v, a) && Landed(db, db', Apply(v, a)) && !a.StartCompensation?
    ensures Moved(db, db', v, a, stepId)
  {
    if a.Idle? {
      LandedDetermines(db, db', v);
    }
  }

  // ----- sequences of actions -----

  /** Each action is enabled in the state the ones before it lead to. */
  predicate EnabledAll(v: View, acts: seq<Action>)
    decreases |acts|
  {
    acts == [] || (Enabled(v, acts[0]) && EnabledAll(Apply(v, acts[0]), acts[1..]))
  }

  function ApplyAll(v: View, acts: seq<Action>): View
    requires EnabledAll(v, acts)
    decreases |acts|
  {
    if acts == [] then v else ApplyAll(Apply(v, acts[0]), acts[1..])
  }

  lemma EmptyRun(v: View)
    ensures EnabledAll(v, []) && ApplyAll(v, []) == v
  {
  }

  predicate Invalidates(acts: seq<Action>) {
    exists a :: a in acts && a.Invalidate?
  }

  lemma {:induction false} ExtendRun(v: View, acts: seq<Action>, a: Action)
    requires EnabledAll(v, acts) && Enabled(ApplyAll(v, acts), a)
    ensures EnabledAll(v, acts + [a]) && ApplyAll(v, acts + [a]) == Apply(ApplyAll(v, acts), a)
    decreases |acts|
  {
    if acts == [] {
      assert (acts + [a])[1..] == [];
    } else {
      ExtendRun(Apply(v, acts[0]), acts[1..], a);
      assert (acts + [a])[1..] == acts[1..] + [a];
    }
  }

  // ----- facts about every action -----

  lemma ApplyKeepsLength(v: View, a: Action)
    requires Enabled(v, a)
    ensures |Apply(v, a).steps| == |v.steps|
  {
  }

  /** No action changes which rows a saga has or how they are linked. */
  lemma ApplyKeepsIdentity(v: View, a: Action)
    requires Enabled(v, a)
    ensures var w := Apply(v, a);
      && |w.steps| == |v.steps|
      && (forall j :: 0 <= j < |v.steps| ==> SameIdentity(w.steps[j], v.steps[j]))
      && w.saga == v.saga.(state := w.saga.state, compensationReason := w.saga.compensationReason)
  {
    ApplyKeepsLength(v, a);
    ApplyKeepsOrigin(v, a);
    hide Apply, Enabled;
    forall j | 0 <= j < |v.steps| ensures SameIdentity(Apply(v, a).steps[j], v.steps[j]) {
      ApplyKeepsRowIdentity(v, a, j);
    }
  }

  lemma ApplyKeepsOrigin(v: View, a: Action)
    requires Enabled(v, a)
    ensures var w := Apply(v, a);
      w.saga == v.saga.(state := w.saga.state, compensationReason := w.saga.compensationReason)
  {
  }

  lemma ApplyKeepsRowIdentity(v: View, a: Action, j: nat)
    requires Enabled(v, a) && j < |v.steps|
    ensures SameIdentity(Apply(v, a).steps[j], v.steps[j])
  {
    if a.Fail? || a.Initiate? {
      TurnsKeepRowIdentity(v, a, j);
    } else if a.Finish? || a.FinishCompensation? || a.Block? || a.BlockExecution? {
      StateChangesKeepRowIdentity(v, a, j);
    } else {
      LogChangesKeepRowIdentity(v, a, j);
    }
  }

  lemma TurnsKeepRowIdentity(v: View, a: Action, j: nat)
    requires Enabled(v, a) && j < |v.steps| && (a.Fail? || a.Initiate?)
    ensures SameIdentity(Apply(v, a).steps[j], v.steps[j])
  {
  }

  lemma StateChangesKeepRowIdentity(v: View, a: Action, j: nat)
    requires Enabled(v, a) && j < |v.steps|
    requires a.Finish? || a.FinishCompensation? || a.Block? || a.BlockExecution?
    ensures SameIdentity(Apply(v, a).steps[j], v.steps[j])
  {
  }

  lemma LogChangesKeepRowIdentity(v: View, a: Action, j: nat)
    requires Enabled(v, a) && j < |v.steps|
    requires !a.Finish? && !a.FinishCompensation? && !a.Block? && !a.BlockExecution? && !a.Fail? && !a.Initiate?
    ensures SameIdentity(Apply(v, a).steps[j], v.steps[j])
  {
  }

  lemma ApplyKeepsLinks(v: View, a: Action)
    requires Enabled(v, a) && Linked(v)
    ensures Linked(Apply(v, a))
  {
    ApplyKeepsIdentity(v, a);
    var w := Apply(v, a);
    forall j {:trigger w.steps[j]} | 0 <= j < |w.steps| ensures LinkedRow(w.steps[j], w.saga.id, w.saga.stepIds, j) {
      assert LinkedRow(v.steps[j], v.saga.id, v.saga.stepIds, j);
    }
  }
}
