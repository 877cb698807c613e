/**
 * Whole runs of one saga, from its submission on: the order in which steps are executed and
 * compensated, what each saga state says about the steps, and how long a run can be.
 */
module Runs {
  import opened Types
  import opened Transitions
  import opened Machine

  /** A saga as the submission handler stores it: the first step a candidate, the others pending. */
  predicate IsNew(v: View) {
    && |v.steps| > 0
    && v.saga.state.SagaRunning?
    && (forall j :: 0 <= j < |v.steps| ==>
          v.steps[j].history == [] && v.steps[j].state == (if j == 0 then ExecutionCandidate else ExecutionPending))
  }

  lemma NewSagasFit(v: View)
    requires IsNew(v)
    ensures Inv(v, Forward(0, Candidate))
  {
  }

  // ----- the machine over a run -----

  function NextAll(m: Position, acts: seq<Action>, n: nat): Position
    decreases |acts|
  {
    if acts == [] then m else NextAll(Next(m, acts[0], n), acts[1..], n)
  }

  /** The shape survives every run, whatever its mix of drivers, results and requests. */
  lemma {:induction false} RunRefinesMachine(v: View, m: Position, acts: seq<Action>)
    requires Inv(v, m) && EnabledAll(v, acts)
    ensures |ApplyAll(v, acts).steps| == |v.steps|
    ensures Inv(ApplyAll(v, acts), NextAll(m, acts, |v.steps|))
    decreases |acts|
  {
    hide Inv, Apply, Enabled, Next;
    if acts != [] {
      ActionRefinesMachine(v, m, acts[0]);
      ApplyKeepsLength(v, acts[0]);
      RunRefinesMachine(Apply(v, acts[0]), Next(m, acts[0], |v.steps|), acts[1..]);
    }
  }

  /** No run changes which rows a saga has, how they are linked, or what the saga row says of its origin. */
  lemma {:induction false} RunKeepsIdentity(v: View, acts: seq<Action>)
    requires EnabledAll(v, acts)
    ensures var w := ApplyAll(v, acts);
      && |w.steps| == |v.steps|
      && (forall j :: 0 <= j < |v.steps| ==> SameIdentity(w.steps[j], v.steps[j]))
      && w.saga == v.saga.(state := w.saga.state, compensationReason := w.saga.compensationReason)
    decreases |acts|
  {
    hide Apply, Enabled;
    if acts != [] {
      ApplyKeepsIdentity(v, acts[0]);
      RunKeepsIdentity(Apply(v, acts[0]), acts[1..]);
    }
  }

  // ----- last in, first out -----

  function StartedBy(a: Action): seq<nat> {
    if a.Start? then [a.i] else []
  }

  function UndoneBy(a: Action): seq<nat> {
    if a.FinishCompensation? then [a.i] else []
  }

  /** The steps whose execution was started, in order. */
  function StartOrder(acts: seq<Action>): seq<nat> {
    if acts == [] then [] else StartedBy(acts[0]) + StartOrder(acts[1..])
  }

  /** The steps whose compensation was concluded, in order. */
  function UndoOrder(acts: seq<Action>): seq<nat> {
    if acts == [] then [] else UndoneBy(acts[0]) + UndoOrder(acts[1..])
  }

  function Reverse(s: seq<nat>): (r: seq<nat>)
    ensures |r| == |s| && forall k :: 0 <= k < |s| ==> r[k] == s[|s| - 1 - k]
  {
    seq(|s|, k requires 0 <= k < |s| => s[|s| - 1 - k])
  }

  /** [0, 1, .., k-1] */
  function Ascending(k: nat): seq<nat> {
    seq(k, j => j)
  }

  /** How many steps have been started when the machine is at m. */
  function StartedAt(m: Position, n: nat): nat {
    match m
    case Forward(i, Candidate) => i
    case Forward(i, _) => i + 1
    case Complete => n
    case Undoing(_, last, _) => last + 1
    case Undone(last) => last + 1
  }

  /** How many steps have been compensated when the machine is at m. */
  function UndoneAt(m: Position): nat {
    match m
    case Forward(_, _) => 0
    case Complete => 0
    case Undoing(i, last, _) => if i <= last then last - i else 0
    case Undone(last) => last + 1
  }

  /** The compensations concluded so far undo the started steps from the end. */
  predicate UndoneFromTheEnd(m: Position, n: nat, started: seq<nat>, undone: seq<nat>) {
    && started == Ascending(StartedAt(m, n))
    && |undone| == UndoneAt(m) <= |started|
    && undone == Reverse(started)[..|undone|]
  }

  lemma ActionKeepsOrder(v: View, m: Position, a: Action, started: seq<nat>, undone: seq<nat>)
    requires Inv(v, m) && Enabled(v, a) && UndoneFromTheEnd(m, |v.steps|, started, undone)
    ensures UndoneFromTheEnd(Next(m, a, |v.steps|), |v.steps|, started + StartedBy(a), undone + UndoneBy(a))
  {
    EnabledActionsArePermitted(v, m, a);
    hide Inv, Enabled, Apply;
    CounterFollows(m, v.saga.state, a, |v.steps|);
    hide Next, Permits, StartedAt, UndoneAt, Fits;
    if a.Start? {
      assert started + [a.i] == Ascending(a.i + 1);
    } else if a.FinishCompensation? {
      assert undone + [a.i] == Reverse(started)[..|undone| + 1];
    } else {
      assert started + [] == started && undone + [] == undone;
    }
  }

  /** The two counts move with the actions, and a started or compensated step is the next in line. */
  lemma CounterFollows(m: Position, s: SagaState, a: Action, n: nat)
    requires Fits(m, n) && Permits(m, s, a)
    ensures var m' := Next(m, a, n);
      && UndoneAt(m) <= StartedAt(m, n)
      && StartedAt(m', n) == StartedAt(m, n) + (if a.Start? then 1 else 0)
      && UndoneAt(m') == UndoneAt(m) + (if a.FinishCompensation? then 1 else 0)
      && UndoneAt(m') <= StartedAt(m', n)
      && (a.Start? ==> a.i == StartedAt(m, n))
      && (a.FinishCompensation? ==> a.i == StartedAt(m, n) - 1 - UndoneAt(m))
  {
  }

  lemma {:induction false} RunKeepsOrder(v: View, m: Position, acts: seq<Action>, started: seq<nat>, undone: seq<nat>)
    requires Inv(v, m) && EnabledAll(v, acts) && UndoneFromTheEnd(m, |v.steps|, started, undone)
    ensures UndoneFromTheEnd(NextAll(m, acts, |v.steps|), |v.steps|, started + StartOrder(acts),
      undone + UndoOrder(acts))
    decreases |acts|
  {
    hide Inv, Apply, Enabled, Next, UndoneFromTheEnd, StartedBy, UndoneBy;
    if acts == [] {
      assert started + [] == started && undone + [] == undone;
    } else {
      var a := acts[0];
      ActionKeepsOrder(v, m, a, started, undone);
      ActionRefinesMachine(v, m, a);
      ApplyKeepsLength(v, a);
      RunKeepsOrder(Apply(v, a), Next(m, a, |v.steps|), acts[1..], started + StartedBy(a), undone + UndoneBy(a));
      OrdersUnfold(acts, started, undone);
    }
  }

  lemma OrdersUnfold(acts: seq<Action>, started: seq<nat>, undone: seq<nat>)
    requires acts != []
    ensures started + StartOrder(acts) == started + StartedBy(acts[0]) + StartOrder(acts[1..])
    ensures undone + UndoOrder(acts) == undone + UndoneBy(acts[0]) + UndoOrder(acts[1..])
  {
  }

  /**
   * Steps are started in the order 0, 1, 2, .. and compensated from the last started one back, each
   * at most once; a saga that ends compensated has compensated exactly the steps that were started:
   * those up to the one that failed, or all of them when the saga had been committed.
   */
  lemma LastInFirstOut(v: View, acts: seq<Action>)
    requires IsNew(v) && EnabledAll(v, acts)
    ensures StartOrder(acts) == Ascending(|StartOrder(acts)|) && |StartOrder(acts)| <= |v.steps|
    ensures |UndoOrder(acts)| <= |StartOrder(acts)|
    ensures UndoOrder(acts) == Reverse(StartOrder(acts))[..|UndoOrder(acts)|]
    ensures var w := ApplyAll(v, acts);
      && |w.steps| == |v.steps|
      && (forall j :: 0 <= j < |w.steps| ==> (w.steps[j].state.CompensationDone? <==> j in UndoOrder(acts)))
      && (w.saga.state.SagaCompensated? ==> UndoOrder(acts) == Reverse(StartOrder(acts)) && |StartOrder(acts)| >= 1)
    ensures (exists a :: a in acts && a.Initiate?) ==> |StartOrder(acts)| == |v.steps|
    ensures forall k: nat :: Fail(k) in acts ==> |StartOrder(acts)| == k + 1
  {
    hide *;
    if exists a :: a in acts && a.Initiate? {
      InitiationUndoesEverything(v, acts);
    }
    forall k: nat | Fail(k) in acts ensures |StartOrder(acts)| == k + 1 {
      FailureEndsTheForwardRun(v, acts, k);
    }
    var m := OrderSoFar(v, acts);
    OrderAtTheEnd(ApplyAll(v, acts), m, StartOrder(acts), UndoOrder(acts));
  }

  lemma OrderSoFar(v: View, acts: seq<Action>) returns (m: Position)
    requires IsNew(v) && EnabledAll(v, acts)
    ensures |ApplyAll(v, acts).steps| == |v.steps| && Inv(ApplyAll(v, acts), m)
    ensures UndoneFromTheEnd(m, |v.steps|, StartOrder(acts), UndoOrder(acts))
    ensures m == NextAll(Forward(0, Candidate), acts, |v.steps|)
  {
    hide *;
    NewSagasFit(v);
    m := Forward(0, Candidate);
    NothingOrderedYet(|v.steps|);
    RunRefinesMachine(v, m, acts);
    RunKeepsOrder(v, m, acts, [], []);
    assert [] + StartOrder(acts) == StartOrder(acts) && [] + UndoOrder(acts) == UndoOrder(acts);
    m := NextAll(m, acts, |v.steps|);
  }

  lemma NothingOrderedYet(n: nat)
    ensures UndoneFromTheEnd(Forward(0, Candidate), n, [], [])
  {
  }

  /** What the two orders say about a saga at position m. */
  lemma OrderAtTheEnd(w: View, m: Position, started: seq<nat>, undone: seq<nat>)
    requires Inv(w, m) && UndoneFromTheEnd(m, |w.steps|, started, undone)
    ensures started == Ascending(|started|) && |undone| <= |started| <= |w.steps|
    ensures undone == Reverse(started)[..|undone|]
    ensures forall j :: 0 <= j < |w.steps| ==> (w.steps[j].state.CompensationDone? <==> j in undone)
    ensures w.saga.state.SagaCompensated? ==> undone == Reverse(started) && |started| >= 1
  {
    forall j | 0 <= j < |w.steps| ensures w.steps[j].state.CompensationDone? <==> j in undone {
      assert w.steps[j].state == Letter(m, j);
      UndoneAtPosition(m, |w.steps|, started, undone, j);
    }
    if w.saga.state.SagaCompensated? {
      assert Reverse(started)[..|undone|] == Reverse(started);
    }
  }

  lemma UndoneAtPosition(m: Position, n: nat, started: seq<nat>, undone: seq<nat>, j: nat)
    requires Fits(m, n) && j < n && UndoneFromTheEnd(m, n, started, undone)
    ensures Letter(m, j).CompensationDone? <==> j in undone
  {
    assert forall k :: 0 <= k < |undone| ==> undone[k] == |started| - 1 - k;
    if Letter(m, j).CompensationDone? {
      assert undone[|started| - 1 - j] == j;
    }
  }

  /** The action begins the backward walk at step k: that step failed, or all steps of a committed saga are undone. */
  predicate TurnsAt(a: Action, k: nat, n: nat) {
    a == Fail(k) || (a.Initiate? && k == n - 1)
  }

  /** Once step k has failed, no later step is ever started: the steps to undo are k, k-1, .., 0. */
  lemma FailureEndsTheForwardRun(v: View, acts: seq<Action>, k: nat)
    requires IsNew(v) && EnabledAll(v, acts) && Fail(k) in acts
    ensures |StartOrder(acts)| == k + 1
  {
    NewSagasFit(v);
    TurnIsRemembered(v, Forward(0, Candidate), acts, k);
    var m := OrderSoFar(v, acts);
  }

  /** A committed saga that is compensated later had all its steps started: they are undone n-1, .., 0. */
  lemma InitiationUndoesEverything(v: View, acts: seq<Action>)
    requires IsNew(v) && EnabledAll(v, acts) && exists a :: a in acts && a.Initiate?
    ensures |StartOrder(acts)| == |v.steps|
  {
    NewSagasFit(v);
    TurnIsRemembered(v, Forward(0, Candidate), acts, |v.steps| - 1);
    var m := OrderSoFar(v, acts);
  }

  lemma {:induction false} TurnIsRemembered(v: View, m: Position, acts: seq<Action>, k: nat)
    requires Inv(v, m) && EnabledAll(v, acts)
    requires (exists a :: a in acts && TurnsAt(a, k, |v.steps|)) || StartedForGood(m, k)
    ensures StartedForGood(NextAll(m, acts, |v.steps|), k)
    decreases |acts|
  {
    hide Inv, Apply, Enabled, Next, StartedForGood, TurnsAt;
    if acts != [] {
      var a := acts[0];
      assert acts == [a] + acts[1..];
      TurnPinsTheLastStep(v, m, a, k);
      ActionRefinesMachine(v, m, a);
      ApplyKeepsLength(v, a);
      TurnIsRemembered(Apply(v, a), Next(m, a, |v.steps|), acts[1..], k);
    }
  }

  /** The backward walk has begun and step k is the last step it covers. */
  predicate StartedForGood(m: Position, k: nat) {
    (m.Undoing? || m.Undone?) && m.last == k
  }

  lemma TurnPinsTheLastStep(v: View, m: Position, a: Action, k: nat)
    requires Inv(v, m) && Enabled(v, a)
    ensures TurnsAt(a, k, |v.steps|) || StartedForGood(m, k) ==> StartedForGood(Next(m, a, |v.steps|), k)
  {
    EnabledActionsArePermitted(v, m, a);
    PositionFits(v, m);
    hide Enabled, Inv;
  }

  // ----- what the saga state says about the steps -----

  predicate IsActive(s: StepState) {
    s.ExecutionCandidate? || s.ExecutionRunning? || s.ExecutionSucceeded? || s.ExecutionFailed?
    || s.CompensationCandidate? || s.CompensationRunning? || s.CompensationSucceeded? || s.CompensationFailed?
  }

  /** Steps before the cut are compensated, the others were never executed. */
  predicate IsCompensatedVector(v: View, cut: nat) {
    && 1 <= cut <= |v.steps|
    && (forall j :: 0 <= j < cut ==> v.steps[j].state.CompensationDone?)
    && (forall j :: cut <= j < |v.steps| ==> v.steps[j].state.ExecutionAborted?)
  }

  predicate IsTheActiveStep(v: View, i: nat) {
    i < |v.steps| && forall j :: 0 <= j < |v.steps| ==> (IsActive(v.steps[j].state) <==> j == i)
  }

  lemma SagaStateTellsSteps(v: View, m: Position)
    requires Inv(v, m)
    ensures v.saga.state.SagaRunning? ==> exists i :: IsTheActiveStep(v, i)
    ensures v.saga.state.SagaCommitted? || v.saga.state.SagaCompensationRequested? ==> AllDone(v)
    ensures v.saga.state.SagaCompensated? ==> exists cut :: IsCompensatedVector(v, cut)
    ensures v.saga.state.SagaBlocked? ==> forall j :: 0 <= j < |v.steps| ==>
      v.steps[j].state.ExecutionAborted? || IsCompensationState(v.steps[j].state)
  {
    assert forall j :: 0 <= j < |v.steps| ==> v.steps[j].state == Letter(m, j);
    if v.saga.state.SagaRunning? {
      assert IsTheActiveStep(v, m.i);
    }
    if v.saga.state.SagaCompensated? {
      assert IsCompensatedVector(v, m.last + 1);
    }
  }

  /** Only a request to compensate, or being marked invalid, takes a saga out of the committed state. */
  lemma CommittedLeavesByRequest(v: View, m: Position, a: Action)
    requires Inv(v, m) && Enabled(v, a) && v.saga.state.SagaCommitted?
    requires !Apply(v, a).saga.state.SagaCommitted?
    ensures a.Request? || a.Invalidate?
    ensures Apply(v, a).steps == v.steps
  {
    EnabledActionsArePermitted(v, m, a);
  }

  // ----- how long a run can be -----

  predicate IsSent(row: StepInstance) {
    row.history != [] && LastLog(row).requestSentTs > 0
  }

  /** Actions that move a saga, apart from those that react to a late result. */
  predicate IsWork(a: Action) {
    !a.Idle? && !a.Invalidate?
  }

  /** A result for a blocked compensation, which revives it. */
  predicate Revives(v: View, a: Action)
    requires Enabled(v, a)
  {
    a.Receive? && v.steps[a.i].state.CompensationBlocked?
  }

  /** How many actions a saga of n steps has left at position m when nothing revives it. */
  function WorkAt(m: Position, n: nat, s: SagaState, sent: bool): nat
    requires Fits(m, n)
  {
    match m
    case Forward(i, Candidate) => 4 * (n - i) + 4 * n + 2
    case Forward(i, Running) => 4 * (n - i) + 4 * n + (if sent then 0 else 1)
    case Forward(i, _) => 4 * (n - i) + 4 * n - 1
    case Complete => 4 * n + (if s.SagaCommitted? then 2 else if s.SagaCompensationRequested? then 1 else 0)
    case Undoing(i, _, UndoCandidate) => 4 * i + 4
    case Undoing(i, _, UndoRunning) => 4 * i + (if sent then 2 else 3)
    case Undoing(i, _, UndoBlocked) => 4 * i
    case Undoing(i, _, _) => 4 * i + 1
    case Undone(_) => 0
  }

  function Work(v: View, m: Position): nat
    requires Fits(m, |v.steps|)
  {
    WorkAt(m, |v.steps|, v.saga.state, (m.Forward? || m.Undoing?) && IsSent(v.steps[m.i]))
  }

  /** Whether the request of the active step is out, before and after an action. */
  lemma SentFollows(v: View, a: Action)
    requires Enabled(v, a)
    ensures a.Start? || a.StartCompensation? ==> !IsSent(Apply(v, a).steps[a.i])
    ensures a.Send? ==> !IsSent(v.steps[a.i]) && IsSent(Apply(v, a).steps[a.i])
  {
  }

  lemma SagaFollows(v: View, a: Action)
    requires Enabled(v, a)
    ensures a.Request? ==> Apply(v, a).saga.state.SagaCompensationRequested?
    ensures a.Invalidate? ==> Apply(v, a).saga.state.SagaInvalidState?
    ensures a.Idle? ==> Apply(v, a) == v
    ensures a.Invalidate? ==> Apply(v, a).steps == v.steps
  {
  }

  lemma WorkGetsDone(v: View, m: Position, a: Action)
    requires Inv(v, m) && Enabled(v, a)
    ensures Fits(m, |v.steps|) && |Apply(v, a).steps| == |v.steps| && Fits(Next(m, a, |v.steps|), |v.steps|)
    ensures var left := Work(Apply(v, a), Next(m, a, |v.steps|));
      && (IsWork(a) && !Revives(v, a) ==> left < Work(v, m))
      && (!IsWork(a) ==> left <= Work(v, m))
      && (Revives(v, a) ==> left == Work(v, m) + 1)
  {
    EnabledActionsArePermitted(v, m, a);
    PositionsFollow(v, m, a);
    ApplyKeepsLength(v, a);
    SentFollows(v, a);
    SagaFollows(v, a);
    assert a.Receive? ==> v.steps[a.i].state == Letter(m, a.i);
    hide IsSent, Apply, Enabled, Inv, WorkAt;
    var w, m' := Apply(v, a), Next(m, a, |v.steps|);
    hide Next;
    var sent := (m.Forward? || m.Undoing?) && IsSent(v.steps[m.i]);
    var sent' := (m'.Forward? || m'.Undoing?) && IsSent(w.steps[m'.i]);
    WorkFalls(m, |v.steps|, a, v.saga.state, w.saga.state, sent, sent');
  }

  lemma WorkFalls(m: Position, n: nat, a: Action, s: SagaState, s': SagaState, sent: bool, sent': bool)
    requires Permits(m, s, a) && Fits(m, n) && Fits(Next(m, a, n), n)
    requires a.Start? || a.StartCompensation? ==> !sent'
    requires a.Send? ==> !sent && sent'
    requires a.Request? ==> s'.SagaCompensationRequested?
    requires a.Invalidate? ==> s'.SagaInvalidState? && sent' == sent
    requires a.Idle? ==> s' == s && sent' == sent
    ensures var left, before := WorkAt(Next(m, a, n), n, s', sent'), WorkAt(m, n, s, sent);
      var revives := a.Receive? && m.Undoing? && m.undo.UndoBlocked?;
      && (IsWork(a) && !revives ==> left < before)
      && (!IsWork(a) ==> left <= before)
      && (revives ==> left == before + 1)
  {
    if a.Receive? {
      ReceiptsAreWork(m, n, a, s, s', sent, sent');
    }
  }

  lemma ReceiptsAreWork(m: Position, n: nat, a: Action, s: SagaState, s': SagaState, sent: bool, sent': bool)
    requires Permits(m, s, a) && Fits(m, n) && Fits(Next(m, a, n), n) && a.Receive?
    ensures var left, before := WorkAt(Next(m, a, n), n, s', sent'), WorkAt(m, n, s, sent);
      if m.Undoing? && m.undo.UndoBlocked? then left == before + 1 else left < before
  {
  }

  function CountWork(acts: seq<Action>): nat {
    if acts == [] then 0 else (if IsWork(acts[0]) then 1 else 0) + CountWork(acts[1..])
  }

  function CountRevivals(v: View, acts: seq<Action>): nat
    requires EnabledAll(v, acts)
    decreases |acts|
  {
    if acts == [] then 0 else (if Revives(v, acts[0]) then 1 else 0) + CountRevivals(Apply(v, acts[0]), acts[1..])
  }

  lemma {:induction false} RunSpendsWork(v: View, m: Position, acts: seq<Action>)
    requires Inv(v, m) && EnabledAll(v, acts)
    ensures Fits(m, |v.steps|) && CountWork(acts) <= Work(v, m) + 2 * CountRevivals(v, acts)
    decreases |acts|
  {
    PositionFits(v, m);
    hide Inv, Apply, Enabled, Next, Work, IsWork, Revives;
    if acts != [] {
      ActionRefinesMachine(v, m, acts[0]);
      ApplyKeepsLength(v, acts[0]);
      WorkGetsDone(v, m, acts[0]);
      RevivalIsWork(v, acts[0]);
      RunSpendsWork(Apply(v, acts[0]), Next(m, acts[0], |v.steps|), acts[1..]);
    }
  }

  lemma PositionFits(v: View, m: Position)
    requires Inv(v, m)
    ensures Fits(m, |v.steps|)
  {
  }

  lemma RevivalIsWork(v: View, a: Action)
    requires Enabled(v, a)
    ensures Revives(v, a) ==> IsWork(a)
  {
  }

  /**
   * A saga of n steps performs at most 8n + 2 actions in its life, plus two for every result that
   * revives a blocked compensation.
   */
  lemma RunsAreBounded(v: View, acts: seq<Action>)
    requires IsNew(v) && EnabledAll(v, acts)
    ensures CountWork(acts) <= 8 * |v.steps| + 2 + 2 * CountRevivals(v, acts)
  {
    NewSagasFit(v);
    RunSpendsWork(v, Forward(0, Candidate), acts);
  }

  // ----- what becomes of results -----

  /** The step's execution has ended, so its result is final. */
  predicate HasFinalResult(s: StepState) {
    s.ExecutionSucceeded? || s.ExecutionDone? || s.ExecutionFailed? || IsCompensationState(s)
  }

  /** A result goes to the execution while the saga runs forward and to the compensation while it is undone. */
  lemma ReceiptsFindTheirPlace(v: View, m: Position, a: Action)
    requires Inv(v, m) && Enabled(v, a) && a.Receive?
    ensures m.Forward? || m.Undoing?
    ensures var row, row' := v.steps[a.i], Apply(v, a).steps[a.i];
      if m.Forward?
        then row'.result == a.data && row'.compensationResult == row.compensationResult && HasFinalResult(row'.state)
      else row'.compensationResult == a.data && row'.result == row.result
  {
    EnabledActionsArePermitted(v, m, a);
    LetterAt(v, m, a.i);
  }

  lemma FinalResultsStayPut(v: View, m: Position, a: Action, j: nat)
    requires Inv(v, m) && Enabled(v, a) && j < |v.steps| && HasFinalResult(v.steps[j].state)
    ensures j < |Apply(v, a).steps|
    ensures Apply(v, a).steps[j].result == v.steps[j].result
    ensures HasFinalResult(Apply(v, a).steps[j].state)
    ensures v.steps[j].state.CompensationDone? ==>
      Apply(v, a).steps[j].state.CompensationDone?
          && Apply(v, a).steps[j].compensationResult == v.steps[j].compensationResult
  {
    EnabledActionsArePermitted(v, m, a);
    LetterAt(v, m, j);
    if a.Receive? {
      LetterAt(v, m, a.i);
    }
    ApplyKeepsLength(v, a);
    hide Inv, Coupled;
    if a.Fail? || a.Initiate? {
      TurnsKeepResults(v, a, j);
    } else {
      OthersKeepResults(v, a, j);
    }
  }

  lemma TurnsKeepResults(v: View, a: Action, j: nat)
    requires Enabled(v, a) && j < |v.steps| && (a.Fail? || a.Initiate?) && HasFinalResult(v.steps[j].state)
    requires v.steps[j].state != CompensationDone
    ensures var row, row' := v.steps[j], Apply(v, a).steps[j];
      row'.result == row.result && row'.compensationResult == row.compensationResult && HasFinalResult(row'.state)
  {
  }

  lemma OthersKeepResults(v: View, a: Action, j: nat)
    requires Enabled(v, a) && j < |v.steps| && !a.Fail? && !a.Initiate? && !a.BlockExecution?
    requires HasFinalResult(v.steps[j].state)
    requires a.Receive? && a.i == j ==> LastLog(v.steps[j]).isCompensation && !v.steps[j].state.CompensationDone?
    ensures var row, row' := v.steps[j], Apply(v, a).steps[j];
      && row'.result == row.result && HasFinalResult(row'.state)
      && (row.state.CompensationDone? ==>
           row'.state.CompensationDone? && row'.compensationResult == row.compensationResult)
  {
    if a.Receive? {
      ReceiptKeepsResults(v, a, j);
    } else {
      RowsKeepResults(v, a, j);
      hide Apply;
    }
  }

  lemma ReceiptKeepsResults(v: View, a: Action, j: nat)
    requires Enabled(v, a) && j < |v.steps| && a.Receive? && HasFinalResult(v.steps[j].state)
    requires a.i == j ==> LastLog(v.steps[j]).isCompensation && !v.steps[j].state.CompensationDone?
    ensures var row, row' := v.steps[j], Apply(v, a).steps[j];
      && row'.result == row.result && HasFinalResult(row'.state) && (row.state.CompensationDone? ==> row' == row)
  {
  }

  /** Apart from a receipt no action of a step writes a result. */
  lemma RowsKeepResults(v: View, a: Action, j: nat)
    requires Enabled(v, a) && j < |v.steps| && !a.Receive? && !a.Fail? && !a.Initiate?
    ensures j < |Apply(v, a).steps|
    ensures var row, row' := v.steps[j], Apply(v, a).steps[j];
      row'.result == row.result && row'.compensationResult == row.compensationResult
  {
  }

  /** Once a step's execution has ended its result is what every later input is built from. */
  lemma {:induction false} ResultsAreFinal(v: View, m: Position, acts: seq<Action>, j: nat)
    requires Inv(v, m) && EnabledAll(v, acts) && j < |v.steps| && HasFinalResult(v.steps[j].state)
    ensures var w := ApplyAll(v, acts);
      && j < |w.steps| && w.steps[j].result == v.steps[j].result && HasFinalResult(w.steps[j].state)
      && (v.steps[j].state.CompensationDone? ==> w.steps[j].compensationResult == v.steps[j].compensationResult)
    decreases |acts|
  {
    hide Inv, Apply, Enabled, Next, HasFinalResult;
    if acts != [] {
      FinalResultsStayPut(v, m, acts[0], j);
      ActionRefinesMachine(v, m, acts[0]);
      ApplyKeepsLength(v, acts[0]);
      ResultsAreFinal(Apply(v, acts[0]), Next(m, acts[0], |v.steps|), acts[1..], j);
    }
  }
}
