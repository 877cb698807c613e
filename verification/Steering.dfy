/**
 * When the drivers can still bring a saga to its end, as a condition on its position, its state and
 * the runs that are due for its steps; what takes that away; and the way to the end itself.
 */
module Steering {
  import opened Types
  import opened Transitions
  import opened Machine
  import opened Runs

  // ----- what the drivers do to a saga -----

  /** An action of the step processor on step i, apart from concluding an execution that timed out. */
  predicate IsCallOn(a: Action, i: nat) {
    Target(a) == Some(i) && !a.Receive? && !a.TimeOutExecution? && !a.TimeOutCompensation? && !a.BlockExecution?
  }

  /** The saga state an action leaves behind. */
  function NextState(m: Position, s: SagaState, a: Action, n: nat): SagaState {
    match a
    case Finish(i) => if i + 1 < n then s else SagaCommitted
    case FinishCompensation(i) => if i > 0 then s else SagaCompensated
    case Block(_) => SagaBlocked
    case Request => SagaCompensationRequested
    case Initiate(_) => SagaRunning
    case Invalidate(_) => SagaInvalidState
    case _ => s
  }

  lemma StatesFollow(v: View, m: Position, a: Action)
    requires Enabled(v, a)
    ensures Apply(v, a).saga.state == NextState(m, v.saga.state, a, |v.steps|)
  {
  }

  // ----- sagas that can still be brought to an end -----

  predicate AwaitsResult(ph: UndoPhase) {
    ph.UndoRunning? || ph.UndoBlocked?
  }

  /** A run is due for each of the first i steps. */
  predicate HasAll(due: seq<nat>, i: nat)
    requires i <= |due|
  {
    forall j :: 0 <= j < i ==> due[j] > 0
  }

  /**
   * The poller picks up running sagas only. A saga in any other state goes on by results and by the
   * runs that are already due for its steps; asked says that the active step's request is on the bus.
   *
   * Going forward, the active step must not be left running without a request. A saga that is no
   * longer running then needs a run for the active step unless it waits for a result, and a run for
   * each step before it to undo them; only on its last step can it be committed instead.
   *
   * Going back, once the saga is not running or a compensation has failed, the same runs are needed.
   */
  predicate IsOpen(m: Position, s: SagaState, due: seq<nat>, asked: bool)
    requires Fits(m, |due|)
  {
    match m
    case Forward(i, ph) =>
      && (ph.Running? ==> asked)
      && (|| s.SagaRunning?
          || (&& (ph.Running? || due[i] > 0)
              && ((i + 1 == |due| && !ph.Failed?) || (!ph.Succeeded? && HasAll(due, i)))))
    case Complete => s.SagaCommitted? || s.SagaCompensationRequested?
    case Undoing(i, _, ph) =>
      && (s.SagaRunning? || AwaitsResult(ph) || due[i] > 0)
      && ((s.SagaRunning? && !ph.UndoFailed?) || HasAll(due, i))
    case Undone(_) => s.SagaCompensated?
  }

  /** While nothing is due, the condition is on position and state alone. */
  lemma OpenWhenNothingIsDue(m: Position, s: SagaState, due: seq<nat>, asked: bool)
    requires Fits(m, |due|) && Coupled(s, m) && forall j :: 0 <= j < |due| ==> due[j] == 0
    ensures IsOpen(m, s, due, asked) <==>
      match m
      case Forward(i, ph) =>
        if ph.Running? then asked && (s.SagaRunning? || i == 0 || i + 1 == |due|) else s.SagaRunning?
      case Complete => !s.SagaInvalidState?
      case Undoing(i, _, ph) =>
        if AwaitsResult(ph) then s.SagaRunning? || i == 0 else s.SagaRunning? && (ph.UndoFailed? ==> i == 0)
      case Undone(_) => !s.SagaInvalidState?
  {
    assert forall i :: 0 < i <= |due| ==> due[0] == 0 && !HasAll(due, i);
  }

  lemma MoreIsDue(m: Position, s: SagaState, due: seq<nat>, due': seq<nat>, asked: bool, asked': bool)
    requires Fits(m, |due|) && |due'| == |due| && IsOpen(m, s, due, asked) && (asked ==> asked')
    requires forall j :: 0 <= j < |due| ==> due[j] <= due'[j]
    ensures IsOpen(m, s, due', asked')
  {
  }

  lemma LaterRunsDoNotMatter(due: seq<nat>, i: nat, k: nat, d: nat)
    requires i <= k < |due|
    ensures HasAll(due[k := d], i) <==> HasAll(due, i)
  {
    forall j | 0 <= j < i ensures due[k := d][j] == due[j] {
    }
  }

  // ----- what opens a saga: nothing -----

  /** No run is due for a step that has not had its turn. */
  predicate NothingAhead(m: Position, due: seq<nat>) {
    m.Forward? ==> forall j :: m.i < j < |due| ==> due[j] == 0
  }

  /** Within a run that was due for step k: what comes out open was open before. */
  lemma ActionOpensNothing(m: Position, s: SagaState, a: Action, due: seq<nat>, k: nat)
    requires Fits(m, |due|) && Coupled(s, m) && Permits(m, s, a) && Fits(Next(m, a, |due|), |due|)
    requires IsCallOn(a, k) || a.Invalidate?
    requires k < |due| && due[k] > 0 && NothingAhead(m, due)
    ensures NothingAhead(Next(m, a, |due|), due)
    ensures IsOpen(Next(m, a, |due|), NextState(m, s, a, |due|), due, true) ==> IsOpen(m, s, due, true)
  {
  }

  /** A result for step k, and the run it gives rise to. */
  lemma ResultOpensNothing(m: Position, s: SagaState, a: Action, due: seq<nat>, asked: bool)
    requires Fits(m, |due|) && Coupled(s, m) && Permits(m, s, a) && a.Receive? && Fits(Next(m, a, |due|), |due|)
    requires a.i < |due|
    ensures IsOpen(Next(m, a, |due|), s, due[a.i := due[a.i] + 1], asked) ==> IsOpen(m, s, due, true)
  {
    LaterRunsDoNotMatter(due, a.i, a.i, due[a.i] + 1);
    hide HasAll;
  }

  /** One run more for a step that awaits a result. */
  lemma WaitingIsOpenAnyway(m: Position, s: SagaState, due: seq<nat>, asked: bool, k: nat)
    requires Fits(m, |due|) && k < |due| && IsOpen(m, s, due[k := due[k] + 1], asked)
    requires var l := Letter(m, k); l.ExecutionRunning? || l.CompensationRunning? || l.CompensationBlocked?
    ensures IsOpen(m, s, due, asked)
  {
    LaterRunsDoNotMatter(due, k, k, due[k] + 1);
    hide HasAll;
  }

  /** What the poller picks: steps in these states, of sagas in these states. */
  predicate IsPicked(saga: SagaState, step: StepState) {
    && (saga.SagaRunning? || saga.SagaCompensationRequested?)
    && (step.ExecutionCandidate? || step.ExecutionRunning? || step.ExecutionSucceeded? || step.ExecutionFailed?
        || step.ExecutionDone? || step.CompensationCandidate? || step.CompensationRunning?
        || step.CompensationSucceeded? || step.CompensationFailed?)
  }

  lemma PickedIsOpenAnyway(m: Position, s: SagaState, due: seq<nat>, asked: bool, k: nat)
    requires Fits(m, |due|) && Coupled(s, m) && k < |due| && IsOpen(m, s, due[k := due[k] + 1], asked)
    requires IsPicked(s, Letter(m, k))
    ensures IsOpen(m, s, due, asked)
  {
    LaterRunsDoNotMatter(due, k, k, due[k] + 1);
    hide HasAll;
  }

  // ----- the way to the end -----

  /** A run that starts an execution or a compensation, and sends its request. */
  function LongRound(m: Position): seq<Action> {
    match m
    case Forward(i, Candidate) => [Start(i, "", 1), Send(i, 1, 1)]
    case Forward(i, Failed) => [Fail(i), StartCompensation(i, 1), Send(i, 1, 1)]
    case Undoing(i, _, UndoCandidate) => [StartCompensation(i, 1), Send(i, 1, 1)]
    case _ => []
  }

  function AfterLongRound(m: Position): Position {
    match m
    case Forward(i, Candidate) => Forward(i, Running)
    case Forward(i, Failed) => Undoing(i, i, UndoRunning)
    case Undoing(i, last, UndoCandidate) => Undoing(i, last, UndoRunning)
    case _ => m
  }

  /**
   * What happens next on the way: an answer to the request that is out, a request to compensate, or
   * one run of the drivers on the active step. Steps before position failAt succeed; a saga that is no
   * longer running has its last step succeed and any other fail.
   */
  function Round(m: Position, s: SagaState, n: nat, failAt: nat): seq<Action> {
    match m
    case Forward(_, Candidate) => LongRound(m)
    case Forward(i, Running) =>
      [Receive(i, if AnswersWell(i, s, n, failAt) then StatusSuccess else StatusFailed, map[], 1)]
    case Forward(i, Succeeded) => [Finish(i)]
    case Forward(_, Failed) => LongRound(m)
    case Complete => if s.SagaCommitted? then [Transitions.Request] else [Initiate("")]
    case Undoing(_, _, UndoCandidate) => LongRound(m)
    case Undoing(i, _, UndoRunning) => [Receive(i, StatusSuccess, map[], 1)]
    case Undoing(i, _, UndoSucceeded) => [FinishCompensation(i)]
    case Undoing(i, _, UndoFailed) => [Block(i)]
    case Undoing(i, _, UndoBlocked) => [Receive(i, StatusSuccess, map[], 1)]
    case Undone(_) => []
  }

  predicate AnswersWell(i: nat, s: SagaState, n: nat, failAt: nat) {
    if s.SagaRunning? then i < failAt else i + 1 == n
  }

  function AfterRound(m: Position, s: SagaState, n: nat, failAt: nat): Position {
    match m
    case Forward(_, Candidate) => AfterLongRound(m)
    case Forward(i, Running) => Forward(i, if AnswersWell(i, s, n, failAt) then Succeeded else Failed)
    case Forward(i, Succeeded) => if i + 1 < n then Forward(i + 1, Candidate) else Complete
    case Forward(_, Failed) => AfterLongRound(m)
    case Complete => if s.SagaCommitted? || n == 0 then Complete else Undoing(n - 1, n - 1, UndoCandidate)
    case Undoing(_, _, UndoCandidate) => AfterLongRound(m)
    case Undoing(i, last, UndoRunning) => Undoing(i, last, UndoSucceeded)
    case Undoing(i, last, UndoSucceeded) => if i > 0 then Undoing(i - 1, last, UndoCandidate) else Undone(last)
    case Undoing(i, last, UndoFailed) => Undoing(i, last, UndoBlocked)
    case Undoing(i, last, UndoBlocked) => Undoing(i, last, UndoSucceeded)
    case Undone(last) => m
  }

  function StateAfterRound(m: Position, s: SagaState, n: nat): SagaState {
    match m
    case Forward(i, Succeeded) => if i + 1 < n then s else SagaCommitted
    case Complete => if s.SagaCommitted? then SagaCompensationRequested else SagaRunning
    case Undoing(i, _, UndoSucceeded) => if i > 0 then s else SagaCompensated
    case Undoing(i, _, UndoFailed) => SagaBlocked
    case _ => s
  }

  /** The round is a run of the drivers for step m.i; otherwise a result for it, or a request. */
  predicate IsDriven(m: Position) {
    match m
    case Forward(_, ph) => !ph.Running?
    case Undoing(_, _, ph) => !AwaitsResult(ph)
    case _ => false
  }

  /** How many runs more are due for the active step after the round. */
  function DueAfterRound(m: Position, s: SagaState, due: seq<nat>): seq<nat>
    requires Fits(m, |due|) && (IsDriven(m) && !s.SagaRunning? ==> due[m.i] > 0)
  {
    if m.Complete? || m.Undone? then due
    else if !IsDriven(m) then due[m.i := due[m.i] + 1]
    else if s.SagaRunning? then due
    else due[m.i := due[m.i] - 1]
  }

  lemma OpenSagasHaveTheirRun(m: Position, s: SagaState, due: seq<nat>, asked: bool)
    requires Fits(m, |due|) && IsOpen(m, s, due, asked)
    ensures IsDriven(m) && !s.SagaRunning? ==> due[m.i] > 0
  {
  }

  lemma RoundKeepsOpen(m: Position, s: SagaState, due: seq<nat>, asked: bool, failAt: nat)
    requires Fits(m, |due|) && Coupled(s, m) && IsOpen(m, s, due, asked)
    requires IsDriven(m) && !s.SagaRunning? ==> due[m.i] > 0
    ensures var m' := AfterRound(m, s, |due|, failAt);
      Fits(m', |due|) && IsOpen(m', StateAfterRound(m, s, |due|), DueAfterRound(m, s, due), true)
  {
  }

  /** How far the end is. */
  function Distance(m: Position, s: SagaState, n: nat): nat
    requires Fits(m, n)
  {
    match m
    case Forward(i, Candidate) => 6 * n + 3 + 5 * (n - i)
    case Forward(i, Running) => 6 * n + 1 + 5 * (n - i)
    case Forward(i, Succeeded) => 6 * n + 5 * (n - i)
    case Forward(i, Failed) => 6 * n + 1
    case Complete => 6 * n + (if s.SagaCommitted? then 2 else 1)
    case Undoing(i, _, UndoCandidate) => 6 * i + 6
    case Undoing(i, _, UndoRunning) => 6 * i + 4
    case Undoing(i, _, UndoFailed) => 6 * i + 3
    case Undoing(i, _, UndoBlocked) => 6 * i + 2
    case Undoing(i, _, UndoSucceeded) => 6 * i + 1
    case Undone(_) => 0
  }

  /** The way ends at a compensated saga, or at a committed one when no step is to fail. */
  predicate Arrived(m: Position, n: nat, failAt: nat) {
    m.Undone? || (m.Complete? && failAt >= n)
  }

  /** Where the way leads. */
  function Destination(m: Position, s: SagaState, n: nat, failAt: nat): Position
    requires Fits(m, n)
  {
    match m
    case Forward(i, Failed) => Undone(i)
    case Forward(i, ph) =>
      if !s.SagaRunning? then
        if i + 1 < n then Undone(i) else if failAt >= n then Complete else Undone(n - 1)
      else
        var i' := if ph.Succeeded? then i + 1 else i;
        if failAt >= n then Complete else if i' <= failAt then Undone(failAt) else Undone(if i' < n then i' else i)
    case Complete => if failAt >= n then Complete else Undone(n - 1)
    case Undoing(_, last, _) => Undone(last)
    case Undone(last) => Undone(last)
  }

  lemma RoundApproaches(m: Position, s: SagaState, due: seq<nat>, asked: bool, failAt: nat)
    requires Fits(m, |due|) && Coupled(s, m) && IsOpen(m, s, due, asked) && !Arrived(m, |due|, failAt)
    ensures var m', s' := AfterRound(m, s, |due|, failAt), StateAfterRound(m, s, |due|);
      && Fits(m', |due|) && Distance(m', s', |due|) < Distance(m, s, |due|)
      && Destination(m', s', |due|, failAt) == Destination(m, s, |due|, failAt)
      && (m.Forward? && m'.Complete? ==> s'.SagaCommitted?)
  {
  }

  lemma ArrivedIsTheDestination(m: Position, s: SagaState, n: nat, failAt: nat)
    requires Fits(m, n) && Arrived(m, n, failAt)
    ensures Destination(m, s, n, failAt) == m
  {
  }

  // ----- the rounds are enabled -----

  lemma ThreeActions(v: View, a: Action, b: Action, c: Action)
    requires Enabled(v, a) && Enabled(Apply(v, a), b) && Enabled(Apply(Apply(v, a), b), c)
    ensures EnabledAll(v, [a, b, c]) && ApplyAll(v, [a, b, c]) == Apply(Apply(Apply(v, a), b), c)
  {
    assert [a, b, c][1..] == [b, c];
    TwoActions(Apply(v, a), b, c);
  }

  lemma LettersKnown(v: View, m: Position)
    requires Inv(v, m)
    ensures |v.steps| > 0 && Fits(m, |v.steps|) && forall j :: 0 <= j < |v.steps| ==> v.steps[j].state == Letter(m, j)
  {
  }

  lemma StartRound(v: View, i: nat)
    requires Inv(v, Forward(i, Candidate))
    ensures Enabled(v, Start(i, "", 1)) && Enabled(Apply(v, Start(i, "", 1)), Send(i, 1, 1))
  {
    LetterAt(v, Forward(i, Candidate), i);
    LettersKnown(v, Forward(i, Candidate));
  }

  lemma UndoRound(v: View, i: nat, last: nat)
    requires Inv(v, Undoing(i, last, UndoCandidate))
    ensures Enabled(v, StartCompensation(i, 1)) && Enabled(Apply(v, StartCompensation(i, 1)), Send(i, 1, 1))
  {
    LetterAt(v, Undoing(i, last, UndoCandidate), i);
    LettersKnown(v, Undoing(i, last, UndoCandidate));
  }

  lemma FailIsEnabled(v: View, i: nat)
    requires Inv(v, Forward(i, Failed))
    ensures Enabled(v, Fail(i))
  {
    LetterAt(v, Forward(i, Failed), i);
    LettersKnown(v, Forward(i, Failed));
  }

  lemma SingleActionIsEnabled(v: View, m: Position, failAt: nat)
    requires Inv(v, m) && (m.Complete? ==> v.saga.state.SagaCommitted? || v.saga.state.SagaCompensationRequested?)
    requires |Round(m, v.saga.state, |v.steps|, failAt)| == 1
    ensures Enabled(v, Round(m, v.saga.state, |v.steps|, failAt)[0])
  {
    LettersKnown(v, m);
    if m.Forward? || m.Undoing? {
      LetterAt(v, m, m.i);
    }
    hide Inv;
  }

  /** A round can be made, and leads where it should. */
  lemma RoundIsPossible(v: View, m: Position, failAt: nat)
    requires Inv(v, m) && (m.Complete? ==> v.saga.state.SagaCommitted? || v.saga.state.SagaCompensationRequested?)
    ensures var n := |v.steps|; var acts := Round(m, v.saga.state, n, failAt);
      && EnabledAll(v, acts) && Inv(ApplyAll(v, acts), AfterRound(m, v.saga.state, n, failAt))
      && ApplyAll(v, acts).saga.state == StateAfterRound(m, v.saga.state, n)
  {
    var acts := Round(m, v.saga.state, |v.steps|, failAt);
    hide Inv, Enabled, Apply, EnabledAll, ApplyAll;
    if |acts| == 0 {
      EmptyRun(v);
    } else if |acts| == 1 {
      SingleActionIsEnabled(v, m, failAt);
      OneAction(v, acts[0]);
      SingleRoundLeads(v, m, failAt);
      assert acts == [acts[0]];
    } else {
      LongRounds(m, v.saga.state, |v.steps|, failAt);
      LongRoundLeads(v, m);
    }
  }

  /** The rounds that start an execution or a compensation, and send its request. */
  lemma LongRounds(m: Position, s: SagaState, n: nat, failAt: nat)
    requires |Round(m, s, n, failAt)| > 1
    ensures (m.Forward? && (m.phase.Candidate? || m.phase.Failed?)) || (m.Undoing? && m.undo.UndoCandidate?)
    ensures Round(m, s, n, failAt) == LongRound(m) && AfterRound(m, s, n, failAt) == AfterLongRound(m)
    ensures StateAfterRound(m, s, n) == s
  {
  }

  lemma LongRoundLeads(v: View, m: Position)
    requires Inv(v, m)
    requires (m.Forward? && (m.phase.Candidate? || m.phase.Failed?)) || (m.Undoing? && m.undo.UndoCandidate?)
    ensures var acts := LongRound(m);
      && EnabledAll(v, acts) && Inv(ApplyAll(v, acts), AfterLongRound(m))
      && ApplyAll(v, acts).saga.state == v.saga.state
  {
    hide Inv, Enabled, Apply, EnabledAll, ApplyAll;
    var acts := LongRound(m);
    if m.Forward? && m.phase.Failed? {
      FailureRoundLeads(v, m.i);
    } else {
      if m.Forward? {
        StartRound(v, m.i);
      } else {
        UndoRound(v, m.i, m.last);
      }
      TwoActions(v, acts[0], acts[1]);
      TwoActionsLead(v, m, acts[0], acts[1]);
    }
  }

  lemma SingleRoundLeads(v: View, m: Position, failAt: nat)
    requires Inv(v, m) && (m.Complete? ==> v.saga.state.SagaCommitted? || v.saga.state.SagaCompensationRequested?)
    requires |Round(m, v.saga.state, |v.steps|, failAt)| == 1
    requires Enabled(v, Round(m, v.saga.state, |v.steps|, failAt)[0])
    ensures var n := |v.steps|; var w := Apply(v, Round(m, v.saga.state, n, failAt)[0]);
      Inv(w, AfterRound(m, v.saga.state, n, failAt)) && w.saga.state == StateAfterRound(m, v.saga.state, n)
  {
    var n, s := |v.steps|, v.saga.state;
    var a := Round(m, s, n, failAt)[0];
    ActionRefinesMachine(v, m, a);
    StatesFollow(v, m, a);
    LettersKnown(v, m);
    hide Inv, Enabled, Apply, Permits;
    SingleRoundSteps(m, s, n, failAt);
  }

  lemma SingleRoundSteps(m: Position, s: SagaState, n: nat, failAt: nat)
    requires |Round(m, s, n, failAt)| == 1 && Fits(m, n)
    requires m.Complete? ==> s.SagaCommitted? || s.SagaCompensationRequested?
    ensures var a := Round(m, s, n, failAt)[0];
      Next(m, a, n) == AfterRound(m, s, n, failAt) && NextState(m, s, a, n) == StateAfterRound(m, s, n)
  {
  }

  lemma TwoActionsLead(v: View, m: Position, a: Action, b: Action)
    requires Inv(v, m) && Enabled(v, a) && Enabled(Apply(v, a), b)
    requires a.Start? || a.StartCompensation?
    requires b.Send?
    ensures Inv(Apply(Apply(v, a), b), Next(m, a, |v.steps|))
    ensures Apply(Apply(v, a), b).saga.state == v.saga.state
  {
    ActionRefinesMachine(v, m, a);
    ActionRefinesMachine(Apply(v, a), Next(m, a, |v.steps|), b);
    StatesFollow(v, m, a);
    StatesFollow(Apply(v, a), m, b);
    ApplyKeepsLength(v, a);
    hide Inv, Enabled, Apply;
  }

  lemma FailureRoundLeads(v: View, i: nat)
    requires Inv(v, Forward(i, Failed))
    ensures var acts := [Fail(i), StartCompensation(i, 1), Send(i, 1, 1)];
      && EnabledAll(v, acts) && Inv(ApplyAll(v, acts), Undoing(i, i, UndoRunning))
      && ApplyAll(v, acts).saga.state == v.saga.state
  {
    var m := Forward(i, Failed);
    FailIsEnabled(v, i);
    ActionRefinesMachine(v, m, Fail(i));
    StatesFollow(v, m, Fail(i));
    var w := Apply(v, Fail(i));
    hide Inv, Enabled, Apply;
    UndoRound(w, i, i);
    TwoActionsLead(w, Undoing(i, i, UndoCandidate), StartCompensation(i, 1), Send(i, 1, 1));
    ThreeActions(v, Fail(i), StartCompensation(i, 1), Send(i, 1, 1));
  }
}
