/**
 * The counter machine behind a saga, the step letters each of its positions stands for, and the
 * proof that every action of the coordinator is one step of the machine or leaves it where it is.
 */
module Machine {
  import opened Types
  import opened Transitions

  datatype Phase = Candidate | Running | Succeeded | Failed

  datatype UndoPhase = UndoCandidate | UndoRunning | UndoSucceeded | UndoFailed | UndoBlocked

  /**
   * Forward(i, ph):        D^i X P^m, X the letter of ph
   * Complete:              D^n
   * Undoing(i, last, ph):  p^i Y d^(last-i) A^m, Y the letter of ph
   * Undone(last):          d^(last+1) A^m
   */
  datatype Position =
    | Forward(i: nat, phase: Phase)
    | Complete
    | Undoing(i: nat, last: nat, undo: UndoPhase)
    | Undone(last: nat)

  predicate Fits(m: Position, n: nat) {
    match m
    case Forward(i, _) => i < n
    case Complete => n > 0
    case Undoing(i, last, _) => i <= last < n
    case Undone(last) => last < n
  }

  function PhaseLetter(ph: Phase): StepState {
    match ph
    case Candidate => ExecutionCandidate
    case Running => ExecutionRunning
    case Succeeded => ExecutionSucceeded
    case Failed => ExecutionFailed
  }

  function UndoLetter(ph: UndoPhase): StepState {
    match ph
    case UndoCandidate => CompensationCandidate
    case UndoRunning => CompensationRunning
    case UndoSucceeded => CompensationSucceeded
    case UndoFailed => CompensationFailed
    case UndoBlocked => CompensationBlocked
  }

  /** The state of step j when the machine is at m. */
  function Letter(m: Position, j: nat): StepState {
    match m
    case Forward(i, ph) => if j < i then ExecutionDone else if j == i then PhaseLetter(ph) else ExecutionPending
    case Complete => ExecutionDone
    case Undoing(i, last, ph) =>
      if j < i then CompensationPending
      else if j == i then UndoLetter(ph)
      else if j <= last then CompensationDone
      else ExecutionAborted
    case Undone(last) => if j <= last then CompensationDone else ExecutionAborted
  }

  /** The step vector spells the word of position m. */
  predicate Spells(v: View, m: Position) {
    && Fits(m, |v.steps|)
    && forall j :: 0 <= j < |v.steps| ==> v.steps[j].state == Letter(m, j)
  }

  /** Which saga states go with which positions. The invalid state goes with any of them. */
  predicate Coupled(s: SagaState, m: Position) {
    match s
    case SagaRunning => m.Forward? || (m.Undoing? && !m.undo.UndoBlocked?)
    case SagaCommitted => m.Complete?
    case SagaCompensationRequested => m.Complete?
    case SagaCompensated => m.Undone?
    case SagaBlocked => m.Undoing?
    case SagaInvalidState => true
    case _ => false
  }

  /** A request that has been sent carries both timestamps; one that has not carries neither. */
  predicate StampsAgree(log: ExecutionLog) {
    && (log.requestSentTs == 0 <==> log.timeoutTs == 0)
    && log.requestSentTs >= 0 && log.timeoutTs >= 0
  }

  /** The history a step has in each of its states: [], [exec] or [exec, comp]. */
  predicate HistoryFits(row: StepInstance) {
    var h := row.history;
    match row.state
    case ExecutionPending => h == []
    case ExecutionCandidate => h == []
    case ExecutionAborted => h == []
    case ExecutionRunning => |h| == 1 && !h[0].isCompensation && h[0].resultReceivedTs == 0 && StampsAgree(h[0])
    case ExecutionBlocked => false
    case CompensationRunning =>
      |h| == 2 && !h[0].isCompensation && h[1].isCompensation && h[1].resultReceivedTs == 0 && StampsAgree(h[1])
    case CompensationSucceeded => |h| == 2 && !h[0].isCompensation && h[1].isCompensation
    case CompensationFailed => |h| == 2 && !h[0].isCompensation && h[1].isCompensation
    case CompensationBlocked => |h| == 2 && !h[0].isCompensation && h[1].isCompensation
    case CompensationDone => |h| == 2 && !h[0].isCompensation && h[1].isCompensation
    case _ => |h| == 1 && !h[0].isCompensation
  }

  predicate HistoriesFit(v: View) {
    forall j :: 0 <= j < |v.steps| ==> HistoryFits(v.steps[j])
  }

  predicate Inv(v: View, m: Position) {
    Spells(v, m) && Coupled(v.saga.state, m) && HistoriesFit(v)
  }

  // ----- the machine -----

  /** Where action a takes the machine; actions that do not concern it leave it where it is. */
  function Next(m: Position, a: Action, n: nat): Position {
    match (a, m)
    case (Start(_, _, _), Forward(i, Candidate)) => Forward(i, Running)
    case (TimeOutExecution(_, _), Forward(i, Running)) => Forward(i, Failed)
    case (Receive(_, s, _, _), Forward(i, Running)) => Forward(i, if s.StatusSuccess? then Succeeded else Failed)
    case (Finish(_), Forward(i, Succeeded)) => if i + 1 < n then Forward(i + 1, Candidate) else Complete
    case (Fail(_), Forward(i, Failed)) => Undoing(i, i, UndoCandidate)
    case (Initiate(_), Complete) => if n > 0 then Undoing(n - 1, n - 1, UndoCandidate) else m
    case (StartCompensation(_, _), Undoing(i, last, UndoCandidate)) => Undoing(i, last, UndoRunning)
    case (TimeOutCompensation(_, _), Undoing(i, last, UndoRunning)) => Undoing(i, last, UndoFailed)
    case (Receive(_, s, _, _), Undoing(i, last, ph)) =>
      if ph.UndoRunning? || ph.UndoBlocked?
      then Undoing(i, last, if s.StatusSuccess? then UndoSucceeded else UndoFailed)
      else m
    case (FinishCompensation(_), Undoing(i, last, UndoSucceeded)) =>
      if i > 0 then Undoing(i - 1, last, UndoCandidate) else Undone(last)
    case (Block(_), Undoing(i, last, UndoFailed)) => Undoing(i, last, UndoBlocked)
    case (_, _) => m
  }

  /** The step an action works on. */
  function Target(a: Action): Option<nat> {
    match a
    case Start(i, _, _) => Some(i)
    case Send(i, _, _) => Some(i)
    case TimeOutExecution(i, _) => Some(i)
    case Finish(i) => Some(i)
    case Fail(i) => Some(i)
    case StartCompensation(i, _) => Some(i)
    case TimeOutCompensation(i, _) => Some(i)
    case FinishCompensation(i) => Some(i)
    case Block(i) => Some(i)
    case Receive(i, _, _, _) => Some(i)
    case BlockExecution(i) => Some(i)
    case _ => None
  }

  lemma LetterAt(v: View, m: Position, j: nat)
    requires Inv(v, m) && j < |v.steps|
    ensures Fits(m, |v.steps|) && v.steps[j].state == Letter(m, j) && HistoryFits(v.steps[j])
  {
  }

  /** The actions the machine allows at a position. */
  predicate Permits(m: Position, s: SagaState, a: Action) {
    match a
    case Start(i, _, _) => m == Forward(i, Candidate)
    case Send(i, _, _) => m == Forward(i, Running) || IsUndoing(m, i, UndoRunning)
    case TimeOutExecution(i, _) => m == Forward(i, Running)
    case Finish(i) => m == Forward(i, Succeeded)
    case Fail(i) => m == Forward(i, Failed)
    case StartCompensation(i, _) => IsUndoing(m, i, UndoCandidate)
    case TimeOutCompensation(i, _) => IsUndoing(m, i, UndoRunning)
    case FinishCompensation(i) => IsUndoing(m, i, UndoSucceeded)
    case Block(i) => IsUndoing(m, i, UndoFailed)
    case Receive(i, _, _, _) => m == Forward(i, Running) || IsUndoing(m, i, UndoRunning) || IsUndoing(m, i, UndoBlocked)
    case Request => m.Complete? && s.SagaCommitted?
    case Initiate(_) => m.Complete? && s.SagaCompensationRequested?
    case BlockExecution(_) => false
    case Idle => true
    case Invalidate(_) => true
  }

  predicate IsUndoing(m: Position, i: nat, undo: UndoPhase) {
    m.Undoing? && m.i == i && m.undo == undo
  }

  /** Only the step at the machine's counter can be worked on, and it is never sent to ExecutionBlocked. */
  lemma EnabledActionsArePermitted(v: View, m: Position, a: Action)
    requires Inv(v, m) && Enabled(v, a)
    ensures Permits(m, v.saga.state, a)
  {
    if Target(a).Some? {
      var i := Target(a).value;
      assert HistoryFits(v.steps[i]) && v.steps[i].state == Letter(m, i);
    }
  }

  /** What has to hold of step j after action a at position m. */
  ghost predicate MovesTo(v: View, m: Position, a: Action, j: nat)
    requires Enabled(v, a) && j < |v.steps|
  {
    var row := Apply(v, a).steps[j];
    row.state == Letter(Next(m, a, |v.steps|), j) && HistoryFits(row)
  }

  lemma ExecutionMoves(v: View, m: Position, a: Action, j: nat)
    requires Enabled(v, a) && Permits(m, v.saga.state, a) && Fits(m, |v.steps|)
    requires j < |v.steps| && v.steps[j].state == Letter(m, j) && HistoryFits(v.steps[j])
    requires a.Start? || a.Send? || a.TimeOutExecution?
    ensures MovesTo(v, m, a, j)
  {
    if j != a.i {
      OnlyTheTargetMoves(v, a, j);
      hide Apply;
    }
  }

  lemma FinishMoves(v: View, m: Position, a: Action, j: nat)
    requires Enabled(v, a) && Permits(m, v.saga.state, a) && Fits(m, |v.steps|)
    requires j < |v.steps| && v.steps[j].state == Letter(m, j) && HistoryFits(v.steps[j])
    requires a.Finish?
    ensures MovesTo(v, m, a, j)
  {
  }

  lemma ReceiveMoves(v: View, m: Position, a: Action, j: nat)
    requires Enabled(v, a) && Permits(m, v.saga.state, a) && Fits(m, |v.steps|)
    requires j < |v.steps| && v.steps[j].state == Letter(m, j) && HistoryFits(v.steps[j])
    requires a.Receive?
    ensures MovesTo(v, m, a, j)
  {
    if j != a.i {
      OnlyTheTargetMoves(v, a, j);
      hide Apply;
    }
  }

  lemma CompensationMoves(v: View, m: Position, a: Action, j: nat)
    requires Enabled(v, a) && Permits(m, v.saga.state, a) && Fits(m, |v.steps|)
    requires j < |v.steps| && v.steps[j].state == Letter(m, j) && HistoryFits(v.steps[j])
    requires a.StartCompensation? || a.TimeOutCompensation?
    ensures MovesTo(v, m, a, j)
  {
    if j != a.i {
      OnlyTheTargetMoves(v, a, j);
      hide Apply;
    }
  }

  /** An action on one step that does not end its turn leaves the other steps alone. */
  lemma OnlyTheTargetMoves(v: View, a: Action, j: nat)
    requires Enabled(v, a) && j < |v.steps|
    requires a.Start? || a.Send? || a.TimeOutExecution? || a.StartCompensation? || a.TimeOutCompensation? || a.Block?
      || a.Receive?
    requires a.i != j
    ensures j < |Apply(v, a).steps| && Apply(v, a).steps[j] == v.steps[j]
  {
  }

  lemma BlockMoves(v: View, m: Position, a: Action, j: nat)
    requires Enabled(v, a) && Permits(m, v.saga.state, a) && Fits(m, |v.steps|)
    requires j < |v.steps| && v.steps[j].state == Letter(m, j) && HistoryFits(v.steps[j])
    requires a.Block?
    ensures MovesTo(v, m, a, j)
  {
  }

  lemma FinishCompensationMoves(v: View, m: Position, a: Action, j: nat)
    requires Enabled(v, a) && Permits(m, v.saga.state, a) && Fits(m, |v.steps|)
    requires j < |v.steps| && v.steps[j].state == Letter(m, j) && HistoryFits(v.steps[j])
    requires a.FinishCompensation?
    ensures MovesTo(v, m, a, j)
  {
  }

  lemma FailMoves(v: View, m: Position, a: Action, j: nat)
    requires Enabled(v, a) && Permits(m, v.saga.state, a) && Fits(m, |v.steps|)
    requires j < |v.steps| && v.steps[j].state == Letter(m, j) && HistoryFits(v.steps[j])
    requires a.Fail?
    ensures MovesTo(v, m, a, j)
  {
  }

  lemma InitiateMoves(v: View, m: Position, a: Action, j: nat)
    requires Enabled(v, a) && Permits(m, v.saga.state, a) && Fits(m, |v.steps|)
    requires j < |v.steps| && v.steps[j].state == Letter(m, j) && HistoryFits(v.steps[j])
    requires a.Initiate?
    ensures MovesTo(v, m, a, j)
  {
  }

  lemma EveryStepMoves(v: View, m: Position, a: Action, j: nat)
    requires Enabled(v, a) && Permits(m, v.saga.state, a) && Fits(m, |v.steps|)
    requires j < |v.steps| && v.steps[j].state == Letter(m, j) && HistoryFits(v.steps[j])
    ensures MovesTo(v, m, a, j)
  {
    match a
    case Start(_, _, _) => ExecutionMoves(v, m, a, j);
    case Send(_, _, _) => ExecutionMoves(v, m, a, j);
    case TimeOutExecution(_, _) => ExecutionMoves(v, m, a, j);
    case Finish(_) => FinishMoves(v, m, a, j);
    case Receive(_, _, _, _) => ReceiveMoves(v, m, a, j);
    case Fail(_) => FailMoves(v, m, a, j);
    case Initiate(_) => InitiateMoves(v, m, a, j);
    case FinishCompensation(_) => FinishCompensationMoves(v, m, a, j);
    case StartCompensation(_, _) => CompensationMoves(v, m, a, j);
    case TimeOutCompensation(_, _) => CompensationMoves(v, m, a, j);
    case Block(_) => BlockMoves(v, m, a, j);
    case Idle =>
    case Request =>
    case BlockExecution(_) =>
    case Invalidate(_) =>
  }

  /** Refinement: the saga after an action spells the machine's next position. */
  lemma ActionRefinesMachine(v: View, m: Position, a: Action)
    requires Inv(v, m) && Enabled(v, a)
    ensures Permits(m, v.saga.state, a)
    ensures Inv(Apply(v, a), Next(m, a, |v.steps|))
  {
    EnabledActionsArePermitted(v, m, a);
    PositionsFollow(v, m, a);
    ApplyKeepsLength(v, a);
    hide Enabled, Apply, Next, Permits, MovesTo;
    forall j | 0 <= j < |v.steps| ensures MovesTo(v, m, a, j) {
      EveryStepMoves(v, m, a, j);
    }
    MovesAssemble(v, Apply(v, a), m, a);
  }

  lemma MovesAssemble(v: View, w: View, m: Position, a: Action)
    requires Enabled(v, a) && w == Apply(v, a) && |w.steps| == |v.steps|
    requires forall j :: 0 <= j < |v.steps| ==> MovesTo(v, m, a, j)
    requires Fits(Next(m, a, |v.steps|), |v.steps|) && Coupled(w.saga.state, Next(m, a, |v.steps|))
    ensures Inv(w, Next(m, a, |v.steps|))
  {
    forall j | 0 <= j < |w.steps|
      ensures w.steps[j].state == Letter(Next(m, a, |v.steps|), j) && HistoryFits(w.steps[j])
    {
      assert MovesTo(v, m, a, j);
    }
  }

  /** The saga state keeps agreeing with the position. */
  lemma PositionsFollow(v: View, m: Position, a: Action)
    requires Inv(v, m) && Enabled(v, a) && Permits(m, v.saga.state, a)
    ensures Fits(Next(m, a, |v.steps|), |v.steps|)
    ensures Coupled(Apply(v, a).saga.state, Next(m, a, |v.steps|))
  {
  }

  /** On a saga in shape every check of the step processor succeeds, whichever step it is handed. */
  lemma ChecksPassInShape(v: View, m: Position, i: nat)
    requires Inv(v, m) && i < |v.steps|
    ensures ChecksPass(v, i) <==> !Unprocessable(v.steps[i].state)
  {
    assert HistoryFits(v.steps[i]) && v.steps[i].state == Letter(m, i);
  }
}
