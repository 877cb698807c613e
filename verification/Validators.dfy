/**
 * The two validators that look at a saga's whole step vector around the step about to be
 * processed, and the exact languages they accept.
 */
module Validators {
  import opened Types
  import opened Transitions
  import opened Machine

  function States(steps: seq<StepInstance>): seq<StepState> {
    seq(|steps|, j requires 0 <= j < |steps| => steps[j].state)
  }

  function Repeat(s: StepState, n: nat): seq<StepState> {
    seq(n, _ => s)
  }

  predicate IsForwardState(s: StepState) {
    s.ExecutionPending? || IsActiveOrDone(s)
  }

  predicate IsActiveOrDone(s: StepState) {
    s.ExecutionCandidate? || s.ExecutionRunning? || s.ExecutionSucceeded? || s.ExecutionFailed? || s.ExecutionDone?
  }

  // ----- what the loops check, position by position -----

  predicate ForwardAccepts(w: seq<StepState>, i: nat)
    requires i < |w|
  {
    && IsForwardState(w[i])
    && (forall j :: 0 <= j < i ==> w[j].ExecutionDone?)
    && (forall j :: i < j < |w| ==> IsForwardState(w[j]))
    && (forall j, l :: i < j < l < |w| && !w[j].ExecutionPending? ==> w[l].ExecutionPending?)
  }

  predicate UndoAccepts(w: seq<StepState>, i: nat)
    requires i < |w|
  {
    && IsCompensationState(w[i])
    && (forall j :: 0 <= j < i ==> w[j].CompensationPending?)
    && (forall j :: i < j < |w| ==> w[j].ExecutionAborted? || IsCompensationState(w[j]))
    && (forall j, l :: i < j < l < |w| && w[j].ExecutionAborted? ==> w[l].ExecutionAborted?)
  }

  // ----- the languages, as words -----

  /** D^i x P^a, or D^i x P^a y P^b with y one of C, R, S, F, D. */
  ghost predicate InForwardLanguage(w: seq<StepState>, i: nat) {
    exists x, tail :: IsForwardState(x) && InForwardTail(tail) && w == Repeat(ExecutionDone, i) + [x] + tail
  }

  ghost predicate InForwardTail(tail: seq<StepState>) {
    || (exists a: nat :: tail == Repeat(ExecutionPending, a))
    || (exists a: nat, b: nat, y :: IsActiveOrDone(y) && tail == PendingAround(a, y, b))
  }

  function PendingAround(a: nat, y: StepState, b: nat): seq<StepState> {
    Repeat(ExecutionPending, a) + [y] + Repeat(ExecutionPending, b)
  }

  /** p^i x comp* A^b with x a compensation state. */
  ghost predicate InUndoLanguage(w: seq<StepState>, i: nat) {
    exists x, middle, b: nat ::
      IsCompensationState(x) && AllCompensation(middle) && w == UndoWord(i, x, middle, b)
  }

  predicate AllCompensation(s: seq<StepState>) {
    forall j :: 0 <= j < |s| ==> IsCompensationState(s[j])
  }

  function UndoWord(i: nat, x: StepState, middle: seq<StepState>, b: nat): seq<StepState> {
    Repeat(CompensationPending, i) + [x] + middle + Repeat(ExecutionAborted, b)
  }

  lemma {:induction false} SplitForwardTail(w: seq<StepState>, i: nat)
    requires i < |w| && ForwardAccepts(w, i)
    ensures InForwardTail(w[i+1..])
  {
    var tail := w[i+1..];
    if forall j :: 0 <= j < |tail| ==> tail[j].ExecutionPending? {
      assert tail == Repeat(ExecutionPending, |tail|);
    } else {
      var a :| 0 <= a < |tail| && !tail[a].ExecutionPending?;
      assert w[i + 1 + a] == tail[a];
      forall j | 0 <= j < |tail| && j != a ensures tail[j].ExecutionPending? {
        assert w[i + 1 + j] == tail[j];
      }
      assert tail == PendingAround(a, tail[a], |tail| - a - 1);
    }
  }

  lemma ForwardAcceptsIsTheLanguage(w: seq<StepState>, i: nat)
    requires i < |w|
    ensures ForwardAccepts(w, i) <==> InForwardLanguage(w, i)
  {
    if ForwardAccepts(w, i) {
      SplitForwardTail(w, i);
      assert w == Repeat(ExecutionDone, i) + [w[i]] + w[i+1..];
    }
    if InForwardLanguage(w, i) {
      var x, tail :| IsForwardState(x) && InForwardTail(tail) && w == Repeat(ExecutionDone, i) + [x] + tail;
      assert forall j :: i < j < |w| ==> w[j] == tail[j - i - 1];
    }
  }

  /** Where the aborted suffix of an accepted word starts. */
  lemma {:induction false} AbortedSuffix(w: seq<StepState>, i: nat, k: nat) returns (cut: nat)
    requires i < k <= |w| && UndoAccepts(w, i)
    requires forall j :: i < j < k ==> IsCompensationState(w[j])
    ensures k <= cut <= |w|
    ensures forall j :: i < j < cut ==> IsCompensationState(w[j])
    ensures forall j :: cut <= j < |w| ==> w[j].ExecutionAborted?
    decreases |w| - k
  {
    if k == |w| || w[k].ExecutionAborted? {
      cut := k;
    } else {
      cut := AbortedSuffix(w, i, k + 1);
    }
  }

  lemma UndoAcceptsIsTheLanguage(w: seq<StepState>, i: nat)
    requires i < |w|
    ensures UndoAccepts(w, i) <==> InUndoLanguage(w, i)
  {
    if UndoAccepts(w, i) {
      var cut := AbortedSuffix(w, i, i + 1);
      var middle := w[i+1..cut];
      assert w == UndoWord(i, w[i], middle, |w| - cut);
    }
    if InUndoLanguage(w, i) {
      var x, middle, b: nat :| IsCompensationState(x) && AllCompensation(middle) && w == UndoWord(i, x, middle, b);
      assert forall j :: i < j < i + 1 + |middle| ==> w[j] == middle[j - i - 1];
    }
  }

  // ----- the validators -----

  method ValidateNonCompensatingMode(orderedSteps: seq<StepInstance>, currentStepIndex: nat) returns (valid: bool)
    requires currentStepIndex < |orderedSteps|
    ensures valid <==> ForwardAccepts(States(orderedSteps), currentStepIndex)
  {
    ghost var w := States(orderedSteps);
    var current := orderedSteps[currentStepIndex].state;
    assert w[currentStepIndex] == current;
    match current {
      case ExecutionDone =>
      case ExecutionCandidate =>
      case ExecutionPending =>
      case ExecutionRunning =>
      case ExecutionSucceeded =>
      case ExecutionFailed =>
      case _ => return false;
    }
    for i := 0 to currentStepIndex
      invariant forall j :: 0 <= j < i ==> w[j].ExecutionDone?
    {
      assert w[i] == orderedSteps[i].state;
      if !orderedSteps[i].state.ExecutionDone? {
        return false;
      }
    }
    var foundNonPending := false;
    for i := currentStepIndex + 1 to |orderedSteps|
      invariant forall j :: currentStepIndex < j < i ==> IsForwardState(w[j])
      invariant !foundNonPending ==> forall j :: currentStepIndex < j < i ==> w[j].ExecutionPending?
      invariant foundNonPending ==> exists j :: currentStepIndex < j < i && !w[j].ExecutionPending?
      invariant forall j, l :: currentStepIndex < j < l < i && !w[j].ExecutionPending? ==> w[l].ExecutionPending?
    {
      var nextState := orderedSteps[i].state;
      assert w[i] == nextState;
      if !foundNonPending {
        if nextState.ExecutionPending? {
        } else if IsActiveOrDone(nextState) {
          foundNonPending := true;
        } else {
          return false;
        }
      } else if !nextState.ExecutionPending? {
        return false;
      }
    }
    return true;
  }

  method ValidateCompensatingMode(orderedSteps: seq<StepInstance>, currentStepIndex: nat) returns (valid: bool)
    requires currentStepIndex < |orderedSteps|
    ensures valid <==> UndoAccepts(States(orderedSteps), currentStepIndex)
  {
    ghost var w := States(orderedSteps);
    assert w[currentStepIndex] == orderedSteps[currentStepIndex].state;
    if !IsCompensationState(orderedSteps[currentStepIndex].state) {
      return false;
    }
    for i := 0 to currentStepIndex
      invariant forall j :: 0 <= j < i ==> w[j].CompensationPending?
    {
      assert w[i] == orderedSteps[i].state;
      if !orderedSteps[i].state.CompensationPending? {
        return false;
      }
    }
    var foundAborted := false;
    for i := currentStepIndex + 1 to |orderedSteps|
      invariant forall j :: currentStepIndex < j < i ==> w[j].ExecutionAborted? || IsCompensationState(w[j])
      invariant foundAborted <==> exists j :: currentStepIndex < j < i && w[j].ExecutionAborted?
      invariant forall j, l :: currentStepIndex < j < l < i && w[j].ExecutionAborted? ==> w[l].ExecutionAborted?
    {
      var state := orderedSteps[i].state;
      assert w[i] == state;
      if state.ExecutionAborted? {
        foundAborted := true;
      } else if IsCompensationState(state) {
        if foundAborted {
          return false;
        }
      } else {
        return false;
      }
    }
    return true;
  }

  /** The verdict on step i of an ordered vector: which validator runs depends on the whole vector. */
  predicate Accepts(steps: seq<StepInstance>, i: nat)
    requires i < |steps|
  {
    if exists j :: 0 <= j < |steps| && IsCompensationState(steps[j].state)
    then UndoAccepts(States(steps), i)
    else ForwardAccepts(States(steps), i)
  }

  // ----- agreement with the reachable shapes -----

  /** On a saga that spells a position, exactly these steps pass validation. */
  predicate AcceptedAt(m: Position, i: nat, n: nat) {
    match m
    case Forward(k, _) => i == k || i + 1 == k
    case Complete => i + 1 == n || i + 2 == n
    case Undoing(k, _, _) => i <= k
    case Undone(_) => i == 0
  }

  lemma ValidatorsOnShapes(v: View, m: Position, i: nat)
    requires Spells(v, m) && i < |v.steps|
    ensures Accepts(v.steps, i) <==> AcceptedAt(m, i, |v.steps|)
  {
    var w := States(v.steps);
    assert forall j :: 0 <= j < |w| ==> w[j] == Letter(m, j);
    match m {
      case Forward(k, _) => ForwardShape(w, m, i);
      case Complete => ForwardShape(w, m, i);
      case Undoing(k, _, _) => assert IsCompensationState(v.steps[k].state); UndoShape(w, m, i);
      case Undone(_) => assert IsCompensationState(v.steps[0].state); UndoShape(w, m, i);
    }
  }

  lemma ForwardShape(w: seq<StepState>, m: Position, i: nat)
    requires m.Forward? || m.Complete?
    requires Fits(m, |w|) && i < |w| && forall j :: 0 <= j < |w| ==> w[j] == Letter(m, j)
    ensures ForwardAccepts(w, i) <==> AcceptedAt(m, i, |w|)
  {
    if m.Forward? && i + 1 < m.i {
      assert !w[i+1].ExecutionPending? && !w[m.i].ExecutionPending?;
    }
    if m.Complete? && i + 2 < |w| {
      assert !w[i+1].ExecutionPending? && !w[i+2].ExecutionPending?;
    }
    if m.Forward? && i > m.i {
      assert !w[m.i].ExecutionDone?;
    }
  }

  lemma UndoShape(w: seq<StepState>, m: Position, i: nat)
    requires m.Undoing? || m.Undone?
    requires Fits(m, |w|) && i < |w| && forall j :: 0 <= j < |w| ==> w[j] == Letter(m, j)
    ensures UndoAccepts(w, i) <==> AcceptedAt(m, i, |w|)
  {
    if m.Undoing? && i > m.i {
      assert !w[m.i].CompensationPending?;
    }
    if m.Undone? && i > 0 {
      assert !w[0].CompensationPending?;
    }
  }
}
