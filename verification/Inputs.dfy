/**
 * What a step is sent: the saga input overlaid with the results of other steps.
 */
module Inputs {
  import opened Types

  /** The results of the steps, laid over base in order. */
  function OverlayResults(base: Data, steps: seq<StepInstance>): Data {
    if steps == [] then base
    else OverlayResults(base, steps[..|steps| - 1]) + steps[|steps| - 1].result
  }

  /** The compensation results of the steps already compensated, laid over base in order. */
  function OverlayCompensationResults(base: Data, steps: seq<StepInstance>): Data {
    if steps == [] then base
    else
      var rest := OverlayCompensationResults(base, steps[..|steps| - 1]);
      var last := steps[|steps| - 1];
      if last.state.CompensationDone? then rest + last.compensationResult else rest
  }

  function ForwardInput(v: View, i: nat): Data
    requires i < |v.steps|
  {
    OverlayResults(v.saga.input, v.steps[..i])
  }

  function CompensationInput(v: View, i: nat): Data
    requires i < |v.steps|
  {
    OverlayCompensationResults(OverlayResults(v.saga.input, v.steps[..i+1]), v.steps[i+1..])
  }

  /** j is the last of the steps whose result has key k. */
  predicate LastResultWith(steps: seq<StepInstance>, k: string, j: int) {
    && 0 <= j < |steps| && k in steps[j].result
    && forall l :: j < l < |steps| ==> k !in steps[l].result
  }

  predicate NoResultWith(steps: seq<StepInstance>, k: string) {
    forall l :: 0 <= l < |steps| ==> k !in steps[l].result
  }

  /** j is the last compensated step whose compensation result has key k. */
  predicate LastCompensationWith(steps: seq<StepInstance>, k: string, j: int) {
    && 0 <= j < |steps| && steps[j].state.CompensationDone? && k in steps[j].compensationResult
    && forall l :: j < l < |steps| ==> !(steps[l].state.CompensationDone? && k in steps[l].compensationResult)
  }

  predicate NoCompensationWith(steps: seq<StepInstance>, k: string) {
    forall l :: 0 <= l < |steps| ==> !(steps[l].state.CompensationDone? && k in steps[l].compensationResult)
  }

  function Lookup(m: Data, k: string): Option<string> {
    if k in m then Some(m[k]) else None
  }

  lemma {:induction false} ResultsLastWriterWins(base: Data, steps: seq<StepInstance>, k: string, j: int)
    ensures LastResultWith(steps, k, j) ==> Lookup(OverlayResults(base, steps), k) == Some(steps[j].result[k])
    ensures NoResultWith(steps, k) ==> Lookup(OverlayResults(base, steps), k) == Lookup(base, k)
  {
    if steps != [] {
      var rest := steps[..|steps| - 1];
      ResultsLastWriterWins(base, rest, k, j);
      assert j < |rest| && LastResultWith(steps, k, j) ==> LastResultWith(rest, k, j);
    }
  }

  lemma {:induction false} CompensationsLastWriterWins(base: Data, steps: seq<StepInstance>, k: string, j: int)
    ensures LastCompensationWith(steps, k, j)
      ==> Lookup(OverlayCompensationResults(base, steps), k) == Some(steps[j].compensationResult[k])
    ensures NoCompensationWith(steps, k) ==> Lookup(OverlayCompensationResults(base, steps), k) == Lookup(base, k)
  {
    if steps != [] {
      var rest := steps[..|steps| - 1];
      CompensationsLastWriterWins(base, rest, k, j);
      assert j < |rest| && LastCompensationWith(steps, k, j) ==> LastCompensationWith(rest, k, j);
    }
  }

  /**
   * The value a compensation sees under a key: from the last compensated step after it that
   * produced the key, else from the last forward result up to and including its own step, else
   * from the saga input.
   */
  lemma CompensationInputPrecedence(v: View, i: nat, k: string, c: int, r: int)
    requires i < |v.steps|
    ensures var before := v.steps[..i+1]; var after := v.steps[i+1..];
      var seen := Lookup(CompensationInput(v, i), k);
      && (LastCompensationWith(after, k, c) ==> seen == Some(after[c].compensationResult[k]))
      && (NoCompensationWith(after, k) && LastResultWith(before, k, r) ==> seen == Some(before[r].result[k]))
      && (NoCompensationWith(after, k) && NoResultWith(before, k) ==> seen == Lookup(v.saga.input, k))
  {
    ResultsLastWriterWins(v.saga.input, v.steps[..i+1], k, r);
    CompensationsLastWriterWins(OverlayResults(v.saga.input, v.steps[..i+1]), v.steps[i+1..], k, c);
  }

  /** d is what an execution of step i is to see: under every key the last preceding result, else the saga input. */
  ghost predicate SeesResults(d: Data, v: View, i: nat)
    requires i < |v.steps|
  {
    var before := v.steps[..i];
    && (forall k, r :: LastResultWith(before, k, r) ==> Lookup(d, k) == Some(before[r].result[k]))
    && (forall k :: NoResultWith(before, k) ==> Lookup(d, k) == Lookup(v.saga.input, k))
  }

  /**
   * d is what a compensation of step i is to see: under every key the last compensation result after
   * it, else the last result up to and including its own, else the saga input.
   */
  ghost predicate SeesCompensations(d: Data, v: View, i: nat)
    requires i < |v.steps|
  {
    var before, after := v.steps[..i+1], v.steps[i+1..];
    && (forall k, c :: LastCompensationWith(after, k, c) ==> Lookup(d, k) == Some(after[c].compensationResult[k]))
    && (forall k, r :: NoCompensationWith(after, k) && LastResultWith(before, k, r) ==>
          Lookup(d, k) == Some(before[r].result[k]))
    && (forall k :: NoCompensationWith(after, k) && NoResultWith(before, k) ==> Lookup(d, k) == Lookup(v.saga.input, k))
  }

  /** The inputs that are built are what the steps are to see. */
  lemma InputsSeeThat(v: View, i: nat)
    requires i < |v.steps|
    ensures SeesResults(ForwardInput(v, i), v, i) && SeesCompensations(CompensationInput(v, i), v, i)
  {
    ExecutionsSeeResults(v, i);
    hide ForwardInput, CompensationInput;
    var before, after, d := v.steps[..i+1], v.steps[i+1..], CompensationInput(v, i);
    forall k, c | LastCompensationWith(after, k, c) ensures Lookup(d, k) == Some(after[c].compensationResult[k]) {
      CompensationInputPrecedence(v, i, k, c, 0);
    }
    forall k, r | NoCompensationWith(after, k) && LastResultWith(before, k, r)
      ensures Lookup(d, k) == Some(before[r].result[k])
    {
      CompensationInputPrecedence(v, i, k, 0, r);
    }
    forall k | NoCompensationWith(after, k) && NoResultWith(before, k) ensures Lookup(d, k) == Lookup(v.saga.input, k) {
      CompensationInputPrecedence(v, i, k, 0, 0);
    }
  }

  lemma ExecutionsSeeResults(v: View, i: nat)
    requires i < |v.steps|
    ensures SeesResults(ForwardInput(v, i), v, i)
  {
    hide ForwardInput;
    forall k, r | LastResultWith(v.steps[..i], k, r)
      ensures Lookup(ForwardInput(v, i), k) == Some(v.steps[..i][r].result[k])
    {
      ForwardInputPrecedence(v, i, k, r);
    }
    forall k | NoResultWith(v.steps[..i], k) ensures Lookup(ForwardInput(v, i), k) == Lookup(v.saga.input, k) {
      ForwardInputPrecedence(v, i, k, 0);
    }
  }

  lemma {:induction false} SomeResultIsLast(steps: seq<StepInstance>, k: string) returns (j: int)
    ensures LastResultWith(steps, k, j) || NoResultWith(steps, k)
  {
    j := 0;
    if steps != [] {
      if k in steps[|steps| - 1].result {
        j := |steps| - 1;
      } else {
        j := SomeResultIsLast(steps[..|steps| - 1], k);
      }
    }
  }

  lemma {:induction false} SomeCompensationIsLast(steps: seq<StepInstance>, k: string) returns (j: int)
    ensures LastCompensationWith(steps, k, j) || NoCompensationWith(steps, k)
  {
    j := 0;
    if steps != [] {
      var last := steps[|steps| - 1];
      if last.state.CompensationDone? && k in last.compensationResult {
        j := |steps| - 1;
      } else {
        j := SomeCompensationIsLast(steps[..|steps| - 1], k);
      }
    }
  }

  /** Nothing else is: what a step is to see has one value under every key. */
  lemma InputsAreDetermined(d: Data, v: View, i: nat)
    requires i < |v.steps|
    ensures SeesResults(d, v, i) <==> d == ForwardInput(v, i)
    ensures SeesCompensations(d, v, i) <==> d == CompensationInput(v, i)
  {
    InputsSeeThat(v, i);
    hide ForwardInput, CompensationInput;
    forall k | SeesResults(d, v, i) ensures Lookup(d, k) == Lookup(ForwardInput(v, i), k) {
      var r := SomeResultIsLast(v.steps[..i], k);
    }
    forall k | SeesCompensations(d, v, i) ensures Lookup(d, k) == Lookup(CompensationInput(v, i), k) {
      var r := SomeResultIsLast(v.steps[..i+1], k);
      var c := SomeCompensationIsLast(v.steps[i+1..], k);
    }
    SameLookups(d, ForwardInput(v, i));
    SameLookups(d, CompensationInput(v, i));
  }

  lemma SameLookups(d: Data, e: Data)
    ensures (forall k :: Lookup(d, k) == Lookup(e, k)) ==> d == e
  {
    if forall k :: Lookup(d, k) == Lookup(e, k) {
      forall k ensures k in d <==> k in e {
        assert Lookup(d, k) == Lookup(e, k);
      }
      forall k | k in d ensures d[k] == e[k] {
        assert Lookup(d, k) == Lookup(e, k);
      }
    }
  }

  /** What a step is to see depends on the results, the compensated steps and the saga input only. */
  lemma SameResultsSameInput(d: Data, v: View, w: View, i: nat)
    requires i < |v.steps| == |w.steps| && w.saga.input == v.saga.input
    requires forall j :: 0 <= j < |v.steps| ==> SameResults(v.steps[j], w.steps[j])
    ensures SeesResults(d, v, i) <==> SeesResults(d, w, i)
    ensures SeesCompensations(d, v, i) <==> SeesCompensations(d, w, i)
  {
    hide SeesResults, SeesCompensations, OverlayResults, OverlayCompensationResults;
    InputsAreDetermined(d, v, i);
    InputsAreDetermined(d, w, i);
    assert forall j :: 0 <= j < |v.steps| ==>
      SameResults(v.steps[j], w.steps[j]) && v.steps[j].result == w.steps[j].result;
    SameOverlay(v.saga.input, v.steps[..i], w.steps[..i]);
    SameOverlay(v.saga.input, v.steps[..i+1], w.steps[..i+1]);
    SameCompensationOverlay(OverlayResults(v.saga.input, v.steps[..i+1]), v.steps[i+1..], w.steps[i+1..]);
  }

  predicate SameResults(a: StepInstance, b: StepInstance) {
    && a.result == b.result && a.compensationResult == b.compensationResult
    && (a.state.CompensationDone? <==> b.state.CompensationDone?)
  }

  lemma {:induction false} SameOverlay(base: Data, a: seq<StepInstance>, b: seq<StepInstance>)
    requires |a| == |b| && forall j :: 0 <= j < |a| ==> a[j].result == b[j].result
    ensures OverlayResults(base, a) == OverlayResults(base, b)
  {
    if a != [] {
      SameOverlay(base, a[..|a| - 1], b[..|b| - 1]);
    }
  }

  lemma {:induction false} SameCompensationOverlay(base: Data, a: seq<StepInstance>, b: seq<StepInstance>)
    requires |a| == |b| && forall j :: 0 <= j < |a| ==> SameResults(a[j], b[j])
    ensures OverlayCompensationResults(base, a) == OverlayCompensationResults(base, b)
  {
    if a != [] {
      SameCompensationOverlay(base, a[..|a| - 1], b[..|b| - 1]);
    }
  }

  /** The value an execution sees under a key: from the last preceding step that produced it, else the saga input. */
  lemma ForwardInputPrecedence(v: View, i: nat, k: string, r: int)
    requires i < |v.steps|
    ensures LastResultWith(v.steps[..i], k, r) ==> Lookup(ForwardInput(v, i), k) == Some(v.steps[r].result[k])
    ensures NoResultWith(v.steps[..i], k) ==> Lookup(ForwardInput(v, i), k) == Lookup(v.saga.input, k)
  {
    ResultsLastWriterWins(v.saga.input, v.steps[..i], k, r);
  }
}
