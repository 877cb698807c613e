/**
 * Rebuilding the execution order of a saga's steps from rows that arrive in any order.
 */
module StepOrder {
  import opened Types

  /** Lookup table by instance id; a later row with the same id wins. */
  function ById(rows: seq<StepInstance>): (m: map<string, StepInstance>)
    ensures forall id :: id in m ==> m[id].id == id && m[id] in rows
    ensures forall r :: r in rows ==> r.id in m
  {
    if rows == [] then map[]
    else
      var last := rows[|rows| - 1];
      assert rows == rows[..|rows| - 1] + [last];
      ById(rows[..|rows| - 1])[last.id := last]
  }

  predicate HasHead(rows: seq<StepInstance>) {
    exists r :: r in rows && r.prev == ""
  }

  /** The first row, in arrival order, that has no predecessor. */
  function Head(rows: seq<StepInstance>): (h: StepInstance)
    requires HasHead(rows)
    ensures h in rows && h.prev == ""
  {
    if rows[0].prev == "" then rows[0]
    else
      assert rows == [rows[0]] + rows[1..];
      Head(rows[1..])
  }

  predicate Follows(rows: seq<StepInstance>, a: StepInstance, b: StepInstance) {
    a.next != "" && a.next in ById(rows) && ById(rows)[a.next] == b
  }

  /** Nothing comes after a: it names no successor, or one that is not among the rows. */
  predicate EndsAt(rows: seq<StepInstance>, a: StepInstance) {
    a.next == "" || a.next !in ById(rows)
  }

  ghost predicate IsChain(chain: seq<StepInstance>, rows: seq<StepInstance>)
    requires HasHead(rows)
  {
    && chain != []
    && chain[0] == Head(rows)
    && forall k :: 0 < k < |chain| ==> Follows(rows, chain[k-1], chain[k])
  }

  /** The chain from the head to the row after which nothing comes. */
  ghost predicate IsOrder(chain: seq<StepInstance>, rows: seq<StepInstance>)
    requires HasHead(rows)
  {
    IsChain(chain, rows) && EndsAt(rows, chain[|chain| - 1])
  }

  /** The source's walk along the next pointers comes to an end. */
  ghost predicate Orderable(rows: seq<StepInstance>) {
    HasHead(rows) ==> exists chain :: IsOrder(chain, rows)
  }

  lemma {:induction false} ChainsAgree(c: seq<StepInstance>, d: seq<StepInstance>, rows: seq<StepInstance>, k: nat)
    requires HasHead(rows) && IsChain(c, rows) && IsChain(d, rows)
    requires k < |c| && k < |d|
    ensures c[k] == d[k]
  {
    if k > 0 {
      ChainsAgree(c, d, rows, k - 1);
      assert Follows(rows, c[k-1], c[k]) && Follows(rows, d[k-1], d[k]);
    }
  }

  /** There is at most one order. */
  lemma OrderIsUnique(c: seq<StepInstance>, d: seq<StepInstance>, rows: seq<StepInstance>)
    requires HasHead(rows) && IsOrder(c, rows) && IsOrder(d, rows)
    ensures c == d
  {
    forall k | 0 <= k < |c| && k < |d| ensures c[k] == d[k] {
      ChainsAgree(c, d, rows, k);
    }
    assert |c| < |d| ==> Follows(rows, d[|c|-1], d[|c|]);
    assert |d| < |c| ==> Follows(rows, c[|d|-1], c[|d|]);
  }

  method IndexById(rows: seq<StepInstance>) returns (stepMap: map<string, StepInstance>)
    ensures stepMap == ById(rows)
  {
    stepMap := map[];
    for k := 0 to |rows|
      invariant stepMap == ById(rows[..k])
    {
      assert rows[..k+1][..k] == rows[..k];
      stepMap := stepMap[rows[k].id := rows[k]];
    }
    assert rows[..|rows|] == rows;
  }

  method FindHead(rows: seq<StepInstance>) returns (head: Option<StepInstance>)
    ensures head.Some? == HasHead(rows)
    ensures head.Some? ==> head.value == Head(rows)
  {
    for k := 0 to |rows|
      invariant forall j :: 0 <= j < k ==> rows[j].prev != ""
    {
      if rows[k].prev == "" {
        HeadIsFirst(rows, k);
        return Some(rows[k]);
      }
    }
    return None;
  }

  method OrderSagaStepsInSequence(allSteps: seq<StepInstance>) returns (ordered: seq<StepInstance>)
    requires Orderable(allSteps)
    ensures !HasHead(allSteps) ==> ordered == allSteps
    ensures HasHead(allSteps) ==> IsOrder(ordered, allSteps)
  {
    var stepMap := IndexById(allSteps);
    var firstStep := FindHead(allSteps);
    if firstStep.None? {
      return allSteps;
    }
    ghost var chain :| IsOrder(chain, allSteps);
    ordered := [];
    var currentStep := firstStep.value;
    while true
      invariant |ordered| < |chain| && currentStep == chain[|ordered|]
      invariant forall k :: 0 <= k < |ordered| ==> ordered[k] == chain[k]
      decreases |chain| - |ordered|
    {
      ordered := ordered + [currentStep];
      assert |ordered| < |chain| ==> Follows(allSteps, chain[|ordered|-1], chain[|ordered|]);
      if currentStep.next == "" || currentStep.next !in stepMap {
        assert ordered == chain;
        return;
      }
      currentStep := stepMap[currentStep.next];
    }
  }

  lemma {:induction false} HeadIsFirst(rows: seq<StepInstance>, k: nat)
    requires k < |rows| && rows[k].prev == ""
    requires forall j :: 0 <= j < k ==> rows[j].prev != ""
    ensures HasHead(rows) && Head(rows) == rows[k]
  {
    assert rows[k] in rows;
    if k > 0 {
      assert rows[1..][k-1] == rows[k];
      HeadIsFirst(rows[1..], k - 1);
    }
  }

  /** Row k of a linked saga, with its neighbours' ids spelled out. */
  lemma LinkedNeighbours(v: View, k: nat)
    requires Linked(v) && k < |v.steps|
    ensures v.steps[k].id == v.saga.stepIds[k] && v.steps[k].id != ""
    ensures k == 0 ==> v.steps[k].prev == ""
    ensures k > 0 ==> v.steps[k].prev == v.steps[k-1].id && v.steps[k].prev != "" && v.steps[k-1].next == v.steps[k].id
    ensures k == |v.steps| - 1 ==> v.steps[k].next == ""
  {
    assert LinkedRow(v.steps[k], v.saga.id, v.saga.stepIds, k);
    if k > 0 {
      assert LinkedRow(v.steps[k-1], v.saga.id, v.saga.stepIds, k - 1);
    }
  }

  lemma RowById(v: View, rows: seq<StepInstance>, j: nat)
    requires Linked(v) && j < |v.steps|
    requires forall r :: r in rows <==> r in v.steps
    ensures v.steps[j].id in ById(rows) && ById(rows)[v.steps[j].id] == v.steps[j]
  {
    assert v.steps[j] in rows;
    var r := ById(rows)[v.steps[j].id];
    assert r in v.steps;
    var k :| 0 <= k < |v.steps| && v.steps[k] == r;
    LinkedNeighbours(v, k);
    LinkedNeighbours(v, j);
    hide Linked;
    assert v.saga.stepIds[k] == v.saga.stepIds[j];
    IdsAreDistinct(v, j, k);
  }

  lemma IdsAreDistinct(v: View, j: nat, k: nat)
    requires Linked(v) && j < |v.steps| && k < |v.steps|
    requires v.saga.stepIds[j] == v.saga.stepIds[k]
    ensures j == k
  {
  }

  /** The rows of a linked saga, listed in any order, have exactly one order: the template's. */
  lemma LinkedRowsHaveTheirOrder(v: View, rows: seq<StepInstance>)
    requires Linked(v)
    requires forall r :: r in rows <==> r in v.steps
    ensures HasHead(rows) && IsOrder(v.steps, rows) && Orderable(rows)
  {
    LinkedNeighbours(v, 0);
    assert v.steps[0] in rows;
    var h := Head(rows);
    assert h in v.steps;
    var k :| 0 <= k < |v.steps| && v.steps[k] == h;
    LinkedNeighbours(v, k);
    forall j | 0 < j < |v.steps| ensures Follows(rows, v.steps[j-1], v.steps[j]) {
      RowById(v, rows, j);
      LinkedNeighbours(v, j);
    }
    LinkedNeighbours(v, |v.steps| - 1);
    assert IsOrder(v.steps, rows);
  }

  // ----- which rows can be ordered at all -----

  predicate HasNoRepeats(rows: seq<StepInstance>) {
    forall i, j :: 0 <= i < j < |rows| ==> rows[i] != rows[j]
  }

  /** Following the next pointers from the head never comes to a row a second time. */
  ghost predicate WalkRevisitsNoRow(rows: seq<StepInstance>)
    requires HasHead(rows)
  {
    forall chain :: IsChain(chain, rows) ==> HasNoRepeats(chain)
  }

  /** The source's walk comes to an end if and only if it revisits no row. */
  lemma OrderableIffNoRowRevisited(rows: seq<StepInstance>)
    requires HasHead(rows)
    ensures Orderable(rows) <==> WalkRevisitsNoRow(rows)
  {
    if Orderable(rows) {
      var order :| IsOrder(order, rows);
      forall chain | IsChain(chain, rows) ensures HasNoRepeats(chain) {
        ChainsOfAnOrderHaveNoRepeats(order, chain, rows);
      }
    }
    if WalkRevisitsNoRow(rows) {
      var chain := [Head(rows)];
      assert IsChain(chain, rows);
      var order := WalkToTheEnd(chain, rows);
    }
  }

  lemma ChainsOfAnOrderHaveNoRepeats(order: seq<StepInstance>, chain: seq<StepInstance>, rows: seq<StepInstance>)
    requires HasHead(rows) && IsOrder(order, rows) && IsChain(chain, rows)
    ensures HasNoRepeats(chain)
  {
    forall k | 0 <= k < |chain| && k < |order| ensures chain[k] == order[k] {
      ChainsAgree(chain, order, rows, k);
    }
    assert |order| < |chain| ==> Follows(rows, chain[|order|-1], chain[|order|]);
    forall i, j | 0 <= i < j < |chain| ensures chain[i] != chain[j] {
      if chain[i] == chain[j] {
        OrdersRepeatNothing(order, rows, i, j);
        assert false;
      }
    }
  }

  lemma {:induction false} RepeatsGoOn(order: seq<StepInstance>, rows: seq<StepInstance>, i: nat, j: nat, t: nat)
    requires HasHead(rows) && IsChain(order, rows) && i < j && j + t < |order| && order[i] == order[j]
    ensures order[i + t] == order[j + t]
  {
    if t > 0 {
      RepeatsGoOn(order, rows, i, j, t - 1);
      assert Follows(rows, order[i + t - 1], order[i + t]) && Follows(rows, order[j + t - 1], order[j + t]);
    }
  }

  lemma OrdersRepeatNothing(order: seq<StepInstance>, rows: seq<StepInstance>, i: nat, j: nat)
    requires HasHead(rows) && IsOrder(order, rows) && i < j < |order|
    ensures order[i] != order[j]
  {
    var t := |order| - 1 - j;
    assert Follows(rows, order[i + t], order[i + t + 1]);
    if order[i] == order[j] {
      RepeatsGoOn(order, rows, i, j, t);
      assert false;
    }
  }

  lemma {:induction false} WalkToTheEnd(chain: seq<StepInstance>, rows: seq<StepInstance>)
    returns (order: seq<StepInstance>)
    requires HasHead(rows) && WalkRevisitsNoRow(rows) && IsChain(chain, rows)
    ensures IsOrder(order, rows)
    decreases |rows| - |chain|
  {
    var last := chain[|chain| - 1];
    if EndsAt(rows, last) {
      order := chain;
    } else {
      var longer := chain + [ById(rows)[last.next]];
      assert IsChain(longer, rows);
      RowsOfChain(longer, rows);
      NoMoreThanThereAre(longer, rows);
      order := WalkToTheEnd(longer, rows);
    }
  }

  lemma RowsOfChain(chain: seq<StepInstance>, rows: seq<StepInstance>)
    requires HasHead(rows) && IsChain(chain, rows)
    ensures forall r :: r in chain ==> r in rows
  {
    forall k | 0 <= k < |chain| ensures chain[k] in rows {
      assert k > 0 ==> Follows(rows, chain[k-1], chain[k]);
    }
  }

  lemma {:induction false} NoMoreThanThereAre(some: seq<StepInstance>, all: seq<StepInstance>)
    requires HasNoRepeats(some) && forall r :: r in some ==> r in all
    ensures |some| <= |all|
    decreases |some|
  {
    if some != [] {
      var last := some[|some| - 1];
      assert last in some && last in all;
      var k :| 0 <= k < |all| && all[k] == last;
      var fewer, rest := some[..|some| - 1], all[..k] + all[k+1..];
      forall r | r in fewer ensures r in rest {
        var i :| 0 <= i < |fewer| && fewer[i] == r;
        assert some[i] == r && r in all && r != last;
        var j :| 0 <= j < |all| && all[j] == r;
        assert if j < k then rest[j] == r else rest[j-1] == r;
      }
      NoMoreThanThereAre(fewer, rest);
    }
  }

  /** A head that points back at itself has no order: on such rows the source's loop never ends. */
  lemma SelfLinkHasNoOrder(r: StepInstance)
    requires r.prev == "" && r.id != "" && r.next == r.id
    ensures !Orderable([r])
  {
    assert r in [r];
    assert r.id in ById([r]);
    if chain :| IsOrder(chain, [r]) {
      SelfLinkChain(r, chain, |chain| - 1);
      assert false;
    }
  }

  lemma {:induction false} SelfLinkChain(r: StepInstance, chain: seq<StepInstance>, k: nat)
    requires r.prev == "" && r.id != "" && r.next == r.id
    requires HasHead([r]) && IsChain(chain, [r]) && k < |chain|
    ensures chain[k] == r
  {
    if k > 0 {
      SelfLinkChain(r, chain, k - 1);
      assert Follows([r], chain[k-1], chain[k]);
    }
  }
}
