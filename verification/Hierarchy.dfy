/**
 * Trees of sagas: how a child gets its parent, root and depth, and why the root recorded on each
 * row describes the tree.
 */
module Hierarchy {
  import opened Types
  import opened Stores
  import opened Transitions
  import opened Machine
  import opened Invariants
  import opened Runs
  import opened StoreRuns
  import opened Submissions

  // ----- spawning -----

  /** The submission of a child by a step that works on request r. */
  function SpawnRequest(r: Request, childId: string, templateId: string, input: Data): SubmissionRequest {
    SubmissionRequest(childId, templateId, input, r.sagaId, r.stepId, r.rootId, r.depth + 1)
  }

  /** A top-level saga, or one spawned by a step working on a request on the bus. */
  ghost predicate IsSpawned(w: World, saga: SagaInstance) {
    || (saga.parentId == "" && saga.rootId == saga.id && saga.depth == 0)
    || (exists r :: r in w.bus && IsSpawnedBy(r, saga))
  }

  predicate IsSpawnedBy(r: Request, saga: SagaInstance) {
    saga.parentId == r.sagaId && saga.parentStepId == r.stepId && saga.rootId == r.rootId && saga.depth == r.depth + 1
  }

  // ----- the tree recorded on the rows -----

  /** Root and depth agree with the parent's. */
  ghost predicate IsRooted(db: Db, saga: SagaInstance) {
    if saga.parentId == "" then saga.rootId == saga.id && saga.depth == 0
    else
      && saga.parentId in db.sagas
      && saga.rootId == db.sagas[saga.parentId].rootId
      && saga.depth == db.sagas[saga.parentId].depth + 1
      && db.sagas[saga.parentId].depth >= 0
  }

  /** A request carries the place of the saga it belongs to. */
  ghost predicate IsPlaced(db: Db, r: Request) {
    && r.sagaId in db.sagas && r.sagaId != "" && r.rootId != ""
    && r.rootId == db.sagas[r.sagaId].rootId && r.depth == db.sagas[r.sagaId].depth
    && r.stepId in db.steps && db.steps[r.stepId].sagaId == r.sagaId
  }

  ghost predicate InHierarchy(w: World) {
    && Keyed(w.db) && "" !in w.db.sagas
    && (forall s :: s in w.db.sagas ==>
          IsRooted(w.db, w.db.sagas[s]) && w.db.sagas[s].rootId != "" && w.db.sagas[s].depth >= 0)
    && (forall r :: r in w.bus ==> IsPlaced(w.db, r))
  }

  lemma MoveKeepsHierarchy(w: World, w': World, v: View, a: Action, i: nat)
    requires Moves(w, w', v, a, i) && InHierarchy(w)
    ensures InHierarchy(w')
  {
    MoveKeepsSagas(w, w', v, a, i);
    IdentityUnderMove(w.db, w'.db, w.bus, w'.bus, v, a, i);
    MoveOnTheBus(w, w', v, a, i);
    HierarchyIsKeyed(w);
    hide *;
    HierarchyCarriesOver(w, w');
  }

  lemma HierarchyIsKeyed(w: World)
    requires InHierarchy(w)
    ensures Keyed(w.db)
  {
  }

  /** Rows that keep their origin keep their place. */
  lemma HierarchyCarriesOver(w: World, w': World)
    requires InHierarchy(w) && Keyed(w'.db) && KeepsSagas(w, w')
    requires w'.db.sagas.Keys == w.db.sagas.Keys && w'.db.steps.Keys == w.db.steps.Keys
    requires forall id :: id in w.db.steps ==> w'.db.steps[id].sagaId == w.db.steps[id].sagaId
    requires forall r :: r in w'.bus ==> IsPlaced(w.db, r)
    ensures InHierarchy(w')
  {
    forall s | s in w'.db.sagas
      ensures IsRooted(w'.db, w'.db.sagas[s]) && w'.db.sagas[s].rootId != "" && w'.db.sagas[s].depth >= 0
    {
      assert SameOrigin(w.db.sagas[s], w'.db.sagas[s]) && IsRooted(w.db, w.db.sagas[s]);
    }
    forall r | r in w'.bus ensures IsPlaced(w'.db, r) {
      assert IsPlaced(w.db, r);
    }
  }

  /** Every request on the bus after a move is one from before or one for the saga that moved. */
  lemma MoveOnTheBus(w: World, w': World, v: View, a: Action, i: nat)
    requires Moves(w, w', v, a, i) && InHierarchy(w)
    ensures forall r :: r in w'.bus ==> IsPlaced(w.db, r)
  {
    hide Enabled, Moved, CarriesInput;
    forall r | r in w'.bus ensures IsPlaced(w.db, r) {
      if r !in w.bus {
        assert PendingRequest(r, v, i);
        assert LinkedRow(v.steps[i], v.saga.id, v.saga.stepIds, i);
      }
    }
  }

  lemma RegistrationKeepsHierarchy(w: World, w': World, v: View)
    requires Registers(w, w', v) && InHierarchy(w) && IsSpawned(w, v.saga)
    ensures InHierarchy(w')
  {
    hide Linked, IsNew;
    forall s | s in w'.db.sagas
      ensures IsRooted(w'.db, w'.db.sagas[s]) && w'.db.sagas[s].rootId != "" && w'.db.sagas[s].depth >= 0
    {
      if s != v.saga.id {
        assert IsRooted(w.db, w.db.sagas[s]);
      }
    }
    forall r | r in w'.bus ensures IsPlaced(w'.db, r) {
      assert IsPlaced(w.db, r);
    }
  }

  /** Every saga registered along the path was spawned or submitted at the top level. */
  ghost predicate OnlySpawns(path: seq<World>) {
    forall k, s {:trigger s in path[k].db.sagas} ::
      0 < k < |path| && s in path[k].db.sagas && s !in path[k-1].db.sagas ==>
      IsSpawned(path[k-1], path[k].db.sagas[s])
  }

  /** From the empty store on, the rows describe the tree. */
  lemma {:induction false} RunsKeepHierarchy(path: seq<World>, k: nat)
    requires IsPath(path, false) && OnlySpawns(path) && k < |path|
    requires path[0] == EmptyWorld()
    ensures InHierarchy(path[k])
  {
    hide StepsTo, InHierarchy;
    if k == 0 {
      EmptyHierarchy();
    } else {
      RunsKeepHierarchy(path, k - 1);
      StepKeepsHierarchy(path, k);
    }
  }

  lemma EmptyHierarchy()
    ensures InHierarchy(EmptyWorld())
  {
  }

  lemma StepKeepsHierarchy(path: seq<World>, k: nat)
    requires 0 < k < |path| && IsPath(path, false) && OnlySpawns(path) && InHierarchy(path[k-1])
    ensures InHierarchy(path[k])
  {
    hide LegalMove, Registers, InHierarchy, IsSpawned;
    var w, w' := path[k-1], path[k];
    assert StepsTo(w, w', false);
    if v: View, a: Action, i: nat :| Moves(w, w', v, a, i) {
      MoveKeepsHierarchy(w, w', v, a, i);
    } else {
      var v: View :| Registers(w, w', v);
      NewOnes(w, w', v);
      assert v.saga.id in path[k].db.sagas;
      RegistrationKeepsHierarchy(w, w', v);
    }
  }

  // ----- paths -----

  ghost predicate IsPathTo(db: Db, path: seq<string>, top: string, s: string) {
    LeadsDown(db, path) && path[0] == top && path[|path| - 1] == s
  }

  ghost predicate Descends(db: Db, top: string, s: string) {
    exists path :: IsPathTo(db, path, top, s)
  }

  /** Along a path down the root stays the same and the depth grows by one a step. */
  lemma {:induction false} DepthGrowsDown(w: World, path: seq<string>, k: nat)
    requires InHierarchy(w) && LeadsDown(w.db, path) && k < |path|
    ensures path[k] in w.db.sagas
    ensures w.db.sagas[path[k]].rootId == w.db.sagas[path[0]].rootId
    ensures w.db.sagas[path[k]].depth == w.db.sagas[path[0]].depth + k
  {
    hide InHierarchy, LeadsDown;
    if k == 0 {
      PathsStart(w.db, path);
    } else {
      DepthGrowsDown(w, path, k - 1);
      StepsDown(w, path, k);
    }
  }

  lemma PathsStart(db: Db, path: seq<string>)
    requires LeadsDown(db, path)
    ensures path[0] in db.sagas
  {
  }

  /** One step down a path: the child has its parent's root and is one deeper. */
  lemma StepsDown(w: World, path: seq<string>, k: nat)
    requires InHierarchy(w) && LeadsDown(w.db, path) && 0 < k < |path| && path[k-1] in w.db.sagas
    ensures path[k] in w.db.sagas
    ensures w.db.sagas[path[k]].rootId == w.db.sagas[path[k-1]].rootId
    ensures w.db.sagas[path[k]].depth == w.db.sagas[path[k-1]].depth + 1
  {
    assert IsOneDown(w.db, path, k);
    hide LeadsDown;
    assert IsRooted(w.db, w.db.sagas[path[k]]);
  }

  /** Every saga hangs off the root it names, as deep as it says. */
  lemma {:induction false} PathFromRoot(w: World, s: string) returns (path: seq<string>)
    requires InHierarchy(w) && s in w.db.sagas
    ensures IsPathTo(w.db, path, w.db.sagas[s].rootId, s)
    ensures |path| == w.db.sagas[s].depth + 1 && w.db.sagas[path[0]].parentId == ""
    decreases w.db.sagas[s].depth
  {
    var saga := w.db.sagas[s];
    assert IsRooted(w.db, saga);
    if saga.parentId == "" {
      path := [s];
    } else {
      path := PathFromRoot(w, saga.parentId);
      hide InHierarchy, IsRooted;
      LeadsOneDown(w.db, path, s);
      path := path + [s];
    }
  }

  lemma LeadsOneDown(db: Db, path: seq<string>, s: string)
    requires LeadsDown(db, path) && s in db.sagas && db.sagas[s].parentId == path[|path| - 1] != ""
    ensures LeadsDown(db, path + [s])
  {
    var longer := path + [s];
    forall k | 0 < k < |longer| ensures IsOneDown(db, longer, k) {
      assert k < |path| ==> IsOneDown(db, path, k);
    }
  }

  /** A saga's depth is its distance from its root, along any path. */
  lemma DepthIsDistance(w: World, path: seq<string>, s: string)
    requires InHierarchy(w) && s in w.db.sagas && IsPathTo(w.db, path, w.db.sagas[s].rootId, s)
    ensures w.db.sagas[s].depth == |path| - 1
  {
    DepthGrowsDown(w, path, |path| - 1);
    var other := PathFromRoot(w, s);
    assert w.db.sagas[other[0]].depth == 0 by { assert IsRooted(w.db, w.db.sagas[other[0]]); }
  }

  /** No saga is its own ancestor. */
  lemma ParentsAreAcyclic(w: World, path: seq<string>)
    requires InHierarchy(w) && LeadsDown(w.db, path) && |path| > 1
    ensures path[0] != path[|path| - 1]
  {
    DepthGrowsDown(w, path, |path| - 1);
  }

  /** The query by root returns exactly the tree below a saga, if and only if that saga has no parent. */
  lemma RootIndexIsTheTree(w: World, top: string)
    requires InHierarchy(w) && top in w.db.sagas
    ensures (forall s :: s in w.db.sagas ==> (w.db.sagas[s].rootId == top <==> Descends(w.db, top, s)))
      <==> w.db.sagas[top].parentId == ""
  {
    hide InHierarchy, LeadsDown;
    if w.db.sagas[top].parentId == "" {
      forall s | s in w.db.sagas ensures w.db.sagas[s].rootId == top <==> Descends(w.db, top, s) {
        IndexedIffDescends(w, top, s);
      }
    } else {
      NotItsOwnRoot(w, top);
    }
  }

  lemma IndexedIffDescends(w: World, top: string, s: string)
    requires InHierarchy(w) && top in w.db.sagas && s in w.db.sagas && w.db.sagas[top].parentId == ""
    ensures w.db.sagas[s].rootId == top <==> Descends(w.db, top, s)
  {
    if w.db.sagas[s].rootId == top {
      var path := PathFromRoot(w, s);
      assert IsPathTo(w.db, path, top, s);
    }
    if Descends(w.db, top, s) {
      var path :| IsPathTo(w.db, path, top, s);
      DepthGrowsDown(w, path, |path| - 1);
      assert IsRooted(w.db, w.db.sagas[top]);
    }
  }

  lemma NotItsOwnRoot(w: World, top: string)
    requires InHierarchy(w) && top in w.db.sagas && w.db.sagas[top].parentId != ""
    ensures w.db.sagas[top].rootId != top && Descends(w.db, top, top)
  {
    var path := PathFromRoot(w, top);
    assert IsPathTo(w.db, [top], top, top);
  }

  /** What GetSagaHierarchy returns for a top-level saga. */
  lemma HierarchyQueryReturnsTheTree(w: World, members: seq<SagaInstance>, top: string, s: string)
    requires InHierarchy(w) && top in w.db.sagas && w.db.sagas[top].parentId == "" && s in w.db.sagas
    requires AreSagasWith(members, w.db, (x: SagaInstance) => x.rootId == top)
    ensures w.db.sagas[s] in members <==> Descends(w.db, top, s)
  {
    IndexedIffDescends(w, top, s);
    hide Descends, IsRooted;
    if w.db.sagas[s] in members {
      assert w.db.sagas[s].rootId == top;
    }
  }

  // ----- spawning in time -----

  /**
   * The one thing a child's registration asks for beyond coming from a request on the bus: the
   * compensation of the step that spawned it has not started.
   */
  lemma SpawnedChildrenAreInTime(w: World, saga: SagaInstance, r: Request)
    requires InShape(w) && InHierarchy(w) && r in w.bus && IsSpawnedBy(r, saga)
    ensures SpawnedInTime(w.db, saga) <==> !UndoStarted(w.db.steps[r.stepId].state)
  {
    hide SagaFits;
    assert IsPlaced(w.db, r);
    DbInvAt(w.db, w.bus);
    RequestedStepRan(w, r);
  }

  lemma RequestedStepRan(w: World, r: Request)
    requires r in w.bus && r.stepId in w.db.steps && SagaFits(w.db, w.db.steps[r.stepId].sagaId, w.bus)
    ensures !NeverRan(w.db.steps[r.stepId].state)
  {
    var v: View, m: Position :|
      v.saga.id == w.db.steps[r.stepId].sagaId && IsView(w.db, v) && Inv(v, m) && Published(v, w.bus);
    hide Spells;
    var k :| 0 <= k < |v.saga.stepIds| && v.saga.stepIds[k] == r.stepId;
    assert v.steps[k].id == r.stepId && HistoryFits(v.steps[k]) && RowPublished(v.steps[k], w.bus);
  }

  /**
   * A child submitted by a step that works on a published request, in time, is found from then on
   * under the root of the saga it was spawned by, below that saga, one level deeper.
   */
  lemma SpawnedChildrenAreFound(w: World, r: Request, childId: string, templateId: string, input: Data,
      template: seq<string>, ids: seq<string>, executionIds: seq<string>) returns (w': World)
    requires InShape(w) && InHierarchy(w) && r in w.bus && childId != "" && childId !in w.db.sagas
    requires |ids| == |executionIds| == |template| > 0 && AreFresh(ids, w.db)
    requires forall q :: q in w.bus ==> q.stepId !in ids
    requires r.stepId in w.db.steps ==> !UndoStarted(w.db.steps[r.stepId].state)
    ensures Registers(w, w', NewView(SpawnRequest(r, childId, templateId, input), template, ids, executionIds))
    ensures InHierarchy(w') && r.sagaId in w.db.sagas && childId in w'.db.sagas
    ensures var top := w.db.sagas[r.sagaId].rootId;
      && w'.db.sagas[childId].rootId == top && Descends(w'.db, top, childId)
      && Descends(w'.db, r.sagaId, childId) && w'.db.sagas[childId].depth == w.db.sagas[r.sagaId].depth + 1
    ensures var child := w'.db.sagas[childId];
      child.parentId == r.sagaId && child.parentStepId == r.stepId && child.templateId == templateId
      && child.input == input
  {
    var p := SpawnRequest(r, childId, templateId, input);
    var v := NewView(p, template, ids, executionIds);
    w' := World(AddRows(PutSaga(w.db, v.saga), v.steps), w.bus);
    ItIsSpawned(w, r, p, v, ids, template, executionIds);
    assert v.saga.parentStepId == r.stepId && v.saga.templateId == templateId && v.saga.input == input;
    hide *;
    SpawnedChildrenAreInTime(w, NewSaga(p, ids), r);
    SubmissionIsRegistration(w, p, template, ids, executionIds);
    RegistrationKeepsHierarchy(w, w', v);
    NewOnes(w, w', v);
    AddedSagas(w.db, w'.db, v);
    FoundUnderTheRoot(w', r.sagaId, childId);
  }

  lemma ItIsSpawned(w: World, r: Request, p: SubmissionRequest, v: View, ids: seq<string>, template: seq<string>,
      executionIds: seq<string>)
    requires InHierarchy(w) && r in w.bus && |ids| == |executionIds| == |template|
    requires v == NewView(p, template, ids, executionIds) && p == SpawnRequest(r, p.sagaId, p.templateId, p.input)
    ensures IsSpawned(w, v.saga) && IsSpawnedBy(r, NewSaga(p, ids)) && IsPlaced(w.db, r)
    ensures v.saga.id == p.sagaId && v.saga.parentId == r.sagaId && r.sagaId != ""
  {
    assert IsPlaced(w.db, r) && IsSpawnedBy(r, v.saga);
  }

  lemma AddedSagas(db: Db, db': Db, v: View)
    requires Added(db, db', v)
    ensures v.saga.id in db'.sagas && db'.sagas[v.saga.id] == v.saga
    ensures forall s :: s in db.sagas && s != v.saga.id ==> s in db'.sagas && db'.sagas[s] == db.sagas[s]
  {
  }

  lemma FoundUnderTheRoot(w: World, parentId: string, s: string)
    requires InHierarchy(w) && s in w.db.sagas && w.db.sagas[s].parentId == parentId != ""
    ensures parentId in w.db.sagas
    ensures w.db.sagas[s].rootId == w.db.sagas[parentId].rootId && w.db.sagas[s].depth == w.db.sagas[parentId].depth + 1
    ensures Descends(w.db, w.db.sagas[parentId].rootId, s) && Descends(w.db, parentId, s)
  {
    assert IsRooted(w.db, w.db.sagas[s]);
    var path := PathFromRoot(w, s);
    hide InHierarchy;
    assert IsPathTo(w.db, path, w.db.sagas[s].rootId, s);
    assert IsPathTo(w.db, [parentId, s], parentId, s);
  }
}
