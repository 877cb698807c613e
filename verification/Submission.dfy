/**
 * Submission of a saga: its row and the linked rows of its steps are stored in one transaction, once.
 */
module Submissions {
  import opened Types
  import opened StepOrder
  import opened Stores
  import opened Transitions
  import opened Invariants
  import opened Runs
  import opened StoreRuns

  datatype SubmissionRequest = SubmissionRequest(
    sagaId: string,
    templateId: string,
    input: Data,
    parentId: string,
    parentStepId: string,
    rootId: string,
    depth: int)

  // ----- what is stored -----

  function NewSaga(p: SubmissionRequest, ids: seq<string>): SagaInstance {
    SagaInstance(p.sagaId, p.templateId, SagaRunning, p.input, ids, p.parentId, p.parentStepId,
                 if p.rootId == "" then p.sagaId else p.rootId, p.depth, "")
  }

  function NewStep(p: SubmissionRequest, templateId: string, id: string, executionId: string, k: nat): StepInstance {
    StepInstance(id, p.sagaId, templateId, "", "", if k == 0 then ExecutionCandidate else ExecutionPending,
                 executionId, map[], map[], [])
  }

  function Neighbours(step: StepInstance, ids: seq<string>, k: nat): StepInstance
    requires k < |ids|
  {
    step.(prev := if k == 0 then "" else ids[k-1], next := if k == |ids| - 1 then "" else ids[k+1])
  }

  function NewView(p: SubmissionRequest, template: seq<string>, ids: seq<string>, executionIds: seq<string>): View
    requires |ids| == |executionIds| == |template|
  {
    View(NewSaga(p, ids),
         seq(|template|, k requires 0 <= k < |template| =>
           Neighbours(NewStep(p, template[k], ids[k], executionIds[k], k), ids, k)))
  }

  function AddRows(db: Db, rows: seq<StepInstance>): Db {
    if rows == [] then db else PutStep(AddRows(db, rows[..|rows| - 1]), rows[|rows| - 1])
  }

  // ----- ids -----

  /** Ids are drawn from letters and digits. */
  predicate IsDrawn(id: string) {
    id != "" && '.' !in id
  }

  /** The ids drawn for the steps are new to the store. */
  predicate AreFresh(ids: seq<string>, db: Db) {
    && Distinct(ids)
    && (forall k :: 0 <= k < |ids| ==> IsDrawn(ids[k]) && ids[k] !in db.steps)
    && (forall id :: id in db.steps ==> IsDrawn(id) && db.steps[id].id == id)
  }

  lemma LastDot(s: string, a: string, x: string)
    requires '.' !in x && s == a + "." + x
    ensures s[|a|] == '.' && forall i :: |a| < i < |s| ==> s[i] != '.'
  {
    assert forall i :: |a| < i < |s| ==> s[i] == x[i - |a| - 1];
  }

  /** The last dot of a key starts a drawn id. */
  lemma KeysEndInIds(a: string, x: string, b: string, y: string)
    requires '.' !in x && '.' !in y && a + "." + x == b + "." + y
    ensures x == y && a == b
  {
    var s := a + "." + x;
    LastDot(s, a, x);
    LastDot(s, b, y);
    assert s[|a| + 1..] == x && s[|b| + 1..] == y;
    assert s[..|a|] == a && s[..|b|] == b;
  }

  /** Sagas whose ids have no dot share a key only when they share id and template. */
  lemma SagaKeysIdentify(a: SagaInstance, b: SagaInstance)
    requires '.' !in a.id && '.' !in b.id && SagaKey(a) == SagaKey(b)
    ensures a.id == b.id && a.templateId == b.templateId
  {
    KeysEndInIds("sidk:" + a.templateId, a.id, "sidk:" + b.templateId, b.id);
    PrefixesCancel("sidk:", a.templateId, b.templateId);
  }

  /** Step rows whose ids and template names have no dot share a key only when id and both templates agree. */
  lemma StepKeysIdentify(db: Db, a: StepInstance, b: StepInstance)
    requires a.sagaId in db.sagas && b.sagaId in db.sagas
    requires '.' !in a.id && '.' !in b.id && '.' !in a.templateId && '.' !in b.templateId
    ensures StepKey(SagaTemplateOf(db, a), a) == StepKey(SagaTemplateOf(db, b), b) <==>
      a.id == b.id && a.templateId == b.templateId && db.sagas[a.sagaId].templateId == db.sagas[b.sagaId].templateId
  {
    var t, u := SagaTemplateOf(db, a), SagaTemplateOf(db, b);
    if StepKey(t, a) == StepKey(u, b) {
      KeysEndInIds("ssidk:" + t + "." + a.templateId, a.id, "ssidk:" + u + "." + b.templateId, b.id);
      KeysEndInIds("ssidk:" + t, a.templateId, "ssidk:" + u, b.templateId);
      PrefixesCancel("ssidk:", t, u);
    }
  }

  lemma PrefixesCancel(prefix: string, a: string, b: string)
    requires prefix + a == prefix + b
    ensures a == b
  {
    assert (prefix + a)[|prefix|..] == a && (prefix + b)[|prefix|..] == b;
  }

  /** The name and the id are different ones with the same key. */
  predicate SharesKey(saga: SagaInstance, templateId: string, id: string) {
    && (templateId != saga.templateId || id != saga.id)
    && SagaKey(saga.(templateId := templateId, id := id)) == SagaKey(saga)
  }

  /** A saga's key is also the key of another template or id if and only if one of its two parts has a dot. */
  lemma KeysAreSharedThroughDots(saga: SagaInstance)
    ensures (exists templateId, id :: SharesKey(saga, templateId, id)) <==> '.' in saga.templateId || '.' in saga.id
  {
    var t, id := saga.templateId, saga.id;
    if '.' in t {
      var k :| 0 <= k < |t| && t[k] == '.';
      assert t == t[..k] + "." + t[k+1..];
      assert SagaKey(saga.(templateId := t[..k], id := t[k+1..] + "." + id)) == SagaKey(saga);
      assert SharesKey(saga, t[..k], t[k+1..] + "." + id);
    } else if '.' in id {
      var k :| 0 <= k < |id| && id[k] == '.';
      assert id == id[..k] + "." + id[k+1..];
      assert SagaKey(saga.(templateId := t + "." + id[..k], id := id[k+1..])) == SagaKey(saga);
      assert SharesKey(saga, t + "." + id[..k], id[k+1..]);
    } else if exists t', id' :: SharesKey(saga, t', id') {
      var t', id' :| SharesKey(saga, t', id');
      KeyParts(saga, t', id');
      OnlyOneDot(t, id, t', id');
      assert false;
    }
  }

  lemma KeyParts(saga: SagaInstance, t: string, id: string)
    requires SharesKey(saga, t, id)
    ensures t + "." + id == saga.templateId + "." + saga.id
  {
    var a, b := t + "." + id, saga.templateId + "." + saga.id;
    assert "sidk:" + t + "." + id == "sidk:" + a;
    assert "sidk:" + saga.templateId + "." + saga.id == "sidk:" + b;
    PrefixesCancel("sidk:", a, b);
  }

  lemma OnlyOneDot(t: string, id: string, t': string, id': string)
    requires '.' !in t && '.' !in id && t + "." + id == t' + "." + id'
    ensures t == t' && id == id'
  {
    var s := t + "." + id;
    LastDot(s, t, id);
    assert s[|t'|] == '.';
    assert forall i :: 0 <= i < |t| ==> s[i] == t[i];
    assert s[..|t|] == t && s[..|t'|] == t' && s[|t| + 1..] == id && s[|t'| + 1..] == id';
  }

  lemma FreshStepsHaveNewKeys(db: Db, step: StepInstance)
    requires IsDrawn(step.id) && step.id !in db.steps
    requires forall id :: id in db.steps ==> IsDrawn(id) && db.steps[id].id == id
    ensures !HasStepKey(db, step)
  {
    forall id | id in db.steps
      ensures StepKey(SagaTemplateOf(db, db.steps[id]), db.steps[id]) != StepKey(SagaTemplateOf(db, step), step)
    {
      var other := db.steps[id];
      var t, u := SagaTemplateOf(db, other), SagaTemplateOf(db, step);
      if StepKey(t, other) == StepKey(u, step) {
        KeysEndInIds("ssidk:" + t + "." + other.templateId, other.id, "ssidk:" + u + "." + step.templateId, step.id);
      }
    }
  }

  // ----- what the stored rows are -----

  lemma NewViewIsLinked(p: SubmissionRequest, template: seq<string>, ids: seq<string>, executionIds: seq<string>)
    requires |ids| == |executionIds| == |template| > 0
    requires Distinct(ids) && p.parentId != p.sagaId
    requires forall k :: 0 <= k < |ids| ==> ids[k] != ""
    ensures var v := NewView(p, template, ids, executionIds);
      && Linked(v) && IsNew(v) && |v.steps| == |template|
      && forall k :: 0 <= k < |template| ==> v.steps[k].templateId == template[k]
  {
    var v := NewView(p, template, ids, executionIds);
    forall k {:trigger v.steps[k]} | 0 <= k < |v.steps| ensures LinkedRow(v.steps[k], v.saga.id, v.saga.stepIds, k) {
    }
  }

  lemma {:induction false} FirstRowsAreAdded(db: Db, v: View, k: nat)
    requires Linked(v) && k <= |v.steps|
    ensures AddedUpTo(db, AddRows(db, v.steps[..k]), v, k)
  {
    if k > 0 {
      FirstRowsAreAdded(db, v, k - 1);
      assert v.steps[..k][..k-1] == v.steps[..k-1];
      OneMoreRow(db, AddRows(db, v.steps[..k-1]), v, k);
    }
  }

  ghost predicate AddedUpTo(db: Db, db': Db, v: View, k: nat)
    requires k <= |v.steps| && |v.saga.stepIds| == |v.steps|
  {
    && db'.sagas == db.sagas
    && (forall id :: id in db.steps ==> id in db'.steps && (id !in v.saga.stepIds ==> db'.steps[id] == db.steps[id]))
    && (forall id :: id in db'.steps && id !in db.steps ==> id in v.saga.stepIds)
    && (forall j :: 0 <= j < k ==> v.steps[j].id in db'.steps && db'.steps[v.steps[j].id] == v.steps[j])
  }

  lemma OneMoreRow(db: Db, db1: Db, v: View, k: nat)
    requires Linked(v) && |v.saga.stepIds| == |v.steps| && 0 < k <= |v.steps| && AddedUpTo(db, db1, v, k - 1)
    ensures AddedUpTo(db, PutStep(db1, v.steps[k-1]), v, k)
  {
    hide Linked;
    LinkedNeighbours(v, k - 1);
    forall j | 0 <= j < k - 1 ensures v.steps[j].id != v.steps[k-1].id {
      LinkedIdsDistinctAt(v, j, k - 1);
    }
    assert v.steps[k-1].id in v.saga.stepIds;
  }

  lemma LinkedIdsDistinctAt(v: View, j: nat, k: nat)
    requires Linked(v) && j < k < |v.steps|
    ensures v.steps[j].id != v.steps[k].id
  {
    assert v.saga.stepIds[j] != v.saga.stepIds[k];
  }

  lemma StoredRowsAreAdded(db: Db, v: View)
    requires Linked(v) && forall id :: id in db.steps ==> id !in v.saga.stepIds
    ensures Added(db, AddRows(PutSaga(db, v.saga), v.steps), v)
  {
    FirstRowsAreAdded(PutSaga(db, v.saga), v, |v.steps|);
    assert v.steps[..|v.steps|] == v.steps;
    var db' := AddRows(PutSaga(db, v.saga), v.steps);
    forall id | id in v.saga.stepIds ensures id in db'.steps {
      var k :| 0 <= k < |v.saga.stepIds| && v.saga.stepIds[k] == id;
      assert v.steps[k].id == id;
    }
  }

  // ----- the submission handler -----

  /** The step structs of a submission before they are linked; none when a step template is missing. */
  method BuildSteps(store: Store, p: SubmissionRequest, template: seq<string>, ids: seq<string>,
      executionIds: seq<string>)
    returns (ok: bool, steps: seq<StepInstance>)
    requires |ids| == |executionIds| == |template|
    modifies store`faults
    ensures store.faults >= old(store.faults)
    ensures ok ==> |steps| == |template| && store.faults == old(store.faults)
    ensures ok ==> forall k :: 0 <= k < |template| ==> steps[k] == NewStep(p, template[k], ids[k], executionIds[k], k)
    ensures !ok && store.faults == old(store.faults) ==> exists t :: t in template && t !in store.stepTemplates
    ensures ok ==> forall t :: t in template ==> t in store.stepTemplates
  {
    steps := [];
    for k := 0 to |template|
      invariant forall j :: 0 <= j < k ==> template[j] in store.stepTemplates
      invariant |steps| == k && store.faults == old(store.faults)
      invariant forall j :: 0 <= j < k ==> steps[j] == NewStep(p, template[j], ids[j], executionIds[j], j)
    {
      ok := store.GetSagaStepTemplate(template[k]);
      if !ok {
        assert template[k] in template;
        return;
      }
      steps := steps + [NewStep(p, template[k], ids[k], executionIds[k], k)];
    }
    ok := true;
  }

  /** Fills in the neighbours of every struct. */
  method LinkSteps(steps: seq<StepInstance>, ghost ids: seq<string>) returns (linked: seq<StepInstance>)
    requires |ids| == |steps| && forall k :: 0 <= k < |ids| ==> steps[k].id == ids[k] && steps[k].next == ""
    ensures |linked| == |steps| && forall k :: 0 <= k < |steps| ==> linked[k] == Neighbours(steps[k], ids, k)
  {
    linked := steps;
    for k := 0 to |steps|
      invariant |linked| == |steps|
      invariant forall j :: 0 <= j < k ==> linked[j] == Neighbours(steps[j], ids, j)
      invariant forall j :: k <= j < |steps| ==> linked[j] == steps[j]
      invariant forall j :: 0 <= j < |steps| ==> linked[j].id == ids[j]
    {
      linked := linked[k := linked[k].(prev := "")];
      if k < |steps| - 1 {
        linked := linked[k := linked[k].(next := linked[k+1].id)];
      }
      if k > 0 {
        linked := linked[k := linked[k].(prev := linked[k-1].id)];
      }
    }
  }

  /** The linked step structs of a submission. */
  method PrepareSteps(store: Store, p: SubmissionRequest, template: seq<string>, ids: seq<string>,
      executionIds: seq<string>)
    returns (ok: bool, steps: seq<StepInstance>)
    requires |ids| == |executionIds| == |template|
    modifies store`faults
    ensures store.faults >= old(store.faults)
    ensures ok ==> steps == NewView(p, template, ids, executionIds).steps && store.faults == old(store.faults)
    ensures ok ==> |steps| == |ids| && forall k :: 0 <= k < |ids| ==> steps[k].id == ids[k]
    ensures !ok && store.faults == old(store.faults) ==> exists t :: t in template && t !in store.stepTemplates
    ensures ok ==> forall t :: t in template ==> t in store.stepTemplates
  {
    ok, steps := BuildSteps(store, p, template, ids, executionIds);
    if ok {
      steps := LinkSteps(steps, ids);
    }
  }

  /** Saves the step rows, inside the handler's transaction; fresh rows are never skipped. */
  method SaveSteps(store: Store, steps: seq<StepInstance>, ghost ids: seq<string>) returns (ok: bool)
    requires store.tx.Some? && |ids| == |steps| && AreFresh(ids, store.Current())
    requires forall k :: 0 <= k < |ids| ==> steps[k].id == ids[k]
    modifies store
    ensures store.tx.Some? && store.committed == old(store.committed) && store.faults >= old(store.faults)
    ensures ok ==> store.Current() == AddRows(old(store.Current()), steps) && store.faults == old(store.faults)
    ensures !ok ==> store.faults > old(store.faults)
  {
    ghost var db := store.Current();
    assert steps[..0] == [];
    for k := 0 to |steps|
      invariant store.tx == Some(AddRows(db, steps[..k]))
      invariant store.committed == old(store.committed) && store.faults == old(store.faults)
      invariant forall id :: id in store.Current().steps ==> IsDrawn(id) && store.Current().steps[id].id == id
      invariant forall j :: k <= j < |ids| ==> ids[j] !in store.Current().steps
    {
      FreshStepsHaveNewKeys(store.Current(), steps[k]);
      var saved;
      ok, saved := store.SaveSagaStepInstanceIdempotently(steps[k]);
      if !ok {
        return;
      }
      assert steps[..k+1][..k] == steps[..k];
    }
    assert steps[..|steps|] == steps;
    ok := true;
  }

  /** Saves the saga row and, when it is new, the step rows. */
  method SaveRows(store: Store, saga: SagaInstance, steps: seq<StepInstance>, ghost ids: seq<string>)
    returns (ok: bool, saved: bool)
    requires store.tx.Some? && |ids| == |steps| && AreFresh(ids, store.Current())
    requires forall k :: 0 <= k < |ids| ==> steps[k].id == ids[k]
    modifies store
    ensures store.tx.Some? && store.committed == old(store.committed) && store.faults >= old(store.faults)
    ensures ok ==> saved == !HasSagaKey(old(store.Current()), saga) && store.faults == old(store.faults)
    ensures ok && saved ==> saga.id !in old(store.Current()).sagas
    ensures ok && saved ==> store.Current() == AddRows(PutSaga(old(store.Current()), saga), steps)
    ensures ok && !saved ==> store.Current() == old(store.Current())
    ensures !ok && store.faults == old(store.faults) ==>
      saga.id in old(store.Current()).sagas && !HasSagaKey(old(store.Current()), saga)
  {
    hide HasSagaKey, HasStepKey;
    ok, saved := store.SaveSagaInstanceIdempotently(saga);
    if ok && saved {
      ok := SaveSteps(store, steps, ids);
    }
  }

  /** The saga row of a submission as it is stored, column by column. */
  predicate IsSubmittedSaga(row: SagaInstance, p: SubmissionRequest, ids: seq<string>) {
    && row.id == p.sagaId && row.templateId == p.templateId && row.input == p.input
    && row.state.SagaRunning? && row.compensationReason == "" && row.stepIds == ids
    && row.parentId == p.parentId && row.parentStepId == p.parentStepId && row.depth == p.depth
    && (p.rootId != "" ==> row.rootId == p.rootId) && (p.rootId == "" ==> row.rootId == p.sagaId)
  }

  /** The row of step k of a submission as it is stored, column by column. */
  predicate IsSubmittedStep(row: StepInstance, p: SubmissionRequest, template: seq<string>, ids: seq<string>,
      executionIds: seq<string>, k: nat)
    requires |ids| == |executionIds| == |template| && k < |ids|
  {
    && row.id == ids[k] && row.sagaId == p.sagaId && row.templateId == template[k]
    && row.executionId == executionIds[k] && row.history == [] && |row.result| == |row.compensationResult| == 0
    && row.prev == (if k == 0 then "" else ids[k-1]) && row.next == (if k + 1 == |ids| then "" else ids[k+1])
    && (if k == 0 then row.state.ExecutionCandidate? else row.state.ExecutionPending?)
  }

  /** The tables hold the rows of the submission. */
  predicate StoredAsSubmitted(db: Db, p: SubmissionRequest, template: seq<string>, ids: seq<string>,
      executionIds: seq<string>)
    requires |ids| == |executionIds| == |template|
  {
    && p.sagaId in db.sagas && IsSubmittedSaga(db.sagas[p.sagaId], p, ids)
    && forall k :: 0 <= k < |ids| ==>
         ids[k] in db.steps && IsSubmittedStep(db.steps[ids[k]], p, template, ids, executionIds, k)
  }

  lemma NewRowsAreSubmitted(p: SubmissionRequest, template: seq<string>, ids: seq<string>, executionIds: seq<string>)
    requires |ids| == |executionIds| == |template|
    ensures var v := NewView(p, template, ids, executionIds);
      && IsSubmittedSaga(v.saga, p, ids) && |v.steps| == |ids|
      && forall k :: 0 <= k < |ids| ==> IsSubmittedStep(v.steps[k], p, template, ids, executionIds, k)
  {
  }

  /** Rows with different ids are all there after they were written. */
  lemma {:induction false} AddedRowsAreThere(db: Db, rows: seq<StepInstance>, k: nat)
    requires k < |rows|
    requires forall i, j :: 0 <= i < j < |rows| ==> rows[i].id != rows[j].id
    ensures rows[k].id in AddRows(db, rows).steps && AddRows(db, rows).steps[rows[k].id] == rows[k]
    decreases |rows|
  {
    if k < |rows| - 1 {
      AddedRowsAreThere(db, rows[..|rows| - 1], k);
    }
  }

  lemma NewRowsAreStored(db: Db, p: SubmissionRequest, template: seq<string>, ids: seq<string>,
      executionIds: seq<string>)
    requires |ids| == |executionIds| == |template| && Distinct(ids)
    ensures var v := NewView(p, template, ids, executionIds);
      StoredAsSubmitted(AddRows(PutSaga(db, v.saga), v.steps), p, template, ids, executionIds)
  {
    var v := NewView(p, template, ids, executionIds);
    NewRowsAreSubmitted(p, template, ids, executionIds);
    hide NewView, AddRows, NewSaga;
    var db' := AddRows(PutSaga(db, v.saga), v.steps);
    AddRowsKeepsSagas(PutSaga(db, v.saga), v.steps);
    forall i, j | 0 <= i < j < |v.steps| ensures v.steps[i].id != v.steps[j].id {
      assert v.steps[i].id == ids[i] && v.steps[j].id == ids[j];
    }
    forall k | 0 <= k < |ids|
      ensures ids[k] in db'.steps && IsSubmittedStep(db'.steps[ids[k]], p, template, ids, executionIds, k)
    {
      AddedRowsAreThere(PutSaga(db, v.saga), v.steps, k);
    }
  }

  /** The reasons for which a submission is refused although nothing failed. */
  ghost predicate IsRefused(store: Store, db: Db, p: SubmissionRequest)
  {
    || p.templateId !in store.sagaTemplates
    || (exists t :: t in store.sagaTemplates[p.templateId] && t !in store.stepTemplates)
    || (p.sagaId in db.sagas && !HasSagaKey(db, NewSaga(p, [])))
  }

  /**
   * All rows of a new saga are stored in one transaction, as they were submitted, or nothing is. A submission that was
   * stored before is acknowledged and changes nothing. The step ids and execution ids are the ones
   * drawn at random for this submission.
   */
  method SubmitSaga(store: Store, p: SubmissionRequest, ids: seq<string>, executionIds: seq<string>)
    returns (ok: bool, saved: bool)
    requires store.tx.None? && AreFresh(ids, store.committed)
    requires p.templateId in store.sagaTemplates ==> |ids| == |executionIds| == |store.sagaTemplates[p.templateId]|
    modifies store
    ensures store.tx.None? && store.faults >= old(store.faults)
    ensures ok && saved ==> p.templateId in store.sagaTemplates && p.sagaId !in old(store.committed.sagas)
    ensures ok && saved ==>
      var v := NewView(p, store.sagaTemplates[p.templateId], ids, executionIds);
      store.committed == AddRows(PutSaga(old(store.committed), v.saga), v.steps)
    ensures ok && saved ==>
      StoredAsSubmitted(store.committed, p, store.sagaTemplates[p.templateId], ids, executionIds)
    ensures !(ok && saved) ==> store.committed == old(store.committed)
    ensures ok ==> saved == !HasSagaKey(old(store.committed), NewSaga(p, ids))
    ensures store.faults == old(store.faults) ==> (ok <==> !IsRefused(store, old(store.committed), p))
  {
    assert Distinct(ids);
    hide HasSagaKey, HasStepKey, AddRows, Neighbours, AreFresh, StoredAsSubmitted;
    SameKey(store.committed, p, ids, []);
    ok, saved := false, false;
    var began := store.BeginTransaction();
    if !began {
      return;
    }
    var template := store.GetSagaTemplate(p.templateId);
    if !template.Found? {
      var rolledBack := store.RollbackTransaction();
      return;
    }
    var built, steps := PrepareSteps(store, p, template.value, ids, executionIds);
    if !built {
      var rolledBack := store.RollbackTransaction();
      return;
    }
    var stored;
    stored, saved := SaveRows(store, NewSaga(p, ids), steps, ids);
    NewRowsAreStored(old(store.committed), p, template.value, ids, executionIds);
    if !stored {
      var rolledBack := store.RollbackTransaction();
      return;
    }
    ok := store.CommitTransaction();
  }

  lemma SameKey(db: Db, p: SubmissionRequest, ids: seq<string>, ids': seq<string>)
    ensures HasSagaKey(db, NewSaga(p, ids)) == HasSagaKey(db, NewSaga(p, ids'))
  {
    assert SagaKey(NewSaga(p, ids)) == SagaKey(NewSaga(p, ids'));
  }

  // ----- submissions and runs of the store -----

  lemma SubmissionIsRegistration(w: World, p: SubmissionRequest, template: seq<string>, ids: seq<string>,
      executionIds: seq<string>)
    requires |ids| == |executionIds| == |template| > 0 && AreFresh(ids, w.db)
    requires p.sagaId != "" && p.sagaId !in w.db.sagas && SpawnedInTime(w.db, NewSaga(p, ids))
    requires forall r :: r in w.bus ==> r.stepId !in ids
    ensures var v := NewView(p, template, ids, executionIds);
      Registers(w, World(AddRows(PutSaga(w.db, v.saga), v.steps), w.bus), v)
  {
    var v := NewView(p, template, ids, executionIds);
    NewViewIsLinked(p, template, ids, executionIds);
    hide AddRows, Neighbours, NewStep;
    StoredRowsAreAdded(w.db, v);
  }

  /** What a stored submission needs for the store to stay in shape: a step, and a parent step at work or done. */
  predicate FitsIn(db: Db, p: SubmissionRequest, ids: seq<string>) {
    ids != [] && p.parentId != p.sagaId && SpawnedInTime(db, NewSaga(p, ids))
  }

  /**
   * A submission, on a store in shape. It is stored whatever its template and parent; the store stays
   * in shape exactly when the template has a step and a child comes while the step that spawned it is
   * known, has run and is not being compensated.
   */
  method OnSubmission(store: Store, bus: MessageBus, p: SubmissionRequest, ids: seq<string>, executionIds: seq<string>)
    returns (ok: bool, saved: bool)
    requires store.tx.None? && DbInv(store.committed, bus.published) && AreFresh(ids, store.committed)
    requires p.templateId in store.sagaTemplates ==>
      |ids| == |executionIds| == |store.sagaTemplates[p.templateId]|
    requires (forall r :: r in bus.published ==> r.stepId !in ids) && p.sagaId != ""
    modifies store
    ensures store.tx.None? && store.faults >= old(store.faults)
    ensures !(ok && saved) ==> store.committed == old(store.committed)
    ensures ok ==> saved == !HasSagaKey(old(store.committed), NewSaga(p, ids))
    ensures ok && saved ==> p.templateId in store.sagaTemplates
    ensures ok && saved ==>
      StoredAsSubmitted(store.committed, p, store.sagaTemplates[p.templateId], ids, executionIds)
    ensures ok && saved ==> (DbInv(store.committed, bus.published) <==> FitsIn(old(store.committed), p, ids))
    ensures ok && saved && FitsIn(old(store.committed), p, ids) ==>
      Registers(old(World(store.committed, bus.published)), World(store.committed, bus.published),
                NewView(p, store.sagaTemplates[p.templateId], ids, executionIds))
    ensures !(ok && saved) || FitsIn(old(store.committed), p, ids) ==>
      RunsTo(old(World(store.committed, bus.published)), World(store.committed, bus.published), true)
    ensures store.faults == old(store.faults) ==> (ok <==> !IsRefused(store, old(store.committed), p))
  {
    hide DbInv, RunsTo, Registers, HasSagaKey, FitsIn, AddRows, NewView, AreFresh, StoredAsSubmitted;
    ghost var w := World(store.committed, bus.published);
    ok, saved := SubmitSaga(store, p, ids, executionIds);
    RunsToItself(w, true);
    if ok && saved {
      StoredSubmission(w, p, store.sagaTemplates[p.templateId], ids, executionIds);
    }
  }

  lemma StoredSubmission(w: World, p: SubmissionRequest, template: seq<string>, ids: seq<string>,
      executionIds: seq<string>)
    requires DbInv(w.db, w.bus) && |ids| == |executionIds| == |template| && AreFresh(ids, w.db)
    requires p.sagaId != "" && p.sagaId !in w.db.sagas && forall r :: r in w.bus ==> r.stepId !in ids
    ensures
      var v := NewView(p, template, ids, executionIds);
      var w' := World(AddRows(PutSaga(w.db, v.saga), v.steps), w.bus);
      && (DbInv(w'.db, w'.bus) <==> FitsIn(w.db, p, ids))
      && (FitsIn(w.db, p, ids) ==> Registers(w, w', v) && RunsTo(w, w', true))
  {
    var v := NewView(p, template, ids, executionIds);
    var w' := World(AddRows(PutSaga(w.db, v.saga), v.steps), w.bus);
    hide DbInv, RunsTo, Registers, AddRows, SpawnedInTime, AreFresh;
    if FitsIn(w.db, p, ids) {
      SubmissionIsRegistration(w, p, template, ids, executionIds);
      Registered(w, w', v);
    }
    if DbInv(w'.db, w'.bus) {
      StoredMeansFits(w, p, template, ids, executionIds);
    }
  }

  lemma StoredMeansFits(w: World, p: SubmissionRequest, template: seq<string>, ids: seq<string>,
      executionIds: seq<string>)
    requires |ids| == |executionIds| == |template| && AreFresh(ids, w.db) && p.sagaId !in w.db.sagas
    requires var v := NewView(p, template, ids, executionIds);
      DbInv(AddRows(PutSaga(w.db, v.saga), v.steps), w.bus)
    ensures FitsIn(w.db, p, ids)
  {
    var v := NewView(p, template, ids, executionIds);
    var db' := AddRows(PutSaga(w.db, v.saga), v.steps);
    AddRowsKeepsSagas(PutSaga(w.db, v.saga), v.steps);
    DbInvAt(db', w.bus);
    hide AddRows, DbInv;
    SagaOfFits(db', p.sagaId, w.bus);
    NewViewIsLinked(p, template, ids, executionIds);
    hide Neighbours, NewStep;
    StoredRowsAreAdded(w.db, v);
    if p.parentId != "" {
      AddedRowsBelong(w.db, db', v);
      hide SagaFits;
      ChildrenMustComeInTime(w, World(db', w.bus), v);
    }
  }

  lemma SagaOfFits(db: Db, s: string, bus: seq<Request>)
    requires s in db.sagas && SagaFits(db, s, bus)
    ensures db.sagas[s].stepIds != [] && db.sagas[s].parentId != db.sagas[s].id
  {
  }

  lemma {:induction false} AddRowsKeepsSagas(db: Db, rows: seq<StepInstance>)
    ensures AddRows(db, rows).sagas == db.sagas
  {
    if rows != [] {
      AddRowsKeepsSagas(db, rows[..|rows| - 1]);
    }
  }

  lemma Registered(w: World, w': World, v: View)
    requires DbInv(w.db, w.bus) && Registers(w, w', v)
    ensures DbInv(w'.db, w'.bus) && RunsTo(w, w', true)
  {
    hide DbInv, Registers;
    ShapeIs(w);
    ShapeIs(w');
    RegistrationKeepsShape(w, w', v);
    RegistrationRuns(w, w', v);
  }

  /** Once stored, a saga's key stays taken: a redelivered submission is recognised after any run. */
  lemma RedeliveryIsRecognised(w: World, w': World, saga: SagaInstance)
    requires HasSagaKey(w.db, saga) && Reaches(w, w')
    ensures HasSagaKey(w'.db, saga)
  {
    RunsKeepSagas(w, w');
    hide Reaches;
    var s :| s in w.db.sagas && SagaKey(w.db.sagas[s]) == SagaKey(saga);
    assert SameOrigin(w.db.sagas[s], w'.db.sagas[s]);
  }

  predicate InTemplateOrder(ordered: seq<StepInstance>, template: seq<string>, ids: seq<string>)
    requires |ids| == |template|
  {
    && |ordered| == |template|
    && forall k :: 0 <= k < |template| ==> ordered[k].id == ids[k] && ordered[k].templateId == template[k]
  }

  /**
   * Whatever has happened to a submitted saga and in whatever order its rows are listed, they have
   * exactly one order: the step ids of the saga row, in the order of its template. The saga row still
   * carries the input, the template and the parent it was submitted with.
   */
  lemma OrderRoundTrip(w0: World, w1: World, w2: World, p: SubmissionRequest, template: seq<string>, ids: seq<string>,
      executionIds: seq<string>, rows: seq<StepInstance>)
    requires |ids| == |executionIds| == |template|
    requires InShape(w0) && Registers(w0, w1, NewView(p, template, ids, executionIds)) && Reaches(w1, w2)
    requires IsListing(rows, w2.db, p.sagaId)
    ensures HasHead(rows) && Orderable(rows)
    ensures forall ordered :: IsOrder(ordered, rows) ==> InTemplateOrder(ordered, template, ids)
    ensures p.sagaId in w2.db.sagas && w2.db.sagas[p.sagaId].stepIds == ids
    ensures var row := w2.db.sagas[p.sagaId];
      && row.input == p.input && row.templateId == p.templateId && row.depth == p.depth
      && row.parentId == p.parentId && row.parentStepId == p.parentStepId
      && row.rootId == (if p.rootId == "" then p.sagaId else p.rootId)
  {
    var v := NewView(p, template, ids, executionIds);
    RegistrationKeepsShape(w0, w1, v);
    hide InShape, Registers, Reaches;
    var acts := RunsProject(w1, w2, v, false);
    RunKeepsIdentity(v, acts);
    var x := ApplyAll(v, acts);
    ListingMatchesView(rows, w2.db, x);
    LinkedRowsHaveTheirOrder(x, rows);
    forall ordered | IsOrder(ordered, rows) ensures ordered == x.steps {
      OrderIsUnique(ordered, x.steps, rows);
    }
    RowsCarryTheTemplate(v, x, p, template, ids, executionIds);
  }

  lemma RowsCarryTheTemplate(v: View, x: View, p: SubmissionRequest, template: seq<string>, ids: seq<string>,
      executionIds: seq<string>)
    requires |ids| == |executionIds| == |template| && v == NewView(p, template, ids, executionIds)
    requires |x.steps| == |v.steps| && forall j :: 0 <= j < |v.steps| ==> SameIdentity(x.steps[j], v.steps[j])
    ensures InTemplateOrder(x.steps, template, ids)
  {
    forall k | 0 <= k < |template| ensures x.steps[k].id == ids[k] && x.steps[k].templateId == template[k] {
      assert SameIdentity(x.steps[k], v.steps[k]);
    }
  }
}
