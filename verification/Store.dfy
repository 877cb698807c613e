/**
 * The saga store: two tables, at most one open transaction of the calling goroutine, and
 * operations any of which may fail. A failed operation changes no row and is counted in faults.
 */
module Stores {
  import opened Types

  class Store {
    var committed: Db
    var tx: Option<Db>
    ghost var faults: nat
    /** The step template ids of each saga template, in order, and the step templates that exist. */
    const sagaTemplates: map<string, seq<string>>
    const stepTemplates: set<string>

    constructor (sagaTemplates: map<string, seq<string>>, stepTemplates: set<string>)
      ensures committed == Db(map[], map[]) && tx.None? && faults == 0
      ensures this.sagaTemplates == sagaTemplates && this.stepTemplates == stepTemplates
    {
      this.sagaTemplates := sagaTemplates;
      this.stepTemplates := stepTemplates;
      committed := Db(map[], map[]);
      tx := None;
      faults := 0;
    }

    /** What the calling goroutine reads: its transaction if it has one, else the database. */
    function Current(): Db
      reads this
    {
      if tx.Some? then tx.value else committed
    }

    /** The operation worked and left the goroutine looking at db. */
    twostate predicate Wrote(db: Db)
      reads this
    {
      && faults == old(faults)
      && (if old(tx).Some? then tx == Some(db) && committed == old(committed) else tx.None? && committed == db)
    }

    /** The operation failed and changed no row. */
    twostate predicate Faulted()
      reads this
    {
      committed == old(committed) && tx == old(tx) && faults == old(faults) + 1
    }

    // ----- transactions -----

    method BeginTransaction() returns (ok: bool)
      modifies this
      ensures ok ==> old(tx).None? && tx == Some(committed) && committed == old(committed) && faults == old(faults)
      ensures !ok && old(tx).None? ==> Faulted()
      ensures !ok && old(tx).Some? ==> committed == old(committed) && tx == old(tx) && faults == old(faults)
    {
      if tx.Some? {
        return false;
      }
      if * {
        faults := faults + 1;
        return false;
      }
      tx := Some(committed);
      return true;
    }

    /** Ends the transaction in either case; a failed commit leaves the database as it was. */
    method CommitTransaction() returns (ok: bool)
      modifies this
      ensures tx.None?
      ensures ok ==> old(tx).Some? && committed == old(tx).value && faults == old(faults)
      ensures !ok ==> committed == old(committed)
      ensures !ok && old(tx).Some? ==> faults == old(faults) + 1
      ensures !ok && old(tx).None? ==> faults == old(faults)
    {
      if tx.None? {
        return false;
      }
      var db := tx.value;
      tx := None;
      if * {
        faults := faults + 1;
        return false;
      }
      committed := db;
      return true;
    }

    method RollbackTransaction() returns (ok: bool)
      modifies this
      ensures tx.None? && committed == old(committed) && faults >= old(faults)
      ensures ok ==> old(tx).Some?
      ensures ok || old(tx).None? ==> faults == old(faults)
    {
      if tx.None? {
        return false;
      }
      tx := None;
      if * {
        faults := faults + 1;
        return false;
      }
      return true;
    }

    /** Whether the deadline of the caller's context has passed. It counts as a fault. */
    method ContextExpired() returns (expired: bool)
      modifies `faults
      ensures faults == old(faults) + (if expired then 1 else 0)
    {
      if * {
        faults := faults + 1;
        return true;
      }
      return false;
    }

    method Write(db: Db)
      modifies this
      ensures Wrote(db)
    {
      if tx.Some? {
        tx := Some(db);
      } else {
        committed := db;
      }
    }

    // ----- templates -----

    method GetSagaTemplate(templateId: string) returns (r: Lookup<seq<string>>)
      modifies `faults
      ensures r.Found? ==> templateId in sagaTemplates && r.value == sagaTemplates[templateId] && faults == old(faults)
      ensures r.NotFound? ==> templateId !in sagaTemplates && faults == old(faults)
      ensures r.QueryFailed? ==> faults == old(faults) + 1
    {
      if * {
        faults := faults + 1;
        return QueryFailed;
      }
      return if templateId in sagaTemplates then Found(sagaTemplates[templateId]) else NotFound;
    }

    method GetSagaStepTemplate(templateId: string) returns (ok: bool)
      modifies `faults
      ensures ok ==> templateId in stepTemplates && faults == old(faults)
      ensures !ok ==> (templateId !in stepTemplates && faults == old(faults)) || faults == old(faults) + 1
    {
      if * {
        faults := faults + 1;
        return false;
      }
      return templateId in stepTemplates;
    }

    // ----- step rows -----

    /** Writes the state column of the row; the caller's struct gets the new state too. */
    method UpdateSagaStepState(step: StepInstance, state: StepState) returns (ok: bool)
      modifies this
      ensures if ok then Wrote(WriteState(old(Current()), step.id, state)) else Faulted()
    {
      if * {
        faults := faults + 1;
        return false;
      }
      Write(WriteState(Current(), step.id, state));
      return true;
    }

    method UpdateSagaStepResult(step: StepInstance) returns (ok: bool)
      modifies this
      ensures if ok then Wrote(WriteResult(old(Current()), step)) else Faulted()
    {
      if * {
        faults := faults + 1;
        return false;
      }
      Write(WriteResult(Current(), step));
      return true;
    }

    method UpdateSagaStepCompensationResult(step: StepInstance) returns (ok: bool)
      modifies this
      ensures if ok then Wrote(WriteCompensationResult(old(Current()), step)) else Faulted()
    {
      if * {
        faults := faults + 1;
        return false;
      }
      Write(WriteCompensationResult(Current(), step));
      return true;
    }

    /** Writes the execution id and the history together. */
    method UpdateSagaStepInstanceExecutionHistory(step: StepInstance) returns (ok: bool)
      modifies this
      ensures if ok then Wrote(WriteHistory(old(Current()), step)) else Faulted()
    {
      if * {
        faults := faults + 1;
        return false;
      }
      Write(WriteHistory(Current(), step));
      return true;
    }

    method GetSagaStepInstance(id: string) returns (r: Lookup<StepInstance>)
      modifies `faults
      ensures r.Found? ==> id in Current().steps && r.value == Current().steps[id] && faults == old(faults)
      ensures r.NotFound? ==> id !in Current().steps && faults == old(faults)
      ensures r.QueryFailed? ==> faults == old(faults) + 1
    {
      if * {
        faults := faults + 1;
        return QueryFailed;
      }
      return if id in Current().steps then Found(Current().steps[id]) else NotFound;
    }

    /** The rows of one saga in whatever order the table yields them. */
    method ListSagaStepInstancesBySagaInstanceId(sid: string) returns (ok: bool, rows: seq<StepInstance>)
      modifies `faults
      ensures ok ==> IsListing(rows, Current(), sid) && faults == old(faults)
      ensures !ok ==> faults == old(faults) + 1
    {
      rows := [];
      if * {
        faults := faults + 1;
        return false, rows;
      }
      var steps := Current().steps;
      var todo := steps.Keys;
      ghost var ids := [];
      while todo != {}
        invariant todo <= steps.Keys
        invariant Enumerates(ids, rows, steps) && forall k :: 0 <= k < |ids| ==> ids[k] !in todo
        invariant forall r :: r in rows ==> r.sagaId == sid && exists id :: id in steps && steps[id] == r
        invariant forall id :: id in steps && id !in todo && steps[id].sagaId == sid ==> steps[id] in rows
        decreases todo
      {
        var id :| id in todo;
        todo := todo - {id};
        if steps[id].sagaId == sid {
          rows, ids := rows + [steps[id]], ids + [id];
        }
      }
      ok := true;
    }

    /** Saves the row unless one with its idempotency key exists; a row id that is taken is an error. */
    method SaveSagaStepInstanceIdempotently(step: StepInstance) returns (ok: bool, saved: bool)
      modifies this
      ensures ok ==> saved == !HasStepKey(old(Current()), step)
      ensures ok && saved ==> step.id !in old(Current()).steps && Wrote(PutStep(old(Current()), step))
      ensures ok && !saved ==> committed == old(committed) && tx == old(tx) && faults == old(faults)
      ensures !ok ==> !saved && committed == old(committed) && tx == old(tx) && faults >= old(faults)
      ensures !ok && faults == old(faults) ==> step.id in old(Current()).steps && !HasStepKey(old(Current()), step)
    {
      if * {
        faults := faults + 1;
        return false, false;
      }
      if HasStepKey(Current(), step) {
        return true, false;
      }
      if step.id in Current().steps {
        return false, false;
      }
      Write(PutStep(Current(), step));
      return true, true;
    }

    // ----- saga rows -----

    /** Saves the row unless one with its idempotency key exists; a row id that is taken is an error. */
    method SaveSagaInstanceIdempotently(saga: SagaInstance) returns (ok: bool, saved: bool)
      modifies this
      ensures ok ==> saved == !HasSagaKey(old(Current()), saga)
      ensures ok && saved ==> saga.id !in old(Current()).sagas && Wrote(PutSaga(old(Current()), saga))
      ensures ok && !saved ==> committed == old(committed) && tx == old(tx) && faults == old(faults)
      ensures !ok ==> !saved && committed == old(committed) && tx == old(tx) && faults >= old(faults)
      ensures !ok && faults == old(faults) ==> saga.id in old(Current()).sagas && !HasSagaKey(old(Current()), saga)
    {
      if * {
        faults := faults + 1;
        return false, false;
      }
      if HasSagaKey(Current(), saga) {
        return true, false;
      }
      if saga.id in Current().sagas {
        return false, false;
      }
      Write(PutSaga(Current(), saga));
      return true, true;
    }

    /** Writes the state and the compensation reason of the caller's struct. */
    method UpdateSagaState(saga: SagaInstance, state: SagaState) returns (ok: bool)
      modifies this
      ensures if ok then Wrote(WriteSagaState(old(Current()), saga, state)) else Faulted()
    {
      if * {
        faults := faults + 1;
        return false;
      }
      Write(WriteSagaState(Current(), saga, state));
      return true;
    }

    method GetSagaInstance(id: string) returns (r: Lookup<SagaInstance>)
      modifies `faults
      ensures r.Found? ==> id in Current().sagas && r.value == Current().sagas[id] && faults == old(faults)
      ensures r.NotFound? ==> id !in Current().sagas && faults == old(faults)
      ensures r.QueryFailed? ==> faults == old(faults) + 1
    {
      if * {
        faults := faults + 1;
        return QueryFailed;
      }
      return if id in Current().sagas then Found(Current().sagas[id]) else NotFound;
    }

    /** Committed sagas only: anything else is an error and changes nothing. */
    method TriggerSagaCompensation(id: string) returns (ok: bool)
      modifies this
      ensures ok ==> id in old(Current()).sagas && old(Current()).sagas[id].state.SagaCommitted?
      ensures ok ==> Wrote(RequestCompensation(old(Current()), id))
      ensures ok ==> Current().sagas[id] == old(Current()).sagas[id].(state := SagaCompensationRequested)
      ensures ok ==> Current().steps == old(Current()).steps && Current().sagas.Keys == old(Current()).sagas.Keys
      ensures ok ==> forall s :: s in Current().sagas && s != id ==> Current().sagas[s] == old(Current()).sagas[s]
      ensures !ok ==> committed == old(committed) && tx == old(tx) && faults >= old(faults)
      ensures !ok && id in old(Current()).sagas && old(Current()).sagas[id].state.SagaCommitted? ==>
        faults == old(faults) + 1
    {
      if * {
        faults := faults + 1;
        return false;
      }
      if id !in Current().sagas || !Current().sagas[id].state.SagaCommitted? {
        return false;
      }
      Write(RequestCompensation(Current(), id));
      return true;
    }

    /** An operator's override, for blocked sagas only; a reason has to be given. */
    method ForceMarkSagaCompensated(id: string, reason: string) returns (ok: bool)
      modifies this
      ensures ok ==> reason != "" && id in old(Current()).sagas && old(Current()).sagas[id].state.SagaBlocked?
      ensures ok ==> Wrote(ForceMark(old(Current()), id, reason))
      ensures ok ==>
        Current().sagas[id]
        == old(Current()).sagas[id].(state := SagaCompensated, compensationReason := "[FORCE-MARKED] " + reason)
      ensures ok ==> Current().steps == old(Current()).steps && Current().sagas.Keys == old(Current()).sagas.Keys
      ensures ok ==> forall s :: s in Current().sagas && s != id ==> Current().sagas[s] == old(Current()).sagas[s]
      ensures !ok ==> committed == old(committed) && tx == old(tx) && faults >= old(faults)
      ensures !ok && reason != "" && id in old(Current()).sagas && old(Current()).sagas[id].state.SagaBlocked? ==>
        faults == old(faults) + 1
    {
      if reason == "" {
        return false;
      }
      if * {
        faults := faults + 1;
        return false;
      }
      if id !in Current().sagas || !Current().sagas[id].state.SagaBlocked? {
        return false;
      }
      Write(ForceMark(Current(), id, reason));
      return true;
    }

    /** The sagas registered under one parent saga. */
    method GetChildSagaInstances(parentId: string) returns (ok: bool, children: seq<SagaInstance>)
      modifies `faults
      ensures ok ==>
        faults == old(faults) && AreSagasWith(children, Current(), (s: SagaInstance) => s.parentId == parentId)
      ensures !ok ==> faults == old(faults) + 1
    {
      children := [];
      if * {
        faults := faults + 1;
        return false, children;
      }
      children := Select((s: SagaInstance) => s.parentId == parentId);
      ok := true;
    }

    /** The sagas recorded under one root saga. */
    method GetSagaHierarchy(rootId: string) returns (ok: bool, members: seq<SagaInstance>)
      modifies `faults
      ensures ok ==> faults == old(faults) && AreSagasWith(members, Current(), (s: SagaInstance) => s.rootId == rootId)
      ensures !ok ==> faults == old(faults) + 1
    {
      members := [];
      if * {
        faults := faults + 1;
        return false, members;
      }
      members := Select((s: SagaInstance) => s.rootId == rootId);
      ok := true;
    }

    method Select(p: SagaInstance -> bool) returns (found: seq<SagaInstance>)
      ensures AreSagasWith(found, Current(), p)
    {
      found := [];
      var sagas := Current().sagas;
      var todo := sagas.Keys;
      ghost var ids := [];
      while todo != {}
        invariant todo <= sagas.Keys
        invariant Enumerates(ids, found, sagas) && forall k :: 0 <= k < |ids| ==> ids[k] !in todo
        invariant forall s :: s in found ==> p(s) && exists id :: id in sagas && sagas[id] == s
        invariant forall id :: id in sagas && id !in todo && p(sagas[id]) ==> sagas[id] in found
        decreases todo
      {
        var id :| id in todo;
        todo := todo - {id};
        if p(sagas[id]) {
          found, ids := found + [sagas[id]], ids + [id];
        }
      }
    }
  }

  // ----- idempotency keys, within one cluster and zone -----

  function SagaKey(saga: SagaInstance): string {
    "sidk:" + saga.templateId + "." + saga.id
  }

  function StepKey(sagaTemplateId: string, step: StepInstance): string {
    "ssidk:" + sagaTemplateId + "." + step.templateId + "." + step.id
  }

  function SagaTemplateOf(db: Db, step: StepInstance): string {
    if step.sagaId in db.sagas then db.sagas[step.sagaId].templateId else ""
  }

  predicate HasSagaKey(db: Db, saga: SagaInstance) {
    exists s :: s in db.sagas && SagaKey(db.sagas[s]) == SagaKey(saga)
  }

  predicate HasStepKey(db: Db, step: StepInstance) {
    exists id :: id in db.steps &&
      StepKey(SagaTemplateOf(db, db.steps[id]), db.steps[id]) == StepKey(SagaTemplateOf(db, step), step)
  }

  /** found holds exactly the saga rows of db that satisfy p, each once. */
  ghost predicate AreSagasWith(found: seq<SagaInstance>, db: Db, p: SagaInstance -> bool) {
    && (exists ids :: Enumerates(ids, found, db.sagas))
    && (forall s :: s in found ==> p(s) && exists id :: id in db.sagas && db.sagas[id] == s)
    && (forall id :: id in db.sagas && p(db.sagas[id]) ==> db.sagas[id] in found)
  }

  /** The broker: an append-only log of requests; a failed publish may or may not have got through. */
  class MessageBus {
    var published: seq<Request>
    ghost var faults: nat

    constructor ()
      ensures published == [] && faults == 0
    {
      published := [];
      faults := 0;
    }

    method Publish(r: Request) returns (ok: bool)
      modifies this
      ensures ok ==> published == old(published) + [r] && faults == old(faults)
      ensures !ok ==> faults == old(faults) + 1 && (published == old(published) || published == old(published) + [r])
    {
      if * {
        faults := faults + 1;
        if * {
          published := published + [r];
        }
        return false;
      }
      published := published + [r];
      return true;
    }
  }
}
