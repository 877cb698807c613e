/**
 * What the sagas of a service can still be brought to by its drivers: exactly when a saga can be
 * compensated at all, exactly when a running one comes to its end, and what holds its parent up.
 */
module StoreEnds {
  import opened Types
  import opened Transitions
  import opened Inputs
  import opened Machine
  import opened Invariants
  import opened Runs
  import opened Steering
  import opened StoreRuns
  import opened Drivers
  import opened Services
  import opened Submissions
  import opened Hierarchy

  // ----- one action in the store -----

  function Bus(w: World, v: View, a: Action): seq<Request>
    requires Enabled(v, a)
  {
    if a.Send? then w.bus + [AwaitedRequest(v, a.i)] else w.bus
  }

  /** What a step that is waiting to send its request sends. */
  function AwaitedRequest(v: View, i: nat): Request
    requires i < |v.steps|
  {
    if v.steps[i].state.CompensationRunning?
    then RequestFor(v.saga, v.steps[i], true, CompensationInput(v, i))
    else RequestFor(v.saga, v.steps[i], false, ForwardInput(v, i))
  }

  /** The store after an action on one saga. */
  function After(w: World, v: View, a: Action): World
    requires Enabled(v, a)
  {
    var e := Apply(v, a);
    World(AddRows(PutSaga(w.db, e.saga), e.steps), Bus(w, v, a))
  }

  lemma RowsLand(db: Db, v: View, e: View)
    requires IsView(db, v) && Linked(e) && e.saga.id == v.saga.id && e.saga.stepIds == v.saga.stepIds
    ensures Landed(db, AddRows(PutSaga(db, e.saga), e.steps), e)
  {
    var db' := AddRows(PutSaga(db, e.saga), e.steps);
    FirstRowsAreAdded(PutSaga(db, e.saga), e, |e.steps|);
    assert e.steps[..|e.steps|] == e.steps;
    forall id | id in v.saga.stepIds
      ensures IsStepOf(db, id, v.saga.id) && IsStepOf(db', id, v.saga.id)
    {
      var k :| 0 <= k < |v.saga.stepIds| && v.saga.stepIds[k] == id;
      hide AddRows, Distinct;
      LinkedNames(v, k);
      LinkedNames(e, k);
    }
    hide AddRows, Linked;
    RowsAreAView(db, db', v, e);
  }

  predicate IsStepOf(db: Db, id: string, sid: string) {
    id in db.steps && db.steps[id].sagaId == sid
  }

  lemma RowsAreAView(db: Db, db': Db, v: View, e: View)
    requires IsView(db, v) && Linked(e) && e.saga.id == v.saga.id && e.saga.stepIds == v.saga.stepIds
    requires |e.saga.stepIds| == |e.steps| && AddedUpTo(PutSaga(db, e.saga), db', e, |e.steps|)
    requires forall id :: id in v.saga.stepIds ==> IsStepOf(db, id, v.saga.id) && IsStepOf(db', id, v.saga.id)
    ensures Landed(db, db', e)
  {
    hide Linked;
    forall id | id in db'.steps ensures id in db.steps && db'.steps[id].sagaId == db.steps[id].sagaId {
      if id in v.saga.stepIds {
        assert IsStepOf(db, id, v.saga.id) && IsStepOf(db', id, v.saga.id);
      }
    }
    assert db'.steps.Keys == db.steps.Keys;
  }

  lemma LinkedNames(v: View, k: nat)
    requires Linked(v) && k < |v.saga.stepIds|
    ensures k < |v.steps| && v.steps[k].id == v.saga.stepIds[k] && v.steps[k].sagaId == v.saga.id
  {
    assert LinkedRow(v.steps[k], v.saga.id, v.saga.stepIds, k);
  }

  /** The wait for children: compensation of a step starts only when the sagas it spawned are compensated. */
  ghost predicate ChildrenAllow(w: World, v: View, a: Action)
    requires Enabled(v, a)
  {
    a.StartCompensation? ==> AllChildrenCompensated(w.db, v.saga.id, v.steps[a.i].id)
  }

  /** Any enabled action that does not have to wait for children can be taken in the store. */
  lemma ActionsCanBeTaken(w: World, v: View, a: Action, i: nat)
    requires IsView(w.db, v) && Enabled(v, a) && ChildrenAllow(w, v, a) && i < |v.steps|
    requires (Target(a).Some? ==> Target(a).value == i) && !a.Idle?
    requires a.Invalidate? ==> !v.saga.state.SagaCompensated?
    ensures Moves(w, After(w, v, a), v, a, i)
  {
    var e, w' := Apply(v, a), After(w, v, a);
    ApplyKeepsIdentity(v, a);
    ApplyKeepsView(w, v, a);
    BusGrows(w, v, a, i);
    assert w'.db == AddRows(PutSaga(w.db, e.saga), e.steps);
    hide *;
    RowsLand(w.db, v, e);
    TakenIsLegal(w, w', v, a, i);
  }

  lemma ApplyKeepsView(w: World, v: View, a: Action)
    requires IsView(w.db, v) && Enabled(v, a)
    ensures Linked(Apply(v, a)) && Linked(v)
  {
    hide Apply, Enabled;
    ApplyKeepsLinks(v, a);
  }

  lemma BusGrows(w: World, v: View, a: Action, i: nat)
    requires Enabled(v, a) && i < |v.steps| && (Target(a).Some? ==> Target(a).value == i)
    ensures BusGrew(w.bus, Bus(w, v, a), v, i) && (a.Send? ==> Bus(w, v, a) != w.bus)
  {
    if a.Send? {
      assert Bus(w, v, a) == w.bus + [AwaitedRequest(v, i)] && PendingRequest(AwaitedRequest(v, i), v, i);
    }
  }

  lemma TakenIsLegal(w: World, w': World, v: View, a: Action, i: nat)
    requires IsView(w.db, v) && i < |v.steps| && Enabled(v, a) && ChildrenAllow(w, v, a) && !a.Idle?
    requires Target(a).Some? ==> Target(a).value == i
    requires Landed(w.db, w'.db, Apply(v, a)) && BusGrew(w.bus, w'.bus, v, i) && (a.Send? ==> w'.bus != w.bus)
    requires a.Invalidate? ==> !v.saga.state.SagaCompensated?
    ensures Moves(w, w', v, a, i)
  {
    hide Apply, Enabled, IsView, Landed, BusGrew, AllChildrenCompensated;
  }

  // ----- runs that mark no saga invalid -----

  ghost predicate NobodyIsInvalid(db: Db) {
    forall s :: s in db.sagas ==> !db.sagas[s].state.SagaInvalidState?
  }

  /** Along runs that mark no saga invalid, from the empty store on, no saga ever is. */
  lemma CleanRunsHaveNoInvalidSaga(w: World)
    requires RunsTo(EmptyWorld(), w, true)
    ensures NobodyIsInvalid(w.db)
  {
    hide StepsTo, InShape, NobodyIsInvalid;
    EmptyStoreIsInShape();
    NobodyInTheEmptyStore();
    var path :| IsPath(path, true) && path[0] == EmptyWorld() && path[|path| - 1] == w;
    PathHasNoInvalidSaga(path, |path| - 1);
  }

  lemma NewSagasAreNotInvalid(w: World, w': World, s: string, clean: bool)
    requires InShape(w) && StepsTo(w, w', clean) && s in w'.db.sagas && s !in w.db.sagas
    ensures !w'.db.sagas[s].state.SagaInvalidState?
  {
    hide LegalMove, Registers, InShape;
    if v: View, a: Action, i: nat :| Moves(w, w', v, a, i) && (clean ==> !a.Invalidate?) {
      MoveKeepsKeys(w, w', v, a, i);
      assert false;
    } else {
      var v: View :| Registers(w, w', v);
      NewOnes(w, w', v);
      assert s == v.saga.id;
    }
  }

  lemma MoveKeepsKeys(w: World, w': World, v: View, a: Action, i: nat)
    requires Moves(w, w', v, a, i)
    ensures w'.db.sagas.Keys == w.db.sagas.Keys
  {
    IdentityUnderMove(w.db, w'.db, w.bus, w'.bus, v, a, i);
  }

  lemma NobodyInTheEmptyStore()
    ensures NobodyIsInvalid(EmptyWorld().db)
  {
  }

  lemma {:induction false} PathHasNoInvalidSaga(path: seq<World>, k: nat)
    requires IsPath(path, true) && k < |path| && InShape(path[0]) && NobodyIsInvalid(path[0].db)
    ensures InShape(path[k]) && NobodyIsInvalid(path[k].db)
  {
    hide StepsTo, InShape;
    if k > 0 {
      PathHasNoInvalidSaga(path, k - 1);
      StepForgetsClean(path[k-1], path[k], true);
      StepKeepsShape(path[k-1], path[k]);
      forall s | s in path[k].db.sagas ensures !path[k].db.sagas[s].state.SagaInvalidState? {
        if s in path[k-1].db.sagas {
          CleanStepInvalidatesNobody(path[k-1], path[k], s);
        } else {
          NewSagasAreNotInvalid(path[k-1], path[k], s, true);
        }
      }
    }
  }

  lemma CleanStepInvalidatesNobody(w: World, w': World, s: string)
    requires InShape(w) && StepsTo(w, w', true) && s in w.db.sagas && !w.db.sagas[s].state.SagaInvalidState?
    ensures s in w'.db.sagas && !w'.db.sagas[s].state.SagaInvalidState?
  {
    hide *;
    var v, m := StoredView(w, s);
    var a := StepProjects(w, w', v, true);
    OnlyInvalidationInvalidates(v, a);
    ApplyKeepsIdentity(v, a);
    ViewIsStored(w'.db, Apply(v, a));
  }

  lemma OnlyInvalidationInvalidates(v: View, a: Action)
    requires Enabled(v, a) && !v.saga.state.SagaInvalidState? && !a.Invalidate?
    ensures !Apply(v, a).saga.state.SagaInvalidState?
  {
  }

  // ----- the order in which sagas were born -----

  /** Every saga comes after its parent. */
  ghost predicate IsBirthOrder(db: Db, order: seq<string>) {
    && Distinct(order) && "" !in order
    && (forall s :: s in db.sagas <==> s in order)
    && (forall k :: 0 <= k < |order| ==> BornAfterItsParent(db, order, k))
  }

  ghost predicate BornAfterItsParent(db: Db, order: seq<string>, k: nat)
    requires k < |order|
  {
    order[k] in db.sagas && (db.sagas[order[k]].parentId != "" ==> db.sagas[order[k]].parentId in order[..k])
  }

  lemma SameOriginsSameOrder(w: World, w': World, order: seq<string>)
    requires IsBirthOrder(w.db, order) && KeepsSagas(w, w') && w'.db.sagas.Keys == w.db.sagas.Keys
    ensures IsBirthOrder(w'.db, order)
  {
    forall k | 0 <= k < |order| ensures BornAfterItsParent(w'.db, order, k) {
      assert BornAfterItsParent(w.db, order, k);
      assert SameOrigin(w.db.sagas[order[k]], w'.db.sagas[order[k]]);
    }
  }

  lemma RegistrationExtendsOrder(w: World, w': World, v: View, order: seq<string>)
    requires Registers(w, w', v) && IsBirthOrder(w.db, order)
    ensures IsBirthOrder(w'.db, order + [v.saga.id])
  {
    hide IsNew, Linked;
    var longer := order + [v.saga.id];
    forall k | 0 <= k < |longer| ensures BornAfterItsParent(w'.db, longer, k) {
      if k < |order| {
        assert BornAfterItsParent(w.db, order, k);
        assert longer[..k] == order[..k];
      } else {
        assert longer[..k] == order;
      }
    }
  }

  lemma {:induction false} PathHasBirthOrder(path: seq<World>, k: nat) returns (order: seq<string>)
    requires IsPath(path, false) && k < |path| && path[0] == EmptyWorld()
    ensures IsBirthOrder(path[k].db, order)
  {
    hide StepsTo, IsBirthOrder;
    if k == 0 {
      order := [];
      NobodyIsBorn();
    } else {
      order := PathHasBirthOrder(path, k - 1);
      order := StepHasBirthOrder(path[k-1], path[k], order);
    }
  }

  lemma NobodyIsBorn()
    ensures IsBirthOrder(EmptyWorld().db, [])
  {
  }

  lemma StepHasBirthOrder(w: World, w': World, order: seq<string>) returns (order': seq<string>)
    requires StepsTo(w, w', false) && IsBirthOrder(w.db, order)
    ensures IsBirthOrder(w'.db, order')
  {
    hide LegalMove, Registers, IsBirthOrder;
    if v: View, a: Action, i: nat :| Moves(w, w', v, a, i) {
      MoveKeepsKeys(w, w', v, a, i);
      MoveKeepsSagas(w, w', v, a, i);
      SameOriginsSameOrder(w, w', order);
      order' := order;
    } else {
      var v: View :| Registers(w, w', v);
      RegistrationExtendsOrder(w, w', v, order);
      order' := order + [v.saga.id];
    }
  }

  /** A store that came about from the empty one is in shape, and its sagas can be listed parents first. */
  lemma ReachableStores(w: World) returns (order: seq<string>)
    requires Reaches(EmptyWorld(), w)
    ensures InShape(w) && IsBirthOrder(w.db, order)
  {
    hide StepsTo, InShape, IsBirthOrder;
    EmptyStoreIsInShape();
    RunsKeepShape(EmptyWorld(), w);
    var path :| IsPath(path, false) && path[0] == EmptyWorld() && path[|path| - 1] == w;
    order := PathHasBirthOrder(path, |path| - 1);
  }

  // ----- one round of one saga -----

  /** Every child of the saga is compensated. */
  ghost predicate ChildrenSettled(db: Db, parentId: string) {
    forall s :: s in db.sagas && db.sagas[s].parentId == parentId ==> db.sagas[s].state.SagaCompensated?
  }

  lemma SettledOutside(w: World, w': World, s: string)
    requires SameOutside(w.db, w'.db, s) && ChildrenSettled(w.db, s) && InShape(w')
    ensures ChildrenSettled(w'.db, s)
  {
    if s in w'.db.sagas {
      DbInvAt(w'.db, w'.bus);
      NoSagaIsItsOwnParent(w', s);
    }
    hide InShape, SagaFits;
  }

  lemma SettledAllows(w: World, v: View, a: Action)
    requires Enabled(v, a) && (a.StartCompensation? ==> ChildrenSettled(w.db, v.saga.id))
    ensures ChildrenAllow(w, v, a)
  {
    hide Enabled;
  }

  /** Actions of one saga on its own, all on step i. */
  predicate AreActionsOn(acts: seq<Action>, i: nat) {
    forall a :: a in acts ==> (Target(a).Some? ==> Target(a).value == i) && !a.Idle? && !a.Invalidate?
  }

  predicate StartsCompensation(acts: seq<Action>) {
    exists a :: a in acts && a.StartCompensation?
  }

  /** Calls on one step can be made one after the other when no children have to be waited for. */
  lemma {:induction false} WorkIsPossible(w: World, v: View, acts: seq<Action>, i: nat) returns (w': World)
    requires InShape(w) && IsView(w.db, v) && EnabledAll(v, acts) && i < |v.steps| && AreActionsOn(acts, i)
    requires StartsCompensation(acts) ==> ChildrenSettled(w.db, v.saga.id)
    ensures Works(w, w', v, i, acts)
    decreases |acts|
  {
    hide InShape, Enabled, Apply, IsView, ChildrenSettled, Moves, After, SameOutside, RunsTo, OnlyAsks;
    w' := w;
    if acts != [] {
      var a := acts[0];
      assert a in acts && forall b :: b in acts[1..] ==> b in acts;
      SettledAllows(w, v, a);
      ActionsCanBeTaken(w, v, a, i);
      var w1, v1 := After(w, v, a), Apply(v, a);
      MovesInside(w, w1, v, a, i);
      if StartsCompensation(acts) {
        SettledOutside(w, w1, v.saga.id);
      }
      w' := WorkIsPossible(w1, v1, acts[1..], i);
    }
  }

  /** The last call sends the step's request. */
  lemma {:induction false} SendingAsks(w: World, w': World, v: View, i: nat, acts: seq<Action>)
    requires Works(w, w', v, i, acts) && i < |v.steps| && acts != [] && acts[|acts| - 1].Send?
    ensures IsRequested(w'.bus, v.steps[i].id)
    decreases |acts|
  {
    hide Moves, Enabled, Apply, IsRequested;
    var w1: World :| Moves(w, w1, v, acts[0], i) && Works(w1, w', Apply(v, acts[0]), i, acts[1..]);
    if |acts| == 1 {
      SendAsks(w, w1, v, acts[0], i);
    } else {
      ApplyKeepsIdentity(v, acts[0]);
      SendingAsks(w1, w', Apply(v, acts[0]), i, acts[1..]);
    }
  }

  lemma SendAsks(w: World, w': World, v: View, a: Action, i: nat)
    requires Moves(w, w', v, a, i) && a.Send?
    ensures i < |v.steps| && IsRequested(w'.bus, v.steps[i].id)
  {
    hide Enabled, Moved, IsView;
    assert w'.bus[|w.bus|] in w'.bus;
  }

  /** What a course that brings one saga on leaves as it was: everything but that saga. */
  ghost predicate Tends(x: Service, x': Service, s: string) {
    && ServesTo(x, x', true) && ServiceFits(x')
    && SameOutside(x.world.db, x'.world.db, s) && x.world.bus <= x'.world.bus
    && (forall id :: id in x.world.db.steps && x.world.db.steps[id].sagaId != s ==> Due(x', id) == Due(x, id))
  }

  lemma TendsNothing(x: Service, s: string)
    requires ServiceFits(x)
    ensures Tends(x, x, s)
  {
    ServesToItself(x, true);
  }

  lemma TendsOn(x: Service, x1: Service, x2: Service, s: string)
    requires Tends(x, x1, s) && Tends(x1, x2, s)
    ensures Tends(x, x2, s)
  {
    hide *;
    TendsMeans(x, x1, s);
    TendsMeans(x1, x2, s);
    ServesOn(x, x1, x2, true, true);
    InsideOn(x.world.db, x1.world.db, x2.world.db, s);
    OutsideKeepsOwners(x.world.db, x1.world.db, s);
    TendsBy(x, x2, s);
  }

  lemma OutsideKeepsOwners(db: Db, db': Db, sid: string)
    requires SameOutside(db, db', sid)
    ensures forall id :: id in db.steps ==> id in db'.steps && db'.steps[id].sagaId == db.steps[id].sagaId
  {
    assert forall id :: id in db.steps ==> id in db'.steps.Keys;
  }

  lemma TendsBy(x: Service, x': Service, s: string)
    requires ServesTo(x, x', true) && ServiceFits(x') && SameOutside(x.world.db, x'.world.db, s)
    requires x.world.bus <= x'.world.bus
    requires forall id :: id in x.world.db.steps && x.world.db.steps[id].sagaId != s ==> Due(x', id) == Due(x, id)
    ensures Tends(x, x', s)
  {
  }

  lemma TendsMeans(x: Service, x': Service, s: string)
    requires Tends(x, x', s)
    ensures ServesTo(x, x', true) && ServiceFits(x') && InShape(x'.world) && SameOutside(x.world.db, x'.world.db, s)
    ensures x.world.bus <= x'.world.bus
    ensures forall id :: id in x.world.db.steps && x.world.db.steps[id].sagaId != s ==> Due(x', id) == Due(x, id)
  {
  }

  lemma EventTends(x: Service, e: Event, x': Service, s: string)
    requires ServiceFits(x) && Happens(x, e, x') && !MarksInvalid(e)
    requires SameOutside(x.world.db, x'.world.db, s) && x.world.bus <= x'.world.bus
    requires forall id :: id in x.world.db.steps && x.world.db.steps[id].sagaId != s ==> Due(x', id) == Due(x, id)
    ensures Tends(x, x', s)
  {
    hide ServiceFits, Happens, SameOutside, MarksInvalid;
    ServesOnce(x, e, x');
    EventKeepsFits(x, e, x');
  }

  // ----- the drivers make the round -----

  /** One run of the drivers is made, if it is due. */
  lemma DueRunIsMade(x: Service, w': World, v: View, i: nat, acts: seq<Action>) returns (e: Event, x': Service)
    requires PollRun(x.world, w', v, i, acts, true) && TriggerRun(x.world, w', v, i, acts, true) && !Invalidates(acts)
    requires i < |v.steps| && Due(x, v.steps[i].id) > 0
    ensures Happens(x, e, x') && IsRun(e) && e.v == v && e.i == i && e.acts == acts && !MarksInvalid(e)
    ensures x'.world == w'
    ensures forall id :: Due(x', id) == if id == v.steps[i].id then Due(x, id) - 1 else Due(x, id)
  {
    hide PollRun, TriggerRun;
    var id := v.steps[i].id;
    if id in x.polled {
      e := Poll(v, i, acts, true);
      x' := x.(world := w', polled := x.polled - multiset{id});
    } else {
      e := Trigger(v, i, acts, true);
      x' := x.(world := w', fired := x.fired - multiset{id});
    }
  }

  /** The poller picks a step, and works on it at once. */
  lemma PickedRunIsMade(x: Service, w': World, v: View, i: nat, acts: seq<Action>, listed: bool)
    returns (x1: Service, e: Event, x': Service)
    requires PollRun(x.world, w', v, i, acts, listed) && i < |v.steps| && CanPick(x.world.db, v.steps[i].id)
    ensures Happens(x, Pick(v.steps[i].id), x1) && x1.world == x.world
    ensures Happens(x1, e, x') && e == Poll(v, i, acts, listed) && IsRun(e) && (MarksInvalid(e) <==> Invalidates(acts))
    ensures x'.world == w' && x'.fired == x.fired && forall id :: Due(x', id) == Due(x, id)
    ensures forall id :: id != v.steps[i].id ==> Due(x1, id) == Due(x, id)
  {
    hide PollRun, CanPick;
    var id := v.steps[i].id;
    x1 := x.(polled := x.polled + multiset{id});
    e := Poll(v, i, acts, listed);
    x' := x.(world := w');
    assert x1.polled - multiset{id} == x.polled;
  }

  /** A result arrives and is taken. */
  lemma ResultArrives(x: Service, w': World, v: View, i: nat, a: Action) returns (e: Event, x': Service)
    requires IsView(x.world.db, v) && i < |v.steps| && IsRequested(x.world.bus, v.steps[i].id)
    requires a.Receive? && a.i == i && Moves(x.world, w', v, a, i)
    ensures Happens(x, e, x') && IsRun(e) && e.v == v && e.i == i && e.acts == [a] && !MarksInvalid(e)
    ensures x'.world == w' && x'.fired == x.fired + multiset{v.steps[i].id}
    ensures forall id :: Due(x', id) == if id == v.steps[i].id then Due(x, id) + 1 else Due(x, id)
  {
    MovesAreEnabled(x.world, w', v, a, i);
    assert !IgnoresResults(v.steps[i].state);
    hide IsView, Moves, IsRequested, IgnoresResults, Enabled;
    e := Result(v, i, [a], true);
    x' := x.(world := w', fired := x.fired + multiset{v.steps[i].id});
  }

  /** The saga after events on it alone, as its drivers see it. */
  ghost predicate Brings(x: Service, x': Service, v: View, v': View, m': Position) {
    && Tends(x, x', v.saga.id) && v'.saga.id == v.saga.id && v'.saga.stepIds == v.saga.stepIds
    && |v'.steps| == |v.steps| && IsView(x'.world.db, v') && Inv(v', m')
  }

  lemma RunBrings(x: Service, e: Event, x': Service, m: Position)
    requires ServiceFits(x) && IsRun(e) && Happens(x, e, x') && !MarksInvalid(e) && Inv(e.v, m)
    requires SameOutside(x.world.db, x'.world.db, e.v.saga.id) && EnabledAll(e.v, e.acts)
    ensures Brings(x, x', e.v, ApplyAll(e.v, e.acts), NextAll(m, e.acts, |e.v.steps|))
  {
    hide *;
    KindOfRun(e);
    FitsInShape(x);
    RunsServe(x, e, x');
    ServesInShape(x.world, x'.world, e.v, e.i, e.acts);
    OwnStepIsElsewhere(x, e, x');
    AsksMore(x.world.bus, x'.world.bus, e.v.steps[e.i].id);
    EventTends(x, e, x', e.v.saga.id);
    RunKeepsIdentity(e.v, e.acts);
    RunRefinesMachine(e.v, m, e.acts);
    BringsMeans(x, x', e.v, ApplyAll(e.v, e.acts), NextAll(m, e.acts, |e.v.steps|));
  }

  lemma AsksMore(bus: seq<Request>, bus': seq<Request>, stepId: string)
    requires OnlyAsks(bus, bus', stepId)
    ensures bus <= bus'
  {
  }

  lemma OwnStepIsElsewhere(x: Service, e: Event, x': Service)
    requires IsRun(e) && Happens(x, e, x') && IsView(x.world.db, e.v) && e.i < |e.v.steps|
    ensures forall id :: id in x.world.db.steps && x.world.db.steps[id].sagaId != e.v.saga.id ==>
      Due(x', id) == Due(x, id)
  {
    hide Happens, Due;
    assert LinkedRow(e.v.steps[e.i], e.v.saga.id, e.v.saga.stepIds, e.i);
    forall id | id in x.world.db.steps && x.world.db.steps[id].sagaId != e.v.saga.id
      ensures Due(x', id) == Due(x, id)
    {
      DueElsewhere(x, e, x', id);
    }
  }

  lemma BringsMeans(x: Service, x': Service, v: View, v': View, m': Position)
    requires Tends(x, x', v.saga.id) && v'.saga.id == v.saga.id && v'.saga.stepIds == v.saga.stepIds
    requires |v'.steps| == |v.steps| && IsView(x'.world.db, v') && Inv(v', m')
    ensures Brings(x, x', v, v', m')
  {
  }

  /** A saga on its way either does not need its children, or they are all compensated. */
  ghost predicate NeedsNoChildren(db: Db, v: View, m: Position, failAt: nat) {
    (failAt >= |v.steps| && CommitAhead(m, v.saga.state)) || ChildrenSettled(db, v.saga.id)
  }

  predicate CommitAhead(m: Position, s: SagaState) {
    m.Complete? || (m.Forward? && !m.phase.Failed? && s.SagaRunning?)
  }

  lemma CommitStaysAhead(m: Position, s: SagaState, n: nat, failAt: nat, i: nat)
    requires Fits(m, n) && !Arrived(m, n, failAt) && (m.Forward? || m.Undoing? ==> i == m.i)
    requires m.Complete? ==> s.SagaCommitted? || s.SagaCompensationRequested?
    ensures failAt >= n && CommitAhead(m, s) ==>
      CommitAhead(AfterRound(m, s, n, failAt), StateAfterRound(m, s, n)) && !StartsCompensation(Round(m, s, n, failAt))
    ensures !(m.Complete? && s.SagaCommitted?) ==> AreActionsOn(Round(m, s, n, failAt), i)
    ensures IsDriven(m) ==> IsOneRun(Round(m, s, n, failAt), i)
    ensures !Invalidates(Round(m, s, n, failAt)) && NoneIsIdle(Round(m, s, n, failAt))
  {
  }

  /** A committed saga is asked to compensate. */
  lemma AskRound(x: Service, v: View, m: Position) returns (x': Service)
    requires ServiceFits(x) && IsView(x.world.db, v) && Inv(v, m) && v.saga.state.SagaCommitted?
    ensures EnabledAll(v, [Transitions.Request])
    ensures Brings(x, x', v, ApplyAll(v, [Transitions.Request]), m)
    ensures DueFor(x', ApplyAll(v, [Transitions.Request])) == DueFor(x, v) && x'.fired == x.fired
  {
    hide *;
    var e, w := Ask(v.saga.id), Asked(v);
    x' := AskHappens(x, v);
    AskingApplies(x.world.db, v, m);
    SameStepsSameDue(x, x', v, w);
    EventTends(x, e, x', v.saga.id);
    BringsMeans(x, x', v, w, m);
  }

  function Asked(v: View): View {
    v.(saga := v.saga.(state := SagaCompensationRequested))
  }

  lemma AskHappens(x: Service, v: View) returns (x': Service)
    requires IsView(x.world.db, v) && v.saga.state.SagaCommitted?
    ensures v.saga.id in x.world.db.sagas && Happens(x, Ask(v.saga.id), x') && !MarksInvalid(Ask(v.saga.id))
    ensures x'.world.db == RequestCompensation(x.world.db, v.saga.id) && x.world.bus <= x'.world.bus
    ensures x'.polled == x.polled && x'.fired == x.fired
    ensures forall id :: Due(x', id) == Due(x, id)
  {
    ViewIsStored(x.world.db, v);
    hide IsView;
    x' := x.(world := World(RequestCompensation(x.world.db, v.saga.id), x.world.bus));
  }

  lemma AskingApplies(db: Db, v: View, m: Position)
    requires IsView(db, v) && Inv(v, m) && v.saga.state.SagaCommitted? && v.saga.id in db.sagas
    ensures EnabledAll(v, [Transitions.Request]) && ApplyAll(v, [Transitions.Request]) == Asked(v)
    ensures Inv(Asked(v), m) && Asked(v).saga.id == v.saga.id && Asked(v).saga.stepIds == v.saga.stepIds
    ensures |Asked(v).steps| == |v.steps|
    ensures var db' := RequestCompensation(db, v.saga.id); IsView(db', Asked(v)) && SameOutside(db, db', v.saga.id)
  {
    OneAction(v, Transitions.Request);
    ActionRefinesMachine(v, m, Transitions.Request);
    assert Apply(v, Transitions.Request) == Asked(v);
    ViewIsStored(db, v);
    PutSagaMovesView(db, v, Asked(v).saga);
    assert RequestCompensation(db, v.saga.id) == PutSaga(db, Asked(v).saga);
    hide IsView, SameOutside, Inv, Apply, Enabled, EnabledAll, ApplyAll;
    LandedMeans(db, PutSaga(db, Asked(v).saga), Asked(v));
  }

  lemma SameStepsSameDue(x: Service, x': Service, v: View, w: View)
    requires w == Asked(v) && forall id :: Due(x', id) == Due(x, id)
    ensures DueFor(x', w) == DueFor(x, v)
  {
  }

  lemma LandedMeans(db: Db, db': Db, e: View)
    requires Landed(db, db', e)
    ensures IsView(db', e) && SameOutside(db, db', e.saga.id)
  {
  }

  /** The request the active step waits on is out: it was sent, or the step has been answered before. */
  lemma WaitingWasRequested(x: Service, v: View, m: Position)
    requires ServiceFits(x) && IsOpenView(x, v, m)
    requires (m.Forward? && m.phase.Running?) || (m.Undoing? && AwaitsResult(m.undo))
    ensures m.i < |v.steps| && IsRequested(x.world.bus, v.steps[m.i].id)
  {
    hide ServiceFits, IsRequested, HasAll, Inv, IsView;
    PositionFits(v, m);
    LetterAt(v, m, m.i);
    if m.Undoing? {
      AnsweredWasRequested(x, v, m.i);
    }
  }

  lemma AnsweredWasRequested(x: Service, v: View, j: nat)
    requires ServiceFits(x) && IsView(x.world.db, v) && j < |v.steps| && IsAnswered(v.steps[j].state)
    ensures IsRequested(x.world.bus, v.steps[j].id)
  {
    hide InShape, IsRequested, Linked;
    assert StepServed(x, v.steps[j].id);
  }

  lemma ResultRound(x: Service, v: View, m: Position, a: Action) returns (x': Service)
    requires ServiceFits(x) && IsView(x.world.db, v) && Inv(v, m) && Enabled(v, a) && a.Receive? && a.i < |v.steps|
    requires IsRequested(x.world.bus, v.steps[a.i].id)
    ensures EnabledAll(v, [a]) && Brings(x, x', v, ApplyAll(v, [a]), NextAll(m, [a], |v.steps|))
    ensures var due := DueFor(x, v); DueFor(x', ApplyAll(v, [a])) == due[a.i := due[a.i] + 1]
    ensures x'.fired == x.fired + multiset{v.steps[a.i].id}
  {
    hide *;
    NoChildrenAsked(x.world, v, a);
    ResultTarget(a);
    ActionsCanBeTaken(x.world, v, a, a.i);
    var e;
    e, x' := ResultArrives(x, After(x.world, v, a), v, a.i, a);
    FitsInShape(x);
    ResultIsBusy(a);
    MovesInside(x.world, x'.world, v, a, a.i);
    OneAction(v, a);
    RunBrings(x, e, x', m);
    StepIdsAreDistinct(x.world.db, v);
    SameIdsOverRun(v, [a]);
    OneMoreDue(x, x', v, ApplyAll(v, [a]), a.i, 1);
  }

  lemma ResultTarget(a: Action)
    requires a.Receive?
    ensures Target(a) == Some(a.i)
  {
  }

  lemma ResultIsBusy(a: Action)
    requires a.Receive?
    ensures !a.Idle? && !a.Invalidate?
  {
  }

  lemma OneMoreDue(x: Service, x': Service, v: View, v': View, k: nat, d: int)
    requires |v'.steps| == |v.steps| && k < |v.steps| && Due(x, v.steps[k].id) + d >= 0
    requires forall j :: 0 <= j < |v.steps| ==> v'.steps[j].id == v.steps[j].id
    requires forall j, l :: 0 <= j < |v.steps| && 0 <= l < |v.steps| && v.steps[j].id == v.steps[l].id ==> j == l
    requires forall id :: Due(x', id) == if id == v.steps[k].id then Due(x, id) + d else Due(x, id)
    ensures var due := DueFor(x, v); DueFor(x', v') == due[k := due[k] + d]
  {
    hide Due;
  }

  lemma NoChildrenAsked(w: World, v: View, a: Action)
    requires Enabled(v, a) && !a.StartCompensation?
    ensures ChildrenAllow(w, v, a)
  {
    hide Enabled;
  }

  /** The states in which a run does more than look. */
  predicate IsWorkedOn(s: StepState) {
    !PollSkips(s) && !TriggerSkips(s)
  }

  /** One run of the drivers on step i; one that is not due yet is picked first. */
  lemma DrivenRound(x: Service, v: View, m: Position, acts: seq<Action>, i: nat) returns (x': Service)
    requires ServiceFits(x) && IsView(x.world.db, v) && Inv(v, m) && EnabledAll(v, acts) && i < |v.steps|
    requires AreActionsOn(acts, i) && !Invalidates(acts) && NoneIsIdle(acts)
    requires StartsCompensation(acts) ==> ChildrenSettled(x.world.db, v.saga.id)
    requires IsOneRun(acts, i) && IsWorkedOn(v.steps[i].state) && !v.saga.state.SagaCompensationRequested?
    requires v.saga.state.SagaRunning? || Due(x, v.steps[i].id) > 0
    requires v.saga.state.SagaRunning? ==> IsPicked(v.saga.state, v.steps[i].state)
    ensures Brings(x, x', v, ApplyAll(v, acts), NextAll(m, acts, |v.steps|))
    ensures var due := DueFor(x, v);
      DueFor(x', ApplyAll(v, acts)) == if v.saga.state.SagaRunning? then due else due[i := due[i] - 1]
    ensures acts != [] && acts[|acts| - 1].Send? ==> IsRequested(x'.world.bus, v.steps[i].id)
    ensures v.saga.state.SagaRunning? ==> x'.fired == x.fired
  {
    hide *;
    FitsInShape(x);
    var w' := WorkIsPossible(x.world, v, acts, i);
    InsideBy(x.world, w', v, i, acts);
    WorkSettles(x.world, w', v, i, acts);
    SettlingIsARun(x.world, w', v, i, acts);
    StepIdsAreDistinct(x.world.db, v);
    SameIdsOverRun(v, acts);
    if v.saga.state.SagaRunning? {
      CanPickIt(x.world.db, v, i);
      var x1, e;
      x1, e, x' := PickedRunIsMade(x, w', v, i, acts, true);
      PickedRunBrings(x, x1, e, x', m);
      OneMoreDue(x, x', v, ApplyAll(v, acts), i, 0);
    } else {
      var e;
      e, x' := DueRunIsMade(x, w', v, i, acts);
      RunBrings(x, e, x', m);
      OneMoreDue(x, x', v, ApplyAll(v, acts), i, -1);
    }
    if acts != [] && acts[|acts| - 1].Send? {
      SendingAsks(x.world, w', v, i, acts);
    }
  }

  lemma InsideBy(w: World, w': World, v: View, i: nat, acts: seq<Action>)
    requires InShape(w) && IsView(w.db, v) && i < |v.steps| && Works(w, w', v, i, acts) && NoneIsIdle(acts)
    ensures EnabledAll(v, acts) && IsView(w'.db, ApplyAll(v, acts)) && SameOutside(w.db, w'.db, v.saga.id)
  {
    WorkStaysInside(w, w', v, i, acts);
    hide Works, InShape, EnabledAll, ApplyAll, SameOutside, IsView, RunsTo, OnlyAsks;
  }

  lemma SettlingIsARun(w: World, w': World, v: View, i: nat, acts: seq<Action>)
    requires IsView(w.db, v) && Settles(w, w', v, i, acts) && IsOneRun(acts, i) && i < |v.steps|
    requires IsWorkedOn(v.steps[i].state) && !v.saga.state.SagaCompensationRequested?
    ensures PollRun(w, w', v, i, acts, true) && TriggerRun(w, w', v, i, acts, true)
  {
    hide IsView, Settles, Works, Continues;
  }

  lemma CanPickIt(db: Db, v: View, i: nat)
    requires IsView(db, v) && i < |v.steps| && IsPicked(v.saga.state, v.steps[i].state)
    ensures CanPick(db, v.steps[i].id)
  {
    assert LinkedRow(v.steps[i], v.saga.id, v.saga.stepIds, i);
  }

  lemma PickedRunBrings(x: Service, x1: Service, e: Event, x': Service, m: Position)
    requires ServiceFits(x) && IsRun(e) && e.i < |e.v.steps| && IsView(x.world.db, e.v) && Inv(e.v, m)
    requires Happens(x, Pick(e.v.steps[e.i].id), x1) && x1.world == x.world
    requires forall id :: id != e.v.steps[e.i].id ==> Due(x1, id) == Due(x, id)
    requires Happens(x1, e, x') && !MarksInvalid(e) && EnabledAll(e.v, e.acts)
    requires SameOutside(x.world.db, x'.world.db, e.v.saga.id)
    ensures Brings(x, x', e.v, ApplyAll(e.v, e.acts), NextAll(m, e.acts, |e.v.steps|))
  {
    hide *;
    KindOfRun(e);
    var pick := Pick(e.v.steps[e.i].id);
    EventKeepsFits(x, pick, x1);
    PicksMarkNobody(pick);
    StepIsIts(x.world.db, e.v, e.i);
    NothingOutside(x.world.db, e.v.saga.id);
    EventTends(x, pick, x1, e.v.saga.id);
    RunBrings(x1, e, x', m);
    BroughtOn(x, x1, x', e.v, ApplyAll(e.v, e.acts), NextAll(m, e.acts, |e.v.steps|));
  }

  lemma PicksMarkNobody(e: Event)
    requires e.Pick?
    ensures !MarksInvalid(e)
  {
  }

  lemma StepIsIts(db: Db, v: View, i: nat)
    requires IsView(db, v) && i < |v.steps|
    ensures forall id :: id in db.steps && db.steps[id].sagaId != v.saga.id ==> id != v.steps[i].id
  {
    assert LinkedRow(v.steps[i], v.saga.id, v.saga.stepIds, i);
  }

  lemma NothingOutside(db: Db, sid: string)
    ensures SameOutside(db, db, sid)
  {
  }

  lemma BroughtOn(x: Service, x1: Service, x2: Service, v: View, v': View, m': Position)
    requires Tends(x, x1, v.saga.id) && Brings(x1, x2, v, v', m')
    ensures Brings(x, x2, v, v', m')
  {
    hide Tends, IsView, Inv;
    TendsOn(x, x1, x2, v.saga.id);
  }

  /** One round brings an open saga nearer to the same end, and leaves it open. */
  lemma RoundIsServed(x: Service, v: View, m: Position, failAt: nat) returns (x': Service, v': View, m': Position)
    requires ServiceFits(x) && IsOpenView(x, v, m) && NeedsNoChildren(x.world.db, v, m, failAt)
    requires !Arrived(m, |v.steps|, failAt)
    ensures Fits(m, |v.steps|) && Brings(x, x', v, v', m')
    ensures m' == AfterRound(m, v.saga.state, |v.steps|, failAt)
    ensures v'.saga.state == StateAfterRound(m, v.saga.state, |v.steps|)
    ensures IsOpenView(x', v', m') && NeedsNoChildren(x'.world.db, v', m', failAt)
    ensures (m.Complete? || v.saga.state.SagaRunning?) && AllFired(x, v) ==> AllFired(x', v')
  {
    hide *;
    var n, s, due := |v.steps|, v.saga.state, DueFor(x, v);
    OpenViewMeans(x, v, m);
    CoupledIn(v, m);
    RoundIsPossible(v, m, failAt);
    OpenSagasHaveTheirRun(m, s, due, IsAsked(x, v, m));
    RoundKeepsOpen(m, s, due, IsAsked(x, v, m), failAt);
    var acts := Round(m, s, n, failAt);
    x' := RoundIsMade(x, v, m, failAt);
    MadeMeans(x, x', v, m, acts, AfterRound(m, s, n, failAt), DueAfterRound(m, s, due));
    v', m' := ApplyAll(v, acts), AfterRound(m, s, n, failAt);
    BroughtTo(x, x', v, v', NextAll(m, acts, n), m');
    SameIdsOverRun(v, acts);
    BringsAView(x, x', v, v', m');
    StillOpen(x', v', m', DueAfterRound(m, s, due));
    RoundNeedsNoChildren(x, x', v, m, v', failAt);
    NotArrived(m, n, failAt);
    if m.Complete? || s.SagaRunning? {
      RoundKeepsFired(x, x', v, m, v', failAt);
    }
  }

  lemma OpenViewMeans(x: Service, v: View, m: Position)
    requires IsOpenView(x, v, m)
    ensures IsView(x.world.db, v) && Inv(v, m) && Fits(m, |v.steps|)
    ensures IsOpen(m, v.saga.state, DueFor(x, v), IsAsked(x, v, m))
    ensures m.Complete? ==> v.saga.state.SagaCommitted? || v.saga.state.SagaCompensationRequested?
    ensures m.Undone? ==> v.saga.state.SagaCompensated?
  {
    hide IsView, HasAll, HistoriesFit;
  }

  lemma BringsAView(x: Service, x': Service, v: View, v': View, m': Position)
    requires Brings(x, x', v, v', m')
    ensures IsView(x'.world.db, v') && Inv(v', m') && ServiceFits(x') && Tends(x, x', v.saga.id)
    ensures v'.saga.id == v.saga.id && v'.saga.stepIds == v.saga.stepIds && |v'.steps| == |v.steps|
  {
    hide ServiceFits, ServesTo, IsView, Inv;
  }

  lemma BroughtTo(x: Service, x': Service, v: View, v': View, k: Position, m': Position)
    requires Brings(x, x', v, v', k) && Inv(v', m')
    ensures Brings(x, x', v, v', m')
  {
    hide Tends, IsView, Inv;
  }

  lemma StillOpen(x: Service, v: View, m: Position, due: seq<nat>)
    requires IsView(x.world.db, v) && Inv(v, m) && DueFor(x, v) == due && Fits(m, |due|)
    requires IsOpen(m, v.saga.state, due, true)
    requires m.Forward? && m.phase.Running? ==> IsRequested(x.world.bus, v.steps[m.i].id)
    ensures IsOpenView(x, v, m)
  {
    hide IsView, Inv, HasAll, IsRequested;
  }

  lemma RoundNeedsNoChildren(x: Service, x': Service, v: View, m: Position, v': View, failAt: nat)
    requires NeedsNoChildren(x.world.db, v, m, failAt) && Fits(m, |v.steps|) && !Arrived(m, |v.steps|, failAt)
    requires m.Complete? ==> v.saga.state.SagaCommitted? || v.saga.state.SagaCompensationRequested?
    requires Tends(x, x', v.saga.id) && v'.saga.id == v.saga.id && |v'.steps| == |v.steps|
    requires v'.saga.state == StateAfterRound(m, v.saga.state, |v.steps|)
    ensures NeedsNoChildren(x'.world.db, v', AfterRound(m, v.saga.state, |v.steps|, failAt), failAt)
  {
    CommitStaysAhead(m, v.saga.state, |v.steps|, failAt, if m.Forward? || m.Undoing? then m.i else 0);
    TendsMeans(x, x', v.saga.id);
    hide *;
    if ChildrenSettled(x.world.db, v.saga.id) {
      SettledOutside(x.world, x'.world, v.saga.id);
    }
    ChildrenOrCommit(x, v, m, failAt);
    ChildrenOrCommit(x', v', AfterRound(m, v.saga.state, |v.steps|, failAt), failAt);
  }

  lemma ChildrenOrCommit(x: Service, v: View, m: Position, failAt: nat)
    ensures NeedsNoChildren(x.world.db, v, m, failAt) <==>
      (failAt >= |v.steps| && CommitAhead(m, v.saga.state)) || ChildrenSettled(x.world.db, v.saga.id)
  {
  }

  // ----- the kinds of rounds -----

  lemma AskingRounds(m: Position, s: SagaState, due: seq<nat>, failAt: nat)
    requires Fits(m, |due|) && m.Complete?
    ensures var acts := Round(m, s, |due|, failAt);
      acts == if s.SagaCommitted? then [Transitions.Request] else [Initiate("")]
    ensures s.SagaCommitted? ==> NextAll(m, [Transitions.Request], |due|) == m
    ensures DueAfterRound(m, s, due) == due && !AfterRound(m, s, |due|, failAt).Forward?
  {
    assert s.SagaCommitted? ==> [Transitions.Request][1..] == [];
  }

  lemma DrivenRounds(m: Position, s: SagaState, due: seq<nat>, failAt: nat)
    requires Fits(m, |due|) && IsDriven(m) && (!s.SagaRunning? ==> due[m.i] > 0)
    ensures (m.Forward? || m.Undoing?) && m.i < |due|
    ensures DueAfterRound(m, s, due) == if s.SagaRunning? then due else due[m.i := due[m.i] - 1]
    ensures var acts, m' := Round(m, s, |due|, failAt), AfterRound(m, s, |due|, failAt);
      m'.Forward? && m'.phase.Running? ==> m'.i == m.i && acts != [] && acts[|acts| - 1].Send?
    ensures IsWorkedOn(Letter(m, m.i)) && (s.SagaRunning? ==> IsPicked(s, Letter(m, m.i)))
  {
  }

  lemma ResultRounds(m: Position, s: SagaState, due: seq<nat>, failAt: nat)
    requires Fits(m, |due|) && !IsDriven(m) && (m.Forward? || m.Undoing?)
    ensures (m.Forward? && m.phase.Running?) || (m.Undoing? && AwaitsResult(m.undo))
    ensures var acts := Round(m, s, |due|, failAt);
      |acts| == 1 && acts[0].Receive? && acts[0].i == m.i && acts == [acts[0]] && IsResult(acts)
    ensures DueAfterRound(m, s, due) == due[m.i := due[m.i] + 1]
    ensures var m' := AfterRound(m, s, |due|, failAt); m'.Forward? ==> !m'.phase.Running?
  {
  }

  /** A saga asked to compensate is picked by any of its steps, and begins to be undone. */
  lemma InitiationRound(x: Service, v: View, m: Position) returns (x': Service)
    requires ServiceFits(x) && IsView(x.world.db, v) && Inv(v, m) && m.Complete?
    requires v.saga.state.SagaCompensationRequested? && EnabledAll(v, [Initiate("")])
    ensures Brings(x, x', v, ApplyAll(v, [Initiate("")]), NextAll(m, [Initiate("")], |v.steps|))
    ensures DueFor(x', ApplyAll(v, [Initiate("")])) == DueFor(x, v) && x'.fired == x.fired
  {
    hide *;
    var acts := [Initiate("")];
    FitsInShape(x);
    LettersKnown(v, m);
    InitiationIsAlone(m, v.saga.state);
    var w' := WorkIsPossible(x.world, v, acts, 0);
    InsideBy(x.world, w', v, 0, acts);
    InitiationIsARun(x.world, w', v);
    CanPickIt(x.world.db, v, 0);
    var x1, e;
    x1, e, x' := PickedRunIsMade(x, w', v, 0, acts, true);
    PickedRunBrings(x, x1, e, x', m);
    StepIdsAreDistinct(x.world.db, v);
    SameIdsOverRun(v, acts);
    OneMoreDue(x, x', v, ApplyAll(v, acts), 0, 0);
  }

  lemma InitiationIsAlone(m: Position, s: SagaState)
    requires m.Complete? && s.SagaCompensationRequested?
    ensures AreActionsOn([Initiate("")], 0) && !StartsCompensation([Initiate("")])
    ensures NoneIsIdle([Initiate("")]) && !Invalidates([Initiate("")])
    ensures IsPicked(s, Letter(m, 0))
  {
  }

  lemma InitiationIsARun(w: World, w': World, v: View)
    requires IsView(w.db, v) && |v.steps| > 0 && v.saga.state.SagaCompensationRequested?
    requires Works(w, w', v, 0, [Initiate("")])
    ensures PollRun(w, w', v, 0, [Initiate("")], true)
  {
    hide Works, IsView;
  }

  /** The immediate runs that are due after a round of a saga that the poller picks: none was used. */
  predicate FiresOn(x: Service, x': Service, v: View, m: Position) {
    && (IsDriven(m) && v.saga.state.SagaRunning? ==> x'.fired == x.fired)
    && (m.Complete? ==> x'.fired == x.fired)
    && ((m.Forward? || m.Undoing?) && !IsDriven(m) ==>
          m.i < |v.steps| && x'.fired == x.fired + multiset{v.steps[m.i].id})
  }

  /** The round was made: the saga is where it leads, with the runs due that it leaves, and asked if it runs. */
  ghost predicate IsMade(x: Service, x': Service, v: View, m: Position, acts: seq<Action>, m': Position, due: seq<nat>)
    requires EnabledAll(v, acts)
  {
    && Brings(x, x', v, ApplyAll(v, acts), NextAll(m, acts, |v.steps|))
    && DueFor(x', ApplyAll(v, acts)) == due && FiresOn(x, x', v, m)
    && (m'.Forward? && m'.phase.Running? ==> m'.i < |v.steps| && IsRequested(x'.world.bus, v.steps[m'.i].id))
  }

  lemma MadeBy(x: Service, x': Service, v: View, m: Position, acts: seq<Action>, m': Position, due: seq<nat>)
    requires EnabledAll(v, acts)
    requires Brings(x, x', v, ApplyAll(v, acts), NextAll(m, acts, |v.steps|)) && DueFor(x', ApplyAll(v, acts)) == due
    requires FiresOn(x, x', v, m)
    requires m'.Forward? && m'.phase.Running? ==> m'.i < |v.steps| && IsRequested(x'.world.bus, v.steps[m'.i].id)
    ensures IsMade(x, x', v, m, acts, m', due)
  {
  }

  lemma MadeMeans(x: Service, x': Service, v: View, m: Position, acts: seq<Action>, m': Position, due: seq<nat>)
    requires EnabledAll(v, acts) && IsMade(x, x', v, m, acts, m', due)
    ensures Brings(x, x', v, ApplyAll(v, acts), NextAll(m, acts, |v.steps|)) && DueFor(x', ApplyAll(v, acts)) == due
    ensures FiresOn(x, x', v, m)
    ensures m'.Forward? && m'.phase.Running? ==> m'.i < |v.steps| && IsRequested(x'.world.bus, v.steps[m'.i].id)
  {
  }

  lemma CompleteRoundIsMade(x: Service, v: View, m: Position, acts: seq<Action>, m': Position, failAt: nat)
    returns (x': Service)
    requires ServiceFits(x) && IsOpenView(x, v, m) && m.Complete?
    requires acts == Round(m, v.saga.state, |v.steps|, failAt) && m' == AfterRound(m, v.saga.state, |v.steps|, failAt)
    requires EnabledAll(v, acts)
    ensures Fits(m, |v.steps|)
    ensures IsMade(x, x', v, m, acts, m', DueAfterRound(m, v.saga.state, DueFor(x, v)))
  {
    hide *;
    OpenViewMeans(x, v, m);
    AskingRounds(m, v.saga.state, DueFor(x, v), failAt);
    if v.saga.state.SagaCommitted? {
      x' := AskRound(x, v, m);
    } else {
      x' := InitiationRound(x, v, m);
    }
    FiresNothing(x, x', v, m);
    MadeBy(x, x', v, m, acts, m', DueFor(x, v));
  }

  lemma DrivenRoundIsMade(x: Service, v: View, m: Position, acts: seq<Action>, m': Position, failAt: nat)
    returns (x': Service)
    requires ServiceFits(x) && IsOpenView(x, v, m) && NeedsNoChildren(x.world.db, v, m, failAt)
    requires Fits(m, |v.steps|) && !Arrived(m, |v.steps|, failAt) && !m.Complete? && IsDriven(m)
    requires acts == Round(m, v.saga.state, |v.steps|, failAt) && m' == AfterRound(m, v.saga.state, |v.steps|, failAt)
    requires EnabledAll(v, acts) && (!v.saga.state.SagaRunning? ==> DueFor(x, v)[m.i] > 0)
    ensures IsMade(x, x', v, m, acts, m', DueAfterRound(m, v.saga.state, DueFor(x, v)))
  {
    hide *;
    var s, due := v.saga.state, DueFor(x, v);
    OpenViewMeans(x, v, m);
    DrivenRounds(m, s, due, failAt);
    LetterAt(v, m, m.i);
    CommitStaysAhead(m, s, |v.steps|, failAt, m.i);
    ChildrenOrCommit(x, v, m, failAt);
    NotRequested(v, m);
    x' := DrivenRound(x, v, m, acts, m.i);
    FiresNothing(x, x', v, m);
    MadeBy(x, x', v, m, acts, m', DueAfterRound(m, s, due));
  }

  lemma ResultRoundIsMade(x: Service, v: View, m: Position, acts: seq<Action>, m': Position, failAt: nat)
    returns (x': Service)
    requires ServiceFits(x) && IsOpenView(x, v, m) && !IsDriven(m) && (m.Forward? || m.Undoing?)
    requires acts == Round(m, v.saga.state, |v.steps|, failAt) && m' == AfterRound(m, v.saga.state, |v.steps|, failAt)
    requires EnabledAll(v, acts)
    ensures Fits(m, |v.steps|)
    ensures IsMade(x, x', v, m, acts, m', DueAfterRound(m, v.saga.state, DueFor(x, v)))
  {
    hide *;
    var due := DueFor(x, v);
    OpenViewMeans(x, v, m);
    ResultRounds(m, v.saga.state, due, failAt);
    WaitingWasRequested(x, v, m);
    OneReceiptOf(v, acts);
    x' := ResultRound(x, v, m, acts[0]);
    FiresOne(x, x', v, m);
    MadeBy(x, x', v, m, acts, m', due[m.i := due[m.i] + 1]);
  }

  lemma FiresNothing(x: Service, x': Service, v: View, m: Position)
    requires m.Complete? || IsDriven(m)
    requires m.Complete? || v.saga.state.SagaRunning? ==> x'.fired == x.fired
    ensures FiresOn(x, x', v, m)
  {
  }

  lemma FiresOne(x: Service, x': Service, v: View, m: Position)
    requires (m.Forward? || m.Undoing?) && !IsDriven(m) && m.i < |v.steps|
    requires x'.fired == x.fired + multiset{v.steps[m.i].id}
    ensures FiresOn(x, x', v, m)
  {
  }

  /** An immediate run is due for every step that got a result. */
  predicate AllFired(x: Service, v: View) {
    forall j :: 0 <= j < |v.steps| && IsAnswered(v.steps[j].state) ==> v.steps[j].id in x.fired
  }

  lemma RoundKeepsFired(x: Service, x': Service, v: View, m: Position, v': View, failAt: nat)
    requires Inv(v, m) && Inv(v', AfterRound(m, v.saga.state, |v.steps|, failAt)) && FiresOn(x, x', v, m)
    requires |v'.steps| == |v.steps| && forall j :: 0 <= j < |v.steps| ==> v'.steps[j].id == v.steps[j].id
    requires (m.Complete? || v.saga.state.SagaRunning?) && !m.Undone?
    ensures AllFired(x, v) ==> AllFired(x', v')
  {
    if AllFired(x, v) {
      forall j | 0 <= j < |v'.steps| && IsAnswered(v'.steps[j].state) ensures v'.steps[j].id in x'.fired {
        LetterAt(v, m, j);
        LetterAt(v', AfterRound(m, v.saga.state, |v.steps|, failAt), j);
        hide Inv;
        assert v'.steps[j].id == v.steps[j].id;
      }
    }
  }

  /** The events of one round. */
  lemma RoundIsMade(x: Service, v: View, m: Position, failAt: nat) returns (x': Service)
    requires ServiceFits(x) && IsOpenView(x, v, m) && NeedsNoChildren(x.world.db, v, m, failAt)
    requires Fits(m, |v.steps|) && !Arrived(m, |v.steps|, failAt)
    requires EnabledAll(v, Round(m, v.saga.state, |v.steps|, failAt))
    requires IsDriven(m) && !v.saga.state.SagaRunning? ==> DueFor(x, v)[m.i] > 0
    ensures IsMade(x, x', v, m, Round(m, v.saga.state, |v.steps|, failAt),
                   AfterRound(m, v.saga.state, |v.steps|, failAt), DueAfterRound(m, v.saga.state, DueFor(x, v)))
  {
    var acts := Round(m, v.saga.state, |v.steps|, failAt);
    var m' := AfterRound(m, v.saga.state, |v.steps|, failAt);
    hide *;
    NotArrived(m, |v.steps|, failAt);
    if m.Complete? {
      x' := CompleteRoundIsMade(x, v, m, acts, m', failAt);
    } else if IsDriven(m) {
      x' := DrivenRoundIsMade(x, v, m, acts, m', failAt);
    } else {
      x' := ResultRoundIsMade(x, v, m, acts, m', failAt);
    }
  }

  lemma NotArrived(m: Position, n: nat, failAt: nat)
    requires !Arrived(m, n, failAt)
    ensures !m.Undone?
  {
  }

  lemma NotRequested(v: View, m: Position)
    requires Inv(v, m) && !m.Complete?
    ensures !v.saga.state.SagaCompensationRequested?
  {
  }

  // ----- one saga to its end -----

  /** An open saga can be brought to its end: committed, or compensated once its children are. */
  lemma {:induction false} SteeredToTheEnd(x: Service, v: View, m: Position, failAt: nat)
    returns (x': Service, v': View, m': Position)
    requires ServiceFits(x) && IsOpenView(x, v, m) && NeedsNoChildren(x.world.db, v, m, failAt)
    ensures Fits(m, |v.steps|) && m' == Destination(m, v.saga.state, |v.steps|, failAt)
    ensures Brings(x, x', v, v', m') && IsOpenView(x', v', m')
    ensures Arrived(m, |v.steps|, failAt) ==> v' == v && x' == x
    ensures m.Forward? && m'.Complete? ==> v'.saga.state.SagaCommitted?
    ensures m.Forward? && m'.Complete? && v.saga.state.SagaRunning? && AllFired(x, v) ==> AllFired(x', v')
    decreases if Fits(m, |v.steps|) then Distance(m, v.saga.state, |v.steps|) else 0
  {
    hide *;
    OpenViewMeans(x, v, m);
    if Arrived(m, |v.steps|, failAt) {
      x', v', m' := x, v, m;
      TendsNothing(x, v.saga.id);
      BringsMeans(x, x, v, v, m);
      ArrivedIsTheDestination(m, v.saga.state, |v.steps|, failAt);
      ForwardIsOnItsWay(m, |v.steps|, failAt);
    } else {
      var x1, v1, m1 := RoundIsServed(x, v, m, failAt);
      CoupledIn(v, m);
      RoundApproaches(m, v.saga.state, DueFor(x, v), IsAsked(x, v, m), failAt);
      BringsAView(x, x1, v, v1, m1);
      x', v', m' := SteeredToTheEnd(x1, v1, m1, failAt);
      BroughtFurther(x, x1, x', v, v1, v', m1, m');
      CommitsOnArrival(m1, v1.saga.state, |v.steps|, failAt);
      RunsOnForward(m, v.saga.state, |v.steps|, failAt);
    }
  }

  lemma ForwardIsOnItsWay(m: Position, n: nat, failAt: nat)
    requires Arrived(m, n, failAt)
    ensures !m.Forward?
  {
  }

  lemma RunsOnForward(m: Position, s: SagaState, n: nat, failAt: nat)
    ensures m.Forward? && AfterRound(m, s, n, failAt).Forward? ==> StateAfterRound(m, s, n) == s
  {
  }

  lemma CommitsOnArrival(m: Position, s: SagaState, n: nat, failAt: nat)
    requires Fits(m, n)
    ensures Destination(m, s, n, failAt).Complete? ==> m.Forward? || (m.Complete? && Arrived(m, n, failAt))
  {
  }

  lemma BroughtFurther(x: Service, x1: Service, x2: Service, v: View, v1: View, v2: View, m1: Position, m2: Position)
    requires Brings(x, x1, v, v1, m1) && Brings(x1, x2, v1, v2, m2)
    ensures Brings(x, x2, v, v2, m2)
  {
    hide Tends, IsView, Inv;
    TendsOn(x, x1, x2, v.saga.id);
  }

  // ----- a saga and everything below it -----

  /** Every saga of the tree below s, itself included, is open. */
  ghost predicate IsOpenBelow(x: Service, s: string) {
    forall d :: Descends(x.world.db, s, d) ==> IsOpenIn(x, d)
  }

  ghost predicate KeepsOpen(x: Service, x': Service) {
    forall s :: s in x.world.db.sagas && IsOpenIn(x, s) ==> IsOpenIn(x', s)
  }

  /** A course that marks nobody invalid, registers nobody and closes no saga. */
  ghost predicate SameFamily(x: Service, x': Service) {
    && ServesTo(x, x', true) && ServiceFits(x')
    && x'.world.db.sagas.Keys == x.world.db.sagas.Keys && KeepsSagas(x.world, x'.world) && KeepsOpen(x, x')
  }

  lemma SameFamilyOn(x: Service, x1: Service, x2: Service)
    requires SameFamily(x, x1) && SameFamily(x1, x2)
    ensures SameFamily(x, x2)
  {
    hide ServiceFits, IsOpenIn;
    ServesOn(x, x1, x2, true, true);
    hide ServesTo;
    forall s | s in x.world.db.sagas && IsOpenIn(x, s) ensures IsOpenIn(x2, s) {
      assert s in x1.world.db.sagas.Keys;
    }
  }

  lemma SameFamilyAsSelf(x: Service)
    requires ServiceFits(x)
    ensures SameFamily(x, x)
  {
    ServesToItself(x, true);
  }

  /** Bringing one open saga on closes no other. */
  lemma OthersStayOpen(x: Service, x': Service, s: string, t: string)
    requires InShape(x.world) && Tends(x, x', s) && t != s && t in x.world.db.sagas && IsOpenIn(x, t)
    ensures IsOpenIn(x', t)
  {
    TendsMeans(x, x', s);
    hide *;
    var v, m := StoredView(x.world, t);
    OutsideKeepsView(x.world.db, x'.world.db, s, v);
    OpenAt(x, v, m);
    OpenAt(x', v, m);
    SameDueOutside(x, x', s, v);
    StillAsked(x, x', v, m);
    MoreIsDue(m, v.saga.state, DueFor(x, v), DueFor(x', v), IsAsked(x, v, m), IsAsked(x', v, m));
  }

  lemma SameDueOutside(x: Service, x': Service, s: string, v: View)
    requires IsView(x.world.db, v) && v.saga.id != s
    requires forall id :: id in x.world.db.steps && x.world.db.steps[id].sagaId != s ==> Due(x', id) == Due(x, id)
    ensures DueFor(x', v) == DueFor(x, v)
  {
    hide Due;
    forall j | 0 <= j < |v.steps| ensures Due(x', v.steps[j].id) == Due(x, v.steps[j].id) {
      assert LinkedRow(v.steps[j], v.saga.id, v.saga.stepIds, j);
    }
  }

  lemma StillAsked(x: Service, x': Service, v: View, m: Position)
    requires x.world.bus <= x'.world.bus && Fits(m, |v.steps|)
    ensures IsAsked(x, v, m) ==> IsAsked(x', v, m)
  {
    if IsAsked(x, v, m) {
      var r :| r in x.world.bus && r.stepId == v.steps[m.i].id;
      assert r in x'.world.bus;
    }
  }

  lemma TendingKeepsFamily(x: Service, x': Service, v: View, v': View, m': Position)
    requires ServiceFits(x) && Brings(x, x', v, v', m') && IsOpenView(x', v', m')
    ensures SameFamily(x, x')
  {
    FitsInShape(x);
    hide *;
    BringsAView(x, x', v, v', m');
    TendsMeans(x, x', v.saga.id);
    SagasOutside(x.world.db, x'.world.db, v.saga.id);
    CoursesAreRuns(x, x', true);
    RunsForgetClean(x.world, x'.world, true, false);
    ReachesMeans(x.world, x'.world);
    RunsKeepSagas(x.world, x'.world);
    forall s | s in x.world.db.sagas && IsOpenIn(x, s) ensures IsOpenIn(x', s) {
      if s == v.saga.id {
        OpenViewIsOpen(x', v', m');
      } else {
        OthersStayOpen(x, x', v.saga.id, s);
      }
    }
    FamilyBy(x, x');
  }

  lemma SagasOutside(db: Db, db': Db, sid: string)
    requires SameOutside(db, db', sid)
    ensures db'.sagas.Keys == db.sagas.Keys
  {
  }

  lemma OpenViewIsOpen(x: Service, v: View, m: Position)
    requires IsOpenView(x, v, m)
    ensures IsOpenIn(x, v.saga.id)
  {
  }

  lemma FamilyBy(x: Service, x': Service)
    requires ServesTo(x, x', true) && ServiceFits(x') && x'.world.db.sagas.Keys == x.world.db.sagas.Keys
    requires KeepsSagas(x.world, x'.world) && forall s :: s in x.world.db.sagas && IsOpenIn(x, s) ==> IsOpenIn(x', s)
    ensures SameFamily(x, x')
  {
    hide ServesTo, ServiceFits, KeepsSagas, IsOpenIn;
  }

  lemma SamePaths(w: World, w': World, path: seq<string>)
    requires w'.db.sagas.Keys == w.db.sagas.Keys && KeepsSagas(w, w') && LeadsDown(w'.db, path)
    ensures LeadsDown(w.db, path)
  {
    assert path[0] in w'.db.sagas.Keys;
    forall k | 0 < k < |path| ensures IsOneDown(w.db, path, k) {
      assert IsOneDown(w'.db, path, k) && path[k] in w'.db.sagas.Keys;
      assert SameOrigin(w.db.sagas[path[k]], w'.db.sagas[path[k]]);
    }
  }

  lemma FamilyStaysOpen(x: Service, x': Service, s: string)
    requires SameFamily(x, x') && IsOpenBelow(x, s)
    ensures IsOpenBelow(x', s)
  {
    hide ServiceFits, ServesTo, IsOpenIn;
    forall d | Descends(x'.world.db, s, d) ensures IsOpenIn(x', d) {
      var path :| IsPathTo(x'.world.db, path, s, d);
      SamePaths(x.world, x'.world, path);
      assert IsPathTo(x.world.db, path, s, d);
      EndOfPathIsStored(x.world.db, path, s, d);
    }
  }

  lemma EndOfPathIsStored(db: Db, path: seq<string>, top: string, s: string)
    requires IsPathTo(db, path, top, s)
    ensures s in db.sagas
  {
    assert |path| > 1 ==> IsOneDown(db, path, |path| - 1);
  }

  lemma FamilyStaysCompensated(x: Service, x': Service, s: string)
    requires ServiceFits(x) && SameFamily(x, x') && IsCompensated(x.world, s)
    ensures IsCompensated(x'.world, s)
  {
    FitsInShape(x);
    hide InShape, RunsTo, ServiceFits, KeepsOpen;
    CoursesAreRuns(x, x', true);
    RunsForgetClean(x.world, x'.world, true, false);
    ReachesMeans(x.world, x'.world);
    CompensatedIsForever(x.world, x'.world, s);
  }

  ghost predicate IsCompensated(w: World, s: string) {
    s in w.db.sagas && w.db.sagas[s].state.SagaCompensated?
  }

  lemma {:induction false} PathBelow(db: Db, top: string, path: seq<string>, s: string)
    requires LeadsDown(db, path) && top in db.sagas && top != "" && db.sagas[path[0]].parentId == top
    requires path[|path| - 1] == s
    ensures Descends(db, top, s)
  {
    var longer := [top] + path;
    forall k | 0 < k < |longer| ensures IsOneDown(db, longer, k) {
      assert k > 1 ==> IsOneDown(db, path, k - 1);
    }
    assert IsPathTo(db, longer, top, s);
  }

  lemma ChildrenAreOpenBelow(x: Service, top: string, child: string)
    requires IsOpenBelow(x, top) && top in x.world.db.sagas && top != ""
    requires child in x.world.db.sagas && x.world.db.sagas[child].parentId == top
    ensures IsOpenBelow(x, child)
  {
    hide IsOpenIn;
    forall d | Descends(x.world.db, child, d) ensures IsOpenIn(x, d) {
      var path :| IsPathTo(x.world.db, path, child, d);
      PathBelow(x.world.db, top, path, d);
    }
  }

  lemma DescendsFromItself(db: Db, s: string)
    requires s in db.sagas
    ensures Descends(db, s, s)
  {
    assert IsPathTo(db, [s], s, s);
  }

  /** A saga with nothing closed below it can be compensated: first everything below it, then itself. */
  lemma {:induction false} SubtreeIsCompensated(x: Service, order: seq<string>, k: nat) returns (x': Service)
    requires ServiceFits(x) && IsBirthOrder(x.world.db, order) && k < |order| && IsOpenBelow(x, order[k])
    ensures SameFamily(x, x') && IsCompensated(x'.world, order[k])
    decreases |order| - k, 1, 0
  {
    var x1 := ChildrenAreCompensated(x, order, k, k + 1);
    hide *;
    BornIn(x, x1, order, k);
    FamilyStaysOpen(x, x1, order[k]);
    OrderSettlesChildren(x1.world, order, k);
    x' := OwnPartIsCompensated(x1, order[k]);
    SameFamilyOn(x, x1, x');
  }

  lemma BornIn(x: Service, x': Service, order: seq<string>, k: nat)
    requires IsBirthOrder(x.world.db, order) && k < |order| && SameFamily(x, x')
    ensures IsBirthOrder(x'.world.db, order) && order[k] in x.world.db.sagas && order[k] in x'.world.db.sagas
    ensures order[k] != "" && ServiceFits(x')
  {
    hide ServesTo, ServiceFits, KeepsOpen;
    SameOriginsSameOrder(x.world, x'.world, order);
    assert BornAfterItsParent(x.world.db, order, k);
  }

  /** All children of order[k] among the sagas from position k + 1 up to j are compensated. */
  ghost predicate SettledUpTo(db: Db, order: seq<string>, k: nat, j: nat)
    requires k < j <= |order|
  {
    forall l :: k < l < j && order[l] in db.sagas && db.sagas[order[l]].parentId == order[k] ==>
      db.sagas[order[l]].state.SagaCompensated?
  }

  lemma OrderSettlesChildren(w: World, order: seq<string>, k: nat)
    requires IsBirthOrder(w.db, order) && k < |order| && SettledUpTo(w.db, order, k, |order|)
    ensures ChildrenSettled(w.db, order[k])
  {
    forall s | s in w.db.sagas && w.db.sagas[s].parentId == order[k] ensures w.db.sagas[s].state.SagaCompensated? {
      var l :| 0 <= l < |order| && order[l] == s;
      assert BornAfterItsParent(w.db, order, l);
      assert order[k] in order && order[k] != "";
      var j :| 0 <= j < l && order[..l][j] == order[k];
      assert order[j] == order[k];
    }
  }

  lemma {:induction false} ChildrenAreCompensated(x: Service, order: seq<string>, k: nat, j: nat) returns (x': Service)
    requires ServiceFits(x) && IsBirthOrder(x.world.db, order) && k < j <= |order| && IsOpenBelow(x, order[k])
    requires SettledUpTo(x.world.db, order, k, j)
    ensures SameFamily(x, x') && SettledUpTo(x'.world.db, order, k, |order|)
    decreases |order| - k, 0, |order| - j
  {
    hide ServiceFits, IsOpenBelow, SameFamily, IsBirthOrder;
    SameFamilyAsSelf(x);
    x' := x;
    if j < |order| {
      BornIn(x, x, order, k);
      BornIn(x, x, order, j);
      if x.world.db.sagas[order[j]].parentId == order[k] {
        ChildrenAreOpenBelow(x, order[k], order[j]);
        x' := SubtreeIsCompensated(x, order, j);
        BornIn(x, x', order, j);
        FamilyStaysOpen(x, x', order[k]);
        SettledStays(x, x', order, k, j);
      }
      var x1 := x';
      x' := ChildrenAreCompensated(x1, order, k, j + 1);
      SameFamilyOn(x, x1, x');
    }
  }

  lemma SettledStays(x: Service, x': Service, order: seq<string>, k: nat, j: nat)
    requires ServiceFits(x) && SameFamily(x, x') && k < j < |order| && SettledUpTo(x.world.db, order, k, j)
    requires IsCompensated(x'.world, order[j])
    ensures SettledUpTo(x'.world.db, order, k, j + 1)
  {
    hide ServiceFits, ServesTo, KeepsOpen;
    forall l | k < l < j + 1 && order[l] in x'.world.db.sagas && x'.world.db.sagas[order[l]].parentId == order[k]
      ensures x'.world.db.sagas[order[l]].state.SagaCompensated?
    {
      if l < j {
        assert order[l] in x'.world.db.sagas.Keys;
        assert SameOrigin(x.world.db.sagas[order[l]], x'.world.db.sagas[order[l]]);
        FamilyStaysCompensated(x, x', order[l]);
      }
    }
  }

  /** An open saga whose children are compensated can be compensated. */
  lemma OwnPartIsCompensated(x: Service, s: string) returns (x': Service)
    requires ServiceFits(x) && s in x.world.db.sagas && IsOpenBelow(x, s) && ChildrenSettled(x.world.db, s)
    ensures SameFamily(x, x') && IsCompensated(x'.world, s)
  {
    DescendsFromItself(x.world.db, s);
    assert IsOpenIn(x, s);
    FitsInShape(x);
    hide *;
    var v, m := StoredView(x.world, s);
    OpenAt(x, v, m);
    OpenViewBy(x, v, m);
    ChildrenOrCommit(x, v, m, 0);
    var v', m';
    x', v', m' := SteeredToTheEnd(x, v, m, 0);
    TendingKeepsFamily(x, x', v, v', m');
    CompensatedAtLast(m, v.saga.state, |v.steps|);
    OpenViewMeans(x', v', m');
    BringsAView(x, x', v, v', m');
    CompensatedBy(x'.world, v');
  }

  lemma OpenViewBy(x: Service, v: View, m: Position)
    requires IsView(x.world.db, v) && Inv(v, m) && Fits(m, |v.steps|)
    requires IsOpen(m, v.saga.state, DueFor(x, v), IsAsked(x, v, m))
    ensures IsOpenView(x, v, m)
  {
  }

  lemma CompensatedAtLast(m: Position, s: SagaState, n: nat)
    requires Fits(m, n)
    ensures Destination(m, s, n, 0).Undone?
  {
  }

  lemma CompensatedBy(w: World, v: View)
    requires IsView(w.db, v) && v.saga.state.SagaCompensated?
    ensures IsCompensated(w, v.saga.id)
  {
  }

  // ----- which sagas can be compensated -----

  ghost predicate CanBeCompensated(x: Service, s: string) {
    exists x' :: ServesTo(x, x', false) && IsCompensated(x'.world, s)
  }

  /** A service that comes about fits, and its sagas can be listed parents first. */
  lemma ServicesComeAbout(x: Service) returns (order: seq<string>)
    requires ServesTo(EmptyService(), x, false)
    ensures ServiceFits(x) && IsBirthOrder(x.world.db, order)
  {
    EmptyServiceFits();
    FitsInShape(EmptyService());
    CoursesKeepFits(EmptyService(), x, false);
    CoursesAreRuns(EmptyService(), x, false);
    ReachesMeans(EmptyWorld(), x.world);
    hide ServiceFits, InShape, IsBirthOrder, Reaches;
    order := ReachableStores(x.world);
  }

  /**
   * The drivers can still come to compensate a saga if and only if every saga below it, itself
   * included, is open.
   */
  lemma CompensableIffOpenBelow(x: Service, s: string)
    requires ServesTo(EmptyService(), x, false) && s in x.world.db.sagas
    ensures CanBeCompensated(x, s) <==> IsOpenBelow(x, s)
  {
    hide ServiceFits, IsBirthOrder, IsOpenBelow, ServesTo, IsCompensated;
    var order := ServicesComeAbout(x);
    if IsOpenBelow(x, s) {
      var k := BirthOf(x.world.db, order, s);
      var x' := SubtreeIsCompensated(x, order, k);
      FamilyIsServed(x, x');
    }
    if CanBeCompensated(x, s) {
      var x' :| ServesTo(x, x', false) && IsCompensated(x'.world, s);
      CompensationNeedsTheOpen(x, x', s);
    }
  }

  lemma FamilyIsServed(x: Service, x': Service)
    requires SameFamily(x, x')
    ensures ServesTo(x, x', false) && ServiceFits(x')
  {
    hide ServiceFits, KeepsOpen;
    ServingForgetsClean(x, x', true, false);
  }

  lemma BirthOf(db: Db, order: seq<string>, s: string) returns (k: nat)
    requires IsBirthOrder(db, order) && s in db.sagas
    ensures k < |order| && order[k] == s
  {
    k :| 0 <= k < |order| && order[k] == s;
  }

  lemma CompensationNeedsTheOpen(x: Service, x': Service, s: string)
    requires ServiceFits(x) && ServesTo(x, x', false) && IsCompensated(x'.world, s)
    ensures IsOpenBelow(x, s)
  {
    FitsInShape(x);
    hide ServiceFits, InShape, IsOpenIn, ServesTo;
    forall d | Descends(x.world.db, s, d) ensures IsOpenIn(x, d) {
      hide *;
      DescendantsWereOpen(x, x', s, d);
    }
  }

  lemma DescendantsWereOpen(x: Service, x': Service, s: string, d: string)
    requires ServiceFits(x) && InShape(x.world) && ServesTo(x, x', false)
    requires IsCompensated(x'.world, s) && Descends(x.world.db, s, d)
    ensures IsOpenIn(x, d)
  {
    hide InShape, RunsTo, ServesTo, ServiceFits, IsOpenIn, LeadsDown;
    CoursesAreRuns(x, x', false);
    ReachesMeans(x.world, x'.world);
    RunsKeepSagas(x.world, x'.world);
    var path :| IsPathTo(x.world.db, path, s, d);
    EndOfPathIsStored(x.world.db, path, s, d);
    PathsRemain(x.world, x'.world, path);
    CompensatedPath(x'.world, path, s, d);
    CoursesKeepFits(x, x', false);
    EndedIsOpen(x', d);
    CoursesOpenNothing(x, x', false, d);
  }

  lemma CompensatedPath(w: World, path: seq<string>, s: string, d: string)
    requires InShape(w) && IsPathTo(w.db, path, s, d) && IsCompensated(w, s)
    ensures IsCompensated(w, d)
  {
    hide InShape;
    CompensatedTrees(w, path, |path| - 1);
  }

  lemma PathsRemain(w: World, w': World, path: seq<string>)
    requires KeepsSagas(w, w') && LeadsDown(w.db, path)
    ensures LeadsDown(w'.db, path)
  {
    assert path[0] in w'.db.sagas;
    forall k | 0 < k < |path| ensures IsOneDown(w'.db, path, k) {
      assert IsOneDown(w.db, path, k);
      assert SameOrigin(w.db.sagas[path[k]], w'.db.sagas[path[k]]);
    }
  }

  /** A saga that is committed or compensated is open. */
  lemma EndedIsOpen(x: Service, s: string)
    requires ServiceFits(x) && s in x.world.db.sagas
    requires x.world.db.sagas[s].state.SagaCommitted? || x.world.db.sagas[s].state.SagaCompensated?
    ensures IsOpenIn(x, s)
  {
    hide *;
    FitsInShape(x);
    var v, m := StoredView(x.world, s);
    OpenAt(x, v, m);
    CoupledIn(v, m);
    EndsAreOpen(m, v.saga.state, DueFor(x, v), IsAsked(x, v, m));
  }

  lemma EndsAreOpen(m: Position, s: SagaState, due: seq<nat>, asked: bool)
    requires Fits(m, |due|) && Coupled(s, m) && (s.SagaCommitted? || s.SagaCompensated?)
    ensures IsOpen(m, s, due, asked)
  {
  }

  // ----- running sagas -----

  /** Where a running saga ends when nothing else goes wrong. */
  function EndOf(m: Position): SagaState {
    match m
    case Forward(_, ph) => if ph.Failed? then SagaCompensated else SagaCommitted
    case Undoing(_, _, ph) => if ph.UndoFailed? then SagaBlocked else SagaCompensated
    case Complete => SagaCommitted
    case Undone(_) => SagaCompensated
  }

  ghost predicate CanEndAs(x: Service, s: string, end: SagaState) {
    exists x' :: ServesTo(x, x', false) && IsIn(x'.world, s, end)
  }

  ghost predicate IsIn(w: World, s: string, state: SagaState) {
    s in w.db.sagas && w.db.sagas[s].state == state
  }

  /**
   * The drivers can bring a running saga to its end: to be committed, while nothing has failed, if and
   * only if it is open, that is unless its active step was left running without a request; to be
   * blocked always, once a compensation has failed; and otherwise to be compensated if and only if
   * every saga below it is open.
   */
  lemma RunningSagasCanEnd(x: Service, v: View, m: Position)
    requires ServesTo(EmptyService(), x, false)
    requires IsView(x.world.db, v) && Inv(v, m) && v.saga.state.SagaRunning?
    ensures CanEndAs(x, v.saga.id, EndOf(m)) <==>
      match EndOf(m)
      case SagaCommitted => m.phase.Running? ==> IsRequested(x.world.bus, v.steps[m.i].id)
      case SagaCompensated => IsOpenBelow(x, v.saga.id)
      case _ => true
  {
    RunningPositions(v, m);
    PositionFits(v, m);
    hide *;
    var order := ServicesComeAbout(x);
    ViewIsStored(x.world.db, v);
    if EndOf(m).SagaCompensated? {
      CompensableIffOpenBelow(x, v.saga.id);
      CompensatedIsAnEnd(x, v.saga.id);
    } else if EndOf(m).SagaCommitted? {
      CommittableIffRequested(x, v, m);
    } else {
      BlockableAlways(x, v, m);
    }
  }

  lemma RunningPositions(v: View, m: Position)
    requires Inv(v, m) && v.saga.state.SagaRunning?
    ensures EndOf(m).SagaCommitted? ==> m.Forward? && !m.phase.Failed? && m.i < |v.steps|
    ensures EndOf(m).SagaBlocked? ==> m.Undoing? && m.undo.UndoFailed? && m.i < |v.steps|
    ensures EndOf(m).SagaCommitted? || EndOf(m).SagaCompensated? || EndOf(m).SagaBlocked?
  {
  }

  lemma CompensatedIsAnEnd(x: Service, s: string)
    ensures CanBeCompensated(x, s) <==> CanEndAs(x, s, SagaCompensated)
  {
    hide ServesTo;
    if x' :| ServesTo(x, x', false) && IsCompensated(x'.world, s) {
      assert IsIn(x'.world, s, SagaCompensated);
    }
    if x' :| ServesTo(x, x', false) && IsIn(x'.world, s, SagaCompensated) {
      assert IsCompensated(x'.world, s);
    }
  }

  lemma CommittableIffRequested(x: Service, v: View, m: Position)
    requires ServiceFits(x) && IsView(x.world.db, v) && Inv(v, m) && v.saga.state.SagaRunning?
    requires m.Forward? && !m.phase.Failed? && m.i < |v.steps|
    ensures CanEndAs(x, v.saga.id, SagaCommitted) <==>
      (m.phase.Running? ==> IsRequested(x.world.bus, v.steps[m.i].id))
  {
    ForwardIsOpen(x, v, m);
    hide *;
    OpenAt(x, v, m);
    ViewIsStored(x.world.db, v);
    if IsOpen(m, v.saga.state, DueFor(x, v), IsAsked(x, v, m)) {
      OpenViewBy(x, v, m);
      CommitNeedsNoChildren(x, v, m);
      var x', v', m' := SteeredToTheEnd(x, v, m, |v.steps|);
      CommitIsTheDestination(m, v.saga.state, |v.steps|);
      BringsAView(x, x', v, v', m');
      TendsMeans(x, x', v.saga.id);
      ServingForgetsClean(x, x', true, false);
      EndsIn(x, x', v', SagaCommitted);
    }
    if CanEndAs(x, v.saga.id, SagaCommitted) {
      CommittedWasOpen(x, v.saga.id);
    }
  }

  lemma ForwardIsOpen(x: Service, v: View, m: Position)
    requires m.Forward? && Fits(m, |v.steps|) && v.saga.state.SagaRunning?
    ensures IsOpen(m, v.saga.state, DueFor(x, v), IsAsked(x, v, m)) <==>
      (m.phase.Running? ==> IsRequested(x.world.bus, v.steps[m.i].id))
  {
    hide IsRequested, HasAll;
  }

  lemma CommitNeedsNoChildren(x: Service, v: View, m: Position)
    requires m.Forward? && !m.phase.Failed? && v.saga.state.SagaRunning?
    ensures NeedsNoChildren(x.world.db, v, m, |v.steps|)
  {
  }

  lemma CommitIsTheDestination(m: Position, s: SagaState, n: nat)
    requires m.Forward? && Fits(m, n) && !m.phase.Failed? && s.SagaRunning?
    ensures Destination(m, s, n, n).Complete?
  {
  }

  lemma EndsIn(x: Service, x': Service, v': View, end: SagaState)
    requires ServesTo(x, x', false) && IsView(x'.world.db, v') && v'.saga.state == end
    ensures CanEndAs(x, v'.saga.id, end)
  {
    hide ServesTo;
    ViewIsStored(x'.world.db, v');
    assert IsIn(x'.world, v'.saga.id, end);
  }

  lemma CommittedWasOpen(x: Service, s: string)
    requires ServiceFits(x) && s in x.world.db.sagas && CanEndAs(x, s, SagaCommitted)
    ensures IsOpenIn(x, s)
  {
    hide ServiceFits, ServesTo, IsOpenIn;
    var x' :| ServesTo(x, x', false) && IsIn(x'.world, s, SagaCommitted);
    CoursesKeepFits(x, x', false);
    EndedIsOpen(x', s);
    CoursesOpenNothing(x, x', false, s);
  }

  lemma BlockableAlways(x: Service, v: View, m: Position)
    requires ServiceFits(x) && IsView(x.world.db, v) && Inv(v, m) && v.saga.state.SagaRunning?
    requires m.Undoing? && m.undo.UndoFailed? && m.i < |v.steps|
    ensures CanEndAs(x, v.saga.id, SagaBlocked)
  {
    hide *;
    var acts := [Block(m.i)];
    BlockingIsPossible(v, m);
    var x' := DrivenRound(x, v, m, acts, m.i);
    BringsAView(x, x', v, ApplyAll(v, acts), NextAll(m, acts, |v.steps|));
    TendsMeans(x, x', v.saga.id);
    ServingForgetsClean(x, x', true, false);
    EndsIn(x, x', ApplyAll(v, acts), SagaBlocked);
  }

  lemma BlockingIsPossible(v: View, m: Position)
    requires Inv(v, m) && m.Undoing? && m.undo.UndoFailed? && v.saga.state.SagaRunning? && m.i < |v.steps|
    ensures var acts := [Block(m.i)];
      && EnabledAll(v, acts) && ApplyAll(v, acts).saga.state.SagaBlocked?
      && AreActionsOn(acts, m.i) && !Invalidates(acts) && NoneIsIdle(acts) && !StartsCompensation(acts)
      && IsOneRun(acts, m.i)
    ensures IsWorkedOn(v.steps[m.i].state) && IsPicked(v.saga.state, v.steps[m.i].state)
  {
    LetterAt(v, m, m.i);
    OneAction(v, Block(m.i));
  }

  // ----- new sagas -----

  /**
   * From the moment a saga is stored, whatever step is chosen to fail, the drivers can compensate the
   * saga completely: exactly the steps up to that one were started, and they are undone from it back.
   */
  lemma AnyFailureCanBeUndone(x0: Service, x1: Service, v: View, k: nat) returns (x2: Service, acts: seq<Action>)
    requires ServiceFits(x0) && Happens(x0, Submit(v), x1) && k < |v.steps|
    ensures ServesTo(x1, x2, true) && IsCompensated(x2.world, v.saga.id)
    ensures EnabledAll(v, acts) && IsView(x2.world.db, ApplyAll(v, acts))
    ensures StartOrder(acts) == Ascending(k + 1) && UndoOrder(acts) == Reverse(Ascending(k + 1))
  {
    SubmitMeans(x0, x1, v);
    EventKeepsFits(x0, Submit(v), x1);
    FitsInShape(x0);
    FitsInShape(x1);
    hide *;
    RegistrationKeepsShape(x0.world, x1.world, v);
    NewOnes(x0.world, x1.world, v);
    NewSagasFit(v);
    NewSagasHaveNoChildren(x0.world, x1.world, v);
    NewSagasAreOpen(x1, v);
    ChildrenOrCommit(x1, v, Forward(0, Candidate), k);
    var v', m';
    x2, v', m' := SteeredToTheEnd(x1, v, Forward(0, Candidate), k);
    NewSagasGetThere(v, k);
    BringsAView(x1, x2, v, v', m');
    TendsMeans(x1, x2, v.saga.id);
    OpenViewMeans(x2, v', m');
    CompensatedBy(x2.world, v');
    CoursesAreRuns(x1, x2, true);
    acts := RunsProject(x1.world, x2.world, v, true);
    RunKeepsIdentity(v, acts);
    ViewIsUnique(x2.world.db, v', ApplyAll(v, acts));
    LastInFirstOut(v, acts);
    UndoneUpTo(v', k);
    ExactlyStarted(v', StartOrder(acts), UndoOrder(acts), k);
  }

  lemma SubmitMeans(x: Service, x': Service, v: View)
    requires Happens(x, Submit(v), x')
    ensures Registers(x.world, x'.world, v)
  {
    hide Registers;
  }

  lemma NewSagasAreOpen(x: Service, v: View)
    requires IsView(x.world.db, v) && Inv(v, Forward(0, Candidate)) && IsNew(v)
    ensures IsOpenView(x, v, Forward(0, Candidate))
  {
  }

  lemma NewSagasGetThere(v: View, k: nat)
    requires IsNew(v) && k < |v.steps|
    ensures Destination(Forward(0, Candidate), v.saga.state, |v.steps|, k) == Undone(k)
  {
  }

  lemma UndoneUpTo(v: View, k: nat)
    requires Inv(v, Undone(k))
    ensures k < |v.steps| && forall j :: 0 <= j < |v.steps| ==> (v.steps[j].state.CompensationDone? <==> j <= k)
  {
  }

  lemma ExactlyStarted(v: View, started: seq<nat>, undone: seq<nat>, k: nat)
    requires k < |v.steps| && forall j :: 0 <= j < |v.steps| ==> (v.steps[j].state.CompensationDone? <==> j <= k)
    requires forall j :: 0 <= j < |v.steps| ==> (v.steps[j].state.CompensationDone? <==> j in undone)
    requires started == Ascending(|started|) && |started| <= |v.steps| && undone == Reverse(started)
    ensures started == Ascending(k + 1) && undone == Reverse(Ascending(k + 1))
  {
    InReverse(|started|, k);
    InReverse(|started|, k + 1);
    assert started == Ascending(|started|);
  }

  lemma InReverse(l: nat, j: nat)
    ensures j in Reverse(Ascending(l)) <==> j < l
  {
    if j < l {
      assert Reverse(Ascending(l))[l - 1 - j] == j;
    }
  }

  lemma NewSagasHaveNoChildren(w: World, w': World, v: View)
    requires InShape(w) && Registers(w, w', v)
    ensures ChildrenSettled(w'.db, v.saga.id)
  {
    DbInvAt(w.db, w.bus);
    hide SagaFits;
    forall s | s in w.db.sagas ensures w.db.sagas[s].parentId != v.saga.id {
      assert ChildKeepsStep(w.db, w.db.sagas[s]);
    }
  }

  // ----- what a lost child holds up -----

  /**
   * A saga that the drivers have lost is never compensated, and the step that spawned it never begins
   * to be: its parent waits there for good.
   */
  lemma LostChildrenHoldTheirStep(x: Service, x': Service, c: string)
    requires ServiceFits(x) && ServesTo(x, x', false) && c in x.world.db.sagas && !IsOpenIn(x, c)
    ensures !IsCompensated(x'.world, c) && !IsCommitted(x'.world, c)
    ensures c in x'.world.db.sagas && x'.world.db.sagas[c].parentId == x.world.db.sagas[c].parentId
    ensures x.world.db.sagas[c].parentId != "" ==>
      && x.world.db.sagas[c].parentStepId in x'.world.db.steps
      && !UndoStarted(x'.world.db.steps[x.world.db.sagas[c].parentStepId].state)
  {
    FitsInShape(x);
    CoursesAreRuns(x, x', false);
    CoursesKeepFits(x, x', false);
    ReachesMeans(x.world, x'.world);
    RunsKeepSagas(x.world, x'.world);
    assert SameOrigin(x.world.db.sagas[c], x'.world.db.sagas[c]);
    LostForGood(x, x', c);
    hide ServesTo, ServiceFits, IsOpenIn, RunsTo, KeepsSagas;
    UncompensatedHoldsStep(x'.world, c);
  }

  ghost predicate IsCommitted(w: World, s: string) {
    s in w.db.sagas && w.db.sagas[s].state.SagaCommitted?
  }

  lemma LostForGood(x: Service, x': Service, c: string)
    requires ServiceFits(x) && ServesTo(x, x', false) && c in x.world.db.sagas && !IsOpenIn(x, c)
    ensures !IsCompensated(x'.world, c) && !IsCommitted(x'.world, c)
  {
    hide ServesTo, ServiceFits, IsOpenIn;
    if IsCompensated(x'.world, c) || IsCommitted(x'.world, c) {
      CoursesKeepFits(x, x', false);
      EndedIsOpen(x', c);
      CoursesOpenNothing(x, x', false, c);
      assert false;
    }
  }

  lemma UncompensatedHoldsStep(w: World, c: string)
    requires InShape(w) && c in w.db.sagas && !w.db.sagas[c].state.SagaCompensated?
    ensures w.db.sagas[c].parentId != "" ==>
      w.db.sagas[c].parentStepId in w.db.steps && !UndoStarted(w.db.steps[w.db.sagas[c].parentStepId].state)
  {
    DbInvAt(w.db, w.bus);
    hide InShape, DbInv, SagaFits;
    assert ChildKeepsStep(w.db, w.db.sagas[c]);
  }
}
