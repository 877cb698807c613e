/**
 * Locks kept by a shared cache, as a state machine over the requests of any number of clients: a key
 * is locked while it is present, it disappears when its time to live is over, and unlocking deletes it
 * whoever set it. Each client locks the keys it wants one by one, in ascending order, and gives them
 * back one by one.
 *
 * The cache knows only the keys and their times. The rest of the state is what clients believe, and
 * counters of what can go wrong: locks that ran out, unlocks of keys the client did not hold (wild),
 * locks deleted by another client's unlock (stolen), and requests reported as failed (faults).
 */
module LockProtocol {
  import opened SortedKeys

  datatype Expiry = Never | At(millis: int)

  datatype Lock = Lock(owner: nat, until: Expiry)

  /** The keys a client still wants, in order, and the keys it believes to hold. */
  datatype Client = Client(next: seq<string>, held: set<string>)

  datatype State = State(
    now: int,
    locks: map<string, Lock>,
    clients: map<nat, Client>,
    expired: set<nat>,
    ranOut: nat,
    wild: nat,
    stolen: nat,
    faults: nat)

  datatype Step =
    | Begin(c: nat, wanted: seq<string>)
    | Take(c: nat, ttlSec: nat)
    | TakeUnseen(c: nat, ttlSec: nat)
    | Fail(c: nat)
    | Unlock(c: nat, key: string)
    | UnlockUnseen(c: nat, key: string)
    | Delete(c: nat, key: string)
    | End(c: nat)
    | Tick(millis: nat)

  predicate IsOver(until: Expiry, now: int) {
    until.At? && until.millis <= now
  }

  function TimeToLive(now: int, ttlSec: nat): Expiry {
    if ttlSec == 0 then Never else At(now + 1000 * ttlSec)
  }

  predicate Believes(s: State, c: nat, key: string) {
    c in s.clients && key in s.clients[c].held
  }

  predicate Owns(s: State, c: nat, key: string) {
    key in s.locks && s.locks[key].owner == c
  }

  predicate CanStep(s: State, step: Step) {
    match step
    case Begin(c, wanted) => c !in s.clients && IsAscending(wanted)
    case Take(c, _) => c in s.clients && s.clients[c].next != [] && s.clients[c].next[0] !in s.locks
    case TakeUnseen(c, _) => c in s.clients && s.clients[c].next != [] && s.clients[c].next[0] !in s.locks
    case Fail(_) => true
    case Unlock(c, key) => Believes(s, c, key)
    case UnlockUnseen(c, key) => Believes(s, c, key)
    case Delete(c, key) => !Believes(s, c, key)
    case End(c) => c in s.clients && s.clients[c].held == {}
    case Tick(_) => true
  }

  function Without(s: State, key: string): map<string, Lock> {
    map k | k in s.locks && k != key :: s.locks[k]
  }

  /** One more lock stolen if the key is another client's. */
  function StolenBy(s: State, c: nat, key: string): nat {
    s.stolen + (if key in s.locks && s.locks[key].owner != c then 1 else 0)
  }

  /** The client stops wanting more and no longer believes to hold the key. */
  function Dropping(s: State, c: nat, key: string): map<nat, Client>
    requires c in s.clients
  {
    s.clients[c := Client([], s.clients[c].held - {key})]
  }

  function Do(s: State, step: Step): State
    requires CanStep(s, step)
  {
    match step
    case Begin(c, wanted) => s.(clients := s.clients[c := Client(wanted, {})])
    case Take(c, ttlSec) =>
      var key := s.clients[c].next[0];
      s.(locks := s.locks[key := Lock(c, TimeToLive(s.now, ttlSec))],
         clients := s.clients[c := Client(s.clients[c].next[1..], s.clients[c].held + {key})])
    case TakeUnseen(c, ttlSec) =>
      s.(locks := s.locks[s.clients[c].next[0] := Lock(c, TimeToLive(s.now, ttlSec))], faults := s.faults + 1)
    case Fail(_) => s.(faults := s.faults + 1)
    case Unlock(c, key) =>
      s.(locks := Without(s, key), clients := Dropping(s, c, key), stolen := StolenBy(s, c, key))
    case UnlockUnseen(c, key) => s.(clients := Dropping(s, c, key), faults := s.faults + 1)
    case Delete(c, key) => s.(locks := Without(s, key), stolen := StolenBy(s, c, key), wild := s.wild + 1)
    case End(c) => s.(clients := map d | d in s.clients && d != c :: s.clients[d])
    case Tick(millis) =>
      var later := s.now + millis;
      s.(now := later,
         locks := map k | k in s.locks && !IsOver(s.locks[k].until, later) :: s.locks[k],
         expired := s.expired + (set k | k in s.locks && IsOver(s.locks[k].until, later) :: s.locks[k].owner),
         ranOut := s.ranOut + |set k | k in s.locks && IsOver(s.locks[k].until, later)|)
  }

  // ----- runs -----

  predicate CanRun(s: State, steps: seq<Step>)
    decreases |steps|
  {
    steps == [] || (CanStep(s, steps[0]) && CanRun(Do(s, steps[0]), steps[1..]))
  }

  function Run(s: State, steps: seq<Step>): State
    requires CanRun(s, steps)
    decreases |steps|
  {
    if steps == [] then s else Run(Do(s, steps[0]), steps[1..])
  }

  /** The steps lead from one state to the other. */
  predicate Leads(s: State, steps: seq<Step>, s': State) {
    CanRun(s, steps) && Run(s, steps) == s'
  }

  lemma {:induction false} LeadsOn(s: State, first: seq<Step>, s1: State, second: seq<Step>, s2: State)
    requires Leads(s, first, s1) && Leads(s1, second, s2)
    ensures Leads(s, first + second, s2)
    decreases |first|
  {
    hide CanStep, Do;
    if first == [] {
      assert first + second == second;
    } else {
      LeadsOn(Do(s, first[0]), first[1..], s1, second, s2);
      assert (first + second)[1..] == first[1..] + second;
    }
  }

  lemma LeadsByOne(s: State, step: Step)
    requires CanStep(s, step)
    ensures Leads(s, [step], Do(s, step))
  {
    assert CanRun(Do(s, step), []);
  }

  function Start(): State {
    State(0, map[], map[], {}, 0, 0, 0, 0)
  }

  // ----- what clients can rely on -----

  /** Every client owns what it believes to hold. */
  ghost predicate Sound(s: State) {
    forall c, key :: Believes(s, c, key) ==> Owns(s, c, key)
  }

  /** The step takes a believed lock away: it runs out, or somebody who does not hold the key deletes it. */
  predicate TakesAway(s: State, step: Step) {
    || (step.Tick? && exists k ::
         k in s.locks && IsOver(s.locks[k].until, s.now + step.millis) && Believes(s, s.locks[k].owner, k))
    || (step.Delete? && step.key in s.locks && Believes(s, s.locks[step.key].owner, step.key))
  }

  /** Exactly when exclusion breaks: there is no other way for a client to believe in a lock it does not own. */
  lemma ExclusionBreaksOnlyByTakingAway(s: State, step: Step)
    requires Sound(s) && CanStep(s, step)
    ensures Sound(Do(s, step)) <==> !TakesAway(s, step)
  {
    var t := Do(s, step);
    if TakesAway(s, step) {
      var k :| k in s.locks && k !in t.locks && Believes(s, s.locks[k].owner, k);
      assert Believes(t, s.locks[k].owner, k) && !Owns(t, s.locks[k].owner, k);
    } else {
      forall c, key | Believes(t, c, key) ensures Owns(t, c, key) {
        assert Believes(s, c, key) || (step.Take? && c == step.c && key == s.clients[c].next[0]);
      }
    }
  }

  /** In a sound state a client that gives back its keys deletes nobody else's lock. */
  lemma UnlockingTouchesOnlyOwnKeys(s: State, c: nat, key: string, k: string)
    requires Sound(s) && CanStep(s, Unlock(c, key)) && k in s.locks
    ensures Do(s, Unlock(c, key)).stolen == s.stolen
    ensures k in Do(s, Unlock(c, key)).locks <==> !(k == key && s.locks[k].owner == c)
  {
    assert Believes(s, c, key);
  }

  /** What holds from a state to a later one, whatever happened in between. */
  ghost predicate Safe(s: State, t: State) {
    && s.now <= t.now && s.expired <= t.expired
    && s.ranOut <= t.ranOut && s.wild <= t.wild && s.stolen <= t.stolen && s.faults <= t.faults
    && (Sound(s) && t.ranOut == s.ranOut && t.wild == s.wild ==> Sound(t) && t.stolen == s.stolen)
  }

  lemma StepsAreSafe(s: State, step: Step)
    requires CanStep(s, step)
    ensures Safe(s, Do(s, step))
  {
    var t := Do(s, step);
    if Sound(s) && t.ranOut == s.ranOut && t.wild == s.wild {
      if step.Tick? {
        NothingRanOut(s, step.millis);
      }
      ExclusionBreaksOnlyByTakingAway(s, step);
      if step.Unlock? {
        assert Owns(s, step.c, step.key);
      }
    }
  }

  lemma NothingRanOut(s: State, millis: nat)
    requires Do(s, Tick(millis)).ranOut == s.ranOut
    ensures forall k :: k in s.locks ==> !IsOver(s.locks[k].until, s.now + millis)
  {
    var gone := set k | k in s.locks && IsOver(s.locks[k].until, s.now + millis);
    assert |gone| == 0;
    forall k | k in s.locks ensures !IsOver(s.locks[k].until, s.now + millis) {
      assert k !in gone;
    }
  }

  lemma SafeOn(s: State, t: State, u: State)
    requires Safe(s, t) && Safe(t, u)
    ensures Safe(s, u)
  {
    hide Sound;
  }

  lemma {:induction false} RunsAreSafe(s: State, steps: seq<Step>)
    requires CanRun(s, steps)
    ensures Safe(s, Run(s, steps))
    decreases |steps|
  {
    hide CanStep, Do, Sound;
    if steps != [] {
      StepsAreSafe(s, steps[0]);
      RunsAreSafe(Do(s, steps[0]), steps[1..]);
      SafeOn(s, Do(s, steps[0]), Run(s, steps));
    }
  }

  /**
   * As long as no lock has run out and nobody unlocked a key it did not hold, no two clients
   * believe to hold one key.
   */
  lemma LocksExclude(steps: seq<Step>, c: nat, d: nat, key: string)
    requires CanRun(Start(), steps)
    requires Run(Start(), steps).ranOut == 0 && Run(Start(), steps).wild == 0
    ensures Believes(Run(Start(), steps), c, key) && Believes(Run(Start(), steps), d, key) ==> c == d
    ensures Run(Start(), steps).stolen == 0
  {
    RunsAreSafe(Start(), steps);
    var s := Run(Start(), steps);
    assert Believes(s, c, key) ==> Owns(s, c, key);
    assert Believes(s, d, key) ==> Owns(s, d, key);
  }

  // ----- no deadlock -----

  predicate IsWaiting(s: State, c: nat) {
    c in s.clients && s.clients[c].next != [] && s.clients[c].next[0] in s.locks
  }

  function NextKey(s: State, c: nat): string
    requires c in s.clients && s.clients[c].next != []
  {
    s.clients[c].next[0]
  }

  /** Clients want their keys in ascending order, above all they hold. */
  ghost predicate Ordered(s: State) {
    && (forall c :: c in s.clients ==> IsAscending(s.clients[c].next))
    && (forall c, key, j :: Believes(s, c, key) && 0 <= j < |s.clients[c].next| ==> Less(key, s.clients[c].next[j]))
  }

  /** No key is locked that its owner does not believe to hold. */
  ghost predicate Accounted(s: State) {
    forall key :: key in s.locks ==> Believes(s, s.locks[key].owner, key)
  }

  lemma StepsKeepOrdered(s: State, step: Step)
    requires Ordered(s) && CanStep(s, step)
    ensures Ordered(Do(s, step))
  {
    hide Less;
    var t := Do(s, step);
    forall c | c in t.clients ensures IsAscending(t.clients[c].next) {
      assert step.Begin? || c in s.clients;
    }
    forall c, key, j | Believes(t, c, key) && 0 <= j < |t.clients[c].next| ensures Less(key, t.clients[c].next[j]) {
      assert c in s.clients;
      if step.Take? && step.c == c {
        assert t.clients[c].next[j] == s.clients[c].next[j + 1];
        assert key == s.clients[c].next[0] || Believes(s, c, key);
      } else {
        assert Believes(s, c, key);
      }
    }
  }

  lemma StepsKeepAccounted(s: State, step: Step)
    requires Accounted(s) && CanStep(s, step) && Do(s, step).faults == s.faults
    ensures Accounted(Do(s, step))
  {
  }

  /** Order and accounting do not depend on time: they survive locks that run out. */
  lemma {:induction false} RunsKeepOrder(s: State, steps: seq<Step>)
    requires Ordered(s) && CanRun(s, steps)
    ensures Ordered(Run(s, steps)) && Run(s, steps).faults >= s.faults
    ensures Accounted(s) && Run(s, steps).faults == s.faults ==> Accounted(Run(s, steps))
    decreases |steps|
  {
    hide CanStep, Do, Ordered, Accounted;
    if steps != [] {
      StepsAreSafe(s, steps[0]);
      StepsKeepOrdered(s, steps[0]);
      RunsKeepOrder(Do(s, steps[0]), steps[1..]);
      if Accounted(s) && Do(s, steps[0]).faults == s.faults {
        StepsKeepAccounted(s, steps[0]);
      }
    }
  }

  /** c wants next a key that d has locked. */
  predicate WaitsFor(s: State, c: nat, d: nat) {
    IsWaiting(s, c) && s.locks[NextKey(s, c)].owner == d
  }

  /** Along the waits-for relation the key waited for grows. */
  lemma WaitingClimbs(s: State, c: nat, d: nat)
    requires Ordered(s) && Accounted(s) && WaitsFor(s, c, d) && IsWaiting(s, d)
    ensures Less(NextKey(s, c), NextKey(s, d))
  {
    hide Less;
    assert Believes(s, d, NextKey(s, c));
  }

  ghost predicate IsChain(s: State, chain: seq<nat>) {
    && |chain| >= 2
    && forall i {:trigger chain[i]} :: 0 < i < |chain| ==> WaitsFor(s, chain[i-1], chain[i])
  }

  lemma {:induction false} ChainsClimb(s: State, chain: seq<nat>, k: nat)
    requires Ordered(s) && Accounted(s) && IsChain(s, chain) && 0 < k < |chain| && IsWaiting(s, chain[k])
    ensures IsWaiting(s, chain[0]) && Less(NextKey(s, chain[0]), NextKey(s, chain[k]))
  {
    hide Less, Ordered, Accounted;
    assert WaitsFor(s, chain[k-1], chain[k]);
    WaitingClimbs(s, chain[k-1], chain[k]);
    if k > 1 {
      ChainsClimb(s, chain, k - 1);
      LessIsTransitive(NextKey(s, chain[0]), NextKey(s, chain[k-1]), NextKey(s, chain[k]));
    }
  }

  /** The waits-for relation has no cycle, in any state that comes about without failed requests. */
  lemma NobodyWaitsForItself(steps: seq<Step>, chain: seq<nat>)
    requires CanRun(Start(), steps) && Run(Start(), steps).faults == 0 && IsChain(Run(Start(), steps), chain)
    ensures chain[0] != chain[|chain| - 1]
  {
    hide Less;
    var s := Run(Start(), steps);
    RunsKeepOrder(Start(), steps);
    hide Ordered, Accounted, CanRun, Run;
    if chain[0] == chain[|chain| - 1] {
      assert WaitsFor(s, chain[0], chain[1]) by { assert chain[1] == chain[1]; }
      ChainsClimb(s, chain, |chain| - 1);
      LessIsTotal(NextKey(s, chain[0]), NextKey(s, chain[0]));
    }
  }

  /** c is waiting for a key that comes after none of those the others wait for. */
  ghost predicate WaitsHighest(s: State, clients: set<nat>, c: nat) {
    IsWaiting(s, c) && forall d :: d in clients ==> IsWaiting(s, d) && Leq(NextKey(s, d), NextKey(s, c))
  }

  lemma {:induction false} HighestWaiting(s: State, clients: set<nat>) returns (c: nat)
    requires clients != {} && forall d :: d in clients ==> IsWaiting(s, d)
    ensures c in clients && WaitsHighest(s, clients, c)
    decreases |clients|
  {
    hide Less;
    var some :| some in clients;
    var rest := clients - {some};
    LeqIsReflexive(NextKey(s, some));
    if rest == {} {
      c := some;
      assert clients == {some};
    } else {
      var e := HighestWaiting(s, rest);
      c := HigherOf(s, rest, some, e);
      assert clients == rest + {some};
    }
  }

  lemma LeqIsReflexive(a: string)
    ensures Leq(a, a)
  {
    LessIsTotal(a, a);
  }

  lemma HigherOf(s: State, rest: set<nat>, some: nat, e: nat) returns (c: nat)
    requires IsWaiting(s, some) && e in rest && WaitsHighest(s, rest, e)
    ensures c in rest + {some} && WaitsHighest(s, rest + {some}, c)
  {
    var a, b := NextKey(s, some), NextKey(s, e);
    LessIsTotal(a, b);
    LeqIsReflexive(a);
    hide Less, IsWaiting;
    if Less(b, a) {
      c := some;
      forall d | d in rest ensures Leq(NextKey(s, d), a) {
        LeqIsTransitive(NextKey(s, d), b, a);
      }
    } else {
      c := e;
    }
  }

  /** While clients are about, one of them is not waiting: it can take its next key, or give back what it holds. */
  lemma SomebodyCanMove(steps: seq<Step>)
    requires CanRun(Start(), steps) && Run(Start(), steps).faults == 0 && Run(Start(), steps).clients != map[]
    ensures exists c :: c in Run(Start(), steps).clients && !IsWaiting(Run(Start(), steps), c)
  {
    var s := Run(Start(), steps);
    RunsKeepOrder(Start(), steps);
    hide CanRun, Run, Less;
    assert s.clients.Keys != {};
    if forall c :: c in s.clients ==> IsWaiting(s, c) {
      var c := HighestWaiting(s, s.clients.Keys);
      var d := s.locks[NextKey(s, c)].owner;
      assert Believes(s, d, NextKey(s, c)) && WaitsFor(s, c, d);
      assert IsWaiting(s, d) && Leq(NextKey(s, d), NextKey(s, c));
      WaitingClimbs(s, c, d);
      assert false;
    }
  }

  // ----- locks that run out -----

  /**
   * When client 0's lock runs out and client 1 takes the key, client 0 deletes client 1's lock when it
   * gives back its own, and client 2 can take the key from under client 1.
   */
  lemma ExpiredLocksAreStolen(key: string)
    ensures
      var steps := [Begin(0, [key]), Begin(1, [key]), Begin(2, [key]), Take(0, 1), Tick(1000), Take(1, 1),
                    Unlock(0, key), Take(2, 1)];
      && CanRun(Start(), steps) && Run(Start(), steps).stolen == 1
      && Believes(Run(Start(), steps), 1, key) && Believes(Run(Start(), steps), 2, key)
  {
    var first := [Begin(0, [key]), Begin(1, [key]), Begin(2, [key])];
    var second := [Take(0, 1), Tick(1000)];
    var third := [Take(1, 1), Unlock(0, key), Take(2, 1)];
    ThreeBegin(key);
    LockRunsOut(key);
    LockIsStolen(key);
    hide CanRun, Run, Do, CanStep;
    var s := RanOut(key);
    LeadsOn(Start(), first, ThreeWant(key), second, s);
    LeadsToItsEnd(s, third);
    LeadsOn(Start(), first + second, s, third, Run(s, third));
    assert first + second + third ==
      [Begin(0, [key]), Begin(1, [key]), Begin(2, [key]), Take(0, 1), Tick(1000), Take(1, 1), Unlock(0, key),
       Take(2, 1)];
  }

  lemma LeadsToItsEnd(s: State, steps: seq<Step>)
    requires CanRun(s, steps)
    ensures Leads(s, steps, Run(s, steps))
  {
  }

  /** Client 0's lock has run out without its knowing; clients 1 and 2 still want the key. */
  function RanOut(key: string): State {
    State(1000, map[], map[0 := Client([], {key}), 1 := Client([key], {}), 2 := Client([key], {})], {0}, 1, 0, 0, 0)
  }

  function ThreeWant(key: string): State {
    Start().(clients := map[0 := Client([key], {}), 1 := Client([key], {}), 2 := Client([key], {})])
  }

  lemma ThreeBegin(key: string)
    ensures Leads(Start(), [Begin(0, [key]), Begin(1, [key]), Begin(2, [key])], ThreeWant(key))
  {
    assert IsAscending([key]);
    var s1 := Do(Start(), Begin(0, [key]));
    var s2 := Do(s1, Begin(1, [key]));
    assert Do(s2, Begin(2, [key])) == ThreeWant(key);
    LeadsByOne(s2, Begin(2, [key]));
    AndBefore(s1, Begin(1, [key]), [Begin(2, [key])]);
    AndBefore(Start(), Begin(0, [key]), [Begin(1, [key]), Begin(2, [key])]);
  }

  lemma LockRunsOut(key: string)
    ensures Leads(ThreeWant(key), [Take(0, 1), Tick(1000)], RanOut(key))
  {
    var s3 := ThreeWant(key);
    var s4 := Do(s3, Take(0, 1));
    assert [key][1..] == [] && {} + {key} == {key};
    assert s4.clients == RanOut(key).clients;
    assert s4.locks == map[key := Lock(0, At(1000))];
    OneRunsOut(s4, 1000, key);
    LeadsByOne(s4, Tick(1000));
    AndBefore(s3, Take(0, 1), [Tick(1000)]);
    assert [Take(0, 1)] + [Tick(1000)] == [Take(0, 1), Tick(1000)];
    assert Do(s4, Tick(1000)) == RanOut(key);
  }

  lemma OneRunsOut(s: State, millis: nat, key: string)
    requires s.locks.Keys == {key} && IsOver(s.locks[key].until, s.now + millis)
    ensures Do(s, Tick(millis)) == s.(now := s.now + millis, locks := map[],
                                       expired := s.expired + {s.locks[key].owner}, ranOut := s.ranOut + 1)
  {
    assert key in s.locks;
    assert (set k | k in s.locks && IsOver(s.locks[k].until, s.now + millis)) == {key};
  }

  lemma LockIsStolen(key: string)
    ensures
      var s, steps := RanOut(key), [Take(1, 1), Unlock(0, key), Take(2, 1)];
      && CanRun(s, steps) && Run(s, steps).stolen == 1
      && Believes(Run(s, steps), 1, key) && Believes(Run(s, steps), 2, key)
  {
    var s5 := RanOut(key);
    var s6 := Do(s5, Take(1, 1));
    var s7 := Do(s6, Unlock(0, key));
    assert s7.locks == map[];
    LeadsByOne(s7, Take(2, 1));
    AndBefore(s6, Unlock(0, key), [Take(2, 1)]);
    AndBefore(s5, Take(1, 1), [Unlock(0, key), Take(2, 1)]);
  }

  lemma AndBefore(s: State, step: Step, steps: seq<Step>)
    requires CanStep(s, step) && CanRun(Do(s, step), steps)
    ensures CanRun(s, [step] + steps) && Run(s, [step] + steps) == Run(Do(s, step), steps)
  {
    hide CanStep, Do;
    assert ([step] + steps)[1..] == steps;
  }

  // ----- one client among many -----

  predicate IsBy(step: Step, c: nat) {
    !step.Tick? && step.c == c
  }

  /** None of the steps is the client's. */
  predicate AreOthers(steps: seq<Step>, c: nat) {
    forall step :: step in steps ==> !IsBy(step, c)
  }

  /** None of the client's own requests is reported as failed. */
  predicate IsUntroubled(steps: seq<Step>, c: nat) {
    forall step :: step in steps && IsBy(step, c) ==> !step.Fail? && !step.TakeUnseen? && !step.UnlockUnseen?
  }

  /** The client deletes no keys that it does not hold, and locks its own for the given time. */
  predicate Behaves(steps: seq<Step>, c: nat, ttlSec: nat) {
    forall step :: step in steps && IsBy(step, c) ==>
      !step.Delete? && (step.Take? || step.TakeUnseen? ==> step.ttlSec == ttlSec)
  }

  /** The number has not been used by any client yet. */
  predicate IsUnused(s: State, c: nat) {
    c !in s.clients && c !in s.expired && forall key :: key in s.locks ==> !Owns(s, c, key)
  }

  ghost predicate OwnsOnlyBelieved(s: State, c: nat) {
    forall key :: Owns(s, c, key) ==> Believes(s, c, key)
  }

  /** The client's locks live at least as long as they should, and none ran out before. */
  ghost predicate IsTimely(s: State, c: nat, ttlSec: nat, since: int) {
    && since <= s.now
    && (forall key :: Owns(s, c, key) ==> LivesLong(s.locks[key].until, ttlSec, since))
    && (c in s.expired ==> ttlSec > 0 && s.now >= since + 1000 * ttlSec)
  }

  predicate LivesLong(until: Expiry, ttlSec: nat, since: int) {
    if ttlSec == 0 then until.Never? else until.At? && until.millis >= since + 1000 * ttlSec
  }

  lemma StepsKeepOwned(s: State, step: Step, c: nat)
    requires CanStep(s, step) && OwnsOnlyBelieved(s, c) && IsUntroubled([step], c)
    ensures OwnsOnlyBelieved(Do(s, step), c)
  {
    assert step in [step];
    var t := Do(s, step);
    forall key | Owns(t, c, key) ensures Believes(t, c, key) {
      assert Owns(s, c, key) || (step.Take? && step.c == c && key == s.clients[c].next[0]);
    }
  }

  lemma StepsKeepTimely(s: State, step: Step, c: nat, ttlSec: nat, since: int)
    requires CanStep(s, step) && IsTimely(s, c, ttlSec, since) && Behaves([step], c, ttlSec)
    ensures IsTimely(Do(s, step), c, ttlSec, since)
  {
    assert step in [step];
    var t := Do(s, step);
    forall key | Owns(t, c, key) ensures LivesLong(t.locks[key].until, ttlSec, since) {
      assert Owns(s, c, key) || ((step.Take? || step.TakeUnseen?) && step.c == c && key == s.clients[c].next[0]);
    }
    if step.Tick? && c in t.expired && c !in s.expired {
      var key :| key in s.locks && IsOver(s.locks[key].until, t.now) && s.locks[key].owner == c;
      assert Owns(s, c, key);
    }
  }

  /** What a client that starts now can count on, whatever the others do. */
  lemma {:induction false} ClientsAreKept(s: State, steps: seq<Step>, c: nat, ttlSec: nat, since: int)
    requires CanRun(s, steps) && Behaves(steps, c, ttlSec) && IsTimely(s, c, ttlSec, since)
    ensures IsTimely(Run(s, steps), c, ttlSec, since)
    ensures OwnsOnlyBelieved(s, c) && IsUntroubled(steps, c) ==> OwnsOnlyBelieved(Run(s, steps), c)
    decreases |steps|
  {
    hide CanStep, Do, IsTimely, OwnsOnlyBelieved;
    if steps != [] {
      assert steps[0] in steps && forall step :: step in steps[1..] ==> step in steps;
      StepsKeepTimely(s, steps[0], c, ttlSec, since);
      ClientsAreKept(Do(s, steps[0]), steps[1..], c, ttlSec, since);
      if OwnsOnlyBelieved(s, c) && IsUntroubled(steps, c) {
        StepsKeepOwned(s, steps[0], c);
      }
    }
  }

  lemma UnusedIsKept(s: State, c: nat, ttlSec: nat)
    requires IsUnused(s, c)
    ensures IsTimely(s, c, ttlSec, s.now) && OwnsOnlyBelieved(s, c)
  {
  }

  /** Others cannot change what the client wants and holds, nor lock a key in its name. */
  ghost predicate StandsBy(s: State, t: State, c: nat) {
    && (c in t.clients <==> c in s.clients) && (c in s.clients ==> t.clients[c] == s.clients[c])
    && (forall key :: Owns(t, c, key) ==> Owns(s, c, key))
  }

  lemma OthersStandBy(s: State, step: Step, c: nat)
    requires CanStep(s, step) && !IsBy(step, c)
    ensures StandsBy(s, Do(s, step), c)
  {
  }

  lemma {:induction false} OthersRunsStandBy(s: State, steps: seq<Step>, c: nat)
    requires CanRun(s, steps) && AreOthers(steps, c)
    ensures StandsBy(s, Run(s, steps), c)
    decreases |steps|
  {
    hide CanStep, Do;
    if steps != [] {
      OthersStandBy(s, steps[0], c);
      OthersRunsStandBy(Do(s, steps[0]), steps[1..], c);
    }
  }

  /** What one client's call amounts to: steps of the protocol, of which its own are well-behaved. */
  ghost predicate IsCourse(s: State, steps: seq<Step>, t: State, c: nat, ttlSec: nat) {
    Leads(s, steps, t) && Behaves(steps, c, ttlSec)
  }

  lemma CourseBegins(s: State, c: nat, ttlSec: nat)
    ensures IsCourse(s, [], s, c, ttlSec) && IsUntroubled([], c) && Releases(s, [], c, [])
  {
  }

  lemma CourseOn(s: State, first: seq<Step>, t: State, second: seq<Step>, u: State, c: nat, ttlSec: nat)
    requires IsCourse(s, first, t, c, ttlSec) && IsCourse(t, second, u, c, ttlSec)
    ensures IsCourse(s, first + second, u, c, ttlSec)
    ensures IsUntroubled(first + second, c) <==> IsUntroubled(first, c) && IsUntroubled(second, c)
  {
    LeadsOn(s, first, t, second, u);
    hide Leads;
    assert forall step :: step in first + second <==> step in first || step in second;
  }

  lemma CourseByOne(s: State, step: Step, c: nat, ttlSec: nat)
    requires CanStep(s, step) && (step.Begin? || step.Take? || step.TakeUnseen? || step.Fail? || step.End?)
    requires step.c == c && (step.Take? || step.TakeUnseen? ==> step.ttlSec == ttlSec)
    ensures IsCourse(s, [step], Do(s, step), c, ttlSec)
    ensures IsUntroubled([step], c) <==> !step.TakeUnseen? && !step.Fail?
  {
    LeadsByOne(s, step);
    assert step in [step];
  }

  lemma OthersCourse(s: State, steps: seq<Step>, t: State, c: nat, ttlSec: nat)
    requires Leads(s, steps, t) && AreOthers(steps, c)
    ensures IsCourse(s, steps, t, c, ttlSec) && IsUntroubled(steps, c) && StandsBy(s, t, c)
    ensures Releases(s, steps, c, [])
  {
    OthersRunsStandBy(s, steps, c);
    OthersRelease(s, steps, c);
  }

  /** Everything under the client's name stays in order from its first step on. */
  lemma CoursesKeep(s: State, steps: seq<Step>, t: State, c: nat, ttlSec: nat)
    requires IsCourse(s, steps, t, c, ttlSec)
    ensures Safe(s, t)
    ensures IsUnused(s, c) ==> IsTimely(t, c, ttlSec, s.now)
    ensures IsUnused(s, c) && IsUntroubled(steps, c) ==> OwnsOnlyBelieved(t, c)
  {
    RunsAreSafe(s, steps);
    if IsUnused(s, c) {
      UnusedIsKept(s, c, ttlSec);
      ClientsAreKept(s, steps, c, ttlSec, s.now);
    }
  }

  /** Exclusion was not broken on the way: no lock ran out and nobody deleted a key it did not hold. */
  ghost predicate StaysSound(s: State, t: State) {
    Sound(s) && t.ranOut == s.ranOut && t.wild == s.wild
  }

  /** At some moment of the run the key is locked. */
  ghost predicate Meets(s: State, steps: seq<Step>, key: string) {
    exists n :: 0 <= n <= |steps| && IsLockedAfter(s, steps[..n], key)
  }

  ghost predicate IsLockedAfter(s: State, steps: seq<Step>, key: string) {
    CanRun(s, steps) && key in Run(s, steps).locks
  }

  lemma MeetsNow(s: State, first: seq<Step>, t: State, second: seq<Step>, key: string)
    requires Leads(s, first, t) && key in t.locks
    ensures Meets(s, first + second, key)
  {
    assert (first + second)[..|first|] == first;
    assert IsLockedAfter(s, (first + second)[..|first|], key);
  }

  lemma MeetsBefore(s: State, first: seq<Step>, second: seq<Step>, key: string)
    requires Meets(s, first, key)
    ensures Meets(s, first + second, key)
  {
    var n :| 0 <= n <= |first| && IsLockedAfter(s, first[..n], key);
    assert (first + second)[..n] == first[..n];
  }

  lemma MeetsAfter(s: State, first: seq<Step>, t: State, second: seq<Step>, key: string)
    requires Leads(s, first, t) && Meets(t, second, key)
    ensures Meets(s, first + second, key)
  {
    var n :| 0 <= n <= |second| && IsLockedAfter(t, second[..n], key);
    LeadsToItsEnd(t, second[..n]);
    LeadsOn(s, first, t, second[..n], Run(t, second[..n]));
    assert (first + second)[..|first| + n] == first + second[..n];
    assert IsLockedAfter(s, (first + second)[..|first| + n], key);
  }

  // ----- giving back a list of keys -----

  predicate HasDuplicates(keys: seq<string>) {
    exists i, j :: 0 <= i < j < |keys| && keys[i] == keys[j]
  }

  /** The request by which c unlocks a key, whether it holds it or not. */
  function UnlockStep(s: State, c: nat, key: string): Step {
    if Believes(s, c, key) then Unlock(c, key) else Delete(c, key)
  }

  /** c unlocks the key, or its request to do so fails without effect. */
  predicate IsUnlocking(s: State, step: Step, c: nat, key: string) {
    || step == UnlockStep(s, c, key)
    || step == (if Believes(s, c, key) then UnlockUnseen(c, key) else Fail(c))
  }

  /** The steps are c unlocking the keys of the list one after the other, with anything of others in between. */
  predicate Releases(s: State, steps: seq<Step>, c: nat, keys: seq<string>)
    decreases |steps|
  {
    if steps == [] then keys == []
    else
      && CanStep(s, steps[0])
      && (|| ((IsBy(steps[0], c) ==> steps[0].Fail?) && Releases(Do(s, steps[0]), steps[1..], c, keys))
          || (keys != [] && IsUnlocking(s, steps[0], c, keys[0])
               && Releases(Do(s, steps[0]), steps[1..], c, keys[1..])))
  }

  /** The keys left to unlock after the first step. */
  lemma FirstRelease(s: State, steps: seq<Step>, c: nat, keys: seq<string>) returns (rest: seq<string>)
    requires Releases(s, steps, c, keys) && steps != []
    ensures CanStep(s, steps[0]) && Releases(Do(s, steps[0]), steps[1..], c, rest)
    ensures || (rest == keys && (IsBy(steps[0], c) ==> steps[0].Fail?))
            || (keys != [] && rest == keys[1..] && IsUnlocking(s, steps[0], c, keys[0]))
  {
    rest := if (IsBy(steps[0], c) ==> steps[0].Fail?) && Releases(Do(s, steps[0]), steps[1..], c, keys) then keys
            else keys[1..];
  }

  lemma {:induction false} ReleasesRun(s: State, steps: seq<Step>, c: nat, keys: seq<string>)
    requires Releases(s, steps, c, keys)
    ensures CanRun(s, steps)
    decreases |steps|
  {
    hide CanStep, Do;
    if steps != [] {
      var rest := FirstRelease(s, steps, c, keys);
      ReleasesRun(Do(s, steps[0]), steps[1..], c, rest);
    }
  }

  lemma {:induction false} OthersRelease(s: State, steps: seq<Step>, c: nat)
    requires CanRun(s, steps) && AreOthers(steps, c)
    ensures Releases(s, steps, c, [])
    decreases |steps|
  {
    hide CanStep, Do;
    if steps != [] {
      assert steps[0] in steps && forall step :: step in steps[1..] ==> step in steps;
      OthersRelease(Do(s, steps[0]), steps[1..], c);
    }
  }

  /** Unlocking one list and then another is unlocking both. */
  lemma {:induction false} ReleasesOn(s: State, first: seq<Step>, c: nat, keys: seq<string>, s1: State,
      second: seq<Step>, more: seq<string>)
    requires Releases(s, first, c, keys) && Leads(s, first, s1) && Releases(s1, second, c, more)
    ensures Releases(s, first + second, c, keys + more)
    decreases |first|
  {
    hide CanStep, Do, IsUnlocking;
    if first == [] {
      assert first + second == second && keys + more == more;
    } else {
      var rest := FirstRelease(s, first, c, keys);
      ReleasesOn(Do(s, first[0]), first[1..], c, rest, s1, second, more);
      assert (first + second)[1..] == first[1..] + second;
      assert keys != [] && rest == keys[1..] ==> (keys + more)[1..] == rest + more && (keys + more)[0] == keys[0];
      assert (first + second)[0] == first[0];
    }
  }

  /** Other clients begin, take a key, give back a key they hold, and end, and time passes. */
  predicate OthersAreOrderly(steps: seq<Step>, c: nat) {
    forall step :: step in steps && !IsBy(step, c) ==>
      step.Begin? || step.Take? || step.Unlock? || step.End? || step.Tick?
  }

  ghost predicate HoldsKeys(s: State, c: nat, keys: seq<string>) {
    forall k :: k in keys ==> Believes(s, c, k)
  }

  /** Some way of giving back the keys, with no lock running out meanwhile, deletes another client's lock. */
  ghost predicate CanSteal(s: State, c: nat, keys: seq<string>) {
    exists steps :: Releases(s, steps, c, keys) && Steals(s, steps, c)
  }

  ghost predicate Steals(s: State, steps: seq<Step>, c: nat) {
    CanRun(s, steps) && OthersAreOrderly(steps, c) && Run(s, steps).ranOut == s.ranOut
        && Run(s, steps).stolen > s.stolen
  }

  /** Giving back keys that one holds can delete another's lock if and only if a key is given back twice. */
  lemma DuplicatesAreWhatSteals(s: State, c: nat, keys: seq<string>)
    requires Sound(s) && HoldsKeys(s, c, keys)
    ensures CanSteal(s, c, keys) <==> HasDuplicates(keys)
  {
    hide Sound, HoldsKeys;
    if HasDuplicates(keys) {
      var steps := StealingSchedule(s, c, keys);
    } else if CanSteal(s, c, keys) {
      var steps :| Releases(s, steps, c, keys) && Steals(s, steps, c);
      NoDuplicatesNoTheft(s, steps, c, keys);
    }
  }

  lemma {:induction false} NoDuplicatesNoTheft(s: State, steps: seq<Step>, c: nat, keys: seq<string>)
    requires Sound(s) && HoldsKeys(s, c, keys) && Releases(s, steps, c, keys) && !HasDuplicates(keys)
    requires OthersAreOrderly(steps, c)
    ensures CanRun(s, steps)
    ensures Run(s, steps).ranOut == s.ranOut ==> Run(s, steps).stolen == s.stolen
    ensures Run(s, steps).ranOut >= s.ranOut
    decreases |steps|
  {
    ReleasesRun(s, steps, c, keys);
    if steps != [] {
      var t := Do(s, steps[0]);
      var rest := FirstRelease(s, steps, c, keys);
      StepsAreSafe(s, steps[0]);
      assert steps[0] in steps;
      ReleasingKeepsHolding(s, steps[0], c, keys, rest);
      assert CanRun(t, steps[1..]) && Run(s, steps) == Run(t, steps[1..]);
      RunsAreSafe(t, steps[1..]);
      hide CanStep, Do, Sound, HoldsKeys;
      if Run(s, steps).ranOut == s.ranOut {
        assert forall step :: step in steps[1..] ==> step in steps;
        NoDuplicatesNoTheft(t, steps[1..], c, rest);
      }
    }
  }

  lemma ReleasingKeepsHolding(s: State, step: Step, c: nat, keys: seq<string>, rest: seq<string>)
    requires HoldsKeys(s, c, keys) && CanStep(s, step) && !HasDuplicates(keys) && OthersAreOrderly([step], c)
    requires || (rest == keys && (IsBy(step, c) ==> step.Fail?))
             || (keys != [] && rest == keys[1..] && IsUnlocking(s, step, c, keys[0]))
    ensures Do(s, step).wild == s.wild
    ensures HoldsKeys(Do(s, step), c, rest) && !HasDuplicates(rest)
  {
    assert step in [step];
    if rest != keys {
      assert keys[0] in keys;
      forall k | k in keys[1..] ensures k in keys && k != keys[0] {
        var i :| 0 <= i < |keys[1..]| && keys[1..][i] == k;
        assert keys[i + 1] == k;
      }
      assert forall i :: 0 <= i < |keys[1..]| ==> keys[1..][i] == keys[i + 1];
    }
  }

  // ----- the schedule that steals -----

  /** c unlocks the keys without anybody interfering. */
  function UnlockAll(s: State, c: nat, keys: seq<string>): seq<Step>
    decreases |keys|
  {
    if keys == [] then []
    else [UnlockStep(s, c, keys[0])] + UnlockAll(Do(s, UnlockStep(s, c, keys[0])), c, keys[1..])
  }

  lemma {:induction false} UnlockAllReleases(s: State, c: nat, keys: seq<string>, key: string)
    ensures Releases(s, UnlockAll(s, c, keys), c, keys) && CanRun(s, UnlockAll(s, c, keys))
    ensures OthersAreOrderly(UnlockAll(s, c, keys), c)
    ensures var t := Run(s, UnlockAll(s, c, keys));
      && t.ranOut == s.ranOut && t.stolen >= s.stolen
      && (key in keys && key in s.locks && s.locks[key].owner != c ==> t.stolen > s.stolen)
    decreases |keys|
  {
    if keys != [] {
      var step := UnlockStep(s, c, keys[0]);
      var t := Do(s, step);
      UnlockAllReleases(t, c, keys[1..], key);
      assert UnlockAll(s, c, keys)[1..] == UnlockAll(t, c, keys[1..]);
      assert keys == [keys[0]] + keys[1..];
    }
  }

  lemma {:induction false} FreshClient(clients: set<nat>) returns (d: nat)
    ensures forall c :: c in clients ==> c < d
    decreases |clients|
  {
    if clients == {} {
      d := 0;
    } else {
      var c :| c in clients;
      var rest := clients - {c};
      d := FreshClient(rest);
      d := if c < d then d else c + 1;
      assert clients == rest + {c};
    }
  }

  lemma {:induction false} StealingSchedule(s: State, c: nat, keys: seq<string>) returns (steps: seq<Step>)
    requires Sound(s) && HoldsKeys(s, c, keys) && HasDuplicates(keys)
    ensures Releases(s, steps, c, keys) && Steals(s, steps, c)
    decreases |keys|
  {
    var step := UnlockStep(s, c, keys[0]);
    assert keys[0] in keys;
    var t := Do(s, step);
    var rest;
    if keys[0] in keys[1..] {
      rest := TakenAndStolen(t, c, keys[1..], keys[0]);
    } else {
      DuplicatesRemain(keys);
      StepsAreSafe(s, step);
      HoldingRemains(s, c, keys);
      rest := StealingSchedule(t, c, keys[1..]);
    }
    steps := [step] + rest;
    AndBefore(s, step, rest);
    assert steps[1..] == rest;
    UnlockingOwn(s, c, keys[0]);
  }

  lemma UnlockingOwn(s: State, c: nat, key: string)
    requires Sound(s) && Believes(s, c, key)
    ensures
      var t := Do(s, Unlock(c, key));
      t.stolen == s.stolen && t.ranOut == s.ranOut && t.wild == s.wild && key !in t.locks
  {
    assert Owns(s, c, key);
  }

  lemma DuplicatesRemain(keys: seq<string>)
    requires HasDuplicates(keys) && keys[0] !in keys[1..]
    ensures HasDuplicates(keys[1..])
  {
    var i, j :| 0 <= i < j < |keys| && keys[i] == keys[j];
    assert keys[1..][j-1] == keys[j];
    assert i > 0;
    assert keys[1..][i-1] == keys[i];
  }

  lemma HoldingRemains(s: State, c: nat, keys: seq<string>)
    requires keys != [] && HoldsKeys(s, c, keys) && keys[0] !in keys[1..] && Believes(s, c, keys[0])
    ensures HoldsKeys(Do(s, Unlock(c, keys[0])), c, keys[1..])
  {
    forall k | k in keys[1..] ensures k in keys && k != keys[0] {
      var i :| 0 <= i < |keys[1..]| && keys[1..][i] == k;
      assert keys[i + 1] == k;
    }
  }

  /** Another client takes the free key; c deletes it when the list comes to the key again. */
  lemma TakenAndStolen(s: State, c: nat, keys: seq<string>, key: string) returns (steps: seq<Step>)
    requires key in keys && key !in s.locks
    ensures Releases(s, steps, c, keys) && Steals(s, steps, c)
  {
    var d := FreshClient(s.clients.Keys + {c});
    assert d !in s.clients && d != c by { assert c in s.clients.Keys + {c}; }
    assert IsAscending([key]);
    var begin, take := Begin(d, [key]), Take(d, 0);
    var s1 := Do(s, begin);
    var s2 := Do(s1, take);
    UnlockAllReleases(s2, c, keys, key);
    var unlocks := UnlockAll(s2, c, keys);
    AndBefore(s1, take, unlocks);
    AndBefore(s, begin, [take] + unlocks);
    steps := [begin] + ([take] + unlocks);
    assert ([take] + unlocks)[1..] == unlocks && steps[1..] == [take] + unlocks;
    assert Releases(s1, [take] + unlocks, c, keys);
  }
}
