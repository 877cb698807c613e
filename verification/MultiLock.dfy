/**
 * A call of the shared cache that locks one key or several: the retries, the release on failure, and
 * the callback under the locks. While a call is busy, other clients make any steps of LockProtocol.
 *
 * A call is a number, me, used for nothing else. Every method reports, for the proof, the steps of the
 * protocol that were made from its start to its end, by the call and by others.
 */
module MultiLocks {
  import opened SortedKeys
  import opened LockProtocol

  /** The keys, last first. */
  function LastFirst(keys: seq<string>): (r: seq<string>)
    ensures |r| == |keys| && forall i :: 0 <= i < |keys| ==> r[i] == keys[|keys| - 1 - i]
  {
    seq(|keys|, i requires 0 <= i < |keys| => keys[|keys| - 1 - i])
  }

  function KeySet(keys: seq<string>): set<string> {
    set k | k in keys
  }

  /** The call wants the keys in next and believes to hold those in held. */
  predicate IsAt(s: State, me: nat, next: seq<string>, held: set<string>) {
    me in s.clients && s.clients[me] == Client(next, held)
  }

  ghost predicate OwnsAll(s: State, me: nat, keys: seq<string>) {
    forall k :: k in keys ==> Owns(s, me, k)
  }

  ghost predicate OwnsOnly(s: State, me: nat, keys: seq<string>) {
    forall k :: Owns(s, me, k) ==> k in keys
  }

  lemma KeySetOfPrefix(keys: seq<string>, n: nat)
    requires IsAscending(keys) && n < |keys|
    ensures KeySet(keys[..n+1]) == KeySet(keys[..n]) + {keys[n]} && keys[n] !in KeySet(keys[..n])
  {
    assert keys[..n+1] == keys[..n] + [keys[n]];
    forall j | 0 <= j < n ensures keys[j] != keys[n] {
      LessIsTotal(keys[j], keys[n]);
    }
  }

  /** One of the keys was found to be locked. */
  ghost predicate MeetsOneOf(s: State, steps: seq<Step>, keys: seq<string>) {
    exists k :: k in keys && Meets(s, steps, k)
  }

  lemma CourseMeets(s: State, first: seq<Step>, t: State, second: seq<Step>, key: string, c: nat, ttlSec: nat)
    requires IsCourse(s, first, t, c, ttlSec) && key in t.locks
    ensures Meets(s, first + second, key)
  {
    MeetsNow(s, first, t, second, key);
  }

  lemma MeetsInBetween(s: State, first: seq<Step>, t: State, second: seq<Step>, third: seq<Step>, keys: seq<string>,
      key: string, c: nat, ttlSec: nat)
    requires IsCourse(s, first, t, c, ttlSec) && Meets(t, second, key) && key in keys
    ensures MeetsOneOf(s, first + second + third, keys)
  {
    MeetsAfter(s, first, t, second, key);
    MeetsBefore(s, first + second, third, key);
  }

  lemma OthersAfterRelease(s: State, first: seq<Step>, c: nat, keys: seq<string>, s1: State, second: seq<Step>,
      ttlSec: nat)
    requires IsCourse(s, first, s1, c, ttlSec) && Releases(s, first, c, keys) && Releases(s1, second, c, [])
    ensures Releases(s, first + second, c, keys)
  {
    ReleasesOn(s, first, c, keys, s1, second, []);
    assert keys + [] == keys;
  }

  lemma PrefixIsAscending(keys: seq<string>, n: nat)
    requires IsAscending(keys) && n <= |keys|
    ensures IsAscending(keys[..n])
  {
    hide Less;
  }

  /** At every moment while the steps are made the call owns all the keys. */
  ghost predicate IsCovered(s: State, steps: seq<Step>, me: nat, keys: seq<string>)
    decreases |steps|
  {
    OwnsAll(s, me, keys) && (steps != [] ==> CanStep(s, steps[0]) && IsCovered(Do(s, steps[0]), steps[1..], me, keys))
  }

  lemma {:induction false} HeldKeysAreCovered(s: State, steps: seq<Step>, t: State, me: nat, keys: seq<string>)
    requires Leads(s, steps, t) && AreOthers(steps, me) && IsAt(s, me, [], KeySet(keys)) && StaysSound(s, t)
    ensures IsCovered(s, steps, me, keys)
    decreases |steps|
  {
    assert forall k :: k in keys ==> Believes(s, me, k);
    assert OwnsAll(s, me, keys);
    if steps != [] {
      assert steps[0] in steps && forall step :: step in steps[1..] ==> step in steps;
      var u := Do(s, steps[0]);
      StepsAreSafe(s, steps[0]);
      RunsAreSafe(u, steps[1..]);
      OthersStandBy(s, steps[0], me);
      HeldKeysAreCovered(u, steps[1..], t, me, keys);
    }
  }

  class LockServer {
    var state: State

    constructor ()
      ensures state == Start()
    {
      state := Start();
    }

    /** At least the given time passes, and other clients make any steps they like. */
    method Elapse(millis: nat, me: nat) returns (ghost trace: seq<Step>)
      modifies this
      ensures Leads(old(state), trace, state) && AreOthers(trace, me)
      ensures state.now >= old(state).now + millis
    {
      var steps: seq<Step> := *;
      if !(CanRun(state, steps) && AreOthers(steps, me)) {
        steps := [];
      }
      RunsAreSafe(state, steps);
      LeadsByOne(Run(state, steps), Tick(millis));
      LeadsOn(state, steps, Run(state, steps), [Tick(millis)], Do(Run(state, steps), Tick(millis)));
      trace := steps + [Tick(millis)];
      state := Do(Run(state, steps), Tick(millis));
    }

    // ----- one key -----

    /** Sets the key unless it is present. A request that failed may have been carried out all the same. */
    method LockMutex(key: string, ttlSec: nat, me: nat) returns (ok: bool, acquired: bool, ghost trace: seq<Step>)
      requires me in state.clients && state.clients[me].next != [] && state.clients[me].next[0] == key
      modifies this
      ensures IsCourse(old(state), trace, state, me, ttlSec) && state.now == old(state).now
      ensures ok ==> acquired == (key !in old(state).locks) && trace == if acquired then [Take(me, ttlSec)] else []
      ensures !ok ==> !acquired && (trace == [Fail(me)] || trace == [TakeUnseen(me, ttlSec)])
      ensures ok <==> IsUntroubled(trace, me)
      ensures !acquired ==> state.clients == old(state).clients
      ensures acquired ==> IsAt(state, me, old(state).clients[me].next[1..], old(state).clients[me].held + {key})
    {
      ok := *;
      acquired := ok && key !in state.locks;
      trace := [];
      CourseBegins(state, me, ttlSec);
      if acquired {
        trace := [Take(me, ttlSec)];
        CourseByOne(state, Take(me, ttlSec), me, ttlSec);
        state := Do(state, Take(me, ttlSec));
      } else if !ok {
        var carriedOut: bool := *;
        var step := if carriedOut && key !in state.locks then TakeUnseen(me, ttlSec) else Fail(me);
        trace := [step];
        CourseByOne(state, step, me, ttlSec);
        state := Do(state, step);
      }
    }

    /** Deletes the key, whoever set it. A request that failed may have been carried out all the same. */
    method UnlockMutex(key: string, me: nat) returns (ok: bool, ghost trace: seq<Step>)
      modifies this
      ensures Leads(old(state), trace, state) && Releases(old(state), trace, me, [key])
      ensures ok ==> trace == [UnlockStep(old(state), me, key)] && key !in state.locks
      ensures ok <==> IsUntroubled(trace, me)
      ensures forall ttlSec: nat :: Believes(old(state), me, key) ==> Behaves(trace, me, ttlSec)
      ensures state.locks == old(state).locks || state.locks == Without(old(state), key)
      ensures Believes(old(state), me, key) ==> IsAt(state, me, [], old(state).clients[me].held - {key})
      ensures !Believes(old(state), me, key) ==> state.clients == old(state).clients
    {
      ok := *;
      var done: bool := *;
      done := done || ok;
      var unlock := UnlockStep(state, me, key);
      var step := if done then unlock else if unlock.Unlock? then UnlockUnseen(me, key) else Fail(me);
      trace := [step];
      LeadsByOne(state, step);
      if done && !ok {
        LeadsByOne(Do(state, step), Fail(me));
        LeadsOn(state, [step], Do(state, step), [Fail(me)], Do(Do(state, step), Fail(me)));
        trace := [step, Fail(me)];
        assert trace == [step] + [Fail(me)] && trace[1..] == [Fail(me)];
        assert Fail(me) in trace;
        state := Do(Do(state, step), Fail(me));
      } else {
        assert step in trace;
        state := Do(state, step);
      }
    }

    /** Tries until the key is locked or the time since startTs is up. */
    method LockWithin(key: string, ttlSec: nat, timeoutSec: nat, startTs: int, sleepMillis: nat, me: nat)
      returns (acquired: bool, ghost trace: seq<Step>)
      requires me in state.clients && state.clients[me].next != [] && state.clients[me].next[0] == key
      requires sleepMillis > 0
      modifies this
      ensures IsCourse(old(state), trace, state, me, ttlSec)
      ensures var c := old(state).clients[me];
        if acquired then IsAt(state, me, c.next[1..], c.held + {key}) else IsAt(state, me, c.next, c.held)
      ensures !acquired ==> !IsUntroubled(trace, me) || Meets(old(state), trace, key)
      ensures !acquired && timeoutSec > 0 ==> state.now / 1000 - startTs >= timeoutSec
    {
      hide CanStep, Do, CanRun, Run, Behaves, Leads, IsCourse, AreOthers, IsUntroubled, Meets;
      trace := [];
      CourseBegins(state, me, ttlSec);
      while true
        invariant IsCourse(old(state), trace, state, me, ttlSec)
        invariant me in state.clients && state.clients[me] == old(state).clients[me]
        decreases 1000 * (startTs + timeoutSec + 1) - state.now
      {
        trace := ElapseAfter(old(state), trace, 0, me, ttlSec);
        ghost var before := state;
        var ok;
        ghost var steps;
        ok, acquired, steps := LockMutex(key, ttlSec, me);
        CourseOn(old(state), trace, before, steps, state, me, ttlSec);
        if ok && !acquired {
          CourseMeets(old(state), trace, before, steps, key, me, ttlSec);
        }
        trace := trace + steps;
        if !ok && timeoutSec == 0 {
          return;
        }
        if acquired {
          return;
        }
        if timeoutSec == 0 {
          return;
        }
        var nowTs := state.now / 1000;
        if nowTs - startTs >= timeoutSec {
          return;
        }
        trace := ElapseAfter(old(state), trace, sleepMillis, me, ttlSec);
      }
    }

    /** Time passes after the steps made so far. */
    method ElapseAfter(ghost from: State, ghost before: seq<Step>, millis: nat, me: nat, ghost ttlSec: nat)
      returns (ghost trace: seq<Step>)
      requires IsCourse(from, before, state, me, ttlSec)
      modifies this
      ensures IsCourse(from, trace, state, me, ttlSec) && StandsBy(old(state), state, me)
      ensures state.now >= old(state).now + millis
      ensures IsUntroubled(trace, me) <==> IsUntroubled(before, me)
      ensures forall keys :: Releases(from, before, me, keys) ==> Releases(from, trace, me, keys)
    {
      hide *;
      trace := Elapse(millis, me);
      OthersCourse(old(state), trace, state, me, ttlSec);
      CourseOn(from, before, old(state), trace, state, me, ttlSec);
      ghost var steps := trace;
      forall keys | Releases(from, before, me, keys) ensures Releases(from, before + steps, me, keys) {
        OthersAfterRelease(from, before, me, keys, old(state), steps, ttlSec);
      }
      trace := before + steps;
    }

    // ----- several keys -----

    /** Unlocks what was acquired, last first. */
    method ReleaseAll(acquiredLocks: seq<string>, me: nat, ghost ttlSec: nat) returns (ghost trace: seq<Step>)
      requires IsAscending(acquiredLocks)
      requires me in state.clients && state.clients[me].held == KeySet(acquiredLocks)
      modifies this
      ensures IsCourse(old(state), trace, state, me, ttlSec)
      ensures Releases(old(state), trace, me, LastFirst(acquiredLocks))
      ensures me in state.clients && state.clients[me].held == {}
    {
      hide CanStep, Do, CanRun, Run, Behaves, Leads, IsCourse, AreOthers, IsUntroubled, Releases, IsAscending;
      trace := [];
      CourseBegins(state, me, ttlSec);
      ghost var released: seq<string> := [];
      var i := |acquiredLocks|;
      assert acquiredLocks[..i] == acquiredLocks;
      while i > 0
        invariant 0 <= i <= |acquiredLocks|
        invariant IsCourse(old(state), trace, state, me, ttlSec) && Releases(old(state), trace, me, released)
        invariant |released| == |acquiredLocks| - i
        invariant forall j :: 0 <= j < |released| ==> released[j] == acquiredLocks[|acquiredLocks| - 1 - j]
        invariant me in state.clients && state.clients[me].held == KeySet(acquiredLocks[..i])
      {
        i := i - 1;
        KeySetOfPrefix(acquiredLocks, i);
        var ok;
        ok, trace := UnlockAfter(old(state), trace, released, acquiredLocks[i], me, ttlSec);
        released := released + [acquiredLocks[i]];
      }
      assert acquiredLocks[..0] == [];
      assert released == LastFirst(acquiredLocks);
    }

    /** Time passes after the steps made so far, and a key that is held is unlocked. */
    method UnlockAfter(ghost from: State, ghost before: seq<Step>, ghost released: seq<string>, key: string, me: nat,
        ghost ttlSec: nat)
      returns (ok: bool, ghost trace: seq<Step>)
      requires IsCourse(from, before, state, me, ttlSec) && Releases(from, before, me, released)
      requires Believes(state, me, key)
      modifies this
      ensures IsCourse(from, trace, state, me, ttlSec) && Releases(from, trace, me, released + [key])
      ensures IsAt(state, me, [], old(state).clients[me].held - {key})
    {
      hide CanStep, Do, CanRun, Run, Behaves, IsUntroubled, Releases;
      trace := ElapseAfter(from, before, 0, me, ttlSec);
      ghost var s, steps := state, trace;
      ok, trace := UnlockMutex(key, me);
      CourseOn(from, steps, s, trace, state, me, ttlSec);
      ReleasesOn(from, steps, me, released, s, trace, [key]);
      trace := steps + trace;
    }

    /** Locks the keys in order, or gives all of them back. */
    method AcquireInOrder(uniqueKeys: seq<string>, ttlSec: nat, timeoutSec: nat, me: nat)
      returns (ok: bool, ghost trace: seq<Step>)
      requires IsAscending(uniqueKeys) && me !in state.clients
      modifies this
      ensures IsCourse(old(state), trace, state, me, ttlSec)
      ensures if ok then IsAt(state, me, [], KeySet(uniqueKeys)) else me !in state.clients
      ensures !ok && timeoutSec > 0 ==> state.now / 1000 - old(state).now / 1000 >= timeoutSec
      ensures !ok ==> !IsUntroubled(trace, me) || MeetsOneOf(old(state), trace, uniqueKeys)
    {
      hide CanRun, Run, Behaves, Leads, IsCourse, AreOthers, IsUntroubled, IsAscending, Meets;
      var startTs := state.now / 1000;
      CourseByOne(state, Begin(me, uniqueKeys), me, ttlSec);
      trace := [Begin(me, uniqueKeys)];
      state := Do(state, Begin(me, uniqueKeys));
      hide CanStep, Do;
      assert uniqueKeys[0..] == uniqueKeys;
      for n := 0 to |uniqueKeys|
        invariant IsCourse(old(state), trace, state, me, ttlSec)
        invariant IsAt(state, me, uniqueKeys[n..], KeySet(uniqueKeys[..n]))
      {
        KeySetOfPrefix(uniqueKeys, n);
        ghost var s := state;
        ghost var steps;
        var acquired;
        ghost var before := trace;
        acquired, steps := LockWithin(uniqueKeys[n], ttlSec, timeoutSec, startTs, 100, me);
        CourseOn(old(state), trace, s, steps, state, me, ttlSec);
        trace := trace + steps;
        assert uniqueKeys[n..][1..] == uniqueKeys[n+1..];
        if !acquired {
          PrefixIsAscending(uniqueKeys, n);
          ghost var tried := state;
          ghost var finish := Finish(uniqueKeys[..n], me, ttlSec);
          CourseOn(old(state), trace, tried, finish, state, me, ttlSec);
          CoursesKeep(tried, finish, state, me, ttlSec);
          if Meets(s, steps, uniqueKeys[n]) {
            MeetsInBetween(old(state), before, s, steps, finish, uniqueKeys, uniqueKeys[n], me, ttlSec);
          }
          return false, trace + finish;
        }
      }
      assert uniqueKeys[..|uniqueKeys|] == uniqueKeys;
      return true, trace;
    }

    /** Gives back what was acquired, and ends the call. */
    method Finish(acquiredLocks: seq<string>, me: nat, ghost ttlSec: nat) returns (ghost trace: seq<Step>)
      requires IsAscending(acquiredLocks)
      requires me in state.clients && state.clients[me].held == KeySet(acquiredLocks)
      modifies this
      ensures IsCourse(old(state), trace, state, me, ttlSec) && me !in state.clients
    {
      hide CanRun, Run, Behaves, Leads, IsCourse, IsAscending;
      trace := ReleaseAll(acquiredLocks, me, ttlSec);
      CourseByOne(state, End(me), me, ttlSec);
      CourseOn(old(state), trace, state, [End(me)], Do(state, End(me)), me, ttlSec);
      trace := trace + [End(me)];
      state := Do(state, End(me));
    }

    /** Locks all keys until they are released or run out; on failure none of them stays locked. */
    method AcquireMultiLock(keys: seq<string>, ttlSec: nat, timeoutSec: nat, me: nat)
      returns (ok: bool, ghost trace: seq<Step>)
      requires IsUnused(state, me)
      modifies this
      ensures IsCourse(old(state), trace, state, me, ttlSec) && Safe(old(state), state)
      ensures IsTimely(state, me, ttlSec, old(state).now)
      ensures ok && StaysSound(old(state), state) ==> OwnsAll(state, me, keys)
      ensures IsUntroubled(trace, me) ==> OwnsOnly(state, me, if ok then keys else [])
      ensures if ok && keys != [] then IsAt(state, me, [], KeySet(keys)) else me !in state.clients
      ensures !ok && timeoutSec > 0 ==> state.now / 1000 - old(state).now / 1000 >= timeoutSec
      ensures !ok ==> !IsUntroubled(trace, me) || MeetsOneOf(old(state), trace, keys)
    {
      hide CanStep, Do, CanRun, Run, Behaves, Leads, IsCourse, AreOthers, IsUntroubled, IsAscending, Meets;
      if |keys| == 0 {
        trace := [];
        CourseBegins(state, me, ttlSec);
        CoursesKeep(old(state), trace, state, me, ttlSec);
        return true, trace;
      }
      var uniqueKeys := LockOrder(keys);
      assert KeySet(uniqueKeys) == KeySet(keys);
      ok, trace := AcquireInOrder(uniqueKeys, ttlSec, timeoutSec, me);
      CoursesKeep(old(state), trace, state, me, ttlSec);
      AcquiredKeysAreOwned(state, me, keys, ok);
    }

    static lemma AcquiredKeysAreOwned(s: State, me: nat, keys: seq<string>, ok: bool)
      requires if ok then IsAt(s, me, [], KeySet(keys)) else me !in s.clients
      ensures ok && Sound(s) ==> OwnsAll(s, me, keys)
      ensures OwnsOnlyBelieved(s, me) ==> OwnsOnly(s, me, if ok then keys else [])
    {
      assert ok ==> forall k :: Believes(s, me, k) <==> k in keys;
    }

    /** Runs a callback of any duration under the locks of all keys, and gives them back. */
    method MultiMutex(keys: seq<string>, ttlSec: nat, timeoutSec: nat, callbackMillis: nat, me: nat)
      returns (ran: bool, ghost before: seq<Step>, ghost callback: seq<Step>, ghost trace: seq<Step>)
      requires IsUnused(state, me)
      modifies this
      ensures IsCourse(old(state), trace, state, me, ttlSec) && Safe(old(state), state)
      ensures IsTimely(state, me, ttlSec, old(state).now)
      ensures ran ==> IsCallback(old(state), before, callback, trace, me, callbackMillis)
      ensures ran && StaysSound(old(state), state) ==> IsCovered(Run(old(state), before), callback, me, keys)
      ensures IsUntroubled(trace, me) ==> OwnsOnly(state, me, [])
      ensures me !in state.clients
      ensures !ran && timeoutSec > 0 ==> state.now / 1000 - old(state).now / 1000 >= timeoutSec
      ensures !ran ==> !IsUntroubled(trace, me) || MeetsOneOf(old(state), trace, keys)
    {
      hide CanStep, Do, CanRun, Run, Behaves, Leads, IsCourse, AreOthers, IsUntroubled, IsAscending, IsCovered, Meets;
      before, callback := [], [];
      if |keys| == 0 {
        CourseBegins(state, me, ttlSec);
        callback := Elapse(callbackMillis, me);
        trace := callback;
        NothingToLock(old(state), trace, state, me, ttlSec, callbackMillis);
        return true, before, callback, trace;
      }
      var uniqueKeys := LockOrder(keys);
      assert KeySet(uniqueKeys) == KeySet(keys);
      ran, trace := AcquireInOrder(uniqueKeys, ttlSec, timeoutSec, me);
      if ran {
        before := trace;
        callback, trace := UnderLocks(old(state), before, uniqueKeys, ttlSec, callbackMillis, me);
        SameKeysAreCovered(Run(old(state), before), callback, me, uniqueKeys, keys);
      }
      CoursesKeep(old(state), trace, state, me, ttlSec);
    }

    /** The callback is preceded by the first steps; during it only others make steps, and it takes its time. */
    static ghost predicate IsCallback(s: State, before: seq<Step>, callback: seq<Step>, trace: seq<Step>, me: nat,
        callbackMillis: nat)
    {
      && before + callback <= trace && AreOthers(callback, me)
      && CanRun(s, before) && CanRun(Run(s, before), callback)
      && Run(Run(s, before), callback).now >= Run(s, before).now + callbackMillis
    }

    static lemma NothingToLock(s: State, trace: seq<Step>, t: State, me: nat, ttlSec: nat, callbackMillis: nat)
      requires Leads(s, trace, t) && AreOthers(trace, me) && t.now >= s.now + callbackMillis && IsUnused(s, me)
      ensures IsCourse(s, trace, t, me, ttlSec) && Safe(s, t) && IsTimely(t, me, ttlSec, s.now)
      ensures IsCallback(s, [], trace, trace, me, callbackMillis)
      ensures me !in t.clients && OwnsOnly(t, me, [])
      ensures Run(s, []) == s && (StaysSound(s, t) ==> IsCovered(s, trace, me, []))
    {
      assert [] + trace == trace;
      OthersCourse(s, trace, t, me, ttlSec);
      CoursesKeep(s, trace, t, me, ttlSec);
      if StaysSound(s, t) {
        NothingIsCovered(s, trace, me);
      }
    }

    static lemma {:induction false} NothingIsCovered(s: State, steps: seq<Step>, me: nat)
      requires CanRun(s, steps)
      ensures IsCovered(s, steps, me, [])
      decreases |steps|
    {
      if steps != [] {
        NothingIsCovered(Do(s, steps[0]), steps[1..], me);
      }
    }

    static lemma {:induction false} SameKeysAreCovered(s: State, steps: seq<Step>, me: nat, keys: seq<string>,
        others: seq<string>)
      requires forall k :: k in others ==> k in keys
      ensures IsCovered(s, steps, me, keys) ==> IsCovered(s, steps, me, others)
      decreases |steps|
    {
      hide Do;
      if IsCovered(s, steps, me, keys) && steps != [] {
        SameKeysAreCovered(Do(s, steps[0]), steps[1..], me, keys, others);
      }
    }

    static lemma CallbackWasCovered(from: State, before: seq<Step>, s: State, callback: seq<Step>, called: State,
        after: seq<Step>, t: State, me: nat, keys: seq<string>, ttlSec: nat, callbackMillis: nat)
      requires IsCourse(from, before, s, me, ttlSec) && IsCourse(called, after, t, me, ttlSec)
      requires Leads(s, callback, called) && AreOthers(callback, me) && called.now >= s.now + callbackMillis
      requires IsAt(s, me, [], KeySet(keys))
      ensures IsCallback(from, before, callback, before + callback + after, me, callbackMillis)
      ensures StaysSound(from, t) ==> IsCovered(Run(from, before), callback, me, keys)
    {
      RunsAreSafe(from, before);
      RunsAreSafe(s, callback);
      RunsAreSafe(called, after);
      hide Sound;
      if StaysSound(from, t) {
        HeldKeysAreCovered(s, callback, called, me, keys);
      }
    }

    /** The callback, the release of all keys and the end of the call. */
    method UnderLocks(ghost from: State, ghost before: seq<Step>, uniqueKeys: seq<string>, ttlSec: nat,
        callbackMillis: nat, me: nat)
      returns (ghost callback: seq<Step>, ghost trace: seq<Step>)
      requires IsCourse(from, before, state, me, ttlSec) && IsAscending(uniqueKeys)
      requires IsAt(state, me, [], KeySet(uniqueKeys))
      modifies this
      ensures IsCourse(from, trace, state, me, ttlSec) && me !in state.clients
      ensures IsCallback(from, before, callback, trace, me, callbackMillis)
      ensures StaysSound(from, state) ==> IsCovered(Run(from, before), callback, me, uniqueKeys)
    {
      hide CanStep, Do, CanRun, Run, Behaves, AreOthers, IsUntroubled, IsAscending, IsCovered, StaysSound, Releases,
        Safe;
      callback := Elapse(callbackMillis, me);
      ghost var called := state;
      OthersCourse(old(state), callback, called, me, ttlSec);
      CourseOn(from, before, old(state), callback, called, me, ttlSec);
      ghost var steps := Finish(uniqueKeys, me, ttlSec);
      CourseOn(from, before + callback, called, steps, state, me, ttlSec);
      trace := before + callback + steps;
      CallbackWasCovered(from, before, old(state), callback, called, steps, state, me, uniqueKeys, ttlSec,
          callbackMillis);
    }

    /** One key, with a longer pause between attempts. */
    method Mutex(key: string, ttlSec: nat, timeoutSec: nat, callbackMillis: nat, me: nat)
      returns (ran: bool, ghost before: seq<Step>, ghost callback: seq<Step>, ghost trace: seq<Step>)
      requires IsUnused(state, me)
      modifies this
      ensures IsCourse(old(state), trace, state, me, ttlSec) && Safe(old(state), state)
      ensures IsTimely(state, me, ttlSec, old(state).now)
      ensures ran ==> IsCallback(old(state), before, callback, trace, me, callbackMillis)
      ensures ran && StaysSound(old(state), state) ==> IsCovered(Run(old(state), before), callback, me, [key])
      ensures IsUntroubled(trace, me) ==> OwnsOnly(state, me, [])
      ensures me !in state.clients
      ensures !ran && timeoutSec > 0 ==> state.now / 1000 - old(state).now / 1000 >= timeoutSec
      ensures !ran ==> !IsUntroubled(trace, me) || MeetsOneOf(old(state), trace, [key])
    {
      hide CanRun, Run, Behaves, Leads, IsCourse, AreOthers, IsUntroubled, IsCovered, Meets;
      before, callback := [], [];
      var startTs := state.now / 1000;
      CourseByOne(state, Begin(me, [key]), me, ttlSec);
      trace := [Begin(me, [key])];
      state := Do(state, Begin(me, [key]));
      hide CanStep, Do;
      ghost var s := state;
      ghost var steps;
      ran, steps := LockWithin(key, ttlSec, timeoutSec, startTs, 1000, me);
      CourseOn(old(state), trace, s, steps, state, me, ttlSec);
      trace := trace + steps;
      if ran {
        assert {} + {key} == KeySet([key]);
        before := trace;
        callback, trace := UnderLocks(old(state), before, [key], ttlSec, callbackMillis, me);
      } else {
        ghost var tried := state;
        ghost var finish := Finish([], me, ttlSec);
        CourseOn(old(state), trace, tried, finish, state, me, ttlSec);
        CoursesKeep(tried, finish, state, me, ttlSec);
        if Meets(s, steps, key) {
          MeetsInBetween(old(state), [Begin(me, [key])], s, steps, finish, [key], key, me, ttlSec);
        }
        trace := trace + finish;
      }
      CoursesKeep(old(state), trace, state, me, ttlSec);
    }

    /** Unlocks every key it is given, held or not, as often as it is given. */
    method ReleaseMultiLock(keys: seq<string>, me: nat) returns (ok: bool, ghost trace: seq<Step>)
      modifies this
      ensures Leads(old(state), trace, state) && Releases(old(state), trace, me, keys) && Safe(old(state), state)
      ensures ok <==> IsUntroubled(trace, me)
      ensures forall k :: k in keys ==> !Believes(state, me, k) && (ok ==> !Owns(state, me, k))
      ensures HoldsKeys(old(state), me, keys) && !HasDuplicates(keys) ==> IsCourse(old(state), trace, state, me, 0)
    {
      hide CanStep, Do, CanRun, Run, Behaves, Leads, AreOthers, IsUntroubled, Releases, HasDuplicates;
      ok := true;
      trace := [];
      CourseBegins(state, me, 0);
      assert keys[0..] == keys && keys[..0] == [];
      for i := 0 to |keys|
        invariant Leads(old(state), trace, state) && Releases(old(state), trace, me, keys[..i])
        invariant ok <==> IsUntroubled(trace, me)
        invariant forall k :: k in keys[..i] ==> !Believes(state, me, k) && (ok ==> !Owns(state, me, k))
        invariant HoldsKeys(old(state), me, keys) && !HasDuplicates(keys) ==>
          HoldsKeys(state, me, keys[i..]) && Behaves(trace, me, 0)
      {
        ghost var s := state;
        ghost var steps := Elapse(0, me);
        OthersCourse(s, steps, state, me, 0);
        ghost var between := state;
        var unlocked;
        ghost var unlocking;
        unlocked, unlocking := UnlockMutex(keys[i], me);
        UnlockingOn(old(state), trace, s, steps, between, unlocking, state, me, keys[..i], keys[i]);
        TakeOneMore(keys, i);
        if HoldsKeys(s, me, keys[i..]) && !HasDuplicates(keys) {
          assert Believes(between, me, keys[i]);
          forall k | k in keys[i+1..] ensures Believes(state, me, k) {
            assert k in keys[i..] && Believes(s, me, k);
          }
        }
        trace := trace + steps + unlocking;
        if !unlocked {
          ok := false;
        }
      }
      assert keys[..|keys|] == keys;
      LeadsSafely(old(state), trace, state);
    }

    static lemma LeadsSafely(s: State, trace: seq<Step>, t: State)
      requires Leads(s, trace, t)
      ensures Safe(s, t)
    {
      RunsAreSafe(s, trace);
    }

    static lemma TakeOneMore(keys: seq<string>, i: nat)
      requires i < |keys|
      ensures keys[..i+1] == keys[..i] + [keys[i]] && keys[i..] == [keys[i]] + keys[i+1..]
      ensures keys[i] in keys[i..] && (!HasDuplicates(keys) ==> keys[i] !in keys[i+1..])
    {
      if keys[i] in keys[i+1..] {
        var j :| 0 <= j < |keys[i+1..]| && keys[i+1..][j] == keys[i];
        assert keys[i + 1 + j] == keys[i];
      }
    }

    static lemma UnlockingOn(s: State, trace: seq<Step>, t: State, steps: seq<Step>, u: State, unlocking: seq<Step>,
        v: State, me: nat, keys: seq<string>, key: string)
      requires Leads(s, trace, t) && Releases(s, trace, me, keys)
      requires IsCourse(t, steps, u, me, 0) && IsUntroubled(steps, me) && Releases(t, steps, me, [])
      requires Leads(u, unlocking, v) && Releases(u, unlocking, me, [key])
      ensures Leads(s, trace + steps + unlocking, v) && Releases(s, trace + steps + unlocking, me, keys + [key])
      ensures IsUntroubled(trace + steps + unlocking, me) <==> IsUntroubled(trace, me) && IsUntroubled(unlocking, me)
      ensures Behaves(trace, me, 0) && Behaves(unlocking, me, 0) ==> Behaves(trace + steps + unlocking, me, 0)
    {
      LeadsOn(s, trace, t, steps, u);
      ReleasesOn(s, trace, me, keys, t, steps, []);
      assert keys + [] == keys;
      LeadsOn(s, trace + steps, u, unlocking, v);
      ReleasesOn(s, trace + steps, me, keys, u, unlocking, [key]);
      hide Leads, Releases;
      var all := trace + steps + unlocking;
      assert forall step :: step in all <==> step in trace || step in steps || step in unlocking;
    }
  }
}
