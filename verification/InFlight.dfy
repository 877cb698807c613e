/**
 * The executor's in-flight guard. Message callbacks and detached goroutines interleave freely; what
 * each of them does between two synchronisation points is one step here. The same guard is used for
 * executions, which a sub-saga executor runs detached, and for compensations, which are never detached.
 */
module InFlightGuards {
  import opened Types

  /** What the idempotent service knows about a key. */
  datatype KeyStatus = NotSeen | InProgress | Completed | UnknownStatus | CheckFailed

  /** How a synchronous execution can come back. */
  datatype Returned = CallFailed | ServiceError | ServiceResult

  function Conclusion(r: Returned): ResultStatus {
    match r
    case CallFailed => StatusError
    case ServiceError => StatusFailed
    case ServiceResult => StatusSuccess
  }

  /** A status says how the execution came back: with a result, with the service's error, or not at all. */
  predicate Tells(status: ResultStatus, returned: Returned) {
    && (status.StatusSuccess? <==> returned.ServiceResult?)
    && (status.StatusFailed? <==> returned.ServiceError?)
    && (status.StatusError? <==> returned.CallFailed?)
  }

  /** One execution: from its registration to its removal it has no conclusion. */
  datatype Run = Run(key: string, detached: bool, starter: nat, conclusion: Option<ResultStatus>, reported: bool)

  datatype Reply = Now(status: ResultStatus) | AfterRun(run: nat)

  /** One delivery of a request; it publishes one status. */
  datatype Callback = Callback(key: string, reply: Reply, answered: bool)

  datatype Outcome = Outcome(run: Option<nat>, key: string, status: ResultStatus)

  datatype State = State(inFlight: map<string, nat>, runs: seq<Run>, callbacks: seq<Callback>, outcomes: seq<Outcome>)

  datatype Step =
    | Deliver(key: string, seen: KeyStatus)
    | Conclude(run: nat, returned: Returned)
    | Report(run: nat)
    | Answer(callback: nat)

  /** Whether a delivery registers a new run. */
  predicate Registers(s: State, detaches: bool, key: string, seen: KeyStatus) {
    key !in s.inFlight && (seen.NotSeen? || seen.Completed? || (seen.InProgress? && detaches))
  }

  predicate CanStep(s: State, step: Step) {
    match step
    case Deliver(_, _) => true
    case Conclude(r, _) => r < |s.runs| && s.runs[r].conclusion.None?
    case Report(r) => r < |s.runs| && s.runs[r].detached && s.runs[r].conclusion.Some? && !s.runs[r].reported
    case Answer(c) =>
      && c < |s.callbacks| && !s.callbacks[c].answered
      && (s.callbacks[c].reply.AfterRun? ==>
            s.callbacks[c].reply.run < |s.runs| && s.runs[s.callbacks[c].reply.run].conclusion.Some?)
  }

  function Delivered(s: State, detaches: bool, key: string, seen: KeyStatus): State {
    var c := |s.callbacks|;
    if Registers(s, detaches, key, seen) then
      s.(inFlight := s.inFlight[key := |s.runs|],
         runs := s.runs + [Run(key, detaches, c, None, false)],
         callbacks :=
             s.callbacks + [Callback(key, if detaches then Now(StatusInExecution) else AfterRun(|s.runs|), false)])
    else
      s.(callbacks :=
          s.callbacks + [Callback(key, Now(if seen.CheckFailed? then StatusError else StatusInExecution), false)])
  }

  function Concluded(s: State, r: nat, returned: Returned): State
    requires r < |s.runs|
  {
    s.(inFlight := map k | k in s.inFlight && k != s.runs[r].key :: s.inFlight[k],
       runs := s.runs[r := s.runs[r].(conclusion := Some(Conclusion(returned)))])
  }

  function Published(s: State, r: nat): State
    requires r < |s.runs| && s.runs[r].conclusion.Some?
  {
    s.(runs := s.runs[r := s.runs[r].(reported := true)],
       outcomes := s.outcomes + [Outcome(Some(r), s.runs[r].key, s.runs[r].conclusion.value)])
  }

  function Answered(s: State, c: nat): State
    requires CanStep(s, Answer(c))
  {
    var cb := s.callbacks[c];
    var t := match cb.reply
      case Now(status) => s.(outcomes := s.outcomes + [Outcome(None, cb.key, status)])
      case AfterRun(r) => Published(s, r);
    t.(callbacks := s.callbacks[c := cb.(answered := true)])
  }

  function Do(s: State, detaches: bool, step: Step): State
    requires CanStep(s, step)
  {
    match step
    case Deliver(key, seen) => Delivered(s, detaches, key, seen)
    case Conclude(r, returned) => Concluded(s, r, returned)
    case Report(r) => Published(s, r)
    case Answer(c) => Answered(s, c)
  }

  // ----- the executor -----

  class Executor {
    const detaches: bool
    var inFlight: map<string, nat>
    var runs: seq<Run>
    var callbacks: seq<Callback>
    var outcomes: seq<Outcome>

    constructor (detaches: bool)
      ensures this.detaches == detaches && Snapshot() == Empty()
    {
      this.detaches := detaches;
      inFlight, runs, callbacks, outcomes := map[], [], [], [];
    }

    function Snapshot(): State
      reads this
    {
      State(inFlight, runs, callbacks, outcomes)
    }

    /** A request arrives: the part of the callback under the guard's mutex. */
    method OnRequest(key: string, seen: KeyStatus) returns (run: Option<nat>)
      modifies this
      ensures Snapshot() == Do(old(Snapshot()), detaches, Deliver(key, seen))
      ensures run.Some? <==> Registers(old(Snapshot()), detaches, key, seen)
      ensures run.Some? ==> run.value == |old(runs)|
    {
      var status := StatusInExecution;
      run := None;
      if seen.CheckFailed? {
        status := StatusError;
      } else if seen.InProgress? || seen.NotSeen? || seen.Completed? {
        if key in inFlight {
          // Already under way: the callback returns at once.
        } else if seen.InProgress? {
          // From before a restart: only a sub-saga executor takes it up again.
          if detaches {
            run := Register(key);
          }
        } else {
          run := Register(key);
        }
      }
      var reply := if run.Some? && !detaches then AfterRun(run.value) else Now(status);
      callbacks := callbacks + [Callback(key, reply, false)];
    }

    method Register(key: string) returns (run: Option<nat>)
      modifies this
      ensures callbacks == old(callbacks) && outcomes == old(outcomes)
      ensures run == Some(|old(runs)|)
      ensures inFlight == old(inFlight)[key := |old(runs)|]
      ensures runs == old(runs) + [Run(key, detaches, |callbacks|, None, false)]
    {
      run := Some(|runs|);
      inFlight := inFlight[key := |runs|];
      runs := runs + [Run(key, detaches, |callbacks|, None, false)];
    }

    /** The execution came back: the entry is completed and the key removed. */
    method OnReturn(r: nat, returned: Returned)
      requires CanStep(Snapshot(), Conclude(r, returned))
      modifies this
      ensures Snapshot() == Do(old(Snapshot()), detaches, Conclude(r, returned))
      ensures |runs| == |old(runs)| && runs[r].conclusion.Some? && Tells(runs[r].conclusion.value, returned)
      ensures inFlight == old(inFlight) - {old(runs)[r].key}
    {
      var key := runs[r].key;
      runs := runs[r := runs[r].(conclusion := Some(Conclusion(returned)))];
      inFlight := map k | k in inFlight && k != key :: inFlight[k];
    }

    /** The detached goroutine publishes its result. */
    method ReportDetached(r: nat)
      requires CanStep(Snapshot(), Report(r))
      modifies this
      ensures Snapshot() == Do(old(Snapshot()), detaches, Report(r))
    {
      outcomes := outcomes + [Outcome(Some(r), runs[r].key, runs[r].conclusion.value)];
      runs := runs[r := runs[r].(reported := true)];
    }

    /** The callback publishes its status: its run's conclusion if it ran the execution itself. */
    method PublishReply(c: nat)
      requires CanStep(Snapshot(), Answer(c))
      modifies this
      ensures Snapshot() == Do(old(Snapshot()), detaches, Answer(c))
    {
      match callbacks[c].reply {
        case Now(status) =>
          outcomes := outcomes + [Outcome(None, callbacks[c].key, status)];
        case AfterRun(r) =>
          outcomes := outcomes + [Outcome(Some(r), runs[r].key, runs[r].conclusion.value)];
          runs := runs[r := runs[r].(reported := true)];
      }
      callbacks := callbacks[c := callbacks[c].(answered := true)];
    }
  }

  function Empty(): State {
    State(map[], [], [], [])
  }

  // ----- the invariant -----

  /** The in-flight map holds exactly the runs between registration and removal. */
  ghost predicate Guarded(s: State) {
    && (forall k :: k in s.inFlight ==>
          s.inFlight[k] < |s.runs| && s.runs[s.inFlight[k]].key == k && s.runs[s.inFlight[k]].conclusion.None?)
    && (forall r {:trigger s.runs[r]} :: 0 <= r < |s.runs| && s.runs[r].conclusion.None? ==>
          s.runs[r].key in s.inFlight && s.inFlight[s.runs[r].key] == r)
  }

  /** Every run that ended was published as it ended, at most once; nothing else says more than that work goes on. */
  ghost predicate Reported(s: State) {
    && (forall i {:trigger s.outcomes[i]} :: 0 <= i < |s.outcomes| && s.outcomes[i].run.Some? ==>
          var r := s.outcomes[i].run.value;
          r < |s.runs| && s.runs[r].reported && s.runs[r].conclusion == Some(s.outcomes[i].status)
          && s.outcomes[i].key == s.runs[r].key
          && s.outcomes[i].status != StatusInExecution)
    && (forall i, j {:trigger s.outcomes[i], s.outcomes[j]} ::
          0 <= i < j < |s.outcomes| && s.outcomes[i].run.Some? ==> s.outcomes[i].run != s.outcomes[j].run)
    && (forall r {:trigger s.runs[r]} :: 0 <= r < |s.runs| && s.runs[r].reported ==>
          exists i :: 0 <= i < |s.outcomes| && s.outcomes[i].run == Some(r))
  }

  /** Who is to publish a run: the callback that started it, unless it was detached. */
  ghost predicate Assigned(s: State) {
    && (forall c {:trigger s.callbacks[c]} :: 0 <= c < |s.callbacks| && s.callbacks[c].reply.AfterRun? ==>
          var r := s.callbacks[c].reply.run;
          r < |s.runs| && !s.runs[r].detached && s.runs[r].starter == c
              && s.callbacks[c].answered == s.runs[r].reported)
    && (forall r {:trigger s.runs[r]} :: 0 <= r < |s.runs| && !s.runs[r].detached ==>
          s.runs[r].starter < |s.callbacks| && s.callbacks[s.runs[r].starter].reply == AfterRun(r))
    && (forall r {:trigger s.runs[r]} :: 0 <= r < |s.runs| && s.runs[r].reported ==> s.runs[r].conclusion.Some?)
    && (forall r {:trigger s.runs[r]} :: 0 <= r < |s.runs| && s.runs[r].conclusion.Some? ==>
          s.runs[r].conclusion.value != StatusInExecution)
  }

  ghost predicate Consistent(s: State) {
    Guarded(s) && Reported(s) && Assigned(s)
  }

  lemma DeliveryKeepsConsistent(s: State, detaches: bool, key: string, seen: KeyStatus)
    requires Consistent(s)
    ensures Consistent(Delivered(s, detaches, key, seen))
  {
    DeliveryKeepsReported(s, detaches, key, seen);
    DeliveryKeepsRest(s, detaches, key, seen);
    hide Reported, Guarded, Assigned;
  }

  lemma DeliveryKeepsReported(s: State, detaches: bool, key: string, seen: KeyStatus)
    requires Reported(s)
    ensures Reported(Delivered(s, detaches, key, seen))
  {
  }

  lemma DeliveryKeepsGuarded(s: State, detaches: bool, key: string, seen: KeyStatus)
    requires Guarded(s)
    ensures Guarded(Delivered(s, detaches, key, seen))
  {
  }

  lemma DeliveryKeepsRest(s: State, detaches: bool, key: string, seen: KeyStatus)
    requires Guarded(s) && Assigned(s)
    ensures Guarded(Delivered(s, detaches, key, seen)) && Assigned(Delivered(s, detaches, key, seen))
  {
    DeliveryKeepsGuarded(s, detaches, key, seen);
    hide Guarded;
  }

  lemma ConclusionKeepsConsistent(s: State, r: nat, returned: Returned)
    requires Consistent(s) && CanStep(s, Conclude(r, returned))
    ensures Consistent(Concluded(s, r, returned))
  {
  }

  lemma PublicationKeepsReported(s: State, r: nat)
    requires Reported(s) && Assigned(s) && r < |s.runs| && s.runs[r].conclusion.Some? && !s.runs[r].reported
    ensures Reported(Published(s, r))
  {
    var t := Published(s, r);
    forall q {:trigger t.runs[q]} | 0 <= q < |t.runs| && t.runs[q].reported
      ensures exists i :: 0 <= i < |t.outcomes| && t.outcomes[i].run == Some(q)
    {
      if q == r {
        assert t.outcomes[|s.outcomes|].run == Some(q);
      } else {
        assert s.runs[q].reported;
        var i :| 0 <= i < |s.outcomes| && s.outcomes[i].run == Some(q);
        assert t.outcomes[i].run == Some(q);
      }
    }
  }

  lemma ReportKeepsConsistent(s: State, r: nat)
    requires Consistent(s) && CanStep(s, Report(r))
    ensures Consistent(Published(s, r))
  {
    PublicationKeepsReported(s, r);
    hide Reported;
  }

  lemma AnswerKeepsConsistent(s: State, c: nat)
    requires Consistent(s) && CanStep(s, Answer(c))
    ensures Consistent(Answered(s, c))
  {
    if s.callbacks[c].reply.AfterRun? {
      AnswerAfterRunKeepsReported(s, c);
    } else {
      QuietOutcomesKeepReported(s, Outcome(None, s.callbacks[c].key, s.callbacks[c].reply.status), c);
    }
    AnswerKeepsRest(s, c);
    hide Reported, Guarded, Assigned;
  }

  lemma AnswerKeepsGuarded(s: State, c: nat)
    requires Guarded(s) && CanStep(s, Answer(c))
    ensures Guarded(Answered(s, c))
  {
  }

  lemma AnswerKeepsRest(s: State, c: nat)
    requires Guarded(s) && Assigned(s) && CanStep(s, Answer(c))
    ensures Guarded(Answered(s, c)) && Assigned(Answered(s, c))
  {
    AnswerKeepsGuarded(s, c);
    hide Guarded;
  }

  lemma AnswerAfterRunKeepsReported(s: State, c: nat)
    requires Reported(s) && Assigned(s) && CanStep(s, Answer(c)) && s.callbacks[c].reply.AfterRun?
    ensures Reported(Answered(s, c))
  {
    PublicationKeepsReported(s, s.callbacks[c].reply.run);
    ReportedIgnoresCallbacks(Published(s, s.callbacks[c].reply.run), Answered(s, c).callbacks);
  }

  lemma ReportedIgnoresCallbacks(s: State, callbacks: seq<Callback>)
    requires Reported(s)
    ensures Reported(s.(callbacks := callbacks))
  {
  }

  lemma QuietOutcomesKeepReported(s: State, o: Outcome, c: nat)
    requires Reported(s) && o.run.None? && CanStep(s, Answer(c)) && s.callbacks[c].reply.Now?
    requires o == Outcome(None, s.callbacks[c].key, s.callbacks[c].reply.status)
    ensures Reported(Answered(s, c))
  {
    var t := Answered(s, c);
    assert t.outcomes == s.outcomes + [o] && t.runs == s.runs;
    forall q {:trigger t.runs[q]} | 0 <= q < |t.runs| && t.runs[q].reported
      ensures exists i :: 0 <= i < |t.outcomes| && t.outcomes[i].run == Some(q)
    {
      assert s.runs[q].reported;
      var i :| 0 <= i < |s.outcomes| && s.outcomes[i].run == Some(q);
      assert t.outcomes[i].run == Some(q);
    }
  }

  lemma StepKeepsConsistent(s: State, detaches: bool, step: Step)
    requires Consistent(s) && CanStep(s, step)
    ensures Consistent(Do(s, detaches, step))
  {
    hide Consistent, Delivered, Concluded, Published, Answered;
    match step {
      case Deliver(key, seen) => DeliveryKeepsConsistent(s, detaches, key, seen);
      case Conclude(r, returned) => ConclusionKeepsConsistent(s, r, returned);
      case Report(r) => ReportKeepsConsistent(s, r);
      case Answer(c) => AnswerKeepsConsistent(s, c);
    }
  }

  // ----- runs -----

  predicate CanPerform(s: State, detaches: bool, steps: seq<Step>)
    decreases |steps|
  {
    steps == [] || (CanStep(s, steps[0]) && CanPerform(Do(s, detaches, steps[0]), detaches, steps[1..]))
  }

  function Perform(s: State, detaches: bool, steps: seq<Step>): State
    requires CanPerform(s, detaches, steps)
    decreases |steps|
  {
    if steps == [] then s else Perform(Do(s, detaches, steps[0]), detaches, steps[1..])
  }

  lemma {:induction false} InterleavingsKeepConsistent(s: State, detaches: bool, steps: seq<Step>)
    requires Consistent(s) && CanPerform(s, detaches, steps)
    ensures Consistent(Perform(s, detaches, steps))
    decreases |steps|
  {
    hide Consistent, CanStep, Do;
    if steps != [] {
      StepKeepsConsistent(s, detaches, steps[0]);
      InterleavingsKeepConsistent(Do(s, detaches, steps[0]), detaches, steps[1..]);
    }
  }

  /** Whatever callbacks and goroutines do, two runs of one key are never in progress together. */
  lemma RunsDoNotOverlap(detaches: bool, steps: seq<Step>, q: nat, r: nat)
    requires CanPerform(Empty(), detaches, steps)
    requires var s := Perform(Empty(), detaches, steps);
      q < |s.runs| && r < |s.runs| && s.runs[q].key == s.runs[r].key
      && s.runs[q].conclusion.None? && s.runs[r].conclusion.None?
    ensures q == r
  {
    InterleavingsKeepConsistent(Empty(), detaches, steps);
    hide Reported, Assigned;
    var s := Perform(Empty(), detaches, steps);
    assert s.inFlight[s.runs[q].key] == q && s.inFlight[s.runs[r].key] == r;
  }

  /** While a run is in progress no delivery of its key starts another one. */
  lemma {:induction false} KeysStayGuarded(s: State, detaches: bool, steps: seq<Step>, r: nat)
    requires Consistent(s) && CanPerform(s, detaches, steps) && r < |s.runs| && s.runs[r].conclusion.None?
    requires forall step :: step in steps ==> !(step.Conclude? && step.run == r)
    ensures var t := Perform(s, detaches, steps);
      && r < |t.runs| && t.runs[r].key == s.runs[r].key && t.runs[r].conclusion.None?
      && forall seen :: !Registers(t, detaches, s.runs[r].key, seen)
    decreases |steps|
  {
    hide Reported, Assigned;
    if steps != [] {
      StepKeepsConsistent(s, detaches, steps[0]);
      assert steps[0] in steps;
      KeysStayGuarded(Do(s, detaches, steps[0]), detaches, steps[1..], r);
    }
  }

  /** Somewhere in the interleaving the execution of run r came back, and in this way. */
  predicate CameBack(steps: seq<Step>, r: nat, returned: Returned) {
    Conclude(r, returned) in steps
  }

  lemma ConclusionsStay(s: State, detaches: bool, step: Step, r: nat)
    requires CanStep(s, step) && r < |s.runs| && s.runs[r].conclusion.Some?
    ensures var t := Do(s, detaches, step); r < |t.runs| && t.runs[r].conclusion == s.runs[r].conclusion
    ensures !(step.Conclude? && step.run == r)
  {
  }

  /** A step that concludes a run concludes it as it came back; no other step concludes it. */
  lemma OneStepConcludes(s: State, detaches: bool, step: Step, r: nat)
    requires CanStep(s, step) && (r < |s.runs| ==> s.runs[r].conclusion.None?)
    ensures var t := Do(s, detaches, step);
      if step.Conclude? && step.run == r
      then r < |t.runs| && t.runs[r].conclusion.Some? && Tells(t.runs[r].conclusion.value, step.returned)
      else r < |t.runs| ==> t.runs[r].conclusion.None?
  {
  }

  lemma {:induction false} ConcludedStays(s: State, detaches: bool, steps: seq<Step>, r: nat)
    requires CanPerform(s, detaches, steps) && r < |s.runs| && s.runs[r].conclusion.Some?
    ensures var t := Perform(s, detaches, steps); r < |t.runs| && t.runs[r].conclusion == s.runs[r].conclusion
    ensures forall x :: !CameBack(steps, r, x)
    decreases |steps|
  {
    hide CanStep, Do;
    if steps != [] {
      ConclusionsStay(s, detaches, steps[0], r);
      ConcludedStays(Do(s, detaches, steps[0]), detaches, steps[1..], r);
      assert steps == [steps[0]] + steps[1..];
      assert forall x :: CameBack(steps, r, x) ==> steps[0] == Conclude(r, x) || CameBack(steps[1..], r, x);
    }
  }

  /** Over every interleaving a run is concluded exactly when its execution came back, and as it came back. */
  lemma {:induction false} ConclusionsTellReturns(s: State, detaches: bool, steps: seq<Step>, r: nat)
    requires CanPerform(s, detaches, steps) && (r < |s.runs| ==> s.runs[r].conclusion.None?)
    ensures var t := Perform(s, detaches, steps);
      && (r < |t.runs| && t.runs[r].conclusion.Some? ==> exists x :: CameBack(steps, r, x))
      && (forall x :: CameBack(steps, r, x) ==>
            r < |t.runs| && t.runs[r].conclusion.Some? && Tells(t.runs[r].conclusion.value, x))
    decreases |steps|
  {
    hide CanStep, Do, Tells;
    if steps != [] {
      var s1, rest := Do(s, detaches, steps[0]), steps[1..];
      OneStepConcludes(s, detaches, steps[0], r);
      assert steps == [steps[0]] + rest;
      assert forall x :: CameBack(steps, r, x) <==> steps[0] == Conclude(r, x) || CameBack(rest, r, x);
      if steps[0].Conclude? && steps[0].run == r {
        ConcludedStays(s1, detaches, rest, r);
        assert CameBack(steps, r, steps[0].returned);
      } else {
        ConclusionsTellReturns(s1, detaches, rest, r);
      }
    }
  }

  /**
   * A run whose result was published was published exactly once: as a success if its execution came
   * back with a result and no error, as failed if the service reported an error, as an error if the
   * call failed.
   */
  lemma RunsArePublishedOnce(detaches: bool, steps: seq<Step>, r: nat)
    requires CanPerform(Empty(), detaches, steps) && r < |Perform(Empty(), detaches, steps).runs|
    ensures var s := Perform(Empty(), detaches, steps);
      if s.runs[r].reported
      then exists i, returned :: 0 <= i < |s.outcomes| && IsTheOutcome(s, i, r) && CameBack(steps, r, returned)
             && Tells(s.outcomes[i].status, returned)
      else forall i :: 0 <= i < |s.outcomes| ==> s.outcomes[i].run != Some(r)
    ensures forall x, y :: CameBack(steps, r, x) && CameBack(steps, r, y) ==> x == y
  {
    InterleavingsKeepConsistent(Empty(), detaches, steps);
    ConclusionsTellReturns(Empty(), detaches, steps, r);
    hide Guarded, Assigned;
    var s := Perform(Empty(), detaches, steps);
    if s.runs[r].reported {
      var i :| 0 <= i < |s.outcomes| && s.outcomes[i].run == Some(r);
      assert IsTheOutcome(s, i, r);
      var returned :| CameBack(steps, r, returned);
      assert Tells(s.outcomes[i].status, returned);
    }
  }

  /**
   * A delivery starts a run of its key exactly when none is in progress and the service has not seen
   * the key, or has completed it, or an executor that detaches finds it left over by an earlier process.
   */
  lemma DeliveriesStartRuns(detaches: bool, steps: seq<Step>, key: string, seen: KeyStatus)
    requires CanPerform(Empty(), detaches, steps)
    ensures var s := Perform(Empty(), detaches, steps); var t := Do(s, detaches, Deliver(key, seen));
      var free := forall r :: 0 <= r < |s.runs| && s.runs[r].key == key ==> s.runs[r].conclusion.Some?;
      if free && (seen.NotSeen? || seen.Completed? || (seen.InProgress? && detaches))
      then t.runs == s.runs + [Run(key, detaches, |s.callbacks|, None, false)]
      else t.runs == s.runs
  {
    InterleavingsKeepConsistent(Empty(), detaches, steps);
    hide Reported, Assigned;
    var s := Perform(Empty(), detaches, steps);
    if key in s.inFlight {
      assert s.runs[s.inFlight[key]].key == key;
    }
  }

  /** What is published without a run says that work goes on, or that the key could not be checked. */
  predicate SaysNothing(status: ResultStatus, checkFails: bool) {
    status.StatusInExecution? || (checkFails && status.StatusError?)
  }

  ghost predicate Quiet(s: State, checkFails: bool) {
    && (forall c {:trigger s.callbacks[c]} :: 0 <= c < |s.callbacks| && s.callbacks[c].reply.Now? ==>
          SaysNothing(s.callbacks[c].reply.status, checkFails))
    && (forall i {:trigger s.outcomes[i]} :: 0 <= i < |s.outcomes| && s.outcomes[i].run.None? ==>
          SaysNothing(s.outcomes[i].status, checkFails))
  }

  predicate ChecksFail(step: Step) {
    step.Deliver? && step.seen.CheckFailed?
  }

  lemma StepKeepsQuiet(s: State, detaches: bool, step: Step, checkFails: bool)
    requires Quiet(s, checkFails) && CanStep(s, step) && (ChecksFail(step) ==> checkFails)
    ensures Quiet(Do(s, detaches, step), checkFails)
  {
  }

  /** Nothing but the return of an execution ever settles a request: all else only says that work goes on. */
  lemma {:induction false} OnlyRunsSettle(s: State, detaches: bool, steps: seq<Step>, checkFails: bool)
    requires CanPerform(s, detaches, steps) && Quiet(s, checkFails)
    requires forall step :: step in steps && ChecksFail(step) ==> checkFails
    ensures Quiet(Perform(s, detaches, steps), checkFails)
    decreases |steps|
  {
    hide Quiet, CanStep, Do, ChecksFail;
    if steps != [] {
      assert steps[0] in steps && forall step :: step in steps[1..] ==> step in steps;
      StepKeepsQuiet(s, detaches, steps[0], checkFails);
      OnlyRunsSettle(Do(s, detaches, steps[0]), detaches, steps[1..], checkFails);
    }
  }

  /** The one outcome published for a run. */
  predicate IsTheOutcome(s: State, i: nat, r: nat)
    requires i < |s.outcomes| && r < |s.runs|
  {
    && s.outcomes[i].run == Some(r) && s.outcomes[i].key == s.runs[r].key
    && s.runs[r].conclusion == Some(s.outcomes[i].status)
    && !s.outcomes[i].status.StatusInExecution?
    && forall j :: 0 <= j < |s.outcomes| && s.outcomes[j].run == Some(r) ==> j == i
  }

  /** A run that has ended and is not published yet can be published at once, by the one it is assigned to. */
  lemma EndedRunsCanBePublished(detaches: bool, steps: seq<Step>, r: nat)
    requires CanPerform(Empty(), detaches, steps) && r < |Perform(Empty(), detaches, steps).runs|
    requires var run := Perform(Empty(), detaches, steps).runs[r]; run.conclusion.Some? && !run.reported
    ensures var s := Perform(Empty(), detaches, steps);
      var step := if s.runs[r].detached then Report(r) else Answer(s.runs[r].starter);
      CanStep(s, step) && Do(s, detaches, step).outcomes ==
          s.outcomes + [Outcome(Some(r), s.runs[r].key, s.runs[r].conclusion.value)]
  {
    InterleavingsKeepConsistent(Empty(), detaches, steps);
    hide Guarded, Reported;
  }
}
