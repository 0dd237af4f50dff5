/** The worker's health record, specified as a function of everything that happened to the worker. */
module WorkerHealth {
  import opened Wrappers

  datatype Event =
    | Started(at: int)
    | Progressed(at: int)
    | AttemptStarted(at: int)
    | AttemptFailed(at: int, error: string)
    | Stopped(at: int, error: string)

  datatype Snapshot = Snapshot(
    running: bool,
    stalled: bool,
    startedAt: Option<int>,
    lastProgressAt: Option<int>,
    attemptStartedAt: Option<int>,
    lastFailureAt: Option<int>,
    consecutiveFailures: nat,
    lastError: Option<string>)

  // ---- the trace definition ----

  /** Starts; starts and stops; starts and progress; failures; failures and stops; those with a message. */
  datatype Filter = Starts | Turns | Resets | Failures | Troubles | Errors

  predicate Keeps(f: Filter, e: Event)
  {
    match f
    case Starts => e.Started?
    case Turns => e.Started? || e.Stopped?
    case Resets => IsReset(e)
    case Failures => e.AttemptFailed?
    case Troubles => e.AttemptFailed? || e.Stopped?
    case Errors => e.AttemptFailed? || (e.Stopped? && e.error != "")
  }

  /** The events of the history that the filter keeps, in order. */
  function Only(history: seq<Event>, f: Filter): seq<Event>
  {
    if history == [] then []
    else
      var last := history[|history| - 1];
      Only(history[..|history| - 1], f) + if Keeps(f, last) then [last] else []
  }

  /** The events after the last start or progress. */
  function Since(history: seq<Event>): seq<Event>
  {
    if history == [] || IsReset(history[|history| - 1]) then []
    else Since(history[..|history| - 1]) + [history[|history| - 1]]
  }

  predicate IsReset(e: Event)
  {
    e.Started? || e.Progressed?
  }

  function LastAt(events: seq<Event>): Option<int>
  {
    if events == [] then None else Some(events[|events| - 1].at)
  }

  /** The worker's latest start or stop was a start. */
  predicate Running(history: seq<Event>)
  {
    var turns := Only(history, Turns);
    turns != [] && turns[|turns| - 1].Started?
  }

  /** An attempt is open exactly when its start is the last thing that happened. */
  function OpenAttempt(history: seq<Event>): Option<int>
  {
    if history != [] && history[|history| - 1].AttemptStarted? then Some(history[|history| - 1].at) else None
  }

  function FirstAt(events: seq<Event>): Option<int>
  {
    if events == [] then None else Some(events[0].at)
  }

  /** When the current run of failures began. */
  function FailureClock(history: seq<Event>): Option<int>
  {
    FirstAt(Only(Since(history), Failures))
  }

  function LastMessage(events: seq<Event>): Option<string>
  {
    if events != [] && (events[|events| - 1].AttemptFailed? || events[|events| - 1].Stopped?) then
      Some(events[|events| - 1].error)
    else None
  }

  predicate OverdueSince(start: Option<int>, now: int, stallSeconds: int)
  {
    start.Some? && now - start.value >= stallSeconds
  }

  predicate Stalled(history: seq<Event>, now: int, stallSeconds: int)
  {
    && Running(history)
    && (OverdueSince(OpenAttempt(history), now, stallSeconds) || OverdueSince(FailureClock(history), now, stallSeconds))
  }

  /** What snapshot reports, read off the history alone. */
  function Report(history: seq<Event>, now: int, stallSeconds: int): Snapshot
  {
    Snapshot(
      Running(history),
      Stalled(history, now, stallSeconds),
      LastAt(Only(history, Starts)),
      LastAt(Only(history, Resets)),
      OpenAttempt(history),
      LastAt(Only(Since(history), Troubles)),
      |Only(Since(history), Failures)|,
      LastMessage(Only(Since(history), Errors)))
  }

  lemma OnlyAppend(history: seq<Event>, e: Event, f: Filter)
    ensures Only(history + [e], f) == Only(history, f) + if Keeps(f, e) then [e] else []
  {
    assert (history + [e])[..|history|] == history;
  }

  lemma SinceAppend(history: seq<Event>, e: Event)
    ensures Since(history + [e]) == if IsReset(e) then [] else Since(history) + [e]
  {
    assert (history + [e])[..|history|] == history;
  }

  /** The values the worker has to keep to be able to report. */
  datatype Fields = Fields(
    running: bool,
    startedAt: Option<int>,
    lastProgressAt: Option<int>,
    attemptStartedAt: Option<int>,
    failureStartedAt: Option<int>,
    lastFailureAt: Option<int>,
    consecutiveFailures: nat,
    lastError: Option<string>)

  const IDLE := Fields(false, None, None, None, None, None, 0, None)

  /** What each event does to the kept values. */
  function Update(was: Fields, e: Event): Fields
  {
    match e
    case Started(at) => Fields(true, Some(at), Some(at), None, None, None, 0, None)
    case Progressed(at) => Fields(was.running, was.startedAt, Some(at), None, None, None, 0, None)
    case AttemptStarted(at) => was.(attemptStartedAt := Some(at))
    case AttemptFailed(at, error) => was.(
        attemptStartedAt := None,
        failureStartedAt := if was.failureStartedAt.None? then Some(at) else was.failureStartedAt,
        lastFailureAt := Some(at),
        consecutiveFailures := was.consecutiveFailures + 1,
        lastError := Some(error))
    case Stopped(at, error) => was.(
        running := false,
        attemptStartedAt := None,
        lastFailureAt := Some(at),
        lastError := if error == "" then was.lastError else Some(error))
  }

  /** The kept values after a history of events. */
  function Fold(history: seq<Event>): Fields
  {
    if history == [] then IDLE else Update(Fold(history[..|history| - 1]), history[|history| - 1])
  }

  /** The kept values mean what the trace definition says. */
  ghost predicate Agrees(history: seq<Event>, f: Fields)
  {
    && f.running == Running(history)
    && f.startedAt == LastAt(Only(history, Starts))
    && f.lastProgressAt == LastAt(Only(history, Resets))
    && f.attemptStartedAt == OpenAttempt(history)
    && AgreesSince(Since(history), f)
  }

  ghost predicate AgreesSince(events: seq<Event>, f: Fields)
  {
    && f.failureStartedAt == FirstAt(Only(events, Failures))
    && f.lastFailureAt == LastAt(Only(events, Troubles))
    && f.consecutiveFailures == |Only(events, Failures)|
    && f.lastError == LastMessage(Only(events, Errors))
  }

  lemma SinceAgrees(events: seq<Event>, f: Fields, e: Event)
    requires AgreesSince(events, f) && !IsReset(e)
    ensures AgreesSince(events + [e], Update(f, e))
  {
    OnlyAppend(events, e, Failures);
    OnlyAppend(events, e, Troubles);
    OnlyAppend(events, e, Errors);
  }

  lemma LastKept(history: seq<Event>, e: Event, f: Filter)
    ensures LastAt(Only(history + [e], f)) == if Keeps(f, e) then Some(e.at) else LastAt(Only(history, f))
  {
    OnlyAppend(history, e, f);
  }

  lemma RunningAfter(history: seq<Event>, e: Event)
    ensures Running(history + [e]) == if e.Started? then true else if e.Stopped? then false else Running(history)
  {
    OnlyAppend(history, e, Turns);
  }

  lemma TurnsAgree(history: seq<Event>, f: Fields, e: Event)
    requires f.running == Running(history) && f.startedAt == LastAt(Only(history, Starts))
    requires f.lastProgressAt == LastAt(Only(history, Resets))
    ensures var f', history' := Update(f, e), history + [e];
      f'.running == Running(history') && f'.startedAt == LastAt(Only(history', Starts)) &&
        f'.lastProgressAt == LastAt(Only(history', Resets))
  {
    LastKept(history, e, Starts);
    LastKept(history, e, Resets);
    RunningAfter(history, e);
  }

  lemma {:induction false} FoldAgrees(history: seq<Event>)
    ensures Agrees(history, Fold(history))
  {
    if history != [] {
      var front, e := history[..|history| - 1], history[|history| - 1];
      FoldAgrees(front);
      assert history == front + [e];
      TurnsAgree(front, Fold(front), e);
      if !IsReset(e) {
        SinceAgrees(Since(front), Fold(front), e);
      }
    }
  }

  // ---- the record ----

  class WorkerHealth {
    var running: bool
    var startedAt: Option<int>
    var lastProgressAt: Option<int>
    var attemptStartedAt: Option<int>
    var failureStartedAt: Option<int>
    var lastFailureAt: Option<int>
    var consecutiveFailures: nat
    var lastError: Option<string>

    /** Everything that was ever recorded. */
    ghost var history: seq<Event>

    ghost predicate Valid()
      reads this
    {
      Fold(history) == Kept()
    }

    constructor ()
      ensures Valid() && history == []
    {
      running, startedAt, lastProgressAt, attemptStartedAt := false, None, None, None;
      failureStartedAt, lastFailureAt, consecutiveFailures, lastError := None, None, 0, None;
      history := [];
    }

    /** The fields as they are kept. */
    ghost function Kept(): Fields
      reads this
    {
      Fields(running, startedAt, lastProgressAt, attemptStartedAt, failureStartedAt, lastFailureAt,
        consecutiveFailures, lastError)
    }

    /** Note the event that the fields have been updated for. */
    ghost method Note(was: Fields, e: Event)
      requires Fold(history) == was && Kept() == Update(was, e)
      modifies this`history
      ensures Valid() && history == old(history) + [e]
    {
      history := history + [e];
      assert history[..|history| - 1] == old(history);
    }

    method Start(now: int)
      requires Valid()
      modifies this
      ensures Valid() && history == old(history) + [Started(now)]
    {
      ghost var was := Kept();
      running, startedAt, lastProgressAt, attemptStartedAt := true, Some(now), Some(now), None;
      failureStartedAt, lastFailureAt, consecutiveFailures, lastError := None, None, 0, None;
      Note(was, Started(now));
    }

    method Progress(now: int)
      requires Valid()
      modifies this
      ensures Valid() && history == old(history) + [Progressed(now)]
    {
      ghost var was := Kept();
      lastProgressAt, attemptStartedAt := Some(now), None;
      failureStartedAt, lastFailureAt, consecutiveFailures, lastError := None, None, 0, None;
      Note(was, Progressed(now));
    }

    method StartAttempt(now: int)
      requires Valid()
      modifies this
      ensures Valid() && history == old(history) + [AttemptStarted(now)]
    {
      ghost var was := Kept();
      attemptStartedAt := Some(now);
      Note(was, AttemptStarted(now));
    }

    method Fail(now: int, error: string)
      requires Valid()
      modifies this
      ensures Valid() && history == old(history) + [AttemptFailed(now, error)]
    {
      ghost var was := Kept();
      attemptStartedAt := None;
      if failureStartedAt.None? {
        failureStartedAt := Some(now);
      }
      lastFailureAt := Some(now);
      consecutiveFailures := consecutiveFailures + 1;
      lastError := Some(error);
      Note(was, AttemptFailed(now, error));
    }

    method Stop(now: int, error: string)
      requires Valid()
      modifies this
      ensures Valid() && history == old(history) + [Stopped(now, error)]
    {
      ghost var was := Kept();
      running := false;
      attemptStartedAt := None;
      lastFailureAt := Some(now);
      if error != "" {
        lastError := Some(error);
      }
      Note(was, Stopped(now, error));
    }

    /** The snapshot is the report on the whole history. */
    method TakeSnapshot(now: int, stallSeconds: int) returns (snapshot: Snapshot)
      requires Valid()
      ensures snapshot == Report(history, now, stallSeconds)
    {
      FoldAgrees(history);
      var overdueAttempt := attemptStartedAt.Some? && now - attemptStartedAt.value >= stallSeconds;
      var overdueFailure := failureStartedAt.Some? && now - failureStartedAt.value >= stallSeconds;
      snapshot := Snapshot(running, running && (overdueAttempt || overdueFailure), startedAt, lastProgressAt,
                           attemptStartedAt, lastFailureAt, consecutiveFailures, lastError);
    }
  }

  // ---- what the report means ----

  /** Failures are counted from the last start or progress, and the failure clock is the first of them. */
  lemma {:induction false} FailuresCountFromReset(before: seq<Event>, reset: Event, after: seq<Event>)
    requires IsReset(reset) && forall i :: 0 <= i < |after| ==> !IsReset(after[i])
    ensures Only(Since(before + [reset] + after), Failures) == Only(after, Failures)
  {
    SinceReset(before, reset, after);
  }

  lemma {:induction false} SinceReset(before: seq<Event>, reset: Event, after: seq<Event>)
    requires IsReset(reset) && forall i :: 0 <= i < |after| ==> !IsReset(after[i])
    ensures Since(before + [reset] + after) == after
  {
    if after == [] {
      assert before + [reset] + after == before + [reset];
      SinceAppend(before, reset);
    } else {
      var front, last := after[..|after| - 1], after[|after| - 1];
      assert before + [reset] + after == (before + [reset] + front) + [last];
      SinceReset(before, reset, front);
      SinceAppend(before + [reset] + front, last);
    }
  }
}
