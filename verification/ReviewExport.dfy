/** Exporting review transcripts and closing the reviewed beads, as a protocol of single steps. */
module ReviewExport {
  import opened Wrappers

  /** A dispatched review marker; it does not change any more. */
  datatype ReviewMarker = ReviewMarker(beadId: string, sourceKey: string)

  /** A stored transcript: the source key its final review is bound to, and the session that wrote it, if any. */
  datatype Transcript = Transcript(boundTo: Option<string>, sessionId: Option<string>)

  datatype CloseState = ClosePending | Closed | OwnershipChanged

  datatype Completion = Completion(beadId: string, sourceKey: string, sessionId: string, state: CloseState)

  datatype Bead = Bead(assignee: Option<string>, status: string)

  /** What the guarded close reports: success, guard refused (exit code 13), or anything else. */
  datatype CloseReply = ClosedReply | GuardReply | OtherReply

  datatype Cursor =
    | Idle
    | Closing(name: string, sessionId: string)
    | Answered(name: string, sessionId: string, reply: CloseReply)

  datatype Files = Files(
    markers: map<string, ReviewMarker>,
    transcripts: map<string, Transcript>,
    completions: map<string, Completion>,
    beads: map<string, Bead>,
    cursor: Cursor,
    closures: set<(string, string)>)    // every (bead, session) this path has closed

  datatype Action =
    | AddMarker(name: string, marker: ReviewMarker)
    | Quarantine(name: string)
    | WriteTranscript(name: string, sessionId: string)
    | WriteInvalidFinal(name: string)
    | WriteIntent(name: string, sessionId: string)
    | ReuseIntent(name: string)
    | TryClose(reply: CloseReply, effective: bool)
    | WriteOutcome
    | Stop
    | CityChanges(bead: string, to: Bead)

  /** The stored transcript is bound to the marker's exact source. */
  predicate Bound(f: Files, name: string)
  {
    && name in f.markers
    && name in f.transcripts
    && f.transcripts[name].boundTo == Some(f.markers[name].sourceKey)
  }

  /** The completion file is this marker's, with this session. */
  predicate IntentFor(f: Files, name: string, sessionId: string)
  {
    && name in f.markers
    && name in f.completions
    && f.completions[name].beadId == f.markers[name].beadId
    && f.completions[name].sourceKey == f.markers[name].sourceKey
    && f.completions[name].sessionId == sessionId
  }

  /** The City's guard: still assigned to this session, and still in progress. */
  predicate GuardHolds(f: Files, bead: string, sessionId: string)
  {
    bead in f.beads && f.beads[bead].assignee == Some(sessionId) && f.beads[bead].status == "in_progress"
  }

  predicate Enabled(f: Files, a: Action)
  {
    match a
    case AddMarker(name, _) => name !in f.markers
    case Quarantine(name) => f.cursor.Idle? && name in f.transcripts && !Bound(f, name)
    case WriteTranscript(name, _) => f.cursor.Idle? && name in f.markers && name !in f.transcripts
    case WriteInvalidFinal(name) => f.cursor.Idle? && name in f.markers && name !in f.transcripts
    case WriteIntent(name, sessionId) =>
      && f.cursor.Idle?
      && Bound(f, name)
      && f.transcripts[name].sessionId == Some(sessionId)
      && name !in f.completions
    case ReuseIntent(name) =>
      && f.cursor.Idle?
      && Bound(f, name)
      && name in f.completions
      && IntentFor(f, name, f.completions[name].sessionId)
      && f.completions[name].state == ClosePending
    case TryClose(reply, effective) =>
      && f.cursor.Closing?
      && f.cursor.name in f.markers
      && (effective ==> GuardHolds(f, f.markers[f.cursor.name].beadId, f.cursor.sessionId))
      && (reply == ClosedReply ==> effective)
      && (reply == GuardReply ==> !GuardHolds(f, f.markers[f.cursor.name].beadId, f.cursor.sessionId))
    case WriteOutcome => f.cursor.Answered? && f.cursor.reply != OtherReply && f.cursor.name in f.completions
    case Stop => true
    case CityChanges(_, _) => true
  }

  function Apply(f: Files, a: Action): Files
    requires Enabled(f, a)
  {
    match a
    case AddMarker(name, m) => f.(markers := f.markers[name := m])
    case Quarantine(name) => f.(transcripts := f.transcripts - {name})
    case WriteTranscript(name, sessionId) =>
      f.(transcripts := f.transcripts[name := Transcript(Some(f.markers[name].sourceKey), Some(sessionId))])
    case WriteInvalidFinal(name) => f.(transcripts := f.transcripts[name := Transcript(None, None)])
    case WriteIntent(name, sessionId) =>
      var m := f.markers[name];
      f.(completions := f.completions[name := Completion(m.beadId, m.sourceKey, sessionId, ClosePending)],
         cursor := Closing(name, sessionId))
    case ReuseIntent(name) => f.(cursor := Closing(name, f.completions[name].sessionId))
    case TryClose(reply, effective) =>
      var bead, sessionId := f.markers[f.cursor.name].beadId, f.cursor.sessionId;
      f.(beads := if effective then f.beads[bead := f.beads[bead].(status := "closed")] else f.beads,
         closures := if effective then f.closures + {(bead, sessionId)} else f.closures,
         cursor := Answered(f.cursor.name, sessionId, reply))
    case WriteOutcome =>
      var state := if f.cursor.reply == ClosedReply then Closed else OwnershipChanged;
      f.(completions := f.completions[f.cursor.name := f.completions[f.cursor.name].(state := state)], cursor := Idle)
    case Stop => f.(cursor := Idle)
    case CityChanges(bead, to) => f.(beads := f.beads[bead := to])
  }

  const START := Files(map[], map[], map[], map[], Idle, {})

  function After(run: seq<Action>): Option<Files>
  {
    if run == [] then Some(START)
    else
      var before, a := After(run[..|run| - 1]), run[|run| - 1];
      if before.Some? && Enabled(before.value, a) then Some(Apply(before.value, a)) else None
  }

  // ---- invariant ----

  ghost predicate Inv(f: Files)
  {
    && (forall name :: name in f.completions ==> IntentFor(f, name, f.completions[name].sessionId))
    && (forall name :: name in f.completions && f.completions[name].state == Closed ==>
          (f.completions[name].beadId, f.completions[name].sessionId) in f.closures)
    && (!f.cursor.Idle? ==>
          && Bound(f, f.cursor.name)
          && IntentFor(f, f.cursor.name, f.cursor.sessionId)
          && f.completions[f.cursor.name].state == ClosePending)
    && (f.cursor.Answered? && f.cursor.reply == ClosedReply ==>
          (f.markers[f.cursor.name].beadId, f.cursor.sessionId) in f.closures)
  }

  lemma InvKeeps(f: Files, a: Action)
    requires Inv(f) && Enabled(f, a)
    ensures Inv(Apply(f, a))
  {
  }

  lemma {:induction false} InvAlways(run: seq<Action>)
    requires After(run).Some?
    ensures Inv(After(run).value)
  {
    if run != [] {
      InvAlways(run[..|run| - 1]);
      InvKeeps(After(run[..|run| - 1]).value, run[|run| - 1]);
    }
  }

  lemma {:induction false} Prefixes(run: seq<Action>, i: nat)
    requires After(run).Some? && i <= |run|
    ensures After(run[..i]).Some?
    ensures i < |run| ==> Enabled(After(run[..i]).value, run[i])
    ensures i < |run| ==> After(run[..i + 1]) == Some(Apply(After(run[..i]).value, run[i]))
    decreases |run| - i
  {
    if i == |run| {
      assert run[..i] == run;
    } else {
      Prefixes(run, i + 1);
      assert run[..i + 1][..i] == run[..i];
    }
  }

  /** Each intent is for its marker's bead and source, and for the session whose transcript of that source is stored. */
  ghost predicate IntentsInv(f: Files)
  {
    forall name :: name in f.completions ==>
      && name in f.markers && name in f.transcripts
      && f.transcripts[name].boundTo == Some(f.markers[name].sourceKey)
      && f.transcripts[name].sessionId == Some(f.completions[name].sessionId)
      && f.completions[name].beadId == f.markers[name].beadId
      && f.completions[name].sourceKey == f.markers[name].sourceKey
  }

  lemma {:induction false} IntentsKeep(f: Files, a: Action)
    requires Inv(f) && IntentsInv(f) && Enabled(f, a)
    ensures IntentsInv(Apply(f, a))
  {
  }

  // ---- main results ----

  /** In every run an intent names the bead and source of its marker, and the session that wrote the stored review. */
  lemma {:induction false} IntentsNameTheWriter(run: seq<Action>)
    requires After(run).Some?
    ensures IntentsInv(After(run).value)
  {
    if run != [] {
      InvAlways(run[..|run| - 1]);
      IntentsNameTheWriter(run[..|run| - 1]);
      IntentsKeep(After(run[..|run| - 1]).value, run[|run| - 1]);
    }
  }

  /**
   * A close is attempted only while a transcript of the marker's exact source, written by the session it is for, and
   * a pending close intent naming the marker's bead, that source and that session are both durable.
   */
  lemma {:induction false} TranscriptBeforeClose(run: seq<Action>, i: nat)
    requires After(run).Some? && i < |run| && run[i].TryClose?
    ensures After(run[..i]).Some?
    ensures var f := After(run[..i]).value;
      && f.cursor.Closing?
      && var name, sessionId := f.cursor.name, f.cursor.sessionId;
      && name in f.markers && name in f.transcripts && name in f.completions
      && var m := f.markers[name];
      && f.transcripts[name] == Transcript(Some(m.sourceKey), Some(sessionId))
      && f.completions[name] == Completion(m.beadId, m.sourceKey, sessionId, ClosePending)
  {
    Prefixes(run, i);
    InvAlways(run[..i]);
    IntentsNameTheWriter(run[..i]);
  }

  /** What is written: a transcript of the marker's source by the session, its intent, and the outcome of the reply. */
  lemma {:induction false} ExportWrites(run: seq<Action>, i: nat)
    requires After(run).Some? && i < |run|
    ensures After(run[..i]).Some? && After(run[..i + 1]).Some?
    ensures var f, f' := After(run[..i]).value, After(run[..i + 1]).value;
      && (run[i].WriteTranscript? ==>
            && run[i].name in f.markers && run[i].name !in f.transcripts
            && f'.transcripts == f.transcripts[run[i].name :=
                 Transcript(Some(f.markers[run[i].name].sourceKey), Some(run[i].sessionId))])
      && (run[i].Quarantine? ==> run[i].name in f.transcripts && f'.transcripts == f.transcripts - {run[i].name})
      && (run[i].WriteInvalidFinal? ==>
            run[i].name !in f.transcripts && f'.transcripts == f.transcripts[run[i].name := Transcript(None, None)])
      && (run[i].WriteIntent? ==>
            && run[i].name in f.markers && run[i].name !in f.completions
            && var m := f.markers[run[i].name];
               f'.completions == f.completions[run[i].name :=
                 Completion(m.beadId, m.sourceKey, run[i].sessionId, ClosePending)])
      && (run[i].WriteOutcome? ==>
            && f.cursor.Answered? && f.cursor.reply != OtherReply && f.cursor.name in f.completions
            && var c := f.completions[f.cursor.name];
               f'.completions == f.completions[f.cursor.name := Completion(c.beadId, c.sourceKey, c.sessionId,
                 if f.cursor.reply == ClosedReply then Closed else OwnershipChanged)])
  {
    Prefixes(run, i);
  }

  /** Step i changes no bead. */
  ghost predicate BeadsSame(run: seq<Action>, i: nat)
    requires i < |run|
  {
    After(run[..i]).Some? && After(run[..i + 1]).Some? && After(run[..i + 1]).value.beads == After(run[..i]).value.beads
  }

  /**
   * A close takes effect only on a bead in progress for the session, and then the bead is closed, still assigned to
   * it; the reply says so, if it comes. Otherwise no bead changes.
   */
  lemma {:induction false} CloseUnderGuard(run: seq<Action>, i: nat)
    requires After(run).Some? && i < |run| && run[i].TryClose?
    ensures !run[i].effective ==> BeadsSame(run, i) && run[i].reply != ClosedReply
    ensures run[i].effective ==> run[i].reply != GuardReply
    ensures run[i].effective ==>
      && After(run[..i]).Some? && After(run[..i + 1]).Some?
      && var f, f' := After(run[..i]).value, After(run[..i + 1]).value;
      && f.cursor.Closing? && f.cursor.name in f.markers
      && var bead, sessionId := f.markers[f.cursor.name].beadId, f.cursor.sessionId;
      && bead in f.beads && f.beads[bead] == Bead(Some(sessionId), "in_progress")
      && f'.beads == f.beads[bead := Bead(Some(sessionId), "closed")]
  {
    Prefixes(run, i);
  }

  /** The bead is not assigned to the session, and this path has not closed it for the session before. */
  ghost predicate Away(f: Files, bead: string, sessionId: string)
  {
    && !(bead in f.beads && f.beads[bead].assignee == Some(sessionId))
    && (bead, sessionId) !in f.closures
  }

  /** From step i to step j the City does not give the bead to the session. */
  ghost predicate NotGivenBack(run: seq<Action>, i: nat, j: nat, bead: string, sessionId: string)
    requires j <= |run|
  {
    forall k :: i <= k < j && run[k].CityChanges? && run[k].bead == bead ==> run[k].to.assignee != Some(sessionId)
  }

  lemma StaysAway(f: Files, a: Action, bead: string, sessionId: string)
    requires Away(f, bead, sessionId) && Enabled(f, a)
    requires a.CityChanges? && a.bead == bead ==> a.to.assignee != Some(sessionId)
    ensures Away(Apply(f, a), bead, sessionId)
  {
  }

  /**
   * A bead that was reassigned away from a session stays safe from that session's intents: as long as the City
   * does not give it back, no continuation closes it for the session, and no outcome of such an intent is Closed.
   */
  lemma {:induction false} ReassignedBeadIsSafe(run: seq<Action>, i: nat, j: nat, bead: string, sessionId: string)
    requires After(run).Some? && i <= j <= |run|
    requires After(run[..i]).Some? && Away(After(run[..i]).value, bead, sessionId)
    requires NotGivenBack(run, i, j, bead, sessionId)
    ensures After(run[..j]).Some? && (bead, sessionId) !in After(run[..j]).value.closures
    ensures forall name :: name in After(run[..j]).value.completions ==>
      var c := After(run[..j]).value.completions[name];
      c.beadId == bead && c.sessionId == sessionId ==> c.state != Closed
    decreases j - i
  {
    Prefixes(run, i);
    InvAlways(run[..i]);
    if i < j {
      StaysAway(After(run[..i]).value, run[i], bead, sessionId);
      ReassignedBeadIsSafe(run, i + 1, j, bead, sessionId);
    }
  }

  /** Every bead recorded as closed was closed by this path, for the session its intent names. */
  lemma ClosedMeansClosed(run: seq<Action>, name: string)
    requires After(run).Some?
    requires name in After(run).value.completions && After(run).value.completions[name].state == Closed
    ensures var f := After(run).value;
      IntentFor(f, name, f.completions[name].sessionId) &&
        (f.markers[name].beadId, f.completions[name].sessionId) in f.closures
  {
    InvAlways(run);
  }

  /** A later version of a completion: same bead, source and session; a final state is never left. */
  predicate LaterCompletion(c: Completion, c': Completion)
  {
    c' == c.(state := c'.state) && (c.state != ClosePending ==> c' == c)
  }

  /** Intents are write-once, and closed and ownership-changed are absorbing. */
  lemma {:induction false} OutcomesAreFinal(run: seq<Action>, i: nat, j: nat, name: string)
    requires After(run).Some? && i <= j <= |run|
    requires After(run[..i]).Some? && name in After(run[..i]).value.completions
    ensures After(run[..j]).Some? && name in After(run[..j]).value.completions
    ensures LaterCompletion(After(run[..i]).value.completions[name], After(run[..j]).value.completions[name])
    decreases j - i
  {
    Prefixes(run, i);
    Prefixes(run, j);
    if i < j {
      InvAlways(run[..i]);
      OutcomesAreFinal(run, i + 1, j, name);
    }
  }

  /** Once an outcome is recorded, no close is ever attempted for that marker again. */
  lemma {:induction false} NoCloseAfterOutcome(run: seq<Action>, i: nat, j: nat, name: string)
    requires After(run).Some? && i <= j < |run|
    requires After(run[..i]).Some? && name in After(run[..i]).value.completions
    requires After(run[..i]).value.completions[name].state != ClosePending
    requires run[j].TryClose?
    ensures After(run[..j]).Some? && After(run[..j]).value.cursor.Closing? && After(run[..j]).value.cursor.name != name
  {
    OutcomesAreFinal(run, i, j, name);
    TranscriptBeforeClose(run, j);
    InvAlways(run[..j]);
  }

  // ---- closed, and recorded as changed ownership ----

  /** Step i closes the marker's bead, whatever the reply. */
  ghost predicate ClosesFor(run: seq<Action>, i: nat, name: string)
  {
    && i < |run| && run[i].TryClose? && run[i].effective
    && After(run[..i]).Some?
    && After(run[..i]).value.cursor.Closing? && After(run[..i]).value.cursor.name == name
  }

  /**
   * At step j the process stops between a close for the marker and the record of its outcome, or hears no clear
   * reply.
   */
  ghost predicate LostAt(run: seq<Action>, j: nat, name: string)
  {
    && j < |run| && run[j].Stop?
    && After(run[..j]).Some?
    && After(run[..j]).value.cursor.Answered? && After(run[..j]).value.cursor.name == name
  }

  /** The City does not put the bead in progress for the session in the steps from i to j. */
  ghost predicate NotReopened(run: seq<Action>, i: nat, j: nat, bead: string, sessionId: string)
    requires j <= |run|
  {
    forall k :: i <= k < j && run[k].CityChanges? && run[k].bead == bead ==>
      run[k].to.assignee != Some(sessionId) || run[k].to.status != "in_progress"
  }

  /** The guard fails for the marker's intent, and nothing else can make its outcome Closed. */
  ghost predicate Shut(f: Files, name: string)
  {
    && name in f.completions && name in f.markers
    && f.completions[name].state != Closed
    && !GuardHolds(f, f.markers[name].beadId, f.completions[name].sessionId)
    && !(f.cursor.Answered? && f.cursor.name == name && f.cursor.reply == ClosedReply)
  }

  lemma {:induction false} ShutStays(f: Files, a: Action, name: string)
    requires Inv(f) && Enabled(f, a) && Shut(f, name)
    requires a.CityChanges? && a.bead == f.markers[name].beadId ==>
      a.to.assignee != Some(f.completions[name].sessionId) || a.to.status != "in_progress"
    ensures Shut(Apply(f, a), name)
    ensures Apply(f, a).markers[name] == f.markers[name]
    ensures Apply(f, a).completions[name].sessionId == f.completions[name].sessionId
  {
  }

  lemma {:induction false} ShutAlways(run: seq<Action>, i: nat, name: string, bead: string, sessionId: string)
    requires After(run).Some? && i <= |run| && After(run[..i]).Some? && Shut(After(run[..i]).value, name)
    requires After(run[..i]).value.markers[name].beadId == bead
    requires After(run[..i]).value.completions[name].sessionId == sessionId
    requires NotReopened(run, i, |run|, bead, sessionId)
    ensures Shut(After(run).value, name)
    decreases |run| - i
  {
    if i == |run| {
      assert run[..i] == run;
    } else {
      Prefixes(run, i);
      InvAlways(run[..i]);
      ShutStays(After(run[..i]).value, run[i], name);
      ShutAlways(run, i + 1, name, bead, sessionId);
    }
  }

  /** A close that took effect is on its way to being recorded, and the bead is closed. */
  ghost predicate Underway(f: Files, name: string)
  {
    f.cursor.Answered? && f.cursor.name == name && f.cursor.reply != GuardReply
  }

  /** An effective close is recorded as Closed, or the process is stopped before that. */
  lemma {:induction false} RecordedOrLost(run: seq<Action>, i: nat, name: string)
    requires After(run).Some? && i <= |run| && After(run[..i]).Some? && Underway(After(run[..i]).value, name)
    ensures name in After(run).value.completions
    ensures After(run).value.completions[name].state == OwnershipChanged ==>
      exists j :: i <= j < |run| && LostAt(run, j, name)
    decreases |run| - i
  {
    InvAlways(run[..i]);
    if i == |run| {
      assert run[..i] == run;
    } else {
      Prefixes(run, i);
      if run[i].Stop? {
        assert LostAt(run, i, name);
        OutcomesAreFinal(run, i, |run|, name);
        assert run[..|run|] == run;
      } else if run[i].WriteOutcome? {
        OutcomesAreFinal(run, i + 1, |run|, name);
        assert run[..|run|] == run;
      } else {
        RecordedOrLost(run, i + 1, name);
      }
    }
  }

  /**
   * When a close took effect and its record still says that the ownership changed: only if the process stopped
   * before the outcome was recorded, as it does on an unclear reply.
   */
  lemma {:induction false} MisreadNeedsLoss(run: seq<Action>, i: nat, name: string)
    requires After(run).Some? && ClosesFor(run, i, name)
    ensures name in After(run).value.completions
    ensures After(run).value.completions[name].state == OwnershipChanged ==>
      exists j :: i < j < |run| && LostAt(run, j, name)
  {
    Prefixes(run, i);
    RecordedOrLost(run, i + 1, name);
  }

  lemma {:induction false} UnderwayStep(f: Files, a: Action, name: string, bead: string, sessionId: string)
    requires Inv(f) && Enabled(f, a) && Underway(f, name)
    requires IntentOf(f, name, bead, sessionId) && !GuardHolds(f, bead, sessionId)
    requires a.CityChanges? && a.bead == bead ==> a.to.assignee != Some(sessionId) || a.to.status != "in_progress"
    ensures IntentOf(Apply(f, a), name, bead, sessionId) && !GuardHolds(Apply(f, a), bead, sessionId)
    ensures a.Stop? ==> Shut(Apply(f, a), name)
    ensures a.WriteOutcome? ==> Apply(f, a).completions[name].state == Closed
    ensures !a.Stop? && !a.WriteOutcome? ==> Underway(Apply(f, a), name)
  {
  }

  lemma {:induction false} LossAfter(run: seq<Action>, i: nat, j: nat, name: string, bead: string, sessionId: string)
    requires After(run).Some? && i <= j && LostAt(run, j, name)
    requires After(run[..i]).Some? && Underway(After(run[..i]).value, name)
    requires IntentOf(After(run[..i]).value, name, bead, sessionId)
    requires !GuardHolds(After(run[..i]).value, bead, sessionId)
    requires NotReopened(run, i, |run|, bead, sessionId)
    ensures Shut(After(run).value, name)
    decreases |run| - i
  {
    Prefixes(run, i);
    InvAlways(run[..i]);
    UnderwayStep(After(run[..i]).value, run[i], name, bead, sessionId);
    if run[i].Stop? {
      ShutAlways(run, i + 1, name, bead, sessionId);
    } else if run[i].WriteOutcome? {
      OutcomesAreFinal(run, i + 1, j, name);
      InvAlways(run[..j]);
      assert false;
    } else {
      LossAfter(run, i + 1, j, name, bead, sessionId);
    }
  }

  /** The marker and its completion are about this bead and session. */
  ghost predicate IntentOf(f: Files, name: string, bead: string, sessionId: string)
  {
    && name in f.markers && f.markers[name].beadId == bead
    && name in f.completions && f.completions[name].sessionId == sessionId
  }

  lemma {:induction false} ClosureStays(run: seq<Action>, i: nat, name: string, bead: string, sessionId: string)
    requires After(run).Some? && i <= |run| && After(run[..i]).Some?
    requires IntentOf(After(run[..i]).value, name, bead, sessionId)
    requires (bead, sessionId) in After(run[..i]).value.closures
    ensures IntentOf(After(run).value, name, bead, sessionId) && (bead, sessionId) in After(run).value.closures
    decreases |run| - i
  {
    if i == |run| {
      assert run[..i] == run;
    } else {
      Prefixes(run, i);
      InvAlways(run[..i]);
      ClosureStays(run, i + 1, name, bead, sessionId);
    }
  }

  /**
   * After such a loss the outcome is never Closed, although the bead was closed for the session, unless the City
   * puts the bead back in progress for the same session. So any outcome that is recorded says that the ownership
   * changed.
   */
  lemma {:induction false} LossIsMisread(
      run: seq<Action>, i: nat, j: nat, name: string, bead: string, sessionId: string)
    requires After(run).Some? && ClosesFor(run, i, name) && i < j && LostAt(run, j, name)
    requires IntentOf(After(run[..i]).value, name, bead, sessionId) && NotReopened(run, i + 1, |run|, bead, sessionId)
    ensures IntentOf(After(run).value, name, bead, sessionId) && (bead, sessionId) in After(run).value.closures
    ensures After(run).value.completions[name].state != Closed
  {
    Prefixes(run, i);
    InvAlways(run[..i]);
    LossAfter(run, i + 1, j, name, bead, sessionId);
    ClosureStays(run, i + 1, name, bead, sessionId);
  }

  /**
   * So, while the City does not reopen the bead for the session, the record of an effective close is exactly wrong
   * when its outcome was lost.
   */
  lemma {:induction false} MisreadIff(run: seq<Action>, i: nat, name: string, bead: string, sessionId: string)
    requires After(run).Some? && ClosesFor(run, i, name)
    requires IntentOf(After(run[..i]).value, name, bead, sessionId) && NotReopened(run, i + 1, |run|, bead, sessionId)
    requires name in After(run).value.completions && After(run).value.completions[name].state != ClosePending
    ensures After(run).value.completions[name].state == OwnershipChanged <==>
      exists j :: i < j < |run| && LostAt(run, j, name)
  {
    MisreadNeedsLoss(run, i, name);
    if j :| i < j < |run| && LostAt(run, j, name) {
      LossIsMisread(run, i, j, name, bead, sessionId);
    }
  }

  lemma AfterOneMore(run: seq<Action>, a: Action)
    requires After(run).Some? && Enabled(After(run).value, a)
    ensures After(run + [a]) == Some(Apply(After(run).value, a))
  {
    assert (run + [a])[..|run|] == run;
  }

  /** It happens: a close whose reply is lost is tried again, and refused because the bead is closed already. */
  lemma {:induction false} CloseCanBeMisread(
      name: string, marker: ReviewMarker, sessionId: string) returns (run: seq<Action>)
    ensures After(run).Some?
    ensures IntentOf(After(run).value, name, marker.beadId, sessionId)
    ensures After(run).value.completions[name].state == OwnershipChanged
    ensures (marker.beadId, sessionId) in After(run).value.closures
  {
    run := FirstTry(name, marker, sessionId);
    AfterOneMore(run, TryClose(OtherReply, true));
    run := run + [TryClose(OtherReply, true)];
    AfterOneMore(run, Stop);
    run := run + [Stop];
    AfterOneMore(run, ReuseIntent(name));
    run := run + [ReuseIntent(name)];
    AfterOneMore(run, TryClose(GuardReply, false));
    run := run + [TryClose(GuardReply, false)];
    AfterOneMore(run, WriteOutcome);
    run := run + [WriteOutcome];
  }

  /** The steps before the first close: the bead is in progress for the session, and its review is stored. */
  lemma {:induction false} FirstTry(name: string, marker: ReviewMarker, sessionId: string) returns (run: seq<Action>)
    ensures After(run).Some?
    ensures var f := After(run).value;
      && f.cursor == Closing(name, sessionId) && Bound(f, name) && f.markers[name] == marker
      && name in f.completions &&
        f.completions[name] == Completion(marker.beadId, marker.sourceKey, sessionId, ClosePending)
      && GuardHolds(f, marker.beadId, sessionId)
  {
    assert After([]) == Some(START);
    AfterOneMore([], AddMarker(name, marker));
    run := [] + [AddMarker(name, marker)];
    AfterOneMore(run, WriteTranscript(name, sessionId));
    run := run + [WriteTranscript(name, sessionId)];
    var working := Bead(Some(sessionId), "in_progress");
    AfterOneMore(run, CityChanges(marker.beadId, working));
    run := run + [CityChanges(marker.beadId, working)];
    AfterOneMore(run, WriteIntent(name, sessionId));
    run := run + [WriteIntent(name, sessionId)];
  }
}
