/** export_transcripts and _close_persisted_review over their files; every pass is a run of protocol steps. */
module ReviewExportPass {
  import opened Wrappers
  import opened Listing
  import opened ReviewExport

  /**
   * How the commands of one export turn out: whether the bead is shown and the session's output readable, the
   * source key of the recovered review (None for no review), whether the close command reaches the City, its reply
   * comes back, or it times out, and after how many steps the process stops.
   */
  datatype Replies = Replies(
    showOk: bool,
    peekOk: bool,
    review: Option<Option<string>>,
    closeDelivered: bool,
    closeReplied: bool,
    closeTimesOut: bool,
    stopAfter: nat)

  predicate Replied(r: Replies)
  {
    r.closeDelivered && r.closeReplied
  }

  /** No other completion stands in the way of closing for this session, and no outcome is recorded. */
  predicate StillOpen(f: Files, name: string, sessionId: string)
  {
    name in f.completions ==> IntentFor(f, name, sessionId) && f.completions[name].state == ClosePending
  }

  /** _close_persisted_review comes to its end: it raises on a foreign completion file, and when the close times out. */
  predicate Concludes(f: Files, name: string, sessionId: string, r: Replies)
  {
    && (name in f.completions ==> IntentFor(f, name, sessionId))
    && (StillOpen(f, name, sessionId) ==> r.stopAfter > 3 && (Replied(r) || !r.closeTimesOut))
  }

  /** The completion afterwards: an outcome only if the City answered, and the one the guard decides. */
  function CompletionAfter(f: Files, name: string, sessionId: string, r: Replies): Completion
    requires name in f.markers
  {
    if !StillOpen(f, name, sessionId) then f.completions[name]
    else
      var m := f.markers[name];
      Completion(m.beadId, m.sourceKey, sessionId,
        if r.stopAfter <= 3 || !Replied(r) then ClosePending
        else if GuardHolds(f, m.beadId, sessionId) then Closed else OwnershipChanged)
  }

  /** The beads afterwards: only the marker's own bead, and only if the close reached it under the guard. */
  function BeadsAfter(f: Files, name: string, sessionId: string, r: Replies): map<string, Bead>
    requires name in f.markers
  {
    var bead := f.markers[name].beadId;
    if StillOpen(f, name, sessionId) && r.stopAfter > 2 && r.closeDelivered && GuardHolds(f, bead, sessionId)
    then f.beads[bead := f.beads[bead].(status := "closed")] else f.beads
  }

  /** The session a stored, bound transcript is closed for: that of the intent, or else the one that wrote it. */
  function SessionOf(f: Files, name: string): Option<string>
    requires Bound(f, name)
  {
    if name !in f.completions then f.transcripts[name].sessionId
    else if f.completions[name].sessionId == "" then None
    else Some(f.completions[name].sessionId)
  }

  /** One turn of export_transcripts stores a transcript for this marker and comes to its end. */
  predicate Exportable(f: Files, name: string, r: Replies)
  {
    && name in f.markers
    && !Bound(f, name)
    && var m := f.markers[name];
    && r.showOk && r.peekOk
    && m.beadId in f.beads
    && f.beads[m.beadId].assignee.GetOr("") != ""
    && (if r.review == Some(Some(m.sourceKey))
      then r.stopAfter > 1 && Concludes(f, name, f.beads[m.beadId].assignee.value, r)
        else f.beads[m.beadId].status == "closed" && r.stopAfter > 0)
  }

  /** From f to f', nothing of this marker changed, and beads were at most closed. */
  ghost predicate Unaffected(f: Files, f': Files, name: string)
  {
    && f'.markers == f.markers
    && (name in f'.transcripts <==> name in f.transcripts)
    && (name in f.transcripts ==> f'.transcripts[name] == f.transcripts[name])
    && (name in f'.completions <==> name in f.completions)
    && (name in f.completions ==> f'.completions[name] == f.completions[name])
    && BeadsLater(f.beads, f'.beads)
  }

  ghost predicate BeadsLater(before: map<string, Bead>, after: map<string, Bead>)
  {
    forall id :: id in before ==>
      id in after && after[id].assignee == before[id].assignee &&
        (after[id].status == before[id].status || after[id].status == "closed")
  }

  lemma UnaffectedTransitive(f: Files, g: Files, h: Files, name: string)
    requires Unaffected(f, g, name) && Unaffected(g, h, name)
    ensures Unaffected(f, h, name)
  {
  }

  lemma ExportableLater(f: Files, f': Files, name: string, r: Replies)
    requires Unaffected(f, f', name) && Exportable(f, name, r)
    ensures Exportable(f', name, r)
  {
  }

  /** The first i turns of a pass that began with f exported all they could. */
  ghost predicate ExportedUpTo(f: Files, listing: seq<string>, replies: seq<Replies>, i: nat, exported: seq<string>)
    requires i <= |listing| && i <= |replies|
  {
    forall k :: 0 <= k < i && Exportable(f, listing[k], replies[k]) ==> listing[k] in exported
  }

  lemma ExportedMore(
      f: Files, listing: seq<string>, replies: seq<Replies>, i: nat, exported: seq<string>, exported': seq<string>)
    requires i < |listing| && i < |replies| && exported <= exported'
    requires ExportedUpTo(f, listing, replies, i, exported)
    requires Exportable(f, listing[i], replies[i]) ==> listing[i] in exported'
    ensures ExportedUpTo(f, listing, replies, i + 1, exported')
  {
  }

  // ---- the outcome of a close and of a pass over one marker, case by case ----

  /** The bead is in progress for the session. */
  predicate InProgressFor(f: Files, bead: string, sessionId: string)
  {
    bead in f.beads && f.beads[bead] == Bead(Some(sessionId), "in_progress")
  }

  /** The City is asked to close the bead, and the bead is in progress for the session. */
  predicate Closes(f: Files, m: ReviewMarker, sessionId: string, r: Replies)
  {
    r.stopAfter >= 3 && r.closeDelivered && InProgressFor(f, m.beadId, sessionId)
  }

  /** No outcome is recorded, and no intent for anything else. */
  predicate NothingRecorded(f: Files, name: string, sessionId: string)
    requires name in f.markers
  {
    name in f.completions ==>
      f.completions[name] == Completion(f.markers[name].beadId, f.markers[name].sourceKey, sessionId, ClosePending)
  }

  /** An outcome, or a foreign intent, is left alone, and so are the beads; a foreign one ends in an error. */
  lemma {:induction false} RecordedStays(f: Files, name: string, sessionId: string, r: Replies)
    requires name in f.markers && !NothingRecorded(f, name, sessionId)
    ensures name in f.completions && CompletionAfter(f, name, sessionId, r) == f.completions[name]
    ensures BeadsAfter(f, name, sessionId, r) == f.beads
    ensures var c, m := f.completions[name], f.markers[name];
      Concludes(f, name, sessionId, r) <==>
        c.beadId == m.beadId && c.sourceKey == m.sourceKey && c.sessionId == sessionId
  {
  }

  /**
   * Else the intent becomes durable; the bead is closed if the close reaches it in progress for the session; and the
   * outcome is recorded if the reply comes back before the process stops, which takes four steps.
   */
  lemma {:induction false} CloseOutcome(f: Files, name: string, sessionId: string, r: Replies)
    requires name in f.markers && NothingRecorded(f, name, sessionId)
    ensures var m := f.markers[name];
      var answered := r.stopAfter >= 4 && r.closeDelivered && r.closeReplied;
      && CompletionAfter(f, name, sessionId, r) == Completion(m.beadId, m.sourceKey, sessionId,
           if !answered then ClosePending else if InProgressFor(f, m.beadId, sessionId) then Closed
           else OwnershipChanged)
      && BeadsAfter(f, name, sessionId, r)
         == (if Closes(f, m, sessionId, r) then f.beads[m.beadId := Bead(Some(sessionId), "closed")] else f.beads)
      && (Concludes(f, name, sessionId, r) <==> r.stopAfter >= 4 && (answered || !r.closeTimesOut))
  {
  }

  /**
   * A transcript is stored exactly for a marker without one of its own source, whose bead is shown with an assignee
   * and whose session can be read: a review of that source, once its bead's close has been dealt with, or else, for a
   * closed bead, the mark that there is none.
   */
  lemma {:induction false} ExportableForm(f: Files, name: string, r: Replies)
    ensures Exportable(f, name, r) <==>
      && name in f.markers
      && (name in f.transcripts ==> f.transcripts[name].boundTo != Some(f.markers[name].sourceKey))
      && r.showOk && r.peekOk
      && var m := f.markers[name];
      && m.beadId in f.beads
      && f.beads[m.beadId].assignee.Some? && f.beads[m.beadId].assignee.value != ""
      && if r.review == Some(Some(m.sourceKey))
         then r.stopAfter >= 2 && Concludes(f, name, f.beads[m.beadId].assignee.value, r)
         else f.beads[m.beadId].status == "closed" && r.stopAfter >= 1
  {
  }

  class ReviewFiles {
    var markers: map<string, ReviewMarker>
    var transcripts: map<string, Transcript>
    var completions: map<string, Completion>
    var beads: map<string, Bead>

    ghost var cursor: Cursor
    ghost var closures: set<(string, string)>
    ghost var run: seq<Action>

    ghost function State(): Files
      reads this
    {
      Files(markers, transcripts, completions, beads, cursor, closures)
    }

    ghost predicate Valid()
      reads this
    {
      After(run) == Some(State())
    }

    constructor ()
      ensures Valid() && cursor.Idle? && run == []
    {
      markers, transcripts, completions, beads := map[], map[], map[], map[];
      cursor, closures, run := Idle, {}, [];
    }

    ghost method Append(a: Action)
      requires After(run).Some? && Enabled(After(run).value, a) && Apply(After(run).value, a) == State()
      modifies this`run
      ensures Valid() && run == old(run) + [a]
    {
      run := run + [a];
      assert run[..|run| - 1] == old(run);
    }

    /** The dispatcher marks a review as dispatched. */
    method AddMarker(name: string, marker: ReviewMarker)
      requires Valid() && name !in markers
      modifies this`run, this`markers
      ensures Valid() && run == old(run) + [Action.AddMarker(name, marker)] && markers == old(markers)[name := marker]
    {
      markers := markers[name := marker];
      Append(Action.AddMarker(name, marker));
    }

    /** The City changes a bead. */
    method CityChangesBead(bead: string, to: Bead)
      requires Valid()
      modifies this`run, this`beads
      ensures Valid() && run == old(run) + [CityChanges(bead, to)] && beads == old(beads)[bead := to]
    {
      beads := beads[bead := to];
      Append(CityChanges(bead, to));
    }

    /** The guarded close: it takes effect only when it reaches the City while the guard holds. */
    method GuardedClose(name: string, sessionId: string, r: Replies) returns (reply: CloseReply)
      requires Valid() && cursor == Closing(name, sessionId) && name in markers
      modifies this`run, this`cursor, this`beads, this`closures
      ensures Valid() && old(run) <= run && cursor == Answered(name, sessionId, reply)
      ensures reply == if !Replied(r) then OtherReply
        else if GuardHolds(old(State()), markers[name].beadId, sessionId) then ClosedReply else GuardReply
      ensures var bead := markers[name].beadId;
        beads == if r.closeDelivered && GuardHolds(old(State()), bead, sessionId)
                 then old(beads)[bead := old(beads)[bead].(status := "closed")] else old(beads)
    {
      var bead := markers[name].beadId;
      var guard := bead in beads && beads[bead].assignee == Some(sessionId) && beads[bead].status == "in_progress";
      var effective := r.closeDelivered && guard;
      reply := if !r.closeDelivered || !r.closeReplied then OtherReply else if guard then ClosedReply else GuardReply;
      if effective {
        beads := beads[bead := beads[bead].(status := "closed")];
        closures := closures + {(bead, sessionId)};
      }
      cursor := Answered(name, sessionId, reply);
      Append(TryClose(reply, effective));
    }

    /** Persist the intent, or find it persisted; a different session's intent is an error. */
    method SaveIntent(name: string, sessionId: string) returns (open: bool)
      requires Valid() && cursor.Idle? && Bound(State(), name)
      requires name !in completions ==> transcripts[name].sessionId == Some(sessionId)
      modifies this`run, this`cursor, this`completions
      ensures Valid() && old(run) <= run && cursor == if open then Closing(name, sessionId) else Idle
      ensures open <==> (name in old(completions) ==>
        IntentFor(old(State()), name, sessionId) && old(completions)[name].state == ClosePending)
      ensures completions == if name in old(completions) then old(completions)
                             else old(completions)[name := Completion(markers[name].beadId, markers[name].sourceKey,
                               sessionId, ClosePending)]
    {
      if name in completions {
        var c := completions[name];
        if c.beadId != markers[name].beadId || c.sourceKey != markers[name].sourceKey || c.sessionId != sessionId
           || c.state != ClosePending {
          return false;
        }
        cursor := Closing(name, sessionId);
        Append(ReuseIntent(name));
      } else {
        completions := completions[name := Completion(markers[name].beadId, markers[name].sourceKey, sessionId,
          ClosePending)];
        cursor := Closing(name, sessionId);
        Append(WriteIntent(name, sessionId));
      }
      return true;
    }

    ghost method Stopped()
      requires Valid()
      modifies this`run, this`cursor
      ensures Valid() && run == old(run) + [Stop] && cursor.Idle?
    {
      cursor := Idle;
      Append(Stop);
    }

    /** Try the close under an open intent, and record a definite outcome. */
    method CloseAndRecord(name: string, sessionId: string, r: Replies) returns (finished: bool)
      requires Valid() && cursor == Closing(name, sessionId) && name in markers
      requires IntentFor(State(), name, sessionId) && completions[name].state == ClosePending
      modifies this`run, this`cursor, this`completions, this`beads, this`closures
      ensures Valid() && cursor.Idle? && old(run) <= run
      ensures finished == (r.stopAfter > 3 && (Replied(r) || !r.closeTimesOut))
      ensures completions == old(completions)[name := CompletionAfter(old(State()), name, sessionId, r)]
      ensures beads == BeadsAfter(old(State()), name, sessionId, r)
    {
      if r.stopAfter <= 2 {
        Stopped();
        return false;
      }
      var reply := GuardedClose(name, sessionId, r);
      if reply == OtherReply || r.stopAfter == 3 {
        Stopped();
        return r.stopAfter > 3 && !r.closeTimesOut;
      }
      var state := if reply == ClosedReply then Closed else OwnershipChanged;
      completions := completions[name := completions[name].(state := state)];
      cursor := Idle;
      Append(WriteOutcome);
      return true;
    }

    /** _close_persisted_review. */
    method ClosePersistedReview(name: string, sessionId: string, r: Replies) returns (finished: bool)
      requires Valid() && cursor.Idle? && Bound(State(), name)
      requires name !in completions ==> transcripts[name].sessionId == Some(sessionId)
      modifies this`run, this`cursor, this`completions, this`beads, this`closures
      ensures Valid() && cursor.Idle? && old(run) <= run
      ensures finished == Concludes(old(State()), name, sessionId, r)
      ensures completions == old(completions)[name := CompletionAfter(old(State()), name, sessionId, r)]
      ensures beads == BeadsAfter(old(State()), name, sessionId, r)
    {
      var raised := name in completions && (completions[name].beadId != markers[name].beadId
        || completions[name].sourceKey != markers[name].sourceKey || completions[name].sessionId != sessionId);
      var open := SaveIntent(name, sessionId);
      if !open {
        return !raised;
      }
      finished := CloseAndRecord(name, sessionId, r);
    }

    /** Remove a stale transcript and write the new one in its place. */
    method SaveTranscript(name: string, transcript: Transcript, stopAfter: nat) returns (written: bool)
      requires Valid() && cursor.Idle? && name in markers && !Bound(State(), name)
      requires transcript == Transcript(None, None) ||
               (transcript.boundTo == Some(markers[name].sourceKey) && transcript.sessionId.Some?)
      modifies this`run, this`transcripts
      ensures Valid() && old(run) <= run
      ensures written <==> stopAfter > 0
      ensures if written then transcripts == old(transcripts)[name := transcript] else name !in transcripts
      ensures forall other :: other != name ==> (other in transcripts <==> other in old(transcripts))
      ensures forall other :: other != name && other in transcripts ==> transcripts[other] == old(transcripts)[other]
    {
      if name in transcripts {
        transcripts := transcripts - {name};
        Append(Quarantine(name));
      }
      if stopAfter == 0 {
        return false;
      }
      transcripts := transcripts[name := transcript];
      Append(if transcript.sessionId.Some? then WriteTranscript(name, transcript.sessionId.value)
        else WriteInvalidFinal(name));
      return true;
    }

    /** One marker of export_transcripts. */
    method ExportTranscript(name: string, r: Replies) returns (exported: bool)
      requires Valid() && cursor.Idle?
      modifies this`run, this`cursor, this`transcripts, this`completions, this`beads, this`closures
      ensures Valid() && cursor.Idle? && old(run) <= run
      ensures exported == Exportable(old(State()), name, r)
      ensures exported ==>
        && name in transcripts
        && transcripts[name] == (if r.review == Some(Some(markers[name].sourceKey))
             then Transcript(Some(markers[name].sourceKey), old(beads)[markers[name].beadId].assignee)
               else Transcript(None, None))
      ensures Bound(old(State()), name) ==> transcripts == old(transcripts)
      ensures Bound(old(State()), name) ==>
        var sessionId := SessionOf(old(State()), name);
        if sessionId.None? then completions == old(completions) && beads == old(beads)
        else
          && completions == old(completions)[name := CompletionAfter(old(State()), name, sessionId.value, r)]
          && beads == BeadsAfter(old(State()), name, sessionId.value, r)
      ensures BeadsLater(old(beads), beads)
      ensures forall other :: other != name ==> Unaffected(old(State()), State(), other)
    {
      if name !in markers {
        return false;
      }
      if name in transcripts && transcripts[name].boundTo == Some(markers[name].sourceKey) {
        CloseStored(name, r);
        return false;
      }
      exported := FetchTranscript(name, r);
    }

    /** No bound transcript is stored: look at the bead and its session, and store what they show. */
    method FetchTranscript(name: string, r: Replies) returns (exported: bool)
      requires Valid() && cursor.Idle? && name in markers && !Bound(State(), name)
      modifies this`run, this`cursor, this`transcripts, this`completions, this`beads, this`closures
      ensures Valid() && cursor.Idle? && old(run) <= run
      ensures exported == Exportable(old(State()), name, r)
      ensures exported ==>
        && name in transcripts
        && transcripts[name] == (if r.review == Some(Some(markers[name].sourceKey))
             then Transcript(Some(markers[name].sourceKey), old(beads)[markers[name].beadId].assignee)
               else Transcript(None, None))
      ensures BeadsLater(old(beads), beads)
      ensures forall other :: other != name ==> Unaffected(old(State()), State(), other)
    {
      var m := markers[name];
      if !r.showOk || m.beadId !in beads || beads[m.beadId].assignee.GetOr("") == "" || !r.peekOk {
        return false;
      }
      if r.review == Some(Some(m.sourceKey)) {
        exported := StoreReview(name, beads[m.beadId].assignee.value, r);
      } else if beads[m.beadId].status == "closed" {
        exported := SaveTranscript(name, Transcript(None, None), r.stopAfter);
      } else {
        exported := false;
      }
    }

    /** Store a review bound to the marker's source, and then close its bead. */
    method StoreReview(name: string, sessionId: string, r: Replies) returns (exported: bool)
      requires Valid() && cursor.Idle? && name in markers && !Bound(State(), name)
      modifies this`run, this`cursor, this`transcripts, this`completions, this`beads, this`closures
      ensures Valid() && cursor.Idle? && old(run) <= run
      ensures exported == (r.stopAfter > 1 && Concludes(old(State()), name, sessionId, r))
      ensures exported ==>
        name in transcripts && transcripts[name] == Transcript(Some(markers[name].sourceKey), Some(sessionId))
      ensures BeadsLater(old(beads), beads)
      ensures forall other :: other != name ==> Unaffected(old(State()), State(), other)
    {
      var written := SaveTranscript(name, Transcript(Some(markers[name].sourceKey), Some(sessionId)), r.stopAfter);
      if !written || r.stopAfter == 1 {
        return false;
      }
      exported := ClosePersistedReview(name, sessionId, r);
    }

    /** The bound transcript is stored already: take up the close where the last pass left it. */
    method CloseStored(name: string, r: Replies)
      requires Valid() && cursor.Idle? && Bound(State(), name)
      modifies this`run, this`cursor, this`completions, this`beads, this`closures
      ensures Valid() && cursor.Idle? && old(run) <= run
      ensures var sessionId := SessionOf(old(State()), name);
        if sessionId.None? then completions == old(completions) && beads == old(beads)
        else
          && completions == old(completions)[name := CompletionAfter(old(State()), name, sessionId.value, r)]
          && beads == BeadsAfter(old(State()), name, sessionId.value, r)
    {
      if name in completions {
        if completions[name].sessionId != "" {
          var finished := ClosePersistedReview(name, completions[name].sessionId, r);
        }
      } else if transcripts[name].sessionId.Some? {
        var finished := ClosePersistedReview(name, transcripts[name].sessionId.value, r);
      }
    }

    /** The next marker of a pass that began with f. */
    method ExportNext(name: string, r: Replies, ghost f: Files) returns (exported: bool)
      requires Valid() && cursor.Idle?
      modifies this`run, this`cursor, this`transcripts, this`completions, this`beads, this`closures
      ensures Valid() && cursor.Idle? && old(run) <= run
      ensures Unaffected(f, old(State()), name) && Exportable(f, name, r) ==> exported
      ensures forall other :: other != name ==> Unaffected(old(State()), State(), other)
    {
      if Unaffected(f, State(), name) && Exportable(f, name, r) {
        ExportableLater(f, State(), name, r);
      }
      exported := ExportTranscript(name, r);
    }

    /** export_transcripts over a directory listing, up to where the process stops. */
    method ExportTranscripts(listing: seq<string>, replies: seq<Replies>) returns (exported: seq<string>)
      requires Valid() && cursor.Idle?
      modifies this`run, this`cursor, this`transcripts, this`completions, this`beads, this`closures
      ensures Valid() && cursor.Idle? && old(run) <= run
      ensures forall name :: name in exported ==> name in listing
      ensures Distinct(listing) ==> ExportedUpTo(old(State()), listing, replies, Least(|listing|, |replies|), exported)
    {
      exported := [];
      for i := 0 to Least(|listing|, |replies|)
        invariant Valid() && cursor.Idle? && old(run) <= run
        invariant forall name :: name in exported ==> name in listing
        invariant Distinct(listing) ==> forall k :: i <= k < |listing| ==> Unaffected(old(State()), State(), listing[k])
        invariant Distinct(listing) ==> ExportedUpTo(old(State()), listing, replies, i, exported)
      {
        ghost var before, earlier := State(), exported;
        var done := ExportNext(listing[i], replies[i], old(State()));
        if done {
          exported := exported + [listing[i]];
        }
        if Distinct(listing) {
          ExportedMore(old(State()), listing, replies, i, earlier, exported);
          forall k | i + 1 <= k < |listing| ensures Unaffected(old(State()), State(), listing[k]) {
            assert listing[k] != listing[i];
            UnaffectedTransitive(old(State()), before, State(), listing[k]);
          }
        }
      }
    }
  }
}
