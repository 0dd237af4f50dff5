/** create_pending, dispatch_pending and retire_superseded over their files; every pass is a run of protocol steps. */
module ReviewMarkersPass {
  import opened Wrappers
  import opened Supersession
  import opened ReviewMarkers
  import SK = SourceKey

  /**
   * A request file as create_pending reads it; sourceKey is None when a field it needs is missing, empty or no
   * string.
   */
  datatype Request = Request(name: string, sourceKey: Option<string>)

  /**
   * How a create turns out: without a bead, with one whose id is not learned or not recorded, or with one that is
   * reported.
   */
  datatype CreateReply = Refused | Lost(id: string) | Replied(id: string)

  /** The City gives out non-empty ids it has not given out before. */
  ghost predicate FreshIds(beads: map<string, string>, replies: seq<CreateReply>)
  {
    && (forall k :: 0 <= k < |replies| && !replies[k].Refused? ==> replies[k].id != "" && replies[k].id !in beads)
    && (forall i, k :: 0 <= i < k < |replies| && !replies[i].Refused? && !replies[k].Refused? ==>
      replies[i].id != replies[k].id)
  }

  predicate Usable(r: Request)
  {
    r.sourceKey.GetOr("") != ""
  }

  /** m is the marker of a bead that was created for a request of this name. */
  ghost predicate IsFresh(requests: seq<Request>, replies: seq<CreateReply>, name: string, m: ReviewMarker)
    requires |replies| == |requests|
  {
    exists k :: 0 <= k < |requests| && requests[k].name == name && Usable(requests[k]) && replies[k].Replied?
      && m == ReviewMarker(replies[k].id, requests[k].sourceKey.value, Pending)
  }

  predicate Retires(latest: map<SK.Scope, string>, markers: map<string, ReviewMarker>, name: string, closed: bool)
  {
    name in markers && Retirable(latest, markers[name]) && closed
  }

  /** The retired markers were retirable, and moved on; the others are as before. */
  ghost predicate RetiredFrom(
      latest: map<SK.Scope, string>, before: map<string, ReviewMarker>, after: map<string, ReviewMarker>,
      retired: seq<string>)
  {
    && after.Keys == before.Keys
    && (forall name :: name in before && name !in retired ==> after[name] == before[name])
    && (forall name :: name in retired ==>
      name in before && Retirable(latest, before[name]) && after[name] == before[name].(phase := Retired))
  }

  lemma RetireMore(
      latest: map<SK.Scope, string>, before: map<string, ReviewMarker>, after: map<string, ReviewMarker>,
      retired: seq<string>, name: string, closed: bool)
    requires RetiredFrom(latest, before, after, retired) && Retires(latest, after, name, closed)
    ensures RetiredFrom(latest, before, after[name := after[name].(phase := Retired)], retired + [name])
  {
    assert name !in retired;
  }

  ghost predicate RetirableNow(files: seq<RequestFile>, m: ReviewMarker)
  {
    m.phase == Dispatched && Superseded(files, m.sourceKey)
  }

  class ReviewDesk {
    var markers: map<string, ReviewMarker>
    var beads: map<string, string>

    ghost var latest: Option<map<SK.Scope, string>>
    ghost var cursor: Cursor
    ghost var run: seq<Action>

    ghost function State(): Desk
      reads this
    {
      Desk(markers, beads, latest, cursor)
    }

    ghost predicate Valid()
      reads this
    {
      After(run) == Some(State())
    }

    constructor ()
      ensures Valid() && cursor.Idle? && run == []
    {
      markers, beads, latest, cursor, run := map[], map[], None, Idle, [];
    }

    ghost method Append(a: Action)
      requires After(run).Some? && Enabled(After(run).value, a) && Apply(After(run).value, a) == State()
      modifies this`run
      ensures Valid() && run == old(run) + [a]
    {
      run := run + [a];
      assert run[..|run| - 1] == old(run);
    }

    /** Create a bead for a request, and record it if its id comes back. */
    method CreateOne(name: string, sourceKey: string, reply: CreateReply) returns (created: bool)
      requires Valid() && cursor.Idle? && name !in markers && sourceKey != ""
      requires !reply.Refused? ==> reply.id !in beads && reply.id != ""
      modifies this`run, this`cursor, this`beads, this`markers
      ensures Valid() && cursor.Idle? && old(run) <= run
      ensures created == reply.Replied?
      ensures markers == if created then old(markers)[name := ReviewMarker(reply.id, sourceKey, Pending)]
        else old(markers)
      ensures beads == if reply.Refused? then old(beads) else old(beads)[reply.id := name]
    {
      if reply.Refused? {
        return false;
      }
      beads := beads[reply.id := name];
      cursor := if reply.Replied? then Created(name, reply.id, sourceKey) else Idle;
      Append(CreateBead(name, sourceKey, reply.id, reply.Replied?));
      if reply.Replied? {
        markers, cursor := markers[name := ReviewMarker(reply.id, sourceKey, Pending)], Idle;
        Append(RecordBead);
      }
      return reply.Replied?;
    }

    /** create_pending: a bead per request without a marker; a failed create leaves the request for the next pass. */
    method CreatePending(requests: seq<Request>, replies: seq<CreateReply>) returns (created: seq<string>)
      requires Valid() && cursor.Idle? && |replies| == |requests| && FreshIds(beads, replies)
      modifies this`run, this`cursor, this`beads, this`markers
      ensures Valid() && cursor.Idle? && old(run) <= run
      ensures forall name :: name in old(markers) ==> name in markers && markers[name] == old(markers)[name]
      ensures forall name :: name in markers && name !in old(markers) ==>
        name in created && IsFresh(requests, replies, name, markers[name])
      ensures forall k :: 0 <= k < |requests| && Usable(requests[k]) && replies[k].Replied? ==>
        requests[k].name in markers
      ensures forall id :: id in beads && id !in old(beads) ==>
        exists k :: 0 <= k < |replies| && !replies[k].Refused? && replies[k].id == id
    {
      created := [];
      for i := 0 to |requests|
        invariant Valid() && cursor.Idle? && old(run) <= run
        invariant forall name :: name in old(markers) ==> name in markers && markers[name] == old(markers)[name]
        invariant forall name :: name in markers && name !in old(markers) ==>
          name in created && IsFresh(requests, replies, name, markers[name])
        invariant forall k :: 0 <= k < i && Usable(requests[k]) && replies[k].Replied? ==> requests[k].name in markers
        invariant forall id :: id in beads && id !in old(beads) ==>
          exists k :: 0 <= k < i && !replies[k].Refused? && replies[k].id == id
      {
        var name := requests[i].name;
        if name !in markers && Usable(requests[i]) {
          var done := CreateOne(name, requests[i].sourceKey.value, replies[i]);
          if done {
            created := created + [name];
          }
        }
      }
    }

    /** Sling one pending marker; slung says if the command succeeded. */
    method SlingOne(name: string, slung: bool) returns (done: bool)
      requires Valid() && cursor.Idle?
      modifies this`run, this`cursor, this`markers
      ensures Valid() && cursor.Idle? && old(run) <= run
      ensures done == (name in old(markers) && Slingable(old(markers)[name]) && slung)
      ensures markers == if done then old(markers)[name := old(markers)[name].(phase := Dispatched)] else old(markers)
    {
      if name !in markers || !Slingable(markers[name]) {
        return false;
      }
      cursor := if slung then Slung(name) else Idle;
      Append(Sling(name, slung));
      if slung {
        markers, cursor := markers[name := markers[name].(phase := Dispatched)], Idle;
        Append(MarkDispatched);
      }
      return slung;
    }

    /** dispatch_pending: sling each pending marker, and acknowledge only on success. */
    method DispatchPending(listing: seq<string>, slung: seq<bool>) returns (dispatched: seq<string>)
      requires Valid() && cursor.Idle? && |slung| == |listing|
      modifies this`run, this`cursor, this`markers
      ensures Valid() && cursor.Idle? && old(run) <= run && markers.Keys == old(markers).Keys
      ensures forall name :: name in dispatched ==>
        name in markers && Slingable(old(markers)[name]) && markers[name] == old(markers)[name].(phase := Dispatched)
      ensures forall name :: name in markers && name !in dispatched ==> markers[name] == old(markers)[name]
      ensures forall k | 0 <= k < |listing| && listing[k] in markers ::
        Slingable(old(markers)[listing[k]]) && slung[k] ==> listing[k] in dispatched
    {
      dispatched := [];
      for i := 0 to |listing|
        invariant Valid() && cursor.Idle? && old(run) <= run && markers.Keys == old(markers).Keys
        invariant forall name :: name in dispatched ==>
          name in markers && Slingable(old(markers)[name]) && markers[name] == old(markers)[name].(phase := Dispatched)
        invariant forall name :: name in markers && name !in dispatched ==> markers[name] == old(markers)[name]
        invariant forall k | 0 <= k < i && listing[k] in markers ::
          Slingable(old(markers)[listing[k]]) && slung[k] ==> listing[k] in dispatched
      {
        var done := SlingOne(listing[i], slung[i]);
        if done {
          dispatched := dispatched + [listing[i]];
        }
      }
    }

    /** Close the bead of one dispatched, stale marker; closed says if the close command succeeded. */
    method RetireOne(picked: map<SK.Scope, string>, name: string, closed: bool) returns (done: bool)
      requires Valid() && cursor.Idle? && latest == Some(picked)
      modifies this`run, this`cursor, this`markers
      ensures Valid() && cursor.Idle? && old(run) <= run
      ensures done == Retires(picked, old(markers), name, closed)
      ensures markers == if done then old(markers)[name := old(markers)[name].(phase := Retired)] else old(markers)
    {
      if name !in markers || !Retirable(picked, markers[name]) {
        return false;
      }
      cursor := if closed then Closed(name) else Idle;
      Append(Close(name, closed));
      if closed {
        markers, cursor := markers[name := markers[name].(phase := Retired)], Idle;
        Append(MarkRetired);
      }
      return closed;
    }

    /**
     * retire_superseded: retire the dispatched markers whose source is no longer the newest of its lineage, and no
     * others.
     */
    method RetireSuperseded(
        files: seq<RequestFile>, listing: seq<string>, closed: seq<bool>) returns (retired: seq<string>)
      requires Valid() && cursor.Idle? && DistinctStems(files) && |closed| == |listing|
      modifies this`run, this`cursor, this`markers, this`latest
      ensures Valid() && cursor.Idle? && old(run) <= run && markers.Keys == old(markers).Keys
      ensures forall name :: name in markers && name !in retired ==> markers[name] == old(markers)[name]
      ensures forall name :: name in retired ==>
        && name in markers && RetirableNow(files, old(markers)[name])
        && markers[name] == old(markers)[name].(phase := Retired)
      ensures forall k | 0 <= k < |listing| && listing[k] in markers ::
        RetirableNow(files, old(markers)[listing[k]]) && closed[k] ==> listing[k] in retired
    {
      var picked := LatestSources(files);
      latest := Some(picked);
      Append(Scan(files, picked));
      retired := RetireStale(picked, listing, closed);
      StaleIsSuperseded(files, picked);
    }

    method RetireStale(
        picked: map<SK.Scope, string>, listing: seq<string>, closed: seq<bool>) returns (retired: seq<string>)
      requires Valid() && cursor.Idle? && latest == Some(picked) && |closed| == |listing|
      modifies this`run, this`cursor, this`markers
      ensures Valid() && cursor.Idle? && old(run) <= run
      ensures RetiredFrom(picked, old(markers), markers, retired)
      ensures forall k :: 0 <= k < |listing| && Retires(picked, old(markers), listing[k], closed[k]) ==>
        listing[k] in retired
    {
      retired := [];
      for i := 0 to |listing|
        invariant Valid() && cursor.Idle? && old(run) <= run
        invariant RetiredFrom(picked, old(markers), markers, retired)
        invariant forall k :: 0 <= k < i && Retires(picked, old(markers), listing[k], closed[k]) ==>
          listing[k] in retired
      {
        ghost var was := markers;
        var done := RetireOne(picked, listing[i], closed[i]);
        if done {
          RetireMore(picked, old(markers), was, retired, listing[i], closed[i]);
          retired := retired + [listing[i]];
        }
      }
    }
  }
}
