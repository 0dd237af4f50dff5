/** Any number of publishers at once: the publisher thread of the webhook and every reconcile run the same pass. */
module Publishers {
  import opened Wrappers
  import opened JsonValues
  import opened DirectChild
  import opened Handoff

  /**
   * What the publishers share, and where each of them is; a publisher without an entry is idle. lists holds the
   * outbox files that the pass of each publisher considers.
   */
  datatype Pool = Pool(
    receipts: map<string, Receipt>,
    outbox: map<string, Json>,
    published: map<string, Published>,
    lists: map<nat, set<string>>,
    at: map<nat, AppCursor>)

  const EMPTY := Pool(map[], map[], map[], map[], map[])

  /** The App's decision on a payload, given its receipt; the results hold for each, and so for TrustedBy. */
  type Trusts = (Receipt, string, Json) -> bool

  datatype Step =
    | AddReceipt(receipt: Receipt)
    | FileResult(id: string, payload: Json)
    | TakeList(p: nat)
    | Begin(p: nat, id: string)
    | Complete(p: nat, ok: bool)
    | Project(p: nat, ok: bool)
    | Record(p: nat, completion: Json, projection: Json)
    | MarkConsumed(p: nat)
    | Halt(p: nat)

  function CursorOf(s: Pool, p: nat): AppCursor
  {
    if p in s.at then s.at[p] else AppIdle
  }

  predicate Can(trusts: Trusts, s: Pool, a: Step)
  {
    match a
    case AddReceipt(r) => r.handoffId !in s.receipts && !r.consumed
    case FileResult(_, _) => true
    case TakeList(p) => CursorOf(s, p).AppIdle?
    case Begin(p, id) =>
      && CursorOf(s, p).AppIdle?
      && p in s.lists && id in s.lists[p]
      && IsLowerHexDigest(JStr(id))
      && id in s.outbox && id in s.receipts
      && trusts(s.receipts[id], id, s.outbox[id])
      && id !in s.published
    case Complete(p, _) => CursorOf(s, p).Completing?
    case Project(p, _) => CursorOf(s, p).Projecting?
    case Record(p, _, _) => CursorOf(s, p).Recording?
    case MarkConsumed(p) => CursorOf(s, p).Consuming? && CursorOf(s, p).id in s.receipts
    case Halt(_) => true
  }

  function Do(trusts: Trusts, s: Pool, a: Step): Pool
    requires Can(trusts, s, a)
  {
    match a
    case AddReceipt(r) => s.(receipts := s.receipts[r.handoffId := r])
    case FileResult(id, payload) => s.(outbox := s.outbox[id := payload])
    case TakeList(p) => s.(lists := s.lists[p := set id | id in s.outbox && Early(s.outbox, id)])
    case Begin(p, id) => s.(at := s.at[p := Completing(id, s.outbox[id])])
    case Complete(p, ok) => var c := s.at[p]; s.(at := s.at[p := if ok then Projecting(c.id, c.payload) else AppIdle])
    case Project(p, ok) => var c := s.at[p]; s.(at := s.at[p := if ok then Recording(c.id, c.payload) else AppIdle])
    case Record(p, completion, projection) =>
      var c := s.at[p];
      s.(published := s.published[c.id := Published(c.payload, completion, projection)],
         at := s.at[p := Consuming(c.id, c.payload)])
    case MarkConsumed(p) =>
      var id := s.at[p].id;
      s.(receipts := s.receipts[id := s.receipts[id].(consumed := true)], at := s.at[p := AppIdle])
    case Halt(p) => s.(at := s.at[p := AppIdle])
  }

  function After(trusts: Trusts, run: seq<Step>): Option<Pool>
  {
    if run == [] then Some(EMPTY)
    else
      var before, a := After(trusts, run[..|run| - 1]), run[|run| - 1];
      if before.Some? && Can(trusts, before.value, a) then Some(Do(trusts, before.value, a)) else None
  }

  lemma {:induction false} Prefixes(trusts: Trusts, run: seq<Step>, i: nat)
    requires After(trusts, run).Some? && i <= |run|
    ensures After(trusts, run[..i]).Some?
    ensures i < |run| ==> Can(trusts, After(trusts, run[..i]).value, run[i])
    ensures i < |run| ==> After(trusts, run[..i + 1]) == Some(Do(trusts, After(trusts, run[..i]).value, run[i]))
    decreases |run| - i
  {
    if i == |run| {
      assert run[..i] == run;
    } else {
      Prefixes(trusts, run, i + 1);
      assert run[..i + 1][..i] == run[..i];
    }
  }

  // ---- what is kept ----

  /** What is being published has a file and a receipt; consumed handoffs are published. */
  ghost predicate Inv(s: Pool)
  {
    && (forall p :: p in s.at && !s.at[p].AppIdle? ==> s.at[p].id in s.outbox && s.at[p].id in s.receipts)
    && (forall p :: p in s.at && s.at[p].Consuming? ==> s.at[p].id in s.published)
    && (forall id :: id in s.published ==> id in s.receipts)
    && (forall id :: id in s.receipts ==>
      s.receipts[id].handoffId == id && (s.receipts[id].consumed ==> id in s.published))
  }

  ghost predicate Grown(s: Pool, s': Pool)
  {
    && s.published.Keys <= s'.published.Keys
    && s.outbox.Keys <= s'.outbox.Keys
    && (forall id :: id in s.receipts ==> id in s'.receipts && (s.receipts[id].consumed ==> s'.receipts[id].consumed))
  }

  lemma {:induction false} StepKeeps(trusts: Trusts, s: Pool, a: Step)
    requires Inv(s) && Can(trusts, s, a)
    ensures Inv(Do(trusts, s, a)) && Grown(s, Do(trusts, s, a))
  {
  }

  lemma {:induction false} InvAlways(trusts: Trusts, run: seq<Step>)
    requires After(trusts, run).Some?
    ensures Inv(After(trusts, run).value)
  {
    if run != [] {
      InvAlways(trusts, run[..|run| - 1]);
      StepKeeps(trusts, After(trusts, run[..|run| - 1]).value, run[|run| - 1]);
    }
  }

  lemma {:induction false} GrownAlways(trusts: Trusts, run: seq<Step>, i: nat, j: nat)
    requires After(trusts, run).Some? && i <= j <= |run|
    ensures After(trusts, run[..i]).Some? && After(trusts, run[..j]).Some?
    ensures Grown(After(trusts, run[..i]).value, After(trusts, run[..j]).value)
    decreases j - i
  {
    Prefixes(trusts, run, i);
    Prefixes(trusts, run, j);
    if i < j {
      InvAlways(trusts, run[..i]);
      StepKeeps(trusts, After(trusts, run[..i]).value, run[i]);
      GrownAlways(trusts, run, i + 1, j);
    }
  }

  // ---- one publication ----

  /** How far a publication has come. */
  function Rank(c: AppCursor): nat
  {
    match c
    case AppIdle => 0
    case Completing(_, _) => 1
    case Projecting(_, _) => 2
    case Recording(_, _) => 3
    case Consuming(_, _) => 4
  }

  predicate Busy(s: Pool, p: nat, id: string)
  {
    !CursorOf(s, p).AppIdle? && CursorOf(s, p).id == id
  }

  /** From its begin at step i publisher p is busy with this handoff alone, up to step j, and only moves on. */
  ghost predicate Publishing(trusts: Trusts, run: seq<Step>, i: nat, j: nat, p: nat, id: string)
  {
    && i < j <= |run|
    && run[i] == Begin(p, id)
    && forall m :: i < m <= j ==> After(trusts, run[..m]).Some? && Busy(After(trusts, run[..m]).value, p, id)
  }

  /** A busy publisher began at some step, and has been busy since. */
  lemma {:induction false} HasBegun(trusts: Trusts, run: seq<Step>, j: nat, p: nat, id: string) returns (i: nat)
    requires After(trusts, run).Some? && j <= |run|
    requires After(trusts, run[..j]).Some? && Busy(After(trusts, run[..j]).value, p, id)
    ensures Publishing(trusts, run, i, j, p, id)
  {
    assert j > 0;
    Prefixes(trusts, run, j - 1);
    if run[j - 1] == Begin(p, id) {
      i := j - 1;
    } else {
      BusyBefore(trusts, After(trusts, run[..j - 1]).value, run[j - 1], p, id);
      i := HasBegun(trusts, run, j - 1, p, id);
    }
  }

  lemma BusyBefore(trusts: Trusts, s: Pool, a: Step, p: nat, id: string)
    requires Can(trusts, s, a) && Busy(Do(trusts, s, a), p, id) && a != Begin(p, id)
    ensures Busy(s, p, id)
  {
  }

  lemma BusyMovesOn(trusts: Trusts, s: Pool, a: Step, p: nat, id: string)
    requires Can(trusts, s, a) && Busy(s, p, id) && Busy(Do(trusts, s, a), p, id)
    ensures Rank(CursorOf(s, p)) <= Rank(CursorOf(Do(trusts, s, a), p))
    ensures CursorOf(Do(trusts, s, a), p).payload == CursorOf(s, p).payload
    ensures a.Record? && a.p == p ==> Rank(CursorOf(Do(trusts, s, a), p)) == 4
  {
  }

  /** A publication only moves on, and keeps its payload. */
  lemma {:induction false} MovesOn(trusts: Trusts, run: seq<Step>, i: nat, j: nat, k: nat, p: nat, id: string)
    requires After(trusts, run).Some? && Publishing(trusts, run, i, k, p, id) && i < j <= k
    ensures After(trusts, run[..j]).Some? && After(trusts, run[..k]).Some?
    ensures Busy(After(trusts, run[..j]).value, p, id) && Busy(After(trusts, run[..k]).value, p, id)
    ensures var c, c' := CursorOf(After(trusts, run[..j]).value, p), CursorOf(After(trusts, run[..k]).value, p);
      Rank(c) <= Rank(c') && c'.payload == c.payload
    decreases k - j
  {
    assert Busy(After(trusts, run[..j]).value, p, id);
    if j < k {
      Prefixes(trusts, run, j);
      assert Busy(After(trusts, run[..j + 1]).value, p, id);
      BusyMovesOn(trusts, After(trusts, run[..j]).value, run[j], p, id);
      MovesOn(trusts, run, i, j + 1, k, p, id);
    }
  }

  /** What is published is what the outbox held when the publication began. */
  lemma {:induction false} PayloadOfBegin(trusts: Trusts, run: seq<Step>, i: nat, j: nat, p: nat, id: string)
    requires After(trusts, run).Some? && Publishing(trusts, run, i, j, p, id)
    ensures After(trusts, run[..i]).Some? && After(trusts, run[..j]).Some?
    ensures id in After(trusts, run[..i]).value.outbox && Busy(After(trusts, run[..j]).value, p, id)
    ensures CursorOf(After(trusts, run[..j]).value, p).payload == After(trusts, run[..i]).value.outbox[id]
  {
    Prefixes(trusts, run, i);
    MovesOn(trusts, run, i, i + 1, j, p, id);
  }

  /** At step j publisher p makes a result for this handoff durable. */
  ghost predicate RecordsAt(trusts: Trusts, run: seq<Step>, j: nat, p: nat, id: string)
  {
    && j < |run|
    && run[j].Record?
    && run[j].p == p
    && After(trusts, run[..j]).Some?
    && CursorOf(After(trusts, run[..j]).value, p).Recording?
    && CursorOf(After(trusts, run[..j]).value, p).id == id
  }

  /** A publisher begins only with a file of its list, named by a digest, that is trusted and has no result yet. */
  lemma {:induction false} BeginsInForm(trusts: Trusts, run: seq<Step>, i: nat)
    requires After(trusts, run).Some? && i < |run| && run[i].Begin?
    ensures After(trusts, run[..i]).Some?
    ensures var s, p, id := After(trusts, run[..i]).value, run[i].p, run[i].id;
      && (p in s.at ==> s.at[p] == AppIdle)
      && p in s.lists && id in s.lists[p]
      && |id| == 64 && (forall k :: 0 <= k < 64 ==> '0' <= id[k] <= '9' || 'a' <= id[k] <= 'f')
      && id in s.outbox && id in s.receipts && id !in s.published
      && trusts(s.receipts[id], id, s.outbox[id])
  {
    Prefixes(trusts, run, i);
  }

  // ---- publishing twice ----

  /** A publication that is running began before any result of its handoff was durable. */
  lemma {:induction false} BeganBeforeResult(
      trusts: Trusts, run: seq<Step>, j: nat, p: nat, id: string) returns (i: nat)
    requires After(trusts, run).Some? && j <= |run|
    requires After(trusts, run[..j]).Some? && Busy(After(trusts, run[..j]).value, p, id)
    ensures Publishing(trusts, run, i, j, p, id)
    ensures After(trusts, run[..i]).Some? && id !in After(trusts, run[..i]).value.published
  {
    i := HasBegun(trusts, run, j, p, id);
    Prefixes(trusts, run, i);
  }

  /** The outbox file of this handoff just before step i. */
  ghost function FileAt(trusts: Trusts, run: seq<Step>, i: nat, id: string): Option<Json>
    requires i <= |run|
  {
    var s := After(trusts, run[..i]);
    if s.Some? && id in s.value.outbox then Some(s.value.outbox[id]) else None
  }

  /**
   * Two results of one handoff come from two publishers, and both had begun before the earlier result was durable:
   * overlapping is the only way to publish twice. They carry the same payload exactly if the outbox file was the
   * same at the two begins.
   */
  lemma {:induction false} TwoResultsOverlap(trusts: Trusts, run: seq<Step>, i: nat, j: nat, p: nat, q: nat, id: string)
      returns (a: nat, b: nat)
    requires After(trusts, run).Some? && i < j
    requires RecordsAt(trusts, run, i, p, id) && RecordsAt(trusts, run, j, q, id)
    ensures p != q && a < i && b < i
    ensures Publishing(trusts, run, a, i, p, id) && Publishing(trusts, run, b, j, q, id)
    ensures CursorOf(After(trusts, run[..i]).value, p).payload == CursorOf(After(trusts, run[..j]).value, q).payload
      <==> FileAt(trusts, run, a, id) == FileAt(trusts, run, b, id)
  {
    a := BeganBeforeResult(trusts, run, i, p, id);
    b := BeganBeforeResult(trusts, run, j, q, id);
    Prefixes(trusts, run, i);
    if i < b {
      GrownAlways(trusts, run, i + 1, b);
      assert false;
    }
    if p == q {
      assert Busy(After(trusts, run[..i + 1]).value, q, id);
      BusyMovesOn(trusts, After(trusts, run[..i]).value, run[i], q, id);
      MovesOn(trusts, run, b, i + 1, j, q, id);
      assert false;
    }
    PayloadOfBegin(trusts, run, a, i, p, id);
    PayloadOfBegin(trusts, run, b, j, q, id);
  }

  /** As long as nobody writes the file, it is the same. */
  lemma {:induction false} FileIsKept(trusts: Trusts, run: seq<Step>, a: nat, b: nat, id: string)
    requires After(trusts, run).Some? && a <= b <= |run|
    requires forall m :: a <= m < b && run[m].FileResult? ==> run[m].id != id
    ensures FileAt(trusts, run, a, id) == FileAt(trusts, run, b, id)
    decreases b - a
  {
    if a < b {
      Prefixes(trusts, run, a);
      FileIsKept(trusts, run, a + 1, b, id);
    }
  }

  lemma AfterOneMore(trusts: Trusts, run: seq<Step>, a: Step)
    requires After(trusts, run).Some? && Can(trusts, After(trusts, run).value, a)
    ensures After(trusts, run + [a]) == Some(Do(trusts, After(trusts, run).value, a))
  {
    assert (run + [a])[..|run|] == run;
  }

  /** And it does happen: wherever a handoff can be published, two idle publishers can both publish it. */
  lemma {:induction false} TwoCanPublish(
      trusts: Trusts, run: seq<Step>, p: nat, q: nat, id: string) returns (longer: seq<Step>)
    requires After(trusts, run).Some? && p != q
    requires Can(trusts, After(trusts, run).value, Begin(p, id)) && Can(trusts, After(trusts, run).value, Begin(q, id))
    ensures After(trusts, longer).Some?
    ensures RecordsAt(trusts, longer, |run| + 4, p, id) && RecordsAt(trusts, longer, |run| + 7, q, id)
  {
    AfterOneMore(trusts, run, Begin(p, id));
    AfterOneMore(trusts, run + [Begin(p, id)], Begin(q, id));
    longer := run + [Begin(p, id)] + [Begin(q, id)];
    var first := Finish(trusts, longer, p, id);
    longer := Finish(trusts, first, q, id);
    assert longer[..|run| + 4] == first[..|run| + 4] && longer[|run| + 4] == first[|run| + 4];
  }

  lemma {:induction false} Finish(trusts: Trusts, run: seq<Step>, p: nat, id: string) returns (longer: seq<Step>)
    requires After(trusts, run).Some?
    requires CursorOf(After(trusts, run).value, p).Completing? && CursorOf(After(trusts, run).value, p).id == id
    ensures longer == run + [Complete(p, true)] + [Project(p, true)] + [Record(p, JNull, JNull)]
    ensures After(trusts, longer).Some? && RecordsAt(trusts, longer, |run| + 2, p, id)
    ensures CursorOf(After(trusts, longer[..|run| + 2]).value, p).payload ==
      CursorOf(After(trusts, run).value, p).payload
    ensures CursorOf(After(trusts, longer).value, p).Consuming? && CursorOf(After(trusts, longer).value, p).id == id
    ensures After(trusts, longer).value.receipts == After(trusts, run).value.receipts
    ensures forall q :: q != p ==> CursorOf(After(trusts, longer).value, q) == CursorOf(After(trusts, run).value, q)
  {
    AfterOneMore(trusts, run, Complete(p, true));
    longer := run + [Complete(p, true)];
    AfterOneMore(trusts, longer, Project(p, true));
    longer := longer + [Project(p, true)];
    AfterOneMore(trusts, longer, Record(p, JNull, JNull));
    assert (longer + [Record(p, JNull, JNull)])[..|longer|] == longer;
    longer := longer + [Record(p, JNull, JNull)];
  }

  /** If the file is rewritten in between, two trusted payloads can both be published for one handoff. */
  lemma {:induction false} TwoPayloads(trusts: Trusts, run: seq<Step>, p: nat, q: nat, id: string, payload: Json)
      returns (longer: seq<Step>)
    requires After(trusts, run).Some? && p != q
    requires var s := After(trusts, run).value;
      && Can(trusts, s, Begin(p, id)) && Can(trusts, s, Begin(q, id))
      && trusts(s.receipts[id], id, payload) && payload != s.outbox[id]
    ensures After(trusts, longer).Some?
    ensures RecordsAt(trusts, longer, |run| + 5, p, id) && RecordsAt(trusts, longer, |run| + 8, q, id)
    ensures CursorOf(After(trusts, longer[..|run| + 5]).value, p).payload
         != CursorOf(After(trusts, longer[..|run| + 8]).value, q).payload
  {
    longer := BeginBoth(trusts, run, p, q, id, payload);
    var first := Finish(trusts, longer, p, id);
    longer := Finish(trusts, first, q, id);
    assert longer[..|run| + 5] == first[..|run| + 5] && longer[|run| + 5] == first[|run| + 5];
  }

  lemma {:induction false} BeginBoth(trusts: Trusts, run: seq<Step>, p: nat, q: nat, id: string, payload: Json)
      returns (longer: seq<Step>)
    requires After(trusts, run).Some? && p != q
    requires var s := After(trusts, run).value;
      Can(trusts, s, Begin(p, id)) && Can(trusts, s, Begin(q, id)) && trusts(s.receipts[id], id, payload)
    ensures |longer| == |run| + 3 && After(trusts, longer).Some?
    ensures CursorOf(After(trusts, longer).value, p) == Completing(id, After(trusts, run).value.outbox[id])
    ensures CursorOf(After(trusts, longer).value, q) == Completing(id, payload)
  {
    AfterOneMore(trusts, run, Begin(p, id));
    longer := run + [Begin(p, id)];
    AfterOneMore(trusts, longer, FileResult(id, payload));
    longer := longer + [FileResult(id, payload)];
    AfterOneMore(trusts, longer, Begin(q, id));
    longer := longer + [Begin(q, id)];
  }

  // ---- staying unconsumed ----

  /** From after step k up to step j publisher p is about to mark this handoff consumed. */
  ghost predicate StaysConsuming(trusts: Trusts, run: seq<Step>, k: nat, j: nat, p: nat, id: string)
  {
    && k < j <= |run|
    && forall m :: k < m <= j ==>
         After(trusts, run[..m]).Some? && ConsumingNow(After(trusts, run[..m]).value, p, id)
  }

  predicate ConsumingNow(s: Pool, p: nat, id: string)
  {
    CursorOf(s, p).Consuming? && CursorOf(s, p).id == id
  }

  /** After its result of step k, publisher p marks the handoff consumed at step h. */
  ghost predicate MarksAt(trusts: Trusts, run: seq<Step>, k: nat, h: nat, p: nat, id: string)
  {
    k < h < |run| && run[h] == MarkConsumed(p) && StaysConsuming(trusts, run, k, h, p, id)
  }

  /** After its result of step k, publisher p stops at step h before it could mark the handoff consumed. */
  ghost predicate HaltsAt(trusts: Trusts, run: seq<Step>, k: nat, h: nat, p: nat, id: string)
  {
    k < h < |run| && run[h] == Halt(p) && StaysConsuming(trusts, run, k, h, p, id)
  }

  ghost predicate Marked(trusts: Trusts, run: seq<Step>, k: nat, p: nat, id: string)
  {
    exists h: nat :: MarksAt(trusts, run, k, h, p, id)
  }

  ghost predicate Halted(trusts: Trusts, run: seq<Step>, k: nat, p: nat, id: string)
  {
    exists h: nat :: HaltsAt(trusts, run, k, h, p, id)
  }

  lemma ConsumingStep(trusts: Trusts, s: Pool, a: Step, p: nat, id: string)
    requires Can(trusts, s, a) && ConsumingNow(s, p, id)
    ensures ConsumingNow(Do(trusts, s, a), p, id) <==> a != MarkConsumed(p) && a != Halt(p)
  {
  }

  /** After a result its publisher marks, or stops, or is still about to mark. */
  lemma {:induction false} AfterResult(trusts: Trusts, run: seq<Step>, k: nat, j: nat, p: nat, id: string)
    requires After(trusts, run).Some? && RecordsAt(trusts, run, k, p, id) && k < j <= |run|
    ensures Marked(trusts, run, k, p, id) || Halted(trusts, run, k, p, id) || StaysConsuming(trusts, run, k, j, p, id)
  {
    if j == k + 1 {
      Prefixes(trusts, run, k);
    } else {
      AfterResult(trusts, run, k, j - 1, p, id);
      if StaysConsuming(trusts, run, k, j - 1, p, id) {
        MarksHaltsOrStays(trusts, run, k, j - 1, p, id);
      }
    }
  }

  lemma {:induction false} MarksHaltsOrStays(trusts: Trusts, run: seq<Step>, k: nat, h: nat, p: nat, id: string)
    requires After(trusts, run).Some? && h < |run| && StaysConsuming(trusts, run, k, h, p, id)
    ensures MarksAt(trusts, run, k, h, p, id) || HaltsAt(trusts, run, k, h, p, id) ||
      StaysConsuming(trusts, run, k, h + 1, p, id)
  {
    Prefixes(trusts, run, h);
    ConsumingStep(trusts, After(trusts, run[..h]).value, run[h], p, id);
  }

  /** A publisher about to mark a handoff has made a result durable for it. */
  lemma {:induction false} HasRecorded(trusts: Trusts, run: seq<Step>, j: nat, p: nat, id: string) returns (k: nat)
    requires After(trusts, run).Some? && j <= |run|
    requires After(trusts, run[..j]).Some? && ConsumingNow(After(trusts, run[..j]).value, p, id)
    ensures RecordsAt(trusts, run, k, p, id) && StaysConsuming(trusts, run, k, j, p, id)
  {
    assert j > 0;
    Prefixes(trusts, run, j - 1);
    if ConsumingNow(After(trusts, run[..j - 1]).value, p, id) {
      k := HasRecorded(trusts, run, j - 1, p, id);
    } else {
      k := j - 1;
    }
  }

  predicate Consumed(s: Pool, id: string)
  {
    id in s.receipts && s.receipts[id].consumed
  }

  lemma ConsumedStep(trusts: Trusts, s: Pool, a: Step, id: string)
    requires Can(trusts, s, a) && !Consumed(s, id) && Consumed(Do(trusts, s, a), id)
    ensures a.MarkConsumed? && ConsumingNow(s, a.p, id)
  {
  }

  /** A consumed handoff was marked by a publisher after its own result. */
  lemma {:induction false} ConsumedWasMarked(
      trusts: Trusts, run: seq<Step>, j: nat, id: string) returns (k: nat, p: nat)
    requires After(trusts, run).Some? && j <= |run|
    requires After(trusts, run[..j]).Some? && Consumed(After(trusts, run[..j]).value, id)
    ensures RecordsAt(trusts, run, k, p, id) && Marked(trusts, run, k, p, id)
  {
    assert j > 0;
    Prefixes(trusts, run, j - 1);
    var s := After(trusts, run[..j - 1]).value;
    if Consumed(s, id) {
      k, p := ConsumedWasMarked(trusts, run, j - 1, id);
    } else {
      ConsumedStep(trusts, s, run[j - 1], id);
      p := run[j - 1].p;
      k := HasRecorded(trusts, run, j - 1, p, id);
      assert MarksAt(trusts, run, k, j - 1, p, id);
    }
  }

  lemma {:induction false} MarkedIsConsumed(trusts: Trusts, run: seq<Step>, k: nat, p: nat, id: string)
    requires After(trusts, run).Some? && Marked(trusts, run, k, p, id)
    ensures Consumed(After(trusts, run).value, id)
  {
    var h: nat :| MarksAt(trusts, run, k, h, p, id);
    Prefixes(trusts, run, h);
    assert ConsumingNow(After(trusts, run[..h]).value, p, id);
    GrownAlways(trusts, run, h + 1, |run|);
    assert run[..|run|] == run;
  }

  /** A handoff is consumed if and only if some publisher lived to mark it after its own result. */
  lemma {:induction false} ConsumedIff(trusts: Trusts, run: seq<Step>, id: string)
    requires After(trusts, run).Some?
    ensures Consumed(After(trusts, run).value, id) <==>
      exists k: nat, p: nat :: RecordsAt(trusts, run, k, p, id) && Marked(trusts, run, k, p, id)
  {
    if Consumed(After(trusts, run).value, id) {
      assert run[..|run|] == run;
      var k, p := ConsumedWasMarked(trusts, run, |run|, id);
    } else {
      forall k: nat, p: nat ensures !Marked(trusts, run, k, p, id) {
        if Marked(trusts, run, k, p, id) {
          MarkedIsConsumed(trusts, run, k, p, id);
        }
      }
    }
  }

  /** The handoff has a result and is not consumed, and no publisher is busy with it. */
  ghost predicate Stranded(s: Pool, id: string)
  {
    id in s.published && !Consumed(s, id) && Unattended(s, id)
  }

  /** No publisher is busy with the handoff. */
  ghost predicate Unattended(s: Pool, id: string)
  {
    forall p: nat {:trigger CursorOf(s, p)} :: !Busy(s, p, id)
  }

  /** Before the end of that stretch the publisher neither marks nor stops. */
  lemma {:induction false} StaysUntil(trusts: Trusts, run: seq<Step>, k: nat, x: nat, y: nat, p: nat, id: string)
    requires After(trusts, run).Some? && StaysConsuming(trusts, run, k, y, p, id) && k < x < y
    ensures run[x] != MarkConsumed(p) && run[x] != Halt(p)
  {
    Prefixes(trusts, run, x);
    assert ConsumingNow(After(trusts, run[..x]).value, p, id) && ConsumingNow(After(trusts, run[..x + 1]).value, p, id);
    ConsumingStep(trusts, After(trusts, run[..x]).value, run[x], p, id);
  }

  lemma {:induction false} NotBoth(trusts: Trusts, run: seq<Step>, k: nat, p: nat, id: string)
    requires After(trusts, run).Some? && Marked(trusts, run, k, p, id)
    ensures !Halted(trusts, run, k, p, id)
  {
    var h: nat :| MarksAt(trusts, run, k, h, p, id);
    forall g: nat ensures !HaltsAt(trusts, run, k, g, p, id) {
      if HaltsAt(trusts, run, k, g, p, id) {
        if h < g {
          StaysUntil(trusts, run, k, h, g, p, id);
        } else if g < h {
          StaysUntil(trusts, run, k, g, h, p, id);
        }
      }
    }
  }

  /**
   * A published handoff that nobody is busy with is stranded if and only if every publisher of it stopped too early.
   */
  lemma {:induction false} StrandedIff(trusts: Trusts, run: seq<Step>, id: string)
    requires After(trusts, run).Some? && id in After(trusts, run).value.published
    requires Unattended(After(trusts, run).value, id)
    ensures Stranded(After(trusts, run).value, id) <==>
      forall k: nat, p: nat :: RecordsAt(trusts, run, k, p, id) ==> Halted(trusts, run, k, p, id)
  {
    ConsumedIff(trusts, run, id);
    forall k: nat, p: nat | RecordsAt(trusts, run, k, p, id)
      ensures Marked(trusts, run, k, p, id) <==> !Halted(trusts, run, k, p, id) {
      AfterResult(trusts, run, k, |run|, p, id);
      assert run[..|run|] == run;
      assert StaysConsuming(trusts, run, k, |run|, p, id) ==> Busy(After(trusts, run).value, p, id);
      if Marked(trusts, run, k, p, id) {
        NotBoth(trusts, run, k, p, id);
      }
    }
  }

  lemma {:induction false} BusyStep(trusts: Trusts, s: Pool, a: Step, p: nat, id: string)
    requires Can(trusts, s, a) && !Busy(s, p, id) && id in s.published
    ensures !Busy(Do(trusts, s, a), p, id)
  {
  }

  lemma {:induction false} StrandedStep(trusts: Trusts, s: Pool, a: Step, id: string)
    requires Inv(s) && Can(trusts, s, a) && Stranded(s, id)
    ensures Stranded(Do(trusts, s, a), id)
  {
    forall p: nat ensures !Busy(Do(trusts, s, a), p, id) {
      BusyStep(trusts, s, a, p, id);
    }
  }

  /** ... and it stays so in every continuation. */
  lemma {:induction false} StrandedForever(trusts: Trusts, run: seq<Step>, i: nat, j: nat, id: string)
    requires After(trusts, run).Some? && i <= j <= |run|
    requires After(trusts, run[..i]).Some? && Stranded(After(trusts, run[..i]).value, id)
    ensures After(trusts, run[..j]).Some? && Stranded(After(trusts, run[..j]).value, id)
    decreases j - i
  {
    Prefixes(trusts, run, i);
    if i < j {
      InvAlways(trusts, run[..i]);
      StrandedStep(trusts, After(trusts, run[..i]).value, run[i], id);
      StrandedForever(trusts, run, i + 1, j, id);
    }
  }

  /**
   * With two publishers, one that stops after its result need not strand the handoff: the other one still consumes
   * it.
   */
  lemma {:induction false} OtherStillConsumes(trusts: Trusts, run: seq<Step>, p: nat, q: nat, id: string)
      returns (longer: seq<Step>)
    requires After(trusts, run).Some? && p != q
    requires Can(trusts, After(trusts, run).value, Begin(p, id)) && Can(trusts, After(trusts, run).value, Begin(q, id))
    ensures After(trusts, longer).Some? && Consumed(After(trusts, longer).value, id)
    ensures exists k: nat :: RecordsAt(trusts, longer, k, p, id) && Halted(trusts, longer, k, p, id)
  {
    AfterOneMore(trusts, run, Begin(p, id));
    AfterOneMore(trusts, run + [Begin(p, id)], Begin(q, id));
    var k := |run| + 4;
    var halted := RecordAndHalt(trusts, run + [Begin(p, id)] + [Begin(q, id)], p, id);
    longer := FinishAndMark(trusts, halted, q, id);
    HaltedInLonger(trusts, halted, longer, k, p, id);
  }

  lemma {:induction false} FinishAndMark(trusts: Trusts, run: seq<Step>, q: nat, id: string) returns (longer: seq<Step>)
    requires After(trusts, run).Some?
    requires CursorOf(After(trusts, run).value, q).Completing? && CursorOf(After(trusts, run).value, q).id == id
    ensures run <= longer && After(trusts, longer).Some? && Consumed(After(trusts, longer).value, id)
  {
    var recorded := Finish(trusts, run, q, id);
    InvAlways(trusts, recorded);
    AfterOneMore(trusts, recorded, MarkConsumed(q));
    longer := recorded + [MarkConsumed(q)];
  }

  lemma {:induction false} RecordAndHalt(trusts: Trusts, run: seq<Step>, p: nat, id: string) returns (longer: seq<Step>)
    requires After(trusts, run).Some?
    requires CursorOf(After(trusts, run).value, p).Completing? && CursorOf(After(trusts, run).value, p).id == id
    ensures |longer| == |run| + 4 && After(trusts, longer).Some?
    ensures RecordsAt(trusts, longer, |run| + 2, p, id) && HaltsAt(trusts, longer, |run| + 2, |run| + 3, p, id)
    ensures forall q :: q != p ==> CursorOf(After(trusts, longer).value, q) == CursorOf(After(trusts, run).value, q)
  {
    var recorded := Finish(trusts, run, p, id);
    AfterOneMore(trusts, recorded, Halt(p));
    longer := recorded + [Halt(p)];
    var k := |run| + 2;
    assert longer[..k] == recorded[..k] && longer[k] == recorded[k] && longer[..k + 1] == recorded;
  }

  lemma {:induction false} HaltedInLonger(trusts: Trusts, run: seq<Step>, longer: seq<Step>, k: nat, p: nat, id: string)
    requires run <= longer && RecordsAt(trusts, run, k, p, id) && HaltsAt(trusts, run, k, k + 1, p, id)
    ensures RecordsAt(trusts, longer, k, p, id) && Halted(trusts, longer, k, p, id)
  {
    assert longer[..k] == run[..k] && longer[..k + 1] == run[..k + 1];
    assert HaltsAt(trusts, longer, k, k + 1, p, id);
  }
}
