/** The batch reconciliation pass of the background service: for every
    equipment, its track-in events are clustered, each event advances the
    lowest pending step row of every carrier of its lot on that equipment,
    and batches whose advanced carrier has no further step are deleted.

    Queries against the store see the rows as they were saved before the
    pass of the equipment began (the `!IsProcessed` filter is evaluated by
    the database, not on the tracked rows), while marks are made on the
    tracked rows and saved once at the end. So a row marked earlier in the
    same pass can be selected again by a later event; it is then counted
    again and its ProcessedAt is overwritten. */
module Reconciliation {
  import opened Records
  import opened Seqs
  import opened Clustering
  import opened Data

  /** An event's TrackInTime: the clustering and ordering key of the service. */
  function TrackIn(a: DcActl): int
  {
    a.trackInTime
  }

  /** The DC_Actl rows whose EqpId is `eqpName`, in store order. */
  function RowsOf(actls: seq<DcActl>, eqpName: string): (r: seq<DcActl>)
    ensures |r| <= |actls|
    decreases |actls|
  {
    if actls == [] then []
    else
      var r := RowsOf(actls[..|actls| - 1], eqpName);
      if actls[|actls| - 1].eqpId == eqpName then r + [actls[|actls| - 1]] else r
  }

  /** The equipment's rows are exactly the DC_Actl rows with its EqpId,
      none more often than stored. */
  lemma {:induction false} RowsOfSpec(actls: seq<DcActl>, eqpName: string)
    ensures forall a :: a in RowsOf(actls, eqpName) <==> a in actls && a.eqpId == eqpName
    ensures multiset(RowsOf(actls, eqpName)) <= multiset(actls)
    decreases |actls|
  {
    if actls != [] {
      RowsOfSpec(actls[..|actls| - 1], eqpName);
      assert actls == actls[..|actls| - 1] + [actls[|actls| - 1]];
    }
  }

  /** The DC_Actl rows of one equipment ordered by TrackInTime; rows with
      equal times keep their store order. */
  function EquipmentEvents(actls: seq<DcActl>, eqpName: string): seq<DcActl>
  {
    SortBy(RowsOf(actls, eqpName), ByKey(TrackIn))
  }

  /** The events of a pass are exactly the equipment's rows, each as often
      as it occurs in the store, in TrackInTime order. */
  lemma EquipmentEventsSpec(actls: seq<DcActl>, eqpName: string)
    ensures var r := EquipmentEvents(actls, eqpName);
      && (forall a :: a in r <==> a in actls && a.eqpId == eqpName)
      && multiset(r) <= multiset(actls)
      && SortedBy(r, ByKey(TrackIn))
  {
    ByKeyTotal(TrackIn);
    RowsOfSpec(actls, eqpName);
    SortBySpec(RowsOf(actls, eqpName), ByKey(TrackIn));
    var r := EquipmentEvents(actls, eqpName);
    assert forall a :: a in r <==> a in multiset(r);
  }

  // ---------------------------------------------------------------------
  // Matching

  /** A row the query for member `m` and an event at `eqpId` returns: same
      batch and carrier as the member, on the event's equipment, and not
      yet processed. */
  predicate IsCandidate(b: DcBatch, m: DcBatchMember, eqpId: string)
  {
    b.batchId == m.batchId && b.carrierId == m.carrierId && b.eqpId == eqpId && !b.isProcessed
  }

  /** The first row of the candidates ordered by Step: a candidate of lowest
      Step, the earliest in store order among those of that Step. */
  function LowestCandidate(rows: seq<DcBatch>, m: DcBatchMember, eqpId: string): (r: Option<nat>)
    ensures r.Some? ==> r.value < |rows|
    decreases |rows|
  {
    if rows == [] then None
    else
      var pre := LowestCandidate(rows[..|rows| - 1], m, eqpId);
      var i := |rows| - 1;
      if !IsCandidate(rows[i], m, eqpId) then pre
      else if pre.Some? && rows[pre.value].step <= rows[i].step then pre
      else Some(i)
  }

  /** The query's first row: there is none exactly when no row is a
      candidate; otherwise it is a candidate, no candidate has a lower Step,
      and every earlier candidate has a higher Step. */
  lemma {:induction false} LowestCandidateSpec(rows: seq<DcBatch>, m: DcBatchMember, eqpId: string)
    ensures var r := LowestCandidate(rows, m, eqpId);
      && (r.None? <==> forall k :: 0 <= k < |rows| ==> !IsCandidate(rows[k], m, eqpId))
      && (r.Some? ==> IsCandidate(rows[r.value], m, eqpId))
      && (r.Some? ==> forall k :: 0 <= k < |rows| && IsCandidate(rows[k], m, eqpId) ==> rows[r.value].step <= rows[k].step)
      && (r.Some? ==> forall k :: 0 <= k < r.value && IsCandidate(rows[k], m, eqpId) ==> rows[r.value].step < rows[k].step)
    decreases |rows|
  {
    if rows != [] {
      var pre := rows[..|rows| - 1];
      LowestCandidateSpec(pre, m, eqpId);
      assert forall k :: 0 <= k < |pre| ==> pre[k] == rows[k];
    }
  }

  /** A row advanced by the pass: its position in the store and the
      TrackInTime of the event that advanced it. */
  datatype Selection = Selection(row: nat, time: Time)

  function OfLot(lotId: string): DcBatchMember -> bool
  {
    (m: DcBatchMember) => m.lotId == lotId
  }

  /** The DC_BatchMembers rows of a lot (FilterSpec gives their meaning). */
  function MembersOf(members: seq<DcBatchMember>, lotId: string): seq<DcBatchMember>
  {
    Filter(members, OfLot(lotId))
  }

  /** The rows one event advances: for each of the members `ms`, in order,
      the member's lowest candidate, if it has one. */
  function MemberSelections(rows: seq<DcBatch>, ms: seq<DcBatchMember>, eqpId: string, t: Time): (r: seq<Selection>)
    ensures |r| <= |ms|
    ensures forall k :: 0 <= k < |r| ==> r[k].row < |rows|
    decreases |ms|
  {
    if ms == [] then []
    else
      var pre := MemberSelections(rows, ms[..|ms| - 1], eqpId, t);
      match LowestCandidate(rows, ms[|ms| - 1], eqpId)
      case None => pre
      case Some(i) => pre + [Selection(i, t)]
  }

  /** The rows the pass advances, event by event in cluster order. */
  function Selections(rows: seq<DcBatch>, members: seq<DcBatchMember>, events: seq<DcActl>): (r: seq<Selection>)
    ensures forall k :: 0 <= k < |r| ==> r[k].row < |rows|
    decreases |events|
  {
    if events == [] then []
    else
      var e := events[|events| - 1];
      Selections(rows, members, events[..|events| - 1]) + MemberSelections(rows, MembersOf(members, e.lotId), e.eqpId, e.trackInTime)
  }

  /** Every row one event advances is the lowest candidate of one of the
      members, and carries the event's time. */
  lemma {:induction false} MemberSelectionsSound(rows: seq<DcBatch>, ms: seq<DcBatchMember>, eqpId: string, t: Time, s: Selection)
    requires s in MemberSelections(rows, ms, eqpId, t)
    ensures s.time == t && exists m :: m in ms && LowestCandidate(rows, m, eqpId) == Some(s.row)
    decreases |ms|
  {
    var pre := ms[..|ms| - 1];
    var m := ms[|ms| - 1];
    if s in MemberSelections(rows, pre, eqpId, t) {
      MemberSelectionsSound(rows, pre, eqpId, t, s);
      var m' :| m' in pre && LowestCandidate(rows, m', eqpId) == Some(s.row);
      assert m' in ms;
    } else {
      assert m in ms;
    }
  }

  /** Every member with a candidate has its lowest candidate advanced. */
  lemma {:induction false} MemberSelectionsComplete(rows: seq<DcBatch>, ms: seq<DcBatchMember>, eqpId: string, t: Time, m: DcBatchMember, i: nat)
    requires m in ms && LowestCandidate(rows, m, eqpId) == Some(i)
    ensures Selection(i, t) in MemberSelections(rows, ms, eqpId, t)
    decreases |ms|
  {
    var pre := ms[..|ms| - 1];
    assert ms == pre + [ms[|ms| - 1]];
    if m != ms[|ms| - 1] {
      MemberSelectionsComplete(rows, pre, eqpId, t, m, i);
    }
  }

  /** Soundness of matching: every advanced row is, for some event of the
      pass and some member of the event's lot, the lowest-Step unprocessed
      row of the member's batch and carrier on the event's equipment, and it
      is marked with that event's TrackInTime. */
  lemma {:induction false} SelectionsSound(rows: seq<DcBatch>, members: seq<DcBatchMember>, events: seq<DcActl>, s: Selection)
    requires s in Selections(rows, members, events)
    ensures exists e, m ::
      (e in events && m in members && m.lotId == e.lotId && s.time == e.trackInTime &&
       LowestCandidate(rows, m, e.eqpId) == Some(s.row))
    decreases |events|
  {
    var pre := events[..|events| - 1];
    var e := events[|events| - 1];
    assert e in events;
    if s in Selections(rows, members, pre) {
      SelectionsSound(rows, members, pre, s);
      var e', m' :| e' in pre && m' in members && m'.lotId == e'.lotId && s.time == e'.trackInTime &&
        LowestCandidate(rows, m', e'.eqpId) == Some(s.row);
      assert e' in events;
    } else {
      MemberSelectionsSound(rows, MembersOf(members, e.lotId), e.eqpId, e.trackInTime, s);
      FilterSpec(members, OfLot(e.lotId));
    }
  }

  /** Completeness of matching: every event and every member of its lot
      whose batch and carrier have an unprocessed row on the event's
      equipment advance the lowest such row. */
  lemma {:induction false} SelectionsComplete(rows: seq<DcBatch>, members: seq<DcBatchMember>, events: seq<DcActl>,
                                              e: DcActl, m: DcBatchMember, i: nat)
    requires e in events && m in members && m.lotId == e.lotId && LowestCandidate(rows, m, e.eqpId) == Some(i)
    ensures Selection(i, e.trackInTime) in Selections(rows, members, events)
    decreases |events|
  {
    var pre := events[..|events| - 1];
    var last := events[|events| - 1];
    assert events == pre + [last];
    if e == last {
      FilterSpec(members, OfLot(e.lotId));
      MemberSelectionsComplete(rows, MembersOf(members, e.lotId), e.eqpId, e.trackInTime, m, i);
    } else {
      SelectionsComplete(rows, members, pre, e, m, i);
    }
  }

  /** Marks one selected row processed at the selection's time. */
  function Mark(rows: seq<DcBatch>, s: Selection): (r: seq<DcBatch>)
    ensures |r| == |rows|
  {
    if s.row < |rows| then rows[s.row := rows[s.row].(isProcessed := true, processedAt := Some(s.time))]
    else rows
  }

  /** The tracked rows after the selections, in order, have been marked. */
  function ApplyMarks(rows: seq<DcBatch>, sels: seq<Selection>): (r: seq<DcBatch>)
    ensures |r| == |rows|
    decreases |sels|
  {
    if sels == [] then rows
    else Mark(ApplyMarks(rows, sels[..|sels| - 1]), sels[|sels| - 1])
  }

  /** The time of the last selection of row `k`, if it was selected. */
  function LastMark(sels: seq<Selection>, k: nat): (r: Option<Time>)
    ensures r.None? <==> forall j :: 0 <= j < |sels| ==> sels[j].row != k
    ensures r.Some? ==> Selection(k, r.value) in sels
    decreases |sels|
  {
    if sels == [] then None
    else if sels[|sels| - 1].row == k then Some(sels[|sels| - 1].time)
    else LastMark(sels[..|sels| - 1], k)
  }

  /** A row is processed after the marks exactly when it was processed or
      selected; its ProcessedAt is then the time of its last selection;
      nothing else about it changes. */
  lemma {:induction false} ApplyMarksAt(rows: seq<DcBatch>, sels: seq<Selection>, k: nat)
    requires k < |rows|
    ensures LastMark(sels, k).None? ==> ApplyMarks(rows, sels)[k] == rows[k]
    ensures LastMark(sels, k).Some? ==>
      ApplyMarks(rows, sels)[k] == rows[k].(isProcessed := true, processedAt := Some(LastMark(sels, k).value))
    decreases |sels|
  {
    if sels != [] {
      ApplyMarksAt(rows, sels[..|sels| - 1], k);
    }
  }

  // ---------------------------------------------------------------------
  // Reaping

  /** Whether some row (processed or not) is the step after `b` of the same
      batch and carrier. */
  predicate NextStepExists(rows: seq<DcBatch>, b: DcBatch)
  {
    exists k :: 0 <= k < |rows| && rows[k].batchId == b.batchId && rows[k].carrierId == b.carrierId && rows[k].step == b.step + 1
  }

  /** The BatchIds scheduled for deletion: those of advanced rows that have
      no next step. */
  function Doomed(rows: seq<DcBatch>, sels: seq<Selection>): set<string>
    decreases |sels|
  {
    if sels == [] then {}
    else
      var pre := Doomed(rows, sels[..|sels| - 1]);
      var s := sels[|sels| - 1];
      if s.row < |rows| && !NextStepExists(rows, rows[s.row]) then pre + {rows[s.row].batchId} else pre
  }

  /** A BatchId is scheduled exactly when one of the advanced rows belongs to
      it and has no next step. */
  lemma {:induction false} DoomedIff(rows: seq<DcBatch>, sels: seq<Selection>, id: string)
    ensures id in Doomed(rows, sels) <==>
      exists s :: s in sels && s.row < |rows| && rows[s.row].batchId == id && !NextStepExists(rows, rows[s.row])
    decreases |sels|
  {
    if sels != [] {
      var pre := sels[..|sels| - 1];
      var s := sels[|sels| - 1];
      assert sels == pre + [s];
      DoomedIff(rows, pre, id);
      if id in Doomed(rows, pre) {
        var s' :| s' in pre && s'.row < |rows| && rows[s'.row].batchId == id && !NextStepExists(rows, rows[s'.row]);
        assert s' in sels;
      }
    }
  }

  function KeepBatch(ids: set<string>): DcBatch -> bool
  {
    (b: DcBatch) => b.batchId !in ids
  }

  function KeepMember(ids: set<string>): DcBatchMember -> bool
  {
    (m: DcBatchMember) => m.batchId !in ids
  }

  /** DC_Batch after RemoveRange of every row of the given BatchIds. */
  function WithoutBatches(rows: seq<DcBatch>, ids: set<string>): seq<DcBatch>
  {
    Filter(rows, KeepBatch(ids))
  }

  /** DC_BatchMembers after RemoveRange of every row of the given BatchIds. */
  function WithoutMembers(members: seq<DcBatchMember>, ids: set<string>): seq<DcBatchMember>
  {
    Filter(members, KeepMember(ids))
  }

  /** Removal keeps exactly the rows of the other BatchIds. */
  lemma WithoutSpec(rows: seq<DcBatch>, members: seq<DcBatchMember>, ids: set<string>)
    ensures forall b :: b in WithoutBatches(rows, ids) <==> b in rows && b.batchId !in ids
    ensures forall m :: m in WithoutMembers(members, ids) <==> m in members && m.batchId !in ids
  {
    FilterSpec(rows, KeepBatch(ids));
    FilterSpec(members, KeepMember(ids));
  }

  /** Removing no BatchId removes nothing. */
  lemma WithoutNothing(rows: seq<DcBatch>, members: seq<DcBatchMember>)
    ensures WithoutBatches(rows, {}) == rows
    ensures WithoutMembers(members, {}) == members
  {
    FilterAll(rows, KeepBatch({}));
    FilterAll(members, KeepMember({}));
  }

  // ---------------------------------------------------------------------
  // One equipment's pass, as a function of the store

  /** The two tables the pass changes. */
  datatype Tables = Tables(batches: seq<DcBatch>, members: seq<DcBatchMember>)

  /** The tables after one equipment's pass over `events`, and the number of
      rows it reports as updated. */
  function Reconcile(t: Tables, events: seq<DcActl>): (Tables, nat)
  {
    var sels := Selections(t.batches, t.members, events);
    var ids := Doomed(t.batches, sels);
    (Tables(WithoutBatches(ApplyMarks(t.batches, sels), ids), WithoutMembers(t.members, ids)), |sels|)
  }

  /** With no candidate row for any event, the pass reports 0 and changes
      nothing: already-processed rows, lots without members and rows on other
      equipment are never selected. */
  lemma {:induction false} ReconcileIdle(t: Tables, events: seq<DcActl>)
    requires forall e, m, k :: e in events && m in t.members && m.lotId == e.lotId && 0 <= k < |t.batches| ==>
      !IsCandidate(t.batches[k], m, e.eqpId)
    ensures Reconcile(t, events) == (t, 0)
  {
    var sels := Selections(t.batches, t.members, events);
    if sels != [] {
      SelectionsSound(t.batches, t.members, events, sels[0]);
      var e, m :| e in events && m in t.members && m.lotId == e.lotId && sels[0].time == e.trackInTime &&
        LowestCandidate(t.batches, m, e.eqpId) == Some(sels[0].row);
      LowestCandidateSpec(t.batches, m, e.eqpId);
      assert false;
    }
    ReconcileUnfold(t, events, sels, {});
    WithoutNothing(t.batches, t.members);
  }

  /** With no events the pass reports 0 and changes nothing. */
  lemma ReconcileNoEvents(t: Tables)
    ensures Reconcile(t, []) == (t, 0)
  {
    ReconcileIdle(t, []);
  }

  /** The fate of one row in the pass: if its BatchId is scheduled, no row
      of that BatchId is left, in either table; otherwise it stays, marked
      processed at its last selection's time if it was selected and
      unchanged if it was not. */
  lemma ReconcileRow(t: Tables, events: seq<DcActl>, k: nat)
    requires k < |t.batches|
    ensures var sels := Selections(t.batches, t.members, events);
      var ids := Doomed(t.batches, sels);
      var r := Reconcile(t, events).0;
      && (t.batches[k].batchId in ids ==>
            (forall b :: b in r.batches ==> b.batchId != t.batches[k].batchId) &&
            (forall m :: m in r.members ==> m.batchId != t.batches[k].batchId))
      && (t.batches[k].batchId !in ids && LastMark(sels, k).None? ==> t.batches[k] in r.batches)
      && (t.batches[k].batchId !in ids && LastMark(sels, k).Some? ==>
            t.batches[k].(isProcessed := true, processedAt := Some(LastMark(sels, k).value)) in r.batches)
  {
    var sels := Selections(t.batches, t.members, events);
    ApplyMarksAt(t.batches, sels, k);
    WithoutSpec(ApplyMarks(t.batches, sels), t.members, Doomed(t.batches, sels));
    var marked := ApplyMarks(t.batches, sels);
    assert marked[k] in marked;
  }

  /** A BatchId is scheduled exactly when some event advanced, through a
      member of its lot, a row of that BatchId that is the last step of its
      carrier (no row of the same batch and carrier has Step + 1). */
  lemma ReconcileReaps(t: Tables, events: seq<DcActl>, id: string)
    ensures id in Doomed(t.batches, Selections(t.batches, t.members, events)) <==>
      exists e, m, k :: e in events && m in t.members && m.lotId == e.lotId &&
        LowestCandidate(t.batches, m, e.eqpId) == Some(k) &&
        t.batches[k].batchId == id && !NextStepExists(t.batches, t.batches[k])
  {
    var sels := Selections(t.batches, t.members, events);
    DoomedIff(t.batches, sels, id);
    if id in Doomed(t.batches, sels) {
      var s :| s in sels && s.row < |t.batches| && t.batches[s.row].batchId == id && !NextStepExists(t.batches, t.batches[s.row]);
      SelectionsSound(t.batches, t.members, events, s);
    }
    if exists e, m, k :: e in events && m in t.members && m.lotId == e.lotId &&
         LowestCandidate(t.batches, m, e.eqpId) == Some(k) &&
         t.batches[k].batchId == id && !NextStepExists(t.batches, t.batches[k]) {
      var e, m, k :| e in events && m in t.members && m.lotId == e.lotId &&
        LowestCandidate(t.batches, m, e.eqpId) == Some(k) &&
        t.batches[k].batchId == id && !NextStepExists(t.batches, t.batches[k]);
      SelectionsComplete(t.batches, t.members, events, e, m, k);
    }
  }

  // ---------------------------------------------------------------------
  // Repeated passes and the order of steps

  /** A pass over one event whose lot has the single member `m`, whose
      lowest candidate `i` is not the last step of its carrier: that row is
      marked processed at the event's time, nothing is deleted, and the
      pass reports 1. */
  lemma OneMatchPass(rows: seq<DcBatch>, m: DcBatchMember, e: DcActl, i: nat)
    requires m.lotId == e.lotId && LowestCandidate(rows, m, e.eqpId) == Some(i)
    requires NextStepExists(rows, rows[i])
    ensures Reconcile(Tables(rows, [m]), [e]) == (Tables(Mark(rows, Selection(i, e.trackInTime)), [m]), 1)
  {
    var s := Selection(i, e.trackInTime);
    assert [m][..0] == [] && [e][..0] == [] && [s][..0] == [];
    assert MembersOf([m], e.lotId) == [m];
    assert Selections(rows, [m], [e]) == [s];
    assert Doomed(rows, [s]) == {};
    WithoutNothing(Mark(rows, s), [m]);
    ReconcileUnfold(Tables(rows, [m]), [e], [s], {});
  }

  /** A DC_Batch row of batch "B" and carrier "C" at `step` on `eqpId`, not
      yet processed. */
  function OpenRow(step: int, eqpId: string): DcBatch
  {
    DcBatch("B", step, "C", Some("L"), 25, None, eqpId, "R", "", false, 0, None)
  }

  /** The pass is not idempotent: every pass re-reads all of the
      equipment's events, so running it twice over the same events, with
      steps 1 and 2 of a carrier on the same equipment, marks step 1 in the
      first run and step 2 in the second. */
  lemma ReconcileNotIdempotent()
    ensures exists t: Tables, events: seq<DcActl> ::
      Reconcile(Reconcile(t, events).0, events).0 != Reconcile(t, events).0
  {
    var m := DcBatchMember("B", "C", "L", 25, "T");
    var e := DcActl("E", "L", "P", 10, "C", 25, "R", "", "", None);
    var rows := [OpenRow(1, "E"), OpenRow(2, "E"), OpenRow(3, "F")];
    LowestCandidateSpec(rows, m, "E");
    assert LowestCandidate(rows, m, "E") == Some(0);
    assert NextStepExists(rows, rows[0]) by { assert rows[1].step == rows[0].step + 1; }
    OneMatchPass(rows, m, e, 0);
    var once := Mark(rows, Selection(0, 10));
    LowestCandidateSpec(once, m, "E");
    assert LowestCandidate(once, m, "E") == Some(1);
    assert NextStepExists(once, once[1]) by { assert once[2].step == once[1].step + 1; }
    OneMatchPass(once, m, e, 1);
    var twice := Mark(once, Selection(1, 10));
    assert twice[1].isProcessed != once[1].isProcessed;
    assert Reconcile(Reconcile(Tables(rows, [m]), [e]).0, [e]).0 != Reconcile(Tables(rows, [m]), [e]).0;
  }

  /** Whether the processed steps of every batch and carrier form a prefix:
      a processed row has no unprocessed row of a lower Step. */
  predicate StepsInOrder(rows: seq<DcBatch>)
  {
    forall i, j ::
      0 <= i < |rows| && 0 <= j < |rows| && rows[i].batchId == rows[j].batchId &&
      rows[i].carrierId == rows[j].carrierId && rows[i].step < rows[j].step && rows[j].isProcessed
      ==> rows[i].isProcessed
  }

  /** Steps 1, 2 and 3 of carrier "C" of batch "B", on equipment "E", "F"
      and "G", none processed. */
  function GapRows(): seq<DcBatch>
  {
    [OpenRow(1, "E"), OpenRow(2, "F"), OpenRow(3, "G")]
  }

  /** Of those rows, an event on "F" for the carrier's lot selects step 2,
      which is not the carrier's last step. */
  lemma GapCandidate(m: DcBatchMember)
    requires m.batchId == "B" && m.carrierId == "C"
    ensures LowestCandidate(GapRows(), m, "F") == Some(1) && NextStepExists(GapRows(), GapRows()[1])
  {
    var rows := GapRows();
    LowestCandidateSpec(rows, m, "F");
    assert NextStepExists(rows, rows[1]) by { assert rows[2].step == rows[1].step + 1; }
  }

  /** The rows are in order, and marking step 2 alone leaves them out of
      order. */
  lemma GapMarked()
    ensures StepsInOrder(GapRows()) && !StepsInOrder(Mark(GapRows(), Selection(1, 10)))
  {
    var rows := GapRows();
    var after := Mark(rows, Selection(1, 10));
    assert after == [rows[0], rows[1].(isProcessed := true, processedAt := Some(10)), rows[2]];
    assert StepsInOrder(rows) by {
      assert forall j :: 0 <= j < |rows| ==> !rows[j].isProcessed;
    }
    assert !StepsInOrder(after) by {
      assert after[0].step < after[1].step && after[1].isProcessed && !after[0].isProcessed;
    }
  }

  /** The pass can leave a gap in the processed steps: the candidate query
      filters only by equipment, so an event on step 2's equipment marks
      step 2 while step 1 is still unprocessed. */
  lemma ReconcileLeavesGap()
    ensures exists t: Tables, events: seq<DcActl> ::
      StepsInOrder(t.batches) && !StepsInOrder(Reconcile(t, events).0.batches)
  {
    var m := DcBatchMember("B", "C", "L", 25, "T");
    var e := DcActl("F", "L", "P", 10, "C", 25, "R", "", "", None);
    GapCandidate(m);
    OneMatchPass(GapRows(), m, e, 1);
    GapMarked();
    var t := Tables(GapRows(), [m]);
    assert StepsInOrder(t.batches) && !StepsInOrder(Reconcile(t, [e]).0.batches);
  }

  /** The count is per event, not per row changed: two events of the same
      lot on the equipment select the carrier's one open row twice, so the
      pass reports more updates than DC_Batch has rows. */
  lemma ReconcileCountsEvents()
    ensures exists t: Tables, events: seq<DcActl> :: Reconcile(t, events).1 > |t.batches|
  {
    var m := DcBatchMember("B", "C", "L", 25, "T");
    var e1 := DcActl("E", "L", "P", 10, "C", 25, "R", "", "", None);
    var e2 := e1.(trackInTime := 20);
    var rows := [OpenRow(1, "E")];
    LowestCandidateSpec(rows, m, "E");
    assert LowestCandidate(rows, m, "E") == Some(0);
    var events := [e1, e2];
    SelectionsComplete(rows, [m], events, e1, m, 0);
    SelectionsComplete(rows, [m], events, e2, m, 0);
    var sels := Selections(rows, [m], events);
    assert Selection(0, 10) in sels && Selection(0, 20) in sels;
    assert |sels| >= 2 by {
      var a :| 0 <= a < |sels| && sels[a] == Selection(0, 10);
      var b :| 0 <= b < |sels| && sels[b] == Selection(0, 20);
      assert a != b;
    }
    assert Reconcile(Tables(rows, [m]), events).1 > |rows|;
  }

  /** Whether no batch, carrier and equipment have two unprocessed rows. */
  predicate OneOpenRow(rows: seq<DcBatch>)
  {
    forall i, j :: 0 <= i < |rows| && 0 <= j < |rows| && i != j && !rows[i].isProcessed && !rows[j].isProcessed ==>
      rows[i].batchId != rows[j].batchId || rows[i].carrierId != rows[j].carrierId || rows[i].eqpId != rows[j].eqpId
  }

  /** After a pass over tables with at most one open row per batch, carrier
      and equipment, no event of the pass has a candidate left. */
  lemma NoCandidateLeft(t: Tables, events: seq<DcActl>, e: DcActl, m: DcBatchMember, k: nat)
    requires OneOpenRow(t.batches)
    requires e in events && m in Reconcile(t, events).0.members && m.lotId == e.lotId
    requires k < |Reconcile(t, events).0.batches|
    ensures !IsCandidate(Reconcile(t, events).0.batches[k], m, e.eqpId)
  {
    var sels := Selections(t.batches, t.members, events);
    var ids := Doomed(t.batches, sels);
    var marked := ApplyMarks(t.batches, sels);
    ReconcileUnfold(t, events, sels, ids);
    WithoutSpec(marked, t.members, ids);
    var b := Reconcile(t, events).0.batches[k];
    assert b in Reconcile(t, events).0.batches;
    if IsCandidate(b, m, e.eqpId) {
      var j :| 0 <= j < |marked| && marked[j] == b;
      ApplyMarksAt(t.batches, sels, j);
      LowestCandidateSpec(t.batches, m, e.eqpId);
      var i := LowestCandidate(t.batches, m, e.eqpId).value;
      SelectionsComplete(t.batches, t.members, events, e, m, i);
      assert false;
    }
  }

  /** Where no batch, carrier and equipment have two unprocessed rows, a
      second pass over the same events changes nothing and reports 0. */
  lemma ReconcileIdempotent(t: Tables, events: seq<DcActl>)
    requires OneOpenRow(t.batches)
    ensures Reconcile(Reconcile(t, events).0, events) == (Reconcile(t, events).0, 0)
  {
    var r := Reconcile(t, events).0;
    forall e, m, k | e in events && m in r.members && m.lotId == e.lotId && 0 <= k < |r.batches|
      ensures !IsCandidate(r.batches[k], m, e.eqpId)
    {
      NoCandidateLeft(t, events, e, m, k);
    }
    ReconcileIdle(r, events);
  }

  // ---------------------------------------------------------------------
  // The methods of the service

  // Unfolding steps for the loops below.

  lemma MemberSelectionsStep(rows: seq<DcBatch>, ms: seq<DcBatchMember>, eqpId: string, t: Time, j: nat)
    requires j < |ms|
    ensures MemberSelections(rows, ms[..j + 1], eqpId, t) == MemberSelections(rows, ms[..j], eqpId, t) + MemberSelection(rows, ms[j], eqpId, t)
  {
    assert ms[..j + 1][..j] == ms[..j];
  }

  lemma SelectionsStep(rows: seq<DcBatch>, members: seq<DcBatchMember>, events: seq<DcActl>, i: nat)
    requires i < |events|
    ensures Selections(rows, members, events[..i + 1]) ==
      Selections(rows, members, events[..i]) + MemberSelections(rows, MembersOf(members, events[i].lotId), events[i].eqpId, events[i].trackInTime)
  {
    assert events[..i + 1][..i] == events[..i];
  }

  lemma ApplyMarksStep(rows: seq<DcBatch>, sels: seq<Selection>, s: Selection)
    ensures ApplyMarks(rows, sels + [s]) == Mark(ApplyMarks(rows, sels), s)
  {
    assert (sels + [s])[..|sels|] == sels;
  }

  lemma MarkTracked(rows: seq<DcBatch>, sels: seq<Selection>, tracked: seq<DcBatch>, k: nat, t: Time)
    requires tracked == ApplyMarks(rows, sels) && k < |rows|
    ensures ApplyMarks(rows, sels + [Selection(k, t)]) == tracked[k := tracked[k].(isProcessed := true, processedAt := Some(t))]
  {
    ApplyMarksStep(rows, sels, Selection(k, t));
  }

  lemma DoomedStep(rows: seq<DcBatch>, sels: seq<Selection>, i: nat)
    requires i < |sels|
    ensures Doomed(rows, sels[..i + 1]) ==
      if sels[i].row < |rows| && !NextStepExists(rows, rows[sels[i].row])
      then Doomed(rows, sels[..i]) + {rows[sels[i].row].batchId}
      else Doomed(rows, sels[..i])
  {
    assert sels[..i + 1][..i] == sels[..i];
  }

  lemma ReconcileUnfold(t: Tables, events: seq<DcActl>, sels: seq<Selection>, ids: set<string>)
    requires sels == Selections(t.batches, t.members, events) && ids == Doomed(t.batches, sels)
    ensures Reconcile(t, events) == (Tables(WithoutBatches(ApplyMarks(t.batches, sels), ids), WithoutMembers(t.members, ids)), |sels|)
  {
  }

  /** The rows one member advances: its lowest candidate, if any. */
  function MemberSelection(rows: seq<DcBatch>, m: DcBatchMember, eqpId: string, t: Time): seq<Selection>
  {
    match LowestCandidate(rows, m, eqpId)
    case None => []
    case Some(i) => [Selection(i, t)]
  }

  /** The matching stage for one member of the event's lot: the query reads
      the saved rows; the row it returns, if any, is marked on the tracked
      rows and counted. */
  method MatchMember(saved: seq<DcBatch>, member: DcBatchMember, eqpId: string, trackInTime: Time,
                     tracked0: seq<DcBatch>, updated0: seq<Selection>, count0: nat)
    returns (tracked: seq<DcBatch>, updatedBatches: seq<Selection>, updatedCount: nat)
    requires tracked0 == ApplyMarks(saved, updated0)
    ensures updatedBatches == updated0 + MemberSelection(saved, member, eqpId, trackInTime)
    ensures tracked == ApplyMarks(saved, updatedBatches)
    ensures updatedCount == count0 + |updatedBatches| - |updated0|
  {
    tracked, updatedBatches, updatedCount := tracked0, updated0, count0;
    var matchingBatch := LowestCandidate(saved, member, eqpId);
    if matchingBatch.Some? {
      var k := matchingBatch.value;
      MarkTracked(saved, updatedBatches, tracked, k, trackInTime);
      tracked := tracked[k := tracked[k].(isProcessed := true, processedAt := Some(trackInTime))];
      updatedBatches := updatedBatches + [Selection(k, trackInTime)];
      updatedCount := updatedCount + 1;
    }
  }

  /** The matching stage of MarkBatchesAsProcessed for one event: every
      member of the event's lot marks its lowest candidate on the tracked
      rows; the queries read the saved rows. */
  method MatchEvent(saved: Tables, actl: DcActl, tracked0: seq<DcBatch>, updated0: seq<Selection>, count0: nat)
    returns (tracked: seq<DcBatch>, updatedBatches: seq<Selection>, updatedCount: nat)
    requires tracked0 == ApplyMarks(saved.batches, updated0)
    ensures updatedBatches == updated0 + MemberSelections(saved.batches, MembersOf(saved.members, actl.lotId), actl.eqpId, actl.trackInTime)
    ensures tracked == ApplyMarks(saved.batches, updatedBatches)
    ensures updatedCount == count0 + |updatedBatches| - |updated0|
  {
    tracked, updatedBatches, updatedCount := tracked0, updated0, count0;
    var matchingMembers := MembersOf(saved.members, actl.lotId);
    for j := 0 to |matchingMembers|
      invariant updatedBatches == updated0 + MemberSelections(saved.batches, matchingMembers[..j], actl.eqpId, actl.trackInTime)
      invariant tracked == ApplyMarks(saved.batches, updatedBatches)
      invariant updatedCount == count0 + |updatedBatches| - |updated0|
    {
      MemberSelectionsStep(saved.batches, matchingMembers, actl.eqpId, actl.trackInTime, j);
      tracked, updatedBatches, updatedCount :=
        MatchMember(saved.batches, matchingMembers[j], actl.eqpId, actl.trackInTime, tracked, updatedBatches, updatedCount);
    }
    assert matchingMembers[..|matchingMembers|] == matchingMembers;
  }

  /** The matching stage of MarkBatchesAsProcessed: the events in cluster
      order. */
  method MatchEvents(saved: Tables, actlData: seq<DcActl>)
    returns (tracked: seq<DcBatch>, updatedBatches: seq<Selection>, updatedCount: nat)
    ensures updatedBatches == Selections(saved.batches, saved.members, actlData)
    ensures tracked == ApplyMarks(saved.batches, updatedBatches)
    ensures updatedCount == |updatedBatches|
  {
    updatedCount := 0;
    tracked := saved.batches;
    updatedBatches := [];
    for i := 0 to |actlData|
      invariant updatedBatches == Selections(saved.batches, saved.members, actlData[..i])
      invariant tracked == ApplyMarks(saved.batches, updatedBatches)
      invariant updatedCount == |updatedBatches|
    {
      SelectionsStep(saved.batches, saved.members, actlData, i);
      tracked, updatedBatches, updatedCount := MatchEvent(saved, actlData[i], tracked, updatedBatches, updatedCount);
    }
    assert actlData[..|actlData|] == actlData;
  }

  /** The scheduling stage of MarkBatchesAsProcessed: the BatchId of every
      advanced row that has no next step in the saved rows. */
  method ScheduleDeletes(saved: seq<DcBatch>, tracked: seq<DcBatch>, updatedBatches: seq<Selection>)
    returns (batchIdsToDelete: set<string>)
    requires tracked == ApplyMarks(saved, updatedBatches)
    requires forall k :: 0 <= k < |updatedBatches| ==> updatedBatches[k].row < |saved|
    ensures batchIdsToDelete == Doomed(saved, updatedBatches)
  {
    batchIdsToDelete := {};
    for i := 0 to |updatedBatches|
      invariant batchIdsToDelete == Doomed(saved, updatedBatches[..i])
    {
      DoomedStep(saved, updatedBatches, i);
      ApplyMarksAt(saved, updatedBatches, updatedBatches[i].row);
      var batch := tracked[updatedBatches[i].row];
      var nextStepExists := NextStepExists(saved, batch);
      if !nextStepExists {
        batchIdsToDelete := batchIdsToDelete + {batch.batchId};
      }
    }
    assert updatedBatches[..|updatedBatches|] == updatedBatches;
  }

  /** MarkBatchesAsProcessed: matching, then reaping, then one save. */
  method MarkBatchesAsProcessed(store: Store, eqpId: string, timeGroups: seq<seq<DcActl>>) returns (updatedCount: nat)
    modifies store`batches, store`members
    ensures (Tables(store.batches, store.members), updatedCount)
         == Reconcile(Tables(old(store.batches), old(store.members)), Flatten(timeGroups))
  {
    // What the queries read: the rows as saved before this pass.
    var saved := Tables(store.batches, store.members);
    if |timeGroups| == 0 {
      ReconcileNoEvents(saved);
      return 0;
    }
    var actlData := Flatten(timeGroups);
    // The rows as the context tracks them, with this pass's marks.
    var tracked, updatedBatches;
    tracked, updatedBatches, updatedCount := MatchEvents(saved, actlData);
    var batchIdsToDelete := ScheduleDeletes(saved.batches, tracked, updatedBatches);
    ReconcileUnfold(saved, actlData, updatedBatches, batchIdsToDelete);

    var members := saved.members;
    if batchIdsToDelete != {} {
      members := WithoutMembers(members, batchIdsToDelete);
      tracked := WithoutBatches(tracked, batchIdsToDelete);
    } else {
      WithoutNothing(tracked, members);
    }
    if updatedCount > 0 {
      store.batches := tracked;
      store.members := members;
    } else {
      assert updatedBatches == [];
    }
  }

  /** ProcessEquipmentBatches: the events of the equipment in time order,
      clustered, then matched and reaped. */
  method ProcessEquipmentBatches(store: Store, eqpName: string) returns (updated: nat)
    modifies store`batches, store`members
    ensures (Tables(store.batches, store.members), updated)
         == Reconcile(Tables(old(store.batches), old(store.members)), EquipmentEvents(store.actls, eqpName))
  {
    var actls := EquipmentEvents(store.actls, eqpName);
    if |actls| == 0 {
      ReconcileNoEvents(Tables(store.batches, store.members));
      return 0;
    }
    var timeGroups := GroupByTimeWindow(actls, TrackIn);
    updated := MarkBatchesAsProcessed(store, eqpName, timeGroups);
  }

  /** One equipment's pass as the service runs it: its events, ordered and
      clustered, matched and reaped. */
  function EquipmentPass(actls: seq<DcActl>): (Tables, string) -> (Tables, nat)
  {
    (t: Tables, name: string) => Reconcile(t, EquipmentEvents(actls, name))
  }

  /** The effect of one equipment on the tables and the running total: an
      equipment whose pass throws (its name is in `faults`) changes nothing;
      otherwise its pass runs on the tables and its count is added. */
  function Step(pass: (Tables, string) -> (Tables, nat), x: (Tables, nat), e: DcEqp, faults: set<string>): (Tables, nat)
  {
    if e.name in faults then x
    else
      var next := pass(x.0, e.name);
      (next.0, x.1 + next.1)
  }

  /** The passes of all equipment in DC_Eqps order, each applying `pass` to
      the store the previous one left. */
  function Passes(t: Tables, eqps: seq<DcEqp>, pass: (Tables, string) -> (Tables, nat), faults: set<string>): (Tables, nat)
    decreases |eqps|
  {
    if eqps == [] then (t, 0)
    else Step(pass, Passes(t, eqps[..|eqps| - 1], pass, faults), eqps[|eqps| - 1], faults)
  }

  function NotFaulted(faults: set<string>): DcEqp -> bool
  {
    (e: DcEqp) => e.name !in faults
  }

  /** Fault isolation: the passes give the same store and total as passes
      over only the equipment that does not throw. */
  lemma {:induction false} FaultsAreSkipped(t: Tables, eqps: seq<DcEqp>, pass: (Tables, string) -> (Tables, nat), faults: set<string>)
    ensures Passes(t, eqps, pass, faults) == Passes(t, Filter(eqps, NotFaulted(faults)), pass, {})
    decreases |eqps|
  {
    if eqps != [] {
      var pre := eqps[..|eqps| - 1];
      var e := eqps[|eqps| - 1];
      FaultsAreSkipped(t, pre, pass, faults);
      var f := Filter(pre, NotFaulted(faults));
      assert Filter(eqps, NotFaulted(faults)) == if e.name in faults then f else f + [e];
      if e.name in faults {
        assert Passes(t, eqps, pass, faults) == Passes(t, pre, pass, faults);
      } else {
        var g := f + [e];
        assert g[..|g| - 1] == f;
        assert Passes(t, g, pass, {}) == Step(pass, Passes(t, f, pass, {}), e, {});
        assert Passes(t, eqps, pass, faults) == Step(pass, Passes(t, pre, pass, faults), e, faults);
      }
    }
  }

  /** When every equipment throws, nothing changes and the total is 0. */
  lemma {:induction false} AllFaulted(t: Tables, eqps: seq<DcEqp>, pass: (Tables, string) -> (Tables, nat), faults: set<string>)
    requires forall k :: 0 <= k < |eqps| ==> eqps[k].name in faults
    ensures Passes(t, eqps, pass, faults) == (t, 0)
    decreases |eqps|
  {
    if eqps != [] {
      AllFaulted(t, eqps[..|eqps| - 1], pass, faults);
    }
  }

  /** A sequence of states that starts from the tables and a total of 0 and
      takes one Step per equipment ends where the passes end. */
  lemma {:induction false} PassesOfRun(t: Tables, eqps: seq<DcEqp>, pass: (Tables, string) -> (Tables, nat), faults: set<string>,
                                       run: seq<(Tables, nat)>)
    requires |run| == |eqps| + 1 && run[0] == (t, 0)
    requires forall k :: 0 <= k < |eqps| ==> run[k + 1] == Step(pass, run[k], eqps[k], faults)
    ensures Passes(t, eqps, pass, faults) == run[|eqps|]
    decreases |eqps|
  {
    if eqps != [] {
      PassesOfRun(t, eqps[..|eqps| - 1], pass, faults, run[..|eqps|]);
    }
  }

  /** The passes of the service over the equipment in DC_Eqps order. */
  function ServicePasses(t: Tables, eqps: seq<DcEqp>, actls: seq<DcActl>, faults: set<string>): (Tables, nat)
  {
    Passes(t, eqps, EquipmentPass(actls), faults)
  }

  /** The service's pass of one equipment is the reconciliation of its
      events. */
  lemma EquipmentPassApply(actls: seq<DcActl>, t: Tables, name: string)
    ensures EquipmentPass(actls)(t, name) == Reconcile(t, EquipmentEvents(actls, name))
  {
  }

  /** The body of the loop of UpdateBatchProcessingStatus for one
      equipment: its pass runs and its count is added to the total, unless
      the pass throws, in which case the exception is caught and nothing
      changes. */
  method PassEquipment(store: Store, eqp: DcEqp, faults: set<string>, total: nat) returns (newTotal: nat)
    modifies store`batches, store`members
    ensures (Tables(store.batches, store.members), newTotal)
         == Step(EquipmentPass(store.actls), (Tables(old(store.batches), old(store.members)), total), eqp, faults)
  {
    newTotal := total;
    if eqp.name !in faults {
      EquipmentPassApply(store.actls, Tables(store.batches, store.members), eqp.name);
      var updated := ProcessEquipmentBatches(store, eqp.name);
      newTotal := total + updated;
    }
  }

  /** UpdateBatchProcessingStatus: one pass per equipment, summing the
      counts; an exception in one equipment's pass is caught. */
  method UpdateBatchProcessingStatus(store: Store, faults: set<string>) returns (totalUpdated: nat)
    modifies store`batches, store`members
    ensures (Tables(store.batches, store.members), totalUpdated)
         == ServicePasses(Tables(old(store.batches), old(store.members)), store.eqps, store.actls, faults)
  {
    var start := Tables(store.batches, store.members);
    var equipments := store.eqps;
    ghost var pass := EquipmentPass(store.actls);
    ghost var run := [(start, 0)];
    totalUpdated := 0;
    for i := 0 to |equipments|
      invariant |run| == i + 1 && run[0] == (start, 0)
      invariant run[i] == (Tables(store.batches, store.members), totalUpdated)
      invariant forall k :: 0 <= k < i ==> run[k + 1] == Step(pass, run[k], equipments[k], faults)
    {
      totalUpdated := PassEquipment(store, equipments[i], faults, totalUpdated);
      run := run + [(Tables(store.batches, store.members), totalUpdated)];
    }
    PassesOfRun(start, equipments, pass, faults, run);
  }
}
