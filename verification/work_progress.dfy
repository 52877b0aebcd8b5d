/** The WorkProgress page: the same cards as the Dashboard, built from the
    store's DC_Actl rows and DC_Wips, except that loading the page also
    marks as processed every batch one of whose carriers' lots appears among
    the equipment's events, before the reserved batches are read. */
module WorkProgress {
  import opened Records
  import opened Seqs
  import opened Clustering
  import opened Data
  import Index
  import opened Progress
  import Reconciliation

  // ---------------------------------------------------------------------
  // CreateProcessItemsFromActls

  /** The first DC_Wips row, in store order, of lot `lotId`. */
  function WipOfLot(wips: seq<DcWip>, lotId: string): (r: Option<nat>)
    ensures r.None? <==> forall k :: 0 <= k < |wips| ==> wips[k].lotId != lotId
    ensures r.Some? ==> r.value < |wips| && wips[r.value].lotId == lotId &&
                        forall k :: 0 <= k < r.value ==> wips[k].lotId != lotId
    decreases |wips|
  {
    if wips == [] then None
    else if wips[0].lotId == lotId then Some(0)
    else
      var r := WipOfLot(wips[1..], lotId);
      assert forall k :: 1 <= k < |wips| ==> wips[k] == wips[1..][k - 1];
      if r.None? then None else Some(r.value + 1)
  }

  /** The item shown for an event: its lot, the carrier, quantity and target
      PPID of the lot's first WIP row ("", 0 and "" without one), no next
      furnace or location, and the track-in time as text. `format` renders
      a time as "yyyy/MM/dd HH:mm". */
  function ActlItem(wips: seq<DcWip>, format: Time -> string, a: DcActl): ProcessItem
  {
    var w := WipOfLot(wips, a.lotId);
    if w.Some? then
      ProcessItem(wips[w.value].carrier, a.lotId, wips[w.value].qty, wips[w.value].targetPPID, "", "", format(a.trackInTime))
    else
      ProcessItem("", a.lotId, 0, "", "", "", format(a.trackInTime))
  }

  /** The items of a cluster, in event order. */
  function ActlItems(wips: seq<DcWip>, format: Time -> string, actls: seq<DcActl>): (r: seq<ProcessItem>)
    ensures |r| == |actls|
    decreases |actls|
  {
    if actls == [] then []
    else ActlItems(wips, format, actls[..|actls| - 1]) + [ActlItem(wips, format, actls[|actls| - 1])]
  }

  lemma ActlItemsStep(wips: seq<DcWip>, format: Time -> string, actls: seq<DcActl>, i: nat)
    requires i < |actls|
    ensures ActlItems(wips, format, actls[..i + 1]) == ActlItems(wips, format, actls[..i]) + [ActlItem(wips, format, actls[i])]
  {
    assert actls[..i + 1][..i] == actls[..i];
  }

  /** WorkProgressModel.CreateProcessItemsFromActls. */
  method CreateProcessItemsFromActls(wips: seq<DcWip>, format: Time -> string, actls: seq<DcActl>)
    returns (items: seq<ProcessItem>)
    ensures items == ActlItems(wips, format, actls)
  {
    items := [];
    for i := 0 to |actls|
      invariant items == ActlItems(wips, format, actls[..i])
    {
      ActlItemsStep(wips, format, actls, i);
      var actl := actls[i];
      var wipInfo := WipOfLot(wips, actl.lotId);
      var carrier, qty, ppid := "", 0, "";
      if wipInfo.Some? {
        carrier, qty, ppid := wips[wipInfo.value].carrier, wips[wipInfo.value].qty, wips[wipInfo.value].targetPPID;
      }
      items := items + [ProcessItem(carrier, actl.lotId, qty, ppid, "", "", format(actl.trackInTime))];
    }
    assert actls[..|actls|] == actls;
  }

  /** The k-th item is that of the k-th event: its lot and track-in time,
      and the carrier, quantity and target PPID of the lot's first WIP row,
      or "", 0 and "" when no WIP row has that lot. */
  lemma {:induction false} ActlItemsAt(wips: seq<DcWip>, format: Time -> string, actls: seq<DcActl>, k: nat)
    requires k < |actls|
    ensures var item := ActlItems(wips, format, actls)[k];
      && item.lot == actls[k].lotId
      && item.endTime == format(actls[k].trackInTime)
      && item.nextFurnace == "" && item.location == ""
      && ((forall j :: 0 <= j < |wips| ==> wips[j].lotId != actls[k].lotId) ==>
            item.carrier == "" && item.qty == 0 && item.ppid == "")
      && (forall j :: 0 <= j < |wips| && wips[j].lotId == actls[k].lotId &&
                      (forall i :: 0 <= i < j ==> wips[i].lotId != actls[k].lotId) ==>
            item.carrier == wips[j].carrier && item.qty == wips[j].qty && item.ppid == wips[j].targetPPID)
    decreases |actls|
  {
    if k < |actls| - 1 {
      ActlItemsAt(wips, format, actls[..|actls| - 1], k);
      assert actls[..|actls| - 1][k] == actls[k];
    } else {
      var a := actls[k];
      var w := WipOfLot(wips, a.lotId);
      forall j | 0 <= j < |wips| && wips[j].lotId == a.lotId && (forall i :: 0 <= i < j ==> wips[i].lotId != a.lotId)
        ensures w == Some(j)
      {
        assert !(w.value < j);
        assert !(j < w.value);
      }
    }
  }

  // ---------------------------------------------------------------------
  // CreateProcessItemsFromBatch

  /** What a member shows when its batch has no row at the next step. */
  const NoNextStep: string := "なし"

  /** The DC_BatchMembers rows of batch `batchId`, in store order. */
  function MembersOfBatch(members: seq<DcBatchMember>, batchId: string): seq<DcBatchMember>
  {
    Filter(members, OfBatch(batchId))
  }

  function OfBatch(batchId: string): DcBatchMember -> bool
  {
    (m: DcBatchMember) => m.batchId == batchId
  }

  /** The batch's members are exactly its DC_BatchMembers rows, each as often
      as it is stored. */
  lemma MembersOfBatchCount(members: seq<DcBatchMember>, batchId: string, m: DcBatchMember)
    ensures multiset(MembersOfBatch(members, batchId))[m] == if m.batchId == batchId then multiset(members)[m] else 0
  {
    FilterCount(members, OfBatch(batchId), m);
  }

  /** A row of `batch`'s batch for member `m`'s carrier, one step further. */
  predicate IsNextStep(b: DcBatch, batch: DcBatch, m: DcBatchMember)
  {
    b.batchId == batch.batchId && b.carrierId == m.carrierId && b.step == batch.step + 1
  }

  /** The first such row, in store order. */
  function NextStep(batches: seq<DcBatch>, batch: DcBatch, m: DcBatchMember): (r: Option<nat>)
    ensures r.None? <==> forall k :: 0 <= k < |batches| ==> !IsNextStep(batches[k], batch, m)
    ensures r.Some? ==> r.value < |batches| && IsNextStep(batches[r.value], batch, m) &&
                        forall k :: 0 <= k < r.value ==> !IsNextStep(batches[k], batch, m)
    decreases |batches|
  {
    if batches == [] then None
    else if IsNextStep(batches[0], batch, m) then Some(0)
    else
      var r := NextStep(batches[1..], batch, m);
      assert forall k :: 1 <= k < |batches| ==> batches[k] == batches[1..][k - 1];
      if r.None? then None else Some(r.value + 1)
  }

  /** The item shown for one member of a reserved batch. */
  function MemberItem(batches: seq<DcBatch>, batch: DcBatch, m: DcBatchMember): ProcessItem
  {
    var next := NextStep(batches, batch, m);
    ProcessItem(m.carrierId, m.lotId, m.qty, batch.ppid,
                if next.Some? then batches[next.value].eqpId else NoNextStep, "", "")
  }

  function MemberItems(batches: seq<DcBatch>, batch: DcBatch, ms: seq<DcBatchMember>): (r: seq<ProcessItem>)
    ensures |r| == |ms| && forall k :: 0 <= k < |ms| ==> r[k] == MemberItem(batches, batch, ms[k])
  {
    seq(|ms|, k requires 0 <= k < |ms| => MemberItem(batches, batch, ms[k]))
  }

  /** The items of a reserved batch: one per member of the batch. */
  function BatchItems(batches: seq<DcBatch>, members: seq<DcBatchMember>, batch: DcBatch): seq<ProcessItem>
  {
    MemberItems(batches, batch, MembersOfBatch(members, batch.batchId))
  }

  /** WorkProgressModel.CreateProcessItemsFromBatch. */
  method CreateProcessItemsFromBatch(batches: seq<DcBatch>, members: seq<DcBatchMember>, batch: DcBatch)
    returns (items: seq<ProcessItem>)
    ensures items == BatchItems(batches, members, batch)
  {
    var batchMembers := MembersOfBatch(members, batch.batchId);
    items := [];
    for i := 0 to |batchMembers|
      invariant items == MemberItems(batches, batch, batchMembers[..i])
    {
      var member := batchMembers[i];
      var nextStep := NextStep(batches, batch, member);
      var nextFurnace := NoNextStep;
      if nextStep.Some? {
        nextFurnace := batches[nextStep.value].eqpId;
      }
      items := items + [ProcessItem(member.carrierId, member.lotId, member.qty, batch.ppid, nextFurnace, "", "")];
    }
    assert batchMembers[..|batchMembers|] == batchMembers;
  }

  /** A reserved batch shows its members, in store order, with the batch's
      PPID; a member's next furnace is the equipment of its carrier's first
      row one step further in the batch, or "なし" when there is none. */
  lemma BatchItemsSpec(batches: seq<DcBatch>, members: seq<DcBatchMember>, batch: DcBatch, k: nat)
    requires k < |MembersOfBatch(members, batch.batchId)|
    ensures var m := MembersOfBatch(members, batch.batchId)[k];
      var item := BatchItems(batches, members, batch)[k];
      && m in members && m.batchId == batch.batchId
      && item.carrier == m.carrierId && item.lot == m.lotId && item.qty == m.qty && item.ppid == batch.ppid
      && ((forall j :: 0 <= j < |batches| ==> !IsNextStep(batches[j], batch, m)) ==> item.nextFurnace == NoNextStep)
      && (forall j :: 0 <= j < |batches| && IsNextStep(batches[j], batch, m) &&
                      (forall i :: 0 <= i < j ==> !IsNextStep(batches[i], batch, m)) ==>
            item.nextFurnace == batches[j].eqpId)
  {
    var ms := MembersOfBatch(members, batch.batchId);
    var m := ms[k];
    MembersOfBatchCount(members, batch.batchId, m);
    assert m in multiset(ms);
    var next := NextStep(batches, batch, m);
    forall j | 0 <= j < |batches| && IsNextStep(batches[j], batch, m) && (forall i :: 0 <= i < j ==> !IsNextStep(batches[i], batch, m))
      ensures next == Some(j)
    {
      assert !(next.value < j);
      assert !(j < next.value);
    }
  }

  /** Every member of the batch has its item, as often as it is stored. */
  lemma BatchItemsCover(batches: seq<DcBatch>, members: seq<DcBatchMember>, batch: DcBatch, m: DcBatchMember)
    requires m in members && m.batchId == batch.batchId
    ensures multiset(MembersOfBatch(members, batch.batchId))[m] == multiset(members)[m]
    ensures exists k :: (0 <= k < |MembersOfBatch(members, batch.batchId)| &&
      MembersOfBatch(members, batch.batchId)[k] == m && BatchItems(batches, members, batch)[k] == MemberItem(batches, batch, m))
  {
    MembersOfBatchCount(members, batch.batchId, m);
    assert m in MembersOfBatch(members, batch.batchId);
  }

  // ---------------------------------------------------------------------
  // MarkBatchesAsProcessed

  /** One row of the join of DC_Batch with DC_BatchMembers. */
  datatype Joined = Joined(batch: DcBatch, member: DcBatchMember)

  /** A batch row on `eqpId` and a member of the same batch and carrier. */
  predicate Joins(b: DcBatch, m: DcBatchMember, eqpId: string)
  {
    b.eqpId == eqpId && m.batchId == b.batchId && m.carrierId == b.carrierId
  }

  /** The members joined to one batch row, in store order. */
  function MembersJoined(b: DcBatch, members: seq<DcBatchMember>): (r: seq<Joined>)
    decreases |members|
  {
    if members == [] then []
    else
      var r := MembersJoined(b, members[..|members| - 1]);
      var m := members[|members| - 1];
      if m.batchId == b.batchId && m.carrierId == b.carrierId then r + [Joined(b, m)] else r
  }

  /** The join, batch rows in store order and, within one, members in store
      order. */
  function JoinRows(batches: seq<DcBatch>, members: seq<DcBatchMember>, eqpId: string): (r: seq<Joined>)
    decreases |batches|
  {
    if batches == [] then []
    else
      var r := JoinRows(batches[..|batches| - 1], members, eqpId);
      var b := batches[|batches| - 1];
      if b.eqpId == eqpId then r + MembersJoined(b, members) else r
  }

  lemma {:induction false} MembersJoinedSpec(b: DcBatch, members: seq<DcBatchMember>, p: Joined)
    ensures p in MembersJoined(b, members) <==>
      p.batch == b && p.member in members && p.member.batchId == b.batchId && p.member.carrierId == b.carrierId
    decreases |members|
  {
    if members != [] {
      var pre := members[..|members| - 1];
      MembersJoinedSpec(b, pre, p);
      assert members == pre + [members[|members| - 1]];
    }
  }

  /** The join holds exactly the pairs of a batch row on the equipment and a
      member of the same batch and carrier. */
  lemma {:induction false} JoinRowsSpec(batches: seq<DcBatch>, members: seq<DcBatchMember>, eqpId: string, p: Joined)
    ensures p in JoinRows(batches, members, eqpId) <==> p.batch in batches && p.member in members && Joins(p.batch, p.member, eqpId)
    decreases |batches|
  {
    if batches != [] {
      var pre := batches[..|batches| - 1];
      var b := batches[|batches| - 1];
      JoinRowsSpec(pre, members, eqpId, p);
      MembersJoinedSpec(b, members, p);
      assert batches == pre + [b];
    }
  }

  /** The position of the first joined row whose member is of lot `lotId`. */
  function FirstOfLot(pairs: seq<Joined>, lotId: string): (r: Option<nat>)
    ensures r.None? <==> forall k :: 0 <= k < |pairs| ==> pairs[k].member.lotId != lotId
    ensures r.Some? ==> r.value < |pairs| && pairs[r.value].member.lotId == lotId &&
                        forall k :: 0 <= k < r.value ==> pairs[k].member.lotId != lotId
    decreases |pairs|
  {
    if pairs == [] then None
    else if pairs[0].member.lotId == lotId then Some(0)
    else
      var r := FirstOfLot(pairs[1..], lotId);
      assert forall k :: 1 <= k < |pairs| ==> pairs[k] == pairs[1..][k - 1];
      if r.None? then None else Some(r.value + 1)
  }

  /** The batch a lot of the events is matched to: that of the first joined
      pair whose member has the lot. */
  function Matched(batches: seq<DcBatch>, members: seq<DcBatchMember>, eqpId: string, lotId: string): Option<string>
  {
    var pairs := JoinRows(batches, members, eqpId);
    var i := FirstOfLot(pairs, lotId);
    if i.Some? then Some(pairs[i.value].batch.batchId) else None
  }

  /** A lot is matched exactly when some batch row on the equipment has a
      member of that lot for its carrier, and then to the batch of such a
      row. */
  lemma MatchedSpec(batches: seq<DcBatch>, members: seq<DcBatchMember>, eqpId: string, lotId: string)
    ensures Matched(batches, members, eqpId, lotId).None? <==>
      forall b, m :: b in batches && m in members && Joins(b, m, eqpId) ==> m.lotId != lotId
    ensures Matched(batches, members, eqpId, lotId).Some? ==>
      exists b, m :: b in batches && m in members && Joins(b, m, eqpId) && m.lotId == lotId &&
                     b.batchId == Matched(batches, members, eqpId, lotId).value
  {
    var pairs := JoinRows(batches, members, eqpId);
    var i := FirstOfLot(pairs, lotId);
    if i.Some? {
      var p := pairs[i.value];
      JoinRowsSpec(batches, members, eqpId, p);
    } else {
      forall b, m | b in batches && m in members && Joins(b, m, eqpId) ensures m.lotId != lotId {
        JoinRowsSpec(batches, members, eqpId, Joined(b, m));
        var k :| 0 <= k < |pairs| && pairs[k] == Joined(b, m);
      }
    }
  }

  /** The batches matched by some of `lots`. */
  function MatchedIds(batches: seq<DcBatch>, members: seq<DcBatchMember>, eqpId: string, lots: seq<string>): set<string>
    decreases |lots|
  {
    if lots == [] then {}
    else
      var ids := MatchedIds(batches, members, eqpId, lots[..|lots| - 1]);
      var m := Matched(batches, members, eqpId, lots[|lots| - 1]);
      if m.Some? then ids + {m.value} else ids
  }

  lemma {:induction false} MatchedIdsSpec(batches: seq<DcBatch>, members: seq<DcBatchMember>, eqpId: string, lots: seq<string>, id: string)
    ensures id in MatchedIds(batches, members, eqpId, lots) <==>
      exists l :: l in lots && Matched(batches, members, eqpId, l) == Some(id)
    decreases |lots|
  {
    if lots != [] {
      var pre := lots[..|lots| - 1];
      MatchedIdsSpec(batches, members, eqpId, pre, id);
      assert lots == pre + [lots[|lots| - 1]];
    }
  }

  /** Every row of a batch in `ids` marked as processed; nothing else
      changes. */
  function MarkAll(rows: seq<DcBatch>, ids: set<string>): (r: seq<DcBatch>)
    ensures |r| == |rows|
  {
    seq(|rows|, k requires 0 <= k < |rows| =>
      if rows[k].batchId in ids then rows[k].(isProcessed := true) else rows[k])
  }

  /** The lots of some events, in order. */
  function LotIdsOf(actls: seq<DcActl>): (r: seq<string>)
    ensures |r| == |actls| && forall k :: 0 <= k < |actls| ==> r[k] == actls[k].lotId
  {
    seq(|actls|, k requires 0 <= k < |actls| => actls[k].lotId)
  }

  /** The batches the events of `timeGroups` match on equipment `eqpId`. */
  function MatchedBy(batches: seq<DcBatch>, members: seq<DcBatchMember>, eqpId: string, timeGroups: seq<seq<DcActl>>): set<string>
  {
    MatchedIds(batches, members, eqpId, Distinct(LotIdsOf(Flatten(timeGroups))))
  }

  /** The rows after MarkBatchesAsProcessed. */
  function Marked(batches: seq<DcBatch>, members: seq<DcBatchMember>, eqpId: string, timeGroups: seq<seq<DcActl>>): seq<DcBatch>
  {
    MarkAll(batches, MatchedBy(batches, members, eqpId, timeGroups))
  }

  /** The inner foreach: IsProcessed set on every row of one batch. */
  method MarkBatch(store: Store, batchId: string)
    modifies store`batches
    ensures store.batches == MarkAll(old(store.batches), {batchId})
  {
    ghost var rows := store.batches;
    for k := 0 to |store.batches|
      invariant |store.batches| == |rows|
      invariant forall j :: 0 <= j < k ==> store.batches[j] == MarkAll(rows, {batchId})[j]
      invariant forall j :: k <= j < |rows| ==> store.batches[j] == rows[j]
    {
      if store.batches[k].batchId == batchId {
        store.batches := store.batches[k := store.batches[k].(isProcessed := true)];
      }
    }
  }

  lemma MarkAllUnion(rows: seq<DcBatch>, ids: set<string>, id: string)
    ensures MarkAll(MarkAll(rows, ids), {id}) == MarkAll(rows, ids + {id})
  {
  }

  lemma MarkAllNone(rows: seq<DcBatch>)
    ensures MarkAll(rows, {}) == rows
  {
  }

  lemma MatchedIdsStep(batches: seq<DcBatch>, members: seq<DcBatchMember>, eqpId: string, lots: seq<string>, i: nat)
    requires i < |lots|
    ensures MatchedIds(batches, members, eqpId, lots[..i + 1]) ==
      var m := Matched(batches, members, eqpId, lots[i]);
      MatchedIds(batches, members, eqpId, lots[..i]) + (if m.Some? then {m.value} else {})
  {
    assert lots[..i + 1][..i] == lots[..i];
  }

  /** WorkProgressModel.MarkBatchesAsProcessed. */
  method MarkBatchesAsProcessed(store: Store, eqpId: string, timeGroups: seq<seq<DcActl>>)
    modifies store`batches
    ensures store.batches == Marked(old(store.batches), store.members, eqpId, timeGroups)
  {
    if |timeGroups| == 0 {
      MarkAllNone(store.batches);
      return;
    }
    var allLotIds := Distinct(LotIdsOf(Flatten(timeGroups)));
    var fullBatchMembers := JoinRows(store.batches, store.members, eqpId);
    ghost var rows := store.batches;
    for i := 0 to |allLotIds|
      invariant store.batches == MarkAll(rows, MatchedIds(rows, store.members, eqpId, allLotIds[..i]))
    {
      MatchedIdsStep(rows, store.members, eqpId, allLotIds, i);
      var matchingBatch := FirstOfLot(fullBatchMembers, allLotIds[i]);
      if matchingBatch.Some? {
        var id := fullBatchMembers[matchingBatch.value].batch.batchId;
        MarkAllUnion(rows, MatchedIds(rows, store.members, eqpId, allLotIds[..i]), id);
        MarkBatch(store, id);
      }
    }
    assert allLotIds[..|allLotIds|] == allLotIds;
  }

  /** Marking changes only IsProcessed: a row is processed afterwards exactly
      when it was before or its batch is matched, whichever equipment the
      batch's other rows are on. */
  lemma MarkedRows(batches: seq<DcBatch>, members: seq<DcBatchMember>, eqpId: string, timeGroups: seq<seq<DcActl>>, k: nat)
    requires k < |batches|
    ensures |Marked(batches, members, eqpId, timeGroups)| == |batches|
    ensures Marked(batches, members, eqpId, timeGroups)[k] ==
      batches[k].(isProcessed := batches[k].isProcessed || batches[k].batchId in MatchedBy(batches, members, eqpId, timeGroups))
  {
  }

  /** The lots of the events are the lots of their rows. */
  lemma EventLots(events: seq<DcActl>, l: string)
    ensures l in Distinct(LotIdsOf(events)) <==> exists a :: a in events && a.lotId == l
  {
    if l in LotIdsOf(events) {
      var k :| 0 <= k < |events| && LotIdsOf(events)[k] == l;
      assert events[k] in events;
    }
    if exists a :: a in events && a.lotId == l {
      var a :| a in events && a.lotId == l;
      var k :| 0 <= k < |events| && events[k] == a;
      assert LotIdsOf(events)[k] == l;
    }
  }

  /** A matched batch has a row on the equipment joined to a member whose
      lot is that of one of the events. */
  lemma MatchedBySound(batches: seq<DcBatch>, members: seq<DcBatchMember>, eqpId: string, timeGroups: seq<seq<DcActl>>, id: string)
    requires id in MatchedBy(batches, members, eqpId, timeGroups)
    ensures exists a, b, m :: a in Flatten(timeGroups) && b in batches && m in members && Joins(b, m, eqpId) &&
                              m.lotId == a.lotId && b.batchId == id
  {
    var events := Flatten(timeGroups);
    var lots := Distinct(LotIdsOf(events));
    MatchedIdsSpec(batches, members, eqpId, lots, id);
    var l :| l in lots && Matched(batches, members, eqpId, l) == Some(id);
    EventLots(events, l);
    var a :| a in events && a.lotId == l;
    MatchedSpec(batches, members, eqpId, l);
  }

  /** The batch every event's lot is matched to is marked. */
  lemma MatchedByComplete(batches: seq<DcBatch>, members: seq<DcBatchMember>, eqpId: string, timeGroups: seq<seq<DcActl>>, a: DcActl)
    requires a in Flatten(timeGroups)
    ensures Matched(batches, members, eqpId, a.lotId).Some? ==>
      Matched(batches, members, eqpId, a.lotId).value in MatchedBy(batches, members, eqpId, timeGroups)
  {
    var events := Flatten(timeGroups);
    var lots := Distinct(LotIdsOf(events));
    EventLots(events, a.lotId);
    if Matched(batches, members, eqpId, a.lotId).Some? {
      MatchedIdsSpec(batches, members, eqpId, lots, Matched(batches, members, eqpId, a.lotId).value);
    }
  }

  /** Without events nothing is marked. */
  lemma MarkedNoEvents(batches: seq<DcBatch>, members: seq<DcBatchMember>, eqpId: string)
    ensures Marked(batches, members, eqpId, []) == batches
  {
    MarkAllNone(batches);
  }

  /** The join does not look at IsProcessed, so marking again with the same
      events marks nothing more. */
  lemma {:induction false} JoinRowsMarked(batches: seq<DcBatch>, members: seq<DcBatchMember>, eqpId: string, ids: set<string>)
    ensures |JoinRows(MarkAll(batches, ids), members, eqpId)| == |JoinRows(batches, members, eqpId)|
    ensures forall k :: 0 <= k < |JoinRows(batches, members, eqpId)| ==>
      JoinRows(MarkAll(batches, ids), members, eqpId)[k].member == JoinRows(batches, members, eqpId)[k].member &&
      JoinRows(MarkAll(batches, ids), members, eqpId)[k].batch.batchId == JoinRows(batches, members, eqpId)[k].batch.batchId
    decreases |batches|
  {
    if batches != [] {
      var pre := batches[..|batches| - 1];
      var b := batches[|batches| - 1];
      var marked := MarkAll(batches, ids);
      assert marked[..|batches| - 1] == MarkAll(pre, ids);
      JoinRowsMarked(pre, members, eqpId, ids);
      MembersJoinedMarked(b, marked[|batches| - 1], members);
    }
  }

  lemma {:induction false} MembersJoinedMarked(b: DcBatch, b': DcBatch, members: seq<DcBatchMember>)
    requires b' == b.(isProcessed := b'.isProcessed)
    ensures |MembersJoined(b', members)| == |MembersJoined(b, members)|
    ensures forall k :: 0 <= k < |MembersJoined(b, members)| ==>
      MembersJoined(b', members)[k].member == MembersJoined(b, members)[k].member &&
      MembersJoined(b', members)[k].batch.batchId == MembersJoined(b, members)[k].batch.batchId
    decreases |members|
  {
    if members != [] {
      MembersJoinedMarked(b, b', members[..|members| - 1]);
    }
  }

  /** Loading the page twice with the same events marks what loading it once
      marks. */
  lemma MarkedIdempotent(batches: seq<DcBatch>, members: seq<DcBatchMember>, eqpId: string, timeGroups: seq<seq<DcActl>>)
    ensures Marked(Marked(batches, members, eqpId, timeGroups), members, eqpId, timeGroups) ==
            Marked(batches, members, eqpId, timeGroups)
  {
    var ids := MatchedBy(batches, members, eqpId, timeGroups);
    var once := MarkAll(batches, ids);
    JoinRowsMarked(batches, members, eqpId, ids);
    forall l ensures Matched(once, members, eqpId, l) == Matched(batches, members, eqpId, l) {
      var p := JoinRows(batches, members, eqpId);
      var q := JoinRows(once, members, eqpId);
      var i := FirstOfLot(p, l);
      var j := FirstOfLot(q, l);
      assert i.None? <==> j.None?;
      if i.Some? {
        assert !(j.value < i.value);
        assert !(i.value < j.value);
      }
    }
    var lots := Distinct(LotIdsOf(Flatten(timeGroups)));
    forall id ensures id in MatchedIds(once, members, eqpId, lots) <==> id in ids {
      MatchedIdsSpec(once, members, eqpId, lots, id);
      MatchedIdsSpec(batches, members, eqpId, lots, id);
    }
    assert MatchedIds(once, members, eqpId, lots) == ids;
  }

  // ---------------------------------------------------------------------
  // LoadProgressData

  /** The clusters of an equipment's events. */
  function EventClusters(actls: seq<DcActl>, eqpName: string): seq<seq<DcActl>>
  {
    Clusters(Reconciliation.EquipmentEvents(actls, eqpName), Reconciliation.TrackIn)
  }

  /** The items of each reserved batch. */
  function ReservedItems(batches: seq<DcBatch>, members: seq<DcBatchMember>, reserved: seq<DcBatch>): (r: seq<seq<ProcessItem>>)
    ensures |r| == |reserved| && forall k :: 0 <= k < |reserved| ==> r[k] == BatchItems(batches, members, reserved[k])
  {
    seq(|reserved|, k requires 0 <= k < |reserved| => BatchItems(batches, members, reserved[k]))
  }

  /** The card of one equipment, read from the rows as marked. The page
      leaves the note and the reserved batch ids empty. */
  function Card(eqp: DcEqp, actls: seq<DcActl>, wips: seq<DcWip>, batches: seq<DcBatch>,
                members: seq<DcBatchMember>, format: Time -> string): EquipmentProgress
  {
    WithReserved(EventCard(eqp, actls, wips, format),
                 ReservedItems(batches, members, Reserved(UnprocessedOn(batches, eqp.name))))
  }

  /** The card before its reserved columns: the items of the first cluster
      in process, those of the second waiting. */
  function EventCard(eqp: DcEqp, actls: seq<DcActl>, wips: seq<DcWip>, format: Time -> string): EquipmentProgress
  {
    var groups := EventClusters(actls, eqp.name);
    EquipmentProgress(
      eqp.name, eqp.line, None,
      if |groups| > 0 then ActlItems(wips, format, groups[0]) else [],
      if |groups| > 1 then ActlItems(wips, format, groups[1]) else [],
      [], [], [], None, None, None)
  }

  /** The reserved columns filled from the first three slots. */
  function WithReserved(card: EquipmentProgress, items: seq<seq<ProcessItem>>): EquipmentProgress
  {
    card.(reserved1 := Slot(items, 0), reserved2 := Slot(items, 1), reserved3 := Slot(items, 2))
  }

  /** One equipment's turn: its batches marked, then its card. */
  function CardStep(batches: seq<DcBatch>, eqp: DcEqp, actls: seq<DcActl>, wips: seq<DcWip>,
                    members: seq<DcBatchMember>, format: Time -> string): (seq<DcBatch>, EquipmentProgress)
  {
    var marked := Marked(batches, members, eqp.name, EventClusters(actls, eqp.name));
    (marked, Card(eqp, actls, wips, marked, members, format))
  }

  /** The turns of a group's equipment in order, each on the rows the
      previous one left. */
  function CardsFrom(batches: seq<DcBatch>, eqps: seq<DcEqp>, actls: seq<DcActl>, wips: seq<DcWip>,
                     members: seq<DcBatchMember>, format: Time -> string): (r: (seq<DcBatch>, seq<EquipmentProgress>))
    ensures |r.1| == |eqps|
    decreases |eqps|
  {
    if eqps == [] then (batches, [])
    else
      var prev := CardsFrom(batches, eqps[..|eqps| - 1], actls, wips, members, format);
      var next := CardStep(prev.0, eqps[|eqps| - 1], actls, wips, members, format);
      (next.0, prev.1 + [next.1])
  }

  /** The turns of all groups in order. */
  function GroupsFrom(batches: seq<DcBatch>, gs: seq<TypeGroup<DcEqp>>, actls: seq<DcActl>, wips: seq<DcWip>,
                      members: seq<DcBatchMember>, format: Time -> string): (r: (seq<DcBatch>, seq<TypeGroup<EquipmentProgress>>))
    ensures |r.1| == |gs|
    decreases |gs|
  {
    if gs == [] then (batches, [])
    else
      var prev := GroupsFrom(batches, gs[..|gs| - 1], actls, wips, members, format);
      var g := gs[|gs| - 1];
      var next := CardsFrom(prev.0, g.items, actls, wips, members, format);
      (next.0, prev.1 + [TypeGroup(g.eqpType, next.1)])
  }

  /** What LoadProgressData leaves in DC_Batch and on the page. */
  function Load(batches: seq<DcBatch>, eqps: seq<DcEqp>, actls: seq<DcActl>, wips: seq<DcWip>,
                members: seq<DcBatchMember>, typeFilter: Option<seq<string>>, lineFilter: Option<string>,
                format: Time -> string): (seq<DcBatch>, ProgressView)
  {
    var index := Index.OnGet(eqps, typeFilter, lineFilter);
    var r := GroupsFrom(batches, GroupByType(index.equipments), actls, wips, members, format);
    (r.0, ProgressView(r.1, index.types, index.lines))
  }

  /** The items of each reserved batch, slot by slot. */
  method ReservedBatchItems(batches: seq<DcBatch>, members: seq<DcBatchMember>, reservedBatchIds: seq<DcBatch>)
    returns (reservedItems: seq<seq<ProcessItem>>)
    ensures reservedItems == ReservedItems(batches, members, reservedBatchIds)
  {
    reservedItems := [];
    for i := 0 to |reservedBatchIds|
      invariant reservedItems == ReservedItems(batches, members, reservedBatchIds[..i])
    {
      var items := CreateProcessItemsFromBatch(batches, members, reservedBatchIds[i]);
      reservedItems := reservedItems + [items];
    }
    assert reservedBatchIds[..|reservedBatchIds|] == reservedBatchIds;
  }

  /** The per-equipment body of LoadProgressData. */
  method EquipmentCard(store: Store, eqp: DcEqp, format: Time -> string) returns (card: EquipmentProgress)
    modifies store`batches
    ensures (store.batches, card) == CardStep(old(store.batches), eqp, store.actls, store.wips, store.members, format)
  {
    var timeGroups;
    card, timeGroups := EventProgress(eqp, store.actls, store.wips, format);
    MarkBatchesAsProcessed(store, eqp.name, timeGroups);
    var reservedBatchIds := Reserved(UnprocessedOn(store.batches, eqp.name));
    var reservedItems := ReservedBatchItems(store.batches, store.members, reservedBatchIds);
    card := FillReserved(card, reservedItems);
  }

  /** The in-process and waiting columns of a card, and the clusters they
      come from. */
  method EventProgress(eqp: DcEqp, allActls: seq<DcActl>, wips: seq<DcWip>, format: Time -> string)
    returns (card: EquipmentProgress, timeGroups: seq<seq<DcActl>>)
    ensures card == EventCard(eqp, allActls, wips, format)
    ensures timeGroups == EventClusters(allActls, eqp.name)
  {
    card := EquipmentProgress(eqp.name, eqp.line, None, [], [], [], [], [], None, None, None);
    var actls := Reconciliation.EquipmentEvents(allActls, eqp.name);
    timeGroups := GroupByTimeWindow(actls, Reconciliation.TrackIn);
    if |timeGroups| > 0 {
      var items := CreateProcessItemsFromActls(wips, format, timeGroups[0]);
      card := card.(inProcess := items);
    }
    if |timeGroups| > 1 {
      var items := CreateProcessItemsFromActls(wips, format, timeGroups[1]);
      card := card.(waiting := items);
    }
  }

  /** The reserved columns of a card, slot by slot. */
  method FillReserved(card0: EquipmentProgress, reservedItems: seq<seq<ProcessItem>>) returns (card: EquipmentProgress)
    requires card0.reserved1 == [] && card0.reserved2 == [] && card0.reserved3 == []
    ensures card == WithReserved(card0, reservedItems)
  {
    card := card0;
    if |reservedItems| > 0 {
      card := card.(reserved1 := reservedItems[0]);
    }
    if |reservedItems| > 1 {
      card := card.(reserved2 := reservedItems[1]);
    }
    if |reservedItems| > 2 {
      card := card.(reserved3 := reservedItems[2]);
    }
  }

  lemma CardsFromStep(batches: seq<DcBatch>, eqps: seq<DcEqp>, actls: seq<DcActl>, wips: seq<DcWip>,
                      members: seq<DcBatchMember>, format: Time -> string, i: nat)
    requires i < |eqps|
    ensures var prev := CardsFrom(batches, eqps[..i], actls, wips, members, format);
      var next := CardStep(prev.0, eqps[i], actls, wips, members, format);
      CardsFrom(batches, eqps[..i + 1], actls, wips, members, format) == (next.0, prev.1 + [next.1])
  {
    assert eqps[..i + 1][..i] == eqps[..i];
  }

  /** The cards of one Type group. */
  method GroupCards(store: Store, group: seq<DcEqp>, format: Time -> string) returns (equipmentList: seq<EquipmentProgress>)
    modifies store`batches
    ensures (store.batches, equipmentList) == CardsFrom(old(store.batches), group, store.actls, store.wips, store.members, format)
  {
    ghost var start := store.batches;
    equipmentList := [];
    for i := 0 to |group|
      invariant (store.batches, equipmentList) == CardsFrom(start, group[..i], store.actls, store.wips, store.members, format)
    {
      CardsFromStep(start, group, store.actls, store.wips, store.members, format, i);
      var progressViewModel := EquipmentCard(store, group[i], format);
      equipmentList := equipmentList + [progressViewModel];
    }
    assert group[..|group|] == group;
  }

  lemma GroupsFromStep(batches: seq<DcBatch>, gs: seq<TypeGroup<DcEqp>>, actls: seq<DcActl>, wips: seq<DcWip>,
                       members: seq<DcBatchMember>, format: Time -> string, i: nat)
    requires i < |gs|
    ensures var prev := GroupsFrom(batches, gs[..i], actls, wips, members, format);
      var next := CardsFrom(prev.0, gs[i].items, actls, wips, members, format);
      GroupsFrom(batches, gs[..i + 1], actls, wips, members, format) == (next.0, prev.1 + [TypeGroup(gs[i].eqpType, next.1)])
  {
    assert gs[..i + 1][..i] == gs[..i];
  }

  /** WorkProgressModel.LoadProgressData: `format` renders track-in times. */
  method LoadProgressData(store: Store, typeFilter: Option<seq<string>>, lineFilter: Option<string>, format: Time -> string)
    returns (view: ProgressView)
    modifies store`batches
    ensures (store.batches, view) ==
      Load(old(store.batches), store.eqps, store.actls, store.wips, store.members, typeFilter, lineFilter, format)
  {
    var index := Index.OnGet(store.eqps, typeFilter, lineFilter);
    var groupedEquipments := GroupByType(index.equipments);
    ghost var start := store.batches;
    var equipmentsByType := [];
    for i := 0 to |groupedEquipments|
      invariant (store.batches, equipmentsByType) ==
        GroupsFrom(start, groupedEquipments[..i], store.actls, store.wips, store.members, format)
    {
      GroupsFromStep(start, groupedEquipments, store.actls, store.wips, store.members, format, i);
      var equipmentList := GroupCards(store, groupedEquipments[i].items, format);
      equipmentsByType := equipmentsByType + [TypeGroup(groupedEquipments[i].eqpType, equipmentList)];
    }
    assert groupedEquipments[..|groupedEquipments|] == groupedEquipments;
    view := ProgressView(equipmentsByType, index.types, index.lines);
  }

  // ---------------------------------------------------------------------
  // Properties of the page

  /** A row the page leaves differs from the stored one at most in
      IsProcessed, and a processed row stays processed. */
  predicate OnlyMarks(before: seq<DcBatch>, after: seq<DcBatch>)
  {
    |after| == |before| &&
    forall k :: 0 <= k < |before| ==>
      after[k] == before[k].(isProcessed := after[k].isProcessed) && (before[k].isProcessed ==> after[k].isProcessed)
  }

  lemma OnlyMarksTrans(a: seq<DcBatch>, b: seq<DcBatch>, c: seq<DcBatch>)
    requires OnlyMarks(a, b) && OnlyMarks(b, c)
    ensures OnlyMarks(a, c)
  {
  }

  lemma CardStepMarks(batches: seq<DcBatch>, eqp: DcEqp, actls: seq<DcActl>, wips: seq<DcWip>,
                      members: seq<DcBatchMember>, format: Time -> string)
    ensures OnlyMarks(batches, CardStep(batches, eqp, actls, wips, members, format).0)
  {
  }

  lemma {:induction false} CardsFromMarks(batches: seq<DcBatch>, eqps: seq<DcEqp>, actls: seq<DcActl>, wips: seq<DcWip>,
                                          members: seq<DcBatchMember>, format: Time -> string)
    ensures OnlyMarks(batches, CardsFrom(batches, eqps, actls, wips, members, format).0)
    decreases |eqps|
  {
    if eqps != [] {
      var prev := CardsFrom(batches, eqps[..|eqps| - 1], actls, wips, members, format);
      CardsFromMarks(batches, eqps[..|eqps| - 1], actls, wips, members, format);
      CardStepMarks(prev.0, eqps[|eqps| - 1], actls, wips, members, format);
      OnlyMarksTrans(batches, prev.0, CardStep(prev.0, eqps[|eqps| - 1], actls, wips, members, format).0);
    } else {
      assert OnlyMarks(batches, batches);
    }
  }

  lemma {:induction false} GroupsFromMarks(batches: seq<DcBatch>, gs: seq<TypeGroup<DcEqp>>, actls: seq<DcActl>, wips: seq<DcWip>,
                                           members: seq<DcBatchMember>, format: Time -> string)
    ensures OnlyMarks(batches, GroupsFrom(batches, gs, actls, wips, members, format).0)
    decreases |gs|
  {
    if gs != [] {
      var prev := GroupsFrom(batches, gs[..|gs| - 1], actls, wips, members, format);
      GroupsFromMarks(batches, gs[..|gs| - 1], actls, wips, members, format);
      CardsFromMarks(prev.0, gs[|gs| - 1].items, actls, wips, members, format);
      OnlyMarksTrans(batches, prev.0, CardsFrom(prev.0, gs[|gs| - 1].items, actls, wips, members, format).0);
    } else {
      assert OnlyMarks(batches, batches);
    }
  }

  /** Loading the page changes DC_Batch only by marking rows processed:
      no row is added, removed or otherwise changed, and none is unmarked. */
  lemma LoadOnlyMarks(batches: seq<DcBatch>, eqps: seq<DcEqp>, actls: seq<DcActl>, wips: seq<DcWip>,
                      members: seq<DcBatchMember>, typeFilter: Option<seq<string>>, lineFilter: Option<string>,
                      format: Time -> string)
    ensures OnlyMarks(batches, Load(batches, eqps, actls, wips, members, typeFilter, lineFilter, format).0)
  {
    var index := Index.OnGet(eqps, typeFilter, lineFilter);
    GroupsFromMarks(batches, GroupByType(index.equipments), actls, wips, members, format);
  }

  /** After an equipment's turn no reserved batch of its card is one its own
      events matched: every reserved row is an unprocessed row of the
      equipment whose batch was not matched, and the reserved batches are
      distinct and oldest first. */
  lemma CardStepReserved(batches: seq<DcBatch>, eqp: DcEqp, actls: seq<DcActl>, wips: seq<DcWip>,
                         members: seq<DcBatchMember>, format: Time -> string)
    ensures var marked := CardStep(batches, eqp, actls, wips, members, format).0;
      var reserved := Reserved(UnprocessedOn(marked, eqp.name));
      && (forall k :: 0 <= k < |reserved| ==>
            reserved[k] in batches && reserved[k].eqpId == eqp.name && !reserved[k].isProcessed &&
            reserved[k].batchId !in MatchedBy(batches, members, eqp.name, EventClusters(actls, eqp.name)))
      && GroupsDistinct(reserved)
      && (forall i, j :: 0 <= i < j < |reserved| ==> reserved[i].createdAt <= reserved[j].createdAt)
  {
    var ids := MatchedBy(batches, members, eqp.name, EventClusters(actls, eqp.name));
    var marked := MarkAll(batches, ids);
    var rows := UnprocessedOn(marked, eqp.name);
    var reserved := Reserved(rows);
    ReservedFirsts(rows);
    ReservedOrder(rows);
    forall k | 0 <= k < |reserved|
      ensures reserved[k] in batches && reserved[k].eqpId == eqp.name && !reserved[k].isProcessed && reserved[k].batchId !in ids
    {
      var i :| 0 <= i < |rows| && rows[i] == reserved[k] && !HasGroup(rows[..i], reserved[k]);
      UnprocessedOnSpec(marked, eqp.name, reserved[k]);
      var n :| 0 <= n < |marked| && marked[n] == reserved[k];
      assert marked[n] == batches[n];
    }
  }

  /** Every card of the page belongs to a shown equipment of its group: the
      k-th group's j-th card carries the name and line of the k-th Type
      group's j-th equipment. */
  lemma {:induction false} CardsFromNames(batches: seq<DcBatch>, eqps: seq<DcEqp>, actls: seq<DcActl>, wips: seq<DcWip>,
                                          members: seq<DcBatchMember>, format: Time -> string, j: nat)
    requires j < |eqps|
    ensures CardsFrom(batches, eqps, actls, wips, members, format).1[j].eqpName == eqps[j].name
    ensures CardsFrom(batches, eqps, actls, wips, members, format).1[j].line == eqps[j].line
    decreases |eqps|
  {
    var pre := eqps[..|eqps| - 1];
    var prev := CardsFrom(batches, pre, actls, wips, members, format);
    var next := CardStep(prev.0, eqps[|eqps| - 1], actls, wips, members, format);
    assert CardsFrom(batches, eqps, actls, wips, members, format).1 == prev.1 + [next.1];
    if j < |eqps| - 1 {
      CardsFromNames(batches, pre, actls, wips, members, format, j);
      assert (prev.1 + [next.1])[j] == prev.1[j];
    } else {
      CardIdentity(eqps[j], actls, wips, Marked(prev.0, members, eqps[j].name, EventClusters(actls, eqps[j].name)), members, format);
    }
  }

  lemma CardIdentity(eqp: DcEqp, actls: seq<DcActl>, wips: seq<DcWip>, batches: seq<DcBatch>,
                     members: seq<DcBatchMember>, format: Time -> string)
    ensures Card(eqp, actls, wips, batches, members, format).eqpName == eqp.name
    ensures Card(eqp, actls, wips, batches, members, format).line == eqp.line
  {
  }

  lemma {:induction false} GroupsFromTypes(batches: seq<DcBatch>, gs: seq<TypeGroup<DcEqp>>, actls: seq<DcActl>, wips: seq<DcWip>,
                                           members: seq<DcBatchMember>, format: Time -> string, k: nat)
    requires k < |gs|
    ensures GroupsFrom(batches, gs, actls, wips, members, format).1[k].eqpType == gs[k].eqpType
    ensures |GroupsFrom(batches, gs, actls, wips, members, format).1[k].items| == |gs[k].items|
    ensures exists b :: GroupsFrom(batches, gs, actls, wips, members, format).1[k].items ==
                        CardsFrom(b, gs[k].items, actls, wips, members, format).1
    decreases |gs|
  {
    var pre := gs[..|gs| - 1];
    var prev := GroupsFrom(batches, pre, actls, wips, members, format);
    var g := gs[|gs| - 1];
    var next := CardsFrom(prev.0, g.items, actls, wips, members, format);
    assert GroupsFrom(batches, gs, actls, wips, members, format).1 == prev.1 + [TypeGroup(g.eqpType, next.1)];
    if k < |gs| - 1 {
      GroupsFromTypes(batches, pre, actls, wips, members, format, k);
      assert (prev.1 + [TypeGroup(g.eqpType, next.1)])[k] == prev.1[k];
      assert gs[k] == pre[k];
    } else {
      assert GroupsFrom(batches, gs, actls, wips, members, format).1[k].items == CardsFrom(prev.0, gs[k].items, actls, wips, members, format).1;
    }
  }

  /** The cards of the page are those of the shown equipment, grouped by
      Type in display order, each carrying its equipment's name and line. */
  lemma LoadCards(batches: seq<DcBatch>, eqps: seq<DcEqp>, actls: seq<DcActl>, wips: seq<DcWip>,
                  members: seq<DcBatchMember>, typeFilter: Option<seq<string>>, lineFilter: Option<string>,
                  format: Time -> string, k: nat, j: nat)
    requires k < |Load(batches, eqps, actls, wips, members, typeFilter, lineFilter, format).1.equipmentsByType|
    requires j < |Load(batches, eqps, actls, wips, members, typeFilter, lineFilter, format).1.equipmentsByType[k].items|
    ensures var g := Load(batches, eqps, actls, wips, members, typeFilter, lineFilter, format).1.equipmentsByType[k];
      exists e :: e in eqps && Index.Shown(e, typeFilter, lineFilter) && e.eqpType == g.eqpType &&
        g.items[j].eqpName == e.name && g.items[j].line == e.line
  {
    var shown := Index.OnGet(eqps, typeFilter, lineFilter).equipments;
    var gs := GroupByType(shown);
    GroupsFromTypes(batches, gs, actls, wips, members, format, k);
    var b :| GroupsFrom(batches, gs, actls, wips, members, format).1[k].items == CardsFrom(b, gs[k].items, actls, wips, members, format).1;
    CardsFromNames(b, gs[k].items, actls, wips, members, format, j);
    var e := gs[k].items[j];
    GroupItems(shown, k, e);
    assert e in multiset(gs[k].items);
    Index.OnGetEquipments(eqps, typeFilter, lineFilter);
    assert multiset(shown)[e] > 0;
    assert e in multiset(eqps);
  }
}
