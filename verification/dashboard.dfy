/** The Dashboard: for every shown equipment, grouped by Type, the lots in
    process (the first cluster of its track-in events), the lots waiting
    (the second cluster) and up to three reserved batches. The page only
    reads: no member here has a store to modify.

    The page reads DC_Actl with every column nullable and EndTime as text,
    unlike the DC_Actl record the service uses; `ActlRow` is that view. */
module Dashboard {
  import opened Records
  import opened Seqs
  import opened Clustering
  import Index
  import opened Progress

  /** A DC_Actl row as the Dashboard reads it. */
  datatype ActlRow = ActlRow(
    eqpId: Option<string>,
    lotId: Option<string>,
    trackInTime: Option<Time>,
    carrier: Option<string>,
    qty: Option<int>,
    ppid: Option<string>,
    next: Option<string>,
    location: Option<string>,
    endTime: Option<string>)

  /** A missing text shown as the empty string. */
  function OrEmpty(s: Option<string>): string
  {
    if s.None? then "" else s.value
  }

  /** A missing number shown as 0. */
  function OrZero(n: Option<int>): int
  {
    if n.None? then 0 else n.value
  }

  // ---------------------------------------------------------------------
  // The events of one equipment

  /** The rows of equipment `eqpName`, in store order. */
  function ActlsOf(actls: seq<ActlRow>, eqpName: string): (r: seq<ActlRow>)
    ensures |r| <= |actls|
    decreases |actls|
  {
    if actls == [] then []
    else
      var r := ActlsOf(actls[..|actls| - 1], eqpName);
      if actls[|actls| - 1].eqpId == Some(eqpName) then r + [actls[|actls| - 1]] else r
  }

  /** The equipment's rows are exactly those with its EqpId, each as often
      as stored; a row with no EqpId belongs to no equipment. */
  lemma {:induction false} ActlsOfCount(actls: seq<ActlRow>, eqpName: string, a: ActlRow)
    ensures multiset(ActlsOf(actls, eqpName))[a] == if a.eqpId == Some(eqpName) then multiset(actls)[a] else 0
    decreases |actls|
  {
    if actls != [] {
      var pre := actls[..|actls| - 1];
      ActlsOfCount(pre, eqpName, a);
      assert actls == pre + [actls[|actls| - 1]];
    }
  }

  /** The ordering key: a missing TrackInTime sorts before every time. */
  function SortKey(a: ActlRow): int
  {
    if a.trackInTime.None? then -1 else a.trackInTime.value
  }

  /** The clustering key: a missing TrackInTime counts as DateTime.MinValue. */
  function ClusterKey(a: ActlRow): int
  {
    if a.trackInTime.None? then MinTime else a.trackInTime.value
  }

  /** The events of one equipment, ordered by TrackInTime (equal times in
      store order). */
  function Events(actls: seq<ActlRow>, eqpName: string): seq<ActlRow>
  {
    SortBy(ActlsOf(actls, eqpName), ByKey(SortKey))
  }

  /** The events are exactly the equipment's rows, each as often as stored,
      ordered by TrackInTime with missing times first. */
  lemma EventsSpec(actls: seq<ActlRow>, eqpName: string, a: ActlRow)
    ensures multiset(Events(actls, eqpName))[a] == if a.eqpId == Some(eqpName) then multiset(actls)[a] else 0
    ensures SortedBy(Events(actls, eqpName), ByKey(SortKey))
  {
    ByKeyTotal(SortKey);
    SortBySpec(ActlsOf(actls, eqpName), ByKey(SortKey));
    ActlsOfCount(actls, eqpName, a);
  }

  // ---------------------------------------------------------------------
  // CreateProcessItemsFromActls

  /** A batch row that records event `a`: on the event's equipment, of its
      lot (both missing counts as equal), processed at its TrackInTime. */
  predicate Recorded(b: DcBatch, a: ActlRow)
  {
    a.eqpId == Some(b.eqpId) && b.lotId == a.lotId && b.processedAt == a.trackInTime
  }

  /** The first batch row, in store order, that records event `a`. */
  function LatestBatch(batches: seq<DcBatch>, a: ActlRow): (r: Option<nat>)
    ensures r.None? <==> forall k :: 0 <= k < |batches| ==> !Recorded(batches[k], a)
    ensures r.Some? ==> r.value < |batches| && Recorded(batches[r.value], a) &&
                        forall k :: 0 <= k < r.value ==> !Recorded(batches[k], a)
    decreases |batches|
  {
    if batches == [] then None
    else if Recorded(batches[0], a) then Some(0)
    else
      var r := LatestBatch(batches[1..], a);
      assert forall k :: 1 <= k < |batches| ==> batches[k] == batches[1..][k - 1];
      if r.None? then None else Some(r.value + 1)
  }

  /** The item shown for an event: its columns with "" or 0 for missing
      ones, and as next furnace the NextEqpId of the batch row recording the
      event, or else the event's own Next. */
  function ActlItem(batches: seq<DcBatch>, a: ActlRow): ProcessItem
  {
    var latest := LatestBatch(batches, a);
    var nextFurnace := if latest.Some? then batches[latest.value].nextEqpId else OrEmpty(a.next);
    ProcessItem(OrEmpty(a.carrier), OrEmpty(a.lotId), OrZero(a.qty), OrEmpty(a.ppid), nextFurnace,
                OrEmpty(a.location), OrEmpty(a.endTime))
  }

  /** The items of some events, in event order. */
  function ItemsOf(batches: seq<DcBatch>, actls: seq<ActlRow>): (r: seq<ProcessItem>)
    ensures |r| == |actls|
    decreases |actls|
  {
    if actls == [] then []
    else ItemsOf(batches, actls[..|actls| - 1]) + [ActlItem(batches, actls[|actls| - 1])]
  }

  lemma ItemsOfStep(batches: seq<DcBatch>, actls: seq<ActlRow>, i: nat)
    requires i < |actls|
    ensures ItemsOf(batches, actls[..i + 1]) == ItemsOf(batches, actls[..i]) + [ActlItem(batches, actls[i])]
  {
    assert actls[..i + 1][..i] == actls[..i];
  }

  lemma {:induction false} ItemsOfAt(batches: seq<DcBatch>, actls: seq<ActlRow>, k: nat)
    requires k < |actls|
    ensures ItemsOf(batches, actls)[k] == ActlItem(batches, actls[k])
    decreases |actls|
  {
    if k < |actls| - 1 {
      ItemsOfAt(batches, actls[..|actls| - 1], k);
    }
  }

  /** The items of a cluster, ordered by lot. */
  function ActlItems(batches: seq<DcBatch>, actls: seq<ActlRow>): seq<ProcessItem>
  {
    SortBy(ItemsOf(batches, actls), ByLot)
  }

  /** DashboardModel.CreateProcessItemsFromActls. */
  method CreateProcessItemsFromActls(batches: seq<DcBatch>, actls: seq<ActlRow>) returns (items: seq<ProcessItem>)
    ensures items == ActlItems(batches, actls)
  {
    var unsorted := [];
    for i := 0 to |actls|
      invariant unsorted == ItemsOf(batches, actls[..i])
    {
      ItemsOfStep(batches, actls, i);
      var actl := actls[i];
      var nextFurnace := OrEmpty(actl.next);
      var latestBatch := LatestBatch(batches, actl);
      if latestBatch.Some? {
        nextFurnace := batches[latestBatch.value].nextEqpId;
      }
      unsorted := unsorted + [ProcessItem(OrEmpty(actl.carrier), OrEmpty(actl.lotId), OrZero(actl.qty),
                                          OrEmpty(actl.ppid), nextFurnace, OrEmpty(actl.location), OrEmpty(actl.endTime))];
    }
    assert actls[..|actls|] == actls;
    items := SortBy(unsorted, ByLot);
  }

  /** One item per event, ordered by lot. */
  lemma ActlItemsSpec(batches: seq<DcBatch>, actls: seq<ActlRow>)
    ensures multiset(ActlItems(batches, actls)) == multiset(ItemsOf(batches, actls))
    ensures SortedBy(ActlItems(batches, actls), ByLot)
    ensures |ActlItems(batches, actls)| == |actls|
  {
    ByLotTotal();
    SortBySpec(ItemsOf(batches, actls), ByLot);
  }

  /** An event's next furnace is the NextEqpId of the first batch row that
      records it; without one it is the event's Next. */
  lemma NextFurnaceSpec(batches: seq<DcBatch>, a: ActlRow)
    ensures (forall k :: 0 <= k < |batches| ==> !Recorded(batches[k], a)) ==>
      ActlItem(batches, a).nextFurnace == OrEmpty(a.next)
    ensures forall k :: 0 <= k < |batches| && Recorded(batches[k], a) &&
                        (forall j :: 0 <= j < k ==> !Recorded(batches[j], a)) ==>
      ActlItem(batches, a).nextFurnace == batches[k].nextEqpId
  {
    var latest := LatestBatch(batches, a);
    forall k | 0 <= k < |batches| && Recorded(batches[k], a) && (forall j :: 0 <= j < k ==> !Recorded(batches[j], a))
      ensures ActlItem(batches, a).nextFurnace == batches[k].nextEqpId
    {
      assert latest.Some?;
      assert !(latest.value < k);
      assert !(k < latest.value);
    }
  }

  // ---------------------------------------------------------------------
  // CreateProcessItemsFromBatch

  /** The rows of batch `batchId` on equipment `eqpId`, processed or not, in
      store order. */
  function RowsOn(batches: seq<DcBatch>, batchId: string, eqpId: string): (r: seq<DcBatch>)
    ensures |r| <= |batches|
    decreases |batches|
  {
    if batches == [] then []
    else
      var r := RowsOn(batches[..|batches| - 1], batchId, eqpId);
      var b := batches[|batches| - 1];
      if b.batchId == batchId && b.eqpId == eqpId then r + [b] else r
  }

  /** A batch's rows on the equipment are exactly its stored rows there. */
  lemma {:induction false} RowsOnSpec(batches: seq<DcBatch>, batchId: string, eqpId: string, b: DcBatch)
    ensures b in RowsOn(batches, batchId, eqpId) <==> b in batches && b.batchId == batchId && b.eqpId == eqpId
    decreases |batches|
  {
    if batches != [] {
      var pre := batches[..|batches| - 1];
      RowsOnSpec(pre, batchId, eqpId, b);
      assert batches == pre + [batches[|batches| - 1]];
    }
  }

  /** The grouping key of a batch's items. */
  datatype ItemKey = ItemKey(lotId: Option<string>, carrierId: string, qty: int, technology: Option<string>)

  function KeyOf(b: DcBatch): ItemKey
  {
    ItemKey(b.lotId, b.carrierId, b.qty, b.technology)
  }

  function KeysOf(rows: seq<DcBatch>): (r: seq<ItemKey>)
    ensures |r| == |rows| && forall k :: 0 <= k < |rows| ==> r[k] == KeyOf(rows[k])
  {
    seq(|rows|, k requires 0 <= k < |rows| => KeyOf(rows[k]))
  }

  /** The rows grouped by LotId, CarrierId, Qty and Technology: the first
      row of each group, groups in order of first appearance. */
  function KeyFirsts(rows: seq<DcBatch>): (r: seq<DcBatch>)
    decreases |rows|
  {
    if rows == [] then []
    else
      var r := KeyFirsts(rows[..|rows| - 1]);
      var b := rows[|rows| - 1];
      if KeyOf(b) in KeysOf(r) then r else r + [b]
  }

  /** The representatives' keys are the distinct keys of the rows, in order
      of first appearance, and each representative is one of the rows. */
  lemma {:induction false} KeyFirstsSpec(rows: seq<DcBatch>)
    ensures KeysOf(KeyFirsts(rows)) == Distinct(KeysOf(rows))
    ensures forall b :: b in KeyFirsts(rows) ==> b in rows
    decreases |rows|
  {
    if rows != [] {
      var pre := rows[..|rows| - 1];
      var b := rows[|rows| - 1];
      KeyFirstsSpec(pre);
      assert KeysOf(rows)[..|rows| - 1] == KeysOf(pre);
      assert KeysOf(rows)[|rows| - 1] == KeyOf(b);
      var r0 := KeyFirsts(pre);
      if KeyOf(b) !in KeysOf(r0) {
        assert KeysOf(r0 + [b]) == KeysOf(r0) + [KeyOf(b)];
      }
    }
  }

  /** The item shown for a reserved batch row. */
  function BatchItem(b: DcBatch): ProcessItem
  {
    ProcessItem(b.carrierId, OrEmpty(b.lotId), b.qty, b.ppid, b.nextEqpId, "", "")
  }

  function BatchItemsOf(rows: seq<DcBatch>): (r: seq<ProcessItem>)
    ensures |r| == |rows| && forall k :: 0 <= k < |rows| ==> r[k] == BatchItem(rows[k])
  {
    seq(|rows|, k requires 0 <= k < |rows| => BatchItem(rows[k]))
  }

  /** The items of a reserved batch on an equipment, ordered by lot. */
  function BatchItems(batches: seq<DcBatch>, batchId: string, eqpId: string): seq<ProcessItem>
  {
    SortBy(BatchItemsOf(KeyFirsts(RowsOn(batches, batchId, eqpId))), ByLot)
  }

  /** DashboardModel.CreateProcessItemsFromBatch. */
  method CreateProcessItemsFromBatch(batches: seq<DcBatch>, batch: DcBatch, eqpId: string) returns (items: seq<ProcessItem>)
    ensures items == BatchItems(batches, batch.batchId, eqpId)
  {
    var rows := KeyFirsts(RowsOn(batches, batch.batchId, eqpId));
    var unsorted := [];
    for i := 0 to |rows|
      invariant unsorted == BatchItemsOf(rows[..i])
    {
      var batchItem := rows[i];
      unsorted := unsorted + [ProcessItem(batchItem.carrierId, OrEmpty(batchItem.lotId), batchItem.qty,
                                          batchItem.ppid, batchItem.nextEqpId, "", "")];
    }
    assert rows[..|rows|] == rows;
    items := SortBy(unsorted, ByLot);
  }

  /** A reserved batch shows one item per distinct (LotId, CarrierId, Qty,
      Technology) among its rows on the equipment, each item taken from such
      a row, ordered by lot. */
  lemma BatchItemsSpec(batches: seq<DcBatch>, batchId: string, eqpId: string)
    ensures var firsts := KeyFirsts(RowsOn(batches, batchId, eqpId));
      && KeysOf(firsts) == Distinct(KeysOf(RowsOn(batches, batchId, eqpId)))
      && (forall b :: b in firsts ==> b in batches && b.batchId == batchId && b.eqpId == eqpId)
      && multiset(BatchItems(batches, batchId, eqpId)) == multiset(BatchItemsOf(firsts))
      && SortedBy(BatchItems(batches, batchId, eqpId), ByLot)
  {
    var rows := RowsOn(batches, batchId, eqpId);
    KeyFirstsSpec(rows);
    forall b | b in KeyFirsts(rows) ensures b in batches && b.batchId == batchId && b.eqpId == eqpId {
      RowsOnSpec(batches, batchId, eqpId, b);
    }
    ByLotTotal();
    SortBySpec(BatchItemsOf(KeyFirsts(rows)), ByLot);
  }

  // ---------------------------------------------------------------------
  // LoadProgressData

  /** The items of each reserved batch. */
  function ReservedItems(batches: seq<DcBatch>, reserved: seq<DcBatch>, eqpName: string): (r: seq<seq<ProcessItem>>)
    ensures |r| == |reserved| && forall k :: 0 <= k < |reserved| ==> r[k] == BatchItems(batches, reserved[k].batchId, eqpName)
  {
    seq(|reserved|, k requires 0 <= k < |reserved| => BatchItems(batches, reserved[k].batchId, eqpName))
  }

  /** The clusters of an equipment's events. */
  function EventClusters(actls: seq<ActlRow>, eqpName: string): seq<seq<ActlRow>>
  {
    Clusters(Events(actls, eqpName), ClusterKey)
  }

  /** The card of one equipment. */
  function Card(eqp: DcEqp, actls: seq<ActlRow>, batches: seq<DcBatch>): EquipmentProgress
  {
    var groups := EventClusters(actls, eqp.name);
    var reserved := Reserved(UnprocessedOn(batches, eqp.name));
    var items := ReservedItems(batches, reserved, eqp.name);
    EquipmentProgress(
      eqp.name, eqp.line, eqp.note,
      if |groups| > 0 then ActlItems(batches, groups[0]) else [],
      if |groups| > 1 then ActlItems(batches, groups[1]) else [],
      Slot(items, 0), Slot(items, 1), Slot(items, 2),
      SlotBatchId(reserved, 0), SlotBatchId(reserved, 1), SlotBatchId(reserved, 2))
  }

  /** The cards of a group of equipment, in order. */
  function Cards(eqps: seq<DcEqp>, actls: seq<ActlRow>, batches: seq<DcBatch>): (r: seq<EquipmentProgress>)
    ensures |r| == |eqps| && forall k :: 0 <= k < |eqps| ==> r[k] == Card(eqps[k], actls, batches)
  {
    seq(|eqps|, k requires 0 <= k < |eqps| => Card(eqps[k], actls, batches))
  }

  /** EquipmentsByType for the shown equipment. */
  function ByType(shown: seq<DcEqp>, actls: seq<ActlRow>, batches: seq<DcBatch>): (r: seq<TypeGroup<EquipmentProgress>>)
    ensures |r| == |GroupByType(shown)|
    ensures forall k :: 0 <= k < |r| ==>
      r[k] == TypeGroup(GroupByType(shown)[k].eqpType, Cards(GroupByType(shown)[k].items, actls, batches))
  {
    var gs := GroupByType(shown);
    seq(|gs|, k requires 0 <= k < |gs| => TypeGroup(gs[k].eqpType, Cards(gs[k].items, actls, batches)))
  }

  /** What LoadProgressData leaves on the page. */
  function Load(eqps: seq<DcEqp>, actls: seq<ActlRow>, batches: seq<DcBatch>,
                typeFilter: Option<seq<string>>, lineFilter: Option<string>): ProgressView
  {
    var index := Index.OnGet(eqps, typeFilter, lineFilter);
    ProgressView(ByType(index.equipments, actls, batches), index.types, index.lines)
  }

  /** The items of each reserved batch, slot by slot. */
  method ReservedBatchItems(batches: seq<DcBatch>, reservedBatchIds: seq<DcBatch>, eqpName: string)
    returns (reservedItems: seq<seq<ProcessItem>>)
    ensures reservedItems == ReservedItems(batches, reservedBatchIds, eqpName)
  {
    reservedItems := [];
    for i := 0 to |reservedBatchIds|
      invariant reservedItems == ReservedItems(batches, reservedBatchIds[..i], eqpName)
    {
      var items := CreateProcessItemsFromBatch(batches, reservedBatchIds[i], eqpName);
      reservedItems := reservedItems + [items];
    }
    assert reservedBatchIds[..|reservedBatchIds|] == reservedBatchIds;
  }

  /** The per-equipment body of LoadProgressData. */
  method EquipmentCard(eqp: DcEqp, allActls: seq<ActlRow>, batches: seq<DcBatch>) returns (card: EquipmentProgress)
    ensures card == Card(eqp, allActls, batches)
  {
    card := EquipmentProgress(eqp.name, eqp.line, eqp.note, [], [], [], [], [], None, None, None);
    var actls := Events(allActls, eqp.name);
    var timeGroups := GroupByTimeWindow(actls, ClusterKey);
    if |timeGroups| > 0 {
      var items := CreateProcessItemsFromActls(batches, timeGroups[0]);
      card := card.(inProcess := items);
    }
    if |timeGroups| > 1 {
      var items := CreateProcessItemsFromActls(batches, timeGroups[1]);
      card := card.(waiting := items);
    }
    var reservedBatchIds := Reserved(UnprocessedOn(batches, eqp.name));
    var reservedItems := ReservedBatchItems(batches, reservedBatchIds, eqp.name);
    if |reservedItems| > 0 {
      card := card.(reserved1 := reservedItems[0], reserved1BatchId := Some(reservedBatchIds[0].batchId));
    }
    if |reservedItems| > 1 {
      card := card.(reserved2 := reservedItems[1], reserved2BatchId := Some(reservedBatchIds[1].batchId));
    }
    if |reservedItems| > 2 {
      card := card.(reserved3 := reservedItems[2], reserved3BatchId := Some(reservedBatchIds[2].batchId));
    }
  }

  /** The cards of one Type group. */
  method GroupCards(group: seq<DcEqp>, actls: seq<ActlRow>, batches: seq<DcBatch>) returns (equipmentList: seq<EquipmentProgress>)
    ensures equipmentList == Cards(group, actls, batches)
  {
    equipmentList := [];
    for i := 0 to |group|
      invariant |equipmentList| == i
      invariant forall k :: 0 <= k < i ==> equipmentList[k] == Card(group[k], actls, batches)
    {
      var progressViewModel := EquipmentCard(group[i], actls, batches);
      equipmentList := equipmentList + [progressViewModel];
    }
  }

  /** DashboardModel.LoadProgressData. */
  method LoadProgressData(eqps: seq<DcEqp>, actls: seq<ActlRow>, batches: seq<DcBatch>,
                          typeFilter: Option<seq<string>>, lineFilter: Option<string>) returns (view: ProgressView)
    ensures view == Load(eqps, actls, batches, typeFilter, lineFilter)
  {
    var index := Index.OnGet(eqps, typeFilter, lineFilter);
    var groupedEquipments := GroupByType(index.equipments);
    var equipmentsByType := [];
    for i := 0 to |groupedEquipments|
      invariant |equipmentsByType| == i
      invariant forall k :: 0 <= k < i ==>
        equipmentsByType[k] == TypeGroup(groupedEquipments[k].eqpType, Cards(groupedEquipments[k].items, actls, batches))
    {
      var equipmentList := GroupCards(groupedEquipments[i].items, actls, batches);
      equipmentsByType := equipmentsByType + [TypeGroup(groupedEquipments[i].eqpType, equipmentList)];
    }
    view := ProgressView(equipmentsByType, index.types, index.lines);
  }

  // ---------------------------------------------------------------------
  // Properties of a card

  /** InProcess is empty exactly when the equipment has no events; InProcess
      and Waiting hold one item per event of the first two clusters, which
      partition the events in TrackInTime order. */
  lemma CardEvents(eqp: DcEqp, actls: seq<ActlRow>, batches: seq<DcBatch>)
    ensures var card := Card(eqp, actls, batches);
      && (card.inProcess == [] <==> ActlsOf(actls, eqp.name) == [])
      && |card.inProcess| + |card.waiting| <= |ActlsOf(actls, eqp.name)|
      && SortedBy(card.inProcess, ByLot) && SortedBy(card.waiting, ByLot)
      && IsClustering(EventClusters(actls, eqp.name), Events(actls, eqp.name), ClusterKey)
  {
    var events := Events(actls, eqp.name);
    var groups := EventClusters(actls, eqp.name);
    ClustersAreClustering(events, ClusterKey);
    ClustersFlatten(events, ClusterKey);
    if |groups| > 0 {
      ActlItemsSpec(batches, groups[0]);
      FlattenLengths(groups);
    }
    if |groups| > 1 {
      ActlItemsSpec(batches, groups[1]);
    }
    var card := Card(eqp, actls, batches);
    ByLotTotal();
  }

  /** The first two clusters together are no longer than all of them. */
  lemma FlattenLengths<T>(gs: seq<seq<T>>)
    requires gs != []
    ensures |gs[0]| + (if |gs| > 1 then |gs[1]| else 0) <= |Flatten(gs)|
    ensures gs[0] != [] ==> Flatten(gs) != []
  {
    FlattenCons(gs);
    if |gs| > 1 {
      FlattenCons(gs[1..]);
      assert gs[1..][1..] == gs[2..];
    }
  }

  /** The first reserved slot is used exactly when the equipment has an
      unprocessed row; a slot's BatchId names the batch of an unprocessed
      row on the equipment; the slots hold distinct (BatchId, CreatedAt)
      groups, oldest first. */
  lemma CardReserved(eqp: DcEqp, actls: seq<ActlRow>, batches: seq<DcBatch>)
    ensures var card := Card(eqp, actls, batches);
      var rows := UnprocessedOn(batches, eqp.name);
      var reserved := Reserved(rows);
      && (card.reserved1BatchId.None? <==> forall b :: b in batches ==> b.eqpId != eqp.name || b.isProcessed)
      && (forall k :: 0 <= k < |reserved| ==>
            reserved[k] in batches && reserved[k].eqpId == eqp.name && !reserved[k].isProcessed)
      && GroupsDistinct(reserved)
      && (forall i, j :: 0 <= i < j < |reserved| ==> reserved[i].createdAt <= reserved[j].createdAt)
      && card.reserved1BatchId == SlotBatchId(reserved, 0)
      && card.reserved2BatchId == SlotBatchId(reserved, 1)
      && card.reserved3BatchId == SlotBatchId(reserved, 2)
  {
    var rows := UnprocessedOn(batches, eqp.name);
    var reserved := Reserved(rows);
    ReservedFirsts(rows);
    ReservedOrder(rows);
    forall k | 0 <= k < |reserved| ensures reserved[k] in batches && reserved[k].eqpId == eqp.name && !reserved[k].isProcessed {
      var i :| 0 <= i < |rows| && rows[i] == reserved[k] && !HasGroup(rows[..i], reserved[k]);
      UnprocessedOnSpec(batches, eqp.name, reserved[k]);
    }
    if exists b :: b in batches && b.eqpId == eqp.name && !b.isProcessed {
      var b :| b in batches && b.eqpId == eqp.name && !b.isProcessed;
      UnprocessedOnSpec(batches, eqp.name, b);
      var n :| 0 <= n < |rows| && rows[n] == b;
      ReservedLeftOut(rows, n);
    }
  }

  // ---------------------------------------------------------------------
  // Properties of the page

  /** Every card is that of a shown equipment, filed under its Type. */
  lemma CardsAreShown(eqps: seq<DcEqp>, actls: seq<ActlRow>, batches: seq<DcBatch>,
                      typeFilter: Option<seq<string>>, lineFilter: Option<string>, k: nat, j: nat)
    requires k < |Load(eqps, actls, batches, typeFilter, lineFilter).equipmentsByType|
    requires j < |Load(eqps, actls, batches, typeFilter, lineFilter).equipmentsByType[k].items|
    ensures var g := Load(eqps, actls, batches, typeFilter, lineFilter).equipmentsByType[k];
      exists e :: e in eqps && Index.Shown(e, typeFilter, lineFilter) && e.eqpType == g.eqpType &&
        g.items[j] == Card(e, actls, batches)
  {
    var shown := Index.OnGet(eqps, typeFilter, lineFilter).equipments;
    var gs := GroupByType(shown);
    var e := gs[k].items[j];
    GroupItems(shown, k, e);
    assert e in multiset(gs[k].items);
    Index.OnGetEquipments(eqps, typeFilter, lineFilter);
    assert multiset(shown)[e] > 0;
    assert e in multiset(eqps);
  }

  /** Every shown equipment has a card, filed under its Type. */
  lemma ShownHaveCards(eqps: seq<DcEqp>, actls: seq<ActlRow>, batches: seq<DcBatch>,
                       typeFilter: Option<seq<string>>, lineFilter: Option<string>, e: DcEqp)
    requires e in eqps && Index.Shown(e, typeFilter, lineFilter)
    ensures var byType := Load(eqps, actls, batches, typeFilter, lineFilter).equipmentsByType;
      exists k, j :: 0 <= k < |byType| && 0 <= j < |byType[k].items| &&
        byType[k].eqpType == e.eqpType && byType[k].items[j] == Card(e, actls, batches)
  {
    var shown := Index.OnGet(eqps, typeFilter, lineFilter).equipments;
    Index.OnGetEquipments(eqps, typeFilter, lineFilter);
    assert e in multiset(eqps);
    assert e in multiset(shown);
    var k := GroupOf(shown, e);
    var gs := GroupByType(shown);
    GroupItems(shown, k, e);
    assert e in multiset(gs[k].items);
    var j :| 0 <= j < |gs[k].items| && gs[k].items[j] == e;
    var byType := Load(eqps, actls, batches, typeFilter, lineFilter).equipmentsByType;
    assert byType[k].items[j] == Card(e, actls, batches);
  }
}
