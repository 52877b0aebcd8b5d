# Coordinator batch model

Coordinator is a small web application that plans furnace batches in a
semiconductor fab. The operator looks at the lots waiting for a piece of
equipment (the WIP lot list), picks carriers, and confirms a batch on the
batch creation page. This writes one `DC_Batch` row per carrier and route
step, plus one `DC_BatchMembers` row per carrier. Two progress pages show,
for every equipment, the lots in process, the lots waiting, and up to three
reserved batches. A background service reads the actual track-in records
(`DC_Actl`) and reconciles them with the plan: it marks the matching
batch rows processed and deletes every batch whose last step has been
reached.

This Dafny project models:

- the background reconciliation pass;
- the Dashboard and WorkProgress pages;
- the Index, WipLotList and CreateBatch pages;
- the `IN (...)` clause builder of `SqlHelper`.

The database is a class `Data.Store` with one sequence of rows per table.
Row order is store order. The operations that write to it (batch creation,
reconciliation, and the marking done by WorkProgress) are methods that
change those fields. The read-only pages are functions or methods with no
`modifies` clause.

Modules:

- `Records`: the rows and view records. `Data`: the store.
- `Seqs`: filtering, stable sorting, `Distinct`, and joining and splitting
  strings.
- `Clustering`: the five-minute track-in clustering shared by the service
  and both progress pages.
- `Progress`: grouping by Type and the choice of reserved batches, shared
  by both progress pages.
- One module per page or service: `Reconciliation`, `Dashboard`,
  `WorkProgress`, `Index`, `WipLotList`, `CreateBatch`, `SqlHelper`.

Where the written description of the system and the code differ, the model
follows the code:

- A cluster is anchored at its first event. An event joins the cluster
  when it is within five minutes of that first event, not of the previous
  event.
- Reconciliation deletes every row of a finished BatchId, not only the
  finished lot.
- Members are matched to batch rows through BatchId and CarrierId.
- The WorkProgress page itself marks batches processed while it loads.
- The reconciliation pass is not idempotent. Every pass reads all of the
  equipment's track-in rows again. A second pass over the same rows marks
  the carrier's next unprocessed step on that equipment, if there is one.
- Processed steps can have gaps. Candidate rows are filtered by equipment
  and not by route position. A track-in on step 2's equipment marks step 2
  while step 1 is still unprocessed.
- The reported count is one per track-in row and matching member, not one
  per distinct lot or changed row. Two track-ins of the same lot select the
  same unprocessed row twice and count it twice.

## Model

| member | source | states |
|---|---|---|
| Data.Store.constructor | Data/CoordinatorDbContext.cs:13-18 | The store starts with exactly the six tables it is given. |
| Clustering.ClustersAreClustering | Services/BatchProcessingBackgroundService.cs:153-183 | The clusters partition the events in order. No cluster is empty. Every event is within 300 s of its cluster's first event. Every cluster's first event is more than 300 s from the first event of the cluster before it. |
| Clustering.ClusteringIsUnique | Services/BatchProcessingBackgroundService.cs:153-183 | Any grouping with those properties is the one the loop builds, so the description characterises the loop completely. |
| Clustering.ClustersFlatten | Services/BatchProcessingBackgroundService.cs:155 | Concatenating the clusters gives back the events. There are no clusters exactly when there are no events. |
| Clustering.GroupByTimeWindow | Services/BatchProcessingBackgroundService.cs:153-183 | The loop returns the clusters, and they meet the clustering description. |
| Reconciliation.RowsOfSpec | Services/BatchProcessingBackgroundService.cs:91-92 | The rows read for an equipment are exactly the DC_Actl rows with that EqpId, without duplication. |
| Reconciliation.EquipmentEventsSpec | Services/BatchProcessingBackgroundService.cs:91-94 | The events of a pass are the equipment's rows, in TrackInTime order. |
| Reconciliation.LowestCandidateSpec | Services/BatchProcessingBackgroundService.cs:211-234 | A member selects nothing exactly when no unprocessed row shares its BatchId, its CarrierId and the event's equipment. Otherwise it selects such a row with the lowest Step. On ties the earliest stored row wins. |
| Reconciliation.MemberSelectionsSound | Services/BatchProcessingBackgroundService.cs:203-235 | Every row one event advances is the lowest candidate of one of the lot's members. It is stamped with the event's TrackInTime. |
| Reconciliation.MemberSelectionsComplete | Services/BatchProcessingBackgroundService.cs:207-234 | Every member that has a candidate gets its lowest candidate advanced. |
| Reconciliation.SelectionsSound | Services/BatchProcessingBackgroundService.cs:193-236 | Every advanced row is explained by an event of the pass and a batch member of the event's lot. |
| Reconciliation.SelectionsComplete | Services/BatchProcessingBackgroundService.cs:193-236 | For every event and every member of its lot that has a candidate, the lowest candidate is advanced at the event's time. |
| Reconciliation.LastMark | Services/BatchProcessingBackgroundService.cs:222-223 | A row has no mark time exactly when no selection names it. If it has one, that time comes from a selection of the row. |
| Reconciliation.ApplyMarksAt | Services/BatchProcessingBackgroundService.cs:222-223 | A row that was never selected is unchanged. A selected row becomes processed, with ProcessedAt set to the time of its last selection. Nothing else about the row changes. |
| Reconciliation.DoomedIff | Services/BatchProcessingBackgroundService.cs:239-258 | A BatchId is scheduled for deletion exactly when an advanced row of it has no row with the same BatchId and CarrierId at Step + 1. |
| Reconciliation.WithoutSpec | Services/BatchProcessingBackgroundService.cs:261-273 | Deletion keeps exactly the batch rows and member rows of the other BatchIds. |
| Reconciliation.WithoutNothing | Services/BatchProcessingBackgroundService.cs:261 | With nothing to delete, both tables are kept as they are. |
| Reconciliation.ReconcileIdle | Services/BatchProcessingBackgroundService.cs:219-234 | If no event has a candidate row, the pass changes nothing and reports 0. |
| Reconciliation.ReconcileNoEvents | Services/BatchProcessingBackgroundService.cs:143-144 | With no events, the pass changes nothing and reports 0. |
| Reconciliation.ReconcileRow | Services/BatchProcessingBackgroundService.cs:185-315 | After a pass, every row and member of a finished BatchId is gone. A row of any other BatchId is still present: unchanged if it was not advanced, marked processed at its last time if it was. |
| Reconciliation.ReconcileReaps | Services/BatchProcessingBackgroundService.cs:197-258 | A BatchId is deleted exactly when some event, through a member of its lot, advances a row of that batch that has no next step. |
| Reconciliation.MatchMember | Services/BatchProcessingBackgroundService.cs:207-235 | One member's matching adds exactly its own selection to the list, marks it in the tracked rows, and counts it. |
| Reconciliation.MatchEvent | Services/BatchProcessingBackgroundService.cs:203-235 | One event adds the selections of all members of its lot, in order, and counts each one. |
| Reconciliation.MatchEvents | Services/BatchProcessingBackgroundService.cs:193-236 | The matching loop yields the selections of all events in cluster order. The tracked rows carry those marks. The count is the number of selections. |
| Reconciliation.ScheduleDeletes | Services/BatchProcessingBackgroundService.cs:239-258 | The set of BatchIds to delete is that of the advanced rows without a next step. |
| Reconciliation.MarkBatchesAsProcessed | Services/BatchProcessingBackgroundService.cs:185-315 | The new DC_Batch and DC_BatchMembers tables and the returned count are those of the reconciliation pass over the concatenated clusters. |
| Reconciliation.ProcessEquipmentBatches | Services/BatchProcessingBackgroundService.cs:88-151 | The equipment's pass is the reconciliation of its events in TrackInTime order. |
| Reconciliation.OneMatchPass | Services/BatchProcessingBackgroundService.cs:203-234 | One track-in whose lot has a single member, with a candidate that is not its carrier's last step: that row is marked processed at the track-in time, nothing is deleted, and the count is 1. |
| Reconciliation.ReconcileNotIdempotent | Services/BatchProcessingBackgroundService.cs:211-234 | Some tables and events give a different DC_Batch table when the pass runs a second time over the same events. |
| Reconciliation.ReconcileLeavesGap | Services/BatchProcessingBackgroundService.cs:211-217 | Some tables whose processed steps have no gaps get one after a pass: a later step of a carrier is processed while an earlier step is not. |
| Reconciliation.ReconcileCountsEvents | Services/BatchProcessingBackgroundService.cs:197-234 | Some pass reports a count larger than the number of DC_Batch rows, because the count is per track-in and member. |
| Reconciliation.NoCandidateLeft | Services/BatchProcessingBackgroundService.cs:211-217 | If no batch, carrier and equipment have two unprocessed rows, then after a pass no member matched by one of its track-ins still has a candidate row on that equipment. |
| Reconciliation.ReconcileIdempotent | Services/BatchProcessingBackgroundService.cs:185-236 | If no batch, carrier and equipment have two unprocessed rows, a second pass over the same events changes nothing and reports 0. |
| Reconciliation.PassEquipment | Services/BatchProcessingBackgroundService.cs:67-75 | A pass that throws is caught and changes nothing. Otherwise the equipment's pass runs and its count is added to the total. |
| Reconciliation.PassesOfRun | Services/BatchProcessingBackgroundService.cs:62-76 | Tables and totals that start from the store and 0 and take one equipment's step at a time end where the passes end. |
| Reconciliation.FaultsAreSkipped | Services/BatchProcessingBackgroundService.cs:62-76 | A pass that throws is caught and skipped. The result equals running only the equipment that does not throw. |
| Reconciliation.AllFaulted | Services/BatchProcessingBackgroundService.cs:67-75 | If every pass throws, the store is unchanged and the total is 0. |
| Reconciliation.UpdateBatchProcessingStatus | Services/BatchProcessingBackgroundService.cs:50-86 | The service runs one pass per equipment in store order, each on the tables the previous pass left, and sums their counts. |
| SqlHelper.ParamName | Helpers/SqlHelper.cs:122 | A parameter name is "@", then the prefix, then the index. |
| SqlHelper.ParamNamesDistinct | Helpers/SqlHelper.cs:120-125 | Two parameters with different indices never share a name. |
| SqlHelper.CreateInClause | Helpers/SqlHelper.cs:99-128 | A null or white-space prefix raises ArgumentException("paramPrefix"), and this is the only failure. A null or empty list gives "NULL" and no parameters. Otherwise there is one parameter per value, in order, named "@prefix" plus its index, and the placeholders are those names joined by ", ". |
| SqlHelper.FillParameters | Helpers/SqlHelper.cs:117-127 | The loop builds name i and a parameter holding value i at every index i. |
| SqlHelper.CreateInClauseWith | Helpers/SqlHelper.cs:157-190 | The prefix is checked first and the factory second: a missing factory raises ArgumentNullException("createParameter") only after a valid prefix. With a valid prefix and a factory the call succeeds. Null and empty lists give "NULL". Otherwise parameter i is the factory applied to name i and value i. |
| SqlHelper.CreateParameters | Helpers/SqlHelper.cs:179-189 | The loop of the second overload calls the factory with name i and value i at every index i. |
| Index.ShownRowsCount | Pages/Index.cshtml.cs:32-40 | The filters keep each passing row as often as it is stored and drop all the others. |
| Index.TypeThenNameTotal | Pages/Index.cshtml.cs:42 | Ordering by Type, then by Name, is a total preorder, so the sort is well defined. |
| Index.OnGet | Pages/Index.cshtml.cs:28-47 | The Types and Lines lists hold every Type and Line of the store, duplicates removed, in strictly ascending order. The shown list is never longer than the store. |
| Index.OnGetEquipments | Pages/Index.cshtml.cs:32-42 | The shown equipment is exactly the rows that pass both filters, as often as stored, sorted by Type and then Name. |
| Index.OnGetUnfiltered | Pages/Index.cshtml.cs:32-40 | With no type filter and no line filter, every row is shown. |
| Index.FiltersCombine | Pages/Index.cshtml.cs:32-40 | A row is shown under both filters exactly when it is shown under each filter alone. |
| Index.OnGetEmpty | Pages/Index.cshtml.cs:28-47 | An empty store gives three empty lists. |
| WipLotList.RegisteredCarriers | Pages/WipLotList.cshtml.cs:31-34 | The registered carriers are the CarrierIds of all DC_Batch rows, processed or not. |
| WipLotList.OnGet | Pages/WipLotList.cshtml.cs:26-42 | Without an equipment name the list is empty. |
| WipLotList.OnGetRows | Pages/WipLotList.cshtml.cs:31-40 | The list holds exactly the WIP rows that target the equipment and whose carrier is in no batch, as often as stored. |
| WipLotList.OnGetOrder | Pages/WipLotList.cshtml.cs:37-40 | The list is in ascending Priority. |
| WipLotList.OnPost | Pages/WipLotList.cshtml.cs:44-71 | An empty or missing selection returns to the list with "キャリアを選択してください", and this is the only way back to the list. Otherwise the redirect carries the distinct selected carriers joined by ",". |
| WipLotList.OnPostRoundTrip | Pages/WipLotList.cshtml.cs:53-70 | If no carrier name contains a comma, the batch creation page reads the route value back as the selected carriers without duplicates, in first-selection order. When every selected name is "", the route value is "" and reads back as no carriers. |
| CreateBatch.CarrierList | Pages/CreateBatch.cshtml.cs:27 | A missing or empty route value gives no carriers. Otherwise the carriers hold no "," and, joined by ",", give back the route value. |
| CreateBatch.RouteRowsOf | Pages/CreateBatch.cshtml.cs:32-35 | A carrier's route holds exactly its DC_CarrierSteps rows, as often as stored. |
| CreateBatch.RouteOrder | Pages/CreateBatch.cshtml.cs:32-35 | A carrier's route is in ascending Step order. |
| CreateBatch.RouteCarrier | Pages/CreateBatch.cshtml.cs:32-35 | Every route row belongs to the carrier and comes from the store. |
| CreateBatch.WipOf | Pages/CreateBatch.cshtml.cs:38-40 | A carrier has no WIP exactly when no DC_Wips row holds it. Otherwise its WIP is the first such row. |
| CreateBatch.OnGet | Pages/CreateBatch.cshtml.cs:23-79 | The form has one view per carrier of the route value, in order, each built from that carrier's route and WIP. |
| CreateBatch.SlotSpec | Pages/CreateBatch.cshtml.cs:51-74 | Step column n shows the last route row of Step n. If there is none, it is empty. |
| CreateBatch.FillSteps | Pages/CreateBatch.cshtml.cs:51-74 | The switch fills each of the four step columns from the route. |
| CreateBatch.ViewQty | Pages/CreateBatch.cshtml.cs:42-48 | The view's quantity is that of a route row with the lowest Step. It is 0 when the carrier has no route. |
| CreateBatch.SlotOfRow | Pages/CreateBatch.cshtml.cs:51-74 | With one row per carrier and step, a route row's step column shows that row's equipment and PPID. |
| CreateBatch.AddRouteRows | Pages/CreateBatch.cshtml.cs:110-123 | One carrier's DC_Batch rows are appended, one per route step, in route order. |
| CreateBatch.AddCarrier | Pages/CreateBatch.cshtml.cs:94-135 | One turn of the loop appends the carrier's batch rows and member row to what the earlier carriers added. |
| CreateBatch.AddCarriers | Pages/CreateBatch.cshtml.cs:94-135 | The loop appends the new batch rows and member rows for all carriers, and touches no other row. |
| CreateBatch.OnPost | Pages/CreateBatch.cshtml.cs:81-140 | The post returns to Index exactly when there is no carrier. Otherwise it appends the new batch rows and member rows and leaves every existing row unchanged. |
| CreateBatch.BatchRowsShape | Pages/CreateBatch.cshtml.cs:110-123 | Every new row carries the batch's id, its creation time and the carrier. It is unprocessed, has no ProcessedAt, no LotId and an empty NextEqpId, and copies one route step. |
| CreateBatch.NewBatchesSpec | Pages/CreateBatch.cshtml.cs:94-123 | A row is created exactly when its carrier was selected, has a WIP row, and has a route step the row copies. Carriers without WIP are skipped. |
| CreateBatch.NewMembersSpec | Pages/CreateBatch.cshtml.cs:103-134 | A member row is created exactly when its carrier was selected and has a WIP row, and it copies the first such WIP row. |
| CreateBatch.OneMemberPerCarrier | Pages/CreateBatch.cshtml.cs:94-134 | If the carriers are distinct, no two new member rows share a carrier. |
| CreateBatch.FormMatchesPost | Pages/CreateBatch.cshtml.cs:51-123 | With one row per carrier and step, every row the post creates for step 1 to 4 matches what the form showed in that step's column. |
| Progress.OfTypeCount | Pages/Dashboard.cshtml.cs:84 | A Type group holds each equipment of that Type as often as the shown list does. |
| Progress.GroupTypesDistinct | Pages/Dashboard.cshtml.cs:84 | No two groups share a Type. |
| Progress.GroupItems | Pages/Dashboard.cshtml.cs:84-90 | Every group holds exactly the shown equipment of its Type. |
| Progress.GroupNonEmpty | Pages/Dashboard.cshtml.cs:84 | No group is empty. |
| Progress.GroupOf | Pages/Dashboard.cshtml.cs:84-152 | Every shown equipment has the group of its Type. |
| Progress.UnprocessedOnSpec | Pages/WorkProgress.cshtml.cs:98-99 | The candidates for reservation are exactly the unprocessed rows on the equipment. |
| Progress.GroupFirstsCover | Pages/WorkProgress.cshtml.cs:100 | Every row falls into a (BatchId, CreatedAt) group that has a representative. |
| Progress.GroupFirstsDistinct | Pages/WorkProgress.cshtml.cs:100 | The groups are distinct. |
| Progress.GroupFirstsFirst | Pages/WorkProgress.cshtml.cs:100-103 | Each group's representative is its first row in store order. |
| Progress.ReservedFirsts | Pages/WorkProgress.cshtml.cs:98-104 | At most three batches are reserved. They are distinct groups, each represented by its first row. |
| Progress.ReservedOrder | Pages/WorkProgress.cshtml.cs:101 | The reserved batches are oldest first by CreatedAt. |
| Progress.ReservedLeftOut | Pages/WorkProgress.cshtml.cs:101-102 | A row's batch is left out only when three batches were reserved and none of them was created later than that row. |
| Progress.ByLotTotal | Pages/Dashboard.cshtml.cs:218 | Ordering items by lot is a total preorder. |
| Dashboard.ActlsOfCount | Pages/Dashboard.cshtml.cs:65-74 | An equipment's track-in rows are exactly the rows with its EqpId, as often as stored. Rows with no EqpId belong to no equipment. |
| Dashboard.EventsSpec | Pages/Dashboard.cshtml.cs:65-74 | The equipment's events are its rows, sorted by TrackInTime, with missing times first. |
| Dashboard.LatestBatch | Pages/Dashboard.cshtml.cs:197-204 | The batch lookup finds nothing exactly when no row records the event (same equipment, lot and ProcessedAt). Otherwise it finds the first such row. |
| Dashboard.CreateProcessItemsFromActls | Pages/Dashboard.cshtml.cs:189-219 | The method builds one item per event, sorted by lot. |
| Dashboard.ActlItemsSpec | Pages/Dashboard.cshtml.cs:189-219 | The items are one per event, as a multiset, sorted by lot. |
| Dashboard.NextFurnaceSpec | Pages/Dashboard.cshtml.cs:197-215 | An item's next furnace is the NextEqpId of the first batch row recording the event. If there is no such row, it is the event's own Next, or "". |
| Dashboard.RowsOnSpec | Pages/Dashboard.cshtml.cs:224-226 | A batch's rows on the equipment are exactly its rows there, processed or not. |
| Dashboard.KeyFirstsSpec | Pages/Dashboard.cshtml.cs:227-229 | One representative per distinct (LotId, CarrierId, Qty, Technology) key, in order of first appearance, each taken from the rows. |
| Dashboard.CreateProcessItemsFromBatch | Pages/Dashboard.cshtml.cs:221-246 | The method builds one item per distinct key, sorted by lot. |
| Dashboard.BatchItemsSpec | Pages/Dashboard.cshtml.cs:221-246 | A reserved batch's items come from exactly one row per distinct key among its rows on the equipment, sorted by lot. |
| Dashboard.ReservedBatchItems | Pages/Dashboard.cshtml.cs:126-131 | Slot k holds the items of the k-th reserved batch. |
| Dashboard.EquipmentCard | Pages/Dashboard.cshtml.cs:92-149 | The card of an equipment is the one the page defines. |
| Dashboard.GroupCards | Pages/Dashboard.cshtml.cs:88-150 | One card per equipment of the group, in group order. |
| Dashboard.ByType | Pages/Dashboard.cshtml.cs:84-153 | One entry per Type group, in order, holding the cards of that group. |
| Dashboard.LoadProgressData | Pages/Dashboard.cshtml.cs:44-154 | The page view is the grouped cards of the shown equipment and the Types and Lines lists, and the store is only read. |
| Dashboard.CardEvents | Pages/Dashboard.cshtml.cs:103-113 | In-process is empty exactly when the equipment has no events. In-process and waiting together never hold more than the events. Both are sorted by lot. The clusters meet the clustering description. |
| Dashboard.CardReserved | Pages/Dashboard.cshtml.cs:76-147 | The first reserved slot is empty exactly when the equipment has no unprocessed row. Reserved batches are distinct unprocessed groups of the equipment, oldest first. Slot BatchIds follow the reservation order. |
| Dashboard.CardsAreShown | Pages/Dashboard.cshtml.cs:84-153 | Every card belongs to a shown equipment and is filed under its Type. |
| Dashboard.ShownHaveCards | Pages/Dashboard.cshtml.cs:84-153 | Every shown equipment has its card under its Type. |
| WorkProgress.WipOfLot | Pages/WorkProgress.cshtml.cs:162-164 | A lot has no WIP exactly when no DC_Wips row has that LotId. Otherwise its WIP is the first such row. |
| WorkProgress.CreateProcessItemsFromActls | Pages/WorkProgress.cshtml.cs:156-179 | The method builds one item per event, in event order. |
| WorkProgress.ActlItemsAt | Pages/WorkProgress.cshtml.cs:166-175 | Item k shows event k's lot and its formatted TrackInTime, with empty next furnace and location. Carrier, Qty and PPID come from the lot's first WIP row, or are "", 0 and "" when there is none. |
| WorkProgress.MembersOfBatchCount | Pages/WorkProgress.cshtml.cs:185-187 | A batch's members are exactly the DC_BatchMembers rows of its BatchId, as often as stored. |
| WorkProgress.NextStep | Pages/WorkProgress.cshtml.cs:192-196 | There is no next step exactly when no row has the same BatchId, the member's carrier and Step + 1. Otherwise the next step is the first such row. |
| WorkProgress.CreateProcessItemsFromBatch | Pages/WorkProgress.cshtml.cs:181-211 | The method builds one item per member of the batch. |
| WorkProgress.BatchItemsSpec | Pages/WorkProgress.cshtml.cs:189-207 | Item k shows member k's carrier, lot and Qty and the batch's PPID. Its next furnace is the equipment of the first next-step row, or "なし" when there is none. |
| WorkProgress.BatchItemsCover | Pages/WorkProgress.cshtml.cs:185-207 | Every member of the batch has its item. |
| WorkProgress.JoinRowsSpec | Pages/WorkProgress.cshtml.cs:221-226 | The join holds exactly the pairs of a batch row on the equipment and a member with the same BatchId and CarrierId. |
| WorkProgress.FirstOfLot | Pages/WorkProgress.cshtml.cs:231 | A lot has no joined pair exactly when no member in the join has that LotId. Otherwise the result is the first such pair. |
| WorkProgress.MatchedSpec | Pages/WorkProgress.cshtml.cs:231-233 | A lot matches nothing exactly when no joined member has it. A matched BatchId has a joined row with a member of that lot. |
| WorkProgress.MatchedIdsSpec | Pages/WorkProgress.cshtml.cs:229-247 | A BatchId is marked exactly when some lot of the events matches it. |
| WorkProgress.EventLots | Pages/WorkProgress.cshtml.cs:218 | The distinct lot list holds exactly the lots of the events. |
| WorkProgress.MarkBatch | Pages/WorkProgress.cshtml.cs:236-243 | Every row of the BatchId, on any equipment, is marked processed, and no other row changes. |
| WorkProgress.MarkBatchesAsProcessed | Pages/WorkProgress.cshtml.cs:213-248 | The DC_Batch table afterwards is the marked table of the page pass. |
| WorkProgress.MarkedRows | Pages/WorkProgress.cshtml.cs:213-248 | Marking adds and removes no row and changes only IsProcessed. A row is processed afterwards exactly when it was before or its BatchId was matched. ProcessedAt is not set. |
| WorkProgress.MatchedBySound | Pages/WorkProgress.cshtml.cs:218-237 | A marked batch has a row on the equipment joined to a member whose lot is that of one of the events. |
| WorkProgress.MatchedByComplete | Pages/WorkProgress.cshtml.cs:229-237 | The batch that an event's lot matches is marked. |
| WorkProgress.MarkedNoEvents | Pages/WorkProgress.cshtml.cs:215 | With no clusters nothing is marked. |
| WorkProgress.MarkedIdempotent | Pages/WorkProgress.cshtml.cs:213-248 | Marking twice with the same events gives the same table as marking once. |
| WorkProgress.ReservedBatchItems | Pages/WorkProgress.cshtml.cs:106-111 | Slot k holds the items of the k-th reserved batch. |
| WorkProgress.EventProgress | Pages/WorkProgress.cshtml.cs:75-92 | The in-process and waiting columns come from the first two clusters of the equipment's events. |
| WorkProgress.FillReserved | Pages/WorkProgress.cshtml.cs:113-115 | The three reserved columns are filled from the slots that exist. |
| WorkProgress.EquipmentCard | Pages/WorkProgress.cshtml.cs:68-117 | One equipment's turn marks the batches first and then reserves from the rows that are still unprocessed. |
| WorkProgress.GroupCards | Pages/WorkProgress.cshtml.cs:64-118 | The equipment of a group take their turns in order, each on the table the previous turn left. |
| WorkProgress.LoadProgressData | Pages/WorkProgress.cshtml.cs:39-122 | The page's view and the new DC_Batch table are those of the page pass over the shown equipment, group by group. |
| WorkProgress.LoadOnlyMarks | Pages/WorkProgress.cshtml.cs:39-122 | Loading the page changes DC_Batch only by marking rows processed. No row is added, removed, unmarked or otherwise changed. |
| WorkProgress.CardStepReserved | Pages/WorkProgress.cshtml.cs:95-104 | The reserved batches are unprocessed rows of the equipment that this turn did not match, distinct and oldest first. |
| WorkProgress.CardsFromNames | Pages/WorkProgress.cshtml.cs:66-72 | The j-th card of a group carries the j-th equipment's name and line. |
| WorkProgress.GroupsFromTypes | Pages/WorkProgress.cshtml.cs:60-120 | Each entry keeps its group's Type and has one card per equipment in it. |
| WorkProgress.LoadCards | Pages/WorkProgress.cshtml.cs:53-120 | Every card is that of a shown equipment, filed under its Type. |

## Left out

- The hosted service's timer loop (`ExecuteAsync`), its delays, its outer catch and the options class are not modelled. The model starts at one `UpdateBatchProcessingStatus` call.
- Cancellation tokens and the `IsCancellationRequested` breaks are left out. A pass always runs to the end.
- Logging, including the report of processed batches in the service, has no observable effect on the tables and is left out.
- Entity Framework, dependency injection, scopes and change tracking are not modelled. A query reads the rows saved at the start of a pass, as the service's queries do. The tracked entities are a second sequence.
- An exception during one equipment's pass is modelled as a set of faulting equipment, whose passes change nothing. Changes left in the shared context by a pass that failed halfway are not modelled.
- Razor rendering, HTTP binding, `JsonResult`, the page refresh endpoints, `Program.cs`, seeding and the maintenance Python scripts are not modelled.
- `DateTime.Now` (the new BatchId and CreatedAt) and the "yyyy/MM/dd HH:mm" rendering of times are parameters of the model.
- String ordering is modelled as ordinal comparison. The source's culture-sensitive `OrderBy` on strings is not modelled.
- SQL result order without `ORDER BY` is modelled as store order. Ties in `ORDER BY` keep store order. The WorkProgress join is batch-major.
- `Dashboard.ActlRow`: the Dashboard reads DC_Actl with nullable EqpId, TrackInTime, Qty and EndTime and a text EndTime. It has its own row type, while the service and WorkProgress use the non-nullable row.
- `Records.EquipmentProgress` has Note and the three Reserved*BatchId fields, which `Models/WorkProgressViewModel.cs` does not declare. WorkProgress leaves them empty; Dashboard fills them.
- C# lists and arrays are modelled by their contents. Aliasing between them is not modelled.
- The `wipData` query in `WipLotList.OnPostAsync` reads rows whose result is never used, so it is left out.
- Times are whole seconds (`Time = nat`), and the five-minute window is 300 seconds. `DateTime` keeps fractions of a second, and the clustering compares `TotalMinutes` of their difference. So two track-ins 300.4 s apart are outside the window in the code, but inside it in the model once truncated to 300 s.
- `DcBatch.IsProcessed` is declared as an `int` column, while most of the code uses it as a bool. The model makes it a bool. The Dashboard's test `IsProcessed == 0` is read as `!isProcessed`, and stored values other than 0 and 1 are not modelled.
- The 32-bit width of Qty, Step and Priority is not modelled. They are unbounded integers, and no operation does arithmetic on them except `Step + 1`.
