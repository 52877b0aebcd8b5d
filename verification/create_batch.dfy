/** The batch creation page. Its route value lists carriers separated by
    ","; the form shows each carrier's route (its DC_CarrierSteps rows) and
    WIP data, and the post writes one batch: a DC_Batch row per route step
    and one DC_BatchMembers row per carrier that has a WIP row, all under one
    batch id and creation time. */
module CreateBatch {
  import opened Records
  import opened Seqs
  import opened Data

  // ---------------------------------------------------------------------
  // The queries both handlers run per carrier

  /** The carriers named by the route value: none when it is missing or
      empty, otherwise its ","-separated parts (empty parts included). */
  function CarrierList(carriers: Option<string>): (r: seq<string>)
    ensures carriers.None? || carriers.value == "" <==> r == []
    ensures r != [] ==> Join(r, ",") == carriers.value
    ensures forall k :: 0 <= k < |r| ==> ',' !in r[k]
  {
    if carriers.None? || carriers.value == "" then []
    else
      JoinSplit(carriers.value, ',');
      Split(carriers.value, ',')
  }

  /** Whether a DC_CarrierSteps row belongs to `carrier`. */
  function OfCarrier(carrier: string): DcCarrierStep -> bool
  {
    (s: DcCarrierStep) => s.carrier == carrier
  }

  function StepNo(s: DcCarrierStep): int
  {
    s.step
  }

  /** The route of a carrier: its rows ordered by Step (equal steps in store
      order). */
  function Route(steps: seq<DcCarrierStep>, carrier: string): seq<DcCarrierStep>
  {
    SortBy(Filter(steps, OfCarrier(carrier)), ByKey(StepNo))
  }

  /** The route holds exactly the carrier's rows, each as often as stored. */
  lemma RouteRowsOf(steps: seq<DcCarrierStep>, carrier: string, s: DcCarrierStep)
    ensures multiset(Route(steps, carrier))[s] == if s.carrier == carrier then multiset(steps)[s] else 0
  {
    ByKeyTotal(StepNo);
    SortBySpec(Filter(steps, OfCarrier(carrier)), ByKey(StepNo));
    FilterCount(steps, OfCarrier(carrier), s);
  }

  /** The route is in ascending step order. */
  lemma RouteOrder(steps: seq<DcCarrierStep>, carrier: string)
    ensures SortedBy(Route(steps, carrier), ByKey(StepNo))
  {
    ByKeyTotal(StepNo);
    SortBySpec(Filter(steps, OfCarrier(carrier)), ByKey(StepNo));
  }

  /** Every row of a route is a stored row of its carrier. */
  lemma RouteCarrier(steps: seq<DcCarrierStep>, carrier: string)
    ensures forall k :: 0 <= k < |Route(steps, carrier)| ==> Route(steps, carrier)[k].carrier == carrier
    ensures forall k :: 0 <= k < |Route(steps, carrier)| ==> Route(steps, carrier)[k] in steps
  {
    var r := Route(steps, carrier);
    forall k | 0 <= k < |r| ensures r[k].carrier == carrier && r[k] in steps {
      RouteRowsOf(steps, carrier, r[k]);
      assert r[k] in multiset(r);
    }
  }

  /** The carrier's WIP row: the first DC_Wips row of the carrier in store
      order, or none when the carrier has no row. */
  function WipOf(wips: seq<DcWip>, carrier: string): (r: Option<DcWip>)
    ensures r.None? <==> forall k :: 0 <= k < |wips| ==> wips[k].carrier != carrier
    ensures r.Some? ==> exists k :: 0 <= k < |wips| && wips[k] == r.value && r.value.carrier == carrier &&
                                     forall j :: 0 <= j < k ==> wips[j].carrier != carrier
    decreases |wips|
  {
    if wips == [] then None
    else if wips[0].carrier == carrier then
      assert wips[0] == wips[0];
      Some(wips[0])
    else
      var r := WipOf(wips[1..], carrier);
      if r.Some? then
        var k :| 0 <= k < |wips[1..]| && wips[1..][k] == r.value && r.value.carrier == carrier &&
                 forall j :: 0 <= j < k ==> wips[1..][j].carrier != carrier;
        assert wips[k + 1] == r.value;
        assert forall j :: 0 <= j < k + 1 ==> wips[j].carrier != carrier by {
          forall j | 0 <= j < k + 1 ensures wips[j].carrier != carrier {
            if j > 0 { assert wips[j] == wips[1..][j - 1]; }
          }
        }
        r
      else
        assert forall k :: 0 <= k < |wips| ==> wips[k].carrier != carrier by {
          forall k | 0 <= k < |wips| ensures wips[k].carrier != carrier {
            if k > 0 { assert wips[k] == wips[1..][k - 1]; }
          }
        }
        r
  }

  // ---------------------------------------------------------------------
  // OnPostAsync

  /** Where the post sends the operator. */
  datatype PageRedirect = ToIndex | ToWorkProgress

  /** The DC_Batch row written for one route step: unprocessed, with no lot,
      quantity, technology or next equipment of its own. */
  function BatchRow(batchId: string, createdAt: Time, carrier: string, s: DcCarrierStep): DcBatch
  {
    DcBatch(batchId, s.step, carrier, None, 0, None, s.eqpId, s.ppid, "", false, createdAt, None)
  }

  /** The DC_Batch rows written for a route, one per step, in route order. */
  function BatchRows(batchId: string, createdAt: Time, carrier: string, route: seq<DcCarrierStep>): (r: seq<DcBatch>)
    ensures |r| == |route|
    ensures forall k :: 0 <= k < |route| ==> r[k] == BatchRow(batchId, createdAt, carrier, route[k])
    decreases |route|
  {
    if route == [] then []
    else BatchRows(batchId, createdAt, carrier, route[..|route| - 1]) + [BatchRow(batchId, createdAt, carrier, route[|route| - 1])]
  }

  /** The DC_BatchMembers row of a carrier: the lot, quantity and technology
      of its WIP row. */
  function MemberRow(batchId: string, carrier: string, w: DcWip): DcBatchMember
  {
    DcBatchMember(batchId, carrier, w.lotId, w.qty, w.technology)
  }

  /** The DC_Batch rows one carrier adds: its route's rows, or none when it
      has no WIP row. */
  function CarrierBatches(steps: seq<DcCarrierStep>, wips: seq<DcWip>, batchId: string, createdAt: Time, c: string): seq<DcBatch>
  {
    if WipOf(wips, c).None? then [] else BatchRows(batchId, createdAt, c, Route(steps, c))
  }

  /** The DC_BatchMembers rows one carrier adds: one, or none when it has no
      WIP row. */
  function CarrierMembers(wips: seq<DcWip>, batchId: string, c: string): seq<DcBatchMember>
  {
    if WipOf(wips, c).None? then [] else [MemberRow(batchId, c, WipOf(wips, c).value)]
  }

  /** The DC_Batch rows the post adds for the carriers `cs`, in order. */
  function NewBatches(steps: seq<DcCarrierStep>, wips: seq<DcWip>, batchId: string, createdAt: Time, cs: seq<string>): seq<DcBatch>
    decreases |cs|
  {
    if cs == [] then []
    else NewBatches(steps, wips, batchId, createdAt, cs[..|cs| - 1]) + CarrierBatches(steps, wips, batchId, createdAt, cs[|cs| - 1])
  }

  /** The DC_BatchMembers rows the post adds for the carriers `cs`, in order. */
  function NewMembers(wips: seq<DcWip>, batchId: string, cs: seq<string>): seq<DcBatchMember>
    decreases |cs|
  {
    if cs == [] then []
    else NewMembers(wips, batchId, cs[..|cs| - 1]) + CarrierMembers(wips, batchId, cs[|cs| - 1])
  }

  lemma NewBatchesStep(steps: seq<DcCarrierStep>, wips: seq<DcWip>, batchId: string, createdAt: Time, cs: seq<string>, i: nat)
    requires i < |cs|
    ensures NewBatches(steps, wips, batchId, createdAt, cs[..i + 1]) ==
      NewBatches(steps, wips, batchId, createdAt, cs[..i]) + CarrierBatches(steps, wips, batchId, createdAt, cs[i])
  {
    assert cs[..i + 1][..i] == cs[..i];
  }

  lemma NewMembersStep(wips: seq<DcWip>, batchId: string, cs: seq<string>, i: nat)
    requires i < |cs|
    ensures NewMembers(wips, batchId, cs[..i + 1]) ==
      NewMembers(wips, batchId, cs[..i]) + CarrierMembers(wips, batchId, cs[i])
  {
    assert cs[..i + 1][..i] == cs[..i];
  }

  /** Adds the DC_Batch rows of one carrier's route, step by step. */
  method AddRouteRows(store: Store, batchId: string, createdAt: Time, carrier: string, route: seq<DcCarrierStep>)
    modifies store`batches
    ensures store.batches == old(store.batches) + BatchRows(batchId, createdAt, carrier, route)
  {
    ghost var start := store.batches;
    for i := 0 to |route|
      invariant store.batches == start + BatchRows(batchId, createdAt, carrier, route[..i])
    {
      assert route[..i + 1][..i] == route[..i];
      var step := route[i];
      var batch := BatchRow(batchId, createdAt, carrier, step);
      store.batches := store.batches + [batch];
    }
    assert route[..|route|] == route;
  }

  /** The body of the post's loop for carrier `i` of the list: skipped
      without a WIP row; otherwise the route's rows, then the member row. */
  method AddCarrier(store: Store, carrierList: seq<string>, i: nat, batchId: string, createdAt: Time,
                    ghost batches0: seq<DcBatch>, ghost members0: seq<DcBatchMember>)
    requires i < |carrierList|
    requires store.batches == batches0 + NewBatches(store.carrierSteps, store.wips, batchId, createdAt, carrierList[..i])
    requires store.members == members0 + NewMembers(store.wips, batchId, carrierList[..i])
    modifies store`batches, store`members
    ensures store.batches == batches0 + NewBatches(store.carrierSteps, store.wips, batchId, createdAt, carrierList[..i + 1])
    ensures store.members == members0 + NewMembers(store.wips, batchId, carrierList[..i + 1])
  {
    NewBatchesStep(store.carrierSteps, store.wips, batchId, createdAt, carrierList, i);
    NewMembersStep(store.wips, batchId, carrierList, i);
    var carrier := carrierList[i];
    var steps := Route(store.carrierSteps, carrier);
    var wipInfo := WipOf(store.wips, carrier);
    if wipInfo.None? {
      return;
    }
    ghost var nb := NewBatches(store.carrierSteps, store.wips, batchId, createdAt, carrierList[..i]);
    ghost var nm := NewMembers(store.wips, batchId, carrierList[..i]);
    AddRouteRows(store, batchId, createdAt, carrier, steps);
    store.members := store.members + [MemberRow(batchId, carrier, wipInfo.value)];
    AppendAssoc(batches0, nb, BatchRows(batchId, createdAt, carrier, steps));
    AppendAssoc(members0, nm, [MemberRow(batchId, carrier, wipInfo.value)]);
  }

  /** The post's loop over the listed carriers, in list order. */
  method AddCarriers(store: Store, carrierList: seq<string>, batchId: string, createdAt: Time)
    modifies store`batches, store`members
    ensures store.batches == old(store.batches) + NewBatches(store.carrierSteps, store.wips, batchId, createdAt, carrierList)
    ensures store.members == old(store.members) + NewMembers(store.wips, batchId, carrierList)
  {
    ghost var batches0, members0 := store.batches, store.members;
    for i := 0 to |carrierList|
      invariant store.batches == batches0 + NewBatches(store.carrierSteps, store.wips, batchId, createdAt, carrierList[..i])
      invariant store.members == members0 + NewMembers(store.wips, batchId, carrierList[..i])
    {
      AddCarrier(store, carrierList, i, batchId, createdAt, batches0, members0);
    }
    assert carrierList[..|carrierList|] == carrierList;
  }

  /** CreateBatchModel.OnPostAsync: without carriers the operator goes back
      to the index and nothing is written; otherwise every carrier with a
      WIP row gets its route's DC_Batch rows and one member row, and the
      operator goes on to the work progress page. The batch id and the
      creation time come from the clock; they are parameters here. */
  method OnPost(store: Store, carriers: Option<string>, batchId: string, createdAt: Time) returns (r: PageRedirect)
    modifies store`batches, store`members
    ensures r == ToIndex <==> CarrierList(carriers) == []
    ensures store.batches == old(store.batches) + NewBatches(store.carrierSteps, store.wips, batchId, createdAt, CarrierList(carriers))
    ensures store.members == old(store.members) + NewMembers(store.wips, batchId, CarrierList(carriers))
  {
    if carriers.None? || carriers.value == "" {
      return ToIndex;
    }
    var carrierList := CarrierList(carriers);
    AddCarriers(store, carrierList, batchId, createdAt);
    return ToWorkProgress;
  }

  // Properties of the rows the post writes

  /** Every row of a route's batch rows carries the batch id, the creation
      time and the carrier, is unprocessed, and takes its step, equipment
      and recipe from a route row. */
  lemma BatchRowsShape(batchId: string, createdAt: Time, carrier: string, route: seq<DcCarrierStep>, b: DcBatch)
    requires b in BatchRows(batchId, createdAt, carrier, route)
    ensures b.batchId == batchId && b.createdAt == createdAt && b.carrierId == carrier
    ensures !b.isProcessed && b.processedAt.None? && b.lotId.None? && b.nextEqpId == ""
    ensures exists s :: s in route && b == BatchRow(batchId, createdAt, carrier, s)
  {
    var rows := BatchRows(batchId, createdAt, carrier, route);
    var k :| 0 <= k < |rows| && rows[k] == b;
    assert route[k] in route;
  }

  /** A row the post adds is an unprocessed row of the new batch for a
      listed carrier that has a WIP row, built from one of that carrier's
      route rows; and every such route row yields one. */
  lemma {:induction false} NewBatchesSpec(steps: seq<DcCarrierStep>, wips: seq<DcWip>, batchId: string, createdAt: Time,
                                          cs: seq<string>, b: DcBatch)
    ensures b in NewBatches(steps, wips, batchId, createdAt, cs) <==>
      && b.carrierId in cs
      && WipOf(wips, b.carrierId).Some?
      && exists s :: s in steps && s.carrier == b.carrierId && b == BatchRow(batchId, createdAt, b.carrierId, s)
    decreases |cs|
  {
    if cs != [] {
      var pre := cs[..|cs| - 1];
      var c := cs[|cs| - 1];
      NewBatchesSpec(steps, wips, batchId, createdAt, pre, b);
      assert cs == pre + [c];
      var route := Route(steps, c);
      var added := CarrierBatches(steps, wips, batchId, createdAt, c);
      assert b in NewBatches(steps, wips, batchId, createdAt, cs) <==>
        b in NewBatches(steps, wips, batchId, createdAt, pre) || b in added;
      if b in added {
        BatchRowsShape(batchId, createdAt, c, route, b);
        var s :| s in route && b == BatchRow(batchId, createdAt, c, s);
        RouteRowsOf(steps, c, s);
        assert s in multiset(route);
      }
      if b.carrierId == c && WipOf(wips, c).Some? && exists s :: s in steps && s.carrier == c && b == BatchRow(batchId, createdAt, c, s) {
        var s :| s in steps && s.carrier == c && b == BatchRow(batchId, createdAt, c, s);
        RouteRowsOf(steps, c, s);
        assert s in multiset(route);
        var k :| 0 <= k < |route| && route[k] == s;
        assert added[k] == b;
      }
    }
  }

  /** A member row the post adds is the WIP summary of a listed carrier. */
  lemma {:induction false} NewMembersSpec(wips: seq<DcWip>, batchId: string, cs: seq<string>, m: DcBatchMember)
    ensures m in NewMembers(wips, batchId, cs) <==>
      && m.carrierId in cs
      && WipOf(wips, m.carrierId).Some?
      && m == MemberRow(batchId, m.carrierId, WipOf(wips, m.carrierId).value)
    decreases |cs|
  {
    if cs != [] {
      var pre := cs[..|cs| - 1];
      NewMembersSpec(wips, batchId, pre, m);
      assert cs == pre + [cs[|cs| - 1]];
    }
  }

  /** With every carrier listed once, the new batch has at most one member
      row per carrier. */
  lemma {:induction false} OneMemberPerCarrier(wips: seq<DcWip>, batchId: string, cs: seq<string>)
    requires NoDuplicates(cs)
    ensures var ms := NewMembers(wips, batchId, cs);
      forall i, j :: 0 <= i < j < |ms| ==> ms[i].carrierId != ms[j].carrierId
    decreases |cs|
  {
    if cs != [] {
      var pre := cs[..|cs| - 1];
      var c := cs[|cs| - 1];
      assert NoDuplicates(pre);
      OneMemberPerCarrier(wips, batchId, pre);
      var ms0 := NewMembers(wips, batchId, pre);
      var ms := NewMembers(wips, batchId, cs);
      forall i | 0 <= i < |ms0| ensures ms0[i].carrierId != c {
        NewMembersSpec(wips, batchId, pre, ms0[i]);
        assert c !in pre;
      }
    }
  }

  // ---------------------------------------------------------------------
  // OnGetAsync

  /** The slot of step `n` on the form: the last route row with that step
      number overwrites the earlier ones; no row leaves the slot empty. */
  function Slot(route: seq<DcCarrierStep>, n: int): StepInfo
    decreases |route|
  {
    if route == [] then EmptyStep
    else if route[|route| - 1].step == n then StepInfo(route[|route| - 1].eqpId, route[|route| - 1].ppid)
    else Slot(route[..|route| - 1], n)
  }

  /** A slot shows the last route row with its step number, or nothing when
      there is none. */
  lemma {:induction false} SlotSpec(route: seq<DcCarrierStep>, n: int)
    ensures (forall k :: 0 <= k < |route| ==> route[k].step != n) ==> Slot(route, n) == EmptyStep
    ensures (exists k :: 0 <= k < |route| && route[k].step == n) ==>
      exists k :: 0 <= k < |route| && route[k].step == n &&
        Slot(route, n) == StepInfo(route[k].eqpId, route[k].ppid) &&
        forall j :: k < j < |route| ==> route[j].step != n
    decreases |route|
  {
    if route != [] {
      var pre := route[..|route| - 1];
      SlotSpec(pre, n);
      if route[|route| - 1].step != n && exists k :: 0 <= k < |route| && route[k].step == n {
        var k :| 0 <= k < |route| && route[k].step == n;
        assert pre[k] == route[k];
        var k' :| 0 <= k' < |pre| && pre[k'].step == n &&
          Slot(pre, n) == StepInfo(pre[k'].eqpId, pre[k'].ppid) &&
          forall j :: k' < j < |pre| ==> pre[j].step != n;
        assert route[k'] == pre[k'];
        assert forall j :: k' < j < |route| ==> route[j].step != n by {
          forall j | k' < j < |route| ensures route[j].step != n {
            if j < |pre| { assert route[j] == pre[j]; }
          }
        }
      }
      if forall k :: 0 <= k < |route| ==> route[k].step != n {
        assert forall k :: 0 <= k < |pre| ==> pre[k].step != n by {
          forall k | 0 <= k < |pre| ensures pre[k].step != n { assert pre[k] == route[k]; }
        }
      }
    }
  }

  /** The form row of a carrier: the quantity of its first route step (0
      without one), the lot and technology of its WIP row ("" without one),
      and steps 1 to 4 of its route. */
  function CarrierView(steps: seq<DcCarrierStep>, wips: seq<DcWip>, carrier: string): CarrierStepView
  {
    var route := Route(steps, carrier);
    var wip := WipOf(wips, carrier);
    CarrierStepView(
      carrier,
      if route == [] then 0 else route[0].qty,
      if wip.None? then "" else wip.value.lotId,
      if wip.None? then "" else wip.value.technology,
      "", "", "", "",
      Slot(route, 1), Slot(route, 2), Slot(route, 3), Slot(route, 4))
  }

  /** The form row before its steps are filled in. */
  function BlankView(steps: seq<DcCarrierStep>, wips: seq<DcWip>, carrier: string): CarrierStepView
  {
    CarrierView(steps, wips, carrier).(step1 := EmptyStep, step2 := EmptyStep, step3 := EmptyStep, step4 := EmptyStep)
  }

  /** The switch over the route: each row with step 1 to 4 overwrites that
      slot; other step numbers are ignored. */
  method FillSteps(view0: CarrierStepView, route: seq<DcCarrierStep>) returns (view: CarrierStepView)
    requires view0.step1 == view0.step2 == view0.step3 == view0.step4 == EmptyStep
    ensures view == view0.(step1 := Slot(route, 1), step2 := Slot(route, 2), step3 := Slot(route, 3), step4 := Slot(route, 4))
  {
    view := view0;
    for i := 0 to |route|
      invariant view == view0.(step1 := Slot(route[..i], 1), step2 := Slot(route[..i], 2),
                               step3 := Slot(route[..i], 3), step4 := Slot(route[..i], 4))
    {
      assert route[..i + 1][..i] == route[..i];
      var step := route[i];
      var stepInfo := StepInfo(step.eqpId, step.ppid);
      match step.step {
        case 1 => view := view.(step1 := stepInfo);
        case 2 => view := view.(step2 := stepInfo);
        case 3 => view := view.(step3 := stepInfo);
        case 4 => view := view.(step4 := stepInfo);
        case _ =>
      }
    }
    assert route[..|route|] == route;
  }

  /** CreateBatchModel.OnGetAsync: one form row per listed carrier, in list
      order. */
  method OnGet(store: Store, carriers: Option<string>) returns (carrierSteps: seq<CarrierStepView>)
    ensures |carrierSteps| == |CarrierList(carriers)|
    ensures forall k :: 0 <= k < |carrierSteps| ==>
      carrierSteps[k] == CarrierView(store.carrierSteps, store.wips, CarrierList(carriers)[k])
  {
    carrierSteps := [];
    var carrierList := CarrierList(carriers);
    for i := 0 to |carrierList|
      invariant |carrierSteps| == i
      invariant forall k :: 0 <= k < i ==> carrierSteps[k] == CarrierView(store.carrierSteps, store.wips, carrierList[k])
    {
      var carrier := carrierList[i];
      var steps := Route(store.carrierSteps, carrier);
      var viewModel := BlankView(store.carrierSteps, store.wips, carrier);
      viewModel := FillSteps(viewModel, steps);
      carrierSteps := carrierSteps + [viewModel];
    }
  }

  /** The quantity a form row shows is that of the carrier's lowest-numbered
      route step. */
  lemma ViewQty(steps: seq<DcCarrierStep>, wips: seq<DcWip>, carrier: string)
    ensures var v := CarrierView(steps, wips, carrier);
      && ((forall s :: s in steps ==> s.carrier != carrier) ==> v.qty == 0)
      && ((exists s :: s in steps && s.carrier == carrier) ==>
            exists s :: s in steps && s.carrier == carrier && v.qty == s.qty &&
              forall s' :: s' in steps && s'.carrier == carrier ==> s.step <= s'.step)
  {
    var route := Route(steps, carrier);
    RouteOrder(steps, carrier);
    RouteCarrier(steps, carrier);
    if exists s :: s in steps && s.carrier == carrier {
      var s :| s in steps && s.carrier == carrier;
      RouteRowsOf(steps, carrier, s);
      assert s in multiset(route);
      RouteRowsOf(steps, carrier, route[0]);
      assert route[0] in multiset(route);
      forall s' | s' in steps && s'.carrier == carrier ensures route[0].step <= s'.step {
        RouteRowsOf(steps, carrier, s');
        assert s' in multiset(route);
        var k :| 0 <= k < |route| && route[k] == s';
        if k > 0 { assert ByKey(StepNo)(route[0], route[k]); assert StepNo(route[0]) <= StepNo(route[k]); }
      }
    }
  }

  /** No carrier has two route rows with the same step number. */
  predicate OneRowPerStep(steps: seq<DcCarrierStep>)
  {
    forall i, j ::
      (0 <= i < |steps| && 0 <= j < |steps| && steps[i].carrier == steps[j].carrier && steps[i].step == steps[j].step)
      ==> steps[i] == steps[j]
  }

  /** With one route row per step number, the slot of a step shows the row
      with that step. */
  lemma SlotOfRow(steps: seq<DcCarrierStep>, s: DcCarrierStep)
    requires OneRowPerStep(steps) && s in steps
    ensures Slot(Route(steps, s.carrier), s.step) == StepInfo(s.eqpId, s.ppid)
  {
    var route := Route(steps, s.carrier);
    RouteRowsOf(steps, s.carrier, s);
    assert s in multiset(route);
    SlotSpec(route, s.step);
    var k :| 0 <= k < |route| && route[k].step == s.step &&
      Slot(route, s.step) == StepInfo(route[k].eqpId, route[k].ppid);
    RouteRowsOf(steps, s.carrier, route[k]);
    assert route[k] in multiset(route);
    var i :| 0 <= i < |steps| && steps[i] == s;
    var j :| 0 <= j < |steps| && steps[j] == route[k];
  }

  /** When a carrier's route has one row per step number, the form shows
      for steps 1 to 4 exactly the equipment and recipe of the DC_Batch row
      the post writes for that step. */
  lemma FormMatchesPost(steps: seq<DcCarrierStep>, wips: seq<DcWip>, batchId: string, createdAt: Time,
                        cs: seq<string>, b: DcBatch)
    requires OneRowPerStep(steps)
    requires b in NewBatches(steps, wips, batchId, createdAt, cs)
    ensures var v := CarrierView(steps, wips, b.carrierId);
      && (b.step == 1 ==> v.step1 == StepInfo(b.eqpId, b.ppid))
      && (b.step == 2 ==> v.step2 == StepInfo(b.eqpId, b.ppid))
      && (b.step == 3 ==> v.step3 == StepInfo(b.eqpId, b.ppid))
      && (b.step == 4 ==> v.step4 == StepInfo(b.eqpId, b.ppid))
  {
    NewBatchesSpec(steps, wips, batchId, createdAt, cs, b);
    var s :| s in steps && s.carrier == b.carrierId && b == BatchRow(batchId, createdAt, b.carrierId, s);
    SlotOfRow(steps, s);
  }
}
