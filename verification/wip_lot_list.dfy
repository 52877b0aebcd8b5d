/** The WIP lot list of one equipment: the lots waiting for it whose carrier
    is in no batch yet, by priority; and the hand-over of the operator's
    selected carriers to the batch creation page. */
module WipLotList {
  import opened Records
  import opened Seqs
  import CreateBatch

  /** The CarrierId of every DC_Batch row, processed or not. */
  function RegisteredCarriers(batches: seq<DcBatch>): (r: set<string>)
    ensures forall c :: c in r <==> exists b :: b in batches && b.carrierId == c
  {
    set b | b in batches :: b.carrierId
  }

  /** A WIP row listed for `eqpName`. */
  predicate Candidate(w: DcWip, eqpName: string, registered: set<string>)
  {
    w.targetEqpId == eqpName && w.carrier !in registered
  }

  /** The WIP rows listed for `eqpName`, in store order. */
  function CandidateRows(wips: seq<DcWip>, eqpName: string, registered: set<string>): seq<DcWip>
  {
    Filter(wips, CandidateFor(eqpName, registered))
  }

  function CandidateFor(eqpName: string, registered: set<string>): DcWip -> bool
  {
    (w: DcWip) => Candidate(w, eqpName, registered)
  }

  function Priority(w: DcWip): int
  {
    w.priority
  }

  /** WipLotListModel.OnGetAsync: nothing without an equipment name;
      otherwise the candidate rows ordered by ascending Priority (equal
      priorities in store order). */
  function OnGet(eqpName: Option<string>, wips: seq<DcWip>, batches: seq<DcBatch>): (r: seq<DcWip>)
    ensures |r| <= |wips|
    ensures eqpName.None? || eqpName.value == "" ==> r == []
  {
    if eqpName.None? || eqpName.value == "" then []
    else SortBy(CandidateRows(wips, eqpName.value, RegisteredCarriers(batches)), ByKey(Priority))
  }

  /** A WIP row the list shows for `eqpName`: it targets the equipment and
      no DC_Batch row, processed or not, holds its carrier. */
  ghost predicate Listed(w: DcWip, eqpName: string, batches: seq<DcBatch>)
  {
    w.targetEqpId == eqpName && forall b :: b in batches ==> b.carrierId != w.carrier
  }

  /** The listed lots are exactly the WIP rows targeting the equipment whose
      carrier appears in no DC_Batch row, each as often as stored. */
  lemma OnGetRows(eqpName: string, wips: seq<DcWip>, batches: seq<DcBatch>, w: DcWip)
    requires eqpName != ""
    ensures multiset(OnGet(Some(eqpName), wips, batches))[w] ==
      if Listed(w, eqpName, batches) then multiset(wips)[w] else 0
  {
    var registered := RegisteredCarriers(batches);
    var rows := CandidateRows(wips, eqpName, registered);
    ByKeyTotal(Priority);
    SortBySpec(rows, ByKey(Priority));
    FilterCount(wips, CandidateFor(eqpName, registered), w);
    assert Candidate(w, eqpName, registered) <==> Listed(w, eqpName, batches);
  }

  /** The listed lots are in ascending priority. */
  lemma OnGetOrder(eqpName: Option<string>, wips: seq<DcWip>, batches: seq<DcBatch>)
    ensures SortedBy(OnGet(eqpName, wips, batches), ByKey(Priority))
  {
    if eqpName.Some? && eqpName.value != "" {
      ByKeyTotal(Priority);
      SortBySpec(CandidateRows(wips, eqpName.value, RegisteredCarriers(batches)), ByKey(Priority));
    }
  }

  /** Where the post sends the operator. */
  datatype PostResult =
    | RedirectToSelf(eqpName: Option<string>, message: string)
    | RedirectToCreateBatch(carriers: string)

  const SelectCarrierMessage: string := "キャリアを選択してください"

  /** WipLotListModel.OnPostAsync: an empty selection sets the message and
      returns to the list; otherwise the selected carriers, duplicates
      removed (first occurrence kept), joined with ",". */
  function OnPost(selectedCarriers: Option<seq<string>>, eqpName: Option<string>): (r: PostResult)
    ensures selectedCarriers.None? || selectedCarriers.value == [] <==> r == RedirectToSelf(eqpName, SelectCarrierMessage)
    ensures r.RedirectToSelf? <==> selectedCarriers.None? || selectedCarriers.value == []
    ensures r.RedirectToCreateBatch? ==> r.carriers == Join(Distinct(selectedCarriers.value), ",")
  {
    if selectedCarriers.None? || selectedCarriers.value == [] then
      RedirectToSelf(eqpName, SelectCarrierMessage)
    else
      RedirectToCreateBatch(Join(Distinct(selectedCarriers.value), ","))
  }

  /** The carriers the batch creation page reads back from the route value
      (CreateBatch.CarrierList) are the selected carriers without duplicates,
      in first-selection order, provided no carrier name contains a comma;
      except that a selection of empty names only is joined to the empty
      route value, which that page reads as no carriers at all. */
  lemma OnPostRoundTrip(selected: seq<string>, eqpName: Option<string>)
    requires selected != []
    requires forall k :: 0 <= k < |selected| ==> ',' !in selected[k]
    ensures var r := OnPost(Some(selected), eqpName);
      && r.RedirectToCreateBatch?
      && ((forall k :: 0 <= k < |selected| ==> selected[k] == "") ==> CreateBatch.CarrierList(Some(r.carriers)) == [])
      && (!(forall k :: 0 <= k < |selected| ==> selected[k] == "") ==>
            && CreateBatch.CarrierList(Some(r.carriers)) == Distinct(selected)
            && NoDuplicates(CreateBatch.CarrierList(Some(r.carriers)))
            && (forall c :: c in CreateBatch.CarrierList(Some(r.carriers)) <==> c in selected))
  {
    var d := Distinct(selected);
    forall k | 0 <= k < |d| ensures ',' !in d[k] {
      assert d[k] in selected;
    }
    OnlyEmptyNames(selected);
    JoinEmpty(d);
    SplitJoin(d, ',');
  }

  /** A selection of empty names only has the one distinct name "". */
  lemma OnlyEmptyNames(selected: seq<string>)
    requires selected != []
    ensures (forall k :: 0 <= k < |selected| ==> selected[k] == "") <==> Distinct(selected) == [""]
  {
    var d := Distinct(selected);
    assert selected[0] in d;
    if forall k :: 0 <= k < |selected| ==> selected[k] == "" {
      assert forall x :: x in d ==> x == "";
    } else {
      var k :| 0 <= k < |selected| && selected[k] != "";
      assert selected[k] in d;
    }
  }

  /** Comma-free names join to the empty route value only when they are the
      single name "". */
  lemma JoinEmpty(names: seq<string>)
    requires names != []
    requires forall k :: 0 <= k < |names| ==> ',' !in names[k]
    ensures Join(names, ",") == "" <==> names == [""]
  {
    SplitJoin(names, ',');
    assert Split("", ',') == [""];
  }
}
