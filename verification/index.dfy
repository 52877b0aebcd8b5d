/** The equipment list of the Index page, shared by the Dashboard and the
    WorkProgress page: the DC_Eqps rows that pass the type and line
    filters, ordered by Type then Name, and the distinct sorted Types and
    Lines of all equipment for the filter controls. */
module Index {
  import opened Records
  import opened Seqs

  /** The type filter applies when at least one type is selected. */
  predicate TypeFilterActive(typeFilter: Option<seq<string>>)
  {
    typeFilter.Some? && |typeFilter.value| > 0
  }

  /** The line filter applies when a non-empty line is given. */
  predicate LineFilterActive(lineFilter: Option<string>)
  {
    lineFilter.Some? && |lineFilter.value| > 0
  }

  /** Whether an equipment row passes both filters. */
  predicate Shown(e: DcEqp, typeFilter: Option<seq<string>>, lineFilter: Option<string>)
  {
    && (TypeFilterActive(typeFilter) ==> e.eqpType in typeFilter.value)
    && (LineFilterActive(lineFilter) ==> e.line == lineFilter.value)
  }

  /** The rows that pass the filters, in store order. */
  function ShownRows(eqps: seq<DcEqp>, typeFilter: Option<seq<string>>, lineFilter: Option<string>): (r: seq<DcEqp>)
    ensures |r| <= |eqps|
    decreases |eqps|
  {
    if eqps == [] then []
    else
      var r := ShownRows(eqps[..|eqps| - 1], typeFilter, lineFilter);
      if Shown(eqps[|eqps| - 1], typeFilter, lineFilter) then r + [eqps[|eqps| - 1]] else r
  }

  /** The filters keep every passing row as often as it occurs and drop the
      others. */
  lemma {:induction false} ShownRowsCount(eqps: seq<DcEqp>, typeFilter: Option<seq<string>>, lineFilter: Option<string>, e: DcEqp)
    ensures multiset(ShownRows(eqps, typeFilter, lineFilter))[e] ==
      if Shown(e, typeFilter, lineFilter) then multiset(eqps)[e] else 0
    decreases |eqps|
  {
    if eqps != [] {
      var pre := eqps[..|eqps| - 1];
      ShownRowsCount(pre, typeFilter, lineFilter, e);
      assert eqps == pre + [eqps[|eqps| - 1]];
    }
  }

  /** The display order: by type, then by name, both compared ordinally. */
  predicate TypeThenName(a: DcEqp, b: DcEqp)
  {
    StrLt(a.eqpType, b.eqpType) || (a.eqpType == b.eqpType && StrLe(a.name, b.name))
  }

  lemma TypeThenNameTotal()
    ensures TotalPreorder(TypeThenName)
  {
    forall a: DcEqp, b: DcEqp ensures TypeThenName(a, b) || TypeThenName(b, a) {
      StrLeTotal(a.eqpType, b.eqpType);
      StrLeTotal(a.name, b.name);
    }
    forall a: DcEqp, b: DcEqp, c: DcEqp | TypeThenName(a, b) && TypeThenName(b, c)
      ensures TypeThenName(a, c)
    {
      if a.eqpType == b.eqpType && b.eqpType == c.eqpType {
        StrLeTrans(a.name, b.name, c.name);
      } else if a.eqpType != b.eqpType && b.eqpType != c.eqpType {
        StrLtTrans(a.eqpType, b.eqpType, c.eqpType);
      }
    }
  }

  /** The strict ordinal order is transitive. */
  lemma StrLtTrans(a: string, b: string, c: string)
    requires StrLt(a, b) && StrLt(b, c)
    ensures StrLt(a, c)
  {
    StrLeTrans(a, b, c);
    if a == c {
      StrLeAntisym(a, b);
      assert false;
    }
  }

  /** The shown equipment in display order. */
  function Equipments(eqps: seq<DcEqp>, typeFilter: Option<seq<string>>, lineFilter: Option<string>): seq<DcEqp>
  {
    SortBy(ShownRows(eqps, typeFilter, lineFilter), TypeThenName)
  }

  function TypesOf(eqps: seq<DcEqp>): (r: seq<string>)
    ensures |r| == |eqps| && forall k :: 0 <= k < |eqps| ==> r[k] == eqps[k].eqpType
  {
    seq(|eqps|, k requires 0 <= k < |eqps| => eqps[k].eqpType)
  }

  function LinesOf(eqps: seq<DcEqp>): (r: seq<string>)
    ensures |r| == |eqps| && forall k :: 0 <= k < |eqps| ==> r[k] == eqps[k].line
  {
    seq(|eqps|, k requires 0 <= k < |eqps| => eqps[k].line)
  }

  /** The page's three lists. */
  datatype IndexView = IndexView(equipments: seq<DcEqp>, types: seq<string>, lines: seq<string>)

  /** IndexModel.OnGetAsync. */
  function OnGet(eqps: seq<DcEqp>, typeFilter: Option<seq<string>>, lineFilter: Option<string>): (r: IndexView)
    ensures |r.equipments| <= |eqps|
    ensures forall t :: t in r.types <==> exists e :: e in eqps && e.eqpType == t
    ensures forall t :: t in r.lines <==> exists e :: e in eqps && e.line == t
    ensures forall i, j :: 0 <= i < j < |r.types| ==> StrLt(r.types[i], r.types[j])
    ensures forall i, j :: 0 <= i < j < |r.lines| ==> StrLt(r.lines[i], r.lines[j])
  {
    var types := SortedDistinct(TypesOf(eqps));
    var lines := SortedDistinct(LinesOf(eqps));
    assert forall t :: t in TypesOf(eqps) <==> exists e :: e in eqps && e.eqpType == t by {
      forall t ensures t in TypesOf(eqps) ==> exists e :: e in eqps && e.eqpType == t {
        if t in TypesOf(eqps) {
          var k :| 0 <= k < |eqps| && TypesOf(eqps)[k] == t;
          assert eqps[k] in eqps;
        }
      }
    }
    assert forall t :: t in LinesOf(eqps) <==> exists e :: e in eqps && e.line == t by {
      forall t ensures t in LinesOf(eqps) ==> exists e :: e in eqps && e.line == t {
        if t in LinesOf(eqps) {
          var k :| 0 <= k < |eqps| && LinesOf(eqps)[k] == t;
          assert eqps[k] in eqps;
        }
      }
    }
    IndexView(Equipments(eqps, typeFilter, lineFilter), types, lines)
  }

  /** The shown equipment is exactly the rows that pass both filters, each
      as often as it is stored, ordered by Type then Name. */
  lemma OnGetEquipments(eqps: seq<DcEqp>, typeFilter: Option<seq<string>>, lineFilter: Option<string>)
    ensures var r := OnGet(eqps, typeFilter, lineFilter).equipments;
      && (forall e :: multiset(r)[e] == if Shown(e, typeFilter, lineFilter) then multiset(eqps)[e] else 0)
      && SortedBy(r, TypeThenName)
  {
    TypeThenNameTotal();
    SortBySpec(ShownRows(eqps, typeFilter, lineFilter), TypeThenName);
    forall e ensures multiset(OnGet(eqps, typeFilter, lineFilter).equipments)[e] ==
      if Shown(e, typeFilter, lineFilter) then multiset(eqps)[e] else 0
    {
      ShownRowsCount(eqps, typeFilter, lineFilter, e);
    }
  }

  /** Without filters every row is shown. */
  lemma OnGetUnfiltered(eqps: seq<DcEqp>, typeFilter: Option<seq<string>>, lineFilter: Option<string>)
    requires !TypeFilterActive(typeFilter) && !LineFilterActive(lineFilter)
    ensures multiset(OnGet(eqps, typeFilter, lineFilter).equipments) == multiset(eqps)
  {
    OnGetEquipments(eqps, typeFilter, lineFilter);
    var r := OnGet(eqps, typeFilter, lineFilter).equipments;
    forall e ensures multiset(r)[e] == multiset(eqps)[e] {
    }
  }

  /** The type and line filters combine as a conjunction: the rows shown
      with both filters are those shown with each filter alone. */
  lemma FiltersCombine(eqps: seq<DcEqp>, typeFilter: Option<seq<string>>, lineFilter: Option<string>, e: DcEqp)
    ensures e in OnGet(eqps, typeFilter, lineFilter).equipments <==>
      e in OnGet(eqps, typeFilter, None).equipments && e in OnGet(eqps, None, lineFilter).equipments
  {
    OnGetEquipments(eqps, typeFilter, lineFilter);
    OnGetEquipments(eqps, typeFilter, None);
    OnGetEquipments(eqps, None, lineFilter);
    var r := OnGet(eqps, typeFilter, lineFilter).equipments;
    var r1 := OnGet(eqps, typeFilter, None).equipments;
    var r2 := OnGet(eqps, None, lineFilter).equipments;
    assert e in r <==> multiset(r)[e] > 0;
    assert e in r1 <==> multiset(r1)[e] > 0;
    assert e in r2 <==> multiset(r2)[e] > 0;
  }

  /** An empty store gives three empty lists. */
  lemma OnGetEmpty(typeFilter: Option<seq<string>>, lineFilter: Option<string>)
    ensures OnGet([], typeFilter, lineFilter) == IndexView([], [], [])
  {
  }
}
