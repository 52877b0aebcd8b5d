/** What the Dashboard and the WorkProgress page share: the grouping of the
    shown equipment by Type, the choice of the (at most three) reserved
    batches of an equipment, and the ordering of progress items by lot. */
module Progress {
  import opened Records
  import opened Seqs
  import Index

  // ---------------------------------------------------------------------
  // The equipment grouped by type

  /** One entry of EquipmentsByType: a Type and its members in order. */
  datatype TypeGroup<T> = TypeGroup(eqpType: string, items: seq<T>)

  /** The equipment of type `t`, in order. */
  function OfType(eqps: seq<DcEqp>, t: string): (r: seq<DcEqp>)
    ensures |r| <= |eqps|
    decreases |eqps|
  {
    if eqps == [] then []
    else
      var r := OfType(eqps[..|eqps| - 1], t);
      if eqps[|eqps| - 1].eqpType == t then r + [eqps[|eqps| - 1]] else r
  }

  /** A Type's group holds each equipment of that Type as often as stored
      and no other equipment. */
  lemma {:induction false} OfTypeCount(eqps: seq<DcEqp>, t: string, e: DcEqp)
    ensures multiset(OfType(eqps, t))[e] == if e.eqpType == t then multiset(eqps)[e] else 0
    decreases |eqps|
  {
    if eqps != [] {
      var pre := eqps[..|eqps| - 1];
      OfTypeCount(pre, t, e);
      assert eqps == pre + [eqps[|eqps| - 1]];
    }
  }

  /** LINQ GroupBy: one group per Type in order of first appearance, each
      holding that Type's equipment in order. */
  function GroupByType(eqps: seq<DcEqp>): seq<TypeGroup<DcEqp>>
  {
    var keys := Distinct(Index.TypesOf(eqps));
    seq(|keys|, k requires 0 <= k < |keys| => TypeGroup(keys[k], OfType(eqps, keys[k])))
  }

  /** The groups have distinct Types. */
  lemma GroupTypesDistinct(eqps: seq<DcEqp>)
    ensures var gs := GroupByType(eqps);
      forall i, j :: 0 <= i < j < |gs| ==> gs[i].eqpType != gs[j].eqpType
  {
    assert NoDuplicates(Distinct(Index.TypesOf(eqps)));
  }

  /** A group holds exactly the equipment of its Type, each as often as it
      occurs. */
  lemma GroupItems(eqps: seq<DcEqp>, k: nat, e: DcEqp)
    requires k < |GroupByType(eqps)|
    ensures var g := GroupByType(eqps)[k];
      multiset(g.items)[e] == if e.eqpType == g.eqpType then multiset(eqps)[e] else 0
  {
    OfTypeCount(eqps, Distinct(Index.TypesOf(eqps))[k], e);
  }

  /** No group is empty. */
  lemma GroupNonEmpty(eqps: seq<DcEqp>, k: nat)
    requires k < |GroupByType(eqps)|
    ensures GroupByType(eqps)[k].items != []
  {
    var keys := Distinct(Index.TypesOf(eqps));
    var types := Index.TypesOf(eqps);
    assert keys[k] in types;
    var m :| 0 <= m < |types| && types[m] == keys[k];
    GroupItems(eqps, k, eqps[m]);
    assert eqps[m] in multiset(eqps);
  }

  /** Every equipment has the group of its Type. */
  lemma GroupOf(eqps: seq<DcEqp>, e: DcEqp) returns (k: nat)
    requires e in eqps
    ensures k < |GroupByType(eqps)| && GroupByType(eqps)[k].eqpType == e.eqpType
  {
    var keys := Distinct(Index.TypesOf(eqps));
    var types := Index.TypesOf(eqps);
    var m :| 0 <= m < |eqps| && eqps[m] == e;
    assert types[m] == e.eqpType;
    assert e.eqpType in keys;
    k :| 0 <= k < |keys| && keys[k] == e.eqpType;
  }

  // ---------------------------------------------------------------------
  // The reserved batches of an equipment

  /** Two DC_Batch rows belong to the same reserved group when they share
      BatchId and CreatedAt. */
  predicate SameGroup(a: DcBatch, b: DcBatch)
  {
    a.batchId == b.batchId && a.createdAt == b.createdAt
  }

  predicate HasGroup(rs: seq<DcBatch>, b: DcBatch)
  {
    exists k :: 0 <= k < |rs| && SameGroup(rs[k], b)
  }

  /** No two rows of `rs` are of the same group. */
  predicate GroupsDistinct(rs: seq<DcBatch>)
  {
    forall i, j :: 0 <= i < j < |rs| ==> !SameGroup(rs[i], rs[j])
  }

  /** `b` occurs in `rows` with no row of its group before it. */
  predicate FirstOfGroup(rows: seq<DcBatch>, b: DcBatch)
  {
    exists i :: 0 <= i < |rows| && rows[i] == b && !HasGroup(rows[..i], b)
  }

  /** The rows grouped by BatchId and CreatedAt: the first row of each group,
      groups in order of first appearance. */
  function GroupFirsts(rows: seq<DcBatch>): (r: seq<DcBatch>)
    ensures |r| <= |rows|
    decreases |rows|
  {
    if rows == [] then []
    else
      var r := GroupFirsts(rows[..|rows| - 1]);
      if HasGroup(r, rows[|rows| - 1]) then r else r + [rows[|rows| - 1]]
  }

  /** Every row's group is represented. */
  lemma {:induction false} GroupFirstsCover(rows: seq<DcBatch>, k: nat)
    requires k < |rows|
    ensures HasGroup(GroupFirsts(rows), rows[k])
    decreases |rows|
  {
    var pre := rows[..|rows| - 1];
    var x := rows[|rows| - 1];
    var r0 := GroupFirsts(pre);
    var r := GroupFirsts(rows);
    if k < |pre| {
      GroupFirstsCover(pre, k);
      assert rows[k] == pre[k];
      var m :| 0 <= m < |r0| && SameGroup(r0[m], pre[k]);
      assert r[m] == r0[m];
    } else if !HasGroup(r0, x) {
      assert r[|r0|] == x;
    }
  }

  /** Each group is represented once. */
  lemma {:induction false} GroupFirstsDistinct(rows: seq<DcBatch>)
    ensures GroupsDistinct(GroupFirsts(rows))
    decreases |rows|
  {
    if rows != [] {
      var pre := rows[..|rows| - 1];
      var x := rows[|rows| - 1];
      GroupFirstsDistinct(pre);
      var r0 := GroupFirsts(pre);
      var r := GroupFirsts(rows);
      assert r == if HasGroup(r0, x) then r0 else r0 + [x];
      if !HasGroup(r0, x) {
        forall i, j | 0 <= i < j < |r| ensures !SameGroup(r[i], r[j]) {
          assert r[i] == r0[i];
          if j == |r0| {
            assert r[j] == x;
            assert !SameGroup(r0[i], x);
          } else {
            assert r[j] == r0[j];
            assert !SameGroup(r0[i], r0[j]);
          }
        }
      }
    }
  }

  /** The representative of a group is its first row. */
  lemma {:induction false} GroupFirstsFirst(rows: seq<DcBatch>, k: nat)
    requires k < |GroupFirsts(rows)|
    ensures FirstOfGroup(rows, GroupFirsts(rows)[k])
    decreases |rows|
  {
    var pre := rows[..|rows| - 1];
    var x := rows[|rows| - 1];
    var r0 := GroupFirsts(pre);
    var r := GroupFirsts(rows);
    if k < |r0| {
      GroupFirstsFirst(pre, k);
      assert r[k] == r0[k];
      var i :| 0 <= i < |pre| && pre[i] == r0[k] && !HasGroup(pre[..i], r0[k]);
      assert rows[..i] == pre[..i];
      assert rows[i] == r[k];
    } else {
      assert r[k] == x && !HasGroup(r0, x);
      assert !HasGroup(pre, x) by {
        forall j | 0 <= j < |pre| ensures !SameGroup(pre[j], x) {
          GroupFirstsCover(pre, j);
          var m :| 0 <= m < |r0| && SameGroup(r0[m], pre[j]);
        }
      }
      assert rows[..|pre|] == pre;
      assert rows[|pre|] == x;
    }
  }

  /** The unprocessed rows of equipment `eqpName`, in store order. */
  function UnprocessedOn(batches: seq<DcBatch>, eqpName: string): (r: seq<DcBatch>)
    ensures |r| <= |batches|
    decreases |batches|
  {
    if batches == [] then []
    else
      var r := UnprocessedOn(batches[..|batches| - 1], eqpName);
      var b := batches[|batches| - 1];
      if b.eqpId == eqpName && !b.isProcessed then r + [b] else r
  }

  /** The candidates for reservation are exactly the stored unprocessed rows
      of the equipment. */
  lemma {:induction false} UnprocessedOnSpec(batches: seq<DcBatch>, eqpName: string, b: DcBatch)
    ensures b in UnprocessedOn(batches, eqpName) <==> b in batches && b.eqpId == eqpName && !b.isProcessed
    decreases |batches|
  {
    if batches != [] {
      var pre := batches[..|batches| - 1];
      UnprocessedOnSpec(pre, eqpName, b);
      assert batches == pre + [batches[|batches| - 1]];
    }
  }

  function CreatedAt(b: DcBatch): int
  {
    b.createdAt
  }

  /** Take(n). */
  function Take<T>(xs: seq<T>, n: nat): (r: seq<T>)
    ensures |r| <= n && |r| <= |xs|
    ensures |xs| <= n ==> r == xs
    ensures forall k :: 0 <= k < |r| ==> r[k] == xs[k]
  {
    if |xs| <= n then xs else xs[..n]
  }

  /** The number of reserved slots on a card. */
  const ReservedSlots: nat := 3

  /** The reserved batches of an equipment from its unprocessed rows: the
      groups ordered by CreatedAt (ties in order of first appearance), the
      first three, each represented by its first row. */
  function Reserved(rows: seq<DcBatch>): seq<DcBatch>
  {
    Take(SortBy(GroupFirsts(rows), ByKey(CreatedAt)), ReservedSlots)
  }

  /** Distinct groups occur once each. */
  lemma GroupsCountOne(g: seq<DcBatch>, x: DcBatch)
    requires GroupsDistinct(g)
    ensures multiset(g)[x] <= 1
  {
    assert NoDuplicates(g) by {
      forall i, j | 0 <= i < j < |g| ensures g[i] != g[j] {
        assert !SameGroup(g[i], g[j]);
      }
    }
    DistinctCountsOne(g, x);
  }

  /** Sorting keeps the groups distinct. */
  lemma SortedGroupsDistinct(g: seq<DcBatch>, s: seq<DcBatch>)
    requires GroupsDistinct(g)
    requires multiset(s) == multiset(g)
    ensures GroupsDistinct(s)
  {
    forall i, j | 0 <= i < j < |s| ensures !SameGroup(s[i], s[j]) {
      CountsTwoPositions(s, i, j);
      GroupsCountOne(g, s[j]);
      assert s[i] in multiset(g) && s[j] in multiset(g);
      var p :| 0 <= p < |g| && g[p] == s[i];
      var q :| 0 <= q < |g| && g[q] == s[j];
      if p < q {
        assert !SameGroup(g[p], g[q]);
      } else if q < p {
        assert !SameGroup(g[q], g[p]);
      }
    }
  }

  /** The sorted group representatives the first three are taken from. */
  function SortedFirsts(rows: seq<DcBatch>): seq<DcBatch>
  {
    SortBy(GroupFirsts(rows), ByKey(CreatedAt))
  }

  lemma SortedFirstsSpec(rows: seq<DcBatch>)
    ensures multiset(SortedFirsts(rows)) == multiset(GroupFirsts(rows))
    ensures SortedBy(SortedFirsts(rows), ByKey(CreatedAt))
  {
    ByKeyTotal(CreatedAt);
    SortBySpec(GroupFirsts(rows), ByKey(CreatedAt));
  }

  /** Each reserved batch is the first row of its group, and no two are of
      the same group. */
  lemma ReservedFirsts(rows: seq<DcBatch>)
    ensures var r := Reserved(rows);
      && |r| <= ReservedSlots
      && (forall k :: 0 <= k < |r| ==> FirstOfGroup(rows, r[k]))
      && GroupsDistinct(r)
  {
    var g := GroupFirsts(rows);
    var s := SortedFirsts(rows);
    SortedFirstsSpec(rows);
    GroupFirstsDistinct(rows);
    SortedGroupsDistinct(g, s);
    var r := Reserved(rows);
    forall k | 0 <= k < |r| ensures FirstOfGroup(rows, r[k]) {
      assert s[k] in multiset(g);
      var m :| 0 <= m < |g| && g[m] == s[k];
      GroupFirstsFirst(rows, m);
    }
  }

  /** The reserved batches are oldest first. */
  lemma ReservedOrder(rows: seq<DcBatch>)
    ensures var r := Reserved(rows);
      forall i, j :: 0 <= i < j < |r| ==> r[i].createdAt <= r[j].createdAt
  {
    var s := SortedFirsts(rows);
    SortedFirstsSpec(rows);
    var r := Reserved(rows);
    forall i, j | 0 <= i < j < |r| ensures r[i].createdAt <= r[j].createdAt {
      assert ByKey(CreatedAt)(s[i], s[j]);
      assert CreatedAt(s[i]) <= CreatedAt(s[j]);
      assert r[i] == s[i] && r[j] == s[j];
    }
  }

  /** A group is left out only when all three slots are taken, and then it
      is no older than any chosen batch. */
  lemma ReservedLeftOut(rows: seq<DcBatch>, n: nat)
    requires n < |rows|
    ensures var r := Reserved(rows);
      HasGroup(r, rows[n]) || (|r| == ReservedSlots && forall k :: 0 <= k < |r| ==> r[k].createdAt <= rows[n].createdAt)
  {
    var g := GroupFirsts(rows);
    var s := SortedFirsts(rows);
    SortedFirstsSpec(rows);
    var r := Reserved(rows);
    GroupFirstsCover(rows, n);
    var m :| 0 <= m < |g| && SameGroup(g[m], rows[n]);
    assert g[m] in multiset(s);
    var p :| 0 <= p < |s| && s[p] == g[m];
    if p >= ReservedSlots {
      forall k | 0 <= k < |r| ensures r[k].createdAt <= rows[n].createdAt {
        assert ByKey(CreatedAt)(s[k], s[p]);
        assert CreatedAt(s[k]) <= CreatedAt(s[p]);
        assert r[k] == s[k];
      }
    } else {
      assert r[p] == s[p];
    }
  }

  /** Slot `k` of a card: the items of the k-th reserved batch, or none. */
  function Slot<T>(xs: seq<seq<T>>, k: nat): seq<T>
  {
    if k < |xs| then xs[k] else []
  }

  /** The BatchId shown over slot `k`, if the slot is used. */
  function SlotBatchId(r: seq<DcBatch>, k: nat): Option<string>
  {
    if k < |r| then Some(r[k].batchId) else None
  }

  // ---------------------------------------------------------------------
  // Items ordered by lot

  /** The order of a card's items: by lot, compared ordinally. */
  predicate ByLot(a: ProcessItem, b: ProcessItem)
  {
    StrLe(a.lot, b.lot)
  }

  lemma ByLotTotal()
    ensures TotalPreorder(ByLot)
  {
    forall a: ProcessItem, b: ProcessItem ensures ByLot(a, b) || ByLot(b, a) {
      StrLeTotal(a.lot, b.lot);
    }
    forall a: ProcessItem, b: ProcessItem, c: ProcessItem | ByLot(a, b) && ByLot(b, c) ensures ByLot(a, c) {
      StrLeTrans(a.lot, b.lot, c.lot);
    }
  }

  /** The page's view: EquipmentsByType in key order, and the filter lists. */
  datatype ProgressView = ProgressView(equipmentsByType: seq<TypeGroup<EquipmentProgress>>, types: seq<string>, lines: seq<string>)
}
