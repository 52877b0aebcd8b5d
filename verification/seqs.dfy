/** Sequence, ordering and string helpers shared by the query models: the
    in-memory counterparts of LINQ's Where, FirstOrDefault, Distinct,
    OrderBy, SelectMany, string.Split and string.Join. */
module Seqs {
  import opened Records

  // ---------------------------------------------------------------------
  // Where / SelectMany / FirstOrDefault

  /** The elements of `xs` that satisfy `p`, in order. */
  function Filter<T>(xs: seq<T>, p: T -> bool): (r: seq<T>)
    ensures |r| <= |xs|
  {
    if xs == [] then []
    else
      var r := Filter(xs[..|xs| - 1], p);
      if p(xs[|xs| - 1]) then r + [xs[|xs| - 1]] else r
  }

  lemma AppendAssoc<T>(a: seq<T>, b: seq<T>, c: seq<T>)
    ensures (a + b) + c == a + (b + c)
  {
  }

  /** Where keeps exactly the elements that satisfy the predicate, each as
      often as it occurs. */
  lemma {:induction false} FilterSpec<T(!new)>(xs: seq<T>, p: T -> bool)
    ensures forall x :: x in Filter(xs, p) <==> x in xs && p(x)
    ensures forall k :: 0 <= k < |Filter(xs, p)| ==> p(Filter(xs, p)[k])
    ensures multiset(Filter(xs, p)) <= multiset(xs)
    decreases |xs|
  {
    if xs != [] {
      FilterSpec(xs[..|xs| - 1], p);
      assert xs == xs[..|xs| - 1] + [xs[|xs| - 1]];
    }
  }

  /** Where keeps every element that satisfies the predicate exactly as
      often as it occurs, and drops every other element. */
  lemma {:induction false} FilterCount<T>(xs: seq<T>, p: T -> bool, x: T)
    ensures multiset(Filter(xs, p))[x] == if p(x) then multiset(xs)[x] else 0
    decreases |xs|
  {
    if xs != [] {
      var pre := xs[..|xs| - 1];
      FilterCount(pre, p, x);
      assert xs == pre + [xs[|xs| - 1]];
    }
  }

  lemma {:induction false} FilterAppend<T(!new)>(xs: seq<T>, ys: seq<T>, p: T -> bool)
    ensures Filter(xs + ys, p) == Filter(xs, p) + Filter(ys, p)
    decreases |ys|
  {
    if ys == [] {
      assert xs + ys == xs;
    } else {
      var ys' := ys[..|ys| - 1];
      assert (xs + ys)[..|xs + ys| - 1] == xs + ys';
      FilterAppend(xs, ys', p);
    }
  }

  /** Filtering with a predicate every element satisfies changes nothing. */
  lemma {:induction false} FilterAll<T(!new)>(xs: seq<T>, p: T -> bool)
    requires forall k :: 0 <= k < |xs| ==> p(xs[k])
    ensures Filter(xs, p) == xs
    decreases |xs|
  {
    if xs != [] {
      FilterAll(xs[..|xs| - 1], p);
      assert xs == xs[..|xs| - 1] + [xs[|xs| - 1]];
    }
  }

  /** Concatenation of the groups, in order. */
  function Flatten<T>(gs: seq<seq<T>>): seq<T>
  {
    if gs == [] then [] else Flatten(gs[..|gs| - 1]) + gs[|gs| - 1]
  }

  /** Flattening peels off the first group as well as the last. */
  lemma {:induction false} FlattenCons<T>(gs: seq<seq<T>>)
    requires gs != []
    ensures Flatten(gs) == gs[0] + Flatten(gs[1..])
    decreases |gs|
  {
    if |gs| > 1 {
      var pre := gs[..|gs| - 1];
      FlattenCons(pre);
      assert gs[1..][..|gs| - 2] == pre[1..];
      AppendAssoc(gs[0], Flatten(pre[1..]), gs[|gs| - 1]);
    } else {
      assert gs[..0] == [];
    }
  }

  /** Index of the first element satisfying `p`, if any. */
  function FirstIndex<T>(xs: seq<T>, p: T -> bool): (r: Option<nat>)
    ensures r.None? <==> forall k :: 0 <= k < |xs| ==> !p(xs[k])
    ensures r.Some? ==> r.value < |xs| && p(xs[r.value])
    ensures r.Some? ==> forall k :: 0 <= k < r.value ==> !p(xs[k])
  {
    if xs == [] then None
    else if p(xs[0]) then Some(0)
    else
      match FirstIndex(xs[1..], p)
      case None => None
      case Some(i) => Some(i + 1)
  }

  /** FirstOrDefault: the first element satisfying `p`, if any. */
  function FirstWhere<T>(xs: seq<T>, p: T -> bool): (r: Option<T>)
    ensures r.None? <==> forall k :: 0 <= k < |xs| ==> !p(xs[k])
    ensures r.Some? ==> exists i :: 0 <= i < |xs| && xs[i] == r.value && p(xs[i]) &&
                                    forall k :: 0 <= k < i ==> !p(xs[k])
  {
    match FirstIndex(xs, p)
    case None => None
    case Some(i) => Some(xs[i])
  }

  // ---------------------------------------------------------------------
  // Distinct (first occurrence kept, in order)

  predicate NoDuplicates<T(==)>(xs: seq<T>)
  {
    forall i, j :: 0 <= i < j < |xs| ==> xs[i] != xs[j]
  }

  /** Position of the first occurrence of `x` in `xs`. */
  function IndexOf<T(==)>(xs: seq<T>, x: T): (r: nat)
    requires x in xs
    ensures r < |xs| && xs[r] == x && x !in xs[..r]
  {
    if xs[0] == x then 0 else 1 + IndexOf(xs[1..], x)
  }

  lemma {:induction false} IndexOfAppend<T>(xs: seq<T>, y: T, x: T)
    requires x in xs
    ensures IndexOf(xs + [y], x) == IndexOf(xs, x)
  {
    var ys := xs + [y];
    var i := IndexOf(xs, x);
    var j := IndexOf(ys, x);
    assert ys[i] == x;
    forall k | 0 <= k < j ensures ys[k] != x {
      assert ys[k] == ys[..j][k];
    }
    forall k | 0 <= k < i ensures ys[k] != x {
      assert ys[k] == xs[..i][k];
    }
  }

  /** Distinct(): every value of `xs` once, at its first occurrence. */
  function Distinct<T(==,!new)>(xs: seq<T>): (r: seq<T>)
    ensures forall x :: x in r <==> x in xs
    ensures NoDuplicates(r)
    ensures |r| <= |xs|
    ensures forall i, j :: 0 <= i < j < |r| ==> IndexOf(xs, r[i]) < IndexOf(xs, r[j])
  {
    if xs == [] then []
    else
      var pre := xs[..|xs| - 1];
      var x := xs[|xs| - 1];
      var r := Distinct(pre);
      assert xs == pre + [x];
      forall y | y in r ensures IndexOf(xs, y) == IndexOf(pre, y) < |pre| {
        IndexOfAppend(pre, x, y);
      }
      if x in r then r
      else
        assert IndexOf(xs, x) == |pre|;
        r + [x]
  }

  // ---------------------------------------------------------------------
  // Stable sorting under a total preorder

  ghost predicate TotalPreorder<T(!new)>(le: (T, T) -> bool)
  {
    && (forall a, b :: le(a, b) || le(b, a))
    && (forall a, b, c :: le(a, b) && le(b, c) ==> le(a, c))
  }

  predicate SortedBy<T>(s: seq<T>, le: (T, T) -> bool)
  {
    forall i, j :: 0 <= i < j < |s| ==> le(s[i], s[j])
  }

  /** Insert `x` before the first element it does not follow. */
  function Insert<T>(x: T, s: seq<T>, le: (T, T) -> bool): (r: seq<T>)
    ensures |r| == |s| + 1
  {
    if s == [] then [x]
    else if le(x, s[0]) then [x] + s
    else [s[0]] + Insert(x, s[1..], le)
  }

  lemma {:induction false} InsertCount<T>(x: T, s: seq<T>, le: (T, T) -> bool)
    ensures multiset(Insert(x, s, le)) == multiset(s) + multiset{x}
  {
    if s != [] && !le(x, s[0]) {
      InsertCount(x, s[1..], le);
      assert s == [s[0]] + s[1..];
    }
  }

  /** A bound below every element survives an insertion of a bounded element. */
  lemma InsertBound<T>(a: T, x: T, s: seq<T>, le: (T, T) -> bool)
    requires le(a, x) && forall k :: 0 <= k < |s| ==> le(a, s[k])
    ensures forall k :: 0 <= k < |Insert(x, s, le)| ==> le(a, Insert(x, s, le)[k])
  {
    var t := Insert(x, s, le);
    InsertCount(x, s, le);
    forall k | 0 <= k < |t| ensures le(a, t[k]) {
      var y := t[k];
      assert y in multiset(t);
      if y != x {
        assert y in multiset(s);
        var i :| 0 <= i < |s| && s[i] == y;
      }
    }
  }

  /** An element below every element of a sorted sequence heads a sorted sequence. */
  lemma SortedCons<T>(a: T, t: seq<T>, le: (T, T) -> bool)
    requires SortedBy(t, le) && forall k :: 0 <= k < |t| ==> le(a, t[k])
    ensures SortedBy([a] + t, le)
  {
    var r := [a] + t;
    forall i, j | 0 <= i < j < |r| ensures le(r[i], r[j]) {
      if i == 0 {
        assert r[j] == t[j - 1];
      } else {
        assert r[i] == t[i - 1] && r[j] == t[j - 1];
      }
    }
  }

  lemma {:induction false} InsertSorted<T(!new)>(x: T, s: seq<T>, le: (T, T) -> bool)
    requires TotalPreorder(le) && SortedBy(s, le)
    ensures SortedBy(Insert(x, s, le), le)
  {
    if s != [] && !le(x, s[0]) {
      var tail := s[1..];
      assert SortedBy(tail, le) by {
        forall i, j | 0 <= i < j < |tail| ensures le(tail[i], tail[j]) {
          assert tail[i] == s[i + 1] && tail[j] == s[j + 1];
        }
      }
      InsertSorted(x, tail, le);
      assert le(s[0], x);
      assert forall k :: 0 <= k < |tail| ==> le(s[0], tail[k]) by {
        forall k | 0 <= k < |tail| ensures le(s[0], tail[k]) {
          assert tail[k] == s[k + 1];
        }
      }
      InsertBound(s[0], x, tail, le);
      SortedCons(s[0], Insert(x, tail, le), le);
    } else if s != [] {
      SortedCons(x, s, le);
    }
  }

  /** OrderBy: a stable insertion sort. */
  function SortBy<T>(xs: seq<T>, le: (T, T) -> bool): (r: seq<T>)
    ensures |r| == |xs|
  {
    if xs == [] then [] else Insert(xs[0], SortBy(xs[1..], le), le)
  }

  /** Under a total preorder, OrderBy returns a sorted permutation. */
  lemma {:induction false} SortBySpec<T(!new)>(xs: seq<T>, le: (T, T) -> bool)
    requires TotalPreorder(le)
    ensures SortedBy(SortBy(xs, le), le)
    ensures multiset(SortBy(xs, le)) == multiset(xs)
  {
    if xs != [] {
      SortBySpec(xs[1..], le);
      InsertSorted(xs[0], SortBy(xs[1..], le), le);
      InsertCount(xs[0], SortBy(xs[1..], le), le);
      assert xs == [xs[0]] + xs[1..];
    }
  }

  /** The ascending order of an integer key. */
  function ByKey<T>(key: T -> int): (T, T) -> bool
  {
    (a: T, b: T) => key(a) <= key(b)
  }

  lemma ByKeyTotal<T(!new)>(key: T -> int)
    ensures TotalPreorder(ByKey(key))
  {
  }

  // ---------------------------------------------------------------------
  // Ordinal string order (SQLite's BINARY collation compares code points)

  predicate StrLe(a: string, b: string)
  {
    a == [] || (b != [] && (a[0] < b[0] || (a[0] == b[0] && StrLe(a[1..], b[1..]))))
  }

  predicate StrLt(a: string, b: string)
  {
    StrLe(a, b) && a != b
  }

  lemma {:induction false} StrLeTotal(a: string, b: string)
    ensures StrLe(a, b) || StrLe(b, a)
  {
    if a != [] && b != [] && a[0] == b[0] {
      StrLeTotal(a[1..], b[1..]);
    }
  }

  lemma {:induction false} StrLeTrans(a: string, b: string, c: string)
    requires StrLe(a, b) && StrLe(b, c)
    ensures StrLe(a, c)
  {
    if a != [] && b != [] && c != [] && a[0] == b[0] && b[0] == c[0] {
      StrLeTrans(a[1..], b[1..], c[1..]);
    }
  }

  lemma {:induction false} StrLeAntisym(a: string, b: string)
    requires StrLe(a, b) && StrLe(b, a)
    ensures a == b
  {
    if a != [] && b != [] {
      StrLeAntisym(a[1..], b[1..]);
      assert a == [a[0]] + a[1..] && b == [b[0]] + b[1..];
    }
  }

  lemma StrLeIsTotalPreorder()
    ensures TotalPreorder(StrLe)
  {
    forall a, b ensures StrLe(a, b) || StrLe(b, a) { StrLeTotal(a, b); }
    forall a, b, c | StrLe(a, b) && StrLe(b, c) ensures StrLe(a, c) { StrLeTrans(a, b, c); }
  }

  /** Two positions holding the same value count it twice. */
  lemma CountsTwoPositions<T>(r: seq<T>, i: nat, j: nat)
    requires i < j < |r|
    ensures multiset(r)[r[j]] >= if r[i] == r[j] then 2 else 1
  {
    assert r == r[..j] + r[j..];
    assert r[j] == r[j..][0];
    assert r[i] == r[..j][i];
  }

  /** A sorted sequence in which no value occurs twice is strictly ascending. */
  lemma SortedOnceStrict(r: seq<string>)
    requires SortedBy(r, StrLe) && forall x :: multiset(r)[x] <= 1
    ensures forall i, j :: 0 <= i < j < |r| ==> StrLt(r[i], r[j])
  {
    forall i, j | 0 <= i < j < |r| ensures StrLt(r[i], r[j]) {
      CountsTwoPositions(r, i, j);
    }
  }

  /** The distinct strings of `xs` in ascending ordinal order. */
  function SortedDistinct(xs: seq<string>): (r: seq<string>)
    ensures forall x :: x in r <==> x in xs
    ensures forall i, j :: 0 <= i < j < |r| ==> StrLt(r[i], r[j])
  {
    StrLeIsTotalPreorder();
    var d := Distinct(xs);
    var r := SortBy(d, StrLe);
    SortBySpec(d, StrLe);
    forall x ensures x in r <==> x in d {
      assert x in r <==> x in multiset(r);
    }
    forall x ensures multiset(r)[x] <= 1 {
      DistinctCountsOne(d, x);
    }
    SortedOnceStrict(r);
    r
  }

  lemma {:induction false} DistinctCountsOne<T>(d: seq<T>, x: T)
    requires NoDuplicates(d)
    ensures multiset(d)[x] <= 1
    decreases |d|
  {
    if d != [] {
      var pre := d[..|d| - 1];
      assert d == pre + [d[|d| - 1]];
      DistinctCountsOne(pre, x);
      if x == d[|d| - 1] {
        assert x !in pre;
      }
    }
  }

  // ---------------------------------------------------------------------
  // string.Split(char) and string.Join

  /** string.Join(sep, xs). */
  function Join(xs: seq<string>, sep: string): string
  {
    if xs == [] then ""
    else if |xs| == 1 then xs[0]
    else xs[0] + sep + Join(xs[1..], sep)
  }

  /** s.Split(sep): the pieces between separators, empty pieces included. */
  function Split(s: string, sep: char): (r: seq<string>)
    ensures |r| >= 1
    ensures forall k :: 0 <= k < |r| ==> sep !in r[k]
  {
    if s == [] then [""]
    else
      var rest := Split(s[1..], sep);
      if s[0] == sep then [""] + rest
      else [[s[0]] + rest[0]] + rest[1..]
  }

  /** Joining the pieces of a split restores the string. */
  lemma {:induction false} JoinSplit(s: string, sep: char)
    ensures Join(Split(s, sep), [sep]) == s
  {
    if s != [] {
      var rest := Split(s[1..], sep);
      JoinSplit(s[1..], sep);
      if s[0] == sep {
        assert Split(s, sep) == [""] + rest;
        assert ([""] + rest)[1..] == rest;
        assert s == [sep] + s[1..];
      } else {
        var r := Split(s, sep);
        assert r == [[s[0]] + rest[0]] + rest[1..];
        if |rest| == 1 {
          assert s == [s[0]] + rest[0];
        } else {
          assert r[1..] == rest[1..];
          assert Join(rest, [sep]) == rest[0] + [sep] + Join(rest[1..], [sep]);
          assert s == [s[0]] + (rest[0] + [sep] + Join(rest[1..], [sep]));
        }
      }
    }
  }

  /** A string without separators splits into itself alone. */
  lemma {:induction false} SplitNoSep(a: string, sep: char)
    requires sep !in a
    ensures Split(a, sep) == [a]
  {
    if a != [] {
      SplitNoSep(a[1..], sep);
      assert a == [a[0]] + a[1..];
    }
  }

  /** Splitting at the first separator. */
  lemma {:induction false} SplitAtSep(a: string, b: string, sep: char)
    requires sep !in a
    ensures Split(a + [sep] + b, sep) == [a] + Split(b, sep)
  {
    if a == [] {
      assert a + [sep] + b == [sep] + b;
      assert ([sep] + b)[1..] == b;
    } else {
      var s := a + [sep] + b;
      assert s[0] == a[0] && s[1..] == a[1..] + [sep] + b;
      SplitAtSep(a[1..], b, sep);
      assert a == [a[0]] + a[1..];
    }
  }

  /** Splitting a join restores the pieces when no piece holds the separator. */
  lemma {:induction false} SplitJoin(xs: seq<string>, sep: char)
    requires |xs| >= 1
    requires forall k :: 0 <= k < |xs| ==> sep !in xs[k]
    ensures Split(Join(xs, [sep]), sep) == xs
  {
    if |xs| == 1 {
      SplitNoSep(xs[0], sep);
    } else {
      SplitJoin(xs[1..], sep);
      SplitAtSep(xs[0], Join(xs[1..], [sep]), sep);
      assert xs == [xs[0]] + xs[1..];
    }
  }

  // ---------------------------------------------------------------------
  // Decimal rendering of a natural number (string interpolation of an int)

  function DigitChar(d: nat): char
    requires d < 10
  {
    "0123456789"[d]
  }

  function NatToString(n: nat): (r: string)
    ensures |r| >= 1
    ensures n >= 10 ==> |r| >= 2
    decreases n
  {
    if n < 10 then [DigitChar(n)] else NatToString(n / 10) + [DigitChar(n % 10)]
  }

  lemma {:induction false} NatToStringInjective(a: nat, b: nat)
    requires NatToString(a) == NatToString(b)
    ensures a == b
    decreases a
  {
    if a >= 10 && b >= 10 {
      var sa, sb := NatToString(a), NatToString(b);
      assert sa[|sa| - 1] == DigitChar(a % 10) && sb[|sb| - 1] == DigitChar(b % 10);
      assert sa[..|sa| - 1] == NatToString(a / 10);
      assert sb[..|sb| - 1] == NatToString(b / 10);
      NatToStringInjective(a / 10, b / 10);
    } else if a < 10 && b < 10 {
      assert DigitChar(a) == DigitChar(b);
    }
  }
}
