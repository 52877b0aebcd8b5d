/** GroupByTimeWindow: splits one equipment's track-in events (already in
    time order) into clusters. An event joins the open cluster when its time
    is within five minutes of the time of that cluster's FIRST event;
    otherwise it closes the cluster and opens a new one. The same loop
    appears in the background service, the dashboard and the work progress
    page; they differ only in how an event's time is read, which is the
    `key` parameter here. */
module Clustering {
  import opened Seqs

  /** The five-minute window, in seconds. */
  const WindowSeconds: int := 300

  /** |a - b| <= window. */
  predicate Near(a: int, b: int)
  {
    -WindowSeconds <= a - b <= WindowSeconds
  }

  /** The clusters of `xs`, built event by event as the loop does. */
  function Clusters<E>(xs: seq<E>, key: E -> int): (gs: seq<seq<E>>)
    ensures forall k :: 0 <= k < |gs| ==> gs[k] != []
    ensures |gs| <= |xs|
    ensures xs != [] ==> gs != []
    decreases |xs|
  {
    if xs == [] then []
    else
      var gs := Clusters(xs[..|xs| - 1], key);
      var x := xs[|xs| - 1];
      if gs != [] && Near(key(x), key(gs[|gs| - 1][0])) then
        gs[..|gs| - 1] + [gs[|gs| - 1] + [x]]
      else
        gs + [[x]]
  }

  /** What a clustering of `xs` is, independently of how it is built: the
      clusters are non-empty and concatenate to `xs`; every event of a
      cluster is within the window of the cluster's first event; and the
      first event of every later cluster is outside the window of the
      previous cluster's first event. */
  ghost predicate IsClustering<E>(gs: seq<seq<E>>, xs: seq<E>, key: E -> int)
  {
    && Flatten(gs) == xs
    && (forall k :: 0 <= k < |gs| ==> gs[k] != [])
    && (forall k, j :: 0 <= k < |gs| && 0 <= j < |gs[k]| ==> Near(key(gs[k][j]), key(gs[k][0])))
    && (forall k :: 0 < k < |gs| ==> !Near(key(gs[k][0]), key(gs[k - 1][0])))
  }

  /** Appending an event that is within the window of the last cluster's
      first event extends that cluster. */
  lemma JoinLastCluster<E>(gs: seq<seq<E>>, pre: seq<E>, x: E, key: E -> int)
    requires IsClustering(gs, pre, key) && gs != []
    requires Near(key(x), key(gs[|gs| - 1][0]))
    ensures IsClustering(gs[..|gs| - 1] + [gs[|gs| - 1] + [x]], pre + [x], key)
  {
    var g := gs[|gs| - 1];
    var front := gs[..|gs| - 1];
    var r := front + [g + [x]];
    assert r[..|r| - 1] == front;
    assert gs == front + [g];
    assert Flatten(r) == Flatten(front) + (g + [x]);
    assert Flatten(gs) == Flatten(front) + g;
    forall k, j | 0 <= k < |r| && 0 <= j < |r[k]| ensures Near(key(r[k][j]), key(r[k][0])) {
      if k < |r| - 1 {
        assert r[k] == gs[k];
      } else if j < |g| {
        assert r[k][j] == g[j] && r[k][0] == g[0];
      }
    }
    forall k | 0 < k < |r| ensures !Near(key(r[k][0]), key(r[k - 1][0])) {
      assert r[k - 1] == gs[k - 1];
      assert r[k][0] == gs[k][0];
    }
  }

  /** Appending an event outside the window of the last cluster's first
      event opens a new cluster. */
  lemma OpenNewCluster<E>(gs: seq<seq<E>>, pre: seq<E>, x: E, key: E -> int)
    requires IsClustering(gs, pre, key)
    requires gs != [] ==> !Near(key(x), key(gs[|gs| - 1][0]))
    ensures IsClustering(gs + [[x]], pre + [x], key)
  {
    var r := gs + [[x]];
    assert r[..|r| - 1] == gs;
    forall k | 0 < k < |r| ensures !Near(key(r[k][0]), key(r[k - 1][0])) {
      assert r[k - 1] == gs[k - 1];
    }
  }

  /** The loop's clusters meet the description. */
  lemma {:induction false} ClustersAreClustering<E>(xs: seq<E>, key: E -> int)
    ensures IsClustering(Clusters(xs, key), xs, key)
    decreases |xs|
  {
    if xs != [] {
      var pre := xs[..|xs| - 1];
      var x := xs[|xs| - 1];
      var gs := Clusters(pre, key);
      var r := Clusters(xs, key);
      ClustersAreClustering(pre, key);
      assert xs == pre + [x];
      if gs != [] && Near(key(x), key(gs[|gs| - 1][0])) {
        assert r == gs[..|gs| - 1] + [gs[|gs| - 1] + [x]];
        JoinLastCluster(gs, pre, x, key);
      } else {
        assert r == gs + [[x]];
        OpenNewCluster(gs, pre, x, key);
      }
      assert IsClustering(r, xs, key);
    }
  }

  /** Removing a last cluster of one event leaves a clustering of the
      events before it; that event is outside the window of the cluster
      before it. */
  lemma DropLastCluster<E>(gs: seq<seq<E>>, xs: seq<E>, key: E -> int)
    requires IsClustering(gs, xs, key) && gs != [] && |gs[|gs| - 1]| == 1
    ensures xs != [] && gs[|gs| - 1] == [xs[|xs| - 1]]
    ensures |gs| > 1 ==> !Near(key(xs[|xs| - 1]), key(gs[..|gs| - 1][|gs| - 2][0]))
    ensures IsClustering(gs[..|gs| - 1], xs[..|xs| - 1], key)
  {
    var front := gs[..|gs| - 1];
    var g := gs[|gs| - 1];
    assert gs == front + [g];
    assert Flatten(gs) == Flatten(front) + g;
    forall k | 0 < k < |front| ensures !Near(key(front[k][0]), key(front[k - 1][0])) {
      assert front[k] == gs[k] && front[k - 1] == gs[k - 1];
    }
  }

  /** Removing the last event of a last cluster of several events leaves a
      clustering of the events before it; that event is within the window
      of its cluster's first event. */
  lemma ShrinkLastCluster<E>(gs: seq<seq<E>>, xs: seq<E>, key: E -> int)
    requires IsClustering(gs, xs, key) && gs != [] && |gs[|gs| - 1]| > 1
    ensures xs != [] && gs[|gs| - 1][|gs[|gs| - 1]| - 1] == xs[|xs| - 1]
    ensures Near(key(xs[|xs| - 1]), key(gs[|gs| - 1][0]))
    ensures IsClustering(gs[..|gs| - 1] + [gs[|gs| - 1][..|gs[|gs| - 1]| - 1]], xs[..|xs| - 1], key)
  {
    var n := |gs|;
    var front := gs[..n - 1];
    var g := gs[n - 1];
    var g' := g[..|g| - 1];
    var gs' := front + [g'];
    assert Flatten(gs') == xs[..|xs| - 1] && g[|g| - 1] == xs[|xs| - 1] by {
      assert gs == front + [g];
      assert Flatten(gs) == Flatten(front) + g;
      assert g == g' + [g[|g| - 1]];
      assert Flatten(gs') == Flatten(front) + g';
    }
    assert Near(key(g[|g| - 1]), key(g[0])) by {
      assert gs[n - 1][|g| - 1] == g[|g| - 1];
    }
    assert forall k :: 0 <= k < n - 1 ==> gs'[k] == gs[k];
    assert |gs'| == n && gs'[n - 1] == g';
    assert forall k :: 0 <= k < |gs'| ==> gs'[k] != [];
    forall k, j | 0 <= k < |gs'| && 0 <= j < |gs'[k]| ensures Near(key(gs'[k][j]), key(gs'[k][0])) {
      if k == n - 1 {
        assert gs'[k][j] == gs[k][j] && gs'[k][0] == gs[k][0];
      }
    }
    forall k | 0 < k < |gs'| ensures !Near(key(gs'[k][0]), key(gs'[k - 1][0])) {
      assert gs'[k][0] == gs[k][0];
    }
  }

  /** Nothing else meets the description: a clustering of `xs` is unique. */
  lemma {:induction false} ClusteringIsUnique<E>(gs: seq<seq<E>>, xs: seq<E>, key: E -> int)
    requires IsClustering(gs, xs, key)
    ensures gs == Clusters(xs, key)
    decreases |xs|
  {
    if gs == [] {
      assert xs == Flatten(gs) == [];
    } else {
      var n := |gs|;
      var g := gs[n - 1];
      var front := gs[..n - 1];
      assert gs == front + [g];
      if |g| == 1 {
        var pre, x := xs[..|xs| - 1], xs[|xs| - 1];
        assert && xs == pre + [x] && g == [x]
               && (front != [] ==> !Near(key(x), key(front[|front| - 1][0])))
               && front == Clusters(pre, key) by {
          DropLastCluster(gs, xs, key);
          ClusteringIsUnique(front, pre, key);
        }
        OpenedCluster(front, pre, x, key);
      } else {
        var pre, x := xs[..|xs| - 1], xs[|xs| - 1];
        var g' := g[..|g| - 1];
        assert && xs == pre + [x] && g == g' + [x] && g' != []
               && Near(key(x), key(g'[0]))
               && front + [g'] == Clusters(pre, key) by {
          ShrinkLastCluster(gs, xs, key);
          ClusteringIsUnique(front + [g'], pre, key);
        }
        JoinedCluster(front, g', pre, x, key);
      }
    }
  }

  /** An event outside the window of the last cluster's first event opens a
      cluster of its own. */
  lemma OpenedCluster<E>(front: seq<seq<E>>, pre: seq<E>, x: E, key: E -> int)
    requires front == Clusters(pre, key)
    requires front != [] ==> !Near(key(x), key(front[|front| - 1][0]))
    ensures front + [[x]] == Clusters(pre + [x], key)
  {
    assert (pre + [x])[..|pre|] == pre;
  }

  /** An event within the window of the last cluster's first event joins
      that cluster. */
  lemma JoinedCluster<E>(front: seq<seq<E>>, g: seq<E>, pre: seq<E>, x: E, key: E -> int)
    requires front + [g] == Clusters(pre, key)
    requires g != [] && Near(key(x), key(g[0]))
    ensures front + [g + [x]] == Clusters(pre + [x], key)
  {
    var c := front + [g];
    assert (pre + [x])[..|pre|] == pre;
    assert c[..|c| - 1] == front;
  }

  /** No events give no clusters; otherwise the clusters give back the
      events, in order. */
  lemma ClustersFlatten<E>(xs: seq<E>, key: E -> int)
    ensures Flatten(Clusters(xs, key)) == xs
    ensures Clusters(xs, key) == [] <==> xs == []
  {
    ClustersAreClustering(xs, key);
  }

  /** GroupByTimeWindow, the loop of the background service and of both
      progress pages. */
  method GroupByTimeWindow<E>(xs: seq<E>, key: E -> int) returns (groups: seq<seq<E>>)
    ensures groups == Clusters(xs, key)
    ensures IsClustering(groups, xs, key)
  {
    ClustersAreClustering(xs, key);
    if |xs| == 0 {
      return [];
    }
    groups := [];
    var currentGroup := [xs[0]];
    var currentTime := key(xs[0]);
    assert xs[..1] == [xs[0]];
    for i := 1 to |xs|
      invariant currentGroup != [] && currentTime == key(currentGroup[0])
      invariant groups + [currentGroup] == Clusters(xs[..i], key)
    {
      assert xs[..i + 1][..i] == xs[..i];
      var timeDiffOk := Near(key(xs[i]), currentTime);
      if timeDiffOk {
        currentGroup := currentGroup + [xs[i]];
      } else {
        groups := groups + [currentGroup];
        currentGroup := [xs[i]];
        currentTime := key(xs[i]);
      }
    }
    assert xs[..|xs|] == xs;
    if |currentGroup| > 0 {
      groups := groups + [currentGroup];
    }
  }
}
