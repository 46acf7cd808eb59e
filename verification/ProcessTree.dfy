// Memory of a process and all its descendants, from one unordered process table.
module ProcessTree {
  import opened Prelude

  /** pid to (parent pid, resident KiB). */
  type Table = map<int, (int, nat)>

  /** path leads from root to its last process along child links. */
  predicate Path(rows: Table, root: int, path: seq<int>) {
    && path != []
    && var last := |path| - 1;
       if last == 0 then path[0] == root
       else path[last] in rows && rows[path[last]].0 == path[last - 1] && Path(rows, root, path[..last])
  }

  ghost predicate Reachable(rows: Table, root: int, pid: int) {
    exists path :: Path(rows, root, path) && path[|path| - 1] == pid
  }

  lemma RootIsReachable(rows: Table, root: int)
    ensures Reachable(rows, root, root)
  {
    assert Path(rows, root, [root]);
  }

  lemma ChildIsReachable(rows: Table, root: int, pid: int)
    requires pid in rows && Reachable(rows, root, rows[pid].0)
    ensures Reachable(rows, root, pid)
  {
    var path :| Path(rows, root, path) && path[|path| - 1] == rows[pid].0;
    assert (path + [pid])[..|path|] == path;
  }

  /** No child link leaves the set. */
  predicate Closed(rows: Table, included: set<int>) {
    forall pid :: pid in rows && rows[pid].0 in included ==> pid in included
  }

  lemma {:induction false} ClosedHoldsPaths(rows: Table, root: int, path: seq<int>, included: set<int>)
    requires root in included && Closed(rows, included) && Path(rows, root, path)
    ensures path[|path| - 1] in included
    decreases |path|
  {
    if |path| == 1 {
    } else {
      var last := |path| - 1;
      ClosedHoldsPaths(rows, root, path[..last], included);
      var pid := path[last];
    }
  }

  predicate Enumerates(order: seq<int>, rows: Table) {
    Unique(order) && (forall i :: 0 <= i < |order| ==> order[i] in rows) && forall pid :: pid in rows ==> pid in order
  }

  /** KiB of the listed processes that are included. */
  function Total(rows: Table, order: seq<int>, included: set<int>): nat
    requires forall i :: 0 <= i < |order| ==> order[i] in rows
  {
    if order == [] then 0
    else
      var pid := order[|order| - 1];
      Total(rows, order[..|order| - 1], included) + (if pid in included then rows[pid].1 else 0)
  }

  /** What each row adds to the figure. */
  function Memory(rows: Table, order: seq<int>, included: set<int>): seq<int>
    requires forall i :: 0 <= i < |order| ==> order[i] in rows
  {
    seq(|order|, i requires 0 <= i < |order| => if order[i] in included then rows[order[i]].1 else 0)
  }

  lemma {:induction false} TotalIsTheSum(rows: Table, order: seq<int>, included: set<int>)
    requires forall i :: 0 <= i < |order| ==> order[i] in rows
    ensures Total(rows, order, included) == Sum(Memory(rows, order, included))
  {
    if order != [] {
      var before := order[..|order| - 1];
      TotalIsTheSum(rows, before, included);
      assert Memory(rows, order, included)[..|before|] == Memory(rows, before, included);
    }
  }

  /** The closure loop ends with exactly the processes reachable from the root, whatever
      order the rows come in, through cycles, and with or without a row for the root. */
  method ProcessTreeRssBytes(rows: Table, order: seq<int>, root: int) returns (bytes: nat, included: set<int>)
    requires Enumerates(order, rows)
    ensures forall pid :: pid in included <==> Reachable(rows, root, pid)
    ensures bytes == Sum(Memory(rows, order, included)) * 1024
  {
    included := {root};
    RootIsReachable(rows, root);
    var changed := true;
    while changed
      invariant root in included && included <= rows.Keys + {root}
      invariant forall pid :: pid in included ==> Reachable(rows, root, pid)
      invariant !changed ==> Closed(rows, included)
      decreases rows.Keys + {root} - included, changed
    {
      changed := false;
      ghost var start, added := included, root;
      for i := 0 to |order|
        invariant start <= included <= rows.Keys + {root}
            && (if changed then added in included && added !in start else included == start)
        invariant forall pid :: pid in included ==> Reachable(rows, root, pid)
        invariant !changed ==> forall k :: 0 <= k < i ==> rows[order[k]].0 in included ==> order[k] in included
      {
        var pid := order[i];
        if rows[pid].0 in included && pid !in included {
          ChildIsReachable(rows, root, pid);
          included := included + {pid};
          changed, added := true, pid;
        }
      }
      if changed {
        StrictlyFewer(start, included, rows.Keys + {root}, added);
      }
    }
    forall pid | Reachable(rows, root, pid) ensures pid in included {
      var path :| Path(rows, root, path) && path[|path| - 1] == pid;
      ClosedHoldsPaths(rows, root, path, included);
    }
    bytes := 0;
    for i := 0 to |order|
      invariant bytes == Total(rows, order[..i], included)
    {
      assert order[..i + 1][..i] == order[..i];
      if order[i] in included {
        bytes := bytes + rows[order[i]].1;
      }
    }
    assert order[..|order|] == order;
    TotalIsTheSum(rows, order, included);
    bytes := bytes * 1024;
  }

  lemma StrictlyFewer(start: set<int>, included: set<int>, all: set<int>, added: int)
    requires start <= included <= all && added in included && added !in start
    ensures all - included < all - start
  {
  }

  lemma {:induction false} TotalWithout(rows: Table, order: seq<int>, i: nat, included: set<int>)
    requires i < |order| && forall k :: 0 <= k < |order| ==> order[k] in rows
    ensures Total(rows, order, included)
            == Total(rows, order[..i] + order[i + 1..], included)
               + (if order[i] in included then rows[order[i]].1 else 0)
  {
    var last := |order| - 1;
    var rest := order[..i] + order[i + 1..];
    if i == last {
      assert rest == order[..last];
    } else {
      TotalWithout(rows, order[..last], i, included);
      assert order[..last][..i] + order[..last][i + 1..] == rest[..|rest| - 1];
    }
  }

  lemma SameWithout(order: seq<int>, other: seq<int>, i: nat)
    requires Unique(order) && Unique(other) && forall pid :: pid in order <==> pid in other
    requires order != [] && i < |other| && other[i] == order[|order| - 1]
    ensures var front, rest := order[..|order| - 1], other[..i] + other[i + 1..];
            Unique(front) && Unique(rest) && forall pid :: pid in front <==> pid in rest
  {
    var pid, front, rest := other[i], order[..|order| - 1], other[..i] + other[i + 1..];
    forall x ensures x in front <==> x in rest {
      assert x in order <==> x in front || x == pid;
    }
  }

  /** So the figure does not depend on the order the table was printed in. */
  lemma {:induction false} RowOrderIsIrrelevant(rows: Table, order: seq<int>, other: seq<int>, included: set<int>)
    requires Unique(order) && Unique(other) && forall pid :: pid in order <==> pid in other
    requires forall k :: 0 <= k < |order| ==> order[k] in rows
    requires forall k :: 0 <= k < |other| ==> other[k] in rows
    ensures Total(rows, order, included) == Total(rows, other, included)
    ensures Sum(Memory(rows, order, included)) == Sum(Memory(rows, other, included))
  {
    TotalIsTheSum(rows, order, included);
    TotalIsTheSum(rows, other, included);
    if order == [] {
      HasFirst(other);
    } else {
      var pid := order[|order| - 1];
      assert pid in other;
      var i :| 0 <= i < |other| && other[i] == pid;
      SameWithout(order, other, i);
      RowOrderIsIrrelevant(rows, order[..|order| - 1], other[..i] + other[i + 1..], included);
      TotalWithout(rows, other, i, included);
    }
  }
}
