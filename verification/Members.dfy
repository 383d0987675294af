/** Member lists: duplicates and empty ids dropped, then sorted by name. */
module Members {
  import opened RaftTypes

  /** Strict lexicographic order on ids. */
  predicate Before(a: NodeId, b: NodeId)
    decreases |a|
  {
    b != "" && (a == "" || a[0] < b[0] || (a[0] == b[0] && Before(a[1..], b[1..])))
  }

  lemma {:induction false} BeforeTransitive(a: NodeId, b: NodeId, c: NodeId)
    requires Before(a, b) && Before(b, c)
    ensures Before(a, c)
    decreases |a|
  {
    if a != "" && a[0] == b[0] == c[0] {
      BeforeTransitive(a[1..], b[1..], c[1..]);
    }
  }

  lemma {:induction false} BeforeTotal(a: NodeId, b: NodeId)
    ensures Before(a, b) || Before(b, a) || a == b
    ensures !(Before(a, b) && Before(b, a)) && !Before(a, a)
    decreases |a|
  {
    if a != "" {
      BeforeTotal(a[1..], if b != "" then b[1..] else "");
      if b != "" && a[0] == b[0] && a[1..] == b[1..] {
        assert a == [a[0]] + a[1..] && b == [b[0]] + b[1..];
      }
    }
  }

  /** First occurrences of the nonempty ids, in order of appearance. */
  function Distinct(ids: seq<NodeId>): seq<NodeId> {
    if ids == [] then []
    else
      var rest, last := Distinct(ids[..|ids| - 1]), ids[|ids| - 1];
      if last != "" && last !in rest then rest + [last] else rest
  }

  /** Sinks one id from the right end into a sorted list. */
  function Insert(ids: seq<NodeId>, x: NodeId): seq<NodeId> {
    if ids == [] || !Before(x, ids[|ids| - 1]) then ids + [x]
    else Insert(ids[..|ids| - 1], x) + [ids[|ids| - 1]]
  }

  function Sort(ids: seq<NodeId>): seq<NodeId> {
    if ids == [] then [] else Insert(Sort(ids[..|ids| - 1]), ids[|ids| - 1])
  }

  function Normalize(ids: seq<NodeId>): seq<NodeId> {
    Sort(Distinct(ids))
  }

  predicate Ascending(ids: seq<NodeId>) {
    forall j, k :: 0 <= j < k < |ids| ==> Before(ids[j], ids[k])
  }

  predicate NoRepeats(ids: seq<NodeId>) {
    forall j, k :: 0 <= j < k < |ids| ==> ids[j] != ids[k]
  }

  function IdSet(ids: seq<NodeId>): set<NodeId> {
    set x | x in ids && x != ""
  }

  /** The same members, in order. */
  predicate Lists(installed: seq<NodeId>, ids: seq<NodeId>) {
    Ascending(installed) && IdSet(installed) == IdSet(ids) && "" !in installed
  }

  lemma {:induction false} DistinctSpec(ids: seq<NodeId>)
    ensures NoRepeats(Distinct(ids))
    ensures forall x :: x in Distinct(ids) <==> x in ids && x != ""
  {
    if ids != [] {
      DistinctSpec(ids[..|ids| - 1]);
      assert ids == ids[..|ids| - 1] + [ids[|ids| - 1]];
    }
  }

  lemma {:induction false} InsertSpec(ids: seq<NodeId>, x: NodeId)
    requires Ascending(ids) && x !in ids
    ensures Ascending(Insert(ids, x))
    ensures forall y :: y in Insert(ids, x) <==> y == x || y in ids
  {
    if ids != [] {
      var front, last := ids[..|ids| - 1], ids[|ids| - 1];
      assert ids == front + [last];
      BeforeTotal(x, last);
      if Before(x, last) {
        InsertSpec(front, x);
        forall j | 0 <= j < |Insert(front, x)| ensures Before(Insert(front, x)[j], last) {
          var y := Insert(front, x)[j];
          assert y in Insert(front, x);
          if y != x {
            var k :| 0 <= k < |front| && front[k] == y;
            assert Before(ids[k], ids[|ids| - 1]);
          }
        }
      } else {
        forall j | 0 <= j < |ids| ensures Before(ids[j], x) {
          if j < |ids| - 1 { BeforeTransitive(ids[j], last, x); }
        }
      }
    }
  }

  lemma {:induction false} SortSpec(ids: seq<NodeId>)
    requires NoRepeats(ids)
    ensures Ascending(Sort(ids))
    ensures forall x :: x in Sort(ids) <==> x in ids
  {
    if ids != [] {
      SortSpec(ids[..|ids| - 1]);
      InsertSpec(Sort(ids[..|ids| - 1]), ids[|ids| - 1]);
      assert ids == ids[..|ids| - 1] + [ids[|ids| - 1]];
    }
  }

  /** The normal form is strictly ascending and holds exactly the nonempty ids. */
  lemma NormalizeSpec(ids: seq<NodeId>)
    ensures Ascending(Normalize(ids)) && IdSet(Normalize(ids)) == IdSet(ids) && "" !in Normalize(ids)
  {
    DistinctSpec(ids);
    SortSpec(Distinct(ids));
  }

  lemma BothEmpty(a: seq<NodeId>, b: seq<NodeId>)
    requires forall x :: x in a <==> x in b
    ensures a == [] <==> b == []
  {
    if a != [] { assert a[0] in b; }
    if b != [] { assert b[0] in a; }
  }

  /** A strictly ascending list is determined by its elements. */
  lemma {:induction false} AscendingUnique(a: seq<NodeId>, b: seq<NodeId>)
    requires Ascending(a) && Ascending(b)
    requires forall x :: x in a <==> x in b
    ensures a == b
  {
    BothEmpty(a, b);
    if a != [] && b != [] {
      var m, n := a[|a| - 1], b[|b| - 1];
      BeforeTotal(m, n);
      assert m in b && n in a;
      var j :| 0 <= j < |b| && b[j] == m;
      var k :| 0 <= k < |a| && a[k] == n;
      assert m == n;
      var front, rest := a[..|a| - 1], b[..|b| - 1];
      BeforeTotal(m, m);
      assert a == front + [m] && b == rest + [m];
      assert m !in front && m !in rest;
      assert forall x :: x in front <==> x in a && x != m;
      assert forall x :: x in rest <==> x in b && x != m;
      AscendingUnique(front, rest);
    }
  }

  /** The normal form depends only on the set of ids: order, repetitions and empty ids do not matter. */
  lemma NormalizeBySet(a: seq<NodeId>, b: seq<NodeId>)
    ensures Normalize(a) == Normalize(b) <==> IdSet(a) == IdSet(b)
    ensures Normalize(Normalize(a)) == Normalize(a)
  {
    NormalizeSpec(a);
    NormalizeSpec(b);
    NormalizeSpec(Normalize(a));
    if IdSet(a) == IdSet(b) {
      assert forall x :: x in Normalize(a) <==> x in IdSet(Normalize(a));
      assert forall x :: x in Normalize(b) <==> x in IdSet(Normalize(b));
      AscendingUnique(Normalize(a), Normalize(b));
    }
    assert forall x :: x in Normalize(a) <==> x in IdSet(Normalize(a));
    assert forall x :: x in Normalize(Normalize(a)) <==> x in IdSet(Normalize(Normalize(a)));
    AscendingUnique(Normalize(Normalize(a)), Normalize(a));
  }
}
