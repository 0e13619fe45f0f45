/**
 Memory sources form a forest: each names the source it was promoted from.  The
 recursive query of `command` (src/application/memory_governance.py) walks it without
 DISTINCT.
 */
module MemoryForest {
  import opened Base

  /** Numbered in creation order. */
  type SourceId(==, !new) = nat

  type Parents = map<SourceId, Option<SourceId>>

  /** A source is registered after the source it copies. */
  ghost predicate Forest(parents: Parents) {
    forall s <- parents :: parents[s].Some? ==> parents[s].value in parents && parents[s].value < s
  }

  function ParentOf(parents: Parents, s: SourceId): Option<SourceId> {
    if s in parents then parents[s] else None
  }

  predicate Descends(parents: Parents, s: SourceId, root: SourceId)
    requires Forest(parents)
    decreases s
  {
    var p := ParentOf(parents, s);
    p.Some? && (p.value == root || Descends(parents, p.value, root))
  }

  // ------------------------------------------------------ the recursive query

  /** How many rows of `s` the n-th iteration of the query yields. */
  function RowsAt(parents: Parents, root: SourceId, n: nat, s: SourceId): nat {
    var p := ParentOf(parents, s);
    if p.None? then 0
    else if n == 0 then (if p.value == root then 1 else 0)
    else RowsAt(parents, root, n - 1, p.value)
  }

  /** UNION ALL of the first n iterations. */
  function Rows(parents: Parents, root: SourceId, n: nat, s: SourceId): nat {
    if n == 0 then 0 else Rows(parents, root, n - 1, s) + RowsAt(parents, root, n - 1, s)
  }

  /** The root is no row of its own query. */
  lemma {:induction false} NeverAboveItself(parents: Parents, root: SourceId, n: nat, s: SourceId)
    requires Forest(parents) && s <= root
    ensures RowsAt(parents, root, n, s) == 0
    decreases n
  {
    if n > 0 && ParentOf(parents, s).Some? {
      NeverAboveItself(parents, root, n - 1, ParentOf(parents, s).value);
    }
  }

  /** One more level down: a source's rows are its parent's, one iteration later. */
  lemma {:induction false} RowsFollowParent(parents: Parents, root: SourceId, n: nat, s: SourceId)
    requires Forest(parents) && ParentOf(parents, s).Some?
    ensures Rows(parents, root, n + 1, s)
         == (if ParentOf(parents, s).value == root then 1 else 0) + Rows(parents, root, n, ParentOf(parents, s).value)
    decreases n
  {
    if n > 0 {
      RowsFollowParent(parents, root, n - 1, s);
    }
  }

  lemma {:induction false} NoRowsWithoutParent(parents: Parents, root: SourceId, n: nat, s: SourceId)
    requires ParentOf(parents, s).None?
    ensures Rows(parents, root, n, s) == 0
  {
    if n > 0 {
      NoRowsWithoutParent(parents, root, n - 1, s);
    }
  }

  lemma {:induction false} NoRowsAtRoot(parents: Parents, root: SourceId, n: nat)
    requires Forest(parents)
    ensures Rows(parents, root, n, root) == 0
  {
    if n > 0 {
      NeverAboveItself(parents, root, n - 1, root);
      NoRowsAtRoot(parents, root, n - 1);
    }
  }

  /** Run to its end, the query yields every descendant exactly once, and nothing else. */
  lemma {:induction false} QueryYieldsDescendants(parents: Parents, root: SourceId, n: nat, s: SourceId)
    requires Forest(parents) && n > s
    ensures Rows(parents, root, n, s) == if Descends(parents, s, root) then 1 else 0
    decreases s
  {
    var p := ParentOf(parents, s);
    if p.None? {
      NoRowsWithoutParent(parents, root, n, s);
    } else {
      RowsFollowParent(parents, root, n - 1, s);
      if p.value == root {
        NoRowsAtRoot(parents, root, n - 1);
      } else {
        QueryYieldsDescendants(parents, root, n - 1, p.value);
      }
    }
  }

  // ------------------------------------------------------------ in order

  /** `ORDER BY source_id`: the descendants among the first n sources. */
  function Descendants(parents: Parents, root: SourceId, n: nat): seq<SourceId>
    requires Forest(parents)
  {
    if n == 0 then []
    else Descendants(parents, root, n - 1) + if Descends(parents, n - 1, root) then [n - 1] else []
  }

  lemma {:induction false} DescendantsAreListed(parents: Parents, root: SourceId, n: nat)
    requires Forest(parents)
    ensures var list := Descendants(parents, root, n);
      && (forall s: SourceId :: s in list <==> s < n && Descends(parents, s, root))
      && (forall i, j :: 0 <= i < j < |list| ==> list[i] < list[j])
  {
    if n > 0 {
      DescendantsAreListed(parents, root, n - 1);
      var before := Descendants(parents, root, n - 1);
      forall i | 0 <= i < |before|
        ensures before[i] < n - 1
      {
        assert before[i] in before;
      }
    }
  }

  lemma {:induction false} DescendantsComeLater(parents: Parents, s: SourceId, root: SourceId)
    requires Forest(parents) && Descends(parents, s, root)
    ensures root < s && s in parents
    decreases s
  {
    var p := ParentOf(parents, s).value;
    if p != root {
      DescendantsComeLater(parents, p, root);
    }
  }

  lemma {:induction false} DescendsCompose(parents: Parents, t: SourceId, s: SourceId, root: SourceId)
    requires Forest(parents) && Descends(parents, t, s) && Descends(parents, s, root)
    ensures Descends(parents, t, root)
    decreases t
  {
    var p := ParentOf(parents, t).value;
    if p != s {
      DescendsCompose(parents, p, s, root);
    }
  }
}
