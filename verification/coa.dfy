/** Chart of accounts: account types, the account hierarchy, its derived
    names and depths, and the parent-assignment check that keeps the
    hierarchy free of cycles (coa/models.py, coa/serializers.py). */
module Coa {
  import opened Common

  /** AS, LI, EQ, RE or EX (the table does not restrict the code). */
  datatype AccountType = AccountType(code: string, name: string)

  datatype Account = Account(
    code: string,
    name: string,
    accountType: AccountType,
    isActive: bool,
    parent: Option<nat>)

  /** The account table, held as an arena: an account's id is its index. */
  type Chart = seq<Account>

  /** The string form shared by account types and accounts: code, " - ", name. */
  function Label(code: string, name: string): (r: string)
    ensures |r| == |code| + 3 + |name|
    ensures r[..|code|] == code && r[|code|..|code| + 3] == " - "
    ensures r[|code| + 3..] == name
  {
    code + " - " + name
  }

  /** String form of an account type: its code, " - ", its name. */
  function TypeLabel(t: AccountType): (r: string)
    ensures |r| == |t.code| + 3 + |t.name|
    ensures r[..|t.code|] == t.code && r[|t.code|..|t.code| + 3] == " - "
    ensures r[|t.code| + 3..] == t.name
  {
    Label(t.code, t.name)
  }

  /** String form of an account: its code, " - ", its name. */
  function AccountLabel(a: Account): (r: string)
    ensures |r| == |a.code| + 3 + |a.name|
    ensures r[..|a.code|] == a.code && r[|a.code|..|a.code| + 3] == " - "
    ensures r[|a.code| + 3..] == a.name
  {
    Label(a.code, a.name)
  }

  // ---------------------------------------------------------------------
  // Walking up the parent chain
  // ---------------------------------------------------------------------

  /** Account i exists and following parents from it reaches a root
      within the given number of steps. */
  predicate RootWithin(chart: Chart, i: nat, steps: nat)
    decreases steps
  {
    i < |chart| &&
    match chart[i].parent
    case None => true
    case Some(p) => steps > 0 && RootWithin(chart, p, steps - 1)
  }

  /** The walk from i ends at a root; bounded by the number of accounts. */
  predicate Rooted(chart: Chart, i: nat)
  {
    RootWithin(chart, i, |chart|)
  }

  /** Every account's parent chain ends at a root: the hierarchy has no cycle. */
  predicate Acyclic(chart: Chart)
  {
    forall i: nat :: i < |chart| ==> Rooted(chart, i)
  }

  /** The account and its ancestors, nearest first, ending at a root. */
  function AncestryWithin(chart: Chart, i: nat, steps: nat): (r: seq<nat>)
    requires RootWithin(chart, i, steps)
    ensures 1 <= |r| <= steps + 1 && r[0] == i
    ensures forall k :: 0 <= k < |r| ==> r[k] < |chart|
    decreases steps
  {
    match chart[i].parent
    case None => [i]
    case Some(p) => [i] + AncestryWithin(chart, p, steps - 1)
  }

  function Ancestry(chart: Chart, i: nat): seq<nat>
    requires Rooted(chart, i)
  {
    AncestryWithin(chart, i, |chart|)
  }

  function FullNameWithin(chart: Chart, i: nat, steps: nat): string
    requires RootWithin(chart, i, steps)
    decreases steps
  {
    match chart[i].parent
    case None => chart[i].name
    case Some(p) => FullNameWithin(chart, p, steps - 1) + " > " + chart[i].name
  }

  function LevelWithin(chart: Chart, i: nat, steps: nat): nat
    requires RootWithin(chart, i, steps)
    decreases steps
  {
    match chart[i].parent
    case None => 1
    case Some(p) => LevelWithin(chart, p, steps - 1) + 1
  }

  /** Hierarchical name: the ancestors' names from the root down, joined by " > ". */
  function FullName(chart: Chart, i: nat): (r: string)
    requires Rooted(chart, i)
    ensures |chart[i].name| <= |r| && r[|r| - |chart[i].name|..] == chart[i].name
  {
    var r := FullNameWithin(chart, i, |chart|);
    assert chart[i].parent.Some? ==> r[|r| - |chart[i].name|..] == chart[i].name;
    r
  }

  /** Depth in the hierarchy: the length of the ancestor chain, so a root
      is at level 1 and no account is deeper than the number of accounts. */
  function Level(chart: Chart, i: nat): (r: nat)
    requires Rooted(chart, i)
    ensures r == |Ancestry(chart, i)|
    ensures 1 <= r <= |chart|
  {
    WalkLength(chart, i, |chart|);
    RootedFromAnyFuel(chart, i, |chart|);
    LevelWithin(chart, i, |chart|)
  }

  lemma {:induction false} RootWithinMono(chart: Chart, i: nat, s: nat, t: nat)
    requires s <= t && RootWithin(chart, i, s)
    ensures RootWithin(chart, i, t)
    decreases s
  {
    match chart[i].parent
    case None =>
    case Some(p) => RootWithinMono(chart, p, s - 1, t - 1);
  }

  /** The walk's results do not depend on how much spare fuel it is given. */
  lemma {:induction false} WalkStable(chart: Chart, i: nat, s: nat, t: nat)
    requires RootWithin(chart, i, s) && RootWithin(chart, i, t)
    ensures AncestryWithin(chart, i, s) == AncestryWithin(chart, i, t)
    ensures FullNameWithin(chart, i, s) == FullNameWithin(chart, i, t)
    ensures LevelWithin(chart, i, s) == LevelWithin(chart, i, t)
    decreases s
  {
    match chart[i].parent
    case None =>
    case Some(p) => WalkStable(chart, p, s - 1, t - 1);
  }

  lemma ParentRooted(chart: Chart, i: nat)
    requires Rooted(chart, i) && chart[i].parent.Some?
    ensures Rooted(chart, chart[i].parent.value)
  {
    RootWithinMono(chart, chart[i].parent.value, |chart| - 1, |chart|);
  }

  /** full_name and level follow the parent link exactly as the properties
      on Account do: a root is named by its own name at level 1, a child
      extends its parent's full name by " > " and its own name, one level
      deeper. */
  lemma HierarchyRecurrence(chart: Chart, i: nat)
    requires Rooted(chart, i)
    ensures chart[i].parent.None? ==> FullName(chart, i) == chart[i].name && Level(chart, i) == 1
    ensures chart[i].parent.Some? ==>
      var p := chart[i].parent.value;
      Rooted(chart, p)
      && FullName(chart, i) == FullName(chart, p) + " > " + chart[i].name
      && Level(chart, i) == Level(chart, p) + 1
  {
    if chart[i].parent.Some? {
      var p := chart[i].parent.value;
      ParentRooted(chart, i);
      WalkStable(chart, p, |chart| - 1, |chart|);
    }
  }

  // ---------------------------------------------------------------------
  // The chain of ancestors has no repeats, so it fits in the chart
  // ---------------------------------------------------------------------

  /** The k-th ancestor is reached from a root within the fuel left after k steps. */
  lemma {:induction false} AncestorRooted(chart: Chart, i: nat, s: nat, k: nat)
    requires RootWithin(chart, i, s) && k < |AncestryWithin(chart, i, s)|
    ensures k <= s && RootWithin(chart, AncestryWithin(chart, i, s)[k], s - k)
    decreases k
  {
    if k > 0 {
      var p := chart[i].parent.value;
      var d := AncestryWithin(chart, p, s - 1);
      assert AncestryWithin(chart, i, s)[k] == d[k - 1];
      AncestorRooted(chart, p, s - 1, k - 1);
    }
  }

  /** The ancestry from the k-th ancestor on is that ancestor's own ancestry. */
  lemma {:induction false} AncestrySuffix(chart: Chart, i: nat, s: nat, k: nat)
    requires RootWithin(chart, i, s) && k < |AncestryWithin(chart, i, s)|
    ensures k <= s
    ensures RootWithin(chart, AncestryWithin(chart, i, s)[k], s - k)
    ensures AncestryWithin(chart, i, s)[k..]
         == AncestryWithin(chart, AncestryWithin(chart, i, s)[k], s - k)
    decreases k
  {
    AncestorRooted(chart, i, s, k);
    var c := AncestryWithin(chart, i, s);
    if k == 0 {
      assert c[0..] == c;
    } else {
      var p := chart[i].parent.value;
      var d := AncestryWithin(chart, p, s - 1);
      AncestryUnfold(chart, i, s);
      ConsSlice(i, d, k);
      AncestrySuffix(chart, p, s - 1, k - 1);
    }
  }

  lemma AncestryUnfold(chart: Chart, i: nat, s: nat)
    requires RootWithin(chart, i, s) && chart[i].parent.Some?
    ensures AncestryWithin(chart, i, s) == [i] + AncestryWithin(chart, chart[i].parent.value, s - 1)
  {
  }

  lemma ConsSlice(x: nat, d: seq<nat>, k: nat)
    requires 0 < k <= |d|
    ensures ([x] + d)[k] == d[k - 1] && ([x] + d)[k..] == d[k - 1..]
  {
  }

  /** Consecutive ancestors are linked by the parent field, and the last one is a root. */
  lemma AncestryLinks(chart: Chart, i: nat, s: nat, k: nat)
    requires RootWithin(chart, i, s) && k < |AncestryWithin(chart, i, s)|
    ensures var c := AncestryWithin(chart, i, s);
      if k + 1 < |c| then chart[c[k]].parent == Some(c[k + 1]) else chart[c[k]].parent.None?
  {
    var c := AncestryWithin(chart, i, s);
    AncestrySuffix(chart, i, s, k);
    assert c[k..][0] == c[k];
  }

  /** The k-th ancestor's own ancestry is k shorter. */
  lemma AncestorLength(chart: Chart, i: nat, s: nat, k: nat)
    requires RootWithin(chart, i, s) && k < |AncestryWithin(chart, i, s)|
    ensures k <= s && RootWithin(chart, AncestryWithin(chart, i, s)[k], s - k)
    ensures |AncestryWithin(chart, AncestryWithin(chart, i, s)[k], s - k)| == |AncestryWithin(chart, i, s)| - k
  {
    AncestrySuffix(chart, i, s, k);
  }

  lemma AncestryDistinct(chart: Chart, i: nat, s: nat)
    requires RootWithin(chart, i, s)
    ensures var c := AncestryWithin(chart, i, s);
      forall a, b :: 0 <= a < b < |c| ==> c[a] != c[b]
  {
    var c := AncestryWithin(chart, i, s);
    forall a, b | 0 <= a < b < |c|
      ensures c[a] != c[b]
    {
      if c[a] == c[b] {
        AncestorLength(chart, i, s, a);
        AncestorLength(chart, i, s, b);
        WalkStable(chart, c[a], s - a, s - b);
        assert false;
      }
    }
  }

  /** A repeat-free sequence of numbers below n has at most n elements. */
  /** Removing the one occurrence of n - 1 leaves a repeat-free sequence below n - 1. */
  lemma RemoveLargest(c: seq<nat>, n: nat, k: nat)
    requires forall a, b :: 0 <= a < b < |c| ==> c[a] != c[b]
    requires forall j :: 0 <= j < |c| ==> c[j] < n
    requires 0 <= k < |c| && c[k] == n - 1
    ensures var d := c[..k] + c[k + 1..];
      && |d| == |c| - 1
      && (forall a, b :: 0 <= a < b < |d| ==> d[a] != d[b])
      && (forall a :: 0 <= a < |d| ==> d[a] < n - 1)
  {
    var d := c[..k] + c[k + 1..];
    assert forall a :: 0 <= a < |d| ==> d[a] == (if a < k then c[a] else c[a + 1]);
    forall a, b | 0 <= a < b < |d|
      ensures d[a] != d[b]
    {
      var a' := if a < k then a else a + 1;
      var b' := if b < k then b else b + 1;
      assert d[a] == c[a'] && d[b] == c[b'] && a' < b';
    }
    forall a | 0 <= a < |d|
      ensures d[a] < n - 1
    {
      var a' := if a < k then a else a + 1;
      assert d[a] == c[a'] && a' != k;
    }
  }

  lemma {:induction false} DistinctBound(c: seq<nat>, n: nat)
    requires forall a, b :: 0 <= a < b < |c| ==> c[a] != c[b]
    requires forall k :: 0 <= k < |c| ==> c[k] < n
    ensures |c| <= n
    decreases n
  {
    if c == [] {
    } else if n - 1 in c {
      var k :| 0 <= k < |c| && c[k] == n - 1;
      var d := c[..k] + c[k + 1..];
      RemoveLargest(c, n, k);
      DistinctBound(d, n - 1);
    } else {
      assert c[0] < n;
      DistinctBound(c, n - 1);
    }
  }

  lemma {:induction false} WalkLength(chart: Chart, i: nat, s: nat)
    requires RootWithin(chart, i, s)
    ensures RootWithin(chart, i, |AncestryWithin(chart, i, s)| - 1)
    ensures LevelWithin(chart, i, s) == |AncestryWithin(chart, i, s)|
    decreases s
  {
    match chart[i].parent
    case None =>
    case Some(p) => WalkLength(chart, p, s - 1);
  }

  /** A walk that reaches a root with any amount of fuel reaches it within
      the number of accounts. */
  lemma RootedFromAnyFuel(chart: Chart, i: nat, s: nat)
    requires RootWithin(chart, i, s)
    ensures Rooted(chart, i)
    ensures |AncestryWithin(chart, i, s)| <= |chart|
  {
    var c := AncestryWithin(chart, i, s);
    AncestryDistinct(chart, i, s);
    DistinctBound(c, |chart|);
    WalkLength(chart, i, s);
    RootWithinMono(chart, i, |c| - 1, |chart|);
  }

  // ---------------------------------------------------------------------
  // Parent assignment
  // ---------------------------------------------------------------------

  datatype HierarchyError = SelfParent | CircularHierarchy

  /** The fields an account create or update carries. */
  datatype AccountInput = AccountInput(
    code: string,
    name: string,
    accountType: AccountType,
    isActive: bool,
    parent: Option<nat>)

  /** The chart after account x's parent is set to parent. */
  function Reparent(chart: Chart, x: nat, parent: Option<nat>): (r: Chart)
    requires x < |chart|
    ensures |r| == |chart| && r[x].parent == parent
    ensures r[x] == chart[x].(parent := parent)
    ensures forall k :: 0 <= k < |chart| && k != x ==> r[k] == chart[k]
  {
    chart[x := chart[x].(parent := parent)]
  }

  /** The account serializer's validate: an update (instance present) may not
      make an account its own parent, nor choose a parent whose ancestor
      chain passes through the account. Creation and a missing parent are
      never rejected; accepted data is returned unchanged. */
  method ValidateParent(chart: Chart, instance: Option<nat>, data: AccountInput)
    returns (r: Result<AccountInput, HierarchyError>)
    requires instance.Some? ==> instance.value < |chart|
    requires instance.Some? && data.parent.Some? && data.parent != instance ==> Rooted(chart, data.parent.value)
    ensures r.Ok? ==> r.value == data
    ensures r == Err(SelfParent) <==> instance.Some? && data.parent == instance
    ensures r == Err(CircularHierarchy) <==>
      instance.Some? && data.parent.Some? && data.parent != instance
      && instance.value in Ancestry(chart, data.parent.value)
  {
    if data.parent.None? {
      return Ok(data);
    }
    var parent := data.parent.value;
    if instance.Some? && instance.value == parent {
      return Err(SelfParent);
    }
    if instance.Some? {
      var self := instance.value;
      var current: Option<nat> := Some(parent);
      ghost var chain := Ancestry(chart, parent);
      ghost var k := 0;
      while current.Some?
        invariant 0 <= k <= |chain|
        invariant current.Some? <==> k < |chain|
        invariant current.Some? ==> current.value == chain[k]
        invariant self !in chain[..k]
        decreases |chain| - k
      {
        var c := current.value;
        if c == self {
          return Err(CircularHierarchy);
        }
        AncestryLinks(chart, parent, |chart|, k);
        assert chain[..k + 1] == chain[..k] + [c];
        current := chart[c].parent;
        k := k + 1;
      }
      assert chain[..k] == chain;
    }
    return Ok(data);
  }

  // ---------------------------------------------------------------------
  // The check accepts exactly the assignments that keep the chart acyclic
  // ---------------------------------------------------------------------

  /** Walks that never pass through x are the same before and after x is reparented. */
  lemma {:induction false} WalkAvoids(chart: Chart, x: nat, parent: Option<nat>, j: nat, s: nat)
    requires x < |chart| && RootWithin(chart, j, s) && x !in AncestryWithin(chart, j, s)
    ensures RootWithin(Reparent(chart, x, parent), j, s)
    decreases s
  {
    match chart[j].parent
    case None =>
    case Some(q) => WalkAvoids(chart, x, parent, q, s - 1);
  }

  /** A walk that passes through x reaches a root after reparenting if x does. */
  lemma {:induction false} WalkThrough(chart: Chart, x: nat, parent: Option<nat>, j: nat, s: nat, t: nat)
    requires x < |chart| && RootWithin(chart, j, s) && x in AncestryWithin(chart, j, s)
    requires RootWithin(Reparent(chart, x, parent), x, t)
    ensures RootWithin(Reparent(chart, x, parent), j, s + t)
    decreases s
  {
    if j == x {
      RootWithinMono(Reparent(chart, x, parent), x, t, s + t);
    } else {
      var q := chart[j].parent.value;
      WalkThrough(chart, x, parent, q, s - 1, t);
    }
  }

  /** Following the old chain from position k up to x (at position m) in the
      reparented chart costs m - k steps. */
  lemma {:induction false} WalkAlong(chart: Chart, x: nat, p: nat, m: nat, k: nat, u: nat)
    requires x < |chart| && Rooted(chart, p)
    requires m < |Ancestry(chart, p)| && Ancestry(chart, p)[m] == x && k <= m
    requires RootWithin(Reparent(chart, x, Some(p)), Ancestry(chart, p)[k], u)
    ensures u >= m - k && RootWithin(Reparent(chart, x, Some(p)), x, u - (m - k))
    decreases m - k
  {
    var c := Ancestry(chart, p);
    if k < m {
      AncestryDistinct(chart, p, |chart|);
      AncestryLinks(chart, p, |chart|, k);
      WalkAlong(chart, x, p, m, k + 1, u - 1);
    }
  }

  lemma {:induction false} NeverRoots(chart: Chart, x: nat, p: nat, s: nat)
    requires x < |chart| && Rooted(chart, p) && x in Ancestry(chart, p)
    ensures !RootWithin(Reparent(chart, x, Some(p)), x, s)
    decreases s
  {
    var c := Ancestry(chart, p);
    var m :| 0 <= m < |c| && c[m] == x;
    if RootWithin(Reparent(chart, x, Some(p)), x, s) {
      WalkAlong(chart, x, p, m, 0, s - 1);
      NeverRoots(chart, x, p, s - 1 - m);
    }
  }

  /** Setting account x's parent to p keeps an acyclic chart acyclic exactly
      when x is not p itself or one of p's ancestors, which is exactly what
      ValidateParent checks. */
  lemma ReparentKeepsAcyclicIff(chart: Chart, x: nat, p: nat)
    requires Acyclic(chart) && x < |chart| && p < |chart|
    ensures Acyclic(Reparent(chart, x, Some(p))) <==> x !in Ancestry(chart, p)
  {
    var chart' := Reparent(chart, x, Some(p));
    assert Rooted(chart, p);
    if x !in Ancestry(chart, p) {
      WalkAvoids(chart, x, Some(p), p, |chart|);
      assert RootWithin(chart', x, |chart| + 1);
      forall j: nat | j < |chart'|
        ensures Rooted(chart', j)
      {
        assert Rooted(chart, j);
        if x in Ancestry(chart, j) {
          WalkThrough(chart, x, Some(p), j, |chart|, |chart| + 1);
          RootedFromAnyFuel(chart', j, |chart| + |chart| + 1);
        } else {
          WalkAvoids(chart, x, Some(p), j, |chart|);
        }
      }
    } else {
      NeverRoots(chart, x, p, |chart|);
      assert !Rooted(chart', x);
    }
  }

  /** Making an account a root never creates a cycle. */
  lemma ClearParentKeepsAcyclic(chart: Chart, x: nat)
    requires Acyclic(chart) && x < |chart|
    ensures Acyclic(Reparent(chart, x, None))
  {
    var chart' := Reparent(chart, x, None);
    forall j: nat | j < |chart'|
      ensures Rooted(chart', j)
    {
      assert Rooted(chart, j);
      if x in Ancestry(chart, j) {
        WalkThrough(chart, x, None, j, |chart|, 0);
      } else {
        WalkAvoids(chart, x, None, j, |chart|);
      }
    }
  }

  /** The tree serializer's children: exactly the accounts whose parent is i. */
  function Children(chart: Chart, i: nat): (r: seq<nat>)
    ensures forall j: nat :: j in r <==> j < |chart| && chart[j].parent == Some(i)
    ensures forall a, b :: 0 <= a < b < |r| ==> r[a] < r[b]
  {
    IndicesWhere(chart, (a: Account) => a.parent == Some(i), |chart|)
  }
}
