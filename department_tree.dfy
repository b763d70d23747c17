/** The department picker of src/components/DepartmentTree.tsx: the search filter over the
    department forest, the preorder id collection behind "Select All", which nodes are
    shown, and the picker's own state (expanded nodes and the search query). */
module DepartmentTree {
  import opened Types
  import opened Strings
  import opened Lists

  /** Every node of the forest, each parent before its children and its later siblings. */
  function Nodes(ds: seq<Department>): (r: seq<Department>)
    ensures forall d :: d in ds ==> d in r
  {
    if ds == [] then [] else [ds[0]] + Nodes(ds[0].children) + Nodes(ds[1..])
  }

  /** The number of nodes of the forest, counted without building a list. */
  function Size(ds: seq<Department>): nat
  {
    if ds == [] then 0 else 1 + Size(ds[0].children) + Size(ds[1..])
  }

  lemma {:induction false} NodesSize(ds: seq<Department>)
    ensures |Nodes(ds)| == Size(ds)
  {
    if ds != [] {
      NodesSize(ds[0].children);
      NodesSize(ds[1..]);
    }
  }

  // ---------------------------------------------------------------------------------------
  // The id collection (getAllIds)

  /** The ids of the forest in preorder: a node's id, then its subtree's, then its later
      siblings'. */
  function AllIds(ds: seq<Department>): seq<string>
  {
    if ds == [] then [] else [ds[0].id] + AllIds(ds[0].children) + AllIds(ds[1..])
  }

  function NodeIds(ns: seq<Department>): (r: seq<string>)
    ensures |r| == |ns|
    ensures forall i :: 0 <= i < |ns| ==> r[i] == ns[i].id
  {
    seq(|ns|, i requires 0 <= i < |ns| => ns[i].id)
  }

  lemma NodeIdsAppend(a: seq<Department>, b: seq<Department>)
    ensures NodeIds(a + b) == NodeIds(a) + NodeIds(b)
  {
    var l, r := NodeIds(a + b), NodeIds(a) + NodeIds(b);
    assert |l| == |r|;
    forall i | 0 <= i < |l| ensures l[i] == r[i] {
      if i < |a| { assert (a + b)[i] == a[i]; } else { assert (a + b)[i] == b[i - |a|]; }
    }
  }

  /** The collected ids are the ids of the nodes in preorder. */
  lemma {:induction false} AllIdsArePreorder(ds: seq<Department>)
    ensures AllIds(ds) == NodeIds(Nodes(ds))
  {
    if ds != [] {
      AllIdsArePreorder(ds[0].children);
      AllIdsArePreorder(ds[1..]);
      var a, b, c := [ds[0]], Nodes(ds[0].children), Nodes(ds[1..]);
      NodeIdsAppend(a + b, c);
      NodeIdsAppend(a, b);
    }
  }

  /** Every node of the forest, at any depth, has its id collected. */
  lemma AllIdsHasEveryNode(ds: seq<Department>)
    ensures forall d :: d in Nodes(ds) ==> d.id in AllIds(ds)
  {
    AllIdsArePreorder(ds);
    var ns := Nodes(ds);
    forall d | d in ns ensures d.id in AllIds(ds) {
      var i :| 0 <= i < |ns| && ns[i] == d;
      assert NodeIds(ns)[i] == d.id;
    }
  }

  /** One id per node. */
  lemma AllIdsCount(ds: seq<Department>)
    ensures |AllIds(ds)| == Size(ds)
  {
    AllIdsArePreorder(ds);
    NodesSize(ds);
  }

  lemma {:induction false} AllIdsAppend(a: seq<Department>, b: seq<Department>)
    ensures AllIds(a + b) == AllIds(a) + AllIds(b)
  {
    if a == [] {
      assert a + b == b;
    } else {
      assert (a + b)[0] == a[0] && (a + b)[1..] == a[1..] + b;
      AllIdsAppend(a[1..], b);
    }
  }

  /** getAllIds: a `reduce` over the departments that pushes each id and then the ids of
      its children into an accumulator. */
  method GetAllIds(ds: seq<Department>) returns (acc: seq<string>)
    ensures acc == AllIds(ds)
  {
    acc := [];
    for i := 0 to |ds|
      invariant acc == AllIds(ds[..i])
    {
      acc := acc + [ds[i].id];
      var sub := GetAllIds(ds[i].children);
      acc := acc + sub;
      assert ds[..i + 1] == ds[..i] + [ds[i]];
      AllIdsAppend(ds[..i], [ds[i]]);
    }
    assert ds[..|ds|] == ds;
  }

  // ---------------------------------------------------------------------------------------
  // The search filter (filterDepartments)

  /** The case-insensitive name test of the filter. */
  predicate NameMatches(d: Department, query: string)
  {
    Contains(Lower(d.name), Lower(query))
  }

  /** The filtered forest: with an empty query the forest itself; otherwise each department
      whose name matches or whose filtered children are not empty, in order, with its
      children replaced by the filtered children when there are any. */
  function Filtered(ds: seq<Department>, query: string): (r: seq<Department>)
    ensures query == "" ==> r == ds
    ensures |r| <= |ds|
  {
    if query == "" || ds == [] then ds
    else
      var d := ds[0];
      var fc := Filtered(d.children, query);
      var rest := Filtered(ds[1..], query);
      if NameMatches(d, query) || fc != [] then
        [d.(children := if fc != [] then fc else d.children)] + rest
      else rest
  }

  lemma {:induction false} FilteredAppend(a: seq<Department>, b: seq<Department>, query: string)
    ensures Filtered(a + b, query) == Filtered(a, query) + Filtered(b, query)
  {
    if a == [] {
      assert a + b == b;
    } else if query != "" {
      assert (a + b)[0] == a[0] && (a + b)[1..] == a[1..] + b;
      FilteredAppend(a[1..], b, query);
    }
  }

  /** filterDepartments: an early return for the empty query, then a `reduce` that pushes
      each surviving department, recursing into its children first. */
  method FilterDepartments(ds: seq<Department>, query: string) returns (acc: seq<Department>)
    ensures acc == Filtered(ds, query)
  {
    if query == "" {
      return ds;
    }
    var lowerQuery := Lower(query);
    acc := [];
    for i := 0 to |ds|
      invariant acc == Filtered(ds[..i], query)
    {
      var dept := ds[i];
      var nameMatches := Contains(Lower(dept.name), lowerQuery);
      var filteredChildren := FilterDepartments(dept.children, query);
      if nameMatches || |filteredChildren| > 0 {
        acc := acc + [dept.(children := if |filteredChildren| > 0 then filteredChildren else dept.children)];
      }
      assert ds[..i + 1] == ds[..i] + [dept];
      FilteredAppend(ds[..i], [dept], query);
      assert [dept][1..] == [];
    }
    assert ds[..|ds|] == ds;
  }

  /** A department survives the filter: its name matches, or some of its children survive. */
  predicate Survives(d: Department, query: string)
  {
    NameMatches(d, query) || Filtered(d.children, query) != []
  }

  function SurvivesFn(query: string): Department -> bool
  {
    (d: Department) => Survives(d, query)
  }

  /** The record the filter keeps for a surviving department. */
  function Pruned(d: Department, query: string): Department
  {
    var fc := Filtered(d.children, query);
    d.(children := if fc != [] then fc else d.children)
  }

  function PrunedAll(ks: seq<Department>, query: string): (r: seq<Department>)
    ensures |r| == |ks|
    ensures forall i :: 0 <= i < |ks| ==> r[i] == Pruned(ks[i], query)
  {
    seq(|ks|, i requires 0 <= i < |ks| => Pruned(ks[i], query))
  }

  /** With a query, the filter is "keep the survivors, in order, then prune each": the
      result lists exactly the surviving top-level departments, with their ids and names. */
  lemma {:induction false} FilteredIsPrunedSurvivors(ds: seq<Department>, query: string)
    requires query != ""
    ensures Filtered(ds, query) == PrunedAll(Filter(ds, SurvivesFn(query)), query)
  {
    if ds != [] {
      FilteredIsPrunedSurvivors(ds[1..], query);
      var p := SurvivesFn(query);
      var rest := Filter(ds[1..], p);
      assert ds == [ds[0]] + ds[1..];
      assert Filter(ds, p) == if p(ds[0]) then [ds[0]] + rest else rest;
      assert Filtered(ds, query) ==
        if Survives(ds[0], query) then [Pruned(ds[0], query)] + Filtered(ds[1..], query) else Filtered(ds[1..], query);
      if Survives(ds[0], query) {
        PrunedAllCons(ds[0], rest, query);
      }
    }
  }

  lemma PrunedAllCons(x: Department, rest: seq<Department>, query: string)
    ensures PrunedAll([x] + rest, query) == [Pruned(x, query)] + PrunedAll(rest, query)
  {
    var a := PrunedAll([x] + rest, query);
    var b := [Pruned(x, query)] + PrunedAll(rest, query);
    assert |a| == |b|;
    forall i | 0 <= i < |a| ensures a[i] == b[i] {
      if i > 0 { assert ([x] + rest)[i] == rest[i - 1]; }
    }
  }

  /** Pruning keeps a department's id and name. */
  lemma PrunedKeepsIdentity(d: Department, query: string)
    ensures Pruned(d, query).id == d.id && Pruned(d, query).name == d.name
    ensures Filtered(d.children, query) == [] ==> Pruned(d, query) == d
  {
  }

  /** The filter finds something exactly when some node of the forest, at any depth, has a
      matching name. */
  lemma {:induction false} FilteredNonEmpty(ds: seq<Department>, query: string)
    requires query != ""
    ensures Filtered(ds, query) != [] <==> exists n :: n in Nodes(ds) && NameMatches(n, query)
  {
    if ds != [] {
      FilteredNonEmpty(ds[0].children, query);
      FilteredNonEmpty(ds[1..], query);
      assert ds[0] in Nodes(ds);
      assert forall n :: n in Nodes(ds) <==>
        n == ds[0] || n in Nodes(ds[0].children) || n in Nodes(ds[1..]);
    }
  }

  /** A department survives exactly when some node of its subtree has a matching name. */
  lemma SurvivesIffSubtreeMatches(d: Department, query: string)
    requires query != ""
    ensures Survives(d, query) <==> exists n :: n in Nodes([d]) && NameMatches(n, query)
  {
    FilteredNonEmpty(d.children, query);
    assert [d][1..] == [];
    assert Nodes([d]) == [d] + Nodes(d.children);
  }

  /** The filter invents no department: every id it shows is an id of the forest. */
  lemma {:induction false} FilteredIdsAreForestIds(ds: seq<Department>, query: string)
    ensures forall id :: id in AllIds(Filtered(ds, query)) ==> id in AllIds(ds)
  {
    if ds != [] && query != "" {
      var d := ds[0];
      var fc := Filtered(d.children, query);
      FilteredIdsAreForestIds(d.children, query);
      FilteredIdsAreForestIds(ds[1..], query);
      var r := Filtered(ds, query);
      if Survives(d, query) {
        var p := Pruned(d, query);
        assert r == [p] + Filtered(ds[1..], query);
        assert r[0] == p && r[1..] == Filtered(ds[1..], query);
        assert AllIds(r) == [d.id] + AllIds(p.children) + AllIds(Filtered(ds[1..], query));
      }
    }
  }

  /** The filter loses no match: the id of every node whose name matches, at any depth, is
      shown. */
  lemma {:induction false} FilteredKeepsMatches(ds: seq<Department>, query: string)
    requires query != ""
    ensures forall n :: n in Nodes(ds) && NameMatches(n, query) ==> n.id in AllIds(Filtered(ds, query))
  {
    if ds != [] {
      var d := ds[0];
      FilteredKeepsMatches(d.children, query);
      FilteredKeepsMatches(ds[1..], query);
      FilteredNonEmpty(d.children, query);
      var r := Filtered(ds, query);
      var rest := Filtered(ds[1..], query);
      if Survives(d, query) {
        var p := Pruned(d, query);
        assert r == [p] + rest;
        assert r[0] == p && r[1..] == rest;
        assert AllIds(r) == [d.id] + AllIds(p.children) + AllIds(rest);
      } else {
        assert r == rest;
        assert forall n :: n in Nodes(d.children) ==> !NameMatches(n, query);
      }
    }
  }

  /** A department whose name matches keeps its original children only when none of them
      survives; when some do, it keeps just those. */
  lemma NameMatchChildren(d: Department, query: string)
    requires query != "" && NameMatches(d, query)
    ensures Survives(d, query)
    ensures Filtered(d.children, query) == [] ==> Pruned(d, query) == d
    ensures Filtered(d.children, query) != [] ==> Pruned(d, query).children == Filtered(d.children, query)
  {
  }

  /** So a matching department can lose children: a child with no match below it is dropped
      as soon as a sibling survives. */
  lemma {:induction false} NameMatchCanDropChildren(d: Department, query: string, k: nat)
    requires query != "" && NameMatches(d, query)
    requires k < |d.children| && !Survives(d.children[k], query)
    requires Filtered(d.children, query) != []
    ensures |Pruned(d, query).children| < |d.children|
  {
    FilteredIsPrunedSurvivors(d.children, query);
    FilterDropsFailing(d.children, SurvivesFn(query), k);
  }

  // ---------------------------------------------------------------------------------------
  // What is rendered

  /** The ids `renderDepartment` shows, in order: a node, then, when it has children and is
      expanded (by hand, or because a search is on), its children's. */
  function RenderedIds(ds: seq<Department>, expanded: seq<string>, searching: bool): seq<string>
  {
    if ds == [] then []
    else
      var d := ds[0];
      [d.id]
      + (if |d.children| > 0 && (d.id in expanded || searching) then RenderedIds(d.children, expanded, searching) else [])
      + RenderedIds(ds[1..], expanded, searching)
  }

  /** While searching every node is expanded, so the picker shows every id of the filtered
      forest: "Select All" then selects exactly what is on screen. */
  lemma {:induction false} SearchingRendersAll(ds: seq<Department>, expanded: seq<string>)
    ensures RenderedIds(ds, expanded, true) == AllIds(ds)
  {
    if ds != [] {
      SearchingRendersAll(ds[0].children, expanded);
      SearchingRendersAll(ds[1..], expanded);
    }
  }

  /** Without a search the picker shows at most the forest's ids; "Select All" also selects
      the ids of collapsed subtrees. */
  lemma {:induction false} RenderedAreIds(ds: seq<Department>, expanded: seq<string>, searching: bool)
    ensures forall id :: id in RenderedIds(ds, expanded, searching) ==> id in AllIds(ds)
  {
    if ds != [] {
      RenderedAreIds(ds[0].children, expanded, searching);
      RenderedAreIds(ds[1..], expanded, searching);
    }
  }

  // ---------------------------------------------------------------------------------------
  // Select all / deselect all

  /** `Array.from(new Set([...selected, ...ids]))` */
  function MergeSelection(selected: seq<string>, ids: seq<string>): (r: seq<string>)
    ensures NoDup(r)
    ensures forall x :: x in r <==> x in selected || x in ids
  {
    Dedup(selected + ids)
  }

  /** The existing selection comes first, in its order, when it has no duplicates. */
  lemma MergeKeepsSelectionFirst(selected: seq<string>, ids: seq<string>)
    requires NoDup(selected)
    ensures |selected| <= |MergeSelection(selected, ids)|
    ensures MergeSelection(selected, ids)[..|selected|] == selected
  {
    DedupPrefix(selected, ids);
    DedupOfNoDup(selected);
  }

  /** Selecting all twice selects no more than selecting all once. */
  lemma MergeIdempotent(selected: seq<string>, ids: seq<string>)
    ensures MergeSelection(MergeSelection(selected, ids), ids) == MergeSelection(selected, ids)
  {
    DedupAppendPresent(MergeSelection(selected, ids), ids);
  }

  // ---------------------------------------------------------------------------------------
  // The picker's state

  class Picker {
    /** The forest passed in by the editor. */
    const departments: seq<Department>
    /** `expandedDepartments` */
    var expanded: seq<string>
    var searchQuery: string

    constructor (departments: seq<Department>)
      ensures this.departments == departments
      ensures expanded == [] && searchQuery == ""
    {
      this.departments := departments;
      expanded := [];
      searchQuery := "";
    }

    /** `displayedDepartments` */
    function Displayed(): (r: seq<Department>)
      reads this
      ensures searchQuery == "" ==> r == departments
      ensures searchQuery != "" ==> r == Filtered(departments, searchQuery)
    {
      if searchQuery != "" then Filtered(departments, searchQuery) else departments
    }

    /** `isExpanded`: expanded by hand, or because a search is on. */
    function IsExpanded(id: string): (b: bool)
      reads this
      ensures searchQuery != "" ==> b
      ensures searchQuery == "" ==> (b <==> id in expanded)
    {
      id in expanded || searchQuery != ""
    }

    /** The ids on screen. */
    function Rendered(): seq<string>
      reads this
    {
      RenderedIds(Displayed(), expanded, searchQuery != "")
    }

    method SetSearchQuery(q: string)
      modifies this
      ensures searchQuery == q && expanded == old(expanded)
    {
      searchQuery := q;
    }

    /** toggleExpanded */
    method ToggleExpanded(id: string)
      modifies this
      ensures expanded == Toggle(old(expanded), id)
      ensures searchQuery == old(searchQuery)
    {
      expanded := if id in expanded then RemoveAll(expanded, id) else expanded + [id];
    }

    /** handleSelectAll: the selection handed to `onSelectionChange`. */
    method SelectAll(selected: seq<string>) returns (newSelected: seq<string>)
      ensures newSelected == MergeSelection(selected, AllIds(Displayed()))
    {
      var idsToSelect := GetAllIds(Displayed());
      newSelected := Dedup(selected + idsToSelect);
    }

    /** handleDeselectAll: the selection handed to `onSelectionChange`. */
    method DeselectAll() returns (newSelected: seq<string>)
      ensures newSelected == []
    {
      newSelected := [];
    }
  }

  /** While a search is on, "Select All" adds exactly the ids on screen, and every match. */
  lemma SelectAllWhileSearching(p: Picker, selected: seq<string>)
    requires p.searchQuery != ""
    ensures forall x :: x in MergeSelection(selected, AllIds(p.Displayed())) <==> x in selected || x in p.Rendered()
    ensures forall n :: n in Nodes(p.departments) && NameMatches(n, p.searchQuery) ==>
      n.id in MergeSelection(selected, AllIds(p.Displayed()))
  {
    SearchingRendersAll(p.Displayed(), p.expanded);
    FilteredKeepsMatches(p.departments, p.searchQuery);
  }
}
