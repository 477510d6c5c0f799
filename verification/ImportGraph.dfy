/** tools/pm/check.py: the depth-first search over startup imports. */
module ImportGraph {
  import opened Wrappers

  type Path = string

  /** The inventory: every registered path with the paths it imports, in the order visited. */
  type Imports = map<Path, seq<Path>>

  datatype PolicyError = NotInventoried(path: Path) | ImportCycle(path: Path)

  ghost predicate Edge(g: Imports, a: Path, b: Path) {
    a in g && b in g[a]
  }

  ghost predicate IsWalk(g: Imports, w: seq<Path>) {
    forall i :: 0 <= i < |w| - 1 ==> Edge(g, w[i], w[i + 1])
  }

  ghost predicate OnCycle(g: Imports, p: Path) {
    exists w :: |w| >= 2 && IsWalk(g, w) && w[0] == p && w[|w| - 1] == p
  }

  ghost predicate Acyclic(g: Imports) {
    forall p :: !OnCycle(g, p)
  }

  ghost predicate Closed(g: Imports) {
    forall a, b :: Edge(g, a, b) ==> b in g
  }

  /** The error is justified by the graph alone. */
  ghost predicate Justified(g: Imports, e: PolicyError) {
    match e
    case NotInventoried(p) => p !in g && exists a :: Edge(g, a, p)
    case ImportCycle(p) => OnCycle(g, p)
  }

  /** Every path listed after everything it imports. */
  ghost predicate Topological(g: Imports, order: seq<Path>) {
    && (forall i :: 0 <= i < |order| ==> order[i] in g)
    && (forall i, b :: 0 <= i < |order| && b in g[order[i]] ==> b in order[..i])
  }

  /** Walking along edges moves strictly towards the front of a topological order. */
  lemma {:induction false} WalkDescends(g: Imports, order: seq<Path>, w: seq<Path>, i: nat)
    requires Topological(g, order) && IsWalk(g, w) && |w| >= 2
    requires i < |order| && order[i] == w[0]
    ensures w[|w| - 1] in order[..i]
  {
    assert Edge(g, w[0], w[1]);
    var j :| 0 <= j < i && order[j] == w[1];
    if |w| > 2 {
      forall k | 0 <= k < |w[1..]| - 1 ensures Edge(g, w[1..][k], w[1..][k + 1]) {
        assert Edge(g, w[k + 1], w[k + 2]);
      }
      WalkDescends(g, order, w[1..], j);
    }
  }

  /** The first position at which p is listed. */
  ghost function FirstIndex(order: seq<Path>, p: Path): (i: nat)
    requires p in order
    ensures i < |order| && order[i] == p && p !in order[..i]
  {
    if order[0] == p then 0
    else
      var j := FirstIndex(order[1..], p);
      assert order[..j + 1] == [order[0]] + order[1..][..j];
      j + 1
  }

  /** A topological order of the whole inventory rules out cycles and dangling imports. */
  lemma TopologicalMeansSound(g: Imports, order: seq<Path>)
    requires Topological(g, order) && forall p :: p in g ==> p in order
    ensures Closed(g) && Acyclic(g)
  {
    forall a, b | Edge(g, a, b) ensures b in g {
      var i := FirstIndex(order, a);
      assert b in order[..i];
    }
    forall p | OnCycle(g, p) ensures false {
      var w :| |w| >= 2 && IsWalk(g, w) && w[0] == p && w[|w| - 1] == p;
      assert Edge(g, w[0], w[1]);
      WalkDescends(g, order, w, FirstIndex(order, p));
    }
  }

  /** An unfinished walk that meets itself again is a cycle. */
  lemma WalkCloses(g: Imports, stack: seq<Path>, p: Path)
    requires IsWalk(g, stack) && p in stack && Edge(g, stack[|stack| - 1], p)
    ensures OnCycle(g, p)
  {
    var i := FirstIndex(stack, p);
    var w := stack[i..] + [p];
    forall k | 0 <= k < |w| - 1 ensures Edge(g, w[k], w[k + 1]) {
      if k + 1 < |stack| - i {
        assert Edge(g, stack[i + k], stack[i + k + 1]);
      }
    }
  }

  /** The mutable `visiting` and `visited` sets shared by the recursive calls. */
  class Search {
    const imports: Imports
    var visiting: set<Path>
    var visited: set<Path>
    /** The paths being visited, outermost first, and the finished paths in finishing order. */
    ghost var stack: seq<Path>
    ghost var order: seq<Path>

    ghost predicate Valid()
      reads this
    {
      && (forall p :: p in visiting <==> p in stack)
      && (forall p :: p in visited <==> p in order)
      && visiting <= imports.Keys
      && visiting !! visited
      && IsWalk(imports, stack)
      && Topological(imports, order)
    }

    constructor (g: Imports)
      ensures Valid() && imports == g && visiting == {} && visited == {} && stack == []
    {
      imports := g;
      visiting, visited, stack, order := {}, {}, [], [];
    }

    /**
     * visit. Without an error the search state is as before except that `path` and possibly
     * more finished paths are recorded; an error is justified by the graph.
     */
    method Visit(path: Path) returns (r: Option<PolicyError>)
      requires Valid()
      requires stack == [] ==> path in imports
      requires stack != [] ==> Edge(imports, stack[|stack| - 1], path)
      modifies this
      decreases imports.Keys - visiting
      ensures r.Some? ==> Justified(imports, r.value)
      ensures r.None? ==> Valid() && path in visited && old(visited) <= visited
      ensures r.None? ==> stack == old(stack) && visiting == old(visiting)
      ensures r.None? ==> old(order) <= order
    {
      if path !in imports {
        return Some(NotInventoried(path));
      }
      if path in visiting {
        WalkCloses(imports, stack, path);
        return Some(ImportCycle(path));
      }
      if path in visited {
        return None;
      }
      ghost var outer := stack;
      visiting := visiting + {path};
      stack := stack + [path];
      WalkGrows(imports, outer, path);
      var targets := imports[path];
      var i := 0;
      while i < |targets|
        invariant 0 <= i <= |targets| && Valid()
        invariant stack == outer + [path] && visiting == old(visiting) + {path}
        invariant old(visited) <= visited && old(order) <= order
        invariant forall j :: 0 <= j < i ==> targets[j] in visited
      {
        assert Edge(imports, path, targets[i]);
        r := Visit(targets[i]);
        if r.Some? { return; }
        i := i + 1;
      }
      stack := outer;
      WalkGrows(imports, outer, path);
      visiting := visiting - {path};
      visited := visited + {path};
      OrderGrows(imports, order, path);
      order := order + [path];
      r := None;
    }
  }

  lemma WalkGrows(g: Imports, w: seq<Path>, p: Path)
    requires w != [] ==> Edge(g, w[|w| - 1], p)
    ensures IsWalk(g, w + [p]) <==> IsWalk(g, w)
  {
    if IsWalk(g, w + [p]) {
      forall i | 0 <= i < |w| - 1 ensures Edge(g, w[i], w[i + 1]) {
        assert Edge(g, (w + [p])[i], (w + [p])[i + 1]);
      }
    }
  }

  lemma OrderGrows(g: Imports, order: seq<Path>, p: Path)
    requires Topological(g, order) && p in g && forall b :: b in g[p] ==> b in order
    ensures Topological(g, order + [p])
  {
    var next := order + [p];
    forall i, b | 0 <= i < |next| && b in g[next[i]] ensures b in next[..i] {
      if i < |order| {
        assert next[i] == order[i] && next[..i] == order[..i];
      } else {
        assert next[..i] == order;
      }
    }
  }

  /**
   * The search from every inventoried path, in any order of roots. It raises nothing exactly
   * when every import target is inventoried and no import chain returns to its start.
   */
  method CheckImports(imports: Imports, roots: seq<Path>) returns (r: Option<PolicyError>)
    requires forall p :: p in roots <==> p in imports
    ensures r.None? <==> Closed(imports) && Acyclic(imports)
    ensures r.Some? ==> Justified(imports, r.value)
  {
    var search := new Search(imports);
    var i := 0;
    while i < |roots|
      invariant 0 <= i <= |roots|
      invariant search.Valid() && search.imports == imports && search.stack == []
      invariant fresh(search)
      invariant forall j :: 0 <= j < i ==> roots[j] in search.visited
    {
      r := search.Visit(roots[i]);
      if r.Some? {
        JustifiedRefutes(imports, r.value);
        return;
      }
      i := i + 1;
    }
    TopologicalMeansSound(imports, search.order);
    r := None;
  }

  lemma JustifiedRefutes(g: Imports, e: PolicyError)
    requires Justified(g, e)
    ensures !(Closed(g) && Acyclic(g))
  {}
}
