/** The graph of context values: which value is in the scope of which. */
module ContextGraphs {
  /** Value ids, by the number they are made from. */
  type Id = nat
  type Links = map<Id, set<Id>>

  function At(links: Links, x: Id): set<Id> {
    if x in links then links[x] else {}
  }

  /** The two maps hold the same edges. */
  ghost predicate Dual(parents: Links, children: Links) {
    forall x: Id, y: Id :: x in At(parents, y) <==> y in At(children, x)
  }

  // ---------------------------------------------------------------- reachability in any graph

  /** From `x` one gets to `y` in `n` steps towards the parents. */
  ghost predicate Climbs(parents: Links, x: Id, y: Id, n: nat)
    decreases n
  {
    if n == 0 then x == y else exists p :: p in At(parents, x) && Climbs(parents, p, y, n - 1)
  }

  ghost predicate IsAncestor(parents: Links, x: Id, y: Id) {
    exists n: nat :: n > 0 && Climbs(parents, x, y, n)
  }

  lemma {:induction false} ClimbOneMore(parents: Links, x: Id, y: Id, z: Id, n: nat)
    requires Climbs(parents, x, y, n) && z in At(parents, y)
    ensures Climbs(parents, x, z, n + 1)
    decreases n
  {
    if n == 0 {
      assert Climbs(parents, z, z, 0);
    } else {
      var p :| p in At(parents, x) && Climbs(parents, p, y, n - 1);
      ClimbOneMore(parents, p, y, z, n - 1);
    }
  }

  /** A set that holds the parents of `x` and is closed under parents holds every ancestor. */
  lemma {:induction false} ClosedHoldsClimb(parents: Links, x: Id, y: Id, n: nat, s: set<Id>)
    requires Climbs(parents, x, y, n) && n > 0
    requires At(parents, x) <= s && forall v :: v in s ==> At(parents, v) <= s
    ensures y in s
    decreases n
  {
    var p :| p in At(parents, x) && Climbs(parents, p, y, n - 1);
    if n > 1 { ClosedHoldsClimb(parents, p, y, n - 1, s); }
  }

  lemma ParentsAreAncestors(parents: Links, x: Id)
    ensures forall p :: p in At(parents, x) ==> IsAncestor(parents, x, p)
  {
    forall p | p in At(parents, x) ensures IsAncestor(parents, x, p) {
      assert Climbs(parents, p, p, 0);
      assert Climbs(parents, x, p, 1);
    }
  }

  lemma AncestorsOfAncestors(parents: Links, x: Id, y: Id)
    requires IsAncestor(parents, x, y)
    ensures forall z :: z in At(parents, y) ==> IsAncestor(parents, x, z)
  {
    var n: nat :| n > 0 && Climbs(parents, x, y, n);
    forall z | z in At(parents, y) ensures IsAncestor(parents, x, z) {
      ClimbOneMore(parents, x, y, z, n);
    }
  }

  // ---------------------------------------------------------------- forests

  /** Every value has at most one parent, and that parent was made before it. */
  ghost predicate Forest(parents: Links) {
    && (forall x: Id, p: Id :: p in At(parents, x) ==> p < x)
    && (forall x: Id, p: Id, q: Id :: p in At(parents, x) && q in At(parents, x) ==> p == q)
  }

  ghost function TheParent(parents: Links, x: Id): (p: Id)
    requires At(parents, x) != {}
    ensures p in At(parents, x)
  {
    var p :| p in At(parents, x); p
  }

  /** The ancestors of a value, the root first and the parent last. */
  ghost function Chain(parents: Links, x: Id): seq<Id>
    requires Forest(parents)
    decreases x
  {
    if At(parents, x) == {} then []
    else
      var p := TheParent(parents, x);
      Chain(parents, p) + [p]
  }

  lemma ChainOfChild(parents: Links, x: Id, p: Id)
    requires Forest(parents) && p in At(parents, x)
    ensures Chain(parents, x) == Chain(parents, p) + [p]
  {
  }

  lemma {:induction false} ChainIsOlder(parents: Links, x: Id)
    requires Forest(parents)
    ensures forall y: Id :: y in Chain(parents, x) ==> y < x
    decreases x
  {
    if At(parents, x) != {} { ChainIsOlder(parents, TheParent(parents, x)); }
  }

  /** In a forest the chain lists exactly the ancestors. */
  lemma {:induction false} ChainIsAncestors(parents: Links, x: Id, y: Id)
    requires Forest(parents)
    ensures y in Chain(parents, x) <==> IsAncestor(parents, x, y)
    decreases x
  {
    if At(parents, x) == {} {
      if n: nat :| n > 0 && Climbs(parents, x, y, n) {
        assert false;
      }
    } else {
      var p := TheParent(parents, x);
      ChainIsAncestors(parents, p, y);
      ParentsAreAncestors(parents, x);
      if IsAncestor(parents, p, y) {
        var n: nat :| n > 0 && Climbs(parents, p, y, n);
        assert Climbs(parents, x, y, n + 1);
      }
      if IsAncestor(parents, x, y) && y != p {
        var n: nat :| n > 0 && Climbs(parents, x, y, n);
        var q :| q in At(parents, x) && Climbs(parents, q, y, n - 1);
        assert q == p && n > 1;
      }
    }
  }

  /** Sets that hold the children of their members hold every descendant. */
  lemma {:induction false} ClosedHoldsDescendants(parents: Links, y: Id, id: Id, n: nat, done: set<Id>, r: set<Id>)
    requires Climbs(parents, y, id, n) && n > 0 && id in done && r <= done
    requires forall v: Id, c: Id :: v in done && v in At(parents, c) ==> c in r
    ensures y in r
    decreases n
  {
    var p :| p in At(parents, y) && Climbs(parents, p, id, n - 1);
    if n > 1 { ClosedHoldsDescendants(parents, p, id, n - 1, done, r); }
  }

  /** The members of a set as a list, in no particular order. */
  method Elements(s: set<Id>) returns (q: seq<Id>)
    ensures forall x: Id :: x in q <==> x in s
    ensures |q| == |s|
    ensures forall i, j :: 0 <= i < j < |q| ==> q[i] != q[j]
  {
    q := [];
    var left := s;
    while left != {}
      invariant left <= s
      invariant forall x: Id :: x in q <==> x in s - left
      invariant |q| + |left| == |s|
      invariant forall i, j :: 0 <= i < j < |q| ==> q[i] != q[j]
      decreases left
    {
      var x :| x in left;
      q := q + [x];
      left := left - {x};
    }
  }

  /** Takes `id` out of the sets of the nodes in `at`. */
  method Unlink(links: Links, at: set<Id>, id: Id) returns (r: Links)
    ensures forall x: Id, y: Id :: y in At(r, x) <==> y in At(links, x) && !(y == id && x in at)
  {
    r := links;
    var left := at;
    while left != {}
      invariant left <= at
      invariant forall x: Id, y: Id :: y in At(r, x) <==> y in At(links, x) && !(y == id && x in at - left)
      decreases left
    {
      var x :| x in left;
      r := r[x := At(r, x) - {id}];
      left := left - {x};
    }
  }

  // ---------------------------------------------------------------- the two searches

  /** Every node ranks above its parents: there is no cycle. */
  ghost predicate Ranked(parents: Links, rank: Id -> nat) {
    forall x: Id, p: Id :: p in At(parents, x) ==> rank(p) < rank(x)
  }

  /** In a forest the order in which values are made is such a rank. */
  lemma ForestRanked(parents: Links)
    requires Forest(parents)
    ensures Ranked(parents, x => x)
  {
  }

  ghost function TopRank(nodes: set<Id>, rank: Id -> nat): (top: nat)
    ensures forall x :: x in nodes ==> rank(x) <= top
    decreases |nodes|
  {
    if nodes == {} then 0
    else
      var x :| x in nodes;
      var rest := TopRank(nodes - {x}, rank);
      if rest < rank(x) then rank(x) else rest
  }

  function Pow(b: nat, n: nat): nat {
    if n == 0 then 1 else b * Pow(b, n - 1)
  }

  /** What is left to do: a node of lower rank counts for more than all that it may bring in. */
  ghost function Work(toVisit: seq<Id>, rank: Id -> nat, top: nat, b: nat): nat
    requires forall y :: y in toVisit ==> rank(y) <= top
  {
    if toVisit == [] then 0 else Pow(b, top - rank(toVisit[0]) + 1) + Work(toVisit[1..], rank, top, b)
  }

  lemma {:induction false} WorkConcat(p: seq<Id>, q: seq<Id>, rank: Id -> nat, top: nat, b: nat)
    requires forall y :: y in p + q ==> rank(y) <= top
    requires forall y :: y in p ==> rank(y) <= top
    requires forall y :: y in q ==> rank(y) <= top
    ensures Work(p + q, rank, top, b) == Work(p, rank, top, b) + Work(q, rank, top, b)
  {
    if p == [] {
      assert p + q == q;
    } else {
      assert (p + q)[1..] == p[1..] + q;
      WorkConcat(p[1..], q, rank, top, b);
    }
  }

  lemma Scale(a: nat, b: nat, c: nat)
    requires a <= b
    ensures a * c <= b * c
  {
  }

  lemma {:induction false} PowGrows(b: nat, m: nat, n: nat)
    requires b > 0 && m <= n
    ensures 0 < Pow(b, m) <= Pow(b, n)
    decreases n
  {
    if m < n {
      PowGrows(b, m, n - 1);
      Scale(1, b, Pow(b, n - 1));
    } else if n > 0 {
      PowGrows(b, m - 1, n - 1);
      Scale(1, b, Pow(b, n - 1));
    }
  }

  lemma OneMoreTimes(n: nat, c: nat)
    ensures (n + 1) * c == n * c + c
  {
  }

  /** Nodes of a rank above `low` count for at most one power less, each. */
  lemma {:induction false} WorkBound(found: seq<Id>, rank: Id -> nat, top: nat, b: nat, low: nat)
    requires b > 0 && low <= top && forall y :: y in found ==> low < rank(y) <= top
    ensures Work(found, rank, top, b) <= |found| * Pow(b, top - low)
  {
    if found != [] {
      assert found[0] in found;
      WorkBound(found[1..], rank, top, b, low);
      PowGrows(b, top - rank(found[0]) + 1, top - low);
      OneMoreTimes(|found| - 1, Pow(b, top - low));
    }
  }

  lemma Cardinality(s: set<Id>, t: set<Id>)
    requires s <= t
    ensures |s| <= |t|
  {
    assert t == s + (t - s);
  }

  /** Nodes of the graph, none above the top rank. */
  ghost predicate Within(toVisit: seq<Id>, nodes: set<Id>, rank: Id -> nat, top: nat) {
    forall y :: y in toVisit ==> y in nodes && rank(y) <= top
  }

  /** Visiting a node leaves less to do: its children are fewer than `b`, and all of higher rank. */
  lemma WorkShrinks(parents: Links, children: Links, toVisit: seq<Id>, found: seq<Id>,
                    nodes: set<Id>, rank: Id -> nat, top: nat, b: nat)
    requires toVisit != [] && Within(toVisit, nodes, rank, top) && b == |nodes| + 1
    requires Dual(parents, children) && Ranked(parents, rank) && At(children, toVisit[0]) <= nodes
    requires forall y: Id :: y in found <==> y in At(children, toVisit[0])
    requires |found| == |At(children, toVisit[0])|
    requires forall y :: y in nodes ==> rank(y) <= top
    ensures Within(found + toVisit[1..], nodes, rank, top)
    ensures Work(found + toVisit[1..], rank, top, b) < Work(toVisit, rank, top, b)
  {
    var cur := toVisit[0];
    var low := rank(cur);
    forall y | y in found ensures low < rank(y) <= top {
      assert cur in At(parents, y);
    }
    Cardinality(At(children, cur), nodes);
    WorkConcat(found, toVisit[1..], rank, top, b);
    WorkBound(found, rank, top, b, low);
    PowGrows(b, 0, top - low);
    Scale(|found| + 1, b, Pow(b, top - low));
    OneMoreTimes(|found|, Pow(b, top - low));
  }

  /** All nodes collected have `id` as an ancestor, they are visited or wait to be, and the children of
      visited ones are collected. */
  ghost predicate Sweeping(parents: Links, id: Id, toVisit: seq<Id>, done: set<Id>, r: set<Id>) {
    && (forall y: Id :: y in r ==> IsAncestor(parents, y, id))
    && (forall y: Id :: y in toVisit ==> y == id || y in r)
    && (forall y: Id :: y == id || y in r ==> y in done || y in toVisit)
    && (forall v: Id, c: Id :: v in done && v in At(parents, c) ==> c in r)
  }

  lemma SweepStart(parents: Links, id: Id)
    ensures Sweeping(parents, id, [id], {}, {})
  {
  }

  lemma DescendantsOfDescendants(parents: Links, x: Id, p: Id, y: Id)
    requires p in At(parents, x) && IsAncestor(parents, p, y)
    ensures IsAncestor(parents, x, y)
  {
    var n: nat :| n > 0 && Climbs(parents, p, y, n);
    assert Climbs(parents, x, y, n + 1);
  }

  lemma SweepStep(parents: Links, children: Links, id: Id, toVisit: seq<Id>, done: set<Id>, r: set<Id>, found: seq<Id>)
    requires Dual(parents, children) && Sweeping(parents, id, toVisit, done, r) && toVisit != []
    requires forall x: Id :: x in found <==> x in At(children, toVisit[0])
    ensures Sweeping(parents, id, found + toVisit[1..], done + {toVisit[0]}, r + At(children, toVisit[0]))
  {
    var cur := toVisit[0];
    assert forall y: Id :: y in toVisit <==> y == cur || y in toVisit[1..];
    forall c | c in At(children, cur) ensures IsAncestor(parents, c, id) {
      assert cur in At(parents, c);
      ParentsAreAncestors(parents, c);
      if cur != id { DescendantsOfDescendants(parents, c, cur, id); }
    }
    assert forall c: Id :: cur in At(parents, c) ==> c in At(children, cur);
  }

  lemma SweepDone(parents: Links, id: Id, done: set<Id>, r: set<Id>)
    requires Sweeping(parents, id, [], done, r)
    ensures forall y: Id :: y in r <==> IsAncestor(parents, y, id)
  {
    forall y: Id | IsAncestor(parents, y, id) ensures y in r {
      var n: nat :| n > 0 && Climbs(parents, y, id, n);
      ClosedHoldsDescendants(parents, y, id, n, done, r);
    }
  }

  /** All nodes met are ancestors, and the parents of visited ones have been met. */
  ghost predicate Searching(parents: Links, id: Id, toVisit: seq<Id>, visited: set<Id>) {
    && (forall y: Id :: y in visited || y in toVisit ==> IsAncestor(parents, id, y))
    && (forall p: Id :: p in At(parents, id) ==> p in visited || p in toVisit)
    && (forall v: Id, p: Id :: v in visited && p in At(parents, v) ==> p in visited || p in toVisit)
  }

  lemma SearchSkip(parents: Links, id: Id, toVisit: seq<Id>, visited: set<Id>)
    requires Searching(parents, id, toVisit, visited) && toVisit != [] && toVisit[0] in visited
    ensures Searching(parents, id, toVisit[1..], visited)
  {
    assert forall y: Id :: y in toVisit <==> y == toVisit[0] || y in toVisit[1..];
  }

  lemma SearchStep(parents: Links, id: Id, toVisit: seq<Id>, visited: set<Id>, found: seq<Id>)
    requires Searching(parents, id, toVisit, visited) && toVisit != []
    requires forall y: Id :: y in found <==> y in At(parents, toVisit[0])
    ensures Searching(parents, id, toVisit[1..] + found, visited + {toVisit[0]})
  {
    AncestorsOfAncestors(parents, id, toVisit[0]);
    assert forall y: Id :: y in toVisit <==> y == toVisit[0] || y in toVisit[1..];
  }

  lemma SearchDone(parents: Links, id: Id, visited: set<Id>)
    requires Searching(parents, id, [], visited)
    ensures forall y: Id :: y in visited <==> IsAncestor(parents, id, y)
  {
    forall y: Id | IsAncestor(parents, id, y) ensures y in visited {
      var n: nat :| n > 0 && Climbs(parents, id, y, n);
      ClosedHoldsClimb(parents, id, y, n, visited);
    }
  }

  /** On a forest at most one node waits to be visited, and what it still hides comes before the
      ancestors found so far. */
  ghost predicate Climbing(parents: Links, id: Id, toVisit: seq<Id>, found: seq<Id>)
    requires Forest(parents)
  {
    && |toVisit| <= 1
    && Chain(parents, id) == (if toVisit == [] then [] else Chain(parents, toVisit[0]) + [toVisit[0]]) + found
    && (toVisit != [] ==> forall y: Id :: y in found ==> toVisit[0] < y)
  }

  lemma SingleParent(parents: Links, x: Id, q: seq<Id>)
    requires Forest(parents) && q != []
    requires forall y: Id :: y in q <==> y in At(parents, x)
    requires |q| == |At(parents, x)|
    ensures |q| == 1 && q[0] in At(parents, x)
    ensures Chain(parents, x) == Chain(parents, q[0]) + [q[0]]
  {
    assert q[0] in At(parents, x);
    assert At(parents, x) == {q[0]};
  }

  lemma ClimbStart(parents: Links, id: Id, toVisit: seq<Id>)
    requires forall y: Id :: y in toVisit <==> y in At(parents, id)
    requires |toVisit| == |At(parents, id)|
    ensures Forest(parents) ==> Climbing(parents, id, toVisit, [])
  {
    if Forest(parents) && toVisit != [] { SingleParent(parents, id, toVisit); }
  }

  lemma ClimbIsFresh(parents: Links, id: Id, toVisit: seq<Id>, found: seq<Id>)
    requires toVisit != [] && toVisit[0] in found
    requires Forest(parents) ==> Climbing(parents, id, toVisit, found)
    ensures !Forest(parents)
  {
  }

  lemma ClimbStep(parents: Links, id: Id, toVisit: seq<Id>, found: seq<Id>, next: seq<Id>)
    requires toVisit != []
    requires Forest(parents) ==> Climbing(parents, id, toVisit, found)
    requires forall y: Id :: y in next <==> y in At(parents, toVisit[0])
    requires |next| == |At(parents, toVisit[0])|
    ensures Forest(parents) ==> Climbing(parents, id, toVisit[1..] + next, [toVisit[0]] + found)
  {
    if Forest(parents) {
      assert toVisit[1..] == [];
      if next != [] {
        SingleParent(parents, toVisit[0], next);
        assert toVisit[1..] + next == [next[0]];
      } else {
        assert At(parents, toVisit[0]) == {};
        assert toVisit[1..] + next == [];
      }
    }
  }

  class ContextGraph {
    var parents: Links
    var children: Links

    ghost predicate Valid()
      reads this
    {
      Dual(parents, children)
    }

    constructor ()
      ensures Valid() && parents == map[] && children == map[]
    {
      parents, children := map[], map[];
    }

    method AddEdge(from: Id, to: Id)
      requires Valid()
      modifies this
      ensures Valid()
      ensures forall x: Id :: At(parents, x) == At(old(parents), x) + (if x == to then {from} else {})
      ensures forall x: Id :: At(children, x) == At(old(children), x) + (if x == from then {to} else {})
    {
      parents := parents[to := At(parents, to) + {from}];
      children := children[from := At(children, from) + {to}];
      forall x: Id, y: Id ensures x in At(parents, y) <==> y in At(children, x) {
        assert x in At(old(parents), y) <==> y in At(old(children), x);
      }
    }

    /** Removes a node with its edges; its children are left without it as a parent. */
    method Remove(id: Id)
      requires Valid()
      modifies this
      ensures Valid()
      ensures forall x: Id :: At(parents, x) == if x == id then {} else At(old(parents), x) - {id}
      ensures forall x: Id :: At(children, x) == if x == id then {} else At(old(children), x) - {id}
    {
      var above := GetParents(id);
      var pruned := Unlink(children, above, id);
      children := pruned;
      pruned := Unlink(parents, At(children, id), id);
      children := children - {id};
      parents := pruned - {id};
      forall x: Id, y: Id
        ensures x in At(parents, y) <==> x != id && y != id && x in At(old(parents), y)
        ensures y in At(children, x) <==> x != id && y != id && y in At(old(children), x)
      {
        assert id in At(old(parents), y) <==> y in At(old(children), id);
        assert x in At(old(parents), id) <==> id in At(old(children), x);
        assert id in At(old(parents), id) <==> id in At(old(children), id);
      }
      forall x: Id, y: Id ensures x in At(parents, y) <==> y in At(children, x) {
        assert x in At(old(parents), y) <==> y in At(old(children), x);
      }
    }

    method GetParents(id: Id) returns (r: set<Id>)
      ensures r == At(parents, id)
    {
      r := At(parents, id);
    }

    /** On any graph without cycles: exactly the nodes that have `id` as an ancestor. There is no set of
        visited nodes, so a node is met once for every way that leads to it; `rank` shows that this ends. */
    method GetChildrenRecursive(id: Id, ghost rank: Id -> nat) returns (r: set<Id>)
      requires Valid() && Ranked(parents, rank)
      ensures forall y: Id :: y in r <==> IsAncestor(parents, y, id)
    {
      hide Sweeping, Work, Climbs, IsAncestor, Dual, Ranked;
      r := {};
      var toVisit := [id];
      ghost var done: set<Id> := {};
      ghost var nodes := {id} + set x, y | x in children && y in children[x] :: y;
      ghost var top, b := TopRank(nodes, rank), |nodes| + 1;
      SweepStart(parents, id);
      while toVisit != []
        invariant Sweeping(parents, id, toVisit, done, r)
        invariant Within(toVisit, nodes, rank, top)
        decreases Work(toVisit, rank, top, b)
      {
        var cur := toVisit[0];
        var next := At(children, cur);
        var found := Elements(next);
        SweepStep(parents, children, id, toVisit, done, r, found);
        assert next <= nodes;
        WorkShrinks(parents, children, toVisit, found, nodes, rank, top, b);
        toVisit := toVisit[1..];
        done := done + {cur};
        r := r + next;
        toVisit := found + toVisit;
      }
      SweepDone(parents, id, done, r);
    }

    /** On any finite graph, cyclic or not: the ancestors, each once. On a forest they are listed by
        seniority. */
    method GetAncestors(id: Id) returns (ancestors: seq<Id>)
      ensures forall y: Id :: y in ancestors <==> IsAncestor(parents, id, y)
      ensures forall i, j :: 0 <= i < j < |ancestors| ==> ancestors[i] != ancestors[j]
      ensures Forest(parents) ==> ancestors == Chain(parents, id)
    {
      ancestors := [];
      var visited: set<Id> := {};
      var toVisit := Elements(At(parents, id));
      ghost var nodes := set x, y | x in parents && y in parents[x] :: y;
      ParentsAreAncestors(parents, id);
      ClimbStart(parents, id, toVisit);
      while toVisit != []
        invariant visited <= nodes && (set y | y in toVisit) <= nodes
        invariant Searching(parents, id, toVisit, visited)
        invariant forall y: Id :: y in ancestors <==> y in visited
        invariant forall i, j :: 0 <= i < j < |ancestors| ==> ancestors[i] != ancestors[j]
        invariant Forest(parents) ==> Climbing(parents, id, toVisit, ancestors)
        decreases nodes - visited, |toVisit|
      {
        var cur := toVisit[0];
        if cur in visited {
          ClimbIsFresh(parents, id, toVisit, ancestors);
          SearchSkip(parents, id, toVisit, visited);
          toVisit := toVisit[1..];
          continue;
        }
        var found := Elements(At(parents, cur));
        SearchStep(parents, id, toVisit, visited, found);
        ClimbStep(parents, id, toVisit, ancestors, found);
        assert At(parents, cur) <= nodes;
        toVisit := toVisit[1..];
        visited := visited + {cur};
        ancestors := [cur] + ancestors;
        toVisit := toVisit + found;
      }
      SearchDone(parents, id, visited);
    }
  }
}
