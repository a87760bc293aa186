/** Dependency graphs: what a cycle is, the depth-first check shared by the three graph validators, and
    why an acyclic graph always leaves something to do. */
module Digraphs {

  /** Each node with the nodes it depends on. A dependency that is not itself a key has no dependencies. */
  type Graph<K> = map<K, seq<K>>

  predicate Edge<K(==)>(g: Graph<K>, a: K, b: K) {
    a in g && b in g[a]
  }

  ghost predicate Walk<K>(g: Graph<K>, p: seq<K>) {
    forall i :: 0 < i < |p| ==> Edge(g, p[i - 1], p[i])
  }

  ghost predicate Cycle<K>(g: Graph<K>, p: seq<K>) {
    |p| >= 2 && Walk(g, p) && p[0] == p[|p| - 1]
  }

  ghost predicate Acyclic<K(!new)>(g: Graph<K>) {
    forall p: seq<K> :: !Cycle(g, p)
  }

  // ----- Finishing orders -----

  /** Every dependency of a node comes before it, unless it is no key at all. */
  ghost predicate Finished<K>(g: Graph<K>, order: seq<K>) {
    forall i, b :: 0 <= i < |order| && Edge(g, order[i], b) && b in g ==> b in order[..i]
  }

  /** Along a walk that ends in a key, the places in a finishing order fall. */
  lemma {:induction false} WalkFalls<K(!new)>(g: Graph<K>, order: seq<K>, p: seq<K>, i: nat) returns (j: nat)
    requires Finished(g, order) && Walk(g, p) && p != [] && p[|p| - 1] in g
    requires i < |order| && order[i] == p[0]
    ensures j + |p| - 1 <= i && order[j] == p[|p| - 1]
    decreases |p|
  {
    if |p| == 1 {
      j := i;
    } else {
      assert Edge(g, p[0], p[1]);
      assert p[1] in g by {
        if |p| > 2 {
          assert Edge(g, p[1], p[2]);
        }
      }
      var k :| 0 <= k < i && order[k] == p[1];
      forall x | 0 < x < |p[1..]| ensures Edge(g, p[1..][x - 1], p[1..][x]) {
        assert Edge(g, p[x], p[x + 1]);
      }
      j := WalkFalls(g, order, p[1..], k);
    }
  }

  lemma FinishedAcyclic<K(!new)>(g: Graph<K>, order: seq<K>)
    requires Finished(g, order) && (forall k :: k in g ==> k in order)
    requires forall i, j :: 0 <= i < j < |order| ==> order[i] != order[j]
    ensures Acyclic(g)
  {
    forall p: seq<K> | Cycle(g, p) ensures false {
      assert Edge(g, p[0], p[1]);
      var i :| 0 <= i < |order| && order[i] == p[0];
      var j := WalkFalls(g, order, p, i);
    }
  }

  // ----- Depth-first search -----

  class Visitor<K(==, !new)> {
    const g: Graph<K>
    var visiting: set<K>
    var done: set<K>
    ghost var order: seq<K>

    ghost predicate Valid()
      reads this
    {
      && Finished(g, order) && done == (set k | k in order)
      && (forall i, j :: 0 <= i < j < |order| ==> order[i] != order[j])
      && visiting <= g.Keys && visiting !! done
    }

    constructor (g: Graph<K>)
      ensures Valid() && this.g == g && visiting == {} && done == {}
    {
      this.g, this.visiting, this.done, this.order := g, {}, {}, [];
    }

    /** Visit one node below the nodes of `path`, which are exactly those being visited. */
    method Visit(v: K, ghost path: seq<K>) returns (ok: bool)
      requires Valid() && visiting == (set k | k in path) && Walk(g, path + [v])
      modifies this`visiting, this`done, this`order
      ensures !ok ==> exists p: seq<K> :: Cycle(g, p)
      ensures ok ==> Valid() && visiting == old(visiting) && old(done) <= done && (v in g ==> v in done)
      decreases g.Keys - visiting
    {
      if v in visiting {
        CycleClosed(g, path, v);
        return false;
      }
      if v in done || v !in g {
        return true;
      }
      ghost var below := path + [v];
      visiting := visiting + {v};
      for i := 0 to |g[v]|
        invariant Valid() && visiting == old(visiting) + {v} && old(done) <= done
        invariant forall k :: 0 <= k < i && g[v][k] in g ==> g[v][k] in done
      {
        WalkOn(g, below, g[v][i]);
        ok := Visit(g[v][i], below);
        if !ok {
          return;
        }
      }
      Finish(g, order, v);
      visiting := visiting - {v};
      done := done + {v};
      order := order + [v];
      ok := true;
    }
  }

  lemma WalkOn<K(!new)>(g: Graph<K>, path: seq<K>, b: K)
    requires Walk(g, path) && path != [] && Edge(g, path[|path| - 1], b)
    ensures Walk(g, path + [b])
  {
  }

  lemma CycleClosed<K(!new)>(g: Graph<K>, path: seq<K>, v: K)
    requires Walk(g, path + [v]) && v in path
    ensures exists p: seq<K> :: Cycle(g, p)
  {
    var i :| 0 <= i < |path| && path[i] == v;
    var p := (path + [v])[i..];
    forall k | 0 < k < |p| ensures Edge(g, p[k - 1], p[k]) {
      assert Edge(g, (path + [v])[i + k - 1], (path + [v])[i + k]);
    }
    assert Cycle(g, p);
  }

  lemma Finish<K(!new)>(g: Graph<K>, order: seq<K>, v: K)
    requires Finished(g, order) && v in g && forall k :: 0 <= k < |g[v]| && g[v][k] in g ==> g[v][k] in order
    ensures Finished(g, order + [v])
  {
    var after := order + [v];
    forall i, b | 0 <= i < |after| && Edge(g, after[i], b) && b in g
      ensures b in after[..i]
    {
      assert after[..i] == order[..i];
      if i == |order| {
        assert order[..i] == order;
      }
    }
  }

  /** Visit every node: the check accepts exactly the acyclic graphs, and always ends. */
  method CheckAcyclic<K(==, !new)>(g: Graph<K>, nodes: seq<K>) returns (ok: bool)
    requires forall k :: k in g ==> k in nodes
    ensures ok <==> Acyclic(g)
  {
    var visitor := new Visitor(g);
    for i := 0 to |nodes|
      invariant visitor.Valid() && visitor.visiting == {} && visitor.g == g
      invariant forall k :: 0 <= k < i && nodes[k] in g ==> nodes[k] in visitor.done
    {
      ok := visitor.Visit(nodes[i], []);
      if !ok {
        return;
      }
    }
    FinishedAcyclic(g, visitor.order);
    ok := true;
  }

  // ----- Something is always ready -----

  lemma {:induction false} Pigeonhole<K>(p: seq<K>, within: set<K>) returns (i: nat, j: nat)
    requires |p| > |within| && forall k :: 0 <= k < |p| ==> p[k] in within
    ensures i < j < |p| && p[i] == p[j]
    decreases |p|
  {
    var n := |p| - 1;
    if k :| 0 <= k < n && p[k] == p[n] {
      i, j := k, n;
    } else {
      i, j := Pigeonhole(p[..n], within - {p[n]});
    }
  }

  ghost predicate Continues<K>(g: Graph<K>, within: set<K>, u: K) {
    exists b :: b in within && Edge(g, u, b)
  }

  lemma {:induction false} WalkInside<K(!new)>(g: Graph<K>, within: set<K>, n: nat) returns (p: seq<K>)
    requires within != {} && forall u :: u in within ==> Continues(g, within, u)
    ensures |p| == n + 1 && Walk(g, p) && forall k :: 0 <= k < |p| ==> p[k] in within
  {
    if n == 0 {
      var u :| u in within;
      p := [u];
    } else {
      p := WalkInside(g, within, n - 1);
      assert Continues(g, within, p[n - 1]);
      var b :| b in within && Edge(g, p[n - 1], b);
      WalkOn(g, p, b);
      p := p + [b];
    }
  }

  /** In an acyclic graph every nonempty finite set of nodes has one that depends on no other of the set. */
  lemma IndependentNode<K(!new)>(g: Graph<K>, within: set<K>) returns (u: K)
    requires Acyclic(g) && within != {}
    ensures u in within && forall b :: Edge(g, u, b) ==> b !in within
  {
    if forall x :: x in within ==> Continues(g, within, x) {
      var c := CycleInside(g, within);
      assert false;
    }
    u :| u in within && !Continues(g, within, u);
  }

  /** Going on for ever inside a finite set runs into a cycle. */
  lemma CycleInside<K(!new)>(g: Graph<K>, within: set<K>) returns (c: seq<K>)
    requires within != {} && forall u :: u in within ==> Continues(g, within, u)
    ensures Cycle(g, c)
  {
    var p := WalkInside(g, within, |within|);
    var i, j := Pigeonhole(p, within);
    c := p[i..j + 1];
    forall k | 0 < k < |c| ensures Edge(g, c[k - 1], c[k]) {
      assert Edge(g, p[i + k - 1], p[i + k]);
    }
  }
}
