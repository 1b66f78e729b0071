/** Directed graphs over names: walks, reachability and cycles.
    A name outside the map has no successors. */
module Graph {

  type Edges = map<string, set<string>>

  function Succ(g: Edges, n: string): set<string> {
    if n in g then g[n] else {}
  }

  ghost predicate IsWalk(g: Edges, p: seq<string>) {
    && |p| > 0
    && forall i {:trigger p[i]} :: 0 < i < |p| ==> p[i] in Succ(g, p[i - 1])
  }

  ghost predicate WalkFromTo(g: Edges, p: seq<string>, a: string, b: string) {
    IsWalk(g, p) && p[0] == a && p[|p| - 1] == b
  }

  ghost predicate Reaches(g: Edges, a: string, b: string) {
    exists p :: WalkFromTo(g, p, a, b)
  }

  /** Some edge n -> d closes a cycle through n. */
  ghost predicate OnCycle(g: Edges, n: string) {
    exists d :: d in Succ(g, n) && Reaches(g, d, n)
  }

  ghost predicate ReachesCycle(g: Edges, n: string) {
    exists m :: Reaches(g, n, m) && OnCycle(g, m)
  }

  ghost predicate Acyclic(g: Edges) {
    forall n :: !OnCycle(g, n)
  }

  /** Every edge ends at a node of the graph. */
  ghost predicate Closed(g: Edges) {
    forall n, d :: n in g && d in g[n] ==> d in g
  }

  lemma ReachesSelf(g: Edges, a: string)
    ensures Reaches(g, a, a)
  {
    assert WalkFromTo(g, [a], a, a);
  }

  lemma ReachesTransitive(g: Edges, a: string, b: string, c: string)
    requires Reaches(g, a, b) && Reaches(g, b, c)
    ensures Reaches(g, a, c)
  {
    var p :| WalkFromTo(g, p, a, b);
    var q :| WalkFromTo(g, q, b, c);
    var r := p + q[1..];
    forall i | 0 < i < |r| ensures r[i] in Succ(g, r[i - 1]) {
      if i >= |p| {
        var j := i - |p| + 1;
        assert r[i] == q[j];
        assert r[i - 1] == q[j - 1];
      }
    }
    assert WalkFromTo(g, r, a, c);
  }

  lemma ReachesStep(g: Edges, a: string, d: string, b: string)
    requires d in Succ(g, a) && Reaches(g, d, b)
    ensures Reaches(g, a, b)
  {
    assert WalkFromTo(g, [a, d], a, d);
    ReachesTransitive(g, a, d, b);
  }

  /** A walk's every position is reached from every earlier one. */
  lemma WalkReaches(g: Edges, p: seq<string>, i: nat, j: nat)
    requires IsWalk(g, p) && i <= j < |p|
    ensures Reaches(g, p[i], p[j])
  {
    var q := p[i..j + 1];
    forall k | 0 < k < |q| ensures q[k] in Succ(g, q[k - 1]) {
      assert q[k] == p[i + k];
    }
    assert WalkFromTo(g, q, p[i], p[j]);
  }

  /** The first edge of a walk that goes anywhere. */
  lemma FirstStep(g: Edges, a: string, b: string) returns (d: string)
    requires Reaches(g, a, b) && a != b
    ensures d in Succ(g, a) && Reaches(g, d, b)
  {
    var p :| WalkFromTo(g, p, a, b);
    d := p[1];
    assert p[1] in Succ(g, p[0]);
    WalkReaches(g, p, 1, |p| - 1);
  }

  /** The last edge of a walk that goes anywhere. */
  lemma LastStep(g: Edges, a: string, b: string) returns (d: string)
    requires Reaches(g, a, b) && a != b
    ensures Reaches(g, a, d) && b in Succ(g, d)
  {
    var p :| WalkFromTo(g, p, a, b);
    d := p[|p| - 2];
    assert p[|p| - 1] in Succ(g, p[|p| - 2]);
    WalkReaches(g, p, 0, |p| - 2);
  }

  lemma CycleThrough(g: Edges, a: string, d: string)
    requires d in Succ(g, a) && ReachesCycle(g, d)
    ensures ReachesCycle(g, a)
  {
    var m :| Reaches(g, d, m) && OnCycle(g, m);
    ReachesStep(g, a, d, m);
  }

  /** A cycle reached from a node is reached through one of its successors. */
  lemma CycleThroughSuccessor(g: Edges, a: string) returns (d: string)
    requires ReachesCycle(g, a)
    ensures d in Succ(g, a) && ReachesCycle(g, d)
  {
    var m :| Reaches(g, a, m) && OnCycle(g, m);
    if a == m {
      d :| d in Succ(g, a) && Reaches(g, d, a);
      assert OnCycle(g, a);
    } else {
      d := FirstStep(g, a, m);
    }
  }

  lemma OnCycleReachesCycle(g: Edges, n: string)
    requires OnCycle(g, n)
    ensures ReachesCycle(g, n)
  {
    ReachesSelf(g, n);
  }

  // ---- Graphs with more edges ----

  lemma ReachesInLarger(g: Edges, h: Edges, a: string, b: string)
    requires Reaches(g, a, b) && forall n :: Succ(g, n) <= Succ(h, n)
    ensures Reaches(h, a, b)
  {
    var p :| WalkFromTo(g, p, a, b);
    forall i | 0 < i < |p| ensures p[i] in Succ(h, p[i - 1]) {
      assert p[i] in Succ(g, p[i - 1]);
    }
    assert WalkFromTo(h, p, a, b);
  }

  lemma OnCycleInLarger(g: Edges, h: Edges, n: string)
    requires OnCycle(g, n) && forall m :: Succ(g, m) <= Succ(h, m)
    ensures OnCycle(h, n)
  {
    hide Reaches;
    var d :| d in Succ(g, n) && Reaches(g, d, n);
    ReachesInLarger(g, h, d, n);
    assert d in Succ(h, n);
  }
}
