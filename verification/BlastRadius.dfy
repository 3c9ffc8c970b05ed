/** The blast-radius worklist of the network map: which nodes a compromise of the selected one can reach. */
module BlastRadius {
  import opened Common

  type Node = string

  datatype Edge = Edge(source: Node, target: Node)

  /** Some edge joins the two nodes, in either direction. */
  predicate Adjacent(edges: seq<Edge>, u: Node, v: Node) {
    exists i :: 0 <= i < |edges| && (edges[i] == Edge(u, v) || edges[i] == Edge(v, u))
  }

  predicate IsPath(edges: seq<Edge>, p: seq<Node>) {
    p != [] && forall i :: 0 <= i < |p| - 1 ==> Adjacent(edges, p[i], p[i + 1])
  }

  ghost predicate Connected(edges: seq<Edge>, u: Node, v: Node) {
    exists p :: IsPath(edges, p) && p[0] == u && p[|p| - 1] == v
  }

  function Endpoints(edges: seq<Edge>): set<Node> {
    (set e | e in edges :: e.source) + (set e | e in edges :: e.target)
  }

  lemma ConnectedStep(edges: seq<Edge>, s: Node, u: Node, v: Node)
    requires Connected(edges, s, u) && Adjacent(edges, u, v)
    ensures Connected(edges, s, v)
  {
    var p :| IsPath(edges, p) && p[0] == s && p[|p| - 1] == u;
    var q := p + [v];
    forall i | 0 <= i < |q| - 1 ensures Adjacent(edges, q[i], q[i + 1]) {
      if i < |p| - 1 { assert Adjacent(edges, p[i], p[i + 1]); }
    }
    assert IsPath(edges, q);
  }

  /** Reachability goes both ways: whoever is in the blast radius of a node has that node in its own. */
  lemma ConnectedBack(edges: seq<Edge>, u: Node, v: Node)
    requires Connected(edges, u, v)
    ensures Connected(edges, v, u)
  {
    var p :| IsPath(edges, p) && p[0] == u && p[|p| - 1] == v;
    var q := seq(|p|, i requires 0 <= i < |p| => p[|p| - 1 - i]);
    forall i | 0 <= i < |q| - 1 ensures Adjacent(edges, q[i], q[i + 1]) {
      var j := |p| - 2 - i;
      assert Adjacent(edges, p[j], p[j + 1]);
    }
    assert IsPath(edges, q);
  }

  /** An edge, whichever way it points, puts its ends into the same blast radius. */
  lemma EdgeConnects(edges: seq<Edge>, i: nat)
    requires i < |edges|
    ensures Connected(edges, edges[i].source, edges[i].target) && Connected(edges, edges[i].target, edges[i].source)
  {
    var s, t := edges[i].source, edges[i].target;
    assert edges[i] == Edge(s, t);
    assert IsPath(edges, [s, t]) && [s, t][0] == s && [s, t][1] == t;
    ConnectedBack(edges, s, t);
  }

  ghost predicate Closed(edges: seq<Edge>, visited: set<Node>) {
    forall u, v :: u in visited && Adjacent(edges, u, v) ==> v in visited
  }

  lemma {:induction false} PathStaysInside(edges: seq<Edge>, visited: set<Node>, p: seq<Node>)
    requires Closed(edges, visited) && IsPath(edges, p) && p[0] in visited
    ensures p[|p| - 1] in visited
  {
    if |p| > 1 {
      assert Adjacent(edges, p[0], p[1]);
      forall i | 0 <= i < |p[1..]| - 1 ensures Adjacent(edges, p[1..][i], p[1..][i + 1]) {
        assert Adjacent(edges, p[i + 1], p[i + 2]);
      }
      PathStaysInside(edges, visited, p[1..]);
    }
  }

  /** Everything visited was reached along edges, and only the queued nodes still have unseen neighbours. */
  ghost predicate Explored(edges: seq<Edge>, s: Node, visited: set<Node>, queue: seq<Node>) {
    && s in visited && visited <= Endpoints(edges) + {s}
    && (forall v :: v in visited ==> Connected(edges, s, v))
    && (forall v :: v in queue ==> v in visited)
    && (forall u, v :: u in visited && u !in queue && Adjacent(edges, u, v) ==> v in visited)
  }

  /** Returns exactly the connected component of the selected node, for every list of edges, although the
      set it tests is the one it is filling. */
  method ReachableNodes(edges: seq<Edge>, selected: Option<Node>, simulating: bool) returns (visited: set<Node>)
    ensures !simulating || selected.None? ==> visited == {}
    ensures simulating && selected.Some? ==> forall v :: v in visited <==> Connected(edges, selected.value, v)
  {
    if !simulating || selected.None? { return {}; }
    var s := selected.value;
    visited := {s};
    var queue := [s];
    assert IsPath(edges, [s]);
    while queue != []
      invariant Explored(edges, s, visited, queue)
      decreases Endpoints(edges) + {s} - visited, |queue|
    {
      visited, queue := Expand(edges, s, visited, queue);
    }
    assert Closed(edges, visited);
    forall v | Connected(edges, s, v) ensures v in visited {
      var p :| IsPath(edges, p) && p[0] == s && p[|p| - 1] == v;
      PathStaysInside(edges, visited, p);
    }
  }

  /** During a pass for `curr`, after some edges: every new node is reached and waits in the queue. */
  ghost predicate Passing(edges: seq<Edge>, s: Node, before: set<Node>, waiting: seq<Node>,
                          visited: set<Node>, queue: seq<Node>)
  {
    && before <= visited <= Endpoints(edges) + {s}
    && (visited == before ==> queue == waiting)
    && (forall v :: v in visited ==> Connected(edges, s, v))
    && (forall v :: v in waiting ==> v in queue)
    && (forall v :: v in queue ==> v in visited)
    && (forall v :: v in visited && v !in before ==> v in queue)
  }

  /** All neighbours of `curr` along `edges` have been visited. */
  predicate Swept(edges: seq<Edge>, curr: Node, visited: set<Node>) {
    forall e :: e in edges ==> (e.source == curr ==> e.target in visited) && (e.target == curr ==> e.source in visited)
  }

  lemma SweptStep(edges: seq<Edge>, i: nat, curr: Node, before: set<Node>, visited: set<Node>)
    requires i < |edges| && Swept(edges[..i], curr, before) && before <= visited
    requires edges[i].source == curr ==> edges[i].target in visited
    requires edges[i].target == curr ==> edges[i].source in visited
    ensures Swept(edges[..i + 1], curr, visited)
  {
    assert edges[..i + 1] == edges[..i] + [edges[i]];
  }

  /** One direction of one edge. */
  method Follow(edges: seq<Edge>, ghost s: Node, ghost before: set<Node>, ghost waiting: seq<Node>,
                curr: Node, from: Node, to: Node, visited: set<Node>, queue: seq<Node>)
    returns (visited': set<Node>, queue': seq<Node>)
    requires Passing(edges, s, before, waiting, visited, queue) && curr in before
    requires Adjacent(edges, from, to) && to in Endpoints(edges)
    ensures Passing(edges, s, before, waiting, visited', queue')
    ensures visited <= visited' && (from == curr ==> to in visited')
  {
    visited', queue' := visited, queue;
    if from == curr && to !in visited {
      ConnectedStep(edges, s, curr, to);
      visited', queue' := visited + {to}, queue + [to];
    }
  }

  /** One turn of the worklist: a pass over all edges for the node at the head of the queue. */
  method Expand(edges: seq<Edge>, s: Node, visited: set<Node>, queue: seq<Node>)
    returns (visited': set<Node>, queue': seq<Node>)
    requires queue != [] && Explored(edges, s, visited, queue)
    ensures Explored(edges, s, visited', queue')
    ensures visited <= visited' && (visited' == visited ==> queue' == queue[1..])
  {
    var curr := queue[0];
    visited', queue' := visited, queue[1..];
    PassStarts(edges, s, visited, queue);
    for i := 0 to |edges|
      invariant Passing(edges, s, visited, queue[1..], visited', queue')
      invariant Swept(edges[..i], curr, visited')
    {
      var src, tgt := edges[i].source, edges[i].target;
      assert Adjacent(edges, src, tgt) && Adjacent(edges, tgt, src) by { assert edges[i] == Edge(src, tgt); }
      assert src in Endpoints(edges) && tgt in Endpoints(edges) by { assert edges[i] in edges; }
      ghost var was := visited';
      visited', queue' := Follow(edges, s, visited, queue[1..], curr, src, tgt, visited', queue');
      visited', queue' := Follow(edges, s, visited, queue[1..], curr, tgt, src, visited', queue');
      SweptStep(edges, i, curr, was, visited');
    }
    assert edges[..|edges|] == edges;
    PassDone(edges, s, visited, queue, visited', queue');
  }

  lemma PassStarts(edges: seq<Edge>, s: Node, visited: set<Node>, queue: seq<Node>)
    requires queue != [] && Explored(edges, s, visited, queue)
    ensures Passing(edges, s, visited, queue[1..], visited, queue[1..]) && queue[0] in visited
  {
    assert queue == [queue[0]] + queue[1..];
  }

  lemma PassDone(edges: seq<Edge>, s: Node, before: set<Node>, queue: seq<Node>, visited: set<Node>, queue': seq<Node>)
    requires queue != [] && Explored(edges, s, before, queue)
    requires Passing(edges, s, before, queue[1..], visited, queue')
    requires Swept(edges, queue[0], visited)
    ensures Explored(edges, s, visited, queue')
  {
    forall u, v | u in visited && u !in queue' && Adjacent(edges, u, v) ensures v in visited {
      if u != queue[0] {
        assert u in before && u !in queue by { assert queue == [queue[0]] + queue[1..]; }
      }
    }
  }
}
