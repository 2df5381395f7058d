/** The 2-D nearest-neighbour index over the admitted places. Only the
    contract of a k-d tree query is modelled: the answer is an indexed
    point with no indexed point strictly closer. */
module SpatialIndex {
  import opened Places

  datatype Point = Point(lat: real, lon: real)

  /** An index node: its point and the back-reference to its place. */
  datatype Node = Node(data: Point, place: Place)

  /** Squared Euclidean distance in (lat, lon) space, the tree's metric. */
  function SqDist(a: Point, b: Point): real
  {
    (a.lat - b.lat) * (a.lat - b.lat) + (a.lon - b.lon) * (a.lon - b.lon)
  }

  /** `n` is one of `nodes` and no node of `nodes` is strictly closer to `q`. */
  predicate IsNearest(n: Node, q: Point, nodes: seq<Node>)
  {
    n in nodes && forall m :: m in nodes ==> SqDist(n.data, q) <= SqDist(m.data, q)
  }

  class PlaceIndex {
    var nodes: seq<Node>

    /** `kdtree.create(dimensions=2)`: an empty tree. */
    constructor ()
      ensures nodes == []
    {
      nodes := [];
    }

    /** `tree.add(point)` followed by `node.place = place`. */
    method Add(data: Point, place: Place)
      modifies this
      ensures nodes == old(nodes) + [Node(data, place)]
    {
      nodes := nodes + [Node(data, place)];
    }

    /** `tree.search_nn(q)`, here by a linear scan that keeps the first node
        found at the least distance. */
    method SearchNearest(q: Point) returns (n: Node)
      requires nodes != []
      ensures IsNearest(n, q, nodes)
    {
      n := nodes[0];
      var best := SqDist(n.data, q);
      var i := 1;
      while i < |nodes|
        invariant 1 <= i <= |nodes|
        invariant n in nodes && best == SqDist(n.data, q)
        invariant forall j :: 0 <= j < i ==> best <= SqDist(nodes[j].data, q)
      {
        var d := SqDist(nodes[i].data, q);
        if d < best {
          n, best := nodes[i], d;
        }
        i := i + 1;
      }
    }
  }
}
