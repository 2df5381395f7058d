/** Start-up: the loop of the `__main__` block that walks the gazetteer,
    appends every admitted place to the global `places` list and adds its
    point to the tree. A `float()` that raises ends the loop, and the
    process, at that place. */
module Loader {
  import opened Wrappers
  import opened Coordinates
  import opened Places
  import opened SpatialIndex

  /** The globals after loading a prefix of the gazetteer, and the error
      that stopped the loop, if one did. */
  datatype LoadState = LoadState(places: seq<Place>, nodes: seq<Node>, failure: Option<Error>)

  /** One turn of the loop. An admitted place is appended to `places` before
      its coordinates are converted, so a failing conversion leaves it in
      `places` but not in the tree. */
  function LoadStep(st: LoadState, p: Place, parse: FloatParser): LoadState
  {
    if st.failure.Some? || Excluded(p) then st
    else
      match PlaceCoordinates(p, parse)
      case Err(e) => LoadState(st.places + [p], st.nodes, Some(e))
      case Ok((lat, lon)) => LoadState(st.places + [p], st.nodes + [Node(Point(lat, lon), p)], None)
  }

  /** The loop over the whole gazetteer `s`, starting from empty globals. */
  function Load(s: seq<Place>, parse: FloatParser): LoadState
    decreases |s|
  {
    if s == [] then LoadState([], [], None)
    else LoadStep(Load(s[..|s| - 1], parse), s[|s| - 1], parse)
  }

  /** Once a conversion has failed, the rest of the gazetteer is not looked at. */
  lemma {:induction false} LoadStopsAtFailure(s: seq<Place>, i: nat, parse: FloatParser)
    requires i <= |s|
    requires Load(s[..i], parse).failure.Some?
    ensures Load(s, parse) == Load(s[..i], parse)
    decreases |s|
  {
    if i < |s| {
      var init := s[..|s| - 1];
      assert init[..i] == s[..i];
      LoadStopsAtFailure(init, i, parse);
    } else {
      assert s[..i] == s;
    }
  }

  /** Every indexed node carries an admitted place of the input: a place the
      filter excludes is never in the tree, so it can never be a match. */
  lemma {:induction false} LoadIndexesOnlyAdmitted(s: seq<Place>, parse: FloatParser)
    ensures forall n :: n in Load(s, parse).nodes ==> n.place in s && !Excluded(n.place)
    decreases |s|
  {
    if s != [] {
      var init := s[..|s| - 1];
      LoadIndexesOnlyAdmitted(init, parse);
      assert s == init + [s[|s| - 1]];
    }
  }

  /** When the whole gazetteer loads, `places` is exactly the admitted
      places in input order, and the i-th tree node is the i-th place at the
      point its `LAT` and `LON` convert to. */
  lemma {:induction false} LoadSucceeded(s: seq<Place>, parse: FloatParser)
    requires Load(s, parse).failure.None?
    ensures Load(s, parse).places == Admitted(s)
    ensures |Load(s, parse).nodes| == |Admitted(s)|
    ensures forall i :: 0 <= i < |Admitted(s)| ==>
              Load(s, parse).nodes[i].place == Admitted(s)[i] &&
              PlaceCoordinates(Admitted(s)[i], parse) ==
                Ok((Load(s, parse).nodes[i].data.lat, Load(s, parse).nodes[i].data.lon))
    decreases |s|
  {
    if s != [] {
      var init := s[..|s| - 1];
      LoadSucceeded(init, parse);
    }
  }

  /** The load fails exactly when some admitted place has a `LAT` or `LON`
      that `float()` refuses. */
  lemma {:induction false} LoadFails(s: seq<Place>, parse: FloatParser)
    ensures Load(s, parse).failure.None? <==>
            forall p :: p in Admitted(s) ==> PlaceCoordinates(p, parse).Ok?
    decreases |s|
  {
    if s != [] {
      var init, last := s[..|s| - 1], s[|s| - 1];
      LoadFails(init, parse);
      if !Excluded(last) {
        assert last in Admitted(s);
      }
    }
  }

  /** The module-level globals of the service: the `places` list and the tree. */
  class ServiceState {
    var places: seq<Place>
    const tree: PlaceIndex

    constructor ()
      ensures places == [] && tree.nodes == [] && fresh(tree)
    {
      places := [];
      tree := new PlaceIndex();
    }

    /** The load loop over the gazetteer `input`. */
    method LoadPlaces(input: seq<Place>, parse: FloatParser) returns (failure: Option<Error>)
      modifies this, tree
      ensures failure == Load(input, parse).failure
      ensures places == old(places) + Load(input, parse).places
      ensures tree.nodes == old(tree.nodes) + Load(input, parse).nodes
    {
      failure := None;
      var i := 0;
      while i < |input| && failure.None?
        invariant 0 <= i <= |input|
        invariant failure == Load(input[..i], parse).failure
        invariant places == old(places) + Load(input[..i], parse).places
        invariant tree.nodes == old(tree.nodes) + Load(input[..i], parse).nodes
      {
        var place := input[i];
        assert input[..i + 1][..i] == input[..i];
        if !Excluded(place) {
          places := places + [place];
          var coords := PlaceCoordinates(place, parse);
          if coords.Err? {
            failure := Some(coords.error);
          } else {
            var (lat, lon) := coords.value;
            tree.Add(Point(lat, lon), place);
          }
        }
        i := i + 1;
      }
      if i < |input| {
        LoadStopsAtFailure(input, i, parse);
      } else {
        assert input[..i] == input;
      }
    }
  }
}
