/** The gazetteer's place records and the fixed filter that keeps
    reserved and decommissioned places out of the index. */
module Places {
  import opened Wrappers
  import opened Strings
  import opened Json
  import opened Coordinates

  /** A place object of the gazetteer file: postcode `POSTNR`, place name
      `POSTSTAD`, and the coordinates `LAT` and `LON` as they were decoded. */
  datatype Place = Place(postnr: string, poststad: string, lat: Value, lon: Value)

  /** The marker of a decommissioned place name ("not in use"). */
  const DecommissionMarker: string := "ikkje i bruk"

  /** The load filter: a postcode starting with "00", or a name whose lower
      case contains the decommission marker anywhere. */
  predicate Excluded(p: Place)
    ensures Excluded(p) <==>
            (|p.postnr| >= 2 && p.postnr[0] == '0' && p.postnr[1] == '0') ||
            exists i :: OccursAt(ToLowerAscii(p.poststad), DecommissionMarker, i)
  {
    FindFindsAnyOccurrence(ToLowerAscii(p.poststad), DecommissionMarker);
    assert |p.postnr| >= 2 ==> ((p.postnr[..2] == "00") <==> (p.postnr[0] == '0' && p.postnr[1] == '0'));
    StartsWith(p.postnr, "00") || Find(ToLowerAscii(p.poststad), DecommissionMarker) > -1
  }

  /** The marker is recognised in any letter case: a place whose name holds
      a slice that lower-cases to the marker is excluded. */
  lemma DecommissionedInAnyCase(p: Place, i: int)
    requires 0 <= i && i + |DecommissionMarker| <= |p.poststad|
    requires ToLowerAscii(p.poststad[i..i + |DecommissionMarker|]) == DecommissionMarker
    ensures Excluded(p)
  {
    FindIgnoresCase(p.poststad, DecommissionMarker, i);
  }

  /** A name written in capitals is excluded like its lower-case form. */
  lemma DecommissionedUpperCase(lat: Value, lon: Value)
    ensures Excluded(Place("1234", "FOO IKKJE I BRUK", lat, lon))
  {
    var name := "FOO IKKJE I BRUK";
    assert name[4..16] == "IKKJE I BRUK";
    DecommissionedInAnyCase(Place("1234", name, lat, lon), 4);
  }

  /** The places that pass the filter, in input order. */
  function Admitted(s: seq<Place>): (r: seq<Place>)
    ensures |r| <= |s|
    decreases |s|
  {
    if s == [] then []
    else
      var last := s[|s| - 1];
      Admitted(s[..|s| - 1]) + (if Excluded(last) then [] else [last])
  }

  /** A place is admitted exactly when it is in the input and passes the filter. */
  lemma {:induction false} AdmittedMembership(s: seq<Place>, p: Place)
    ensures p in Admitted(s) <==> p in s && !Excluded(p)
    decreases |s|
  {
    if s != [] {
      var init := s[..|s| - 1];
      AdmittedMembership(init, p);
      assert s == init + [s[|s| - 1]];
    }
  }

  /** The filter works element by element: admitting a concatenation admits
      each part in turn, so the input order is kept. */
  lemma {:induction false} AdmittedAppend(a: seq<Place>, b: seq<Place>)
    ensures Admitted(a + b) == Admitted(a) + Admitted(b)
    decreases |b|
  {
    if b == [] {
      assert a + b == a;
    } else {
      var init, last := b[..|b| - 1], b[|b| - 1];
      var tail := if Excluded(last) then [] else [last];
      AdmittedAppend(a, init);
      assert (a + b)[..|a + b| - 1] == a + init;
      assert (a + b)[|a + b| - 1] == last;
      calc {
        Admitted(a + b);
        Admitted(a + init) + tail;
        Admitted(a) + Admitted(init) + tail;
        Admitted(a) + (Admitted(init) + tail);
        Admitted(a) + Admitted(b);
      }
    }
  }

  /** Admitting twice admits nothing more. */
  lemma {:induction false} AdmittedIdempotent(s: seq<Place>)
    ensures Admitted(Admitted(s)) == Admitted(s)
    decreases |s|
  {
    if s != [] {
      var init := s[..|s| - 1];
      var last := s[|s| - 1];
      AdmittedIdempotent(init);
      AdmittedAppend(Admitted(init), if Excluded(last) then [] else [last]);
      if !Excluded(last) {
        assert [last][..0] == [];
      }
    }
  }

  /** The coordinates `(float(place["LAT"]), float(place["LON"]))`,
      `LAT` converted first. */
  function PlaceCoordinates(p: Place, parse: FloatParser): (r: Result<(real, real), Error>)
    ensures r.Ok? <==> PyFloat(p.lat, parse).Ok? && PyFloat(p.lon, parse).Ok?
    ensures r.Ok? ==> r.value == (PyFloat(p.lat, parse).value, PyFloat(p.lon, parse).value)
    ensures PyFloat(p.lat, parse).Err? ==> r == Err(PyFloat(p.lat, parse).error)
  {
    match PyFloat(p.lat, parse)
    case Err(e) => Err(e)
    case Ok(lat) =>
      match PyFloat(p.lon, parse)
      case Err(e) => Err(e)
      case Ok(lon) => Ok((lat, lon))
  }
}
