/** Python's `float()` on decoded JSON values and the transit-tag decoding
    of an entity's `lat` and `lon` (`get_entity_lat_lon`). */
module Coordinates {
  import opened Wrappers
  import opened Strings
  import opened Json

  /** The exceptions the decoding can raise. */
  datatype Error =
    | KeyMissing(key: string)        // KeyError on `entity[key]`
    | UntaggedString(text: string)   // the AssertionError for a string without a transit tag
    | NotANumber(text: string)       // ValueError: float() of a string that is not a number
    | NotConvertible(v: Value)       // TypeError: float() of null, a list or an object

  /** Python's `float(s)` on a string; None when it raises ValueError. */
  type FloatParser = string -> Option<real>

  /** Python's `float(v)` on a decoded JSON value. */
  function PyFloat(v: Value, parse: FloatParser): (r: Result<real, Error>)
    ensures v.Num? ==> r == Ok(v.n)
    ensures v.Bool? ==> r == Ok(if v.b then 1.0 else 0.0)
    ensures v.Str? ==> (r.Ok? <==> parse(v.s).Some?)
    ensures v.Str? && parse(v.s).Some? ==> r == Ok(parse(v.s).value)
    ensures v.Str? && parse(v.s).None? ==> r == Err(NotANumber(v.s))
    ensures (v.Null? || v.Arr? || v.Obj?) ==> r == Err(NotConvertible(v))
  {
    match v
    case Num(n) => Ok(n)
    case Bool(b) => Ok(if b then 1.0 else 0.0)
    case Str(s) =>
      (match parse(s)
       case Some(x) => Ok(x)
       case None => Err(NotANumber(s)))
    case _ => Err(NotConvertible(v))
  }

  /** A transit-encoded float or decimal: a string starting with `~f` or `~d`. */
  predicate Tagged(s: string)
  {
    StartsWith(s, "~f") || StartsWith(s, "~d")
  }

  /** The decoding of one coordinate field: a tagged string is parsed after
      its two-character tag, any other string is refused, and every other
      value goes through `float()` directly. */
  function DecodeCoordinate(v: Value, parse: FloatParser): (r: Result<real, Error>)
    ensures v.Str? && !Tagged(v.s) ==> r == Err(UntaggedString(v.s))
    ensures v.Str? && Tagged(v.s) ==> r == PyFloat(Str(v.s[2..]), parse)
    ensures !v.Str? ==> r == PyFloat(v, parse)
  {
    match v
    case Str(s) =>
      if Tagged(s) then PyFloat(Str(s[2..]), parse) else Err(UntaggedString(s))
    case _ => PyFloat(v, parse)
  }

  /** Decoding a tagged string yields the parse of the text after the tag,
      and the two tags decode alike. */
  lemma DecodeTagged(tag: string, text: string, parse: FloatParser)
    requires tag == "~f" || tag == "~d"
    ensures DecodeCoordinate(Str(tag + text), parse) ==
            (match parse(text) case Some(x) => Ok(x) case None => Err(NotANumber(text)))
    ensures DecodeCoordinate(Str("~f" + text), parse) == DecodeCoordinate(Str("~d" + text), parse)
  {
    assert ("~f" + text)[..2] == "~f" && ("~f" + text)[2..] == text;
    assert ("~d" + text)[..2] == "~d" && ("~d" + text)[2..] == text;
  }

  /** Decoding succeeds exactly on numbers, booleans, and tagged strings whose
      remainder parses. */
  lemma DecodeSucceeds(v: Value, parse: FloatParser)
    ensures DecodeCoordinate(v, parse).Ok? <==>
            v.Num? || v.Bool? || (v.Str? && Tagged(v.s) && parse(v.s[2..]).Some?)
  {
  }

  /** Decoding a number gives the number back. */
  lemma DecodeNumber(x: real, parse: FloatParser)
    ensures DecodeCoordinate(Num(x), parse) == Ok(x)
  {
  }

  /** Reads `entity[key]` and decodes it. */
  function DecodeField(entity: map<string, Value>, key: string, parse: FloatParser): (r: Result<real, Error>)
    ensures key !in entity ==> r == Err(KeyMissing(key))
    ensures key in entity ==> r == DecodeCoordinate(entity[key], parse)
  {
    if key in entity then DecodeCoordinate(entity[key], parse) else Err(KeyMissing(key))
  }

  /** `get_entity_lat_lon`: decodes `lat` and then `lon` by the same rule.
      Both coordinates must decode; `lat` is decoded first, so its error is
      the one reported when both fail. */
  function GetEntityLatLon(entity: map<string, Value>, parse: FloatParser): (r: Result<(real, real), Error>)
    ensures r.Ok? <==> DecodeField(entity, "lat", parse).Ok? && DecodeField(entity, "lon", parse).Ok?
    ensures r.Ok? ==> r.value == (DecodeField(entity, "lat", parse).value, DecodeField(entity, "lon", parse).value)
    ensures DecodeField(entity, "lat", parse).Err? ==> r == Err(DecodeField(entity, "lat", parse).error)
    ensures DecodeField(entity, "lat", parse).Ok? && DecodeField(entity, "lon", parse).Err? ==>
            r == Err(DecodeField(entity, "lon", parse).error)
  {
    match DecodeField(entity, "lat", parse)
    case Err(e) => Err(e)
    case Ok(lat) =>
      match DecodeField(entity, "lon", parse)
      case Err(e) => Err(e)
      case Ok(lon) => Ok((lat, lon))
  }

  /** `lat` and `lon` follow identical rules: swapping the two fields swaps
      the decoded pair. */
  lemma LatLonSymmetric(entity: map<string, Value>, a: Value, b: Value, parse: FloatParser)
    requires GetEntityLatLon(entity["lat" := a]["lon" := b], parse).Ok?
    ensures GetEntityLatLon(entity["lat" := b]["lon" := a], parse).Ok?
    ensures var (x, y) := GetEntityLatLon(entity["lat" := a]["lon" := b], parse).value;
            GetEntityLatLon(entity["lat" := b]["lon" := a], parse).value == (y, x)
  {
  }
}
