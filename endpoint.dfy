/** The `generate` generator of the `/transform` handler: it streams a JSON
    array, one piece at a time, transforming each entity just before its
    element is written. */
module Endpoint {
  import opened Wrappers
  import opened Json
  import opened Coordinates
  import opened SpatialIndex
  import opened Enrichment

  /** The pieces for the elements: each element, preceded by a "," unless it
      is the first. */
  function Pieces(elements: seq<string>): seq<string>
    decreases |elements|
  {
    if elements == [] then []
    else
      var n := |elements|;
      Pieces(elements[..n - 1]) + (if n > 1 then [","] else []) + [elements[n - 1]]
  }

  /** Every piece yielded for a completed stream: "[", the pieces, "]". */
  function Frame(elements: seq<string>): seq<string>
  {
    ["["] + Pieces(elements) + ["]"]
  }

  /** The text the client receives for a sequence of pieces. */
  function Concat(chunks: seq<string>): string
    decreases |chunks|
  {
    if chunks == [] then "" else Concat(chunks[..|chunks| - 1]) + chunks[|chunks| - 1]
  }

  /** The elements separated by `sep`. */
  function Join(sep: string, elements: seq<string>): string
    decreases |elements|
  {
    if elements == [] then ""
    else if |elements| == 1 then elements[0]
    else Join(sep, elements[..|elements| - 1]) + sep + elements[|elements| - 1]
  }

  /** Element k is piece 2k and, for k > 0, piece 2k - 1 is the separator: each element appears once, in order, with one "," between
      neighbours and none before the first. */
  lemma {:induction false} PiecesLayout(elements: seq<string>)
    ensures |Pieces(elements)| == if elements == [] then 0 else 2 * |elements| - 1
    ensures forall k :: 0 <= k < |elements| ==> Pieces(elements)[2 * k] == elements[k]
    ensures forall k :: 1 <= k < |elements| ==> Pieces(elements)[2 * k - 1] == ","
    decreases |elements|
  {
    if elements != [] {
      var init := elements[..|elements| - 1];
      PiecesLayout(init);
    }
  }

  lemma {:induction false} ConcatAppend(a: seq<string>, b: seq<string>)
    ensures Concat(a + b) == Concat(a) + Concat(b)
    decreases |b|
  {
    if b == [] {
      assert a + b == a;
    } else {
      var init := b[..|b| - 1];
      ConcatAppend(a, init);
      assert (a + b)[..|a + b| - 1] == a + init;
    }
  }

  /** The streamed text is "[", the elements joined by ",", then "]". */
  lemma {:induction false} FrameText(elements: seq<string>)
    ensures Concat(Frame(elements)) == "[" + Join(",", elements) + "]"
  {
    PiecesText(elements);
    ConcatAppend(["["] + Pieces(elements), ["]"]);
    ConcatAppend(["["], Pieces(elements));
    assert Concat(["["]) == "[" by { assert ["["][..0] == []; }
    assert Concat(["]"]) == "]" by { assert ["]"][..0] == []; }
  }

  lemma {:induction false} PiecesText(elements: seq<string>)
    ensures Concat(Pieces(elements)) == Join(",", elements)
    decreases |elements|
  {
    if elements != [] {
      var n := |elements|;
      var init := elements[..n - 1];
      PiecesText(init);
      var sep := if n > 1 then [","] else [];
      ConcatAppend(Pieces(init) + sep, [elements[n - 1]]);
      ConcatAppend(Pieces(init), sep);
      assert Concat([elements[n - 1]]) == elements[n - 1] by { assert [elements[n - 1]][..0] == []; }
      if n > 1 {
        assert Concat([","]) == "," by { assert [","][..0] == []; }
      } else {
        assert init == [];
      }
    }
  }

  /** An empty batch streams as "[]". */
  lemma EmptyBatch()
    ensures Concat(Frame([])) == "[]"
  {
    FrameText([]);
  }

  /** How the stream ended: every entity written, or `transform_entity`
      raised on entity `at`. */
  datatype StreamEnd = Completed | Failed(at: nat, error: Error)

  /** Each `afters[k]` is an enrichment of `befores[k]`. */
  ghost predicate EnrichesEach(befores: seq<map<string, Value>>, afters: seq<map<string, Value>>,
                               nodes: seq<Node>, num: Numerics)
  {
    |befores| == |afters| &&
    forall k {:trigger Enriches(befores[k], afters[k], nodes, num)} ::
      0 <= k < |afters| ==> Enriches(befores[k], afters[k], nodes, num)
  }

  lemma EnrichesEachSnoc(befores: seq<map<string, Value>>, afters: seq<map<string, Value>>,
                         before: map<string, Value>, after: map<string, Value>,
                         nodes: seq<Node>, num: Numerics)
    requires EnrichesEach(befores, afters, nodes, num) && Enriches(before, after, nodes, num)
    ensures EnrichesEach(befores + [before], afters + [after], nodes, num)
  {
    var xs, ys := befores + [before], afters + [after];
    forall k | 0 <= k < |ys| ensures Enriches(xs[k], ys[k], nodes, num) {
      if k < |afters| {
        assert xs[k] == befores[k] && ys[k] == afters[k];
      }
    }
  }

  /** `json.dumps` of each object. */
  function DumpAll(objects: seq<map<string, Value>>, dumps: Value -> string): seq<string>
  {
    seq(|objects|, k requires 0 <= k < |objects| => dumps(Obj(objects[k])))
  }

  lemma DumpAllSnoc(objects: seq<map<string, Value>>, o: map<string, Value>, dumps: Value -> string)
    ensures DumpAll(objects + [o], dumps) == DumpAll(objects, dumps) + [dumps(Obj(o))]
  {
  }

  /** The pieces yielded so far grow by a "," (unless nothing was written
      yet) and the new element. */
  lemma StreamStep(chunks: seq<string>, written: seq<string>, piece: string)
    requires chunks == ["["] + Pieces(written)
    ensures (if written != [] then chunks + [","] else chunks) + [piece] == ["["] + Pieces(written + [piece])
  {
    assert (written + [piece])[..|written|] == written;
  }

  lemma PrefixSnoc<T>(s: seq<T>, i: int)
    requires 0 <= i < |s|
    ensures s[..i] + [s[i]] == s[..i + 1]
  {
  }

  /** The contents of each entity. */
  ghost function FieldsOf(entities: seq<Entity>): (r: seq<map<string, Value>>)
    reads set e | e in entities
    ensures |r| == |entities|
    ensures forall k :: 0 <= k < |entities| ==> r[k] == entities[k].fields
  {
    if entities == [] then [] else FieldsOf(entities[..|entities| - 1]) + [entities[|entities| - 1].fields]
  }

  /** One turn of the loop of `generate`: the "," before every element but
      the `first`, then `transform_entity` on the entity and its
      `json.dumps`. `written` are the elements yielded so far. */
  method Emit(entity: Entity, tree: PlaceIndex, num: Numerics, dumps: Value -> string,
              first: bool, chunks: seq<string>, ghost written: seq<string>,
              ghost befores: seq<map<string, Value>>, ghost afters: seq<map<string, Value>>)
    returns (next: seq<string>, err: Option<Error>)
    requires HasCoordinates(entity.fields) ==> tree.nodes != []
    requires first <==> written == []
    requires chunks == ["["] + Pieces(written)
    requires EnrichesEach(befores, afters, tree.nodes, num)
    modifies entity
    ensures err.None? ==>
              next == ["["] + Pieces(written + [dumps(Obj(entity.fields))]) &&
              EnrichesEach(befores + [old(entity.fields)], afters + [entity.fields], tree.nodes, num)
    ensures err.Some? ==>
              next == chunks + (if written != [] then [","] else []) &&
              entity.fields == old(entity.fields) &&
              HasCoordinates(entity.fields) &&
              GetEntityLatLon(entity.fields, num.parse) == Err(err.value)
  {
    next := chunks;
    if !first {
      next := next + [","];
    }
    err := TransformEntity(entity, tree, num);
    if err.None? {
      var piece := dumps(Obj(entity.fields));
      StreamStep(chunks, written, piece);
      EnrichesEachSnoc(befores, afters, old(entity.fields), entity.fields, tree.nodes, num);
      next := next + [piece];
    }
  }

  /** `generate(entities)`: the pieces yielded, in order. The entities are
      distinct objects, as `request.get_json()` builds them. The ghost
      results record each entity's contents before (`befores`) and, for the
      entities transformed, after (`afters`) the call. */
  method Generate(entities: seq<Entity>, tree: PlaceIndex, num: Numerics, dumps: Value -> string)
    returns (chunks: seq<string>, end: StreamEnd,
             ghost befores: seq<map<string, Value>>, ghost afters: seq<map<string, Value>>)
    requires tree.nodes != [] || forall k :: 0 <= k < |entities| ==> !HasCoordinates(entities[k].fields)
    requires forall i, j :: 0 <= i < j < |entities| ==> entities[i] != entities[j]
    modifies set e | e in entities
    ensures |befores| == |entities|
    ensures forall k :: 0 <= k < |entities| ==> befores[k] == old(entities[k].fields)
    ensures |afters| <= |entities|
    ensures forall k :: 0 <= k < |afters| ==> entities[k].fields == afters[k]
    ensures forall k :: |afters| <= k < |entities| ==> entities[k].fields == befores[k]
    ensures EnrichesEach(befores[..|afters|], afters, tree.nodes, num)
    ensures end.Completed? ==>
              |afters| == |entities| && chunks == Frame(DumpAll(afters, dumps))
    ensures end.Failed? ==>
              |afters| == end.at < |entities| &&
              chunks == ["["] + Pieces(DumpAll(afters, dumps)) + (if end.at > 0 then [","] else []) &&
              HasCoordinates(befores[end.at]) &&
              GetEntityLatLon(befores[end.at], num.parse) == Err(end.error)
  {
    chunks := ["["];
    befores := FieldsOf(entities);
    afters := [];
    var i := 0;
    while i < |entities|
      invariant 0 <= i <= |entities| && |afters| == i
      invariant tree.nodes != [] || forall k :: 0 <= k < |befores| ==> !HasCoordinates(befores[k])
      invariant forall k :: 0 <= k < |entities| ==> entities[k].fields == if k < i then afters[k] else befores[k]
      invariant chunks == ["["] + Pieces(DumpAll(afters, dumps))
      invariant EnrichesEach(befores[..i], afters, tree.nodes, num)
    {
      var entity := entities[i];
      var next, err := Emit(entity, tree, num, dumps, i == 0, chunks, DumpAll(afters, dumps), befores[..i], afters);
      if err.Some? {
        return next, Failed(i, err.value), befores, afters;
      }
      PrefixSnoc(befores, i);
      chunks := next;
      DumpAllSnoc(afters, entity.fields, dumps);
      afters := afters + [entity.fields];
      i := i + 1;
    }
    chunks, end := chunks + ["]"], Completed;
  }
}
