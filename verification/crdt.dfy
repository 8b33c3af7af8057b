/** The boundary to the CRDT engine and to base64.

    The engine's binary update format, its merge rules and the base64 codec
    are library code outside this model. They appear here as the four
    functions of an `Engine` value, about which only the facts the document
    helpers rely on are assumed, as the hypothesis `Coherent`. A document is
    the map from root names to what the engine holds under each name. */
module Crdt {
  import opened Wrappers
  import opened Xml

  type Bytes = seq<bv8>

  /** What a document holds under one root name: an XML fragment (its nodes),
      or a value the engine refuses to read as an XML fragment. pycrdt itself
      reads any root as a fragment when asked for one, so `OtherRoot` stands
      for a stricter engine, not for a case the helpers check. */
  datatype Root =
    | XmlRoot(nodes: seq<Node>)
    | OtherRoot(kind: string)

  type Roots = map<string, Root>

  /** base64 decoding and encoding, applying an update to a document state
      and encoding a whole state as one update. Failures carry the library's
      message. */
  datatype Engine = Engine(
    b64decode: string -> Result<Bytes, string>,
    b64encode: Bytes -> string,
    applyUpdate: (Roots, Bytes) -> Result<Roots, string>,
    encodeState: Roots -> Bytes)

  /** The facts about the libraries that the round trip depends on: base64
      decoding inverts encoding; applying the encoding of a state to an empty
      document reproduces that state; an encoded state is never empty, and
      neither is the base64 text of a non-empty byte string. */
  ghost predicate Coherent(e: Engine) {
    && (forall b :: e.b64decode(e.b64encode(b)) == Ok(b))
    && (forall s :: e.applyUpdate(map[], e.encodeState(s)) == Ok(s))
    && (forall s :: e.encodeState(s) != [])
    && (forall b :: b != [] ==> e.b64encode(b) != [])
  }

  /** A `pycrdt.Doc`: its roots change as updates are applied and values are
      assigned to root names. */
  class YDoc {
    var roots: Roots

    /** `pycrdt.Doc()`: a document with no roots. */
    constructor()
      ensures roots == map[]
    {
      roots := map[];
    }

    /** `doc.apply_update(update)`: on success the document holds the merged
        state; on failure the library raises and the document is unchanged. */
    method ApplyUpdate(engine: Engine, update: Bytes) returns (r: Result<(), string>)
      modifies this
      ensures engine.applyUpdate(old(roots), update).Ok? ==>
                r.Ok? && roots == engine.applyUpdate(old(roots), update).value
      ensures engine.applyUpdate(old(roots), update).Err? ==>
                r == Err(engine.applyUpdate(old(roots), update).error) && roots == old(roots)
    {
      match engine.applyUpdate(roots, update)
      case Ok(s) =>
        roots := s;
        r := Ok(());
      case Err(e) =>
        r := Err(e);
    }

    /** `doc[name] = value`: the root is replaced, the others are kept. */
    method Set(name: string, value: Root)
      modifies this
      ensures roots == old(roots)[name := value]
      ensures name in roots && roots[name] == value
      ensures forall k :: k in old(roots) && k != name ==> k in roots && roots[k] == old(roots)[k]
    {
      roots := roots[name := value];
    }

    /** `list(doc.keys())`: every root name exactly once, in some order. */
    method Keys() returns (ks: seq<string>)
      ensures forall k :: k in ks <==> k in roots
      ensures forall i, j :: 0 <= i < j < |ks| ==> ks[i] != ks[j]
      ensures |ks| == |roots|
    {
      var rest := roots.Keys;
      ks := [];
      while rest != {}
        invariant rest <= roots.Keys
        invariant forall k :: k in ks <==> k in roots && k !in rest
        invariant forall i, j :: 0 <= i < j < |ks| ==> ks[i] != ks[j]
        invariant |ks| + |rest| == |roots|
        decreases |rest|
      {
        var k :| k in rest;
        ks := ks + [k];
        rest := rest - {k};
      }
    }

    /** `doc.get_update()`: the whole state as one update. */
    function Update(engine: Engine): Bytes
      reads this
    {
      engine.encodeState(roots)
    }
  }

  /** Decoding the base64 text and applying it to a fresh document, as both
      document readers do. */
  function DecodeDoc(engine: Engine, b64: string): Result<Roots, string>
  {
    match engine.b64decode(b64)
    case Err(e) => Err(e)
    case Ok(bytes) => engine.applyUpdate(map[], bytes)
  }

  /** Under a coherent engine, decoding the base64 text of an encoded state
      gives that state back. */
  lemma DecodeEncoded(engine: Engine, s: Roots)
    requires Coherent(engine)
    ensures DecodeDoc(engine, engine.b64encode(engine.encodeState(s))) == Ok(s)
    ensures engine.b64encode(engine.encodeState(s)) != []
  {
    var b := engine.encodeState(s);
    assert engine.b64decode(engine.b64encode(b)) == Ok(b);
    assert engine.applyUpdate(map[], b) == Ok(s);
    assert b != [];
  }
}
