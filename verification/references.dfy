/**
 References: the target of a `$ref` is looked up once in its reference source
 and parsed once. A referencing node that carries nothing besides the
 identification keywords is answered by the target's parse alone; otherwise
 the node is merged over the target and both parses are intersected.
 */
module References {
  import opened Schemas
  import opened MetaTypes
  import Paths

  /** Keywords that identify a schema rather than constrain it. */
  const IdentificationKeywords: set<string> := {"$ref", "$id", "$schema", "$comment"}

  /** `HasMergeableKeys`: whether the node constrains anything beyond its
      identification keywords. A boolean schema never does; an object does
      exactly when it has some other key. (Other JSON values are not
      referencing nodes; their TypeScript key sets are those of strings,
      numbers and arrays, which are never empty, and that of `null`, which is.) */
  function HasMergeableKeys(node: Schema): (b: bool)
    ensures node.Bool? ==> !b
    ensures node.Obj? ==> (b <==> exists k :: k in node.keys && k !in IdentificationKeywords)
  {
    match node
    case Bool(_) => false
    case Obj(keys) =>
      assert forall k :: k in keys.Keys - IdentificationKeywords <==> k in keys && k !in IdentificationKeywords;
      keys.Keys - IdentificationKeywords != {}
    case Null => false
    case _ => true
  }

  /** The referenced node: the whole source when there is no path, otherwise
      the node reached by walking the path's keys, or the schema `false` when
      the path does not resolve. */
  function MatchingReference(source: Schema, path: Path): (target: Schema)
    ensures path.Whole? ==> target == source
    ensures path.Pointer? && !Paths.Resolves(source, Paths.Segments(path.pointer)) ==> target == Bool(false)
    ensures path.Pointer? && Paths.Resolves(source, Paths.Segments(path.pointer)) ==>
              target == Paths.DeepGet(source, Paths.Segments(path.pointer), Bool(false))
  {
    match path
    case Whole => source
    case Pointer(p) => Paths.DeepGet(source, Paths.Segments(p), Bool(false))
  }

  /** `ParseReference`. The target is parsed once and that one parse is the
      whole answer on the fast path and the first argument of the
      intersection otherwise. */
  function ParseReference(node: Schema, source: Schema, path: Path,
                          merge: (Schema, Schema) -> Schema, parse: Schema -> MetaType): (r: MetaType)
    ensures !HasMergeableKeys(node) ==> r == parse(MatchingReference(source, path))
    ensures HasMergeableKeys(node) ==>
              r == Intersect([parse(MatchingReference(source, path)),
                              parse(merge(MatchingReference(source, path), node))])
  {
    var target := MatchingReference(source, path);
    var parsedReference := parse(target);
    if !HasMergeableKeys(node) then parsedReference
    else Intersect([parsedReference, parse(merge(target, node))])
  }

  lemma ReferenceThreads(node: Schema, source: Schema, path: Path, merge: (Schema, Schema) -> Schema,
                         parse: Schema -> MetaType, opts: Options)
    requires ParsesThread(parse, opts)
    ensures ThreadsOptions(ParseReference(node, source, path, merge, parse), opts)
  {
    var target := MatchingReference(source, path);
    assert ThreadsOptions(parse(target), opts);
    assert ThreadsOptions(parse(merge(target, node)), opts);
  }
}
