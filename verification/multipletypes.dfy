/**
 Multiple types: `{ type: [t1, t2, ...] }`. The node without `type` is the root;
 each listed name is pinned back onto the root as a single `type` and the
 result re-parsed; the re-parses are collected into one `Union`. Unlike the
 composition keywords, the root is not parsed on its own nor intersected in.
 */
module MultipleTypes {
  import opened Schemas
  import opened MetaTypes

  function TypeNames(node: Schema): seq<Schema>
    requires IsMultipleTypes(node)
  {
    node.keys["type"].items
  }

  /** `ParseMultipleTypesSchema`. */
  function ParseMultipleTypes(node: Schema, parse: Schema -> MetaType): (r: MetaType)
    requires IsMultipleTypes(node)
    ensures r.Union?
    ensures |r.members| == |TypeNames(node)|
    ensures forall i | 0 <= i < |TypeNames(node)| :: r.members[i] == parse(Pin(Omit(node, "type"), TypeNames(node)[i]))
  {
    var root := Omit(node, "type");
    Union(RecurseOnMixed(TypeNames(node), root, parse, []))
  }

  /** `RecurseOnMixedSchema`: starts from no terms and appends one re-parse per
      type name. */
  function RecurseOnMixed(types: seq<Schema>, root: Schema, parse: Schema -> MetaType, acc: seq<MetaType>): (r: seq<MetaType>)
    requires root.Obj?
    ensures |r| == |acc| + |types|
    ensures forall i | 0 <= i < |acc| :: r[i] == acc[i]
    ensures forall i | |acc| <= i < |r| :: r[i] == parse(Pin(root, types[i - |acc|]))
    decreases |types|
  {
    if |types| == 0 then acc
    else RecurseOnMixed(types[1..], root, parse, acc + [parse(Pin(root, types[0]))])
  }

  lemma MultipleTypesThreads(node: Schema, parse: Schema -> MetaType, opts: Options)
    requires IsMultipleTypes(node)
    requires ParsesThread(parse, opts)
    ensures ThreadsOptions(ParseMultipleTypes(node, parse), opts)
  {
    var r := ParseMultipleTypes(node, parse);
    forall i | 0 <= i < |r.members| ensures ThreadsOptions(r.members[i], opts) {
      assert r.members[i] == parse(Pin(Omit(node, "type"), TypeNames(node)[i]));
    }
  }
}
