/**
 `oneOf`: the same fold as `anyOf`. Exclusivity ("exactly one branch") is not
 represented: each branch contributes `Intersect([parsedRoot, parse(merge(root,
 sub))])` and the terms are collected into one `Union`.
 */
module OneOf {
  import opened Schemas
  import opened MetaTypes
  import AnyOf

  /** `ParseOneOfSchema`. */
  function ParseOneOf(node: Schema, merge: (Schema, Schema) -> Schema, parse: Schema -> MetaType): (r: MetaType)
    requires IsOneOf(node)
    ensures r.Union?
    ensures |r.members| == |ListAt(node, "oneOf")|
    ensures forall i | 0 <= i < |ListAt(node, "oneOf")| ::
              r.members[i] == AnyOf.BranchTerm(parse(Omit(node, "oneOf")), Omit(node, "oneOf"), ListAt(node, "oneOf")[i], merge, parse)
  {
    var root := Omit(node, "oneOf");
    var parsedRoot := parse(root);
    Union(RecurseOnOneOf(ListAt(node, "oneOf"), root, merge, parse, parsedRoot, []))
  }

  /** `RecurseOnOneOfSchema`: starts from no terms and appends one per branch. */
  function RecurseOnOneOf(subs: seq<Schema>, root: Schema, merge: (Schema, Schema) -> Schema,
                          parse: Schema -> MetaType, parsedRoot: MetaType, acc: seq<MetaType>): (r: seq<MetaType>)
    ensures |r| == |acc| + |subs|
    ensures forall i | 0 <= i < |acc| :: r[i] == acc[i]
    ensures forall i | |acc| <= i < |r| :: r[i] == AnyOf.BranchTerm(parsedRoot, root, subs[i - |acc|], merge, parse)
    decreases |subs|
  {
    if |subs| == 0 then acc
    else RecurseOnOneOf(subs[1..], root, merge, parse, parsedRoot, acc + [AnyOf.BranchTerm(parsedRoot, root, subs[0], merge, parse)])
  }

  /** Exclusivity is not enforced: over the same other keywords and the same
      branch list, `oneOf` builds exactly what `anyOf` builds. */
  lemma OneOfMatchesAnyOf(keys: map<string, Schema>, subs: seq<Schema>,
                          merge: (Schema, Schema) -> Schema, parse: Schema -> MetaType)
    requires "oneOf" !in keys && "anyOf" !in keys
    ensures ParseOneOf(Obj(keys["oneOf" := List(subs)]), merge, parse)
         == AnyOf.ParseAnyOf(Obj(keys["anyOf" := List(subs)]), merge, parse)
  {
    var one := Obj(keys["oneOf" := List(subs)]);
    var any := Obj(keys["anyOf" := List(subs)]);
    assert Omit(one, "oneOf") == Obj(keys);
    assert Omit(any, "anyOf") == Obj(keys);
    var r1 := ParseOneOf(one, merge, parse);
    var r2 := AnyOf.ParseAnyOf(any, merge, parse);
    assert r1.members == r2.members;
  }

  lemma OneOfThreads(node: Schema, merge: (Schema, Schema) -> Schema, parse: Schema -> MetaType, opts: Options)
    requires IsOneOf(node)
    requires ParsesThread(parse, opts)
    ensures ThreadsOptions(ParseOneOf(node, merge, parse), opts)
  {
    var root := Omit(node, "oneOf");
    var subs := ListAt(node, "oneOf");
    var r := ParseOneOf(node, merge, parse);
    assert ThreadsOptions(parse(root), opts);
    forall i | 0 <= i < |r.members| ensures ThreadsOptions(r.members[i], opts) {
      assert r.members[i] == AnyOf.BranchTerm(parse(root), root, subs[i], merge, parse);
      AnyOf.BranchThreads(parse(root), root, subs[i], merge, parse, opts);
    }
  }
}
