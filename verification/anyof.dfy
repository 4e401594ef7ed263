/**
 `anyOf`: the node without `anyOf` is the root, parsed once; every sub-schema
 contributes one term, `Intersect([parsedRoot, parse(merge(root, sub))])`, and
 the terms are collected into one `Union`.
 */
module AnyOf {
  import opened Schemas
  import opened MetaTypes

  /** The term one branch contributes: the parsed root first, then the parse
      of the branch merged over the root. */
  function BranchTerm(parsedRoot: MetaType, root: Schema, sub: Schema,
                      merge: (Schema, Schema) -> Schema, parse: Schema -> MetaType): (t: MetaType)
    ensures t.Intersect? && |t.members| == 2
    ensures t.members[0] == parsedRoot && t.members[1] == parse(merge(root, sub))
  {
    Intersect([parsedRoot, parse(merge(root, sub))])
  }

  /** `ParseAnyOfSchema`. */
  function ParseAnyOf(node: Schema, merge: (Schema, Schema) -> Schema, parse: Schema -> MetaType): (r: MetaType)
    requires IsAnyOf(node)
    ensures r.Union?
    ensures |r.members| == |ListAt(node, "anyOf")|
    ensures forall i | 0 <= i < |ListAt(node, "anyOf")| ::
              r.members[i] == BranchTerm(parse(Omit(node, "anyOf")), Omit(node, "anyOf"), ListAt(node, "anyOf")[i], merge, parse)
  {
    var root := Omit(node, "anyOf");
    var parsedRoot := parse(root);
    Union(RecurseOnAnyOf(ListAt(node, "anyOf"), root, merge, parse, parsedRoot, []))
  }

  /** `RecurseOnAnyOfSchema`: the accumulator starts empty (`never`) and each
      branch appends its own term; no term is fed into a later one. */
  function RecurseOnAnyOf(subs: seq<Schema>, root: Schema, merge: (Schema, Schema) -> Schema,
                          parse: Schema -> MetaType, parsedRoot: MetaType, acc: seq<MetaType>): (r: seq<MetaType>)
    ensures |r| == |acc| + |subs|
    ensures forall i | 0 <= i < |acc| :: r[i] == acc[i]
    ensures forall i | |acc| <= i < |r| :: r[i] == BranchTerm(parsedRoot, root, subs[i - |acc|], merge, parse)
    decreases |subs|
  {
    if |subs| == 0 then acc
    else RecurseOnAnyOf(subs[1..], root, merge, parse, parsedRoot, acc + [BranchTerm(parsedRoot, root, subs[0], merge, parse)])
  }

  /** Branches are independent: listing the sub-schemas in another order lists
      the same terms in that order. */
  lemma AnyOfReorder(keys: map<string, Schema>, subs: seq<Schema>, perm: seq<nat>,
                     merge: (Schema, Schema) -> Schema, parse: Schema -> MetaType)
    requires |perm| == |subs|
    requires forall i | 0 <= i < |perm| :: perm[i] < |subs|
    ensures var r := ParseAnyOf(Obj(keys["anyOf" := List(subs)]), merge, parse);
            var r' := ParseAnyOf(Obj(keys["anyOf" := List(seq(|perm|, i requires 0 <= i < |perm| => subs[perm[i]]))]), merge, parse);
            |r'.members| == |r.members| &&
            forall i | 0 <= i < |perm| :: r'.members[i] == r.members[perm[i]]
  {
    var node := Obj(keys["anyOf" := List(subs)]);
    var node' := Obj(keys["anyOf" := List(seq(|perm|, i requires 0 <= i < |perm| => subs[perm[i]]))]);
    assert Omit(node, "anyOf") == Omit(node', "anyOf");
  }

  /** A branch term passes the options on when the parsed root and every
      parse do. */
  lemma BranchThreads(parsedRoot: MetaType, root: Schema, sub: Schema, merge: (Schema, Schema) -> Schema,
                      parse: Schema -> MetaType, opts: Options)
    requires ThreadsOptions(parsedRoot, opts)
    requires ParsesThread(parse, opts)
    ensures ThreadsOptions(BranchTerm(parsedRoot, root, sub, merge, parse), opts)
  {
    IntersectThreads(parsedRoot, parse(merge(root, sub)), opts);
  }

  lemma AnyOfThreads(node: Schema, merge: (Schema, Schema) -> Schema, parse: Schema -> MetaType, opts: Options)
    requires IsAnyOf(node)
    requires ParsesThread(parse, opts)
    ensures ThreadsOptions(ParseAnyOf(node, merge, parse), opts)
  {
    var root := Omit(node, "anyOf");
    var subs := ListAt(node, "anyOf");
    var r := ParseAnyOf(node, merge, parse);
    assert ThreadsOptions(parse(root), opts);
    forall i | 0 <= i < |r.members| ensures ThreadsOptions(r.members[i], opts) {
      BranchThreads(parse(root), root, subs[i], merge, parse, opts);
    }
  }
}
