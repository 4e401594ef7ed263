/**
 `allOf`: the node without `allOf` is the root; it is parsed once and seeds a
 left fold that intersects, one sub-schema at a time, the parse of that
 sub-schema merged over the root.
 */
module AllOf {
  import opened Schemas
  import opened MetaTypes

  /** `ParseAllOfSchema`. */
  function ParseAllOf(node: Schema, merge: (Schema, Schema) -> Schema, parse: Schema -> MetaType): (r: MetaType)
    requires IsAllOf(node)
    ensures ListAt(node, "allOf") == [] ==> r == parse(Omit(node, "allOf"))
    ensures r == NestIntersect(MergedTerms(ListAt(node, "allOf"), Omit(node, "allOf"), merge, parse), parse(Omit(node, "allOf")))
    ensures Peel(r, |ListAt(node, "allOf")|) == parse(Omit(node, "allOf"))
  {
    var root := Omit(node, "allOf");
    var parsedRoot := parse(root);
    var subs := ListAt(node, "allOf");
    AllOfNests(subs, root, merge, parse, parsedRoot);
    NestDepth(MergedTerms(subs, root, merge, parse), parsedRoot);
    RecurseOnAllOf(subs, root, merge, parse, parsedRoot)
  }

  /** `RecurseOnAllOfSchema`: `acc' = Intersect([parse(merge(root, head)), acc])`. */
  function RecurseOnAllOf(subs: seq<Schema>, root: Schema, merge: (Schema, Schema) -> Schema,
                          parse: Schema -> MetaType, acc: MetaType): (r: MetaType)
    ensures |subs| == 0 ==> r == acc
    ensures |subs| > 0 ==> r.Intersect? && |r.members| == 2
    ensures |subs| > 0 ==> r.members[0] == parse(merge(root, subs[|subs| - 1]))
    decreases |subs|
  {
    if |subs| == 0 then acc
    else RecurseOnAllOf(subs[1..], root, merge, parse, Intersect([parse(merge(root, subs[0])), acc]))
  }

  /** One term per sub-schema, each the parse of that sub-schema merged over
      the same root (never over an accumulated schema). */
  function MergedTerms(subs: seq<Schema>, root: Schema, merge: (Schema, Schema) -> Schema,
                       parse: Schema -> MetaType): (ts: seq<MetaType>)
    ensures |ts| == |subs|
    ensures forall i | 0 <= i < |subs| :: ts[i] == parse(merge(root, subs[i]))
  {
    seq(|subs|, i requires 0 <= i < |subs| => parse(merge(root, subs[i])))
  }

  /** The reference shape of the fold: the terms nest around the seed with the
      last term outermost and every intersection taking the term first. */
  function NestIntersect(ts: seq<MetaType>, seed: MetaType): MetaType
    decreases |ts|
  {
    if |ts| == 0 then seed
    else Intersect([ts[|ts| - 1], NestIntersect(ts[..|ts| - 1], seed)])
  }

  /** Feeding one more term into the seed is nesting it innermost. */
  lemma {:induction false} NestShift(t: MetaType, ts: seq<MetaType>, seed: MetaType)
    ensures NestIntersect(ts, Intersect([t, seed])) == NestIntersect([t] + ts, seed)
    decreases |ts|
  {
    if |ts| > 0 {
      var ts' := [t] + ts;
      assert ts'[|ts'| - 1] == ts[|ts| - 1];
      assert ts'[..|ts'| - 1] == [t] + ts[..|ts| - 1];
      NestShift(t, ts[..|ts| - 1], seed);
    } else {
      assert [t] + ts == [t];
      assert [t][..0] == [];
    }
  }

  /** The accumulator fold of `RecurseOnAllOfSchema` builds the reference shape. */
  lemma {:induction false} AllOfNests(subs: seq<Schema>, root: Schema, merge: (Schema, Schema) -> Schema,
                                      parse: Schema -> MetaType, acc: MetaType)
    ensures RecurseOnAllOf(subs, root, merge, parse, acc) == NestIntersect(MergedTerms(subs, root, merge, parse), acc)
    decreases |subs|
  {
    if |subs| > 0 {
      var t := parse(merge(root, subs[0]));
      AllOfNests(subs[1..], root, merge, parse, Intersect([t, acc]));
      NestShift(t, MergedTerms(subs[1..], root, merge, parse), acc);
      assert [t] + MergedTerms(subs[1..], root, merge, parse) == MergedTerms(subs, root, merge, parse);
    }
  }

  /** `n` terms wrap exactly `n` intersections around the seed. */
  lemma {:induction false} NestDepth(ts: seq<MetaType>, seed: MetaType)
    ensures Peel(NestIntersect(ts, seed), |ts|) == seed
    decreases |ts|
  {
    if |ts| > 0 {
      NestDepth(ts[..|ts| - 1], seed);
    }
  }

  /** The options a leaf parser sees are the ones every sub-parse saw. */
  lemma {:induction false} NestThreads(ts: seq<MetaType>, seed: MetaType, opts: Options)
    requires forall i | 0 <= i < |ts| :: ThreadsOptions(ts[i], opts)
    requires ThreadsOptions(seed, opts)
    ensures ThreadsOptions(NestIntersect(ts, seed), opts)
    decreases |ts|
  {
    if |ts| > 0 {
      NestThreads(ts[..|ts| - 1], seed, opts);
      var m := NestIntersect(ts, seed);
      assert m.members == [ts[|ts| - 1], NestIntersect(ts[..|ts| - 1], seed)];
    }
  }

  lemma AllOfThreads(node: Schema, merge: (Schema, Schema) -> Schema, parse: Schema -> MetaType, opts: Options)
    requires IsAllOf(node)
    requires ParsesThread(parse, opts)
    ensures ThreadsOptions(ParseAllOf(node, merge, parse), opts)
  {
    var root := Omit(node, "allOf");
    NestThreads(MergedTerms(ListAt(node, "allOf"), root, merge, parse), parse(root), opts);
  }
}
