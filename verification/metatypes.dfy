/**
 Meta-types: the algebraic values the engine builds. The algebra library that
 simplifies them (absorption of `Any`/`Never`, collapse of singletons) is not
 part of this model, so `Union` and `Intersect` are plain constructors and
 the shape a parse produces is visible exactly as built.
 */
module MetaTypes {
  import opened Schemas

  /** The leaf parsers the dispatcher hands a node to. */
  datatype LeafKind =
    | NullableLeaf
    | IfThenElseLeaf
    | NotLeaf
    | EnumLeaf
    | ConstLeaf
    | SingleTypeLeaf
    | DeserializeLeaf

  /** `Leaf(kind, node, options)` stands for the (unmodelled) result of the
      leaf parser `kind` applied to `node` under `options`: two leaves are the
      same meta-type exactly when the same parser saw the same arguments. */
  datatype MetaType =
    | Any
    | Never
    | Union(members: seq<MetaType>)
    | Intersect(members: seq<MetaType>)
    | Leaf(kind: LeafKind, node: Schema, options: Options)

  /** Every leaf parser that contributed to `m` was called with `opts`. */
  predicate ThreadsOptions(m: MetaType, opts: Options)
  {
    match m
    case Union(ms) => forall i | 0 <= i < |ms| :: ThreadsOptions(ms[i], opts)
    case Intersect(ms) => forall i | 0 <= i < |ms| :: ThreadsOptions(ms[i], opts)
    case Leaf(_, _, o) => o == opts
    case _ => true
  }

  /** Every result `parse` produces passes `opts` on. */
  ghost predicate ParsesThread(parse: Schema -> MetaType, opts: Options)
  {
    forall s :: ThreadsOptions(parse(s), opts)
  }

  /** A binary intersection passes the options on when both arguments do. */
  lemma IntersectThreads(a: MetaType, b: MetaType, opts: Options)
    requires ThreadsOptions(a, opts) && ThreadsOptions(b, opts)
    ensures ThreadsOptions(Intersect([a, b]), opts)
  {
    var ms := [a, b];
    assert forall i | 0 <= i < |ms| :: ms[i] == a || ms[i] == b;
  }

  /** Strips `k` binary intersections off `m`, always descending into the
      second argument; used to count how deeply a fold nests. */
  function Peel(m: MetaType, k: nat): MetaType
  {
    if k == 0 then m
    else if m.Intersect? && |m.members| == 2 then Peel(m.members[1], k - 1)
    else m
  }
}
