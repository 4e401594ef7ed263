/**
 The dispatcher: `ParseSchema` looks at a node, decides which keyword shape it
 has by a fixed precedence, hands it to the matching parser, and wraps the
 answer with the deserialization override when the `deserialize` option is a
 pattern list. Recursion goes through `ParseSchema` itself, which the
 composition and reference parsers receive as their `parse` argument.
 */
module Dispatch {
  import opened Schemas
  import opened MetaTypes
  import AllOf
  import AnyOf
  import OneOf
  import MultipleTypes
  import References

  // ---------------------------------------------------------------------
  // The precedence, written as a table
  // ---------------------------------------------------------------------

  /** The dispatch rules, one per branch of the dispatcher. */
  datatype Rule =
    | WideRule
    | TrueRule
    | FalseRule
    | NullableRule
    | ReferenceRule
    | IfThenElseRule
    | NotRule
    | AllOfRule
    | OneOfRule
    | AnyOfRule
    | EnumRule
    | ConstRule
    | MultipleTypesRule
    | SingleTypeRule
    | FallbackRule

  /** Position of a rule in the order the rules are tried in. */
  function Rank(rule: Rule): nat
  {
    match rule
    case WideRule => 0
    case TrueRule => 1
    case FalseRule => 2
    case NullableRule => 3
    case ReferenceRule => 4
    case IfThenElseRule => 5
    case NotRule => 6
    case AllOfRule => 7
    case OneOfRule => 8
    case AnyOfRule => 9
    case EnumRule => 10
    case ConstRule => 11
    case MultipleTypesRule => 12
    case SingleTypeRule => 13
    case FallbackRule => 14
  }

  /** The rule tried after `rule`. */
  function Successor(rule: Rule): (next: Rule)
    requires rule != FallbackRule
    ensures Rank(next) == Rank(rule) + 1
  {
    match rule
    case WideRule => TrueRule
    case TrueRule => FalseRule
    case FalseRule => NullableRule
    case NullableRule => ReferenceRule
    case ReferenceRule => IfThenElseRule
    case IfThenElseRule => NotRule
    case NotRule => AllOfRule
    case AllOfRule => OneOfRule
    case OneOfRule => AnyOfRule
    case AnyOfRule => EnumRule
    case EnumRule => ConstRule
    case ConstRule => MultipleTypesRule
    case MultipleTypesRule => SingleTypeRule
    case SingleTypeRule => FallbackRule
  }

  /** When a rule applies. The conditional and negation rules apply only when
      their option flag is on; the fallback always applies. */
  predicate Guard(rule: Rule, node: Schema, opts: Options)
  {
    match rule
    case WideRule => node.Wide?
    case TrueRule => node == Bool(true) || node.Str?
    case FalseRule => node == Bool(false)
    case NullableRule => IsNullable(node)
    case ReferenceRule => IsReferencing(node)
    case IfThenElseRule => opts.parseIfThenElseKeywords && IsIfThenElse(node)
    case NotRule => opts.parseNotKeyword && IsNot(node)
    case AllOfRule => IsAllOf(node)
    case OneOfRule => IsOneOf(node)
    case AnyOfRule => IsAnyOf(node)
    case EnumRule => IsEnum(node)
    case ConstRule => IsConst(node)
    case MultipleTypesRule => IsMultipleTypes(node)
    case SingleTypeRule => IsSingleType(node)
    case FallbackRule => true
  }

  /** The first rule, from `rule` on in the order, whose guard holds. */
  function SelectedFrom(rule: Rule, node: Schema, opts: Options): (selected: Rule)
    ensures Guard(selected, node, opts)
    decreases 14 - Rank(rule)
  {
    if Guard(rule, node, opts) then rule
    else SelectedFrom(Successor(rule), node, opts)
  }

  /** The rule the dispatcher applies to `node`. */
  function Selected(node: Schema, opts: Options): (rule: Rule)
    ensures Guard(rule, node, opts)
  {
    SelectedFrom(WideRule, node, opts)
  }

  /** What each rule produces. */
  function Apply(rule: Rule, env: Collaborators, node: Schema, opts: Options, parse: Schema -> MetaType): MetaType
    requires Guard(rule, node, opts)
  {
    match rule
    case WideRule => Any
    case TrueRule => Any
    case FalseRule => Never
    case NullableRule => Leaf(NullableLeaf, node, opts)
    case ReferenceRule => ParseReferenceSchema(env, node, opts, parse)
    case IfThenElseRule => Leaf(IfThenElseLeaf, node, opts)
    case NotRule => Leaf(NotLeaf, node, opts)
    case AllOfRule => AllOf.ParseAllOf(node, env.merge, parse)
    case OneOfRule => OneOf.ParseOneOf(node, env.merge, parse)
    case AnyOfRule => AnyOf.ParseAnyOf(node, env.merge, parse)
    case EnumRule => Leaf(EnumLeaf, node, opts)
    case ConstRule => Leaf(ConstLeaf, node, opts)
    case MultipleTypesRule => MultipleTypes.ParseMultipleTypes(node, parse)
    case SingleTypeRule => Leaf(SingleTypeLeaf, node, opts)
    case FallbackRule => Any
  }

  // ---------------------------------------------------------------------
  // The dispatcher, staged as the `ParseSchemaCore` chain of json-schema-to-ts
  // ---------------------------------------------------------------------

  /** `ParseReferenceSchema`: find the reference source and the path in it, and
      hand the node, without its `$ref`, to the reference parser. */
  function ParseReferenceSchema(env: Collaborators, node: Schema, opts: Options, parse: Schema -> MetaType): MetaType
    requires IsReferencing(node)
  {
    var location := env.locate(node.keys["$ref"].s, opts);
    References.ParseReference(Omit(node, "$ref"), location.source, location.path, env.merge, parse)
  }

  /** `ParseSchemaCore`: shorthands, nullable, reference, then the rest. */
  function ParseSchemaCore(env: Collaborators, node: Schema, opts: Options, parse: Schema -> MetaType): (r: MetaType)
    ensures r == Apply(Selected(node, opts), env, node, opts, parse)
  {
    OuterTier(node, opts);
    if node.Wide? then Any
    else if node == Bool(true) || node.Str? then Any
    else if node == Bool(false) then Never
    else if IsNullable(node) then Leaf(NullableLeaf, node, opts)
    else if IsReferencing(node) then ParseReferenceSchema(env, node, opts, parse)
    else ParseConditionalThenRest(env, node, opts, parse)
  }

  /** `ParseConditionalThenRest`: if/then/else when enabled, then the rest. */
  function ParseConditionalThenRest(env: Collaborators, node: Schema, opts: Options, parse: Schema -> MetaType): (r: MetaType)
    ensures r == Apply(SelectedFrom(IfThenElseRule, node, opts), env, node, opts, parse)
  {
    if opts.parseIfThenElseKeywords then
      if IsIfThenElse(node) then Leaf(IfThenElseLeaf, node, opts)
      else ParseNotThenRest(env, node, opts, parse)
    else ParseNotThenRest(env, node, opts, parse)
  }

  /** `ParseNotThenRest`: `not` when enabled, then the rest. */
  function ParseNotThenRest(env: Collaborators, node: Schema, opts: Options, parse: Schema -> MetaType): (r: MetaType)
    ensures r == Apply(SelectedFrom(NotRule, node, opts), env, node, opts, parse)
  {
    if opts.parseNotKeyword then
      if IsNot(node) then Leaf(NotLeaf, node, opts)
      else ParseCompositionAndTypes(env, node, opts, parse)
    else ParseCompositionAndTypes(env, node, opts, parse)
  }

  /** `ParseCompositionAndTypes`: composition keywords, enum, const, types. */
  function ParseCompositionAndTypes(env: Collaborators, node: Schema, opts: Options, parse: Schema -> MetaType): (r: MetaType)
    ensures r == Apply(SelectedFrom(AllOfRule, node, opts), env, node, opts, parse)
  {
    CompositionTier(node, opts);
    TypeTier(node, opts);
    if IsAllOf(node) then AllOf.ParseAllOf(node, env.merge, parse)
    else if IsOneOf(node) then OneOf.ParseOneOf(node, env.merge, parse)
    else if IsAnyOf(node) then AnyOf.ParseAnyOf(node, env.merge, parse)
    else if IsEnum(node) then Leaf(EnumLeaf, node, opts)
    else if IsConst(node) then Leaf(ConstLeaf, node, opts)
    else if IsMultipleTypes(node) then MultipleTypes.ParseMultipleTypes(node, parse)
    else if IsSingleType(node) then Leaf(SingleTypeLeaf, node, opts)
    else Any
  }

  /** `ApplyDeserialization`: the override the deserialize parser derives,
      first, intersected with the core result. The parser sees the options with
      `deserialize` set to the pattern list, which is the record itself. */
  function ApplyDeserialization(node: Schema, opts: Options, result: MetaType, patterns: seq<Pattern>): (r: MetaType)
    requires opts.deserialize == Patterns(patterns)
    ensures r.Intersect? && |r.members| == 2 && r.members[1] == result
    ensures r.members[0] == Leaf(DeserializeLeaf, node, opts)
  {
    var deserializeOptions := opts.(deserialize := Patterns(patterns));
    Intersect([Leaf(DeserializeLeaf, node, deserializeOptions), result])
  }

  /** `ParseSchema`, bounded by `fuel`: each nested call spends one unit, and an
      exhausted budget answers `Any`. Every leaf parser reached anywhere in the
      derivation sees the caller's options unchanged. */
  function ParseSchema(env: Collaborators, node: Schema, opts: Options, fuel: nat): (r: MetaType)
    ensures ThreadsOptions(r, opts)
    decreases fuel, 0
  {
    if fuel == 0 then Any
    else
      var parse := Sub(env, opts, fuel - 1);
      assert ParsesThread(parse, opts);
      CoreThreads(env, node, opts, parse);
      var result := ParseSchemaCore(env, node, opts, parse);
      match opts.deserialize
      case Off => result
      case Patterns(patterns) => ApplyDeserialization(node, opts, result, patterns)
  }

  /** The parse function nested parsers receive: `ParseSchema` with the same
      collaborators and options and the remaining fuel. */
  function Sub(env: Collaborators, opts: Options, fuel: nat): (parse: Schema -> MetaType)
    ensures forall s :: parse(s) == ParseSchema(env, s, opts, fuel)
    decreases fuel, 1
  {
    (s: Schema) => ParseSchema(env, s, opts, fuel)
  }

  // ---------------------------------------------------------------------
  // The table, unrolled; options threading
  // ---------------------------------------------------------------------

  /** One step of the order: a rule whose guard fails passes to its successor. */
  lemma Step(rule: Rule, node: Schema, opts: Options)
    requires rule != FallbackRule
    ensures SelectedFrom(rule, node, opts) ==
      if Guard(rule, node, opts) then rule else SelectedFrom(Successor(rule), node, opts)
  {
  }

  /** The composition tier of the order, unrolled. */
  lemma CompositionTier(node: Schema, opts: Options)
    ensures SelectedFrom(AllOfRule, node, opts) ==
      if IsAllOf(node) then AllOfRule
      else if IsOneOf(node) then OneOfRule
      else if IsAnyOf(node) then AnyOfRule
      else SelectedFrom(EnumRule, node, opts)
  {
    Step(AllOfRule, node, opts);
    Step(OneOfRule, node, opts);
    Step(AnyOfRule, node, opts);
  }

  /** The value and type tier of the order, unrolled. */
  lemma TypeTier(node: Schema, opts: Options)
    ensures SelectedFrom(EnumRule, node, opts) ==
      if IsEnum(node) then EnumRule
      else if IsConst(node) then ConstRule
      else if IsMultipleTypes(node) then MultipleTypesRule
      else if IsSingleType(node) then SingleTypeRule
      else FallbackRule
  {
    Step(EnumRule, node, opts);
    Step(ConstRule, node, opts);
    Step(MultipleTypesRule, node, opts);
    Step(SingleTypeRule, node, opts);
  }

  /** The shorthand, nullable and reference steps of the order, unrolled. */
  lemma OuterTier(node: Schema, opts: Options)
    ensures SelectedFrom(WideRule, node, opts) ==
      if node.Wide? then WideRule
      else if node == Bool(true) || node.Str? then TrueRule
      else if node == Bool(false) then FalseRule
      else if IsNullable(node) then NullableRule
      else if IsReferencing(node) then ReferenceRule
      else SelectedFrom(IfThenElseRule, node, opts)
  {
    Step(WideRule, node, opts);
    if !node.Wide? {
      Step(TrueRule, node, opts);
      if !(node == Bool(true) || node.Str?) {
        Step(FalseRule, node, opts);
        if node != Bool(false) {
          Step(NullableRule, node, opts);
          if !IsNullable(node) {
            Step(ReferenceRule, node, opts);
          }
        }
      }
    }
  }

  /** Every parser the dispatcher delegates to passes the options on. */
  lemma CoreThreads(env: Collaborators, node: Schema, opts: Options, parse: Schema -> MetaType)
    requires ParsesThread(parse, opts)
    ensures ThreadsOptions(ParseSchemaCore(env, node, opts, parse), opts)
  {
    match Selected(node, opts)
    case ReferenceRule =>
      var location := env.locate(node.keys["$ref"].s, opts);
      References.ReferenceThreads(Omit(node, "$ref"), location.source, location.path, env.merge, parse, opts);
    case AllOfRule => AllOf.AllOfThreads(node, env.merge, parse, opts);
    case OneOfRule => OneOf.OneOfThreads(node, env.merge, parse, opts);
    case AnyOfRule => AnyOf.AnyOfThreads(node, env.merge, parse, opts);
    case MultipleTypesRule => MultipleTypes.MultipleTypesThreads(node, parse, opts);
    case _ =>
  }
}
