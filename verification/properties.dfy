/**
 What the dispatcher guarantees as a whole: the precedence order read as
 "the first rule whose guard holds wins", the option flags, the deserialize
 wrap, the re-parses of a multi-type node, and references followed end to
 end through the real `ParseSchema`.
 */
module Properties {
  import opened Schemas
  import opened MetaTypes
  import opened Dispatch
  import Paths
  import References
  import MultipleTypes

  // ---------------------------------------------------------------------
  // The precedence order
  // ---------------------------------------------------------------------

  /** The rule at a position of the order. */
  function RuleAt(n: nat): Rule
    requires n <= 14
  {
    [WideRule, TrueRule, FalseRule, NullableRule, ReferenceRule, IfThenElseRule, NotRule, AllOfRule,
     OneOfRule, AnyOfRule, EnumRule, ConstRule, MultipleTypesRule, SingleTypeRule, FallbackRule][n]
  }

  /** Positions are a numbering of the rules: no two rules share one. */
  lemma RankInjective(a: Rule, b: Rule)
    requires Rank(a) == Rank(b)
    ensures a == b
  {
    assert RuleAt(Rank(a)) == a;
    assert RuleAt(Rank(b)) == b;
  }

  /** Searching from `rule` on finds a rule at or after it, and every rule in
      between has a failing guard. */
  lemma {:induction false} SearchSkipsFailing(rule: Rule, node: Schema, opts: Options)
    ensures Rank(rule) <= Rank(SelectedFrom(rule, node, opts))
    ensures forall r | Rank(rule) <= Rank(r) < Rank(SelectedFrom(rule, node, opts)) :: !Guard(r, node, opts)
    decreases 14 - Rank(rule)
  {
    if !Guard(rule, node, opts) {
      var next := Successor(rule);
      SearchSkipsFailing(next, node, opts);
      forall r | Rank(rule) <= Rank(r) < Rank(SelectedFrom(rule, node, opts))
        ensures !Guard(r, node, opts)
      {
        if Rank(r) == Rank(rule) {
          RankInjective(r, rule);
        }
      }
    }
  }

  /** The dispatcher picks a rule whose guard holds, and every rule earlier in
      the order has a failing guard. */
  lemma SelectedIsFirst(node: Schema, opts: Options)
    ensures Guard(Selected(node, opts), node, opts)
    ensures forall r | Rank(r) < Rank(Selected(node, opts)) :: !Guard(r, node, opts)
  {
    SearchSkipsFailing(WideRule, node, opts);
  }

  /** Conversely, a rule whose guard holds while every earlier guard fails is
      the one the dispatcher picks. */
  lemma FirstIsSelected(rule: Rule, node: Schema, opts: Options)
    requires Guard(rule, node, opts)
    requires forall r | Rank(r) < Rank(rule) :: !Guard(r, node, opts)
    ensures Selected(node, opts) == rule
  {
    var s := Selected(node, opts);
    SelectedIsFirst(node, opts);
    assert !(Rank(s) < Rank(rule));
    assert !(Rank(rule) < Rank(s));
    RankInjective(s, rule);
  }

  /** The core dispatch applies the first rule, in the order, whose guard holds. */
  lemma DispatchByPrecedence(env: Collaborators, node: Schema, opts: Options, parse: Schema -> MetaType, rule: Rule)
    requires Guard(rule, node, opts)
    requires forall r | Rank(r) < Rank(rule) :: !Guard(r, node, opts)
    ensures ParseSchemaCore(env, node, opts, parse) == Apply(rule, env, node, opts, parse)
  {
    FirstIsSelected(rule, node, opts);
  }

  // ---------------------------------------------------------------------
  // Individual branches
  // ---------------------------------------------------------------------

  /** The boolean shorthands and plain strings. */
  lemma ShorthandSchemas(env: Collaborators, opts: Options, parse: Schema -> MetaType, s: string)
    ensures Selected(Bool(true), opts) == TrueRule && Selected(Str(s), opts) == TrueRule
    ensures Selected(Bool(false), opts) == FalseRule
    ensures ParseSchemaCore(env, Bool(true), opts, parse) == Any
    ensures ParseSchemaCore(env, Str(s), opts, parse) == Any
    ensures ParseSchemaCore(env, Bool(false), opts, parse) == Never
  {
    OuterTier(Bool(true), opts);
    OuterTier(Str(s), opts);
    OuterTier(Bool(false), opts);
  }

  /** A nullable node goes to the nullable parser, whatever else it holds. */
  lemma NullableFirst(env: Collaborators, node: Schema, opts: Options, parse: Schema -> MetaType)
    requires IsNullable(node)
    ensures Selected(node, opts) == NullableRule
    ensures ParseSchemaCore(env, node, opts, parse) == Leaf(NullableLeaf, node, opts)
  {
    OuterTier(node, opts);
  }

  /** A referencing node that is not nullable goes to the reference parser
      before any conditional, negation, composition, value or type keyword. */
  lemma ReferenceBeforeKeywords(env: Collaborators, node: Schema, opts: Options, parse: Schema -> MetaType)
    requires IsReferencing(node) && !IsNullable(node)
    ensures Selected(node, opts) == ReferenceRule
    ensures ParseSchemaCore(env, node, opts, parse) == ParseReferenceSchema(env, node, opts, parse)
  {
    OuterTier(node, opts);
  }

  /** With `parseIfThenElseKeywords` off, the conditional step passes every
      node, `if` or not, on to the negation step. */
  lemma IfThenElseOnlyWhenEnabled(env: Collaborators, node: Schema, opts: Options, parse: Schema -> MetaType)
    requires !opts.parseIfThenElseKeywords
    ensures Selected(node, opts) != IfThenElseRule
    ensures ParseConditionalThenRest(env, node, opts, parse) == ParseNotThenRest(env, node, opts, parse)
  {
  }

  /** With `parseNotKeyword` off, the negation step passes every node on to the
      composition step. */
  lemma NotOnlyWhenEnabled(env: Collaborators, node: Schema, opts: Options, parse: Schema -> MetaType)
    requires !opts.parseNotKeyword
    ensures Selected(node, opts) != NotRule
    ensures ParseNotThenRest(env, node, opts, parse) == ParseCompositionAndTypes(env, node, opts, parse)
  {
  }

  /** With both flags on, a node holding both `if` and `not` is conditional. */
  lemma IfThenElseBeatsNot(env: Collaborators, node: Schema, opts: Options, parse: Schema -> MetaType)
    requires opts.parseIfThenElseKeywords && opts.parseNotKeyword
    requires IsIfThenElse(node) && IsNot(node)
    requires !IsNullable(node) && !IsReferencing(node)
    ensures Selected(node, opts) == IfThenElseRule
    ensures ParseSchemaCore(env, node, opts, parse) == Leaf(IfThenElseLeaf, node, opts)
  {
    OuterTier(node, opts);
  }

  /** A node no rule claims parses to `Any`. */
  lemma UnmatchedIsAny(env: Collaborators, node: Schema, opts: Options, parse: Schema -> MetaType)
    requires forall r | Rank(r) < Rank(FallbackRule) :: !Guard(r, node, opts)
    ensures ParseSchemaCore(env, node, opts, parse) == Any
  {
    DispatchByPrecedence(env, node, opts, parse, FallbackRule);
  }

  // ---------------------------------------------------------------------
  // The deserialize wrap
  // ---------------------------------------------------------------------

  /** With a pattern list the deserialize term comes first and the core result
      second; with `false` the core result is the answer. Either way the core
      parse recurses with one unit of fuel less. */
  lemma DeserializeWrap(env: Collaborators, node: Schema, opts: Options, fuel: nat)
    ensures opts.deserialize.Off? ==>
              ParseSchema(env, node, opts, fuel + 1) == ParseSchemaCore(env, node, opts, Sub(env, opts, fuel))
    ensures opts.deserialize.Patterns? ==>
              ParseSchema(env, node, opts, fuel + 1) ==
              Intersect([Leaf(DeserializeLeaf, node, opts), ParseSchemaCore(env, node, opts, Sub(env, opts, fuel))])
  {
  }

  // ---------------------------------------------------------------------
  // Multiple types: each pinned re-parse is a single-type node
  // ---------------------------------------------------------------------

  /** Pinning one type name onto the node without `type` leaves every guard
      that does not read `type` as it was. */
  lemma PinKeepsGuard(r: Rule, node: Schema, name: Schema, opts: Options)
    requires node.Obj?
    requires Rank(r) < Rank(MultipleTypesRule)
    ensures Guard(r, Pin(Omit(node, "type"), name), opts) == Guard(r, node, opts)
  {
    var pinned := Pin(Omit(node, "type"), name);
    assert forall k | k != "type" :: (k in pinned.keys <==> k in node.keys);
    assert forall k | k != "type" && k in node.keys :: pinned.keys[k] == node.keys[k];
  }

  /** A multi-type node's re-parses, each with one name pinned, all land on
      the single-type rule: they failed every earlier guard before, and pinning
      only changed `type`, into a name. */
  lemma PinnedLandsOnSingleType(node: Schema, opts: Options, i: nat)
    requires Selected(node, opts) == MultipleTypesRule
    requires i < |MultipleTypes.TypeNames(node)|
    ensures Selected(Pin(Omit(node, "type"), MultipleTypes.TypeNames(node)[i]), opts) == SingleTypeRule
  {
    var name := MultipleTypes.TypeNames(node)[i];
    var pinned := Pin(Omit(node, "type"), name);
    SelectedIsFirst(node, opts);
    forall r | Rank(r) < Rank(SingleTypeRule) ensures !Guard(r, pinned, opts) {
      if Rank(r) < Rank(MultipleTypesRule) {
        PinKeepsGuard(r, node, name, opts);
      } else {
        RankInjective(r, MultipleTypesRule);
      }
    }
    FirstIsSelected(SingleTypeRule, pinned, opts);
  }

  /** Each pinned re-parse is the single-type leaf of the pinned node. */
  lemma PinnedParse(env: Collaborators, node: Schema, opts: Options, fuel: nat, i: nat)
    requires Selected(node, opts) == MultipleTypesRule
    requires i < |MultipleTypes.TypeNames(node)|
    requires opts.deserialize.Off?
    requires fuel >= 1
    ensures ParseSchema(env, Pin(Omit(node, "type"), MultipleTypes.TypeNames(node)[i]), opts, fuel) ==
            Leaf(SingleTypeLeaf, Pin(Omit(node, "type"), MultipleTypes.TypeNames(node)[i]), opts)
  {
    PinnedLandsOnSingleType(node, opts, i);
  }

  /** Without deserialization, a multi-type node parses to the multi-type
      parser's union, built with a parse that has one unit of fuel less. */
  lemma MultipleTypesDispatch(env: Collaborators, node: Schema, opts: Options, fuel: nat)
    requires Selected(node, opts) == MultipleTypesRule
    requires opts.deserialize.Off?
    requires fuel >= 1
    ensures ParseSchema(env, node, opts, fuel) == MultipleTypes.ParseMultipleTypes(node, Sub(env, opts, fuel - 1))
  {
  }

  /** End to end: without deserialization, a multi-type node parses to the
      union of the single-type leaves of its pinned re-parses, in list order. */
  lemma MultipleTypesEndToEnd(env: Collaborators, node: Schema, opts: Options, fuel: nat)
    requires Selected(node, opts) == MultipleTypesRule
    requires opts.deserialize.Off?
    requires fuel >= 2
    ensures var r := ParseSchema(env, node, opts, fuel);
            var names := MultipleTypes.TypeNames(node);
            r.Union? && |r.members| == |names| &&
            forall i | 0 <= i < |names| ::
              r.members[i] == Leaf(SingleTypeLeaf, Pin(Omit(node, "type"), names[i]), opts)
  {
    var parse := Sub(env, opts, fuel - 1);
    PinnedParses(env, node, opts, fuel - 1, parse);
    UnionOfLeaves(node, opts, parse);
    MultipleTypesDispatch(env, node, opts, fuel);
  }

  /** The recursive parse maps every pinned node to its single-type leaf. */
  lemma PinnedParses(env: Collaborators, node: Schema, opts: Options, fuel: nat, parse: Schema -> MetaType)
    requires Selected(node, opts) == MultipleTypesRule
    requires opts.deserialize.Off?
    requires fuel >= 1
    requires parse == Sub(env, opts, fuel)
    ensures forall i | 0 <= i < |MultipleTypes.TypeNames(node)| ::
              parse(Pin(Omit(node, "type"), MultipleTypes.TypeNames(node)[i])) ==
              Leaf(SingleTypeLeaf, Pin(Omit(node, "type"), MultipleTypes.TypeNames(node)[i]), opts)
  {
    forall i | 0 <= i < |MultipleTypes.TypeNames(node)|
      ensures parse(Pin(Omit(node, "type"), MultipleTypes.TypeNames(node)[i])) ==
              Leaf(SingleTypeLeaf, Pin(Omit(node, "type"), MultipleTypes.TypeNames(node)[i]), opts)
    {
      PinnedParse(env, node, opts, fuel, i);
    }
  }

  /** A multi-type parse whose every pinned re-parse is its single-type leaf
      is the union of those leaves. */
  lemma UnionOfLeaves(node: Schema, opts: Options, parse: Schema -> MetaType)
    requires IsMultipleTypes(node)
    requires forall i | 0 <= i < |MultipleTypes.TypeNames(node)| ::
               parse(Pin(Omit(node, "type"), MultipleTypes.TypeNames(node)[i])) ==
               Leaf(SingleTypeLeaf, Pin(Omit(node, "type"), MultipleTypes.TypeNames(node)[i]), opts)
    ensures var r := MultipleTypes.ParseMultipleTypes(node, parse);
            var names := MultipleTypes.TypeNames(node);
            r.Union? && |r.members| == |names| &&
            forall i | 0 <= i < |names| ::
              r.members[i] == Leaf(SingleTypeLeaf, Pin(Omit(node, "type"), names[i]), opts)
  {
  }

  // ---------------------------------------------------------------------
  // References, end to end
  // ---------------------------------------------------------------------

  /** Without deserialization, a referencing node parses to the reference
      parser's answer for the located source and path, with the node's other
      keywords and a parse that has one unit of fuel less. */
  lemma ReferenceEndToEnd(env: Collaborators, node: Schema, opts: Options, fuel: nat)
    requires IsReferencing(node) && !IsNullable(node)
    requires opts.deserialize.Off?
    requires fuel >= 1
    ensures var location := env.locate(node.keys["$ref"].s, opts);
            ParseSchema(env, node, opts, fuel) ==
            References.ParseReference(Omit(node, "$ref"), location.source, location.path, env.merge, Sub(env, opts, fuel - 1))
  {
    ReferenceBeforeKeywords(env, node, opts, Sub(env, opts, fuel - 1));
  }

  /** A referencing node with nothing besides identification keywords parses
      to the parse of its target alone. */
  lemma TargetOnly(env: Collaborators, node: Schema, opts: Options, fuel: nat)
    requires IsReferencing(node) && !IsNullable(node)
    requires !References.HasMergeableKeys(Omit(node, "$ref"))
    requires opts.deserialize.Off?
    requires fuel >= 1
    ensures var location := env.locate(node.keys["$ref"].s, opts);
            ParseSchema(env, node, opts, fuel) ==
            ParseSchema(env, References.MatchingReference(location.source, location.path), opts, fuel - 1)
  {
    ReferenceEndToEnd(env, node, opts, fuel);
  }

  /** A referencing node with other keywords parses to the parse of its target
      intersected with the parse of the node merged over the target. */
  lemma TargetAndMerge(env: Collaborators, node: Schema, opts: Options, fuel: nat)
    requires IsReferencing(node) && !IsNullable(node)
    requires References.HasMergeableKeys(Omit(node, "$ref"))
    requires opts.deserialize.Off?
    requires fuel >= 1
    ensures var location := env.locate(node.keys["$ref"].s, opts);
            var target := References.MatchingReference(location.source, location.path);
            ParseSchema(env, node, opts, fuel) ==
            Intersect([ParseSchema(env, target, opts, fuel - 1),
                       ParseSchema(env, env.merge(target, Omit(node, "$ref")), opts, fuel - 1)])
  {
    ReferenceEndToEnd(env, node, opts, fuel);
  }

  /** A reference whose path does not resolve, on a node with nothing to merge,
      parses to `Never`: the lookup answers the schema `false`. */
  lemma UnresolvableReferenceIsNever(env: Collaborators, node: Schema, opts: Options, fuel: nat)
    requires IsReferencing(node) && !IsNullable(node)
    requires env.locate(node.keys["$ref"].s, opts).path.Pointer?
    requires !Paths.Resolves(env.locate(node.keys["$ref"].s, opts).source,
                             Paths.Segments(env.locate(node.keys["$ref"].s, opts).path.pointer))
    requires !References.HasMergeableKeys(Omit(node, "$ref"))
    requires opts.deserialize.Off?
    requires fuel >= 2
    ensures ParseSchema(env, node, opts, fuel) == Never
  {
    ReferenceEndToEnd(env, node, opts, fuel);
    ShorthandSchemas(env, opts, Sub(env, opts, fuel - 2), "");
  }

  /** The schema `{ type: "number" }`. */
  function NumberSchema(): Schema
  {
    Obj(map["type" := Str("number")])
  }

  /** The root schema `{ defs: { name: { type: "number" } } }`. */
  function DefinitionsRoot(defs: string, name: string): Schema
  {
    Obj(map[defs := Obj(map[name := NumberSchema()])])
  }

  /** `/defs/name` reaches `{ type: "number" }` in the root above. */
  lemma DefinitionsPointer(defs: string, name: string)
    requires '/' !in defs && '/' !in name
    ensures References.MatchingReference(DefinitionsRoot(defs, name), Pointer(Paths.Join(["", defs, name], '/'))) == NumberSchema()
  {
    var keys := [defs, name];
    assert Paths.SeparatorFree(keys, '/');
    assert [""] + keys == ["", defs, name];
    Paths.PointerSegments(keys);
    var root := DefinitionsRoot(defs, name);
    assert HasKey(root, defs) && HasKey(root.keys[defs], name);
    assert keys[1..] == [name] && [name][1..] == [];
    assert Paths.DeepGet(root.keys[defs].keys[name], [], Bool(false)) == NumberSchema();
    assert Paths.DeepGet(root.keys[defs], [name], Bool(false)) == NumberSchema();
  }

  /** `{ type: "number" }` is a single-type node. */
  lemma NumberIsSingleType(env: Collaborators, opts: Options, fuel: nat)
    requires opts.deserialize.Off?
    requires fuel >= 1
    ensures ParseSchema(env, NumberSchema(), opts, fuel) == Leaf(SingleTypeLeaf, NumberSchema(), opts)
  {
    var node := NumberSchema();
    OuterTier(node, opts);
    TypeTier(node, opts);
    CompositionTier(node, opts);
    assert !IsNullable(node) && !IsReferencing(node) && !IsIfThenElse(node) && !IsNot(node);
    assert !IsAllOf(node) && !IsOneOf(node) && !IsAnyOf(node) && !IsEnum(node) && !IsConst(node);
    assert IsSingleType(node) && !IsMultipleTypes(node);
  }

  /** A bare `{ $ref: ref }`, where `ref` locates the pointer `/defs/name` in
      the root above, parses exactly as its target `{ type: "number" }` does,
      with no intersection. */
  lemma BareReferenceScenario(env: Collaborators, node: Schema, opts: Options, fuel: nat,
                              ref: string, defs: string, name: string)
    requires node == Obj(map["$ref" := Str(ref)])
    requires '/' !in defs && '/' !in name
    requires env.locate(ref, opts) == Location(DefinitionsRoot(defs, name), Pointer(Paths.Join(["", defs, name], '/')))
    requires opts.deserialize.Off?
    requires fuel >= 1
    ensures ParseSchema(env, node, opts, fuel) == ParseSchema(env, NumberSchema(), opts, fuel - 1)
  {
    assert Omit(node, "$ref").keys == map[];
    TargetOnly(env, node, opts, fuel);
    DefinitionsPointer(defs, name);
  }

  /** `{ $ref: ref, description: d }` keeps the target's parse first and
      intersects it with the parse of the node merged over the target. */
  lemma MergedReferenceScenario(env: Collaborators, node: Schema, opts: Options, fuel: nat,
                                ref: string, defs: string, name: string, d: string)
    requires node == Obj(map["$ref" := Str(ref), "description" := Str(d)])
    requires '/' !in defs && '/' !in name
    requires env.locate(ref, opts) == Location(DefinitionsRoot(defs, name), Pointer(Paths.Join(["", defs, name], '/')))
    requires opts.deserialize.Off?
    requires fuel >= 1
    ensures ParseSchema(env, node, opts, fuel) ==
            Intersect([ParseSchema(env, NumberSchema(), opts, fuel - 1),
                       ParseSchema(env, env.merge(NumberSchema(), Obj(map["description" := Str(d)])), opts, fuel - 1)])
  {
    assert Omit(node, "$ref") == Obj(map["description" := Str(d)]);
    assert "description" in Omit(node, "$ref").keys;
    TargetAndMerge(env, node, opts, fuel);
    DefinitionsPointer(defs, name);
  }
}
