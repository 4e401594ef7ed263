# json-schema-to-ts: the schema-to-meta-type dispatch core, in Dafny

This project models the recursive engine of `json-schema-to-ts`. The engine
turns a JSON Schema node into a *meta-type*: a value of the `ts-algebra`
library that the package later turns into a TypeScript type. In the
repository the engine is written as TypeScript type-level computation. Here
it is a set of ordinary recursive functions over explicit datatypes:

- `Schemas` (schemas.dfy): schema nodes, the options record, the two
  collaborators whose code is not part of the model, and the keyword shapes
  the dispatcher tests (`NullableSchema`, `ReferencingSchema`, ...).
- `MetaTypes` (metatypes.dfy): `Any | Never | Union | Intersect | Leaf`. It
  also defines the predicate "every leaf parser was called with these
  options".
- `Dispatch` (parse.dfy): `ParseSchemaCore` and its three staged helpers,
  `ApplyDeserialization` and `ParseSchema`. It also holds the precedence
  order written as a table of rules (`Rule`, `Rank`, `Guard`,
  `SelectedFrom`, `Apply`), which is the independent reference the
  dispatcher is proved against.
- `AllOf`, `AnyOf`, `OneOf`, `MultipleTypes` (allof.dfy, anyof.dfy,
  oneof.dfy, multipletypes.dfy): the composition combinators. Each is a
  higher-order fold over an abstract `parse: Schema -> MetaType`, so the
  lemmas about the shape of a fold hold whatever `parse` is.
- `References` (references.dfy) and `Paths` (paths.dfy): `HasMergeableKeys`,
  the target lookup through `Split`/`Tail`/`DeepGet`, and `ParseReference`.
- `Properties` (properties.dfy): what the dispatcher guarantees as a whole.
  This covers the precedence order ("the first rule whose guard holds
  wins"), the option flags, the deserialize wrap, and the pinned re-parses
  of a multi-type node. It also follows references end to end through the
  real `ParseSchema`.

Recursion through `merge` and `$ref` does not shrink the schema, so
`ParseSchema` carries a `fuel: nat` budget. Every nested parse spends one
unit, and a spent budget answers `Any`. The budget is a modelling device:
it stands in for no step of `json-schema-to-ts`. The parse function that the
combinators receive is `Sub(env, opts, fuel)`: `ParseSchema` with the same
collaborators and options and the remaining fuel.

Two behaviours of the code are worth stating plainly:

- Deserialization. `ApplyDeserialization` (src/parse-schema/index.ts:133-138)
  intersects the deserialize override, first, with the core result computed
  under the caller's own options. The options it hands the deserialize
  parser are the caller's record with `deserialize` set to the same pattern
  list, so the two records are equal. An empty pattern list is still a list
  and still wraps (`Dispatch.ApplyDeserialization`, `Properties.DeserializeWrap`).
- Unresolvable references. A path that does not resolve gives the schema
  `false`, the default argument of `DeepGet`
  (src/parse-schema/references/utils.ts:34). That schema parses to `Never`
  (`Properties.UnresolvableReferenceIsNever`); no error is raised.

## Model

| member | source | states |
|---|---|---|
| `Dispatch.ParseSchemaCore` | src/parse-schema/index.ts:55-75 | the core parse is what the first rule of the precedence table whose guard holds produces |
| `Dispatch.ParseConditionalThenRest` | src/parse-schema/index.ts:80-89 | the conditional stage answers what the table produces when searched from the if/then/else rule onwards |
| `Dispatch.ParseNotThenRest` | src/parse-schema/index.ts:94-101 | the negation stage answers what the table produces when searched from the `not` rule onwards |
| `Dispatch.ParseCompositionAndTypes` | src/parse-schema/index.ts:106-123 | the composition stage answers what the table produces when searched from the `allOf` rule onwards |
| `Dispatch.OuterTier` | src/parse-schema/index.ts:60-75 | wide, `true`/string, `false`, nullable and `$ref` are tried in that order before the conditional stage |
| `Dispatch.CompositionTier` | src/parse-schema/index.ts:109-114 | `allOf` beats `oneOf`, which beats `anyOf`, which beats the value and type rules |
| `Dispatch.TypeTier` | src/parse-schema/index.ts:115-123 | `enum` beats `const`, which beats a type list, which beats a single type; a node matching none falls back |
| `Dispatch.ApplyDeserialization` | src/parse-schema/index.ts:128-139 | the wrap is a binary intersection with the deserialize leaf first (under the caller's options) and the core result second |
| `Dispatch.ParseSchema` | src/parse-schema/index.ts:147-153 | every leaf parser reached anywhere in the derivation sees the caller's options record unchanged |
| `Dispatch.CoreThreads` | src/parse-schema/index.ts:69-122 | every parser the dispatcher delegates to passes the options on, given that the recursive parse does |
| `Properties.SearchSkipsFailing` | src/parse-schema/index.ts:55-123 | searching the order from a rule finds a later rule, and every rule skipped on the way has a failing guard |
| `Properties.SelectedIsFirst` | src/parse-schema/index.ts:55-123 | the selected rule's guard holds and every rule earlier in the order has a failing guard |
| `Properties.FirstIsSelected` | src/parse-schema/index.ts:55-123 | conversely, a rule whose guard holds while every earlier guard fails is the selected one |
| `Properties.DispatchByPrecedence` | src/parse-schema/index.ts:55-123 | the core parse applies the first rule in the order whose guard holds |
| `Properties.ShorthandSchemas` | src/parse-schema/index.ts:63-66 | `true` and every string parse to `Any`; `false` parses to `Never` |
| `Properties.NullableFirst` | src/parse-schema/index.ts:68-69 | a nullable node goes to the nullable parser whatever other keywords it holds |
| `Properties.ReferenceBeforeKeywords` | src/parse-schema/index.ts:71-75 | a referencing node that is not nullable goes to the reference parser before any conditional, negation, composition, value or type keyword |
| `Properties.IfThenElseOnlyWhenEnabled` | src/parse-schema/index.ts:85-89 | with `parseIfThenElseKeywords` off the rule is never selected, and the conditional stage equals the negation stage |
| `Properties.NotOnlyWhenEnabled` | src/parse-schema/index.ts:97-101 | with `parseNotKeyword` off the rule is never selected, and the negation stage equals the composition stage |
| `Properties.IfThenElseBeatsNot` | src/parse-schema/index.ts:85-101 | with both flags on, a node holding both `if` and `not` goes to the if/then/else parser |
| `Properties.UnmatchedIsAny` | src/parse-schema/index.ts:121-123 | a node that no guard claims parses to `Any` |
| `Properties.DeserializeWrap` | src/parse-schema/index.ts:147-153 | with a pattern list the result is `Intersect([deserialize leaf, core])`; with `false` it is the core result; the core recurses with one unit of fuel less |
| `Schemas.IsAllOf` | src/parse-schema/allOf.ts:18-19 | the `allOf` shape: the node is an object, `allOf` is present, and it holds a list |
| `AllOf.ParseAllOf` | src/parse-schema/allOf.ts:29-40 | the seed is the parse of the node without `allOf`; an empty list gives that parse unchanged; the result is the reference nesting of the merged terms around it, exactly one intersection deep per sub-schema |
| `AllOf.RecurseOnAllOf` | src/parse-schema/allOf.ts:50-71 | an empty list returns the accumulator; otherwise the result is a binary intersection whose first argument is the last sub-schema merged over the root |
| `AllOf.AllOfNests` | src/parse-schema/allOf.ts:59-69 | the accumulator fold builds the reference nesting: each sub-schema is merged over the same root, merged term first, with the last sub-schema outermost |
| `AllOf.NestShift` | src/parse-schema/allOf.ts:63-69 | feeding one more term into the seed nests it innermost |
| `AllOf.NestDepth` | src/parse-schema/allOf.ts:50-71 | `n` terms wrap exactly `n` binary intersections around the seed |
| `AllOf.AllOfThreads` | src/parse-schema/allOf.ts:34-67 | an `allOf` parse passes the options on when the recursive parse does |
| `Schemas.IsAnyOf` | src/parse-schema/anyOf.ts:18-19 | the `anyOf` shape: the node is an object, `anyOf` is present, and it holds a list |
| `AnyOf.BranchTerm` | src/parse-schema/anyOf.ts:69-75 | a branch term is a binary intersection, with the parsed root first and the sub-schema merged over the root second |
| `AnyOf.ParseAnyOf` | src/parse-schema/anyOf.ts:29-42 | the result is one `Union` with exactly one term per sub-schema, in list order; an empty list gives an empty union; every term shares the one parse of the node without `anyOf` |
| `AnyOf.RecurseOnAnyOf` | src/parse-schema/anyOf.ts:53-77 | the fold keeps the earlier terms and appends one branch term per remaining sub-schema, in order |
| `AnyOf.AnyOfReorder` | src/parse-schema/anyOf.ts:63-77 | branches are independent: reordering the list reorders the terms the same way |
| `AnyOf.AnyOfThreads` | src/parse-schema/anyOf.ts:33-75 | an `anyOf` parse passes the options on when the recursive parse does |
| `Schemas.IsOneOf` | src/parse-schema/oneOf.ts:18-19 | the `oneOf` shape: the node is an object, `oneOf` is present, and it holds a list |
| `OneOf.ParseOneOf` | src/parse-schema/oneOf.ts:29-42 | the result is one `Union` with exactly one branch term per sub-schema, in list order, all sharing the one parse of the node without `oneOf` |
| `OneOf.RecurseOnOneOf` | src/parse-schema/oneOf.ts:53-77 | the fold keeps the earlier terms and appends one branch term per remaining sub-schema, in order |
| `OneOf.OneOfMatchesAnyOf` | src/parse-schema/oneOf.ts:29-77 | exclusivity is not enforced: with the same other keywords and list, `oneOf` builds exactly what `anyOf` builds |
| `OneOf.OneOfThreads` | src/parse-schema/oneOf.ts:33-75 | a `oneOf` parse passes the options on when the recursive parse does |
| `Schemas.IsMultipleTypes` | src/parse-schema/multipleTypes.ts:14-15 | the multi-type shape: the node is an object, `type` is present, and it holds a list whose every item is a string |
| `MultipleTypes.ParseMultipleTypes` | src/parse-schema/multipleTypes.ts:25-32 | the result is one `Union` with one term per type name, in list order; each term is the parse of the node without `type` and with that one name pinned; the root is not parsed on its own |
| `MultipleTypes.RecurseOnMixed` | src/parse-schema/multipleTypes.ts:42-57 | the fold keeps the earlier terms and appends one pinned re-parse per remaining name, in order |
| `MultipleTypes.MultipleTypesThreads` | src/parse-schema/multipleTypes.ts:51-56 | a multi-type parse passes the options on when the recursive parse does |
| `Properties.PinKeepsGuard` | src/parse-schema/multipleTypes.ts:55 | pinning a name onto the node without `type` leaves every guard ranked before the type rules unchanged |
| `Properties.PinnedLandsOnSingleType` | src/parse-schema/multipleTypes.ts:55 | every pinned re-parse of a node dispatched as multi-type is dispatched as single-type |
| `Properties.PinnedParse` | src/parse-schema/multipleTypes.ts:55 | without deserialization, each pinned re-parse is the single-type leaf of the pinned node |
| `Properties.MultipleTypesDispatch` | src/parse-schema/index.ts:119-120 | without deserialization, a multi-type node parses to the multi-type union built with one unit of fuel less |
| `Properties.MultipleTypesEndToEnd` | src/parse-schema/multipleTypes.ts:25-57 | end to end, a multi-type node parses to the union of the single-type leaves of its pinned nodes, in list order |
| `References.HasMergeableKeys` | src/parse-schema/references/utils.ts:12-16 | false for boolean schemas; for an object, true exactly when it has a key other than `$ref`, `$id`, `$schema`, `$comment` |
| `References.MatchingReference` | src/parse-schema/references/utils.ts:32-35 | no path means the whole source; otherwise the split path is walked, and a path that does not resolve gives the schema `false` |
| `References.ParseReference` | src/parse-schema/references/utils.ts:26-45 | with nothing to merge the answer is exactly the target's parse; otherwise it is `Intersect([parse(target), parse(merge(target, node))])`; both paths share the one parse of the target |
| `References.ReferenceThreads` | src/parse-schema/references/utils.ts:37-45 | a reference parse passes the options on when the recursive parse does |
| `Dispatch.ParseReferenceSchema` | src/parse-schema/index.ts:71-72 | the `$ref` branch: the located source and path, and the node without `$ref`, are handed to the reference parser |
| `Properties.ReferenceEndToEnd` | src/parse-schema/index.ts:71-72 | without deserialization, a referencing node parses to the reference parser's answer for the located source and path |
| `Properties.TargetOnly` | src/parse-schema/references/utils.ts:40-41 | without deserialization, a referencing node with only identification keywords parses exactly as its target does |
| `Properties.TargetAndMerge` | src/parse-schema/references/utils.ts:42-45 | without deserialization, a referencing node with other keywords parses to the target's parse intersected with the parse of the node merged over the target |
| `Properties.UnresolvableReferenceIsNever` | src/parse-schema/references/utils.ts:34 | without deserialization, a path that does not resolve, on a node with nothing to merge, parses to `Never` |
| `Properties.DefinitionsPointer` | src/parse-schema/references/utils.ts:32-35 | the pointer `/defs/name` reaches the node stored under `defs` and then `name` |
| `Properties.NumberIsSingleType` | src/parse-schema/index.ts:121-122 | without deserialization, `{ type: "number" }` parses to its single-type leaf |
| `Properties.BareReferenceScenario` | src/parse-schema/references/utils.ts:40-41 | `{ $ref }` pointing at `/defs/name` parses exactly as `{ type: "number" }` does |
| `Properties.MergedReferenceScenario` | src/parse-schema/references/utils.ts:42-45 | `{ $ref, description }` parses to the target's parse intersected with the parse of `{ description }` merged over the target |
| `Paths.Split` | src/parse-schema/references/utils.ts:34 | the parts are separator-free, at least one, and join back to the input |
| `Paths.SplitJoin` | src/parse-schema/references/utils.ts:34 | splitting undoes joining for separator-free parts |
| `Paths.DeepGet` | src/parse-schema/references/utils.ts:34 | the empty path gives the source; a path that does not resolve gives the default |
| `Paths.DeepGetAppend` | src/parse-schema/references/utils.ts:34 | walking a concatenated path walks its halves in turn, as long as the first half resolves |
| `Paths.Segments` | src/parse-schema/references/utils.ts:34 | the keys a pointer walks: the pointer split on `/`, with the first part dropped |
| `Paths.PointerSegments` | src/parse-schema/references/utils.ts:34 | a pointer `/k1/k2/...` of separator-free keys walks exactly those keys, with the leading empty segment dropped |

## Left out

- The `ts-algebra` library is not part of this model. `Union` and `Intersect`
  are plain constructors, and none of its simplification laws (absorption of
  `Any`/`Never`, collapse of singletons, set semantics of unions) is applied.
  TypeScript unions are unordered sets, while the model keeps the terms as an
  ordered sequence. So "in list order" describes how the terms were built.
  The library may present them differently.
- The leaf parsers are not part of this model: nullable, if/then/else, not,
  enum, const, single type and deserialize pattern matching. Each becomes a
  symbolic `Leaf(kind, node, options)`, which records only which parser was
  called with which arguments.
- `MergeSubSchema` is not part of this model. Neither is the references index
  that maps a `$ref` string to a reference source (the root schema's
  definitions or `options.references`) and a path. Both are parameters
  (`Collaborators.merge`, `Collaborators.locate`), and every property holds
  for every such pair. The model passes the node to `ParseReference` with
  `$ref` removed; that stripping happens in the references index.
- `Split`, `Tail` and `DeepGet` live in the type utilities, which are not
  part of this model. They are written here with their plain meaning:
  - `Split` cuts at every separator.
  - `DeepGet` walks object keys only, so a path segment is never read as an
    array index.
  - No `~0`/`~1` unescaping (section 4 of RFC 6901) is visible in the code,
    and none is modelled.
- The keyword-shape types are reduced to the tests their names describe
  (`nullable` holds a boolean, `$ref` holds a string, `allOf` holds a list,
  and so on). The files that define the nullable, referencing,
  if/then/else, not, enum, const and single-type shapes are not part of
  this model.
- The wide-type check `JSONSchema extends SCHEMA` has no runtime meaning. It
  is modelled only as the `Wide` variant, which parses to `Any`.
- Termination of cyclic `$ref` chains is not proved. The fuel bound answers
  `Any` once the budget is spent, and no lemma speaks about that cut-off
  beyond the fuel it requires.
- The cost benefit of the hoisted type parameters (`PARSED_ROOT`,
  `MATCHING_REFERENCE`) is not modelled. The model binds each hoisted value
  once; nothing about evaluation count is stated.
- `keepDefaultedPropertiesOptional` and `rootSchema` matter only to the leaf
  parsers and the references index. They are carried in the options record
  and never read.
- JSON numbers are unbounded integers (`Num(n: int)`). No code in the core
  reads them.
- `Dispatch.ParseSchema`: the claim that every leaf parser sees the caller's
  options unchanged holds through `$ref` because of three assumptions about
  the references index, which is not part of this model. It always yields a
  reference source and a path and hands them to `ParseReference`. It passes
  the caller's options on unchanged. It removes `$ref` from the node. The
  signature of `Collaborators.locate` builds these assumptions in, and
  `Properties.ReferenceEndToEnd` rests on them too.
- `Properties.MultipleTypesEndToEnd`, `Properties.BareReferenceScenario` and
  `Properties.MergedReferenceScenario` assume deserialization is off, so the
  leaves are visible without the deserialize wrap.
  `Properties.DeserializeWrap` states what the wrap adds.
- `Properties.TargetOnly` and `Properties.TargetAndMerge` assume
  deserialization is off. With a pattern list, the node's parse and the
  target's parse each gain the deserialize wrap of `Properties.DeserializeWrap`.
- `Properties.UnresolvableReferenceIsNever` assumes deserialization is off.
  With a pattern list the result is `Never` wrapped in deserialize
  intersections, not `Never` itself.
- `Properties.NumberIsSingleType` assumes deserialization is off. With a
  pattern list the leaf is wrapped as `Properties.DeserializeWrap` states.
- `Properties.BareReferenceScenario` and `Properties.MergedReferenceScenario`
  stop at the parse of the target. `Properties.NumberIsSingleType` states
  that this parse is the single-type leaf.
