/**
 The data the dispatch engine reads: JSON Schema nodes, the parsing options
 record, and the two collaborators whose code is not part of this model
 (the structural merge of two nodes and the mapping of a `$ref` string to a
 reference source).
 */
module Schemas {

  /** A JSON Schema node. Every JSON value can stand where a schema is
      expected; the keyword values of an object node are JSON values too, so
      sub-schemas (the items of `allOf`, the target of a `definitions` entry)
      live inside the same tree. `Wide` is the statically unknown `JSONSchema`
      type itself, which the engine answers with `Any` before looking inside. */
  datatype Schema =
    | Wide
    | Bool(b: bool)
    | Str(s: string)
    | Num(n: int)
    | Null
    | List(items: seq<Schema>)
    | Obj(keys: map<string, Schema>)

  /** A deserialization rule: a pattern a node may match and the name of the
      type that overrides the inferred one when it does. */
  datatype Pattern = Pattern(pattern: Schema, output: string)

  /** The `deserialize` option: a list of patterns, or `false`. */
  datatype Deserialize = Off | Patterns(patterns: seq<Pattern>)

  /** `ParseSchemaOptions`: an immutable record threaded through every call. */
  datatype Options = Options(
    parseNotKeyword: bool,
    parseIfThenElseKeywords: bool,
    keepDefaultedPropertiesOptional: bool,
    rootSchema: Schema,
    references: map<string, Schema>,
    deserialize: Deserialize)

  /** The path inside a reference source: a `/`-separated pointer, or
      `undefined` when the whole source is meant. */
  datatype Path = Whole | Pointer(pointer: string)

  /** Where a `$ref` points: a reference source and a path inside it. */
  datatype Location = Location(source: Schema, path: Path)

  /** Collaborators the engine calls but whose code is not part of this model:
      `merge` is `MergeSubSchema` (its second argument's keywords are laid over
      the first's), `locate` maps a `$ref` string to a reference source (the
      root schema or an entry of `options.references`) and a path inside it. */
  datatype Collaborators = Collaborators(
    merge: (Schema, Schema) -> Schema,
    locate: (string, Options) -> Location)

  /** `Omit<node, key>`: the node without one keyword; every other keyword
      keeps its value. A non-object node has no keys to drop. */
  function Omit(node: Schema, key: string): Schema
  {
    if node.Obj? then Obj(node.keys - {key}) else node
  }

  /** `ROOT & { type: T }`: an object node with its `type` keyword set to one
      type name; every other keyword keeps its value. */
  function Pin(root: Schema, typeName: Schema): Schema
    requires root.Obj?
  {
    Obj(root.keys["type" := typeName])
  }

  predicate HasKey(node: Schema, key: string)
  {
    node.Obj? && key in node.keys
  }

  /** The list held under `key`, as the composition parsers read their
      sub-schemas. */
  function ListAt(node: Schema, key: string): seq<Schema>
    requires HasKey(node, key) && node.keys[key].List?
  {
    node.keys[key].items
  }

  // The keyword shapes the dispatcher tests, one per schema kind of
  // json-schema-to-ts (`NullableSchema`, `ReferencingSchema`, ...).

  /** `{ nullable: boolean }` (OpenAPI 3.0). */
  predicate IsNullable(node: Schema)
  {
    HasKey(node, "nullable") && node.keys["nullable"].Bool?
  }

  /** `{ $ref: string }`. */
  predicate IsReferencing(node: Schema)
  {
    HasKey(node, "$ref") && node.keys["$ref"].Str?
  }

  /** `{ if: JSONSchema, then?, else? }`. */
  predicate IsIfThenElse(node: Schema)
  {
    HasKey(node, "if")
  }

  /** `{ not: JSONSchema }`. */
  predicate IsNot(node: Schema)
  {
    HasKey(node, "not")
  }

  /** `{ allOf: JSONSchema[] }`. */
  predicate IsAllOf(node: Schema)
  {
    HasKey(node, "allOf") && node.keys["allOf"].List?
  }

  /** `{ oneOf: JSONSchema[] }`. */
  predicate IsOneOf(node: Schema)
  {
    HasKey(node, "oneOf") && node.keys["oneOf"].List?
  }

  /** `{ anyOf: JSONSchema[] }`. */
  predicate IsAnyOf(node: Schema)
  {
    HasKey(node, "anyOf") && node.keys["anyOf"].List?
  }

  /** `{ enum: unknown[] }`. */
  predicate IsEnum(node: Schema)
  {
    HasKey(node, "enum") && node.keys["enum"].List?
  }

  /** `{ const: unknown }`. */
  predicate IsConst(node: Schema)
  {
    HasKey(node, "const")
  }

  /** A list of type names. */
  predicate AreTypeNames(names: seq<Schema>)
  {
    forall i | 0 <= i < |names| :: names[i].Str?
  }

  /** `{ type: JSONSchemaType[] }`. */
  predicate IsMultipleTypes(node: Schema)
  {
    HasKey(node, "type") && node.keys["type"].List? && AreTypeNames(node.keys["type"].items)
  }

  /** `{ type: JSONSchemaType }`. */
  predicate IsSingleType(node: Schema)
  {
    HasKey(node, "type") && node.keys["type"].Str?
  }
}
