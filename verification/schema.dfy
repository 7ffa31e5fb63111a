/** Models, type references and relation definitions, and the naming convention
    that derives default foreign-key names. */
module Schema {
  import opened Wrappers
  import opened Errors

  /** What the resolvers read of a model class: its name, the names of its
      declared properties, and its id properties in declaration order. */
  datatype ModelClass = ModelClass(modelName: string, properties: set<string>, idProperties: seq<string>)

  /** A reference to a model: either a lazy type resolver, or some other value
      (a class given directly, or anything else) that the resolvers refuse. */
  datatype TypeRef = TypeResolver(resolve: ModelClass) | NotAResolver

  /** `isTypeResolver(x)` for an optional field; an absent field is not a resolver. */
  predicate IsTypeResolver(t: Option<TypeRef>) {
    t.Some? && t.value.TypeResolver?
  }

  /** JavaScript truthiness of an optional string field: set and not empty. */
  predicate Truthy(k: Option<string>) {
    k.Some? && k.value != ""
  }

  /** The property name a computed key `{[k]: ...}` or an access `x[k]` uses:
      an unset field becomes the string "undefined". */
  function KeyName(k: Option<string>): string {
    if k.Some? then k.value else "undefined"
  }

  /** `!source || !source.modelName` is false. */
  predicate SourceDefined(source: Option<ModelClass>) {
    source.Some? && source.value.modelName != ""
  }

  function LowerChar(c: char): char {
    if 'A' <= c <= 'Z' then (c as int - 'A' as int + 'a' as int) as char else c
  }

  /** `camelCase(modelName + '_id')`, for a model name that is already in
      PascalCase: the first letter lower-cased, then "Id". */
  function DefaultFkName(modelName: string): (fk: string)
    ensures |fk| == |modelName| + 2
    ensures fk[|modelName|..] == "Id"
    ensures Truthy(Some(fk))
    ensures modelName == "" ==> fk == "Id"
    ensures modelName != "" ==> fk[0] == LowerChar(modelName[0]) && fk[1..|modelName|] == modelName[1..]
  {
    if modelName == "" then "Id" else [LowerChar(modelName[0])] + modelName[1..] + "Id"
  }

  /** A relation definition: the source model, the target and optional through
      references, and the key fields, each of which may be unset. */
  datatype Definition = Definition(
    source: Option<ModelClass>,
    target: TypeRef,
    through: Option<TypeRef>,
    keyTo: Option<string>,
    targetFkName: Option<string>,
    targetPrimaryKey: Option<string>)

  /** The outcome of resolving a definition, together with the state the
      definition is left in (the resolvers write their results into it). */
  datatype Resolution = Resolved(def: Definition) | Failed(def: Definition, reason: Reason)
  {
    function ToResult(): Result<Definition, Error> {
      if Resolved? then Success(def) else Failure(InvalidRelation(reason))
    }
  }

  /** The shared, mutable relation definition object the resolvers update in place. */
  class RelationDefinition {
    const source: Option<ModelClass>
    const target: TypeRef
    const through: Option<TypeRef>
    var keyTo: Option<string>
    var targetFkName: Option<string>
    var targetPrimaryKey: Option<string>

    function Snapshot(): Definition
      reads this
    {
      Definition(source, target, through, keyTo, targetFkName, targetPrimaryKey)
    }

    constructor (d: Definition)
      ensures Snapshot() == d
    {
      source, target, through := d.source, d.target, d.through;
      keyTo, targetFkName, targetPrimaryKey := d.keyTo, d.targetFkName, d.targetPrimaryKey;
    }
  }
}
