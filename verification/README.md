# LoopBack has-many relation resolution, modelled in Dafny

This project models the relation-resolution core of LoopBack's `@loopback/repository`
package: how a has-many or has-many-through relation definition is checked and
completed with default foreign-key names, how the constraint that scopes a
repository to one source instance is built, and how the scoped
has-many-through repository orders its calls to the target and through
repositories.

- `Schema` (schema.dfy): model classes, type references (a lazy type resolver or not),
  relation definitions, and the naming convention `camelCase(ModelName + '_id')`,
  taken here as "lower-case the first letter and append `Id`". The shared definition object
  that the resolvers update in place is the class `RelationDefinition`; `Definition`
  is its value.
- `HasManyThroughFactory` and `HasManyFactory`: each resolver is specified by a
  function (`ResolveThrough`, `ResolveHasMany`) from the definition to the
  definition's new state and the outcome. The imperative resolvers
  (`ResolveHasManyThroughMetadata`, `ResolveHasManyMetadata`) run the guards in source
  order, write into the definition, and are proved equal to those functions. Then
  come the factories and what calling a factory with a source key value yields.
- `AdvancedConstraint`: the through-relation constraint builder. Anchored on a target
  instance it gives the join-row data object. Otherwise it queries the through
  repository once and projects the join rows to `{or: [{id: row[targetFkName]}, ...]}`.
- `HasManyThroughRepository`: the scoped repository class, with `Create`, `Find`,
  `Delete` and `Patch` over in-memory stores that share one call log.
- `Crud`: an in-memory stand-in for the CRUD repositories the core calls
  (`find`, `create`, `deleteAll`, `updateAll`). Every call is appended to a log.
  How a filter selects rows and whether storage accepts a create are parameters.
- `ConstraintUtils`: `constrainFilter`, `constrainWhere` and `constrainDataObject`
  are parameters. The one property assumed of them (`Sound`) is that every
  constraint key appears in the result with the constraint's value.
- `Fixtures`: the Customer / Order / Seller relations from the test fixtures.

Behaviour of the code that the model keeps:
- A key field counts as given only when it is truthy, so the empty string counts as unset.
- A computed key taken from an unset field is the string `"undefined"` (`KeyName`).
  This matters for a has-many-through definition that sets only some of
  `keyTo`, `targetFkName` and `targetPrimaryKey`. Resolution then returns the
  definition unchanged and fills in none of the missing keys.
- `resolveHasManyMetadata` writes `targetFkName` into the definition before it checks
  `keyTo`. A failure of that later check therefore leaves the definition partly written.
- A has-many-through `find`, `delete` or `patch` with no join rows fails with
  `EntityNotFound`. It does not return an empty result and does not call the target.
  The code does this, so the model follows it.

## Model

| member | source | states |
|---|---|---|
| Schema.DefaultFkName | packages/repository/src/relations/has-many/has-many-repository.factory.ts:150 | the default foreign key of a model is its name with the first letter lower-cased and "Id" appended ("Id" for an empty name), so it is never empty (a resolved key is always truthy) |
| HasManyThroughFactory.ResolveThrough | packages/repository/src/relations/has-many/has-many-through-repository.factory.ts:141-219 | a failure leaves the definition unchanged; success needs both references to be resolvers; explicit keys return the definition as is; otherwise keyTo and targetFkName are the convention names, both declared by the through model, and targetPrimaryKey is the target's first id property |
| HasManyThroughFactory.ThroughGuardOrder | packages/repository/src/relations/has-many/has-many-through-repository.factory.ts:144-166 | the target check fails first, then the through check, then (with no explicit key) the source check, then the default foreign key on the through model, then the target foreign key on it, then the target's first id |
| HasManyThroughFactory.ThroughResolvesIff | packages/repository/src/relations/has-many/has-many-through-repository.factory.ts:144-212 | resolution succeeds exactly when both are resolvers and either some key is given or the source is defined, both default keys are through properties and the target has a first id |
| HasManyThroughFactory.ResolveThroughStable | packages/repository/src/relations/has-many/has-many-through-repository.factory.ts:153-218 | resolving the resulting definition again gives the same result: a success is not re-failed, a failure repeats |
| HasManyThroughFactory.ResolveHasManyThroughMetadata | packages/repository/src/relations/has-many/has-many-through-repository.factory.ts:141-219 | the in-place resolver leaves the definition in the state ResolveThrough gives and returns its outcome as InvalidRelation or the resolved definition |
| HasManyThroughFactory.ThroughFactory.Apply | packages/repository/src/relations/has-many/has-many-through-repository.factory.ts:61-80 | each call yields a fresh scoped repository capturing its own fkValue and the once-resolved metadata |
| HasManyThroughFactory.CreateHasManyThroughRepositoryFactory | packages/repository/src/relations/has-many/has-many-through-repository.factory.ts:48-81 | metadata is resolved once when the factory is created; an invalid relation fails there with the resolver's reason |
| HasManyThroughFactory.AnchoredJoinRowUsesDeclaredKeys | packages/repository/src/relations/has-many/has-many-through-repository.factory.ts:101-110 | for a definition resolved by convention, the anchored join row uses only keys the through model declares and carries the target's first id |
| AdvancedConstraint.SourceConstraint | packages/repository/src/relations/has-many/has-many-repository.factory.ts:85 | the direct constraint {[keyTo]: fkValue} has exactly the one key keyTo, holding fkValue (the same expression builds the join query's constraint at has-many-repository.factory.ts:65 and the initial data object of the through constraint) |
| AdvancedConstraint.IdClauses | packages/repository/src/relations/has-many/has-many-through-repository.factory.ts:123-127 | the projection gives exactly one {id: row[targetFkName]} per join row, in row order |
| AdvancedConstraint.Anchored | packages/repository/src/relations/has-many/has-many-through-repository.factory.ts:101-131 | the anchored data object has exactly the keys keyTo and targetFkName, holding fkValue (unless the two keys coincide) and instance[targetPrimaryKey]; where is {where: dataObject}; filter is {where: where} |
| AdvancedConstraint.Unanchored | packages/repository/src/relations/has-many/has-many-through-repository.factory.ts:111-131 | fails with EntityNotFound on the through model and {keyTo: fkValue} exactly when there are no join rows; otherwise dataObject is {}, where is {or: [...]} with one {id: row[targetFkName]} per row in order, and filter is {where: where} |
| AdvancedConstraint.CreateAdvancedConstraint | packages/repository/src/relations/has-many/has-many-through-repository.factory.ts:89-133 | with a target instance: the anchored constraint and no call; without one: exactly one through find whose filter is constrainFilter with no caller filter over {keyTo: fkValue}, then Unanchored of the rows it returned |
| AdvancedConstraint.JoinRowCarriesAnchor | packages/repository/src/relations/has-many/has-many-through.repository.ts:100-108 | the join row created by create carries instance[targetPrimaryKey] under targetFkName and fkValue under keyTo |
| AdvancedConstraint.UnanchoredScopesByJoinedIds | packages/repository/src/relations/has-many/has-many-through.repository.ts:116-149 | assuming the constraint helpers keep every constraint key with the constraint's value, the target find filter's where is the or-list of joined ids and the delete/patch where clause carries it; this depends on that assumed policy, under which a caller's own where key is replaced rather than combined |
| HasManyThroughRepository.DefaultHasManyThroughRepository.constructor | packages/repository/src/relations/has-many/has-many-through.repository.ts:81-87 | the repository holds the two repositories and the constraint's captured metadata, fkValue and helpers |
| HasManyThroughRepository.DefaultHasManyThroughRepository.Create | packages/repository/src/relations/has-many/has-many-through.repository.ts:89-110 | target create first; only if it succeeds, one through create with throughModelData (default {}) constrained by the anchored data object; the new target stays when the through create fails; returns the target instance |
| HasManyThroughRepository.DefaultHasManyThroughRepository.Find | packages/repository/src/relations/has-many/has-many-through.repository.ts:112-124 | the constraint is computed first; on EntityNotFound no target call is made; otherwise exactly one target find with constrainFilter(filter, constraint.filter) |
| HasManyThroughRepository.DefaultHasManyThroughRepository.Delete | packages/repository/src/relations/has-many/has-many-through.repository.ts:126-133 | the constraint is computed first; on failure the target is untouched; otherwise exactly one deleteAll with constrainWhere(where, constraint.where), returning its count, which equals the number of target rows removed |
| HasManyThroughRepository.DefaultHasManyThroughRepository.Patch | packages/repository/src/relations/has-many/has-many-through.repository.ts:135-150 | the constraint is computed first; on failure the target is untouched; otherwise exactly one updateAll with data constrained by the (empty) data object and where constrained by constraint.where, returning its count |
| HasManyFactory.ResolveHasMany | packages/repository/src/relations/has-many/has-many-repository.factory.ts:98-165 | success needs a resolver target and gives a truthy keyTo; an explicit keyTo returns the definition as is; otherwise keyTo is the convention name declared by the through model (if any) else the target, and with a through model targetFkName is the target's convention name declared by it; a failure changes nothing except the targetFkName already written when the keyTo check fails |
| HasManyFactory.FkHolder | packages/repository/src/relations/has-many/has-many-repository.factory.ts:151 | the model that must declare keyTo is the through model when there is one, otherwise the target model |
| HasManyFactory.HasManyGuardOrder | packages/repository/src/relations/has-many/has-many-repository.factory.ts:101-162 | the target check fails first; without keyTo a missing source fails next; then a present non-resolver through; then a through model lacking the target's default key fails naming that key; then a missing source default key fails naming it, with targetFkName already written in the through branch |
| HasManyFactory.HasManyResolvesIff | packages/repository/src/relations/has-many/has-many-repository.factory.ts:101-162 | resolution succeeds exactly when the target is a resolver and either keyTo is given or the source is defined, a through model (if any) is a resolver declaring the target key, and the holder model declares the default key |
| HasManyFactory.ResolveHasManyStable | packages/repository/src/relations/has-many/has-many-repository.factory.ts:106-164 | resolving the resulting definition again gives the same result, also after a partly written failure |
| HasManyFactory.ResolveHasManyMetadata | packages/repository/src/relations/has-many/has-many-repository.factory.ts:98-165 | the in-place resolver leaves the definition in the state ResolveHasMany gives and returns its outcome |
| HasManyFactory.ThroughScopeConstraint | packages/repository/src/relations/has-many/has-many-repository.factory.ts:63-80 | EntityNotFound exactly when there are no join rows; otherwise {or: [...]} with one {id: row[targetFkName]} per row in order |
| HasManyFactory.ThroughScopeAgreesWithUnanchored | packages/repository/src/relations/has-many/has-many-repository.factory.ts:63-80 | the has-many through branch and the has-many-through repository scope the target identically |
| HasManyFactory.HasManyFactory.Apply | packages/repository/src/relations/has-many/has-many-repository.factory.ts:62-87 | the through branch is taken only with a truthy targetFkName and a through repository, and queries it once; otherwise the constraint is {keyTo: fkValue} and no call is made |
| HasManyFactory.CreateHasManyRepositoryFactory | packages/repository/src/relations/has-many/has-many-repository.factory.ts:41-88 | metadata is resolved once when the factory is created; an invalid relation fails there |
| HasManyFactory.DirectConstraintUsesDeclaredKey | packages/repository/src/relations/has-many/has-many-repository.factory.ts:83-87 | resolved by convention without a through model, the direct constraint has one key, declared by the target model |
| Fixtures.CustomerOrdersKey | packages/repository/src/__tests__/fixtures/models/customer.model.ts:24 | Customer has many Order resolves keyTo to customerId |
| Fixtures.CustomerSellersKeys | packages/repository/src/__tests__/fixtures/models/customer.model.ts:27 | Customer has many Seller through Order resolves to customerId, sellerId and id |
| Fixtures.ExplicitKeyToKept | packages/repository/src/__tests__/fixtures/models/customer.model.ts:33 | an explicit keyTo parentId is kept as is |
| Fixtures.MissingForeignKeyRejected | packages/repository/src/relations/has-many/has-many-repository.factory.ts:150-162 | a target without customerId is rejected naming that key |
| Fixtures.SellersOfCustomerFive | packages/repository/src/relations/has-many/has-many-through-repository.factory.ts:122-128 | join rows for customer 5 with sellers 10 and 11 scope by {or: [{id: 10}, {id: 11}]} |
| Fixtures.JoinRowForNewSeller | packages/repository/src/relations/has-many/has-many-through-repository.factory.ts:101-110 | a new seller with id 7 for customer 5 gets the join row {customerId: 5, sellerId: 7} |

## Left out

- Schema.DefaultFkName: only the case of a PascalCase model name is modelled. The first letter is lower-cased and `Id` appended; lodash `camelCase`'s general word splitting is not modelled. For an empty model name the model gives `Id`, where lodash gives `camelCase("_id") == "id"`.
- ConstraintUtils: `constrainFilter`, `constrainWhere` and `constrainDataObject` are not part of this model. They are parameters, assumed (`Sound`) to keep every top-level constraint key with the constraint's value. That assumption is itself a conflict policy: on a key the caller also uses, the constraint's value wins, whereas the helpers may instead combine the caller's predicate with the constraint. The lemmas that use `Sound` (`AdvancedConstraint.JoinRowCarriesAnchor`, `AdvancedConstraint.UnanchoredScopesByJoinedIds`) depend on that policy. The assumption also treats every constraint as a flat set of keys, although `constrainFilter` is handed a where-shaped constraint for the join query and a filter-shaped one (`{where: ...}`) for the target find. Any error the helpers may raise is not modelled.
- HasManyThroughRepository.DefaultHasManyThroughRepository.Create: the target and through repositories are assumed to be distinct objects sharing one call log (`Valid`). A relation whose target and through repository are the same object is not modelled.
- Storage: the query semantics, id generation and validation of the CRUD repositories are outside the core. `Crud.Store` stands in for them, with the filter evaluation and the acceptance of a create as parameters. Options arguments are not modelled.
- Promises and `await` ordering, and the laziness of repository getters: calls are modelled as sequential method calls on stores that are already available.
- `isTypeResolver` and runtime class resolution: a reference is tagged as a resolver and carries the model it resolves to.
- A model whose `definition` object is missing is not modelled. Such a model reads as having no properties, and the `TypeError` of calling `idProperties()` on it is not modelled.
- Debug logging and error message texts (including the JSON id string of `EntityNotFoundError`): only the error kind, the through model's name and the queried data object are kept.
- `relation.types.ts` has no behaviour. It only shapes `Schema.Definition`, which has one record for both has-many and has-many-through definitions.
- `DefaultHasManyRepository` and the has-one factory are not part of this model. A has-many factory call yields `HasManyScope`: the target repository and the constraint the scoped repository would be built with.
- The Seller model is not part of this model. The fixture examples assume it declares `id` (its id property) and `name`.
