/** `resolveHasManyMetadata` and `createHasManyRepositoryFactory`: a has-many
    relation is scoped either directly by `{[keyTo]: fkValue}`, or, when the
    resolved metadata names a target foreign key and a through repository is
    given, by the ids of the targets linked to the source through join rows. */
module HasManyFactory {
  import opened Wrappers
  import opened Values
  import opened Errors
  import opened Schema
  import opened ConstraintUtils
  import opened Crud
  import opened AdvancedConstraint

  /** The model that must declare `keyTo`: the through model if there is one,
      otherwise the target model. */
  function FkHolder(d: Definition): (m: ModelClass)
    requires d.target.TypeResolver? && (d.through.Some? ==> d.through.value.TypeResolver?)
    ensures d.through.Some? ==> m == d.through.value.resolve
    ensures d.through.None? ==> m == d.target.resolve
  {
    if d.through.Some? then d.through.value.resolve else d.target.resolve
  }

  /** Resolved by convention: `keyTo` is declared by the model that holds it, and
      with a through model, `targetFkName` is declared by the through model. */
  predicate HasManyKeysValid(d: Definition) {
    && d.target.TypeResolver?
    && (d.through.Some? ==> IsTypeResolver(d.through) && Truthy(d.targetFkName)
                             && d.targetFkName.value in d.through.value.resolve.properties)
    && Truthy(d.keyTo) && d.keyTo.value in FkHolder(d).properties
  }

  /** The state `resolveHasManyMetadata` leaves the definition in, and its outcome. */
  function ResolveHasMany(d: Definition): (res: Resolution)
    ensures res.def.source == d.source && res.def.target == d.target && res.def.through == d.through
    ensures res.def.targetPrimaryKey == d.targetPrimaryKey
    ensures res.Resolved? ==> d.target.TypeResolver? && Truthy(res.def.keyTo)
    ensures d.target.TypeResolver? && Truthy(d.keyTo) ==> res == Resolved(d)
    ensures res.Resolved? && !Truthy(d.keyTo) ==>
      && HasManyKeysValid(res.def)
      && SourceDefined(d.source)
      && res.def.keyTo == Some(DefaultFkName(d.source.value.modelName))
      && (d.through.Some? ==> res.def.targetFkName == Some(DefaultFkName(d.target.resolve.modelName)))
      && (d.through.None? ==> res.def.targetFkName == d.targetFkName)
    // A failure leaves the definition untouched, except that a through model's
    // target foreign key is already written when the later `keyTo` check fails.
    ensures res.Failed? && res.def != d ==>
      && res.reason.MissingDefaultFk? && d.through.Some? && d.target.TypeResolver?
      && res.def == d.(targetFkName := Some(DefaultFkName(d.target.resolve.modelName)))
  {
    if !d.target.TypeResolver? then Failed(d, TargetNotResolver)
    else if Truthy(d.keyTo) then Resolved(d)
    else if !SourceDefined(d.source) then Failed(d, SourceUndefined)
    else
      var targetModel := d.target.resolve;
      var defaultFkName := DefaultFkName(d.source.value.modelName);
      if d.through.Some? then
        if !d.through.value.TypeResolver? then Failed(d, ThroughNotResolver)
        else
          var throughModel := d.through.value.resolve;
          var targetFkName := DefaultFkName(targetModel.modelName);
          if targetFkName !in throughModel.properties then Failed(d, MissingTargetFk(targetFkName))
          else
            var withTargetFk := d.(targetFkName := Some(targetFkName));
            if defaultFkName !in throughModel.properties then Failed(withTargetFk, MissingDefaultFk(defaultFkName))
            else Resolved(withTargetFk.(keyTo := Some(defaultFkName)))
      else if defaultFkName !in targetModel.properties then Failed(d, MissingDefaultFk(defaultFkName))
      else Resolved(d.(keyTo := Some(defaultFkName)))
  }

  /** The guards run in order: target, explicit `keyTo`, source, through, the
      target's key on the through model, then the source's key on the model
      that holds it; each missing key is named in its error. */
  lemma HasManyGuardOrder(d: Definition)
    ensures !d.target.TypeResolver? ==> ResolveHasMany(d) == Failed(d, TargetNotResolver)
    ensures d.target.TypeResolver? && !Truthy(d.keyTo) && !SourceDefined(d.source) ==>
      ResolveHasMany(d) == Failed(d, SourceUndefined)
    ensures d.target.TypeResolver? && !Truthy(d.keyTo) && SourceDefined(d.source)
            && d.through.Some? && !d.through.value.TypeResolver? ==>
      ResolveHasMany(d) == Failed(d, ThroughNotResolver)
    ensures d.target.TypeResolver? && !Truthy(d.keyTo) && SourceDefined(d.source)
            && d.through.Some? && d.through.value.TypeResolver?
            && DefaultFkName(d.target.resolve.modelName) !in d.through.value.resolve.properties ==>
      ResolveHasMany(d) == Failed(d, MissingTargetFk(DefaultFkName(d.target.resolve.modelName)))
    ensures d.target.TypeResolver? && !Truthy(d.keyTo) && SourceDefined(d.source)
            && d.through.Some? && d.through.value.TypeResolver?
            && DefaultFkName(d.target.resolve.modelName) in d.through.value.resolve.properties
            && DefaultFkName(d.source.value.modelName) !in d.through.value.resolve.properties ==>
      ResolveHasMany(d) == Failed(d.(targetFkName := Some(DefaultFkName(d.target.resolve.modelName))),
                                  MissingDefaultFk(DefaultFkName(d.source.value.modelName)))
    ensures d.target.TypeResolver? && !Truthy(d.keyTo) && SourceDefined(d.source) && d.through.None?
            && DefaultFkName(d.source.value.modelName) !in d.target.resolve.properties ==>
      ResolveHasMany(d) == Failed(d, MissingDefaultFk(DefaultFkName(d.source.value.modelName)))
  {
  }

  /** Resolution succeeds exactly when the target is a resolver and either
      `keyTo` is given or the convention-derived keys are declared. */
  lemma HasManyResolvesIff(d: Definition)
    ensures ResolveHasMany(d).Resolved? <==>
      && d.target.TypeResolver?
      && (|| Truthy(d.keyTo)
          || (&& SourceDefined(d.source)
              && (d.through.Some? ==>
                    d.through.value.TypeResolver? &&
                    DefaultFkName(d.target.resolve.modelName) in d.through.value.resolve.properties)
              && DefaultFkName(d.source.value.modelName) in FkHolder(d).properties))
  {
  }

  /** Resolving the definition it leaves behind gives the same result, for a
      success and for each failure (including the partly written one). */
  lemma ResolveHasManyStable(d: Definition)
    ensures ResolveHasMany(ResolveHasMany(d).def) == ResolveHasMany(d)
  {
  }

  /** `resolveHasManyMetadata`: the guards in source order, writing
      `targetFkName` and then `keyTo` into the definition in place. */
  method ResolveHasManyMetadata(relationMeta: RelationDefinition) returns (r: Result<Definition, Error>)
    modifies relationMeta
    ensures relationMeta.Snapshot() == ResolveHasMany(old(relationMeta.Snapshot())).def
    ensures r == ResolveHasMany(old(relationMeta.Snapshot())).ToResult()
  {
    if !relationMeta.target.TypeResolver? {
      return Failure(InvalidRelation(TargetNotResolver));
    }
    if Truthy(relationMeta.keyTo) {
      return Success(relationMeta.Snapshot());
    }
    if !SourceDefined(relationMeta.source) {
      return Failure(InvalidRelation(SourceUndefined));
    }
    var targetModel := relationMeta.target.resolve;
    var throughModel: Option<ModelClass> := None;
    if relationMeta.through.Some? {
      if !relationMeta.through.value.TypeResolver? {
        return Failure(InvalidRelation(ThroughNotResolver));
      }
      throughModel := Some(relationMeta.through.value.resolve);
      var targetFkName := DefaultFkName(targetModel.modelName);
      if targetFkName !in throughModel.value.properties {
        return Failure(InvalidRelation(MissingTargetFk(targetFkName)));
      }
      relationMeta.targetFkName := Some(targetFkName);
    }
    var defaultFkName := DefaultFkName(relationMeta.source.value.modelName);
    var modelWithFkProperty := throughModel.GetOr(targetModel);
    if defaultFkName !in modelWithFkProperty.properties {
      return Failure(InvalidRelation(MissingDefaultFk(defaultFkName)));
    }
    relationMeta.keyTo := Some(defaultFkName);
    r := Success(relationMeta.Snapshot());
  }

  /** What a scoped has-many repository is built from: the target repository
      and the constraint it applies to every operation. */
  datatype HasManyScope = HasManyScope(targetRepository: Store, constraint: Record)

  /** The constraint of the through branch, given the join rows found for
      `{[keyTo]: fkValue}` and the through model's name. */
  function ThroughScopeConstraint(meta: Definition, fkValue: Json, joined: seq<Record>, throughName: string)
    : (r: Result<Record, Error>)
    ensures r.Failure? <==> joined == []
    ensures r.Failure? ==> r.error == EntityNotFound(throughName, SourceConstraint(meta, fkValue))
    ensures r.Success? ==> r.value.Keys == {"or"} && r.value["or"].Arr?
    ensures r.Success? ==> var ids := r.value["or"].items;
              |ids| == |joined| &&
              forall i :: 0 <= i < |joined| ==> ids[i] == Obj(map["id" := Get(joined[i], KeyName(meta.targetFkName))])
  {
    if joined == [] then Failure(EntityNotFound(throughName, SourceConstraint(meta, fkValue)))
    else Success(TargetIdsWhere(joined, KeyName(meta.targetFkName)))
  }

  /** The has-many through branch and the has-many-through repository scope
      the target the same way: both fail on no join rows, and otherwise the
      has-many constraint is the through repository's where clause. */
  lemma ThroughScopeAgreesWithUnanchored(meta: Definition, fkValue: Json, joined: seq<Record>, throughName: string)
    ensures ThroughScopeConstraint(meta, fkValue, joined, throughName).Failure? <==>
            Unanchored(meta, fkValue, joined, throughName).Failure?
    ensures ThroughScopeConstraint(meta, fkValue, joined, throughName).Success? ==>
            ThroughScopeConstraint(meta, fkValue, joined, throughName).value ==
            Unanchored(meta, fkValue, joined, throughName).value.where
  {
  }

  /** The function `createHasManyRepositoryFactory` returns, holding the
      metadata resolved once. */
  datatype HasManyFactory = HasManyFactory(meta: Definition, targetRepository: Store,
                                           throughRepository: Option<Store>, utils: Utils)
  {
    /** The through branch is taken only when the metadata has a target foreign
        key and a through repository was supplied. */
    predicate UsesThrough() {
      Truthy(meta.targetFkName) && throughRepository.Some?
    }

    /** Calling the factory with a source key value. The direct branch makes no
        call; the through branch queries the through repository once. */
    method Apply(fkValue: Json) returns (r: Result<HasManyScope, Error>)
      modifies if throughRepository.Some? then {throughRepository.value.log} else {}
      ensures !UsesThrough() ==> r == Success(HasManyScope(targetRepository, SourceConstraint(meta, fkValue)))
      ensures !UsesThrough() && throughRepository.Some? ==>
        throughRepository.value.log.calls == old(throughRepository.value.log.calls)
      ensures UsesThrough() ==>
        var store := throughRepository.value;
        var query := utils.constrainFilter(None, SourceConstraint(meta, fkValue));
        && store.log.calls == old(store.log.calls) + [Call.Find(store.entityName, query)]
        && var c := ThroughScopeConstraint(meta, fkValue, Matching(store.rows, query, store.filterMatches), store.entityName);
           r == if c.Success? then Success(HasManyScope(targetRepository, c.value)) else Failure(c.error)
    {
      if UsesThrough() {
        var throughConstraint := SourceConstraint(meta, fkValue);
        var throughRepo := throughRepository.value;
        var throughInstances := throughRepo.Find(utils.constrainFilter(None, throughConstraint));
        if |throughInstances| == 0 {
          return Failure(EntityNotFound(throughRepo.entityName, throughConstraint));
        }
        var constraint := TargetIdsWhere(throughInstances, KeyName(meta.targetFkName));
        return Success(HasManyScope(targetRepository, constraint));
      }
      r := Success(HasManyScope(targetRepository, SourceConstraint(meta, fkValue)));
    }
  }

  /** `createHasManyRepositoryFactory`: resolves (and so updates) the definition once. */
  method CreateHasManyRepositoryFactory(relationMetadata: RelationDefinition, targetRepository: Store,
                                        throughRepository: Option<Store>, utils: Utils)
    returns (r: Result<HasManyFactory, Error>)
    modifies relationMetadata
    ensures relationMetadata.Snapshot() == ResolveHasMany(old(relationMetadata.Snapshot())).def
    ensures ResolveHasMany(old(relationMetadata.Snapshot())).Failed? ==>
      r == Failure(InvalidRelation(ResolveHasMany(old(relationMetadata.Snapshot())).reason))
    ensures ResolveHasMany(old(relationMetadata.Snapshot())).Resolved? ==>
      r == Success(HasManyFactory(relationMetadata.Snapshot(), targetRepository, throughRepository, utils))
  {
    var meta := ResolveHasManyMetadata(relationMetadata);
    if meta.Failure? {
      return Failure(meta.error);
    }
    r := Success(HasManyFactory(meta.value, targetRepository, throughRepository, utils));
  }

  /** Resolved by convention without a through model, the direct constraint
      scopes on exactly one key, which the target model declares. */
  lemma DirectConstraintUsesDeclaredKey(d: Definition, fkValue: Json)
    requires ResolveHasMany(d).Resolved? && !Truthy(d.keyTo) && d.through.None?
    ensures var c := SourceConstraint(ResolveHasMany(d).def, fkValue);
            c.Keys == {DefaultFkName(d.source.value.modelName)} && c.Keys <= d.target.resolve.properties
  {
  }
}
