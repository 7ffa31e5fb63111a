/** `resolveHasManyThroughMetadata` and `createHasManyThroughRepositoryFactory`:
    the metadata of a has-many-through relation is resolved once, when the
    factory is created, and each source key value then gets its own scoped
    repository. */
module HasManyThroughFactory {
  import opened Wrappers
  import opened Values
  import opened Errors
  import opened Schema
  import opened ConstraintUtils
  import opened Crud
  import opened AdvancedConstraint
  import opened HasManyThroughRepository

  /** Some key is given explicitly, so resolution stops at the type checks. */
  predicate AnyKeySet(d: Definition) {
    Truthy(d.keyTo) || Truthy(d.targetFkName) || Truthy(d.targetPrimaryKey)
  }

  /** Resolved by convention: every key is set, both foreign keys are properties
      of the through model, and the target primary key is the target's first id. */
  predicate ThroughKeysValid(d: Definition) {
    && d.target.TypeResolver? && IsTypeResolver(d.through)
    && Truthy(d.keyTo) && Truthy(d.targetFkName) && Truthy(d.targetPrimaryKey)
    && d.keyTo.value in d.through.value.resolve.properties
    && d.targetFkName.value in d.through.value.resolve.properties
    && |d.target.resolve.idProperties| > 0
    && d.targetPrimaryKey.value == d.target.resolve.idProperties[0]
  }

  /** The state `resolveHasManyThroughMetadata` leaves the definition in, and its outcome. */
  function ResolveThrough(d: Definition): (res: Resolution)
    ensures res.Failed? ==> res.def == d
    ensures res.def.source == d.source && res.def.target == d.target && res.def.through == d.through
    ensures res.Resolved? ==> d.target.TypeResolver? && IsTypeResolver(d.through)
    ensures res.Resolved? && AnyKeySet(d) ==> res.def == d
    ensures res.Resolved? && !AnyKeySet(d) ==>
      && ThroughKeysValid(res.def)
      && SourceDefined(d.source)
      && res.def.keyTo == Some(DefaultFkName(d.source.value.modelName))
      && res.def.targetFkName == Some(DefaultFkName(d.target.resolve.modelName))
  {
    if !d.target.TypeResolver? then Failed(d, TargetNotResolver)
    else if !IsTypeResolver(d.through) then Failed(d, ThroughNotResolver)
    else if AnyKeySet(d) then Resolved(d)
    else if !SourceDefined(d.source) then Failed(d, SourceUndefined)
    else
      var targetModel := d.target.resolve;
      var throughModel := d.through.value.resolve;
      var defaultFkName := DefaultFkName(d.source.value.modelName);
      if defaultFkName !in throughModel.properties then Failed(d, MissingDefaultFk(defaultFkName))
      else
        var targetFkName := DefaultFkName(targetModel.modelName);
        if targetFkName !in throughModel.properties then Failed(d, MissingTargetFk(targetFkName))
        else if |targetModel.idProperties| == 0 || targetModel.idProperties[0] == "" then Failed(d, NoTargetId)
        else Resolved(d.(keyTo := Some(defaultFkName), targetFkName := Some(targetFkName),
                         targetPrimaryKey := Some(targetModel.idProperties[0])))
  }

  /** The guards run in order: the target check, then the through check, then
      (without explicit keys) the source, the two foreign keys and the target id. */
  lemma ThroughGuardOrder(d: Definition)
    ensures !d.target.TypeResolver? ==> ResolveThrough(d) == Failed(d, TargetNotResolver)
    ensures d.target.TypeResolver? && !IsTypeResolver(d.through) ==> ResolveThrough(d) == Failed(d, ThroughNotResolver)
    ensures d.target.TypeResolver? && IsTypeResolver(d.through) && !AnyKeySet(d) && !SourceDefined(d.source) ==>
      ResolveThrough(d) == Failed(d, SourceUndefined)
    ensures d.target.TypeResolver? && IsTypeResolver(d.through) && !AnyKeySet(d) && SourceDefined(d.source) ==>
      var fk := DefaultFkName(d.source.value.modelName);
      var targetFk := DefaultFkName(d.target.resolve.modelName);
      var through := d.through.value.resolve;
      var ids := d.target.resolve.idProperties;
      && (fk !in through.properties ==> ResolveThrough(d) == Failed(d, MissingDefaultFk(fk)))
      && (fk in through.properties && targetFk !in through.properties ==>
            ResolveThrough(d) == Failed(d, MissingTargetFk(targetFk)))
      && (fk in through.properties && targetFk in through.properties && (|ids| == 0 || ids[0] == "") ==>
            ResolveThrough(d) == Failed(d, NoTargetId))
  {
  }

  /** Resolution succeeds exactly when both references are resolvers and either
      a key is given or every convention-derived key checks out. */
  lemma ThroughResolvesIff(d: Definition)
    ensures ResolveThrough(d).Resolved? <==>
      && d.target.TypeResolver? && IsTypeResolver(d.through)
      && (|| AnyKeySet(d)
          || (&& SourceDefined(d.source)
              && DefaultFkName(d.source.value.modelName) in d.through.value.resolve.properties
              && DefaultFkName(d.target.resolve.modelName) in d.through.value.resolve.properties
              && |d.target.resolve.idProperties| > 0 && d.target.resolve.idProperties[0] != ""))
  {
  }

  /** Resolving the definition it leaves behind gives the same result: a success
      hits the short-circuit, a failure fails again for the same reason. */
  lemma ResolveThroughStable(d: Definition)
    ensures ResolveThrough(ResolveThrough(d).def) == ResolveThrough(d)
  {
  }

  /** `resolveHasManyThroughMetadata`: the guards in source order, then the
      derived keys written into the definition in place. */
  method ResolveHasManyThroughMetadata(relationMeta: RelationDefinition) returns (r: Result<Definition, Error>)
    modifies relationMeta
    ensures relationMeta.Snapshot() == ResolveThrough(old(relationMeta.Snapshot())).def
    ensures r == ResolveThrough(old(relationMeta.Snapshot())).ToResult()
  {
    if !relationMeta.target.TypeResolver? {
      return Failure(InvalidRelation(TargetNotResolver));
    }
    if !IsTypeResolver(relationMeta.through) {
      return Failure(InvalidRelation(ThroughNotResolver));
    }
    if Truthy(relationMeta.keyTo) || Truthy(relationMeta.targetFkName) || Truthy(relationMeta.targetPrimaryKey) {
      return Success(relationMeta.Snapshot());
    }
    if !SourceDefined(relationMeta.source) {
      return Failure(InvalidRelation(SourceUndefined));
    }
    var targetModel := relationMeta.target.resolve;
    var throughModel := relationMeta.through.value.resolve;
    var defaultFkName := DefaultFkName(relationMeta.source.value.modelName);
    if defaultFkName !in throughModel.properties {
      return Failure(InvalidRelation(MissingDefaultFk(defaultFkName)));
    }
    var targetFkName := DefaultFkName(targetModel.modelName);
    if targetFkName !in throughModel.properties {
      return Failure(InvalidRelation(MissingTargetFk(targetFkName)));
    }
    if |targetModel.idProperties| == 0 || targetModel.idProperties[0] == "" {
      return Failure(InvalidRelation(NoTargetId));
    }
    var targetPrimaryKey := targetModel.idProperties[0];
    relationMeta.keyTo, relationMeta.targetFkName, relationMeta.targetPrimaryKey :=
      Some(defaultFkName), Some(targetFkName), Some(targetPrimaryKey);
    r := Success(relationMeta.Snapshot());
  }

  /** The function `createHasManyThroughRepositoryFactory` returns: it holds the
      metadata resolved once, and the two repositories. */
  datatype ThroughFactory = ThroughFactory(meta: Definition, targetRepository: Store, throughRepository: Store, utils: Utils)
  {
    /** Calling the factory with a source key value: a new scoped repository
        capturing that value. */
    method Apply(fkValue: Json) returns (repo: DefaultHasManyThroughRepository)
      requires targetRepository != throughRepository && targetRepository.log == throughRepository.log
      ensures fresh(repo) && repo.Valid()
      ensures repo.meta == meta && repo.fkValue == fkValue && repo.utils == utils
      ensures repo.targetRepository == targetRepository && repo.throughRepository == throughRepository
    {
      repo := new DefaultHasManyThroughRepository(targetRepository, throughRepository, meta, fkValue, utils);
    }
  }

  /** `createHasManyThroughRepositoryFactory`: resolves (and so updates) the
      definition once; an invalid relation fails here, before any repository is used. */
  method CreateHasManyThroughRepositoryFactory(relationMetadata: RelationDefinition, targetRepository: Store,
                                               throughRepository: Store, utils: Utils)
    returns (r: Result<ThroughFactory, Error>)
    modifies relationMetadata
    ensures relationMetadata.Snapshot() == ResolveThrough(old(relationMetadata.Snapshot())).def
    ensures ResolveThrough(old(relationMetadata.Snapshot())).Failed? ==>
      r == Failure(InvalidRelation(ResolveThrough(old(relationMetadata.Snapshot())).reason))
    ensures ResolveThrough(old(relationMetadata.Snapshot())).Resolved? ==>
      r == Success(ThroughFactory(relationMetadata.Snapshot(), targetRepository, throughRepository, utils))
  {
    var meta := ResolveHasManyThroughMetadata(relationMetadata);
    if meta.Failure? {
      return Failure(meta.error);
    }
    r := Success(ThroughFactory(meta.value, targetRepository, throughRepository, utils));
  }

  /** For a definition resolved by convention, the join row written on create
      holds the source key and the new target's primary key, under two
      foreign keys the through model declares. */
  lemma AnchoredJoinRowUsesDeclaredKeys(d: Definition, fkValue: Json, instance: Record)
    requires ResolveThrough(d).Resolved? && !AnyKeySet(d)
    ensures var meta := ResolveThrough(d).def;
            var row := Anchored(meta, fkValue, instance).dataObject;
            && row.Keys <= meta.through.value.resolve.properties
            && row[meta.targetFkName.value] == Get(instance, meta.target.resolve.idProperties[0])
            && (meta.keyTo != meta.targetFkName ==> row[meta.keyTo.value] == fkValue)
  {
  }
}
