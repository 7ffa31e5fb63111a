/** `DefaultHasManyThroughRepository`: the repository scoped to the targets of
    one source through a join model. Every operation computes its constraint
    first; create adds the target and then the join row. */
module HasManyThroughRepository {
  import opened Wrappers
  import opened Values
  import opened Errors
  import opened Schema
  import opened ConstraintUtils
  import opened Crud
  import opened AdvancedConstraint

  class DefaultHasManyThroughRepository {
    const targetRepository: Store
    const throughRepository: Store
    // What the constraint closure captures: the resolved metadata, the source's
    // key value and the constraint helpers.
    const meta: Definition
    const fkValue: Json
    const utils: Utils

    /** Target and through are two repositories writing to one call log. */
    ghost predicate Valid()
      reads this
    {
      targetRepository != throughRepository && targetRepository.log == throughRepository.log
    }

    constructor (targetRepository: Store, throughRepository: Store, meta: Definition, fkValue: Json, utils: Utils)
      requires targetRepository != throughRepository && targetRepository.log == throughRepository.log
      ensures Valid()
      ensures this.targetRepository == targetRepository && this.throughRepository == throughRepository
      ensures this.meta == meta && this.fkValue == fkValue && this.utils == utils
    {
      this.targetRepository, this.throughRepository := targetRepository, throughRepository;
      this.meta, this.fkValue, this.utils := meta, fkValue, utils;
    }

    /** The join query issued by an unanchored constraint. */
    function ThroughQuery(): Record
      reads this
    {
      utils.constrainFilter(None, SourceConstraint(meta, fkValue))
    }

    /** The constraint an unanchored operation computes from the current join rows. */
    function Current(): Result<Constraint, Error>
      reads this, throughRepository
    {
      Unanchored(meta, fkValue, Matching(throughRepository.rows, ThroughQuery(), throughRepository.filterMatches),
                 throughRepository.entityName)
    }

    /** The join row written for a new target instance. */
    function JoinRow(instance: Record, throughModelData: Option<Record>): Record
      reads this
    {
      utils.constrainDataObject(throughModelData.GetOr(map[]), Anchored(meta, fkValue, instance).dataObject)
    }

    /** `create`: the target is created first; only when that succeeds is the
        join row created, anchored on the new instance. A failed join-row create
        leaves the new target in place. */
    method Create(targetModelData: Record, throughModelData: Option<Record>) returns (r: Result<Record, Error>)
      requires Valid()
      modifies targetRepository, throughRepository, targetRepository.log
      ensures !targetRepository.accepts(targetModelData) ==>
        && r == Failure(StorageError(targetRepository.entityName))
        && targetRepository.log.calls == old(targetRepository.log.calls) + [Call.Create(targetRepository.entityName, targetModelData)]
        && unchanged(targetRepository) && unchanged(throughRepository)
      ensures targetRepository.accepts(targetModelData) ==>
        var instance := Stored(targetModelData, targetRepository.idName, old(targetRepository.nextId));
        var row := JoinRow(instance, throughModelData);
        && targetRepository.log.calls == old(targetRepository.log.calls)
             + [Call.Create(targetRepository.entityName, targetModelData), Call.Create(throughRepository.entityName, row)]
        && targetRepository.rows == old(targetRepository.rows) + [instance]
        && targetRepository.nextId == old(targetRepository.nextId) + 1
        && (throughRepository.accepts(row) ==>
              r == Success(instance) &&
              throughRepository.rows == old(throughRepository.rows) + [Stored(row, throughRepository.idName, old(throughRepository.nextId))] &&
              throughRepository.nextId == old(throughRepository.nextId) + 1)
        && (!throughRepository.accepts(row) ==>
              r == Failure(StorageError(throughRepository.entityName)) && unchanged(throughRepository))
    {
      var created := targetRepository.Create(targetModelData);
      if created.Failure? {
        return Failure(created.error);
      }
      var targetInstance := created.value;
      var advancedConstraint := CreateAdvancedConstraint(Some(targetInstance), meta, throughRepository, fkValue, utils);
      var joined := throughRepository.Create(utils.constrainDataObject(throughModelData.GetOr(map[]), advancedConstraint.value.dataObject));
      if joined.Failure? {
        return Failure(joined.error);
      }
      r := Success(targetInstance);
    }

    /** `find`: one join query; when it finds rows, one target find scoped by the `or` list. */
    method Find(filter: Option<Record>) returns (r: Result<seq<Record>, Error>)
      requires Valid()
      modifies targetRepository.log
      ensures old(Current()).Failure? ==>
        r == Failure(old(Current()).error) &&
        targetRepository.log.calls == old(targetRepository.log.calls) + [Call.Find(throughRepository.entityName, ThroughQuery())]
      ensures old(Current()).Success? ==>
        var query := utils.constrainFilter(filter, old(Current()).value.filter);
        r == Success(Matching(targetRepository.rows, query, targetRepository.filterMatches)) &&
        targetRepository.log.calls == old(targetRepository.log.calls)
          + [Call.Find(throughRepository.entityName, ThroughQuery()), Call.Find(targetRepository.entityName, query)]
    {
      var advancedConstraint := CreateAdvancedConstraint(None, meta, throughRepository, fkValue, utils);
      if advancedConstraint.Failure? {
        return Failure(advancedConstraint.error);
      }
      var found := targetRepository.Find(utils.constrainFilter(filter, advancedConstraint.value.filter));
      r := Success(found);
    }

    /** `delete`: one join query; when it finds rows, one target `deleteAll`, whose count is returned. */
    method Delete(where: Option<Record>) returns (r: Result<nat, Error>)
      requires Valid()
      modifies targetRepository`rows, targetRepository.log
      ensures unchanged(throughRepository)
      ensures old(Current()).Failure? ==>
        r == Failure(old(Current()).error) && unchanged(targetRepository) &&
        targetRepository.log.calls == old(targetRepository.log.calls) + [Call.Find(throughRepository.entityName, ThroughQuery())]
      ensures old(Current()).Success? ==>
        var scope := utils.constrainWhere(where, old(Current()).value.where);
        && r == Success(|Matching(old(targetRepository.rows), scope, targetRepository.whereMatches)|)
        && targetRepository.rows == Remaining(old(targetRepository.rows), scope, targetRepository.whereMatches)
        && r.value == |old(targetRepository.rows)| - |targetRepository.rows|
        && targetRepository.log.calls == old(targetRepository.log.calls)
             + [Call.Find(throughRepository.entityName, ThroughQuery()), Call.DeleteAll(targetRepository.entityName, scope)]
    {
      var advancedConstraint := CreateAdvancedConstraint(None, meta, throughRepository, fkValue, utils);
      if advancedConstraint.Failure? {
        return Failure(advancedConstraint.error);
      }
      ghost var before := targetRepository.rows;
      var count := targetRepository.DeleteAll(utils.constrainWhere(where, advancedConstraint.value.where));
      MatchingRemainingPartition(before, utils.constrainWhere(where, advancedConstraint.value.where), targetRepository.whereMatches);
      r := Success(count);
    }

    /** `patch`: one join query; when it finds rows, one target `updateAll` with
        the data constrained by the (empty) data object, whose count is returned. */
    method Patch(dataObject: Record, where: Option<Record>) returns (r: Result<nat, Error>)
      requires Valid()
      modifies targetRepository`rows, targetRepository.log
      ensures unchanged(throughRepository)
      ensures old(Current()).Failure? ==>
        r == Failure(old(Current()).error) && unchanged(targetRepository) &&
        targetRepository.log.calls == old(targetRepository.log.calls) + [Call.Find(throughRepository.entityName, ThroughQuery())]
      ensures old(Current()).Success? ==>
        var data := utils.constrainDataObject(dataObject, old(Current()).value.dataObject);
        var scope := utils.constrainWhere(where, old(Current()).value.where);
        && r == Success(|Matching(old(targetRepository.rows), scope, targetRepository.whereMatches)|)
        && targetRepository.rows == Patched(old(targetRepository.rows), data, scope, targetRepository.whereMatches)
        && targetRepository.log.calls == old(targetRepository.log.calls)
             + [Call.Find(throughRepository.entityName, ThroughQuery()), Call.UpdateAll(targetRepository.entityName, data, scope)]
    {
      var advancedConstraint := CreateAdvancedConstraint(None, meta, throughRepository, fkValue, utils);
      if advancedConstraint.Failure? {
        return Failure(advancedConstraint.error);
      }
      var count := targetRepository.UpdateAll(
        utils.constrainDataObject(dataObject, advancedConstraint.value.dataObject),
        utils.constrainWhere(where, advancedConstraint.value.where));
      r := Success(count);
    }
  }
}
