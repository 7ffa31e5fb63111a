/** The constraint builders of the has-many-through relation: the join-row
    data object anchored on one target instance, and the `or` list of target
    ids projected from the join rows of one source. */
module AdvancedConstraint {
  import opened Wrappers
  import opened Values
  import opened Errors
  import opened Schema
  import opened ConstraintUtils
  import opened Crud

  /** The data object (for create/patch payloads), the where clause and the
      filter that scope one operation. */
  datatype Constraint = Constraint(dataObject: Record, where: Record, filter: Record)

  /** `{[keyTo]: fkValue}`: the join rows (or, for a direct relation, the
      target rows) that belong to one source. */
  function SourceConstraint(meta: Definition, fkValue: Json): (c: Record)
    ensures c.Keys == {KeyName(meta.keyTo)} && c[KeyName(meta.keyTo)] == fkValue
  {
    map[KeyName(meta.keyTo) := fkValue]
  }

  /** `{id: row[targetFkName]}` for one join row. */
  function IdClause(row: Record, targetFkName: string): Json {
    Obj(map["id" := Get(row, targetFkName)])
  }

  /** The join rows projected to target-id clauses, one per row, in row order. */
  function IdClauses(rows: seq<Record>, targetFkName: string): (clauses: seq<Json>)
    ensures |clauses| == |rows|
    ensures forall i :: 0 <= i < |rows| ==> clauses[i] == IdClause(rows[i], targetFkName)
  {
    if rows == [] then [] else [IdClause(rows[0], targetFkName)] + IdClauses(rows[1..], targetFkName)
  }

  /** `{or: [{id: row[targetFkName]}, ...]}`. */
  function TargetIdsWhere(rows: seq<Record>, targetFkName: string): Record {
    map["or" := Arr(IdClauses(rows, targetFkName))]
  }

  /** The constraint anchored on `instance`: the join row linking the source to
      that target instance. */
  function Anchored(meta: Definition, fkValue: Json, instance: Record): (c: Constraint)
    ensures c.dataObject.Keys == {KeyName(meta.keyTo), KeyName(meta.targetFkName)}
    ensures c.dataObject[KeyName(meta.targetFkName)] == Get(instance, KeyName(meta.targetPrimaryKey))
    ensures KeyName(meta.keyTo) != KeyName(meta.targetFkName) ==> c.dataObject[KeyName(meta.keyTo)] == fkValue
    ensures c.where == map["where" := Obj(c.dataObject)]
    ensures c.filter == map["where" := Obj(c.where)]
  {
    var dataObject := SourceConstraint(meta, fkValue)[KeyName(meta.targetFkName) := Get(instance, KeyName(meta.targetPrimaryKey))];
    var where := map["where" := Obj(dataObject)];
    Constraint(dataObject, where, map["where" := Obj(where)])
  }

  /** The constraint for operations on all targets of the source, given the join
      rows `joined` that the through repository returned for `{[keyTo]: fkValue}`
      and the through model's name. */
  function Unanchored(meta: Definition, fkValue: Json, joined: seq<Record>, throughName: string): (r: Result<Constraint, Error>)
    ensures r.Failure? <==> joined == []
    ensures r.Failure? ==> r.error == EntityNotFound(throughName, SourceConstraint(meta, fkValue))
    ensures r.Success? ==> r.value.dataObject == map[]
    ensures r.Success? ==> r.value.where.Keys == {"or"} && r.value.where["or"].Arr?
    ensures r.Success? ==> var ids := r.value.where["or"].items;
              |ids| == |joined| &&
              forall i :: 0 <= i < |joined| ==> ids[i] == Obj(map["id" := Get(joined[i], KeyName(meta.targetFkName))])
    ensures r.Success? ==> r.value.filter == map["where" := Obj(r.value.where)]
  {
    if joined == [] then
      Failure(EntityNotFound(throughName, SourceConstraint(meta, fkValue)))
    else
      var where := TargetIdsWhere(joined, KeyName(meta.targetFkName));
      Success(Constraint(map[], where, map["where" := Obj(where)]))
  }

  /** `createAdvancedConstraint`. With a target instance the constraint is
      anchored on it and the through repository is not called; without one the
      through repository is queried once and its rows are projected. */
  method CreateAdvancedConstraint(targetInstance: Option<Record>, meta: Definition,
                                  throughRepository: Store, fkValue: Json, utils: Utils)
    returns (r: Result<Constraint, Error>)
    modifies throughRepository.log
    ensures targetInstance.Some? ==> r == Success(Anchored(meta, fkValue, targetInstance.value))
    ensures targetInstance.Some? ==> throughRepository.log.calls == old(throughRepository.log.calls)
    // Without an instance, the join rows are found by `constrainFilter` with no
    // caller filter over `{[keyTo]: fkValue}`.
    ensures targetInstance.None? ==>
      r == Unanchored(meta, fkValue,
                      Matching(throughRepository.rows, utils.constrainFilter(None, SourceConstraint(meta, fkValue)), throughRepository.filterMatches),
                      throughRepository.entityName)
    ensures targetInstance.None? ==>
      throughRepository.log.calls == old(throughRepository.log.calls) + [Call.Find(throughRepository.entityName, utils.constrainFilter(None, SourceConstraint(meta, fkValue)))]
  {
    var dataObject := SourceConstraint(meta, fkValue);
    var where: Record := map[];
    if targetInstance.Some? {
      dataObject := dataObject[KeyName(meta.targetFkName) := Get(targetInstance.value, KeyName(meta.targetPrimaryKey))];
      where := map["where" := Obj(dataObject)];
    } else {
      var throughInstances := throughRepository.Find(utils.constrainFilter(None, dataObject));
      if |throughInstances| == 0 {
        r := Failure(EntityNotFound(throughRepository.entityName, dataObject));
        return;
      }
      dataObject := map[];
      where := TargetIdsWhere(throughInstances, KeyName(meta.targetFkName));
    }
    var filter := map["where" := Obj(where)];
    r := Success(Constraint(dataObject, where, filter));
  }

  /** Under sound constraint helpers, the join row written on create carries the
      source key and the target instance's primary key. */
  lemma JoinRowCarriesAnchor(meta: Definition, fkValue: Json, instance: Record, throughData: Record, utils: Utils)
    requires Sound(utils)
    ensures var row := utils.constrainDataObject(throughData, Anchored(meta, fkValue, instance).dataObject);
            && KeyName(meta.targetFkName) in row
            && row[KeyName(meta.targetFkName)] == Get(instance, KeyName(meta.targetPrimaryKey))
            && (KeyName(meta.keyTo) != KeyName(meta.targetFkName) ==>
                  KeyName(meta.keyTo) in row && row[KeyName(meta.keyTo)] == fkValue)
  {
  }

  /** Under sound constraint helpers, an unanchored find, delete or patch selects
      targets by the `or` list of ids of the join rows. This rests on `Sound`,
      under which a constraint key the caller also uses takes the constraint's
      value. */
  lemma UnanchoredScopesByJoinedIds(meta: Definition, fkValue: Json, joined: seq<Record>, throughName: string,
                                    utils: Utils, filter: Option<Record>, where: Option<Record>)
    requires Sound(utils) && joined != []
    ensures var c := Unanchored(meta, fkValue, joined, throughName).value;
            var ids := TargetIdsWhere(joined, KeyName(meta.targetFkName));
            && "where" in utils.constrainFilter(filter, c.filter)
            && utils.constrainFilter(filter, c.filter)["where"] == Obj(ids)
            && Carries(utils.constrainWhere(where, c.where), ids)
  {
  }
}
