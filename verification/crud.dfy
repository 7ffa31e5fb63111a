/** An in-memory stand-in for the CRUD repositories the relation core calls:
    each store keeps its rows and appends every call it receives to a call log
    that several stores may share, so that the order of calls can be stated.
    How a filter or where clause selects rows, and whether a create is accepted,
    belong to the storage layer and are parameters of the store. */
module Crud {
  import opened Wrappers
  import opened Values
  import opened Errors

  /** One call received by a repository, tagged with the repository's entity name. */
  datatype Call =
    | Find(entity: string, filter: Record)
    | Create(entity: string, data: Record)
    | DeleteAll(entity: string, where: Record)
    | UpdateAll(entity: string, data: Record, where: Record)

  class CallLog {
    var calls: seq<Call>

    constructor ()
      ensures calls == []
    {
      calls := [];
    }
  }

  /** The rows selected by `query`, in storage order. */
  function Matching(rows: seq<Record>, query: Record, matches: (Record, Record) -> bool): (found: seq<Record>)
    ensures |found| <= |rows|
    ensures forall r :: r in found <==> r in rows && matches(query, r)
  {
    if rows == [] then []
    else (if matches(query, rows[0]) then [rows[0]] else []) + Matching(rows[1..], query, matches)
  }

  /** The rows not selected by `query`, in storage order. */
  function Remaining(rows: seq<Record>, query: Record, matches: (Record, Record) -> bool): (kept: seq<Record>)
    ensures |kept| <= |rows|
    ensures forall r :: r in kept <==> r in rows && !matches(query, r)
  {
    if rows == [] then []
    else (if matches(query, rows[0]) then [] else [rows[0]]) + Remaining(rows[1..], query, matches)
  }

  /** Every row selected by `query` with `data` merged over it. */
  function Patched(rows: seq<Record>, data: Record, query: Record, matches: (Record, Record) -> bool): (updated: seq<Record>)
    ensures |updated| == |rows|
    ensures forall i :: 0 <= i < |rows| ==> updated[i] == if matches(query, rows[i]) then rows[i] + data else rows[i]
  {
    if rows == [] then []
    else [if matches(query, rows[0]) then rows[0] + data else rows[0]] + Patched(rows[1..], data, query, matches)
  }

  /** Selected and unselected rows together are all the rows, so a bulk delete
      removes exactly as many rows as a find with the same clause returns. */
  lemma {:induction false} MatchingRemainingPartition(rows: seq<Record>, query: Record, matches: (Record, Record) -> bool)
    ensures |Matching(rows, query, matches)| + |Remaining(rows, query, matches)| == |rows|
  {
    if rows != [] {
      MatchingRemainingPartition(rows[1..], query, matches);
    }
  }

  /** The instance a create stores: the data, with a generated id when it has none. */
  function Stored(data: Record, idName: string, id: int): Record {
    if idName in data then data else data[idName := Num(id)]
  }

  class Store {
    const entityName: string
    const idName: string
    const log: CallLog
    const filterMatches: (Record, Record) -> bool
    const whereMatches: (Record, Record) -> bool
    const accepts: Record -> bool
    var rows: seq<Record>
    var nextId: int

    constructor (entityName: string, idName: string, log: CallLog,
                 filterMatches: (Record, Record) -> bool, whereMatches: (Record, Record) -> bool,
                 accepts: Record -> bool, rows: seq<Record>)
      ensures this.entityName == entityName && this.idName == idName && this.log == log
      ensures this.filterMatches == filterMatches && this.whereMatches == whereMatches
      ensures this.accepts == accepts && this.rows == rows && this.nextId == 1
    {
      this.entityName, this.idName, this.log := entityName, idName, log;
      this.filterMatches, this.whereMatches, this.accepts := filterMatches, whereMatches, accepts;
      this.rows, this.nextId := rows, 1;
    }

    /** `find(filter)`. */
    method Find(filter: Record) returns (found: seq<Record>)
      modifies log
      ensures found == Matching(rows, filter, filterMatches)
      ensures log.calls == old(log.calls) + [Call.Find(entityName, filter)]
    {
      log.calls := log.calls + [Call.Find(entityName, filter)];
      found := Matching(rows, filter, filterMatches);
    }

    /** `create(data)`: stores and returns the new instance, or fails with a
        storage error and stores nothing. */
    method Create(data: Record) returns (r: Result<Record, Error>)
      modifies this, log
      ensures log.calls == old(log.calls) + [Call.Create(entityName, data)]
      ensures accepts(data) ==> r == Success(Stored(data, idName, old(nextId)))
                                && rows == old(rows) + [r.value] && nextId == old(nextId) + 1
      ensures !accepts(data) ==> r == Failure(StorageError(entityName)) && unchanged(this)
    {
      log.calls := log.calls + [Call.Create(entityName, data)];
      if accepts(data) {
        var instance := Stored(data, idName, nextId);
        rows, nextId := rows + [instance], nextId + 1;
        r := Success(instance);
      } else {
        r := Failure(StorageError(entityName));
      }
    }

    /** `deleteAll(where)`: removes the selected rows and returns how many. */
    method DeleteAll(where: Record) returns (count: nat)
      modifies this`rows, log
      ensures log.calls == old(log.calls) + [Call.DeleteAll(entityName, where)]
      ensures rows == Remaining(old(rows), where, whereMatches)
      ensures count == |Matching(old(rows), where, whereMatches)|
    {
      log.calls := log.calls + [Call.DeleteAll(entityName, where)];
      count := |Matching(rows, where, whereMatches)|;
      rows := Remaining(rows, where, whereMatches);
    }

    /** `updateAll(data, where)`: merges `data` into the selected rows and returns how many. */
    method UpdateAll(data: Record, where: Record) returns (count: nat)
      modifies this`rows, log
      ensures log.calls == old(log.calls) + [Call.UpdateAll(entityName, data, where)]
      ensures rows == Patched(old(rows), data, where, whereMatches)
      ensures count == |Matching(old(rows), where, whereMatches)|
    {
      log.calls := log.calls + [Call.UpdateAll(entityName, data, where)];
      count := |Matching(rows, where, whereMatches)|;
      rows := Patched(rows, data, where, whereMatches);
    }
  }
}
