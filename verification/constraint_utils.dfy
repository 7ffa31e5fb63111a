/** The helpers that merge a relation constraint into a caller's filter, where
    clause or data object. Their definitions are not part of this model, so they
    are parameters, and `Sound` is the one property the model relies on. */
module ConstraintUtils {
  import opened Wrappers
  import opened Values

  /** `constrainFilter`, `constrainWhere` and `constrainDataObject`; an absent
      filter or where clause is `None`. */
  datatype Utils = Utils(
    constrainFilter: (Option<Record>, Record) -> Record,
    constrainWhere: (Option<Record>, Record) -> Record,
    constrainDataObject: (Record, Record) -> Record)

  /** Every key of `constraint` is in `result`, with the constraint's value. */
  predicate Carries(result: Record, constraint: Record) {
    forall k :: k in constraint ==> k in result && result[k] == constraint[k]
  }

  /** The helpers keep every constraint key with the constraint's value; nothing
      is assumed about how they treat the caller's own keys. */
  ghost predicate Sound(u: Utils) {
    && (forall base, c :: Carries(u.constrainFilter(base, c), c))
    && (forall base, c :: Carries(u.constrainWhere(base, c), c))
    && (forall data, c :: Carries(u.constrainDataObject(data, c), c))
  }
}
