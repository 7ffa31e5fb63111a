/** The errors the relation core raises, by kind (message texts are not modelled). */
module Errors {
  import opened Values

  /** Why a relation definition was rejected; one case per guard of the resolvers. */
  datatype Reason =
    | TargetNotResolver           // `target` is not a type resolver
    | ThroughNotResolver          // `through` is absent or not a type resolver
    | SourceUndefined             // no source model, or one without a model name
    | MissingDefaultFk(fk: string)   // the source's default foreign key is not a property where it must be
    | MissingTargetFk(fk: string)    // the through model lacks the target's default foreign key
    | NoTargetId                  // the target model has no id property

  datatype Error =
    | InvalidRelation(reason: Reason)
      /** No join row matched: the through model's name and the data object queried. */
    | EntityNotFound(entity: string, constraint: Record)
      /** A create that the storage layer rejected, passed through unchanged. */
    | StorageError(entity: string)
}
