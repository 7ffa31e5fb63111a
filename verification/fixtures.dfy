/** The Customer / Order / Seller models of the repository's test fixtures, and
    what the resolvers and constraint builders make of their relations. */
module Fixtures {
  import opened Wrappers
  import opened Values
  import opened Schema
  import opened AdvancedConstraint
  import opened HasManyThroughFactory
  import opened HasManyFactory

  const Customer := ModelClass("Customer", {"id", "name", "parentId"}, ["id"])
  const Order := ModelClass("Order", {"id", "description", "isShipped", "customerId", "sellerId"}, ["id"])
  const Seller := ModelClass("Seller", {"id", "name"}, ["id"])

  /** `@hasMany(() => Order)` on Customer. */
  const Orders := Definition(Some(Customer), TypeResolver(Order), None, None, None, None)
  /** `@hasMany(() => Seller, {through: () => Order})` on Customer. */
  const Sellers := Definition(Some(Customer), TypeResolver(Seller), Some(TypeResolver(Order)), None, None, None)
  /** `@hasMany(() => Customer, {keyTo: 'parentId'})` on Customer. */
  const Children := Definition(Some(Customer), TypeResolver(Customer), None, Some("parentId"), None, None)

  lemma CustomerOrdersKey()
    ensures ResolveHasMany(Orders) == Resolved(Orders.(keyTo := Some("customerId")))
  {
    assert DefaultFkName("Customer") == "customerId";
  }

  lemma CustomerSellersKeys()
    ensures ResolveThrough(Sellers) ==
      Resolved(Sellers.(keyTo := Some("customerId"), targetFkName := Some("sellerId"), targetPrimaryKey := Some("id")))
  {
    assert DefaultFkName("Customer") == "customerId";
    assert DefaultFkName("Seller") == "sellerId";
  }

  lemma ExplicitKeyToKept()
    ensures ResolveHasMany(Children) == Resolved(Children)
  {
  }

  /** A has-many relation from Customer whose target model (here Seller) lacks
      `customerId` is rejected, naming the missing key. */
  lemma MissingForeignKeyRejected()
    ensures ResolveHasMany(Orders.(target := TypeResolver(Seller))) ==
            Failed(Orders.(target := TypeResolver(Seller)), Errors.MissingDefaultFk("customerId"))
  {
    assert DefaultFkName("Customer") == "customerId";
  }

  /** Join rows `{customerId: 5, sellerId: 10}` and `{customerId: 5, sellerId: 11}`
      scope the sellers of customer 5 by `{or: [{id: 10}, {id: 11}]}`. */
  lemma SellersOfCustomerFive()
    ensures var meta := Sellers.(keyTo := Some("customerId"), targetFkName := Some("sellerId"), targetPrimaryKey := Some("id"));
            var joined := [map["customerId" := Num(5), "sellerId" := Num(10)], map["customerId" := Num(5), "sellerId" := Num(11)]];
            var where := map["or" := Arr([Obj(map["id" := Num(10)]), Obj(map["id" := Num(11)])])];
            Unanchored(meta, Num(5), joined, "Order") == Success(Constraint(map[], where, map["where" := Obj(where)]))
  {
    var joined := [map["customerId" := Num(5), "sellerId" := Num(10)], map["customerId" := Num(5), "sellerId" := Num(11)]];
    var ids := IdClauses(joined, "sellerId");
    assert ids[0] == Obj(map["id" := Num(10)]) && ids[1] == Obj(map["id" := Num(11)]);
    assert ids == [Obj(map["id" := Num(10)]), Obj(map["id" := Num(11)])];
  }

  /** Creating a seller for customer 5 that got id 7 writes the join row
      `{customerId: 5, sellerId: 7}`. */
  lemma JoinRowForNewSeller()
    ensures var meta := Sellers.(keyTo := Some("customerId"), targetFkName := Some("sellerId"), targetPrimaryKey := Some("id"));
            Anchored(meta, Num(5), map["id" := Num(7), "name" := Str("s")]).dataObject ==
            map["customerId" := Num(5), "sellerId" := Num(7)]
  {
  }
}
