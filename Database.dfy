/** The three repositories the services share, as maps from id to record,
    with the identity counters the database draws new ids from. */
module Database {
  import opened Common
  import opened Entities

  /** `existsByEmail`. */
  predicate EmailTaken(users: map<int, User>, email: string)
  {
    exists id :: id in users && users[id].email == email
  }

  /** `existsByUsername`. */
  predicate UsernameTaken(users: map<int, User>, username: string)
  {
    exists id :: id in users && users[id].username == username
  }

  /** The unique indexes on `users.email` and `users.username`. */
  predicate UniqueAccounts(users: map<int, User>)
  {
    forall a, b :: a in users && b in users && a != b ==>
      users[a].email != users[b].email && users[a].username != users[b].username
  }

  class Db {
    var users: map<int, User>
    var products: map<int, Product>
    var orders: map<int, Order>
    var nextUserId: int
    var nextProductId: int
    var nextOrderId: int

    /** Every stored id was drawn from its table's counter, and the user
        table's unique indexes hold. */
    ghost predicate Valid()
      reads this
    {
      && (forall id :: id in users ==> id < nextUserId)
      && (forall id :: id in products ==> id < nextProductId)
      && (forall id :: id in orders ==> id < nextOrderId)
      && UniqueAccounts(users)
    }

    /** An empty database. */
    constructor ()
      ensures Valid()
      ensures users == map[] && products == map[] && orders == map[]
    {
      users, products, orders := map[], map[], map[];
      nextUserId, nextProductId, nextOrderId := 1, 1, 1;
    }
  }
}
