/** The document store both components write to: the `donations`
    collection, keyed by generated id, and the `notificationTokens`
    collection, keyed by user id. */
module Store {
  import opened Types

  class Db {
    var donations: map<Id, Donation>
    var notificationTokens: map<Id, TokenDoc>

    constructor ()
      ensures donations == map[] && notificationTokens == map[]
    {
      donations := map[];
      notificationTokens := map[];
    }
  }
}
