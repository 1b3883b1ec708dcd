/**
 * The new revision's `navigate` (ks-nav/nav/db_util.go) reads its datasource
 * through a `Graph`; this module ties that graph to a `SqlDB`'s database.
 */
module DbView {
  import opened Wrappers
  import opened NavTypes
  import opened SqlDb
  import DbUtil

  /**
   * g is the view of db for instance that `navigate` (db_util.go:116-182)
   * walks: its successor lists and subsystems are what the queries answer,
   * with the error's empty value where a query fails. A `Graph` holds
   * finitely many of each, so only a database with finitely many non-empty
   * answers has one.
   */
  ghost predicate IsGraphOf(db: Database, g: DbUtil.Graph, instance: int)
  {
    (forall id :: DbUtil.SuccessorsOf(g, id) == SuccessorsAnswer(db, id, instance).value)
    && (forall s :: DbUtil.SubsysOf(g, s) == SubsysAnswer(db.subsysQuery(s, instance)).value)
  }

  /** Through any valid cache, `navigate`'s two lookups on a `SqlDB` give what its view g holds. */
  lemma NavigateSeesDatasource(db: Database, g: DbUtil.Graph, c: Cache, id: int, symbol: string, instance: int)
    requires IsGraphOf(db, g, instance) && CacheValid(db, c, instance)
    ensures SuccessorsGet(Some(db), c, id, instance).0.value == DbUtil.SuccessorsOf(g, id)
    ensures SubsysGet(Some(db), c, symbol, instance).0.value == DbUtil.SubsysOf(g, symbol)
  {
    SuccessorsGetTransparent(db, c, id, instance);
    SubsysGetTransparent(db, c, symbol, instance);
  }
}
