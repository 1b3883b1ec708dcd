/**
 * The database kinds the indexer knows (ks-nav/kern_bin_db/db.go) and
 * `DBSN2DBtype`, which maps the spellings a configuration may use to them.
 */
module KbdDb {
  import opened Wrappers

  /** `DBtype`, numbered from zero as the source's `iota` does; DBTypeLast marks the end. */
  const Psql: int := 0
  const MySql: int := 1
  const MariaDb: int := 2
  const Sqlite3: int := 3
  const DBTypeLast: int := 4

  /** The spellings of each kind. */
  const PsqlNames: set<string> := {"psql", "PSQL", "postgres"}
  const MySqlNames: set<string> := {"mysql", "MySQL", "MYSQL"}
  const MariaDbNames: set<string> := {"mariadb", "MariaDB", "MARIADB"}
  const Sqlite3Names: set<string> := {"sqlite3", "SQLITE3"}

  /** What `DBSN2DBtype` returns: the kind and the error, if any. */
  datatype TypeReply = TypeReply(kind: int, err: Option<string>)

  /**
   * `DBSN2DBtype`: the kind a spelling names, or DBTypeLast with
   * "Unknown Database type" for any other string.
   */
  function DBSN2DBtype(dbt: string): (r: TypeReply)
    ensures r.err.None? <==> dbt in PsqlNames + MySqlNames + MariaDbNames + Sqlite3Names
    ensures r.err.None? ==> 0 <= r.kind < DBTypeLast
    ensures r.err.Some? ==> r.kind == DBTypeLast && r.err == Some("Unknown Database type")
    ensures r.kind == Psql <==> dbt in PsqlNames
    ensures r.kind == MySql <==> dbt in MySqlNames
    ensures r.kind == MariaDb <==> dbt in MariaDbNames
    ensures r.kind == Sqlite3 <==> dbt in Sqlite3Names
  {
    if dbt == "psql" || dbt == "PSQL" || dbt == "postgres" then TypeReply(Psql, None)
    else if dbt == "mysql" || dbt == "MySQL" || dbt == "MYSQL" then TypeReply(MySql, None)
    else if dbt == "mariadb" || dbt == "MariaDB" || dbt == "MARIADB" then TypeReply(MariaDb, None)
    else if dbt == "sqlite3" || dbt == "SQLITE3" then TypeReply(Sqlite3, None)
    else TypeReply(DBTypeLast, Some("Unknown Database type"))
  }
}
