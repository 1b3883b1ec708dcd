/**
 * The older revision of the navigator (ks-nav/nav/psql.go): free functions
 * over a PostgreSQL handle and a `Cache` of three maps, and a `Navigate`
 * that differs from the newer `navigate` of ks-nav/nav/db_util.go:
 * successors are always deduplicated, there is one exclusion list, the
 * depth test uses the current depth, `depthInc`, `s` and `ll` are declared
 * once per call and carried from one successor to the next, and the
 * subsystem lookup caches empty answers.
 *
 * Queries that panic on error in the source are modelled as always
 * answering a result set; only the query of `symbSubsys`, whose failure
 * is returned as an error, can fail.
 */
module Psql {
  import opened Wrappers
  import opened NavTypes
  import opened SqlDb
  import DbUtil
  import Keyed
  import Text

  /** The mode constants of this revision. */
  const PrintAllCode: int := 1
  const PrintSubsysCode: int := 2

  const UndefinedSubsystem := "UNDEFINED SUBSYSTEM"
  const UnknownSymbol := "Unknown"
  const NotUnique := "id is not unique"
  const QueryFailedMsg := "symbSubsys query failed"
  const BrowsingFailedMsg := "symbSubsys query browsing failed"

  /** `Entry` of this revision; `Exported` and `Type` are never filled by a query. */
  datatype OldEntry = OldEntry(symId: int, symbol: string, exported: bool, ty: string, subsys: seq<string>, fn: string)

  const ZeroOldEntry := OldEntry(0, "", false, "", [], "")

  function OldSymId(e: OldEntry): int { e.symId }

  /** `Edge`: the caller and callee columns of an xref row. */
  datatype OldEdge = OldEdge(caller: int, callee: int)

  /** `Cache`: successor lists by id, entries by id, subsystems by symbol name. */
  datatype OldCache = OldCache(successors: map<int, seq<OldEntry>>, entries: map<int, OldEntry>, subSys: map<string, string>)

  /**
   * The database behind the handle, one function per query: the entry rows
   * of an id, the xref rows of a caller, the subsystem names of a symbol, the
   * ids of a symbol name (all for an instance), and the tags of an id.
   */
  datatype OldDatabase = OldDatabase(
    entryQuery: (int, int) -> Rows<EntryRow>,
    xrefQuery: (int, int) -> Rows<OldEdge>,
    subsysQuery: (string, int) -> Rows<string>,
    idQuery: (string, int) -> Rows<int>,
    tagQuery: int -> Query<string>)

  // ---------------------------------------------------------------------------
  // get_entry_by_id

  /** One row: the scalar columns overwrite, a non-null tag is appended (psql.go:111-118). */
  function OldAddRow(e: OldEntry, row: EntryRow): OldEntry
  {
    e.(symId := row.symId, symbol := row.symbol, fn := row.fn,
       subsys := if row.subsys.Some? then e.subsys + [row.subsys.value] else e.subsys)
  }

  /** What get_entry_by_id returns when it asks the database (psql.go:104-125). */
  function OldEntryAnswer(rows: Rows<EntryRow>): Reply<OldEntry>
  {
    var sc := ScanRows(rows.items, ZeroOldEntry, OldAddRow);
    if sc.err.Some? then sc else Reply(sc.value, rows.err)
  }

  /** get_entry_by_id on the entries map: the reply and the map afterwards. */
  function OldEntryGet(db: OldDatabase, entries: map<int, OldEntry>, id: int, instance: int): (Reply<OldEntry>, map<int, OldEntry>)
  {
    if id in entries then (Reply(entries[id], None), entries)
    else
      var a := OldEntryAnswer(db.entryQuery(id, instance));
      (a, if a.err.None? then entries[id := a.value] else entries)
  }

  /**
   * The entry built from good rows: one subsystem per non-null tag in row
   * order, the other columns of the last row, and `Exported`/`Type` at their
   * zero values, which no query of this revision fills.
   */
  lemma {:induction false} OldScanEntryRows(items: seq<Row<EntryRow>>)
    requires AllScanned(items)
    ensures var sc := ScanRows(items, ZeroOldEntry, OldAddRow);
      sc.err == None && sc.value.subsys == Tags(items) && !sc.value.exported && sc.value.ty == "" &&
      (items == [] ==> sc.value == ZeroOldEntry) &&
      (items != [] ==> var last := items[|items| - 1].value;
         sc.value.symId == last.symId && sc.value.symbol == last.symbol && sc.value.fn == last.fn)
    decreases |items|
  {
    if items != [] {
      var init := items[..|items| - 1];
      OldScanEntryRows(init);
      assert items == init + [items[|items| - 1]];
      TagsSnoc(init, items[|items| - 1]);
    }
  }

  // ---------------------------------------------------------------------------
  // get_successors_by_id

  /** What the successors loop carries: the list so far and the entries map. */
  datatype OldSuccAcc = OldSuccAcc(res: seq<OldEntry>, entries: map<int, OldEntry>)

  /** One xref row: the callee's entry, its error ignored (psql.go:150-151). */
  function OldSuccStep(db: OldDatabase, instance: int): (OldSuccAcc, OldEdge) -> OldSuccAcc
  {
    (acc: OldSuccAcc, x: OldEdge) =>
      var got := OldEntryGet(db, acc.entries, x.callee, instance);
      OldSuccAcc(acc.res + [got.0.value], got.1)
  }

  /** get_successors_by_id on the cache (psql.go:129-159): an error gives a nil list and caches no list. */
  function OldSuccessorsGet(db: OldDatabase, c: OldCache, id: int, instance: int): (Reply<seq<OldEntry>>, OldCache)
  {
    if id in c.successors then (Reply(c.successors[id], None), c)
    else
      var rows := db.xrefQuery(id, instance);
      var sc := ScanRows(rows.items, OldSuccAcc([], c.entries), OldSuccStep(db, instance));
      var c1 := c.(entries := sc.value.entries);
      if sc.err.Some? then (Reply([], sc.err), c1)
      else if rows.err.Some? then (Reply([], rows.err), c1)
      else (Reply(sc.value.res, None), c1.(successors := c1.successors[id := sc.value.res]))
  }

  /** A callee as the database describes it. */
  function OldFreshStep(db: OldDatabase, instance: int): (seq<OldEntry>, OldEdge) -> seq<OldEntry>
  {
    (acc: seq<OldEntry>, x: OldEdge) => acc + [OldEntryAnswer(db.entryQuery(x.callee, instance)).value]
  }

  /** The successor list the database describes, no cache involved. */
  function OldSuccessorsAnswer(db: OldDatabase, id: int, instance: int): Reply<seq<OldEntry>>
  {
    var rows := db.xrefQuery(id, instance);
    var sc := ScanRows(rows.items, [], OldFreshStep(db, instance));
    if sc.err.Some? then Reply([], sc.err)
    else if rows.err.Some? then Reply([], rows.err)
    else sc
  }

  // ---------------------------------------------------------------------------
  // get_subsys_from_symbol_name

  /** The subsystem query (psql.go:198-211): the name of the last row; `rows.Err()` is not consulted. */
  function OldSubsysAnswer(rows: Rows<string>): Reply<string>
  {
    var sc := ScanRows(rows.items, "", Latest);
    if sc.err.Some? then Reply("", sc.err) else sc
  }

  /** get_subsys_from_symbol_name on the subsystem map: every answer without error is stored, "" included. */
  function OldSubsysGet(db: OldDatabase, subSys: map<string, string>, symbol: string, instance: int): (Reply<string>, map<string, string>)
  {
    if symbol in subSys then (Reply(subSys[symbol], None), subSys)
    else
      var a := OldSubsysAnswer(db.subsysQuery(symbol, instance));
      (a, if a.err.None? then subSys[symbol := a.value] else subSys)
  }

  /**
   * On good rows the answer is the last name, "" when there is no row, the
   * answer is cached even when it is "", and an error reported after the
   * rows changes nothing.
   */
  lemma OldSubsysCachesEmpty(db: OldDatabase, subSys: map<string, string>, symbol: string, instance: int, rowsErr: Option<string>)
    requires symbol !in subSys
    requires AllScanned(db.subsysQuery(symbol, instance).items)
    ensures var items := db.subsysQuery(symbol, instance).items;
      var got := OldSubsysGet(db, subSys, symbol, instance);
      got.0 == Reply(if items == [] then "" else items[|items| - 1].value, None) &&
      got.1 == subSys[symbol := got.0.value] &&
      OldSubsysAnswer(db.subsysQuery(symbol, instance).(err := rowsErr)) == got.0
  {
    ScanLatest(db.subsysQuery(symbol, instance).items, "");
  }

  // ---------------------------------------------------------------------------
  // sym2num

  /** sym2num (psql.go:215-237): 0 until a row is scanned; an error unless there was exactly one row. */
  function OldSym2NumAnswer(rows: Rows<int>): Reply<int>
  {
    var sc := ScanRows(rows.items, 0, Latest);
    if sc.err.Some? then sc
    else if |rows.items| != 1 then Reply(sc.value, Some(NotUnique))
    else sc
  }

  /**
   * sym2num succeeds exactly on a single good row; no row gives 0, several
   * good rows the last id, both with "id is not unique"; `rows.Err()` is ignored.
   */
  lemma {:induction false} OldSym2NumCases(rows: Rows<int>)
    ensures OldSym2NumAnswer(rows).err == None <==> |rows.items| == 1 && rows.items[0].Scanned?
    ensures OldSym2NumAnswer(rows).err == None ==> OldSym2NumAnswer(rows).value == rows.items[0].value
    ensures rows.items == [] ==> OldSym2NumAnswer(rows) == Reply(0, Some(NotUnique))
    ensures |rows.items| > 1 && AllScanned(rows.items)
        ==> OldSym2NumAnswer(rows) == Reply(rows.items[|rows.items| - 1].value, Some(NotUnique))
  {
    var items := rows.items;
    if |items| == 1 {
      assert items[..0] == [];
    }
    if AllScanned(items) {
      ScanLatest(items, 0);
    }
  }

  /** `sym2num`: counts the rows while scanning them. */
  method OldSym2Num(db: OldDatabase, symb: string, instance: int) returns (res: int, err: Option<string>)
    ensures Reply(res, err) == OldSym2NumAnswer(db.idQuery(symb, instance))
  {
    var items := db.idQuery(symb, instance).items;
    res := 0;
    var cnt := 0;
    while cnt < |items|
      invariant 0 <= cnt <= |items|
      invariant ScanRows(items[..cnt], 0, Latest) == Reply(res, None)
      invariant forall k :: 0 <= k < cnt ==> items[k].Scanned?
    {
      ScanRowsNext(items, cnt, 0, Latest);
      match items[cnt] {
        case ScanFailed(m) =>
          ScanRowsStops(items, cnt, 0, Latest);
          return res, Some(m);
        case Scanned(id) =>
          res := id;
      }
      cnt := cnt + 1;
    }
    assert items[..cnt] == items;
    if cnt != 1 {
      return res, Some(NotUnique);
    }
    err := None;
  }

  // ---------------------------------------------------------------------------
  // symbSubsys

  /** The object for id once get_entry_by_id has answered got, whose error is ignored (psql.go:316-331). */
  function OldObjectFrom(db: OldDatabase, got: (Reply<OldEntry>, map<int, OldEntry>), id: int): (Reply<string>, map<int, OldEntry>)
  {
    match db.tagQuery(id)
    case QueryFailed(_) => (Reply("", Some(QueryFailedMsg)), got.1)
    case Answered(rows) =>
      var names := ScanRows(rows.items, [], Append);
      if names.err.Some? then (Reply("", Some(BrowsingFailedMsg)), got.1)
      else (Reply(ObjectOf(got.0.value.symbol, names.value), None), got.1)
  }

  /** What the symbSubsys loop carries: the objects so far, the entries map, and the error that stopped it. */
  datatype OldSymbScan = OldSymbScan(objects: seq<string>, entries: map<int, OldEntry>, err: Option<string>)

  /** The loop of symbSubsys over the ids (psql.go:314-332). */
  function OldSymbFold(db: OldDatabase, entries: map<int, OldEntry>, list: seq<int>, instance: int): OldSymbScan
  {
    if list == [] then OldSymbScan([], entries, None)
    else
      var prev := OldSymbFold(db, entries, list[..|list| - 1], instance);
      if prev.err.Some? then prev
      else
        var id := list[|list| - 1];
        var o := OldObjectFrom(db, OldEntryGet(db, prev.entries, id, instance), id);
        if o.0.err.Some? then OldSymbScan(prev.objects, o.1, o.0.err)
        else OldSymbScan(prev.objects + [o.0.value], o.1, None)
  }

  /** symbSubsys: the objects joined by commas, or "" and the error. */
  function OldSymbSubsysGet(db: OldDatabase, entries: map<int, OldEntry>, list: seq<int>, instance: int): (Reply<string>, map<int, OldEntry>)
  {
    var sc := OldSymbFold(db, entries, list, instance);
    (if sc.err.Some? then Reply("", sc.err) else Reply(Text.Join(sc.objects, ","), None), sc.entries)
  }

  /** The tag query of every id answers and all its rows scan. */
  ghost predicate TagsReadable(db: OldDatabase, list: seq<int>)
  {
    forall k :: 0 <= k < |list| ==> db.tagQuery(list[k]).Answered? && AllScanned(db.tagQuery(list[k]).rows.items)
  }

  /**
   * symbSubsys fails only with one of its two messages, and only because of a
   * tag query: when every tag query answers and scans, it writes one object
   * per id, whatever get_entry_by_id answers.
   */
  lemma {:induction false} OldSymbFoldShape(db: OldDatabase, entries: map<int, OldEntry>, list: seq<int>, instance: int)
    ensures var sc := OldSymbFold(db, entries, list, instance);
      (sc.err == None ==> |sc.objects| == |list|) &&
      (sc.err.Some? ==> sc.err.value == QueryFailedMsg || sc.err.value == BrowsingFailedMsg) &&
      (TagsReadable(db, list) ==> sc.err == None)
    decreases |list|
  {
    if list != [] {
      var init := list[..|list| - 1];
      OldSymbFoldShape(db, entries, init, instance);
      var id := list[|list| - 1];
      if TagsReadable(db, list) {
        assert TagsReadable(db, init) by {
          forall k | 0 <= k < |init| ensures db.tagQuery(init[k]).Answered? && AllScanned(db.tagQuery(init[k]).rows.items) {
            assert init[k] == list[k];
          }
        }
        assert db.tagQuery(id).Answered? && AllScanned(db.tagQuery(id).rows.items);
        ScanRowsAllScanned(db.tagQuery(id).rows.items, [], Append);
      }
    }
  }

  /** Once an id fails, symbSubsys returns at once: the ids after it change nothing. */
  lemma {:induction false} OldSymbFoldStops(db: OldDatabase, entries: map<int, OldEntry>, list: seq<int>, k: nat, instance: int)
    requires k <= |list| && OldSymbFold(db, entries, list[..k], instance).err.Some?
    ensures OldSymbFold(db, entries, list, instance) == OldSymbFold(db, entries, list[..k], instance)
    decreases |list|
  {
    if k < |list| {
      assert list[..|list| - 1][..k] == list[..k];
      OldSymbFoldStops(db, entries, list[..|list| - 1], k, instance);
    } else {
      assert list[..k] == list;
    }
  }

  // ---------------------------------------------------------------------------
  // The cache is transparent

  /** Every cached value is what the database answers for instance. */
  ghost predicate OldCacheValid(db: OldDatabase, c: OldCache, instance: int)
  {
    (forall id :: id in c.entries ==> OldEntryAnswer(db.entryQuery(id, instance)) == Reply(c.entries[id], None))
    && (forall id :: id in c.successors ==> OldSuccessorsAnswer(db, id, instance) == Reply(c.successors[id], None))
    && (forall s :: s in c.subSys ==> OldSubsysAnswer(db.subsysQuery(s, instance)) == Reply(c.subSys[s], None))
  }

  /** With a valid cache get_entry_by_id answers what the database says, and the cache stays valid. */
  lemma OldEntryGetTransparent(db: OldDatabase, c: OldCache, id: int, instance: int)
    requires OldCacheValid(db, c, instance)
    ensures OldEntryGet(db, c.entries, id, instance).0 == OldEntryAnswer(db.entryQuery(id, instance))
    ensures OldCacheValid(db, c.(entries := OldEntryGet(db, c.entries, id, instance).1), instance)
  {
  }

  /** With a valid cache get_subsys_from_symbol_name answers what the database says, and the cache stays valid. */
  lemma OldSubsysGetTransparent(db: OldDatabase, c: OldCache, symbol: string, instance: int)
    requires OldCacheValid(db, c, instance)
    ensures OldSubsysGet(db, c.subSys, symbol, instance).0 == OldSubsysAnswer(db.subsysQuery(symbol, instance))
    ensures OldCacheValid(db, c.(subSys := OldSubsysGet(db, c.subSys, symbol, instance).1), instance)
  {
  }

  /** The successors loop over a valid cache builds the list the database describes, keeping the cache valid. */
  lemma {:induction false} OldSuccScanTransparent(db: OldDatabase, c: OldCache, items: seq<Row<OldEdge>>, instance: int)
    requires OldCacheValid(db, c, instance)
    ensures var cached := ScanRows(items, OldSuccAcc([], c.entries), OldSuccStep(db, instance));
      var direct := ScanRows(items, [], OldFreshStep(db, instance));
      cached.value.res == direct.value && cached.err == direct.err
      && OldCacheValid(db, c.(entries := cached.value.entries), instance)
    decreases |items|
  {
    if items != [] {
      var n := |items|;
      OldSuccScanTransparent(db, c, items[..n - 1], instance);
      var prev := ScanRows(items[..n - 1], OldSuccAcc([], c.entries), OldSuccStep(db, instance));
      if prev.err.None? && items[n - 1].Scanned? {
        OldEntryGetTransparent(db, c.(entries := prev.value.entries), items[n - 1].value.callee, instance);
      }
    }
  }

  /** With a valid cache get_successors_by_id answers what the database says, and the cache stays valid. */
  lemma OldSuccessorsGetTransparent(db: OldDatabase, c: OldCache, id: int, instance: int)
    requires OldCacheValid(db, c, instance)
    ensures OldSuccessorsGet(db, c, id, instance).0 == OldSuccessorsAnswer(db, id, instance)
    ensures OldCacheValid(db, OldSuccessorsGet(db, c, id, instance).1, instance)
  {
    if id !in c.successors {
      OldSuccScanTransparent(db, c, db.xrefQuery(id, instance).items, instance);
    }
  }

  /**
   * symbSubsys over a valid entries map builds the same objects and stops
   * with the same error as over an empty one: the map `Navigate` has filled
   * changes nothing in the answer, and stays valid.
   */
  lemma {:induction false} OldSymbFoldTransparent(db: OldDatabase, entries: map<int, OldEntry>, list: seq<int>, instance: int)
    requires OldCacheValid(db, OldCache(map[], entries, map[]), instance)
    ensures var cached := OldSymbFold(db, entries, list, instance);
      var empty := OldSymbFold(db, map[], list, instance);
      cached.objects == empty.objects && cached.err == empty.err
      && OldCacheValid(db, OldCache(map[], cached.entries, map[]), instance)
      && OldCacheValid(db, OldCache(map[], empty.entries, map[]), instance)
    decreases |list|
  {
    if list != [] {
      var init := list[..|list| - 1];
      var id := list[|list| - 1];
      OldSymbFoldTransparent(db, entries, init, instance);
      var p1 := OldSymbFold(db, entries, init, instance);
      var p2 := OldSymbFold(db, map[], init, instance);
      if p1.err.None? {
        OldObjectTransparent(db, p1.entries, p2.entries, id, instance);
      }
    }
  }

  /** One id of symbSubsys gives the same object or error from two valid entries maps, and both stay valid. */
  lemma OldObjectTransparent(db: OldDatabase, e1: map<int, OldEntry>, e2: map<int, OldEntry>, id: int, instance: int)
    requires OldCacheValid(db, OldCache(map[], e1, map[]), instance)
    requires OldCacheValid(db, OldCache(map[], e2, map[]), instance)
    ensures var o1 := OldObjectFrom(db, OldEntryGet(db, e1, id, instance), id);
      var o2 := OldObjectFrom(db, OldEntryGet(db, e2, id, instance), id);
      o1.0 == o2.0 && OldCacheValid(db, OldCache(map[], o1.1, map[]), instance)
      && OldCacheValid(db, OldCache(map[], o2.1, map[]), instance)
  {
    OldEntryGetTransparent(db, OldCache(map[], e1, map[]), id, instance);
    OldEntryGetTransparent(db, OldCache(map[], e2, map[]), id, instance);
  }

  /** symbSubsys answers the same text or error from any valid entries map as from an empty one. */
  lemma OldSymbSubsysTransparent(db: OldDatabase, entries: map<int, OldEntry>, list: seq<int>, instance: int)
    requires OldCacheValid(db, OldCache(map[], entries, map[]), instance)
    ensures OldSymbSubsysGet(db, entries, list, instance).0 == OldSymbSubsysGet(db, map[], list, instance).0
  {
    OldSymbFoldTransparent(db, entries, list, instance);
  }

  // ---------------------------------------------------------------------------
  // The cache functions

  /** The three maps of a `Cache`, which the functions of this revision update in place. */
  class OldCacheMaps {
    var successors: map<int, seq<OldEntry>>
    var entries: map<int, OldEntry>
    var subSys: map<string, string>

    function Cache(): OldCache
      reads this
    {
      OldCache(successors, entries, subSys)
    }

    constructor ()
      ensures Cache() == OldCache(map[], map[], map[])
    {
      successors := map[];
      entries := map[];
      subSys := map[];
    }

    /** `get_entry_by_id`: a cached entry without a query, otherwise the scanned rows, cached on success. */
    method GetEntryById(db: OldDatabase, symbolId: int, instance: int) returns (e: OldEntry, err: Option<string>)
      modifies this
      ensures (Reply(e, err), entries) == OldEntryGet(db, old(entries), symbolId, instance)
      ensures successors == old(successors) && subSys == old(subSys)
    {
      if symbolId in entries {
        return entries[symbolId], None;
      }
      var rows := db.entryQuery(symbolId, instance);
      var items := rows.items;
      e := ZeroOldEntry;
      var i := 0;
      while i < |items|
        invariant 0 <= i <= |items|
        invariant Cache() == old(Cache())
        invariant ScanRows(items[..i], ZeroOldEntry, OldAddRow) == Reply(e, None)
        invariant forall k :: 0 <= k < i ==> items[k].Scanned?
      {
        ScanRowsNext(items, i, ZeroOldEntry, OldAddRow);
        match items[i] {
          case ScanFailed(m) =>
            ScanRowsStops(items, i, ZeroOldEntry, OldAddRow);
            return e, Some(m);
          case Scanned(row) =>
            e := e.(symId := row.symId, symbol := row.symbol, fn := row.fn);
            if row.subsys.Some? {
              e := e.(subsys := e.subsys + [row.subsys.value]);
            }
        }
        i := i + 1;
      }
      assert items[..i] == items;
      if rows.err.Some? {
        return e, rows.err;
      }
      entries := entries[symbolId := e];
      err := None;
    }

    /** `get_successors_by_id`: the callee entries of the xref rows, cached on success. */
    method GetSuccessorsById(db: OldDatabase, symbolId: int, instance: int) returns (res: seq<OldEntry>, err: Option<string>)
      modifies this
      ensures (Reply(res, err), Cache()) == OldSuccessorsGet(db, old(Cache()), symbolId, instance)
    {
      if symbolId in successors {
        return successors[symbolId], None;
      }
      var rows := db.xrefQuery(symbolId, instance);
      var items := rows.items;
      ghost var c0 := Cache();
      res := [];
      var i := 0;
      while i < |items|
        invariant 0 <= i <= |items|
        invariant successors == c0.successors && subSys == c0.subSys
        invariant ScanRows(items[..i], OldSuccAcc([], c0.entries), OldSuccStep(db, instance)) == Reply(OldSuccAcc(res, entries), None)
        invariant forall k :: 0 <= k < i ==> items[k].Scanned?
      {
        match items[i] {
          case ScanFailed(m) =>
            ScanRowsStops(items, i, OldSuccAcc([], c0.entries), OldSuccStep(db, instance));
            return [], Some(m);
          case Scanned(x) =>
            ScanRowsScanned(items, i, OldSuccAcc([], c0.entries), OldSuccStep(db, instance), OldSuccAcc(res, entries));
            ghost var before := entries;
            var successor, ignored := GetEntryById(db, x.callee, instance);
            assert (Reply(successor, ignored), entries) == OldEntryGet(db, before, x.callee, instance);
            res := res + [successor];
        }
        i := i + 1;
      }
      assert items[..i] == items;
      if rows.err.Some? {
        return [], rows.err;
      }
      successors := successors[symbolId := res];
      err := None;
    }

    /** `get_subsys_from_symbol_name`: the name of the last row, cached even when it is "". */
    method GetSubsysFromSymbolName(db: OldDatabase, symbol: string, instance: int) returns (res: string, err: Option<string>)
      modifies this
      ensures (Reply(res, err), subSys) == OldSubsysGet(db, old(subSys), symbol, instance)
      ensures successors == old(successors) && entries == old(entries)
      ensures err == None ==> symbol in subSys && subSys[symbol] == res
    {
      if symbol in subSys {
        return subSys[symbol], None;
      }
      var items := db.subsysQuery(symbol, instance).items;
      res := "";
      var i := 0;
      while i < |items|
        invariant 0 <= i <= |items|
        invariant Cache() == old(Cache())
        invariant ScanRows(items[..i], "", Latest) == Reply(res, None)
        invariant forall k :: 0 <= k < i ==> items[k].Scanned?
      {
        ScanRowsNext(items, i, "", Latest);
        match items[i] {
          case ScanFailed(m) =>
            ScanRowsStops(items, i, "", Latest);
            return "", Some(m);
          case Scanned(name) =>
            res := name;
        }
        i := i + 1;
      }
      assert items[..i] == items;
      subSys := subSys[symbol := res];
      err := None;
    }

    /** The body of the loop of `symbSubsys` for one id: its object and a comma appended to out0. */
    method AppendObject(db: OldDatabase, out0: string, id: int, instance: int) returns (out: string, err: Option<string>)
      modifies this
      ensures successors == old(successors) && subSys == old(subSys)
      ensures var o := OldObjectFrom(db, OldEntryGet(db, old(entries), id, instance), id);
        entries == o.1 && err == o.0.err && (err == None ==> out == out0 + o.0.value + ",")
    {
      ghost var got := OldEntryGet(db, entries, id, instance);
      var symb, ignored := GetEntryById(db, id, instance);
      assert got == (Reply(symb, ignored), entries);
      out := out0 + ObjectHead(symb.symbol);
      var q := db.tagQuery(id);
      if q.QueryFailed? {
        return "", Some(QueryFailedMsg);
      }
      var failed;
      out, failed := QuoteRows(out, q.rows.items);
      if failed {
        return "", Some(BrowsingFailedMsg);
      }
      ghost var names := ScanRows(q.rows.items, [], Append).value;
      CloseObject(out0, symb.symbol, names);
      out := Text.TrimSuffix(out, ",") + "]},";
      err := None;
    }

    /** `symbSubsys`: the JSON objects of the ids' subsystems, separated by commas. */
    method SymbSubsys(db: OldDatabase, symblist: seq<int>, instance: int) returns (out: string, err: Option<string>)
      modifies this
      ensures successors == old(successors) && subSys == old(subSys)
      ensures (Reply(out, err), entries) == OldSymbSubsysGet(db, old(entries), symblist, instance)
    {
      ghost var e0 := entries;
      ghost var objects: seq<string> := [];
      out := "";
      var i := 0;
      while i < |symblist|
        invariant 0 <= i <= |symblist|
        invariant successors == old(successors) && subSys == old(subSys)
        invariant OldSymbFold(db, e0, symblist[..i], instance) == OldSymbScan(objects, entries, None)
        invariant out == Text.Terminated(objects, ",")
      {
        assert symblist[..i + 1][..i] == symblist[..i];
        ghost var o := OldObjectFrom(db, OldEntryGet(db, entries, symblist[i], instance), symblist[i]).0.value;
        var e;
        out, e := AppendObject(db, out, symblist[i], instance);
        if e.Some? {
          OldSymbFoldStops(db, e0, symblist, i + 1, instance);
          return "", e;
        }
        Text.TerminatedSnoc(objects, o, ",");
        objects := objects + [o];
        i := i + 1;
      }
      assert symblist[..i] == symblist;
      assert out == "" + Text.Terminated(objects, ",");
      Text.TrimTerminated("", objects, ",");
      out := Text.TrimSuffix(out, ",");
      assert out == Text.Join(objects, ",");
      err := None;
    }
  }

  // ---------------------------------------------------------------------------
  // removeDuplicate, as in the newer revision but over this revision's entries

  /** What `removeDuplicate` returns: the entries stably sorted by id, first of each id kept. */
  function OldDedup(list: seq<OldEntry>): seq<OldEntry>
  {
    Keyed.KeepFirst(Keyed.SortBy(list, OldSymId), OldSymId, {})
  }

  /** OldDedup's result has strictly ascending ids, the same ids as the input, and only input entries. */
  lemma OldDedupFacts(list: seq<OldEntry>)
    ensures var r := OldDedup(list);
      Keyed.StrictlyAscending(r, OldSymId) &&
      Keyed.Keys(r, OldSymId) == Keyed.Keys(list, OldSymId) &&
      (forall i :: 0 <= i < |r| ==> r[i] in list)
  {
    var sorted := Keyed.SortBy(list, OldSymId);
    Keyed.SortByFacts(list, OldSymId);
    Keyed.KeepFirstSortedAscending(sorted, OldSymId, {});
    Keyed.KeepFirstKeys(sorted, OldSymId, {});
    Keyed.KeepFirstElements(sorted, OldSymId, {});
    assert Keyed.Keys(sorted, OldSymId) == Keyed.Keys(list, OldSymId) by {
      assert forall x :: x in sorted <==> x in multiset(sorted);
      assert forall x :: x in list <==> x in multiset(list);
    }
    forall x | x in OldDedup(list) ensures x in list {
      assert x in multiset(sorted);
    }
  }

  /** `removeDuplicate` (psql.go:173-185): a stable sort by id, then a keep-first loop over a map of seen ids. */
  method OldRemoveDuplicate(list: seq<OldEntry>) returns (res: seq<OldEntry>)
    ensures res == OldDedup(list)
    ensures Keyed.StrictlyAscending(res, OldSymId)
    ensures Keyed.Keys(res, OldSymId) == Keyed.Keys(list, OldSymId)
  {
    var sorted := Keyed.SortBy(list, OldSymId);
    var allKeys: set<int> := {};
    res := [];
    var i := 0;
    while i < |sorted|
      invariant 0 <= i <= |sorted|
      invariant res + Keyed.KeepFirst(sorted[i..], OldSymId, allKeys) == Keyed.KeepFirst(sorted, OldSymId, {})
    {
      var item := sorted[i];
      assert sorted[i..] == [item] + sorted[i + 1..];
      if item.symId !in allKeys {
        allKeys := allKeys + {item.symId};
        res := res + [item];
      }
      i := i + 1;
    }
    OldDedupFacts(list);
  }

  // ---------------------------------------------------------------------------
  // Navigate

  /**
   * The answers the database gives for one instance, as `Navigate` sees them:
   * the successor lists (a failed lookup gives none, which `Navigate` treats
   * like an empty list), the reply of get_entry_by_id for each id, and the
   * subsystem of each name ("" on error, which `Navigate` ignores).
   */
  datatype OldGraph = OldGraph(succ: map<int, seq<OldEntry>>, entryOf: int -> Reply<OldEntry>, subsysOf: string -> string)

  function OldSuccessorsOf(g: OldGraph, id: int): seq<OldEntry>
  {
    if id in g.succ then g.succ[id] else []
  }

  /**
   * g is the view of db for instance: its successor lists, entries and
   * subsystems are what the three queries answer.
   */
  ghost predicate GraphOf(db: OldDatabase, g: OldGraph, instance: int)
  {
    (forall id :: IdViewed(db, g, id, instance)) && (forall s :: NameViewed(db, g, s, instance))
  }

  /** g holds the successor list (none on error) and the entry reply the database gives for id. */
  ghost predicate IdViewed(db: OldDatabase, g: OldGraph, id: int, instance: int)
  {
    OldSuccessorsOf(g, id) == OldSuccessorsAnswer(db, id, instance).value
    && g.entryOf(id) == OldEntryAnswer(db.entryQuery(id, instance))
  }

  /** g holds the subsystem ("" on error) the database gives for s. */
  ghost predicate NameViewed(db: OldDatabase, g: OldGraph, s: string, instance: int)
  {
    g.subsysOf(s) == OldSubsysAnswer(db.subsysQuery(s, instance)).value
  }

  /**
   * Through any valid cache, the three lookups of `Navigate` (psql.go:251-307)
   * give what g holds when g is the view of db: the successor list (none on
   * error), the reply of get_entry_by_id and the subsystem ("" on error).
   */
  lemma NavigateSeesGraph(db: OldDatabase, g: OldGraph, c: OldCache, id: int, symbol: string, instance: int)
    requires GraphOf(db, g, instance) && OldCacheValid(db, c, instance)
    ensures OldSuccessorsGet(db, c, id, instance).0.value == OldSuccessorsOf(g, id)
    ensures OldEntryGet(db, c.entries, id, instance).0 == g.entryOf(id)
    ensures OldSubsysGet(db, c.subSys, symbol, instance).0.value == g.subsysOf(symbol)
  {
    assert IdViewed(db, g, id, instance) && NameViewed(db, g, symbol, instance);
    OldSuccessorsGetTransparent(db, c, id, instance);
    OldEntryGetTransparent(db, c, id, instance);
    OldSubsysGetTransparent(db, c, symbol, instance);
  }

  /** Every id that occurs in some successor list. */
  ghost function OldUniverse(g: OldGraph): set<int>
  {
    set id, e | id in g.succ && e in g.succ[id] :: e.symId
  }

  lemma OldListInUniverse(g: OldGraph, id: int)
    ensures forall k :: 0 <= k < |OldDedup(OldSuccessorsOf(g, id))| ==> OldDedup(OldSuccessorsOf(g, id))[k].symId in OldUniverse(g)
  {
    var list := OldSuccessorsOf(g, id);
    OldDedupFacts(list);
    forall k | 0 <= k < |OldDedup(list)| ensures OldDedup(list)[k].symId in OldUniverse(g) {
      var e := OldDedup(list)[k];
      assert e in list;
    }
  }

  /** The fixed arguments of one `Navigate` run. */
  datatype OldParams = OldParams(mode: int, excluded: seq<string>, maxdepth: nat, dotFmt: DotFmt,
                                 matches: (string, string) -> bool)

  /** The state shared by the recursive calls: visited ids, count per edge string, output. */
  datatype OldNavState = OldNavState(visited: seq<int>, prod: map<string, int>, output: string)

  /** The variables declared once per call and carried from one successor to the next: `s`, `ll`, `depthInc`. */
  datatype Carry = Carry(s: string, ll: string, depthInc: nat)

  const NoCarry := Carry("", "", 0)

  /** The callee's display name: its symbol, or "Unknown" when get_entry_by_id fails (psql.go:261-266). */
  function RightOf(g: OldGraph, curr: OldEntry): string
  {
    var got := g.entryOf(curr.symId);
    if got.err.Some? then UnknownSymbol else got.value.symbol
  }

  /** `r` in PRINT_SUBSYS: replaced by its subsystem, or "UNDEFINED SUBSYSTEM", unless they are equal (psql.go:274-280). */
  function SubsysName(g: OldGraph, r: string): string
  {
    var tmp := g.subsysOf(r);
    if r != tmp then (if tmp != "" then tmp else UndefinedSubsystem) else r
  }

  /** The switch on the mode (psql.go:267-290); a mode other than 1 and 2 leaves all three variables as they were. */
  function CarryFor(p: OldParams, g: OldGraph, l: string, c: Carry, curr: OldEntry): Carry
  {
    var r := RightOf(g, curr);
    if p.mode == PrintAllCode then Carry(Sprintf2(p.dotFmt, l, r), r, 1)
    else if p.mode == PrintSubsysCode then
      var r2 := SubsysName(g, r);
      if l != r2 then Carry(Sprintf2(p.dotFmt, l, r2), r2, 1) else Carry("", r2, c.depthInc)
    else c
  }

  /** Counting s in prod, and appending it to the output on its first, non-empty, occurrence (psql.go:291-298). */
  function Count(st: OldNavState, s: string): OldNavState
  {
    if s in st.prod then st.(prod := st.prod[s := st.prod[s] + 1])
    else st.(prod := st.prod[s := 1], output := if s != "" then st.output + s else st.output)
  }

  /** The test guarding the recursive call (psql.go:300-301): the current depth, not the incremented one. */
  function OldDescend(p: OldParams, g: OldGraph, st: OldNavState, curr: OldEntry, depth: nat): bool
  {
    DbUtil.NotIn(st.visited, curr.symId)
    && DbUtil.NotExcluded(p.matches, g.entryOf(curr.symId).value.symbol, p.excluded)
    && (p.maxdepth == 0 || (p.maxdepth > 0 && depth < p.maxdepth))
  }

  /** The state after `Navigate(db, id, parent, ...)` starting from st. */
  function OldNavFrom(p: OldParams, g: OldGraph, id: int, parent: string, depth: nat, st: OldNavState): (r: OldNavState)
    ensures st.visited + [id] <= r.visited
    decreases |OldUniverse(g) - (DbUtil.Elems(st.visited) + {id})|, 2, 0
  {
    var st1 := st.(visited := st.visited + [id]);
    assert DbUtil.Elems(st1.visited) == DbUtil.Elems(st.visited) + {id};
    OldListInUniverse(g, id);
    OldNavLoop(p, g, OldDedup(OldSuccessorsOf(g, id)), 0, parent, NoCarry, depth, st1)
  }

  /** The loop of `Navigate` from successor i on, with left name l and the carried variables c. */
  function OldNavLoop(p: OldParams, g: OldGraph, list: seq<OldEntry>, i: nat, l: string, c: Carry, depth: nat, st: OldNavState)
    : (res: OldNavState)
    requires i <= |list|
    requires forall k :: 0 <= k < |list| ==> list[k].symId in OldUniverse(g)
    ensures st.visited <= res.visited
    decreases |OldUniverse(g) - DbUtil.Elems(st.visited)|, 1, |list| - i
  {
    if i == |list| then st
    else
      var c' := CarryFor(p, g, l, c, list[i]);
      var st' := OldNavStep(p, g, c', list[i], depth, st);
      DbUtil.PrefixElems(st.visited, st'.visited);
      DbUtil.UnvisitedNoGrow(OldUniverse(g), DbUtil.Elems(st.visited), DbUtil.Elems(st'.visited));
      OldNavLoop(p, g, list, i + 1, l, c', depth, st')
  }

  /** One iteration for successor curr, once the switch has set c (psql.go:291-304). */
  function OldNavStep(p: OldParams, g: OldGraph, c: Carry, curr: OldEntry, depth: nat, st: OldNavState): (res: OldNavState)
    requires curr.symId in OldUniverse(g)
    ensures st.visited <= res.visited
    decreases |OldUniverse(g) - DbUtil.Elems(st.visited)|, 0, 0
  {
    var st2 := Count(st, c.s);
    if OldDescend(p, g, st2, curr, depth) then
      DbUtil.UnvisitedShrinks(OldUniverse(g), DbUtil.Elems(st2.visited), DbUtil.Elems(st2.visited), curr.symId);
      OldNavFrom(p, g, curr.symId, c.ll, depth + c.depthInc, st2)
    else st2
  }

  lemma OldNavFromUnfold(p: OldParams, g: OldGraph, id: int, parent: string, depth: nat, st: OldNavState)
    ensures forall k :: 0 <= k < |OldDedup(OldSuccessorsOf(g, id))| ==> OldDedup(OldSuccessorsOf(g, id))[k].symId in OldUniverse(g)
    ensures OldNavFrom(p, g, id, parent, depth, st)
         == OldNavLoop(p, g, OldDedup(OldSuccessorsOf(g, id)), 0, parent, NoCarry, depth, st.(visited := st.visited + [id]))
  {
    OldListInUniverse(g, id);
  }

  lemma OldNavLoopUnfold(p: OldParams, g: OldGraph, list: seq<OldEntry>, i: nat, l: string, c: Carry, depth: nat, st: OldNavState)
    requires i < |list|
    requires forall k :: 0 <= k < |list| ==> list[k].symId in OldUniverse(g)
    ensures OldNavLoop(p, g, list, i, l, c, depth, st)
         == OldNavLoop(p, g, list, i + 1, l, CarryFor(p, g, l, c, list[i]), depth,
                       OldNavStep(p, g, CarryFor(p, g, l, c, list[i]), list[i], depth, st))
  {
  }

  /** The state `Navigate` shares between its recursive calls through pointers and the prod map. */
  class OldNavigator {
    var visited: seq<int>
    var prod: map<string, int>
    var output: string

    function State(): OldNavState
      reads this
    {
      OldNavState(visited, prod, output)
    }

    constructor ()
      ensures State() == OldNavState([], map[], "")
    {
      visited := [];
      prod := map[];
      output := "";
    }

    /** `Navigate`: the recursive walk, proved to end in the state OldNavFrom describes. */
    method Navigate(p: OldParams, g: OldGraph, symbolId: int, parentDisplay: string, depth: nat)
      modifies this
      ensures State() == OldNavFrom(p, g, symbolId, parentDisplay, depth, old(State()))
      decreases |OldUniverse(g) - (DbUtil.Elems(visited) + {symbolId})|, 3
    {
      ghost var st0 := State();
      visited := visited + [symbolId];
      var successors := OldSuccessorsOf(g, symbolId);
      successors := OldRemoveDuplicate(successors);
      assert DbUtil.Elems(visited) == DbUtil.Elems(st0.visited) + {symbolId} by {
        DbUtil.ElemsSnoc(st0.visited, symbolId);
      }
      OldNavFromUnfold(p, g, symbolId, parentDisplay, depth, st0);
      Walk(p, g, successors, parentDisplay, depth);
    }

    /** The loop of `Navigate` over the successors, with left name l (psql.go:259-306). */
    method Walk(p: OldParams, g: OldGraph, successors: seq<OldEntry>, l: string, depth: nat)
      requires forall k :: 0 <= k < |successors| ==> successors[k].symId in OldUniverse(g)
      modifies this
      ensures State() == OldNavLoop(p, g, successors, 0, l, NoCarry, depth, old(State()))
      decreases |OldUniverse(g) - DbUtil.Elems(visited)|, 2
    {
      ghost var st0 := State();
      var s, ll, depthInc := "", "", 0;
      var i := 0;
      while i < |successors|
        invariant 0 <= i <= |successors|
        invariant |OldUniverse(g) - DbUtil.Elems(visited)| <= |OldUniverse(g) - DbUtil.Elems(st0.visited)|
        invariant OldNavLoop(p, g, successors, i, l, Carry(s, ll, depthInc), depth, State())
               == OldNavLoop(p, g, successors, 0, l, NoCarry, depth, st0)
      {
        ghost var before := State();
        ghost var c0 := Carry(s, ll, depthInc);
        s, ll, depthInc := Switch(p, g, l, s, ll, depthInc, successors[i]);
        Visit(p, g, Carry(s, ll, depthInc), successors[i], depth);
        assert |OldUniverse(g) - DbUtil.Elems(visited)| <= |OldUniverse(g) - DbUtil.Elems(before.visited)| by {
          DbUtil.PrefixElems(before.visited, visited);
          DbUtil.UnvisitedNoGrow(OldUniverse(g), DbUtil.Elems(before.visited), DbUtil.Elems(visited));
        }
        assert OldNavLoop(p, g, successors, i, l, c0, depth, before)
            == OldNavLoop(p, g, successors, i + 1, l, Carry(s, ll, depthInc), depth, State()) by {
          OldNavLoopUnfold(p, g, successors, i, l, c0, depth, before);
        }
        i := i + 1;
      }
    }

    /** The lookup of the callee and the switch on the mode (psql.go:261-290). */
    static method Switch(p: OldParams, g: OldGraph, l: string, s0: string, ll0: string, depthInc0: nat, curr: OldEntry)
      returns (s: string, ll: string, depthInc: nat)
      ensures Carry(s, ll, depthInc) == CarryFor(p, g, l, Carry(s0, ll0, depthInc0), curr)
    {
      s, ll, depthInc := s0, ll0, depthInc0;
      var entry := g.entryOf(curr.symId);
      var r: string;
      if entry.err.Some? {
        r := UnknownSymbol;
      } else {
        r := entry.value.symbol;
      }
      if p.mode == PrintAllCode {
        s := Sprintf2(p.dotFmt, l, r);
        ll := r;
        depthInc := 1;
      } else if p.mode == PrintSubsysCode {
        var tmp := g.subsysOf(r);
        if r != tmp {
          if tmp != "" {
            r := tmp;
          } else {
            r := UndefinedSubsystem;
          }
        }
        if l != r {
          s := Sprintf2(p.dotFmt, l, r);
          depthInc := 1;
        } else {
          s := "";
        }
        ll := r;
      }
    }

    /** The count, the output, and the recursive call for successor curr (psql.go:291-304). */
    method Visit(p: OldParams, g: OldGraph, c: Carry, curr: OldEntry, depth: nat)
      requires curr.symId in OldUniverse(g)
      modifies this
      ensures State() == OldNavStep(p, g, c, curr, depth, old(State()))
      decreases |OldUniverse(g) - DbUtil.Elems(visited)|, 1
    {
      Tally(c.s);
      Follow(p, g, c, curr, depth);
    }

    /** Counting the edge string, printed on its first occurrence unless empty (psql.go:291-298). */
    method Tally(s: string)
      modifies this
      ensures State() == Count(old(State()), s)
    {
      if s in prod {
        prod := prod[s := prod[s] + 1];
      } else {
        prod := prod[s := 1];
        if s != "" {
          output := output + s;
        }
      }
    }

    /** The recursive call on a callee not yet visited, not excluded, within the depth bound (psql.go:300-304). */
    method Follow(p: OldParams, g: OldGraph, c: Carry, curr: OldEntry, depth: nat)
      requires curr.symId in OldUniverse(g)
      modifies this
      ensures State() == if OldDescend(p, g, old(State()), curr, depth)
        then OldNavFrom(p, g, curr.symId, c.ll, depth + c.depthInc, old(State())) else old(State())
      decreases |OldUniverse(g) - DbUtil.Elems(visited)|, 0
    {
      if DbUtil.NotIn(visited, curr.symId) {
        var entry := g.entryOf(curr.symId);
        if DbUtil.NotExcluded(p.matches, entry.value.symbol, p.excluded) && (p.maxdepth == 0 || (p.maxdepth > 0 && depth < p.maxdepth)) {
          assert |OldUniverse(g) - (DbUtil.Elems(visited) + {curr.symId})| < |OldUniverse(g) - DbUtil.Elems(visited)| by {
            DbUtil.UnvisitedShrinks(OldUniverse(g), DbUtil.Elems(visited), DbUtil.Elems(visited), curr.symId);
          }
          Navigate(p, g, curr.symId, c.ll, depth + c.depthInc);
        }
      }
    }
  }
}
