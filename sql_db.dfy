/**
 * The SQL datasource of the navigator (`SqlDB`): a memoising cache of three
 * maps in front of five queries. A query is an abstract function from its
 * arguments to a result set; a result set is the sequence of what `rows.Scan`
 * did on each row, followed by what `rows.Err()` reports. The loops that fold
 * rows into a value are methods proved against `ScanRows`, and the lemmas at
 * the end state what the folds compute and that the cache is transparent.
 */
module SqlDb {
  import opened Wrappers
  import opened NavTypes
  import Text

  /** One row of a result set: the values `rows.Scan` stored, or the error it returned. */
  datatype Row<T> = Scanned(value: T) | ScanFailed(msg: string)

  /** A result set: its rows in order, then the error `rows.Err()` reports after the last one. */
  datatype Rows<T> = Rows(items: seq<Row<T>>, err: Option<string>)

  /** What `db.Query` returns. */
  datatype Query<T> = QueryFailed(msg: string) | Answered(rows: Rows<T>)

  /** A Go `(value, error)` pair whose value is meaningful even when there is an error. */
  datatype Reply<T> = Reply(value: T, err: Option<string>)

  /** The columns getEntryById scans: symbol_id, symbol_name, a nullable subsys_name, file_name. */
  datatype EntryRow = EntryRow(symId: int, symbol: string, subsys: Option<string>, fn: string)

  /** The columns getSuccessorsById scans: caller, callee, source_line, ref_addr. */
  datatype XrefRow = XrefRow(caller: int, callee: int, sourceRef: string, addressRef: string)

  /** The columns getSubsysFromSymbolName scans: the symbol type and a subsystem name. */
  datatype TypedSubsys = TypedSubsys(ty: string, sub: string)

  /**
   * The database behind the handle, one function per query the datasource
   * issues. Queries whose errors make the code panic have no failure outcome.
   * The tag query of symbSubsys filters on the symbol id only, as the SQL does.
   */
  datatype Database = Database(
    entryQuery: (int, int) -> Query<EntryRow>,
    xrefQuery: (int, int) -> Rows<XrefRow>,
    subsysQuery: (string, int) -> Rows<TypedSubsys>,
    idQuery: (string, int) -> Rows<int>,
    tagQuery: int -> Query<string>)

  /** The argument of `init`: a connection token (with the outcome of `sql.Open`), an open handle, or anything else. */
  datatype InitArg = Token(driver: string, dsn: string, outcome: Result<Database, string>) | Handle(db: Database) | Invalid

  /** The `Cache` struct. */
  datatype Cache = Cache(successors: map<int, seq<Entry>>, entries: map<int, Entry>, subSys: map<string, string>)

  const EmptyCache := Cache(map[], map[], map[])

  const DuplicateId := "duplicate ID in the DB"

  // ---------------------------------------------------------------------------
  // Folding a result set

  /**
   * The `for rows.Next() { if err := rows.Scan(...); err != nil { return } ... }`
   * loop: step folds each scanned row into the accumulator, and the first scan
   * error stops the loop with the accumulator as it was.
   */
  function ScanRows<T, A>(items: seq<Row<T>>, init: A, step: (A, T) -> A): Reply<A>
  {
    if items == [] then Reply(init, None)
    else
      var prev := ScanRows(items[..|items| - 1], init, step);
      if prev.err.Some? then prev
      else match items[|items| - 1]
        case ScanFailed(m) => Reply(prev.value, Some(m))
        case Scanned(x) => Reply(step(prev.value, x), None)
  }

  lemma ScanRowsNext<T, A>(items: seq<Row<T>>, i: nat, init: A, step: (A, T) -> A)
    requires i < |items|
    ensures ScanRows(items[..i + 1], init, step)
         == var prev := ScanRows(items[..i], init, step);
            if prev.err.Some? then prev
            else match items[i]
              case ScanFailed(m) => Reply(prev.value, Some(m))
              case Scanned(x) => Reply(step(prev.value, x), None)
  {
    assert items[..i + 1][..i] == items[..i];
  }

  /** A scanned row after good rows: the fold takes one step. */
  lemma ScanRowsScanned<T, A>(items: seq<Row<T>>, i: nat, init: A, step: (A, T) -> A, acc: A)
    requires i < |items| && items[i].Scanned?
    requires ScanRows(items[..i], init, step) == Reply(acc, None)
    ensures ScanRows(items[..i + 1], init, step) == Reply(step(acc, items[i].value), None)
  {
    assert items[..i + 1][..i] == items[..i];
  }

  predicate AllScanned<T>(items: seq<Row<T>>) {
    forall k :: 0 <= k < |items| ==> items[k].Scanned?
  }

  /** A scan error at position j, after j good rows, is what the fold reports. */
  lemma {:induction false} ScanRowsStops<T, A>(items: seq<Row<T>>, j: nat, init: A, step: (A, T) -> A)
    requires j < |items| && items[j].ScanFailed?
    requires forall k :: 0 <= k < j ==> items[k].Scanned?
    ensures ScanRows(items, init, step) == Reply(ScanRows(items[..j], init, step).value, Some(items[j].msg))
    decreases |items|
  {
    var n := |items|;
    if n == j + 1 {
      assert AllScanned(items[..j]);
      ScanRowsAllScanned(items[..j], init, step);
      assert items[..j + 1][..j] == items[..j];
    } else {
      ScanRowsStops(items[..n - 1], j, init, step);
      assert items[..n - 1][..j] == items[..j];
    }
  }

  /** Without scan errors the fold reports none. */
  lemma {:induction false} ScanRowsAllScanned<T, A>(items: seq<Row<T>>, init: A, step: (A, T) -> A)
    requires AllScanned(items)
    ensures ScanRows(items, init, step).err == None
    decreases |items|
  {
    if items != [] {
      ScanRowsAllScanned(items[..|items| - 1], init, step);
    }
  }

  /** Scanning into the same variables on every row. */
  function Latest<T>(previous: T, x: T): T { x }

  /** Scanning every row into the same variables leaves the values of the last row. */
  lemma {:induction false} ScanLatest<T>(items: seq<Row<T>>, init: T)
    requires AllScanned(items)
    ensures ScanRows(items, init, Latest).err == None
    ensures ScanRows(items, init, Latest).value == if items == [] then init else items[|items| - 1].value
    decreases |items|
  {
    if items != [] {
      ScanLatest(items[..|items| - 1], init);
    }
  }

  // ---------------------------------------------------------------------------
  // getEntryById

  /** One row of getEntryById: the scalar columns overwrite, a non-null tag is appended (sql_db.go:91-99). */
  function AddRow(e: Entry, row: EntryRow): Entry
  {
    e.(symId := row.symId, symbol := row.symbol, fn := row.fn,
       subsys := if row.subsys.Some? then e.subsys + [row.subsys.value] else e.subsys)
  }

  /** What getEntryById returns when it has to ask the database (sql_db.go:79-103). */
  function EntryAnswer(q: Query<EntryRow>): Reply<Entry>
  {
    match q
    case QueryFailed(m) => Reply(ZeroEntry, Some(m))
    case Answered(rows) =>
      var sc := ScanRows(rows.items, ZeroEntry, AddRow);
      if sc.err.Some? then sc else Reply(sc.value, rows.err)
  }

  /** getEntryById on a cache: the reply and the cache afterwards. */
  function EntryGet(db: Option<Database>, c: Cache, id: int, instance: int): (Reply<Entry>, Cache)
    requires id in c.entries || db.Some?
  {
    if id in c.entries then (Reply(c.entries[id], None), c)
    else
      var a := EntryAnswer(db.value.entryQuery(id, instance));
      (a, if a.err.None? then c.(entries := c.entries[id := a.value]) else c)
  }

  /** The non-null tags of the scanned rows, in row order. */
  function Tags(items: seq<Row<EntryRow>>): seq<string>
  {
    if items == [] then []
    else
      (if items[0].Scanned? && items[0].value.subsys.Some? then [items[0].value.subsys.value] else [])
      + Tags(items[1..])
  }

  lemma {:induction false} TagsSnoc(items: seq<Row<EntryRow>>, x: Row<EntryRow>)
    ensures Tags(items + [x]) == Tags(items) + (if x.Scanned? && x.value.subsys.Some? then [x.value.subsys.value] else [])
  {
    if items != [] {
      assert (items + [x])[1..] == items[1..] + [x];
      TagsSnoc(items[1..], x);
    }
  }

  /**
   * The entry getEntryById builds from good rows: one subsystem per row whose
   * tag is not null, in row order, and the other columns of the last row.
   */
  lemma {:induction false} ScanEntryRows(items: seq<Row<EntryRow>>)
    requires AllScanned(items)
    ensures var sc := ScanRows(items, ZeroEntry, AddRow);
      sc.err == None && sc.value.subsys == Tags(items) && sc.value.sourceRef == "" && sc.value.addressRef == "" &&
      (items == [] ==> sc.value == ZeroEntry) &&
      (items != [] ==> var last := items[|items| - 1].value;
         sc.value.symId == last.symId && sc.value.symbol == last.symbol && sc.value.fn == last.fn)
    decreases |items|
  {
    if items != [] {
      var init := items[..|items| - 1];
      ScanEntryRows(init);
      assert items == init + [items[|items| - 1]];
      TagsSnoc(init, items[|items| - 1]);
    }
  }

  // ---------------------------------------------------------------------------
  // getSuccessorsById

  /** What the successors loop carries: the list built so far and the cache getEntryById leaves. */
  datatype SuccAcc = SuccAcc(res: seq<Entry>, cache: Cache)

  /** One xref row: the callee's entry (its error ignored) with the edge's source and address (sql_db.go:139-142). */
  function SuccStep(db: Database, instance: int): (SuccAcc, XrefRow) -> SuccAcc
  {
    (acc: SuccAcc, x: XrefRow) =>
      var got := EntryGet(Some(db), acc.cache, x.callee, instance);
      SuccAcc(acc.res + [got.0.value.(sourceRef := x.sourceRef, addressRef := x.addressRef)], got.1)
  }

  /** SuccStep applied: the callee's entry with the edge's fields appended, the cache getEntryById leaves. */
  lemma SuccStepApplied(db: Database, instance: int, acc: SuccAcc, x: XrefRow, got: (Reply<Entry>, Cache))
    requires got == EntryGet(Some(db), acc.cache, x.callee, instance)
    ensures SuccStep(db, instance)(acc, x) ==
      SuccAcc(acc.res + [got.0.value.(sourceRef := x.sourceRef, addressRef := x.addressRef)], got.1)
  {
  }

  /** getSuccessorsById on a cache (sql_db.go:115-150); an error gives a nil list. */
  function SuccessorsGet(db: Option<Database>, c: Cache, id: int, instance: int): (Reply<seq<Entry>>, Cache)
    requires id in c.successors || db.Some?
  {
    if id in c.successors then (Reply(c.successors[id], None), c)
    else
      var rows := db.value.xrefQuery(id, instance);
      var sc := ScanRows(rows.items, SuccAcc([], c), SuccStep(db.value, instance));
      if sc.err.Some? then (Reply([], sc.err), sc.value.cache)
      else if rows.err.Some? then (Reply([], rows.err), sc.value.cache)
      else (Reply(sc.value.res, None), sc.value.cache.(successors := sc.value.cache.successors[id := sc.value.res]))
  }

  /** A callee as the database describes it, with the edge's source and address. */
  function FreshStep(db: Database, instance: int): (seq<Entry>, XrefRow) -> seq<Entry>
  {
    (acc: seq<Entry>, x: XrefRow) =>
      acc + [EntryAnswer(db.entryQuery(x.callee, instance)).value.(sourceRef := x.sourceRef, addressRef := x.addressRef)]
  }

  /** The successor list the database describes, no cache involved: the reference for the cached answer. */
  function SuccessorsAnswer(db: Database, id: int, instance: int): Reply<seq<Entry>>
  {
    var rows := db.xrefQuery(id, instance);
    var sc := ScanRows(rows.items, [], FreshStep(db, instance));
    if sc.err.Some? then Reply([], sc.err)
    else if rows.err.Some? then Reply([], rows.err)
    else sc
  }

  // ---------------------------------------------------------------------------
  // getSubsysFromSymbolName

  /** What getSubsysFromSymbolName returns when it has to ask the database (sql_db.go:162-199). */
  function SubsysAnswer(rows: Rows<TypedSubsys>): Reply<string>
  {
    var sc := ScanRows(rows.items, TypedSubsys("", ""), Latest);
    if sc.err.Some? then Reply("", sc.err)
    else if rows.err.Some? then Reply("", rows.err)
    else if sc.value.sub == "" then Reply("", None)
    else if sc.value.ty == "indirect" then Reply("indirect", None)
    else Reply(sc.value.sub, None)
  }

  /** getSubsysFromSymbolName on a cache: only a non-empty answer is stored. */
  function SubsysGet(db: Option<Database>, c: Cache, symbol: string, instance: int): (Reply<string>, Cache)
    requires symbol in c.subSys || db.Some?
  {
    if symbol in c.subSys then (Reply(c.subSys[symbol], None), c)
    else
      var a := SubsysAnswer(db.value.subsysQuery(symbol, instance));
      (a, if a.err.None? && a.value != "" then c.(subSys := c.subSys[symbol := a.value]) else c)
  }

  /**
   * The rows come ordered by decreasing tag count, yet the scan keeps the
   * values of the LAST row: of two good rows, the second one decides.
   */
  lemma LastRowWins(a: TypedSubsys, b: TypedSubsys)
    requires a.sub != b.sub && b.sub != "" && b.ty != "indirect"
    ensures SubsysAnswer(Rows([Scanned(a), Scanned(b)], None)) == Reply(b.sub, None)
    ensures SubsysAnswer(Rows([Scanned(a), Scanned(b)], None)).value != a.sub
  {
    SubsysAnswerRows(Rows([Scanned(a), Scanned(b)], None));
  }

  /** The answer of a result set without errors, in terms of its last row. */
  lemma {:induction false} SubsysAnswerRows(rows: Rows<TypedSubsys>)
    requires AllScanned(rows.items) && rows.err == None
    ensures rows.items == [] ==> SubsysAnswer(rows) == Reply("", None)
    ensures rows.items != [] ==> var last := rows.items[|rows.items| - 1].value;
      SubsysAnswer(rows) == Reply(if last.sub == "" then "" else if last.ty == "indirect" then "indirect" else last.sub, None)
  {
    ScanLatest(rows.items, TypedSubsys("", ""));
  }

  // ---------------------------------------------------------------------------
  // sym2num

  /** sym2num (sql_db.go:206-243): -1 until a row is scanned; an id only when there was exactly one row. */
  function Sym2NumAnswer(rows: Rows<int>): Reply<int>
  {
    var sc := ScanRows(rows.items, -1, Latest);
    if sc.err.Some? then sc
    else if rows.err.Some? then Reply(-1, rows.err)
    else if |rows.items| != 1 then Reply(sc.value, Some(DuplicateId))
    else Reply(sc.value, None)
  }

  /**
   * sym2num succeeds exactly on a single good row; with no row it returns -1,
   * with several good rows the last id read, both with the duplicate-id error.
   */
  lemma {:induction false} Sym2NumCases(rows: Rows<int>)
    ensures Sym2NumAnswer(rows).err == None <==> |rows.items| == 1 && rows.items[0].Scanned? && rows.err == None
    ensures Sym2NumAnswer(rows).err == None ==> Sym2NumAnswer(rows).value == rows.items[0].value
    ensures rows.items == [] && rows.err == None ==> Sym2NumAnswer(rows) == Reply(-1, Some(DuplicateId))
    ensures |rows.items| > 1 && AllScanned(rows.items) && rows.err == None
        ==> Sym2NumAnswer(rows) == Reply(rows.items[|rows.items| - 1].value, Some(DuplicateId))
  {
    var items := rows.items;
    if |items| == 1 {
      assert items[..0] == [];
    }
    if AllScanned(items) {
      ScanLatest(items, -1);
    }
  }

  // ---------------------------------------------------------------------------
  // symbSubsys

  /** `"<s>"` for each name. */
  function Quoted(names: seq<string>): (q: seq<string>)
    ensures |q| == |names|
    ensures forall k :: 0 <= k < |names| ==> q[k] == "\"" + names[k] + "\""
  {
    seq(|names|, k requires 0 <= k < |names| => "\"" + names[k] + "\"")
  }

  /** The head of one JSON object up to the opening bracket of its subsystem list. */
  function ObjectHead(symbol: string): string
  {
    "{\"FuncName\":\"" + symbol + "\", \"subsystems\":["
  }

  /** The JSON object symbSubsys writes for one symbol. */
  function ObjectOf(symbol: string, names: seq<string>): string
  {
    ObjectHead(symbol) + Text.Join(Quoted(names), ",") + "]}"
  }

  function Append(acc: seq<string>, x: string): seq<string> { acc + [x] }

  /** Closing the subsystem list: the trailing comma trimmed, then `]},` (sql_db.go:282). */
  lemma CloseObject(prefix: string, symbol: string, names: seq<string>)
    ensures Text.TrimSuffix(prefix + ObjectHead(symbol) + Text.Terminated(Quoted(names), ","), ",") + "]},"
         == prefix + ObjectOf(symbol, names) + ","
  {
    var head := ObjectHead(symbol);
    var h := prefix + head;
    assert h[|h| - 1] == '[';
    Text.TrimTerminated(h, Quoted(names), ",");
    var body := Text.Join(Quoted(names), ",");
    Text.Regroup(prefix, head, body, "]}", ",");
  }

  /** What the symbSubsys loop carries: the objects so far, the cache, and the error that stopped it. */
  datatype SymbScan = SymbScan(objects: seq<string>, cache: Cache, err: Option<string>)

  const SymbSubsysTag := "symbSubsys"

  /** The errors symbSubsys reports name it first. */
  function Failure(detail: string): string
  {
    SymbSubsysTag + detail
  }

  /** The object symbSubsys writes for one id, or the error that stops it (sql_db.go:253-282). */
  function ObjectGet(db: Option<Database>, c: Cache, id: int, instance: int): (Reply<string>, Cache)
    requires db.Some?
  {
    ObjectFrom(db.value, EntryGet(db, c, id, instance), id)
  }

  /** The object for id once getEntryById has answered got. */
  function ObjectFrom(db: Database, got: (Reply<Entry>, Cache), id: int): (Reply<string>, Cache)
  {
    if got.0.err.Some? then (Reply("", Some(Failure("::getEntryById error: " + got.0.err.value))), got.1)
    else match db.tagQuery(id)
      case QueryFailed(_) => (Reply("", Some(Failure(": query failed"))), got.1)
      case Answered(rows) =>
        var names := ScanRows(rows.items, [], Append);
        if names.err.Some? then (Reply("", Some(Failure(": error while scan query rows"))), got.1)
        else (Reply(ObjectOf(got.0.value.symbol, names.value), None), got.1)
  }

  /** The loop of symbSubsys over the ids (sql_db.go:251-283). */
  function SymbFold(db: Option<Database>, c: Cache, list: seq<int>, instance: int): SymbScan
    requires list == [] || db.Some?
  {
    if list == [] then SymbScan([], c, None)
    else
      var prev := SymbFold(db, c, list[..|list| - 1], instance);
      if prev.err.Some? then prev
      else
        var o := ObjectGet(db, prev.cache, list[|list| - 1], instance);
        if o.0.err.Some? then SymbScan(prev.objects, o.1, o.0.err)
        else SymbScan(prev.objects + [o.0.value], o.1, None)
  }

  /** One more id: the fold of the ids up to i, then one object. */
  lemma SymbFoldNext(db: Option<Database>, c: Cache, list: seq<int>, i: nat, instance: int)
    requires list == [] || db.Some?
    requires i < |list|
    ensures SymbFold(db, c, list[..i + 1], instance) ==
      var prev := SymbFold(db, c, list[..i], instance);
      if prev.err.Some? then prev
      else
        var o := ObjectGet(db, prev.cache, list[i], instance);
        if o.0.err.Some? then SymbScan(prev.objects, o.1, o.0.err)
        else SymbScan(prev.objects + [o.0.value], o.1, None)
  {
    assert list[..i + 1][..i] == list[..i];
  }

  /** symbSubsys on a cache: the objects joined by commas, or "" and the error. */
  function SymbSubsysGet(db: Option<Database>, c: Cache, list: seq<int>, instance: int): (Reply<string>, Cache)
    requires list == [] || db.Some?
  {
    var sc := SymbFold(db, c, list, instance);
    (if sc.err.Some? then Reply("", sc.err) else Reply(Text.Join(sc.objects, ","), None), sc.cache)
  }

  /** Every error of one object carries the `symbSubsys` prefix. */
  lemma ObjectGetErrors(db: Option<Database>, c: Cache, id: int, instance: int)
    requires db.Some?
    ensures var o := ObjectGet(db, c, id, instance).0;
      o.err.Some? ==> o.value == "" && Text.StartsWith(o.err.value, SymbSubsysTag)
  {
    var got := EntryGet(db, c, id, instance);
    assert ObjectGet(db, c, id, instance) == ObjectFrom(db.value, got, id);
    if got.0.err.Some? {
      Text.StartsWithAppend(SymbSubsysTag, "::getEntryById error: " + got.0.err.value);
    } else {
      Text.StartsWithAppend(SymbSubsysTag, ": query failed");
      Text.StartsWithAppend(SymbSubsysTag, ": error while scan query rows");
    }
  }

  /**
   * symbSubsys writes one object per id, and every error it reports carries
   * its `symbSubsys` prefix; an empty list gives "" and leaves the cache alone.
   */
  lemma {:induction false} SymbFoldShape(db: Option<Database>, c: Cache, list: seq<int>, instance: int)
    requires list == [] || db.Some?
    ensures var sc := SymbFold(db, c, list, instance);
      (sc.err == None ==> |sc.objects| == |list|) &&
      (sc.err.Some? ==> Text.StartsWith(sc.err.value, SymbSubsysTag)) &&
      (list == [] ==> SymbSubsysGet(db, c, list, instance) == (Reply("", None), c))
    decreases |list|
  {
    if list != [] {
      var prev := SymbFold(db, c, list[..|list| - 1], instance);
      SymbFoldShape(db, c, list[..|list| - 1], instance);
      if prev.err.None? {
        ObjectGetErrors(db, prev.cache, list[|list| - 1], instance);
      }
    }
  }

  /** Once an id fails, symbSubsys returns at once: the ids after it change nothing. */
  lemma {:induction false} SymbFoldStops(db: Option<Database>, c: Cache, list: seq<int>, k: nat, instance: int)
    requires list == [] || db.Some?
    requires k <= |list| && SymbFold(db, c, list[..k], instance).err.Some?
    ensures SymbFold(db, c, list, instance) == SymbFold(db, c, list[..k], instance)
    decreases |list|
  {
    if k < |list| {
      assert list[..|list| - 1][..k] == list[..k];
      SymbFoldStops(db, c, list[..|list| - 1], k, instance);
    } else {
      assert list[..k] == list;
    }
  }

  /** One more subsystem: `"<res>",` appended. */
  lemma QuoteStep(head: string, names: seq<string>, res: string)
    ensures head + Text.Terminated(Quoted(names), ",") + "\"" + res + "\","
         == head + Text.Terminated(Quoted(names + [res]), ",")
  {
    var q := "\"" + res + "\"";
    Text.TerminatedSnoc(Quoted(names), q, ",");
    assert Quoted(names + [res]) == Quoted(names) + [q];
    assert "\"" + res + "\"," == q + ",";
  }

  /**
   * The inner loop of symbSubsys: after head, each subsystem name of the rows
   * quoted and followed by a comma; failed when a row does not scan.
   */
  method QuoteRows(head: string, items: seq<Row<string>>) returns (out: string, failed: bool)
    ensures var sc := ScanRows(items, [], Append);
      failed == sc.err.Some? && (!failed ==> out == head + Text.Terminated(Quoted(sc.value), ","))
  {
    ghost var names: seq<string> := [];
    out := head;
    var j := 0;
    while j < |items|
      invariant 0 <= j <= |items|
      invariant forall k :: 0 <= k < j ==> items[k].Scanned?
      invariant ScanRows(items[..j], [], Append) == Reply(names, None)
      invariant out == head + Text.Terminated(Quoted(names), ",")
    {
      ScanRowsNext(items, j, [], Append);
      match items[j] {
        case ScanFailed(_) =>
          ScanRowsStops(items, j, [], Append);
          return out, true;
        case Scanned(res) =>
          QuoteStep(head, names, res);
          out := out + "\"" + res + "\",";
          names := names + [res];
      }
      j := j + 1;
    }
    assert items[..j] == items;
    failed := false;
  }

  // ---------------------------------------------------------------------------
  // The cache is transparent

  /** Every cached value is what the database answers for instance. */
  ghost predicate CacheValid(db: Database, c: Cache, instance: int)
  {
    (forall id :: id in c.entries ==> EntryAnswer(db.entryQuery(id, instance)) == Reply(c.entries[id], None))
    && (forall id :: id in c.successors ==> SuccessorsAnswer(db, id, instance) == Reply(c.successors[id], None))
    && (forall s :: s in c.subSys ==> SubsysAnswer(db.subsysQuery(s, instance)) == Reply(c.subSys[s], None))
  }

  /** With a valid cache getEntryById answers what the database says, and the cache stays valid. */
  lemma EntryGetTransparent(db: Database, c: Cache, id: int, instance: int)
    requires CacheValid(db, c, instance)
    ensures EntryGet(Some(db), c, id, instance).0 == EntryAnswer(db.entryQuery(id, instance))
    ensures CacheValid(db, EntryGet(Some(db), c, id, instance).1, instance)
  {
  }

  /** With a valid cache getSubsysFromSymbolName answers what the database says, and the cache stays valid. */
  lemma SubsysGetTransparent(db: Database, c: Cache, symbol: string, instance: int)
    requires CacheValid(db, c, instance)
    ensures SubsysGet(Some(db), c, symbol, instance).0 == SubsysAnswer(db.subsysQuery(symbol, instance))
    ensures CacheValid(db, SubsysGet(Some(db), c, symbol, instance).1, instance)
  {
  }

  /** The successors loop over a valid cache builds the list the database describes, keeping the cache valid. */
  lemma {:induction false} SuccScanTransparent(db: Database, c: Cache, items: seq<Row<XrefRow>>, instance: int)
    requires CacheValid(db, c, instance)
    ensures var cached := ScanRows(items, SuccAcc([], c), SuccStep(db, instance));
      var direct := ScanRows(items, [], FreshStep(db, instance));
      cached.value.res == direct.value && cached.err == direct.err && CacheValid(db, cached.value.cache, instance)
      && cached.value.cache.successors == c.successors && cached.value.cache.subSys == c.subSys
    decreases |items|
  {
    if items != [] {
      var n := |items|;
      SuccScanTransparent(db, c, items[..n - 1], instance);
      var prev := ScanRows(items[..n - 1], SuccAcc([], c), SuccStep(db, instance));
      if prev.err.None? && items[n - 1].Scanned? {
        var x := items[n - 1].value;
        EntryGetTransparent(db, prev.value.cache, x.callee, instance);
      }
    }
  }

  /** With a valid cache getSuccessorsById answers what the database says, and the cache stays valid. */
  lemma SuccessorsGetTransparent(db: Database, c: Cache, id: int, instance: int)
    requires CacheValid(db, c, instance)
    ensures SuccessorsGet(Some(db), c, id, instance).0 == SuccessorsAnswer(db, id, instance)
    ensures CacheValid(db, SuccessorsGet(Some(db), c, id, instance).1, instance)
  {
    if id !in c.successors {
      SuccScanTransparent(db, c, db.xrefQuery(id, instance).items, instance);
    }
  }

  /** The successor list the database describes: one entry per xref row, with that row's source and address. */
  lemma {:induction false} SuccessorsAnswerRows(db: Database, items: seq<Row<XrefRow>>, instance: int)
    requires AllScanned(items)
    ensures var sc := ScanRows(items, [], FreshStep(db, instance));
      sc.err == None && |sc.value| == |items| &&
      forall k :: 0 <= k < |items| ==>
        sc.value[k] == EntryAnswer(db.entryQuery(items[k].value.callee, instance)).value
                         .(sourceRef := items[k].value.sourceRef, addressRef := items[k].value.addressRef)
    decreases |items|
  {
    if items != [] {
      SuccessorsAnswerRows(db, items[..|items| - 1], instance);
    }
  }

  // ---------------------------------------------------------------------------
  // The datasource

  class SqlDB {
    var db: Option<Database>
    var cache: Cache

    constructor ()
      ensures db == None && cache == EmptyCache
    {
      db := None;
      cache := EmptyCache;
    }

    /** `init` (sql_db.go:37-55): any other argument is an "invalid type" and leaves a nil handle. */
    method Init(arg: InitArg) returns (err: Option<string>)
      modifies this
      ensures arg.Invalid? ==> err == Some("invalid type") && db == None && cache == old(cache)
      ensures arg.Handle? ==> err == None && db == Some(arg.db) && cache == EmptyCache
      ensures arg.Token? && arg.outcome.Ok? ==> err == None && db == Some(arg.outcome.value) && cache == EmptyCache
      ensures arg.Token? && arg.outcome.Err? ==> err == Some(arg.outcome.error) && db == None && cache == old(cache)
    {
      err := None;
      match arg {
        case Invalid =>
          db := None;
          return Some("invalid type");
        case Handle(h) =>
          db := Some(h);
        case Token(_, _, outcome) =>
          if outcome.Err? {
            db := None;
            err := Some(outcome.error);
          } else {
            db := Some(outcome.value);
          }
      }
      if err == None {
        cache := EmptyCache;
      }
    }

    /** `GetExploredSubsystemByName`: the cached subsystem of a symbol, "" when there is none. */
    function GetExploredSubsystemByName(subs: string): (r: string)
      reads this
      ensures r != "" ==> subs in cache.subSys && cache.subSys[subs] == r
      ensures subs !in cache.subSys ==> r == ""
    {
      if subs in cache.subSys then cache.subSys[subs] else ""
    }

    /** `getEntryById`: a cached entry without a query, otherwise the scanned rows, cached on success. */
    method GetEntryById(symbolId: int, instance: int) returns (e: Entry, err: Option<string>)
      requires symbolId in cache.entries || db.Some?
      modifies this
      ensures db == old(db)
      ensures (Reply(e, err), cache) == EntryGet(old(db), old(cache), symbolId, instance)
      ensures symbolId in old(cache.entries) ==> e == old(cache.entries[symbolId]) && err == None && cache == old(cache)
      ensures err.Some? ==> cache == old(cache)
    {
      if symbolId in cache.entries {
        return cache.entries[symbolId], None;
      }
      var q := db.value.entryQuery(symbolId, instance);
      if q.QueryFailed? {
        return ZeroEntry, Some(q.msg);
      }
      var items := q.rows.items;
      e := ZeroEntry;
      var i := 0;
      while i < |items|
        invariant 0 <= i <= |items|
        invariant db == old(db) && cache == old(cache)
        invariant ScanRows(items[..i], ZeroEntry, AddRow) == Reply(e, None)
        invariant forall k :: 0 <= k < i ==> items[k].Scanned?
      {
        ScanRowsNext(items, i, ZeroEntry, AddRow);
        match items[i] {
          case ScanFailed(m) =>
            assert ScanRows(items[..i + 1], ZeroEntry, AddRow) == Reply(e, Some(m));
            ScanRowsStops(items, i, ZeroEntry, AddRow);
            return e, Some(m);
          case Scanned(row) =>
            e := e.(symId := row.symId, symbol := row.symbol, fn := row.fn);
            if row.subsys.Some? {
              e := e.(subsys := e.subsys + [row.subsys.value]);
            }
        }
        i := i + 1;
      }
      assert items[..i] == items;
      if q.rows.err.Some? {
        return e, q.rows.err;
      }
      cache := cache.(entries := cache.entries[symbolId := e]);
      err := None;
    }

    /** `getSuccessorsById`: the callee entries of the xref rows, cached on success. */
    method GetSuccessorsById(symbolId: int, instance: int) returns (res: seq<Entry>, err: Option<string>)
      requires symbolId in cache.successors || db.Some?
      modifies this
      ensures db == old(db)
      ensures (Reply(res, err), cache) == SuccessorsGet(old(db), old(cache), symbolId, instance)
      ensures symbolId in old(cache.successors) ==> res == old(cache.successors[symbolId]) && err == None && cache == old(cache)
      ensures err.Some? ==> res == [] && cache.successors == old(cache.successors)
    {
      if symbolId in cache.successors {
        return cache.successors[symbolId], None;
      }
      var d := db.value;
      var rows := d.xrefQuery(symbolId, instance);
      var items := rows.items;
      ghost var c0 := cache;
      res := [];
      var i := 0;
      while i < |items|
        invariant 0 <= i <= |items|
        invariant db == old(db) && cache.successors == c0.successors
        invariant ScanRows(items[..i], SuccAcc([], c0), SuccStep(d, instance)) == Reply(SuccAcc(res, cache), None)
        invariant forall k :: 0 <= k < i ==> items[k].Scanned?
      {
        match items[i] {
          case ScanFailed(m) =>
            ScanRowsStops(items, i, SuccAcc([], c0), SuccStep(d, instance));
            return [], Some(m);
          case Scanned(x) =>
            ScanRowsScanned(items, i, SuccAcc([], c0), SuccStep(d, instance), SuccAcc(res, cache));
            ghost var before := cache;
            var successor, ignored := GetEntryById(x.callee, instance);
            assert (Reply(successor, ignored), cache) == EntryGet(Some(d), before, x.callee, instance);
            SuccStepApplied(d, instance, SuccAcc(res, before), x, (Reply(successor, ignored), cache));
            successor := successor.(sourceRef := x.sourceRef, addressRef := x.addressRef);
            res := res + [successor];
        }
        i := i + 1;
      }
      assert items[..i] == items;
      if rows.err.Some? {
        return [], rows.err;
      }
      cache := cache.(successors := cache.successors[symbolId := res]);
      err := None;
    }

    /** `getSubsysFromSymbolName`: the values of the last row, "indirect" for that type; a non-empty answer is cached. */
    method GetSubsysFromSymbolName(symbol: string, instance: int) returns (sub: string, err: Option<string>)
      requires symbol in cache.subSys || db.Some?
      modifies this
      ensures db == old(db)
      ensures (Reply(sub, err), cache) == SubsysGet(old(db), old(cache), symbol, instance)
      ensures err == None && sub != "" ==> GetExploredSubsystemByName(symbol) == sub
      ensures sub == "" ==> cache == old(cache)
    {
      if symbol in cache.subSys {
        return cache.subSys[symbol], None;
      }
      var rows := db.value.subsysQuery(symbol, instance);
      var items := rows.items;
      var ty, s := "", "";
      var i := 0;
      while i < |items|
        invariant 0 <= i <= |items|
        invariant db == old(db) && cache == old(cache)
        invariant ScanRows(items[..i], TypedSubsys("", ""), Latest) == Reply(TypedSubsys(ty, s), None)
        invariant forall k :: 0 <= k < i ==> items[k].Scanned?
      {
        match items[i] {
          case ScanFailed(m) =>
            ScanRowsStops(items, i, TypedSubsys("", ""), Latest);
            return "", Some(m);
          case Scanned(row) =>
            ScanRowsScanned(items, i, TypedSubsys("", ""), Latest, TypedSubsys(ty, s));
            ty, s := row.ty, row.sub;
        }
        i := i + 1;
      }
      assert items[..i] == items;
      if rows.err.Some? {
        return "", rows.err;
      }
      if s == "" {
        return "", None;
      }
      if ty == "indirect" {
        s := ty;
      }
      cache := cache.(subSys := cache.subSys[symbol := s]);
      return s, None;
    }

    /** `sym2num`: the id of a symbol, an error unless exactly one row names it. */
    method Sym2Num(symb: string, instance: int) returns (res: int, err: Option<string>)
      requires db.Some?
      ensures Reply(res, err) == Sym2NumAnswer(db.value.idQuery(symb, instance))
    {
      var rows := db.value.idQuery(symb, instance);
      var items := rows.items;
      res := -1;
      var cnt := 0;
      while cnt < |items|
        invariant 0 <= cnt <= |items|
        invariant ScanRows(items[..cnt], -1, Latest) == Reply(res, None)
        invariant forall k :: 0 <= k < cnt ==> items[k].Scanned?
      {
        ScanRowsNext(items, cnt, -1, Latest);
        match items[cnt] {
          case ScanFailed(m) =>
            ScanRowsStops(items, cnt, -1, Latest);
            return res, Some(m);
          case Scanned(id) =>
            res := id;
        }
        cnt := cnt + 1;
      }
      assert items[..cnt] == items;
      if rows.err.Some? {
        return -1, rows.err;
      }
      if cnt != 1 {
        return res, Some(DuplicateId);
      }
      err := None;
    }

    /** The body of the loop of `symbSubsys` for one id: its object and a comma appended to out0. */
    method AppendObject(out0: string, id: int, instance: int) returns (out: string, err: Option<string>)
      requires db.Some?
      modifies this
      ensures db == old(db)
      ensures var o := ObjectGet(old(db), old(cache), id, instance);
        cache == o.1 && err == o.0.err && (err == None ==> out == out0 + o.0.value + ",")
    {
      ghost var got := EntryGet(db, cache, id, instance);
      assert ObjectGet(db, cache, id, instance) == ObjectFrom(db.value, got, id);
      var symb, e := GetEntryById(id, instance);
      assert got == (Reply(symb, e), cache);
      if e.Some? {
        return "", Some(Failure("::getEntryById error: " + e.value));
      }
      out := out0 + ObjectHead(symb.symbol);
      var q := db.value.tagQuery(id);
      if q.QueryFailed? {
        return "", Some(Failure(": query failed"));
      }
      var failed;
      out, failed := QuoteRows(out, q.rows.items);
      if failed {
        return "", Some(Failure(": error while scan query rows"));
      }
      ghost var names := ScanRows(q.rows.items, [], Append).value;
      CloseObject(out0, symb.symbol, names);
      out := Text.TrimSuffix(out, ",") + "]},";
      ghost var obj := ObjectOf(symb.symbol, names);
      assert ObjectFrom(db.value, got, id) == (Reply(obj, None), cache);
      err := None;
    }

    /** `symbSubsys`: the JSON objects of the ids' subsystems, separated by commas. */
    method SymbSubsys(symblist: seq<int>, instance: int) returns (out: string, err: Option<string>)
      requires symblist == [] || db.Some?
      modifies this
      ensures db == old(db)
      ensures (Reply(out, err), cache) == SymbSubsysGet(old(db), old(cache), symblist, instance)
    {
      ghost var c0 := cache;
      ghost var objects: seq<string> := [];
      out := "";
      var i := 0;
      while i < |symblist|
        invariant 0 <= i <= |symblist| && db == old(db)
        invariant SymbFold(db, c0, symblist[..i], instance) == SymbScan(objects, cache, None)
        invariant out == Text.Terminated(objects, ",")
      {
        SymbFoldNext(db, c0, symblist, i, instance);
        ghost var got := ObjectGet(db, cache, symblist[i], instance);
        ghost var o := got.0.value;
        var e;
        out, e := AppendObject(out, symblist[i], instance);
        if e.Some? {
          assert SymbFold(db, c0, symblist[..i + 1], instance) == SymbScan(objects, cache, e);
          SymbFoldStops(db, c0, symblist, i + 1, instance);
          return "", e;
        }
        assert SymbFold(db, c0, symblist[..i + 1], instance) == SymbScan(objects + [o], cache, None);
        Text.TerminatedSnoc(objects, o, ",");
        objects := objects + [o];
        i := i + 1;
      }
      assert symblist[..i] == symblist;
      assert out == "" + Text.Terminated(objects, ",");
      Text.TrimTerminated("", objects, ",");
      out := Text.TrimSuffix(out, ",");
      assert out == Text.Join(objects, ",");
      err := None;
    }
  }
}
