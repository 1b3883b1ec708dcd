/**
 * The output assembly of the older revision (ks-nav/nav/nav.go): the
 * output-type names, the edge and header templates indexed by them, the
 * JSON envelope, and `generate_output`, which resolves the start symbol,
 * navigates from it, and wraps the dot text as the output type asks.
 *
 * Base64 and gzip are parameters: `base64` stands for
 * `base64.StdEncoding.EncodeToString` of the text's bytes, and
 * `gzipBase64` for compressing the text and encoding the compressed bytes,
 * None when the compressor reports an error.
 */
module NavMain {
  import opened Wrappers
  import opened NavTypes
  import opened SqlDb
  import opened Psql
  import Text

  /** The output-type codes. */
  const GraphOnly: int := 1
  const JsonOutputPlain: int := 2
  const JsonOutputB64: int := 3
  const JsonOutputGZB64: int := 4

  /** `opt2num`: the code of an output-type name, 0 for any name not in the table. */
  function Opt2Num(s: string): (r: int)
    ensures r == GraphOnly <==> s == "GraphOnly"
    ensures r == JsonOutputPlain <==> s == "JsonOutputPlain"
    ensures r == JsonOutputB64 <==> s == "JsonOutputB64"
    ensures r == JsonOutputGZB64 <==> s == "JsonOutputGZB64"
    ensures r == 0 <==> s !in {"GraphOnly", "JsonOutputPlain", "JsonOutputB64", "JsonOutputGZB64"}
  {
    if s == "GraphOnly" then GraphOnly
    else if s == "JsonOutputPlain" then JsonOutputPlain
    else if s == "JsonOutputB64" then JsonOutputB64
    else if s == "JsonOutputGZB64" then JsonOutputGZB64
    else 0
  }

  /** The JSON-escaped edge template of JsonOutputPlain, written as in the source. */
  const EscapedDot: DotFmt := Verbs("\\\"", "\\\"->\\\"", "\\\" \\\\\\n")

  /** `fmt_dot`: the edge template of each output-type code; code 0 has the empty format. */
  const FmtDot: seq<DotFmt> := [NoVerbs, PlainDot, EscapedDot, PlainDot, PlainDot]

  /** `fmt_dot_header`: the first line of the dot text of each output-type code. */
  const FmtDotHeader: seq<string> := ["", "digraph G {\n", "digraph G {\\\\\\n", "digraph G {\n", "digraph G {\n"]

  /** Both tables have a row for every code opt2num returns. */
  lemma TablesCoverCodes(s: string)
    ensures 0 <= Opt2Num(s) < |FmtDot| && 0 <= Opt2Num(s) < |FmtDotHeader|
    ensures Opt2Num(s) == 0 ==> FmtDot[Opt2Num(s)] == NoVerbs && FmtDotHeader[Opt2Num(s)] == ""
    ensures Opt2Num(s) != 0 && Opt2Num(s) != JsonOutputPlain ==> FmtDot[Opt2Num(s)] == PlainDot
    ensures Opt2Num(s) != 0 ==> Text.StartsWith(FmtDotHeader[Opt2Num(s)], "digraph G {")
  {
    var h := FmtDotHeader[Opt2Num(s)];
    if Opt2Num(s) != 0 {
      assert h[..11] == "digraph G {";
    }
  }

  /** `JsonOutputFMT` filled with the graph, the output-type name and the symbol data. */
  function JsonOutput(graph: string, jout: string, symbols: string): string
  {
    "{\"graph\": \"" + graph + "\",\"graph_type\":\"" + jout + "\",\"symbols\": [" + symbols + "]}"
  }

  /** The graph field sits right after the fixed opening, whatever it holds. */
  lemma JsonOutputGraph(graph: string, jout: string, symbols: string)
    ensures var j := JsonOutput(graph, jout, symbols);
      |j| == 11 + |graph| + 16 + |jout| + 14 + |symbols| + 2 &&
      j[..11] == "{\"graph\": \"" && j[11..11 + |graph|] == graph &&
      j[11 + |graph| + 16 + |jout| + 14..|j| - 2] == symbols
  {
  }

  /** What `generate_output` reads from the configuration. */
  datatype NavRequest = NavRequest(symbol: string, instance: int, mode: int, excluded: seq<string>, maxDepth: nat, jout: string)

  /** Base64 and gzip, as functions of the dot text. */
  datatype Encoders = Encoders(base64: string -> string, gzipBase64: string -> Option<string>)

  /** The navigation parameters generate_output passes (nav.go:109). */
  function ParamsOf(conf: NavRequest, matches: (string, string) -> bool): OldParams
  {
    OldParams(conf.mode, conf.excluded, conf.maxDepth, FmtDot[Opt2Num(conf.jout)], matches)
  }

  /** The envelope of the dot text for an output-type code (nav.go:118-141). */
  function Wrap(code: int, dot: string, jout: string, symbdata: string, enc: Encoders): Reply<string>
  {
    if code == GraphOnly then Reply(dot, None)
    else if code == JsonOutputPlain then Reply(JsonOutput(dot, jout, symbdata), None)
    else if code == JsonOutputB64 then Reply(JsonOutput(enc.base64(dot), jout, symbdata), None)
    else if code == JsonOutputGZB64 then
      var z := enc.gzipBase64(dot);
      if z.None? then Reply("", Some("gzip failed")) else Reply(JsonOutput(z.value, jout, symbdata), None)
    else Reply("", Some("Unknown output mode"))
  }

  /**
   * `generate_output` (nav.go:82-143): the database db answers the queries,
   * g is the view of the same database that `Navigate` walks.
   */
  function GenerateOutputOf(db: OldDatabase, g: OldGraph, conf: NavRequest, matches: (string, string) -> bool, enc: Encoders)
    : Reply<string>
    requires GraphOf(db, g, conf.instance)
  {
    var start := OldSym2NumAnswer(db.idQuery(conf.symbol, conf.instance));
    if start.err.Some? then Reply("", start.err)
    else
      var entry := OldEntryGet(db, map[], start.value, conf.instance);
      if entry.0.err.Some? then Reply("", entry.0.err)
      else
        var code := Opt2Num(conf.jout);
        var nav := OldNavFrom(ParamsOf(conf, matches), g, start.value, entry.0.value.symbol, 0, OldNavState([], map[], ""));
        var dot := FmtDotHeader[code] + nav.output + "}";
        var symbdata := OldSymbSubsysGet(db, entry.1, nav.visited, conf.instance).0;
        if symbdata.err.Some? then Reply("", symbdata.err)
        else Wrap(code, dot, conf.jout, symbdata.value, enc)
  }

  /**
   * `generate_output`: the steps of nav.go:82-143 on fresh caches. `Navigate`
   * reads g, which `NavigateSeesGraph` shows is what its cached lookups
   * answer; `GenerateSharedCache` shows that the entries it would leave in
   * the shared cache do not change what symbSubsys answers.
   */
  method GenerateOutput(db: OldDatabase, g: OldGraph, conf: NavRequest, matches: (string, string) -> bool, enc: Encoders)
    returns (out: string, err: Option<string>)
    requires GraphOf(db, g, conf.instance)
    ensures Reply(out, err) == GenerateOutputOf(db, g, conf, matches, enc)
  {
    var start;
    start, err := OldSym2Num(db, conf.symbol, conf.instance);
    if err.Some? {
      return "", err;
    }
    var code := Opt2Num(conf.jout);
    var graphOutput := FmtDotHeader[code];
    var caches := new OldCacheMaps();
    var entry;
    entry, err := caches.GetEntryById(db, start, conf.instance);
    if err.Some? {
      return "", err;
    }
    ghost var entries := caches.entries;
    assert entries == OldEntryGet(db, map[], start, conf.instance).1;
    var nav := new OldNavigator();
    nav.Navigate(ParamsOf(conf, matches), g, start, entry.symbol, 0);
    ghost var navigated := OldNavFrom(ParamsOf(conf, matches), g, start, entry.symbol, 0, OldNavState([], map[], ""));
    assert nav.State() == navigated && caches.entries == entries;
    graphOutput := graphOutput + nav.output;
    graphOutput := graphOutput + "}";
    assert graphOutput == FmtDotHeader[code] + navigated.output + "}";
    var symbdata;
    symbdata, err := caches.SymbSubsys(db, nav.visited, conf.instance);
    assert Reply(symbdata, err) == OldSymbSubsysGet(db, entries, navigated.visited, conf.instance).0;
    if err.Some? {
      return "", err;
    }
    ghost var expected := Wrap(code, graphOutput, conf.jout, symbdata, enc);
    assert GenerateOutputOf(db, g, conf, matches, enc) == expected;
    if code == GraphOnly {
      out := graphOutput;
    } else if code == JsonOutputPlain {
      out := JsonOutput(graphOutput, conf.jout, symbdata);
    } else if code == JsonOutputB64 {
      var b64dot := enc.base64(graphOutput);
      out := JsonOutput(b64dot, conf.jout, symbdata);
    } else if code == JsonOutputGZB64 {
      var zipped := enc.gzipBase64(graphOutput);
      if zipped.None? {
        assert expected == Reply("", Some("gzip failed"));
        return "", Some("gzip failed");
      }
      out := JsonOutput(zipped.value, conf.jout, symbdata);
    } else {
      assert expected == Reply("", Some("Unknown output mode"));
      return "", Some("Unknown output mode");
    }
    assert expected == Reply(out, None);
    err := None;
  }

  /** A symbol sym2num cannot resolve ends generate_output before any navigation, with sym2num's error. */
  lemma GenerateUnresolved(db: OldDatabase, g: OldGraph, conf: NavRequest, matches: (string, string) -> bool, enc: Encoders)
    requires GraphOf(db, g, conf.instance)
    requires |db.idQuery(conf.symbol, conf.instance).items| != 1
    ensures GenerateOutputOf(db, g, conf, matches, enc).value == ""
    ensures GenerateOutputOf(db, g, conf, matches, enc).err.Some?
  {
    OldSym2NumCases(db.idQuery(conf.symbol, conf.instance));
  }

  /**
   * When every query succeeds, GraphOnly answers the dot text itself,
   * JsonOutputPlain the envelope around it, and a name opt2num does not know
   * the unknown-mode error.
   */
  lemma GenerateGraphAndJson(db: OldDatabase, g: OldGraph, conf: NavRequest, matches: (string, string) -> bool, enc: Encoders)
    requires GraphOf(db, g, conf.instance)
    requires var start := OldSym2NumAnswer(db.idQuery(conf.symbol, conf.instance));
      start.err == None && OldEntryGet(db, map[], start.value, conf.instance).0.err == None
    requires var start := OldSym2NumAnswer(db.idQuery(conf.symbol, conf.instance)).value;
      var entry := OldEntryGet(db, map[], start, conf.instance);
      var nav := OldNavFrom(ParamsOf(conf, matches), g, start, entry.0.value.symbol, 0, OldNavState([], map[], ""));
      OldSymbSubsysGet(db, entry.1, nav.visited, conf.instance).0.err == None
    ensures var start := OldSym2NumAnswer(db.idQuery(conf.symbol, conf.instance)).value;
      var entry := OldEntryGet(db, map[], start, conf.instance);
      var nav := OldNavFrom(ParamsOf(conf, matches), g, start, entry.0.value.symbol, 0, OldNavState([], map[], ""));
      var dot := FmtDotHeader[Opt2Num(conf.jout)] + nav.output + "}";
      var symbdata := OldSymbSubsysGet(db, entry.1, nav.visited, conf.instance).0.value;
      var r := GenerateOutputOf(db, g, conf, matches, enc);
      (conf.jout == "GraphOnly" ==> r == Reply("digraph G {\n" + nav.output + "}", None)) &&
      (conf.jout == "JsonOutputPlain" ==> r == Reply(JsonOutput(dot, conf.jout, symbdata), None)) &&
      (Opt2Num(conf.jout) == 0 ==> r == Reply("", Some("Unknown output mode")))
  {
  }

  /**
   * In nav.go the entries cache is shared: `Navigate` fills it before
   * symbSubsys reads it. Whatever valid entries it holds by then, symbSubsys
   * answers what `GenerateOutputOf` uses.
   */
  lemma GenerateSharedCache(db: OldDatabase, conf: NavRequest, shared: map<int, OldEntry>, visited: seq<int>)
    requires OldCacheValid(db, OldCache(map[], shared, map[]), conf.instance)
    requires var start := OldSym2NumAnswer(db.idQuery(conf.symbol, conf.instance));
      start.err == None
    ensures var start := OldSym2NumAnswer(db.idQuery(conf.symbol, conf.instance)).value;
      var entry := OldEntryGet(db, map[], start, conf.instance);
      OldSymbSubsysGet(db, shared, visited, conf.instance).0 == OldSymbSubsysGet(db, entry.1, visited, conf.instance).0
  {
    var start := OldSym2NumAnswer(db.idQuery(conf.symbol, conf.instance)).value;
    OldEntryGetTransparent(db, OldCache(map[], map[], map[]), start, conf.instance);
    OldSymbSubsysTransparent(db, shared, visited, conf.instance);
    OldSymbSubsysTransparent(db, OldEntryGet(db, map[], start, conf.instance).1, visited, conf.instance);
  }
}
