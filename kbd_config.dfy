/**
 * The command-line front end of the indexer (ks-nav/kern_bin_db/config.go):
 * the default configuration, the table of switches, the handlers that write
 * a switch's value into the configuration, and `args_parse`.
 *
 * Unlike nav's parser this one has no mandatory switches, lets an
 * argument-less switch fall through to the items after it, and answers the
 * configuration built so far when the last switch misses its value.
 *
 * The `-f` handler reads a JSON file into the configuration; reading and
 * decoding are the parameter `jconf`, which maps the configuration and the
 * file name to the decoded configuration or the error text.
 */
module KbdConfig {
  import opened Wrappers
  import GoStrconv

  /** The stages of the indexer, as bits of `Mode` (ks-nav/kern_bin_db/main.go:42-45). */
  const EnableSymbolsNFiles: int := 1
  const EnableXrefs: int := 2
  const EnableMaintainers: int := 4
  const EnableVersionConfig: int := 8

  /** The configuration record. */
  datatype Configuration = Configuration(
    linuxWDebug: string, linuxWODebug: string, stripBin: string,
    dbUrl: string, dbPort: int, dbUser: string, dbPassword: string, dbTargetDb: string,
    maintainersFn: string, kConfigFn: string, kMakefile: string, mode: int, note: string)

  /** `Default_config`; its mode enables every stage (1|2|4|8). */
  const DefaultConfig: Configuration := Configuration(
    "vmlinux", "vmlinux.work", "/usr/bin/strip",
    "dbs.hqhome163.com", 5432, "alessandro", "<password>", "kernel_bin",
    "MAINTAINERS", "include/generated/autoconf.h", "Makefile",
    EnableSymbolsNFiles + EnableXrefs + EnableMaintainers + EnableVersionConfig, "upstream")

  /** The error args_parse reports when the last switch has no value. */
  const ExtraArg: string := "extra arg needed but none"

  /** The switch handlers, one per `func_*` of the source. */
  datatype Handler = JConf | ForceStrip | DBUser | DBPass | DBHost | DBPort | Note | Check | Help

  /** The handlers that read their argument; `func_check` and `func_help` read none. */
  predicate ReadsArg(h: Handler)
  {
    h != Check && h != Help
  }

  datatype CmdLineItem = CmdLineItem(id: int, switch: string, helpStr: string, hasArg: bool, func: Handler)

  type JsonConf = (Configuration, string) -> Result<Configuration, string>

  /** `push_cmd_line_item`: the new item is numbered one past the items already there. */
  function Push(cmdLine: seq<CmdLineItem>, switch: string, help: string, hasArg: bool, func: Handler)
    : (r: seq<CmdLineItem>)
    ensures |r| == |cmdLine| + 1 && r[..|cmdLine|] == cmdLine
    ensures r[|cmdLine|].id == |cmdLine| + 1 && r[|cmdLine|].switch == switch && r[|cmdLine|].func == func
  {
    cmdLine + [CmdLineItem(|cmdLine| + 1, switch, help, hasArg, func)]
  }

  /** The switch table `cmd_line_item_init` builds, in the order it pushes the switches. */
  const CmdLineItems: seq<CmdLineItem> := [
    CmdLineItem(1, "-f", "specifies json configuration file", true, JConf),
    CmdLineItem(2, "-s", "Forces use specified strip binary", true, ForceStrip),
    CmdLineItem(3, "-u", "Forces use specified database userid", true, DBUser),
    CmdLineItem(4, "-p", "Forecs use specified password", true, DBPass),
    CmdLineItem(5, "-d", "Forecs use specified DBhost", true, DBHost),
    CmdLineItem(6, "-o", "Forecs use specified DBPort", true, DBPort),
    CmdLineItem(7, "-n", "Forecs use specified note (default 'upstream')", true, Note),
    CmdLineItem(8, "-c", "Checks dependencies", false, Check),
    CmdLineItem(9, "-h", "This Help", false, Help)]

  /** `cmd_line_item_init`: nine pushes onto an empty table. */
  method CmdLineItemInit() returns (res: seq<CmdLineItem>)
    ensures res == CmdLineItems
  {
    res := [];
    res := Push(res, "-f", "specifies json configuration file", true, JConf);
    res := Push(res, "-s", "Forces use specified strip binary", true, ForceStrip);
    res := Push(res, "-u", "Forces use specified database userid", true, DBUser);
    res := Push(res, "-p", "Forecs use specified password", true, DBPass);
    res := Push(res, "-d", "Forecs use specified DBhost", true, DBHost);
    res := Push(res, "-o", "Forecs use specified DBPort", true, DBPort);
    res := Push(res, "-n", "Forecs use specified note (default 'upstream')", true, Note);
    res := Push(res, "-c", "Checks dependencies", false, Check);
    res := Push(res, "-h", "This Help", false, Help);
  }

  /** A switch without a value is handled by a handler that reads no argument. */
  predicate WellFormed(lines: seq<CmdLineItem>)
  {
    forall j :: 0 <= j < |lines| && !lines[j].hasArg ==> !ReadsArg(lines[j].func)
  }

  /** No two items spell the same switch. */
  predicate DistinctSwitches(lines: seq<CmdLineItem>)
  {
    forall a, b :: 0 <= a < b < |lines| ==> lines[a].switch != lines[b].switch
  }

  /**
   * Every item is numbered by its position, counting from one; the table is
   * well formed and spells each switch once; only -c and -h take no value.
   */
  lemma StandardTable()
    ensures |CmdLineItems| == 9
    ensures forall j :: 0 <= j < |CmdLineItems| ==> CmdLineItems[j].id == j + 1
    ensures forall j :: 0 <= j < |CmdLineItems| ==> (!CmdLineItems[j].hasArg <==> j >= 7)
    ensures WellFormed(CmdLineItems) && DistinctSwitches(CmdLineItems)
  {
    var lines := CmdLineItems;
    forall a, b | 0 <= a < b < |lines|
      ensures lines[a].switch != lines[b].switch
    {
      SwitchLetters(a, b);
    }
  }

  /** The switches are a dash and one letter each, no letter twice. */
  lemma SwitchLetters(a: nat, b: nat)
    requires a < b < |CmdLineItems|
    ensures |CmdLineItems[a].switch| == 2 && |CmdLineItems[b].switch| == 2
    ensures CmdLineItems[a].switch[1] != CmdLineItems[b].switch[1]
  {
  }

  /**
   * The handlers: `func_help` always fails with "Dummy", `func_check` changes
   * nothing, `-o` takes what Atoi reads or fails with Atoi's error, and every
   * other setter stores its argument in its one field.
   */
  function Apply(h: Handler, conf: Configuration, args: seq<string>, jconf: JsonConf): (r: Result<Configuration, string>)
    requires ReadsArg(h) ==> |args| > 0
    ensures h == Help ==> r == Err("Dummy")
    ensures h == Check ==> r == Ok(conf)
    ensures h == DBPort ==> (r.Ok? <==> GoStrconv.Atoi(args[0]).Ok?)
    ensures r.Ok? && h != JConf ==> r.value.(stripBin := conf.stripBin, dbUser := conf.dbUser,
      dbPassword := conf.dbPassword, dbUrl := conf.dbUrl, dbPort := conf.dbPort, note := conf.note) == conf
  {
    match h
    case Help => Err("Dummy")
    case JConf => jconf(conf, args[0])
    case ForceStrip => Ok(conf.(stripBin := args[0]))
    case DBUser => Ok(conf.(dbUser := args[0]))
    case DBPass => Ok(conf.(dbPassword := args[0]))
    case DBHost => Ok(conf.(dbUrl := args[0]))
    case DBPort =>
      var s := GoStrconv.Atoi(args[0]);
      if s.Err? then Err(s.error) else Ok(conf.(dbPort := s.value))
    case Note => Ok(conf.(note := args[0]))
    case Check => Ok(conf)
  }

  /** Where the inner loop of args_parse leaves a token: a handler waiting for the next argument, or an error. */
  datatype Step = Continue(conf: Configuration, pending: Option<Handler>) | Stop(err: string)

  /**
   * The inner loop over the items from j on for the token tok: a switch
   * that takes a value ends the loop with its handler pending; one that
   * takes none runs its handler and the loop goes on.
   */
  function MatchFrom(lines: seq<CmdLineItem>, j: nat, tok: string, conf: Configuration, jconf: JsonConf): Step
    requires j <= |lines| && WellFormed(lines)
    decreases |lines| - j
  {
    if j == |lines| then Continue(conf, None)
    else
      var item := lines[j];
      if item.switch != tok then MatchFrom(lines, j + 1, tok, conf, jconf)
      else if item.hasArg then Continue(conf, Some(item.func))
      else
        var r := Apply(item.func, conf, [], jconf);
        if r.Err? then Stop(r.error) else MatchFrom(lines, j + 1, tok, r.value, jconf)
  }

  /** What args_parse answers: the configuration and the error, if any. */
  datatype Outcome = Outcome(conf: Configuration, err: Option<string>)

  /**
   * The outer loop of args_parse from argument i on, with the handler
   * pending, if any. A handler's error answers the default configuration;
   * a missing value answers the configuration built so far.
   */
  function ParseFrom(lines: seq<CmdLineItem>, args: seq<string>, i: nat, conf: Configuration, pending: Option<Handler>,
                     jconf: JsonConf): Outcome
    requires i <= |args| && WellFormed(lines)
    decreases |args| - i
  {
    if i == |args| then
      if pending.Some? then Outcome(conf, Some(ExtraArg)) else Outcome(conf, None)
    else if pending.None? then
      match MatchFrom(lines, 0, args[i], conf, jconf)
      case Stop(e) => Outcome(DefaultConfig, Some(e))
      case Continue(c, p) => ParseFrom(lines, args, i + 1, c, p, jconf)
    else
      var r := Apply(pending.value, conf, [args[i]], jconf);
      if r.Err? then Outcome(DefaultConfig, Some(r.error)) else ParseFrom(lines, args, i + 1, r.value, None, jconf)
  }

  /** What args_parse computes from the table and the arguments after the program name. */
  function ArgsParseOf(lines: seq<CmdLineItem>, args: seq<string>, jconf: JsonConf): Outcome
    requires WellFormed(lines)
  {
    ParseFrom(lines, args, 0, DefaultConfig, None, jconf)
  }

  /** The inner loop of args_parse for one token. */
  method MatchToken(lines: seq<CmdLineItem>, tok: string, conf0: Configuration, jconf: JsonConf)
    returns (conf: Configuration, pending: Option<Handler>, err: Option<string>)
    requires WellFormed(lines)
    ensures err.None? ==> MatchFrom(lines, 0, tok, conf0, jconf) == Continue(conf, pending)
    ensures err.Some? ==> MatchFrom(lines, 0, tok, conf0, jconf) == Stop(err.value)
  {
    conf := conf0;
    pending := None;
    var j := 0;
    while j < |lines|
      invariant 0 <= j <= |lines|
      invariant MatchFrom(lines, j, tok, conf, jconf) == MatchFrom(lines, 0, tok, conf0, jconf)
    {
      var item := lines[j];
      if item.switch == tok {
        if item.hasArg {
          pending := Some(item.func);
          return conf, pending, None;
        }
        var r := Apply(item.func, conf, [], jconf);
        if r.Err? {
          return conf, pending, Some(r.error);
        }
        conf := r.value;
      }
      j := j + 1;
    }
    err := None;
  }

  /** `args_parse`: args are the command-line arguments after the program name. */
  method ArgsParse(lines: seq<CmdLineItem>, args: seq<string>, jconf: JsonConf)
    returns (conf: Configuration, err: Option<string>)
    requires WellFormed(lines)
    ensures Outcome(conf, err) == ArgsParseOf(lines, args, jconf)
  {
    var extra := false;
    var f := Help;
    conf := DefaultConfig;
    var i := 0;
    while i < |args|
      invariant 0 <= i <= |args|
      invariant ParseFrom(lines, args, i, conf, if extra then Some(f) else None, jconf) == ArgsParseOf(lines, args, jconf)
    {
      if !extra {
        var pending;
        conf, pending, err := MatchToken(lines, args[i], conf, jconf);
        if err.Some? {
          return DefaultConfig, err;
        }
        extra := pending.Some?;
        if extra {
          f := pending.value;
        }
      } else {
        var r := Apply(f, conf, [args[i]], jconf);
        if r.Err? {
          return DefaultConfig, Some(r.error);
        }
        conf := r.value;
        extra := false;
      }
      i := i + 1;
    }
    if extra {
      return conf, Some(ExtraArg);
    }
    return conf, None;
  }

  /** A token that names no switch leaves the configuration as it is and nothing pending. */
  lemma {:induction false} UnknownToken(lines: seq<CmdLineItem>, j: nat, tok: string, conf: Configuration, jconf: JsonConf)
    requires j <= |lines| && WellFormed(lines)
    requires forall k :: j <= k < |lines| ==> lines[k].switch != tok
    ensures MatchFrom(lines, j, tok, conf, jconf) == Continue(conf, None)
    decreases |lines| - j
  {
    if j < |lines| {
      UnknownToken(lines, j + 1, tok, conf, jconf);
    }
  }

  /** Arguments none of which names a switch are all ignored: the configuration comes back unchanged, without error. */
  lemma {:induction false} UnknownTokensIgnored(lines: seq<CmdLineItem>, args: seq<string>, i: nat, conf: Configuration,
                                                jconf: JsonConf)
    requires i <= |args| && WellFormed(lines)
    requires forall a, k :: i <= a < |args| && 0 <= k < |lines| ==> lines[k].switch != args[a]
    ensures ParseFrom(lines, args, i, conf, None, jconf) == Outcome(conf, None)
    decreases |args| - i
  {
    if i < |args| {
      UnknownToken(lines, 0, args[i], conf, jconf);
      UnknownTokensIgnored(lines, args, i + 1, conf, jconf);
    }
  }

  /** With no arguments args_parse answers the default configuration and no error. */
  lemma NoArguments(lines: seq<CmdLineItem>, jconf: JsonConf)
    requires WellFormed(lines)
    ensures ArgsParseOf(lines, [], jconf) == Outcome(DefaultConfig, None)
  {
  }

  /**
   * Every error but the missing value answers the default configuration:
   * what the switches had set is thrown away.
   */
  lemma {:induction false} ErrorsAnswerDefault(lines: seq<CmdLineItem>, args: seq<string>, i: nat, conf: Configuration,
                                               pending: Option<Handler>, jconf: JsonConf)
    requires i <= |args| && WellFormed(lines)
    ensures var r := ParseFrom(lines, args, i, conf, pending, jconf);
      r.err.Some? && r.err != Some(ExtraArg) ==> r.conf == DefaultConfig
    decreases |args| - i
  {
    if i < |args| {
      if pending.None? {
        match MatchFrom(lines, 0, args[i], conf, jconf)
        case Stop(e) =>
        case Continue(c, p) => ErrorsAnswerDefault(lines, args, i + 1, c, p, jconf);
      } else {
        var r := Apply(pending.value, conf, [args[i]], jconf);
        if r.Ok? {
          ErrorsAnswerDefault(lines, args, i + 1, r.value, None, jconf);
        }
      }
    }
  }

  /** A switch that wants a value as the last argument: the configuration so far, and the missing-value error. */
  lemma TrailingSwitch(lines: seq<CmdLineItem>, args: seq<string>, m: nat, conf: Configuration, jconf: JsonConf)
    requires WellFormed(lines) && |args| > 0 && m < |lines|
    requires lines[m].switch == args[|args| - 1] && lines[m].hasArg
    requires forall k :: 0 <= k < m ==> lines[k].switch != args[|args| - 1]
    ensures ParseFrom(lines, args, |args| - 1, conf, None, jconf) == Outcome(conf, Some(ExtraArg))
  {
    MatchAt(lines, 0, m, args[|args| - 1], conf, jconf);
  }

  /** The first item spelling tok decides a token whose switch takes a value. */
  lemma {:induction false} MatchAt(lines: seq<CmdLineItem>, j: nat, m: nat, tok: string, conf: Configuration, jconf: JsonConf)
    requires j <= m < |lines| && WellFormed(lines)
    requires forall k :: j <= k < m ==> lines[k].switch != tok
    requires lines[m].switch == tok && lines[m].hasArg
    ensures MatchFrom(lines, j, tok, conf, jconf) == Continue(conf, Some(lines[m].func))
    decreases m - j
  {
    if j < m {
      MatchAt(lines, j + 1, m, tok, conf, jconf);
    }
  }

  /** On a table spelling each switch once, a switch with a value at position i applies its handler to the next argument. */
  lemma ValueStep(lines: seq<CmdLineItem>, args: seq<string>, i: nat, m: nat, conf: Configuration, jconf: JsonConf)
    requires WellFormed(lines) && DistinctSwitches(lines)
    requires i + 1 < |args| && m < |lines| && lines[m].switch == args[i] && lines[m].hasArg
    ensures var r := Apply(lines[m].func, conf, [args[i + 1]], jconf);
      ParseFrom(lines, args, i, conf, None, jconf) ==
        if r.Err? then Outcome(DefaultConfig, Some(r.error)) else ParseFrom(lines, args, i + 2, r.value, None, jconf)
  {
    MatchAt(lines, 0, m, args[i], conf, jconf);
  }

  /** On a table spelling each switch once, a switch without a value at position i runs its handler there. */
  lemma FlagStep(lines: seq<CmdLineItem>, args: seq<string>, i: nat, m: nat, conf: Configuration, jconf: JsonConf)
    requires WellFormed(lines) && DistinctSwitches(lines)
    requires i < |args| && m < |lines| && lines[m].switch == args[i] && !lines[m].hasArg
    ensures var r := Apply(lines[m].func, conf, [], jconf);
      ParseFrom(lines, args, i, conf, None, jconf) ==
        if r.Err? then Outcome(DefaultConfig, Some(r.error)) else ParseFrom(lines, args, i + 1, r.value, None, jconf)
  {
    FlagAt(lines, 0, m, args[i], conf, jconf);
  }

  lemma {:induction false} FlagAt(lines: seq<CmdLineItem>, j: nat, m: nat, tok: string, conf: Configuration, jconf: JsonConf)
    requires j <= m < |lines| && WellFormed(lines) && DistinctSwitches(lines)
    requires forall k :: j <= k < m ==> lines[k].switch != tok
    requires lines[m].switch == tok && !lines[m].hasArg
    ensures var r := Apply(lines[m].func, conf, [], jconf);
      MatchFrom(lines, j, tok, conf, jconf) == if r.Err? then Stop(r.error) else Continue(r.value, None)
    decreases m - j
  {
    if j < m {
      FlagAt(lines, j + 1, m, tok, conf, jconf);
    } else {
      var r := Apply(lines[m].func, conf, [], jconf);
      if r.Ok? {
        UnknownToken(lines, m + 1, tok, r.value, jconf);
      }
    }
  }

  /** With the table of cmd_line_item_init, -h fails with "Dummy" and the default configuration, and -c changes nothing. */
  lemma HelpAndCheck(args: seq<string>, i: nat, conf: Configuration, jconf: JsonConf)
    requires i < |args|
    ensures args[i] == "-h" ==>
      ParseFrom(CmdLineItems, args, i, conf, None, jconf) == Outcome(DefaultConfig, Some("Dummy"))
    ensures args[i] == "-c" ==>
      ParseFrom(CmdLineItems, args, i, conf, None, jconf) == ParseFrom(CmdLineItems, args, i + 1, conf, None, jconf)
  {
    StandardTable();
    if args[i] == "-h" {
      FlagStep(CmdLineItems, args, i, 8, conf, jconf);
    } else if args[i] == "-c" {
      FlagStep(CmdLineItems, args, i, 7, conf, jconf);
    }
  }

  /** With the table of cmd_line_item_init, -s, -u, -p, -d and -n store the argument after them in their field. */
  lemma Setters(args: seq<string>, i: nat, conf: Configuration, jconf: JsonConf)
    requires i + 1 < |args|
    ensures args[i] == "-s" ==>
      ParseFrom(CmdLineItems, args, i, conf, None, jconf) == ParseFrom(CmdLineItems, args, i + 2, conf.(stripBin := args[i + 1]), None, jconf)
    ensures args[i] == "-u" ==>
      ParseFrom(CmdLineItems, args, i, conf, None, jconf) == ParseFrom(CmdLineItems, args, i + 2, conf.(dbUser := args[i + 1]), None, jconf)
    ensures args[i] == "-p" ==>
      ParseFrom(CmdLineItems, args, i, conf, None, jconf) == ParseFrom(CmdLineItems, args, i + 2, conf.(dbPassword := args[i + 1]), None, jconf)
    ensures args[i] == "-d" ==>
      ParseFrom(CmdLineItems, args, i, conf, None, jconf) == ParseFrom(CmdLineItems, args, i + 2, conf.(dbUrl := args[i + 1]), None, jconf)
    ensures args[i] == "-n" ==>
      ParseFrom(CmdLineItems, args, i, conf, None, jconf) == ParseFrom(CmdLineItems, args, i + 2, conf.(note := args[i + 1]), None, jconf)
  {
    StandardTable();
    var m := if args[i] == "-s" then 1 else if args[i] == "-u" then 2 else if args[i] == "-p" then 3
      else if args[i] == "-d" then 4 else 6;
    if args[i] in ["-s", "-u", "-p", "-d", "-n"] {
      ValueStep(CmdLineItems, args, i, m, conf, jconf);
    }
  }

  /** `-o` with the table of cmd_line_item_init: the port Atoi reads, or Atoi's error with the default configuration. */
  lemma PortSwitch(args: seq<string>, i: nat, conf: Configuration, jconf: JsonConf)
    requires i + 1 < |args| && args[i] == "-o"
    ensures var p := GoStrconv.Atoi(args[i + 1]);
      ParseFrom(CmdLineItems, args, i, conf, None, jconf) ==
        if p.Err? then Outcome(DefaultConfig, Some(p.error))
        else ParseFrom(CmdLineItems, args, i + 2, conf.(dbPort := p.value), None, jconf)
  {
    StandardTable();
    ValueStep(CmdLineItems, args, i, 5, conf, jconf);
  }

  /**
   * `-s v -u`: the strip binary is set and -u misses its value, so
   * args_parse answers the configuration with the strip binary set, and the
   * missing-value error.
   */
  lemma SetThenTrailing(v: string, jconf: JsonConf)
    ensures
      ArgsParseOf(CmdLineItems, ["-s", v, "-u"], jconf) == Outcome(DefaultConfig.(stripBin := v), Some(ExtraArg))
  {
    StandardTable();
    var args := ["-s", v, "-u"];
    Setters(args, 0, DefaultConfig, jconf);
    TrailingSwitch(CmdLineItems, args, 2, DefaultConfig.(stripBin := v), jconf);
  }
}
