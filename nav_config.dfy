/**
 * The command-line front end of nav (ks-nav/nav/config.go): the default
 * configuration, the table of switches, the handlers that apply a switch
 * to the configuration, and `args_parse`, which walks the arguments.
 *
 * The `-f` handler reads a JSON file into the configuration; reading and
 * decoding are the parameter `jconf`, which maps the configuration and the
 * file name to the decoded configuration or the error text.
 */
module NavConfig {
  import opened Wrappers
  import NavTypes
  import GoStrconv

  /** The configuration record; `mode` holds the integer value of an OutMode. */
  datatype Configuration = Configuration(
    dbUrl: string, dbPort: int, dbUser: string, dbPassword: string, dbTargetDb: string,
    symbol: string, instance: int, mode: int,
    excludedBefore: seq<string>, excludedAfter: seq<string>, targetSubsys: seq<string>,
    maxDepth: int, jout: string, cmdlineNeeds: map<string, bool>)

  const DefaultConfig: Configuration := Configuration(
    "dbs.hqhome163.com", 5432, "alessandro", "<password>", "kernel_bin",
    "", 0, NavTypes.ModeCode(NavTypes.PrintSubsys),
    [], [], [],
    0, "GraphOnly", map[])

  /** The switch handlers, one per `func_*` of the source. */
  datatype Handler = Help | OutType | JConf | Symbol | DBUser | DBPass | DBHost | DBPort | Depth | Instance | Mode

  datatype CmdLineItem = CmdLineItem(id: int, switch: string, helpStr: string, hasArg: bool, needed: bool, func: Handler)

  type JsonConf = (Configuration, string) -> Result<Configuration, string>

  /** `push_cmd_line_item`: the new item is numbered one past the items already there. */
  function Push(cmdLine: seq<CmdLineItem>, switch: string, help: string, hasArg: bool, needed: bool, func: Handler)
    : (r: seq<CmdLineItem>)
    ensures r == cmdLine + [CmdLineItem(|cmdLine| + 1, switch, help, hasArg, needed, func)]
  {
    cmdLine + [CmdLineItem(|cmdLine| + 1, switch, help, hasArg, needed, func)]
  }

  /** The switch table `cmd_line_item_init` builds, in the order it pushes the switches. */
  const CmdLineItems: seq<CmdLineItem> := [
    CmdLineItem(1, "-j", "Force Json output with subsystems data", true, false, OutType),
    CmdLineItem(2, "-s", "Specifies symbol", true, true, Symbol),
    CmdLineItem(3, "-i", "Specifies instance", true, true, Instance),
    CmdLineItem(4, "-f", "Specifies config file", true, false, JConf),
    CmdLineItem(5, "-u", "Forces use specified database userid", true, false, DBUser),
    CmdLineItem(6, "-p", "Forecs use specified password", true, false, DBPass),
    CmdLineItem(7, "-d", "Forecs use specified DBhost", true, false, DBHost),
    CmdLineItem(8, "-p", "Forecs use specified DBPort", true, false, DBPort),
    CmdLineItem(9, "-m", "Sets display mode 2=subsystems,1=all", true, false, Mode),
    CmdLineItem(10, "-x", "Specify Max depth in call flow exploration", true, false, Depth),
    CmdLineItem(11, "-h", "This Help", false, false, Help)]

  /** `cmd_line_item_init`: eleven pushes onto an empty table. */
  method CmdLineItemInit() returns (res: seq<CmdLineItem>)
    ensures res == CmdLineItems
  {
    res := [];
    res := Push(res, "-j", "Force Json output with subsystems data", true, false, OutType);
    res := Push(res, "-s", "Specifies symbol", true, true, Symbol);
    res := Push(res, "-i", "Specifies instance", true, true, Instance);
    res := Push(res, "-f", "Specifies config file", true, false, JConf);
    res := Push(res, "-u", "Forces use specified database userid", true, false, DBUser);
    res := Push(res, "-p", "Forecs use specified password", true, false, DBPass);
    res := Push(res, "-d", "Forecs use specified DBhost", true, false, DBHost);
    res := Push(res, "-p", "Forecs use specified DBPort", true, false, DBPort);
    res := Push(res, "-m", "Sets display mode 2=subsystems,1=all", true, false, Mode);
    res := Push(res, "-x", "Specify Max depth in call flow exploration", true, false, Depth);
    res := Push(res, "-h", "This Help", false, false, Help);
  }

  /**
   * Every item of the table is numbered by its position, counting from one;
   * the needed switches are -s and -i; -h is the only switch without an argument.
   */
  lemma CmdLineItemIds()
    ensures |CmdLineItems| == 11
    ensures forall j :: 0 <= j < |CmdLineItems| ==> CmdLineItems[j].id == j + 1
    ensures forall j :: 0 <= j < |CmdLineItems| ==>
      (CmdLineItems[j].needed <==> CmdLineItems[j].switch in {"-s", "-i"})
    ensures forall j :: 0 <= j < |CmdLineItems| ==> (!CmdLineItems[j].hasArg <==> CmdLineItems[j].switch == "-h")
    ensures WellFormed(CmdLineItems)
  {
  }

  /** A switch without an argument is handled by `func_help`, the one handler that reads no argument. */
  predicate WellFormed(lines: seq<CmdLineItem>)
  {
    forall j :: 0 <= j < |lines| && !lines[j].hasArg ==> lines[j].func == Help
  }

  /** An integer argument converted as `strconv.Atoi` does. */
  function Int(arg: string, ok: int -> Configuration): Result<Configuration, string>
  {
    var s := GoStrconv.Atoi(arg);
    if s.Err? then Err(s.error) else Ok(ok(s.value))
  }

  /** The handlers: `func_help` reads nothing; every other one reads args[0]. */
  function Apply(h: Handler, conf: Configuration, args: seq<string>, jconf: JsonConf): (r: Result<Configuration, string>)
    requires h != Help ==> |args| > 0
    ensures r.Ok? ==> r.value.cmdlineNeeds == conf.cmdlineNeeds
    ensures h == Help ==> r == Err("Command Help")
  {
    match h
    case Help => Err("Command Help")
    case OutType => Ok(conf.(jout := args[0]))
    case JConf =>
      var c := jconf(conf, args[0]);
      if c.Err? then Err(c.error) else Ok(c.value.(cmdlineNeeds := conf.cmdlineNeeds))
    case Symbol => Ok(conf.(symbol := args[0]))
    case DBUser => Ok(conf.(dbUser := args[0]))
    case DBPass => Ok(conf.(dbPassword := args[0]))
    case DBHost => Ok(conf.(dbUrl := args[0]))
    case DBPort => Int(args[0], s => conf.(dbPort := s))
    case Depth =>
      var s := GoStrconv.Atoi(args[0]);
      if s.Err? then Err(s.error)
      else if s.value < 0 then Err("Depth must be >= 0")
      else Ok(conf.(maxDepth := s.value))
    case Instance => Int(args[0], s => conf.(instance := s))
    case Mode =>
      var s := GoStrconv.Atoi(args[0]);
      if s.Err? then Err(s.error)
      else if s.value < NavTypes.ModeCode(NavTypes.PrintAll) || s.value >= NavTypes.OutModeLast then Err("unsupported mode")
      else Ok(conf.(mode := s.value))
  }

  /** `-x` accepts exactly the non-negative integers, and `-m` exactly the codes of the four modes. */
  lemma DepthAndModeRanges(conf: Configuration, arg: string, jconf: JsonConf)
    ensures Apply(Depth, conf, [arg], jconf).Ok? <==> GoStrconv.Atoi(arg).Ok? && GoStrconv.Atoi(arg).value >= 0
    ensures Apply(Mode, conf, [arg], jconf).Ok? <==>
      GoStrconv.Atoi(arg).Ok? && NavTypes.ModeOfCode(GoStrconv.Atoi(arg).value).Some?
    ensures Apply(Depth, conf, [arg], jconf).Ok? ==> Apply(Depth, conf, [arg], jconf).value.maxDepth >= 0
  {
  }

  /** The needs map after the first loop of args_parse has gone over the items from k on. */
  function InitNeeds(lines: seq<CmdLineItem>, k: nat, needs: map<string, bool>): map<string, bool>
    requires k <= |lines|
    decreases |lines| - k
  {
    if k == |lines| then needs
    else InitNeeds(lines, k + 1, if lines[k].needed then needs[lines[k].switch := false] else needs)
  }

  /** The first loop marks every needed switch as not yet seen, and marks nothing as seen. */
  lemma {:induction false} InitNeedsMarks(lines: seq<CmdLineItem>, k: nat, needs: map<string, bool>)
    requires k <= |lines|
    requires forall key :: key in needs ==> !needs[key]
    ensures forall key :: key in InitNeeds(lines, k, needs) ==> !InitNeeds(lines, k, needs)[key]
    ensures forall j :: k <= j < |lines| && lines[j].needed ==> lines[j].switch in InitNeeds(lines, k, needs)
    decreases |lines| - k
  {
    if k < |lines| {
      var needs1 := if lines[k].needed then needs[lines[k].switch := false] else needs;
      assert forall key :: key in needs1 ==> !needs1[key];
      InitNeedsMarks(lines, k + 1, needs1);
      var r := InitNeeds(lines, k + 1, needs1);
      assert InitNeeds(lines, k, needs) == r;
      assert lines[k].needed ==> lines[k].switch in r by {
        if lines[k].needed {
          InitNeedsKeeps(lines, k + 1, needs1, lines[k].switch);
        }
      }
    }
  }

  lemma {:induction false} InitNeedsKeeps(lines: seq<CmdLineItem>, k: nat, needs: map<string, bool>, key: string)
    requires k <= |lines| && key in needs
    ensures key in InitNeeds(lines, k, needs)
    decreases |lines| - k
  {
    if k < |lines| {
      InitNeedsKeeps(lines, k + 1, if lines[k].needed then needs[lines[k].switch := false] else needs, key);
    }
  }

  /** The outcome of one token matched against the switch table. */
  datatype Step = Continue(conf: Configuration, pending: Option<Handler>) | Stop(err: string)

  /**
   * The inner loop of args_parse from item j on: a matching needed switch is
   * marked seen, a matching switch with an argument leaves its handler
   * pending and ends the loop, and a matching switch without one runs its
   * handler at once. In a well-formed table that handler is func_help,
   * which always fails, so the loop never goes on past it.
   */
  function MatchFrom(lines: seq<CmdLineItem>, j: nat, tok: string, conf: Configuration, jconf: JsonConf): Step
    requires j <= |lines| && WellFormed(lines)
    decreases |lines| - j
  {
    if j == |lines| then Continue(conf, None)
    else
      var item := lines[j];
      if item.switch != tok then MatchFrom(lines, j + 1, tok, conf, jconf)
      else
        var conf1 := if item.needed then conf.(cmdlineNeeds := conf.cmdlineNeeds[tok := true]) else conf;
        if item.hasArg then Continue(conf1, Some(item.func))
        else Stop(Apply(item.func, conf1, [], jconf).error)
  }

  predicate AllNeeded(needs: map<string, bool>)
  {
    forall k :: k in needs ==> needs[k]
  }

  /** The outer loop of args_parse from argument i on, with the handler pending, if any. */
  function ParseFrom(lines: seq<CmdLineItem>, args: seq<string>, i: nat, conf: Configuration, pending: Option<Handler>,
                     jconf: JsonConf): Result<Configuration, string>
    requires i <= |args| && WellFormed(lines)
    decreases |args| - i
  {
    if i == |args| then
      if pending.Some? then Err("Missing switch arg")
      else if AllNeeded(conf.cmdlineNeeds) then Ok(conf)
      else Err("Missing needed arg")
    else if pending.None? then
      match MatchFrom(lines, 0, args[i], conf, jconf)
      case Stop(e) => Err(e)
      case Continue(c, p) => ParseFrom(lines, args, i + 1, c, p, jconf)
    else
      var r := Apply(pending.value, conf, [args[i]], jconf);
      if r.Err? then Err(r.error) else ParseFrom(lines, args, i + 1, r.value, None, jconf)
  }

  /** What args_parse computes from the table and the arguments after the program name. */
  function ArgsParseOf(lines: seq<CmdLineItem>, args: seq<string>, jconf: JsonConf): Result<Configuration, string>
    requires WellFormed(lines)
  {
    ParseFrom(lines, args, 0, DefaultConfig.(cmdlineNeeds := InitNeeds(lines, 0, DefaultConfig.cmdlineNeeds)), None, jconf)
  }

  /** The inner loop of args_parse for one token. */
  method MatchToken(lines: seq<CmdLineItem>, tok: string, conf0: Configuration, jconf: JsonConf)
    returns (conf: Configuration, pending: Option<Handler>, err: Option<string>)
    requires WellFormed(lines)
    ensures err.None? ==> MatchFrom(lines, 0, tok, conf0, jconf) == Continue(conf, pending)
    ensures err.Some? ==> MatchFrom(lines, 0, tok, conf0, jconf) == Stop(err.value)
  {
    conf := conf0;
    pending := None;
    var j := 0;
    while j < |lines|
      invariant 0 <= j <= |lines|
      invariant MatchFrom(lines, j, tok, conf, jconf) == MatchFrom(lines, 0, tok, conf0, jconf)
    {
      var item := lines[j];
      if item.switch == tok {
        if item.needed {
          conf := conf.(cmdlineNeeds := conf.cmdlineNeeds[item.switch := true]);
        }
        if item.hasArg {
          pending := Some(item.func);
          return conf, pending, None;
        }
        var r := Apply(item.func, conf, [], jconf);
        return conf, pending, Some(r.error);
      }
      j := j + 1;
    }
    err := None;
  }

  /**
   * `args_parse`: args are the command-line arguments after the program name.
   * On failure the configuration answered is the default one.
   */
  method ArgsParse(lines: seq<CmdLineItem>, args: seq<string>, jconf: JsonConf)
    returns (conf: Configuration, err: Option<string>)
    requires WellFormed(lines)
    ensures err.None? ==> ArgsParseOf(lines, args, jconf) == Ok(conf)
    ensures err.Some? ==> ArgsParseOf(lines, args, jconf) == Err(err.value) && conf == DefaultConfig
  {
    var extra := false;
    var f := Help;
    conf := DefaultConfig;
    var k := 0;
    while k < |lines|
      invariant 0 <= k <= |lines|
      invariant conf.(cmdlineNeeds := DefaultConfig.cmdlineNeeds) == DefaultConfig
      invariant InitNeeds(lines, k, conf.cmdlineNeeds) == InitNeeds(lines, 0, DefaultConfig.cmdlineNeeds)
    {
      if lines[k].needed {
        conf := conf.(cmdlineNeeds := conf.cmdlineNeeds[lines[k].switch := false]);
      }
      k := k + 1;
    }
    ghost var goal := ArgsParseOf(lines, args, jconf);
    var i := 0;
    while i < |args|
      invariant 0 <= i <= |args|
      invariant ParseFrom(lines, args, i, conf, if extra then Some(f) else None, jconf) == goal
    {
      if !extra {
        var pending;
        conf, pending, err := MatchToken(lines, args[i], conf, jconf);
        if err.Some? {
          return DefaultConfig, err;
        }
        extra := pending.Some?;
        if extra {
          f := pending.value;
        }
      } else {
        var r := Apply(f, conf, [args[i]], jconf);
        if r.Err? {
          return DefaultConfig, Some(r.error);
        }
        conf := r.value;
        extra := false;
      }
      i := i + 1;
    }
    if extra {
      return DefaultConfig, Some("Missing switch arg");
    }
    if AllNeeded(conf.cmdlineNeeds) {
      return conf, None;
    }
    return DefaultConfig, Some("Missing needed arg");
  }

  /** A needed switch is marked seen only by a token spelling it. */
  lemma {:induction false} MatchMarksOnlyTok(lines: seq<CmdLineItem>, j: nat, tok: string, conf: Configuration, jconf: JsonConf)
    requires j <= |lines| && WellFormed(lines)
    ensures MatchFrom(lines, j, tok, conf, jconf).Continue? ==>
      var c := MatchFrom(lines, j, tok, conf, jconf).conf;
      c.cmdlineNeeds.Keys == conf.cmdlineNeeds.Keys + (if tok in c.cmdlineNeeds then {tok} else {}) &&
      forall k :: k in c.cmdlineNeeds && k != tok ==> c.cmdlineNeeds[k] == conf.cmdlineNeeds[k]
    decreases |lines| - j
  {
    if j < |lines| {
      var item := lines[j];
      if item.switch != tok {
        MatchMarksOnlyTok(lines, j + 1, tok, conf, jconf);
      }
    }
  }

  /**
   * Parsing succeeds only when every needed switch of the table appeared
   * among the arguments, each needed switch not yet seen being kept false.
   */
  lemma {:induction false} ParseFromNeedsSeen(lines: seq<CmdLineItem>, args: seq<string>, i: nat, conf: Configuration,
                                              pending: Option<Handler>, jconf: JsonConf)
    requires i <= |args| && WellFormed(lines)
    requires forall k :: k in conf.cmdlineNeeds && conf.cmdlineNeeds[k] ==> k in args[..i]
    ensures ParseFrom(lines, args, i, conf, pending, jconf).Ok? ==>
      forall k :: k in conf.cmdlineNeeds ==> k in args
    decreases |args| - i
  {
    if i == |args| {
      assert args[..i] == args;
    } else if pending.None? {
      MatchMarksOnlyTok(lines, 0, args[i], conf, jconf);
      var m := MatchFrom(lines, 0, args[i], conf, jconf);
      if m.Continue? {
        assert args[..i + 1] == args[..i] + [args[i]];
        ParseFromNeedsSeen(lines, args, i + 1, m.conf, m.pending, jconf);
      }
    } else {
      var r := Apply(pending.value, conf, [args[i]], jconf);
      if r.Ok? {
        assert args[..i + 1] == args[..i] + [args[i]];
        ParseFromNeedsSeen(lines, args, i + 1, r.value, None, jconf);
      }
    }
  }

  /** args_parse succeeds only when every needed switch of the table is among the arguments. */
  lemma ArgsParseNeedsSeen(lines: seq<CmdLineItem>, args: seq<string>, jconf: JsonConf, j: int)
    requires WellFormed(lines)
    requires 0 <= j < |lines| && lines[j].needed
    requires ArgsParseOf(lines, args, jconf).Ok?
    ensures lines[j].switch in args
  {
    var conf := DefaultConfig.(cmdlineNeeds := InitNeeds(lines, 0, DefaultConfig.cmdlineNeeds));
    InitNeedsMarks(lines, 0, DefaultConfig.cmdlineNeeds);
    ParseFromNeedsSeen(lines, args, 0, conf, None, jconf);
  }

  /** The first item spelling tok decides the token. */
  lemma {:induction false} MatchAt(lines: seq<CmdLineItem>, j: nat, m: nat, tok: string, conf: Configuration, jconf: JsonConf)
    requires j <= m < |lines| && WellFormed(lines)
    requires forall k :: j <= k < m ==> lines[k].switch != tok
    requires lines[m].switch == tok
    ensures var conf1 := if lines[m].needed then conf.(cmdlineNeeds := conf.cmdlineNeeds[tok := true]) else conf;
      MatchFrom(lines, j, tok, conf, jconf) ==
        if lines[m].hasArg then Continue(conf1, Some(lines[m].func)) else Stop("Command Help")
    decreases m - j
  {
    if j < m {
      MatchAt(lines, j + 1, m, tok, conf, jconf);
    }
  }

  /** tok is spelled by item m and by no item before it. */
  predicate FirstSpelling(lines: seq<CmdLineItem>, m: nat, tok: string)
  {
    m < |lines| && lines[m].switch == tok && forall k :: 0 <= k < m ==> lines[k].switch != tok
  }

  /** The first three switches of the table: -j, then the needed -s and -i, each taking a value. */
  predicate SwitchesStart(lines: seq<CmdLineItem>)
  {
    |lines| >= 3 && WellFormed(lines) &&
    lines[0].switch == "-j" && !lines[0].needed &&
    lines[1].switch == "-s" && lines[1].hasArg && lines[1].needed && lines[1].func == Symbol &&
    lines[2].switch == "-i" && lines[2].hasArg && lines[2].needed && lines[2].func == Instance
  }

  /** No item from k on is needed. */
  predicate NoneNeededFrom(lines: seq<CmdLineItem>, k: nat)
  {
    forall j :: k <= j < |lines| ==> !lines[j].needed
  }

  /**
   * The facts about the table of cmd_line_item_init the lemmas below rely
   * on: it starts with -j, -s, -i; only -s and -i are needed; -h is
   * argument-less; the first -p is the password switch and the second the
   * port switch.
   */
  lemma StandardTable()
    ensures SwitchesStart(CmdLineItems) && NoneNeededFrom(CmdLineItems, 3)
    ensures FirstSpelling(CmdLineItems, 10, "-h") && !CmdLineItems[10].hasArg
    ensures FirstSpelling(CmdLineItems, 5, "-p") && CmdLineItems[5].hasArg && !CmdLineItems[5].needed
    ensures CmdLineItems[5].func == DBPass && CmdLineItems[7].switch == "-p" && CmdLineItems[7].func == DBPort
  {
    TableStart();
    TableHelp();
    TablePassword();
  }

  lemma TableStart()
    ensures SwitchesStart(CmdLineItems) && NoneNeededFrom(CmdLineItems, 3)
  {
    var lines := CmdLineItems;
    forall j | 0 <= j < |lines| && !lines[j].hasArg
      ensures lines[j].func == Help
    {
      assert j == 10;
    }
  }

  lemma TableHelp()
    ensures FirstSpelling(CmdLineItems, 10, "-h") && !CmdLineItems[10].hasArg
  {
    var lines := CmdLineItems;
    forall k | 0 <= k < 10
      ensures lines[k].switch != "-h"
    {
      assert lines[k].switch[1] != 'h';
    }
  }

  lemma TablePassword()
    ensures FirstSpelling(CmdLineItems, 5, "-p") && CmdLineItems[5].hasArg && !CmdLineItems[5].needed
    ensures CmdLineItems[5].func == DBPass && CmdLineItems[7].switch == "-p" && CmdLineItems[7].func == DBPort
  {
    var lines := CmdLineItems;
    forall k | 0 <= k < 5
      ensures lines[k].switch != "-p"
    {
      assert lines[k].switch[1] != 'p';
    }
  }

  lemma {:induction false} InitNeedsNoneNeeded(lines: seq<CmdLineItem>, k: nat, needs: map<string, bool>)
    requires k <= |lines| && NoneNeededFrom(lines, k)
    ensures InitNeeds(lines, k, needs) == needs
    decreases |lines| - k
  {
    if k < |lines| {
      InitNeedsNoneNeeded(lines, k + 1, needs);
    }
  }

  /** The configuration args_parse starts its second loop from: -s and -i needed, not yet seen. */
  const StartConf: Configuration := DefaultConfig.(cmdlineNeeds := map["-s" := false, "-i" := false])

  lemma ArgsParseStart(lines: seq<CmdLineItem>, args: seq<string>, jconf: JsonConf)
    requires SwitchesStart(lines) && NoneNeededFrom(lines, 3)
    ensures ArgsParseOf(lines, args, jconf) == ParseFrom(lines, args, 0, StartConf, None, jconf)
  {
    var needs: map<string, bool> := map[];
    assert InitNeeds(lines, 0, needs) == InitNeeds(lines, 2, needs["-s" := false]);
    assert needs["-s" := false]["-i" := false] == StartConf.cmdlineNeeds;
    InitNeedsNoneNeeded(lines, 3, StartConf.cmdlineNeeds);
  }

  /** No arguments at all: the needed switches are missing. */
  lemma NoArguments(lines: seq<CmdLineItem>, jconf: JsonConf)
    requires SwitchesStart(lines)
    ensures ArgsParseOf(lines, [], jconf) == Err("Missing needed arg")
  {
    InitNeedsMarks(lines, 0, DefaultConfig.cmdlineNeeds);
    assert "-s" in InitNeeds(lines, 0, DefaultConfig.cmdlineNeeds);
  }

  /** `-h` where a switch is expected stops parsing with the help request. */
  lemma HelpStops(lines: seq<CmdLineItem>, m: nat, args: seq<string>, jconf: JsonConf)
    requires WellFormed(lines) && FirstSpelling(lines, m, "-h") && !lines[m].hasArg
    requires |args| > 0 && args[0] == "-h"
    ensures ArgsParseOf(lines, args, jconf) == Err("Command Help")
  {
    var conf := DefaultConfig.(cmdlineNeeds := InitNeeds(lines, 0, DefaultConfig.cmdlineNeeds));
    MatchAt(lines, 0, m, "-h", conf, jconf);
  }

  /** A token spelling a switch that takes a value leaves that switch's handler pending. */
  lemma ParseSwitch(lines: seq<CmdLineItem>, args: seq<string>, i: nat, m: nat, conf: Configuration, jconf: JsonConf)
    requires i < |args| && WellFormed(lines)
    requires FirstSpelling(lines, m, args[i]) && lines[m].hasArg
    ensures var conf1 := if lines[m].needed then conf.(cmdlineNeeds := conf.cmdlineNeeds[args[i] := true]) else conf;
      ParseFrom(lines, args, i, conf, None, jconf) == ParseFrom(lines, args, i + 1, conf1, Some(lines[m].func), jconf)
  {
    MatchAt(lines, 0, m, args[i], conf, jconf);
  }

  /** A pending handler consumes the next argument. */
  lemma ParseValue(lines: seq<CmdLineItem>, args: seq<string>, i: nat, conf: Configuration, h: Handler, jconf: JsonConf)
    requires i < |args| && WellFormed(lines)
    ensures var r := Apply(h, conf, [args[i]], jconf);
      ParseFrom(lines, args, i, conf, Some(h), jconf) ==
        if r.Err? then Err(r.error) else ParseFrom(lines, args, i + 1, r.value, None, jconf)
  {
  }

  /** `-s` then a value at position i sets the symbol and marks -s seen. */
  lemma SymbolStep(lines: seq<CmdLineItem>, args: seq<string>, i: nat, conf: Configuration, jconf: JsonConf)
    requires SwitchesStart(lines)
    requires i + 1 < |args| && args[i] == "-s"
    ensures ParseFrom(lines, args, i, conf, None, jconf) ==
      ParseFrom(lines, args, i + 2, conf.(symbol := args[i + 1], cmdlineNeeds := conf.cmdlineNeeds["-s" := true]), None, jconf)
  {
    assert lines[0].switch[1] != 's';
    ParseSwitch(lines, args, i, 1, conf, jconf);
    ParseValue(lines, args, i + 1, conf.(cmdlineNeeds := conf.cmdlineNeeds["-s" := true]), Symbol, jconf);
  }

  /** `-i` then a value at position i sets the instance Atoi reads and marks -i seen, or fails with Atoi's error. */
  lemma InstanceStep(lines: seq<CmdLineItem>, args: seq<string>, i: nat, conf: Configuration, jconf: JsonConf)
    requires SwitchesStart(lines)
    requires i + 1 < |args| && args[i] == "-i"
    ensures var inst := GoStrconv.Atoi(args[i + 1]);
      ParseFrom(lines, args, i, conf, None, jconf) ==
        if inst.Err? then Err(inst.error)
        else ParseFrom(lines, args, i + 2, conf.(instance := inst.value, cmdlineNeeds := conf.cmdlineNeeds["-i" := true]), None, jconf)
  {
    assert lines[0].switch[1] != 'i' && lines[1].switch[1] != 'i';
    ParseSwitch(lines, args, i, 2, conf, jconf);
    ParseValue(lines, args, i + 1, conf.(cmdlineNeeds := conf.cmdlineNeeds["-i" := true]), Instance, jconf);
  }

  /**
   * `-s` and `-i` with their values give the default configuration with that
   * symbol and instance; a value Atoi refuses is reported with Atoi's message.
   */
  lemma SymbolAndInstance(lines: seq<CmdLineItem>, args: seq<string>, jconf: JsonConf)
    requires SwitchesStart(lines) && NoneNeededFrom(lines, 3)
    requires |args| == 4 && args[0] == "-s" && args[2] == "-i"
    ensures var r := ArgsParseOf(lines, args, jconf);
      var inst := GoStrconv.Atoi(args[3]);
      (inst.Ok? ==>
        r == Ok(DefaultConfig.(symbol := args[1], instance := inst.value,
                               cmdlineNeeds := map["-s" := true, "-i" := true]))) &&
      (inst.Err? ==> r == Err(inst.error))
  {
    ArgsParseStart(lines, args, jconf);
    SymbolStep(lines, args, 0, StartConf, jconf);
    var c2 := StartConf.(symbol := args[1], cmdlineNeeds := map["-s" := true, "-i" := false]);
    assert StartConf.cmdlineNeeds["-s" := true] == c2.cmdlineNeeds;
    InstanceStep(lines, args, 2, c2, jconf);
    assert c2.cmdlineNeeds["-i" := true] == map["-s" := true, "-i" := true];
  }

  /** A switch that needs a value as the last argument: "Missing switch arg". */
  lemma TrailingSwitch(lines: seq<CmdLineItem>, args: seq<string>, jconf: JsonConf)
    requires SwitchesStart(lines) && NoneNeededFrom(lines, 3)
    requires |args| == 3 && args[0] == "-i" && GoStrconv.Atoi(args[1]).Ok? && args[2] == "-s"
    ensures ArgsParseOf(lines, args, jconf) == Err("Missing switch arg")
  {
    ArgsParseStart(lines, args, jconf);
    InstanceStep(lines, args, 0, StartConf, jconf);
    var c2 := StartConf.(instance := GoStrconv.Atoi(args[1]).value, cmdlineNeeds := StartConf.cmdlineNeeds["-i" := true]);
    assert lines[0].switch[1] != 's';
    ParseSwitch(lines, args, 2, 1, c2, jconf);
  }

  /**
   * `-p` is pushed twice; the first item, the password, always matches first,
   * so `-p` sets the password and the port switch is never reached.
   */
  lemma PortSwitchShadowed(conf: Configuration, v: string, jconf: JsonConf)
    ensures WellFormed(CmdLineItems)
    ensures MatchFrom(CmdLineItems, 0, "-p", conf, jconf) == Continue(conf, Some(DBPass))
    ensures Apply(DBPass, conf, [v], jconf) == Ok(conf.(dbPassword := v))
  {
    StandardTable();
    MatchAt(CmdLineItems, 0, 5, "-p", conf, jconf);
  }

  /** A token that names no switch, where a switch is expected, leaves the configuration unchanged. */
  lemma {:induction false} UnknownTokenIgnored(lines: seq<CmdLineItem>, j: nat, tok: string, conf: Configuration, jconf: JsonConf)
    requires j <= |lines| && WellFormed(lines)
    requires forall k :: j <= k < |lines| ==> lines[k].switch != tok
    ensures MatchFrom(lines, j, tok, conf, jconf) == Continue(conf, None)
    decreases |lines| - j
  {
    if j < |lines| {
      UnknownTokenIgnored(lines, j + 1, tok, conf, jconf);
    }
  }
}
