/**
 * The value types of the navigator (ks-nav/nav/db_util.go): call-graph
 * entries, display nodes, adjacency pairs, the output modes, and the
 * two-argument `fmt.Sprintf` templates used to print an edge.
 */
module NavTypes {
  import opened Wrappers

  /** `outMode`: the four modes `navigate` handles; any other value panics there. */
  datatype OutMode = PrintAll | PrintSubsys | PrintSubsysWs | PrintTargeted

  /** The numeric value of each mode; `OutModeLast` is 5. */
  function ModeCode(m: OutMode): int
  {
    match m
    case PrintAll => 1
    case PrintSubsys => 2
    case PrintSubsysWs => 3
    case PrintTargeted => 4
  }

  const OutModeLast: int := 5

  /** The mode with a given numeric value, if the value names one. */
  function ModeOfCode(c: int): (m: Option<OutMode>)
    ensures m.Some? <==> 1 <= c < OutModeLast
    ensures m.Some? ==> ModeCode(m.value) == c
  {
    if c == 1 then Some(PrintAll)
    else if c == 2 then Some(PrintSubsys)
    else if c == 3 then Some(PrintSubsysWs)
    else if c == 4 then Some(PrintTargeted)
    else None
  }

  lemma ModeCodeRoundTrip(m: OutMode)
    ensures 1 <= ModeCode(m) < OutModeLast && ModeOfCode(ModeCode(m)) == Some(m)
  {
  }

  /** Subsystem name given to symbols the database assigns to none. */
  const SubsysUndef: string := "The REST"

  /** `node`: what is displayed for one end of an edge. */
  datatype Node = Node(subsys: string, symbol: string, sourceRef: string, addressRef: string)

  const ZeroNode: Node := Node("", "", "", "")

  /** `adjM`: a pair of nodes joined by a subsystem-crossing edge. */
  datatype AdjM = AdjM(l: Node, r: Node)

  /** `entry`: a symbol as the datasource returns it. */
  datatype Entry = Entry(symbol: string, fn: string, sourceRef: string, addressRef: string,
                         subsys: seq<string>, symId: int)

  const ZeroEntry: Entry := Entry("", "", "", "", [], 0)

  function SymId(e: Entry): int { e.symId }

  /** `edge`: one row of the cross-reference table. */
  datatype Edge = Edge(sourceRef: string, addressRef: string, caller: int, callee: int)

  /**
   * A format string given to `fmt.Sprintf(f, a, b)`: either one with two
   * `%s` verbs, `pre%smid%spost`, or the empty format, for which Go prints
   * the surplus arguments as `%!(EXTRA string=a, string=b)`.
   */
  datatype DotFmt = Verbs(pre: string, mid: string, post: string) | NoVerbs

  function Sprintf2(f: DotFmt, a: string, b: string): (s: string)
    ensures f.Verbs? ==> |s| == |f.pre| + |a| + |f.mid| + |b| + |f.post|
    ensures f.Verbs? && f.pre + f.mid + f.post != "" ==> s != ""
    ensures f.NoVerbs? ==> s != ""
  {
    match f
    case Verbs(pre, mid, post) => pre + a + mid + b + post
    case NoVerbs => "%!(EXTRA string=" + a + ", string=" + b + ")"
  }

  /** The template `"%s"->"%s" \n` the graph-only outputs use. */
  const PlainDot: DotFmt := Verbs("\"", "\"->\"", "\" \n")
}
