/**
 * The replay datasource of the navigator's tests (`sqlMock`): six tables of
 * canned answers, filled by the `LOAD*` methods and read back by the
 * getters, the table of `symbSubsys` answers being keyed by the 32-bit
 * `murmurHash3` of the id list. Keys are `(id, instance)` pairs.
 */
module SqlMock {
  import opened Wrappers
  import opened NavTypes
  import opened SqlDb
  import opened Murmur3

  // ---------------------------------------------------------------------------
  // Tables

  /**
   * Reading a Go map of `(value, error)` structs: a key never stored gives
   * the struct's zero value, that is the value type's zero and a nil error.
   */
  function Find<K(==), V>(m: map<K, Reply<V>>, k: K, zero: V): (r: Reply<V>)
    ensures k in m ==> r == m[k]
    ensures k !in m ==> r.value == zero && r.err == None
  {
    if k in m then m[k] else Reply(zero, None)
  }

  /** Storing under k answers the stored pair for k and leaves every other key as it was. */
  lemma FindStored<K, V>(m: map<K, Reply<V>>, k: K, v: Reply<V>, k2: K, zero: V)
    ensures Find(m[k := v], k2, zero) == if k2 == k then v else Find(m, k2, zero)
  {
  }

  /**
   * After a list is loaded, a lookup of any list with the same hash finds
   * that answer, whether or not the lists are equal, and a lookup of a list
   * with another hash finds what it found before.
   */
  lemma LookupByHash(table: map<(bv32, int), Reply<string>>, loaded: seq<int>, asked: seq<int>,
                     instance: int, v: Reply<string>)
    ensures Murmur(asked) == Murmur(loaded)
        ==> Find(table[(Murmur(loaded), instance) := v], (Murmur(asked), instance), "") == v
    ensures Murmur(asked) != Murmur(loaded)
        ==> (Find(table[(Murmur(loaded), instance) := v], (Murmur(asked), instance), "")
             == Find(table, (Murmur(asked), instance), ""))
  {
    FindStored(table, (Murmur(loaded), instance), v, (Murmur(asked), instance), "");
  }

  // ---------------------------------------------------------------------------
  // The mock

  class SqlMockDB {
    var exploredValues: map<string, string>
    var successorsValues: map<(int, int), Reply<seq<Entry>>>
    var subsysValues: map<(string, int), Reply<string>>
    var sym2numValues: map<(string, int), Reply<int>>
    var symbSubsysValues: map<(bv32, int), Reply<string>>
    var entryValues: map<(int, int), Reply<Entry>>

    /** Everything the mock holds, as one value. */
    function Tables(): (map<string, string>, map<(int, int), Reply<seq<Entry>>>, map<(string, int), Reply<string>>,
                        map<(string, int), Reply<int>>, map<(bv32, int), Reply<string>>, map<(int, int), Reply<Entry>>)
      reads this
    {
      (exploredValues, successorsValues, subsysValues, sym2numValues, symbSubsysValues, entryValues)
    }

    predicate Empty()
      reads this
    {
      exploredValues == map[] && successorsValues == map[] && subsysValues == map[]
      && sym2numValues == map[] && symbSubsysValues == map[] && entryValues == map[]
    }

    constructor()
      ensures Empty()
    {
      exploredValues := map[];
      successorsValues := map[];
      subsysValues := map[];
      sym2numValues := map[];
      symbSubsysValues := map[];
      entryValues := map[];
    }

    /** `init`: all six tables made empty; it never fails. The argument is ignored. */
    method Init() returns (err: Option<string>)
      modifies this
      ensures Empty() && err == None
    {
      exploredValues := map[];
      successorsValues := map[];
      subsysValues := map[];
      sym2numValues := map[];
      symbSubsysValues := map[];
      entryValues := map[];
      err := None;
    }

    method LoadExploredSubsystemByName(subs: string, explored: string)
      modifies this
      ensures Tables() == old(Tables()).(0 := old(exploredValues)[subs := explored])
      ensures GetExploredSubsystemByName(subs) == explored
    {
      exploredValues := exploredValues[subs := explored];
    }

    method LoadSuccessorsById(symbolId: int, instance: int, es: seq<Entry>, err: Option<string>)
      modifies this
      ensures Tables() == old(Tables()).(1 := old(successorsValues)[(symbolId, instance) := Reply(es, err)])
      ensures GetSuccessorsById(symbolId, instance) == Reply(es, err)
    {
      successorsValues := successorsValues[(symbolId, instance) := Reply(es, err)];
    }

    method LoadSubsysFromSymbolName(symbol: string, instance: int, subsysN: string, err: Option<string>)
      modifies this
      ensures Tables() == old(Tables()).(2 := old(subsysValues)[(symbol, instance) := Reply(subsysN, err)])
      ensures GetSubsysFromSymbolName(symbol, instance) == Reply(subsysN, err)
    {
      subsysValues := subsysValues[(symbol, instance) := Reply(subsysN, err)];
    }

    method LoadSym2Num(symb: string, instance: int, num: int, err: Option<string>)
      modifies this
      ensures Tables() == old(Tables()).(3 := old(sym2numValues)[(symb, instance) := Reply(num, err)])
      ensures Sym2Num(symb, instance) == Reply(num, err)
    {
      sym2numValues := sym2numValues[(symb, instance) := Reply(num, err)];
    }

    method LoadSymbSubsys(symblist: seq<int>, instance: int, subsysN: string, err: Option<string>)
      modifies this
      ensures Tables() == old(Tables()).(4 := old(symbSubsysValues)[(Murmur(symblist), instance) := Reply(subsysN, err)])
      ensures SymbSubsysAnswer(symblist, instance) == Reply(subsysN, err)
    {
      var h := MurmurHash3(symblist);
      symbSubsysValues := symbSubsysValues[(h, instance) := Reply(subsysN, err)];
    }

    method LoadEntryById(symbolId: int, instance: int, e: Entry, err: Option<string>)
      modifies this
      ensures Tables() == old(Tables()).(5 := old(entryValues)[(symbolId, instance) := Reply(e, err)])
      ensures GetEntryById(symbolId, instance) == Reply(e, err)
    {
      entryValues := entryValues[(symbolId, instance) := Reply(e, err)];
    }

    /** `GetExploredSubsystemByName`: the stored name, or "" when none was loaded. */
    function GetExploredSubsystemByName(subs: string): (r: string)
      reads this
      ensures subs in exploredValues ==> r == exploredValues[subs]
      ensures subs !in exploredValues ==> r == ""
    {
      if subs in exploredValues then exploredValues[subs] else ""
    }

    function GetSuccessorsById(symbolId: int, instance: int): Reply<seq<Entry>>
      reads this
    {
      Find(successorsValues, (symbolId, instance), [])
    }

    function GetSubsysFromSymbolName(symbol: string, instance: int): Reply<string>
      reads this
    {
      Find(subsysValues, (symbol, instance), "")
    }

    function Sym2Num(symb: string, instance: int): Reply<int>
      reads this
    {
      Find(sym2numValues, (symb, instance), 0)
    }

    function GetEntryById(symbolId: int, instance: int): Reply<Entry>
      reads this
    {
      Find(entryValues, (symbolId, instance), ZeroEntry)
    }

    /** The stored symbSubsys answer for the hash of a list. */
    function SymbSubsysAnswer(symblist: seq<int>, instance: int): Reply<string>
      reads this
    {
      Find(symbSubsysValues, (Murmur(symblist), instance), "")
    }

    /** `symbSubsys`: hashes the list, then reads the table; it changes nothing. */
    method SymbSubsys(symblist: seq<int>, instance: int) returns (subsysN: string, err: Option<string>)
      ensures Reply(subsysN, err) == SymbSubsysAnswer(symblist, instance)
    {
      var h := MurmurHash3(symblist);
      var r := Find(symbSubsysValues, (h, instance), "");
      subsysN, err := r.value, r.err;
    }
  }
}
