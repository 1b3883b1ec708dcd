/**
 * The part of Go's `strconv` the command-line handlers rely on: `Atoi`
 * on a 64-bit platform, with its two error messages, and the decimal
 * rendering `Itoa` it inverts.
 */
module GoStrconv {
  import opened Wrappers

  const MaxInt64: int := 0x7fff_ffff_ffff_ffff
  const MinInt64: int := -0x8000_0000_0000_0000
  const MaxUint64: int := 0xffff_ffff_ffff_ffff

  predicate IsDigit(c: char)
  {
    '0' <= c <= '9'
  }

  predicate AllDigits(s: string)
  {
    forall i :: 0 <= i < |s| ==> IsDigit(s[i])
  }

  /** The number a run of decimal digits spells, most significant first. */
  function Value(ds: string): nat
    requires AllDigits(ds)
  {
    if ds == [] then 0 else 10 * Value(ds[..|ds| - 1]) + (ds[|ds| - 1] as int - '0' as int)
  }

  /** The length of the longest run of digits s starts with. */
  function DigitRun(s: string): (k: nat)
    ensures k <= |s| && AllDigits(s[..k])
    ensures k < |s| ==> !IsDigit(s[k])
  {
    if s == [] || !IsDigit(s[0]) then 0
    else
      var k := 1 + DigitRun(s[1..]);
      assert s[..k] == [s[0]] + s[1..][..k - 1];
      k
  }

  /** A control character Go writes as a backslash and a letter: `\a \b \f \n \r \t \v`. */
  function LetterOf(c: char): Option<char>
  {
    if c == 7 as char then Some('a') else if c == 8 as char then Some('b')
    else if c == 12 as char then Some('f') else if c == '\n' then Some('n')
    else if c == '\r' then Some('r') else if c == '\t' then Some('t')
    else if c == 11 as char then Some('v') else None
  }

  /** The control character a backslash and letter stand for. */
  function Lettered(l: char): Option<char>
  {
    if l == 'a' then Some(7 as char) else if l == 'b' then Some(8 as char)
    else if l == 'f' then Some(12 as char) else if l == 'n' then Some('\n')
    else if l == 'r' then Some('\r') else if l == 't' then Some('\t')
    else if l == 'v' then Some(11 as char) else None
  }

  /** The lower-case hexadecimal digit for d. */
  function HexDigit(d: int): (h: char)
    requires 0 <= d < 16
    ensures '0' <= h <= '9' || 'a' <= h <= 'f'
  {
    if d < 10 then ('0' as int + d) as char else ('a' as int + d - 10) as char
  }

  predicate IsHexDigit(h: char)
  {
    '0' <= h <= '9' || 'a' <= h <= 'f'
  }

  function HexValue(h: char): (d: int)
    requires IsHexDigit(h)
    ensures 0 <= d < 16
  {
    if h <= '9' then h as int - '0' as int else h as int - 'a' as int + 10
  }

  /** An ASCII control character, or DEL. */
  predicate IsControl(c: char)
  {
    c < ' ' || c == 127 as char
  }

  /**
   * How `strconv.Quote` writes one character: quote and backslash behind a
   * backslash, printable ASCII as it is, seven control characters by
   * letter, the other control characters and DEL as `\x` and two lower-case
   * hex digits; a character past ASCII is written as it is.
   */
  function EscapeChar(c: char): (e: string)
    ensures c == '"' || c == '\\' ==> e == ['\\', c]
    ensures ' ' <= c <= '~' && c != '"' && c != '\\' ==> e == [c]
    ensures IsControl(c) ==> |e| >= 2 && e[0] == '\\' && forall k :: 0 <= k < |e| ==> ' ' <= e[k] <= '~'
    ensures c > '~' && c != 127 as char ==> e == [c]
  {
    if c == '"' || c == '\\' then ['\\', c]
    else if ' ' <= c <= '~' then [c]
    else if LetterOf(c).Some? then ['\\', LetterOf(c).value]
    else if IsControl(c) then ['\\', 'x', HexDigit(c as int / 16), HexDigit(c as int % 16)]
    else [c]
  }

  /** The body of `strconv.Quote`: each character escaped in turn. */
  function Escape(s: string): string
  {
    if s == [] then "" else EscapeChar(s[0]) + Escape(s[1..])
  }

  function Quote(s: string): string
  {
    "\"" + Escape(s) + "\""
  }

  /** Reads back the escapes `EscapeChar` writes; None on any other backslash sequence. */
  function Unescape(e: string): Option<string>
    decreases |e|
  {
    if e == [] then Some([])
    else if e[0] != '\\' then
      var rest := Unescape(e[1..]);
      if rest.None? then None else Some([e[0]] + rest.value)
    else if |e| >= 2 && (e[1] == '"' || e[1] == '\\') then
      var rest := Unescape(e[2..]);
      if rest.None? then None else Some([e[1]] + rest.value)
    else if |e| >= 2 && Lettered(e[1]).Some? then
      var rest := Unescape(e[2..]);
      if rest.None? then None else Some([Lettered(e[1]).value] + rest.value)
    else if |e| >= 4 && e[1] == 'x' && IsHexDigit(e[2]) && IsHexDigit(e[3]) then
      var rest := Unescape(e[4..]);
      if rest.None? then None else Some([(16 * HexValue(e[2]) + HexValue(e[3])) as char] + rest.value)
    else None
  }

  /** What reading back a prefix and then the rest gives. */
  function Prepend(c: char, rest: Option<string>): Option<string>
  {
    if rest.None? then None else Some([c] + rest.value)
  }

  lemma UnescapeOne(c: char, rest: string)
    requires c != '\\'
    ensures Unescape([c] + rest) == Prepend(c, Unescape(rest))
  {
    assert ([c] + rest)[1..] == rest;
  }

  lemma UnescapeTwo(l: char, c: char, rest: string)
    requires (l == c && (c == '"' || c == '\\')) || (Lettered(l) == Some(c) && l != '"' && l != '\\')
    ensures Unescape(['\\', l] + rest) == Prepend(c, Unescape(rest))
  {
    assert (['\\', l] + rest)[2..] == rest;
  }

  lemma UnescapeHex(c: char, rest: string)
    requires c as int < 128
    ensures Unescape(['\\', 'x', HexDigit(c as int / 16), HexDigit(c as int % 16)] + rest) == Prepend(c, Unescape(rest))
  {
    var e := ['\\', 'x', HexDigit(c as int / 16), HexDigit(c as int % 16)] + rest;
    assert e[4..] == rest;
    assert Lettered('x').None?;
    assert HexValue(HexDigit(c as int / 16)) == c as int / 16;
    assert HexValue(HexDigit(c as int % 16)) == c as int % 16;
  }

  /** Reading back one escaped character in front of any escaped text gives the character in front of that text. */
  lemma UnescapeChar(c: char, rest: string)
    ensures Unescape(EscapeChar(c) + rest) == Prepend(c, Unescape(rest))
  {
    if c == '"' || c == '\\' {
      UnescapeTwo(c, c, rest);
    } else if ' ' <= c <= '~' {
      UnescapeOne(c, rest);
    } else if LetterOf(c).Some? {
      UnescapeTwo(LetterOf(c).value, c, rest);
    } else if IsControl(c) {
      UnescapeHex(c, rest);
    } else {
      UnescapeOne(c, rest);
    }
  }

  /** The escapes of Quote's body read back to the text: Quote never maps two texts to one. */
  lemma {:induction false} UnescapeEscape(s: string)
    ensures Unescape(Escape(s)) == Some(s)
  {
    if s != [] {
      UnescapeEscape(s[1..]);
      UnescapeChar(s[0], Escape(s[1..]));
      assert [s[0]] + s[1..] == s;
    }
  }

  /** Quote's output holds no ASCII control character and no DEL. */
  lemma {:induction false} EscapeNoControl(s: string)
    ensures forall k :: 0 <= k < |Escape(s)| ==> !IsControl(Escape(s)[k])
  {
    if s != [] {
      EscapeNoControl(s[1..]);
      var h := EscapeChar(s[0]);
      forall k | 0 <= k < |Escape(s)| ensures !IsControl(Escape(s)[k]) {
        if k >= |h| {
          assert Escape(s)[k] == Escape(s[1..])[k - |h|];
        }
      }
    }
  }

  /** Two inputs Atoi rejects with the same kind of error are told apart by the message. */
  lemma QuoteInjective(s: string, t: string)
    requires Quote(s) == Quote(t)
    ensures s == t
  {
    assert Escape(s) == Quote(s)[1..|Quote(s)| - 1];
    assert Escape(t) == Quote(t)[1..|Quote(t)| - 1];
    UnescapeEscape(s);
    UnescapeEscape(t);
  }

  function SyntaxError(s: string): string
  {
    "strconv.Atoi: parsing " + Quote(s) + ": invalid syntax"
  }

  function RangeError(s: string): string
  {
    "strconv.Atoi: parsing " + Quote(s) + ": value out of range"
  }

  /** s without the one leading sign Atoi accepts. */
  function Unsigned(s: string): string
  {
    if |s| > 0 && (s[0] == '-' || s[0] == '+') then s[1..] else s
  }

  predicate Negative(s: string)
  {
    |s| > 0 && s[0] == '-'
  }

  /**
   * `strconv.Atoi`: an optional sign, then decimal digits. Digits are read
   * left to right and the first failure wins: a value past 2^64 - 1 before
   * the first non-digit is out of range, a non-digit (or no digit at all)
   * is a syntax error, and a complete value outside the int64 range is out
   * of range.
   */
  function Atoi(s: string): (r: Result<int, string>)
    ensures r.Ok? ==> MinInt64 <= r.value <= MaxInt64
    ensures r.Err? ==> r.error == SyntaxError(s) || r.error == RangeError(s)
  {
    var body := Unsigned(s);
    if body == [] then Err(SyntaxError(s))
    else
      var k := DigitRun(body);
      var v: int := Value(body[..k]);
      if v > MaxUint64 then Err(RangeError(s))
      else if k < |body| then Err(SyntaxError(s))
      else if Negative(s) && v > -MinInt64 then Err(RangeError(s))
      else if !Negative(s) && v > MaxInt64 then Err(RangeError(s))
      else Ok(if Negative(s) then -v else v)
  }

  /** The decimal digits of n, without leading zeros. */
  function Digits(n: nat): (ds: string)
    ensures |ds| > 0 && AllDigits(ds)
  {
    var d := ['0' + ((n % 10) as char)];
    if n < 10 then d else Digits(n / 10) + d
  }

  /** `strconv.Itoa`: a minus sign before the digits of a negative number. */
  function Itoa(n: int): string
  {
    if n < 0 then "-" + Digits(-n) else Digits(n)
  }

  lemma {:induction false} ValueDigits(n: nat)
    ensures Value(Digits(n)) == n
  {
    var ds := Digits(n);
    if n >= 10 {
      assert ds[..|ds| - 1] == Digits(n / 10);
      ValueDigits(n / 10);
    }
  }

  lemma DigitRunAll(s: string)
    requires AllDigits(s)
    ensures DigitRun(s) == |s|
  {
  }

  /** Atoi reads back every int64 Itoa writes. */
  lemma AtoiItoa(n: int)
    requires MinInt64 <= n <= MaxInt64
    ensures Atoi(Itoa(n)) == Ok(n)
  {
    var ds := if n < 0 then Digits(-n) else Digits(n);
    assert Unsigned(Itoa(n)) == ds by {
      if n < 0 {
        assert Itoa(n)[1..] == ds;
      }
    }
    DigitRunAll(ds);
    assert ds[..|ds|] == ds;
    ValueDigits(if n < 0 then -n else n);
  }

  /** Atoi succeeds exactly on a sign and a non-empty run of digits whose value fits in an int64. */
  lemma AtoiOk(s: string)
    ensures Atoi(s).Ok? <==>
      Unsigned(s) != [] && AllDigits(Unsigned(s)) &&
      (if Negative(s) then Value(Unsigned(s)) <= -MinInt64 else Value(Unsigned(s)) <= MaxInt64)
    ensures Atoi(s).Ok? ==> Atoi(s).value == if Negative(s) then -(Value(Unsigned(s)) as int) else Value(Unsigned(s))
  {
    var body := Unsigned(s);
    if body != [] && AllDigits(body) {
      DigitRunAll(body);
      assert body[..|body|] == body;
    }
  }
}
