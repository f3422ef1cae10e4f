/**
 * The JavaScript string built-ins the client relies on, over `seq<char>`:
 * `String.prototype.trim`, `Array.prototype.join` on strings, `split` on one
 * character, and `parseInt(s, 16)` together with the `ToUint8` conversion that
 * `DataView.setUint8` applies to its argument (both as ECMA-262 defines them).
 */
module JsString {
  import opened Wrappers

  newtype byte = x: int | 0 <= x < 256

  /** The ECMA-262 WhiteSpace and LineTerminator code points, which `trim` and `parseInt` skip. */
  predicate IsWhiteSpace(c: char) {
    || c == '\t' || c == '\n' || c == '\U{000B}' || c == '\U{000C}' || c == '\r'
    || c == ' ' || c == '\U{00A0}' || c == '\U{1680}'
    || ('\U{2000}' <= c <= '\U{200A}')
    || c == '\U{2028}' || c == '\U{2029}' || c == '\U{202F}' || c == '\U{205F}'
    || c == '\U{3000}' || c == '\U{FEFF}'
  }

  // ---------------------------------------------------------------- trimming

  /** `s` with its leading white space removed. */
  function TrimStart(s: string): (r: string)
    ensures |r| <= |s| && r == s[|s| - |r|..]
    ensures forall i :: 0 <= i < |s| - |r| ==> IsWhiteSpace(s[i])
    ensures r != [] ==> !IsWhiteSpace(r[0])
  {
    if s != [] && IsWhiteSpace(s[0]) then TrimStart(s[1..]) else s
  }

  /** `s` with its trailing white space removed. */
  function TrimEnd(s: string): (r: string)
    ensures |r| <= |s| && r == s[..|r|]
    ensures forall i :: |r| <= i < |s| ==> IsWhiteSpace(s[i])
    ensures r != [] ==> !IsWhiteSpace(r[|r| - 1])
  {
    if s != [] && IsWhiteSpace(s[|s| - 1]) then TrimEnd(s[..|s| - 1]) else s
  }

  /**
   * `String.prototype.trim`: the infix of `s` left after removing white space at
   * both ends. `i` is where it starts; everything before and after it is white space.
   */
  function Trim(s: string): (r: string)
    ensures r != [] ==> !IsWhiteSpace(r[0]) && !IsWhiteSpace(r[|r| - 1])
    ensures Lead(s) + |r| <= |s| && r == s[Lead(s)..Lead(s) + |r|]
    ensures forall k :: 0 <= k < Lead(s) ==> IsWhiteSpace(s[k])
    ensures forall k :: Lead(s) + |r| <= k < |s| ==> IsWhiteSpace(s[k])
  {
    TrimEnd(TrimStart(s))
  }

  /** How many white-space characters `trim` removes from the start of `s`. */
  function Lead(s: string): (n: nat)
    ensures n <= |s|
  {
    |s| - |TrimStart(s)|
  }

  /** A string made only of white space trims to the empty string. */
  lemma {:induction false} TrimAllWhiteSpace(s: string)
    requires forall i :: 0 <= i < |s| ==> IsWhiteSpace(s[i])
    ensures TrimStart(s) == [] && Trim(s) == []
  {
    if s != [] {
      TrimAllWhiteSpace(s[1..]);
    }
  }

  /** A string without white space at its ends is left alone by `trim`. */
  lemma TrimKeeps(s: string)
    requires s != [] && !IsWhiteSpace(s[0]) && !IsWhiteSpace(s[|s| - 1])
    ensures Trim(s) == s
  {
  }

  // ------------------------------------------------------------- join, split

  /** `Array.prototype.join(sep)` over strings. */
  function Join(ss: seq<string>, sep: string): (r: string)
    ensures |ss| == 0 ==> r == []
    ensures |ss| == 1 ==> r == ss[0]
  {
    if |ss| == 0 then [] else if |ss| == 1 then ss[0] else ss[0] + sep + Join(ss[1..], sep)
  }

  /** Three strings joined: each separated from the next by `sep`. */
  lemma JoinThree(a: string, b: string, c: string, sep: string)
    ensures Join([a, b, c], sep) == a + sep + b + sep + c
  {
    assert [a, b, c][1..] == [b, c];
    assert [b, c][1..] == [c];
  }

  /** Joining the empty string in is the same as putting the separator twice. */
  lemma JoinCons(s: string, ss: seq<string>, sep: string)
    requires ss != []
    ensures Join([s] + ss, sep) == s + sep + Join(ss, sep)
  {
    assert ([s] + ss)[1..] == ss;
  }

  /** A join starts with its first part and ends with its last. */
  lemma {:induction false} JoinEnds(ss: seq<string>, sep: string)
    requires |ss| >= 1
    ensures |Join(ss, sep)| >= |ss[0]| && Join(ss, sep)[..|ss[0]|] == ss[0]
    ensures |Join(ss, sep)| >= |ss[|ss| - 1]| && Join(ss, sep)[|Join(ss, sep)| - |ss[|ss| - 1]|..] == ss[|ss| - 1]
  {
    if |ss| > 1 {
      JoinEnds(ss[1..], sep);
      var rest := Join(ss[1..], sep);
      assert Join(ss, sep) == ss[0] + (sep + rest);
      assert (ss[0] + (sep + rest))[..|ss[0]|] == ss[0];
      assert ss[1..][|ss[1..]| - 1] == ss[|ss| - 1];
    }
  }

  /** `String.prototype.split(c)` for a one-character separator. */
  function Split(s: string, c: char): (r: seq<string>)
    ensures |r| >= 1
  {
    if s == [] then [[]]
    else
      var rest := Split(s[1..], c);
      if s[0] == c then [[]] + rest else [[s[0]] + rest[0]] + rest[1..]
  }

  lemma {:induction false} SplitNoSeparator(s: string, c: char)
    requires c !in s
    ensures Split(s, c) == [s]
  {
    if s != [] {
      SplitNoSeparator(s[1..], c);
      assert [s[0]] + s[1..] == s;
    }
  }

  lemma {:induction false} SplitAtFirst(a: string, b: string, c: char)
    requires c !in a
    ensures Split(a + [c] + b, c) == [a] + Split(b, c)
  {
    if a == [] {
      assert (a + [c] + b)[1..] == b;
    } else {
      assert (a + [c] + b)[1..] == a[1..] + [c] + b;
      SplitAtFirst(a[1..], b, c);
      assert [a[0]] + a[1..] == a;
    }
  }

  /** Splitting a join on its one-character separator gives the parts back, when no part contains it. */
  lemma {:induction false} SplitJoin(ss: seq<string>, c: char)
    requires |ss| >= 1
    requires forall i :: 0 <= i < |ss| ==> c !in ss[i]
    ensures Split(Join(ss, [c]), c) == ss
  {
    if |ss| == 1 {
      SplitNoSeparator(ss[0], c);
    } else {
      SplitJoin(ss[1..], c);
      SplitAtFirst(ss[0], Join(ss[1..], [c]), c);
      assert [ss[0]] + ss[1..] == ss;
    }
  }

  // ------------------------------------------------------------ parseInt, 16

  predicate IsHexDigit(c: char) {
    '0' <= c <= '9' || 'a' <= c <= 'f' || 'A' <= c <= 'F'
  }

  function HexValue(c: char): (v: nat)
    requires IsHexDigit(c)
    ensures v < 16
  {
    if '0' <= c <= '9' then c as nat - '0' as nat
    else if 'a' <= c <= 'f' then c as nat - 'a' as nat + 10
    else c as nat - 'A' as nat + 10
  }

  /** The lower-case hex digit of `v`. */
  function HexChar(v: nat): (c: char)
    requires v < 16
    ensures IsHexDigit(c) && HexValue(c) == v
  {
    if v < 10 then ('0' as int + v) as char else ('a' as int + v - 10) as char
  }

  /** Length of the longest prefix of `s` made of hex digits. */
  function HexRun(s: string): (n: nat)
    ensures n <= |s|
    ensures forall i :: 0 <= i < n ==> IsHexDigit(s[i])
    ensures n < |s| ==> !IsHexDigit(s[n])
  {
    if s != [] && IsHexDigit(s[0]) then 1 + HexRun(s[1..]) else 0
  }

  /** The number that a string of hex digits denotes, most significant digit first. */
  function HexNumber(s: string): nat
    requires forall i :: 0 <= i < |s| ==> IsHexDigit(s[i])
  {
    if s == [] then 0 else 16 * HexNumber(s[..|s| - 1]) + HexValue(s[|s| - 1])
  }

  /**
   * `parseInt(s, 16)`: skip leading white space, read an optional sign, drop a
   * `0x`/`0X` prefix, then read the longest run of hex digits. `None` is NaN,
   * returned when that run is empty.
   */
  function ParseIntHex(s: string): (r: Option<int>)
  {
    var t := TrimStart(s);
    var v := DropHexPrefix(DropSign(t));
    var n := HexRun(v);
    if n == 0 then None
    else if t[0] == '-' then Some(-(HexNumber(v[..n]) as int))
    else Some(HexNumber(v[..n]))
  }

  /** `t` without a leading `+` or `-`. */
  function DropSign(t: string): (u: string)
    ensures |u| <= |t|
  {
    if t != [] && (t[0] == '-' || t[0] == '+') then t[1..] else t
  }

  /** `u` without a leading `0x` or `0X`. */
  function DropHexPrefix(u: string): (v: string)
    ensures |v| <= |u|
  {
    if |u| >= 2 && u[0] == '0' && (u[1] == 'x' || u[1] == 'X') then u[2..] else u
  }

  /** The value of a string that is one hex digit. */
  lemma HexNumberOne(c: char)
    requires IsHexDigit(c)
    ensures HexRun([c]) == 1 && HexNumber([c][..1]) == HexValue(c)
  {
    assert [c][..1] == [c] && [c][..0] == [];
  }

  /** ECMA-262 ToUint8: NaN becomes 0, any other integer is taken modulo 256. */
  function ToUint8(n: Option<int>): (b: byte)
    ensures n.Some? ==> b as int == n.value % 256
    ensures n.None? ==> b == 0
  {
    match n
    case None => 0
    case Some(v) => (v % 256) as byte
  }

  /**
   * The byte that `DataView.setUint8(i, parseInt(pair, 16))` stores for a
   * two-character pair, by cases on the pair (ByteOfIsParseInt shows that this
   * is `ToUint8(ParseIntHex(pair))`): two hex digits give their value, a hex
   * digit followed by anything else that digit (`0x` is an empty prefix, NaN);
   * leading white space or `+` leaves the second digit, `-` its negation modulo
   * 256; everything else is NaN, stored as 0.
   */
  function ByteOf(pair: string): (b: byte)
    requires |pair| == 2
  {
    var c0, c1 := pair[0], pair[1];
    if IsHexDigit(c0) then
      if c0 == '0' && (c1 == 'x' || c1 == 'X') then 0
      else if IsHexDigit(c1) then (16 * HexValue(c0) + HexValue(c1)) as byte
      else HexValue(c0) as byte
    else if (IsWhiteSpace(c0) || c0 == '+') && IsHexDigit(c1) then HexValue(c1) as byte
    else if c0 == '-' && IsHexDigit(c1) then ((256 - HexValue(c1)) % 256) as byte
    else 0
  }

  /** The case split of ByteOf agrees with the general `parseInt` followed by ToUint8. */
  lemma ByteOfIsParseInt(pair: string)
    requires |pair| == 2
    ensures ByteOf(pair) == ToUint8(ParseIntHex(pair))
  {
    if IsHexDigit(pair[0]) {
      ParseHexLead(pair);
    } else if IsWhiteSpace(pair[0]) {
      ParseSpaceLead(pair);
    } else if pair[0] == '+' || pair[0] == '-' {
      ParseSignLead(pair);
    } else {
      assert TrimStart(pair) == pair;
    }
  }

  lemma ParseHexLead(pair: string)
    requires |pair| == 2 && IsHexDigit(pair[0])
    ensures ByteOf(pair) == ToUint8(ParseIntHex(pair))
  {
    var c0, c1 := pair[0], pair[1];
    assert !IsWhiteSpace(c0) && c0 != '-' && c0 != '+';
    assert TrimStart(pair) == pair;
    assert DropSign(pair) == pair;
    if c0 == '0' && (c1 == 'x' || c1 == 'X') {
      assert DropHexPrefix(pair) == [];
    } else {
      assert DropHexPrefix(pair) == pair;
      ParseHexDigits(pair);
    }
  }

  lemma ParseHexDigits(pair: string)
    requires |pair| == 2 && IsHexDigit(pair[0]) && !(pair[0] == '0' && (pair[1] == 'x' || pair[1] == 'X'))
    ensures ByteOf(pair) as int == (HexNumber(pair[..HexRun(pair)]) as int) % 256
    ensures HexRun(pair) > 0
  {
    if IsHexDigit(pair[1]) {
      ParseHexPair(pair);
    } else {
      ParseHexSingle(pair);
    }
  }

  lemma ParseHexPair(pair: string)
    requires |pair| == 2 && IsHexDigit(pair[0]) && IsHexDigit(pair[1])
    ensures HexRun(pair) == 2 && HexNumber(pair[..2]) == 16 * HexValue(pair[0]) + HexValue(pair[1])
    ensures !(pair[0] == '0' && (pair[1] == 'x' || pair[1] == 'X')) ==> ByteOf(pair) as int == HexNumber(pair[..2]) % 256
  {
    assert pair[1..] == [pair[1]];
    HexNumberOne(pair[1]);
    assert pair[..2] == pair;
    assert pair[..|pair| - 1] == [pair[0]];
    HexNumberOne(pair[0]);
    var v := 16 * HexValue(pair[0]) + HexValue(pair[1]);
    assert 0 <= v < 256 && v % 256 == v;
  }

  lemma ParseHexSingle(pair: string)
    requires |pair| == 2 && IsHexDigit(pair[0]) && !IsHexDigit(pair[1])
    ensures HexRun(pair) == 1 && ByteOf(pair) as int == HexNumber(pair[..1]) % 256
  {
    assert pair[1..] == [pair[1]];
    assert pair[..1] == [pair[0]];
    HexNumberOne(pair[0]);
  }

  lemma ParseSpaceLead(pair: string)
    requires |pair| == 2 && IsWhiteSpace(pair[0])
    ensures ByteOf(pair) == ToUint8(ParseIntHex(pair))
  {
    var c1 := pair[1];
    assert pair[1..] == [c1];
    assert !IsHexDigit(pair[0]);
    if IsWhiteSpace(c1) {
      assert TrimStart(pair) == [];
    } else {
      assert TrimStart(pair) == [c1];
      if IsHexDigit(c1) {
        assert DropSign([c1]) == [c1] && DropHexPrefix([c1]) == [c1];
        HexNumberOne(c1);
      } else if c1 == '+' || c1 == '-' {
        assert DropSign([c1]) == [];
      } else {
        assert DropHexPrefix(DropSign([c1])) == [c1];
      }
    }
  }

  lemma ParseSignLead(pair: string)
    requires |pair| == 2 && (pair[0] == '+' || pair[0] == '-')
    ensures ByteOf(pair) == ToUint8(ParseIntHex(pair))
  {
    var c1 := pair[1];
    assert !IsWhiteSpace(pair[0]) && !IsHexDigit(pair[0]);
    assert TrimStart(pair) == pair;
    assert pair[1..] == [c1];
    assert DropSign(pair) == [c1];
    assert DropHexPrefix([c1]) == [c1];
    if IsHexDigit(c1) {
      HexNumberOne(c1);
    }
  }

  /** The two lower-case hex digits of a byte. */
  function HexPair(b: byte): (s: string)
    ensures |s| == 2
  {
    [HexChar(b as nat / 16), HexChar(b as nat % 16)]
  }

  /** Reading back the hex pair of a byte gives that byte. */
  lemma ByteOfHexPair(b: byte)
    ensures ByteOf(HexPair(b)) == b
  {
    var s := HexPair(b);
  }
}
