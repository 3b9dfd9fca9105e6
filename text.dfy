/** String operations the pages use: ASCII case mapping, substring search,
    `split`, `trim`, `parseInt` and number-to-string conversion. */
module Text {
  import opened Wrappers

  // ---------------------------------------------------------------------
  // Case mapping (ASCII stand-in for toLowerCase / toUpperCase)
  // ---------------------------------------------------------------------

  function LowerChar(c: char): char {
    if 'A' <= c <= 'Z' then (c as int + 32) as char else c
  }

  function UpperChar(c: char): char {
    if 'a' <= c <= 'z' then (c as int - 32) as char else c
  }

  function Lower(s: string): (r: string)
    ensures |r| == |s|
    ensures forall i :: 0 <= i < |s| ==> r[i] == LowerChar(s[i])
  {
    if s == [] then [] else [LowerChar(s[0])] + Lower(s[1..])
  }

  function Upper(s: string): (r: string)
    ensures |r| == |s|
    ensures forall i :: 0 <= i < |s| ==> r[i] == UpperChar(s[i])
  {
    if s == [] then [] else [UpperChar(s[0])] + Upper(s[1..])
  }

  /** Lower-casing twice is lower-casing once. */
  lemma LowerIdempotent(s: string)
    ensures Lower(Lower(s)) == Lower(s)
  {
    assert forall i :: 0 <= i < |s| ==> LowerChar(LowerChar(s[i])) == LowerChar(s[i]);
  }

  /** Lower-casing distributes over concatenation. */
  lemma LowerAppend(a: string, b: string)
    ensures Lower(a + b) == Lower(a) + Lower(b)
  {
    assert forall i :: 0 <= i < |a + b| ==> Lower(a + b)[i] == (Lower(a) + Lower(b))[i];
  }

  // ---------------------------------------------------------------------
  // Prefixes and substrings (`startsWith`, `includes`)
  // ---------------------------------------------------------------------

  predicate IsPrefix(p: string, s: string) {
    |p| <= |s| && s[..|p|] == p
  }

  /** `s.includes(sub)`: `sub` occurs at some position of `s`. */
  predicate IsSubstring(sub: string, s: string)
    decreases |s|
  {
    IsPrefix(sub, s) || (|s| > 0 && IsSubstring(sub, s[1..]))
  }

  /** `sub` occurs in `s` starting at index `i`. */
  predicate OccursAt(sub: string, s: string, i: int) {
    0 <= i <= |s| - |sub| && s[i..i + |sub|] == sub
  }

  /** The recursive `IsSubstring` agrees with the positional definition,
      in both directions. */
  lemma {:induction false} SubstringAt(sub: string, s: string)
    ensures IsSubstring(sub, s) <==> exists i :: OccursAt(sub, s, i)
    decreases |s|
  {
    if IsPrefix(sub, s) {
      assert OccursAt(sub, s, 0);
    } else if |s| == 0 {
    } else {
      SubstringAt(sub, s[1..]);
      if IsSubstring(sub, s[1..]) {
        var i :| OccursAt(sub, s[1..], i);
        assert s[i + 1..i + 1 + |sub|] == s[1..][i..i + |sub|];
        assert OccursAt(sub, s, i + 1);
      }
      if exists i :: OccursAt(sub, s, i) {
        var i :| OccursAt(sub, s, i);
        if i != 0 {
          assert s[1..][i - 1..i - 1 + |sub|] == s[i..i + |sub|];
          assert OccursAt(sub, s[1..], i - 1);
        }
      }
    }
  }

  /** Every string contains the empty string (so an empty search term matches). */
  lemma EmptyIsSubstring(s: string)
    ensures IsSubstring("", s)
  {
    assert IsPrefix("", s);
  }

  /** Every string contains itself. */
  lemma SubstringReflexive(s: string)
    ensures IsSubstring(s, s)
  {
    assert IsPrefix(s, s);
  }

  // ---------------------------------------------------------------------
  // Whitespace and `trim`
  // ---------------------------------------------------------------------

  /** White space as `String.prototype.trim` sees it (ECMAScript's WhiteSpace
      and LineTerminator): tab, line feed, vertical tab, form feed, carriage
      return, space, no-break space, the BOM, the other space separators
      (U+1680, U+2000 to U+200A, U+202F, U+205F, U+3000) and the line and
      paragraph separators U+2028 and U+2029. */
  predicate IsSpace(c: char) {
    var v := c as int;
    v == 0x20 || 9 <= v <= 13 || v == 0xA0 || v == 0xFEFF || v == 0x1680 ||
    0x2000 <= v <= 0x200A || v == 0x2028 || v == 0x2029 || v == 0x202F ||
    v == 0x205F || v == 0x3000
  }

  function TrimStart(s: string): (r: string)
    decreases |s|
  {
    if s != [] && IsSpace(s[0]) then TrimStart(s[1..]) else s
  }

  function TrimEnd(s: string): (r: string)
    decreases |s|
  {
    if s != [] && IsSpace(s[|s| - 1]) then TrimEnd(s[..|s| - 1]) else s
  }

  /** `s.trim()`: a stretch of `s` that neither starts nor ends with white
      space. */
  function Trim(s: string): (r: string)
    ensures |r| <= |s|
    ensures r != [] ==> !IsSpace(r[0]) && !IsSpace(r[|r| - 1])
  {
    var t := TrimStart(s);
    TrimStartShape(s);
    TrimEndShape(t);
    TrimEnd(t)
  }

  /** `TrimStart` removes a prefix made only of white space and stops at the
      first other character. */
  lemma TrimStartShape(s: string)
    ensures IsSuffixOf(TrimStart(s), s)
    ensures forall i :: 0 <= i < |s| - |TrimStart(s)| ==> IsSpace(s[i])
    ensures TrimStart(s) != [] ==> !IsSpace(TrimStart(s)[0])
  {
    TrimStartSuffix(s);
    forall i | 0 <= i < |s| - |TrimStart(s)| ensures IsSpace(s[i]) {
      TrimStartDropsSpace(s, i);
    }
    TrimStartStops(s);
  }

  lemma {:induction false} TrimStartSuffix(s: string)
    ensures IsSuffixOf(TrimStart(s), s)
    decreases |s|
  {
    if s != [] && IsSpace(s[0]) {
      var rest := s[1..];
      TrimStartSuffix(rest);
      assert s[|s| - |TrimStart(rest)|..] == rest[|rest| - |TrimStart(rest)|..];
    }
  }

  lemma {:induction false} TrimStartDropsSpace(s: string, i: nat)
    requires i < |s| - |TrimStart(s)|
    ensures IsSpace(s[i])
    decreases |s|
  {
    if i > 0 {
      TrimStartDropsSpace(s[1..], i - 1);
    }
  }

  lemma {:induction false} TrimStartStops(s: string)
    ensures TrimStart(s) != [] ==> !IsSpace(TrimStart(s)[0])
    decreases |s|
  {
    if s != [] && IsSpace(s[0]) {
      TrimStartStops(s[1..]);
    }
  }

  predicate IsSuffixOf(t: string, s: string) {
    |t| <= |s| && s[|s| - |t|..] == t
  }

  /** `TrimEnd` keeps a prefix and drops only trailing white space. */
  lemma {:induction false} TrimEndShape(s: string)
    ensures IsPrefix(TrimEnd(s), s)
    ensures forall i :: |TrimEnd(s)| <= i < |s| ==> IsSpace(s[i])
    ensures TrimEnd(s) != [] ==> !IsSpace(TrimEnd(s)[|TrimEnd(s)| - 1])
    decreases |s|
  {
    if s != [] && IsSpace(s[|s| - 1]) {
      var init := s[..|s| - 1];
      TrimEndShape(init);
      var t := TrimEnd(init);
      assert TrimEnd(s) == t;
      assert s[..|t|] == init[..|t|];
      forall i | |t| <= i < |s| ensures IsSpace(s[i]) {
        if i < |s| - 1 {
          assert s[i] == init[i];
        }
      }
    }
  }

  /** A string is blank (`!s.trim()`) exactly when all of it is white space. */
  lemma BlankIffAllSpace(s: string)
    ensures Trim(s) == "" <==> forall i :: 0 <= i < |s| ==> IsSpace(s[i])
  {
    TrimStartShape(s);
    TrimEndShape(TrimStart(s));
    var t := TrimStart(s);
    if Trim(s) == "" {
      assert t == [];
    } else {
      assert !IsSpace(t[0]);
      assert t[0] == s[|s| - |t|];
    }
  }

  /** Trimming never brings in a character the string did not hold. */
  lemma TrimKeepsOut(s: string, c: char)
    requires c !in s
    ensures c !in Trim(s)
  {
    TrimStartShape(s);
    TrimEndShape(TrimStart(s));
    var t := TrimStart(s);
    forall i | 0 <= i < |Trim(s)| ensures Trim(s)[i] != c {
      assert Trim(s)[i] == t[i];
      assert t[i] == s[|s| - |t| + i];
    }
  }

  /** Trimming twice is trimming once. */
  lemma TrimIdempotent(s: string)
    ensures Trim(Trim(s)) == Trim(s)
  {
    TrimStartShape(s);
    TrimEndShape(TrimStart(s));
    var t := Trim(s);
    TrimStartShape(t);
    TrimEndShape(TrimStart(t));
    if t != [] {
      assert !IsSpace(t[0]) && !IsSpace(t[|t| - 1]);
    }
  }

  // ---------------------------------------------------------------------
  // `split` on one separator character, and its inverse `join`
  // ---------------------------------------------------------------------

  /** `s.split(sep)` for a one-character separator. */
  function Split(s: string, sep: char): (r: seq<string>)
    ensures |r| >= 1
    decreases |s|
  {
    if s == [] then [""]
    else if s[0] == sep then [""] + Split(s[1..], sep)
    else
      var rest := Split(s[1..], sep);
      [[s[0]] + rest[0]] + rest[1..]
  }

  /** `parts.join(sep)`. */
  function Join(parts: seq<string>, sep: char): string
    requires |parts| >= 1
  {
    if |parts| == 1 then parts[0] else parts[0] + [sep] + Join(parts[1..], sep)
  }

  function Count(s: string, c: char): nat {
    if s == [] then 0 else (if s[0] == c then 1 else 0) + Count(s[1..], c)
  }

  /** Splitting and joining again gives back the string; no piece contains the
      separator; there is one piece more than separators. */
  lemma SplitJoin(s: string, sep: char)
    ensures Join(Split(s, sep), sep) == s
    ensures |Split(s, sep)| == Count(s, sep) + 1
    ensures forall k :: 0 <= k < |Split(s, sep)| ==> sep !in Split(s, sep)[k]
  {
    SplitThenJoin(s, sep);
    SplitCount(s, sep);
    forall k | 0 <= k < |Split(s, sep)| ensures sep !in Split(s, sep)[k] {
      SplitPieceClean(s, sep, k);
    }
  }

  lemma {:induction false} SplitThenJoin(s: string, sep: char)
    ensures Join(Split(s, sep), sep) == s
    decreases |s|
  {
    if s == [] {
    } else if s[0] == sep {
      SplitThenJoin(s[1..], sep);
      assert s == [] + [sep] + s[1..];
    } else {
      SplitThenJoin(s[1..], sep);
      JoinExtendFirst(s[0], Split(s[1..], sep), sep);
      assert s == [s[0]] + s[1..];
    }
  }

  /** Putting a character in front of the first piece puts it in front of
      the joined text. */
  lemma JoinExtendFirst(c: char, parts: seq<string>, sep: char)
    requires |parts| >= 1
    ensures Join([[c] + parts[0]] + parts[1..], sep) == [c] + Join(parts, sep)
  {
    var p := [[c] + parts[0]] + parts[1..];
    assert p[0] == [c] + parts[0];
    if |parts| > 1 {
      assert p[1..] == parts[1..];
      assert [c] + parts[0] + [sep] + Join(parts[1..], sep) == [c] + (parts[0] + [sep] + Join(parts[1..], sep));
    }
  }

  lemma {:induction false} SplitCount(s: string, sep: char)
    ensures |Split(s, sep)| == Count(s, sep) + 1
    decreases |s|
  {
    if s != [] {
      SplitCount(s[1..], sep);
    }
  }

  lemma {:induction false} SplitPieceClean(s: string, sep: char, k: nat)
    requires k < |Split(s, sep)|
    ensures sep !in Split(s, sep)[k]
    decreases |s|
  {
    if s != [] {
      var rest := Split(s[1..], sep);
      if s[0] == sep {
        if k > 0 {
          SplitPieceClean(s[1..], sep, k - 1);
        }
      } else if k == 0 {
        SplitPieceClean(s[1..], sep, 0);
      } else {
        SplitPieceClean(s[1..], sep, k);
        assert Split(s, sep)[k] == rest[k];
      }
    }
  }

  /** The first piece of `(a + sep + b).split(sep)` is `a` when `a` holds no
      separator. */
  lemma {:induction false} SplitFirstPiece(a: string, sep: char, b: string)
    requires sep !in a
    ensures Split(a + [sep] + b, sep)[0] == a
    decreases |a|
  {
    if a == [] {
      assert a + [sep] + b == [sep] + b;
    } else {
      SplitFirstPiece(a[1..], sep, b);
      assert (a + [sep] + b)[1..] == a[1..] + [sep] + b;
    }
  }

  /** `(a + sep + b).split(sep)` is `[a, b]` when neither holds the separator. */
  lemma {:induction false} SplitTwoPieces(a: string, sep: char, b: string)
    requires sep !in a && sep !in b
    ensures Split(a + [sep] + b, sep) == [a, b]
    decreases |a|
  {
    if a == [] {
      assert a + [sep] + b == [sep] + b;
      assert [sep] + b == [sep] + b;
      SplitNoSeparator(b, sep);
    } else {
      SplitTwoPieces(a[1..], sep, b);
      assert (a + [sep] + b)[1..] == a[1..] + [sep] + b;
      assert (a + [sep] + b)[0] == a[0] != sep;
      assert [a[0]] + a[1..] == a;
    }
  }

  lemma {:induction false} SplitNoSeparator(s: string, sep: char)
    requires sep !in s
    ensures Split(s, sep) == [s]
    decreases |s|
  {
    if s != [] {
      SplitNoSeparator(s[1..], sep);
      assert [s[0]] + s[1..] == s;
    }
  }

  /** `s.split(sep).pop()`: the text after the last separator. */
  function LastSegment(s: string, sep: char): string {
    var parts := Split(s, sep);
    parts[|parts| - 1]
  }

  /** The last segment holds no separator and is what `s` ends with. */
  lemma LastSegmentIsSuffix(s: string, sep: char)
    ensures sep !in LastSegment(s, sep)
    ensures IsSuffixOf(LastSegment(s, sep), s)
  {
    SplitJoin(s, sep);
    JoinEndsWithLast(Split(s, sep), sep);
  }

  lemma {:induction false} JoinEndsWithLast(parts: seq<string>, sep: char)
    requires |parts| >= 1
    ensures IsSuffixOf(parts[|parts| - 1], Join(parts, sep))
    decreases |parts|
  {
    if |parts| > 1 {
      JoinEndsWithLast(parts[1..], sep);
      var j := Join(parts[1..], sep);
      assert Join(parts, sep) == (parts[0] + [sep]) + j;
    }
  }

  // ---------------------------------------------------------------------
  // Numbers: `n.toString()` and `parseInt(s)`
  // ---------------------------------------------------------------------

  predicate IsDigit(c: char) {
    '0' <= c <= '9'
  }

  function DigitChar(d: nat): (c: char)
    requires d < 10
    ensures IsDigit(c)
  {
    ('0' as int + d) as char
  }

  function DigitValue(c: char): nat
    requires IsDigit(c)
  {
    c as int - '0' as int
  }

  predicate AllDigits(s: string) {
    forall i :: 0 <= i < |s| ==> IsDigit(s[i])
  }

  /** Decimal rendering of a natural number, most significant digit first. */
  function NatToString(n: nat): (r: string)
    decreases n
  {
    if n < 10 then [DigitChar(n)] else NatToString(n / 10) + [DigitChar(n % 10)]
  }

  /** `String(i)` / `i.toString()` for an integer. */
  function IntToString(i: int): string {
    if i < 0 then "-" + NatToString(-i) else NatToString(i)
  }

  /** The value of a string of decimal digits. */
  function DigitsValue(s: string): nat
    requires AllDigits(s)
    decreases |s|
  {
    if s == [] then 0 else DigitsValue(s[..|s| - 1]) * 10 + DigitValue(s[|s| - 1])
  }

  /** Length of the run of digits that `s` starts with. */
  function DigitRun(s: string): (k: nat)
    ensures k <= |s|
    ensures AllDigits(s[..k])
    ensures k < |s| ==> !IsDigit(s[k])
    decreases |s|
  {
    if s != [] && IsDigit(s[0]) then
      var k := DigitRun(s[1..]) + 1;
      assert s[..k] == [s[0]] + s[1..][..k - 1];
      k
    else 0
  }

  /** `c` as a digit of base 16, either case. */
  predicate IsHexDigit(c: char) {
    IsDigit(c) || 'a' <= c <= 'f' || 'A' <= c <= 'F'
  }

  function HexValue(c: char): (v: nat)
    requires IsHexDigit(c)
    ensures v < 16
  {
    if IsDigit(c) then DigitValue(c)
    else if 'a' <= c <= 'f' then c as int - 'a' as int + 10
    else c as int - 'A' as int + 10
  }

  predicate AllHex(s: string) {
    forall i :: 0 <= i < |s| ==> IsHexDigit(s[i])
  }

  /** The value of a string of hexadecimal digits. */
  function HexDigitsValue(s: string): nat
    requires AllHex(s)
    decreases |s|
  {
    if s == [] then 0 else HexDigitsValue(s[..|s| - 1]) * 16 + HexValue(s[|s| - 1])
  }

  /** Length of the run of hexadecimal digits that `s` starts with. */
  function HexRun(s: string): (k: nat)
    ensures k <= |s|
    ensures AllHex(s[..k])
    ensures k < |s| ==> !IsHexDigit(s[k])
    decreases |s|
  {
    if s != [] && IsHexDigit(s[0]) then
      var k := HexRun(s[1..]) + 1;
      assert s[..k] == [s[0]] + s[1..][..k - 1];
      k
    else 0
  }

  /** `0x` or `0X`, which makes `parseInt` without a radix read base 16. */
  predicate HexPrefixed(s: string) {
    |s| >= 2 && s[0] == '0' && (s[1] == 'x' || s[1] == 'X')
  }

  /** The number the longest leading run of digits spells, in base 16 when
      `hex` holds and base 10 otherwise; `None` when there is no digit. */
  function ReadDigits(s: string, hex: bool): Option<nat> {
    var k := if hex then HexRun(s) else DigitRun(s);
    if k == 0 then None
    else if hex then Some(HexDigitsValue(s[..k]))
    else Some(DigitsValue(s[..k]))
  }

  /** `parseInt(s)` with no radix: leading white space and one sign are
      skipped; a `0x`/`0X` prefix then selects base 16, otherwise base 10;
      the longest run of digits of that base is read, and `None` stands for
      `NaN` (no digit at all). */
  function ParseInt(s: string): (r: Option<int>)
    ensures TrimStart(s) == [] ==> r.None?
    ensures r.Some? && r.value < 0 ==> TrimStart(s)[0] == '-'
  {
    var t := TrimStart(s);
    var negative := t != [] && t[0] == '-';
    var body := if t != [] && (t[0] == '-' || t[0] == '+') then t[1..] else t;
    var hex := HexPrefixed(body);
    match ReadDigits(if hex then body[2..] else body, hex)
    case None => None
    case Some(v) =>
      var n: int := if negative then 0 - v as int else v;
      Some(n)
  }

  /** The rendering of a natural number is a non-empty run of digits whose
      value is the number. */
  lemma {:induction false} NatToStringDigits(n: nat)
    ensures |NatToString(n)| >= 1
    ensures AllDigits(NatToString(n))
    ensures DigitsValue(NatToString(n)) == n
    decreases n
  {
    if n >= 10 {
      NatToStringDigits(n / 10);
      var s := NatToString(n);
      assert s[..|s| - 1] == NatToString(n / 10);
    }
  }

  /** A string that is all digits parses to its digit value. */
  lemma ParseDigits(s: string)
    requires s != [] && AllDigits(s)
    ensures ParseInt(s) == Some(DigitsValue(s))
  {
    assert TrimStart(s) == s;
    assert !HexPrefixed(s) by {
      if |s| >= 2 {
        assert IsDigit(s[1]);
      }
    }
    assert DigitRun(s) == |s|;
    assert s[..|s|] == s;
  }

  /** `parseInt(String(i)) === i` for every integer. */
  lemma ParseIntToString(i: int)
    ensures ParseInt(IntToString(i)) == Some(i)
  {
    if i < 0 {
      NatToStringDigits(-i);
      var s := IntToString(i);
      assert TrimStart(s) == s;
      assert s[1..] == NatToString(-i);
      assert !HexPrefixed(s[1..]) by {
        if |s[1..]| >= 2 {
          assert IsDigit(s[1..][1]);
        }
      }
      assert DigitRun(s[1..]) == |s[1..]|;
      assert s[1..][..|s[1..]|] == s[1..];
    } else {
      NatToStringDigits(i);
      ParseDigits(NatToString(i));
    }
  }

  /** With a `0x` prefix the rest is read in base 16. */
  lemma ParseHex(h: string)
    requires h != [] && AllHex(h)
    ensures ParseInt("0x" + h) == Some(HexDigitsValue(h))
  {
    var s := "0x" + h;
    assert TrimStart(s) == s;
    assert HexPrefixed(s) && s[2..] == h;
    assert HexRun(h) == |h|;
    assert h[..|h|] == h;
  }

  /** `parseInt("0x1A")` is 26, not the 0 a decimal reading would give. */
  lemma ParseHexExample()
    ensures ParseInt("0x1A") == Some(26)
  {
    ParseHex("1A");
    assert "1A"[..1] == "1" && "1"[..0] == "";
    assert HexDigitsValue("1") == 1;
  }

  /** Two-digit zero-padded rendering, as an `<input type="time">` gives hours. */
  function TwoDigits(n: nat): string
    requires n < 100
  {
    [DigitChar(n / 10), DigitChar(n % 10)]
  }

  lemma TwoDigitsParse(n: nat)
    requires n < 100
    ensures ParseInt(TwoDigits(n)) == Some(n)
  {
    var s := TwoDigits(n);
    assert s[..1] == [DigitChar(n / 10)];
    assert [DigitChar(n / 10)][..0] == [];
    assert DigitValue(DigitChar(n / 10)) == n / 10;
    assert DigitValue(DigitChar(n % 10)) == n % 10;
    assert DigitsValue(s[..1]) == DigitsValue(s[..1][..0]) * 10 + n / 10;
    assert DigitsValue(s) == DigitsValue(s[..1]) * 10 + n % 10;
    ParseDigits(s);
  }

  /** The rendering of an integer never contains a character other than a
      digit or a leading minus sign. */
  lemma IntToStringHasNo(i: int, c: char)
    requires !IsDigit(c) && c != '-'
    ensures c !in IntToString(i)
  {
    NatToStringDigits(if i < 0 then -i else i);
  }

  // ---------------------------------------------------------------------
  // UTF-16 code units (what `length` and `substring` count)
  // ---------------------------------------------------------------------

  /** One UTF-16 code unit. */
  type CodeUnit = u: int | 0 <= u < 0x1_0000

  /** The code units of one character: the character itself below U+10000,
      otherwise its high and low surrogates. */
  function UnitsOf(c: char): (r: seq<CodeUnit>)
    ensures |r| == if c as int < 0x1_0000 then 1 else 2
    ensures c as int >= 0x1_0000 ==> 0xD800 <= r[0] < 0xDC00 && 0xDC00 <= r[1] < 0xE000
  {
    var v := c as int;
    if v < 0x1_0000 then [v]
    else [0xD800 + (v - 0x1_0000) / 0x400, 0xDC00 + (v - 0x1_0000) % 0x400]
  }

  /** A string as JavaScript stores it. */
  function Utf16(s: string): seq<CodeUnit>
    decreases |s|
  {
    if s == [] then [] else UnitsOf(s[0]) + Utf16(s[1..])
  }

  /** Every character is below U+10000 and takes one code unit. */
  predicate InBmp(s: string) {
    forall i :: 0 <= i < |s| ==> s[i] as int < 0x1_0000
  }

  /** Every character is at or above U+10000 (emoji, say) and takes two. */
  predicate AllAstral(s: string) {
    forall i :: 0 <= i < |s| ==> s[i] as int >= 0x1_0000
  }

  lemma {:induction false} Utf16Append(a: string, b: string)
    ensures Utf16(a + b) == Utf16(a) + Utf16(b)
    decreases |a|
  {
    if a == [] {
      assert a + b == b;
    } else {
      assert (a + b)[1..] == a[1..] + b;
      Utf16Append(a[1..], b);
      assert Utf16(a + b) == UnitsOf(a[0]) + (Utf16(a[1..]) + Utf16(b));
    }
  }

  /** Below U+10000 the code units are the characters themselves. */
  lemma {:induction false} Utf16InBmp(s: string)
    requires InBmp(s)
    ensures |Utf16(s)| == |s|
    ensures forall i :: 0 <= i < |s| ==> Utf16(s)[i] == s[i] as int
    decreases |s|
  {
    if s != [] {
      Utf16InBmp(s[1..]);
      assert Utf16(s) == [s[0] as int] + Utf16(s[1..]);
    }
  }

  /** Each astral character takes two units, so the first `2k` units are the
      first `k` characters. */
  lemma {:induction false} Utf16AllAstral(s: string, k: nat)
    requires AllAstral(s) && k <= |s|
    ensures |Utf16(s)| == 2 * |s|
    ensures Utf16(s)[..2 * k] == Utf16(s[..k])
    decreases |s|
  {
    if s != [] {
      Utf16AllAstral(s[1..], if k == 0 then 0 else k - 1);
      if k > 0 {
        assert s[..k][1..] == s[1..][..k - 1];
      } else {
        assert s[..k] == [];
      }
    }
  }

  // ---------------------------------------------------------------------
  // Ordering (code-point stand-in for `localeCompare`)
  // ---------------------------------------------------------------------

  /** `a.localeCompare(b) <= 0`, read as code-point order: a prefix comes
      first, otherwise the first differing character decides. */
  predicate LexLe(a: string, b: string)
    decreases |a|
  {
    a == [] || (b != [] && (a[0] < b[0] || (a[0] == b[0] && LexLe(a[1..], b[1..]))))
  }

  /** Any two strings are ordered one way or the other. */
  lemma {:induction false} LexLeTotal(a: string, b: string)
    ensures LexLe(a, b) || LexLe(b, a)
    decreases |a|
  {
    if a != [] && b != [] && a[0] == b[0] {
      LexLeTotal(a[1..], b[1..]);
    }
  }

  lemma {:induction false} LexLeTrans(a: string, b: string, c: string)
    requires LexLe(a, b) && LexLe(b, c)
    ensures LexLe(a, c)
    decreases |a|
  {
    if a != [] && a[0] == b[0] && b[0] == c[0] {
      LexLeTrans(a[1..], b[1..], c[1..]);
    }
  }

  /** Two strings ordered both ways are equal. */
  lemma {:induction false} LexLeAntisymmetric(a: string, b: string)
    requires LexLe(a, b) && LexLe(b, a)
    ensures a == b
    decreases |a|
  {
    if a != [] {
      LexLeAntisymmetric(a[1..], b[1..]);
      assert a == [a[0]] + a[1..] && b == [b[0]] + b[1..];
    }
  }
}
