/**
 * The Python `str` built-ins the bot's handlers rely on, over `seq<char>`:
 * strip(), split(), split(","), isdigit(), int(), lower(), upper(),
 * startswith() and the substring test `sub in s`.
 */
module Text {

  import opened Wrappers

  /** The characters Python's str.isspace() accepts; strip() and split() use exactly these. */
  predicate IsSpace(c: char) {
    || c == ' ' || '\t' <= c <= '\r' || '\U{001C}' <= c <= '\U{001F}'
    || c == '\U{0085}' || c == '\U{00A0}' || c == '\U{1680}' || '\U{2000}' <= c <= '\U{200A}'
    || c == '\U{2028}' || c == '\U{2029}' || c == '\U{202F}' || c == '\U{205F}' || c == '\U{3000}'
  }

  predicate NoSpace(s: string) {
    forall i :: 0 <= i < |s| ==> !IsSpace(s[i])
  }

  predicate AllSpace(s: string) {
    forall i :: 0 <= i < |s| ==> IsSpace(s[i])
  }

  // ---------------------------------------------------------------------------
  // strip()

  /** str.lstrip(): drop the leading whitespace. */
  function TrimStart(s: string): (r: string)
    ensures |r| <= |s| && r == s[|s| - |r|..]
    ensures AllSpace(s[..|s| - |r|])
    ensures r == [] || !IsSpace(r[0])
  {
    if |s| > 0 && IsSpace(s[0]) then
      var r := TrimStart(s[1..]);
      assert s[1..][|s| - 1 - |r|..] == s[|s| - |r|..];
      assert forall i :: 1 <= i < |s| - |r| ==> s[i] == s[1..][..|s| - 1 - |r|][i - 1];
      r
    else
      s
  }

  /** str.rstrip(): drop the trailing whitespace. */
  function TrimEnd(s: string): (r: string)
    ensures |r| <= |s| && r == s[..|r|]
    ensures AllSpace(s[|r|..])
    ensures r == [] || !IsSpace(r[|r| - 1])
  {
    if |s| > 0 && IsSpace(s[|s| - 1]) then
      var r := TrimEnd(s[..|s| - 1]);
      assert s[..|s| - 1][..|r|] == s[..|r|];
      assert forall i :: |r| <= i < |s| - 1 ==> s[i] == s[..|s| - 1][|r|..][i - |r|];
      r
    else
      s
  }

  /** Where strip() starts cutting the kept part out of s. */
  function StripOffset(s: string): nat {
    |s| - |TrimStart(s)|
  }

  /**
   * str.strip(): the kept part is a contiguous slice of s that neither starts nor
   * ends with whitespace, and everything cut off on either side is whitespace.
   */
  function Strip(s: string): (r: string)
    ensures StripOffset(s) + |r| <= |s|
    ensures r == s[StripOffset(s)..StripOffset(s) + |r|]
    ensures AllSpace(s[..StripOffset(s)]) && AllSpace(s[StripOffset(s) + |r|..])
    ensures r == [] || (!IsSpace(r[0]) && !IsSpace(r[|r| - 1]))
  {
    var t := TrimStart(s);
    var r := TrimEnd(t);
    assert t[|r|..] == s[StripOffset(s) + |r|..];
    r
  }

  /** Stripping a string that neither starts nor ends with whitespace changes nothing. */
  lemma StripUnpadded(s: string)
    requires s == [] || (!IsSpace(s[0]) && !IsSpace(s[|s| - 1]))
    ensures Strip(s) == s
  {
  }

  // ---------------------------------------------------------------------------
  // isdigit() and int()

  predicate IsDigit(c: char) {
    '0' <= c <= '9'
  }

  /** str.isdigit() on the ASCII digits: non-empty and digits only. */
  predicate IsDigits(s: string) {
    |s| > 0 && forall i :: 0 <= i < |s| ==> IsDigit(s[i])
  }

  /** The decimal value of a run of digits (int() of an isdigit() string). */
  function DigitsValue(s: string): (n: nat)
    requires forall i :: 0 <= i < |s| ==> IsDigit(s[i])
  {
    if |s| == 0 then 0
    else
      assert IsDigit(s[|s| - 1]);
      10 * DigitsValue(s[..|s| - 1]) + (s[|s| - 1] as int - '0' as int)
  }

  /** The body of a base-10 int() literal: digits, single underscores only between digits. */
  predicate IsNumeral(s: string) {
    && |s| > 0
    && IsDigit(s[0]) && IsDigit(s[|s| - 1])
    && (forall i :: 0 <= i < |s| ==> IsDigit(s[i]) || s[i] == '_')
    && NoDoubleUnderscore(s)
  }

  /** No two underscores stand next to each other. */
  predicate NoDoubleUnderscore(s: string) {
    |s| < 2 || (!(s[0] == '_' && s[1] == '_') && NoDoubleUnderscore(s[1..]))
  }

  lemma {:induction false} DigitsHaveNoUnderscore(s: string)
    requires forall i :: 0 <= i < |s| ==> IsDigit(s[i])
    ensures NoDoubleUnderscore(s) && DropUnderscores(s) == s
  {
    if |s| > 0 {
      assert IsDigit(s[0]);
      DigitsHaveNoUnderscore(s[1..]);
    }
  }

  function DropUnderscores(s: string): (r: string)
    ensures forall i :: 0 <= i < |r| ==> r[i] != '_' && r[i] in s
  {
    if |s| == 0 then [] else (if s[0] == '_' then [] else [s[0]]) + DropUnderscores(s[1..])
  }

  /** The value a numeral denotes: its digits read in base 10, underscores ignored. */
  function NumeralValue(s: string): nat
    requires IsNumeral(s)
  {
    DigitsValue(DropUnderscores(s))
  }

  /** The text after one optional leading sign. */
  function Unsigned(t: string): (body: string)
    ensures |body| <= |t|
  {
    if |t| > 0 && (t[0] == '-' || t[0] == '+') then t[1..] else t
  }

  /** int() of an already stripped text: an optional sign, then a numeral. */
  function ParseSignedNumeral(t: string): Option<int> {
    var negative := |t| > 0 && t[0] == '-';
    var body := Unsigned(t);
    if !IsNumeral(body) then None
    else
      var n: int := NumeralValue(body);
      Some(if negative then -n else n)
  }

  /**
   * Python's int(text) for a str argument: surrounding whitespace is ignored, an
   * optional sign, then a numeral; anything else raises ValueError (None here).
   */
  function PyInt(text: string): (r: Option<int>)
    ensures r.Some? ==> |Strip(text)| > 0
  {
    ParseSignedNumeral(Strip(text))
  }

  /** int() accepts every isdigit() string and returns its decimal value. */
  lemma PyIntOfDigits(s: string)
    requires IsDigits(s)
    ensures PyInt(s) == Some(DigitsValue(s))
  {
    StripOfDigits(s);
    ParseDigits(s);
  }

  /** A minus sign in front of digits gives the negative value (which the task-number step rejects). */
  lemma PyIntNegative(s: string)
    requires IsDigits(s)
    ensures PyInt("-" + s) == Some(0 - DigitsValue(s))
  {
    var t := "-" + s;
    assert Strip(t) == t by {
      assert IsDigit(s[|s| - 1]) && t[|t| - 1] == s[|s| - 1];
      StripUnpadded(t);
    }
    ParseNegativeDigits(s);
  }

  /**
   * What int() accepts: once stripped, the text is non-empty, starts with a digit or
   * a sign, ends with a digit, and holds only digits and underscores after its first
   * character. So "", "  ", "1.5", "12a", "1e3" and "--1" are all rejected.
   */
  lemma PyIntAcceptedShape(text: string)
    ensures PyInt(text).Some? ==>
      var t := Strip(text);
      && |t| > 0 && IsDigit(t[|t| - 1])
      && (IsDigit(t[0]) || t[0] == '-' || t[0] == '+')
      && forall i :: 0 < i < |t| ==> IsDigit(t[i]) || t[i] == '_'
  {
    if PyInt(text).Some? {
      var t := Strip(text);
      var body := Unsigned(t);
      assert IsNumeral(body);
      if body != t {
        assert body == t[1..];
        forall i | 0 < i < |t| ensures IsDigit(t[i]) || t[i] == '_' {
          assert t[i] == body[i - 1];
        }
        assert t[|t| - 1] == body[|body| - 1];
      }
    }
  }

  /** Surrounding whitespace does not change what int() gives. */
  lemma PyIntIgnoresPadding(text: string)
    ensures PyInt(text) == PyInt(Strip(text))
  {
    StripUnpadded(Strip(text));
  }

  /** int() reads a numeral as its value. */
  lemma PyIntOfNumeral(s: string)
    requires IsNumeral(s)
    ensures PyInt(s) == Some(NumeralValue(s) as int)
  {
    StripUnpadded(s);
    ParseSigned(s, s);
  }

  /** int() reads a numeral after a leading "+" as its value. */
  lemma PyIntOfPlusNumeral(s: string)
    requires IsNumeral(s)
    ensures PyInt("+" + s) == Some(NumeralValue(s) as int)
  {
    var t := "+" + s;
    assert t[|t| - 1] == s[|s| - 1];
    StripUnpadded(t);
    ParseSigned(t, s);
  }

  /** int() reads a numeral after a leading "-" as its negated value. */
  lemma PyIntOfNegativeNumeral(s: string)
    requires IsNumeral(s)
    ensures PyInt("-" + s) == Some(0 - NumeralValue(s))
  {
    var t := "-" + s;
    assert t[|t| - 1] == s[|s| - 1];
    StripUnpadded(t);
    ParseSigned(t, s);
  }

  lemma ParseSigned(t: string, s: string)
    requires IsNumeral(s)
    requires t == s || t == "+" + s || t == "-" + s
    ensures ParseSignedNumeral(t) == Some(if t == "-" + s then 0 - NumeralValue(s) else NumeralValue(s))
  {
    if t == s {
      assert IsDigit(s[0]);
      assert Unsigned(t) == s;
    } else {
      assert t[1..] == s;
      assert Unsigned(t) == s;
    }
  }

  /** str(n) for a natural number: its decimal digits, without leading zeros. */
  function Decimal(n: nat): (s: string)
    ensures IsDigits(s) && DigitsValue(s) == n
    ensures s[0] != '0' || s == "0"
  {
    var d := (('0' as int) + n % 10) as char;
    if n < 10 then [d]
    else
      var p := Decimal(n / 10);
      var s := p + [d];
      assert s[..|s| - 1] == p;
      assert forall i :: 0 <= i < |s| ==> IsDigit(s[i]) by {
        forall i | 0 <= i < |s| ensures IsDigit(s[i]) {
          if i < |p| { assert s[i] == p[i]; }
        }
      }
      s
  }

  /** str(n) for any integer: a minus sign before the digits of a negative number. */
  function IntText(n: int): string {
    if n < 0 then "-" + Decimal(-n) else Decimal(n)
  }

  /** int(str(n)) == n for every integer n. */
  lemma PyIntOfIntText(n: int)
    ensures PyInt(IntText(n)) == Some(n)
  {
    if n < 0 {
      PyIntNegative(Decimal(-n));
    } else {
      PyIntOfDigits(Decimal(n));
    }
  }

  lemma StripOfDigits(s: string)
    requires IsDigits(s)
    ensures Strip(s) == s
  {
    assert IsDigit(s[0]) && IsDigit(s[|s| - 1]);
    StripUnpadded(s);
  }

  lemma ParseDigits(s: string)
    requires IsDigits(s)
    ensures ParseSignedNumeral(s) == Some(DigitsValue(s))
  {
    DigitsAreNumeral(s);
    assert s[0] != '-' && s[0] != '+';
  }

  lemma ParseNegativeDigits(s: string)
    requires IsDigits(s)
    ensures ParseSignedNumeral("-" + s) == Some(0 - DigitsValue(s))
  {
    var t := "-" + s;
    assert t[0] == '-' && t[1..] == s;
    DigitsAreNumeral(s);
  }

  lemma DigitsAreNumeral(s: string)
    requires IsDigits(s)
    ensures IsNumeral(s) && DropUnderscores(s) == s
  {
    assert IsDigit(s[0]) && IsDigit(s[|s| - 1]);
    DigitsHaveNoUnderscore(s);
  }

  // ---------------------------------------------------------------------------
  // split(sep) and its inverse, sep.join(parts)

  function IndexOf(s: string, c: char): (i: nat)
    requires c in s
    ensures i < |s| && s[i] == c && c !in s[..i]
  {
    if s[0] == c then 0 else 1 + IndexOf(s[1..], c)
  }

  /** str.split(sep) for a one-character separator: always at least one part, none holds sep. */
  function SplitOn(s: string, sep: char): (parts: seq<string>)
    ensures |parts| >= 1
    decreases |s|
  {
    if sep !in s then [s]
    else
      var i := IndexOf(s, sep);
      [s[..i]] + SplitOn(s[i + 1..], sep)
  }

  /** No part of a split holds the separator. */
  lemma {:induction false} SplitPartsFree(s: string, sep: char)
    ensures forall i :: 0 <= i < |SplitOn(s, sep)| ==> sep !in SplitOn(s, sep)[i]
    decreases |s|
  {
    if sep in s {
      var i := IndexOf(s, sep);
      SplitPartsFree(s[i + 1..], sep);
      var rest := SplitOn(s[i + 1..], sep);
      assert SplitOn(s, sep) == [s[..i]] + rest;
    }
  }

  /** sep.join(parts). */
  function JoinWith(parts: seq<string>, sep: char): string
    requires |parts| >= 1
  {
    if |parts| == 1 then parts[0] else parts[0] + [sep] + JoinWith(parts[1..], sep)
  }

  /** Joining the parts of a split gives back the original text. */
  lemma {:induction false} JoinSplit(s: string, sep: char)
    ensures JoinWith(SplitOn(s, sep), sep) == s
    decreases |s|
  {
    if sep in s {
      var i := IndexOf(s, sep);
      var rest := SplitOn(s[i + 1..], sep);
      var parts := [s[..i]] + rest;
      assert SplitOn(s, sep) == parts;
      assert parts[0] == s[..i] && parts[1..] == rest;
      assert JoinWith(parts, sep) == s[..i] + [sep] + JoinWith(rest, sep);
      JoinSplit(s[i + 1..], sep);
      assert s == s[..i] + [sep] + s[i + 1..];
    } else {
      assert SplitOn(s, sep) == [s];
    }
  }

  /** Splitting a join gives back the parts, provided no part holds the separator. */
  lemma {:induction false} SplitJoin(parts: seq<string>, sep: char)
    requires |parts| >= 1
    requires forall i :: 0 <= i < |parts| ==> sep !in parts[i]
    ensures SplitOn(JoinWith(parts, sep), sep) == parts
  {
    if |parts| > 1 {
      var rest := JoinWith(parts[1..], sep);
      var s := parts[0] + [sep] + rest;
      IndexOfAfter(parts[0], sep, rest);
      assert s[..|parts[0]|] == parts[0];
      assert s[|parts[0]| + 1..] == rest;
      SplitJoin(parts[1..], sep);
    }
  }

  /** The first separator in a + [c] + b is the one after a, when a holds none. */
  lemma {:induction false} IndexOfAfter(a: string, c: char, b: string)
    requires c !in a
    ensures c in a + [c] + b && IndexOf(a + [c] + b, c) == |a|
  {
    var s := a + [c] + b;
    assert s[|a|] == c;
    if |a| > 0 {
      assert s[1..] == a[1..] + [c] + b;
      assert s[0] == a[0];
      IndexOfAfter(a[1..], c, b);
    }
  }

  // ---------------------------------------------------------------------------
  // split() on whitespace

  /** Length of the leading run of non-whitespace characters. */
  function WordLength(t: string): (n: nat)
    ensures n <= |t|
    ensures forall i :: 0 <= i < n ==> !IsSpace(t[i])
    ensures n == |t| || IsSpace(t[n])
  {
    if |t| == 0 || IsSpace(t[0]) then 0 else 1 + WordLength(t[1..])
  }

  /** A token of split(): non-empty, no whitespace. */
  predicate IsWord(w: string) {
    |w| > 0 && NoSpace(w)
  }

  /**
   * str.split() with no argument: the maximal runs of non-whitespace characters, in
   * order; whitespace before, between and after them is skipped.
   */
  function Tokens(s: string): seq<string>
    decreases |s|
  {
    if |s| == 0 then []
    else if IsSpace(s[0]) then Tokens(s[1..])
    else
      var n := WordLength(s);
      [s[..n]] + Tokens(s[n..])
  }

  /** Every token of split() is non-empty and holds no whitespace. */
  lemma {:induction false} TokensAreWords(s: string)
    ensures forall i :: 0 <= i < |Tokens(s)| ==> IsWord(Tokens(s)[i])
    decreases |s|
  {
    if |s| > 0 && IsSpace(s[0]) {
      TokensAreWords(s[1..]);
    } else if |s| > 0 {
      var n := WordLength(s);
      var rest := Tokens(s[n..]);
      TokensAreWords(s[n..]);
      var ts := Tokens(s);
      assert ts == [s[..n]] + rest;
      assert IsWord(ts[0]) by {
        assert ts[0] == s[..n];
      }
      forall i | 1 <= i < |ts| ensures IsWord(ts[i]) {
        assert ts[i] == rest[i - 1];
      }
    }
  }

  /** split() of a text that starts with a word and a space: that word, then split() of the rest. */
  lemma TokensAfterWord(w: string, rest: string)
    requires IsWord(w)
    ensures Tokens(w + " " + rest) == [w] + Tokens(rest)
  {
    var s := w + " " + rest;
    assert s[0] == w[0];
    WordLengthOfWord(w, " " + rest);
    assert s == w + (" " + rest);
    assert s[..|w|] == w;
    assert s[|w|..] == " " + rest;
    TokensAfterSpace(rest);
  }

  lemma TokensAfterSpace(rest: string)
    ensures Tokens(" " + rest) == Tokens(rest)
  {
    var t := " " + rest;
    assert t[0] == ' ' && t[1..] == rest;
  }

  lemma {:induction false} WordLengthOfWord(w: string, tail: string)
    requires NoSpace(w)
    requires tail == [] || IsSpace(tail[0])
    ensures WordLength(w + tail) == |w|
  {
    if |w| > 0 {
      assert (w + tail)[1..] == w[1..] + tail;
      WordLengthOfWord(w[1..], tail);
    } else {
      assert w + tail == tail;
    }
  }

  // ---------------------------------------------------------------------------
  // startswith(), `sub in s`

  predicate StartsWith(s: string, prefix: string) {
    |prefix| <= |s| && s[..|prefix|] == prefix
  }

  /** Python's `sub in s` for strings. */
  predicate Contains(s: string, sub: string)
    decreases |s|
  {
    StartsWith(s, sub) || (|s| > 0 && Contains(s[1..], sub))
  }

  /** `sub in s` holds when sub occurs in s at some offset (ContainsFound is the converse). */
  lemma {:induction false} ContainsAt(s: string, sub: string, k: nat)
    requires k + |sub| <= |s|
    ensures s[k..k + |sub|] == sub ==> Contains(s, sub)
    decreases k
  {
    if k > 0 && s[k..k + |sub|] == sub {
      assert s[1..][k - 1..k - 1 + |sub|] == s[k..k + |sub|];
      ContainsAt(s[1..], sub, k - 1);
    }
  }

  /** sub occurs in s starting at offset k. */
  predicate OccursAt(s: string, sub: string, k: nat) {
    k + |sub| <= |s| && s[k..k + |sub|] == sub
  }

  /** When `sub in s` holds, sub occurs in s at some offset. */
  lemma {:induction false} ContainsFound(s: string, sub: string)
    requires Contains(s, sub)
    ensures exists k: nat :: OccursAt(s, sub, k)
    decreases |s|
  {
    if StartsWith(s, sub) {
      assert OccursAt(s, sub, 0);
    } else {
      ContainsFound(s[1..], sub);
      var k: nat :| OccursAt(s[1..], sub, k);
      assert s[k + 1..k + 1 + |sub|] == s[1..][k..k + |sub|];
      assert OccursAt(s, sub, k + 1);
    }
  }

  // ---------------------------------------------------------------------------
  // lower() and upper(), on the ASCII and Cyrillic letters

  function LowerChar(c: char): char {
    if 'A' <= c <= 'Z' || '\U{0410}' <= c <= '\U{042F}' then (c as int + 32) as char
    else if '\U{0400}' <= c <= '\U{040F}' then (c as int + 80) as char
    else c
  }

  function UpperChar(c: char): char {
    if 'a' <= c <= 'z' || '\U{0430}' <= c <= '\U{044F}' then (c as int - 32) as char
    else if '\U{0450}' <= c <= '\U{045F}' then (c as int - 80) as char
    else c
  }

  /** str.lower(): character by character, the length kept. */
  function Lower(s: string): (r: string)
    ensures |r| == |s| && forall i :: 0 <= i < |s| ==> r[i] == LowerChar(s[i])
  {
    seq(|s|, i requires 0 <= i < |s| => LowerChar(s[i]))
  }

  /** Lowering commutes with taking a slice. */
  lemma LowerSlice(s: string, k: nat, n: nat)
    requires k + n <= |s|
    ensures Lower(s)[k..k + n] == Lower(s[k..k + n])
  {
    var a, b := Lower(s)[k..k + n], Lower(s[k..k + n]);
    forall i | 0 <= i < n ensures a[i] == b[i] {
      assert s[k..k + n][i] == s[k + i];
    }
  }

  /** str.upper(): character by character, the length kept. */
  function Upper(s: string): (r: string)
    ensures |r| == |s| && forall i :: 0 <= i < |s| ==> r[i] == UpperChar(s[i])
  {
    seq(|s|, i requires 0 <= i < |s| => UpperChar(s[i]))
  }
}
