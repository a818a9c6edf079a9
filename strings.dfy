/** Python string operations used by the scripts, written over `seq<char>`:
    str.strip, str.lstrip, str.split, str.join, str.replace, str.lower, str(int), int(str),
    and the handful of regular expressions the scripts apply, each as an explicit function. */
module Strings {
  import opened Wrappers
  import opened Seqs

  // ---------------------------------------------------------------------------------------
  // Character classes

  predicate IsAsciiDigit(c: char) { '0' <= c <= '9' }

  predicate IsAsciiLetter(c: char) { ('A' <= c <= 'Z') || ('a' <= c <= 'z') }

  /** `[A-Za-z0-9]` */
  predicate IsAsciiAlnum(c: char) { IsAsciiDigit(c) || IsAsciiLetter(c) }

  /** Regex `\d` on str patterns: ASCII digits and the full-width digits U+FF10..U+FF19. */
  predicate IsDecimal(c: char) { IsAsciiDigit(c) || ('０' <= c <= '９') }

  function DigitValue(c: char): (d: nat)
    requires IsDecimal(c)
    ensures d < 10
  {
    if IsAsciiDigit(c) then c as int - '0' as int else c as int - 0xFF10
  }

  /** `str.isspace()` for one character (Unicode white space, including the ideographic space). */
  predicate IsSpace(c: char) {
    var n := c as int;
    (9 <= n <= 13) || (0x1C <= n <= 0x20) || n == 0x85 || n == 0xA0 || n == 0x1680
    || (0x2000 <= n <= 0x200A) || n == 0x2028 || n == 0x2029 || n == 0x202F || n == 0x205F
    || n == 0x3000
  }

  /** Regex `\w` on str patterns (`str.isalnum()` or '_'), by a table of the scripts in use:
      ASCII, Latin-1 and Latin Extended letters, Greek, Cyrillic, kana, CJK ideographs,
      Hangul, full-width and half-width forms. */
  predicate IsWordChar(c: char) {
    var n := c as int;
    IsAsciiAlnum(c) || c == '_'
    || n == 0xAA || n == 0xB2 || n == 0xB3 || n == 0xB5 || n == 0xB9 || n == 0xBA
    || (0xBC <= n <= 0xBE) || (0xC0 <= n <= 0x24F && n != 0xD7 && n != 0xF7)
    || (0x391 <= n <= 0x3A9 && n != 0x3A2) || (0x3B1 <= n <= 0x3C9)
    || (0x400 <= n <= 0x481)
    || (0x3005 <= n <= 0x3007) || (0x3041 <= n <= 0x3096) || (0x309D <= n <= 0x309F)
    || (0x30A1 <= n <= 0x30FA) || (0x30FC <= n <= 0x30FF)
    || (0x3400 <= n <= 0x4DBF) || (0x4E00 <= n <= 0x9FFF) || (0xF900 <= n <= 0xFAFF)
    || (0xAC00 <= n <= 0xD7A3)
    || (0xFF10 <= n <= 0xFF19) || (0xFF21 <= n <= 0xFF3A) || (0xFF41 <= n <= 0xFF5A)
    || (0xFF66 <= n <= 0xFF9F)
  }

  /** Upper-case letters that `str.lower()` maps one-to-one (ASCII, Latin-1, Greek,
      Cyrillic, full-width Latin). */
  predicate IsUpper(c: char) {
    var n := c as int;
    ('A' <= c <= 'Z') || (0xC0 <= n <= 0xDE && n != 0xD7) || (0x391 <= n <= 0x3A9 && n != 0x3A2)
    || (0x400 <= n <= 0x42F) || (0xFF21 <= n <= 0xFF3A)
  }

  function LowerChar(c: char): (d: char)
    ensures IsWordChar(c) ==> IsWordChar(d)
    ensures !IsUpper(d)
    ensures !IsUpper(c) ==> d == c
  {
    var n := c as int;
    if 0x400 <= n <= 0x40F then (n + 80) as char
    else if IsUpper(c) then (n + 32) as char
    else c
  }

  // ---------------------------------------------------------------------------------------
  // Searching

  /** Index of the first occurrence of `c` in `s`. */
  function IndexOf(s: string, c: char): (r: Option<nat>)
    ensures r.None? <==> c !in s
    ensures r.Some? ==> r.value < |s| && s[r.value] == c && c !in s[..r.value]
  {
    if |s| == 0 then None
    else if s[0] == c then Some(0)
    else
      var k := IndexOf(s[1..], c);
      assert s == [s[0]] + s[1..];
      if k.None? then None
      else assert s[..k.value + 1] == [s[0]] + s[1..][..k.value]; Some(k.value + 1)
  }

  predicate HasPrefix(s: string, p: string) { |p| <= |s| && s[..|p|] == p }

  /** `p in s` for strings: `p` occurs as a contiguous piece of `s`. */
  predicate ContainsStr(s: string, p: string) {
    exists i :: 0 <= i <= |s| - |p| && HasPrefix(s[i..], p)
  }

  // ---------------------------------------------------------------------------------------
  // strip / lstrip

  function LStrip(s: string): (r: string)
    ensures |r| <= |s| && r == s[|s| - |r|..]
    ensures r == [] || !IsSpace(r[0])
    ensures forall i :: 0 <= i < |s| - |r| ==> IsSpace(s[i])
  {
    if |s| > 0 && IsSpace(s[0]) then LStrip(s[1..]) else s
  }

  function RStrip(s: string): (r: string)
    ensures |r| <= |s| && r == s[..|r|]
    ensures r == [] || !IsSpace(r[|r| - 1])
    ensures forall i :: |r| <= i < |s| ==> IsSpace(s[i])
  {
    if |s| > 0 && IsSpace(s[|s| - 1]) then RStrip(s[..|s| - 1]) else s
  }

  /** No white space at either end. */
  predicate Stripped(s: string) { s == [] || (!IsSpace(s[0]) && !IsSpace(s[|s| - 1])) }

  /** `str.strip()`: drop leading and trailing white space. */
  function Strip(s: string): (r: string)
    ensures |r| <= |s|
    ensures Stripped(r)
  {
    RStrip(LStrip(s))
  }

  /** `str.lstrip(ch)`: drop leading copies of `ch`. */
  function LStripChar(s: string, ch: char): (r: string)
    ensures |r| <= |s| && r == s[|s| - |r|..]
    ensures r == [] || r[0] != ch
    ensures forall i :: 0 <= i < |s| - |r| ==> s[i] == ch
  {
    if |s| > 0 && s[0] == ch then LStripChar(s[1..], ch) else s
  }

  predicate IsBlank(s: string) { Strip(s) == [] }

  // ---------------------------------------------------------------------------------------
  // split / join

  /** `sep.join(parts)` */
  function Join(sep: string, parts: seq<string>): string {
    if |parts| == 0 then ""
    else if |parts| == 1 then parts[0]
    else parts[0] + sep + Join(sep, parts[1..])
  }

  /** `s.split(sep)` for a one-character separator: the pieces between separators, empty
      pieces included; never an empty list. */
  function Split(s: string, sep: char): (parts: seq<string>)
    ensures |parts| >= 1
    ensures forall i :: 0 <= i < |parts| ==> sep !in parts[i]
  {
    match IndexOf(s, sep)
    case None => [s]
    case Some(i) => [s[..i]] + Split(s[i + 1..], sep)
  }

  /** Joining the pieces with the separator gives the string back. */
  lemma {:induction false} SplitJoin(s: string, sep: char)
    ensures Join([sep], Split(s, sep)) == s
    decreases |s|
  {
    match IndexOf(s, sep)
    case None =>
    case Some(i) =>
      SplitJoin(s[i + 1..], sep);
      TailOfCons(s[..i], Split(s[i + 1..], sep));
      assert s == s[..i] + [sep] + s[i + 1..];
  }

  // ---------------------------------------------------------------------------------------
  // replace / lower / re.sub(r"\W+", "", s)

  /** `s.replace(pat, rep)`: every occurrence, scanning left to right without overlap. */
  function ReplaceAll(s: string, pat: string, rep: string): (r: string)
    requires |pat| > 0
    decreases |s|
  {
    if |s| == 0 then ""
    else if HasPrefix(s, pat) then rep + ReplaceAll(s[|pat|..], pat, rep)
    else [s[0]] + ReplaceAll(s[1..], pat, rep)
  }

  /** `re.sub(r"\W+", "", s)`: every run of non-word characters removed. */
  function RemoveNonWord(s: string): (r: string)
    ensures forall i :: 0 <= i < |r| ==> IsWordChar(r[i])
    ensures |r| <= |s|
  {
    if |s| == 0 then ""
    else if IsWordChar(s[0]) then [s[0]] + RemoveNonWord(s[1..])
    else RemoveNonWord(s[1..])
  }

  /** `str.lower()` */
  function Lower(s: string): (r: string)
    ensures |r| == |s|
    ensures forall i :: 0 <= i < |s| ==> r[i] == LowerChar(s[i])
  {
    if |s| == 0 then "" else [LowerChar(s[0])] + Lower(s[1..])
  }

  // ---------------------------------------------------------------------------------------
  // Digits: re.match(r"^(\d+)", s), re.findall(r"\d+", s)[0], str(int), int(str)

  /** The longest prefix of `s` made of `\d` characters. */
  function LeadingDigits(s: string): (r: string)
    ensures |r| <= |s| && r == s[..|r|]
    ensures forall i :: 0 <= i < |r| ==> IsDecimal(r[i])
    ensures |r| < |s| ==> !IsDecimal(s[|r|])
  {
    if |s| > 0 && IsDecimal(s[0]) then [s[0]] + LeadingDigits(s[1..]) else ""
  }

  /** `re.findall(r"\d+", s)[0]`, or None where the list would be empty. */
  function FirstDigitRun(s: string): (r: Option<string>)
    ensures r.Some? ==> |r.value| > 0 && forall i :: 0 <= i < |r.value| ==> IsDecimal(r.value[i])
    ensures r.None? <==> forall i :: 0 <= i < |s| ==> !IsDecimal(s[i])
  {
    if |s| == 0 then None
    else if IsDecimal(s[0]) then Some(LeadingDigits(s))
    else FirstDigitRun(s[1..])
  }

  /** `''.join(re.findall(r"[a-zA-Z]", s))` */
  function AsciiLetters(s: string): (r: string)
    ensures forall i :: 0 <= i < |r| ==> IsAsciiLetter(r[i])
  {
    if |s| == 0 then ""
    else if IsAsciiLetter(s[0]) then [s[0]] + AsciiLetters(s[1..])
    else AsciiLetters(s[1..])
  }

  predicate AllDecimal(s: string) { forall i :: 0 <= i < |s| ==> IsDecimal(s[i]) }

  /** The number a run of decimal digits denotes. */
  function DigitsValue(ds: string): nat
    requires AllDecimal(ds)
  {
    if |ds| == 0 then 0 else DigitsValue(ds[..|ds| - 1]) * 10 + DigitValue(ds[|ds| - 1])
  }

  function DigitChar(d: nat): (c: char)
    requires d < 10
    ensures IsAsciiDigit(c) && DigitValue(c) == d
  {
    ('0' as int + d) as char
  }

  /** The decimal digits of a natural number, most significant first, without leading zeros. */
  function NatDigits(n: nat): (r: string)
    ensures |r| > 0 && AllDecimal(r)
    ensures forall i :: 0 <= i < |r| ==> IsAsciiDigit(r[i])
  {
    if n < 10 then [DigitChar(n)] else NatDigits(n / 10) + [DigitChar(n % 10)]
  }

  /** `str(n)` for an int. */
  function IntToString(n: int): string {
    if n < 0 then "-" + NatDigits(-n) else NatDigits(n)
  }

  /** Digits separated by single underscores, as Python's int() accepts them. */
  predicate DigitGroups(b: string) {
    && |b| > 0 && IsDecimal(b[0]) && IsDecimal(b[|b| - 1])
    && (forall i :: 0 <= i < |b| ==> IsDecimal(b[i]) || b[i] == '_')
    && NoDoubleUnderscore(b)
  }

  predicate NoDoubleUnderscore(b: string) {
    |b| < 2 || (!(b[0] == '_' && b[1] == '_') && NoDoubleUnderscore(b[1..]))
  }

  lemma {:induction false} DigitsNoUnderscore(ds: string)
    requires AllDecimal(ds)
    ensures NoDoubleUnderscore(ds)
  {
    if |ds| >= 2 {
      DigitsNoUnderscore(ds[1..]);
    }
  }

  function DropUnderscores(b: string): (r: string)
    requires forall i :: 0 <= i < |b| ==> IsDecimal(b[i]) || b[i] == '_'
    ensures AllDecimal(r)
  {
    if |b| == 0 then ""
    else if b[0] == '_' then DropUnderscores(b[1..])
    else [b[0]] + DropUnderscores(b[1..])
  }

  /** `int(s)` for a str: surrounding white space, an optional sign, then digits with single
      underscores allowed between them; None where Python raises ValueError. */
  function ParseInt(s: string): Option<int> {
    ParseSigned(Strip(s))
  }

  /** int() of text without surrounding white space. */
  function ParseSigned(t: string): Option<int> {
    if |t| > 0 && (t[0] == '-' || t[0] == '+') then
      match ParseUnsigned(t[1..])
      case None => None
      case Some(v) => Some(if t[0] == '-' then -(v as int) else v as int)
    else
      match ParseUnsigned(t)
      case None => None
      case Some(v) => Some(v as int)
  }

  /** The unsigned part of an int() literal. */
  function ParseUnsigned(b: string): Option<nat> {
    if DigitGroups(b) then Some(DigitsValue(DropUnderscores(b))) else None
  }

  /** Fractional value of a digit run read after a decimal point. */
  function FractionValue(ds: string): real
    requires AllDecimal(ds)
  {
    if |ds| == 0 then 0.0 else (DigitValue(ds[0]) as real + FractionValue(ds[1..])) / 10.0
  }

  /** `float(s)` for a str in plain decimal notation: surrounding white space, an optional
      sign, digits with an optional fractional part (at least one digit overall); None for
      any other text. */
  function ParseDecimal(s: string): Option<real> {
    DecimalOf(Strip(s))
  }

  /** `float()` on text without surrounding white space. */
  function DecimalOf(t: string): Option<real> {
    var neg := |t| > 0 && t[0] == '-';
    var b := if |t| > 0 && (t[0] == '-' || t[0] == '+') then t[1..] else t;
    var ip := LeadingDigits(b);
    var rest := b[|ip|..];
    if rest == "" && |ip| > 0 then
      Some(if neg then -(DigitsValue(ip) as real) else DigitsValue(ip) as real)
    else if |rest| > 0 && rest[0] == '.' && AllDecimal(rest[1..]) && |ip| + |rest| > 1 then
      var v := DigitsValue(ip) as real + FractionValue(rest[1..]);
      Some(if neg then -v else v)
    else None
  }

  // ---------------------------------------------------------------------------------------
  // Lexicographic order of code points (Python's str comparison)

  predicate LexLe(a: string, b: string) {
    |a| == 0 || (|b| > 0 && (a[0] < b[0] || (a[0] == b[0] && LexLe(a[1..], b[1..]))))
  }

  predicate LexLt(a: string, b: string) { LexLe(a, b) && a != b }

  // ---------------------------------------------------------------------------------------
  // The two bracket regexes

  /** `re.findall(r"\(([^)]+)\)", s)[0]`: the text inside the first pair of half-width
      parentheses that encloses at least one character, or None when there is no match. */
  function FirstParenGroup(s: string): (r: Option<string>)
    ensures r.Some? ==> |r.value| > 0 && ')' !in r.value
  {
    if |s| == 0 then None
    else if s[0] == '(' then
      match IndexOf(s[1..], ')')
      case Some(j) =>
        if j > 0 then Some(s[1..1 + j]) else FirstParenGroup(s[1..])
      case None => FirstParenGroup(s[1..])
    else FirstParenGroup(s[1..])
  }

  /** `re.sub(r"（.*?）", "", s)`: each full-width '（' up to the nearest following '）' is
      removed, scanning left to right, provided no newline lies between them (`.` does not
      match a newline). */
  function RemoveFullwidthParens(s: string): (r: string)
    ensures |r| <= |s|
    decreases |s|
  {
    if |s| == 0 then ""
    else if s[0] == '（' then
      match IndexOf(s[1..], '）')
      case Some(j) =>
        if '\n' !in s[1..1 + j] then RemoveFullwidthParens(s[2 + j..])
        else [s[0]] + RemoveFullwidthParens(s[1..])
      case None => [s[0]] + RemoveFullwidthParens(s[1..])
    else [s[0]] + RemoveFullwidthParens(s[1..])
  }

  // ---------------------------------------------------------------------------------------
  // Properties

  /** A string without white space at either end is its own `strip()`. */
  lemma StripFixed(s: string)
    requires Stripped(s)
    ensures Strip(s) == s
  {
  }

  /** `s.strip().strip() == s.strip()` */
  lemma StripIdempotent(s: string)
    ensures Strip(Strip(s)) == Strip(s)
  {
    StripFixed(Strip(s));
  }

  lemma {:induction false} DigitsValueOfNatDigits(n: nat)
    ensures DigitsValue(NatDigits(n)) == n
  {
    if n >= 10 {
      var x := NatDigits(n / 10);
      var y := x + [DigitChar(n % 10)];
      assert y[..|y| - 1] == x;
      DigitsValueOfNatDigits(n / 10);
    }
  }

  lemma {:induction false} DropUnderscoresOfDigits(b: string)
    requires AllDecimal(b)
    ensures DropUnderscores(b) == b
  {
    if |b| > 0 {
      DropUnderscoresOfDigits(b[1..]);
    }
  }

  lemma ParseUnsignedOfDigits(ds: string)
    requires |ds| > 0 && AllDecimal(ds)
    ensures ParseUnsigned(ds) == Some(DigitsValue(ds))
  {
    DropUnderscoresOfDigits(ds);
    DigitsNoUnderscore(ds);
    assert IsDecimal(ds[0]) && IsDecimal(ds[|ds| - 1]);
    assert DigitGroups(ds);
  }

  lemma ParseSignedNeg(b: string, v: nat)
    requires ParseUnsigned(b) == Some(v)
    ensures ParseSigned("-" + b) == Some(-(v as int))
  {
    var t := "-" + b;
    assert t[1..] == b;
  }

  lemma ParseSignedPlain(b: string, v: nat)
    requires ParseUnsigned(b) == Some(v) && |b| > 0 && b[0] != '-' && b[0] != '+'
    ensures ParseSigned(b) == Some(v as int)
  {
  }

  lemma ParseIntOfStripped(t: string, v: int)
    requires Stripped(t) && ParseSigned(t) == Some(v)
    ensures ParseInt(t) == Some(v)
  {
    StripFixed(t);
  }

  lemma NegStripped(ds: string)
    requires |ds| > 0 && IsDecimal(ds[|ds| - 1])
    ensures Stripped("-" + ds)
  {
    var t := "-" + ds;
    assert t[0] == '-' && t[|t| - 1] == ds[|ds| - 1];
  }

  lemma ParseSignedOfDigits(ds: string)
    requires |ds| > 0 && AllDecimal(ds)
    ensures ParseSigned(ds) == Some(DigitsValue(ds) as int)
  {
    ParseUnsignedOfDigits(ds);
    assert IsDecimal(ds[0]);
    ParseSignedPlain(ds, DigitsValue(ds));
  }

  lemma DigitsStripped(ds: string)
    requires |ds| > 0 && AllDecimal(ds)
    ensures Stripped(ds)
  {
    assert IsDecimal(ds[0]) && IsDecimal(ds[|ds| - 1]);
  }

  /** A run of decimal digits is read by int() as its value. */
  lemma ParseIntOfDigits(ds: string)
    requires |ds| > 0 && AllDecimal(ds)
    ensures ParseInt(ds) == Some(DigitsValue(ds) as int)
  {
    ParseSignedOfDigits(ds);
    DigitsStripped(ds);
    ParseIntOfStripped(ds, DigitsValue(ds) as int);
  }

  /** A '-' followed by a run of decimal digits is read by int() as the negated value. */
  lemma ParseIntOfNegDigits(ds: string, t: string)
    requires |ds| > 0 && AllDecimal(ds) && t == "-" + ds
    ensures ParseInt(t) == Some(-(DigitsValue(ds) as int))
  {
    ParseUnsignedOfDigits(ds);
    ParseSignedNeg(ds, DigitsValue(ds));
    NegStripped(ds);
    ParseIntOfStripped(t, -(DigitsValue(ds) as int));
  }

  /** `int(str(n)) == n`: Python's int() reads back every integer that str() prints. */
  lemma ParseIntOfIntToString(n: int)
    ensures ParseInt(IntToString(n)) == Some(n)
  {
    var m: nat := if n < 0 then -n else n;
    DigitsValueOfNatDigits(m);
    if n < 0 {
      ParseIntOfNegDigits(NatDigits(m), IntToString(n));
    } else {
      ParseIntOfDigits(NatDigits(m));
    }
  }

  /** `float()` reads a decimal digit run as its value. */
  lemma ParseDecimalOfDigits(ds: string)
    requires |ds| > 0 && AllDecimal(ds)
    ensures ParseDecimal(ds) == Some((DigitsValue(ds) as int) as real)
  {
    DigitsStripped(ds);
    StripFixed(ds);
    DecimalOfDigits(ds);
  }

  lemma DecimalOfDigits(ds: string)
    requires |ds| > 0 && AllDecimal(ds)
    ensures DecimalOf(ds) == Some(DigitsValue(ds) as real)
  {
    assert ds + "" == ds;
    LeadingDigitsOfRun(ds, "");
    assert IsDecimal(ds[0]);
  }

  /** `float()` reads '-' and a digit run as the negated value. */
  lemma ParseDecimalOfNegDigits(ds: string, t: string)
    requires |ds| > 0 && AllDecimal(ds) && t == "-" + ds
    ensures ParseDecimal(t) == Some((-(DigitsValue(ds) as int)) as real)
  {
    NegStripped(ds);
    StripFixed(t);
    DecimalOfNeg(ds, t);
  }

  lemma DecimalOfNeg(ds: string, t: string)
    requires |ds| > 0 && AllDecimal(ds) && t == "-" + ds
    ensures DecimalOf(t) == Some((-(DigitsValue(ds) as int)) as real)
  {
    assert t[1..] == ds;
    assert ds + "" == ds;
    LeadingDigitsOfRun(ds, "");
    var v := DigitsValue(ds);
    assert -(v as real) == (-(v as int)) as real;
  }

  /** `float(str(n)) == n` for every integer. */
  lemma ParseDecimalOfIntToString(n: int)
    ensures ParseDecimal(IntToString(n)) == Some(n as real)
  {
    if n < 0 {
      var m: nat := -n;
      DigitsValueOfNatDigits(m);
      ParseDecimalOfNegDigits(NatDigits(m), IntToString(n));
    } else {
      DigitsValueOfNatDigits(n);
      ParseDecimalOfDigits(NatDigits(n));
    }
  }

  /** A run of decimal digits followed by a non-digit is the leading digit run. */
  lemma {:induction false} LeadingDigitsOfRun(m: string, rest: string)
    requires AllDecimal(m) && (|rest| == 0 || !IsDecimal(rest[0]))
    ensures LeadingDigits(m + rest) == m
  {
    if |m| == 0 {
      assert m + rest == rest;
    } else {
      assert (m + rest)[1..] == m[1..] + rest;
      LeadingDigitsOfRun(m[1..], rest);
    }
  }

  /** The first piece of `a + [sep] + b` split on `sep` is `a` when `a` holds no `sep`. */
  lemma SplitHead(a: string, sep: char, b: string)
    requires sep !in a
    ensures Split(a + [sep] + b, sep)[0] == a
  {
    var s := a + [sep] + b;
    assert s[|a|] == sep;
    assert s[..|a|] == a;
    assert forall j :: 0 <= j < |a| ==> s[j] == a[j];
  }

  /** `re.sub(r"\W+", "", s)` leaves a string of word characters as it is. */
  lemma {:induction false} RemoveNonWordOfWord(s: string)
    requires forall i :: 0 <= i < |s| ==> IsWordChar(s[i])
    ensures RemoveNonWord(s) == s
  {
    if |s| > 0 {
      RemoveNonWordOfWord(s[1..]);
      assert s == [s[0]] + s[1..];
    }
  }

  /** `s.lower()` leaves a string without upper-case letters as it is. */
  lemma LowerOfNonUpper(s: string)
    requires forall i :: 0 <= i < |s| ==> !IsUpper(s[i])
    ensures Lower(s) == s
  {
    assert forall i :: 0 <= i < |s| ==> Lower(s)[i] == s[i];
  }
}
